/** Failure-carrying values used where the front-end either gets an answer
    from the chain or catches an exception. */
module Results {

  /** A value that may be missing: a call that reverted, a payload that did
      not decode, a wallet address that is not set. */
  datatype Option<+T> = None | Some(value: T)

  /** The outcome of a step that either produces a value or fails. */
  datatype Result<+T, +E> = Ok(value: T) | Err(error: E)
}

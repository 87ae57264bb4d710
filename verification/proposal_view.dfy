/** The per-proposal card of src/components/Proposal.jsx: which handler its
    button runs, what it says, and how far each handler gets before it would
    send a transaction. The clock, the wallet and the transaction itself are
    inputs or left out. */
module ProposalView {
  import opened Results
  import opened Records
  import opened Updaters
  import opened Reconciler

  /** The props the card receives: one list record, its id passed as
      `proposalId` (see `PropsOf`). */
  datatype Props = Props(
    proposalId: nat,
    description: string,
    amount: nat,
    minRequiredVote: nat,
    votecount: nat,
    deadline: nat,
    executed: bool)

  /** The props a list record renders with, field by field. */
  function PropsOf(r: Record): Props
  {
    Props(r.id, r.description, r.amount, r.minRequiredVote, r.votecount, r.deadline, r.executed)
  }

  /** The card's two pending-transaction flags. */
  datatype Busy = Busy(loading: bool, executing: bool)

  /** The button's `onClick`: none, `handleExecute` or `handleUserVoting`. */
  datatype Action = NoAction | ExecuteAction | VoteAction

  /** The button as rendered. */
  datatype Button = Button(action: Action, text: string)

  /** The transactions a handler can send. */
  datatype Tx = VoteTx(proposalId: nat) | ExecuteTx(proposalId: nat)

  /** How far a handler gets: an error toast and no transaction, or the
      transaction it submits. */
  datatype Outcome = Rejected(message: string) | Submitted(tx: Tx)

  const ConnectToVote := "Please connect your wallet to vote."
  const ConnectToExecute := "Please connect your wallet to execute."
  const AlreadyExecuted := "This proposal has already been executed."

  /** `new Date(deadline * 1000) < new Date()`, with `nowMs` the clock in
      milliseconds: expired strictly after the deadline second. */
  function IsExpired(deadline: nat, nowMs: int): bool
  {
    deadline * 1000 < nowMs
  }

  /** Enough votes and not executed yet. */
  function CanExecute(p: Props): bool
  {
    !p.executed && p.votecount >= p.minRequiredVote
  }

  /** The wallet address is set and not empty (the handlers test `!address`). */
  function Connected(address: Option<string>): bool
  {
    address.Some? && address.value != ""
  }

  /** The button: its `onClick` choice and its label, the label written as the
      source's nested choice including its `loading && canExecute` arm. */
  function RenderButton(p: Props, nowMs: int, busy: Busy): (b: Button)
    ensures IsExpired(p.deadline, nowMs) ==> b == Button(NoAction, "Expired")
    ensures !IsExpired(p.deadline, nowMs) && CanExecute(p) ==>
              b.action == ExecuteAction && b.text == (if busy.executing then "Executing..." else "Execute")
    ensures !IsExpired(p.deadline, nowMs) && !CanExecute(p) ==>
              b.action == VoteAction && b.text == (if busy.loading then "Voting..." else "Vote")
  {
    var expired := IsExpired(p.deadline, nowMs);
    var canExecute := CanExecute(p);
    var action := if expired then NoAction else if canExecute then ExecuteAction else VoteAction;
    var text :=
      if expired then "Expired"
      else if canExecute then (if busy.executing then "Executing..." else "Execute")
      else if busy.loading && canExecute then "Executing..."
      else if busy.loading then "Voting..."
      else "Vote";
    Button(action, text)
  }

  /** `handleUserVoting` up to the transaction: the wallet check comes first,
      then the executed check. */
  function HandleUserVoting(address: Option<string>, p: Props): (o: Outcome)
    ensures !Connected(address) ==> o == Rejected(ConnectToVote)
    ensures Connected(address) && p.executed ==> o == Rejected(AlreadyExecuted)
    ensures o.Submitted? <==> Connected(address) && !p.executed
    ensures o.Submitted? ==> o.tx == VoteTx(p.proposalId)
  {
    if !Connected(address) then Rejected(ConnectToVote)
    else if p.executed then Rejected(AlreadyExecuted)
    else Submitted(VoteTx(p.proposalId))
  }

  /** `handleExecute` up to the transaction: only the wallet is checked. */
  function HandleExecute(address: Option<string>, p: Props): (o: Outcome)
    ensures !Connected(address) ==> o == Rejected(ConnectToExecute)
    ensures o.Submitted? <==> Connected(address)
    ensures o.Submitted? ==> o.tx == ExecuteTx(p.proposalId)
  {
    if !Connected(address) then Rejected(ConnectToExecute)
    else Submitted(ExecuteTx(p.proposalId))
  }

  /** A click on the button: the handler it runs, if any. */
  function Click(address: Option<string>, p: Props, nowMs: int, busy: Busy): Option<Outcome>
  {
    match RenderButton(p, nowMs, busy).action
    case NoAction => None
    case ExecuteAction => Some(HandleExecute(address, p))
    case VoteAction => Some(HandleUserVoting(address, p))
  }

  /** A vote never takes away the Execute button: every record that could be
      executed still can, and a record that reaches its threshold by this vote
      becomes executable unless it is already executed. */
  lemma VotedKeepsExecutable(ps: seq<Record>, id: nat)
    ensures forall i :: 0 <= i < |ps| && CanExecute(PropsOf(ps[i])) ==> CanExecute(PropsOf(ApplyVoted(ps, id)[i]))
    ensures forall i :: 0 <= i < |ps| && ps[i].id == id && !ps[i].executed && ps[i].votecount + 1 == ps[i].minRequiredVote
              ==> CanExecute(PropsOf(ApplyVoted(ps, id)[i]))
  {
  }

  /** An Executed event takes the Execute button away from every matching
      record for good: whatever events follow, it never comes back. */
  lemma {:induction false} ExecutedDisablesForGood(ps: seq<Record>, id: nat, later: seq<Event>)
    ensures |Replay(ApplyExecuted(ps, id), later)| >= |ps|
    ensures forall i :: 0 <= i < |ps| && ps[i].id == id ==> !CanExecute(PropsOf(Replay(ApplyExecuted(ps, id), later)[i]))
  {
    ReplayGrows(ApplyExecuted(ps, id), later);
  }

  /** Expiry is strict: at the deadline second the proposal is still open,
      one millisecond later it is expired, and once expired it stays so. The
      last clause restates the definition from the clock's side, for readers. */
  lemma ExpiryIsStrictAndMonotone(deadline: nat, nowMs: int, laterMs: int)
    ensures !IsExpired(deadline, deadline * 1000)
    ensures IsExpired(deadline, deadline * 1000 + 1)
    ensures IsExpired(deadline, nowMs) && nowMs <= laterMs ==> IsExpired(deadline, laterMs)
    ensures IsExpired(deadline, nowMs) <==> nowMs > deadline * 1000
  {
  }

  /** Reads the action back from the label alone: the label never disagrees
      with the handler the button runs. */
  function ActionOfLabel(text: string): Action
  {
    if text == "Expired" then NoAction
    else if text == "Execute" || text == "Executing..." then ExecuteAction
    else VoteAction
  }

  /** The label determines the action, and "Executing..." is shown only on an
      execute button while executing: the `loading && canExecute` arm is dead. */
  lemma LabelMatchesAction(p: Props, nowMs: int, busy: Busy)
    ensures ActionOfLabel(RenderButton(p, nowMs, busy).text) == RenderButton(p, nowMs, busy).action
    ensures RenderButton(p, nowMs, busy).text == "Executing..." ==>
              RenderButton(p, nowMs, busy).action == ExecuteAction && busy.executing
    ensures RenderButton(p, nowMs, busy).text == "Voting..." ==>
              RenderButton(p, nowMs, busy).action == VoteAction && busy.loading
  {
  }

  /** Once expired, the button is the same whatever the votes, the executed
      flag and the busy flags are. */
  lemma ExpiredIgnoresEverythingElse(p: Props, q: Props, nowMs: int, busy: Busy, busy': Busy)
    requires p.deadline == q.deadline && IsExpired(p.deadline, nowMs)
    ensures RenderButton(p, nowMs, busy) == RenderButton(q, nowMs, busy')
  {
  }

  /** The execute handler never looks at the executed flag. */
  lemma ExecuteIgnoresExecuted(address: Option<string>, p: Props)
    ensures HandleExecute(address, p) == HandleExecute(address, p.(executed := !p.executed))
  {
  }

  /** Through the button, an executed proposal never reaches a transaction,
      an expired one has nothing to click, and an execute transaction is only
      reached for a proposal that can be executed. */
  lemma ClickSafety(address: Option<string>, p: Props, nowMs: int, busy: Busy)
    ensures p.executed ==> Click(address, p, nowMs, busy) != Some(Submitted(VoteTx(p.proposalId)))
    ensures p.executed ==> forall tx :: Click(address, p, nowMs, busy) != Some(Submitted(tx))
    ensures IsExpired(p.deadline, nowMs) ==> Click(address, p, nowMs, busy).None?
    ensures Click(address, p, nowMs, busy) == Some(Submitted(ExecuteTx(p.proposalId))) ==>
              CanExecute(p) && !IsExpired(p.deadline, nowMs) && Connected(address)
  {
  }
}

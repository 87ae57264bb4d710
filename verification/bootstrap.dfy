/** The initial bulk read of `fetchProposals` (src/App.jsx): read the proposal
    counter, ask the multicall aggregator for every proposal in one strict
    batch, decode the answers and replace the list wholesale. The chain, the
    aggregator and the ABI decoder are parameters. */
module Bootstrap {
  import opened Results
  import opened Records

  /** A byte of ABI-encoded return data. */
  type Byte = b: int | 0 <= b < 256

  /** The contract's `proposals(id)` getter result, field names as on chain. */
  datatype ProposalStruct = ProposalStruct(
    description: string,
    amount: nat,
    minVotesToPass: nat,
    voteCount: nat,
    votingDeadline: nat,
    executed: bool)

  /** One aggregated call: the proposal contract as target and the encoded
      `proposals(proposalId)` call, represented by the id it encodes. */
  datatype Call = Call(target: string, proposalId: nat)

  /** One entry of the aggregator's answer. */
  datatype Response = Response(success: bool, returnData: seq<Byte>)

  /** Why a load was abandoned. `NoContract` is the early return taken before
      anything is read; `IdRangeTooLong` is the `RangeError` a JavaScript array
      longer than 2^32 - 1 raises. */
  datatype LoadError = NoContract | CountCallFailed | IdRangeTooLong | BatchFailed | DecodeFailed

  /** The longest array JavaScript can create. */
  const MaxArrayLength: nat := 0xFFFF_FFFF

  /** The id array of `fetchProposals` can be created for this counter. */
  predicate IdRangeFits(count: nat)
  {
    count - 1 <= MaxArrayLength
  }

  /** `Array.from({length: count - 1}, (_, i) => i + 1)`: the ids 1 .. count-1;
      a negative length is clamped to 0, so a counter of 0 or 1 gives none. */
  function ProposalIds(count: nat): (ids: seq<nat>)
    ensures |ids| == if count <= 1 then 0 else count - 1
    ensures forall i :: 0 <= i < |ids| ==> ids[i] == i + 1
  {
    if count <= 1 then [] else ProposalIds(count - 1) + [count - 1]
  }

  /** One call per id, in id order, all aimed at the proposal contract. */
  function Calls(target: string, ids: seq<nat>): (cs: seq<Call>)
    ensures |cs| == |ids|
    ensures forall i :: 0 <= i < |ids| ==> cs[i] == Call(target, ids[i])
  {
    if ids == [] then [] else [Call(target, ids[0])] + Calls(target, ids[1..])
  }

  /** `responses.map(res => decodeFunctionResult("proposals", res.returnData))`:
      succeeds only when every payload decodes, keeping their order. The
      per-entry success flag is not consulted. */
  function DecodeAll(responses: seq<Response>, decode: seq<Byte> -> Option<ProposalStruct>)
    : (r: Result<seq<ProposalStruct>, LoadError>)
    ensures r.Ok? <==> forall i :: 0 <= i < |responses| ==> decode(responses[i].returnData).Some?
    ensures r.Err? ==> r.error == DecodeFailed
    ensures r.Ok? ==> |r.value| == |responses|
    ensures r.Ok? ==> forall i :: 0 <= i < |responses| ==> decode(responses[i].returnData) == Some(r.value[i])
  {
    if responses == [] then Ok([])
    else
      match decode(responses[0].returnData)
      case None => Err(DecodeFailed)
      case Some(s) =>
        match DecodeAll(responses[1..], decode)
        case Err(e) => Err(e)
        case Ok(rest) =>
          assert forall i :: 1 <= i < |responses| ==> responses[i] == responses[1..][i - 1];
          Ok([s] + rest)
  }

  /** The record built from the struct at position `index`. */
  function FromStruct(index: nat, s: ProposalStruct): Record
  {
    Record(index + 1, s.description, s.amount, s.minVotesToPass, s.voteCount, s.votingDeadline, s.executed)
  }

  /** `decoded.map((s, index) => ({id: index + 1, ...}))`: one record per
      struct, the id taken from the position, the rest field by field. */
  function ToRecords(structs: seq<ProposalStruct>): (rs: seq<Record>)
    ensures |rs| == |structs|
    ensures forall i :: 0 <= i < |structs| ==>
              && rs[i].id == i + 1
              && rs[i].description == structs[i].description
              && rs[i].amount == structs[i].amount
              && rs[i].minRequiredVote == structs[i].minVotesToPass
              && rs[i].votecount == structs[i].voteCount
              && rs[i].deadline == structs[i].votingDeadline
              && rs[i].executed == structs[i].executed
  {
    if structs == [] then []
    else
      var n := |structs| - 1;
      ToRecords(structs[..n]) + [FromStruct(n, structs[n])]
  }

  /** The read steps of `fetchProposals`, up to the new list. `countReply` is
      the answer to `proposalCount()`, `aggregate` the strict
      `tryAggregate(true, calls)` (None when the batch reverts or the
      network fails) and `decode` the ABI decoder (None when it throws). */
  function Load(
    contractPresent: bool,
    target: string,
    countReply: Option<nat>,
    aggregate: seq<Call> -> Option<seq<Response>>,
    decode: seq<Byte> -> Option<ProposalStruct>)
    : (r: Result<seq<Record>, LoadError>)
    ensures !contractPresent ==> r == Err(NoContract)
    ensures contractPresent && countReply.None? ==> r == Err(CountCallFailed)
    ensures contractPresent && countReply.Some? && !IdRangeFits(countReply.value) ==> r == Err(IdRangeTooLong)
    ensures r.Ok? ==> contractPresent && countReply.Some? && IdRangeFits(countReply.value)
    ensures r.Ok? ==>
      var calls := Calls(target, ProposalIds(countReply.value));
      && aggregate(calls).Some?
      && var responses := aggregate(calls).value;
      && |r.value| == |responses|
      && forall i :: 0 <= i < |responses| ==>
           decode(responses[i].returnData).Some? && r.value[i] == FromStruct(i, decode(responses[i].returnData).value)
    ensures contractPresent && countReply.Some? && IdRangeFits(countReply.value) ==>
      var calls := Calls(target, ProposalIds(countReply.value));
      (r.Ok? <==> (
         && aggregate(calls).Some?
         && forall i :: 0 <= i < |aggregate(calls).value| ==> decode(aggregate(calls).value[i].returnData).Some?))
  {
    if !contractPresent then Err(NoContract)
    else match countReply
      case None => Err(CountCallFailed)
      case Some(count) =>
        if !IdRangeFits(count) then Err(IdRangeTooLong)
        else match aggregate(Calls(target, ProposalIds(count)))
        case None => Err(BatchFailed)
        case Some(responses) =>
          match DecodeAll(responses, decode)
          case Err(e) => Err(e)
          case Ok(structs) => Ok(ToRecords(structs))
  }

  /** `fetchProposals` as a state update: the list is replaced by the loaded
      one when every step succeeded, and left exactly as it was otherwise. */
  function FetchProposals(
    prev: seq<Record>,
    contractPresent: bool,
    target: string,
    countReply: Option<nat>,
    aggregate: seq<Call> -> Option<seq<Response>>,
    decode: seq<Byte> -> Option<ProposalStruct>)
    : (next: seq<Record>)
    ensures Load(contractPresent, target, countReply, aggregate, decode).Err? ==> next == prev
    ensures Load(contractPresent, target, countReply, aggregate, decode).Ok? ==>
              next == Load(contractPresent, target, countReply, aggregate, decode).value
  {
    match Load(contractPresent, target, countReply, aggregate, decode)
    case Ok(rs) => rs
    case Err(_) => prev
  }

  /** The bootstrap ids are 1, 2, ..., count-1 in increasing order, each
      requested exactly once. */
  lemma ProposalIdsIncreasing(count: nat)
    ensures forall i, j :: 0 <= i < j < |ProposalIds(count)| ==> ProposalIds(count)[i] < ProposalIds(count)[j]
    ensures forall id :: id in ProposalIds(count) <==> 1 <= id < count
  {
  }

  /** Records built from a batch carry ids 1 .. n in order, hence unique ids. */
  lemma ToRecordsIds(structs: seq<ProposalStruct>)
    ensures Ids(ToRecords(structs)) == ProposalIds(|structs| + 1)
    ensures IncreasingIds(ToRecords(structs)) && UniqueIds(ToRecords(structs))
  {
  }

  /** When the aggregator answers every requested call, a successful bootstrap
      holds exactly the requested ids, in order, with no duplicates. */
  lemma BootstrapHoldsRequestedIds(
    prev: seq<Record>,
    target: string,
    count: nat,
    aggregate: seq<Call> -> Option<seq<Response>>,
    decode: seq<Byte> -> Option<ProposalStruct>)
    requires Load(true, target, Some(count), aggregate, decode).Ok?
    requires |aggregate(Calls(target, ProposalIds(count))).value| == |ProposalIds(count)|
    ensures var next := FetchProposals(prev, true, target, Some(count), aggregate, decode);
      && Ids(next) == ProposalIds(count)
      && UniqueIds(next)
      && |next| == if count <= 1 then 0 else count - 1
  {
  }

  /** A counter of 0 or 1 is not a failure: the bootstrap succeeds with an
      empty list whatever the list held before, provided the aggregator
      accepts the empty batch. */
  lemma EmptyCounterGivesEmptyList(
    prev: seq<Record>,
    target: string,
    count: nat,
    aggregate: seq<Call> -> Option<seq<Response>>,
    decode: seq<Byte> -> Option<ProposalStruct>)
    requires count <= 1
    requires aggregate([]) == Some([])
    ensures FetchProposals(prev, true, target, Some(count), aggregate, decode) == []
  {
  }

  /** A counter whose id array JavaScript cannot create makes `Array.from`
      throw; the catch keeps the previous list. */
  lemma OversizedCounterKeepsList(
    prev: seq<Record>,
    target: string,
    count: nat,
    aggregate: seq<Call> -> Option<seq<Response>>,
    decode: seq<Byte> -> Option<ProposalStruct>)
    requires count > MaxArrayLength + 1
    ensures FetchProposals(prev, true, target, Some(count), aggregate, decode) == prev
  {
  }
}

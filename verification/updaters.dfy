/** The three `prev => next` functions the event listeners hand to the
    proposal-list state setter (src/App.jsx). */
module Updaters {
  import opened Records

  /** The arguments of a `ProposalCreated` event. */
  datatype ProposalCreated = ProposalCreated(
    proposalId: nat,
    description: string,
    recipient: string,
    amount: nat,
    votingDeadline: nat,
    minVotesToPass: nat)

  /** The record a creation event produces: no votes yet, not executed. The
      recipient is not kept. */
  function Fresh(e: ProposalCreated): Record
  {
    Record(e.proposalId, e.description, e.amount, e.minVotesToPass, 0, e.votingDeadline, false)
  }

  /** Created: append the new record after every existing one. There is no
      check that the id is already present. */
  function ApplyCreated(ps: seq<Record>, e: ProposalCreated): (r: seq<Record>)
    ensures |r| == |ps| + 1
    ensures r[..|ps|] == ps
    ensures r[|ps|].id == e.proposalId
    ensures r[|ps|].votecount == 0 && !r[|ps|].executed
    ensures r[|ps|].description == e.description && r[|ps|].amount == e.amount
    ensures r[|ps|].deadline == e.votingDeadline && r[|ps|].minRequiredVote == e.minVotesToPass
  {
    ps + [Fresh(e)]
  }

  /** `ps.map(p => Number(p.id) === Number(id) ? f(p) : p)`: apply `f` to every
      record carrying the id and keep the rest. */
  function PatchWhere(ps: seq<Record>, id: nat, f: Record -> Record): (r: seq<Record>)
    ensures |r| == |ps|
    ensures forall i :: 0 <= i < |ps| && ps[i].id == id ==> r[i] == f(ps[i])
    ensures forall i :: 0 <= i < |ps| && ps[i].id != id ==> r[i] == ps[i]
  {
    if ps == [] then []
    else [if ps[0].id == id then f(ps[0]) else ps[0]] + PatchWhere(ps[1..], id, f)
  }

  /** One more vote on a record. */
  function Bump(p: Record): Record
  {
    p.(votecount := p.votecount + 1)
  }

  /** A record marked executed. */
  function MarkExecuted(p: Record): Record
  {
    p.(executed := true)
  }

  /** Voted: every record whose id equals the event's id gets one more vote;
      every other record is left as it was. */
  function ApplyVoted(ps: seq<Record>, id: nat): (r: seq<Record>)
    ensures |r| == |ps|
    ensures forall i :: 0 <= i < |ps| && ps[i].id == id ==>
              r[i].votecount == ps[i].votecount + 1 && r[i] == ps[i].(votecount := r[i].votecount)
    ensures forall i :: 0 <= i < |ps| && ps[i].id != id ==> r[i] == ps[i]
  {
    PatchWhere(ps, id, Bump)
  }

  /** Executed: every record whose id equals the event's id is marked
      executed; every other record is left as it was. */
  function ApplyExecuted(ps: seq<Record>, id: nat): (r: seq<Record>)
    ensures |r| == |ps|
    ensures forall i :: 0 <= i < |ps| && ps[i].id == id ==> r[i] == ps[i].(executed := true)
    ensures forall i :: 0 <= i < |ps| && ps[i].id != id ==> r[i] == ps[i]
  {
    PatchWhere(ps, id, MarkExecuted)
  }

  /** A Voted event for an id no record carries leaves the list as it was. */
  lemma VotedAbsentIsIdentity(ps: seq<Record>, id: nat)
    requires !HasId(ps, id)
    ensures ApplyVoted(ps, id) == ps
  {
  }

  /** An Executed event for an id no record carries leaves the list as it was. */
  lemma ExecutedAbsentIsIdentity(ps: seq<Record>, id: nat)
    requires !HasId(ps, id)
    ensures ApplyExecuted(ps, id) == ps
  {
  }

  /** Marking a proposal executed a second time changes nothing. */
  lemma ExecutedIdempotent(ps: seq<Record>, id: nat)
    ensures ApplyExecuted(ApplyExecuted(ps, id), id) == ApplyExecuted(ps, id)
  {
  }

  /** Voted and Executed never change which ids the list holds, nor where. */
  lemma PatchKeepsIds(ps: seq<Record>, id: nat)
    ensures Ids(ApplyVoted(ps, id)) == Ids(ps)
    ensures Ids(ApplyExecuted(ps, id)) == Ids(ps)
  {
  }

  /** Created lowers no vote count and clears no executed flag; the record it
      adds is the only one that starts unexecuted. */
  lemma CreatedGrows(ps: seq<Record>, e: ProposalCreated)
    ensures Grows(ps, ApplyCreated(ps, e)) && !ApplyCreated(ps, e)[|ps|].executed
  {
  }

  /** Voted adds no record, lowers no vote count and clears no executed flag. */
  lemma VotedGrows(ps: seq<Record>, id: nat)
    ensures Grows(ps, ApplyVoted(ps, id)) && |ApplyVoted(ps, id)| == |ps|
  {
  }

  /** Executed adds no record, lowers no vote count and clears no executed flag. */
  lemma ExecutedGrows(ps: seq<Record>, id: nat)
    ensures Grows(ps, ApplyExecuted(ps, id)) && |ApplyExecuted(ps, id)| == |ps|
  {
  }

  /** Created never deduplicates: the list ends up with one more record for
      the event's id than it had, so an id already present is now held twice. */
  lemma {:induction false} CreatedNoDedup(ps: seq<Record>, e: ProposalCreated)
    ensures CountId(ApplyCreated(ps, e), e.proposalId) == CountId(ps, e.proposalId) + 1
    ensures HasId(ps, e.proposalId) ==> CountId(ApplyCreated(ps, e), e.proposalId) >= 2
  {
    CountIdAppend(ps, Fresh(e), e.proposalId);
    CountIdPositive(ps, e.proposalId);
  }

  /** On a list with unique ids, Created keeps the ids unique exactly when the
      event's id is new to the list. */
  lemma CreatedKeepsUniqueIff(ps: seq<Record>, e: ProposalCreated)
    requires UniqueIds(ps)
    ensures UniqueIds(ApplyCreated(ps, e)) <==> !HasId(ps, e.proposalId)
  {
  }
}

/** The list as the three event listeners evolve it: each delivered event is
    one call of its updater on the current list, in delivery order. */
module Reconciler {
  import opened Records
  import opened Updaters

  /** The contract events the front-end subscribes to. The voter address of
      `Voted` is not used by the updater. */
  datatype Event =
    | Created(created: ProposalCreated)
    | Voted(proposalId: nat, voter: string)
    | Executed(proposalId: nat)

  /** The updater a delivered event runs. */
  function Apply(ps: seq<Record>, e: Event): seq<Record>
  {
    match e
    case Created(c) => ApplyCreated(ps, c)
    case Voted(id, _) => ApplyVoted(ps, id)
    case Executed(id) => ApplyExecuted(ps, id)
  }

  /** The list after the events are applied one at a time, first to last. */
  function Replay(ps: seq<Record>, evs: seq<Event>): seq<Record>
    decreases |evs|
  {
    if evs == [] then ps else Replay(Apply(ps, evs[0]), evs[1..])
  }

  /** Number of `Voted` events for this id. */
  function VotesFor(evs: seq<Event>, id: nat): nat
  {
    if evs == [] then 0
    else (if evs[0].Voted? && evs[0].proposalId == id then 1 else 0) + VotesFor(evs[1..], id)
  }

  /** Some `Executed` event names this id. */
  predicate ExecutedIn(evs: seq<Event>, id: nat)
  {
    exists k :: 0 <= k < |evs| && evs[k].Executed? && evs[k].proposalId == id
  }

  /** Number of `Created` events. */
  function CreationsIn(evs: seq<Event>): nat
  {
    if evs == [] then 0 else (if evs[0].Created? then 1 else 0) + CreationsIn(evs[1..])
  }

  /** Whatever events arrive, every record keeps its place and identity, no
      vote count goes down and no executed flag is cleared. */
  lemma {:induction false} ReplayGrows(ps: seq<Record>, evs: seq<Event>)
    ensures Grows(ps, Replay(ps, evs))
    decreases |evs|
  {
    if evs != [] {
      var next := Apply(ps, evs[0]);
      match evs[0] {
        case Created(c) => CreatedGrows(ps, c);
        case Voted(id, _) => VotedGrows(ps, id);
        case Executed(id) => ExecutedGrows(ps, id);
      }
      ReplayGrows(next, evs[1..]);
      GrowsTransitive(ps, next, Replay(next, evs[1..]));
    }
  }

  /** The record a run of votes and executions leaves behind. */
  function Tallied(p: Record, evs: seq<Event>): Record
  {
    p.(votecount := p.votecount + VotesFor(evs, p.id),
       executed := p.executed || ExecutedIn(evs, p.id))
  }

  /** Whatever events arrive, the list gains one record per `Created` event,
      and each record already in it ends with its vote count raised by exactly
      the number of `Voted` events for its id, executed exactly when it was
      already or some `Executed` event names it, and nothing else about it
      changed. Votes are not deduplicated by voter. */
  lemma {:induction false} ReplayTally(ps: seq<Record>, evs: seq<Event>)
    ensures |Replay(ps, evs)| == |ps| + CreationsIn(evs)
    ensures forall i :: 0 <= i < |ps| ==> Replay(ps, evs)[i] == Tallied(ps[i], evs)
    decreases |evs|
  {
    if evs != [] {
      var next := Apply(ps, evs[0]);
      var rest := evs[1..];
      assert |next| == |ps| + (if evs[0].Created? then 1 else 0);
      ReplayTally(next, rest);
      forall i | 0 <= i < |ps|
        ensures Replay(ps, evs)[i] == Tallied(ps[i], evs)
      {
        var id := ps[i].id;
        assert next[i] == ps[i].(votecount := ps[i].votecount + (if evs[0].Voted? && evs[0].proposalId == id then 1 else 0),
                                 executed := ps[i].executed || (evs[0].Executed? && evs[0].proposalId == id));
        assert Replay(ps, evs)[i] == Tallied(next[i], rest);
        assert ExecutedIn(evs, id) <==>
               (evs[0].Executed? && evs[0].proposalId == id) || ExecutedIn(rest, id) by {
          if ExecutedIn(rest, id) {
            var k :| 0 <= k < |rest| && rest[k].Executed? && rest[k].proposalId == id;
            assert evs[k + 1] == rest[k];
          }
          if ExecutedIn(evs, id) && !(evs[0].Executed? && evs[0].proposalId == id) {
            var k :| 0 <= k < |evs| && evs[k].Executed? && evs[k].proposalId == id;
            assert rest[k - 1] == evs[k];
          }
        }
      }
    }
  }

  /** The example run: records 1 and 2 from a bootstrap, a vote on 1, an
      execution of 2, then creation of proposal 3. */
  lemma ExampleRun(r1: Record, r2: Record, c: ProposalCreated, voter: string)
    requires r1.id == 1 && r2.id == 2 && c.proposalId == 3
    ensures var out := Replay([r1, r2], [Voted(1, voter), Executed(2), Created(c)]);
      && |out| == 3
      && out[0] == r1.(votecount := r1.votecount + 1)
      && out[1] == r2.(executed := true)
      && out[2].id == 3 && out[2].votecount == 0 && !out[2].executed
  {
    var evs := [Voted(1, voter), Executed(2), Created(c)];
    var s1 := Apply([r1, r2], evs[0]);
    var s2 := Apply(s1, evs[1]);
    var s3 := Apply(s2, evs[2]);
    assert evs[1..][1..][1..] == [];
    assert Replay(s2, evs[1..][1..]) == s3;
    assert Replay([r1, r2], evs) == s3;
  }
}

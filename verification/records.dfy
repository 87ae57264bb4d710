/** The proposal record the front-end keeps in its `proposals` state, and the
    predicates used to talk about lists of them. */
module Records {

  /** One proposal as displayed. Ids, amounts, thresholds, vote counts and
      deadlines (Unix seconds) are unsigned on chain, so they are `nat` here. */
  datatype Record = Record(
    id: nat,
    description: string,
    amount: nat,
    minRequiredVote: nat,
    votecount: nat,
    deadline: nat,
    executed: bool)

  /** The ids of a list, position by position. */
  function Ids(ps: seq<Record>): seq<nat>
  {
    seq(|ps|, i requires 0 <= i < |ps| => ps[i].id)
  }

  /** Some record of the list carries this id. */
  predicate HasId(ps: seq<Record>, id: nat)
  {
    exists i :: 0 <= i < |ps| && ps[i].id == id
  }

  /** No two records of the list share an id. */
  predicate UniqueIds(ps: seq<Record>)
  {
    forall i, j :: 0 <= i < j < |ps| ==> ps[i].id != ps[j].id
  }

  /** The ids strictly increase along the list. */
  predicate IncreasingIds(ps: seq<Record>)
  {
    forall i, j :: 0 <= i < j < |ps| ==> ps[i].id < ps[j].id
  }

  /** Number of records of the list that carry this id. */
  function CountId(ps: seq<Record>, id: nat): nat
  {
    if ps == [] then 0
    else (if ps[0].id == id then 1 else 0) + CountId(ps[1..], id)
  }

  /** `b` is a later state of the proposal `a`: the same proposal, with a vote
      count that has not gone down and an executed flag that has not been
      cleared. */
  predicate Evolves(a: Record, b: Record)
  {
    && b.id == a.id
    && b.description == a.description
    && b.amount == a.amount
    && b.minRequiredVote == a.minRequiredVote
    && b.deadline == a.deadline
    && a.votecount <= b.votecount
    && (a.executed ==> b.executed)
  }

  /** `after` keeps every record of `before` at its position, each evolved,
      and may have more records at the end. */
  predicate Grows(before: seq<Record>, after: seq<Record>)
  {
    && |before| <= |after|
    && forall i :: 0 <= i < |before| ==> Evolves(before[i], after[i])
  }

  /** Growth composes. */
  lemma GrowsTransitive(a: seq<Record>, b: seq<Record>, c: seq<Record>)
    requires Grows(a, b) && Grows(b, c)
    ensures Grows(a, c)
  {
  }

  /** Appending one record adds one to its id's count and nothing to the
      others'. */
  lemma {:induction false} CountIdAppend(ps: seq<Record>, p: Record, id: nat)
    ensures CountId(ps + [p], id) == CountId(ps, id) + (if p.id == id then 1 else 0)
  {
    if ps == [] {
      assert ps + [p] == [p];
      assert [p][1..] == [];
    } else {
      assert (ps + [p])[1..] == ps[1..] + [p];
      CountIdAppend(ps[1..], p, id);
    }
  }

  /** The count of an id is positive exactly when the id occurs. */
  lemma {:induction false} CountIdPositive(ps: seq<Record>, id: nat)
    ensures CountId(ps, id) > 0 <==> HasId(ps, id)
  {
    if ps != [] {
      CountIdPositive(ps[1..], id);
      if HasId(ps[1..], id) {
        var k :| 0 <= k < |ps[1..]| && ps[1..][k].id == id;
        assert ps[k + 1].id == id;
      }
      if HasId(ps, id) && ps[0].id != id {
        var k :| 0 <= k < |ps| && ps[k].id == id;
        assert ps[1..][k - 1].id == id;
      }
    }
  }
}

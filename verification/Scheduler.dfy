/**
  The reconciliation scheduler: every pass sorts the unfinished deployments by the time they were
  last reconciled and advances the first eight.  Deployments arrive and go at any await, a crash
  drops the rest of a pass, and still each one waits a bounded number of completed passes.
 */
module Scheduler {
  import opened Common

  /** Documents are listed in the order they were first stored, which is the order of their rows. */
  type Row = nat

  const SLOTS := 8

  /** `stamp` is when the deployment was last reconciled, or created if it never was. */
  datatype Doc = Doc(stamp: int, unfinished: bool)

  type Docs = map<Row, Doc>

  predicate Waits(docs: Docs, d: Row) {
    d in docs && docs[d].unfinished
  }

  function Work(docs: Docs): set<Row> {
    set d | d in docs && docs[d].unfinished
  }

  /** The order of a stable sort by stamp over documents listed by row. */
  predicate Before(docs: Docs, a: Row, b: Row)
    requires a in docs && b in docs
  {
    docs[a].stamp < docs[b].stamp || (docs[a].stamp == docs[b].stamp && a < b)
  }

  // ----- Sorting -----

  predicate IsSorted(docs: Docs, rows: seq<Row>)
    requires forall d :: d in rows ==> d in docs
  {
    forall i, j :: 0 <= i < j < |rows| ==> Before(docs, rows[i], rows[j])
  }

  function Insert(docs: Docs, d: Row, rows: seq<Row>): (r: seq<Row>)
    requires d in docs && forall x :: x in rows ==> x in docs
    ensures forall x :: x in r <==> x == d || x in rows
    ensures |r| == |rows| + 1
  {
    if |rows| == 0 || Before(docs, d, rows[0]) then [d] + rows
    else [rows[0]] + Insert(docs, d, rows[1..])
  }

  lemma {:induction false} InsertSorted(docs: Docs, d: Row, rows: seq<Row>)
    requires d in docs && (forall x :: x in rows ==> x in docs) && IsSorted(docs, rows) && d !in rows
    ensures IsSorted(docs, Insert(docs, d, rows))
    decreases |rows|
  {
    if |rows| > 0 && !Before(docs, d, rows[0]) {
      InsertSorted(docs, d, rows[1..]);
      var r := Insert(docs, d, rows[1..]);
      forall j | 0 <= j < |r|
        ensures Before(docs, rows[0], r[j])
      {
        assert r[j] in r;
        assert r[j] == d || r[j] in rows[1..];
      }
    }
  }

  /** The rows below `n` that wait, by age. */
  function SortedBelow(docs: Docs, n: nat): (r: seq<Row>)
    ensures forall x: Row :: x in r <==> x < n && Waits(docs, x)
    decreases n
  {
    if n == 0 then []
    else if Waits(docs, n - 1) then Insert(docs, n - 1, SortedBelow(docs, n - 1))
    else SortedBelow(docs, n - 1)
  }

  lemma {:induction false} SortedBelowIsSorted(docs: Docs, n: nat)
    ensures IsSorted(docs, SortedBelow(docs, n))
    decreases n
  {
    if n > 0 {
      SortedBelowIsSorted(docs, n - 1);
      if Waits(docs, n - 1) { InsertSorted(docs, n - 1, SortedBelow(docs, n - 1)); }
    }
  }

  function Chosen(sorted: seq<Row>): seq<Row> {
    if |sorted| <= SLOTS then sorted else sorted[..SLOTS]
  }

  // ----- Passes and what happens around them -----

  /** `rest` are the chosen deployments the running pass has not reconciled yet; `rows` is the number
      of rows ever stored. */
  datatype State = State(docs: Docs, rows: nat, now: int, running: bool, rest: seq<Row>, completed: nat)

  datatype Event =
    | Arrive
    | Tick(later: nat)
    | Leave(d: Row)
    | Begin
    | Reconcile(unfinished: bool)
    | Finish
    | Crash

  function Apply(s: State, e: Event): State {
    match e
    case Arrive => s.(docs := s.docs[s.rows := Doc(s.now, true)], rows := s.rows + 1)
    case Tick(later) => s.(now := s.now + later)
    case Leave(d) => if d in s.docs then s.(docs := s.docs[d := s.docs[d].(unfinished := false)]) else s
    case Begin => if s.running then s else s.(running := true, rest := Chosen(SortedBelow(s.docs, s.rows)))
    case Reconcile(unfinished) =>
      if s.running && |s.rest| > 0
      then s.(docs := Reconciled(s.docs, s.rest[0], s.now, unfinished), rest := s.rest[1..])
      else s
    case Finish => if s.running && |s.rest| == 0 then s.(running := false, completed := s.completed + 1) else s
    case Crash => s.(running := false, rest := [])
  }

  /** A deployment that went away meanwhile stays away. */
  function Reconciled(docs: Docs, d: Row, now: int, unfinished: bool): Docs {
    if Waits(docs, d) then docs[d := Doc(now, unfinished)] else docs
  }

  function Run(s: State, events: seq<Event>): State
    decreases |events|
  {
    if |events| == 0 then s else Run(Apply(s, events[0]), events[1..])
  }

  ghost predicate Inv(s: State) {
    && (forall d :: d in s.docs ==> d < s.rows && s.docs[d].stamp <= s.now)
    && (forall i, j :: 0 <= i < j < |s.rest| ==> s.rest[i] != s.rest[j])
    && (!s.running ==> s.rest == [])
    && |s.rest| <= SLOTS
  }

  lemma ApplyInv(s: State, e: Event)
    requires Inv(s)
    ensures Inv(Apply(s, e))
  {
    if e.Begin? && !s.running { SortedBelowIsSorted(s.docs, s.rows); }
  }

  // ----- The rank of a waiting deployment -----

  /** The unfinished deployments that are older than `d`. */
  function Ahead(docs: Docs, d: Row): set<Row>
    requires d in docs
  {
    set x | x in docs && docs[x].unfinished && Before(docs, x, d)
  }

  /** `d` has not been reconciled since `then`, when it was stamped `stamp`. */
  predicate StillWaits(docs: Docs, d: Row, stamp: int) {
    Waits(docs, d) && docs[d].stamp == stamp
  }

  /** While `d` waits, each completed pass takes eight others from ahead of it, and none ever joins. */
  ghost predicate RankInv(s: State, d: Row, stamp: int, start: nat, rank: nat) {
    StillWaits(s.docs, d, stamp) ==>
      && s.completed >= start
      && |Ahead(s.docs, d)| + SLOTS * (s.completed - start) <= rank
      && (s.running && d !in s.rest ==>
            |Ahead(s.docs, d) + Members(s.rest)| + SLOTS * (s.completed - start) + SLOTS - |s.rest| <= rank)
  }

  /** Nothing joins from behind: who is stamped now is younger than `d`. */
  lemma NoneJoins(s: State, e: Event, d: Row, stamp: int)
    requires Inv(s) && StillWaits(Apply(s, e).docs, d, stamp) && d in s.docs && stamp < s.now
    requires StillWaits(s.docs, d, stamp)
    ensures Ahead(Apply(s, e).docs, d) <= Ahead(s.docs, d)
  {}

  /** A pass that begins without `d` has chosen eight that are ahead of it. */
  lemma ChosenAhead(s: State, d: Row)
    requires Inv(s) && Waits(s.docs, d) && d !in Chosen(SortedBelow(s.docs, s.rows))
    ensures |Chosen(SortedBelow(s.docs, s.rows))| == SLOTS
    ensures Members(Chosen(SortedBelow(s.docs, s.rows))) <= Ahead(s.docs, d)
  {
    var sorted := SortedBelow(s.docs, s.rows);
    SortedBelowIsSorted(s.docs, s.rows);
    assert d in sorted;
    var k :| 0 <= k < |sorted| && sorted[k] == d;
    assert forall i :: 0 <= i < |Chosen(sorted)| ==> sorted[i] in Chosen(sorted);
    assert k >= SLOTS;
    forall x | x in Chosen(sorted)
      ensures x in Ahead(s.docs, d)
    {
      var i :| 0 <= i < SLOTS && sorted[i] == x;
      assert x in sorted;
      assert Before(s.docs, sorted[i], sorted[k]);
    }
  }

  /** A pass takes a waiting deployment exactly when fewer than eight are ahead of it. */
  lemma ChosenIffRank(s: State, d: Row)
    requires Inv(s) && Waits(s.docs, d)
    ensures d in Chosen(SortedBelow(s.docs, s.rows)) <==> |Ahead(s.docs, d)| < SLOTS
  {
    var sorted := SortedBelow(s.docs, s.rows);
    SortedBelowIsSorted(s.docs, s.rows);
    assert d in sorted;
    var k :| 0 <= k < |sorted| && sorted[k] == d;
    assert forall x :: x in Ahead(s.docs, d) ==> x in sorted;
    forall x | x in sorted
      ensures x in sorted[..k] <==> x in Ahead(s.docs, d)
    {
      var i :| 0 <= i < |sorted| && sorted[i] == x;
      if i < k { assert Before(s.docs, sorted[i], sorted[k]); assert sorted[..k][i] == x; }
      if i > k { assert Before(s.docs, sorted[k], sorted[i]); }
    }
    assert Ahead(s.docs, d) == Members(sorted[..k]);
    DistinctMembers(sorted[..k]);
    if k < SLOTS { assert Chosen(sorted)[k] == d; } else { ChosenBefore(sorted, k); }
  }

  lemma ChosenBefore(sorted: seq<Row>, k: nat)
    requires SLOTS <= k < |sorted| && forall i, j :: 0 <= i < j < |sorted| ==> sorted[i] != sorted[j]
    ensures sorted[k] !in Chosen(sorted)
  {}

  lemma ReconcileRank(s: State, d: Row, stamp: int, unfinished: bool)
    requires Inv(s) && StillWaits(s.docs, d, stamp) && stamp < s.now
    requires s.running && |s.rest| > 0 && d !in s.rest
    ensures
      var t := Apply(s, Reconcile(unfinished));
      StillWaits(t.docs, d, stamp) && |Ahead(t.docs, d) + Members(t.rest)| + 1 <= |Ahead(s.docs, d) + Members(s.rest)|
  {
    var t := Apply(s, Reconcile(unfinished));
    var x := s.rest[0];
    assert x in s.rest && x !in t.rest;
    assert x !in Ahead(t.docs, d);
    assert Ahead(t.docs, d) + Members(t.rest) <= Ahead(s.docs, d) + Members(s.rest);
    SubsetSize(Ahead(t.docs, d) + Members(t.rest), Ahead(s.docs, d) + Members(s.rest));
  }

  lemma StepRank(s: State, e: Event, d: Row, stamp: int, start: nat, rank: nat)
    requires Inv(s) && d in s.docs && stamp < s.now && s.docs[d].stamp <= s.now
    requires RankInv(s, d, stamp, start, rank)
    requires StillWaits(Apply(s, e).docs, d, stamp) ==> StillWaits(s.docs, d, stamp)
    ensures RankInv(Apply(s, e), d, stamp, start, rank)
  {
    var t := Apply(s, e);
    if !StillWaits(t.docs, d, stamp) { return; }
    NoneJoins(s, e, d, stamp);
    SubsetSize(Ahead(t.docs, d), Ahead(s.docs, d));
    match e
    case Begin =>
      if !s.running && d !in t.rest {
        ChosenAhead(s, d);
        assert Ahead(t.docs, d) + Members(t.rest) == Ahead(t.docs, d);
      }
    case Reconcile(unfinished) =>
      if s.running && |s.rest| > 0 {
        if d !in s.rest {
          ReconcileRank(s, d, stamp, unfinished);
        } else if s.rest[0] != d {
          assert d in t.rest;
        }
      }
    case Finish => if s.running && |s.rest| == 0 { assert Ahead(s.docs, d) + Members(s.rest) == Ahead(s.docs, d); }
    case _ =>
      SubsetSize(Ahead(t.docs, d) + Members(t.rest), Ahead(s.docs, d) + Members(t.rest));
      SubsetSize(Ahead(s.docs, d) + Members(t.rest), Ahead(s.docs, d) + Members(s.rest));
  }

  /** A deployment that was reconciled since, or went away, does not wait with its old stamp again. */
  lemma WaitingEnds(s: State, e: Event, d: Row, stamp: int)
    requires Inv(s) && d in s.docs && stamp < s.now
    ensures d in Apply(s, e).docs && Apply(s, e).now >= s.now
    ensures StillWaits(Apply(s, e).docs, d, stamp) ==> StillWaits(s.docs, d, stamp)
  {}

  lemma {:induction false} RunRank(s: State, events: seq<Event>, d: Row, stamp: int, start: nat, rank: nat)
    requires Inv(s) && d in s.docs && stamp < s.now && RankInv(s, d, stamp, start, rank)
    ensures RankInv(Run(s, events), d, stamp, start, rank)
    decreases |events|
  {
    if |events| > 0 {
      ApplyInv(s, events[0]);
      WaitingEnds(s, events[0], d, stamp);
      StepRank(s, events[0], d, stamp, start, rank);
      RunRank(Apply(s, events[0]), events[1..], d, stamp, start, rank);
    }
  }

  /** Between two passes, `d` waits behind `r` others.  After `r / 8 + 1` more completed passes it has
      been reconciled or is finished, whatever arrives, leaves or crashes meanwhile. */
  lemma WaitsForItsRank(s: State, events: seq<Event>, d: Row)
    requires Inv(s) && !s.running && Waits(s.docs, d) && s.docs[d].stamp < s.now
    requires Run(s, events).completed >= s.completed + |Ahead(s.docs, d)| / SLOTS + 1
    ensures !StillWaits(Run(s, events).docs, d, s.docs[d].stamp)
  {
    RunRank(s, events, d, s.docs[d].stamp, s.completed, |Ahead(s.docs, d)|);
  }

  /** With `n` unfinished deployments, all stamped before now, each one of them has been reconciled or
      is finished once `n / 8`, rounded up, more passes have completed. */
  lemma BoundedWaiting(s: State, events: seq<Event>)
    requires Inv(s) && !s.running && forall d :: Waits(s.docs, d) ==> s.docs[d].stamp < s.now
    requires Run(s, events).completed >= s.completed + (|Work(s.docs)| + SLOTS - 1) / SLOTS
    ensures forall d :: Waits(s.docs, d) ==> !StillWaits(Run(s, events).docs, d, s.docs[d].stamp)
  {
    forall d | Waits(s.docs, d)
      ensures !StillWaits(Run(s, events).docs, d, s.docs[d].stamp)
    {
      assert d in Work(s.docs) && d !in Ahead(s.docs, d);
      SubsetSize(Ahead(s.docs, d), Work(s.docs));
      WaitsForItsRank(s, events, d);
    }
  }

  /** Every run from an empty store satisfies what the bound asks for, once the clock has moved. */
  lemma {:induction false} RunInv(s: State, events: seq<Event>)
    requires Inv(s)
    ensures Inv(Run(s, events)) && Run(s, events).now >= s.now
    decreases |events|
  {
    if |events| > 0 {
      ApplyInv(s, events[0]);
      RunInv(Apply(s, events[0]), events[1..]);
    }
  }

  // ----- One undisturbed pass, in place -----

  /** What reconciling one deployment does to it, and when. */
  datatype Visit = Visit(now: int, unfinished: bool)

  class Reconciler {
    var docs: Docs
    var rows: nat

    constructor ()
      ensures docs == map[] && rows == 0
    {
      docs := map[];
      rows := 0;
    }

    /** One pass over the oldest eight; `visits` holds what each reconciliation leads to. */
    method Pass(visits: seq<Visit>) returns (chosen: seq<Row>)
      requires |visits| == SLOTS
      modifies this`docs
      ensures chosen == Chosen(SortedBelow(old(docs), rows))
      ensures docs == AfterVisits(old(docs), chosen, visits[..|chosen|])
    {
      var work := SortedBelow(docs, rows);
      chosen := if |work| <= SLOTS then work else work[..SLOTS];
      var i := 0;
      while i < |chosen|
        invariant 0 <= i <= |chosen|
        invariant docs == AfterVisits(old(docs), chosen[..i], visits[..i])
      {
        assert chosen[..i + 1][..i] == chosen[..i] && visits[..i + 1][..i] == visits[..i];
        var d := chosen[i];
        if Waits(docs, d) {
          docs := docs[d := Doc(visits[i].now, visits[i].unfinished)];
        }
        i := i + 1;
      }
      assert chosen[..i] == chosen;
    }
  }

  /** What reconciling the chosen deployments, one after the other, makes of the documents. */
  function AfterVisits(docs: Docs, chosen: seq<Row>, visits: seq<Visit>): Docs
    requires |visits| == |chosen|
    decreases |chosen|
  {
    if |chosen| == 0 then docs
    else
      var n := |chosen| - 1;
      Reconciled(AfterVisits(docs, chosen[..n], visits[..n]), chosen[n], visits[n].now, visits[n].unfinished)
  }

  /** The documents after these visits: each visited row once, the others as they were. */
  ghost predicate Visited(docs: Docs, t: Docs, chosen: seq<Row>, visits: seq<Visit>)
    requires |visits| == |chosen|
  {
    && t.Keys == docs.Keys
    && (forall d :: d in docs && d !in chosen ==> t[d] == docs[d])
    && (forall i :: 0 <= i < |chosen| ==> chosen[i] in t && t[chosen[i]] == Doc(visits[i].now, visits[i].unfinished))
  }

  lemma OneMoreVisit(docs: Docs, front: Docs, chosen: seq<Row>, visits: seq<Visit>, d: Row, v: Visit)
    requires |visits| == |chosen| && Visited(docs, front, chosen, visits) && d in docs && d !in chosen
    ensures Visited(docs, front[d := Doc(v.now, v.unfinished)], chosen + [d], visits + [v])
  {}

  /** A pass stamps each of the chosen deployments once and leaves the others alone. */
  lemma {:induction false} VisitsEffect(docs: Docs, chosen: seq<Row>, visits: seq<Visit>)
    requires |visits| == |chosen| && forall d :: d in chosen ==> Waits(docs, d)
    requires forall i, j :: 0 <= i < j < |chosen| ==> chosen[i] != chosen[j]
    ensures Visited(docs, AfterVisits(docs, chosen, visits), chosen, visits)
    decreases |chosen|
  {
    if |chosen| > 0 {
      var n := |chosen| - 1;
      VisitsEffect(docs, chosen[..n], visits[..n]);
      var front := AfterVisits(docs, chosen[..n], visits[..n]);
      assert chosen == chosen[..n] + [chosen[n]] && visits == visits[..n] + [visits[n]];
      assert chosen[n] in chosen && chosen[n] !in chosen[..n];
      OneMoreVisit(docs, front, chosen[..n], visits[..n], chosen[n], visits[n]);
      assert front[chosen[n]] == docs[chosen[n]];
    }
  }
}

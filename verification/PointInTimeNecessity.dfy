/** Reachable look-aheads when any one of the three protections is missing. */
module PointInTimeNecessity {
  import opened Wrappers
  import opened PointInTime
  import opened PointInTimeLaws

  ghost predicate Reachable(guards: Guards, s: State) {
    exists steps :: RunSteps(guards, Start, steps) == s
  }

  lemma StartReachable(guards: Guards)
    ensures Reachable(guards, Start)
  {
    assert RunSteps(guards, Start, []) == Start;
  }

  lemma StepReaches(guards: Guards, s: State, step: Step, t: State)
    requires Reachable(guards, s) && Next(guards, s, step) == Some(t)
    ensures Reachable(guards, t)
  {
    hide Next;
    var steps :| RunSteps(guards, Start, steps) == s;
    assert (steps + [step])[..|steps|] == steps;
    assert RunSteps(guards, Start, steps + [step]) == t;
  }

  // One snapshot taken at 8, and one run whose time is 10 at first and 5 later.

  function RunAt(asOf: int): Run {
    Run(Authority("", asOf, "", "", "", 0), "", 1)
  }

  function Tables(asOf: int, links: map<Id, Id>): Store {
    Store(map[], map[1 := Snapshot(8, 8)], map[1 := RunAt(asOf)], {}, links)
  }

  function Alone(store: Store, writes: Store, locks: set<Id>, at: Progress): State {
    State(store, map[1 := Transaction(writes, locks, at)])
  }

  lemma MergeNothing(v: Store)
    ensures Merge(Nothing, v) == v && Merge(v, Nothing) == v
  {
    var a, b := Merge(Nothing, v), Merge(v, Nothing);
    assert a.evidence == v.evidence && b.evidence == v.evidence;
    assert a.snapshots == v.snapshots && b.snapshots == v.snapshots;
    assert a.runs == v.runs && b.runs == v.runs;
    assert a.runLinks == v.runLinks && b.runLinks == v.runLinks;
  }

  /** Transaction 1 has inserted the snapshot and the run. */
  lemma Inserted(guards: Guards)
    ensures Reachable(guards, Alone(Nothing, Tables(10, map[]), {1}, Idle))
  {
    hide Reachable, Amend, EvidenceLinkStep, RunLinkStep, UpdateStep;
    var onlySnapshot := Nothing.(snapshots := map[1 := Snapshot(8, 8)]);
    StartReachable(guards);
    var s0 := Alone(Nothing, Nothing, {}, Idle);
    StepReaches(guards, Start, Step(1, Begin), s0);
    MergeNothing(Nothing);
    var s1 := Alone(Nothing, onlySnapshot, {}, Idle);
    assert Put(s0, 1, Transaction(onlySnapshot, {}, Idle)) == s1;
    StepReaches(guards, s0, Step(1, InsertSnapshot(1, Snapshot(8, 8))), s1);
    MergeNothing(onlySnapshot);
    var s2 := Alone(Nothing, Tables(10, map[]), {1}, Idle);
    assert onlySnapshot.(runs := onlySnapshot.runs[1 := RunAt(10)]) == Tables(10, map[]);
    assert {} + {1} == {1};
    assert Put(s1, 1, Transaction(Tables(10, map[]), {1}, Idle)) == s2;
    StepReaches(guards, s1, Step(1, InsertRun(1, RunAt(10))), s2);
  }

  /** The same transaction links the run to the snapshot: 8 <= 10. */
  lemma Linked(guards: Guards)
    ensures Reachable(guards, Alone(Nothing, Tables(10, map[1 := 1]), {1}, Idle))
  {
    hide Reachable, Insert, Amend, EvidenceLinkStep, UpdateStep;
    var w := Tables(10, map[]);
    Inserted(guards);
    MergeNothing(w);
    var s0 := Alone(Nothing, w, {1}, Idle);
    var s1 := Alone(Nothing, w, {1}, RunLinkBegun(1, 1, 10));
    assert {1} + {1} == {1};
    assert Put(s0, 1, Transaction(w, {1}, RunLinkBegun(1, 1, 10))) == s1;
    StepReaches(guards, s0, Step(1, BeginRunLink(1, 1)), s1);
    var s2 := Alone(Nothing, w, {1}, RunLinkRead(1, 1, 10, Snapshot(8, 8)));
    assert Put(s1, 1, Transaction(w, {1}, RunLinkRead(1, 1, 10, Snapshot(8, 8)))) == s2;
    StepReaches(guards, s1, Step(1, ReadSnapshot), s2);
    var s3 := Alone(Nothing, Tables(10, map[1 := 1]), {1}, Idle);
    assert Put(s2, 1, Transaction(Tables(10, map[1 := 1]), {1}, Idle)) == s3;
    StepReaches(guards, s2, Step(1, FinishRunLink), s3);
  }

  /** The protections do not stand in the way of a sound link: it commits under any of them. */
  lemma LinkCommits(guards: Guards)
    ensures Reachable(guards, State(Tables(10, map[1 := 1]), map[])) && NoLookAhead(Tables(10, map[1 := 1]))
  {
    hide Reachable, Insert, Amend, EvidenceLinkStep, RunLinkStep, UpdateStep;
    Linked(guards);
    MergeNothing(Tables(10, map[1 := 1]));
    var s := Alone(Nothing, Tables(10, map[1 := 1]), {1}, Idle);
    assert s.active - {1} == map[];
    StepReaches(guards, s, Step(1, Commit), State(Tables(10, map[1 := 1]), map[]));
  }

  /** Without the freeze its update passes the trigger although the run is linked. */
  lemma UncheckedUpdate(guards: Guards)
    requires !guards.freeze
    ensures Reachable(guards, Alone(Nothing, Tables(10, map[1 := 1]), {1}, UpdateChecked(1, RunAt(5))))
  {
    hide Reachable, Insert, Amend, EvidenceLinkStep, RunLinkStep;
    var w := Tables(10, map[1 := 1]);
    Linked(guards);
    MergeNothing(w);
    assert {1} + {1} == {1};
    var s0 := Alone(Nothing, w, {1}, Idle);
    var s1 := Alone(Nothing, w, {1}, UpdateBegun(1, RunAt(5)));
    assert Put(s0, 1, Transaction(w, {1}, UpdateBegun(1, RunAt(5)))) == s1;
    StepReaches(guards, s0, Step(1, BeginUpdate(1, RunAt(5))), s1);
    var s2 := Alone(Nothing, w, {1}, UpdateChecked(1, RunAt(5)));
    assert Put(s1, 1, Transaction(w, {1}, UpdateChecked(1, RunAt(5)))) == s2;
    StepReaches(guards, s1, Step(1, CheckUpdate), s2);
  }

  /** … and moves the linked run back to 5. */
  lemma WithoutFreeze(guards: Guards)
    requires !guards.freeze
    ensures Reachable(guards, State(Tables(5, map[1 := 1]), map[]))
  {
    hide Reachable, Insert, Amend, EvidenceLinkStep, RunLinkStep;
    var w, moved := Tables(10, map[1 := 1]), Tables(5, map[1 := 1]);
    UncheckedUpdate(guards);
    MergeNothing(moved);
    var s0 := Alone(Nothing, w, {1}, UpdateChecked(1, RunAt(5)));
    var s1 := Alone(Nothing, moved, {1}, Idle);
    assert w.(runs := w.runs[1 := RunAt(5)]) == moved;
    assert Put(s0, 1, Transaction(moved, {1}, Idle)) == s1;
    StepReaches(guards, s0, Step(1, FinishUpdate), s1);
    assert s1.active - {1} == map[];
    StepReaches(guards, s1, Step(1, Commit), State(moved, map[]));
  }

  function Pair(store: Store, at: Progress, writes: Store, locks: set<Id>, other: Progress): State {
    State(store, map[1 := Transaction(Nothing, {}, at), 2 := Transaction(writes, locks, other)])
  }

  /** Committed snapshot and run; transaction 1 has read the run's time without locking it. */
  lemma ReadUnlocked(guards: Guards)
    requires !guards.lock
    ensures Reachable(guards, Alone(Tables(10, map[]), Nothing, {}, RunLinkRead(1, 1, 10, Snapshot(8, 8))))
  {
    hide Reachable, Insert, Amend, EvidenceLinkStep, UpdateStep;
    var w := Tables(10, map[]);
    Inserted(guards);
    MergeNothing(w);
    var s0 := Alone(Nothing, w, {1}, Idle);
    assert s0.active - {1} == map[];
    StepReaches(guards, s0, Step(1, Commit), State(w, map[]));
    var s1 := Alone(w, Nothing, {}, Idle);
    StepReaches(guards, State(w, map[]), Step(1, Begin), s1);
    var s2 := Alone(w, Nothing, {}, RunLinkBegun(1, 1, 10));
    assert Put(s1, 1, Transaction(Nothing, {}, RunLinkBegun(1, 1, 10))) == s2;
    StepReaches(guards, s1, Step(1, BeginRunLink(1, 1)), s2);
    var s3 := Alone(w, Nothing, {}, RunLinkRead(1, 1, 10, Snapshot(8, 8)));
    assert Put(s2, 1, Transaction(Nothing, {}, RunLinkRead(1, 1, 10, Snapshot(8, 8)))) == s3;
    StepReaches(guards, s2, Step(1, ReadSnapshot), s3);
  }

  /** Transaction 2 starts moving the run to 5 and finds no link. */
  lemma MoveChecked(guards: Guards)
    requires !guards.lock
    ensures Reachable(guards,
              Pair(Tables(10, map[]), RunLinkRead(1, 1, 10, Snapshot(8, 8)), Nothing, {1}, UpdateChecked(1, RunAt(5))))
  {
    hide Reachable, Insert, Amend, EvidenceLinkStep, RunLinkStep;
    var w, at := Tables(10, map[]), RunLinkRead(1, 1, 10, Snapshot(8, 8));
    ReadUnlocked(guards);
    MergeNothing(w);
    var s0 := Alone(w, Nothing, {}, at);
    var s1 := Pair(w, at, Nothing, {}, Idle);
    assert Put(s0, 2, Transaction(Nothing, {}, Idle)) == s1;
    StepReaches(guards, s0, Step(2, Begin), s1);
    var s2 := Pair(w, at, Nothing, {1}, UpdateBegun(1, RunAt(5)));
    assert {} + {1} == {1};
    assert Put(s1, 2, Transaction(Nothing, {1}, UpdateBegun(1, RunAt(5)))) == s2;
    StepReaches(guards, s1, Step(2, BeginUpdate(1, RunAt(5))), s2);
    var s3 := Pair(w, at, Nothing, {1}, UpdateChecked(1, RunAt(5)));
    assert Put(s2, 2, Transaction(Nothing, {1}, UpdateChecked(1, RunAt(5)))) == s3;
    StepReaches(guards, s2, Step(2, CheckUpdate), s3);
  }

  /** … writes it and commits, while transaction 1 still trusts the time it read. */
  lemma MovedMeanwhile(guards: Guards)
    requires !guards.lock
    ensures Reachable(guards, Alone(Tables(5, map[]), Nothing, {}, RunLinkRead(1, 1, 10, Snapshot(8, 8))))
  {
    hide Reachable, Insert, Amend, EvidenceLinkStep, RunLinkStep;
    var w, at := Tables(10, map[]), RunLinkRead(1, 1, 10, Snapshot(8, 8));
    var moved := Nothing.(runs := map[1 := RunAt(5)]);
    MoveChecked(guards);
    var s0 := Pair(w, at, Nothing, {1}, UpdateChecked(1, RunAt(5)));
    var s1 := Pair(w, at, moved, {1}, Idle);
    assert Put(s0, 2, Transaction(moved, {1}, Idle)) == s1;
    StepReaches(guards, s0, Step(2, FinishUpdate), s1);
    var s2 := Alone(Tables(5, map[]), Nothing, {}, at);
    assert Merge(w, moved) == Tables(5, map[]) && s1.active - {2} == s2.active;
    StepReaches(guards, s1, Step(2, Commit), s2);
  }

  /** Transaction 1 then writes its link from the stale read: migration 0004's race. */
  lemma WithoutLock(guards: Guards)
    requires !guards.lock
    ensures Reachable(guards, State(Tables(5, map[1 := 1]), map[]))
  {
    hide Reachable, Insert, Amend, EvidenceLinkStep, UpdateStep;
    var v := Tables(5, map[]);
    var link := Nothing.(runLinks := map[1 := 1]);
    MovedMeanwhile(guards);
    MergeNothing(v);
    var s0 := Alone(v, Nothing, {}, RunLinkRead(1, 1, 10, Snapshot(8, 8)));
    var s1 := Alone(v, link, {}, Idle);
    assert Put(s0, 1, Transaction(link, {}, Idle)) == s1;
    StepReaches(guards, s0, Step(1, FinishRunLink), s1);
    assert Merge(v, link) == Tables(5, map[1 := 1]) && s1.active - {1} == map[];
    StepReaches(guards, s1, Step(1, Commit), State(Tables(5, map[1 := 1]), map[]));
  }

  function Later(): Store {
    Tables(10, map[1 := 1]).(snapshots := map[1 := Snapshot(20, 20)])
  }

  /** Without the append-only trigger the linked snapshot can be moved past its run. */
  lemma WithoutAppendOnly(guards: Guards)
    requires !guards.appendOnly
    ensures Reachable(guards, State(Later(), map[]))
  {
    hide Reachable, Insert, EvidenceLinkStep, RunLinkStep, UpdateStep;
    var w := Tables(10, map[1 := 1]);
    Linked(guards);
    MergeNothing(w);
    MergeNothing(Later());
    var s0 := Alone(Nothing, w, {1}, Idle);
    var s1 := Alone(Nothing, Later(), {1}, Idle);
    assert w.(snapshots := w.snapshots[1 := Snapshot(20, 20)]) == Later();
    assert Put(s0, 1, Transaction(Later(), {1}, Idle)) == s1;
    StepReaches(guards, s0, Step(1, AmendSnapshot(1, Snapshot(20, 20))), s1);
    assert s1.active - {1} == map[];
    StepReaches(guards, s1, Step(1, Commit), State(Later(), map[]));
  }

  lemma LooksAhead()
    ensures !NoLookAhead(Tables(5, map[1 := 1])) && !NoLookAhead(Later())
  {
    var v := Tables(5, map[1 := 1]);
    assert 1 in v.runLinks && 1 in Later().runLinks;
  }

  lemma MissingGuard(guards: Guards) returns (bad: State)
    requires !guards.lock || !guards.freeze || !guards.appendOnly
    ensures Reachable(guards, bad) && !NoLookAhead(bad.store)
  {
    hide NoLookAhead, Reachable;
    LooksAhead();
    bad := State(Tables(5, map[1 := 1]), map[]);
    if !guards.lock {
      WithoutLock(guards);
    } else if !guards.freeze {
      WithoutFreeze(guards);
    } else {
      WithoutAppendOnly(guards);
      bad := State(Later(), map[]);
    }
  }

  /** No look-ahead is ever committed exactly when all three protections are in force. */
  lemma GuardsAreExact(guards: Guards)
    ensures (forall s | Reachable(guards, s) :: NoLookAhead(s.store)) <==>
            guards.lock && guards.freeze && guards.appendOnly
  {
    hide NoLookAhead, RunSteps;
    if guards.lock && guards.freeze && guards.appendOnly {
      forall s | Reachable(guards, s) ensures NoLookAhead(s.store) {
        var steps :| RunSteps(guards, Start, steps) == s;
        NeverLooksAhead(steps);
      }
    } else {
      var bad := MissingGuard(guards);
    }
  }
}

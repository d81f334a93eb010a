/**
 What each kind of transaction does to the point-in-time tables, whatever else is in progress and under any guards:
 exactly when it writes its row, and that otherwise nothing changes. The conditions are written out in columns.
 */
module PointInTimeProgress {
  import opened Wrappers
  import opened PointInTime
  import opened PointInTimeLaws
  import opened PointInTimeNecessity

  /** One step, or waiting where it cannot be taken. */
  function After(guards: Guards, s: State, x: Id, a: Action): State {
    var next := Next(guards, s, Step(x, a));
    if next.Some? then next.value else s
  }

  lemma PushStep(guards: Guards, s: State, steps: seq<Step>, x: Id, a: Action)
    ensures RunSteps(guards, s, steps + [Step(x, a)]) == After(guards, RunSteps(guards, s, steps), x, a)
  {
    hide Next;
    assert (steps + [Step(x, a)])[..|steps|] == steps;
  }

  /** A transaction of one statement that is one step. */
  function Simple(x: Id, a: Action): seq<Step> {
    [Step(x, Begin), Step(x, a), Step(x, Commit)]
  }

  /** A transaction of one statement whose trigger reads before it writes. */
  function Guarded(x: Id, a: Action, b: Action, c: Action): seq<Step> {
    [Step(x, Begin), Step(x, a), Step(x, b), Step(x, c), Step(x, Commit)]
  }

  lemma SimpleRuns(guards: Guards, s: State, x: Id, a: Action)
    ensures RunSteps(guards, s, Simple(x, a)) ==
            After(guards, After(guards, After(guards, s, x, Begin), x, a), x, Commit)
  {
    hide RunSteps, After;
    var all := Simple(x, a);
    assert [] + [all[0]] == all[..1] && all[..1] + [all[1]] == all[..2] && all[..2] + [all[2]] == all;
    NoSteps(guards, s);
    PushStep(guards, s, [], x, Begin);
    PushStep(guards, s, all[..1], x, a);
    PushStep(guards, s, all[..2], x, Commit);
  }

  lemma GuardedRuns(guards: Guards, s: State, x: Id, a: Action, b: Action, c: Action)
    ensures var read := After(guards, After(guards, After(guards, s, x, Begin), x, a), x, b);
            RunSteps(guards, s, Guarded(x, a, b, c)) == After(guards, After(guards, read, x, c), x, Commit)
  {
    hide RunSteps, After;
    var all := Guarded(x, a, b, c);
    assert [] + [all[0]] == all[..1] && all[..1] + [all[1]] == all[..2] && all[..2] + [all[2]] == all[..3];
    assert all[..3] + [all[3]] == all[..4] && all[..4] + [all[4]] == all;
    NoSteps(guards, s);
    PushStep(guards, s, [], x, Begin);
    PushStep(guards, s, all[..1], x, a);
    PushStep(guards, s, all[..2], x, b);
    PushStep(guards, s, all[..3], x, c);
    PushStep(guards, s, all[..4], x, Commit);
  }

  lemma NoSteps(guards: Guards, s: State)
    ensures RunSteps(guards, s, []) == s
  {
  }

  const Fresh := Transaction(Nothing, {}, Idle)

  lemma Begins(guards: Guards, s: State, x: Id)
    requires x !in s.active
    ensures After(guards, s, x, Begin) == Put(s, x, Fresh)
  {
  }

  lemma Overwritten(s: State, x: Id, t: Transaction, u: Transaction)
    ensures Put(Put(s, x, t), x, u) == Put(s, x, u)
    ensures x !in s.active ==> Abort(Put(s, x, t), x) == s
  {
    assert x !in s.active ==> s.active[x := t] - {x} == s.active;
  }

  /** A transaction that has ended takes no further step. */
  lemma Gone(guards: Guards, s: State, x: Id, a: Action)
    requires x !in s.active && !a.Begin?
    ensures After(guards, s, x, a) == s
  {
  }

  lemma Commits(guards: Guards, s: State, x: Id, t: Transaction)
    requires x !in s.active && t.at == Idle
    ensures After(guards, Put(s, x, t), x, Commit) == State(Merge(s.store, t.writes), s.active)
  {
    assert Put(s, x, t).active - {x} == s.active;
  }

  lemma Sees(s: State, x: Id, t: Transaction)
    requires t.writes == Nothing
    ensures View(Put(s, x, t), x) == s.store
  {
    MergeNothing(s.store);
  }

  /** Only a commit writes to the tables, a step touches no other transaction, and a rollback leaves no trace. */
  lemma StepsStayApart(guards: Guards, s: State, x: Id, a: Action)
    requires Next(guards, s, Step(x, a)).Some?
    ensures var t := Next(guards, s, Step(x, a)).value;
            && (!a.Commit? ==> t.store == s.store)
            && (forall y | y != x :: y in t.active <==> y in s.active)
            && (forall y | y != x && y in s.active :: t.active[y] == s.active[y])
            && (a.Rollback? || a.Commit? ==> x !in t.active)
  {
    hide View;
  }

  // Evidence links

  lemma EvidenceBegins(guards: Guards, s: State, x: Id, n: Id, e: Id)
    requires x !in s.active
    ensures After(guards, Put(s, x, Fresh), x, BeginEvidenceLink(n, e)) ==
            if n in s.store.snapshots
            then Put(s, x, Transaction(Nothing, {}, EvidenceLinkBegun(n, e, s.store.snapshots[n].asOf))) else s
  {
    hide View;
    Sees(s, x, Fresh);
    var cutoff := if n in s.store.snapshots then s.store.snapshots[n].asOf else 0;
    Overwritten(s, x, Fresh, Fresh.(at := EvidenceLinkBegun(n, e, cutoff)));
  }

  lemma EvidenceReads(guards: Guards, s: State, x: Id, n: Id, e: Id, cutoff: int)
    requires x !in s.active
    ensures After(guards, Put(s, x, Transaction(Nothing, {}, EvidenceLinkBegun(n, e, cutoff))), x, ReadEvidence) ==
            if e in s.store.evidence
            then Put(s, x, Transaction(Nothing, {}, EvidenceLinkRead(n, e, cutoff, s.store.evidence[e]))) else s
  {
    hide View;
    var t := Transaction(Nothing, {}, EvidenceLinkBegun(n, e, cutoff));
    Sees(s, x, t);
    if e in s.store.evidence {
      Overwritten(s, x, t, t.(at := EvidenceLinkRead(n, e, cutoff, s.store.evidence[e])));
    } else {
      Overwritten(s, x, t, t);
    }
  }

  lemma EvidenceFinishes(guards: Guards, s: State, x: Id, n: Id, e: Id, cutoff: int, row: Evidence)
    requires x !in s.active
    ensures After(guards, Put(s, x, Transaction(Nothing, {}, EvidenceLinkRead(n, e, cutoff, row))), x, FinishEvidenceLink) ==
            if row.proven && row.strict && row.availableAt <= cutoff && row.asOf <= cutoff
            then Put(s, x, Transaction(Nothing.(evidenceLinks := {(n, e)}), {}, Idle)) else s
  {
    hide View;
    var t := Transaction(Nothing, {}, EvidenceLinkRead(n, e, cutoff, row));
    assert Nothing.evidenceLinks + {(n, e)} == {(n, e)};
    Overwritten(s, x, t, Transaction(Nothing.(evidenceLinks := {(n, e)}), {}, Idle));
  }

  /**
   A transaction that links evidence to a snapshot commits the link exactly when the evidence is proven, strict,
   available and as of no later than the snapshot; otherwise nothing changes.
   */
  lemma EvidenceLinkExactly(guards: Guards, s: State, x: Id, n: Id, e: Id)
    requires x !in s.active
    ensures RunSteps(guards, s, Guarded(x, BeginEvidenceLink(n, e), ReadEvidence, FinishEvidenceLink)) ==
      var v := s.store;
        if n in v.snapshots && e in v.evidence && v.evidence[e].proven && v.evidence[e].strict
           && v.evidence[e].availableAt <= v.snapshots[n].asOf && v.evidence[e].asOf <= v.snapshots[n].asOf
        then State(v.(evidenceLinks := v.evidenceLinks + {(n, e)}), s.active) else s
  {
    hide After, RunSteps, Put;
    var v := s.store;
    GuardedRuns(guards, s, x, BeginEvidenceLink(n, e), ReadEvidence, FinishEvidenceLink);
    Begins(guards, s, x);
    EvidenceBegins(guards, s, x, n, e);
    Gone(guards, s, x, ReadEvidence);
    Gone(guards, s, x, FinishEvidenceLink);
    Gone(guards, s, x, Commit);
    if n in v.snapshots {
      var cutoff := v.snapshots[n].asOf;
      EvidenceReads(guards, s, x, n, e, cutoff);
      if e in v.evidence {
        EvidenceFinishes(guards, s, x, n, e, cutoff, v.evidence[e]);
        var link := Nothing.(evidenceLinks := {(n, e)});
        Commits(guards, s, x, Transaction(link, {}, Idle));
        MergeNothing(v);
        assert Merge(v, link) == v.(evidenceLinks := v.evidenceLinks + {(n, e)});
      }
    }
  }

  // Run links

  /** No transaction in progress holds the run's lock or has linked it. */
  ghost predicate RunFree(s: State, run: Id) {
    forall y | y in s.active :: run !in s.active[y].locks && run !in s.active[y].writes.runLinks
  }

  lemma RunLinkBegins(guards: Guards, s: State, x: Id, r: Id, n: Id)
    requires x !in s.active && RunFree(s, r)
    ensures After(guards, Put(s, x, Fresh), x, BeginRunLink(r, n)) ==
            if r in s.store.runs
            then Put(s, x, Transaction(Nothing, if guards.lock then {r} else {},
                                       RunLinkBegun(r, n, s.store.runs[r].authority.asOf)))
            else s
  {
    hide View;
    Sees(s, x, Fresh);
    assert {} + {r} == {r};
    if r in s.store.runs {
      var at := RunLinkBegun(r, n, s.store.runs[r].authority.asOf);
      Overwritten(s, x, Fresh, Transaction(Nothing, if guards.lock then {r} else {}, at));
    } else {
      Overwritten(s, x, Fresh, Fresh);
    }
  }

  lemma RunLinkReads(guards: Guards, s: State, x: Id, locks: set<Id>, r: Id, n: Id, asOf: int)
    requires x !in s.active
    ensures After(guards, Put(s, x, Transaction(Nothing, locks, RunLinkBegun(r, n, asOf))), x, ReadSnapshot) ==
            if n in s.store.snapshots
            then Put(s, x, Transaction(Nothing, locks, RunLinkRead(r, n, asOf, s.store.snapshots[n]))) else s
  {
    hide View;
    var t := Transaction(Nothing, locks, RunLinkBegun(r, n, asOf));
    Sees(s, x, t);
    if n in s.store.snapshots {
      Overwritten(s, x, t, t.(at := RunLinkRead(r, n, asOf, s.store.snapshots[n])));
    } else {
      Overwritten(s, x, t, t);
    }
  }

  lemma RunLinkFinishes(guards: Guards, s: State, x: Id, locks: set<Id>, r: Id, n: Id, asOf: int, seen: Snapshot)
    requires x !in s.active && RunFree(s, r)
    ensures After(guards, Put(s, x, Transaction(Nothing, locks, RunLinkRead(r, n, asOf, seen))), x, FinishRunLink) ==
            if r !in s.store.runLinks && seen.asOf <= asOf && seen.cutoffAt <= asOf
            then Put(s, x, Transaction(Nothing.(runLinks := map[r := n]), locks, Idle)) else s
  {
    hide View;
    var t := Transaction(Nothing, locks, RunLinkRead(r, n, asOf, seen));
    Sees(s, x, t);
    assert Nothing.runLinks[r := n] == map[r := n];
    Overwritten(s, x, t, Transaction(Nothing.(runLinks := map[r := n]), locks, Idle));
  }

  /**
   A transaction that links a run to a snapshot commits the link exactly when the run has none yet and the snapshot,
   with its cutoff, lies no later than the run; otherwise nothing changes.
   */
  lemma RunLinkExactly(guards: Guards, s: State, x: Id, r: Id, n: Id)
    requires x !in s.active && RunFree(s, r)
    ensures RunSteps(guards, s, Guarded(x, BeginRunLink(r, n), ReadSnapshot, FinishRunLink)) ==
      var v := s.store;
        if r in v.runs && n in v.snapshots && r !in v.runLinks
           && v.snapshots[n].asOf <= v.runs[r].authority.asOf && v.snapshots[n].cutoffAt <= v.runs[r].authority.asOf
        then State(v.(runLinks := v.runLinks[r := n]), s.active) else s
  {
    hide After, RunSteps, Put;
    var v := s.store;
    GuardedRuns(guards, s, x, BeginRunLink(r, n), ReadSnapshot, FinishRunLink);
    Begins(guards, s, x);
    RunLinkBegins(guards, s, x, r, n);
    Gone(guards, s, x, ReadSnapshot);
    Gone(guards, s, x, FinishRunLink);
    Gone(guards, s, x, Commit);
    if r in v.runs {
      var asOf, locks := v.runs[r].authority.asOf, if guards.lock then {r} else {};
      RunLinkReads(guards, s, x, locks, r, n, asOf);
      if n in v.snapshots {
        RunLinkFinishes(guards, s, x, locks, r, n, asOf, v.snapshots[n]);
        var link := Nothing.(runLinks := map[r := n]);
        Commits(guards, s, x, Transaction(link, locks, Idle));
        MergeNothing(v);
        assert Merge(v, link) == v.(runLinks := v.runLinks[r := n]);
      }
    }
  }

  // Updates of a run

  lemma UpdateBegins(guards: Guards, s: State, x: Id, r: Id, after: Run)
    requires x !in s.active && RunFree(s, r)
    ensures After(guards, Put(s, x, Fresh), x, BeginUpdate(r, after)) ==
            Put(s, x, if r in s.store.runs then Transaction(Nothing, {r}, UpdateBegun(r, after)) else Fresh)
  {
    hide View;
    Sees(s, x, Fresh);
    assert {} + {r} == {r};
    Overwritten(s, x, Fresh, Transaction(Nothing, {r}, UpdateBegun(r, after)));
  }

  lemma UpdateChecks(guards: Guards, s: State, x: Id, r: Id, after: Run)
    requires x !in s.active && r in s.store.runs
    ensures After(guards, Put(s, x, Transaction(Nothing, {r}, UpdateBegun(r, after))), x, CheckUpdate) ==
            if after.version > 0 && (!guards.freeze || r !in s.store.runLinks || after.authority == s.store.runs[r].authority)
            then Put(s, x, Transaction(Nothing, {r}, UpdateChecked(r, after))) else s
  {
    hide View;
    var t := Transaction(Nothing, {r}, UpdateBegun(r, after));
    Sees(s, x, t);
    Overwritten(s, x, t, t.(at := UpdateChecked(r, after)));
  }

  lemma UpdateFinishes(guards: Guards, s: State, x: Id, r: Id, after: Run)
    requires x !in s.active
    ensures After(guards, Put(s, x, Transaction(Nothing, {r}, UpdateChecked(r, after))), x, FinishUpdate) ==
            Put(s, x, Transaction(Nothing.(runs := map[r := after]), {r}, Idle))
  {
    hide View;
    assert Nothing.runs[r := after] == map[r := after];
    Overwritten(s, x, Transaction(Nothing, {r}, UpdateChecked(r, after)),
                Transaction(Nothing.(runs := map[r := after]), {r}, Idle));
  }

  lemma UpdateWaits(guards: Guards, s: State, x: Id, a: Action)
    requires x !in s.active && (a.CheckUpdate? || a.FinishUpdate?)
    ensures After(guards, Put(s, x, Fresh), x, a) == Put(s, x, Fresh)
  {
  }

  /**
   A transaction that updates a run replaces its row exactly when the run exists, its version is positive and, where
   the freeze is in force and the run is linked, its authority columns stay; otherwise nothing changes.
   */
  lemma UpdateExactly(guards: Guards, s: State, x: Id, r: Id, after: Run)
    requires x !in s.active && RunFree(s, r)
    ensures RunSteps(guards, s, Guarded(x, BeginUpdate(r, after), CheckUpdate, FinishUpdate)) ==
      var v := s.store;
        if r in v.runs && after.version > 0
           && (!guards.freeze || r !in v.runLinks || after.authority == v.runs[r].authority)
        then State(v.(runs := v.runs[r := after]), s.active) else s
  {
    hide After, RunSteps, Put;
    var v := s.store;
    GuardedRuns(guards, s, x, BeginUpdate(r, after), CheckUpdate, FinishUpdate);
    Begins(guards, s, x);
    UpdateBegins(guards, s, x, r, after);
    Commits(guards, s, x, Fresh);
    MergeNothing(v);
    if r in v.runs {
      UpdateChecks(guards, s, x, r, after);
      UpdateFinishes(guards, s, x, r, after);
      Gone(guards, s, x, FinishUpdate);
      Gone(guards, s, x, Commit);
      var write := Nothing.(runs := map[r := after]);
      Commits(guards, s, x, Transaction(write, {r}, Idle));
      assert Merge(v, write) == v.(runs := v.runs[r := after]);
    } else {
      UpdateWaits(guards, s, x, CheckUpdate);
      UpdateWaits(guards, s, x, FinishUpdate);
    }
  }

  // Inserts and amendments

  /** No transaction in progress has written this evidence, this snapshot, or holds this run. */
  ghost predicate KeyFree(s: State, id: Id) {
    forall y | y in s.active ::
      && id !in s.active[y].writes.evidence && id !in s.active[y].writes.snapshots && id !in s.active[y].locks
  }

  /** What the CHECKs ask of an evidence row. */
  ghost predicate Acceptable(e: Evidence) {
    && e.availableAt <= e.observedAt
    && (e.strict ==> e.proven && e.availableAt <= e.asOf)
  }

  lemma EvidenceInserts(guards: Guards, s: State, x: Id, id: Id, e: Evidence)
    requires x !in s.active && KeyFree(s, id)
    ensures RunSteps(guards, s, Simple(x, InsertEvidence(id, e))) ==
            if id !in s.store.evidence && Acceptable(e)
            then State(s.store.(evidence := s.store.evidence[id := e]), s.active) else s
  {
    hide RunSteps, View, Merge;
    SimpleRuns(guards, s, x, InsertEvidence(id, e));
    Begins(guards, s, x);
    Sees(s, x, Fresh);
    var write := Nothing.(evidence := map[id := e]);
    assert Nothing.evidence[id := e] == map[id := e];
    Overwritten(s, x, Fresh, Transaction(write, {}, Idle));
    hide After;
    Gone(guards, s, x, Commit);
    Commits(guards, s, x, Transaction(write, {}, Idle));
    EvidenceAdded(s.store, id, e);
  }

  lemma EvidenceAdded(v: Store, id: Id, e: Evidence)
    ensures Merge(v, Nothing.(evidence := map[id := e])) == v.(evidence := v.evidence[id := e])
  {
    MergeNothing(v);
  }

  lemma SnapshotInserts(guards: Guards, s: State, x: Id, id: Id, n: Snapshot)
    requires x !in s.active && KeyFree(s, id)
    ensures RunSteps(guards, s, Simple(x, InsertSnapshot(id, n))) ==
            if id !in s.store.snapshots && n.cutoffAt <= n.asOf
            then State(s.store.(snapshots := s.store.snapshots[id := n]), s.active) else s
  {
    hide RunSteps, View, Merge;
    SimpleRuns(guards, s, x, InsertSnapshot(id, n));
    Begins(guards, s, x);
    Sees(s, x, Fresh);
    var write := Nothing.(snapshots := map[id := n]);
    assert Nothing.snapshots[id := n] == map[id := n];
    Overwritten(s, x, Fresh, Transaction(write, {}, Idle));
    hide After;
    Gone(guards, s, x, Commit);
    Commits(guards, s, x, Transaction(write, {}, Idle));
    SnapshotAdded(s.store, id, n);
  }

  lemma SnapshotAdded(v: Store, id: Id, n: Snapshot)
    ensures Merge(v, Nothing.(snapshots := map[id := n])) == v.(snapshots := v.snapshots[id := n])
  {
    MergeNothing(v);
  }

  lemma RunInserts(guards: Guards, s: State, x: Id, id: Id, r: Run)
    requires x !in s.active && KeyFree(s, id)
    ensures RunSteps(guards, s, Simple(x, InsertRun(id, r))) ==
            if id !in s.store.runs && r.version > 0
            then State(s.store.(runs := s.store.runs[id := r]), s.active) else s
  {
    hide RunSteps, View, Merge;
    SimpleRuns(guards, s, x, InsertRun(id, r));
    Begins(guards, s, x);
    Sees(s, x, Fresh);
    var write := Nothing.(runs := map[id := r]);
    assert Nothing.runs[id := r] == map[id := r] && {} + {id} == {id};
    Overwritten(s, x, Fresh, Transaction(write, {id}, Idle));
    hide After;
    Gone(guards, s, x, Commit);
    Commits(guards, s, x, Transaction(write, {id}, Idle));
    RunAdded(s.store, id, r);
  }

  lemma RunAdded(v: Store, id: Id, r: Run)
    ensures Merge(v, Nothing.(runs := map[id := r])) == v.(runs := v.runs[id := r])
  {
    MergeNothing(v);
  }

  /** Evidence is changed exactly where the append-only trigger is missing. */
  lemma EvidenceAmends(guards: Guards, s: State, x: Id, id: Id, e: Evidence)
    requires x !in s.active && KeyFree(s, id)
    ensures RunSteps(guards, s, Simple(x, AmendEvidence(id, e))) ==
            if id in s.store.evidence && !guards.appendOnly && Acceptable(e)
            then State(s.store.(evidence := s.store.evidence[id := e]), s.active) else s
  {
    hide RunSteps, View, Merge;
    SimpleRuns(guards, s, x, AmendEvidence(id, e));
    Begins(guards, s, x);
    Sees(s, x, Fresh);
    var write := Nothing.(evidence := map[id := e]);
    assert Nothing.evidence[id := e] == map[id := e];
    Overwritten(s, x, Fresh, Transaction(write, {}, Idle));
    hide After;
    Gone(guards, s, x, Commit);
    Commits(guards, s, x, Transaction(write, {}, Idle));
    Commits(guards, s, x, Fresh);
    MergeNothing(s.store);
    EvidenceAdded(s.store, id, e);
  }

  /** A snapshot is changed exactly where the append-only trigger is missing. */
  lemma SnapshotAmends(guards: Guards, s: State, x: Id, id: Id, n: Snapshot)
    requires x !in s.active && KeyFree(s, id)
    ensures RunSteps(guards, s, Simple(x, AmendSnapshot(id, n))) ==
            if id in s.store.snapshots && !guards.appendOnly && n.cutoffAt <= n.asOf
            then State(s.store.(snapshots := s.store.snapshots[id := n]), s.active) else s
  {
    hide RunSteps, View, Merge;
    SimpleRuns(guards, s, x, AmendSnapshot(id, n));
    Begins(guards, s, x);
    Sees(s, x, Fresh);
    var write := Nothing.(snapshots := map[id := n]);
    assert Nothing.snapshots[id := n] == map[id := n];
    Overwritten(s, x, Fresh, Transaction(write, {}, Idle));
    hide After;
    Gone(guards, s, x, Commit);
    Commits(guards, s, x, Transaction(write, {}, Idle));
    Commits(guards, s, x, Fresh);
    MergeNothing(s.store);
    SnapshotAdded(s.store, id, n);
  }

  // What can be committed

  lemma {:induction false} StepsJoin(guards: Guards, s: State, first: seq<Step>, later: seq<Step>)
    ensures RunSteps(guards, s, first + later) == RunSteps(guards, RunSteps(guards, s, first), later)
  {
    hide Next;
    if later == [] {
      assert first + later == first;
    } else {
      var n := |later| - 1;
      assert (first + later)[..|first| + n] == first + later[..n];
      StepsJoin(guards, s, first, later[..n]);
    }
  }

  lemma RunReaches(guards: Guards, s: State, steps: seq<Step>)
    requires Reachable(guards, s)
    ensures Reachable(guards, RunSteps(guards, s, steps))
  {
    hide RunSteps;
    var first :| RunSteps(guards, Start, first) == s;
    StepsJoin(guards, Start, first, steps);
  }

  /** A committed database with nothing in progress. */
  ghost predicate Committable(guards: Guards, v: Store) {
    Reachable(guards, State(v, map[]))
  }

  /** This evidence, under this id, linked to this snapshot. */
  ghost predicate EvidenceLinked(v: Store, n: Id, snapshot: Snapshot, e: Id, evidence: Evidence) {
    && n in v.snapshots && v.snapshots[n] == snapshot && e in v.evidence && v.evidence[e] == evidence
    && (n, e) in v.evidenceLinks
  }

  /** Sound evidence can be linked and committed under any guards, for every id and time. */
  lemma EvidenceLinkCommits(guards: Guards, n: Id, snapshot: Snapshot, e: Id, evidence: Evidence)
    requires Acceptable(evidence) && snapshot.cutoffAt <= snapshot.asOf
    requires evidence.proven && evidence.strict && evidence.asOf <= snapshot.asOf
    ensures exists v :: Committable(guards, v) && EvidenceLinked(v, n, snapshot, e, evidence)
  {
    hide RunSteps, Reachable, Simple, Guarded;
    StartReachable(guards);
    var v1 := Nothing.(snapshots := map[n := snapshot]);
    SnapshotInserts(guards, Start, 1, n, snapshot);
    assert Nothing.snapshots[n := snapshot] == map[n := snapshot];
    RunReaches(guards, Start, Simple(1, InsertSnapshot(n, snapshot)));
    var v2 := v1.(evidence := map[e := evidence]);
    EvidenceInserts(guards, State(v1, map[]), 1, e, evidence);
    assert v1.evidence[e := evidence] == map[e := evidence];
    RunReaches(guards, State(v1, map[]), Simple(1, InsertEvidence(e, evidence)));
    var v3 := v2.(evidenceLinks := v2.evidenceLinks + {(n, e)});
    EvidenceLinkExactly(guards, State(v2, map[]), 1, n, e);
    RunReaches(guards, State(v2, map[]), Guarded(1, BeginEvidenceLink(n, e), ReadEvidence, FinishEvidenceLink));
    assert Committable(guards, v3) && EvidenceLinked(v3, n, snapshot, e, evidence);
  }

  /** Over every interleaving, what is linked is proven and strict and lies no later than what it is linked to. */
  lemma LinksAreSound(steps: seq<Step>)
    ensures var v := RunSteps(All, Start, steps).store;
            && (forall p | p in v.evidenceLinks ::
                  && p.0 in v.snapshots && p.1 in v.evidence
                  && v.evidence[p.1].proven && v.evidence[p.1].strict
                  && v.evidence[p.1].availableAt <= v.snapshots[p.0].asOf && v.evidence[p.1].asOf <= v.snapshots[p.0].asOf)
            && (forall r | r in v.runLinks ::
                  && r in v.runs && v.runLinks[r] in v.snapshots
                  && v.snapshots[v.runLinks[r]].asOf <= v.runs[r].authority.asOf
                  && v.snapshots[v.runLinks[r]].cutoffAt <= v.runs[r].authority.asOf)
  {
    hide RunSteps, TxOk, Separate;
    RunKeeps(steps);
  }

  /** With every protection in force, evidence and snapshot rows can be linked exactly when the evidence is sound. */
  lemma EvidenceLinkableExactly(n: Id, snapshot: Snapshot, e: Id, evidence: Evidence)
    requires Acceptable(evidence) && snapshot.cutoffAt <= snapshot.asOf
    ensures (exists v :: Committable(All, v) && EvidenceLinked(v, n, snapshot, e, evidence)) <==>
            evidence.proven && evidence.strict && evidence.asOf <= snapshot.asOf
  {
    hide RunSteps;
    if evidence.proven && evidence.strict && evidence.asOf <= snapshot.asOf {
      EvidenceLinkCommits(All, n, snapshot, e, evidence);
    }
    if v :| Committable(All, v) && EvidenceLinked(v, n, snapshot, e, evidence) {
      var steps :| RunSteps(All, Start, steps) == State(v, map[]);
      LinksAreSound(steps);
    }
  }

  /** This run, under this id, linked to this snapshot. */
  ghost predicate RunLinked(v: Store, r: Id, run: Run, n: Id, snapshot: Snapshot) {
    && r in v.runs && v.runs[r] == run && n in v.snapshots && v.snapshots[n] == snapshot
    && r in v.runLinks && v.runLinks[r] == n
  }

  /** A snapshot in the run's past can be linked and committed under any guards, for every id and time. */
  lemma RunLinkCommits(guards: Guards, r: Id, run: Run, n: Id, snapshot: Snapshot)
    requires run.version > 0 && snapshot.cutoffAt <= snapshot.asOf <= run.authority.asOf
    ensures exists v :: Committable(guards, v) && RunLinked(v, r, run, n, snapshot)
  {
    hide RunSteps, Reachable, Simple, Guarded;
    StartReachable(guards);
    var v1 := Nothing.(snapshots := map[n := snapshot]);
    SnapshotInserts(guards, Start, 1, n, snapshot);
    assert Nothing.snapshots[n := snapshot] == map[n := snapshot];
    RunReaches(guards, Start, Simple(1, InsertSnapshot(n, snapshot)));
    var v2 := v1.(runs := map[r := run]);
    RunInserts(guards, State(v1, map[]), 1, r, run);
    assert v1.runs[r := run] == map[r := run];
    RunReaches(guards, State(v1, map[]), Simple(1, InsertRun(r, run)));
    var v3 := v2.(runLinks := v2.runLinks[r := n]);
    RunLinkExactly(guards, State(v2, map[]), 1, r, n);
    RunReaches(guards, State(v2, map[]), Guarded(1, BeginRunLink(r, n), ReadSnapshot, FinishRunLink));
    assert Committable(guards, v3) && RunLinked(v3, r, run, n, snapshot);
  }

  /** With every protection in force, a run and a snapshot can be linked exactly when the snapshot lies in its past. */
  lemma RunLinkableExactly(r: Id, run: Run, n: Id, snapshot: Snapshot)
    requires run.version > 0 && snapshot.cutoffAt <= snapshot.asOf
    ensures (exists v :: Committable(All, v) && RunLinked(v, r, run, n, snapshot)) <==>
            snapshot.asOf <= run.authority.asOf
  {
    hide RunSteps;
    if snapshot.asOf <= run.authority.asOf {
      RunLinkCommits(All, r, run, n, snapshot);
    }
    if v :| Committable(All, v) && RunLinked(v, r, run, n, snapshot) {
      var steps :| RunSteps(All, Start, steps) == State(v, map[]);
      LinksAreSound(steps);
    }
  }
}

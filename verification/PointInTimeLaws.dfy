/** No look-ahead over every interleaving, with every protection in force. */
module PointInTimeLaws {
  import opened PointInTime

  const All := Guards(true, true, true)

  ghost predicate EvidenceOk(v: Store) {
    forall p | p in v.evidenceLinks ::
      p.0 in v.snapshots && p.1 in v.evidence && Known(v.evidence[p.1], v.snapshots[p.0].asOf)
  }

  ghost predicate RunsOk(v: Store) {
    forall r | r in v.runLinks ::
      r in v.runs && v.runLinks[r] in v.snapshots && Past(v.snapshots[v.runLinks[r]], v.runs[r].authority.asOf)
  }

  /** What a transaction has read inside a statement is still so. */
  ghost predicate ReadsHold(v: Store, locks: set<Id>, at: Progress) {
    match at
    case Idle => true
    case EvidenceLinkBegun(n, _, cutoff) => n in v.snapshots && v.snapshots[n].asOf == cutoff
    case EvidenceLinkRead(n, e, cutoff, row) =>
      n in v.snapshots && v.snapshots[n].asOf == cutoff && e in v.evidence && v.evidence[e] == row
    case RunLinkBegun(r, _, asOf) => r in locks && r in v.runs && v.runs[r].authority.asOf == asOf
    case RunLinkRead(r, n, asOf, seen) =>
      && r in locks && r in v.runs && v.runs[r].authority.asOf == asOf
      && n in v.snapshots && v.snapshots[n] == seen
    case UpdateBegun(r, _) => r in locks && r in v.runs
    case UpdateChecked(r, after) =>
      && r in locks && r in v.runs
      && (r in v.runLinks ==> after.authority == v.runs[r].authority)
  }

  /** New keys are new, and whatever touches a run holds its lock. */
  ghost predicate Owned(base: Store, t: Transaction) {
    && t.writes.evidence.Keys !! base.evidence.Keys
    && t.writes.snapshots.Keys !! base.snapshots.Keys
    && t.writes.runLinks.Keys !! base.runLinks.Keys
    && t.writes.runs.Keys <= t.locks
    && t.writes.runLinks.Keys <= t.locks
  }

  ghost predicate TxOk(base: Store, t: Transaction) {
    var v := Merge(base, t.writes);
    EvidenceOk(v) && RunsOk(v) && Owned(base, t) && ReadsHold(v, t.locks, t.at)
  }

  ghost predicate Separate(a: Transaction, b: Transaction) {
    && a.locks !! b.locks
    && a.writes.evidence.Keys !! b.writes.evidence.Keys
    && a.writes.snapshots.Keys !! b.writes.snapshots.Keys
  }

  ghost predicate Inv(s: State) {
    && EvidenceOk(s.store) && RunsOk(s.store)
    && (forall x | x in s.active :: TxOk(s.store, s.active[x]))
    && (forall x, y | x in s.active && y in s.active && x != y :: Separate(s.active[x], s.active[y]))
  }

  // A commit seen by the transactions that go on

  /** Two transactions that share no key and no lock commute into one consistent store. */
  lemma EvidenceMerges(base: Store, a: Transaction, b: Transaction)
    requires Owned(base, a) && Owned(base, b) && Separate(a, b)
    requires EvidenceOk(Merge(base, a.writes)) && EvidenceOk(Merge(base, b.writes))
    ensures EvidenceOk(Merge(Merge(base, a.writes), b.writes))
  {
    hide Known;
    var va, vb := Merge(base, a.writes), Merge(base, b.writes);
    var v := Merge(va, b.writes);
    forall p | p in v.evidenceLinks
      ensures p.0 in v.snapshots && p.1 in v.evidence && Known(v.evidence[p.1], v.snapshots[p.0].asOf)
    {
      assert p in va.evidenceLinks || p in vb.evidenceLinks;
    }
  }

  lemma RunsMerge(base: Store, a: Transaction, b: Transaction)
    requires Owned(base, a) && Owned(base, b) && Separate(a, b)
    requires RunsOk(Merge(base, a.writes)) && RunsOk(Merge(base, b.writes))
    ensures RunsOk(Merge(Merge(base, a.writes), b.writes))
  {
    hide Past, Owned, Separate, Merge;
    var va, vb := Merge(base, a.writes), Merge(base, b.writes);
    var v := Merge(va, b.writes);
    forall r | r in v.runLinks
      ensures r in v.runs && v.runLinks[r] in v.snapshots && Past(v.snapshots[v.runLinks[r]], v.runs[r].authority.asOf)
    {
      LinkHasOneSource(base, a, b, r);
      if r in b.locks {
        SnapshotsAgree(base, a, b, vb.runLinks[r]);
      } else {
        SnapshotsAgree(base, a, b, va.runLinks[r]);
      }
    }
  }

  /** A run's link and row come from the transaction that holds its lock, or from the other side. */
  lemma LinkHasOneSource(base: Store, a: Transaction, b: Transaction, r: Id)
    requires Owned(base, a) && Owned(base, b) && Separate(a, b)
    requires r in Merge(Merge(base, a.writes), b.writes).runLinks
    ensures var v := Merge(Merge(base, a.writes), b.writes);
            var side := Merge(base, if r in b.locks then b.writes else a.writes);
            && r in side.runLinks && v.runLinks[r] == side.runLinks[r]
            && (r in side.runs ==> r in v.runs && v.runs[r] == side.runs[r])
  {
  }

  lemma SnapshotsAgree(base: Store, a: Transaction, b: Transaction, n: Id)
    requires Owned(base, a) && Owned(base, b) && Separate(a, b)
    ensures var v := Merge(Merge(base, a.writes), b.writes);
            && (n in Merge(base, a.writes).snapshots ==> n in v.snapshots && v.snapshots[n] == Merge(base, a.writes).snapshots[n])
            && (n in Merge(base, b.writes).snapshots ==> n in v.snapshots && v.snapshots[n] == Merge(base, b.writes).snapshots[n])
  {
  }

  lemma ReadsSurvive(base: Store, a: Transaction, b: Transaction)
    requires Owned(base, a) && Owned(base, b) && Separate(a, b)
    requires ReadsHold(Merge(base, b.writes), b.locks, b.at)
    ensures ReadsHold(Merge(Merge(base, a.writes), b.writes), b.locks, b.at)
  {
  }

  lemma OwnedSurvives(base: Store, a: Transaction, b: Transaction)
    requires Owned(base, a) && Owned(base, b) && Separate(a, b)
    ensures Owned(Merge(base, a.writes), b)
  {
  }

  lemma CommitKeepsOther(base: Store, a: Transaction, b: Transaction)
    requires TxOk(base, a) && TxOk(base, b) && Separate(a, b)
    ensures TxOk(Merge(base, a.writes), b)
  {
    hide EvidenceOk, RunsOk, Owned, Separate, ReadsHold, Merge;
    EvidenceMerges(base, a, b);
    RunsMerge(base, a, b);
    ReadsSurvive(base, a, b);
    OwnedSurvives(base, a, b);
  }

  lemma CommitKeeps(s: State, x: Id)
    requires Inv(s) && x in s.active
    ensures Inv(State(View(s, x), s.active - {x}))
  {
    hide EvidenceOk, RunsOk, Owned, Separate, ReadsHold, Merge;
    forall y | y in s.active && y != x ensures TxOk(View(s, x), s.active[y]) {
      CommitKeepsOther(s.store, s.active[x], s.active[y]);
    }
  }

  lemma AbortKeeps(s: State, x: Id)
    requires Inv(s)
    ensures Inv(Abort(s, x))
  {
    hide TxOk, Separate, EvidenceOk, RunsOk;
  }

  /** A step that changes one transaction only. */
  lemma PutKeeps(s: State, x: Id, t: Transaction)
    requires Inv(s) && TxOk(s.store, t)
    requires forall y | y in s.active && y != x :: Separate(t, s.active[y])
    ensures Inv(Put(s, x, t))
  {
    hide TxOk, EvidenceOk, RunsOk;
    var u := Put(s, x, t);
    forall y, z | y in u.active && z in u.active && y != z ensures Separate(u.active[y], u.active[z]) {
      if y == x {
        assert Separate(t, s.active[z]);
      } else if z == x {
        assert Separate(t, s.active[y]);
      }
    }
  }

  // Single steps

  lemma InsertEvidenceOk(base: Store, t: Transaction, id: Id, e: Evidence)
    requires TxOk(base, t) && t.at.Idle? && id !in Merge(base, t.writes).evidence
    ensures TxOk(base, t.(writes := t.writes.(evidence := t.writes.evidence[id := e])))
  {
    hide Known, Past;
  }

  lemma InsertSnapshotOk(base: Store, t: Transaction, id: Id, n: Snapshot)
    requires TxOk(base, t) && t.at.Idle? && id !in Merge(base, t.writes).snapshots
    ensures TxOk(base, t.(writes := t.writes.(snapshots := t.writes.snapshots[id := n])))
  {
    hide Known, Past;
  }

  lemma InsertRunOk(base: Store, t: Transaction, id: Id, r: Run)
    requires TxOk(base, t) && t.at.Idle? && id !in Merge(base, t.writes).runs
    ensures TxOk(base, t.(writes := t.writes.(runs := t.writes.runs[id := r]), locks := t.locks + {id}))
  {
    hide Known, Past;
  }

  lemma InsertKeeps(s: State, x: Id, a: Action)
    requires Inv(s) && x in s.active && s.active[x].at.Idle?
    requires a.InsertEvidence? || a.InsertSnapshot? || a.InsertRun?
    requires Insert(s, x, a).Some?
    ensures Inv(Insert(s, x, a).value)
  {
    hide Inv, TxOk, Merge;
    var t := s.active[x];
    assert TxOk(s.store, t) by { TxHolds(s, x); }
    AbortKeeps(s, x);
    Others(s, x);
    if Insert(s, x, a).value != Abort(s, x) {
      match a {
        case InsertEvidence(id, e) => InsertEvidenceOk(s.store, t, id, e);
        case InsertSnapshot(id, n) => InsertSnapshotOk(s.store, t, id, n);
        case InsertRun(id, r) => InsertRunOk(s.store, t, id, r);
      }
      PutKeeps(s, x, Insert(s, x, a).value.active[x]);
    }
  }

  lemma AmendKeeps(s: State, x: Id, a: Action)
    requires Inv(s) && x in s.active && (a.AmendEvidence? || a.AmendSnapshot?) && Amend(All, s, x, a).Some?
    ensures Inv(Amend(All, s, x, a).value)
  {
    hide Inv, Merge;
    AbortKeeps(s, x);
  }

  lemma TxHolds(s: State, x: Id)
    requires Inv(s) && x in s.active
    ensures TxOk(s.store, s.active[x])
  {
    hide TxOk, Separate;
  }

  lemma Others(s: State, x: Id)
    requires Inv(s) && x in s.active
    ensures forall y | y in s.active && y != x :: Separate(s.active[x], s.active[y])
  {
    hide TxOk, Separate;
  }

  lemma EvidenceLinkOk(base: Store, t: Transaction)
    requires TxOk(base, t) && t.at.EvidenceLinkRead? && Known(t.at.row, t.at.cutoff)
    ensures var links := t.writes.evidenceLinks + {(t.at.snapshot, t.at.evidence)};
            TxOk(base, t.(writes := t.writes.(evidenceLinks := links), at := Idle))
  {
    hide Known, Past;
  }

  lemma EvidenceLinkKeeps(s: State, x: Id, a: Action)
    requires Inv(s) && x in s.active && EvidenceLinkStep(s, x, a).Some?
    ensures Inv(EvidenceLinkStep(s, x, a).value)
  {
    hide Inv, EvidenceOk, RunsOk, Merge;
    var t := s.active[x];
    TxHolds(s, x);
    AbortKeeps(s, x);
    Others(s, x);
    var u := EvidenceLinkStep(s, x, a).value;
    if u != Abort(s, x) {
      if a.FinishEvidenceLink? {
        EvidenceLinkOk(s.store, t);
      }
      PutKeeps(s, x, u.active[x]);
    }
  }

  lemma SameEvidence(v: Store, w: Store)
    requires EvidenceOk(v)
    requires w.evidence == v.evidence && w.snapshots == v.snapshots && w.evidenceLinks == v.evidenceLinks
    ensures EvidenceOk(w)
  {
    hide Known;
  }

  lemma MergeLink(base: Store, writes: Store, r: Id, n: Id)
    ensures var v := Merge(base, writes);
            Merge(base, writes.(runLinks := writes.runLinks[r := n])) == v.(runLinks := v.runLinks[r := n])
    ensures r !in Merge(base, writes).runLinks ==> r !in base.runLinks
  {
  }

  lemma LinkAdded(v: Store, r: Id, n: Id)
    requires RunsOk(v) && r in v.runs && n in v.snapshots && Past(v.snapshots[n], v.runs[r].authority.asOf)
    ensures RunsOk(v.(runLinks := v.runLinks[r := n]))
  {
    hide Past;
  }

  /** The row lock makes what the trigger read of the run still true when the link is written. */
  lemma RunLinkOk(base: Store, t: Transaction)
    requires TxOk(base, t) && t.at.RunLinkRead? && Past(t.at.seen, t.at.runAsOf)
    requires t.at.run !in Merge(base, t.writes).runLinks
    ensures var links := t.writes.runLinks[t.at.run := t.at.snapshot];
            TxOk(base, t.(writes := t.writes.(runLinks := links), at := Idle))
  {
    hide Past, EvidenceOk, RunsOk, Merge;
    var v := Merge(base, t.writes);
    MergeLink(base, t.writes, t.at.run, t.at.snapshot);
    SameEvidence(v, v.(runLinks := v.runLinks[t.at.run := t.at.snapshot]));
    LinkAdded(v, t.at.run, t.at.snapshot);
  }

  lemma LocksApart(s: State, x: Id, run: Id, t: Transaction)
    requires x in s.active && !LockedByOther(s, x, run)
    requires t.writes == s.active[x].writes && t.locks == s.active[x].locks + {run}
    requires forall y | y in s.active && y != x :: Separate(s.active[x], s.active[y])
    ensures forall y | y in s.active && y != x :: Separate(t, s.active[y])
  {
  }

  lemma RunLinkKeeps(s: State, x: Id, a: Action)
    requires Inv(s) && x in s.active && RunLinkStep(All, s, x, a).Some?
    ensures Inv(RunLinkStep(All, s, x, a).value)
  {
    hide Inv, EvidenceOk, RunsOk, Merge, Past, LockedByOther;
    var t := s.active[x];
    TxHolds(s, x);
    AbortKeeps(s, x);
    Others(s, x);
    var u := RunLinkStep(All, s, x, a).value;
    if u != Abort(s, x) {
      if a.FinishRunLink? {
        RunLinkOk(s.store, t);
      } else if a.BeginRunLink? {
        LocksApart(s, x, a.runId, u.active[x]);
      }
      PutKeeps(s, x, u.active[x]);
    }
  }

  /** The freeze makes an update of a linked run leave its time alone. */
  lemma UpdateOk(base: Store, t: Transaction)
    requires TxOk(base, t) && t.at.UpdateChecked?
    ensures TxOk(base, t.(writes := t.writes.(runs := t.writes.runs[t.at.run := t.at.after]), at := Idle))
  {
    hide Known, Past, EvidenceOk;
    var rows := t.writes.runs[t.at.run := t.at.after];
    SameEvidence(Merge(base, t.writes), Merge(base, t.writes.(runs := rows)));
  }

  lemma UpdateKeeps(s: State, x: Id, a: Action)
    requires Inv(s) && x in s.active && UpdateStep(All, s, x, a).Some?
    ensures Inv(UpdateStep(All, s, x, a).value)
  {
    hide Inv, EvidenceOk, RunsOk, Merge, LockedByOther;
    var t := s.active[x];
    TxHolds(s, x);
    AbortKeeps(s, x);
    Others(s, x);
    var u := UpdateStep(All, s, x, a).value;
    if u != Abort(s, x) {
      if a.FinishUpdate? {
        UpdateOk(s.store, t);
      } else if a.BeginUpdate? {
        LocksApart(s, x, a.runId, u.active[x]);
      }
      PutKeeps(s, x, u.active[x]);
    }
  }

  lemma BeginKeeps(s: State, x: Id)
    requires Inv(s) && x !in s.active
    ensures Inv(Put(s, x, Transaction(Nothing, {}, Idle)))
  {
    var t := Transaction(Nothing, {}, Idle);
    assert Merge(s.store, Nothing) == s.store;
    PutKeeps(s, x, t);
  }

  lemma NextKeeps(s: State, step: Step)
    requires Inv(s) && Next(All, s, step).Some?
    ensures Inv(Next(All, s, step).value)
  {
    hide Inv, Insert, Amend, EvidenceLinkStep, RunLinkStep, UpdateStep;
    var x, a := step.tx, step.action;
    match a
    case Begin => BeginKeeps(s, x);
    case Commit => CommitKeeps(s, x);
    case Rollback => AbortKeeps(s, x);
    case InsertEvidence(_, _) => InsertKeeps(s, x, a);
    case InsertSnapshot(_, _) => InsertKeeps(s, x, a);
    case InsertRun(_, _) => InsertKeeps(s, x, a);
    case AmendEvidence(_, _) => AmendKeeps(s, x, a);
    case AmendSnapshot(_, _) => AmendKeeps(s, x, a);
    case BeginEvidenceLink(_, _) => EvidenceLinkKeeps(s, x, a);
    case ReadEvidence => EvidenceLinkKeeps(s, x, a);
    case FinishEvidenceLink => EvidenceLinkKeeps(s, x, a);
    case BeginRunLink(_, _) => RunLinkKeeps(s, x, a);
    case ReadSnapshot => RunLinkKeeps(s, x, a);
    case FinishRunLink => RunLinkKeeps(s, x, a);
    case BeginUpdate(_, _) => UpdateKeeps(s, x, a);
    case CheckUpdate => UpdateKeeps(s, x, a);
    case FinishUpdate => UpdateKeeps(s, x, a);
  }

  lemma {:induction false} RunKeeps(steps: seq<Step>)
    ensures Inv(RunSteps(All, Start, steps))
  {
    hide Next;
    if steps == [] {
      StartHolds();
    } else {
      var n := |steps| - 1;
      RunKeeps(steps[..n]);
      var before := RunSteps(All, Start, steps[..n]);
      if Next(All, before, steps[n]).Some? {
        NextKeeps(before, steps[n]);
      }
    }
  }

  lemma StartHolds()
    ensures Inv(Start)
  {
  }

  lemma InvMeans(v: Store)
    requires EvidenceOk(v) && RunsOk(v)
    ensures NoLookAhead(v)
  {
    forall r, e | r in v.runLinks && (v.runLinks[r], e) in v.evidenceLinks
      ensures e in v.evidence && Known(v.evidence[e], v.snapshots[v.runLinks[r]].asOf)
    {
      var p := (v.runLinks[r], e);
      assert p in v.evidenceLinks;
    }
  }

  /** With the row lock, the freeze and the append-only tables, no interleaving commits a look-ahead. */
  lemma NeverLooksAhead(steps: seq<Step>)
    ensures NoLookAhead(RunSteps(All, Start, steps).store)
  {
    hide TxOk, EvidenceOk, RunsOk, NoLookAhead, RunSteps;
    RunKeeps(steps);
    InvMeans(RunSteps(All, Start, steps).store);
  }

  /** The database server: the committed tables and the transactions in progress. */
  class Server {
    var store: Store
    var active: map<Id, Transaction>

    ghost predicate Valid()
      reads this
    {
      Inv(State(store, active))
    }

    constructor ()
      ensures Valid() && State(store, active) == Start
    {
      store, active := Nothing, map[];
      new;
      StartHolds();
    }

    /** Lets one transaction take one step, unless it has to wait. */
    method Take(step: Step) returns (taken: bool)
      requires Valid()
      modifies this
      ensures Valid() && NoLookAhead(store)
      ensures taken == Next(All, old(State(store, active)), step).Some?
      ensures State(store, active) ==
              if taken then Next(All, old(State(store, active)), step).value else old(State(store, active))
    {
      hide Next, EvidenceOk, RunsOk, NoLookAhead, TxOk, Separate;
      var next := Next(All, State(store, active), step);
      taken := next.Some?;
      if taken {
        NextKeeps(State(store, active), step);
        store, active := next.value.store, next.value.active;
      }
      InvMeans(store);
    }

    /** Any interleaving of the transactions' steps. */
    method Play(steps: seq<Step>)
      requires Valid()
      modifies this
      ensures Valid()
      ensures State(store, active) == RunSteps(All, old(State(store, active)), steps)
    {
      hide Next, Inv;
      for i := 0 to |steps|
        invariant Valid()
        invariant State(store, active) == RunSteps(All, old(State(store, active)), steps[..i])
      {
        assert steps[..i + 1][..i] == steps[..i];
        var taken := Take(steps[i]);
      }
      assert steps[..|steps|] == steps;
    }
  }
}

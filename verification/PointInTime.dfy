/**
 Point-in-time links under concurrency. Transactions run at READ COMMITTED: every query sees
 what is committed at that moment plus the transaction's own writes, so a trigger that reads
 two rows and then inserts is three steps between which other transactions may commit.
 */
module PointInTime {
  import opened Wrappers

  type Id = int

  datatype Evidence = Evidence(availableAt: int, observedAt: int, asOf: int, proven: bool, strict: bool)

  datatype Snapshot = Snapshot(asOf: int, cutoffAt: int)

  datatype Authority = Authority(
    runType: string, asOf: int, policyId: string, idempotencyKey: string, inputHash: string, createdAt: int)

  datatype Run = Run(authority: Authority, status: string, version: int)

  /** Committed rows, or the rows one transaction has written. */
  datatype Store = Store(
    evidence: map<Id, Evidence>,
    snapshots: map<Id, Snapshot>,
    runs: map<Id, Run>,
    evidenceLinks: set<(Id, Id)>,
    runLinks: map<Id, Id>)

  const Nothing := Store(map[], map[], map[], {}, map[])

  function Merge(base: Store, writes: Store): Store {
    Store(base.evidence + writes.evidence,
          base.snapshots + writes.snapshots,
          base.runs + writes.runs,
          base.evidenceLinks + writes.evidenceLinks,
          base.runLinks + writes.runLinks)
  }

  /** Where a transaction stands inside a guarded statement, with what it has read so far. */
  datatype Progress =
    | Idle
    | EvidenceLinkBegun(snapshot: Id, evidence: Id, cutoff: int)
    | EvidenceLinkRead(snapshot: Id, evidence: Id, cutoff: int, row: Evidence)
    | RunLinkBegun(run: Id, snapshot: Id, runAsOf: int)
    | RunLinkRead(run: Id, snapshot: Id, runAsOf: int, seen: Snapshot)
    | UpdateBegun(run: Id, after: Run)
    | UpdateChecked(run: Id, after: Run)

  datatype Transaction = Transaction(writes: Store, locks: set<Id>, at: Progress)

  datatype State = State(store: Store, active: map<Id, Transaction>)

  const Start := State(Nothing, map[])

  /** Which protections are in force: the run-row lock, the linked-run freeze, the append-only triggers. */
  datatype Guards = Guards(lock: bool, freeze: bool, appendOnly: bool)

  datatype Action =
    | Begin
    | InsertEvidence(id: Id, evidence: Evidence)
    | InsertSnapshot(id: Id, snapshot: Snapshot)
    | InsertRun(id: Id, run: Run)
    | AmendEvidence(id: Id, evidence: Evidence)
    | AmendSnapshot(id: Id, snapshot: Snapshot)
    | BeginEvidenceLink(snapshotId: Id, evidenceId: Id)
    | ReadEvidence
    | FinishEvidenceLink
    | BeginRunLink(runId: Id, snapshotId: Id)
    | ReadSnapshot
    | FinishRunLink
    | BeginUpdate(runId: Id, after: Run)
    | CheckUpdate
    | FinishUpdate
    | Commit
    | Rollback

  datatype Step = Step(tx: Id, action: Action)

  function View(s: State, x: Id): Store
    requires x in s.active
  {
    Merge(s.store, s.active[x].writes)
  }

  function Put(s: State, x: Id, t: Transaction): State {
    s.(active := s.active[x := t])
  }

  /** A raised exception ends the transaction; its writes and locks vanish. */
  function Abort(s: State, x: Id): State {
    s.(active := s.active - {x})
  }

  predicate LockedByOther(s: State, x: Id, run: Id) {
    exists y | y in s.active :: y != x && run in s.active[y].locks
  }

  predicate EvidenceChecks(e: Evidence) {
    && (!e.strict || e.proven)
    && e.availableAt <= e.observedAt
    && (!e.strict || e.availableAt <= e.asOf)
  }

  /** The condition of the evidence-link trigger. */
  predicate Known(e: Evidence, cutoff: int) {
    e.availableAt <= cutoff && e.asOf <= cutoff && e.proven && e.strict
  }

  /** The condition of the run-link trigger. */
  predicate Past(snapshot: Snapshot, runAsOf: int) {
    snapshot.asOf <= runAsOf && snapshot.cutoffAt <= runAsOf
  }

  /** Inserts: blocked while another transaction holds the same key, an error if the key is taken. */
  function Insert(s: State, x: Id, a: Action): Option<State>
    requires x in s.active && (a.InsertEvidence? || a.InsertSnapshot? || a.InsertRun?)
  {
    var t, v := s.active[x], View(s, x);
    match a
    case InsertEvidence(id, e) =>
      if exists y | y in s.active :: y != x && id in s.active[y].writes.evidence then None
      else if id in v.evidence || !EvidenceChecks(e) then Some(Abort(s, x))
      else Some(Put(s, x, t.(writes := t.writes.(evidence := t.writes.evidence[id := e]))))
    case InsertSnapshot(id, n) =>
      if exists y | y in s.active :: y != x && id in s.active[y].writes.snapshots then None
      else if id in v.snapshots || n.cutoffAt > n.asOf then Some(Abort(s, x))
      else Some(Put(s, x, t.(writes := t.writes.(snapshots := t.writes.snapshots[id := n]))))
    case InsertRun(id, r) =>
      if LockedByOther(s, x, id) then None
      else if id in v.runs || r.version <= 0 then Some(Abort(s, x))
      else Some(Put(s, x, t.(writes := t.writes.(runs := t.writes.runs[id := r]), locks := t.locks + {id})))
  }

  /** Updating evidence or a snapshot: a row that exists makes the append-only trigger raise. */
  function Amend(guards: Guards, s: State, x: Id, a: Action): Option<State>
    requires x in s.active && (a.AmendEvidence? || a.AmendSnapshot?)
  {
    var t, v := s.active[x], View(s, x);
    match a
    case AmendEvidence(id, e) =>
      if exists y | y in s.active :: y != x && id in s.active[y].writes.evidence then None
      else if id !in v.evidence then Some(s)
      else if guards.appendOnly || !EvidenceChecks(e) then Some(Abort(s, x))
      else Some(Put(s, x, t.(writes := t.writes.(evidence := t.writes.evidence[id := e]))))
    case AmendSnapshot(id, n) =>
      if exists y | y in s.active :: y != x && id in s.active[y].writes.snapshots then None
      else if id !in v.snapshots then Some(s)
      else if guards.appendOnly || n.cutoffAt > n.asOf then Some(Abort(s, x))
      else Some(Put(s, x, t.(writes := t.writes.(snapshots := t.writes.snapshots[id := n]))))
  }

  function EvidenceLinkStep(s: State, x: Id, a: Action): Option<State>
    requires x in s.active
  {
    var t, v := s.active[x], View(s, x);
    match a
    case BeginEvidenceLink(snapshot, evidence) =>
      if !t.at.Idle? then None
      else if snapshot !in v.snapshots then Some(Abort(s, x))
      else Some(Put(s, x, t.(at := EvidenceLinkBegun(snapshot, evidence, v.snapshots[snapshot].asOf))))
    case ReadEvidence =>
      if !t.at.EvidenceLinkBegun? then None
      else if t.at.evidence !in v.evidence then Some(Abort(s, x))
      else
        var next := EvidenceLinkRead(t.at.snapshot, t.at.evidence, t.at.cutoff, v.evidence[t.at.evidence]);
        Some(Put(s, x, t.(at := next)))
    case FinishEvidenceLink =>
      if !t.at.EvidenceLinkRead? then None
      else if !Known(t.at.row, t.at.cutoff) then Some(Abort(s, x))
      else
        var links := t.writes.evidenceLinks + {(t.at.snapshot, t.at.evidence)};
        Some(Put(s, x, t.(writes := t.writes.(evidenceLinks := links), at := Idle)))
    case _ => None
  }

  /** With `guards.lock` the first query is `for update`: it waits for, then holds, the run's row lock. */
  function RunLinkStep(guards: Guards, s: State, x: Id, a: Action): Option<State>
    requires x in s.active
  {
    var t, v := s.active[x], View(s, x);
    match a
    case BeginRunLink(run, snapshot) =>
      if !t.at.Idle? || (guards.lock && LockedByOther(s, x, run)) then None
      else if run !in v.runs then Some(Abort(s, x))
      else
        var locks := if guards.lock then t.locks + {run} else t.locks;
        Some(Put(s, x, t.(locks := locks, at := RunLinkBegun(run, snapshot, v.runs[run].authority.asOf))))
    case ReadSnapshot =>
      if !t.at.RunLinkBegun? then None
      else if t.at.snapshot !in v.snapshots then Some(Abort(s, x))
      else
        var next := RunLinkRead(t.at.run, t.at.snapshot, t.at.runAsOf, v.snapshots[t.at.snapshot]);
        Some(Put(s, x, t.(at := next)))
    case FinishRunLink =>
      if !t.at.RunLinkRead? then None
      else if exists y | y in s.active :: y != x && t.at.run in s.active[y].writes.runLinks then None
      else if t.at.run in v.runLinks || !Past(t.at.seen, t.at.runAsOf) then Some(Abort(s, x))
      else
        var links := t.writes.runLinks[t.at.run := t.at.snapshot];
        Some(Put(s, x, t.(writes := t.writes.(runLinks := links), at := Idle)))
    case _ => None
  }

  /** UPDATE locks the row before its trigger looks for a link. */
  function UpdateStep(guards: Guards, s: State, x: Id, a: Action): Option<State>
    requires x in s.active
  {
    var t, v := s.active[x], View(s, x);
    match a
    case BeginUpdate(run, after) =>
      if !t.at.Idle? || LockedByOther(s, x, run) || run !in v.runs then None
      else Some(Put(s, x, t.(locks := t.locks + {run}, at := UpdateBegun(run, after))))
    case CheckUpdate =>
      if !t.at.UpdateBegun? || t.at.run !in v.runs then None
      else if guards.freeze && t.at.run in v.runLinks && t.at.after.authority != v.runs[t.at.run].authority then
        Some(Abort(s, x))
      else if t.at.after.version <= 0 then Some(Abort(s, x))
      else Some(Put(s, x, t.(at := UpdateChecked(t.at.run, t.at.after))))
    case FinishUpdate =>
      if !t.at.UpdateChecked? then None
      else
        var rows := t.writes.runs[t.at.run := t.at.after];
        Some(Put(s, x, t.(writes := t.writes.(runs := rows), at := Idle)))
    case _ => None
  }

  /** One step of one transaction; `None` when it is blocked or out of turn. */
  function Next(guards: Guards, s: State, step: Step): Option<State> {
    var x := step.tx;
    if step.action.Begin? then
      if x in s.active then None else Some(Put(s, x, Transaction(Nothing, {}, Idle)))
    else if x !in s.active then None
    else
      match step.action
      case Commit =>
        if s.active[x].at.Idle? then Some(State(View(s, x), s.active - {x})) else None
      case Rollback => Some(Abort(s, x))
      case InsertEvidence(_, _) => if s.active[x].at.Idle? then Insert(s, x, step.action) else None
      case InsertSnapshot(_, _) => if s.active[x].at.Idle? then Insert(s, x, step.action) else None
      case InsertRun(_, _) => if s.active[x].at.Idle? then Insert(s, x, step.action) else None
      case AmendEvidence(_, _) => if s.active[x].at.Idle? then Amend(guards, s, x, step.action) else None
      case AmendSnapshot(_, _) => if s.active[x].at.Idle? then Amend(guards, s, x, step.action) else None
      case BeginEvidenceLink(_, _) => EvidenceLinkStep(s, x, step.action)
      case ReadEvidence => EvidenceLinkStep(s, x, step.action)
      case FinishEvidenceLink => EvidenceLinkStep(s, x, step.action)
      case BeginRunLink(_, _) => RunLinkStep(guards, s, x, step.action)
      case ReadSnapshot => RunLinkStep(guards, s, x, step.action)
      case FinishRunLink => RunLinkStep(guards, s, x, step.action)
      case BeginUpdate(_, _) => UpdateStep(guards, s, x, step.action)
      case CheckUpdate => UpdateStep(guards, s, x, step.action)
      case FinishUpdate => UpdateStep(guards, s, x, step.action)
  }

  /** Any interleaving: a step that cannot be taken is waited out. */
  function RunSteps(guards: Guards, s: State, steps: seq<Step>): State {
    if steps == [] then s
    else
      var n := |steps| - 1;
      var before := RunSteps(guards, s, steps[..n]);
      var next := Next(guards, before, steps[n]);
      if next.Some? then next.value else before
  }

  /** Every linked snapshot lies in its run's past and holds only evidence available by then. */
  ghost predicate NoLookAhead(v: Store) {
    forall r | r in v.runLinks ::
      && r in v.runs && v.runLinks[r] in v.snapshots
      && v.snapshots[v.runLinks[r]].asOf <= v.runs[r].authority.asOf
      && forall e | (v.runLinks[r], e) in v.evidenceLinks ::
           e in v.evidence && v.evidence[e].availableAt <= v.snapshots[v.runLinks[r]].asOf
  }
}

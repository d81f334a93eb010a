/** The strategy registry, its evaluation reports and its audit chain. */
module StrategyGuards {
  import opened Wrappers
  import opened Sql
  import opened Chain

  datatype Key = Key(id: string, version: string)

  type ReportId = string

  datatype Stage = Draft | Evaluating | Rejected | Shadow | PaperEligible | Suspended | Retired | Other(name: string)

  datatype Identity = Identity(
    manifestId: string,
    manifestHash: Hash,
    kind: string,
    sourceArtifactHash: Hash,
    runtimeHash: Hash,
    featureSpecHash: Hash,
    labelSpecHash: Hash,
    universeSpecHash: Hash,
    costModelHash: Hash,
    splitPolicyHash: Hash,
    parametersHash: Hash,
    owner: string,
    deterministic: bool,
    manifestCreatedAt: int)

  datatype Strategy = Strategy(
    identity: Identity,
    createdAt: int,
    updatedAt: int,
    stage: Stage,
    report: Option<ReportId>,
    evaluationHash: Option<Hash>,
    version: int)

  datatype Evaluation = Evaluation(
    strategy: Key,
    manifestHash: Hash,
    runtimeHash: Hash,
    evaluationHash: Hash,
    passed: bool,
    validUntil: int)

  datatype Audit = Audit(from: Option<Stage>, to: Stage, report: Option<ReportId>, evaluationHash: Option<Hash>)

  /** What the deferred trigger sees of one insert (`from` is NULL) or update: OLD.state and NEW. */
  datatype Mutation = Mutation(from: Option<Stage>, row: Strategy)

  datatype Tables = Tables(
    rows: map<Key, Strategy>,
    evaluations: map<ReportId, Evaluation>,
    audits: seq<Entry<Key, Event<Audit>>>,
    due: seq<Entry<Key, Mutation>>)

  const Empty := Tables(map[], map[], [], [])

  datatype Statement =
    | Register(key: Key, row: Strategy, now: int)
    | Promote(key: Key, newKey: Key, row: Strategy, now: int)
    | RecordAudit(key: Key, event: Event<Audit>)
    | RecordEvaluation(report: ReportId, evaluation: Evaluation)

  function Log(t: Tables, key: Key): seq<Event<Audit>> {
    Select(t.audits, key)
  }

  predicate Legal(from: Stage, to: Stage) {
    || (from == Draft && to == Evaluating)
    || (from == Evaluating && to in {Rejected, Shadow})
    || (from == Shadow && to == PaperEligible)
    || (from == PaperEligible && to in {Suspended, Retired})
    || (from == Suspended && to in {Evaluating, Retired})
  }

  predicate GenesisInvalid(row: Strategy) {
    row.stage != Draft || row.version != 1 || row.report.Some? || row.evaluationHash.Some?
  }

  /** The branch that reads the evaluation a row is bound to. */
  predicate BindingInvalid(evaluations: map<ReportId, Evaluation>, key: Key, row: Strategy, now: int) {
    row.report.Some? &&
    (row.report.value !in evaluations ||
     var e := evaluations[row.report.value];
     || Raises(NotEqual(Some(e.evaluationHash), row.evaluationHash))
     || e.strategy != key || e.manifestHash != row.identity.manifestHash || e.runtimeHash != row.identity.runtimeHash
     || (row.stage in {Shadow, PaperEligible} && (!e.passed || e.validUntil <= now)))
  }

  predicate PromotionInvalid(t: Tables, key: Key, newKey: Key, row: Strategy, now: int)
    requires key in t.rows
  {
    var held := t.rows[key];
    || newKey != key || row.identity != held.identity || row.createdAt != held.createdAt
    || row.version != held.version + 1
    || !Legal(held.stage, row.stage)
    || row.report.None? != row.evaluationHash.None?
    || (row.stage in {Rejected, Shadow, PaperEligible, Suspended, Retired} && row.report.None?)
    || BindingInvalid(t.evaluations, key, row, now)
  }

  predicate AuditAdmitted(t: Tables, key: Key, e: Event<Audit>) {
    && Admitted(Log(t, key), e, False, False)
    && (e.body.report.None? == e.body.evaluationHash.None?)
    && key in t.rows
  }

  function Exec(t: Tables, s: Statement): Option<Tables> {
    match s
    case Register(key, row, now) =>
      if GenesisInvalid(row) || key in t.rows then None
      else
        var stored := row.(createdAt := now, updatedAt := now);
        Some(t.(rows := t.rows[key := stored], due := t.due + [Entry(key, Mutation(None, stored))]))
    case Promote(key, newKey, row, now) =>
      if key !in t.rows then Some(t)
      else if PromotionInvalid(t, key, newKey, row, now) || row.version <= 0 then None
      else
        var stored := row.(updatedAt := now);
        Some(t.(rows := t.rows[key := stored],
                due := t.due + [Entry(key, Mutation(Some(t.rows[key].stage), stored))]))
    case RecordAudit(key, e) =>
      if !AuditAdmitted(t, key, e) then None
      else Some(t.(audits := t.audits + [Entry(key, e)]))
    case RecordEvaluation(report, e) =>
      if report in t.evaluations || e.strategy !in t.rows then None
      else Some(t.(evaluations := t.evaluations[report := e]))
  }

  predicate Records(e: Event<Audit>, m: Mutation) {
    && e.sequence == m.row.version && e.body.from == m.from && e.body.to == m.row.stage
    && e.body.report == m.row.report && e.body.evaluationHash == m.row.evaluationHash && e.at == m.row.updatedAt
  }

  predicate HasAudit(t: Tables, key: Key, m: Mutation) {
    exists e | e in t.audits :: e.key == key && Records(e.row, m)
  }

  predicate DeferredOk(t: Tables) {
    forall d | d in t.due :: HasAudit(t, d.key, d.row)
  }

  function Settle(t: Tables): Tables {
    t.(due := [])
  }
}

/** The registry's guards accept exactly these statements and do exactly this with them, column by column. */
module StrategyAdmits {
  import opened Wrappers
  import opened Sql
  import opened Chain
  import opened StrategyGuards
  import opened StrategyLaws

  /** The promotions that exist. */
  const Steps: set<(Stage, Stage)> := {
    (Draft, Evaluating), (Evaluating, Rejected), (Evaluating, Shadow), (Shadow, PaperEligible),
    (PaperEligible, Suspended), (PaperEligible, Retired), (Suspended, Evaluating), (Suspended, Retired)
  }

  lemma StepsLegal(from: Stage, to: Stage)
    ensures Legal(from, to) <==> (from, to) in Steps
  {
  }

  /** The report a row names is an evaluation of this strategy and this very build, with the hash the row repeats. */
  ghost predicate Reported(evaluations: map<ReportId, Evaluation>, key: Key, row: Strategy)
    requires row.report.Some?
  {
    && row.report.value in evaluations
    && var e := evaluations[row.report.value];
       && row.evaluationHash == Some(e.evaluationHash) && e.strategy == key
       && e.manifestHash == row.identity.manifestHash && e.runtimeHash == row.identity.runtimeHash
  }

  /** The evidence a stage asks for: any report past evaluating, and a passed one still valid for shadow and up. */
  ghost predicate Evidenced(evaluations: map<ReportId, Evaluation>, key: Key, row: Strategy, now: int) {
    if row.report == None then
      row.evaluationHash == None && row.stage !in {Rejected, Shadow, PaperEligible, Suspended, Retired}
    else
      && Reported(evaluations, key, row)
      && var e := evaluations[row.report.value];
         row.stage == Shadow || row.stage == PaperEligible ==> e.passed && now < e.validUntil
  }

  /** The next version of a strategy. */
  ghost predicate NextVersion(t: Tables, key: Key, row: Strategy, now: int)
    requires key in t.rows
  {
    var held := t.rows[key];
    && row.identity == held.identity && row.createdAt == held.createdAt
    && row.version == held.version + 1 && row.version > 0
    && (held.stage, row.stage) in Steps && Evidenced(t.evaluations, key, row, now)
  }

  lemma EvidencedIs(evaluations: map<ReportId, Evaluation>, key: Key, row: Strategy, now: int)
    ensures Evidenced(evaluations, key, row, now) <==>
      && row.report.None? == row.evaluationHash.None?
      && !(row.stage in {Rejected, Shadow, PaperEligible, Suspended, Retired} && row.report.None?)
      && !BindingInvalid(evaluations, key, row, now)
  {
  }

  lemma RegistersExactly(t: Tables, key: Key, row: Strategy, now: int)
    ensures var stored := row.(createdAt := now, updatedAt := now);
            Exec(t, Register(key, row, now)) ==
              if key !in t.rows && row.stage == Draft && row.version == 1 && row.report == None && row.evaluationHash == None
              then Some(Tables(t.rows[key := stored], t.evaluations, t.audits, t.due + [Entry(key, Mutation(None, stored))]))
              else None
  {
  }

  lemma PromotesExactly(t: Tables, key: Key, newKey: Key, row: Strategy, now: int)
    ensures var stored := row.(updatedAt := now);
            Exec(t, Promote(key, newKey, row, now)) ==
              if key !in t.rows then Some(t)
              else if newKey == key && NextVersion(t, key, row, now)
              then Some(Tables(t.rows[key := stored], t.evaluations, t.audits,
                               t.due + [Entry(key, Mutation(Some(t.rows[key].stage), stored))]))
              else None
  {
    hide BindingInvalid, Evidenced, Legal;
    EvidencedIs(t.evaluations, key, row, now);
    if key in t.rows {
      StepsLegal(t.rows[key].stage, row.stage);
    }
  }

  /** An evaluation is accepted once, under a new report id, for a registered strategy. */
  lemma EvaluatesExactly(t: Tables, report: ReportId, e: Evaluation)
    ensures Exec(t, RecordEvaluation(report, e)) ==
      if report !in t.evaluations && e.strategy in t.rows
      then Some(Tables(t.rows, t.evaluations[report := e], t.audits, t.due)) else None
  {
  }

  /** The next link of an audit chain, naming a report and its hash or neither. */
  ghost predicate NextAudit(log: seq<Event<Audit>>, e: Event<Audit>) {
    && e.sequence == |log| + 1
    && e.previous == (if log == [] then None else Some(log[|log| - 1].hash))
    && (e.body.report == None <==> e.body.evaluationHash == None)
  }

  lemma AuditsExactly(t: Tables, key: Key, e: Event<Audit>)
    requires Tracked(t, key)
    ensures Exec(t, RecordAudit(key, e)) ==
      if key in t.rows && NextAudit(Log(t, key), e)
      then Some(Tables(t.rows, t.evaluations, t.audits + [Entry(key, e)], t.due)) else None
  {
    hide ChainOk, Select, Latest, Admitted, Bound, Pending, Audited;
    AdmittedExactly(Log(t, key), e, False, False);
  }

  /** The event that says what a mutation did. */
  ghost predicate Tells(e: Event<Audit>, m: Mutation) {
    && e.sequence == m.row.version && e.at == m.row.updatedAt
    && e.body == Audit(m.from, m.row.stage, m.row.report, m.row.evaluationHash)
  }

  lemma HasAuditIs(t: Tables, key: Key, m: Mutation)
    requires ChainOk(Log(t, key))
    ensures var log := Log(t, key);
            HasAudit(t, key, m) <==> 1 <= m.row.version <= |log| && Tells(log[m.row.version - 1], m)
  {
    hide ChainOk, Select;
    var log := Log(t, key);
    SelectMembers(t.audits, key);
    if HasAudit(t, key, m) {
      var e :| e in t.audits && e.key == key && Records(e.row, m);
      assert e == Entry(key, e.row);
      FoundAtNumber(log, e.row);
    }
    if 1 <= m.row.version <= |log| && Tells(log[m.row.version - 1], m) {
      assert Entry(key, log[m.row.version - 1]) in t.audits;
    }
  }

  /** What a mutation and an audit event leave behind together. */
  function Mutated(t: Tables, key: Key, stored: Strategy, e: Event<Audit>): Tables {
    Tables(t.rows[key := stored], t.evaluations, t.audits + [Entry(key, e)], [])
  }

  /** From a settled row, a mutation and an event pass exactly when the log tells the mutation. */
  lemma AuditedWithRow(t: Tables, u: Tables, key: Key, m: Mutation, e: Event<Audit>)
    requires u == Tables(t.rows[key := m.row], t.evaluations, t.audits, [Entry(key, m)]) && Tracked(u, key)
    ensures var w := Exec(u, RecordAudit(key, e));
            && (w.Some? <==> NextAudit(Log(t, key), e))
            && (w.Some? ==> Settle(w.value) == Mutated(t, key, m.row, e))
            && (w.Some? ==> (DeferredOk(w.value) <==>
                 1 <= m.row.version <= |Log(t, key)| + 1 && Tells((Log(t, key) + [e])[m.row.version - 1], m)))
  {
    hide ChainOk, Select, Exec, HasAudit, Tells, Bound, Pending, Audited;
    assert Log(u, key) == Log(t, key);
    AuditsExactly(u, key, e);
    var w := Exec(u, RecordAudit(key, e));
    if w.Some? {
      SelectAppend(u.audits, Entry(key, e), key);
      ChainGrows(Log(u, key), e);
      HasAuditIs(w.value, key, m);
      assert w.value.due == [Entry(key, m)];
    }
  }

  /** Registering a strategy with an audit event commits exactly for a fresh draft and the event that tells it. */
  lemma RegisterExactly(t: Tables, key: Key, row: Strategy, now: int, e: Event<Audit>)
    requires Exact(t) && Working(t) && t.due == []
    ensures var stored := row.(createdAt := now, updatedAt := now);
            var u := Exec(t, Register(key, row, now));
            var w := if u.None? then None else Exec(u.value, RecordAudit(key, e));
            && (w.Some? && DeferredOk(w.value) <==>
                  && key !in t.rows && row.stage == Draft && row.version == 1 && row.report == None
                  && row.evaluationHash == None && e.sequence == 1 && e.previous == None && e.at == now
                  && e.body == Audit(None, Draft, None, None))
            && (w.Some? ==> Settle(w.value) == Mutated(t, key, stored, e))
  {
    hide ChainOk, Select, Bound, Pending, Audited, Exec, DeferredOk, GenesisInvalid;
    assert Tracked(t, key);
    RegistersExactly(t, key, row, now);
    var u := Exec(t, Register(key, row, now));
    if u.Some? {
      ExecKeeps(t, Register(key, row, now));
      assert Tracked(u.value, key) && Log(t, key) == [];
      AuditedWithRow(t, u.value, key, Mutation(None, row.(createdAt := now, updatedAt := now)), e);
    }
  }

  /**
   Promoting a strategy together with an audit event commits exactly for a next version whose number the audit log,
   with the event, tells. Audit events may run ahead of the row, so that need not be this event.
   */
  lemma PromoteExactly(t: Tables, key: Key, newKey: Key, row: Strategy, now: int, e: Event<Audit>)
    requires Exact(t) && Working(t) && t.due == []
    ensures var stored := row.(updatedAt := now);
            var u := Exec(t, Promote(key, newKey, row, now));
            var w := if u.None? then None else Exec(u.value, RecordAudit(key, e));
            var log := Log(t, key);
            && (w.Some? && DeferredOk(w.value) <==>
                  && key in t.rows && newKey == key && NextVersion(t, key, row, now) && NextAudit(log, e)
                  && 1 <= row.version <= |log| + 1
                  && Tells((log + [e])[row.version - 1], Mutation(Some(t.rows[key].stage), stored)))
            && (w.Some? ==> Settle(w.value) == Mutated(t, key, stored, e))
  {
    hide ChainOk, Select, Bound, Pending, Audited, DeferredOk, PromotionInvalid, Evidenced, Tells, NextAudit;
    assert Tracked(t, key);
    if key in t.rows {
      hide Exec;
      PromotesExactly(t, key, newKey, row, now);
      var u := Exec(t, Promote(key, newKey, row, now));
      if u.Some? {
        ExecKeeps(t, Promote(key, newKey, row, now));
        assert Tracked(u.value, key);
        AuditedWithRow(t, u.value, key, Mutation(Some(t.rows[key].stage), row.(updatedAt := now)), e);
      }
    }
  }
}

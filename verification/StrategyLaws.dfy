/** What the registry's triggers keep, and what a legal run looks like. */
module StrategyLaws {
  import opened Wrappers
  import opened Sql
  import opened Chain
  import opened StrategyGuards

  /** Shadow and paper-eligible are only ever entered with a passed evaluation of this very build. */
  ghost predicate Bound(
    evaluations: map<ReportId, Evaluation>, key: Key, identity: Identity,
    stage: Stage, report: Option<ReportId>, evaluationHash: Option<Hash>)
  {
    stage == Shadow || stage == PaperEligible ==>
      && report.Some? && report.value in evaluations
      && var e := evaluations[report.value];
         && e.passed && e.strategy == key && evaluationHash == Some(e.evaluationHash)
         && e.manifestHash == identity.manifestHash && e.runtimeHash == identity.runtimeHash
  }

  ghost predicate RowBound(t: Tables, key: Key, row: Strategy) {
    Bound(t.evaluations, key, row.identity, row.stage, row.report, row.evaluationHash)
  }

  ghost predicate AuditBound(t: Tables, key: Key, identity: Identity, e: Audit) {
    Bound(t.evaluations, key, identity, e.to, e.report, e.evaluationHash)
  }

  /** The first `n` audit events spell a legal run from draft. */
  ghost predicate Spells(log: seq<Event<Audit>>, n: int) {
    && 1 <= n <= |log|
    && log[0].body.from == None && log[0].body.to == Draft
    && forall i, j | 0 <= i && j == i + 1 && j < n ::
         log[j].body.from == Some(log[i].body.to) && Legal(log[i].body.to, log[j].body.to)
  }

  ghost predicate AuditsBound(t: Tables, key: Key, identity: Identity, n: int) {
    forall i | 0 <= i < n && i < |Log(t, key)| :: AuditBound(t, key, identity, Log(t, key)[i].body)
  }

  /** The row's own audit event says what the row says. */
  ghost predicate AtStage(log: seq<Event<Audit>>, row: Strategy) {
    && 1 <= row.version <= |log|
    && var e := log[row.version - 1];
       && e.body.to == row.stage && e.body.report == row.report
       && e.body.evaluationHash == row.evaluationHash && e.at == row.updatedAt
  }

  ghost predicate Audited(t: Tables, key: Key, row: Strategy) {
    && Spells(Log(t, key), row.version) && AtStage(Log(t, key), row)
    && AuditsBound(t, key, row.identity, row.version)
  }

  /** Mutations queued in one transaction follow one another. */
  ghost predicate Follow(ms: seq<Mutation>) {
    && (forall k | 0 <= k < |ms| ::
          ms[k].row.version == ms[0].row.version + k && ms[k].row.identity == ms[0].row.identity)
    && (forall k, l | 0 <= k && l == k + 1 && l < |ms| ::
          ms[l].from == Some(ms[k].row.stage) && Legal(ms[k].row.stage, ms[l].row.stage))
  }

  ghost predicate AllBound(t: Tables, key: Key, ms: seq<Mutation>) {
    forall k | 0 <= k < |ms| :: RowBound(t, key, ms[k].row)
  }

  /** The first queued mutation takes up where the audited run ended. */
  ghost predicate Continues(log: seq<Event<Audit>>, m: Mutation) {
    if m.from.None? then m.row.version == 1 && m.row.stage == Draft
    else
      && Spells(log, m.row.version - 1)
      && log[m.row.version - 2].body.to == m.from.value && Legal(m.from.value, m.row.stage)
  }

  ghost predicate Pending(t: Tables, key: Key, ms: seq<Mutation>)
    requires ms != []
  {
    && Follow(ms) && AllBound(t, key, ms) && Continues(Log(t, key), ms[0])
    && AuditsBound(t, key, ms[0].row.identity, ms[0].row.version - 1)
  }

  ghost predicate Tracked(t: Tables, key: Key) {
    var ms := Select(t.due, key);
    && ChainOk(Log(t, key))
    && if key !in t.rows then Log(t, key) == [] && ms == []
       else
         && RowBound(t, key, t.rows[key])
         && if ms == [] then Audited(t, key, t.rows[key])
            else Pending(t, key, ms) && ms[|ms| - 1].row == t.rows[key]
  }

  ghost predicate Working(t: Tables) {
    forall key :: Tracked(t, key)
  }

  ghost predicate Exact(t: Tables) {
    forall key ::
      && ChainOk(Log(t, key))
      && (key !in t.rows ==> Log(t, key) == [])
      && (key in t.rows ==> Audited(t, key, t.rows[key]) && RowBound(t, key, t.rows[key]))
  }

  ghost predicate Evolves(before: Tables, after: Tables) {
    && before.audits <= after.audits
    && (forall r | r in before.evaluations :: r in after.evaluations && after.evaluations[r] == before.evaluations[r])
    && forall key | key in before.rows ::
         && key in after.rows
         && after.rows[key].identity == before.rows[key].identity
         && after.rows[key].createdAt == before.rows[key].createdAt
         && before.rows[key].version <= after.rows[key].version
  }

  // One statement

  lemma SpellsGrows(log: seq<Event<Audit>>, e: Event<Audit>, n: int)
    requires Spells(log, n)
    ensures Spells(log + [e], n) && 1 <= n <= |log|
  {
    hide Legal;
    assert forall i | 0 <= i < n :: (log + [e])[i] == log[i];
  }

  lemma AuditKeeps(t: Tables, s: Statement, key: Key)
    requires Tracked(t, key) && s.RecordAudit? && Exec(t, s).Some?
    ensures Tracked(Exec(t, s).value, key)
  {
    hide Admitted, Bound, Legal, Follow, Select, Latest, ChainOk, Spells;
    var u := Exec(t, s).value;
    SelectAppend(t.audits, Entry(s.key, s.event), key);
    if key == s.key {
      AdmittedExtends(Log(t, key), s.event, False, False);
      var ms := Select(t.due, key);
      assert Log(u, key) == Log(t, key) + [s.event];
      if ms == [] {
        SpellsGrows(Log(t, key), s.event, t.rows[key].version);
      } else if ms[0].from.Some? {
        SpellsGrows(Log(t, key), s.event, ms[0].row.version - 1);
      }
    }
  }

  lemma EvaluationKeeps(t: Tables, s: Statement, key: Key)
    requires Tracked(t, key) && s.RecordEvaluation? && Exec(t, s).Some?
    ensures Tracked(Exec(t, s).value, key)
  {
    hide Legal, Follow, Select, ChainOk, Spells;
    var u := Exec(t, s).value;
    assert Log(u, key) == Log(t, key);
  }

  lemma OthersKept(t: Tables, s: Statement, key: Key)
    requires Tracked(t, key) && (s.Register? || s.Promote?) && s.key != key && Exec(t, s).Some?
    ensures Tracked(Exec(t, s).value, key)
  {
    hide Legal, Follow, Select, ChainOk, Spells, Bound, PromotionInvalid, GenesisInvalid;
    var u := Exec(t, s).value;
    assert Log(u, key) == Log(t, key);
    if |u.due| > |t.due| {
      SelectAppend(t.due, u.due[|t.due|], key);
    }
  }

  lemma RegisterKeeps(t: Tables, s: Statement)
    requires s.Register? && Tracked(t, s.key) && Exec(t, s).Some?
    ensures Tracked(Exec(t, s).value, s.key)
  {
    hide Select, ChainOk;
    var u := Exec(t, s).value;
    var m := Mutation(None, s.row.(createdAt := s.now, updatedAt := s.now));
    SelectAppend(t.due, Entry(s.key, m), s.key);
    assert Select(u.due, s.key) == [m];
  }

  lemma PromotionMeans(t: Tables, key: Key, newKey: Key, row: Strategy, now: int)
    requires key in t.rows && !PromotionInvalid(t, key, newKey, row, now)
    ensures newKey == key && row.identity == t.rows[key].identity && row.createdAt == t.rows[key].createdAt
    ensures row.version == t.rows[key].version + 1 && Legal(t.rows[key].stage, row.stage)
    ensures RowBound(t, key, row)
  {
    hide Legal;
  }

  lemma FollowGrows(ms: seq<Mutation>, m: Mutation)
    requires ms != [] && Follow(ms)
    requires var last := ms[|ms| - 1].row;
      && m.row.version == last.version + 1 && m.row.identity == last.identity
      && m.from == Some(last.stage) && Legal(last.stage, m.row.stage)
    ensures Follow(ms + [m])
  {
    hide Legal;
    var grown := ms + [m];
    assert grown[0] == ms[0];
    assert forall k | 0 <= k < |ms| :: grown[k] == ms[k];
  }

  lemma PendingGrows(t: Tables, u: Tables, key: Key, ms: seq<Mutation>, m: Mutation)
    requires ms != [] && Pending(t, key, ms) && RowBound(t, key, m.row)
    requires u.evaluations == t.evaluations && u.audits == t.audits
    requires var last := ms[|ms| - 1].row;
      && m.row.version == last.version + 1 && m.row.identity == last.identity
      && m.from == Some(last.stage) && Legal(last.stage, m.row.stage)
    ensures Pending(u, key, ms + [m])
  {
    hide Legal, Follow, Bound, Spells, Select;
    FollowGrows(ms, m);
    assert (ms + [m])[0] == ms[0];
    assert Log(u, key) == Log(t, key);
  }

  lemma PendingStarts(t: Tables, u: Tables, key: Key, held: Strategy, m: Mutation)
    requires Audited(t, key, held) && RowBound(t, key, m.row)
    requires u.evaluations == t.evaluations && u.audits == t.audits
    requires m.row.version == held.version + 1 && m.row.identity == held.identity
    requires m.from == Some(held.stage) && Legal(held.stage, m.row.stage)
    ensures Pending(u, key, [m])
  {
    hide Legal, Bound, Spells, Select;
    assert Log(u, key) == Log(t, key);
  }

  lemma PromoteKeeps(t: Tables, s: Statement)
    requires s.Promote? && Tracked(t, s.key) && Exec(t, s).Some? && s.key in t.rows
    ensures Tracked(Exec(t, s).value, s.key)
  {
    hide Legal, Bound, Spells, Select, ChainOk, PromotionInvalid, Pending, Audited;
    var u := Exec(t, s).value;
    PromotionMeans(t, s.key, s.newKey, s.row, s.now);
    var ms := Select(t.due, s.key);
    var m := Mutation(Some(t.rows[s.key].stage), s.row.(updatedAt := s.now));
    SelectAppend(t.due, Entry(s.key, m), s.key);
    assert Select(u.due, s.key) == ms + [m];
    assert RowBound(t, s.key, m.row) && RowBound(u, s.key, m.row);
    if ms == [] {
      PendingStarts(t, u, s.key, t.rows[s.key], m);
      assert ms + [m] == [m];
    } else {
      PendingGrows(t, u, s.key, ms, m);
    }
  }

  lemma KeyKept(t: Tables, s: Statement, key: Key)
    requires Tracked(t, key) && Exec(t, s).Some?
    ensures Tracked(Exec(t, s).value, key)
  {
    hide Tracked, PromotionInvalid, GenesisInvalid, AuditAdmitted;
    match s
    case RecordAudit(_, _) => AuditKeeps(t, s, key);
    case RecordEvaluation(_, _) => EvaluationKeeps(t, s, key);
    case Register(k, _, _) =>
      if k == key { RegisterKeeps(t, s); } else { OthersKept(t, s, key); }
    case Promote(k, _, _, _) =>
      if k != key { OthersKept(t, s, key); } else if key in t.rows { PromoteKeeps(t, s); }
  }

  lemma ExecKeeps(t: Tables, s: Statement)
    requires Working(t) && Exec(t, s).Some?
    ensures Working(Exec(t, s).value)
  {
    hide Tracked, Exec;
    forall key ensures Tracked(Exec(t, s).value, key) {
      assert Tracked(t, key);
      KeyKept(t, s, key);
    }
  }

  lemma ExecEvolves(t: Tables, s: Statement)
    requires Exec(t, s).Some?
    ensures Evolves(t, Exec(t, s).value)
  {
    hide Legal, BindingInvalid, AuditAdmitted;
  }

  lemma EvolvesTransitive(a: Tables, b: Tables, c: Tables)
    requires Evolves(a, b) && Evolves(b, c)
    ensures Evolves(a, c)
  {
  }

  // Commit

  lemma MutationRecorded(t: Tables, key: Key, m: Mutation)
    requires ChainOk(Log(t, key)) && DeferredOk(t) && m in Select(t.due, key)
    ensures 1 <= m.row.version <= |Log(t, key)| && Records(Log(t, key)[m.row.version - 1], m)
  {
    hide Select, ChainOk;
    SelectMembers(t.due, key);
    assert Entry(key, m) in t.due;
    assert HasAudit(t, key, m);
    var e :| e in t.audits && e.key == key && Records(e.row, m);
    assert e == Entry(key, e.row);
    SelectMembers(t.audits, key);
    FoundAtNumber(Log(t, key), e.row);
  }

  ghost predicate Recorded(log: seq<Event<Audit>>, ms: seq<Mutation>) {
    forall k | 0 <= k < |ms| :: 1 <= ms[k].row.version <= |log| && Records(log[ms[k].row.version - 1], ms[k])
  }

  lemma QueueAt(log: seq<Event<Audit>>, ms: seq<Mutation>, i: int)
    requires ms != [] && Follow(ms) && Recorded(log, ms) && ms[0].row.version >= 1
    requires ms[0].row.version - 1 <= i < ms[0].row.version - 1 + |ms|
    ensures i < |log| && Records(log[i], ms[i - ms[0].row.version + 1])
  {
    hide Legal, Records;
    var k := i - ms[0].row.version + 1;
    assert ms[k].row.version == ms[0].row.version + k;
  }

  lemma QueueStep(log: seq<Event<Audit>>, ms: seq<Mutation>, i: int)
    requires ms != [] && Follow(ms) && Recorded(log, ms) && ms[0].row.version >= 1
    requires ms[0].row.version - 1 <= i < ms[0].row.version - 2 + |ms|
    ensures i + 1 < |log| && log[i + 1].body.from == Some(log[i].body.to) && Legal(log[i].body.to, log[i + 1].body.to)
  {
    hide Legal, Recorded;
    QueueAt(log, ms, i);
    QueueAt(log, ms, i + 1);
    var k := i - ms[0].row.version + 1;
    var l := k + 1;
    assert ms[l].from == Some(ms[k].row.stage);
  }

  /** The queue's first step follows the audited run. */
  lemma QueueHead(log: seq<Event<Audit>>, ms: seq<Mutation>)
    requires ms != [] && Recorded(log, ms) && Continues(log, ms[0])
    ensures ms[0].row.version == 1 ==> log[0].body.from == None && log[0].body.to == Draft
    ensures ms[0].row.version > 1 ==>
      var b := ms[0].row.version - 1;
      && Spells(log, b) && b < |log|
      && log[b].body.from == Some(log[b - 1].body.to) && Legal(log[b - 1].body.to, log[b].body.to)
  {
    hide Legal;
  }

  lemma QueueSpells(log: seq<Event<Audit>>, ms: seq<Mutation>)
    requires ms != [] && Follow(ms) && Recorded(log, ms) && Continues(log, ms[0])
    ensures Spells(log, ms[|ms| - 1].row.version)
  {
    hide Legal, Recorded, Continues;
    assert 1 <= ms[0].row.version by { QueueVersion(log, ms); }
    var b := ms[0].row.version - 1;
    var n := b + |ms|;
    assert ms[|ms| - 1].row.version == n;
    QueueHead(log, ms);
    QueueAt(log, ms, n - 1);
    forall i, j | 0 <= i && j == i + 1 && j < n
      ensures log[j].body.from == Some(log[i].body.to) && Legal(log[i].body.to, log[j].body.to)
    {
      if b <= i {
        QueueStep(log, ms, i);
      }
    }
  }

  lemma QueueVersion(log: seq<Event<Audit>>, ms: seq<Mutation>)
    requires ms != [] && Recorded(log, ms)
    ensures 1 <= ms[0].row.version <= |log|
  {
    hide Records;
  }

  lemma QueueBound(t: Tables, key: Key, ms: seq<Mutation>)
    requires ms != [] && Pending(t, key, ms) && Recorded(Log(t, key), ms)
    ensures AuditsBound(t, key, ms[|ms| - 1].row.identity, ms[|ms| - 1].row.version)
  {
    hide Legal, Recorded, Continues, Bound, Select;
    QueueVersion(Log(t, key), ms);
    var log := Log(t, key);
    var b := ms[0].row.version - 1;
    var n := ms[|ms| - 1].row.version;
    assert n == b + |ms| && ms[|ms| - 1].row.identity == ms[0].row.identity;
    forall i | 0 <= i < n && i < |log| ensures AuditBound(t, key, ms[0].row.identity, log[i].body) {
      if b <= i {
        QueueAt(log, ms, i);
        assert RowBound(t, key, ms[i - b].row);
      }
    }
  }

  lemma QueueAtStage(log: seq<Event<Audit>>, ms: seq<Mutation>)
    requires ms != [] && Recorded(log, ms)
    ensures AtStage(log, ms[|ms| - 1].row)
  {
  }

  lemma CommitAudits(t: Tables, key: Key)
    requires Tracked(t, key) && DeferredOk(t) && key in t.rows
    ensures Audited(t, key, t.rows[key])
  {
    hide Select, ChainOk, DeferredOk, Spells, AtStage, AuditsBound, Follow, AllBound, Continues, Records;
    var ms := Select(t.due, key);
    if ms != [] {
      forall k | 0 <= k < |ms|
        ensures 1 <= ms[k].row.version <= |Log(t, key)| && Records(Log(t, key)[ms[k].row.version - 1], ms[k])
      {
        MutationRecorded(t, key, ms[k]);
      }
      QueueSpells(Log(t, key), ms);
      QueueBound(t, key, ms);
      QueueAtStage(Log(t, key), ms);
    }
  }

  lemma AuditedSettled(t: Tables, key: Key)
    requires Tracked(t, key) && key in t.rows && Audited(t, key, t.rows[key])
    ensures Tracked(Settle(t), key) && Audited(Settle(t), key, t.rows[key]) && RowBound(Settle(t), key, t.rows[key])
  {
    hide ChainOk, Spells, AtStage, Bound;
    assert Log(Settle(t), key) == Log(t, key);
  }

  lemma CommitExact(t: Tables)
    requires Working(t) && DeferredOk(t)
    ensures Exact(Settle(t)) && Working(Settle(t)) && Settle(t).due == []
  {
    hide ChainOk, DeferredOk, Audited, Bound, Pending;
    var u := Settle(t);
    forall key
      ensures Tracked(u, key) && ChainOk(Log(u, key))
      ensures key !in u.rows ==> Log(u, key) == []
      ensures key in u.rows ==> Audited(u, key, u.rows[key]) && RowBound(u, key, u.rows[key])
    {
      assert Tracked(t, key) && Log(u, key) == Log(t, key);
      if key in t.rows {
        CommitAudits(t, key);
        AuditedSettled(t, key);
      }
    }
  }

  // Legal runs

  /** The version, modulo four, at which a stage can be reached. */
  predicate InPhase(stage: Stage, version: int) {
    match stage
    case Draft => version == 1
    case Evaluating => version % 4 == 2
    case Rejected => version % 4 == 3
    case Shadow => version % 4 == 3
    case PaperEligible => version % 4 == 0
    case Suspended => version % 4 == 1
    case Retired => version % 4 == 1 || version % 4 == 2
    case Other(_) => false
  }

  lemma {:induction false} RunInPhase(log: seq<Event<Audit>>, n: int, version: int)
    requires Spells(log, n) && 1 <= version <= n
    ensures InPhase(log[version - 1].body.to, version)
  {
    if version > 1 {
      RunInPhase(log, n, version - 1);
      var i, j := version - 2, version - 1;
      assert Legal(log[i].body.to, log[j].body.to);
    }
  }

  /** A strategy is paper-eligible only at versions divisible by four. */
  lemma EligibleAtFourth(t: Tables, key: Key)
    requires Exact(t) && key in t.rows
    ensures InPhase(t.rows[key].stage, t.rows[key].version)
    ensures t.rows[key].stage == PaperEligible ==> t.rows[key].version % 4 == 0
  {
    hide ChainOk, Select, Bound, Spells, AuditsBound;
    assert Audited(t, key, t.rows[key]);
    RunInPhase(Log(t, key), t.rows[key].version, t.rows[key].version);
  }

  lemma NextStage(log: seq<Event<Audit>>, n: int, i: nat)
    requires Spells(log, n) && i + 1 < n
    ensures Legal(log[i].body.to, log[i + 1].body.to)
  {
    hide Legal;
    var j := i + 1;
    assert log[j].body.from == Some(log[i].body.to);
  }

  /** Leaving paper-eligible, the only way back is suspended, evaluating, shadow. */
  lemma WayBack(log: seq<Event<Audit>>, n: int, i: nat, j: nat)
    requires Spells(log, n) && i < j < n
    requires log[i].body.to == PaperEligible && log[j].body.to == PaperEligible
    ensures i + 4 <= j
    ensures log[i + 1].body.to == Suspended && log[i + 2].body.to == Evaluating
    ensures log[i + 3].body.to == Shadow && log[i + 4].body.to == PaperEligible
  {
    hide Spells;
    NextStage(log, n, i);
    NotTerminal(log, n, i + 1, j);
    NextStage(log, n, i + 1);
    NotTerminal(log, n, i + 2, j);
    NextStage(log, n, i + 2);
    NotTerminal(log, n, i + 3, j);
    NextStage(log, n, i + 3);
  }

  /** Nothing follows rejected or retired. */
  lemma NotTerminal(log: seq<Event<Audit>>, n: int, i: nat, j: nat)
    requires Spells(log, n) && i <= j < n && log[j].body.to == PaperEligible
    ensures log[i].body.to != Rejected && log[i].body.to != Retired
  {
    hide Spells;
    if i < j {
      NextStage(log, n, i);
    }
  }

  /** Successive visits to paper-eligible are exactly four versions apart. */
  lemma SuccessiveVisits(t: Tables, key: Key, i: nat, j: nat)
    requires Exact(t) && key in t.rows && i < j < t.rows[key].version
    requires Log(t, key)[i].body.to == PaperEligible && Log(t, key)[j].body.to == PaperEligible
    requires forall k | i < k < j :: Log(t, key)[k].body.to != PaperEligible
    ensures j == i + 4
    ensures Log(t, key)[i + 1].body.to == Suspended
    ensures Log(t, key)[i + 2].body.to == Evaluating
    ensures Log(t, key)[i + 3].body.to == Shadow
  {
    hide ChainOk, Select, Bound, Spells, AuditsBound;
    assert Audited(t, key, t.rows[key]);
    WayBack(Log(t, key), t.rows[key].version, i, j);
  }

  /** A permitted promotion with its audit event, from a settled row, is never refused. */
  lemma PromotionCommits(t: Tables, key: Key, row: Strategy, now: int, e: Event<Audit>)
    requires Tracked(t, key) && t.due == [] && key in t.rows && t.rows[key].version == |Log(t, key)|
    requires !PromotionInvalid(t, key, key, row, now)
    requires Records(e, Mutation(Some(t.rows[key].stage), row.(updatedAt := now)))
    requires e.previous == HashBefore(Log(t, key), |Log(t, key)|)
    ensures var u := Exec(t, Promote(key, key, row, now));
            && u.Some?
            && var w := Exec(u.value, RecordAudit(key, e));
               w.Some? && DeferredOk(w.value) && w.value.rows[key].stage == row.stage
  {
    hide ChainOk, Spells, Select, Latest, Admitted, HashBefore, Bound, Legal, BindingInvalid;
    AdmittedExactly(Log(t, key), e, False, False);
    var u := Exec(t, Promote(key, key, row, now)).value;
    var w := Exec(u, RecordAudit(key, e)).value;
    assert Entry(key, e) in w.audits;
    assert HasAudit(w, key, Mutation(Some(t.rows[key].stage), row.(updatedAt := now)));
  }
}

/**
 The reservation row and its event log. Events may be appended ahead of the row; the deferred
 trigger ties every version of the row to the event that carries its number.
 */
module ReservationGuards {
  import opened Wrappers
  import opened Sql
  import opened Chain

  type ReservationId = string

  datatype Stage = Open | Other(name: string)

  /** The columns an update may never touch. */
  datatype Terms = Terms(
    orderIntent: string,
    account: string,
    instrument: Option<string>,
    kind: string,
    commodity: string,
    amount: real,
    quantum: real,
    riskDecision: string,
    riskDecisionHash: Hash,
    portfolioTarget: string,
    authorizedTargetHash: Hash,
    riskAccountAggregate: int,
    accountAggregate: int,
    portfolioSequence: int,
    createdAt: int,
    expiresAt: int)

  datatype Reservation = Reservation(
    terms: Terms,
    remaining: real,
    stage: Stage,
    updatedAt: int,
    sequence: int,
    previous: Option<Hash>,
    hash: Hash)

  datatype Change = Change(
    eventType: string,
    from: Option<Stage>,
    to: Stage,
    amount: real,
    remaining: real,
    reason: string)

  datatype Tables = Tables(
    rows: map<ReservationId, Reservation>,
    events: seq<Entry<ReservationId, Event<Change>>>,
    due: seq<Entry<ReservationId, Reservation>>)

  const Empty := Tables(map[], [], [])

  datatype Statement =
    | Reserve(id: ReservationId, row: Reservation)
    | Amend(id: ReservationId, newId: ReservationId, row: Reservation)
    | RecordChange(id: ReservationId, event: Event<Change>)

  function Log(t: Tables, id: ReservationId): seq<Event<Change>> {
    Select(t.events, id)
  }

  predicate RowChecks(row: Reservation) {
    && row.terms.amount > 0.0 && 0.0 <= row.remaining <= row.terms.amount && row.terms.quantum > 0.0
    && IsMultiple(row.terms.amount, row.terms.quantum) && IsMultiple(row.remaining, row.terms.quantum)
    && row.terms.accountAggregate == row.terms.riskAccountAggregate + 1
    && ((row.sequence == 1 && row.previous.None?) || (row.sequence > 1 && row.previous.Some?))
  }

  predicate GenesisInvalid(row: Reservation) {
    row.stage != Open || row.sequence != 1 || row.previous.Some? || row.remaining != row.terms.amount
  }

  /** `previous_event_hash <> old.event_hash` is unknown for NULL, so NULL gets past this condition. */
  function AmendInvalid(id: ReservationId, held: Reservation, newId: ReservationId, row: Reservation): Truth {
    Or(Of(newId != id || row.terms != held.terms),
       Or(Of(row.sequence != held.sequence + 1),
          Or(NotEqual(row.previous, Some(held.hash)),
             Of(row.remaining > held.remaining))))
  }

  function StageOf(prior: Option<Event<Change>>): Option<Stage> {
    if prior.Some? then Some(prior.value.body.to) else None
  }

  function GenesisEvent(e: Event<Change>): Truth {
    Or(Of(e.body.from.Some?), Of(e.body.to != Open))
  }

  function EventStep(prior: Option<Event<Change>>, e: Event<Change>): Truth {
    Or(NotEqual(e.body.from, StageOf(prior)), Less(Some(e.at), TimeOf(prior)))
  }

  function Exec(t: Tables, s: Statement): Option<Tables> {
    match s
    case Reserve(id, row) =>
      if GenesisInvalid(row) || !RowChecks(row) || id in t.rows then None
      else Some(t.(rows := t.rows[id := row], due := t.due + [Entry(id, row)]))
    case Amend(id, newId, row) =>
      if id !in t.rows then Some(t)
      else if Raises(AmendInvalid(id, t.rows[id], newId, row)) || !RowChecks(row) then None
      else Some(t.(rows := t.rows[id := row], due := t.due + [Entry(id, row)]))
    case RecordChange(id, e) =>
      if id !in t.rows
         || !Admitted(Log(t, id), e, GenesisEvent(e), EventStep(Latest(Log(t, id)), e)) then None
      else Some(t.(events := t.events + [Entry(id, e)]))
  }

  /** The event that a row version asks for at commit. */
  predicate Records(e: Event<Change>, row: Reservation) {
    && e.sequence == row.sequence && e.hash == row.hash && e.previous == row.previous
    && e.body.to == row.stage && e.body.remaining == row.remaining && e.at == row.updatedAt
  }

  predicate HasEvent(t: Tables, id: ReservationId, row: Reservation) {
    exists e | e in t.events :: e.key == id && Records(e.row, row)
  }

  predicate DeferredOk(t: Tables) {
    forall d | d in t.due :: HasEvent(t, d.key, d.row)
  }

  function Settle(t: Tables): Tables {
    t.(due := [])
  }

  /** Along the first `n` events the remaining amount stays within 0 .. amount and never rises. */
  ghost predicate Falls(log: seq<Event<Change>>, n: int, amount: real) {
    && 0 <= n <= |log|
    && (forall i | 0 <= i < n :: 0.0 <= log[i].body.remaining <= amount)
    && (forall i, j | 0 <= i < j < n :: log[j].body.remaining <= log[i].body.remaining)
  }

  /** The row is what its own event says, and the log up to it is a falling replay. */
  ghost predicate Replayed(log: seq<Event<Change>>, row: Reservation) {
    && 1 <= row.sequence <= |log|
    && Records(log[row.sequence - 1], row)
    && Falls(log, row.sequence, row.terms.amount)
  }

  /** A stated `from` is the state before; a NULL one says nothing. */
  ghost predicate StagesLinked(log: seq<Event<Change>>) {
    && (log != [] ==> log[0].body.from.None? && log[0].body.to == Open)
    && forall i, j | 0 <= i && j == i + 1 && j < |log| ::
         log[j].body.from.None? || log[j].body.from == Some(log[i].body.to)
  }

  ghost predicate LogOk(log: seq<Event<Change>>) {
    ChainOk(log) && InOrder(log) && StagesLinked(log)
  }

  /** Row versions queued in one transaction: consecutive, with the amount falling. */
  ghost predicate Versions(vs: seq<Reservation>) {
    && (forall k | 0 <= k < |vs| ::
          vs[k].sequence == vs[0].sequence + k && vs[k].terms == vs[0].terms
          && 0.0 <= vs[k].remaining <= vs[k].terms.amount)
    && (forall k, l | 0 <= k < l < |vs| :: vs[l].remaining <= vs[k].remaining)
  }

  /** The queue starts where the committed replay ended. */
  ghost predicate Continues(log: seq<Event<Change>>, v: Reservation) {
    && Falls(log, v.sequence - 1, v.terms.amount)
    && forall i | 0 <= i < v.sequence - 1 :: v.remaining <= log[i].body.remaining
  }

  ghost predicate Tracked(t: Tables, id: ReservationId) {
    var log, vs := Log(t, id), Select(t.due, id);
    && LogOk(log)
    && if id !in t.rows then log == [] && vs == []
       else
         && RowChecks(t.rows[id])
         && if vs == [] then Replayed(log, t.rows[id])
            else Versions(vs) && vs[|vs| - 1] == t.rows[id] && Continues(log, vs[0])
  }

  ghost predicate Working(t: Tables) {
    forall id :: Tracked(t, id)
  }

  ghost predicate Exact(t: Tables) {
    forall id ::
      && LogOk(Log(t, id))
      && (id !in t.rows ==> Log(t, id) == [])
      && (id in t.rows ==> RowChecks(t.rows[id]) && Replayed(Log(t, id), t.rows[id]))
  }

  ghost predicate Evolves(before: Tables, after: Tables) {
    && before.events <= after.events
    && forall id | id in before.rows ::
         && id in after.rows
         && before.rows[id].terms == after.rows[id].terms
         && before.rows[id].sequence <= after.rows[id].sequence
         && after.rows[id].remaining <= before.rows[id].remaining
  }

  lemma FallsGrows(log: seq<Event<Change>>, e: Event<Change>, n: int, amount: real)
    requires Falls(log, n, amount)
    ensures Falls(log + [e], n, amount)
  {
  }

  lemma ReplayedGrows(log: seq<Event<Change>>, e: Event<Change>, row: Reservation)
    requires Replayed(log, row)
    ensures Replayed(log + [e], row)
  {
    hide Falls;
    assert (log + [e])[row.sequence - 1] == log[row.sequence - 1];
    FallsGrows(log, e, row.sequence, row.terms.amount);
  }

  lemma ContinuesGrows(log: seq<Event<Change>>, e: Event<Change>, v: Reservation)
    requires Continues(log, v)
    ensures Continues(log + [e], v)
  {
    FallsGrows(log, e, v.sequence - 1, v.terms.amount);
  }

  lemma StagesGrow(log: seq<Event<Change>>, e: Event<Change>)
    requires StagesLinked(log)
    requires log == [] ==> !Raises(GenesisEvent(e))
    requires log != [] ==> !Raises(EventStep(Some(log[|log| - 1]), e))
    ensures StagesLinked(log + [e])
    ensures log != [] ==> log[|log| - 1].at <= e.at
  {
    var grown := log + [e];
    assert forall i | 0 <= i < |log| :: grown[i] == log[i];
    assert grown[|log|] == e;
  }

  lemma LogGrows(log: seq<Event<Change>>, e: Event<Change>)
    requires LogOk(log) && Admitted(log, e, GenesisEvent(e), EventStep(Latest(log), e))
    ensures LogOk(log + [e])
  {
    hide ChainOk, InOrder, StagesLinked, Admitted, GenesisEvent, EventStep, Latest;
    AdmittedExtends(log, e, GenesisEvent(e), EventStep(Latest(log), e));
    StagesGrow(log, e);
    TimeExtends(log, e);
  }

  lemma RecordKeeps(t: Tables, s: Statement)
    requires Working(t) && s.RecordChange? && Exec(t, s).Some?
    ensures Working(Exec(t, s).value)
  {
    hide LogOk, Admitted, Replayed, Continues, Versions, Select, Latest;
    var u := Exec(t, s).value;
    forall id ensures Tracked(u, id) {
      assert Tracked(t, id);
      SelectAppend(t.events, Entry(s.id, s.event), id);
      if id == s.id {
        LogGrows(Log(t, id), s.event);
        if Select(t.due, id) == [] {
          ReplayedGrows(Log(t, id), s.event, t.rows[id]);
        } else {
          ContinuesGrows(Log(t, id), s.event, Select(t.due, id)[0]);
        }
      }
    }
  }

  lemma VersionsGrow(vs: seq<Reservation>, row: Reservation)
    requires Versions(vs) && vs != []
    requires var last := vs[|vs| - 1];
      row.sequence == last.sequence + 1 && row.terms == last.terms && row.remaining <= last.remaining
    requires 0.0 <= row.remaining <= row.terms.amount
    ensures Versions(vs + [row])
  {
    var grown := vs + [row];
    assert grown[0] == vs[0];
    forall k | 0 <= k < |vs| ensures row.remaining <= vs[k].remaining {
      assert vs[|vs| - 1].remaining <= vs[k].remaining;
    }
  }

  lemma ReplayContinues(log: seq<Event<Change>>, held: Reservation, row: Reservation)
    requires Replayed(log, held)
    requires row.sequence == held.sequence + 1 && row.terms == held.terms && row.remaining <= held.remaining
    ensures Continues(log, row)
  {
    forall i | 0 <= i < held.sequence ensures row.remaining <= log[i].body.remaining {
      assert log[held.sequence - 1].body.remaining <= log[i].body.remaining;
    }
  }

  lemma AmendMeans(id: ReservationId, held: Reservation, newId: ReservationId, row: Reservation)
    requires !Raises(AmendInvalid(id, held, newId, row)) && RowChecks(row)
    ensures newId == id && row.terms == held.terms && row.sequence == held.sequence + 1
    ensures row.remaining <= held.remaining && 0.0 <= row.remaining <= row.terms.amount
    ensures held.sequence >= 1 ==> row.previous == Some(held.hash)
  {
  }

  /** An update extends the queue of versions of its own row and touches no other. */
  lemma AmendTracks(t: Tables, s: Statement)
    requires Tracked(t, s.id) && s.Amend? && Exec(t, s).Some? && s.id in t.rows
    ensures Tracked(Exec(t, s).value, s.id)
  {
    hide LogOk, AmendInvalid, RowChecks, Replayed, Continues, Versions, Select, Falls;
    AmendMeans(s.id, t.rows[s.id], s.newId, s.row);
    SelectAppend(t.due, Entry(s.id, s.row), s.id);
    var vs := Select(t.due, s.id);
    if vs == [] {
      ReplayContinues(Log(t, s.id), t.rows[s.id], s.row);
      assert Versions([s.row]) by { SingleVersion(s.row); }
      assert [] + [s.row] == [s.row];
    } else {
      VersionsGrow(vs, s.row);
    }
  }

  lemma SingleVersion(row: Reservation)
    requires 0.0 <= row.remaining <= row.terms.amount
    ensures Versions([row])
  {
  }

  lemma GenesisMeans(row: Reservation)
    requires !GenesisInvalid(row) && RowChecks(row)
    ensures row.sequence == 1 && 0.0 <= row.remaining <= row.terms.amount
  {
    hide IsMultiple;
  }

  lemma FirstContinues(log: seq<Event<Change>>, row: Reservation)
    requires row.sequence == 1
    ensures Continues(log, row)
  {
  }

  lemma ReserveTracks(t: Tables, s: Statement)
    requires Tracked(t, s.id) && s.Reserve? && Exec(t, s).Some?
    ensures Tracked(Exec(t, s).value, s.id)
  {
    hide LogOk, Select, GenesisInvalid, RowChecks, Versions, Continues, Replayed;
    SelectAppend(t.due, Entry(s.id, s.row), s.id);
    GenesisMeans(s.row);
    SingleVersion(s.row);
    FirstContinues(Log(t, s.id), s.row);
    assert [] + [s.row] == [s.row];
  }

  lemma OthersKept(t: Tables, s: Statement, id: ReservationId)
    requires Tracked(t, id) && !s.RecordChange? && Exec(t, s).Some? && id != s.id
    ensures Tracked(Exec(t, s).value, id)
  {
    hide LogOk, AmendInvalid, RowChecks, Replayed, Continues, Versions, Select;
    SelectAppend(t.due, Entry(s.id, s.row), id);
  }

  lemma ExecKeeps(t: Tables, s: Statement)
    requires Working(t) && Exec(t, s).Some?
    ensures Working(Exec(t, s).value)
  {
    hide Tracked, Exec;
    if s.RecordChange? {
      RecordKeeps(t, s);
    } else {
      forall id ensures Tracked(Exec(t, s).value, id) {
        assert Tracked(t, id);
        RowTracks(t, s, id);
      }
    }
  }

  lemma RowTracks(t: Tables, s: Statement, id: ReservationId)
    requires Tracked(t, id) && !s.RecordChange? && Exec(t, s).Some?
    ensures Tracked(Exec(t, s).value, id)
  {
    hide Tracked;
    if id != s.id {
      OthersKept(t, s, id);
    } else if s.Reserve? {
      ReserveTracks(t, s);
    } else if id in t.rows {
      AmendTracks(t, s);
    }
  }

  lemma ExecEvolves(t: Tables, s: Statement)
    requires Exec(t, s).Some?
    ensures Evolves(t, Exec(t, s).value)
  {
    hide RowChecks, Admitted, Latest;
  }

  /** Every queued version has its event in the log. */
  ghost predicate Recorded(log: seq<Event<Change>>, vs: seq<Reservation>) {
    forall k | 0 <= k < |vs| :: 1 <= vs[k].sequence <= |log| && Records(log[vs[k].sequence - 1], vs[k])
  }

  /** Event number `base + k + 1` carries what version `k` of the queue held. */
  lemma QueueRecorded(log: seq<Event<Change>>, vs: seq<Reservation>, k: nat)
    requires Versions(vs) && Recorded(log, vs) && k < |vs|
    ensures var i := vs[0].sequence - 1 + k;
            && 0 <= i < |log| && Records(log[i], vs[k])
            && 0.0 <= log[i].body.remaining <= vs[0].terms.amount
  {
    assert vs[k].sequence == vs[0].sequence + k;
  }

  lemma FallsFurther(log: seq<Event<Change>>, base: nat, n: nat, amount: real)
    requires Falls(log, base, amount) && base < n <= |log|
    requires forall i | base <= i < n :: 0.0 <= log[i].body.remaining <= amount
    requires forall i, j | base <= i < j < n :: log[j].body.remaining <= log[i].body.remaining
    requires forall i | 0 <= i < base :: log[base].body.remaining <= log[i].body.remaining
    ensures Falls(log, n, amount)
  {
    forall i, j | 0 <= i < j < n ensures log[j].body.remaining <= log[i].body.remaining {
      if i < base < j {
        assert log[base].body.remaining <= log[i].body.remaining;
        assert log[j].body.remaining <= log[base].body.remaining;
      }
    }
  }

  lemma QueueFalls(log: seq<Event<Change>>, vs: seq<Reservation>, k: nat, l: nat)
    requires Versions(vs) && Recorded(log, vs) && k < l < |vs| && vs[0].sequence - 1 + l < |log| && vs[0].sequence >= 1
    ensures log[vs[0].sequence - 1 + l].body.remaining <= log[vs[0].sequence - 1 + k].body.remaining
  {
    hide Recorded;
    QueueRecorded(log, vs, k);
    QueueRecorded(log, vs, l);
  }

  /** At commit every queued version is in the log, so the replay reaches the current row. */
  lemma QueueReplays(log: seq<Event<Change>>, vs: seq<Reservation>)
    requires vs != [] && Versions(vs) && Recorded(log, vs) && Continues(log, vs[0])
    ensures Replayed(log, vs[|vs| - 1])
  {
    QueueFollows(log, vs);
    hide Falls, Versions, Recorded;
    var base: nat := vs[0].sequence - 1;
    var n := base + |vs|;
    QueueRecorded(log, vs, |vs| - 1);
    forall i | base <= i < n ensures 0.0 <= log[i].body.remaining <= vs[0].terms.amount {
      QueueRecorded(log, vs, i - base);
    }
    forall i, j | base <= i < j < n ensures log[j].body.remaining <= log[i].body.remaining {
      QueueFalls(log, vs, i - base, j - base);
    }
    FallsFurther(log, base, n, vs[0].terms.amount);
  }

  /** The queue starts right after the replayed events, no higher than any of them, and ends at its last version. */
  lemma QueueFollows(log: seq<Event<Change>>, vs: seq<Reservation>)
    requires vs != [] && Versions(vs) && Recorded(log, vs) && Continues(log, vs[0])
    ensures 1 <= vs[0].sequence <= |log| && vs[|vs| - 1].sequence == vs[0].sequence + |vs| - 1
    ensures vs[|vs| - 1].terms == vs[0].terms
    ensures forall i | 0 <= i < vs[0].sequence - 1 :: log[vs[0].sequence - 1].body.remaining <= log[i].body.remaining
  {
    hide Falls;
  }

  lemma VersionRecorded(t: Tables, id: ReservationId, row: Reservation)
    requires ChainOk(Log(t, id)) && DeferredOk(t) && row in Select(t.due, id)
    ensures 1 <= row.sequence <= |Log(t, id)| && Records(Log(t, id)[row.sequence - 1], row)
  {
    hide Select, ChainOk;
    SelectMembers(t.due, id);
    assert Entry(id, row) in t.due;
    assert HasEvent(t, id, row);
    var e :| e in t.events && e.key == id && Records(e.row, row);
    assert e == Entry(id, e.row);
    SelectMembers(t.events, id);
    FoundAtNumber(Log(t, id), e.row);
  }

  lemma CommitReplays(t: Tables, id: ReservationId)
    requires Tracked(t, id) && DeferredOk(t) && id in t.rows
    ensures Replayed(Log(t, id), t.rows[id])
  {
    hide Select, ChainOk, DeferredOk, Versions, Continues, Replayed;
    var vs := Select(t.due, id);
    if vs != [] {
      forall k | 0 <= k < |vs|
        ensures 1 <= vs[k].sequence <= |Log(t, id)| && Records(Log(t, id)[vs[k].sequence - 1], vs[k])
      {
        VersionRecorded(t, id, vs[k]);
      }
      assert Recorded(Log(t, id), vs);
      QueueReplays(Log(t, id), vs);
    }
  }

  lemma CommitExact(t: Tables)
    requires Working(t) && DeferredOk(t)
    ensures Exact(Settle(t)) && Working(Settle(t)) && Settle(t).due == []
  {
    hide LogOk, DeferredOk, Versions, Continues, Replayed;
    var u := Settle(t);
    forall id
      ensures Tracked(u, id) && LogOk(Log(u, id))
      ensures id in u.rows ==> Replayed(Log(u, id), u.rows[id])
      ensures id !in u.rows ==> Log(u, id) == []
    {
      assert Tracked(t, id) && Log(u, id) == Log(t, id);
      if id in t.rows {
        CommitReplays(t, id);
      }
    }
  }

  lemma EvolvesTransitive(a: Tables, b: Tables, c: Tables)
    requires Evolves(a, b) && Evolves(b, c)
    ensures Evolves(a, c)
  {
  }

  /** An event is admitted exactly as the next link, not earlier, from NULL or from the last state. */
  lemma ChangesExactly(t: Tables, id: ReservationId, e: Event<Change>)
    requires Tracked(t, id)
    ensures var log := Log(t, id);
      Exec(t, RecordChange(id, e)).Some? <==>
        && id in t.rows
        && e.sequence == |log| + 1
        && e.previous == HashBefore(log, |log|)
        && if log == [] then e.body.from.None? && e.body.to == Open
           else
             var last := log[|log| - 1];
             (e.body.from.None? || e.body.from == Some(last.body.to)) && last.at <= e.at
  {
    hide Select, ChainOk, Tracked, Latest, Admitted;
    var log := Log(t, id);
    TrackedChain(t, id);
    LatestNumber(log);
    AdmittedExactly(log, e, GenesisEvent(e), EventStep(Latest(log), e));
  }

  /** The nullable column at work: an event with a NULL `from` is accepted whatever came before. */
  lemma NullFromAccepted(t: Tables, id: ReservationId, to: Stage, hash: Hash)
    requires Tracked(t, id) && id in t.rows && Log(t, id) != []
    ensures var last := Log(t, id)[|Log(t, id)| - 1];
            var e := Event(last.sequence + 1, Some(last.hash), hash, last.at,
                           Change("", None, to, 0.0, last.body.remaining, ""));
            Exec(t, RecordChange(id, e)).Some?
  {
    hide Select, ChainOk, Tracked, InOrder;
    assert ChainOk(Log(t, id)) by { TrackedChain(t, id); }
    LatestNumber(Log(t, id));
  }

  lemma TrackedChain(t: Tables, id: ReservationId)
    requires Tracked(t, id)
    ensures ChainOk(Log(t, id))
  {
    hide Select, ChainOk, InOrder;
  }

  /** A caller who amends a settled reservation and records the matching next event is never refused. */
  lemma AmendCommits(t: Tables, id: ReservationId, row: Reservation, e: Event<Change>)
    requires Tracked(t, id) && t.due == [] && id in t.rows && t.rows[id].sequence == |Log(t, id)|
    requires RowChecks(row) && row.terms == t.rows[id].terms && row.remaining <= t.rows[id].remaining
    requires row.sequence == t.rows[id].sequence + 1 && row.previous == Some(t.rows[id].hash)
    requires Records(e, row) && e.body.from == Some(t.rows[id].stage) && t.rows[id].updatedAt <= e.at
    ensures var u := Exec(t, Amend(id, id, row));
            && u.Some?
            && var w := Exec(u.value, RecordChange(id, e));
               w.Some? && DeferredOk(w.value) && w.value.rows[id] == row
  {
    hide ChainOk, InOrder, StagesLinked, Select, Latest, Admitted, RowChecks, Falls;
    var log := Log(t, id);
    assert Select(t.due, id) == [] by { NothingDue(t, id); }
    LatestNumber(log);
    AdmittedExactly(log, e, GenesisEvent(e), EventStep(Latest(log), e));
    var u := Exec(t, Amend(id, id, row)).value;
    var w := Exec(u, RecordChange(id, e)).value;
    assert Entry(id, e) in w.events;
    assert HasEvent(w, id, row);
  }

  lemma NothingDue(t: Tables, id: ReservationId)
    requires t.due == []
    ensures Select(t.due, id) == []
  {
  }
}

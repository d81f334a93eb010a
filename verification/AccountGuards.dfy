/**
 The paper account row and its event log. The row may run ahead of the log inside a
 transaction; a deferred trigger demands the matching event at commit.
 */
module AccountGuards {
  import opened Wrappers
  import opened Sql
  import opened Chain

  type AccountId = string

  datatype Account = Account(
    baseCurrency: string,
    createdAt: int,
    updatedAt: int,
    aggregate: int,
    portfolio: int,
    ledger: int,
    ledgerHash: Option<Hash>)

  datatype Note = Note(eventType: string, refType: string, refId: string)

  /** `due` holds the row versions whose deferred trigger has not run yet. */
  datatype Tables = Tables(
    accounts: map<AccountId, Account>,
    events: seq<Entry<AccountId, Event<Note>>>,
    due: seq<Entry<AccountId, Account>>)

  const Empty := Tables(map[], [], [])

  datatype Statement =
    | OpenAccount(id: AccountId, row: Account, now: int)
    | AdvanceAccount(id: AccountId, newId: AccountId, row: Account, now: int)
    | RecordEvent(id: AccountId, event: Event<Note>)

  function Log(t: Tables, id: AccountId): seq<Event<Note>> {
    Select(t.events, id)
  }

  predicate RowChecks(row: Account) {
    && 0 <= row.aggregate && 0 <= row.portfolio && 0 <= row.ledger
    && ((row.ledger == 0 && row.ledgerHash.None?) || (row.ledger > 0 && row.ledgerHash.Some?))
  }

  predicate GenesisInvalid(row: Account) {
    row.aggregate != 0 || row.portfolio != 0 || row.ledger != 0 || row.ledgerHash.Some?
  }

  predicate AdvanceInvalid(id: AccountId, held: Account, newId: AccountId, row: Account) {
    || newId != id || row.baseCurrency != held.baseCurrency || row.createdAt != held.createdAt
    || row.aggregate != held.aggregate + 1
    || (row.portfolio != held.portfolio && row.portfolio != held.portfolio + 1)
    || (row.ledger != held.ledger && row.ledger != held.ledger + 1)
    || (row.ledger == held.ledger && row.ledgerHash != held.ledgerHash)
    || (row.ledger == held.ledger + 1 && row.ledgerHash.None?)
  }

  /** One statement with its triggers and CHECKs; `None` is a raised exception. */
  function Exec(t: Tables, s: Statement): Option<Tables> {
    match s
    case OpenAccount(id, row, now) =>
      if GenesisInvalid(row) || !RowChecks(row) || id in t.accounts then None
      else Some(t.(accounts := t.accounts[id := row.(createdAt := now, updatedAt := now)]))
    case AdvanceAccount(id, newId, row, now) =>
      if id !in t.accounts then Some(t)
      else if AdvanceInvalid(id, t.accounts[id], newId, row) || !RowChecks(row) then None
      else
        var stored := row.(updatedAt := now);
        Some(t.(accounts := t.accounts[id := stored], due := t.due + [Entry(id, stored)]))
    case RecordEvent(id, e) =>
      var prior := Latest(Log(t, id));
      if id !in t.accounts || e.sequence != t.accounts[id].aggregate then None
      else if !Admitted(Log(t, id), e, False, Less(Some(e.at), TimeOf(prior))) then None
      else Some(t.(events := t.events + [Entry(id, e)]))
  }

  predicate HasEvent(t: Tables, id: AccountId, row: Account) {
    exists e | e in t.events :: e.key == id && e.row.sequence == row.aggregate && e.row.at == row.updatedAt
  }

  /** The deferred triggers, run at commit over the queued row versions. */
  predicate DeferredOk(t: Tables) {
    forall d | d in t.due :: HasEvent(t, d.key, d.row)
  }

  function Settle(t: Tables): Tables {
    t.(due := [])
  }

  /** Events 1 .. aggregate_sequence, the last one stamped with the row's update time. */
  ghost predicate Caught(log: seq<Event<Note>>, row: Account) {
    && |log| == row.aggregate
    && (log != [] ==> log[|log| - 1].at == row.updatedAt)
  }

  ghost predicate CountersOk(row: Account) {
    && RowChecks(row)
    && row.portfolio <= row.aggregate && row.ledger <= row.aggregate
  }

  ghost predicate Tracked(t: Tables, id: AccountId) {
    var log := Log(t, id);
    && ChainOk(log) && InOrder(log)
    && if id !in t.accounts then log == []
       else
         && CountersOk(t.accounts[id])
         && |log| <= t.accounts[id].aggregate
         && (Caught(log, t.accounts[id]) || Entry(id, t.accounts[id]) in t.due)
  }

  /** Holds after every statement of every transaction. */
  ghost predicate Working(t: Tables) {
    forall id :: Tracked(t, id)
  }

  /** Holds of every committed state: the log is exact. */
  ghost predicate Exact(t: Tables) {
    forall id ::
      && ChainOk(Log(t, id)) && InOrder(Log(t, id))
      && (id !in t.accounts ==> Log(t, id) == [])
      && (id in t.accounts ==> CountersOk(t.accounts[id]) && Caught(Log(t, id), t.accounts[id]))
  }

  /** What no later statement can undo. */
  ghost predicate Evolves(before: Tables, after: Tables) {
    && before.events <= after.events
    && forall id | id in before.accounts ::
         && id in after.accounts
         && before.accounts[id].baseCurrency == after.accounts[id].baseCurrency
         && before.accounts[id].createdAt == after.accounts[id].createdAt
         && before.accounts[id].aggregate <= after.accounts[id].aggregate
         && before.accounts[id].ledger <= after.accounts[id].ledger
  }

  lemma OpenKeeps(t: Tables, s: Statement)
    requires Working(t) && s.OpenAccount? && Exec(t, s).Some?
    ensures Working(Exec(t, s).value)
  {
    var u := Exec(t, s).value;
    forall id ensures Tracked(u, id) {
      assert Tracked(t, id);
      assert Log(u, id) == Log(t, id);
    }
  }

  lemma AdvanceKeeps(t: Tables, s: Statement)
    requires Working(t) && s.AdvanceAccount? && Exec(t, s).Some?
    ensures Working(Exec(t, s).value)
  {
    hide ChainOk, InOrder;
    var u := Exec(t, s).value;
    forall id ensures Tracked(u, id) {
      assert Tracked(t, id);
      assert Log(u, id) == Log(t, id);
      if id == s.id && id in t.accounts {
        assert u.due[|t.due|] == Entry(id, u.accounts[id]);
      } else if id in t.accounts && !Caught(Log(t, id), t.accounts[id]) {
        var k :| 0 <= k < |t.due| && t.due[k] == Entry(id, t.accounts[id]);
        assert u.accounts[id] == t.accounts[id];
        assert |u.due| >= |t.due| && u.due[k] == t.due[k];
      }
    }
  }

  /** An accepted event meets the row it belongs to. */
  lemma RecordKeeps(t: Tables, s: Statement)
    requires Working(t) && s.RecordEvent? && Exec(t, s).Some?
    ensures Working(Exec(t, s).value)
  {
    hide Latest, ChainOk, InOrder, Admitted, CountersOk, Select;
    var u := Exec(t, s).value;
    var prior := Latest(Log(t, s.id));
    assert Tracked(t, s.id);
    AdmittedExtends(Log(t, s.id), s.event, False, Less(Some(s.event.at), TimeOf(prior)));
    TimeExtends(Log(t, s.id), s.event);
    forall id ensures Tracked(u, id) {
      assert Tracked(t, id);
      SelectAppend(t.events, Entry(s.id, s.event), id);
    }
  }

  lemma ExecKeeps(t: Tables, s: Statement)
    requires Working(t) && Exec(t, s).Some?
    ensures Working(Exec(t, s).value) && Evolves(t, Exec(t, s).value)
  {
    hide Working;
    match s
    case OpenAccount(_, _, _) => OpenKeeps(t, s);
    case AdvanceAccount(_, _, _, _) => AdvanceKeeps(t, s);
    case RecordEvent(_, _) => RecordKeeps(t, s);
  }

  lemma EventCatches(t: Tables, id: AccountId)
    requires Tracked(t, id) && id in t.accounts && HasEvent(t, id, t.accounts[id])
    ensures Caught(Log(t, id), t.accounts[id])
  {
    hide ChainOk, InOrder, CountersOk, Select;
    var row := t.accounts[id];
    var e :| e in t.events && e.key == id && e.row.sequence == row.aggregate && e.row.at == row.updatedAt;
    assert e == Entry(id, e.row);
    SelectMembers(t.events, id);
    FoundAtNumber(Log(t, id), e.row);
  }

  /** A passed deferred check closes the gap, however often the account was advanced. */
  lemma DueCaught(t: Tables, id: AccountId)
    requires Tracked(t, id) && id in t.accounts && DeferredOk(t)
    ensures Caught(Log(t, id), t.accounts[id])
  {
    hide ChainOk, InOrder, CountersOk, Select, HasEvent, Caught;
    if Entry(id, t.accounts[id]) in t.due {
      EventCatches(t, id);
    }
  }

  lemma CommitExact(t: Tables)
    requires Working(t) && DeferredOk(t)
    ensures Exact(Settle(t)) && Working(Settle(t)) && Settle(t).due == []
  {
    hide ChainOk, InOrder, CountersOk, Caught, DeferredOk, Select;
    var u := Settle(t);
    forall id
      ensures Tracked(u, id)
      ensures id in t.accounts ==> Caught(Log(u, id), u.accounts[id])
      ensures Log(u, id) == Log(t, id)
    {
      assert Tracked(t, id);
      if id in t.accounts {
        DueCaught(t, id);
      }
    }
    forall id
      ensures ChainOk(Log(u, id)) && InOrder(Log(u, id))
      ensures id !in u.accounts ==> Log(u, id) == []
      ensures id in u.accounts ==> CountersOk(u.accounts[id])
    {
      assert Tracked(u, id);
    }
  }

  lemma EvolvesTransitive(a: Tables, b: Tables, c: Tables)
    requires Evolves(a, b) && Evolves(b, c)
    ensures Evolves(a, c)
  {
  }

  /** The event trigger, its sequence check and the CHECKs admit exactly the account's next event. */
  lemma RecordsExactly(t: Tables, id: AccountId, e: Event<Note>)
    requires Tracked(t, id)
    ensures var log := Log(t, id);
      Exec(t, RecordEvent(id, e)).Some? <==>
        && id in t.accounts
        && e.sequence == t.accounts[id].aggregate == |log| + 1
        && e.previous == HashBefore(log, |log|)
        && (log != [] ==> log[|log| - 1].at <= e.at)
  {
    hide ChainOk, InOrder, Select, Latest, Admitted, CountersOk;
    var log := Log(t, id);
    LatestNumber(log);
    AdmittedExactly(log, e, False, Less(Some(e.at), TimeOf(Latest(log))));
  }

  /** A caller who advances the account and records the matching event is never refused. */
  lemma AdvanceCommits(t: Tables, id: AccountId, row: Account, now: int, e: Event<Note>)
    requires Tracked(t, id) && t.due == [] && id in t.accounts
    requires !AdvanceInvalid(id, t.accounts[id], id, row) && RowChecks(row)
    requires var log := Log(t, id);
      && e.sequence == |log| + 1 && e.previous == HashBefore(log, |log|) && e.at == now
      && (log != [] ==> log[|log| - 1].at <= now)
    ensures var u := Exec(t, AdvanceAccount(id, id, row, now));
            && u.Some?
            && var w := Exec(u.value, RecordEvent(id, e));
               w.Some? && DeferredOk(w.value) && w.value.accounts[id].aggregate == t.accounts[id].aggregate + 1
  {
    hide ChainOk, InOrder, Select, Latest, Admitted, HashBefore;
    var log := Log(t, id);
    LatestNumber(log);
    AdmittedExactly(log, e, False, Less(Some(e.at), TimeOf(Latest(log))));
    var u := Exec(t, AdvanceAccount(id, id, row, now)).value;
    var w := Exec(u, RecordEvent(id, e)).value;
    assert Entry(id, e) in w.events;
    assert HasEvent(w, id, row.(updatedAt := now));
  }
}

/** The account guards accept exactly these statements and do exactly this with them, column by column. */
module AccountAdmits {
  import opened Wrappers
  import opened Sql
  import opened Chain
  import opened AccountGuards

  /**
   The next version of an account: same currency and creation time, the aggregate one higher, portfolio and ledger
   each as they were or one higher, and a new ledger hash exactly with a new ledger entry.
   */
  ghost predicate NextVersion(held: Account, row: Account) {
    && row.baseCurrency == held.baseCurrency && row.createdAt == held.createdAt
    && row.aggregate == held.aggregate + 1
    && held.portfolio <= row.portfolio <= held.portfolio + 1
    && ((row.ledger == held.ledger && row.ledgerHash == held.ledgerHash)
        || (row.ledger == held.ledger + 1 && row.ledgerHash.Some?))
  }

  lemma NextVersionIs(id: AccountId, held: Account, newId: AccountId, row: Account)
    requires CountersOk(held)
    ensures newId == id && NextVersion(held, row) <==> !AdvanceInvalid(id, held, newId, row) && RowChecks(row)
  {
  }

  /** An account opens at zero under a new id, stamped with the time of the insert. */
  lemma OpensExactly(t: Tables, id: AccountId, row: Account, now: int)
    ensures Exec(t, OpenAccount(id, row, now)) ==
      if id !in t.accounts && row.aggregate == 0 && row.portfolio == 0 && row.ledger == 0 && row.ledgerHash == None
      then Some(Tables(t.accounts[id := Account(row.baseCurrency, now, now, 0, 0, 0, None)], t.events, t.due))
      else None
  {
  }

  /** An account moves to a next version and to nothing else; the CHECKs never refuse one. No account, no change. */
  lemma AdvancesExactly(t: Tables, id: AccountId, newId: AccountId, row: Account, now: int)
    requires Tracked(t, id)
    ensures var stored := row.(updatedAt := now);
            Exec(t, AdvanceAccount(id, newId, row, now)) ==
              if id !in t.accounts then Some(t)
              else if newId == id && NextVersion(t.accounts[id], row)
              then Some(Tables(t.accounts[id := stored], t.events, t.due + [Entry(id, stored)]))
              else None
  {
    hide ChainOk, InOrder, Select, NextVersion, RowChecks, AdvanceInvalid;
    if id in t.accounts {
      NextVersionIs(id, t.accounts[id], newId, row);
    }
  }

  /** An event that is accepted is appended, and nothing else changes. */
  lemma RecordsEffect(t: Tables, id: AccountId, e: Event<Note>)
    requires Exec(t, RecordEvent(id, e)).Some?
    ensures Exec(t, RecordEvent(id, e)).value == Tables(t.accounts, t.events + [Entry(id, e)], t.due)
  {
    hide Admitted, Select, Latest;
  }

  /** The event an advance of an exact account needs. */
  ghost predicate MatchingEvent(t: Tables, id: AccountId, now: int, e: Event<Note>)
    requires id in t.accounts
  {
    var log := Log(t, id);
    && e.sequence == t.accounts[id].aggregate + 1 && e.at == now
    && (if log == [] then e.previous == None else e.previous == Some(log[|log| - 1].hash) && log[|log| - 1].at <= now)
  }

  /** The settled tables after an advance and its event. */
  function Advanced(t: Tables, id: AccountId, row: Account, now: int, e: Event<Note>): Tables {
    Tables(t.accounts[id := row.(updatedAt := now)], t.events + [Entry(id, e)], [])
  }

  /** Advancing an exact account and recording the matching event goes through, and does just that. */
  lemma AdvanceGoesThrough(t: Tables, id: AccountId, row: Account, now: int, e: Event<Note>)
    requires Exact(t) && Working(t) && t.due == [] && id in t.accounts
    requires NextVersion(t.accounts[id], row) && MatchingEvent(t, id, now, e)
    ensures var u := Exec(t, AdvanceAccount(id, id, row, now));
            && u.Some?
            && var w := Exec(u.value, RecordEvent(id, e));
               w.Some? && DeferredOk(w.value) && Settle(w.value) == Advanced(t, id, row, now, e)
  {
    hide ChainOk, InOrder, Select, NextVersion, RowChecks, AdvanceInvalid, DeferredOk, Exec;
    assert Tracked(t, id) && Caught(Log(t, id), t.accounts[id]);
    NextVersionIs(id, t.accounts[id], id, row);
    AdvanceCommits(t, id, row, now, e);
    AdvancesExactly(t, id, id, row, now);
    RecordsEffect(Exec(t, AdvanceAccount(id, id, row, now)).value, id, e);
  }

  /** An advance with any other event, or to anything but a next version, raises or fails its deferred check. */
  lemma AdvanceNeeds(t: Tables, id: AccountId, newId: AccountId, row: Account, now: int, e: Event<Note>)
    requires Exact(t) && Working(t) && t.due == []
    requires var u := Exec(t, AdvanceAccount(id, newId, row, now));
      && u.Some?
      && var w := Exec(u.value, RecordEvent(id, e));
         w.Some? && DeferredOk(w.value)
    ensures id in t.accounts && newId == id && NextVersion(t.accounts[id], row) && MatchingEvent(t, id, now, e)
  {
    hide ChainOk, InOrder, Select, NextVersion, RowChecks, AdvanceInvalid, Admitted, Latest, CountersOk;
    assert Tracked(t, id);
    var u := Exec(t, AdvanceAccount(id, newId, row, now)).value;
    var w := Exec(u, RecordEvent(id, e)).value;
    assert id in t.accounts;
    NextVersionRises(id, newId, row, t.accounts[id]);
    AdvancesExactly(t, id, newId, row, now);
    ExecKeeps(t, AdvanceAccount(id, newId, row, now));
    assert Tracked(u, id) && Log(u, id) == Log(t, id);
    RecordsExactly(u, id, e);
    assert Entry(id, u.accounts[id]) in w.due;
    EventIsLast(u, id, e);
  }

  lemma NextVersionRises(id: AccountId, newId: AccountId, row: Account, held: Account)
    requires !AdvanceInvalid(id, held, newId, row)
    ensures row.aggregate == held.aggregate + 1
  {
  }

  /** The one event that carries the number of the row is the last. */
  lemma EventIsLast(u: Tables, id: AccountId, e: Event<Note>)
    requires id in u.accounts && ChainOk(Log(u, id)) && e.sequence == u.accounts[id].aggregate == |Log(u, id)| + 1
    requires var w := u.(events := u.events + [Entry(id, e)]);
      HasEvent(w, id, u.accounts[id])
    ensures e.at == u.accounts[id].updatedAt
  {
    hide ChainOk, Select;
    var w := u.(events := u.events + [Entry(id, e)]);
    var row := u.accounts[id];
    var f :| f in w.events && f.key == id && f.row.sequence == row.aggregate && f.row.at == row.updatedAt;
    if f in u.events {
      assert f == Entry(id, f.row);
      SelectMembers(u.events, id);
      FoundAtNumber(Log(u, id), f.row);
    }
  }

  /** Advancing an account together with an event commits exactly for a next version and its matching event. */
  lemma AdvanceExactly(t: Tables, id: AccountId, newId: AccountId, row: Account, now: int, e: Event<Note>)
    requires Exact(t) && Working(t) && t.due == []
    ensures var u := Exec(t, AdvanceAccount(id, newId, row, now));
            var w := if u.None? then None else Exec(u.value, RecordEvent(id, e));
            && (w.Some? && DeferredOk(w.value) <==>
                  id in t.accounts && newId == id && NextVersion(t.accounts[id], row) && MatchingEvent(t, id, now, e))
            && (w.Some? && DeferredOk(w.value) ==> Settle(w.value) == Advanced(t, id, row, now, e))
  {
    hide *;
    var u := Exec(t, AdvanceAccount(id, newId, row, now));
    var w := if u.None? then None else Exec(u.value, RecordEvent(id, e));
    if w.Some? && DeferredOk(w.value) {
      AdvanceNeeds(t, id, newId, row, now, e);
    }
    if id in t.accounts && newId == id && NextVersion(t.accounts[id], row) && MatchingEvent(t, id, now, e) {
      AdvanceGoesThrough(t, id, row, now, e);
    }
  }
}

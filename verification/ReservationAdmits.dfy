/** The reservation guards accept exactly these statements and do exactly this with them, column by column. */
module ReservationAdmits {
  import opened Wrappers
  import opened Sql
  import opened Chain
  import opened ReservationGuards

  /** A reservation opens with its whole positive amount remaining, as number one with no predecessor. */
  ghost predicate Opening(row: Reservation) {
    && row.stage == Open && row.sequence == 1 && row.previous == None
    && row.remaining == row.terms.amount && row.terms.amount > 0.0 && row.terms.quantum > 0.0
    && Whole(row.terms.amount, row.terms.quantum)
    && row.terms.accountAggregate == row.terms.riskAccountAggregate + 1
  }

  /** The next version: same terms, one number higher, naming the hash before it, with no more remaining. */
  ghost predicate NextVersion(held: Reservation, row: Reservation) {
    && row.terms == held.terms && row.sequence == held.sequence + 1 && row.previous == Some(held.hash)
    && 0.0 <= row.remaining <= held.remaining && Whole(row.remaining, held.terms.quantum)
  }

  lemma ReservesExactly(t: Tables, id: ReservationId, row: Reservation)
    ensures Exec(t, Reserve(id, row)) ==
      if id !in t.rows && Opening(row) then Some(Tables(t.rows[id := row], t.events, t.due + [Entry(id, row)])) else None
  {
    hide IsMultiple, Whole;
    if row.terms.quantum > 0.0 {
      WholeIs(row.terms.amount, row.terms.quantum);
    }
  }

  lemma AmendsExactly(t: Tables, id: ReservationId, newId: ReservationId, row: Reservation)
    requires Tracked(t, id)
    ensures Exec(t, Amend(id, newId, row)) ==
      if id !in t.rows then Some(t)
      else if newId == id && NextVersion(t.rows[id], row)
      then Some(Tables(t.rows[id := row], t.events, t.due + [Entry(id, row)])) else None
  {
    hide IsMultiple, Whole;
    if id in t.rows {
      WholeIs(row.remaining, t.rows[id].terms.quantum);
    }
  }

  lemma ChangesEffect(t: Tables, id: ReservationId, e: Event<Change>)
    requires Exec(t, RecordChange(id, e)).Some?
    ensures Exec(t, RecordChange(id, e)).value == Tables(t.rows, t.events + [Entry(id, e)], t.due)
  {
    hide Admitted, Select, Latest;
  }

  /** The event that says what a row version says. */
  ghost predicate Tells(e: Event<Change>, row: Reservation) {
    && e.sequence == row.sequence && e.hash == row.hash && e.previous == row.previous
    && e.body.to == row.stage && e.body.remaining == row.remaining && e.at == row.updatedAt
  }

  lemma HasEventIs(t: Tables, id: ReservationId, row: Reservation)
    requires ChainOk(Log(t, id))
    ensures var log := Log(t, id);
            HasEvent(t, id, row) <==> 1 <= row.sequence <= |log| && Tells(log[row.sequence - 1], row)
  {
    hide ChainOk, Select;
    var log := Log(t, id);
    SelectMembers(t.events, id);
    if HasEvent(t, id, row) {
      var e :| e in t.events && e.key == id && Records(e.row, row);
      assert e == Entry(id, e.row);
      FoundAtNumber(log, e.row);
    }
    if 1 <= row.sequence <= |log| && Tells(log[row.sequence - 1], row) {
      assert Entry(id, log[row.sequence - 1]) in t.events;
    }
  }

  /** The next event of a log: numbered and hash-linked, not earlier, from NULL or from the last state. */
  ghost predicate NextChange(log: seq<Event<Change>>, e: Event<Change>) {
    && e.sequence == |log| + 1
    && if log == [] then e.previous == None && e.body.from == None && e.body.to == Open
       else
         var last := log[|log| - 1];
         e.previous == Some(last.hash) && last.at <= e.at && (e.body.from == None || e.body.from == Some(last.body.to))
  }

  /** What a row and an event statement leave behind together. */
  function Changed(t: Tables, id: ReservationId, row: Reservation, e: Event<Change>): Tables {
    Tables(t.rows[id := row], t.events + [Entry(id, e)], [])
  }

  /** From a settled row, a version and an event pass exactly when the log tells the version. */
  lemma RecordedWithRow(t: Tables, u: Tables, id: ReservationId, row: Reservation, e: Event<Change>)
    requires u == Tables(t.rows[id := row], t.events, [Entry(id, row)]) && Tracked(u, id)
    ensures var w := Exec(u, RecordChange(id, e));
            && (w.Some? <==> NextChange(Log(t, id), e))
            && (w.Some? ==> Settle(w.value) == Changed(t, id, row, e))
            && (w.Some? ==> (DeferredOk(w.value) <==>
                 1 <= row.sequence <= |Log(t, id)| + 1 && Tells((Log(t, id) + [e])[row.sequence - 1], row)))
  {
    hide ChainOk, InOrder, StagesLinked, Select, Exec, HasEvent, Tells, Falls, Versions, Continues, RowChecks;
    assert Log(u, id) == Log(t, id);
    ChangesExactly(u, id, e);
    var w := Exec(u, RecordChange(id, e));
    if w.Some? {
      ChangesEffect(u, id, e);
      SelectAppend(u.events, Entry(id, e), id);
      ChainGrows(Log(u, id), e);
      HasEventIs(w.value, id, row);
      assert w.value.due == [Entry(id, row)];
    }
  }

  /** Opening a reservation with an event commits exactly for an opening row and the event that tells it. */
  lemma ReserveExactly(t: Tables, id: ReservationId, row: Reservation, e: Event<Change>)
    requires Exact(t) && Working(t) && t.due == []
    ensures var u := Exec(t, Reserve(id, row));
            var w := if u.None? then None else Exec(u.value, RecordChange(id, e));
            && (w.Some? && DeferredOk(w.value) <==>
                  id !in t.rows && Opening(row) && Tells(e, row) && e.body.from == None)
            && (w.Some? ==> Settle(w.value) == Changed(t, id, row, e))
  {
    hide LogOk, Select, Whole, RowChecks, GenesisInvalid, Exec, DeferredOk;
    assert Tracked(t, id);
    ReservesExactly(t, id, row);
    var u := Exec(t, Reserve(id, row));
    if u.Some? {
      ExecKeeps(t, Reserve(id, row));
      assert Tracked(u.value, id) && Log(t, id) == [];
      RecordedWithRow(t, u.value, id, row, e);
    }
  }

  /**
   Amending a reservation together with an event commits exactly for a next version whose number the log, with the
   event, tells. Events may run ahead of the row, so that need not be this event.
   */
  lemma AmendExactly(t: Tables, id: ReservationId, newId: ReservationId, row: Reservation, e: Event<Change>)
    requires Exact(t) && Working(t) && t.due == []
    ensures var u := Exec(t, Amend(id, newId, row));
            var w := if u.None? then None else Exec(u.value, RecordChange(id, e));
            var log := Log(t, id);
            && (w.Some? && DeferredOk(w.value) <==>
                  && id in t.rows && newId == id && NextVersion(t.rows[id], row) && NextChange(log, e)
                  && 1 <= row.sequence <= |log| + 1 && Tells((log + [e])[row.sequence - 1], row))
            && (w.Some? ==> Settle(w.value) == Changed(t, id, row, e))
  {
    hide LogOk, Select, Whole, RowChecks, NextVersion, DeferredOk, AmendInvalid;
    assert Tracked(t, id);
    if id in t.rows {
      hide Exec;
      AmendsExactly(t, id, newId, row);
      var u := Exec(t, Amend(id, newId, row));
      if u.Some? {
        VersionRises(t, id, row);
        ExecKeeps(t, Amend(id, newId, row));
        assert Tracked(u.value, id);
        RecordedWithRow(t, u.value, id, row, e);
      }
    }
  }

  lemma VersionRises(t: Tables, id: ReservationId, row: Reservation)
    requires Exact(t) && id in t.rows && NextVersion(t.rows[id], row)
    ensures row.sequence >= 2
  {
    hide LogOk, Select, Whole, RowChecks;
  }

  /** The row and its event may be written in either order: neither guard looks at what the other statement writes. */
  lemma EitherOrder(t: Tables, id: ReservationId, newId: ReservationId, row: Reservation, e: Event<Change>)
    ensures var u, v := Exec(t, Amend(id, newId, row)), Exec(t, RecordChange(id, e));
      (if v.None? then None else Exec(v.value, Amend(id, newId, row)))
      == if u.None? then None else Exec(u.value, RecordChange(id, e))
  {
    hide RowChecks, AmendInvalid, Admitted, Select, Latest;
    var u, v := Exec(t, Amend(id, newId, row)), Exec(t, RecordChange(id, e));
    if u.Some? {
      assert Log(u.value, id) == Log(t, id);
    }
  }
}

/** The account log stays exact over every interleaving, with or without the unique key. */
module AccountRaceLaws {
  import AccountAdmits
  import opened Wrappers
  import opened Sql
  import opened Chain
  import opened AccountGuards
  import opened AccountRaces

  /** A transaction that has not locked the row has written nothing and cannot get an event past the chain. */
  ghost predicate Bystander(s: State, t: Transaction) {
    && t.row.None? && t.events == [] && t.due == []
    && !t.at.PriorRead?
    && (t.at.SequenceRead? ==> s.row.Some? && t.at.event.sequence <= |s.log|)
  }

  /** The holder's own view: its row may be ahead of the log, and then the row is queued for the check. */
  ghost predicate Holder(s: State, t: Transaction) {
    var log := LogOf(s, t);
    && t.row.Some? && ChainOk(log) && InOrder(log) && CountersOk(t.row.value)
    && |log| <= t.row.value.aggregate
    && (Caught(log, t.row.value) || t.row.value in t.due)
    && match t.at
       case Writing => true
       case SequenceRead(e) => e.sequence == t.row.value.aggregate
       case PriorRead(e) => e.sequence == t.row.value.aggregate && Continues(log, e)
       case Checked => Caught(log, t.row.value)
  }

  ghost predicate TxOk(s: State, t: Transaction) {
    if t.holds then Holder(s, t) else Bystander(s, t)
  }

  ghost predicate Inv(s: State) {
    && LogExact(s.row, s.log)
    && (forall x | x in s.active :: TxOk(s, s.active[x]))
    && (forall x, y | x in s.active && y in s.active && x != y :: !(s.active[x].holds && s.active[y].holds))
  }

  lemma PutKeeps(s: State, x: Id, t: Transaction)
    requires Inv(s) && TxOk(s, t)
    requires t.holds ==> forall y | y in s.active && y != x :: !s.active[y].holds
    ensures Inv(Put(s, x, t))
  {
    hide LogExact, ChainOk, InOrder, CountersOk, Caught, Continues;
    var u := Put(s, x, t);
    forall y | y in u.active ensures TxOk(u, u.active[y]) {
      assert y != x ==> TxOk(s, s.active[y]);
    }
  }

  lemma AbortKeeps(s: State, x: Id)
    requires Inv(s)
    ensures Inv(Abort(s, x))
  {
    hide LogExact, ChainOk, InOrder, CountersOk, Caught, Continues;
    var u := Abort(s, x);
    forall y | y in u.active ensures TxOk(u, u.active[y]) {
      assert TxOk(s, s.active[y]);
    }
  }

  lemma BeginKeeps(s: State, x: Id)
    requires Inv(s) && x !in s.active
    ensures Inv(Put(s, x, Fresh))
  {
    hide LogExact, Holder;
    PutKeeps(s, x, Fresh);
  }

  /** Whoever holds no lock sees the committed row and log. */
  lemma BystanderSees(s: State, t: Transaction)
    requires Inv(s) && TxOk(s, t) && !t.holds
    ensures RowOf(s, t) == s.row && LogOf(s, t) == s.log && LogExact(s.row, s.log) && t.due == []
  {
    hide LogExact;
    assert s.log + [] == s.log;
  }

  lemma OpenKeeps(s: State, x: Id, row: Account, now: int)
    requires Inv(s) && x in s.active && s.active[x].at.Writing? && !HeldByOther(s, x)
    requires RowOf(s, s.active[x]).None? && !GenesisInvalid(row) && RowChecks(row)
    ensures Inv(Put(s, x, s.active[x].(row := Some(row.(createdAt := now, updatedAt := now)), holds := true)))
  {
    hide ChainOk, InOrder;
    var t := s.active[x];
    assert TxOk(s, t);
    BystanderSees(s, t);
    PutKeeps(s, x, t.(row := Some(row.(createdAt := now, updatedAt := now)), holds := true));
  }

  lemma AdvanceKeeps(s: State, x: Id, renamed: bool, row: Account, now: int)
    requires Inv(s) && x in s.active && s.active[x].at.Writing? && AdvanceStep(s, x, renamed, row, now).Some?
    ensures Inv(AdvanceStep(s, x, renamed, row, now).value)
  {
    hide ChainOk, InOrder;
    var t, u := s.active[x], AdvanceStep(s, x, renamed, row, now).value;
    assert TxOk(s, t);
    AbortKeeps(s, x);
    if u != s && u != Abort(s, x) {
      if !t.holds {
        BystanderSees(s, t);
      }
      assert u.active[x].due[|t.due|] == u.active[x].row.value;
      PutKeeps(s, x, u.active[x]);
    }
  }

  lemma BeginEventKeeps(s: State, x: Id, e: Event<Note>)
    requires Inv(s) && x in s.active && s.active[x].at.Writing?
    requires RowOf(s, s.active[x]).Some? && e.sequence == RowOf(s, s.active[x]).value.aggregate
    ensures Inv(Put(s, x, s.active[x].(at := SequenceRead(e))))
  {
    hide ChainOk, InOrder, CountersOk, Continues;
    var t := s.active[x];
    assert TxOk(s, t);
    if !t.holds {
      BystanderSees(s, t);
    }
    PutKeeps(s, x, t.(at := SequenceRead(e)));
  }

  /** An event numbered within the log cannot continue it. */
  lemma OldNumberRefused(log: seq<Event<Note>>, e: Event<Note>)
    requires ChainOk(log) && e.sequence <= |log|
    ensures !Continues(log, e)
  {
    hide ChainOk, Latest, Admitted;
    AdmittedExactly(log, e, False, Less(Some(e.at), TimeOf(Latest(log))));
  }

  lemma ReadPriorKeeps(s: State, x: Id)
    requires Inv(s) && x in s.active && s.active[x].at.SequenceRead?
    requires Continues(LogOf(s, s.active[x]), s.active[x].at.event)
    ensures Inv(Put(s, x, s.active[x].(at := PriorRead(s.active[x].at.event))))
  {
    hide ChainOk, InOrder, CountersOk, Continues, Caught;
    var t := s.active[x];
    assert TxOk(s, t);
    if !t.holds {
      BystanderSees(s, t);
      OldNumberRefused(s.log, t.at.event);
    }
    PutKeeps(s, x, t.(at := PriorRead(t.at.event)));
  }

  lemma EventExtends(log: seq<Event<Note>>, e: Event<Note>)
    requires ChainOk(log) && InOrder(log) && Continues(log, e)
    ensures ChainOk(log + [e]) && InOrder(log + [e]) && e.sequence == |log| + 1
  {
    hide ChainOk, InOrder, Latest, Admitted;
    AdmittedExtends(log, e, False, Less(Some(e.at), TimeOf(Latest(log))));
    TimeExtends(log, e);
  }

  lemma InsertKeeps(s: State, x: Id)
    requires Inv(s) && x in s.active && s.active[x].at.PriorRead?
    ensures Inv(Put(s, x, s.active[x].(events := s.active[x].events + [s.active[x].at.event], at := Writing)))
  {
    hide LogExact, ChainOk, InOrder, CountersOk, Continues;
    var t := s.active[x];
    assert TxOk(s, t);
    var e := t.at.event;
    EventExtends(LogOf(s, t), e);
    assert s.log + (t.events + [e]) == LogOf(s, t) + [e];
    PutKeeps(s, x, t.(events := t.events + [e], at := Writing));
  }

  /** The queued check closes the gap between row and log. */
  lemma CheckCatches(log: seq<Event<Note>>, row: Account)
    requires ChainOk(log) && |log| <= row.aggregate && Matched(log, row)
    ensures Caught(log, row)
  {
    hide ChainOk;
    var e :| e in log && e.sequence == row.aggregate && e.at == row.updatedAt;
    FoundAtNumber(log, e);
  }

  lemma CheckKeeps(s: State, x: Id)
    requires Inv(s) && x in s.active && s.active[x].at.Writing?
    requires forall row | row in s.active[x].due :: Matched(LogOf(s, s.active[x]), row)
    ensures Inv(Put(s, x, s.active[x].(at := Checked)))
  {
    hide LogExact, ChainOk, InOrder, CountersOk, Continues, Caught, Matched;
    var t := s.active[x];
    assert TxOk(s, t);
    if t.holds && t.row.value in t.due {
      CheckCatches(LogOf(s, t), t.row.value);
    }
    PutKeeps(s, x, t.(at := Checked));
  }

  lemma CommitKeeps(s: State, x: Id)
    requires Inv(s) && x in s.active && s.active[x].at.Checked?
    ensures Inv(State(RowOf(s, s.active[x]), LogOf(s, s.active[x]), s.active - {x}))
  {
    hide ChainOk, InOrder, CountersOk, Caught, Continues;
    var t := s.active[x];
    var u := State(RowOf(s, t), LogOf(s, t), s.active - {x});
    assert TxOk(s, t);
    if !t.holds {
      BystanderSees(s, t);
    }
    forall y | y in u.active ensures TxOk(u, u.active[y]) {
      assert TxOk(s, s.active[y]);
    }
  }

  lemma NextKeeps(unique: bool, s: State, step: Step)
    requires Inv(s) && Next(unique, s, step).Some?
    ensures Inv(Next(unique, s, step).value)
  {
    hide Inv, Continues, Matched, GenesisInvalid, RowChecks, AdvanceStep, HeldByOther;
    var x := step.tx;
    if step.action.Begin? {
      BeginKeeps(s, x);
      return;
    }
    AbortKeeps(s, x);
    if Next(unique, s, step).value != Abort(s, x) {
      match step.action
      case Open(row, now) => OpenKeeps(s, x, row, now);
      case Advance(renamed, row, now) => AdvanceKeeps(s, x, renamed, row, now);
      case BeginEvent(e) => BeginEventKeeps(s, x, e);
      case ReadPrior => ReadPriorKeeps(s, x);
      case InsertEvent => InsertKeeps(s, x);
      case Check => CheckKeeps(s, x);
      case Commit => CommitKeeps(s, x);
    }
  }

  lemma StartHolds()
    ensures Inv(Start)
  {
  }

  lemma {:induction false} RunKeeps(unique: bool, steps: seq<Step>)
    ensures Inv(RunSteps(unique, Start, steps))
  {
    hide Next, Inv;
    if steps == [] {
      StartHolds();
    } else {
      var n := |steps| - 1;
      RunKeeps(unique, steps[..n]);
      var before := RunSteps(unique, Start, steps[..n]);
      if Next(unique, before, steps[n]).Some? {
        NextKeeps(unique, before, steps[n]);
      }
    }
  }

  /** Over all interleavings the committed log is exact, whether or not sequence numbers are unique keys. */
  lemma LogAlwaysExact(unique: bool, steps: seq<Step>)
    ensures var s := RunSteps(unique, Start, steps); LogExact(s.row, s.log)
  {
    hide LogExact, RunSteps, TxOk;
    RunKeeps(unique, steps);
  }

  // ---------- a sound advance goes through ----------

  ghost predicate Reachable(unique: bool, s: State) {
    exists steps :: RunSteps(unique, Start, steps) == s
  }

  lemma StepReaches(unique: bool, s: State, step: Step, t: State)
    requires Reachable(unique, s) && Next(unique, s, step) == Some(t)
    ensures Reachable(unique, t)
  {
    hide Next;
    var steps :| RunSteps(unique, Start, steps) == s;
    assert (steps + [step])[..|steps|] == steps;
    assert RunSteps(unique, Start, steps + [step]) == t;
  }

  /** Others in progress that hold no lock have no events that could stand in the way. */
  lemma NothingPending(s: State, x: Id, sequence: int)
    requires Inv(s) && forall y | y in s.active && y != x :: !s.active[y].holds
    ensures !PendingElsewhere(s, x, sequence)
  {
    hide LogExact, Holder;
    forall y | y in s.active && y != x ensures !Numbered(s.active[y].events, sequence) {
      assert TxOk(s, s.active[y]);
    }
  }

  lemma ReachableInv(unique: bool, s: State)
    requires Reachable(unique, s)
    ensures Inv(s)
  {
    hide Inv;
    var steps :| RunSteps(unique, Start, steps) == s;
    RunKeeps(unique, steps);
  }

  /** A transaction that finds the row unlocked can lock and advance it. */
  lemma RowAdvanced(unique: bool, s: State, x: Id, row: Account, now: int)
    requires Reachable(unique, s) && x !in s.active && s.row.Some? && forall y | y in s.active :: !s.active[y].holds
    requires !AdvanceInvalid("", s.row.value, "", row) && RowChecks(row)
    ensures var stored := row.(updatedAt := now);
            Reachable(unique, Put(s, x, Transaction(Some(stored), [], [stored], true, Writing)))
  {
    hide Reachable, RunSteps, AdvanceInvalid, RowChecks;
    var stored := row.(updatedAt := now);
    var u := Put(s, x, Transaction(Some(stored), [], [stored], true, Writing));
    StepReaches(unique, s, Step(x, Begin), Put(s, x, Fresh));
    assert [] + [stored] == [stored];
    assert Put(Put(s, x, Fresh), x, Transaction(Some(stored), [], [stored], true, Writing)) == u;
    StepReaches(unique, Put(s, x, Fresh), Step(x, Advance(false, row, now)), u);
  }

  /** Its event passes the trigger and the unique key. */
  lemma EventRecorded(unique: bool, s: State, x: Id, stored: Account, e: Event<Note>)
    requires Reachable(unique, Put(s, x, Transaction(Some(stored), [], [stored], true, Writing)))
    requires Inv(s) && x !in s.active && e.sequence == stored.aggregate && Continues(s.log, e)
    requires !Numbered(s.log, e.sequence) && !PendingElsewhere(s, x, e.sequence)
    ensures Reachable(unique, Put(s, x, Transaction(Some(stored), [e], [stored], true, Writing)))
  {
    hide Reachable, RunSteps, Continues, Inv, Numbered;
    assert s.log + [] == s.log && [] + [e] == [e];
    var s0 := Put(s, x, Transaction(Some(stored), [], [stored], true, Writing));
    var s1 := Put(s, x, Transaction(Some(stored), [], [stored], true, SequenceRead(e)));
    assert Put(s0, x, Transaction(Some(stored), [], [stored], true, SequenceRead(e))) == s1;
    StepReaches(unique, s0, Step(x, BeginEvent(e)), s1);
    var s2 := Put(s, x, Transaction(Some(stored), [], [stored], true, PriorRead(e)));
    assert Put(s1, x, Transaction(Some(stored), [], [stored], true, PriorRead(e))) == s2;
    StepReaches(unique, s1, Step(x, ReadPrior), s2);
    var s3 := Put(s, x, Transaction(Some(stored), [e], [stored], true, Writing));
    assert Put(s2, x, Transaction(Some(stored), [e], [stored], true, Writing)) == s3;
    assert !PendingElsewhere(s2, x, e.sequence);
    StepReaches(unique, s2, Step(x, InsertEvent), s3);
  }

  /** An account that does not exist opens at zero and commits, unless another transaction is opening it. */
  lemma OpenGoesThrough(unique: bool, s: State, x: Id, row: Account, now: int)
    requires Reachable(unique, s) && x !in s.active && s.row.None? && forall y | y in s.active :: !s.active[y].holds
    requires row.aggregate == 0 && row.portfolio == 0 && row.ledger == 0 && row.ledgerHash == None
    ensures Reachable(unique, State(Some(Account(row.baseCurrency, now, now, 0, 0, 0, None)), s.log, s.active))
  {
    hide Reachable, RunSteps, Continues;
    var stored := Account(row.baseCurrency, now, now, 0, 0, 0, None);
    StepReaches(unique, s, Step(x, Begin), Put(s, x, Fresh));
    var s1 := Put(s, x, Transaction(Some(stored), [], [], true, Writing));
    assert Put(Put(s, x, Fresh), x, Transaction(Some(stored), [], [], true, Writing)) == s1;
    StepReaches(unique, Put(s, x, Fresh), Step(x, Open(row, now)), s1);
    var s2 := Put(s, x, Transaction(Some(stored), [], [], true, Checked));
    assert Put(s1, x, Transaction(Some(stored), [], [], true, Checked)) == s2;
    StepReaches(unique, s1, Step(x, Check), s2);
    assert s2.active - {x} == s.active && s.log + [] == s.log;
    StepReaches(unique, s2, Step(x, Commit), State(Some(stored), s.log, s.active));
  }

  /** Whatever else is in progress, a valid advance of an unlocked row commits with its matching event. */
  lemma AdvanceGoesThrough(unique: bool, s: State, x: Id, row: Account, now: int, e: Event<Note>)
    requires Reachable(unique, s) && x !in s.active && s.row.Some? && forall y | y in s.active :: !s.active[y].holds
    requires AccountAdmits.NextVersion(s.row.value, row)
    requires e.sequence == |s.log| + 1 && e.previous == HashBefore(s.log, |s.log|) && e.at == now
    requires s.log != [] ==> s.log[|s.log| - 1].at <= now
    ensures Reachable(unique, State(Some(row.(updatedAt := now)), s.log + [e], s.active))
  {
    hide Reachable, RunSteps, Continues, HashBefore, ChainOk, InOrder, Latest;
    var stored := row.(updatedAt := now);
    ReachableInv(unique, s);
    NextEventContinues(s.log, e);
    NothingPending(s, x, e.sequence);
    AccountAdmits.NextVersionIs("", s.row.value, "", row);
    RowAdvanced(unique, s, x, row, now);
    EventRecorded(unique, s, x, stored, e);
    var s0 := Put(s, x, Transaction(Some(stored), [e], [stored], true, Writing));
    var s1 := Put(s, x, Transaction(Some(stored), [e], [stored], true, Checked));
    assert (s.log + [e])[|s.log|] == e && Matched(s.log + [e], stored);
    assert Put(s0, x, Transaction(Some(stored), [e], [stored], true, Checked)) == s1;
    StepReaches(unique, s0, Step(x, Check), s1);
    assert s1.active - {x} == s.active;
    StepReaches(unique, s1, Step(x, Commit), State(Some(stored), s.log + [e], s.active));
  }

  lemma NextEventContinues(log: seq<Event<Note>>, e: Event<Note>)
    requires ChainOk(log) && e.sequence == |log| + 1 && e.previous == HashBefore(log, |log|)
    requires log != [] ==> log[|log| - 1].at <= e.at
    ensures Continues(log, e) && !Numbered(log, e.sequence)
  {
    hide ChainOk, Latest, Admitted, HashBefore;
    LatestNumber(log);
    AdmittedExactly(log, e, False, Less(Some(e.at), TimeOf(Latest(log))));
    ChainLinks(log);
  }
}

/**
 Which transactions commit, and what they leave. Every theorem starts from any committed database and says in the
 columns of the rows written exactly when the transaction goes through; when it does not, nothing is written.
 */
module DatabaseProgress {
  import opened Wrappers
  import opened PaperDatabase
  import AccountAdmits
  import AccountGuards
  import Chain
  import LedgerAdmits
  import LedgerGuards
  import LedgerLaws
  import ReservationAdmits
  import ReservationGuards
  import Sql
  import StrategyAdmits
  import StrategyGuards
  import StrategyLaws

  // From one part of the database to the whole

  lemma PushRun(db: Db, statements: seq<Statement>, s: Statement)
    ensures RunAll(db, statements + [s]) ==
            if RunAll(db, statements).None? then None else Exec(RunAll(db, statements).value, s)
  {
    assert (statements + [s])[..|statements|] == statements;
  }

  lemma RunOne(db: Db, a: Statement)
    ensures RunAll(db, [a]) == Exec(db, a)
  {
    hide Exec;
    assert [] + [a] == [a];
    PushRun(db, [], a);
  }

  lemma RunTwo(db: Db, a: Statement, b: Statement)
    ensures RunAll(db, [a, b]) == if Exec(db, a).None? then None else Exec(Exec(db, a).value, b)
  {
    hide Exec, RunAll;
    assert [a] + [b] == [a, b];
    RunOne(db, a);
    PushRun(db, [a], b);
  }

  /** A transaction on accounts only is decided by the account triggers. */
  lemma AccountsDecide(db: Db, u: AccountGuards.Tables)
    requires Committed(db)
    ensures DeferredOk(db.(accounts := u)) <==> AccountGuards.DeferredOk(u)
    ensures Settle(db.(accounts := u)) == db.(accounts := AccountGuards.Settle(u))
  {
    hide AccountGuards.DeferredOk, LedgerGuards.FillAccounted, LedgerGuards.JournalComplete;
    NothingDue(db);
  }

  lemma ReservationsDecide(db: Db, u: ReservationGuards.Tables)
    requires Committed(db)
    ensures DeferredOk(db.(reservations := u)) <==> ReservationGuards.DeferredOk(u)
    ensures Settle(db.(reservations := u)) == db.(reservations := ReservationGuards.Settle(u))
  {
    hide ReservationGuards.DeferredOk, LedgerGuards.FillAccounted, LedgerGuards.JournalComplete;
    NothingDue(db);
  }

  lemma LedgerDecides(db: Db, u: LedgerGuards.Tables)
    requires Committed(db)
    ensures DeferredOk(db.(ledger := u)) <==> LedgerGuards.DeferredOk(u)
    ensures Settle(db.(ledger := u)) == db.(ledger := LedgerGuards.Settle(u))
  {
    hide LedgerGuards.DeferredOk;
    NothingDue(db);
  }

  lemma StrategiesDecide(db: Db, u: StrategyGuards.Tables)
    requires Committed(db)
    ensures DeferredOk(db.(strategies := u)) <==> StrategyGuards.DeferredOk(u)
    ensures Settle(db.(strategies := u)) == db.(strategies := StrategyGuards.Settle(u))
  {
    hide StrategyGuards.DeferredOk, LedgerGuards.FillAccounted, LedgerGuards.JournalComplete;
    NothingDue(db);
  }

  lemma NothingDue(db: Db)
    requires Committed(db)
    ensures db.accounts.due == [] && db.reservations.due == [] && db.strategies.due == []
    ensures db.ledger.fillsDue == [] && db.ledger.journalsDue == []
    ensures Settle(db) == db
  {
    hide AccountGuards.Exact, AccountGuards.Working, ReservationGuards.Exact, ReservationGuards.Working;
    hide LedgerLaws.Books, StrategyLaws.Exact, StrategyLaws.Working;
  }

  // Accounts

  /** An account opens exactly at zero under a new id. */
  lemma OpeningCommits(db: Db, id: AccountGuards.AccountId, row: AccountGuards.Account, now: int)
    requires Committed(db)
    ensures var opening := [OnAccounts(AccountGuards.OpenAccount(id, row, now))];
            var stored := AccountGuards.Account(row.baseCurrency, now, now, 0, 0, 0, None);
            && (Commits(db, opening) <==>
                  && id !in db.accounts.accounts
                  && row.aggregate == 0 && row.portfolio == 0 && row.ledger == 0 && row.ledgerHash == None)
            && Transact(db, opening) ==
               if Commits(db, opening)
               then db.(accounts := db.accounts.(accounts := db.accounts.accounts[id := stored])) else db
  {
    hide Committed, AccountGuards.Exec, RunAll, DeferredOk, Settle;
    RunOne(db, OnAccounts(AccountGuards.OpenAccount(id, row, now)));
    AccountAdmits.OpensExactly(db.accounts, id, row, now);
    NothingDue(db);
    var stored := AccountGuards.Account(row.baseCurrency, now, now, 0, 0, 0, None);
    AccountsDecide(db, db.accounts.(accounts := db.accounts.accounts[id := stored]));
  }

  function Advance(
    id: AccountGuards.AccountId, newId: AccountGuards.AccountId, row: AccountGuards.Account, now: int,
    e: Chain.Event<AccountGuards.Note>): seq<Statement>
  {
    [OnAccounts(AccountGuards.AdvanceAccount(id, newId, row, now)), OnAccounts(AccountGuards.RecordEvent(id, e))]
  }

  /** An account advances exactly to a next version together with its matching event. */
  lemma AdvanceCommits(
    db: Db, id: AccountGuards.AccountId, newId: AccountGuards.AccountId, row: AccountGuards.Account, now: int,
    e: Chain.Event<AccountGuards.Note>)
    requires Committed(db)
    ensures var t := db.accounts;
            var advance := Advance(id, newId, row, now, e);
            && (Commits(db, advance) <==>
                  && id in t.accounts && newId == id && AccountAdmits.NextVersion(t.accounts[id], row)
                  && AccountAdmits.MatchingEvent(t, id, now, e))
            && Transact(db, advance) ==
               if Commits(db, advance) then db.(accounts := AccountAdmits.Advanced(t, id, row, now, e)) else db
  {
    hide AccountGuards.Exec, RunAll, DeferredOk, Settle, AccountGuards.DeferredOk, AccountGuards.Settle;
    hide AccountGuards.Exact, AccountGuards.Working, AccountAdmits.Advanced, AccountAdmits.NextVersion;
    hide ReservationGuards.Exact, LedgerLaws.Books, StrategyLaws.Exact, AccountAdmits.MatchingEvent;
    var first, second := AccountGuards.AdvanceAccount(id, newId, row, now), AccountGuards.RecordEvent(id, e);
    RunTwo(db, OnAccounts(first), OnAccounts(second));
    NothingDue(db);
    AccountAdmits.AdvanceExactly(db.accounts, id, newId, row, now, e);
    if AccountGuards.Exec(db.accounts, first).Some? {
      var u := AccountGuards.Exec(db.accounts, first).value;
      if AccountGuards.Exec(u, second).Some? {
        AccountsDecide(db, AccountGuards.Exec(u, second).value);
      }
    }
  }

  // Reservations

  function Reserve(
    id: ReservationGuards.ReservationId, row: ReservationGuards.Reservation,
    e: Chain.Event<ReservationGuards.Change>): seq<Statement>
  {
    [OnReservations(ReservationGuards.Reserve(id, row)), OnReservations(ReservationGuards.RecordChange(id, e))]
  }

  function Amend(
    id: ReservationGuards.ReservationId, newId: ReservationGuards.ReservationId, row: ReservationGuards.Reservation,
    e: Chain.Event<ReservationGuards.Change>): seq<Statement>
  {
    [OnReservations(ReservationGuards.RecordChange(id, e)), OnReservations(ReservationGuards.Amend(id, newId, row))]
  }

  lemma ReserveCommits(
    db: Db, id: ReservationGuards.ReservationId, row: ReservationGuards.Reservation,
    e: Chain.Event<ReservationGuards.Change>)
    requires Committed(db)
    ensures var t := db.reservations;
            var reserve := Reserve(id, row, e);
            && (Commits(db, reserve) <==>
                  && id !in t.rows && ReservationAdmits.Opening(row) && ReservationAdmits.Tells(e, row)
                  && e.body.from == None)
            && Transact(db, reserve) ==
               if Commits(db, reserve) then db.(reservations := ReservationAdmits.Changed(t, id, row, e)) else db
  {
    hide ReservationGuards.Exec, RunAll, DeferredOk, Settle, ReservationGuards.DeferredOk, ReservationGuards.Settle;
    hide ReservationGuards.Exact, ReservationGuards.Working, ReservationAdmits.Changed, ReservationAdmits.Opening;
    hide AccountGuards.Exact, LedgerLaws.Books, StrategyLaws.Exact, ReservationAdmits.Tells;
    var first, second := ReservationGuards.Reserve(id, row), ReservationGuards.RecordChange(id, e);
    RunTwo(db, OnReservations(first), OnReservations(second));
    NothingDue(db);
    ReservationAdmits.ReserveExactly(db.reservations, id, row, e);
    if ReservationGuards.Exec(db.reservations, first).Some? {
      var u := ReservationGuards.Exec(db.reservations, first).value;
      if ReservationGuards.Exec(u, second).Some? {
        ReservationsDecide(db, ReservationGuards.Exec(u, second).value);
      }
    }
  }

  /** A reservation is amended, event first, exactly to a next version that the log, with the event, tells. */
  lemma AmendCommits(
    db: Db, id: ReservationGuards.ReservationId, newId: ReservationGuards.ReservationId,
    row: ReservationGuards.Reservation, e: Chain.Event<ReservationGuards.Change>)
    requires Committed(db)
    ensures var t := db.reservations;
            var log := ReservationGuards.Log(t, id);
            var amend := Amend(id, newId, row, e);
            && (Commits(db, amend) <==>
                  && id in t.rows && newId == id && ReservationAdmits.NextVersion(t.rows[id], row)
                  && ReservationAdmits.NextChange(log, e)
                  && 1 <= row.sequence <= |log| + 1 && ReservationAdmits.Tells((log + [e])[row.sequence - 1], row))
            && Transact(db, amend) ==
               if Commits(db, amend) then db.(reservations := ReservationAdmits.Changed(t, id, row, e)) else db
  {
    hide ReservationGuards.Exec, RunAll, DeferredOk, Settle, ReservationGuards.DeferredOk, ReservationGuards.Settle;
    hide ReservationGuards.Exact, ReservationGuards.Working, ReservationAdmits.Changed, ReservationAdmits.NextVersion;
    hide AccountGuards.Exact, LedgerLaws.Books, StrategyLaws.Exact, ReservationAdmits.Tells;
    hide ReservationAdmits.NextChange;
    hide ReservationGuards.Log;
    var first, second := ReservationGuards.RecordChange(id, e), ReservationGuards.Amend(id, newId, row);
    RunTwo(db, OnReservations(first), OnReservations(second));
    NothingDue(db);
    ReservationAdmits.EitherOrder(db.reservations, id, newId, row, e);
    ReservationAdmits.AmendExactly(db.reservations, id, newId, row, e);
    if ReservationGuards.Exec(db.reservations, first).Some? {
      var u := ReservationGuards.Exec(db.reservations, first).value;
      if ReservationGuards.Exec(u, second).Some? {
        ReservationsDecide(db, ReservationGuards.Exec(u, second).value);
      }
    }
  }

  // The ledger

  /** The five inserts of a booking. */
  function Book(b: LedgerAdmits.Booking): seq<Statement> {
    [OnLedger(LedgerGuards.RecordProgress(b.fill.order, b.progress)), OnLedger(LedgerGuards.RecordFill(b.fill)),
     OnLedger(LedgerGuards.PostJournal(b.account, b.journal)),
     OnLedger(LedgerGuards.AddPosting(b.journal.body.id, b.first)),
     OnLedger(LedgerGuards.AddPosting(b.journal.body.id, b.second))]
  }

  lemma PushLedger(db: Db, statements: seq<Statement>, s: LedgerGuards.Statement, t: Option<LedgerGuards.Tables>)
    requires RunAll(db, statements) == if t.None? then None else Some(db.(ledger := t.value))
    ensures var u := LedgerAdmits.Then(t, s);
            RunAll(db, statements + [OnLedger(s)]) == if u.None? then None else Some(db.(ledger := u.value))
  {
    hide RunAll, LedgerGuards.Exec;
    PushRun(db, statements, OnLedger(s));
  }

  /** The inserts of a booking act on the ledger and on nothing else. */
  lemma BookRuns(db: Db, b: LedgerAdmits.Booking)
    ensures var u := LedgerAdmits.Inserts(db.ledger, b);
            RunAll(db, Book(b)) == if u.None? then None else Some(db.(ledger := u.value))
  {
    hide RunAll, LedgerGuards.Exec, LedgerAdmits.Then;
    var s, id := Book(b), b.journal.body.id;
    RunOne(db, s[0]);
    var u1 := LedgerGuards.Exec(db.ledger, LedgerGuards.RecordProgress(b.fill.order, b.progress));
    assert s[..2] == [s[0]] + [s[1]] && s[..3] == s[..2] + [s[2]] && s[..4] == s[..3] + [s[3]] && s == s[..4] + [s[4]];
    PushLedger(db, [s[0]], LedgerGuards.RecordFill(b.fill), u1);
    var u2 := LedgerAdmits.Then(u1, LedgerGuards.RecordFill(b.fill));
    PushLedger(db, s[..2], LedgerGuards.PostJournal(b.account, b.journal), u2);
    var u3 := LedgerAdmits.Then(u2, LedgerGuards.PostJournal(b.account, b.journal));
    PushLedger(db, s[..3], LedgerGuards.AddPosting(id, b.first), u3);
    PushLedger(db, s[..4], LedgerGuards.AddPosting(id, b.second), LedgerAdmits.Then(u3, LedgerGuards.AddPosting(id, b.first)));
  }

  /** The ledger with a fill, its order event, its journal row and its two postings appended, and nothing left due. */
  function WithBooking(t: LedgerGuards.Tables, b: LedgerAdmits.Booking): LedgerGuards.Tables {
    LedgerGuards.Tables(
      t.orderEvents + [Sql.Entry(b.fill.order, b.progress)],
      t.fills + [b.fill],
      t.journals + [Sql.Entry(b.account, b.journal)],
      t.postings + [Sql.Entry(b.journal.body.id, b.first), Sql.Entry(b.journal.body.id, b.second)],
      [], [])
  }

  /** A fill is booked exactly when it fits, and then the ledger holds all five rows and nothing else changed. */
  lemma BookingCommits(db: Db, b: LedgerAdmits.Booking)
    requires Committed(db)
    ensures Commits(db, Book(b)) <==> LedgerAdmits.Fits(db.ledger, b)
    ensures Transact(db, Book(b)) == if Commits(db, Book(b)) then db.(ledger := WithBooking(db.ledger, b)) else db
  {
    hide RunAll, DeferredOk, Settle, LedgerGuards.DeferredOk, LedgerGuards.Exec, LedgerLaws.Books, LedgerAdmits.Fits;
    hide AccountGuards.Exact, ReservationGuards.Exact, StrategyLaws.Exact, LedgerAdmits.Inserts, Book;
    BookRuns(db, b);
    LedgerAdmits.BookingExactly(db.ledger, b);
    NothingDue(db);
    var u := LedgerAdmits.Inserts(db.ledger, b);
    if u.Some? {
      LedgerDecides(db, u.value);
      assert LedgerGuards.Settle(u.value).postings == WithBooking(db.ledger, b).postings;
    }
  }

  /** An order event alone commits exactly as the order's legal next event. */
  lemma ProgressCommits(db: Db, order: LedgerGuards.OrderId, e: Chain.Event<LedgerGuards.Progress>)
    requires Committed(db)
    ensures var record := [OnLedger(LedgerGuards.RecordProgress(order, e))];
            var t := db.ledger;
            && (Commits(db, record) <==> LedgerAdmits.NextProgress(Sql.Select(t.orderEvents, order), e))
            && Transact(db, record) ==
               if Commits(db, record)
               then db.(ledger := t.(orderEvents := t.orderEvents + [Sql.Entry(order, e)])) else db
  {
    hide RunAll, DeferredOk, Settle, LedgerGuards.FillAccounted, LedgerGuards.JournalComplete, LedgerGuards.Exec;
    hide AccountGuards.Exact, ReservationGuards.Exact, StrategyLaws.Exact, LedgerAdmits.NextProgress, Sql.Select;
    hide LedgerLaws.NotOverfilled, LedgerLaws.Balanced, LedgerLaws.Paired, LedgerLaws.OrderLogs, LedgerLaws.JournalLogs;
    RunOne(db, OnLedger(LedgerGuards.RecordProgress(order, e)));
    LedgerAdmits.ProgressesExactly(db.ledger, order, e);
    NothingDue(db);
    LedgerDecides(db, db.ledger.(orderEvents := db.ledger.orderEvents + [Sql.Entry(order, e)]));
  }

  // Strategies

  function Register(
    key: StrategyGuards.Key, row: StrategyGuards.Strategy, now: int,
    e: Chain.Event<StrategyGuards.Audit>): seq<Statement>
  {
    [OnStrategies(StrategyGuards.Register(key, row, now)), OnStrategies(StrategyGuards.RecordAudit(key, e))]
  }

  function Promote(
    key: StrategyGuards.Key, newKey: StrategyGuards.Key, row: StrategyGuards.Strategy, now: int,
    e: Chain.Event<StrategyGuards.Audit>): seq<Statement>
  {
    [OnStrategies(StrategyGuards.Promote(key, newKey, row, now)), OnStrategies(StrategyGuards.RecordAudit(key, e))]
  }

  /** A strategy is registered exactly as a fresh draft, with the event that tells it. */
  lemma RegisterCommits(
    db: Db, key: StrategyGuards.Key, row: StrategyGuards.Strategy, now: int, e: Chain.Event<StrategyGuards.Audit>)
    requires Committed(db)
    ensures var t := db.strategies;
            var register := Register(key, row, now, e);
            && (Commits(db, register) <==>
                  && key !in t.rows && row.stage == StrategyGuards.Draft && row.version == 1 && row.report == None
                  && row.evaluationHash == None && e.sequence == 1 && e.previous == None && e.at == now
                  && e.body == StrategyGuards.Audit(None, StrategyGuards.Draft, None, None))
            && Transact(db, register) ==
               if Commits(db, register)
               then db.(strategies := StrategyAdmits.Mutated(t, key, row.(createdAt := now, updatedAt := now), e)) else db
  {
    hide StrategyGuards.Exec, RunAll, DeferredOk, Settle, StrategyGuards.DeferredOk, StrategyGuards.Settle;
    hide StrategyLaws.Exact, StrategyLaws.Working, StrategyAdmits.Mutated;
    hide AccountGuards.Exact, LedgerLaws.Books, ReservationGuards.Exact;
    var first, second := StrategyGuards.Register(key, row, now), StrategyGuards.RecordAudit(key, e);
    RunTwo(db, OnStrategies(first), OnStrategies(second));
    NothingDue(db);
    StrategyAdmits.RegisterExactly(db.strategies, key, row, now, e);
    if StrategyGuards.Exec(db.strategies, first).Some? {
      var u := StrategyGuards.Exec(db.strategies, first).value;
      if StrategyGuards.Exec(u, second).Some? {
        StrategiesDecide(db, StrategyGuards.Exec(u, second).value);
      }
    }
  }

  /** A strategy is promoted exactly to a next version that the audit log, with the event, tells. */
  lemma PromotionCommits(
    db: Db, key: StrategyGuards.Key, newKey: StrategyGuards.Key, row: StrategyGuards.Strategy, now: int,
    e: Chain.Event<StrategyGuards.Audit>)
    requires Committed(db)
    ensures var t := db.strategies;
            var log := StrategyGuards.Log(t, key);
            var stored := row.(updatedAt := now);
            var promote := Promote(key, newKey, row, now, e);
            && (Commits(db, promote) <==>
                  && key in t.rows && newKey == key && StrategyAdmits.NextVersion(t, key, row, now)
                  && StrategyAdmits.NextAudit(log, e) && 1 <= row.version <= |log| + 1
                  && StrategyAdmits.Tells((log + [e])[row.version - 1],
                                          StrategyGuards.Mutation(Some(t.rows[key].stage), stored)))
            && Transact(db, promote) ==
               if Commits(db, promote) then db.(strategies := StrategyAdmits.Mutated(t, key, stored, e)) else db
  {
    hide StrategyGuards.Exec, RunAll, DeferredOk, Settle, StrategyGuards.DeferredOk, StrategyGuards.Settle;
    hide StrategyLaws.Exact, StrategyLaws.Working, StrategyAdmits.Mutated, StrategyAdmits.NextVersion;
    hide AccountGuards.Exact, LedgerLaws.Books, ReservationGuards.Exact, StrategyAdmits.NextAudit, StrategyAdmits.Tells;
    hide StrategyGuards.Log;
    var first, second := StrategyGuards.Promote(key, newKey, row, now), StrategyGuards.RecordAudit(key, e);
    RunTwo(db, OnStrategies(first), OnStrategies(second));
    NothingDue(db);
    StrategyAdmits.PromoteExactly(db.strategies, key, newKey, row, now, e);
    if StrategyGuards.Exec(db.strategies, first).Some? {
      var u := StrategyGuards.Exec(db.strategies, first).value;
      if StrategyGuards.Exec(u, second).Some? {
        StrategiesDecide(db, StrategyGuards.Exec(u, second).value);
      }
    }
  }

  /** An evaluation is stored exactly once, under a new report id, for a registered strategy. */
  lemma EvaluationCommits(db: Db, report: StrategyGuards.ReportId, e: StrategyGuards.Evaluation)
    requires Committed(db)
    ensures var t := db.strategies;
            var evaluate := [OnStrategies(StrategyGuards.RecordEvaluation(report, e))];
            && (Commits(db, evaluate) <==> report !in t.evaluations && e.strategy in t.rows)
            && Transact(db, evaluate) ==
               if Commits(db, evaluate)
               then db.(strategies := t.(evaluations := t.evaluations[report := e])) else db
  {
    hide StrategyGuards.Exec, RunAll, DeferredOk, Settle;
    hide StrategyLaws.Exact, StrategyLaws.Working, AccountGuards.Exact, LedgerLaws.Books, ReservationGuards.Exact;
    RunOne(db, OnStrategies(StrategyGuards.RecordEvaluation(report, e)));
    StrategyAdmits.EvaluatesExactly(db.strategies, report, e);
    NothingDue(db);
    StrategiesDecide(db, db.strategies.(evaluations := db.strategies.evaluations[report := e]));
  }

  // On a connection

  /** Booking a fill over a connection: it succeeds exactly when the booking fits what is committed. */
  method BookOver(session: Session, b: LedgerAdmits.Booking) returns (ok: bool)
    requires session.Valid() && session.working == session.committed && !session.aborted
    modifies session
    ensures session.Valid() && session.working == session.committed && !session.aborted
    ensures ok <==> LedgerAdmits.Fits(old(session.committed).ledger, b)
    ensures session.committed ==
            var db := old(session.committed);
              if ok then db.(ledger := WithBooking(db.ledger, b)) else db
  {
    hide Committed, Within, Commits, Transact, Evolves, LedgerAdmits.Fits, Book, WithBooking;
    BookingCommits(session.committed, b);
    ok := session.Run(Book(b));
  }
}

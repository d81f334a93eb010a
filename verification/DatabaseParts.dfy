/** A transaction over several parts of the database is one transaction on each part, and commits when all four do. */
module DatabaseParts {
  import opened Wrappers
  import opened PaperDatabase
  import AccountGuards
  import LedgerGuards
  import ReservationGuards
  import StrategyGuards

  /** One part's statements in turn, or `None` as soon as one raises. */
  function ExecAll<T, S>(exec: (T, S) -> Option<T>, t: T, statements: seq<S>): Option<T> {
    if statements == [] then Some(t)
    else
      var n := |statements| - 1;
      var before := ExecAll(exec, t, statements[..n]);
      if before.None? then None else exec(before.value, statements[n])
  }

  lemma ExecPush<T, S>(exec: (T, S) -> Option<T>, t: T, statements: seq<S>, s: S)
    ensures ExecAll(exec, t, statements + [s]) ==
            if ExecAll(exec, t, statements).None? then None else exec(ExecAll(exec, t, statements).value, s)
  {
    assert (statements + [s])[..|statements|] == statements;
  }

  function AccountsIn(ss: seq<Statement>): seq<AccountGuards.Statement> {
    if ss == [] then []
    else
      var n := |ss| - 1;
      AccountsIn(ss[..n]) + if ss[n].OnAccounts? then [ss[n].account] else []
  }

  function ReservationsIn(ss: seq<Statement>): seq<ReservationGuards.Statement> {
    if ss == [] then []
    else
      var n := |ss| - 1;
      ReservationsIn(ss[..n]) + if ss[n].OnReservations? then [ss[n].reservation] else []
  }

  function LedgerIn(ss: seq<Statement>): seq<LedgerGuards.Statement> {
    if ss == [] then []
    else
      var n := |ss| - 1;
      LedgerIn(ss[..n]) + if ss[n].OnLedger? then [ss[n].entry] else []
  }

  function StrategiesIn(ss: seq<Statement>): seq<StrategyGuards.Statement> {
    if ss == [] then []
    else
      var n := |ss| - 1;
      StrategiesIn(ss[..n]) + if ss[n].OnStrategies? then [ss[n].strategy] else []
  }

  /** Each part as its own statements leave it, unless one of them raises. */
  function Apart(db: Db, ss: seq<Statement>): Option<Db> {
    var a := ExecAll(AccountGuards.Exec, db.accounts, AccountsIn(ss));
    var r := ExecAll(ReservationGuards.Exec, db.reservations, ReservationsIn(ss));
    var l := ExecAll(LedgerGuards.Exec, db.ledger, LedgerIn(ss));
    var s := ExecAll(StrategyGuards.Exec, db.strategies, StrategiesIn(ss));
    if a.Some? && r.Some? && l.Some? && s.Some? then Some(Db(a.value, r.value, l.value, s.value)) else None
  }

  lemma PartsPush(ss: seq<Statement>, s: Statement)
    ensures AccountsIn(ss + [s]) == if s.OnAccounts? then AccountsIn(ss) + [s.account] else AccountsIn(ss)
    ensures ReservationsIn(ss + [s]) == if s.OnReservations? then ReservationsIn(ss) + [s.reservation] else ReservationsIn(ss)
    ensures LedgerIn(ss + [s]) == if s.OnLedger? then LedgerIn(ss) + [s.entry] else LedgerIn(ss)
    ensures StrategiesIn(ss + [s]) == if s.OnStrategies? then StrategiesIn(ss) + [s.strategy] else StrategiesIn(ss)
  {
    assert (ss + [s])[..|ss|] == ss;
  }

  lemma ApartPush(db: Db, ss: seq<Statement>, s: Statement)
    ensures Apart(db, ss + [s]) == if Apart(db, ss).None? then None else Exec(Apart(db, ss).value, s)
  {
    hide AccountGuards.Exec, ReservationGuards.Exec, LedgerGuards.Exec, StrategyGuards.Exec, ExecAll;
    hide AccountsIn, ReservationsIn, LedgerIn, StrategiesIn;
    PartsPush(ss, s);
    match s
    case OnAccounts(x) => ExecPush(AccountGuards.Exec, db.accounts, AccountsIn(ss), x);
    case OnReservations(x) => ExecPush(ReservationGuards.Exec, db.reservations, ReservationsIn(ss), x);
    case OnLedger(x) => ExecPush(LedgerGuards.Exec, db.ledger, LedgerIn(ss), x);
    case OnStrategies(x) => ExecPush(StrategyGuards.Exec, db.strategies, StrategiesIn(ss), x);
  }

  /** Interleaving the parts' statements makes no difference: every part runs as if it were alone. */
  lemma {:induction false} RunsApart(db: Db, ss: seq<Statement>)
    ensures RunAll(db, ss) == Apart(db, ss)
  {
    hide Exec, Apart;
    if ss == [] {
      NothingRun(db);
    } else {
      var n := |ss| - 1;
      RunsApart(db, ss[..n]);
      ApartPush(db, ss[..n], ss[n]);
      assert ss[..n] + [ss[n]] == ss;
    }
  }

  lemma NothingRun(db: Db)
    ensures Apart(db, []) == Some(db)
  {
  }

  /** A transaction commits exactly when each part passes its own deferred triggers, and then leaves each settled. */
  lemma CommitsApart(db: Db, ss: seq<Statement>)
    ensures var w := Apart(db, ss);
            && (Commits(db, ss) <==>
                  && w.Some?
                  && AccountGuards.DeferredOk(w.value.accounts) && ReservationGuards.DeferredOk(w.value.reservations)
                  && LedgerGuards.DeferredOk(w.value.ledger) && StrategyGuards.DeferredOk(w.value.strategies))
            && (Commits(db, ss) ==>
                  Transact(db, ss) == Db(w.value.accounts.(due := []), w.value.reservations.(due := []),
                                         w.value.ledger.(fillsDue := [], journalsDue := []),
                                         w.value.strategies.(due := [])))
            && (!Commits(db, ss) ==> Transact(db, ss) == db)
  {
    hide AccountGuards.DeferredOk, ReservationGuards.DeferredOk, LedgerGuards.DeferredOk, StrategyGuards.DeferredOk;
    hide Apart, RunAll;
    RunsApart(db, ss);
  }
}

/**
 The database as a whole: statements run inside transactions, deferred triggers run at commit,
 and any failure rolls everything back. The theorems hold of every history of transactions.
 */
module PaperDatabase {
  import opened Wrappers
  import AccountGuards
  import ReservationGuards
  import LedgerGuards
  import LedgerLaws
  import StrategyGuards
  import StrategyLaws

  datatype Db = Db(
    accounts: AccountGuards.Tables,
    reservations: ReservationGuards.Tables,
    ledger: LedgerGuards.Tables,
    strategies: StrategyGuards.Tables)

  const Empty := Db(AccountGuards.Empty, ReservationGuards.Empty, LedgerGuards.Empty, StrategyGuards.Empty)

  datatype Statement =
    | OnAccounts(account: AccountGuards.Statement)
    | OnReservations(reservation: ReservationGuards.Statement)
    | OnLedger(entry: LedgerGuards.Statement)
    | OnStrategies(strategy: StrategyGuards.Statement)

  function Exec(db: Db, s: Statement): Option<Db> {
    match s
    case OnAccounts(a) =>
      var r := AccountGuards.Exec(db.accounts, a);
      if r.None? then None else Some(db.(accounts := r.value))
    case OnReservations(a) =>
      var r := ReservationGuards.Exec(db.reservations, a);
      if r.None? then None else Some(db.(reservations := r.value))
    case OnLedger(a) =>
      var r := LedgerGuards.Exec(db.ledger, a);
      if r.None? then None else Some(db.(ledger := r.value))
    case OnStrategies(a) =>
      var r := StrategyGuards.Exec(db.strategies, a);
      if r.None? then None else Some(db.(strategies := r.value))
  }

  predicate DeferredOk(db: Db) {
    && AccountGuards.DeferredOk(db.accounts)
    && ReservationGuards.DeferredOk(db.reservations)
    && LedgerGuards.DeferredOk(db.ledger)
    && StrategyGuards.DeferredOk(db.strategies)
  }

  function Settle(db: Db): Db {
    Db(AccountGuards.Settle(db.accounts),
       ReservationGuards.Settle(db.reservations),
       LedgerGuards.Settle(db.ledger),
       StrategyGuards.Settle(db.strategies))
  }

  /** All statements in turn, or `None` as soon as one raises. */
  function RunAll(db: Db, statements: seq<Statement>): Option<Db> {
    if statements == [] then Some(db)
    else
      var n := |statements| - 1;
      var before := RunAll(db, statements[..n]);
      if before.None? then None else Exec(before.value, statements[n])
  }

  /** No statement raises, and neither does a deferred trigger. */
  predicate Commits(db: Db, statements: seq<Statement>) {
    var w := RunAll(db, statements);
    w.Some? && DeferredOk(w.value)
  }

  /** One transaction: all of it, or nothing. */
  function Transact(db: Db, statements: seq<Statement>): Db {
    if Commits(db, statements) then Settle(RunAll(db, statements).value) else db
  }

  function History(db: Db, transactions: seq<seq<Statement>>): Db {
    if transactions == [] then db
    else
      var n := |transactions| - 1;
      Transact(History(db, transactions[..n]), transactions[n])
  }

  // Invariants

  ghost predicate Committed(db: Db) {
    && AccountGuards.Exact(db.accounts) && AccountGuards.Working(db.accounts)
    && ReservationGuards.Exact(db.reservations) && ReservationGuards.Working(db.reservations)
    && LedgerLaws.Books(db.ledger)
    && StrategyLaws.Exact(db.strategies) && StrategyLaws.Working(db.strategies)
    && db == Settle(db)
  }

  /** A working state of a transaction that began in `b`. */
  ghost predicate Within(b: Db, db: Db) {
    && AccountGuards.Working(db.accounts) && AccountGuards.Evolves(b.accounts, db.accounts)
    && ReservationGuards.Working(db.reservations) && ReservationGuards.Evolves(b.reservations, db.reservations)
    && LedgerLaws.Within(b.ledger, db.ledger)
    && StrategyLaws.Working(db.strategies) && StrategyLaws.Evolves(b.strategies, db.strategies)
  }

  ghost predicate Evolves(b: Db, db: Db) {
    && AccountGuards.Evolves(b.accounts, db.accounts)
    && ReservationGuards.Evolves(b.reservations, db.reservations)
    && LedgerLaws.Evolves(b.ledger, db.ledger)
    && StrategyLaws.Evolves(b.strategies, db.strategies)
  }

  lemma EmptyCommitted()
    ensures Committed(Empty)
  {
    LedgerLaws.EmptyBooks();
    EmptyRows();
  }

  lemma EmptyRows()
    ensures AccountGuards.Exact(Empty.accounts) && AccountGuards.Working(Empty.accounts)
    ensures ReservationGuards.Exact(Empty.reservations) && ReservationGuards.Working(Empty.reservations)
    ensures StrategyLaws.Exact(Empty.strategies) && StrategyLaws.Working(Empty.strategies)
  {
    forall id ensures AccountGuards.Tracked(Empty.accounts, id) && AccountGuards.Log(Empty.accounts, id) == [] {
    }
    forall id
      ensures ReservationGuards.Tracked(Empty.reservations, id) && ReservationGuards.Log(Empty.reservations, id) == []
    {
    }
    forall key ensures StrategyLaws.Tracked(Empty.strategies, key) && StrategyGuards.Log(Empty.strategies, key) == [] {
    }
  }

  lemma EvolvesTransitive(a: Db, b: Db, c: Db)
    requires Evolves(a, b) && Evolves(b, c)
    ensures Evolves(a, c)
  {
    hide AccountGuards.Evolves, ReservationGuards.Evolves, LedgerLaws.Evolves, StrategyLaws.Evolves;
    AccountGuards.EvolvesTransitive(a.accounts, b.accounts, c.accounts);
    ReservationGuards.EvolvesTransitive(a.reservations, b.reservations, c.reservations);
    LedgerLaws.EvolvesTransitive(a.ledger, b.ledger, c.ledger);
    StrategyLaws.EvolvesTransitive(a.strategies, b.strategies, c.strategies);
  }

  lemma EvolvesReflexive(a: Db)
    ensures Evolves(a, a)
  {
  }

  lemma Begin(b: Db)
    requires Committed(b)
    ensures Within(b, b)
  {
    hide AccountGuards.Working, ReservationGuards.Working, LedgerLaws.Within, LedgerLaws.Books, StrategyLaws.Working;
    hide AccountGuards.Exact, ReservationGuards.Exact, StrategyLaws.Exact;
    LedgerLaws.BooksBegin(b.ledger);
  }

  /** Every statement keeps the working invariant of its transaction. */
  lemma ExecKeeps(b: Db, db: Db, s: Statement)
    requires Within(b, db) && Exec(db, s).Some?
    ensures Within(b, Exec(db, s).value)
  {
    hide AccountGuards.Working, AccountGuards.Evolves, AccountGuards.Exec;
    hide ReservationGuards.Working, ReservationGuards.Evolves, ReservationGuards.Exec;
    hide LedgerLaws.Within, LedgerGuards.Exec, StrategyLaws.Working, StrategyLaws.Evolves, StrategyGuards.Exec;
    match s
    case OnAccounts(a) =>
      AccountGuards.ExecKeeps(db.accounts, a);
      AccountGuards.EvolvesTransitive(b.accounts, db.accounts, AccountGuards.Exec(db.accounts, a).value);
    case OnReservations(a) =>
      ReservationGuards.ExecKeeps(db.reservations, a);
      ReservationGuards.ExecEvolves(db.reservations, a);
      ReservationGuards.EvolvesTransitive(b.reservations, db.reservations, ReservationGuards.Exec(db.reservations, a).value);
    case OnLedger(a) =>
      LedgerLaws.ExecKeeps(b.ledger, db.ledger, a);
    case OnStrategies(a) =>
      StrategyLaws.ExecKeeps(db.strategies, a);
      StrategyLaws.ExecEvolves(db.strategies, a);
      StrategyLaws.EvolvesTransitive(b.strategies, db.strategies, StrategyGuards.Exec(db.strategies, a).value);
  }

  lemma {:induction false} RunKeeps(b: Db, statements: seq<Statement>)
    requires Committed(b) && RunAll(b, statements).Some?
    ensures Within(b, RunAll(b, statements).value)
  {
    hide Committed, Within, Exec;
    if statements == [] {
      Begin(b);
    } else {
      var n := |statements| - 1;
      RunKeeps(b, statements[..n]);
      ExecKeeps(b, RunAll(b, statements[..n]).value, statements[n]);
    }
  }

  /** A commit whose deferred triggers all pass. */
  lemma CommitKeeps(b: Db, db: Db)
    requires Committed(b) && Within(b, db) && DeferredOk(db)
    ensures Committed(Settle(db)) && Evolves(b, Settle(db))
  {
    hide AccountGuards.Working, AccountGuards.Exact, AccountGuards.DeferredOk;
    hide ReservationGuards.Working, ReservationGuards.Exact, ReservationGuards.DeferredOk;
    hide LedgerLaws.Within, LedgerLaws.Books, LedgerLaws.Evolves, LedgerGuards.DeferredOk;
    hide StrategyLaws.Working, StrategyLaws.Exact, StrategyGuards.DeferredOk;
    AccountGuards.CommitExact(db.accounts);
    ReservationGuards.CommitExact(db.reservations);
    LedgerLaws.CommitKeeps(b.ledger, db.ledger);
    LedgerLaws.CommitEvolves(b.ledger, db.ledger);
    StrategyLaws.CommitExact(db.strategies);
  }

  lemma TransactKeeps(b: Db, statements: seq<Statement>)
    requires Committed(b)
    ensures Committed(Transact(b, statements)) && Evolves(b, Transact(b, statements))
  {
    hide Committed, Within, Evolves, RunAll, DeferredOk, Settle;
    var w := RunAll(b, statements);
    if w.Some? && DeferredOk(w.value) {
      RunKeeps(b, statements);
      CommitKeeps(b, w.value);
    } else {
      EvolvesReflexive(b);
    }
  }

  /** Every history of transactions from empty tables is in a committed state. */
  lemma {:induction false} HistoryCommitted(transactions: seq<seq<Statement>>)
    ensures Committed(History(Empty, transactions))
  {
    hide Committed, Evolves, Transact;
    if transactions == [] {
      EmptyCommitted();
    } else {
      var n := |transactions| - 1;
      HistoryCommitted(transactions[..n]);
      TransactKeeps(History(Empty, transactions[..n]), transactions[n]);
    }
  }

  /** Later transactions never undo what an earlier part of the history established. */
  lemma {:induction false} HistoryEvolves(earlier: seq<seq<Statement>>, later: seq<seq<Statement>>)
    ensures Evolves(History(Empty, earlier), History(Empty, earlier + later))
  {
    hide Committed, Evolves, Transact;
    if later == [] {
      assert earlier + later == earlier;
      EvolvesReflexive(History(Empty, earlier));
    } else {
      var n := |later| - 1;
      var whole := earlier + later;
      assert whole[..|whole| - 1] == earlier + later[..n];
      HistoryEvolves(earlier, later[..n]);
      HistoryCommitted(earlier + later[..n]);
      TransactKeeps(History(Empty, earlier + later[..n]), later[n]);
      EvolvesTransitive(History(Empty, earlier), History(Empty, earlier + later[..n]), History(Empty, whole));
    }
  }

  // A client's connection

  /** A connection: the committed tables, and the open transaction's view of them. */
  class Session {
    var committed: Db
    var working: Db
    var aborted: bool

    ghost predicate Valid()
      reads this
    {
      Committed(committed) && (!aborted ==> Within(committed, working))
    }

    constructor ()
      ensures Valid() && committed == Empty && working == Empty && !aborted
    {
      hide Committed, Within;
      committed, working, aborted := Empty, Empty, false;
      new;
      EmptyCommitted();
      Begin(Empty);
    }

    /** A raised exception aborts the transaction; until it ends, every statement fails. */
    method Execute(s: Statement) returns (ok: bool)
      requires Valid()
      modifies this`working, this`aborted
      ensures Valid()
      ensures ok <==> !old(aborted) && Exec(old(working), s).Some?
      ensures aborted == !ok
      ensures working == if ok then Exec(old(working), s).value else old(working)
    {
      hide Committed, Within, Evolves, Exec, DeferredOk, Settle;
      var r := if aborted then None else Exec(working, s);
      ok := r.Some?;
      if ok {
        ExecKeeps(committed, working, s);
        working := r.value;
      }
      aborted := !ok;
    }

    method Rollback()
      requires Valid()
      modifies this`working, this`aborted
      ensures Valid() && working == committed && !aborted
    {
      hide Committed, Within, Evolves, Exec, DeferredOk, Settle;
      working, aborted := committed, false;
      Begin(committed);
    }

    /** Runs the deferred triggers; a failure discards the transaction. */
    method Commit() returns (ok: bool)
      requires Valid()
      modifies this
      ensures Valid() && working == committed && !aborted
      ensures ok <==> !old(aborted) && DeferredOk(old(working))
      ensures committed == if ok then Settle(old(working)) else old(committed)
      ensures Evolves(old(committed), committed)
    {
      hide Committed, Within, Evolves, Exec, DeferredOk, Settle;
      ok := !aborted && DeferredOk(working);
      if ok {
        CommitKeeps(committed, working);
        committed := Settle(working);
      } else {
        EvolvesReflexive(committed);
      }
      working, aborted := committed, false;
      Begin(committed);
    }

    /** A whole transaction, statement by statement. */
    method Run(statements: seq<Statement>) returns (ok: bool)
      requires Valid() && working == committed && !aborted
      modifies this
      ensures Valid() && working == committed && !aborted
      ensures ok <==> Commits(old(committed), statements)
      ensures committed == Transact(old(committed), statements)
      ensures Evolves(old(committed), committed)
    {
      hide Committed, Within, Evolves, Exec, DeferredOk, Settle;
      for i := 0 to |statements|
        invariant Valid() && committed == old(committed)
        invariant aborted == RunAll(committed, statements[..i]).None?
        invariant !aborted ==> working == RunAll(committed, statements[..i]).value
      {
        assert statements[..i + 1][..i] == statements[..i];
        var done := Execute(statements[i]);
      }
      assert statements[..|statements|] == statements;
      ok := Commit();
    }
  }
}

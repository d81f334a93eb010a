/** The promises of the guards, spelled out for every history of transactions. */
module DatabaseTheorems {
  import opened Wrappers
  import opened Sql
  import opened Chain
  import opened PaperDatabase
  import AccountGuards
  import ReservationGuards
  import LedgerGuards
  import LedgerLaws
  import TrialBalance
  import StrategyGuards
  import StrategyLaws

  /** An account's events are exactly 1 .. aggregate_sequence, hash-linked and in time order. */
  lemma AccountLogExact(history: seq<seq<Statement>>, id: AccountGuards.AccountId)
    requires id in History(Empty, history).accounts.accounts
    ensures var t := History(Empty, history).accounts;
            var log := AccountGuards.Log(t, id);
            && |log| == t.accounts[id].aggregate
            && (forall i | 0 <= i < |log| :: log[i].sequence == i + 1)
            && (forall i, j | 0 <= i && j == i + 1 && j < |log| :: log[j].previous == Some(log[i].hash))
            && (forall i, j | 0 <= i < j < |log| :: log[i].at <= log[j].at)
            && (log != [] ==> log[0].previous == None && log[|log| - 1].at == t.accounts[id].updatedAt)
  {
    hide History, Select, Committed, ChainOk;
    var t := History(Empty, history).accounts;
    HistoryExactAccounts(history);
    assert AccountGuards.Caught(AccountGuards.Log(t, id), t.accounts[id]);
    ChainLinks(AccountGuards.Log(t, id));
  }

  lemma HistoryExactAccounts(history: seq<seq<Statement>>)
    ensures AccountGuards.Exact(History(Empty, history).accounts)
  {
    hide History, AccountGuards.Exact;
    HistoryCommitted(history);
  }

  /** The reservation row is its own event, and the remaining amount falls from event to event. */
  lemma ReservationReplay(history: seq<seq<Statement>>, id: ReservationGuards.ReservationId)
    requires id in History(Empty, history).reservations.rows
    ensures var t := History(Empty, history).reservations;
            var log, row := ReservationGuards.Log(t, id), t.rows[id];
            && 1 <= row.sequence <= |log|
            && ReservationGuards.Records(log[row.sequence - 1], row)
            && (forall i | 0 <= i < row.sequence :: 0.0 <= log[i].body.remaining <= row.terms.amount)
            && (forall i, j | 0 <= i < j < row.sequence :: log[j].body.remaining <= log[i].body.remaining)
            && ChainOk(log) && ReservationGuards.StagesLinked(log)
  {
    hide History, Select, AccountGuards.Exact, LedgerLaws.Books, StrategyLaws.Exact, ReservationGuards.Working, ChainOk;
    hide ReservationGuards.StagesLinked, ReservationGuards.Records;
    HistoryCommitted(history);
    assert ReservationGuards.Replayed(
      ReservationGuards.Log(History(Empty, history).reservations, id), History(Empty, history).reservations.rows[id]);
  }

  lemma HistoryBooks(history: seq<seq<Statement>>)
    ensures LedgerLaws.Books(History(Empty, history).ledger)
  {
    hide History, LedgerLaws.Books;
    HistoryCommitted(history);
  }

  /** Fills and journal transactions are in bijection, with the same order and account. */
  lemma FillsAndJournals(history: seq<seq<Statement>>)
    ensures var t := History(Empty, history).ledger;
            && LedgerLaws.Paired(t)
            && LedgerLaws.FillKeys(t.fills) && LedgerLaws.JournalKeys(t.journals)
            && multiset(TrialBalance.FillIds(t)) == multiset(TrialBalance.JournalFills(t))
  {
    hide History, LedgerLaws.Paired, LedgerLaws.FillKeys, LedgerLaws.JournalKeys;
    HistoryBooks(history);
    TrialBalance.FillsAreJournaled(History(Empty, history).ledger);
  }

  /** A committed transaction that adds a fill leaves its order's total at the latest cumulative quantity. */
  lemma FillCommitAgrees(history: seq<seq<Statement>>, statements: seq<Statement>, i: nat)
    requires var b, t := History(Empty, history).ledger, History(Empty, history + [statements]).ledger;
      |b.fills| <= i < |t.fills|
    ensures var t := History(Empty, history + [statements]).ledger;
            var log := Select(t.orderEvents, t.fills[i].order);
            log != [] && LedgerGuards.FillTotal(t.fills, t.fills[i].order) == log[|log| - 1].body.cumulative
  {
    hide Select, LedgerGuards.FillTotal, Committed, RunAll, LedgerGuards.DeferredOk, LedgerLaws.Within;
    assert (history + [statements])[..|history|] == history;
    var b := History(Empty, history);
    var w := RunAll(b, statements);
    HistoryCommitted(history);
    RunKeeps(b, statements);
    LedgerLaws.CommitTotal(b.ledger, w.value.ledger, i);
  }

  /** In every later state the fills of an order never exceed its latest cumulative quantity. */
  lemma NeverOverfilled(history: seq<seq<Statement>>, order: LedgerGuards.OrderId)
    ensures LedgerLaws.NotOverfilled(History(Empty, history).ledger, order)
  {
    hide History, LedgerLaws.NotOverfilled;
    HistoryBooks(history);
  }

  /** After a cancelled, expired or rejected event no fill is ever committed for the order. */
  lemma NoFillAfterEnd(earlier: seq<seq<Statement>>, later: seq<seq<Statement>>, order: LedgerGuards.OrderId)
    requires exists e | e in Select(History(Empty, earlier).ledger.orderEvents, order) ::
               e.body.to in {LedgerGuards.Cancelled, LedgerGuards.Expired, LedgerGuards.Rejected}
    ensures var b, t := History(Empty, earlier).ledger, History(Empty, earlier + later).ledger;
            && b.fills <= t.fills
            && (forall i | |b.fills| <= i < |t.fills| :: t.fills[i].order != order)
            && LedgerGuards.FillTotal(t.fills, order) == LedgerGuards.FillTotal(b.fills, order)
  {
    hide History, LedgerGuards.FillTotal, AccountGuards.Evolves, ReservationGuards.Evolves, Select;
    assert LedgerLaws.Ended(History(Empty, earlier).ledger, order);
    HistoryEvolves(earlier, later);
    LedgerLaws.TotalUnchanged(History(Empty, earlier).ledger.fills, History(Empty, earlier + later).ledger.fills, order);
  }

  /** A committed journal transaction keeps exactly its declared postings, balanced, forever. */
  lemma JournalFrozen(
    earlier: seq<seq<Statement>>, later: seq<seq<Statement>>,
    j: Entry<LedgerGuards.AccountId, Event<LedgerGuards.Posted>>)
    requires j in History(Empty, earlier).ledger.journals
    ensures var b, t := History(Empty, earlier).ledger, History(Empty, earlier + later).ledger;
            && j in t.journals
            && Select(t.postings, j.row.body.id) == Select(b.postings, j.row.body.id)
            && |Select(t.postings, j.row.body.id)| == j.row.body.postingCount
            && LedgerLaws.Balanced(t, j.row.body)
  {
    hide History, LedgerLaws.Ended, LedgerLaws.Paired, LedgerLaws.Structure, Select, LedgerGuards.GroupBalanced;
    hide AccountGuards.Evolves, ReservationGuards.Evolves, StrategyLaws.Evolves;
    HistoryEvolves(earlier, later);
    HistoryBooks(earlier + later);
  }

  /** Per account and commodity, debits minus credits over the whole history are zero. */
  lemma TrialBalanceZero(history: seq<seq<Statement>>, account: LedgerGuards.AccountId, commodity: string)
    ensures var t := History(Empty, history).ledger;
            TrialBalance.NetOver(t.postings, TrialBalance.TransactionsOf(t, account), commodity) == 0.0
  {
    hide History, LedgerLaws.Books, TrialBalance.NetOver, TrialBalance.TransactionsOf;
    HistoryBooks(history);
    TrialBalance.TrialBalanceIsZero(History(Empty, history).ledger, account, commodity);
  }

  lemma HistoryExactStrategies(history: seq<seq<Statement>>)
    ensures StrategyLaws.Exact(History(Empty, history).strategies)
  {
    hide History, StrategyLaws.Exact;
    HistoryCommitted(history);
  }

  /** The first `version` audit events spell a legal run from draft to the row's stage, bound where it must be. */
  lemma StrategyRun(history: seq<seq<Statement>>, key: StrategyGuards.Key)
    requires key in History(Empty, history).strategies.rows
    ensures var t := History(Empty, history).strategies;
            var log, row := StrategyGuards.Log(t, key), t.rows[key];
            && StrategyLaws.Spells(log, row.version)
            && log[row.version - 1].body.to == row.stage
            && StrategyLaws.AuditsBound(t, key, row.identity, row.version)
            && StrategyLaws.RowBound(t, key, row)
            && (row.stage == StrategyGuards.PaperEligible ==> row.version % 4 == 0)
  {
    hide History, Select, ChainOk, StrategyLaws.Bound, StrategyGuards.Legal, StrategyLaws.AuditsBound;
    HistoryExactStrategies(history);
    var t := History(Empty, history).strategies;
    assert StrategyLaws.Audited(t, key, t.rows[key]);
    StrategyLaws.EligibleAtFourth(t, key);
  }

  /** Between two successive visits to paper-eligible lie exactly suspended, evaluating, shadow. */
  lemma EligibleVisits(history: seq<seq<Statement>>, key: StrategyGuards.Key, i: nat, j: nat)
    requires var t := History(Empty, history).strategies;
      && key in t.rows && i < j < t.rows[key].version && j < |StrategyGuards.Log(t, key)|
      && StrategyGuards.Log(t, key)[i].body.to == StrategyGuards.PaperEligible
      && StrategyGuards.Log(t, key)[j].body.to == StrategyGuards.PaperEligible
      && forall k | i < k < j :: StrategyGuards.Log(t, key)[k].body.to != StrategyGuards.PaperEligible
    ensures var log := StrategyGuards.Log(History(Empty, history).strategies, key);
            && j == i + 4
            && log[i + 1].body.to == StrategyGuards.Suspended
            && log[i + 2].body.to == StrategyGuards.Evaluating
            && log[i + 3].body.to == StrategyGuards.Shadow
  {
    hide History, Select, StrategyLaws.Exact;
    HistoryExactStrategies(history);
    StrategyLaws.SuccessiveVisits(History(Empty, history).strategies, key, i, j);
  }
}

/**
 What the ledger's triggers keep: per statement (`ExecKeeps`) and per commit (`CommitKeeps`).
 `Within(b, t)` relates a transaction's working state `t` to the committed state `b` it began in.
 */
module LedgerLaws {
  import opened Wrappers
  import opened Sql
  import opened Chain
  import opened LedgerGuards

  // Order logs

  ghost predicate Rising(log: seq<Event<Progress>>) {
    forall i, j | 0 <= i < j < |log| :: log[i].body.cumulative <= log[j].body.cumulative
  }

  /** The statuses spell a run of the order state machine. */
  ghost predicate LegalRun(log: seq<Event<Progress>>) {
    && (log != [] ==> log[0].body.from == Created)
    && (forall i | 0 <= i < |log| :: Allowed(log[i].body.from, log[i].body.to))
    && (forall i, j | 0 <= i && j == i + 1 && j < |log| :: log[j].body.from == log[i].body.to)
  }

  ghost predicate OrderLogOk(log: seq<Event<Progress>>) {
    ChainOk(log) && InOrder(log) && Rising(log) && LegalRun(log)
  }

  predicate Final(s: Status) {
    s.Cancelled? || s.Expired? || s.Rejected?
  }

  /** The order has a cancelled, expired or rejected event. */
  ghost predicate Ended(t: Tables, order: OrderId) {
    exists e | e in Select(t.orderEvents, order) :: Final(e.body.to)
  }

  lemma RunGrows(log: seq<Event<Progress>>, e: Event<Progress>)
    requires Rising(log) && LegalRun(log) && Allowed(e.body.from, e.body.to)
    requires log == [] ==> e.body.from == Created
    requires log != [] ==> !Raises(ProgressStep(Some(log[|log| - 1]), e))
    ensures Rising(log + [e]) && LegalRun(log + [e])
    ensures log != [] ==> log[|log| - 1].at <= e.at
  {
    hide Allowed;
    var grown := log + [e];
    forall i, j | 0 <= i < j < |grown| ensures grown[i].body.cumulative <= grown[j].body.cumulative {
      if j == |log| && i < |log| - 1 {
        assert log[i].body.cumulative <= log[|log| - 1].body.cumulative;
      }
    }
    assert forall i | 0 <= i < |log| :: grown[i] == log[i];
  }

  lemma OrderLogGrows(log: seq<Event<Progress>>, e: Event<Progress>)
    requires OrderLogOk(log) && ProgressAdmitted(log, e)
    ensures OrderLogOk(log + [e])
  {
    hide ChainOk, InOrder, Rising, LegalRun, Allowed, Admitted, Latest, ProgressStep;
    AdmittedExtends(log, e, Of(e.body.from != Created), ProgressStep(Latest(log), e));
    RunGrows(log, e);
    TimeExtends(log, e);
  }

  /** Nothing follows a final status. */
  lemma FinalIsLast(log: seq<Event<Progress>>, e: Event<Progress>)
    requires LegalRun(log) && e in log && Final(e.body.to)
    ensures log[|log| - 1] == e
  {
    forall i | 0 <= i < |log| - 1 ensures !Final(log[i].body.to) {
      assert log[i + 1].body.from == log[i].body.to;
      assert Allowed(log[i + 1].body.from, log[i + 1].body.to);
    }
  }

  // Journal logs and keys

  ghost predicate JournalLogOk(log: seq<Event<Posted>>) {
    ChainOk(log) && InOrder(log)
  }

  lemma JournalLogGrows(log: seq<Event<Posted>>, e: Event<Posted>)
    requires JournalLogOk(log) && Admitted(log, e, False, JournalStep(Latest(log), e))
    ensures JournalLogOk(log + [e])
  {
    hide ChainOk, InOrder, Admitted, Latest;
    AdmittedExtends(log, e, False, JournalStep(Latest(log), e));
    TimeExtends(log, e);
  }

  ghost predicate FillKeys(fills: seq<Fill>) {
    forall i, j | 0 <= i < j < |fills| :: fills[i].id != fills[j].id
  }

  ghost predicate JournalKeys(journals: seq<Entry<AccountId, Event<Posted>>>) {
    forall i, j | 0 <= i < j < |journals| ::
      journals[i].row.body.id != journals[j].row.body.id && journals[i].row.body.fill != journals[j].row.body.fill
  }

  /** Every posting's transaction exists. */
  ghost predicate PostingsOwned(t: Tables) {
    forall p | p in t.postings :: exists j | j in t.journals :: j.row.body.id == p.key
  }

  ghost predicate OrderLogs(t: Tables) {
    forall order :: OrderLogOk(Select(t.orderEvents, order))
  }

  ghost predicate JournalLogs(t: Tables) {
    forall account :: JournalLogOk(Select(t.journals, account))
  }

  ghost predicate Structure(t: Tables) {
    FillKeys(t.fills) && JournalKeys(t.journals) && PostingsOwned(t) && OrderLogs(t) && JournalLogs(t)
  }

  ghost predicate AppendOnly(b: Tables, t: Tables) {
    b.orderEvents <= t.orderEvents && b.fills <= t.fills && b.journals <= t.journals && b.postings <= t.postings
  }

  /** Everything added since `b` is queued for its deferred trigger. */
  ghost predicate Queued(b: Tables, t: Tables) {
    && (forall i | |b.fills| <= i < |t.fills| :: t.fills[i].id in t.fillsDue)
    && (forall i | |b.journals| <= i < |t.journals| ::
          t.journals[i].row.body.fill in t.fillsDue && t.journals[i].row.body.id in t.journalsDue)
    && (forall i | |b.postings| <= i < |t.postings| :: t.postings[i].key in t.journalsDue)
  }

  ghost predicate Within(b: Tables, t: Tables) {
    Structure(t) && AppendOnly(b, t) && Queued(b, t)
  }

  lemma ProgressKeeps(t: Tables, s: Statement)
    requires Structure(t) && s.RecordProgress? && Exec(t, s).Some?
    ensures Structure(Exec(t, s).value)
  {
    hide OrderLogOk, JournalLogOk, ProgressAdmitted, Select, FillKeys, JournalKeys;
    var u := Exec(t, s).value;
    forall order ensures OrderLogOk(Select(u.orderEvents, order)) {
      assert OrderLogOk(Select(t.orderEvents, order));
      SelectAppend(t.orderEvents, Entry(s.order, s.progress), order);
      if order == s.order {
        OrderLogGrows(Select(t.orderEvents, order), s.progress);
      }
    }
  }

  lemma FillKeeps(t: Tables, s: Statement)
    requires Structure(t) && s.RecordFill? && Exec(t, s).Some?
    ensures Structure(Exec(t, s).value)
  {
    hide OrderLogOk, JournalLogOk, JournalKeys;
    assert forall i | 0 <= i < |t.fills| :: t.fills[i] in t.fills;
  }

  lemma JournalKeysGrow(t: Tables, account: AccountId, e: Event<Posted>)
    requires JournalKeys(t.journals) && JournalAdmitted(t, account, e)
    ensures JournalKeys(t.journals + [Entry(account, e)])
  {
    hide Admitted, Latest, Select;
    assert forall i | 0 <= i < |t.journals| :: t.journals[i] in t.journals;
  }

  lemma JournalLogsGrow(t: Tables, account: AccountId, e: Event<Posted>)
    requires JournalLogs(t) && JournalAdmitted(t, account, e)
    ensures JournalLogs(t.(journals := t.journals + [Entry(account, e)]))
  {
    hide Admitted, Latest, Select, JournalLogOk, JournalStep;
    forall a ensures JournalLogOk(Select(t.journals + [Entry(account, e)], a)) {
      assert JournalLogOk(Select(t.journals, a));
      SelectAppend(t.journals, Entry(account, e), a);
      if a == account {
        JournalLogGrows(Select(t.journals, a), e);
      }
    }
  }

  lemma JournalKeeps(t: Tables, s: Statement)
    requires Structure(t) && s.PostJournal? && Exec(t, s).Some?
    ensures Structure(Exec(t, s).value)
  {
    hide JournalLogOk, OrderLogOk, JournalAdmitted, JournalKeys, Select;
    var u := Exec(t, s).value;
    JournalKeysGrow(t, s.account, s.journal);
    JournalLogsGrow(t, s.account, s.journal);
    forall p | p in u.postings ensures exists j | j in u.journals :: j.row.body.id == p.key {
      var j :| j in t.journals && j.row.body.id == p.key;
      assert j in u.journals;
    }
  }

  lemma PostingKeeps(t: Tables, s: Statement)
    requires Structure(t) && s.AddPosting? && Exec(t, s).Some?
    ensures Structure(Exec(t, s).value)
  {
    hide JournalLogOk, OrderLogOk, JournalKeys, Select, PostingChecks;
  }

  lemma StructureKept(t: Tables, s: Statement)
    requires Structure(t) && Exec(t, s).Some?
    ensures Structure(Exec(t, s).value)
  {
    hide Structure, Exec;
    match s
    case RecordProgress(_, _) => ProgressKeeps(t, s);
    case RecordFill(_) => FillKeeps(t, s);
    case PostJournal(_, _) => JournalKeeps(t, s);
    case AddPosting(_, _) => PostingKeeps(t, s);
  }

  lemma QueueKept(b: Tables, t: Tables, s: Statement)
    requires AppendOnly(b, t) && Queued(b, t) && Exec(t, s).Some?
    ensures AppendOnly(b, Exec(t, s).value) && Queued(b, Exec(t, s).value)
  {
    hide ProgressAdmitted, JournalAdmitted, PostingAdmitted, Select;
  }

  lemma ExecKeeps(b: Tables, t: Tables, s: Statement)
    requires Within(b, t) && Exec(t, s).Some?
    ensures Within(b, Exec(t, s).value)
  {
    hide Structure, Exec, AppendOnly, Queued;
    StructureKept(t, s);
    QueueKept(b, t, s);
  }

  // Committed states

  /** Fills and journal transactions name each other, with the same order and account. */
  ghost predicate Paired(t: Tables) {
    FillsBooked(t) && JournalsSourced(t)
  }

  ghost predicate FillsBooked(t: Tables) {
    forall f | f in t.fills :: exists j | j in t.journals :: Pairs(j, f)
  }

  ghost predicate JournalsSourced(t: Tables) {
    forall j | j in t.journals :: exists f | f in t.fills :: Pairs(j, f)
  }

  /** An order with fills has filled no more than its latest event declares. */
  ghost predicate NotOverfilled(t: Tables, order: OrderId) {
    (exists f | f in t.fills :: f.order == order) ==>
      var log := Select(t.orderEvents, order);
      log != [] && FillTotal(t.fills, order) <= log[|log| - 1].body.cumulative
  }

  /** A journal transaction with exactly its declared postings, balanced in every commodity. */
  ghost predicate Balanced(t: Tables, journal: Posted) {
    var ps := Select(t.postings, journal.id);
    && |ps| == journal.postingCount
    && forall commodity :: GroupBalanced(ps, commodity)
  }

  ghost predicate Books(t: Tables) {
    && Structure(t) && Paired(t)
    && (forall order :: NotOverfilled(t, order))
    && (forall j | j in t.journals :: Balanced(t, j.row.body))
    && t.fillsDue == [] && t.journalsDue == []
  }

  /** What holds between a committed state and any later committed state. */
  ghost predicate Evolves(b: Tables, t: Tables) {
    && AppendOnly(b, t)
    && (forall j | j in b.journals :: Select(t.postings, j.row.body.id) == Select(b.postings, j.row.body.id))
    && (forall order | Ended(b, order) :: Ended(t, order))
    && (forall order, i | Ended(b, order) && |b.fills| <= i < |t.fills| :: t.fills[i].order != order)
  }

  lemma EvolvesTransitive(a: Tables, b: Tables, c: Tables)
    requires Evolves(a, b) && Evolves(b, c)
    ensures Evolves(a, c)
  {
    hide Select, Ended;
    forall order, i | Ended(a, order) && |a.fills| <= i < |c.fills| ensures c.fills[i].order != order {
      assert Ended(b, order);
      if i < |b.fills| {
        assert c.fills[i] == b.fills[i];
      }
    }
    forall j | j in a.journals ensures Select(c.postings, j.row.body.id) == Select(a.postings, j.row.body.id) {
      assert j in b.journals;
    }
  }

  // Fills

  lemma FoundFill(fills: seq<Fill>, f: Fill)
    requires FillKeys(fills) && f in fills
    ensures FindFill(fills, f.id) == Some(f)
  {
    var found := FindFill(fills, f.id);
    var i :| 0 <= i < |fills| && fills[i] == f;
    if found.Some? {
      var k :| 0 <= k < |fills| && fills[k] == found.value;
    }
  }

  lemma FillDuePairs(t: Tables, f: Fill)
    requires Structure(t) && DeferredOk(t) && f in t.fills && f.id in t.fillsDue
    ensures exists j | j in t.journals :: Pairs(j, f)
    ensures TotalAgrees(t, f.order)
  {
    hide FindFill, JournalCount, FillTotal, TotalAgrees, Pairs, JournalComplete, FillKeys;
    FoundFill(t.fills, f);
    assert FillAccounted(t, f.id);
  }

  /** A queued journal names a fill, and the journal that pairs with this fill is itself. */
  lemma JournalDuePairs(t: Tables, j: Entry<AccountId, Event<Posted>>)
    requires Structure(t) && DeferredOk(t) && j in t.journals && j.row.body.fill in t.fillsDue
    ensures exists f | f in t.fills :: Pairs(j, f)
  {
    hide FindFill, JournalCount, FillTotal, TotalAgrees, JournalComplete, OrderLogs, JournalLogs, PostingsOwned;
    assert FillAccounted(t, j.row.body.fill);
    var f := FindFill(t.fills, j.row.body.fill).value;
    var k :| k in t.journals && Pairs(k, f);
    SameFillSameJournal(t.journals, j, k);
  }

  lemma SameFillSameJournal(
    journals: seq<Entry<AccountId, Event<Posted>>>, j: Entry<AccountId, Event<Posted>>, k: Entry<AccountId, Event<Posted>>)
    requires JournalKeys(journals) && j in journals && k in journals
    requires j.row.body.fill == k.row.body.fill || j.row.body.id == k.row.body.id
    ensures j == k
  {
    var x :| 0 <= x < |journals| && journals[x] == j;
    var y :| 0 <= y < |journals| && journals[y] == k;
  }

  lemma CommitPairsFill(b: Tables, t: Tables, f: Fill)
    requires FillsBooked(b) && Within(b, t) && DeferredOk(t) && f in t.fills
    ensures exists j | j in t.journals :: Pairs(j, f)
  {
    hide DeferredOk, Structure, Pairs;
    var i :| 0 <= i < |t.fills| && t.fills[i] == f;
    if i < |b.fills| {
      assert f == b.fills[i] && f in b.fills;
      var j :| j in b.journals && Pairs(j, f);
      assert j in t.journals;
    } else {
      FillDuePairs(t, f);
    }
  }

  lemma CommitPairsJournal(b: Tables, t: Tables, j: Entry<AccountId, Event<Posted>>)
    requires JournalsSourced(b) && Within(b, t) && DeferredOk(t) && j in t.journals
    ensures exists f | f in t.fills :: Pairs(j, f)
  {
    hide DeferredOk, Structure, Pairs;
    var i :| 0 <= i < |t.journals| && t.journals[i] == j;
    if i < |b.journals| {
      assert j == b.journals[i] && j in b.journals;
      var f :| f in b.fills && Pairs(j, f);
      assert f in t.fills;
    } else {
      JournalDuePairs(t, j);
    }
  }

  lemma CommitPairs(b: Tables, t: Tables)
    requires Paired(b) && Within(b, t) && DeferredOk(t)
    ensures Paired(t)
  {
    hide DeferredOk, Within, Pairs;
    forall f | f in t.fills ensures exists j | j in t.journals :: Pairs(j, f) {
      CommitPairsFill(b, t, f);
    }
    forall j | j in t.journals ensures exists f | f in t.fills :: Pairs(j, f) {
      CommitPairsJournal(b, t, j);
    }
  }

  lemma {:induction false} TotalUnchanged(before: seq<Fill>, after: seq<Fill>, order: OrderId)
    requires before <= after && forall i | |before| <= i < |after| :: after[i].order != order
    ensures FillTotal(after, order) == FillTotal(before, order)
    decreases |after|
  {
    if |before| < |after| {
      TotalUnchanged(before, after[..|after| - 1], order);
    } else {
      assert before == after;
    }
  }

  /** The last row of an order's log is its latest event. */
  lemma LatestProgress(t: Tables, order: OrderId)
    requires OrderLogs(t)
    ensures var log := Select(t.orderEvents, order);
            && (log == [] ==> Latest(log).None?)
            && (log != [] ==> Latest(log) == Some(log[|log| - 1]))
  {
    hide Select, InOrder, Rising, LegalRun, ChainOk, Latest;
    assert OrderLogOk(Select(t.orderEvents, order));
    LatestNumber(Select(t.orderEvents, order));
  }

  /** A commit that adds a fill leaves the order's fill total equal to its latest cumulative quantity. */
  lemma CommitTotal(b: Tables, t: Tables, i: nat)
    requires Within(b, t) && DeferredOk(t) && |b.fills| <= i < |t.fills|
    ensures var log := Select(t.orderEvents, t.fills[i].order);
            && log != []
            && FillTotal(t.fills, t.fills[i].order) == log[|log| - 1].body.cumulative
            && log[|log| - 1].body.to in {PartiallyFilled, Filled}
  {
    hide Select, FillTotal, DeferredOk, OrderLogs, Latest, FillKeys, JournalKeys, PostingsOwned, JournalLogs;
    FillDuePairs(t, t.fills[i]);
    LatestProgress(t, t.fills[i].order);
  }

  lemma CumulativeRises(b: Tables, t: Tables, order: OrderId)
    requires Within(b, t)
    ensures var was, log := Select(b.orderEvents, order), Select(t.orderEvents, order);
            was <= log
            && (was != [] ==> log != [] && was[|was| - 1].body.cumulative <= log[|log| - 1].body.cumulative)
  {
    hide Select, ChainOk, InOrder, LegalRun;
    SelectGrows(b.orderEvents, t.orderEvents, order);
    assert OrderLogOk(Select(t.orderEvents, order));
  }

  lemma CommitNotOverfilled(b: Tables, t: Tables, order: OrderId)
    requires NotOverfilled(b, order) && Within(b, t) && DeferredOk(t)
    ensures NotOverfilled(t, order)
  {
    hide Select, FillTotal, DeferredOk, Structure, Queued;
    if f :| f in t.fills && f.order == order {
      var i :| 0 <= i < |t.fills| && t.fills[i] == f;
      if k: nat :| |b.fills| <= k < |t.fills| && t.fills[k].order == order {
        CommitTotal(b, t, k);
      } else {
        assert f == b.fills[i] && f in b.fills;
        TotalUnchanged(b.fills, t.fills, order);
        CumulativeRises(b, t, order);
      }
    }
  }

  /** Once an order has ended, its log is closed and no commit adds a fill to it. */
  lemma CommitAfterEnd(b: Tables, t: Tables, order: OrderId)
    requires Within(b, t) && DeferredOk(t) && Ended(b, order)
    ensures Ended(t, order)
    ensures forall i | |b.fills| <= i < |t.fills| :: t.fills[i].order != order
  {
    hide Select, FillTotal, DeferredOk, Queued, ChainOk, InOrder, Rising, LegalRun;
    var e :| e in Select(b.orderEvents, order) && Final(e.body.to);
    var log := Select(t.orderEvents, order);
    SelectGrows(b.orderEvents, t.orderEvents, order);
    assert e in log;
    assert OrderLogOk(log);
    FinalIsLast(log, e);
    forall i: nat | |b.fills| <= i < |t.fills| ensures t.fills[i].order != order {
      CommitTotal(b, t, i);
    }
  }

  // Journal

  lemma {:induction false} NetAbsent(ps: seq<Posting>, commodity: string)
    requires forall p | p in ps :: p.commodity != commodity
    ensures Net(ps, commodity) == 0.0
  {
    if ps != [] {
      var n := |ps| - 1;
      assert forall p | p in ps[..n] :: p in ps;
      NetAbsent(ps[..n], commodity);
      assert ps[n] in ps;
    }
  }

  lemma EveryGroup(ps: seq<Posting>, commodity: string)
    requires forall p | p in ps :: GroupBalanced(ps, p.commodity)
    ensures GroupBalanced(ps, commodity)
  {
    if p :| p in ps && p.commodity == commodity {
    } else {
      NetAbsent(ps, commodity);
    }
  }

  lemma FoundJournal(journals: seq<Entry<AccountId, Event<Posted>>>, j: Entry<AccountId, Event<Posted>>)
    requires JournalKeys(journals) && j in journals
    ensures FindJournal(journals, j.row.body.id) == Some(j.row.body)
  {
    hide FindJournal;
    var found := FindJournal(journals, j.row.body.id);
    if found.Some? {
      var k :| k in journals && k.row.body == found.value;
      SameFillSameJournal(journals, j, k);
    }
  }

  lemma DueBalanced(t: Tables, j: Entry<AccountId, Event<Posted>>)
    requires Structure(t) && DeferredOk(t) && j in t.journals && j.row.body.id in t.journalsDue
    ensures Balanced(t, j.row.body)
  {
    hide Select, FindJournal, GroupBalanced, FillAccounted, JournalKeys;
    assert JournalComplete(t, j.row.body.id);
    FoundJournal(t.journals, j);
    forall commodity ensures GroupBalanced(Select(t.postings, j.row.body.id), commodity) {
      EveryGroup(Select(t.postings, j.row.body.id), commodity);
    }
  }

  lemma {:induction false} SelectSame<K, V>(before: seq<Entry<K, V>>, after: seq<Entry<K, V>>, key: K)
    requires before <= after && forall i | |before| <= i < |after| :: after[i].key != key
    ensures Select(after, key) == Select(before, key)
    decreases |after|
  {
    if |before| < |after| {
      SelectSame(before, after[..|after| - 1], key);
    } else {
      assert before == after;
    }
  }

  /** A committed transaction's postings can never change again: one more would break its count. */
  lemma CommitFreezes(b: Tables, t: Tables, j: Entry<AccountId, Event<Posted>>)
    requires Within(b, t) && DeferredOk(t) && j in b.journals && Balanced(b, j.row.body)
    ensures Select(t.postings, j.row.body.id) == Select(b.postings, j.row.body.id)
    ensures Balanced(t, j.row.body)
  {
    hide Select, GroupBalanced, DeferredOk, Structure;
    var id := j.row.body.id;
    if id in t.journalsDue {
      assert j in t.journals;
      DueBalanced(t, j);
      SelectGrows(b.postings, t.postings, id);
    } else {
      SelectSame(b.postings, t.postings, id);
    }
  }

  lemma CommitBalances(b: Tables, t: Tables, j: Entry<AccountId, Event<Posted>>)
    requires Books(b) && Within(b, t) && DeferredOk(t) && j in t.journals
    ensures Balanced(t, j.row.body)
  {
    hide Balanced, Structure, Paired, NotOverfilled, DeferredOk;
    var i :| 0 <= i < |t.journals| && t.journals[i] == j;
    if i < |b.journals| {
      assert j == b.journals[i] && j in b.journals;
      CommitFreezes(b, t, j);
    } else {
      DueBalanced(t, j);
    }
  }

  lemma SettledBooks(t: Tables)
    requires Structure(t) && Paired(t)
    requires forall order :: NotOverfilled(t, order)
    requires forall j | j in t.journals :: Balanced(t, j.row.body)
    ensures Books(Settle(t))
  {
    hide OrderLogOk, JournalLogOk, FillKeys, JournalKeys, Select, FillTotal, GroupBalanced, Pairs;
    var u := Settle(t);
    forall order ensures NotOverfilled(u, order) {
      assert NotOverfilled(t, order);
    }
    forall j | j in u.journals ensures Balanced(u, j.row.body) {
      assert Balanced(t, j.row.body);
    }
  }

  lemma CommitKeeps(b: Tables, t: Tables)
    requires Books(b) && Within(b, t) && DeferredOk(t)
    ensures Books(Settle(t))
  {
    hide Structure, AppendOnly, Queued, Paired, NotOverfilled, Balanced, DeferredOk;
    CommitPairs(b, t);
    forall order ensures NotOverfilled(t, order) {
      CommitNotOverfilled(b, t, order);
    }
    forall j | j in t.journals ensures Balanced(t, j.row.body) {
      CommitBalances(b, t, j);
    }
    SettledBooks(t);
  }

  lemma CommitEvolves(b: Tables, t: Tables)
    requires Books(b) && Within(b, t) && DeferredOk(t)
    ensures Evolves(b, Settle(t))
  {
    hide Structure, Queued, Paired, NotOverfilled, Balanced, DeferredOk, Select;
    forall j | j in b.journals ensures Select(t.postings, j.row.body.id) == Select(b.postings, j.row.body.id) {
      CommitFreezes(b, t, j);
    }
    forall order | Ended(b, order)
      ensures Ended(Settle(t), order)
      ensures forall i | |b.fills| <= i < |t.fills| :: t.fills[i].order != order
    {
      CommitAfterEnd(b, t, order);
    }
  }

  /** The empty ledger is in order, and every transaction begins within itself. */
  lemma BooksBegin(b: Tables)
    requires Books(b)
    ensures Within(b, b)
  {
    hide Structure;
  }

  lemma EmptyBooks()
    ensures Books(Empty)
  {
    forall order: OrderId ensures Select(Empty.orderEvents, order) == [] && Select(Empty.journals, order) == [] {
    }
  }
}

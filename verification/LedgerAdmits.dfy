/** The ledger's guards accept exactly these rows: fills, order events, journal rows and postings, column by column. */
module LedgerAdmits {
  import opened Wrappers
  import opened Sql
  import opened Chain
  import opened LedgerGuards
  import opened LedgerLaws
  import opened Sums

  /** The steps an order may take. */
  const Steps: set<(Status, Status)> := {
    (Created, Accepted), (Created, Rejected), (Created, Cancelled), (Created, Expired),
    (Accepted, PartiallyFilled), (Accepted, Filled), (Accepted, Cancelled), (Accepted, Expired),
    (PartiallyFilled, PartiallyFilled), (PartiallyFilled, Filled), (PartiallyFilled, Cancelled),
    (PartiallyFilled, Expired)
  }

  lemma StepsAllowed(from: Status, to: Status)
    ensures Allowed(from, to) <==> (from, to) in Steps
  {
  }

  /** The legal next event of an order. */
  ghost predicate NextProgress(log: seq<Event<Progress>>, e: Event<Progress>) {
    && e.sequence == |log| + 1
    && (e.body.from, e.body.to) in Steps
    && if log == [] then e.previous == None && e.body.from == Created
       else
         var last := log[|log| - 1];
         && e.previous == Some(last.hash) && e.body.from == last.body.to
         && last.body.cumulative <= e.body.cumulative && last.at <= e.at
  }

  /** The order trigger and CHECKs admit exactly the legal next event of the order. */
  lemma ProgressExactly(log: seq<Event<Progress>>, e: Event<Progress>)
    requires OrderLogOk(log)
    ensures ProgressAdmitted(log, e) <==> NextProgress(log, e)
  {
    hide ChainOk, InOrder, Rising, LegalRun, Allowed, Admitted, Latest;
    LatestNumber(log);
    AdmittedExactly(log, e, Of(e.body.from != Created), ProgressStep(Latest(log), e));
    StepsAllowed(e.body.from, e.body.to);
  }

  lemma ProgressesExactly(t: Tables, order: OrderId, e: Event<Progress>)
    requires OrderLogs(t)
    ensures Exec(t, RecordProgress(order, e)) ==
      if NextProgress(Select(t.orderEvents, order), e)
      then Some(t.(orderEvents := t.orderEvents + [Entry(order, e)])) else None
  {
    hide OrderLogOk, ProgressAdmitted, Select, NextProgress;
    ProgressExactly(Select(t.orderEvents, order), e);
  }

  lemma FillsExactly(t: Tables, fill: Fill)
    ensures Exec(t, RecordFill(fill)) ==
      if forall f | f in t.fills :: f.id != fill.id
      then Some(t.(fills := t.fills + [fill], fillsDue := t.fillsDue + [fill.id])) else None
  {
  }

  /** The next row of an account's journal. */
  ghost predicate NextEntry(log: seq<Event<Posted>>, e: Event<Posted>) {
    && e.sequence == |log| + 1
    && if log == [] then e.previous == None
       else e.previous == Some(log[|log| - 1].hash) && log[|log| - 1].at <= e.at
  }

  /** No journal row uses the id or books the fill of this one. */
  ghost predicate UnusedKeys(journals: seq<Entry<AccountId, Event<Posted>>>, e: Posted) {
    forall j | j in journals :: j.row.body.id != e.id && j.row.body.fill != e.fill
  }

  /** A journal row is admitted exactly when it is its account's next, under unused keys, for a known fill. */
  lemma JournalExactly(t: Tables, account: AccountId, e: Event<Posted>)
    requires JournalLogs(t)
    ensures JournalAdmitted(t, account, e) <==>
      && NextEntry(Select(t.journals, account), e) && e.body.postingCount >= 2
      && UnusedKeys(t.journals, e.body) && (exists f | f in t.fills :: f.id == e.body.fill)
  {
    hide ChainOk, InOrder, Admitted, Latest, Select;
    var log := Select(t.journals, account);
    assert JournalLogOk(log);
    LatestNumber(log);
    AdmittedExactly(log, e, False, JournalStep(Latest(log), e));
  }

  lemma PostsExactly(t: Tables, account: AccountId, e: Event<Posted>)
    requires JournalLogs(t)
    ensures Exec(t, PostJournal(account, e)) ==
      if NextEntry(Select(t.journals, account), e) && e.body.postingCount >= 2
         && UnusedKeys(t.journals, e.body) && exists f | f in t.fills :: f.id == e.body.fill
      then Some(t.(journals := t.journals + [Entry(account, e)],
                   fillsDue := t.fillsDue + [e.body.fill],
                   journalsDue := t.journalsDue + [e.body.id]))
      else None
  {
    hide JournalLogs, JournalAdmitted, Select, NextEntry, UnusedKeys;
    JournalExactly(t, account, e);
  }

  /** A posting in whole quanta of its commodity. */
  ghost predicate Postable(p: Posting) {
    p.index >= 0 && p.amount > 0.0 && p.quantum > 0.0 && Whole(p.amount, p.quantum)
  }

  lemma PostableIs(p: Posting)
    ensures PostingChecks(p) <==> Postable(p)
  {
    hide IsMultiple, Whole;
    if p.quantum > 0.0 {
      WholeIs(p.amount, p.quantum);
    }
  }

  lemma AddsExactly(t: Tables, id: TransactionId, p: Posting)
    ensures Exec(t, AddPosting(id, p)) ==
      if Postable(p) && (exists j | j in t.journals :: j.row.body.id == id)
         && forall q | q in t.postings && q.key == id :: q.row.index != p.index
      then Some(t.(postings := t.postings + [Entry(id, p)], journalsDue := t.journalsDue + [id]))
      else None
  {
    hide PostingChecks, Postable;
    PostableIs(p);
  }

  // Totals

  /** What one fill adds to an order. */
  function FilledFor(order: OrderId): Fill -> real {
    (f: Fill) => if f.order == order then f.quantity else 0.0
  }

  lemma {:induction false} TotalIs(fills: seq<Fill>, order: OrderId)
    ensures FillTotal(fills, order) == Sum(fills, FilledFor(order))
  {
    if fills != [] {
      TotalIs(fills[..|fills| - 1], order);
    }
  }

  /** What one posting adds to a commodity: debits count up, credits down. */
  function PostedIn(commodity: string): Posting -> real {
    (p: Posting) => if p.commodity != commodity then 0.0 else if p.side == Debit then p.amount else -p.amount
  }

  lemma {:induction false} NetIs(ps: seq<Posting>, commodity: string)
    ensures Net(ps, commodity) == Sum(ps, PostedIn(commodity))
  {
    if ps != [] {
      NetIs(ps[..|ps| - 1], commodity);
    }
  }

  // A whole booking

  /** A fill and everything the deferred triggers will ask for. */
  datatype Booking = Booking(
    progress: Event<Progress>,
    fill: Fill,
    account: AccountId,
    journal: Event<Posted>,
    first: Posting,
    second: Posting)

  /** Two postings of the same amount of the same commodity, one on either side, under different indexes. */
  ghost predicate Opposite(p: Posting, q: Posting) {
    && p.index != q.index && p.commodity == q.commodity && p.amount == q.amount && p.quantum == q.quantum
    && ((p.side == Debit && q.side == Credit) || (p.side == Credit && q.side == Debit))
  }

  /** The order event is the next one, a fill event, and declares exactly what the fills then add up to. */
  ghost predicate ProgressFits(t: Tables, b: Booking) {
    && NextProgress(Select(t.orderEvents, b.fill.order), b.progress)
    && b.progress.body.to in {PartiallyFilled, Filled}
    && b.progress.body.cumulative == Sum(t.fills, FilledFor(b.fill.order)) + b.fill.quantity
  }

  /** The journal row is the next of the fill's account, under a new id, and names the fill and its order. */
  ghost predicate JournalFits(t: Tables, b: Booking) {
    && NextEntry(Select(t.journals, b.account), b.journal)
    && b.account == b.fill.account && b.journal.body.order == b.fill.order && b.journal.body.fill == b.fill.id
    && b.journal.body.postingCount == 2
    && forall j | j in t.journals :: j.row.body.id != b.journal.body.id
  }

  /** The booking fits the committed ledger. */
  ghost predicate Fits(t: Tables, b: Booking) {
    && (forall f | f in t.fills :: f.id != b.fill.id)
    && ProgressFits(t, b) && JournalFits(t, b)
    && Postable(b.first) && Postable(b.second) && Opposite(b.first, b.second)
  }

  /** The tables after the booking's five inserts. */
  function Booked(t: Tables, b: Booking): Tables {
    var id := b.journal.body.id;
    Tables(
      t.orderEvents + [Entry(b.fill.order, b.progress)],
      t.fills + [b.fill],
      t.journals + [Entry(b.account, b.journal)],
      t.postings + [Entry(id, b.first)] + [Entry(id, b.second)],
      t.fillsDue + [b.fill.id] + [b.journal.body.fill],
      t.journalsDue + [id] + [id] + [id])
  }

  function Then(r: Option<Tables>, s: Statement): Option<Tables> {
    if r.None? then None else Exec(r.value, s)
  }

  /** The five inserts of a booking, in an order that their foreign keys allow. */
  function Inserts(t: Tables, b: Booking): Option<Tables> {
    var id := b.journal.body.id;
    var recorded := Then(Exec(t, RecordProgress(b.fill.order, b.progress)), RecordFill(b.fill));
    Then(Then(Then(recorded, PostJournal(b.account, b.journal)), AddPosting(id, b.first)), AddPosting(id, b.second))
  }

  /** What the inserts of a booking ask for one by one, before any deferred trigger. */
  ghost predicate Insertable(t: Tables, b: Booking) {
    && NextProgress(Select(t.orderEvents, b.fill.order), b.progress)
    && (forall f | f in t.fills :: f.id != b.fill.id)
    && NextEntry(Select(t.journals, b.account), b.journal) && b.journal.body.postingCount >= 2
    && UnusedKeys(t.journals, b.journal.body) && (exists f | f in t.fills + [b.fill] :: f.id == b.journal.body.fill)
    && Postable(b.first) && Postable(b.second) && b.first.index != b.second.index
  }

  lemma InsertsExactly(t: Tables, b: Booking)
    requires Books(t)
    ensures Inserts(t, b) == if Insertable(t, b) then Some(Booked(t, b)) else None
  {
    hide Exec, Paired, NotOverfilled, Balanced, Select, NextProgress, NextEntry, Postable;
    hide FillKeys, JournalKeys, PostingsOwned, OrderLogs, JournalLogs;
    var id := b.journal.body.id;
    ProgressesExactly(t, b.fill.order, b.progress);
    var t1 := t.(orderEvents := t.orderEvents + [Entry(b.fill.order, b.progress)]);
    FillsExactly(t1, b.fill);
    var t2 := t1.(fills := t1.fills + [b.fill], fillsDue := t1.fillsDue + [b.fill.id]);
    SameJournals(t, t2);
    PostsExactly(t2, b.account, b.journal);
    var j := Entry(b.account, b.journal);
    var t3 := t2.(journals := t2.journals + [j], fillsDue := t2.fillsDue + [b.journal.body.fill],
                  journalsDue := t2.journalsDue + [id]);
    AddsExactly(t3, id, b.first);
    var t4 := t3.(postings := t3.postings + [Entry(id, b.first)], journalsDue := t3.journalsDue + [id]);
    AddsExactly(t4, id, b.second);
    assert j in t3.journals && j in t4.journals;
    if UnusedKeys(t.journals, b.journal.body) {
      NoPostingsYet(t, id);
      assert Entry(id, b.first) in t4.postings;
    }
  }

  lemma SameJournals(t: Tables, u: Tables)
    requires JournalLogs(t) && u.journals == t.journals
    ensures JournalLogs(u)
  {
    hide JournalLogOk, Select;
  }

  /** A transaction id that no journal row has used has no postings. */
  lemma NoPostingsYet(t: Tables, id: TransactionId)
    requires Books(t) && forall j | j in t.journals :: j.row.body.id != id
    ensures forall p | p in t.postings :: p.key != id
    ensures Select(t.postings, id) == []
  {
    hide OrderLogs, JournalLogs, Paired, NotOverfilled, Balanced, FillKeys, JournalKeys;
    forall p | p in t.postings ensures p.key != id {
      var j :| j in t.journals && j.row.body.id == p.key;
    }
    SelectSame([], t.postings, id);
  }

  lemma {:induction false} CountNone(journals: seq<Entry<AccountId, Event<Posted>>>, fill: FillId)
    requires forall j | j in journals :: j.row.body.fill != fill
    ensures JournalCount(journals, fill) == 0
  {
    if journals != [] {
      assert journals[0] in journals;
      CountNone(journals[1..], fill);
    }
  }

  lemma {:induction false} CountOne(
    journals: seq<Entry<AccountId, Event<Posted>>>, j: Entry<AccountId, Event<Posted>>)
    requires forall k | k in journals :: k.row.body.fill != j.row.body.fill
    ensures JournalCount(journals + [j], j.row.body.fill) == 1
  {
    if journals == [] {
      CountNone([], j.row.body.fill);
      assert ([] + [j])[1..] == [];
    } else {
      assert journals[0] in journals;
      assert (journals + [j])[1..] == journals[1..] + [j];
      CountOne(journals[1..], j);
    }
  }

  lemma BookedStructure(t: Tables, b: Booking)
    requires Books(t) && Insertable(t, b)
    ensures Structure(Booked(t, b))
  {
    hide Structure, Exec, Insertable, Booked, Paired, NotOverfilled, Balanced;
    InsertsExactly(t, b);
    var id := b.journal.body.id;
    StructureKept(t, RecordProgress(b.fill.order, b.progress));
    var t1 := Exec(t, RecordProgress(b.fill.order, b.progress)).value;
    StructureKept(t1, RecordFill(b.fill));
    var t2 := Exec(t1, RecordFill(b.fill)).value;
    StructureKept(t2, PostJournal(b.account, b.journal));
    var t3 := Exec(t2, PostJournal(b.account, b.journal)).value;
    StructureKept(t3, AddPosting(id, b.first));
    StructureKept(Exec(t3, AddPosting(id, b.first)).value, AddPosting(id, b.second));
  }

  /** The order's total agrees exactly when the order event is a fill event that declares the new total. */
  lemma BookedTotal(t: Tables, b: Booking)
    requires Structure(Booked(t, b))
    ensures TotalAgrees(Booked(t, b), b.fill.order) <==>
      && b.progress.body.to in {PartiallyFilled, Filled}
      && b.progress.body.cumulative == Sum(t.fills, FilledFor(b.fill.order)) + b.fill.quantity
  {
    hide Latest, FillKeys, JournalKeys, PostingsOwned, JournalLogs, OrderLogs, Select, Sum;
    var u := Booked(t, b);
    SelectAppend(t.orderEvents, Entry(b.fill.order, b.progress), b.fill.order);
    LatestProgress(u, b.fill.order);
    assert u.fills[..|t.fills|] == t.fills;
    TotalIs(t.fills, b.fill.order);
  }

  /** In committed books a fill id that no fill has is booked by no journal row. */
  lemma NotBookedYet(t: Tables, id: FillId)
    requires Paired(t) && forall f | f in t.fills :: f.id != id
    ensures forall j | j in t.journals :: j.row.body.fill != id
  {
    hide FillsBooked;
    forall j | j in t.journals ensures j.row.body.fill != id {
      var f :| f in t.fills && Pairs(j, f);
    }
  }

  /** The fill is accounted for exactly when the journal row names it and its order, and the total agrees. */
  lemma BookedFill(t: Tables, b: Booking)
    requires Books(t) && Structure(Booked(t, b)) && forall f | f in t.fills :: f.id != b.fill.id
    ensures FillAccounted(Booked(t, b), b.fill.id) <==>
      && b.account == b.fill.account && b.journal.body.fill == b.fill.id && b.journal.body.order == b.fill.order
      && TotalAgrees(Booked(t, b), b.fill.order)
  {
    hide FillKeys, JournalKeys, PostingsOwned, JournalLogs, OrderLogs, Select, NotOverfilled, Balanced, Paired;
    hide TotalAgrees, FillTotal, JournalCount, FindFill, Admitted, Latest;
    var u := Booked(t, b);
    NotBookedYet(t, b.fill.id);
    assert b.fill in u.fills;
    FoundFill(u.fills, b.fill);
    var j := Entry(b.account, b.journal);
    assert j in u.journals;
    if b.journal.body.fill == b.fill.id {
      CountOne(t.journals, j);
    }
  }

  lemma PairSums(p: Posting, q: Posting, commodity: string)
    ensures Net([p, q], commodity) == Sum([p], PostedIn(commodity)) + PostedIn(commodity)(q)
    ensures Net([p, q], commodity) == PostedIn(commodity)(p) + PostedIn(commodity)(q)
  {
    NetIs([p, q], commodity);
    assert [p, q][..1] == [p] && [p][..0] == [];
  }

  /** Two postings balance exactly when they are opposite. */
  lemma PairBalances(p: Posting, q: Posting)
    requires p.amount > 0.0 && q.amount > 0.0 && p.index != q.index
    ensures GroupBalanced([p, q], p.commodity) && GroupBalanced([p, q], q.commodity) <==> Opposite(p, q)
  {
    PairSums(p, q, p.commodity);
    PairSums(p, q, q.commodity);
    assert p in [p, q] && q in [p, q];
  }

  lemma BookedJournal(t: Tables, b: Booking)
    requires Books(t) && Structure(Booked(t, b)) && Insertable(t, b)
    ensures JournalComplete(Booked(t, b), b.journal.body.id) <==>
      b.journal.body.postingCount == 2 && Opposite(b.first, b.second)
  {
    hide FillKeys, JournalKeys, PostingsOwned, JournalLogs, OrderLogs, Select, Paired, NextProgress, NextEntry, Whole;
    hide NotOverfilled, Balanced, FindJournal, GroupBalanced, Opposite;
    var u, id := Booked(t, b), b.journal.body.id;
    var j := Entry(b.account, b.journal);
    assert j in u.journals;
    FoundJournal(u.journals, j);
    NoPostingsYet(t, id);
    SelectAppend(t.postings, Entry(id, b.first), id);
    SelectAppend(t.postings + [Entry(id, b.first)], Entry(id, b.second), id);
    var ps := Select(u.postings, id);
    assert ps == [b.first, b.second];
    PairBalances(b.first, b.second);
    assert ps[0] in ps && ps[1] in ps;
  }

  lemma BookedDue(t: Tables, b: Booking)
    requires t.fillsDue == [] && t.journalsDue == []
    ensures DeferredOk(Booked(t, b)) <==>
      && FillAccounted(Booked(t, b), b.fill.id) && FillAccounted(Booked(t, b), b.journal.body.fill)
      && JournalComplete(Booked(t, b), b.journal.body.id)
  {
    hide FillAccounted, JournalComplete;
    var u := Booked(t, b);
    assert u.fillsDue == [b.fill.id, b.journal.body.fill];
    assert u.fillsDue[0] == b.fill.id && u.fillsDue[1] == b.journal.body.fill && u.journalsDue[0] == b.journal.body.id;
  }

  lemma FitsIs(t: Tables, b: Booking)
    requires Books(t)
    ensures Fits(t, b) <==>
      && Insertable(t, b) && ProgressFits(t, b) && b.account == b.fill.account
      && b.journal.body.order == b.fill.order && b.journal.body.fill == b.fill.id
      && b.journal.body.postingCount == 2 && Opposite(b.first, b.second)
  {
    hide Structure, NotOverfilled, Balanced, Paired, NextProgress, NextEntry, Postable, Select, Sum;
    if forall f | f in t.fills :: f.id != b.fill.id {
      NotBookedYet(t, b.fill.id);
    }
    assert b.fill in t.fills + [b.fill];
  }

  /**
   The five inserts of a booking commit from committed books exactly when the booking fits: a new fill, the order's
   next event declaring what the fills then add up to, the account's next journal row naming both, and two opposite
   postings. Then they leave just their rows.
   */
  lemma BookingExactly(t: Tables, b: Booking)
    requires Books(t)
    ensures var w := Inserts(t, b);
            && (w.Some? && DeferredOk(w.value) <==> Fits(t, b))
            && (w.Some? ==> w.value == Booked(t, b))
  {
    hide Structure, Paired, NotOverfilled, Balanced, FillAccounted, JournalComplete, Opposite, Postable, Insertable;
    hide Select;
    hide Inserts, DeferredOk, TotalAgrees, NextProgress, NextEntry, Sum, Booked;
    InsertsExactly(t, b);
    FitsIs(t, b);
    if Insertable(t, b) {
      BookedStructure(t, b);
      BookedTotal(t, b);
      FreshFill(t, b);
      BookedFill(t, b);
      BookedJournal(t, b);
      BookedDue(t, b);
    }
  }

  lemma FreshFill(t: Tables, b: Booking)
    requires Insertable(t, b)
    ensures forall f | f in t.fills :: f.id != b.fill.id
    ensures NextProgress(Select(t.orderEvents, b.fill.order), b.progress)
  {
    hide NextProgress, Select, NextEntry, UnusedKeys, Postable;
  }
}

/** Order events, fills, journal transactions and postings, with their triggers and CHECKs. */
module LedgerGuards {
  import opened Wrappers
  import opened Sql
  import opened Chain

  type OrderId = string
  type FillId = string
  type AccountId = string
  type TransactionId = string

  datatype Status = Created | Accepted | PartiallyFilled | Filled | Rejected | Cancelled | Expired | Unlisted(name: string)

  datatype Progress = Progress(from: Status, to: Status, cumulative: real, remaining: real)

  datatype Fill = Fill(id: FillId, order: OrderId, account: AccountId, quantity: real)

  datatype Posted = Posted(id: TransactionId, order: OrderId, fill: FillId, postingCount: int)

  datatype Side = Debit | Credit

  datatype Posting = Posting(index: int, ledgerAccount: string, commodity: string, side: Side, amount: real, quantum: real)

  /** `fillsDue` and `journalsDue` are the targets of deferred triggers that have not run yet. */
  datatype Tables = Tables(
    orderEvents: seq<Entry<OrderId, Event<Progress>>>,
    fills: seq<Fill>,
    journals: seq<Entry<AccountId, Event<Posted>>>,
    postings: seq<Entry<TransactionId, Posting>>,
    fillsDue: seq<FillId>,
    journalsDue: seq<TransactionId>)

  const Empty := Tables([], [], [], [], [], [])

  datatype Statement =
    | RecordProgress(order: OrderId, progress: Event<Progress>)
    | RecordFill(fill: Fill)
    | PostJournal(account: AccountId, journal: Event<Posted>)
    | AddPosting(transaction: TransactionId, posting: Posting)

  // Order events

  predicate Allowed(from: Status, to: Status) {
    || (from == Created && to in {Accepted, Rejected, Cancelled, Expired})
    || (from == Accepted && to in {PartiallyFilled, Filled, Cancelled, Expired})
    || (from == PartiallyFilled && to in {PartiallyFilled, Filled, Cancelled, Expired})
  }

  function StatusOf(prior: Option<Event<Progress>>): Option<Status> {
    if prior.Some? then Some(prior.value.body.to) else None
  }

  function ProgressStep(prior: Option<Event<Progress>>, e: Event<Progress>): Truth {
    Or(NotEqual(Some(e.body.from), StatusOf(prior)),
       Or(if prior.None? then Unknown else Of(e.body.cumulative < prior.value.body.cumulative),
          Less(Some(e.at), TimeOf(prior))))
  }

  predicate ProgressAdmitted(log: seq<Event<Progress>>, e: Event<Progress>) {
    && Admitted(log, e, Of(e.body.from != Created), ProgressStep(Latest(log), e))
    && Allowed(e.body.from, e.body.to)
  }

  // Journal rows

  function JournalStep(prior: Option<Event<Posted>>, e: Event<Posted>): Truth {
    Less(Some(e.at), TimeOf(prior))
  }

  predicate JournalAdmitted(t: Tables, account: AccountId, e: Event<Posted>) {
    var log := Select(t.journals, account);
    && Admitted(log, e, False, JournalStep(Latest(log), e))
    && e.body.postingCount >= 2
    && (forall j | j in t.journals :: j.row.body.id != e.body.id && j.row.body.fill != e.body.fill)
    && (exists f | f in t.fills :: f.id == e.body.fill)
  }

  predicate PostingChecks(p: Posting) {
    && p.index >= 0 && p.amount > 0.0 && p.quantum > 0.0
    && IsMultiple(p.amount, p.quantum)
  }

  predicate PostingAdmitted(t: Tables, transaction: TransactionId, p: Posting) {
    && PostingChecks(p)
    && (exists j | j in t.journals :: j.row.body.id == transaction)
    && (forall q | q in t.postings :: q.key != transaction || q.row.index != p.index)
  }

  function Exec(t: Tables, s: Statement): Option<Tables> {
    match s
    case RecordProgress(order, e) =>
      if !ProgressAdmitted(Select(t.orderEvents, order), e) then None
      else Some(t.(orderEvents := t.orderEvents + [Entry(order, e)]))
    case RecordFill(fill) =>
      if exists f | f in t.fills :: f.id == fill.id then None
      else Some(t.(fills := t.fills + [fill], fillsDue := t.fillsDue + [fill.id]))
    case PostJournal(account, e) =>
      if !JournalAdmitted(t, account, e) then None
      else Some(t.(journals := t.journals + [Entry(account, e)],
                   fillsDue := t.fillsDue + [e.body.fill],
                   journalsDue := t.journalsDue + [e.body.id]))
    case AddPosting(transaction, p) =>
      if !PostingAdmitted(t, transaction, p) then None
      else Some(t.(postings := t.postings + [Entry(transaction, p)],
                   journalsDue := t.journalsDue + [transaction]))
  }

  // Deferred triggers

  function FindFill(fills: seq<Fill>, id: FillId): (found: Option<Fill>)
    ensures found.Some? ==> found.value in fills && found.value.id == id
    ensures found.None? ==> forall f | f in fills :: f.id != id
  {
    if fills == [] then None
    else if fills[0].id == id then Some(fills[0])
    else FindFill(fills[1..], id)
  }

  function FindJournal(journals: seq<Entry<AccountId, Event<Posted>>>, id: TransactionId): (found: Option<Posted>)
    ensures found.Some? ==> exists j | j in journals :: j.row.body == found.value && found.value.id == id
    ensures found.None? ==> forall j | j in journals :: j.row.body.id != id
  {
    if journals == [] then None
    else if journals[0].row.body.id == id then Some(journals[0].row.body)
    else FindJournal(journals[1..], id)
  }

  function JournalCount(journals: seq<Entry<AccountId, Event<Posted>>>, fill: FillId): nat {
    if journals == [] then 0
    else JournalCount(journals[1..], fill) + if journals[0].row.body.fill == fill then 1 else 0
  }

  function FillTotal(fills: seq<Fill>, order: OrderId): real {
    if fills == [] then 0.0
    else
      var n := |fills| - 1;
      FillTotal(fills[..n], order) + if fills[n].order == order then fills[n].quantity else 0.0
  }

  predicate Pairs(j: Entry<AccountId, Event<Posted>>, f: Fill) {
    j.row.body.fill == f.id && j.row.body.order == f.order && j.key == f.account
  }

  /** The latest order event is a fill event whose cumulative quantity is the sum of the fills. */
  predicate TotalAgrees(t: Tables, order: OrderId) {
    var latest := Latest(Select(t.orderEvents, order));
    && latest.Some?
    && latest.value.body.to in {PartiallyFilled, Filled}
    && latest.value.body.cumulative == FillTotal(t.fills, order)
  }

  /** `require_fill_accounting`. */
  predicate FillAccounted(t: Tables, target: FillId) {
    var f := FindFill(t.fills, target);
    && f.Some?
    && JournalCount(t.journals, target) == 1
    && (exists j | j in t.journals :: Pairs(j, f.value))
    && TotalAgrees(t, f.value.order)
  }

  function Signed(p: Posting): real {
    if p.side.Debit? then p.amount else -p.amount
  }

  function Net(ps: seq<Posting>, commodity: string): real {
    if ps == [] then 0.0
    else
      var n := |ps| - 1;
      Net(ps[..n], commodity) + if ps[n].commodity == commodity then Signed(ps[n]) else 0.0
  }

  predicate GroupBalanced(ps: seq<Posting>, commodity: string) {
    && (forall p, q | p in ps && q in ps :: p.commodity == q.commodity == commodity ==> p.quantum == q.quantum)
    && Net(ps, commodity) == 0.0
  }

  /** `require_balanced_journal`: the groups are the commodities that occur. */
  predicate JournalComplete(t: Tables, target: TransactionId) {
    var expected := FindJournal(t.journals, target);
    var ps := Select(t.postings, target);
    && expected.Some?
    && |ps| == expected.value.postingCount
    && forall p | p in ps :: GroupBalanced(ps, p.commodity)
  }

  predicate DeferredOk(t: Tables) {
    && (forall x | x in t.fillsDue :: FillAccounted(t, x))
    && (forall x | x in t.journalsDue :: JournalComplete(t, x))
  }

  function Settle(t: Tables): Tables {
    t.(fillsDue := [], journalsDue := [])
  }
}

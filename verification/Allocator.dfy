/**
 The allocation rule both engines implement, stated once: bars in time order, orders in priority
 order, each order offered what the bar has left. `Visit` is one order on one bar, `Walk` is all
 orders on one bar, `Sweep` is the whole run.
 */
module Allocator {
  import opened Wrappers
  import opened Sorting
  import opened Identifiers
  import opened BacktestQuanta
  import opened BacktestContracts
  import opened BacktestMath

  datatype Venue = Lean | Nautilus

  datatype Child =
    Child(orderId: Id, childId: string, side: Side, orderType: OrderType, timeInForce: TimeInForce,
          quantity: real, nativeLimit: Option<real>, barId: Id, opensAt: Time)

  /** The scheduler's working state. */
  datatype Book =
    Book(remaining: map<Id, real>, attempts: set<Id>, counts: map<Id, nat>, children: seq<Child>)

  datatype Failure = Unsupported | TooLarge(bar: Id, order: Id)

  datatype Step = Failed(error: Failure) | Visited(book: Book, available: real)

  /** A job, the largest schedule allowed, and whose child format is produced. */
  datatype Plan = Plan(job: Job, limit: int, venue: Venue)

  function Left(book: Book, id: Id): real {
    if id in book.remaining then book.remaining[id] else 0.0
  }

  function Count(book: Book, id: Id): nat {
    if id in book.counts then book.counts[id] else 0
  }

  predicate Opportunity(order: Order, bar: Bar) {
    bar.instrumentId == order.instrumentId && order.issuedAt < bar.opensAt < order.validUntil
  }

  /** The order may be attempted on the bar: inside its validity window and, for DAY, its session. */
  predicate Tries(job: Job, order: Order, bar: Bar) {
    && Opportunity(order, bar)
    && (order.timeInForce.Day? ==>
          match FindInstrument(job.instruments, bar.instrumentId)
          case None => false
          case Some(instrument) =>
            match SessionForBar(job.sessions, bar, instrument.mic)
            case None => false
            case Some(session) =>
              FirstSessionDate(job.sessions, order, instrument.mic) == Some(session.date))
  }

  /** The attempt can trade: the bar is tradable and the order crosses. */
  predicate Fillable(job: Job, order: Order, bar: Bar) {
    && Tries(job, order, bar) && bar.tradable
    && match FindInstrument(job.instruments, bar.instrumentId)
       case None => false
       case Some(instrument) => FillPrice(order, bar, instrument, job.cost).At?
  }

  /** The volume of the bar a job may take part in. */
  function Offered(job: Job, bar: Bar): real {
    bar.volume * job.cost.maxParticipation
  }

  function Capacity(job: Job, bar: Bar): real {
    match FindInstrument(job.instruments, bar.instrumentId)
    case None => 0.0
    case Some(instrument) =>
      FloorQuantum(Offered(job, bar), instrument.quantityQuantum)
  }

  /** LEAN nudges a limit across the open so the native engine fills there; Nautilus passes it on. */
  function NativeLimit(venue: Venue, order: Order, bar: Bar, instrument: Instrument): Option<real> {
    if venue.Lean? && order.orderType.Limit? && order.limitPrice.Some? then
      if order.side.Buy? then Some(Max(order.limitPrice.value, bar.open + instrument.priceQuantum))
      else Some(Min(order.limitPrice.value, bar.open - instrument.priceQuantum))
    else order.limitPrice
  }

  function MakeChild(plan: Plan, order: Order, bar: Bar, quantity: real, index: nat): Child {
    var limit := match FindInstrument(plan.job.instruments, bar.instrumentId)
                 case None => None
                 case Some(instrument) => NativeLimit(plan.venue, order, bar, instrument);
    Child(order.id, ChildId(order.id, index), order.side, order.orderType, order.timeInForce,
          quantity, limit, bar.id, bar.opensAt)
  }

  function Allot(plan: Plan, order: Order, bar: Bar, book: Book, quantity: real): Book {
    var index := Count(book, order.id) + 1;
    book.(remaining := book.remaining[order.id := Left(book, order.id) - quantity],
          counts := book.counts[order.id := index],
          children := book.children + [MakeChild(plan, order, bar, quantity, index)])
  }

  predicate Open(book: Book, order: Order) {
    Left(book, order.id) > 0.0 && order.id !in book.attempts
  }

  function Attempted(book: Book, order: Order): Book {
    if order.timeInForce.Ioc? then book.(attempts := book.attempts + {order.id}) else book
  }

  function Visit(plan: Plan, order: Order, bar: Bar, book: Book, available: real): Step {
    if !Open(book, order) || !Tries(plan.job, order, bar) then Visited(book, available)
    else
      var quantity := Min(Left(book, order.id), available);
      if !Fillable(plan.job, order, bar) || quantity <= 0.0 then Visited(Attempted(book, order), available)
      else if |book.children| >= plan.limit then Failed(TooLarge(bar.id, order.id))
      else Visited(Allot(plan, order, bar, Attempted(book, order), quantity), available - quantity)
  }

  function Walk(plan: Plan, bar: Bar, orders: seq<Order>, book: Book, available: real): Step {
    if orders == [] then Visited(book, available)
    else match Walk(plan, bar, orders[..|orders| - 1], book, available)
      case Failed(error) => Failed(error)
      case Visited(book', available') => Visit(plan, orders[|orders| - 1], bar, book', available')
  }

  function StartBook(orders: seq<Order>): (book: Book)
    ensures book.attempts == {} && book.children == [] && book.counts == map[]
    ensures forall o | o in orders :: o.id in book.remaining
    ensures forall id | id in book.remaining :: exists o :: o in orders && o.id == id
  {
    if orders == [] then Book(map[], {}, map[], [])
    else
      var rest := StartBook(orders[..|orders| - 1]);
      var last := orders[|orders| - 1];
      rest.(remaining := rest.remaining[last.id := last.quantity])
  }

  lemma StartPush(orders: seq<Order>, i: nat)
    requires i < |orders|
    ensures StartBook(orders[..i + 1]).remaining == StartBook(orders[..i]).remaining[orders[i].id := orders[i].quantity]
    ensures StartBook(orders[..0]).remaining == map[]
  {
    assert orders[..i + 1][..i] == orders[..i];
  }

  /** `{item.order_id: item.quantity for item in job.orders}`, as all three schedulers build it. */
  method OpeningQuantities(orders: seq<Order>) returns (remaining: map<Id, real>)
    ensures remaining == StartBook(orders).remaining
    ensures remaining.Keys == set o | o in orders :: o.id
    ensures DistinctOrders(orders) ==> forall o | o in orders :: remaining[o.id] == o.quantity
  {
    remaining := map[];
    assert StartBook(orders[..0]).remaining == map[];
    hide StartBook;
    for i := 0 to |orders|
      invariant remaining == StartBook(orders[..i]).remaining
      invariant DistinctOrders(orders) ==> forall k | 0 <= k < i :: remaining[orders[k].id] == orders[k].quantity
    {
      StartPush(orders, i);
      remaining := remaining[orders[i].id := orders[i].quantity];
    }
    assert orders[..|orders|] == orders;
  }

  function Sweep(plan: Plan, bars: seq<Bar>): Result<Book, Failure> {
    if bars == [] then Ok(StartBook(plan.job.orders))
    else match Sweep(plan, bars[..|bars| - 1])
      case Err(error) => Err(error)
      case Ok(book) =>
        var bar := bars[|bars| - 1];
        match Walk(plan, bar, plan.job.orders, book, Capacity(plan.job, bar))
        case Failed(error) => Err(error)
        case Visited(book', _) => Ok(book')
  }

  predicate BarLe(a: Bar, b: Bar) {
    a.opensAt < b.opensAt || (a.opensAt == b.opensAt && a.id <= b.id)
  }

  predicate ChildLe(a: Child, b: Child) {
    a.opensAt < b.opensAt || (a.opensAt == b.opensAt && StringLe(a.childId, b.childId))
  }

  function SortedBars(job: Job): seq<Bar> {
    Sort(job.bars, BarLe)
  }

  function Schedule(plan: Plan): Result<seq<Child>, Failure> {
    match Sweep(plan, SortedBars(plan.job))
    case Err(error) => Err(error)
    case Ok(book) => Ok(Sort(book.children, ChildLe))
  }

  lemma BarOrder()
    ensures TotalPreorder(BarLe)
  {
  }

  lemma ChildOrder()
    ensures TotalPreorder(ChildLe)
  {
    forall a, b ensures ChildLe(a, b) || ChildLe(b, a) {
      StringLeTotal(a.childId, b.childId);
    }
    forall a, b, c | ChildLe(a, b) && ChildLe(b, c) ensures ChildLe(a, c) {
      if a.opensAt == b.opensAt == c.opensAt {
        StringLeTransitive(a.childId, b.childId, c.childId);
      }
    }
  }

  // ---------- how the walk and the sweep compose ----------

  lemma {:induction false} WalkConcat(plan: Plan, bar: Bar, first: seq<Order>, rest: seq<Order>, book: Book, available: real)
    ensures Walk(plan, bar, first + rest, book, available)
         == match Walk(plan, bar, first, book, available)
            case Failed(error) => Failed(error)
            case Visited(book', available') => Walk(plan, bar, rest, book', available')
  {
    if rest == [] {
      assert first + rest == first;
    } else {
      assert (first + rest)[..|first + rest| - 1] == first + rest[..|rest| - 1];
      WalkConcat(plan, bar, first, rest[..|rest| - 1], book, available);
    }
  }

  /** A run over more bars starts with the run over fewer. */
  lemma {:induction false} SweepPrefix(plan: Plan, bars: seq<Bar>, n: nat)
    requires n <= |bars| && Sweep(plan, bars).Ok?
    ensures Sweep(plan, bars[..n]).Ok?
  {
    if n < |bars| {
      assert bars[..|bars| - 1][..n] == bars[..n];
      SweepPrefix(plan, bars[..|bars| - 1], n);
    } else {
      assert bars[..n] == bars;
    }
  }

  lemma SweepStart(plan: Plan, bars: seq<Bar>)
    ensures Sweep(plan, bars[..0]) == Ok(StartBook(plan.job.orders))
  {
  }

  lemma SweepStep(plan: Plan, bars: seq<Bar>, n: nat)
    requires n < |bars|
    ensures Sweep(plan, bars[..n + 1])
         == match Sweep(plan, bars[..n])
            case Err(error) => Err(error)
            case Ok(book) =>
              match Walk(plan, bars[n], plan.job.orders, book, Capacity(plan.job, bars[n]))
              case Failed(error) => Err(error)
              case Visited(book', _) => Ok(book')
  {
    assert bars[..n + 1][..n] == bars[..n];
  }

  /** A failure part-way is the failure of the whole. */
  lemma {:induction false} SweepFailsEarly(plan: Plan, bars: seq<Bar>, n: nat)
    requires n <= |bars| && Sweep(plan, bars[..n]).Err?
    ensures Sweep(plan, bars) == Sweep(plan, bars[..n])
  {
    if n < |bars| {
      assert bars[..|bars| - 1][..n] == bars[..n];
      SweepFailsEarly(plan, bars[..|bars| - 1], n);
    } else {
      assert bars[..n] == bars;
    }
  }

  lemma WalkFailsEarly(plan: Plan, bar: Bar, orders: seq<Order>, n: nat, book: Book, available: real)
    requires n <= |orders| && Walk(plan, bar, orders[..n], book, available).Failed?
    ensures Walk(plan, bar, orders, book, available) == Walk(plan, bar, orders[..n], book, available)
  {
    assert orders == orders[..n] + orders[n..];
    WalkConcat(plan, bar, orders[..n], orders[n..], book, available);
  }

  lemma WalkStep(plan: Plan, bar: Bar, orders: seq<Order>, n: nat, book: Book, available: real)
    requires n < |orders|
    ensures Walk(plan, bar, orders[..n + 1], book, available)
         == match Walk(plan, bar, orders[..n], book, available)
            case Failed(error) => Failed(error)
            case Visited(book', available') => Visit(plan, orders[n], bar, book', available')
  {
    assert orders[..n + 1][..n] == orders[..n];
  }

  lemma SortedBarsSame(job: Job)
    ensures forall b :: b in SortedBars(job) <==> b in job.bars
    ensures |SortedBars(job)| == |job.bars|
    ensures SortedBy(SortedBars(job), BarLe)
  {
    SameElements(SortedBars(job), job.bars);
    BarOrder();
    SortSorted(job.bars, BarLe);
  }
}

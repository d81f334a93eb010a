/** The LEAN scheduler: mutable books handed to a helper that places one order on one bar. */
module LeanEngine {
  import opened Wrappers
  import opened Sorting
  import opened Identifiers
  import opened BacktestContracts
  import opened BacktestMath
  import opened Allocator

  predicate EveryDayOrderHasSession(job: Job) {
    forall order | order in job.orders && order.timeInForce.Day? :: FirstDate(job, order).Some?
  }

  /** What the LEAN scheduler returns: refused outright, or the allocation in LEAN's child format. */
  function LeanResult(job: Job, maxChildren: int): Result<seq<Child>, Failure> {
    if maxChildren < 1 || !EveryDayOrderHasSession(job) then Err(Unsupported)
    else Schedule(Plan(job, maxChildren, Lean))
  }

  ghost predicate SessionsFor(job: Job, orders: seq<Order>, sessions: map<Id, Date>) {
    forall order | order in orders && order.timeInForce.Day? ::
      order.id in sessions && FirstDate(job, order) == Some(sessions[order.id])
  }

  /** What validation leaves true of an order and a bar of its instrument. */
  ghost predicate PairReady(job: Job, order: Order, bar: Bar, sessions: map<Id, Date>) {
    bar.instrumentId == order.instrumentId ==>
      var found := FindInstrument(job.instruments, bar.instrumentId);
      && found.Some? && SessionForBar(job.sessions, bar, found.value.mic).Some?
      && FillPrice(order, bar, found.value, job.cost) != Raises
      && (order.timeInForce.Day? ==>
            order.id in sessions
            && FirstSessionDate(job.sessions, order, found.value.mic) == Some(sessions[order.id]))
  }

  lemma PairIsReady(job: Job, order: Order, bar: Bar, sessions: map<Id, Date>)
    requires ValidBars(job) && SellPricesBounded(job) && order in job.orders && bar in job.bars
    requires SessionsFor(job, job.orders, sessions)
    ensures PairReady(job, order, bar, sessions)
  {
    if bar.instrumentId == order.instrumentId {
      ValidJobPrices(job, order, bar, FindInstrument(job.instruments, bar.instrumentId).value);
    }
  }

  /** `_day_sessions`: every DAY order's first session date, or an error when one has none. */
  method DaySessions(job: Job) returns (r: Result<map<Id, Date>, Failure>)
    requires DistinctOrders(job.orders)
    ensures r.Ok? <==> EveryDayOrderHasSession(job)
    ensures r.Ok? ==> SessionsFor(job, job.orders, r.value)
    ensures r.Err? ==> r.error == Unsupported
  {
    hide FirstDate;
    var sessions: map<Id, Date> := map[];
    for i := 0 to |job.orders|
      invariant SessionsFor(job, job.orders[..i], sessions)
      invariant forall id | id in sessions :: exists k :: 0 <= k < i && job.orders[k].id == id
    {
      var order := job.orders[i];
      if order.timeInForce.Day? {
        var first := FirstDate(job, order);
        if first.None? {
          return Err(Unsupported);
        }
        sessions := sessions[order.id := first.value];
      }
      assert job.orders[..i + 1] == job.orders[..i] + [order];
    }
    assert job.orders[..|job.orders|] == job.orders;
    return Ok(sessions);
  }

  /** The dictionaries, set and list the LEAN scheduler updates in place. */
  class LeanBook {
    var remaining: map<Id, real>
    var attempts: set<Id>
    var childCounts: map<Id, nat>
    var result: seq<Child>

    ghost function View(): Book
      reads this
    {
      Book(remaining, attempts, childCounts, result)
    }

    constructor (orders: seq<Order>)
      ensures View() == StartBook(orders)
      ensures attempts == {} && childCounts == map[] && result == []
      ensures remaining.Keys == set o | o in orders :: o.id
      ensures DistinctOrders(orders) ==> forall o | o in orders :: remaining[o.id] == o.quantity
    {
      var quantities := OpeningQuantities(orders);
      remaining := quantities;
      attempts := {};
      childCounts := map[];
      result := [];
    }

    /** `_schedule_order_on_bar`: what the bar has left after offering it to one order. */
    method ScheduleOrderOnBar(job: Job, order: Order, bar: Bar, available: real,
                              sessions: map<Id, Date>, maximum: int)
      returns (r: Result<real, Failure>)
      requires PairReady(job, order, bar, sessions) && order.id in remaining
      modifies this
      ensures r.Ok? ==> Visit(Plan(job, maximum, Lean), order, bar, old(View()), available) == Visited(View(), r.value)
      ensures r.Err? ==> Visit(Plan(job, maximum, Lean), order, bar, old(View()), available) == Failed(r.error)
      ensures old(remaining.Keys) <= remaining.Keys
    {
      hide FillPrice, SessionForBar, FirstSessionDate, ChildId, NativeLimit;
      if remaining[order.id] <= 0.0 || order.id in attempts {
        return Ok(available);
      }
      if !Opportunity(order, bar) {
        return Ok(available);
      }
      var instrument := FindInstrument(job.instruments, bar.instrumentId).value;
      var session := SessionForBar(job.sessions, bar, instrument.mic);
      assert session.Some?;  // "bar session mapping changed" cannot be raised
      if order.timeInForce.Day? && sessions[order.id] != session.value.date {
        return Ok(available);
      }
      assert Tries(job, order, bar);
      if order.timeInForce.Ioc? {
        attempts := attempts + {order.id};
      }
      var price := FillPrice(order, bar, instrument, job.cost);
      if !bar.tradable || price.NoCross? {
        return Ok(available);
      }
      assert Fillable(job, order, bar);
      var quantity := Min(remaining[order.id], available);
      if quantity <= 0.0 {
        return Ok(available);
      }
      if |result| >= maximum {
        return Err(TooLarge(bar.id, order.id));
      }
      var index := (if order.id in childCounts then childCounts[order.id] else 0) + 1;
      childCounts := childCounts[order.id := index];
      result := result + [Child(order.id, ChildId(order.id, index), order.side, order.orderType,
                                order.timeInForce, quantity, NativeLimit(Lean, order, bar, instrument),
                                bar.id, bar.opensAt)];
      remaining := remaining[order.id := remaining[order.id] - quantity];
      return Ok(available - quantity);
    }

    /** The inner loop of `_schedule`: the bar's capacity, offered to the orders in turn. */
    method ScheduleBar(job: Job, bar: Bar, sessions: map<Id, Date>, maximum: int) returns (r: Option<Failure>)
      requires forall order | order in job.orders :: order.id in remaining && PairReady(job, order, bar, sessions)
      modifies this
      ensures var walked := Walk(Plan(job, maximum, Lean), bar, job.orders, old(View()), Capacity(job, bar));
              match r
              case None => walked.Visited? && walked.book == View()
              case Some(error) => walked == Failed(error)
      ensures old(remaining.Keys) <= remaining.Keys
    {
      hide Visit, Capacity, PairReady;
      var available := Capacity(job, bar);
      ghost var plan, start, capacity := Plan(job, maximum, Lean), View(), available;
      for j := 0 to |job.orders|
        invariant Walk(plan, bar, job.orders[..j], start, capacity) == Visited(View(), available)
        invariant start.remaining.Keys <= remaining.Keys
      {
        var placed := ScheduleOrderOnBar(job, job.orders[j], bar, available, sessions, maximum);
        WalkStep(plan, bar, job.orders, j, start, capacity);
        if placed.Err? {
          WalkFailsEarly(plan, bar, job.orders, j + 1, start, capacity);
          return Some(placed.error);
        }
        available := placed.value;
      }
      assert job.orders[..|job.orders|] == job.orders;
      return None;
    }

    /** The outer loop of `_schedule`, over the sorted bars. */
    method ScheduleBars(job: Job, bars: seq<Bar>, sessions: map<Id, Date>, maximum: int) returns (r: Option<Failure>)
      requires View() == StartBook(job.orders)
      requires forall order, bar | order in job.orders && bar in bars :: PairReady(job, order, bar, sessions)
      modifies this
      ensures Sweep(Plan(job, maximum, Lean), bars) == match r case None => Ok(View()) case Some(error) => Err(error)
    {
      hide Walk, Sweep, StartBook, PairReady;
      ghost var plan := Plan(job, maximum, Lean);
      SweepStart(plan, bars);
      for i := 0 to |bars|
        invariant Sweep(plan, bars[..i]) == Ok(View())
        invariant forall o | o in job.orders :: o.id in remaining
      {
        var failure := ScheduleBar(job, bars[i], sessions, maximum);
        SweepStep(plan, bars, i);
        if failure.Some? {
          SweepFailsEarly(plan, bars, i + 1);
          return failure;
        }
      }
      assert bars[..|bars|] == bars;
      return None;
    }
  }

  /** LEAN's `_schedule`. */
  method LeanSchedule(job: Job, maxChildren: int) returns (r: Result<seq<Child>, Failure>)
    requires ValidJob(job)
    ensures r == LeanResult(job, maxChildren)
  {
    assert ValidBars(job) && SellPricesBounded(job) && DistinctOrders(job.orders);
    hide ValidJob, ValidBars, SellPricesBounded, DistinctOrders, Sweep, StartBook, PairReady, SessionsFor,
      EveryDayOrderHasSession, Sort;
    if maxChildren < 1 {
      return Err(Unsupported);
    }
    var bars := Sort(job.bars, BarLe);
    SortedBarsSame(job);
    var book := new LeanBook(job.orders);
    var sessions := DaySessions(job);
    if sessions.Err? {
      return Err(Unsupported);
    }
    forall order, bar | order in job.orders && bar in bars ensures PairReady(job, order, bar, sessions.value) {
      PairIsReady(job, order, bar, sessions.value);
    }
    var failure := book.ScheduleBars(job, bars, sessions.value, maxChildren);
    if failure.Some? {
      return Err(failure.value);
    }
    return Ok(Sort(book.result, ChildLe));
  }
}

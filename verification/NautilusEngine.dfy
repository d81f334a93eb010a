/** The Nautilus scheduler: one pass with local dictionaries, and the same allocation. */
module NautilusEngine {
  import opened Wrappers
  import opened Sorting
  import opened Identifiers
  import opened BacktestContracts
  import opened BacktestMath
  import opened Allocator

  /** What the Nautilus scheduler returns: a DAY order without a session simply never trades. */
  function NautilusResult(job: Job, maxChildren: int): Result<seq<Child>, Failure> {
    Schedule(Plan(job, maxChildren, Nautilus))
  }

  ghost predicate BarReady(job: Job, bar: Bar) {
    var found := FindInstrument(job.instruments, bar.instrumentId);
    && found.Some? && SessionForBar(job.sessions, bar, found.value.mic).Some?
    && forall order | order in job.orders && order.instrumentId == bar.instrumentId ::
         FillPrice(order, bar, found.value, job.cost) != Raises
  }

  lemma BarIsReady(job: Job, bar: Bar)
    requires ValidBars(job) && SellPricesBounded(job) && bar in job.bars
    ensures BarReady(job, bar)
  {
    var instrument := FindInstrument(job.instruments, bar.instrumentId).value;
    forall order | order in job.orders && order.instrumentId == bar.instrumentId
      ensures FillPrice(order, bar, instrument, job.cost) != Raises
    {
      ValidJobPrices(job, order, bar, instrument);
    }
  }

  /** The body of the inner loop, on the values of the local dictionaries. */
  method PlaceOrder(job: Job, maxChildren: int, order: Order, bar: Bar, instrument: Instrument,
                    book: Book, available: real) returns (r: Result<(Book, real), Failure>)
    requires BarReady(job, bar) && order in job.orders && order.id in book.remaining
    requires FindInstrument(job.instruments, bar.instrumentId) == Some(instrument)
    ensures Visit(Plan(job, maxChildren, Nautilus), order, bar, book, available)
         == match r case Ok(next) => Visited(next.0, next.1) case Err(error) => Failed(error)
    ensures r.Ok? ==> book.remaining.Keys <= r.value.0.remaining.Keys
  {
    hide FillPrice, SessionForBar, FirstSessionDate, ChildId, NativeLimit;
    var remaining, attempted, counts, result := book.remaining, book.attempts, book.counts, book.children;
    var left := available;
    if remaining[order.id] <= 0.0 || order.id in attempted {
      return Ok((book, available));
    }
    if !Opportunity(order, bar) {
      return Ok((book, available));
    }
    var session := SessionForBar(job.sessions, bar, instrument.mic);
    assert session.Some?;  // "bar session mapping changed" cannot be raised
    if order.timeInForce.Day? && FirstDate(job, order) != Some(session.value.date) {
      return Ok((book, available));
    }
    assert Tries(job, order, bar);
    if order.timeInForce.Ioc? {
      attempted := attempted + {order.id};
    }
    if bar.tradable {
      if FillPrice(order, bar, instrument, job.cost).At? {
        var quantity := Min(remaining[order.id], left);
        if quantity > 0.0 {
          if |result| >= maxChildren {
            return Err(TooLarge(bar.id, order.id));
          }
          var index := (if order.id in counts then counts[order.id] else 0) + 1;
          counts := counts[order.id := index];
          result := result + [Child(order.id, ChildId(order.id, index), order.side, order.orderType,
                                    order.timeInForce, quantity, NativeLimit(Nautilus, order, bar, instrument),
                                    bar.id, bar.opensAt)];
          remaining := remaining[order.id := remaining[order.id] - quantity];
          left := left - quantity;
        }
      }
    }
    return Ok((Book(remaining, attempted, counts, result), left));
  }

  /** The inner loop over the orders of one bar. */
  method PlaceOrders(job: Job, maxChildren: int, bar: Bar, start: Book) returns (r: Result<Book, Failure>)
    requires BarReady(job, bar) && forall order | order in job.orders :: order.id in start.remaining
    ensures match r
            case Ok(book) =>
              && Walk(Plan(job, maxChildren, Nautilus), bar, job.orders, start, Capacity(job, bar)).Visited?
              && Walk(Plan(job, maxChildren, Nautilus), bar, job.orders, start, Capacity(job, bar)).book == book
            case Err(error) =>
              Walk(Plan(job, maxChildren, Nautilus), bar, job.orders, start, Capacity(job, bar)) == Failed(error)
    ensures r.Ok? ==> start.remaining.Keys <= r.value.remaining.Keys
  {
    var instrument := FindInstrument(job.instruments, bar.instrumentId).value;
    hide Visit, BarReady, Capacity;
    var available := Capacity(job, bar);
    ghost var plan, capacity := Plan(job, maxChildren, Nautilus), available;
    var book := start;
    for j := 0 to |job.orders|
      invariant Walk(plan, bar, job.orders[..j], start, capacity) == Visited(book, available)
      invariant start.remaining.Keys <= book.remaining.Keys
    {
      var placed := PlaceOrder(job, maxChildren, job.orders[j], bar, instrument, book, available);
      WalkStep(plan, bar, job.orders, j, start, capacity);
      if placed.Err? {
        WalkFailsEarly(plan, bar, job.orders, j + 1, start, capacity);
        return Err(placed.error);
      }
      book, available := placed.value.0, placed.value.1;
    }
    assert job.orders[..|job.orders|] == job.orders;
    return Ok(book);
  }

  /** The outer loop over the sorted bars. */
  method PlaceBars(job: Job, maxChildren: int, bars: seq<Bar>) returns (r: Result<Book, Failure>)
    requires forall bar | bar in bars :: BarReady(job, bar)
    ensures r == Sweep(Plan(job, maxChildren, Nautilus), bars)
  {
    hide Walk, Sweep, StartBook, BarReady, Capacity;
    ghost var plan := Plan(job, maxChildren, Nautilus);
    SweepStart(plan, bars);
    var remaining := OpeningQuantities(job.orders);
    var book := Book(remaining, {}, map[], []);
    for i := 0 to |bars|
      invariant Sweep(plan, bars[..i]) == Ok(book)
      invariant forall o | o in job.orders :: o.id in book.remaining
    {
      var walked := PlaceOrders(job, maxChildren, bars[i], book);
      SweepStep(plan, bars, i);
      if walked.Err? {
        SweepFailsEarly(plan, bars, i + 1);
        return Err(walked.error);
      }
      book := walked.value;
    }
    assert bars[..|bars|] == bars;
    return Ok(book);
  }

  /** Nautilus' `_schedule`. */
  method NautilusSchedule(job: Job, maxChildren: int) returns (r: Result<seq<Child>, Failure>)
    requires ValidJob(job)
    ensures r == NautilusResult(job, maxChildren)
  {
    var bars := Sort(job.bars, BarLe);
    SortedBarsSame(job);
    forall bar | bar in bars ensures BarReady(job, bar) {
      BarIsReady(job, bar);
    }
    hide BarReady, Sweep, ValidJob, Sort;
    var swept := PlaceBars(job, maxChildren, bars);
    if swept.Err? {
      return Err(swept.error);
    }
    return Ok(Sort(swept.value.children, ChildLe));
  }
}

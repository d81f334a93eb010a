/** The result models and the result validator accept what the engines schedule. */
module ResultValidation {
  import opened Wrappers
  import opened Sorting
  import opened Sums
  import opened BacktestQuanta
  import opened BacktestContracts
  import opened BacktestMath
  import opened Allocator
  import opened ScheduleLaws
  import opened ChildLaws
  import opened ScheduleTheorems
  import opened Adapter
  import opened Parity

  // ---------- every scheduled fill can be represented ----------

  lemma NegatedQuantized(value: real, quantum: real)
    requires IsQuantized(value, quantum)
    ensures IsQuantized(-value, quantum)
  {
    ZeroQuantized(quantum);
    QuantizedDifference(0.0, value, quantum);
  }

  lemma CeilIsQuantized(value: real, quantum: real)
    requires quantum > 0.0
    ensures IsQuantized(CeilQuantum(value, quantum), quantum)
  {
    FloorIsQuantized(-value, quantum);
    NegatedQuantized(FloorQuantum(-value, quantum), quantum);
  }

  lemma PriceIsQuantized(order: Order, bar: Bar, instrument: Instrument, cost: CostModel)
    requires FillPrice(order, bar, instrument, cost).At?
    requires order.limitPrice.Some? ==> IsQuantized(order.limitPrice.value, instrument.priceQuantum)
    ensures IsQuantized(FillPrice(order, bar, instrument, cost).price, instrument.priceQuantum)
  {
    hide IsQuantized, Shifted, AdverseBps, CeilQuantum, FloorQuantum;
    var shifted := Shifted(order.side, bar.open, AdverseBps(order, bar, cost) / BPS);
    CeilIsQuantized(shifted, instrument.priceQuantum);
    FloorIsQuantized(shifted, instrument.priceQuantum);
  }

  lemma FeeIsRepresentable(quantity: real, price: real, cost: CostModel)
    ensures FillFee(quantity, price, cost) >= 0.0 && IsQuantized(FillFee(quantity, price, cost), cost.feeQuantum)
  {
    hide IsQuantized, RawFee;
    CeilIsQuantized(Max(RawFee(quantity, price, cost), cost.minimumFee), cost.feeQuantum);
  }

  lemma {:induction false} FindOrderIs(orders: seq<Order>, k: nat)
    requires k < |orders| && DistinctOrders(orders)
    ensures FindOrder(orders, orders[k].id) == Some(orders[k])
  {
    if k > 0 {
      assert orders[1..][k - 1] == orders[k] && orders[0].id != orders[k].id;
      FindOrderIs(orders[1..], k - 1);
    }
  }

  lemma {:induction false} FindBarIs(bars: seq<Bar>, bar: Bar)
    requires bar in bars && forall i, j | 0 <= i < j < |bars| :: bars[i].id != bars[j].id
    ensures FindBar(bars, bar.id) == Some(bar)
  {
    if bars[0] != bar {
      assert bar in bars[1..];
      var k :| 0 <= k < |bars[1..]| && bars[1..][k] == bar;
      assert bars[k + 1] == bar;
      FindBarIs(bars[1..], bar);
    }
  }

  /** The parts of a valid job the pricing of one execution needs. */
  lemma ValidPricing(job: Job, order: Order, bar: Bar)
    requires ValidJob(job) && order in job.orders && bar in job.bars && bar.instrumentId == order.instrumentId
    ensures FindInstrument(job.instruments, order.instrumentId).Some?
    ensures var instrument := FindInstrument(job.instruments, order.instrumentId).value;
            && instrument.currency == job.baseCurrency
            && IsQuantized(bar.open, instrument.priceQuantum)
            && (order.limitPrice.Some? ==> IsQuantized(order.limitPrice.value, instrument.priceQuantum))
            && Lot(job, order.instrumentId) == instrument.quantityQuantum
    ensures FindBar(job.bars, bar.id) == Some(bar)
  {
    assert ValidOrder(job, order) && ValidBars(job) && ValidInstruments(job);
    hide ValidJob, ValidCalendar, SellPricesBounded, IsQuantized, SessionForBar;
    FindBarIs(job.bars, bar);
  }

  function BodyAt(job: Job, order: Order, instrument: Instrument, e: Execution, price: real): FillBody {
    FillBody(order.id, order.instrumentId, order.side, e.quantity, price, instrument.currency,
             FillFee(e.quantity, price, job.cost), e.occurredAt, e.barId)
  }

  lemma BodyRepresentable(job: Job, order: Order, bar: Bar, instrument: Instrument, e: Execution)
    requires FillPrice(order, bar, instrument, job.cost).At?
    requires order.limitPrice.Some? ==> IsQuantized(order.limitPrice.value, instrument.priceQuantum)
    requires IsQuantized(bar.open, instrument.priceQuantum)
    requires e.quantity > 0.0 && IsQuantized(e.quantity, instrument.quantityQuantum)
    ensures var price := FillPrice(order, bar, instrument, job.cost).price;
            Representable(job, bar, instrument, BodyAt(job, order, instrument, e, price))
  {
    PriceIsQuantized(order, bar, instrument, job.cost);
    hide IsQuantized, FillFee, FillPrice;
    var price := FillPrice(order, bar, instrument, job.cost).price;
    FeeIsRepresentable(e.quantity, price, job.cost);
    QuantizedDifference(price, bar.open, instrument.priceQuantum);
  }

  /** Pricing succeeds once the order, the bar, the instrument and the quote are found. */
  lemma PricedBy(job: Job, order: Order, bar: Bar, instrument: Instrument, e: Execution)
    requires FindOrder(job.orders, e.orderId) == Some(order) && FindBar(job.bars, e.barId) == Some(bar)
    requires FindInstrument(job.instruments, order.instrumentId) == Some(instrument)
    requires FillPrice(order, bar, instrument, job.cost).At?
    requires Representable(job, bar, instrument, BodyAt(job, order, instrument, e, FillPrice(order, bar, instrument, job.cost).price))
    ensures PriceExecution(job, e)
         == Some(BodyAt(job, order, instrument, e, FillPrice(order, bar, instrument, job.cost).price))
  {
    hide FindOrder, FindBar, FindInstrument, FillPrice, Representable, FillFee;
  }

  lemma ExecutionPrices(job: Job, k: nat, bar: Bar, child: Child)
    requires ValidJob(job) && k < |job.orders| && child.orderId == job.orders[k].id
    requires TradesOn(job, job.orders[k], child, bar)
    ensures PriceExecution(job, ChildExecution(child)).Some?
    ensures PriceExecution(job, ChildExecution(child)).value.currency == job.baseCurrency
  {
    var order, e := job.orders[k], ChildExecution(child);
    ValidPricing(job, order, bar);
    FindOrderIs(job.orders, k);
    hide ValidJob, IsQuantized, FillFee, FindOrder, FindBar, FindInstrument, Tries, FillPrice, Lot, Representable,
      PriceExecution;
    var instrument := FindInstrument(job.instruments, order.instrumentId).value;
    BodyRepresentable(job, order, bar, instrument, e);
    PricedBy(job, order, bar, instrument, e);
  }

  /** No scheduled child is refused by the fill model. */
  lemma ScheduledPrices(plan: Plan, child: Child)
    requires ValidJob(plan.job) && Schedule(plan).Ok? && child in Schedule(plan).value
    ensures PriceExecution(plan.job, ChildExecution(child)).Some?
    ensures PriceExecution(plan.job, ChildExecution(child)).value.currency == plan.job.baseCurrency
  {
    hide ValidJob, Schedule, FinalBook, PriceExecution, TradesOn, SortedBars, Sweep;
    ScheduleIsSorted(plan);
    SameElements(Schedule(plan).value, FinalBook(plan).children);
    FinalBookIs(plan);
    SweepOwners(plan, SortedBars(plan.job), child);
    var k :| 0 <= k < |plan.job.orders| && plan.job.orders[k].id == child.orderId;
    ChildrenInWindow(plan, k, child);
    var bar :| TradesOn(plan.job, plan.job.orders[k], child, bar);
    ExecutionPrices(plan.job, k, bar, child);
  }

  lemma FinalBookIs(plan: Plan)
    requires Schedule(plan).Ok?
    ensures Sweep(plan, SortedBars(plan.job)) == Ok(FinalBook(plan))
  {
  }

  lemma FilledTracePrices(plan: Plan, trace: Trace)
    requires ValidJob(plan.job) && Schedule(plan).Ok? && FullyFilled(trace, Schedule(plan).value)
    ensures PriceAll(plan.job, Executions(trace.fills)).Some?
    ensures forall e | e in Executions(trace.fills) :: PriceExecution(plan.job, e).Some?
              && PriceExecution(plan.job, e).value.currency == plan.job.baseCurrency
  {
    hide ValidJob, Schedule, PriceExecution, ChildExecution;
    var children := Schedule(plan).value;
    SameElements(Executions(trace.fills), Scheduled(children));
    forall e | e in Executions(trace.fills)
      ensures PriceExecution(plan.job, e).Some? && PriceExecution(plan.job, e).value.currency == plan.job.baseCurrency
    {
      var i :| 0 <= i < |Scheduled(children)| && Scheduled(children)[i] == e;
      assert children[i] in children;
      ScheduledPrices(plan, children[i]);
    }
  }

  // ---------- outcomes follow the schedule ----------

  /** Mapping keeps the execution and reads the rest off the order. */
  lemma PricedFields(job: Job, e: Execution)
    requires PriceExecution(job, e).Some?
    ensures var body := PriceExecution(job, e).value;
            && body.orderId == e.orderId && body.quantity == e.quantity
            && body.occurredAt == e.occurredAt && body.barId == e.barId
            && FindInstrument(job.instruments, body.instrumentId).Some?
  {
    hide FillPrice, FillFee, Representable;
  }

  function ExecutedFor(id: Id): Execution -> real {
    (e: Execution) => if e.orderId == id then e.quantity else 0.0
  }

  /** What the adapter counts as filled is what was scheduled. */
  lemma FilledIsScheduled(plan: Plan, trace: Trace, bodies: seq<FillBody>, id: Id)
    requires Schedule(plan).Ok? && FullyFilled(trace, Schedule(plan).value)
    requires PriceAll(plan.job, Executions(trace.fills)).Some?
    requires multiset(bodies) == multiset(PriceAll(plan.job, Executions(trace.fills)).value)
    ensures FilledTotal(bodies, id) == OrderTotal(Schedule(plan).value, id)
  {
    hide Schedule, PriceExecution;
    var executions, children := Executions(trace.fills), Schedule(plan).value;
    var priced := PriceAll(plan.job, executions).value;
    SumPermutation(bodies, priced, Adapter.OfOrder(id));
    forall i | 0 <= i < |priced| ensures Adapter.OfOrder(id)(priced[i]) == ExecutedFor(id)(executions[i]) {
      PricedFields(plan.job, executions[i]);
    }
    SumPointwise(priced, executions, Adapter.OfOrder(id), ExecutedFor(id));
    SumPermutation(executions, Scheduled(children), ExecutedFor(id));
    SumPointwise(Scheduled(children), children, ExecutedFor(id), ScheduleLaws.OfOrder(id));
  }

  lemma EveryInstrumentHeld(job: Job, id: Id)
    requires ValidOpening(job) && FindInstrument(job.instruments, id).Some?
    ensures Holding(job, id)
  {
    var instrument := FindInstrument(job.instruments, id).value;
    var i :| 0 <= i < |job.instruments| && job.instruments[i] == instrument;
    assert job.positions[i] in job.positions;
  }

  lemma FilledTraceProjects(plan: Plan, trace: Trace, bodies: seq<FillBody>)
    requires ValidJob(plan.job) && Schedule(plan).Ok? && FullyFilled(trace, Schedule(plan).value)
    requires PriceAll(plan.job, Executions(trace.fills)).Some?
    requires multiset(bodies) == multiset(PriceAll(plan.job, Executions(trace.fills)).value)
    ensures Projectable(plan.job, bodies)
  {
    FilledTracePrices(plan, trace);
    assert ValidOpening(plan.job);
    hide ValidJob, Schedule, PriceExecution, Holding;
    var executions := Executions(trace.fills);
    var priced := PriceAll(plan.job, executions).value;
    SameElements(bodies, priced);
    forall f | f in bodies ensures f.currency == plan.job.cash.currency && Holding(plan.job, f.instrumentId) {
      var i :| 0 <= i < |priced| && priced[i] == f;
      assert executions[i] in executions;
      PricedFields(plan.job, executions[i]);
      EveryInstrumentHeld(plan.job, f.instrumentId);
    }
  }

  /** Every outcome's filled quantity is what the schedule gave the order, so no order is over-filled. */
  lemma OutcomesFollowSchedule(plan: Plan, trace: Trace, bodies: seq<FillBody>, k: nat)
    requires ValidJob(plan.job) && Schedule(plan).Ok? && FullyFilled(trace, Schedule(plan).value)
    requires PriceAll(plan.job, Executions(trace.fills)).Some? && k < |plan.job.orders|
    requires multiset(bodies) == multiset(PriceAll(plan.job, Executions(trace.fills)).value)
    ensures var order := plan.job.orders[k];
            FilledTotal(bodies, order.id) == order.quantity - Left(FinalBook(plan), order.id) <= order.quantity
  {
    hide ValidJob, Schedule, PriceAll, FinalBook, FullyFilled, FilledTotal;
    FilledIsScheduled(plan, trace, bodies, plan.job.orders[k].id);
    OrderConserved(plan, k);
  }

  lemma OutcomesExist(job: Job, bodies: seq<FillBody>)
    requires forall k | 0 <= k < |job.orders| :: FilledTotal(bodies, job.orders[k].id) <= job.orders[k].quantity
    ensures Outcomes(job, bodies).Some?
  {
    hide FilledTotal, OutcomeFor, Sort;
  }

  /** A full-fill trace is refused only for its balances. */
  lemma AdapterReportsSchedule(plan: Plan, trace: Trace, name: FillTrace -> Id)
    requires ValidJob(plan.job) && Schedule(plan).Ok?
    requires ValidTrace(plan.job, trace) && FullyFilled(trace, Schedule(plan).value)
    ensures MapFills(plan.job, trace, name).Some?
    ensures var bodies := Bodies(MapFills(plan.job, trace, name).value);
            MapResult(plan.job, trace, name).Some? <==>
            Storable(plan.job, FinalCash(plan.job, bodies), FinalPositions(plan.job, bodies))
  {
    hide ValidJob, Schedule, MapFills, PriceAll, Storable, FinalCash, FinalPositions, FinalBook, Projectable, Bodies,
      ValidTrace, FullyFilled, FilledTotal, Outcomes, PriceExecution;
    FilledTracePrices(plan, trace);
    MappedBodies(plan.job, trace, name);
    var bodies := Bodies(MapFills(plan.job, trace, name).value);
    FilledTraceProjects(plan, trace, bodies);
    forall k | 0 <= k < |plan.job.orders|
      ensures FilledTotal(bodies, plan.job.orders[k].id) <= plan.job.orders[k].quantity
    {
      OutcomesFollowSchedule(plan, trace, bodies, k);
    }
    OutcomesExist(plan.job, bodies);
  }
}

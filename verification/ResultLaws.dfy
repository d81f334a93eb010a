/**
 What the adapter accepts and what its result says, in the fields of the job and of the engine's trace:
 a second description of the mapping, to which the mapping itself is proved equal.
 */
module ResultLaws {
  import opened Wrappers
  import opened Sorting
  import opened Sums
  import opened BacktestQuanta
  import opened BacktestContracts
  import opened BacktestMath
  import opened PricingLaws
  import opened Allocator
  import opened Adapter
  import opened Parity
  import opened ResultValidation

  // ---------- fills ----------

  /**
   A result fill: the engine's quantity, time and bar, the order's side, the cost model's price and fee, every
   amount a whole number of its quanta.
   */
  ghost predicate FillReads(job: Job, f: FillTrace, body: FillBody, order: Order, bar: Bar, instrument: Instrument) {
    && order in job.orders && order.id == f.orderId
    && bar in job.bars && bar.id == f.barId
    && instrument in job.instruments && instrument.id == order.instrumentId
    && body.orderId == order.id && body.instrumentId == order.instrumentId && body.side == order.side
    && body.quantity == f.quantity && body.occurredAt == f.occurredAt && body.barId == f.barId
    && body.currency == instrument.currency
    && Priced(order, bar, instrument, job.cost, body.price)
    && Charged(f.quantity, body.price, job.cost, body.fees)
    && body.quantity > 0.0 && IsQuantized(body.quantity, instrument.quantityQuantum)
    && body.price > 0.0 && IsQuantized(body.price, instrument.priceQuantum)
    && IsQuantized(body.price - bar.open, instrument.priceQuantum)
  }

  ghost predicate Reads(job: Job, f: FillTrace, body: FillBody) {
    exists order, bar, instrument :: FillReads(job, f, body, order, bar, instrument)
  }

  lemma ExecutionReads(job: Job, f: FillTrace)
    requires PriceExecution(job, ExecutionOf(f)).Some?
    ensures Reads(job, f, PriceExecution(job, ExecutionOf(f)).value)
  {
    var order, bar := FindOrder(job.orders, f.orderId).value, FindBar(job.bars, f.barId).value;
    var instrument := FindInstrument(job.instruments, order.instrumentId).value;
    PriceExactly(order, bar, instrument, job.cost, FillPrice(order, bar, instrument, job.cost).price);
    hide FillPrice, FillFee, Priced, Charged, FindOrder, FindBar, FindInstrument, IsQuantized;
    var body := PriceExecution(job, ExecutionOf(f)).value;
    ChargeIs(f.quantity, body.price, job.cost);
    assert FillReads(job, f, body, order, bar, instrument);
  }

  /** Ids are unique in a valid job, so the ids of a fill determine its order, bar and instrument. */
  lemma Found(job: Job, order: Order, bar: Bar, instrument: Instrument)
    requires ValidJob(job) && order in job.orders && bar in job.bars
    requires instrument in job.instruments && instrument.id == order.instrumentId
    ensures FindOrder(job.orders, order.id) == Some(order) && FindBar(job.bars, bar.id) == Some(bar)
    ensures FindInstrument(job.instruments, order.instrumentId) == Some(instrument)
  {
    assert ValidBars(job) && ValidInstruments(job) && DistinctOrders(job.orders);
    hide ValidJob, ValidCalendar, SellPricesBounded, IsQuantized, SessionForBar, ValidOpening, ValidOrder, ValidCost;
    var k: nat :| k < |job.orders| && job.orders[k] == order;
    FindOrderIs(job.orders, k);
    FindBarIs(job.bars, bar);
    var found := FindInstrument(job.instruments, order.instrumentId).value;
    var i: nat :| i < |job.instruments| && job.instruments[i] == instrument;
    var j: nat :| j < |job.instruments| && job.instruments[j] == found;
  }

  /** A fill read this way is what pricing the execution computes, once its rows are found and its price and fee agree. */
  lemma FoundIsPriced(job: Job, f: FillTrace, body: FillBody, order: Order, bar: Bar, instrument: Instrument)
    requires FillReads(job, f, body, order, bar, instrument)
    requires FindOrder(job.orders, order.id) == Some(order) && FindBar(job.bars, bar.id) == Some(bar)
    requires FindInstrument(job.instruments, order.instrumentId) == Some(instrument)
    requires FillPrice(order, bar, instrument, job.cost).At? && FillPrice(order, bar, instrument, job.cost).price == body.price
    requires FillFee(f.quantity, body.price, job.cost) == body.fees
    ensures PriceExecution(job, ExecutionOf(f)) == Some(body)
  {
    hide FillPrice, Priced, Charged, FindOrder, FindBar, FindInstrument, IsQuantized, FillFee;
    FeeIsRepresentable(f.quantity, body.price, job.cost);
  }

  lemma ReadsParts(job: Job, f: FillTrace, body: FillBody, order: Order, bar: Bar, instrument: Instrument)
    requires FillReads(job, f, body, order, bar, instrument)
    ensures order in job.orders && bar in job.bars && instrument in job.instruments && instrument.id == order.instrumentId
    ensures Priced(order, bar, instrument, job.cost, body.price) && Charged(f.quantity, body.price, job.cost, body.fees)
  {
    hide Priced, Charged, IsQuantized;
  }

  lemma ReadsIsPriced(job: Job, f: FillTrace, body: FillBody, order: Order, bar: Bar, instrument: Instrument)
    requires ValidJob(job) && FillReads(job, f, body, order, bar, instrument)
    ensures PriceExecution(job, ExecutionOf(f)) == Some(body)
  {
    hide *;
    ReadsParts(job, f, body, order, bar, instrument);
    Found(job, order, bar, instrument);
    PriceExactly(order, bar, instrument, job.cost, body.price);
    ChargeIs(f.quantity, body.price, job.cost);
    ChargeUnique(f.quantity, body.price, job.cost, body.fees, FillFee(f.quantity, body.price, job.cost));
    FoundIsPriced(job, f, body, order, bar, instrument);
  }

  /** The canonical fill of an execution is the one the cost model describes, and there is no other. */
  lemma PricedExactly(job: Job, f: FillTrace, body: FillBody)
    requires ValidJob(job)
    ensures Reads(job, f, body) <==> PriceExecution(job, ExecutionOf(f)) == Some(body)
  {
    hide ValidJob, FillReads, PriceExecution;
    if Reads(job, f, body) {
      var order, bar, instrument :| FillReads(job, f, body, order, bar, instrument);
      ReadsIsPriced(job, f, body, order, bar, instrument);
    }
    if PriceExecution(job, ExecutionOf(f)) == Some(body) {
      ExecutionReads(job, f);
    }
  }

  /** The canonical fills of a trace, in trace order. */
  ghost predicate Mapped(job: Job, trace: Trace, bodies: seq<FillBody>) {
    |bodies| == |trace.fills| && forall i | 0 <= i < |bodies| :: Reads(job, trace.fills[i], bodies[i])
  }

  lemma MappedExactly(job: Job, trace: Trace, bodies: seq<FillBody>)
    requires ValidJob(job)
    ensures Mapped(job, trace, bodies) <==> PriceAll(job, Executions(trace.fills)) == Some(bodies)
  {
    hide ValidJob, Reads, PriceExecution;
    var executions := Executions(trace.fills);
    if Mapped(job, trace, bodies) {
      forall i | 0 <= i < |executions| ensures PriceExecution(job, executions[i]) == Some(bodies[i]) {
        PricedExactly(job, trace.fills[i], bodies[i]);
      }
      assert PriceAll(job, executions).Some?;
      assert PriceAll(job, executions).value == bodies;
    }
    if PriceAll(job, executions) == Some(bodies) {
      forall i | 0 <= i < |bodies| ensures Reads(job, trace.fills[i], bodies[i]) {
        PricedExactly(job, trace.fills[i], bodies[i]);
      }
    }
  }

  ghost predicate ByTimeThenId(fills: seq<Fill>) {
    forall i, j | 0 <= i < j < |fills| ::
      || fills[i].body.occurredAt < fills[j].body.occurredAt
      || (fills[i].body.occurredAt == fills[j].body.occurredAt && fills[i].fillId <= fills[j].fillId)
  }

  lemma FillsSorted(fills: seq<Fill>)
    ensures ByTimeThenId(Sort(fills, FillLe))
  {
    SortSorted(fills, FillLe);
  }

  // ---------- outcomes ----------

  function QuantityFor(id: Id): FillTrace -> real {
    (f: FillTrace) => if f.orderId == id then f.quantity else 0.0
  }

  /** What the engine filled of an order. */
  function FilledBy(trace: Trace, id: Id): real { Sum(trace.fills, QuantityFor(id)) }

  /**
   An outcome: FILLED when nothing remains, PARTIALLY_FILLED when something was filled and something remains;
   an order with nothing filled is CANCELLED if IOC or DAY, and a GTC order EXPIRED once its validity has passed.
   */
  ghost predicate OutcomeReads(job: Job, order: Order, filled: real, o: Outcome) {
    && o.orderId == order.id && o.command == order.quantity && o.filled == filled
    && o.remaining == order.quantity - filled && o.remaining >= 0.0
    && (o.status == Filled <==> o.remaining == 0.0)
    && (o.status == PartiallyFilled <==> o.filled > 0.0 && o.remaining > 0.0)
    && (o.status == Cancelled <==> o.filled <= 0.0 && (order.timeInForce == Ioc || order.timeInForce == Day))
    && (o.status == Expired <==> o.filled <= 0.0 && order.timeInForce == Gtc && job.asOf >= order.validUntil)
    && (o.status == OrderStatus.Accepted <==> o.filled <= 0.0 && order.timeInForce == Gtc && job.asOf < order.validUntil)
    && o.status != Rejected
    && o.reason == (
         if o.status == Filled then None
         else if o.status == PartiallyFilled then Some("canonical_partial_fill")
         else if o.status == Expired then Some("canonical_validity_expired")
         else if o.status == OrderStatus.Accepted then Some("canonical_pending")
         else if order.timeInForce == Ioc then Some("canonical_ioc_unfilled") else Some("canonical_day_unfilled"))
  }

  /** One outcome for every order, by order id. */
  ghost predicate OutcomesRead(job: Job, trace: Trace, outcomes: seq<Outcome>) {
    && |outcomes| == |job.orders|
    && (forall order | order in job.orders ::
          exists o :: o in outcomes && OutcomeReads(job, order, FilledBy(trace, order.id), o))
    && (forall i, j | 0 <= i < j < |outcomes| :: outcomes[i].orderId <= outcomes[j].orderId)
  }

  lemma OutcomeIs(job: Job, order: Order, filled: real)
    requires filled <= order.quantity
    ensures OutcomeReads(job, order, filled, OutcomeFor(job, order, filled))
  {
  }

  function MadeOutcomes(job: Job, bodies: seq<FillBody>): seq<Outcome> {
    seq(|job.orders|, i requires 0 <= i < |job.orders| =>
      OutcomeFor(job, job.orders[i], FilledTotal(bodies, job.orders[i].id)))
  }

  lemma OutcomesSorted(job: Job, bodies: seq<FillBody>)
    requires Outcomes(job, bodies).Some?
    ensures var outcomes := Outcomes(job, bodies).value;
            && multiset(outcomes) == multiset(MadeOutcomes(job, bodies))
            && forall i, j | 0 <= i < j < |outcomes| :: outcomes[i].orderId <= outcomes[j].orderId
  {
    hide OutcomeFor, FilledTotal;
    assert Outcomes(job, bodies).value == Sort(MadeOutcomes(job, bodies), OutcomeLe);
    SortSorted(MadeOutcomes(job, bodies), OutcomeLe);
  }

  lemma OutcomesAre(job: Job, trace: Trace, bodies: seq<FillBody>)
    requires Outcomes(job, bodies).Some?
    requires forall o | o in job.orders :: FilledTotal(bodies, o.id) == FilledBy(trace, o.id) <= o.quantity
    ensures OutcomesRead(job, trace, Outcomes(job, bodies).value)
  {
    hide OutcomeFor, FilledTotal, FilledBy, OutcomeReads, Outcomes;
    var outcomes, made := Outcomes(job, bodies).value, MadeOutcomes(job, bodies);
    OutcomesSorted(job, bodies);
    SameElements(outcomes, made);
    forall order | order in job.orders ensures exists o :: o in outcomes && OutcomeReads(job, order, FilledBy(trace, order.id), o) {
      var k :| 0 <= k < |job.orders| && job.orders[k] == order;
      OutcomeIs(job, order, FilledBy(trace, order.id));
      assert made[k] in outcomes;
    }
  }

  // ---------- balances ----------

  /** A BUY pays quantity times price and the fee; a SELL receives it less the fee. */
  function CashMove(): FillBody -> real {
    (b: FillBody) => (if b.side == Buy then -(b.quantity * b.price) else b.quantity * b.price) - b.fees
  }

  function PositionMove(id: Id): FillBody -> real {
    (b: FillBody) => if b.instrumentId != id then 0.0 else if b.side == Buy then b.quantity else -b.quantity
  }

  function FeeOf(): FillBody -> real { (b: FillBody) => b.fees }

  function CashAfter(job: Job, bodies: seq<FillBody>): real { job.cash.amount + Sum(bodies, CashMove()) }

  function PositionAfter(p: Position, bodies: seq<FillBody>): real {
    p.quantity + Sum(bodies, PositionMove(p.instrumentId))
  }

  /** No final balance is negative or falls between quanta. */
  ghost predicate BalancesKept(job: Job, bodies: seq<FillBody>) {
    && CashAfter(job, bodies) >= 0.0 && IsQuantized(CashAfter(job, bodies), job.cash.quantum)
    && forall p, instrument | p in job.positions && instrument in job.instruments && instrument.id == p.instrumentId ::
         PositionAfter(p, bodies) >= 0.0 && IsQuantized(PositionAfter(p, bodies), instrument.quantityQuantum)
  }

  lemma CashIs(bodies: seq<FillBody>)
    ensures Sum(bodies, CashEffect) == Sum(bodies, CashMove())
    ensures Sum(bodies, Fees) == Sum(bodies, FeeOf())
  {
    SumPointwise(bodies, bodies, CashEffect, CashMove());
    SumPointwise(bodies, bodies, Fees, FeeOf());
  }

  lemma PositionIs(bodies: seq<FillBody>, id: Id)
    ensures Sum(bodies, PositionEffect(id)) == Sum(bodies, PositionMove(id))
  {
    SumPointwise(bodies, bodies, PositionEffect(id), PositionMove(id));
  }

  lemma {:induction false} OpeningIs(positions: seq<Position>, p: Position)
    requires forall i, j | 0 <= i < j < |positions| :: positions[i].instrumentId != positions[j].instrumentId
    requires p in positions
    ensures p.instrumentId in Opening(positions) && Opening(positions)[p.instrumentId] == p.quantity
  {
    var n := |positions| - 1;
    assert positions == positions[..n] + [positions[n]];
    if p != positions[n] {
      var k :| 0 <= k < n && positions[k] == p;
      assert positions[k].instrumentId != positions[n].instrumentId;
      OpeningIs(positions[..n], p);
    }
  }

  /** Positions and instruments are listed alike. */
  lemma PositionsListed(job: Job)
    requires ValidJob(job)
    ensures forall i, j | 0 <= i < j < |job.positions| :: job.positions[i].instrumentId != job.positions[j].instrumentId
    ensures forall p | p in job.positions :: FindInstrument(job.instruments, p.instrumentId).Some?
    ensures forall a, b | a in job.instruments && b in job.instruments && a.id == b.id :: a == b
  {
    assert ValidInstruments(job) && ValidOpening(job);
    hide ValidJob, ValidBars, ValidCalendar, SellPricesBounded, ValidOrder, ValidCost;
    forall p | p in job.positions ensures FindInstrument(job.instruments, p.instrumentId).Some? {
      var i :| 0 <= i < |job.positions| && job.positions[i] == p;
      assert job.instruments[i] in job.instruments;
    }
    forall a, b | a in job.instruments && b in job.instruments && a.id == b.id ensures a == b {
      var i :| 0 <= i < |job.instruments| && job.instruments[i] == a;
      var j :| 0 <= j < |job.instruments| && job.instruments[j] == b;
    }
  }

  lemma FinalPositionIs(job: Job, bodies: seq<FillBody>, p: Position)
    requires ValidJob(job) && p in job.positions
    ensures p.instrumentId in FinalPositions(job, bodies)
    ensures FinalPositions(job, bodies)[p.instrumentId] == PositionAfter(p, bodies)
  {
    PositionsListed(job);
    OpeningIs(job.positions, p);
    PositionIs(bodies, p.instrumentId);
    hide ValidJob, Opening, PositionEffect, PositionMove;
  }

  /** Position by position, the final map is kept exactly when the positions are. */
  lemma PositionsKept(job: Job, after: map<Id, real>, held: Position -> real)
    requires forall p | p in job.positions :: p.instrumentId in after && after[p.instrumentId] == held(p)
    requires forall id | id in after :: exists p :: p in job.positions && p.instrumentId == id
    requires forall p | p in job.positions :: FindInstrument(job.instruments, p.instrumentId).Some?
    requires forall a, b | a in job.instruments && b in job.instruments && a.id == b.id :: a == b
    ensures (forall id | id in after ::
               && after[id] >= 0.0
               && var found := FindInstrument(job.instruments, id);
                  found.Some? && IsQuantized(after[id], found.value.quantityQuantum))
       <==> (forall p, instrument | p in job.positions && instrument in job.instruments && instrument.id == p.instrumentId ::
               held(p) >= 0.0 && IsQuantized(held(p), instrument.quantityQuantum))
  {
    hide IsQuantized;
  }

  lemma FinalCashIs(job: Job, bodies: seq<FillBody>)
    ensures FinalCash(job, bodies) == CashAfter(job, bodies)
  {
    hide Sum;
    CashIs(bodies);
  }

  lemma HeldKeys(job: Job, bodies: seq<FillBody>)
    ensures forall id | id in FinalPositions(job, bodies) :: exists p :: p in job.positions && p.instrumentId == id
    ensures FinalPositions(job, bodies).Keys == set p | p in job.positions :: p.instrumentId
  {
  }

  lemma StorableIs(job: Job, bodies: seq<FillBody>)
    requires ValidJob(job)
    ensures Storable(job, FinalCash(job, bodies), FinalPositions(job, bodies)) <==> BalancesKept(job, bodies)
  {
    hide ValidJob, IsQuantized, FinalPositions, FinalCash, CashAfter, PositionAfter, FindInstrument;
    PositionsListed(job);
    FinalCashIs(job, bodies);
    HeldKeys(job, bodies);
    forall p | p in job.positions
      ensures p.instrumentId in FinalPositions(job, bodies)
      ensures FinalPositions(job, bodies)[p.instrumentId] == PositionAfter(p, bodies)
    {
      FinalPositionIs(job, bodies, p);
    }
    PositionsKept(job, FinalPositions(job, bodies), p => PositionAfter(p, bodies));
  }

  // ---------- the whole mapping ----------

  /** What is asked of a trace before anything is mapped. */
  ghost predicate Covered(job: Job, trace: Trace) {
    && (forall o | o in job.orders :: o.id in trace.orders)
    && (forall id | id in trace.orders :: exists o :: o in job.orders && o.id == id)
    && (forall i, j | 0 <= i < j < |trace.orders| :: trace.orders[i] != trace.orders[j])
    && (forall i, j | 0 <= i < j < |trace.fills| :: trace.fills[i].externalId != trace.fills[j].externalId)
    && (forall f | f in trace.fills ::
          && |f.externalId| > 0 && (exists o :: o in job.orders && o.id == f.orderId)
          && f.quantity > 0.0 && f.rawPrice > 0.0 && f.rawFees >= 0.0)
  }

  lemma CoveredIs(job: Job, trace: Trace)
    ensures Covered(job, trace) <==> ValidTrace(job, trace)
  {
  }

  lemma FilledIs(job: Job, trace: Trace, bodies: seq<FillBody>, id: Id)
    requires Mapped(job, trace, bodies)
    ensures FilledTotal(bodies, id) == FilledBy(trace, id)
  {
    hide Priced, Charged, IsQuantized;
    forall i | 0 <= i < |bodies| ensures Adapter.OfOrder(id)(bodies[i]) == QuantityFor(id)(trace.fills[i]) {
      assert Reads(job, trace.fills[i], bodies[i]);
    }
    SumPointwise(bodies, trace.fills, Adapter.OfOrder(id), QuantityFor(id));
  }

  lemma MappedProjects(job: Job, trace: Trace, bodies: seq<FillBody>)
    requires ValidJob(job) && Mapped(job, trace, bodies)
    ensures Projectable(job, bodies)
  {
    assert ValidInstruments(job) && ValidOpening(job);
    hide ValidJob, Priced, Charged, IsQuantized, Holding;
    forall b | b in bodies ensures b.currency == job.cash.currency && Holding(job, b.instrumentId) {
      var i :| 0 <= i < |bodies| && bodies[i] == b;
      var order, bar, instrument :| FillReads(job, trace.fills[i], bodies[i], order, bar, instrument);
      assert instrument in job.instruments;
      EveryInstrumentHeld(job, b.instrumentId);
    }
  }

  lemma ReportExactly(job: Job, trace: Trace, bodies: seq<FillBody>)
    requires ValidJob(job) && Mapped(job, trace, bodies)
    ensures ReportOf(job, bodies).Some? <==>
            (forall o | o in job.orders :: FilledBy(trace, o.id) <= o.quantity) && BalancesKept(job, bodies)
    ensures ReportOf(job, bodies).Some? ==> OutcomesRead(job, trace, ReportOf(job, bodies).value.outcomes)
  {
    hide *;
    forall o | o in job.orders ensures FilledTotal(bodies, o.id) == FilledBy(trace, o.id) {
      FilledIs(job, trace, bodies, o.id);
    }
    MappedProjects(job, trace, bodies);
    StorableIs(job, bodies);
    OutcomesExactly(job, bodies);
    ReportParts(job, bodies);
    if Outcomes(job, bodies).Some? {
      OutcomesAre(job, trace, bodies);
    }
  }

  lemma OutcomesExactly(job: Job, bodies: seq<FillBody>)
    ensures Outcomes(job, bodies).Some? <==> forall o | o in job.orders :: FilledTotal(bodies, o.id) <= o.quantity
  {
    hide FilledTotal, OutcomeFor, Sort;
  }

  lemma ReportParts(job: Job, bodies: seq<FillBody>)
    ensures ReportOf(job, bodies).Some? <==>
            && Outcomes(job, bodies).Some? && Projectable(job, bodies)
            && Storable(job, FinalCash(job, bodies), FinalPositions(job, bodies))
    ensures ReportOf(job, bodies).Some? ==>
            && ReportOf(job, bodies).value.outcomes == Outcomes(job, bodies).value
            && ReportOf(job, bodies).value.cash == map[job.cash.currency := FinalCash(job, bodies)]
            && ReportOf(job, bodies).value.positions == FinalPositions(job, bodies)
            && ReportOf(job, bodies).value.totalFees == Sum(bodies, Fees)
  {
    hide Outcomes, Projectable, Storable, FinalCash, FinalPositions, Sum;
  }

  /** The adapter's result is the report over the mapped fills, in result order. */
  lemma ResultParts(job: Job, trace: Trace, name: FillTrace -> Id, bodies: seq<FillBody>)
    requires PriceAll(job, Executions(trace.fills)) == Some(bodies)
    ensures MapResult(job, trace, name).Some? <==> ValidTrace(job, trace) && ReportOf(job, bodies).Some?
    ensures MapResult(job, trace, name).Some? ==>
            && MapResult(job, trace, name).value.0 == Sort(Named(trace.fills, bodies, name), FillLe)
            && MapResult(job, trace, name).value.1 == ReportOf(job, bodies).value
  {
    hide ValidTrace, PriceAll, ReportOf, Sort;
    var named := Named(trace.fills, bodies, name);
    ImagePermutation(Sort(named, FillLe), named, BodyOf);
    assert Image(named, BodyOf) == bodies;
    ReportOrderFree(job, Bodies(Sort(named, FillLe)), bodies);
  }

  /**
   The adapter accepts a trace exactly when it covers the job's orders with well-formed fills, every fill has a
   canonical form, no order is over-filled and no final balance is negative or between quanta.
   */
  lemma ResultExactly(job: Job, trace: Trace, name: FillTrace -> Id)
    requires ValidJob(job)
    ensures MapResult(job, trace, name).Some? <==>
            && Covered(job, trace)
            && (forall o | o in job.orders :: FilledBy(trace, o.id) <= o.quantity)
            && exists bodies :: Mapped(job, trace, bodies) && BalancesKept(job, bodies)
  {
    hide *;
    CoveredIs(job, trace);
    forall bodies ensures Mapped(job, trace, bodies) <==> PriceAll(job, Executions(trace.fills)) == Some(bodies) {
      MappedExactly(job, trace, bodies);
    }
    if PriceAll(job, Executions(trace.fills)).Some? {
      var bodies := PriceAll(job, Executions(trace.fills)).value;
      ReportExactly(job, trace, bodies);
      ResultParts(job, trace, name, bodies);
    } else {
      Unmapped(job, trace, name);
    }
  }

  lemma Unmapped(job: Job, trace: Trace, name: FillTrace -> Id)
    requires PriceAll(job, Executions(trace.fills)).None?
    ensures MapResult(job, trace, name).None?
  {
  }

  /** A report's balances: the opening ones moved by the fills, and the sum of the fees. */
  ghost predicate BalancesRead(job: Job, bodies: seq<FillBody>, report: Report) {
    && report.cash == map[job.cash.currency := CashAfter(job, bodies)]
    && report.positions.Keys == (set p | p in job.positions :: p.instrumentId)
    && (forall p | p in job.positions :: report.positions[p.instrumentId] == PositionAfter(p, bodies))
    && report.totalFees == Sum(bodies, FeeOf())
  }

  lemma ReportBalances(job: Job, bodies: seq<FillBody>)
    requires ValidJob(job) && ReportOf(job, bodies).Some?
    ensures BalancesRead(job, bodies, ReportOf(job, bodies).value)
  {
    hide ValidJob, ReportOf, FinalPositions, FinalCash, CashAfter, PositionAfter, Sum, Outcomes, Projectable, Storable;
    ReportParts(job, bodies);
    FinalCashIs(job, bodies);
    HeldKeys(job, bodies);
    CashIs(bodies);
    forall p | p in job.positions
      ensures p.instrumentId in FinalPositions(job, bodies)
      ensures FinalPositions(job, bodies)[p.instrumentId] == PositionAfter(p, bodies)
    {
      FinalPositionIs(job, bodies, p);
    }
  }

  /** The result's fills: each mapped fill under the name of its trace, by time and then by id. */
  ghost predicate FillsRead(trace: Trace, name: FillTrace -> Id, bodies: seq<FillBody>, fills: seq<Fill>)
    requires |bodies| == |trace.fills|
  {
    && multiset(fills) == multiset(seq(|bodies|, i requires 0 <= i < |bodies| => Fill(name(trace.fills[i]), bodies[i])))
    && ByTimeThenId(fills)
  }

  lemma NamedRead(trace: Trace, name: FillTrace -> Id, bodies: seq<FillBody>)
    requires |bodies| == |trace.fills|
    ensures FillsRead(trace, name, bodies, Sort(Named(trace.fills, bodies, name), FillLe))
  {
    FillsSorted(Named(trace.fills, bodies, name));
    assert Named(trace.fills, bodies, name)
        == seq(|bodies|, i requires 0 <= i < |bodies| => Fill(name(trace.fills[i]), bodies[i]));
  }

  lemma MappedOf(job: Job, trace: Trace, name: FillTrace -> Id) returns (bodies: seq<FillBody>)
    requires MapResult(job, trace, name).Some?
    ensures PriceAll(job, Executions(trace.fills)) == Some(bodies) && |bodies| == |trace.fills|
  {
    bodies := PriceAll(job, Executions(trace.fills)).value;
  }

  /**
   What an accepted trace gives: its fills one for one in canonical form, by time and id; one outcome per order;
   cash and positions moved by exactly those fills; and the sum of their fees.
   */
  lemma ResultReads(job: Job, trace: Trace, name: FillTrace -> Id) returns (bodies: seq<FillBody>)
    requires ValidJob(job) && MapResult(job, trace, name).Some?
    ensures |bodies| == |trace.fills| && Mapped(job, trace, bodies)
    ensures var (fills, report) := MapResult(job, trace, name).value;
            && FillsRead(trace, name, bodies, fills)
            && OutcomesRead(job, trace, report.outcomes)
            && BalancesRead(job, bodies, report)
  {
    hide *;
    bodies := MappedOf(job, trace, name);
    ResultParts(job, trace, name, bodies);
    MappedExactly(job, trace, bodies);
    ReportExactly(job, trace, bodies);
    ReportBalances(job, bodies);
    NamedRead(trace, name, bodies);
  }
}

/**
 The canonical mapping from an engine's fill trace to a result. The LEAN and the Nautilus adapter
 differ only in how they name a fill, so the naming is a parameter here.
 */
module Adapter {
  import opened Wrappers
  import opened Sorting
  import opened Sums
  import opened BacktestQuanta
  import opened BacktestContracts
  import opened BacktestMath

  datatype FillTrace =
    FillTrace(externalId: string, orderId: Id, quantity: real, rawPrice: real, rawFees: real,
              occurredAt: Time, barId: Id)

  datatype Trace = Trace(orders: seq<Id>, fills: seq<FillTrace>)

  /** The part of a reported fill that carries economics. */
  datatype Execution = Execution(orderId: Id, quantity: real, occurredAt: Time, barId: Id)

  /** A canonical fill without its identity. */
  datatype FillBody =
    FillBody(orderId: Id, instrumentId: Id, side: Side, quantity: real, price: real,
             currency: Currency, fees: real, occurredAt: Time, barId: Id)

  datatype Fill = Fill(fillId: Id, body: FillBody)

  datatype Outcome =
    Outcome(orderId: Id, status: OrderStatus, command: real, filled: real, remaining: real,
            reason: Option<string>)

  datatype Report =
    Report(outcomes: seq<Outcome>, cash: map<Currency, real>, positions: map<Id, real>, totalFees: real)

  function ExecutionOf(trace: FillTrace): Execution {
    Execution(trace.orderId, trace.quantity, trace.occurredAt, trace.barId)
  }

  function Executions(traces: seq<FillTrace>): seq<Execution> { Image(traces, ExecutionOf) }

  // ---------- validation and mapping ----------

  predicate ValidTrace(job: Job, trace: Trace) {
    && (forall o | o in job.orders :: o.id in trace.orders)
    && (forall id | id in trace.orders :: exists o :: o in job.orders && o.id == id)
    && (forall i, j | 0 <= i < j < |trace.orders| :: trace.orders[i] != trace.orders[j])
    && (forall i, j | 0 <= i < j < |trace.fills| :: trace.fills[i].externalId != trace.fills[j].externalId)
    && (forall f | f in trace.fills ::
          && f.externalId != "" && f.orderId in trace.orders
          && f.quantity > 0.0 && f.rawPrice > 0.0 && f.rawFees >= 0.0)
  }

  function FindOrder(orders: seq<Order>, id: Id): (r: Option<Order>)
    ensures r.Some? ==> r.value in orders && r.value.id == id
    ensures r.None? ==> forall o | o in orders :: o.id != id
  {
    if orders == [] then None
    else if orders[0].id == id then Some(orders[0])
    else FindOrder(orders[1..], id)
  }

  function FindBar(bars: seq<Bar>, id: Id): (r: Option<Bar>)
    ensures r.Some? ==> r.value in bars && r.value.id == id
    ensures r.None? ==> forall b | b in bars :: b.id != id
  {
    if bars == [] then None
    else if bars[0].id == id then Some(bars[0])
    else FindBar(bars[1..], id)
  }

  /** The fill model's own check that every amount matches its quantum. */
  predicate Representable(job: Job, bar: Bar, instrument: Instrument, body: FillBody) {
    && body.quantity > 0.0 && body.price > 0.0 && body.fees >= 0.0
    && IsQuantized(body.quantity, instrument.quantityQuantum)
    && IsQuantized(body.price, instrument.priceQuantum)
    && IsQuantized(body.fees, job.cost.feeQuantum)
    && IsQuantized(body.price - bar.open, instrument.priceQuantum)
  }

  /** `_map_fill` without the fill's name: re-priced canonically from order, bar and cost model. */
  function PriceExecution(job: Job, e: Execution): Option<FillBody> {
    match (FindOrder(job.orders, e.orderId), FindBar(job.bars, e.barId))
    case (Some(order), Some(bar)) =>
      (match FindInstrument(job.instruments, order.instrumentId)
       case None => None
       case Some(instrument) =>
         match FillPrice(order, bar, instrument, job.cost)
         case At(price) =>
           var body := FillBody(order.id, order.instrumentId, order.side, e.quantity, price,
                                instrument.currency, FillFee(e.quantity, price, job.cost), e.occurredAt, e.barId);
           if Representable(job, bar, instrument, body) then Some(body) else None
         case _ => None)
    case _ => None
  }

  /** Mapping every execution, or failing on the first that cannot be mapped. */
  function PriceAll(job: Job, executions: seq<Execution>): (r: Option<seq<FillBody>>)
    ensures r.Some? <==> forall e | e in executions :: PriceExecution(job, e).Some?
    ensures r.Some? ==> |r.value| == |executions|
    ensures r.Some? ==> forall i | 0 <= i < |executions| :: PriceExecution(job, executions[i]) == Some(r.value[i])
  {
    if executions == [] then Some([])
    else
      var n := |executions| - 1;
      assert executions == executions[..n] + [executions[n]];
      match (PriceAll(job, executions[..n]), PriceExecution(job, executions[n]))
      case (Some(bodies), Some(body)) => Some(bodies + [body])
      case _ => None
  }

  predicate FillLe(a: Fill, b: Fill) {
    a.body.occurredAt < b.body.occurredAt || (a.body.occurredAt == b.body.occurredAt && a.fillId <= b.fillId)
  }

  function Named(traces: seq<FillTrace>, bodies: seq<FillBody>, name: FillTrace -> Id): (r: seq<Fill>)
    requires |traces| == |bodies|
    ensures |r| == |bodies| && forall i | 0 <= i < |r| :: r[i] == Fill(name(traces[i]), bodies[i])
  {
    seq(|traces|, i requires 0 <= i < |traces| => Fill(name(traces[i]), bodies[i]))
  }

  function BodyOf(fill: Fill): FillBody { fill.body }

  function Bodies(fills: seq<Fill>): seq<FillBody> { Image(fills, BodyOf) }

  /** The mapped fills in result order, by time and then by fill id. */
  function MapFills(job: Job, trace: Trace, name: FillTrace -> Id): Option<seq<Fill>> {
    match PriceAll(job, Executions(trace.fills))
    case None => None
    case Some(bodies) => Some(Sort(Named(trace.fills, bodies, name), FillLe))
  }

  // ---------- outcomes ----------

  function OfOrder(id: Id): FillBody -> real {
    (f: FillBody) => if f.orderId == id then f.quantity else 0.0
  }

  function FilledTotal(fills: seq<FillBody>, id: Id): real { Sum(fills, OfOrder(id)) }

  function OutcomeFor(job: Job, order: Order, filled: real): Outcome {
    var (status, reason) := OutcomeStatus(order, filled, job.asOf);
    Outcome(order.id, status, order.quantity, filled, order.quantity - filled, reason)
  }

  predicate OutcomeLe(a: Outcome, b: Outcome) { a.orderId <= b.orderId }

  function Outcomes(job: Job, fills: seq<FillBody>): Option<seq<Outcome>> {
    if exists o | o in job.orders :: FilledTotal(fills, o.id) > o.quantity then None
    else Some(Sort(seq(|job.orders|, i requires 0 <= i < |job.orders| =>
                OutcomeFor(job, job.orders[i], FilledTotal(fills, job.orders[i].id))), OutcomeLe))
  }

  /** `_map_outcomes`: totals per order, then one outcome per order, an over-fill being an error. */
  method MapOutcomes(job: Job, fills: seq<FillBody>) returns (r: Option<seq<Outcome>>)
    ensures r == Outcomes(job, fills)
  {
    hide OutcomeFor;
    var totals: map<Id, real> := map[];
    for i := 0 to |fills|
      invariant forall id :: FilledTotal(fills[..i], id) == if id in totals then totals[id] else 0.0
    {
      var id := fills[i].orderId;
      totals := totals[id := (if id in totals then totals[id] else 0.0) + fills[i].quantity];
      assert fills[..i + 1][..i] == fills[..i];
    }
    assert fills[..|fills|] == fills;
    var outcomes: seq<Outcome> := [];
    for i := 0 to |job.orders|
      invariant |outcomes| == i
      invariant forall k | 0 <= k < i :: outcomes[k] == OutcomeFor(job, job.orders[k], FilledTotal(fills, job.orders[k].id))
      invariant forall k | 0 <= k < i :: FilledTotal(fills, job.orders[k].id) <= job.orders[k].quantity
    {
      var order := job.orders[i];
      var filled := if order.id in totals then totals[order.id] else 0.0;
      if filled > order.quantity {
        return None;
      }
      outcomes := outcomes + [OutcomeFor(job, order, filled)];
    }
    assert outcomes == seq(|job.orders|, i requires 0 <= i < |job.orders| =>
                OutcomeFor(job, job.orders[i], FilledTotal(fills, job.orders[i].id)));
    return Some(Sort(outcomes, OutcomeLe));
  }

  // ---------- projection ----------

  function Notional(f: FillBody): real { f.quantity * f.price }

  function SignedNotional(f: FillBody): real { if f.side.Buy? then Notional(f) else -Notional(f) }

  function Fees(f: FillBody): real { f.fees }

  function CashEffect(f: FillBody): real {
    if f.side.Buy? then -(Notional(f) + f.fees) else Notional(f) - f.fees
  }

  function PositionEffect(id: Id): FillBody -> real {
    (f: FillBody) =>
      if f.instrumentId != id then 0.0 else if f.side.Buy? then f.quantity else -f.quantity
  }

  predicate Holding(job: Job, id: Id) {
    exists p :: p in job.positions && p.instrumentId == id
  }

  /** Every fill is in the job's cash currency and in an instrument it holds a position row for. */
  predicate Projectable(job: Job, fills: seq<FillBody>) {
    forall f | f in fills :: f.currency == job.cash.currency && Holding(job, f.instrumentId)
  }

  function Opening(positions: seq<Position>): (m: map<Id, real>)
    ensures forall id :: id in m <==> exists p :: p in positions && p.instrumentId == id
  {
    if positions == [] then map[]
    else
      var n := |positions| - 1;
      assert positions == positions[..n] + [positions[n]];
      Opening(positions[..n])[positions[n].instrumentId := positions[n].quantity]
  }

  /** Cash and positions stand where the given fills put them. */
  ghost predicate Projected(job: Job, fills: seq<FillBody>, cash: map<Currency, real>, positions: map<Id, real>) {
    && cash == map[job.cash.currency := job.cash.amount + Sum(fills, CashEffect)]
    && positions.Keys == Opening(job.positions).Keys
    && forall id | id in positions :: positions[id] == Opening(job.positions)[id] + Sum(fills, PositionEffect(id))
  }

  lemma ProjectedStep(job: Job, fills: seq<FillBody>, fill: FillBody, cash: map<Currency, real>, positions: map<Id, real>)
    requires Projected(job, fills, cash, positions) && fill.currency in cash && fill.instrumentId in positions
    ensures Projected(job, fills + [fill], cash[fill.currency := cash[fill.currency] + CashEffect(fill)],
                      positions[fill.instrumentId := positions[fill.instrumentId] + PositionEffect(fill.instrumentId)(fill)])
  {
    hide Opening, CashEffect, PositionEffect, Sum;
    SumPush(fills, fill, CashEffect);
    forall id ensures Sum(fills + [fill], PositionEffect(id)) == Sum(fills, PositionEffect(id)) + PositionEffect(id)(fill) {
      SumPush(fills, fill, PositionEffect(id));
    }
    assert forall id | id != fill.instrumentId :: PositionEffect(id)(fill) == 0.0 by {
      ElsewhereNothing(fill);
    }
  }

  lemma ElsewhereNothing(fill: FillBody)
    ensures forall id | id != fill.instrumentId :: PositionEffect(id)(fill) == 0.0
  {
  }

  /** `_project`: the running cash and positions after every fill, or a missing key. */
  method Project(job: Job, fills: seq<FillBody>) returns (r: Option<(map<Currency, real>, map<Id, real>)>)
    ensures r.Some? <==> Projectable(job, fills)
    ensures r.Some? ==> Projected(job, fills, r.value.0, r.value.1)
  {
    hide Opening, Notional, Projected, Holding;
    var cash := map[job.cash.currency := job.cash.amount as real];
    var positions := Opening(job.positions);
    ProjectedStart(job);
    for i := 0 to |fills|
      invariant Projectable(job, fills[..i]) && Projected(job, fills[..i], cash, positions)
      invariant cash.Keys == {job.cash.currency} && positions.Keys == Opening(job.positions).Keys
    {
      var fill := fills[i];
      assert fills[..i + 1] == fills[..i] + [fill];
      HoldingOpens(job, fill.instrumentId);
      if fill.currency !in cash || fill.instrumentId !in positions {
        return None;
      }
      ProjectedStep(job, fills[..i], fill, cash, positions);
      if fill.side.Buy? {
        cash := cash[fill.currency := cash[fill.currency] - (Notional(fill) + fill.fees)];
        positions := positions[fill.instrumentId := positions[fill.instrumentId] + fill.quantity];
      } else {
        cash := cash[fill.currency := cash[fill.currency] + (Notional(fill) - fill.fees)];
        positions := positions[fill.instrumentId := positions[fill.instrumentId] - fill.quantity];
      }
    }
    assert fills[..|fills|] == fills;
    return Some((cash, positions));
  }

  lemma ProjectedStart(job: Job)
    ensures Projected(job, [], map[job.cash.currency := job.cash.amount as real], Opening(job.positions))
  {
  }

  lemma HoldingOpens(job: Job, id: Id)
    ensures Holding(job, id) <==> id in Opening(job.positions)
  {
  }

  /** Cash moves by minus the signed notional and minus the fees. */
  lemma {:induction false} CashConserved(fills: seq<FillBody>)
    ensures Sum(fills, CashEffect) == -Sum(fills, SignedNotional) - Sum(fills, Fees)
  {
    if fills != [] {
      CashConserved(fills[..|fills| - 1]);
    }
  }

  /** The order in which fills are applied cannot matter. */
  lemma ProjectionOrderFree(fills: seq<FillBody>, permuted: seq<FillBody>, id: Id)
    requires multiset(fills) == multiset(permuted)
    ensures Sum(fills, CashEffect) == Sum(permuted, CashEffect)
    ensures Sum(fills, PositionEffect(id)) == Sum(permuted, PositionEffect(id))
    ensures FilledTotal(fills, id) == FilledTotal(permuted, id)
    ensures Sum(fills, Fees) == Sum(permuted, Fees)
  {
    SumPermutation(fills, permuted, CashEffect);
    SumPermutation(fills, permuted, PositionEffect(id));
    SumPermutation(fills, permuted, OfOrder(id));
    SumPermutation(fills, permuted, Fees);
  }

  // ---------- the result ----------

  /** The balance and position models reject negative or unquantized values. */
  predicate Storable(job: Job, cash: real, positions: map<Id, real>) {
    && cash >= 0.0 && IsQuantized(cash, job.cash.quantum)
    && forall id | id in positions ::
         && positions[id] >= 0.0
         && var found := FindInstrument(job.instruments, id);
            found.Some? && IsQuantized(positions[id], found.value.quantityQuantum)
  }

  function FinalCash(job: Job, fills: seq<FillBody>): real {
    job.cash.amount + Sum(fills, CashEffect)
  }

  function FinalPositions(job: Job, fills: seq<FillBody>): map<Id, real> {
    map id | id in Opening(job.positions) :: Opening(job.positions)[id] + Sum(fills, PositionEffect(id))
  }

  /** Outcomes, cash, positions and fees of a list of fills, or None when the result models reject them. */
  function ReportOf(job: Job, fills: seq<FillBody>): Option<Report> {
    match Outcomes(job, fills)
    case None => None
    case Some(outcomes) =>
      if Projectable(job, fills) && Storable(job, FinalCash(job, fills), FinalPositions(job, fills)) then
        Some(Report(outcomes, map[job.cash.currency := FinalCash(job, fills)], FinalPositions(job, fills),
                    Sum(fills, Fees)))
      else None
  }

  /** `_map_result`: the fills in order and the report over them. */
  function MapResult(job: Job, trace: Trace, name: FillTrace -> Id): Option<(seq<Fill>, Report)> {
    if !ValidTrace(job, trace) then None
    else match MapFills(job, trace, name)
      case None => None
      case Some(fills) =>
        match ReportOf(job, Bodies(fills))
        case None => None
        case Some(report) => Some((fills, report))
  }

  /** `_map_result` as it runs: validate, map, total, project. */
  method RunMapping(job: Job, trace: Trace, name: FillTrace -> Id) returns (r: Option<(seq<Fill>, Report)>)
    ensures r == MapResult(job, trace, name)
  {
    hide ValidTrace, MapFills, Outcomes, Opening, Storable, Projectable;
    if !ValidTrace(job, trace) {
      return None;
    }
    var fills := MapFills(job, trace, name);
    if fills.None? {
      return None;
    }
    var bodies := Bodies(fills.value);
    var outcomes := MapOutcomes(job, bodies);
    if outcomes.None? {
      return None;
    }
    var projected := Project(job, bodies);
    if projected.None? {
      return None;
    }
    var (cash, positions) := projected.value;
    assert positions == FinalPositions(job, bodies);
    assert cash[job.cash.currency] == FinalCash(job, bodies);
    if !Storable(job, cash[job.cash.currency], positions) {
      return None;
    }
    return Some((fills.value, Report(outcomes.value, cash, positions, Sum(bodies, Fees))));
  }

  /** A report depends on its fills only as a multiset. */
  lemma ReportOrderFree(job: Job, fills: seq<FillBody>, permuted: seq<FillBody>)
    requires multiset(fills) == multiset(permuted)
    ensures ReportOf(job, fills) == ReportOf(job, permuted)
  {
    hide Outcomes, Opening, Holding, Storable, FilledTotal, CashEffect, PositionEffect, Fees, FinalPositions;
    SameElements(fills, permuted);
    forall id ensures FilledTotal(fills, id) == FilledTotal(permuted, id) {
      ProjectionOrderFree(fills, permuted, id);
    }
    ProjectionOrderFree(fills, permuted, 0);
    PositionsAgree(job, fills, permuted);
    OutcomesAgree(job, fills, permuted);
  }

  lemma PositionsAgree(job: Job, fills: seq<FillBody>, permuted: seq<FillBody>)
    requires multiset(fills) == multiset(permuted)
    ensures FinalPositions(job, fills) == FinalPositions(job, permuted)
  {
    hide Opening, PositionEffect;
    forall id ensures Sum(fills, PositionEffect(id)) == Sum(permuted, PositionEffect(id)) {
      ProjectionOrderFree(fills, permuted, id);
    }
  }

  lemma OutcomesAgree(job: Job, fills: seq<FillBody>, permuted: seq<FillBody>)
    requires forall id :: FilledTotal(fills, id) == FilledTotal(permuted, id)
    ensures Outcomes(job, fills) == Outcomes(job, permuted)
  {
    hide OutcomeFor, Sort;
    assert seq(|job.orders|, i requires 0 <= i < |job.orders| =>
             OutcomeFor(job, job.orders[i], FilledTotal(fills, job.orders[i].id)))
        == seq(|job.orders|, i requires 0 <= i < |job.orders| =>
             OutcomeFor(job, job.orders[i], FilledTotal(permuted, job.orders[i].id)));
  }
}

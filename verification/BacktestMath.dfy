/** The deterministic economics both adapters share. */
module BacktestMath {
  import opened Wrappers
  import opened BacktestQuanta
  import opened BacktestContracts

  const BPS := 10000.0

  function Min(a: real, b: real): real { if a <= b then a else b }
  function Max(a: real, b: real): real { if a >= b then a else b }

  /** What pricing an order against a bar gives: an error, no crossing, or a price. */
  datatype Quote = Raises | NoCross | At(price: Positive)

  function Participation(order: Order, bar: Bar, cost: CostModel): real {
    Min(cost.maxParticipation, if bar.volume == 0.0 then 0.0 else order.quantity / bar.volume)
  }

  function AdverseBps(order: Order, bar: Bar, cost: CostModel): real {
    cost.halfSpreadBps + cost.baseSlippageBps
      + cost.impactBps * Participation(order, bar, cost) / cost.maxParticipation
  }

  /** The open moved against the order by a share of itself. */
  function Shifted(side: Side, open: real, share: real): real {
    if side.Buy? then open * (1.0 + share) else open * (1.0 - share)
  }

  function AdversePrice(order: Order, bar: Bar, instrument: Instrument, cost: CostModel): real {
    var shifted := Shifted(order.side, bar.open, AdverseBps(order, bar, cost) / BPS);
    if order.side.Buy? then CeilQuantum(shifted, instrument.priceQuantum)
    else FloorQuantum(shifted, instrument.priceQuantum)
  }

  /** `canonical_fill_price`. */
  function FillPrice(order: Order, bar: Bar, instrument: Instrument, cost: CostModel): Quote {
    var adjusted := AdversePrice(order, bar, instrument, cost);
    if adjusted <= 0.0 then Raises
    else if order.orderType.Market? then At(adjusted)
    else match order.limitPrice
      case None => NoCross
      case Some(limit) =>
        if order.side.Buy? then (if bar.open <= limit then At(Min(adjusted, limit)) else NoCross)
        else (if bar.open >= limit then At(Max(adjusted, limit)) else NoCross)
  }

  function RawFee(quantity: real, price: real, cost: CostModel): real {
    quantity * price * (cost.feeBps / BPS) + quantity * cost.perUnitFee
  }

  /** `canonical_fill_fee`. */
  function FillFee(quantity: real, price: real, cost: CostModel): real {
    CeilQuantum(Max(RawFee(quantity, price, cost), cost.minimumFee), cost.feeQuantum)
  }

  /** `canonical_outcome_status`, with its reason text. */
  function OutcomeStatus(order: Order, filled: real, asOf: Time): (OrderStatus, Option<string>) {
    if filled == order.quantity then (Filled, None)
    else if filled > 0.0 then (PartiallyFilled, Some("canonical_partial_fill"))
    else if order.timeInForce.Ioc? then (Cancelled, Some("canonical_ioc_unfilled"))
    else if order.timeInForce.Day? then (Cancelled, Some("canonical_day_unfilled"))
    else if asOf >= order.validUntil then (Expired, Some("canonical_validity_expired"))
    else (Accepted, Some("canonical_pending"))
  }

  lemma ImpactBounded(impact: real, participation: real, most: real)
    requires impact >= 0.0 && 0.0 <= participation <= most && most > 0.0
    ensures 0.0 <= impact * participation / most <= impact
  {
    var q := impact * participation / most;
    DivideCancels(impact * participation, most);
    QuotientBetween(q, impact * participation, impact, most) by {
      ProductOrder(impact, participation, most);
    }
  }

  lemma ProductOrder(impact: real, participation: real, most: real)
    requires impact >= 0.0 && 0.0 <= participation <= most
    ensures 0.0 <= impact * participation <= impact * most
  {
  }

  lemma QuotientBetween(q: real, product: real, impact: real, most: real)
    requires most > 0.0 && q * most == product && 0.0 <= product <= impact * most
    ensures 0.0 <= q <= impact
  {
    assert (impact - q) * most >= 0.0;
  }

  lemma DivideMonotone(a: real, b: real, d: real)
    requires a <= b && d > 0.0
    ensures a / d <= b / d
  {
    assert (b - a) / d == b / d - a / d;
  }

  lemma ParticipationBounded(order: Order, bar: Bar, cost: CostModel)
    ensures 0.0 <= Participation(order, bar, cost) <= cost.maxParticipation
  {
    if bar.volume > 0.0 {
      DivideMonotone(0.0, order.quantity, bar.volume);
    }
  }

  lemma AdverseBounded(order: Order, bar: Bar, cost: CostModel)
    ensures 0.0 <= AdverseBps(order, bar, cost) <= cost.halfSpreadBps + cost.baseSlippageBps + cost.impactBps
  {
    ParticipationBounded(order, bar, cost);
    ImpactBounded(cost.impactBps, Participation(order, bar, cost), cost.maxParticipation);
  }

  lemma ShiftedMonotone(side: Side, open: real, share: real, more: real)
    requires open > 0.0 && share <= more
    ensures if side.Buy? then Shifted(side, open, share) <= Shifted(side, open, more)
            else Shifted(side, open, share) >= Shifted(side, open, more)
    ensures Shifted(side, open, 0.0) == open
  {
    assert open * (more - share) >= 0.0;
  }

  /** A BUY is never priced below the open, so its quote cannot be refused as non-positive. */
  lemma BuyPricePositive(order: Order, bar: Bar, instrument: Instrument, cost: CostModel)
    requires order.side.Buy?
    ensures AdversePrice(order, bar, instrument, cost) >= bar.open
  {
    AdverseBounded(order, bar, cost);
    hide AdverseBps, Shifted;
    DivideMonotone(0.0, AdverseBps(order, bar, cost), BPS);
    ShiftedMonotone(Buy, bar.open, 0.0, AdverseBps(order, bar, cost) / BPS);
  }

  lemma FloorKeepsQuantum(value: real, quantum: real)
    requires value >= quantum > 0.0
    ensures FloorQuantum(value, quantum) >= quantum
  {
    assert Quanta(1, quantum) == quantum;
    QuantaAreQuantized(1, quantum);
    FloorAbsorbs(quantum, value, quantum);
  }

  /** A SELL keeps at least one price quantum when the job's price bound holds at the bar. */
  lemma SellPricePositive(order: Order, bar: Bar, instrument: Instrument, cost: CostModel)
    requires order.side.Sell?
    requires Shifted(Sell, bar.open, (cost.halfSpreadBps + cost.baseSlippageBps + cost.impactBps) / BPS)
               >= instrument.priceQuantum
    ensures AdversePrice(order, bar, instrument, cost) >= instrument.priceQuantum
  {
    AdverseBounded(order, bar, cost);
    hide AdverseBps, Shifted, FloorQuantum;
    var worst := cost.halfSpreadBps + cost.baseSlippageBps + cost.impactBps;
    var adverse := AdverseBps(order, bar, cost);
    DivideMonotone(adverse, worst, BPS);
    ShiftedMonotone(Sell, bar.open, adverse / BPS, worst / BPS);
    FloorKeepsQuantum(Shifted(Sell, bar.open, adverse / BPS), instrument.priceQuantum);
  }

  /** In a valid job no order can be refused a price on a bar of its own instrument. */
  lemma ValidJobPrices(job: Job, order: Order, bar: Bar, instrument: Instrument)
    requires SellPricesBounded(job) && order in job.orders && bar in job.bars
    requires bar.instrumentId == order.instrumentId
    requires FindInstrument(job.instruments, bar.instrumentId) == Some(instrument)
    ensures FillPrice(order, bar, instrument, job.cost) != Raises
  {
    if order.side.Buy? {
      BuyPricePositive(order, bar, instrument, job.cost);
    } else {
      SellPricePositive(order, bar, instrument, job.cost);
    }
  }

  /** A LIMIT order is filled between the open and its limit. */
  lemma LimitRespected(order: Order, bar: Bar, instrument: Instrument, cost: CostModel)
    requires order.orderType.Limit? && order.limitPrice.Some?
    requires FillPrice(order, bar, instrument, cost).At?
    ensures var price := FillPrice(order, bar, instrument, cost).price;
            if order.side.Buy? then bar.open <= price <= order.limitPrice.value
            else order.limitPrice.value <= price <= bar.open
  {
    if order.side.Buy? {
      BuyPricePositive(order, bar, instrument, cost);
    } else {
      AdverseBounded(order, bar, cost);
      hide AdverseBps, Shifted;
      DivideMonotone(0.0, AdverseBps(order, bar, cost), BPS);
      ShiftedMonotone(Sell, bar.open, 0.0, AdverseBps(order, bar, cost) / BPS);
    }
  }
}

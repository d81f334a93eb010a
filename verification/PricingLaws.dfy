/** What a price and a fee are, from the fields of the order, the bar, the instrument and the cost model. */
module PricingLaws {
  import opened Wrappers
  import opened BacktestQuanta
  import opened BacktestContracts
  import opened BacktestMath

  /** Half spread, slippage and impact; impact in full once the order is the bar's whole participation share. */
  ghost function Adversity(order: Order, bar: Bar, cost: CostModel): real {
    var part := if bar.volume == 0.0 then 0.0
                else if order.quantity >= bar.volume * cost.maxParticipation then 1.0
                else order.quantity / (bar.volume * cost.maxParticipation);
    cost.halfSpreadBps + cost.baseSlippageBps + cost.impactBps * part
  }

  /**
   `quote` is the open moved against the order by the adversity and rounded against it to whole quanta: up for
   a BUY, down for a SELL.
   */
  ghost predicate AdverseQuote(side: Side, open: real, adversity: real, quantum: real, quote: real) {
    if side.Buy? then quote - quantum < open * (1.0 + adversity / 10000.0) <= quote
    else quote <= open * (1.0 - adversity / 10000.0) < quote + quantum
  }

  /**
   A MARKET order pays the adverse quote. A LIMIT order trades only if the open does not break its limit, and
   pays the quote or its limit, whichever is better for it. A quote that is not positive is refused.
   */
  ghost predicate PaysFor(order: Order, bar: Bar, instrument: Instrument, cost: CostModel, quanta: int, price: real) {
    var quote := Quanta(quanta, instrument.priceQuantum);
    && quote > 0.0
    && AdverseQuote(order.side, bar.open, Adversity(order, bar, cost), instrument.priceQuantum, quote)
    && match (order.orderType, order.limitPrice)
       case (Market, _) => price == quote
       case (Limit, None) => false
       case (Limit, Some(limit)) =>
         if order.side.Buy? then bar.open <= limit && price == Min(quote, limit)
         else bar.open >= limit && price == Max(quote, limit)
  }

  ghost predicate Priced(order: Order, bar: Bar, instrument: Instrument, cost: CostModel, price: real) {
    exists quanta: int :: PaysFor(order, bar, instrument, cost, quanta, price)
  }

  /** The least whole number of fee quanta that covers both the minimum fee and the proportional fee. */
  ghost predicate Charged(quantity: real, price: real, cost: CostModel, fee: real) {
    && (exists quanta: int :: fee == Quanta(quanta, cost.feeQuantum))
    && cost.minimumFee <= fee
    && quantity * price * cost.feeBps / 10000.0 + quantity * cost.perUnitFee <= fee
    && (fee - cost.feeQuantum < cost.minimumFee
        || fee - cost.feeQuantum < quantity * price * cost.feeBps / 10000.0 + quantity * cost.perUnitFee)
  }

  lemma MoreThanShare(quantity: real, volume: real, most: real)
    requires volume > 0.0 && most > 0.0
    ensures quantity / volume >= most <==> quantity >= volume * most
  {
    DivideCancels(quantity, volume);
    var ratio := quantity / volume;
    if ratio >= most {
      assert (ratio - most) * volume >= 0.0;
    } else {
      assert (most - ratio) * volume > 0.0;
    }
  }

  lemma ScaledByShare(impact: real, quantity: real, volume: real, most: real)
    requires volume > 0.0 && most > 0.0
    ensures volume * most > 0.0 && impact * (quantity / volume) / most == impact * (quantity / (volume * most))
  {
    var ratio, part := quantity / volume, quantity / (volume * most);
    DivideCancels(quantity, volume);
    DivideCancels(quantity, volume * most);
    assert part * (volume * most) == part * most * volume;
    SameFactor(ratio, part * most, volume);
    assert impact * ratio == impact * part * most;
    QuotientIs(impact * ratio, most, impact * part);
  }

  lemma SameFactor(a: real, b: real, f: real)
    requires f > 0.0 && a * f == b * f
    ensures a == b
  {
    assert (a - b) * f == 0.0;
  }

  lemma QuotientIs(value: real, most: real, q: real)
    requires most > 0.0 && value == q * most
    ensures value / most == q
  {
    DivideCancels(value, most);
    SameFactor(value / most, q, most);
  }

  lemma AdversityIs(order: Order, bar: Bar, cost: CostModel)
    ensures AdverseBps(order, bar, cost) == Adversity(order, bar, cost)
  {
    var most := cost.maxParticipation;
    if bar.volume == 0.0 {
      QuotientIs(cost.impactBps * 0.0, most, 0.0);
    } else {
      MoreThanShare(order.quantity, bar.volume, most);
      ScaledByShare(cost.impactBps, order.quantity, bar.volume, most);
      QuotientIs(cost.impactBps * most, most, cost.impactBps);
    }
  }

  lemma FloorCounts(value: real, quantum: real) returns (quanta: int)
    requires quantum > 0.0
    ensures FloorQuantum(value, quantum) == Quanta(quanta, quantum)
  {
    quanta := (value / quantum).Floor;
  }

  lemma CeilCounts(value: real, quantum: real) returns (quanta: int)
    requires quantum > 0.0
    ensures CeilQuantum(value, quantum) == Quanta(quanta, quantum)
  {
    quanta := FloorCounts(-value, quantum);
    quanta := -quanta;
    QuantaMonotone(0, -quanta, quantum);
  }

  lemma QuoteIs(order: Order, bar: Bar, instrument: Instrument, cost: CostModel) returns (quanta: int)
    ensures AdversePrice(order, bar, instrument, cost) == Quanta(quanta, instrument.priceQuantum)
    ensures AdverseQuote(order.side, bar.open, Adversity(order, bar, cost), instrument.priceQuantum,
                         Quanta(quanta, instrument.priceQuantum))
  {
    AdversityIs(order, bar, cost);
    hide AdverseBps, Adversity, FloorQuantum, CeilQuantum, Quanta;
    var shifted := Shifted(order.side, bar.open, AdverseBps(order, bar, cost) / BPS);
    if order.side.Buy? {
      quanta := CeilCounts(shifted, instrument.priceQuantum);
    } else {
      quanta := FloorCounts(shifted, instrument.priceQuantum);
    }
  }

  lemma QuoteUnique(side: Side, open: real, adversity: real, quantum: real, m: int, n: int)
    requires quantum > 0.0
    requires AdverseQuote(side, open, adversity, quantum, Quanta(m, quantum))
    requires AdverseQuote(side, open, adversity, quantum, Quanta(n, quantum))
    ensures m == n
  {
    hide Quanta;
    QuantaMonotone(m + 1, n, quantum);
    QuantaMonotone(n + 1, m, quantum);
    QuantaMonotone(m, n, quantum);
    QuantaMonotone(n, m, quantum);
  }

  /** The fill model quotes a price exactly when the order trades at it by the cost model. */
  lemma PriceExactly(order: Order, bar: Bar, instrument: Instrument, cost: CostModel, price: real)
    ensures Priced(order, bar, instrument, cost, price) <==>
            FillPrice(order, bar, instrument, cost).At? && FillPrice(order, bar, instrument, cost).price == price
  {
    var quanta := QuoteIs(order, bar, instrument, cost);
    forall n: int | PaysFor(order, bar, instrument, cost, n, price) ensures n == quanta {
      QuoteUnique(order.side, bar.open, Adversity(order, bar, cost), instrument.priceQuantum, n, quanta);
    }
    hide AdverseQuote, AdversePrice, Quanta, Adversity;
    assert Priced(order, bar, instrument, cost, price) <==> PaysFor(order, bar, instrument, cost, quanta, price);
  }

  lemma ChargeUnique(quantity: real, price: real, cost: CostModel, a: real, b: real)
    requires Charged(quantity, price, cost, a) && Charged(quantity, price, cost, b)
    ensures a == b
  {
    var m: int :| a == Quanta(m, cost.feeQuantum);
    var n: int :| b == Quanta(n, cost.feeQuantum);
    hide Quanta;
    QuantaMonotone(m + 1, n, cost.feeQuantum);
    QuantaMonotone(n + 1, m, cost.feeQuantum);
    QuantaMonotone(m, n, cost.feeQuantum);
    QuantaMonotone(n, m, cost.feeQuantum);
  }

  lemma ChargeIs(quantity: real, price: real, cost: CostModel)
    ensures Charged(quantity, price, cost, FillFee(quantity, price, cost))
  {
    FeeRate(quantity, price, cost.feeBps);
    hide CeilQuantum, Quanta;
    var quanta := CeilCounts(Max(RawFee(quantity, price, cost), cost.minimumFee), cost.feeQuantum);
  }

  lemma FeeRate(quantity: real, price: real, bps: real)
    ensures quantity * price * (bps / BPS) == quantity * price * bps / 10000.0
  {
    var rate := bps / BPS;
    assert rate * BPS == bps;
    assert quantity * price * rate * BPS == quantity * price * bps;
    QuotientIs(quantity * price * bps, BPS, quantity * price * rate);
  }
}

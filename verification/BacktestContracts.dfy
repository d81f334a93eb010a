/**
 The engine-neutral backtest job: its records, the calendar index, and the conditions every job
 satisfies because the contract models reject anything else on construction.
 Decimal values are exact reals; a UUID is the number its hexadecimal form writes.
 */
module BacktestContracts {
  import opened Wrappers
  import opened Identifiers
  import opened BacktestQuanta

  type Id = nat
  type Time = int
  type Date = int
  type Currency = string

  datatype Side = Buy | Sell
  datatype OrderType = Market | Limit
  datatype TimeInForce = Day | Gtc | Ioc
  datatype OrderStatus = Accepted | PartiallyFilled | Filled | Rejected | Cancelled | Expired

  datatype Instrument =
    Instrument(id: Id, mic: string, currency: Currency, priceQuantum: Positive, quantityQuantum: Positive)

  datatype Session = Session(date: Date, mic: string, opensAt: Time, closesAt: Time)

  datatype Bar =
    Bar(id: Id, instrumentId: Id, opensAt: Time, closesAt: Time, open: Positive, volume: NonNegative, tradable: bool)

  datatype CostModel =
    CostModel(maxParticipation: Positive, halfSpreadBps: NonNegative, baseSlippageBps: NonNegative,
              impactBps: NonNegative, feeBps: NonNegative, perUnitFee: NonNegative,
              minimumFee: NonNegative, feeQuantum: Positive)

  datatype Order =
    Order(id: Id, sequence: nat, instrumentId: Id, side: Side, orderType: OrderType, quantity: Positive,
          limitPrice: Option<Positive>, timeInForce: TimeInForce, issuedAt: Time, validUntil: Time)

  datatype CashBalance = CashBalance(currency: Currency, amount: NonNegative, quantum: Positive)
  datatype Position = Position(instrumentId: Id, quantity: NonNegative)

  datatype Job =
    Job(instruments: seq<Instrument>, sessions: seq<Session>, bars: seq<Bar>, cost: CostModel,
        orders: seq<Order>, asOf: Time, baseCurrency: Currency, cash: CashBalance,
        positions: seq<Position>)

  function FindInstrument(instruments: seq<Instrument>, id: Id): (r: Option<Instrument>)
    ensures r.Some? ==> r.value in instruments && r.value.id == id
    ensures r.None? ==> forall i | i in instruments :: i.id != id
  {
    if instruments == [] then None
    else if instruments[0].id == id then Some(instruments[0])
    else FindInstrument(instruments[1..], id)
  }

  // ---------- the calendar index ----------

  /** Python's `bisect_right`: where `x` would go after every element not above it. */
  function BisectRight(times: seq<Time>, x: Time): (i: nat)
    ensures i <= |times|
    ensures forall k | i <= k < |times| :: times[k] > x
    ensures i > 0 ==> times[i - 1] <= x
  {
    if times == [] then 0
    else if times[|times| - 1] <= x then |times|
    else BisectRight(times[..|times| - 1], x)
  }

  function ScopedSessions(sessions: seq<Session>, mic: string): (r: seq<Session>)
    ensures forall s | s in r :: s in sessions && s.mic == mic
    ensures forall s | s in sessions && s.mic == mic :: s in r
  {
    if sessions == [] then []
    else (if sessions[0].mic == mic then [sessions[0]] else []) + ScopedSessions(sessions[1..], mic)
  }

  function Opens(scoped: seq<Session>): (r: seq<Time>)
    ensures |r| == |scoped|
    ensures forall i | 0 <= i < |scoped| :: r[i] == scoped[i].opensAt
  {
    seq(|scoped|, i requires 0 <= i < |scoped| => scoped[i].opensAt)
  }

  function Closes(scoped: seq<Session>): (r: seq<Time>)
    ensures |r| == |scoped|
    ensures forall i | 0 <= i < |scoped| :: r[i] == scoped[i].closesAt
  {
    seq(|scoped|, i requires 0 <= i < |scoped| => scoped[i].closesAt)
  }

  predicate Holds(session: Session, bar: Bar) {
    session.opensAt <= bar.opensAt < bar.closesAt <= session.closesAt
  }

  /** `session_for_bar` over the sessions of one market. */
  function SessionIn(scoped: seq<Session>, bar: Bar): Option<Session> {
    var position := BisectRight(Opens(scoped), bar.opensAt) - 1;
    if position < 0 then None
    else if Holds(scoped[position], bar) then Some(scoped[position])
    else None
  }

  /** `first_session_date` over the sessions of one market. */
  function FirstDateIn(scoped: seq<Session>, order: Order): Option<Date> {
    var position := BisectRight(Closes(scoped), order.issuedAt);
    if position >= |scoped| || scoped[position].opensAt >= order.validUntil then None
    else Some(scoped[position].date)
  }

  function SessionForBar(sessions: seq<Session>, bar: Bar, mic: string): Option<Session> {
    SessionIn(ScopedSessions(sessions, mic), bar)
  }

  function FirstSessionDate(sessions: seq<Session>, order: Order, mic: string): Option<Date> {
    FirstDateIn(ScopedSessions(sessions, mic), order)
  }

  /** The session date of an order's own market on which a DAY order may trade. */
  function FirstDate(job: Job, order: Order): Option<Date> {
    match FindInstrument(job.instruments, order.instrumentId)
    case None => None
    case Some(instrument) => FirstSessionDate(job.sessions, order, instrument.mic)
  }

  /** Sessions follow each other without overlap. */
  ghost predicate OneMarket(scoped: seq<Session>) {
    forall i, j | 0 <= i < j < |scoped| ::
      scoped[i].opensAt < scoped[i].closesAt <= scoped[j].opensAt < scoped[j].closesAt
  }

  /** What the calendar model checks: each market's sessions, taken alone, follow each other. */
  ghost predicate ValidCalendar(sessions: seq<Session>) {
    forall mic :: OneMarket(ScopedSessions(sessions, mic))
  }

  /** The bisection finds the one session of the market that contains the bar, when there is one. */
  lemma SessionForBarFinds(scoped: seq<Session>, bar: Bar, session: Session)
    requires OneMarket(scoped)
    ensures SessionIn(scoped, bar) == Some(session) <==> session in scoped && Holds(session, bar)
  {
    var p := BisectRight(Opens(scoped), bar.opensAt);
    if session in scoped && Holds(session, bar) {
      var k :| 0 <= k < |scoped| && scoped[k] == session;
      assert Opens(scoped)[k] <= bar.opensAt;
      assert k < p;
      assert Opens(scoped)[p - 1] <= bar.opensAt;
    }
  }

  /** Session `p` of the market is the first one not yet closed when the order is issued. */
  ghost predicate IsFirstSession(scoped: seq<Session>, order: Order, p: nat) {
    && p < |scoped|
    && scoped[p].closesAt > order.issuedAt && scoped[p].opensAt < order.validUntil
    && forall k | 0 <= k < p :: scoped[k].closesAt <= order.issuedAt
  }

  /** `first_session_date` names the first open session, and is None exactly when there is none. */
  lemma FirstSessionFinds(scoped: seq<Session>, order: Order)
    requires OneMarket(scoped)
    ensures FirstDateIn(scoped, order).Some? <==> exists p: nat :: IsFirstSession(scoped, order, p)
    ensures forall p: nat | IsFirstSession(scoped, order, p) :: FirstDateIn(scoped, order) == Some(scoped[p].date)
  {
    var closes := Closes(scoped);
    var q := BisectRight(closes, order.issuedAt);
    assert forall k | q <= k < |scoped| :: scoped[k].closesAt == closes[k] > order.issuedAt;
    assert forall k | 0 <= k < q :: scoped[k].closesAt <= order.issuedAt;
    if FirstDateIn(scoped, order).Some? {
      assert IsFirstSession(scoped, order, q);
    }
  }

  // ---------- what a constructed job satisfies ----------

  ghost predicate ValidInstruments(job: Job) {
    && (forall i, j | 0 <= i < j < |job.instruments| :: job.instruments[i].id < job.instruments[j].id)
    && (forall i | i in job.instruments :: i.currency == job.baseCurrency)
  }

  ghost predicate ValidBars(job: Job) {
    && (forall i, j | 0 <= i < j < |job.bars| ::
          && job.bars[i].opensAt <= job.bars[j].opensAt
          && job.bars[i].id != job.bars[j].id
          && (job.bars[i].instrumentId == job.bars[j].instrumentId ==>
                job.bars[i].closesAt <= job.bars[j].opensAt))
    && (forall bar | bar in job.bars ::
          && bar.opensAt < bar.closesAt
          && var found := FindInstrument(job.instruments, bar.instrumentId);
             && found.Some? && SessionForBar(job.sessions, bar, found.value.mic).Some?
             && IsQuantized(bar.open, found.value.priceQuantum))
  }

  ghost predicate ValidCost(cost: CostModel) {
    && cost.maxParticipation <= 1.0
    && cost.halfSpreadBps + cost.baseSlippageBps + cost.impactBps < 10000.0
  }

  ghost predicate ValidOrder(job: Job, order: Order) {
    && IsUuid(order.id) && order.issuedAt < order.validUntil
    && (order.limitPrice.Some? <==> order.orderType.Limit?)
    && var found := FindInstrument(job.instruments, order.instrumentId);
       && found.Some? && IsQuantized(order.quantity, found.value.quantityQuantum)
       && (order.limitPrice.Some? ==> IsQuantized(order.limitPrice.value, found.value.priceQuantum))
  }

  ghost predicate DistinctOrders(orders: seq<Order>) {
    forall i, j | 0 <= i < j < |orders| :: orders[i].id != orders[j].id
  }

  /** Every bar a SELL could meet keeps a price of at least one quantum after all adverse costs. */
  ghost predicate SellPricesBounded(job: Job) {
    forall bar, order | bar in job.bars && order in job.orders && order.side.Sell?
                        && order.instrumentId == bar.instrumentId ::
      var found := FindInstrument(job.instruments, bar.instrumentId);
      found.Some? ==>
        bar.open * (1.0 - (job.cost.halfSpreadBps + job.cost.baseSlippageBps + job.cost.impactBps) / 10000.0)
          >= found.value.priceQuantum
  }

  ghost predicate ValidOpening(job: Job) {
    && job.cash.currency == job.baseCurrency
    && |job.positions| == |job.instruments|
    && (forall i | 0 <= i < |job.positions| :: job.positions[i].instrumentId == job.instruments[i].id)
  }

  ghost predicate ValidJob(job: Job) {
    && ValidInstruments(job) && ValidCalendar(job.sessions) && ValidBars(job) && ValidCost(job.cost)
    && (forall order | order in job.orders :: ValidOrder(job, order))
    && (forall i | 0 <= i < |job.orders| :: job.orders[i].sequence == i + 1)
    && DistinctOrders(job.orders) && SellPricesBounded(job) && ValidOpening(job)
  }
}

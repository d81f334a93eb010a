/**
 Which session a DAY order's children lie in. The schedulers compare session dates, so a market with
 two sessions on one date can carry an order past its first session; this module says exactly when.
 */
module DayOrders {
  import opened Wrappers
  import opened Sorting
  import opened Identifiers
  import opened BacktestQuanta
  import opened BacktestContracts
  import opened BacktestMath
  import opened Allocator
  import opened ChildLaws
  import opened ScheduleTheorems

  ghost predicate TradesIn(job: Job, child: Child, session: Session) {
    exists bar :: bar in job.bars && bar.id == child.barId && Holds(session, bar)
  }

  /** A valid job over the given calendar that carries the order at priority `k`, on the given market. */
  ghost predicate Carries(job: Job, k: nat, order: Order, sessions: seq<Session>, mic: string) {
    && ValidJob(job) && job.sessions == sessions
    && k < |job.orders| && job.orders[k] == order.(sequence := k + 1)
    && var found := FindInstrument(job.instruments, order.instrumentId);
       found.Some? && found.value.mic == mic
  }

  /** In every job and every schedule of it, each child of the order trades inside the session. */
  ghost predicate StaysIn(session: Session, order: Order, sessions: seq<Session>, mic: string) {
    forall plan: Plan, k: nat, child: Child
      | Carries(plan.job, k, order, sessions, mic) && Schedule(plan).Ok?
        && child in ChildrenOf(Schedule(plan).value, order.id) ::
      TradesIn(plan.job, child, session)
  }

  /** Session `q` shares the first session's date, comes after it, and opens before the order expires. */
  predicate SecondChance(scoped: seq<Session>, order: Order, first: nat, q: nat) {
    first < q < |scoped| && scoped[q].date == scoped[first].date && scoped[q].opensAt < order.validUntil
  }

  // ---------- without a second chance ----------

  lemma FirstIsUnique(scoped: seq<Session>, order: Order, p: nat, q: nat)
    requires IsFirstSession(scoped, order, p) && IsFirstSession(scoped, order, q)
    ensures p == q
  {
  }

  /** A bar on the first date, inside the order's window, lies in the first session or in a second chance. */
  lemma BarInFirst(scoped: seq<Session>, order: Order, bar: Bar, session: Session, first: nat)
    requires OneMarket(scoped) && OnFirstDate(scoped, order, bar, session, first)
    requires order.issuedAt < bar.opensAt < order.validUntil
    requires forall q: nat :: !SecondChance(scoped, order, first, q)
    ensures session == scoped[first]
  {
    var s: nat :| s < |scoped| && scoped[s] == session;
    assert !SecondChance(scoped, order, first, s);
  }

  lemma ChildInFirst(plan: Plan, k: nat, child: Child, order: Order, sessions: seq<Session>, mic: string, first: nat)
    requires Carries(plan.job, k, order, sessions, mic) && Schedule(plan).Ok? && order.timeInForce.Day?
    requires child in ChildrenOf(Schedule(plan).value, order.id)
    requires IsFirstSession(ScopedSessions(sessions, mic), order, first)
    requires forall q: nat :: !SecondChance(ScopedSessions(sessions, mic), order, first, q)
    ensures TradesIn(plan.job, child, ScopedSessions(sessions, mic)[first])
  {
    var bar, session, p := DayOnFirstDate(plan, k, child);
    assert ValidCalendar(sessions);
    hide ValidJob, Schedule, ChildrenOf, ScopedSessions, Fillable, IsQuantized, OneMarket, SecondChance;
    var scoped := ScopedSessions(sessions, mic);
    assert IsFirstSession(scoped, order, p);
    FirstIsUnique(scoped, order, p, first);
    assert OnFirstDate(scoped, order, bar, session, first);
    BarInFirst(scoped, order, bar, session, first);
  }

  // ---------- with a second chance ----------

  function PriceOf(order: Order): Positive {
    if order.limitPrice.Some? then order.limitPrice.value else 1.0
  }

  function OnlyBar(order: Order, session: Session): Bar {
    Bar(0, order.instrumentId, session.opensAt, session.closesAt, PriceOf(order), order.quantity, true)
  }

  function OnlyInstrument(order: Order, mic: string): Instrument {
    Instrument(order.instrumentId, mic, "USD", PriceOf(order), order.quantity)
  }

  const Free := CostModel(1.0, 0.0, 0.0, 0.0, 0.0, 0.0, 0.0, 1.0)

  /** One instrument, one tradable bar over the whole of the given session, and the order alone. */
  function OneBarJob(order: Order, sessions: seq<Session>, mic: string, session: Session): Job {
    Job([OnlyInstrument(order, mic)], sessions, [OnlyBar(order, session)], Free, [order.(sequence := 1)],
        session.closesAt, "USD", CashBalance("USD", 0.0, 1.0), [Position(order.instrumentId, 0.0)])
  }

  /** What the order model checks of an order by itself. */
  predicate WellFormed(order: Order) {
    IsUuid(order.id) && order.issuedAt < order.validUntil && (order.limitPrice.Some? <==> order.orderType.Limit?)
  }

  lemma OwnMultiple(x: Positive)
    ensures IsQuantized(x, x) && FloorQuantum(x * 1.0, x) > 0.0
  {
    hide IsQuantized, FloorQuantum;
    QuantaAreQuantized(1, x);
    FloorIsQuantized(x, x);
    assert Quanta(1, x) == x;
    assert FloorQuantum(x, x) == x;
    assert x * 1.0 == x;
  }

  lemma OneBarValid(order: Order, sessions: seq<Session>, mic: string, session: Session)
    requires WellFormed(order) && ValidCalendar(sessions) && session.opensAt < session.closesAt
    requires session in ScopedSessions(sessions, mic)
    ensures ValidJob(OneBarJob(order, sessions, mic, session))
    ensures SessionForBar(sessions, OnlyBar(order, session), mic) == Some(session)
  {
    hide IsQuantized, FloorQuantum, SessionIn, OneMarket, ScopedSessions;
    var job := OneBarJob(order, sessions, mic, session);
    assert OneMarket(ScopedSessions(sessions, mic));
    SessionForBarFinds(ScopedSessions(sessions, mic), OnlyBar(order, session), session);
    OwnMultiple(PriceOf(order));
    OwnMultiple(order.quantity);
    assert FindInstrument(job.instruments, order.instrumentId) == Some(OnlyInstrument(order, mic));
  }

  lemma OneBarFills(order: Order, sessions: seq<Session>, mic: string, session: Session)
    requires WellFormed(order)
    ensures FillPrice(order.(sequence := 1), OnlyBar(order, session), OnlyInstrument(order, mic), Free).At?
    ensures Capacity(OneBarJob(order, sessions, mic, session), OnlyBar(order, session)) > 0.0
  {
    hide IsQuantized, FloorQuantum, CeilQuantum, AdverseBps;
    var o, bar, instrument := order.(sequence := 1), OnlyBar(order, session), OnlyInstrument(order, mic);
    OwnMultiple(order.quantity);
    if o.side.Buy? {
      BuyPricePositive(o, bar, instrument, Free);
    } else {
      SellPricePositive(o, bar, instrument, Free);
    }
    assert FindInstrument(OneBarJob(order, sessions, mic, session).instruments, order.instrumentId) == Some(instrument);
  }

  lemma OneBarTries(order: Order, sessions: seq<Session>, mic: string, first: nat, q: nat)
    requires WellFormed(order) && order.timeInForce.Day? && ValidCalendar(sessions)
    requires IsFirstSession(ScopedSessions(sessions, mic), order, first)
    requires SecondChance(ScopedSessions(sessions, mic), order, first, q)
    ensures var session := ScopedSessions(sessions, mic)[q];
            && ValidJob(OneBarJob(order, sessions, mic, session))
            && Fillable(OneBarJob(order, sessions, mic, session), order.(sequence := 1), OnlyBar(order, session))
            && Holds(session, OnlyBar(order, session))
            && !Holds(ScopedSessions(sessions, mic)[first], OnlyBar(order, session))
  {
    hide IsQuantized, FloorQuantum, SessionIn, FirstDateIn, ScopedSessions, FillPrice, ValidJob, Capacity;
    var scoped := ScopedSessions(sessions, mic);
    var session, o := scoped[q], order.(sequence := 1);
    var job, bar := OneBarJob(order, sessions, mic, session), OnlyBar(order, session);
    assert OneMarket(scoped);
    assert scoped[first].opensAt < scoped[first].closesAt <= session.opensAt < session.closesAt;
    OneBarValid(order, sessions, mic, session);
    OneBarFills(order, sessions, mic, session);
    FirstSessionFinds(scoped, o);
    assert IsFirstSession(scoped, o, first);
    assert FindInstrument(job.instruments, order.instrumentId) == Some(OnlyInstrument(order, mic));
  }

  lemma SingletonSorts<T>(x: T, le: (T, T) -> bool)
    ensures Sort([x], le) == [x]
  {
    assert [x][1..] == [];
    assert Sort([], le) == [];
  }

  /** A fillable order alone on the only bar gets its child there. */
  lemma AloneIsScheduled(job: Job, order: Order, bar: Bar, venue: Venue) returns (child: Child)
    requires job.orders == [order] && job.bars == [bar] && Fillable(job, order, bar) && Capacity(job, bar) > 0.0
    ensures Schedule(Plan(job, 1, venue)) == Ok([child])
    ensures child.orderId == order.id && child.barId == bar.id
  {
    hide Tries, Fillable, Capacity, NativeLimit, ChildId;
    var plan := Plan(job, 1, venue);
    var start := StartBook([order]);
    assert [order][..0] == [] && start.remaining == map[order.id := order.quantity];
    SingletonSorts(bar, BarLe);
    assert [bar][..0] == [];
    FillableTries(job, order, bar);
    var visited := Visit(plan, order, bar, start, Capacity(job, bar));
    child := visited.book.children[0];
    assert Walk(plan, bar, [order], start, Capacity(job, bar)) == visited;
    assert Sweep(plan, [bar]) == Ok(visited.book);
    SingletonSorts(child, ChildLe);
    assert visited.book.children == [child];
  }

  lemma FillableTries(job: Job, order: Order, bar: Bar)
    requires Fillable(job, order, bar)
    ensures Tries(job, order, bar)
  {
  }

  /** With a second chance, a valid job and a schedule exist that trade outside the first session. */
  lemma LeavesFirst(order: Order, sessions: seq<Session>, mic: string, first: nat, q: nat, venue: Venue)
    returns (plan: Plan, child: Child)
    requires WellFormed(order) && order.timeInForce.Day? && ValidCalendar(sessions)
    requires IsFirstSession(ScopedSessions(sessions, mic), order, first)
    requires SecondChance(ScopedSessions(sessions, mic), order, first, q)
    ensures plan.venue == venue && plan.limit == 1
    ensures |plan.job.orders| == 1 && Carries(plan.job, 0, order, sessions, mic) && Schedule(plan) == Ok([child])
    ensures child in ChildrenOf(Schedule(plan).value, order.id)
    ensures TradesIn(plan.job, child, ScopedSessions(sessions, mic)[q])
    ensures !TradesIn(plan.job, child, ScopedSessions(sessions, mic)[first])
  {
    hide ValidJob, Fillable, Capacity, ScopedSessions, Schedule, ChildrenOf, ValidCalendar, Holds, TradesIn;
    var session := ScopedSessions(sessions, mic)[q];
    var job, bar, o := OneBarJob(order, sessions, mic, session), OnlyBar(order, session), order.(sequence := 1);
    plan := Plan(job, 1, venue);
    OneBarTries(order, sessions, mic, first, q);
    OneBarFills(order, sessions, mic, session);
    child := AloneIsScheduled(job, o, bar, venue);
    OneBarTradesIn(job, bar, child, session);
    OneBarTradesIn(job, bar, child, ScopedSessions(sessions, mic)[first]);
  }

  lemma OneBarTradesIn(job: Job, bar: Bar, child: Child, session: Session)
    requires job.bars == [bar] && child.barId == bar.id
    ensures TradesIn(job, child, session) <==> Holds(session, bar)
  {
    assert bar in job.bars;
    assert forall b | b in job.bars :: b == bar;
  }

  /**
   All children of a DAY order lie in its first session, in every job over the calendar, if and only if no
   later session of the market has the same date and opens before the order expires.
   */
  lemma DayStaysInFirstSession(order: Order, sessions: seq<Session>, mic: string, first: nat)
    requires WellFormed(order) && order.timeInForce.Day? && ValidCalendar(sessions)
    requires IsFirstSession(ScopedSessions(sessions, mic), order, first)
    ensures StaysIn(ScopedSessions(sessions, mic)[first], order, sessions, mic)
       <==> forall q: nat :: !SecondChance(ScopedSessions(sessions, mic), order, first, q)
  {
    hide ScopedSessions, SecondChance, Carries, Schedule, ChildrenOf, TradesIn, WellFormed, ValidCalendar;
    var scoped := ScopedSessions(sessions, mic);
    if q: nat :| SecondChance(scoped, order, first, q) {
      var plan, child := LeavesFirst(order, sessions, mic, first, q, Lean);
    } else {
      forall plan: Plan, k: nat, child: Child
        | Carries(plan.job, k, order, sessions, mic) && Schedule(plan).Ok?
          && child in ChildrenOf(Schedule(plan).value, order.id)
        ensures TradesIn(plan.job, child, scoped[first])
      {
        ChildInFirst(plan, k, child, order, sessions, mic, first);
      }
    }
  }

  /** Two sessions on date 7 and a DAY order issued in the first: its only child trades in the second. */
  lemma SplitDayLeavesFirstSession(venue: Venue) returns (plan: Plan, child: Child)
    ensures var morning, evening := Session(7, "XNYS", 0, 10), Session(7, "XNYS", 20, 30);
      && ValidJob(plan.job) && plan.venue == venue && plan.job.sessions == [morning, evening]
      && |plan.job.orders| == 1 && plan.job.orders[0].timeInForce.Day? && plan.job.orders[0].issuedAt == 5
      && Schedule(plan) == Ok([child])
      && TradesIn(plan.job, child, evening) && !TradesIn(plan.job, child, morning)
  {
    hide ValidJob, Schedule, TradesIn;
    var morning, evening := Session(7, "XNYS", 0, 10), Session(7, "XNYS", 20, 30);
    var sessions := [morning, evening];
    var order := Order(1, 1, 1, Buy, Market, 4.0, None, Day, 5, 40);
    TwoSessions(morning, evening);
    assert IsUuid(1) by { SmallUuid(); }
    assert IsFirstSession(sessions, order, 0);
    plan, child := LeavesFirst(order, sessions, "XNYS", 0, 1, venue);
  }

  lemma SmallUuid()
    ensures IsUuid(1)
  {
    PowerMonotone(16, 1, UUID_DIGITS);
    assert Power(16, 1) == 16;
  }

  lemma TwoSessions(a: Session, b: Session)
    requires a.mic == b.mic && a.opensAt < a.closesAt <= b.opensAt < b.closesAt
    ensures ScopedSessions([a, b], a.mic) == [a, b] && ValidCalendar([a, b])
  {
    assert [a, b][1..] == [b] && [b][1..] == [];
    forall mic ensures OneMarket(ScopedSessions([a, b], mic)) && (mic == a.mic ==> ScopedSessions([a, b], mic) == [a, b]) {
      assert ScopedSessions([], mic) == [];
      assert ScopedSessions([b], mic) == if b.mic == mic then [b] else [];
      assert ScopedSessions([a, b], mic) == if a.mic == mic then [a, b] else [];
    }
  }
}

/**
 The finished schedule in the job's own terms: what every order receives on every bar, from the fields
 of orders, bars, sessions and costs alone, without the allocator's working state.
 */
module AllocationExact {
  import opened Wrappers
  import opened Sorting
  import opened Sums
  import opened BacktestQuanta
  import opened BacktestContracts
  import opened BacktestMath
  import opened Allocator
  import opened ScheduleLaws
  import opened ChildLaws
  import opened TimeInForceLaws
  import opened ScheduleTheorems

  // ---------- when an order may trade, field by field ----------

  /** The first session of the market that is still open after the order was issued. */
  ghost predicate FirstOpen(job: Job, mic: string, order: Order, first: Session) {
    && first in job.sessions && first.mic == mic
    && order.issuedAt < first.closesAt && first.opensAt < order.validUntil
    && forall s | s in job.sessions && s.mic == mic && order.issuedAt < s.closesAt :: first.opensAt <= s.opensAt
  }

  /** The bar lies in a session of the market dated like the order's first open session. */
  ghost predicate OnFirstDay(job: Job, mic: string, order: Order, bar: Bar) {
    exists s, first ::
      && s in job.sessions && s.mic == mic && s.opensAt <= bar.opensAt && bar.closesAt <= s.closesAt
      && FirstOpen(job, mic, order, first) && s.date == first.date
  }

  ghost predicate MayTry(job: Job, order: Order, bar: Bar) {
    && bar.instrumentId == order.instrumentId && order.issuedAt < bar.opensAt < order.validUntil
    && (order.timeInForce.Day? ==>
          exists i :: i in job.instruments && i.id == order.instrumentId && OnFirstDay(job, i.mic, order, bar))
  }

  ghost predicate Crosses(order: Order, bar: Bar) {
    || order.orderType.Market?
    || (order.limitPrice.Some?
        && if order.side.Buy? then bar.open <= order.limitPrice.value else order.limitPrice.value <= bar.open)
  }

  /** The order can trade on bar `i` of the run; an IOC order only if it could not be tried before. */
  ghost predicate Chance(job: Job, bars: seq<Bar>, i: nat, order: Order)
    requires i < |bars|
  {
    && MayTry(job, order, bars[i]) && bars[i].tradable && Crosses(order, bars[i])
    && (order.timeInForce.Ioc? ==> forall j | 0 <= j < i :: !MayTry(job, order, bars[j]))
  }

  // ---------- what it received ----------

  function OfBoth(orderId: Id, barId: Id): Child -> real {
    (child: Child) => if child.orderId == orderId && child.barId == barId then child.quantity else 0.0
  }

  /** What an order received on a bar. */
  function Given(children: seq<Child>, orderId: Id, barId: Id): real { Sum(children, OfBoth(orderId, barId)) }

  function GivenOn(children: seq<Child>, orderId: Id): Bar -> real {
    (bar: Bar) => Given(children, orderId, bar.id)
  }

  /** What an order would take from bar `i`: all it has not received on earlier bars, if it can trade. */
  ghost function Wants(job: Job, children: seq<Child>, bars: seq<Bar>, i: nat): Order -> real
    requires i < |bars|
  {
    (order: Order) =>
      if Chance(job, bars, i, order) then order.quantity - Sum(bars[..i], GivenOn(children, order.id)) else 0.0
  }

  /** The bars in the order the run takes them: by opening time, then by id. */
  ghost predicate InRunOrder(job: Job, bars: seq<Bar>) {
    && multiset(bars) == multiset(job.bars)
    && forall i, j | 0 <= i < j < |bars| ::
         bars[i].opensAt < bars[j].opensAt || (bars[i].opensAt == bars[j].opensAt && bars[i].id <= bars[j].id)
  }

  lemma RunOrderIs(job: Job, bars: seq<Bar>)
    requires ValidBars(job) && InRunOrder(job, bars)
    ensures bars == SortedBars(job)
  {
    SortedBarsSame(job);
    NoBarsTie(job, bars);
    SortedByRun(job, bars);
    hide ValidBars, InRunOrder, NoTies, SortedBy;
    SortedUnique(bars, SortedBars(job), BarLe);
  }

  lemma SortedByRun(job: Job, bars: seq<Bar>)
    requires InRunOrder(job, bars)
    ensures SortedBy(bars, BarLe)
  {
  }

  lemma NoBarsTie(job: Job, bars: seq<Bar>)
    requires ValidBars(job) && multiset(bars) == multiset(job.bars)
    ensures NoTies(bars, BarLe)
  {
    hide SessionForBar, FindInstrument, IsQuantized;
    SameElements(bars, job.bars);
    forall a, b | a in bars && b in bars && BarLe(a, b) && BarLe(b, a) ensures a == b {
      var i :| 0 <= i < |job.bars| && job.bars[i] == a;
      var j :| 0 <= j < |job.bars| && job.bars[j] == b;
    }
  }

  // ---------- the allocator's conditions are these ----------

  lemma FirstOpenPlace(job: Job, mic: string, order: Order, first: Session) returns (p: nat)
    requires ValidCalendar(job.sessions) && FirstOpen(job, mic, order, first)
    ensures IsFirstSession(ScopedSessions(job.sessions, mic), order, p)
    ensures ScopedSessions(job.sessions, mic)[p] == first
  {
    var scoped := ScopedSessions(job.sessions, mic);
    assert OneMarket(scoped);
    assert first in scoped;
    p :| p < |scoped| && scoped[p] == first;
    forall k | 0 <= k < p ensures scoped[k].closesAt <= order.issuedAt {
      assert scoped[k] in scoped;
    }
  }

  lemma PlaceIsFirstOpen(job: Job, mic: string, order: Order, p: nat)
    requires ValidCalendar(job.sessions) && IsFirstSession(ScopedSessions(job.sessions, mic), order, p)
    ensures FirstOpen(job, mic, order, ScopedSessions(job.sessions, mic)[p])
  {
    var scoped := ScopedSessions(job.sessions, mic);
    assert OneMarket(scoped);
    assert scoped[p] in scoped;
    forall s | s in job.sessions && s.mic == mic && order.issuedAt < s.closesAt ensures scoped[p].opensAt <= s.opensAt {
      assert s in scoped;
      var k: nat :| k < |scoped| && scoped[k] == s;
    }
  }

  lemma DayMeans(job: Job, mic: string, order: Order, bar: Bar)
    requires ValidCalendar(job.sessions) && bar.opensAt < bar.closesAt
    ensures OnFirstDay(job, mic, order, bar) <==>
            match SessionForBar(job.sessions, bar, mic)
            case None => false
            case Some(session) => FirstSessionDate(job.sessions, order, mic) == Some(session.date)
  {
    var scoped := ScopedSessions(job.sessions, mic);
    assert OneMarket(scoped);
    hide ScopedSessions, SessionIn, FirstDateIn, OneMarket, IsFirstSession, FirstOpen;
    FirstSessionFinds(scoped, order);
    if OnFirstDay(job, mic, order, bar) {
      var s, first :| s in job.sessions && s.mic == mic && s.opensAt <= bar.opensAt && bar.closesAt <= s.closesAt
        && FirstOpen(job, mic, order, first) && s.date == first.date;
      SessionForBarFinds(scoped, bar, s);
      var p := FirstOpenPlace(job, mic, order, first);
    }
    if SessionIn(scoped, bar).Some? && FirstDateIn(scoped, order) == Some(SessionIn(scoped, bar).value.date) {
      var s := SessionIn(scoped, bar).value;
      SessionForBarFinds(scoped, bar, s);
      var p: nat :| IsFirstSession(scoped, order, p);
      FirstInRange(scoped, order, p);
      PlaceIsFirstOpen(job, mic, order, p);
      assert s in job.sessions && FirstOpen(job, mic, order, scoped[p]);
    }
  }

  lemma FirstInRange(scoped: seq<Session>, order: Order, p: nat)
    requires IsFirstSession(scoped, order, p)
    ensures p < |scoped|
  {
  }

  lemma TriesMeans(job: Job, order: Order, bar: Bar)
    requires ValidJob(job) && order in job.orders && bar in job.bars
    ensures Tries(job, order, bar) <==> MayTry(job, order, bar)
  {
    assert ValidCalendar(job.sessions) && ValidBars(job) && ValidInstruments(job);
    hide ValidJob, ValidCalendar, SessionForBar, FirstSessionDate, OnFirstDay, IsQuantized;
    if bar.instrumentId == order.instrumentId {
      var found := FindInstrument(job.instruments, bar.instrumentId).value;
      DayMeans(job, found.mic, order, bar);
      forall i | i in job.instruments && i.id == order.instrumentId ensures i == found {
        SameInstrument(job, i, found);
      }
    }
  }

  lemma SameInstrument(job: Job, a: Instrument, b: Instrument)
    requires ValidInstruments(job) && a in job.instruments && b in job.instruments && a.id == b.id
    ensures a == b
  {
    var i :| 0 <= i < |job.instruments| && job.instruments[i] == a;
    var j :| 0 <= j < |job.instruments| && job.instruments[j] == b;
  }

  lemma FillableMeans(job: Job, order: Order, bar: Bar)
    requires ValidJob(job) && order in job.orders && bar in job.bars
    ensures Fillable(job, order, bar) <==> MayTry(job, order, bar) && bar.tradable && Crosses(order, bar)
  {
    TriesMeans(job, order, bar);
    assert SellPricesBounded(job) && ValidBars(job);
    hide ValidJob, Tries, MayTry, AdversePrice, SellPricesBounded, SessionForBar, IsQuantized;
    if bar.instrumentId == order.instrumentId {
      var found := FindInstrument(job.instruments, bar.instrumentId).value;
      ValidJobPrices(job, order, bar, found);
    } else {
      OtherInstrument(job, order, bar);
    }
  }

  lemma OtherInstrument(job: Job, order: Order, bar: Bar)
    requires bar.instrumentId != order.instrumentId
    ensures !Tries(job, order, bar) && !MayTry(job, order, bar)
  {
  }

  // ---------- what a bar gives an order is what its remainder falls by ----------

  lemma GivenPush(children: seq<Child>, child: Child, orderId: Id, barId: Id)
    ensures Given(children + [child], orderId, barId)
         == Given(children, orderId, barId)
            + if child.orderId == orderId && child.barId == barId then child.quantity else 0.0
  {
    SumPush(children, child, OfBoth(orderId, barId));
  }

  lemma VisitGives(plan: Plan, order: Order, bar: Bar, book: Book, available: real, orderId: Id, barId: Id)
    requires available >= 0.0 && Visit(plan, order, bar, book, available).Visited?
    ensures var after := Visit(plan, order, bar, book, available).book;
            Given(after.children, orderId, barId)
              == Given(book.children, orderId, barId)
                 + if barId == bar.id then Left(book, orderId) - Left(after, orderId) else 0.0
  {
    VisitEffect(plan, order, bar, book, available);
    hide Visit, Demand, Given;
    var taken := Taken(plan, order, bar, book, available);
    if taken == [] {
      assert book.children + taken == book.children;
    } else {
      assert taken == [taken[0]];
      GivenPush(book.children, taken[0], orderId, barId);
    }
  }

  lemma {:induction false} WalkGives(plan: Plan, bar: Bar, orders: seq<Order>, book: Book, capacity: real, orderId: Id, barId: Id)
    requires capacity >= 0.0 && Walk(plan, bar, orders, book, capacity).Visited?
    ensures var after := Walk(plan, bar, orders, book, capacity).book;
            Given(after.children, orderId, barId)
              == Given(book.children, orderId, barId)
                 + if barId == bar.id then Left(book, orderId) - Left(after, orderId) else 0.0
  {
    if orders != [] {
      var n := |orders| - 1;
      WalkGives(plan, bar, orders[..n], book, capacity, orderId, barId);
      WalkMoves(plan, bar, orders[..n], book, capacity, orderId);
      var before := Walk(plan, bar, orders[..n], book, capacity);
      hide Visit, Given, Left;
      VisitGives(plan, orders[n], bar, before.book, before.available, orderId, barId);
    }
  }

  lemma SweepStepGives(plan: Plan, bars: seq<Bar>, orderId: Id, barId: Id)
    requires bars != [] && Sweep(plan, bars).Ok?
    ensures var n := |bars| - 1;
            && Sweep(plan, bars[..n]).Ok?
            && Given(Sweep(plan, bars).value.children, orderId, barId)
            == Given(Sweep(plan, bars[..n]).value.children, orderId, barId)
               + if barId == bars[n].id
                 then Left(Sweep(plan, bars[..n]).value, orderId) - Left(Sweep(plan, bars).value, orderId) else 0.0
  {
    hide Walk, Given, Left, Capacity;
    var n := |bars| - 1;
    CapacityNonNegative(plan.job, bars[n]);
    WalkGives(plan, bars[n], plan.job.orders, Sweep(plan, bars[..n]).value, Capacity(plan.job, bars[n]), orderId, barId);
  }

  /** Bars not reached have given nothing. */
  lemma {:induction false} UnseenGives(plan: Plan, bars: seq<Bar>, orderId: Id, barId: Id)
    requires Sweep(plan, bars).Ok? && forall i | 0 <= i < |bars| :: bars[i].id != barId
    ensures Given(Sweep(plan, bars).value.children, orderId, barId) == 0.0
  {
    if bars != [] {
      hide Given, Left, Sweep;
      SweepStepGives(plan, bars, orderId, barId);
      UnseenGives(plan, bars[..|bars| - 1], orderId, barId);
    }
  }

  lemma {:induction false} SweepGives(plan: Plan, bars: seq<Bar>, i: nat, orderId: Id)
    requires Runnable(plan.job, bars) && i < |bars| && Sweep(plan, bars).Ok?
    ensures Sweep(plan, bars[..i]).Ok? && Sweep(plan, bars[..i + 1]).Ok?
    ensures Given(Sweep(plan, bars).value.children, orderId, bars[i].id)
         == Left(Sweep(plan, bars[..i]).value, orderId) - Left(Sweep(plan, bars[..i + 1]).value, orderId)
    decreases |bars|
  {
    var n := |bars| - 1;
    SweepPrefix(plan, bars, i);
    SweepPrefix(plan, bars, i + 1);
    hide Given, Left, Sweep;
    SweepStepGives(plan, bars, orderId, bars[i].id);
    if i == n {
      assert bars[..i + 1] == bars;
      UnseenGives(plan, bars[..n], orderId, bars[i].id);
    } else {
      SweepGives(plan, bars[..n], i, orderId);
      assert bars[..n][..i] == bars[..i] && bars[..n][..i + 1] == bars[..i + 1];
    }
  }

  lemma OneBarMore(children: seq<Child>, orderId: Id, bars: seq<Bar>, i: nat)
    requires i < |bars|
    ensures Sum(bars[..i + 1], GivenOn(children, orderId))
         == Sum(bars[..i], GivenOn(children, orderId)) + Given(children, orderId, bars[i].id)
    ensures Sum(bars[..0], GivenOn(children, orderId)) == 0.0
  {
    hide Given;
    assert bars[..i + 1] == bars[..i] + [bars[i]];
    SumPush(bars[..i], bars[i], GivenOn(children, orderId));
  }

  lemma NothingYet(plan: Plan, bars: seq<Bar>, order: Order, children: seq<Child>)
    requires DistinctOrders(plan.job.orders) && order in plan.job.orders
    ensures Sweep(plan, bars[..0]).Ok?
    ensures Left(Sweep(plan, bars[..0]).value, order.id) == order.quantity - Sum(bars[..0], GivenOn(children, order.id))
  {
    SweepStart(plan, bars);
    StartQuantities(plan.job.orders, order);
  }

  /** Everything received on the first `i` bars is what the order's remainder fell by. */
  lemma {:induction false} EarlierGiven(plan: Plan, bars: seq<Bar>, i: nat, order: Order)
    requires Runnable(plan.job, bars) && i <= |bars| && Sweep(plan, bars).Ok? && order in plan.job.orders
    ensures Sweep(plan, bars[..i]).Ok?
    ensures Left(Sweep(plan, bars[..i]).value, order.id)
         == order.quantity - Sum(bars[..i], GivenOn(Sweep(plan, bars).value.children, order.id))
  {
    if i == 0 {
      NothingYet(plan, bars, order, Sweep(plan, bars).value.children);
    } else {
      hide *;
      EarlierGiven(plan, bars, i - 1, order);
      SweepGives(plan, bars, i - 1, order.id);
      OneBarMore(Sweep(plan, bars).value.children, order.id, bars, i - 1);
    }
  }

  /** The total of a bar is settled when the run has passed it. */
  lemma {:induction false} BarSettled(plan: Plan, bars: seq<Bar>, i: nat)
    requires Runnable(plan.job, bars) && i < |bars| && Sweep(plan, bars).Ok?
    ensures Sweep(plan, bars[..i + 1]).Ok?
    ensures BarTotal(Sweep(plan, bars).value.children, bars[i].id)
         == BarTotal(Sweep(plan, bars[..i + 1]).value.children, bars[i].id)
    decreases |bars|
  {
    SweepPrefix(plan, bars, i + 1);
    var n := |bars| - 1;
    if i == n {
      assert bars[..i + 1] == bars;
    } else {
      assert bars[..n + 1] == bars && bars[..n][..i + 1] == bars[..i + 1];
      SweepPrefix(plan, bars, n);
      SweepStep(plan, bars, n);
      CapacityNonNegative(plan.job, bars[n]);
      BarSettled(plan, bars[..n], i);
      hide Sweep, Walk, Capacity, BarTotal;
      WalkMoves(plan, bars[n], plan.job.orders, Sweep(plan, bars[..n]).value, Capacity(plan.job, bars[n]), bars[i].id);
    }
  }

  // ---------- demand, in the job's terms ----------

  lemma {:induction false} NeverAttempted(plan: Plan, bars: seq<Bar>, k: nat)
    requires DistinctOrders(plan.job.orders) && k < |plan.job.orders| && Sweep(plan, bars).Ok?
    requires !plan.job.orders[k].timeInForce.Ioc?
    ensures plan.job.orders[k].id !in Sweep(plan, bars).value.attempts
  {
    if bars != [] {
      var n := |bars| - 1;
      assert bars[..n + 1] == bars;
      SweepPrefix(plan, bars, n);
      hide Sweep, ShareChild, Share, Capacity, ChildrenOf;
      NeverAttempted(plan, bars[..n], k);
      BarAdds(plan, bars, n, k);
    }
  }

  lemma IocAttempted(plan: Plan, seen: seq<Bar>, k: nat)
    requires Runnable(plan.job, seen) && OrdersInLots(plan.job) && BarsAdvance(seen) && Sweep(plan, seen).Ok?
    requires k < |plan.job.orders|
    ensures plan.job.orders[k].id in Sweep(plan, seen).value.attempts <==>
            plan.job.orders[k].timeInForce.Ioc? && exists j :: 0 <= j < |seen| && Tries(plan.job, plan.job.orders[k], seen[j])
  {
    hide Sweep, Tries, AllMade, StrictlyLater, OrdersInLots, BarsAdvance, ChildrenOf, Left;
    if plan.job.orders[k].timeInForce.Ioc? {
      SweepPlaces(plan, seen, k);
    } else {
      NeverAttempted(plan, seen, k);
    }
  }

  lemma TriedBefore(job: Job, bars: seq<Bar>, i: nat, order: Order)
    requires ValidJob(job) && order in job.orders && i <= |bars| && forall b | b in bars :: b in job.bars
    ensures (exists j :: 0 <= j < i && Tries(job, order, bars[..i][j])) <==> exists j :: 0 <= j < i && MayTry(job, order, bars[j])
  {
    hide Tries, MayTry, ValidJob;
    forall j | 0 <= j < i ensures Tries(job, order, bars[..i][j]) <==> MayTry(job, order, bars[j]) {
      TriesMeans(job, order, bars[j]);
    }
    if j :| 0 <= j < i && MayTry(job, order, bars[j]) {
      assert Tries(job, order, bars[..i][j]);
    }
  }

  lemma RunsPrefix(job: Job, bars: seq<Bar>, i: nat)
    requires Runnable(job, bars) && BarsAdvance(bars) && i <= |bars|
    ensures Runnable(job, bars[..i]) && BarsAdvance(bars[..i])
  {
  }

  /** An order has been attempted exactly when it is IOC and could be tried on an earlier bar. */
  lemma AttemptedIs(plan: Plan, bars: seq<Bar>, i: nat, k: nat)
    requires ValidJob(plan.job) && bars == SortedBars(plan.job) && Sweep(plan, bars).Ok?
    requires i <= |bars| && k < |plan.job.orders|
    ensures Sweep(plan, bars[..i]).Ok?
    ensures var order := plan.job.orders[k];
            order.id in Sweep(plan, bars[..i]).value.attempts <==>
            order.timeInForce.Ioc? && exists j :: 0 <= j < i && MayTry(plan.job, order, bars[j])
  {
    hide *;
    ValidJobRuns(plan.job);
    SortedBarsSame(plan.job);
    SweepPrefix(plan, bars, i);
    RunsPrefix(plan.job, bars, i);
    IocAttempted(plan, bars[..i], k);
    TriedBefore(plan.job, bars, i, plan.job.orders[k]);
  }

  lemma DemandIs(plan: Plan, bars: seq<Bar>, i: nat, k: nat)
    requires ValidJob(plan.job) && bars == SortedBars(plan.job) && Sweep(plan, bars).Ok?
    requires i < |bars| && k < |plan.job.orders|
    ensures Sweep(plan, bars[..i]).Ok?
    ensures Demand(plan.job, bars[i], Sweep(plan, bars[..i]).value, plan.job.orders[k])
         == Wants(plan.job, Sweep(plan, bars).value.children, bars, i)(plan.job.orders[k])
  {
    var job, order := plan.job, plan.job.orders[k];
    ValidJobRuns(job);
    SortedBarsSame(job);
    assert bars[i] in bars;
    EarlierGiven(plan, bars, i, order);
    SweepFalls(plan, bars, i, k);
    FillableMeans(job, order, bars[i]);
    AttemptedIs(plan, bars, i, k);
    hide Sweep, ValidJob, SortedBars, Fillable, MayTry, Crosses, Given, Left, GivenOn, Sum;
  }

  // ---------- the allocation ----------

  /** A bar's capacity is the largest whole number of lots within its participation share. */
  lemma CapacityIs(job: Job, bar: Bar, instrument: Instrument) returns (lots: int)
    requires ValidInstruments(job) && instrument in job.instruments && instrument.id == bar.instrumentId
    ensures Capacity(job, bar) == lots as real * instrument.quantityQuantum
    ensures lots as real * instrument.quantityQuantum <= bar.volume * job.cost.maxParticipation
              < lots as real * instrument.quantityQuantum + instrument.quantityQuantum
  {
    var found := FindInstrument(job.instruments, bar.instrumentId).value;
    SameInstrument(job, instrument, found);
    lots := (Offered(job, bar) / found.quantityQuantum).Floor;
  }

  lemma Checked(job: Job)
    requires ValidJob(job)
    ensures ValidBars(job) && ValidInstruments(job)
  {
  }

  lemma BarsAllocation(plan: Plan, bars: seq<Bar>, i: nat, k: nat, before: Book)
    requires ValidJob(plan.job) && bars == SortedBars(plan.job) && Sweep(plan, bars).Ok?
    requires i < |bars| && k < |plan.job.orders| && Sweep(plan, bars[..i]) == Ok(before)
    ensures var job, children := plan.job, Sweep(plan, bars).value.children;
            && Given(children, job.orders[k].id, bars[i].id) == Share(job, bars[i], before, job.orders, Capacity(job, bars[i]), k)
            && BarTotal(children, bars[i].id) == Min(Capacity(job, bars[i]), Sum(job.orders, DemandOf(job, bars[i], before)))
  {
    hide *;
    ValidJobRuns(plan.job);
    SweepGives(plan, bars, i, plan.job.orders[k].id);
    BarSettled(plan, bars, i);
    WaterfallClosedForm(plan, bars, i, k);
  }

  lemma SweptAllocation(plan: Plan, bars: seq<Bar>, i: nat, k: nat)
    requires ValidJob(plan.job) && bars == SortedBars(plan.job) && Sweep(plan, bars).Ok?
    requires i < |bars| && k < |plan.job.orders|
    ensures var job, children := plan.job, Sweep(plan, bars).value.children;
            var most, wants := Capacity(job, bars[i]), Wants(job, children, bars, i);
            && Given(children, job.orders[k].id, bars[i].id)
                 == Min(wants(job.orders[k]), Max(0.0, most - Sum(job.orders[..k], wants)))
            && BarTotal(children, bars[i].id) == Min(most, Sum(job.orders, wants))
  {
    var job, orders := plan.job, plan.job.orders;
    SweepPrefix(plan, bars, i);
    var before, children := Sweep(plan, bars[..i]).value, Sweep(plan, bars).value.children;
    BarsAllocation(plan, bars, i, k, before);
    forall j: nat | j < |orders|
      ensures DemandOf(job, bars[i], before)(orders[j]) == Wants(job, children, bars, i)(orders[j])
    {
      DemandIs(plan, bars, i, j);
    }
    hide ValidJob, Sweep, SortedBars, Capacity, Wants, Demand, Given, BarTotal, Sum;
    assert DemandOf(job, bars[i], before)(orders[k]) == Wants(job, children, bars, i)(orders[k]);
    SumsAgree(orders, k, DemandOf(job, bars[i], before), Wants(job, children, bars, i));
  }

  lemma SumsAgree<T>(xs: seq<T>, k: nat, f: T -> real, g: T -> real)
    requires k < |xs| && forall j | 0 <= j < |xs| :: f(xs[j]) == g(xs[j])
    ensures Sum(xs, f) == Sum(xs, g) && Sum(xs[..k], f) == Sum(xs[..k], g)
  {
    SumPointwise(xs, xs, f, g);
    SumPointwise(xs[..k], xs[..k], f, g);
  }

  lemma WantsOfPermuted(job: Job, xs: seq<Child>, ys: seq<Child>, bars: seq<Bar>, i: nat, orders: seq<Order>)
    requires multiset(xs) == multiset(ys) && i < |bars|
    ensures forall o | o in orders :: Wants(job, xs, bars, i)(o) == Wants(job, ys, bars, i)(o)
    ensures Sum(orders, Wants(job, xs, bars, i)) == Sum(orders, Wants(job, ys, bars, i))
  {
    forall o | o in orders ensures Wants(job, xs, bars, i)(o) == Wants(job, ys, bars, i)(o) {
      forall b | b in bars ensures GivenOn(xs, o.id)(b) == GivenOn(ys, o.id)(b) {
        SumPermutation(xs, ys, OfBoth(o.id, b.id));
      }
      hide Given, Chance;
      SumPointwise(bars[..i], bars[..i], GivenOn(xs, o.id), GivenOn(ys, o.id));
    }
    SumPointwise(orders, orders, Wants(job, xs, bars, i), Wants(job, ys, bars, i));
  }

  lemma ScheduledAllocation(plan: Plan, bars: seq<Bar>, i: nat, k: nat)
    requires ValidJob(plan.job) && bars == SortedBars(plan.job) && Schedule(plan).Ok?
    requires i < |bars| && k < |plan.job.orders|
    ensures var job, children := plan.job, Schedule(plan).value;
            var most, wants := Capacity(job, bars[i]), Wants(job, children, bars, i);
            && Given(children, job.orders[k].id, bars[i].id)
                 == Min(wants(job.orders[k]), Max(0.0, most - Sum(job.orders[..k], wants)))
            && BarTotal(children, bars[i].id) == Min(most, Sum(job.orders, wants))
  {
    hide *;
    TotalOfSorted(plan, bars, bars[i].id);
    GivenSorted(plan, bars, plan.job.orders[k].id, bars[i].id);
    SweptAllocation(plan, bars, i, k);
    WantsSorted(plan, bars, i, plan.job.orders);
    WantsSorted(plan, bars, i, plan.job.orders[..k]);
    assert plan.job.orders[k] in plan.job.orders;
  }

  lemma WantsSorted(plan: Plan, bars: seq<Bar>, i: nat, orders: seq<Order>)
    requires Schedule(plan).Ok? && bars == SortedBars(plan.job) && i < |bars|
    ensures Sweep(plan, bars).Ok?
    ensures var swept, children := Sweep(plan, bars).value.children, Schedule(plan).value;
            && (forall o | o in orders :: Wants(plan.job, swept, bars, i)(o) == Wants(plan.job, children, bars, i)(o))
            && Sum(orders, Wants(plan.job, swept, bars, i)) == Sum(orders, Wants(plan.job, children, bars, i))
  {
    ScheduleIsSorted(plan);
    hide Wants, Sum, Sweep, Schedule, SortedBars;
    WantsOfPermuted(plan.job, Sweep(plan, bars).value.children, Schedule(plan).value, bars, i, orders);
  }

  lemma GivenSorted(plan: Plan, bars: seq<Bar>, orderId: Id, barId: Id)
    requires Schedule(plan).Ok? && bars == SortedBars(plan.job)
    ensures Sweep(plan, bars).Ok?
    ensures Given(Sweep(plan, bars).value.children, orderId, barId) == Given(Schedule(plan).value, orderId, barId)
  {
    ScheduleIsSorted(plan);
    SumPermutation(Sweep(plan, bars).value.children, Schedule(plan).value, OfBoth(orderId, barId));
  }

  /**
   The whole schedule in closed form. Bar `i` has `lots` whole lots to give, the most its participation share
   allows. Order `k` receives on it what it wants, up to what the orders before it do not want; all orders
   together receive what they want, up to those lots.
   */
  lemma AllocationIs(plan: Plan, bars: seq<Bar>, i: nat, k: nat, instrument: Instrument) returns (lots: int)
    requires ValidJob(plan.job) && Schedule(plan).Ok? && InRunOrder(plan.job, bars)
    requires i < |bars| && k < |plan.job.orders|
    requires instrument in plan.job.instruments && instrument.id == bars[i].instrumentId
    ensures var job, children := plan.job, Schedule(plan).value;
            var most := lots as real * instrument.quantityQuantum;
            var wants := Wants(job, children, bars, i);
            && most <= bars[i].volume * job.cost.maxParticipation < most + instrument.quantityQuantum
            && Given(children, job.orders[k].id, bars[i].id)
                 == Min(wants(job.orders[k]), Max(0.0, most - Sum(job.orders[..k], wants)))
            && BarTotal(children, bars[i].id) == Min(most, Sum(job.orders, wants))
  {
    hide *;
    Checked(plan.job);
    RunOrderIs(plan.job, bars);
    lots := CapacityIs(plan.job, bars[i], instrument);
    ScheduledAllocation(plan, bars, i, k);
  }

  lemma InstrumentOf(job: Job, bar: Bar) returns (instrument: Instrument)
    requires ValidJob(job) && bar in job.bars
    ensures instrument in job.instruments && instrument.id == bar.instrumentId
  {
    hide SessionForBar, IsQuantized, ValidCalendar, SellPricesBounded, ValidOpening, ValidOrder;
    instrument := FindInstrument(job.instruments, bar.instrumentId).value;
  }

  lemma CapacityWithin(job: Job, bar: Bar)
    requires ValidJob(job) && bar in job.bars
    ensures Capacity(job, bar) <= bar.volume * job.cost.maxParticipation
  {
    hide Capacity, ValidJob, ValidInstruments;
    Checked(job);
    var found := InstrumentOf(job, bar);
    var lots := CapacityIs(job, bar, found);
  }

  /** No bar of a finished schedule gives more than the participation share of its volume. */
  lemma WithinParticipation(plan: Plan, bar: Bar)
    requires ValidJob(plan.job) && Schedule(plan).Ok? && bar in plan.job.bars
    ensures BarTotal(Schedule(plan).value, bar.id) <= bar.volume * plan.job.cost.maxParticipation
  {
    hide *;
    BarNotOverdrawn(plan, bar);
    CapacityWithin(plan.job, bar);
  }

  /** A bar whose eligible orders want its whole share gives every whole lot of it. */
  lemma LargeDemandDrains(plan: Plan, bars: seq<Bar>, i: nat, instrument: Instrument) returns (lots: int)
    requires ValidJob(plan.job) && Schedule(plan).Ok? && InRunOrder(plan.job, bars) && i < |bars|
    requires instrument in plan.job.instruments && instrument.id == bars[i].instrumentId
    requires Sum(plan.job.orders, Wants(plan.job, Schedule(plan).value, bars, i))
               >= bars[i].volume * plan.job.cost.maxParticipation
    ensures var given := BarTotal(Schedule(plan).value, bars[i].id);
            && given == lots as real * instrument.quantityQuantum
            && given <= bars[i].volume * plan.job.cost.maxParticipation < given + instrument.quantityQuantum
  {
    hide ValidJob, Schedule, Wants, Sum, BarTotal, InRunOrder, Capacity, Given, ValidBars, ValidInstruments, SortedBars;
    if plan.job.orders == [] {
      Checked(plan.job);
      RunOrderIs(plan.job, bars);
      lots := CapacityIs(plan.job, bars[i], instrument);
      NothingGiven(plan, bars[i].id);
      NothingWanted(Wants(plan.job, Schedule(plan).value, bars, i));
      CapacityNonNegative(plan.job, bars[i]);
    } else {
      lots := AllocationIs(plan, bars, i, 0, instrument);
    }
  }

  lemma NothingWanted(wants: Order -> real)
    ensures Sum([], wants) == 0.0
  {
  }

  lemma NothingGiven(plan: Plan, barId: Id)
    requires Schedule(plan).Ok? && plan.job.orders == []
    ensures BarTotal(Schedule(plan).value, barId) == 0.0
  {
    hide SortedBars, Sort;
    NoOrdersNoChildren(plan, SortedBars(plan.job));
    ScheduleIsSorted(plan);
    SumPermutation(FinalBook(plan).children, Schedule(plan).value, OnBar(barId));
  }

  lemma {:induction false} NoOrdersNoChildren(plan: Plan, bars: seq<Bar>)
    requires plan.job.orders == [] && Sweep(plan, bars).Ok?
    ensures Sweep(plan, bars).value.children == []
  {
    if bars != [] {
      NoOrdersNoChildren(plan, bars[..|bars| - 1]);
    }
  }

  /** An order that was not filled found every bar on which it could trade drained of its whole lots. */
  lemma UnfilledSawDrainedBars(plan: Plan, bars: seq<Bar>, i: nat, k: nat, instrument: Instrument) returns (lots: int)
    requires ValidJob(plan.job) && Schedule(plan).Ok? && InRunOrder(plan.job, bars)
    requires i < |bars| && k < |plan.job.orders|
    requires instrument in plan.job.instruments && instrument.id == bars[i].instrumentId
    requires OrderTotal(Schedule(plan).value, plan.job.orders[k].id) < plan.job.orders[k].quantity
    requires Chance(plan.job, bars, i, plan.job.orders[k])
    ensures var given := BarTotal(Schedule(plan).value, bars[i].id);
            && given == lots as real * instrument.quantityQuantum
            && given <= bars[i].volume * plan.job.cost.maxParticipation < given + instrument.quantityQuantum
  {
    hide *;
    Checked(plan.job);
    RunOrderIs(plan.job, bars);
    lots := CapacityIs(plan.job, bars[i], instrument);
    OpenAtChance(plan, bars, i, k);
    ValidJobRuns(plan.job);
    ScheduleIsSorted(plan);
    OpenOrdersSawDrainedBars(plan, bars, i, k);
    BarSettled(plan, bars, i);
    TotalOfSorted(plan, bars, bars[i].id);
  }

  lemma TotalOfSorted(plan: Plan, bars: seq<Bar>, barId: Id)
    requires Schedule(plan).Ok? && bars == SortedBars(plan.job)
    ensures Sweep(plan, bars).Ok? && BarTotal(Sweep(plan, bars).value.children, barId) == BarTotal(Schedule(plan).value, barId)
  {
    ScheduleIsSorted(plan);
    SumPermutation(Sweep(plan, bars).value.children, Schedule(plan).value, OnBar(barId));
  }

  lemma OpenAtChance(plan: Plan, bars: seq<Bar>, i: nat, k: nat)
    requires ValidJob(plan.job) && Schedule(plan).Ok? && bars == SortedBars(plan.job)
    requires i < |bars| && k < |plan.job.orders| && Chance(plan.job, bars, i, plan.job.orders[k])
    requires OrderTotal(Schedule(plan).value, plan.job.orders[k].id) < plan.job.orders[k].quantity
    ensures Sweep(plan, bars).Ok? && Sweep(plan, bars[..i]).Ok?
    ensures Left(Sweep(plan, bars).value, plan.job.orders[k].id) > 0.0
    ensures Eligible(plan.job, plan.job.orders[k], bars[i], Sweep(plan, bars[..i]).value)
  {
    ScheduleIsSorted(plan);
    OrderConserved(plan, k);
    ValidJobRuns(plan.job);
    SortedBarsSame(plan.job);
    FillableMeans(plan.job, plan.job.orders[k], bars[i]);
    AttemptedIs(plan, bars, i, k);
    SweepFalls(plan, bars, i, k);
    hide ValidJob, Sweep, SortedBars, Schedule, Fillable, MayTry, Crosses, Left, OrderTotal, IsQuantized, Lot;
  }

  // ---------- what a child says ----------

  /** Every child is made for an order of the job on a bar of the run. */
  ghost predicate MadeFor(plan: Plan, bars: seq<Bar>, child: Child) {
    exists k, j, quantity, index ::
      0 <= k < |plan.job.orders| && 0 <= j < |bars| && child == MakeChild(plan, plan.job.orders[k], bars[j], quantity, index)
  }

  lemma {:induction false} WalkMade(plan: Plan, bars: seq<Bar>, j: nat, orders: seq<Order>, book: Book, capacity: real)
    requires j < |bars| && capacity >= 0.0 && Walk(plan, bars[j], orders, book, capacity).Visited?
    requires orders <= plan.job.orders && forall c | c in book.children :: MadeFor(plan, bars, c)
    ensures forall c | c in Walk(plan, bars[j], orders, book, capacity).book.children :: MadeFor(plan, bars, c)
  {
    if orders != [] {
      var n := |orders| - 1;
      WalkMade(plan, bars, j, orders[..n], book, capacity);
      WalkMoves(plan, bars[j], orders[..n], book, capacity, 0);
      var before := Walk(plan, bars[j], orders[..n], book, capacity);
      VisitEffect(plan, orders[n], bars[j], before.book, before.available);
      hide Visit, MakeChild, Demand;
      var taken := Taken(plan, orders[n], bars[j], before.book, before.available);
      forall c | c in taken ensures MadeFor(plan, bars, c) {
        assert orders[n] == plan.job.orders[n];
      }
    }
  }

  lemma {:induction false} SweepMade(plan: Plan, bars: seq<Bar>, n: nat)
    requires n <= |bars| && Sweep(plan, bars[..n]).Ok?
    ensures forall c | c in Sweep(plan, bars[..n]).value.children :: MadeFor(plan, bars, c)
  {
    if n > 0 {
      SweepStep(plan, bars, n - 1);
      CapacityNonNegative(plan.job, bars[n - 1]);
      hide Sweep, Walk, MadeFor, Capacity;
      SweepMade(plan, bars, n - 1);
      WalkMade(plan, bars, n - 1, plan.job.orders, Sweep(plan, bars[..n - 1]).value, Capacity(plan.job, bars[n - 1]));
    }
  }

  /**
   LEAN's native limit of a limit order goes through the bar's open by a price quantum, so that the native
   engine fills there, and is never tighter than the order's own limit.
   */
  ghost predicate NudgedLimit(order: Order, bar: Bar, quantum: real, limit: real) {
    if order.side.Buy? then
      && bar.open + quantum <= limit && order.limitPrice.Some? && order.limitPrice.value <= limit
      && (limit == bar.open + quantum || limit == order.limitPrice.value)
    else
      && limit <= bar.open - quantum && order.limitPrice.Some? && limit <= order.limitPrice.value
      && (limit == bar.open - quantum || limit == order.limitPrice.value)
  }

  /** A child repeats its order and its bar; only LEAN changes the limit. */
  ghost predicate ChildReads(plan: Plan, child: Child, order: Order, bar: Bar, instrument: Instrument) {
    && order in plan.job.orders && bar in plan.job.bars
    && instrument in plan.job.instruments && instrument.id == bar.instrumentId
    && child.orderId == order.id && child.side == order.side && child.orderType == order.orderType
    && child.timeInForce == order.timeInForce && child.barId == bar.id && child.opensAt == bar.opensAt
    && if plan.venue.Lean? && order.orderType.Limit?
       then child.nativeLimit.Some? && NudgedLimit(order, bar, instrument.priceQuantum, child.nativeLimit.value)
       else child.nativeLimit == order.limitPrice
  }

  lemma ScheduledChildReads(plan: Plan, child: Child) returns (order: Order, bar: Bar, instrument: Instrument)
    requires ValidJob(plan.job) && Schedule(plan).Ok? && child in Schedule(plan).value
    ensures ChildReads(plan, child, order, bar, instrument)
  {
    order, bar := ChildSource(plan, child);
    instrument := FindInstrument(plan.job.instruments, bar.instrumentId).value;
    assert ValidOrder(plan.job, order);
  }

  lemma ChildSource(plan: Plan, child: Child) returns (order: Order, bar: Bar)
    requires ValidJob(plan.job) && Schedule(plan).Ok? && child in Schedule(plan).value
    ensures order in plan.job.orders && bar in plan.job.bars
    ensures FindInstrument(plan.job.instruments, bar.instrumentId).Some?
    ensures exists quantity, index :: child == MakeChild(plan, order, bar, quantity, index)
  {
    var bars := SortedBars(plan.job);
    ScheduleIsSorted(plan);
    SortedBarsSame(plan.job);
    Checked(plan.job);
    SameElements(Schedule(plan).value, FinalBook(plan).children);
    assert bars[..|bars|] == bars;
    SweepMade(plan, bars, |bars|);
    hide ValidJob, Sweep, SortedBars, Schedule, MakeChild, SessionForBar, IsQuantized;
    assert MadeFor(plan, bars, child);
    var k, j, quantity, index :|
      0 <= k < |plan.job.orders| && 0 <= j < |bars| && child == MakeChild(plan, plan.job.orders[k], bars[j], quantity, index);
    order, bar := plan.job.orders[k], bars[j];
    assert bar in bars;
  }
}

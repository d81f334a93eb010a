/** The laws of a finished schedule: sorted children of a validated job. */
module ScheduleTheorems {
  import opened Sorting
  import opened Sums
  import opened Identifiers
  import opened BacktestQuanta
  import opened BacktestContracts
  import opened BacktestMath
  import opened Allocator
  import opened ScheduleLaws
  import opened ChildLaws
  import opened TimeInForceLaws

  /** The book a successful run ends with. */
  function FinalBook(plan: Plan): Book
    requires Schedule(plan).Ok?
  {
    Sweep(plan, SortedBars(plan.job)).value
  }

  lemma ScheduleIsSorted(plan: Plan)
    requires Schedule(plan).Ok?
    ensures Sweep(plan, SortedBars(plan.job)).Ok?
    ensures Schedule(plan).value == Sort(FinalBook(plan).children, ChildLe)
    ensures multiset(Schedule(plan).value) == multiset(FinalBook(plan).children)
  {
  }

  // ---------- conservation ----------

  /** Nothing is lost: an order's children and its open remainder add up to it, in whole lots. */
  lemma OrderConserved(plan: Plan, k: nat)
    requires ValidJob(plan.job) && Schedule(plan).Ok? && k < |plan.job.orders|
    ensures var order := plan.job.orders[k];
            var left := Left(FinalBook(plan), order.id);
            && left >= 0.0 && OrderTotal(Schedule(plan).value, order.id) + left == order.quantity
            && IsQuantized(left, Lot(plan.job, order.instrumentId))
  {
    hide ValidJob, Sweep, SortedBars, IsQuantized, Lot;
    var bars, order := SortedBars(plan.job), plan.job.orders[k];
    ValidJobRuns(plan.job);
    ScheduleIsSorted(plan);
    SweepConserves(plan, bars, order);
    SweepFalls(plan, bars, |bars|, k);
    SweepInLots(plan, bars);
    SumPermutation(Schedule(plan).value, FinalBook(plan).children, OfOrder(order.id));
  }

  /** No bar gives more than its floored participation. */
  lemma BarNotOverdrawn(plan: Plan, bar: Bar)
    requires ValidJob(plan.job) && Schedule(plan).Ok? && bar in plan.job.bars
    ensures BarTotal(Schedule(plan).value, bar.id) <= Capacity(plan.job, bar)
  {
    hide ValidJob, Sweep, SortedBars, Capacity;
    var bars := SortedBars(plan.job);
    ValidJobRuns(plan.job);
    ScheduleIsSorted(plan);
    SortedBarsSame(plan.job);
    SweepBarTotals(plan, bars, bar.id);
    SumPermutation(Schedule(plan).value, FinalBook(plan).children, OnBar(bar.id));
    var i :| 0 <= i < |bars| && bars[i] == bar;
  }

  // ---------- order and identity of the children ----------

  lemma {:induction false} ChildrenAreKept(children: seq<Child>, id: Id, kept: set<Child>)
    requires forall c | c in children :: c in kept <==> c.orderId == id
    ensures ChildrenOf(children, id) == Keep(children, kept)
  {
    if children != [] {
      var n := |children| - 1;
      assert children == children[..n] + [children[n]];
      ChildrenAreKept(children[..n], id, kept);
      KeepConcat(children[..n], [children[n]], kept);
      KeepCons(children[n], [], kept);
      assert [children[n]] + [] == [children[n]];
    }
  }

  /** Taking one order's children before or after the final sort is the same. */
  lemma ChildrenOfSorted(children: seq<Child>, id: Id)
    ensures ChildrenOf(Sort(children, ChildLe), id) == Sort(ChildrenOf(children, id), ChildLe)
  {
    var kept := set c | c in children && c.orderId == id;
    SameElements(Sort(children, ChildLe), children);
    ChildrenAreKept(children, id, kept);
    ChildrenAreKept(Sort(children, ChildLe), id, kept);
    ChildOrder();
    KeepSort(children, kept, ChildLe);
  }

  /** The final sort keeps an order's children as generated: numbered 1, 2, 3, ... at advancing opens. */
  lemma GenerationOrderKept(plan: Plan, k: nat)
    requires ValidJob(plan.job) && Schedule(plan).Ok? && k < |plan.job.orders|
    ensures var id := plan.job.orders[k].id;
            var own := ChildrenOf(Schedule(plan).value, id);
            && own == ChildrenOf(FinalBook(plan).children, id)
            && (forall i | 0 <= i < |own| :: own[i].childId == ChildId(id, i + 1))
            && StrictlyLater(own)
  {
    hide ValidJob, Sweep, SortedBars, ChildrenOf, ChildId, Capacity;
    var bars, id := SortedBars(plan.job), plan.job.orders[k].id;
    ValidJobRuns(plan.job);
    ScheduleIsSorted(plan);
    SweepPlaces(plan, bars, k);
    SweepNumbers(plan, bars, k);
    ChildrenOfSorted(FinalBook(plan).children, id);
    SortIdle(ChildrenOf(FinalBook(plan).children, id), ChildLe);
  }

  lemma {:induction false} ChildrenPrefix(children: seq<Child>, n: nat, id: Id)
    requires n <= |children|
    ensures ChildrenOf(children[..n], id) <= ChildrenOf(children, id)
  {
    if n < |children| {
      var m := |children| - 1;
      assert children[..m][..n] == children[..n];
      ChildrenPrefix(children[..m], n, id);
    } else {
      assert children[..n] == children;
    }
  }

  /** Where a child sits among the children of its order. */
  lemma RankOf(children: seq<Child>, a: nat)
    requires a < |children|
    ensures var id := children[a].orderId;
            var rank := |ChildrenOf(children[..a], id)|;
            rank < |ChildrenOf(children, id)| && ChildrenOf(children, id)[rank] == children[a]
  {
    var id := children[a].orderId;
    assert children[..a + 1] == children[..a] + [children[a]];
    ChildrenPush(children[..a], children[a], id);
    ChildrenPrefix(children, a + 1, id);
  }

  lemma RankAdvances(children: seq<Child>, a: nat, b: nat)
    requires a < b < |children| && children[a].orderId == children[b].orderId
    ensures var id := children[a].orderId;
            |ChildrenOf(children[..a], id)| < |ChildrenOf(children[..b], id)|
  {
    var id := children[a].orderId;
    assert children[..a + 1] == children[..a] + [children[a]];
    ChildrenPush(children[..a], children[a], id);
    assert children[..b][..a + 1] == children[..a + 1];
    ChildrenPrefix(children[..b], a + 1, id);
  }

  ghost predicate DistinctIds(children: seq<Child>) {
    forall i, j | 0 <= i < j < |children| :: children[i].childId != children[j].childId
  }

  /** Every generated child is named after its order and its rank among that order's children. */
  lemma ChildNamed(plan: Plan, a: nat)
    requires ValidJob(plan.job) && Schedule(plan).Ok? && a < |FinalBook(plan).children|
    ensures var children := FinalBook(plan).children;
            var id := children[a].orderId;
            IsUuid(id) && children[a].childId == ChildId(id, |ChildrenOf(children[..a], id)| + 1)
  {
    assert DistinctOrders(plan.job.orders) && forall o | o in plan.job.orders :: IsUuid(o.id);
    hide ValidJob, Sweep, SortedBars, ChildrenOf, ChildId, DistinctOrders, IsUuid;
    var bars, children := SortedBars(plan.job), FinalBook(plan).children;
    SweepOwners(plan, bars, children[a]);
    var k :| 0 <= k < |plan.job.orders| && plan.job.orders[k].id == children[a].orderId;
    SweepNumbers(plan, bars, k);
    RankOf(children, a);
  }

  lemma GeneratedIdsDiffer(plan: Plan, a: nat, b: nat)
    requires ValidJob(plan.job) && Schedule(plan).Ok? && a < b < |FinalBook(plan).children|
    ensures FinalBook(plan).children[a].childId != FinalBook(plan).children[b].childId
  {
    hide ValidJob, FinalBook, Schedule, ChildrenOf, ChildId, IsUuid;
    var children := FinalBook(plan).children;
    var c, d := children[a], children[b];
    ChildNamed(plan, a);
    ChildNamed(plan, b);
    var i, j := |ChildrenOf(children[..a], c.orderId)|, |ChildrenOf(children[..b], d.orderId)|;
    if c.childId == d.childId {
      ChildIdInjective(c.orderId, i + 1, d.orderId, j + 1);
      RankAdvances(children, a, b);
    }
  }

  lemma {:induction false} TwicePositions<T>(xs: seq<T>, x: T) returns (i: nat, j: nat)
    requires multiset(xs)[x] >= 2
    ensures i < j < |xs| && xs[i] == x == xs[j]
  {
    assert x in multiset(xs);
    j :| 0 <= j < |xs| && xs[j] == x;
    var rest := xs[..j] + xs[j + 1..];
    assert xs == xs[..j] + [x] + xs[j + 1..];
    assert multiset(rest) == multiset(xs) - multiset{x};
    assert x in multiset(rest);
    var r :| 0 <= r < |rest| && rest[r] == x;
    i := if r < j then r else r + 1;
    assert xs[i] == x;
    if i > j {
      i, j := j, i;
    }
  }

  lemma DistinctAfterSort(xs: seq<Child>, ys: seq<Child>)
    requires multiset(xs) == multiset(ys) && DistinctIds(xs)
    ensures DistinctIds(ys)
  {
    SameElements(xs, ys);
    forall i, j | 0 <= i < j < |ys| ensures ys[i].childId != ys[j].childId {
      if ys[i] == ys[j] {
        TwiceCounts(ys, i, j);
        var a, b := TwicePositions(xs, ys[i]);
      } else {
        assert ys[i] in xs && ys[j] in xs;
        var a :| 0 <= a < |xs| && xs[a] == ys[i];
        var b :| 0 <= b < |xs| && xs[b] == ys[j];
        assert a < b || b < a;
      }
    }
  }

  /** No two children of a schedule share an id. */
  lemma ChildIdsDistinct(plan: Plan)
    requires ValidJob(plan.job) && Schedule(plan).Ok?
    ensures DistinctIds(Schedule(plan).value)
  {
    hide ValidJob, Sweep, SortedBars, Sort;
    var children := FinalBook(plan).children;
    forall a, b | 0 <= a < b < |children| ensures children[a].childId != children[b].childId {
      GeneratedIdsDiffer(plan, a, b);
    }
    ScheduleIsSorted(plan);
    DistinctAfterSort(children, Schedule(plan).value);
  }

  // ---------- time in force ----------

  /** The bar a child was made on, in the terms of the job. */
  ghost predicate TradesOn(job: Job, order: Order, child: Child, bar: Bar) {
    && bar in job.bars && child.barId == bar.id && child.opensAt == bar.opensAt
    && order.issuedAt < bar.opensAt < order.validUntil && bar.instrumentId == order.instrumentId
    && Fillable(job, order, bar)
    && child.quantity > 0.0 && IsQuantized(child.quantity, Lot(job, order.instrumentId))
  }

  /** Every child trades inside its order's window, on a tradable crossing bar, in positive whole lots. */
  lemma ChildrenInWindow(plan: Plan, k: nat, child: Child)
    requires ValidJob(plan.job) && Schedule(plan).Ok? && k < |plan.job.orders|
    requires child in ChildrenOf(Schedule(plan).value, plan.job.orders[k].id)
    ensures exists bar :: TradesOn(plan.job, plan.job.orders[k], child, bar)
  {
    GenerationOrderKept(plan, k);
    ValidJobRuns(plan.job);
    hide ValidJob, Sweep, ChildrenOf, Schedule, IsQuantized;
    var bars, order := SortedBars(plan.job), plan.job.orders[k];
    SortedBarsSame(plan.job);
    ScheduleIsSorted(plan);
    SweepPlaces(plan, bars, k);
    var j: nat :| MadeOn(plan.job, bars, order, child, j);
    assert TradesOn(plan.job, order, child, bars[j]);
  }

  /** An IOC order has at most one child, on the first bar in run order where it could be tried. */
  lemma IocOnFirstOpportunity(plan: Plan, k: nat)
    requires ValidJob(plan.job) && Schedule(plan).Ok? && k < |plan.job.orders|
    requires plan.job.orders[k].timeInForce.Ioc?
    ensures var order := plan.job.orders[k];
            var own := ChildrenOf(Schedule(plan).value, order.id);
            && |own| <= 1
            && (own != [] ==>
                  exists j :: 0 <= j < |SortedBars(plan.job)| && own[0].barId == SortedBars(plan.job)[j].id
                    && Tries(plan.job, order, SortedBars(plan.job)[j])
                    && forall i | 0 <= i < j :: !Tries(plan.job, order, SortedBars(plan.job)[i]))
  {
    GenerationOrderKept(plan, k);
    ValidJobRuns(plan.job);
    hide ValidJob, Sweep, ChildrenOf, Schedule, IsQuantized, Tries, SortedBars;
    var bars, order := SortedBars(plan.job), plan.job.orders[k];
    var own := ChildrenOf(Schedule(plan).value, order.id);
    ScheduleIsSorted(plan);
    SweepPlaces(plan, bars, k);
    if own != [] {
      assert own[0] in own;
      var j: nat :| MadeOn(plan.job, bars, order, own[0], j);
      assert Tries(plan.job, order, bars[j]);
    }
  }

  /** `session` is where the bar lies and `first` the first open session; they share a date. */
  ghost predicate OnFirstDate(scoped: seq<Session>, order: Order, bar: Bar, session: Session, first: nat) {
    && session in scoped && Holds(session, bar)
    && IsFirstSession(scoped, order, first) && scoped[first].date == session.date
  }

  lemma DayBarOnFirstDate(job: Job, order: Order, bar: Bar, scoped: seq<Session>) returns (session: Session, first: nat)
    requires order.timeInForce.Day? && Tries(job, order, bar)
    requires FindInstrument(job.instruments, bar.instrumentId).Some?
    requires scoped == ScopedSessions(job.sessions, FindInstrument(job.instruments, bar.instrumentId).value.mic)
    requires OneMarket(scoped)
    ensures OnFirstDate(scoped, order, bar, session, first)
  {
    hide ScopedSessions, SessionIn, FirstDateIn, OneMarket, FindInstrument, IsFirstSession;
    session := SessionIn(scoped, bar).value;
    SessionForBarFinds(scoped, bar, session);
    FirstSessionFinds(scoped, order);
    first :| IsFirstSession(scoped, order, first);
  }

  /** A DAY order's child trades inside a session dated like the order's first open session. */
  lemma DayOnFirstDate(plan: Plan, k: nat, child: Child) returns (bar: Bar, session: Session, first: nat)
    requires ValidJob(plan.job) && Schedule(plan).Ok? && k < |plan.job.orders|
    requires plan.job.orders[k].timeInForce.Day?
    requires child in ChildrenOf(Schedule(plan).value, plan.job.orders[k].id)
    ensures TradesOn(plan.job, plan.job.orders[k], child, bar)
    ensures FindInstrument(plan.job.instruments, bar.instrumentId).Some?
    ensures OnFirstDate(ScopedSessions(plan.job.sessions, FindInstrument(plan.job.instruments, bar.instrumentId).value.mic),
                        plan.job.orders[k], bar, session, first)
  {
    ChildrenInWindow(plan, k, child);
    assert ValidCalendar(plan.job.sessions);
    hide ValidJob, Schedule, ChildrenOf, IsQuantized, FillPrice, ScopedSessions, OneMarket, OnFirstDate, Tries;
    var job, order := plan.job, plan.job.orders[k];
    bar :| TradesOn(job, order, child, bar);
    var scoped := ScopedSessions(job.sessions, FindInstrument(job.instruments, bar.instrumentId).value.mic);
    session, first := DayBarOnFirstDate(job, order, bar, scoped);
  }
}

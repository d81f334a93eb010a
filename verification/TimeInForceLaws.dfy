/** Where in time the children of an order lie. */
module TimeInForceLaws {
  import opened Sorting
  import opened BacktestQuanta
  import opened BacktestContracts
  import opened BacktestMath
  import opened Allocator
  import opened ScheduleLaws
  import opened ChildLaws

  /** The child was made on bar `j` of the run, which the order could trade; an IOC order's first chance. */
  ghost predicate MadeOn(job: Job, seen: seq<Bar>, order: Order, child: Child, j: nat) {
    && j < |seen| && child.barId == seen[j].id && child.opensAt == seen[j].opensAt
    && Fillable(job, order, seen[j])
    && child.quantity > 0.0 && IsQuantized(child.quantity, Lot(job, order.instrumentId))
    && (order.timeInForce.Ioc? ==> forall i | 0 <= i < j :: !Tries(job, order, seen[i]))
  }

  ghost predicate AllMade(job: Job, seen: seq<Bar>, order: Order, own: seq<Child>) {
    forall c | c in own :: exists j: nat :: MadeOn(job, seen, order, c, j)
  }

  ghost predicate StrictlyLater(own: seq<Child>) {
    forall i, j | 0 <= i < j < |own| :: own[i].opensAt < own[j].opensAt
  }

  /** An IOC order is untouched until its first opportunity, and spent from then on. */
  ghost predicate IocSpent(job: Job, seen: seq<Bar>, order: Order, book: Book) {
    order.timeInForce.Ioc? ==>
      && (order.id in book.attempts <==> exists i :: 0 <= i < |seen| && Tries(job, order, seen[i]))
      && |ChildrenOf(book.children, order.id)| <= 1
      && (order.id !in book.attempts ==>
            Left(book, order.id) == order.quantity && ChildrenOf(book.children, order.id) == [])
  }

  ghost predicate WellPlaced(job: Job, seen: seq<Bar>, order: Order, book: Book) {
    && AllMade(job, seen, order, ChildrenOf(book.children, order.id))
    && StrictlyLater(ChildrenOf(book.children, order.id))
    && IocSpent(job, seen, order, book)
  }

  /** Bars of one instrument open one after the other. */
  ghost predicate BarsAdvance(bars: seq<Bar>) {
    forall i, j | 0 <= i < j < |bars| && bars[i].instrumentId == bars[j].instrumentId ::
      bars[i].opensAt < bars[j].opensAt
  }

  lemma IocStep(job: Job, seen: seq<Bar>, bar: Bar, order: Order, before: Book, after: Book, added: seq<Child>, share: real)
    requires IocSpent(job, seen, order, before) && Adds(job, order, bar, before, after, added)
    requires |added| <= 1 && (added != [] ==> share > 0.0) && (share > 0.0 ==> Eligible(job, order, bar, before))
    requires share >= 0.0 && Left(after, order.id) == Left(before, order.id) - share
    ensures IocSpent(job, seen + [bar], order, after)
  {
    hide FillPrice, FindInstrument, Tries, ChildrenOf;
    if order.timeInForce.Ioc? {
      var now := seen + [bar];
      assert forall i | 0 <= i < |seen| :: now[i] == seen[i];
      assert now[|seen|] == bar;
      if Tries(job, order, bar) {
        assert Tries(job, order, now[|seen|]);
      }
      if order.id in before.attempts {
        var i :| 0 <= i < |seen| && Tries(job, order, seen[i]);
        assert Tries(job, order, now[i]);
      }
    }
  }

  lemma MadeLater(job: Job, seen: seq<Bar>, bar: Bar, order: Order, own: seq<Child>)
    requires AllMade(job, seen, order, own)
    ensures AllMade(job, seen + [bar], order, own)
  {
    forall c | c in own ensures exists j: nat :: MadeOn(job, seen + [bar], order, c, j) {
      var j: nat :| MadeOn(job, seen, order, c, j);
      assert MadeOn(job, seen + [bar], order, c, j);
    }
  }

  lemma MadeNow(plan: Plan, seen: seq<Bar>, bar: Bar, order: Order, book: Book, share: real, index: nat)
    requires IocSpent(plan.job, seen, order, book) && Eligible(plan.job, order, bar, book) && share > 0.0
    requires IsQuantized(share, Lot(plan.job, bar.instrumentId))
    ensures MadeOn(plan.job, seen + [bar], order, MakeChild(plan, order, bar, share, index), |seen|)
  {
    assert bar.instrumentId == order.instrumentId;
    hide IsQuantized, Lot;
  }

  lemma PlaceStep(plan: Plan, seen: seq<Bar>, bar: Bar, before: Book, after: Book, k: nat)
    requires k < |plan.job.orders| && InLots(plan.job, before)
    requires var job, order := plan.job, plan.job.orders[k];
             var capacity := Capacity(job, bar);
             && WellPlaced(job, seen, order, before) && BarsAdvance(seen + [bar]) && capacity >= 0.0
             && Adds(job, order, bar, before, after, ShareChild(plan, bar, before, job.orders, capacity, k))
             && Left(after, order.id) == Left(before, order.id) - Share(job, bar, before, job.orders, capacity, k)
    ensures WellPlaced(plan.job, seen + [bar], plan.job.orders[k], after)
  {
    hide Capacity, IsQuantized, Lot, Fillable, Tries, ChildrenOf, MakeChild;
    var job, order := plan.job, plan.job.orders[k];
    var capacity := Capacity(job, bar);
    var share := Share(job, bar, before, job.orders, capacity, k);
    var added := ShareChild(plan, bar, before, job.orders, capacity, k);
    var own := ChildrenOf(before.children, order.id);
    MadeLater(job, seen, bar, order, own);
    if share > 0.0 {
      ShareOnOwnBar(job, bar, before, capacity, k);
      ShareInLots(job, bar, before, k);
      MadeNow(plan, seen, bar, order, before, share, Count(before, order.id) + 1);
      NewIsLatest(plan, seen, bar, order, own, added);
    } else {
      assert own + [] == own;
    }
    IocStep(job, seen, bar, order, before, after, added, share);
  }

  lemma NewIsLatest(plan: Plan, seen: seq<Bar>, bar: Bar, order: Order, own: seq<Child>, added: seq<Child>)
    requires AllMade(plan.job, seen, order, own) && StrictlyLater(own) && BarsAdvance(seen + [bar])
    requires |added| == 1 && added[0].opensAt == bar.opensAt && bar.instrumentId == order.instrumentId
    ensures StrictlyLater(own + added)
  {
    forall i | 0 <= i < |own| ensures own[i].opensAt < bar.opensAt {
      assert own[i] in own;
      var j: nat :| MadeOn(plan.job, seen, order, own[i], j);
      assert (seen + [bar])[j] == seen[j] && (seen + [bar])[|seen|] == bar;
    }
  }

  lemma PlaceStart(plan: Plan, order: Order)
    requires DistinctOrders(plan.job.orders) && order in plan.job.orders
    ensures Sweep(plan, []).Ok? && WellPlaced(plan.job, [], order, Sweep(plan, []).value)
  {
    StartQuantities(plan.job.orders, order);
  }

  ghost predicate OrdersInLots(job: Job) {
    forall k | 0 <= k < |job.orders| ::
      IsQuantized(job.orders[k].quantity, Lot(job, job.orders[k].instrumentId))
  }

  lemma {:induction false} SweepPlaces(plan: Plan, bars: seq<Bar>, k: nat)
    requires DistinctOrders(plan.job.orders) && OrdersInLots(plan.job) && BarsAdvance(bars)
    requires k < |plan.job.orders| && Sweep(plan, bars).Ok?
    ensures WellPlaced(plan.job, bars, plan.job.orders[k], Sweep(plan, bars).value)
  {
    hide Sweep, WellPlaced, DistinctOrders, Adds, Share, ShareChild, Capacity, InLots, IsQuantized;
    if bars == [] {
      PlaceStart(plan, plan.job.orders[k]);
    } else {
      var n := |bars| - 1;
      assert bars[..n + 1] == bars && bars == bars[..n] + [bars[n]];
      SweepPrefix(plan, bars, n);
      SweepPlaces(plan, bars[..n], k);
      BarAdds(plan, bars, n, k);
      SweepInLots(plan, bars[..n]);
      CapacityNonNegative(plan.job, bars[n]);
      PlaceStep(plan, bars[..n], bars[n], Sweep(plan, bars[..n]).value, Sweep(plan, bars).value, k);
    }
  }

  // ---------- what a validated job gives ----------

  lemma ValidJobRuns(job: Job)
    requires ValidJob(job)
    ensures OrdersInLots(job) && Runnable(job, SortedBars(job)) && BarsAdvance(SortedBars(job))
  {
    hide IsQuantized, ValidBars, SellPricesBounded, ValidOpening, ValidCalendar, ValidCost, SortedBars;
    forall k | 0 <= k < |job.orders|
      ensures IsQuantized(job.orders[k].quantity, Lot(job, job.orders[k].instrumentId))
    {
      assert ValidOrder(job, job.orders[k]);
    }
    SortedDistinct(job);
  }

  /** Distinct ids and advancing opens survive the sort. */
  lemma SortedDistinct(job: Job)
    requires ValidBars(job)
    ensures var bars := SortedBars(job);
            && (forall i, j | 0 <= i < j < |bars| :: bars[i].id != bars[j].id)
            && BarsAdvance(bars)
  {
    var bars := SortedBars(job);
    SortedBarsSame(job);
    forall i, j | 0 <= i < j < |bars|
      ensures bars[i].id != bars[j].id
      ensures bars[i].instrumentId == bars[j].instrumentId ==> bars[i].opensAt < bars[j].opensAt
    {
      PairsDistinct(job, bars, i, j);
    }
  }

  lemma SortedPair(bars: seq<Bar>, i: nat, j: nat)
    requires i < j < |bars| && SortedBy(bars, BarLe)
    ensures BarLe(bars[i], bars[j])
  {
  }

  lemma PairsDistinct(job: Job, bars: seq<Bar>, i: nat, j: nat)
    requires ValidBars(job) && i < j < |bars| && multiset(bars) == multiset(job.bars) && SortedBy(bars, BarLe)
    ensures bars[i].id != bars[j].id
    ensures bars[i].instrumentId == bars[j].instrumentId ==> bars[i].opensAt < bars[j].opensAt
  {
    hide SessionForBar, FindInstrument, IsQuantized, SortedBy;
    assert BarLe(bars[i], bars[j]) by {
      SortedPair(bars, i, j);
    }
    NoRepeats(job.bars);
    if bars[i] == bars[j] {
      TwiceCounts(bars, i, j);
    }
    assert bars[i] in multiset(job.bars) && bars[j] in multiset(job.bars);
    var a :| 0 <= a < |job.bars| && job.bars[a] == bars[i];
    var b :| 0 <= b < |job.bars| && job.bars[b] == bars[j];
    assert bars[i].opensAt < bars[i].closesAt && bars[j].opensAt < bars[j].closesAt;
  }

  lemma {:induction false} NoRepeats(bars: seq<Bar>)
    requires forall i, j | 0 <= i < j < |bars| :: bars[i].id != bars[j].id
    ensures forall b | b in bars :: multiset(bars)[b] == 1
  {
    if bars != [] {
      var n := |bars| - 1;
      NoRepeats(bars[..n]);
      assert bars == bars[..n] + [bars[n]];
      forall b | b in bars ensures multiset(bars)[b] == 1 {
        if b == bars[n] {
          assert b !in bars[..n];
        }
      }
    }
  }

  lemma TwiceCounts<T>(xs: seq<T>, i: nat, j: nat)
    requires i < j < |xs| && xs[i] == xs[j]
    ensures multiset(xs)[xs[i]] >= 2
  {
    assert xs == xs[..j] + [xs[j]] + xs[j + 1..];
    assert xs[i] in xs[..j];
    assert multiset(xs[..j])[xs[i]] >= 1;
  }
}

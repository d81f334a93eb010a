/** What one visit, one bar and one whole run of the allocator do, in closed form. */
module ScheduleLaws {
  import opened Sums
  import opened BacktestQuanta
  import opened BacktestContracts
  import opened BacktestMath
  import opened Allocator

  /** The order would take volume from this bar if there were enough. */
  predicate Eligible(job: Job, order: Order, bar: Bar, book: Book) {
    Open(book, order) && Fillable(job, order, bar)
  }

  function Demand(job: Job, bar: Bar, book: Book, order: Order): (d: real)
    ensures d >= 0.0
  {
    if Eligible(job, order, bar, book) then Left(book, order.id) else 0.0
  }

  function DemandOf(job: Job, bar: Bar, book: Book): Order -> real {
    (order: Order) => Demand(job, bar, book, order)
  }

  function OfOrder(id: Id): Child -> real {
    (child: Child) => if child.orderId == id then child.quantity else 0.0
  }

  function OnBar(id: Id): Child -> real {
    (child: Child) => if child.barId == id then child.quantity else 0.0
  }

  function OrderTotal(children: seq<Child>, id: Id): real { Sum(children, OfOrder(id)) }

  function BarTotal(children: seq<Child>, id: Id): real { Sum(children, OnBar(id)) }

  // ---------- one visit ----------

  /** The children a visit adds: one of the taken quantity, or none. */
  function Taken(plan: Plan, order: Order, bar: Bar, book: Book, available: real): seq<Child> {
    var quantity := Min(Demand(plan.job, bar, book, order), available);
    if quantity <= 0.0 then [] else [MakeChild(plan, order, bar, quantity, Count(book, order.id) + 1)]
  }

  lemma VisitEffect(plan: Plan, order: Order, bar: Bar, book: Book, available: real)
    requires available >= 0.0 && Visit(plan, order, bar, book, available).Visited?
    ensures var after := Visit(plan, order, bar, book, available);
            var quantity := Min(Demand(plan.job, bar, book, order), available);
            var taken := Taken(plan, order, bar, book, available);
            && after.available == available - quantity >= 0.0
            && Left(after.book, order.id) == Left(book, order.id) - quantity
            && after.book.children == book.children + taken
            && Count(after.book, order.id) == Count(book, order.id) + |taken|
            && (order.id in after.book.attempts <==>
                  order.id in book.attempts
                  || (order.timeInForce.Ioc? && Open(book, order) && Tries(plan.job, order, bar)))
    ensures Elsewhere(book, Visit(plan, order, bar, book, available).book, {order.id})
  {
    hide Tries, MakeChild, FindInstrument;
    assert book.children + [] == book.children;
  }

  /** Nothing about orders outside `ids` differs between the two books. */
  ghost predicate Elsewhere(book: Book, after: Book, ids: set<Id>) {
    forall id | id !in ids ::
      && Left(after, id) == Left(book, id) && Count(after, id) == Count(book, id)
      && (id in after.attempts <==> id in book.attempts)
  }

  // ---------- one bar ----------

  function Ids(orders: seq<Order>): (ids: set<Id>)
    ensures forall o | o in orders :: o.id in ids
    ensures forall id | id in ids :: exists o :: o in orders && o.id == id
  {
    set o | o in orders :: o.id
  }

  /** What the bar has left after offering its capacity to these orders. */
  function Remainder(capacity: real, demand: real): real { Max(0.0, capacity - demand) }

  /** The waterfall: an order's share is what the earlier eligible orders leave, up to its own remainder. */
  function Share(job: Job, bar: Bar, book: Book, orders: seq<Order>, capacity: real, k: nat): real
    requires k < |orders|
  {
    Min(Demand(job, bar, book, orders[k]), Remainder(capacity, Sum(orders[..k], DemandOf(job, bar, book))))
  }

  lemma DistinctPrefix(orders: seq<Order>)
    requires orders != [] && DistinctOrders(orders)
    ensures DistinctOrders(orders[..|orders| - 1])
    ensures orders[|orders| - 1].id !in Ids(orders[..|orders| - 1])
    ensures Ids(orders) == Ids(orders[..|orders| - 1]) + {orders[|orders| - 1].id}
  {
    var n := |orders| - 1;
    assert orders == orders[..n] + [orders[n]];
  }

  /** The demand of an order does not change while other orders are served. */
  lemma DemandStable(job: Job, bar: Bar, book: Book, after: Book, order: Order, ids: set<Id>)
    requires Elsewhere(book, after, ids) && order.id !in ids
    ensures Demand(job, bar, after, order) == Demand(job, bar, book, order)
    ensures Open(after, order) <==> Open(book, order)
  {
  }

  lemma {:induction false} WalkEffect(plan: Plan, bar: Bar, orders: seq<Order>, book: Book, capacity: real)
    requires capacity >= 0.0 && DistinctOrders(orders)
    requires Walk(plan, bar, orders, book, capacity).Visited?
    ensures Walk(plan, bar, orders, book, capacity).available
         == Remainder(capacity, Sum(orders, DemandOf(plan.job, bar, book)))
    ensures Elsewhere(book, Walk(plan, bar, orders, book, capacity).book, Ids(orders))
  {
    if orders != [] {
      var n := |orders| - 1;
      DistinctPrefix(orders);
      WalkEffect(plan, bar, orders[..n], book, capacity);
      var before := Walk(plan, bar, orders[..n], book, capacity);
      DemandStable(plan.job, bar, book, before.book, orders[n], Ids(orders[..n]));
      VisitEffect(plan, orders[n], bar, before.book, before.available);
      hide Visit, Demand, MakeChild;
    }
  }

  /** Each order of a bar receives exactly its waterfall share. */
  lemma {:induction false} WalkShares(plan: Plan, bar: Bar, orders: seq<Order>, book: Book, capacity: real, k: nat)
    requires capacity >= 0.0 && DistinctOrders(orders) && k < |orders|
    requires Walk(plan, bar, orders, book, capacity).Visited?
    ensures Left(Walk(plan, bar, orders, book, capacity).book, orders[k].id)
         == Left(book, orders[k].id) - Share(plan.job, bar, book, orders, capacity, k)
  {
    var n := |orders| - 1;
    DistinctPrefix(orders);
    WalkEffect(plan, bar, orders[..n], book, capacity);
    var before := Walk(plan, bar, orders[..n], book, capacity);
    VisitEffect(plan, orders[n], bar, before.book, before.available);
    if k < n {
      WalkShares(plan, bar, orders[..n], book, capacity, k);
      assert orders[..n][..k] == orders[..k] && orders[..n][k] == orders[k];
      assert orders[k].id != orders[n].id;
    } else {
      DemandStable(plan.job, bar, book, before.book, orders[n], Ids(orders[..n]));
    }
  }

  lemma TakenSums(plan: Plan, order: Order, bar: Bar, book: Book, available: real, id: Id)
    requires available >= 0.0
    ensures var quantity := Min(Demand(plan.job, bar, book, order), available);
            var all := book.children + Taken(plan, order, bar, book, available);
            && OrderTotal(all, id) == OrderTotal(book.children, id) + (if id == order.id then quantity else 0.0)
            && BarTotal(all, id) == BarTotal(book.children, id) + (if id == bar.id then quantity else 0.0)
  {
    hide Tries, Fillable, Sum, NativeLimit, Count, FindInstrument;
    var taken := Taken(plan, order, bar, book, available);
    if taken == [] {
      assert book.children + taken == book.children;
    } else {
      assert taken == [taken[0]];
      SumPush(book.children, taken[0], OfOrder(id));
      SumPush(book.children, taken[0], OnBar(id));
    }
  }

  lemma LeftElsewhere(book: Book, after: Book, order: Order, id: Id)
    requires Elsewhere(book, after, {order.id}) && id != order.id
    ensures Left(after, id) == Left(book, id)
  {
  }

  /** Volume moves from the bar, and from the order's remainder, into the children and nowhere else. */
  lemma VisitMoves(plan: Plan, order: Order, bar: Bar, book: Book, available: real, id: Id)
    requires available >= 0.0 && Visit(plan, order, bar, book, available).Visited?
    ensures var after := Visit(plan, order, bar, book, available);
            && Left(after.book, id) + OrderTotal(after.book.children, id) == Left(book, id) + OrderTotal(book.children, id)
            && BarTotal(after.book.children, id)
                 == BarTotal(book.children, id) + (if id == bar.id then available - after.available else 0.0)
  {
    hide *;
    VisitEffect(plan, order, bar, book, available);
    TakenSums(plan, order, bar, book, available, id);
    if id != order.id {
      LeftElsewhere(book, Visit(plan, order, bar, book, available).book, order, id);
    }
  }

  lemma {:induction false} WalkMoves(plan: Plan, bar: Bar, orders: seq<Order>, book: Book, capacity: real, id: Id)
    requires capacity >= 0.0 && Walk(plan, bar, orders, book, capacity).Visited?
    ensures var after := Walk(plan, bar, orders, book, capacity);
            && after.available >= 0.0
            && Left(after.book, id) + OrderTotal(after.book.children, id) == Left(book, id) + OrderTotal(book.children, id)
            && BarTotal(after.book.children, id)
                 == BarTotal(book.children, id) + (if id == bar.id then capacity - after.available else 0.0)
  {
    if orders != [] {
      var n := |orders| - 1;
      WalkMoves(plan, bar, orders[..n], book, capacity, id);
      var before := Walk(plan, bar, orders[..n], book, capacity);
      VisitEffect(plan, orders[n], bar, before.book, before.available);
      VisitMoves(plan, orders[n], bar, before.book, before.available, id);
      hide Visit, OrderTotal, BarTotal, Demand, MakeChild;
    }
  }

  // ---------- the whole run ----------

  /** What a run needs of its job; validated jobs and sorted bars have it. */
  ghost predicate Runnable(job: Job, bars: seq<Bar>) {
    && DistinctOrders(job.orders)
    && (forall i, j | 0 <= i < j < |bars| :: bars[i].id != bars[j].id)
  }

  lemma CapacityNonNegative(job: Job, bar: Bar)
    ensures Capacity(job, bar) >= 0.0
  {
    match FindInstrument(job.instruments, bar.instrumentId)
    case None =>
    case Some(instrument) =>
      var lot := instrument.quantityQuantum;
      assert Offered(job, bar) >= 0.0;
      assert Quanta(0, lot) == 0.0;
      QuantaAreQuantized(0, lot);
      FloorAbsorbs(0.0, Offered(job, bar), lot);
  }

  lemma {:induction false} StartQuantities(orders: seq<Order>, order: Order)
    requires DistinctOrders(orders) && order in orders
    ensures Left(StartBook(orders), order.id) == order.quantity
  {
    var n := |orders| - 1;
    DistinctPrefix(orders);
    if order != orders[n] {
      assert order in orders[..n];
      StartQuantities(orders[..n], order);
    }
  }

  /** Scheduled plus remaining is the ordered quantity, throughout the run. */
  lemma {:induction false} SweepConserves(plan: Plan, bars: seq<Bar>, order: Order)
    requires DistinctOrders(plan.job.orders) && order in plan.job.orders && Sweep(plan, bars).Ok?
    ensures var book := Sweep(plan, bars).value;
            Left(book, order.id) + OrderTotal(book.children, order.id) == order.quantity
  {
    if bars == [] {
      StartQuantities(plan.job.orders, order);
    } else {
      var n := |bars| - 1;
      SweepConserves(plan, bars[..n], order);
      CapacityNonNegative(plan.job, bars[n]);
      WalkMoves(plan, bars[n], plan.job.orders, Sweep(plan, bars[..n]).value, Capacity(plan.job, bars[n]), order.id);
    }
  }

  /** No bar is drained beyond its capacity, and bars not yet reached have no children. */
  lemma {:induction false} SweepBarTotals(plan: Plan, bars: seq<Bar>, id: Id)
    requires Sweep(plan, bars).Ok?
    requires forall i, j | 0 <= i < j < |bars| :: bars[i].id != bars[j].id
    ensures var total := BarTotal(Sweep(plan, bars).value.children, id);
            && ((forall i | 0 <= i < |bars| :: bars[i].id != id) ==> total == 0.0)
            && (forall i | 0 <= i < |bars| && bars[i].id == id :: total <= Capacity(plan.job, bars[i]))
  {
    if bars != [] {
      var n := |bars| - 1;
      SweepBarTotals(plan, bars[..n], id);
      CapacityNonNegative(plan.job, bars[n]);
      WalkMoves(plan, bars[n], plan.job.orders, Sweep(plan, bars[..n]).value, Capacity(plan.job, bars[n]), id);
      hide Walk, Capacity, BarTotal, OrderTotal;
    }
  }

  /** The waterfall of bar `i`: what it gives each order, and in all. */
  lemma WaterfallClosedForm(plan: Plan, bars: seq<Bar>, i: nat, k: nat)
    requires Runnable(plan.job, bars) && i < |bars| && k < |plan.job.orders|
    requires Sweep(plan, bars[..i + 1]).Ok? && Sweep(plan, bars[..i]).Ok?
    ensures var job, orders := plan.job, plan.job.orders;
            var before, after := Sweep(plan, bars[..i]).value, Sweep(plan, bars[..i + 1]).value;
            var capacity := Capacity(job, bars[i]);
            && Left(after, orders[k].id)
                 == Left(before, orders[k].id) - Share(job, bars[i], before, orders, capacity, k)
            && BarTotal(after.children, bars[i].id) == Min(capacity, Sum(orders, DemandOf(job, bars[i], before)))
  {
    var job, orders := plan.job, plan.job.orders;
    var before := Sweep(plan, bars[..i]).value;
    var capacity := Capacity(job, bars[i]);
    SweepStep(plan, bars, i);
    CapacityNonNegative(job, bars[i]);
    SweepBarTotals(plan, bars[..i], bars[i].id);
    hide Sweep, Walk, Capacity, Demand, Share;
    WalkShares(plan, bars[i], orders, before, capacity, k);
    WalkEffect(plan, bars[i], orders, before, capacity);
    WalkMoves(plan, bars[i], orders, before, capacity, bars[i].id);
    SumNonNegative(orders, DemandOf(job, bars[i], before));
  }

  lemma {:induction false} SumNonNegative<T>(xs: seq<T>, weight: T -> real)
    requires forall x | x in xs :: weight(x) >= 0.0
    ensures Sum(xs, weight) >= 0.0
  {
    if xs != [] {
      SumNonNegative(xs[..|xs| - 1], weight);
    }
  }

  lemma SumAtLeast<T>(xs: seq<T>, weight: T -> real, k: nat)
    requires k < |xs| && forall x | x in xs :: weight(x) >= 0.0
    ensures Sum(xs, weight) >= Sum(xs[..k], weight) + weight(xs[k])
  {
    assert xs == xs[..k + 1] + xs[k + 1..] && xs[..k + 1] == xs[..k] + [xs[k]];
    SumConcat(xs[..k + 1], xs[k + 1..], weight);
    SumPush(xs[..k], xs[k], weight);
    SumNonNegative(xs[k + 1..], weight);
  }

  /** Remaining quantities only fall, and never below zero. */
  lemma {:induction false} SweepFalls(plan: Plan, bars: seq<Bar>, n: nat, k: nat)
    requires Runnable(plan.job, bars) && n <= |bars| && k < |plan.job.orders| && Sweep(plan, bars).Ok?
    ensures Sweep(plan, bars[..n]).Ok?
    ensures var id := plan.job.orders[k].id;
            0.0 <= Left(Sweep(plan, bars).value, id) <= Left(Sweep(plan, bars[..n]).value, id)
    decreases |bars|
  {
    SweepPrefix(plan, bars, n);
    if |bars| == 0 {
      assert bars[..n] == bars;
      StartQuantities(plan.job.orders, plan.job.orders[k]);
    } else {
      var m := |bars| - 1;
      assert bars[..m + 1] == bars;
      SweepPrefix(plan, bars, m);
      WaterfallClosedForm(plan, bars, m, k);
      hide Sweep, Capacity;
      if n == |bars| {
        assert bars[..n] == bars;
        SweepFalls(plan, bars[..m], m, k);
        assert bars[..m][..m] == bars[..m];
      } else {
        SweepFalls(plan, bars[..m], n, k);
        assert bars[..m][..n] == bars[..n];
      }
    }
  }

  /** An order still open at the end found every bar it could trade on fully drained. */
  lemma OpenOrdersSawDrainedBars(plan: Plan, bars: seq<Bar>, i: nat, k: nat)
    requires Runnable(plan.job, bars) && i < |bars| && k < |plan.job.orders| && Sweep(plan, bars).Ok?
    requires Left(Sweep(plan, bars).value, plan.job.orders[k].id) > 0.0
    requires Sweep(plan, bars[..i]).Ok?
    requires Eligible(plan.job, plan.job.orders[k], bars[i], Sweep(plan, bars[..i]).value)
    ensures Sweep(plan, bars[..i + 1]).Ok?
    ensures BarTotal(Sweep(plan, bars[..i + 1]).value.children, bars[i].id) == Capacity(plan.job, bars[i])
  {
    SweepFalls(plan, bars, i + 1, k);
    WaterfallClosedForm(plan, bars, i, k);
    hide Sweep, Capacity, Fillable;
    var before := Sweep(plan, bars[..i]).value;
    SumAtLeast(plan.job.orders, DemandOf(plan.job, bars[i], before), k);
  }
}

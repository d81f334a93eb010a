/** Laws of the scheduled children: their numbering, their place in time, their lots, their time in force. */
module ChildLaws {
  import opened Sums
  import opened Identifiers
  import opened BacktestQuanta
  import opened BacktestContracts
  import opened Allocator
  import opened ScheduleLaws

  /** The children of one order, in the order they were generated. */
  function ChildrenOf(children: seq<Child>, id: Id): (r: seq<Child>)
    ensures forall c | c in r :: c in children && c.orderId == id
    ensures forall c | c in children && c.orderId == id :: c in r
  {
    if children == [] then []
    else
      var n := |children| - 1;
      assert children == children[..n] + [children[n]];
      ChildrenOf(children[..n], id) + (if children[n].orderId == id then [children[n]] else [])
  }

  lemma ChildrenPush(children: seq<Child>, child: Child, id: Id)
    ensures ChildrenOf(children + [child], id)
         == ChildrenOf(children, id) + (if child.orderId == id then [child] else [])
  {
    assert (children + [child])[..|children|] == children;
  }

  /** The child a bar gives an order: one of its waterfall share, or none. */
  function ShareChild(plan: Plan, bar: Bar, book: Book, orders: seq<Order>, capacity: real, k: nat): seq<Child>
    requires k < |orders|
  {
    var share := Share(plan.job, bar, book, orders, capacity, k);
    if share <= 0.0 then []
    else [MakeChild(plan, orders[k], bar, share, Count(book, orders[k].id) + 1)]
  }

  lemma VisitAdds(plan: Plan, order: Order, bar: Bar, book: Book, available: real, id: Id)
    requires available >= 0.0 && Visit(plan, order, bar, book, available).Visited?
    ensures ChildrenOf(Visit(plan, order, bar, book, available).book.children, id)
         == ChildrenOf(book.children, id) + (if id == order.id then Taken(plan, order, bar, book, available) else [])
  {
    VisitEffect(plan, order, bar, book, available);
    hide Visit, Demand;
    var taken := Taken(plan, order, bar, book, available);
    assert ChildrenOf(book.children, id) + [] == ChildrenOf(book.children, id);
    if taken == [] {
      assert book.children + taken == book.children;
    } else {
      assert taken == [taken[0]];
      ChildrenPush(book.children, taken[0], id);
    }
  }

  lemma {:induction false} WalkLeavesOthers(plan: Plan, bar: Bar, orders: seq<Order>, book: Book, capacity: real, id: Id)
    requires capacity >= 0.0 && Walk(plan, bar, orders, book, capacity).Visited? && id !in Ids(orders)
    ensures ChildrenOf(Walk(plan, bar, orders, book, capacity).book.children, id) == ChildrenOf(book.children, id)
  {
    if orders != [] {
      var n := |orders| - 1;
      assert orders == orders[..n] + [orders[n]];
      WalkLeavesOthers(plan, bar, orders[..n], book, capacity, id);
      var before := Walk(plan, bar, orders[..n], book, capacity);
      WalkMoves(plan, bar, orders[..n], book, capacity, id);
      VisitAdds(plan, orders[n], bar, before.book, before.available, id);
      hide Visit, ChildrenOf;
      assert ChildrenOf(book.children, id) + [] == ChildrenOf(book.children, id);
    }
  }

  /** What a bar does to one order: its share becomes a child, and an IOC attempt is marked. */
  ghost predicate Adds(job: Job, order: Order, bar: Bar, book: Book, after: Book, added: seq<Child>) {
    && ChildrenOf(after.children, order.id) == ChildrenOf(book.children, order.id) + added
    && Count(after, order.id) == Count(book, order.id) + |added|
    && (order.id in after.attempts <==>
          order.id in book.attempts
          || (order.timeInForce.Ioc? && Open(book, order) && Tries(job, order, bar)))
  }

  lemma WalkAddsLast(plan: Plan, bar: Bar, orders: seq<Order>, book: Book, capacity: real)
    requires capacity >= 0.0 && DistinctOrders(orders) && orders != []
    requires Walk(plan, bar, orders, book, capacity).Visited?
    ensures var n := |orders| - 1;
            Adds(plan.job, orders[n], bar, book, Walk(plan, bar, orders, book, capacity).book,
                 ShareChild(plan, bar, book, orders, capacity, n))
  {
    var n := |orders| - 1;
    var order := orders[n];
    DistinctPrefix(orders);
    WalkEffect(plan, bar, orders[..n], book, capacity);
    var before := Walk(plan, bar, orders[..n], book, capacity);
    VisitEffect(plan, order, bar, before.book, before.available);
    VisitAdds(plan, order, bar, before.book, before.available, order.id);
    WalkLeavesOthers(plan, bar, orders[..n], book, capacity, order.id);
    DemandStable(plan.job, bar, book, before.book, order, Ids(orders[..n]));
    hide Visit, ChildrenOf, Tries, MakeChild, Demand;
  }

  lemma VisitLeaves(plan: Plan, order: Order, bar: Bar, book: Book, available: real, other: Order, start: Book, added: seq<Child>)
    requires available >= 0.0 && Visit(plan, order, bar, book, available).Visited? && other.id != order.id
    requires Adds(plan.job, other, bar, start, book, added)
    ensures Adds(plan.job, other, bar, start, Visit(plan, order, bar, book, available).book, added)
  {
    VisitEffect(plan, order, bar, book, available);
    VisitAdds(plan, order, bar, book, available, other.id);
    hide Visit, ChildrenOf, Tries, Demand;
    var kept := ChildrenOf(book.children, other.id);
    assert kept + [] == kept;
  }

  lemma SharePrefix(plan: Plan, bar: Bar, book: Book, orders: seq<Order>, capacity: real, n: nat, k: nat)
    requires k < n <= |orders|
    ensures ShareChild(plan, bar, book, orders[..n], capacity, k) == ShareChild(plan, bar, book, orders, capacity, k)
  {
    hide Demand, MakeChild, Remainder;
    assert orders[..n][..k] == orders[..k] && orders[..n][k] == orders[k];
  }

  /** A bar adds to each order's children exactly its share, and marks exactly the IOC orders it tried. */
  lemma {:induction false} WalkAdds(plan: Plan, bar: Bar, orders: seq<Order>, book: Book, capacity: real, k: nat)
    requires capacity >= 0.0 && DistinctOrders(orders) && k < |orders|
    requires Walk(plan, bar, orders, book, capacity).Visited?
    ensures Adds(plan.job, orders[k], bar, book, Walk(plan, bar, orders, book, capacity).book,
                 ShareChild(plan, bar, book, orders, capacity, k))
  {
    var n := |orders| - 1;
    if k == n {
      WalkAddsLast(plan, bar, orders, book, capacity);
    } else {
      DistinctPrefix(orders);
      SharePrefix(plan, bar, book, orders, capacity, n, k);
      WalkMoves(plan, bar, orders[..n], book, capacity, 0);
      var before := Walk(plan, bar, orders[..n], book, capacity);
      hide Visit, Adds, ShareChild;
      WalkAdds(plan, bar, orders[..n], book, capacity, k);
      VisitLeaves(plan, orders[n], bar, before.book, before.available, orders[k], book,
                  ShareChild(plan, bar, book, orders, capacity, k));
    }
  }

  /** The same, for bar `i` of a run. */
  lemma BarAdds(plan: Plan, bars: seq<Bar>, i: nat, k: nat)
    requires DistinctOrders(plan.job.orders) && i < |bars| && k < |plan.job.orders|
    requires Sweep(plan, bars[..i + 1]).Ok? && Sweep(plan, bars[..i]).Ok?
    ensures var before, after := Sweep(plan, bars[..i]).value, Sweep(plan, bars[..i + 1]).value;
            var order := plan.job.orders[k];
            var added := ShareChild(plan, bars[i], before, plan.job.orders, Capacity(plan.job, bars[i]), k);
            && Adds(plan.job, order, bars[i], before, after, added)
            && Left(after, order.id)
                 == Left(before, order.id)
                    - Share(plan.job, bars[i], before, plan.job.orders, Capacity(plan.job, bars[i]), k)
  {
    SweepStep(plan, bars, i);
    CapacityNonNegative(plan.job, bars[i]);
    WalkAdds(plan, bars[i], plan.job.orders, Sweep(plan, bars[..i]).value, Capacity(plan.job, bars[i]), k);
    WalkShares(plan, bars[i], plan.job.orders, Sweep(plan, bars[..i]).value, Capacity(plan.job, bars[i]), k);
  }

  // ---------- numbering ----------

  /** The k-th child of an order carries index k. */
  ghost predicate Numbered(book: Book, id: Id) {
    var own := ChildrenOf(book.children, id);
    && |own| == Count(book, id)
    && forall i | 0 <= i < |own| :: own[i].childId == ChildId(id, i + 1)
  }

  lemma NumbersStep(plan: Plan, bar: Bar, before: Book, after: Book, order: Order, added: seq<Child>)
    requires Numbered(before, order.id) && Adds(plan.job, order, bar, before, after, added) && |added| <= 1
    requires forall c | c in added :: c.childId == ChildId(order.id, Count(before, order.id) + 1)
    ensures Numbered(after, order.id)
  {
    hide ChildId, ChildrenOf, Tries, Open;
  }

  lemma NumbersStart(plan: Plan, id: Id)
    ensures Sweep(plan, []).Ok? && Numbered(Sweep(plan, []).value, id)
  {
  }

  lemma {:induction false} SweepNumbers(plan: Plan, bars: seq<Bar>, k: nat)
    requires DistinctOrders(plan.job.orders) && k < |plan.job.orders| && Sweep(plan, bars).Ok?
    ensures Numbered(Sweep(plan, bars).value, plan.job.orders[k].id)
  {
    hide Sweep, Numbered, Adds, ChildId, Share, Capacity, DistinctOrders;
    if bars == [] {
      NumbersStart(plan, plan.job.orders[k].id);
    } else {
      var n := |bars| - 1;
      assert bars[..n + 1] == bars;
      SweepPrefix(plan, bars, n);
      SweepNumbers(plan, bars[..n], k);
      BarAdds(plan, bars, n, k);
      var before := Sweep(plan, bars[..n]).value;
      var added := ShareChild(plan, bars[n], before, plan.job.orders, Capacity(plan.job, bars[n]), k);
      NumbersStep(plan, bars[n], before, Sweep(plan, bars).value, plan.job.orders[k], added);
    }
  }

  /** Children exist only for orders of the job. */
  lemma {:induction false} SweepOwners(plan: Plan, bars: seq<Bar>, child: Child)
    requires Sweep(plan, bars).Ok? && child in Sweep(plan, bars).value.children
    ensures exists k :: 0 <= k < |plan.job.orders| && plan.job.orders[k].id == child.orderId
  {
    if bars != [] {
      var n := |bars| - 1;
      var before := Sweep(plan, bars[..n]).value;
      if child in before.children {
        SweepOwners(plan, bars[..n], child);
      } else {
        CapacityNonNegative(plan.job, bars[n]);
        if child.orderId !in Ids(plan.job.orders) {
          WalkLeavesOthers(plan, bars[n], plan.job.orders, before, Capacity(plan.job, bars[n]), child.orderId);
        }
      }
    }
  }

  // ---------- lots ----------

  function Lot(job: Job, instrumentId: Id): Positive {
    match FindInstrument(job.instruments, instrumentId)
    case None => 1.0
    case Some(instrument) => instrument.quantityQuantum
  }

  ghost predicate InLots(job: Job, book: Book) {
    forall k | 0 <= k < |job.orders| ::
      IsQuantized(Left(book, job.orders[k].id), Lot(job, job.orders[k].instrumentId))
  }

  lemma ZeroQuantized(lot: real)
    requires lot > 0.0
    ensures IsQuantized(0.0, lot)
  {
    assert Quanta(0, lot) == 0.0;
    QuantaAreQuantized(0, lot);
  }

  lemma DemandInLots(job: Job, bar: Bar, book: Book, k: nat)
    requires InLots(job, book) && k < |job.orders|
    ensures IsQuantized(Demand(job, bar, book, job.orders[k]), Lot(job, bar.instrumentId))
  {
    hide IsQuantized;
    ZeroQuantized(Lot(job, bar.instrumentId));
  }

  lemma {:induction false} DemandsInLots(job: Job, bar: Bar, book: Book, k: nat)
    requires InLots(job, book) && k <= |job.orders|
    ensures IsQuantized(-Sum(job.orders[..k], DemandOf(job, bar, book)), Lot(job, bar.instrumentId))
  {
    hide IsQuantized, Lot, Demand;
    if k == 0 {
      ZeroQuantized(Lot(job, bar.instrumentId));
    } else {
      DemandsInLots(job, bar, book, k - 1);
      DemandInLots(job, bar, book, k - 1);
      assert job.orders[..k] == job.orders[..k - 1] + [job.orders[k - 1]];
      SumPush(job.orders[..k - 1], job.orders[k - 1], DemandOf(job, bar, book));
      QuantizedDifference(-Sum(job.orders[..k - 1], DemandOf(job, bar, book)),
                          Demand(job, bar, book, job.orders[k - 1]), Lot(job, bar.instrumentId));
    }
  }

  lemma CapacityInLots(job: Job, bar: Bar)
    ensures IsQuantized(Capacity(job, bar), Lot(job, bar.instrumentId))
  {
    hide IsQuantized, FloorQuantum;
    match FindInstrument(job.instruments, bar.instrumentId)
    case None => ZeroQuantized(1.0);
    case Some(instrument) =>
      FloorIsQuantized(Offered(job, bar), instrument.quantityQuantum);
  }

  lemma QuantizedSum(a: real, b: real, lot: real)
    requires IsQuantized(a, lot) && IsQuantized(-b, lot)
    ensures IsQuantized(a - b, lot)
  {
    ZeroQuantized(lot);
    QuantizedDifference(0.0, -b, lot);
    QuantizedDifference(a, b, lot);
  }

  /** A share is a whole number of lots of the bar's instrument. */
  lemma ShareInLots(job: Job, bar: Bar, book: Book, k: nat)
    requires InLots(job, book) && k < |job.orders|
    ensures IsQuantized(Share(job, bar, book, job.orders, Capacity(job, bar), k), Lot(job, bar.instrumentId))
  {
    hide IsQuantized, Lot, Capacity, Demand;
    DemandInLots(job, bar, book, k);
    DemandsInLots(job, bar, book, k);
    CapacityInLots(job, bar);
    ZeroQuantized(Lot(job, bar.instrumentId));
    QuantizedSum(Capacity(job, bar), Sum(job.orders[..k], DemandOf(job, bar, book)), Lot(job, bar.instrumentId));
  }

  /** Shares go only to orders of the bar's instrument. */
  lemma ShareOnOwnBar(job: Job, bar: Bar, book: Book, capacity: real, k: nat)
    requires k < |job.orders| && Share(job, bar, book, job.orders, capacity, k) > 0.0
    ensures Eligible(job, job.orders[k], bar, book)
    ensures job.orders[k].instrumentId == bar.instrumentId
  {
  }

  lemma {:induction false} SweepInLots(plan: Plan, bars: seq<Bar>)
    requires DistinctOrders(plan.job.orders) && Sweep(plan, bars).Ok?
    requires forall k | 0 <= k < |plan.job.orders| ::
               IsQuantized(plan.job.orders[k].quantity, Lot(plan.job, plan.job.orders[k].instrumentId))
    ensures InLots(plan.job, Sweep(plan, bars).value)
  {
    hide IsQuantized, Lot;
    var job := plan.job;
    if bars == [] {
      forall k | 0 <= k < |job.orders|
        ensures Left(StartBook(job.orders), job.orders[k].id) == job.orders[k].quantity
      {
        StartQuantities(job.orders, job.orders[k]);
      }
    } else {
      var n := |bars| - 1;
      assert bars[..n + 1] == bars;
      SweepPrefix(plan, bars, n);
      SweepInLots(plan, bars[..n]);
      var before := Sweep(plan, bars[..n]).value;
      forall k | 0 <= k < |job.orders|
        ensures IsQuantized(Left(Sweep(plan, bars).value, job.orders[k].id), Lot(job, job.orders[k].instrumentId))
      {
        ShareKeepsLots(plan, bars, n, k);
      }
    }
  }

  lemma ShareKeepsLots(plan: Plan, bars: seq<Bar>, i: nat, k: nat)
    requires DistinctOrders(plan.job.orders) && i < |bars| && k < |plan.job.orders|
    requires Sweep(plan, bars[..i + 1]).Ok? && Sweep(plan, bars[..i]).Ok? && InLots(plan.job, Sweep(plan, bars[..i]).value)
    ensures IsQuantized(Left(Sweep(plan, bars[..i + 1]).value, plan.job.orders[k].id),
                        Lot(plan.job, plan.job.orders[k].instrumentId))
  {
    hide IsQuantized, Lot, Capacity, Sweep, Adds, Demand, Eligible;
    var job := plan.job;
    var before := Sweep(plan, bars[..i]).value;
    BarAdds(plan, bars, i, k);
    var share := Share(job, bars[i], before, job.orders, Capacity(job, bars[i]), k);
    if share > 0.0 {
      ShareOnOwnBar(job, bars[i], before, Capacity(job, bars[i]), k);
      ShareInLots(job, bars[i], before, k);
      QuantizedDifference(Left(before, job.orders[k].id), share, Lot(job, bars[i].instrumentId));
    }
  }
}

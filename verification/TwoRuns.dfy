/** Properties that compare two runs: priority isolation, causality, and the two engines with each other. */
module TwoRuns {
  import opened Sorting
  import opened Identifiers
  import opened BacktestQuanta
  import opened BacktestContracts
  import opened BacktestMath
  import opened Allocator
  import opened ScheduleLaws
  import opened ScheduleTheorems

  /** Two plans that decide every single visit alike. */
  ghost predicate SameRules(p: Plan, q: Plan) {
    && p.job.instruments == q.job.instruments && p.job.sessions == q.job.sessions && p.job.cost == q.job.cost
    && p.limit == q.limit && p.venue == q.venue
  }

  lemma SameFacts(p: Plan, q: Plan, order: Order, bar: Bar)
    requires SameRules(p, q)
    ensures Tries(p.job, order, bar) == Tries(q.job, order, bar)
    ensures Fillable(p.job, order, bar) == Fillable(q.job, order, bar)
    ensures forall quantity, index :: MakeChild(p, order, bar, quantity, index) == MakeChild(q, order, bar, quantity, index)
  {
    hide FillPrice, SessionForBar, FirstSessionDate, FindInstrument, NativeLimit, ChildId;
  }

  lemma SameCapacity(p: Plan, q: Plan, bar: Bar)
    requires SameRules(p, q)
    ensures Capacity(p.job, bar) == Capacity(q.job, bar)
  {
    hide FloorQuantum;
    assert Offered(p.job, bar) == Offered(q.job, bar);
  }

  lemma SameVisit(p: Plan, q: Plan, order: Order, bar: Bar, book: Book, available: real)
    requires SameRules(p, q)
    ensures Visit(p, order, bar, book, available) == Visit(q, order, bar, book, available)
  {
    SameFacts(p, q, order, bar);
    hide Tries, Fillable, MakeChild;
  }

  lemma {:induction false} SameWalk(p: Plan, q: Plan, bar: Bar, orders: seq<Order>, book: Book, available: real)
    requires SameRules(p, q)
    ensures Walk(p, bar, orders, book, available) == Walk(q, bar, orders, book, available)
  {
    hide Visit, SameRules;
    if orders != [] {
      var n := |orders| - 1;
      SameWalk(p, q, bar, orders[..n], book, available);
      var before := Walk(p, bar, orders[..n], book, available);
      if before.Visited? {
        SameVisit(p, q, orders[n], bar, before.book, before.available);
      }
    }
  }

  lemma {:induction false} SameSweep(p: Plan, q: Plan, bars: seq<Bar>)
    requires SameRules(p, q) && p.job.orders == q.job.orders
    ensures Sweep(p, bars) == Sweep(q, bars)
  {
    hide Walk, Capacity, StartBook;
    if bars != [] {
      var n := |bars| - 1;
      SameSweep(p, q, bars[..n]);
      if Sweep(p, bars[..n]).Ok? {
        SameWalk(p, q, bars[n], p.job.orders, Sweep(p, bars[..n]).value, Capacity(p.job, bars[n]));
        SameCapacity(p, q, bars[n]);
      }
    }
  }

  // ---------- causality ----------

  function BarsBefore(bars: seq<Bar>, t: Time): seq<Bar> {
    Keep(bars, set b | b in bars && b.opensAt < t)
  }

  function ChildrenBefore(children: seq<Child>, t: Time): seq<Child> {
    Keep(children, set c | c in children && c.opensAt < t)
  }

  /** Sorted bars split at `t` into the sorted early bars and the rest. */
  lemma SortedSplit(job: Job, t: Time) returns (late: seq<Bar>)
    ensures SortedBars(job) == Sort(BarsBefore(job.bars, t), BarLe) + late
    ensures forall b | b in late :: b.opensAt >= t
    ensures forall b | b in Sort(BarsBefore(job.bars, t), BarLe) :: b.opensAt < t
  {
    var kept := set b | b in job.bars && b.opensAt < t;
    BarOrder();
    KeepSort(job.bars, kept, BarLe);
    SortedBarsSame(job);
    hide SortedBy, Sort, Keep, TotalPreorder, BarLe;
    var bars := SortedBars(job);
    var n := CutAt(bars, t);
    late := bars[n..];
    assert bars == bars[..n] + late;
    assert forall b | b in bars[..n] :: b in bars;
    assert forall b | b in late :: b in bars;
    KeepPrefix(bars[..n], late, kept);
  }

  lemma {:induction false} CutAt(bars: seq<Bar>, t: Time) returns (n: nat)
    requires SortedBy(bars, BarLe)
    ensures n <= |bars|
    ensures forall b | b in bars[..n] :: b.opensAt < t
    ensures forall b | b in bars[n..] :: b.opensAt >= t
  {
    n := 0;
    while n < |bars| && bars[n].opensAt < t
      invariant n <= |bars|
      invariant forall i | 0 <= i < n :: bars[i].opensAt < t
    {
      n := n + 1;
    }
    if n < |bars| {
      forall i | n <= i < |bars| ensures bars[i].opensAt >= t {
        if i > n {
          assert BarLe(bars[n], bars[i]);
        }
      }
    }
  }

  lemma VisitExtends(plan: Plan, order: Order, bar: Bar, book: Book, available: real)
    requires Visit(plan, order, bar, book, available).Visited?
    ensures var after := Visit(plan, order, bar, book, available).book;
            && book.children <= after.children
            && forall c | c in after.children[|book.children|..] :: c.opensAt == bar.opensAt
  {
    hide Tries, Fillable;
  }

  lemma {:induction false} WalkExtends(plan: Plan, bar: Bar, orders: seq<Order>, book: Book, available: real)
    requires Walk(plan, bar, orders, book, available).Visited?
    ensures var after := Walk(plan, bar, orders, book, available).book;
            && book.children <= after.children
            && forall c | c in after.children[|book.children|..] :: c.opensAt == bar.opensAt
  {
    hide Visit;
    if orders != [] {
      var n := |orders| - 1;
      WalkExtends(plan, bar, orders[..n], book, available);
      var before := Walk(plan, bar, orders[..n], book, available);
      VisitExtends(plan, orders[n], bar, before.book, before.available);
      var after := Walk(plan, bar, orders, book, available).book;
      var m := |book.children|;
      assert after.children[m..] == before.book.children[m..] + after.children[|before.book.children|..];
    }
  }

  /** Later bars only append children that open no earlier than they do. */
  lemma {:induction false} SweepExtends(plan: Plan, early: seq<Bar>, late: seq<Bar>, t: Time)
    requires Sweep(plan, early + late).Ok? && forall b | b in late :: b.opensAt >= t
    ensures Sweep(plan, early).Ok?
    ensures var first, all := Sweep(plan, early).value.children, Sweep(plan, early + late).value.children;
            first <= all && forall c | c in all[|first|..] :: c.opensAt >= t
  {
    hide Walk, Capacity;
    if late == [] {
      assert early + late == early;
    } else {
      var n := |late| - 1;
      assert (early + late)[..|early| + n] == early + late[..n];
      assert (early + late)[|early| + n] == late[n];
      SweepExtends(plan, early, late[..n], t);
      var before := Sweep(plan, early + late[..n]).value;
      WalkExtends(plan, late[n], plan.job.orders, before, Capacity(plan.job, late[n]));
      var first, all := Sweep(plan, early).value.children, Sweep(plan, early + late).value.children;
      assert all[|first|..] == before.children[|first|..] + all[|before.children|..];
    }
  }

  lemma {:induction false} SweepEarly(plan: Plan, bars: seq<Bar>, t: Time)
    requires Sweep(plan, bars).Ok? && forall b | b in bars :: b.opensAt < t
    ensures forall c | c in Sweep(plan, bars).value.children :: c.opensAt < t
  {
    hide Walk, Capacity;
    if bars != [] {
      var n := |bars| - 1;
      SweepEarly(plan, bars[..n], t);
      var before := Sweep(plan, bars[..n]).value;
      WalkExtends(plan, bars[n], plan.job.orders, before, Capacity(plan.job, bars[n]));
      var all := Sweep(plan, bars).value.children;
      assert all == before.children + all[|before.children|..];
    }
  }

  lemma ChildrenBeforeSorted(first: seq<Child>, rest: seq<Child>, t: Time)
    requires (forall c | c in first :: c.opensAt < t) && (forall c | c in rest :: c.opensAt >= t)
    ensures ChildrenBefore(Sort(first + rest, ChildLe), t) == Sort(first, ChildLe)
  {
    hide TotalPreorder, ChildLe, Keep;
    var all := first + rest;
    var kept := set c | c in all && c.opensAt < t;
    SameElements(Sort(all, ChildLe), all);
    assert kept == set c | c in Sort(all, ChildLe) && c.opensAt < t;
    ChildOrder();
    KeepSort(all, kept, ChildLe);
    KeepPrefix(first, rest, kept);
  }

  /** What is scheduled before `t` is the schedule of the bars before `t`. */
  lemma EarlySchedule(plan: Plan, t: Time)
    requires Schedule(plan).Ok?
    ensures Sweep(plan, Sort(BarsBefore(plan.job.bars, t), BarLe)).Ok?
    ensures ChildrenBefore(Schedule(plan).value, t)
         == Sort(Sweep(plan, Sort(BarsBefore(plan.job.bars, t), BarLe)).value.children, ChildLe)
  {
    hide Sweep, BarsBefore, SortedBars, ChildrenBefore, Sort;
    var early := Sort(BarsBefore(plan.job.bars, t), BarLe);
    var late := SortedSplit(plan.job, t);
    SweepExtends(plan, early, late, t);
    SweepEarly(plan, early, t);
    var first, all := Sweep(plan, early).value.children, FinalBook(plan).children;
    assert all == first + all[|first|..];
    ChildrenBeforeSorted(first, all[|first|..], t);
  }

  /** Causality: bars that open at or after `t` cannot change what is scheduled before `t`. */
  lemma ScheduleIsCausal(p: Plan, q: Plan, t: Time)
    requires SameRules(p, q) && p.job.orders == q.job.orders
    requires BarsBefore(p.job.bars, t) == BarsBefore(q.job.bars, t)
    requires Schedule(p).Ok? && Schedule(q).Ok?
    ensures ChildrenBefore(Schedule(p).value, t) == ChildrenBefore(Schedule(q).value, t)
  {
    EarlySchedule(p, t);
    EarlySchedule(q, t);
    SameSweep(p, q, Sort(BarsBefore(p.job.bars, t), BarLe));
  }

  // ---------- priority isolation ----------

  function OwnedBy(children: seq<Child>, ids: set<Id>): seq<Child> {
    Keep(children, set c | c in children && c.orderId in ids)
  }

  lemma OwnedPush(children: seq<Child>, child: Child, ids: set<Id>)
    ensures OwnedBy(children + [child], ids)
         == OwnedBy(children, ids) + (if child.orderId in ids then [child] else [])
  {
    var all := children + [child];
    var kept := set c | c in all && c.orderId in ids;
    KeepConcat(children, [child], kept);
    KeepAgree(children, kept, set c | c in children && c.orderId in ids);
    KeepCons(child, [], kept);
    assert [child] + [] == [child];
  }

  lemma OwnedCount(children: seq<Child>, ids: set<Id>)
    ensures |OwnedBy(children, ids)| <= |children|
  {
    KeepShrinks(children, set c | c in children && c.orderId in ids);
  }

  lemma {:induction false} KeepShrinks<T>(xs: seq<T>, kept: set<T>)
    ensures |Keep(xs, kept)| <= |xs|
  {
    if xs != [] {
      KeepShrinks(xs[1..], kept);
    }
  }

  /** The smaller run's book is the larger run's book, seen by the orders they share. */
  ghost predicate Agrees(small: Book, big: Book, ids: set<Id>) {
    && (forall id | id in ids ::
          Left(small, id) == Left(big, id) && Count(small, id) == Count(big, id)
          && (id in small.attempts <==> id in big.attempts))
    && small.children == OwnedBy(big.children, ids)
  }

  lemma VisitAgrees(plan: Plan, order: Order, bar: Bar, small: Book, big: Book, available: real, ids: set<Id>)
    requires Agrees(small, big, ids) && order.id in ids && Visit(plan, order, bar, big, available).Visited?
    ensures var s, b := Visit(plan, order, bar, small, available), Visit(plan, order, bar, big, available);
            s.Visited? && s.available == b.available && Agrees(s.book, b.book, ids)
  {
    hide Tries, Fillable, MakeChild, OwnedBy;
    OwnedCount(big.children, ids);
    var quantity := Min(Left(big, order.id), available);
    OwnedPush(big.children, MakeChild(plan, order, bar, quantity, Count(big, order.id) + 1), ids);
    assert MakeChild(plan, order, bar, quantity, Count(big, order.id) + 1).orderId == order.id by {
      MakeChildOwner(plan, order, bar, quantity, Count(big, order.id) + 1);
    }
  }

  lemma MakeChildOwner(plan: Plan, order: Order, bar: Bar, quantity: real, index: nat)
    ensures MakeChild(plan, order, bar, quantity, index).orderId == order.id
  {
  }

  lemma VisitInvisible(plan: Plan, order: Order, bar: Bar, small: Book, big: Book, available: real, ids: set<Id>)
    requires Agrees(small, big, ids) && order.id !in ids && Visit(plan, order, bar, big, available).Visited?
    ensures Agrees(small, Visit(plan, order, bar, big, available).book, ids)
  {
    hide Tries, Fillable, MakeChild, OwnedBy;
    var quantity := Min(Left(big, order.id), available);
    MakeChildOwner(plan, order, bar, quantity, Count(big, order.id) + 1);
    OwnedPush(big.children, MakeChild(plan, order, bar, quantity, Count(big, order.id) + 1), ids);
    assert OwnedBy(big.children, ids) + [] == OwnedBy(big.children, ids);
  }

  lemma {:induction false} WalkAgrees(plan: Plan, bar: Bar, orders: seq<Order>, small: Book, big: Book, available: real, ids: set<Id>)
    requires Agrees(small, big, ids) && (forall o | o in orders :: o.id in ids)
    requires Walk(plan, bar, orders, big, available).Visited?
    ensures var s, b := Walk(plan, bar, orders, small, available), Walk(plan, bar, orders, big, available);
            s.Visited? && s.available == b.available && Agrees(s.book, b.book, ids)
  {
    hide Visit, Agrees;
    if orders != [] {
      var n := |orders| - 1;
      WalkAgrees(plan, bar, orders[..n], small, big, available, ids);
      var s, b := Walk(plan, bar, orders[..n], small, available), Walk(plan, bar, orders[..n], big, available);
      VisitAgrees(plan, orders[n], bar, s.book, b.book, s.available, ids);
    }
  }

  lemma {:induction false} WalkInvisible(plan: Plan, bar: Bar, orders: seq<Order>, small: Book, big: Book, available: real, ids: set<Id>)
    requires Agrees(small, big, ids) && (forall o | o in orders :: o.id !in ids)
    requires Walk(plan, bar, orders, big, available).Visited?
    ensures Agrees(small, Walk(plan, bar, orders, big, available).book, ids)
  {
    hide Visit, Agrees;
    if orders != [] {
      var n := |orders| - 1;
      WalkInvisible(plan, bar, orders[..n], small, big, available, ids);
      var b := Walk(plan, bar, orders[..n], big, available);
      VisitInvisible(plan, orders[n], bar, small, b.book, b.available, ids);
    }
  }

  /** The plan with lower-priority orders appended. */
  function Appended(plan: Plan, later: seq<Order>): Plan {
    plan.(job := plan.job.(orders := plan.job.orders + later))
  }

  lemma StartAgrees(orders: seq<Order>, later: seq<Order>)
    requires DistinctOrders(orders + later)
    ensures Agrees(StartBook(orders), StartBook(orders + later), Ids(orders))
  {
    hide StartBook;
    forall id | id in Ids(orders) ensures Left(StartBook(orders), id) == Left(StartBook(orders + later), id) {
      var o :| o in orders && o.id == id;
      assert forall i | 0 <= i < |orders| :: (orders + later)[i] == orders[i];
      StartQuantities(orders, o);
      StartQuantities(orders + later, o);
    }
  }

  lemma LaterIdsDiffer(orders: seq<Order>, later: seq<Order>)
    requires DistinctOrders(orders + later)
    ensures forall o | o in later :: o.id !in Ids(orders)
  {
    var all := orders + later;
    assert forall i | 0 <= i < |orders| :: all[i] == orders[i];
    assert forall j | 0 <= j < |later| :: all[|orders| + j] == later[j];
  }

  lemma BarAgrees(plan: Plan, later: seq<Order>, bar: Bar, small: Book, big: Book)
    requires DistinctOrders(plan.job.orders + later)
    requires Agrees(small, big, Ids(plan.job.orders))
    requires var large := Appended(plan, later);
             Walk(large, bar, large.job.orders, big, Capacity(large.job, bar)).Visited?
    ensures var large := Appended(plan, later);
            var s := Walk(plan, bar, plan.job.orders, small, Capacity(plan.job, bar));
            var b := Walk(large, bar, large.job.orders, big, Capacity(large.job, bar));
            s.Visited? && Agrees(s.book, b.book, Ids(plan.job.orders))
  {
    LaterIdsDiffer(plan.job.orders, later);
    hide Agrees, Capacity, Walk, DistinctOrders;
    var large, orders := Appended(plan, later), plan.job.orders;
    var capacity := Capacity(plan.job, bar);
    SameCapacity(plan, large, bar);
    WalkConcat(large, bar, orders, later, big, capacity);
    var b := Walk(large, bar, orders, big, capacity);
    WalkAgrees(large, bar, orders, small, big, capacity, Ids(orders));
    WalkInvisible(large, bar, later, Walk(large, bar, orders, small, capacity).book, b.book, b.available, Ids(orders));
    SameWalk(plan, large, bar, orders, small, capacity);
  }

  lemma {:induction false} SweepAgrees(plan: Plan, later: seq<Order>, bars: seq<Bar>)
    requires DistinctOrders(plan.job.orders + later) && Sweep(Appended(plan, later), bars).Ok?
    ensures Sweep(plan, bars).Ok?
    ensures Agrees(Sweep(plan, bars).value, Sweep(Appended(plan, later), bars).value, Ids(plan.job.orders))
  {
    hide Agrees, Capacity, Walk, DistinctOrders, StartBook;
    if bars == [] {
      StartAgrees(plan.job.orders, later);
    } else {
      var n := |bars| - 1;
      SweepAgrees(plan, later, bars[..n]);
      BarAgrees(plan, later, bars[n], Sweep(plan, bars[..n]).value, Sweep(Appended(plan, later), bars[..n]).value);
    }
  }

  /** Non-interference: appending orders leaves the children of the earlier orders exactly as they were. */
  lemma LowerPriorityInvisible(plan: Plan, later: seq<Order>)
    requires DistinctOrders(plan.job.orders + later) && Schedule(Appended(plan, later)).Ok?
    ensures Schedule(plan).Ok?
    ensures Schedule(plan).value == OwnedBy(Schedule(Appended(plan, later)).value, Ids(plan.job.orders))
  {
    hide Sweep, DistinctOrders, TotalPreorder, ChildLe, Keep, Ids;
    var large, ids := Appended(plan, later), Ids(plan.job.orders);
    assert SortedBars(plan.job) == SortedBars(large.job);
    SweepAgrees(plan, later, SortedBars(plan.job));
    var all := FinalBook(large).children;
    var kept := set c | c in all && c.orderId in ids;
    SameElements(Sort(all, ChildLe), all);
    assert kept == set c | c in Sort(all, ChildLe) && c.orderId in ids;
    ChildOrder();
    KeepSort(all, kept, ChildLe);
  }
}

/** The two separately written schedulers give the same schedule. */
module EngineEquivalence {
  import opened Wrappers
  import opened Sorting
  import opened Identifiers
  import opened BacktestContracts
  import opened Allocator
  import opened LeanEngine
  import opened NautilusEngine

  /** A child without the engine-native limit: order, id, side, quantity, bar, time. */
  function Core(child: Child): Child {
    child.(nativeLimit := None)
  }

  ghost predicate SameCores(xs: seq<Child>, ys: seq<Child>) {
    |xs| == |ys| && forall i | 0 <= i < |xs| :: Core(xs[i]) == Core(ys[i])
  }

  ghost predicate SameBooks(a: Book, b: Book) {
    a.remaining == b.remaining && a.attempts == b.attempts && a.counts == b.counts && SameCores(a.children, b.children)
  }

  ghost predicate SameSteps(a: Step, b: Step) {
    match (a, b)
    case (Failed(e), Failed(f)) => e == f
    case (Visited(x, v), Visited(y, w)) => SameBooks(x, y) && v == w
    case _ => false
  }

  function At(plan: Plan, venue: Venue): Plan { plan.(venue := venue) }

  lemma VisitVenue(plan: Plan, v: Venue, w: Venue, order: Order, bar: Bar, a: Book, b: Book, available: real)
    requires SameBooks(a, b)
    ensures SameSteps(Visit(At(plan, v), order, bar, a, available), Visit(At(plan, w), order, bar, b, available))
  {
    hide Tries, Fillable, NativeLimit, ChildId;
  }

  lemma {:induction false} WalkVenue(plan: Plan, v: Venue, w: Venue, bar: Bar, orders: seq<Order>, a: Book, b: Book, available: real)
    requires SameBooks(a, b)
    ensures SameSteps(Walk(At(plan, v), bar, orders, a, available), Walk(At(plan, w), bar, orders, b, available))
  {
    hide Visit, SameBooks;
    if orders != [] {
      var n := |orders| - 1;
      WalkVenue(plan, v, w, bar, orders[..n], a, b, available);
      var x, y := Walk(At(plan, v), bar, orders[..n], a, available), Walk(At(plan, w), bar, orders[..n], b, available);
      if x.Visited? {
        VisitVenue(plan, v, w, orders[n], bar, x.book, y.book, x.available);
      }
    }
  }

  lemma {:induction false} SweepVenue(plan: Plan, v: Venue, w: Venue, bars: seq<Bar>)
    ensures match (Sweep(At(plan, v), bars), Sweep(At(plan, w), bars))
            case (Err(e), Err(f)) => e == f
            case (Ok(a), Ok(b)) => SameBooks(a, b)
            case _ => false
  {
    hide Walk, Capacity, StartBook;
    if bars != [] {
      var n := |bars| - 1;
      SweepVenue(plan, v, w, bars[..n]);
      var x, y := Sweep(At(plan, v), bars[..n]), Sweep(At(plan, w), bars[..n]);
      if x.Ok? {
        WalkVenue(plan, v, w, bars[n], plan.job.orders, x.value, y.value, Capacity(plan.job, bars[n]));
      }
    }
  }

  lemma {:induction false} InsertCores(x: Child, y: Child, xs: seq<Child>, ys: seq<Child>)
    requires Core(x) == Core(y) && SameCores(xs, ys)
    ensures SameCores(Insert(x, xs, ChildLe), Insert(y, ys, ChildLe))
  {
    hide ChildLe, Core;
    if xs == [] {
      assert Insert(x, xs, ChildLe) == [x] && Insert(y, ys, ChildLe) == [y];
    } else {
      assert Core(xs[0]) == Core(ys[0]);
      OrderReadsCores(x, xs[0]);
      OrderReadsCores(y, ys[0]);
      InsertCores(x, y, xs[1..], ys[1..]);
    }
  }

  /** The final sort looks only at what the venues agree on. */
  lemma OrderReadsCores(x: Child, y: Child)
    ensures ChildLe(x, y) == ChildLe(Core(x), Core(y))
  {
    hide StringLe;
  }

  lemma {:induction false} SortCores(xs: seq<Child>, ys: seq<Child>)
    requires SameCores(xs, ys)
    ensures SameCores(Sort(xs, ChildLe), Sort(ys, ChildLe))
  {
    if xs != [] {
      SortCores(xs[1..], ys[1..]);
      InsertCores(xs[0], ys[0], Sort(xs[1..], ChildLe), Sort(ys[1..], ChildLe));
    }
  }

  /** Same sequence of order, bar, quantity and child id, or the same overflow. */
  ghost predicate SameSchedule(a: Result<seq<Child>, Failure>, b: Result<seq<Child>, Failure>) {
    match (a, b)
    case (Err(e), Err(f)) => e == f
    case (Ok(xs), Ok(ys)) => SameCores(xs, ys)
    case _ => false
  }

  lemma VenueIrrelevant(plan: Plan, v: Venue, w: Venue)
    ensures SameSchedule(Schedule(At(plan, v)), Schedule(At(plan, w)))
  {
    hide Sweep, Sort, SameCores;
    var bars := SortedBars(plan.job);
    SweepVenue(plan, v, w, bars);
    var x, y := Sweep(At(plan, v), bars), Sweep(At(plan, w), bars);
    if x.Ok? {
      SortCores(x.value.children, y.value.children);
    }
  }

  lemma {:induction false} WalkOnlyOverflows(plan: Plan, bar: Bar, orders: seq<Order>, book: Book, available: real)
    ensures Walk(plan, bar, orders, book, available).Failed? ==>
            Walk(plan, bar, orders, book, available).error.TooLarge?
  {
    hide Tries, Fillable, MakeChild;
    if orders != [] {
      WalkOnlyOverflows(plan, bar, orders[..|orders| - 1], book, available);
    }
  }

  lemma {:induction false} SweepOnlyOverflows(plan: Plan, bars: seq<Bar>)
    ensures Sweep(plan, bars).Err? ==> Sweep(plan, bars).error.TooLarge?
  {
    hide Walk, Capacity;
    if bars != [] {
      var n := |bars| - 1;
      SweepOnlyOverflows(plan, bars[..n]);
      if Sweep(plan, bars[..n]).Ok? {
        WalkOnlyOverflows(plan, bars[n], plan.job.orders, Sweep(plan, bars[..n]).value, Capacity(plan.job, bars[n]));
      }
    }
  }

  /**
   The engines agree - the same children, or the same overflow at the same bar and order - exactly when
   the child limit is positive and every DAY order has a session: only LEAN refuses such jobs outright.
   */
  lemma EnginesAgree(job: Job, maxChildren: int)
    ensures SameSchedule(LeanResult(job, maxChildren), NautilusResult(job, maxChildren))
       <==> maxChildren >= 1 && EveryDayOrderHasSession(job)
  {
    hide Sweep, Sort, EveryDayOrderHasSession;
    var plan := Plan(job, maxChildren, Lean);
    VenueIrrelevant(plan, Lean, Nautilus);
    SweepOnlyOverflows(At(plan, Nautilus), SortedBars(job));
  }
}

/** The result validator recomputes the schedule on its own; it expects exactly what the engines schedule. */
module ExpectedSchedules {
  import opened Wrappers
  import opened Sorting
  import opened Sums
  import opened Identifiers
  import opened BacktestContracts
  import opened BacktestMath
  import opened Allocator
  import opened ChildLaws
  import opened TimeInForceLaws
  import opened ScheduleTheorems
  import opened NautilusEngine
  import opened Adapter
  import opened Parity
  import opened ResultValidation

  /** Where and how much: the pair the validator compares. */
  function Placement(child: Child): (Id, real) { (child.barId, child.quantity) }

  function Placements(children: seq<Child>, id: Id): seq<(Id, real)> { Image(ChildrenOf(children, id), Placement) }

  // ---------- the child limit only decides whether there is a schedule ----------

  ghost predicate SameButLimit(p: Plan, q: Plan) { p.job == q.job && p.venue == q.venue }

  lemma VisitLimitFree(p: Plan, q: Plan, order: Order, bar: Bar, book: Book, available: real)
    requires SameButLimit(p, q)
    requires Visit(p, order, bar, book, available).Visited? && Visit(q, order, bar, book, available).Visited?
    ensures Visit(p, order, bar, book, available) == Visit(q, order, bar, book, available)
  {
    hide Tries, Fillable, NativeLimit, FindInstrument;
  }

  lemma {:induction false} WalkLimitFree(p: Plan, q: Plan, bar: Bar, orders: seq<Order>, book: Book, available: real)
    requires SameButLimit(p, q)
    requires Walk(p, bar, orders, book, available).Visited? && Walk(q, bar, orders, book, available).Visited?
    ensures Walk(p, bar, orders, book, available) == Walk(q, bar, orders, book, available)
  {
    hide Visit;
    if orders != [] {
      var n := |orders| - 1;
      WalkLimitFree(p, q, bar, orders[..n], book, available);
      var before := Walk(p, bar, orders[..n], book, available);
      VisitLimitFree(p, q, orders[n], bar, before.book, before.available);
    }
  }

  lemma {:induction false} SweepLimitFree(p: Plan, q: Plan, bars: seq<Bar>)
    requires SameButLimit(p, q) && Sweep(p, bars).Ok? && Sweep(q, bars).Ok?
    ensures Sweep(p, bars) == Sweep(q, bars)
  {
    hide Walk, Capacity;
    if bars != [] {
      var n := |bars| - 1;
      SweepLimitFree(p, q, bars[..n]);
      WalkLimitFree(p, q, bars[n], p.job.orders, Sweep(p, bars[..n]).value, Capacity(p.job, bars[n]));
    }
  }

  /** A limit no run can reach: one child per order and bar. */
  function Unlimited(job: Job, venue: Venue): Plan { Plan(job, |job.bars| * |job.orders|, venue) }

  lemma {:induction false} WalkHasRoom(plan: Plan, bar: Bar, orders: seq<Order>, book: Book, available: real)
    requires |book.children| + |orders| <= plan.limit
    ensures Walk(plan, bar, orders, book, available).Visited?
    ensures |Walk(plan, bar, orders, book, available).book.children| <= |book.children| + |orders|
  {
    hide Tries, Fillable, MakeChild;
    if orders != [] {
      WalkHasRoom(plan, bar, orders[..|orders| - 1], book, available);
    }
  }

  lemma {:induction false} SweepHasRoom(job: Job, venue: Venue, bars: seq<Bar>)
    requires |bars| <= |job.bars|
    ensures Sweep(Unlimited(job, venue), bars).Ok?
    ensures |Sweep(Unlimited(job, venue), bars).value.children| <= |bars| * |job.orders|
  {
    hide Walk, Capacity, StartBook;
    if bars != [] {
      var n := |bars| - 1;
      SweepHasRoom(job, venue, bars[..n]);
      RowsFit(n, |job.bars|, |job.orders|);
      WalkHasRoom(Unlimited(job, venue), bars[n], job.orders, Sweep(Unlimited(job, venue), bars[..n]).value,
                  Capacity(job, bars[n]));
    }
  }

  lemma RowsFit(n: nat, rows: nat, width: nat)
    requires n < rows
    ensures n * width + width == (n + 1) * width <= rows * width
  {
  }

  /** A run with this many children stays within the limit. */
  predicate Fits(plan: Plan, children: nat) { children == 0 || children <= plan.limit }

  lemma VisitFits(p: Plan, q: Plan, order: Order, bar: Bar, book: Book, available: real)
    requires SameButLimit(p, q) && Visit(q, order, bar, book, available).Visited? && Fits(p, |book.children|)
    ensures |book.children| <= |Visit(q, order, bar, book, available).book.children|
    ensures Visit(p, order, bar, book, available).Visited? <==>
            Fits(p, |Visit(q, order, bar, book, available).book.children|)
  {
    hide Tries, Fillable, MakeChild;
  }

  lemma {:induction false} WalkFits(p: Plan, q: Plan, bar: Bar, orders: seq<Order>, book: Book, available: real)
    requires SameButLimit(p, q) && Walk(q, bar, orders, book, available).Visited? && Fits(p, |book.children|)
    ensures |book.children| <= |Walk(q, bar, orders, book, available).book.children|
    ensures Walk(p, bar, orders, book, available).Visited? <==>
            Fits(p, |Walk(q, bar, orders, book, available).book.children|)
  {
    hide Visit;
    if orders != [] {
      var n := |orders| - 1;
      var before := Walk(q, bar, orders[..n], book, available);
      WalkFits(p, q, bar, orders[..n], book, available);
      VisitGrows(q, orders[n], bar, before.book, before.available);
      if Fits(p, |before.book.children|) {
        WalkLimitFree(p, q, bar, orders[..n], book, available);
        VisitFits(p, q, orders[n], bar, before.book, before.available);
      }
    }
  }

  lemma VisitGrows(plan: Plan, order: Order, bar: Bar, book: Book, available: real)
    requires Visit(plan, order, bar, book, available).Visited?
    ensures |book.children| <= |Visit(plan, order, bar, book, available).book.children|
  {
    hide Tries, Fillable, MakeChild;
  }

  lemma {:induction false} SweepFits(p: Plan, q: Plan, bars: seq<Bar>)
    requires SameButLimit(p, q) && Sweep(q, bars).Ok?
    ensures Sweep(p, bars).Ok? <==> Fits(p, |Sweep(q, bars).value.children|)
  {
    hide Walk, Capacity;
    if bars != [] {
      var n := |bars| - 1;
      var before := Sweep(q, bars[..n]).value;
      SweepFits(p, q, bars[..n]);
      WalkGrows(q, bars[n], q.job.orders, before, Capacity(q.job, bars[n]));
      if Fits(p, |before.children|) {
        SweepLimitFree(p, q, bars[..n]);
        WalkFits(p, q, bars[n], q.job.orders, before, Capacity(q.job, bars[n]));
      }
    }
  }

  lemma {:induction false} WalkGrows(plan: Plan, bar: Bar, orders: seq<Order>, book: Book, available: real)
    requires Walk(plan, bar, orders, book, available).Visited?
    ensures |book.children| <= |Walk(plan, bar, orders, book, available).book.children|
  {
    hide Visit;
    if orders != [] {
      var n := |orders| - 1;
      WalkGrows(plan, bar, orders[..n], book, available);
      var before := Walk(plan, bar, orders[..n], book, available);
      VisitGrows(plan, orders[n], bar, before.book, before.available);
    }
  }

  /**
   The child limit is exact. Left room for one child per order and bar a schedule always exists; with any
   other limit it exists exactly when its children are no more than the limit, and then it is the same.
   */
  lemma LimitIsExact(plan: Plan)
    requires plan.limit >= 1
    ensures var roomy := Schedule(plan.(limit := |plan.job.bars| * |plan.job.orders|));
            && roomy.Ok?
            && (Schedule(plan).Ok? <==> |roomy.value| <= plan.limit)
            && (Schedule(plan).Ok? ==> Schedule(plan) == roomy)
  {
    var bars, roomy := SortedBars(plan.job), Unlimited(plan.job, plan.venue);
    SortedBarsSame(plan.job);
    hide Sweep, SortedBars, Sort;
    SweepHasRoom(plan.job, plan.venue, bars);
    SweepFits(plan, roomy, bars);
    SameLength(Schedule(roomy).value, Sweep(roomy, bars).value.children);
    if Sweep(plan, bars).Ok? {
      SweepLimitFree(plan, roomy, bars);
    }
  }

  // ---------- the validator's own loops ----------

  datatype Expectation =
    Expectation(remaining: map<Id, real>, attempted: set<Id>, planned: map<Id, seq<(Id, real)>>)

  function PlannedFor(e: Expectation, id: Id): seq<(Id, real)> {
    if id in e.planned then e.planned[id] else []
  }

  ghost predicate Mirrors(e: Expectation, book: Book) {
    && e.remaining == book.remaining && e.attempted == book.attempts
    && forall id :: PlannedFor(e, id) == Placements(book.children, id)
  }

  lemma PlacementsPush(children: seq<Child>, child: Child, id: Id)
    ensures Placements(children + [child], id)
         == Placements(children, id) + (if child.orderId == id then [Placement(child)] else [])
  {
    ChildrenPush(children, child, id);
    hide ChildrenOf;
    var kept := ChildrenOf(children, id);
    assert Image(kept + [child], Placement) == Image(kept, Placement) + [Placement(child)];
    assert ChildrenOf(children + [child], id) == if child.orderId == id then kept + [child] else kept;
  }

  /** The validator's own conditions are the allocator's. */
  lemma ConditionsAgree(job: Job, order: Order, bar: Bar, instrument: Instrument)
    requires BarReady(job, bar) && FindInstrument(job.instruments, bar.instrumentId) == Some(instrument)
    ensures SessionForBar(job.sessions, bar, instrument.mic).Some?
    ensures var date := SessionForBar(job.sessions, bar, instrument.mic).value.date;
      Tries(job, order, bar) <==>
        Opportunity(order, bar) && (order.timeInForce.Day? ==> FirstDate(job, order) == Some(date))
    ensures Fillable(job, order, bar) <==>
      Tries(job, order, bar) && bar.tradable && FillPrice(order, bar, instrument, job.cost).At?
  {
    hide FillPrice, SessionForBar, FirstSessionDate;
  }

  lemma MirrorsMeans(e: Expectation, book: Book)
    requires Mirrors(e, book)
    ensures e.remaining == book.remaining && e.attempted == book.attempts
  {
  }

  lemma AttemptMirrors(e: Expectation, book: Book, order: Order)
    requires Mirrors(e, book)
    ensures Mirrors(if order.timeInForce.Ioc? then e.(attempted := e.attempted + {order.id}) else e, Attempted(book, order))
  {
    hide Placements;
  }

  function PlannedOn(e: Expectation, order: Order, bar: Bar, quantity: real): Expectation
    requires order.id in e.remaining
  {
    e.(planned := e.planned[order.id := PlannedFor(e, order.id) + [(bar.id, quantity)]],
       remaining := e.remaining[order.id := e.remaining[order.id] - quantity])
  }

  /** Planning a placement mirrors allotting a child. */
  lemma AllotMirrors(plan: Plan, e: Expectation, book: Book, order: Order, bar: Bar, quantity: real)
    requires Mirrors(e, book) && order.id in e.remaining
    ensures Mirrors(PlannedOn(e, order, bar, quantity), Allot(plan, order, bar, book, quantity))
  {
    hide Placements, ChildId, NativeLimit;
    var child := MakeChild(plan, order, bar, quantity, Count(book, order.id) + 1);
    forall id ensures Placements(book.children + [child], id)
      == Placements(book.children, id) + (if order.id == id then [(bar.id, quantity)] else [])
    {
      PlacementsPush(book.children, child, id);
    }
  }

  /** One order on one bar, as the validator decides it. */
  method ExpectOrder(job: Job, order: Order, bar: Bar, instrument: Instrument, e: Expectation, available: real,
                     ghost plan: Plan, ghost book: Book)
    returns (e': Expectation, available': real)
    requires plan.job == job && Mirrors(e, book) && Visit(plan, order, bar, book, available).Visited?
    requires BarReady(job, bar) && order in job.orders && order.id in e.remaining
    requires FindInstrument(job.instruments, bar.instrumentId) == Some(instrument)
    ensures Mirrors(e', Visit(plan, order, bar, book, available).book)
    ensures available' == Visit(plan, order, bar, book, available).available
    ensures e.remaining.Keys <= e'.remaining.Keys
  {
    hide FillPrice, SessionForBar, FirstDate, Tries, Fillable, BarReady, Mirrors, Allot, Attempted, PlannedFor;
    MirrorsMeans(e, book);
    ConditionsAgree(job, order, bar, instrument);
    e', available' := e, available;
    if e.remaining[order.id] <= 0.0 || order.id in e.attempted {
      return;
    }
    if !Opportunity(order, bar) {
      return;
    }
    var session := SessionForBar(job.sessions, bar, instrument.mic);
    assert session.Some?;  // "bar session mapping changed" cannot be raised
    if order.timeInForce.Day? && FirstDate(job, order) != Some(session.value.date) {
      return;
    }
    AttemptMirrors(e, book, order);
    if order.timeInForce.Ioc? {
      e' := e'.(attempted := e'.attempted + {order.id});
    }
    if bar.tradable {
      if FillPrice(order, bar, instrument, job.cost).At? {
        var quantity := Min(e.remaining[order.id], available);
        if quantity > 0.0 {
          AllotMirrors(plan, e', Attempted(book, order), order, bar, quantity);
          e' := e'.(planned := e'.planned[order.id := PlannedFor(e', order.id) + [(bar.id, quantity)]],
                    remaining := e'.remaining[order.id := e'.remaining[order.id] - quantity]);
          available' := available - quantity;
        }
      }
    }
  }

  /** All orders on one bar. */
  method ExpectBar(job: Job, bar: Bar, e: Expectation, ghost plan: Plan, ghost book: Book) returns (e': Expectation)
    requires plan.job == job && Mirrors(e, book) && BarReady(job, bar)
    requires Walk(plan, bar, job.orders, book, Capacity(job, bar)).Visited?
    requires forall order | order in job.orders :: order.id in e.remaining
    ensures Mirrors(e', Walk(plan, bar, job.orders, book, Capacity(job, bar)).book)
    ensures e.remaining.Keys <= e'.remaining.Keys
  {
    var instrument := FindInstrument(job.instruments, bar.instrumentId).value;
    hide Visit, BarReady, Capacity, Mirrors;
    var available := Capacity(job, bar);
    ghost var capacity, now := available, book;
    e' := e;
    for j := 0 to |job.orders|
      invariant Walk(plan, bar, job.orders[..j], book, capacity) == Visited(now, available)
      invariant Mirrors(e', now) && e.remaining.Keys <= e'.remaining.Keys
    {
      WalkStep(plan, bar, job.orders, j, book, capacity);
      WalkPrefix(plan, bar, job.orders, j + 1, book, capacity);
      ghost var step := Visit(plan, job.orders[j], bar, now, available);
      e', available := ExpectOrder(job, job.orders[j], bar, instrument, e', available, plan, now);
      now := step.book;
    }
    assert job.orders[..|job.orders|] == job.orders;
  }

  lemma WalkPrefix(plan: Plan, bar: Bar, orders: seq<Order>, n: nat, book: Book, available: real)
    requires n <= |orders| && Walk(plan, bar, orders, book, available).Visited?
    ensures Walk(plan, bar, orders[..n], book, available).Visited?
  {
    if Walk(plan, bar, orders[..n], book, available).Failed? {
      WalkFailsEarly(plan, bar, orders, n, book, available);
    }
  }

  /** The loop over the sorted bars. */
  method ExpectBars(job: Job, bars: seq<Bar>, ghost plan: Plan) returns (e: Expectation)
    requires plan.job == job && Sweep(plan, bars).Ok? && forall bar | bar in bars :: BarReady(job, bar)
    ensures Mirrors(e, Sweep(plan, bars).value)
  {
    hide Walk, Sweep, StartBook, BarReady, Capacity, Mirrors;
    SweepStart(plan, bars);
    var remaining := OpeningQuantities(job.orders);
    e := Expectation(remaining, {}, map[]);
    ghost var book := StartBook(job.orders);
    NothingPlaced(job.orders);
    for i := 0 to |bars|
      invariant Sweep(plan, bars[..i]) == Ok(book) && Mirrors(e, book)
      invariant forall o | o in job.orders :: o.id in e.remaining
    {
      SweepStep(plan, bars, i);
      SweepPrefix(plan, bars, i + 1);
      ghost var walked := Walk(plan, bars[i], job.orders, book, Capacity(job, bars[i]));
      e := ExpectBar(job, bars[i], e, plan, book);
      book := walked.book;
    }
    assert bars[..|bars|] == bars;
  }

  /** `_expected_fill_schedules`: where and how much each order must have been filled. */
  method ExpectedFillSchedules(job: Job, ghost venue: Venue) returns (planned: map<Id, seq<(Id, real)>>)
    requires ValidJob(job)
    ensures Sweep(Unlimited(job, venue), SortedBars(job)).Ok?
    ensures forall id :: (if id in planned then planned[id] else [])
                 == Placements(Sweep(Unlimited(job, venue), SortedBars(job)).value.children, id)
  {
    var bars := Sort(job.bars, BarLe);
    SortedBarsSame(job);
    forall bar | bar in bars ensures BarReady(job, bar) {
      BarIsReady(job, bar);
    }
    hide ValidJob, BarReady, Sweep, Sort, Placements, Unlimited;
    SweepHasRoom(job, venue, bars);
    assert Unlimited(job, venue).job == job by {
      UnlimitedJob(job, venue);
    }
    var e := ExpectBars(job, bars, Unlimited(job, venue));
    planned := e.planned;
    assert forall id :: PlannedFor(e, id) == if id in planned then planned[id] else [];
  }

  lemma UnlimitedJob(job: Job, venue: Venue)
    ensures Unlimited(job, venue).job == job
  {
  }

  lemma NothingPlaced(orders: seq<Order>)
    ensures Mirrors(Expectation(StartBook(orders).remaining, {}, map[]), StartBook(orders))
  {
  }

  // ---------- the engines meet the expectation ----------

  /** Whatever the child limit, a successful schedule is the one the validator expects. */
  lemma ScheduleMeetsExpectation(plan: Plan, k: nat)
    requires ValidJob(plan.job) && Schedule(plan).Ok? && k < |plan.job.orders|
    ensures Sweep(Unlimited(plan.job, plan.venue), SortedBars(plan.job)).Ok?
    ensures var id := plan.job.orders[k].id;
            Placements(Schedule(plan).value, id)
              == Placements(Sweep(Unlimited(plan.job, plan.venue), SortedBars(plan.job)).value.children, id)
  {
    GenerationOrderKept(plan, k);
    SortedBarsSame(plan.job);
    hide ValidJob, Sweep, ChildrenOf, SortedBars;
    var bars := SortedBars(plan.job);
    SweepHasRoom(plan.job, plan.venue, bars);
    SweepLimitFree(plan, Unlimited(plan.job, plan.venue), bars);
  }

  /** The fills of one order, in result order, as the validator collects them. */
  function ActualPlacements(fills: seq<Fill>, id: Id): seq<(Id, real)> {
    if fills == [] then []
    else
      var n := |fills| - 1;
      ActualPlacements(fills[..n], id)
        + (if fills[n].body.orderId == id then [(fills[n].body.barId, fills[n].body.quantity)] else [])
  }

  function FillExecution(fill: Fill): Execution {
    Execution(fill.body.orderId, fill.body.quantity, fill.body.occurredAt, fill.body.barId)
  }

  function ExecutedAt(e: Execution): (Id, real) { (e.barId, e.quantity) }

  /** The executions of one order. */
  function ExecutionsOf(executions: seq<Execution>, id: Id): seq<Execution> {
    if executions == [] then []
    else
      var n := |executions| - 1;
      ExecutionsOf(executions[..n], id) + (if executions[n].orderId == id then [executions[n]] else [])
  }

  lemma {:induction false} ActualAreExecutions(fills: seq<Fill>, id: Id)
    ensures ActualPlacements(fills, id) == Image(ExecutionsOf(Image(fills, FillExecution), id), ExecutedAt)
  {
    if fills != [] {
      var n := |fills| - 1;
      ActualAreExecutions(fills[..n], id);
      assert Image(fills, FillExecution)[..n] == Image(fills[..n], FillExecution);
    }
  }

  lemma {:induction false} OwnAreExecutions(children: seq<Child>, id: Id)
    ensures Image(ChildrenOf(children, id), ChildExecution) == ExecutionsOf(Scheduled(children), id)
  {
    if children != [] {
      var n := |children| - 1;
      OwnAreExecutions(children[..n], id);
      assert Scheduled(children)[..n] == Scheduled(children[..n]);
    }
  }

  lemma PlannedAreExecutions(children: seq<Child>, id: Id)
    ensures Image(ChildrenOf(children, id), ChildExecution) == ExecutionsOf(Scheduled(children), id)
    ensures Placements(children, id) == Image(ExecutionsOf(Scheduled(children), id), ExecutedAt)
  {
    OwnAreExecutions(children, id);
    hide ChildrenOf, ExecutionsOf;
    var own := ChildrenOf(children, id);
    assert forall i | 0 <= i < |own| :: Placement(own[i]) == ExecutedAt(Image(own, ChildExecution)[i]);
  }

  lemma {:induction false} ExecutionsConcat(xs: seq<Execution>, ys: seq<Execution>, id: Id)
    ensures ExecutionsOf(xs + ys, id) == ExecutionsOf(xs, id) + ExecutionsOf(ys, id)
  {
    if ys == [] {
      assert xs + ys == xs;
    } else {
      assert (xs + ys)[..|xs + ys| - 1] == xs + ys[..|ys| - 1];
      ExecutionsConcat(xs, ys[..|ys| - 1], id);
    }
  }

  lemma ExecutionsWithout(xs: seq<Execution>, i: nat, id: Id)
    requires i < |xs|
    ensures multiset(ExecutionsOf(xs, id))
         == multiset(ExecutionsOf(xs[..i] + xs[i + 1..], id)) + (if xs[i].orderId == id then multiset{xs[i]} else multiset{})
  {
    hide ExecutionsOf;
    assert xs == xs[..i] + ([xs[i]] + xs[i + 1..]);
    ExecutionsConcat(xs[..i], [xs[i]] + xs[i + 1..], id);
    ExecutionsConcat([xs[i]], xs[i + 1..], id);
    ExecutionsConcat(xs[..i], xs[i + 1..], id);
    SingleExecution(xs[i], id);
  }

  lemma SingleExecution(e: Execution, id: Id)
    ensures ExecutionsOf([e], id) == if e.orderId == id then [e] else []
  {
    assert [e][..0] == [];
  }

  lemma {:induction false} ExecutionsPermute(xs: seq<Execution>, ys: seq<Execution>, id: Id)
    requires multiset(xs) == multiset(ys)
    ensures multiset(ExecutionsOf(xs, id)) == multiset(ExecutionsOf(ys, id))
    decreases |ys|
  {
    if ys == [] {
      assert |multiset(xs)| == |xs|;
    } else {
      var n := |ys| - 1;
      var i := MatchLast(xs, ys);
      ExecutionsPermute(xs[..i] + xs[i + 1..], ys[..n], id);
      ExecutionsWithout(xs, i, id);
      ExecutionsWithout(ys, n, id);
      assert ys[..n] + ys[n + 1..] == ys[..n];
    }
  }

  predicate Earlier(a: Execution, b: Execution) { a.occurredAt <= b.occurredAt }

  lemma {:induction false} ExecutionsSorted(xs: seq<Execution>, id: Id)
    requires SortedBy(xs, Earlier)
    ensures SortedBy(ExecutionsOf(xs, id), Earlier)
    ensures forall e | e in ExecutionsOf(xs, id) :: e in xs
  {
    if xs != [] {
      var n := |xs| - 1;
      ExecutionsSorted(xs[..n], id);
      assert forall e | e in xs[..n] :: Earlier(e, xs[n]);
    }
  }

  lemma ResultFillsSorted(fills: seq<Fill>)
    ensures SortedBy(Image(Sort(fills, FillLe), FillExecution), Earlier)
  {
    var sorted := Sort(fills, FillLe);
    assert TotalPreorder(FillLe);
    SortSorted(fills, FillLe);
    forall i, j | 0 <= i < j < |sorted| ensures Earlier(FillExecution(sorted[i]), FillExecution(sorted[j])) {
      assert FillLe(sorted[i], sorted[j]);
    }
  }

  /** The result fills carry the executions of the trace. */
  lemma ResultExecutions(job: Job, trace: Trace, name: FillTrace -> Id)
    requires MapFills(job, trace, name).Some?
    ensures multiset(Image(MapFills(job, trace, name).value, FillExecution)) == multiset(Executions(trace.fills))
    ensures SortedBy(Image(MapFills(job, trace, name).value, FillExecution), Earlier)
  {
    hide PriceExecution, Sort, SortedBy;
    var executions := Executions(trace.fills);
    var bodies := PriceAll(job, executions).value;
    var named := Named(trace.fills, bodies, name);
    ResultFillsSorted(named);
    ImagePermutation(Sort(named, FillLe), named, FillExecution);
    forall i | 0 <= i < |named| ensures FillExecution(named[i]) == executions[i] {
      PricedFields(job, executions[i]);
    }
    assert Image(named, FillExecution) == executions;
  }

  lemma OwnExecutionsUnique(children: seq<Child>, other: seq<Execution>, id: Id)
    requires StrictlyLater(ChildrenOf(children, id))
    requires multiset(other) == multiset(ExecutionsOf(Scheduled(children), id)) && SortedBy(other, Earlier)
    ensures other == ExecutionsOf(Scheduled(children), id)
  {
    PlannedAreExecutions(children, id);
    hide ChildrenOf, ExecutionsOf;
    var own := Image(ChildrenOf(children, id), ChildExecution);
    assert forall i, j | 0 <= i < j < |own| :: own[i].occurredAt < own[j].occurredAt;
    SortedUnique(own, other, Earlier);
  }

  /**
   The round trip: the fills an adapter reports for a fully filled schedule are, order by order and in result
   order, exactly the placements the validator recomputes - whatever ids the engine gave its fills.
   */
  lemma NextBarSequenceHolds(plan: Plan, trace: Trace, name: FillTrace -> Id, k: nat)
    requires ValidJob(plan.job) && Schedule(plan).Ok? && FullyFilled(trace, Schedule(plan).value)
    requires MapFills(plan.job, trace, name).Some? && k < |plan.job.orders|
    ensures Sweep(Unlimited(plan.job, plan.venue), SortedBars(plan.job)).Ok?
    ensures var id := plan.job.orders[k].id;
            ActualPlacements(MapFills(plan.job, trace, name).value, id)
              == Placements(Sweep(Unlimited(plan.job, plan.venue), SortedBars(plan.job)).value.children, id)
  {
    hide ValidJob, Schedule, Sweep, SortedBars, MapFills, Placements, StrictlyLater, SortedBy, ExecutionsOf;
    var id, children := plan.job.orders[k].id, Schedule(plan).value;
    var executions := Image(MapFills(plan.job, trace, name).value, FillExecution);
    ScheduleMeetsExpectation(plan, k);
    GenerationOrderKept(plan, k);
    ResultExecutions(plan.job, trace, name);
    ExecutionsPermute(executions, Scheduled(children), id);
    ExecutionsSorted(executions, id);
    OwnExecutionsUnique(children, ExecutionsOf(executions, id), id);
    ActualAreExecutions(MapFills(plan.job, trace, name).value, id);
    PlannedAreExecutions(children, id);
  }
}

/** Engine parity: full fills of the schedule give both adapters the same report. */
module Parity {
  import opened Wrappers
  import opened Sorting
  import opened Sums
  import opened BacktestContracts
  import opened Allocator
  import opened LeanEngine
  import opened NautilusEngine
  import opened EngineEquivalence
  import opened Adapter

  function ChildExecution(child: Child): Execution {
    Execution(child.orderId, child.quantity, child.opensAt, child.barId)
  }

  function Scheduled(children: seq<Child>): seq<Execution> { Image(children, ChildExecution) }

  /** The engine reports exactly one full fill per scheduled child, in any order, under any ids. */
  ghost predicate FullyFilled(trace: Trace, children: seq<Child>) {
    multiset(Executions(trace.fills)) == multiset(Scheduled(children))
  }

  lemma PriceWithout(job: Job, xs: seq<Execution>, i: nat)
    requires i < |xs| && PriceAll(job, xs).Some?
    ensures PriceAll(job, xs[..i] + xs[i + 1..]).Some?
    ensures multiset(PriceAll(job, xs).value)
         == multiset(PriceAll(job, xs[..i] + xs[i + 1..]).value) + multiset{PriceAll(job, xs).value[i]}
  {
    hide PriceExecution;
    var rest := xs[..i] + xs[i + 1..];
    assert forall e | e in rest :: e in xs;
    var bodies := PriceAll(job, xs).value;
    forall k | 0 <= k < |rest| ensures Some(PriceAll(job, rest).value[k]) == Some((bodies[..i] + bodies[i + 1..])[k]) {
      assert PriceExecution(job, rest[k]) == PriceExecution(job, xs[if k < i then k else k + 1]);
    }
    assert PriceAll(job, rest).value == bodies[..i] + bodies[i + 1..];
    RemoveAt(bodies, i);
  }

  lemma {:induction false} PricePermutation(job: Job, xs: seq<Execution>, ys: seq<Execution>)
    requires multiset(xs) == multiset(ys) && PriceAll(job, xs).Some?
    ensures PriceAll(job, ys).Some?
    ensures multiset(PriceAll(job, xs).value) == multiset(PriceAll(job, ys).value)
    decreases |ys|
  {
    hide PriceExecution;
    SameElements(xs, ys);
    if ys != [] {
      var n := |ys| - 1;
      var i := MatchLast(xs, ys);
      PriceWithout(job, xs, i);
      PriceWithout(job, ys, n);
      assert ys[..n] + ys[n + 1..] == ys[..n];
      PricePermutation(job, xs[..i] + xs[i + 1..], ys[..n]);
      assert PriceExecution(job, xs[i]) == PriceExecution(job, ys[n]);
    }
  }

  lemma MappedBodies(job: Job, trace: Trace, name: FillTrace -> Id)
    ensures MapFills(job, trace, name).Some? <==> PriceAll(job, Executions(trace.fills)).Some?
    ensures MapFills(job, trace, name).Some? ==>
            multiset(Bodies(MapFills(job, trace, name).value)) == multiset(PriceAll(job, Executions(trace.fills)).value)
  {
    hide PriceAll, Sort;
    if MapFills(job, trace, name).Some? {
      var bodies := PriceAll(job, Executions(trace.fills)).value;
      var named := Named(trace.fills, bodies, name);
      ImagePermutation(Sort(named, FillLe), named, BodyOf);
      assert Image(named, BodyOf) == bodies;
    }
  }

  /** Two traces with the same executions give the same report, whatever their fill ids. */
  lemma SameExecutionsSameReport(job: Job, a: Trace, b: Trace, nameA: FillTrace -> Id, nameB: FillTrace -> Id)
    requires ValidTrace(job, a) && ValidTrace(job, b)
    requires multiset(Executions(a.fills)) == multiset(Executions(b.fills))
    ensures MapResult(job, a, nameA).Some? <==> MapResult(job, b, nameB).Some?
    ensures MapResult(job, a, nameA).Some? ==> MapResult(job, a, nameA).value.1 == MapResult(job, b, nameB).value.1
  {
    hide ValidTrace, PriceAll, MapFills, ReportOf, Bodies;
    MappedBodies(job, a, nameA);
    MappedBodies(job, b, nameB);
    if PriceAll(job, Executions(a.fills)).Some? {
      PricePermutation(job, Executions(a.fills), Executions(b.fills));
      ReportOrderFree(job, Bodies(MapFills(job, a, nameA).value), Bodies(MapFills(job, b, nameB).value));
    } else if PriceAll(job, Executions(b.fills)).Some? {
      PricePermutation(job, Executions(b.fills), Executions(a.fills));
    }
  }

  lemma SameCoresSameExecutions(xs: seq<Child>, ys: seq<Child>)
    requires SameCores(xs, ys)
    ensures Scheduled(xs) == Scheduled(ys)
  {
    forall i | 0 <= i < |xs| ensures ChildExecution(xs[i]) == ChildExecution(ys[i]) {
      assert Core(xs[i]) == Core(ys[i]);
    }
  }

  /**
   Engine parity. When LEAN accepts the job, Nautilus schedules the same executions; if each engine then
   reports one full fill per child, both adapters give the same outcomes, cash, positions and fees.
   */
  lemma EnginesReportAlike(job: Job, maxChildren: int, lean: Trace, nautilus: Trace,
                           leanName: FillTrace -> Id, nautilusName: FillTrace -> Id)
    requires LeanResult(job, maxChildren).Ok? && NautilusResult(job, maxChildren).Ok?
    requires ValidTrace(job, lean) && FullyFilled(lean, LeanResult(job, maxChildren).value)
    requires ValidTrace(job, nautilus) && FullyFilled(nautilus, NautilusResult(job, maxChildren).value)
    ensures MapResult(job, lean, leanName).Some? <==> MapResult(job, nautilus, nautilusName).Some?
    ensures MapResult(job, lean, leanName).Some? ==>
            MapResult(job, lean, leanName).value.1 == MapResult(job, nautilus, nautilusName).value.1
  {
    EnginesAgree(job, maxChildren);
    assert SameSchedule(LeanResult(job, maxChildren), NautilusResult(job, maxChildren));
    hide LeanResult, NautilusResult, ValidTrace, MapResult, SameCores;
    SameCoresSameExecutions(LeanResult(job, maxChildren).value, NautilusResult(job, maxChildren).value);
    SameExecutionsSameReport(job, lean, nautilus, leanName, nautilusName);
  }
}

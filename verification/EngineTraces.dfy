/** Reading an engine's raw output back into fills: LEAN's event list, Nautilus's order cache. */
module EngineTraces {
  import opened Wrappers
  import opened Sorting
  import opened Sums
  import opened Identifiers
  import opened BacktestContracts
  import opened Allocator
  import opened LeanEngine
  import opened NautilusEngine
  import opened ChildLaws
  import opened TimeInForceLaws
  import opened ScheduleTheorems
  import opened Adapter
  import opened Parity

  /** `{item.child_id: item for item in schedule}`: a later child replaces an earlier namesake. */
  function FindChild(children: seq<Child>, id: string): (found: Option<Child>)
    ensures found.Some? ==> found.value in children && found.value.childId == id
    ensures found.None? ==> forall c | c in children :: c.childId != id
  {
    if children == [] then None
    else
      var n := |children| - 1;
      assert children == children[..n] + [children[n]];
      if children[n].childId == id then Some(children[n]) else FindChild(children[..n], id)
  }

  predicate TraceLe(a: FillTrace, b: FillTrace) {
    a.occurredAt < b.occurredAt || (a.occurredAt == b.occurredAt && StringLe(a.externalId, b.externalId))
  }

  // ---------- LEAN ----------

  datatype LeanEvent = LeanEvent(
    childId: string, fillQuantity: real, status: string, direction: string,
    orderId: int, eventId: int, price: real, fee: real)

  function Magnitude(x: real): real {
    if x < 0.0 then -x else x
  }

  function Decimal(n: nat): string {
    Digits(n, 10, if n == 0 then 1 else DecimalWidth(n))
  }

  function LeanFillId(orderId: nat, eventId: nat): string {
    "L-" + (Decimal(orderId) + ("-" + Decimal(eventId)))
  }

  /** An event that fails on its own; one without quantity is only asked for a known child. */
  predicate Refused(e: LeanEvent, children: seq<Child>) {
    var child := FindChild(children, e.childId);
    child.None? ||
    (e.fillQuantity != 0.0 &&
     (|| (e.status != "Filled" && e.status != "PartiallyFilled")
      || e.direction != (if child.value.side.Buy? then "Buy" else "Sell")
      || e.orderId < 0 || e.eventId < 0))
  }

  /** The events that carry quantity. */
  function Filling(events: seq<LeanEvent>): (r: seq<LeanEvent>)
    ensures forall e :: e in r <==> e in events && e.fillQuantity != 0.0
  {
    if events == [] then []
    else
      var n := |events| - 1;
      assert events == events[..n] + [events[n]];
      Filling(events[..n]) + if events[n].fillQuantity != 0.0 then [events[n]] else []
  }

  function LeanFill(e: LeanEvent, child: Child): FillTrace
    requires e.orderId >= 0 && e.eventId >= 0
  {
    FillTrace(LeanFillId(e.orderId, e.eventId), child.orderId, Magnitude(e.fillQuantity), e.price, e.fee,
              child.opensAt, child.barId)
  }

  predicate NoneRefused(events: seq<LeanEvent>, children: seq<Child>) {
    forall e | e in events :: !Refused(e, children)
  }

  function LeanFills(events: seq<LeanEvent>, children: seq<Child>): (r: seq<FillTrace>)
    requires NoneRefused(events, children)
    ensures |r| == |Filling(events)|
    ensures forall i | 0 <= i < |r| ::
      var e := Filling(events)[i];
      !Refused(e, children) && r[i] == LeanFill(e, FindChild(children, e.childId).value)
  {
    seq(|Filling(events)|, i requires 0 <= i < |Filling(events)| =>
      var e := Filling(events)[i];
      LeanFill(e, FindChild(children, e.childId).value))
  }

  /** No two filling events have the same pair of LEAN ids. */
  predicate DistinctPairs(fills: seq<LeanEvent>) {
    forall i, j | 0 <= i < j < |fills| :: !SamePair(fills[i], fills[j])
  }

  predicate SamePair(a: LeanEvent, b: LeanEvent) {
    a.orderId == b.orderId && a.eventId == b.eventId
  }

  lemma {:induction false} DigitsHaveNoDash(n: nat, width: nat)
    ensures '-' !in Digits(n, 10, width)
  {
    if width > 0 {
      DigitsHaveNoDash(n / 10, width - 1);
      assert forall d | 0 <= d < 10 :: HEX[d] != '-';
    }
  }

  lemma SplitAtDash(s: string, t: string, u: string, v: string)
    requires '-' !in s && '-' !in u && s + ("-" + t) == u + ("-" + v)
    ensures s == u && t == v
  {
    var whole := s + ("-" + t);
    assert whole[|s|] == '-' && whole[|u|] == '-';
    assert forall k | 0 <= k < |s| :: whole[k] == s[k];
    assert forall k | 0 <= k < |u| :: whole[k] == u[k];
    assert s == whole[..|s|] && u == whole[..|u|];
    assert t == whole[|s| + 1..] && v == whole[|u| + 1..];
  }

  lemma DecimalInjective(n: nat, m: nat)
    requires Decimal(n) == Decimal(m)
    ensures n == m
  {
    var w := |Decimal(n)|;
    assert Power(10, 1) == 10;
    DigitsOrder(n, m, 10, w);
  }

  /** Two LEAN fills share an identifier only when they share both ids. */
  lemma LeanFillIdInjective(a: nat, b: nat, c: nat, d: nat)
    ensures LeanFillId(a, b) == LeanFillId(c, d) <==> a == c && b == d
  {
    hide Digits;
    if LeanFillId(a, b) == LeanFillId(c, d) {
      var x, y := Decimal(a) + ("-" + Decimal(b)), Decimal(c) + ("-" + Decimal(d));
      assert x == LeanFillId(a, b)[2..] && y == LeanFillId(c, d)[2..];
      DigitsHaveNoDash(a, |Decimal(a)|);
      DigitsHaveNoDash(c, |Decimal(c)|);
      SplitAtDash(Decimal(a), Decimal(b), Decimal(c), Decimal(d));
      DecimalInjective(a, c);
      DecimalInjective(b, d);
    }
  }

  /** LEAN's event list can be read: no event is refused, no fill is named twice. */
  predicate Readable(events: seq<LeanEvent>, children: seq<Child>) {
    NoneRefused(events, children) && DistinctPairs(Filling(events))
  }

  /** The identifiers of the fills read so far. */
  ghost predicate Seen(fills: seq<FillTrace>, seen: set<string>) {
    forall id :: id in seen <==> exists i | 0 <= i < |fills| :: fills[i].externalId == id
  }

  lemma FillingAppend(events: seq<LeanEvent>, e: LeanEvent)
    ensures Filling(events + [e]) == Filling(events) + if e.fillQuantity != 0.0 then [e] else []
  {
    assert (events + [e])[..|events|] == events;
  }

  lemma FillingGrows(events: seq<LeanEvent>, e: LeanEvent, children: seq<Child>)
    requires NoneRefused(events, children) && !Refused(e, children)
    ensures NoneRefused(events + [e], children)
    ensures Filling(events + [e]) == Filling(events) + if e.fillQuantity != 0.0 then [e] else []
    ensures LeanFills(events + [e], children) == LeanFills(events, children)
            + if e.fillQuantity != 0.0 then [LeanFill(e, FindChild(children, e.childId).value)] else []
  {
    hide FindChild, LeanFill, LeanFillId, Filling, LeanFills;
    FillingAppend(events, e);
    var fs, grown := Filling(events), Filling(events + [e]);
    assert forall i | 0 <= i < |fs| :: grown[i] == fs[i];
    assert e.fillQuantity != 0.0 ==> grown[|fs|] == e;
  }

  lemma DistinctGrows(fills: seq<LeanEvent>, e: LeanEvent)
    requires DistinctPairs(fills)
    ensures DistinctPairs(fills + [e]) <==> forall i | 0 <= i < |fills| :: !SamePair(fills[i], e)
  {
    hide SamePair;
    var grown := fills + [e];
    assert grown[|fills|] == e;
    assert forall i | 0 <= i < |fills| :: grown[i] == fills[i];
  }

  lemma NamesPair(events: seq<LeanEvent>, e: LeanEvent, children: seq<Child>, i: nat)
    requires NoneRefused(events, children) && !Refused(e, children) && e.fillQuantity != 0.0
    requires i < |Filling(events)|
    ensures LeanFills(events, children)[i].externalId == LeanFillId(e.orderId, e.eventId) <==> SamePair(Filling(events)[i], e)
  {
    hide FindChild, LeanFillId, Magnitude;
    var f := Filling(events)[i];
    LeanFillIdInjective(f.orderId, f.eventId, e.orderId, e.eventId);
  }

  /** A repeated identifier is exactly a repeated pair of ids. */
  lemma PairRepeats(events: seq<LeanEvent>, e: LeanEvent, children: seq<Child>, seen: set<string>)
    requires Readable(events, children) && !Refused(e, children) && e.fillQuantity != 0.0
    requires Seen(LeanFills(events, children), seen)
    ensures LeanFillId(e.orderId, e.eventId) in seen <==> !DistinctPairs(Filling(events + [e]))
  {
    hide FindChild, LeanFillId, Magnitude, SamePair, LeanFills, Filling, DistinctPairs, LeanFill;
    FillingGrows(events, e, children);
    DistinctGrows(Filling(events), e);
    forall i: nat | i < |Filling(events)|
      ensures LeanFills(events, children)[i].externalId == LeanFillId(e.orderId, e.eventId) <==> SamePair(Filling(events)[i], e)
    {
      NamesPair(events, e, children, i);
    }
  }

  lemma {:induction false} FillingPrefix(events: seq<LeanEvent>, i: nat)
    requires i <= |events|
    ensures Filling(events[..i]) <= Filling(events)
    decreases |events|
  {
    if i == |events| {
      assert events[..i] == events;
    } else {
      var shorter := events[..|events| - 1];
      FillingPrefix(shorter, i);
      assert shorter[..i] == events[..i];
    }
  }

  lemma ReadableStays(events: seq<LeanEvent>, i: nat, children: seq<Child>)
    requires i <= |events| && Readable(events, children)
    ensures Readable(events[..i], children)
  {
    hide Refused, Filling, SamePair;
    FillingPrefix(events, i);
    assert forall e | e in events[..i] :: e in events;
  }

  /** The fills of a readable event list, by time and then by identifier. */
  function ParsedEvents(events: seq<LeanEvent>, children: seq<Child>): Option<seq<FillTrace>> {
    if Readable(events, children) then Some(Sort(LeanFills(events, children), TraceLe)) else None
  }

  /** `_parse_fill_events`. */
  method ParseFillEvents(events: seq<LeanEvent>, children: seq<Child>) returns (r: Option<seq<FillTrace>>)
    ensures r == ParsedEvents(events, children)
  {
    hide FindChild, LeanFillId, Magnitude, Filling, DistinctPairs, Sort;
    var result: seq<FillTrace> := [];
    var seen: set<string> := {};
    assert Readable([], children) && LeanFills([], children) == [] by { NoEvents(children); }
    assert events[..0] == [];
    for i := 0 to |events|
      invariant Readable(events[..i], children)
      invariant result == LeanFills(events[..i], children) && Seen(result, seen)
    {
      var e := events[i];
      ghost var longer := events[..i + 1];
      assert longer == events[..i] + [e];
      if Readable(events, children) {
        ReadableStays(events, i + 1, children);
        assert e in longer;
      }
      if Refused(e, children) {
        return None;
      }
      FillingGrows(events[..i], e, children);
      if e.fillQuantity == 0.0 {
        QuietEvent(events[..i], e, children);
        continue;
      }
      PairRepeats(events[..i], e, children, seen);
      var identifier := LeanFillId(e.orderId, e.eventId);
      if identifier in seen {
        return None;
      }
      seen := seen + {identifier};
      result := result + [LeanFill(e, FindChild(children, e.childId).value)];
    }
    assert events[..|events|] == events;
    return Some(Sort(result, TraceLe));
  }

  lemma NoEvents(children: seq<Child>)
    ensures Readable([], children) && LeanFills([], children) == []
  {
  }

  lemma QuietEvent(events: seq<LeanEvent>, e: LeanEvent, children: seq<Child>)
    requires Readable(events, children) && !Refused(e, children) && e.fillQuantity == 0.0
    ensures Readable(events + [e], children)
  {
    hide Refused;
    FillingGrows(events, e, children);
  }

  // ---------- Nautilus ----------

  datatype NautilusFill = NautilusFill(tradeId: string, quantity: real, price: real, fee: real, at: Time)

  /** One engine order of the cache with its fill events. */
  datatype NautilusOrder = NautilusOrder(clientOrderId: string, fills: seq<NautilusFill>)

  function ReadFill(child: Child): NautilusFill -> FillTrace {
    (f: NautilusFill) =>
      FillTrace(f.tradeId, child.orderId, f.quantity, f.price, f.fee, child.opensAt, child.barId)
  }

  /** Fills of one scheduled child; an order the schedule does not know is skipped. */
  function OrderFills(order: NautilusOrder, children: seq<Child>): seq<FillTrace> {
    match FindChild(children, order.clientOrderId)
    case None => []
    case Some(child) => Image(order.fills, ReadFill(child))
  }

  function NautilusFills(orders: seq<NautilusOrder>, children: seq<Child>): seq<FillTrace> {
    if orders == [] then []
    else
      var n := |orders| - 1;
      NautilusFills(orders[..n], children) + OrderFills(orders[n], children)
  }

  /** Every fill of a scheduled child happened at its bar's open. */
  predicate Timely(order: NautilusOrder, children: seq<Child>) {
    var child := FindChild(children, order.clientOrderId);
    child.Some? ==> forall f | f in order.fills :: f.at == child.value.opensAt
  }

  method ReadOrder(order: NautilusOrder, child: Child) returns (r: Option<seq<FillTrace>>)
    ensures r.Some? <==> forall f | f in order.fills :: f.at == child.opensAt
    ensures r.Some? ==> r.value == Image(order.fills, ReadFill(child))
  {
    var result: seq<FillTrace> := [];
    for i := 0 to |order.fills|
      invariant |result| == i
      invariant forall k | 0 <= k < i :: order.fills[k].at == child.opensAt && result[k] == ReadFill(child)(order.fills[k])
    {
      if order.fills[i].at != child.opensAt {
        return None;
      }
      result := result + [ReadFill(child)(order.fills[i])];
    }
    return Some(result);
  }

  /** The fills of the cache's scheduled orders, by time and then by identifier. */
  function ExtractedFills(orders: seq<NautilusOrder>, children: seq<Child>): Option<seq<FillTrace>> {
    if forall o | o in orders :: Timely(o, children) then Some(Sort(NautilusFills(orders, children), TraceLe)) else None
  }

  /** The fill part of `_extract_trace`. */
  method ExtractFills(orders: seq<NautilusOrder>, children: seq<Child>) returns (r: Option<seq<FillTrace>>)
    ensures r == ExtractedFills(orders, children)
  {
    hide Sort, FindChild, Image, ReadFill, TraceLe;
    var result: seq<FillTrace> := [];
    for i := 0 to |orders|
      invariant result == NautilusFills(orders[..i], children)
      invariant forall k | 0 <= k < i :: Timely(orders[k], children)
    {
      assert orders[..i + 1] == orders[..i] + [orders[i]];
      var child := FindChild(children, orders[i].clientOrderId);
      if child.Some? {
        var fills := ReadOrder(orders[i], child.value);
        if fills.None? {
          assert orders[i] in orders && !Timely(orders[i], children);
          return None;
        }
        result := result + fills.value;
      }
    }
    assert orders[..|orders|] == orders;
    return Some(Sort(result, TraceLe));
  }

  // ---------- one full fill per child ----------

  /** What an engine says about a child: its name and the quantity filled. */
  datatype Notice = Notice(childId: string, quantity: real)

  function ChildNotice(c: Child): Notice {
    Notice(c.childId, c.quantity)
  }

  function LeanNotice(e: LeanEvent): Notice {
    Notice(e.childId, Magnitude(e.fillQuantity))
  }

  function NoticeOf(childId: string): NautilusFill -> Notice {
    (f: NautilusFill) => Notice(childId, f.quantity)
  }

  function NautilusNotices(orders: seq<NautilusOrder>, children: seq<Child>): seq<Notice> {
    if orders == [] then []
    else
      var n := |orders| - 1;
      NautilusNotices(orders[..n], children)
      + if FindChild(children, orders[n].clientOrderId).None? then []
        else Image(orders[n].fills, NoticeOf(orders[n].clientOrderId))
  }

  /** The execution a notice stands for. */
  function Resolve(children: seq<Child>): Notice -> Execution {
    (x: Notice) =>
      match FindChild(children, x.childId)
      case None => Execution(0, x.quantity, 0, 0)
      case Some(c) => Execution(c.orderId, x.quantity, c.opensAt, c.barId)
  }

  /** The raw output of LEAN holds exactly one full fill per child, in any order. */
  ghost predicate LeanFillsAll(events: seq<LeanEvent>, children: seq<Child>) {
    multiset(Image(Filling(events), LeanNotice)) == multiset(Image(children, ChildNotice))
  }

  ghost predicate NautilusFillsAll(orders: seq<NautilusOrder>, children: seq<Child>) {
    multiset(NautilusNotices(orders, children)) == multiset(Image(children, ChildNotice))
  }

  lemma FoundChild(children: seq<Child>, i: nat)
    requires DistinctIds(children) && i < |children|
    ensures FindChild(children, children[i].childId) == Some(children[i])
  {
    var found := FindChild(children, children[i].childId);
    assert children[i] in children;
    var k :| 0 <= k < |children| && children[k] == found.value;
  }

  lemma ScheduledResolve(children: seq<Child>)
    requires DistinctIds(children)
    ensures Image(Image(children, ChildNotice), Resolve(children)) == Scheduled(children)
  {
    hide FindChild, DistinctIds;
    forall i: nat | i < |children| ensures Resolve(children)(ChildNotice(children[i])) == ChildExecution(children[i]) {
      FoundChild(children, i);
    }
  }

  lemma SortedExecutions(fills: seq<FillTrace>)
    ensures multiset(Executions(Sort(fills, TraceLe))) == multiset(Executions(fills))
  {
    hide Sort;
    ImagePermutation(Sort(fills, TraceLe), fills, ExecutionOf);
  }

  /** Any list of fills whose notices permute the schedule's is a full fill of the schedule. */
  lemma ResolvedIsFull(children: seq<Child>, fills: seq<FillTrace>, notices: seq<Notice>, orders: seq<Id>)
    requires DistinctIds(children) && Executions(fills) == Image(notices, Resolve(children))
    requires multiset(notices) == multiset(Image(children, ChildNotice))
    ensures FullyFilled(Trace(orders, Sort(fills, TraceLe)), children)
  {
    hide DistinctIds, Resolve, Image, Sort;
    ImagePermutation(notices, Image(children, ChildNotice), Resolve(children));
    ScheduledResolve(children);
    SortedExecutions(fills);
  }

  lemma LeanFullyFilled(events: seq<LeanEvent>, children: seq<Child>, orders: seq<Id>)
    requires Readable(events, children) && DistinctIds(children) && LeanFillsAll(events, children)
    ensures FullyFilled(Trace(orders, Sort(LeanFills(events, children), TraceLe)), children)
  {
    hide DistinctIds, FindChild, Filling, DistinctPairs, LeanFillId, Sort, LeanFillsAll;
    var fills, notices := LeanFills(events, children), Image(Filling(events), LeanNotice);
    assert Executions(fills) == Image(notices, Resolve(children));
    assert multiset(notices) == multiset(Image(children, ChildNotice)) by { LeanAll(events, children); }
    ResolvedIsFull(children, fills, notices, orders);
  }

  lemma LeanAll(events: seq<LeanEvent>, children: seq<Child>)
    requires LeanFillsAll(events, children)
    ensures multiset(Image(Filling(events), LeanNotice)) == multiset(Image(children, ChildNotice))
  {
  }

  lemma ImageConcat<T, U>(xs: seq<T>, ys: seq<T>, f: T -> U)
    ensures Image(xs + ys, f) == Image(xs, f) + Image(ys, f)
  {
  }

  lemma {:induction false} NautilusResolve(orders: seq<NautilusOrder>, children: seq<Child>)
    ensures Executions(NautilusFills(orders, children)) == Image(NautilusNotices(orders, children), Resolve(children))
  {
    hide FindChild;
    if orders != [] {
      var n := |orders| - 1;
      var last := orders[n];
      NautilusResolve(orders[..n], children);
      ImageConcat(NautilusFills(orders[..n], children), OrderFills(last, children), ExecutionOf);
      var said := if FindChild(children, last.clientOrderId).None? then []
                  else Image(last.fills, NoticeOf(last.clientOrderId));
      ImageConcat(NautilusNotices(orders[..n], children), said, Resolve(children));
      assert Image(OrderFills(last, children), ExecutionOf) == Image(said, Resolve(children));
    }
  }

  lemma NautilusFullyFilled(engineOrders: seq<NautilusOrder>, children: seq<Child>, orders: seq<Id>)
    requires DistinctIds(children) && NautilusFillsAll(engineOrders, children)
    ensures FullyFilled(Trace(orders, Sort(NautilusFills(engineOrders, children), TraceLe)), children)
  {
    hide DistinctIds, FindChild, Sort, Image;
    NautilusResolve(engineOrders, children);
    ResolvedIsFull(children, NautilusFills(engineOrders, children), NautilusNotices(engineOrders, children), orders);
  }

  // ---------- the adapters' own validation ----------

  function OrderId(order: Order): Id { order.id }

  function OrderIds(job: Job): seq<Id> { Image(job.orders, OrderId) }

  function ExternalId(fill: FillTrace): string { fill.externalId }

  /** What only the engine decides of a fill: a name, a positive price, a fee that is not negative. */
  ghost predicate Sound(fills: seq<FillTrace>) {
    && (forall f | f in fills :: f.externalId != "" && f.rawPrice > 0.0 && f.rawFees >= 0.0)
    && (forall i, j | 0 <= i < j < |fills| :: fills[i].externalId != fills[j].externalId)
  }

  lemma DistinctPermutes<T>(xs: seq<T>, ys: seq<T>)
    requires multiset(xs) == multiset(ys) && forall i, j | 0 <= i < j < |xs| :: xs[i] != xs[j]
    ensures forall i, j | 0 <= i < j < |ys| :: ys[i] != ys[j]
  {
    forall i: nat, j: nat | i < j < |ys| ensures ys[i] != ys[j] {
      if ys[i] == ys[j] {
        TwiceCounts(ys, i, j);
        var a, b := TwicePositions(xs, ys[i]);
      }
    }
  }

  lemma SoundSorted(fills: seq<FillTrace>)
    requires Sound(fills)
    ensures Sound(Sort(fills, TraceLe))
  {
    hide Sort, Image;
    var sorted := Sort(fills, TraceLe);
    SameElements(sorted, fills);
    ImagePermutation(fills, sorted, ExternalId);
    DistinctPermutes(Image(fills, ExternalId), Image(sorted, ExternalId));
    assert forall i | 0 <= i < |sorted| :: Image(sorted, ExternalId)[i] == sorted[i].externalId;
  }

  /** LEAN's names are distinct because no pair of ids fills twice. */
  lemma LeanSound(events: seq<LeanEvent>, children: seq<Child>)
    requires Readable(events, children)
    requires forall e | e in Filling(events) :: e.price > 0.0 && e.fee >= 0.0
    ensures Sound(LeanFills(events, children))
  {
    hide FindChild, Magnitude, LeanFillId;
    var fills, fs := LeanFills(events, children), Filling(events);
    forall i, j | 0 <= i < j < |fs| ensures fills[i].externalId != fills[j].externalId {
      assert !SamePair(fs[i], fs[j]);
      LeanFillIdInjective(fs[i].orderId, fs[i].eventId, fs[j].orderId, fs[j].eventId);
    }
    forall i | 0 <= i < |fs| ensures fills[i].externalId != "" && fills[i].rawPrice > 0.0 && fills[i].rawFees >= 0.0 {
      assert fs[i] in fs;
      LeanNameNotEmpty(fs[i].orderId, fs[i].eventId);
    }
  }

  predicate Known(children: seq<Child>, order: NautilusOrder) {
    exists c :: c in children && c.childId == order.clientOrderId
  }

  /** What only Nautilus decides of the fills of scheduled orders: distinct trade ids, prices above zero, fees. */
  ghost predicate SoundCache(orders: seq<NautilusOrder>, children: seq<Child>) {
    && (forall o, f | o in orders && Known(children, o) && f in o.fills :: f.tradeId != "" && f.price > 0.0 && f.fee >= 0.0)
    && forall i, a, j, b | 0 <= i < |orders| && 0 <= a < |orders[i].fills| && 0 <= j < |orders| && 0 <= b < |orders[j].fills|
                           && Known(children, orders[i]) && Known(children, orders[j]) && (i != j || a != b) ::
         orders[i].fills[a].tradeId != orders[j].fills[b].tradeId
  }

  /** Every fill that was read is one fill of one scheduled order. */
  lemma {:induction false} NautilusOrigin(orders: seq<NautilusOrder>, children: seq<Child>, k: nat) returns (i: nat, a: nat)
    requires k < |NautilusFills(orders, children)|
    ensures i < |orders| && a < |orders[i].fills| && FindChild(children, orders[i].clientOrderId).Some?
    ensures NautilusFills(orders, children)[k]
         == ReadFill(FindChild(children, orders[i].clientOrderId).value)(orders[i].fills[a])
  {
    hide FindChild;
    var n := |orders| - 1;
    var before := NautilusFills(orders[..n], children);
    if k < |before| {
      i, a := NautilusOrigin(orders[..n], children, k);
    } else {
      i, a := n, k - |before|;
    }
  }

  lemma SoundPrefix(orders: seq<NautilusOrder>, children: seq<Child>, n: nat)
    requires SoundCache(orders, children) && n <= |orders|
    ensures SoundCache(orders[..n], children)
  {
    hide Known;
  }

  lemma SoundLast(orders: seq<NautilusOrder>, children: seq<Child>)
    requires SoundCache(orders, children) && orders != []
    ensures Sound(OrderFills(orders[|orders| - 1], children))
  {
    var order := orders[|orders| - 1];
    hide FindChild;
    if FindChild(children, order.clientOrderId).Some? {
      assert Known(children, order) by { assert FindChild(children, order.clientOrderId).value in children; }
      assert order in orders;
    }
  }

  /** Fills read from different orders have different trade ids. */
  lemma SoundApart(orders: seq<NautilusOrder>, children: seq<Child>, k: nat, l: nat)
    requires SoundCache(orders, children) && orders != []
    requires k < |NautilusFills(orders[..|orders| - 1], children)| && l < |OrderFills(orders[|orders| - 1], children)|
    ensures NautilusFills(orders[..|orders| - 1], children)[k].externalId
         != OrderFills(orders[|orders| - 1], children)[l].externalId
  {
    hide FindChild;
    var n := |orders| - 1;
    var i, a := NautilusOrigin(orders[..n], children, k);
    assert FindChild(children, orders[i].clientOrderId).value in children && FindChild(children, orders[n].clientOrderId).value in children;
    assert Known(children, orders[i]) && Known(children, orders[n]);
  }

  lemma SoundJoins(xs: seq<FillTrace>, ys: seq<FillTrace>)
    requires Sound(xs) && Sound(ys)
    requires forall k, l | 0 <= k < |xs| && 0 <= l < |ys| :: xs[k].externalId != ys[l].externalId
    ensures Sound(xs + ys)
  {
  }

  /** Sound fills of the cache are read as sound fills. */
  lemma {:induction false} NautilusSound(orders: seq<NautilusOrder>, children: seq<Child>)
    requires SoundCache(orders, children)
    ensures Sound(NautilusFills(orders, children))
  {
    if orders != [] {
      hide SoundCache, Sound, OrderFills, Known;
      var n := |orders| - 1;
      SoundPrefix(orders, children, n);
      NautilusSound(orders[..n], children);
      SoundLast(orders, children);
      forall k: nat, l: nat | k < |NautilusFills(orders[..n], children)| && l < |OrderFills(orders[n], children)|
        ensures NautilusFills(orders[..n], children)[k].externalId != OrderFills(orders[n], children)[l].externalId
      {
        SoundApart(orders, children, k, l);
      }
      SoundJoins(NautilusFills(orders[..n], children), OrderFills(orders[n], children));
    }
  }

  lemma LeanNameNotEmpty(orderId: nat, eventId: nat)
    ensures LeanFillId(orderId, eventId) != ""
  {
  }

  lemma ScheduledOwner(plan: Plan, child: Child)
    requires ValidJob(plan.job) && Schedule(plan).Ok? && child in Schedule(plan).value
    ensures child.quantity > 0.0 && exists o :: o in plan.job.orders && o.id == child.orderId
  {
    ScheduleIsSorted(plan);
    SameElements(Schedule(plan).value, FinalBook(plan).children);
    hide ValidJob, Sweep, ChildrenOf, Sort;
    SweepOwners(plan, SortedBars(plan.job), child);
    var k :| 0 <= k < |plan.job.orders| && plan.job.orders[k].id == child.orderId;
    ChildrenInWindow(plan, k, child);
  }

  /** Every fill of a full-fill trace belongs to an order of the job and has quantity. */
  lemma FullTraceOwned(plan: Plan, trace: Trace, f: FillTrace)
    requires ValidJob(plan.job) && Schedule(plan).Ok? && FullyFilled(trace, Schedule(plan).value) && f in trace.fills
    ensures f.quantity > 0.0 && exists o :: o in plan.job.orders && o.id == f.orderId
  {
    hide ValidJob, Schedule;
    var children := Schedule(plan).value;
    var i :| 0 <= i < |trace.fills| && trace.fills[i] == f;
    assert Executions(trace.fills)[i] == ExecutionOf(f);
    SameElements(Executions(trace.fills), Scheduled(children));
    assert ExecutionOf(f) in Scheduled(children);
    var c :| 0 <= c < |children| && Scheduled(children)[c] == ExecutionOf(f);
    ScheduledOwner(plan, children[c]);
  }

  lemma OrdersCovered(job: Job, ids: seq<Id>)
    requires DistinctOrders(job.orders) && multiset(ids) == multiset(OrderIds(job))
    ensures forall o | o in job.orders :: o.id in ids
    ensures forall id | id in ids :: exists o :: o in job.orders && o.id == id
    ensures forall i, j | 0 <= i < j < |ids| :: ids[i] != ids[j]
  {
    SameElements(ids, OrderIds(job));
    DistinctPermutes(OrderIds(job), ids);
    forall o | o in job.orders ensures o.id in ids {
      var k :| 0 <= k < |job.orders| && job.orders[k] == o;
      assert OrderIds(job)[k] == o.id;
    }
    forall id | id in ids ensures exists o :: o in job.orders && o.id == id {
      assert id in OrderIds(job);
      var k :| 0 <= k < |job.orders| && OrderIds(job)[k] == id;
      assert job.orders[k] in job.orders;
    }
  }

  /** A full-fill trace passes `_validate_trace` for anything but what the engine alone decides. */
  lemma FullTraceIsValid(plan: Plan, trace: Trace)
    requires ValidJob(plan.job) && Schedule(plan).Ok? && FullyFilled(trace, Schedule(plan).value)
    requires multiset(trace.orders) == multiset(OrderIds(plan.job)) && Sound(trace.fills)
    ensures ValidTrace(plan.job, trace)
  {
    OrdersCovered(plan.job, trace.orders);
    hide ValidJob, Schedule, FullyFilled, OrderIds;
    forall f | f in trace.fills ensures f.quantity > 0.0 && f.orderId in trace.orders {
      FullTraceOwned(plan, trace, f);
    }
  }

  predicate IdLe(a: Id, b: Id) { a <= b }

  /** LEAN lists the orders as the job does, Nautilus sorted by id. */
  function LeanTrace(job: Job, events: seq<LeanEvent>, children: seq<Child>): Trace
    requires NoneRefused(events, children)
  {
    Trace(OrderIds(job), Sort(LeanFills(events, children), TraceLe))
  }

  function NautilusTrace(job: Job, engineOrders: seq<NautilusOrder>, children: seq<Child>): Trace {
    Trace(Sort(OrderIds(job), IdLe), Sort(NautilusFills(engineOrders, children), TraceLe))
  }

  lemma LeanTraceFull(job: Job, maxChildren: int, events: seq<LeanEvent>)
    requires ValidJob(job) && LeanResult(job, maxChildren).Ok?
    requires Readable(events, LeanResult(job, maxChildren).value)
    requires LeanFillsAll(events, LeanResult(job, maxChildren).value)
    requires forall e | e in Filling(events) :: e.price > 0.0 && e.fee >= 0.0
    ensures FullyFilled(LeanTrace(job, events, LeanResult(job, maxChildren).value), LeanResult(job, maxChildren).value)
    ensures ValidTrace(job, LeanTrace(job, events, LeanResult(job, maxChildren).value))
  {
    hide ValidJob, NoneRefused, DistinctPairs, LeanFillsAll, DistinctIds, Sort, FullyFilled, LeanFills, Schedule;
    hide Filling;
    hide ValidTrace, Sound, OrderIds;
    var plan := Plan(job, maxChildren, Lean);
    var children := LeanResult(job, maxChildren).value;
    ChildIdsDistinct(plan);
    LeanFullyFilled(events, children, OrderIds(job));
    LeanSound(events, children);
    SoundSorted(LeanFills(events, children));
    FullTraceIsValid(plan, LeanTrace(job, events, children));
  }

  lemma NautilusTraceFull(job: Job, maxChildren: int, engineOrders: seq<NautilusOrder>)
    requires ValidJob(job) && NautilusResult(job, maxChildren).Ok?
    requires NautilusFillsAll(engineOrders, NautilusResult(job, maxChildren).value)
    requires SoundCache(engineOrders, NautilusResult(job, maxChildren).value)
    ensures FullyFilled(NautilusTrace(job, engineOrders, NautilusResult(job, maxChildren).value), NautilusResult(job, maxChildren).value)
    ensures ValidTrace(job, NautilusTrace(job, engineOrders, NautilusResult(job, maxChildren).value))
  {
    hide ValidJob, NautilusFillsAll, DistinctIds, Sort, FullyFilled, NautilusFills, Schedule, ValidTrace, Sound, OrderIds,
      SoundCache;
    var plan := Plan(job, maxChildren, Nautilus);
    var children := NautilusResult(job, maxChildren).value;
    ChildIdsDistinct(plan);
    NautilusFullyFilled(engineOrders, children, Sort(OrderIds(job), IdLe));
    NautilusSound(engineOrders, children);
    SoundSorted(NautilusFills(engineOrders, children));
    FullTraceIsValid(plan, NautilusTrace(job, engineOrders, children));
  }

  /**
   Parity from raw engine output. Whatever ids and order the engines use, if each one's output holds
   exactly one full fill per scheduled child, soundly named and priced, both traces are valid and the two
   adapters report the same.
   */
  lemma RawOutputsReportAlike(
    job: Job, maxChildren: int, events: seq<LeanEvent>, engineOrders: seq<NautilusOrder>,
    leanName: FillTrace -> Id, nautilusName: FillTrace -> Id)
    requires ValidJob(job) && LeanResult(job, maxChildren).Ok? && NautilusResult(job, maxChildren).Ok?
    requires Readable(events, LeanResult(job, maxChildren).value)
    requires LeanFillsAll(events, LeanResult(job, maxChildren).value)
    requires forall e | e in Filling(events) :: e.price > 0.0 && e.fee >= 0.0
    requires NautilusFillsAll(engineOrders, NautilusResult(job, maxChildren).value)
    requires SoundCache(engineOrders, NautilusResult(job, maxChildren).value)
    ensures
      var lean := LeanTrace(job, events, LeanResult(job, maxChildren).value);
      var nautilus := NautilusTrace(job, engineOrders, NautilusResult(job, maxChildren).value);
      && ValidTrace(job, lean) && ValidTrace(job, nautilus)
      && (MapResult(job, lean, leanName).Some? <==> MapResult(job, nautilus, nautilusName).Some?)
      && (MapResult(job, lean, leanName).Some? ==>
            MapResult(job, lean, leanName).value.1 == MapResult(job, nautilus, nautilusName).value.1)
  {
    hide ValidJob, ValidTrace, MapResult, NoneRefused, DistinctPairs, LeanFillsAll, NautilusFillsAll, FullyFilled;
    hide LeanTrace, NautilusTrace, Schedule, SoundCache, Filling;
    LeanTraceFull(job, maxChildren, events);
    NautilusTraceFull(job, maxChildren, engineOrders);
    EnginesReportAlike(
      job, maxChildren, LeanTrace(job, events, LeanResult(job, maxChildren).value),
      NautilusTrace(job, engineOrders, NautilusResult(job, maxChildren).value), leanName, nautilusName);
  }
}

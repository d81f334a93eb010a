/**
 Which raw engine output is accepted and what is read from it, event by event, in the engines' own words; and
 that the output of an ordinary run is accepted and reported alike.
 */
module TraceReadings {
  import opened Wrappers
  import opened Sorting
  import opened Sums
  import opened Identifiers
  import opened BacktestContracts
  import opened Allocator
  import opened LeanEngine
  import opened NautilusEngine
  import opened ScheduleTheorems
  import opened Adapter
  import opened Parity
  import opened EngineTraces
  import opened ResultValidation
  import opened ResultLaws

  // ---------- LEAN ----------

  /** An event that LEAN may report for a child: of its own side, filled or partially filled, with both ids. */
  ghost predicate FillsChild(e: LeanEvent, child: Child) {
    && e.childId == child.childId
    && (e.status == "Filled" || e.status == "PartiallyFilled")
    && (child.side == Buy ==> e.direction == "Buy") && (child.side == Sell ==> e.direction == "Sell")
    && e.orderId >= 0 && e.eventId >= 0
  }

  /** No two events with quantity carry the same two ids. */
  ghost predicate PairsApart(events: seq<LeanEvent>) {
    forall i, j | 0 <= i < j < |events| && events[i].fillQuantity != 0.0 && events[j].fillQuantity != 0.0 ::
      events[i].orderId != events[j].orderId || events[i].eventId != events[j].eventId
  }

  /** Every event names a child, every event with quantity may be reported for it, no pair of ids fills twice. */
  ghost predicate Acceptable(events: seq<LeanEvent>, children: seq<Child>) {
    && (forall e | e in events :: exists c :: c in children && c.childId == e.childId && (e.fillQuantity == 0.0 || FillsChild(e, c)))
    && PairsApart(events)
  }

  lemma ChildFound(children: seq<Child>, child: Child)
    requires DistinctIds(children) && child in children
    ensures FindChild(children, child.childId) == Some(child)
  {
    var i: nat :| i < |children| && children[i] == child;
    FoundChild(children, i);
  }

  lemma NotRefused(e: LeanEvent, children: seq<Child>)
    requires DistinctIds(children)
    ensures !Refused(e, children) <==>
            exists c :: c in children && c.childId == e.childId && (e.fillQuantity == 0.0 || FillsChild(e, c))
  {
    hide DistinctIds;
    if c :| c in children && c.childId == e.childId && (e.fillQuantity == 0.0 || FillsChild(e, c)) {
      ChildFound(children, c);
    }
  }

  lemma NoneApart()
    ensures Filling([]) == [] && DistinctPairs([]) && PairsApart([])
  {
  }

  lemma ApartStep(before: seq<LeanEvent>, e: LeanEvent)
    ensures PairsApart(before + [e]) <==>
            && PairsApart(before)
            && (e.fillQuantity != 0.0 ==>
                  forall i | 0 <= i < |before| && before[i].fillQuantity != 0.0 ::
                    before[i].orderId != e.orderId || before[i].eventId != e.eventId)
  {
    var grown := before + [e];
    assert grown[|before|] == e && forall i | 0 <= i < |before| :: grown[i] == before[i];
  }

  /** Ids repeat in the list exactly when they repeat in its filling part. */
  lemma {:induction false} DistinctFilling(events: seq<LeanEvent>)
    ensures DistinctPairs(Filling(events)) <==> PairsApart(events)
  {
    hide Filling, DistinctPairs, PairsApart;
    if events == [] {
      NoneApart();
    } else {
      var n := |events| - 1;
      var before, e := events[..n], events[n];
      DistinctFilling(before);
      assert events == before + [e];
      FillingAppend(before, e);
      ApartStep(before, e);
      if e.fillQuantity != 0.0 {
        DistinctSome(before, e);
      } else {
        assert Filling(before) + [] == Filling(before);
      }
    }
  }

  lemma DistinctShorter(fs: seq<LeanEvent>, e: LeanEvent)
    requires DistinctPairs(fs + [e])
    ensures DistinctPairs(fs)
  {
    hide SamePair;
    assert forall i | 0 <= i < |fs| :: (fs + [e])[i] == fs[i];
  }

  lemma PairIn(before: seq<LeanEvent>, e: LeanEvent)
    ensures (forall k | 0 <= k < |Filling(before)| :: !SamePair(Filling(before)[k], e)) <==>
            forall i | 0 <= i < |before| && before[i].fillQuantity != 0.0 :: !SamePair(before[i], e)
  {
    hide SamePair;
    forall i | 0 <= i < |before| && before[i].fillQuantity != 0.0 ensures before[i] in Filling(before) {
    }
    forall k | 0 <= k < |Filling(before)| ensures Filling(before)[k] in before && Filling(before)[k].fillQuantity != 0.0 {
      assert Filling(before)[k] in Filling(before);
    }
  }

  lemma DistinctSome(before: seq<LeanEvent>, e: LeanEvent)
    requires e.fillQuantity != 0.0
    ensures DistinctPairs(Filling(before) + [e]) <==>
            DistinctPairs(Filling(before))
            && forall i | 0 <= i < |before| && before[i].fillQuantity != 0.0 ::
                 before[i].orderId != e.orderId || before[i].eventId != e.eventId
  {
    hide Filling, DistinctPairs;
    PairIn(before, e);
    if DistinctPairs(Filling(before) + [e]) {
      DistinctShorter(Filling(before), e);
    }
    if DistinctPairs(Filling(before)) {
      DistinctGrows(Filling(before), e);
    }
  }

  /** LEAN's event list is read exactly when it is acceptable. */
  lemma ParsesExactly(events: seq<LeanEvent>, children: seq<Child>)
    requires DistinctIds(children)
    ensures ParsedEvents(events, children).Some? <==> Acceptable(events, children)
  {
    hide DistinctIds, Refused, Filling, DistinctPairs, FillsChild, Sort, PairsApart;
    DistinctFilling(events);
    forall e | e in events
      ensures !Refused(e, children) <==>
              exists c :: c in children && c.childId == e.childId && (e.fillQuantity == 0.0 || FillsChild(e, c))
    {
      NotRefused(e, children);
    }
  }

  /** The text of an id writes the id. */
  lemma DecimalReads(n: nat)
    ensures ValueOf(Decimal(n), 10) == n && |Decimal(n)| > 0 && (n > 0 ==> Decimal(n)[0] != '0')
  {
    var width := if n == 0 then 1 else DecimalWidth(n);
    assert Power(10, 1) == 10;
    DigitsWrite(n, 10, width);
    if n > 0 {
      LeadingDigit(n);
    }
  }

  lemma FirstOfMore(n: nat, width: nat)
    requires width > 0
    ensures width == 1 ==> Digits(n, 10, width)[0] == HEX[n % 10]
    ensures width > 1 ==> Digits(n, 10, width)[0] == Digits(n / 10, 10, width - 1)[0]
  {
  }

  lemma {:induction false} LeadingDigit(n: nat)
    requires n > 0
    ensures DecimalWidth(n) > 0 && Digits(n, 10, DecimalWidth(n))[0] != '0'
  {
    hide Digits;
    FirstOfMore(n, DecimalWidth(n));
    if n >= 10 {
      LeadingDigit(n / 10);
    } else {
      assert DecimalWidth(n / 10) == 0 && n % 10 == n;
      assert forall d | 0 < d < 10 :: HEX[d] != '0';
    }
  }

  /** What is read of an event: its quantity without sign, its price and fee, the child's order, bar and time. */
  ghost predicate ReadOff(f: FillTrace, e: LeanEvent, child: Child) {
    && e.orderId >= 0 && e.eventId >= 0
    && f.externalId == "L-" + Decimal(e.orderId) + "-" + Decimal(e.eventId)
    && f.quantity > 0.0 && (f.quantity == e.fillQuantity || f.quantity == -e.fillQuantity)
    && f.rawPrice == e.price && f.rawFees == e.fee
    && f.orderId == child.orderId && f.occurredAt == child.opensAt && f.barId == child.barId
  }

  ghost predicate ByTimeThenName(fills: seq<FillTrace>) {
    forall i, j | 0 <= i < j < |fills| ::
      || fills[i].occurredAt < fills[j].occurredAt
      || (fills[i].occurredAt == fills[j].occurredAt && StringLe(fills[i].externalId, fills[j].externalId))
  }

  lemma TraceOrder()
    ensures TotalPreorder(TraceLe)
  {
    hide StringLe;
    forall a, b ensures TraceLe(a, b) || TraceLe(b, a) {
      StringLeTotal(a.externalId, b.externalId);
    }
    forall a, b, c | TraceLe(a, b) && TraceLe(b, c) ensures TraceLe(a, c) {
      if a.occurredAt == b.occurredAt == c.occurredAt {
        StringLeTransitive(a.externalId, b.externalId, c.externalId);
      }
    }
  }

  lemma TracesSorted(fills: seq<FillTrace>)
    ensures ByTimeThenName(Sort(fills, TraceLe))
  {
    TraceOrder();
    SortSorted(fills, TraceLe);
  }

  lemma NameIs(orderId: nat, eventId: nat)
    ensures LeanFillId(orderId, eventId) == "L-" + Decimal(orderId) + "-" + Decimal(eventId)
  {
    hide Decimal;
    assert "L-" + (Decimal(orderId) + ("-" + Decimal(eventId))) == "L-" + Decimal(orderId) + "-" + Decimal(eventId);
  }

  lemma LeanFillReads(e: LeanEvent, child: Child)
    requires e.orderId >= 0 && e.eventId >= 0 && e.fillQuantity != 0.0
    ensures ReadOff(LeanFill(e, child), e, child)
  {
    NameIs(e.orderId, e.eventId);
    hide LeanFillId, Decimal;
  }

  lemma LeanFillAt(events: seq<LeanEvent>, children: seq<Child>, k: nat) returns (e: LeanEvent, child: Child)
    requires NoneRefused(events, children) && k < |Filling(events)|
    ensures e == Filling(events)[k] && e in events && e.fillQuantity != 0.0
    ensures FindChild(children, e.childId) == Some(child) && child in children && child.childId == e.childId
    ensures ReadOff(LeanFills(events, children)[k], e, child)
  {
    e := Filling(events)[k];
    assert e in Filling(events);
    child := FindChild(children, e.childId).value;
    hide FindChild, Filling;
    LeanFillReads(e, child);
  }

  /** Every event with quantity is read as a fill of its child. */
  ghost predicate EveryEventRead(events: seq<LeanEvent>, children: seq<Child>, fills: seq<FillTrace>) {
    forall e, c | e in events && c in children && c.childId == e.childId && e.fillQuantity != 0.0 ::
      exists f :: f in fills && ReadOff(f, e, c)
  }

  ghost predicate EveryFillReported(events: seq<LeanEvent>, children: seq<Child>, fills: seq<FillTrace>) {
    forall f | f in fills :: exists e, c :: e in events && c in children && c.childId == e.childId && ReadOff(f, e, c)
  }

  ghost predicate NamesDiffer(fills: seq<FillTrace>) {
    forall i, j | 0 <= i < j < |fills| :: fills[i].externalId != fills[j].externalId
  }

  /**
   The fills that are read: one for every event with quantity and no other, each under its own name, by time and
   then by name.
   */
  lemma ParsedReads(events: seq<LeanEvent>, children: seq<Child>)
    requires DistinctIds(children) && ParsedEvents(events, children).Some?
    ensures var fills := ParsedEvents(events, children).value;
            && EveryEventRead(events, children, fills) && EveryFillReported(events, children, fills)
            && NamesDiffer(fills) && ByTimeThenName(fills)
  {
    hide DistinctIds, LeanFills, Sort, DistinctPairs, Refused, Filling, ByTimeThenName, EveryEventRead;
    hide EveryFillReported, NamesDiffer;
    var read, fills := LeanFills(events, children), ParsedEvents(events, children).value;
    TracesSorted(read);
    SameElements(fills, read);
    EventsAreRead(events, children, fills);
    FillsAreReported(events, children, fills);
    NamesApart(events, children);
  }

  lemma EventsAreRead(events: seq<LeanEvent>, children: seq<Child>, fills: seq<FillTrace>)
    requires DistinctIds(children) && NoneRefused(events, children)
    requires forall f | f in LeanFills(events, children) :: f in fills
    ensures EveryEventRead(events, children, fills)
  {
    hide DistinctIds, FindChild, Filling, LeanFills, ReadOff, Refused;
    forall e, c | e in events && c in children && c.childId == e.childId && e.fillQuantity != 0.0
      ensures exists f :: f in fills && ReadOff(f, e, c)
    {
      var f := FillOf(events, children, e, c);
    }
  }

  lemma FillsAreReported(events: seq<LeanEvent>, children: seq<Child>, fills: seq<FillTrace>)
    requires NoneRefused(events, children)
    requires forall f | f in fills :: f in LeanFills(events, children)
    ensures EveryFillReported(events, children, fills)
  {
    hide FindChild, Filling, ReadOff, Refused;
    var read := LeanFills(events, children);
    forall f | f in fills ensures exists e, c :: e in events && c in children && c.childId == e.childId && ReadOff(f, e, c) {
      var k: nat :| k < |read| && read[k] == f;
      var e, c := LeanFillAt(events, children, k);
    }
  }

  lemma FillOf(events: seq<LeanEvent>, children: seq<Child>, e: LeanEvent, c: Child) returns (f: FillTrace)
    requires DistinctIds(children) && NoneRefused(events, children)
    requires e in events && c in children && c.childId == e.childId && e.fillQuantity != 0.0
    ensures f in LeanFills(events, children) && ReadOff(f, e, c)
  {
    hide DistinctIds, FindChild, ReadOff, Refused;
    ChildFound(children, c);
    assert e in Filling(events);
    var k: nat :| k < |Filling(events)| && Filling(events)[k] == e;
    var e', c' := LeanFillAt(events, children, k);
    f := LeanFills(events, children)[k];
  }

  lemma NamesApart(events: seq<LeanEvent>, children: seq<Child>)
    requires Readable(events, children)
    ensures var fills := Sort(LeanFills(events, children), TraceLe);
            NamesDiffer(fills)
  {
    hide FindChild, Magnitude, LeanFillId, Sort, Image;
    var read, fs := LeanFills(events, children), Filling(events);
    forall i, j | 0 <= i < j < |fs| ensures read[i].externalId != read[j].externalId {
      assert !SamePair(fs[i], fs[j]);
      LeanFillIdInjective(fs[i].orderId, fs[i].eventId, fs[j].orderId, fs[j].eventId);
    }
    var fills := Sort(read, TraceLe);
    ImagePermutation(read, fills, ExternalId);
    SameElements(fills, read);
    DistinctPermutes(Image(read, ExternalId), Image(fills, ExternalId));
    assert forall i | 0 <= i < |fills| :: Image(fills, ExternalId)[i] == fills[i].externalId;
  }

  // ---------- Nautilus ----------

  lemma KnownIs(children: seq<Child>, order: NautilusOrder)
    ensures Known(children, order) <==> FindChild(children, order.clientOrderId).Some?
  {
  }

  /** The cache is read exactly when every fill of a scheduled child happened at its bar's open. */
  lemma ExtractsExactly(orders: seq<NautilusOrder>, children: seq<Child>)
    requires DistinctIds(children)
    ensures ExtractedFills(orders, children).Some? <==>
            forall o, c, f | o in orders && c in children && o.clientOrderId == c.childId && f in o.fills :: f.at == c.opensAt
  {
    hide DistinctIds, FindChild, Sort, NautilusFills;
    forall o, c | o in orders && c in children && o.clientOrderId == c.childId
      ensures FindChild(children, o.clientOrderId) == Some(c)
    {
      ChildFound(children, c);
    }
    forall o | o in orders && FindChild(children, o.clientOrderId).Some?
      ensures FindChild(children, o.clientOrderId).value in children
      ensures FindChild(children, o.clientOrderId).value.childId == o.clientOrderId
    {
    }
  }

  /** What is read of a fill in the cache. */
  ghost predicate CacheFill(t: FillTrace, f: NautilusFill, child: Child) {
    && t.externalId == f.tradeId && t.quantity == f.quantity && t.rawPrice == f.price && t.rawFees == f.fee
    && t.orderId == child.orderId && t.occurredAt == child.opensAt && t.barId == child.barId
  }

  ghost predicate EveryCacheFillRead(orders: seq<NautilusOrder>, children: seq<Child>, fills: seq<FillTrace>) {
    forall o, c, f | o in orders && c in children && o.clientOrderId == c.childId && f in o.fills ::
      exists t :: t in fills && CacheFill(t, f, c)
  }

  ghost predicate EveryFillCached(orders: seq<NautilusOrder>, children: seq<Child>, fills: seq<FillTrace>) {
    forall t | t in fills ::
      exists o, c, f :: o in orders && c in children && o.clientOrderId == c.childId && f in o.fills && CacheFill(t, f, c)
  }

  function FillCount(children: seq<Child>): NautilusOrder -> real {
    (o: NautilusOrder) => if Known(children, o) then |o.fills| as real else 0.0
  }

  lemma {:induction false} AllRead(orders: seq<NautilusOrder>, children: seq<Child>, i: nat, a: nat, c: Child)
    requires i < |orders| && a < |orders[i].fills| && FindChild(children, orders[i].clientOrderId) == Some(c)
    ensures ReadFill(c)(orders[i].fills[a]) in NautilusFills(orders, children)
  {
    hide FindChild;
    var n := |orders| - 1;
    if i < n {
      AllRead(orders[..n], children, i, a, c);
    } else {
      assert OrderFills(orders[n], children)[a] == ReadFill(c)(orders[i].fills[a]);
    }
  }

  lemma {:induction false} CountRead(orders: seq<NautilusOrder>, children: seq<Child>)
    ensures |NautilusFills(orders, children)| as real == Sum(orders, FillCount(children))
  {
    if orders != [] {
      hide FindChild, Known;
      CountRead(orders[..|orders| - 1], children);
      KnownIs(children, orders[|orders| - 1]);
    }
  }

  lemma CacheIsRead(orders: seq<NautilusOrder>, children: seq<Child>, fills: seq<FillTrace>)
    requires DistinctIds(children) && forall t | t in NautilusFills(orders, children) :: t in fills
    ensures EveryCacheFillRead(orders, children, fills)
  {
    hide DistinctIds, FindChild, NautilusFills;
    forall o, c, f | o in orders && c in children && o.clientOrderId == c.childId && f in o.fills
      ensures exists t :: t in fills && CacheFill(t, f, c)
    {
      ChildFound(children, c);
      var i: nat :| i < |orders| && orders[i] == o;
      var a: nat :| a < |o.fills| && o.fills[a] == f;
      AllRead(orders, children, i, a, c);
      assert CacheFill(ReadFill(c)(f), f, c);
    }
  }

  lemma FillsAreCached(orders: seq<NautilusOrder>, children: seq<Child>, fills: seq<FillTrace>)
    requires forall t | t in fills :: t in NautilusFills(orders, children)
    ensures EveryFillCached(orders, children, fills)
  {
    hide FindChild, NautilusFills;
    forall t | t in fills
      ensures exists o, c, f :: o in orders && c in children && o.clientOrderId == c.childId && f in o.fills && CacheFill(t, f, c)
    {
      var k: nat :| k < |NautilusFills(orders, children)| && NautilusFills(orders, children)[k] == t;
      var i, a := NautilusOrigin(orders, children, k);
      var c := FindChild(children, orders[i].clientOrderId).value;
      assert orders[i].fills[a] in orders[i].fills && CacheFill(t, orders[i].fills[a], c);
    }
  }

  /** The fills that are read: every fill of a scheduled order, no other and none twice, by time and then by name. */
  lemma ExtractedReads(orders: seq<NautilusOrder>, children: seq<Child>)
    requires DistinctIds(children) && ExtractedFills(orders, children).Some?
    ensures var fills := ExtractedFills(orders, children).value;
            && EveryCacheFillRead(orders, children, fills) && EveryFillCached(orders, children, fills)
            && |fills| as real == Sum(orders, FillCount(children))
            && ByTimeThenName(fills)
  {
    hide DistinctIds, NautilusFills, Sort, ByTimeThenName, EveryCacheFillRead, EveryFillCached, Timely, FillCount;
    var read, fills := NautilusFills(orders, children), ExtractedFills(orders, children).value;
    TracesSorted(read);
    SameElements(fills, read);
    CacheIsRead(orders, children, fills);
    FillsAreCached(orders, children, fills);
    CountRead(orders, children);
  }

  // ---------- an ordinary run ----------

  /**
   One event per child, in any order: "Filled", in the word of the child's side, with the child's quantity, which
   LEAN gives a negative sign for a SELL, under its own pair of ids, at some price and fee.
   */
  ghost predicate OrdinaryEvents(events: seq<LeanEvent>, matched: seq<Child>) {
    && |events| == |matched|
    && (forall i | 0 <= i < |events| ::
          && events[i].childId == matched[i].childId && events[i].status == "Filled"
          && events[i].direction == (if matched[i].side == Buy then "Buy" else "Sell")
          && events[i].fillQuantity == (if matched[i].side == Buy then matched[i].quantity else -matched[i].quantity)
          && events[i].orderId >= 0 && events[i].eventId >= 0 && events[i].price > 0.0 && events[i].fee >= 0.0)
    && forall i, j | 0 <= i < j < |events| ::
         events[i].orderId != events[j].orderId || events[i].eventId != events[j].eventId
  }

  /** One order per child, in any order, filled once and in full at its bar's open, under its own trade id. */
  ghost predicate OrdinaryCache(orders: seq<NautilusOrder>, matched: seq<Child>) {
    && |orders| == |matched|
    && (forall i | 0 <= i < |orders| ::
          && orders[i].clientOrderId == matched[i].childId && |orders[i].fills| == 1
          && orders[i].fills[0].quantity == matched[i].quantity && orders[i].fills[0].at == matched[i].opensAt
          && orders[i].fills[0].tradeId != "" && orders[i].fills[0].price > 0.0 && orders[i].fills[0].fee >= 0.0)
    && forall i, j | 0 <= i < j < |orders| :: orders[i].fills[0].tradeId != orders[j].fills[0].tradeId
  }

  lemma NoneFilling()
    ensures Filling([]) == []
  {
  }

  lemma {:induction false} AllFilling(events: seq<LeanEvent>)
    requires forall i | 0 <= i < |events| :: events[i].fillQuantity != 0.0
    ensures Filling(events) == events
  {
    hide Filling;
    if events == [] {
      NoneFilling();
    } else {
      var n := |events| - 1;
      AllFilling(events[..n]);
      assert events == events[..n] + [events[n]];
      FillingAppend(events[..n], events[n]);
    }
  }

  lemma OrdinaryAcceptable(events: seq<LeanEvent>, children: seq<Child>, matched: seq<Child>)
    requires OrdinaryEvents(events, matched) && forall c | c in matched :: c in children
    ensures Acceptable(events, children)
  {
    forall e | e in events ensures exists c :: c in children && c.childId == e.childId && (e.fillQuantity == 0.0 || FillsChild(e, c)) {
      var i :| 0 <= i < |events| && events[i] == e;
      assert matched[i] in matched;
      assert FillsChild(e, matched[i]);
    }
  }

  lemma OrdinaryFillsAll(events: seq<LeanEvent>, children: seq<Child>, matched: seq<Child>)
    requires OrdinaryEvents(events, matched) && multiset(matched) == multiset(children)
    requires forall c | c in matched :: c.quantity > 0.0
    ensures LeanFillsAll(events, children)
  {
    forall i | 0 <= i < |events| ensures events[i].fillQuantity != 0.0 && LeanNotice(events[i]) == ChildNotice(matched[i]) {
      assert matched[i] in matched;
    }
    AllFilling(events);
    assert Image(events, LeanNotice) == Image(matched, ChildNotice);
    ImagePermutation(matched, children, ChildNotice);
  }

  /** LEAN's output of an ordinary run is read, and fills every child. */
  lemma OrdinaryEventsRead(events: seq<LeanEvent>, children: seq<Child>, matched: seq<Child>, orders: seq<Id>)
    requires DistinctIds(children) && multiset(matched) == multiset(children) && forall c | c in children :: c.quantity > 0.0
    requires OrdinaryEvents(events, matched)
    ensures ParsedEvents(events, children).Some?
    ensures FullyFilled(Trace(orders, ParsedEvents(events, children).value), children)
  {
    hide DistinctIds, OrdinaryEvents, Acceptable, LeanFillsAll, FullyFilled, Readable, LeanFills, Sort;
    SameElements(matched, children);
    OrdinaryAcceptable(events, children, matched);
    ParsesExactly(events, children);
    OrdinaryFillsAll(events, children, matched);
    LeanFullyFilled(events, children, orders);
  }

  lemma LastNotice(orders: seq<NautilusOrder>, children: seq<Child>, matched: seq<Child>)
    requires OrdinaryCache(orders, matched) && orders != [] && matched[|matched| - 1] in children
    ensures var n := |orders| - 1;
            && FindChild(children, orders[n].clientOrderId).Some?
            && Image(orders[n].fills, NoticeOf(orders[n].clientOrderId)) == [ChildNotice(matched[n])]
  {
    hide FindChild;
    var n := |orders| - 1;
    assert FindChild(children, orders[n].clientOrderId).Some?;
  }

  lemma OrdinaryPrefix(orders: seq<NautilusOrder>, matched: seq<Child>)
    requires OrdinaryCache(orders, matched) && orders != []
    ensures OrdinaryCache(orders[..|orders| - 1], matched[..|orders| - 1])
  {
  }

  lemma NoticesStep(orders: seq<NautilusOrder>, children: seq<Child>, matched: seq<Child>)
    requires |orders| == |matched| && orders != []
    requires var n := |orders| - 1;
             && NautilusNotices(orders[..n], children) == Image(matched[..n], ChildNotice)
             && FindChild(children, orders[n].clientOrderId).Some?
             && Image(orders[n].fills, NoticeOf(orders[n].clientOrderId)) == [ChildNotice(matched[n])]
    ensures NautilusNotices(orders, children) == Image(matched, ChildNotice)
  {
    hide FindChild;
    assert matched == matched[..|orders| - 1] + [matched[|orders| - 1]];
  }

  lemma {:induction false} OrdinaryNotices(orders: seq<NautilusOrder>, children: seq<Child>, matched: seq<Child>)
    requires |orders| == |matched| && OrdinaryCache(orders, matched) && forall c | c in matched :: c in children
    ensures NautilusNotices(orders, children) == Image(matched, ChildNotice)
  {
    hide OrdinaryCache, FindChild, Image;
    if orders == [] {
      NoNotices(children);
    } else {
      var n := |orders| - 1;
      OrdinaryPrefix(orders, matched);
      OrdinaryNotices(orders[..n], children, matched[..n]);
      assert matched[n] in matched;
      LastNotice(orders, children, matched);
      NoticesStep(orders, children, matched);
    }
  }

  lemma NoNotices(children: seq<Child>)
    ensures NautilusNotices([], children) == Image([], ChildNotice)
  {
  }

  lemma OrdinarySound(orders: seq<NautilusOrder>, children: seq<Child>, matched: seq<Child>)
    requires OrdinaryCache(orders, matched)
    ensures SoundCache(orders, children)
  {
    hide Known;
    forall o, f | o in orders && f in o.fills ensures f.tradeId != "" && f.price > 0.0 && f.fee >= 0.0 {
      var i :| 0 <= i < |orders| && orders[i] == o;
      var a :| 0 <= a < |o.fills| && o.fills[a] == f;
      assert a == 0;
    }
  }

  lemma OrdinaryTimely(orders: seq<NautilusOrder>, children: seq<Child>, matched: seq<Child>)
    requires DistinctIds(children) && OrdinaryCache(orders, matched) && forall c | c in matched :: c in children
    ensures ExtractedFills(orders, children).Some?
  {
    hide DistinctIds, FindChild, Sort, NautilusFills;
    forall o | o in orders ensures Timely(o, children) {
      var i :| 0 <= i < |orders| && orders[i] == o;
      assert matched[i] in matched;
      ChildFound(children, matched[i]);
      assert forall f | f in o.fills :: f == o.fills[0];
    }
  }

  /** The cache of an ordinary run is read, and fills every child. */
  lemma OrdinaryCacheRead(orders: seq<NautilusOrder>, children: seq<Child>, matched: seq<Child>, ids: seq<Id>)
    requires DistinctIds(children) && multiset(matched) == multiset(children) && OrdinaryCache(orders, matched)
    ensures ExtractedFills(orders, children).Some?
    ensures FullyFilled(Trace(ids, ExtractedFills(orders, children).value), children)
    ensures SoundCache(orders, children)
  {
    assert |orders| == |matched|;
    hide DistinctIds, FullyFilled, NautilusFills, NautilusNotices, Sort, Image, OrdinaryCache, SoundCache, Timely;
    SameElements(matched, children);
    OrdinaryNotices(orders, children, matched);
    OrdinaryTimely(orders, children, matched);
    OrdinarySound(orders, children, matched);
    ImagePermutation(matched, children, ChildNotice);
    NautilusFullyFilled(orders, children, ids);
  }

  lemma ScheduledQuantities(plan: Plan)
    requires ValidJob(plan.job) && Schedule(plan).Ok?
    ensures DistinctIds(Schedule(plan).value) && forall c | c in Schedule(plan).value :: c.quantity > 0.0
  {
    ChildIdsDistinct(plan);
    hide ValidJob, Schedule, DistinctIds;
    forall c | c in Schedule(plan).value ensures c.quantity > 0.0 {
      ScheduledOwner(plan, c);
    }
  }

  lemma OrdinaryLeanTrace(job: Job, maxChildren: int, events: seq<LeanEvent>, matched: seq<Child>)
    requires ValidJob(job) && LeanResult(job, maxChildren).Ok?
    requires multiset(matched) == multiset(LeanResult(job, maxChildren).value) && OrdinaryEvents(events, matched)
    ensures ParsedEvents(events, LeanResult(job, maxChildren).value).Some?
    ensures var trace := Trace(OrderIds(job), ParsedEvents(events, LeanResult(job, maxChildren).value).value);
            ValidTrace(job, trace) && FullyFilled(trace, LeanResult(job, maxChildren).value)
  {
    var children := LeanResult(job, maxChildren).value;
    ScheduledQuantities(Plan(job, maxChildren, Lean));
    OrdinaryEventsRead(events, children, matched, OrderIds(job));
    hide ValidJob, Schedule, DistinctIds, OrdinaryEvents, Filling, Refused, DistinctPairs, Sort, ValidTrace;
    hide FullyFilled, LeanFills;
    SameElements(matched, children);
    OrdinaryFillsAll(events, children, matched);
    OrdinaryPrices(events, matched);
    LeanTraceFull(job, maxChildren, events);
  }

  lemma OrdinaryPrices(events: seq<LeanEvent>, matched: seq<Child>)
    requires OrdinaryEvents(events, matched)
    ensures forall e | e in Filling(events) :: e.price > 0.0 && e.fee >= 0.0
  {
  }

  lemma OrdinaryNautilusTrace(job: Job, maxChildren: int, orders: seq<NautilusOrder>, matched: seq<Child>)
    requires ValidJob(job) && NautilusResult(job, maxChildren).Ok?
    requires multiset(matched) == multiset(NautilusResult(job, maxChildren).value) && OrdinaryCache(orders, matched)
    ensures ExtractedFills(orders, NautilusResult(job, maxChildren).value).Some?
    ensures var trace := Trace(Sort(OrderIds(job), IdLe), ExtractedFills(orders, NautilusResult(job, maxChildren).value).value);
            ValidTrace(job, trace) && FullyFilled(trace, NautilusResult(job, maxChildren).value)
  {
    var plan := Plan(job, maxChildren, Nautilus);
    ScheduledQuantities(plan);
    hide ValidJob, Schedule, DistinctIds, OrdinaryCache, Sort, ValidTrace, FullyFilled, NautilusFills, Sound;
    hide SoundCache, Timely;
    var children := NautilusResult(job, maxChildren).value;
    OrdinaryCacheRead(orders, children, matched, Sort(OrderIds(job), IdLe));
    NautilusSound(orders, children);
    SoundSorted(NautilusFills(orders, children));
    FullTraceIsValid(plan, Trace(Sort(OrderIds(job), IdLe), ExtractedFills(orders, children).value));
  }

  /**
   Ordinary runs are never refused for their output. Whatever order, ids, prices and fees the engines report,
   both traces are valid, both adapters accept them exactly when no balance goes wrong, and they report the same.
   */
  lemma OrdinaryRunsReportAlike(
    job: Job, maxChildren: int, events: seq<LeanEvent>, engineOrders: seq<NautilusOrder>,
    leanMatch: seq<Child>, nautilusMatch: seq<Child>, leanName: FillTrace -> Id, nautilusName: FillTrace -> Id)
    requires ValidJob(job) && LeanResult(job, maxChildren).Ok? && NautilusResult(job, maxChildren).Ok?
    requires multiset(leanMatch) == multiset(LeanResult(job, maxChildren).value) && OrdinaryEvents(events, leanMatch)
    requires multiset(nautilusMatch) == multiset(NautilusResult(job, maxChildren).value)
    requires OrdinaryCache(engineOrders, nautilusMatch)
    ensures ParsedEvents(events, LeanResult(job, maxChildren).value).Some?
    ensures ExtractedFills(engineOrders, NautilusResult(job, maxChildren).value).Some?
    ensures
      var lean := Trace(OrderIds(job), ParsedEvents(events, LeanResult(job, maxChildren).value).value);
      var nautilus := Trace(Sort(OrderIds(job), IdLe), ExtractedFills(engineOrders, NautilusResult(job, maxChildren).value).value);
      && (MapResult(job, lean, leanName).Some? <==> exists bodies :: Mapped(job, lean, bodies) && BalancesKept(job, bodies))
      && (MapResult(job, lean, leanName).Some? <==> MapResult(job, nautilus, nautilusName).Some?)
      && (MapResult(job, lean, leanName).Some? ==>
            MapResult(job, lean, leanName).value.1 == MapResult(job, nautilus, nautilusName).value.1)
  {
    hide *;
    OrdinaryLeanTrace(job, maxChildren, events, leanMatch);
    OrdinaryNautilusTrace(job, maxChildren, engineOrders, nautilusMatch);
    var lean := Trace(OrderIds(job), ParsedEvents(events, LeanResult(job, maxChildren).value).value);
    var nautilus := Trace(Sort(OrderIds(job), IdLe), ExtractedFills(engineOrders, NautilusResult(job, maxChildren).value).value);
    EnginesReportAlike(job, maxChildren, lean, nautilus, leanName, nautilusName);
    FullTraceBalances(job, maxChildren, lean, leanName);
  }

  lemma FullTraceBalances(job: Job, maxChildren: int, trace: Trace, name: FillTrace -> Id)
    requires ValidJob(job) && LeanResult(job, maxChildren).Ok?
    requires ValidTrace(job, trace) && FullyFilled(trace, LeanResult(job, maxChildren).value)
    ensures MapResult(job, trace, name).Some? <==> exists bodies :: Mapped(job, trace, bodies) && BalancesKept(job, bodies)
  {
    var plan := Plan(job, maxChildren, Lean);
    LeanIsScheduled(job, maxChildren);
    hide *;
    ResultExactly(job, trace, name);
    CoveredIs(job, trace);
    forall o | o in job.orders ensures FilledBy(trace, o.id) <= o.quantity {
      FilledWithin(plan, trace, o);
    }
  }

  lemma LeanIsScheduled(job: Job, maxChildren: int)
    requires LeanResult(job, maxChildren).Ok?
    ensures Schedule(Plan(job, maxChildren, Lean)) == LeanResult(job, maxChildren)
  {
  }

  lemma FilledWithin(plan: Plan, trace: Trace, order: Order)
    requires ValidJob(plan.job) && Schedule(plan).Ok? && FullyFilled(trace, Schedule(plan).value) && order in plan.job.orders
    ensures FilledBy(trace, order.id) <= order.quantity
  {
    hide ValidJob, Schedule, FullyFilled, PriceAll, FilledTotal, FilledBy, FinalBook, Mapped;
    FilledTracePrices(plan, trace);
    var bodies := PriceAll(plan.job, Executions(trace.fills)).value;
    var k: nat :| k < |plan.job.orders| && plan.job.orders[k] == order;
    OutcomesFollowSchedule(plan, trace, bodies, k);
    MappedExactly(plan.job, trace, bodies);
    FilledIs(plan.job, trace, bodies, order.id);
  }
}

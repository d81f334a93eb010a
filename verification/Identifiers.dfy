/**
 The textual identifiers the engines sort by: fixed-width hexadecimal UUIDs and child ids of
 the form "B<uuid hex>-<index, zero padded to seven digits>".
 */
module Identifiers {

  const HEX := "0123456789abcdef"
  const UUID_DIGITS: nat := 32
  const INDEX_WIDTH: nat := 7
  const PADDED_LIMIT: nat := 10_000_000

  /** Python's string order, by character then by length. */
  predicate StringLe(s: string, t: string) {
    if s == [] then true
    else if t == [] then false
    else if s[0] != t[0] then s[0] < t[0]
    else StringLe(s[1..], t[1..])
  }

  lemma {:induction false} StringLeTotal(s: string, t: string)
    ensures StringLe(s, t) || StringLe(t, s)
    ensures StringLe(s, t) && StringLe(t, s) ==> s == t
  {
    if s != [] && t != [] && s[0] == t[0] {
      StringLeTotal(s[1..], t[1..]);
      assert s == [s[0]] + s[1..] && t == [t[0]] + t[1..];
    }
  }

  lemma {:induction false} StringLeTransitive(s: string, t: string, u: string)
    requires StringLe(s, t) && StringLe(t, u)
    ensures StringLe(s, u)
  {
    if s != [] && t != [] && u != [] && s[0] == t[0] == u[0] {
      StringLeTransitive(s[1..], t[1..], u[1..]);
    }
  }

  /** A common prefix does not change how two strings compare. */
  lemma {:induction false} StringLePrefix(p: string, s: string, t: string)
    ensures StringLe(p + s, p + t) <==> StringLe(s, t)
  {
    if p == [] {
      assert p + s == s && p + t == t;
    } else {
      assert (p + s)[1..] == p[1..] + s && (p + t)[1..] == p[1..] + t;
      StringLePrefix(p[1..], s, t);
    }
  }

  lemma {:induction false} StringLeLast(s: string, t: string, a: char, b: char)
    requires |s| == |t|
    ensures StringLe(s + [a], t + [b]) <==> if s == t then a <= b else StringLe(s, t)
  {
    if s == [] {
      assert s + [a] == [a] && t + [b] == [b];
    } else {
      assert (s + [a])[1..] == s[1..] + [a] && (t + [b])[1..] == t[1..] + [b];
      assert s == [s[0]] + s[1..] && t == [t[0]] + t[1..];
      if s[0] == t[0] {
        StringLeLast(s[1..], t[1..], a, b);
      }
    }
  }

  function Power(base: nat, exponent: nat): nat {
    if exponent == 0 then 1 else base * Power(base, exponent - 1)
  }

  /** The last `width` digits of `n`, most significant first. */
  function Digits(n: nat, base: nat, width: nat): (r: string)
    requires 2 <= base <= 16
    ensures |r| == width
  {
    if width == 0 then "" else Digits(n / base, base, width - 1) + [HEX[n % base]]
  }

  lemma DivideOrder(n: nat, m: nat, base: nat)
    requires base >= 2
    ensures n <= m <==> n / base < m / base || (n / base == m / base && n % base <= m % base)
  {
    var q, r, q', r' := n / base, n % base, m / base, m % base;
    assert n == base * q + r && m == base * q' + r';
    if q < q' {
      assert base * (q + 1) <= base * q';
    } else if q > q' {
      assert base * (q' + 1) <= base * q;
    }
  }

  lemma DivideBound(n: nat, base: nat, limit: nat)
    requires base >= 2 && n < base * limit
    ensures n / base < limit
  {
  }

  lemma QuotientFits(n: nat, base: nat, width: nat)
    requires base >= 2 && width > 0 && n < Power(base, width)
    ensures n / base < Power(base, width - 1)
  {
    DivideBound(n, base, Power(base, width - 1));
  }

  lemma HexOrder(d: nat, e: nat)
    requires d < 16 && e < 16
    ensures HEX[d] <= HEX[e] <==> d <= e
  {
  }

  /** One digit more: the leading digits decide unless they agree. */
  lemma LastDigit(s: string, t: string, d: nat, e: nat)
    requires |s| == |t| && d < 16 && e < 16
    ensures StringLe(s + [HEX[d]], t + [HEX[e]]) <==> if s == t then d <= e else StringLe(s, t)
    ensures s + [HEX[d]] == t + [HEX[e]] <==> s == t && d == e
  {
    hide StringLe;
    var a, b := HEX[d], HEX[e];
    StringLeLast(s, t, a, b);
    HexOrder(d, e);
    HexOrder(e, d);
    assert (s + [a])[..|s|] == s && (t + [b])[..|s|] == t;
    assert (s + [a])[|s|] == a && (t + [b])[|s|] == b;
  }

  lemma DigitsStep(n: nat, m: nat, base: nat, width: nat)
    requires 2 <= base <= 16 && width > 0
    ensures var s, t := Digits(n / base, base, width - 1), Digits(m / base, base, width - 1);
            && (StringLe(Digits(n, base, width), Digits(m, base, width)) <==>
                if s == t then n % base <= m % base else StringLe(s, t))
            && (Digits(n, base, width) == Digits(m, base, width) <==> s == t && n % base == m % base)
  {
    hide StringLe;
    LastDigit(Digits(n / base, base, width - 1), Digits(m / base, base, width - 1), n % base, m % base);
  }

  /** Fixed-width digit strings compare as the numbers they write. */
  lemma {:induction false} DigitsOrder(n: nat, m: nat, base: nat, width: nat)
    requires 2 <= base <= 16 && n < Power(base, width) && m < Power(base, width)
    ensures StringLe(Digits(n, base, width), Digits(m, base, width)) <==> n <= m
    ensures Digits(n, base, width) == Digits(m, base, width) <==> n == m
    decreases width
  {
    hide StringLe, Digits, Power;
    if width == 0 {
      NoDigits(n, m, base);
    } else {
      QuotientFits(n, base, width);
      QuotientFits(m, base, width);
      DigitsOrder(n / base, m / base, base, width - 1);
      DigitsOrderStep(n, m, base, width);
    }
  }

  lemma NoDigits(n: nat, m: nat, base: nat)
    requires 2 <= base <= 16 && n < Power(base, 0) && m < Power(base, 0)
    ensures n == m && Digits(n, base, 0) == Digits(m, base, 0) && StringLe(Digits(n, base, 0), Digits(m, base, 0))
  {
  }

  lemma DigitsOrderStep(n: nat, m: nat, base: nat, width: nat)
    requires 2 <= base <= 16 && width > 0
    requires var s, t := Digits(n / base, base, width - 1), Digits(m / base, base, width - 1);
             (StringLe(s, t) <==> n / base <= m / base) && (s == t <==> n / base == m / base)
    ensures StringLe(Digits(n, base, width), Digits(m, base, width)) <==> n <= m
    ensures Digits(n, base, width) == Digits(m, base, width) <==> n == m
  {
    hide StringLe, Digits;
    DigitsStep(n, m, base, width);
    DivideOrder(n, m, base);
    DivideOrder(m, n, base);
  }

  /** How many decimal digits `n` needs. */
  function DecimalWidth(n: nat): (w: nat)
    ensures n < Power(10, w)
  {
    if n == 0 then 0 else
      assert n < 10 * (n / 10 + 1);
      DecimalWidth(n / 10) + 1
  }

  /** Python's `f"{n:07d}"`: padded to seven digits, wider when the number needs more. */
  function PadIndex(n: nat): string {
    Digits(n, 10, if DecimalWidth(n) < INDEX_WIDTH then INDEX_WIDTH else DecimalWidth(n))
  }

  predicate IsUuid(id: nat) {
    id < Power(16, UUID_DIGITS)
  }

  function UuidHex(id: nat): string {
    Digits(id, 16, UUID_DIGITS)
  }

  function ChildId(orderId: nat, index: nat): string {
    "B" + UuidHex(orderId) + "-" + PadIndex(index)
  }

  lemma PaddedLimit()
    ensures Power(10, INDEX_WIDTH) == PADDED_LIMIT
  {
    assert Power(10, 2) == 100;
    assert Power(10, 4) == 10_000;
    assert Power(10, 6) == 1_000_000;
  }

  lemma {:induction false} PowerMonotone(base: nat, i: nat, j: nat)
    requires base >= 1 && i <= j
    ensures 1 <= Power(base, i) <= Power(base, j)
    decreases j
  {
    if i < j {
      PowerMonotone(base, i, j - 1);
    } else if j > 0 {
      PowerMonotone(base, j - 1, j - 1);
    }
  }

  lemma {:induction false} DecimalWidthLeast(n: nat, w: nat)
    requires n < Power(10, w)
    ensures DecimalWidth(n) <= w
  {
    if n > 0 && w > 0 {
      DivideBound(n, 10, Power(10, w - 1));
      DecimalWidthLeast(n / 10, w - 1);
    }
  }

  lemma PadIndexBelow(n: nat)
    requires n < PADDED_LIMIT
    ensures PadIndex(n) == Digits(n, 10, INDEX_WIDTH)
  {
    PaddedLimit();
    DecimalWidthLeast(n, INDEX_WIDTH);
  }

  lemma PadIndexBound(n: nat)
    ensures n < Power(10, |PadIndex(n)|)
  {
    PowerMonotone(10, DecimalWidth(n), |PadIndex(n)|);
  }

  /** The digit a character stands for. */
  function DigitOf(c: char): int {
    if '0' <= c <= '9' then c as int - '0' as int else 10 + (c as int - 'a' as int)
  }

  /** The number a digit string writes. */
  function ValueOf(s: string, base: nat): int {
    if s == "" then 0 else ValueOf(s[..|s| - 1], base) * base + DigitOf(s[|s| - 1])
  }

  lemma HexDigitOf(d: nat)
    requires d < 16
    ensures DigitOf(HEX[d]) == d
  {
  }

  lemma ValuePush(s: string, c: char, base: nat)
    ensures ValueOf(s + [c], base) == ValueOf(s, base) * base + DigitOf(c)
  {
    assert (s + [c])[..|s|] == s;
  }

  lemma DivideBack(n: nat, base: nat, q: nat)
    requires base >= 2 && q == n / base
    ensures q * base + n % base == n
  {
  }

  lemma DigitsMore(n: nat, base: nat, width: nat, q: nat)
    requires 2 <= base <= 16 && width > 0 && q == n / base
    ensures Digits(n, base, width) == Digits(q, base, width - 1) + [HEX[n % base]]
  {
  }

  lemma WriteStep(n: nat, base: nat, width: nat)
    requires 2 <= base <= 16 && width > 0 && ValueOf(Digits(n / base, base, width - 1), base) == n / base
    ensures ValueOf(Digits(n, base, width), base) == n
  {
    hide ValueOf, Digits, DigitOf;
    var q, d := n / base, n % base;
    HexDigitOf(d);
    DivideBack(n, base, q);
    DigitsMore(n, base, width, q);
    ValuePush(Digits(q, base, width - 1), HEX[d], base);
  }

  lemma {:induction false} DigitsWrite(n: nat, base: nat, width: nat)
    requires 2 <= base <= 16 && n < Power(base, width)
    ensures ValueOf(Digits(n, base, width), base) == n
  {
    hide *;
    if width == 0 {
      NothingWritten(n, base);
    } else {
      QuotientFits(n, base, width);
      DigitsWrite(n / base, base, width - 1);
      WriteStep(n, base, width);
    }
  }

  lemma NothingWritten(n: nat, base: nat)
    requires 2 <= base <= 16 && n < Power(base, 0)
    ensures ValueOf(Digits(n, base, 0), base) == n
  {
  }

  /** A child id reads "B", the order's 32 hexadecimal digits, "-", and the index in at least seven decimal digits. */
  lemma ChildIdReads(orderId: nat, index: nat)
    requires IsUuid(orderId)
    ensures var id := ChildId(orderId, index);
            && |id| >= 41 && id[0] == 'B' && id[33] == '-'
            && ValueOf(id[1..33], 16) == orderId && ValueOf(id[34..], 10) == index
            && (index < 10_000_000 ==> |id| == 41)
  {
    hide Digits;
    var id := ChildId(orderId, index);
    DigitsWrite(orderId, 16, UUID_DIGITS);
    PadIndexBound(index);
    DigitsWrite(index, 10, |PadIndex(index)|);
    assert id[1..33] == UuidHex(orderId) && id[34..] == PadIndex(index);
    if index < PADDED_LIMIT {
      PadIndexBelow(index);
    }
  }

  /** Child ids determine their order and their index, at any index. */
  lemma ChildIdInjective(o: nat, i: nat, p: nat, j: nat)
    requires IsUuid(o) && IsUuid(p) && ChildId(o, i) == ChildId(p, j)
    ensures o == p && i == j
  {
    var a, b := ChildId(o, i), ChildId(p, j);
    assert a[1..33] == UuidHex(o) && b[1..33] == UuidHex(p);
    DigitsOrder(o, p, 16, UUID_DIGITS);
    assert a[34..] == PadIndex(i) && b[34..] == PadIndex(j);
    PadIndexBound(i);
    PadIndexBound(j);
    DigitsOrder(i, j, 10, |PadIndex(i)|);
  }

  lemma ChildIdOrder(o: nat, i: nat, j: nat)
    requires i < PADDED_LIMIT && j < PADDED_LIMIT
    ensures StringLe(ChildId(o, i), ChildId(o, j)) <==> i <= j
  {
    StringLePrefix("B" + UuidHex(o) + "-", PadIndex(i), PadIndex(j));
    PadIndexBelow(i);
    PadIndexBelow(j);
    PaddedLimit();
    DigitsOrder(i, j, 10, INDEX_WIDTH);
  }

  ghost predicate IdsKeepOrder(o: nat, n: nat) {
    forall i, j :: 1 <= i <= j <= n ==> StringLe(ChildId(o, i), ChildId(o, j))
  }

  /** The leading digit of the last `width` digits of `n`. */
  function Leading(n: nat, width: nat): (d: nat)
    requires width > 0
    ensures d < 10
    ensures Digits(n, 10, width)[0] == HEX[d]
  {
    if width == 1 then
      assert Digits(n / 10, 10, 0) == "";
      n % 10
    else Leading(n / 10, width - 1)
  }

  lemma TenMillionWidth()
    ensures |PadIndex(PADDED_LIMIT)| == 8
  {
    assert DecimalWidth(0) == 0 && DecimalWidth(10) == 2;
    assert DecimalWidth(1_000) == 4;
    assert DecimalWidth(100_000) == 6;
  }

  /** Eight digits starting with '1' sort before seven digits starting with '9'. */
  lemma TenMillionSortsFirst(o: nat)
    ensures !StringLe(ChildId(o, PADDED_LIMIT - 1), ChildId(o, PADDED_LIMIT))
  {
    var s, t := PadIndex(PADDED_LIMIT - 1), PadIndex(PADDED_LIMIT);
    PadIndexBelow(PADDED_LIMIT - 1);
    TenMillionWidth();
    assert Leading(9_999, 4) == 9 && Leading(9_999_999, 7) == Leading(9_999, 4);
    assert Leading(10_000, 5) == 1 && Leading(10_000_000, 8) == Leading(10_000, 5);
    assert s[0] == '9' && t[0] == '1';
    StringLePrefix("B" + UuidHex(o) + "-", s, t);
  }

  /**
   The zero padding keeps an order's children in generation order exactly as long as
   their indices fit it: the ten-millionth child would sort before its predecessors.
   */
  lemma PaddingKeepsOrder(o: nat, n: nat)
    ensures IdsKeepOrder(o, n) <==> n < PADDED_LIMIT
  {
    if n < PADDED_LIMIT {
      forall i, j | 1 <= i <= j <= n ensures StringLe(ChildId(o, i), ChildId(o, j)) {
        ChildIdOrder(o, i, j);
      }
    } else {
      TenMillionSortsFirst(o);
    }
  }
}

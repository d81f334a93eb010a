/**
 Stable sorting by a total preorder, as Python's `sorted` does it, and the one law the
 two-run theorems rest on: selecting elements commutes with sorting.
 */
module Sorting {

  ghost predicate TotalPreorder<T(!new)>(le: (T, T) -> bool) {
    && (forall a, b :: le(a, b) || le(b, a))
    && (forall a, b, c :: le(a, b) && le(b, c) ==> le(a, c))
  }

  ghost predicate SortedBy<T>(xs: seq<T>, le: (T, T) -> bool) {
    forall i, j | 0 <= i < j < |xs| :: le(xs[i], xs[j])
  }

  function Insert<T>(x: T, xs: seq<T>, le: (T, T) -> bool): (r: seq<T>)
    ensures multiset(r) == multiset(xs) + multiset{x}
  {
    if xs == [] || le(x, xs[0]) then [x] + xs
    else
      assert xs == [xs[0]] + xs[1..];
      [xs[0]] + Insert(x, xs[1..], le)
  }

  function Sort<T>(xs: seq<T>, le: (T, T) -> bool): (r: seq<T>)
    ensures multiset(r) == multiset(xs)
  {
    if xs == [] then []
    else
      assert xs == [xs[0]] + xs[1..];
      Insert(xs[0], Sort(xs[1..], le), le)
  }

  lemma SameElements<T>(xs: seq<T>, ys: seq<T>)
    requires multiset(xs) == multiset(ys)
    ensures |xs| == |ys|
    ensures forall x :: x in xs <==> x in ys
  {
    assert |multiset(xs)| == |xs| && |multiset(ys)| == |ys|;
    forall x ensures x in xs <==> x in ys {
      assert x in multiset(xs) <==> x in multiset(ys);
    }
  }

  lemma {:induction false} InsertSorted<T(!new)>(x: T, xs: seq<T>, le: (T, T) -> bool)
    requires TotalPreorder(le) && SortedBy(xs, le)
    ensures SortedBy(Insert(x, xs, le), le)
  {
    if xs == [] || le(x, xs[0]) {
    } else {
      var tail := Insert(x, xs[1..], le);
      InsertSorted(x, xs[1..], le);
      forall k | 0 <= k < |tail| ensures le(xs[0], tail[k]) {
        assert tail[k] in multiset(tail);
        assert tail[k] == x || tail[k] in xs[1..];
        assert le(xs[0], x);
      }
    }
  }

  lemma {:induction false} SortSorted<T(!new)>(xs: seq<T>, le: (T, T) -> bool)
    requires TotalPreorder(le)
    ensures SortedBy(Sort(xs, le), le)
  {
    if xs != [] {
      SortSorted(xs[1..], le);
      InsertSorted(xs[0], Sort(xs[1..], le), le);
    }
  }

  /** Sorting a sorted sequence changes nothing. */
  lemma {:induction false} SortIdle<T>(xs: seq<T>, le: (T, T) -> bool)
    requires SortedBy(xs, le)
    ensures Sort(xs, le) == xs
  {
    if xs != [] {
      assert forall i, j | 0 <= i < j < |xs[1..]| :: le(xs[1..][i], xs[1..][j]) by {
        forall i, j | 0 <= i < j < |xs[1..]| ensures le(xs[1..][i], xs[1..][j]) {
          assert xs[1..][i] == xs[i + 1] && xs[1..][j] == xs[j + 1];
        }
      }
      SortIdle(xs[1..], le);
      if |xs| > 1 {
        assert le(xs[0], xs[1]);
      }
    }
  }

  lemma SortedTail<T>(xs: seq<T>, le: (T, T) -> bool)
    requires xs != [] && SortedBy(xs, le)
    ensures SortedBy(xs[1..], le)
  {
    forall i, j | 0 <= i < j < |xs| - 1 ensures le(xs[1..][i], xs[1..][j]) {
      assert xs[1..][i] == xs[i + 1] && xs[1..][j] == xs[j + 1];
    }
  }

  ghost predicate NoTies<T(!new)>(xs: seq<T>, le: (T, T) -> bool) {
    forall a, b | a in xs && b in xs && le(a, b) && le(b, a) :: a == b
  }

  lemma NoTiesTail<T(!new)>(xs: seq<T>, le: (T, T) -> bool)
    requires xs != [] && NoTies(xs, le)
    ensures NoTies(xs[1..], le)
  {
  }

  lemma SortedHead<T(!new)>(xs: seq<T>, ys: seq<T>, le: (T, T) -> bool)
    requires SortedBy(xs, le) && SortedBy(ys, le) && NoTies(xs, le)
    requires xs != [] && ys != [] && xs[0] in ys && ys[0] in xs
    ensures xs[0] == ys[0]
  {
    var i :| 0 <= i < |ys| && ys[i] == xs[0];
    var j :| 0 <= j < |xs| && xs[j] == ys[0];
    if i != 0 && j != 0 {
      assert le(xs[0], xs[j]) && le(ys[0], ys[i]);
    }
  }

  lemma TailMultiset<T>(xs: seq<T>)
    requires xs != []
    ensures multiset(xs[1..]) == multiset(xs) - multiset{xs[0]}
  {
    assert xs == [xs[0]] + xs[1..];
  }

  lemma SameLength<T>(xs: seq<T>, ys: seq<T>)
    requires multiset(xs) == multiset(ys)
    ensures |xs| == |ys|
  {
    assert |multiset(xs)| == |xs| && |multiset(ys)| == |ys|;
  }

  lemma TailsAgree<T>(xs: seq<T>, ys: seq<T>)
    requires xs != [] && ys != [] && xs[0] == ys[0] && multiset(xs) == multiset(ys)
    ensures multiset(xs[1..]) == multiset(ys[1..])
  {
    TailMultiset(xs);
    TailMultiset(ys);
  }

  lemma Rejoin<T>(xs: seq<T>, ys: seq<T>)
    requires xs != [] && ys != [] && xs[0] == ys[0] && xs[1..] == ys[1..]
    ensures xs == ys
  {
    assert xs == [xs[0]] + xs[1..] && ys == [ys[0]] + ys[1..];
  }

  lemma HeadsAgree<T(!new)>(xs: seq<T>, ys: seq<T>, le: (T, T) -> bool)
    requires SortedBy(xs, le) && SortedBy(ys, le) && multiset(xs) == multiset(ys) && NoTies(xs, le) && xs != []
    ensures ys != [] && xs[0] == ys[0]
  {
    hide SortedBy, NoTies;
    SameElements(xs, ys);
    SortedHead(xs, ys, le);
  }

  /** Two sorted arrangements of the same elements agree when no two elements tie. */
  lemma {:induction false} SortedUnique<T(!new)>(xs: seq<T>, ys: seq<T>, le: (T, T) -> bool)
    requires SortedBy(xs, le) && SortedBy(ys, le) && multiset(xs) == multiset(ys)
    requires NoTies(xs, le)
    ensures xs == ys
  {
    hide SortedBy, NoTies;
    SameLength(xs, ys);
    if xs != [] {
      NoTiesTail(xs, le);
      HeadsAgree(xs, ys, le);
      TailsAgree(xs, ys);
      SortedTail(xs, le);
      SortedTail(ys, le);
      SortedUnique(xs[1..], ys[1..], le);
      Rejoin(xs, ys);
    }
  }

  /** The subsequence of `xs` whose elements belong to `kept`. */
  function Keep<T(==)>(xs: seq<T>, kept: set<T>): (r: seq<T>)
    ensures forall x | x in r :: x in xs && x in kept
    ensures forall x | x in xs && x in kept :: x in r
  {
    if xs == [] then []
    else (if xs[0] in kept then [xs[0]] else []) + Keep(xs[1..], kept)
  }

  lemma {:induction false} KeepConcat<T>(xs: seq<T>, ys: seq<T>, kept: set<T>)
    ensures Keep(xs + ys, kept) == Keep(xs, kept) + Keep(ys, kept)
  {
    if xs == [] {
      assert xs + ys == ys;
    } else {
      assert (xs + ys)[1..] == xs[1..] + ys;
      KeepConcat(xs[1..], ys, kept);
    }
  }

  lemma {:induction false} KeepAll<T>(xs: seq<T>, kept: set<T>)
    requires forall x | x in xs :: x in kept
    ensures Keep(xs, kept) == xs
  {
    if xs != [] {
      KeepAll(xs[1..], kept);
    }
  }

  lemma {:induction false} KeepNone<T>(xs: seq<T>, kept: set<T>)
    requires forall x | x in xs :: x !in kept
    ensures Keep(xs, kept) == []
  {
    if xs != [] {
      KeepNone(xs[1..], kept);
    }
  }

  lemma KeepPrefix<T>(xs: seq<T>, ys: seq<T>, kept: set<T>)
    requires (forall x | x in xs :: x in kept) && (forall y | y in ys :: y !in kept)
    ensures Keep(xs + ys, kept) == xs
  {
    KeepConcat(xs, ys, kept);
    KeepAll(xs, kept);
    KeepNone(ys, kept);
  }

  /** Only which elements of `xs` are kept matters, not the rest of the set. */
  lemma {:induction false} KeepAgree<T>(xs: seq<T>, kept: set<T>, other: set<T>)
    requires forall x | x in xs :: x in kept <==> x in other
    ensures Keep(xs, kept) == Keep(xs, other)
  {
    if xs != [] {
      KeepAgree(xs[1..], kept, other);
    }
  }

  lemma SortedCons<T>(x: T, xs: seq<T>, le: (T, T) -> bool)
    requires SortedBy(xs, le) && forall y | y in xs :: le(x, y)
    ensures SortedBy([x] + xs, le)
  {
  }

  lemma {:induction false} KeepSorted<T>(xs: seq<T>, kept: set<T>, le: (T, T) -> bool)
    requires SortedBy(xs, le)
    ensures SortedBy(Keep(xs, kept), le)
  {
    if xs != [] {
      SortedTail(xs, le);
      KeepSorted(xs[1..], kept, le);
      if xs[0] in kept {
        SortedCons(xs[0], Keep(xs[1..], kept), le);
      }
    }
  }

  lemma KeepCons<T>(x: T, xs: seq<T>, kept: set<T>)
    ensures Keep([x] + xs, kept) == (if x in kept then [x] else []) + Keep(xs, kept)
  {
    assert ([x] + xs)[1..] == xs;
  }

  lemma InsertFront<T>(x: T, xs: seq<T>, le: (T, T) -> bool)
    requires forall y | y in xs :: le(x, y)
    ensures Insert(x, xs, le) == [x] + xs
  {
  }

  lemma InsertBehind<T>(x: T, y: T, xs: seq<T>, le: (T, T) -> bool)
    requires !le(x, y)
    ensures Insert(x, [y] + xs, le) == [y] + Insert(x, xs, le)
  {
    assert ([y] + xs)[1..] == xs;
  }

  lemma {:induction false} KeepInsert<T(!new)>(x: T, xs: seq<T>, kept: set<T>, le: (T, T) -> bool)
    requires TotalPreorder(le) && SortedBy(xs, le)
    ensures Keep(Insert(x, xs, le), kept)
         == if x in kept then Insert(x, Keep(xs, kept), le) else Keep(xs, kept)
  {
    if xs == [] || le(x, xs[0]) {
      assert forall y | y in xs :: le(x, y);
      KeepCons(x, xs, kept);
      InsertFront(x, Keep(xs, kept), le);
      assert [] + Keep(xs, kept) == Keep(xs, kept);
    } else {
      var y, rest := xs[0], xs[1..];
      assert xs == [y] + rest;
      SortedTail(xs, le);
      KeepInsert(x, rest, kept, le);
      KeepCons(y, Insert(x, rest, le), kept);
      KeepCons(y, rest, kept);
      if y in kept {
        InsertBehind(x, y, Keep(rest, kept), le);
      } else {
        assert [] + Keep(rest, kept) == Keep(rest, kept);
      }
    }
  }

  lemma SortCons<T>(x: T, xs: seq<T>, le: (T, T) -> bool)
    ensures Sort([x] + xs, le) == Insert(x, Sort(xs, le), le)
  {
    assert ([x] + xs)[1..] == xs;
  }

  /** Selecting before or after sorting gives the same sequence. */
  lemma {:induction false} KeepSort<T(!new)>(xs: seq<T>, kept: set<T>, le: (T, T) -> bool)
    requires TotalPreorder(le)
    ensures Keep(Sort(xs, le), kept) == Sort(Keep(xs, kept), le)
  {
    if xs != [] {
      var x, rest := xs[0], xs[1..];
      assert xs == [x] + rest;
      KeepSort(rest, kept, le);
      SortSorted(rest, le);
      KeepInsert(x, Sort(rest, le), kept, le);
      SortCons(x, rest, le);
      KeepCons(x, rest, kept);
      SortCons(x, Keep(rest, kept), le);
      assert [] + Keep(rest, kept) == Keep(rest, kept);
    }
  }
}

/** Finite sums of real-valued weights, and why their order cannot matter. */
module Sums {

  function Sum<T>(xs: seq<T>, weight: T -> real): (total: real) {
    if xs == [] then 0.0 else Sum(xs[..|xs| - 1], weight) + weight(xs[|xs| - 1])
  }

  lemma SumPush<T>(xs: seq<T>, x: T, weight: T -> real)
    ensures Sum(xs + [x], weight) == Sum(xs, weight) + weight(x)
  {
    assert (xs + [x])[..|xs|] == xs;
  }

  lemma {:induction false} SumConcat<T>(xs: seq<T>, ys: seq<T>, weight: T -> real)
    ensures Sum(xs + ys, weight) == Sum(xs, weight) + Sum(ys, weight)
  {
    if ys == [] {
      assert xs + ys == xs;
    } else {
      assert (xs + ys)[..|xs + ys| - 1] == xs + ys[..|ys| - 1];
      SumConcat(xs, ys[..|ys| - 1], weight);
    }
  }

  lemma {:induction false} SumWithout<T>(xs: seq<T>, i: nat, weight: T -> real)
    requires i < |xs|
    ensures Sum(xs, weight) == Sum(xs[..i] + xs[i + 1..], weight) + weight(xs[i])
  {
    assert xs == xs[..i] + ([xs[i]] + xs[i + 1..]);
    SumConcat(xs[..i], [xs[i]] + xs[i + 1..], weight);
    SumConcat([xs[i]], xs[i + 1..], weight);
    SumConcat(xs[..i], xs[i + 1..], weight);
    assert [xs[i]][..0] == [];
    assert Sum([xs[i]], weight) == weight(xs[i]);
  }

  lemma RemoveAt<T>(xs: seq<T>, i: nat)
    requires i < |xs|
    ensures multiset(xs[..i] + xs[i + 1..]) == multiset(xs) - multiset{xs[i]}
    ensures multiset(xs) == multiset(xs[..i] + xs[i + 1..]) + multiset{xs[i]}
  {
    assert xs == xs[..i] + [xs[i]] + xs[i + 1..];
  }

  /** Where the last element of a permutation sits; without it the rest are permutations again. */
  lemma MatchLast<T>(xs: seq<T>, ys: seq<T>) returns (i: nat)
    requires multiset(xs) == multiset(ys) && ys != []
    ensures i < |xs| == |ys| && xs[i] == ys[|ys| - 1]
    ensures multiset(xs[..i] + xs[i + 1..]) == multiset(ys[..|ys| - 1])
  {
    var n := |ys| - 1;
    assert |multiset(xs)| == |xs| && |multiset(ys)| == |ys|;
    assert ys[n] in multiset(xs);
    i :| 0 <= i < |xs| && xs[i] == ys[n];
    RemoveAt(xs, i);
    RemoveAt(ys, n);
    assert ys[..n] + ys[n + 1..] == ys[..n];
  }

  lemma {:induction false} SumPermutation<T>(xs: seq<T>, ys: seq<T>, weight: T -> real)
    requires multiset(xs) == multiset(ys)
    ensures Sum(xs, weight) == Sum(ys, weight)
    decreases |ys|
  {
    if ys == [] {
      assert |multiset(xs)| == |xs|;
    } else {
      var i := MatchLast(xs, ys);
      SumWithout(xs, i, weight);
      SumPermutation(xs[..i] + xs[i + 1..], ys[..|ys| - 1], weight);
    }
  }

  lemma {:induction false} SumPointwise<T, U>(xs: seq<T>, ys: seq<U>, f: T -> real, g: U -> real)
    requires |xs| == |ys| && forall i | 0 <= i < |xs| :: f(xs[i]) == g(ys[i])
    ensures Sum(xs, f) == Sum(ys, g)
  {
    if xs != [] {
      SumPointwise(xs[..|xs| - 1], ys[..|ys| - 1], f, g);
    }
  }

  /** The pointwise image of a sequence. */
  function Image<T, U>(xs: seq<T>, f: T -> U): (r: seq<U>)
    ensures |r| == |xs| && forall i | 0 <= i < |xs| :: r[i] == f(xs[i])
  {
    seq(|xs|, i requires 0 <= i < |xs| => f(xs[i]))
  }

  lemma ImageWithout<T, U>(xs: seq<T>, i: nat, f: T -> U)
    requires i < |xs|
    ensures multiset(Image(xs, f)) == multiset(Image(xs[..i] + xs[i + 1..], f)) + multiset{f(xs[i])}
  {
    RemoveAt(Image(xs, f), i);
    assert Image(xs[..i] + xs[i + 1..], f) == Image(xs, f)[..i] + Image(xs, f)[i + 1..];
  }

  /** Permuting a sequence permutes its image. */
  lemma {:induction false} ImagePermutation<T, U>(xs: seq<T>, ys: seq<T>, f: T -> U)
    requires multiset(xs) == multiset(ys)
    ensures multiset(Image(xs, f)) == multiset(Image(ys, f))
    decreases |ys|
  {
    hide Image;
    if ys == [] {
      assert |multiset(xs)| == |xs|;
    } else {
      var n := |ys| - 1;
      var i := MatchLast(xs, ys);
      ImagePermutation(xs[..i] + xs[i + 1..], ys[..n], f);
      ImageWithout(xs, i, f);
      ImageWithout(ys, n, f);
      assert ys[..n] + ys[n + 1..] == ys[..n];
    }
  }
}

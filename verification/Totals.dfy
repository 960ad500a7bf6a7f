/** Sums over sequences, and why their order does not matter. */
module Totals {

  function Map<T, U>(f: T -> U, xs: seq<T>): (ys: seq<U>)
    ensures |ys| == |xs|
    ensures forall i :: 0 <= i < |xs| ==> ys[i] == f(xs[i])
  {
    seq(|xs|, i requires 0 <= i < |xs| => f(xs[i]))
  }

  function Total<T>(xs: seq<T>, weight: T -> int): int {
    if xs == [] then 0 else Total(xs[..|xs| - 1], weight) + weight(xs[|xs| - 1])
  }

  lemma TotalAppend<T>(xs: seq<T>, x: T, weight: T -> int)
    ensures Total(xs + [x], weight) == Total(xs, weight) + weight(x)
  {
  }

  lemma {:induction false} TotalDrop<T>(xs: seq<T>, i: nat, weight: T -> int)
    requires i < |xs|
    ensures Total(xs, weight) == Total(xs[..i] + xs[i + 1..], weight) + weight(xs[i])
  {
    var n := |xs| - 1;
    if i == n {
      assert xs[..i] + xs[i + 1..] == xs[..n];
    } else {
      TotalDrop(xs[..n], i, weight);
      assert xs[..i] + xs[i + 1..] == (xs[..n][..i] + xs[..n][i + 1..]) + [xs[n]];
      TotalAppend(xs[..n][..i] + xs[..n][i + 1..], xs[n], weight);
    }
  }

  lemma DropKeepsMultiset<T>(xs: seq<T>, i: nat)
    requires i < |xs|
    ensures multiset(xs) == multiset(xs[..i] + xs[i + 1..]) + multiset{xs[i]}
  {
    assert xs == xs[..i] + [xs[i]] + xs[i + 1..];
  }

  /** Two orderings of the same elements: take the last of one out of both. */
  lemma TakeLastOut<T>(xs: seq<T>, ys: seq<T>) returns (i: nat)
    requires multiset(xs) == multiset(ys) && xs != []
    ensures i < |ys| && ys[i] == xs[|xs| - 1]
    ensures multiset(xs[..|xs| - 1]) == multiset(ys[..i] + ys[i + 1..])
  {
    var n := |xs| - 1;
    assert xs[n] in multiset(ys);
    i :| 0 <= i < |ys| && ys[i] == xs[n];
    DropKeepsMultiset(xs, n);
    DropKeepsMultiset(ys, i);
    assert xs[..n] + xs[n + 1..] == xs[..n];
    assert multiset(xs[..n]) == multiset(xs) - multiset{xs[n]};
    assert multiset(ys[..i] + ys[i + 1..]) == multiset(ys) - multiset{xs[n]};
  }

  /** A total is the same over every ordering of the same elements. */
  lemma {:induction false} TotalOfPermutation<T>(xs: seq<T>, ys: seq<T>, weight: T -> int)
    requires multiset(xs) == multiset(ys)
    ensures Total(xs, weight) == Total(ys, weight)
  {
    if xs == [] {
      assert |ys| == |multiset(ys)| == |multiset(xs)| == 0;
    } else {
      var i := TakeLastOut(xs, ys);
      TotalOfPermutation(xs[..|xs| - 1], ys[..i] + ys[i + 1..], weight);
      TotalDrop(ys, i, weight);
    }
  }

  lemma {:induction false} MapPermutes<T, U>(f: T -> U, xs: seq<T>, ys: seq<T>)
    requires multiset(xs) == multiset(ys)
    ensures multiset(Map(f, xs)) == multiset(Map(f, ys))
  {
    if xs == [] {
      assert |ys| == |multiset(ys)| == |multiset(xs)| == 0;
    } else {
      var n := |xs| - 1;
      var i := TakeLastOut(xs, ys);
      MapPermutes(f, xs[..n], ys[..i] + ys[i + 1..]);
      DropKeepsMultiset(Map(f, xs), n);
      DropKeepsMultiset(Map(f, ys), i);
      assert Map(f, xs)[..n] + Map(f, xs)[n + 1..] == Map(f, xs[..n]);
      assert Map(f, ys)[..i] + Map(f, ys)[i + 1..] == Map(f, ys[..i] + ys[i + 1..]);
    }
  }

  /** Weights that add up element by element have totals that add up. */
  lemma {:induction false} TotalsAddUp<T>(xs: seq<T>, a: T -> int, b: T -> int, sum: T -> int)
    requires forall x :: x in xs ==> a(x) + b(x) == sum(x)
    ensures Total(xs, a) + Total(xs, b) == Total(xs, sum)
  {
    if xs != [] {
      TotalsAddUp(xs[..|xs| - 1], a, b, sum);
    }
  }

  lemma {:induction false} TotalAtMost<T>(xs: seq<T>, a: T -> int, b: T -> int)
    requires forall x :: x in xs ==> a(x) <= b(x)
    ensures Total(xs, a) <= Total(xs, b)
  {
    if xs != [] {
      TotalAtMost(xs[..|xs| - 1], a, b);
    }
  }

  lemma {:induction false} TotalNotNegative<T>(xs: seq<T>, a: T -> int)
    requires forall x :: x in xs ==> a(x) >= 0
    ensures Total(xs, a) >= 0
  {
    if xs != [] {
      TotalNotNegative(xs[..|xs| - 1], a);
    }
  }
}

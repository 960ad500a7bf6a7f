/** `sorted`, and what comparing a sorted list with 1, 2, .., n decides. */
module Sorting {
  import opened Collections

  /** Stable insertion sort by an integer key. */
  function SortedBy<T>(key: T -> int, xs: seq<T>): (r: seq<T>)
    ensures |r| == |xs| && multiset(r) == multiset(xs)
  {
    if xs == [] then []
    else
      assert xs == xs[..|xs| - 1] + [xs[|xs| - 1]];
      InsertBy(key, SortedBy(key, xs[..|xs| - 1]), xs[|xs| - 1])
  }

  /** Inserts after everything that is not larger. */
  function InsertBy<T>(key: T -> int, xs: seq<T>, x: T): (r: seq<T>)
    ensures |r| == |xs| + 1 && multiset(r) == multiset(xs) + multiset{x}
  {
    if xs == [] || key(xs[|xs| - 1]) <= key(x) then xs + [x]
    else
      assert xs == xs[..|xs| - 1] + [xs[|xs| - 1]];
      InsertBy(key, xs[..|xs| - 1], x) + [xs[|xs| - 1]]
  }

  predicate Ascending<T>(key: T -> int, xs: seq<T>) {
    forall i, j :: 0 <= i < j < |xs| ==> key(xs[i]) <= key(xs[j])
  }

  lemma {:induction false} InsertAscends<T>(key: T -> int, xs: seq<T>, x: T)
    requires Ascending(key, xs)
    ensures Ascending(key, InsertBy(key, xs, x))
  {
    if xs != [] && key(xs[|xs| - 1]) > key(x) {
      var n := |xs| - 1;
      var front := InsertBy(key, xs[..n], x);
      InsertAscends(key, xs[..n], x);
      forall i | 0 <= i < |front| ensures key(front[i]) <= key(xs[n]) {
        assert front[i] in multiset(front);
        assert front[i] in multiset(xs[..n]) || front[i] == x;
      }
      AscendingAppend(key, front, xs[n]);
    }
  }

  lemma AscendingAppend<T>(key: T -> int, xs: seq<T>, x: T)
    requires Ascending(key, xs) && forall i :: 0 <= i < |xs| ==> key(xs[i]) <= key(x)
    ensures Ascending(key, xs + [x])
  {
  }

  lemma {:induction false} SortedAscends<T>(key: T -> int, xs: seq<T>)
    ensures Ascending(key, SortedBy(key, xs))
  {
    if xs != [] {
      SortedAscends(key, xs[..|xs| - 1]);
      InsertAscends(key, SortedBy(key, xs[..|xs| - 1]), xs[|xs| - 1]);
    }
  }

  lemma {:induction false} InsertIsStable<T>(key: T -> int, xs: seq<T>, x: T, k: int)
    requires Ascending(key, xs)
    ensures Having(key, InsertBy(key, xs, x), k) == if key(x) == k then Having(key, xs, k) + [x] else Having(key, xs, k)
  {
    HavingAppend(key, xs, x, k);
    if xs != [] && key(xs[|xs| - 1]) > key(x) {
      var n := |xs| - 1;
      InsertIsStable(key, xs[..n], x, k);
      HavingAppend(key, InsertBy(key, xs[..n], x), xs[n], k);
      assert xs == xs[..n] + [xs[n]];
      HavingAppend(key, xs[..n], xs[n], k);
    }
  }

  lemma SortedAppend<T>(key: T -> int, xs: seq<T>, x: T)
    ensures SortedBy(key, xs + [x]) == InsertBy(key, SortedBy(key, xs), x)
  {
    hide InsertBy;
    assert (xs + [x])[..|xs|] == xs;
  }

  lemma StableStep<T>(key: T -> int, xs: seq<T>, x: T, k: int)
    requires Having(key, SortedBy(key, xs), k) == Having(key, xs, k)
    ensures Having(key, SortedBy(key, xs + [x]), k) == Having(key, xs + [x], k)
  {
    hide *;
    SortedAppend(key, xs, x);
    SortedAscends(key, xs);
    InsertIsStable(key, SortedBy(key, xs), x, k);
    HavingAppend(key, xs, x, k);
  }

  /** Sorting keeps the elements of one key in their order. */
  lemma {:induction false} SortedIsStable<T>(key: T -> int, xs: seq<T>, k: int)
    ensures Having(key, SortedBy(key, xs), k) == Having(key, xs, k)
  {
    if xs != [] {
      var front, x := xs[..|xs| - 1], xs[|xs| - 1];
      assert xs == front + [x];
      hide *;
      SortedIsStable(key, front, k);
      StableStep(key, front, x, k);
    }
  }

  lemma InsertLargest<T>(key: T -> int, xs: seq<T>, x: T)
    requires xs != [] ==> key(xs[|xs| - 1]) <= key(x)
    ensures InsertBy(key, xs, x) == xs + [x]
  {
  }

  /** A list that is in order already is not changed by sorting. */
  lemma {:induction false} SortedAlready<T>(key: T -> int, xs: seq<T>)
    requires Ascending(key, xs)
    ensures SortedBy(key, xs) == xs
  {
    if xs != [] {
      var n := |xs| - 1;
      SortedAlready(key, xs[..n]);
      InsertLargest(key, xs[..n], xs[n]);
      hide InsertBy, Ascending;
      assert xs == xs[..n] + [xs[n]];
    }
  }

  function Same(n: int): int { n }

  /** Two ascending orderings of the same numbers are equal. */
  lemma {:induction false} AscendingIsUnique(a: seq<int>, b: seq<int>)
    requires Ascending(Same, a) && Ascending(Same, b) && multiset(a) == multiset(b)
    ensures a == b
  {
    SameLength(a, b);
    if a != [] {
      var n := |a| - 1;
      SameLast(a, b);
      DropLast(a);
      DropLast(b);
      AscendingIsUnique(a[..n], b[..n]);
    }
  }

  lemma SameLength(a: seq<int>, b: seq<int>)
    requires multiset(a) == multiset(b)
    ensures |a| == |b|
  {
    assert |b| == |multiset(b)| == |multiset(a)| == |a|;
  }

  lemma SameLast(a: seq<int>, b: seq<int>)
    requires Ascending(Same, a) && Ascending(Same, b) && multiset(a) == multiset(b) && a != [] && b != []
    ensures a[|a| - 1] == b[|b| - 1]
  {
    LastIsLargest(a);
    LastIsLargest(b);
    assert a[|a| - 1] in multiset(a) && b[|b| - 1] in multiset(b);
  }

  lemma DropLast(a: seq<int>)
    requires a != []
    ensures multiset(a[..|a| - 1]) == multiset(a) - multiset{a[|a| - 1]} && a == a[..|a| - 1] + [a[|a| - 1]]
    ensures Ascending(Same, a) ==> Ascending(Same, a[..|a| - 1])
  {
  }

  lemma LastIsLargest(a: seq<int>)
    requires a != [] && Ascending(Same, a)
    ensures forall x :: x in multiset(a) ==> x <= a[|a| - 1]
  {
  }

  function OneTo(n: nat): (r: seq<int>)
    ensures |r| == n && forall i :: 0 <= i < n ==> r[i] == i + 1
  {
    seq(n, i => i + 1)
  }

  /** Comparing the sorted list with 1, 2, .., n decides whether the list holds each of
      these numbers exactly once. */
  lemma {:induction false} SortedIsOneToN(numbers: seq<int>)
    ensures SortedBy(Same, numbers) == OneTo(|numbers|) <==> multiset(numbers) == multiset(OneTo(|numbers|))
  {
    SortedAscends(Same, numbers);
    if multiset(numbers) == multiset(OneTo(|numbers|)) {
      AscendingIsUnique(SortedBy(Same, numbers), OneTo(|numbers|));
    }
  }
}

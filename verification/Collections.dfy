/** Images of sequences, uniqueness of keys, and dictionaries built from sequences. */
module Collections {

  function Image<T, U>(key: T -> U, xs: seq<T>): set<U> {
    set i | 0 <= i < |xs| :: key(xs[i])
  }

  predicate Unique<T, U(==)>(key: T -> U, xs: seq<T>) {
    forall i, j :: 0 <= i < j < |xs| ==> key(xs[i]) != key(xs[j])
  }

  lemma ImageAppend<T, U>(key: T -> U, xs: seq<T>, x: T)
    ensures Image(key, xs + [x]) == Image(key, xs) + {key(x)}
  {
    var longer := xs + [x];
    assert longer[|xs|] == x;
    forall i | 0 <= i < |xs| ensures key(xs[i]) in Image(key, longer) {
      assert longer[i] == xs[i];
    }
  }

  lemma NotInImage<T, U>(key: T -> U, xs: seq<T>, k: U)
    requires forall i :: 0 <= i < |xs| ==> key(xs[i]) != k
    ensures k !in Image(key, xs)
  {
  }

  lemma UniqueAppend<T, U>(key: T -> U, xs: seq<T>, x: T)
    ensures Unique(key, xs + [x]) <==> Unique(key, xs) && key(x) !in Image(key, xs)
  {
    var longer := xs + [x];
    assert longer[|xs|] == x;
    if Unique(key, longer) {
      forall i, j | 0 <= i < j < |xs| ensures key(xs[i]) != key(xs[j]) {
        assert key(longer[i]) != key(longer[j]);
      }
      forall i | 0 <= i < |xs| ensures key(xs[i]) != key(x) {
        assert key(longer[i]) != key(longer[|xs|]);
      }
    }
  }

  /** A dictionary comprehension: of two entries under one key the later one counts. */
  function Dictionary<T, U, V>(key: T -> U, value: T -> V, xs: seq<T>): (m: map<U, V>)
    ensures m.Keys == Image(key, xs)
  {
    if xs == [] then map[]
    else
      var x := xs[|xs| - 1];
      assert xs == xs[..|xs| - 1] + [x];
      ImageAppend(key, xs[..|xs| - 1], x);
      Dictionary(key, value, xs[..|xs| - 1])[key(x) := value(x)]
  }

  lemma {:induction false} DictionaryHolds<T, U, V>(key: T -> U, value: T -> V, xs: seq<T>)
    requires Unique(key, xs)
    ensures forall x :: x in xs ==> Dictionary(key, value, xs)[key(x)] == value(x)
  {
    if xs != [] {
      var n := |xs| - 1;
      assert xs == xs[..n] + [xs[n]];
      UniqueAppend(key, xs[..n], xs[n]);
      DictionaryHolds(key, value, xs[..n]);
    }
  }

  lemma DictionaryEmpty<T, U, V>(key: T -> U, value: T -> V)
    ensures Dictionary(key, value, []) == map[]
  {
  }

  lemma DictionaryAppend<T, U, V>(key: T -> U, value: T -> V, xs: seq<T>, x: T)
    ensures Dictionary(key, value, xs + [x]) == Dictionary(key, value, xs)[key(x) := value(x)]
  {
  }

  /** `{key(x): x for x in xs}`. */
  function IndexBy<T, U>(key: T -> U, xs: seq<T>): (m: map<U, T>)
    ensures m.Keys == Image(key, xs)
    ensures forall k :: k in m ==> key(m[k]) == k && exists i :: 0 <= i < |xs| && xs[i] == m[k]
  {
    if xs == [] then map[]
    else
      var n := |xs| - 1;
      var m := IndexBy(key, xs[..n]);
      assert xs == xs[..n] + [xs[n]];
      ImageAppend(key, xs[..n], xs[n]);
      assert forall k :: k in m ==> exists i :: 0 <= i < n && xs[..n][i] == m[k] && xs[i] == m[k];
      m[key(xs[n]) := xs[n]]
  }

  /** Of two elements with one key the later one is found. */
  lemma IndexAppend<T, U>(key: T -> U, xs: seq<T>, x: T)
    ensures IndexBy(key, xs + [x]) == IndexBy(key, xs)[key(x) := x]
  {
    assert (xs + [x])[..|xs|] == xs;
  }

  /** Without duplicates an index finds exactly the element with the given key. */
  lemma {:induction false} IndexFinds<T, U>(key: T -> U, xs: seq<T>, k: nat)
    requires Unique(key, xs) && k < |xs|
    ensures key(xs[k]) in IndexBy(key, xs) && IndexBy(key, xs)[key(xs[k])] == xs[k]
  {
  }

  // ---------------------------------------------------------------------------
  // Grouping
  // ---------------------------------------------------------------------------

  /** The elements with this key, in order. */
  function Having<T, U(==)>(key: T -> U, xs: seq<T>, k: U): seq<T> {
    if xs == [] then []
    else
      var x := xs[|xs| - 1];
      Having(key, xs[..|xs| - 1], k) + (if key(x) == k then [x] else [])
  }

  lemma HavingAppend<T, U>(key: T -> U, xs: seq<T>, x: T, k: U)
    ensures Having(key, xs + [x], k) == if key(x) == k then Having(key, xs, k) + [x] else Having(key, xs, k)
  {
  }

  lemma {:induction false} HavingNone<T, U>(key: T -> U, xs: seq<T>, k: U)
    ensures k !in Image(key, xs) <==> Having(key, xs, k) == []
  {
    if xs != [] {
      var n := |xs| - 1;
      assert xs == xs[..n] + [xs[n]];
      ImageAppend(key, xs[..n], xs[n]);
      HavingNone(key, xs[..n], k);
    }
  }

  /** Groups by key, as `setdefault(key, []).append(x)` does. */
  ghost predicate GroupsBy<T, U(!new)>(key: T -> U, groups: map<U, seq<T>>, xs: seq<T>) {
    groups.Keys == Image(key, xs) && forall k :: k in groups ==> groups[k] == Having(key, xs, k)
  }

  method Group<T, U(!new, ==)>(key: T -> U, xs: seq<T>) returns (groups: map<U, seq<T>>, order: seq<U>)
    ensures GroupsBy(key, groups, xs)
    ensures forall k :: k in order <==> k in groups
  {
    groups, order := map[], [];
    for i := 0 to |xs|
      invariant GroupsBy(key, groups, xs[..i])
      invariant forall k :: k in order <==> k in groups
    {
      assert xs[..i + 1] == xs[..i] + [xs[i]];
      GroupGrows(key, groups, xs[..i], xs[i]);
      var k := key(xs[i]);
      if k !in groups {
        groups, order := groups[k := []], order + [k];
      }
      groups := groups[k := groups[k] + [xs[i]]];
    }
    assert xs[..|xs|] == xs;
  }

  lemma GroupGrows<T, U(!new)>(key: T -> U, groups: map<U, seq<T>>, xs: seq<T>, x: T)
    requires GroupsBy(key, groups, xs)
    ensures GroupsBy(key, groups[key(x) := (if key(x) in groups then groups[key(x)] else []) + [x]], xs + [x])
  {
    ImageAppend(key, xs, x);
    HavingNone(key, xs, key(x));
    forall k ensures Having(key, xs + [x], k) == if key(x) == k then Having(key, xs, k) + [x] else Having(key, xs, k) {
      HavingAppend(key, xs, x, k);
    }
  }
}

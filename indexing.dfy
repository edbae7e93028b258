/** The dict comprehension `{key(x): x for x in xs}` that several lookups build: a later element
    overwrites an earlier one with the same key. */
module Indexing {

  function IndexBy<T, K(==)>(xs: seq<T>, key: T -> K): map<K, T>
  {
    if xs == [] then map[] else IndexBy(xs[..|xs| - 1], key)[key(xs[|xs| - 1]) := xs[|xs| - 1]]
  }

  /** `xs[i]` has key `k`, and no later element has. */
  predicate LastWith<T, K(==)>(xs: seq<T>, key: T -> K, k: K, i: int)
  {
    0 <= i < |xs| && key(xs[i]) == k && forall j :: i < j < |xs| ==> key(xs[j]) != k
  }

  /** A key is indexed exactly when some element has it, and it maps to the last such element. */
  lemma {:induction false} IndexByLastWins<T, K>(xs: seq<T>, key: T -> K, k: K)
    ensures k in IndexBy(xs, key) <==> exists i :: 0 <= i < |xs| && key(xs[i]) == k
    ensures k in IndexBy(xs, key) ==> exists i :: LastWith(xs, key, k, i) && IndexBy(xs, key)[k] == xs[i]
    decreases |xs|
  {
    if xs != [] {
      var n := |xs| - 1;
      var init := xs[..n];
      IndexByLastWins(init, key, k);
      if key(xs[n]) == k {
        assert LastWith(xs, key, k, n);
      } else if k in IndexBy(init, key) {
        var i :| LastWith(init, key, k, i) && IndexBy(init, key)[k] == init[i];
        assert LastWith(xs, key, k, i);
      } else {
        assert forall i :: 0 <= i < n ==> xs[i] == init[i];
      }
    }
  }

  /** No more keys than elements. */
  lemma {:induction false} IndexBySize<T, K>(xs: seq<T>, key: T -> K)
    ensures |IndexBy(xs, key)| <= |xs|
    decreases |xs|
  {
    if xs != [] {
      var n := |xs| - 1;
      var m := IndexBy(xs[..n], key);
      IndexBySize(xs[..n], key);
      var k := key(xs[n]);
      if k in m {
        assert m[k := xs[n]].Keys == m.Keys;
      } else {
        assert m[k := xs[n]].Keys == m.Keys + {k};
      }
    }
  }

  /** Appending an element sets its key to it. */
  lemma IndexBySnoc<T, K>(xs: seq<T>, x: T, key: T -> K)
    ensures IndexBy(xs + [x], key) == IndexBy(xs, key)[key(x) := x]
  {
    assert (xs + [x])[..|xs|] == xs;
  }
}

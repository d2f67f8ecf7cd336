// Finite sums of integer weights, the vocabulary in which every counter of the
// system (reserved holds, spend windows, org budgets, float) is specified.
module Sums {

  /** The sum of `weight(k)` over the keys in `keys`. */
  ghost function SumOver<K(!new)>(keys: set<K>, weight: K -> int): int
  {
    if keys == {} then 0
    else
      var k :| k in keys;
      weight(k) + SumOver(keys - {k}, weight)
  }

  /** The sum does not depend on which key is taken out first. */
  lemma {:induction false} SumSplit<K(!new)>(keys: set<K>, weight: K -> int, k: K)
    requires k in keys
    ensures SumOver(keys, weight) == weight(k) + SumOver(keys - {k}, weight)
    decreases |keys|
  {
    var p :| p in keys && SumOver(keys, weight) == weight(p) + SumOver(keys - {p}, weight);
    if p != k {
      SumSplit(keys - {p}, weight, k);
      SumSplit(keys - {k}, weight, p);
      assert keys - {p} - {k} == keys - {k} - {p};
    }
  }

  lemma {:induction false} SumInsert<K(!new)>(keys: set<K>, weight: K -> int, k: K)
    requires k !in keys
    ensures SumOver(keys + {k}, weight) == weight(k) + SumOver(keys, weight)
  {
    SumSplit(keys + {k}, weight, k);
    assert keys + {k} - {k} == keys;
  }

  lemma {:induction false} SumSame<K(!new)>(keys: set<K>, f: K -> int, g: K -> int)
    requires forall k :: k in keys ==> f(k) == g(k)
    ensures SumOver(keys, f) == SumOver(keys, g)
    decreases |keys|
  {
    if keys != {} {
      var k :| k in keys;
      SumSplit(keys, f, k);
      SumSplit(keys, g, k);
      SumSame(keys - {k}, f, g);
    }
  }

  /** Changing the weight of one key changes the sum by exactly that key's change. */
  lemma {:induction false} SumChange<K(!new)>(keys: set<K>, f: K -> int, g: K -> int, k: K)
    requires k in keys
    requires forall x :: x in keys && x != k ==> f(x) == g(x)
    ensures SumOver(keys, g) == SumOver(keys, f) - f(k) + g(k)
  {
    SumSplit(keys, f, k);
    SumSplit(keys, g, k);
    SumSame(keys - {k}, f, g);
  }

  lemma {:induction false} SumNonNegative<K(!new)>(keys: set<K>, f: K -> int)
    requires forall k :: k in keys ==> 0 <= f(k)
    ensures 0 <= SumOver(keys, f)
    decreases |keys|
  {
    if keys != {} {
      var k :| k in keys;
      SumSplit(keys, f, k);
      SumNonNegative(keys - {k}, f);
    }
  }

  /** A sum over fewer keys with no larger weights is no larger. */
  lemma {:induction false} SumMonotone<K(!new)>(small: set<K>, f: K -> int, large: set<K>, g: K -> int)
    requires small <= large
    requires forall k :: k in small ==> f(k) <= g(k)
    requires forall k :: k in large ==> 0 <= g(k)
    ensures SumOver(small, f) <= SumOver(large, g)
    decreases |small|
  {
    if small == {} {
      SumNonNegative(large, g);
    } else {
      var k :| k in small;
      SumSplit(small, f, k);
      SumSplit(large, g, k);
      SumMonotone(small - {k}, f, large - {k}, g);
    }
  }

  lemma {:induction false} SumZero<K(!new)>(keys: set<K>, f: K -> int)
    requires forall k :: k in keys ==> f(k) == 0
    ensures SumOver(keys, f) == 0
    decreases |keys|
  {
    if keys != {} {
      var k :| k in keys;
      SumSplit(keys, f, k);
      SumZero(keys - {k}, f);
    }
  }

  /** Every summand of a non-negative sum is within the sum. */
  lemma {:induction false} SumMember<K(!new)>(keys: set<K>, f: K -> int, k: K)
    requires k in keys
    requires forall x :: x in keys ==> 0 <= f(x)
    ensures f(k) <= SumOver(keys, f)
  {
    SumSplit(keys, f, k);
    SumNonNegative(keys - {k}, f);
  }

  lemma {:induction false} SumAdd<K(!new)>(keys: set<K>, f: K -> int, g: K -> int, h: K -> int)
    requires forall k :: k in keys ==> h(k) == f(k) + g(k)
    ensures SumOver(keys, h) == SumOver(keys, f) + SumOver(keys, g)
    decreases |keys|
  {
    if keys != {} {
      var k :| k in keys;
      SumSplit(keys, f, k);
      SumSplit(keys, g, k);
      SumSplit(keys, h, k);
      SumAdd(keys - {k}, f, g, h);
    }
  }

  /** Keys of weight zero may be left out of a sum. */
  lemma {:induction false} SumSupport<K(!new)>(small: set<K>, large: set<K>, f: K -> int)
    requires small <= large
    requires forall k :: k in large && k !in small ==> f(k) == 0
    ensures SumOver(small, f) == SumOver(large, f)
    decreases |large|
  {
    if small != large {
      assert exists k :: k in large && k !in small;
      var k :| k in large && k !in small;
      SumSplit(large, f, k);
      SumSupport(small, large - {k}, f);
    }
  }

  lemma {:induction false} SumOnes<K(!new)>(keys: set<K>, f: K -> int)
    requires forall k :: k in keys ==> f(k) == 1
    ensures SumOver(keys, f) == |keys|
    decreases |keys|
  {
    if keys != {} {
      var k :| k in keys;
      SumSplit(keys, f, k);
      SumOnes(keys - {k}, f);
    }
  }

  // ---- Sums over the entries of a map ------------------------------------------------

  ghost function WeightAt<K(!new), V>(m: map<K, V>, weight: V -> int): K -> int {
    k => if k in m then weight(m[k]) else 0
  }

  /** The sum of the weights of the map's entries. */
  ghost function Measure<K(!new), V>(m: map<K, V>, weight: V -> int): int {
    SumOver(m.Keys, WeightAt(m, weight))
  }

  lemma MeasureAdd<K(!new), V>(m: map<K, V>, k: K, v: V, weight: V -> int)
    requires k !in m
    ensures Measure(m[k := v], weight) == Measure(m, weight) + weight(v)
  {
    var after := m[k := v];
    assert after.Keys == m.Keys + {k};
    SumInsert(m.Keys, WeightAt(after, weight), k);
    SumSame(m.Keys, WeightAt(m, weight), WeightAt(after, weight));
  }

  lemma MeasureRemove<K(!new), V>(m: map<K, V>, k: K, weight: V -> int)
    requires k in m
    ensures Measure(m - {k}, weight) == Measure(m, weight) - weight(m[k])
  {
    var after := m - {k};
    assert after.Keys == m.Keys - {k};
    SumSplit(m.Keys, WeightAt(m, weight), k);
    SumSame(after.Keys, WeightAt(m, weight), WeightAt(after, weight));
  }

  lemma MeasureUpdate<K(!new), V>(m: map<K, V>, k: K, v: V, weight: V -> int)
    requires k in m
    ensures Measure(m[k := v], weight) == Measure(m, weight) - weight(m[k]) + weight(v)
  {
    assert m[k := v].Keys == m.Keys;
    SumChange(m.Keys, WeightAt(m, weight), WeightAt(m[k := v], weight), k);
  }
}

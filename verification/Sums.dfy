/** Sums over finite maps and multisets, whatever the order of enumeration. */
module Sums {

  /** The sum of the values of a finite map. */
  ghost function SumMap<K>(m: map<K, int>): int {
    if m == map[] then 0 else
      var k :| k in m;
      m[k] + SumMap(m - {k})
  }

  /** Any key can be taken out first: the sum does not depend on the order. */
  lemma {:induction false} SumMapRemove<K>(m: map<K, int>, k: K)
    requires k in m
    ensures SumMap(m) == m[k] + SumMap(m - {k})
    decreases |m|
  {
    var p :| p in m && SumMap(m) == m[p] + SumMap(m - {p});
    if p != k {
      var rest := m - {p};
      SumMapRemove(rest, k);
      SumMapRemove(m - {k}, p);
      assert rest - {k} == m - {k} - {p};
    }
  }

  lemma SumMapAdd<K>(m: map<K, int>, k: K, v: int)
    requires k !in m
    ensures SumMap(m[k := v]) == SumMap(m) + v
  {
    SumMapRemove(m[k := v], k);
    assert m[k := v] - {k} == m;
  }

  lemma {:induction false} SumMapNonNegative<K>(m: map<K, int>)
    requires forall k :: k in m ==> m[k] >= 0
    ensures SumMap(m) >= 0
    decreases |m|
  {
    if m != map[] {
      var k :| k in m;
      SumMapRemove(m, k);
      SumMapNonNegative(m - {k});
    }
  }

  /** Leaving out entries with non-negative values cannot raise the sum. */
  lemma {:induction false} SumMapSubset<K>(m: map<K, int>, s: set<K>)
    requires forall k :: k in m ==> m[k] >= 0
    ensures 0 <= SumMap(m - s) <= SumMap(m)
    decreases |m|
  {
    SumMapNonNegative(m - s);
    if m == map[] {
      assert m - s == map[];
    } else {
      var k :| k in m;
      SumMapRemove(m, k);
      SumMapSubset(m - {k}, s);
      if k in s {
        assert m - s == m - {k} - s;
      } else {
        SumMapRemove(m - s, k);
        assert m - s - {k} == m - {k} - s;
      }
    }
  }

  /** The sum of `f` over a multiset. */
  ghost function SumBag<T>(b: multiset<T>, f: T -> nat): nat {
    if b == multiset{} then 0 else
      var x :| x in b;
      f(x) + SumBag(b - multiset{x}, f)
  }

  lemma {:induction false} SumBagRemove<T>(b: multiset<T>, f: T -> nat, x: T)
    requires x in b
    ensures SumBag(b, f) == f(x) + SumBag(b - multiset{x}, f)
    decreases |b|
  {
    var p :| p in b && SumBag(b, f) == f(p) + SumBag(b - multiset{p}, f);
    if p != x {
      var rest := b - multiset{p};
      SumBagRemove(rest, f, x);
      SumBagRemove(b - multiset{x}, f, p);
      assert rest - multiset{x} == b - multiset{x} - multiset{p};
    }
  }

  lemma SumBagAdd<T>(b: multiset<T>, f: T -> nat, x: T)
    ensures SumBag(b + multiset{x}, f) == SumBag(b, f) + f(x)
  {
    SumBagRemove(b + multiset{x}, f, x);
    assert b + multiset{x} - multiset{x} == b;
  }
}

/** Sums over finite maps, and sequences of integers. */
module Tally {

  ghost function Pick<K, V>(m: map<K, V>): K
    requires m != map[]
  {
    var k :| k in m; k
  }

  /** The sum of `w` over the values of `m`. */
  ghost function Sum<K, V>(m: map<K, V>, w: V -> int): int
    decreases |m|
  {
    if m == map[] then 0 else
      var k := Pick(m);
      w(m[k]) + Sum(m - {k}, w)
  }

  /** Any key may be taken out first: the sum does not depend on the order of summation. */
  lemma {:induction false} SumWithout<K, V>(m: map<K, V>, w: V -> int, k: K)
    requires k in m
    ensures Sum(m, w) == w(m[k]) + Sum(m - {k}, w)
    decreases |m|
  {
    var first := Pick(m);
    if first != k {
      SumWithout(m - {first}, w, k);
      SumWithout(m - {k}, w, first);
      assert m - {first} - {k} == m - {k} - {first};
    }
  }

  lemma SumWith<K, V>(m: map<K, V>, w: V -> int, k: K, v: V)
    requires k !in m
    ensures Sum(m[k := v], w) == Sum(m, w) + w(v)
  {
    SumWithout(m[k := v], w, k);
    assert m[k := v] - {k} == m;
  }

  /** Cutting a map along a set of keys cuts its sum. */
  lemma {:induction false} SumSplit<K, V>(m: map<K, V>, w: V -> int, keys: set<K>)
    ensures Sum(m, w) == Sum(m - keys, w) + Sum(m - (m.Keys - keys), w)
    decreases |m|
  {
    var rest := m.Keys - keys;
    if m == map[] {
      assert m - keys == map[] && m - rest == map[];
    } else {
      var k := Pick(m);
      var n := m - {k};
      SumSplit(n, w, keys);
      if k in keys {
        assert m - keys == n - keys;
        SumWithout(m - rest, w, k);
        assert m - rest - {k} == n - (n.Keys - keys);
      } else {
        assert m - rest == n - (n.Keys - keys);
        SumWithout(m - keys, w, k);
        assert m - keys - {k} == n - keys;
      }
    }
  }

  lemma {:induction false} SumOfZeros<K, V>(m: map<K, V>, w: V -> int)
    requires forall k :: k in m ==> w(m[k]) == 0
    ensures Sum(m, w) == 0
    decreases |m|
  {
    if m != map[] {
      SumOfZeros(m - {Pick(m)}, w);
    }
  }

  function Max(x: int, y: int): int {
    if x < y then y else x
  }

  function Min(x: int, y: int): int {
    if x < y then x else y
  }
}

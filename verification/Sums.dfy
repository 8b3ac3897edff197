/** Sums over the values of a finite map, in any order. */
module Sums {

  ghost function Total<K>(m: map<K, int>): int
    decreases |m|
  {
    if m == map[] then 0
    else
      var k :| k in m;
      Shrinks(m, k);
      m[k] + Total(m - {k})
  }

  lemma Shrinks<K>(m: map<K, int>, k: K)
    requires k in m
    ensures |m - {k}| < |m|
  {
    assert (m - {k}).Keys == m.Keys - {k};
  }

  /** Any key may be taken out first. */
  lemma {:induction false} TotalRemove<K>(m: map<K, int>, x: K)
    requires x in m
    ensures Total(m) == m[x] + Total(m - {x})
    decreases |m|
  {
    var k :| k in m && Total(m) == m[k] + Total(m - {k});
    if k != x {
      Shrinks(m, k);
      Shrinks(m, x);
      TotalRemove(m - {k}, x);
      TotalRemove(m - {x}, k);
      assert m - {k} - {x} == m - {x} - {k};
    }
  }

  /** Writing one entry moves the total by the difference it makes. */
  lemma TotalUpdate<K>(m: map<K, int>, x: K, v: int)
    ensures Total(m[x := v]) == Total(m) - (if x in m then m[x] else 0) + v
  {
    TotalRemove(m[x := v], x);
    if x in m {
      TotalRemove(m, x);
      assert m[x := v] - {x} == m - {x};
    } else {
      assert m[x := v] - {x} == m;
    }
  }

  lemma {:induction false} TotalLe<K>(a: map<K, int>, b: map<K, int>)
    requires a.Keys == b.Keys
    requires forall k :: k in a ==> a[k] <= b[k]
    ensures Total(a) <= Total(b)
    decreases |a|
  {
    if a == map[] {
      assert b == map[];
    } else {
      var k :| k in a;
      Shrinks(a, k);
      TotalRemove(a, k);
      TotalRemove(b, k);
      TotalLe(a - {k}, b - {k});
    }
  }

  lemma {:induction false} TotalZero<K>(m: map<K, int>)
    requires forall k :: k in m ==> m[k] == 0
    ensures Total(m) == 0
    decreases |m|
  {
    if m != map[] {
      var k :| k in m;
      Shrinks(m, k);
      TotalRemove(m, k);
      TotalZero(m - {k});
    }
  }

  /** With no negative entry, one entry is at most the total. */
  lemma {:induction false} TotalBoundsEntry<K>(m: map<K, int>, x: K)
    requires x in m
    requires forall k :: k in m ==> 0 <= m[k]
    ensures 0 <= m[x] <= Total(m)
  {
    TotalRemove(m, x);
    var rest := m - {x};
    var zeros := map k | k in rest :: 0;
    TotalZero(zeros);
    TotalLe(zeros, rest);
  }

  /** COUNT(*) FILTER: a column of zeros and ones adds up to the number of ones. */
  lemma {:induction false} TotalCounts<K>(m: map<K, int>, ones: set<K>)
    requires ones <= m.Keys
    requires forall k :: k in m ==> m[k] == if k in ones then 1 else 0
    ensures Total(m) == |ones|
    decreases |m|
  {
    if m == map[] {
      assert ones == {};
    } else {
      var k :| k in m;
      Shrinks(m, k);
      TotalRemove(m, k);
      TotalCounts(m - {k}, ones - {k});
      assert k !in ones ==> ones - {k} == ones;
    }
  }
}

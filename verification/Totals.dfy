/** Sums over finite maps, the arithmetic under every capacity ledger of the project. */
module Totals {

  datatype Option<+T> = None | Some(value: T)

  function Max(a: int, b: int): int {
    if a < b then b else a
  }

  function Min(a: int, b: int): int {
    if a < b then a else b
  }

  /** The largest member, 0 for none. */
  ghost function Largest(sizes: set<nat>): (r: nat)
    ensures forall n | n in sizes :: n <= r
    ensures r == 0 || r in sizes
    decreases |sizes|
  {
    if sizes == {} then 0
    else
      var n :| n in sizes;
      var rest := Largest(sizes - {n});
      assert forall m | m in sizes :: m == n || m in sizes - {n};
      if rest < n then n else rest
  }

  /** The sum of all values of `m`; the order of summation is arbitrary. */
  ghost function Sum<K(!new)>(m: map<K, int>): int
    decreases |m|
  {
    if m == map[] then 0 else
    var k :| k in m;
    m[k] + Sum(m - {k})
  }

  /** Any key can be summed first. */
  lemma {:induction false} SumRemove<K(!new)>(m: map<K, int>, k: K)
    requires k in m
    ensures Sum(m) == m[k] + Sum(m - {k})
    decreases |m|
  {
    var first :| first in m && Sum(m) == m[first] + Sum(m - {first});
    if first != k {
      SumRemove(m - {first}, k);
      SumRemove(m - {k}, first);
      assert m - {first} - {k} == m - {k} - {first};
    }
  }

  lemma SumInsert<K(!new)>(m: map<K, int>, k: K, v: int)
    requires k !in m
    ensures Sum(m[k := v]) == Sum(m) + v
  {
    SumRemove(m[k := v], k);
    assert m[k := v] - {k} == m;
  }

  lemma SumReplace<K(!new)>(m: map<K, int>, k: K, v: int)
    requires k in m
    ensures Sum(m[k := v]) == Sum(m) - m[k] + v
  {
    SumRemove(m, k);
    SumRemove(m[k := v], k);
    assert m[k := v] - {k} == m - {k};
  }

  /** A sum whose terms are non-negative is non-negative and at least each term. */
  lemma {:induction false} SumNonNegative<K(!new)>(m: map<K, int>)
    requires forall k | k in m :: 0 <= m[k]
    ensures 0 <= Sum(m)
    ensures forall k | k in m :: m[k] <= Sum(m)
    decreases |m|
  {
    forall k | k in m ensures m[k] <= Sum(m) {
      SumRemove(m, k);
      SumNonNegative(m - {k});
    }
    if m != map[] {
      var k :| k in m;
      assert m[k] <= Sum(m);
    }
  }

  /** Termwise difference: if `a` exceeds `b` by at most `slack` on `marked` keys and not at all
      elsewhere, the totals differ by at most `slack` per marked key. */
  lemma {:induction false} SumSlack<K(!new)>(a: map<K, int>, b: map<K, int>, marked: set<K>, slack: nat)
    requires a.Keys == b.Keys && marked <= a.Keys
    requires forall k | k in a :: a[k] <= b[k] + (if k in marked then slack else 0)
    ensures Sum(a) <= Sum(b) + slack * |marked|
    decreases |a|
  {
    if a == map[] {
      assert marked == {} && b == map[];
    } else {
      var k :| k in a;
      SumRemove(a, k);
      SumRemove(b, k);
      SumSlack(a - {k}, b - {k}, marked - {k}, slack);
      OneMarkLess(marked, k, slack);
    }
  }

  lemma OneMarkLess<K>(marked: set<K>, k: K, slack: nat)
    ensures slack * |marked| == slack * |marked - {k}| + (if k in marked then slack else 0)
  {
    if k in marked {
      assert marked == marked - {k} + {k};
    } else {
      assert marked - {k} == marked;
    }
  }

  lemma {:induction false} SubsetSize<T>(a: set<T>, b: set<T>)
    requires a <= b
    ensures |a| <= |b|
    decreases |a|
  {
    if a != {} {
      var x :| x in a;
      SubsetSize(a - {x}, b - {x});
    }
  }

  lemma InsertSize<K, V>(m: map<K, V>, k: K, v: V)
    ensures |m[k := v]| == |m| + (if k in m then 0 else 1)
  {
    assert m[k := v].Keys == m.Keys + {k};
  }

  lemma RemoveSize<K, V>(m: map<K, V>, k: K)
    requires k in m
    ensures |m - {k}| == |m| - 1
  {
    assert (m - {k}).Keys == m.Keys - {k};
  }

  /** The sum of real values, in any order. */
  ghost function RealSum<K(!new)>(m: map<K, real>): real
    decreases |m|
  {
    if m == map[] then 0.0 else
    var k :| k in m;
    m[k] + RealSum(m - {k})
  }

  lemma {:induction false} RealSumRemove<K(!new)>(m: map<K, real>, k: K)
    requires k in m
    ensures RealSum(m) == m[k] + RealSum(m - {k})
    decreases |m|
  {
    var first :| first in m && RealSum(m) == m[first] + RealSum(m - {first});
    if first != k {
      RealSumRemove(m - {first}, k);
      RealSumRemove(m - {k}, first);
      assert m - {first} - {k} == m - {k} - {first};
    }
  }

  lemma RealSumUpdate<K(!new)>(m: map<K, real>, k: K, v: real)
    ensures RealSum(m[k := v]) == RealSum(m) + v - (if k in m then m[k] else 0.0)
  {
    RealSumRemove(m[k := v], k);
    if k in m { RealSumRemove(m, k); }
    assert m[k := v] - {k} == m - {k};
    if k !in m { assert m - {k} == m; }
  }
}

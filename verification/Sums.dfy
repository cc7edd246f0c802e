/** Sums over the values of a finite map, in any order, and sizes of sets. */
module Sums {

  function Min(a: nat, b: nat): nat {
    if a < b then a else b
  }

  lemma {:induction false} SubsetSize<T>(a: set<T>, b: set<T>)
    requires a <= b
    ensures |a| <= |b|
    decreases |a|
  {
    if a != {} {
      var x :| x in a;
      SubsetSize(a - {x}, b - {x});
    }
  }

  ghost function Total<K>(m: map<K, nat>): nat
    decreases |m|
  {
    if m == map[] then 0 else var k :| k in m; m[k] + Total(m - {k})
  }

  /** Any entry may be taken out first. */
  lemma {:induction false} TotalRemove<K>(m: map<K, nat>, k: K)
    requires k in m
    ensures Total(m) == m[k] + Total(m - {k})
    decreases |m|
  {
    var j :| j in m && Total(m) == m[j] + Total(m - {j});
    if j != k {
      TotalRemove(m - {j}, k);
      TotalRemove(m - {k}, j);
      assert m - {j} - {k} == m - {k} - {j};
    }
  }

  lemma TotalAdd<K>(m: map<K, nat>, k: K, v: nat)
    requires k !in m
    ensures Total(m[k := v]) == Total(m) + v
  {
    TotalRemove(m[k := v], k);
    assert m[k := v] - {k} == m;
  }

  lemma OneMore(n: nat, bound: nat)
    ensures (n + 1) * bound == n * bound + bound
  {
  }

  lemma {:induction false} TotalAtMost<K>(m: map<K, nat>, n: nat, bound: nat)
    requires |m| == n && forall k :: k in m ==> m[k] <= bound
    ensures Total(m) <= n * bound
    decreases n
  {
    if n > 0 {
      var k :| k in m && Total(m) == m[k] + Total(m - {k});
      assert (m - {k}).Keys == m.Keys - {k};
      TotalAtMost(m - {k}, n - 1, bound);
      OneMore(n - 1, bound);
    }
  }

  lemma {:induction false} TotalOfEqual<K>(m: map<K, nat>, n: nat, v: nat)
    requires |m| == n && forall k :: k in m ==> m[k] == v
    ensures Total(m) == n * v
    decreases n
  {
    if n > 0 {
      var k :| k in m && Total(m) == m[k] + Total(m - {k});
      assert (m - {k}).Keys == m.Keys - {k};
      TotalOfEqual(m - {k}, n - 1, v);
      OneMore(n - 1, v);
    }
  }

  /** A few entries add at most as many bounds to the sum of the rest. */
  lemma {:induction false} TotalOfFew<K>(m: map<K, nat>, few: set<K>, n: nat, bound: nat)
    requires |few| == n && forall k :: k in m && k in few ==> m[k] <= bound
    ensures Total(m) <= n * bound + Total(m - few)
    decreases n
  {
    if n == 0 {
      assert m - few == m;
    } else {
      var k :| k in few;
      OneMore(n - 1, bound);
      assert m - {k} - (few - {k}) == m - few;
      if k in m {
        TotalRemove(m, k);
        TotalOfFew(m - {k}, few - {k}, n - 1, bound);
      } else {
        assert m - {k} == m;
        TotalOfFew(m, few - {k}, n - 1, bound);
      }
    }
  }

  /** If every entry of `coarse` is the image of an entry of `fine` of the same size, the
      coarse map sums to no more. */
  lemma {:induction false} TotalProject<K>(coarse: map<K, nat>, fine: map<K, nat>, pick: map<K, K>)
    requires forall k :: k in coarse ==> k in pick && pick[k] in fine && fine[pick[k]] == coarse[k]
    requires forall k, l :: k in coarse && l in coarse && pick[k] == pick[l] ==> k == l
    ensures Total(coarse) <= Total(fine)
    decreases |coarse|
  {
    if coarse != map[] {
      var k :| k in coarse;
      TotalRemove(coarse, k);
      TotalRemove(fine, pick[k]);
      TotalProject(coarse - {k}, fine - {pick[k]}, pick);
    }
  }

  /** `sum(m.values())`. */
  method SumValues<K(==)>(m: map<K, nat>) returns (total: nat)
    ensures total == Total(m)
  {
    total := 0;
    var left := m;
    while left != map[]
      invariant total + Total(left) == Total(m)
      decreases |left|
    {
      var k :| k in left;
      TotalRemove(left, k);
      total := total + left[k];
      left := left - {k};
    }
  }

  // ---------------------------------------------------------------- real values

  ghost function SumOf<K>(m: map<K, real>): real
    decreases |m|
  {
    if m == map[] then 0.0 else var k :| k in m; m[k] + SumOf(m - {k})
  }

  lemma {:induction false} SumOfRemove<K>(m: map<K, real>, k: K)
    requires k in m
    ensures SumOf(m) == m[k] + SumOf(m - {k})
    decreases |m|
  {
    var j :| j in m && SumOf(m) == m[j] + SumOf(m - {j});
    if j != k {
      SumOfRemove(m - {j}, k);
      SumOfRemove(m - {k}, j);
      assert m - {j} - {k} == m - {k} - {j};
    }
  }

  lemma SumOfUpdate<K>(m: map<K, real>, k: K, v: real)
    requires k in m
    ensures SumOf(m[k := v]) == SumOf(m) - m[k] + v
  {
    SumOfRemove(m, k);
    SumOfRemove(m[k := v], k);
    assert m[k := v] - {k} == m - {k};
  }

  lemma OneMoreReal(n: nat, v: real)
    ensures v * ((n + 1) as real) == v * (n as real) + v
  {
    assert (n + 1) as real == n as real + 1.0;
  }

  /** The sum of `n` copies of `v`. */
  function Copies(n: nat, v: real): real {
    if n == 0 then 0.0 else Copies(n - 1, v) + v
  }

  lemma {:induction false} CopiesIsProduct(n: nat, v: real)
    ensures Copies(n, v) == v * (n as real)
  {
    if n > 0 {
      CopiesIsProduct(n - 1, v);
      OneMoreReal(n - 1, v);
    }
  }

  lemma {:induction false} SumOfConstant<K>(m: map<K, real>, n: nat, v: real)
    requires |m| == n && forall k :: k in m ==> m[k] == v
    ensures SumOf(m) == Copies(n, v)
    decreases n
  {
    if n > 0 {
      var k :| k in m && SumOf(m) == m[k] + SumOf(m - {k});
      assert (m - {k}).Keys == m.Keys - {k};
      SumOfConstant(m - {k}, n - 1, v);
    }
  }
}

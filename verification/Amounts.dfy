/**
The amounts the ledger accepts, as integers in units of 10^-30, the finest exponent `_amount` admits;
1e30 is the largest magnitude.
*/
module Amounts {
  const UNIT: int := 1_000_000_000_000_000_000_000_000_000_000

  const LIMIT: int := UNIT * UNIT

  predicate Admissible(x: int) {
    -LIMIT <= x <= LIMIT
  }

  predicate AdmissibleQuantity(x: int) {
    0 <= x <= LIMIT
  }
}

/** Sums over dictionaries, whatever the order in which their entries are visited. */
module Sums {
  ghost function Sum<K>(m: map<K, int>): int
    decreases |m|
  {
    if m == map[] then 0
    else
      var k :| k in m;
      m[k] + Sum(m - {k})
  }

  /** Any key may be taken first. */
  lemma {:induction false} SumWithout<K>(m: map<K, int>, k: K)
    requires k in m
    ensures Sum(m) == m[k] + Sum(m - {k})
    decreases |m|
  {
    var x :| x in m && Sum(m) == m[x] + Sum(m - {x});
    if x != k {
      SumWithout(m - {x}, k);
      SumWithout(m - {k}, x);
      assert m - {x} - {k} == m - {k} - {x};
    }
  }

  lemma SumWith<K>(m: map<K, int>, k: K, v: int)
    requires k !in m
    ensures Sum(m[k := v]) == Sum(m) + v
  {
    SumWithout(m[k := v], k);
    assert m[k := v] - {k} == m;
  }

  function Minus<K>(a: map<K, int>, b: map<K, int>): map<K, int>
    requires a.Keys == b.Keys
  {
    map k | k in a :: a[k] - b[k]
  }

  /** The sum of the differences is the difference of the sums. */
  lemma {:induction false} SumOfDifferences<K>(a: map<K, int>, b: map<K, int>)
    requires a.Keys == b.Keys
    ensures Sum(Minus(a, b)) == Sum(a) - Sum(b)
    decreases |a|
  {
    if a == map[] {
      assert b == map[];
    } else {
      var k :| k in a;
      SumWithout(a, k);
      SumWithout(b, k);
      SumWithout(Minus(a, b), k);
      assert Minus(a, b) - {k} == Minus(a - {k}, b - {k});
      SumOfDifferences(a - {k}, b - {k});
    }
  }

  /** A sum of bounded entries is bounded. */
  lemma {:induction false} SumBounded<K>(m: map<K, int>, limit: int)
    requires limit >= 0 && forall k :: k in m ==> 0 <= m[k] <= limit
    ensures 0 <= Sum(m) <= |m| * limit
    decreases |m|
  {
    if m != map[] {
      var k :| k in m;
      SumWithout(m, k);
      SumBounded(m - {k}, limit);
      OneLess(m, k);
      OneMoreTimes(|m|, limit);
    }
  }

  lemma OneLess<K>(m: map<K, int>, k: K)
    requires k in m
    ensures |m - {k}| == |m| - 1
  {
    assert (m - {k}).Keys == m.Keys - {k};
  }

  lemma OneMoreTimes(n: int, limit: int)
    ensures n * limit == (n - 1) * limit + limit
  {
  }
}

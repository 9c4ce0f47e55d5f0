/** Sums over sequences and finite maps, and the few facts about them that the other
    modules need. */
module Sums {

  datatype Option<+T> = None | Some(value: T)

  /** The sum of the values of a finite map. */
  ghost function Total<K(!new)>(m: map<K, int>): int {
    if m == map[] then 0 else
    var k :| k in m;
    m[k] + Total(m - {k})
  }

  /** `Total` does not depend on the order in which keys are taken. */
  lemma {:induction false} TotalTakesAnyKey<K(!new)>(m: map<K, int>, k: K)
    requires k in m
    ensures Total(m) == m[k] + Total(m - {k})
    decreases m.Keys
  {
    var j :| j in m && Total(m) == m[j] + Total(m - {j});
    if j != k {
      var rest := m - {j};
      assert rest.Keys < m.Keys by { assert j !in rest.Keys; }
      TotalTakesAnyKey(rest, k);
      var other := m - {k};
      assert other.Keys < m.Keys by { assert k !in other.Keys; }
      TotalTakesAnyKey(other, j);
      assert rest - {k} == other - {j};
    }
  }

  lemma {:induction false} TotalUpdate<K(!new)>(m: map<K, int>, k: K, v: int)
    ensures Total(m[k := v]) == Total(m) - (if k in m then m[k] else 0) + v
  {
    var u := m[k := v];
    TotalTakesAnyKey(u, k);
    assert u - {k} == m - {k};
    if k in m {
      TotalTakesAnyKey(m, k);
    } else {
      assert m - {k} == m;
    }
  }

  lemma {:induction false} TotalRemove<K(!new)>(m: map<K, int>, k: K)
    requires k in m
    ensures Total(m - {k}) == Total(m) - m[k]
  {
    TotalTakesAnyKey(m, k);
  }

  lemma {:induction false} TotalMonotone<K(!new)>(a: map<K, int>, b: map<K, int>)
    requires a.Keys == b.Keys
    requires forall k :: k in a ==> a[k] <= b[k]
    ensures Total(a) <= Total(b)
    decreases a.Keys
  {
    if a != map[] {
      var k :| k in a;
      TotalTakesAnyKey(a, k);
      TotalTakesAnyKey(b, k);
      assert (a - {k}).Keys < a.Keys by { assert k !in (a - {k}).Keys; }
      TotalMonotone(a - {k}, b - {k});
    } else {
      assert b == map[];
    }
  }

  lemma {:induction false} TotalNotPositive<K(!new)>(m: map<K, int>)
    requires forall k :: k in m ==> m[k] <= 0
    ensures Total(m) <= 0
    decreases m.Keys
  {
    if m != map[] {
      var k :| k in m;
      TotalTakesAnyKey(m, k);
      assert (m - {k}).Keys < m.Keys by { assert k !in (m - {k}).Keys; }
      TotalNotPositive(m - {k});
    }
  }

  function ValueOrZero<K(!new)>(m: map<K, int>, k: K): int { if k in m then m[k] else 0 }

  /** Entries that are zero do not matter. */
  lemma {:induction false} TotalIgnoresZeros<K(!new)>(a: map<K, int>, b: map<K, int>)
    requires forall k :: ValueOrZero(a, k) == ValueOrZero(b, k)
    ensures Total(a) == Total(b)
    decreases a.Keys, b.Keys
  {
    if a != map[] {
      var k :| k in a;
      TotalTakesAnyKey(a, k);
      assert (a - {k}).Keys < a.Keys by { assert k !in (a - {k}).Keys; }
      assert ValueOrZero(a, k) == ValueOrZero(b, k);
      forall j
        ensures ValueOrZero(a - {k}, j) == ValueOrZero(b - {k}, j)
      {
        assert ValueOrZero(a, j) == ValueOrZero(b, j);
      }
      TotalIgnoresZeros(a - {k}, b - {k});
      if k in b {
        TotalTakesAnyKey(b, k);
      } else {
        assert b - {k} == b;
      }
    } else if b != map[] {
      var k :| k in b;
      TotalTakesAnyKey(b, k);
      assert (b - {k}).Keys < b.Keys by { assert k !in (b - {k}).Keys; }
      assert ValueOrZero(a, k) == ValueOrZero(b, k);
      forall j
        ensures ValueOrZero(a, j) == ValueOrZero(b - {k}, j)
      {
        assert ValueOrZero(a, j) == ValueOrZero(b, j);
      }
      TotalIgnoresZeros(a, b - {k});
    }
  }

  /** Two maps that differ in one entry. */
  lemma {:induction false} TotalShifts<K(!new)>(a: map<K, int>, b: map<K, int>, hit: bool, k: K, n: int)
    requires forall j :: ValueOrZero(a, j) == ValueOrZero(b, j) + (if hit && j == k then n else 0)
    ensures Total(a) == Total(b) + (if hit then n else 0)
  {
    if hit {
      var v := ValueOrZero(b, k) + n;
      TotalIgnoresZeros(a, b[k := v]);
      TotalUpdate(b, k, v);
    } else {
      TotalIgnoresZeros(a, b);
    }
  }

  // ----- sizes ----------------------------------------------------------------------

  lemma {:induction false} SubsetSize<T>(a: set<T>, b: set<T>)
    requires a <= b
    ensures |a| <= |b|
    decreases a
  {
    if a != {} {
      var x :| x in a;
      SubsetSize(a - {x}, b - {x});
    }
  }

  // ----- products -------------------------------------------------------------------

  lemma {:induction false} Multiply(c: int, x: int, y: int)
    requires c >= 0 && x <= y
    ensures c * x <= c * y && x * c <= y * c
  {
  }

  lemma {:induction false} OneMoreTime(n: int, c: int)
    ensures n * c == (n - 1) * c + c
  {
  }
}

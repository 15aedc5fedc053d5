/** Sums of integer-valued maps over finite sets of keys. */
module Sums {

  /** The sum of `m[k]` for `k` in `ks`; keys outside the map count as 0. */
  ghost function Over<K>(m: map<K, int>, ks: set<K>): int
  {
    if ks == {} then 0
    else
      var k :| k in ks;
      At(m, k) + Over(m, ks - {k})
  }

  function At<K>(m: map<K, int>, k: K): int
  {
    if k in m then m[k] else 0
  }

  /** The sum does not depend on the order in which keys are taken out. */
  lemma {:induction false} Remove<K>(m: map<K, int>, ks: set<K>, k: K)
    requires k in ks
    ensures Over(m, ks) == At(m, k) + Over(m, ks - {k})
    decreases ks
  {
    var j :| j in ks && Over(m, ks) == At(m, j) + Over(m, ks - {j});
    if j != k {
      Remove(m, ks - {j}, k);
      Remove(m, ks - {k}, j);
      assert ks - {j} - {k} == ks - {k} - {j};
    }
  }

  lemma {:induction false} Add<K>(m: map<K, int>, ks: set<K>, k: K)
    requires k !in ks
    ensures Over(m, ks + {k}) == At(m, k) + Over(m, ks)
  {
    Remove(m, ks + {k}, k);
    assert ks + {k} - {k} == ks;
  }

  lemma {:induction false} Congruent<K>(m: map<K, int>, n: map<K, int>, ks: set<K>)
    requires forall k | k in ks :: At(m, k) == At(n, k)
    ensures Over(m, ks) == Over(n, ks)
    decreases ks
  {
    if ks != {} {
      var k :| k in ks;
      Remove(m, ks, k);
      Remove(n, ks, k);
      Congruent(m, n, ks - {k});
    }
  }

  /** Changing one entry changes the sum by the difference, if the key is counted. */
  lemma {:induction false} Update<K>(m: map<K, int>, ks: set<K>, k: K, v: int)
    ensures k in ks ==> Over(m[k := v], ks) == Over(m, ks) - At(m, k) + v
    ensures k !in ks ==> Over(m[k := v], ks) == Over(m, ks)
  {
    if k in ks {
      Remove(m, ks, k);
      Remove(m[k := v], ks, k);
      Congruent(m, m[k := v], ks - {k});
    } else {
      Congruent(m, m[k := v], ks);
    }
  }

  /** Every entry below a bound puts the sum below the bound times the number of entries. */
  lemma {:induction false} Bounded<K>(m: map<K, int>, ks: set<K>, bound: int)
    requires forall k | k in ks :: At(m, k) <= bound
    ensures Over(m, ks) <= |ks| * bound
    decreases ks
  {
    if ks != {} {
      var k :| k in ks;
      Remove(m, ks, k);
      Bounded(m, ks - {k}, bound);
      assert |ks - {k}| == |ks| - 1;
      OneMore(|ks| - 1, bound);
    }
  }

  lemma OneMore(n: int, bound: int)
    ensures (n + 1) * bound == n * bound + bound
  {
  }

  /** Entries that are nonnegative and sum to 0 are all 0. */
  lemma {:induction false} ZeroSum<K>(m: map<K, int>, ks: set<K>)
    requires forall k | k in ks :: At(m, k) >= 0
    ensures Over(m, ks) >= 0
    ensures Over(m, ks) == 0 ==> forall k | k in ks :: At(m, k) == 0
    decreases ks
  {
    if ks != {} {
      var k :| k in ks;
      Remove(m, ks, k);
      ZeroSum(m, ks - {k});
    }
  }

  /** Adding two maps entry by entry adds their sums. */
  lemma {:induction false} Plus<K>(m: map<K, int>, n: map<K, int>, sum: map<K, int>, ks: set<K>)
    requires forall k | k in ks :: At(sum, k) == At(m, k) + At(n, k)
    ensures Over(sum, ks) == Over(m, ks) + Over(n, ks)
    decreases ks
  {
    if ks != {} {
      var k :| k in ks;
      Remove(m, ks, k);
      Remove(n, ks, k);
      Remove(sum, ks, k);
      Plus(m, n, sum, ks - {k});
    }
  }

  /** With nonnegative entries a larger set of keys has a larger sum. */
  lemma {:induction false} Monotone<K>(m: map<K, int>, small: set<K>, large: set<K>)
    requires small <= large
    requires forall k | k in large :: At(m, k) >= 0
    ensures Over(m, small) <= Over(m, large)
    decreases large
  {
    if large <= small {
      assert small == large;
    } else {
      var k :| k in large && k !in small;
      Remove(m, large, k);
      Monotone(m, small, large - {k});
    }
  }

  /** Keys outside the map add nothing. */
  lemma {:induction false} Extend<K>(m: map<K, int>, ks: set<K>)
    requires m.Keys <= ks
    ensures Over(m, ks) == Over(m, m.Keys)
    decreases ks
  {
    if ks <= m.Keys {
      assert ks == m.Keys;
    } else {
      var k :| k in ks && k !in m.Keys;
      Remove(m, ks, k);
      Extend(m, ks - {k});
    }
  }
}

/**
 * How evenly smooth weighted round-robin spreads its picks.
 *
 * The running weights always sum to 0. For a fixed list with pairwise distinct keys and
 * positive weights they stay above `-T` and below `T * (1/2 + 1/3 + ... + 1/n)`, so that
 * after `k` calls every count is within those distances of its exact share `k * w / T`.
 */
module WeightedFairness {
  import opened Deployments
  import opened WeightedStrategy
  import Sums

  // ---------- Runs ----------

  /** The running weights after one call per list, from the empty state. */
  ghost function RunLists(weights: Weights, lists: seq<seq<DeploymentKey>>): Weights
  {
    if lists == [] then map[]
    else Step(weights, RunLists(weights, lists[..|lists| - 1]), lists[|lists| - 1]).0
  }

  /** The running weights after `k` calls with the same list, from the empty state. */
  ghost function Run(weights: Weights, keys: seq<DeploymentKey>, k: nat): Weights
  {
    if k == 0 then map[] else Step(weights, Run(weights, keys, k - 1), keys).0
  }

  /** How many of the first `k` calls picked position `i`. */
  ghost function Count(weights: Weights, keys: seq<DeploymentKey>, k: nat, i: nat): nat
  {
    if k == 0 then 0
    else
      var picked := Step(weights, Run(weights, keys, k - 1), keys).1;
      Count(weights, keys, k - 1, i) + if picked == Some(i) then 1 else 0
  }

  ghost function Total(weights: Weights, keys: seq<DeploymentKey>): int
  {
    TotalWeight(weights, keys, |keys|)
  }

  ghost predicate Distinct(keys: seq<DeploymentKey>)
  {
    forall i, j | 0 <= i < j < |keys| :: Differ(keys, i, j)
  }

  ghost predicate Differ(keys: seq<DeploymentKey>, i: nat, j: nat)
    requires i < |keys| && j < |keys|
  {
    keys[i] != keys[j]
  }

  ghost predicate Positive(weights: Weights, keys: seq<DeploymentKey>)
  {
    AllPositive(Shares(weights, keys))
  }

  // ---------- The sum of the running weights ----------

  ghost function KeySet(keys: seq<DeploymentKey>, n: nat): set<DeploymentKey>
    requires n <= |keys|
  {
    set key | key in keys[..n]
  }

  ghost function All(keys: seq<DeploymentKey>): set<DeploymentKey>
  {
    set key | key in keys
  }

  lemma KeySetGrows(keys: seq<DeploymentKey>, n: nat)
    requires n < |keys|
    ensures KeySet(keys, n + 1) == KeySet(keys, n) + {keys[n]}
    ensures KeySet(keys, |keys|) == All(keys)
    ensures Distinct(keys) ==> keys[n] !in KeySet(keys, n)
  {
    assert keys[..n + 1] == keys[..n] + [keys[n]];
    assert keys[..|keys|] == keys;
    if Distinct(keys) {
      forall key | key in KeySet(keys, n)
        ensures key != keys[n]
      {
        var i :| 0 <= i < n && keys[i] == key;
        assert Differ(keys, i, n);
      }
    }
  }

  lemma {:induction false} ChargingAddsTheTotal(
    weights: Weights, current: Weights, keys: seq<DeploymentKey>, n: nat, ks: set<DeploymentKey>)
    requires n <= |keys|
    requires All(keys) <= ks
    ensures Sums.Over(Charged(weights, current, keys, n), ks)
         == Sums.Over(current, ks) + TotalWeight(weights, keys, n)
  {
    if n > 0 {
      var key := keys[n - 1];
      ChargingAddsTheTotal(weights, current, keys, n - 1, ks);
      var before := Charged(weights, current, keys, n - 1);
      Sums.Update(before, ks, key, Sums.At(before, key) + WeightFor(weights, key));
    }
  }

  /** One call moves weight between the listed deployments and keeps the sum, whatever the list. */
  lemma {:induction false} StepKeepsTheSum(
    weights: Weights, current: Weights, keys: seq<DeploymentKey>, ks: set<DeploymentKey>)
    requires All(keys) <= ks
    ensures Sums.Over(Step(weights, current, keys).0, ks) == Sums.Over(current, ks)
  {
    if |keys| >= 2 {
      ChargingAddsTheTotal(weights, current, keys, |keys|, ks);
      var charged := Charged(weights, current, keys, |keys|);
      var key := keys[Best(charged, keys, |keys|)];
      Sums.Update(charged, ks, key, Sums.At(charged, key) - TotalWeight(weights, keys, |keys|));
    }
  }

  lemma {:induction false} ChargedKeys(weights: Weights, current: Weights, keys: seq<DeploymentKey>, n: nat)
    requires n <= |keys|
    ensures Charged(weights, current, keys, n).Keys == current.Keys + KeySet(keys, n)
  {
    if n > 0 {
      ChargedKeys(weights, current, keys, n - 1);
      KeySetGrows(keys, n - 1);
    }
  }

  lemma {:induction false} StepKeys(weights: Weights, current: Weights, keys: seq<DeploymentKey>)
    ensures Step(weights, current, keys).0.Keys == current.Keys + if |keys| >= 2 then All(keys) else {}
  {
    if |keys| >= 2 {
      ChargedKeys(weights, current, keys, |keys|);
      KeySetGrows(keys, 0);
    }
  }

  /** Over any history of healthy lists, repeated keys included, the running weights sum to 0. */
  lemma {:induction false} WeightsAlwaysSumToZero(weights: Weights, lists: seq<seq<DeploymentKey>>)
    ensures Sums.Over(RunLists(weights, lists), RunLists(weights, lists).Keys) == 0
  {
    if lists != [] {
      var keys := lists[|lists| - 1];
      var before := RunLists(weights, lists[..|lists| - 1]);
      WeightsAlwaysSumToZero(weights, lists[..|lists| - 1]);
      if |keys| >= 2 {
        StepKeys(weights, before, keys);
        var ks := before.Keys + All(keys);
        Sums.Extend(before, ks);
        StepKeepsTheSum(weights, before, keys, ks);
      }
    }
  }

  // ---------- The potential argument ----------

  /** The sum of all the weights handed out per call. */
  ghost function Sum(share: Weights): int
  {
    Sums.Over(share, share.Keys)
  }

  ghost predicate AllPositive(share: Weights)
  {
    forall key | key in share :: share[key] > 0
  }

  /** `after` is `before` with every key given its share and the whole sum taken from the heaviest, `best`. */
  ghost predicate Stepped(share: Weights, before: Weights, after: Weights, best: DeploymentKey)
  {
    && best in share
    && (forall key | key in share :: Gains(share, before, after, best, key))
    && (forall key | key in share :: Sums.At(before, key) + share[key] <= Sums.At(before, best) + share[best])
  }

  ghost predicate Gains(share: Weights, before: Weights, after: Weights, best: DeploymentKey, key: DeploymentKey)
    requires key in share
  {
    Sums.At(after, key) == Sums.At(before, key) + share[key] - if key == best then Sum(share) else 0
  }

  /** 1/(j+1) + 1/(j+2) + ... + 1/n. */
  ghost function Tail(j: nat, n: nat): real
    decreases n - j
  {
    if j >= n then 0.0 else 1.0 / (j + 1) as real + Tail(j + 1, n)
  }

  /**
   * The invariant behind fairness: the running weights sum to 0, none has fallen to `-T`,
   * and any `j` of them together hold at most `j * T * (1/(j+1) + ... + 1/n)`.
   */
  ghost predicate Balanced(share: Weights, current: Weights)
  {
    && Sums.Over(current, share.Keys) == 0
    && (forall key | key in share :: Sums.At(current, key) > -Sum(share))
    && (forall ks | ks <= share.Keys && ks != {} :: GroupBounded(share, current, ks))
  }

  ghost predicate GroupBounded(share: Weights, current: Weights, ks: set<DeploymentKey>)
  {
    Within(Sums.Over(current, ks), Sum(share), |ks|, Tail(|ks|, |share.Keys|))
  }

  ghost predicate Within(x: int, total: int, j: nat, tail: real)
  {
    x as real <= total as real * (j as real * tail)
  }

  /**
   * A group of `j` holds `x`; with one more member, which holds at least as much as each of them,
   * it holds `y`. If the larger group held `z`, within its bound, and gained at most `total`, then
   * `x` is within the bound for `j` members.
   */
  lemma GroupArithmetic(x: int, z: int, y: int, j: nat, total: int, tail: real)
    requires 1 <= j
    requires x <= j * (y - x)
    requires Within(z, total, j + 1, tail) && y <= z + total
    ensures Within(x, total, j, 1.0 / (j + 1) as real + tail)
  {
    var jr, xr, yr, t := j as real, x as real, y as real, total as real;
    var u := 1.0 / (jr + 1.0);
    assert (jr + 1.0) * u == 1.0;
    assert (j * (y - x)) as real == jr * (yr - xr);
    ScaleBound(jr, yr, t * ((jr + 1.0) * tail) + t);
    Regroup(jr, t, tail, u);
    CancelFactor(jr + 1.0, xr, t * (jr * (u + tail)));
  }

  lemma ScaleBound(j: real, y: real, bound: real)
    requires j >= 0.0 && y <= bound
    ensures j * y <= j * bound
  {
  }

  lemma Regroup(j: real, t: real, tail: real, u: real)
    requires (j + 1.0) * u == 1.0
    ensures j * (t * ((j + 1.0) * tail) + t) == (j + 1.0) * (t * (j * (u + tail)))
  {
    assert (j + 1.0) * (t * (j * (u + tail))) == t * j * ((j + 1.0) * u) + t * j * ((j + 1.0) * tail);
  }

  lemma CancelFactor(f: real, x: real, y: real)
    requires f > 0.0 && f * x <= f * y
    ensures x <= y
  {
  }

  lemma SubsetCount<T>(small: set<T>, large: set<T>)
    requires small <= large
    ensures |small| <= |large|
  {
    assert large == small + (large - small);
  }

  lemma {:induction false} SharesWithinSum(share: Weights, ks: set<DeploymentKey>)
    requires AllPositive(share)
    requires ks <= share.Keys
    ensures 0 <= Sums.Over(share, ks) <= Sum(share)
  {
    Sums.Monotone(share, ks, share.Keys);
    Sums.ZeroSum(share, ks);
  }

  lemma {:induction false} SumIsPositive(share: Weights)
    requires AllPositive(share) && share != map[]
    ensures Sum(share) > 0
  {
    var key :| key in share;
    Sums.ZeroSum(share, share.Keys);
    assert Sums.At(share, key) > 0;
  }

  /** What a call adds to the sum over a group: its shares, less the whole sum if the winner is in it. */
  lemma {:induction false} SteppedOver(
    share: Weights, before: Weights, after: Weights, best: DeploymentKey, ks: set<DeploymentKey>)
    requires Stepped(share, before, after, best)
    requires ks <= share.Keys
    ensures Sums.Over(after, ks) == Sums.Over(before, ks) + Sums.Over(share, ks)
                                    - if best in ks then Sum(share) else 0
    decreases ks
  {
    if ks != {} {
      var key :| key in ks;
      Sums.Remove(after, ks, key);
      Sums.Remove(before, ks, key);
      Sums.Remove(share, ks, key);
      SteppedOver(share, before, after, best, ks - {key});
      assert Gains(share, before, after, best, key);
    }
  }

  lemma {:induction false} HeaviestIsAboveAverage(
    share: Weights, before: Weights, after: Weights, best: DeploymentKey, ks: set<DeploymentKey>)
    requires Stepped(share, before, after, best)
    requires ks <= share.Keys && best !in ks
    ensures Sums.Over(after, ks) <= |ks| * (Sums.At(before, best) + share[best])
  {
    forall key | key in ks
      ensures Sums.At(after, key) <= Sums.At(before, best) + share[best]
    {
      assert Gains(share, before, after, best, key);
    }
    Sums.Bounded(after, ks, Sums.At(before, best) + share[best]);
  }

  lemma {:induction false} GroupWithoutWinner(
    share: Weights, before: Weights, after: Weights, best: DeploymentKey, ks: set<DeploymentKey>)
    returns (y: int)
    requires AllPositive(share)
    requires Stepped(share, before, after, best)
    requires ks <= share.Keys && best !in ks
    ensures Sums.Over(after, ks) <= |ks| * (y - Sums.Over(after, ks))
    ensures y <= Sums.Over(before, ks + {best}) + Sum(share)
  {
    var more := ks + {best};
    SteppedOver(share, before, after, best, ks);
    SharesWithinSum(share, more);
    Sums.Add(before, ks, best);
    Sums.Add(share, ks, best);
    HeaviestIsAboveAverage(share, before, after, best, ks);
    y := Sums.Over(before, more) + Sums.Over(share, more);
    assert y - Sums.Over(after, ks) == Sums.At(before, best) + share[best];
  }

  lemma {:induction false} WinnerOutsideGroup(
    share: Weights, before: Weights, after: Weights, best: DeploymentKey, ks: set<DeploymentKey>)
    requires AllPositive(share)
    requires Stepped(share, before, after, best)
    requires ks <= share.Keys && ks != {} && best !in ks
    requires GroupBounded(share, before, ks + {best})
    ensures GroupBounded(share, after, ks)
  {
    var y := GroupWithoutWinner(share, before, after, best, ks);
    SubsetCount(ks + {best}, share.Keys);
    GroupArithmetic(
      Sums.Over(after, ks), Sums.Over(before, ks + {best}), y,
      |ks|, Sum(share), Tail(|ks + {best}|, |share.Keys|));
  }

  lemma {:induction false} WinnerInsideGroup(
    share: Weights, before: Weights, after: Weights, best: DeploymentKey, ks: set<DeploymentKey>)
    requires AllPositive(share)
    requires Stepped(share, before, after, best)
    requires ks <= share.Keys && best in ks
    requires GroupBounded(share, before, ks)
    ensures GroupBounded(share, after, ks)
  {
    SteppedOver(share, before, after, best, ks);
    SharesWithinSum(share, ks);
  }

  /** The charged weights sum to T > 0, so the largest of them is positive. */
  lemma {:induction false} HeaviestIsPositive(share: Weights, before: Weights, after: Weights, best: DeploymentKey)
    requires AllPositive(share)
    requires Stepped(share, before, after, best)
    requires Sums.Over(before, share.Keys) == 0
    ensures Sums.At(before, best) + share[best] > 0
  {
    var heaviest := Sums.At(before, best) + share[best];
    var rest := share.Keys - {best};
    SumIsPositive(share);
    SteppedOver(share, before, after, best, share.Keys);
    Sums.Remove(after, share.Keys, best);
    HeaviestIsAboveAverage(share, before, after, best, rest);
    assert Gains(share, before, after, best, best);
    if heaviest <= 0 {
      ProductOfSigns(|rest|, heaviest);
    }
  }

  lemma ProductOfSigns(n: nat, x: int)
    requires x <= 0
    ensures n * x <= 0
  {
  }

  lemma {:induction false} StepKeepsBalance(share: Weights, before: Weights, after: Weights, best: DeploymentKey)
    requires AllPositive(share)
    requires Balanced(share, before)
    requires Stepped(share, before, after, best)
    ensures Balanced(share, after)
  {
    SteppedOver(share, before, after, best, share.Keys);
    HeaviestIsPositive(share, before, after, best);
    forall key | key in share
      ensures Sums.At(after, key) > -Sum(share)
    {
      assert Gains(share, before, after, best, key);
    }
    forall ks | ks <= share.Keys && ks != {}
      ensures GroupBounded(share, after, ks)
    {
      if best in ks {
        WinnerInsideGroup(share, before, after, best, ks);
      } else {
        assert GroupBounded(share, before, ks + {best});
        WinnerOutsideGroup(share, before, after, best, ks);
      }
    }
  }

  lemma {:induction false} StartIsBalanced(share: Weights)
    requires AllPositive(share) && share != map[]
    ensures Balanced(share, map[])
  {
    SumIsPositive(share);
    forall ks: set<DeploymentKey>
      ensures Sums.Over(map[], ks) == 0
      ensures GroupBounded(share, map[], ks)
    {
      Sums.ZeroSum<DeploymentKey>(map[], ks);
      Sums.Bounded<DeploymentKey>(map[], ks, 0);
      TailIsNonnegative(|ks|, |share.Keys|);
      ZeroIsWithin(Sum(share), |ks|, Tail(|ks|, |share.Keys|));
    }
  }

  lemma ZeroIsWithin(total: int, j: nat, tail: real)
    requires total > 0 && tail >= 0.0
    ensures Within(0, total, j, tail)
  {
    ScaleBound(j as real, 0.0, tail);
    ScaleBound(total as real, 0.0, j as real * tail);
  }

  lemma {:induction false} TailIsNonnegative(j: nat, n: nat)
    ensures Tail(j, n) >= 0.0
    decreases n - j
  {
    if j < n {
      TailIsNonnegative(j + 1, n);
    }
  }

  /** The harmonic tail is at most half the number of terms. */
  lemma {:induction false} TailIsAtMostHalf(j: nat, n: nat)
    requires 1 <= j <= n
    ensures Tail(j, n) <= (n - j) as real / 2.0
    decreases n - j
  {
    if j < n {
      TailIsAtMostHalf(j + 1, n);
      var u := 1.0 / (j + 1) as real;
      assert u * (j + 1) as real == 1.0;
      assert u <= 0.5;
    }
  }

  lemma {:induction false} BalancedEntry(share: Weights, current: Weights, key: DeploymentKey, total: int, n: nat)
    requires AllPositive(share) && Balanced(share, current) && key in share
    requires total == Sum(share) && n == |share.Keys|
    ensures Sums.At(current, key) > -total
    ensures Sums.At(current, key) as real <= total as real * Tail(1, n)
    ensures n >= 2 ==> Sums.At(current, key) < (n - 1) * total
  {
    Sums.Remove(current, {key}, key);
    assert {key} - {key} == {};
    assert GroupBounded(share, current, {key});
    SingleGroup(Sums.At(current, key), total, Tail(1, n));
    SumIsPositive(share);
    if n >= 2 {
      TailIsAtMostHalf(1, n);
      HalfIsLess(Sums.At(current, key), total, n - 1, Tail(1, n));
    }
  }

  lemma SingleGroup(x: int, total: int, tail: real)
    requires Within(x, total, 1, tail)
    ensures x as real <= total as real * tail
  {
  }

  lemma HalfIsLess(debt: int, total: int, n: int, tail: real)
    requires total > 0 && n > 0 && tail <= n as real / 2.0
    requires debt as real <= total as real * tail
    ensures debt < n * total
  {
    assert (n * total) as real == total as real * n as real;
    assert total as real * tail < total as real * n as real;
  }

  // ---------- Selection with distinct keys is such a step ----------

  ghost function Shares(weights: Weights, keys: seq<DeploymentKey>): Weights
  {
    map key | key in keys :: WeightFor(weights, key)
  }

  lemma {:induction false} ChargedAt(
    weights: Weights, current: Weights, keys: seq<DeploymentKey>, n: nat, key: DeploymentKey)
    requires n <= |keys|
    requires Distinct(keys)
    ensures Sums.At(Charged(weights, current, keys, n), key)
         == Sums.At(current, key) + if key in KeySet(keys, n) then WeightFor(weights, key) else 0
  {
    if n > 0 {
      ChargedAt(weights, current, keys, n - 1, key);
      ChargedAt(weights, current, keys, n - 1, keys[n - 1]);
      KeySetGrows(keys, n - 1);
    }
  }

  lemma {:induction false} CountAll(keys: seq<DeploymentKey>, n: nat)
    requires n <= |keys|
    requires Distinct(keys)
    ensures |KeySet(keys, n)| == n
  {
    if n > 0 {
      CountAll(keys, n - 1);
      KeySetGrows(keys, n - 1);
    }
  }

  lemma {:induction false} SharesFacts(weights: Weights, keys: seq<DeploymentKey>)
    requires Distinct(keys)
    ensures Shares(weights, keys).Keys == All(keys) && |Shares(weights, keys).Keys| == |keys|
    ensures Sum(Shares(weights, keys)) == Total(weights, keys)
  {
    CountAll(keys, |keys|);
    assert keys[..|keys|] == keys;
    assert KeySet(keys, |keys|) == All(keys);
    ChargingAddsTheTotal(weights, map[], keys, |keys|, All(keys));
    Sums.Bounded<DeploymentKey>(map[], All(keys), 0);
    Sums.ZeroSum<DeploymentKey>(map[], All(keys));
    forall key | key in All(keys)
      ensures Sums.At(Charged(weights, map[], keys, |keys|), key) == Sums.At(Shares(weights, keys), key)
    {
      ChargedAt(weights, map[], keys, |keys|, key);
    }
    Sums.Congruent(Charged(weights, map[], keys, |keys|), Shares(weights, keys), All(keys));
  }

  lemma {:induction false} StepDoes(weights: Weights, before: Weights, keys: seq<DeploymentKey>) returns (i: nat)
    requires |keys| >= 2 && Distinct(keys)
    ensures i < |keys| && Step(weights, before, keys).1 == Some(i)
    ensures Stepped(Shares(weights, keys), before, Step(weights, before, keys).0, keys[i])
    ensures forall key | key in Shares(weights, keys) ::
              Gains(Shares(weights, keys), before, Step(weights, before, keys).0, keys[i], key)
  {
    hide Distinct, Charged, Best, TotalWeight;
    var charged := Charged(weights, before, keys, |keys|);
    i := Best(charged, keys, |keys|);
    SharesFacts(weights, keys);
    assert keys[..|keys|] == keys;
    forall key | key in keys
      ensures Sums.At(charged, key) == Sums.At(before, key) + WeightFor(weights, key)
    {
      ChargedAt(weights, before, keys, |keys|, key);
    }
    BestIsFirstLargest(charged, keys, |keys|);
  }

  lemma {:induction false} RunIsBalanced(weights: Weights, keys: seq<DeploymentKey>, k: nat)
    requires |keys| >= 2 && Distinct(keys) && Positive(weights, keys)
    ensures Balanced(Shares(weights, keys), Run(weights, keys, k))
  {
    if k == 0 {
      assert keys[0] in Shares(weights, keys);
      StartIsBalanced(Shares(weights, keys));
    } else {
      RunIsBalanced(weights, keys, k - 1);
      var i := StepDoes(weights, Run(weights, keys, k - 1), keys);
      StepKeepsBalance(Shares(weights, keys), Run(weights, keys, k - 1), Run(weights, keys, k), keys[i]);
    }
  }

  /**
   * Every running weight stays above `-T`, at most `T * (1/2 + ... + 1/n)`, and so below
   * `(n - 1) * T`; together they sum to 0.
   */
  lemma {:induction false} RunningWeightBounds(weights: Weights, keys: seq<DeploymentKey>, k: nat, key: DeploymentKey)
    requires |keys| >= 2 && Distinct(keys) && Positive(weights, keys)
    requires key in keys
    ensures Sums.At(Run(weights, keys, k), key) > -Total(weights, keys)
    ensures Sums.At(Run(weights, keys, k), key) as real <= Total(weights, keys) as real * Tail(1, |keys|)
    ensures Sums.At(Run(weights, keys, k), key) < (|keys| - 1) * Total(weights, keys)
    ensures Sums.Over(Run(weights, keys, k), All(keys)) == 0
  {
    hide *;
    SharesFacts(weights, keys);
    RunEntry(weights, keys, k, key, Total(weights, keys), |keys|);
  }

  lemma {:induction false} RunEntry(
    weights: Weights, keys: seq<DeploymentKey>, k: nat, key: DeploymentKey, total: int, n: nat)
    requires |keys| >= 2 && Distinct(keys) && Positive(weights, keys)
    requires key in keys
    requires total == Sum(Shares(weights, keys)) && n == |Shares(weights, keys).Keys|
    ensures Sums.At(Run(weights, keys, k), key) > -total
    ensures Sums.At(Run(weights, keys, k), key) as real <= total as real * Tail(1, n)
    ensures n >= 2 ==> Sums.At(Run(weights, keys, k), key) < (n - 1) * total
    ensures Sums.Over(Run(weights, keys, k), Shares(weights, keys).Keys) == 0
  {
    RunIsBalanced(weights, keys, k);
    BalancedEntry(Shares(weights, keys), Run(weights, keys, k), key, total, n);
  }

  lemma {:induction false} TotalIsPositive(weights: Weights, keys: seq<DeploymentKey>, n: nat)
    requires n <= |keys| && Positive(weights, keys)
    ensures TotalWeight(weights, keys, n) >= n
  {
    if n > 0 {
      TotalIsPositive(weights, keys, n - 1);
      assert keys[n - 1] in Shares(weights, keys);
    }
  }

  // ---------- Counts ----------

  lemma DebtArithmetic(k: int, w: int, total: int, count: int)
    ensures (k - 1) * w + w == k * w
    ensures total * (count + 1) == total * count + total
  {
  }

  lemma DistinctAt(keys: seq<DeploymentKey>, i: nat, j: nat)
    requires Distinct(keys) && i < |keys| && j < |keys|
    ensures keys[i] == keys[j] <==> i == j
  {
    if i != j {
      assert Differ(keys, if i < j then i else j, if i < j then j else i);
    }
  }

  /** A running weight is exactly what the deployment has been given, less `T` for every pick. */
  lemma {:induction false} RunningWeightIsTheDebt(weights: Weights, keys: seq<DeploymentKey>, k: nat, i: nat)
    requires |keys| >= 2 && Distinct(keys)
    requires i < |keys|
    ensures Sums.At(Run(weights, keys, k), keys[i])
         == k * WeightFor(weights, keys[i]) - Total(weights, keys) * Count(weights, keys, k, i)
  {
    if k > 0 {
      hide Distinct, Stepped, Step;
      RunningWeightIsTheDebt(weights, keys, k - 1, i);
      var before := Run(weights, keys, k - 1);
      var best := StepDoes(weights, before, keys);
      SharesFacts(weights, keys);
      assert Gains(Shares(weights, keys), before, Run(weights, keys, k), keys[best], keys[i]);
      DistinctAt(keys, best, i);
      DebtArithmetic(k, WeightFor(weights, keys[i]), Total(weights, keys), Count(weights, keys, k - 1, i));
    }
  }

  /**
   * After any number of calls `k`, position `i` with weight `w` has been picked fewer than
   * `k * w / T + 1` times and at least `k * w / T - (1/2 + ... + 1/n)` times.
   */
  lemma {:induction false} CountsFollowWeights(weights: Weights, keys: seq<DeploymentKey>, k: nat, i: nat)
    requires |keys| >= 2 && Distinct(keys) && Positive(weights, keys)
    requires i < |keys|
    ensures Total(weights, keys) * Count(weights, keys, k, i)
          < k * WeightFor(weights, keys[i]) + Total(weights, keys)
    ensures (k * WeightFor(weights, keys[i]) - Total(weights, keys) * Count(weights, keys, k, i)) as real
         <= Total(weights, keys) as real * Tail(1, |keys|)
  {
    RunningWeightBounds(weights, keys, k, keys[i]);
    RunningWeightIsTheDebt(weights, keys, k, i);
  }

  lemma MultipleAboveMinusOne(total: int, factor: int)
    requires total > 0 && total * factor > -total
    ensures factor >= 0 && total * factor >= 0
  {
    if factor < 0 {
      Grows(total, -1 - factor);
    }
  }

  lemma Grows(total: int, n: nat)
    requires total > 0
    ensures total * (-1 - n) <= -total
  {
    assert total * n >= 0;
  }

  lemma WholeRound(m: int, total: int, w: int, count: int)
    ensures m * total * w - total * count == total * (m * w - count)
    ensures total != 0 && total * (m * w - count) == 0 ==> count == m * w
  {
    assert m * total * w == total * (m * w);
  }

  lemma {:induction false} WholeRoundIsNonnegative(
    weights: Weights, keys: seq<DeploymentKey>, m: nat, k: nat, key: DeploymentKey)
    requires |keys| >= 2 && Distinct(keys) && Positive(weights, keys)
    requires key in keys
    requires k == m * Total(weights, keys)
    ensures Sums.At(Run(weights, keys, k), key) >= 0
  {
    var total := Total(weights, keys);
    var j :| 0 <= j < |keys| && keys[j] == key;
    RunningWeightBounds(weights, keys, k, key);
    RunningWeightIsTheDebt(weights, keys, k, j);
    TotalIsPositive(weights, keys, |keys|);
    var w, c := WeightFor(weights, key), Count(weights, keys, k, j);
    WholeRound(m, total, w, c);
    MultipleAboveMinusOne(total, m * w - c);
  }

  /** After every `m * T` calls each deployment has been picked exactly `m * w` times, and all weights are back at 0. */
  lemma {:induction false} WholeRoundsAreExact(weights: Weights, keys: seq<DeploymentKey>, m: nat, k: nat, i: nat)
    requires |keys| >= 2 && Distinct(keys) && Positive(weights, keys)
    requires i < |keys|
    requires k == m * Total(weights, keys)
    ensures Count(weights, keys, k, i) == m * WeightFor(weights, keys[i])
    ensures Sums.At(Run(weights, keys, k), keys[i]) == 0
  {
    forall key | key in All(keys)
      ensures Sums.At(Run(weights, keys, k), key) >= 0
    {
      WholeRoundIsNonnegative(weights, keys, m, k, key);
    }
    RunningWeightBounds(weights, keys, k, keys[i]);
    Sums.ZeroSum(Run(weights, keys, k), All(keys));
    TotalIsPositive(weights, keys, |keys|);
    RunningWeightIsTheDebt(weights, keys, k, i);
    WholeRound(m, Total(weights, keys), WeightFor(weights, keys[i]), Count(weights, keys, k, i));
  }

  /** In whole rounds a listed key is picked as often as the map says, and a key the map lacks once a round. */
  lemma RoundsFollowTheMap(weights: Weights, keys: seq<DeploymentKey>, m: nat, k: nat, i: nat)
    requires |keys| >= 2 && Distinct(keys) && i < |keys|
    requires forall key | key in keys && key in weights :: weights[key] >= 1
    requires k == m * Total(weights, keys)
    ensures Count(weights, keys, k, i) == if keys[i] in weights then m * weights[keys[i]] else m
  {
    assert Positive(weights, keys);
    WholeRoundsAreExact(weights, keys, m, k, i);
  }

  // ---------- Distinct keys are exactly what fairness needs ----------

  /** Every count stays less than `n - 1` picks below, and less than one pick above, its exact share, forever. */
  ghost predicate FairForever(weights: Weights, keys: seq<DeploymentKey>)
  {
    forall k: nat, i | 0 <= i < |keys| :: FairAt(weights, keys, k, i)
  }

  ghost predicate FairAt(weights: Weights, keys: seq<DeploymentKey>, k: nat, i: nat)
    requires i < |keys|
  {
    && k * WeightFor(weights, keys[i]) < Total(weights, keys) * Count(weights, keys, k, i)
                                         + (|keys| - 1) * Total(weights, keys)
    && Total(weights, keys) * Count(weights, keys, k, i) < k * WeightFor(weights, keys[i]) + Total(weights, keys)
  }

  lemma {:induction false} DistinctIsFair(weights: Weights, keys: seq<DeploymentKey>, k: nat, i: nat)
    requires |keys| >= 2 && Distinct(keys) && Positive(weights, keys)
    requires i < |keys|
    ensures FairAt(weights, keys, k, i)
  {
    RunningWeightBounds(weights, keys, k, keys[i]);
    RunningWeightIsTheDebt(weights, keys, k, i);
  }

  /** A deployment whose key appears earlier in the list is never picked. */
  lemma {:induction false} ShadowedIsNeverPicked(weights: Weights, keys: seq<DeploymentKey>, k: nat, i: nat, j: nat)
    requires i < j < |keys| && keys[i] == keys[j]
    ensures Count(weights, keys, k, j) == 0
  {
    if k > 0 {
      ShadowedIsNeverPicked(weights, keys, k - 1, i, j);
      var charged := Charged(weights, Run(weights, keys, k - 1), keys, |keys|);
      BestIsFirstLargest(charged, keys, |keys|);
      assert Best(charged, keys, |keys|) != j;
    }
  }

  lemma GrowsPast(n: int, w: int)
    requires n >= 0 && w >= 1
    ensures n * w >= n
  {
  }

  /** For two or more deployments with positive weights, fairness holds if and only if keys are distinct. */
  lemma {:induction false} FairIffKeysDistinct(weights: Weights, keys: seq<DeploymentKey>)
    requires |keys| >= 2 && Positive(weights, keys)
    ensures FairForever(weights, keys) <==> Distinct(keys)
  {
    if Distinct(keys) {
      forall k: nat, i | 0 <= i < |keys|
        ensures FairAt(weights, keys, k, i)
      {
        DistinctIsFair(weights, keys, k, i);
      }
    } else {
      var i, j :| 0 <= i < j < |keys| && !Differ(keys, i, j);
      TotalIsPositive(weights, keys, |keys|);
      GrowsPast(Total(weights, keys), |keys| - 1);
      var k: nat := (|keys| - 1) * Total(weights, keys);
      ShadowedIsNeverPicked(weights, keys, k, i, j);
      assert keys[j] in Shares(weights, keys);
      GrowsPast(k, WeightFor(weights, keys[j]));
      assert !FairAt(weights, keys, k, j);
    }
  }
}

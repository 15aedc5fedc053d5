/**
 * Smooth weighted round-robin: `internal/router/wrr.go`.
 *
 * Each call adds every listed key's weight to its running weight, picks the
 * largest running weight (the first one among equals) and takes the total off the winner.
 */
module WeightedStrategy {
  import opened Deployments
  import Sums

  type Weights = map<DeploymentKey, int>

  function WeightFor(weights: Weights, key: DeploymentKey): int
  {
    if key in weights then weights[key] else 1
  }

  /** The sum of the weights of the first `n` listed keys. */
  function TotalWeight(weights: Weights, keys: seq<DeploymentKey>, n: nat): int
    requires n <= |keys|
  {
    if n == 0 then 0 else TotalWeight(weights, keys, n - 1) + WeightFor(weights, keys[n - 1])
  }

  /** The running weights once the first `n` listed keys have been given their weights. */
  function Charged(weights: Weights, current: Weights, keys: seq<DeploymentKey>, n: nat): Weights
    requires n <= |keys|
  {
    if n == 0 then current
    else
      var key := keys[n - 1];
      var before := Charged(weights, current, keys, n - 1);
      before[key := Sums.At(before, key) + WeightFor(weights, key)]
  }

  /** The position, among the first `n`, of the largest running weight; the first one among equals. */
  function Best(current: Weights, keys: seq<DeploymentKey>, n: nat): (i: nat)
    requires 0 < n <= |keys|
    ensures i < n
  {
    if n == 1 then 0
    else
      var i := Best(current, keys, n - 1);
      if Sums.At(current, keys[n - 1]) > Sums.At(current, keys[i]) then n - 1 else i
  }

  /** The position picked holds the largest running weight, and every earlier position holds less. */
  lemma {:induction false} BestIsFirstLargest(current: Weights, keys: seq<DeploymentKey>, n: nat)
    requires 0 < n <= |keys|
    ensures forall j | 0 <= j < n :: Sums.At(current, keys[j]) <= Sums.At(current, keys[Best(current, keys, n)])
    ensures forall j | 0 <= j < Best(current, keys, n) ::
              Sums.At(current, keys[j]) < Sums.At(current, keys[Best(current, keys, n)])
  {
    if n > 1 {
      BestIsFirstLargest(current, keys, n - 1);
    }
  }

  /** One selection as a function on the running weights: the new weights and the position picked. */
  function Step(weights: Weights, current: Weights, keys: seq<DeploymentKey>): (Weights, Option<nat>)
  {
    if |keys| == 0 then (current, None)
    else if |keys| == 1 then (current, Some(0))
    else
      var charged := Charged(weights, current, keys, |keys|);
      var i := Best(charged, keys, |keys|);
      var key := keys[i];
      (charged[key := Sums.At(charged, key) - TotalWeight(weights, keys, |keys|)], Some(i))
  }

  /** A single deployment is picked without touching the running weights; from none there is no pick. */
  lemma NoChoice(weights: Weights, current: Weights, keys: seq<DeploymentKey>)
    requires |keys| <= 1
    ensures Step(weights, current, keys).0 == current
    ensures Step(weights, current, keys).1 == if keys == [] then None else Some(0)
  {
  }

  lemma NothingCharged(weights: Weights, current: Weights, keys: seq<DeploymentKey>)
    ensures TotalWeight(weights, keys, 0) == 0 && Charged(weights, current, keys, 0) == current
  {
  }

  lemma ChargedNext(weights: Weights, current: Weights, keys: seq<DeploymentKey>, n: nat)
    requires n < |keys|
    ensures TotalWeight(weights, keys, n + 1) == TotalWeight(weights, keys, n) + WeightFor(weights, keys[n])
    ensures var before := Charged(weights, current, keys, n);
            Charged(weights, current, keys, n + 1) ==
            before[keys[n] := Sums.At(before, keys[n]) + WeightFor(weights, keys[n])]
  {
  }

  lemma BestNext(current: Weights, keys: seq<DeploymentKey>, n: nat)
    requires n < |keys|
    ensures Best(current, keys, n + 1) ==
            if n == 0 || Sums.At(current, keys[n]) > Sums.At(current, keys[Best(current, keys, n)]) then n
            else Best(current, keys, n)
  {
    hide Sums.At;
  }

  class WeightedRoundRobin {
    var currentWeight: Weights
    const weights: Weights

    constructor (configured: Weights)
      ensures weights == configured && currentWeight == map[]
    {
      weights := configured;
      currentWeight := map[];
    }

    method Select(deployments: seq<Deployment>) returns (best: Option<Deployment>)
      modifies this`currentWeight
      ensures currentWeight == Step(weights, old(currentWeight), Keys(deployments)).0
      ensures match Step(weights, old(currentWeight), Keys(deployments)).1
              case None => best == None
              case Some(i) => i < |deployments| && best == Some(deployments[i])
    {
      hide Sums.At, TotalWeight, Charged, Best;
      if |deployments| == 0 {
        return None;
      }
      if |deployments| == 1 {
        return Some(deployments[0]);
      }
      ghost var keys := Keys(deployments);
      NothingCharged(weights, currentWeight, keys);
      var totalWeight := 0;
      for n := 0 to |deployments|
        invariant totalWeight == TotalWeight(weights, keys, n)
        invariant currentWeight == Charged(weights, old(currentWeight), keys, n)
      {
        var key := deployments[n].Key();
        assert key == keys[n];
        ChargedNext(weights, old(currentWeight), keys, n);
        var cw := WeightFor(weights, key);
        totalWeight := totalWeight + cw;
        currentWeight := currentWeight[key := Sums.At(currentWeight, key) + cw];
      }
      var bestAt := 0;
      var bestWeight := 0;
      for n := 0 to |deployments|
        invariant currentWeight == Charged(weights, old(currentWeight), keys, |keys|)
        invariant n > 0 ==> bestAt < n && bestAt == Best(currentWeight, keys, n)
        invariant n > 0 ==> bestWeight == Sums.At(currentWeight, keys[bestAt])
      {
        var key := deployments[n].Key();
        assert key == keys[n];
        BestNext(currentWeight, keys, n);
        var cw := Sums.At(currentWeight, key);
        if n == 0 || cw > bestWeight {
          bestAt := n;
          bestWeight := cw;
        }
      }
      var key := deployments[bestAt].Key();
      assert key == keys[bestAt];
      currentWeight := currentWeight[key := Sums.At(currentWeight, key) - totalWeight];
      best := Some(deployments[bestAt]);
    }
  }
}

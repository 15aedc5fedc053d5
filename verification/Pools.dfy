/**
 * Building a pool's members and weights from its configuration: `buildPools` of
 * `internal/router/router.go`.
 */
module Pools {
  import opened Deployments
  import opened WeightedStrategy
  import WeightedFairness

  datatype Member = Member(modelName: string, weight: int)

  /** The configured weight, or one if it is not positive. */
  function Clamped(weight: int): (w: int)
    ensures w >= 1 && (weight >= 1 ==> w == weight)
  {
    if weight <= 0 then 1 else weight
  }

  /** All deployments of the listed models, in order; models that are not configured are skipped. */
  function Members(config: seq<Member>, deployments: map<string, seq<Deployment>>): seq<Deployment>
  {
    if config == [] then []
    else
      var last := config[|config| - 1];
      Members(config[..|config| - 1], deployments) +
      if last.modelName in deployments then deployments[last.modelName] else []
  }

  predicate HasKey(ds: seq<Deployment>, k: DeploymentKey)
  {
    exists i | 0 <= i < |ds| :: ds[i].Key() == k
  }

  /** The weight that a key ends up with: that of the last entry that lists a deployment with this key. */
  function LastWeight(config: seq<Member>, deployments: map<string, seq<Deployment>>, k: DeploymentKey): Option<int>
  {
    if config == [] then None
    else
      var last := config[|config| - 1];
      if last.modelName in deployments && HasKey(deployments[last.modelName], k) then Some(Clamped(last.weight))
      else LastWeight(config[..|config| - 1], deployments, k)
  }

  function Found(weights: Weights, k: DeploymentKey): Option<int>
  {
    if k in weights then Some(weights[k]) else None
  }

  ghost predicate Weighed(weights: Weights, members: seq<Deployment>)
  {
    && (forall i | 0 <= i < |members| :: members[i].Key() in weights)
    && (forall k | k in weights :: weights[k] >= 1)
  }

  lemma Next(config: seq<Member>, n: nat, deployments: map<string, seq<Deployment>>)
    requires n < |config|
    ensures Members(config[..n + 1], deployments) ==
            Members(config[..n], deployments) +
            if config[n].modelName in deployments then deployments[config[n].modelName] else []
    ensures forall k :: LastWeight(config[..n + 1], deployments, k) ==
                        if config[n].modelName in deployments && HasKey(deployments[config[n].modelName], k)
                        then Some(Clamped(config[n].weight)) else LastWeight(config[..n], deployments, k)
  {
    assert config[..n + 1][..n] == config[..n];
  }

  lemma KeysNext(ds: seq<Deployment>, i: nat)
    requires i < |ds|
    ensures forall k :: HasKey(ds[..i + 1], k) <==> HasKey(ds[..i], k) || ds[i].Key() == k
  {
    forall k ensures HasKey(ds[..i + 1], k) <==> HasKey(ds[..i], k) || ds[i].Key() == k {
      if HasKey(ds[..i], k) {
        var j :| 0 <= j < i && ds[..i][j].Key() == k;
        assert ds[..i + 1][j].Key() == k;
      }
      if ds[i].Key() == k {
        assert ds[..i + 1][i].Key() == k;
      }
      if HasKey(ds[..i + 1], k) && ds[i].Key() != k {
        var j :| 0 <= j < i + 1 && ds[..i + 1][j].Key() == k;
        assert ds[..i][j].Key() == k;
      }
    }
  }

  lemma NoKeys()
    ensures forall k :: !HasKey([], k)
  {
  }

  lemma NoConfig(deployments: map<string, seq<Deployment>>)
    ensures Members([], deployments) == [] && forall k :: LastWeight([], deployments, k) == None
  {
  }

  method BuildPool(config: seq<Member>, deployments: map<string, seq<Deployment>>)
    returns (members: seq<Deployment>, weights: Weights)
    ensures members == Members(config, deployments)
    ensures Weighed(weights, members)
    ensures forall k :: Found(weights, k) == LastWeight(config, deployments, k)
  {
    hide LastWeight, Members, HasKey, Clamped;
    NoConfig(deployments);
    members, weights := [], map[];
    for n := 0 to |config|
      invariant members == Members(config[..n], deployments)
      invariant Weighed(weights, members)
      invariant forall k :: Found(weights, k) == LastWeight(config[..n], deployments, k)
    {
      Next(config, n, deployments);
      if config[n].modelName in deployments {
        var deps := deployments[config[n].modelName];
        ghost var before, weighed := members, weights;
        NoKeys();
        for i := 0 to |deps|
          invariant members == before + deps[..i]
          invariant Weighed(weights, members)
          invariant forall k :: Found(weights, k) ==
                                if HasKey(deps[..i], k) then Some(Clamped(config[n].weight)) else Found(weighed, k)
        {
          KeysNext(deps, i);
          members := members + [deps[i]];
          assert before + deps[..i + 1] == before + deps[..i] + [deps[i]];
          ghost var w := weights;
          weights := weights[deps[i].Key() := Clamped(config[n].weight)];
          forall k
            ensures Found(weights, k) ==
                    if HasKey(deps[..i + 1], k) then Some(Clamped(config[n].weight)) else Found(weighed, k)
          {
            assert Found(w, k) == if HasKey(deps[..i], k) then Some(Clamped(config[n].weight)) else Found(weighed, k);
            assert HasKey(deps[..i + 1], k) <==> HasKey(deps[..i], k) || deps[i].Key() == k;
          }
        }
        assert deps[..|deps|] == deps;
      }
    }
    assert config[..|config|] == config;
  }

  /**
   * The weights of a configured pool meet what exact fairness needs: weighted round-robin over all
   * its members is fair for ever if and only if no two members share a key.
   */
  lemma ConfiguredPoolIsFairIff(weights: Weights, members: seq<Deployment>)
    requires |members| >= 2 && Weighed(weights, members)
    ensures WeightedFairness.FairForever(weights, Keys(members)) <==> WeightedFairness.Distinct(Keys(members))
  {
    var keys := Keys(members);
    assert WeightedFairness.Positive(weights, keys);
    WeightedFairness.FairIffKeysDistinct(weights, keys);
  }

  /** The entry that decides the weight of a key: it lists a deployment with this key, and no later one does. */
  ghost predicate Decides(config: seq<Member>, deployments: map<string, seq<Deployment>>, e: nat, k: DeploymentKey)
  {
    && e < |config| && ListsKey(deployments, config[e].modelName, k)
    && forall f | e < f < |config| :: !ListsKey(deployments, config[f].modelName, k)
  }

  ghost predicate ListsKey(deployments: map<string, seq<Deployment>>, model: string, k: DeploymentKey)
  {
    model in deployments && exists d | d in deployments[model] :: d.Key() == k
  }

  lemma HasKeyIffListed(deployments: map<string, seq<Deployment>>, model: string, k: DeploymentKey)
    ensures ListsKey(deployments, model, k) <==> model in deployments && HasKey(deployments[model], k)
  {
    if model in deployments && HasKey(deployments[model], k) {
      var i :| 0 <= i < |deployments[model]| && deployments[model][i].Key() == k;
      assert deployments[model][i] in deployments[model];
    }
  }

  lemma {:induction false} LastWeightIs(
    config: seq<Member>, deployments: map<string, seq<Deployment>>, e: nat, k: DeploymentKey)
    requires Decides(config, deployments, e, k)
    ensures LastWeight(config, deployments, k) == Some(if config[e].weight >= 1 then config[e].weight else 1)
  {
    hide ListsKey, HasKey;
    var n := |config| - 1;
    HasKeyIffListed(deployments, config[n].modelName, k);
    if e < n {
      LastWeightIs(config[..n], deployments, e, k);
    }
  }

  /**
   * In every number of whole rounds a member of a configured pool is picked in proportion to the
   * weight of the last entry that lists its key; an entry without a positive weight counts as one.
   */
  lemma SharesAreConfigured(
    config: seq<Member>, deployments: map<string, seq<Deployment>>, weights: Weights, members: seq<Deployment>,
    e: nat, i: nat, m: nat, k: nat)
    requires |members| >= 2 && Weighed(weights, members) && WeightedFairness.Distinct(Keys(members))
    requires forall key :: Found(weights, key) == LastWeight(config, deployments, key)
    requires i < |members| && Decides(config, deployments, e, members[i].Key())
    requires k == m * WeightedFairness.Total(weights, Keys(members))
    ensures WeightedFairness.Count(weights, Keys(members), k, i) ==
            if config[e].weight >= 1 then m * config[e].weight else m
  {
    hide Decides, LastWeight;
    var key := members[i].Key();
    LastWeightIs(config, deployments, e, key);
    assert Found(weights, key) == LastWeight(config, deployments, key);
    WeightedFairness.RoundsFollowTheMap(weights, Keys(members), m, k, i);
  }
}

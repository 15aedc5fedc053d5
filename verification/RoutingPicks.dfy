/**
 * Which deployments a routing run tries, in which order, and what it tells the caller.
 */
module RoutingPicks {
  import opened Deployments
  import opened Health
  import opened Routing
  import opened Router
  import opened RoutingProofs

  // ---------- Lists keep their order ----------

  /** What is left of a list without these deployments. */
  function Without(ds: seq<Deployment>, gone: seq<Deployment>): seq<Deployment>
  {
    if ds == [] then []
    else
      var last := ds[|ds| - 1];
      Without(ds[..|ds| - 1], gone) + if last in gone then [] else [last]
  }

  lemma {:induction false} WithoutNone(ds: seq<Deployment>)
    ensures Without(ds, []) == ds
  {
    if ds != [] {
      WithoutNone(ds[..|ds| - 1]);
    }
  }

  lemma RemoveSnoc(ds: seq<Deployment>, last: Deployment, d: Deployment)
    ensures Remove(ds + [last], d) == Remove(ds, d) + if last != d then [last] else []
  {
    assert (ds + [last])[..|ds|] == ds;
  }

  lemma {:induction false} RemoveIsWithout(ds: seq<Deployment>, gone: seq<Deployment>, d: Deployment)
    ensures Remove(Without(ds, gone), d) == Without(ds, gone + [d])
  {
    if ds != [] {
      var front, last := ds[..|ds| - 1], ds[|ds| - 1];
      RemoveIsWithout(front, gone, d);
      if last !in gone {
        RemoveSnoc(Without(front, gone), last, d);
      } else {
        assert Without(front, gone) + [] == Without(front, gone);
      }
      hide Remove;
    }
  }

  /** The deployments that a pass may try, in the order of the pool. */
  ghost predicate Lists(env: Env, m: Memory, pool: Pool, n: nat, ready: seq<Deployment>)
  {
    && (forall d :: d in ready <==> Candidate(env, m, pool, n, d))
    && InOrder(ready, pool.members)
  }

  /** Two listed deployments come in the same order in the other list. */
  ghost predicate InOrder(part: seq<Deployment>, whole: seq<Deployment>)
  {
    && multiset(part) <= multiset(whole)
    && forall i, j | 0 <= i < j < |part| :: Before(part[i], part[j], whole)
  }

  ghost predicate Before(d: Deployment, e: Deployment, whole: seq<Deployment>)
  {
    exists a, b | 0 <= a < b < |whole| :: whole[a] == d && whole[b] == e
  }

  lemma BeforeMore(d: Deployment, e: Deployment, whole: seq<Deployment>, last: Deployment)
    requires Before(d, e, whole)
    ensures Before(d, e, whole + [last])
  {
    var all := whole + [last];
    var a, b :| 0 <= a < b < |whole| && whole[a] == d && whole[b] == e;
    assert all[a] == d && all[b] == e;
  }

  lemma BeforeLast(d: Deployment, whole: seq<Deployment>, last: Deployment)
    requires d in whole
    ensures Before(d, last, whole + [last])
  {
    var all := whole + [last];
    var a :| 0 <= a < |whole| && whole[a] == d;
    assert all[a] == d && all[|whole|] == last;
  }

  lemma PartIsIn(part: seq<Deployment>, whole: seq<Deployment>, i: nat)
    requires multiset(part) <= multiset(whole) && i < |part|
    ensures part[i] in whole
  {
    assert part[i] in multiset(part);
  }

  lemma InOrderSnoc(part: seq<Deployment>, whole: seq<Deployment>, last: Deployment, kept: bool)
    requires InOrder(part, whole)
    ensures InOrder(if kept then part + [last] else part, whole + [last])
  {
    hide Before;
    var more := if kept then part + [last] else part;
    assert multiset(whole + [last]) == multiset(whole) + multiset{last};
    forall i, j | 0 <= i < j < |more| ensures Before(more[i], more[j], whole + [last]) {
      if j < |part| {
        BeforeMore(part[i], part[j], whole, last);
      } else {
        PartIsIn(part, whole, i);
        BeforeLast(part[i], whole, last);
      }
    }
  }

  lemma {:induction false} HealthyInOrder(m: Memory, ds: seq<Deployment>, skip: set<Deployment>, now: int)
    ensures InOrder(Healthy(m, ds, skip, now), ds)
  {
    hide InOrder, Ready;
    if ds == [] {
      NothingInOrder();
    } else {
      var front, last := ds[..|ds| - 1], ds[|ds| - 1];
      HealthyInOrder(m, front, skip, now);
      InOrderSnoc(Healthy(m, front, skip, now), front, last, last !in skip && Ready(m, last, now));
      assert ds == front + [last];
      assert Healthy(m, front, skip, now) + [] == Healthy(m, front, skip, now);
    }
  }

  lemma NothingInOrder()
    ensures InOrder([], [])
  {
  }

  // ---------- The order of a pass ----------

  /** The strategy's choice for the n-th try. */
  predicate Picked(env: Env, n: nat, left: seq<Deployment>, d: Deployment)
  {
    left != [] && d == left[env.pick(n, left) % |left|]
  }

  /** Each try is the strategy's choice among what the tries before it, and those already gone, left. */
  ghost predicate PickedInTurn(env: Env, ready: seq<Deployment>, n: nat, tries: seq<Try>, gone: seq<Deployment>)
  {
    forall i | 0 <= i < |tries| :: Picked(env, n + i, Without(ready, gone + Tried(tries)[..i]), tries[i].d)
  }

  lemma PickedFirst(env: Env, ready: seq<Deployment>, gone: seq<Deployment>, n: nat, t: Try, rest: seq<Try>)
    requires Picked(env, n, Without(ready, gone), t.d)
    requires PickedInTurn(env, ready, n + 1, rest, gone + [t.d])
    ensures PickedInTurn(env, ready, n, [t] + rest, gone)
  {
    hide Without, Picked;
    var tries := [t] + rest;
    forall i | 0 <= i < |tries| ensures Picked(env, n + i, Without(ready, gone + Tried(tries)[..i]), tries[i].d) {
      if i == 0 {
        assert gone + Tried(tries)[..0] == gone;
      } else {
        assert tries[i] == rest[i - 1];
        assert gone + Tried(tries)[..i] == gone + [t.d] + Tried(rest)[..i - 1];
        assert Picked(env, n + 1 + (i - 1), Without(ready, gone + [t.d] + Tried(rest)[..i - 1]), rest[i - 1].d);
      }
    }
  }

  lemma {:induction false} TriesArePicked(env: Env, ready: seq<Deployment>, gone: seq<Deployment>, n: nat)
    ensures PickedInTurn(env, ready, n, Tries(env, Without(ready, gone), n), gone)
    decreases |Without(ready, gone)|
  {
    hide VerdictOf, Without, PickedInTurn, Remove, Tries;
    var left := Without(ready, gone);
    if left == [] {
      NoTries(env, n);
      NothingPicked(env, ready, n, gone);
    } else {
      StepTries(env, left, n);
      var d := Choice(env, n, left);
      var t := Try(d, VerdictOf(env, n, d));
      RemoveIsWithout(ready, gone, d);
      NothingPicked(env, ready, n + 1, gone + [d]);
      if Retried(t.verdict) {
        TriesArePicked(env, ready, gone + [d], n + 1);
        PickedFirst(env, ready, gone, n, t, Tries(env, Remove(left, d), n + 1));
      } else {
        PickedFirst(env, ready, gone, n, t, []);
      }
    }
  }

  /**
   * A pass tries the session's deployment first, if it is bound to one that may be tried, and
   * otherwise, and after that, whatever the strategy chooses of those left, in the order of the pool.
   */
  lemma PassOrder(env: Env, settings: Settings, m: Memory, pool: Pool, session: Option<string>, n: nat,
                  reasons: seq<Reason>) returns (ready: seq<Deployment>)
    requires env.budgetBefore(pool.name, n)
    ensures Lists(env, m, pool, n, ready)
    ensures var tries := PoolRun(env, settings, m, pool, session, n, reasons).tries;
            var key := if session.Some? then Lookup(m.sticky, session.value, pool.name, env.lookAt(n)) else None;
            if key.Some? && exists d | d in ready :: d.Key() == key.value then
              && tries != [] && IsFirst(ready, key.value, tries[0].d)
              && PickedInTurn(env, ready, n + 1, tries[1..], [tries[0].d])
            else PickedInTurn(env, ready, n, tries, [])
  {
    hide Ready, Looked, Concluded, AllReported, Unavailable, VerdictOf, Reasons, PickedInTurn, Tries, Remove, InOrder;
    var now := env.lookAt(n);
    var skip := Ineligible(env, pool.members);
    ready := Healthy(m, pool.members, skip, now);
    HealthyAreCandidates(env, m, pool, n);
    HealthyInOrder(m, pool.members, skip, now);
    var m1 := m.(cool := Looked(m.cool, pool.members, skip, now));
    var bound := BoundDeployment(m1, ready, session, pool.name, now);
    WithoutNone(ready);
    if session.Some? && Lookup(m.sticky, session.value, pool.name, now).Some? {
      FirstWithKey(ready, Lookup(m.sticky, session.value, pool.name, now).value);
    }
    if bound.Some? {
      var d := bound.value;
      var t := Try(d, VerdictOf(env, n, d));
      RemoveIsWithout(ready, [], d);
      assert [] + [d] == [d];
      TriesArePicked(env, ready, [d], n + 1);
      NothingPicked(env, ready, n + 1, [d]);
      var rest := if Retried(t.verdict) then Tries(env, Remove(ready, d), n + 1) else [];
      assert PassTries(env, ready, bound, n) == [t] + rest;
      assert ([t] + rest)[1..] == rest;
    } else {
      TriesArePicked(env, ready, [], n);
    }
  }

  lemma NothingPicked(env: Env, ready: seq<Deployment>, n: nat, gone: seq<Deployment>)
    ensures PickedInTurn(env, ready, n, [], gone)
  {
  }

  /** The first deployment of a list with a key. */
  ghost predicate IsFirst(ds: seq<Deployment>, key: DeploymentKey, d: Deployment)
  {
    exists i | 0 <= i < |ds| :: ds[i] == d && d.Key() == key && forall j | 0 <= j < i :: ds[j].Key() != key
  }

  lemma {:induction false} FirstWithKey(ds: seq<Deployment>, key: DeploymentKey)
    ensures WithKey(ds, key).Some? <==> exists d | d in ds :: d.Key() == key
    ensures WithKey(ds, key).Some? ==> IsFirst(ds, key, WithKey(ds, key).value)
  {
    if ds != [] {
      if ds[0].Key() == key {
        assert ds[0] in ds;
      } else {
        FirstWithKey(ds[1..], key);
        assert forall d | d in ds :: d == ds[0] || d in ds[1..];
        if WithKey(ds[1..], key).Some? {
          var i :| 0 <= i < |ds[1..]| && ds[1..][i] == WithKey(ds[1..], key).value
                   && forall j | 0 <= j < i :: ds[1..][j].Key() != key;
          assert ds[i + 1] == WithKey(ds, key).value;
          assert forall j | 0 < j < i + 1 :: ds[j] == ds[1..][j - 1];
        }
      }
    }
  }

  // ---------- The order without pools ----------

  lemma StepLegacy(env: Env, settings: Settings, m: Memory, ds: seq<Deployment>, tried: set<Deployment>, n: nat,
                   left: int)
    ensures var now := env.lookAt(n);
            var healthy := Healthy(m, ds, tried, now);
            var m1 := m.(cool := Looked(m.cool, ds, {}, now));
            LegacyRun(env, settings, m, ds, tried, n, left) ==
            if left <= 0 then (m, [])
            else if healthy == [] then (m1, [])
            else
              var t := Try(Choice(env, n, healthy), VerdictOf(env, n, Choice(env, n, healthy)));
              if !Retried(t.verdict) then (m1, [t])
              else
                var more := LegacyRun(env, settings, Reported(m1, settings, env, n, t), ds, tried + {t.d}, n + 1,
                                      left - 1);
                (more.0, [t] + more.1)
  {
    hide Healthy, Looked, Choice, VerdictOf, Reported;
  }

  lemma SameReport(m: Memory, settings: Settings, env: Env, n: nat, t: Try, retries: int)
    ensures Reported(m, settings.(numRetries := retries), env, n, t) == Reported(m, settings, env, n, t)
  {
  }

  /** A run with fewer retries is a prefix, and what the full run tries next is chosen from what it leaves. */
  lemma {:induction false} LegacyPrefix(env: Env, settings: Settings, retries: int, m: Memory, ds: seq<Deployment>,
                                        tried: set<Deployment>, n: nat, left: int, k: nat)
    requires k < |LegacyRun(env, settings, m, ds, tried, n, left).1|
    ensures var tries := LegacyRun(env, settings, m, ds, tried, n, left).1;
            var before := LegacyRun(env, settings.(numRetries := retries), m, ds, tried, n, k);
            && before.1 == tries[..k]
            && Picked(env, n + k, Healthy(before.0, ds, tried + Deployed(tries[..k]), env.lookAt(n + k)), tries[k].d)
    decreases k
  {
    hide LegacyRun, Healthy, Looked, VerdictOf, Reported, Retried;
    var small := settings.(numRetries := retries);
    var now := env.lookAt(n);
    var healthy := Healthy(m, ds, tried, now);
    var m1 := m.(cool := Looked(m.cool, ds, {}, now));
    StepLegacy(env, settings, m, ds, tried, n, left);
    StepLegacy(env, small, m, ds, tried, n, k);
    var tries := LegacyRun(env, settings, m, ds, tried, n, left).1;
    if k == 0 {
      NothingDeployed(tried);
      assert tries[..0] == [];
    } else {
      var t := Try(Choice(env, n, healthy), VerdictOf(env, n, Choice(env, n, healthy)));
      SameReport(m1, settings, env, n, t, retries);
      LegacyPrefix(env, settings, retries, Reported(m1, settings, env, n, t), ds, tried + {t.d}, n + 1, left - 1,
                   k - 1);
      DeployedFirst(t, tries[1..][..k - 1], tried);
      assert tries[..k] == [t] + tries[1..][..k - 1];
    }
  }

  /**
   * Without pools, each try is the strategy's choice among the eligible deployments of the model not
   * tried yet that are ready at that moment, given all that the tries before it left in memory.
   */
  lemma LegacyOrder(env: Env, settings: Settings, m: Memory, deployments: map<string, seq<Deployment>>, model: string,
                    k: nat) returns (ready: seq<Deployment>)
    requires k < |LegacyPath(env, settings, m, deployments, model).tries|
    ensures var tries := LegacyPath(env, settings, m, deployments, model).tries;
            var before := LegacyPath(env, settings.(numRetries := k - 1), m, deployments, model);
            && before.tries == tries[..k]
            && (forall d :: d in ready <==>
                  && model in deployments && d in deployments[model] && env.eligible(d) && d !in Tried(tries[..k])
                  && !Cooling(before.memory.cool, d, env.lookAt(k))
                  && !BackingOff(before.memory.back, d.Key(), env.lookAt(k)))
            && model in deployments && InOrder(ready, deployments[model])
            && Picked(env, k, ready, tries[k].d)
  {
    hide LegacyRun, InOrder, Cooling, BackingOff, LegacyResult, Tried;
    var ds := Listed(deployments, model);
    var skip := Ineligible(env, ds);
    LegacyPrefix(env, settings, k - 1, m, ds, skip, 0, settings.numRetries + 1, k);
    var tries := LegacyRun(env, settings, m, ds, skip, 0, settings.numRetries + 1).1;
    var before := LegacyRun(env, settings.(numRetries := k - 1), m, ds, skip, 0, k).0;
    ready := Healthy(before, ds, skip + Deployed(tries[..k]), env.lookAt(k));
    HealthyInOrder(before, ds, skip + Deployed(tries[..k]), env.lookAt(k));
    assert tries[k].d in ready;
    forall d
      ensures d in Deployed(tries[..k]) <==> d in Tried(tries[..k])
    {
      DeployedIffTried(tries[..k], d);
    }
  }

  lemma DeployedIffTried(tries: seq<Try>, d: Deployment)
    ensures d in Deployed(tries) <==> d in Tried(tries)
  {
    DeployedWasTried(tries, d);
    if d in Tried(tries) {
      var i :| 0 <= i < |tries| && Tried(tries)[i] == d;
      assert tries[i] in tries;
    }
  }

  // ---------- What each try gives ----------

  /** Each try gives the deployment's reply, unless the caller is gone by then. */
  ghost predicate AsAnswered(env: Env, n: nat, tries: seq<Try>)
  {
    forall j | 0 <= j < |tries| ::
      tries[j].verdict == if env.cancelled(n + j) then Cancelled else env.reply(n + j, tries[j].d)
  }

  lemma AnswersJoin(env: Env, n: nat, tries: seq<Try>, more: seq<Try>)
    requires AsAnswered(env, n, tries) && AsAnswered(env, n + |tries|, more)
    ensures AsAnswered(env, n, tries + more)
  {
    forall j | 0 <= j < |more|
      ensures var t := (tries + more)[|tries| + j];
              t == more[j] &&
              t.verdict == if env.cancelled(n + |tries| + j) then Cancelled else env.reply(n + |tries| + j, t.d)
    {
    }
  }

  lemma OneAnswer(env: Env, n: nat, d: Deployment)
    ensures AsAnswered(env, n, [Try(d, VerdictOf(env, n, d))])
  {
  }

  lemma NoAnswers(env: Env, n: nat)
    ensures AsAnswered(env, n, [])
  {
  }

  lemma {:induction false} TriesAreAnswered(env: Env, healthy: seq<Deployment>, n: nat)
    ensures AsAnswered(env, n, Tries(env, healthy, n))
    decreases |healthy|
  {
    hide AsAnswered, VerdictOf, Remove, Tries;
    NoAnswers(env, n);
    NoAnswers(env, n + 1);
    if healthy == [] {
      NoTries(env, n);
    } else {
      StepTries(env, healthy, n);
      var d := Choice(env, n, healthy);
      var t := Try(d, VerdictOf(env, n, d));
      OneAnswer(env, n, d);
      if Retried(t.verdict) {
        TriesAreAnswered(env, Remove(healthy, d), n + 1);
        AnswersJoin(env, n, [t], Tries(env, Remove(healthy, d), n + 1));
      } else {
        assert [t] + [] == [t];
      }
    }
  }

  lemma PassIsAnswered(env: Env, settings: Settings, m: Memory, pool: Pool, session: Option<string>, n: nat,
                       reasons: seq<Reason>)
    ensures AsAnswered(env, n, PoolRun(env, settings, m, pool, session, n, reasons).tries)
  {
    hide AsAnswered, VerdictOf, Remove, Tries, Ready, Healthy, Looked, Concluded, AllReported, Unavailable, Reasons;
    NoAnswers(env, n);
    NoAnswers(env, n + 1);
    if env.budgetBefore(pool.name, n) {
      var now := env.lookAt(n);
      var skip := Ineligible(env, pool.members);
      var healthy := Healthy(m, pool.members, skip, now);
      var m1 := m.(cool := Looked(m.cool, pool.members, skip, now));
      var bound := BoundDeployment(m1, healthy, session, pool.name, now);
      TriesAreAnswered(env, healthy, n);
      if bound.Some? {
        var d := bound.value;
        OneAnswer(env, n, d);
        TriesAreAnswered(env, Remove(healthy, d), n + 1);
        AnswersJoin(env, n, [Try(d, VerdictOf(env, n, d))], Tries(env, Remove(healthy, d), n + 1));
        assert [Try(d, VerdictOf(env, n, d))] + [] == [Try(d, VerdictOf(env, n, d))];
      }
    }
  }

  lemma {:induction false} OthersAreAnswered(env: Env, settings: Settings, m: Memory, before: RouteResult,
                                             pools: seq<Pool>, session: Option<string>, tries: seq<Try>)
    requires AsAnswered(env, 0, tries)
    ensures AsAnswered(env, 0, OtherPools(env, settings, m, before, pools, session, tries).tries)
    decreases |pools|
  {
    hide AsAnswered, PoolRun;
    if pools != [] {
      var p := PoolRun(env, settings, m, pools[0], session, |tries|, before.reasons);
      PassIsAnswered(env, settings, m, pools[0], session, |tries|, before.reasons);
      AnswersJoin(env, 0, tries, p.tries);
      if p.result.error.Some? {
        OthersAreAnswered(env, settings, p.memory, before.(reasons := p.result.reasons, error := p.result.error),
                          pools[1..], session, tries + p.tries);
      }
    }
  }

  /**
   * On every path, each try gives the reply of the deployment tried, or that the caller is gone, if it
   * is by then. A caller who is gone from the start is told so, and nothing is tried or remembered.
   */
  lemma RouteIsAnswered(env: Env, settings: Settings, m: Memory, deployments: map<string, seq<Deployment>>,
                        pool: Option<Pool>, others: seq<Pool>, model: string, session: Option<string>)
    ensures var p := RouteRun(env, settings, m, deployments, pool, others, model, session);
            && AsAnswered(env, 0, p.tries)
            && (env.goneAtStart ==> p.tries == [] && p.memory == m && p.result.error == Some(CallerGone))
  {
    hide PoolRun, OtherPools, LegacyRun, Reasons, Unavailable, Final, HasEligible, LegacyResult, AllRetried;
    NoAnswers(env, 0);
    match pool
    case None =>
      var ds := Listed(deployments, model);
      LegacyIsOrderly(env, settings, m, ds, Ineligible(env, ds), 0, settings.numRetries + 1);
      hide Distinct, Tried;
    case Some(first) =>
      hide AsAnswered;
      var p := PoolRun(env, settings, m, first, session, 0, []);
      PassIsAnswered(env, settings, m, first, session, 0, []);
      OthersAreAnswered(env, settings, p.memory, p.result, others, session, p.tries);
  }

  // ---------- What becomes of the session ----------

  lemma BoundHasKey(m: Memory, healthy: seq<Deployment>, session: string, pool: string, now: int)
    ensures var bound := BoundDeployment(m, healthy, Some(session), pool, now);
            var key := Lookup(m.sticky, session, pool, now);
            && (bound.Some? ==> key == Some(bound.value.Key()))
            && (bound.None? && key.Some? ==> forall d | d in healthy :: d.Key() != key.value)
  {
    hide Lookup;
    if Lookup(m.sticky, session, pool, now).Some? {
      FirstWithKey(healthy, Lookup(m.sticky, session, pool, now).value);
    }
  }

  /**
   * A pass with a budget looks the session up once, at its beginning, and binds it to the deployment
   * that served, at the time of the last report, unless that is the only one tried and the session
   * was bound to it already. A session's other pools, and other sessions, are not touched.
   */
  lemma PassUsesSession(env: Env, settings: Settings, m: Memory, pool: Pool, session: string, n: nat,
                        reasons: seq<Reason>)
    requires env.budgetBefore(pool.name, n)
    ensures var p := PoolRun(env, settings, m, pool, Some(session), n, reasons);
            var key := Lookup(m.sticky, session, pool.name, env.lookAt(n));
            var looked := [Got(session, pool.name, env.lookAt(n))];
            p.memory.sticky ==
            if p.result.used.Some? && !(|p.tries| == 1 && key == Some(p.result.used.value.Key())) then
              Used(m.sticky, looked + [Put(session, pool.name, p.result.used.value.Key(),
                                           env.reportAt(n + |p.tries| - 1))])
            else Used(m.sticky, looked)
  {
    hide Ready, Healthy, Looked, VerdictOf, Reasons, Tries, Remove, Unavailable;
    var now := env.lookAt(n);
    var skip := Ineligible(env, pool.members);
    var healthy := Healthy(m, pool.members, skip, now);
    var m1 := m.(cool := Looked(m.cool, pool.members, skip, now));
    var bound := BoundDeployment(m1, healthy, Some(session), pool.name, now);
    var p := PoolRun(env, settings, m, pool, Some(session), n, reasons);
    var tries := PassTries(env, healthy, bound, n);
    BoundHasKey(m1, healthy, session, pool.name, now);
    StickyUntouched(Consulted(m1, Some(session), pool.name, now), settings, env, n, tries);
    if bound.None? && healthy == [] {
      NoTries(env, n);
    } else if bound.None? {
      StepTries(env, healthy, n);
    }
    hide AllReported;
    OneUse(m.sticky, Got(session, pool.name, now));
    if p.result.used.Some? {
      TwoUses(m.sticky, Got(session, pool.name, now),
              Put(session, pool.name, p.result.used.value.Key(), env.reportAt(n + |p.tries| - 1)));
    }
  }

  lemma OneUse(sessions: Sessions, use: Use)
    ensures use.Got? ==> Used(sessions, [use]) == LookedUp(sessions, use.session, use.pool, use.at)
    ensures use.Put? ==> Used(sessions, [use]) == Bound(sessions, use.session, use.pool, use.key, use.at)
  {
    hide LookedUp, Bound;
    assert [use][..0] == [];
    assert Used(sessions, []) == sessions;
  }

  lemma TwoUses(sessions: Sessions, first: Use, second: Use)
    ensures Used(sessions, [first] + [second]) == Used(Used(sessions, [first]), [second])
  {
    OneUse(Used(sessions, [first]), second);
    hide LookedUp, Bound;
    assert ([first] + [second])[..1] == [first];
  }

  // ---------- What the caller is told ----------

  /** The failures that another try follows. */
  predicate Fails(v: Verdict)
  {
    v.Limited? || v == Broke
  }

  function FailureReason(v: Verdict): Reason
  {
    if v.Limited? then BecauseLimited else BecauseError
  }

  /** One reason for each failed try, in order. */
  ghost predicate ReasonsFor(tries: seq<Try>, added: seq<Reason>)
  {
    && |added| == (if tries != [] && !Fails(tries[|tries| - 1].verdict) then |tries| - 1 else |tries|)
    && forall i | 0 <= i < |added| :: Fails(tries[i].verdict) && added[i] == FailureReason(tries[i].verdict)
  }

  lemma {:induction false} ReasonsAre(tries: seq<Try>)
    requires tries != [] ==> AllRetried(tries[..|tries| - 1])
    ensures ReasonsFor(tries, Reasons(tries))
  {
    if tries != [] {
      var front, last := tries[..|tries| - 1], tries[|tries| - 1];
      FrontOfAll(front);
      ReasonsAre(front);
      assert front != [] ==> front[|front| - 1] in front;
    }
  }

  lemma FrontOfAll(tries: seq<Try>)
    ensures AllRetried(tries) && tries != [] ==> AllRetried(tries[..|tries| - 1])
  {
    if AllRetried(tries) && tries != [] {
      assert forall t | t in tries[..|tries| - 1] :: t in tries;
    }
  }

  /** What to tell when nothing could be tried: the shortest wait, if some deployment is backing off. */
  ghost predicate NothingToTry(back: Backoffs, ds: seq<Deployment>, now: int, e: Error)
  {
    if exists d | d in ds :: BackingOff(back, d.Key(), now) then
      && e.AllLimited?
      && (exists d | d in ds :: BackingOff(back, d.Key(), now) && now + e.retryAfter == back[d.Key()].nextRetryAt)
      && (forall d | d in ds && BackingOff(back, d.Key(), now) :: now + e.retryAfter <= back[d.Key()].nextRetryAt)
    else e == NoneAvailable
  }

  lemma UnavailableIs(back: Backoffs, ds: seq<Deployment>, now: int)
    ensures NothingToTry(back, ds, now, Unavailable(back, ds, now))
  {
    WaitIsTheShortest(back, ds, now);
    hide ShortestWait;
  }

  /** What became of the last try is what the caller is told. */
  ghost predicate ToldOf(tries: seq<Try>, error: Option<Error>)
    requires tries != []
  {
    match tries[|tries| - 1].verdict
    case Served => error == None
    case Cancelled => error == Some(CallerGone)
    case v => error == Some(Upstream(v))
  }

  /**
   * What a pass tells the caller: the outcome of its last try, or, if it tried nothing, how long to
   * wait. It adds the reason of every failed try, in order; a pool without a budget is reported as
   * that.
   */
  lemma PassTellsCaller(env: Env, settings: Settings, m: Memory, pool: Pool, session: Option<string>, n: nat,
                        reasons: seq<Reason>)
    ensures var p := PoolRun(env, settings, m, pool, session, n, reasons);
            && p.result.pool == pool.name
            && if !env.budgetBefore(pool.name, n) then
                 p.result.error == Some(PoolBudget(pool.name)) && p.result.reasons == reasons + [BecauseBudget]
               else
                 && |reasons| <= |p.result.reasons| && p.result.reasons[..|reasons|] == reasons
                 && ReasonsFor(p.tries, p.result.reasons[|reasons|..])
                 && if p.tries == [] then
                      p.result.error.Some? && NothingToTry(m.back, pool.members, env.lookAt(n), p.result.error.value)
                    else ToldOf(p.tries, p.result.error)
  {
    hide Ready, Healthy, Looked, PassTries, AllReported, BoundDeployment, Unavailable, VerdictOf, Reasons, ReasonsFor;
    hide NothingToTry, Tried;
    if env.budgetBefore(pool.name, n) {
      var now := env.lookAt(n);
      var skip := Ineligible(env, pool.members);
      var healthy := Healthy(m, pool.members, skip, now);
      var m1 := m.(cool := Looked(m.cool, pool.members, skip, now));
      var bound := BoundDeployment(m1, healthy, session, pool.name, now);
      var tries := PassTries(env, healthy, bound, n);
      PassFrontIsRetried(env, healthy, bound, n);
      ReasonsAre(tries);
      UnavailableIs(m.back, pool.members, now);
      assert (reasons + Reasons(tries))[|reasons|..] == Reasons(tries);
    }
  }

  /** The same without a pool; there, an unknown model is reported as that. */
  lemma LegacyTellsCaller(env: Env, settings: Settings, m: Memory, deployments: map<string, seq<Deployment>>,
                          model: string)
    requires settings.numRetries >= 0
    ensures var p := LegacyPath(env, settings, m, deployments, model);
            && p.result.pool == "" && ReasonsFor(p.tries, p.result.reasons)
            && if p.tries != [] then ToldOf(p.tries, p.result.error)
               else if model !in deployments then p.result.error == Some(UnknownModel)
               else
                 && p.result.error.Some?
                 && NothingToTry(m.back, deployments[model], env.lookAt(0), p.result.error.value)
  {
    hide LegacyRun, Unavailable, Reasons, VerdictOf, ReasonsFor, NothingToTry, Tried, LegacyOrderly;
    var ds := Listed(deployments, model);
    var run := LegacyRun(env, settings, m, ds, Ineligible(env, ds), 0, settings.numRetries + 1);
    LegacyIsOrderly(env, settings, m, ds, Ineligible(env, ds), 0, settings.numRetries + 1);
    FrontsRetried(env, run.1, ds, Ineligible(env, ds));
    ReasonsAre(run.1);
    if model in deployments {
      UnavailableIs(m.back, deployments[model], env.lookAt(0));
    }
  }

  lemma FrontsRetried(env: Env, tries: seq<Try>, ds: seq<Deployment>, tried: set<Deployment>)
    requires LegacyOrderly(env, tries, ds, tried, 0)
    ensures tries != [] ==> AllRetried(tries[..|tries| - 1])
  {
  }
}

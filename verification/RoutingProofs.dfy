/**
 * What holds of every routing run, whatever the environment does.
 */
module RoutingProofs {
  import opened Deployments
  import opened Health
  import opened Routing
  import opened Router

  ghost predicate Distinct(ds: seq<Deployment>)
  {
    forall i, j | 0 <= i < j < |ds| :: ds[i] != ds[j]
  }

  // ---------- The tries of a pass ----------

  /** Follows the environment, and tries no deployment twice and only listed ones. */
  ghost predicate Orderly(env: Env, tries: seq<Try>, listed: seq<Deployment>, n: nat)
  {
    && Distinct(Tried(tries))
    && (forall t | t in tries :: t.d in listed)
    && (forall i | 0 <= i < |tries| :: tries[i].verdict == VerdictOf(env, n + i, tries[i].d))
  }

  /** Nothing was left to try. */
  ghost predicate Exhaustive(tries: seq<Try>, listed: seq<Deployment>)
  {
    forall d | d in listed :: d in Tried(tries)
  }

  lemma DistinctFirst(t: Try, rest: seq<Try>)
    requires Distinct(Tried(rest)) && forall u | u in rest :: u.d != t.d
    ensures Distinct(Tried([t] + rest))
  {
    var all := [t] + rest;
    forall i, j | 0 <= i < j < |Tried(all)| ensures Tried(all)[i] != Tried(all)[j] {
      assert rest[j - 1] in rest;
      assert i > 0 ==> Tried(rest)[i - 1] != Tried(rest)[j - 1];
    }
  }

  lemma VerdictsFirst(env: Env, t: Try, rest: seq<Try>, n: nat)
    requires t.verdict == VerdictOf(env, n, t.d)
    requires forall i | 0 <= i < |rest| :: rest[i].verdict == VerdictOf(env, n + 1 + i, rest[i].d)
    ensures forall i | 0 <= i < |[t] + rest| :: ([t] + rest)[i].verdict == VerdictOf(env, n + i, ([t] + rest)[i].d)
  {
    hide VerdictOf;
    var all := [t] + rest;
    forall i | 0 <= i < |all| ensures all[i].verdict == VerdictOf(env, n + i, all[i].d) {
      assert i > 0 ==> all[i] == rest[i - 1];
    }
  }

  lemma ExhaustiveFirst(t: Try, rest: seq<Try>, listed: seq<Deployment>)
    requires Exhaustive(rest, Remove(listed, t.d))
    ensures Exhaustive([t] + rest, listed)
  {
    var all := [t] + rest;
    forall d | d in listed ensures d in Tried(all) {
      if d == t.d {
        assert Tried(all)[0] == d;
      } else {
        var i :| 0 <= i < |rest| && Tried(rest)[i] == d;
        assert Tried(all)[i + 1] == d;
      }
    }
  }

  lemma OrderlyFirst(env: Env, t: Try, rest: seq<Try>, listed: seq<Deployment>, n: nat)
    requires t.d in listed && t.verdict == VerdictOf(env, n, t.d)
    requires Orderly(env, rest, Remove(listed, t.d), n + 1)
    ensures Orderly(env, [t] + rest, listed, n)
    ensures Exhaustive(rest, Remove(listed, t.d)) ==> Exhaustive([t] + rest, listed)
  {
    hide VerdictOf, Distinct, Exhaustive;
    DistinctFirst(t, rest);
    VerdictsFirst(env, t, rest, n);
    if Exhaustive(rest, Remove(listed, t.d)) {
      ExhaustiveFirst(t, rest, listed);
    }
  }

  lemma OrderlyOne(env: Env, t: Try, listed: seq<Deployment>, n: nat)
    requires t.d in listed && t.verdict == VerdictOf(env, n, t.d)
    ensures Orderly(env, [t], listed, n)
  {
  }

  lemma {:induction false} TriesAreOrderly(env: Env, healthy: seq<Deployment>, n: nat)
    ensures Orderly(env, Tries(env, healthy, n), healthy, n)
    ensures AllRetried(Tries(env, healthy, n)) ==> Exhaustive(Tries(env, healthy, n), healthy)
    decreases |healthy|
  {
    hide Orderly, Exhaustive, VerdictOf;
    if healthy == [] {
      NoneOrderly(env, healthy, n);
    } else {
      var d := Choice(env, n, healthy);
      var t := Try(d, VerdictOf(env, n, d));
      if Retried(t.verdict) {
        var rest := Tries(env, Remove(healthy, d), n + 1);
        TriesAreOrderly(env, Remove(healthy, d), n + 1);
        OrderlyFirst(env, t, rest, healthy, n);
        assert forall u | u in rest :: u in [t] + rest;
      } else {
        OrderlyOne(env, t, healthy, n);
        assert [t] + [] == [t] && [t][0] in [t];
      }
    }
  }

  lemma NoneOrderly(env: Env, healthy: seq<Deployment>, n: nat)
    requires healthy == []
    ensures Orderly(env, [], healthy, n) && Exhaustive([], healthy)
  {
  }

  lemma PassIsOrderly(env: Env, healthy: seq<Deployment>, bound: Option<Deployment>, n: nat)
    requires bound.Some? ==> bound.value in healthy
    ensures Orderly(env, PassTries(env, healthy, bound, n), healthy, n)
    ensures AllRetried(PassTries(env, healthy, bound, n)) ==> Exhaustive(PassTries(env, healthy, bound, n), healthy)
  {
    hide Orderly, Exhaustive, VerdictOf, Tries;
    if bound.None? {
      TriesAreOrderly(env, healthy, n);
    } else {
      var d := bound.value;
      var t := Try(d, VerdictOf(env, n, d));
      if Retried(t.verdict) {
        var rest := Tries(env, Remove(healthy, d), n + 1);
        TriesAreOrderly(env, Remove(healthy, d), n + 1);
        OrderlyFirst(env, t, rest, healthy, n);
        assert forall u | u in rest :: u in [t] + rest;
      } else {
        OrderlyOne(env, t, healthy, n);
        assert [t] + [] == [t] && [t][0] in [t];
      }
    }
  }

  // ---------- One pass ----------

  /** Exactly one of a deployment and an error, and the deployment is the last one tried. */
  ghost predicate Decided(r: RouteResult, tries: seq<Try>)
  {
    && (r.used.Some? <==> r.error.None?)
    && (r.used.Some? ==> tries != [] && tries[|tries| - 1] == Try(r.used.value, Served))
  }

  /** The pass was neither abandoned by its caller nor ended by a refused request. */
  predicate RanOut(r: RouteResult)
  {
    r.error.Some? && r.error != Some(CallerGone) && r.error != Some(Upstream(Refused))
  }

  /** A member that this pass may try. */
  predicate Candidate(env: Env, m: Memory, pool: Pool, n: nat, d: Deployment)
  {
    d in pool.members && env.eligible(d) && Ready(m, d, env.lookAt(n))
  }

  lemma HealthyAreCandidates(env: Env, m: Memory, pool: Pool, n: nat)
    ensures var healthy := Healthy(m, pool.members, Ineligible(env, pool.members), env.lookAt(n));
            forall d :: d in healthy <==> Candidate(env, m, pool, n, d)
  {
  }

  lemma BoundIsHealthy(m: Memory, healthy: seq<Deployment>, session: Option<string>, pool: string, now: int)
    ensures var b := BoundDeployment(m, healthy, session, pool, now);
            b.Some? ==>
              && b.value in healthy && session.Some?
              && Lookup(m.sticky, session.value, pool, now) == Some(b.value.Key())
  {
  }

  lemma AllOrLast(tries: seq<Try>)
    requires tries != [] ==> AllRetried(tries[..|tries| - 1])
    ensures AllRetried(tries) <==> tries == [] || Retried(tries[|tries| - 1].verdict)
  {
    if tries != [] {
      var front, last := tries[..|tries| - 1], tries[|tries| - 1];
      assert tries == front + [last] && last in tries;
    }
  }

  lemma ConclusionDecides(tries: seq<Try>, otherwise: Error)
    requires otherwise != CallerGone && otherwise != Upstream(Refused) && otherwise != AllBudgets
    ensures var (used, error) := Concluded(tries, otherwise);
            && (used.Some? <==> error.None?) && error != Some(AllBudgets)
            && (used.Some? ==> tries != [] && tries[|tries| - 1] == Try(used.value, Served))
            && (error.Some? && error != Some(CallerGone) && error != Some(Upstream(Refused)) ==>
                  tries == [] || Retried(tries[|tries| - 1].verdict))
  {
  }

  /**
   * A pass over a pool gives exactly one of a served deployment and an error. It tries only
   * eligible members that are neither cooling down nor backing off, none twice, and none at all
   * without a budget. If it fails for any reason but a refused request or a caller that left, it
   * tried every candidate.
   */
  lemma PassIsCorrect(env: Env, settings: Settings, m: Memory, pool: Pool, session: Option<string>, n: nat,
                      reasons: seq<Reason>)
    ensures var p := PoolRun(env, settings, m, pool, session, n, reasons);
            && Decided(p.result, p.tries)
            && p.result.tried == Tried(p.tries) && Distinct(p.result.tried)
            && (forall d | d in p.result.tried :: Candidate(env, m, pool, n, d))
            && (forall i | 0 <= i < |p.tries| :: p.tries[i].verdict == VerdictOf(env, n + i, p.tries[i].d))
            && (!env.budgetBefore(pool.name, n) ==> p.tries == [] && p.memory == m)
            && (env.budgetBefore(pool.name, n) && RanOut(p.result) ==>
                  forall d | Candidate(env, m, pool, n, d) :: d in p.result.tried)
            && p.result.error != Some(AllBudgets)
  {
    hide Ready, Healthy, Looked, PassTries, Concluded, AllReported, BoundDeployment;
    hide Unavailable, VerdictOf, Reasons, Candidate;
    if env.budgetBefore(pool.name, n) {
      var now := env.lookAt(n);
      var skip := Ineligible(env, pool.members);
      var healthy := Healthy(m, pool.members, skip, now);
      var m1 := m.(cool := Looked(m.cool, pool.members, skip, now));
      var bound := BoundDeployment(m1, healthy, session, pool.name, now);
      var tries := PassTries(env, healthy, bound, n);
      HealthyAreCandidates(env, m, pool, n);
      BoundIsHealthy(m1, healthy, session, pool.name, now);
      PassIsOrderly(env, healthy, bound, n);
      PassFrontIsRetried(env, healthy, bound, n);
      AllOrLast(tries);
      UnavailableIsOther(m.back, pool.members, now);
      ConclusionDecides(tries, Unavailable(m.back, pool.members, now));
      forall d | d in Tried(tries) ensures Candidate(env, m, pool, n, d) {
        var i :| 0 <= i < |tries| && Tried(tries)[i] == d;
        assert tries[i] in tries;
      }
    }
  }

  lemma UnavailableIsOther(back: Backoffs, ds: seq<Deployment>, now: int)
    ensures var e := Unavailable(back, ds, now); e != CallerGone && e != Upstream(Refused) && e != AllBudgets
  {
  }

  /** When nothing can be tried, the caller is told to wait for the deployment that is free first. */
  lemma {:induction false} WaitIsTheShortest(back: Backoffs, ds: seq<Deployment>, now: int)
    ensures var wait := ShortestWait(back, ds, now);
            && (wait == 0 <==> forall d | d in ds :: !BackingOff(back, d.Key(), now))
            && (forall d | d in ds && BackingOff(back, d.Key(), now) :: wait <= back[d.Key()].nextRetryAt - now)
            && (wait > 0 ==>
                  exists d | d in ds :: BackingOff(back, d.Key(), now) && wait == back[d.Key()].nextRetryAt - now)
  {
    if ds != [] {
      var front, last := ds[..|ds| - 1], ds[|ds| - 1];
      assert ds == front + [last];
      WaitIsTheShortest(back, front, now);
    }
  }

  // ---------- Health bookkeeping ----------

  function Broken(tries: seq<Try>, d: Deployment): nat
  {
    if tries == [] then 0
    else
      var last := tries[|tries| - 1];
      Broken(tries[..|tries| - 1], d) + if last.d == d && last.verdict.Broke? then 1 else 0
  }

  function LimitedUpstream(tries: seq<Try>, key: DeploymentKey): nat
  {
    if tries == [] then 0
    else
      var last := tries[|tries| - 1];
      LimitedUpstream(tries[..|tries| - 1], key) +
      if last.d.Key() == key && last.verdict.Limited? && !last.verdict.local then 1 else 0
  }

  lemma ReportedOnce(m: Memory, settings: Settings, env: Env, n: nat, t: Try, d: Deployment, key: DeploymentKey)
    ensures var after := Reported(m, settings, env, n, t);
            && FailuresOf(after.cool, d) == FailuresOf(m.cool, d) + (if t.d == d && t.verdict.Broke? then 1 else 0)
            && AttemptsOf(after.back, key) ==
               AttemptsOf(m.back, key) + (if t.d.Key() == key && t.verdict.Limited? && !t.verdict.local then 1 else 0)
            && (!(t.d == d && t.verdict.Broke?) ==>
                  (d in after.cool.until <==> d in m.cool.until) &&
                  (d in m.cool.until ==> after.cool.until[d] == m.cool.until[d]))
            && (!(t.d.Key() == key && t.verdict.Limited? && !t.verdict.local) ==>
                  (key in after.back <==> key in m.back) && (key in m.back ==> after.back[key] == m.back[key]))
            && after.sticky == m.sticky
  {
  }

  /**
   * The health records change by exactly the tries: one failure for each try that broke, one
   * rate-limit attempt for each upstream 429, and nothing for a local rejection, a refused request,
   * a success or a caller that left.
   */
  lemma {:induction false} HealthIsAFold(m: Memory, settings: Settings, env: Env, n: nat, tries: seq<Try>,
                                         d: Deployment, key: DeploymentKey)
    ensures var after := AllReported(m, settings, env, n, tries);
            && FailuresOf(after.cool, d) == FailuresOf(m.cool, d) + Broken(tries, d)
            && AttemptsOf(after.back, key) == AttemptsOf(m.back, key) + LimitedUpstream(tries, key)
            && (Broken(tries, d) == 0 ==>
                  (d in after.cool.until <==> d in m.cool.until) &&
                  (d in m.cool.until ==> after.cool.until[d] == m.cool.until[d]))
            && (LimitedUpstream(tries, key) == 0 ==>
                  (key in after.back <==> key in m.back) && (key in m.back ==> after.back[key] == m.back[key]))
            && after.sticky == m.sticky
  {
    hide Reported;
    if tries != [] {
      var k := |tries| - 1;
      HealthIsAFold(m, settings, env, n, tries[..k], d, key);
      ReportedOnce(AllReported(m, settings, env, n, tries[..k]), settings, env, n + k, tries[k], d, key);
    }
  }

  lemma {:induction false} StickyUntouched(m: Memory, settings: Settings, env: Env, n: nat, tries: seq<Try>)
    ensures AllReported(m, settings, env, n, tries).sticky == m.sticky
  {
    if tries != [] {
      StickyUntouched(m, settings, env, n, tries[..|tries| - 1]);
    }
  }

  /** A pass reports each deployment as failed at most once. */
  lemma {:induction false} BrokenAtMostOnce(tries: seq<Try>, d: Deployment)
    requires Distinct(Tried(tries))
    ensures Broken(tries, d) <= 1
    ensures Broken(tries, d) == 1 <==> Try(d, Broke) in tries
  {
    if tries != [] {
      var front, last := tries[..|tries| - 1], tries[|tries| - 1];
      assert tries == front + [last];
      forall i, j | 0 <= i < j < |Tried(front)| ensures Tried(front)[i] != Tried(front)[j] {
        assert Tried(tries)[i] != Tried(tries)[j];
      }
      BrokenAtMostOnce(front, d);
      LastIsNew(tries);
    }
  }

  lemma LastIsNew(tries: seq<Try>)
    requires tries != [] && Distinct(Tried(tries))
    ensures forall t | t in tries[..|tries| - 1] :: t.d != tries[|tries| - 1].d
  {
    var front := tries[..|tries| - 1];
    forall t | t in front ensures t.d != tries[|tries| - 1].d {
      var i :| 0 <= i < |front| && front[i] == t;
      assert Tried(tries)[i] != Tried(tries)[|tries| - 1];
    }
  }

  // ---------- Sticky sessions ----------

  /** After a pooled success, the session is bound to the deployment that served it. */
  lemma SessionFollowsSuccess(env: Env, settings: Settings, m: Memory, pool: Pool, session: string, n: nat,
                              reasons: seq<Reason>, later: int)
    requires var p := PoolRun(env, settings, m, pool, Some(session), n, reasons);
             && p.result.used.Some?
             && later <= env.lookAt(n) + TTL && later <= env.reportAt(n + |p.tries| - 1) + TTL
    ensures var p := PoolRun(env, settings, m, pool, Some(session), n, reasons);
            Lookup(p.memory.sticky, session, pool.name, later) == Some(p.result.used.value.Key())
  {
    hide Healthy, Looked, Unavailable, Reasons, Tried, Tries, VerdictOf, CacheKey;
    var now := env.lookAt(n);
    var skip := Ineligible(env, pool.members);
    var healthy := Healthy(m, pool.members, skip, now);
    var m1 := m.(cool := Looked(m.cool, pool.members, skip, now));
    var bound := BoundDeployment(m1, healthy, Some(session), pool.name, now);
    var m2 := Consulted(m1, Some(session), pool.name, now);
    var tries := PassTries(env, healthy, bound, n);
    StickyUntouched(m2, settings, env, n, tries);
    BoundIsHealthy(m1, healthy, Some(session), pool.name, now);
    if bound.Some? && |tries| == 1 {
      assert tries[0].d == bound.value;
    }
  }

  // ---------- The path without pools ----------

  ghost predicate LegacyOrderly(env: Env, tries: seq<Try>, ds: seq<Deployment>, tried: set<Deployment>, n: nat)
  {
    && Distinct(Tried(tries))
    && (forall t | t in tries :: t.d in ds && t.d !in tried)
    && (forall i | 0 <= i < |tries| :: tries[i].verdict == VerdictOf(env, n + i, tries[i].d))
    && (tries != [] ==> AllRetried(tries[..|tries| - 1]))
  }

  lemma {:induction false} LegacyIsOrderly(env: Env, settings: Settings, m: Memory, ds: seq<Deployment>,
                                           tried: set<Deployment>, n: nat, left: int)
    ensures var tries := LegacyRun(env, settings, m, ds, tried, n, left).1;
            |tries| <= (if left > 0 then left else 0) && LegacyOrderly(env, tries, ds, tried, n)
    decreases left
  {
    hide Looked, Reported, VerdictOf, Choice, Ready, LegacyOrderly, LegacyRun, Retried;
    if left > 0 {
      var now := env.lookAt(n);
      var healthy := Healthy(m, ds, tried, now);
      LegacyStep(env, settings, m, ds, tried, n, left);
      if healthy != [] {
        var d := Choice(env, n, healthy);
        ChoiceIsListed(env, n, healthy);
        var t := Try(d, VerdictOf(env, n, d));
        var m2 := Reported(m.(cool := Looked(m.cool, ds, {}, now)), settings, env, n, t);
        LegacyIsOrderly(env, settings, m2, ds, tried + {d}, n + 1, left - 1);
        PrependLegacy(env, t, LegacyRun(env, settings, m2, ds, tried + {d}, n + 1, left - 1).1, ds, tried, n);
      } else {
        NoLegacyTries(env, ds, tried, n);
      }
    } else {
      NoLegacyTries(env, ds, tried, n);
      LegacyStop(env, settings, m, ds, tried, n, left);
    }
  }

  lemma NoLegacyTries(env: Env, ds: seq<Deployment>, tried: set<Deployment>, n: nat)
    ensures LegacyOrderly(env, [], ds, tried, n)
  {
  }

  lemma PrependLegacy(env: Env, t: Try, rest: seq<Try>, ds: seq<Deployment>, tried: set<Deployment>, n: nat)
    requires t.d in ds && t.d !in tried && t.verdict == VerdictOf(env, n, t.d)
    requires LegacyOrderly(env, rest, ds, tried + {t.d}, n + 1)
    ensures Retried(t.verdict) ==> LegacyOrderly(env, [t] + rest, ds, tried, n)
    ensures LegacyOrderly(env, [t], ds, tried, n)
  {
    hide VerdictOf;
    PrependNew(env, t, rest, n);
    if Retried(t.verdict) {
      RetriedFirst(t, rest);
    }
  }

  lemma ChoiceIsListed(env: Env, n: nat, ds: seq<Deployment>)
    requires ds != []
    ensures Choice(env, n, ds) in ds
  {
  }

  lemma PrependNew(env: Env, t: Try, rest: seq<Try>, n: nat)
    requires Distinct(Tried(rest)) && t.verdict == VerdictOf(env, n, t.d)
    requires forall u | u in rest :: u.d != t.d
    requires forall i | 0 <= i < |rest| :: rest[i].verdict == VerdictOf(env, n + 1 + i, rest[i].d)
    ensures Distinct(Tried([t] + rest))
    ensures forall i | 0 <= i < |[t] + rest| :: ([t] + rest)[i].verdict == VerdictOf(env, n + i, ([t] + rest)[i].d)
  {
    hide VerdictOf, Distinct;
    DistinctFirst(t, rest);
    VerdictsFirst(env, t, rest, n);
  }

  /**
   * Without a pool, at most one more than the configured number of retries is tried, each an
   * eligible deployment of the model and none twice. There is exactly one of a served deployment and
   * an error, unless the number of retries is negative: then, and only then, there is neither.
   */
  lemma LegacyIsCorrect(env: Env, settings: Settings, m: Memory, deployments: map<string, seq<Deployment>>,
                        model: string)
    ensures var p := LegacyPath(env, settings, m, deployments, model);
            && |p.tries| <= (if settings.numRetries >= 0 then settings.numRetries + 1 else 0)
            && p.result.tried == Tried(p.tries) && Distinct(p.result.tried)
            && (forall d | d in p.result.tried ::
                  model in deployments && d in deployments[model] && env.eligible(d))
            && !(p.result.used.Some? && p.result.error.Some?)
            && (p.result.used.None? && p.result.error.None? <==> settings.numRetries < 0)
            && (settings.numRetries >= 0 ==> Decided(p.result, p.tries))
  {
    hide LegacyRun, Unavailable, Reasons, VerdictOf;
    var ds := Listed(deployments, model);
    LegacyIsOrderly(env, settings, m, ds, Ineligible(env, ds), 0, settings.numRetries + 1);
    var tries := LegacyRun(env, settings, m, ds, Ineligible(env, ds), 0, settings.numRetries + 1).1;
    forall d | d in Tried(tries) ensures d in ds && env.eligible(d) {
      var i :| 0 <= i < |tries| && Tried(tries)[i] == d;
      assert tries[i] in tries;
    }
    ConclusionDecides(tries, NoneAvailable);
  }

  lemma LookingLeavesNothing(m: Memory, ds: seq<Deployment>, skip: set<Deployment>, now: int)
    requires Healthy(m, ds, skip, now) == []
    ensures Healthy(m.(cool := Looked(m.cool, ds, {}, now)), ds, skip, now) == []
  {
    var after := m.(cool := Looked(m.cool, ds, {}, now));
    forall d | d in ds && d !in skip ensures !Ready(after, d, now) {
      assert d !in Healthy(m, ds, skip, now);
      LookingKeepsCooling(m.cool, ds, {}, d, now);
    }
    FirstIsMember(Healthy(after, ds, skip, now));
  }

  lemma FirstIsMember(ds: seq<Deployment>)
    ensures ds == [] || ds[0] in ds
  {
  }

  function Deployed(tries: seq<Try>): set<Deployment>
  {
    set t | t in tries :: t.d
  }

  lemma DeployedFirst(t: Try, rest: seq<Try>, tried: set<Deployment>)
    ensures tried + Deployed([t] + rest) == tried + {t.d} + Deployed(rest)
    ensures AllRetried([t] + rest) ==> AllRetried(rest)
  {
    assert forall u | u in rest :: u in [t] + rest;
    assert ([t] + rest)[0] == t;
  }

  /** The retry loop stops early, after failures only, exactly because nothing healthy is left. */
  lemma {:induction false} LegacyLeavesNothing(env: Env, settings: Settings, m: Memory, ds: seq<Deployment>,
                                               tried: set<Deployment>, n: nat, left: int)
    ensures var (after, tries) := LegacyRun(env, settings, m, ds, tried, n, left);
            AllRetried(tries) && |tries| < left ==>
              Healthy(after, ds, tried + Deployed(tries), env.lookAt(n + |tries|)) == []
    decreases left
  {
    hide Looked, Reported, VerdictOf, Choice, Ready, LegacyRun, AllRetried, Deployed, Healthy;
    if left <= 0 {
      LegacyStop(env, settings, m, ds, tried, n, left);
    } else {
      var now := env.lookAt(n);
      var healthy := Healthy(m, ds, tried, now);
      LegacyStep(env, settings, m, ds, tried, n, left);
      if healthy == [] {
        LookingLeavesNothing(m, ds, tried, now);
        NothingDeployed(tried);
      } else {
        var d := Choice(env, n, healthy);
        var t := Try(d, VerdictOf(env, n, d));
        var m2 := Reported(m.(cool := Looked(m.cool, ds, {}, now)), settings, env, n, t);
        LegacyLeavesNothing(env, settings, m2, ds, tried + {d}, n + 1, left - 1);
        DeployedFirst(t, LegacyRun(env, settings, m2, ds, tried + {d}, n + 1, left - 1).1, tried);
        LastNotRetried(t);
      }
    }
  }

  lemma NothingDeployed(tried: set<Deployment>)
    ensures tried + Deployed([]) == tried
  {
  }

  lemma LastNotRetried(t: Try)
    ensures AllRetried([t]) ==> Retried(t.verdict)
  {
    assert t in [t];
  }

  /**
   * If the path without pools fails for any reason but a refused request or a caller that left, it
   * used up its retries, or every eligible deployment it did not try is cooling down or backing off.
   */
  lemma LegacyGivesUpOnlyWhenNothingIsLeft(env: Env, settings: Settings, m: Memory,
                                           deployments: map<string, seq<Deployment>>, model: string)
    requires var p := LegacyPath(env, settings, m, deployments, model);
             RanOut(p.result) && |p.tries| <= settings.numRetries
    ensures var p := LegacyPath(env, settings, m, deployments, model);
            model in deployments ==> forall d | d in deployments[model] && env.eligible(d) && d !in p.result.tried ::
              !Ready(p.memory, d, env.lookAt(|p.tries|))
  {
    hide LegacyRun, Unavailable, Reasons, VerdictOf, Healthy, Ready;
    var ds := Listed(deployments, model);
    var skip := Ineligible(env, ds);
    LegacyIsOrderly(env, settings, m, ds, skip, 0, settings.numRetries + 1);
    LegacyLeavesNothing(env, settings, m, ds, skip, 0, settings.numRetries + 1);
    var (after, tries) := LegacyRun(env, settings, m, ds, skip, 0, settings.numRetries + 1);
    AllOrLast(tries);
    ConclusionDecides(tries, NoneAvailable);
    forall d | d in ds && env.eligible(d) && d !in Tried(tries) ensures !Ready(after, d, env.lookAt(|tries|)) {
      DeployedWasTried(tries, d);
      assert d !in Healthy(after, ds, skip + Deployed(tries), env.lookAt(0 + |tries|));
    }
  }

  lemma DeployedWasTried(tries: seq<Try>, d: Deployment)
    ensures d in Deployed(tries) ==> d in Tried(tries)
  {
    if d in Deployed(tries) {
      var t :| t in tries && t.d == d;
      var i :| 0 <= i < |tries| && tries[i] == t;
      assert Tried(tries)[i] == d;
    }
  }
}

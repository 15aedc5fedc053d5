/**
 * What a routing run leaves in the health records: exactly the reports of its looks and tries.
 */
module RoutingHealth {
  import opened Deployments
  import opened Health
  import opened Routing
  import opened Router
  import opened RoutingProofs
  import opened RoutingRuns

  // ---------- What is reported ----------

  /** One look at each listed deployment that is not passed over. */
  function Looking(ds: seq<Deployment>, skip: set<Deployment>, now: int): seq<Report>
  {
    if ds == [] then []
    else
      var last := ds[|ds| - 1];
      Looking(ds[..|ds| - 1], skip, now) + if last in skip then [] else [Look(last, now)]
  }

  /** One failure for each broken try, in order, at its time. */
  function Breakages(env: Env, n: nat, tries: seq<Try>): seq<Report>
  {
    if tries == [] then []
    else
      var k := |tries| - 1;
      Breakages(env, n, tries[..k]) + if tries[k].verdict.Broke? then [Failure(tries[k].d, env.reportAt(n + k))] else []
  }

  /** One rate limit for each try that an upstream limited, in order, with what the server asks for. */
  function Limits(env: Env, n: nat, tries: seq<Try>): seq<Limit>
  {
    if tries == [] then []
    else
      var k := |tries| - 1; var t := tries[k];
      Limits(env, n, tries[..k]) +
      if t.verdict.Limited? && !t.verdict.local
      then [Limit.Limited(t.d.Key(), t.verdict.retryAfter, env.reportAt(n + k), env.draw(n + k))] else []
  }

  function PassReports(env: Env, settings: Settings, session: Option<string>, p: Pass): seq<Report>
  {
    if OutOfBudget(env, p) then []
    else
      Looking(p.pool.members, Ineligible(env, p.pool.members), env.lookAt(p.n)) +
      Breakages(env, p.n, Outcome(env, settings, session, p).tries)
  }

  function RunReports(env: Env, settings: Settings, session: Option<string>, passes: seq<Pass>): seq<Report>
  {
    if passes == [] then []
    else PassReports(env, settings, session, passes[0]) + RunReports(env, settings, session, passes[1..])
  }

  /** Without a pool there is a look at all deployments before each try, and before giving up. */
  function LegacyReports(env: Env, ds: seq<Deployment>, n: nat, tries: seq<Try>, left: int): seq<Report>
    decreases left
  {
    if left <= 0 then []
    else
      Looking(ds, {}, env.lookAt(n)) +
      if tries == [] then []
      else
        Breakages(env, n, [tries[0]]) +
        if Retried(tries[0].verdict) then LegacyReports(env, ds, n + 1, tries[1..], left - 1) else []
  }

  function RouteReports(env: Env, settings: Settings, m: Memory, deployments: map<string, seq<Deployment>>,
                        pool: Option<Pool>, others: seq<Pool>, model: string, session: Option<string>): seq<Report>
  {
    if env.goneAtStart then []
    else
      match pool
      case None =>
        LegacyReports(env, Listed(deployments, model), 0, LegacyPath(env, settings, m, deployments, model).tries,
                      settings.numRetries + 1)
      case Some(p) => RunReports(env, settings, session, Passes(env, settings, m, p, others, session))
  }

  // ---------- The records follow the reports ----------

  lemma {:induction false} BreakagesAdd(env: Env, n: nat, front: seq<Try>, back: seq<Try>)
    ensures Breakages(env, n, front + back) == Breakages(env, n, front) + Breakages(env, n + |front|, back)
  {
    if back == [] {
      assert front + back == front;
    } else {
      var most := back[..|back| - 1];
      assert (front + back)[..|front + back| - 1] == front + most;
      BreakagesAdd(env, n, front, most);
    }
  }

  lemma {:induction false} LimitsAdd(env: Env, n: nat, front: seq<Try>, back: seq<Try>)
    ensures Limits(env, n, front + back) == Limits(env, n, front) + Limits(env, n + |front|, back)
  {
    if back == [] {
      assert front + back == front;
    } else {
      var most := back[..|back| - 1];
      assert (front + back)[..|front + back| - 1] == front + most;
      LimitsAdd(env, n, front, most);
    }
  }

  lemma {:induction false} LookedIs(c: Cooldowns, ds: seq<Deployment>, skip: set<Deployment>, now: int,
                                    period: int, allowed: int)
    ensures Looked(c, ds, skip, now) == Continued(c, Looking(ds, skip, now), period, allowed)
  {
    hide Checked;
    if ds != [] {
      var front, last := ds[..|ds| - 1], ds[|ds| - 1];
      LookedIs(c, front, skip, now, period, allowed);
      var reports := Looking(front, skip, now);
      if last in skip {
        assert reports + [] == reports;
      } else {
        assert (reports + [Look(last, now)])[..|reports|] == reports;
      }
    }
  }

  /** The two records say what the reports make of them. */
  ghost predicate Follow(settings: Settings, m: Memory, after: Memory, reports: seq<Report>, limits: seq<Limit>)
  {
    && after.cool == Continued(m.cool, reports, settings.cooldownTime, settings.allowedFails)
    && after.back == Backed(m.back, limits)
  }

  lemma FollowAdd(settings: Settings, m: Memory, mid: Memory, after: Memory, reports: seq<Report>, more: seq<Report>,
                  limits: seq<Limit>, others: seq<Limit>)
    requires Follow(settings, m, mid, reports, limits) && Follow(settings, mid, after, more, others)
    ensures Follow(settings, m, after, reports + more, limits + others)
  {
    hide Continued, Backed;
    ContinuedJoin(m.cool, reports, more, settings.cooldownTime, settings.allowedFails);
    BackedJoin(m.back, limits, others);
  }

  lemma OneFollows(env: Env, settings: Settings, m: Memory, n: nat, t: Try)
    ensures Follow(settings, m, Reported(m, settings, env, n, t), Breakages(env, n, [t]), Limits(env, n, [t]))
  {
    hide Failed, RateLimited;
    assert [t][..0] == [];
    assert Breakages(env, n, [t][..0]) == [] && Limits(env, n, [t][..0]) == [];
    OneReport(m, settings, env, n, t);
  }

  lemma OneReport(m: Memory, settings: Settings, env: Env, n: nat, t: Try)
    ensures Continued(m.cool, [], settings.cooldownTime, settings.allowedFails) == m.cool
    ensures Backed(m.back, []) == m.back
    ensures Continued(m.cool, [Failure(t.d, env.reportAt(n))], settings.cooldownTime, settings.allowedFails) ==
            Failed(m.cool, t.d, env.reportAt(n), settings.cooldownTime, settings.allowedFails)
    ensures forall l: Limit | l.Limited? ::
              Backed(m.back, [l]) == RateLimited(m.back, l.key, l.retryAfter, l.at, l.draw)
  {
    hide Failed, RateLimited;
    var f := [Failure(t.d, env.reportAt(n))];
    assert f[..0] == [];
    forall l: Limit | l.Limited? ensures Backed(m.back, [l]) == RateLimited(m.back, l.key, l.retryAfter, l.at, l.draw) {
      assert [l][..0] == [];
    }
  }

  lemma {:induction false} TriesFollow(env: Env, settings: Settings, m: Memory, n: nat, tries: seq<Try>)
    ensures Follow(settings, m, AllReported(m, settings, env, n, tries),
                   Breakages(env, n, tries), Limits(env, n, tries))
  {
    hide Follow, Reported, Breakages, Limits;
    if tries == [] {
      NothingFollows(env, settings, m, n);
    } else {
      var k := |tries| - 1;
      TriesFollow(env, settings, m, n, tries[..k]);
      var mid := AllReported(m, settings, env, n, tries[..k]);
      OneFollows(env, settings, mid, n + k, tries[k]);
      assert tries[..k] + [tries[k]] == tries;
      BreakagesAdd(env, n, tries[..k], [tries[k]]);
      LimitsAdd(env, n, tries[..k], [tries[k]]);
      FollowAdd(settings, m, mid, Reported(mid, settings, env, n + k, tries[k]), Breakages(env, n, tries[..k]),
                Breakages(env, n + k, [tries[k]]), Limits(env, n, tries[..k]), Limits(env, n + k, [tries[k]]));
    }
  }

  lemma NothingFollows(env: Env, settings: Settings, m: Memory, n: nat)
    ensures Follow(settings, m, m, [], []) && Breakages(env, n, []) == [] && Limits(env, n, []) == []
  {
  }

  lemma LookingFollows(settings: Settings, m: Memory, ds: seq<Deployment>, skip: set<Deployment>, now: int)
    ensures Follow(settings, m, m.(cool := Looked(m.cool, ds, skip, now)), Looking(ds, skip, now), [])
  {
    LookedIs(m.cool, ds, skip, now, settings.cooldownTime, settings.allowedFails);
  }

  lemma SessionsDoNotCount(settings: Settings, m: Memory, mid: Memory, after: Memory, reports: seq<Report>,
                           limits: seq<Limit>)
    requires Follow(settings, m, mid, reports, limits) && after.cool == mid.cool && after.back == mid.back
    ensures Follow(settings, m, after, reports, limits)
  {
  }

  lemma PassFollows(env: Env, settings: Settings, session: Option<string>, p: Pass)
    ensures var done := Outcome(env, settings, session, p);
            Follow(settings, p.memory, done.memory,
                   PassReports(env, settings, session, p), Limits(env, p.n, done.tries))
  {
    hide Follow, Healthy, Looked, PassTries, Concluded, AllReported, BoundDeployment, Unavailable, Reasons, LookedUp;
    hide Bound, Tried, Looking, Breakages, Limits, Ineligible;
    NothingFollows(env, settings, p.memory, p.n);
    if !OutOfBudget(env, p) {
      var now := env.lookAt(p.n);
      var skip := Ineligible(env, p.pool.members);
      var healthy := Healthy(p.memory, p.pool.members, skip, now);
      var m1 := p.memory.(cool := Looked(p.memory.cool, p.pool.members, skip, now));
      var bound := BoundDeployment(m1, healthy, session, p.pool.name, now);
      var m2 := Consulted(m1, session, p.pool.name, now);
      var tries := PassTries(env, healthy, bound, p.n);
      var m3 := AllReported(m2, settings, env, p.n, tries);
      var looks := Looking(p.pool.members, skip, now);
      LookingFollows(settings, p.memory, p.pool.members, skip, now);
      SessionsDoNotCount(settings, p.memory, m1, m2, looks, []);
      TriesFollow(env, settings, m2, p.n, tries);
      FollowAdd(settings, p.memory, m2, m3, looks, Breakages(env, p.n, tries), [], Limits(env, p.n, tries));
      assert [] + Limits(env, p.n, tries) == Limits(env, p.n, tries);
      SessionsDoNotCount(settings, p.memory, m3, Outcome(env, settings, session, p).memory,
                         looks + Breakages(env, p.n, tries), Limits(env, p.n, tries));
    }
  }

  lemma {:induction false} PassesFollow(env: Env, settings: Settings, session: Option<string>, passes: seq<Pass>)
    requires passes != [] && Chained(env, settings, session, passes)
    ensures Follow(settings, passes[0].memory, Outcome(env, settings, session, passes[|passes| - 1]).memory,
                   RunReports(env, settings, session, passes),
                   Limits(env, passes[0].n, PassedTries(env, settings, session, passes)))
    decreases |passes|
  {
    hide Follow, Outcome, Limits, PassReports;
    var first := Outcome(env, settings, session, passes[0]);
    PassFollows(env, settings, session, passes[0]);
    if |passes| == 1 {
      assert passes == [passes[0]];
      OnePassed(env, settings, session, passes[0]);
      OneReported(env, settings, session, passes[0]);
    } else {
      PassesFollow(env, settings, session, passes[1..]);
      var rest := PassedTries(env, settings, session, passes[1..]);
      FollowAdd(settings, passes[0].memory, first.memory, Outcome(env, settings, session, passes[|passes| - 1]).memory,
                PassReports(env, settings, session, passes[0]), RunReports(env, settings, session, passes[1..]),
                Limits(env, passes[0].n, first.tries), Limits(env, passes[1].n, rest));
      LimitsAdd(env, passes[0].n, first.tries, rest);
    }
  }

  lemma OneReported(env: Env, settings: Settings, session: Option<string>, p: Pass)
    ensures RunReports(env, settings, session, [p]) == PassReports(env, settings, session, p)
  {
    hide PassReports;
    assert [p][1..] == [];
  }

  lemma {:induction false} LegacyFollows(env: Env, settings: Settings, m: Memory, ds: seq<Deployment>,
                                         tried: set<Deployment>, n: nat, left: int)
    ensures var (after, tries) := LegacyRun(env, settings, m, ds, tried, n, left);
            Follow(settings, m, after, LegacyReports(env, ds, n, tries, left), Limits(env, n, tries))
    decreases left
  {
    hide Follow, Looked, Reported, VerdictOf, Choice, Ready, LegacyRun, Healthy, Limits, Breakages, Looking;
    NothingFollows(env, settings, m, n);
    if left <= 0 {
      LegacyStop(env, settings, m, ds, tried, n, left);
    } else {
      var now := env.lookAt(n);
      var healthy := Healthy(m, ds, tried, now);
      var m1 := m.(cool := Looked(m.cool, ds, {}, now));
      LegacyStep(env, settings, m, ds, tried, n, left);
      LookingFollows(settings, m, ds, {}, now);
      if healthy == [] {
        assert Looking(ds, {}, now) + [] == Looking(ds, {}, now);
      } else {
        var d := Choice(env, n, healthy);
        var t := Try(d, VerdictOf(env, n, d));
        var m2 := Reported(m1, settings, env, n, t);
        OneFollows(env, settings, m1, n, t);
        FollowAdd(settings, m, m1, m2, Looking(ds, {}, now), Breakages(env, n, [t]), [], Limits(env, n, [t]));
        assert [] + Limits(env, n, [t]) == Limits(env, n, [t]);
        var looked := Looking(ds, {}, now) + Breakages(env, n, [t]);
        if Retried(t.verdict) {
          var (after, rest) := LegacyRun(env, settings, m2, ds, tried + {d}, n + 1, left - 1);
          LegacyFollows(env, settings, m2, ds, tried + {d}, n + 1, left - 1);
          FollowAdd(settings, m, m2, after, looked, LegacyReports(env, ds, n + 1, rest, left - 1),
                    Limits(env, n, [t]), Limits(env, n + 1, rest));
          LimitsAdd(env, n, [t], rest);
          LegacyReportsGo(env, ds, n, t, rest, left);
        } else {
          NotReported(m1, settings, env, n, t);
          assert Breakages(env, n, [t]) + [] == Breakages(env, n, [t]);
        }
      }
    }
  }

  lemma LegacyReportsGo(env: Env, ds: seq<Deployment>, n: nat, t: Try, rest: seq<Try>, left: int)
    requires left > 0 && Retried(t.verdict)
    ensures LegacyReports(env, ds, n, [t] + rest, left) ==
            Looking(ds, {}, env.lookAt(n)) + Breakages(env, n, [t]) + LegacyReports(env, ds, n + 1, rest, left - 1)
  {
    hide Looking, Breakages;
    assert ([t] + rest)[1..] == rest;
  }

  /**
   * Whatever the path (a pool, other pools, no pool), the health records a run leaves are exactly
   * what its reports make of the ones before: the looks, one failure per broken try at its time, and
   * one rate limit per upstream 429 with what the server asks for. A success, a refused request, a
   * local rejection or a caller that left is not reported.
   */
  lemma RouteIsAccounted(env: Env, settings: Settings, m: Memory, deployments: map<string, seq<Deployment>>,
                         pool: Option<Pool>, others: seq<Pool>, model: string, session: Option<string>)
    ensures var p := RouteRun(env, settings, m, deployments, pool, others, model, session);
            var reports := RouteReports(env, settings, m, deployments, pool, others, model, session);
            && p.memory.cool == Continued(m.cool, reports, settings.cooldownTime, settings.allowedFails)
            && p.memory.back == Backed(m.back, Limits(env, 0, p.tries))
  {
    hide PooledRun, LegacyRun, LegacyResult, Passes, Outcome, Chained, Consultations, PassedTries, MovesOn;
    hide Continued, Backed, Limits, LegacyReports, RunReports;
    NothingFollows(env, settings, m, 0);
    if !env.goneAtStart {
      match pool
      case None =>
        var ds := Listed(deployments, model);
        LegacyFollows(env, settings, m, ds, Ineligible(env, ds), 0, settings.numRetries + 1);
      case Some(p) =>
        PassesAreInOrder(env, settings, m, p, others, session);
        RunFollowsPasses(env, settings, m, p, others, session);
        PassesFollow(env, settings, session, Passes(env, settings, m, p, others, session));
    }
  }

  // ---------- Cooldowns after routing ----------

  /** The time of the last broken try of a deployment. */
  function LastBroken(env: Env, n: nat, tries: seq<Try>, d: Deployment): Option<int>
  {
    if tries == [] then None
    else
      var k := |tries| - 1;
      if tries[k] == Try(d, Broke) then Some(env.reportAt(n + k)) else LastBroken(env, n, tries[..k], d)
  }

  /** What the reports of these tries say about one deployment. */
  ghost predicate Tells(env: Env, n: nat, tries: seq<Try>, reports: seq<Report>, d: Deployment)
  {
    && HasNoSuccess(reports)
    && FailureCount(reports, d) == Broken(tries, d)
    && LastFailure(reports, d) == LastBroken(env, n, tries, d)
    && forall r | r in reports && r.Look? :: exists k | n <= k <= n + |tries| :: r.at == env.lookAt(k)
  }

  lemma {:induction false} LastFailureJoin(front: seq<Report>, back: seq<Report>, d: Deployment)
    ensures LastFailure(front + back, d) ==
            if LastFailure(back, d).Some? then LastFailure(back, d) else LastFailure(front, d)
  {
    if back == [] {
      assert front + back == front;
    } else {
      var most := back[..|back| - 1];
      assert (front + back)[..|front + back| - 1] == front + most;
      LastFailureJoin(front, most, d);
    }
  }

  lemma {:induction false} BrokenJoin(env: Env, n: nat, front: seq<Try>, back: seq<Try>, d: Deployment)
    ensures Broken(front + back, d) == Broken(front, d) + Broken(back, d)
    ensures LastBroken(env, n, front + back, d) ==
            if LastBroken(env, n + |front|, back, d).Some? then LastBroken(env, n + |front|, back, d)
            else LastBroken(env, n, front, d)
  {
    if back == [] {
      assert front + back == front;
    } else {
      var most := back[..|back| - 1];
      assert (front + back)[..|front + back| - 1] == front + most;
      BrokenJoin(env, n, front, most, d);
    }
  }

  lemma TellsAdd(env: Env, n: nat, tries: seq<Try>, more: seq<Try>, reports: seq<Report>, others: seq<Report>,
                 d: Deployment)
    requires Tells(env, n, tries, reports, d) && Tells(env, n + |tries|, more, others, d)
    ensures Tells(env, n, tries + more, reports + others, d)
  {
    hide FailureCount, LastFailure, Broken, LastBroken;
    FailuresJoin(reports, others, d);
    LastFailureJoin(reports, others, d);
    BrokenJoin(env, n, tries, more, d);
    forall r | r in reports + others && r.Look?
      ensures exists k | n <= k <= n + |tries + more| :: r.at == env.lookAt(k)
    {
      if r in reports {
        var k :| n <= k <= n + |tries| && r.at == env.lookAt(k);
      } else {
        var k :| n + |tries| <= k <= n + |tries| + |more| && r.at == env.lookAt(k);
      }
    }
  }

  lemma OneLookTells(env: Env, n: nat, e: Deployment, d: Deployment)
    ensures Tells(env, n, [], [Look(e, env.lookAt(n))], d)
  {
    assert [Look(e, env.lookAt(n))][..0] == [];
    assert n <= n <= n + 0;
  }

  lemma {:induction false} LookingTells(env: Env, n: nat, ds: seq<Deployment>, skip: set<Deployment>, d: Deployment)
    ensures Tells(env, n, [], Looking(ds, skip, env.lookAt(n)), d)
  {
    hide Tells;
    NoneTell(env, n, d);
    if ds != [] {
      var front, last := Looking(ds[..|ds| - 1], skip, env.lookAt(n)), ds[|ds| - 1];
      LookingTells(env, n, ds[..|ds| - 1], skip, d);
      var none: seq<Try> := [];
      assert front + [] == front && none + none == none;
      OneLookTells(env, n, last, d);
      TellsAdd(env, n, [], [], front, [Look(last, env.lookAt(n))], d);
    }
  }

  lemma OneBreakTells(env: Env, n: nat, t: Try, d: Deployment)
    ensures Tells(env, n, [t], Breakages(env, n, [t]), d)
  {
    assert [t][..0] == [] && Breakages(env, n, []) == [];
    assert Broken([t][..0], d) == 0 && LastBroken(env, n, [t][..0], d) == None;
    if t.verdict.Broke? {
      var f := [Failure(t.d, env.reportAt(n))];
      assert f[..0] == [];
      assert Breakages(env, n, [t]) == f;
    }
  }

  lemma {:induction false} BreakagesTell(env: Env, n: nat, tries: seq<Try>, d: Deployment)
    ensures Tells(env, n, tries, Breakages(env, n, tries), d)
  {
    hide Tells, Breakages;
    if tries == [] {
      NothingFollows(env, Settings(0, 0, 0), Memory(NO_COOLDOWNS, map[], map[]), n);
      NoneTell(env, n, d);
    } else {
      var k := |tries| - 1;
      BreakagesTell(env, n, tries[..k], d);
      OneBreakTells(env, n + k, tries[k], d);
      BreakagesAdd(env, n, tries[..k], [tries[k]]);
      TellsAdd(env, n, tries[..k], [tries[k]], Breakages(env, n, tries[..k]), Breakages(env, n + k, [tries[k]]), d);
      assert tries[..k] + [tries[k]] == tries;
    }
  }

  lemma PassTells(env: Env, settings: Settings, session: Option<string>, p: Pass, d: Deployment)
    ensures Tells(env, p.n, Outcome(env, settings, session, p).tries, PassReports(env, settings, session, p), d)
  {
    hide Tells, Looking, Breakages, Ineligible, PassTries, Healthy, Looked, BoundDeployment, AllReported, Concluded;
    hide Unavailable, Reasons, Tried;
    var tries := Outcome(env, settings, session, p).tries;
    NoneTell(env, p.n, d);
    if !OutOfBudget(env, p) {
      LookingTells(env, p.n, p.pool.members, Ineligible(env, p.pool.members), d);
      BreakagesTell(env, p.n, tries, d);
      TellsAdd(env, p.n, [], tries, Looking(p.pool.members, Ineligible(env, p.pool.members), env.lookAt(p.n)),
               Breakages(env, p.n, tries), d);
      assert [] + tries == tries;
    }
  }

  lemma NoneTell(env: Env, n: nat, d: Deployment)
    ensures Tells(env, n, [], [], d)
  {
  }

  lemma {:induction false} PassesTell(env: Env, settings: Settings, session: Option<string>, passes: seq<Pass>,
                                      d: Deployment)
    requires passes != [] && Chained(env, settings, session, passes)
    ensures Tells(env, passes[0].n, PassedTries(env, settings, session, passes),
                  RunReports(env, settings, session, passes), d)
    decreases |passes|
  {
    hide Tells, Outcome, PassReports;
    PassTells(env, settings, session, passes[0], d);
    if |passes| == 1 {
      assert passes == [passes[0]];
      OnePassed(env, settings, session, passes[0]);
      OneReported(env, settings, session, passes[0]);
    } else {
      PassesTell(env, settings, session, passes[1..], d);
      TellsAdd(env, passes[0].n, Outcome(env, settings, session, passes[0]).tries,
               PassedTries(env, settings, session, passes[1..]), PassReports(env, settings, session, passes[0]),
               RunReports(env, settings, session, passes[1..]), d);
    }
  }

  lemma {:induction false} LegacyTells(env: Env, ds: seq<Deployment>, n: nat, tries: seq<Try>, left: int, d: Deployment)
    requires tries != [] ==> AllRetried(tries[..|tries| - 1])
    requires |tries| <= (if left > 0 then left else 0)
    ensures Tells(env, n, tries, LegacyReports(env, ds, n, tries, left), d)
    decreases left
  {
    hide Tells, Looking, Breakages;
    NoneTell(env, n, d);
    if left > 0 {
      LookingTells(env, n, ds, {}, d);
      if tries == [] {
        assert Looking(ds, {}, env.lookAt(n)) + [] == Looking(ds, {}, env.lookAt(n));
      } else {
        var t, rest := tries[0], tries[1..];
        assert tries == [t] + rest;
        BreakagesTell(env, n, [t], d);
        TellsAdd(env, n, [], [t], Looking(ds, {}, env.lookAt(n)), Breakages(env, n, [t]), d);
        assert [] + [t] == [t];
        if Retried(t.verdict) {
          RestRetried(tries);
          LegacyTells(env, ds, n + 1, rest, left - 1, d);
          TellsAdd(env, n, [t], rest, Looking(ds, {}, env.lookAt(n)) + Breakages(env, n, [t]),
                   LegacyReports(env, ds, n + 1, rest, left - 1), d);
          LegacyReportsGo(env, ds, n, t, rest, left);
        } else {
          OnlyLastFails(tries);
          assert tries == [t];
          assert Breakages(env, n, [t]) + [] == Breakages(env, n, [t]);
        }
      }
    }
  }

  lemma RestRetried(tries: seq<Try>)
    requires tries != [] && AllRetried(tries[..|tries| - 1])
    ensures tries[1..] != [] ==> AllRetried(tries[1..][..|tries| - 2])
  {
    if |tries| > 1 {
      assert tries[1..][..|tries| - 2] == tries[..|tries| - 1][1..];
    }
  }

  lemma OnlyLastFails(tries: seq<Try>)
    requires tries != [] && AllRetried(tries[..|tries| - 1])
    ensures |tries| > 1 ==> Retried(tries[0].verdict)
  {
    if |tries| > 1 {
      assert tries[0] in tries[..|tries| - 1];
    }
  }

  lemma RouteTells(env: Env, settings: Settings, m: Memory, deployments: map<string, seq<Deployment>>,
                   pool: Option<Pool>, others: seq<Pool>, model: string, session: Option<string>, d: Deployment)
    ensures Tells(env, 0, RouteRun(env, settings, m, deployments, pool, others, model, session).tries,
                  RouteReports(env, settings, m, deployments, pool, others, model, session), d)
  {
    hide Tells, PooledRun, LegacyRun, LegacyResult, Passes, Outcome, Chained, Consultations, PassedTries, MovesOn;
    hide LegacyReports, RunReports, LegacyOrderly;
    NoneTell(env, 0, d);
    if !env.goneAtStart {
      match pool
      case None =>
        var ds := Listed(deployments, model);
        LegacyIsOrderly(env, settings, m, ds, Ineligible(env, ds), 0, settings.numRetries + 1);
        OrderlyIsRetried(env, LegacyRun(env, settings, m, ds, Ineligible(env, ds), 0, settings.numRetries + 1).1, ds,
                         Ineligible(env, ds));
        LegacyTells(env, ds, 0, LegacyPath(env, settings, m, deployments, model).tries, settings.numRetries + 1, d);
      case Some(p) =>
        PassesAreInOrder(env, settings, m, p, others, session);
        RunFollowsPasses(env, settings, m, p, others, session);
        PassesTell(env, settings, session, Passes(env, settings, m, p, others, session), d);
    }
  }

  lemma OrderlyIsRetried(env: Env, tries: seq<Try>, ds: seq<Deployment>, tried: set<Deployment>)
    requires LegacyOrderly(env, tries, ds, tried, 0)
    ensures tries != [] ==> AllRetried(tries[..|tries| - 1])
  {
  }

  lemma {:induction false} LastBrokenAt(env: Env, n: nat, tries: seq<Try>, d: Deployment, i: nat)
    requires i < |tries| && tries[i] == Try(d, Broke) && forall j | i < j < |tries| :: tries[j] != Try(d, Broke)
    ensures LastBroken(env, n, tries, d) == Some(env.reportAt(n + i)) && Broken(tries, d) >= 1
  {
    var k := |tries| - 1;
    if i < k {
      LastBrokenAt(env, n, tries[..k], d, i);
    }
  }

  /**
   * If the records came from any history of reports, a deployment that has a cooldown after a
   * routing run failed as often as allowed, and at least once, counting its failures since its last
   * success before the run and its broken tries in the run.
   */
  lemma RoutingCoolsOnlyFailures(env: Env, settings: Settings, m: Memory, deployments: map<string, seq<Deployment>>,
                                 pool: Option<Pool>, others: seq<Pool>, model: string, session: Option<string>,
                                 reports: seq<Report>, d: Deployment)
    requires m.cool == After(reports, settings.cooldownTime, settings.allowedFails)
    ensures var p := RouteRun(env, settings, m, deployments, pool, others, model, session);
            var failures := FailuresSinceSuccess(reports, d) + Broken(p.tries, d);
            && FailuresOf(p.memory.cool, d) <= failures
            && (d in p.memory.cool.until ==> failures >= settings.allowedFails && failures >= 1)
  {
    hide RouteRun, RouteReports, Continued, Broken, LastBroken;
    RouteIsAccounted(env, settings, m, deployments, pool, others, model, session);
    RouteTells(env, settings, m, deployments, pool, others, model, session, d);
    var h := RouteReports(env, settings, m, deployments, pool, others, model, session);
    FailuresJoin(reports, h, d);
    ContinuedJoin(NO_COOLDOWNS, reports, h, settings.cooldownTime, settings.allowedFails);
    CooldownNeedsFailures(reports + h, settings.cooldownTime, settings.allowedFails, d);
  }

  /** The failures after a run, as a history. */
  lemma RunStreak(env: Env, settings: Settings, m: Memory, deployments: map<string, seq<Deployment>>,
                  pool: Option<Pool>, others: seq<Pool>, model: string, session: Option<string>,
                  reports: seq<Report>, d: Deployment, i: nat)
    requires m.cool == After(reports, settings.cooldownTime, settings.allowedFails)
    requires var tries := RouteRun(env, settings, m, deployments, pool, others, model, session).tries;
             && i < |tries| && tries[i] == Try(d, Broke) && (forall j | i < j < |tries| :: tries[j] != Try(d, Broke))
             && forall k | 0 <= k <= |tries| :: env.lookAt(k) <= env.reportAt(i) + settings.cooldownTime
    ensures var p := RouteRun(env, settings, m, deployments, pool, others, model, session);
            var h := RouteReports(env, settings, m, deployments, pool, others, model, session);
            var before := Streak(reports, d, settings.cooldownTime, settings.allowedFails);
            var times := Streak(reports + h, d, settings.cooldownTime, settings.allowedFails);
            && p.memory.cool == After(reports + h, settings.cooldownTime, settings.allowedFails)
            && times != [] && times[|times| - 1] == env.reportAt(i)
            && (Broken(p.tries, d) == 1 && !Due(before, settings.allowedFails) ==> |times| == |before| + 1)
  {
    hide RouteRun, RouteReports, Continued, Broken, LastBroken, Streak, Due;
    RouteIsAccounted(env, settings, m, deployments, pool, others, model, session);
    RouteTells(env, settings, m, deployments, pool, others, model, session, d);
    var h := RouteReports(env, settings, m, deployments, pool, others, model, session);
    var tries := RouteRun(env, settings, m, deployments, pool, others, model, session).tries;
    LastBrokenAt(env, 0, tries, d, i);
    ContinuedJoin(NO_COOLDOWNS, reports, h, settings.cooldownTime, settings.allowedFails);
    LastFailureEndsStreak(reports, h, d, env.reportAt(i), settings.cooldownTime, settings.allowedFails);
    var before := Streak(reports, d, settings.cooldownTime, settings.allowedFails);
    if Broken(tries, d) == 1 && !Due(before, settings.allowedFails) {
      StreakGrows(reports, h, d, env.reportAt(i), settings.cooldownTime, settings.allowedFails);
    }
  }

  /**
   * A deployment whose failures reach the allowed number with a broken try is no candidate of any
   * pass up to one period after that try, and from then on, like one with fewer failures, it is a
   * candidate unless something else bars it. A single broken try adds one to the failures of a
   * deployment that has no cooldown. No look may come so late that the period is over.
   */
  lemma RoutingCools(env: Env, settings: Settings, m: Memory, deployments: map<string, seq<Deployment>>,
                     pool: Option<Pool>, others: seq<Pool>, model: string, session: Option<string>,
                     reports: seq<Report>, d: Deployment, i: nat, later: Env, p: Pool, n: nat)
    requires m.cool == After(reports, settings.cooldownTime, settings.allowedFails)
    requires var tries := RouteRun(env, settings, m, deployments, pool, others, model, session).tries;
             && i < |tries| && tries[i] == Try(d, Broke) && (forall j | i < j < |tries| :: tries[j] != Try(d, Broke))
             && forall k | 0 <= k <= |tries| :: env.lookAt(k) <= env.reportAt(i) + settings.cooldownTime
    ensures var done := RouteRun(env, settings, m, deployments, pool, others, model, session);
            var barred := FailuresOf(done.memory.cool, d) >= settings.allowedFails &&
                          later.lookAt(n) <= env.reportAt(i) + settings.cooldownTime;
            && (Candidate(later, done.memory, p, n, d) <==>
                  && !barred && d in p.members && later.eligible(d)
                  && !BackingOff(done.memory.back, d.Key(), later.lookAt(n)))
            && (Broken(done.tries, d) == 1 && d !in m.cool.until ==>
                  FailuresOf(done.memory.cool, d) == FailuresOf(m.cool, d) + 1)
  {
    hide RouteRun, RouteReports, Continued, Broken, Streak;
    RunStreak(env, settings, m, deployments, pool, others, model, session, reports, d, i);
    var h := RouteReports(env, settings, m, deployments, pool, others, model, session);
    CoolingIff(reports + h, settings.cooldownTime, settings.allowedFails, d, later.lookAt(n));
    CooldownIff(reports + h, settings.cooldownTime, settings.allowedFails, d);
    CooldownIff(reports, settings.cooldownTime, settings.allowedFails, d);
  }
}

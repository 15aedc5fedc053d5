/**
 * The router object: its loops, proved to compute the runs that `Routing` defines.
 */
module Router {
  import opened Deployments
  import opened Health
  import opened Routing

  lemma CheckedElsewhere(c: Cooldowns, d: Deployment, e: Deployment, now: int)
    ensures Cooling(Checked(c, e, now), d, now) == Cooling(c, d, now)
  {
  }

  lemma {:induction false} LookingKeepsCooling(c: Cooldowns, ds: seq<Deployment>, skip: set<Deployment>,
                                               d: Deployment, now: int)
    ensures Cooling(Looked(c, ds, skip, now), d, now) == Cooling(c, d, now)
  {
    if ds != [] {
      LookingKeepsCooling(c, ds[..|ds| - 1], skip, d, now);
      CheckedElsewhere(Looked(c, ds[..|ds| - 1], skip, now), d, ds[|ds| - 1], now);
    }
  }

  lemma TakeNext(ds: seq<Deployment>, i: nat)
    requires i < |ds|
    ensures ds[..i + 1][..i] == ds[..i] && ds[..i + 1][i] == ds[i]
  {
  }

  method RemoveDeployment(ds: seq<Deployment>, target: Deployment) returns (rest: seq<Deployment>)
    ensures rest == Remove(ds, target)
  {
    rest := [];
    for i := 0 to |ds|
      invariant rest == Remove(ds[..i], target)
    {
      TakeNext(ds, i);
      if ds[i] != target {
        rest := rest + [ds[i]];
      }
    }
    assert ds[..|ds|] == ds;
  }

  method FindDeploymentByKey(ds: seq<Deployment>, key: DeploymentKey) returns (d: Option<Deployment>)
    ensures d == WithKey(ds, key)
  {
    for i := 0 to |ds|
      invariant WithKey(ds, key) == WithKey(ds[i..], key)
    {
      assert ds[i..][0] == ds[i] && ds[i..][1..] == ds[i + 1..];
      if ds[i].Key() == key {
        return Some(ds[i]);
      }
    }
    d := None;
  }

  lemma StepTries(env: Env, healthy: seq<Deployment>, n: nat)
    requires healthy != []
    ensures var d := Choice(env, n, healthy); var v := VerdictOf(env, n, d);
            Tries(env, healthy, n) == [Try(d, v)] + if Retried(v) then Tries(env, Remove(healthy, d), n + 1) else []
  {
  }

  /** The result so far, with one more try. */
  function Recorded(r: RouteResult, t: Try): RouteResult
  {
    var r1 := r.(tried := r.tried + [t.d]);
    match t.verdict
    case Served => r1.(used := Some(t.d))
    case Cancelled => r1.(error := Some(CallerGone))
    case Refused => r1.(error := Some(Upstream(Refused)))
    case v => r1.(reasons := r1.reasons + [ReasonOf(v)])
  }

  function RecordedAll(r: RouteResult, tries: seq<Try>): RouteResult
  {
    if tries == [] then r else Recorded(RecordedAll(r, tries[..|tries| - 1]), tries[|tries| - 1])
  }

  lemma NextTry(m: Memory, settings: Settings, env: Env, n: nat, r: RouteResult, tries: seq<Try>, t: Try)
    ensures AllReported(m, settings, env, n, tries + [t]) ==
            Reported(AllReported(m, settings, env, n, tries), settings, env, n + |tries|, t)
    ensures RecordedAll(r, tries + [t]) == Recorded(RecordedAll(r, tries), t)
  {
    hide Reported, Recorded;
    assert (tries + [t])[..|tries|] == tries;
  }

  ghost predicate AllRetried(tries: seq<Try>)
  {
    forall t | t in tries :: Retried(t.verdict)
  }

  lemma TriedSnoc(tries: seq<Try>)
    requires tries != []
    ensures var front, last := tries[..|tries| - 1], tries[|tries| - 1];
            && Tried(tries) == Tried(front) + [last.d]
            && Reasons(tries) == Reasons(front) + if Retried(last.verdict) then [ReasonOf(last.verdict)] else []
  {
  }

  lemma {:induction false} FailuresRecorded(r: RouteResult, tries: seq<Try>)
    requires AllRetried(tries)
    ensures RecordedAll(r, tries) == r.(tried := r.tried + Tried(tries), reasons := r.reasons + Reasons(tries))
  {
    if tries != [] {
      hide Tried, Reasons;
      var front, last := tries[..|tries| - 1], tries[|tries| - 1];
      assert last in tries && forall t | t in front :: t in tries;
      FailuresRecorded(r, front);
      TriedSnoc(tries);
      assert r.tried + Tried(tries) == (r.tried + Tried(front)) + [last.d];
      assert r.reasons + Reasons(tries) == (r.reasons + Reasons(front)) + [ReasonOf(last.verdict)];
    } else {
      assert r.tried + Tried(tries) == r.tried && r.reasons + Reasons(tries) == r.reasons;
    }
  }

  /** The accumulated result says what the tries say. */
  lemma RecordsAgree(r: RouteResult, tries: seq<Try>)
    requires tries != [] && AllRetried(tries[..|tries| - 1])
    ensures var done := RecordedAll(r, tries); var last := tries[|tries| - 1];
            && done.tried == r.tried + Tried(tries) && done.pool == r.pool
            && done.reasons == r.reasons + Reasons(tries)
            && done.used == (if last.verdict.Served? then Some(last.d) else r.used)
            && done.error == (if last.verdict.Cancelled? then Some(CallerGone)
                              else if last.verdict.Refused? then Some(Upstream(Refused)) else r.error)
  {
    hide Tried, Reasons;
    var front, last := tries[..|tries| - 1], tries[|tries| - 1];
    FailuresRecorded(r, front);
    TriedSnoc(tries);
    assert r.tried + Tried(tries) == (r.tried + Tried(front)) + [last.d];
    assert Retried(last.verdict) ==>
        r.reasons + Reasons(tries) == (r.reasons + Reasons(front)) + [ReasonOf(last.verdict)];
    assert !Retried(last.verdict) ==> r.reasons + Reasons(tries) == r.reasons + Reasons(front);
  }

  // ---------- Joining runs ----------

  lemma {:induction false} ReportJoin(m: Memory, settings: Settings, env: Env, n: nat, front: seq<Try>, back: seq<Try>)
    ensures AllReported(m, settings, env, n, front + back) ==
            AllReported(AllReported(m, settings, env, n, front), settings, env, n + |front|, back)
  {
    hide Reported;
    if back == [] {
      assert front + back == front;
    } else {
      var most, last := back[..|back| - 1], back[|back| - 1];
      assert (front + back)[..|front + back| - 1] == front + most;
      ReportJoin(m, settings, env, n, front, most);
    }
  }

  lemma {:induction false} RecordJoin(r: RouteResult, front: seq<Try>, back: seq<Try>)
    ensures RecordedAll(r, front + back) == RecordedAll(RecordedAll(r, front), back)
  {
    hide Recorded;
    if back == [] {
      assert front + back == front;
    } else {
      var most, last := back[..|back| - 1], back[|back| - 1];
      assert (front + back)[..|front + back| - 1] == front + most;
      RecordJoin(r, front, most);
    }
  }

  lemma OneTry(m: Memory, settings: Settings, env: Env, n: nat, r: RouteResult, t: Try)
    ensures AllReported(m, settings, env, n, [t]) == Reported(m, settings, env, n, t)
    ensures RecordedAll(r, [t]) == Recorded(r, t)
  {
    hide Reported, Recorded;
    assert [t][..0] == [];
  }

  /** Only the last try of a pass is not followed by another. */
  lemma {:induction false} FrontIsRetried(env: Env, healthy: seq<Deployment>, n: nat)
    ensures var tries := Tries(env, healthy, n); tries != [] ==> AllRetried(tries[..|tries| - 1])
    decreases |healthy|
  {
    if healthy != [] {
      var d := Choice(env, n, healthy);
      var v := VerdictOf(env, n, d);
      if Retried(v) {
        FrontIsRetried(env, Remove(healthy, d), n + 1);
        RetriedFirst(Try(d, v), Tries(env, Remove(healthy, d), n + 1));
      } else {
        assert [Try(d, v)] + [] == [Try(d, v)];
      }
    }
  }

  lemma RetriedFirst(t: Try, rest: seq<Try>)
    requires Retried(t.verdict) && (rest != [] ==> AllRetried(rest[..|rest| - 1]))
    ensures AllRetried(([t] + rest)[..|rest|])
  {
    if rest != [] {
      assert ([t] + rest)[..|rest|] == [t] + rest[..|rest| - 1];
    } else {
      assert ([t] + rest)[..|rest|] == [];
    }
  }

  lemma PassFrontIsRetried(env: Env, healthy: seq<Deployment>, bound: Option<Deployment>, n: nat)
    ensures var tries := PassTries(env, healthy, bound, n); tries != [] ==> AllRetried(tries[..|tries| - 1])
  {
    hide Tries, Remove;
    match bound
    case None => FrontIsRetried(env, healthy, n);
    case Some(d) =>
      var v := VerdictOf(env, n, d);
      if Retried(v) {
        FrontIsRetried(env, Remove(healthy, d), n + 1);
        RetriedFirst(Try(d, v), Tries(env, Remove(healthy, d), n + 1));
      } else {
        assert [Try(d, v)] + [] == [Try(d, v)];
      }
  }

  /** A fresh result after recording the tries of a pass is its conclusion. */
  lemma Concludes(r: RouteResult, tries: seq<Try>, otherwise: Error)
    requires r.used.None? && r.error.None? && r.tried == []
    requires tries != [] ==> AllRetried(tries[..|tries| - 1])
    ensures var done := RecordedAll(r, tries); var (used, error) := Concluded(tries, otherwise);
            && done.tried == Tried(tries) && done.reasons == r.reasons + Reasons(tries) && done.pool == r.pool
            && used == done.used && (used.Some? ==> tries != [])
            && error == (if done.used.Some? || done.error.Some? then done.error
                         else if tries == [] then Some(otherwise)
                         else Some(Upstream(tries[|tries| - 1].verdict)))
  {
    hide Tried, Reasons, RecordedAll;
    if tries == [] {
      NothingRecorded(r);
    } else {
      RecordsAgree(r, tries);
      assert r.tried + Tried(tries) == Tried(tries);
    }
  }

  lemma NothingRecorded(r: RouteResult)
    ensures RecordedAll(r, []) == r && Tried([]) == [] && r.reasons + Reasons([]) == r.reasons
  {
  }

  class Router {
    const cooldown: CooldownManager
    const backoff: BackoffManager
    const sticky: StickySessionManager
    const numRetries: int
    var deployments: map<string, seq<Deployment>>
    var pools: map<string, Pool>
    var modelToPool: map<string, Pool>

    constructor (settings: Settings, deployments: map<string, seq<Deployment>>, pools: map<string, Pool>,
                 modelToPool: map<string, Pool>)
      ensures fresh(cooldown) && fresh(backoff) && fresh(sticky)
      ensures this.deployments == deployments && this.pools == pools && this.modelToPool == modelToPool
      ensures Configured() == settings
      ensures Now() == Memory(NO_COOLDOWNS, map[], map[])
    {
      cooldown := new CooldownManager(settings.cooldownTime, settings.allowedFails);
      backoff := new BackoffManager();
      sticky := new StickySessionManager();
      numRetries := settings.numRetries;
      this.deployments, this.pools, this.modelToPool := deployments, pools, modelToPool;
    }

    ghost function Now(): Memory
      reads cooldown, backoff, sticky
    {
      Memory(cooldown.State(), backoff.state, sticky.sessions)
    }

    function Configured(): Settings
      reads this
    {
      Settings(cooldown.cooldownTime, cooldown.allowedFails, numRetries)
    }

    /** The members that can be tried now. */
    method HealthyMembers(env: Env, ds: seq<Deployment>, skip: set<Deployment>, now: int, lookAtAll: bool)
      returns (healthy: seq<Deployment>)
      modifies cooldown
      ensures healthy == Healthy(old(Now()), ds, skip, now)
      ensures Now() == old(Now()).(cool := Looked(old(Now()).cool, ds, if lookAtAll then {} else skip, now))
    {
      hide Cooling, Checked;
      healthy := [];
      ghost var passed := if lookAtAll then {} else skip;
      for i := 0 to |ds|
        invariant healthy == Healthy(old(Now()), ds[..i], skip, now)
        invariant Now() == old(Now()).(cool := Looked(old(Now()).cool, ds[..i], passed, now))
      {
        TakeNext(ds, i);
        LookingKeepsCooling(old(Now()).cool, ds[..i], passed, ds[i], now);
        if lookAtAll || ds[i] !in skip {
          var cooling := cooldown.InCooldown(ds[i], now);
          if !cooling {
            var waiting := backoff.InBackoff(ds[i].Key(), now);
            if !waiting && ds[i] !in skip {
              healthy := healthy + [ds[i]];
            }
          }
        }
      }
      assert ds[..|ds|] == ds;
    }

    /** One call of one deployment, with what is reported about it. */
    method Attempt(env: Env, n: nat, d: Deployment) returns (v: Verdict)
      modifies cooldown, backoff
      ensures v == VerdictOf(env, n, d)
      ensures Now() == Reported(old(Now()), Configured(), env, n, Try(d, v))
    {
      if env.cancelled(n) {
        return Cancelled;
      }
      v := env.reply(n, d);
      if v.Served? || v.Refused? {
        return;
      }
      if v.Limited? {
        if !v.local {
          backoff.ReportRateLimit(d.Key(), v.retryAfter, env.reportAt(n), env.draw(n));
        }
      } else {
        cooldown.ReportFailure(d, env.reportAt(n));
      }
    }

    method NoDeployment(ds: seq<Deployment>, now: int) returns (e: Error)
      ensures e == Unavailable(backoff.state, ds, now)
    {
      var retry := 0;
      for i := 0 to |ds|
        invariant retry == ShortestWait(backoff.state, ds[..i], now)
      {
        TakeNext(ds, i);
        var wait := backoff.RetryAfter(ds[i].Key(), now);
        if wait > 0 && (retry == 0 || wait < retry) {
          retry := wait;
        }
      }
      assert ds[..|ds|] == ds;
      e := if retry > 0 then AllLimited(retry) else NoneAvailable;
    }

    /** The loop of a pass: choose, try, report, remove, until a try is not to be retried. */
    method TryAll(env: Env, start: seq<Deployment>, n: nat, before: RouteResult)
      returns (result: RouteResult, tries: seq<Try>)
      modifies cooldown, backoff
      ensures tries == Tries(env, start, n)
      ensures Now() == AllReported(old(Now()), Configured(), env, n, tries)
      ensures result == RecordedAll(before, tries)
    {
      hide Tries, AllReported, Reported, Remove, Choice, Recorded, RecordedAll;
      var healthy := start;
      result, tries := before, [];
      NothingTried(Now(), Configured(), env, n, before);
      while healthy != []
        invariant Tries(env, start, n) == tries + Tries(env, healthy, n + |tries|)
        invariant Now() == AllReported(old(Now()), Configured(), env, n, tries)
        invariant result == RecordedAll(before, tries)
        decreases |healthy|
      {
        var k := n + |tries|;
        var d := Choice(env, k, healthy);
        StepTries(env, healthy, k);
        var v := Attempt(env, k, d);
        NextTry(old(Now()), Configured(), env, n, before, tries, Try(d, v));
        result := Recorded(result, Try(d, v));
        tries := tries + [Try(d, v)];
        if !Retried(v) {
          return;
        }
        healthy := RemoveDeployment(healthy, d);
      }
      NoTries(env, n + |tries|);
    }

    /** One pass over a pool. */
    method RoutePool(env: Env, pool: Pool, session: Option<string>, n: nat, reasons: seq<Reason>)
      returns (result: RouteResult, tries: seq<Try>)
      modifies cooldown, backoff, sticky
      ensures Done(result, Now(), tries) == PoolRun(env, Configured(), old(Now()), pool, session, n, reasons)
    {
      hide Tries, AllReported, Reported, Remove, Recorded, RecordedAll, Healthy, Looked, Tried, Reasons, WithKey;
      hide Concluded, Unavailable, AllRetried, Lookup, LookedUp, Bound, VerdictOf, PassTries;
      result, tries := RouteResult(None, [], reasons, None, pool.name), [];
      if !env.budgetBefore(pool.name, n) {
        result := result.(reasons := reasons + [BecauseBudget], error := Some(PoolBudget(pool.name)));
        return;
      }
      var now := env.lookAt(n);
      var skip := Ineligible(env, pool.members);
      var healthy := HealthyMembers(env, pool.members, skip, now, false);
      var bound := None;
      if session.Some? {
        var key := sticky.Get(session.value, pool.name, now);
        if key.Some? {
          bound := FindDeploymentByKey(healthy, key.value);
        }
      }
      ghost var m2 := Now();
      ghost var blank := result;
      ghost var all := PassTries(env, healthy, bound, n);
      PassFrontIsRetried(env, healthy, bound, n);
      result, tries := TryPass(env, healthy, bound, n, result);
      Concludes(blank, tries, Unavailable(old(Now()).back, pool.members, now));
      if result.used.Some? {
        if session.Some? && !(bound.Some? && |tries| == 1) {
          sticky.Set(session.value, pool.name, result.used.value.Key(), env.reportAt(n + |tries| - 1));
        }
        return;
      }
      if result.error.None? {
        if tries == [] {
          NothingTried(m2, Configured(), env, n, blank);
          var e := NoDeployment(pool.members, now);
          result := result.(error := Some(e));
        } else {
          result := result.(error := Some(Upstream(tries[|tries| - 1].verdict)));
        }
      }
    }

    /** The session's deployment first, if it is there, and then whatever the strategy chooses. */
    method TryPass(env: Env, start: seq<Deployment>, bound: Option<Deployment>, n: nat, before: RouteResult)
      returns (result: RouteResult, tries: seq<Try>)
      modifies cooldown, backoff
      ensures tries == PassTries(env, start, bound, n)
      ensures Now() == AllReported(old(Now()), Configured(), env, n, tries)
      ensures result == RecordedAll(before, tries)
    {
      hide Tries, AllReported, Reported, Remove, Recorded, RecordedAll;
      if bound.None? {
        result, tries := TryAll(env, start, n, before);
        return;
      }
      var d := bound.value;
      var v := Attempt(env, n, d);
      ghost var t := Try(d, v);
      OneTry(old(Now()), Configured(), env, n, before, t);
      result, tries := Recorded(before, Try(d, v)), [Try(d, v)];
      if !Retried(v) {
        return;
      }
      var healthy := RemoveDeployment(start, d);
      var rest;
      result, rest := TryAll(env, healthy, n + 1, result);
      ReportJoin(old(Now()), Configured(), env, n, tries, rest);
      RecordJoin(before, tries, rest);
      tries := tries + rest;
    }

    /** The strategy's choice among the deployments that are healthy and have not been tried. */
    method GetDeploymentWithRetry(env: Env, ds: seq<Deployment>, tried: set<Deployment>, n: nat)
      returns (d: Option<Deployment>)
      modifies cooldown
      ensures Now() == old(Now()).(cool := Looked(old(Now()).cool, ds, {}, env.lookAt(n)))
      ensures var healthy := Healthy(old(Now()), ds, tried, env.lookAt(n));
              d == if healthy == [] then None else Some(Choice(env, n, healthy))
    {
      var healthy := HealthyMembers(env, ds, tried, env.lookAt(n), true);
      if healthy == [] {
        return None;
      }
      d := Some(Choice(env, n, healthy));
    }

    method NothingToTry(env: Env, model: string) returns (result: RouteResult)
      ensures result == NO_RESULT.(error := if model !in deployments then Some(UnknownModel)
                                            else Some(Unavailable(backoff.state, deployments[model], env.lookAt(0))))
    {
      if model !in deployments {
        result := NO_RESULT.(error := Some(UnknownModel));
      } else {
        var e := NoDeployment(deployments[model], env.lookAt(0));
        result := NO_RESULT.(error := Some(e));
      }
    }

    /** The retry loop of the path without pools. */
    method TryLegacy(env: Env, ds: seq<Deployment>, skip: set<Deployment>)
      returns (result: RouteResult, tries: seq<Try>)
      modifies cooldown, backoff
      ensures (Now(), tries) == LegacyRun(env, Configured(), old(Now()), ds, skip, 0, numRetries + 1)
      ensures result == RecordedAll(NO_RESULT, tries)
      ensures tries != [] ==> AllRetried(tries[..|tries| - 1])
    {
      hide Healthy, Looked, Reported, Recorded, RecordedAll, LegacyRun, Choice, Continues, AllRetried, VerdictOf;
      ghost var settings, m0 := Configured(), Now();
      ghost var whole := LegacyRun(env, settings, m0, ds, skip, 0, numRetries + 1);
      var tried := skip;
      result, tries := NO_RESULT, [];
      NothingRecorded(NO_RESULT);
      NothingRetried();
      Starts(whole);
      var attempt := 0;
      while attempt <= numRetries
        invariant attempt == |tries| && 0 <= attempt && (attempt == 0 || attempt <= numRetries + 1)
        invariant Continues(whole, tries, LegacyRun(env, settings, Now(), ds, tried, attempt, numRetries + 1 - attempt))
        invariant result == RecordedAll(NO_RESULT, tries) && AllRetried(tries)
        decreases numRetries + 1 - attempt
      {
        LegacyStep(env, settings, Now(), ds, tried, attempt, numRetries + 1 - attempt);
        ghost var m := Now();
        var d := GetDeploymentWithRetry(env, ds, tried, attempt);
        FrontOfRetried(tries);
        if d.None? {
          Comes(whole, tries, Now());
          return;
        }
        tried := tried + {d.value};
        var v := Attempt(env, attempt, d.value);
        var t := Try(d.value, v);
        NextTry(m0, settings, env, 0, NO_RESULT, tries, t);
        RetriedSnoc(tries, t);
        ghost var before := tries;
        result := Recorded(result, t);
        tries := tries + [t];
        if !Retried(v) {
          NotReported(m, settings, env, attempt, t);
          LegacyEnd(whole, before, t, (Now(), []));
          return;
        }
        LegacyGoes(whole, before, t, LegacyRun(env, settings, Now(), ds, tried, attempt + 1, numRetries - attempt));
        attempt := attempt + 1;
      }
      FrontOfRetried(tries);
      LegacyStop(env, settings, Now(), ds, tried, attempt, numRetries + 1 - attempt);
      Comes(whole, tries, Now());
    }

    method RouteLegacy(env: Env, model: string) returns (result: RouteResult, tries: seq<Try>)
      modifies cooldown, backoff
      ensures Done(result, Now(), tries) == LegacyPath(env, Configured(), old(Now()), deployments, model)
    {
      hide LegacyRun, LegacyResult, Unavailable, RecordedAll, AllRetried;
      var ds := Listed(deployments, model);
      var skip := Ineligible(env, ds);
      result, tries := TryLegacy(env, ds, skip);
      NoneTried(env, Configured(), old(Now()), deployments, model);
      LegacyConcludes(env, Configured(), old(Now()), deployments, model, tries);
      NothingReported(env, Configured(), old(Now()), ds, skip, 0, numRetries + 1);
      if tries == [] {
        if numRetries >= 0 {
          result := NothingToTry(env, model);
        }
      } else if Retried(tries[|tries| - 1].verdict) {
        result := result.(error := Some(Upstream(tries[|tries| - 1].verdict)));
      }
    }

    /** The other pools that serve the model, in some order. */
    method OtherServing(pool: Pool, model: string) returns (others: seq<Pool>, ghost names: seq<string>)
      ensures forall p | p in others :: p != pool && exists d | d in p.members :: d.modelName == model
      ensures forall name | name in pools && pools[name] != pool ::
                (exists d | d in pools[name].members :: d.modelName == model) ==> pools[name] in others
      ensures Alternatives(pools, pool, model, names, others)
    {
      others, names := [], [];
      var left := pools.Keys;
      while left != {}
        invariant left <= pools.Keys
        invariant Listing(pools, names, others)
        invariant forall name ::
                    name in names <==> name in pools && name !in left && Alternative(pools[name], pool, model)
        decreases |left|
      {
        var name :| name in left;
        left := left - {name};
        var p := pools[name];
        if p != pool && Serves(p, model) {
          others := others + [p];
          names := names + [name];
        }
      }
      forall p | p in others ensures p != pool && exists d | d in p.members :: d.modelName == model {
        var i :| 0 <= i < |others| && others[i] == p;
        assert names[i] in names && Alternative(p, pool, model);
      }
      forall name | name in pools && Alternative(pools[name], pool, model) ensures pools[name] in others {
        assert name in names;
        var i :| 0 <= i < |names| && names[i] == name;
        assert others[i] == pools[name];
      }
    }

    method Route(env: Env, model: string, session: Option<string>)
      returns (result: RouteResult, tries: seq<Try>, ghost others: seq<Pool>, ghost names: seq<string>)
      modifies cooldown, backoff, sticky
      ensures var pool := if model in modelToPool then Some(modelToPool[model]) else None;
              && Done(result, Now(), tries) ==
                 RouteRun(env, Configured(), old(Now()), deployments, pool, others, model, session)
              && (others != [] ==> pool.Some? && Alternatives(pools, pool.value, model, names, others))
              && (pool.Some? && !env.goneAtStart ==>
                    var first := PoolRun(env, Configured(), old(Now()), pool.value, session, 0, []);
                    first.result.error.Some? &&
                    (!env.budgetAfter(pool.value.name, |first.tries|) || !HasEligible(env, pool.value)) ==>
                      Alternatives(pools, pool.value, model, names, others))
    {
      hide PoolRun, LegacyPath, OtherPools, HasEligible, Alternatives;
      result, tries, others, names := NO_RESULT, [], [], [];
      if env.goneAtStart {
        result := result.(error := Some(CallerGone));
        return;
      }
      if model !in modelToPool {
        result, tries := RouteLegacy(env, model);
        return;
      }
      var pool := modelToPool[model];
      result, tries := RoutePool(env, pool, session, 0, []);
      if result.error.None? {
        return;
      }
      if !env.budgetAfter(pool.name, |tries|) || !HasEligible(env, pool) {
        var found, listed := OtherServing(pool, model);
        others, names := found, listed;
        var served;
        served, result, tries := RouteOthers(env, found, session, result, tries);
        if served {
          return;
        }
      }
      if BecauseBudget in result.reasons {
        result := result.(error := Some(AllBudgets));
      }
    }

    /** The loop over the other pools. */
    method RouteOthers(env: Env, others: seq<Pool>, session: Option<string>, before: RouteResult, start: seq<Try>)
      returns (served: bool, result: RouteResult, tries: seq<Try>)
      requires before.error.Some?
      modifies cooldown, backoff, sticky
      ensures Done(result, Now(), tries) == OtherPools(env, Configured(), old(Now()), before, others, session, start)
      ensures served == result.error.None?
    {
      hide PoolRun;
      result, tries := before, start;
      ghost var settings, m0 := Configured(), Now();
      for i := 0 to |others|
        invariant result.error.Some?
        invariant OtherPools(env, settings, m0, before, others, session, start) ==
                  OtherPools(env, settings, Now(), result, others[i..], session, tries)
      {
        assert others[i..] != [] && others[i..][0] == others[i] && others[i..][1..] == others[i + 1..];
        var alternative, more := RoutePool(env, others[i], session, |tries|, result.reasons);
        if alternative.error.None? {
          return true, alternative, tries + more;
        }
        result := result.(reasons := alternative.reasons, error := alternative.error);
        tries := tries + more;
      }
      served := false;
    }
  }

  /** These pools, by name, each once. */
  ghost predicate Listing(pools: map<string, Pool>, names: seq<string>, listed: seq<Pool>)
  {
    && |names| == |listed|
    && (forall i | 0 <= i < |names| :: names[i] in pools && listed[i] == pools[names[i]])
    && (forall i, j | 0 <= i < j < |names| :: names[i] != names[j])
  }

  predicate Alternative(p: Pool, pool: Pool, model: string)
  {
    p != pool && Serves(p, model)
  }

  /** All other pools that serve the model, and no others, each once. */
  ghost predicate Alternatives(pools: map<string, Pool>, pool: Pool, model: string, names: seq<string>,
                               others: seq<Pool>)
  {
    && Listing(pools, names, others)
    && (forall name :: name in names <==> name in pools && Alternative(pools[name], pool, model))
  }

  /** A run of the path without pools that has come this far and goes on like that. */
  predicate Continues(whole: (Memory, seq<Try>), tries: seq<Try>, rest: (Memory, seq<Try>))
  {
    whole.0 == rest.0 && whole.1 == tries + rest.1
  }

  lemma Starts(whole: (Memory, seq<Try>))
    ensures Continues(whole, [], whole)
  {
    assert [] + whole.1 == whole.1;
  }

  lemma NoneTried(env: Env, settings: Settings, m: Memory, deployments: map<string, seq<Deployment>>, model: string)
    ensures LegacyResult(deployments, model, m, env, settings, []) ==
            NO_RESULT.(error := if settings.numRetries < 0 then None
                                else if model !in deployments then Some(UnknownModel)
                                else Some(Unavailable(m.back, deployments[model], env.lookAt(0))))
  {
  }

  lemma Comes(whole: (Memory, seq<Try>), tries: seq<Try>, m: Memory)
    ensures Continues(whole, tries, (m, [])) ==> whole == (m, tries)
  {
    assert tries + [] == tries;
  }

  /** What the path without pools returns, from the recorded tries. */
  lemma LegacyConcludes(env: Env, settings: Settings, m: Memory, deployments: map<string, seq<Deployment>>,
                        model: string, tries: seq<Try>)
    requires tries != [] ==> AllRetried(tries[..|tries| - 1])
    ensures var done := RecordedAll(NO_RESULT, tries);
            LegacyResult(deployments, model, m, env, settings, tries) ==
            if tries == [] then LegacyResult(deployments, model, m, env, settings, [])
            else if Retried(tries[|tries| - 1].verdict) then done.(error := Some(Upstream(tries[|tries| - 1].verdict)))
            else done
    ensures RecordedAll(NO_RESULT, []) == NO_RESULT
  {
    hide RecordedAll, Tried, Reasons;
    NothingRecorded(NO_RESULT);
    if tries != [] {
      Concludes(NO_RESULT, tries, NoneAvailable);
      RecordsAgree(NO_RESULT, tries);
      assert [] + Reasons(tries) == Reasons(tries);
    }
  }

  lemma LegacyStep(env: Env, settings: Settings, m: Memory, ds: seq<Deployment>, tried: set<Deployment>,
                   n: nat, left: int)
    requires left > 0
    ensures var now := env.lookAt(n); var healthy := Healthy(m, ds, tried, now);
            var m1 := m.(cool := Looked(m.cool, ds, {}, now));
            LegacyRun(env, settings, m, ds, tried, n, left) ==
            if healthy == [] then (m1, [])
            else
              var d := Choice(env, n, healthy); var v := VerdictOf(env, n, d); var t := Try(d, v);
              if !Retried(v) then (m1, [t])
              else
                var r := LegacyRun(env, settings, Reported(m1, settings, env, n, t), ds, tried + {d}, n + 1, left - 1);
                (r.0, [t] + r.1)
  {
    hide Healthy, Looked, Reported, Choice;
  }

  lemma NothingReported(env: Env, settings: Settings, m: Memory, ds: seq<Deployment>, tried: set<Deployment>,
                        n: nat, left: int)
    ensures var (after, tries) := LegacyRun(env, settings, m, ds, tried, n, left);
            tries == [] ==> after.back == m.back
  {
  }

  lemma NotReported(m: Memory, settings: Settings, env: Env, n: nat, t: Try)
    requires !Retried(t.verdict)
    ensures forall m1 :: Reported(m1, settings, env, n, t) == m1
  {
  }

  lemma LegacyEnd(whole: (Memory, seq<Try>), tries: seq<Try>, t: Try, rest: (Memory, seq<Try>))
    requires rest.1 == [] && Continues(whole, tries, (rest.0, [t]))
    ensures whole == (rest.0, tries + [t])
  {
  }

  lemma LegacyGoes(whole: (Memory, seq<Try>), tries: seq<Try>, t: Try, rest: (Memory, seq<Try>))
    requires Continues(whole, tries, (rest.0, [t] + rest.1))
    ensures Continues(whole, tries + [t], rest)
  {
    assert tries + [t] + rest.1 == tries + ([t] + rest.1);
  }

  lemma LegacyStop(env: Env, settings: Settings, m: Memory, ds: seq<Deployment>, tried: set<Deployment>,
                   n: nat, left: int)
    ensures left <= 0 ==> LegacyRun(env, settings, m, ds, tried, n, left) == (m, [])
  {
  }

  lemma NothingRetried()
    ensures AllRetried([])
  {
  }

  lemma RetriedSnoc(tries: seq<Try>, t: Try)
    ensures AllRetried(tries) && Retried(t.verdict) ==> AllRetried(tries + [t])
  {
  }

  lemma FrontOfRetried(tries: seq<Try>)
    requires AllRetried(tries)
    ensures tries != [] ==> AllRetried(tries[..|tries| - 1]) && Retried(tries[|tries| - 1].verdict)
  {
    if tries != [] {
      assert tries[|tries| - 1] in tries;
      assert forall t | t in tries[..|tries| - 1] :: t in tries;
    }
  }

  lemma NoTries(env: Env, n: nat)
    ensures Tries(env, [], n) == []
  {
  }

  lemma NothingTried(m: Memory, settings: Settings, env: Env, n: nat, r: RouteResult)
    ensures AllReported(m, settings, env, n, []) == m && RecordedAll(r, []) == r
  {
  }
}

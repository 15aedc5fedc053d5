/**
 * Retry and failover: `internal/router/route.go` and `GetDeploymentWithRetry` of
 * `internal/router/router.go`.
 *
 * What the router cannot know in advance (the callbacks' outcomes, the strategy's choices, budgets,
 * clocks, random numbers and cancellation) comes from an environment, indexed by the number of
 * deployments tried so far.
 */
module Routing {
  import opened Deployments
  import opened Health

  datatype Verdict = Cancelled | Served | Refused | Limited(local: bool, retryAfter: int) | Broke

  /** What the call of one deployment gives: a response, a 400 or 422, a rate limit, another error. */
  type Reply = v: Verdict | !v.Cancelled? witness Served

  datatype Reason = BecauseLimited | BecauseError | BecauseBudget

  datatype Error =
    | CallerGone
    | Upstream(verdict: Verdict)
    | AllLimited(retryAfter: int)
    | NoneAvailable
    | UnknownModel
    | PoolBudget(pool: string)
    | AllBudgets

  datatype Pool = Pool(name: string, members: seq<Deployment>)

  datatype RouteResult = RouteResult(
    used: Option<Deployment>, tried: seq<Deployment>, reasons: seq<Reason>, error: Option<Error>, pool: string)

  const NO_RESULT := RouteResult(None, [], [], None, "")

  datatype Env = Env(
    goneAtStart: bool,
    cancelled: nat -> bool,
    reply: (nat, Deployment) -> Reply,
    pick: (nat, seq<Deployment>) -> nat,
    lookAt: nat -> int,
    reportAt: nat -> int,
    draw: nat -> nat,
    budgetBefore: (string, nat) -> bool,
    budgetAfter: (string, nat) -> bool,
    eligible: Deployment -> bool)

  datatype Settings = Settings(cooldownTime: int, allowedFails: int, numRetries: int)

  /** Everything the router remembers. */
  datatype Memory = Memory(cool: Cooldowns, back: Backoffs, sticky: Sessions)

  datatype Try = Try(d: Deployment, verdict: Verdict)

  /** The result of a run, what it leaves in memory, and everything it tried. */
  datatype Done = Done(result: RouteResult, memory: Memory, tries: seq<Try>)

  // ---------- One try ----------

  function VerdictOf(env: Env, n: nat, d: Deployment): Verdict
  {
    if env.cancelled(n) then Cancelled else env.reply(n, d)
  }

  /** The failures after which another deployment is tried. */
  predicate Retried(v: Verdict)
  {
    v.Limited? || v.Broke?
  }

  /** A failed try is reported as a rate limit (unless it was local) or as a failure, never both. */
  function Reported(m: Memory, settings: Settings, env: Env, n: nat, t: Try): Memory
  {
    match t.verdict
    case Limited(local, retryAfter) =>
      if local then m
      else m.(back := RateLimited(m.back, t.d.Key(), retryAfter, env.reportAt(n), env.draw(n)))
    case Broke => m.(cool := Failed(m.cool, t.d, env.reportAt(n), settings.cooldownTime, settings.allowedFails))
    case _ => m
  }

  function ReasonOf(v: Verdict): Reason
  {
    if v.Limited? then BecauseLimited else BecauseError
  }

  function Tried(tries: seq<Try>): (ds: seq<Deployment>)
    ensures |ds| == |tries| && forall i | 0 <= i < |tries| :: ds[i] == tries[i].d
  {
    seq(|tries|, i requires 0 <= i < |tries| => tries[i].d)
  }

  function Reasons(tries: seq<Try>): seq<Reason>
  {
    if tries == [] then []
    else
      var last := tries[|tries| - 1].verdict;
      Reasons(tries[..|tries| - 1]) + if Retried(last) then [ReasonOf(last)] else []
  }

  function AllReported(m: Memory, settings: Settings, env: Env, n: nat, tries: seq<Try>): Memory
  {
    if tries == [] then m
    else
      var k := |tries| - 1;
      Reported(AllReported(m, settings, env, n, tries[..k]), settings, env, n + k, tries[k])
  }

  // ---------- Lists of deployments ----------

  function Remove(ds: seq<Deployment>, d: Deployment): (rest: seq<Deployment>)
    ensures |rest| <= |ds|
    ensures forall e :: e in rest <==> e in ds && e != d
    ensures d in ds ==> |rest| < |ds|
  {
    if ds == [] then []
    else
      var last := ds[|ds| - 1];
      assert ds == ds[..|ds| - 1] + [last];
      Remove(ds[..|ds| - 1], d) + if last != d then [last] else []
  }

  function Choice(env: Env, n: nat, ds: seq<Deployment>): (d: Deployment)
    requires ds != []
    ensures d in ds
  {
    ds[env.pick(n, ds) % |ds|]
  }

  predicate Ready(m: Memory, d: Deployment, now: int)
  {
    !Cooling(m.cool, d, now) && !BackingOff(m.back, d.Key(), now)
  }

  /** The listed deployments that may be tried now, in order. */
  function Healthy(m: Memory, ds: seq<Deployment>, skip: set<Deployment>, now: int): (healthy: seq<Deployment>)
    ensures forall d :: d in healthy <==> d in ds && d !in skip && Ready(m, d, now)
  {
    if ds == [] then []
    else
      var last := ds[|ds| - 1];
      assert ds == ds[..|ds| - 1] + [last];
      Healthy(m, ds[..|ds| - 1], skip, now) + if last !in skip && Ready(m, last, now) then [last] else []
  }

  /** Looking at deployments ends their expired cooldowns. */
  function Looked(c: Cooldowns, ds: seq<Deployment>, skip: set<Deployment>, now: int): Cooldowns
  {
    if ds == [] then c
    else
      var last := ds[|ds| - 1];
      var before := Looked(c, ds[..|ds| - 1], skip, now);
      if last in skip then before else Checked(before, last, now)
  }

  function Ineligible(env: Env, ds: seq<Deployment>): set<Deployment>
  {
    set d | d in ds && !env.eligible(d)
  }

  function WithKey(ds: seq<Deployment>, key: DeploymentKey): (d: Option<Deployment>)
    ensures d.Some? ==> d.value in ds && d.value.Key() == key
    ensures d.None? ==> forall e | e in ds :: e.Key() != key
  {
    if ds == [] then None
    else if ds[0].Key() == key then Some(ds[0])
    else WithKey(ds[1..], key)
  }

  /** The shortest wait of the listed deployments that are backing off; zero if none is. */
  function ShortestWait(back: Backoffs, ds: seq<Deployment>, now: int): (wait: int)
    ensures wait >= 0
  {
    if ds == [] then 0
    else
      var before := ShortestWait(back, ds[..|ds| - 1], now);
      var key := ds[|ds| - 1].Key();
      var wait := if BackingOff(back, key, now) then back[key].nextRetryAt - now else 0;
      if wait > 0 && (before == 0 || wait < before) then wait else before
  }

  function Unavailable(back: Backoffs, ds: seq<Deployment>, now: int): Error
  {
    var wait := ShortestWait(back, ds, now);
    if wait > 0 then AllLimited(wait) else NoneAvailable
  }

  // ---------- A pass over a pool ----------

  /** The tries of a pass: the strategy chooses among what is left until no retry follows. */
  function Tries(env: Env, healthy: seq<Deployment>, n: nat): seq<Try>
    decreases |healthy|
  {
    if healthy == [] then []
    else
      var d := Choice(env, n, healthy);
      var v := VerdictOf(env, n, d);
      [Try(d, v)] + if Retried(v) then Tries(env, Remove(healthy, d), n + 1) else []
  }

  /** The tries of a pass that may begin with the session's deployment. */
  function PassTries(env: Env, healthy: seq<Deployment>, bound: Option<Deployment>, n: nat): seq<Try>
  {
    match bound
    case None => Tries(env, healthy, n)
    case Some(d) =>
      var v := VerdictOf(env, n, d);
      [Try(d, v)] + if Retried(v) then Tries(env, Remove(healthy, d), n + 1) else []
  }

  function BoundDeployment(m: Memory, healthy: seq<Deployment>, session: Option<string>, pool: string, now: int)
    : Option<Deployment>
  {
    if session.None? then None
    else
      match Lookup(m.sticky, session.value, pool, now)
      case None => None
      case Some(key) => WithKey(healthy, key)
  }

  /** Used and error, from the last try. */
  function Concluded(tries: seq<Try>, otherwise: Error): (Option<Deployment>, Option<Error>)
  {
    if tries == [] then (None, Some(otherwise))
    else
      var last := tries[|tries| - 1];
      match last.verdict
      case Served => (Some(last.d), None)
      case Cancelled => (None, Some(CallerGone))
      case v => (None, Some(Upstream(v)))
  }

  /** The memory after looking for the session's deployment. */
  function Consulted(m: Memory, session: Option<string>, pool: string, now: int): Memory
  {
    if session.None? then m else m.(sticky := LookedUp(m.sticky, session.value, pool, now))
  }

  function PoolRun(env: Env, settings: Settings, m: Memory, pool: Pool, session: Option<string>, n: nat,
                   reasons: seq<Reason>): Done
  {
    if !env.budgetBefore(pool.name, n) then
      Done(RouteResult(None, [], reasons + [BecauseBudget], Some(PoolBudget(pool.name)), pool.name), m, [])
    else
      var now := env.lookAt(n);
      var skip := Ineligible(env, pool.members);
      var healthy := Healthy(m, pool.members, skip, now);
      var m1 := m.(cool := Looked(m.cool, pool.members, skip, now));
      var bound := BoundDeployment(m1, healthy, session, pool.name, now);
      var m2 := Consulted(m1, session, pool.name, now);
      var tries := PassTries(env, healthy, bound, n);
      var m3 := AllReported(m2, settings, env, n, tries);
      var (used, error) := Concluded(tries, Unavailable(m.back, pool.members, now));
      var rebind := used.Some? && session.Some? && !(bound.Some? && |tries| == 1);
      Done(RouteResult(used, Tried(tries), reasons + Reasons(tries), error, pool.name),
           if rebind then
             m3.(sticky := Bound(m3.sticky, session.value, pool.name, used.value.Key(), env.reportAt(n + |tries| - 1)))
           else m3,
           tries)
  }

  // ---------- The path without pools ----------

  function LegacyRun(env: Env, settings: Settings, m: Memory, ds: seq<Deployment>, tried: set<Deployment>,
                     n: nat, left: int): (Memory, seq<Try>)
    decreases left
  {
    if left <= 0 then (m, [])
    else
      var now := env.lookAt(n);
      var healthy := Healthy(m, ds, tried, now);
      var m1 := m.(cool := Looked(m.cool, ds, {}, now));
      if healthy == [] then (m1, [])
      else
        var d := Choice(env, n, healthy);
        var v := VerdictOf(env, n, d);
        var t := Try(d, v);
        if !Retried(v) then (m1, [t])
        else
          var (m2, rest) :=
            LegacyRun(env, settings, Reported(m1, settings, env, n, t), ds, tried + {d}, n + 1, left - 1);
          (m2, [t] + rest)
  }

  /** The error when nothing was tried; there is none if the loop never runs. */
  function LegacyResult(deployments: map<string, seq<Deployment>>, model: string, m: Memory, env: Env,
                        settings: Settings, tries: seq<Try>): RouteResult
  {
    var (used, error) :=
      if tries != [] then Concluded(tries, NoneAvailable)
      else if settings.numRetries < 0 then (None, None)
      else if model !in deployments then (None, Some(UnknownModel))
      else (None, Some(Unavailable(m.back, deployments[model], env.lookAt(0))));
    RouteResult(used, Tried(tries), Reasons(tries), error, "")
  }

  function Listed(deployments: map<string, seq<Deployment>>, model: string): seq<Deployment>
  {
    if model in deployments then deployments[model] else []
  }

  function LegacyPath(env: Env, settings: Settings, m: Memory, deployments: map<string, seq<Deployment>>,
                      model: string): Done
  {
    var ds := Listed(deployments, model);
    var (after, tries) := LegacyRun(env, settings, m, ds, Ineligible(env, ds), 0, settings.numRetries + 1);
    Done(LegacyResult(deployments, model, m, env, settings, tries), after, tries)
  }

  // ---------- All pools ----------

  predicate HasEligible(env: Env, pool: Pool)
  {
    exists d | d in pool.members :: env.eligible(d)
  }

  predicate Serves(pool: Pool, model: string)
  {
    exists d | d in pool.members :: d.modelName == model
  }

  /** The other pools in turn; a failed one leaves its reasons and its error. */
  function OtherPools(env: Env, settings: Settings, m: Memory, before: RouteResult, pools: seq<Pool>,
                      session: Option<string>, tries: seq<Try>): Done
    decreases |pools|
  {
    if pools == [] then Done(before, m, tries)
    else
      var p := PoolRun(env, settings, m, pools[0], session, |tries|, before.reasons);
      if p.result.error.None? then Done(p.result, p.memory, tries + p.tries)
      else
        OtherPools(env, settings, p.memory, before.(reasons := p.result.reasons, error := p.result.error),
                   pools[1..], session, tries + p.tries)
  }

  /** A failure that involved an exhausted budget is reported as that. */
  function Final(r: RouteResult): RouteResult
  {
    if r.error.Some? && BecauseBudget in r.reasons then r.(error := Some(AllBudgets)) else r
  }

  function PooledRun(env: Env, settings: Settings, m: Memory, pool: Pool, others: seq<Pool>, session: Option<string>)
    : Done
  {
    var p := PoolRun(env, settings, m, pool, session, 0, []);
    if p.result.error.None? then p
    else if !env.budgetAfter(pool.name, |p.tries|) || !HasEligible(env, pool) then
      var all := OtherPools(env, settings, p.memory, p.result, others, session, p.tries);
      all.(result := Final(all.result))
    else p.(result := Final(p.result))
  }

  function RouteRun(env: Env, settings: Settings, m: Memory, deployments: map<string, seq<Deployment>>,
                    pool: Option<Pool>, others: seq<Pool>, model: string, session: Option<string>): Done
  {
    if env.goneAtStart then Done(NO_RESULT.(error := Some(CallerGone)), m, [])
    else
      match pool
      case None => LegacyPath(env, settings, m, deployments, model)
      case Some(p) => PooledRun(env, settings, m, p, others, session)
  }
}

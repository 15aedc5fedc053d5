/**
 * What the router remembers about deployments between requests: `internal/router/cooldown.go`,
 * `internal/router/backoff.go` and `internal/router/sticky.go`. Times are in nanoseconds.
 */
module Health {
  import opened Deployments

  const SECOND := 1_000_000_000

  // ---------- Cooldown ----------

  datatype Cooldowns = Cooldowns(failures: map<Deployment, int>, until: map<Deployment, int>)

  const NO_COOLDOWNS := Cooldowns(map[], map[])

  function FailuresOf(c: Cooldowns, d: Deployment): int
  {
    if d in c.failures then c.failures[d] else 0
  }

  predicate Cooling(c: Cooldowns, d: Deployment, now: int)
  {
    d in c.until && now <= c.until[d]
  }

  /** A look at an expired cooldown ends it and forgets the failures. */
  function Checked(c: Cooldowns, d: Deployment, now: int): Cooldowns
  {
    if d in c.until && now > c.until[d] then Cooldowns(c.failures[d := 0], c.until - {d}) else c
  }

  function Succeeded(c: Cooldowns, d: Deployment): Cooldowns
  {
    Cooldowns(c.failures[d := 0], c.until - {d})
  }

  function Failed(c: Cooldowns, d: Deployment, now: int, period: int, allowed: int): Cooldowns
  {
    var n := FailuresOf(c, d) + 1;
    Cooldowns(c.failures[d := n], if n >= allowed then c.until[d := now + period] else c.until)
  }

  class CooldownManager {
    var failures: map<Deployment, int>
    var cooldowns: map<Deployment, int>
    const cooldownTime: int
    const allowedFails: int

    ghost function State(): Cooldowns
      reads this
    {
      Cooldowns(failures, cooldowns)
    }

    constructor (cooldownTime: int, allowedFails: int)
      ensures State() == NO_COOLDOWNS
      ensures this.cooldownTime == cooldownTime && this.allowedFails == allowedFails
    {
      failures, cooldowns := map[], map[];
      this.cooldownTime, this.allowedFails := cooldownTime, allowedFails;
    }

    method InCooldown(d: Deployment, now: int) returns (cooling: bool)
      modifies this
      ensures cooling == Cooling(old(State()), d, now)
      ensures State() == Checked(old(State()), d, now)
    {
      if d !in cooldowns {
        return false;
      }
      if now > cooldowns[d] {
        cooldowns := cooldowns - {d};
        failures := failures[d := 0];
        return false;
      }
      return true;
    }

    method ReportSuccess(d: Deployment)
      modifies this
      ensures State() == Succeeded(old(State()), d)
    {
      failures := failures[d := 0];
      cooldowns := cooldowns - {d};
    }

    method ReportFailure(d: Deployment, now: int)
      modifies this
      ensures State() == Failed(old(State()), d, now, cooldownTime, allowedFails)
    {
      failures := failures[d := (if d in failures then failures[d] else 0) + 1];
      if failures[d] >= allowedFails {
        cooldowns := cooldowns[d := now + cooldownTime];
      }
    }
  }

  datatype Report = Failure(d: Deployment, at: int) | Success(d: Deployment) | Look(d: Deployment, at: int)

  /** What further reports make of the records. */
  function Continued(c: Cooldowns, reports: seq<Report>, period: int, allowed: int): Cooldowns
  {
    if reports == [] then c
    else
      var before := Continued(c, reports[..|reports| - 1], period, allowed);
      match reports[|reports| - 1]
      case Failure(d, at) => Failed(before, d, at, period, allowed)
      case Success(d) => Succeeded(before, d)
      case Look(d, at) => Checked(before, d, at)
  }

  /** The records after a whole history of reports. */
  function After(reports: seq<Report>, period: int, allowed: int): Cooldowns
  {
    Continued(NO_COOLDOWNS, reports, period, allowed)
  }

  lemma {:induction false} ContinuedJoin(c: Cooldowns, front: seq<Report>, back: seq<Report>, period: int, allowed: int)
    ensures Continued(c, front + back, period, allowed) ==
            Continued(Continued(c, front, period, allowed), back, period, allowed)
  {
    hide Failed, Succeeded, Checked;
    if back == [] {
      assert front + back == front;
    } else {
      var most := back[..|back| - 1];
      assert (front + back)[..|front + back| - 1] == front + most;
      ContinuedJoin(c, front, most, period, allowed);
    }
  }

  /** The failures of a deployment since its last success. */
  function FailuresSinceSuccess(reports: seq<Report>, d: Deployment): nat
  {
    if reports == [] then 0
    else
      var n := FailuresSinceSuccess(reports[..|reports| - 1], d);
      match reports[|reports| - 1]
      case Failure(e, _) => if e == d then n + 1 else n
      case Success(e) => if e == d then 0 else n
      case Look(_, _) => n
  }

  /** The last failure of a deployment. */
  function LastFailure(reports: seq<Report>, d: Deployment): Option<int>
  {
    if reports == [] then None
    else
      var last := reports[|reports| - 1];
      if last.Failure? && last.d == d then Some(last.at) else LastFailure(reports[..|reports| - 1], d)
  }

  predicate HasNoSuccess(reports: seq<Report>)
  {
    forall r | r in reports :: !r.Success?
  }

  function FailureCount(reports: seq<Report>, d: Deployment): nat
  {
    if reports == [] then 0
    else
      var last := reports[|reports| - 1];
      FailureCount(reports[..|reports| - 1], d) + if last.Failure? && last.d == d then 1 else 0
  }

  lemma {:induction false} FailuresJoin(front: seq<Report>, back: seq<Report>, d: Deployment)
    ensures FailureCount(front + back, d) == FailureCount(front, d) + FailureCount(back, d)
    ensures HasNoSuccess(back) ==>
              FailuresSinceSuccess(front + back, d) == FailuresSinceSuccess(front, d) + FailureCount(back, d)
  {
    if back == [] {
      assert front + back == front;
    } else {
      var most, last := back[..|back| - 1], back[|back| - 1];
      assert (front + back)[..|front + back| - 1] == front + most;
      assert back == most + [last] && last in back;
      FailuresJoin(front, most, d);
    }
  }

  /**
   * After any history, a deployment with a cooldown has failed at least once, and at least as often
   * as allowed, since its last success.
   */
  lemma {:induction false} CooldownNeedsFailures(reports: seq<Report>, period: int, allowed: int, d: Deployment)
    ensures 0 <= FailuresOf(After(reports, period, allowed), d) <= FailuresSinceSuccess(reports, d)
    ensures d in After(reports, period, allowed).until ==>
              && FailuresOf(After(reports, period, allowed), d) >= allowed
              && FailuresSinceSuccess(reports, d) >= allowed
              && FailuresSinceSuccess(reports, d) >= 1
  {
    if reports != [] {
      var front := reports[..|reports| - 1];
      CooldownNeedsFailures(front, period, allowed, d);
    }
  }

  // ---------- Exactly when a cooldown runs ----------

  /** These failures, the last at the last place, bar a deployment, and for how long. */
  predicate Due(times: seq<int>, allowed: int)
  {
    times != [] && |times| >= allowed
  }

  function EndOf(times: seq<int>, period: int): int
    requires times != []
  {
    times[|times| - 1] + period
  }

  /**
   * The times of a deployment's failures since its last success, or since a look that found a due
   * cooldown over.
   */
  function Streak(reports: seq<Report>, d: Deployment, period: int, allowed: int): seq<int>
  {
    if reports == [] then []
    else
      var before := Streak(reports[..|reports| - 1], d, period, allowed);
      var last := reports[|reports| - 1];
      if last.d != d then before
      else
        match last
        case Failure(_, at) => before + [at]
        case Success(_) => []
        case Look(_, at) => if Due(before, allowed) && EndOf(before, period) < at then [] else before
  }

  /**
   * After any history, a deployment has a cooldown exactly when its failures since its last success
   * or expired look are as many as allowed and at least one, and it ends one period after the last
   * of them.
   */
  lemma {:induction false} CooldownIff(reports: seq<Report>, period: int, allowed: int, d: Deployment)
    ensures var c := After(reports, period, allowed); var times := Streak(reports, d, period, allowed);
            && FailuresOf(c, d) == |times|
            && (d in c.until <==> Due(times, allowed))
            && (d in c.until ==> c.until[d] == EndOf(times, period))
  {
    if reports != [] {
      CooldownIff(reports[..|reports| - 1], period, allowed, d);
    }
  }

  /** No look at a deployment comes later than this. */
  ghost predicate LooksBy(reports: seq<Report>, d: Deployment, latest: int)
  {
    forall r | r in reports && r.Look? && r.d == d :: r.at <= latest
  }

  /**
   * If nothing looks at a deployment after the period that its last failure begins, that failure
   * ends its streak, and with it begins or prolongs the cooldown.
   */
  lemma {:induction false} LastFailureEndsStreak(reports: seq<Report>, more: seq<Report>, d: Deployment, at: int,
                                                 period: int, allowed: int)
    requires HasNoSuccess(more) && LastFailure(more, d) == Some(at) && LooksBy(more, d, at + period)
    ensures var times := Streak(reports + more, d, period, allowed); times != [] && times[|times| - 1] == at
  {
    var front, last := more[..|more| - 1], more[|more| - 1];
    assert more == front + [last];
    assert (reports + more)[..|reports + more| - 1] == reports + front;
    if !(last.Failure? && last.d == d) {
      LastFailureEndsStreak(reports, front, d, at, period, allowed);
    }
  }

  /** Looks alone leave the streak of a deployment that has no cooldown. */
  lemma {:induction false} StreakStays(reports: seq<Report>, more: seq<Report>, d: Deployment, period: int,
                                       allowed: int)
    requires HasNoSuccess(more) && FailureCount(more, d) == 0 && !Due(Streak(reports, d, period, allowed), allowed)
    ensures Streak(reports + more, d, period, allowed) == Streak(reports, d, period, allowed)
  {
    if more == [] {
      assert reports + more == reports;
    } else {
      var front, last := more[..|more| - 1], more[|more| - 1];
      assert more == front + [last];
      assert (reports + more)[..|reports + more| - 1] == reports + front;
      StreakStays(reports, front, d, period, allowed);
    }
  }

  /** One more failure of a deployment that has no cooldown makes its streak one longer. */
  lemma {:induction false} StreakGrows(reports: seq<Report>, more: seq<Report>, d: Deployment, at: int,
                                       period: int, allowed: int)
    requires HasNoSuccess(more) && FailureCount(more, d) == 1 && LastFailure(more, d) == Some(at)
    requires LooksBy(more, d, at + period) && !Due(Streak(reports, d, period, allowed), allowed)
    ensures Streak(reports + more, d, period, allowed) == Streak(reports, d, period, allowed) + [at]
  {
    var front, last := more[..|more| - 1], more[|more| - 1];
    assert more == front + [last];
    assert (reports + more)[..|reports + more| - 1] == reports + front;
    if last.Failure? && last.d == d {
      StreakStays(reports, front, d, period, allowed);
    } else {
      StreakGrows(reports, front, d, at, period, allowed);
    }
  }

  /** So it bars the deployment up to that end, and not beyond. */
  lemma CoolingIff(reports: seq<Report>, period: int, allowed: int, d: Deployment, now: int)
    ensures var times := Streak(reports, d, period, allowed);
            Cooling(After(reports, period, allowed), d, now) <==> Due(times, allowed) && now <= EndOf(times, period)
  {
    CooldownIff(reports, period, allowed, d);
  }

  // ---------- Backoff ----------

  datatype Backoff = Backoff(attempts: nat, nextRetryAt: int)

  type Backoffs = map<DeploymentKey, Backoff>

  predicate BackingOff(b: Backoffs, key: DeploymentKey, now: int)
  {
    key in b && now < b[key].nextRetryAt
  }

  function Pow2(n: nat): (p: nat)
    ensures p >= 1
  {
    if n == 0 then 1 else 2 * Pow2(n - 1)
  }

  const MAX_DELAY := 60 * SECOND

  const WORD := 0x1_0000_0000_0000_0000

  /** The value of a 64-bit signed word with these low 64 bits. */
  function Wrapped(n: int): int
  {
    var low := n % WORD;
    if low >= 0x8000_0000_0000_0000 then low - WORD else low
  }

  /** The upper end of the jitter, computed in wrapping 64-bit arithmetic as the source does. */
  function JitterCap(attempts: nat): (cap: int)
    ensures 0 < cap <= MAX_DELAY
  {
    var cap := Wrapped(SECOND * Wrapped(Pow2(attempts)));
    if cap > MAX_DELAY || cap <= 0 then MAX_DELAY else cap
  }

  function AttemptsOf(b: Backoffs, key: DeploymentKey): nat
  {
    if key in b then b[key].attempts else 0
  }

  /** A 429 counts an attempt and waits as long as the server says, or for a jittered delay. */
  function RateLimited(b: Backoffs, key: DeploymentKey, retryAfter: int, now: int, draw: nat): Backoffs
  {
    var n := AttemptsOf(b, key) + 1;
    var delay := if retryAfter > 0 then retryAfter else draw % JitterCap(n);
    b[key := Backoff(n, now + delay)]
  }

  class BackoffManager {
    var state: Backoffs

    constructor ()
      ensures state == map[]
    {
      state := map[];
    }

    method InBackoff(key: DeploymentKey, now: int) returns (waiting: bool)
      ensures waiting == BackingOff(state, key, now)
    {
      if key !in state {
        return false;
      }
      return now < state[key].nextRetryAt;
    }

    /** `draw` is the random number. */
    method ReportRateLimit(key: DeploymentKey, retryAfter: int, now: int, draw: nat)
      modifies this
      ensures state == RateLimited(old(state), key, retryAfter, now, draw)
    {
      var s := if key in state then state[key] else Backoff(0, 0);
      s := s.(attempts := s.attempts + 1);
      var delay := retryAfter;
      if retryAfter <= 0 {
        var cap := Wrapped(SECOND * Wrapped(Pow2(s.attempts)));
        if cap > MAX_DELAY || cap <= 0 {
          cap := MAX_DELAY;
        }
        delay := draw % cap;
      }
      state := state[key := s.(nextRetryAt := now + delay)];
    }

    method Reset(key: DeploymentKey)
      modifies this
      ensures state == old(state) - {key}
    {
      state := state - {key};
    }

    method RetryAfter(key: DeploymentKey, now: int) returns (wait: int)
      ensures wait == if BackingOff(state, key, now) then state[key].nextRetryAt - now else 0
    {
      wait := 0;
      if key in state && state[key].nextRetryAt - now > 0 {
        wait := state[key].nextRetryAt - now;
      }
    }
  }

  lemma {:induction false} Pow2Add(a: nat, b: nat)
    ensures Pow2(a + b) == Pow2(a) * Pow2(b)
  {
    if a > 0 {
      Pow2Add(a - 1, b);
      assert Pow2(a) * Pow2(b) == 2 * (Pow2(a - 1) * Pow2(b));
    }
  }

  lemma {:induction false} Pow2Grows(a: nat, b: nat)
    requires a <= b
    ensures Pow2(a) <= Pow2(b)
  {
    if a < b {
      Pow2Grows(a, b - 1);
    }
  }

  lemma Pow2Small(n: nat)
    requires n == 8
    ensures Pow2(n) == 256
  {
    assert Pow2(n - 7) == 2;
    assert Pow2(n - 5) == 8;
    assert Pow2(n - 3) == 32;
  }

  lemma Pow2Large(eight: nat)
    requires eight == 8
    ensures Pow2(4 * eight + 1) == 0x2_0000_0000 && Pow2(4 * eight + 2) == 0x4_0000_0000
  {
    Pow2Small(eight);
    Pow2Add(eight, eight);
    Pow2Add(2 * eight, 2 * eight);
    assert Pow2(4 * eight + 1) == 2 * Pow2(4 * eight);
  }

  /** Wrapping around keeps the low bits that are zero. */
  lemma WrappedMultiples(q: int)
    ensures exists r :: Wrapped(q * 0x4_0000_0000) == r * 0x4_0000_0000
    ensures exists r :: Wrapped(q * 0x800_0000_0000) == r * 0x800_0000_0000
  {
    var n := q * 0x4_0000_0000;
    var high := if n % WORD >= 0x8000_0000_0000_0000 then 1 else 0;
    assert Wrapped(n) == (q - 0x4000_0000 * (n / WORD + high)) * 0x4_0000_0000;
    var m := q * 0x800_0000_0000;
    var top := if m % WORD >= 0x8000_0000_0000_0000 then 1 else 0;
    assert Wrapped(m) == (q - 0x20_0000 * (m / WORD + top)) * 0x800_0000_0000;
  }

  lemma LateProduct(attempts: nat)
    requires attempts >= 34
    ensures exists r :: Wrapped(SECOND * Wrapped(Pow2(attempts))) == r * 0x800_0000_0000
    ensures Pow2(attempts) >= 0x4_0000_0000
  {
    hide Pow2, Wrapped;
    Pow2Large(8);
    Pow2Grows(34, attempts);
    Pow2Add(34, attempts - 34);
    WrappedMultiples(Pow2(attempts - 34));
    assert Pow2(attempts) == Pow2(attempts - 34) * 0x4_0000_0000;
    var r :| Wrapped(Pow2(attempts)) == r * 0x4_0000_0000;
    assert SECOND * Wrapped(Pow2(attempts)) == (r * 1953125) * 0x800_0000_0000;
    WrappedMultiples(r * 1953125);
  }

  lemma EarlyPower(attempts: nat)
    requires attempts < 34
    ensures Pow2(attempts) <= 0x2_0000_0000
  {
    hide Pow2;
    Pow2Large(8);
    Pow2Grows(attempts, 33);
  }

  /**
   * However many attempts there were, and although the doubling overflows, the jitter is bounded by
   * the smaller of one minute and one second doubled per attempt.
   */
  lemma JitterCapIsExact(attempts: nat)
    ensures JitterCap(attempts) == if SECOND * Pow2(attempts) < MAX_DELAY then SECOND * Pow2(attempts) else MAX_DELAY
  {
    hide Pow2;
    if attempts < 34 {
      EarlyPower(attempts);
    } else {
      hide Wrapped;
      LateProduct(attempts);
      var r :| Wrapped(SECOND * Wrapped(Pow2(attempts))) == r * 0x800_0000_0000;
    }
  }

  /** What is reported about rate limits. */
  datatype Limit = Limited(key: DeploymentKey, retryAfter: int, at: int, draw: nat) | Cleared(key: DeploymentKey)

  function Backed(b: Backoffs, limits: seq<Limit>): Backoffs
  {
    if limits == [] then b
    else
      var before := Backed(b, limits[..|limits| - 1]);
      match limits[|limits| - 1]
      case Limited(key, retryAfter, at, draw) => RateLimited(before, key, retryAfter, at, draw)
      case Cleared(key) => before - {key}
  }

  lemma {:induction false} BackedJoin(b: Backoffs, front: seq<Limit>, back: seq<Limit>)
    ensures Backed(b, front + back) == Backed(Backed(b, front), back)
  {
    hide RateLimited;
    if back == [] {
      assert front + back == front;
    } else {
      var most := back[..|back| - 1];
      assert (front + back)[..|front + back| - 1] == front + most;
      BackedJoin(b, front, most);
    }
  }

  /** The rate limits of a key since it was last cleared, the latest at the end. */
  function Strikes(limits: seq<Limit>, key: DeploymentKey): (strikes: seq<Limit>)
    ensures forall l | l in strikes :: l.Limited?
  {
    if limits == [] then []
    else
      var before, last := Strikes(limits[..|limits| - 1], key), limits[|limits| - 1];
      if last.key != key then before else if last.Cleared? then [] else before + [last]
  }

  /** The wait after the n-th rate limit: what the server asks for, or a draw below the bound. */
  ghost function Wait(l: Limit, n: nat): int
    requires l.Limited?
  {
    if l.retryAfter > 0 then l.retryAfter
    else l.draw % (if SECOND * Pow2(n) < MAX_DELAY then SECOND * Pow2(n) else MAX_DELAY)
  }

  lemma {:induction false} BackedIs(limits: seq<Limit>, key: DeploymentKey)
    ensures var b := Backed(map[], limits); var strikes := Strikes(limits, key);
            && (key in b <==> strikes != [])
            && (strikes != [] ==>
                  var last := strikes[|strikes| - 1];
                  b[key] == Backoff(|strikes|, last.at + Wait(last, |strikes|)))
  {
    hide JitterCap, Pow2;
    if limits != [] {
      BackedIs(limits[..|limits| - 1], key);
      JitterCapIsExact(|Strikes(limits[..|limits| - 1], key)| + 1);
    }
  }

  /**
   * After any history, a key backs off exactly while the wait of its latest rate limit lasts; the
   * bound of that wait doubles with every rate limit since the key was last cleared.
   */
  lemma BackoffIff(limits: seq<Limit>, key: DeploymentKey, now: int)
    ensures var b := Backed(map[], limits); var strikes := Strikes(limits, key);
            && AttemptsOf(b, key) == |strikes|
            && (BackingOff(b, key, now) <==>
                  && strikes != []
                  && var last := strikes[|strikes| - 1]; now < last.at + Wait(last, |strikes|))
  {
    hide Wait, Strikes, Backed;
    BackedIs(limits, key);
  }

  // ---------- Sticky sessions ----------

  const TTL := 3600 * SECOND

  datatype Session = Session(deploymentKey: DeploymentKey, lastUsedAt: int, dirty: bool)

  type Sessions = map<string, Session>

  function CacheKey(session: string, pool: string): string
  {
    session + ":" + pool
  }

  predicate Expired(s: Session, now: int)
  {
    now - s.lastUsedAt > TTL
  }

  function Lookup(sessions: Sessions, session: string, pool: string, now: int): Option<DeploymentKey>
  {
    var k := CacheKey(session, pool);
    if k in sessions && !Expired(sessions[k], now) then Some(sessions[k].deploymentKey) else None
  }

  /** A hit renews the session; an expired one is dropped. */
  function LookedUp(sessions: Sessions, session: string, pool: string, now: int): Sessions
  {
    var k := CacheKey(session, pool);
    if k !in sessions then sessions
    else if Expired(sessions[k], now) then sessions - {k}
    else sessions[k := Session(sessions[k].deploymentKey, now, true)]
  }

  function Bound(sessions: Sessions, session: string, pool: string, key: DeploymentKey, now: int): Sessions
  {
    sessions[CacheKey(session, pool) := Session(key, now, true)]
  }

  class StickySessionManager {
    var sessions: Sessions

    constructor ()
      ensures sessions == map[]
    {
      sessions := map[];
    }

    method Get(session: string, pool: string, now: int) returns (key: Option<DeploymentKey>)
      modifies this
      ensures key == Lookup(old(sessions), session, pool, now)
      ensures sessions == LookedUp(old(sessions), session, pool, now)
    {
      var k := CacheKey(session, pool);
      if k !in sessions {
        return None;
      }
      var entry := sessions[k];
      if now - entry.lastUsedAt > TTL {
        sessions := sessions - {k};
        return None;
      }
      sessions := sessions[k := entry.(lastUsedAt := now, dirty := true)];
      key := Some(entry.deploymentKey);
    }

    method Set(session: string, pool: string, key: DeploymentKey, now: int)
      modifies this
      ensures sessions == Bound(old(sessions), session, pool, key, now)
    {
      sessions := sessions[CacheKey(session, pool) := Session(key, now, true)];
    }
  }

  /** What happens to the sessions: a look for the deployment of one, or a new binding. */
  datatype Use =
    | Got(session: string, pool: string, at: int)
    | Put(session: string, pool: string, key: DeploymentKey, at: int)

  function Used(sessions: Sessions, uses: seq<Use>): Sessions
  {
    if uses == [] then sessions
    else
      var before := Used(sessions, uses[..|uses| - 1]);
      match uses[|uses| - 1]
      case Got(session, pool, at) => LookedUp(before, session, pool, at)
      case Put(session, pool, key, at) => Bound(before, session, pool, key, at)
  }

  /** What a session is bound to and when that was last used; a binding unused for too long is gone. */
  function LastUse(uses: seq<Use>, cacheKey: string): Option<(DeploymentKey, int)>
  {
    if uses == [] then None
    else
      var before, last := LastUse(uses[..|uses| - 1], cacheKey), uses[|uses| - 1];
      if CacheKey(last.session, last.pool) != cacheKey then before
      else
        match last
        case Put(_, _, key, at) => Some((key, at))
        case Got(_, _, at) =>
          if before.Some? && at <= before.value.1 + TTL then Some((before.value.0, at)) else None
  }

  lemma {:induction false} UsedIs(uses: seq<Use>, cacheKey: string)
    ensures var sessions, use := Used(map[], uses), LastUse(uses, cacheKey);
            && (cacheKey in sessions <==> use.Some?)
            && (use.Some? ==> sessions[cacheKey] == Session(use.value.0, use.value.1, true))
  {
    hide CacheKey;
    if uses != [] {
      UsedIs(uses[..|uses| - 1], cacheKey);
    }
  }

  /**
   * After any history, a session leads to the deployment it was last bound to, as long as no two
   * uses in a row, nor the last one and now, are more than the time to live apart.
   */
  lemma SessionLivesIff(uses: seq<Use>, session: string, pool: string, now: int)
    ensures var use := LastUse(uses, CacheKey(session, pool));
            Lookup(Used(map[], uses), session, pool, now) ==
            if use.Some? && now <= use.value.1 + TTL then Some(use.value.0) else None
  {
    hide Used, LastUse, CacheKey;
    UsedIs(uses, CacheKey(session, pool));
  }

  /** The search for the last colon. */
  method SplitCacheKey(cacheKey: string) returns (session: string, pool: string)
    ensures (session, pool) == Split(cacheKey)
  {
    var i := |cacheKey| - 1;
    assert cacheKey[..i + 1] == cacheKey;
    while i >= 0
      invariant -1 <= i < |cacheKey|
      invariant ':' !in cacheKey[i + 1..]
    {
      if cacheKey[i] == ':' {
        SplitAt(cacheKey[..i], cacheKey[i + 1..]);
        assert CacheKey(cacheKey[..i], cacheKey[i + 1..]) == cacheKey;
        return cacheKey[..i], cacheKey[i + 1..];
      }
      i := i - 1;
    }
    assert cacheKey[0..] == cacheKey;
    NoSplit(cacheKey);
    return cacheKey, "";
  }

  function Split(cacheKey: string): (string, string)
  {
    if ':' !in cacheKey then (cacheKey, "")
    else if cacheKey[|cacheKey| - 1] == ':' then (cacheKey[..|cacheKey| - 1], "")
    else
      var (session, pool) := Split(cacheKey[..|cacheKey| - 1]);
      (session, pool + [cacheKey[|cacheKey| - 1]])
  }

  lemma NoSplit(cacheKey: string)
    requires ':' !in cacheKey
    ensures Split(cacheKey) == (cacheKey, "")
  {
  }

  lemma {:induction false} SplitAt(session: string, pool: string)
    requires ':' !in pool
    ensures Split(CacheKey(session, pool)) == (session, pool)
  {
    var k := CacheKey(session, pool);
    assert k[|session|] == ':';
    if pool == "" {
      assert k[..|k| - 1] == session;
    } else {
      var front, last := pool[..|pool| - 1], pool[|pool| - 1];
      assert last in pool && k[..|k| - 1] == CacheKey(session, front);
      SplitAt(session, front);
      assert front + [last] == pool;
    }
  }

  lemma {:induction false} SplitLeavesNoColon(cacheKey: string)
    ensures ':' !in Split(cacheKey).1
  {
    if ':' in cacheKey && cacheKey[|cacheKey| - 1] != ':' {
      SplitLeavesNoColon(cacheKey[..|cacheKey| - 1]);
    }
  }

  /**
   * Stored cache keys split back into the session and the pool they were made of if and only if
   * the pool's name has no colon. Colons in the session do no harm.
   */
  lemma SplitRecoversIff(session: string, pool: string)
    ensures Split(CacheKey(session, pool)) == (session, pool) <==> ':' !in pool
  {
    if ':' !in pool {
      SplitAt(session, pool);
    } else {
      SplitLeavesNoColon(CacheKey(session, pool));
    }
  }
}

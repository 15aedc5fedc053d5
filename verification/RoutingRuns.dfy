/**
 * What holds of a whole routing run over several pools: which pools are consulted and when, what
 * decides the outcome, and what the run leaves in the health records.
 */
module RoutingRuns {
  import opened Deployments
  import opened Health
  import opened Routing
  import opened Router
  import opened RoutingProofs

  // ---------- The passes of a run ----------

  /** One consulted pool: when, with which memory, and the reasons carried forward to it. */
  datatype Pass = Pass(pool: Pool, n: nat, memory: Memory, reasons: seq<Reason>)

  function Outcome(env: Env, settings: Settings, session: Option<string>, p: Pass): Done
  {
    PoolRun(env, settings, p.memory, p.pool, session, p.n, p.reasons)
  }

  function OtherPasses(env: Env, settings: Settings, m: Memory, reasons: seq<Reason>, pools: seq<Pool>,
                       session: Option<string>, n: nat): seq<Pass>
    decreases |pools|
  {
    if pools == [] then []
    else
      var here := Pass(pools[0], n, m, reasons);
      var p := Outcome(env, settings, session, here);
      [here] +
      if p.result.error.None? then []
      else OtherPasses(env, settings, p.memory, p.result.reasons, pools[1..], session, n + |p.tries|)
  }

  /** After the first pass failed, other pools are consulted if the pool cannot serve any more. */
  predicate MovesOn(env: Env, pool: Pool, p: Done)
  {
    p.result.error.Some? && (!env.budgetAfter(pool.name, |p.tries|) || !HasEligible(env, pool))
  }

  function Passes(env: Env, settings: Settings, m: Memory, pool: Pool, others: seq<Pool>, session: Option<string>)
    : seq<Pass>
  {
    var first := Pass(pool, 0, m, []);
    var p := Outcome(env, settings, session, first);
    [first] +
    if MovesOn(env, pool, p) then OtherPasses(env, settings, p.memory, p.result.reasons, others, session, |p.tries|)
    else []
  }

  function PassedTries(env: Env, settings: Settings, session: Option<string>, passes: seq<Pass>): seq<Try>
  {
    if passes == [] then []
    else Outcome(env, settings, session, passes[0]).tries + PassedTries(env, settings, session, passes[1..])
  }

  function Consultations(passes: seq<Pass>): (pools: seq<Pool>)
    ensures |pools| == |passes| && forall i | 0 <= i < |passes| :: pools[i] == passes[i].pool
  {
    seq(|passes|, i requires 0 <= i < |passes| => passes[i].pool)
  }

  /** The pass goes on from the memory, the count and the reasons that the failed one before it left. */
  predicate Follows(env: Env, settings: Settings, session: Option<string>, before: Pass, p: Pass)
  {
    var failed := Outcome(env, settings, session, before);
    failed.result.error.Some? && p == Pass(p.pool, before.n + |failed.tries|, failed.memory, failed.result.reasons)
  }

  predicate Chained(env: Env, settings: Settings, session: Option<string>, passes: seq<Pass>)
  {
    || |passes| <= 1
    || (Follows(env, settings, session, passes[0], passes[1]) && Chained(env, settings, session, passes[1..]))
  }

  lemma ChainedFirst(env: Env, settings: Settings, session: Option<string>, first: Pass, rest: seq<Pass>)
    requires Chained(env, settings, session, rest)
    requires rest != [] ==> Follows(env, settings, session, first, rest[0])
    ensures Chained(env, settings, session, [first] + rest)
  {
    hide Follows;
    assert ([first] + rest)[1..] == rest;
  }

  lemma {:induction false} OthersAreChained(env: Env, settings: Settings, m: Memory, reasons: seq<Reason>,
                                            pools: seq<Pool>, session: Option<string>, n: nat)
    ensures var passes := OtherPasses(env, settings, m, reasons, pools, session, n);
            && Chained(env, settings, session, passes)
            && Consultations(passes) <= pools
            && (pools != [] ==> passes != [] && passes[0] == Pass(pools[0], n, m, reasons))
    decreases |pools|
  {
    hide Outcome, Chained;
    if pools == [] {
      NotChained(env, settings, session, []);
    } else {
      var here := Pass(pools[0], n, m, reasons);
      var p := Outcome(env, settings, session, here);
      if p.result.error.None? {
        NotChained(env, settings, session, []);
        ChainedFirst(env, settings, session, here, []);
        assert [here] + [] == [here];
      } else {
        OthersAreChained(env, settings, p.memory, p.result.reasons, pools[1..], session, n + |p.tries|);
        var rest := OtherPasses(env, settings, p.memory, p.result.reasons, pools[1..], session, n + |p.tries|);
        ChainedFirst(env, settings, session, here, rest);
        ConsultsFirst(here, rest, pools);
      }
    }
  }

  lemma NotChained(env: Env, settings: Settings, session: Option<string>, passes: seq<Pass>)
    requires |passes| <= 1
    ensures Chained(env, settings, session, passes)
  {
  }

  lemma ConsultsFirst(first: Pass, rest: seq<Pass>, pools: seq<Pool>)
    requires pools != [] && first.pool == pools[0] && Consultations(rest) <= pools[1..]
    ensures Consultations([first] + rest) <= pools
  {
    var all := [first] + rest;
    assert |all| <= |pools|;
    forall i | 0 <= i < |all| ensures Consultations(all)[i] == pools[i] {
      assert i > 0 ==> all[i] == rest[i - 1] && Consultations(rest)[i - 1] == pools[1..][i - 1];
    }
  }

  /** The run over the other pools, one pass at a time. */
  lemma OtherSteps(env: Env, settings: Settings, m: Memory, before: RouteResult, pools: seq<Pool>,
                   session: Option<string>, tries: seq<Try>)
    requires pools != []
    ensures var p := PoolRun(env, settings, m, pools[0], session, |tries|, before.reasons);
            OtherPools(env, settings, m, before, pools, session, tries) ==
            if p.result.error.None? then Done(p.result, p.memory, tries + p.tries)
            else
              OtherPools(env, settings, p.memory, before.(reasons := p.result.reasons, error := p.result.error),
                         pools[1..], session, tries + p.tries)
  {
    hide PoolRun;
  }

  lemma OtherPassesStep(env: Env, settings: Settings, m: Memory, reasons: seq<Reason>, pools: seq<Pool>,
                        session: Option<string>, n: nat)
    requires pools != []
    ensures var here := Pass(pools[0], n, m, reasons);
            var p := Outcome(env, settings, session, here);
            OtherPasses(env, settings, m, reasons, pools, session, n) ==
            [here] + if p.result.error.None? then []
                     else OtherPasses(env, settings, p.memory, p.result.reasons, pools[1..], session, n + |p.tries|)
  {
    hide Outcome;
  }

  lemma OutcomeIs(env: Env, settings: Settings, session: Option<string>, p: Pass)
    ensures Outcome(env, settings, session, p) == PoolRun(env, settings, p.memory, p.pool, session, p.n, p.reasons)
  {
  }

  /** What the other pools' passes say about the run over them. */
  lemma {:induction false} OthersFollow(env: Env, settings: Settings, m: Memory, before: RouteResult, pools: seq<Pool>,
                                        session: Option<string>, tries: seq<Try>)
    requires pools != []
    ensures var p := OtherPools(env, settings, m, before, pools, session, tries);
            var passes := OtherPasses(env, settings, m, before.reasons, pools, session, |tries|);
            && passes != []
            && var last := Outcome(env, settings, session, passes[|passes| - 1]);
            && p.tries == tries + PassedTries(env, settings, session, passes)
            && p.memory == last.memory
            && p.result.error == last.result.error
            && p.result.reasons == last.result.reasons
            && (last.result.error.None? ==> p.result == last.result)
            && (last.result.error.Some? ==>
                  p.result.used == before.used && p.result.tried == before.tried && |passes| == |pools|)
    decreases |pools|
  {
    hide Outcome, OtherPools, OtherPasses, PoolRun;
    var here := Pass(pools[0], |tries|, m, before.reasons);
    var p := Outcome(env, settings, session, here);
    OutcomeIs(env, settings, session, here);
    OtherSteps(env, settings, m, before, pools, session, tries);
    OtherPassesStep(env, settings, m, before.reasons, pools, session, |tries|);
    assert [here] + [] == [here];
    OnePassed(env, settings, session, here);
    if p.result.error.Some? {
      var next := before.(reasons := p.result.reasons, error := p.result.error);
      if pools[1..] == [] {
        NoOthers(env, settings, p.memory, next, session, tries + p.tries);
        NoPasses(env, settings, p.memory, next.reasons, session, |tries + p.tries|, here);
      } else {
        var rest := OtherPasses(env, settings, p.memory, next.reasons, pools[1..], session, |tries + p.tries|);
        OthersFollow(env, settings, p.memory, next, pools[1..], session, tries + p.tries);
        LastOfAll(here, rest);
        assert tries + (p.tries + PassedTries(env, settings, session, rest)) ==
               tries + p.tries + PassedTries(env, settings, session, rest);
      }
    }
  }

  lemma NoPasses(env: Env, settings: Settings, m: Memory, reasons: seq<Reason>, session: Option<string>, n: nat,
                 p: Pass)
    ensures [p] + OtherPasses(env, settings, m, reasons, [], session, n) == [p]
  {
  }

  lemma LastOfAll(first: Pass, rest: seq<Pass>)
    requires rest != []
    ensures var all := [first] + rest; all[|all| - 1] == rest[|rest| - 1] && all[0] == first && all[1..] == rest
  {
  }

  lemma OnePassed(env: Env, settings: Settings, session: Option<string>, p: Pass)
    ensures PassedTries(env, settings, session, [p]) == Outcome(env, settings, session, p).tries
  {
    hide Outcome;
    assert [p][1..] == [];
  }

  /** A run over pools, told by its first pass and the run over the others. */
  lemma PooledSteps(env: Env, settings: Settings, m: Memory, pool: Pool, others: seq<Pool>, session: Option<string>)
    ensures var p := Outcome(env, settings, session, Pass(pool, 0, m, []));
            PooledRun(env, settings, m, pool, others, session) ==
            if p.result.error.None? then p
            else if MovesOn(env, pool, p) then
              var all := OtherPools(env, settings, p.memory, p.result, others, session, p.tries);
              all.(result := Final(all.result))
            else p.(result := Final(p.result))
  {
    hide PoolRun, OtherPools, Final, HasEligible;
  }

  lemma PassesSteps(env: Env, settings: Settings, m: Memory, pool: Pool, others: seq<Pool>, session: Option<string>)
    ensures var first := Pass(pool, 0, m, []);
            var p := Outcome(env, settings, session, first);
            Passes(env, settings, m, pool, others, session) ==
            if MovesOn(env, pool, p) && others != [] then
              [first] + OtherPasses(env, settings, p.memory, p.result.reasons, others, session, |p.tries|)
            else [first]
  {
    hide Outcome, MovesOn;
    assert [Pass(pool, 0, m, [])] + [] == [Pass(pool, 0, m, [])];
  }

  /**
   * The passes of a run start with the model's pool, follow one another, and go on to the other
   * pools, in order, exactly if the first failed and cannot serve any more, until one serves.
   */
  lemma PassesAreInOrder(env: Env, settings: Settings, m: Memory, pool: Pool, others: seq<Pool>,
                         session: Option<string>)
    ensures var passes := Passes(env, settings, m, pool, others, session);
            && passes != [] && passes[0] == Pass(pool, 0, m, [])
            && Chained(env, settings, session, passes)
            && Consultations(passes) <= [pool] + others
            && (|passes| > 1 ==> MovesOn(env, pool, Outcome(env, settings, session, passes[0])))
  {
    hide Outcome, Chained, Consultations, MovesOn, Passes, OtherPasses;
    PassesSteps(env, settings, m, pool, others, session);
    var first := Pass(pool, 0, m, []);
    var p := Outcome(env, settings, session, first);
    if MovesOn(env, pool, p) && others != [] {
      var rest := OtherPasses(env, settings, p.memory, p.result.reasons, others, session, |p.tries|);
      OthersAreChained(env, settings, p.memory, p.result.reasons, others, session, |p.tries|);
      MovesOnFails(env, pool, p);
      ChainedFirst(env, settings, session, first, rest);
      assert ([pool] + others)[1..] == others;
      ConsultsFirst(first, rest, [pool] + others);
    } else {
      NotChained(env, settings, session, [first]);
      ConsultsFirst(first, [], [pool] + others);
      assert [first] + [] == [first];
    }
  }

  lemma MovesOnFails(env: Env, pool: Pool, p: Done)
    ensures MovesOn(env, pool, p) ==> p.result.error.Some?
  {
  }

  /**
   * A run is its passes: what was tried, what is remembered and whether the run succeeded is what
   * they say. A failed run consulted all the other pools if it consulted any, and lists as tried
   * only what the first pass tried.
   */
  lemma RunFollowsPasses(env: Env, settings: Settings, m: Memory, pool: Pool, others: seq<Pool>,
                         session: Option<string>)
    ensures var p := PooledRun(env, settings, m, pool, others, session);
            var passes := Passes(env, settings, m, pool, others, session);
            && passes != []
            && var first := Outcome(env, settings, session, passes[0]);
            var last := Outcome(env, settings, session, passes[|passes| - 1]);
            && p.tries == PassedTries(env, settings, session, passes)
            && p.memory == last.memory
            && (last.result.error.None? ==> p.result == last.result)
            && (last.result.error.Some? ==>
                  && (MovesOn(env, pool, first) ==> |passes| == 1 + |others|)
                  && p.result.used == first.result.used
                  && p.result.tried == first.result.tried
                  && p.result.reasons == last.result.reasons
                  && p.result.error ==
                     if BecauseBudget in last.result.reasons then Some(AllBudgets) else last.result.error)
  {
    hide Outcome, PooledRun, Passes, OtherPools, OtherPasses, MovesOn;
    var first := Pass(pool, 0, m, []);
    var p := Outcome(env, settings, session, first);
    PooledSteps(env, settings, m, pool, others, session);
    PassesSteps(env, settings, m, pool, others, session);
    MovesOnFails(env, pool, p);
    if MovesOn(env, pool, p) && others != [] {
      OthersFollow(env, settings, p.memory, p.result, others, session, p.tries);
      LastOfAll(first, OtherPasses(env, settings, p.memory, p.result.reasons, others, session, |p.tries|));
    } else {
      OnePassed(env, settings, session, first);
      NoOthers(env, settings, p.memory, p.result, session, p.tries);
    }
  }

  lemma NoOthers(env: Env, settings: Settings, m: Memory, before: RouteResult, session: Option<string>, tries: seq<Try>)
    ensures OtherPools(env, settings, m, before, [], session, tries) == Done(before, m, tries)
  {
  }

  // ---------- What decides a run ----------

  predicate OutOfBudget(env: Env, p: Pass)
  {
    !env.budgetBefore(p.pool.name, p.n)
  }

  lemma {:induction false} FailuresAreNotBudgets(tries: seq<Try>)
    ensures BecauseBudget !in Reasons(tries)
  {
    if tries != [] {
      FailuresAreNotBudgets(tries[..|tries| - 1]);
    }
  }

  /** A pass adds the reason of an exhausted budget exactly if the pool's budget was. */
  lemma PassReason(env: Env, settings: Settings, session: Option<string>, p: Pass)
    ensures BecauseBudget in Outcome(env, settings, session, p).result.reasons <==>
              BecauseBudget in p.reasons || OutOfBudget(env, p)
  {
    hide Reasons, Healthy, Looked, PassTries, Concluded, AllReported, BoundDeployment, Unavailable, Tried;
    if !OutOfBudget(env, p) {
      var now := env.lookAt(p.n);
      var skip := Ineligible(env, p.pool.members);
      var healthy := Healthy(p.memory, p.pool.members, skip, now);
      var m1 := p.memory.(cool := Looked(p.memory.cool, p.pool.members, skip, now));
      var bound := BoundDeployment(m1, healthy, session, p.pool.name, now);
      FailuresAreNotBudgets(PassTries(env, healthy, bound, p.n));
    }
  }

  ghost predicate SomeOutOfBudget(env: Env, passes: seq<Pass>)
  {
    exists p | p in passes :: OutOfBudget(env, p)
  }

  lemma SomeFirst(env: Env, passes: seq<Pass>)
    requires passes != []
    ensures SomeOutOfBudget(env, passes) <==> OutOfBudget(env, passes[0]) || SomeOutOfBudget(env, passes[1..])
    ensures |passes| == 1 ==> !SomeOutOfBudget(env, passes[1..])
  {
    hide OutOfBudget;
    assert passes == [passes[0]] + passes[1..];
  }

  lemma {:induction false} ReasonsTellBudgets(env: Env, settings: Settings, session: Option<string>, passes: seq<Pass>)
    requires passes != [] && Chained(env, settings, session, passes)
    ensures BecauseBudget in Outcome(env, settings, session, passes[|passes| - 1]).result.reasons <==>
              BecauseBudget in passes[0].reasons || SomeOutOfBudget(env, passes)
    decreases |passes|
  {
    hide Outcome, OutOfBudget, SomeOutOfBudget;
    PassReason(env, settings, session, passes[0]);
    SomeFirst(env, passes);
    if |passes| > 1 {
      ReasonsTellBudgets(env, settings, session, passes[1..]);
    }
  }

  /** In a pass that had a budget and ran out, every candidate was tried. */
  ghost predicate TriedAll(env: Env, settings: Settings, session: Option<string>, p: Pass)
  {
    var done := Outcome(env, settings, session, p);
    !OutOfBudget(env, p) && RanOut(done.result) ==>
      forall d | Candidate(env, p.memory, p.pool, p.n, d) :: d in Tried(done.tries)
  }

  /** The tries of a pass are one stretch of the tries of the run. */
  lemma {:induction false} PassedAt(env: Env, settings: Settings, session: Option<string>, passes: seq<Pass>, i: nat)
    requires i < |passes| && Chained(env, settings, session, passes)
    ensures var tries := PassedTries(env, settings, session, passes);
            var done := Outcome(env, settings, session, passes[i]);
            var from := passes[i].n - passes[0].n;
            0 <= from <= from + |done.tries| <= |tries| && tries[from..from + |done.tries|] == done.tries
  {
    hide Outcome;
    var first := Outcome(env, settings, session, passes[0]);
    if i == 0 {
      assert passes[0].n - passes[0].n == 0;
    } else {
      PassedAt(env, settings, session, passes[1..], i - 1);
      Shifted(first.tries, PassedTries(env, settings, session, passes[1..]), passes[i].n - passes[1].n,
              Outcome(env, settings, session, passes[i]).tries);
    }
  }

  lemma Shifted(front: seq<Try>, back: seq<Try>, from: nat, part: seq<Try>)
    requires from + |part| <= |back| && back[from..from + |part|] == part
    ensures (front + back)[|front| + from..|front| + from + |part|] == part
  {
  }

  /**
   * Routing ends with exactly one of a served deployment, the last one tried, and an error; with
   * neither exactly when there is no pool and the number of retries is negative.
   */
  lemma RouteDecides(env: Env, settings: Settings, m: Memory, deployments: map<string, seq<Deployment>>,
                     pool: Option<Pool>, others: seq<Pool>, model: string, session: Option<string>)
    ensures var p := RouteRun(env, settings, m, deployments, pool, others, model, session);
            && !(p.result.used.Some? && p.result.error.Some?)
            && (p.result.used.None? && p.result.error.None? <==>
                  !env.goneAtStart && pool.None? && settings.numRetries < 0)
            && (p.result.used.Some? ==> p.tries != [] && p.tries[|p.tries| - 1] == Try(p.result.used.value, Served))
  {
    hide PooledRun, LegacyPath, Passes, Outcome, Consultations, PassedTries, TriedAll, MovesOn, Tried;
    if !env.goneAtStart {
      match pool
      case None => LegacyIsCorrect(env, settings, m, deployments, model);
      case Some(p) =>
        PassesAreInOrder(env, settings, m, p, others, session);
        RunFollowsPasses(env, settings, m, p, others, session);
        var passes := Passes(env, settings, m, p, others, session);
        PassDecides(env, settings, session, passes[0]);
        PassDecides(env, settings, session, passes[|passes| - 1]);
        LastTries(env, settings, session, passes);
    }
  }

  lemma PassDecides(env: Env, settings: Settings, session: Option<string>, p: Pass)
    ensures var done := Outcome(env, settings, session, p);
            && Decided(done.result, done.tries)
            && done.result.tried == Tried(done.tries)
            && TriedAll(env, settings, session, p)
  {
    hide PoolRun, Candidate;
    PassIsCorrect(env, settings, p.memory, p.pool, session, p.n, p.reasons);
  }

  lemma LastTries(env: Env, settings: Settings, session: Option<string>, passes: seq<Pass>)
    requires passes != [] && Chained(env, settings, session, passes)
    ensures var tries := PassedTries(env, settings, session, passes);
            var last := Outcome(env, settings, session, passes[|passes| - 1]).tries;
            last != [] ==> tries != [] && tries[|tries| - 1] == last[|last| - 1]
    decreases |passes|
  {
    hide Outcome;
    if |passes| > 1 {
      LastTries(env, settings, session, passes[1..]);
    } else {
      OnePassed(env, settings, session, passes[0]);
      assert passes == [passes[0]];
    }
  }

  /**
   * A failed run over pools is reported as exhausted budgets if and only if one of the pools it
   * consulted had no budget when its turn came. It skipped no one: in each consulted pool that had a
   * budget, and whose pass was neither refused nor abandoned, every candidate was tried.
   */
  lemma FailureIsExhaustive(env: Env, settings: Settings, m: Memory, pool: Pool, others: seq<Pool>,
                            session: Option<string>)
    ensures var p := PooledRun(env, settings, m, pool, others, session);
            var passes := Passes(env, settings, m, pool, others, session);
            && (p.result.error == Some(AllBudgets) <==>
                  p.result.error.Some? && exists q | q in passes :: OutOfBudget(env, q))
            && (forall q | q in passes :: TriedAll(env, settings, session, q))
            && (forall q, t | q in passes && t in Outcome(env, settings, session, q).tries :: t in p.tries)
  {
    hide PooledRun, Passes, OutOfBudget, TriedAll, Outcome;
    PassesAreInOrder(env, settings, m, pool, others, session);
    RunFollowsPasses(env, settings, m, pool, others, session);
    var passes := Passes(env, settings, m, pool, others, session);
    ReasonsTellBudgets(env, settings, session, passes);
    NoPassBlamesAll(env, settings, session, passes[|passes| - 1]);
    forall q | q in passes
      ensures TriedAll(env, settings, session, q)
      ensures forall t | t in Outcome(env, settings, session, q).tries ::
                t in PassedTries(env, settings, session, passes)
    {
      var i :| 0 <= i < |passes| && passes[i] == q;
      PassDecides(env, settings, session, q);
      PassedAt(env, settings, session, passes, i);
    }
  }

  lemma NoPassBlamesAll(env: Env, settings: Settings, session: Option<string>, p: Pass)
    ensures Outcome(env, settings, session, p).result.error != Some(AllBudgets)
  {
    hide PoolRun;
    PassIsCorrect(env, settings, p.memory, p.pool, session, p.n, p.reasons);
  }

  // ---------- What a run lists as tried ----------

  /** The pass whose tries are listed: the one that served, or else the first. */
  function Told(env: Env, settings: Settings, session: Option<string>, passes: seq<Pass>): (i: nat)
    requires passes != []
    ensures i < |passes|
  {
    var last := |passes| - 1;
    if Outcome(env, settings, session, passes[last]).result.error.None? then last else 0
  }

  lemma TellsOnePass(env: Env, settings: Settings, m: Memory, pool: Pool, others: seq<Pool>, session: Option<string>)
    ensures var p := PooledRun(env, settings, m, pool, others, session);
            var passes := Passes(env, settings, m, pool, others, session);
            && passes != []
            && p.result.tried ==
               Tried(Outcome(env, settings, session, passes[Told(env, settings, session, passes)]).tries)
  {
    hide Outcome, PooledRun, Passes, Tried, TriedAll;
    RunFollowsPasses(env, settings, m, pool, others, session);
    var passes := Passes(env, settings, m, pool, others, session);
    PassDecides(env, settings, session, passes[0]);
    PassDecides(env, settings, session, passes[|passes| - 1]);
  }

  /** All passes but one tried nothing. */
  ghost predicate OnlyTried(env: Env, settings: Settings, session: Option<string>, passes: seq<Pass>, told: nat)
  {
    forall i | 0 <= i < |passes| && i != told :: Outcome(env, settings, session, passes[i]).tries == []
  }

  lemma {:induction false} NothingPassed(env: Env, settings: Settings, session: Option<string>, passes: seq<Pass>)
    ensures PassedTries(env, settings, session, passes) == [] <==>
              forall i | 0 <= i < |passes| :: Outcome(env, settings, session, passes[i]).tries == []
  {
    hide Outcome;
    if passes != [] {
      NothingPassed(env, settings, session, passes[1..]);
      assert forall i | 0 < i < |passes| :: passes[i] == passes[1..][i - 1];
    }
  }

  /** The tries of one pass are as many as the tries of all exactly if the others tried nothing. */
  lemma {:induction false} OneOfAll(env: Env, settings: Settings, session: Option<string>, passes: seq<Pass>, told: nat)
    requires told < |passes|
    ensures var all := PassedTries(env, settings, session, passes);
            var one := Outcome(env, settings, session, passes[told]).tries;
            && |one| <= |all| && (|one| == |all| <==> OnlyTried(env, settings, session, passes, told))
            && (OnlyTried(env, settings, session, passes, told) ==> one == all)
  {
    hide Outcome;
    var rest := passes[1..];
    assert forall i | 0 < i < |passes| :: passes[i] == rest[i - 1];
    if told == 0 {
      NothingPassed(env, settings, session, rest);
    } else {
      OneOfAll(env, settings, session, rest, told - 1);
    }
  }

  lemma TriedTells(front: seq<Try>, all: seq<Try>)
    ensures front == all ==> Tried(front) == Tried(all)
    ensures Tried(front) == Tried(all) ==> |front| == |all|
  {
  }

  /** A pass tries nothing exactly if its pool has no budget or no member that it may try. */
  lemma TriesNothingIff(env: Env, settings: Settings, session: Option<string>, p: Pass)
    ensures Outcome(env, settings, session, p).tries == [] <==>
              OutOfBudget(env, p) || !exists d :: Candidate(env, p.memory, p.pool, p.n, d)
  {
    hide Ready, Looked, Concluded, AllReported, BoundDeployment, Unavailable, VerdictOf, Reasons, Candidate, Tries;
    if !OutOfBudget(env, p) {
      var now := env.lookAt(p.n);
      var skip := Ineligible(env, p.pool.members);
      var healthy := Healthy(p.memory, p.pool.members, skip, now);
      var m1 := p.memory.(cool := Looked(p.memory.cool, p.pool.members, skip, now));
      HealthyAreCandidates(env, p.memory, p.pool, p.n);
      BoundIsHealthy(m1, healthy, session, p.pool.name, now);
      SomeTry(env, healthy, p.n);
      var bound := BoundDeployment(m1, healthy, session, p.pool.name, now);
      assert Outcome(env, settings, session, p).tries == PassTries(env, healthy, bound, p.n);
      if healthy != [] {
        assert healthy[0] in healthy;
        assert Candidate(env, p.memory, p.pool, p.n, healthy[0]);
      }
    }
  }

  lemma SomeTry(env: Env, healthy: seq<Deployment>, n: nat)
    ensures Tries(env, healthy, n) == [] <==> healthy == []
  {
    hide Remove, VerdictOf;
  }

  /**
   * A run lists all deployments it tried, in order, if and only if no pass but the one it tells of
   * had both a budget and a member to try.
   */
  lemma ListsAllTriedIff(env: Env, settings: Settings, m: Memory, pool: Pool, others: seq<Pool>,
                         session: Option<string>)
    ensures var p := PooledRun(env, settings, m, pool, others, session);
            var passes := Passes(env, settings, m, pool, others, session);
            && passes != []
            && (p.result.tried == Tried(p.tries) <==>
                  forall i | 0 <= i < |passes| && i != Told(env, settings, session, passes) ::
                    OutOfBudget(env, passes[i]) ||
                    !exists d :: Candidate(env, passes[i].memory, passes[i].pool, passes[i].n, d))
  {
    hide Outcome, PooledRun, Passes, Tried, OutOfBudget, Candidate, Told;
    TellsOnePass(env, settings, m, pool, others, session);
    RunFollowsPasses(env, settings, m, pool, others, session);
    var passes := Passes(env, settings, m, pool, others, session);
    var told := Told(env, settings, session, passes);
    OneOfAll(env, settings, session, passes, told);
    TriedTells(Outcome(env, settings, session, passes[told]).tries, PassedTries(env, settings, session, passes));
    forall i | 0 <= i < |passes|
      ensures Outcome(env, settings, session, passes[i]).tries == [] <==>
                OutOfBudget(env, passes[i]) ||
                !exists d :: Candidate(env, passes[i].memory, passes[i].pool, passes[i].n, d)
    {
      TriesNothingIff(env, settings, session, passes[i]);
    }
  }

  /** A pass over a pool whose only member may be tried. */
  lemma SinglePass(env: Env, settings: Settings, m: Memory, name: string, d: Deployment, n: nat, reasons: seq<Reason>)
    requires env.budgetBefore(name, n) && env.eligible(d) && Ready(m, d, env.lookAt(n))
    ensures var p := PoolRun(env, settings, m, Pool(name, [d]), None, n, reasons); var v := VerdictOf(env, n, d);
            && p.tries == [Try(d, v)] && p.result.tried == [d]
            && p.result.used == (if v.Served? then Some(d) else None)
            && (p.result.error.None? <==> v.Served?)
            && p.memory == Reported(m.(cool := Looked(m.cool, [d], {}, env.lookAt(n))), settings, env, n, Try(d, v))
  {
    hide VerdictOf, Reported, Ready, Unavailable, Checked;
    var now := env.lookAt(n);
    assert [d][..0] == [];
    assert Ineligible(env, [d]) == {};
    assert Healthy(m, [d][..0], {}, now) == [];
    assert Healthy(m, [d], {}, now) == [d];
    assert Choice(env, n, [d]) == d;
    assert Remove([d][..0], d) == [];
    assert Remove([d], d) == [];
    var t := Try(d, VerdictOf(env, n, d));
    NoTries(env, n + 1);
    assert Tries(env, [d], n) == [t];
    OneTry(m.(cool := Looked(m.cool, [d], {}, now)), settings, env, n, NO_RESULT, t);
  }

  /** Every first try fails and every pool then runs out of budget; later tries may succeed. */
  function Outage(recovers: bool): Env
  {
    Env(false, n => false, (n, d) => if recovers && n > 0 then Served else Verdict.Broke, (n, ds) => 0, n => 0, n => 0,
        n => 0, (pool, n) => true, (pool, n) => false, d => true)
  }

  /**
   * The list of tried deployments can miss some whether the run fails or not: if the first pool's
   * deployment broke and its budget then ran out, a run served by a second pool lists only what that
   * pool tried, and a failed run only what the first tried.
   */
  lemma TriesAreForgotten(settings: Settings, d: Deployment, e: Deployment)
    requires d != e
    ensures var m := Memory(NO_COOLDOWNS, map[], map[]);
            var served := PooledRun(Outage(true), settings, m, Pool("a", [d]), [Pool("b", [e])], None);
            var failed := PooledRun(Outage(false), settings, m, Pool("a", [d]), [Pool("b", [e])], None);
            && served.result.used == Some(e) && served.result.tried == [e] && Tried(served.tries) == [d, e]
            && failed.result.error.Some? && failed.result.tried == [d] && Tried(failed.tries) == [d, e]
  {
    ForgottenIn(Outage(true), settings, d, e);
    ForgottenIn(Outage(false), settings, d, e);
  }

  lemma ForgottenIn(env: Env, settings: Settings, d: Deployment, e: Deployment)
    requires d != e && (env == Outage(true) || env == Outage(false))
    ensures var m := Memory(NO_COOLDOWNS, map[], map[]);
            var p := PooledRun(env, settings, m, Pool("a", [d]), [Pool("b", [e])], None);
            && Tried(p.tries) == [d, e]
            && if env.reply(1, e).Served? then p.result.used == Some(e) && p.result.tried == [e]
               else p.result.error.Some? && p.result.tried == [d]
  {
    hide PoolRun, Outcome, OtherPools, PooledRun, Reported, Looked, Ready;
    var m, a, b := Memory(NO_COOLDOWNS, map[], map[]), Pool("a", [d]), Pool("b", [e]);
    FreshIsReady(settings, env, d, e);
    SinglePass(env, settings, m, "a", d, 0, []);
    var here := Pass(a, 0, m, []);
    OutcomeIs(env, settings, None, here);
    var first := Outcome(env, settings, None, here);
    SinglePass(env, settings, first.memory, "b", e, 1, first.result.reasons);
    PooledSteps(env, settings, m, a, [b], None);
    OtherSteps(env, settings, first.memory, first.result, [b], None, first.tries);
    var second := PoolRun(env, settings, first.memory, b, None, 1, first.result.reasons);
    NoOthers(env, settings, second.memory,
             first.result.(reasons := second.result.reasons, error := second.result.error), None,
             first.tries + second.tries);
    assert [b][1..] == [];
  }

  /** A failure of one deployment leaves the others as they were. */
  lemma FreshIsReady(settings: Settings, env: Env, d: Deployment, e: Deployment)
    requires d != e && (env == Outage(true) || env == Outage(false))
    ensures var m := Memory(NO_COOLDOWNS, map[], map[]);
            && Ready(m, d, 0) && VerdictOf(env, 0, d).Broke?
            && var looked := m.(cool := Looked(m.cool, [d], {}, 0));
               Ready(Reported(looked, settings, env, 0, Try(d, VerdictOf(env, 0, d))), e, 0)
  {
    assert [d][..0] == [];
  }
}

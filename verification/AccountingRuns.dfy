/**
 * What holds of every accounting record, however its attempts, headers, bodies and interruptions
 * are interleaved.
 */
module AccountingRuns {
  import opened Deployments
  import opened Tokens
  import opened Decimals
  import opened Pricing
  import opened Accounting

  // ---------- The amount is the exact sum of the selected costs ----------

  ghost predicate ExactReport(a: Attempt)
  {
    a.cost.reported.Some? ==> Representable(a.cost.reported.value)
  }

  lemma AmountsAreExact(a: Attempt, final: bool)
    requires ExactReport(a)
    ensures Shown(a, final).cost.amount.Some? ==> Representable(Shown(a, final).cost.amount.value)
  {
    hide Representable, Format, Bill, SumOfUnits;
    var cost := Shown(a, final).cost;
    if cost.estimated.Some? {
      FormatDenotes(SumOfUnits(Amounts(Bill(a.usage, a.rates))));
    }
  }

  /** What the selected costs of the attempts denote, added up. */
  ghost function SelectedTotal(attempts: seq<Attempt>): real
  {
    if attempts == [] then 0.0
    else
      var last := attempts[|attempts| - 1].cost.amount;
      SelectedTotal(attempts[..|attempts| - 1]) +
      if last.Some? && Representable(last.value) then Denoted(last.value) else 0.0
  }

  lemma SumSnoc(values: seq<string>, v: string)
    requires AllRepresentable(values) && Representable(v)
    ensures AllRepresentable(values + [v]) && SumOfValues(values + [v]) == SumOfValues(values) + Denoted(v)
  {
    hide Representable, Denoted;
    assert (values + [v])[..|values|] == values;
  }

  lemma KnownSnoc(attempts: seq<Attempt>)
    requires attempts != []
    ensures var front, last := attempts[..|attempts| - 1], attempts[|attempts| - 1].cost.amount;
            && (last.Some? ==> Known(attempts, Amount) == Known(front, Amount) + [last.value])
            && (last.None? ==> Known(attempts, Amount) == Known(front, Amount))
  {
  }

  lemma {:induction false} KnownAmounts(attempts: seq<Attempt>)
    requires forall a | a in attempts :: a.cost.amount.Some? ==> Representable(a.cost.amount.value)
    ensures AllRepresentable(Known(attempts, Amount))
    ensures SumOfValues(Known(attempts, Amount)) == SelectedTotal(attempts)
  {
    hide Representable, Denoted, AllRepresentable, Known, SumOfValues;
    if attempts == [] {
      NothingKnown();
    } else {
      var front, last := attempts[..|attempts| - 1], attempts[|attempts| - 1];
      assert last in attempts && attempts == front + [last];
      KnownAmounts(front);
      KnownSnoc(attempts);
      if last.cost.amount.Some? {
        SumSnoc(Known(front, Amount), last.cost.amount.value);
      }
    }
  }

  lemma NothingKnown()
    ensures Known([], Amount) == [] && AllRepresentable([]) && SumOfValues([]) == 0.0
  {
  }

  lemma {:induction false} HowManyKnown(attempts: seq<Attempt>)
    ensures Known(attempts, Amount) == [] <==> forall a | a in attempts :: a.cost.amount.None?
    ensures |Known(attempts, Amount)| == |attempts| <==> forall a | a in attempts :: a.cost.amount.Some?
  {
    if attempts != [] {
      var front, last := attempts[..|attempts| - 1], attempts[|attempts| - 1];
      assert last in attempts && attempts == front + [last];
      HowManyKnown(front);
    }
  }

  /** A snapshot has an amount when some attempt has a cost, and it is the exact sum of all of them. */
  lemma AmountIsTheExactSum(r: Record, final: bool)
    requires forall a | a in r.attempts :: ExactReport(a)
    ensures var s := SnapshotOf(r, final);
            && (s.cost.amount.Some? <==> exists a | a in s.attempts :: a.cost.amount.Some?)
            && (s.cost.amount.Some? ==>
                  && Representable(s.cost.amount.value)
                  && Denoted(s.cost.amount.value) == SelectedTotal(s.attempts))
  {
    hide Shown, Representable, Denoted, SelectedTotal, Known, Format, ExactReport;
    var shown := ShownAll(r.attempts, final);
    forall a | a in shown ensures a.cost.amount.Some? ==> Representable(a.cost.amount.value) {
      var i :| 0 <= i < |shown| && shown[i] == a;
      assert r.attempts[i] in r.attempts;
      AmountsAreExact(r.attempts[i], final);
    }
    KnownAmounts(shown);
    HowManyKnown(shown);
    SumIsExact(Known(shown, Amount));
  }

  /**
   * Coverage is complete exactly when there was an attempt, every attempt has a cost, and none of
   * these is an estimate for an attempt that failed or was cut off.
   */
  lemma CompleteIff(r: Record, final: bool)
    ensures var s := SnapshotOf(r, final);
            && (s.coverage == Complete <==>
                  && s.attempts != []
                  && forall a | a in s.attempts ::
                       a.cost.amount.Some? &&
                       (a.cost.source == FromEstimate ==> a.status != Failed && a.status != Interrupted))
            && (s.coverage == UnknownCoverage <==> forall a | a in s.attempts :: a.cost.amount.None?)
  {
    hide Shown, Known;
    var shown := ShownAll(r.attempts, final);
    HowManyKnown(shown);
    if shown != [] {
      assert shown[0] in shown;
    }
  }

  // ---------- What the policy means for the whole record ----------

  ghost predicate AllowsOnly(attempts: seq<Attempt>, policy: Policy)
  {
    forall i | 0 <= i < |attempts| :: attempts[i].policy == policy
  }

  function Allowed(policy: Policy): (which: Which)
    requires policy != PreferUpstream
  {
    if policy == EstimateOnly then EstimatedAmount else ReportedAmount
  }

  lemma ShownFollowsPolicy(a: Attempt, final: bool)
    ensures var cost := Shown(a, final).cost;
            && (a.policy != PreferUpstream ==> cost.amount == Pick(Allowed(a.policy), cost))
            && (a.policy == EstimateOnly ==> cost.source == NoCost || cost.source == FromEstimate)
            && (a.policy == RequireUpstream ==> cost.source == NoCost || cost.source == FromUpstream)
  {
    hide Bill, Estimate, Selected;
  }

  lemma {:induction false} SameKnown(attempts: seq<Attempt>, which: Which, source: CostSource)
    requires forall i | 0 <= i < |attempts| ::
               && attempts[i].cost.amount == Pick(which, attempts[i].cost)
               && (attempts[i].cost.source == NoCost || attempts[i].cost.source == source)
               && (attempts[i].cost.source == NoCost <==> attempts[i].cost.amount.None?)
    ensures Known(attempts, Amount) == Known(attempts, which)
    ensures SourceOf(attempts) == if Known(attempts, Amount) == [] then NoCost else source
  {
    if attempts != [] {
      SameKnown(attempts[..|attempts| - 1], which, source);
    }
  }

  /**
   * If no attempt may use estimates, the amount is the sum of what upstreams reported and nothing
   * else, and if none may use reports, it is the sum of the estimates; the source says so.
   */
  lemma PolicyDecidesTheRecord(r: Record, final: bool, policy: Policy)
    requires policy != PreferUpstream && AllowsOnly(r.attempts, policy)
    ensures var s := SnapshotOf(r, final); var known := Known(s.attempts, Allowed(policy));
            && s.cost.amount == (if known == [] then None else Some(Total(known)))
            && s.cost.source == (if known == [] then NoCost
                                 else if policy == EstimateOnly then FromEstimate else FromUpstream)
  {
    hide Shown, Known, SourceOf, Total;
    var shown := ShownAll(r.attempts, final);
    forall i | 0 <= i < |shown|
      ensures
        && shown[i].cost.amount == Pick(Allowed(policy), shown[i].cost)
        && (shown[i].cost.source == NoCost ||
            shown[i].cost.source == if policy == EstimateOnly then FromEstimate else FromUpstream)
        && (shown[i].cost.source == NoCost <==> shown[i].cost.amount.None?)
    {
      ShownFollowsPolicy(r.attempts[i], final);
      ShownIsSelected(r.attempts[i], final);
    }
    SameKnown(shown, Allowed(policy), if policy == EstimateOnly then FromEstimate else FromUpstream);
  }

  lemma ShownIsSelected(a: Attempt, final: bool)
    ensures var cost := Shown(a, final).cost; cost.source == NoCost <==> cost.amount.None?
  {
    hide Bill, Estimate, Selected;
  }

  // ---------- Every run keeps the counts consistent ----------

  predicate AllPossible(events: seq<Event>)
  {
    forall e | e in events :: Possible(e)
  }

  predicate Counts(e: Event, i: nat)
  {
    (e.DecodedUsage? && e.attempt == i) || (e.RawBody? && e.attempt == i && e.usage.Some?)
  }

  predicate TotalArrives(e: Event, i: nat)
  {
    e.Headers? && e.attempt == i && e.total.Number? && e.total.n >= 0
  }

  /** Within an attempt, the response headers come before its bodies. */
  ghost predicate HeadersFirst(events: seq<Event>)
  {
    forall j, k, i: nat | 0 <= j < k < |events| && Counts(events[j], i) :: !TotalArrives(events[k], i)
  }

  ghost predicate Counted(events: seq<Event>, i: nat)
  {
    exists j | 0 <= j < |events| :: Counts(events[j], i)
  }

  ghost predicate Sound(a: Attempt, counted: bool)
  {
    && Consistent(a.usage)
    && ExactReport(a)
    && (!counted ==> a.usage.input.None? && a.usage.output.None?)
  }

  lemma ReportedIsExact(cost: Cost, text: string, via: Via)
    requires cost.reported.Some? ==> Representable(cost.reported.value)
    ensures var c := Reported(cost, text, via).0;
            c.reported.Some? ==> Representable(c.reported.value)
  {
    hide Representable, Denoted, Decimal;
    if Decimal(text).Some? {
      DecimalDenotes(text);
    }
  }

  lemma BodyKeepsSound(a: Attempt, b: Body, counted: bool)
    requires Sound(a, counted) && Decoded(b)
    ensures Sound(WithBody(a, b), true)
  {
    hide Consistent, Representable, Reported, Observed, WarnedAll, Merged;
    ObservingKeepsConsistency(a.provider, a.usage, b);
    if b.cost.Some? {
      ReportedIsExact(a.cost, b.cost.value, BodyCost);
    }
  }

  lemma StepKeepsSound(a: Attempt, e: Event, i: nat, counted: bool)
    requires !e.Begin? && e.attempt == i && Possible(e) && Sound(a, counted)
    requires counted ==> !TotalArrives(e, i)
    ensures Sound(AttemptStep(a, e), counted || Counts(e, i))
  {
    hide Representable, Reported, WarnedAll, Merged, WithBody, Observed;
    match e
    case Headers(_, cost, total) =>
      if cost.Some? {
        ReportedIsExact(a.cost, cost.value, HeaderCost);
      }
    case RawBody(_, native, usage) =>
      if usage.Some? {
        BodyKeepsSound(a.(native := Merged(a.native, native), captured := true), usage.value, counted);
      }
    case DecodedUsage(_, b) =>
      BodyKeepsSound(a, b, counted);
    case End(_, failed) =>
  }

  lemma NewIsSound(e: Event)
    requires e.Begin?
    ensures Sound(NewAttempt(e), false)
  {
  }

  lemma CountedSnoc(events: seq<Event>, e: Event, i: nat)
    ensures Counted(events + [e], i) <==> Counted(events, i) || Counts(e, i)
  {
    var all := events + [e];
    if Counted(events, i) {
      var j :| 0 <= j < |events| && Counts(events[j], i);
      assert Counts(all[j], i);
    }
    if Counts(e, i) {
      assert Counts(all[|events|], i);
    }
  }

  lemma FrontIsOrderly(events: seq<Event>)
    requires events != [] && HeadersFirst(events) && AllPossible(events)
    ensures HeadersFirst(events[..|events| - 1]) && AllPossible(events[..|events| - 1])
    ensures Possible(events[|events| - 1])
  {
    var front := events[..|events| - 1];
    assert events[|events| - 1] in events;
    forall j, k, i: nat | 0 <= j < k < |front| && Counts(front[j], i) ensures !TotalArrives(front[k], i) {
      assert Counts(events[j], i);
    }
  }

  lemma LastIsOrderly(events: seq<Event>, i: nat)
    requires events != [] && HeadersFirst(events) && Counted(events[..|events| - 1], i)
    ensures !TotalArrives(events[|events| - 1], i)
  {
    var front := events[..|events| - 1];
    var j :| 0 <= j < |front| && Counts(front[j], i);
    assert Counts(events[j], i);
  }

  /**
   * In every run in which headers precede bodies, every attempt has consistent counts (known counts
   * are within 64 bits, the total is input plus output, cached tokens are within the input and
   * reasoning tokens within the output) and reports only exact amounts.
   */
  lemma {:induction false} RunsAreSound(id: nat, key: Option<int>, events: seq<Event>)
    requires AllPossible(events) && HeadersFirst(events)
    ensures forall i: nat | i < |Run(NewRecord(id, key), events).attempts| ::
              Sound(Run(NewRecord(id, key), events).attempts[i], Counted(events, i))
  {
    hide Sound, Counts, AttemptStep, Counted, HeadersFirst, TotalArrives;
    if events != [] {
      var front, e := events[..|events| - 1], events[|events| - 1];
      assert events == front + [e];
      FrontIsOrderly(events);
      RunsAreSound(id, key, front);
      var before := Run(NewRecord(id, key), front).attempts;
      var after := Run(NewRecord(id, key), events).attempts;
      assert after == StepAttempts(before, e);
      forall i: nat | i < |after| ensures Sound(after[i], Counted(events, i)) {
        CountedSnoc(front, e, i);
        if e.Begin? && i == |before| {
          NewIsSound(e);
          SoundIsWeaker(after[i], false, Counted(events, i));
        } else if !e.Begin? && e.attempt == i {
          if Counted(front, i) {
            LastIsOrderly(events, i);
          }
          StepKeepsSound(before[i], e, i, Counted(front, i));
        } else {
          SoundIsWeaker(before[i], Counted(front, i), Counted(events, i));
        }
      }
    }
  }

  lemma SoundIsWeaker(a: Attempt, counted: bool, later: bool)
    requires Sound(a, counted) && (counted ==> later)
    ensures Sound(a, later)
  {
  }

  // ---------- The relations lift to the whole record ----------

  lemma {:induction false} SumIsInRange(attempts: seq<Attempt>, counter: Counter)
    requires forall a | a in attempts :: Ranges(a.usage)
    ensures Within(AddUp(attempts, counter), MAX_INT64)
    ensures AddUp(attempts, counter).Some? ==> forall a | a in attempts :: Count(counter, a.usage).Some?
  {
    if attempts != [] {
      var front, last := attempts[..|attempts| - 1], attempts[|attempts| - 1];
      assert last in attempts && attempts == front + [last];
      SumIsInRange(front, counter);
    }
  }

  lemma {:induction false} SumsAdd(attempts: seq<Attempt>)
    requires forall a | a in attempts :: Ranges(a.usage) && Adds(a.usage)
    requires AddUp(attempts, InputCount).Some? && AddUp(attempts, OutputCount).Some?
    requires AddUp(attempts, TotalCount).Some?
    ensures AddUp(attempts, TotalCount).value ==
            AddUp(attempts, InputCount).value + AddUp(attempts, OutputCount).value
  {
    if attempts != [] {
      var front, last := attempts[..|attempts| - 1], attempts[|attempts| - 1];
      assert last in attempts && attempts == front + [last];
      SumsAdd(front);
    }
  }

  /** A sum of parts stays below the sum of the wholes; an unknown part counts as zero. */
  lemma {:induction false} PartsStayBelow(attempts: seq<Attempt>, part: Counter, other: Counter, whole: Counter)
    requires forall a | a in attempts :: Ranges(a.usage)
    requires forall a | a in attempts :: PartsFit(a.usage, part, other, whole)
    ensures AddUp(attempts, whole).Some? ==>
              OrZero(AddUp(attempts, part)) + OrZero(AddUp(attempts, other)) <= AddUp(attempts, whole).value
  {
    hide Ranges, Count, Within;
    if attempts != [] {
      var front, last := attempts[..|attempts| - 1], attempts[|attempts| - 1];
      assert last in attempts && attempts == front + [last];
      PartsStayBelow(front, part, other, whole);
      GrowsAtMost(front, last, part);
      GrowsAtMost(front, last, other);
    }
  }

  predicate PartsFit(u: Usage, part: Counter, other: Counter, whole: Counter)
  {
    Count(whole, u).Some? ==> OrZero(Count(part, u)) + OrZero(Count(other, u)) <= Count(whole, u).value
  }

  lemma GrowsAtMost(front: seq<Attempt>, last: Attempt, counter: Counter)
    requires Ranges(last.usage) && forall a | a in front :: Ranges(a.usage)
    ensures OrZero(AddUp(front + [last], counter)) <= OrZero(AddUp(front, counter)) + OrZero(Count(counter, last.usage))
  {
    assert (front + [last])[..|front|] == front;
    SumIsInRange(front, counter);
  }

  lemma {:induction false} ReasoningStaysBelow(attempts: seq<Attempt>)
    requires forall a | a in attempts :: Ranges(a.usage) && Nested(a.usage)
    ensures AddUp(attempts, OutputCount).Some? ==>
              OrZero(AddUp(attempts, ReasoningCount)) <= AddUp(attempts, OutputCount).value
  {
    hide Ranges;
    if attempts != [] {
      var front, last := attempts[..|attempts| - 1], attempts[|attempts| - 1];
      assert last in attempts && attempts == front + [last];
      ReasoningStaysBelow(front);
      GrowsAtMost(front, last, ReasoningCount);
    }
  }

  lemma OriginLifts(attempts: seq<Attempt>)
    requires attempts != [] && forall a | a in attempts :: Sourced(a.usage)
    ensures OriginOf(attempts) == FromHeader ==> forall a | a in attempts :: a.usage.total.Some?
    ensures OriginOf(attempts) == NoTokens ==> forall a | a in attempts :: Nothing(a.usage)
  {
    assert attempts[0] in attempts;
  }

  /** Adding consistent attempts gives consistent counts, wherever the 64-bit cut-off of some count falls. */
  lemma AggregateIsConsistent(attempts: seq<Attempt>)
    requires forall a | a in attempts :: Consistent(a.usage)
    ensures var u := Aggregated(attempts);
            Ranges(u) && Adds(u) && Nested(u) && (u.source.NoTokens? <==> Nothing(u))
  {
    hide AddUp, OriginOf, Ranges, Adds, Nested, Sourced;
    if attempts != [] {
      AggregateCounts(attempts);
      AggregateOrigin(attempts);
    } else {
      NoUsageIsConsistent();
    }
  }

  lemma NoUsageIsConsistent()
    ensures Consistent(NO_USAGE)
  {
  }

  lemma AggregateCounts(attempts: seq<Attempt>)
    requires attempts != [] && forall a | a in attempts :: Ranges(a.usage) && Adds(a.usage) && Nested(a.usage)
    ensures Ranges(Aggregated(attempts)) && Adds(Aggregated(attempts)) && Nested(Aggregated(attempts))
  {
    hide AddUp, OriginOf;
    assert forall a | a in attempts :: PartsFit(a.usage, ReadCount, WriteCount, InputCount);
    PartsStayBelow(attempts, ReadCount, WriteCount, InputCount);
    ReasoningStaysBelow(attempts);
    SumIsInRange(attempts, InputCount);
    SumIsInRange(attempts, OutputCount);
    SumIsInRange(attempts, TotalCount);
    SumIsInRange(attempts, ReadCount);
    SumIsInRange(attempts, WriteCount);
    SumIsInRange(attempts, ReasoningCount);
    if AddUp(attempts, InputCount).Some? && AddUp(attempts, OutputCount).Some? && AddUp(attempts, TotalCount).Some? {
      SumsAdd(attempts);
    }
  }

  lemma AggregateOrigin(attempts: seq<Attempt>)
    requires attempts != [] && forall a | a in attempts :: Ranges(a.usage) && Sourced(a.usage)
    ensures Aggregated(attempts).source.NoTokens? <==> Nothing(Aggregated(attempts))
  {
    hide AddUp, OriginOf, Ranges;
    OriginLifts(attempts);
    SumIsInRange(attempts, InputCount);
    SumIsInRange(attempts, OutputCount);
    SumIsInRange(attempts, TotalCount);
    assert attempts[0] in attempts;
  }

  /** Every snapshot of every run with headers first has consistent totals. */
  lemma SnapshotsAreConsistent(id: nat, key: Option<int>, events: seq<Event>, final: bool)
    requires AllPossible(events) && HeadersFirst(events)
    ensures var u := SnapshotOf(Run(NewRecord(id, key), events), final).usage;
            Ranges(u) && Adds(u) && Nested(u) && (u.source.NoTokens? <==> Nothing(u))
  {
    hide Run, HeadersFirst, Consistent, Aggregated;
    RunsAreSound(id, key, events);
    var attempts := Run(NewRecord(id, key), events).attempts;
    var shown := ShownAll(attempts, final);
    forall a | a in shown ensures Consistent(a.usage) {
      var i :| 0 <= i < |shown| && shown[i] == a;
      assert Sound(attempts[i], Counted(events, i));
    }
    AggregateIsConsistent(shown);
  }

  // ---------- Interruption and resumption ----------

  /** Equal, except for what pricing recomputes and for the raw evidence. */
  predicate Alike(a: Attempt, b: Attempt)
  {
    && b == a.(cost := b.cost, native := b.native, captured := b.captured)
    && b.cost.reported == a.cost.reported && b.cost.via == a.cost.via
  }

  predicate AllAlike(xs: seq<Attempt>, ys: seq<Attempt>)
  {
    |xs| == |ys| && forall i | 0 <= i < |xs| :: Alike(xs[i], ys[i])
  }

  lemma BodyKeepsAlike(a: Attempt, b: Attempt, body: Body)
    requires Alike(a, b)
    ensures Alike(WithBody(a, body), WithBody(b, body))
  {
    hide Decimal, Observed, Warned, WarnedAll, Merged;
  }

  lemma StepKeepsAlike(a: Attempt, b: Attempt, e: Event)
    requires Alike(a, b) && !e.Begin?
    ensures Alike(AttemptStep(a, e), AttemptStep(b, e))
  {
    hide Decimal, Observed, Warned, WarnedAll, Merged, WithBody;
    match e
    case Headers(_, cost, total) =>
    case RawBody(_, native, usage) =>
      if usage.Some? {
        BodyKeepsAlike(a.(native := Merged(a.native, native), captured := true),
                       b.(native := Merged(b.native, native), captured := true), usage.value);
      }
    case DecodedUsage(_, body) =>
      BodyKeepsAlike(a, b, body);
    case End(_, failed) =>
  }

  lemma {:induction false} RunKeepsAlike(r: Record, s: Record, events: seq<Event>)
    requires AllAlike(r.attempts, s.attempts)
    ensures AllAlike(Run(r, events).attempts, Run(s, events).attempts)
    ensures Run(r, events) == r.(attempts := Run(r, events).attempts)
    ensures Run(s, events) == s.(attempts := Run(s, events).attempts)
  {
    hide AttemptStep, Alike, NewAttempt;
    if events != [] {
      var front, e := events[..|events| - 1], events[|events| - 1];
      RunKeepsAlike(r, s, front);
      var xs, ys := Run(r, front).attempts, Run(s, front).attempts;
      if e.Begin? {
        AlikeItself(NewAttempt(e));
      } else if e.attempt < |xs| {
        StepKeepsAlike(xs[e.attempt], ys[e.attempt], e);
      }
    }
  }

  lemma AlikeItself(a: Attempt)
    ensures Alike(a, a)
  {
  }

  /** Equal, except for the raw evidence. */
  predicate SameButEvidence(a: Attempt, b: Attempt)
  {
    b == a.(native := b.native, captured := b.captured)
  }

  lemma AlikeShowsTheSame(a: Attempt, b: Attempt, final: bool)
    requires Alike(a, b)
    ensures SameButEvidence(Shown(a, final), Shown(b, final))
  {
    hide Bill, Estimate;
  }

  lemma {:induction false} SameTotals(xs: seq<Attempt>, ys: seq<Attempt>)
    requires |xs| == |ys| && forall i | 0 <= i < |xs| :: SameButEvidence(xs[i], ys[i])
    ensures forall which :: Known(xs, which) == Known(ys, which)
    ensures forall counter :: AddUp(xs, counter) == AddUp(ys, counter)
    ensures SourceOf(xs) == SourceOf(ys)
  {
    if xs != [] {
      SameTotals(xs[..|xs| - 1], ys[..|ys| - 1]);
    }
  }

  lemma SameSummary(xs: seq<Attempt>, ys: seq<Attempt>)
    requires |xs| == |ys| && forall i | 0 <= i < |xs| :: SameButEvidence(xs[i], ys[i])
    ensures TotalCost(xs) == TotalCost(ys) && Aggregated(xs) == Aggregated(ys)
    ensures CoverageOf(xs) == CoverageOf(ys)
  {
    hide Known, AddUp, SourceOf, Total;
    SameTotals(xs, ys);
    SameDoubt(xs, ys);
    SameDoubt(ys, xs);
    if xs != [] {
      SameOrigin(xs, ys);
    }
  }

  lemma SameDoubt(xs: seq<Attempt>, ys: seq<Attempt>)
    requires |xs| == |ys| && forall i | 0 <= i < |xs| :: SameButEvidence(xs[i], ys[i])
    ensures (exists a | a in xs :: Doubtful(a)) ==> exists a | a in ys :: Doubtful(a)
  {
    if a :| a in xs && Doubtful(a) {
      var i :| 0 <= i < |xs| && xs[i] == a;
      assert ys[i] in ys && Doubtful(ys[i]);
    }
  }

  lemma SameOrigin(xs: seq<Attempt>, ys: seq<Attempt>)
    requires |xs| == |ys| && xs != [] && forall i | 0 <= i < |xs| :: SameButEvidence(xs[i], ys[i])
    ensures OriginOf(xs) == OriginOf(ys)
  {
    var uniform := forall i | 0 <= i < |xs| :: xs[i].usage.source == xs[0].usage.source;
    assert uniform <==> forall i | 0 <= i < |ys| :: ys[i].usage.source == ys[0].usage.source;
    assert uniform <==> forall a | a in xs :: a.usage.source == xs[0].usage.source;
    assert uniform <==> forall a | a in ys :: a.usage.source == ys[0].usage.source;
  }

  /** The record after storing a provisional snapshot and resuming it. */
  function Resumed(r: Record): Record
  {
    Restored(SnapshotOf(r, false))
  }

  /**
   * A request that is stored, restored and continued ends with the same counts, cost, coverage and
   * attempts as one that never stopped; only the raw evidence may differ.
   */
  lemma ResumingIsTransparent(r: Record, events: seq<Event>, final: bool)
    ensures var there, here := SnapshotOf(Run(Resumed(r), events), final), SnapshotOf(Run(r, events), final);
            && there.id == here.id && there.key == here.key && there.state == here.state
            && there.usage == here.usage && there.cost == here.cost && there.coverage == here.coverage
            && |there.attempts| == |here.attempts|
            && forall i | 0 <= i < |here.attempts| :: SameButEvidence(here.attempts[i], there.attempts[i])
  {
    hide Shown, Alike, Run, TotalCost, Aggregated, CoverageOf, SameButEvidence;
    var s := Resumed(r);
    forall i | 0 <= i < |r.attempts| ensures Alike(r.attempts[i], s.attempts[i]) {
      ShowingIsAlike(r.attempts[i]);
    }
    RunKeepsAlike(r, s, events);
    var xs, ys := Run(r, events).attempts, Run(s, events).attempts;
    forall i | 0 <= i < |xs| ensures SameButEvidence(Shown(xs[i], final), Shown(ys[i], final)) {
      AlikeShowsTheSame(xs[i], ys[i], final);
    }
    SameSummary(ShownAll(xs, final), ShownAll(ys, final));
  }

  lemma ShowingIsAlike(a: Attempt)
    ensures Alike(a, Reopened(Shown(a, false)))
  {
    hide Bill, Estimate;
  }

  // ---------- The raw evidence ----------

  /** The flag that `Restore` guesses is the flag that was lost. */
  predicate Guessable(a: Attempt)
  {
    a.captured <==> a.native.Some?
  }

  ghost predicate EvidenceKept(r: Record, events: seq<Event>)
  {
    var xs, ys := Run(r, events).attempts, Run(Resumed(r), events).attempts;
    |xs| == |ys| && forall i | 0 <= i < |xs| :: ys[i].native == xs[i].native
  }

  predicate SameEvidence(xs: seq<Attempt>, ys: seq<Attempt>)
  {
    |xs| == |ys| && forall i | 0 <= i < |xs| :: ys[i].native == xs[i].native && ys[i].captured == xs[i].captured
  }

  lemma StepKeepsEvidence(a: Attempt, b: Attempt, e: Event)
    requires a.native == b.native && a.captured == b.captured && !e.Begin?
    ensures AttemptStep(a, e).native == AttemptStep(b, e).native
    ensures AttemptStep(a, e).captured == AttemptStep(b, e).captured
  {
    hide Decimal, Observed, Warned, WarnedAll, Merged, Reported;
  }

  lemma {:induction false} RunKeepsEvidence(r: Record, s: Record, events: seq<Event>)
    requires SameEvidence(r.attempts, s.attempts)
    ensures SameEvidence(Run(r, events).attempts, Run(s, events).attempts)
  {
    hide AttemptStep;
    if events != [] {
      var front, e := events[..|events| - 1], events[|events| - 1];
      RunKeepsEvidence(r, s, front);
      var xs, ys := Run(r, front).attempts, Run(s, front).attempts;
      if !e.Begin? && e.attempt < |xs| {
        StepKeepsEvidence(xs[e.attempt], ys[e.attempt], e);
      }
    }
  }

  /** A body that tells a captured attempt from another. */
  function Probe(a: Attempt): Body
  {
    var v := if a.native.Some? && "n" in a.native.value && a.native.value["n"] == "0" then "1" else "0";
    Body(0, 0, 0, 0, 0, false, false, false, None, None, None, None, None, Some(map["n" := v]))
  }

  lemma ProbeTells(a: Attempt, b: Attempt)
    requires a.native == b.native && a.captured != b.captured
    ensures WithBody(a, Probe(a)).native != WithBody(b, Probe(a)).native
  {
    hide Decimal, Observed, Warned, WarnedAll, Reported;
    var merged := Merged(a.native, Probe(a).fields);
    assert "n" in merged.value;
    assert a.native.Some? && "n" in a.native.value ==> merged.value["n"] != a.native.value["n"];
  }

  /**
   * Resuming also keeps the raw evidence, for every continuation, if and only if every attempt with
   * evidence had it from a raw body. Usage that was decoded without its raw body breaks this.
   */
  lemma EvidenceSurvivesIff(r: Record)
    ensures (forall events | AllPossible(events) :: EvidenceKept(r, events)) <==>
            (forall i | 0 <= i < |r.attempts| :: Guessable(r.attempts[i]))
  {
    if forall i | 0 <= i < |r.attempts| :: Guessable(r.attempts[i]) {
      forall events | AllPossible(events) ensures EvidenceKept(r, events) {
        ShownEvidence(r);
        RunKeepsEvidence(r, Resumed(r), events);
      }
    }
    if i :| 0 <= i < |r.attempts| && !Guessable(r.attempts[i]) {
      EvidenceLost(r, i);
    }
  }

  lemma ShownEvidence(r: Record)
    requires forall i | 0 <= i < |r.attempts| :: Guessable(r.attempts[i])
    ensures SameEvidence(r.attempts, Resumed(r).attempts)
  {
    hide Priced;
  }

  lemma EvidenceLost(r: Record, i: nat)
    requires i < |r.attempts| && !Guessable(r.attempts[i])
    ensures exists events | AllPossible(events) :: !EvidenceKept(r, events)
  {
    hide Priced, WithBody, Probe, Run;
    var a, b := r.attempts[i], Resumed(r).attempts[i];
    ProbeTells(a, b);
    ProbeIsDecoded(a);
    var e := DecodedUsage(i, Probe(a));
    OneStep(r, e);
    OneStep(Resumed(r), e);
    assert AllPossible([e]);
    var xs, ys := Run(r, [e]).attempts, Run(Resumed(r), [e]).attempts;
    assert xs[i] == WithBody(a, Probe(a)) && ys[i] == WithBody(b, Probe(a));
    assert !EvidenceKept(r, [e]);
  }

  lemma ProbeIsDecoded(a: Attempt)
    ensures Decoded(Probe(a))
  {
  }

  lemma OneStep(r: Record, e: Event)
    ensures Run(r, [e]) == Applied(r, e)
  {
    assert [e][..0] == [];
  }

  // ---------- Reported costs ----------

  predicate ReportsInHeader(e: Event, i: nat)
  {
    e.Headers? && e.attempt == i && e.cost.Some?
  }

  /** A cost reported by a header is only ever replaced by another header. */
  lemma {:induction false} HeaderCostWins(r: Record, events: seq<Event>, i: nat)
    requires i < |r.attempts| && r.attempts[i].cost.via == HeaderCost
    requires forall e | e in events :: !ReportsInHeader(e, i)
    ensures i < |Run(r, events).attempts|
    ensures Run(r, events).attempts[i].cost == r.attempts[i].cost
  {
    hide AttemptStep;
    if events != [] {
      var front, e := events[..|events| - 1], events[|events| - 1];
      assert e in events;
      HeaderCostWins(r, front, i);
      if !e.Begin? && e.attempt == i {
        HeaderCostStays(Run(r, front).attempts[i], e, i);
      }
    }
  }

  lemma HeaderCostStays(a: Attempt, e: Event, i: nat)
    requires a.cost.via == HeaderCost && !e.Begin? && e.attempt == i && !ReportsInHeader(e, i)
    ensures AttemptStep(a, e).cost == a.cost
  {
    hide Decimal, Observed, Warned, WarnedAll, Merged;
  }

  // ---------- From one body to the amount charged ----------

  lemma OneAttempt(id: nat, key: Option<int>, start: Event, b: Body)
    requires start.Begin? && start.provider != OpenRouter
    ensures var r := Run(NewRecord(id, key), [start, DecodedUsage(0, b), End(0, false)]);
            && |r.attempts| == 1
            && r.attempts[0].usage == Observed(start.provider, NO_USAGE, b).0
            && r.attempts[0].cost == NO_COST && r.attempts[0].rates == start.rates
            && r.attempts[0].policy == start.policy && r.attempts[0].status == Completed
  {
    hide Observed, WarnedAll, Merged;
    var none: seq<Event> := [];
    var one, two, three := [start], [start, DecodedUsage(0, b)], [start, DecodedUsage(0, b), End(0, false)];
    assert one[..0] == none && two[..1] == one && three[..2] == two;
    assert Run(NewRecord(id, key), none) == NewRecord(id, key);
    assert Run(NewRecord(id, key), one).attempts == [NewAttempt(start)];
    assert Run(NewRecord(id, key), two).attempts == [WithBody(NewAttempt(start), b)];
    assert Run(NewRecord(id, key), three).attempts == [Ended(WithBody(NewAttempt(start), b), false)];
  }

  lemma OneAmount(r: Record, a: Attempt)
    requires r.attempts == [a] && a.cost == NO_COST && a.status == Completed && a.policy != RequireUpstream
    requires Estimate(a.usage, a.rates).Some? && Representable(Estimate(a.usage, a.rates).value)
    ensures var s := SnapshotOf(r, true);
            && s.coverage == Complete && s.cost.source == FromEstimate
            && s.cost.amount.Some? && Representable(s.cost.amount.value)
            && Denoted(s.cost.amount.value) == Denoted(Estimate(a.usage, a.rates).value)
  {
    hide Estimate, Bill, Representable, Denoted, Known, SourceOf, Total, SnapshotOf;
    var shown := Shown(a, true);
    assert ShownAll(r.attempts, true) == [shown];
    OneShown(r, shown);
    AmountIsTheExactSum(r, true);
    CompleteIff(r, true);
    OneTotal(shown);
  }

  lemma OneShown(r: Record, shown: Attempt)
    requires ShownAll(r.attempts, true) == [shown]
    ensures SnapshotOf(r, true).attempts == [shown]
    ensures shown.cost.amount.Some? ==> SnapshotOf(r, true).cost.source == shown.cost.source
  {
    hide Known, Total;
    assert [shown][..0] == [];
    assert SourceOf([]) == NoCost;
  }

  lemma OneTotal(a: Attempt)
    requires a.cost.amount.Some? && Representable(a.cost.amount.value)
    ensures SelectedTotal([a]) == Denoted(a.cost.amount.value)
  {
    hide Representable, Denoted;
    assert [a][..0] == [];
    assert SelectedTotal([]) == 0.0;
  }

  /**
   * A call that reaches Anthropic once, with all four rates known, is charged its prompt, completion,
   * cache reads and cache writes, each at its own rate, unless the policy demands a reported cost.
   */
  lemma OneAnthropicCallCosts(id: nat, key: Option<int>, start: Event, b: Body, rates: Rates)
    requires start.Begin? && start.provider == Anthropic && start.policy != RequireUpstream
    requires start.rates == Some(rates) && AllRates(rates)
    requires Decoded(b) && Usable(Anthropic, b) && b.hasInput && b.hasOutput
    ensures var s := SnapshotOf(Run(NewRecord(id, key), [start, DecodedUsage(0, b), End(0, false)]), true);
            && s.coverage == Complete && s.cost.source == FromEstimate
            && Representable(rates.input.value) && Representable(rates.output.value)
            && Representable(rates.cacheRead.value) && Representable(rates.cacheWrite.value)
            && s.cost.amount.Some? && Representable(s.cost.amount.value)
            && Denoted(s.cost.amount.value) ==
               Denoted(rates.input.value) * b.prompt as real + Denoted(rates.output.value) * b.completion as real +
               Denoted(rates.cacheRead.value) * b.read as real + Denoted(rates.cacheWrite.value) * b.write as real
  {
    hide Run, SnapshotOf, Estimate, Representable, Denoted, Observed, AllRates, Usable, Decoded;
    OneAttempt(id, key, start, b);
    NoUsageIsConsistent();
    AnthropicBodyCosts(NO_USAGE, b, rates);
    var r := Run(NewRecord(id, key), [start, DecodedUsage(0, b), End(0, false)]);
    OneAmount(r, r.attempts[0]);
  }
}

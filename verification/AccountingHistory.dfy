/**
 * What an attempt of an accounting record holds, read off the history of the events about it: its
 * status, its reported cost, its evidence, its warnings and its counts.
 */
module AccountingHistory {
  import opened Deployments
  import opened Tokens
  import opened Decimals
  import opened Pricing
  import opened Accounting

  // ---------- The events of one attempt ----------

  function Begins(events: seq<Event>): nat
  {
    if events == [] then 0
    else Begins(events[..|events| - 1]) + if events[|events| - 1].Begin? then 1 else 0
  }

  /** The event that begins attempt `i`. */
  function Start(events: seq<Event>, i: nat): (e: Event)
    requires i < Begins(events)
    ensures e.Begin?
  {
    var front, last := events[..|events| - 1], events[|events| - 1];
    if i < Begins(front) then Start(front, i) else last
  }

  /** The events about attempt `i` once it has begun. */
  function About(events: seq<Event>, i: nat): (mine: seq<Event>)
    ensures forall e | e in mine :: !e.Begin?
  {
    if events == [] then []
    else
      var front, last := events[..|events| - 1], events[|events| - 1];
      About(front, i) + if !last.Begin? && last.attempt == i && i < Begins(front) then [last] else []
  }

  ghost predicate NoBegin(mine: seq<Event>)
  {
    forall e | e in mine :: !e.Begin?
  }

  ghost function Lived(a: Attempt, mine: seq<Event>): Attempt
    requires NoBegin(mine)
  {
    if mine == [] then a
    else
      var front, last := mine[..|mine| - 1], mine[|mine| - 1];
      assert last in mine && forall e | e in front :: e in mine;
      AttemptStep(Lived(a, front), last)
  }

  lemma LivedSnoc(a: Attempt, mine: seq<Event>, e: Event)
    requires NoBegin(mine) && !e.Begin?
    ensures NoBegin(mine + [e]) && Lived(a, mine + [e]) == AttemptStep(Lived(a, mine), e)
  {
    hide AttemptStep;
    assert (mine + [e])[..|mine|] == mine;
  }

  /** An attempt is what its own events make of it; no other event touches it. */
  lemma {:induction false} LivesAlone(id: nat, key: Option<int>, events: seq<Event>, i: nat)
    ensures var attempts := Run(NewRecord(id, key), events).attempts;
            && |attempts| == Begins(events)
            && (i < |attempts| ==> NoBegin(About(events, i)) &&
                                   attempts[i] == Lived(NewAttempt(Start(events, i)), About(events, i)))
  {
    hide AttemptStep, Lived;
    if events != [] {
      var front, last := events[..|events| - 1], events[|events| - 1];
      LivesAlone(id, key, front, i);
      if i < Begins(front) {
        if !last.Begin? && last.attempt == i {
          LivedSnoc(NewAttempt(Start(front, i)), About(front, i), last);
        } else {
          assert About(events, i) == About(front, i);
        }
      } else if i < Begins(events) {
        NothingAbout(front, i);
        assert About(events, i) == [];
        NothingLived(NewAttempt(last));
      }
    }
  }

  lemma NothingLived(a: Attempt)
    ensures NoBegin([]) && Lived(a, []) == a
  {
  }

  lemma {:induction false} NothingAbout(events: seq<Event>, i: nat)
    requires Begins(events) <= i
    ensures About(events, i) == []
  {
    if events != [] {
      NothingAbout(events[..|events| - 1], i);
    }
  }

  // ---------- What the events say ----------

  function Ending(mine: seq<Event>): Status
  {
    if mine == [] then Pending
    else if mine[|mine| - 1].End? then if mine[|mine| - 1].failed then Failed else Completed
    else Ending(mine[..|mine| - 1])
  }

  /** The usage object that an event carries. */
  function BodyOf(e: Event): Option<Body>
  {
    match e
    case DecodedUsage(_, b) => Some(b)
    case RawBody(_, _, u) => u
    case _ => None
  }

  /** The cost that an event reports by a way; only bodies of OpenRouter report costs. */
  function CostText(p: Provider, e: Event, via: Via): Option<string>
  {
    match via
    case HeaderCost => if e.Headers? then e.cost else None
    case BodyCost => if p == OpenRouter && BodyOf(e).Some? then BodyOf(e).value.cost else None
    case NotReported => None
  }

  /** The last valid cost reported by a way, in canonical form. */
  function LastCost(p: Provider, mine: seq<Event>, via: Via): Option<string>
  {
    if mine == [] then None
    else
      var text := CostText(p, mine[|mine| - 1], via);
      if text.Some? && Decimal(text.value).Some? then Decimal(text.value) else LastCost(p, mine[..|mine| - 1], via)
  }

  predicate HasRaw(mine: seq<Event>)
  {
    exists i | 0 <= i < |mine| :: mine[i].RawBody?
  }

  /** The objects of usage fields seen: those of raw bodies, and until the first of these all others too. */
  function Seen(mine: seq<Event>): seq<map<string, string>>
  {
    if mine == [] then []
    else
      var front := mine[..|mine| - 1];
      Seen(front) +
      match mine[|mine| - 1]
      case RawBody(_, native, _) => if native.Some? then [native.value] else []
      case DecodedUsage(_, b) => if b.fields.Some? && !HasRaw(front) then [b.fields.value] else []
      case _ => []
  }

  /** All fields of the objects; for each field the last object that has it decides. */
  ghost predicate Overlaid(native: Option<map<string, string>>, objects: seq<map<string, string>>)
  {
    && (native.Some? <==> objects != [])
    && (native.Some? ==>
          && (forall k :: k in native.value <==> exists j | 0 <= j < |objects| :: k in objects[j])
          && (forall k, j | 0 <= j < |objects| && Decides(objects, j, k) ::
                k in native.value && native.value[k] == objects[j][k]))
  }

  ghost predicate Decides(objects: seq<map<string, string>>, j: nat, k: string)
    requires j < |objects|
  {
    k in objects[j] && forall l | j < l < |objects| :: k !in objects[l]
  }

  /** What is wrong with the counts of a body. */
  predicate Wrong(p: Provider, b: Body, w: Warning)
  {
    var negative := b.prompt < 0 || b.completion < 0 || b.read < 0 || b.write < 0;
    var input := b.prompt + if p == Anthropic then b.read + b.write else 0;
    var cached := if b.cachedInput.Some? then b.cachedInput else b.cachedPrompt;
    var reasoning := if b.reasoningOutput.Some? then b.reasoningOutput else b.reasoningCompletion;
    match w
    case NegativeCounts => negative
    case Overflow => !negative && input + b.completion > MAX_INT64
    case BadCached =>
      !negative && input <= MAX_INT64 && p != Anthropic && cached.Some? && !(0 <= cached.value <= b.prompt)
    case BadReasoning =>
      !negative && input <= MAX_INT64 && reasoning.Some? && !(0 <= reasoning.value <= b.completion)
    case _ => false
  }

  predicate BadNumberIn(total: HeaderTotal)
  {
    total.BadNumber? || (total.Number? && total.n < 0)
  }

  /** What an event gives reason to warn about. */
  predicate WarnsOf(p: Provider, e: Event, w: Warning)
  {
    || (BodyOf(e).Some? && Wrong(p, BodyOf(e).value, w))
    || (w == BadTotal && e.Headers? && BadNumberIn(e.total))
    || (w.BadCost? && CostText(p, e, w.via).Some? && Decimal(CostText(p, e, w.via).value).None?)
  }

  ghost predicate NoDoubles(warnings: seq<Warning>)
  {
    forall i, j | 0 <= i < j < |warnings| :: warnings[i] != warnings[j]
  }

  ghost predicate WarningsAre(p: Provider, mine: seq<Event>, warnings: seq<Warning>)
  {
    && NoDoubles(warnings)
    && (forall w :: w in warnings <==> exists i | 0 <= i < |mine| :: WarnsOf(p, mine[i], w))
  }

  /** The counts after the totals of headers and the bodies, in order. */
  function Heard(p: Provider, mine: seq<Event>): Usage
  {
    if mine == [] then NO_USAGE
    else
      var before, last := Heard(p, mine[..|mine| - 1]), mine[|mine| - 1];
      if last.Headers? && last.total.Number? && last.total.n >= 0 then
        before.(total := Some(last.total.n), source := FromHeader)
      else if BodyOf(last).Some? then Observed(p, before, BodyOf(last).value).0
      else before
  }

  // ---------- One more event ----------

  lemma WarnedIs(warnings: seq<Warning>, w: Warning)
    requires NoDoubles(warnings)
    ensures NoDoubles(Warned(warnings, w))
    ensures forall v :: v in Warned(warnings, w) <==> v in warnings || v == w
  {
  }

  lemma {:induction false} WarnedAllAre(warnings: seq<Warning>, more: seq<Warning>)
    requires NoDoubles(warnings)
    ensures NoDoubles(WarnedAll(warnings, more))
    ensures forall w :: w in WarnedAll(warnings, more) <==> w in warnings || w in more
    decreases |more|
  {
    hide NoDoubles, Warned;
    if more != [] {
      WarnedIs(warnings, more[0]);
      WarnedAllAre(Warned(warnings, more[0]), more[1..]);
      assert more == [more[0]] + more[1..];
    }
  }

  lemma ObservedWarns(p: Provider, before: Usage, b: Body, w: Warning)
    ensures w in Observed(p, before, b).1 <==> Wrong(p, b, w)
  {
  }

  ghost predicate SameWarnings(before: seq<Warning>, after: seq<Warning>, p: Provider, e: Event)
  {
    NoDoubles(after) && forall w :: w in after <==> w in before || WarnsOf(p, e, w)
  }

  lemma ReportWarns(a: Attempt, text: string, via: Via)
    requires NoDoubles(a.warnings)
    ensures var b := WithReport(a, text, via);
            && NoDoubles(b.warnings)
            && forall w :: w in b.warnings <==> w in a.warnings || (w == BadCost(via) && Decimal(text).None?)
  {
    hide Decimal, NoDoubles, WarnedAll;
    WarnedAllAre(a.warnings, Reported(a.cost, text, via).1);
  }

  lemma BodyWarns(a: Attempt, b: Body)
    requires NoDoubles(a.warnings)
    ensures var after := WithBody(a, b);
            && NoDoubles(after.warnings)
            && forall w :: w in after.warnings <==>
                           || w in a.warnings || Wrong(a.provider, b, w)
                           || (w == BadCost(BodyCost) && a.provider == OpenRouter && b.cost.Some? &&
                               Decimal(b.cost.value).None?)
  {
    var a1 := if a.captured then a else a.(native := Merged(a.native, b.fields));
    if a.provider == OpenRouter && b.cost.Some? {
      ReportWarns(a1, b.cost.value, BodyCost);
    }
    forall w ensures w in Observed(a.provider, a.usage, b).1 <==> Wrong(a.provider, b, w) {
      ObservedWarns(a.provider, a.usage, b, w);
    }
    hide Observed, Wrong, Decimal, Merged, NoDoubles, WithReport, WarnedAll;
    var a2 := if a.provider == OpenRouter && b.cost.Some? then WithReport(a1, b.cost.value, BodyCost) else a1;
    WarnedAllAre(a2.warnings, Observed(a.provider, a.usage, b).1);
  }

  function AfterCost(a: Attempt, cost: Option<string>): seq<Warning>
  {
    if cost.Some? then WithReport(a, cost.value, HeaderCost).warnings else a.warnings
  }

  lemma HeaderWarnings(a: Attempt, cost: Option<string>, total: HeaderTotal)
    ensures WithHeaders(a, cost, total).warnings ==
            if BadNumberIn(total) then Warned(AfterCost(a, cost), BadTotal) else AfterCost(a, cost)
  {
    hide WithReport, Warned;
  }

  lemma CostWarns(a: Attempt, cost: Option<string>)
    requires NoDoubles(a.warnings)
    ensures NoDoubles(AfterCost(a, cost))
    ensures forall w :: w in AfterCost(a, cost) <==>
                        w in a.warnings || (w == BadCost(HeaderCost) && cost.Some? && Decimal(cost.value).None?)
  {
    hide Decimal, NoDoubles, WithReport;
    if cost.Some? {
      ReportWarns(a, cost.value, HeaderCost);
    }
  }

  lemma HeadersAreAllThatWarn(p: Provider, i: nat, cost: Option<string>, total: HeaderTotal, w: Warning)
    ensures WarnsOf(p, Headers(i, cost, total), w) <==>
            || (w == BadTotal && BadNumberIn(total))
            || (w == BadCost(HeaderCost) && cost.Some? && Decimal(cost.value).None?)
  {
    hide Wrong, Decimal;
  }

  lemma HeadersWarn(a: Attempt, i: nat, cost: Option<string>, total: HeaderTotal)
    requires NoDoubles(a.warnings)
    ensures SameWarnings(a.warnings, WithHeaders(a, cost, total).warnings, a.provider, Headers(i, cost, total))
  {
    hide Decimal, NoDoubles, WithHeaders, AfterCost, Warned, WarnsOf, BadNumberIn;
    HeaderWarnings(a, cost, total);
    CostWarns(a, cost);
    WarnedIs(AfterCost(a, cost), BadTotal);
    forall w {
      HeadersAreAllThatWarn(a.provider, i, cost, total, w);
    }
  }

  lemma BodyIsAllThatWarns(p: Provider, e: Event, b: Body, w: Warning)
    requires BodyOf(e) == Some(b)
    ensures WarnsOf(p, e, w) <==>
            || Wrong(p, b, w)
            || (w == BadCost(BodyCost) && p == OpenRouter && b.cost.Some? && Decimal(b.cost.value).None?)
  {
    hide Wrong, Decimal;
  }

  lemma StepWarns(a: Attempt, e: Event)
    requires !e.Begin? && NoDoubles(a.warnings)
    ensures SameWarnings(a.warnings, AttemptStep(a, e).warnings, a.provider, e)
  {
    hide WithBody, WithHeaders, Wrong, Decimal, Merged, NoDoubles;
    match e
    case Headers(i, cost, total) =>
      HeadersWarn(a, i, cost, total);
    case End(_, _) =>
    case DecodedUsage(_, b) =>
      BodyIsHeard(a, e, b);
    case RawBody(_, native, usage) =>
      if usage.Some? {
        BodyIsHeard(a.(native := Merged(a.native, native), captured := true), e, usage.value);
      }
  }

  lemma BodyIsHeard(a: Attempt, e: Event, b: Body)
    requires NoDoubles(a.warnings) && BodyOf(e) == Some(b)
    ensures SameWarnings(a.warnings, WithBody(a, b).warnings, a.provider, e)
  {
    hide WithBody, WarnsOf, Wrong, Decimal, NoDoubles;
    BodyWarns(a, b);
    forall w {
      BodyIsAllThatWarns(a.provider, e, b, w);
    }
  }

  lemma {:induction false} OverlaidSnoc(native: Option<map<string, string>>, objects: seq<map<string, string>>,
                                        latest: map<string, string>)
    requires Overlaid(native, objects)
    ensures Overlaid(Merged(native, Some(latest)), objects + [latest])
  {
    var all := objects + [latest];
    var merged := Merged(native, Some(latest)).value;
    forall k ensures k in merged <==> exists j | 0 <= j < |all| :: k in all[j] {
      if k in latest {
        assert k in all[|objects|];
      } else if k in merged {
        var j :| 0 <= j < |objects| && k in objects[j];
        assert k in all[j];
      }
    }
    forall k, j | 0 <= j < |all| && Decides(all, j, k) ensures k in merged && merged[k] == all[j][k] {
      if j < |objects| {
        assert k !in all[|objects|];
        assert forall l | j < l < |objects| :: all[l] == objects[l];
        assert Decides(objects, j, k);
      }
    }
  }

  lemma NothingOverlaid()
    ensures Overlaid(None, [])
  {
  }

  lemma SeenSnoc(mine: seq<Event>, e: Event)
    ensures Seen(mine + [e]) == Seen(mine) +
            match e
            case RawBody(_, native, _) => if native.Some? then [native.value] else []
            case DecodedUsage(_, b) => if b.fields.Some? && !HasRaw(mine) then [b.fields.value] else []
            case _ => []
  {
    assert (mine + [e])[..|mine|] == mine;
  }

  lemma StepMerges(a: Attempt, e: Event)
    requires !e.Begin?
    ensures AttemptStep(a, e).captured == (a.captured || e.RawBody?)
    ensures AttemptStep(a, e).native ==
            match e
            case RawBody(_, native, _) => Merged(a.native, native)
            case DecodedUsage(_, b) => if a.captured then a.native else Merged(a.native, b.fields)
            case _ => a.native
  {
    hide Observed, Decimal, Merged, WarnedAll;
  }

  /** The evidence and whether a raw body was seen, after one more event. */
  lemma StepSees(a: Attempt, mine: seq<Event>, e: Event)
    requires !e.Begin? && Overlaid(a.native, Seen(mine)) && a.captured == HasRaw(mine)
    ensures Overlaid(AttemptStep(a, e).native, Seen(mine + [e])) && AttemptStep(a, e).captured == HasRaw(mine + [e])
  {
    hide Overlaid, Merged, AttemptStep, Seen, HasRaw;
    StepMerges(a, e);
    SeenSnoc(mine, e);
    RawSnoc(mine, e);
    NothingMerged(a.native);
    assert Seen(mine) + [] == Seen(mine);
    if e.RawBody? && e.native.Some? {
      OverlaidSnoc(a.native, Seen(mine), e.native.value);
    }
    if e.DecodedUsage? && e.body.fields.Some? {
      OverlaidSnoc(a.native, Seen(mine), e.body.fields.value);
    }
  }

  lemma NothingMerged(native: Option<map<string, string>>)
    ensures Merged(native, None) == native
  {
  }

  lemma RawSnoc(mine: seq<Event>, e: Event)
    ensures HasRaw(mine + [e]) <==> HasRaw(mine) || e.RawBody?
  {
    var all := mine + [e];
    assert all[|mine|] == e;
    if HasRaw(mine) {
      var i :| 0 <= i < |mine| && mine[i].RawBody?;
      assert all[i].RawBody?;
    }
  }

  /** The cost as the reports make it. */
  function CostHeard(p: Provider, mine: seq<Event>): Cost
  {
    var header, body := LastCost(p, mine, HeaderCost), LastCost(p, mine, BodyCost);
    if header.Some? then NO_COST.(reported := header, via := HeaderCost)
    else if body.Some? then NO_COST.(reported := body, via := BodyCost)
    else NO_COST
  }

  lemma StepReports(a: Attempt, mine: seq<Event>, e: Event)
    requires !e.Begin? && a.cost == CostHeard(a.provider, mine)
    ensures AttemptStep(a, e).cost == CostHeard(a.provider, mine + [e])
  {
    hide Observed, Decimal, Merged, WarnedAll, LastCost;
    LastCostSnoc(a.provider, mine, e, HeaderCost);
    LastCostSnoc(a.provider, mine, e, BodyCost);
  }

  lemma LastCostSnoc(p: Provider, mine: seq<Event>, e: Event, via: Via)
    ensures LastCost(p, mine + [e], via) ==
            var text := CostText(p, e, via);
            if text.Some? && Decimal(text.value).Some? then Decimal(text.value) else LastCost(p, mine, via)
  {
    hide Decimal;
    assert (mine + [e])[..|mine|] == mine;
  }

  lemma StepCounts(a: Attempt, mine: seq<Event>, e: Event)
    requires !e.Begin? && a.usage == Heard(a.provider, mine) && a.status == Ending(mine)
    ensures var b := AttemptStep(a, e);
            && b.usage == Heard(a.provider, mine + [e]) && b.status == Ending(mine + [e])
            && b == a.(usage := b.usage, status := b.status, cost := b.cost, native := b.native,
                       captured := b.captured, warnings := b.warnings)
  {
    hide Observed, Decimal, Merged, WarnedAll;
    assert (mine + [e])[..|mine|] == mine;
  }

  // ---------- The whole history ----------

  /** An attempt as its history tells it. */
  ghost predicate Tells(start: Event, mine: seq<Event>, a: Attempt)
    requires start.Begin?
  {
    && a.provider == start.provider && a.deployment == start.deployment && a.pool == start.pool
    && a.policy == start.policy && a.rates == start.rates
    && a.status == Ending(mine)
    && a.usage == Heard(start.provider, mine)
    && a.cost == CostHeard(start.provider, mine)
    && Overlaid(a.native, Seen(mine)) && a.captured == HasRaw(mine)
    && WarningsAre(start.provider, mine, a.warnings)
  }

  lemma WarningsSnoc(p: Provider, mine: seq<Event>, e: Event, before: seq<Warning>, after: seq<Warning>)
    requires WarningsAre(p, mine, before) && SameWarnings(before, after, p, e)
    ensures WarningsAre(p, mine + [e], after)
  {
    hide WarnsOf;
    var all := mine + [e];
    forall w ensures w in after <==> exists i | 0 <= i < |all| :: WarnsOf(p, all[i], w) {
      if w in before {
        var i :| 0 <= i < |mine| && WarnsOf(p, mine[i], w);
        assert WarnsOf(p, all[i], w);
      }
      if WarnsOf(p, e, w) {
        assert WarnsOf(p, all[|mine|], w);
      }
      if i :| 0 <= i < |all| && WarnsOf(p, all[i], w) {
        assert i < |mine| ==> WarnsOf(p, mine[i], w);
      }
    }
  }

  lemma {:induction false} LifeTells(start: Event, mine: seq<Event>)
    requires start.Begin? && NoBegin(mine)
    ensures Tells(start, mine, Lived(NewAttempt(start), mine))
  {
    hide WarningsAre, SameWarnings, Overlaid, AttemptStep, CostHeard, Heard, Ending, Seen, HasRaw, NoBegin, Lived;
    if mine == [] {
      FreshTells(start);
    } else {
      var front, last := mine[..|mine| - 1], mine[|mine| - 1];
      assert mine == front + [last];
      NoBeginFront(front, last);
      LifeTells(start, front);
      var a := Lived(NewAttempt(start), front);
      LivedSnoc(NewAttempt(start), front, last);
      StepReports(a, front, last);
      StepSees(a, front, last);
      StepCounts(a, front, last);
      DistinctWarnings(start.provider, front, a.warnings);
      StepWarns(a, last);
      WarningsSnoc(start.provider, front, last, a.warnings, AttemptStep(a, last).warnings);
    }
  }

  lemma NoBeginFront(front: seq<Event>, last: Event)
    ensures NoBegin(front + [last]) <==> NoBegin(front) && !last.Begin?
  {
    assert NoBegin(front + [last]) ==> forall e | e in front :: e in front + [last];
    assert last in front + [last];
  }

  lemma DistinctWarnings(p: Provider, mine: seq<Event>, warnings: seq<Warning>)
    requires WarningsAre(p, mine, warnings)
    ensures NoDoubles(warnings)
  {
  }

  lemma FreshTells(start: Event)
    requires start.Begin?
    ensures Lived(NewAttempt(start), []) == NewAttempt(start) && Tells(start, [], NewAttempt(start))
  {
    NothingOverlaid();
  }

  /**
   * After any events, an attempt is what the events about it tell: begun as it was, ended as it was
   * ended last, with the last valid cost of a header or, without one, of an OpenRouter body; the usage
   * fields seen, later ones first; one warning for each kind of mistake; and the counts of its bodies
   * and header totals in order.
   */
  lemma HistoryTells(id: nat, key: Option<int>, events: seq<Event>, i: nat)
    requires i < Begins(events)
    ensures var attempts := Run(NewRecord(id, key), events).attempts;
            && |attempts| == Begins(events)
            && Tells(Start(events, i), About(events, i), attempts[i])
  {
    hide Tells, Run;
    LivesAlone(id, key, events, i);
    LifeTells(Start(events, i), About(events, i));
  }

  // ---------- What a snapshot shows of it ----------

  /** An attempt in a snapshot: priced by its policy and, in a final one, no longer pending. */
  predicate ShownAs(a: Attempt, b: Attempt, final: bool)
  {
    && b == a.(cost := b.cost, status := b.status)
    && b.status == (if a.status == Pending && final then Interrupted else a.status)
    && b.cost.reported == a.cost.reported && b.cost.via == a.cost.via
    && b.cost.estimated == Estimate(a.usage, a.rates) && b.cost.components == Bill(a.usage, a.rates)
    && (if a.cost.reported.Some? && a.policy != EstimateOnly then
          b.cost.amount == a.cost.reported && b.cost.source == FromUpstream
        else if b.cost.estimated.Some? && a.policy != RequireUpstream then
          b.cost.amount == b.cost.estimated && b.cost.source == FromEstimate
        else b.cost.amount == None && b.cost.source == NoCost)
  }

  /** The source of a total: the common one of the attempts with an amount, or mixed. */
  ghost predicate SourceIs(attempts: seq<Attempt>, source: CostSource)
  {
    && (source == NoCost <==> forall a | a in attempts :: a.cost.amount.None?)
    && (source == MixedCosts <==>
          exists a, b | a in attempts && b in attempts ::
            a.cost.amount.Some? && b.cost.amount.Some? && a.cost.source != b.cost.source)
    && (source != MixedCosts ==> forall a | a in attempts && a.cost.amount.Some? :: a.cost.source == source)
  }

  lemma {:induction false} SourceIsFound(attempts: seq<Attempt>)
    requires forall a | a in attempts ::
               a.cost.source != MixedCosts && (a.cost.source == NoCost <==> a.cost.amount.None?)
    ensures SourceIs(attempts, SourceOf(attempts))
  {
    if attempts != [] {
      var front, last := attempts[..|attempts| - 1], attempts[|attempts| - 1];
      assert last in attempts && forall a | a in front :: a in attempts;
      assert forall a | a in attempts :: a in front || a == last;
      SourceIsFound(front);
    }
  }

  /** When all amounts of a kind are known, they are listed in order. */
  lemma {:induction false} AllKnown(attempts: seq<Attempt>, which: Which)
    ensures |Known(attempts, which)| == |attempts| <==>
            forall i | 0 <= i < |attempts| :: Pick(which, attempts[i].cost).Some?
    ensures |Known(attempts, which)| == |attempts| ==>
              forall i | 0 <= i < |attempts| :: Some(Known(attempts, which)[i]) == Pick(which, attempts[i].cost)
  {
    hide Pick;
    if attempts != [] {
      AllKnown(attempts[..|attempts| - 1], which);
    }
  }

  /** A total that needs every attempt to be known: the sum of all, in order. */
  ghost predicate TotalIs(total: Option<string>, amounts: seq<Option<string>>)
  {
    && (total.Some? <==> amounts != [] && forall i | 0 <= i < |amounts| :: amounts[i].Some?)
    && (total.Some? ==>
          exists texts: seq<string> ::
            && |texts| == |amounts| && (forall i | 0 <= i < |texts| :: Some(texts[i]) == amounts[i])
            && total.value == Format(SumOfUnits(texts)))
  }

  ghost function Each(attempts: seq<Attempt>, which: Which): (amounts: seq<Option<string>>)
    ensures |amounts| == |attempts| && forall i | 0 <= i < |amounts| :: amounts[i] == Pick(which, attempts[i].cost)
  {
    seq(|attempts|, i requires 0 <= i < |attempts| => Pick(which, attempts[i].cost))
  }

  lemma TotalIsFound(attempts: seq<Attempt>, which: Which)
    ensures TotalIs(TotalOfAll(attempts, which), Each(attempts, which))
  {
    hide Pick, Format, SumOfUnits;
    AllKnown(attempts, which);
    var texts := Known(attempts, which);
    if TotalOfAll(attempts, which).Some? {
      assert |texts| == |Each(attempts, which)|;
      assert TotalOfAll(attempts, which).value == Format(SumOfUnits(texts));
    }
  }

  /** The sum of one count over the first attempts, as far as it is known. */
  function PartialSum(attempts: seq<Attempt>, count: Usage -> Option<int>, n: nat): int
    requires n <= |attempts|
  {
    if n == 0 then 0
    else
      var last := count(attempts[n - 1].usage);
      PartialSum(attempts, count, n - 1) + if last.Some? then last.value else 0
  }

  /** A total count: known if it is known of every attempt and no partial sum leaves 64 bits. */
  ghost predicate AddsUp(attempts: seq<Attempt>, count: Usage -> Option<int>, total: Option<int>)
  {
    && (total.Some? <==>
          && (forall i | 0 <= i < |attempts| :: count(attempts[i].usage).Some?)
          && (forall n | 0 <= n <= |attempts| :: PartialSum(attempts, count, n) <= MAX_INT64))
    && (total.Some? ==> total.value == PartialSum(attempts, count, |attempts|))
  }

  lemma {:induction false} SamePartialSum(attempts: seq<Attempt>, more: seq<Attempt>, count: Usage -> Option<int>,
                                          n: nat)
    requires n <= |attempts| && attempts <= more
    ensures PartialSum(attempts, count, n) == PartialSum(more, count, n)
  {
    if n > 0 {
      SamePartialSum(attempts, more, count, n - 1);
    }
  }

  lemma AddsUpSnoc(front: seq<Attempt>, last: Attempt, count: Usage -> Option<int>, before: Option<int>)
    requires AddsUp(front, count, before)
    ensures var one := count(last.usage);
            AddsUp(front + [last], count,
                   if before.None? || one.None? || one.value > MAX_INT64 - before.value then None
                   else Some(before.value + one.value))
  {
    var all := front + [last];
    var n := |front|;
    forall m: nat | m <= n
      ensures PartialSum(front, count, m) == PartialSum(all, count, m)
    {
      SamePartialSum(front, all, count, m);
    }
    assert all[n] == last;
    assert PartialSum(all, count, n + 1) ==
           PartialSum(all, count, n) + if count(last.usage).Some? then count(last.usage).value else 0;
    if before.None? {
      if i :| 0 <= i < n && count(front[i].usage).None? {
        assert count(all[i].usage).None?;
      } else {
        var m :| 0 <= m <= n && PartialSum(front, count, m) > MAX_INT64;
        assert PartialSum(all, count, m) > MAX_INT64;
      }
    }
  }

  lemma {:induction false} CountAddsUp(attempts: seq<Attempt>, counter: Counter, count: Usage -> Option<int>)
    requires forall i | 0 <= i < |attempts| :: Count(counter, attempts[i].usage) == count(attempts[i].usage)
    ensures AddsUp(attempts, count, AddUp(attempts, counter))
  {
    hide Count;
    if attempts != [] {
      var front, last := attempts[..|attempts| - 1], attempts[|attempts| - 1];
      CountAddsUp(front, counter, count);
      AddsUpSnoc(front, last, count, AddUp(front, counter));
      assert attempts == front + [last];
      hide AddsUp;
    }
  }

  /**
   * The counts of a record are those of its attempts added up, each by itself; the source is the one
   * that all attempts have, mixed if they differ, and none if there is no count.
   */
  lemma UsageAddsUp(attempts: seq<Attempt>)
    requires attempts != []
    ensures var u := Aggregated(attempts);
            && AddsUp(attempts, (v: Usage) => v.input, u.input)
            && AddsUp(attempts, (v: Usage) => v.output, u.output)
            && AddsUp(attempts, (v: Usage) => v.total, u.total)
            && AddsUp(attempts, (v: Usage) => v.cacheRead, u.cacheRead)
            && AddsUp(attempts, (v: Usage) => v.cacheWrite, u.cacheWrite)
            && AddsUp(attempts, (v: Usage) => v.reasoning, u.reasoning)
            && u.source == (if u.input.None? && u.output.None? && u.total.None? then NoTokens
                            else if forall a, b | a in attempts && b in attempts :: a.usage.source == b.usage.source
                            then attempts[0].usage.source else MixedOrigins)
  {
    hide AddsUp, AddUp;
    CountAddsUp(attempts, InputCount, (v: Usage) => v.input);
    CountAddsUp(attempts, OutputCount, (v: Usage) => v.output);
    CountAddsUp(attempts, TotalCount, (v: Usage) => v.total);
    CountAddsUp(attempts, ReadCount, (v: Usage) => v.cacheRead);
    CountAddsUp(attempts, WriteCount, (v: Usage) => v.cacheWrite);
    CountAddsUp(attempts, ReasoningCount, (v: Usage) => v.reasoning);
    assert attempts[0] in attempts;
  }

  /**
   * A snapshot shows every attempt, priced by its policy; a final one interrupts what was pending.
   * What the record says of reported and estimated costs covers all attempts or nothing, its source
   * is that of the amounts, and a single attempt passes on its components and the way of its report.
   */
  lemma SnapshotShows(r: Record, final: bool)
    ensures var s := SnapshotOf(r, final);
            && s.id == r.id && s.key == r.key && s.state == (if final then Final else r.state)
            && |s.attempts| == |r.attempts|
            && (forall i | 0 <= i < |r.attempts| :: ShownAs(r.attempts[i], s.attempts[i], final))
            && SourceIs(s.attempts, s.cost.source)
            && TotalIs(s.cost.reported, Each(s.attempts, ReportedAmount))
            && TotalIs(s.cost.estimated, Each(s.attempts, EstimatedAmount))
            && s.cost.via == (if |s.attempts| == 1 then s.attempts[0].cost.via else NotReported)
            && s.cost.components == (if |s.attempts| == 1 then s.attempts[0].cost.components else [])
  {
    hide Estimate, Bill, Known, SourceOf, SourceIs, Each, TotalIs, TotalOfAll, CoverageOf, Aggregated, Total;
    var shown := ShownAll(r.attempts, final);
    forall a | a in shown
      ensures a.cost.source != MixedCosts && (a.cost.source == NoCost <==> a.cost.amount.None?)
    {
      var i :| 0 <= i < |shown| && shown[i] == a;
    }
    SourceIsFound(shown);
    TotalIsFound(shown, ReportedAmount);
    TotalIsFound(shown, EstimatedAmount);
  }
}

/**
 * The record of one logical request: `Collector`, `Snapshot`, `aggregateUsage` and `Restore` of
 * `internal/accounting/accounting.go`.
 */
module Accounting {
  import opened Deployments
  import opened Tokens
  import opened Decimals
  import opened Pricing

  datatype Status = Pending | Completed | Failed | Interrupted

  /** `native` holds the fields of the usage objects seen; `captured` says they came from a raw body. */
  datatype Attempt = Attempt(
    provider: Provider, deployment: DeploymentKey, pool: string, policy: Policy, status: Status,
    usage: Usage, cost: Cost, rates: Option<Rates>, warnings: seq<Warning>,
    native: Option<map<string, string>>, captured: bool)

  datatype RecordState = Provisional | Final

  datatype Coverage = UnknownCoverage | Partial | Complete

  datatype Record = Record(
    id: nat, key: Option<int>, state: RecordState, coverage: Coverage,
    usage: Usage, cost: Cost, attempts: seq<Attempt>)

  // ---------- What an attempt learns ----------

  datatype HeaderTotal = NoTotal | BadNumber | Number(n: int)

  datatype Event =
    | Begin(provider: Provider, deployment: DeploymentKey, pool: string, policy: Policy, rates: Option<Rates>)
    | Headers(attempt: nat, cost: Option<string>, total: HeaderTotal)
    | RawBody(attempt: nat, native: Option<map<string, string>>, usage: Option<Body>)
    | DecodedUsage(attempt: nat, body: Body)
    | End(attempt: nat, failed: bool)

  predicate Possible(e: Event)
  {
    match e
    case Headers(_, _, Number(n)) => Fits(n)
    case RawBody(_, _, Some(b)) => Decoded(b)
    case DecodedUsage(_, b) => Decoded(b)
    case _ => true
  }

  function Warned(warnings: seq<Warning>, w: Warning): seq<Warning>
  {
    if w in warnings then warnings else warnings + [w]
  }

  function WarnedAll(warnings: seq<Warning>, more: seq<Warning>): seq<Warning>
    decreases |more|
  {
    if more == [] then warnings else WarnedAll(Warned(warnings, more[0]), more[1..])
  }

  /** Fields seen later replace fields of the same name; what is not an object changes nothing. */
  function Merged(seen: Option<map<string, string>>, latest: Option<map<string, string>>): Option<map<string, string>>
  {
    if latest.None? then seen else Some((if seen.None? then map[] else seen.value) + latest.value)
  }

  function WithReport(a: Attempt, text: string, via: Via): Attempt
  {
    var (cost, warnings) := Reported(a.cost, text, via);
    a.(cost := cost, warnings := WarnedAll(a.warnings, warnings))
  }

  function WithBody(a: Attempt, b: Body): Attempt
  {
    var a1 := if a.captured then a else a.(native := Merged(a.native, b.fields));
    var a2 := if a.provider == OpenRouter && b.cost.Some? then WithReport(a1, b.cost.value, BodyCost) else a1;
    var (usage, warnings) := Observed(a.provider, a.usage, b);
    a2.(usage := usage, warnings := WarnedAll(a2.warnings, warnings))
  }

  function WithHeaders(a: Attempt, cost: Option<string>, total: HeaderTotal): Attempt
  {
    var a1 := if cost.Some? then WithReport(a, cost.value, HeaderCost) else a;
    match total
    case NoTotal => a1
    case BadNumber => a1.(warnings := Warned(a1.warnings, BadTotal))
    case Number(n) =>
      if n < 0 then a1.(warnings := Warned(a1.warnings, BadTotal))
      else a1.(usage := WithHeaderTotal(a1.usage, n))
  }

  function WithRawBody(a: Attempt, native: Option<map<string, string>>, usage: Option<Body>): Attempt
  {
    var a1 := a.(native := Merged(a.native, native), captured := true);
    if usage.Some? then WithBody(a1, usage.value) else a1
  }

  function Ended(a: Attempt, failed: bool): Attempt
  {
    a.(status := if failed then Failed else Completed)
  }

  function AttemptStep(a: Attempt, e: Event): Attempt
    requires !e.Begin?
  {
    match e
    case Headers(_, cost, total) => WithHeaders(a, cost, total)
    case RawBody(_, native, usage) => WithRawBody(a, native, usage)
    case DecodedUsage(_, b) => WithBody(a, b)
    case End(_, failed) => Ended(a, failed)
  }

  function NewAttempt(e: Event): Attempt
    requires e.Begin?
  {
    Attempt(e.provider, e.deployment, e.pool, e.policy, Pending, NO_USAGE, NO_COST, e.rates, [], None, false)
  }

  function StepAttempts(attempts: seq<Attempt>, e: Event): seq<Attempt>
  {
    if e.Begin? then attempts + [NewAttempt(e)]
    else if e.attempt < |attempts| then attempts[e.attempt := AttemptStep(attempts[e.attempt], e)]
    else attempts
  }

  function Applied(r: Record, e: Event): Record
  {
    r.(attempts := StepAttempts(r.attempts, e))
  }

  function Run(r: Record, events: seq<Event>): Record
  {
    if events == [] then r else Applied(Run(r, events[..|events| - 1]), events[|events| - 1])
  }

  function NewRecord(id: nat, key: Option<int>): Record
  {
    Record(id, key, Provisional, UnknownCoverage, NO_USAGE, NO_COST, [])
  }

  // ---------- Snapshots ----------

  datatype Which = Amount | ReportedAmount | EstimatedAmount

  function Pick(which: Which, cost: Cost): Option<string>
  {
    match which
    case Amount => cost.amount
    case ReportedAmount => cost.reported
    case EstimatedAmount => cost.estimated
  }

  datatype Counter = InputCount | OutputCount | TotalCount | ReadCount | WriteCount | ReasoningCount

  function Count(counter: Counter, u: Usage): Option<int>
  {
    match counter
    case InputCount => u.input
    case OutputCount => u.output
    case TotalCount => u.total
    case ReadCount => u.cacheRead
    case WriteCount => u.cacheWrite
    case ReasoningCount => u.reasoning
  }

  /** An attempt as a snapshot shows it: priced, and interrupted if a final snapshot finds it open. */
  function Shown(a: Attempt, final: bool): Attempt
  {
    a.(cost := Priced(a.usage, a.rates, a.policy, a.cost),
       status := if a.status == Pending && final then Interrupted else a.status)
  }

  function ShownAll(attempts: seq<Attempt>, final: bool): (shown: seq<Attempt>)
    ensures |shown| == |attempts|
    ensures forall i | 0 <= i < |attempts| :: shown[i] == Shown(attempts[i], final)
  {
    seq(|attempts|, i requires 0 <= i < |attempts| => Shown(attempts[i], final))
  }

  /** The amounts of one kind that are known. */
  function Known(attempts: seq<Attempt>, which: Which): (amounts: seq<string>)
    ensures |amounts| <= |attempts|
  {
    if attempts == [] then []
    else
      var last := Pick(which, attempts[|attempts| - 1].cost);
      Known(attempts[..|attempts| - 1], which) + if last.Some? then [last.value] else []
  }

  function SourceOf(attempts: seq<Attempt>): CostSource
  {
    if attempts == [] then NoCost
    else
      var before, last := SourceOf(attempts[..|attempts| - 1]), attempts[|attempts| - 1].cost;
      if last.amount.None? then before
      else if before == NoCost then last.source
      else if before == last.source then before
      else MixedCosts
  }

  /** An estimate for an attempt that did not complete may be far off. */
  predicate Doubtful(a: Attempt)
  {
    a.cost.source == FromEstimate && (a.status == Failed || a.status == Interrupted)
  }

  function TotalOfAll(attempts: seq<Attempt>, which: Which): Option<string>
  {
    if attempts != [] && |Known(attempts, which)| == |attempts| then Some(Total(Known(attempts, which))) else None
  }

  function TotalCost(attempts: seq<Attempt>): Cost
  {
    Cost(
      if Known(attempts, Amount) != [] then Some(Total(Known(attempts, Amount))) else None,
      SourceOf(attempts),
      TotalOfAll(attempts, ReportedAmount),
      TotalOfAll(attempts, EstimatedAmount),
      if |attempts| == 1 then attempts[0].cost.via else NotReported,
      if |attempts| == 1 then attempts[0].cost.components else [])
  }

  function CoverageOf(attempts: seq<Attempt>): Coverage
  {
    if Known(attempts, Amount) == [] then UnknownCoverage
    else if |Known(attempts, Amount)| == |attempts| && !(exists a | a in attempts :: Doubtful(a)) then Complete
    else Partial
  }

  /** The sum of counts that are all known, as long as it fits in 64 bits. */
  function AddUp(attempts: seq<Attempt>, counter: Counter): Option<int>
  {
    if attempts == [] then Some(0)
    else
      var before := AddUp(attempts[..|attempts| - 1], counter);
      var last := Count(counter, attempts[|attempts| - 1].usage);
      if before.None? || last.None? || last.value > MAX_INT64 - before.value then None
      else Some(before.value + last.value)
  }

  function OriginOf(attempts: seq<Attempt>): Origin
    requires attempts != []
  {
    if forall a | a in attempts :: a.usage.source == attempts[0].usage.source
    then attempts[0].usage.source else MixedOrigins
  }

  function Aggregated(attempts: seq<Attempt>): Usage
  {
    if attempts == [] then NO_USAGE
    else
      var u := Usage(
        OriginOf(attempts),
        AddUp(attempts, InputCount), AddUp(attempts, OutputCount), AddUp(attempts, TotalCount),
        AddUp(attempts, ReadCount), AddUp(attempts, WriteCount), AddUp(attempts, ReasoningCount));
      if Nothing(u) then u.(source := NoTokens) else u
  }

  function SnapshotOf(r: Record, final: bool): Record
  {
    var shown := ShownAll(r.attempts, final);
    Record(r.id, r.key, if final then Final else r.state, CoverageOf(shown), Aggregated(shown), TotalCost(shown), shown)
  }

  // ---------- The collector ----------

  function UpTo<T>(s: seq<T>, n: nat): seq<T>
    requires n <= |s|
  {
    s[..n]
  }

  lemma UpToNext(attempts: seq<Attempt>, n: nat, which: Which, counter: Counter)
    requires n < |attempts|
    ensures var last := Pick(which, attempts[n].cost);
            Known(UpTo(attempts, n + 1), which) ==
            Known(UpTo(attempts, n), which) + if last.Some? then [last.value] else []
    ensures var before, last := AddUp(UpTo(attempts, n), counter), Count(counter, attempts[n].usage);
            AddUp(UpTo(attempts, n + 1), counter) ==
            if before.None? || last.None? || last.value > MAX_INT64 - before.value then None
            else Some(before.value + last.value)
    ensures var before, last := SourceOf(UpTo(attempts, n)), attempts[n].cost;
            SourceOf(UpTo(attempts, n + 1)) ==
            if last.amount.None? then before
            else if before == NoCost then last.source
            else if before == last.source then before
            else MixedCosts
  {
    assert UpTo(attempts, n + 1)[..n] == UpTo(attempts, n);
  }

  lemma {:induction false} UnknownStays(attempts: seq<Attempt>, n: nat, counter: Counter)
    requires n <= |attempts| && AddUp(UpTo(attempts, n), counter).None?
    ensures AddUp(attempts, counter).None?
    decreases |attempts| - n
  {
    if n == |attempts| {
      assert UpTo(attempts, n) == attempts;
    } else {
      UpToNext(attempts, n, Amount, counter);
      UnknownStays(attempts, n + 1, counter);
    }
  }

  method AddCounts(attempts: seq<Attempt>, counter: Counter) returns (total: Option<int>)
    ensures total == AddUp(attempts, counter)
  {
    hide AddUp, UpTo;
    var n := 0;
    NothingYet(attempts);
    for i := 0 to |attempts|
      invariant AddUp(UpTo(attempts, i), counter) == Some(n)
    {
      var v := Count(counter, attempts[i].usage);
      UpToNext(attempts, i, Amount, counter);
      if v.None? || v.value > MAX_INT64 - n {
        UnknownStays(attempts, i + 1, counter);
        return None;
      }
      n := n + v.value;
    }
    Everything(attempts);
    total := Some(n);
  }

  lemma NothingYet(attempts: seq<Attempt>)
    ensures UpTo(attempts, 0) == []
    ensures forall counter :: AddUp([], counter) == Some(0)
    ensures forall which :: Known([], which) == []
    ensures SourceOf([]) == NoCost
  {
  }

  lemma Everything(attempts: seq<Attempt>)
    ensures UpTo(attempts, |attempts|) == attempts
  {
  }

  method Aggregate(attempts: seq<Attempt>) returns (u: Usage)
    ensures u == Aggregated(attempts)
  {
    hide AddUp;
    u := NO_USAGE;
    if attempts == [] {
      return;
    }
    var input := AddCounts(attempts, InputCount);
    var output := AddCounts(attempts, OutputCount);
    var total := AddCounts(attempts, TotalCount);
    var read := AddCounts(attempts, ReadCount);
    var written := AddCounts(attempts, WriteCount);
    var reasoning := AddCounts(attempts, ReasoningCount);
    var source := attempts[0].usage.source;
    for i := 0 to |attempts|
      invariant source == if forall k | 0 <= k < i :: attempts[k].usage.source == attempts[0].usage.source
                          then attempts[0].usage.source else MixedOrigins
    {
      if attempts[i].usage.source != source {
        source := MixedOrigins;
      }
    }
    u := Usage(source, input, output, total, read, written, reasoning);
    if u.total.None? && u.input.None? && u.output.None? {
      u := u.(source := NoTokens);
    }
  }

  class Collector {
    var record: Record
    var current: int

    ghost predicate Valid()
      reads this
    {
      && current == |record.attempts| - 1
      && forall a | a in record.attempts :: a.usage.source.FromHeader? ==> a.usage.total.Some?
    }

    constructor (id: nat, key: Option<int>)
      ensures Valid() && record == NewRecord(id, key)
    {
      record := NewRecord(id, key);
      current := -1;
    }

    /** Resumes a stored record; its last attempt goes on. */
    constructor Restore(r: Record)
      requires forall a | a in r.attempts :: a.usage.source.FromHeader? ==> a.usage.total.Some?
      ensures Valid() && record == Restored(r)
    {
      record := Restored(r);
      current := |r.attempts| - 1;
    }

    method Begin(provider: Provider, deployment: DeploymentKey, pool: string, policy: Policy, rates: Option<Rates>)
      returns (i: nat)
      requires Valid()
      modifies this
      ensures Valid() && i == |old(record).attempts|
      ensures record == Applied(old(record), Event.Begin(provider, deployment, pool, policy, rates))
    {
      var a := Attempt(provider, deployment, pool, policy, Pending, NO_USAGE, NO_COST, rates, [], None, false);
      record := record.(attempts := record.attempts + [a]);
      current := |record.attempts| - 1;
      i := current;
    }

    method ObserveUsage(b: Body)
      requires Valid() && Decoded(b)
      modifies this
      ensures Valid()
      ensures record == if old(current) < 0 then old(record) else Applied(old(record), DecodedUsage(old(current), b))
    {
      if current >= 0 {
        ObserveUsageOf(current, b);
      }
    }

    method ObserveUsageOf(i: nat, b: Body)
      requires Valid() && Decoded(b) && i < |record.attempts|
      modifies this
      ensures Valid() && record == Applied(old(record), DecodedUsage(i, b))
    {
      hide Observed, Reported, Warned, WarnedAll, Merged;
      var a := record.attempts[i];
      if !a.captured {
        a := a.(native := Merged(a.native, b.fields));
      }
      if a.provider == OpenRouter && b.cost.Some? {
        a := WithReport(a, b.cost.value, BodyCost);
      }
      var usage, warnings := Observe(a.provider, a.usage, b);
      HeaderTotalStays(a.provider, a.usage, b);
      a := a.(usage := usage, warnings := WarnedAll(a.warnings, warnings));
      record := record.(attempts := record.attempts[i := a]);
    }

    method ObserveHeaders(i: nat, cost: Option<string>, total: HeaderTotal)
      requires Valid() && i < |record.attempts|
      modifies this
      ensures Valid() && record == Applied(old(record), Headers(i, cost, total))
    {
      hide Reported, Warned, WarnedAll;
      var a := record.attempts[i];
      if cost.Some? {
        a := WithReport(a, cost.value, HeaderCost);
      }
      if total.BadNumber? || (total.Number? && total.n < 0) {
        a := a.(warnings := Warned(a.warnings, BadTotal));
      } else if total.Number? {
        a := a.(usage := a.usage.(total := Some(total.n), source := FromHeader));
      }
      record := record.(attempts := record.attempts[i := a]);
    }

    /** The raw body is kept as evidence before the usage in it is read. */
    method ObserveJSON(i: nat, native: Option<map<string, string>>, usage: Option<Body>)
      requires Valid() && i < |record.attempts| && (usage.Some? ==> Decoded(usage.value))
      modifies this
      ensures Valid() && record == Applied(old(record), RawBody(i, native, usage))
    {
      hide Merged, WithBody;
      var a := record.attempts[i];
      a := a.(native := Merged(a.native, native), captured := true);
      record := record.(attempts := record.attempts[i := a]);
      if usage.Some? {
        ObserveUsageOf(i, usage.value);
      }
    }

    method EndAttempt(i: nat, failed: bool)
      requires Valid() && i < |record.attempts|
      modifies this
      ensures Valid() && record == Applied(old(record), End(i, failed))
    {
      var a := record.attempts[i].(status := if failed then Failed else Completed);
      record := record.(attempts := record.attempts[i := a]);
    }

    /** Prices every attempt and adds them up; the collector itself does not change. */
    method Snapshot(final: bool) returns (r: Record)
      ensures r == SnapshotOf(record, final)
    {
      hide Shown, Known, SourceOf, AddUp, UpTo, Doubtful, TotalCost, CoverageOf;
      var shown: seq<Attempt> := [];
      var amounts, reported, estimated: seq<string>, partial, source := [], [], [], false, NoCost;
      ghost var all := ShownAll(record.attempts, final);
      NothingYet(all);
      for i := 0 to |record.attempts|
        invariant shown == UpTo(all, i)
        invariant amounts == Known(UpTo(all, i), Amount)
        invariant reported == Known(UpTo(all, i), ReportedAmount)
        invariant estimated == Known(UpTo(all, i), EstimatedAmount)
        invariant source == SourceOf(UpTo(all, i))
        invariant partial <==> exists k | 0 <= k < i :: Doubtful(all[k])
      {
        var a, doubtful := Show(record.attempts[i], final);
        partial := partial || doubtful;
        UpToNext(all, i, Amount, InputCount);
        UpToNext(all, i, ReportedAmount, InputCount);
        UpToNext(all, i, EstimatedAmount, InputCount);
        UpToGrows(all, i);
        if a.cost.amount.Some? {
          amounts := amounts + [a.cost.amount.value];
          if source == NoCost {
            source := a.cost.source;
          } else if source != a.cost.source {
            source := MixedCosts;
          }
        }
        if a.cost.reported.Some? {
          reported := reported + [a.cost.reported.value];
        }
        if a.cost.estimated.Some? {
          estimated := estimated + [a.cost.estimated.value];
        }
        shown := shown + [a];
      }
      Everything(all);
      var usage := Aggregate(shown);
      var total, coverage := Summarize(shown, amounts, reported, estimated, partial, source);
      r := Record(record.id, record.key, if final then Final else record.state, coverage, usage, total, shown);
    }
  }

  method Show(a: Attempt, final: bool) returns (shown: Attempt, doubtful: bool)
    ensures shown == Shown(a, final) && doubtful == Doubtful(shown)
  {
    hide Priced;
    var cost := Price(a.usage, a.rates, a.policy, a.cost);
    shown := a.(cost := cost);
    doubtful := cost.source == FromEstimate &&
      (a.status == Failed || a.status == Interrupted || (a.status == Pending && final));
    if a.status == Pending && final {
      shown := shown.(status := Interrupted);
    }
  }

  /** The part of `Snapshot` after its loop. */
  method Summarize(shown: seq<Attempt>, amounts: seq<string>, reported: seq<string>, estimated: seq<string>,
                   partial: bool, source: CostSource)
    returns (total: Cost, coverage: Coverage)
    requires amounts == Known(shown, Amount) && reported == Known(shown, ReportedAmount)
    requires estimated == Known(shown, EstimatedAmount) && source == SourceOf(shown)
    requires partial <==> exists k | 0 <= k < |shown| :: Doubtful(shown[k])
    ensures total == TotalCost(shown) && coverage == CoverageOf(shown)
  {
    hide Known, SourceOf, Doubtful;
    total, coverage := NO_COST.(source := source), UnknownCoverage;
    if amounts != [] {
      var v := Sum(amounts);
      total := total.(amount := Some(v));
      coverage := if |amounts| == |shown| && !partial then Complete else Partial;
    }
    if reported != [] && |reported| == |shown| {
      var v := Sum(reported);
      total := total.(reported := Some(v));
    }
    if estimated != [] && |estimated| == |shown| {
      var v := Sum(estimated);
      total := total.(estimated := Some(v));
    }
    if |shown| == 1 {
      total := total.(via := shown[0].cost.via, components := shown[0].cost.components);
    }
  }

  lemma UpToGrows(attempts: seq<Attempt>, n: nat)
    requires n < |attempts|
    ensures UpTo(attempts, n + 1) == UpTo(attempts, n) + [attempts[n]]
  {
  }

  lemma HeaderTotalStays(p: Provider, before: Usage, b: Body)
    requires before.source.FromHeader? ==> before.total.Some?
    ensures var after := Observed(p, before, b).0;
            after.source.FromHeader? ==> after.total.Some?
  {
  }

  /** Whether a raw body was captured is not stored; it is guessed from the evidence. */
  function Restored(r: Record): Record
  {
    r.(attempts := seq(|r.attempts|, i requires 0 <= i < |r.attempts| => Reopened(r.attempts[i])))
  }

  function Reopened(a: Attempt): Attempt
  {
    a.(captured := a.native.Some?)
  }
}

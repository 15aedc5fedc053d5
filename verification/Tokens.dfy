/**
 * Token normalization: the counting half of `observeUsage`, `ObserveHeaders` and `aggregateUsage` in
 * `internal/accounting/accounting.go`.
 */
module Tokens {
  import opened Deployments

  const MAX_INT64 := 0x7FFF_FFFF_FFFF_FFFF

  datatype Provider = Anthropic | OpenRouter | OtherProvider(name: string)

  datatype Origin = NoTokens | FromBody | FromHeader | MixedOrigins

  datatype Usage = Usage(
    source: Origin,
    input: Option<int>, output: Option<int>, total: Option<int>,
    cacheRead: Option<int>, cacheWrite: Option<int>, reasoning: Option<int>)

  const NO_USAGE := Usage(NoTokens, None, None, None, None, None, None)

  /**
   * One decoded usage object. The `has` fields record which keys were present, which is different
   * from their being zero; the detail counts come from the two names each has.
   */
  datatype Body = Body(
    prompt: int, completion: int, total: int, read: int, write: int,
    hasInput: bool, hasOutput: bool, hasTotal: bool,
    cachedPrompt: Option<int>, cachedInput: Option<int>,
    reasoningCompletion: Option<int>, reasoningOutput: Option<int>,
    cost: Option<string>, fields: Option<map<string, string>>)

  predicate Fits(n: int)
  {
    -MAX_INT64 - 1 <= n <= MAX_INT64
  }

  /** What decoding guarantees: 64-bit counts, and an absent output count is left at zero. */
  predicate Decoded(b: Body)
  {
    && Fits(b.prompt) && Fits(b.completion) && Fits(b.total) && Fits(b.read) && Fits(b.write)
    && (!b.hasOutput ==> b.completion == 0)
  }

  datatype Warning = NegativeCounts | Overflow | BadCached | BadReasoning | BadTotal | BadCost(via: Via)

  datatype Via = NotReported | HeaderCost | BodyCost

  // ---------- What one body says ----------

  function OrElse(later: Option<int>, earlier: Option<int>): Option<int>
  {
    if later.Some? then later else earlier
  }

  /** All input tokens: the Anthropic prompt count leaves cached tokens out. */
  function Input(p: Provider, b: Body): int
  {
    if p == Anthropic then b.prompt + b.read + b.write else b.prompt
  }

  /** Embeddings report a prompt count equal to the total, and no completion count. */
  predicate OutputKnown(b: Body)
  {
    b.hasOutput || (b.hasInput && b.hasTotal && b.total == b.prompt)
  }

  function Cached(p: Provider, b: Body): Option<int>
  {
    if p == Anthropic then Some(b.read) else OrElse(b.cachedInput, b.cachedPrompt)
  }

  function Reasoning(b: Body): Option<int>
  {
    OrElse(b.reasoningOutput, b.reasoningCompletion)
  }

  predicate Within(count: Option<int>, bound: int)
  {
    count.Some? ==> 0 <= count.value <= bound
  }

  predicate Negative(b: Body)
  {
    b.prompt < 0 || b.completion < 0 || b.read < 0 || b.write < 0
  }

  predicate TooLarge(p: Provider, b: Body)
  {
    Input(p, b) > MAX_INT64 || Input(p, b) + b.completion > MAX_INT64
  }

  /** The counts of an acceptable body on its own. */
  function BodyUsage(p: Provider, b: Body): Usage
  {
    var input := Input(p, b);
    Usage(
      FromBody,
      if b.hasInput && Within(Cached(p, b), input) then Some(input) else None,
      if b.hasOutput then Some(b.completion) else if OutputKnown(b) then Some(0) else None,
      if b.hasInput && OutputKnown(b) then Some(input + b.completion)
      else if b.hasTotal && b.total >= 0 then Some(b.total) else None,
      if Within(Cached(p, b), input) then Cached(p, b) else None,
      if p == Anthropic then Some(b.write) else None,
      if Within(Reasoning(b), b.completion) then Reasoning(b) else None)
  }

  /** The usage after an acceptable body: a total from a header stays, and contradicting counts go. */
  function Reconciled(p: Provider, before: Usage, b: Body): Usage
  {
    var u := BodyUsage(p, b);
    var agrees := b.hasInput && OutputKnown(b) && before.total == Some(Input(p, b) + b.completion);
    var v := if !before.source.FromHeader? then u
             else if agrees then u.(source := FromHeader, total := before.total)
             else Usage(FromHeader, None, None, before.total, None, None, None);
    if v.input.None? && v.output.None? && v.total.None? then v.(source := NoTokens) else v
  }

  /** The usage and the warnings after observing a body. */
  function Observed(p: Provider, before: Usage, b: Body): (Usage, seq<Warning>)
  {
    if Negative(b) then (before, [NegativeCounts])
    else if Input(p, b) > MAX_INT64 then (before, [Overflow])
    else
      var first := if Within(Cached(p, b), Input(p, b)) then [] else [BadCached];
      var warnings := if Within(Reasoning(b), b.completion) then first else first + [BadReasoning];
      if TooLarge(p, b) then (before, warnings + [Overflow])
      else (Reconciled(p, before, b), warnings)
  }

  /** The detail counts, under either of their names; the later name wins. */
  method ReadDetails(p: Provider, b: Body) returns (cached: Option<int>, reasoning: Option<int>)
    ensures cached == Cached(p, b) && reasoning == Reasoning(b)
  {
    cached, reasoning := None, None;
    if p == Anthropic {
      cached := Some(b.read);
    } else {
      if b.cachedPrompt.Some? {
        cached := b.cachedPrompt;
      }
      if b.cachedInput.Some? {
        cached := b.cachedInput;
      }
    }
    if b.reasoningCompletion.Some? {
      reasoning := b.reasoningCompletion;
    }
    if b.reasoningOutput.Some? {
      reasoning := b.reasoningOutput;
    }
  }

  method ReadOutput(b: Body, input: int) returns (output: Option<int>, total: Option<int>)
    ensures output == if b.hasOutput then Some(b.completion) else if OutputKnown(b) then Some(0) else None
    ensures total == if b.hasInput && OutputKnown(b) then Some(input + b.completion)
                     else if b.hasTotal && b.total >= 0 then Some(b.total) else None
  {
    output, total := None, None;
    if b.hasOutput {
      output := Some(b.completion);
    } else if b.hasInput && b.hasTotal && b.total == b.prompt {
      output := Some(0);
    }
    if b.hasInput && output.Some? {
      total := Some(input + b.completion);
    } else if b.hasTotal && b.total >= 0 {
      total := Some(b.total);
    }
  }

  /** A total reported by a header wins over the counts of the body. */
  method Reconcile(p: Provider, before: Usage, b: Body, u: Usage) returns (after: Usage)
    requires before.source.FromHeader? ==> before.total.Some?
    requires u == BodyUsage(p, b)
    ensures after == Reconciled(p, before, b)
  {
    after := u;
    if before.source == FromHeader {
      after := after.(total := before.total, source := FromHeader);
      if !b.hasInput || !OutputKnown(b) || after.total.value != Input(p, b) + b.completion {
        after := Usage(FromHeader, None, None, after.total, None, None, None);
      }
    }
    if after.total.None? && after.input.None? && after.output.None? {
      after := after.(source := NoTokens);
    }
  }

  /** The step-by-step normalization, on the 64-bit counts that the source keeps. */
  method Observe(p: Provider, before: Usage, b: Body) returns (after: Usage, warnings: seq<Warning>)
    requires before.source.FromHeader? ==> before.total.Some?
    requires Decoded(b)
    ensures (after, warnings) == Observed(p, before, b)
  {
    hide Reconciled, Cached, Reasoning;
    after, warnings := before, [];
    var input := b.prompt;
    if input < 0 || b.completion < 0 || b.read < 0 || b.write < 0 {
      warnings := [NegativeCounts];
      return;
    }
    if p == Anthropic {
      if input > MAX_INT64 - b.read || input + b.read > MAX_INT64 - b.write {
        warnings := [Overflow];
        return;
      }
      input := input + b.read + b.write;
    }
    var knownInput := if b.hasInput then Some(input) else None;
    var cached, reasoning := ReadDetails(p, b);
    if cached.Some? && (cached.value < 0 || cached.value > input) {
      cached, knownInput := None, None;
      warnings := [BadCached];
    }
    if reasoning.Some? && (reasoning.value < 0 || reasoning.value > b.completion) {
      reasoning := None;
      warnings := warnings + [BadReasoning];
    }
    if input > MAX_INT64 - b.completion {
      warnings := warnings + [Overflow];
      return;
    }
    var output, total := ReadOutput(b, input);
    var written := if p == Anthropic then Some(b.write) else None;
    after := Reconcile(p, before, b, Usage(FromBody, knownInput, output, total, cached, written, reasoning));
  }

  /** A header total, which covers the whole upstream request, replaces the total and nothing else. */
  function WithHeaderTotal(u: Usage, n: nat): Usage
  {
    u.(total := Some(n), source := FromHeader)
  }

  // ---------- Consistency ----------

  predicate InRange(count: Option<int>)
  {
    Within(count, MAX_INT64)
  }

  function OrZero(count: Option<int>): int
  {
    if count.Some? then count.value else 0
  }

  predicate Ranges(u: Usage)
  {
    && InRange(u.input) && InRange(u.output) && InRange(u.total)
    && InRange(u.cacheRead) && InRange(u.cacheWrite) && InRange(u.reasoning)
  }

  predicate Adds(u: Usage)
  {
    u.input.Some? && u.output.Some? && u.total.Some? ==> u.total.value == u.input.value + u.output.value
  }

  predicate Nested(u: Usage)
  {
    && (u.input.Some? ==> OrZero(u.cacheRead) + OrZero(u.cacheWrite) <= u.input.value)
    && (u.output.Some? ==> OrZero(u.reasoning) <= u.output.value)
  }

  predicate Nothing(u: Usage)
  {
    u.input.None? && u.output.None? && u.total.None?
  }

  predicate Sourced(u: Usage)
  {
    && (u.source.FromHeader? ==> u.total.Some?)
    && (u.source.NoTokens? <==> Nothing(u))
  }

  predicate Consistent(u: Usage)
  {
    Ranges(u) && Adds(u) && Nested(u) && Sourced(u)
  }

  /** Observing any body leaves consistent counts consistent. */
  lemma ObservingKeepsConsistency(p: Provider, before: Usage, b: Body)
    requires Consistent(before) && Decoded(b)
    ensures Consistent(Observed(p, before, b).0)
  {
    if !Negative(b) && !TooLarge(p, b) {
      hide Consistent, BodyUsage, Ranges, Adds, Nested, Reconciled;
      BodyIsConsistent(p, b);
      ReconcilingKeepsConsistency(p, before, b);
    }
  }

  lemma BodyIsConsistent(p: Provider, b: Body)
    requires Decoded(b) && !Negative(b) && !TooLarge(p, b)
    ensures Ranges(BodyUsage(p, b)) && Adds(BodyUsage(p, b)) && Nested(BodyUsage(p, b))
    ensures BodyUsage(p, b).source == FromBody
    ensures b.hasInput && OutputKnown(b) ==> BodyUsage(p, b).total == Some(Input(p, b) + b.completion)
  {
  }

  lemma ReconcilingKeepsConsistency(p: Provider, before: Usage, b: Body)
    requires Consistent(before)
    requires Ranges(BodyUsage(p, b)) && Adds(BodyUsage(p, b)) && Nested(BodyUsage(p, b))
    requires BodyUsage(p, b).source == FromBody
    requires b.hasInput && OutputKnown(b) ==> BodyUsage(p, b).total == Some(Input(p, b) + b.completion)
    ensures Consistent(Reconciled(p, before, b))
  {
    hide BodyUsage, Input, OutputKnown;
  }

  /**
   * A header keeps the counts consistent if and only if no body has given both counts yet, or its
   * total agrees with them. The source does not look at them.
   */
  lemma HeaderKeepsConsistency(u: Usage, n: nat)
    requires Consistent(u) && n <= MAX_INT64
    ensures Consistent(WithHeaderTotal(u, n)) <==>
            (u.input.Some? && u.output.Some? ==> n == u.input.value + u.output.value)
  {
  }

  // ---------- The counts are those of the body ----------

  /** A body whose counts can be used, for its provider: Anthropic's prompt leaves cached tokens out. */
  predicate Usable(p: Provider, b: Body)
  {
    && b.prompt >= 0 && b.completion >= 0 && b.read >= 0 && b.write >= 0
    && b.prompt + (if p == Anthropic then b.read + b.write else 0) + b.completion <= MAX_INT64
  }

  /** An unusable body changes nothing, and the warning says why. */
  lemma UnusableIsIgnored(p: Provider, before: Usage, b: Body)
    ensures var (after, warnings) := Observed(p, before, b);
            && (!Usable(p, b) ==> after == before && warnings != [])
            && (NegativeCounts in warnings <==> b.prompt < 0 || b.completion < 0 || b.read < 0 || b.write < 0)
            && (Overflow in warnings <==>
                  !Usable(p, b) && b.prompt >= 0 && b.completion >= 0 && b.read >= 0 && b.write >= 0)
  {
  }

  /** What an Anthropic body says, with no total from a header before it. */
  lemma AnthropicCounts(before: Usage, b: Body)
    requires Usable(Anthropic, b) && !before.source.FromHeader?
    ensures var u := Observed(Anthropic, before, b).0;
            && u.input == (if b.hasInput then Some(b.prompt + b.read + b.write) else None)
            && u.cacheRead == Some(b.read) && u.cacheWrite == Some(b.write)
  {
  }

  /**
   * What any other body says of its input. The later name of the cached count wins, and a cached
   * count that is no part of the prompt is dropped together with the input count.
   */
  lemma OtherCounts(p: Provider, before: Usage, b: Body)
    requires p != Anthropic && Usable(p, b) && !before.source.FromHeader?
    ensures var (u, warnings) := Observed(p, before, b);
            var cached := if b.cachedInput.Some? then b.cachedInput else b.cachedPrompt;
            && u.cacheWrite == None
            && (cached.None? ==> u.cacheRead == None && u.input == if b.hasInput then Some(b.prompt) else None)
            && (cached.Some? && 0 <= cached.value <= b.prompt ==>
                  u.cacheRead == cached && u.input == if b.hasInput then Some(b.prompt) else None)
            && (cached.Some? && !(0 <= cached.value <= b.prompt) ==> u.cacheRead == None && u.input == None)
            && (BadCached in warnings <==> cached.Some? && !(0 <= cached.value <= b.prompt))
  {
  }

  /**
   * What a body of any provider says of its output. A body without an output count has none, unless
   * its total is its prompt: then there is no output. The later name of the reasoning count wins, and
   * one that is no part of the output is dropped alone.
   */
  lemma OutputCounts(p: Provider, before: Usage, b: Body)
    requires Usable(p, b) && !before.source.FromHeader?
    ensures var (u, warnings) := Observed(p, before, b);
            var reasoning := if b.reasoningOutput.Some? then b.reasoningOutput else b.reasoningCompletion;
            && u.output == (if b.hasOutput then Some(b.completion)
                            else if b.hasInput && b.hasTotal && b.total == b.prompt then Some(0) else None)
            && (reasoning.None? ==> u.reasoning == None)
            && (reasoning.Some? ==>
                  u.reasoning == if 0 <= reasoning.value <= b.completion then reasoning else None)
            && (BadReasoning in warnings <==> reasoning.Some? && !(0 <= reasoning.value <= b.completion))
  {
  }

  /** The total is the sum of both counts of the body, or the body's own when one of them is missing. */
  lemma TotalCount(p: Provider, before: Usage, b: Body)
    requires Usable(p, b) && !before.source.FromHeader?
    ensures var u := Observed(p, before, b).0;
            var whole := b.prompt + if p == Anthropic then b.read + b.write else 0;
            && u.total == (if b.hasInput && u.output.Some? then Some(whole + b.completion)
                           else if b.hasTotal && b.total >= 0 then Some(b.total) else None)
            && (u.source == NoTokens <==> u.input.None? && u.output.None? && u.total.None?)
            && (u.source == NoTokens || u.source == FromBody)
  {
  }

  /**
   * After a header total, a body's counts are taken over exactly if both are known and their sum is
   * that total; otherwise only the total stays.
   */
  lemma HeaderTotalWins(p: Provider, before: Usage, b: Body)
    requires Usable(p, b) && before.source.FromHeader? && before.total.Some?
    ensures var u := Observed(p, before, b).0;
            var alone := Observed(p, NO_USAGE, b).0;
            && u.total == before.total && u.source == FromHeader
            && (if b.hasInput && alone.output.Some? && alone.total == before.total
                then u == alone.(source := FromHeader)
                else u == Usage(FromHeader, None, None, before.total, None, None, None))
  {
  }
}

/**
 * What one attempt cost: `price`, `selectCost` and `setReported` of
 * `internal/accounting/accounting.go`, on exact decimal strings.
 */
module Pricing {
  import opened Deployments
  import opened Tokens
  import opened Decimals

  datatype Policy = PreferUpstream | EstimateOnly | RequireUpstream

  datatype CostSource = NoCost | FromUpstream | FromEstimate | MixedCosts

  datatype Kind = InputTokens | OutputTokens | CacheReads | CacheWrites

  datatype Component = Component(kind: Kind, tokens: int, rate: string, amount: string)

  datatype Cost = Cost(
    amount: Option<string>, source: CostSource,
    reported: Option<string>, estimated: Option<string>,
    via: Via, components: seq<Component>)

  const NO_COST := Cost(None, NoCost, None, None, NotReported, [])

  /** The price of one token of each kind, captured when the attempt began. */
  datatype Rates = Rates(
    input: Option<string>, output: Option<string>, cacheRead: Option<string>, cacheWrite: Option<string>)

  datatype Line = Line(kind: Kind, tokens: int, rate: Option<string>)

  // ---------- Estimates ----------

  /** The range test that `price` makes before it multiplies. */
  predicate Guard(u: Usage)
    requires u.input.Some? && u.output.Some?
  {
    && OrZero(u.cacheRead) <= u.input.value
    && OrZero(u.cacheWrite) <= u.input.value - OrZero(u.cacheRead)
    && u.input.value >= 0 && u.output.value >= 0
    && OrZero(u.cacheRead) >= 0 && OrZero(u.cacheWrite) >= 0
  }

  predicate Estimable(u: Usage, rates: Option<Rates>)
  {
    rates.Some? && u.input.Some? && u.output.Some? && Guard(u)
  }

  /** What there is to pay for. Cached tokens are not charged as plain input. */
  function Lines(u: Usage, rates: Rates): (lines: seq<Line>)
    requires u.input.Some? && u.output.Some? && Guard(u)
    ensures |lines| == 4 && forall i | 0 <= i < 4 :: lines[i].tokens >= 0
  {
    var cached, written := OrZero(u.cacheRead), OrZero(u.cacheWrite);
    [Line(InputTokens, u.input.value - cached - written, rates.input),
     Line(OutputTokens, u.output.value, rates.output),
     Line(CacheReads, cached, rates.cacheRead),
     Line(CacheWrites, written, rates.cacheWrite)]
  }

  /** No tokens need no price; a price that is given must be a valid decimal. */
  predicate Billable(line: Line)
  {
    if line.rate.None? then line.tokens == 0 else Decimal(line.rate.value).Some?
  }

  function Charge(line: Line): (c: Component)
    requires line.tokens >= 0 && line.rate.Some? && Decimal(line.rate.value).Some?
  {
    var rate := Decimal(line.rate.value).value;
    DecimalDenotes(line.rate.value);
    Component(line.kind, line.tokens, rate, Multiply(rate, line.tokens))
  }

  /** The charges up to the first line that cannot be billed. */
  function Charges(lines: seq<Line>): seq<Component>
    requires forall l | l in lines :: l.tokens >= 0
  {
    if lines == [] || !Billable(lines[0]) then []
    else
      assert lines[0] in lines;
      (if lines[0].rate.None? then [] else [Charge(lines[0])]) + Charges(lines[1..])
  }

  function Amounts(cs: seq<Component>): (amounts: seq<string>)
    ensures |amounts| == |cs|
  {
    seq(|cs|, i requires 0 <= i < |cs| => cs[i].amount)
  }

  predicate AllBillable(lines: seq<Line>)
  {
    forall i | 0 <= i < |lines| :: Billable(lines[i])
  }

  // ---------- Pricing an attempt ----------

  function Bill(u: Usage, rates: Option<Rates>): seq<Component>
  {
    if Estimable(u, rates) then Charges(Lines(u, rates.value)) else []
  }

  function Estimate(u: Usage, rates: Option<Rates>): Option<string>
  {
    if Estimable(u, rates) && AllBillable(Lines(u, rates.value))
    then Some(Total(Amounts(Bill(u, rates)))) else None
  }

  /** The exact sum, in canonical form. */
  function Total(amounts: seq<string>): string
  {
    Format(SumOfUnits(amounts))
  }

  /**
   * The policy decides which evidence counts as the cost. The source says which it was; there is an
   * amount exactly when some evidence is allowed; allowed upstream evidence always wins; estimates
   * never stand in for required upstream evidence, nor upstream evidence for required estimates; and
   * the evidence itself is kept.
   */
  function Selected(policy: Policy, cost: Cost): (c: Cost)
    ensures c.source == FromUpstream ==> c.amount.Some? && c.amount == cost.reported && policy != EstimateOnly
    ensures c.source == FromEstimate ==> c.amount.Some? && c.amount == cost.estimated && policy != RequireUpstream
    ensures (c.source == NoCost <==> c.amount.None?) && c.source != MixedCosts
    ensures c.amount.Some? <==> || (cost.reported.Some? && policy != EstimateOnly)
                                || (cost.estimated.Some? && policy != RequireUpstream)
    ensures cost.reported.Some? && policy != EstimateOnly ==> c.source == FromUpstream
    ensures c.reported == cost.reported && c.estimated == cost.estimated
    ensures c.via == cost.via && c.components == cost.components
  {
    if policy != EstimateOnly && cost.reported.Some? then cost.(amount := cost.reported, source := FromUpstream)
    else if policy != RequireUpstream && cost.estimated.Some? then
      cost.(amount := cost.estimated, source := FromEstimate)
    else cost.(amount := None, source := NoCost)
  }

  function Priced(u: Usage, rates: Option<Rates>, policy: Policy, cost: Cost): Cost
  {
    Selected(policy, cost.(components := Bill(u, rates), estimated := Estimate(u, rates)))
  }

  method Select(policy: Policy, before: Cost) returns (after: Cost)
    requires before.amount.None? && before.source.NoCost?
    ensures after == Selected(policy, before)
  {
    after := before;
    if policy != EstimateOnly && before.reported.Some? {
      after := after.(amount := before.reported, source := FromUpstream);
    } else if policy != RequireUpstream && before.estimated.Some? {
      after := after.(amount := before.estimated, source := FromEstimate);
    }
  }

  lemma ChargesStep(lines: seq<Line>, i: nat)
    requires i < |lines| && forall l | l in lines :: l.tokens >= 0
    ensures forall l | l in lines[i..] :: l in lines
    ensures forall l | l in lines[i + 1..] :: l in lines
    ensures lines[i] in lines
    ensures Charges(lines[i..]) == if !Billable(lines[i]) then []
                                   else if lines[i].rate.None? then Charges(lines[i + 1..])
                                   else [Charge(lines[i])] + Charges(lines[i + 1..])
  {
    hide Charge, Billable;
    assert lines[i..][0] == lines[i] && lines[i..][1..] == lines[i + 1..];
  }

  /** The billing loop: it stops at the first line without a usable price. */
  method ChargeAll(lines: seq<Line>) returns (valid: bool, components: seq<Component>)
    requires forall l | l in lines :: l.tokens >= 0
    ensures valid == AllBillable(lines)
    ensures components == Charges(lines)
  {
    hide Decimal, Multiply, Charges;
    components := [];
    assert lines[0..] == lines;
    for i := 0 to |lines|
      invariant forall k | 0 <= k < i :: Billable(lines[k])
      invariant forall l | l in lines[i..] :: l in lines
      invariant Charges(lines) == components + Charges(lines[i..])
    {
      var line := lines[i];
      ChargesStep(lines, i);
      if line.rate.None? {
        if line.tokens != 0 {
          return false, components;
        }
      } else {
        var rate := Decimal(line.rate.value);
        if rate.None? {
          return false, components;
        }
        DecimalDenotes(line.rate.value);
        components := components + [Component(line.kind, line.tokens, rate.value, Multiply(rate.value, line.tokens))];
      }
    }
    valid := true;
    NoCharges(lines);
  }

  lemma NoCharges(lines: seq<Line>)
    ensures lines[|lines|..] == [] && Charges([]) == []
  {
  }

  method Price(u: Usage, rates: Option<Rates>, policy: Policy, before: Cost) returns (after: Cost)
    ensures after == Priced(u, rates, policy, before)
  {
    hide Charges, AllBillable, Lines;
    after := before.(components := [], estimated := None, amount := None, source := NoCost);
    if rates.Some? && u.input.Some? && u.output.Some? {
      if Guard(u) {
        var valid, components := ChargeAll(Lines(u, rates.value));
        after := after.(components := components);
        if valid {
          var v := Sum(Amounts(components));
          after := after.(estimated := Some(v));
        }
      }
    }
    after := Select(policy, after);
  }

  /** A header's cost is never replaced by a body's; otherwise the last valid report wins. */
  function Reported(cost: Cost, text: string, via: Via): (Cost, seq<Warning>)
  {
    match Decimal(text)
    case None => (cost, [BadCost(via)])
    case Some(v) =>
      if cost.via == HeaderCost && via != HeaderCost then (cost, [])
      else (cost.(reported := Some(v), via := via), [])
  }

  // ---------- What the numbers mean ----------

  lemma DecimalDenotes(s: string)
    requires Decimal(s).Some?
    ensures Representable(s) && Representable(Decimal(s).value)
    ensures Denoted(Decimal(s).value) == Denoted(s)
  {
    hide Denoted, Format, Parse;
    FormatDenotes(ParseUnits(s).value);
    RateUnits(s);
    SameScaled(Denoted(Decimal(s).value), Denoted(s), ONE as real);
  }

  /** Consistent counts always pass the range test of `price`. */
  lemma GuardNeverRejects(u: Usage)
    requires Consistent(u) && u.input.Some? && u.output.Some?
    ensures Guard(u)
  {
    assert OrZero(u.cacheRead) >= 0 && OrZero(u.cacheWrite) >= 0;
  }

  /** The price of one line as a number: the count times what the rate denotes. */
  ghost function LinePrice(line: Line): real
  {
    if line.rate.None? || !Representable(line.rate.value) then 0.0
    else Denoted(line.rate.value) * line.tokens as real
  }

  ghost predicate AllRepresentable(values: seq<string>)
  {
    forall v | v in values :: Representable(v)
  }

  lemma {:induction false} SumOfCons(x: string, values: seq<string>)
    requires Representable(x) && AllRepresentable(values)
    ensures AllRepresentable([x] + values)
    ensures SumOfValues([x] + values) == Denoted(x) + SumOfValues(values)
  {
    hide Representable, Denoted;
    if values == [] {
      assert [x] + values == [x] && [x][..0] == [];
    } else {
      var front, last := values[..|values| - 1], values[|values| - 1];
      assert last in values;
      SumOfCons(x, front);
      assert ([x] + values)[..|values|] == [x] + front;
    }
  }

  lemma ChargeDenotes(line: Line)
    requires line.tokens >= 0 && Billable(line) && line.rate.Some?
    ensures Representable(Charge(line).amount) && Denoted(Charge(line).amount) == LinePrice(line)
  {
    hide Multiply, Decimal, Denoted, Representable;
    DecimalDenotes(line.rate.value);
    MultiplyIsExact(Decimal(line.rate.value).value, line.tokens);
  }

  ghost function PriceOf(lines: seq<Line>): real
  {
    if lines == [] then 0.0 else LinePrice(lines[0]) + PriceOf(lines[1..])
  }

  lemma {:induction false} ChargesTotal(lines: seq<Line>)
    requires (forall l | l in lines :: l.tokens >= 0) && AllBillable(lines)
    ensures AllRepresentable(Amounts(Charges(lines)))
    ensures SumOfValues(Amounts(Charges(lines))) == PriceOf(lines)
  {
    hide Billable, Charge, LinePrice, Representable, Denoted, Amounts, SumOfValues;
    if lines != [] {
      assert lines[0] in lines;
      assert forall i | 0 <= i < |lines[1..]| :: lines[1..][i] == lines[i + 1];
      ChargesTotal(lines[1..]);
      PaidLine(lines[0]);
      if lines[0].rate.None? {
        assert [] + Charges(lines[1..]) == Charges(lines[1..]);
      } else {
        ChargeFirst(Charge(lines[0]), Charges(lines[1..]));
      }
    } else {
      NothingCharged();
    }
  }

  lemma NothingCharged()
    ensures Amounts([]) == [] && SumOfValues([]) == 0.0
  {
  }

  lemma ChargeFirst(first: Component, rest: seq<Component>)
    requires Representable(first.amount) && AllRepresentable(Amounts(rest))
    ensures AllRepresentable(Amounts([first] + rest))
    ensures SumOfValues(Amounts([first] + rest)) == Denoted(first.amount) + SumOfValues(Amounts(rest))
  {
    hide Representable, Denoted, SumOfValues;
    SumOfCons(first.amount, Amounts(rest));
    assert Amounts([first] + rest) == [first.amount] + Amounts(rest);
  }

  lemma PaidLine(line: Line)
    requires line.tokens >= 0 && Billable(line)
    ensures line.rate.None? ==> LinePrice(line) == 0.0
    ensures line.rate.Some? ==> Decimal(line.rate.value).Some?
    ensures line.rate.Some? ==> Representable(Charge(line).amount)
    ensures line.rate.Some? ==> Denoted(Charge(line).amount) == LinePrice(line)
  {
    if line.rate.Some? {
      ChargeDenotes(line);
    }
  }

  /** Plain input (without cached tokens), output, cache reads and cache writes, each at its rate. */
  ghost function LinearPrice(u: Usage, rates: Rates): real
    requires u.input.Some? && u.output.Some?
  {
    LinePrice(Line(InputTokens, u.input.value - OrZero(u.cacheRead) - OrZero(u.cacheWrite), rates.input)) +
    LinePrice(Line(OutputTokens, u.output.value, rates.output)) +
    LinePrice(Line(CacheReads, OrZero(u.cacheRead), rates.cacheRead)) +
    LinePrice(Line(CacheWrites, OrZero(u.cacheWrite), rates.cacheWrite))
  }

  predicate Covered(tokens: int, rate: Option<string>)
  {
    (rate.None? && tokens == 0) || (rate.Some? && Decimal(rate.value).Some?)
  }

  /** Every kind of token that was used has a rate, and every rate is a valid decimal. */
  predicate RatesSuffice(u: Usage, rates: Rates)
    requires u.input.Some? && u.output.Some?
  {
    && Covered(u.input.value - OrZero(u.cacheRead) - OrZero(u.cacheWrite), rates.input)
    && Covered(u.output.value, rates.output)
    && Covered(OrZero(u.cacheRead), rates.cacheRead)
    && Covered(OrZero(u.cacheWrite), rates.cacheWrite)
  }

  /**
   * For consistent counts there is an estimate exactly when both counts are known, rates were
   * captured, and they cover the tokens used.
   */
  lemma EstimateExists(u: Usage, rates: Option<Rates>)
    requires Consistent(u)
    ensures Estimate(u, rates).Some? <==>
            rates.Some? && u.input.Some? && u.output.Some? && RatesSuffice(u, rates.value)
  {
    hide Consistent, Billable, Bill, Total, Lines, AllBillable, RatesSuffice;
    if u.input.Some? && u.output.Some? {
      GuardNeverRejects(u);
      if rates.Some? {
        LinesBillable(u, rates.value);
      }
    }
  }

  lemma LinesBillable(u: Usage, rates: Rates)
    requires u.input.Some? && u.output.Some? && Guard(u)
    ensures AllBillable(Lines(u, rates)) <==> RatesSuffice(u, rates)
  {
    hide Decimal;
    var lines := Lines(u, rates);
    assert AllBillable(lines) <==>
           Billable(lines[0]) && Billable(lines[1]) && Billable(lines[2]) && Billable(lines[3]);
  }

  /** An estimate is the exact linear price of the tokens. */
  lemma EstimateIsTheLinearPrice(u: Usage, rates: Option<Rates>)
    requires Estimate(u, rates).Some?
    ensures rates.Some? && u.input.Some? && u.output.Some?
    ensures Representable(Estimate(u, rates).value)
    ensures Denoted(Estimate(u, rates).value) == LinearPrice(u, rates.value)
  {
    hide LinePrice, Representable, Denoted, Total, Charges, Guard, AllBillable, PriceOf;
    var lines := Lines(u, rates.value);
    EstimateDenotes(lines);
    FourLines(lines);
  }

  lemma EstimateDenotes(lines: seq<Line>)
    requires (forall l | l in lines :: l.tokens >= 0) && AllBillable(lines)
    ensures Representable(Total(Amounts(Charges(lines))))
    ensures Denoted(Total(Amounts(Charges(lines)))) == PriceOf(lines)
  {
    hide Charges, AllBillable, Representable, Denoted, Format;
    ChargesTotal(lines);
    SumIsExact(Amounts(Charges(lines)));
  }

  lemma FourLines(lines: seq<Line>)
    requires |lines| == 4
    ensures PriceOf(lines) == LinePrice(lines[0]) + LinePrice(lines[1]) + LinePrice(lines[2]) + LinePrice(lines[3])
  {
    hide LinePrice;
    var a, b, c := lines[1..], lines[2..], lines[3..];
    assert a[1..] == b && b[1..] == c && c[1..] == [];
    assert PriceOf(c) == LinePrice(c[0]) + PriceOf(c[1..]);
    assert PriceOf(b) == LinePrice(b[0]) + PriceOf(c);
    assert PriceOf(a) == LinePrice(a[0]) + PriceOf(b);
  }

  // ---------- From a body to its price ----------

  ghost predicate AllRates(rates: Rates)
  {
    && rates.input.Some? && Decimal(rates.input.value).Some?
    && rates.output.Some? && Decimal(rates.output.value).Some?
    && rates.cacheRead.Some? && Decimal(rates.cacheRead.value).Some?
    && rates.cacheWrite.Some? && Decimal(rates.cacheWrite.value).Some?
  }

  lemma RatesDenote(rates: Rates)
    requires AllRates(rates)
    ensures Representable(rates.input.value) && Representable(rates.output.value)
    ensures Representable(rates.cacheRead.value) && Representable(rates.cacheWrite.value)
  {
    hide Decimal, Representable;
    DecimalDenotes(rates.input.value);
    DecimalDenotes(rates.output.value);
    DecimalDenotes(rates.cacheRead.value);
    DecimalDenotes(rates.cacheWrite.value);
  }

  /** Four known counts at four known rates. */
  lemma FullPrice(u: Usage, rates: Rates)
    requires Consistent(u) && u.input.Some? && u.output.Some? && AllRates(rates)
    ensures Estimate(u, Some(rates)).Some? && Representable(Estimate(u, Some(rates)).value)
    ensures Representable(rates.input.value) && Representable(rates.output.value)
    ensures Representable(rates.cacheRead.value) && Representable(rates.cacheWrite.value)
    ensures Denoted(Estimate(u, Some(rates)).value) ==
            Denoted(rates.input.value) * (u.input.value - OrZero(u.cacheRead) - OrZero(u.cacheWrite)) as real +
            Denoted(rates.output.value) * u.output.value as real +
            Denoted(rates.cacheRead.value) * OrZero(u.cacheRead) as real +
            Denoted(rates.cacheWrite.value) * OrZero(u.cacheWrite) as real
  {
    hide Decimal, Representable, Denoted, Estimate, Consistent;
    EstimateExists(u, Some(rates));
    RatesDenote(rates);
    EstimateIsTheLinearPrice(u, Some(rates));
  }

  /**
   * One Anthropic body with both counts costs its prompt, cache reads, cache writes and completion,
   * each at its own rate.
   */
  lemma AnthropicBodyCosts(before: Usage, b: Body, rates: Rates)
    requires Consistent(before) && !before.source.FromHeader? && Decoded(b) && Usable(Anthropic, b)
    requires b.hasInput && b.hasOutput && AllRates(rates)
    ensures var cost := Estimate(Observed(Anthropic, before, b).0, Some(rates));
            && Representable(rates.input.value) && Representable(rates.output.value)
            && Representable(rates.cacheRead.value) && Representable(rates.cacheWrite.value)
            && cost.Some? && Representable(cost.value)
            && Denoted(cost.value) ==
               Denoted(rates.input.value) * b.prompt as real + Denoted(rates.output.value) * b.completion as real +
               Denoted(rates.cacheRead.value) * b.read as real + Denoted(rates.cacheWrite.value) * b.write as real
  {
    hide Decimal, Representable, Denoted, Estimate, Consistent, AllRates, Observed;
    ObservingKeepsConsistency(Anthropic, before, b);
    AnthropicCounts(before, b);
    OutputCounts(Anthropic, before, b);
    FullPrice(Observed(Anthropic, before, b).0, rates);
  }

  /**
   * One body of any other provider with both counts costs its prompt without the cached part, that
   * part and its completion, each at its own rate.
   */
  lemma OtherBodyCosts(p: Provider, before: Usage, b: Body, rates: Rates)
    requires p != Anthropic && Consistent(before) && !before.source.FromHeader? && Decoded(b) && Usable(p, b)
    requires b.hasInput && b.hasOutput && AllRates(rates)
    requires var cached := if b.cachedInput.Some? then b.cachedInput else b.cachedPrompt;
             cached.Some? ==> 0 <= cached.value <= b.prompt
    ensures var cached := OrZero(if b.cachedInput.Some? then b.cachedInput else b.cachedPrompt);
            var cost := Estimate(Observed(p, before, b).0, Some(rates));
            && Representable(rates.input.value) && Representable(rates.output.value)
            && Representable(rates.cacheRead.value)
            && cost.Some? && Representable(cost.value)
            && Denoted(cost.value) ==
               Denoted(rates.input.value) * (b.prompt - cached) as real +
               Denoted(rates.cacheRead.value) * cached as real +
               Denoted(rates.output.value) * b.completion as real
  {
    hide Decimal, Representable, Denoted, Estimate, Consistent, AllRates, Observed;
    ObservingKeepsConsistency(p, before, b);
    OtherCounts(p, before, b);
    OutputCounts(p, before, b);
    FullPrice(Observed(p, before, b).0, rates);
  }
}

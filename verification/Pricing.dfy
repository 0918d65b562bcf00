/** Token pricing (config/ai_pricing.py). A missing rate or a missing token count is an unknown cost,
    never a zero one. */
module Pricing {
  import opened Wrappers
  import opened Rounding
  import opened AiTypes

  datatype ModelPricing = ModelPricing(input: real, output: real, cacheRead: Option<real>, cacheWrite: Option<real>)

  type Rates = map<string, ModelPricing>

  const TOKENS_PER_RATE := 1000000.0
  const CHARS_PER_TOKEN_ESTIMATE := 4

  function Charge(tokens: int, rate: real): real {
    Times(tokens as real / TOKENS_PER_RATE, rate)
  }

  /** A reported count that is zero or absent costs nothing and needs no rate. */
  predicate Reported(tokens: Option<int>) {
    tokens.Some? && tokens.value != 0
  }

  /** Cost is known exactly when everything that was used has a rate. */
  predicate Priceable(rates: Rates, model: string, usage: Usage) {
    && model in rates
    && usage.inputTokens.Some? && usage.outputTokens.Some?
    && (Reported(usage.cacheRead) ==> rates[model].cacheRead.Some?)
    && (Reported(usage.cacheWrite) ==> rates[model].cacheWrite.Some?)
  }

  function Estimate(rates: Rates, model: string, usage: Usage): Cost {
    if !Priceable(rates, model, usage) then None
    else
      var p := rates[model];
      Some(Round6(
        Charge(usage.inputTokens.value, p.input)
        + Charge(usage.outputTokens.value, p.output)
        + (if Reported(usage.cacheRead) then Charge(usage.cacheRead.value, p.cacheRead.value) else 0.0)
        + (if Reported(usage.cacheWrite) then Charge(usage.cacheWrite.value, p.cacheWrite.value) else 0.0)))
  }

  /** The estimate as the code accumulates it, giving up at the first missing rate. */
  method EstimateStepwise(rates: Rates, model: string, usage: Usage) returns (cost: Cost)
    ensures cost == Estimate(rates, model, usage)
  {
    hide Times, Round6;
    if model !in rates {
      return None;
    }
    var pricing := rates[model];
    if usage.inputTokens.None? || usage.outputTokens.None? {
      return None;
    }
    var total := Charge(usage.inputTokens.value, pricing.input);
    total := total + Charge(usage.outputTokens.value, pricing.output);
    if Reported(usage.cacheRead) {
      if pricing.cacheRead.None? {
        return None;
      }
      total := total + Charge(usage.cacheRead.value, pricing.cacheRead.value);
    }
    if Reported(usage.cacheWrite) {
      if pricing.cacheWrite.None? {
        return None;
      }
      total := total + Charge(usage.cacheWrite.value, pricing.cacheWrite.value);
    }
    return Some(Round6(total));
  }

  function OrZero(tokens: Option<int>): int {
    if tokens.Some? then tokens.value else 0
  }

  function RateOf(rate: Option<real>): real {
    if rate.Some? then rate.value else 0.0
  }

  /** What tokens cost: a model with rates, both counts reported and a rate for every kind of cache traffic there was
      give the sum of tokens times their own rate per million, rounded; anything missing gives no cost at all. */
  lemma CostInTokens(rates: Rates, model: string, usage: Usage)
    ensures var cost := Estimate(rates, model, usage);
      && (cost.Some? <==>
            && model in rates && usage.inputTokens.Some? && usage.outputTokens.Some?
            && (OrZero(usage.cacheRead) != 0 ==> rates[model].cacheRead.Some?)
            && (OrZero(usage.cacheWrite) != 0 ==> rates[model].cacheWrite.Some?))
      && (cost.Some? ==>
            var p := rates[model];
            cost.value == Round6((Times(usage.inputTokens.value as real, p.input)
                                  + Times(usage.outputTokens.value as real, p.output)
                                  + Times(OrZero(usage.cacheRead) as real, RateOf(p.cacheRead))
                                  + Times(OrZero(usage.cacheWrite) as real, RateOf(p.cacheWrite))) / 1000000.0))
  {
    hide Times, Round6;
    if Priceable(rates, model, usage) {
      var p := rates[model];
      PerMillion(usage.inputTokens.value, p.input);
      PerMillion(usage.outputTokens.value, p.output);
      PerMillion(OrZero(usage.cacheRead), RateOf(p.cacheRead));
      PerMillion(OrZero(usage.cacheWrite), RateOf(p.cacheWrite));
    }
  }

  lemma PerMillion(tokens: int, rate: real)
    ensures Charge(tokens, rate) == Times(tokens as real, rate) / 1000000.0
    ensures Times(0 as real, rate) == 0.0
  {
  }

  /** The projection of a request: its whole output allowance, and one input token for every four characters of
      instructions, context and prompt, at least one. */
  lemma ProjectionInCharacters(rates: Rates, model: string, request: Request)
    ensures var chars := |request.system| + |request.staticPrefix| + |request.prompt|;
      var input := if chars < 4 then 1 else chars / 4;
      var projected := Project(rates, model, request.ContextSize(), request.policy.maxOutputTokens);
      && (projected.Some? <==> model in rates)
      && (projected.Some? ==>
            projected.value == Round6((Times(input as real, rates[model].input)
                                       + Times(request.policy.maxOutputTokens as real,
                                         rates[model].output)) / 1000000.0))
  {
    hide Times, Round6;
    var usage := Usage(Some(ProjectedInput(request.ContextSize())), Some(request.policy.maxOutputTokens), None, None);
    CostInTokens(rates, model, usage);
    if model in rates {
      PerMillion(0, RateOf(rates[model].cacheRead));
      PerMillion(0, RateOf(rates[model].cacheWrite));
    }
  }

  function ProjectedInput(inputChars: nat): int {
    var tokens := inputChars / CHARS_PER_TOKEN_ESTIMATE;
    if tokens < 1 then 1 else tokens
  }

  /** The pre-flight estimate: the whole output allowance, and input guessed from its length. */
  function Project(rates: Rates, model: string, inputChars: nat, maxOutputTokens: int): Cost {
    Estimate(rates, model, Usage(Some(ProjectedInput(inputChars)), Some(maxOutputTokens), None, None))
  }

  predicate NonNegativeRates(rates: Rates) {
    forall model | model in rates ::
      && rates[model].input >= 0.0 && rates[model].output >= 0.0
      && (rates[model].cacheRead.Some? ==> rates[model].cacheRead.value >= 0.0)
      && (rates[model].cacheWrite.Some? ==> rates[model].cacheWrite.value >= 0.0)
  }

  /** Usage that the projection covers: counted, within the guessed input and the output allowance, and
      with no cache traffic. */
  predicate CoveredBy(usage: Usage, inputChars: nat, maxOutputTokens: int) {
    && usage.inputTokens.Some? && 0 <= usage.inputTokens.value <= ProjectedInput(inputChars)
    && usage.outputTokens.Some? && 0 <= usage.outputTokens.value <= maxOutputTokens
    && !Reported(usage.cacheRead) && !Reported(usage.cacheWrite)
  }

  lemma ChargeMonotone(a: int, b: int, rate: real)
    requires 0 <= a <= b && rate >= 0.0
    ensures 0.0 <= Charge(a, rate) <= Charge(b, rate)
  {
    hide Times;
    var x, y := a as real / TOKENS_PER_RATE, b as real / TOKENS_PER_RATE;
    TimesSign(x, rate);
    TimesDistributes(y, x, rate);
    TimesSign(y - x, rate);
  }

  /** The projection is a worst case: covered usage of the projected model costs no more, after rounding
      too, and is known whenever the projection is. */
  lemma ProjectionCovers(rates: Rates, model: string, usage: Usage, inputChars: nat, maxOutputTokens: int)
    requires NonNegativeRates(rates) && CoveredBy(usage, inputChars, maxOutputTokens)
    ensures var projected, actual := Project(rates, model, inputChars, maxOutputTokens), Estimate(rates, model, usage);
      (projected.Some? <==> actual.Some?) && (actual.Some? ==> 0.0 <= actual.value <= projected.value)
  {
    hide Times, Round6;
    if model in rates {
      var p := rates[model];
      ChargeMonotone(usage.inputTokens.value, ProjectedInput(inputChars), p.input);
      ChargeMonotone(usage.outputTokens.value, maxOutputTokens, p.output);
      var actual := Charge(usage.inputTokens.value, p.input) + Charge(usage.outputTokens.value, p.output);
      var projected := Charge(ProjectedInput(inputChars), p.input) + Charge(maxOutputTokens, p.output);
      RoundMonotone(SixPlaces, actual, projected);
      ZeroOnGrid(SixPlaces);
      RoundKeepsBound(SixPlaces, 0.0, actual);
    }
  }

  /** Cache traffic is outside the projection: an answer within the token allowance can cost more. */
  lemma CacheTrafficEscapesProjection()
    ensures var rates: Rates := map["m" := ModelPricing(1.0, 1.0, Some(1.0), None)];
      var usage := Usage(Some(1), Some(1), Some(1000000), None);
      var projected, actual := Project(rates, "m", 4, 1), Estimate(rates, "m", usage);
      projected.Some? && actual.Some? && actual.value > projected.value
  {
    var rates: Rates := map["m" := ModelPricing(1.0, 1.0, Some(1.0), None)];
    assert Charge(1, 1.0) == 0.000001 && Charge(1000000, 1.0) == 1.0;
    GridPoint(0.000002, 2);
    GridPoint(1.000002, 1000002);
    RoundFixesGrid(SixPlaces, 0.000002);
    RoundFixesGrid(SixPlaces, 1.000002);
  }
}

/**
  Prices (packages/core/docfactory_core/pricing.py) and the two-attempt
  extraction loop whose tokens they price (packages/core/docfactory_core/extraction.py).

  Money is counted in millionths of a dollar, the unit every amount is
  quantized to; prices are dollars per million tokens, as reals.
 */
module Pricing {
  import opened Common
  import opened Resilience

  datatype ModelPrice = ModelPrice(inputPerMtok: real, outputPerMtok: real)

  /** ROUND_HALF_UP: nearest integer, ties away from zero. */
  function RoundHalfUp(x: real): int
  {
    if x >= 0.0 then (x + 0.5).Floor else -((-x + 0.5).Floor)
  }

  lemma RoundHalfUpIsMonotone(x: real, y: real)
    requires x <= y
    ensures RoundHalfUp(x) <= RoundHalfUp(y)
  {
    if x < 0.0 <= y {
      assert (-x + 0.5).Floor >= 0 && (y + 0.5).Floor >= 0;
    }
  }

  /** The nearest integer, ties away from zero. */
  lemma RoundHalfUpIsNearest(x: real)
    ensures var n := RoundHalfUp(x) as real;
      if x >= 0.0 then n - 0.5 <= x < n + 0.5 else n - 0.5 < x <= n + 0.5
  {
  }

  function Price(p: ModelPrice, input: nat, output: nat): real
  {
    input as real * p.inputPerMtok + output as real * p.outputPerMtok
  }

  function Cost(p: ModelPrice, input: nat, output: nat): int
  {
    RoundHalfUp(Price(p, input, output))
  }

  /** Four characters to the token, rounded down, plus one. */
  function EstimateInputTokens(characters: nat): nat
  {
    characters / 4 + 1
  }

  /** The estimate covers a prompt exactly when its tokens, all but one, average four characters. */
  lemma EstimateCovers(characters: nat, tokens: nat)
    ensures tokens <= EstimateInputTokens(characters) <==> 4 * tokens <= characters + 4
  {
    assert 4 * (characters / 4) <= characters < 4 * (characters / 4) + 4;
  }

  ghost predicate Charged(p: ModelPrice)
  {
    p.inputPerMtok >= 0.0 && p.outputPerMtok >= 0.0
  }

  lemma CostIsMonotone(p: ModelPrice, input: nat, output: nat, input': nat, output': nat)
    requires Charged(p) && input <= input' && output <= output'
    ensures 0 <= Cost(p, input, output) <= Cost(p, input', output')
  {
    PriceSplits(p, input, output, input' - input, output' - output);
    RoundHalfUpIsMonotone(Price(p, input, output), Price(p, input', output'));
    PriceSplits(p, 0, 0, input, output);
    RoundHalfUpIsMonotone(0.0, Price(p, input, output));
  }

  lemma PriceSplits(p: ModelPrice, input: nat, output: nat, moreInput: nat, moreOutput: nat)
    requires Charged(p)
    ensures Price(p, input + moreInput, output + moreOutput) == Price(p, input, output) + Price(p, moreInput, moreOutput)
    ensures Price(p, moreInput, moreOutput) >= 0.0
  {
    MulNonNegative(moreInput as real, p.inputPerMtok);
    MulNonNegative(moreOutput as real, p.outputPerMtok);
    assert (input + moreInput) as real * p.inputPerMtok
      == input as real * p.inputPerMtok + moreInput as real * p.inputPerMtok;
    assert (output + moreOutput) as real * p.outputPerMtok
      == output as real * p.outputPerMtok + moreOutput as real * p.outputPerMtok;
  }

  // --- the extraction loop ----------------------------------------------------

  /** One provider call: a completion with its token counts, a refusal, or another error. */
  datatype Completion =
    | Reply(inputTokens: Option<nat>, outputTokens: Option<nat>, valid: bool)
    | Refused
    | Broke(verdict: Verdict)

  datatype Extraction =
    | Outcome(recorded: bool, attempts: nat, inputTokens: nat, outputTokens: nat)
    | Aborted(verdict: Verdict)

  function OrZero(tokens: Option<nat>): nat
  {
    if tokens.Some? then tokens.value else 0
  }

  function InputOf(replies: seq<Completion>): nat
  {
    if replies == [] then 0
    else
      var last := replies[|replies| - 1];
      InputOf(replies[..|replies| - 1]) + if last.Reply? then OrZero(last.inputTokens) else 0
  }

  function OutputOf(replies: seq<Completion>): nat
  {
    if replies == [] then 0
    else
      var last := replies[|replies| - 1];
      OutputOf(replies[..|replies| - 1]) + if last.Reply? then OrZero(last.outputTokens) else 0
  }

  /** The first n answers of the provider. */
  function Answers(provider: nat -> Completion, n: nat): (replies: seq<Completion>)
    ensures |replies| == n
  {
    if n == 0 then [] else Answers(provider, n - 1) + [provider(n)]
  }

  /** Completions the provider delivers before the loop ends. */
  function Made(provider: nat -> Completion): nat
  {
    if !provider(1).Reply? then 0 else if provider(1).valid || !provider(2).Reply? then 1 else 2
  }

  /**
    The two attempts unrolled.  `provider(k)` is what call number k does: a valid
    answer ends the loop, a refusal gives up, any other error aborts and loses
    the tokens of the first call.
   */
  function Extracted(provider: nat -> Completion): Extraction
  {
    match provider(1)
    case Refused => Outcome(false, 2, 0, 0)
    case Broke(verdict) => Aborted(verdict)
    case Reply(input, output, valid) =>
      if valid then Outcome(true, 1, OrZero(input), OrZero(output))
      else
        match provider(2)
        case Refused => Outcome(false, 2, OrZero(input), OrZero(output))
        case Broke(verdict) => Aborted(verdict)
        case Reply(input', output', valid') =>
          Outcome(valid', 2, OrZero(input) + OrZero(input'), OrZero(output) + OrZero(output'))
  }

  lemma {:induction false} TokensAppend(replies: seq<Completion>, last: Completion)
    requires last.Reply?
    ensures InputOf(replies + [last]) == InputOf(replies) + OrZero(last.inputTokens)
    ensures OutputOf(replies + [last]) == OutputOf(replies) + OrZero(last.outputTokens)
  {
    assert (replies + [last])[..|replies|] == replies;
  }

  lemma TokensOfTwo(first: Completion, second: Completion)
    requires first.Reply? && second.Reply?
    ensures InputOf([second]) == OrZero(second.inputTokens) && OutputOf([second]) == OrZero(second.outputTokens)
    ensures InputOf([first, second]) == OrZero(first.inputTokens) + OrZero(second.inputTokens)
    ensures OutputOf([first, second]) == OrZero(first.outputTokens) + OrZero(second.outputTokens)
  {
    TokensAppend([], first);
    TokensAppend([], second);
    TokensAppend([first], second);
    assert [] + [first] == [first] && [] + [second] == [second] && [first] + [second] == [first, second];
  }

  lemma AnswersUpToTwo(provider: nat -> Completion)
    ensures Answers(provider, 0) == []
    ensures Answers(provider, 1) == [provider(1)]
    ensures Answers(provider, 2) == [provider(1), provider(2)]
  {
    assert Answers(provider, 2) == Answers(provider, 1) + [provider(2)];
  }

  lemma NoTokens()
    ensures InputOf([]) == OutputOf([]) == 0
  {
  }

  /** An outcome adds up the tokens of every completion made, and of nothing else. */
  lemma {:induction false} ExtractedTokens(provider: nat -> Completion)
    ensures Extracted(provider).Outcome? ==>
      && Extracted(provider).inputTokens == InputOf(Answers(provider, Made(provider)))
      && Extracted(provider).outputTokens == OutputOf(Answers(provider, Made(provider)))
  {
    var first, second := provider(1), provider(2);
    NoTokens();
    AnswersUpToTwo(provider);
    hide Answers, InputOf, OutputOf, OrZero;
    if first.Reply? {
      TokensOfTwo(first, first);
    }
    if first.Reply? && second.Reply? {
      TokensOfTwo(first, second);
    }
  }

  /**
    `made` counts the completions the provider delivered: an error in the second
    call loses the first one's tokens.
   */
  method RunExtraction(provider: nat -> Completion) returns (r: Extraction, made: nat)
    ensures r == Extracted(provider) && made == Made(provider)
    ensures made >= 1 ==> provider(1).Reply?
    ensures made == 2 ==> provider(2).Reply? && !provider(1).valid
    ensures r.Aborted? ==> made <= 1 && provider(made + 1) == Broke(r.verdict)
    ensures r.Outcome? ==>
      r.inputTokens == InputOf(Answers(provider, made)) && r.outputTokens == OutputOf(Answers(provider, made))
    ensures made >= 1 && provider(1).valid ==> r.Outcome? && r.recorded && made == 1
    ensures r.Outcome? ==> (r.recorded <==> made >= 1 && provider(made).valid)
    ensures r.Outcome? && r.recorded ==> r.attempts == made
    ensures r.Outcome? && !r.recorded ==>
      r.attempts == 2 && if made == 2 then !provider(2).valid else provider(made + 1).Refused?
  {
    ExtractedTokens(provider);
    hide InputOf, OutputOf, Answers;
    var input, output := 0, 0;
    made := 0;
    for attempt := 1 to 3
      invariant made == attempt - 1
      invariant made >= 1 ==> provider(1).Reply? && !provider(1).valid
      invariant made == 2 ==> provider(2).Reply? && !provider(2).valid
      invariant input == (if made >= 1 then OrZero(provider(1).inputTokens) else 0)
                         + (if made == 2 then OrZero(provider(2).inputTokens) else 0)
      invariant output == (if made >= 1 then OrZero(provider(1).outputTokens) else 0)
                          + (if made == 2 then OrZero(provider(2).outputTokens) else 0)
    {
      var response := provider(attempt);
      match response
      case Refused =>
        return Outcome(false, 2, input, output), made;
      case Broke(verdict) =>
        return Aborted(verdict), made;
      case Reply(inputTokens, outputTokens, valid) =>
        made := made + 1;
        input := input + OrZero(inputTokens);
        output := output + OrZero(outputTokens);
        if valid {
          return Outcome(true, attempt, input, output), made;
        }
    }
    r := Outcome(false, 2, input, output);
  }

  /** How far a settled call went past what was reserved for it. */
  function OverrunOf(reserved: int, actual: int): nat
  {
    if actual > reserved then actual - reserved else 0
  }

  /** A run of one completion inside its estimate costs no more than was reserved. */
  lemma OneCompletionWithinEstimate(p: ModelPrice, estimate: nat, ceiling: nat, reply: Completion)
    requires Charged(p) && reply.Reply?
    requires OrZero(reply.inputTokens) <= estimate && OrZero(reply.outputTokens) <= ceiling
    ensures OverrunOf(Cost(p, estimate, ceiling), Cost(p, InputOf([reply]), OutputOf([reply]))) == 0
  {
    TokensOfTwo(reply, reply);
    CostIsMonotone(p, InputOf([reply]), OutputOf([reply]), estimate, ceiling);
  }

  /** A call costs no more than its reservation at every price exactly when each token count is within its estimate. */
  lemma WithinIffTokensWithin(estimate: nat, ceiling: nat, input: nat, output: nat)
    ensures (forall p :: Charged(p) ==> OverrunOf(Cost(p, estimate, ceiling), Cost(p, input, output)) == 0)
      <==> input <= estimate && output <= ceiling
  {
    if input <= estimate && output <= ceiling {
      forall p | Charged(p) ensures Cost(p, input, output) <= Cost(p, estimate, ceiling) {
        CostIsMonotone(p, input, output, estimate, ceiling);
      }
    } else {
      var p := if input > estimate then ModelPrice(1.0, 0.0) else ModelPrice(0.0, 1.0);
      assert Charged(p) && OverrunOf(Cost(p, estimate, ceiling), Cost(p, input, output)) > 0;
    }
  }

  /** The first completion, if there is one, is within the estimate it was reserved for. */
  predicate FirstWithin(provider: nat -> Completion, estimate: nat, ceiling: nat)
  {
    var first := provider(1);
    first.Reply? ==> OrZero(first.inputTokens) <= estimate && OrZero(first.outputTokens) <= ceiling
  }

  lemma RoundHalfUpSplits(x: real, y: real)
    requires x >= 0.0 && y >= 0.0
    ensures RoundHalfUp(x + y) <= RoundHalfUp(x) + RoundHalfUp(y) + 1
  {
  }

  /** With two completions the overrun is at most the second one's price, plus one unit of rounding. */
  lemma TwoCompletionsOverrun(p: ModelPrice, estimate: nat, ceiling: nat, first: Completion, second: Completion)
    requires Charged(p) && first.Reply? && second.Reply?
    requires OrZero(first.inputTokens) <= estimate && OrZero(first.outputTokens) <= ceiling
    ensures OverrunOf(Cost(p, estimate, ceiling), Cost(p, InputOf([first, second]), OutputOf([first, second])))
      <= Cost(p, InputOf([second]), OutputOf([second])) + 1
  {
    var i, o := OrZero(second.inputTokens), OrZero(second.outputTokens);
    TokensOfTwo(first, second);
    CostIsMonotone(p, InputOf([first, second]), OutputOf([first, second]), estimate + i, ceiling + o);
    PriceSplits(p, estimate, ceiling, i, o);
    PriceSplits(p, 0, 0, estimate, ceiling);
    RoundHalfUpSplits(Price(p, estimate, ceiling), Price(p, i, o));
  }

  /** What a second completion can cost past the reservation. */
  function SecondCost(p: ModelPrice, provider: nat -> Completion): int
  {
    if Made(provider) < 2 then 0 else Cost(p, InputOf([provider(2)]), OutputOf([provider(2)])) + 1
  }

  /** So a run whose first completion is within its estimate overruns by its second completion at most. */
  lemma {:induction false} RunOverrun(p: ModelPrice, estimate: nat, ceiling: nat, provider: nat -> Completion)
    requires Charged(p) && FirstWithin(provider, estimate, ceiling) && Extracted(provider).Outcome?
    ensures var r := Extracted(provider);
      OverrunOf(Cost(p, estimate, ceiling), Cost(p, r.inputTokens, r.outputTokens)) <= SecondCost(p, provider)
  {
    ExtractedTokens(provider);
    AnswersUpToTwo(provider);
    hide Cost, InputOf, OutputOf, Answers;
    if Made(provider) == 2 {
      TwoCompletionsOverrun(p, estimate, ceiling, provider(1), provider(2));
    } else if Made(provider) == 1 {
      OneCompletionWithinEstimate(p, estimate, ceiling, provider(1));
    } else {
      NoTokens();
      CostIsMonotone(p, 0, 0, estimate, ceiling);
    }
  }

  /** The overrun is real: an invalid first answer followed by a second full one, at the small tier. */
  lemma TwoCompletionsCanOverrun()
    ensures var p := ModelPrice(1.0, 5.0);
            var full := Reply(Some(1000), Some(8192), false);
            OverrunOf(Cost(p, 1000, 8192), Cost(p, InputOf([full, full]), OutputOf([full, full]))) == 41960
  {
    var full := Reply(Some(1000), Some(8192), false);
    TokensOfTwo(full, full);
  }
}

/**
  Token and cost accounting: the usage record attached to every persisted or
  streamed invoice payload, and the floored variant shown in the aggregate
  stream. Arithmetic is exact (`real`), not IEEE doubles.
*/
module Accounting {
  import opened JsValue

  datatype TokenUsage = TokenUsage(input: int, output: int, total: int, estimatedCost: real)

  /** Dollars per million input tokens. */
  const InputCostPerMillion: real := 3.0
  /** Dollars per million output tokens. */
  const OutputCostPerMillion: real := 15.0

  /** `calculateTokenUsage` (server.ts:7-20). */
  function CalculateTokenUsage(input: nat, output: nat): (u: TokenUsage)
    ensures u.input == input && u.output == output
    ensures u.total == u.input + u.output
    ensures u.estimatedCost * 1000000.0 == 3.0 * input as real + 15.0 * output as real
    ensures u.estimatedCost >= 0.0
  {
    var inputCost := input as real / 1000000.0 * InputCostPerMillion;
    var outputCost := output as real / 1000000.0 * OutputCostPerMillion;
    TokenUsage(input, output, input + output, inputCost + outputCost)
  }

  /** The smallest cost the aggregate stream shows. */
  const MinDisplayedCost: real := 0.0001

  function Max(a: int, b: int): int { if a >= b then a else b }
  function MaxReal(a: real, b: real): real { if a >= b then a else b }

  /** The usage written into the aggregate stream: counts at least 1, cost at least 0.0001. */
  function DisplayUsage(input: nat, output: nat): (d: TokenUsage)
    ensures d.input >= 1 && d.output >= 1 && d.total >= 1 && d.estimatedCost >= MinDisplayedCost
    ensures input >= 1 ==> d.input == input
    ensures output >= 1 ==> d.output == output
    ensures d.total >= CalculateTokenUsage(input, output).total
    ensures d.estimatedCost >= CalculateTokenUsage(input, output).estimatedCost
  {
    var raw := CalculateTokenUsage(input, output);
    TokenUsage(Max(raw.input, 1), Max(raw.output, 1), Max(raw.total, 1),
               MaxReal(raw.estimatedCost, MinDisplayedCost))
  }

  /** The zero record `displayExistingInvoice` streams (process-invoice.ts:333-338). */
  const ZeroUsage: TokenUsage := TokenUsage(0, 0, 0, 0.0)

  /** The usage record as the JSON object `{input, output, total, estimated_cost}`. */
  function UsageJson(u: TokenUsage): (v: Json)
    ensures v.JObj? && Truthy(v)
  {
    JObj([Field("input", JNum(u.input as real)), Field("output", JNum(u.output as real)),
          Field("total", JNum(u.total as real)), Field("estimated_cost", JNum(u.estimatedCost))])
  }

  /** One million tokens each way costs 3 + 15 = 18; no tokens cost nothing. */
  lemma CostExamples()
    ensures CalculateTokenUsage(1000000, 1000000).estimatedCost == 18.0
    ensures CalculateTokenUsage(0, 0) == ZeroUsage
  {
  }

  /**
    For a zero-usage run the stream shows total 1 and cost 0.0001 while the
    raw record stays all zeros.
  */
  lemma ZeroUsageIsFloored()
    ensures DisplayUsage(0, 0) == TokenUsage(1, 1, 1, MinDisplayedCost)
    ensures CalculateTokenUsage(0, 0) == TokenUsage(0, 0, 0, 0.0)
  {
  }

  /**
    Flooring leaves the record untouched exactly when nothing needed flooring:
    both counts at least 1 and the cost at least 0.0001.
  */
  lemma DisplayUsageExact(input: nat, output: nat)
    ensures DisplayUsage(input, output) == CalculateTokenUsage(input, output)
            <==> input >= 1 && output >= 1 && CalculateTokenUsage(input, output).estimatedCost >= MinDisplayedCost
  {
  }

  /**
    The floored counts still add up (total = input + output) exactly when both
    raw counts are at least 1: flooring is applied to each count separately.
  */
  lemma DisplayTotalAddsUp(input: nat, output: nat)
    ensures var d := DisplayUsage(input, output);
            d.total == d.input + d.output <==> input >= 1 && output >= 1
  {
  }
}

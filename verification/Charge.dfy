/** Prices in micros per million tokens: the floor charge that is billed and the ceiling
    charge that is frozen up front. */
module Charge {
  const MICROS_PER_MILLION := 1_000_000

  const MAX_OUTPUT_TOKENS := 128_000

  /** Go's integer division: it truncates toward zero, Dafny's does not. */
  function GoDiv(a: int, b: int): int
    requires b != 0
  {
    if (a >= 0) == (b > 0) || a == 0 then Abs(a) / Abs(b) else -(Abs(a) / Abs(b))
  }

  function Abs(x: int): nat {
    if x < 0 then -x else x
  }

  function Max(a: int, b: int): int {
    if a < b then b else a
  }

  /** The bill of a finished call. */
  function ChargeMicros(inputTokens: int, outputTokens: int, inputPerMillion: int, outputPerMillion: int): int {
    var input := if inputTokens < 0 then 0 else inputTokens;
    var output := if outputTokens < 0 then 0 else outputTokens;
    GoDiv(input * inputPerMillion + output * outputPerMillion, MICROS_PER_MILLION)
  }

  /** The freeze for one side of a call. */
  function ChargeMicrosCeil(tokens: int, perMillion: int): int {
    if tokens <= 0 || perMillion <= 0 then 0
    else GoDiv(tokens * perMillion + MICROS_PER_MILLION - 1, MICROS_PER_MILLION)
  }

  function MaxTokensForBudget(budget: int, perMillion: int): int {
    if budget <= 0 || perMillion <= 0 then 0
    else
      var n := GoDiv(budget * MICROS_PER_MILLION, perMillion);
      if n > MAX_OUTPUT_TOKENS then MAX_OUTPUT_TOKENS else n
  }

  lemma ProductPositive(a: int, b: int)
    requires a > 0 && b > 0
    ensures a * b > 0
  {
  }

  lemma ProductMonotone(a: int, b: int, p: int)
    requires a <= b && 0 <= p
    ensures a * p <= b * p
  {
  }

  /** The freeze covers exactly what the tokens cost: a budget fits the freeze if and only if
      it fits the exact, unrounded price. */
  lemma CeilCovers(tokens: int, perMillion: int, budget: int)
    requires 0 <= budget
    ensures ChargeMicrosCeil(tokens, perMillion) <= budget
            <==> (tokens <= 0 || perMillion <= 0 || tokens * perMillion <= budget * 1_000_000)
  {
    if tokens > 0 && perMillion > 0 {
      ProductPositive(tokens, perMillion);
      var total := tokens * perMillion;
      assert ChargeMicrosCeil(tokens, perMillion) == (total + 999_999) / 1_000_000;
    }
  }

  lemma CeilMonotone(a: int, b: int, perMillion: int)
    requires a <= b
    ensures 0 <= ChargeMicrosCeil(a, perMillion) <= ChargeMicrosCeil(b, perMillion)
  {
    if b > 0 && perMillion > 0 {
      ProductPositive(b, perMillion);
      if a > 0 {
        ProductPositive(a, perMillion);
        ProductMonotone(a, b, perMillion);
      }
    }
  }

  /** The bill is the exact price of the tokens, negative counts taken for none, cut to whole micros
      towards zero. */
  lemma BillIsExact(inputTokens: int, outputTokens: int, inputPerMillion: int, outputPerMillion: int)
    ensures var bill := ChargeMicros(inputTokens, outputTokens, inputPerMillion, outputPerMillion);
            var total := (if inputTokens < 0 then 0 else inputTokens) * inputPerMillion
                         + (if outputTokens < 0 then 0 else outputTokens) * outputPerMillion;
            && (total >= 0 ==> 1_000_000 * bill <= total < 1_000_000 * (bill + 1))
            && (total < 0 ==> 1_000_000 * (bill - 1) < total <= 1_000_000 * bill)
  {
    var total := (if inputTokens < 0 then 0 else inputTokens) * inputPerMillion
                 + (if outputTokens < 0 then 0 else outputTokens) * outputPerMillion;
    assert ChargeMicros(inputTokens, outputTokens, inputPerMillion, outputPerMillion) == GoDiv(total, 1_000_000);
    Truncates(total);
  }

  lemma Truncates(total: int)
    ensures total >= 0 ==> 1_000_000 * GoDiv(total, 1_000_000) <= total < 1_000_000 * (GoDiv(total, 1_000_000) + 1)
    ensures total < 0 ==> 1_000_000 * (GoDiv(total, 1_000_000) - 1) < total <= 1_000_000 * GoDiv(total, 1_000_000)
  {
  }

  /** One division inverts the ceiling price: a token count within the hard ceiling is affordable
      if and only if it is at most the quotient. */
  lemma BudgetInverts(budget: int, perMillion: int, n: int)
    requires 0 < budget && 0 < perMillion && n <= 128_000
    ensures n <= MaxTokensForBudget(budget, perMillion) <==> ChargeMicrosCeil(n, perMillion) <= budget
  {
    var scaled := budget * MICROS_PER_MILLION;
    var q := scaled / perMillion;
    assert GoDiv(scaled, perMillion) == q;
    assert q * perMillion <= scaled < (q + 1) * perMillion by {
      assert scaled == perMillion * q + scaled % perMillion;
      assert (q + 1) * perMillion == q * perMillion + perMillion;
    }
    CeilCovers(n, perMillion, budget);
    if n <= q {
      ProductMonotone(n, q, perMillion);
    } else {
      ProductMonotone(q + 1, n, perMillion);
    }
  }

  /** The floor bill of a call that used no more than was planned is within the freeze. */
  lemma FloorWithinCeiling(input: int, output: int, estimate: int, cap: int, inputPerMillion: int,
          outputPerMillion: int)
    requires 0 <= inputPerMillion && 0 <= outputPerMillion
    requires input <= estimate && output <= cap
    ensures 0 <= ChargeMicros(input, output, inputPerMillion, outputPerMillion)
                 <= ChargeMicrosCeil(estimate, inputPerMillion) + ChargeMicrosCeil(cap, outputPerMillion)
  {
    var a := if input < 0 then 0 else input;
    var b := if output < 0 then 0 else output;
    ProductMonotone(0, a, inputPerMillion);
    ProductMonotone(0, b, outputPerMillion);
    var ceilIn, ceilOut := ChargeMicrosCeil(input, inputPerMillion), ChargeMicrosCeil(output, outputPerMillion);
    CeilMonotone(input, estimate, inputPerMillion);
    CeilMonotone(output, cap, outputPerMillion);
    CeilCovers(input, inputPerMillion, ceilIn);
    CeilCovers(output, outputPerMillion, ceilOut);
    assert a * inputPerMillion <= ceilIn * MICROS_PER_MILLION;
    assert b * outputPerMillion <= ceilOut * MICROS_PER_MILLION;
    var total := a * inputPerMillion + b * outputPerMillion;
    assert ChargeMicros(input, output, inputPerMillion, outputPerMillion) == total / 1_000_000;
  }
}

/** Sizing of a credit hold, its specification as a maximisation, and its behaviour on 64-bit
    integers. */
module HoldPlan {
  import opened Wrappers
  import opened Charge

  datatype Plan = Plan(amount: int, maxTokens: int)

  datatype PlanError = InsufficientCredits

  /** The request's token cap after the defaults and the hard ceiling. */
  function ClampedRequest(requestedMax: int, defaultMax: int): (cap: int)
    ensures 1 <= cap <= MAX_OUTPUT_TOKENS
  {
    var d := if defaultMax < 1 then 4096 else defaultMax;
    var m := if requestedMax <= 0 then d else requestedMax;
    if m > MAX_OUTPUT_TOKENS then MAX_OUTPUT_TOKENS else m
  }

  /** The largest output count within the hard ceiling that the balance affords beside the input. */
  function Affordable(inputHold: int, requested: int, outputPerMillion: int, available: int): int {
    if outputPerMillion <= 0 then requested else MaxTokensForBudget(available - inputHold, outputPerMillion)
  }

  /** The refusals in their order, over the quantities computed for them: the input's share, the
      affordable output count and the total freeze. */
  function Decide(available: int, threshold: int, inputHold: int, affordable: int, maxTokens: int, sum: int)
    : Result<Plan, PlanError>
  {
    if available < threshold then Err(InsufficientCredits)
    else if inputHold >= available then Err(InsufficientCredits)
    else if affordable < 1 then Err(InsufficientCredits)
    else
      var hold := if sum < 1 then 1 else sum;
      if hold > available then Err(InsufficientCredits) else Ok(Plan(hold, maxTokens))
  }

  function ComputeHold(inputTokens: int, requestedMax: int, defaultMax: int,
                       inputPerMillion: int, outputPerMillion: int, available: int, threshold: int)
    : Result<Plan, PlanError>
  {
    var input := if inputTokens < 0 then 0 else inputTokens;
    var requested := ClampedRequest(requestedMax, defaultMax);
    var inputHold := ChargeMicrosCeil(input, inputPerMillion);
    var affordable := Affordable(inputHold, requested, outputPerMillion, available);
    var maxTokens := if requested > affordable then affordable else requested;
    Decide(available, threshold, inputHold, affordable, maxTokens, inputHold + ChargeMicrosCeil(maxTokens, outputPerMillion))
  }

  /** The freeze that n output tokens need. */
  function Freeze(inputTokens: int, n: int, inputPerMillion: int, outputPerMillion: int): int {
    ChargeMicrosCeil(inputTokens, inputPerMillion) + ChargeMicrosCeil(n, outputPerMillion)
  }

  lemma AffordableExact(inputHold: int, requested: int, outputPerMillion: int, available: int, n: int)
    requires 0 <= inputHold < available && n <= requested <= MAX_OUTPUT_TOKENS
    ensures 0 <= ChargeMicrosCeil(n, outputPerMillion)
    ensures n <= Affordable(inputHold, requested, outputPerMillion, available)
            <==> inputHold + ChargeMicrosCeil(n, outputPerMillion) <= available
  {
    CeilMonotone(n, n, outputPerMillion);
    if outputPerMillion > 0 {
      BudgetInverts(available - inputHold, outputPerMillion, n);
    }
  }

  /** A hold is granted exactly when the balance reaches the threshold, exceeds the input's share
      and affords one output token; it then promises the largest token count within the clamped
      request that the balance affords, and freezes that count's price (at least one micro).
      The closing comparison with the balance therefore never refuses anything. */
  lemma ComputeHoldIsMaximal(inputTokens: int, requestedMax: int, defaultMax: int,
                             inputPerMillion: int, outputPerMillion: int, available: int, threshold: int)
    ensures var r := ComputeHold(inputTokens, requestedMax, defaultMax, inputPerMillion, outputPerMillion, available, threshold);
            var asked := if requestedMax > 0 then requestedMax else if defaultMax > 0 then defaultMax else 4096;
            var cap := if asked <= 128_000 then asked else 128_000;
            && (r.Ok? <==>
                && threshold <= available
                && ChargeMicrosCeil(inputTokens, inputPerMillion) < available
                && Freeze(inputTokens, 1, inputPerMillion, outputPerMillion) <= available)
            && (r.Ok? ==>
                && 1 <= r.value.maxTokens <= cap
                && r.value.amount == Max(1, Freeze(inputTokens, r.value.maxTokens, inputPerMillion, outputPerMillion))
                && 1 <= r.value.amount <= available
                && forall n :: 1 <= n <= cap ==>
                     (Freeze(inputTokens, n, inputPerMillion, outputPerMillion) <= available <==> n <= r.value.maxTokens))
  {
    var inputHold := ChargeMicrosCeil(inputTokens, inputPerMillion);
    var requested := ClampedRequest(requestedMax, defaultMax);
    CeilMonotone(inputTokens, inputTokens, inputPerMillion);
    if inputHold < available {
      forall n | n <= requested
        ensures 0 <= ChargeMicrosCeil(n, outputPerMillion)
        ensures n <= Affordable(inputHold, requested, outputPerMillion, available)
                <==> Freeze(inputTokens, n, inputPerMillion, outputPerMillion) <= available
      {
        AffordableExact(inputHold, requested, outputPerMillion, available, n);
      }
    }
  }

  /* ----- The same computation on 64-bit integers ----- */

  const MAX_INT64 := 0x7FFF_FFFF_FFFF_FFFF

  /** The largest budget whose product with a million still fits 64 bits. */
  const MAX_SCALABLE_BUDGET := 9_223_372_036_854

  predicate IsInt64(x: int) {
    -MAX_INT64 - 1 <= x <= MAX_INT64
  }

  /** Two's complement wrap-around. */
  function Wrap(x: int): int {
    (x + MAX_INT64 + 1) % 0x1_0000_0000_0000_0000 - MAX_INT64 - 1
  }

  function ChargeMicrosCeil64(tokens: int, perMillion: int): int {
    if tokens <= 0 || perMillion <= 0 then 0
    else GoDiv(Wrap(Wrap(Wrap(tokens * perMillion) + MICROS_PER_MILLION) - 1), MICROS_PER_MILLION)
  }

  function MaxTokensForBudget64(budget: int, perMillion: int): int {
    if budget <= 0 || perMillion <= 0 then 0
    else
      var n := GoDiv(Wrap(budget * MICROS_PER_MILLION), perMillion);
      if n > MAX_OUTPUT_TOKENS then MAX_OUTPUT_TOKENS else n
  }

  function ComputeHold64(inputTokens: int, requestedMax: int, defaultMax: int,
                         inputPerMillion: int, outputPerMillion: int, available: int, threshold: int)
    : Result<Plan, PlanError>
  {
    var input := if inputTokens < 0 then 0 else inputTokens;
    var requested := ClampedRequest(requestedMax, defaultMax);
    var inputHold := ChargeMicrosCeil64(input, inputPerMillion);
    var affordable := if outputPerMillion <= 0 then requested
                      else MaxTokensForBudget64(Wrap(available - inputHold), outputPerMillion);
    var maxTokens := if requested > affordable then affordable else requested;
    Decide(available, threshold, inputHold, affordable, maxTokens,
           Wrap(inputHold + ChargeMicrosCeil64(maxTokens, outputPerMillion)))
  }

  lemma CeilFits(tokens: int, perMillion: int)
    requires perMillion > 0 ==> tokens * perMillion + 999_999 <= MAX_INT64
    ensures ChargeMicrosCeil64(tokens, perMillion) == ChargeMicrosCeil(tokens, perMillion)
    ensures 0 <= ChargeMicrosCeil(tokens, perMillion) <= 9_223_372_036_855
  {
    if tokens > 0 && perMillion > 0 {
      ProductPositive(tokens, perMillion);
      var x := tokens * perMillion;
      assert Wrap(x) == x;
      assert Wrap(Wrap(x + MICROS_PER_MILLION) - 1) == x + 999_999;
    }
  }

  /** A budget above the bound (and below twice it) wraps to a negative product and then looks
      like no budget at all. */
  lemma BudgetFits(budget: int, perMillion: int)
    requires 0 < budget <= 18_446_744_073_709 && 0 < perMillion
    ensures budget <= MAX_SCALABLE_BUDGET ==> MaxTokensForBudget64(budget, perMillion) == MaxTokensForBudget(budget, perMillion)
    ensures budget > MAX_SCALABLE_BUDGET ==> MaxTokensForBudget64(budget, perMillion) < 1
  {
    var x := budget * MICROS_PER_MILLION;
    if budget <= MAX_SCALABLE_BUDGET {
      assert Wrap(x) == x;
    } else {
      assert Wrap(x) == x - 0x1_0000_0000_0000_0000 < 0;
      assert GoDiv(Wrap(x), perMillion) == -(Abs(Wrap(x)) / perMillion);
    }
  }

  /** When the two prices fit, the 64-bit computation agrees with the exact one, for every 64-bit
      balance, if and only if the budget left for output can be scaled by a million, or wraps to a
      number that happens to afford the request all the same, or is not looked at. */
  lemma Int64Exact(inputTokens: int, requestedMax: int, defaultMax: int,
                   inputPerMillion: int, outputPerMillion: int, available: int, threshold: int)
    requires IsInt64(available)
    requires inputPerMillion > 0 ==> inputTokens * inputPerMillion + 999_999 <= MAX_INT64
    requires outputPerMillion > 0 ==> ClampedRequest(requestedMax, defaultMax) * outputPerMillion + 999_999 <= MAX_INT64
    ensures var budget := available - ChargeMicrosCeil(inputTokens, inputPerMillion);
            ComputeHold64(inputTokens, requestedMax, defaultMax, inputPerMillion, outputPerMillion, available, threshold)
            == ComputeHold(inputTokens, requestedMax, defaultMax, inputPerMillion, outputPerMillion, available, threshold)
            <==>
            (|| available < threshold
             || outputPerMillion <= 0
             || budget <= MAX_SCALABLE_BUDGET
             || ClampedRequest(requestedMax, defaultMax) <= MaxTokensForBudget64(budget, outputPerMillion))
  {
    if outputPerMillion <= 0 || available - ChargeMicrosCeil(inputTokens, inputPerMillion) <= MAX_SCALABLE_BUDGET {
      AgreesWhenScalable(inputTokens, requestedMax, defaultMax, inputPerMillion, outputPerMillion, available, threshold);
    } else if threshold <= available {
      PromisesWhenNot(inputTokens, requestedMax, defaultMax, inputPerMillion, outputPerMillion, available, threshold);
    }
  }

  lemma AgreesWhenScalable(inputTokens: int, requestedMax: int, defaultMax: int,
                           inputPerMillion: int, outputPerMillion: int, available: int, threshold: int)
    requires IsInt64(available)
    requires inputPerMillion > 0 ==> inputTokens * inputPerMillion + 999_999 <= MAX_INT64
    requires outputPerMillion > 0 ==> ClampedRequest(requestedMax, defaultMax) * outputPerMillion + 999_999 <= MAX_INT64
    requires outputPerMillion <= 0 || available - ChargeMicrosCeil(inputTokens, inputPerMillion) <= MAX_SCALABLE_BUDGET
    ensures ComputeHold64(inputTokens, requestedMax, defaultMax, inputPerMillion, outputPerMillion, available, threshold)
            == ComputeHold(inputTokens, requestedMax, defaultMax, inputPerMillion, outputPerMillion, available, threshold)
  {
    var input := if inputTokens < 0 then 0 else inputTokens;
    var requested := ClampedRequest(requestedMax, defaultMax);
    var inputHold := ChargeMicrosCeil(inputTokens, inputPerMillion);
    CeilFits(inputTokens, inputPerMillion);
    CeilFits(input, inputPerMillion);
    assert ChargeMicrosCeil(input, inputPerMillion) == inputHold;
    if inputHold < available {
      OutputSideFits(inputHold, requested, outputPerMillion, available);
    }
    hide ChargeMicrosCeil, ChargeMicrosCeil64, MaxTokensForBudget, MaxTokensForBudget64, Wrap, ClampedRequest;
  }

  /** The output side of the 64-bit computation, once the input's share is known. */
  lemma OutputSideFits(inputHold: int, requested: int, perMillion: int, available: int)
    requires 0 <= inputHold <= 9_223_372_036_855 && inputHold < available
    requires perMillion <= 0 || available - inputHold <= MAX_SCALABLE_BUDGET
    requires perMillion > 0 ==> requested * perMillion + 999_999 <= MAX_INT64
    ensures perMillion > 0 ==>
      MaxTokensForBudget64(Wrap(available - inputHold), perMillion) == MaxTokensForBudget(available - inputHold, perMillion)
    ensures var affordable := Affordable(inputHold, requested, perMillion, available);
            var m := if requested > affordable then affordable else requested;
            Wrap(inputHold + ChargeMicrosCeil64(m, perMillion)) == inputHold + ChargeMicrosCeil(m, perMillion)
  {
    if perMillion <= 0 {
      SmallSumFits(inputHold, 0);
    } else {
      assert Wrap(available - inputHold) == available - inputHold;
      BudgetFits(available - inputHold, perMillion);
      OutputFreezeFits(inputHold, requested, MaxTokensForBudget(available - inputHold, perMillion), perMillion);
    }
  }

  /** With a budget too large to scale, the exact computation promises the whole request; the
      64-bit one promises what the wrapped budget affords. */
  lemma PromisesWhenNot(inputTokens: int, requestedMax: int, defaultMax: int,
                        inputPerMillion: int, outputPerMillion: int, available: int, threshold: int)
    requires IsInt64(available) && threshold <= available
    requires inputPerMillion > 0 ==> inputTokens * inputPerMillion + 999_999 <= MAX_INT64
    requires outputPerMillion > 0
    requires ClampedRequest(requestedMax, defaultMax) * outputPerMillion + 999_999 <= MAX_INT64
    requires available - ChargeMicrosCeil(inputTokens, inputPerMillion) > MAX_SCALABLE_BUDGET
    ensures var exact := ComputeHold(inputTokens, requestedMax, defaultMax, inputPerMillion, outputPerMillion, available, threshold);
            var wrapped := ComputeHold64(inputTokens, requestedMax, defaultMax, inputPerMillion, outputPerMillion, available, threshold);
            var budget := available - ChargeMicrosCeil(inputTokens, inputPerMillion);
            var requested := ClampedRequest(requestedMax, defaultMax);
            && exact.Ok? && exact.value.maxTokens == requested
            && (requested <= MaxTokensForBudget64(budget, outputPerMillion) ==> wrapped == exact)
            && (requested > MaxTokensForBudget64(budget, outputPerMillion) ==> wrapped.Err? || wrapped.value.maxTokens < requested)
  {
    var input := if inputTokens < 0 then 0 else inputTokens;
    var inputHold := ChargeMicrosCeil(inputTokens, inputPerMillion);
    var budget, requested := available - inputHold, ClampedRequest(requestedMax, defaultMax);
    CeilFits(inputTokens, inputPerMillion);
    CeilFits(input, inputPerMillion);
    CeilFits(requested, outputPerMillion);
    SmallSumFits(inputHold, ChargeMicrosCeil(requested, outputPerMillion));
    WrapsToItself(budget);
    assert ChargeMicrosCeil(input, inputPerMillion) == inputHold;
    WholeRequestFits(requested, budget, outputPerMillion);
    hide ChargeMicrosCeil, ChargeMicrosCeil64, MaxTokensForBudget, MaxTokensForBudget64, Wrap, ClampedRequest;
  }

  lemma WholeRequestFits(requested: int, budget: int, perMillion: int)
    requires 1 <= requested <= MAX_OUTPUT_TOKENS && MAX_SCALABLE_BUDGET < budget && 0 < perMillion
    requires requested * perMillion + 999_999 <= MAX_INT64
    ensures requested <= MaxTokensForBudget(budget, perMillion)
    ensures ChargeMicrosCeil(requested, perMillion) <= budget
  {
    CeilCovers(requested, perMillion, budget);
    BudgetInverts(budget, perMillion, requested);
  }

  /** A balance above the bound, up to twice it, is refused as if it were empty. */
  lemma RefusesWhenNot(inputTokens: int, requestedMax: int, defaultMax: int,
                       inputPerMillion: int, outputPerMillion: int, available: int, threshold: int)
    requires threshold <= available <= 18_446_744_073_709
    requires inputPerMillion > 0 ==> inputTokens * inputPerMillion + 999_999 <= MAX_INT64
    requires outputPerMillion > 0
    requires ClampedRequest(requestedMax, defaultMax) * outputPerMillion + 999_999 <= MAX_INT64
    requires available - ChargeMicrosCeil(inputTokens, inputPerMillion) > MAX_SCALABLE_BUDGET
    ensures ComputeHold64(inputTokens, requestedMax, defaultMax, inputPerMillion, outputPerMillion, available, threshold).Err?
    ensures ComputeHold(inputTokens, requestedMax, defaultMax, inputPerMillion, outputPerMillion, available, threshold).Ok?
  {
    var input := if inputTokens < 0 then 0 else inputTokens;
    var budget := available - ChargeMicrosCeil(inputTokens, inputPerMillion);
    CeilFits(inputTokens, inputPerMillion);
    CeilFits(input, inputPerMillion);
    BudgetFits(budget, outputPerMillion);
    WrapsToItself(budget);
    assert ChargeMicrosCeil(input, inputPerMillion) == ChargeMicrosCeil(inputTokens, inputPerMillion);
    PromisesWhenNot(inputTokens, requestedMax, defaultMax, inputPerMillion, outputPerMillion, available, threshold);
    hide ChargeMicrosCeil, ChargeMicrosCeil64, MaxTokensForBudget64, Wrap, ComputeHold;
  }

  /** Ten million dollars of credit, prices of one micro per million tokens: the exact computation
      grants the hold, the 64-bit one refuses it for insufficient credits. */
  lemma LargeBalanceIsRefused()
    ensures ComputeHold64(100, 1000, 4096, 1, 1, 10_000_000_000_000, 10_000) == Err(InsufficientCredits)
    ensures ComputeHold(100, 1000, 4096, 1, 1, 10_000_000_000_000, 10_000) == Ok(Plan(2, 1000))
  {
    assert ClampedRequest(1000, 4096) == 1000;
    assert ChargeMicrosCeil(100, 1) == 1 && ChargeMicrosCeil(1000, 1) == 1;
    RefusesWhenNot(100, 1000, 4096, 1, 1, 10_000_000_000_000, 10_000);
    ComputeHoldIsMaximal(100, 1000, 4096, 1, 1, 10_000_000_000_000, 10_000);
    PromisesWhenNot(100, 1000, 4096, 1, 1, 10_000_000_000_000, 10_000);
  }

  lemma WrapsToItself(x: int)
    requires IsInt64(x)
    ensures Wrap(x) == x
  {
  }

  lemma OutputFreezeFits(inputHold: int, requested: int, affordable: int, perMillion: int)
    requires 0 <= inputHold <= 9_223_372_036_855 && 0 < perMillion
    requires requested * perMillion + 999_999 <= MAX_INT64
    ensures var m := if requested > affordable then affordable else requested;
            && ChargeMicrosCeil64(m, perMillion) == ChargeMicrosCeil(m, perMillion)
            && Wrap(inputHold + ChargeMicrosCeil(m, perMillion)) == inputHold + ChargeMicrosCeil(m, perMillion)
  {
    var m := if requested > affordable then affordable else requested;
    ProductMonotone(m, requested, perMillion);
    CeilFits(m, perMillion);
    SmallSumFits(inputHold, ChargeMicrosCeil(m, perMillion));
  }

  lemma SmallSumFits(a: int, b: int)
    requires 0 <= a <= 9_223_372_036_855 && 0 <= b <= 9_223_372_036_855
    ensures Wrap(a + b) == a + b
  {
  }
}

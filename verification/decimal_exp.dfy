/** `Decimal::exp`: a Taylor series of at most a hundred truncated terms with an early exit. */
module DecimalExp {
  import opened Outcomes
  import opened FixedPoint

  const MAX_ITERATIONS: nat := 100

  /** The n-th term from its predecessor: `term.mul(x)?.div(from_plain(n)?)?`. */
  function NextTerm(x: U256, term: U256, n: nat): Checked
    requires 1 <= n <= MAX_ITERATIONS
  {
    MulDiv(term, x, n * ONE)
  }

  /** The loop of `exp` from its n-th round. */
  function ExpFrom(x: U256, term: U256, sum: U256, n: nat): Checked
    requires 1 <= n <= MAX_ITERATIONS + 1
    decreases MAX_ITERATIONS + 1 - n
  {
    if n > MAX_ITERATIONS then Ok(sum)
    else
      var term' :- NextTerm(x, term, n);
      var sum' :- CheckedAdd(sum, term');
      if term' < 1 then Ok(sum') else ExpFrom(x, term', sum', n + 1)
  }

  /** The same sum without the early exit. */
  function FullSumFrom(x: U256, term: U256, sum: U256, n: nat): Checked
    requires 1 <= n <= MAX_ITERATIONS + 1
    decreases MAX_ITERATIONS + 1 - n
  {
    if n > MAX_ITERATIONS then Ok(sum)
    else
      var term' :- NextTerm(x, term, n);
      var sum' :- CheckedAdd(sum, term');
      FullSumFrom(x, term', sum', n + 1)
  }

  function ExpOf(x: U256, negate: bool): Checked {
    if x == 0 then Ok(ONE)
    else
      var sum :- ExpFrom(x, ONE, ONE, 1);
      if negate then CheckedDiv(ONE * ONE, sum) else Ok(sum)
  }

  method Exp(x: U256, negate: bool) returns (r: Checked)
    ensures r == ExpOf(x, negate)
  {
    if x == 0 {
      return Ok(ONE);
    }
    var term: U256 := ONE;
    var result: U256 := term;
    var n := 1;
    while n <= MAX_ITERATIONS
      invariant 1 <= n <= MAX_ITERATIONS + 1
      invariant ExpFrom(x, ONE, ONE, 1) == ExpFrom(x, term, result, n)
      decreases MAX_ITERATIONS + 1 - n
    {
      term :- NextTerm(x, term, n);
      result :- CheckedAdd(result, term);
      if term < 1 {
        assert ExpFrom(x, ONE, ONE, 1) == Ok(result);
        break;
      }
      n := n + 1;
    }
    if negate {
      return CheckedDiv(ONE * ONE, result);
    }
    return Ok(result);
  }

  lemma {:induction false} SumOfVanishedTerms(x: U256, sum: U256, n: nat)
    requires 1 <= n <= MAX_ITERATIONS + 1
    ensures FullSumFrom(x, 0, sum, n) == Ok(sum)
    decreases MAX_ITERATIONS + 1 - n
  {
    if n <= MAX_ITERATIONS {
      assert 0 * x == 0;
      SumOfVanishedTerms(x, sum, n + 1);
    }
  }

  /** Stopping at a term below one unit loses nothing: it is the full hundred-term sum. */
  lemma {:induction false} EarlyExitIsExact(x: U256, term: U256, sum: U256, n: nat)
    requires 1 <= n <= MAX_ITERATIONS + 1
    ensures ExpFrom(x, term, sum, n) == FullSumFrom(x, term, sum, n)
    decreases MAX_ITERATIONS + 1 - n
  {
    if n <= MAX_ITERATIONS && NextTerm(x, term, n).Ok? {
      var term' := NextTerm(x, term, n).value;
      if CheckedAdd(sum, term').Ok? {
        if term' == 0 {
          SumOfVanishedTerms(x, sum, n + 1);
        } else {
          EarlyExitIsExact(x, term', CheckedAdd(sum, term').value, n + 1);
        }
      }
    }
  }

  // ---- Order -------------------------------------------------------------------------

  lemma NextTermMonotone(x: U256, y: U256, t: U256, u: U256, n: nat)
    requires x <= y && t <= u && 1 <= n <= MAX_ITERATIONS
    requires NextTerm(y, u, n).Ok?
    ensures NextTerm(x, t, n).Ok? && NextTerm(x, t, n).value <= NextTerm(y, u, n).value
  {
    MulMonotone(t, u, x, y);
    QuotientMonotone(t * x, u * y, n * ONE);
  }

  /** Larger argument, term and sum: the gap between the sums never closes. */
  lemma {:induction false} FullSumMonotone(x: U256, y: U256, t: U256, u: U256, s: U256, v: U256, n: nat)
    requires x <= y && t <= u && s <= v && 1 <= n <= MAX_ITERATIONS + 1
    requires FullSumFrom(y, u, v, n).Ok?
    ensures FullSumFrom(x, t, s, n).Ok?
    ensures FullSumFrom(y, u, v, n).value - FullSumFrom(x, t, s, n).value >= v - s
    ensures FullSumFrom(x, t, s, n).value >= s
    decreases MAX_ITERATIONS + 1 - n
  {
    if n <= MAX_ITERATIONS {
      hide NextTerm;
      NextTermMonotone(x, y, t, u, n);
      var t', u' := NextTerm(x, t, n).value, NextTerm(y, u, n).value;
      FullSumMonotone(x, y, t', u', s + t', v + u', n + 1);
    }
  }

  /** The first term is the argument itself. */
  lemma FirstTermExact(x: U256)
    requires ONE * x < U256_LIMIT
    ensures NextTerm(x, ONE, 1) == Ok(x)
  {
  }

  /** Where `exp` succeeds it is at least 1 + x and strictly increasing, and its domain is downward closed. */
  lemma ExpStrictlyIncreasing(x: U256, y: U256)
    requires x < y && ExpOf(y, false).Ok?
    ensures ExpOf(x, false).Ok?
    ensures ONE + x <= ExpOf(x, false).value < ExpOf(y, false).value
  {
    hide FullSumFrom, ExpOf;
    FirstRound(y);
    FirstRound(x);
    MulMonotone(ONE, ONE, x, y);
    FullSumMonotone(x, y, x, y, ONE + x, ONE + y, 2);
  }

  /** After its first round the sum is exactly 1 + x. */
  lemma FirstRound(x: U256)
    ensures ExpOf(x, false).Ok? ==> ONE * x < U256_LIMIT && ONE + x < U256_LIMIT
    ensures ONE * x < U256_LIMIT ==> ONE + x < U256_LIMIT && ExpOf(x, false) == FullSumFrom(x, x, ONE + x, 2)
  {
    EarlyExitIsExact(x, ONE, ONE, 1);
    if ONE * x < U256_LIMIT {
      FirstTermExact(x);
      if x == 0 {
        SumOfVanishedTerms(0, ONE, 2);
      }
      assert FullSumFrom(x, ONE, ONE, 1) == FullSumFrom(x, x, ONE + x, 2);
    } else {
      assert NextTerm(x, ONE, 1).Err?;
    }
  }

  /** The negated form fails exactly where the sum does, never divides by zero and stays at most one. */
  lemma ExpNegated(x: U256)
    ensures ExpOf(x, true).Ok? <==> ExpOf(x, false).Ok?
    ensures ExpOf(x, true).Ok? ==>
              && ExpOf(x, false).value >= ONE
              && ExpOf(x, true).value == ONE * ONE / ExpOf(x, false).value <= ONE
  {
    if x != 0 && ExpOf(x, false).Ok? {
      ExpStrictlyIncreasing(0, x);
      var sum := ExpOf(x, false).value;
      MulMonotone(ONE, ONE, ONE, sum);
      QuotientBelow(ONE + 1, ONE * ONE, sum);
    }
  }

  /** exp(-x) is non-increasing. */
  lemma ExpNegatedNonIncreasing(x: U256, y: U256)
    requires x <= y && ExpOf(y, true).Ok?
    ensures ExpOf(x, true).Ok? && ExpOf(y, true).value <= ExpOf(x, true).value
  {
    ExpNegated(x);
    ExpNegated(y);
    if x < y {
      ExpStrictlyIncreasing(x, y);
      var a, b := ExpOf(x, false).value, ExpOf(y, false).value;
      Quotient(ONE * ONE, b);
      MulMonotone(ONE * ONE / b, ONE * ONE / b, a, b);
      QuotientAtLeast(ONE * ONE / b, ONE * ONE, a);
    }
  }

  // ---- Accuracy, in units of 1e-18 ------------------------------------------------------

  /** The exact n-th Taylor term x^n / n!, scaled in D18. */
  ghost function ExactTerm(x: nat, n: nat): real {
    if n == 0 then ONE as real else ExactTerm(x, n - 1) * x as real / (n * ONE) as real
  }

  /** The exact Taylor sum of terms n to m, scaled in D18. */
  ghost function ExactSum(x: nat, n: nat, m: nat): real
    decreases m + 1 - n
  {
    if n > m then 0.0 else ExactTerm(x, n) + ExactSum(x, n + 1, m)
  }

  /** One truncated term loses less than a unit and never exceeds its predecessor. */
  lemma NextTermError(x: U256, term: U256, n: nat)
    requires 1 <= n <= MAX_ITERATIONS && x <= ONE && term <= ONE
    ensures NextTerm(x, term, n).Ok? && NextTerm(x, term, n).value <= term
    ensures var exact := term as real * x as real / (n * ONE) as real;
            NextTerm(x, term, n).value as real <= exact < NextTerm(x, term, n).value as real + 1.0
  {
    MulMonotone(term, ONE, x, ONE);
    MulMonotone(term, term, x, n * ONE);
    QuotientBelow(term + 1, term * x, n * ONE);
    DivisionError(term * x, n * ONE);
    assert (term * x) as real == term as real * x as real;
  }

  lemma ErrorShrinks(t: real, e: real, d: real, x: real, n: real)
    requires t <= e <= t + d && 0.0 <= x && n > 0.0 && d * x <= n
    ensures t * x / n <= e * x / n <= t * x / n + 1.0
  {
    ProductGap(t, e, d, x, n);
    QuotientGap(t * x, e * x, n);
  }

  lemma ProductGap(t: real, e: real, d: real, x: real, n: real)
    requires t <= e <= t + d && 0.0 <= x && d * x <= n
    ensures t * x <= e * x <= t * x + n
  {
  }

  lemma QuotientGap(a: real, b: real, n: real)
    requires n > 0.0 && a <= b <= a + n
    ensures a / n <= b / n <= a / n + 1.0
  {
    DividePositive(a, b, n);
    DividePositive(b, a + n, n);
    SplitQuotient(a, n);
  }

  /** The error of a term before the n-th: none for the first, at most two units later. */
  ghost predicate Accurate(x: U256, term: U256, n: nat)
    requires n >= 1
  {
    term as real <= ExactTerm(x, n - 1) <= term as real + if n == 1 then 0.0 else 2.0
  }

  /** Two units bound the error of every term: at most one survives the division by n >= 2. */
  lemma TermWithinTwoUnits(x: U256, term: U256, n: nat)
    requires 1 <= n <= MAX_ITERATIONS && x <= ONE && term <= ONE
    requires Accurate(x, term, n)
    ensures NextTerm(x, term, n).Ok? && NextTerm(x, term, n).value <= term
    ensures Accurate(x, NextTerm(x, term, n).value, n + 1)
  {
    NextTermError(x, term, n);
    hide NextTerm;
    var d := if n == 1 then 0.0 else 2.0;
    assert d * x as real <= (n * ONE) as real;
    ErrorShrinks(term as real, ExactTerm(x, n - 1), d, x as real, (n * ONE) as real);
  }

  /** The truncated sum is at most two units per remaining term below the exact one, never above. */
  lemma {:induction false} SumWithinTwoUnitsPerTerm(x: U256, term: U256, sum: U256, n: nat)
    requires 1 <= n <= MAX_ITERATIONS + 1 && x <= ONE && term <= ONE && sum <= n * ONE
    requires Accurate(x, term, n)
    ensures FullSumFrom(x, term, sum, n).Ok?
    ensures var exact := sum as real + ExactSum(x, n, MAX_ITERATIONS);
            FullSumFrom(x, term, sum, n).value as real <= exact
            <= FullSumFrom(x, term, sum, n).value as real + 2.0 * (MAX_ITERATIONS + 1 - n) as real
    decreases MAX_ITERATIONS + 1 - n
  {
    hide NextTerm, ExactTerm;
    if n <= MAX_ITERATIONS {
      TermWithinTwoUnits(x, term, n);
      var term' := NextTerm(x, term, n).value;
      SumWithinTwoUnitsPerTerm(x, term', sum + term', n + 1);
    }
  }

  /** Up to x = 1, `exp` never errs and is at most 200 units below its hundred-term Taylor sum. */
  lemma ExpAccuracy(x: U256)
    requires x <= ONE
    ensures ExpOf(x, false).Ok?
    ensures var exact := ExactSum(x, 0, MAX_ITERATIONS);
            ExpOf(x, false).value as real <= exact <= ExpOf(x, false).value as real + 200.0
  {
    SumWithinTwoUnitsPerTerm(x, ONE, ONE, 1);
    EarlyExitIsExact(x, ONE, ONE, 1);
    if x == 0 {
      SumOfVanishedTerms(0, ONE, 2);
      assert NextTerm(0, ONE, 1) == Ok(0);
    }
  }
}

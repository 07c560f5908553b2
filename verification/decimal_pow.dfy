/**
 `Decimal::pow`: square-and-multiply over truncated D18 products.
 `PowFrom` is the state of the loop; the lemmas relate its result to exact integer powers
 and show that the bit-dependent rounding never disturbs the order of powers.
 */
module DecimalPow {
  import opened Outcomes
  import opened FixedPoint

  /** The loop of `pow` from a given accumulator, base and remaining exponent. */
  function PowFrom(result: U256, base: U256, exp: nat): Checked
    decreases exp
  {
    if exp == 0 then Ok(result)
    else
      var result' :- if exp % 2 == 1 then ScaledMul(result, base) else Ok(result);
      var base' :- if exp > 1 then ScaledMul(base, base) else Ok(base);
      PowFrom(result', base', exp / 2)
  }

  function PowOf(x: U256, exponent: nat): Checked {
    if exponent == 0 then Ok(ONE)
    else if exponent == 1 then Ok(x)
    else PowFrom(ONE, x, exponent)
  }

  /** `pow` as written: two early returns, then a loop over the bits of the exponent. */
  method Pow(x: U256, exponent: U64) returns (r: Checked)
    ensures r == PowOf(x, exponent)
  {
    if exponent == 0 {
      return Ok(ONE);
    }
    if exponent == 1 {
      return Ok(x);
    }
    var base := x;
    var result: U256 := ONE;
    var exp := exponent;
    while exp > 0
      invariant PowFrom(result, base, exp) == PowFrom(ONE, x, exponent)
    {
      if exp % 2 == 1 {
        result :- ScaledMul(result, base);
      }
      if exp > 1 {
        base :- ScaledMul(base, base);
      }
      exp := exp / 2;
    }
    return Ok(result);
  }

  // ---- Relation to the exact power -------------------------------------------------

  /** Halving the exponent squares the base. */
  lemma RPowerHalve(x: real, e: nat) returns (exact: real)
    ensures exact == RPower(RSquare(x), e / 2) && (x >= 0.0 ==> exact >= 0.0)
    ensures RPower(x, e) == if e % 2 == 1 then x * exact else exact
  {
    exact := RPower(RSquare(x), e / 2);
    RPowerSquare(x, e / 2);
    assert e == 2 * (e / 2) + e % 2;
    if x >= 0.0 {
      RScale(x, 0.0, x);
      RPowerNonNegative(RSquare(x), e / 2);
    }
  }

  /** One halving step seen from above: truncated accumulator, truncated base. */
  lemma StepBelow(value: real, r: real, r': real, b: real, power: real, exact: real, approx: real, odd: bool)
    requires value <= r' * approx
    requires 0.0 <= approx <= exact && 0.0 <= r'
    requires power == if odd then b * exact else exact
    requires if odd then r' <= r * b else r' == r
    ensures value <= r * power
  {
    RScale(r', approx, exact);
    if odd {
      RScale(exact, r', r * b);
      RMulAssociative(r, b, exact);
      RCongruent(r, power, b * exact);
      RSum(value, r' * approx, 0.0, r * power, 0.0);
    } else {
      RSum(value, r' * approx, 0.0, r * power, 0.0);
    }
  }

  /** Every truncation is downwards, so an Ok result never exceeds the exact power. */
  lemma {:induction false} PowFromNeverExceeds(r: U256, b: U256, e: nat)
    requires PowFrom(r, b, e).Ok?
    ensures Real(PowFrom(r, b, e).value) <= Real(r) * RPower(Real(b), e)
    decreases e
  {
    hide RPower, Real, RSquare, Units;
    if e == 0 {
      RPowerUnfold(Real(b), 0);
    } else {
      var r' := if e % 2 == 1 then ScaledMul(r, b).value else r;
      var b' := if e > 1 then ScaledMul(b, b).value else b;
      PowFromNeverExceeds(r', b', e / 2);
      var exact := RPowerHalve(Real(b), e);
      if e % 2 == 1 {
        TruncationError(r, b);
      }
      SquaredBase(b, b', e);
      StepBelow(Real(PowFrom(r, b, e).value), Real(r), Real(r'), Real(b), RPower(Real(b), e),
                exact, RPower(Real(b'), e / 2), e % 2 == 1);
    }
  }

  lemma SquaredBase(b: U256, b': U256, e: nat)
    requires e > 0
    requires e > 1 ==> ScaledMul(b, b) == Ok(b')
    ensures 0.0 <= RPower(Real(b'), e / 2) <= RPower(RSquare(Real(b)), e / 2)
  {
    if e > 1 {
      TruncationError(b, b);
      RPowerMonotone(Real(b'), RSquare(Real(b)), e / 2);
    }
  }

  /** A base that is one unit low costs at most f units in its f-th power, below one. */
  lemma {:induction false} BaseLoss(u: real, v: real, f: nat)
    requires 0.0 <= v <= u <= v + ULP && u <= 1.0
    ensures RPower(u, f) <= RPower(v, f) + Units(f)
  {
    hide RPower, Units;
    RPowerUnfold(u, f);
    RPowerUnfold(v, f);
    UnitsAdd(0, 0);
    if f != 0 {
      BaseLoss(u, v, f - 1);
      RPowerNonNegative(v, f - 1);
      UnitsAdd(f - 1, 1);
      LossStep(u, v, RPower(u, f - 1), RPower(v, f - 1), Units(f - 1), ULP);
    }
  }

  lemma LossStep(u: real, v: real, pu: real, pv: real, loss: real, ulp: real)
    requires 0.0 <= v <= u <= v + ulp && u <= 1.0
    requires 0.0 <= pv <= 1.0 && pu <= pv + loss && 0.0 <= loss
    ensures u * pu <= v * pv + (loss + ulp)
  {
    FactorLoss(Times(u, pu), u, v, pu, pv, loss, ulp);
  }

  /** Units lost by the loop: none while the accumulator is exactly one and e is 0 or 1. */
  function Loss(r: nat, e: nat): nat {
    if e == 0 then 0 else if r == ONE then e - 1 else e
  }

  /** The first product is exact; every later one loses less than a unit. */
  lemma AccumulatorLoss(r: U256, b: U256)
    requires r <= ONE && b <= ONE
    ensures ScaledMul(r, b).Ok?
    ensures Real(r) * Real(b) <= Real(ScaledMul(r, b).value) + (if r == ONE then 0.0 else ULP)
    ensures 0.0 <= Real(r) <= 1.0 && 0.0 <= Real(b) <= 1.0
    ensures r == ONE ==> ScaledMul(r, b).value == b
  {
    ScaledMulShrinks(r, b);
    RealOrder(r, ONE);
    RealOrder(b, ONE);
    TruncationError(r, b);
    if r == ONE {
      QuotientAtLeast(b, ONE * b, ONE);
    }
  }

  lemma ProductWithinOne(x: real, y: real)
    requires 0.0 <= x <= 1.0 && 0.0 <= y <= 1.0
    ensures 0.0 <= x * y <= 1.0
  {
    RMulMonotone(x, 1.0, y, 1.0);
    RMulMonotone(0.0, x, y, y);
  }

  lemma SquareWithinOne(x: real)
    requires 0.0 <= x <= 1.0
    ensures 0.0 <= RSquare(x) <= 1.0
  {
    ProductWithinOne(x, x);
  }

  lemma SquareTruncation(b: U256)
    requires ScaledMul(b, b).Ok?
    ensures Real(ScaledMul(b, b).value) <= RSquare(Real(b)) <= Real(ScaledMul(b, b).value) + ULP
  {
    hide Real, ScaledMul;
    TruncationError(b, b);
  }

  lemma SquaredBaseLoss(b: U256, b': U256, e: nat)
    requires b <= ONE && e > 0
    requires e > 1 ==> ScaledMul(b, b) == Ok(b')
    ensures RPower(RSquare(Real(b)), e / 2) <= RPower(Real(b'), e / 2) + Units(e / 2)
    ensures RPower(RSquare(Real(b)), e / 2) >= 0.0
  {
    hide RPower, RSquare, Real, ScaledMul, Units;
    RealOrder(b, ONE);
    SquareWithinOne(Real(b));
    RPowerNonNegative(RSquare(Real(b)), e / 2);
    if e > 1 {
      SquareTruncation(b);
      BaseLoss(RSquare(Real(b)), Real(b'), e / 2);
    } else {
      RPowerUnfold(RSquare(Real(b)), 0);
      RPowerUnfold(Real(b'), 0);
      UnitsAdd(0, 0);
    }
  }

  /** Combines the loss of the accumulator step and of the squared base. */
  lemma SplitLoss(r: real, b: real, r': real, power: real, exact: real, approx: real, baseLoss: real, odd: bool,
      slack: real)
    requires 0.0 <= r <= 1.0 && 0.0 <= b <= 1.0 && 0.0 <= approx <= 1.0 && 0.0 <= exact && 0.0 <= baseLoss
    requires exact <= approx + baseLoss
    requires power == if odd then b * exact else exact
    requires 0.0 <= slack && if odd then r * b <= r' + slack else r == r'
    ensures r * power <= (r' * approx + slack) + baseLoss
  {
    var factor := if odd then r * b else r;
    assert 0.0 <= factor <= 1.0 by {
      ProductWithinOne(r, b);
    }
    RCongruent(r, power, if odd then b * exact else exact);
    RMulAssociative(r, b, exact);
    FactorLoss(r * power, factor, r', exact, approx, baseLoss, slack);
  }

  lemma FactorLoss(total: real, factor: real, r': real, exact: real, approx: real, baseLoss: real, slack: real)
    requires 0.0 <= factor <= 1.0 && 0.0 <= approx <= 1.0 && 0.0 <= baseLoss && 0.0 <= slack
    requires exact <= approx + baseLoss && factor <= r' + slack
    requires total <= Times(factor, exact)
    ensures total <= (Times(r', approx) + slack) + baseLoss
  {
    hide Times;
    TimesOrdered(factor, exact, approx + baseLoss);
    TimesDistributes(factor, approx, baseLoss);
    TimesOrdered(baseLoss, factor, 1.0);
    TimesOrdered(approx, factor, r' + slack);
    TimesDistributes(approx, r', slack);
    TimesOrdered(slack, approx, 1.0);
    TimesCommutes(factor, baseLoss);
    TimesCommutes(baseLoss, 1.0);
    TimesCommutes(factor, approx);
    TimesCommutes(r', approx);
    TimesCommutes(slack, approx);
    TimesCommutes(slack, 1.0);
  }

  /** Factors at most one never overflow the loop. */
  lemma {:induction false} PowFromBelowOne(r: U256, b: U256, e: nat)
    requires r <= ONE && b <= ONE
    ensures PowFrom(r, b, e).Ok? && PowFrom(r, b, e).value <= ONE
    decreases e
  {
    if e != 0 {
      hide ScaledMul;
      ScaledMulShrinks(r, b);
      ScaledMulShrinks(b, b);
      var r' := if e % 2 == 1 then ScaledMul(r, b).value else r;
      var b' := if e > 1 then ScaledMul(b, b).value else b;
      PowFromBelowOne(r', b', e / 2);
    }
  }

  /**
   Total loss of the loop for factors at most one: one unit per remaining exponent,
   and one less while the accumulator is still exactly one.
   */
  lemma {:induction false} PowFromLoss(r: U256, b: U256, e: nat)
    requires r <= ONE && b <= ONE
    ensures PowFrom(r, b, e).Ok?
    ensures Real(r) * RPower(Real(b), e) <= Real(PowFrom(r, b, e).value) + Units(Loss(r, e))
    decreases e
  {
    hide RPower, Real, RSquare, Units, ScaledMul;
    PowFromBelowOne(r, b, e);
    if e == 0 {
      RPowerUnfold(Real(b), 0);
      UnitsAdd(0, 0);
    } else {
      var f := e / 2;
      var odd := e % 2 == 1;
      ScaledMulShrinks(r, b);
      ScaledMulShrinks(b, b);
      var r' := if odd then ScaledMul(r, b).value else r;
      var b' := if e > 1 then ScaledMul(b, b).value else b;
      PowFromLoss(r', b', f);
      LossOfStep(r, b, r', b', e, RPower(Real(b'), f));
      AddUnits(Real(r) * RPower(Real(b), e), Real(r') * RPower(Real(b'), f), Real(PowFrom(r', b', f).value),
               Loss(r', f), f, if odd && r != ONE then 1 else 0, Loss(r, e));
    }
  }

  lemma LossOfStep(r: U256, b: U256, r': U256, b': U256, e: nat, approx: real)
    requires r <= ONE && b <= ONE && b' <= ONE && e > 0
    requires if e % 2 == 1 then ScaledMul(r, b) == Ok(r') else r' == r
    requires e > 1 ==> ScaledMul(b, b) == Ok(b')
    requires approx == RPower(Real(b'), e / 2)
    ensures Real(r) * RPower(Real(b), e)
         <= (Real(r') * approx + Units(if e % 2 == 1 && r != ONE then 1 else 0)) + Units(e / 2)
  {
    hide RPower, Real, RSquare, Units, ScaledMul;
    var exact := RPowerHalve(Real(b), e);
    SquaredBaseLoss(b, b', e);
    AccumulatorLoss(r, b);
    RealOrder(b', ONE);
    RPowerNonNegative(Real(b'), e / 2);
    UnitsAdd(0, 1);
    UnitsAdd(e / 2, 0);
    SplitLoss(Real(r), Real(b), Real(r'), RPower(Real(b), e), exact, approx, Units(e / 2), e % 2 == 1,
              Units(if e % 2 == 1 && r != ONE then 1 else 0));
  }

  lemma AddUnits(exact: real, product: real, value: real, a: nat, b: nat, c: nat, total: nat)
    requires exact <= (product + Units(c)) + Units(b)
    requires product <= value + Units(a)
    requires a + b + c <= total
    ensures exact <= value + Units(total)
  {
    UnitsAdd(a, b);
    UnitsAdd(a + b, c);
    UnitsAdd(a + b + c, total - (a + b + c));
    UnitsAdd(total - (a + b + c), 0);
  }

  /**
   For a base at most one every u64 exponent is computed without error and the result is
   at most exponent - 1 units below the exact power, never above it.
   */
  lemma PowWithinUnits(x: U256, n: nat)
    requires x <= ONE && n >= 1
    ensures PowOf(x, n).Ok? && PowOf(x, n).value <= ONE
    ensures Real(PowOf(x, n).value) <= RPower(Real(x), n)
    ensures RPower(Real(x), n) <= Real(PowOf(x, n).value) + Units(n - 1)
  {
    hide RPower, Real, PowFrom, Units;
    if n == 1 {
      RPowerUnfold(Real(x), 0);
      RPowerUnfold(Real(x), 1);
      UnitsAdd(0, 0);
    } else {
      PowFromBelowOne(ONE, x, n);
      PowFromLoss(ONE, x, n);
      PowFromNeverExceeds(ONE, x, n);
      RealOrder(ONE, ONE);
    }
  }

  /** For every base, an Ok result never exceeds the exact power. */
  lemma PowNeverExceeds(x: U256, n: nat)
    requires PowOf(x, n).Ok?
    ensures Real(PowOf(x, n).value) <= RPower(Real(x), n)
  {
    RealOrder(ONE, ONE);
    if n == 1 {
      assert RPower(Real(x), 1) == Real(x) * RPower(Real(x), 0);
    } else if n > 1 {
      PowFromNeverExceeds(ONE, x, n);
    }
  }

  // ---- Order ------------------------------------------------------------------------

  /** Smaller accumulator and base: no error is gained and the result is no larger. */
  lemma {:induction false} PowFromMonotone(r: U256, r': U256, b: U256, b': U256, e: nat)
    requires r <= r' && b <= b'
    requires PowFrom(r', b', e).Ok?
    ensures PowFrom(r, b, e).Ok? && PowFrom(r, b, e).value <= PowFrom(r', b', e).value
    decreases e
  {
    if e != 0 {
      if e % 2 == 1 {
        ScaledMulMonotone(r, r', b, b');
      }
      if e > 1 {
        ScaledMulMonotone(b, b', b, b');
      }
      var s := if e % 2 == 1 then ScaledMul(r, b).value else r;
      var s' := if e % 2 == 1 then ScaledMul(r', b').value else r';
      var c := if e > 1 then ScaledMul(b, b).value else b;
      var c' := if e > 1 then ScaledMul(b', b').value else b';
      PowFromMonotone(s, s', c, c', e / 2);
    }
  }

  /** `pow` is monotone in its base, and so is its domain. */
  lemma PowMonotoneInBase(x: U256, y: U256, n: nat)
    requires x <= y && PowOf(y, n).Ok?
    ensures PowOf(x, n).Ok? && PowOf(x, n).value <= PowOf(y, n).value
  {
    if n > 1 {
      PowFromMonotone(ONE, ONE, x, y, n);
    }
  }

  /**
   The binary carry below one. While the low bits of n are ones, n + 1 keeps an accumulator
   of exactly one and n has already multiplied some factors into its own; the next base is
   still no larger than that accumulator.
   */
  lemma {:induction false} CarryBelowOne(acc: U256, b: U256, n: nat)
    requires b <= acc <= ONE
    ensures PowFrom(acc, b, n).Ok? && PowFrom(ONE, b, n + 1).Ok?
    ensures PowFrom(ONE, b, n + 1).value <= PowFrom(acc, b, n).value
    decreases n
  {
    PowFromBelowOne(acc, b, n);
    PowFromBelowOne(ONE, b, n + 1);
    AccumulatorLoss(ONE, b);
    ScaledMulShrinks(b, b);
    ScaledMulShrinks(acc, b);
    if n > 0 {
      var f := n / 2;
      var b' := ScaledMul(b, b).value;
      if n % 2 == 0 {
        assert (n + 1) / 2 == f && (n + 1) % 2 == 1;
        PowFromMonotone(b, acc, b', b', f);
      } else {
        assert (n + 1) / 2 == f + 1 && (n + 1) % 2 == 0;
        ScaledMulMonotone(b, acc, b, b);
        assert PowFrom(ONE, b, n + 1) == PowFrom(ONE, b', f + 1);
        if f == 0 {
          AccumulatorLoss(ONE, b');
          assert PowFrom(ONE, b', 1) == PowFrom(b', b', 0);
          assert PowFrom(acc, b, 1).value == ScaledMul(acc, b).value;
        } else {
          CarryBelowOne(ScaledMul(acc, b).value, b', f);
        }
      }
    }
  }

  /** The same carry above one, where an overflow of n is also one of n + 1. */
  lemma {:induction false} CarryAboveOne(acc: U256, b: U256, n: nat)
    requires ONE <= acc <= b && (n == 0 ==> acc * b < U256_LIMIT)
    requires PowFrom(ONE, b, n + 1).Ok?
    ensures PowFrom(acc, b, n).Ok?
    ensures PowFrom(acc, b, n).value <= PowFrom(ONE, b, n + 1).value
    decreases n
  {
    MulMonotone(ONE, acc, b, b);
    MulMonotone(acc, b, b, b);
    var f := n / 2;
    if ONE * b < U256_LIMIT {
      QuotientAtLeast(b, ONE * b, ONE);
    }
    if n > 0 {
      assert ScaledMul(b, b).Ok?;
      var b' := ScaledMul(b, b).value;
      QuotientAtLeast(b, b * b, ONE) by { MulMonotone(b, b, ONE, b); }
      if n % 2 == 0 {
        assert (n + 1) / 2 == f && (n + 1) % 2 == 1;
        assert PowFrom(ONE, b, n + 1) == PowFrom(b, b', f);
        PowFromMonotone(acc, b, b', b', f);
      } else {
        assert (n + 1) / 2 == f + 1 && (n + 1) % 2 == 0;
        ScaledMulMonotone(acc, b, b, b);
        assert PowFrom(ONE, b, n + 1) == PowFrom(ONE, b', f + 1);
        var acc' := ScaledMul(acc, b).value;
        QuotientAtLeast(acc, acc * b, ONE) by { MulMonotone(acc, acc, ONE, b); }
        if f == 0 {
          QuotientAtLeast(b', ONE * b', ONE);
          assert PowFrom(ONE, b', 1).value == b';
          assert PowFrom(acc, b, 1) == Ok(acc');
        } else {
          CarryAboveOne(acc', b', f);
          assert PowFrom(acc, b, n) == PowFrom(acc', b', f);
        }
      }
    }
  }

  /** For a base at most one, a larger exponent never gives a larger result. */
  lemma {:induction false} PowNonIncreasing(x: U256, m: nat, n: nat)
    requires x <= ONE && m <= n
    ensures PowOf(x, m).Ok? && PowOf(x, n).Ok? && PowOf(x, n).value <= PowOf(x, m).value
    decreases n
  {
    if n == 0 {
    } else if m == n {
      PowWithinUnits(x, n);
    } else {
      PowNonIncreasing(x, m, n - 1);
      if n > 1 {
        CarryBelowOne(ONE, x, n - 1);
        if n == 2 {
          AccumulatorLoss(ONE, x);
        }
      }
    }
  }

  /** For a base at least one, a larger exponent never gives a smaller result, nor an earlier error. */
  lemma {:induction false} PowNonDecreasing(x: U256, m: nat, n: nat)
    requires x >= ONE && m <= n && PowOf(x, n).Ok?
    ensures PowOf(x, m).Ok? && PowOf(x, m).value <= PowOf(x, n).value
    decreases n
  {
    if m < n && n > 1 {
      CarryAboveOne(ONE, x, n - 1);
      if n == 2 {
        MulMonotone(ONE, x, x, x);
        QuotientAtLeast(x, ONE * x, ONE);
        assert PowFrom(ONE, x, 1).value == x;
      }
      PowNonDecreasing(x, m, n - 1);
    }
  }
}

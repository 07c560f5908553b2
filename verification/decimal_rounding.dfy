/** Conversions between decimals (D18), token amounts (D9) and scaled u128 values. */
module DecimalRounding {
  import opened Outcomes
  import opened FixedPoint

  datatype Rounding = Floor | Ceiling

  const D9: nat := 1_000_000_000
  const U64_MAX: nat := U64_LIMIT - 1
  const U128_MAX: nat := U128_LIMIT - 1

  type U128 = x: nat | x < U128_LIMIT

  function FromTokenAmount(value: U256): Checked {
    CheckedMul(value, D9)
  }

  /** Too large an amount saturates instead of failing. */
  function ToTokenAmount(x: U256, rounding: Rounding): Result<U64, MathError> {
    var value :- if rounding == Floor || x % D9 == 0 then CheckedDiv(x, D9)
                 else RoundedUp(x);
    Ok(if value > U64_MAX then U64_MAX else value)
  }

  function RoundedUp(x: U256): Checked {
    var raised :- CheckedAdd(x, D9 - 1);
    CheckedDiv(raised, D9)
  }

  function ToScaled(x: U256, rounding: Rounding): Result<U128, MathError> {
    var value :- if rounding == Floor || x % ONE == 0 then Ok(x) else CheckedAdd(x, 1);
    Ok(if value > U128_MAX then U128_MAX else value)
  }

  /** Least and greatest amounts: t token units are at least, or at most, the decimal. */
  predicate Rounds(x: nat, rounding: Rounding, t: nat) {
    match rounding
    case Floor => t * D9 <= x < (t + 1) * D9
    case Ceiling => x <= t * D9 && (t > 0 ==> (t - 1) * D9 < x)
  }

  /**
   Rounding up fails exactly on the last values of u256; otherwise the result is the rounded
   amount, or the largest u64 if that is smaller.
   */
  lemma TokenAmountRounds(x: U256, rounding: Rounding, t: nat)
    requires Rounds(x, rounding, t)
    ensures var r := ToTokenAmount(x, rounding);
            && (r.Err? <==> rounding == Ceiling && x % D9 != 0 && x + D9 - 1 >= U256_LIMIT)
            && (r.Ok? ==> r.value == if t <= U64_MAX then t else U64_MAX)
  {
  }

  /** Token amounts survive the way to decimals and back, whichever way the result is rounded. */
  lemma TokenAmountsSurvive(value: U64, rounding: Rounding)
    ensures FromTokenAmount(value).Ok?
    ensures ToTokenAmount(FromTokenAmount(value).value, rounding) == Ok(value)
  {
  }

  /**
   A decimal already is a D18 value, so the scaled value needs no rounding. Rounding up adds
   a unit all the same: it is exact if and only if the decimal is a whole number or saturates.
   On the last u256 value it fails.
   */
  lemma ScaledCeilingIsExactOnWholes(x: U256)
    ensures ToScaled(x, Floor) == Ok(if x > U128_MAX then U128_MAX else x)
    ensures ToScaled(x, Ceiling) == ToScaled(x, Floor) <==> x % ONE == 0 || U128_MAX <= x < U256_LIMIT - 1
  {
  }
}

/**
 `Decimal::ln`: scale the argument into [1, e), sum the arctanh series, add the power of e.
 The type is unsigned, so the branch for arguments below one is kept as it is.
 */
module DecimalLn {
  import opened Outcomes
  import opened FixedPoint

  /** e in D18. */
  const E: nat := 2_718_281_828_459_045_235
  const MAX_ITERATIONS: nat := 100

  /** A normalised argument and the power of e taken out of it. */
  datatype Normal = Normal(m: U256, power: int)

  /** The first loop: multiply by e until at least one. */
  function ScaleUp(m: U256, power: int): Result<Normal, MathError>
    decreases if m == 0 then 0 else ONE - m
  {
    if m >= ONE || m == 0 then Ok(Normal(m, power))
    else
      var m' :- MulDiv(m, E, ONE);
      Growth(m);
      ScaleUp(m', power - 1)
  }

  lemma Growth(m: nat)
    requires 0 < m < ONE
    ensures m * E < U256_LIMIT && m < m * E / ONE < E
  {
  }

  /** The second loop: divide by e until below e. */
  function ScaleDown(m: U256, power: int): Result<Normal, MathError>
    decreases m
  {
    if m < E then Ok(Normal(m, power))
    else
      var m' :- MulDiv(m, ONE, E);
      Shrink(m);
      ScaleDown(m', power + 1)
  }

  lemma Shrink(m: nat)
    requires m >= E
    ensures ONE <= m * ONE / E < m
  {
  }

  /** The arctanh series from its n-th round. */
  function SeriesFrom(zSquared: U256, term: U256, sum: U256, n: nat): Checked
    requires 1 <= n <= MAX_ITERATIONS + 1
    decreases MAX_ITERATIONS + 1 - n
  {
    if n > MAX_ITERATIONS then Ok(sum)
    else
      var share :- CheckedDiv(term, 2 * n - 1);
      var sum' :- CheckedAdd(sum, share);
      var term' :- ScaledMul(term, zSquared);
      if term' < 1 then Ok(sum') else SeriesFrom(zSquared, term', sum', n + 1)
  }

  /** Twice the arctanh of (m - 1) / (m + 1). */
  function SeriesOf(m: U256): Checked {
    var numerator :- CheckedSub(m, ONE);
    var denominator :- CheckedAdd(m, ONE);
    var z :- MulDiv(numerator, ONE, denominator);
    var zSquared :- ScaledMul(z, z);
    var sum :- SeriesFrom(zSquared, z, 0, 1);
    CheckedMul(sum, 2)
  }

  /** The final adjustment by the power of e, on an unsigned type. */
  function AddPower(series: U256, power: int): Checked {
    if power == 0 then Ok(series)
    else
      var magnitude: nat := if power > 0 then power else -power;
      if ONE * magnitude >= U256_LIMIT then Err(MathOverflow)
      else if power > 0 then CheckedAdd(series, ONE * magnitude)
      else CheckedSub(series, ONE * magnitude)
  }

  /** None for zero, as in the source. */
  function LnOf(x: U256): Result<Option<U256>, MathError> {
    if x == ONE then Ok(Some(0))
    else if x == 0 then Ok(None)
    else
      var up :- ScaleUp(x, 0);
      var normal :- ScaleDown(up.m, up.power);
      var series :- SeriesOf(normal.m);
      var value :- AddPower(series, normal.power);
      Ok(Some(value))
  }

  method Ln(x: U256) returns (r: Result<Option<U256>, MathError>)
    ensures r == LnOf(x)
  {
    if x == ONE {
      return Ok(Some(0));
    }
    if x == 0 {
      return Ok(None);
    }
    var normalized: U256 := x;
    var power := 0;
    while normalized < ONE
      invariant 0 < normalized && ScaleUp(x, 0) == ScaleUp(normalized, power)
      decreases ONE - normalized
    {
      Growth(normalized);
      normalized :- MulDiv(normalized, E, ONE);
      power := power - 1;
    }
    assert ScaleUp(x, 0) == Ok(Normal(normalized, power));
    ghost var up := Normal(normalized, power);
    while normalized >= E
      invariant ScaleDown(up.m, up.power) == ScaleDown(normalized, power)
      decreases normalized
    {
      Shrink(normalized);
      normalized :- MulDiv(normalized, ONE, E);
      power := power + 1;
    }
    var numerator :- CheckedSub(normalized, ONE);
    var denominator :- CheckedAdd(normalized, ONE);
    var z :- MulDiv(numerator, ONE, denominator);
    var zSquared :- ScaledMul(z, z);
    var term := z;
    var result: U256 := 0;
    var n := 1;
    while n <= MAX_ITERATIONS
      invariant 1 <= n <= MAX_ITERATIONS + 1
      invariant SeriesFrom(zSquared, z, 0, 1) == SeriesFrom(zSquared, term, result, n)
      decreases MAX_ITERATIONS + 1 - n
    {
      var share :- CheckedDiv(term, 2 * n - 1);
      result :- CheckedAdd(result, share);
      term :- ScaledMul(term, zSquared);
      if term < 1 {
        assert SeriesFrom(zSquared, z, 0, 1) == Ok(result);
        break;
      }
      n := n + 1;
    }
    var final :- CheckedMul(result, 2);
    final :- AddPower(final, power);
    return Ok(Some(final));
  }

  // ---- The series --------------------------------------------------------------------

  /** The series without its early exit. */
  function FullSeriesFrom(zSquared: U256, term: U256, sum: U256, n: nat): Checked
    requires 1 <= n <= MAX_ITERATIONS + 1
    decreases MAX_ITERATIONS + 1 - n
  {
    if n > MAX_ITERATIONS then Ok(sum)
    else
      var share :- CheckedDiv(term, 2 * n - 1);
      var sum' :- CheckedAdd(sum, share);
      var term' :- ScaledMul(term, zSquared);
      FullSeriesFrom(zSquared, term', sum', n + 1)
  }

  lemma {:induction false} SeriesOfVanishedTerm(zSquared: U256, sum: U256, n: nat)
    requires 1 <= n <= MAX_ITERATIONS + 1
    ensures FullSeriesFrom(zSquared, 0, sum, n) == Ok(sum)
    decreases MAX_ITERATIONS + 1 - n
  {
    if n <= MAX_ITERATIONS {
      assert 0 * zSquared == 0;
      SeriesOfVanishedTerm(zSquared, sum, n + 1);
    }
  }

  /** Stopping at a vanished term loses nothing. */
  lemma {:induction false} SeriesExitIsExact(zSquared: U256, term: U256, sum: U256, n: nat)
    requires 1 <= n <= MAX_ITERATIONS + 1
    ensures SeriesFrom(zSquared, term, sum, n) == FullSeriesFrom(zSquared, term, sum, n)
    decreases MAX_ITERATIONS + 1 - n
  {
    if n <= MAX_ITERATIONS {
      var sum' := CheckedAdd(sum, CheckedDiv(term, 2 * n - 1).value);
      var term' := ScaledMul(term, zSquared);
      if sum'.Ok? && term'.Ok? {
        if term'.value == 0 {
          SeriesOfVanishedTerm(zSquared, sum'.value, n + 1);
        } else {
          SeriesExitIsExact(zSquared, term'.value, sum'.value, n + 1);
        }
      }
    }
  }

  lemma ShareMonotone(t: U256, u: U256, d: U256)
    requires t <= u && d >= 1
    ensures CheckedDiv(t, d).Ok? && CheckedDiv(u, d).Ok?
    ensures CheckedDiv(t, d).value <= CheckedDiv(u, d).value <= u
  {
    QuotientMonotone(t, u, d);
    Quotient(u, d);
  }

  lemma SumStaysSmall(sum: nat, share: nat, n: nat)
    requires sum <= n * ONE && share <= ONE && n <= MAX_ITERATIONS
    ensures sum + share <= (n + 1) * ONE && sum + share < U256_LIMIT
  {
  }

  /** Below one the series never overflows. */
  lemma {:induction false} FullSeriesBounded(b: U256, u: U256, v: U256, n: nat)
    requires b <= ONE && u <= ONE && v <= n * ONE && 1 <= n <= MAX_ITERATIONS + 1
    ensures FullSeriesFrom(b, u, v, n).Ok?
    ensures FullSeriesFrom(b, u, v, n).value <= (MAX_ITERATIONS + 1) * ONE
    decreases MAX_ITERATIONS + 1 - n
  {
    if n <= MAX_ITERATIONS {
      hide ScaledMul, CheckedDiv;
      ShareMonotone(u, u, 2 * n - 1);
      SumStaysSmall(v, CheckedDiv(u, 2 * n - 1).value, n);
      ScaledMulShrinks(u, b);
      FullSeriesBounded(b, ScaledMul(u, b).value, v + CheckedDiv(u, 2 * n - 1).value, n + 1);
    }
  }

  /** The series is monotone in the square, the term and the sum. */
  lemma {:induction false} FullSeriesMonotone(a: U256, b: U256, t: U256, u: U256, s: U256, v: U256, n: nat)
    requires a <= b && t <= u && s <= v && 1 <= n <= MAX_ITERATIONS + 1
    requires FullSeriesFrom(b, u, v, n).Ok?
    ensures FullSeriesFrom(a, t, s, n).Ok? && FullSeriesFrom(a, t, s, n).value <= FullSeriesFrom(b, u, v, n).value
    decreases MAX_ITERATIONS + 1 - n
  {
    if n <= MAX_ITERATIONS {
      hide ScaledMul, CheckedDiv;
      ShareMonotone(t, u, 2 * n - 1);
      ScaledMulMonotone(t, u, a, b);
      FullSeriesMonotone(a, b, ScaledMul(t, a).value, ScaledMul(u, b).value,
                         s + CheckedDiv(t, 2 * n - 1).value, v + CheckedDiv(u, 2 * n - 1).value, n + 1);
    }
  }

  /** (m - 1) / (m + 1) at the top of the normalised range, and its square. */
  const Z_TOP: nat := 462_117_157_260_009_758
  const Z_TOP_SQUARED: nat := 213_552_267_034_072_589

  lemma TopRound(term: U256, sum: U256, n: nat, term': U256, sum': U256)
    requires 1 <= n <= MAX_ITERATIONS && term' == term * Z_TOP_SQUARED / ONE && sum' == sum + term / (2 * n - 1)
    requires term * Z_TOP_SQUARED < U256_LIMIT
    ensures FullSeriesFrom(Z_TOP_SQUARED, term, sum, n) == FullSeriesFrom(Z_TOP_SQUARED, term', sum', n + 1)
  {
  }

  /** The series at the top of the range, evaluated round by round. */
  lemma TopSeriesTail()
    ensures FullSeriesFrom(Z_TOP_SQUARED, 189_587_936, 499_999_999_991_828_326, 15) == Ok(499_999_999_999_999_989)
  {
    hide FullSeriesFrom;
    TopRound(189_587_936, 499_999_999_991_828_326, 15, 40_486_933, 499_999_999_998_365_841);
    TopRound(40_486_933, 499_999_999_998_365_841, 16, 8_646_076, 499_999_999_999_671_871);
    TopRound(8_646_076, 499_999_999_999_671_871, 17, 1_846_389, 499_999_999_999_933_873);
    TopRound(1_846_389, 499_999_999_999_933_873, 18, 394_300, 499_999_999_999_986_626);
    TopRound(394_300, 499_999_999_999_986_626, 19, 84_203, 499_999_999_999_997_282);
    TopRound(84_203, 499_999_999_999_997_282, 20, 17_981, 499_999_999_999_999_441);
    TopRound(17_981, 499_999_999_999_999_441, 21, 3_839, 499_999_999_999_999_879);
    TopRound(3_839, 499_999_999_999_999_879, 22, 819, 499_999_999_999_999_968);
    TopRound(819, 499_999_999_999_999_968, 23, 174, 499_999_999_999_999_986);
    TopRound(174, 499_999_999_999_999_986, 24, 37, 499_999_999_999_999_989);
    TopRound(37, 499_999_999_999_999_989, 25, 7, 499_999_999_999_999_989);
    TopRound(7, 499_999_999_999_999_989, 26, 1, 499_999_999_999_999_989);
    TopRound(1, 499_999_999_999_999_989, 27, 0, 499_999_999_999_999_989);
    SeriesOfVanishedTerm(Z_TOP_SQUARED, 499_999_999_999_999_989, 28);
  }

  lemma TopSeries()
    ensures FullSeriesFrom(Z_TOP_SQUARED, Z_TOP, 0, 1) == Ok(499_999_999_999_999_989)
  {
    hide FullSeriesFrom;
    TopRound(462_117_157_260_009_758, 0, 1, 98_686_166_568_216_120, 462_117_157_260_009_758);
    TopRound(98_686_166_568_216_120, 462_117_157_260_009_758, 2, 21_074_654_595_544_655, 495_012_546_116_081_798);
    TopRound(21_074_654_595_544_655, 495_012_546_116_081_798, 3, 4_500_540_265_838_597, 499_227_477_035_190_729);
    TopRound(4_500_540_265_838_597, 499_227_477_035_190_729, 4, 961_100_576_647_960, 499_870_411_358_881_957);
    TopRound(961_100_576_647_960, 499_870_411_358_881_957, 5, 205_245_206_990_926, 499_977_200_311_842_841);
    TopRound(205_245_206_990_926, 499_977_200_311_842_841, 6, 43_830_579_250_789, 499_995_858_967_023_834);
    TopRound(43_830_579_250_789, 499_995_858_967_023_834, 7, 9_360_119_564_422, 499_999_230_550_043_125);
    TopRound(9_360_119_564_422, 499_999_230_550_043_125, 8, 1_998_874_752_692, 499_999_854_558_014_086);
    TopRound(1_998_874_752_692, 499_999_854_558_014_086, 9, 426_864_234_954, 499_999_972_138_881_891);
    TopRound(426_864_234_954, 499_999_972_138_881_891, 10, 91_157_825_090, 499_999_994_605_420_572);
    TopRound(91_157_825_090, 499_999_994_605_420_572, 11, 19_466_960_205, 499_999_998_946_269_385);
    TopRound(19_466_960_205, 499_999_998_946_269_385, 12, 4_157_213_484, 499_999_999_792_658_959);
    TopRound(4_157_213_484, 499_999_999_792_658_959, 13, 887_782_364, 499_999_999_958_947_498);
    TopRound(887_782_364, 499_999_999_958_947_498, 14, 189_587_936, 499_999_999_991_828_326);
    TopSeriesTail();
  }

  /** The argument of the series, z = (m - 1) / (m + 1), is monotone in m and below one. */
  lemma ZMonotone(m: U256, m': U256)
    requires ONE <= m <= m' < E
    ensures MulDiv(m - ONE, ONE, m + ONE).Ok? && MulDiv(m' - ONE, ONE, m' + ONE).Ok?
    ensures MulDiv(m - ONE, ONE, m + ONE).value <= MulDiv(m' - ONE, ONE, m' + ONE).value <= ONE
  {
    var a, b := m - ONE, m' - ONE;
    MulMonotone(b, E, ONE, ONE);
    QuotientBelow(ONE + 1, a * ONE, a + 2 * ONE);
    QuotientBelow(ONE + 1, b * ONE, b + 2 * ONE);
    RatioMonotone(a, b, a * ONE / (a + 2 * ONE));
  }

  lemma RatioMonotone(a: nat, b: nat, q: nat)
    requires a <= b && q == a * ONE / (a + 2 * ONE) && q <= ONE
    ensures q <= b * ONE / (b + 2 * ONE)
  {
    Quotient(a * ONE, a + 2 * ONE);
    MulMonotone(q, ONE, b - a, b - a);
    assert q * (b + 2 * ONE) == q * (a + 2 * ONE) + q * (b - a);
    QuotientAtLeast(q, b * ONE, b + 2 * ONE);
  }

  /** On the normalised range the series is monotone. */
  lemma SeriesMonotone(m: U256, m': U256)
    requires ONE <= m <= m' < E
    ensures SeriesOf(m).Ok? && SeriesOf(m').Ok? && SeriesOf(m).value <= SeriesOf(m').value
  {
    hide FullSeriesFrom, SeriesFrom, MulDiv, ScaledMul;
    ZMonotone(m, m');
    var z, z' := MulDiv(m - ONE, ONE, m + ONE).value, MulDiv(m' - ONE, ONE, m' + ONE).value;
    ScaledMulShrinks(z', z');
    ScaledMulMonotone(z, z', z, z');
    var a, b := ScaledMul(z, z).value, ScaledMul(z', z').value;
    SeriesExitIsExact(a, z, 0, 1);
    SeriesExitIsExact(b, z', 0, 1);
    FullSeriesBounded(b, z', 0, 1);
    FullSeriesMonotone(a, b, z, z', 0, 0, 1);
  }

  /** The series part stays below one: it is monotone, and 22 units short of one at e - 1e-18. */
  lemma SeriesBelowOne(m: U256)
    requires ONE <= m < E
    ensures SeriesOf(m).Ok? && SeriesOf(m).value <= ONE - 22
  {
    SeriesMonotone(m, E - 1);
    SeriesAtTop();
  }

  lemma SeriesAtTop()
    ensures SeriesOf(E - 1) == Ok(ONE - 22)
  {
    hide FullSeriesFrom, SeriesFrom, MulDiv, ScaledMul;
    TopArgument();
    SeriesExitIsExact(Z_TOP_SQUARED, Z_TOP, 0, 1);
    TopSeries();
  }

  lemma TopArgument()
    ensures MulDiv(E - 1 - ONE, ONE, E - 1 + ONE) == Ok(Z_TOP)
    ensures ScaledMul(Z_TOP, Z_TOP) == Ok(Z_TOP_SQUARED)
  {
  }

  // ---- Accuracy of the series ---------------------------------------------------------

  /** z^2 and z^(2n - 1) without truncation, scaled in D18. */
  ghost function ExactSquare(z: nat): real {
    z as real * z as real / ONE as real
  }

  ghost function OddPower(z: nat, n: nat): real {
    if n <= 1 then z as real else OddPower(z, n - 1) * ExactSquare(z) / ONE as real
  }

  /** The exact arctanh sum of rounds n to m, scaled in D18. */
  ghost function ExactSeries(z: nat, n: nat, m: nat): real
    requires n >= 1
    decreases m + 1 - n
  {
    if n > m then 0.0 else OddPower(z, n) / (2 * n - 1) as real + ExactSeries(z, n + 1, m)
  }

  /** The n-th term as computed: at most two units below the exact power, never above it. */
  ghost predicate NearPower(z: nat, term: nat, n: nat) {
    term <= Z_TOP && term as real <= OddPower(z, n) <= term as real + 2.0
  }

  lemma NearPowerMeans(z: nat, term: nat, n: nat)
    requires NearPower(z, term, n)
    ensures term as real <= OddPower(z, n) <= term as real + 2.0
  {
  }

  /** Expands (t + 2)(q + 1), with the products named. */
  lemma ProductOfNear(t: real, q: real, e: real, s: real, one: real)
    requires 0.0 <= t <= e <= t + 2.0 && 0.0 <= q <= s <= q + 1.0 && t + 2.0 * q + 2.0 <= one
    ensures t * q <= e * s <= t * q + one
  {
    RMulMonotone(t, e, q, s);
    RMulMonotone(e, t + 2.0, s, q + 1.0);
    RDistribute(q + 1.0, t, 2.0);
    RDistribute(t, q, 1.0);
  }

  /** The square of the argument loses less than a unit; below the top of the range it is less than 0.2136. */
  lemma SquareError(z: U256, square: U256)
    requires z <= Z_TOP && ScaledMul(z, z) == Ok(square)
    ensures square <= Z_TOP_SQUARED
    ensures square as real <= ExactSquare(z) <= square as real + 1.0
  {
    TopArgument();
    MulMonotone(z, Z_TOP, z, Z_TOP);
    QuotientMonotone(z * z, Z_TOP * Z_TOP, ONE);
    DivisionError(z * z, ONE);
    CastProduct(z, z);
  }

  lemma NearStep(t: real, q: real, e: real, s: real, v: real, one: real)
    requires 0.0 <= t <= e <= t + 2.0 && 0.0 <= q <= s <= q + 1.0 && t + 2.0 * q + 2.0 <= one
    requires one > 0.0 && v <= t * q / one < v + 1.0
    ensures v <= e * s / one <= v + 2.0
  {
    ProductOfNear(t, q, e, s, one);
    DividePositive(t * q, e * s, one);
    DividePositive(e * s, t * q + one, one);
    SplitQuotient(t * q, one);
  }

  lemma OddPowerUnfold(z: nat, n: nat)
    requires n >= 1
    ensures OddPower(z, n + 1) == OddPower(z, n) * ExactSquare(z) / ONE as real
  {
  }

  /** Two units stay enough from term to term: less than half of the error survives, and a unit and a half is added. */
  lemma PowerStaysNear(z: U256, square: U256, term: U256, n: nat)
    requires z <= Z_TOP && ScaledMul(z, z) == Ok(square) && n >= 1 && NearPower(z, term, n)
    ensures ScaledMul(term, square).Ok? && ScaledMul(term, square).value == term * square / ONE
    ensures NearPower(z, term * square / ONE, n + 1)
  {
    hide ExactSquare, OddPower;
    SquareError(z, square);
    TruncatedStep(term, square, OddPower(z, n), ExactSquare(z));
    OddPowerUnfold(z, n);
    TermFits(term, square);
  }

  lemma TermFits(term: U256, square: U256)
    requires term <= ONE && square <= ONE
    ensures ScaledMul(term, square) == Ok(term * square / ONE) && term * square / ONE <= term
  {
    ScaledMulShrinks(term, square);
  }

  lemma ScaledQuotient(term: nat, square: nat)
    ensures var (v, exact) := ((term * square / ONE) as real, term as real * square as real / ONE as real);
            v <= exact < v + 1.0
  {
    CastProduct(term, square);
    DivisionError(term * square, ONE);
  }

  lemma SlackFits(term: nat, square: nat)
    requires term <= Z_TOP && square <= Z_TOP_SQUARED
    ensures term as real + 2.0 * square as real + 2.0 <= ONE as real
  {
  }

  lemma TruncatedStep(term: nat, square: nat, e: real, s: real)
    requires term <= Z_TOP && square <= Z_TOP_SQUARED
    requires term as real <= e <= term as real + 2.0 && square as real <= s <= square as real + 1.0
    ensures var v := (term * square / ONE) as real; v <= e * s / ONE as real <= v + 2.0
  {
    ScaledQuotient(term, square);
    SlackFits(term, square);
    NearStep(term as real, square as real, e, s, (term * square / ONE) as real, ONE as real);
  }

  /** A share: the power over its odd number is at most three units above the truncated quotient. */
  lemma ShareError(power: real, term: nat, d: nat)
    requires d >= 1 && term as real <= power <= term as real + 2.0
    ensures (term / d) as real <= power / d as real <= (term / d) as real + 3.0
  {
    Quotient(term, d);
    CastProduct(term / d, d);
    CastProduct(term / d + 1, d);
    ShareBounds(power, term as real, (term / d) as real, d as real);
  }

  lemma ShareBounds(power: real, t: real, q: real, d: real)
    requires d >= 1.0 && q * d <= t < (q + 1.0) * d && t <= power <= t + 2.0
    ensures q <= power / d <= q + 3.0
  {
    RDistribute(d, q + 1.0, 2.0);
    assert (q + 1.0) + 2.0 == q + 3.0;
    RealQuotient(power, q, d);
    RealQuotient(power, q + 3.0, d);
  }

  /** Three units per round, always downwards. */
  lemma {:induction false} SeriesError(z: U256, square: U256, term: U256, sum: U256, n: nat)
    requires z <= Z_TOP && ScaledMul(z, z) == Ok(square)
    requires 1 <= n <= MAX_ITERATIONS + 1 && NearPower(z, term, n)
    requires FullSeriesFrom(square, term, sum, n).Ok?
    ensures var value := FullSeriesFrom(square, term, sum, n).value as real;
            var exact := sum as real + ExactSeries(z, n, MAX_ITERATIONS);
            value <= exact <= value + 3.0 * (MAX_ITERATIONS + 1 - n) as real
    decreases MAX_ITERATIONS + 1 - n
  {
    hide ScaledMul, OddPower, NearPower;
    if n <= MAX_ITERATIONS {
      PowerStaysNear(z, square, term, n);
      NearPowerMeans(z, term, n);
      ShareError(OddPower(z, n), term, 2 * n - 1);
      SeriesError(z, square, ScaledMul(term, square).value, sum + term / (2 * n - 1), n + 1);
    }
  }

  /** The argument the series is summed for. */
  function ArgumentOf(m: U256): U256
    requires ONE <= m < E
  {
    (m - ONE) * ONE / (m + ONE)
  }

  lemma ArgumentIsComputed(m: U256)
    requires ONE <= m < E && MulDiv(m - ONE, ONE, m + ONE).Ok?
    ensures MulDiv(m - ONE, ONE, m + ONE).value == ArgumentOf(m)
  {
  }

  /** On the normalised range the series is at most 600 units below twice its exact hundred-term sum. */
  lemma SeriesAccuracy(m: U256)
    requires ONE <= m < E
    ensures SeriesOf(m).Ok?
    ensures var exact := 2.0 * ExactSeries(ArgumentOf(m), 1, MAX_ITERATIONS);
            SeriesOf(m).value as real <= exact <= SeriesOf(m).value as real + 600.0
  {
    hide FullSeriesFrom, SeriesFrom, MulDiv, ScaledMul, ExactSeries;
    ZMonotone(m, E - 1);
    TopArgument();
    var z := MulDiv(m - ONE, ONE, m + ONE).value;
    ScaledMulShrinks(z, z);
    var square := ScaledMul(z, z).value;
    SeriesMonotone(m, m);
    SeriesExitIsExact(square, z, 0, 1);
    FullSeriesBounded(square, z, 0, 1);
    SeriesError(z, square, z, 0, 1);
    ArgumentIsComputed(m);
  }

  // ---- Normalisation ----------------------------------------------------------------

  /** Below one the first loop ends in [1, e) with a negative power. */
  lemma {:induction false} ScaleUpRange(m: U256, power: int)
    requires 0 < m < ONE
    ensures ScaleUp(m, power).Ok?
    ensures ONE <= ScaleUp(m, power).value.m < E && ScaleUp(m, power).value.power < power
    decreases ONE - m
  {
    Growth(m);
    var m' := m * E / ONE;
    assert ScaleUp(m, power) == ScaleUp(m', power - 1);
    if m' < ONE {
      ScaleUpRange(m', power - 1);
    }
  }

  /** Between zero and one the result is always an overflow error: the type has no negative logarithms. */
  lemma LnBelowOneErrs(x: U256)
    requires 0 < x < ONE
    ensures LnOf(x) == Err(MathOverflow)
  {
    hide SeriesOf, ScaleUp;
    ScaleUpRange(x, 0);
    SeriesBelowOne(ScaleUp(x, 0).value.m);
  }

  /** m / e^k without truncation. */
  ghost function ExactlyScaled(x: real, k: nat): real {
    if k == 0 then x else ExactlyScaled(x, k - 1) * ONE as real / E as real
  }

  /** The second loop ends in [1, e), and never fails once its first product fits. */
  lemma {:induction false} ScaleDownRange(m: U256, power: int)
    requires ONE <= m && (m < E || m * ONE < U256_LIMIT)
    ensures ScaleDown(m, power).Ok?
    ensures ONE <= ScaleDown(m, power).value.m < E && ScaleDown(m, power).value.power >= power
    decreases m
  {
    if m >= E {
      Shrink(m);
      var m' := m * ONE / E;
      assert m' * ONE <= m * ONE;
      ScaleDownRange(m', power + 1);
    }
  }

  /** The second loop is monotone: a larger argument takes out at least the same power of e. */
  lemma {:induction false} ScaleDownMonotone(m: U256, m': U256, power: int)
    requires ONE <= m <= m' && (m' < E || m' * ONE < U256_LIMIT)
    ensures ScaleDown(m, power).Ok? && ScaleDown(m', power).Ok?
    ensures var (n, n') := (ScaleDown(m, power).value, ScaleDown(m', power).value);
            n.power <= n'.power && (n.power == n'.power ==> n.m <= n'.m)
    decreases m'
  {
    assert m * ONE <= m' * ONE;
    ScaleDownRange(m, power);
    ScaleDownRange(m', power);
    if m' >= E {
      Shrink(m');
      var s' := m' * ONE / E;
      assert s' * ONE <= m' * ONE;
      if m >= E {
        Shrink(m);
        QuotientMonotone(m * ONE, m' * ONE, E);
        ScaleDownMonotone(m * ONE / E, s', power + 1);
      } else {
        ScaleDownRange(s', power + 1);
      }
    }
  }

  /** One division by e against the exact one. */
  lemma ScaleDownError(m: nat, exact: real)
    requires m as real <= exact < m as real + 2.0
    ensures (m * ONE / E) as real <= exact * ONE as real / E as real < (m * ONE / E) as real + 2.0
  {
  }

  /** The normalised argument is less than two units below x / e^power. */
  lemma {:induction false} ScaleDownWithinTwoUnits(x: U256, m: U256, power: nat)
    requires ONE <= m && (m < E || m * ONE < U256_LIMIT)
    requires m as real <= ExactlyScaled(x as real, power) < m as real + 2.0
    ensures var n := ScaleDown(m, power);
            && n.Ok? && n.value.power >= power
            && n.value.m as real <= ExactlyScaled(x as real, n.value.power) < n.value.m as real + 2.0
    decreases m
  {
    if m >= E {
      Shrink(m);
      var m' := m * ONE / E;
      assert m' * ONE <= m * ONE;
      ScaleDownError(m, ExactlyScaled(x as real, power));
      assert ExactlyScaled(x as real, power + 1) == ExactlyScaled(x as real, power) * ONE as real / E as real;
      ScaleDownWithinTwoUnits(x, m', power + 1);
    }
  }

  // ---- The logarithm ----------------------------------------------------------------

  /** Normalisation of an argument of at least one: in [1, e), and within two units of x / e^power. */
  lemma Normalised(x: U256)
    requires ONE <= x && (x < E || x * ONE < U256_LIMIT)
    ensures var n := ScaleDown(x, 0);
            && n.Ok? && n.value.power >= 0 && ONE <= n.value.m < E
            && n.value.m as real <= ExactlyScaled(x as real, n.value.power) < n.value.m as real + 2.0
            && ONE * n.value.power < U256_LIMIT / 2
  {
    ScaleDownRange(x, 0);
    ScaleDownWithinTwoUnits(x, x, 0);
    PowerBounded(x, 0);
  }

  /** The power taken out fits every integer type of the code with room to spare. */
  lemma {:induction false} PowerBounded(m: U256, power: nat)
    requires ONE <= m && (m < E || m * ONE < U256_LIMIT)
    ensures ScaleDown(m, power).Ok? && power <= ScaleDown(m, power).value.power
    ensures (ScaleDown(m, power).value.power - power) * ONE <= m
    decreases m
  {
    if m >= E {
      Shrink(m);
      Quotient(m * ONE, E);
      var m' := m * ONE / E;
      assert m' * ONE <= m * ONE;
      PowerBounded(m', power + 1);
    }
  }

  /** From one upwards `ln` succeeds exactly while the first scaling product fits. */
  lemma LnAboveOne(x: U256)
    requires ONE <= x
    ensures LnOf(x).Ok? <==> x < E || x * ONE < U256_LIMIT
    ensures LnOf(x).Ok? ==>
              && LnOf(x).value.Some?
              && SeriesOf(ScaleDown(x, 0).value.m).Ok?
              && LnOf(x).value.value == ScaleDown(x, 0).value.power * ONE + SeriesOf(ScaleDown(x, 0).value.m).value
  {
    assert ScaleUp(x, 0) == Ok(Normal(x, 0));
    if x < E || x * ONE < U256_LIMIT {
      hide SeriesOf, ScaleDown;
      Normalised(x);
      SeriesBelowOne(ScaleDown(x, 0).value.m);
      if x == ONE {
        SeriesOfOne();
      }
    }
  }

  lemma SeriesOfOne()
    ensures SeriesOf(ONE) == Ok(0) && ScaleDown(ONE, 0) == Ok(Normal(ONE, 0))
  {
  }

  /** Exactly where `ln` returns a value or an error, for every argument. */
  lemma LnDomain(x: U256)
    ensures LnOf(x) == Ok(None) <==> x == 0
    ensures LnOf(x).Ok? <==> x == 0 || (ONE <= x && (x < E || x * ONE < U256_LIMIT))
  {
    if 0 < x < ONE {
      LnBelowOneErrs(x);
    } else if ONE <= x {
      LnAboveOne(x);
    }
  }

  /** Where it succeeds `ln` is monotone, across the borders between powers of e as well. */
  lemma LnMonotone(x: U256, y: U256)
    requires ONE <= x <= y && LnOf(y).Ok?
    ensures LnOf(x).Ok? && LnOf(x).value.Some? && LnOf(y).value.Some?
    ensures LnOf(x).value.value <= LnOf(y).value.value
  {
    hide SeriesOf, LnOf, ScaleDown;
    LnAboveOne(y);
    MulMonotone(x, y, ONE, ONE);
    LnAboveOne(x);
    ScaleDownMonotone(x, y, 0);
    Normalised(x);
    Normalised(y);
    var (n, n') := (ScaleDown(x, 0).value, ScaleDown(y, 0).value);
    SeriesBelowOne(n.m);
    if n.power == n'.power {
      SeriesMonotone(n.m, n'.m);
    } else {
      MulMonotone(n.power + 1, n'.power, ONE, ONE);
    }
  }
}

/**
 Checked 256-bit arithmetic scaled by 1e18, and the exact powers it is compared with.
 A `Decimal` of the source is its raw `U256`.
 */
module FixedPoint {
  import opened Outcomes

  const U256_LIMIT: nat := 0x1_0000_0000_0000_0000_0000_0000_0000_0000_0000_0000_0000_0000_0000_0000_0000_0000
  const U64_LIMIT: nat := 0x1_0000_0000_0000_0000
  const U128_LIMIT: nat := 0x1_0000_0000_0000_0000_0000_0000_0000_0000

  /** One, scaled in D18. */
  const ONE: nat := 1_000_000_000_000_000_000

  type U256 = x: nat | x < U256_LIMIT
  type U64 = x: nat | x < U64_LIMIT

  datatype MathError = MathOverflow

  type Checked = Result<U256, MathError>

  function CheckedAdd(a: U256, b: U256): Checked {
    if a + b < U256_LIMIT then Ok(a + b) else Err(MathOverflow)
  }

  function CheckedSub(a: U256, b: U256): Checked {
    if b <= a then Ok(a - b) else Err(MathOverflow)
  }

  function CheckedMul(a: U256, b: U256): Checked {
    if a * b < U256_LIMIT then Ok(a * b) else Err(MathOverflow)
  }

  function CheckedDiv(a: U256, b: U256): (q: Checked) {
    if b == 0 then Err(MathOverflow) else
      Quotient(a, b);
      Ok(a / b)
  }

  /** `a.mul(b)?.div(c)?`: the product is checked before it is scaled back down. */
  function MulDiv(a: U256, b: U256, c: U256): Checked {
    var product :- CheckedMul(a, b);
    CheckedDiv(product, c)
  }

  /** The D18 product of two D18 values, rounded down. */
  function ScaledMul(a: U256, b: U256): Checked {
    MulDiv(a, b, ONE)
  }

  // Facts about floor division and products that the proofs call by name.

  lemma Quotient(a: nat, b: nat)
    requires b > 0
    ensures 0 <= a / b <= a
    ensures (a / b) * b <= a < (a / b + 1) * b
  {
    assert a == (a / b) * b + a % b;
    assert (a / b + 1) * b == (a / b) * b + b;
    if a / b > a {
      MulMonotone(a + 1, a / b, 1, b);
    }
  }

  lemma MulMonotone(a: nat, c: nat, b: nat, d: nat)
    requires a <= c && b <= d
    ensures a * b <= c * d
  {
  }

  lemma QuotientMonotone(a: nat, c: nat, b: nat)
    requires a <= c && b > 0
    ensures a / b <= c / b
  {
    if c / b + 1 <= a / b {
      Quotient(a, b);
      Quotient(c, b);
      MulMonotone(c / b + 1, a / b, b, b);
    }
  }

  /** The largest q with q * b <= a is the quotient. */
  lemma QuotientAtLeast(q: nat, a: nat, b: nat)
    requires b > 0 && q * b <= a
    ensures q <= a / b
  {
    Quotient(a, b);
    if a / b + 1 <= q {
      MulMonotone(a / b + 1, q, b, b);
    }
  }

  lemma QuotientBelow(q: nat, a: nat, b: nat)
    requires b > 0 && a < q * b
    ensures a / b < q
  {
  }

  lemma NestedProduct(q: nat, b: nat, c: nat)
    ensures q * (b * c) == (q * c) * b
  {
  }

  lemma ProductFromBelow(a: nat, b: nat, c: nat, d: nat, q: nat)
    requires q * c <= d && d * b <= a
    ensures q * (b * c) <= a
  {
    MulMonotone(q * c, d, b, b);
    NestedProduct(q, b, c);
  }

  lemma ProductFromAbove(a: nat, b: nat, c: nat, d: nat, q: nat)
    requires d < q * c && a < (d + 1) * b
    ensures a < q * (b * c)
  {
    MulMonotone(d + 1, q * c, b, b);
    NestedProduct(q, b, c);
  }

  /** Dividing twice is dividing once by the product. */
  lemma QuotientTwice(a: nat, b: nat, c: nat)
    requires b > 0 && c > 0
    ensures b * c > 0 && a / b / c == a / (b * c)
  {
    MulMonotone(1, b, 1, c);
    var d := a / b;
    var q := d / c;
    Quotient(a, b);
    Quotient(d, c);
    ProductFromBelow(a, b, c, d, q);
    ProductFromAbove(a, b, c, d, q + 1);
    QuotientAtLeast(q, a, b * c);
    QuotientBelow(q + 1, a, b * c);
  }

  lemma ScaledMulMonotone(a: U256, c: U256, b: U256, d: U256)
    requires a <= c && b <= d
    requires ScaledMul(c, d).Ok?
    ensures ScaledMul(a, b).Ok? && ScaledMul(a, b).value <= ScaledMul(c, d).value
  {
    MulMonotone(a, c, b, d);
    QuotientMonotone(a * b, c * d, ONE);
  }

  /** A factor at most one never overflows and never enlarges. */
  lemma ScaledMulShrinks(a: U256, b: U256)
    requires a <= ONE && b <= ONE
    ensures ScaledMul(a, b).Ok? && ScaledMul(a, b).value <= a && ScaledMul(a, b).value <= b
  {
    MulMonotone(a, a, b, ONE);
    MulMonotone(a, ONE, b, b);
    assert a * b <= a * ONE <= ONE * ONE;
    QuotientBelow(a + 1, a * b, ONE);
    QuotientBelow(b + 1, a * b, ONE);
  }

  // ---- D18 values as real numbers --------------------------------------------------

  /** The number a raw D18 value stands for. */
  ghost function Real(x: nat): (v: real)
    ensures v >= 0.0
  {
    x as real / ONE as real
  }

  /** One unit in the last place, 1e-18. */
  ghost const ULP: real := 1.0 / ONE as real

  /** n units in the last place. */
  ghost function Units(n: nat): real {
    n as real * ULP
  }

  lemma UnitsAdd(a: nat, b: nat)
    ensures Units(a + b) == Units(a) + Units(b)
    ensures 0.0 <= Units(a) && Units(0) == 0.0 && Units(1) == ULP
  {
  }

  ghost function RPower(base: real, exponent: nat): real {
    if exponent == 0 then 1.0 else base * RPower(base, exponent - 1)
  }

  lemma RealOrder(a: nat, b: nat)
    ensures a <= b <==> Real(a) <= Real(b)
    ensures Real(a + b) == Real(a) + Real(b)
    ensures Real(ONE) == 1.0 && Real(1) == ULP
  {
  }

  lemma RealStrict(a: nat, b: nat)
    ensures a < b <==> Real(a) < Real(b)
  {
  }

  /** The only error of a scaled product: less than one unit, always downwards. */
  lemma TruncationError(a: U256, b: U256)
    requires ScaledMul(a, b).Ok?
    ensures Real(ScaledMul(a, b).value) <= Real(a) * Real(b) < Real(ScaledMul(a, b).value) + ULP
  {
    RealOfProduct(a, b);
    QuotientUnits(a * b);
    hide Real;
  }

  lemma RealOfProduct(a: nat, b: nat)
    ensures Real(a) * Real(b) == (a * b) as real / ONE as real / ONE as real
  {
    CastProduct(a, b);
    ProductOfQuotients(a as real, b as real, ONE as real);
  }

  lemma QuotientUnits(product: nat)
    ensures Real(product / ONE) <= product as real / ONE as real / ONE as real < Real(product / ONE) + ULP
  {
    DivisionError(product, ONE);
    var (q, exact) := (product / ONE, product as real / ONE as real);
    DividePositive(q as real, exact, ONE as real);
    DividePositive(exact, q as real + 1.0, ONE as real);
  }

  lemma CastProduct(a: nat, b: nat)
    ensures (a * b) as real == a as real * b as real
  {
  }

  /** Floor division against the exact quotient. */
  lemma DivisionError(a: nat, b: nat)
    requires b > 0
    ensures (a / b) as real <= a as real / b as real < (a / b) as real + 1.0
  {
    Quotient(a, b);
    QuotientBounds(a, b, a / b);
  }

  lemma QuotientBounds(a: nat, b: nat, q: nat)
    requires b > 0 && q * b <= a < (q + 1) * b
    ensures q as real <= a as real / b as real < (q + 1) as real
  {
    CastProduct(q, b);
    CastProduct(q + 1, b);
    RealQuotient(a as real, q as real, b as real);
    RealQuotient(a as real, (q + 1) as real, b as real);
  }

  lemma RealQuotient(a: real, q: real, d: real)
    requires d > 0.0
    ensures q * d <= a <==> q <= a / d
    ensures a < q * d <==> a / d < q
  {
    assert a / d * d == a;
    if q <= a / d {
      RMulMonotone(q, a / d, d, d);
    } else {
      RMulStrict(a / d, q, d);
    }
  }

  lemma RMulMonotone(a: real, c: real, b: real, d: real)
    requires a <= c && 0.0 <= b <= d && (0.0 <= c || b == d)
    ensures a * b <= c * d
  {
  }

  lemma RScale(k: real, a: real, b: real)
    requires 0.0 <= k && a <= b
    ensures k * a <= k * b && a * k <= b * k
  {
  }

  lemma RDistribute(k: real, a: real, b: real)
    ensures k * (a + b) == k * a + k * b && (a + b) * k == a * k + b * k
  {
  }

  /** Linear steps over products, which the solver only takes when the products are named. */
  lemma RSum(x: real, a: real, b: real, a': real, b': real)
    requires x <= a + b && a <= a' && b <= b'
    ensures x <= a' + b'
  {
  }

  /** A product as the solver should see it in sums of products: one named value. */
  ghost function Times(a: real, b: real): real {
    a * b
  }

  lemma TimesOrdered(k: real, a: real, b: real)
    requires 0.0 <= k && a <= b
    ensures Times(k, a) <= Times(k, b)
  {
  }

  lemma TimesDistributes(k: real, a: real, b: real)
    ensures Times(k, a + b) == Times(k, a) + Times(k, b)
  {
  }

  lemma TimesCommutes(a: real, b: real)
    ensures Times(a, b) == Times(b, a) && Times(1.0, a) == a
  {
  }

  lemma RCongruent(k: real, a: real, b: real)
    requires a == b
    ensures k * a == k * b
  {
  }

  lemma RMulStrict(a: real, c: real, b: real)
    requires a < c && 0.0 < b
    ensures a * b < c * b
  {
  }

  lemma ProductOfQuotients(a: real, b: real, s: real)
    requires s > 0.0
    ensures (a / s) * (b / s) == a * b / s / s
  {
    var p, q := a / s, b / s;
    calc {
      a * b;
      (p * s) * (q * s);
      { RMulAssociative(p, s, q * s); }
      p * (s * (q * s));
      { RMulAssociative(s, q, s); RMulAssociative(q, s, s); }
      p * (q * (s * s));
      { RMulAssociative(p, q, s * s); RMulAssociative(p * q, s, s); }
      p * q * s * s;
    }
    assert a * b / s == p * q * s;
  }

  lemma DividePositive(a: real, b: real, s: real)
    requires s > 0.0
    ensures a <= b ==> a / s <= b / s
    ensures a < b ==> a / s < b / s
  {
  }

  lemma SplitQuotient(a: real, n: real)
    requires n > 0.0
    ensures (a + n) / n == a / n + 1.0
  {
    var q, q' := a / n, (a + n) / n;
    assert q * n == a && q' * n == a + n;
    assert (q + 1.0) * n == q * n + n by {
      RDistribute(n, q, 1.0);
    }
    CancelReal(q + 1.0, q', n);
  }

  lemma CancelReal(a: real, b: real, n: real)
    requires n > 0.0 && a * n == b * n
    ensures a == b
  {
    if a < b {
      RMulStrict(a, b, n);
    } else if b < a {
      RMulStrict(b, a, n);
    }
  }

  ghost function RSquare(x: real): real {
    x * x
  }

  lemma RPowerUnfold(x: real, e: nat)
    ensures RPower(x, e) == if e == 0 then 1.0 else x * RPower(x, e - 1)
  {
  }

  lemma RPowerNonNegative(x: real, e: nat)
    requires x >= 0.0
    ensures RPower(x, e) >= 0.0
    ensures x <= 1.0 ==> RPower(x, e) <= 1.0
    ensures x >= 1.0 ==> RPower(x, e) >= 1.0
  {
    if e != 0 {
      RPowerNonNegative(x, e - 1);
      var p := RPower(x, e - 1);
      assert x * p >= 0.0;
      if x <= 1.0 {
        RMulMonotone(x, 1.0, p, 1.0);
      }
      if x >= 1.0 {
        RMulMonotone(1.0, x, 1.0, p);
      }
    }
  }

  lemma RPowerMonotone(x: real, y: real, e: nat)
    requires 0.0 <= x <= y
    ensures 0.0 <= RPower(x, e) <= RPower(y, e)
  {
    if e != 0 {
      RPowerMonotone(x, y, e - 1);
      RMulMonotone(x, y, RPower(x, e - 1), RPower(y, e - 1));
      RMulMonotone(0.0, x, RPower(x, e - 1), RPower(x, e - 1));
    }
  }

  lemma {:induction false} RPowerTwoMore(x: real, e: nat)
    requires e >= 2
    ensures RPower(x, e) == RSquare(x) * RPower(x, e - 2)
  {
    RPowerUnfold(x, e);
    RPowerUnfold(x, e - 1);
    RMulAssociative(x, x, RPower(x, e - 2));
  }

  /** x^(2e) is (x^2)^e. */
  lemma {:induction false} RPowerSquare(x: real, e: nat)
    ensures RPower(x, 2 * e) == RPower(RSquare(x), e)
  {
    hide RPower, RSquare;
    RPowerUnfold(x, 2 * e);
    RPowerUnfold(RSquare(x), e);
    if e != 0 {
      RPowerSquare(x, e - 1);
      RPowerTwoMore(x, 2 * e);
    }
  }

  lemma RMulAssociative(a: real, b: real, c: real)
    ensures (a * b) * c == a * (b * c)
  {
  }
}

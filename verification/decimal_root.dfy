/**
 `Decimal::nth_root`: a fifteen-round binary search up to n = 1,000,000 and a three-term
 series above it.
 */
module DecimalRoot {
  import opened Outcomes
  import opened FixedPoint

  const NTH_ROOT_UPPER_BOUND: nat := 1_000_000
  const NTH_ROOT_MAX_ITERATIONS: nat := 15

  // ---- Binary search ----------------------------------------------------------------

  /** `acc` multiplied `k` times by `mid`, truncated to D18 after every product. */
  function IteratedFrom(acc: U256, mid: U256, k: nat): Checked
    decreases k
  {
    if k == 0 then Ok(acc)
    else
      var acc' :- ScaledMul(acc, mid);
      IteratedFrom(acc', mid, k - 1)
  }

  /** The n-th power the search compares with its target: n - 1 products, none for n = 0. */
  function Iterated(mid: U256, n: nat): Checked {
    IteratedFrom(mid, mid, if n == 0 then 0 else n - 1)
  }

  lemma {:induction false} IteratedNeverExceeds(acc: U256, mid: U256, k: nat)
    requires IteratedFrom(acc, mid, k).Ok?
    ensures Real(IteratedFrom(acc, mid, k).value) <= Real(acc) * RPower(Real(mid), k)
    decreases k
  {
    hide RPower, Real, ScaledMul;
    RPowerUnfold(Real(mid), k);
    if k > 0 {
      var acc' := ScaledMul(acc, mid).value;
      IteratedNeverExceeds(acc', mid, k - 1);
      TruncationError(acc, mid);
      var p := RPower(Real(mid), k - 1);
      RPowerNonNegative(Real(mid), k - 1);
      RScale(p, Real(acc'), Real(acc) * Real(mid));
      RMulAssociative(Real(acc), Real(mid), p);
      RCongruent(Real(acc), RPower(Real(mid), k), Real(mid) * p);
      RSum(Real(IteratedFrom(acc, mid, k).value), Real(acc') * p, 0.0, Real(acc) * RPower(Real(mid), k), 0.0);
    }
  }

  /** Below one the k truncations cost at most k units. */
  lemma {:induction false} IteratedLoss(acc: U256, mid: U256, k: nat)
    requires acc <= ONE && mid <= ONE
    ensures IteratedFrom(acc, mid, k).Ok? && IteratedFrom(acc, mid, k).value <= ONE
    ensures Real(acc) * RPower(Real(mid), k) <= Real(IteratedFrom(acc, mid, k).value) + Units(k)
    decreases k
  {
    hide RPower, Real, Units, ScaledMul;
    RPowerUnfold(Real(mid), k);
    UnitsAdd(0, 0);
    if k > 0 {
      ScaledMulShrinks(acc, mid);
      var acc' := ScaledMul(acc, mid).value;
      IteratedLoss(acc', mid, k - 1);
      TruncationError(acc, mid);
      UnitsAdd(k - 1, 1);
      RealOrder(mid, ONE);
      var p := RPower(Real(mid), k - 1);
      RPowerNonNegative(Real(mid), k - 1);
      RScale(p, Real(acc) * Real(mid), Real(acc') + ULP);
      RDistribute(p, Real(acc'), ULP);
      RScale(ULP, p, 1.0);
      RMulAssociative(Real(acc), Real(mid), p);
      RCongruent(Real(acc), RPower(Real(mid), k), Real(mid) * p);
      RSum(Real(acc) * RPower(Real(mid), k), Real(acc') * p, ULP * p,
           Real(IteratedFrom(acc', mid, k - 1).value) + Units(k - 1), ULP);
    }
  }

  /** At or above one the truncated power never falls below its base. */
  lemma {:induction false} IteratedAtLeast(acc: U256, mid: U256, k: nat)
    requires ONE <= mid && IteratedFrom(acc, mid, k).Ok?
    ensures acc <= IteratedFrom(acc, mid, k).value
    decreases k
  {
    if k > 0 {
      MulMonotone(acc, acc, ONE, mid);
      QuotientAtLeast(acc, acc * mid, ONE);
      IteratedAtLeast(ScaledMul(acc, mid).value, mid, k - 1);
    }
  }

  lemma {:induction false} IteratedOfZero(k: nat)
    ensures IteratedFrom(0, 0, k) == Ok(0)
    decreases k
  {
    if k > 0 {
      IteratedOfZero(k - 1);
    }
  }

  /** What the search knows of its interval: where the truncated powers of its ends lie. */
  ghost predicate Brackets(low: U256, high: U256, target: U256, n: nat) {
    && low < high
    && Iterated(low, n).Ok? && Iterated(low, n).value < target
    && (Iterated(high, n).Ok? ==> target <= Iterated(high, n).value)
  }

  /** The width of the starting interval. */
  function StartHigh(target: U256): U256 {
    if target > ONE then target else ONE
  }

  /** `width` halved `rounds` times, rounding up. */
  function HalvedUp(width: nat, rounds: nat): nat {
    if rounds == 0 then width else (HalvedUp(width, rounds - 1) + 1) / 2
  }

  function Pow2(k: nat): (p: nat)
    ensures p > 0
  {
    if k == 0 then 1 else 2 * Pow2(k - 1)
  }

  lemma CeilingStep(h: nat, half: nat, p: nat, width: nat)
    requires h <= 2 * half <= h + 1 && width <= h * p < width + p
    ensures width <= half * (2 * p) < width + 2 * p
  {
    assert half * (2 * p) == (2 * half) * p;
    if 2 * half == h + 1 {
      assert (h + 1) * p == h * p + p;
    }
  }

  /** It is the ceiling of width / 2^rounds. */
  lemma {:induction false} HalvedUpIsCeiling(width: nat, rounds: nat)
    ensures width <= HalvedUp(width, rounds) * Pow2(rounds) < width + Pow2(rounds)
  {
    if rounds > 0 {
      HalvedUpIsCeiling(width, rounds - 1);
      CeilingStep(HalvedUp(width, rounds - 1), HalvedUp(width, rounds), Pow2(rounds - 1), width);
    }
  }

  /** It succeeds wherever the bound does, with no larger value. */
  predicate NoWorse(r: Checked, bound: Checked) {
    bound.Ok? ==> r.Ok? && r.value <= bound.value
  }

  /** A smaller base overflows no sooner and ends no higher. */
  lemma {:induction false} IteratedMonotone(acc: U256, acc': U256, mid: U256, mid': U256, k: nat)
    requires acc <= acc' && mid <= mid'
    ensures NoWorse(IteratedFrom(acc, mid, k), IteratedFrom(acc', mid', k))
    decreases k
  {
    hide ScaledMul;
    if k > 0 && ScaledMul(acc', mid').Ok? {
      ScaledMulMonotone(acc, acc', mid, mid');
      IteratedMonotone(ScaledMul(acc, mid).value, ScaledMul(acc', mid').value, mid, mid', k - 1);
    }
  }

  /**
   A search that has only moved up to `low` still fails: the sum of its ends overflows, or
   the first probe that is not below the target does.
   */
  predicate ClimbFails(low: U256, target: U256, n: nat, rounds: nat)
    decreases rounds
  {
    var high := StartHigh(target);
    low + high >= U256_LIMIT ||
    (rounds > 0 &&
     var power := Iterated((low + high) / 2, n);
     power.Err? || (power.value < target && ClimbFails((low + high) / 2, target, n, rounds - 1)))
  }

  /** Once a probe was not below the target, neither a sum nor a probe can overflow any more. */
  ghost predicate Descended(high: U256, target: U256, n: nat) {
    high < StartHigh(target) && 2 * high < U256_LIMIT && Iterated(high, n).Ok?
  }

  /** Whether a search fails is settled by its first probe that is not below the target. */
  ghost predicate FailureSettled(low: U256, high: U256, target: U256, n: nat, round: nat)
    requires round <= NTH_ROOT_MAX_ITERATIONS
  {
    if high == StartHigh(target)
    then ClimbFails(0, target, n, NTH_ROOT_MAX_ITERATIONS)
      == ClimbFails(low, target, n, NTH_ROOT_MAX_ITERATIONS - round)
    else Descended(high, target, n) && !ClimbFails(0, target, n, NTH_ROOT_MAX_ITERATIONS)
  }

  /** The search from an interval on, for the rounds that are left. */
  function SearchFrom(low: U256, high: U256, target: U256, n: nat, rounds: nat): Checked
    decreases rounds
  {
    if low + high >= U256_LIMIT then Err(MathOverflow)
    else
      var mid := (low + high) / 2;
      if rounds == 0 then Ok(mid)
      else
        var power :- Iterated(mid, n);
        if power > target then SearchFrom(low, mid, target, n, rounds - 1)
        else if power < target then SearchFrom(mid, high, target, n, rounds - 1)
        else Ok(mid)
  }

  lemma SearchStart(target: U256, n: nat)
    requires target != 0
    ensures Searching(0, StartHigh(target), target, n, 0)
  {
    var k := if n == 0 then 0 else n - 1;
    IteratedOfZero(k);
    if Iterated(StartHigh(target), n).Ok? {
      IteratedAtLeast(StartHigh(target), StartHigh(target), k);
    }
  }

  /** The inner loop of the search. */
  method IteratedPower(mid: U256, n: U64) returns (r: Checked)
    ensures r == Iterated(mid, n)
  {
    var midPow := mid;
    for k := 1 to if n == 0 then 1 else n
      invariant Iterated(mid, n) == IteratedFrom(midPow, mid, if n == 0 then 0 else n - k)
    {
      midPow :- ScaledMul(midPow, mid);
    }
    return Ok(midPow);
  }

  /** The state of a search that used all its rounds. */
  ghost predicate SearchEnd(root: U256, low: U256, high: U256, target: U256, n: nat) {
    && Brackets(low, high, target, n)
    && high <= StartHigh(target)
    && root == (low + high) / 2
    && high - low <= HalvedUp(StartHigh(target), NTH_ROOT_MAX_ITERATIONS)
  }

  ghost predicate Searching(low: U256, high: U256, target: U256, n: nat, round: nat) {
    && Brackets(low, high, target, n)
    && high <= StartHigh(target)
    && high - low <= HalvedUp(StartHigh(target), round)
  }

  /** Whichever half is kept still brackets the target. */
  lemma SearchStep(low: U256, high: U256, target: U256, n: nat, round: nat)
    requires Searching(low, high, target, n, round) && low + high < U256_LIMIT
    ensures var mid := (low + high) / 2;
            Iterated(mid, n).Ok? ==>
              && (Iterated(mid, n).value > target ==> Searching(low, mid, target, n, round + 1))
              && (Iterated(mid, n).value < target ==> Searching(mid, high, target, n, round + 1))
  {
  }

  lemma SettledStep(low: U256, high: U256, target: U256, n: nat, round: nat)
    requires round < NTH_ROOT_MAX_ITERATIONS && low < high <= StartHigh(target)
    requires FailureSettled(low, high, target, n, round)
    ensures var fails := ClimbFails(0, target, n, NTH_ROOT_MAX_ITERATIONS);
            if low + high >= U256_LIMIT then fails else
              var mid := (low + high) / 2;
              match Iterated(mid, n)
              case Err(_) => fails
              case Ok(power) =>
                && (power == target ==> !fails)
                && (power > target ==> FailureSettled(low, mid, target, n, round + 1))
                && (power < target ==> FailureSettled(mid, high, target, n, round + 1))
  {
    hide IteratedFrom;
    if low + high < U256_LIMIT && high < StartHigh(target) {
      var mid := (low + high) / 2;
      IteratedMonotone(mid, high, mid, high, if n == 0 then 0 else n - 1);
    }
  }

  lemma SettledEnd(low: U256, high: U256, target: U256, n: nat)
    requires low < high && FailureSettled(low, high, target, n, NTH_ROOT_MAX_ITERATIONS)
    ensures ClimbFails(0, target, n, NTH_ROOT_MAX_ITERATIONS) <==> low + high >= U256_LIMIT
  {
  }

  lemma SearchStops(low: U256, high: U256, target: U256, n: nat)
    ensures SearchFrom(low, high, target, n, 0)
         == if low + high >= U256_LIMIT then Err(MathOverflow) else Ok((low + high) / 2)
  {
  }

  /** One round: the middle of the interval and how its truncated power compares with the target. */
  method SearchRound(lo: U256, hi: U256, target: U256, n: U64, ghost round: nat)
    returns (r: Result<(), MathError>, mid: U256, order: int)
    requires round < NTH_ROOT_MAX_ITERATIONS
    requires Searching(lo, hi, target, n, round) && FailureSettled(lo, hi, target, n, round)
    ensures target <= ONE ==> r.Ok?
    ensures r.Err? ==> ClimbFails(0, target, n, NTH_ROOT_MAX_ITERATIONS)
    ensures r.Ok? && order == 0 ==> Iterated(mid, n) == Ok(target) && !ClimbFails(0, target, n, NTH_ROOT_MAX_ITERATIONS)
    ensures r.Ok? && order > 0 ==>
              Searching(lo, mid, target, n, round + 1) && FailureSettled(lo, mid, target, n, round + 1)
    ensures r.Ok? && order < 0 ==>
              Searching(mid, hi, target, n, round + 1) && FailureSettled(mid, hi, target, n, round + 1)
    ensures var rest := NTH_ROOT_MAX_ITERATIONS - round - 1;
            SearchFrom(lo, hi, target, n, rest + 1) ==
              if r.Err? then Err(r.error)
              else if order > 0 then SearchFrom(lo, mid, target, n, rest)
              else if order < 0 then SearchFrom(mid, hi, target, n, rest)
              else Ok(mid)
  {
    hide Iterated, ScaledMul, ClimbFails, FailureSettled;
    SettledStep(lo, hi, target, n, round);
    mid, order := 0, 0;
    if lo + hi >= U256_LIMIT {
      return Err(MathOverflow), 0, 0;
    }
    mid := (lo + hi) / 2;
    SearchStep(lo, hi, target, n, round);
    if target <= ONE {
      IteratedBelowOne(mid, n);
    }
    var midPow := IteratedPower(mid, n);
    if midPow.Err? {
      return Err(midPow.error), mid, 0;
    }
    return Ok(()), mid, if midPow.value > target then 1 else if midPow.value < target then -1 else 0;
  }

  /**
   The search: an early return is an exact hit; otherwise the result is the middle of an
   interval that brackets the target and whose width is at most the fifteenth halving of
   the starting one. Below one it cannot fail.
   */
  method NthRootSearch(target: U256, n: U64) returns (r: Checked, ghost low: U256, ghost high: U256)
    requires target != 0 && target != ONE
    ensures r == SearchFrom(0, StartHigh(target), target, n, NTH_ROOT_MAX_ITERATIONS)
    ensures target <= ONE ==> r.Ok?
    ensures r.Err? <==> ClimbFails(0, target, n, NTH_ROOT_MAX_ITERATIONS)
    ensures r.Ok? ==> Iterated(r.value, n) == Ok(target) || SearchEnd(r.value, low, high, target, n)
  {
    hide ScaledMul, IteratedFrom, HalvedUp, ClimbFails, SearchFrom;
    SearchStart(target, n);
    low, high := 0, 0;
    var lo: U256 := 0;
    var hi := StartHigh(target);
    for i := 0 to NTH_ROOT_MAX_ITERATIONS
      invariant Searching(lo, hi, target, n, i) && FailureSettled(lo, hi, target, n, i)
      invariant SearchFrom(0, StartHigh(target), target, n, NTH_ROOT_MAX_ITERATIONS)
             == SearchFrom(lo, hi, target, n, NTH_ROOT_MAX_ITERATIONS - i)
    {
      var round, mid, order := SearchRound(lo, hi, target, n, i);
      if round.Err? {
        return Err(round.error), lo, hi;
      }
      if order > 0 {
        hi := mid;
      } else if order < 0 {
        lo := mid;
      } else {
        return Ok(mid), lo, hi;
      }
    }
    SettledEnd(lo, hi, target, n);
    SearchStops(lo, hi, target, n);
    var sum :- CheckedAdd(lo, hi);
    return Ok(sum / 2), lo, hi;
  }

  // ---- Order of the search ----------------------------------------------------------

  /** The result lies in the interval the search starts from. */
  lemma {:induction false} SearchWithin(low: U256, high: U256, target: U256, n: nat, rounds: nat)
    requires low <= high && SearchFrom(low, high, target, n, rounds).Ok?
    ensures low <= SearchFrom(low, high, target, n, rounds).value <= high
    decreases rounds
  {
    hide Iterated;
    if rounds > 0 {
      var mid: U256 := (low + high) / 2;
      if Iterated(mid, n).value > target {
        SearchWithin(low, mid, target, n, rounds - 1);
      } else if Iterated(mid, n).value < target {
        SearchWithin(mid, high, target, n, rounds - 1);
      }
    }
  }

  /**
   A larger target never has a smaller result: while both searches keep the same half they
   share their interval, and where they part the middle lies between their results.
   */
  lemma {:induction false} SearchMonotone(low: U256, high: U256, target: U256, other: U256, n: nat, rounds: nat)
    requires low <= high && target <= other
    requires SearchFrom(low, high, target, n, rounds).Ok? && SearchFrom(low, high, other, n, rounds).Ok?
    ensures SearchFrom(low, high, target, n, rounds).value <= SearchFrom(low, high, other, n, rounds).value
    decreases rounds
  {
    hide Iterated;
    if rounds > 0 {
      var mid: U256 := (low + high) / 2;
      var power := Iterated(mid, n).value;
      if power > other {
        SearchMonotone(low, mid, target, other, n, rounds - 1);
      } else if power < target {
        SearchMonotone(mid, high, target, other, n, rounds - 1);
      } else {
        if power > target {
          SearchWithin(low, mid, target, n, rounds - 1);
        }
        if power < other {
          SearchWithin(mid, high, other, n, rounds - 1);
        }
      }
    }
  }

  lemma {:induction false} SearchBelowOne(low: U256, high: U256, target: U256, n: nat, rounds: nat)
    requires low <= high <= ONE
    ensures SearchFrom(low, high, target, n, rounds).Ok?
    decreases rounds
  {
    hide Iterated;
    if rounds > 0 {
      var mid: U256 := (low + high) / 2;
      IteratedBelowOne(mid, n);
      SearchBelowOne(low, mid, target, n, rounds - 1);
      SearchBelowOne(mid, high, target, n, rounds - 1);
    }
  }

  lemma SquareReaches(target: U256, mid: U256)
    requires target >= 4 * ONE + 2 && mid == target / 2 && ScaledMul(mid, mid).Ok?
    ensures target <= ScaledMul(mid, mid).value
  {
    MulMonotone(2 * ONE + 1, mid, mid, mid);
    QuotientAtLeast(target, mid * mid, ONE);
  }

  lemma FactorDoubles(acc: U256, mid: U256)
    requires 2 * ONE <= mid && ScaledMul(acc, mid).Ok?
    ensures 2 * acc <= ScaledMul(acc, mid).value
  {
    MulMonotone(acc, acc, 2 * ONE, mid);
    QuotientAtLeast(2 * acc, acc * mid, ONE);
  }

  /**
   From just above four on, square roots and higher ones fail exactly when the first probe,
   half the value, overflows.
   */
  lemma FirstProbeDecides(target: U256, n: nat)
    requires target >= 4 * ONE + 2 && n >= 2
    ensures ClimbFails(0, target, n, NTH_ROOT_MAX_ITERATIONS) <==> Iterated(target / 2, n).Err?
  {
    hide ScaledMul;
    var mid: U256 := target / 2;
    if Iterated(mid, n).Ok? {
      var square := ScaledMul(mid, mid).value;
      IteratedAtLeast(square, mid, n - 2);
      SquareReaches(target, mid);
    }
  }

  /** A base of at least two doubles the product with every factor. */
  lemma {:induction false} IteratedDoubles(acc: U256, mid: U256, k: nat)
    requires 2 * ONE <= mid && IteratedFrom(acc, mid, k).Ok?
    ensures acc * Pow2(k) <= IteratedFrom(acc, mid, k).value
    decreases k
  {
    hide ScaledMul;
    if k > 0 {
      var acc' := ScaledMul(acc, mid).value;
      FactorDoubles(acc, mid);
      IteratedDoubles(acc', mid, k - 1);
      MulMonotone(2 * acc, acc', Pow2(k - 1), Pow2(k - 1));
      assert acc * Pow2(k) == 2 * acc * Pow2(k - 1);
    }
  }

  lemma Pow2Unfold(k: nat)
    ensures Pow2(0) == 1 && (k > 0 ==> Pow2(k) == 2 * Pow2(k - 1))
  {
  }

  lemma {:induction false} Pow2Doubles(k: nat, j: nat)
    ensures Pow2(k + j) == Pow2(k) * Pow2(j)
  {
    hide Pow2;
    Pow2Unfold(k);
    Pow2Unfold(k + j);
    if k > 0 {
      Pow2Doubles(k - 1, j);
      DoubleProduct(Pow2(k - 1), Pow2(j));
    }
  }

  lemma DoubleProduct(a: nat, b: nat)
    ensures 2 * a * b == 2 * (a * b)
  {
  }

  lemma Pow2Squares(k: nat, p: nat)
    requires Pow2(k) == p
    ensures Pow2(2 * k) == p * p
  {
    Pow2Doubles(k, k);
  }

  lemma Pow2Limit()
    ensures Pow2(256) == U256_LIMIT
  {
    assert Pow2(4) == 16;
    hide Pow2;
    Pow2Squares(4, 0x10);
    Pow2Squares(8, 0x100);
    Pow2Squares(16, 0x1_0000);
    Pow2Squares(32, 0x1_0000_0000);
    Pow2Squares(64, U64_LIMIT);
    Pow2Squares(128, U128_LIMIT);
  }

  /** No value above four has a 257th or higher root by the search: the first probe always overflows. */
  lemma HighRootsFail(target: U256, n: nat)
    requires target >= 4 * ONE + 2 && n >= 257
    ensures ClimbFails(0, target, n, NTH_ROOT_MAX_ITERATIONS)
  {
    var mid: U256 := target / 2;
    FirstProbeDecides(target, n);
    if Iterated(mid, n).Ok? {
      hide Pow2;
      IteratedDoubles(mid, mid, n - 1);
      Pow2Limit();
      Pow2Doubles(256, n - 257);
      MulMonotone(U256_LIMIT, U256_LIMIT, 1, Pow2(n - 257));
      MulMonotone(1, mid, U256_LIMIT, Pow2(n - 1));
    }
  }

  lemma IteratedBelowOne(mid: U256, n: nat)
    requires mid <= ONE
    ensures Iterated(mid, n).Ok? && Iterated(mid, n).value <= ONE
  {
    IteratedLoss(mid, mid, if n == 0 then 0 else n - 1);
  }

  /**
   Accuracy below one: the interval the search ends with contains the exact root of
   target up to n - 1 units, so the result is off by at most half its width and those units.
   */
  lemma SearchEndEnclosesRoot(root: U256, low: U256, high: U256, target: U256, n: nat)
    requires 0 < target <= ONE && n >= 1
    requires SearchEnd(root, low, high, target, n)
    ensures low <= root < high && high - low <= 30_517_578_125_000
    ensures RPower(Real(low), n) < Real(target) + Units(n - 1)
    ensures Real(target) <= RPower(Real(high), n)
  {
    FinalWidth();
    hide RPower, Units, IteratedFrom, Real, ScaledMul;
    IteratedAgainstPower(low, n);
    IteratedAgainstPower(high, n);
    RealOrder(target, Iterated(high, n).value);
    RealStrict(Iterated(low, n).value, target);
  }

  /** Below one the iterated product is within n - 1 units of the exact power. */
  lemma IteratedAgainstPower(mid: U256, n: nat)
    requires mid <= ONE && n >= 1
    ensures Iterated(mid, n).Ok?
    ensures Real(Iterated(mid, n).value) <= RPower(Real(mid), n) <= Real(Iterated(mid, n).value) + Units(n - 1)
  {
    hide RPower, Units, IteratedFrom, Real, ScaledMul;
    IteratedLoss(mid, mid, n - 1);
    IteratedNeverExceeds(mid, mid, n - 1);
    RPowerUnfold(Real(mid), n);
  }

  lemma FinalWidth()
    ensures HalvedUp(ONE, NTH_ROOT_MAX_ITERATIONS) == 30_517_578_125_000
  {
    assert HalvedUp(ONE, 4) == 62500000000000000;
    assert HalvedUp(ONE, 8) == 3906250000000000;
    assert HalvedUp(ONE, 12) == 244140625000000;
  }

  // ---- Series -----------------------------------------------------------------------

  function CheckedU64(v: nat): Result<U64, MathError> {
    if v < U64_LIMIT then Ok(v) else Err(MathOverflow)
  }

  function MulU64(a: U64, b: U64): Result<U64, MathError> {
    CheckedU64(a * b)
  }

  function SubU64(a: U64, b: U64): Result<U64, MathError> {
    if b <= a then Ok(a - b) else Err(MathOverflow)
  }

  function CheckedU128(v: nat): Checked {
    if v < U128_LIMIT then Ok(v) else Err(MathOverflow)
  }

  function FirstTerm(x: U256, n: U64): Checked {
    CheckedDiv(x, n)
  }

  /** x^2 (n - 1) / 1e18 / n^2 / 2. */
  function SecondTerm(x: U256, n: U64): Checked {
    var xSquared :- CheckedMul(x, x);
    var nValue :- MulU64(n, n);
    var nMinusOne :- SubU64(n, 1);
    var product :- CheckedMul(xSquared, nMinusOne);
    var scaled :- CheckedDiv(product, ONE);
    var perSquare :- CheckedDiv(scaled, nValue);
    CheckedDiv(perSquare, 2)
  }

  function Cubed(x: U256): Checked {
    var xSquared :- CheckedMul(x, x);
    CheckedMul(xSquared, x)
  }

  function Coefficient(n: U64): Result<U64, MathError> {
    var nMinusOne :- SubU64(n, 1);
    var nMinusTwo :- SubU64(n, 2);
    MulU64(nMinusOne, nMinusTwo)
  }

  function CubeU128(n: U64): Checked {
    var nValue :- MulU64(n, n);
    CheckedU128(nValue * n)
  }

  function OverCube(xCubed: U256, numerator: U64, nCubed: U256): Checked {
    var product :- CheckedMul(xCubed, numerator);
    var scaled :- CheckedDiv(product, ONE);
    var scaled' :- CheckedDiv(scaled, ONE);
    var perCube :- CheckedDiv(scaled', nCubed);
    CheckedDiv(perCube, 6)
  }

  /** x^3 (n - 1) (n - 2) / 1e18 / 1e18 / n^3 / 6. */
  function ThirdTerm(x: U256, n: U64): Checked {
    var xCubed :- Cubed(x);
    var numerator :- Coefficient(n);
    var nCubed :- CubeU128(n);
    OverCube(xCubed, numerator, nCubed)
  }

  /** The series branch, for x = 1 - self. */
  function NthRootSeries(self: U256, n: U64): Checked {
    var x :- CheckedSub(ONE, self);
    var first :- FirstTerm(x, n);
    var second :- SecondTerm(x, n);
    var third :- ThirdTerm(x, n);
    var afterFirst :- CheckedSub(ONE, first);
    var afterSecond :- CheckedSub(afterFirst, second);
    CheckedSub(afterSecond, third)
  }

  /** Which of the four cases `nth_root` takes. */
  function NthRootOf(self: U256, n: U64): Checked {
    if self == 0 || self == ONE then Ok(self)
    else if n > NTH_ROOT_UPPER_BOUND then NthRootSeries(self, n)
    else SearchFrom(0, StartHigh(self), self, n, NTH_ROOT_MAX_ITERATIONS)
  }

  /** `nth_root`: the two exact cases, then the series or the search. */
  method NthRoot(self: U256, n: U64) returns (r: Checked, ghost low: U256, ghost high: U256)
    ensures r == NthRootOf(self, n)
    ensures self == 0 || self == ONE ==> r == Ok(self)
    ensures self != 0 && self != ONE && n > NTH_ROOT_UPPER_BOUND ==> r == NthRootSeries(self, n)
    ensures self <= ONE && n <= NTH_ROOT_UPPER_BOUND ==> r.Ok?
    ensures self > ONE && n <= NTH_ROOT_UPPER_BOUND ==> (r.Err? <==> ClimbFails(0, self, n, NTH_ROOT_MAX_ITERATIONS))
    ensures n > NTH_ROOT_UPPER_BOUND ==> (r.Ok? <==> self == 0 || self == ONE || SeriesAccepts(self, n))
    ensures self != 0 && self != ONE && n <= NTH_ROOT_UPPER_BOUND && r.Ok? ==>
              Iterated(r.value, n) == Ok(self) || SearchEnd(r.value, low, high, self, n)
  {
    low, high := 0, 0;
    if self == 0 {
      return Ok(0), low, high;
    }
    if self == ONE {
      return Ok(ONE), low, high;
    }
    if n > NTH_ROOT_UPPER_BOUND {
      SeriesDomain(self, n);
      return NthRootSeries(self, n), low, high;
    }
    r, low, high := NthRootSearch(self, n);
  }

  lemma CancelFactor(a: nat, b: nat, n: nat)
    requires n > 0 && a * n <= b * n
    ensures a <= b
  {
    if b + 1 <= a {
      MulMonotone(b + 1, a, n, n);
    }
  }

  /** Below 2^32 the powers of n and the coefficient of the third term fit their integer types. */
  lemma WidthsFit(n: U64) returns (square: U64, numerator: U64)
    requires 2 < n < 0x1_0000_0000
    ensures square == n * n && MulU64(n, n) == Ok(square) && square > 0
    ensures 0 < square * n && CubeU128(n) == Ok(square * n)
    ensures Coefficient(n) == Ok(numerator) && numerator <= square
  {
    MulMonotone(n, 0xFFFF_FFFF, n, 0xFFFF_FFFF);
    MulMonotone(n - 1, n, n - 2, n);
    MulMonotone(1, n, 1, n);
    square := n * n;
    numerator := (n - 1) * (n - 2);
    MulMonotone(square, U64_LIMIT - 1, n, 0xFFFF_FFFF);
    MulMonotone(1, square, 1, n);
  }

  /** The second term is computed without error and is at most x / 2n. */
  lemma SecondTermBound(x: U256, n: U64)
    requires x <= ONE && 2 < n < 0x1_0000_0000
    ensures SecondTerm(x, n).Ok? && SecondTerm(x, n).value * 2 * n <= x
    ensures SecondTerm(x, n).value == x * x * (n - 1) / ONE / (n * n) / 2
  {
    var square, _ := WidthsFit(n);
    MulMonotone(x, x, x, ONE);
    MulMonotone(x * x, x * ONE, n - 1, n);
    assert x * ONE * n == (x * n) * ONE;
    MulMonotone(x, ONE, n, n);
    SecondQuotient(x * x * (n - 1), x, n);
  }

  lemma SecondQuotient(product: nat, x: nat, n: nat)
    requires n > 0 && product <= (x * n) * ONE
    ensures n * n > 0 && product / ONE / (n * n) / 2 * 2 * n <= x
  {
    MulMonotone(1, n, 1, n);
    QuotientBelow(x * n + 1, product, ONE);
    var q := product / ONE / (n * n);
    Quotient(product / ONE, n * n);
    assert q * (n * n) == (q * n) * n;
    CancelFactor(q * n, x, n);
    MulMonotone(q / 2 * 2, q, n, n);
  }

  lemma ThirdProduct(x: U256, c: U64, m: U64)
    requires x <= ONE && m <= c
    ensures Cubed(x) == Ok(x * x * x) && CheckedMul(x * x * x, m) == Ok(x * x * x * m)
    ensures x * x * x * m <= (x * c) * (ONE * ONE)
  {
    MulMonotone(x, x, x, ONE);
    MulMonotone(x * x, x * ONE, x, ONE);
    assert x * ONE * ONE == x * (ONE * ONE);
    MulMonotone(x * x * x, x * (ONE * ONE), m, c);
    assert x * (ONE * ONE) * c == (x * c) * (ONE * ONE);
    MulMonotone(x, ONE, c, U64_LIMIT);
  }

  /** x^3 m / 1e36 / cube / 6, the third term without its checks. */
  function ThirdValue(x: nat, m: nat, cube: nat): nat
    requires cube > 0
  {
    x * x * x * m / ONE / ONE / cube / 6
  }

  /** The third term is computed without error and is at most x / 6n. */
  lemma ThirdTermBound(x: U256, n: U64, square: U64, numerator: U64)
    requires x <= ONE && 2 < n < 0x1_0000_0000
    requires square > 0 && 0 < square * n && CubeU128(n) == Ok(square * n)
    requires Coefficient(n) == Ok(numerator) && numerator <= square
    ensures ThirdTerm(x, n) == Ok(ThirdValue(x, numerator, square * n))
    ensures ThirdValue(x, numerator, square * n) * 6 * n <= x
  {
    hide Cubed, Coefficient, CubeU128, CheckedMul;
    ThirdProduct(x, square, numerator);
    ThirdQuotient(x * x * x * numerator, x, square, n);
  }

  lemma ThirdQuotient(product: nat, x: nat, c: nat, n: nat)
    requires c > 0 && n > 0 && c * n > 0 && product <= (x * c) * (ONE * ONE)
    ensures product / ONE / ONE / (c * n) / 6 * 6 * n <= x
  {
    QuotientTwice(product, ONE, ONE);
    QuotientBelow(x * c + 1, product, ONE * ONE);
    var scaled := product / ONE / ONE;
    var q := scaled / (c * n);
    Quotient(scaled, c * n);
    assert q * (c * n) == (q * n) * c;
    CancelFactor(q * n, x, c);
    MulMonotone(q / 6 * 6, q, n, n);
  }

  /**
   The series branch never errs below n = 2^32 and lies between self and one, and between
   1 - 2x/n and 1 - floor(x/n), for x = 1 - self.
   */
  lemma SeriesRange(self: U256, n: U64)
    requires self <= ONE && NTH_ROOT_UPPER_BOUND < n < 0x1_0000_0000
    ensures NthRootSeries(self, n).Ok?
    ensures self <= NthRootSeries(self, n).value <= ONE - (ONE - self) / n
    ensures (ONE - NthRootSeries(self, n).value) * n <= 2 * (ONE - self)
  {
    var x: U256 := ONE - self;
    SecondTermBound(x, n);
    var square, numerator := WidthsFit(n);
    ThirdTermBound(x, n, square, numerator);
    Quotient(x, n);
    var first, second, third := x / n, SecondTerm(x, n).value, ThirdTerm(x, n).value;
    SumOfTerms(x, n, first, second, third);
    hide SecondTerm, ThirdTerm;
  }

  lemma SumOfTerms(x: nat, n: nat, first: nat, second: nat, third: nat)
    requires n >= 3 && first * n <= x && second * 2 * n <= x && third * 6 * n <= x
    ensures (first + second + third) * n <= 2 * x && first + second + third <= x
  {
    var total := first + second + third;
    assert total * n == first * n + second * n + third * n;
    assert 6 * (total * n) <= 12 * x;
    if x < total {
      MulMonotone(x + 1, total, 3, n);
    }
  }

  /** From n = 2^32 on, n^2 leaves u64 and the branch always errs. */
  lemma SeriesOverflow(self: U256, n: U64)
    requires n >= 0x1_0000_0000
    ensures NthRootSeries(self, n) == Err(MathOverflow)
  {
    MulMonotone(0x1_0000_0000, n, 0x1_0000_0000, n);
  }

  predicate SeriesAccepts(self: U256, n: U64) {
    self <= ONE && n < 0x1_0000_0000
  }

  /** Exactly the values up to one have a series root, and only below n = 2^32. */
  lemma SeriesDomain(self: U256, n: U64)
    requires n > NTH_ROOT_UPPER_BOUND
    ensures NthRootSeries(self, n).Ok? <==> SeriesAccepts(self, n)
  {
    if n >= 0x1_0000_0000 {
      SeriesOverflow(self, n);
    } else if self <= ONE {
      SeriesRange(self, n);
    }
    hide FirstTerm, SecondTerm, ThirdTerm;
  }

  lemma SeriesTermsMonotone(x: U256, y: U256, n: U64)
    requires x <= y <= ONE && 2 < n < 0x1_0000_0000
    ensures x / n <= y / n
    ensures SecondTerm(x, n).Ok? && SecondTerm(y, n).Ok? && SecondTerm(x, n).value <= SecondTerm(y, n).value
    ensures ThirdTerm(x, n).Ok? && ThirdTerm(y, n).Ok? && ThirdTerm(x, n).value <= ThirdTerm(y, n).value
  {
    SecondTermBound(x, n);
    SecondTermBound(y, n);
    var square, numerator := WidthsFit(n);
    ThirdTermBound(x, n, square, numerator);
    ThirdTermBound(y, n, square, numerator);
    hide SecondTerm, ThirdTerm, MulU64;
    QuotientMonotone(x, y, n);
    MulMonotone(x, y, x, y);
    MulMonotone(x * x, y * y, n - 1, n - 1);
    QuotientMonotone(x * x * (n - 1), y * y * (n - 1), ONE);
    QuotientMonotone(x * x * (n - 1) / ONE, y * y * (n - 1) / ONE, square);
    ThirdValueMonotone(x, y, numerator, square * n);
  }

  lemma ThirdValueMonotone(x: nat, y: nat, m: nat, cube: nat)
    requires x <= y && cube > 0
    ensures ThirdValue(x, m, cube) <= ThirdValue(y, m, cube)
  {
    MulMonotone(x, y, x, y);
    MulMonotone(x * x, y * y, x, y);
    MulMonotone(x * x * x, y * y * y, m, m);
    QuotientMonotone(x * x * x * m, y * y * y * m, ONE);
    QuotientMonotone(x * x * x * m / ONE, y * y * y * m / ONE, ONE);
    QuotientMonotone(x * x * x * m / ONE / ONE, y * y * y * m / ONE / ONE, cube);
  }

  /** The series branch is monotone in the value whose root is taken. */
  lemma SeriesMonotone(self: U256, other: U256, n: U64)
    requires self <= other <= ONE && NTH_ROOT_UPPER_BOUND < n < 0x1_0000_0000
    ensures NthRootSeries(self, n).Ok? && NthRootSeries(other, n).Ok?
    ensures NthRootSeries(self, n).value <= NthRootSeries(other, n).value
  {
    hide SecondTerm, ThirdTerm;
    SeriesRange(self, n);
    SeriesRange(other, n);
    SeriesTermsMonotone(ONE - other, ONE - self, n);
  }

  lemma RootUpToOne(self: U256, n: U64)
    requires self <= ONE && n < 0x1_0000_0000
    ensures NthRootOf(self, n).Ok? && NthRootOf(self, n).value <= ONE
  {
    hide NthRootSeries, SearchFrom;
    if self != 0 && self != ONE {
      if n > NTH_ROOT_UPPER_BOUND {
        SeriesRange(self, n);
      } else {
        SearchBelowOne(0, ONE, self, n, NTH_ROOT_MAX_ITERATIONS);
        SearchWithin(0, ONE, self, n, NTH_ROOT_MAX_ITERATIONS);
      }
    }
  }

  /** Up to one, `nth_root` never fails below n = 2^32 and is monotone in the value, across its exact cases too. */
  lemma NthRootMonotone(self: U256, other: U256, n: U64)
    requires self <= other <= ONE && n < 0x1_0000_0000
    ensures NthRootOf(self, n).Ok? && NthRootOf(other, n).Ok?
    ensures NthRootOf(self, n).value <= NthRootOf(other, n).value
  {
    hide NthRootSeries, SearchFrom;
    RootUpToOne(self, n);
    RootUpToOne(other, n);
    if 0 < self && other < ONE {
      if n > NTH_ROOT_UPPER_BOUND {
        SeriesMonotone(self, other, n);
      } else {
        SearchMonotone(0, ONE, self, other, n, NTH_ROOT_MAX_ITERATIONS);
      }
    }
  }
}

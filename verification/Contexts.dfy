/**
Python's decimal contexts: sums are finished to a number of significant digits and between a least and a
greatest exponent. First the rule and exactly when it keeps a sum, then `_add_reward_quantity` of
application/broker_reconciliation.py, which chooses the digits from its operands, then sums accumulated
value by value in one context.
*/
module Contexts {
  import opened Outcomes
  import opened Decimals

  // ---- One sum ------------------------------------------------------------------------------

  /** Emin and Emax of the default context and of every copy of it. */
  const EMIN: int := -999_999

  const EMAX: int := 999_999

  /** The least exponent of any result, that of the subnormal numbers. */
  function Etiny(prec: nat): int {
    EMIN - prec + 1
  }

  /** How many of the lowest digits of n * 10^e a context does not keep. */
  function Excess(n: nat, e: int, prec: nat): (k: nat)
    ensures k >= DigitCount(n) - prec && e + k >= Etiny(prec)
    ensures k == 0 || k == DigitCount(n) - prec || e + k == Etiny(prec)
  {
    Max(0, Max(DigitCount(n) - prec, Etiny(prec) - e))
  }

  /** n * 10^e has its leading digit above Emax. */
  predicate TooLarge(n: nat, e: int) {
    n != 0 && e + DigitCount(n) - 1 > EMAX
  }

  /** A coefficient after rounding: a carry into one digit more is taken back into the exponent. */
  function Carried(units: nat, e: int, prec: nat): (nat, int)
    requires prec >= 1
  {
    if units < Pow10(prec) then (units, e) else (Pow10(prec - 1), e + 1)
  }

  function Signed(sign: int, n: int): int {
    if sign < 0 then -n else n
  }

  /**
  The number total * 10^e finished for a context of `prec` digits: digits in excess are rounded half to
  even, an overflow is refused, and a zero keeps its exponent within the limits.
  */
  function Finished(total: int, e: int, prec: nat): Result<Decimal>
    requires prec >= 1
  {
    var n := Abs(total);
    if n == 0 then Ok(Decimal(0, Min(Max(e, Etiny(prec)), EMAX)))
    else
      var k := Excess(n, e, prec);
      var (c, x) := Carried(RoundedUnits(n, k), e + k, prec);
      if TooLarge(n, e) || TooLarge(c, x) then Err("overflow") else Ok(Decimal(Signed(total, c), x))
  }

  /** What is left of a total after rounding, in its own units. */
  function RoundedAt(total: int, e: int, prec: nat): int {
    var n := Abs(total);
    var k := Excess(n, e, prec);
    Signed(total, RoundedUnits(n, k) * Pow10(k))
  }

  /** The number can be counted in units of 10^e; a zero always can. */
  predicate Fits(d: Decimal, e: int) {
    d.exp >= Min(e, EMAX) && (d.exp >= e || d.coeff == 0)
  }

  /** The result reads `value` in units of 10^e. */
  predicate Yields(r: Result<Decimal>, e: int, value: int) {
    r.Ok? && Fits(r.value, e) && Scaled(r.value, e) == value
  }

  lemma FinishedReads(total: int, e: int, prec: nat)
    requires prec >= 1 && Finished(total, e, prec).Ok?
    ensures Yields(Finished(total, e, prec), e, if total == 0 then 0 else RoundedAt(total, e, prec))
  {
    if total != 0 {
      var n := Abs(total);
      var k := Excess(n, e, prec);
      ExcessBounds(n, e, prec);
      RoundedUnitsFit(n, k, prec);
      hide Excess;
      hide RoundedUnits;
      hide DigitCount;
      hide Pow10;
      CarriedReads(RoundedUnits(n, k), e, k, prec);
      var (c, x) := Carried(RoundedUnits(n, k), e + k, prec);
      NegateProduct(c, Pow10(x - e));
    }
  }

  /** Taking a carry back does not change the number. */
  lemma CarriedReads(units: nat, e: int, k: nat, prec: nat)
    requires prec >= 1 && units <= Pow10(prec)
    ensures var (c, x) := Carried(units, e + k, prec); x >= e && c * Pow10(x - e) == units * Pow10(k)
  {
    CarriedDigit(prec, k);
  }

  lemma ExcessBounds(n: nat, e: int, prec: nat)
    requires n > 0
    ensures n < Pow10(prec + Excess(n, e, prec))
  {
    PowMonotone(DigitCount(n), prec + Excess(n, e, prec));
    hide Excess;
  }

  lemma CarriedDigit(prec: nat, k: nat)
    requires prec >= 1
    ensures Pow10(prec - 1) * Pow10(k + 1) == Pow10(prec) * Pow10(k)
  {
    PowAdd(prec - 1, k + 1);
    PowAdd(prec, k);
  }

  lemma RoundedUnitsFit(n: nat, k: nat, prec: nat)
    requires n < Pow10(prec + k)
    ensures RoundedUnits(n, k) <= Pow10(prec)
  {
    var q := DropDigits(n, k);
    DroppedPartIsSmall(n, k);
    PowAdd(prec, k);
    if Pow10(prec) <= q {
      MulAtLeast(Pow10(prec), q, Pow10(k));
    }
  }

  /** total * 10^e can be written with at most `prec` digits and no exponent below the least one. */
  ghost predicate Writable(total: int, e: int, prec: nat) {
    total == 0 || exists c: int, k: nat :: WrittenIn(total, e, c, k, prec)
  }

  predicate WrittenIn(total: int, e: int, c: int, k: nat, prec: nat) {
    IsWritten(total, c, k) && Abs(c) < Pow10(prec) && e + k >= Etiny(prec)
  }

  /** Rounding keeps exactly the totals that can be written so. */
  lemma RoundedIsExactIff(total: int, e: int, prec: nat)
    requires prec >= 1 && total != 0
    ensures RoundedAt(total, e, prec) == total <==> Writable(total, e, prec)
  {
    var n := Abs(total);
    var k := Excess(n, e, prec);
    hide Pow10;
    hide DigitCount;
    hide RoundedUnits;
    if RoundedAt(total, e, prec) == total {
      ExcessBounds(n, e, prec);
      KeptDigitsFit(RoundedUnits(n, k), k, prec, n);
      SignedWrites(total, RoundedUnits(n, k), k);
      assert WrittenIn(total, e, Signed(total, RoundedUnits(n, k)), k, prec);
    }
    if Writable(total, e, prec) {
      var c: int, j: nat :| WrittenIn(total, e, c, j, prec);
      AbsProduct(c, Pow10(j));
      KeptIsMultiple(n, Abs(c), j, e, prec);
      HalfEvenOfNothing(n, k);
    }
  }

  lemma SignedWrites(total: int, q: nat, k: nat)
    requires Abs(total) == q * Pow10(k)
    ensures IsWritten(total, Signed(total, q), k) && Abs(Signed(total, q)) == q
  {
    SignedProduct(q, Pow10(k), total);
  }

  /** A number written with few digits and a large exponent loses nothing. */
  lemma KeptIsMultiple(n: nat, c: nat, j: nat, e: int, prec: nat)
    requires n > 0 && n == c * Pow10(j) && c < Pow10(prec) && e + j >= Etiny(prec)
    ensures var k := Excess(n, e, prec); n == DropDigits(n, k) * Pow10(k)
  {
    hide DigitCount;
    hide DropDigits;
    hide Pow10;
    var k := Excess(n, e, prec);
    PowAdd(prec, j);
    MulLess(c, Pow10(prec), Pow10(j));
    TooManyDigits(n, prec + j);
    PowAdd(j - k, k);
    hide Excess;
    MulAssoc(c, Pow10(j - k), Pow10(k));
    DropMultiple(c * Pow10(j - k), k);
  }

  /** A finished total is exact exactly when it can be written in the context and is not too large. */
  lemma FinishedIsExactIff(total: int, e: int, prec: nat)
    requires prec >= 1
    ensures Yields(Finished(total, e, prec), e, total) <==> Writable(total, e, prec) && !TooLarge(Abs(total), e)
  {
    if total == 0 {
      FinishedReads(total, e, prec);
    } else {
      hide Pow10;
      hide DigitCount;
      hide RoundedUnits;
      hide Excess;
      hide Writable;
      hide Scaled;
      RoundedIsExactIff(total, e, prec);
      if Finished(total, e, prec).Ok? {
        FinishedReads(total, e, prec);
      } else if RoundedAt(total, e, prec) == total {
        ExactKeepsSize(total, e, prec);
      }
    }
  }

  /** Rounding that changes nothing does not change the place of the leading digit. */
  lemma ExactKeepsSize(total: int, e: int, prec: nat)
    requires prec >= 1 && total != 0 && RoundedAt(total, e, prec) == total
    ensures var n := Abs(total);
            var (c, x) := Carried(RoundedUnits(n, Excess(n, e, prec)), e + Excess(n, e, prec), prec);
            TooLarge(c, x) <==> TooLarge(n, e)
  {
    var n := Abs(total);
    var k := Excess(n, e, prec);
    var units := RoundedUnits(n, k);
    hide RoundedUnits;
    hide Excess;
    ExcessBounds(n, e, prec);
    KeptDigitsFit(units, k, prec, n);
    ShiftedDigits(units, k);
  }

  lemma ShiftedDigits(c: nat, k: nat)
    requires c * Pow10(k) > 0
    ensures c > 0 && DigitCount(c * Pow10(k)) == DigitCount(c) + k
  {
    hide *;
    UnscaleSign(c, Pow10(k));
    var d := DigitCount(c);
    PowAdd(d, k);
    PowAdd(d - 1, k);
    MulLess(c, Pow10(d), Pow10(k));
    MulAtLeast(Pow10(d - 1), c, Pow10(k));
    ExactDigitCount(c * Pow10(k), d + k);
  }

  /** A total with room above it for a carry does not overflow. */
  lemma NoOverflow(total: nat, e: int, digits: nat, prec: nat)
    requires prec >= 1 && total < Pow10(digits) && e + digits + prec <= EMAX && e >= Etiny(prec)
    ensures Finished(total, e, prec).Ok?
  {
    if total > 0 {
      TooManyDigits(total, digits);
      CarriedIsShort(RoundedUnits(total, Excess(total, e, prec)), e + Excess(total, e, prec), prec);
    }
    hide Pow10;
    hide DigitCount;
    hide RoundedUnits;
    hide Carried;
  }

  lemma CarriedIsShort(units: nat, e: int, prec: nat)
    requires prec >= 1
    ensures var (c, x) := Carried(units, e, prec); x <= e + 1 && (c != 0 ==> DigitCount(c) <= prec)
  {
    var (c, x) := Carried(units, e, prec);
    Tens(prec);
    if c != 0 {
      TooManyDigits(c, prec);
    }
    hide DigitCount;
  }

  // ---- Addition -----------------------------------------------------------------------------

  /** `left + right` in a context of `prec` digits. */
  function Add(left: Decimal, right: Decimal, prec: nat): Result<Decimal>
    requires prec >= 1
  {
    var m := Min(left.exp, right.exp);
    Finished(Scaled(left, m) + Scaled(right, m), m, prec)
  }

  /** Whether a number can be written in the context does not depend on the units it is counted in. */
  lemma WritableShift(total: int, m: int, e: int, prec: nat)
    requires e <= m
    ensures Writable(total * Pow10(m - e), e, prec) <==> Writable(total, m, prec)
  {
    var d: nat := m - e;
    hide Pow10;
    hide DigitCount;
    UnscaleSign(total, Pow10(d));
    UnscaleSign(-total, Pow10(d));
    NegateProduct(total, Pow10(d));
    if total != 0 && Writable(total, m, prec) {
      var c: int, k: nat :| WrittenIn(total, m, c, k, prec);
      PowAdd(k, d);
      MulAssoc(c, Pow10(k), Pow10(d));
      assert WrittenIn(total * Pow10(d), e, c, k + d, prec);
    }
    if total != 0 && Writable(total * Pow10(d), e, prec) {
      var c: int, k: nat :| WrittenIn(total * Pow10(d), e, c, k, prec);
      UnshiftedWrites(total, m, c, k, d, prec);
    }
  }

  lemma UnshiftedWrites(total: int, m: int, c: int, k: nat, d: nat, prec: nat)
    requires WrittenIn(total * Pow10(d), m - d, c, k, prec)
    ensures exists c', k' :: WrittenIn(total, m, c', k', prec)
  {
    hide Pow10;
    if k >= d {
      PowAdd(k - d, d);
      MulAssoc(c, Pow10(k - d), Pow10(d));
      CancelScale(total, c * Pow10(k - d), Pow10(d));
      assert WrittenIn(total, m, c, k - d, prec);
    } else {
      PowAdd(d - k, k);
      MulAssoc(total, Pow10(d - k), Pow10(k));
      CancelScale(total * Pow10(d - k), c, Pow10(k));
      AbsProduct(total, Pow10(d - k));
      ScaleUp(Abs(total), Pow10(d - k));
      OnePlace(total);
      assert WrittenIn(total, m, total, 0, prec);
    }
  }

  lemma OnePlace(total: int)
    ensures IsWritten(total, total, 0)
  {
    assert Pow10(0) == 1;
  }

  lemma TooLargeShift(n: nat, m: int, e: int)
    requires e <= m
    ensures TooLarge(n * Pow10(m - e), e) <==> TooLarge(n, m)
  {
    UnscaleSign(n, Pow10(m - e));
    if n != 0 {
      ShiftedDigits(n, m - e);
    }
    hide DigitCount;
    hide Pow10;
  }

  /** A sum is exact exactly when, in any common units, it can be written in the context and is not too large. */
  lemma SumIsExactIff(left: Decimal, right: Decimal, prec: nat, e: int)
    requires prec >= 1 && e <= left.exp && e <= right.exp
    ensures var total := Scaled(left, e) + Scaled(right, e);
            Yields(Add(left, right, prec), e, total) <==> Writable(total, e, prec) && !TooLarge(Abs(total), e)
  {
    hide Pow10;
    hide DigitCount;
    hide Scaled;
    hide Finished;
    hide Writable;
    hide TooLarge;
    var m := Min(left.exp, right.exp);
    var total := Scaled(left, m) + Scaled(right, m);
    FinishedIsExactIff(total, m, prec);
    SumShift(left, right, m, e);
    WritableShift(total, m, e, prec);
    AbsProduct(total, Pow10(m - e));
    TooLargeShift(Abs(total), m, e);
    if Finished(total, m, prec).Ok? {
      FinishedReads(total, m, prec);
    }
    SumReads(left, right, Add(left, right, prec), m, e);
  }

  lemma SumReads(left: Decimal, right: Decimal, r: Result<Decimal>, m: int, e: int)
    requires e <= m <= left.exp && m <= right.exp && (r.Ok? ==> Fits(r.value, m))
    ensures Yields(r, e, Scaled(left, e) + Scaled(right, e)) <==> Yields(r, m, Scaled(left, m) + Scaled(right, m))
  {
    if r.Ok? {
      SumAtScales(left, right, r.value, m, e);
    }
  }

  /** Whether one number is the sum of two others can be read at any scale. */
  lemma SumAtScales(left: Decimal, right: Decimal, sum: Decimal, m: int, e: int)
    requires e <= m && m <= left.exp && m <= right.exp && (m <= sum.exp || sum.coeff == 0)
    ensures Scaled(sum, e) == Scaled(left, e) + Scaled(right, e) <==>
            Scaled(sum, m) == Scaled(left, m) + Scaled(right, m)
  {
    ScaledShift(left, m, e);
    ScaledShift(right, m, e);
    ScaledShift(sum, m, e);
    var x, y, z, p := Scaled(left, m), Scaled(right, m), Scaled(sum, m), Pow10(m - e);
    hide *;
    Distribute(x, y, p);
    CancelScale(z, x + y, p);
  }

  lemma UnscaleSign(x: int, p: nat)
    requires p >= 1
    ensures x * p >= 0 <==> x >= 0
    ensures x * p > 0 <==> x > 0
  {
    if x < 0 {
      MulLess(x, 0, p);
    } else if x > 0 {
      MulLess(0, x, p);
    }
  }

  // ---- `_add_reward_quantity` ---------------------------------------------------------------

  /** `Decimal.adjusted()`: the exponent of the most significant digit. */
  function Adjusted(d: Decimal): int {
    d.exp + DigitCount(Abs(d.coeff)) - 1
  }

  /** Digit positions from the highest leading digit to the lowest exponent, over the nonzero operands. */
  function DigitSpan(left: Decimal, right: Decimal): int {
    if left.coeff == 0 then (if right.coeff == 0 then 0 else Adjusted(right) - right.exp + 1)
    else if right.coeff == 0 then Adjusted(left) - left.exp + 1
    else Max(Adjusted(left), Adjusted(right)) - Min(left.exp, right.exp) + 1
  }

  /** `_reward_sum_prec` for two operands. */
  function RewardSumPrec(left: Decimal, right: Decimal): (p: nat)
    ensures 50 <= p <= 1000
  {
    if left.coeff == 0 && right.coeff == 0 then 50
    else Max(50, Min(DigitSpan(left, right) + 8, 1000))
  }

  /** The least exponent that every context it chooses can keep, that of 50 digits. */
  const LEAST: int := -1_000_048

  function AddRewardQuantity(left: Decimal, right: Decimal): Result<Decimal> {
    Add(left, right, RewardSumPrec(left, right))
  }

  /**
  The sum is exact exactly when, in any common units, it can be written with the digits chosen and no
  exponent below the least one, and is not too large.
  */
  lemma AddIsExactIff(left: Decimal, right: Decimal, e: int)
    requires e <= left.exp && e <= right.exp
    ensures var total := Scaled(left, e) + Scaled(right, e);
            Yields(AddRewardQuantity(left, right), e, total)
            <==> Writable(total, e, RewardSumPrec(left, right)) && !TooLarge(Abs(total), e)
  {
    SumIsExactIff(left, right, RewardSumPrec(left, right), e);
  }

  lemma ShortIsWritable(total: int, e: int, prec: nat)
    requires Abs(total) < Pow10(prec) && e >= Etiny(prec)
    ensures Writable(total, e, prec)
  {
    hide Pow10;
    OnePlace(total);
    assert WrittenIn(total, e, total, 0, prec);
  }

  /** A number below 10^digits in units of 10^e has its leading digit below 10^(e + digits). */
  lemma ShortIsNotTooLarge(total: int, e: int, digits: nat)
    requires Abs(total) < Pow10(digits) && e + digits - 1 <= EMAX
    ensures !TooLarge(Abs(total), e)
  {
    if total != 0 {
      TooManyDigits(Abs(total), digits);
    }
    hide Pow10;
    hide DigitCount;
  }

  /** An operand read at the low end of a span has no more digits than the span. */
  lemma OperandFitsSpan(d: Decimal, e: int, span: nat)
    requires d.coeff != 0 && e <= d.exp && Adjusted(d) - e + 1 <= span
    ensures Abs(Scaled(d, e)) < Pow10(span)
  {
    var n, k := Abs(d.coeff), d.exp - e;
    PowAdd(DigitCount(n), k);
    MulLess(n, Pow10(DigitCount(n)), Pow10(k));
    AbsProduct(d.coeff, Pow10(k));
    PowMonotone(DigitCount(n) + k, span);
  }

  lemma SpanOfOne(d: Decimal)
    ensures Adjusted(d) - d.exp + 1 == DigitCount(Abs(d.coeff))
  {
    hide DigitCount;
  }

  /** Beside a zero the sum is the other operand, whatever exponent the zero carries. */
  lemma SingleIsWritable(d: Decimal, e: int, prec: nat)
    requires d.coeff != 0 && e <= d.exp && DigitCount(Abs(d.coeff)) <= prec && d.exp >= Etiny(prec)
    ensures Writable(Scaled(d, e), e, prec)
  {
    PowMonotone(DigitCount(Abs(d.coeff)), prec);
    hide DigitCount;
    hide Pow10;
    assert WrittenIn(Scaled(d, e), e, d.coeff, d.exp - e, prec);
  }

  /** The operands leave room for a carry below Emax, and for their digits above the least exponent. */
  predicate InLimits(d: Decimal) {
    d.exp >= LEAST && (d.coeff != 0 ==> Adjusted(d) < EMAX)
  }

  /** Within the limits of exponents it never rounds when the operands span at most 999 digit positions. */
  lemma AddRewardIsExact(left: Decimal, right: Decimal, e: int)
    requires DigitSpan(left, right) <= 999 && InLimits(left) && InLimits(right)
    requires e <= left.exp && e <= right.exp
    ensures Yields(AddRewardQuantity(left, right), e, Scaled(left, e) + Scaled(right, e))
  {
    hide Pow10;
    hide DigitCount;
    hide Scaled;
    hide Adjusted;
    hide Writable;
    hide TooLarge;
    hide Yields;
    hide AddRewardQuantity;
    var m, p := Min(left.exp, right.exp), RewardSumPrec(left, right);
    AddIsExactIff(left, right, m);
    SpanOfOne(left);
    SpanOfOne(right);
    ReadZero(left, m);
    ReadZero(right, m);
    if left.coeff == 0 && right.coeff == 0 {
      ZeroIsKept(m, p);
    } else if left.coeff == 0 {
      SingleIsWritable(right, m, p);
      SingleFits(right, m);
    } else if right.coeff == 0 {
      SingleIsWritable(left, m, p);
      SingleFits(left, m);
    } else {
      TwoFit(left, right, m, p);
    }
    RewardReads(left, right, m, e);
  }

  lemma RewardReads(left: Decimal, right: Decimal, m: int, e: int)
    requires e <= m == Min(left.exp, right.exp)
    requires Yields(AddRewardQuantity(left, right), m, Scaled(left, m) + Scaled(right, m))
    ensures Yields(AddRewardQuantity(left, right), e, Scaled(left, e) + Scaled(right, e))
  {
    hide Scaled;
    hide AddRewardQuantity;
    SumReads(left, right, AddRewardQuantity(left, right), m, e);
  }

  lemma ReadZero(d: Decimal, e: int)
    requires e <= d.exp
    ensures d.coeff == 0 ==> Scaled(d, e) == 0
  {
    hide Pow10;
  }

  lemma ZeroIsKept(e: int, prec: nat)
    ensures Writable(0, e, prec) && !TooLarge(0, e)
  {
  }

  lemma SingleFits(d: Decimal, e: int)
    requires d.coeff != 0 && e <= d.exp && Adjusted(d) <= EMAX
    ensures !TooLarge(Abs(Scaled(d, e)), e)
  {
    ScaledIsProduct(d, e);
    AbsProduct(d.coeff, Pow10(d.exp - e));
    hide Pow10;
    hide DigitCount;
    hide Scaled;
    TooLargeShift(Abs(d.coeff), d.exp, e);
  }

  lemma TwoFit(left: Decimal, right: Decimal, e: int, prec: nat)
    requires left.coeff != 0 && right.coeff != 0 && e == Min(left.exp, right.exp) && e >= Etiny(prec)
    requires DigitSpan(left, right) + 1 <= prec && Adjusted(left) < EMAX && Adjusted(right) < EMAX
    ensures var total := Scaled(left, e) + Scaled(right, e); Writable(total, e, prec) && !TooLarge(Abs(total), e)
  {
    hide Scaled;
    hide DigitCount;
    var span := DigitSpan(left, right);
    var total := Scaled(left, e) + Scaled(right, e);
    OperandFitsSpan(left, e, span);
    OperandFitsSpan(right, e, span);
    Tens(span + 1);
    PowMonotone(span + 1, prec);
    hide Pow10;
    ShortIsWritable(total, e, prec);
    ShortIsNotTooLarge(total, e, span + 1);
  }

  // ---- Quantities read on a grid ------------------------------------------------------------

  /** The largest precision a sum of quantities gets: 1000. */
  predicate IsCap(digits: nat) {
    999 < digits < 1001
  }

  lemma QuantityIsPositive(d: Decimal, e: int)
    requires d.coeff >= 0 && e <= d.exp
    ensures Scaled(d, e) >= d.coeff
  {
    if d.coeff != 0 {
      ScaleUp(d.coeff, Pow10(d.exp - e));
    }
  }

  /** A quantity below 10^digits at scale e has its leading digit within that many positions of e. */
  lemma QuantitySpan(d: Decimal, e: int, digits: nat, rest: nat)
    requires d.coeff > 0 && e <= d.exp && Scaled(d, e) + rest < Pow10(digits)
    ensures Adjusted(d) - e + 1 <= digits
  {
    var lead: nat := DigitCount(d.coeff) - 1;
    PowAdd(lead, d.exp - e);
    MulAtLeast(Pow10(lead), d.coeff, Pow10(d.exp - e));
    if digits <= lead + (d.exp - e) {
      PowMonotone(digits, lead + (d.exp - e));
      assert false;
    }
  }

  /** A sum of quantities of at most 1000 digits, on a grid within the limits, can be written. */
  lemma QuantitiesFit(left: Decimal, right: Decimal, e: int, digits: nat)
    requires left.coeff >= 0 && right.coeff >= 0 && LEAST <= e <= 0 && e <= left.exp && e <= right.exp
    requires IsCap(digits) && 0 <= Scaled(left, e) && 0 <= Scaled(right, e)
             && Scaled(left, e) + Scaled(right, e) < Pow10(digits)
    ensures Writable(Scaled(left, e) + Scaled(right, e), e, RewardSumPrec(left, right))
  {
    hide Pow10;
    hide Scaled;
    hide DigitCount;
    hide Writable;
    hide Adjusted;
    var p := RewardSumPrec(left, right);
    SpanOfOne(left);
    SpanOfOne(right);
    ReadZero(left, e);
    ReadZero(right, e);
    if left.coeff != 0 {
      QuantitySpan(left, e, digits, Scaled(right, e));
    }
    if right.coeff != 0 {
      QuantitySpan(right, e, digits, Scaled(left, e));
    }
    if left.coeff == 0 && right.coeff == 0 {
      ZeroIsKept(e, p);
    } else if left.coeff == 0 {
      SingleIsWritable(right, e, p);
    } else if right.coeff == 0 {
      SingleIsWritable(left, e, p);
    } else {
      BothFit(left, right, e, p, digits);
    }
  }

  /** Both operands count: either the digits chosen exceed the span, or they are all there are. */
  lemma BothFit(left: Decimal, right: Decimal, e: int, p: nat, digits: nat)
    requires left.coeff > 0 && right.coeff > 0 && LEAST <= e && e <= left.exp && e <= right.exp
    requires IsCap(digits) && p == RewardSumPrec(left, right) && DigitSpan(left, right) <= digits
    requires 0 <= Scaled(left, e) && 0 <= Scaled(right, e) && Scaled(left, e) + Scaled(right, e) < Pow10(digits)
    ensures Writable(Scaled(left, e) + Scaled(right, e), e, p)
  {
    hide DigitCount;
    hide Scaled;
    hide Writable;
    hide Pow10;
    var m := Min(left.exp, right.exp);
    var total := Scaled(left, m) + Scaled(right, m);
    SumShrinks(left, right, e, m);
    if DigitSpan(left, right) < digits {
      OperandFitsSpan(left, m, DigitSpan(left, right));
      OperandFitsSpan(right, m, DigitSpan(left, right));
      Tens(DigitSpan(left, right) + 1);
      PowMonotone(DigitSpan(left, right) + 1, p);
    }
    ShortIsWritable(total, m, p);
    SumShift(left, right, m, e);
    WritableShift(total, m, e, p);
  }

  lemma SumShift(left: Decimal, right: Decimal, m: int, e: int)
    requires e <= m <= left.exp && m <= right.exp
    ensures Scaled(left, e) + Scaled(right, e) == (Scaled(left, m) + Scaled(right, m)) * Pow10(m - e)
  {
    hide *;
    ScaledShift(left, m, e);
    ScaledShift(right, m, e);
    Distribute(Scaled(left, m), Scaled(right, m), Pow10(m - e));
  }

  /** Read at a coarser scale, a sum of quantities is no larger. */
  lemma SumShrinks(left: Decimal, right: Decimal, e: int, m: int)
    requires left.coeff >= 0 && right.coeff >= 0 && e <= m <= left.exp && m <= right.exp
    ensures 0 <= Scaled(left, m) + Scaled(right, m) <= Scaled(left, e) + Scaled(right, e)
    ensures 0 <= Scaled(left, e) && 0 <= Scaled(right, e)
  {
    QuantityIsPositive(left, m);
    QuantityIsPositive(right, m);
    ScaledShift(left, m, e);
    ScaledShift(right, m, e);
    ScaleUp(Scaled(left, m), Pow10(m - e));
    ScaleUp(Scaled(right, m), Pow10(m - e));
  }

  /** Below 10^1000 units of a grid no sum of quantities on that grid is rounded. */
  ghost predicate BelowCap(x: int) {
    exists digits: nat :: IsCap(digits) && x < Pow10(digits)
  }

  lemma CapIsMonotone(x: int, y: int)
    requires x <= y && BelowCap(y)
    ensures BelowCap(x)
  {
    hide Pow10;
    hide IsCap;
  }

  /**
  On a grid no finer than 10^LEAST and no coarser than 1, quantities that together stay below 10^1000 units
  are added exactly.
  */
  lemma AddQuantity(left: Decimal, right: Decimal, e: int)
    requires left.coeff >= 0 && right.coeff >= 0 && LEAST <= e <= 0 && e <= left.exp && e <= right.exp
    requires BelowCap(Scaled(left, e) + Scaled(right, e))
    ensures Yields(AddRewardQuantity(left, right), e, Scaled(left, e) + Scaled(right, e))
  {
    hide Pow10;
    hide AddRewardQuantity;
    hide Scaled;
    hide IsCap;
    hide Writable;
    hide TooLarge;
    hide Yields;
    var digits: nat :| IsCap(digits) && Scaled(left, e) + Scaled(right, e) < Pow10(digits);
    SignAt(left, e);
    SignAt(right, e);
    QuantitiesFit(left, right, e, digits);
    CapIsSmall(digits, e);
    ShortIsNotTooLarge(Scaled(left, e) + Scaled(right, e), e, digits);
    AddIsExactIff(left, right, e);
  }

  lemma CapIsSmall(digits: nat, e: int)
    requires IsCap(digits) && e <= 0
    ensures e + digits - 1 <= EMAX
  {
  }

  /** A smaller quantity is taken away exactly, as long as what remains can be printed. */
  lemma SubtractQuantity(left: Decimal, right: Decimal, e: int, limit: nat)
    requires e <= left.exp && e <= right.exp && e <= 0
    requires 0 <= Scaled(left, e) - Scaled(right, e) && Printable(Scaled(left, e) - Scaled(right, e), limit)
    ensures var r := SubtractLifecycleQuantity(left, right, limit);
            r.Ok? && r.value.exp >= e && Scaled(r.value, e) == Scaled(left, e) - Scaled(right, e)
  {
    hide Scaled;
    hide SubtractLifecycleQuantity;
    hide Pow10;
    var m := Min(left.exp, right.exp);
    SubtractIsExact(left, right, limit, e);
    ScaledShift(left, m, e);
    ScaledShift(right, m, e);
    SmallerUnscaled(Scaled(left, m), Scaled(right, m), Pow10(m - e));
  }

  lemma SmallerUnscaled(x: int, y: int, p: nat)
    requires p >= 1 && x * p - y * p >= 0
    ensures 0 <= x - y <= x * p - y * p
  {
    Distribute(x, y, p);
    UnscaleSign(x - y, p);
    ScaleUp(x - y, p);
  }

  /** `left < right` */
  predicate Less(left: Decimal, right: Decimal) {
    var e := Min(left.exp, right.exp);
    Scaled(left, e) < Scaled(right, e)
  }

  lemma LessAt(left: Decimal, right: Decimal, e: int)
    requires e <= left.exp && e <= right.exp
    ensures Less(left, right) <==> Scaled(left, e) < Scaled(right, e)
  {
    var m := Min(left.exp, right.exp);
    ScaledShift(left, m, e);
    ScaledShift(right, m, e);
    var x, y, p := Scaled(left, m), Scaled(right, m), Pow10(m - e);
    hide *;
    if x < y {
      MulLess(x, y, p);
    } else {
      MulAtLeast(y, x, p);
    }
  }

  lemma SignAt(d: Decimal, e: int)
    requires e <= d.exp
    ensures Scaled(d, e) >= 0 <==> d.coeff >= 0
    ensures Scaled(d, e) > 0 <==> d.coeff > 0
  {
    UnscaleSign(d.coeff, Pow10(d.exp - e));
  }

  // ---- Sums accumulated in one context ------------------------------------------------------

  const ZERO: Decimal := Decimal(0, 0)

  /** A total accumulated value by value; an overflow refuses the whole. */
  function Accumulate(values: seq<Decimal>, prec: nat): Result<Decimal>
    requires prec >= 1
  {
    if values == [] then Ok(ZERO)
    else
      match Accumulate(values[..|values| - 1], prec)
      case Err(code) => Err(code)
      case Ok(sum) => Add(sum, values[|values| - 1], prec)
  }

  /** Every total on the way is exact. */
  predicate ExactSums(values: seq<Decimal>, prec: nat, e: int)
    requires prec >= 1 && AtScale(values, e)
  {
    forall n :: 0 <= n <= |values| ==> Yields(Accumulate(values[..n], prec), e, SumScaled(values[..n], e))
  }

  /** Every total on the way can be written in the context and is not too large. */
  ghost predicate WritableSums(values: seq<Decimal>, prec: nat, e: int)
    requires AtScale(values, e)
  {
    forall n :: 0 <= n <= |values| ==> FitsContext(SumScaled(values[..n], e), e, prec)
  }

  ghost predicate FitsContext(total: int, e: int, prec: nat) {
    Writable(total, e, prec) && !TooLarge(Abs(total), e)
  }

  lemma NextSum(values: seq<Decimal>, n: nat, prec: nat, e: int)
    requires prec >= 1 && e <= 0 && AtScale(values, e) && n < |values|
    requires Yields(Accumulate(values[..n], prec), e, SumScaled(values[..n], e))
    ensures Yields(Accumulate(values[..n + 1], prec), e, SumScaled(values[..n + 1], e))
            <==> FitsContext(SumScaled(values[..n + 1], e), e, prec)
  {
    hide Scaled;
    hide Add;
    hide Writable;
    hide TooLarge;
    assert values[..n + 1][..n] == values[..n];
    SumIsExactIff(Accumulate(values[..n], prec).value, values[n], prec, e);
  }

  lemma NothingSummed(values: seq<Decimal>, prec: nat, e: int)
    requires prec >= 1 && e <= 0 && AtScale(values, e)
    ensures Yields(Accumulate(values[..0], prec), e, SumScaled(values[..0], e))
    ensures FitsContext(SumScaled(values[..0], e), e, prec)
  {
    assert values[..0] == [];
    hide Pow10;
  }

  /** Accumulation is exact throughout exactly when the context can hold every total on the way. */
  lemma SumsAreExactIff(values: seq<Decimal>, prec: nat, e: int)
    requires prec >= 1 && e <= 0 && AtScale(values, e)
    ensures ExactSums(values, prec, e) <==> WritableSums(values, prec, e)
  {
    hide Accumulate;
    hide SumScaled;
    hide FitsContext;
    hide Yields;
    NothingSummed(values, prec, e);
    if ExactSums(values, prec, e) {
      forall n | 0 < n <= |values| ensures FitsContext(SumScaled(values[..n], e), e, prec) {
        NextSum(values, n - 1, prec, e);
      }
    }
    if WritableSums(values, prec, e) {
      forall n | 0 <= n <= |values| ensures Yields(Accumulate(values[..n], prec), e, SumScaled(values[..n], e)) {
        WritableIsExact(values, n, prec, e);
      }
    }
  }

  lemma {:induction false} WritableIsExact(values: seq<Decimal>, n: nat, prec: nat, e: int)
    requires prec >= 1 && e <= 0 && AtScale(values, e) && WritableSums(values, prec, e) && n <= |values|
    ensures Yields(Accumulate(values[..n], prec), e, SumScaled(values[..n], e))
  {
    hide Accumulate;
    hide SumScaled;
    hide FitsContext;
    hide Yields;
    NothingSummed(values, prec, e);
    if n > 0 {
      WritableIsExact(values, n - 1, prec, e);
      NextSum(values, n - 1, prec, e);
    }
  }

  predicate Quantities(values: seq<Decimal>) {
    forall k :: 0 <= k < |values| ==> values[k].coeff >= 0
  }

  lemma {:induction false} PartIsLess(values: seq<Decimal>, n: nat, e: int)
    requires AtScale(values, e) && Quantities(values) && n <= |values|
    ensures 0 <= SumScaled(values[..n], e) <= SumScaled(values, e)
    decreases |values|
  {
    hide Scaled;
    if n == |values| {
      assert values[..n] == values;
    }
    if values != [] {
      var m := |values| - 1;
      SignAt(values[m], e);
      PartIsLess(values[..m], if n < m then n else m, e);
      if n <= m {
        assert values[..m][..n] == values[..n];
      } else {
        assert values[..m][..m] == values[..m];
      }
    }
  }

  /**
  What a caller can check beforehand: quantities no finer than the least exponent that together stay below
  10^prec units of their grid.
  */
  lemma ShortSumsAreExact(values: seq<Decimal>, prec: nat, e: int)
    requires 1 <= prec <= EMAX && Etiny(prec) <= e <= 0 && AtScale(values, e) && Quantities(values)
    requires SumScaled(values, e) < Pow10(prec)
    ensures ExactSums(values, prec, e)
  {
    hide Pow10;
    hide SumScaled;
    hide Writable;
    hide TooLarge;
    hide ExactSums;
    forall n | 0 <= n <= |values| ensures FitsContext(SumScaled(values[..n], e), e, prec) {
      PartIsLess(values, n, e);
      ShortIsWritable(SumScaled(values[..n], e), e, prec);
      ShortIsNotTooLarge(SumScaled(values[..n], e), e, prec);
    }
    hide FitsContext;
    SumsAreExactIff(values, prec, e);
  }

  // ---- Where it rounds ----------------------------------------------------------------------

  /** One position more is too many: (10^1000 - 1) + 9 spans 1000 positions and is rounded. */
  lemma SpanOfThousandCanRound(n: nat)
    requires IsCap(n)
    ensures var left, right := Decimal(Pow10(n) - 1, 0), Decimal(9, 0);
            DigitSpan(left, right) == 1000 && !Yields(AddRewardQuantity(left, right), 0, left.coeff + right.coeff)
  {
    hide *;
    var left, right := Decimal(Pow10(n) - 1, 0), Decimal(9, 0);
    ThousandSpan(left, right, n);
    Tens(n);
    ReadBack(left);
    ReadBack(right);
    AddIsExactIff(left, right, 0);
    NotWritable(left.coeff + right.coeff, 0, n);
  }

  lemma ThousandSpan(left: Decimal, right: Decimal, n: nat)
    requires IsCap(n) && left == Decimal(Pow10(n) - 1, 0) && right == Decimal(9, 0)
    ensures DigitSpan(left, right) == 1000 && RewardSumPrec(left, right) == n && n >= 1
  {
    NineIsOneDigit();
    hide Pow10;
    hide DigitCount;
    Tens(n);
    ExactDigitCount(left.coeff, n);
  }

  lemma NineIsOneDigit()
    ensures DigitCount(9) == 1
  {
  }

  /** A long number that does not end in zero cannot be written with fewer digits. */
  lemma NotWritable(total: nat, e: int, prec: nat)
    requires total >= Pow10(prec) && total % 10 != 0
    ensures !Writable(total, e, prec)
  {
    hide Pow10;
    hide DigitCount;
    if Writable(total, e, prec) {
      var c: int, k: nat :| WrittenIn(total, e, c, k, prec);
      assert Representable(total, prec);
      WrittenIsShortOrTens(total, prec);
    }
  }

  /** One place below the least exponent: what a context of 50 digits makes of few units of it. */
  lemma BelowLeast(total: nat, digits: nat)
    requires 0 < total < 100 && digits == 50
    ensures Finished(total, LEAST - 1, digits) == Ok(Decimal(HalfEven(total / 10, total % 10, 10), LEAST))
  {
    hide *;
    FewDigits(total, digits);
    UnitsOfTen(total);
    OneExcess(total, digits);
    LeastIs();
    FinishedSmall(total, LEAST - 1, digits, HalfEven(total / 10, total % 10, 10));
  }

  lemma LeastIs()
    ensures LEAST - 1 + 1 == LEAST && LEAST <= 0
  {
  }

  lemma UnitsOfTen(n: nat)
    requires n < 100
    ensures RoundedUnits(n, 1) == HalfEven(n / 10, n % 10, 10) <= 10
  {
    DropLast(n);
  }

  lemma OneExcess(n: nat, digits: nat)
    requires DigitCount(n) <= 2 && digits == 50
    ensures Excess(n, LEAST - 1, digits) == 1
  {
    hide DigitCount;
  }

  /** A small total of which one digit is given up. */
  lemma FinishedSmall(total: nat, e: int, prec: nat, units: nat)
    requires prec >= 1 && total > 0 && Excess(total, e, prec) == 1
             && RoundedUnits(total, 1) == units <= 10 < Pow10(prec)
    requires DigitCount(total) <= 2 && e <= 0
    ensures Finished(total, e, prec) == Ok(Decimal(units, e + 1))
  {
    hide Excess;
    hide RoundedUnits;
    OneOrTwoDigits(units);
    hide Pow10;
    hide DigitCount;
  }

  lemma OneOrTwoDigits(units: nat)
    requires units <= 10
    ensures DigitCount(units) <= 2
  {
    hide Pow10;
  }

  lemma FewDigits(n: nat, digits: nat)
    requires n < 100 && digits == 50
    ensures DigitCount(n) <= 2 && n < Pow10(digits) && 11 < Pow10(digits)
  {
    assert Pow10(1) == 10 * Pow10(0) && Pow10(2) == 10 * Pow10(1);
    if n > 0 {
      TooManyDigits(n, 2);
    }
    PowMonotone(2, digits);
    hide Pow10;
  }

  /** Although it stands alone, 9E-1000049 is rounded, to 1E-1000048. */
  lemma LeastExponentRounds(digits: nat)
    requires digits == 50
    ensures var d := Decimal(9, LEAST - 1);
            DigitSpan(Decimal(0, 0), d) == 1 && AddRewardQuantity(Decimal(0, 0), d) == Ok(Decimal(1, LEAST))
  {
    var d := Decimal(9, LEAST - 1);
    assert DigitCount(9) == 1;
    ReadBack(d);
    ReadZero(Decimal(0, 0), LEAST - 1);
    BelowLeast(9, digits);
    hide Pow10;
    hide DigitCount;
    hide Scaled;
    hide Finished;
    assert RewardSumPrec(Decimal(0, 0), d) == digits;
  }
}

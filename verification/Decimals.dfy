/**
Python's finite `decimal.Decimal` as a coefficient and an exponent, and the helpers of
application/broker_reconciliation.py and application/rebased_recovery.py that promise exact
arithmetic on them: scaled integer subtraction and summation, and context addition whose precision
is chosen from the operands.
*/
module Decimals {
  import opened Outcomes

  /** The number coeff * 10^exp. */
  datatype Decimal = Decimal(coeff: int, exp: int)

  function Abs(x: int): (a: nat) {
    if x < 0 then -x else x
  }

  function Min(a: int, b: int): int {
    if a <= b then a else b
  }

  function Max(a: int, b: int): int {
    if a <= b then b else a
  }

  function Pow10(n: nat): (p: nat)
    ensures p >= 1
  {
    if n == 0 then 1 else 10 * Pow10(n - 1)
  }

  lemma {:induction false} PowAdd(m: nat, n: nat)
    ensures Pow10(m + n) == Pow10(m) * Pow10(n)
  {
    if m > 0 {
      PowAdd(m - 1, n);
      assert Pow10(m + n) == 10 * Pow10(m - 1 + n);
      assert Pow10(m) * Pow10(n) == 10 * (Pow10(m - 1) * Pow10(n)) by {
        MulAssoc(10, Pow10(m - 1), Pow10(n));
      }
    }
  }

  lemma MulAssoc(a: int, b: int, c: int)
    ensures (a * b) * c == a * (b * c)
  {
  }

  lemma PowMonotone(m: nat, n: nat)
    requires m <= n
    ensures Pow10(m) <= Pow10(n)
  {
    PowAdd(m, n - m);
    ScaleUp(Pow10(m), Pow10(n - m));
  }

  lemma ScaleUp(a: nat, b: nat)
    requires b >= 1
    ensures a <= a * b
  {
  }

  /** Number of decimal digits Python stores for the coefficient n; zero has one digit. */
  function DigitCount(n: nat): (d: nat)
    ensures d >= 1 && n < Pow10(d)
    ensures n > 0 ==> Pow10(d - 1) <= n
  {
    if n < 10 then
      assert Pow10(1) == 10 * Pow10(0);
      1
    else
      var d := DigitCount(n / 10);
      assert Pow10(d + 1) == 10 * Pow10(d);
      assert Pow10(d) == 10 * Pow10(d - 1);
      d + 1
  }

  /** The integer d / 10^e, for a scale e at or below the exponent of d; zero fits every scale. */
  function Scaled(d: Decimal, e: int): int
    requires e <= d.exp || d.coeff == 0
  {
    if d.coeff == 0 then 0 else d.coeff * Pow10(d.exp - e)
  }

  lemma ScaledShift(d: Decimal, e: int, lower: int)
    requires lower <= e && (e <= d.exp || d.coeff == 0)
    ensures Scaled(d, lower) == Scaled(d, e) * Pow10(e - lower)
  {
    if d.coeff != 0 {
      PowAdd(d.exp - e, e - lower);
      MulAssoc(d.coeff, Pow10(d.exp - e), Pow10(e - lower));
    }
  }

  /** Equality of the numbers, whatever their representation (1.0 and 1.00 are the same value). */
  predicate SameValue(a: Decimal, b: Decimal) {
    var e := Min(a.exp, b.exp);
    Scaled(a, e) == Scaled(b, e)
  }

  lemma SameValueAt(a: Decimal, b: Decimal, e: int)
    requires e <= a.exp && e <= b.exp
    ensures SameValue(a, b) <==> Scaled(a, e) == Scaled(b, e)
  {
    var m := Min(a.exp, b.exp);
    ScaledShift(a, m, e);
    ScaledShift(b, m, e);
    CancelScale(Scaled(a, m), Scaled(b, m), Pow10(m - e));
  }

  lemma CancelScale(x: int, y: int, p: nat)
    requires p >= 1
    ensures x * p == y * p <==> x == y
  {
    if x < y {
      MulLess(x, y, p);
    } else if y < x {
      MulLess(y, x, p);
    }
  }

  lemma MulLess(a: int, b: int, p: nat)
    requires a < b && p >= 1
    ensures a * p < b * p
  {
  }

  // ---- Exact difference and exact sum -------------------------------------------------------

  /** `str` accepts the integer. */
  predicate Printable(total: int, limit: nat) {
    limit == 0 || Abs(total) < Pow10(limit)
  }

  /**
  The last step of both exact helpers: zero becomes Decimal(0); otherwise the digits of the total are
  produced by `str`, which CPython refuses for an integer of more than `limit` digits (4300 unless the
  interpreter is configured otherwise; 0 stands for no limit).
  */
  function FromTotal(total: int, e: int, limit: nat): (r: Result<Decimal>)
    ensures r.Ok? <==> Printable(total, limit)
    ensures r.Ok? ==> r.value.coeff == total && (total != 0 ==> r.value.exp == e) && (total == 0 ==> r.value.exp == 0)
  {
    if total == 0 then Ok(Decimal(0, 0))
    else if !Printable(total, limit) then Err("int_digits_limit")
    else Ok(Decimal(total, e))
  }

  function SubtractLifecycleQuantity(left: Decimal, right: Decimal, limit: nat): (r: Result<Decimal>)
  {
    var e := Min(left.exp, right.exp);
    FromTotal(left.coeff * Pow10(left.exp - e) - right.coeff * Pow10(right.exp - e), e, limit)
  }

  lemma ReadBack(d: Decimal)
    ensures Scaled(d, d.exp) == d.coeff
  {
    assert Pow10(0) == 1;
  }

  lemma ScaledIsProduct(d: Decimal, e: int)
    requires e <= d.exp
    ensures Scaled(d, e) == d.coeff * Pow10(d.exp - e)
  {
  }

  /** The difference of two numbers, read at any common scale, is the difference of the readings. */
  lemma SubtractIsExact(left: Decimal, right: Decimal, limit: nat, e: int)
    requires e <= left.exp && e <= right.exp && e <= 0
    ensures var m := Min(left.exp, right.exp);
            var r := SubtractLifecycleQuantity(left, right, limit);
            && (r.Ok? <==> Printable(Scaled(left, m) - Scaled(right, m), limit))
            && (r.Ok? ==> e <= r.value.exp && Scaled(r.value, e) == Scaled(left, e) - Scaled(right, e))
  {
    var m := Min(left.exp, right.exp);
    ScaledIsProduct(left, m);
    ScaledIsProduct(right, m);
    ScaledShift(left, m, e);
    ScaledShift(right, m, e);
    var total := Scaled(left, m) - Scaled(right, m);
    var r := SubtractLifecycleQuantity(left, right, limit);
    if r.Ok? && total != 0 {
      ReadBack(r.value);
      ScaledShift(r.value, m, e);
      Distribute(Scaled(left, m), Scaled(right, m), Pow10(m - e));
    }
  }

  /** At every limit there is a quantity from which not even zero can be subtracted: 10^limit. */
  lemma SubtractCanFail(limit: nat)
    requires limit > 0
    ensures SubtractLifecycleQuantity(Decimal(1, limit), Decimal(0, 0), limit).Err?
  {
    assert Pow10(0) == 1;
  }

  lemma Distribute(a: int, b: int, p: int)
    ensures (a - b) * p == a * p - b * p
    ensures (a + b) * p == a * p + b * p
  {
  }

  function MinExponent(values: seq<Decimal>): (e: int)
    requires values != []
    ensures forall v :: v in values ==> e <= v.exp
    ensures exists v :: v in values && e == v.exp
  {
    if |values| == 1 then values[0].exp
    else
      var rest := MinExponent(values[1..]);
      assert values == [values[0]] + values[1..];
      Min(values[0].exp, rest)
  }

  predicate AtScale(values: seq<Decimal>, e: int) {
    forall v :: v in values ==> e <= v.exp
  }

  /** The sum of the numbers, read at scale e. */
  function SumScaled(values: seq<Decimal>, e: int): int
    requires AtScale(values, e)
  {
    if values == [] then 0
    else
      var n := |values| - 1;
      SumScaled(values[..n], e) + Scaled(values[n], e)
  }

  lemma {:induction false} SumScaledShift(values: seq<Decimal>, e: int, lower: int)
    requires lower <= e && AtScale(values, e)
    ensures AtScale(values, lower)
    ensures SumScaled(values, lower) == SumScaled(values, e) * Pow10(e - lower)
  {
    if values != [] {
      var n := |values| - 1;
      SumScaledShift(values[..n], e, lower);
      ScaledShift(values[n], e, lower);
      Distribute(SumScaled(values[..n], e), Scaled(values[n], e), Pow10(e - lower));
    }
  }

  /** `_exact_decimal_sum` as a function. */
  function ExactSum(values: seq<Decimal>, limit: nat): Result<Decimal> {
    if values == [] then Ok(Decimal(0, 0))
    else FromTotal(SumScaled(values, MinExponent(values)), MinExponent(values), limit)
  }

  /** `_exact_decimal_sum`: scale every coefficient to the smallest exponent and add integers. */
  method ExactDecimalSum(values: seq<Decimal>, limit: nat) returns (r: Result<Decimal>)
    ensures r == ExactSum(values, limit)
  {
    if values == [] {
      return Ok(Decimal(0, 0));
    }
    var minExp := MinExponent(values);
    var total := 0;
    for i := 0 to |values|
      invariant total == SumScaled(values[..i], minExp)
    {
      total := total + values[i].coeff * Pow10(values[i].exp - minExp);
      assert values[..i + 1][..i] == values[..i];
      ScaledIsProduct(values[i], minExp);
    }
    assert values[..|values|] == values;
    r := FromTotal(total, minExp, limit);
  }

  /**
  It succeeds exactly when the total has at most `limit` digits, and then the result, read at any common
  scale, is the sum of the readings.
  */
  lemma SumIsExact(values: seq<Decimal>, limit: nat, e: int)
    requires values != [] && e <= 0 && AtScale(values, e)
    ensures var r := ExactSum(values, limit);
            && (r.Ok? <==> Printable(SumScaled(values, MinExponent(values)), limit))
            && (r.Ok? ==> (e <= r.value.exp || r.value.coeff == 0) && Scaled(r.value, e) == SumScaled(values, e))
  {
    var r := ExactSum(values, limit);
    if r.Ok? {
      TotalReadsAsSum(values, r.value, e);
    }
  }

  /** At every limit a sum fails: 10^limit alone, or 1E+limit beside a zero. */
  lemma SumCanFail(limit: nat)
    requires limit > 0
    ensures ExactSum([Decimal(Pow10(limit), 0)], limit).Err?
    ensures ExactSum([Decimal(1, limit), Decimal(0, 0)], limit).Err?
  {
    var one, two := [Decimal(Pow10(limit), 0)], [Decimal(1, limit), Decimal(0, 0)];
    assert one[..0] == [] && two[..1] == [two[0]] && two[..1][..0] == [];
    assert MinExponent(one) == 0;
    assert two[1..] == [two[1]] && MinExponent(two[1..]) == 0 && MinExponent(two) == 0;
    ReadBack(one[0]);
    ScaledIsProduct(two[0], 0);
    assert SumScaled(two[..1], 0) == Pow10(limit);
    assert SumScaled(two, 0) == Pow10(limit);
  }

  lemma TotalReadsAsSum(values: seq<Decimal>, total: Decimal, e: int)
    requires values != [] && e <= 0 && AtScale(values, e)
    requires total.coeff == SumScaled(values, MinExponent(values))
    requires total.coeff != 0 ==> total.exp == MinExponent(values)
    ensures e <= total.exp || total.coeff == 0
    ensures Scaled(total, e) == SumScaled(values, e)
  {
    SumScaledShift(values, MinExponent(values), e);
    if total.coeff != 0 {
      ReadBack(total);
      ScaledShift(total, total.exp, e);
    }
  }

  // ---- Context addition ---------------------------------------------------------------------

  /** What remains of n when its k lowest digits are dropped. */
  function DropDigits(n: nat, k: nat): nat {
    if k == 0 then n else DropDigits(n / 10, k - 1)
  }

  lemma {:induction false} DroppedPartIsSmall(n: nat, k: nat)
    ensures DropDigits(n, k) * Pow10(k) <= n < (DropDigits(n, k) + 1) * Pow10(k)
  {
    if k > 0 {
      DroppedPartIsSmall(n / 10, k - 1);
      MulAssocPow(DropDigits(n, k), k);
      MulAssocPow(DropDigits(n, k) + 1, k);
    }
  }

  lemma MulAssocPow(q: nat, k: nat)
    requires k >= 1
    ensures q * Pow10(k) == 10 * (q * Pow10(k - 1))
  {
    MulAssoc(10, q, Pow10(k - 1));
    MulAssoc(q, 10, Pow10(k - 1));
  }

  lemma {:induction false} DropMultiple(q: nat, k: nat)
    ensures DropDigits(q * Pow10(k), k) == q
  {
    if k > 0 {
      MulAssocPow(q, k);
      DropMultiple(q, k - 1);
    }
  }

  /** Half-even choice between the q units below and the q + 1 units above. */
  function HalfEven(q: nat, rest: int, unit: nat): nat {
    if 2 * rest > unit || (2 * rest == unit && q % 2 == 1) then q + 1 else q
  }

  /** n in units of 10^k, rounded half to even. */
  function RoundedUnits(n: nat, k: nat): nat {
    var q := DropDigits(n, k);
    HalfEven(q, n - q * Pow10(k), Pow10(k))
  }

  /** A total under a context of `prec` significant digits, rounded half to even, at the same scale. */
  function RoundTo(total: int, prec: nat): (r: int)
    ensures Abs(total) < Pow10(prec) ==> r == total
  {
    var n := Abs(total);
    if n < Pow10(prec) || DigitCount(n) <= prec then total
    else
      var k := DigitCount(n) - prec;
      var rounded := RoundedUnits(n, k) * Pow10(k);
      if total < 0 then -rounded else rounded
  }

  /** The total can be written with at most `prec` significant digits. */
  ghost predicate Representable(total: int, prec: nat) {
    exists c: int, k: nat :: IsWritten(total, c, k) && Abs(c) < Pow10(prec)
  }

  predicate IsWritten(total: int, c: int, k: nat) {
    total == c * Pow10(k)
  }

  /** A context keeps a total exactly when the total needs no more digits than the context has. */
  lemma RoundingIsExactIff(total: int, prec: nat)
    ensures RoundTo(total, prec) == total <==> Representable(total, prec)
  {
    var n := Abs(total);
    if n < Pow10(prec) {
      assert IsWritten(total, total, 0);
    } else {
      if DigitCount(n) <= prec {
        PowMonotone(DigitCount(n), prec);
        assert false;
      }
      if RoundTo(total, prec) == total {
        ExactIsRepresentable(total, prec);
      }
      if Representable(total, prec) {
        var c: int, k: nat :| IsWritten(total, c, k) && Abs(c) < Pow10(prec);
        AbsProduct(c, Pow10(k));
        RepresentableIsMultiple(n, Abs(c), k, prec);
        HalfEvenOfNothing(n, DigitCount(n) - prec);
      }
    }
  }

  lemma HalfEvenOfNothing(n: nat, k: nat)
    requires n == DropDigits(n, k) * Pow10(k)
    ensures RoundedUnits(n, k) * Pow10(k) == n
  {
    var q := DropDigits(n, k);
    assert n - q * Pow10(k) == 0;
    assert HalfEven(q, 0, Pow10(k)) == q;
  }

  lemma ExactIsRepresentable(total: int, prec: nat)
    requires Abs(total) >= Pow10(prec) && DigitCount(Abs(total)) > prec && RoundTo(total, prec) == total
    ensures Representable(total, prec)
  {
    var n := Abs(total);
    var k := DigitCount(n) - prec;
    var m := RoundedUnits(n, k);
    KeptDigitsFit(m, k, prec, n);
    WriteSigned(total, m, k, prec);
  }

  lemma KeptDigitsFit(q: nat, k: nat, prec: nat, n: nat)
    requires n == q * Pow10(k) && n < Pow10(prec + k)
    ensures q < Pow10(prec)
  {
    PowAdd(prec, k);
    if Pow10(prec) <= q {
      MulAtLeast(Pow10(prec), q, Pow10(k));
    }
  }

  lemma WriteSigned(total: int, q: nat, k: nat, prec: nat)
    requires Abs(total) == q * Pow10(k) && q < Pow10(prec)
    ensures Representable(total, prec)
  {
    var c: int := if total < 0 then 0 - q else q;
    SignedProduct(q, Pow10(k), total);
    assert IsWritten(total, c, k);
  }

  lemma SignedProduct(q: nat, unit: nat, total: int)
    requires Abs(total) == q * unit
    ensures total == (if total < 0 then 0 - q else q) * unit
  {
    NegateProduct(q, unit);
  }

  lemma NegateProduct(a: int, b: int)
    ensures -a * b == -(a * b)
  {
  }

  lemma MulAtLeast(a: int, b: int, p: nat)
    requires a <= b
    ensures a * p <= b * p
  {
  }

  lemma RepresentableIsMultiple(n: nat, c: nat, k: nat, prec: nat)
    requires n == c * Pow10(k) && c < Pow10(prec)
    requires n >= Pow10(prec) && DigitCount(n) > prec
    ensures var excess := DigitCount(n) - prec; n == DropDigits(n, excess) * Pow10(excess)
  {
    var excess := DigitCount(n) - prec;
    if k < excess {
      // n would be below 10^(prec + k), too short for its digits
      PowAdd(prec, k);
      MulLess(c, Pow10(prec), Pow10(k));
      TooManyDigits(n, prec + k);
      assert false;
    }
    hide DigitCount;
    hide Pow10;
    hide DropDigits;
    PowAdd(k - excess, excess);
    MulAssoc(c, Pow10(k - excess), Pow10(excess));
    DropMultiple(c * Pow10(k - excess), excess);
  }

  lemma TooManyDigits(n: nat, d: nat)
    requires n < Pow10(d) && n > 0
    ensures DigitCount(n) <= d
  {
    var lead: nat := DigitCount(n) - 1;
    if d <= lead {
      PowMonotone(d, lead);
    }
  }

  // ---- Running totals -----------------------------------------------------------------------

  /** A total accumulated amount by amount in a context of `prec` digits. */
  function Accumulated(amounts: seq<int>, prec: nat): int {
    if amounts == [] then 0
    else RoundTo(Accumulated(amounts[..|amounts| - 1], prec) + amounts[|amounts| - 1], prec)
  }

  function Total(amounts: seq<int>): int {
    if amounts == [] then 0 else Total(amounts[..|amounts| - 1]) + amounts[|amounts| - 1]
  }

  /** A number that can be written with few digits is small or ends in zero. */
  lemma WrittenIsShortOrTens(total: nat, prec: nat)
    requires Representable(total, prec)
    ensures total < Pow10(prec) || total % 10 == 0
  {
    hide Pow10;
    var c: int, k: nat :| IsWritten(total, c, k) && Abs(c) < Pow10(prec);
    hide IsWritten;
    if k > 0 {
      WrittenInTens(total, c, k);
    } else {
      WrittenAsIs(total, c);
    }
  }

  lemma WrittenInTens(total: nat, c: int, k: nat)
    requires IsWritten(total, c, k) && k > 0
    ensures total % 10 == 0
  {
    var p := Pow10(k - 1);
    assert Pow10(k) == 10 * p;
    ProductWithTen(c, p);
  }

  lemma ProductWithTen(c: int, p: int)
    ensures c * (10 * p) % 10 == 0
  {
    MulAssoc(c, p, 10);
    assert c * (10 * p) == 10 * (c * p);
  }

  lemma WrittenAsIs(total: nat, c: int)
    requires IsWritten(total, c, 0)
    ensures total == c
  {
    assert Pow10(0) == 1;
  }

  /** Every total on the way is exact. */
  predicate ExactThroughout(amounts: seq<int>, prec: nat) {
    forall n :: 0 <= n <= |amounts| ==> Accumulated(amounts[..n], prec) == Total(amounts[..n])
  }

  /** Every total on the way can be written with the digits of the context. */
  ghost predicate WrittenThroughout(amounts: seq<int>, prec: nat) {
    forall n :: 0 <= n <= |amounts| ==> Representable(Total(amounts[..n]), prec)
  }

  lemma OneMore(amounts: seq<int>, n: nat, prec: nat)
    requires n < |amounts|
    ensures Total(amounts[..n + 1]) == Total(amounts[..n]) + amounts[n]
    ensures Accumulated(amounts[..n + 1], prec) == RoundTo(Accumulated(amounts[..n], prec) + amounts[n], prec)
  {
    assert amounts[..n + 1][..n] == amounts[..n];
  }

  /** Accumulation is exact throughout exactly when no total on the way needs more digits than there are. */
  lemma AccumulationIsExactIff(amounts: seq<int>, prec: nat)
    ensures ExactThroughout(amounts, prec) <==> WrittenThroughout(amounts, prec)
  {
    hide RoundTo;
    hide Representable;
    if ExactThroughout(amounts, prec) {
      forall n | 0 <= n <= |amounts| ensures Representable(Total(amounts[..n]), prec) {
        ExactIsWritten(amounts, n, prec);
      }
    }
    if WrittenThroughout(amounts, prec) {
      forall n | 0 <= n <= |amounts| ensures Accumulated(amounts[..n], prec) == Total(amounts[..n]) {
        WrittenIsExact(amounts, n, prec);
      }
    }
  }

  lemma ExactIsWritten(amounts: seq<int>, n: nat, prec: nat)
    requires ExactThroughout(amounts, prec) && n <= |amounts|
    ensures Representable(Total(amounts[..n]), prec)
  {
    hide RoundTo;
    if n == 0 {
      assert amounts[..0] == [];
      assert IsWritten(0, 0, 0);
    } else {
      OneMore(amounts, n - 1, prec);
      RoundingIsExactIff(Total(amounts[..n]), prec);
      hide Representable;
      hide Accumulated;
      hide Total;
      assert Accumulated(amounts[..n], prec) == Total(amounts[..n]);
      assert Accumulated(amounts[..n - 1], prec) == Total(amounts[..n - 1]);
    }
  }

  lemma {:induction false} WrittenIsExact(amounts: seq<int>, n: nat, prec: nat)
    requires WrittenThroughout(amounts, prec) && n <= |amounts|
    ensures Accumulated(amounts[..n], prec) == Total(amounts[..n])
  {
    hide RoundTo;
    hide Representable;
    if n == 0 {
      assert amounts[..0] == [];
    } else {
      WrittenIsExact(amounts, n - 1, prec);
      OneMore(amounts, n - 1, prec);
      RoundingIsExactIff(Total(amounts[..n]), prec);
    }
  }

  /** What a caller can check beforehand: quantities that together stay below 10^prec. */
  lemma {:induction false} ShortTotalIsExact(amounts: seq<int>, prec: nat)
    requires (forall k :: 0 <= k < |amounts| ==> amounts[k] >= 0) && Total(amounts) < Pow10(prec)
    ensures 0 <= Total(amounts) && Accumulated(amounts, prec) == Total(amounts)
  {
    if amounts != [] {
      var n := |amounts| - 1;
      PartIsSmaller(amounts);
      ShortTotalIsExact(amounts[..n], prec);
      ShortIsKept(Total(amounts), prec);
    }
  }

  lemma {:induction false} PartIsSmaller(amounts: seq<int>)
    requires amounts != [] && forall k :: 0 <= k < |amounts| ==> amounts[k] >= 0
    ensures 0 <= Total(amounts[..|amounts| - 1]) <= Total(amounts)
  {
    if |amounts| > 1 {
      PartIsSmaller(amounts[..|amounts| - 1]);
    }
  }

  lemma AbsProduct(a: int, p: nat)
    ensures Abs(a * p) == Abs(a) * p
  {
    if a < 0 {
      NegateProduct(a, p);
    }
  }

  lemma ShortIsKept(total: int, prec: nat)
    requires Abs(total) < Pow10(prec)
    ensures RoundTo(total, prec) == total
  {
  }

  lemma Tens(n: nat)
    requires n >= 1
    ensures Pow10(n) == 10 * Pow10(n - 1) && Pow10(n - 1) >= 1
  {
  }

  lemma DropLast(n: nat)
    ensures Pow10(1) == 10 && DropDigits(n, 1) == n / 10
    ensures n % 10 == 8 ==> RoundedUnits(n, 1) == n / 10 + 1
  {
    assert Pow10(1) == 10 * Pow10(0) == 10;
    assert DropDigits(n / 10, 0) == n / 10;
  }

  lemma ExactDigitCount(n: nat, d: nat)
    requires d >= 1 && Pow10(d - 1) <= n < Pow10(d)
    ensures DigitCount(n) == d
  {
    TooManyDigits(n, d);
    if DigitCount(n) < d {
      PowMonotone(DigitCount(n), d - 1);
      assert false;
    }
  }
}

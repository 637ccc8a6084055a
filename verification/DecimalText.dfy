/**
_decimal_text of application/account_facts.py: the canonical text of a nonnegative decimal. Equal values
print identically, the text fits the wallet grammar, reading it gives the value back, and printing fails
exactly for values of 1e30 and more or finer than 1e-30.
*/
module DecimalText {
  import opened Outcomes
  import opened Decimals

  // ---- Digits ---------------------------------------------------------------------------------

  function Char(d: nat): (c: char)
    requires d < 10
    ensures '0' <= c <= '9' && Digit(c) == d
  {
    '0' + d as char
  }

  function Digit(c: char): int {
    c as int - '0' as int
  }

  predicate IsDigit(c: char) {
    '0' <= c <= '9'
  }

  predicate AllDigits(s: string) {
    forall i :: 0 <= i < |s| ==> IsDigit(s[i])
  }

  /** The decimal digits of n, most significant first. */
  function DigitsOf(n: nat): (s: string)
    ensures |s| >= 1 && AllDigits(s)
  {
    if n < 10 then [Char(n)] else DigitsOf(n / 10) + [Char(n % 10)]
  }

  /** The number a string of digits stands for. */
  function ValueOf(s: string): (n: nat)
    requires AllDigits(s)
  {
    if s == [] then 0 else 10 * ValueOf(s[..|s| - 1]) + Digit(s[|s| - 1])
  }

  lemma {:induction false} DigitsReadBack(n: nat)
    ensures ValueOf(DigitsOf(n)) == n
    ensures |DigitsOf(n)| == DigitCount(n)
    ensures n > 0 ==> DigitsOf(n)[0] != '0'
  {
    if n >= 10 {
      DigitsReadBack(n / 10);
      assert DigitsOf(n)[..|DigitsOf(n)| - 1] == DigitsOf(n / 10);
    } else {
      assert DigitsOf(n)[..0] == [];
    }
  }

  function Zeros(n: nat): (s: string)
    ensures |s| == n && AllDigits(s)
  {
    if n == 0 then [] else Zeros(n - 1) + ['0']
  }

  lemma {:induction false} ZerosBehind(s: string, n: nat)
    requires AllDigits(s)
    ensures AllDigits(s + Zeros(n)) && ValueOf(s + Zeros(n)) == ValueOf(s) * Pow10(n)
  {
    if n == 0 {
      assert s + Zeros(0) == s;
    } else {
      ZerosBehind(s, n - 1);
      var longer := s + Zeros(n);
      assert longer[..|longer| - 1] == s + Zeros(n - 1);
      MulAssoc(ValueOf(s), Pow10(n - 1), 10);
    }
  }

  lemma {:induction false} ZerosInFront(n: nat, s: string)
    requires AllDigits(s)
    ensures AllDigits(Zeros(n) + s) && ValueOf(Zeros(n) + s) == ValueOf(s)
    decreases n, |s|
  {
    if s == [] {
      assert Zeros(n) + s == Zeros(n);
      ZerosAreNothing(n);
    } else {
      var longer := Zeros(n) + s;
      assert longer[..|longer| - 1] == Zeros(n) + s[..|s| - 1];
      ZerosInFront(n, s[..|s| - 1]);
    }
  }

  lemma {:induction false} ZerosAreNothing(n: nat)
    ensures ValueOf(Zeros(n)) == 0
  {
    if n > 0 {
      ZerosAreNothing(n - 1);
      assert Zeros(n)[..n - 1] == Zeros(n - 1);
    }
  }

  // ---- The printer ----------------------------------------------------------------------------

  /** Trailing zeros of the coefficient move into the exponent. */
  function Strip(n: nat, e: int): (r: (nat, int))
    requires n > 0
    ensures r.0 > 0 && r.0 % 10 != 0 && e <= r.1
  {
    if n % 10 == 0 then Strip(n / 10, e + 1) else (n, e)
  }

  /** `format(value, "f")` of coefficient digits and exponent. */
  function Format(digits: string, e: int): string {
    var point := |digits| + e;
    if e >= 0 then digits + Zeros(e)
    else if point > 0 then digits[..point] + "." + digits[point..]
    else "0." + Zeros(-point) + digits
  }

  function Text(d: Decimal): Result<string> {
    if d.coeff < 0 then Err("amount_invalid")
    else if d.coeff == 0 then Ok("0")
    else
      var (n, e) := Strip(d.coeff, d.exp);
      var digits := DigitsOf(n);
      if Max(1, |digits| + e) > 30 || Max(0, -e) > 30 then Err("amount_invalid") else Ok(Format(digits, e))
  }

  /** `_decimal_text`: the digits of the value, popped from the end while they are zero. */
  method DecimalToText(d: Decimal) returns (r: Result<string>)
    ensures r == Text(d)
  {
    if d.coeff < 0 {
      return Err("amount_invalid");
    }
    if d.coeff == 0 {
      return Ok("0");
    }
    var digits, exponent := DigitsOf(d.coeff), d.exp;
    ghost var n: nat := d.coeff;
    while digits != [] && digits[|digits| - 1] == '0'
      invariant n > 0 && digits == DigitsOf(n) && Strip(n, exponent) == Strip(d.coeff, d.exp)
      decreases |digits|
    {
      assert digits[..|digits| - 1] == DigitsOf(n / 10);
      digits := digits[..|digits| - 1];
      exponent := exponent + 1;
      n := n / 10;
    }
    assert n % 10 != 0;
    if Max(1, |digits| + exponent) > 30 || Max(0, -exponent) > 30 {
      return Err("amount_invalid");
    }
    r := Ok(Format(digits, exponent));
  }

  // ---- When it prints -------------------------------------------------------------------------

  /** Below 1e30 and a multiple of 1e-30. */
  predicate Fits(d: Decimal) {
    d.coeff == 0
    || (d.coeff > 0 && d.exp <= 30 && d.coeff < Pow10(30 - d.exp)
      && (d.exp >= -30 || d.coeff % Pow10(-30 - d.exp) == 0))
  }

  lemma DivideByTen(n: nat, k: nat)
    requires n % 10 == 0 && k >= 1
    ensures n % Pow10(k) == 0 <==> (n / 10) % Pow10(k - 1) == 0
  {
    var p, m := Pow10(k - 1), n / 10;
    assert Pow10(k) == 10 * p && n == 10 * m;
    TenfoldRemainder(m, p);
  }

  lemma TenfoldRemainder(m: nat, p: nat)
    requires p >= 1
    ensures (10 * m) % (10 * p) == 0 <==> m % p == 0
  {
    var q, r := m / p, m % p;
    assert m == q * p + r;
    assert 10 * m == q * (10 * p) + 10 * r;
    RemainderIs(10 * m, 10 * p, q, 10 * r);
  }

  lemma RemainderIs(n: nat, d: nat, q: nat, r: nat)
    requires d >= 1 && n == q * d + r && r < d
    ensures n % d == r
  {
    var q1, r1 := n / d, n % d;
    assert n == q1 * d + r1;
    if q1 < q {
      MulAtLeast(q1 + 1, q, d);
    } else if q < q1 {
      MulAtLeast(q + 1, q1, d);
    }
  }

  /** A multiple of a higher power of ten is a multiple of ten. */
  lemma PowerMeansTen(n: nat, k: nat)
    requires n % Pow10(k) == 0 && k >= 1
    ensures n % 10 == 0
  {
    var q, p := n / Pow10(k), Pow10(k - 1);
    assert Pow10(k) == 10 * p;
    ExactQuotient(n, Pow10(k));
    TenIsFactor(q, p);
  }

  lemma ExactQuotient(n: nat, d: nat)
    requires d >= 1 && n % d == 0
    ensures n == n / d * d
  {
  }

  lemma TenIsFactor(q: int, p: int)
    ensures q * (10 * p) % 10 == 0
  {
    MulAssoc(q, p, 10);
    assert q * (10 * p) == 10 * (q * p);
  }

  /** Stripping one zero changes nothing about the limits. */
  lemma FitsWithoutZero(n: nat, e: int)
    requires n > 0 && n % 10 == 0
    ensures Fits(Decimal(n, e)) <==> Fits(Decimal(n / 10, e + 1))
  {
    var m := n / 10;
    assert n == 10 * m;
    if e <= 29 {
      assert Pow10(30 - e) == 10 * Pow10(29 - e);
    } else if e == 30 {
      assert Pow10(0) == 1;
    }
    if e < -30 {
      DivideByTen(n, -30 - e);
      assert Pow10(0) == 1;
    }
  }

  lemma {:induction false} FitsStripped(n: nat, e: int)
    requires n > 0
    ensures Fits(Decimal(n, e)) <==> Fits(Decimal(Strip(n, e).0, Strip(n, e).1))
  {
    if n % 10 == 0 {
      FitsWithoutZero(n, e);
      FitsStripped(n / 10, e + 1);
    }
  }

  lemma DigitsBelow(n: nat, k: nat)
    requires n > 0
    ensures n < Pow10(k) <==> DigitCount(n) <= k
  {
    if DigitCount(n) <= k {
      PowMonotone(DigitCount(n), k);
    } else {
      PowMonotone(k, DigitCount(n) - 1);
    }
  }

  lemma FitsByDigits(n: nat, e: int)
    requires n > 0 && n % 10 != 0
    ensures Fits(Decimal(n, e)) <==> DigitCount(n) + e <= 30 && e >= -30
  {
    if e < -30 && n % Pow10(-30 - e) == 0 {
      PowerMeansTen(n, -30 - e);
    }
    if e <= 30 {
      DigitsBelow(n, 30 - e);
    }
    hide DigitCount;
  }

  /** Printing succeeds exactly for nonnegative multiples of 1e-30 below 1e30. */
  lemma PrintsExactlyWhatFits(d: Decimal)
    ensures Text(d).Ok? <==> Fits(d)
  {
    if d.coeff > 0 {
      var (n, e) := Strip(d.coeff, d.exp);
      FitsStripped(d.coeff, d.exp);
      FitsByDigits(n, e);
      DigitsReadBack(n);
      hide Fits;
    }
  }

  // ---- One text for one value -----------------------------------------------------------------

  lemma {:induction false} StripKeepsValue(n: nat, e: int)
    requires n > 0
    ensures SameValue(Decimal(n, e), Decimal(Strip(n, e).0, Strip(n, e).1))
  {
    if n % 10 == 0 {
      StripKeepsValue(n / 10, e + 1);
      var (m, f) := Strip(n, e);
      OneZeroKeepsValue(n, e);
      SameAtLower(Decimal(n, e), Decimal(n / 10, e + 1), Decimal(m, f), e);
    }
  }

  lemma OneZeroKeepsValue(n: nat, e: int)
    requires n % 10 == 0
    ensures SameValue(Decimal(n, e), Decimal(n / 10, e + 1))
  {
    assert Pow10(0) == 1 && Pow10(1) == 10 * Pow10(0);
  }

  lemma SameAtLower(a: Decimal, b: Decimal, c: Decimal, e: int)
    requires e <= a.exp && e <= b.exp && e <= c.exp
    requires SameValue(a, b) && SameValue(b, c)
    ensures SameValue(a, c)
  {
    SameValueAt(a, b, e);
    SameValueAt(b, c, e);
    SameValueAt(a, c, e);
  }

  /** Two stripped numbers of the same value are the same number with the same exponent. */
  lemma StrippedIsUnique(m: nat, e: int, n: nat, f: int)
    requires m > 0 && n > 0 && m % 10 != 0 && n % 10 != 0 && SameValue(Decimal(m, e), Decimal(n, f))
    ensures m == n && e == f
  {
    assert Pow10(0) == 1;
    if e < f {
      assert m == n * Pow10(f - e);
      MultipleOfTen(n, f - e);
    } else if f < e {
      assert n == m * Pow10(e - f);
      MultipleOfTen(m, e - f);
    }
  }

  lemma MultipleOfTen(n: nat, k: nat)
    requires k >= 1
    ensures n * Pow10(k) % 10 == 0
  {
    assert Pow10(k) == 10 * Pow10(k - 1);
    TenIsFactor(n, Pow10(k - 1));
  }

  /** Equal values print identically. */
  lemma EqualValuesPrintAlike(a: Decimal, b: Decimal)
    requires SameValue(a, b)
    ensures Text(a) == Text(b)
  {
    SignsAgree(a, b);
    if a.coeff > 0 {
      var (m, e) := Strip(a.coeff, a.exp);
      var (n, f) := Strip(b.coeff, b.exp);
      StripKeepsValue(a.coeff, a.exp);
      StripKeepsValue(b.coeff, b.exp);
      var low := Min(a.exp, b.exp);
      SameValueAt(a, b, low);
      SameValueAt(a, Decimal(m, e), low);
      SameValueAt(b, Decimal(n, f), low);
      SameValueAt(Decimal(m, e), Decimal(n, f), low);
      StrippedIsUnique(m, e, n, f);
    }
  }

  lemma SignsAgree(a: Decimal, b: Decimal)
    requires SameValue(a, b)
    ensures (a.coeff == 0 <==> b.coeff == 0) && (a.coeff < 0 <==> b.coeff < 0)
  {
    var low := Min(a.exp, b.exp);
    ScaledSign(a, low);
    ScaledSign(b, low);
  }

  lemma ScaledSign(d: Decimal, e: int)
    requires e <= d.exp
    ensures (Scaled(d, e) == 0 <==> d.coeff == 0) && (Scaled(d, e) < 0 <==> d.coeff < 0)
  {
    SignOfProduct(d.coeff, Pow10(d.exp - e));
  }

  lemma SignOfProduct(a: int, p: nat)
    requires p >= 1
    ensures (a * p == 0 <==> a == 0) && (a * p < 0 <==> a < 0)
  {
  }

  // ---- The grammar, and reading back ----------------------------------------------------------

  /** 0|[1-9][0-9]{0,29} */
  predicate IsWhole(s: string) {
    1 <= |s| <= 30 && AllDigits(s) && (|s| > 1 ==> s[0] != '0')
  }

  /** [0-9]{1,30} */
  predicate IsFraction(s: string) {
    1 <= |s| <= 30 && AllDigits(s)
  }

  /** The whole part, optionally followed by a point and a fraction. */
  predicate InGrammar(s: string) {
    || IsWhole(s)
    || exists i :: 0 <= i < |s| && s[i] == '.' && IsWhole(s[..i]) && IsFraction(s[i + 1..])
  }

  /** A text of the grammar is zero or does not begin with it, and has up to 30 digits on either side of a point. */
  ghost predicate IsNumber(s: string, whole: string, fraction: string) {
    && s == (if fraction == "" then whole else whole + "." + fraction)
    && 0 < |whole| < 31 && |fraction| < 31 && (forall c :: c in whole + fraction ==> '0' <= c <= '9')
    && (whole == "0" || '1' <= whole[0])
  }

  lemma GrammarIff(s: string)
    ensures InGrammar(s) <==> exists whole, fraction :: IsNumber(s, whole, fraction)
  {
    hide IsWhole;
    hide IsNumber;
    if IsWhole(s) {
      PartsMakeNumber(s, s, "");
    } else if InGrammar(s) {
      var i :| 0 <= i < |s| && s[i] == '.' && IsWhole(s[..i]) && IsFraction(s[i + 1..]);
      assert s == s[..i] + "." + s[i + 1..];
      PartsMakeNumber(s, s[..i], s[i + 1..]);
    }
    if whole, fraction :| IsNumber(s, whole, fraction) {
      NumberInGrammar(s, whole, fraction);
    }
  }

  lemma PartsMakeNumber(s: string, whole: string, fraction: string)
    requires IsWhole(whole) && s == (if fraction == "" then whole else whole + "." + fraction)
    requires fraction == "" || IsFraction(fraction)
    ensures IsNumber(s, whole, fraction)
  {
  }

  lemma NumberInGrammar(s: string, whole: string, fraction: string)
    requires IsNumber(s, whole, fraction)
    ensures InGrammar(s)
  {
    forall k | 0 <= k < |whole| ensures '0' <= whole[k] <= '9' {
      assert whole[k] in whole + fraction;
    }
    forall k | 0 <= k < |fraction| ensures '0' <= fraction[k] <= '9' {
      assert fraction[k] in whole + fraction;
    }
    assert IsWhole(whole);
    if fraction != "" {
      var i := |whole|;
      assert s[..i] == whole && s[i] == '.' && s[i + 1..] == fraction;
    }
  }

  function Dot(s: string): (i: nat)
    ensures i <= |s| && AllNotDot(s[..i]) && (i < |s| ==> s[i] == '.')
  {
    if s == [] || s[0] == '.' then 0
    else
      var i := Dot(s[1..]);
      assert s[..i + 1] == [s[0]] + s[1..][..i];
      i + 1
  }

  predicate AllNotDot(s: string) {
    forall i :: 0 <= i < |s| ==> s[i] != '.'
  }

  /** `Decimal(text)` for a text of the grammar: all digits, and minus the length of the fraction. */
  function Parse(s: string): Option<Decimal> {
    var i := Dot(s);
    if i == |s| then (if AllDigits(s) && s != [] then Some(Decimal(ValueOf(s), 0)) else None)
    else
      var whole, fraction := s[..i], s[i + 1..];
      if AllDigits(whole) && AllDigits(fraction) then
        DigitsJoin(whole, fraction);
        Some(Decimal(ValueOf(whole + fraction), -|fraction|))
      else None
  }

  lemma DigitsJoin(a: string, b: string)
    requires AllDigits(a) && AllDigits(b)
    ensures AllDigits(a + b)
  {
  }

  lemma DotAt(whole: string, fraction: string)
    requires AllDigits(whole)
    ensures Dot(whole + "." + fraction) == |whole|
  {
    var s := whole + "." + fraction;
    var i := Dot(s);
    assert s[|whole|] == '.';
    assert forall k :: 0 <= k < |whole| ==> s[k] == whole[k] && IsDigit(whole[k]);
    assert i <= |whole|;
  }

  lemma ParseSplit(whole: string, fraction: string)
    requires AllDigits(whole) && AllDigits(fraction)
    ensures AllDigits(whole + fraction)
    ensures Parse(whole + "." + fraction) == Some(Decimal(ValueOf(whole + fraction), -|fraction|))
  {
    hide Dot;
    hide ValueOf;
    DigitsJoin(whole, fraction);
    DotAt(whole, fraction);
    var s := whole + "." + fraction;
    assert s[..|whole|] == whole && s[|whole| + 1..] == fraction;
  }

  lemma ParseWhole(s: string)
    requires AllDigits(s) && s != []
    ensures Parse(s) == Some(Decimal(ValueOf(s), 0))
  {
    var i := Dot(s);
    assert i < |s| ==> IsDigit(s[i]);
  }

  /** The formatted digits are in the grammar and read back as the same number. */
  lemma FormatReadsBack(n: nat, e: int)
    requires n > 0 && DigitCount(n) + e <= 30 && -30 <= e
    ensures var s := Format(DigitsOf(n), e);
            InGrammar(s) && Parse(s).Some? && SameValue(Parse(s).value, Decimal(n, e))
  {
    var digits := DigitsOf(n);
    DigitsReadBack(n);
    hide DigitsOf;
    hide InGrammar;
    hide Parse;
    hide SameValue;
    hide DigitCount;
    var point := |digits| + e;
    if e >= 0 {
      WholeReadsBack(n, e);
    } else if point > 0 {
      MiddlePointReadsBack(n, e);
    } else {
      LeadingPointReadsBack(n, e);
    }
  }

  lemma WholeReadsBack(n: nat, e: nat)
    requires n > 0 && DigitCount(n) + e <= 30
    ensures var s := DigitsOf(n) + Zeros(e);
            InGrammar(s) && Parse(s).Some? && SameValue(Parse(s).value, Decimal(n, e))
  {
    DigitsReadBack(n);
    ZerosBehind(DigitsOf(n), e);
    ParseWhole(DigitsOf(n) + Zeros(e));
    assert Pow10(0) == 1;
    assert IsWhole(DigitsOf(n) + Zeros(e));
  }

  lemma MiddlePointReadsBack(n: nat, e: int)
    requires n > 0 && DigitCount(n) + e <= 30 && -30 <= e < 0 < |DigitsOf(n)| + e
    ensures var digits := DigitsOf(n);
            var s := digits[..|digits| + e] + "." + digits[|digits| + e..];
            InGrammar(s) && Parse(s).Some? && SameValue(Parse(s).value, Decimal(n, e))
  {
    var digits := DigitsOf(n);
    DigitsReadBack(n);
    var whole, fraction := digits[..|digits| + e], digits[|digits| + e..];
    assert whole + fraction == digits;
    ParseSplit(whole, fraction);
    var s := whole + "." + fraction;
    assert s[|whole|] == '.' && s[..|whole|] == whole && s[|whole| + 1..] == fraction;
    assert IsWhole(s[..|whole|]) && IsFraction(s[|whole| + 1..]);
  }

  lemma ZeroBefore(fraction: string)
    requires AllDigits(fraction)
    ensures AllDigits("0" + fraction) && ValueOf("0" + fraction) == ValueOf(fraction)
  {
    ZerosInFront(1, fraction);
    assert Zeros(0) == [];
    assert Zeros(1) == "0";
  }

  lemma ZeroPointInGrammar(fraction: string)
    requires IsFraction(fraction)
    ensures InGrammar("0." + fraction)
  {
    var s := "0." + fraction;
    assert s[..1] == "0" && s[1 + 1..] == fraction;
    assert IsWhole(s[..1]);
  }

  lemma ZeroPoint(fraction: string)
    requires IsFraction(fraction)
    ensures InGrammar("0." + fraction) && Parse("0." + fraction) == Some(Decimal(ValueOf(fraction), -|fraction|))
  {
    hide Parse;
    hide InGrammar;
    hide ValueOf;
    ZeroPointInGrammar(fraction);
    ZeroBefore(fraction);
    ParseSplit("0", fraction);
    assert "0" + "." + fraction == "0." + fraction;
  }

  lemma LeadingPointReadsBack(n: nat, e: int)
    requires n > 0 && -30 <= e && |DigitsOf(n)| + e <= 0
    ensures var s := "0." + Zeros(-(|DigitsOf(n)| + e)) + DigitsOf(n);
            InGrammar(s) && Parse(s).Some? && SameValue(Parse(s).value, Decimal(n, e))
  {
    var digits := DigitsOf(n);
    DigitsReadBack(n);
    hide DigitsOf;
    hide InGrammar;
    hide Parse;
    var fraction := Zeros(-(|digits| + e)) + digits;
    ZerosInFront(-(|digits| + e), digits);
    ZeroPoint(fraction);
    assert "0." + fraction == "0." + Zeros(-(|digits| + e)) + digits;
  }

  /** Whatever is printed is in the wallet grammar, and reading it gives the value back. */
  lemma TextReadsBack(d: Decimal)
    requires Text(d).Ok?
    ensures InGrammar(Text(d).value)
    ensures Parse(Text(d).value).Some? && SameValue(Parse(Text(d).value).value, d)
  {
    if d.coeff == 0 {
      assert IsWhole("0");
      ParseWhole("0");
      assert "0"[..0] == [];
    } else {
      var (n, e) := Strip(d.coeff, d.exp);
      DigitsReadBack(n);
      FormatReadsBack(n, e);
      StripKeepsValue(d.coeff, d.exp);
      var back := Parse(Text(d).value).value;
      var low := Min(Min(d.exp, e), back.exp);
      SameValueAt(back, Decimal(n, e), low);
      SameValueAt(Decimal(n, e), d, low);
      SameValueAt(back, d, low);
      hide SameValue;
    }
  }

  /** Reading a printed text and printing it again changes nothing: the text is canonical. */
  lemma TextIsCanonical(d: Decimal)
    requires Text(d).Ok?
    ensures Parse(Text(d).value).Some? && Text(Parse(Text(d).value).value) == Text(d)
  {
    TextReadsBack(d);
    EqualValuesPrintAlike(Parse(Text(d).value).value, d);
  }
}

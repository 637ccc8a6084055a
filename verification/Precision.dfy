/**
Additions in the 100-digit decimal context that the accounting code opens, on amounts in units of 10^-30.
*/
module Precision {
  import opened Amounts
  import Decimals

  const PRECISION: nat := 100

  /** Addition in the 100-digit context. */
  function Plus(x: int, y: int): int {
    Decimals.RoundTo(x + y, PRECISION)
  }

  lemma PowersOfTen(n: nat)
    requires n == 30
    ensures Decimals.Pow10(n) == UNIT && Decimals.Pow10(2 * n) == LIMIT
  {
    PowersOfTwelve(12);
    Decimals.PowAdd(12, 12);
    Decimals.PowAdd(24, 6);
    Decimals.PowAdd(n, n);
    hide Decimals.Pow10;
  }

  lemma PowersOfTwelve(n: nat)
    requires n == 12
    ensures Decimals.Pow10(6) == 1_000_000 && Decimals.Pow10(n) == 1_000_000_000_000
  {
    assert Decimals.Pow10(0) == 1 && Decimals.Pow10(1) == 10 * Decimals.Pow10(0);
    assert Decimals.Pow10(2) == 10 * Decimals.Pow10(1);
    assert Decimals.Pow10(3) == 10 * Decimals.Pow10(2);
    Decimals.PowAdd(3, 3);
    Decimals.PowAdd(6, 6);
  }

  /** Far more than any sum of the ledger: a million amounts of the largest size. */
  predicate Small(x: int) {
    -1_000_000 * LIMIT < x < 1_000_000 * LIMIT
  }

  /** 30 decimals and 1e30 leave 100 digits plenty: no sum of fewer than a million amounts is ever rounded. */
  lemma PlusIsExact(x: int, y: int)
    requires Small(x + y)
    ensures Plus(x, y) == x + y
  {
    PowersOfTen(30);
    PowersOfTwelve(12);
    Decimals.PowAdd(60, 6);
    Decimals.PowMonotone(66, PRECISION);
    hide Decimals.Pow10;
    hide Decimals.DigitCount;
    hide Decimals.RoundedUnits;
  }
}

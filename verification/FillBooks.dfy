/**
What it means to book a fill, said from the fill's own fields: which balances move, in which direction and by
how much, and what makes a fill complete.
*/
module FillBooks {
  import opened Outcomes
  import opened Amounts
  import opened OrderProtocol
  import Decimals

  /** The commissions of all parts that were charged in one asset, the others counting zero. */
  function Commissions(parts: seq<Part>, a: Asset): (c: seq<int>)
    ensures |c| == |parts|
  {
    seq(|parts|, i requires 0 <= i < |parts| => if parts[i].asset == a then parts[i].commission else 0)
  }

  lemma {:induction false} FeesAreCommissions(parts: seq<Part>, a: Asset)
    ensures FeesIn(parts, a) == Decimals.Total(Commissions(parts, a))
  {
    if parts != [] {
      var n := |parts| - 1;
      FeesAreCommissions(parts[..n], a);
      assert Commissions(parts, a)[..n] == Commissions(parts[..n], a);
    }
  }

  /**
  A booked purchase of `base` for USDT adds the executed quantity to the base asset and takes the quote from
  USDT, a sale does the reverse, and every asset pays the commissions charged in it. Nothing else changes.
  */
  lemma BookedFillMoves(ledger: Ledger, base: Asset, a: Asset)
    requires ledger.assets.Some? && ledger.record.FillPending? && ledger.record.symbol == base + "USDT"
    requires AccountKnownFill(ledger).Ok? && a in ledger.nets
    ensures var booked, fill := AccountKnownFill(ledger).value, ledger.record.fill;
            && booked == ledger.(nets := booked.nets) && booked.nets.Keys == ledger.nets.Keys
            && base in ledger.nets && "USDT" in ledger.nets && fill.side.Some?
            && var change := booked.nets[a] - ledger.nets[a] + Decimals.Total(Commissions(fill.parts, a));
               match fill.side.value
               case Buy => change == (if a == base then fill.executed else 0) - (if a == "USDT" then fill.quote else 0)
               case Sell => change == (if a == "USDT" then fill.quote else 0) - (if a == base then fill.executed else 0)
  {
    FeesAreCommissions(ledger.record.fill.parts, a);
    var symbol := ledger.record.symbol;
    assert symbol[..|symbol| - 4] == base;
    hide KnownFillIsComplete;
    hide FeesIn;
    hide Commissions;
    hide Decimals.Total;
  }

  // ---- Complete fills -------------------------------------------------------------------------------

  function Quantities(parts: seq<Part>): (q: seq<int>)
    ensures |q| == |parts|
  {
    seq(|parts|, i requires 0 <= i < |parts| => parts[i].qty)
  }

  function Quotes(parts: seq<Part>): (q: seq<int>)
    ensures |q| == |parts|
  {
    seq(|parts|, i requires 0 <= i < |parts| => parts[i].price * parts[i].qty)
  }

  /** The default context of 28 digits keeps every total on the way, and what is compared with it. */
  ghost predicate FitsContext(amounts: seq<int>, expected: int) {
    && Decimals.WrittenThroughout(amounts, 28)
    && (forall k :: 0 <= k < |amounts| ==> Decimals.Representable(amounts[k], 28))
    && Decimals.Representable(expected, 28) && Decimals.Representable(Decimals.Total(amounts) - expected, 28)
  }

  /** Two amounts differ by at most 10^-8, or by at most that part of the second. */
  predicate Agree(x: int, y: int, unit: int) {
    -Decimals.Max(unit, y) <= 100_000_000 * (x - y) <= Decimals.Max(unit, y)
  }

  lemma {:induction false} QuantityIsAccumulated(parts: seq<Part>)
    ensures PartQuantity(parts) == Decimals.Accumulated(Quantities(parts), 28)
  {
    hide Decimals.RoundTo;
    if parts != [] {
      var n := |parts| - 1;
      QuantityIsAccumulated(parts[..n]);
      assert Quantities(parts)[..n] == Quantities(parts[..n]);
    }
  }

  lemma {:induction false} QuoteIsAccumulated(parts: seq<Part>)
    requires forall k :: 0 <= k < |parts| ==> Decimals.Representable(Quotes(parts)[k], 28)
    ensures PartQuote(parts) == Decimals.Accumulated(Quotes(parts), 28)
  {
    hide Decimals.RoundTo;
    hide Decimals.Representable;
    if parts != [] {
      var n := |parts| - 1;
      assert Quotes(parts)[..n] == Quotes(parts[..n]);
      assert forall k :: 0 <= k < n ==> Quotes(parts[..n])[k] == Quotes(parts)[k];
      QuoteIsAccumulated(parts[..n]);
      Decimals.RoundingIsExactIff(Quotes(parts)[n], 28);
    }
  }

  lemma NearMeans(total: int, expected: int, unit: int)
    requires Rounded(expected) == expected && Rounded(total - expected) == total - expected
    ensures Near(total, expected, unit) <==> Agree(total, expected, unit)
  {
    hide Rounded;
  }

  lemma NearIsAgreement(amounts: seq<int>, expected: int, unit: int)
    requires FitsContext(amounts, expected) && unit > 0
    ensures Near(Decimals.Accumulated(amounts, 28), expected, unit) <==> Agree(Decimals.Total(amounts), expected, unit)
  {
    hide Decimals.RoundTo;
    hide Decimals.Accumulated;
    hide Decimals.Total;
    hide Decimals.Representable;
    hide Decimals.WrittenThroughout;
    hide Near;
    hide Agree;
    Decimals.AccumulationIsExactIff(amounts, 28);
    assert amounts[..|amounts|] == amounts;
    Decimals.RoundingIsExactIff(expected, 28);
    Decimals.RoundingIsExactIff(Decimals.Total(amounts) - expected, 28);
    NearMeans(Decimals.Total(amounts), expected, unit);
  }

  /**
  Where 28 digits are enough, a fill is complete exactly when it has parts, all of them positive and charged in
  allowed assets, whose quantities add up to what was executed and whose quotes to what was paid.
  */
  lemma CompleteFillAddsUp(fill: KnownFill, allowed: set<Asset>)
    requires FitsContext(Quantities(fill.parts), fill.executed) && FitsContext(Quotes(fill.parts), fill.quote * UNIT)
    ensures KnownFillIsComplete(fill, allowed) <==>
              && fill.executed > 0 && fill.quote > 0 && |fill.parts| > 0
              && (forall part :: part in fill.parts ==>
                    part.price > 0 && part.qty > 0 && part.commission >= 0 && part.asset in allowed)
              && Agree(Decimals.Total(Quantities(fill.parts)), fill.executed, UNIT)
              && Agree(Decimals.Total(Quotes(fill.parts)), fill.quote * UNIT, UNIT * UNIT)
  {
    QuantityIsAccumulated(fill.parts);
    QuoteIsAccumulated(fill.parts);
    NearIsAgreement(Quantities(fill.parts), fill.executed, UNIT);
    NearIsAgreement(Quotes(fill.parts), fill.quote * UNIT, UNIT * UNIT);
    PartsOneByOne(fill.parts, allowed);
    hide FitsContext;
    hide Near;
    hide Agree;
    hide PartsWellFormed;
    hide PartQuantity;
    hide PartQuote;
    hide Decimals.Total;
  }

  lemma PartsOneByOne(parts: seq<Part>, allowed: set<Asset>)
    ensures PartsWellFormed(parts, allowed) <==>
              (forall part :: part in parts ==>
                 part.price > 0 && part.qty > 0 && part.commission >= 0 && part.asset in allowed)
  {
    if !PartsWellFormed(parts, allowed) {
      var i :| 0 <= i < |parts|
        && !(parts[i].price > 0 && parts[i].qty > 0 && parts[i].commission >= 0 && parts[i].asset in allowed);
      assert parts[i] in parts;
    }
  }
}

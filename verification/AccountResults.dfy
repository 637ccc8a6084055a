/**
The collector of AccountFacts.dfy from outside: exactly which answers of the broker make a payload, and what
the payload says of each asset and of the wallets, from the fields of the rows.
*/
module AccountResults {
  import opened Outcomes
  import opened Amounts
  import opened Precision
  import opened DecimalText
  import opened AccountFacts
  import D = Decimals

  // ---- Amounts --------------------------------------------------------------------------------------

  /** The decimal is x units of 10^-30, below 10^30. */
  predicate Means(d: Option<D.Decimal>, x: int) {
    d != None && 0 <= x < LIMIT && D.SameValue(D.Decimal(x, -30), d.value)
  }

  lemma BelowLimitFits(x: int)
    requires 0 <= x < LIMIT
    ensures Fits(D.Decimal(x, -30))
  {
    PowersOfTen(30);
    D.PowAdd(30, 30);
    assert D.Pow10(0) == 1;
    hide D.Pow10;
  }

  /** An amount is read exactly when it is so many units, and then as that number. */
  lemma AmountIff(d: Option<D.Decimal>, x: int)
    ensures ReadAmount(d) == Some(x) <==> Means(d, x)
  {
    if d.Some? {
      var u := D.Decimal(x, -30);
      if Fits(d.value) {
        UnitsKeepValue(d.value);
      }
      if Means(d, x) {
        BelowLimitFits(x);
        EqualValuesPrintAlike(u, d.value);
        PrintsExactlyWhatFits(u);
        PrintsExactlyWhatFits(d.value);
        UnitsKeepValue(d.value);
        D.SameValueAt(FromUnits(Units(d.value)), d.value, D.Min(d.value.exp, -30));
        SameSymmetric(u, d.value);
        SameUnits(FromUnits(Units(d.value)), d.value, u);
      }
    }
    hide Fits;
    hide Units;
    hide D.SameValue;
  }

  lemma SameSymmetric(a: D.Decimal, b: D.Decimal)
    requires D.SameValue(a, b)
    ensures D.SameValue(b, a)
  {
    hide D.Scaled;
  }

  predicate IsAmount(d: Option<D.Decimal>) {
    ReadAmount(d) != None
  }

  /** The text is the canonical one of x units. */
  predicate Says(t: string, x: int) {
    Means(Parse(t), x) && Text(Parse(t).value) == Ok(t)
  }

  lemma PrintedSays(x: int)
    requires TextOf(x).Ok?
    ensures Says(TextOf(x).value, x)
  {
    PrintedIsCanonical(x);
    AmountIff(Parse(TextOf(x).value), x);
    hide Parse;
    hide Units;
    hide Fits;
    hide TextOf;
  }

  lemma PrintableIff(x: int)
    ensures TextOf(x).Ok? <==> 0 <= x < LIMIT
  {
    PrintsExactlyWhatFits(FromUnits(x));
    if 0 <= x < LIMIT {
      BelowLimitFits(x);
    }
    if TextOf(x).Ok? {
      TextOfReadsBack(x);
    }
    hide Fits;
  }

  // ---- Earn pages -----------------------------------------------------------------------------------

  /** An asset name of up to 128 characters: in ASCII upper-case letters and digits only. */
  predicate IsName(letters: char -> bool, a: string) {
    a != "" && |a| < 129
    && forall c :: c in a ==> 'A' <= c <= 'Z' || '0' <= c <= '9' || (c > '\U{7f}' && letters(c))
  }

  lemma NameIff(letters: char -> bool, a: string)
    ensures ValidAsset(letters, a) <==> IsName(letters, a)
  {
    assert forall k :: 0 <= k < |a| ==> a[k] in a;
  }

  /** The rows name listed assets and readable amounts, and no product twice. */
  predicate GoodRows(letters: char -> bool, spot: set<string>, rows: seq<EarnRow>) {
    && (forall k :: 0 <= k < |rows| ==>
          && IsName(letters, rows[k].asset) && rows[k].asset in spot && rows[k].product != ""
          && IsAmount(rows[k].amount))
    && forall j, k :: 0 <= j < k < |rows| ==> rows[j].product != rows[k].product
  }

  lemma GoodOneMore(letters: char -> bool, spot: set<string>, rows: seq<EarnRow>, row: EarnRow)
    requires GoodRows(letters, spot, rows)
    ensures RowOk(letters, spot, rows, row) <==> GoodRows(letters, spot, rows + [row])
  {
    NameIff(letters, row.asset);
    hide ValidAsset;
    hide IsName;
    hide ReadAmount;
    var all := rows + [row];
    assert all[|rows|] == row && forall k :: 0 <= k < |rows| ==> all[k] == rows[k];
    if row.product in Products(rows) {
      var k :| 0 <= k < |rows| && rows[k].product == row.product;
      assert all[k].product == all[|rows|].product;
    } else {
      assert forall k :: 0 <= k < |rows| ==> rows[k].product in Products(rows);
    }
  }

  lemma GoodPart(letters: char -> bool, spot: set<string>, rows: seq<EarnRow>, n: nat)
    requires n <= |rows| && GoodRows(letters, spot, rows)
    ensures GoodRows(letters, spot, rows[..n])
  {
    hide IsName;
    hide IsAmount;
  }

  /** A page is counted exactly when its rows are good together with those before. */
  lemma {:induction false} CountedIff(letters: char -> bool, spot: set<string>, counted: seq<EarnRow>,
                                      rows: seq<EarnRow>)
    requires GoodRows(letters, spot, counted)
    ensures CountRows(letters, spot, counted, rows)
            == if GoodRows(letters, spot, counted + rows) then Some(counted + rows) else None
  {
    hide RowOk;
    hide GoodRows;
    if rows == [] {
      assert counted + rows == counted;
    } else {
      var n := |rows| - 1;
      CountedIff(letters, spot, counted, rows[..n]);
      assert counted + rows == counted + rows[..n] + [rows[n]];
      assert (counted + rows)[..|counted| + n] == counted + rows[..n];
      if GoodRows(letters, spot, counted + rows[..n]) {
        GoodOneMore(letters, spot, counted + rows[..n], rows[n]);
      } else if GoodRows(letters, spot, counted + rows) {
        GoodPart(letters, spot, counted + rows, |counted| + n);
      }
    }
  }

  /** Page k of a listing of so many positions: full, except for the last. */
  predicate IsPageOf(reply: EarnReply, total: int, k: nat) {
    && reply.EarnPage? && reply.total == total
    && (if total >= 100 * k then |reply.rows| == 100 else |reply.rows| == total - 100 * (k - 1))
  }

  /** How many pages such a listing has; an empty one has one. */
  function PageCount(total: nat): nat {
    if total == 0 then 1 else (total + 99) / 100
  }

  lemma PagesAgree(broker: Earn, first: nat, count: nat)
    requires count > 0 && broker(first).EarnPage?
    ensures Pages(broker, first, count) == broker(first).rows + Pages(broker, first + 1, count - 1)
  {
  }

  /** The pages from one on. */
  ghost predicate SoundPages(broker: Earn, total: nat, from: nat) {
    forall k :: from <= k <= PageCount(total) ==> IsPageOf(broker(k), total, k)
  }

  /** So many rows have been counted before page `current`, which is not beyond the last. */
  predicate Midway(counted: seq<EarnRow>, total: nat, current: nat) {
    && 1 <= current <= PageCount(total) && |counted| == 100 * (current - 1) && total <= 10_000
  }

  lemma ShapeIff(broker: Earn, counted: seq<EarnRow>, total: nat, current: nat)
    requires Midway(counted, total, current)
    ensures PageShapeOk(broker(current), Some(total), current) <==> IsPageOf(broker(current), total, current)
    ensures IsPageOf(broker(current), total, current) ==>
              (|counted| + |broker(current).rows| == total <==> current == PageCount(total))
    ensures IsPageOf(broker(current), total, current) && current < PageCount(total) ==> |broker(current).rows| == 100
    ensures current <= 100
  {
  }

  lemma {:induction false} PagesFromIff(letters: char -> bool, spot: set<string>, broker: Earn, counted: seq<EarnRow>,
                                        total: nat, current: nat)
    requires Midway(counted, total, current) && GoodRows(letters, spot, counted)
    ensures ReadPages(letters, spot, broker, counted, Some(total), current)
            == (var all := counted + Pages(broker, current, PageCount(total) + 1 - current);
                if SoundPages(broker, total, current) && GoodRows(letters, spot, all) then Some(all) else None)
    decreases PageCount(total) - current
  {
    hide GoodRows;
    hide CountRows;
    hide PageShapeOk;
    hide IsPageOf;
    ShapeIff(broker, counted, total, current);
    var count := PageCount(total) + 1 - current;
    if IsPageOf(broker(current), total, current) {
      PageHasRows(broker(current), total, current);
      var rows := broker(current).rows;
      CountedIff(letters, spot, counted, rows);
      PagesAgree(broker, current, count);
      assert counted + (rows + Pages(broker, current + 1, count - 1))
             == counted + rows + Pages(broker, current + 1, count - 1);
      if current == PageCount(total) {
        assert Pages(broker, current + 1, 0) == [] && counted + rows + [] == counted + rows;
      } else if GoodRows(letters, spot, counted + rows) {
        PagesFromIff(letters, spot, broker, counted + rows, total, current + 1);
      } else {
        var all := counted + rows + Pages(broker, current + 1, count - 1);
        assert all[..|counted + rows|] == counted + rows;
        if GoodRows(letters, spot, all) {
          GoodPart(letters, spot, all, |counted + rows|);
        }
      }
    }
  }

  lemma PageHasRows(reply: EarnReply, total: int, k: nat)
    requires IsPageOf(reply, total, k)
    ensures reply.EarnPage? && reply.total == total
  {
  }

  /**
  The positions are read exactly when the first page announces at most 10 000, all pages up to the last agree
  with it and are full, and their rows are good together; and then as those rows.
  */
  lemma EarnIsReadIff(letters: char -> bool, spot: set<string>, broker: Earn)
    ensures ReadPages(letters, spot, broker, [], None, 1)
            == (if broker(1).EarnPage? && 0 <= broker(1).total <= 10_000 then
                  (var total: nat := broker(1).total;
                   var all := Pages(broker, 1, PageCount(total));
                   if SoundPages(broker, total, 1) && GoodRows(letters, spot, all) then Some(all) else None)
                else None)
  {
    if broker(1).EarnPage? && 0 <= broker(1).total <= 10_000 {
      var total: nat := broker(1).total;
      FirstPageAnnounces(letters, spot, broker, total);
      PagesFromIff(letters, spot, broker, [], total, 1);
      assert [] + Pages(broker, 1, PageCount(total)) == Pages(broker, 1, PageCount(total));
    }
  }

  lemma FirstPageAnnounces(letters: char -> bool, spot: set<string>, broker: Earn, total: nat)
    requires broker(1).EarnPage? && broker(1).total == total
    ensures ReadPages(letters, spot, broker, [], None, 1) == ReadPages(letters, spot, broker, [], Some(total), 1)
  {
    hide CountRows;
  }

  // ---- The assets -----------------------------------------------------------------------------------

  /** The positions of an asset together. */
  function SumOfEarn(rows: seq<EarnRow>, a: string): int {
    if rows == [] then 0
    else
      (if rows[0].asset == a && IsAmount(rows[0].amount) then ReadAmount(rows[0].amount).value else 0)
      + SumOfEarn(rows[1..], a)
  }

  lemma {:induction false} EarnIsSum(rows: seq<EarnRow>, a: string)
    ensures EarnOf(rows, a) == SumOfEarn(rows, a)
    decreases |rows|
  {
    hide ReadAmount;
    if |rows| > 0 {
      var n := |rows| - 1;
      EarnIsSum(rows[..n], a);
      LastEarn(rows, a);
    }
  }

  lemma {:induction false} LastEarn(rows: seq<EarnRow>, a: string)
    requires rows != []
    ensures var last := rows[|rows| - 1];
            SumOfEarn(rows, a) == SumOfEarn(rows[..|rows| - 1], a)
              + (if last.asset == a && IsAmount(last.amount) then ReadAmount(last.amount).value else 0)
    decreases |rows|
  {
    hide ReadAmount;
    if |rows| > 1 {
      LastEarn(rows[1..], a);
      assert rows[1..][..|rows| - 2] == rows[..|rows| - 1][1..];
    }
  }

  /** A Spot row with readable amounts, and what its asset holds altogether. */
  function Holds(row: SpotRow, earn: seq<EarnRow>): int
    requires IsAmount(row.free) && IsAmount(row.locked)
  {
    ReadAmount(row.free).value + ReadAmount(row.locked).value + SumOfEarn(earn, row.asset)
  }

  predicate Readable(spot: seq<SpotRow>) {
    forall k :: 0 <= k < |spot| ==> IsAmount(spot[k].free) && IsAmount(spot[k].locked)
  }

  /** The line of an asset says what is free, what is locked, what is in Earn, and what that is together. */
  predicate Describes(line: AssetRow, row: SpotRow, earn: seq<EarnRow>)
    requires IsAmount(row.free) && IsAmount(row.locked)
  {
    && line.asset == row.asset && Says(line.quantity, Holds(row, earn)) && Says(line.earn, SumOfEarn(earn, row.asset))
    && Says(line.free, ReadAmount(row.free).value) && Says(line.locked, ReadAmount(row.locked).value)
  }

  /** The Spot rows of the assets that hold anything, in order. */
  function Holders(spot: seq<SpotRow>, earn: seq<EarnRow>): (held: seq<SpotRow>)
    requires Readable(spot)
    ensures Readable(held)
  {
    if spot == [] then []
    else
      var last := spot[|spot| - 1];
      Holders(spot[..|spot| - 1], earn) + (if Holds(last, earn) == 0 then [] else [last])
  }

  ghost predicate AllPrintable(held: seq<SpotRow>, earn: seq<EarnRow>)
    requires Readable(held)
  {
    forall k :: 0 <= k < |held| ==> Holds(held[k], earn) < LIMIT
  }

  ghost predicate AllDescribed(lines: seq<AssetRow>, held: seq<SpotRow>, earn: seq<EarnRow>)
    requires Readable(held)
  {
    |lines| == |held| && forall k :: 0 <= k < |lines| ==> Describes(lines[k], held[k], earn)
  }

  /** A line is printed exactly when the quantity is below 10^30. */
  lemma LineIff(row: SpotRow, earn: seq<EarnRow>)
    requires IsAmount(row.free) && IsAmount(row.locked)
    ensures var r := RowOf(row.asset, HoldingOf(row, earn));
            && (r.Ok? <==> Holds(row, earn) < LIMIT)
            && (r.Ok? ==> Describes(r.value, row, earn))
  {
    EarnIsSum(earn, row.asset);
    EarnBounds(earn, row.asset);
    var h := HoldingOf(row, earn);
    AmountIff(row.free, h.free);
    AmountIff(row.locked, h.locked);
    hide *;
    LineOf(row.asset, h, row, earn);
  }

  lemma LineOf(asset: string, h: Holding, row: SpotRow, earn: seq<EarnRow>)
    requires IsAmount(row.free) && IsAmount(row.locked) && asset == row.asset && h == HoldingOf(row, earn)
    requires h.free >= 0 && h.locked >= 0 && h.earn >= 0 && h.earn == SumOfEarn(earn, row.asset)
    ensures var r := RowOf(asset, h);
            && (r.Ok? <==> Holds(row, earn) < LIMIT)
            && (r.Ok? ==> Describes(r.value, row, earn))
  {
    hide TextOf;
    hide Says;
    hide ReadAmount;
    hide EarnOf;
    hide SumOfEarn;
    PrintableIff(h.free + h.locked + h.earn);
    PrintableIff(h.free);
    PrintableIff(h.locked);
    PrintableIff(h.earn);
    if RowOf(asset, h).Ok? {
      PrintedSays(h.free + h.locked + h.earn);
      PrintedSays(h.free);
      PrintedSays(h.locked);
      PrintedSays(h.earn);
    }
  }

  lemma EmptyIff(row: SpotRow, earn: seq<EarnRow>)
    requires IsAmount(row.free) && IsAmount(row.locked)
    ensures var h := HoldingOf(row, earn); h.free + h.locked + h.earn == Holds(row, earn)
  {
    EarnIsSum(earn, row.asset);
    hide ReadAmount;
    hide EarnOf;
    hide SumOfEarn;
  }

  /** The lines are printed exactly when every holding is printable, one for each asset that holds anything. */
  lemma {:induction false} LinesIff(spot: seq<SpotRow>, earn: seq<EarnRow>)
    requires Readable(spot)
    ensures var r := RowsOf(spot, earn);
            && (r.Ok? <==> AllPrintable(Holders(spot, earn), earn))
            && (r.Ok? ==> AllDescribed(r.value, Holders(spot, earn), earn))
    decreases |spot|
  {
    hide Describes;
    hide Holds;
    hide RowOf;
    hide HoldingOf;
    hide ReadAmount;
    if spot != [] {
      var n, last := |spot| - 1, spot[|spot| - 1];
      LinesIff(spot[..n], earn);
      EmptyIff(last, earn);
      LineIff(last, earn);
      var before := Holders(spot[..n], earn);
      assert before + [] == before;
      if Holds(last, earn) != 0 {
        assert Holders(spot, earn) == before + [last] && (before + [last])[|before|] == last;
        assert forall k :: 0 <= k < |before| ==> (before + [last])[k] == before[k];
      }
    }
  }

  // ---- The wallets ----------------------------------------------------------------------------------

  /** Something beside spaces, at most 128 characters. */
  predicate IsTitle(s: string) {
    |s| < 129 && exists c :: c in s && c != ' '
  }

  /** A wallet row that counts: named, with a printed balance, which only an active wallet may have. */
  predicate Counts(row: WalletRow) {
    && IsTitle(row.name) && InGrammar(row.text) && IsAmount(Parse(row.text))
    && (row.active || Means(Parse(row.text), 0))
  }

  predicate AllCount(rows: seq<WalletRow>) {
    && (forall k :: 0 <= k < |rows| ==> Counts(rows[k]))
    && forall j, k :: 0 <= j < k < |rows| ==> rows[j].name != rows[k].name
  }

  function SumOfWallets(rows: seq<WalletRow>): int
    requires AllCount(rows)
  {
    if rows == [] then 0
    else SumOfWallets(rows[..|rows| - 1]) + ReadAmount(Parse(rows[|rows| - 1].text)).value
  }

  lemma TitleIff(s: string)
    ensures NotBlank(s) && |s| <= 128 <==> IsTitle(s)
  {
    if NotBlank(s) {
      var k :| 0 <= k < |s| && s[k] != ' ';
      assert s[k] in s;
    }
  }

  lemma CountsIff(row: WalletRow, names: set<string>)
    ensures RowAmount(row, names).Ok? <==> Counts(row) && row.name !in names
    ensures RowAmount(row, names).Ok? ==> ReadAmount(Parse(row.text)) == Some(RowAmount(row, names).value)
  {
    TitleIff(row.name);
    AmountIff(Parse(row.text), 0);
    hide NotBlank;
    hide IsTitle;
    hide InGrammar;
    hide Parse;
    hide ReadAmount;
    hide Means;
  }

  lemma AllCountOne(rows: seq<WalletRow>)
    requires rows != []
    ensures var n := |rows| - 1;
            AllCount(rows) <==> AllCount(rows[..n]) && Counts(rows[n]) && rows[n].name !in Names(rows[..n])
  {
    hide Counts;
    var n := |rows| - 1;
    assert forall k :: 0 <= k < n ==> rows[..n][k] == rows[k];
    if rows[n].name !in Names(rows[..n]) {
      forall k | 0 <= k < n ensures rows[k].name != rows[n].name {
        assert rows[..n][k].name in Names(rows[..n]);
      }
    }
  }

  lemma {:induction false} WalletsIff(rows: seq<WalletRow>)
    ensures WalletTotal(rows).Ok? <==> AllCount(rows)
    ensures AllCount(rows) ==> WalletTotal(rows) == Ok(SumOfWallets(rows))
  {
    hide Counts;
    hide RowAmount;
    hide ReadAmount;
    hide Parse;
    if rows != [] {
      var n := |rows| - 1;
      WalletsIff(rows[..n]);
      AllCountOne(rows);
      CountsIff(rows[n], Names(rows[..n]));
      hide AllCount;
      hide Names;
    }
  }

  /** The wallets are valued exactly when one to 32 rows count, and then at their sum. */
  lemma ValuedIff(reply: Option<seq<WalletRow>>, at: int)
    ensures Valued(reply, at).Available? <==>
              reply != None && 0 < |reply.value| < 33 && AllCount(reply.value) && SumOfWallets(reply.value) < LIMIT
    ensures var v := Valued(reply, at);
            v.Available? ==> Says(v.amount, SumOfWallets(reply.value)) && v.observedAt == at && v.count == |reply.value|
  {
    if reply.Some? {
      WalletsIff(reply.value);
      if AllCount(reply.value) {
        WalletBounds(reply.value);
        PrintableIff(SumOfWallets(reply.value));
        if TextOf(SumOfWallets(reply.value)).Ok? {
          PrintedSays(SumOfWallets(reply.value));
        }
      }
    }
    hide WalletTotal;
    hide AllCount;
    hide SumOfWallets;
    hide TextOf;
    hide Says;
  }

  // ---- The payload ----------------------------------------------------------------------------------

  predicate SoundSpot(letters: char -> bool, spot: seq<SpotRow>) {
    && |spot| < 5001 && Readable(spot) && (forall k :: 0 <= k < |spot| ==> IsName(letters, spot[k].asset))
    && forall j, k :: 0 <= j < k < |spot| ==> spot[j].asset != spot[k].asset
  }

  lemma SpotIff(letters: char -> bool, spot: seq<SpotRow>)
    ensures SpotOk(letters, spot) <==> SoundSpot(letters, spot)
  {
    forall k | 0 <= k < |spot| ensures ValidAsset(letters, spot[k].asset) <==> IsName(letters, spot[k].asset) {
      NameIff(letters, spot[k].asset);
    }
    hide ValidAsset;
    hide IsName;
    hide ReadAmount;
  }

  /** The rows of the Earn pages that the first page announces. */
  function Positions(broker: Earn): seq<EarnRow>
    requires broker(1).EarnPage? && broker(1).total >= 0
  {
    Pages(broker, 1, PageCount(broker(1).total))
  }

  ghost predicate SoundEarn(letters: char -> bool, spot: set<string>, broker: Earn) {
    && broker(1).EarnPage? && 0 <= broker(1).total < 10_001 && SoundPages(broker, broker(1).total, 1)
    && GoodRows(letters, spot, Positions(broker))
  }

  /** When Spot, Earn and, if they were read, the wallets were observed, between start and end. */
  function Seen(i: Inputs): seq<int> {
    if i.wallets == None then [i.startedAt, i.spotAt, i.earnAt, i.finishedAt]
    else [i.startedAt, i.spotAt, i.earnAt, i.walletAt, i.finishedAt]
  }

  predicate InTime(i: Inputs) {
    forall k :: 0 < k < |Seen(i)| ==> Seen(i)[k - 1] <= Seen(i)[k]
  }

  lemma TimeIff(i: Inputs)
    ensures TimesOk(i) <==> InTime(i)
  {
    var seen := Seen(i);
    if InTime(i) {
      assert seen[1 - 1] <= seen[1] && seen[2 - 1] <= seen[2] && seen[3 - 1] <= seen[3];
      assert i.wallets != None ==> seen[4 - 1] <= seen[4];
    }
  }

  /**
  The collector returns a payload exactly when Spot and Earn are sound, the times are in order and every
  holding is printable; it then has one line for each asset that holds anything, which says what that is.
  */
  lemma CollectedIff(i: Inputs)
    ensures Collected(i).Ok? <==>
              && SoundSpot(i.letters, i.spot) && SoundEarn(i.letters, SpotAssets(i.spot), i.earn) && InTime(i)
              && AllPrintable(Holders(i.spot, Positions(i.earn)), Positions(i.earn))
    ensures Collected(i).Ok? ==>
              var earn, p := Positions(i.earn), Collected(i).value;
              && AllDescribed(p.assets, Holders(i.spot, earn), earn)
              && p == Payload(i.startedAt, i.spotAt, i.earnAt, i.finishedAt, p.assets, Valued(i.wallets, i.walletAt))
  {
    SpotIff(i.letters, i.spot);
    EarnIsReadIff(i.letters, SpotAssets(i.spot), i.earn);
    TimeIff(i);
    hide SpotOk;
    hide ReadPages;
    hide SoundPages;
    hide GoodRows;
    hide PageCount;
    hide Pages;
    hide TimesOk;
    hide InTime;
    hide RowsOf;
    hide Valued;
    hide ReadAmount;
    hide Holders;
    hide AllPrintable;
    hide AllDescribed;
    if SoundSpot(i.letters, i.spot) && SoundEarn(i.letters, SpotAssets(i.spot), i.earn) {
      LinesIff(i.spot, Positions(i.earn));
    }
  }

  // ---- The validator ----------------------------------------------------------------------------------

  lemma CanonicalIff(t: string, x: int)
    ensures Canonical(t) && UnitsOfText(t) == x <==> Says(t, x)
  {
    AmountIff(Parse(t), x);
    if Says(t, x) {
      PrintsExactlyWhatFits(Parse(t).value);
      TextReadsBack(Parse(t).value);
      GrammarIsShort(t);
    }
    hide Parse;
    hide Fits;
    hide Units;
    hide InGrammar;
    hide Means;
  }

  /** A line is valid exactly when it says three amounts and their sum, which is not zero. */
  predicate Balances(letters: char -> bool, line: AssetRow, free: int, locked: int, earn: int) {
    && IsName(letters, line.asset) && free + locked + earn != 0
    && Says(line.free, free) && Says(line.locked, locked) && Says(line.earn, earn)
    && Says(line.quantity, free + locked + earn)
  }

  ghost predicate IsLine(letters: char -> bool, line: AssetRow) {
    exists free, locked, earn :: Balances(letters, line, free, locked, earn)
  }

  lemma DistinctLines(lines: seq<AssetRow>)
    ensures DistinctAssets(lines) <==> forall j, k :: 0 <= j < k < |lines| ==> lines[j].asset != lines[k].asset
  {
  }

  lemma LineIsValidIff(letters: char -> bool, line: AssetRow)
    ensures ValidRow(letters, line) <==> IsLine(letters, line)
  {
    hide Canonical;
    hide UnitsOfText;
    hide Says;
    NameIff(letters, line.asset);
    hide ValidAsset;
    hide IsName;
    forall t, x ensures Canonical(t) && UnitsOfText(t) == x <==> Says(t, x) {
      CanonicalIff(t, x);
    }
    if ValidRow(letters, line) {
      assert Balances(letters, line, UnitsOfText(line.free), UnitsOfText(line.locked), UnitsOfText(line.earn));
    }
  }

  /** The reasons for which wallets are not valued. */
  predicate IsReason(code: string) {
    || code == "wallet_read_failed" || code == "wallet_response_invalid" || code == "wallet_row_invalid"
    || code == "wallet_duplicate_name" || code == "wallet_balance_invalid" || code == "wallet_inactive_nonzero"
  }

  /** A valuation of one to 32 wallets within the observation, or a reason. */
  ghost predicate IsValuation(v: Valuation, since: int, until: int) {
    match v
    case Available(amount, at, count) =>
      0 < count < 33 && since <= at && at <= until && InGrammar(amount) && exists x :: Says(amount, x)
    case Unavailable(code) => IsReason(code)
  }

  lemma ValuationIff(v: Valuation, since: int, until: int)
    ensures ValidValuation(v) && (v.Available? ==> since <= v.observedAt <= until) <==> IsValuation(v, since, until)
  {
    if v.Available? {
      forall x ensures Canonical(v.amount) && UnitsOfText(v.amount) == x <==> Says(v.amount, x) {
        CanonicalIff(v.amount, x);
      }
      if Canonical(v.amount) {
        assert Says(v.amount, UnitsOfText(v.amount));
      }
    }
    hide Canonical;
    hide UnitsOfText;
    hide Says;
    hide InGrammar;
  }

  /** A payload is valid exactly when its times are in order, and lines and valuation are. */
  lemma PayloadIff(letters: char -> bool, p: Payload)
    ensures ValidPayload(letters, p) <==>
              && p.startedAt <= p.spotAt && p.spotAt <= p.earnAt && p.earnAt <= p.finishedAt
              && (forall line :: line in p.assets ==> IsLine(letters, line))
              && (forall j, k :: 0 <= j < k < |p.assets| ==> p.assets[j].asset != p.assets[k].asset)
              && IsValuation(p.valuation, p.earnAt, p.finishedAt)
  {
    hide ValidRow;
    hide Balances;
    hide ValidValuation;
    hide IsValuation;
    hide DistinctAssets;
    forall line ensures ValidRow(letters, line) <==> IsLine(letters, line) {
      LineIsValidIff(letters, line);
    }
    ValuationIff(p.valuation, p.earnAt, p.finishedAt);
    DistinctLines(p.assets);
    hide IsLine;
    assert forall k :: 0 <= k < |p.assets| ==> p.assets[k] in p.assets;
  }
}

/**
collect_account_facts and validate_account_facts_payload of application/account_facts.py: Spot balances
and all pages of Earn positions become canonical texts, and whatever the collector returns the validator
accepts. Amounts are parsed decimals, None where the text is not one; times are instants.
*/
module AccountFacts {
  import opened Outcomes
  import opened Amounts
  import opened Precision
  import opened DecimalText
  import D = Decimals

  const PAGE_SIZE: int := 100
  const MAX_EARN_POSITIONS: int := 10_000
  const MAX_WALLET_ROWS: int := 32

  // ---- Amounts --------------------------------------------------------------------------------

  /** The value in units of 1e-30. */
  function Units(d: D.Decimal): (x: int)
    requires Fits(d)
  {
    if d.exp >= -30 then d.coeff * D.Pow10(d.exp + 30) else d.coeff / D.Pow10(-30 - d.exp)
  }

  function FromUnits(x: int): D.Decimal {
    D.Decimal(x, -30)
  }

  /** `_decimal`: a nonnegative number that can be printed. */
  function ReadAmount(d: Option<D.Decimal>): Option<int> {
    if d.Some? && Fits(d.value) then Some(Units(d.value)) else None
  }

  function TextOf(x: int): Result<string> {
    Text(FromUnits(x))
  }

  lemma UnitsKeepValue(d: D.Decimal)
    requires Fits(d)
    ensures D.SameValue(FromUnits(Units(d)), d) && 0 <= Units(d) < LIMIT
  {
    PowersOfTen(30);
    assert D.Pow10(0) == 1;
    if d.exp >= -30 {
      ScaleFits(d);
    } else {
      var p := D.Pow10(-30 - d.exp);
      assert d.coeff == (d.coeff / p) * p + d.coeff % p;
      QuotientFits(d);
    }
  }

  lemma ScaleFits(d: D.Decimal)
    requires Fits(d) && d.exp >= -30
    ensures 0 <= d.coeff * D.Pow10(d.exp + 30) < D.Pow10(60) || d.coeff == 0
  {
    if d.coeff > 0 {
      D.PowAdd(30 - d.exp, d.exp + 30);
      D.MulLess(d.coeff, D.Pow10(30 - d.exp), D.Pow10(d.exp + 30));
      SignOfProduct(d.coeff, D.Pow10(d.exp + 30));
    }
  }

  lemma FitsMeansBelow(d: D.Decimal, k: nat)
    requires Fits(d) && d.coeff > 0 && k == -30 - d.exp
    ensures d.coeff < D.Pow10(60 + k)
  {
    assert 30 - d.exp == 60 + k;
    hide D.Pow10;
  }

  lemma QuotientFits(d: D.Decimal)
    requires Fits(d) && d.exp < -30
    ensures 0 <= d.coeff / D.Pow10(-30 - d.exp) < D.Pow10(60)
  {
    hide D.Pow10;
    var k: nat := -30 - d.exp;
    if d.coeff > 0 {
      FitsMeansBelow(d, k);
      D.PowAdd(60, k);
      QuotientBelow(d.coeff, D.Pow10(k), D.Pow10(60));
    }
  }

  lemma QuotientBelow(n: nat, p: nat, limit: nat)
    requires p >= 1 && n < limit * p
    ensures n / p < limit
  {
    var q := n / p;
    assert n == q * p + n % p;
    if q >= limit {
      D.MulAtLeast(limit, q, p);
    }
  }

  /** A printable number of units reads back as the same number of units. */
  lemma TextOfReadsBack(x: int)
    requires TextOf(x).Ok?
    ensures 0 <= x < LIMIT && Fits(FromUnits(x))
    ensures Parse(TextOf(x).value).Some? && Fits(Parse(TextOf(x).value).value)
            && Units(Parse(TextOf(x).value).value) == x
    ensures Text(Parse(TextOf(x).value).value) == TextOf(x)
  {
    var d := FromUnits(x);
    PrintsExactlyWhatFits(d);
    UnitsKeepValue(d);
    assert D.Pow10(0) == 1;
    TextReadsBack(d);
    TextIsCanonical(d);
    var back := Parse(TextOf(x).value).value;
    PrintsExactlyWhatFits(back);
    UnitsKeepValue(back);
    SameUnits(FromUnits(Units(back)), back, d);
  }

  lemma SameUnits(a: D.Decimal, b: D.Decimal, c: D.Decimal)
    requires a.exp == -30 && c.exp == -30 && D.SameValue(a, b) && D.SameValue(b, c)
    ensures a.coeff == c.coeff
  {
    var low := D.Min(b.exp, -30);
    D.SameValueAt(a, b, low);
    D.SameValueAt(b, c, low);
    D.SameValueAt(a, c, low);
    D.ReadBack(a);
    D.ReadBack(c);
  }

  // ---- Inputs ---------------------------------------------------------------------------------

  /** Upper-case letters and digits, and whatever else `letters` says is a letter or a number. */
  predicate ValidAsset(letters: char -> bool, a: string) {
    1 <= |a| <= 128
    && forall k :: 0 <= k < |a| ==>
      (if a[k] as int < 128 then 'A' <= a[k] <= 'Z' || '0' <= a[k] <= '9' else letters(a[k]))
  }

  datatype SpotRow = SpotRow(asset: string, free: Option<D.Decimal>, locked: Option<D.Decimal>)

  datatype EarnRow = EarnRow(asset: string, product: string, amount: Option<D.Decimal>)

  datatype EarnReply = EarnUnreadable | EarnPage(rows: seq<EarnRow>, total: int)

  /** The broker's answer to page `current`. */
  type Earn = nat -> EarnReply

  datatype Holding = Holding(free: int, locked: int, earn: int)

  // ---- Earn pages -----------------------------------------------------------------------------

  /** What one asset holds in the given rows. */
  function EarnOf(rows: seq<EarnRow>, a: string): int {
    if rows == [] then 0
    else
      var last := rows[|rows| - 1];
      EarnOf(rows[..|rows| - 1], a)
      + (if last.asset == a && ReadAmount(last.amount).Some? then ReadAmount(last.amount).value else 0)
  }

  function Products(rows: seq<EarnRow>): set<string> {
    set i | 0 <= i < |rows| :: rows[i].product
  }

  predicate RowOk(letters: char -> bool, spot: set<string>, counted: seq<EarnRow>, row: EarnRow) {
    && ValidAsset(letters, row.asset) && row.product != "" && row.product !in Products(counted)
    && row.asset in spot && ReadAmount(row.amount).Some?
  }

  /** The rows counted after a page, None when one of its rows is refused. */
  function CountRows(letters: char -> bool, spot: set<string>, counted: seq<EarnRow>, rows: seq<EarnRow>):
      Option<seq<EarnRow>> {
    if rows == [] then Some(counted)
    else
      var before, last := CountRows(letters, spot, counted, rows[..|rows| - 1]), rows[|rows| - 1];
      if before.Some? && RowOk(letters, spot, before.value, last) then Some(before.value + [last]) else None
  }

  function Expected(total: int, current: nat): int
    requires current >= 1
  {
    var left := total - (current - 1) * PAGE_SIZE;
    if left <= 0 then 0 else if left < PAGE_SIZE then left else PAGE_SIZE
  }

  predicate PageShapeOk(reply: EarnReply, total: Option<int>, current: nat)
    requires current >= 1
  {
    && reply.EarnPage? && 0 <= reply.total <= MAX_EARN_POSITIONS && |reply.rows| <= PAGE_SIZE
    && total in {None, Some(reply.total)} && |reply.rows| == Expected(reply.total, current)
  }

  /** All rows of pages `current` and on, appended to those counted; None on any refusal. */
  function ReadPages(letters: char -> bool, spot: set<string>, broker: Earn, counted: seq<EarnRow>, total: Option<int>,
                     current: nat)
    : Option<seq<EarnRow>>
    requires current >= 1
    decreases MAX_EARN_POSITIONS / PAGE_SIZE + 2 - current
  {
    if current > MAX_EARN_POSITIONS / PAGE_SIZE + 1 || !PageShapeOk(broker(current), total, current) then None
    else
      var all := CountRows(letters, spot, counted, broker(current).rows);
      if all.None? then None
      else if |all.value| == broker(current).total then all
      else ReadPages(letters, spot, broker, all.value, Some(broker(current).total), current + 1)
  }

  predicate DistinctProducts(rows: seq<EarnRow>) {
    forall i, j :: 0 <= i < j < |rows| ==> rows[i].product != rows[j].product
  }

  predicate RowsReadable(letters: char -> bool, spot: set<string>, rows: seq<EarnRow>) {
    forall i :: 0 <= i < |rows| ==>
      ValidAsset(letters, rows[i].asset) && rows[i].asset in spot && ReadAmount(rows[i].amount).Some?
  }

  lemma {:induction false} CountedFacts(letters: char -> bool, spot: set<string>, counted: seq<EarnRow>,
                                        rows: seq<EarnRow>)
    requires CountRows(letters, spot, counted, rows).Some? && DistinctProducts(counted)
             && RowsReadable(letters, spot, counted)
    ensures var all := CountRows(letters, spot, counted, rows).value;
            all == counted + rows && DistinctProducts(all) && RowsReadable(letters, spot, all)
  {
    if rows == [] {
      assert counted + rows == counted;
    } else {
      var n := |rows| - 1;
      CountedFacts(letters, spot, counted, rows[..n]);
      var before := CountRows(letters, spot, counted, rows[..n]).value;
      assert counted + rows == before + [rows[n]];
      NewProduct(before, rows[n]);
      hide ValidAsset;
      hide ReadAmount;
    }
  }

  lemma NewProduct(rows: seq<EarnRow>, row: EarnRow)
    requires DistinctProducts(rows) && row.product !in Products(rows)
    ensures DistinctProducts(rows + [row])
  {
    assert forall i :: 0 <= i < |rows| ==> rows[i].product in Products(rows);
  }

  /** The rows of `count` pages starting with page `first`, in order. */
  function Pages(broker: Earn, first: nat, count: nat): seq<EarnRow>
    decreases count
  {
    if count == 0 || broker(first).EarnUnreadable? then [] else broker(first).rows + Pages(broker, first + 1, count - 1)
  }

  /** Every product of every page is counted once, and there are as many as each page announced. */
  lemma {:induction false} PagesAreCounted(letters: char -> bool, spot: set<string>, broker: Earn,
                                           counted: seq<EarnRow>, total: Option<int>, current: nat)
      returns (count: nat)
    requires current >= 1 && ReadPages(letters, spot, broker, counted, total, current).Some?
    requires DistinctProducts(counted) && RowsReadable(letters, spot, counted)
    ensures var all := ReadPages(letters, spot, broker, counted, total, current).value;
            && 1 <= count <= MAX_EARN_POSITIONS / PAGE_SIZE + 2 - current
            && all == counted + Pages(broker, current, count)
            && DistinctProducts(all) && RowsReadable(letters, spot, all) && |all| <= MAX_EARN_POSITIONS
            && forall k :: current <= k < current + count ==> broker(k).EarnPage? && broker(k).total == |all|
    decreases MAX_EARN_POSITIONS / PAGE_SIZE + 2 - current
  {
    var reply := broker(current);
    CountedFacts(letters, spot, counted, reply.rows);
    var all := CountRows(letters, spot, counted, reply.rows).value;
    hide CountRows;
    hide RowsReadable;
    hide DistinctProducts;
    if |all| == reply.total {
      count := 1;
      assert Pages(broker, current + 1, 0) == [];
      assert reply.rows + [] == reply.rows;
    } else {
      var rest := PagesAreCounted(letters, spot, broker, all, Some(reply.total), current + 1);
      count := rest + 1;
      assert counted + reply.rows + Pages(broker, current + 1, rest)
             == counted + (reply.rows + Pages(broker, current + 1, rest));
      assert broker(current + 1).total == reply.total;
    }
  }

  lemma {:induction false} EarnBounds(rows: seq<EarnRow>, a: string)
    ensures 0 <= EarnOf(rows, a) <= |rows| * LIMIT
  {
    hide Fits;
    if rows != [] {
      EarnBounds(rows[..|rows| - 1], a);
      var amount := rows[|rows| - 1].amount;
      if ReadAmount(amount).Some? {
        UnitsKeepValue(amount.value);
      }
      hide Units;
    }
  }

  /** The rows of one page: each amount is added to its asset. */
  method CountPage(letters: char -> bool, spot: set<string>, counted: seq<EarnRow>, rows: seq<EarnRow>,
                   held: map<string, int>)
    returns (all: Option<seq<EarnRow>>, sums: map<string, int>)
    requires held.Keys == spot && forall a :: a in spot ==> held[a] == EarnOf(counted, a)
    requires |counted| <= MAX_EARN_POSITIONS && |rows| <= PAGE_SIZE
    ensures all == CountRows(letters, spot, counted, rows)
    ensures all.Some? ==> sums.Keys == spot && forall a :: a in spot ==> sums[a] == EarnOf(all.value, a)
  {
    hide ValidAsset;
    hide ReadAmount;
    hide Plus;
    var seen := counted;
    sums := held;
    for i := 0 to |rows|
      invariant CountRows(letters, spot, counted, rows[..i]) == Some(seen) && |seen| == |counted| + i
      invariant sums.Keys == spot && forall a :: a in spot ==> sums[a] == EarnOf(seen, a)
    {
      var row := rows[i];
      assert rows[..i + 1][..i] == rows[..i];
      CountingFailsEarly(letters, spot, counted, rows, i + 1);
      if !RowOk(letters, spot, seen, row) {
        return None, sums;
      }
      AddingEarnIsExact(seen, row);
      sums := sums[row.asset := Plus(sums[row.asset], ReadAmount(row.amount).value)];
      forall a ensures EarnOf(seen + [row], a)
        == EarnOf(seen, a) + (if row.asset == a then ReadAmount(row.amount).value else 0) {
        assert (seen + [row])[..|seen|] == seen;
      }
      seen := seen + [row];
    }
    assert rows[..|rows|] == rows;
    all := Some(seen);
  }

  lemma AddingEarnIsExact(rows: seq<EarnRow>, row: EarnRow)
    requires |rows| <= MAX_EARN_POSITIONS + PAGE_SIZE && ReadAmount(row.amount).Some?
    ensures var sum, more := EarnOf(rows, row.asset), ReadAmount(row.amount).value; Plus(sum, more) == sum + more
  {
    EarnBounds(rows, row.asset);
    UnitsKeepValue(row.amount.value);
    hide Fits;
    hide Units;
    PlusIsExact(EarnOf(rows, row.asset), ReadAmount(row.amount).value);
  }

  lemma {:induction false} CountingFailsEarly(letters: char -> bool, spot: set<string>, counted: seq<EarnRow>,
                                              rows: seq<EarnRow>, n: nat)
    requires n <= |rows|
    ensures CountRows(letters, spot, counted, rows[..n]).None? ==> CountRows(letters, spot, counted, rows).None?
    decreases |rows|
  {
    hide RowOk;
    if n < |rows| {
      CountingFailsEarly(letters, spot, counted, rows[..|rows| - 1], n);
      assert rows[..|rows| - 1][..n] == rows[..n];
    } else {
      assert rows[..n] == rows;
    }
  }

  lemma {:induction false} CountedLength(letters: char -> bool, spot: set<string>, counted: seq<EarnRow>,
                                         rows: seq<EarnRow>)
    requires CountRows(letters, spot, counted, rows).Some?
    ensures |CountRows(letters, spot, counted, rows).value| == |counted| + |rows|
  {
    if rows != [] {
      CountedLength(letters, spot, counted, rows[..|rows| - 1]);
    }
    hide RowOk;
  }

  /** The Earn loop of `collect_account_facts`. */
  method ReadEarn(letters: char -> bool, spot: set<string>, broker: Earn)
      returns (all: Option<seq<EarnRow>>, sums: map<string, int>)
    ensures all == ReadPages(letters, spot, broker, [], None, 1)
    ensures all.Some? ==> sums.Keys == spot && forall a :: a in spot ==> sums[a] == EarnOf(all.value, a)
  {
    hide CountRows;
    hide EarnOf;
    var counted: seq<EarnRow>, total: Option<int>, current: nat := [], None, 1;
    sums := map a | a in spot :: 0;
    assert forall a :: EarnOf([], a) == 0 by { NothingEarned(); }
    while true
      invariant 1 <= current <= MAX_EARN_POSITIONS / PAGE_SIZE + 1
      invariant |counted| <= (current - 1) * PAGE_SIZE
      invariant ReadPages(letters, spot, broker, [], None, 1)
                == ReadPages(letters, spot, broker, counted, total, current)
      invariant sums.Keys == spot && forall a :: a in spot ==> sums[a] == EarnOf(counted, a)
      decreases MAX_EARN_POSITIONS / PAGE_SIZE + 1 - current
    {
      var reply := broker(current);
      if !PageShapeOk(reply, total, current) {
        return None, sums;
      }
      var after: Option<seq<EarnRow>>;
      after, sums := CountPage(letters, spot, counted, reply.rows, sums);
      if after.None? {
        return None, sums;
      }
      CountedLength(letters, spot, counted, reply.rows);
      if |after.value| == reply.total {
        return after, sums;
      }
      counted, total := after.value, Some(reply.total);
      current := current + 1;
      if current > MAX_EARN_POSITIONS / PAGE_SIZE + 1 {
        return None, sums;
      }
    }
    assert false;
    all := None;
  }

  lemma NothingEarned()
    ensures forall a :: EarnOf([], a) == 0
  {
  }

  // ---- Wallet valuation -----------------------------------------------------------------------

  datatype WalletRow = WalletRow(name: string, active: bool, text: string)

  datatype Valuation = Unavailable(code: string) | Available(amount: string, observedAt: int, count: nat)

  predicate NotBlank(s: string) {
    exists k :: 0 <= k < |s| && s[k] != ' '
  }

  function WalletAmount(text: string): Option<int> {
    if InGrammar(text) then ReadAmount(Parse(text)) else None
  }

  function Names(rows: seq<WalletRow>): set<string> {
    set i | 0 <= i < |rows| :: rows[i].name
  }

  /** The total of the wallet rows, or the reason why there is none. */
  function WalletTotal(rows: seq<WalletRow>): Result<int> {
    if rows == [] then Ok(0)
    else
      var before, last := rows[..|rows| - 1], rows[|rows| - 1];
      match WalletTotal(before)
      case Err(code) => Err(code)
      case Ok(total) =>
        match RowAmount(last, Names(before))
        case Err(code) => Err(code)
        case Ok(amount) => Ok(total + amount)
  }

  /** What one row adds, or why it is refused. */
  function RowAmount(row: WalletRow, names: set<string>): (r: Result<int>)
    ensures r.Ok? ==> WalletAmount(row.text) == Some(r.value)
  {
    if !NotBlank(row.name) || |row.name| > 128 then Err("wallet_row_invalid")
    else if row.name in names then Err("wallet_duplicate_name")
    else if WalletAmount(row.text).None? then Err("wallet_balance_invalid")
    else if WalletAmount(row.text) != Some(0) && !row.active then Err("wallet_inactive_nonzero")
    else Ok(WalletAmount(row.text).value)
  }

  /** `_wallet_valuation`; None is a failed read. */
  function Valued(reply: Option<seq<WalletRow>>, at: int): Valuation {
    if reply.None? then Unavailable("wallet_read_failed")
    else if !(1 <= |reply.value| <= MAX_WALLET_ROWS) then Unavailable("wallet_response_invalid")
    else
      match WalletTotal(reply.value)
      case Err(code) => Unavailable(code)
      case Ok(total) =>
        match TextOf(total)
        case Err(_) => Unavailable("wallet_response_invalid")
        case Ok(text) => Available(text, at, |reply.value|)
  }

  lemma {:induction false} WalletBounds(rows: seq<WalletRow>)
    requires WalletTotal(rows).Ok?
    ensures 0 <= WalletTotal(rows).value <= |rows| * LIMIT
  {
    hide InGrammar;
    hide Parse;
    hide Fits;
    hide NotBlank;
    if rows != [] {
      WalletBounds(rows[..|rows| - 1]);
      UnitsKeepValue(Parse(rows[|rows| - 1].text).value);
    }
    hide Units;
  }

  lemma {:induction false} WalletsFailEarly(rows: seq<WalletRow>, n: nat)
    requires n <= |rows|
    ensures WalletTotal(rows[..n]).Err? ==> WalletTotal(rows) == WalletTotal(rows[..n])
    decreases |rows|
  {
    hide WalletAmount;
    hide NotBlank;
    if n < |rows| {
      WalletsFailEarly(rows[..|rows| - 1], n);
      assert rows[..|rows| - 1][..n] == rows[..n];
    } else {
      assert rows[..n] == rows;
    }
  }

  lemma WalletStep(rows: seq<WalletRow>)
    requires rows != [] && WalletTotal(rows).Ok?
    ensures WalletTotal(rows[..|rows| - 1]).Ok? && WalletAmount(rows[|rows| - 1].text).Some?
    ensures WalletTotal(rows).value == WalletTotal(rows[..|rows| - 1]).value + WalletAmount(rows[|rows| - 1].text).value
  {
    hide WalletAmount;
    hide NotBlank;
    hide Names;
  }

  lemma AddingWalletIsExact(rows: seq<WalletRow>)
    requires rows != [] && |rows| <= MAX_WALLET_ROWS && WalletTotal(rows).Ok?
    ensures WalletTotal(rows[..|rows| - 1]).Ok? && WalletAmount(rows[|rows| - 1].text).Some?
    ensures var before := WalletTotal(rows[..|rows| - 1]).value;
            var more := WalletAmount(rows[|rows| - 1].text).value;
            Plus(before, more) == before + more
  {
    hide WalletTotal;
    hide WalletAmount;
    hide Plus;
    WalletStep(rows);
    WalletBounds(rows);
    PlusIsExact(WalletTotal(rows[..|rows| - 1]).value, WalletAmount(rows[|rows| - 1].text).value);
  }

  /** The checks of one row. */
  method ReadWallet(row: WalletRow, names: set<string>) returns (r: Result<int>)
    ensures r == RowAmount(row, names)
  {
    hide WalletAmount;
    hide NotBlank;
    if !NotBlank(row.name) || |row.name| > 128 {
      return Err("wallet_row_invalid");
    }
    if row.name in names {
      return Err("wallet_duplicate_name");
    }
    var amount := WalletAmount(row.text);
    if amount.None? {
      return Err("wallet_balance_invalid");
    }
    if amount.value != 0 && !row.active {
      return Err("wallet_inactive_nonzero");
    }
    r := Ok(amount.value);
  }

  lemma NamesOneMore(rows: seq<WalletRow>, i: nat)
    requires i < |rows|
    ensures rows[..i + 1][..i] == rows[..i] && Names(rows[..i + 1]) == Names(rows[..i]) + {rows[i].name}
  {
    assert forall k :: 0 <= k < i ==> rows[..i + 1][k] == rows[..i][k];
    assert rows[..i + 1][i] == rows[i];
  }

  /** `_wallet_valuation` */
  method ValueWallets(reply: Option<seq<WalletRow>>, at: int) returns (v: Valuation)
    ensures v == Valued(reply, at)
  {
    hide WalletAmount;
    hide RowAmount;
    hide Names;
    hide TextOf;
    hide Plus;
    if reply.None? {
      return Unavailable("wallet_read_failed");
    }
    var rows := reply.value;
    if rows == [] || |rows| > MAX_WALLET_ROWS {
      return Unavailable("wallet_response_invalid");
    }
    var names: set<string>, total := {}, 0;
    assert Names(rows[..0]) == {} by { NoNames(rows[..0]); }
    for i := 0 to |rows|
      invariant WalletTotal(rows[..i]) == Ok(total) && names == Names(rows[..i])
    {
      NamesOneMore(rows, i);
      WalletsFailEarly(rows, i + 1);
      var amount := ReadWallet(rows[i], names);
      if amount.Err? {
        return Unavailable(amount.code);
      }
      names := names + {rows[i].name};
      AddingWalletIsExact(rows[..i + 1]);
      total := Plus(total, amount.value);
    }
    assert rows[..|rows|] == rows;
    var text := TextOf(total);
    v := if text.Ok? then Available(text.value, at, |rows|) else Unavailable("wallet_response_invalid");
  }

  lemma NoNames(rows: seq<WalletRow>)
    requires rows == []
    ensures Names(rows) == {}
  {
  }

  // ---- The payload ----------------------------------------------------------------------------

  datatype AssetRow = AssetRow(asset: string, quantity: string, free: string, locked: string, earn: string)

  datatype Payload = Payload(
    startedAt: int, spotAt: int, earnAt: int, finishedAt: int, assets: seq<AssetRow>, valuation: Valuation)

  /** What the client answers and when; `wallets` is None when that read fails. */
  datatype Inputs = Inputs(
    letters: char -> bool, spot: seq<SpotRow>, earn: Earn, wallets: Option<seq<WalletRow>>,
    startedAt: int, spotAt: int, earnAt: int, walletAt: int, finishedAt: int)

  predicate SpotOk(letters: char -> bool, rows: seq<SpotRow>) {
    && |rows| <= 5000
    && (forall i :: 0 <= i < |rows| ==>
          ValidAsset(letters, rows[i].asset) && ReadAmount(rows[i].free).Some? && ReadAmount(rows[i].locked).Some?)
    && (forall i, j :: 0 <= i < j < |rows| ==> rows[i].asset != rows[j].asset)
  }

  function SpotAssets(rows: seq<SpotRow>): set<string> {
    set i | 0 <= i < |rows| :: rows[i].asset
  }

  /** The texts of one asset. */
  function RowOf(asset: string, h: Holding): Result<AssetRow> {
    var quantity, free, locked, earn := TextOf(h.free + h.locked + h.earn), TextOf(h.free), TextOf(h.locked),
      TextOf(h.earn);
    if quantity.Ok? && free.Ok? && locked.Ok? && earn.Ok? then
      Ok(AssetRow(asset, quantity.value, free.value, locked.value, earn.value))
    else Err("amount_invalid")
  }

  function HoldingOf(row: SpotRow, earn: seq<EarnRow>): Holding
    requires ReadAmount(row.free).Some? && ReadAmount(row.locked).Some?
  {
    Holding(ReadAmount(row.free).value, ReadAmount(row.locked).value, EarnOf(earn, row.asset))
  }

  /** The rows of all assets that hold anything. */
  function RowsOf(spot: seq<SpotRow>, earn: seq<EarnRow>): Result<seq<AssetRow>>
    requires forall i :: 0 <= i < |spot| ==> ReadAmount(spot[i].free).Some? && ReadAmount(spot[i].locked).Some?
  {
    if spot == [] then Ok([])
    else
      var last := spot[|spot| - 1];
      var h := HoldingOf(last, earn);
      match RowsOf(spot[..|spot| - 1], earn)
      case Err(code) => Err(code)
      case Ok(rows) =>
        if h.free + h.locked + h.earn == 0 then Ok(rows)
        else
          match RowOf(last.asset, h)
          case Err(code) => Err(code)
          case Ok(row) => Ok(rows + [row])
  }

  predicate TimesOk(i: Inputs) {
    && i.startedAt <= i.spotAt <= i.earnAt <= i.finishedAt
    && (i.wallets.Some? ==> i.earnAt <= i.walletAt <= i.finishedAt)
  }

  function Collected(i: Inputs): Result<Payload> {
    if !SpotOk(i.letters, i.spot) then Err("spot_balance_row_invalid")
    else
      var earn := ReadPages(i.letters, SpotAssets(i.spot), i.earn, [], None, 1);
      if earn.None? then Err("flexible_earn_page_invalid")
      else if !TimesOk(i) then Err("observation_time_invalid")
      else
        match RowsOf(i.spot, earn.value)
        case Err(code) => Err(code)
        case Ok(rows) => Ok(Payload(i.startedAt, i.spotAt, i.earnAt, i.finishedAt, rows, Valued(i.wallets, i.walletAt)))
  }

  lemma {:induction false} RowsFailEarly(spot: seq<SpotRow>, earn: seq<EarnRow>, n: nat)
    requires n <= |spot|
    requires forall i :: 0 <= i < |spot| ==> ReadAmount(spot[i].free).Some? && ReadAmount(spot[i].locked).Some?
    ensures RowsOf(spot[..n], earn).Err? ==> RowsOf(spot, earn) == RowsOf(spot[..n], earn)
    decreases |spot|
  {
    hide ReadAmount;
    hide RowOf;
    if n < |spot| {
      RowsFailEarly(spot[..|spot| - 1], earn, n);
      assert spot[..|spot| - 1][..n] == spot[..n];
    } else {
      assert spot[..n] == spot;
    }
  }

  /** The sum of an asset's parts in the 100-digit context. */
  lemma QuantityIsExact(row: SpotRow, earn: seq<EarnRow>)
    requires ReadAmount(row.free).Some? && ReadAmount(row.locked).Some? && |earn| <= MAX_EARN_POSITIONS
    ensures var h := HoldingOf(row, earn); Plus(Plus(h.free, h.locked), h.earn) == h.free + h.locked + h.earn
  {
    hide Fits;
    hide Plus;
    hide EarnOf;
    UnitsKeepValue(row.free.value);
    UnitsKeepValue(row.locked.value);
    EarnBounds(earn, row.asset);
    hide Units;
    var h := HoldingOf(row, earn);
    PlusIsExact(h.free, h.locked);
    PlusIsExact(h.free + h.locked, h.earn);
  }

  /** The row loop: quantities are summed, empty assets skipped, the rest printed. */
  method BuildRows(spot: seq<SpotRow>, earn: seq<EarnRow>, sums: map<string, int>) returns (r: Result<seq<AssetRow>>)
    requires forall i :: 0 <= i < |spot| ==> ReadAmount(spot[i].free).Some? && ReadAmount(spot[i].locked).Some?
    requires |earn| <= MAX_EARN_POSITIONS
    requires sums.Keys == SpotAssets(spot) && forall a :: a in sums ==> sums[a] == EarnOf(earn, a)
    ensures r == RowsOf(spot, earn)
  {
    hide ReadAmount;
    hide TextOf;
    hide Plus;
    hide EarnOf;
    var rows: seq<AssetRow> := [];
    for i := 0 to |spot|
      invariant RowsOf(spot[..i], earn) == Ok(rows)
    {
      var row := spot[i];
      assert spot[..i + 1][..i] == spot[..i];
      RowsFailEarly(spot, earn, i + 1);
      QuantityIsExact(row, earn);
      assert row.asset in SpotAssets(spot);
      var free, locked, flexible := ReadAmount(row.free).value, ReadAmount(row.locked).value, sums[row.asset];
      var quantity := Plus(Plus(free, locked), flexible);
      if quantity != 0 {
        var quantityText, freeText, lockedText, earnText := TextOf(quantity), TextOf(free), TextOf(locked),
          TextOf(flexible);
        if quantityText.Err? || freeText.Err? || lockedText.Err? || earnText.Err? {
          return Err("amount_invalid");
        }
        rows := rows + [AssetRow(row.asset, quantityText.value, freeText.value, lockedText.value, earnText.value)];
      }
    }
    assert spot[..|spot|] == spot;
    r := Ok(rows);
  }

  /** `collect_account_facts` */
  method Collect(i: Inputs) returns (r: Result<Payload>)
    ensures r == Collected(i)
  {
    hide RowsOf;
    hide ReadPages;
    hide Valued;
    if !SpotOk(i.letters, i.spot) {
      return Err("spot_balance_row_invalid");
    }
    var earn, sums := ReadEarn(i.letters, SpotAssets(i.spot), i.earn);
    if earn.None? {
      return Err("flexible_earn_page_invalid");
    }
    var count := PagesAreCounted(i.letters, SpotAssets(i.spot), i.earn, [], None, 1);
    var valuation := ValueWallets(i.wallets, i.walletAt);
    if !TimesOk(i) {
      return Err("observation_time_invalid");
    }
    var rows := BuildRows(i.spot, earn.value, sums);
    if rows.Err? {
      return Err(rows.code);
    }
    r := Ok(Payload(i.startedAt, i.spotAt, i.earnAt, i.finishedAt, rows.value, valuation));
  }

  // ---- The validator --------------------------------------------------------------------------

  /** A text the validator takes: it reads as a printable number and is that number's own text. */
  predicate Canonical(t: string) {
    |t| <= 80 && Parse(t).Some? && Fits(Parse(t).value) && Text(Parse(t).value) == Ok(t)
  }

  function UnitsOfText(t: string): int
    requires Canonical(t)
  {
    Units(Parse(t).value)
  }

  predicate ValidRow(letters: char -> bool, row: AssetRow) {
    && ValidAsset(letters, row.asset)
    && Canonical(row.quantity) && Canonical(row.free) && Canonical(row.locked) && Canonical(row.earn)
    && UnitsOfText(row.quantity) != 0
    && UnitsOfText(row.quantity) == UnitsOfText(row.free) + UnitsOfText(row.locked) + UnitsOfText(row.earn)
  }

  predicate DistinctAssets(rows: seq<AssetRow>) {
    forall i, j :: 0 <= i < j < |rows| ==> rows[i].asset != rows[j].asset
  }

  predicate ValidValuation(v: Valuation) {
    match v
    case Available(amount, _, count) => 1 <= count <= MAX_WALLET_ROWS && InGrammar(amount) && Canonical(amount)
    case Unavailable(code) =>
      code in {"wallet_read_failed", "wallet_response_invalid", "wallet_row_invalid", "wallet_duplicate_name",
               "wallet_inactive_nonzero", "wallet_balance_invalid"}
  }

  /** `validate_account_facts_payload` accepts. */
  predicate ValidPayload(letters: char -> bool, p: Payload) {
    && p.startedAt <= p.spotAt <= p.earnAt <= p.finishedAt
    && (forall k :: 0 <= k < |p.assets| ==> ValidRow(letters, p.assets[k])) && DistinctAssets(p.assets)
    && ValidValuation(p.valuation)
    && (p.valuation.Available? ==> p.earnAt <= p.valuation.observedAt <= p.finishedAt)
  }

  lemma GrammarIsShort(s: string)
    requires InGrammar(s)
    ensures |s| <= 61
  {
  }

  /** Whatever is printed is canonical and stands for the number printed. */
  lemma PrintedIsCanonical(x: int)
    requires TextOf(x).Ok?
    ensures Canonical(TextOf(x).value) && UnitsOfText(TextOf(x).value) == x && InGrammar(TextOf(x).value)
  {
    TextReadsBack(FromUnits(x));
    TextOfReadsBack(x);
    GrammarIsShort(TextOf(x).value);
    hide InGrammar;
    hide Parse;
  }

  lemma PrintedRowIsValid(letters: char -> bool, asset: string, h: Holding)
    requires RowOf(asset, h).Ok? && ValidAsset(letters, asset) && h.free + h.locked + h.earn != 0
    ensures ValidRow(letters, RowOf(asset, h).value)
  {
    hide TextOf;
    hide Canonical;
    hide UnitsOfText;
    PrintedIsCanonical(h.free + h.locked + h.earn);
    PrintedIsCanonical(h.free);
    PrintedIsCanonical(h.locked);
    PrintedIsCanonical(h.earn);
  }

  predicate RowsValid(letters: char -> bool, rows: seq<AssetRow>) {
    (forall k :: 0 <= k < |rows| ==> ValidRow(letters, rows[k])) && DistinctAssets(rows)
  }

  lemma {:induction false} BuiltRowsAreValid(letters: char -> bool, spot: seq<SpotRow>, earn: seq<EarnRow>)
    requires SpotOk(letters, spot) && RowsOf(spot, earn).Ok?
    ensures RowsValid(letters, RowsOf(spot, earn).value)
    ensures forall k :: 0 <= k < |RowsOf(spot, earn).value| ==> RowsOf(spot, earn).value[k].asset in SpotAssets(spot)
  {
    hide ValidRow;
    hide ValidAsset;
    hide ReadAmount;
    hide RowOf;
    if spot != [] {
      var n := |spot| - 1;
      var last, before := spot[n], spot[..n];
      assert forall k :: 0 <= k < n ==> before[k] == spot[k];
      BuiltRowsAreValid(letters, before, earn);
      NewAsset(spot);
      var h := HoldingOf(last, earn);
      if h.free + h.locked + h.earn != 0 {
        PrintedRowIsValid(letters, last.asset, h);
        RowNamesAsset(last.asset, h);
      }
    }
  }

  lemma RowNamesAsset(asset: string, h: Holding)
    requires RowOf(asset, h).Ok?
    ensures RowOf(asset, h).value.asset == asset
  {
  }

  lemma NewAsset(spot: seq<SpotRow>)
    requires spot != [] && forall i, j :: 0 <= i < j < |spot| ==> spot[i].asset != spot[j].asset
    ensures spot[|spot| - 1].asset !in SpotAssets(spot[..|spot| - 1])
    ensures SpotAssets(spot) == SpotAssets(spot[..|spot| - 1]) + {spot[|spot| - 1].asset}
  {
    var n := |spot| - 1;
    assert forall k :: 0 <= k < n ==> spot[..n][k] == spot[k];
    forall a | a in SpotAssets(spot) ensures a in SpotAssets(spot[..n]) + {spot[n].asset} {
      var k :| 0 <= k < |spot| && spot[k].asset == a;
      assert k < n ==> spot[..n][k].asset == a;
    }
    forall a | a in SpotAssets(spot[..n]) ensures a in SpotAssets(spot) {
      var k :| 0 <= k < n && spot[..n][k].asset == a;
      assert spot[k].asset == a;
    }
  }

  lemma {:induction false} WalletCodes(rows: seq<WalletRow>)
    requires WalletTotal(rows).Err?
    ensures ValidValuation(Unavailable(WalletTotal(rows).code))
  {
    hide WalletAmount;
    hide NotBlank;
    if rows != [] && WalletTotal(rows[..|rows| - 1]).Err? {
      WalletCodes(rows[..|rows| - 1]);
    }
  }

  lemma ValuedIsValid(reply: Option<seq<WalletRow>>, at: int)
    ensures ValidValuation(Valued(reply, at))
  {
    hide TextOf;
    if reply.Some? && 1 <= |reply.value| <= MAX_WALLET_ROWS {
      if WalletTotal(reply.value).Err? {
        WalletCodes(reply.value);
      } else if TextOf(WalletTotal(reply.value).value).Ok? {
        PrintedIsCanonical(WalletTotal(reply.value).value);
      }
    }
    hide WalletTotal;
    hide Canonical;
    hide InGrammar;
  }

  // ---- Main results ---------------------------------------------------------------------------

  lemma ValuedAtItsTime(reply: Option<seq<WalletRow>>, at: int)
    ensures Valued(reply, at).Available? ==> reply.Some? && Valued(reply, at).observedAt == at
  {
    hide TextOf;
    hide WalletTotal;
  }

  /** Every payload the collector returns is accepted by the validator. */
  lemma CollectedIsValid(i: Inputs)
    requires Collected(i).Ok?
    ensures ValidPayload(i.letters, Collected(i).value)
  {
    hide ValidRow;
    hide ValidValuation;
    hide RowsOf;
    hide ReadPages;
    hide Valued;
    hide ReadAmount;
    hide ValidAsset;
    var earn := ReadPages(i.letters, SpotAssets(i.spot), i.earn, [], None, 1).value;
    BuiltRowsAreValid(i.letters, i.spot, earn);
    ValuedIsValid(i.wallets, i.walletAt);
    ValuedAtItsTime(i.wallets, i.walletAt);
  }

  /**
  What a payload counts: the Earn rows of consecutive pages from the first on, every product once, as
  many as each of these pages announced; and a listed asset's quantity is its Spot parts plus its Earn rows.
  */
  lemma EachProductCountedOnce(i: Inputs) returns (pages: nat, earn: seq<EarnRow>)
    requires Collected(i).Ok?
    ensures 1 <= pages <= 101 && earn == Pages(i.earn, 1, pages) && DistinctProducts(earn)
    ensures forall k :: 1 <= k <= pages ==> i.earn(k).EarnPage? && i.earn(k).total == |earn|
    ensures SpotOk(i.letters, i.spot) && RowsOf(i.spot, earn) == Ok(Collected(i).value.assets)
  {
    earn := ReadPages(i.letters, SpotAssets(i.spot), i.earn, [], None, 1).value;
    pages := PagesAreCounted(i.letters, SpotAssets(i.spot), i.earn, [], None, 1);
    assert [] + Pages(i.earn, 1, pages) == Pages(i.earn, 1, pages);
  }
}

/**
application/forward_reconciliation.py: paged receipts, native wallet inventories, the signed legs of
events, and the report that compares opening, movements and closing of four wallets. Amounts are
integers in units of 10^-30, times microseconds; the content digest of a page is its rows.
*/
module ForwardReport {
  import opened Outcomes
  import opened Amounts
  import opened Precision

  // ---- Receipts -----------------------------------------------------------------------------------

  datatype Page<T> = Page(
    number: int, size: int, count: int, total: int, binding: string, revision: string,
    startedAt: int, finishedAt: int, content: seq<T>)

  datatype Receipt<T> = Receipt(
    binding: string, sourceAsOf: int, startedAt: int, finishedAt: int, revision: string, pages: seq<Page<T>>)

  predicate IsOpaque(s: string) {
    0 < |s| <= 128 && s[0] != ' ' && s[|s| - 1] != ' '
  }

  function Min(a: int, b: int): int {
    if a <= b then a else b
  }

  /** Page `k`, with `consumed` rows before it and capture times not before `since`. */
  predicate PageOk<T(==)>(r: Receipt<T>, k: nat, rows: seq<T>, consumed: nat, since: int)
    requires k < |r.pages| && consumed <= |rows|
  {
    var p := r.pages[k];
    && p.number == k + 1
    && 1 <= p.size <= 1000 && 0 <= p.count <= p.size && 0 <= p.total <= 10_000
    && p.binding == r.binding && p.revision == r.revision
    && since <= p.startedAt <= p.finishedAt <= r.finishedAt
    && p.total == |rows| && p.count == Min(p.size, |rows| - consumed)
    && (k == 0 || consumed < p.total)
    && p.content == rows[consumed..consumed + p.count]
  }

  /** The pages from `k` on are accepted and consume the rest of the rows. */
  predicate PagesOk<T(==)>(r: Receipt<T>, k: nat, rows: seq<T>, consumed: nat, since: int)
    requires k <= |r.pages| && consumed <= |rows|
    decreases |r.pages| - k
  {
    if k == |r.pages| then consumed == |rows|
    else
      && PageOk(r, k, rows, consumed, since)
      && PagesOk(r, k + 1, rows, consumed + r.pages[k].count, r.pages[k].finishedAt)
  }

  /** `_receipt` */
  predicate ReceiptOk<T(==)>(receipt: Option<Receipt<T>>, binding: string, cutoff: int, rows: seq<T>) {
    && receipt.Some?
    && var r := receipt.value;
    && r.binding == binding && r.sourceAsOf == cutoff
    && r.startedAt <= r.finishedAt && cutoff <= r.finishedAt
    && IsOpaque(r.revision) && 1 <= |r.pages| <= 1000
    && PagesOk(r, 0, rows, 0, r.startedAt)
  }

  /** `_receipt` as a loop. */
  method CheckReceipt<T(==)>(receipt: Option<Receipt<T>>, binding: string, cutoff: int, rows: seq<T>) returns (ok: bool)
    ensures ok <==> ReceiptOk(receipt, binding, cutoff, rows)
  {
    if receipt.None? {
      return false;
    }
    var r := receipt.value;
    if r.binding != binding || r.sourceAsOf != cutoff || r.finishedAt < r.startedAt || r.finishedAt < cutoff
       || !IsOpaque(r.revision) || r.pages == [] || |r.pages| > 1000 {
      return false;
    }
    var consumed: nat, since := 0, r.startedAt;
    for k := 0 to |r.pages|
      invariant consumed <= |rows|
      invariant PagesOk(r, 0, rows, 0, r.startedAt) <==> PagesOk(r, k, rows, consumed, since)
    {
      if !PageOk(r, k, rows, consumed, since) {
        return false;
      }
      consumed, since := consumed + r.pages[k].count, r.pages[k].finishedAt;
    }
    ok := consumed == |rows|;
  }

  function Contents<T>(pages: seq<Page<T>>): seq<T> {
    if pages == [] then [] else pages[0].content + Contents(pages[1..])
  }

  /** Accepted pages cut the rows into consecutive pieces: together they are the rows, each once, in order. */
  lemma {:induction false} PagesPartition<T>(r: Receipt<T>, k: nat, rows: seq<T>, consumed: nat, since: int)
    requires k <= |r.pages| && consumed <= |rows| && PagesOk(r, k, rows, consumed, since)
    ensures Contents(r.pages[k..]) == rows[consumed..]
    decreases |r.pages| - k
  {
    if k < |r.pages| {
      var p := r.pages[k];
      PagesPartition(r, k + 1, rows, consumed + p.count, p.finishedAt);
      assert r.pages[k..][1..] == r.pages[k + 1..];
      assert rows[consumed..] == rows[consumed..consumed + p.count] + rows[consumed + p.count..];
    }
  }

  lemma ReceiptPartitionsRows<T>(receipt: Receipt<T>, binding: string, cutoff: int, rows: seq<T>)
    requires ReceiptOk(Some(receipt), binding, cutoff, rows)
    ensures Contents(receipt.pages) == rows
  {
    PagesPartition(receipt, 0, rows, 0, receipt.startedAt);
    assert receipt.pages[0..] == receipt.pages && rows[0..] == rows;
  }

  // ---- Wallets ------------------------------------------------------------------------------------

  datatype Wallet = Spot | Funding | FlexibleEarn | LockedEarn

  const WALLETS: seq<Wallet> := [Spot, Funding, FlexibleEarn, LockedEarn]

  type Asset = string

  predicate ValidAsset(a: Asset) {
    1 <= |a| <= 20 && forall k :: 0 <= k < |a| ==> 'A' <= a[k] <= 'Z' || '0' <= a[k] <= '9'
  }

  /** Thirty digits before the point, thirty after. */
  predicate ValidAmount(x: int) {
    0 <= x < LIMIT
  }

  /** A native row; Spot has `free` and `locked`, Earn an identity and an amount (in `free`). */
  datatype NativeRow = NativeRow(
    asset: Asset, free: int, locked: int, freeze: int, withdrawing: int, identity: string, unsupported: bool)

  predicate IsEarn(w: Wallet) {
    w.FlexibleEarn? || w.LockedEarn?
  }

  /** What a row holds; None when it is not acceptable in that wallet. */
  function RowQuantity(w: Wallet, row: NativeRow): Option<int> {
    match w
    case Spot => if ValidAmount(row.free) && ValidAmount(row.locked) then Some(row.free + row.locked) else None
    case Funding =>
      if ValidAmount(row.free) && ValidAmount(row.locked) && ValidAmount(row.freeze) && row.withdrawing == 0 then
        Some(row.free + row.locked + row.freeze)
      else None
    case _ => if IsOpaque(row.identity) && !row.unsupported && ValidAmount(row.free) then Some(row.free) else None
  }

  /** The key under which a row may occur only once: its asset, or its product or position. */
  function RowKey(w: Wallet, row: NativeRow): string {
    if IsEarn(w) then row.identity else row.asset
  }

  predicate RowsOk(w: Wallet, rows: seq<NativeRow>) {
    && (forall i :: 0 <= i < |rows| ==> ValidAsset(rows[i].asset) && RowQuantity(w, rows[i]).Some?)
    && (forall i, j :: 0 <= i < j < |rows| ==> RowKey(w, rows[i]) != RowKey(w, rows[j]))
  }

  function QuantityIn(w: Wallet, rows: seq<NativeRow>, a: Asset): int {
    if rows == [] then 0
    else
      var last := rows[|rows| - 1];
      QuantityIn(w, rows[..|rows| - 1], a)
      + (if last.asset == a && RowQuantity(w, last).Some? then RowQuantity(w, last).value else 0)
  }

  function AssetsIn(rows: seq<NativeRow>): set<Asset> {
    set i | 0 <= i < |rows| :: rows[i].asset
  }

  /** The balances that native rows stand for: every asset listed, with the sum of its rows. */
  function Balances(w: Wallet, rows: seq<NativeRow>): map<Asset, int> {
    map a | a in AssetsIn(rows) :: QuantityIn(w, rows, a)
  }

  lemma {:induction false} QuantityBounds(w: Wallet, rows: seq<NativeRow>, a: Asset)
    ensures 0 <= QuantityIn(w, rows, a) <= 3 * |rows| * LIMIT
  {
    if rows != [] {
      QuantityBounds(w, rows[..|rows| - 1], a);
    }
  }

  /** `_native_balances`: one pass, adding each row to its asset. */
  method NativeBalances(w: Wallet, rows: seq<NativeRow>) returns (r: Option<map<Asset, int>>)
    ensures r == if |rows| <= 10_000 && RowsOk(w, rows) then Some(Balances(w, rows)) else None
  {
    hide RowQuantity;
    hide ValidAsset;
    hide Balances;
    hide RowsOk;
    hide Plus;
    if |rows| > 10_000 {
      return None;
    }
    var balances: map<Asset, int>, keys: set<string> := map[], {};
    NoRows(w);
    for i := 0 to |rows|
      invariant RowsOk(w, rows[..i]) && balances == Balances(w, rows[..i]) && keys == KeysOf(w, rows[..i])
    {
      var row := rows[i];
      var quantity := RowQuantity(w, row);
      OneMoreRow(w, rows, i);
      if !ValidAsset(row.asset) || quantity.None? || RowKey(w, row) in keys {
        return None;
      }
      keys := keys + {RowKey(w, row)};
      var known := if row.asset in balances then balances[row.asset] else 0;
      KnownSoFar(w, rows[..i], row.asset);
      AddingIsExact(w, rows, i);
      BalancesGrow(w, rows, i);
      balances := balances[row.asset := Plus(known, quantity.value)];
    }
    assert rows[..|rows|] == rows;
    r := Some(balances);
  }

  function KeysOf(w: Wallet, rows: seq<NativeRow>): set<string> {
    set i | 0 <= i < |rows| :: RowKey(w, rows[i])
  }

  lemma NoRows(w: Wallet)
    ensures RowsOk(w, []) && Balances(w, []) == map[] && KeysOf(w, []) == {}
  {
  }

  /** Row `i` is acceptable after the rows before it, or the whole inventory is refused. */
  lemma OneMoreRow(w: Wallet, rows: seq<NativeRow>, i: nat)
    requires i < |rows| && RowsOk(w, rows[..i])
    ensures var ok := ValidAsset(rows[i].asset) && RowQuantity(w, rows[i]).Some?
            && RowKey(w, rows[i]) !in KeysOf(w, rows[..i]);
            && (ok ==>
              RowsOk(w, rows[..i + 1]) && KeysOf(w, rows[..i + 1]) == KeysOf(w, rows[..i]) + {RowKey(w, rows[i])})
            && (!ok ==> !RowsOk(w, rows))
  {
    hide RowQuantity;
    hide ValidAsset;
    hide RowKey;
    assert forall k :: 0 <= k < i ==> rows[..i][k] == rows[k] && rows[..i + 1][k] == rows[k];
    assert rows[..i + 1][i] == rows[i];
    if RowKey(w, rows[i]) in KeysOf(w, rows[..i]) {
      var j :| 0 <= j < i && RowKey(w, rows[..i][j]) == RowKey(w, rows[i]);
      assert RowKey(w, rows[j]) == RowKey(w, rows[i]);
    }
  }

  lemma KnownSoFar(w: Wallet, rows: seq<NativeRow>, a: Asset)
    ensures a in Balances(w, rows) <==> a in AssetsIn(rows)
    ensures (if a in Balances(w, rows) then Balances(w, rows)[a] else 0) == QuantityIn(w, rows, a)
  {
    if a !in AssetsIn(rows) {
      AbsentAssetIsZero(w, rows, a);
    }
  }

  lemma AddingIsExact(w: Wallet, rows: seq<NativeRow>, i: nat)
    requires i < |rows| <= 10_000 && RowQuantity(w, rows[i]).Some?
    ensures var known, q := QuantityIn(w, rows[..i], rows[i].asset), RowQuantity(w, rows[i]).value;
            Plus(known, q) == known + q
  {
    QuantityBounds(w, rows[..i], rows[i].asset);
    PlusIsExact(QuantityIn(w, rows[..i], rows[i].asset), RowQuantity(w, rows[i]).value);
    hide Plus;
    hide QuantityIn;
  }

  lemma BalancesGrow(w: Wallet, rows: seq<NativeRow>, i: nat)
    requires i < |rows| && RowQuantity(w, rows[i]).Some?
    ensures Balances(w, rows[..i + 1]) ==
            Balances(w, rows[..i])[rows[i].asset := QuantityIn(w, rows[..i], rows[i].asset)
              + RowQuantity(w, rows[i]).value]
  {
    hide RowQuantity;
    var before, after := rows[..i], rows[..i + 1];
    assert after[..i] == before;
    assert AssetsIn(after) == AssetsIn(before) + {rows[i].asset} by {
      assert forall k :: 0 <= k < i ==> after[k] == before[k];
      assert after[i] == rows[i];
    }
  }

  lemma {:induction false} AbsentAssetIsZero(w: Wallet, rows: seq<NativeRow>, a: Asset)
    requires a !in AssetsIn(rows)
    ensures QuantityIn(w, rows, a) == 0
  {
    if rows != [] {
      assert forall i :: 0 <= i < |rows| - 1 ==> rows[..|rows| - 1][i] == rows[i];
      AbsentAssetIsZero(w, rows[..|rows| - 1], a);
    }
  }

  // ---- Events and legs ----------------------------------------------------------------------------

  datatype Kind =
    | Fill | Deposit | Withdrawal | Reward | Convert | Dust | Transfer
    | FlexibleSubscription | FlexibleRedemption | LockedSubscription | LockedRedemption | Unsupported

  datatype Surface =
    Fills | Deposits | Withdrawals | Rewards | Converts | Dusts | Transfers | FlexibleLifecycle | LockedLifecycle

  const SURFACES: seq<Surface> :=
    [Fills, Deposits, Withdrawals, Rewards, Converts, Dusts, Transfers, FlexibleLifecycle, LockedLifecycle]

  function SurfaceOf(kind: Kind): Option<Surface> {
    match kind
    case Fill => Some(Fills)
    case Deposit => Some(Deposits)
    case Withdrawal => Some(Withdrawals)
    case Reward => Some(Rewards)
    case Convert => Some(Converts)
    case Dust => Some(Dusts)
    case Transfer => Some(Transfers)
    case FlexibleSubscription => Some(FlexibleLifecycle)
    case FlexibleRedemption => Some(FlexibleLifecycle)
    case LockedSubscription => Some(LockedLifecycle)
    case LockedRedemption => Some(LockedLifecycle)
    case Unsupported => None
  }

  /** A native event; a wallet outside the four is None. */
  datatype Event = Event(
    kind: Kind, id: string, at: int, success: bool,
    source: Option<Wallet>, destination: Option<Wallet>, wallet: Option<Wallet>,
    asset: Asset, quantity: int, fromAsset: Asset, fromQuantity: int, toAsset: Asset, toQuantity: int,
    feeAsset: Asset, feeQuantity: int, additionalDebit: bool)

  datatype Leg = Leg(wallet: Wallet, asset: Asset, quantity: int)

  /** Moves inside the account: a transfer, or a subscription or redemption between Spot and an Earn wallet. */
  predicate Internal(kind: Kind) {
    kind in {Transfer, FlexibleSubscription, FlexibleRedemption, LockedSubscription, LockedRedemption}
  }

  predicate RouteOk(e: Event) {
    && e.source.Some? && e.destination.Some? && e.source != e.destination
    && (e.kind == FlexibleSubscription ==> e.source.value == Spot && e.destination.value == FlexibleEarn)
    && (e.kind == FlexibleRedemption ==> e.source.value == FlexibleEarn && e.destination.value == Spot)
    && (e.kind == LockedSubscription ==> e.source.value == Spot && e.destination.value == LockedEarn)
    && (e.kind == LockedRedemption ==> e.source.value == LockedEarn && e.destination.value == Spot)
  }

  predicate Positive(x: int) {
    ValidAmount(x) && x > 0
  }

  /** `_legs`; None when the event is not proven. */
  function Legs(e: Event): Option<seq<Leg>> {
    if !e.success then None
    else if Internal(e.kind) then
      if RouteOk(e) && Positive(e.quantity) && ValidAsset(e.asset) && e.feeQuantity == 0 then
        Some([Leg(e.source.value, e.asset, -e.quantity), Leg(e.destination.value, e.asset, e.quantity)])
      else None
    else if e.kind in {Fill, Convert, Dust} then
      if e.fromAsset != e.toAsset && Positive(e.fromQuantity) && Positive(e.toQuantity) && e.additionalDebit
         && e.wallet.Some? && ValidAsset(e.fromAsset) && ValidAsset(e.toAsset) && ValidAsset(e.feeAsset)
         && ValidAmount(e.feeQuantity) then
        Some([Leg(e.wallet.value, e.fromAsset, -e.fromQuantity), Leg(e.wallet.value, e.toAsset, e.toQuantity),
              Leg(e.wallet.value, e.feeAsset, -e.feeQuantity)])
      else None
    else if !Positive(e.quantity) || e.wallet.None? || !ValidAsset(e.asset) then None
    else if e.kind == Withdrawal then
      if e.additionalDebit && ValidAsset(e.feeAsset) && ValidAmount(e.feeQuantity) then
        Some([Leg(e.wallet.value, e.asset, -e.quantity), Leg(e.wallet.value, e.feeAsset, -e.feeQuantity)])
      else None
    else Some([Leg(e.wallet.value, e.asset, e.quantity)])
  }

  /** The movement of one asset in one wallet. */
  function Movement(legs: seq<Leg>, w: Wallet, a: Asset): int {
    if legs == [] then 0
    else
      var last := legs[|legs| - 1];
      Movement(legs[..|legs| - 1], w, a) + (if last.wallet == w && last.asset == a then last.quantity else 0)
  }

  function Combined(legs: seq<Leg>, a: Asset): int {
    Movement(legs, Spot, a) + Movement(legs, Funding, a) + Movement(legs, FlexibleEarn, a)
      + Movement(legs, LockedEarn, a)
  }

  lemma {:induction false} MovementOfBoth(a: seq<Leg>, b: seq<Leg>, w: Wallet, x: Asset)
    ensures Movement(a + b, w, x) == Movement(a, w, x) + Movement(b, w, x)
    decreases |b|
  {
    if b == [] {
      assert a + b == a;
    } else {
      assert (a + b)[..|a + b| - 1] == a + b[..|b| - 1];
      MovementOfBoth(a, b[..|b| - 1], w, x);
    }
  }

  /** A transfer or an Earn subscription or redemption moves nothing in or out of the account. */
  lemma InternalEventsCancel(e: Event, a: Asset)
    requires Internal(e.kind) && Legs(e).Some?
    ensures Combined(Legs(e).value, a) == 0
  {
    var legs := Legs(e).value;
    assert legs[..1] == [legs[0]] && legs[..1][..0] == [];
    forall w ensures Movement(legs, w, a) ==
                     (if legs[0].wallet == w && legs[0].asset == a then legs[0].quantity else 0)
                     + (if legs[1].wallet == w && legs[1].asset == a then legs[1].quantity else 0)
    {
      assert Movement(legs[..1], w, a)
             == Movement(legs[..1][..0], w, a)
             + (if legs[0].wallet == w && legs[0].asset == a then legs[0].quantity else 0);
    }
  }

  /** What the event loop has gathered: whether all were proven, the legs of those that were, the ids. */
  datatype Reading = Reading(proven: bool, legs: seq<Leg>, seen: set<(Surface, string)>)

  predicate Acceptable(r: Reading, e: Event, since: int, until: int) {
    && SurfaceOf(e.kind).Some? && IsOpaque(e.id)
    && (SurfaceOf(e.kind).value, e.id) !in r.seen
    && since < e.at <= until && Legs(e).Some?
  }

  /** An unproven event still uses up its identity when that part of it was in order. */
  function ReadEvent(r: Reading, e: Event, since: int, until: int): Reading {
    var named := SurfaceOf(e.kind).Some? && IsOpaque(e.id);
    var seen := if named then r.seen + {(SurfaceOf(e.kind).value, e.id)} else r.seen;
    if Acceptable(r, e, since, until) then Reading(r.proven, r.legs + Legs(e).value, seen)
    else Reading(false, r.legs, seen)
  }

  function ReadEvents(events: seq<Event>, since: int, until: int): Reading {
    if events == [] then Reading(true, [], {})
    else ReadEvent(ReadEvents(events[..|events| - 1], since, until), events[|events| - 1], since, until)
  }

  function OfSurface(events: seq<Event>, s: Surface): seq<Event> {
    if events == [] then []
    else
      var last := events[|events| - 1];
      OfSurface(events[..|events| - 1], s) + (if SurfaceOf(last.kind) == Some(s) then [last] else [])
  }

  /** The external events alone. */
  function External(events: seq<Event>): seq<Event> {
    if events == [] then []
    else
      var last := events[|events| - 1];
      External(events[..|events| - 1]) + (if Internal(last.kind) then [] else [last])
  }

  function AllLegs(events: seq<Event>): seq<Leg> {
    if events == [] then []
    else
      var last := events[|events| - 1];
      AllLegs(events[..|events| - 1]) + (if Legs(last).Some? then Legs(last).value else [])
  }

  /** In the combined movement of the account only deposits, withdrawals, rewards and exchanges are left. */
  lemma {:induction false} CombinedIsExternal(events: seq<Event>, a: Asset)
    ensures Combined(AllLegs(events), a) == Combined(AllLegs(External(events)), a)
  {
    hide Legs;
    hide Internal;
    if events != [] {
      var n := |events| - 1;
      var e, before := events[n], events[..n];
      CombinedIsExternal(before, a);
      var legs := if Legs(e).Some? then Legs(e).value else [];
      CombinedOfBoth(AllLegs(before), legs, a);
      if Internal(e.kind) {
        if Legs(e).Some? {
          InternalEventsCancel(e, a);
        }
        assert External(events) == External(before) + [] == External(before);
      } else {
        assert External(events)[..|External(before)|] == External(before);
        CombinedOfBoth(AllLegs(External(before)), legs, a);
      }
    }
  }

  lemma CombinedOfBoth(x: seq<Leg>, y: seq<Leg>, a: Asset)
    ensures Combined(x + y, a) == Combined(x, a) + Combined(y, a)
  {
    MovementOfBoth(x, y, Spot, a);
    MovementOfBoth(x, y, Funding, a);
    MovementOfBoth(x, y, FlexibleEarn, a);
    MovementOfBoth(x, y, LockedEarn, a);
  }

  /** When every event is proven the legs gathered are those of the events, within the window. */
  lemma {:induction false} ProvenReading(events: seq<Event>, since: int, until: int)
    requires ReadEvents(events, since, until).proven
    ensures ReadEvents(events, since, until).legs == AllLegs(events)
    ensures forall i :: 0 <= i < |events| ==> since < events[i].at <= until && Legs(events[i]).Some?
  {
    hide Legs;
    if events != [] {
      ProvenReading(events[..|events| - 1], since, until);
      assert forall i :: 0 <= i < |events| - 1 ==> events[..|events| - 1][i] == events[i];
    }
  }

  // ---- Inputs -------------------------------------------------------------------------------------

  /** 2026-11-03T00:00:00Z */
  const PROGRAM_START: int := 1_793_664_000_000_000

  const DAY: int := 86_400_000_000

  datatype WalletInput = WalletInput(rows: seq<NativeRow>, receipt: Option<Receipt<NativeRow>>)

  datatype Snapshot = Snapshot(account: string, binding: string, asOf: int, wallets: map<Wallet, WalletInput>)

  datatype Coverage = Coverage(receipt: Receipt<Event>, startExclusive: int, endInclusive: int, universe: string)

  datatype Inputs = Inputs(
    account: string, binding: string, anchor: int, previous: int, cutoff: int,
    opening: Option<Snapshot>, closing: Option<Snapshot>, events: Option<seq<Event>>, receipts: map<Surface, Coverage>)

  predicate WindowOk(i: Inputs) {
    PROGRAM_START <= i.anchor <= i.previous < i.cutoff && i.cutoff - i.previous <= DAY
  }

  datatype Side = OpeningSide | ClosingSide

  function SnapshotOf(i: Inputs, side: Side): Option<Snapshot> {
    if side.OpeningSide? then i.opening else i.closing
  }

  function TimeOf(i: Inputs, side: Side): int {
    if side.OpeningSide? then i.previous else i.cutoff
  }

  predicate SnapshotOk(i: Inputs, side: Side) {
    && SnapshotOf(i, side).Some?
    && var s := SnapshotOf(i, side).value;
    s.account == i.account && s.binding == i.binding && s.asOf == TimeOf(i, side)
  }

  /** The proven balances of a wallet at one end of the window. */
  function Inventory(i: Inputs, side: Side, w: Wallet): Option<map<Asset, int>> {
    if !SnapshotOk(i, side) || w !in SnapshotOf(i, side).value.wallets then None
    else
      var input := SnapshotOf(i, side).value.wallets[w];
      if |input.rows| <= 10_000 && RowsOk(w, input.rows)
        && ReceiptOk(input.receipt, i.binding, TimeOf(i, side), input.rows) then
        Some(Balances(w, input.rows))
      else None
  }

  predicate EventsReadable(i: Inputs) {
    i.events.Some? && |i.events.value| <= 10_000
  }

  function EventList(i: Inputs): seq<Event> {
    if EventsReadable(i) then i.events.value else []
  }

  function Read(i: Inputs): Reading {
    ReadEvents(EventList(i), i.previous, i.cutoff)
  }

  predicate CoverageOk(i: Inputs, s: Surface) {
    && s in i.receipts
    && ReceiptOk(Some(i.receipts[s].receipt), i.binding, i.cutoff, OfSurface(EventList(i), s))
    && i.receipts[s].startExclusive == i.previous && i.receipts[s].endInclusive == i.cutoff
    && i.receipts[s].universe == "all_assets"
  }

  predicate EventsProven(i: Inputs) {
    EventsReadable(i) && Read(i).proven && forall s :: s in SURFACES ==> CoverageOk(i, s)
  }

  function Held(i: Inputs, side: Side, w: Wallet): set<Asset> {
    if Inventory(i, side, w).Some? then Inventory(i, side, w).value.Keys else {}
  }

  function HeldIn(i: Inputs, side: Side): set<Asset> {
    Held(i, side, Spot) + Held(i, side, Funding) + Held(i, side, FlexibleEarn) + Held(i, side, LockedEarn)
  }

  function AssetsOf(legs: seq<Leg>): set<Asset> {
    set k | 0 <= k < |legs| :: legs[k].asset
  }

  /** Every asset that any proven inventory or any proven event mentions. */
  function Universe(i: Inputs): set<Asset> {
    HeldIn(i, OpeningSide) + HeldIn(i, ClosingSide) + AssetsOf(Read(i).legs)
  }

  // ---- The report ---------------------------------------------------------------------------------

  datatype Reason =
    | WindowInvalid
    | SnapshotUnproven(side: Side)
    | WalletUnproven(side: Side, wallet: Wallet)
    | EventsInvalid
    | EventUnproven
    | CoverageUnproven(surface: Surface)
    | AssetCoverageMissing(wallet: Wallet)
    | QuantityResidual(wallet: Wallet)

  datatype WalletRow = WalletRow(
    opening: Option<map<Asset, int>>, closing: Option<map<Asset, int>>,
    movements: Option<map<Asset, int>>, residuals: Option<map<Asset, int>>, matched: bool)

  datatype CombinedRow = CombinedRow(opening: int, closing: int, movement: int, residual: int)

  datatype Report = Report(
    reasons: set<Reason>, wallets: map<Wallet, WalletRow>, legs: seq<Leg>,
    combined: Option<map<Asset, CombinedRow>>, matched: bool)

  /** Both inventories are proven and so are the events. */
  predicate Comparable(i: Inputs, w: Wallet) {
    Inventory(i, OpeningSide, w).Some? && Inventory(i, ClosingSide, w).Some? && EventsProven(i)
  }

  predicate Covered(i: Inputs, w: Wallet)
    requires Comparable(i, w)
  {
    Universe(i) <= Held(i, OpeningSide, w) && Universe(i) <= Held(i, ClosingSide, w)
  }

  function Residual(i: Inputs, w: Wallet, a: Asset): int
    requires Comparable(i, w) && Covered(i, w) && a in Universe(i)
  {
    Inventory(i, ClosingSide, w).value[a] - Inventory(i, OpeningSide, w).value[a] - Movement(Read(i).legs, w, a)
  }

  predicate HasReason(i: Inputs, r: Reason) {
    if !WindowOk(i) then r.WindowInvalid?
    else
      match r
      case WindowInvalid => false
      case SnapshotUnproven(side) => !SnapshotOk(i, side)
      case WalletUnproven(side, w) => SnapshotOk(i, side) && Inventory(i, side, w).None?
      case EventsInvalid => !EventsReadable(i)
      case EventUnproven => EventsReadable(i) && !Read(i).proven
      case CoverageUnproven(s) => !CoverageOk(i, s)
      case AssetCoverageMissing(w) => Comparable(i, w) && !Covered(i, w)
      case QuantityResidual(w) =>
        Comparable(i, w) && Covered(i, w) && exists a :: a in Universe(i) && Residual(i, w, a) != 0
  }

  /** What the report says of one wallet. */
  function RowOf(i: Inputs, w: Wallet): WalletRow {
    var opening, closing := Inventory(i, OpeningSide, w), Inventory(i, ClosingSide, w);
    if Comparable(i, w) && Covered(i, w) then
      WalletRow(opening, closing, Some(map a | a in Universe(i) :: Movement(Read(i).legs, w, a)),
                Some(map a | a in Universe(i) :: Residual(i, w, a)),
                forall a :: a in Universe(i) ==> Residual(i, w, a) == 0)
    else WalletRow(opening, closing, None, None, false)
  }

  /** Reading the wallets of one side. */
  method ReadSide(i: Inputs, side: Side) returns (values: map<Wallet, map<Asset, int>>, reasons: set<Reason>)
    ensures forall w :: w in values <==> Inventory(i, side, w).Some?
    ensures forall w :: w in values ==> Some(values[w]) == Inventory(i, side, w)
    ensures forall r :: r in reasons <==>
              || (r == SnapshotUnproven(side) && !SnapshotOk(i, side))
              || (r.WalletUnproven? && r.side == side && SnapshotOk(i, side) && Inventory(i, side, r.wallet).None?)
  {
    values, reasons := map[], {};
    if !SnapshotOk(i, side) {
      return map[], {SnapshotUnproven(side)};
    }
    var wallets := SnapshotOf(i, side).value.wallets;
    for k := 0 to 4
      invariant forall w :: w in values <==> w in WALLETS[..k] && Inventory(i, side, w).Some?
      invariant forall w :: w in values ==> Some(values[w]) == Inventory(i, side, w)
      invariant forall r :: r in reasons <==>
                  r.WalletUnproven? && r.side == side && r.wallet in WALLETS[..k] && Inventory(i, side, r.wallet).None?
    {
      var w := WALLETS[k];
      assert WALLETS[..k + 1] == WALLETS[..k] + [w];
      var balances: Option<map<Asset, int>> := None;
      if w in wallets {
        balances := NativeBalances(w, wallets[w].rows);
        var ok := CheckReceipt(wallets[w].receipt, i.binding, TimeOf(i, side), wallets[w].rows);
        if !ok {
          balances := None;
        }
      }
      assert balances == Inventory(i, side, w);
      if balances.Some? {
        values := values[w := balances.value];
      } else {
        reasons := reasons + {WalletUnproven(side, w)};
      }
    }
    AllWallets();
  }

  lemma AllWallets()
    ensures forall w: Wallet :: w in WALLETS[..4]
  {
    var all := WALLETS[..4];
    forall w: Wallet ensures w in all {
      match w
      case Spot => assert all[0] == w;
      case Funding => assert all[1] == w;
      case FlexibleEarn => assert all[2] == w;
      case LockedEarn => assert all[3] == w;
    }
  }

  // ---- The report as code -------------------------------------------------------------------------

  /** The event loop. */
  method ReadAll(events: seq<Event>, since: int, until: int) returns (r: Reading)
    ensures r == ReadEvents(events, since, until)
  {
    hide Legs;
    var proven, legs: seq<Leg>, seen: set<(Surface, string)> := true, [], {};
    for k := 0 to |events|
      invariant Reading(proven, legs, seen) == ReadEvents(events[..k], since, until)
    {
      var e := events[k];
      assert events[..k + 1][..k] == events[..k];
      var surface, derived := SurfaceOf(e.kind), Legs(e);
      if surface.None? || !IsOpaque(e.id) {
        proven := false;
      } else if (surface.value, e.id) in seen {
        proven := false;
        assert seen + {(surface.value, e.id)} == seen;
      } else {
        seen := seen + {(surface.value, e.id)};
        if since < e.at <= until && derived.Some? {
          legs := legs + derived.value;
        } else {
          proven := false;
        }
      }
    }
    assert events[..|events|] == events;
    r := Reading(proven, legs, seen);
  }

  /** The coverage receipts of the nine surfaces. */
  method CheckCoverage(i: Inputs) returns (reasons: set<Reason>)
    ensures forall r :: r in reasons <==> r.CoverageUnproven? && !CoverageOk(i, r.surface)
  {
    reasons := {};
    AllSurfaces();
    for k := 0 to 9
      invariant forall r :: r in reasons <==>
                r.CoverageUnproven? && r.surface in SURFACES[..k] && !CoverageOk(i, r.surface)
    {
      var s := SURFACES[k];
      assert SURFACES[..k + 1] == SURFACES[..k] + [s];
      var ok := false;
      if s in i.receipts {
        var c := i.receipts[s];
        ok := CheckReceipt(Some(c.receipt), i.binding, i.cutoff, OfSurface(EventList(i), s));
        ok := ok && c.startExclusive == i.previous && c.endInclusive == i.cutoff && c.universe == "all_assets";
      }
      if !ok {
        reasons := reasons + {CoverageUnproven(s)};
      }
    }
  }

  lemma AllSurfaces()
    ensures |SURFACES| == 9 && SURFACES[..9] == SURFACES && forall s: Surface :: s in SURFACES
  {
    var all := SURFACES;
    forall s: Surface ensures s in all {
      match s
      case Fills => assert all[0] == s;
      case Deposits => assert all[1] == s;
      case Withdrawals => assert all[2] == s;
      case Rewards => assert all[3] == s;
      case Converts => assert all[4] == s;
      case Dusts => assert all[5] == s;
      case Transfers => assert all[6] == s;
      case FlexibleLifecycle => assert all[7] == s;
      case LockedLifecycle => assert all[8] == s;
    }
  }

  predicate Bounded(legs: seq<Leg>) {
    |legs| <= 30_000 && forall k :: 0 <= k < |legs| ==> -LIMIT <= legs[k].quantity <= LIMIT
  }

  lemma {:induction false} MovementBounds(legs: seq<Leg>, w: Wallet, a: Asset)
    requires Bounded(legs)
    ensures -|legs| * LIMIT <= Movement(legs, w, a) <= |legs| * LIMIT
  {
    if legs != [] {
      var n := |legs| - 1;
      assert forall k :: 0 <= k < n ==> legs[..n][k] == legs[k];
      MovementBounds(legs[..n], w, a);
    }
  }

  lemma LegsAreBounded(e: Event)
    requires Legs(e).Some?
    ensures |Legs(e).value| <= 3 && forall k :: 0 <= k < |Legs(e).value| ==>
            -LIMIT <= Legs(e).value[k].quantity <= LIMIT
  {
  }

  lemma {:induction false} ReadingIsBounded(events: seq<Event>, since: int, until: int)
    requires |events| <= 10_000
    ensures Bounded(ReadEvents(events, since, until).legs) && |ReadEvents(events, since, until).legs| <= 3 * |events|
  {
    hide Legs;
    if events != [] {
      ReadingIsBounded(events[..|events| - 1], since, until);
      if Legs(events[|events| - 1]).Some? {
        LegsAreBounded(events[|events| - 1]);
      }
    }
  }

  lemma NextLeg(legs: seq<Leg>, k: nat, w: Wallet, a: Asset)
    requires k < |legs|
    ensures Movement(legs[..k + 1], w, a) ==
            Movement(legs[..k], w, a) + (if legs[k].wallet == w && legs[k].asset == a then legs[k].quantity else 0)
  {
    assert legs[..k + 1][..k] == legs[..k];
  }

  /** Adding leg `k` to the movement before it is exact. */
  lemma NextSumIsExact(legs: seq<Leg>, k: nat, w: Wallet, a: Asset)
    requires Bounded(legs) && k < |legs|
    ensures Plus(Movement(legs[..k], w, a), legs[k].quantity) == Movement(legs[..k], w, a) + legs[k].quantity
  {
    MovementBounds(legs[..k], w, a);
    PlusIsExact(Movement(legs[..k], w, a), legs[k].quantity);
    hide Plus;
    hide Movement;
  }

  /** The movements of one wallet, leg by leg, in the 100-digit context. */
  method SumLegs(legs: seq<Leg>, w: Wallet, universe: set<Asset>) returns (deltas: map<Asset, int>)
    requires Bounded(legs) && AssetsOf(legs) <= universe
    ensures deltas.Keys == universe && forall a :: a in universe ==> deltas[a] == Movement(legs, w, a)
  {
    hide Plus;
    hide Bounded;
    deltas := map a | a in universe :: 0;
    for k := 0 to |legs|
      invariant deltas.Keys == universe && forall a :: a in universe ==> deltas[a] == Movement(legs[..k], w, a)
    {
      var leg := legs[k];
      assert leg.asset in AssetsOf(legs);
      forall a ensures Movement(legs[..k + 1], w, a) ==
                       Movement(legs[..k], w, a) + (if leg.wallet == w && leg.asset == a then leg.quantity else 0)
      {
        NextLeg(legs, k, w, a);
      }
      if leg.wallet == w {
        NextSumIsExact(legs, k, w, leg.asset);
        deltas := deltas[leg.asset := Plus(deltas[leg.asset], leg.quantity)];
      }
    }
    assert legs[..|legs|] == legs;
  }

  lemma LegsInUniverse(i: Inputs)
    ensures AssetsOf(Read(i).legs) <= Universe(i) && Bounded(Read(i).legs)
  {
    ReadingIsBounded(EventList(i), i.previous, i.cutoff);
  }

  /** A proven balance is the sum of at most 30 000 amounts. */
  lemma InventoryBounds(i: Inputs, side: Side, w: Wallet, a: Asset)
    requires Inventory(i, side, w).Some? && a in Inventory(i, side, w).value
    ensures 0 <= Inventory(i, side, w).value[a] <= 30_000 * LIMIT
  {
    var rows := SnapshotOf(i, side).value.wallets[w].rows;
    QuantityBounds(w, rows, a);
    hide ReceiptOk;
    hide RowsOk;
    hide QuantityIn;
    hide SnapshotOk;
  }

  lemma ReadBounds(i: Inputs, w: Wallet, a: Asset)
    ensures -30_000 * LIMIT <= Movement(Read(i).legs, w, a) <= 30_000 * LIMIT
  {
    ReadingIsBounded(EventList(i), i.previous, i.cutoff);
    MovementBounds(Read(i).legs, w, a);
    hide Movement;
    hide ReadEvents;
  }

  lemma ResidualIsExact(i: Inputs, w: Wallet, a: Asset)
    requires Inventory(i, OpeningSide, w).Some? && Inventory(i, ClosingSide, w).Some?
    requires a in Inventory(i, OpeningSide, w).value && a in Inventory(i, ClosingSide, w).value
    ensures var opening, closing := Inventory(i, OpeningSide, w).value[a], Inventory(i, ClosingSide, w).value[a];
            var movement := Movement(Read(i).legs, w, a);
            Plus(Plus(closing, -opening), -movement) == closing - opening - movement
  {
    hide Inventory;
    hide Read;
    hide Movement;
    hide Plus;
    InventoryBounds(i, OpeningSide, w, a);
    InventoryBounds(i, ClosingSide, w, a);
    ReadBounds(i, w, a);
    var opening, closing := Inventory(i, OpeningSide, w).value[a], Inventory(i, ClosingSide, w).value[a];
    PlusIsExact(closing, -opening);
    PlusIsExact(closing - opening, -Movement(Read(i).legs, w, a));
  }

  /** One wallet of the report, given what was read. */
  method CompareWallet(i: Inputs, w: Wallet, proven: bool, universe: set<Asset>, legs: seq<Leg>)
      returns (row: WalletRow, reasons: set<Reason>)
    requires proven == EventsProven(i) && universe == Universe(i) && legs == Read(i).legs
    ensures row == RowOf(i, w)
    ensures forall r :: r in reasons <==>
              || (r == AssetCoverageMissing(w) && Comparable(i, w) && !Covered(i, w))
              || (r == QuantityResidual(w) && Comparable(i, w) && Covered(i, w) && exists a ::
                a in Universe(i) && Residual(i, w, a) != 0)
  {
    LegsInUniverse(i);
    hide Inventory;
    hide EventsProven;
    hide Universe;
    hide Movement;
    hide AssetsOf;
    hide Bounded;
    hide Plus;
    var opening, closing := Inventory(i, OpeningSide, w), Inventory(i, ClosingSide, w);
    if opening.None? || closing.None? || !proven {
      return WalletRow(opening, closing, None, None, false), {};
    }
    if !(universe <= opening.value.Keys) || !(universe <= closing.value.Keys) {
      return WalletRow(opening, closing, None, None, false), {AssetCoverageMissing(w)};
    }
    var deltas := SumLegs(legs, w, universe);
    forall a | a in universe
      ensures Plus(Plus(closing.value[a], -opening.value[a]), -deltas[a])
              == closing.value[a] - opening.value[a] - deltas[a]
    {
      ResidualIsExact(i, w, a);
    }
    var residuals := map a | a in universe :: Plus(Plus(closing.value[a], -opening.value[a]), -deltas[a]);
    assert Comparable(i, w) && Covered(i, w);
    assert deltas == map a | a in Universe(i) :: Movement(Read(i).legs, w, a);
    assert residuals == map a | a in Universe(i) :: Residual(i, w, a);
    var matched := forall a :: a in universe ==> residuals[a] == 0;
    row := WalletRow(opening, closing, Some(deltas), Some(residuals), matched);
    reasons := if matched then {} else {QuantityResidual(w)};
  }

  predicate AllCompared(i: Inputs) {
    forall w :: w in WALLETS ==> Comparable(i, w) && Covered(i, w)
  }

  /** The four wallets of one asset added up. */
  function CombinedAt(i: Inputs, a: Asset): CombinedRow
    requires AllCompared(i) && a in Universe(i)
  {
    WalletMember();
    CombinedRow(Total(i, OpeningSide, a), Total(i, ClosingSide, a), Combined(Read(i).legs, a),
                Residual(i, Spot, a) + Residual(i, Funding, a) + Residual(i, FlexibleEarn, a)
                  + Residual(i, LockedEarn, a))
  }

  function CombinedOf(i: Inputs): Option<map<Asset, CombinedRow>> {
    if AllCompared(i) then Some(map a | a in Universe(i) :: CombinedAt(i, a)) else None
  }

  lemma WalletMember()
    ensures forall w: Wallet :: w in WALLETS
  {
    AllWallets();
    assert WALLETS[..4] == WALLETS;
  }

  function HeldOf(i: Inputs, side: Side, w: Wallet, a: Asset): int {
    if a in Held(i, side, w) then Inventory(i, side, w).value[a] else 0
  }

  function Total(i: Inputs, side: Side, a: Asset): int {
    HeldOf(i, side, Spot, a) + HeldOf(i, side, Funding, a) + HeldOf(i, side, FlexibleEarn, a)
      + HeldOf(i, side, LockedEarn, a)
  }

  /** The rows of the four wallets, and the reasons their comparison gives. */
  method CompareWallets(i: Inputs, proven: bool, legs: seq<Leg>)
      returns (wallets: map<Wallet, WalletRow>, reasons: set<Reason>)
    requires proven == EventsProven(i) && legs == Read(i).legs
    ensures forall w: Wallet :: w in wallets && wallets[w] == RowOf(i, w)
    ensures forall r :: r in reasons <==>
              || (r.AssetCoverageMissing? && Comparable(i, r.wallet) && !Covered(i, r.wallet))
              || (r.QuantityResidual? && Comparable(i, r.wallet) && Covered(i, r.wallet)
                  && exists a :: a in Universe(i) && Residual(i, r.wallet, a) != 0)
  {
    hide RowOf;
    hide Comparable;
    hide Covered;
    hide Universe;
    hide Residual;
    hide EventsProven;
    wallets, reasons := map[], {};
    var universe := Universe(i);
    for k := 0 to 4
      invariant forall w: Wallet :: w in wallets <==> w in WALLETS[..k]
      invariant forall w: Wallet :: w in wallets ==> wallets[w] == RowOf(i, w)
      invariant forall r :: r in reasons <==>
                  || (r.AssetCoverageMissing? && r.wallet in WALLETS[..k] && Comparable(i, r.wallet)
                    && !Covered(i, r.wallet))
                  || (r.QuantityResidual? && r.wallet in WALLETS[..k] && Comparable(i, r.wallet) && Covered(i, r.wallet)
                      && exists a :: a in universe && Residual(i, r.wallet, a) != 0)
    {
      var w := WALLETS[k];
      assert WALLETS[..k + 1] == WALLETS[..k] + [w];
      var row, more := CompareWallet(i, w, proven, universe, legs);
      wallets := wallets[w := row];
      reasons := reasons + more;
    }
    AllWallets();
  }

  lemma ComparedRow(i: Inputs, w: Wallet)
    ensures RowOf(i, w).residuals.Some? <==> Comparable(i, w) && Covered(i, w)
  {
    hide Universe;
    hide Inventory;
    hide EventsProven;
    hide Movement;
  }

  predicate Has(row: WalletRow, a: Asset) {
    && row.opening.Some? && row.closing.Some? && row.movements.Some? && row.residuals.Some?
    && a in row.opening.value && a in row.closing.value && a in row.movements.value && a in row.residuals.value
  }

  lemma ComparedCell(i: Inputs, w: Wallet, a: Asset)
    requires Comparable(i, w) && Covered(i, w) && a in Universe(i)
    ensures var row := RowOf(i, w);
            && Has(row, a)
            && row.opening.value[a] == HeldOf(i, OpeningSide, w, a)
              && row.closing.value[a] == HeldOf(i, ClosingSide, w, a)
            && row.movements.value[a] == Movement(Read(i).legs, w, a) && row.residuals.value[a] == Residual(i, w, a)
  {
    hide Universe;
    hide Inventory;
    hide EventsProven;
    hide Movement;
  }

  /** The sums over four rows. */
  function AddRows(s: WalletRow, f: WalletRow, x: WalletRow, l: WalletRow, a: Asset): CombinedRow
    requires Has(s, a) && Has(f, a) && Has(x, a) && Has(l, a)
  {
    CombinedRow(Sum4(s.opening.value[a], f.opening.value[a], x.opening.value[a], l.opening.value[a]),
                Sum4(s.closing.value[a], f.closing.value[a], x.closing.value[a], l.closing.value[a]),
                Sum4(s.movements.value[a], f.movements.value[a], x.movements.value[a], l.movements.value[a]),
                Sum4(s.residuals.value[a], f.residuals.value[a], x.residuals.value[a], l.residuals.value[a]))
  }

  /** `sum` over the wallets. */
  function Sum4(p: int, q: int, r: int, s: int): int {
    Plus(Plus(Plus(p, q), r), s)
  }

  predicate FewAmounts(x: int) {
    -100_000 * LIMIT <= x <= 100_000 * LIMIT
  }

  lemma Sum4IsExact(p: int, q: int, r: int, s: int)
    requires FewAmounts(p) && FewAmounts(q) && FewAmounts(r) && FewAmounts(s)
    ensures Sum4(p, q, r, s) == p + q + r + s
  {
    hide Plus;
    PlusIsExact(p, q);
    PlusIsExact(p + q, r);
    PlusIsExact(p + q + r, s);
  }

  /** What a compared row says of an asset is a sum of few enough amounts. */
  lemma CellBounds(i: Inputs, w: Wallet, a: Asset)
    requires Comparable(i, w) && Covered(i, w) && a in Universe(i)
    ensures FewAmounts(HeldOf(i, OpeningSide, w, a)) && FewAmounts(HeldOf(i, ClosingSide, w, a))
    ensures FewAmounts(Movement(Read(i).legs, w, a)) && FewAmounts(Residual(i, w, a))
  {
    hide Inventory;
    hide Universe;
    hide EventsProven;
    hide Read;
    hide Movement;
    InventoryBounds(i, OpeningSide, w, a);
    InventoryBounds(i, ClosingSide, w, a);
    ReadBounds(i, w, a);
  }

  lemma CombinedCell(i: Inputs, a: Asset)
    requires AllCompared(i) && a in Universe(i)
    ensures Has(RowOf(i, Spot), a) && Has(RowOf(i, Funding), a) && Has(RowOf(i, FlexibleEarn), a)
            && Has(RowOf(i, LockedEarn), a)
    ensures AddRows(RowOf(i, Spot), RowOf(i, Funding), RowOf(i, FlexibleEarn), RowOf(i, LockedEarn), a)
            == CombinedAt(i, a)
  {
    WalletMember();
    hide Universe;
    hide Inventory;
    hide RowOf;
    hide HeldOf;
    hide Residual;
    hide Comparable;
    hide Covered;
    hide Movement;
    hide Read;
    hide Sum4;
    hide FewAmounts;
    ComparedCell(i, Spot, a);
    ComparedCell(i, Funding, a);
    ComparedCell(i, FlexibleEarn, a);
    ComparedCell(i, LockedEarn, a);
    FourCellsAdd(i, a);
  }

  lemma FourCellsAdd(i: Inputs, a: Asset)
    requires AllCompared(i) && a in Universe(i)
    ensures var o, c, legs := OpeningSide, ClosingSide, Read(i).legs;
            && Sum4(HeldOf(i, o, Spot, a), HeldOf(i, o, Funding, a), HeldOf(i, o, FlexibleEarn, a),
              HeldOf(i, o, LockedEarn, a))
               == Total(i, o, a)
            && Sum4(HeldOf(i, c, Spot, a), HeldOf(i, c, Funding, a), HeldOf(i, c, FlexibleEarn, a),
              HeldOf(i, c, LockedEarn, a))
               == Total(i, c, a)
            && Sum4(Movement(legs, Spot, a), Movement(legs, Funding, a), Movement(legs, FlexibleEarn, a),
              Movement(legs, LockedEarn, a))
               == Combined(legs, a)
    ensures forall w: Wallet :: w in WALLETS
    ensures Sum4(Residual(i, Spot, a), Residual(i, Funding, a), Residual(i, FlexibleEarn, a),
            Residual(i, LockedEarn, a))
            == Residual(i, Spot, a) + Residual(i, Funding, a) + Residual(i, FlexibleEarn, a)
              + Residual(i, LockedEarn, a)
  {
    WalletMember();
    hide Sum4;
    hide FewAmounts;
    hide HeldOf;
    hide Residual;
    hide Movement;
    hide Read;
    hide Universe;
    hide Comparable;
    hide Covered;
    CellBounds(i, Spot, a);
    CellBounds(i, Funding, a);
    CellBounds(i, FlexibleEarn, a);
    CellBounds(i, LockedEarn, a);
    var o, c, legs := OpeningSide, ClosingSide, Read(i).legs;
    Sum4IsExact(HeldOf(i, o, Spot, a), HeldOf(i, o, Funding, a), HeldOf(i, o, FlexibleEarn, a),
      HeldOf(i, o, LockedEarn, a));
    Sum4IsExact(HeldOf(i, c, Spot, a), HeldOf(i, c, Funding, a), HeldOf(i, c, FlexibleEarn, a),
      HeldOf(i, c, LockedEarn, a));
    Sum4IsExact(Movement(legs, Spot, a), Movement(legs, Funding, a), Movement(legs, FlexibleEarn, a),
      Movement(legs, LockedEarn, a));
    Sum4IsExact(Residual(i, Spot, a), Residual(i, Funding, a), Residual(i, FlexibleEarn, a),
      Residual(i, LockedEarn, a));
  }

  /** The combined table, from the rows of the wallets when each of them was compared. */
  method CombineRows(i: Inputs, wallets: map<Wallet, WalletRow>) returns (combined: Option<map<Asset, CombinedRow>>)
    requires forall w: Wallet :: w in wallets && wallets[w] == RowOf(i, w)
    ensures combined == CombinedOf(i)
  {
    hide Universe;
    hide RowOf;
    hide Comparable;
    hide Covered;
    hide Has;
    hide AddRows;
    hide CombinedAt;
    WalletMember();
    forall w: Wallet ensures wallets[w].residuals.Some? <==> Comparable(i, w) && Covered(i, w) {
      ComparedRow(i, w);
    }
    if exists w :: w in WALLETS && wallets[w].residuals.None? {
      return None;
    }
    assert AllCompared(i);
    forall a | a in Universe(i)
      ensures Has(wallets[Spot], a) && Has(wallets[Funding], a) && Has(wallets[FlexibleEarn], a)
              && Has(wallets[LockedEarn], a)
      ensures AddRows(wallets[Spot], wallets[Funding], wallets[FlexibleEarn], wallets[LockedEarn], a)
              == CombinedAt(i, a)
    {
      CombinedCell(i, a);
    }
    combined := Some(map a | a in Universe(i) ::
      AddRows(wallets[Spot], wallets[Funding], wallets[FlexibleEarn], wallets[LockedEarn], a));
    assert combined.value == map a | a in Universe(i) :: CombinedAt(i, a);
  }

  /** The events of the window, refused as a whole when there are none or too many. */
  method ReadEventList(i: Inputs) returns (reading: Reading, reasons: set<Reason>)
    ensures reading == Read(i)
    ensures reasons == if !EventsReadable(i) then {EventsInvalid} else if !Read(i).proven then {EventUnproven} else {}
  {
    hide ReadEvents;
    if i.events.None? || |i.events.value| > 10_000 {
      return ReadEvents([], i.previous, i.cutoff), {EventsInvalid};
    }
    reading := ReadAll(i.events.value, i.previous, i.cutoff);
    reasons := if reading.proven then {} else {EventUnproven};
  }

  /** What is missing in the evidence itself. */
  predicate EvidenceReason(i: Inputs, r: Reason) {
    match r
    case SnapshotUnproven(side) => !SnapshotOk(i, side)
    case WalletUnproven(side, w) => SnapshotOk(i, side) && Inventory(i, side, w).None?
    case EventsInvalid => !EventsReadable(i)
    case EventUnproven => EventsReadable(i) && !Read(i).proven
    case CoverageUnproven(s) => !CoverageOk(i, s)
    case _ => false
  }

  predicate SideReason(i: Inputs, side: Side, r: Reason) {
    || (r == SnapshotUnproven(side) && !SnapshotOk(i, side))
    || (r.WalletUnproven? && r.side == side && SnapshotOk(i, side) && Inventory(i, side, r.wallet).None?)
  }

  /** The comparison of the wallets fails. */
  predicate ComparisonReason(i: Inputs, r: Reason) {
    || (r.AssetCoverageMissing? && Comparable(i, r.wallet) && !Covered(i, r.wallet))
    || (r.QuantityResidual? && Comparable(i, r.wallet) && Covered(i, r.wallet)
        && exists a :: a in Universe(i) && Residual(i, r.wallet, a) != 0)
  }

  lemma EvidenceByPart(i: Inputs, r: Reason)
    ensures EvidenceReason(i, r) <==>
            || SideReason(i, OpeningSide, r) || SideReason(i, ClosingSide, r)
            || (r.EventsInvalid? && !EventsReadable(i)) || (r.EventUnproven? && EventsReadable(i) && !Read(i).proven)
            || (r.CoverageUnproven? && !CoverageOk(i, r.surface))
  {
    hide SnapshotOk;
    hide Inventory;
    hide CoverageOk;
    hide Read;
    assert r.SnapshotUnproven? || r.WalletUnproven? ==> r.side == OpeningSide || r.side == ClosingSide;
  }

  lemma ReasonsAreBoth(i: Inputs, r: Reason)
    requires WindowOk(i)
    ensures HasReason(i, r) <==> EvidenceReason(i, r) || ComparisonReason(i, r)
  {
    hide SnapshotOk;
    hide Inventory;
    hide CoverageOk;
    hide Read;
    hide Comparable;
    hide Covered;
    hide Universe;
    hide Residual;
  }

  /** Both sides, the events and their coverage. */
  method ReadEvidence(i: Inputs) returns (reading: Reading, proven: bool, reasons: set<Reason>)
    ensures reading == Read(i) && proven == EventsProven(i)
    ensures forall r :: r in reasons <==> EvidenceReason(i, r)
  {
    hide Inventory;
    hide CoverageOk;
    hide SnapshotOk;
    hide Read;
    hide EvidenceReason;
    var opening, openingReasons := ReadSide(i, OpeningSide);
    var closing, closingReasons := ReadSide(i, ClosingSide);
    var events, eventReasons := ReadEventList(i);
    var coverage := CheckCoverage(i);
    CoverageDecides(i, coverage);
    reading, proven := events, EventsReadable(i) && events.proven && coverage == {};
    reasons := openingReasons + closingReasons + eventReasons + coverage;
    forall r ensures r in reasons <==> EvidenceReason(i, r) {
      EvidenceByPart(i, r);
    }
  }

  /** `_build` */
  method Build(i: Inputs) returns (r: Report)
    ensures forall x :: x in r.reasons <==> HasReason(i, x)
    ensures r.matched <==> r.reasons == {}
    ensures WindowOk(i) ==> forall w: Wallet :: w in r.wallets && r.wallets[w] == RowOf(i, w)
    ensures WindowOk(i) ==> r.combined == CombinedOf(i)
    ensures r.legs == if WindowOk(i) && EventsProven(i) then Read(i).legs else []
  {
    if !WindowOk(i) {
      return Report({WindowInvalid}, map[], [], None, false);
    }
    hide RowOf;
    hide CombinedOf;
    hide EventsProven;
    hide Read;
    hide HasReason;
    hide EvidenceReason;
    hide Comparable;
    hide Covered;
    hide Universe;
    hide Residual;
    var reading, proven, evidence := ReadEvidence(i);
    var wallets, comparison := CompareWallets(i, proven, reading.legs);
    var reasons := evidence + comparison;
    forall x ensures x in reasons <==> HasReason(i, x) {
      ReasonsAreBoth(i, x);
    }
    var combined := CombineRows(i, wallets);
    r := Report(reasons, wallets, if proven then reading.legs else [], combined, reasons == {});
  }

  lemma CoverageDecides(i: Inputs, coverage: set<Reason>)
    requires forall r :: r in coverage <==> r.CoverageUnproven? && !CoverageOk(i, r.surface)
    ensures coverage == {} <==> forall s :: s in SURFACES ==> CoverageOk(i, s)
  {
    AllSurfaces();
    hide CoverageOk;
    if coverage == {} {
      forall s: Surface ensures CoverageOk(i, s) {
        assert CoverageUnproven(s) !in coverage;
      }
    }
  }

  // ---- Main results ---------------------------------------------------------------------------------

  /** No reason speaks against the report; `Build` marks exactly these as matched. */
  ghost predicate Matched(i: Inputs) {
    forall x :: !HasReason(i, x)
  }

  /** In one wallet, for every asset: closing is opening plus the sum of the legs. */
  predicate WalletConserves(i: Inputs, w: Wallet) {
    && Inventory(i, OpeningSide, w).Some? && Inventory(i, ClosingSide, w).Some?
    && Universe(i) <= Held(i, OpeningSide, w) && Universe(i) <= Held(i, ClosingSide, w)
    && forall a :: a in Universe(i) ==>
         Inventory(i, ClosingSide, w).value[a]
           == Inventory(i, OpeningSide, w).value[a] + Movement(AllLegs(EventList(i)), w, a)
  }

  predicate Conserved(i: Inputs) {
    WindowOk(i) && EventsProven(i) && forall w :: w in WALLETS ==> WalletConserves(i, w)
  }

  lemma InventoryNeedsSnapshot(i: Inputs, side: Side, w: Wallet)
    requires Inventory(i, side, w).Some?
    ensures SnapshotOk(i, side)
  {
  }

  lemma ProvenLegs(i: Inputs)
    requires EventsProven(i)
    ensures Read(i).legs == AllLegs(EventList(i))
    ensures forall k :: 0 <= k < |EventList(i)| ==> i.previous < EventList(i)[k].at <= i.cutoff
  {
    ProvenReading(EventList(i), i.previous, i.cutoff);
  }

  /**
  A report is matched exactly when its evidence is complete and, in every wallet and for every asset,
  the closing quantity is the opening quantity plus the legs of the events.
  */
  lemma MatchedIffConserved(i: Inputs)
    ensures Matched(i) <==> Conserved(i)
  {
    hide ReceiptOk;
    hide RowsOk;
    hide Universe;
    hide Read;
    hide Movement;
    hide AllLegs;
    WalletMember();
    AllSurfaces();
    if Matched(i) {
      MatchedIsProven(i);
      ProvenLegs(i);
      forall w: Wallet ensures WalletConserves(i, w) {
        assert !HasReason(i, AssetCoverageMissing(w)) && !HasReason(i, QuantityResidual(w));
        assert forall a :: a in Universe(i) ==> Residual(i, w, a) == 0;
      }
    }
    if Conserved(i) {
      ConservedHasNoReason(i);
    }
  }

  lemma MatchedIsProven(i: Inputs)
    requires Matched(i)
    ensures WindowOk(i) && EventsProven(i)
    ensures forall w: Wallet :: Inventory(i, OpeningSide, w).Some? && Inventory(i, ClosingSide, w).Some?
  {
    hide Inventory;
    hide CoverageOk;
    hide Read;
    hide SnapshotOk;
    AllSurfaces();
    assert !HasReason(i, WindowInvalid) && !HasReason(i, EventsInvalid) && !HasReason(i, EventUnproven);
    assert !HasReason(i, SnapshotUnproven(OpeningSide)) && !HasReason(i, SnapshotUnproven(ClosingSide));
    forall s: Surface ensures CoverageOk(i, s) {
      assert !HasReason(i, CoverageUnproven(s));
    }
    forall w: Wallet ensures Inventory(i, OpeningSide, w).Some? && Inventory(i, ClosingSide, w).Some? {
      assert !HasReason(i, WalletUnproven(OpeningSide, w)) && !HasReason(i, WalletUnproven(ClosingSide, w));
    }
  }

  lemma ConservedHasNoReason(i: Inputs)
    requires Conserved(i)
    ensures Matched(i)
  {
    hide Inventory;
    hide CoverageOk;
    hide SnapshotOk;
    hide Universe;
    hide Movement;
    hide AllLegs;
    WalletMember();
    AllSurfaces();
    ProvenLegs(i);
    assert WalletConserves(i, Spot);
    InventoryNeedsSnapshot(i, OpeningSide, Spot);
    InventoryNeedsSnapshot(i, ClosingSide, Spot);
    forall x ensures !HasReason(i, x) {
      match x
      case WalletUnproven(side, w) => assert WalletConserves(i, w) && (side == OpeningSide || side == ClosingSide);
      case SnapshotUnproven(side) => assert side == OpeningSide || side == ClosingSide;
      case AssetCoverageMissing(w) => assert WalletConserves(i, w);
      case QuantityResidual(w) => assert WalletConserves(i, w);
      case CoverageUnproven(s) => assert s in SURFACES;
      case _ =>
    }
  }

  /**
  In the combined table closing is opening plus movement plus residual, the residual is the sum of the
  wallets' residuals, and the movement is that of the external events alone.
  */
  lemma CombinedTable(i: Inputs, a: Asset)
    requires AllCompared(i) && a in Universe(i)
    ensures var row := CombinedAt(i, a);
            && row.closing == row.opening + row.movement + row.residual
            && row.movement == Combined(AllLegs(External(EventList(i))), a)
  {
    hide Inventory;
    hide Universe;
    hide CoverageOk;
    hide HeldOf;
    hide Residual;
    hide Covered;
    WalletMember();
    assert Comparable(i, Spot) && Comparable(i, Funding) && Comparable(i, FlexibleEarn) && Comparable(i, LockedEarn);
    ResidualCell(i, Spot, a);
    ResidualCell(i, Funding, a);
    ResidualCell(i, FlexibleEarn, a);
    ResidualCell(i, LockedEarn, a);
    ProvenLegs(i);
    CombinedIsExternal(EventList(i), a);
    hide Movement;
  }

  lemma ResidualCell(i: Inputs, w: Wallet, a: Asset)
    requires Comparable(i, w) && Covered(i, w) && a in Universe(i)
    ensures HeldOf(i, ClosingSide, w, a)
            == HeldOf(i, OpeningSide, w, a) + Movement(Read(i).legs, w, a) + Residual(i, w, a)
  {
    hide Inventory;
    hide Universe;
    hide EventsProven;
    hide Movement;
  }

  lemma {:induction false} LegsOfBoth(a: seq<Event>, b: seq<Event>)
    ensures AllLegs(a + b) == AllLegs(a) + AllLegs(b)
    decreases |b|
  {
    hide Legs;
    if b == [] {
      assert a + b == a;
    } else {
      assert (a + b)[..|a + b| - 1] == a + b[..|b| - 1];
      LegsOfBoth(a, b[..|b| - 1]);
    }
  }

  /** The second window starts where the first ends, from the balances the first closed with. */
  predicate Adjoin(i: Inputs, j: Inputs) {
    i.cutoff == j.previous && forall w :: w in WALLETS ==> Inventory(i, ClosingSide, w) == Inventory(j, OpeningSide, w)
  }

  /** The identities of the events of a window. */
  function Identities(i: Inputs): set<(Surface, string)> {
    Read(i).seen
  }

  /**
  A report over both windows: the first opening, the second closing, and the events of both, of which none
  occurs in both windows, with the receipts of the joined window.
  */
  predicate Joins(k: Inputs, i: Inputs, j: Inputs) {
    && k.previous == i.previous && k.cutoff == j.cutoff && WindowOk(k) && EventsReadable(k)
    && (forall s :: s in SURFACES ==> CoverageOk(k, s))
    && EventList(k) == EventList(i) + EventList(j) && Identities(i) !! Identities(j)
    && forall w :: w in WALLETS ==>
         Inventory(k, OpeningSide, w) == Inventory(i, OpeningSide, w)
           && Inventory(k, ClosingSide, w) == Inventory(j, ClosingSide, w)
  }

  /** A proven reading stays proven in a wider window. */
  lemma {:induction false} WiderWindow(events: seq<Event>, since: int, until: int, from: int, to: int)
    requires ReadEvents(events, since, until).proven && from <= since && until <= to
    ensures ReadEvents(events, from, to) == ReadEvents(events, since, until)
  {
    hide Legs;
    hide IsOpaque;
    if events != [] {
      WiderWindow(events[..|events| - 1], since, until, from, to);
    }
  }

  /** Two proven readings with nothing in common make one. */
  lemma {:induction false} BothProven(a: seq<Event>, b: seq<Event>, since: int, until: int)
    requires ReadEvents(a, since, until).proven && ReadEvents(b, since, until).proven
    requires ReadEvents(a, since, until).seen !! ReadEvents(b, since, until).seen
    ensures ReadEvents(a + b, since, until).proven
    ensures ReadEvents(a + b, since, until).seen == ReadEvents(a, since, until).seen + ReadEvents(b, since, until).seen
    decreases |b|
  {
    hide Legs;
    hide IsOpaque;
    if b == [] {
      assert a + b == a;
    } else {
      var n := |b| - 1;
      assert (a + b)[..|a + b| - 1] == a + b[..n];
      BothProven(a, b[..n], since, until);
    }
  }

  /** The events of the joined window are proven because those of its parts are. */
  lemma JoinedIsProven(k: Inputs, i: Inputs, j: Inputs)
    requires EventsProven(i) && EventsProven(j) && WindowOk(i) && WindowOk(j) && i.cutoff == j.previous
             && Joins(k, i, j)
    ensures EventsProven(k)
  {
    hide CoverageOk;
    hide Inventory;
    hide ReadEvents;
    WiderWindow(EventList(i), i.previous, i.cutoff, k.previous, k.cutoff);
    WiderWindow(EventList(j), j.previous, j.cutoff, k.previous, k.cutoff);
    BothProven(EventList(i), EventList(j), k.previous, k.cutoff);
  }

  lemma MatchedUniverse(i: Inputs, w: Wallet)
    requires Conserved(i)
    ensures Held(i, OpeningSide, w) == Universe(i) == Held(i, ClosingSide, w)
    ensures AssetsOf(AllLegs(EventList(i))) <= Universe(i)
  {
    hide Inventory;
    hide CoverageOk;
    hide Movement;
    WalletMember();
    ProvenLegs(i);
    assert WalletConserves(i, w);
  }

  lemma AssetsOfBoth(a: seq<Leg>, b: seq<Leg>)
    ensures AssetsOf(a + b) <= AssetsOf(a) + AssetsOf(b)
  {
    forall x | x in AssetsOf(a + b) ensures x in AssetsOf(a) + AssetsOf(b) {
      var k :| 0 <= k < |a + b| && (a + b)[k].asset == x;
      assert k < |a| ==> a[k].asset == x;
      assert k >= |a| ==> b[k - |a|].asset == x;
    }
  }

  lemma JoinedWallet(k: Inputs, i: Inputs, j: Inputs, w: Wallet)
    requires Conserved(i) && Conserved(j) && Adjoin(i, j) && Joins(k, i, j) && EventsProven(k)
    requires Universe(k) <= Universe(i) && Universe(i) == Universe(j)
    ensures WalletConserves(k, w)
  {
    hide Inventory;
    hide CoverageOk;
    hide Universe;
    hide Movement;
    hide AllLegs;
    WalletMember();
    assert WalletConserves(i, w) && WalletConserves(j, w);
    LegsOfBoth(EventList(i), EventList(j));
    forall a ensures Movement(AllLegs(EventList(k)), w, a)
      == Movement(AllLegs(EventList(i)), w, a) + Movement(AllLegs(EventList(j)), w, a) {
      MovementOfBoth(AllLegs(EventList(i)), AllLegs(EventList(j)), w, a);
    }
  }

  /** A set that holds all parts of the universe holds the universe. */
  lemma UniverseWithin(i: Inputs, u: set<Asset>)
    requires forall w: Wallet :: Held(i, OpeningSide, w) <= u && Held(i, ClosingSide, w) <= u
    requires AssetsOf(Read(i).legs) <= u
    ensures Universe(i) <= u
  {
    hide Held;
    hide Read;
    hide AssetsOf;
  }

  lemma SameHolding(i: Inputs, side: Side, j: Inputs, other: Side, w: Wallet)
    requires Inventory(i, side, w) == Inventory(j, other, w)
    ensures Held(i, side, w) == Held(j, other, w)
  {
    hide Inventory;
  }

  lemma JoinedUniverse(k: Inputs, i: Inputs, j: Inputs)
    requires Conserved(i) && Conserved(j) && Adjoin(i, j) && Joins(k, i, j) && EventsProven(k)
    ensures Universe(k) <= Universe(i) && Universe(i) == Universe(j)
  {
    hide Inventory;
    hide Held;
    hide Universe;
    hide AssetsOf;
    hide AllLegs;
    hide Read;
    hide Conserved;
    hide EventsProven;
    WalletMember();
    MatchedUniverse(i, Spot);
    MatchedUniverse(j, Spot);
    SameHolding(i, ClosingSide, j, OpeningSide, Spot);
    forall w: Wallet ensures Held(k, OpeningSide, w) <= Universe(i) && Held(k, ClosingSide, w) <= Universe(j) {
      MatchedUniverse(i, w);
      MatchedUniverse(j, w);
      SameHolding(k, OpeningSide, i, OpeningSide, w);
      SameHolding(k, ClosingSide, j, ClosingSide, w);
    }
    ProvenLegs(k);
    LegsOfBoth(EventList(i), EventList(j));
    AssetsOfBoth(AllLegs(EventList(i)), AllLegs(EventList(j)));
    UniverseWithin(k, Universe(i));
  }

  /** Two matched reports over adjoining windows make a match over the joined window. */
  lemma MatchesCompose(k: Inputs, i: Inputs, j: Inputs)
    requires Matched(i) && Matched(j) && Adjoin(i, j) && Joins(k, i, j)
    ensures Matched(k)
  {
    MatchedIffConserved(i);
    MatchedIffConserved(j);
    JoinedIsProven(k, i, j);
    JoinedUniverse(k, i, j);
    WalletMember();
    forall w: Wallet ensures WalletConserves(k, w) {
      JoinedWallet(k, i, j, w);
    }
    hide WalletConserves;
    hide EventsProven;
    hide HasReason;
    MatchedIffConserved(k);
  }
}

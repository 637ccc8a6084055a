/**
The evidence and the movements of ForwardReport.dfy said from the fields of receipts, rows and events: what
complete evidence is, which wallet gains and which loses by an event, and so what a matched report asserts.
*/
module ForwardEvidence {
  import opened Outcomes
  import opened Amounts
  import opened ForwardReport

  // ---- Movements ------------------------------------------------------------------------------------

  /** What one event does to one asset of one wallet. */
  function Moves(e: Event, w: Wallet, a: Asset): int {
    match e.kind
    case Fill => Exchange(e, w, a)
    case Convert => Exchange(e, w, a)
    case Dust => Exchange(e, w, a)
    case Deposit => Gain(e.wallet, e.asset, e.quantity, w, a)
    case Reward => Gain(e.wallet, e.asset, e.quantity, w, a)
    case Withdrawal => -Gain(e.wallet, e.asset, e.quantity, w, a) - Gain(e.wallet, e.feeAsset, e.feeQuantity, w, a)
    case Unsupported => Gain(e.wallet, e.asset, e.quantity, w, a)
    case _ => Gain(e.destination, e.asset, e.quantity, w, a) - Gain(e.source, e.asset, e.quantity, w, a)
  }

  /** The amount, where it belongs, and zero elsewhere. */
  function Gain(to: Option<Wallet>, of: Asset, quantity: int, w: Wallet, a: Asset): int {
    if to == Some(w) && of == a then quantity else 0
  }

  /** An exchange brings in one asset for another; the fee is paid besides. */
  function Exchange(e: Event, w: Wallet, a: Asset): int {
    Gain(e.wallet, e.toAsset, e.toQuantity, w, a) - Gain(e.wallet, e.fromAsset, e.fromQuantity, w, a)
    - Gain(e.wallet, e.feeAsset, e.feeQuantity, w, a)
  }

  function SumOfMoves(events: seq<Event>, w: Wallet, a: Asset): int {
    if events == [] then 0 else Moves(events[0], w, a) + SumOfMoves(events[1..], w, a)
  }

  lemma OneLeg(x: Leg, w: Wallet, a: Asset)
    ensures Movement([x], w, a) == Gain(Some(x.wallet), x.asset, x.quantity, w, a)
  {
    assert [x][..0] == [];
  }

  lemma TwoLegs(x: Leg, y: Leg, w: Wallet, a: Asset)
    ensures Movement([x, y], w, a)
            == Gain(Some(x.wallet), x.asset, x.quantity, w, a) + Gain(Some(y.wallet), y.asset, y.quantity, w, a)
  {
    OneLeg(x, w, a);
    assert [x, y][..1] == [x];
  }

  lemma ThreeLegs(x: Leg, y: Leg, z: Leg, w: Wallet, a: Asset)
    ensures Movement([x, y, z], w, a)
            == Gain(Some(x.wallet), x.asset, x.quantity, w, a) + Gain(Some(y.wallet), y.asset, y.quantity, w, a)
               + Gain(Some(z.wallet), z.asset, z.quantity, w, a)
  {
    TwoLegs(x, y, w, a);
    assert [x, y, z][..2] == [x, y];
  }

  lemma LossIsNegativeGain(to: Option<Wallet>, of: Asset, quantity: int, w: Wallet, a: Asset)
    ensures Gain(to, of, -quantity, w, a) == -Gain(to, of, quantity, w, a)
  {
  }

  /** The legs of an event move exactly that. */
  lemma LegsMove(e: Event, w: Wallet, a: Asset)
    requires Legs(e).Some?
    ensures Movement(Legs(e).value, w, a) == Moves(e, w, a)
  {
    hide Movement;
    hide ValidAsset;
    hide Gain;
    hide Positive;
    hide ValidAmount;
    LossIsNegativeGain(e.source, e.asset, e.quantity, w, a);
    LossIsNegativeGain(e.wallet, e.asset, e.quantity, w, a);
    LossIsNegativeGain(e.wallet, e.fromAsset, e.fromQuantity, w, a);
    LossIsNegativeGain(e.wallet, e.feeAsset, e.feeQuantity, w, a);
    var legs := Legs(e).value;
    if |legs| == 1 {
      OneLeg(legs[0], w, a);
    } else if |legs| == 2 {
      TwoLegs(legs[0], legs[1], w, a);
    } else {
      ThreeLegs(legs[0], legs[1], legs[2], w, a);
    }
  }

  lemma {:induction false} EventsMove(events: seq<Event>, w: Wallet, a: Asset)
    requires forall k :: 0 <= k < |events| ==> Legs(events[k]).Some?
    ensures Movement(AllLegs(events), w, a) == SumOfMoves(events, w, a)
    decreases |events|
  {
    hide Legs;
    hide Moves;
    if events != [] {
      var n := |events| - 1;
      EventsMove(events[..n], w, a);
      LegsMove(events[n], w, a);
      MovementOfBoth(AllLegs(events[..n]), Legs(events[n]).value, w, a);
      LastMove(events, w, a);
    }
  }

  lemma {:induction false} LastMove(events: seq<Event>, w: Wallet, a: Asset)
    requires events != []
    ensures SumOfMoves(events, w, a)
            == SumOfMoves(events[..|events| - 1], w, a) + Moves(events[|events| - 1], w, a)
    decreases |events|
  {
    hide Moves;
    if |events| > 1 {
      LastMove(events[1..], w, a);
      assert events[1..][..|events| - 2] == events[..|events| - 1][1..];
    }
  }

  // ---- Proven events --------------------------------------------------------------------------------

  predicate IsAsset(a: Asset) {
    1 <= |a| <= 20 && forall c :: c in a ==> 'A' <= c <= 'Z' || '0' <= c <= '9'
  }

  /** Below 10^30, in units of 10^-30. */
  predicate IsAmount(x: int) {
    0 <= x && x < LIMIT
  }

  predicate HasFee(e: Event) {
    e.additionalDebit && IsAsset(e.feeAsset) && IsAmount(e.feeQuantity)
  }

  predicate Exchanges(e: Event) {
    && e.wallet != None && HasFee(e) && IsAsset(e.fromAsset) && IsAsset(e.toAsset) && e.fromAsset != e.toAsset
    && e.fromQuantity != 0 && e.toQuantity != 0 && IsAmount(e.fromQuantity) && IsAmount(e.toQuantity)
  }

  predicate Carries(e: Event) {
    e.quantity != 0 && IsAmount(e.quantity) && IsAsset(e.asset)
  }

  predicate Routes(e: Event, source: Wallet, destination: Wallet) {
    e.source == Some(source) && e.destination == Some(destination) && Carries(e) && e.feeQuantity == 0
  }

  /** The event is settled and of a supported shape. */
  predicate HasLegs(e: Event) {
    && e.success
    && match e.kind
       case Fill => Exchanges(e)
       case Convert => Exchanges(e)
       case Dust => Exchanges(e)
       case Transfer =>
         e.source != None && e.destination != None && e.source != e.destination && Carries(e) && e.feeQuantity == 0
       case FlexibleSubscription => Routes(e, Spot, FlexibleEarn)
       case FlexibleRedemption => Routes(e, FlexibleEarn, Spot)
       case LockedSubscription => Routes(e, Spot, LockedEarn)
       case LockedRedemption => Routes(e, LockedEarn, Spot)
       case Withdrawal => e.wallet != None && Carries(e) && HasFee(e)
       case Deposit => e.wallet != None && Carries(e)
       case Reward => e.wallet != None && Carries(e)
       case Unsupported => e.wallet != None && Carries(e)
  }

  lemma AssetIsValid(a: Asset)
    ensures ValidAsset(a) <==> IsAsset(a)
  {
    assert forall k :: 0 <= k < |a| ==> a[k] in a;
  }

  lemma LegsIff(e: Event)
    ensures Legs(e).Some? <==> HasLegs(e)
  {
    AssetIsValid(e.asset);
    AssetIsValid(e.fromAsset);
    AssetIsValid(e.toAsset);
    AssetIsValid(e.feeAsset);
    hide ValidAsset;
    hide IsAsset;
  }

  // ---- Receipts -------------------------------------------------------------------------------------

  /** One to 128 characters, with no space at either end. */
  ghost predicate IsToken(s: string) {
    s != "" && |s| < 129 && !exists t: string {:trigger t + " "} :: s == " " + t || s == t + " "
  }

  lemma TokenIff(s: string)
    ensures IsOpaque(s) <==> IsToken(s)
  {
    if s != "" {
      var n := |s| - 1;
      assert s == [s[0]] + s[1..] && s == s[..n] + [s[n]];
      assert s[1..] + " " == s[1..] + " " && s[..n] + " " == s[..n] + [' '];
    }
  }

  /**
  One page of a listing: numbered in order, of the same binding, revision and total as the whole, captured
  after the one before; every page but the last is full, and none but the first is empty.
  */
  predicate IsPage<T>(r: Receipt<T>, k: nat, total: nat)
    requires k < |r.pages|
  {
    var p := r.pages[k];
    && p.number - 1 == k && p.total == total <= 10_000 && p.binding == r.binding && p.revision == r.revision
    && 1 <= p.size <= 1000 && p.count == |p.content| <= p.size
    && (k < |r.pages| - 1 ==> p.count == p.size) && (k > 0 ==> p.content != [])
    && (if k == 0 then r.startedAt else r.pages[k - 1].finishedAt) <= p.startedAt <= p.finishedAt <= r.finishedAt
  }

  predicate PagesFrom<T>(r: Receipt<T>, from: nat, total: nat) {
    forall k :: from <= k < |r.pages| ==> IsPage(r, k, total)
  }

  function Since<T>(r: Receipt<T>, k: nat): int
    requires k <= |r.pages|
  {
    if k == 0 then r.startedAt else r.pages[k - 1].finishedAt
  }

  lemma PagesFromOne<T>(r: Receipt<T>, k: nat, total: nat)
    requires k < |r.pages|
    ensures PagesFrom(r, k, total) <==> IsPage(r, k, total) && PagesFrom(r, k + 1, total)
  {
    hide IsPage;
  }

  /** A page that is accepted, and after which rows are left if there is another page. */
  lemma PageForward<T>(r: Receipt<T>, k: nat, rows: seq<T>, consumed: nat)
    requires k < |r.pages| && consumed <= |rows| && PageOk(r, k, rows, consumed, Since(r, k))
    requires k + 1 < |r.pages| ==> consumed + r.pages[k].count < |rows|
    ensures IsPage(r, k, |rows|) && rows[consumed..] == r.pages[k].content + rows[consumed + r.pages[k].count..]
  {
    var p := r.pages[k];
    assert rows[consumed..] == rows[consumed..consumed + p.count] + rows[consumed + p.count..];
  }

  lemma PageBackward<T>(r: Receipt<T>, k: nat, rows: seq<T>, consumed: nat)
    requires k < |r.pages| && consumed <= |rows| && IsPage(r, k, |rows|)
    requires r.pages[k].content + Contents(r.pages[k + 1..]) == rows[consumed..]
    requires k + 1 < |r.pages| ==> Contents(r.pages[k + 1..]) != []
    ensures PageOk(r, k, rows, consumed, Since(r, k)) && consumed + r.pages[k].count <= |rows|
    ensures Contents(r.pages[k + 1..]) == rows[consumed + r.pages[k].count..]
  {
    var p, rest := r.pages[k], Contents(r.pages[k + 1..]);
    assert rows[consumed..] == rows[consumed..consumed + p.count] + rows[consumed + p.count..];
    assert p.content == (p.content + rest)[..p.count] == rows[consumed..][..p.count];
    assert rest == (p.content + rest)[p.count..] == rows[consumed..][p.count..];
    if k + 1 == |r.pages| {
      assert rest == [];
    }
  }

  lemma NextIsNotEmpty<T>(r: Receipt<T>, k: nat, total: nat)
    requires 0 < k < |r.pages| && IsPage(r, k, total)
    ensures Contents(r.pages[k..]) != []
  {
    assert r.pages[k..][0] == r.pages[k];
  }

  /** The pages from one on, together, are the rest of the rows. */
  lemma {:induction false} PagesIff<T>(r: Receipt<T>, k: nat, rows: seq<T>, consumed: nat)
    requires k <= |r.pages| && consumed <= |rows|
    ensures PagesOk(r, k, rows, consumed, Since(r, k)) <==>
            && PagesFrom(r, k, |rows|) && Contents(r.pages[k..]) == rows[consumed..]
    decreases |r.pages| - k
  {
    hide IsPage;
    hide PageOk;
    if k < |r.pages| {
      var p, rest := r.pages[k], r.pages[k + 1..];
      assert r.pages[k..][0] == p && r.pages[k..][1..] == rest;
      PagesFromOne(r, k, |rows|);
      if k + 1 < |r.pages| {
        PagesFromOne(r, k + 1, |rows|);
      }
      if PagesOk(r, k, rows, consumed, Since(r, k)) {
        PageConsumes(r, k, rows, consumed, Since(r, k));
        if k + 1 < |r.pages| {
          assert PagesOk(r, k + 1, rows, consumed + p.count, p.finishedAt);
          PageConsumes(r, k + 1, rows, consumed + p.count, p.finishedAt);
        }
        PageForward(r, k, rows, consumed);
        PagesIff(r, k + 1, rows, consumed + p.count);
      }
      if PagesFrom(r, k, |rows|) && Contents(r.pages[k..]) == rows[consumed..] {
        if k + 1 < |r.pages| {
          NextIsNotEmpty(r, k + 1, |rows|);
        }
        PageBackward(r, k, rows, consumed);
        PagesIff(r, k + 1, rows, consumed + p.count);
      }
    }
  }

  lemma PageConsumes<T>(r: Receipt<T>, k: nat, rows: seq<T>, consumed: nat, since: int)
    requires k < |r.pages| && consumed <= |rows| && PageOk(r, k, rows, consumed, since)
    ensures 0 <= r.pages[k].count && consumed + r.pages[k].count <= |rows|
    ensures k > 0 ==> consumed < |rows|
  {
  }

  /** The pages of a listing that was read in full, between the cutoff and its own end. */
  ghost predicate IsListing<T>(r: Receipt<T>, binding: string, cutoff: int, rows: seq<T>) {
    && r.binding == binding && r.sourceAsOf == cutoff && r.startedAt <= r.finishedAt && cutoff <= r.finishedAt
    && IsToken(r.revision) && 1 <= |r.pages| < 1001
    && PagesFrom(r, 0, |rows|) && Contents(r.pages) == rows
  }

  /** A receipt is accepted exactly when its pages cut the rows into full pages and a last one. */
  lemma ReceiptIff<T>(receipt: Option<Receipt<T>>, binding: string, cutoff: int, rows: seq<T>)
    ensures ReceiptOk(receipt, binding, cutoff, rows) <==>
            receipt != None && IsListing(receipt.value, binding, cutoff, rows)
  {
    if receipt.Some? {
      var r := receipt.value;
      TokenIff(r.revision);
      PagesIff(r, 0, rows, 0);
      assert r.pages[0..] == r.pages && rows[0..] == rows;
    }
    hide IsToken;
    hide IsOpaque;
    hide PagesFrom;
    hide PagesOk;
  }

  // ---- Rows -----------------------------------------------------------------------------------------

  /** A row its wallet accepts: Spot and Funding by asset, Earn by product or position. */
  ghost predicate SoundRow(w: Wallet, row: NativeRow) {
    && IsAsset(row.asset)
    && match w
       case Spot => IsAmount(row.free) && IsAmount(row.locked)
       case Funding =>
         IsAmount(row.free) && IsAmount(row.locked) && IsAmount(row.freeze) && row.withdrawing == 0
       case FlexibleEarn => IsAmount(row.free) && IsToken(row.identity) && !row.unsupported
       case LockedEarn => IsAmount(row.free) && IsToken(row.identity) && !row.unsupported
  }

  function Content(w: Wallet, row: NativeRow): int {
    match w
    case Spot => row.free + row.locked
    case Funding => row.free + row.locked + row.freeze
    case FlexibleEarn => row.free
    case LockedEarn => row.free
  }

  ghost predicate SoundRows(w: Wallet, rows: seq<NativeRow>) {
    && (forall k :: 0 <= k < |rows| ==> SoundRow(w, rows[k]))
    && forall j, k :: 0 <= j < k < |rows| ==>
         if w == Spot || w == Funding then rows[j].asset != rows[k].asset else rows[j].identity != rows[k].identity
  }

  function SumOfRows(w: Wallet, rows: seq<NativeRow>, a: Asset): int {
    if rows == [] then 0 else (if rows[0].asset == a then Content(w, rows[0]) else 0) + SumOfRows(w, rows[1..], a)
  }

  lemma RowIff(w: Wallet, row: NativeRow)
    ensures ValidAsset(row.asset) && RowQuantity(w, row).Some? <==> SoundRow(w, row)
    ensures SoundRow(w, row) ==> RowQuantity(w, row) == Some(Content(w, row))
  {
    AssetIsValid(row.asset);
    TokenIff(row.identity);
    hide ValidAsset;
    hide IsAsset;
    hide IsToken;
    hide IsOpaque;
  }

  lemma RowsIff(w: Wallet, rows: seq<NativeRow>)
    ensures RowsOk(w, rows) <==> SoundRows(w, rows)
  {
    forall k | 0 <= k < |rows|
      ensures ValidAsset(rows[k].asset) && RowQuantity(w, rows[k]).Some? <==> SoundRow(w, rows[k])
    {
      RowIff(w, rows[k]);
    }
    hide RowQuantity;
    hide ValidAsset;
    hide SoundRow;
  }

  lemma {:induction false} LastRow(w: Wallet, rows: seq<NativeRow>, a: Asset)
    requires rows != []
    ensures var last := rows[|rows| - 1];
            SumOfRows(w, rows, a)
            == SumOfRows(w, rows[..|rows| - 1], a) + (if last.asset == a then Content(w, last) else 0)
    decreases |rows|
  {
    hide Content;
    if |rows| > 1 {
      LastRow(w, rows[1..], a);
      assert rows[1..][..|rows| - 2] == rows[..|rows| - 1][1..];
    }
  }

  lemma {:induction false} QuantityIsSum(w: Wallet, rows: seq<NativeRow>, a: Asset)
    requires forall k :: 0 <= k < |rows| ==> SoundRow(w, rows[k])
    ensures QuantityIn(w, rows, a) == SumOfRows(w, rows, a)
    decreases |rows|
  {
    hide SoundRow;
    hide RowQuantity;
    hide Content;
    if rows != [] {
      var n := |rows| - 1;
      assert forall k :: 0 <= k < n ==> rows[..n][k] == rows[k];
      QuantityIsSum(w, rows[..n], a);
      LastRow(w, rows, a);
      RowIff(w, rows[n]);
    }
  }

  // ---- All events -----------------------------------------------------------------------------------

  /** Which history a kind of event is listed in. */
  predicate ListedIn(kind: Kind, s: Surface) {
    match s
    case Fills => kind == Fill
    case Deposits => kind == Deposit
    case Withdrawals => kind == Withdrawal
    case Rewards => kind == Reward
    case Converts => kind == Convert
    case Dusts => kind == Dust
    case Transfers => kind == Transfer
    case FlexibleLifecycle => kind == FlexibleSubscription || kind == FlexibleRedemption
    case LockedLifecycle => kind == LockedSubscription || kind == LockedRedemption
  }

  lemma SurfaceIff(kind: Kind, s: Surface)
    ensures SurfaceOf(kind) == Some(s) <==> ListedIn(kind, s)
  {
  }

  ghost predicate SoundEvent(e: Event, since: int, until: int) {
    e.kind != Unsupported && IsToken(e.id) && since < e.at && e.at <= until && HasLegs(e)
  }

  /** Two events of one history have different ids. */
  predicate ApartFrom(d: Event, e: Event) {
    d.id == e.id ==> forall s :: !(ListedIn(d.kind, s) && ListedIn(e.kind, s))
  }

  ghost predicate SoundEvents(events: seq<Event>, since: int, until: int) {
    && (forall k :: 0 <= k < |events| ==> SoundEvent(events[k], since, until))
    && (forall j, k :: 0 <= j < k < |events| ==> ApartFrom(events[j], events[k]))
  }

  predicate IdIn(events: seq<Event>, s: Surface, id: string) {
    exists k :: 0 <= k < |events| && ListedIn(events[k].kind, s) && events[k].id == id
  }

  /** What the loop has seen of sound events: their histories and ids. */
  ghost predicate SeenIs(seen: set<(Surface, string)>, events: seq<Event>) {
    forall s, id :: (s, id) in seen <==> IdIn(events, s, id)
  }

  lemma EventIff(r: Reading, events: seq<Event>, e: Event, since: int, until: int)
    requires SeenIs(r.seen, events)
    ensures Acceptable(r, e, since, until) <==>
            SoundEvent(e, since, until) && forall k :: 0 <= k < |events| ==> ApartFrom(events[k], e)
  {
    TokenIff(e.id);
    LegsIff(e);
    hide IsToken;
    hide IsOpaque;
    hide Legs;
    hide HasLegs;
    if SurfaceOf(e.kind).Some? {
      var s := SurfaceOf(e.kind).value;
      SurfaceIff(e.kind, s);
      forall t ensures ListedIn(e.kind, t) <==> t == s {
        SurfaceIff(e.kind, t);
      }
      if (s, e.id) in r.seen {
        var k :| 0 <= k < |events| && ListedIn(events[k].kind, s) && events[k].id == e.id;
        assert !ApartFrom(events[k], e);
      } else {
        assert forall k :: 0 <= k < |events| ==> ApartFrom(events[k], e);
      }
    }
  }

  lemma SeenOneMore(seen: set<(Surface, string)>, events: seq<Event>)
    requires events != [] && SeenIs(seen, events[..|events| - 1])
    requires SurfaceOf(events[|events| - 1].kind).Some?
    ensures SeenIs(seen + {(SurfaceOf(events[|events| - 1].kind).value, events[|events| - 1].id)}, events)
  {
    var n, e := |events| - 1, events[|events| - 1];
    var next := seen + {(SurfaceOf(e.kind).value, e.id)};
    forall s, id ensures (s, id) in next <==> IdIn(events, s, id)
    {
      SurfaceIff(e.kind, s);
      if (s, id) in seen {
        var k :| 0 <= k < n && ListedIn(events[..n][k].kind, s) && events[..n][k].id == id;
        assert ListedIn(events[k].kind, s) && events[k].id == id;
      }
      if (s, id) == (SurfaceOf(e.kind).value, e.id) {
        assert ListedIn(events[n].kind, s) && events[n].id == id;
      }
      if k :| 0 <= k < |events| && ListedIn(events[k].kind, s) && events[k].id == id && k < n {
        assert events[..n][k] == events[k];
      }
    }
  }

  lemma SoundOneMore(events: seq<Event>, since: int, until: int)
    requires events != []
    ensures var before, last := events[..|events| - 1], events[|events| - 1];
            SoundEvents(events, since, until) <==>
              && SoundEvents(before, since, until) && SoundEvent(last, since, until)
              && forall k :: 0 <= k < |before| ==> ApartFrom(before[k], last)
  {
    hide SoundEvent;
    hide ApartFrom;
    var n := |events| - 1;
    assert forall k :: 0 <= k < n ==> events[..n][k] == events[k];
  }

  /** The events are proven exactly when each is sound and no history lists an id twice. */
  lemma {:induction false} ReadingIff(events: seq<Event>, since: int, until: int)
    ensures ReadEvents(events, since, until).proven <==> SoundEvents(events, since, until)
    ensures SoundEvents(events, since, until) ==> SeenIs(ReadEvents(events, since, until).seen, events)
  {
    if events == [] {
      assert SeenIs({}, events);
    } else {
      hide SoundEvents;
      hide SoundEvent;
      hide SeenIs;
      hide ApartFrom;
      hide Legs;
      hide IsOpaque;
      var n := |events| - 1;
      ReadingIff(events[..n], since, until);
      SoundOneMore(events, since, until);
      if SoundEvents(events[..n], since, until) {
        EventIff(ReadEvents(events[..n], since, until), events[..n], events[n], since, until);
        if Acceptable(ReadEvents(events[..n], since, until), events[n], since, until) {
          SeenOneMore(ReadEvents(events[..n], since, until).seen, events);
        }
      }
    }
  }

  // ---- The report -----------------------------------------------------------------------------------

  function Listing(events: seq<Event>, s: Surface): seq<Event> {
    if events == [] then [] else (if ListedIn(events[0].kind, s) then [events[0]] else []) + Listing(events[1..], s)
  }

  lemma {:induction false} ListingOfBoth(a: seq<Event>, b: seq<Event>, s: Surface)
    ensures Listing(a + b, s) == Listing(a, s) + Listing(b, s)
  {
    hide ListedIn;
    if a == [] {
      assert a + b == b;
    } else {
      assert (a + b)[0] == a[0] && (a + b)[1..] == a[1..] + b;
      ListingOfBoth(a[1..], b, s);
      var first := if ListedIn(a[0].kind, s) then [a[0]] else [];
      assert first + (Listing(a[1..], s) + Listing(b, s)) == first + Listing(a[1..], s) + Listing(b, s);
    }
  }

  lemma {:induction false} SurfaceIsListing(events: seq<Event>, s: Surface)
    ensures OfSurface(events, s) == Listing(events, s)
    decreases |events|
  {
    if events != [] {
      var n := |events| - 1;
      SurfaceIsListing(events[..n], s);
      SurfaceIff(events[n].kind, s);
      ListingOfBoth(events[..n], [events[n]], s);
      assert events[..n] + [events[n]] == events && [events[n]][1..] == [];
      hide ListedIn;
    }
  }

  /** The rows of a wallet at one end of the window, with the listing they were read from. */
  ghost predicate SoundWallet(i: Inputs, snapshot: Option<Snapshot>, at: int, w: Wallet) {
    && snapshot != None && w in snapshot.value.wallets
    && var input := snapshot.value.wallets[w];
    && |input.rows| < 10_001 && SoundRows(w, input.rows)
    && input.receipt != None && IsListing(input.receipt.value, i.binding, at, input.rows)
  }

  /** A snapshot of the account at this instant. */
  predicate SnapshotAt(i: Inputs, snapshot: Option<Snapshot>, at: int) {
    snapshot != None && snapshot.value == Snapshot(i.account, i.binding, at, snapshot.value.wallets)
  }

  predicate Mentions(rows: seq<NativeRow>, a: Asset) {
    exists k :: 0 <= k < |rows| && rows[k].asset == a
  }

  lemma InventoryIff(i: Inputs, side: Side, w: Wallet)
    ensures var snapshot := if side == OpeningSide then i.opening else i.closing;
            var at := if side == OpeningSide then i.previous else i.cutoff;
            && (Inventory(i, side, w).Some? <==> SnapshotAt(i, snapshot, at) && SoundWallet(i, snapshot, at, w))
            && (Inventory(i, side, w).Some? ==> forall a ::
                  && (a in Inventory(i, side, w).value <==> Mentions(snapshot.value.wallets[w].rows, a))
                  && (a in Inventory(i, side, w).value ==>
                        Inventory(i, side, w).value[a] == SumOfRows(w, snapshot.value.wallets[w].rows, a)))
  {
    var snapshot := if side == OpeningSide then i.opening else i.closing;
    var at := if side == OpeningSide then i.previous else i.cutoff;
    if snapshot.Some? && w in snapshot.value.wallets {
      var input := snapshot.value.wallets[w];
      ReceiptIff(input.receipt, i.binding, at, input.rows);
      RowsIff(w, input.rows);
      if SoundRows(w, input.rows) {
        forall a ensures QuantityIn(w, input.rows, a) == SumOfRows(w, input.rows, a) {
          QuantityIsSum(w, input.rows, a);
        }
      }
    }
    hide ReceiptOk;
    hide IsListing;
    hide RowsOk;
    hide SoundRows;
    hide QuantityIn;
    hide SumOfRows;
  }

  /** The assets an event names. */
  predicate Touches(e: Event, a: Asset) {
    match e.kind
    case Fill => a == e.fromAsset || a == e.toAsset || a == e.feeAsset
    case Convert => a == e.fromAsset || a == e.toAsset || a == e.feeAsset
    case Dust => a == e.fromAsset || a == e.toAsset || a == e.feeAsset
    case Withdrawal => a == e.asset || a == e.feeAsset
    case _ => a == e.asset
  }

  lemma LegsTouch(e: Event, a: Asset)
    requires Legs(e).Some?
    ensures (exists k :: 0 <= k < |Legs(e).value| && Legs(e).value[k].asset == a) <==> Touches(e, a)
  {
    hide ValidAsset;
    hide Positive;
    hide ValidAmount;
    var legs := Legs(e).value;
    if Touches(e, a) {
      if a == legs[0].asset {
        assert legs[0].asset == a;
      } else if a == legs[1].asset {
        assert legs[1].asset == a;
      } else {
        assert legs[2].asset == a;
      }
    }
  }

  predicate AnyTouches(events: seq<Event>, a: Asset) {
    exists k :: 0 <= k < |events| && Touches(events[k], a)
  }

  lemma AnyTouchesOne(events: seq<Event>, a: Asset)
    requires events != []
    ensures AnyTouches(events, a) <==> AnyTouches(events[..|events| - 1], a) || Touches(events[|events| - 1], a)
  {
    hide Touches;
    var n := |events| - 1;
    if AnyTouches(events[..n], a) {
      var k :| 0 <= k < n && Touches(events[..n][k], a);
      assert Touches(events[k], a);
    }
    if k :| 0 <= k < |events| && Touches(events[k], a) && k < n {
      assert Touches(events[..n][k], a);
    }
  }

  lemma AssetsOfBoth(x: seq<Leg>, y: seq<Leg>)
    ensures AssetsOf(x + y) == AssetsOf(x) + AssetsOf(y)
  {
    forall a | a in AssetsOf(x) ensures a in AssetsOf(x + y) {
      var k :| 0 <= k < |x| && x[k].asset == a;
      assert (x + y)[k].asset == a;
    }
    forall a | a in AssetsOf(y) ensures a in AssetsOf(x + y) {
      var k :| 0 <= k < |y| && y[k].asset == a;
      assert (x + y)[|x| + k].asset == a;
    }
  }

  lemma {:induction false} AssetsTouched(events: seq<Event>, a: Asset)
    requires forall k :: 0 <= k < |events| ==> Legs(events[k]).Some?
    ensures a in AssetsOf(AllLegs(events)) <==> AnyTouches(events, a)
    decreases |events|
  {
    hide Legs;
    hide Touches;
    if events != [] {
      var n := |events| - 1;
      AssetsTouched(events[..n], a);
      AnyTouchesOne(events, a);
      LegsTouch(events[n], a);
      AssetsOfBoth(AllLegs(events[..n]), Legs(events[n]).value);
    }
  }

  predicate IsWindow(i: Inputs) {
    1_793_664_000_000_000 <= i.anchor <= i.previous < i.cutoff <= i.previous + 86_400_000_000
  }

  /** The events of the window, sound and each listed once, with a full listing of every history. */
  ghost predicate SoundHistory(i: Inputs) {
    && i.events != None && |i.events.value| < 10_001 && SoundEvents(i.events.value, i.previous, i.cutoff)
    && forall s: Surface :: SoundCoverage(i, s, i.events.value)
  }

  /** Both snapshots with all four wallets, and the history between them. */
  ghost predicate FullEvidence(i: Inputs) {
    && IsWindow(i) && SoundHistory(i)
    && SnapshotAt(i, i.opening, i.previous) && SnapshotAt(i, i.closing, i.cutoff)
    && forall w: Wallet :: SoundWallet(i, i.opening, i.previous, w) && SoundWallet(i, i.closing, i.cutoff, w)
  }

  function Rows(snapshot: Option<Snapshot>, w: Wallet): seq<NativeRow> {
    if snapshot != None && w in snapshot.value.wallets then snapshot.value.wallets[w].rows else []
  }

  /** A row or an event names the asset. */
  ghost predicate IsNamed(i: Inputs, a: Asset)
    requires i.events.Some?
  {
    || (exists w: Wallet :: Mentions(Rows(i.opening, w), a) || Mentions(Rows(i.closing, w), a))
    || AnyTouches(i.events.value, a)
  }

  /** In this wallet the asset is listed at both ends, and its change is what the events did. */
  predicate Balanced(i: Inputs, w: Wallet, a: Asset)
    requires i.events.Some?
  {
    && Mentions(Rows(i.opening, w), a) && Mentions(Rows(i.closing, w), a)
    && SumOfRows(w, Rows(i.closing, w), a) - SumOfRows(w, Rows(i.opening, w), a) == SumOfMoves(i.events.value, w, a)
  }

  /** One history is fully listed. */
  ghost predicate SoundCoverage(i: Inputs, s: Surface, events: seq<Event>) {
    && s in i.receipts
    && i.receipts[s] == Coverage(i.receipts[s].receipt, i.previous, i.cutoff, "all_assets")
    && IsListing(i.receipts[s].receipt, i.binding, i.cutoff, Listing(events, s))
  }

  lemma CoverageIff(i: Inputs, s: Surface)
    requires EventsReadable(i)
    ensures CoverageOk(i, s) <==> SoundCoverage(i, s, i.events.value)
  {
    var events := i.events.value;
    SurfaceIsListing(events, s);
    if s in i.receipts {
      ReceiptIff(Some(i.receipts[s].receipt), i.binding, i.cutoff, OfSurface(events, s));
    }
    hide ReceiptOk;
    hide IsListing;
    hide OfSurface;
    hide Listing;
  }

  lemma HistoryIff(i: Inputs)
    ensures EventsProven(i) <==> SoundHistory(i)
  {
    if EventsReadable(i) {
      ReadingIff(i.events.value, i.previous, i.cutoff);
      AllSurfaces();
      forall s: Surface ensures CoverageOk(i, s) <==> SoundCoverage(i, s, i.events.value) {
        CoverageIff(i, s);
      }
    }
    hide CoverageOk;
    hide SoundCoverage;
    hide ReadEvents;
    hide SoundEvents;
  }

  lemma HeldSomewhere(i: Inputs, side: Side, a: Asset)
    ensures a in HeldIn(i, side) <==> exists w: Wallet :: a in Held(i, side, w)
  {
    hide Held;
    if w: Wallet :| a in Held(i, side, w) {
      match w
      case Spot =>
      case Funding =>
      case FlexibleEarn =>
      case LockedEarn =>
    }
  }

  lemma HeldIff(i: Inputs, side: Side, w: Wallet, a: Asset)
    requires FullEvidence(i)
    ensures Inventory(i, side, w).Some?
    ensures a in Held(i, side, w) <==> Mentions(Rows(if side == OpeningSide then i.opening else i.closing, w), a)
  {
    InventoryIff(i, side, w);
    hide Inventory;
    hide Mentions;
    hide SoundHistory;
    hide SnapshotAt;
  }

  lemma TouchedIff(i: Inputs, a: Asset)
    requires FullEvidence(i)
    ensures a in AssetsOf(Read(i).legs) <==> AnyTouches(i.events.value, a)
  {
    HistoryIff(i);
    ProvenLegs(i);
    AllProven(i);
    AssetsTouched(i.events.value, a);
    hide AnyTouches;
    hide AssetsOf;
    hide Read;
    hide SoundHistory;
    hide EventsProven;
  }

  lemma UniverseIff(i: Inputs, a: Asset)
    requires FullEvidence(i)
    ensures a in Universe(i) <==> IsNamed(i, a)
  {
    forall w: Wallet
      ensures a in Held(i, OpeningSide, w) <==> Mentions(Rows(i.opening, w), a)
      ensures a in Held(i, ClosingSide, w) <==> Mentions(Rows(i.closing, w), a)
    {
      HeldIff(i, OpeningSide, w, a);
      HeldIff(i, ClosingSide, w, a);
    }
    TouchedIff(i, a);
    HeldSomewhere(i, OpeningSide, a);
    HeldSomewhere(i, ClosingSide, a);
    hide HeldIn;
    hide Held;
    hide Mentions;
    hide AnyTouches;
    hide AssetsOf;
    hide Read;
    hide SoundWallet;
    hide SoundHistory;
    hide SnapshotAt;
    hide Rows;
  }

  lemma AllProven(i: Inputs)
    requires EventsProven(i)
    ensures i.events.Some? && EventList(i) == i.events.value
    ensures forall k :: 0 <= k < |EventList(i)| ==> Legs(EventList(i)[k]).Some?
  {
    ProvenReading(EventList(i), i.previous, i.cutoff);
    hide Legs;
    hide CoverageOk;
  }

  /** What `WalletConserves` demands of one asset. */
  predicate BalancedIn(i: Inputs, w: Wallet, a: Asset)
    requires Inventory(i, OpeningSide, w).Some? && Inventory(i, ClosingSide, w).Some?
  {
    && a in Inventory(i, OpeningSide, w).value && a in Inventory(i, ClosingSide, w).value
    && Inventory(i, ClosingSide, w).value[a]
       == Inventory(i, OpeningSide, w).value[a] + Movement(AllLegs(EventList(i)), w, a)
  }

  function SnapshotOn(i: Inputs, side: Side): Option<Snapshot> {
    if side == OpeningSide then i.opening else i.closing
  }

  /** The inventory of one side holds the assets of its rows, each with their sum. */
  lemma SideIs(i: Inputs, side: Side, w: Wallet, a: Asset)
    requires FullEvidence(i)
    ensures Inventory(i, side, w).Some?
    ensures a in Inventory(i, side, w).value <==> Mentions(Rows(SnapshotOn(i, side), w), a)
    ensures a in Inventory(i, side, w).value ==>
              Inventory(i, side, w).value[a] == SumOfRows(w, Rows(SnapshotOn(i, side), w), a)
  {
    InventoryIff(i, side, w);
    hide Inventory;
    hide Mentions;
    hide SumOfRows;
    hide SoundHistory;
    hide SnapshotAt;
  }

  /** The legs that were read are the moves of the events. */
  lemma MovesAre(i: Inputs, w: Wallet, a: Asset)
    requires FullEvidence(i)
    ensures i.events.Some? && Read(i).legs == AllLegs(EventList(i))
    ensures Movement(AllLegs(EventList(i)), w, a) == SumOfMoves(i.events.value, w, a)
  {
    HistoryIff(i);
    ProvenLegs(i);
    AllProven(i);
    EventsMove(i.events.value, w, a);
    hide Movement;
    hide SumOfMoves;
    hide SoundHistory;
    hide SoundWallet;
    hide EventsProven;
    hide Read;
  }

  lemma BalancedIff(i: Inputs, w: Wallet, a: Asset)
    requires FullEvidence(i) && Inventory(i, OpeningSide, w).Some? && Inventory(i, ClosingSide, w).Some?
    ensures i.events.Some? && (Balanced(i, w, a) <==> BalancedIn(i, w, a))
  {
    SideIs(i, OpeningSide, w, a);
    SideIs(i, ClosingSide, w, a);
    MovesAre(i, w, a);
    hide FullEvidence;
    hide Inventory;
    hide Mentions;
    hide Movement;
    hide AllLegs;
    hide EventList;
    hide SumOfMoves;
    hide SumOfRows;
  }

  lemma WalletConservesIff(i: Inputs, w: Wallet)
    requires Inventory(i, OpeningSide, w).Some? && Inventory(i, ClosingSide, w).Some?
    ensures WalletConserves(i, w) <==> forall a :: a in Universe(i) ==> BalancedIn(i, w, a)
  {
    hide Inventory;
    hide Universe;
    hide Movement;
    hide AllLegs;
    hide EventList;
  }

  /** One wallet conserves exactly when every asset named anywhere is balanced in it. */
  lemma WalletIff(i: Inputs, w: Wallet)
    requires FullEvidence(i) && Inventory(i, OpeningSide, w).Some? && Inventory(i, ClosingSide, w).Some?
    ensures i.events.Some? && (WalletConserves(i, w) <==> forall a :: IsNamed(i, a) ==> Balanced(i, w, a))
  {
    HasEvents(i);
    hide *;
    WalletConservesIff(i, w);
    forall a ensures a in Universe(i) <==> IsNamed(i, a) {
      UniverseIff(i, a);
    }
    forall a ensures Balanced(i, w, a) <==> BalancedIn(i, w, a) {
      BalancedIff(i, w, a);
    }
  }

  lemma HasEvents(i: Inputs)
    requires FullEvidence(i)
    ensures i.events.Some?
  {
    hide SoundEvents;
    hide SoundCoverage;
    hide SoundWallet;
  }

  lemma EvidenceIff(i: Inputs)
    ensures FullEvidence(i) <==>
              && WindowOk(i) && EventsProven(i)
              && forall w: Wallet :: Inventory(i, OpeningSide, w).Some? && Inventory(i, ClosingSide, w).Some?
  {
    HistoryIff(i);
    forall w: Wallet
      ensures Inventory(i, OpeningSide, w).Some?
              <==> SnapshotAt(i, i.opening, i.previous) && SoundWallet(i, i.opening, i.previous, w)
      ensures Inventory(i, ClosingSide, w).Some?
              <==> SnapshotAt(i, i.closing, i.cutoff) && SoundWallet(i, i.closing, i.cutoff, w)
    {
      InventoryIff(i, OpeningSide, w);
      InventoryIff(i, ClosingSide, w);
    }
    hide Inventory;
    hide SoundHistory;
    hide EventsProven;
    hide SnapshotAt;
    hide SoundWallet;
    if forall w: Wallet :: Inventory(i, OpeningSide, w).Some? && Inventory(i, ClosingSide, w).Some? {
      assert Inventory(i, OpeningSide, Spot).Some? && Inventory(i, ClosingSide, Spot).Some?;
    }
  }

  /**
  A report is matched exactly when both snapshots and every history of the window are fully listed and sound,
  and in each of the four wallets every asset that any row or event names is listed at both ends and has
  changed by exactly what the events say.
  */
  lemma MatchedIffBalanced(i: Inputs)
    ensures Matched(i) <==> FullEvidence(i) && forall w: Wallet, a :: IsNamed(i, a) ==> Balanced(i, w, a)
  {
    hide *;
    MatchedIffConserved(i);
    EvidenceIff(i);
    ConservedIff(i);
    if FullEvidence(i) {
      HasEvents(i);
      forall w: Wallet ensures WalletConserves(i, w) <==> forall a :: IsNamed(i, a) ==> Balanced(i, w, a) {
        WalletIff(i, w);
      }
      if Matched(i) {
        forall w: Wallet, a | IsNamed(i, a) ensures Balanced(i, w, a) {
          assert WalletConserves(i, w);
        }
      }
      if forall w: Wallet, a :: IsNamed(i, a) ==> Balanced(i, w, a) {
        forall w: Wallet ensures WalletConserves(i, w) {
        }
      }
    }
  }

  lemma ConservedIff(i: Inputs)
    ensures Conserved(i) <==> WindowOk(i) && EventsProven(i) && forall w: Wallet :: WalletConserves(i, w)
    ensures Conserved(i) ==>
              forall w: Wallet :: Inventory(i, OpeningSide, w).Some? && Inventory(i, ClosingSide, w).Some?
  {
    WalletMember();
    if Conserved(i) {
      forall w: Wallet ensures Inventory(i, OpeningSide, w).Some? && Inventory(i, ClosingSide, w).Some? {
        assert WalletConserves(i, w);
      }
    }
    hide EventsProven;
    hide Inventory;
    hide Universe;
  }

  // ---- Rows of the report ---------------------------------------------------------------------------

  /** What is left unexplained of one asset of one wallet. */
  function Unexplained(i: Inputs, w: Wallet, a: Asset): int
    requires i.events.Some?
  {
    SumOfRows(w, Rows(i.closing, w), a) - SumOfRows(w, Rows(i.opening, w), a) - SumOfMoves(i.events.value, w, a)
  }

  /** Every asset named anywhere is listed in this wallet at both ends. */
  ghost predicate ListsAll(i: Inputs, w: Wallet)
    requires i.events.Some?
  {
    forall a :: IsNamed(i, a) ==> Mentions(Rows(i.opening, w), a) && Mentions(Rows(i.closing, w), a)
  }

  lemma ListsAllIff(i: Inputs, w: Wallet)
    requires FullEvidence(i)
    ensures i.events.Some? && Comparable(i, w) && (Covered(i, w) <==> ListsAll(i, w))
  {
    HasEvents(i);
    ComparableIs(i, w);
    HeldEverywhere(i, w);
    hide *;
    CoveredMeans(i, w);
  }

  lemma ComparableIs(i: Inputs, w: Wallet)
    requires FullEvidence(i)
    ensures Comparable(i, w)
  {
    EvidenceIff(i);
    hide Inventory;
    hide EventsProven;
    hide FullEvidence;
  }

  lemma CoveredMeans(i: Inputs, w: Wallet)
    requires Comparable(i, w) && i.events.Some?
    requires forall a :: a in Universe(i) <==> IsNamed(i, a)
    requires forall a :: a in Held(i, OpeningSide, w) <==> Mentions(Rows(i.opening, w), a)
    requires forall a :: a in Held(i, ClosingSide, w) <==> Mentions(Rows(i.closing, w), a)
    ensures Covered(i, w) <==> ListsAll(i, w)
  {
    hide Universe;
    hide IsNamed;
    hide Held;
    hide Mentions;
    hide Comparable;
    hide Rows;
  }

  lemma HeldEverywhere(i: Inputs, w: Wallet)
    requires FullEvidence(i) && i.events.Some?
    ensures forall a :: a in Universe(i) <==> IsNamed(i, a)
    ensures forall a :: a in Held(i, OpeningSide, w) <==> Mentions(Rows(i.opening, w), a)
    ensures forall a :: a in Held(i, ClosingSide, w) <==> Mentions(Rows(i.closing, w), a)
  {
    hide *;
    forall a
      ensures a in Universe(i) <==> IsNamed(i, a)
      ensures a in Held(i, OpeningSide, w) <==> Mentions(Rows(i.opening, w), a)
      ensures a in Held(i, ClosingSide, w) <==> Mentions(Rows(i.closing, w), a)
    {
      UniverseIff(i, a);
      HeldIff(i, OpeningSide, w, a);
      HeldIff(i, ClosingSide, w, a);
    }
  }

  lemma ResidualIs(i: Inputs, w: Wallet, a: Asset)
    requires FullEvidence(i) && i.events.Some? && Comparable(i, w) && Covered(i, w) && a in Universe(i)
    ensures Residual(i, w, a) == Unexplained(i, w, a)
    ensures Movement(Read(i).legs, w, a) == SumOfMoves(i.events.value, w, a)
  {
    SideIs(i, OpeningSide, w, a);
    SideIs(i, ClosingSide, w, a);
    MovesAre(i, w, a);
    hide FullEvidence;
    hide Movement;
    hide AllLegs;
    hide SumOfMoves;
    hide SumOfRows;
    hide Mentions;
    hide EventsProven;
    hide Universe;
    hide Read;
    hide Inventory;
    hide Rows;
  }

  /**
  With full evidence a wallet that lists every asset named has its movements and residuals in the report, asset
  by asset, and is matched exactly when nothing is left unexplained; any other wallet has none.
  */
  lemma RowIs(i: Inputs, w: Wallet)
    requires FullEvidence(i)
    ensures i.events.Some?
    ensures var row := RowOf(i, w);
            && row.movements.Some? == row.residuals.Some? == ListsAll(i, w)
            && (row.matched <==> ListsAll(i, w) && forall a :: IsNamed(i, a) ==> Unexplained(i, w, a) == 0)
            && (ListsAll(i, w) ==> forall a ::
                  && (a in row.movements.value <==> IsNamed(i, a)) && (a in row.residuals.value <==> IsNamed(i, a))
                  && (IsNamed(i, a) ==>
                        && row.movements.value[a] == SumOfMoves(i.events.value, w, a)
                        && row.residuals.value[a] == Unexplained(i, w, a)))
  {
    ListsAllIff(i, w);
    if Covered(i, w) {
      forall a | a in Universe(i)
        ensures Residual(i, w, a) == Unexplained(i, w, a)
        ensures Movement(Read(i).legs, w, a) == SumOfMoves(i.events.value, w, a)
      {
        ResidualIs(i, w, a);
      }
    }
    forall a ensures a in Universe(i) <==> IsNamed(i, a) {
      UniverseIff(i, a);
    }
    hide Universe;
    hide IsNamed;
    hide Residual;
    hide Unexplained;
    hide Movement;
    hide SumOfMoves;
    hide ListsAll;
    hide Covered;
    hide Inventory;
    hide EventsProven;
    hide FullEvidence;
    hide Read;
  }

  lemma AllComparedIff(i: Inputs)
    requires FullEvidence(i)
    ensures i.events.Some? && (AllCompared(i) <==> forall w: Wallet :: ListsAll(i, w))
  {
    HasEvents(i);
    WalletMember();
    forall w: Wallet ensures Comparable(i, w) && (Covered(i, w) <==> ListsAll(i, w)) {
      ListsAllIff(i, w);
    }
    hide FullEvidence;
    hide Comparable;
    hide Covered;
    hide ListsAll;
  }

  /** The combined table is there when all wallets list every asset named, and adds them up. */
  lemma CombinedIs(i: Inputs)
    requires FullEvidence(i)
    ensures i.events.Some? && (CombinedOf(i).Some? <==> forall w: Wallet :: ListsAll(i, w))
    ensures CombinedOf(i).Some? ==> forall a ::
              && (a in CombinedOf(i).value <==> IsNamed(i, a))
              && (IsNamed(i, a) ==> CombinedOf(i).value[a] == CombinedRow(
                    FourRows(i.opening, a), FourRows(i.closing, a), FourMoves(i.events.value, a),
                    FourRows(i.closing, a) - FourRows(i.opening, a) - FourMoves(i.events.value, a)))
  {
    AllComparedIff(i);
    if AllCompared(i) {
      forall a ensures a in Universe(i) <==> IsNamed(i, a) {
        UniverseIff(i, a);
      }
      forall a | a in Universe(i)
        ensures CombinedAt(i, a) == CombinedRow(
                  FourRows(i.opening, a), FourRows(i.closing, a), FourMoves(i.events.value, a),
                  FourRows(i.closing, a) - FourRows(i.opening, a) - FourMoves(i.events.value, a))
      {
        CombinedAtIs(i, a);
      }
    }
    hide *;
    CombinedIsTable(i);
  }

  lemma CombinedIsTable(i: Inputs)
    ensures CombinedOf(i).Some? <==> AllCompared(i)
    ensures AllCompared(i) ==>
              CombinedOf(i).value.Keys == Universe(i)
              && forall a :: a in Universe(i) ==> CombinedOf(i).value[a] == CombinedAt(i, a)
  {
    hide AllCompared;
    hide Universe;
    hide CombinedAt;
  }

  /** What the rows of the four wallets hold of one asset. */
  function FourRows(snapshot: Option<Snapshot>, a: Asset): int {
    SumOfRows(Spot, Rows(snapshot, Spot), a) + SumOfRows(Funding, Rows(snapshot, Funding), a)
    + SumOfRows(FlexibleEarn, Rows(snapshot, FlexibleEarn), a) + SumOfRows(LockedEarn, Rows(snapshot, LockedEarn), a)
  }

  function FourMoves(events: seq<Event>, a: Asset): int {
    SumOfMoves(events, Spot, a) + SumOfMoves(events, Funding, a)
    + SumOfMoves(events, FlexibleEarn, a) + SumOfMoves(events, LockedEarn, a)
  }

  lemma CombinedAtIs(i: Inputs, a: Asset)
    requires FullEvidence(i) && i.events.Some? && AllCompared(i) && a in Universe(i)
    ensures CombinedAt(i, a) == CombinedRow(
              FourRows(i.opening, a), FourRows(i.closing, a), FourMoves(i.events.value, a),
              FourRows(i.closing, a) - FourRows(i.opening, a) - FourMoves(i.events.value, a))
  {
    hide FullEvidence;
    hide AllCompared;
    hide CombinedAt;
    hide HeldOf;
    hide Movement;
    hide Residual;
    hide Universe;
    hide Comparable;
    hide Covered;
    hide Read;
    hide SumOfRows;
    hide SumOfMoves;
    hide Rows;
    EveryWalletCompared(i);
    WalletIs(i, Spot, a);
    WalletIs(i, Funding, a);
    WalletIs(i, FlexibleEarn, a);
    WalletIs(i, LockedEarn, a);
    FourWallets(i, a);
  }

  lemma EveryWalletCompared(i: Inputs)
    requires AllCompared(i)
    ensures forall w: Wallet :: Comparable(i, w) && Covered(i, w)
  {
    WalletMember();
    hide Comparable;
    hide Covered;
  }

  /** The cells of one wallet in the combined row. */
  lemma WalletIs(i: Inputs, w: Wallet, a: Asset)
    requires FullEvidence(i) && i.events.Some? && Comparable(i, w) && Covered(i, w) && a in Universe(i)
    ensures Residual(i, w, a) == SumOfRows(w, Rows(i.closing, w), a) - SumOfRows(w, Rows(i.opening, w), a)
                                 - SumOfMoves(i.events.value, w, a)
    ensures Movement(Read(i).legs, w, a) == SumOfMoves(i.events.value, w, a)
    ensures HeldOf(i, OpeningSide, w, a) == SumOfRows(w, Rows(i.opening, w), a)
    ensures HeldOf(i, ClosingSide, w, a) == SumOfRows(w, Rows(i.closing, w), a)
  {
    ResidualIs(i, w, a);
    HeldIs(i, w, a);
    hide FullEvidence;
    hide Residual;
    hide Movement;
    hide SumOfMoves;
    hide SumOfRows;
    hide HeldOf;
    hide Rows;
    hide Read;
    hide Universe;
    hide Comparable;
    hide Covered;
  }

  lemma FourWallets(i: Inputs, a: Asset)
    requires AllCompared(i) && a in Universe(i)
    requires forall w: Wallet :: Comparable(i, w) && Covered(i, w)
    ensures CombinedAt(i, a) == CombinedRow(
              HeldOf(i, OpeningSide, Spot, a) + HeldOf(i, OpeningSide, Funding, a)
              + HeldOf(i, OpeningSide, FlexibleEarn, a) + HeldOf(i, OpeningSide, LockedEarn, a),
              HeldOf(i, ClosingSide, Spot, a) + HeldOf(i, ClosingSide, Funding, a)
              + HeldOf(i, ClosingSide, FlexibleEarn, a) + HeldOf(i, ClosingSide, LockedEarn, a),
              Movement(Read(i).legs, Spot, a) + Movement(Read(i).legs, Funding, a)
              + Movement(Read(i).legs, FlexibleEarn, a) + Movement(Read(i).legs, LockedEarn, a),
              Residual(i, Spot, a) + Residual(i, Funding, a)
              + Residual(i, FlexibleEarn, a) + Residual(i, LockedEarn, a))
  {
    hide HeldOf;
    hide Movement;
    hide Residual;
    hide Universe;
    hide Comparable;
    hide Covered;
    hide Read;
  }

  lemma HeldIs(i: Inputs, w: Wallet, a: Asset)
    requires FullEvidence(i) && Comparable(i, w) && Covered(i, w) && a in Universe(i)
    ensures HeldOf(i, OpeningSide, w, a) == SumOfRows(w, Rows(i.opening, w), a)
    ensures HeldOf(i, ClosingSide, w, a) == SumOfRows(w, Rows(i.closing, w), a)
  {
    SideIs(i, OpeningSide, w, a);
    SideIs(i, ClosingSide, w, a);
    hide FullEvidence;
    hide SumOfRows;
    hide Rows;
    hide Mentions;
    hide Universe;
    hide Inventory;
    hide EventsProven;
  }
}

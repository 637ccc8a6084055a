/**
reconstruct of infra/btc_attribution.py: the declared opening, fills and transfers are replayed in time
order and must end at the observed balances. Quantities are integers in units of 10^-18; additions are
those of Python's default 28-digit context.
*/
module BtcAttribution {
  import opened Outcomes
  import opened Sequences
  import Decimals

  const PRECISION: nat := 28

  /** 1e9 in units of 1e-18. */
  const LIMIT: int := 1_000_000_000_000_000_000_000_000_000

  datatype Side = Buy | Sell | OtherSide

  datatype Direction = SpotToEarn | EarnToSpot | OtherDirection

  /** An amount that is not a decimal within the limits is any integer outside them. */
  datatype Event =
    | Fill(id: string, at: int, side: Side, quantity: int, feeAsset: string, fee: int)
    | Transfer(id: string, at: int, direction: Direction, quantity: int)

  type FillEvent = e: Event | e.Fill? witness Fill("", 0, Buy, 0, "", 0)

  type TransferEvent = e: Event | e.Transfer? witness Transfer("", 0, SpotToEarn, 0)

  /** `bound` stands for the contract version, the account binding and the completeness claim. */
  datatype Snapshot = Snapshot(
    bound: bool, openingAt: int, observedThrough: int, availableAt: int, unsettled: nat,
    openingSpot: int, openingEarn: int, fills: seq<FillEvent>, transfers: seq<TransferEvent>,
    observedSpot: int, observedEarn: int)

  datatype Balances = Balances(spot: int, earn: int, fees: map<string, int>)

  predicate AmountOk(x: int) {
    0 <= x <= LIMIT
  }

  predicate IsIdentity(s: string) {
    |s| > 0 && s[0] != ' ' && s[|s| - 1] != ' '
  }

  predicate IsFeeAsset(s: string) {
    |s| > 0 && forall k :: 0 <= k < |s| ==> 'A' <= s[k] <= 'Z' || '0' <= s[k] <= '9'
  }

  function Plus(x: int, y: int): int {
    Decimals.RoundTo(x + y, PRECISION)
  }

  lemma PowersOfTen(n: nat)
    requires n == 28
    ensures Decimals.Pow10(n) == 10 * LIMIT
  {
    assert Decimals.Pow10(0) == 1 && Decimals.Pow10(1) == 10 * Decimals.Pow10(0);
    assert Decimals.Pow10(2) == 10 * Decimals.Pow10(1);
    assert Decimals.Pow10(3) == 10 * Decimals.Pow10(2);
    Decimals.PowAdd(3, 3);
    Decimals.PowAdd(6, 1);
    Decimals.PowAdd(7, 7);
    Decimals.PowAdd(14, 14);
    assert 14 + 14 == n;
  }

  /** 10 + 18 digits: below 1e10 nothing is rounded. */
  lemma PlusIsExact(x: int, y: int)
    requires -10 * LIMIT < x + y < 10 * LIMIT
    ensures Plus(x, y) == x + y
  {
    PowersOfTen(28);
    hide Decimals.Pow10;
    hide Decimals.DigitCount;
    hide Decimals.RoundedUnits;
  }

  // ---- The replay as a function -----------------------------------------------------------------

  /** What an event does to the Spot and Earn balances, exactly. */
  function SpotDelta(e: Event): int {
    match e
    case Fill(_, _, side, quantity, feeAsset, fee) =>
      (if side.Buy? then quantity else if side.Sell? then -quantity else 0) - (if feeAsset == "BTC" then fee else 0)
    case Transfer(_, _, direction, quantity) =>
      if direction.SpotToEarn? then -quantity else if direction.EarnToSpot? then quantity else 0
  }

  function EarnDelta(e: Event): int {
    match e
    case Fill(_, _, _, _, _, _) => 0
    case Transfer(_, _, direction, quantity) =>
      if direction.SpotToEarn? then quantity else if direction.EarnToSpot? then -quantity else 0
  }

  predicate EventOk(e: Event) {
    && 0 < e.quantity && AmountOk(e.quantity)
    && (e.Fill? ==> IsFeeAsset(e.feeAsset) && AmountOk(e.fee) && !e.side.OtherSide?)
    && (e.Transfer? ==> !e.direction.OtherDirection?)
  }

  function FeesAfter(fees: map<string, int>, e: Event): map<string, int> {
    if e.Transfer? then fees
    else fees[e.feeAsset := Plus(if e.feeAsset in fees then fees[e.feeAsset] else 0, e.fee)]
  }

  /** One event on the balances; None when it is refused or leaves them outside the limits. */
  function Replay(b: Balances, e: Event): Option<Balances> {
    var spot, earn := b.spot + SpotDelta(e), b.earn + EarnDelta(e);
    if EventOk(e) && AmountOk(spot) && AmountOk(earn) then Some(Balances(spot, earn, FeesAfter(b.fees, e))) else None
  }

  function ReplayAll(b: Balances, events: seq<Event>): Option<Balances> {
    if events == [] then Some(b)
    else
      match ReplayAll(b, events[..|events| - 1])
      case None => None
      case Some(before) => Replay(before, events[|events| - 1])
  }

  function Insert(sorted: seq<Event>, e: Event): seq<Event> {
    if sorted == [] || sorted[|sorted| - 1].at <= e.at then sorted + [e]
    else Insert(sorted[..|sorted| - 1], e) + [sorted[|sorted| - 1]]
  }

  /** `events.sort(key=time)`, stable */
  function SortByTime(events: seq<Event>): seq<Event> {
    if events == [] then [] else Insert(SortByTime(events[..|events| - 1]), events[|events| - 1])
  }

  predicate NoRepeats<T(==)>(s: seq<T>) {
    forall i, j :: 0 <= i < j < |s| ==> s[i] != s[j]
  }

  function Ids(events: seq<Event>): (s: seq<string>)
    ensures |s| == |events|
  {
    seq(|events|, i requires 0 <= i < |events| => events[i].id)
  }

  function Times(events: seq<Event>): (s: seq<int>)
    ensures |s| == |events|
  {
    seq(|events|, i requires 0 <= i < |events| => events[i].at)
  }

  function EventsOf(s: Snapshot): seq<Event> {
    s.fills + s.transfers
  }

  /** Every event has an identity and a time within the window. */
  predicate Stamped(events: seq<Event>, since: int, now: int) {
    forall i :: 0 <= i < |events| ==> IsIdentity(events[i].id) && since < events[i].at <= now
  }

  predicate WellFormed(s: Snapshot, now: int) {
    && s.bound && s.openingAt < s.observedThrough == now && s.availableAt == now
    && s.unsettled == 0 && |s.fills| + |s.transfers| <= 10_000
    && AmountOk(s.openingSpot) && AmountOk(s.openingEarn)
    && Stamped(EventsOf(s), s.openingAt, now)
    && NoRepeats(Ids(EventsOf(s))) && NoRepeats(Times(EventsOf(s)))
  }

  function Reconstructed(s: Snapshot, now: int): Option<Balances> {
    if !WellFormed(s, now) then None
    else
      match ReplayAll(Balances(s.openingSpot, s.openingEarn, map[]), SortByTime(EventsOf(s)))
      case None => None
      case Some(b) =>
        if AmountOk(s.observedSpot) && AmountOk(s.observedEarn) && b.spot == s.observedSpot
          && b.earn == s.observedEarn then Some(b)
        else None
  }

  // ---- The replay as code -----------------------------------------------------------------------

  /** A fill on the running Spot balance; its fee is booked whatever its asset. */
  method ApplyFill(spot: int, fees: map<string, int>, e: Event) returns (ok: bool, after: int, booked: map<string, int>)
    requires e.Fill? && AmountOk(spot) && AmountOk(e.quantity)
    ensures ok <==> IsFeeAsset(e.feeAsset) && AmountOk(e.fee) && !e.side.OtherSide?
    ensures ok ==> after == spot + SpotDelta(e) && booked == FeesAfter(fees, e)
  {
    hide Plus;
    after, booked := spot, fees;
    if !IsFeeAsset(e.feeAsset) || !AmountOk(e.fee) {
      return false, spot, fees;
    }
    booked := fees[e.feeAsset := Plus(if e.feeAsset in fees then fees[e.feeAsset] else 0, e.fee)];
    match e.side {
      case Buy =>
        PlusIsExact(spot, e.quantity);
        after := Plus(spot, e.quantity);
      case Sell =>
        PlusIsExact(spot, -e.quantity);
        after := Plus(spot, -e.quantity);
      case OtherSide => return false, spot, fees;
    }
    if e.feeAsset == "BTC" {
      PlusIsExact(after, -e.fee);
      after := Plus(after, -e.fee);
    }
    ok := true;
  }

  /** A move between Spot and Earn. */
  method ApplyTransfer(spot: int, earn: int, e: Event) returns (ok: bool, newSpot: int, newEarn: int)
    requires e.Transfer? && AmountOk(spot) && AmountOk(earn) && AmountOk(e.quantity)
    ensures ok <==> !e.direction.OtherDirection?
    ensures ok ==> newSpot == spot + SpotDelta(e) && newEarn == earn + EarnDelta(e)
  {
    hide Plus;
    match e.direction
    case SpotToEarn =>
      PlusIsExact(spot, -e.quantity);
      PlusIsExact(earn, e.quantity);
      return true, Plus(spot, -e.quantity), Plus(earn, e.quantity);
    case EarnToSpot =>
      PlusIsExact(earn, -e.quantity);
      PlusIsExact(spot, e.quantity);
      return true, Plus(spot, e.quantity), Plus(earn, -e.quantity);
    case OtherDirection => return false, spot, earn;
  }

  /** The loop over the sorted events: the running balances are updated in place. */
  method ReplayLoop(opening: Balances, events: seq<Event>) returns (r: Option<Balances>)
    requires AmountOk(opening.spot) && AmountOk(opening.earn)
    ensures r == ReplayAll(opening, events)
  {
    hide FeesAfter;
    hide IsFeeAsset;
    var spot, earn, fees := opening.spot, opening.earn, opening.fees;
    for i := 0 to |events|
      invariant ReplayAll(opening, events[..i]) == Some(Balances(spot, earn, fees))
      invariant AmountOk(spot) && AmountOk(earn)
    {
      var e, ok := events[i], false;
      assert events[..i + 1][..i] == events[..i];
      ReplayFailsEarly(opening, events, i + 1);
      if e.quantity <= 0 || !AmountOk(e.quantity) {
        return None;
      }
      if e.Fill? {
        ok, spot, fees := ApplyFill(spot, fees, e);
      } else {
        ok, spot, earn := ApplyTransfer(spot, earn, e);
        assert FeesAfter(fees, e) == fees by { TransferBooksNoFee(fees, e); }
      }
      if !ok || !AmountOk(spot) || !AmountOk(earn) {
        return None;
      }
    }
    assert events[..|events|] == events;
    r := Some(Balances(spot, earn, fees));
  }

  lemma TransferBooksNoFee(fees: map<string, int>, e: Event)
    requires e.Transfer?
    ensures FeesAfter(fees, e) == fees
  {
  }

  lemma {:induction false} ReplayFailsEarly(b: Balances, events: seq<Event>, n: nat)
    requires n <= |events|
    ensures ReplayAll(b, events[..n]).None? ==> ReplayAll(b, events).None?
    decreases |events|
  {
    hide Replay;
    if n < |events| {
      ReplayFailsEarly(b, events[..|events| - 1], n);
      assert events[..|events| - 1][..n] == events[..n];
    } else {
      assert events[..n] == events;
    }
  }

  function Members<T>(s: seq<T>): set<T> {
    set x | x in s
  }

  /** As many different members as places means none is repeated. */
  lemma {:induction false} CountedMembers<T>(s: seq<T>)
    ensures |Members(s)| <= |s|
    ensures |Members(s)| == |s| <==> NoRepeats(s)
  {
    if s != [] {
      var n := |s| - 1;
      CountedMembers(s[..n]);
      assert s == s[..n] + [s[n]];
      assert Members(s) == Members(s[..n]) + {s[n]};
      LastRepeats(s);
    }
  }

  lemma LastRepeats<T>(s: seq<T>)
    requires s != []
    ensures NoRepeats(s) <==> NoRepeats(s[..|s| - 1]) && s[|s| - 1] !in Members(s[..|s| - 1])
  {
    var n := |s| - 1;
    assert forall i :: 0 <= i < n ==> s[..n][i] == s[i];
    if s[n] in Members(s[..n]) {
      var i :| 0 <= i < n && s[..n][i] == s[n];
      assert s[i] == s[n];
    }
  }

  predicate ListedOk(events: seq<Event>, since: int, now: int) {
    Stamped(events, since, now) && NoRepeats(Ids(events))
  }

  /** The loop that collects the events and their identities. */
  method CheckListed(events: seq<Event>, since: int, now: int) returns (ok: bool)
    ensures ok <==> ListedOk(events, since, now)
  {
    var ids: set<string> := {};
    for i := 0 to |events|
      invariant forall k :: 0 <= k < i ==> IsIdentity(events[k].id) && since < events[k].at <= now
      invariant forall j, k :: 0 <= j < k < i ==> events[j].id != events[k].id
      invariant ids == set k | 0 <= k < i :: events[k].id
    {
      var e := events[i];
      if e.id in ids {
        var k :| 0 <= k < i && events[k].id == e.id;
        assert Ids(events)[k] == Ids(events)[i];
        return false;
      }
      if !IsIdentity(e.id) || e.at <= since || e.at > now {
        return false;
      }
      ids := ids + {e.id};
    }
    ok := true;
  }

  /** `reconstruct` */
  method Reconstruct(s: Snapshot, now: int) returns (r: Option<Balances>)
    ensures r == Reconstructed(s, now)
  {
    hide ReplayAll;
    hide SortByTime;
    hide IsIdentity;
    if !s.bound || s.observedThrough <= s.openingAt || s.observedThrough != now || s.availableAt != now
       || s.unsettled != 0 || |s.fills| + |s.transfers| > 10_000 || !AmountOk(s.openingSpot)
         || !AmountOk(s.openingEarn) {
      return None;
    }
    var listed := EventsOf(s);
    var ok := CheckListed(listed, s.openingAt, now);
    CountedMembers(Times(listed));
    if !ok || |Members(Times(listed))| != |listed| {
      return None;
    }
    var replayed := ReplayLoop(Balances(s.openingSpot, s.openingEarn, map[]), SortByTime(listed));
    if replayed.None? || !AmountOk(s.observedSpot) || !AmountOk(s.observedEarn)
       || replayed.value.spot != s.observedSpot || replayed.value.earn != s.observedEarn {
      return None;
    }
    r := replayed;
  }

  // ---- The order of the lists ---------------------------------------------------------------------

  predicate StrictlyOrdered(events: seq<Event>) {
    forall i, j :: 0 <= i < j < |events| ==> events[i].at < events[j].at
  }

  predicate InOrder(events: seq<Event>) {
    forall i, j :: 0 <= i < j < |events| ==> events[i].at <= events[j].at
  }

  lemma {:induction false} InsertMultiset(sorted: seq<Event>, e: Event)
    ensures multiset(Insert(sorted, e)) == multiset(sorted) + multiset{e}
  {
    if !(sorted == [] || sorted[|sorted| - 1].at <= e.at) {
      InsertMultiset(sorted[..|sorted| - 1], e);
      assert sorted == sorted[..|sorted| - 1] + [sorted[|sorted| - 1]];
    }
  }

  lemma {:induction false} InsertOrder(sorted: seq<Event>, e: Event)
    requires InOrder(sorted)
    ensures InOrder(Insert(sorted, e)) && forall x :: x in Insert(sorted, e) ==> x == e || x in sorted
  {
    if sorted == [] || sorted[|sorted| - 1].at <= e.at {
      assert forall i :: 0 <= i < |sorted| ==> sorted[i].at <= e.at;
    } else {
      var n := |sorted| - 1;
      InsertOrder(sorted[..n], e);
      LastInOrder(Insert(sorted[..n], e), sorted[n]);
    }
  }

  lemma LastInOrder(events: seq<Event>, last: Event)
    requires InOrder(events) && forall x :: x in events ==> x.at <= last.at
    ensures InOrder(events + [last])
  {
  }

  lemma {:induction false} SortMultiset(events: seq<Event>)
    ensures multiset(SortByTime(events)) == multiset(events)
  {
    hide Insert;
    if events != [] {
      var n := |events| - 1;
      SortMultiset(events[..n]);
      InsertMultiset(SortByTime(events[..n]), events[n]);
      assert events == events[..n] + [events[n]];
    }
  }

  lemma {:induction false} SortOrder(events: seq<Event>)
    ensures InOrder(SortByTime(events))
  {
    if events != [] {
      SortOrder(events[..|events| - 1]);
      InsertOrder(SortByTime(events[..|events| - 1]), events[|events| - 1]);
    }
  }

  lemma DropSame(a: seq<Event>, b: seq<Event>)
    requires a != [] && b != [] && multiset(a) == multiset(b) && a[|a| - 1] == b[|b| - 1]
    ensures multiset(a[..|a| - 1]) == multiset(b[..|b| - 1])
  {
    Without(a, |a| - 1);
    Without(b, |b| - 1);
    assert a[..|a| - 1] + a[|a| - 1 + 1..] == a[..|a| - 1];
    assert b[..|b| - 1] + b[|b| - 1 + 1..] == b[..|b| - 1];
  }

  /** Two time-ordered lists of the same events at different times are the same list. */
  lemma {:induction false} OrderIsUnique(a: seq<Event>, b: seq<Event>)
    requires multiset(a) == multiset(b) && StrictlyOrdered(a) && StrictlyOrdered(b)
    ensures a == b
    decreases |a|
  {
    SameMembers(a, b);
    if a != [] {
      var n := |a| - 1;
      LatestIsLast(a, b);
      DropSame(a, b);
      OrderIsUnique(a[..n], b[..n]);
      assert a == a[..n] + [a[n]] && b == b[..n] + [b[n]];
    }
  }

  lemma LatestIsLast(a: seq<Event>, b: seq<Event>)
    requires a != [] && |a| == |b| && (forall e :: e in a <==> e in b) && StrictlyOrdered(a) && StrictlyOrdered(b)
    ensures a[|a| - 1] == b[|b| - 1]
  {
    var n := |a| - 1;
    assert a[n] in b && b[n] in a;
    var i :| 0 <= i <= n && b[i] == a[n];
    var j :| 0 <= j <= n && a[j] == b[n];
    assert b[i].at < b[n].at || i == n;
    assert a[j].at < a[n].at || j == n;
  }

  /** Whether identities or times repeat does not depend on the order. */
  lemma RepeatsIgnoreOrder(a: seq<Event>, b: seq<Event>)
    requires multiset(a) == multiset(b)
    ensures NoRepeats(Ids(a)) <==> NoRepeats(Ids(b))
    ensures NoRepeats(Times(a)) <==> NoRepeats(Times(b))
  {
    SameMembers(a, b);
    MembersWithin(a, b);
    MembersWithin(b, a);
    assert Members(Ids(a)) == Members(Ids(b)) && Members(Times(a)) == Members(Times(b));
    CountedMembers(Ids(a));
    CountedMembers(Ids(b));
    CountedMembers(Times(a));
    CountedMembers(Times(b));
  }

  lemma MembersWithin(a: seq<Event>, b: seq<Event>)
    requires forall e :: e in a ==> e in b
    ensures Members(Ids(a)) <= Members(Ids(b)) && Members(Times(a)) <= Members(Times(b))
  {
    forall x | x in Ids(a) ensures x in Ids(b) {
      var i :| 0 <= i < |a| && Ids(a)[i] == x;
      assert a[i] in b;
      var j :| 0 <= j < |b| && b[j] == a[i];
      assert Ids(b)[j] == x;
    }
    forall t | t in Times(a) ensures t in Times(b) {
      var i :| 0 <= i < |a| && Times(a)[i] == t;
      assert a[i] in b;
      var j :| 0 <= j < |b| && b[j] == a[i];
      assert Times(b)[j] == t;
    }
  }

  lemma SortedStrictly(events: seq<Event>)
    requires NoRepeats(Times(events))
    ensures StrictlyOrdered(SortByTime(events))
  {
    var sorted := SortByTime(events);
    SortOrder(events);
    SortMultiset(events);
    RepeatsIgnoreOrder(events, sorted);
    forall i, j | 0 <= i < j < |sorted| ensures sorted[i].at < sorted[j].at {
      assert Times(sorted)[i] != Times(sorted)[j];
    }
  }

  lemma SortIgnoresOrder(a: seq<Event>, b: seq<Event>)
    requires multiset(a) == multiset(b) && NoRepeats(Times(a))
    ensures SortByTime(a) == SortByTime(b)
  {
    RepeatsIgnoreOrder(a, b);
    SortMultiset(a);
    SortMultiset(b);
    SortedStrictly(a);
    SortedStrictly(b);
    OrderIsUnique(SortByTime(a), SortByTime(b));
  }

  /** The same snapshot with its fills and transfers listed in another order. */
  predicate Relisted(s: Snapshot, t: Snapshot) {
    && multiset(s.fills) == multiset(t.fills) && multiset(s.transfers) == multiset(t.transfers)
    && t == s.(fills := t.fills, transfers := t.transfers)
  }

  /** The reconstruction does not depend on the order in which fills and transfers are listed. */
  lemma ReconstructionIgnoresOrder(s: Snapshot, t: Snapshot, now: int)
    requires Relisted(s, t)
    ensures Reconstructed(s, now) == Reconstructed(t, now)
  {
    var a, b := EventsOf(s), EventsOf(t);
    assert multiset(a) == multiset(b);
    SameMembers(s.fills, t.fills);
    SameMembers(s.transfers, t.transfers);
    SameMembers(a, b);
    RepeatsIgnoreOrder(a, b);
    SameStamps(a, b, s.openingAt, now);
    SameStamps(b, a, s.openingAt, now);
    if NoRepeats(Times(a)) {
      SortIgnoresOrder(a, b);
    }
    hide SortByTime;
    hide ReplayAll;
    hide NoRepeats;
  }

  lemma SameStamps(a: seq<Event>, b: seq<Event>, since: int, now: int)
    requires forall e :: e in a ==> e in b
    ensures Stamped(b, since, now) ==> Stamped(a, since, now)
  {
    forall i | 0 <= i < |a| && Stamped(b, since, now) ensures IsIdentity(a[i].id) && since < a[i].at <= now {
      assert a[i] in b;
      var j :| 0 <= j < |b| && b[j] == a[i];
    }
  }

  // ---- Conservation -------------------------------------------------------------------------------

  function SumSpot(events: seq<Event>): int {
    if events == [] then 0 else SumSpot(events[..|events| - 1]) + SpotDelta(events[|events| - 1])
  }

  function SumEarn(events: seq<Event>): int {
    if events == [] then 0 else SumEarn(events[..|events| - 1]) + EarnDelta(events[|events| - 1])
  }

  /** Buys minus sells minus fees paid in BTC. */
  function NetBought(events: seq<Event>): int {
    if events == [] then 0
    else
      var last := events[|events| - 1];
      NetBought(events[..|events| - 1])
      + (if last.Transfer? then 0
         else (if last.side.Buy? then last.quantity else if last.side.Sell? then -last.quantity else 0)
              - (if last.feeAsset == "BTC" then last.fee else 0))
  }

  lemma {:induction false} ReplayedSums(b: Balances, events: seq<Event>)
    requires ReplayAll(b, events).Some?
    ensures ReplayAll(b, events).value.spot == b.spot + SumSpot(events)
    ensures ReplayAll(b, events).value.earn == b.earn + SumEarn(events)
    ensures SumSpot(events) + SumEarn(events) == NetBought(events)
  {
    if events != [] {
      ReplayedSums(b, events[..|events| - 1]);
    }
  }

  lemma {:induction false} NetWithout(events: seq<Event>, k: nat)
    requires k < |events|
    ensures NetBought(events) == NetBought(events[..k] + events[k + 1..]) + NetBought([events[k]])
    decreases |events|
  {
    var n := |events| - 1;
    assert [events[k]][..0] == [];
    if k < n {
      NetWithout(events[..n], k);
      var without := events[..k] + events[k + 1..];
      assert events[..n][..k] + events[..n][k + 1..] == without[..|without| - 1];
      assert without[|without| - 1] == events[n];
    } else {
      assert events[..k] + events[k + 1..] == events[..n];
    }
  }

  lemma {:induction false} NetIgnoresOrder(a: seq<Event>, b: seq<Event>)
    requires multiset(a) == multiset(b)
    ensures NetBought(a) == NetBought(b)
    decreases |a|
  {
    SameMembers(a, b);
    if a != [] {
      var n := |a| - 1;
      assert a[n] in b;
      var k :| 0 <= k < |b| && b[k] == a[n];
      Without(a, n);
      Without(b, k);
      assert a[..n] + a[n + 1..] == a[..n];
      NetIgnoresOrder(a[..n], b[..k] + b[k + 1..]);
      NetWithout(a, n);
      NetWithout(b, k);
    }
  }

  /** Spot and Earn together are the opening plus the bought minus the sold minus the BTC fees. */
  lemma OwnershipIsConserved(s: Snapshot, now: int)
    requires Reconstructed(s, now).Some?
    ensures var b := Reconstructed(s, now).value;
            && b.spot + b.earn == s.openingSpot + s.openingEarn + NetBought(EventsOf(s))
            && b.spot == s.observedSpot && b.earn == s.observedEarn
  {
    var sorted := SortByTime(EventsOf(s));
    ReplayedSums(Balances(s.openingSpot, s.openingEarn, map[]), sorted);
    SortMultiset(EventsOf(s));
    NetIgnoresOrder(sorted, EventsOf(s));
    hide SortByTime;
    hide ReplayAll;
  }

  lemma {:induction false} ReplayedPrefix(b: Balances, events: seq<Event>, n: nat)
    requires n <= |events| && ReplayAll(b, events).Some?
    ensures ReplayAll(b, events[..n]).Some?
    ensures n > 0 ==> AmountOk(ReplayAll(b, events[..n]).value.spot) && AmountOk(ReplayAll(b, events[..n]).value.earn)
    decreases |events|
  {
    if n < |events| {
      ReplayedPrefix(b, events[..|events| - 1], n);
      assert events[..|events| - 1][..n] == events[..n];
    } else {
      assert events[..n] == events;
    }
  }

  /** After each event, in time order, both balances are what the exact sums say, and never negative. */
  lemma BalancesStayWithinLimits(s: Snapshot, now: int, n: nat)
    requires Reconstructed(s, now).Some? && n <= |EventsOf(s)|
    ensures |SortByTime(EventsOf(s))| == |EventsOf(s)|
    ensures var sorted := SortByTime(EventsOf(s));
            && 0 <= s.openingSpot + SumSpot(sorted[..n]) <= LIMIT
            && 0 <= s.openingEarn + SumEarn(sorted[..n]) <= LIMIT
  {
    var sorted, opening := SortByTime(EventsOf(s)), Balances(s.openingSpot, s.openingEarn, map[]);
    SortMultiset(EventsOf(s));
    SameMembers(sorted, EventsOf(s));
    ReplayedPrefix(opening, sorted, n);
    ReplayedSums(opening, sorted[..n]);
    hide SortByTime;
    hide ReplayAll;
  }

  // ---- Fee totals ---------------------------------------------------------------------------------

  /** The fees booked in one asset, in order. */
  function FeesIn(events: seq<Event>, a: string): seq<int> {
    if events == [] then []
    else
      var last := events[|events| - 1];
      FeesIn(events[..|events| - 1], a) + (if last.Fill? && last.feeAsset == a then [last.fee] else [])
  }

  /** The total of one asset's fees, zero if it has none. */
  function FeeTotal(b: Balances, a: string): int {
    if a in b.fees then b.fees[a] else 0
  }

  lemma {:induction false} ReplayedFees(b: Balances, events: seq<Event>, a: string)
    requires b.fees == map[] && ReplayAll(b, events).Some?
    ensures FeeTotal(ReplayAll(b, events).value, a) == Decimals.Accumulated(FeesIn(events, a), PRECISION)
    ensures forall k :: 0 <= k < |FeesIn(events, a)| ==> AmountOk(FeesIn(events, a)[k])
    ensures a in ReplayAll(b, events).value.fees <==> FeesIn(events, a) != []
  {
    hide IsFeeAsset;
    hide AmountOk;
    hide SpotDelta;
    hide EarnDelta;
    hide Decimals.RoundTo;
    if events != [] {
      var n, last := |events| - 1, events[|events| - 1];
      ReplayedFees(b, events[..n], a);
      var before := FeesIn(events[..n], a);
      if last.Fill? && last.feeAsset == a {
        assert (before + [last.fee])[..|before|] == before;
      } else {
        assert before + [] == before;
      }
    }
  }

  /**
  A reconstruction's total of the fees in one asset is accumulated in 28 digits in time order. It is exact
  after every fee exactly when each of the sums on the way can be written with 28 digits.
  */
  lemma FeeTotalsAreExactIff(s: Snapshot, now: int, a: string)
    requires Reconstructed(s, now).Some?
    ensures var fees := FeesIn(SortByTime(EventsOf(s)), a);
            && FeeTotal(Reconstructed(s, now).value, a) == Decimals.Accumulated(fees, PRECISION)
            && (Decimals.ExactThroughout(fees, PRECISION) <==> Decimals.WrittenThroughout(fees, PRECISION))
            && (Decimals.ExactThroughout(fees, PRECISION) ==>
              FeeTotal(Reconstructed(s, now).value, a) == Decimals.Total(fees))
  {
    hide Decimals.WrittenThroughout;
    hide SortByTime;
    hide ReplayAll;
    hide FeesIn;
    var sorted := SortByTime(EventsOf(s));
    var fees := FeesIn(sorted, a);
    ReplayedFees(Balances(s.openingSpot, s.openingEarn, map[]), sorted, a);
    Decimals.AccumulationIsExactIff(fees, PRECISION);
    assert fees[..|fees|] == fees;
  }

  /** Fees of one asset that together stay below 1e10 are never rounded, in whatever order they are listed. */
  lemma FeesBelowLimitAreExact(s: Snapshot, now: int, a: string)
    requires Reconstructed(s, now).Some? && Decimals.Total(FeesIn(EventsOf(s), a)) < 10 * LIMIT
    ensures FeeTotal(Reconstructed(s, now).value, a) == Decimals.Total(FeesIn(EventsOf(s), a))
  {
    var sorted := SortByTime(EventsOf(s));
    ReplayedFees(Balances(s.openingSpot, s.openingEarn, map[]), sorted, a);
    SortMultiset(EventsOf(s));
    FeesIgnoreOrder(sorted, EventsOf(s), a);
    PowersOfTen(28);
    Decimals.ShortTotalIsExact(FeesIn(sorted, a), PRECISION);
  }

  lemma {:induction false} FeesWithout(events: seq<Event>, k: nat, a: string)
    requires k < |events|
    ensures Decimals.Total(FeesIn(events, a))
            == Decimals.Total(FeesIn(events[..k] + events[k + 1..], a)) + FeeOf(events[k], a)
    decreases |events|
  {
    hide FeesIn;
    hide FeeOf;
    hide Decimals.Total;
    var n := |events| - 1;
    LastFee(events, a);
    if k < n {
      FeesWithout(events[..n], k, a);
      var without := events[..k] + events[k + 1..];
      assert events[..n][..k] + events[..n][k + 1..] == without[..|without| - 1];
      assert without[|without| - 1] == events[n];
      LastFee(without, a);
    } else {
      assert events[..k] + events[k + 1..] == events[..n];
    }
  }

  function FeeOf(e: Event, a: string): int {
    if e.Fill? && e.feeAsset == a then e.fee else 0
  }

  lemma LastFee(events: seq<Event>, a: string)
    requires events != []
    ensures Decimals.Total(FeesIn(events, a))
            == Decimals.Total(FeesIn(events[..|events| - 1], a)) + FeeOf(events[|events| - 1], a)
  {
    var before := FeesIn(events[..|events| - 1], a);
    var last := events[|events| - 1];
    if last.Fill? && last.feeAsset == a {
      assert (before + [last.fee])[..|before|] == before;
    } else {
      assert before + [] == before;
    }
  }

  lemma {:induction false} FeesIgnoreOrder(a: seq<Event>, b: seq<Event>, asset: string)
    requires multiset(a) == multiset(b)
    ensures Decimals.Total(FeesIn(a, asset)) == Decimals.Total(FeesIn(b, asset))
    decreases |a|
  {
    SameMembers(a, b);
    if a != [] {
      var n := |a| - 1;
      assert a[n] in b;
      var k :| 0 <= k < |b| && b[k] == a[n];
      Without(a, n);
      Without(b, k);
      assert a[..n] + a[n + 1..] == a[..n];
      FeesIgnoreOrder(a[..n], b[..k] + b[k + 1..], asset);
      FeesWithout(a, n, asset);
      FeesWithout(b, k, asset);
    }
  }

  /** The k-th of the purchases below: 1e-18 BTC for a fee of 1e9 BNB, the eleventh for one of 1e-18 BNB. */
  function Purchase(k: nat): Event {
    Fill(seq(k + 1, _ => 'x'), k + 1, Buy, 1, "BNB", if k < 10 then LIMIT else 1)
  }

  function Purchases(n: nat): (events: seq<Event>)
    ensures |events| == n && forall k :: 0 <= k < n ==> events[k] == Purchase(k)
  {
    if n == 0 then [] else Purchases(n - 1) + [Purchase(n - 1)]
  }

  lemma {:induction false} PurchasesSorted(n: nat)
    ensures SortByTime(Purchases(n)) == Purchases(n)
  {
    if n > 0 {
      PurchasesSorted(n - 1);
      assert Purchases(n)[..n - 1] == Purchases(n - 1);
    }
  }

  /** The total of the first `n` large fees. */
  function LargeFees(n: nat): int {
    if n == 0 then 0 else LargeFees(n - 1) + LIMIT
  }

  lemma {:induction false} LargeFeesAre(n: nat)
    ensures LargeFees(n) == n * LIMIT
  {
    if n > 0 {
      LargeFeesAre(n - 1);
    }
  }

  /** 1e10, as any sum of at most ten such fees, can be written with 28 digits. */
  lemma TenFeesAreExact(n: nat)
    requires 0 < n <= 10
    ensures Plus(LargeFees(n - 1), LIMIT) == LargeFees(n)
  {
    hide Plus;
    LargeFeesAre(n - 1);
    if n < 10 {
      PlusIsExact(LargeFees(n - 1), LIMIT);
    } else {
      TenthTotalIsExact(LargeFees(n - 1));
    }
  }

  lemma TenthTotalIsExact(nine: int)
    requires nine == 9 * LIMIT
    ensures Plus(nine, LIMIT) == nine + LIMIT
  {
    hide Decimals.Pow10;
    hide Decimals.RoundTo;
    TenthPower(28);
    assert Decimals.Representable(nine + LIMIT, PRECISION) by {
      assert Decimals.IsWritten(nine + LIMIT, 1, 28);
    }
    Decimals.RoundingIsExactIff(nine + LIMIT, PRECISION);
  }

  lemma TenthPower(n: nat)
    requires n == 28
    ensures 10 * LIMIT == 1 * Decimals.Pow10(n) && 1 < Decimals.Pow10(n)
  {
    PowersOfTen(n);
  }

  /** The balances after `n` purchases whose fees add up to `total`. */
  function Bought(n: nat, total: int): Balances {
    Balances(n, 0, if n == 0 then map[] else map["BNB" := total])
  }

  lemma OnePurchase(n: nat, total: int)
    requires n <= 10 && (n == 0 ==> total == 0)
    ensures Replay(Bought(n, total), Purchase(n)) == Some(Bought(n + 1, Plus(total, Purchase(n).fee)))
  {
    hide Plus;
    var e := Purchase(n);
    assert IsFeeAsset("BNB") && AmountOk(e.fee) && AmountOk(n + 1);
    assert SpotDelta(e) == 1 && EarnDelta(e) == 0;
    assert FeesAfter(Bought(n, total).fees, e) == map["BNB" := Plus(total, e.fee)];
  }

  /** One more purchase after `n`. */
  lemma NextPurchase(n: nat, total: int)
    requires n <= 10 && (n == 0 ==> total == 0) && ReplayAll(Bought(0, 0), Purchases(n)) == Some(Bought(n, total))
    ensures ReplayAll(Bought(0, 0), Purchases(n + 1)) == Some(Bought(n + 1, Plus(total, Purchase(n).fee)))
  {
    hide Replay;
    hide Plus;
    hide Bought;
    assert Purchases(n + 1)[..n] == Purchases(n);
    OnePurchase(n, total);
  }

  lemma {:induction false} TenPurchases(n: nat)
    requires n <= 10
    ensures ReplayAll(Bought(0, 0), Purchases(n)) == Some(Bought(n, LargeFees(n)))
  {
    hide *;
    NoFeesYet();
    if n == 0 {
      NothingBought();
    } else {
      TenPurchases(n - 1);
      NextPurchase(n - 1, LargeFees(n - 1));
      LargeFee(n - 1);
      TenFeesAreExact(n);
    }
  }

  lemma NoFeesYet()
    ensures LargeFees(0) == 0
  {
  }

  lemma NothingBought()
    ensures ReplayAll(Bought(0, 0), Purchases(0)) == Some(Bought(0, 0))
  {
    hide Bought;
  }

  lemma LargeFee(k: nat)
    requires k < 10
    ensures Purchase(k).Fill? && Purchase(k).fee == LIMIT
  {
  }

  lemma ElevenPurchases()
    ensures ReplayAll(Bought(0, 0), Purchases(11)) == Some(Bought(11, Plus(10 * LIMIT, 1)))
  {
    TenPurchases(10);
    LargeFeesAre(10);
    NextPurchase(10, 10 * LIMIT);
    hide Plus;
    hide ReplayAll;
    hide Bought;
  }

  /** Ten fees of 1e9 and one of 1e-18, in an accepted snapshot: the last is lost from the total. */
  lemma FeeTotalCanRound()
    ensures var s := Snapshot(true, 0, 11, 11, 0, 0, 0, Purchases(11), [], 11, 0);
            && Reconstructed(s, 11).Some?
            && Decimals.Total(FeesIn(EventsOf(s), "BNB")) == 10 * LIMIT + 1
            && FeeTotal(Reconstructed(s, 11).value, "BNB") != 10 * LIMIT + 1
  {
    var s := Snapshot(true, 0, 11, 11, 0, 0, 0, Purchases(11), [], 11, 0);
    EventsArePurchases(s);
    PurchasesWellFormed(s);
    PurchasesSorted(11);
    ElevenPurchases();
    LastDigitLost();
    FeesOfPurchases(10);
    LastFee(Purchases(11), "BNB");
    LastPurchase();
    hide Plus;
    hide WellFormed;
    hide SortByTime;
    hide ReplayAll;
    hide FeesIn;
    hide EventsOf;
    hide Purchases;
    hide Decimals.Total;
  }

  lemma EventsArePurchases(s: Snapshot)
    requires s.transfers == []
    ensures EventsOf(s) == s.fills
  {
  }

  lemma LastPurchase()
    ensures Purchases(11)[..10] == Purchases(10) && FeeOf(Purchases(11)[10], "BNB") == 1
  {
  }

  lemma LastDigitLost()
    ensures Plus(10 * LIMIT, 1) != 10 * LIMIT + 1
  {
    PowersOfTen(28);
    Decimals.RoundingIsExactIff(10 * LIMIT + 1, PRECISION);
    if Decimals.Representable(10 * LIMIT + 1, PRECISION) {
      Decimals.WrittenIsShortOrTens(10 * LIMIT + 1, PRECISION);
    }
  }

  lemma {:induction false} FeesOfPurchases(n: nat)
    requires n <= 10
    ensures Decimals.Total(FeesIn(Purchases(n), "BNB")) == n * LIMIT
  {
    if n > 0 {
      FeesOfPurchases(n - 1);
      assert Purchases(n)[..n - 1] == Purchases(n - 1);
      LastFee(Purchases(n), "BNB");
    }
  }

  lemma PurchasesWellFormed(s: Snapshot)
    requires s == Snapshot(true, 0, 11, 11, 0, 0, 0, Purchases(11), [], 11, 0)
    ensures WellFormed(s, 11)
  {
    var events := EventsOf(s);
    EventsArePurchases(s);
    assert IsIdentity(seq(1, _ => 'x'));
    forall i | 0 <= i < |events| ensures IsIdentity(events[i].id) && 0 < events[i].at <= 11 {
      assert events[i] == Purchase(i);
    }
    forall i, j | 0 <= i < j < |events|
      ensures Ids(events)[i] != Ids(events)[j] && Times(events)[i] != Times(events)[j] {
      assert |Ids(events)[i]| == i + 1 && |Ids(events)[j]| == j + 1;
    }
  }
}

/**
The replay of BtcAttribution.dfy from outside: exactly which snapshots are reconstructed, said without the
replay, by the balances that the fills and transfers up to each instant add up to.
*/
module BtcOwnership {
  import opened Outcomes
  import opened Sequences
  import opened BtcAttribution
  import Decimals

  // ---- What an event does ---------------------------------------------------------------------------

  /** A purchase brings BTC into Spot, a sale and a fee in BTC take it out; a transfer to Earn takes it out too. */
  function ToSpot(e: Event): int {
    match e
    case Fill(_, _, side, quantity, feeAsset, fee) =>
      var paid := if feeAsset == "BTC" then fee else 0;
      (match side
       case Buy => quantity - paid
       case Sell => -(quantity + paid)
       case OtherSide => -paid)
    case Transfer(_, _, direction, quantity) =>
      (match direction
       case SpotToEarn => -quantity
       case EarnToSpot => quantity
       case OtherDirection => 0)
  }

  /** Earn gains what a transfer takes from Spot, and fills do not touch it. */
  function ToEarn(e: Event): int {
    if e.Fill? then 0 else -ToSpot(e)
  }

  /** What the events up to an instant add up to, in whatever order they are listed. */
  function Until(events: seq<Event>, t: int, change: Event -> int): int {
    if events == [] then 0
    else
      var last := events[|events| - 1];
      Until(events[..|events| - 1], t, change) + (if last.at <= t then change(last) else 0)
  }

  lemma {:induction false} UntilWithout(events: seq<Event>, k: nat, t: int, change: Event -> int)
    requires k < |events|
    ensures Until(events, t, change)
            == Until(events[..k] + events[k + 1..], t, change) + (if events[k].at <= t then change(events[k]) else 0)
    decreases |events|
  {
    var n := |events| - 1;
    if k < n {
      UntilWithout(events[..n], k, t, change);
      var without := events[..k] + events[k + 1..];
      assert events[..n][..k] + events[..n][k + 1..] == without[..|without| - 1];
      assert without[|without| - 1] == events[n];
    } else {
      assert events[..k] + events[k + 1..] == events[..n];
    }
  }

  lemma {:induction false} UntilIgnoresOrder(a: seq<Event>, b: seq<Event>, t: int, change: Event -> int)
    requires multiset(a) == multiset(b)
    ensures Until(a, t, change) == Until(b, t, change)
    decreases |a|
  {
    SameMembers(a, b);
    if a != [] {
      var n := |a| - 1;
      assert a[n] in b;
      var k :| 0 <= k < |b| && b[k] == a[n];
      Without(a, n);
      Without(b, k);
      assert a[..n] + a[n + 1..] == a[..n];
      UntilIgnoresOrder(a[..n], b[..k] + b[k + 1..], t, change);
      UntilWithout(a, n, t, change);
      UntilWithout(b, k, t, change);
    }
  }

  // ---- The replay in time order ---------------------------------------------------------------------

  lemma DeltasAre(e: Event)
    ensures SpotDelta(e) == ToSpot(e) && EarnDelta(e) == ToEarn(e)
  {
  }

  /** In strict time order the events up to one of them are those before it and itself. */
  lemma {:induction false} SumsAreUntil(events: seq<Event>, t: int)
    requires forall i :: 0 <= i < |events| ==> events[i].at <= t
    ensures SumSpot(events) == Until(events, t, ToSpot) && SumEarn(events) == Until(events, t, ToEarn)
  {
    if events != [] {
      var n := |events| - 1;
      SumsAreUntil(events[..n], t);
      DeltasAre(events[n]);
    }
  }

  lemma {:induction false} LaterAddNothing(events: seq<Event>, n: nat, t: int, change: Event -> int)
    requires n <= |events| && forall i :: n <= i < |events| ==> events[i].at > t
    ensures Until(events, t, change) == Until(events[..n], t, change)
    decreases |events|
  {
    if n < |events| {
      LaterAddNothing(events[..|events| - 1], n, t, change);
      assert events[..|events| - 1][..n] == events[..n];
    } else {
      assert events[..n] == events;
    }
  }

  /** A quantity of BTC, up to 10^9, in units of 10^-18. */
  predicate IsAmount(x: int) {
    x >= 0 && x <= 1_000_000_000_000_000_000_000_000_000
  }

  /** A fill has a side and a fee in some asset, a transfer a direction, and both move something. */
  predicate IsSound(e: Event) {
    match e
    case Fill(_, _, side, quantity, feeAsset, fee) =>
      && quantity != 0 && IsAmount(quantity) && IsAmount(fee) && side in {Buy, Sell}
      && feeAsset != "" && forall c :: c in feeAsset ==> '0' <= c <= '9' || 'A' <= c <= 'Z'
    case Transfer(_, _, direction, quantity) =>
      quantity != 0 && IsAmount(quantity) && direction in {SpotToEarn, EarnToSpot}
  }

  lemma SoundIff(e: Event)
    ensures EventOk(e) <==> IsSound(e)
  {
    if e.Fill? {
      assert forall k :: 0 <= k < |e.feeAsset| ==> e.feeAsset[k] in e.feeAsset;
    }
  }

  /** After the first so many events both balances are within the limits, and the last of them is sound. */
  predicate Within(b: Balances, sorted: seq<Event>, n: nat)
    requires 0 < n <= |sorted|
  {
    IsSound(sorted[n - 1]) && IsAmount(b.spot + SumSpot(sorted[..n])) && IsAmount(b.earn + SumEarn(sorted[..n]))
  }

  lemma {:induction false} ReplayIff(b: Balances, sorted: seq<Event>)
    ensures ReplayAll(b, sorted).Some? <==> forall n :: 0 < n <= |sorted| ==> Within(b, sorted, n)
    decreases |sorted|
  {
    if sorted != [] {
      var m := |sorted| - 1;
      var before := sorted[..m];
      ReplayIff(b, before);
      SoundIff(sorted[m]);
      assert sorted[..|sorted|] == sorted;
      forall n | 0 < n <= m ensures Within(b, before, n) <==> Within(b, sorted, n) {
        assert before[..n] == sorted[..n];
      }
      if ReplayAll(b, before).Some? {
        ReplayedSums(b, before);
        assert Within(b, sorted, m + 1) <==> Replay(ReplayAll(b, before).value, sorted[m]).Some? by {
          hide IsSound;
          hide EventOk;
          hide SpotDelta;
          hide EarnDelta;
        }
      }
      hide Within;
    }
  }

  // ---- Main results ---------------------------------------------------------------------------------

  /** The balances right after an instant. */
  function SpotAt(s: Snapshot, t: int): int {
    s.openingSpot + Until(s.fills + s.transfers, t, ToSpot)
  }

  function EarnAt(s: Snapshot, t: int): int {
    s.openingEarn + Until(s.fills + s.transfers, t, ToEarn)
  }

  /** No blank at either end, and not empty. */
  ghost predicate IsToken(s: string) {
    s != "" && !exists t: string {:trigger t + " "} :: s == " " + t || s == t + " "
  }

  /** A settled snapshot of now, with its opening before, and events named and dated in between. */
  ghost predicate Declares(s: Snapshot, now: int) {
    var events := s.fills + s.transfers;
    && s.bound && s.unsettled == 0 && |events| < 10_001
    && s.openingAt < now && s.observedThrough == now && s.availableAt == now
    && IsAmount(s.openingSpot) && IsAmount(s.openingEarn)
    && (forall k :: 0 <= k < |events| ==> s.openingAt < events[k].at <= now && IsToken(events[k].id))
    && forall j, k :: 0 <= j < k < |events| ==> events[j].id != events[k].id && events[j].at != events[k].at
  }

  /** Every event is sound and leaves both balances within the limits. */
  predicate Covered(s: Snapshot) {
    forall k :: 0 <= k < |s.fills + s.transfers| ==>
      var e := (s.fills + s.transfers)[k];
      IsSound(e) && IsAmount(SpotAt(s, e.at)) && IsAmount(EarnAt(s, e.at))
  }

  lemma TokenIff(s: string)
    ensures IsIdentity(s) <==> IsToken(s)
  {
    if s != "" {
      var n := |s| - 1;
      assert s == [s[0]] + s[1..] && s == s[..n] + [s[n]];
      assert s[1..] + " " == s[1..] + " " && s[..n] + " " == s[..n] + [' '];
    }
  }

  lemma DeclaresIff(s: Snapshot, now: int)
    ensures WellFormed(s, now) <==> Declares(s, now)
  {
    var events := s.fills + s.transfers;
    forall k | 0 <= k < |events| ensures IsIdentity(events[k].id) <==> IsToken(events[k].id) {
      TokenIff(events[k].id);
    }
    assert forall k :: 0 <= k < |events| ==> Ids(events)[k] == events[k].id && Times(events)[k] == events[k].at;
    hide IsIdentity;
    hide IsToken;
  }

  /** In time order, the balances after so many events are those right after the last of them. */
  lemma PrefixIsUntil(s: Snapshot, n: nat)
    requires NoRepeats(Times(EventsOf(s))) && 0 < n <= |SortByTime(EventsOf(s))|
    ensures var sorted, t := SortByTime(EventsOf(s)), SortByTime(EventsOf(s))[n - 1].at;
            && s.openingSpot + SumSpot(sorted[..n]) == SpotAt(s, t)
            && s.openingEarn + SumEarn(sorted[..n]) == EarnAt(s, t)
  {
    var sorted := SortByTime(EventsOf(s));
    var t := sorted[n - 1].at;
    SortedStrictly(EventsOf(s));
    SortMultiset(EventsOf(s));
    hide SortByTime;
    SumsAreUntil(sorted[..n], t);
    LaterAddNothing(sorted, n, t, ToSpot);
    LaterAddNothing(sorted, n, t, ToEarn);
    UntilIgnoresOrder(sorted, EventsOf(s), t, ToSpot);
    UntilIgnoresOrder(sorted, EventsOf(s), t, ToEarn);
  }

  /** The replay goes through exactly when every event is covered. */
  lemma CoveredIff(s: Snapshot)
    requires NoRepeats(Times(EventsOf(s)))
    ensures ReplayAll(Balances(s.openingSpot, s.openingEarn, map[]), SortByTime(EventsOf(s))).Some? <==> Covered(s)
  {
    var b, sorted, events := Balances(s.openingSpot, s.openingEarn, map[]), SortByTime(EventsOf(s)), EventsOf(s);
    ReplayIff(b, sorted);
    SortMultiset(events);
    SameMembers(sorted, events);
    forall n | 0 < n <= |sorted|
      ensures Within(b, sorted, n) <==>
              IsSound(sorted[n - 1]) && IsAmount(SpotAt(s, sorted[n - 1].at)) && IsAmount(EarnAt(s, sorted[n - 1].at))
    {
      PrefixIsUntil(s, n);
    }
    hide Within;
    hide IsSound;
    hide SpotAt;
    hide EarnAt;
    hide ReplayAll;
    hide SortByTime;
    if Covered(s) {
      forall n | 0 < n <= |sorted| ensures Within(b, sorted, n) {
        assert sorted[n - 1] in events;
        var k :| 0 <= k < |events| && events[k] == sorted[n - 1];
      }
    }
    if forall n :: 0 < n <= |sorted| ==> Within(b, sorted, n) {
      forall k | 0 <= k < |events|
        ensures var e := events[k]; IsSound(e) && IsAmount(SpotAt(s, e.at)) && IsAmount(EarnAt(s, e.at))
      {
        assert events[k] in sorted;
        var n :| 0 <= n < |sorted| && sorted[n] == events[k];
        assert Within(b, sorted, n + 1);
      }
    }
  }

  /** What the replay ends with are the balances of now. */
  lemma EndIsNow(s: Snapshot, now: int)
    requires WellFormed(s, now)
    requires ReplayAll(Balances(s.openingSpot, s.openingEarn, map[]), SortByTime(EventsOf(s))).Some?
    ensures var b := ReplayAll(Balances(s.openingSpot, s.openingEarn, map[]), SortByTime(EventsOf(s))).value;
            b.spot == SpotAt(s, now) && b.earn == EarnAt(s, now)
  {
    var sorted, events := SortByTime(EventsOf(s)), EventsOf(s);
    ReplayedSums(Balances(s.openingSpot, s.openingEarn, map[]), sorted);
    SortMultiset(events);
    SameMembers(sorted, events);
    forall i | 0 <= i < |sorted| ensures sorted[i].at <= now {
      assert sorted[i] in events;
    }
    SumsAreUntil(sorted, now);
    UntilIgnoresOrder(sorted, events, now, ToSpot);
    UntilIgnoresOrder(sorted, events, now, ToEarn);
    hide ReplayAll;
    hide SortByTime;
  }

  /**
  A snapshot is reconstructed exactly when it declares what it must, every event is sound and leaves both
  balances between 0 and 10^9 BTC, and what opening, fills and transfers add up to is what was observed.
  */
  lemma ReconstructedIff(s: Snapshot, now: int)
    ensures Reconstructed(s, now).Some? <==>
              && Declares(s, now) && Covered(s)
              && IsAmount(s.observedSpot) && SpotAt(s, now) == s.observedSpot
              && IsAmount(s.observedEarn) && EarnAt(s, now) == s.observedEarn
    ensures Reconstructed(s, now).Some? ==>
              Reconstructed(s, now).value.spot == SpotAt(s, now) && Reconstructed(s, now).value.earn == EarnAt(s, now)
  {
    DeclaresIff(s, now);
    if WellFormed(s, now) {
      CoveredIff(s);
      if Covered(s) {
        EndIsNow(s, now);
      }
    }
    hide WellFormed;
    hide Declares;
    hide Covered;
    hide SpotAt;
    hide EarnAt;
    hide ReplayAll;
    hide SortByTime;
  }
}

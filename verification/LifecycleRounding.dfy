/**
Histories on which the decimal replay of Lifecycle.dfy errs, because a sum is rounded: above 10^1000 units
of a grid for lack of digits, and on a grid finer than the least exponent of a context.
*/
module LifecycleRounding {
  import opened Outcomes
  import opened Sequences
  import opened Decimals
  import opened Contexts
  import opened Lifecycle

  // ---- A story: subscriptions in one millisecond, then two redemptions ------------------------------

  function SubscribeAt(time: int, amount: int, grid: int): (e: Event<Decimal>)
    ensures e.kind.Subscribe? && e.amount == Decimal(amount, grid)
  {
    Event(Subscribe, time, Decimal(amount, grid))
  }

  function RedeemAt(time: int, amount: int, grid: int): (e: Event<Decimal>)
    ensures e.kind.Redeem? && e.amount == Decimal(amount, grid)
  {
    Event(Redeem, time, Decimal(amount, grid))
  }

  function Subscriptions(amounts: seq<int>, grid: int): (events: seq<Event<Decimal>>)
    ensures |events| == |amounts| && forall k :: 0 <= k < |amounts| ==> events[k] == SubscribeAt(1, amounts[k], grid)
  {
    seq(|amounts|, k requires 0 <= k < |amounts| => SubscribeAt(1, amounts[k], grid))
  }

  function Redemptions(first: int, second: int, grid: int): (events: seq<Event<Decimal>>)
    ensures events == [RedeemAt(2, first, grid), RedeemAt(3, second, grid)]
  {
    [RedeemAt(2, first, grid), RedeemAt(3, second, grid)]
  }

  function Story(amounts: seq<int>, first: int, second: int, grid: int): (events: seq<Event<Decimal>>)
    ensures |events| == |amounts| + 2 && events[..|amounts|] == Subscriptions(amounts, grid)
    ensures forall k :: 0 <= k < |amounts| ==> events[k] == SubscribeAt(1, amounts[k], grid)
    ensures events[|amounts|] == RedeemAt(2, first, grid) && events[|amounts| + 1] == RedeemAt(3, second, grid)
  {
    Subscriptions(amounts, grid) + Redemptions(first, second, grid)
  }

  const PRODUCT: Product := Product("BTC", "BTC001")

  function FactsOf(events: seq<Event<Decimal>>): (facts: seq<Fact<Decimal>>)
    ensures |facts| == |events| && forall k :: 0 <= k < |events| ==> facts[k] == Fact(PRODUCT, events[k])
  {
    seq(|events|, k requires 0 <= k < |events| => Fact(PRODUCT, events[k]))
  }

  /** The evidence of an account whose one product has this story, opened with nothing. */
  function Told(amounts: seq<int>, first: int, second: int, grid: int): Evidence<Decimal> {
    Evidence(FactsOf(Subscriptions(amounts, grid)), FactsOf(Redemptions(first, second, grid)), [], {}, map[], None)
  }

  lemma {:induction false} EventsOfFacts(events: seq<Event<Decimal>>)
    ensures EventsIn(FactsOf(events), PRODUCT) == events
  {
    if events != [] {
      var n := |events| - 1;
      EventsOfFacts(events[..n]);
      assert FactsOf(events)[..n] == FactsOf(events[..n]);
    }
  }

  /** All amounts are rows the validators accept. */
  lemma ToldIsIngested(amounts: seq<int>, first: int, second: int, grid: int)
    requires first > 0 && second > 0 && forall k :: 0 <= k < |amounts| ==> amounts[k] > 0
    ensures Ingested(Told(amounts, first, second, grid)) && EvidenceOnGrid(Told(amounts, first, second, grid), grid)
  {
    var e := Told(amounts, first, second, grid);
    forall f | f in e.subscriptions ensures f.event.kind.Subscribe? && ValidQuantity(f.event) {
      var k :| 0 <= k < |amounts| && f == e.subscriptions[k];
    }
  }

  lemma ToldProducts(amounts: seq<int>, first: int, second: int, grid: int)
    ensures var e := Told(amounts, first, second, grid);
            && Products(e) == FactProducts(e) == {PRODUCT}
              && EventsOf(e, PRODUCT) == Story(amounts, first, second, grid)
            && Opening(e, PRODUCT, ZERO) == Some(ZERO)
  {
    var e := Told(amounts, first, second, grid);
    var s, r := Subscriptions(amounts, grid), Redemptions(first, second, grid);
    EventsOfFacts(s);
    EventsOfFacts(r);
    assert EventsOf(e, PRODUCT) == s + r + [] == s + r;
    assert FactsOf(r)[0].product == PRODUCT;
    assert ProductsIn(e.redemptions) == {PRODUCT} && ProductsIn(e.subscriptions) <= {PRODUCT};
  }

  /** The verdict on it is that of the one product. */
  lemma ToldVerdict(amounts: seq<int>, first: int, second: int, grid: int, limit: nat)
    ensures Verdict(Told(amounts, first, second, grid), limit)
            <==> Simulates(Story(amounts, first, second, grid), Some(ZERO), false, limit)
  {
    ToldProducts(amounts, first, second, grid);
    hide Story;
    hide Simulates;
  }

  /** The exact balance at the end is negative. */
  lemma ToldIsOverdrawn(amounts: seq<int>, first: int, second: int, grid: int)
    requires EvidenceOnGrid(Told(amounts, first, second, grid), grid) && Sum(amounts) < first + second
    ensures !Accepted(ReadEvidence(Told(amounts, first, second, grid), grid))
  {
    hide *;
    var e := Told(amounts, first, second, grid);
    var read := ReadEvidence(e, grid);
    ToldProducts(amounts, first, second, grid);
    ReadStory(amounts, first, second, grid);
    StoryBalance(amounts, first, second, grid, EventsOf(read, PRODUCT));
    NegativeEnd(read, PRODUCT);
  }

  /** What the evidence reads. */
  lemma ReadStory(amounts: seq<int>, first: int, second: int, grid: int)
    requires EvidenceOnGrid(Told(amounts, first, second, grid), grid)
    ensures var read := ReadEvidence(Told(amounts, first, second, grid), grid);
            var events := EventsOf(read, PRODUCT);
            && Opening(read, PRODUCT, 0) == Some(0) && PRODUCT in Products(read)
            && |events| == |amounts| + 2
            && (forall k :: 0 <= k < |amounts| ==> events[k] == Event(Subscribe, 1, amounts[k]))
            && events[|amounts|] == Event(Redeem, 2, first) && events[|amounts| + 1] == Event(Redeem, 3, second)
  {
    var e := Told(amounts, first, second, grid);
    ToldProducts(amounts, first, second, grid);
    StoryOnGrid(amounts, first, second, grid);
    EventsOfRead(e, PRODUCT, grid);
    ReadProducts(e, grid);
    var story := Story(amounts, first, second, grid);
    assert ReadEvidence(e, grid).totals == map[];
    hide Story;
    hide Scaled;
    hide Told;
    hide ReadFacts;
    hide FactsOnGrid;
    hide EventsIn;
    assert ReadAll(story, grid) == EventsOf(ReadEvidence(e, grid), PRODUCT);
  }

  lemma ReadProducts(e: Evidence<Decimal>, grid: int)
    requires EvidenceOnGrid(e, grid)
    ensures Products(ReadEvidence(e, grid)) == Products(e)
  {
    ProductsRead(e.subscriptions, grid);
    ProductsRead(e.redemptions, grid);
    ProductsRead(e.rewards, grid);
    hide ProductsIn;
  }

  /** A balance that ends below zero is not accepted. */
  lemma NegativeEnd(e: Evidence<int>, p: Product)
    requires p in Products(e) && Opening(e, p, 0) == Some(0) && EventsOf(e, p) != []
    requires var events := EventsOf(e, p); ChangeBy(events, events[|events| - 1].time) < 0
    ensures !Accepted(e)
  {
    hide EventsOf;
    hide ChangeBy;
    hide Earned;
    hide Opening;
    assert !Explained(0, p in e.opening, EventsOf(e, p));
    assert !ProductExplained(e, p);
  }

  function Sum(amounts: seq<int>): int {
    if amounts == [] then 0 else Sum(amounts[..|amounts| - 1]) + amounts[|amounts| - 1]
  }

  lemma StoryOnGrid(amounts: seq<int>, first: int, second: int, grid: int)
    ensures forall k :: 0 <= k < |amounts| + 2 ==>
              var a := Story(amounts, first, second, grid)[k].amount; a.exp == grid && Scaled(a, grid) == a.coeff
  {
    hide Story;
    forall k | 0 <= k < |amounts| + 2
      ensures var a := Story(amounts, first, second, grid)[k].amount; a.exp == grid && Scaled(a, grid) == a.coeff
    {
      ReadBack(Story(amounts, first, second, grid)[k].amount);
    }
  }

  lemma StoryBalance(amounts: seq<int>, first: int, second: int, grid: int, read: seq<Event<int>>)
    requires |read| == |amounts| + 2
    requires forall k :: 0 <= k < |amounts| ==> read[k] == Event(Subscribe, 1, amounts[k])
    requires read[|amounts|] == Event(Redeem, 2, first) && read[|amounts| + 1] == Event(Redeem, 3, second)
    ensures ChangeBy(read, read[|read| - 1].time) == Sum(amounts) - first - second
  {
    var n := |amounts|;
    SubscribedSum(amounts, read[..n]);
    assert read[..n + 1][..n] == read[..n] && read[..n + 2] == read;
    assert SumOf(read[..n + 1], Until(3)) == SumOf(read[..n], Until(3)) - first;
  }

  lemma {:induction false} SubscribedSum(amounts: seq<int>, read: seq<Event<int>>)
    requires |read| == |amounts| && forall k :: 0 <= k < |amounts| ==> read[k] == Event(Subscribe, 1, amounts[k])
    ensures SumOf(read, Until(3)) == Sum(amounts)
  {
    if amounts != [] {
      SubscribedSum(amounts[..|amounts| - 1], read[..|amounts| - 1]);
    }
  }

  // ---- Replaying a story ----------------------------------------------------------------------------

  predicate InSequence<N>(events: seq<Event<N>>) {
    forall k :: 0 < k < |events| ==> Before(events[k - 1], events[k])
  }

  lemma {:induction false} SortedStays<N>(events: seq<Event<N>>)
    requires InSequence(events)
    ensures SortEvents(events) == events
  {
    if events != [] {
      var n := |events| - 1;
      PartInSequence(events);
      InsertLast(events[..n], events[n]);
      hide InSequence;
      hide Before;
      hide Insert;
      SortedStays(events[..n]);
    }
  }

  lemma PartInSequence<N>(events: seq<Event<N>>)
    requires InSequence(events) && events != []
    ensures var n := |events| - 1; InSequence(events[..n]) && (n > 0 ==> Before(events[..n][n - 1], events[n]))
  {
    hide Before;
  }

  lemma InsertLast<N>(sorted: seq<Event<N>>, e: Event<N>)
    requires sorted != [] ==> Before(sorted[|sorted| - 1], e)
    ensures Insert(sorted, e) == sorted + [e]
  {
  }

  lemma FoldNothing(pass: Pass, available: Option<Decimal>)
    ensures Fold(pass, [], available) == Ok(available)
  {
  }

  lemma FoldOne(pass: Pass, batch: seq<Event<Decimal>>, start: Option<Decimal>)
    requires batch != [] && Fold(pass, batch[..|batch| - 1], start).Ok?
    ensures Fold(pass, batch, start) == Apply(pass, Fold(pass, batch[..|batch| - 1], start).value, batch[|batch| - 1])
  {
  }

  /** A redemption alone in its millisecond. */
  lemma RedemptionAlone(events: seq<Event<Decimal>>, from: nat, available: Option<Decimal>, limit: nat)
    requires from < |events| && events[from].kind.Redeem?
    requires from + 1 < |events| ==> events[from + 1].time != events[from].time
    ensures var r := Apply(Redeeming(limit), available, events[from]);
            ReplayFrom(events, from, available, false, limit) <==>
              r.Ok? && ReplayFrom(events, from + 1, r.value, false, limit)
  {
    hide Apply;
    var stamp, batch := events[from].time, events[from..from + 1];
    assert BatchEnd(events, from + 1, stamp) == from + 1;
    assert batch == [events[from]] && batch[..0] == [];
    NotInPass(batch, available, stamp, events, limit);
  }

  lemma NotInPass(batch: seq<Event<Decimal>>, available: Option<Decimal>, stamp: int, events: seq<Event<Decimal>>,
                  limit: nat)
    requires |batch| == 1 && batch[0].kind.Redeem?
    ensures AfterBatch(batch, available, false, SubscribedBefore(events, stamp), RedeemedBy(events, stamp), limit)
            == Apply(Redeeming(limit), available, batch[0])
  {
    var rewarding := Rewarding(available, false, SubscribedBefore(events, stamp), RedeemedBy(events, stamp));
    assert batch[..0] == [];
    FoldNothing(Subscribing, available);
    FoldNothing(rewarding, available);
    FoldNothing(Redeeming(limit), available);
    FoldOne(Subscribing, batch, available);
    FoldOne(rewarding, batch, available);
    FoldOne(Redeeming(limit), batch, available);
    hide Fold;
    hide SubscribedBefore;
    hide RedeemedBy;
    assert !HasKind(batch, 1);
  }

  /** Subscriptions alone in their millisecond. */
  lemma SubscriptionsAlone(batch: seq<Event<Decimal>>, available: Option<Decimal>, earlier: bool, redeemed: bool,
                           limit: nat)
    requires forall k :: 0 <= k < |batch| ==> batch[k].kind.Subscribe?
    ensures AfterBatch(batch, available, false, earlier, redeemed, limit) == Fold(Subscribing, batch, available)
  {
    assert forall k :: 0 <= k < |batch| ==> Rank(batch[k]) == 0;
    var subscribed := Fold(Subscribing, batch, available);
    if subscribed.Ok? {
      Untouched(Rewarding(available, false, earlier, redeemed), batch, subscribed.value);
      Untouched(Redeeming(limit), batch, subscribed.value);
    }
    hide Fold;
  }

  lemma {:induction false} Untouched(pass: Pass, batch: seq<Event<Decimal>>, available: Option<Decimal>)
    requires !pass.Subscribing? && forall k :: 0 <= k < |batch| ==> batch[k].kind.Subscribe?
    ensures Fold(pass, batch, available) == Ok(available)
  {
    if batch != [] {
      Untouched(pass, batch[..|batch| - 1], available);
    }
  }

  /** What a redemption of `amount` leaves of a quantity, or that it is refused. */
  lemma Redeems(available: Decimal, e: Event<Decimal>, value: int, grid: int, limit: nat)
    requires e.kind.Redeem? && e.amount.exp == grid <= 0 && e.amount.coeff >= 0
    requires Reads(Some(available), Some(value), grid) && (limit == 0 || value - e.amount.coeff < Pow10(limit))
    ensures var r := Apply(Redeeming(limit), Some(available), e);
            if value < e.amount.coeff then r.Err? else r.Ok? && Reads(r.value, Some(value - e.amount.coeff), grid)
  {
    hide Pow10;
    hide Scaled;
    hide Less;
    hide SubtractLifecycleQuantity;
    ReadBack(e.amount);
    LessAt(available, e.amount, grid);
    if value >= e.amount.coeff {
      SubtractQuantity(available, e.amount, grid, limit);
      SignAt(SubtractLifecycleQuantity(available, e.amount, limit).value, grid);
    }
  }

  /** Two redemptions after everything else, on a quantity that reads `value`. */
  lemma TwoRedemptions(events: seq<Event<Decimal>>, from: nat, available: Decimal, value: int, first: int, second: int,
                       grid: int, limit: nat)
    requires |events| == from + 2
    requires events[from] == RedeemAt(2, first, grid) && events[from + 1] == RedeemAt(3, second, grid)
    requires Reads(Some(available), Some(value), grid) && grid <= 0 && 0 <= first <= value && 0 <= second
    requires limit == 0 || value - first < Pow10(limit)
    ensures ReplayFrom(events, from, Some(available), false, limit) <==> first + second <= value
  {
    hide Pow10;
    hide Scaled;
    hide Apply;
    Redeems(available, events[from], value, grid, limit);
    RedemptionAlone(events, from, Some(available), limit);
    var left := Apply(Redeeming(limit), Some(available), events[from]).value;
    Redeems(left.value, events[from + 1], value - first, grid, limit);
    RedemptionAlone(events, from + 1, left, limit);
  }

  /** The subscriptions of a story leave a quantity that reads `value`. */
  ghost predicate Leaves(amounts: seq<int>, grid: int, value: int) {
    var r := Fold(Subscribing, Subscriptions(amounts, grid), Some(ZERO));
    r.Ok? && r.value.Some? && Reads(r.value, Some(value), grid)
  }

  /** A limit under which two digits can be printed. */
  predicate TwoDigits(limit: nat) {
    limit == 0 || limit >= 2
  }

  /** The replay accepts a story exactly when what the subscriptions leave covers both redemptions. */
  lemma StoryReplays(amounts: seq<int>, first: int, second: int, grid: int, value: int, limit: nat)
    requires amounts != [] && 0 <= first <= value <= first + 10 && 0 <= second && grid <= 0
    requires TwoDigits(limit) && Leaves(amounts, grid, value)
    ensures Simulates(Story(amounts, first, second, grid), Some(ZERO), false, limit) <==> first + second <= value
  {
    var n, events := |amounts|, Story(amounts, first, second, grid);
    var r := Fold(Subscribing, Subscriptions(amounts, grid), Some(ZERO));
    hide *;
    LeavesMeans(amounts, grid, value);
    StorySorted(amounts, first, second, grid);
    TenIsShort(limit);
    StoryBegins(events, n, r.value, limit);
    TwoRedemptions(events, n, r.value.value, value, first, second, grid, limit);
  }

  lemma LeavesMeans(amounts: seq<int>, grid: int, value: int)
    requires Leaves(amounts, grid, value)
    ensures var r := Fold(Subscribing, Subscriptions(amounts, grid), Some(ZERO));
            r.Ok? && r.value.Some? && Reads(r.value, Some(value), grid)
  {
    hide Fold;
  }

  lemma TenIsShort(limit: nat)
    requires TwoDigits(limit)
    ensures limit == 0 || 10 < Pow10(limit)
  {
    if limit > 0 {
      Tens(limit);
      Tens(limit - 1);
    }
  }

  lemma StorySorted(amounts: seq<int>, first: int, second: int, grid: int)
    requires amounts != []
    ensures var facts := Story(amounts, first, second, grid);
            && SortEvents(facts) == facts && BatchEnd(facts, 1, 1) == |amounts|
            && forall k :: 0 <= k < |amounts| ==> facts[k].kind.Subscribe? && facts[k].time == 1
    ensures forall limit: nat ::
              Simulates(Story(amounts, first, second, grid), Some(ZERO), false, limit)
              <==> ReplayFrom(Story(amounts, first, second, grid), 0, Some(ZERO), false, limit)
  {
    var facts := Story(amounts, first, second, grid);
    hide Story;
    hide ReplayFrom;
    SortedStays(facts);
    hide SortEvents;
    EndOfFirst(facts, 1, |amounts|);
  }

  lemma StoryBegins(events: seq<Event<Decimal>>, n: nat, after: Option<Decimal>, limit: nat)
    requires 0 < n <= |events| && BatchEnd(events, 1, 1) == n
    requires forall k :: 0 <= k < n ==> events[k].kind.Subscribe? && events[k].time == 1
    requires Fold(Subscribing, events[..n], Some(ZERO)) == Ok(after)
    ensures ReplayFrom(events, 0, Some(ZERO), false, limit) == ReplayFrom(events, n, after, false, limit)
  {
    hide AfterBatch;
    hide Fold;
    hide SubscribedBefore;
    hide RedeemedBy;
    hide BatchEnd;
    assert events[0..n] == events[..n];
    SubscriptionsAlone(events[..n], Some(ZERO), SubscribedBefore(events, 1), RedeemedBy(events, 1), limit);
  }

  lemma {:induction false} EndOfFirst(events: seq<Event<Decimal>>, k: nat, n: nat)
    requires k <= n < |events| && (forall i :: 0 <= i < n ==> events[i].time == 1) && events[n].time != 1
    ensures BatchEnd(events, k, 1) == n
    decreases n - k
  {
    if k < n {
      EndOfFirst(events, k + 1, n);
    }
  }

  /** One more subscription, added exactly as the context does. */
  lemma SubscribedNext(amounts: seq<int>, grid: int, value: int, d: Decimal, next: Decimal)
    requires amounts != [] && Fold(Subscribing, Subscriptions(amounts[..|amounts| - 1], grid), Some(ZERO))
             == Ok(Some(d))
    requires AddRewardQuantity(d, Decimal(amounts[|amounts| - 1], grid)) == Ok(next)
    requires next.exp >= grid && Scaled(next, grid) == value >= 0
    ensures Fold(Subscribing, Subscriptions(amounts, grid), Some(ZERO)) == Ok(Some(next))
            && Leaves(amounts, grid, value)
  {
    hide AddRewardQuantity;
    hide Scaled;
    var n := |amounts| - 1;
    assert Subscriptions(amounts, grid)[..n] == Subscriptions(amounts[..n], grid);
    FoldOne(Subscribing, Subscriptions(amounts, grid), Some(ZERO));
    hide Fold;
  }

  lemma NothingSubscribed(grid: int)
    ensures Fold(Subscribing, Subscriptions([], grid), Some(ZERO)) == Ok(Some(ZERO))
  {
  }

  // ---- Above 10^1000 units --------------------------------------------------------------------------

  lemma LargePower(digits: nat)
    requires digits >= 10
    ensures Pow10(digits) == 10 * Pow10(digits - 1) && Pow10(digits - 1) % 2 == 0 && Pow10(digits) > 1000
  {
    hide Pow10;
    Tens(digits);
    Tens(digits - 1);
    Tens(digits - 2);
    Tens(digits - 3);
    Tens(digits - 4);
  }

  /** Beside 10^1000 a quantity below ten is rounded to zero or to ten. */
  function Rounded(c: int): int {
    if c > 5 then 10 else 0
  }

  /** 10^1000, which a row writes as 1E+1000. */
  predicate IsHuge(huge: nat, digits: nat) {
    IsCap(digits) && huge == Pow10(digits)
  }

  lemma HugeMeans(huge: nat, digits: nat)
    requires IsHuge(huge, digits)
    ensures huge == Pow10(digits) && digits >= 10
  {
    hide Pow10;
  }

  /** The context of 1000 digits keeps the grids used here, and a few digits more do not overflow. */
  lemma HugeInLimits(digits: nat, grid: int)
    requires IsCap(digits) && LEAST <= grid <= 0
    ensures Etiny(digits) <= grid && grid + digits + 1 <= EMAX
  {
  }

  /** What the context of 1000 digits makes of 10^1000 units and a digit. */
  lemma HugeFinished(huge: nat, c: nat, grid: int, digits: nat)
    requires c < 10 && c != 5 && IsHuge(huge, digits) && LEAST <= grid <= 0
    ensures Yields(Finished(huge + c, grid, digits), grid, huge + Rounded(c))
  {
    hide *;
    HugeMeans(huge, digits);
    LargePower(digits);
    Tens(digits + 1);
    var total, tens := huge + c, Pow10(digits - 1);
    ExactDigitCount(total, digits + 1);
    HugeIsOk(total, grid, digits);
    FinishedReads(total, grid, digits);
    OneDigitGone(total, grid, digits);
    HalfEvenOfTen(total, tens, c);
  }

  lemma OneDigitGone(total: nat, grid: int, digits: nat)
    requires DigitCount(total) == digits + 1 && digits >= 1 && Etiny(digits) <= grid
    ensures RoundedAt(total, grid, digits) == RoundedUnits(total, 1) * Pow10(1)
    ensures Excess(total, grid, digits) == 1
  {
    hide DigitCount;
    hide RoundedUnits;
    hide Pow10;
  }

  lemma HugeIsOk(total: nat, grid: int, digits: nat)
    requires DigitCount(total) == digits + 1 && IsHuge(Pow10(digits), digits) && total > 0 && LEAST <= grid <= 0
    ensures Finished(total, grid, digits).Ok? && Etiny(digits) <= grid
  {
    HugeInLimits(digits, grid);
    OneDigitGone(total, grid, digits);
    var (c, x) := Carried(RoundedUnits(total, 1), grid + 1, digits);
    CarriedIsShort(RoundedUnits(total, 1), grid + 1, digits);
    hide Pow10;
    hide DigitCount;
    hide RoundedUnits;
    hide Excess;
    hide Carried;
  }

  lemma HalfEvenOfTen(total: nat, tens: nat, c: nat)
    requires total == 10 * tens + c && c < 10 && c != 5
    ensures RoundedUnits(total, 1) * Pow10(1) == 10 * tens + Rounded(c)
  {
    DropLast(total);
    assert total / 10 == tens;
  }

  /** A quantity that reads 10^1000 units has its leading digit there, however it is written. */
  lemma HugeAdjusted(d: Decimal, huge: nat, grid: int, digits: nat)
    requires d.exp >= grid && Scaled(d, grid) == huge && IsHuge(huge, digits)
    ensures d.coeff > 0 && Adjusted(d) == grid + digits
  {
    hide IsHuge;
    hide IsCap;
    hide Pow10;
    hide DigitCount;
    HugeMeans(huge, digits);
    LargePower(digits);
    Tens(digits + 1);
    SignAt(d, grid);
    QuantitySpan(d, grid, digits + 1, 0);
    if Adjusted(d) - grid + 1 <= digits {
      OperandFitsSpan(d, grid, digits);
      hide Scaled;
      assert false;
    }
  }

  /** Sums of 10^1000 units and a digit. */
  lemma HugeSum(left: Decimal, right: Decimal, huge: nat, c: nat, grid: int, digits: nat)
    requires left.exp >= grid && right.exp >= grid && 0 < c < 10 && c != 5 && IsHuge(huge, digits)
    requires LEAST <= grid <= 0
    requires (Scaled(left, grid) == huge && right == Decimal(c, grid))
             || (left == Decimal(c, grid) && Scaled(right, grid) == huge)
    ensures Yields(AddRewardQuantity(left, right), grid, huge + Rounded(c))
  {
    hide IsHuge;
    hide IsCap;
    hide Scaled;
    hide RewardSumPrec;
    hide Finished;
    hide Pow10;
    hide Rounded;
    hide Yields;
    ReadBack(Decimal(c, grid));
    HugePrec(left, right, huge, c, grid, digits);
    HugeMeans(huge, digits);
    HugeFinished(huge, c, grid, digits);
  }

  lemma HugePrec(left: Decimal, right: Decimal, huge: nat, c: nat, grid: int, digits: nat)
    requires left.exp >= grid && right.exp >= grid && 0 < c < 10 && IsHuge(huge, digits)
    requires (Scaled(left, grid) == huge && right == Decimal(c, grid))
             || (left == Decimal(c, grid) && Scaled(right, grid) == huge)
    ensures RewardSumPrec(left, right) == digits
  {
    hide Scaled;
    hide Pow10;
    hide DigitCount;
    hide Adjusted;
    OneDigit(c, grid);
    if Scaled(left, grid) == huge && right == Decimal(c, grid) {
      HugeAdjusted(left, huge, grid, digits);
    } else {
      HugeAdjusted(right, huge, grid, digits);
    }
    assert DigitSpan(left, right) == digits + 1;
  }

  lemma OneDigit(c: nat, grid: int)
    requires c < 10
    ensures Adjusted(Decimal(c, grid)) == grid
  {
    assert DigitCount(c) == 1;
  }

  /** 10^1000 units alone are kept. */
  lemma HugeIsKept(huge: nat, grid: int, digits: nat)
    requires IsHuge(huge, digits) && LEAST <= grid <= 0
    ensures Yields(AddRewardQuantity(ZERO, Decimal(huge, grid)), grid, huge)
  {
    hide *;
    var d := Decimal(huge, grid);
    HugeMeans(huge, digits);
    LargePower(digits);
    ReadBack(d);
    ZeroReads(grid);
    AddIsExactIff(ZERO, d, grid);
    OneDigitWrites(huge, digits, grid, RewardSumPrec(ZERO, d));
    Tens(digits + 1);
    HugeIsSmall(huge, grid, digits);
    ShortIsNotTooLarge(huge, grid, digits + 1);
  }

  lemma HugeIsSmall(huge: nat, grid: int, digits: nat)
    requires IsHuge(huge, digits) && LEAST <= grid <= 0
    ensures grid + digits <= EMAX && Abs(huge) == huge
  {
    hide Pow10;
  }

  lemma ZeroReads(grid: int)
    requires grid <= 0
    ensures ZERO.exp == 0 && ZERO.coeff == 0 && Scaled(ZERO, grid) == 0
  {
    hide Pow10;
  }

  lemma OneDigitWrites(huge: nat, digits: nat, grid: int, prec: nat)
    requires huge == Pow10(digits) && prec >= 50 && LEAST <= grid
    ensures Writable(huge, grid, prec)
  {
    Tens(prec);
    hide Pow10;
    assert WrittenIn(huge, grid, 1, digits, prec);
  }

  lemma RoundedDigits()
    ensures Rounded(9) == 10 && Rounded(8) == 10 && Rounded(4) == 0
  {
  }

  /** The quantity after 10^1000 units alone. */
  lemma HugeAlone(huge: nat, grid: int, digits: nat) returns (d: Decimal)
    requires IsHuge(huge, digits) && LEAST <= grid <= 0
    ensures Fold(Subscribing, Subscriptions([huge], grid), Some(ZERO)) == Ok(Some(d))
    ensures d.exp >= grid && Scaled(d, grid) == huge
  {
    hide *;
    HugeIsKept(huge, grid, digits);
    YieldsAt(AddRewardQuantity(ZERO, Decimal(huge, grid)), grid, huge);
    d := AddRewardQuantity(ZERO, Decimal(huge, grid)).value;
    NothingSubscribed(grid);
    assert [huge][..0] == [];
    SubscribedNext([huge], grid, huge, ZERO, d);
  }

  lemma YieldsAt(r: Result<Decimal>, grid: int, value: int)
    requires Yields(r, grid, value) && grid <= 0
    ensures r.Ok? && r.value.exp >= grid && Scaled(r.value, grid) == value
  {
  }

  /** 10^1000 units and then a digit. */
  lemma HugeThenDigit(huge: nat, c: nat, grid: int, digits: nat) returns (d: Decimal)
    requires IsHuge(huge, digits) && 0 < c < 10 && c != 5 && LEAST <= grid <= 0
    ensures Fold(Subscribing, Subscriptions([huge, c], grid), Some(ZERO)) == Ok(Some(d))
    ensures d.exp >= grid && Scaled(d, grid) == huge + Rounded(c) && Leaves([huge, c], grid, huge + Rounded(c))
  {
    hide *;
    var before := HugeAlone(huge, grid, digits);
    HugeSum(before, Decimal(c, grid), huge, c, grid, digits);
    YieldsAt(AddRewardQuantity(before, Decimal(c, grid)), grid, huge + Rounded(c));
    d := AddRewardQuantity(before, Decimal(c, grid)).value;
    assert [huge, c][..1] == [huge];
    RoundedIsPositive(c);
    SubscribedNext([huge, c], grid, huge + Rounded(c), before, d);
  }

  lemma RoundedIsPositive(c: int)
    ensures Rounded(c) >= 0
  {
  }

  /**
  10^1000 and 9 units subscribed, 10^1000 and 10 redeemed: accepted, because the sum was rounded up, although
  the balance ends at -1.
  */
  lemma OverdrawnIsAccepted(limit: nat, huge: nat, grid: int, digits: nat)
    requires TwoDigits(limit) && IsHuge(huge, digits) && LEAST <= grid <= 0
    ensures var e := Told([huge, 9], huge, 10, grid);
            && Ingested(e) && EvidenceOnGrid(e, grid)
            && Verdict(e, limit) && !Accepted(ReadEvidence(e, grid))
  {
    hide *;
    HugeMeans(huge, digits);
    LargePower(digits);
    var d := HugeThenDigit(huge, 9, grid, digits);
    RoundedDigits();
    StoryReplays([huge, 9], huge, 10, grid, huge + 10, limit);
    ToldVerdict([huge, 9], huge, 10, grid, limit);
    ToldIsIngested([huge, 9], huge, 10, grid);
    TwoSum(huge, 9);
    ToldIsOverdrawn([huge, 9], huge, 10, grid);
  }

  lemma TwoSum(a: int, b: int)
    ensures Sum([a, b]) == a + b
  {
    OneSum(a);
    assert [a, b][..1] == [a];
  }

  lemma FoursThenHuge(huge: nat, digits: nat)
    requires IsHuge(huge, digits)
    ensures Leaves([4, 4, huge], 0, huge + 10)
  {
    hide *;
    var d := Decimal(huge, 0);
    NothingSubscribed(0);
    SmallSums();
    assert [4][..0] == [] && [4, 4][..1] == [4] && [4, 4, huge][..2] == [4, 4];
    SubscribedNext([4], 0, 4, ZERO, Decimal(4, 0));
    SubscribedNext([4, 4], 0, 8, Decimal(4, 0), Decimal(8, 0));
    ReadBack(d);
    FineIs();
    HugeSum(Decimal(8, 0), d, huge, 8, 0, digits);
    RoundedDigits();
    YieldsAt(AddRewardQuantity(Decimal(8, 0), d), 0, huge + 10);
    SubscribedNext([4, 4, huge], 0, huge + 10, Decimal(8, 0), AddRewardQuantity(Decimal(8, 0), d).value);
  }

  lemma SmallSums()
    ensures AddRewardQuantity(ZERO, Decimal(4, 0)) == Ok(Decimal(4, 0)) && Scaled(Decimal(4, 0), 0) == 4
    ensures AddRewardQuantity(Decimal(4, 0), Decimal(4, 0)) == Ok(Decimal(8, 0)) && Scaled(Decimal(8, 0), 0) == 8
  {
    hide Pow10;
    hide DigitCount;
    hide Scaled;
    hide Finished;
    hide RewardSumPrec;
    ZeroReads(0);
    ReadBack(Decimal(4, 0));
    ReadBack(Decimal(8, 0));
    SmallIsKept(4, 50);
    SmallIsKept(8, 50);
    SmallPrec(ZERO, Decimal(4, 0));
    SmallPrec(Decimal(4, 0), Decimal(4, 0));
  }

  lemma SmallPrec(left: Decimal, right: Decimal)
    requires left.exp == 0 == right.exp && 0 <= left.coeff < 10 && 0 <= right.coeff < 10
    ensures RewardSumPrec(left, right) == 50
  {
    assert DigitCount(left.coeff) == 1 && DigitCount(right.coeff) == 1;
    hide DigitCount;
  }

  lemma SmallIsKept(n: nat, digits: nat)
    requires 0 < n < 10 && digits == 50
    ensures DigitCount(n) == 1 && Finished(n, 0, digits) == Ok(Decimal(n, 0))
  {
    FewDigits(n, digits);
    NothingGone(n);
    assert DigitCount(n) == 1;
    hide DigitCount;
    hide Pow10;
    assert Excess(n, 0, digits) == 0;
  }

  lemma NothingGone(n: nat)
    ensures RoundedUnits(n, 0) == n
  {
    assert Pow10(0) == 1 && DropDigits(n, 0) == n;
  }

  lemma HugeThenFours(huge: nat, digits: nat)
    requires IsHuge(huge, digits)
    ensures Leaves([huge, 4, 4], 0, huge)
  {
    hide *;
    FineIs();
    var d := HugeThenDigit(huge, 4, 0, digits);
    RoundedDigits();
    HugeSum(d, Decimal(4, 0), huge, 4, 0, digits);
    YieldsAt(AddRewardQuantity(d, Decimal(4, 0)), 0, huge);
    assert [huge, 4, 4][..2] == [huge, 4];
    SubscribedNext([huge, 4, 4], 0, huge, d, AddRewardQuantity(d, Decimal(4, 0)).value);
  }

  /** The same facts in another order: their readings are a permutation. */
  lemma Permuted(a: seq<int>, b: seq<int>, first: int, second: int, grid: int)
    requires multiset(a) == multiset(b)
    ensures Reordered(Told(a, first, second, grid), Told(b, first, second, grid))
  {
    SamePermutation(a, b, grid);
  }

  lemma {:induction false} SamePermutation(a: seq<int>, b: seq<int>, grid: int)
    requires multiset(a) == multiset(b)
    ensures multiset(FactsOf(Subscriptions(a, grid))) == multiset(FactsOf(Subscriptions(b, grid)))
    decreases |a|
  {
    SameMembers(a, b);
    if a == [] {
      assert a == b;
    } else {
      var n := |a| - 1;
      assert a[n] in b;
      var k :| 0 <= k < |b| && b[k] == a[n];
      Without(a, n);
      Without(b, k);
      assert a[..n] + a[n + 1..] == a[..n];
      SamePermutation(a[..n], b[..k] + b[k + 1..], grid);
      FactWithout(a, n, grid);
      FactWithout(b, k, grid);
    }
  }

  lemma FactWithout(a: seq<int>, k: nat, grid: int)
    requires k < |a|
    ensures multiset(FactsOf(Subscriptions(a, grid)))
            == multiset(FactsOf(Subscriptions(a[..k] + a[k + 1..], grid)))
              + multiset{Fact(PRODUCT, SubscribeAt(1, a[k], grid))}
  {
    var facts := FactsOf(Subscriptions(a, grid));
    Without(facts, k);
    assert FactsOf(Subscriptions(a[..k] + a[k + 1..], grid)) == facts[..k] + facts[k + 1..];
    assert facts[k] in multiset(facts);
  }

  /** The same facts, in two orders: one listing is accepted, the other refused. */
  lemma OrderCanMatter(limit: nat, huge: nat, digits: nat)
    requires TwoDigits(limit) && IsHuge(huge, digits)
    ensures var a, b := Told([4, 4, huge], huge, 9, 0), Told([huge, 4, 4], huge, 9, 0);
            && Ingested(a) && Reordered(a, b) && Verdict(a, limit) && !Verdict(b, limit)
  {
    hide *;
    HugeMeans(huge, digits);
    LargePower(digits);
    FoursThenHuge(huge, digits);
    HugeThenFours(huge, digits);
    StoryReplays([4, 4, huge], huge, 9, 0, huge + 10, limit);
    StoryReplays([huge, 4, 4], huge, 9, 0, huge, limit);
    ToldVerdict([4, 4, huge], huge, 9, 0, limit);
    ToldVerdict([huge, 4, 4], huge, 9, 0, limit);
    ToldIsIngested([4, 4, huge], huge, 9, 0);
    assert [4, 4, huge] == [4, 4] + [huge] && [huge, 4, 4] == [huge] + [4, 4];
    Permuted([4, 4, huge], [huge, 4, 4], huge, 9, 0);
  }

  // ---- Below the least exponent ---------------------------------------------------------------------

  /** 10^-1000049, one place below what a context of 50 digits keeps. */
  const FINE: int := LEAST - 1

  /** What such a context makes of a quantity and a few units of it. */
  lemma FineSum(left: Decimal, amount: nat, total: nat, digits: nat)
    requires 0 < amount < 10 && 0 < total < 100 && digits == 50
    requires left == ZERO || (left.exp == LEAST && 0 <= left.coeff < 10)
    requires Scaled(left, FINE) + amount == total
    ensures var c := HalfEven(total / 10, total % 10, 10);
            AddRewardQuantity(left, Decimal(amount, FINE)) == Ok(Decimal(c, LEAST))
              && Scaled(Decimal(c, LEAST), FINE) == 10 * c
  {
    var right := Decimal(amount, FINE);
    FinePrec(left, right);
    ReadBack(right);
    BelowLeast(total, digits);
    TenUnits(HalfEven(total / 10, total % 10, 10));
    hide Pow10;
    hide Scaled;
    hide Finished;
    hide RewardSumPrec;
  }

  lemma TenUnits(c: nat)
    ensures Scaled(Decimal(c, LEAST), FINE) == 10 * c
  {
    assert Pow10(1) == 10 * Pow10(0) == 10;
    ScaledIsProduct(Decimal(c, LEAST), FINE);
  }

  lemma FinePrec(left: Decimal, right: Decimal)
    requires right.exp == FINE && 0 < right.coeff < 10
    requires left == ZERO || (left.exp == LEAST && 0 <= left.coeff < 10)
    ensures RewardSumPrec(left, right) == 50
  {
    assert DigitCount(right.coeff) == 1;
    assert left.coeff != 0 ==> DigitCount(left.coeff) == 1;
    hide DigitCount;
  }

  /**
  Subscribed 9E-1000049, redeemed 9E-1000049 and 1E-1000049: accepted, because the subscription was rounded up
  to 1E-1000048, although the balance ends one unit below zero. The grid is one place finer than the finest
  that is safe.
  */
  lemma FineOverdrawnIsAccepted(limit: nat)
    requires TwoDigits(limit)
    ensures var e := Told([9], 9, 1, FINE);
            && Ingested(e) && EvidenceOnGrid(e, FINE)
            && Verdict(e, limit) && !Accepted(ReadEvidence(e, FINE))
  {
    hide *;
    FineIs();
    ZeroReads(FINE);
    FineSum(ZERO, 9, 9, 50);
    HalfEvens();
    NothingSubscribed(FINE);
    assert [9][..0] == [];
    SubscribedNext([9], FINE, 10, ZERO, Decimal(1, LEAST));
    StoryReplays([9], 9, 1, FINE, 10, limit);
    ToldVerdict([9], 9, 1, FINE, limit);
    ToldIsIngested([9], 9, 1, FINE);
    OneSum(9);
    ToldIsOverdrawn([9], 9, 1, FINE);
  }

  lemma FineIs()
    ensures FINE < LEAST <= 0 && FINE <= 0
  {
  }

  lemma HalfEvens()
    ensures HalfEven(0, 9, 10) == 1 && HalfEven(0, 5, 10) == 0 && HalfEven(0, 6, 10) == 1 && HalfEven(1, 5, 10) == 2
  {
  }

  lemma OneSum(a: int)
    ensures Sum([a]) == a
  {
    assert [a][..0] == [];
  }

  /** 5 and 6 units add up to 10, but 6 and 5 to 20. */
  lemma FineOrder()
    ensures Leaves([5, 6], FINE, 10) && Leaves([6, 5], FINE, 20)
  {
    hide *;
    FineIs();
    ZeroReads(FINE);
    HalfEvens();
    NothingSubscribed(FINE);
    FineSum(ZERO, 5, 5, 50);
    FineSum(ZERO, 6, 6, 50);
    assert [5][..0] == [] && [6][..0] == [] && [5, 6][..1] == [5] && [6, 5][..1] == [6];
    SubscribedNext([5], FINE, 0, ZERO, Decimal(0, LEAST));
    SubscribedNext([6], FINE, 10, ZERO, Decimal(1, LEAST));
    FineSum(Decimal(0, LEAST), 6, 6, 50);
    FineSum(Decimal(1, LEAST), 5, 15, 50);
    SubscribedNext([5, 6], FINE, 10, Decimal(0, LEAST), Decimal(1, LEAST));
    SubscribedNext([6, 5], FINE, 20, Decimal(1, LEAST), Decimal(2, LEAST));
  }

  /** So on such a grid, too, the order of the same facts decides. */
  lemma FineOrderCanMatter(limit: nat)
    requires TwoDigits(limit)
    ensures var a, b := Told([6, 5], 10, 9, FINE), Told([5, 6], 10, 9, FINE);
            && Ingested(a) && Reordered(a, b) && Verdict(a, limit) && !Verdict(b, limit)
  {
    hide *;
    FineIs();
    FineOrder();
    StoryReplays([6, 5], 10, 9, FINE, 20, limit);
    StoryReplays([5, 6], 10, 9, FINE, 10, limit);
    ToldVerdict([6, 5], 10, 9, FINE, limit);
    ToldVerdict([5, 6], 10, 9, FINE, limit);
    ToldIsIngested([6, 5], 10, 9, FINE);
    assert [6, 5] == [6] + [5] && [5, 6] == [5] + [6];
    Permuted([6, 5], [5, 6], 10, 9, FINE);
  }
}

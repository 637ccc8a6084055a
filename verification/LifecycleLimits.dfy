/**
Exactly when the decimal replay of Lifecycle.dfy decides as the balance histories do: each limit on grid and
size that it needs is also necessary.
*/
module LifecycleLimits {
  import opened Outcomes
  import opened Decimals
  import opened Contexts
  import opened Lifecycle
  import opened LifecycleRounding

  /** Opening and gains of every product stay below 10^digits units. */
  ghost predicate WithinDigits(e: Evidence<int>, digits: nat) {
    forall p :: p in Products(e) && Opening(e, p, 0).Some? ==> Total(e, p) < Pow10(digits)
  }

  function Total(e: Evidence<int>, p: Product): int
    requires Opening(e, p, 0).Some?
  {
    Opening(e, p, 0).value + Gains(EventsOf(e, p))
  }

  /** For every account on this grid with quantities of so many digits the verdict is the one meant. */
  ghost predicate Decides(limit: nat, grid: int, digits: nat) {
    forall e :: Ingested(e) && EvidenceOnGrid(e, grid) && WithinDigits(ReadEvidence(e, grid), digits) ==>
      (Verdict(e, limit) <==> Accepted(ReadEvidence(e, grid)))
  }

  /**
  It is so exactly when every context keeps the grid, 1000 digits hold the quantities, and `str` prints them
  (a limit of 0 is none).
  */
  lemma DecidesIff(limit: nat, grid: int, digits: nat, cap: nat)
    requires grid <= 0 && digits >= 1 && IsCap(cap)
    ensures Decides(limit, grid, digits) <==> LEAST <= grid && digits <= cap && (limit == 0 || digits <= limit)
  {
    hide *;
    if LEAST <= grid && digits <= cap && (limit == 0 || digits <= limit) {
      forall e | Ingested(e) && EvidenceOnGrid(e, grid) && WithinDigits(ReadEvidence(e, grid), digits)
        ensures Verdict(e, limit) <==> Accepted(ReadEvidence(e, grid))
      {
        WithinIsMeasured(e, limit, grid, digits, cap);
        VerdictIsAccepted(e, limit, grid);
      }
      Decided(limit, grid, digits);
    } else {
      var e := Counterexample(limit, grid, digits, cap);
      Undecided(e, limit, grid, digits);
    }
  }

  lemma Decided(limit: nat, grid: int, digits: nat)
    requires forall e :: Ingested(e) && EvidenceOnGrid(e, grid) && WithinDigits(ReadEvidence(e, grid), digits) ==>
      (Verdict(e, limit) <==> Accepted(ReadEvidence(e, grid)))
    ensures Decides(limit, grid, digits)
  {
    hide Ingested;
    hide EvidenceOnGrid;
    hide WithinDigits;
    hide Verdict;
    hide Accepted;
    hide ReadEvidence;
  }

  lemma Undecided(e: Evidence<Decimal>, limit: nat, grid: int, digits: nat)
    requires Ingested(e) && EvidenceOnGrid(e, grid) && WithinDigits(ReadEvidence(e, grid), digits)
    requires Verdict(e, limit) != Accepted(ReadEvidence(e, grid))
    ensures !Decides(limit, grid, digits)
  {
    hide Ingested;
    hide EvidenceOnGrid;
    hide WithinDigits;
    hide Verdict;
    hide Accepted;
    hide ReadEvidence;
  }

  // ---- The limits suffice ---------------------------------------------------------------------------

  lemma WithinIsMeasured(e: Evidence<Decimal>, limit: nat, grid: int, digits: nat, cap: nat)
    requires Ingested(e) && EvidenceOnGrid(e, grid) && WithinDigits(ReadEvidence(e, grid), digits)
    requires LEAST <= grid <= 0 && digits <= cap && (limit == 0 || digits <= limit) && IsCap(cap)
    ensures AllMeasured(e, limit, grid)
  {
    var read := ReadEvidence(e, grid);
    hide *;
    forall p | p in Products(e) ensures Measured(EventsOf(e, p), Opening(e, p, ZERO), limit, grid) {
      ReadProducts(e, grid);
      TotalReads(e, p, grid, digits);
      if Opening(e, p, ZERO).Some? {
        FewDigitsAreRoomy(Total(read, p), limit, digits, cap);
      }
      MeasuredIf(EventsOf(e, p), Opening(e, p, ZERO), limit, grid);
    }
    AllMeasuredIf(e, limit, grid);
  }

  lemma TotalReads(e: Evidence<Decimal>, p: Product, grid: int, digits: nat)
    requires Ingested(e) && EvidenceOnGrid(e, grid) && WithinDigits(ReadEvidence(e, grid), digits) && grid <= 0
    requires p in Products(ReadEvidence(e, grid))
    ensures OnGrid(EventsOf(e, p), grid)
    ensures Opening(e, p, ZERO).Some? <==> Opening(ReadEvidence(e, grid), p, 0).Some?
    ensures Opening(e, p, ZERO).Some? ==>
              && grid <= Opening(e, p, ZERO).value.exp && Opening(e, p, ZERO).value.coeff >= 0
              && Total(ReadEvidence(e, grid), p)
                 == Scaled(Opening(e, p, ZERO).value, grid) + Gains(ReadAll(EventsOf(e, p), grid)) < Pow10(digits)
  {
    EventsOfRead(e, p, grid);
    ZeroReads(grid);
    hide EventsIn;
    hide OnGrid;
    hide FactsOnGrid;
    hide ReadAll;
    hide Gains;
    hide Scaled;
    hide Pow10;
  }

  lemma MeasuredIf(facts: seq<Event<Decimal>>, opening: Option<Decimal>, limit: nat, grid: int)
    requires LEAST <= grid <= 0 && OnGrid(facts, grid)
    requires opening.Some? ==>
               && grid <= opening.value.exp && opening.value.coeff >= 0
               && Roomy(Scaled(opening.value, grid) + Gains(ReadAll(facts, grid)), limit)
    ensures Measured(facts, opening, limit, grid)
  {
    hide OnGrid;
    hide Roomy;
    hide Gains;
    hide Scaled;
  }

  lemma AllMeasuredIf(e: Evidence<Decimal>, limit: nat, grid: int)
    requires EvidenceOnGrid(e, grid)
    requires forall p :: p in Products(e) ==> Measured(EventsOf(e, p), Opening(e, p, ZERO), limit, grid)
    ensures AllMeasured(e, limit, grid)
  {
    hide Measured;
    hide EvidenceOnGrid;
  }

  lemma FewDigitsAreRoomy(total: int, limit: nat, digits: nat, cap: nat)
    requires total < Pow10(digits) && digits <= cap && (limit == 0 || digits <= limit) && IsCap(cap)
    ensures Roomy(total, limit)
  {
    PowMonotone(digits, cap);
    if limit != 0 {
      PowMonotone(digits, limit);
    }
    hide Pow10;
  }

  // ---- The limits are necessary ---------------------------------------------------------------------

  /** Where a limit is exceeded there is an account whose verdict is wrong. */
  lemma Counterexample(limit: nat, grid: int, digits: nat, cap: nat) returns (e: Evidence<Decimal>)
    requires grid <= 0 && digits >= 1 && IsCap(cap)
    requires !(LEAST <= grid && digits <= cap && (limit == 0 || digits <= limit))
    ensures Ingested(e) && EvidenceOnGrid(e, grid) && WithinDigits(ReadEvidence(e, grid), digits)
    ensures Verdict(e, limit) != Accepted(ReadEvidence(e, grid))
  {
    hide *;
    if grid < LEAST {
      e := Told([2], 1, 1, grid);
      TwoVanish(limit, grid, digits);
    } else if limit != 0 && digits > limit && limit < cap {
      e := Told([Pow10(limit) + 1], 1, 1, grid);
      UnprintableRedemption(limit, grid, digits, cap);
    } else {
      var huge := Pow10(cap);
      e := Told([huge, 9], huge, 10, grid);
      HugeIs(cap, limit);
      OverdrawnIsAccepted(limit, huge, grid, cap);
      TwoSum(huge, 9);
      LargePower(cap);
      PowMonotone(cap + 1, digits);
      Tens(cap + 1);
      StoryWithin([huge, 9], huge, 10, grid, digits);
    }
  }

  lemma HugeIs(cap: nat, limit: nat)
    requires IsCap(cap) && (limit == 0 || limit >= cap)
    ensures IsHuge(Pow10(cap), cap) && TwoDigits(limit) && cap >= 10 && Pow10(cap) > 0
  {
    hide Pow10;
  }

  /** A story whose subscriptions stay below 10^digits units. */
  lemma StoryWithin(amounts: seq<int>, first: int, second: int, grid: int, digits: nat)
    requires EvidenceOnGrid(Told(amounts, first, second, grid), grid) && Sum(amounts) < Pow10(digits)
    ensures WithinDigits(ReadEvidence(Told(amounts, first, second, grid), grid), digits)
  {
    var e := Told(amounts, first, second, grid);
    var read := ReadEvidence(e, grid);
    hide *;
    ToldProducts(amounts, first, second, grid);
    ReadProducts(e, grid);
    ReadStory(amounts, first, second, grid);
    StoryGains(amounts, first, second, EventsOf(read, PRODUCT));
    OneProductWithin(read, digits);
  }

  lemma OneProductWithin(read: Evidence<int>, digits: nat)
    requires Products(read) == {PRODUCT} && Opening(read, PRODUCT, 0) == Some(0)
    requires Gains(EventsOf(read, PRODUCT)) < Pow10(digits)
    ensures WithinDigits(read, digits)
  {
    hide Products;
    hide EventsOf;
    hide Opening;
    hide Gains;
    hide Pow10;
  }

  lemma StoryGains(amounts: seq<int>, first: int, second: int, read: seq<Event<int>>)
    requires |read| == |amounts| + 2
    requires forall k :: 0 <= k < |amounts| ==> read[k] == Event(Subscribe, 1, amounts[k])
    requires read[|amounts|] == Event(Redeem, 2, first) && read[|amounts| + 1] == Event(Redeem, 3, second)
    ensures Gains(read) == Sum(amounts)
  {
    var n := |amounts|;
    SubscribedGains(amounts, read[..n]);
    assert read[..n + 1][..n] == read[..n] && read[..n + 2] == read;
    assert NetOf(read, 0) == NetOf(read[..n + 1], 0) == NetOf(read[..n], 0);
    assert NetOf(read, 1) == NetOf(read[..n + 1], 1) == NetOf(read[..n], 1);
  }

  lemma {:induction false} SubscribedGains(amounts: seq<int>, read: seq<Event<int>>)
    requires |read| == |amounts| && forall k :: 0 <= k < |amounts| ==> read[k] == Event(Subscribe, 1, amounts[k])
    ensures NetOf(read, 0) == Sum(amounts) && NetOf(read, 1) == 0
  {
    if amounts != [] {
      SubscribedGains(amounts[..|amounts| - 1], read[..|amounts| - 1]);
    }
  }

  /** One subscription that covers both redemptions is an explained history. */
  lemma CoveredIsAccepted(amount: int, grid: int)
    requires amount >= 2 && EvidenceOnGrid(Told([amount], 1, 1, grid), grid)
    ensures Accepted(ReadEvidence(Told([amount], 1, 1, grid), grid))
  {
    var e := Told([amount], 1, 1, grid);
    var read := ReadEvidence(e, grid);
    hide *;
    ToldProducts([amount], 1, 1, grid);
    ReadProducts(e, grid);
    ReadStory([amount], 1, 1, grid);
    assert |[amount]| == 1;
    CoveredIsExplained(EventsOf(read, PRODUCT), amount);
    OneProductAccepted(e, grid);
  }

  lemma CoveredIsExplained(events: seq<Event<int>>, amount: int)
    requires |events| == 3 && amount >= 2
    requires events[0] == Event(Subscribe, 1, amount) && events[1] == Event(Redeem, 2, 1)
             && events[2] == Event(Redeem, 3, 1)
    ensures Explained(0, false, events)
  {
    var two, one := events[..2], events[..1];
    assert two[..1] == one && one[..0] == [];
    forall t: int | 1 <= t <= 3 ensures ChangeBy(events, t) == amount - (t - 1) {
      assert SumOf(one, Until(t)) == amount;
      assert SumOf(two, Until(t)) == amount - (if t >= 2 then 1 else 0);
    }
  }

  lemma OneProductAccepted(e: Evidence<Decimal>, grid: int)
    requires EvidenceOnGrid(e, grid) && e.managed.None? && e.opening == {}
    requires var read := ReadEvidence(e, grid);
             && Products(read) == {PRODUCT} && Opening(read, PRODUCT, 0) == Some(0)
             && Explained(0, false, EventsOf(read, PRODUCT))
    ensures Accepted(ReadEvidence(e, grid))
  {
    hide EventsOf;
    hide Explained;
    hide Opening;
    hide EvidenceOnGrid;
  }

  /** A story whose first redemption is refused is refused. */
  lemma RefusedAtFirst(amounts: seq<int>, first: int, second: int, grid: int, d: Decimal, limit: nat)
    requires amounts != [] && Fold(Subscribing, Subscriptions(amounts, grid), Some(ZERO)) == Ok(Some(d))
    requires Apply(Redeeming(limit), Some(d), RedeemAt(2, first, grid)).Err?
    ensures !Verdict(Told(amounts, first, second, grid), limit)
  {
    var n, events := |amounts|, Story(amounts, first, second, grid);
    hide *;
    ToldVerdict(amounts, first, second, grid, limit);
    StorySorted(amounts, first, second, grid);
    StoryBegins(events, n, Some(d), limit);
    assert events[n] == RedeemAt(2, first, grid) && events[n + 1].time != events[n].time by {
      RedemptionTimes(first, second, grid);
    }
    RedemptionAlone(events, n, Some(d), limit);
  }

  lemma RedemptionTimes(first: int, second: int, grid: int)
    ensures RedeemAt(2, first, grid).time == 2 && RedeemAt(3, second, grid).time == 3
  {
  }

  /** One subscription, one unit to be redeemed from what it left. */
  lemma OneStory(amount: int, grid: int, d: Decimal, limit: nat, digits: nat)
    requires 2 <= amount < Pow10(digits) && grid <= 0
    requires AddRewardQuantity(ZERO, Decimal(amount, grid)) == Ok(d) && d.exp >= grid && Scaled(d, grid) >= 0
    requires Apply(Redeeming(limit), Some(d), RedeemAt(2, 1, grid)).Err?
    ensures var e := Told([amount], 1, 1, grid);
            && Ingested(e) && EvidenceOnGrid(e, grid) && WithinDigits(ReadEvidence(e, grid), digits)
            && !Verdict(e, limit) && Accepted(ReadEvidence(e, grid))
  {
    hide *;
    ToldIsIngested([amount], 1, 1, grid);
    OneSum(amount);
    StoryWithin([amount], 1, 1, grid, digits);
    CoveredIsAccepted(amount, grid);
    NothingSubscribed(grid);
    assert [amount][..0] == [];
    SubscribedNext([amount], grid, Scaled(d, grid), ZERO, d);
    RefusedAtFirst([amount], 1, 1, grid, d, limit);
  }

  // ---- Below the least exponent ---------------------------------------------------------------------

  lemma UnitsVanish(n: nat, k: nat)
    requires n < 5 && k >= 1
    ensures RoundedUnits(n, k) == 0
  {
    hide Pow10;
    hide DropDigits;
    DroppedPartIsSmall(n, k);
    Tens(k);
    NoneLeft(DropDigits(n, k), Pow10(k), n);
  }

  lemma NoneLeft(q: nat, unit: nat, n: nat)
    requires q * unit <= n < 5 && unit >= 10
    ensures q == 0 && HalfEven(q, n - q * unit, unit) == 0
  {
    if q >= 1 {
      MulAtLeast(1, q, unit);
    }
  }

  /** Two units of a grid that the context does not keep are rounded to nothing. */
  lemma TwoFinished(grid: int, prec: nat)
    requires grid < LEAST && prec == 50
    ensures Finished(2, grid, prec) == Ok(Decimal(0, LEAST))
  {
    FewDigits(2, prec);
    assert DigitCount(2) == 1;
    hide Pow10;
    hide DigitCount;
    var k := Excess(2, grid, prec);
    assert k == LEAST - grid;
    UnitsVanish(2, k);
    hide RoundedUnits;
    hide Excess;
  }

  lemma TwoAdded(grid: int)
    requires grid < LEAST
    ensures AddRewardQuantity(ZERO, Decimal(2, grid)) == Ok(Decimal(0, LEAST))
  {
    var d := Decimal(2, grid);
    assert DigitCount(2) == 1;
    assert RewardSumPrec(ZERO, d) == 50;
    TwoFinished(grid, 50);
    ReadBack(d);
    ZeroReads(grid);
    hide Pow10;
    hide DigitCount;
    hide Scaled;
    hide Finished;
    hide RewardSumPrec;
  }

  /** 2 units subscribed are gone, so that nothing can be redeemed. */
  lemma TwoVanish(limit: nat, grid: int, digits: nat)
    requires grid < LEAST && digits >= 1
    ensures var e := Told([2], 1, 1, grid);
            && Ingested(e) && EvidenceOnGrid(e, grid) && WithinDigits(ReadEvidence(e, grid), digits)
            && !Verdict(e, limit) && Accepted(ReadEvidence(e, grid))
  {
    hide *;
    var d := Decimal(0, LEAST);
    BelowZero(grid);
    TwoAdded(grid);
    Tens(digits);
    NothingToRedeem(d, RedeemAt(2, 1, grid), grid, limit);
    OneStory(2, grid, d, limit, digits);
  }

  lemma BelowZero(grid: int)
    requires grid < LEAST
    ensures grid <= 0 && Scaled(Decimal(0, LEAST), grid) == 0
  {
  }

  lemma NothingToRedeem(d: Decimal, e: Event<Decimal>, grid: int, limit: nat)
    requires d.coeff == 0 && e.kind.Redeem? && e.amount == Decimal(1, grid) && grid <= d.exp && grid <= 0
    ensures Apply(Redeeming(limit), Some(d), e).Err?
  {
    hide Pow10;
    hide SubtractLifecycleQuantity;
    ReadBack(e.amount);
    ReadZero(d, grid);
    hide Scaled;
    LessAt(d, e.amount, grid);
    hide Less;
  }

  // ---- Beyond the limit of `str` --------------------------------------------------------------------

  /** 10^limit + 1 units subscribed are kept, but what one redemption leaves of them cannot be printed. */
  lemma UnprintableRedemption(limit: nat, grid: int, digits: nat, cap: nat)
    requires LEAST <= grid <= 0 && 0 < limit < digits && limit < cap && IsCap(cap)
    ensures var e := Told([Pow10(limit) + 1], 1, 1, grid);
            && Ingested(e) && EvidenceOnGrid(e, grid) && WithinDigits(ReadEvidence(e, grid), digits)
            && !Verdict(e, limit) && Accepted(ReadEvidence(e, grid))
  {
    hide *;
    var amount := Pow10(limit) + 1;
    Tens(limit);
    Tens(limit + 1);
    PowMonotone(limit + 1, digits);
    PowMonotone(limit + 1, cap);
    ReadBack(Decimal(amount, grid));
    ZeroReads(grid);
    IsBelowCap(amount, cap);
    AddQuantity(ZERO, Decimal(amount, grid), grid);
    YieldsAt(AddRewardQuantity(ZERO, Decimal(amount, grid)), grid, amount);
    var d := AddRewardQuantity(ZERO, Decimal(amount, grid)).value;
    RestIsUnprintable(d, RedeemAt(2, 1, grid), grid, limit);
    OneStory(amount, grid, d, limit, digits);
  }

  lemma IsBelowCap(x: int, cap: nat)
    requires IsCap(cap) && x < Pow10(cap)
    ensures BelowCap(x)
  {
    hide Pow10;
  }

  lemma RestIsUnprintable(d: Decimal, e: Event<Decimal>, grid: int, limit: nat)
    requires e.kind.Redeem? && e.amount == Decimal(1, grid) && grid <= d.exp && grid <= 0 && limit > 0
    requires Scaled(d, grid) == Pow10(limit) + 1
    ensures Apply(Redeeming(limit), Some(d), e).Err?
  {
    hide Pow10;
    hide SubtractLifecycleQuantity;
    ReadBack(e.amount);
    SubtractIsExact(d, e.amount, limit, grid);
    hide Scaled;
    hide Less;
  }
}

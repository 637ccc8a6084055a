/**
The histories that Lifecycle.dfy is meant to accept, said of the listed facts themselves: product by product,
from what was subscribed, redeemed and rewarded up to each moment.
*/
module LifecycleMeaning {
  import opened Outcomes
  import opened Lifecycle

  /** Subscriptions, redemptions and rewards are listed apart. */
  predicate Sorted(e: Evidence<int>) {
    && (forall f :: f in e.subscriptions ==> f.event.kind == Subscribe)
    && (forall f :: f in e.redemptions ==> f.event.kind == Redeem)
    && (forall f :: f in e.rewards ==> f.event.kind.Reward?)
  }

  /** A reward that was added to the position, not paid elsewhere. */
  predicate Compounds(e: Event<int>) {
    e.kind != Reward("BONUS") && (e.kind.Reward? ==> e.kind.category == "REALTIME")
  }

  /** What the facts of one product amount to up to a time. */
  function Amount(facts: seq<Fact<int>>, p: Product, t: int): int {
    if facts == [] then 0
    else
      (if facts[0].product == p && facts[0].event.time <= t
        && Compounds(facts[0].event) then facts[0].event.amount else 0)
      + Amount(facts[1..], p, t)
  }

  /** The balance of a product at the end of a millisecond. */
  function Balance(e: Evidence<int>, p: Product, opening: int, t: int): int {
    opening + Amount(e.subscriptions, p, t) + Amount(e.rewards, p, t) - Amount(e.redemptions, p, t)
  }

  lemma {:induction false} LastAmount(facts: seq<Fact<int>>, p: Product, t: int)
    requires facts != []
    ensures var last := facts[|facts| - 1];
            Amount(facts, p, t) == Amount(facts[..|facts| - 1], p, t)
              + (if last.product == p && last.event.time <= t && Compounds(last.event) then last.event.amount else 0)
    decreases |facts|
  {
    hide Compounds;
    if |facts| > 1 {
      LastAmount(facts[1..], p, t);
      assert facts[1..][..|facts| - 2] == facts[..|facts| - 1][1..];
    }
  }

  /** The change of the balance by listed facts of one kind. */
  lemma {:induction false} ChangeIsAmount(facts: seq<Fact<int>>, p: Product, t: int, sign: int)
    requires forall f :: f in facts ==> if f.event.kind == Redeem then sign == -1 else sign == 1
    ensures SumOf(EventsIn(facts, p), Until(t)) == sign * Amount(facts, p, t)
    decreases |facts|
  {
    if facts != [] {
      var n, last := |facts| - 1, facts[|facts| - 1];
      var before := EventsIn(facts[..n], p);
      ChangeIsAmount(facts[..n], p, t, sign);
      LastAmount(facts, p, t);
      assert last in facts;
      if last.product == p {
        assert (before + [last.event])[..|before|] == before;
      } else {
        assert before + [] == before;
      }
    }
  }

  lemma {:induction false} SumOfBoth(a: seq<Event<int>>, b: seq<Event<int>>, taken: Taken)
    ensures SumOf(a + b, taken) == SumOf(a, taken) + SumOf(b, taken)
    decreases |b|
  {
    hide Takes;
    hide Delta;
    if b == [] {
      assert a + b == a;
    } else {
      assert (a + b)[..|a + b| - 1] == a + b[..|b| - 1];
      SumOfBoth(a, b[..|b| - 1], taken);
    }
  }

  lemma BalanceIs(e: Evidence<int>, p: Product, opening: int, t: int)
    requires Sorted(e)
    ensures opening + ChangeBy(EventsOf(e, p), t) == Balance(e, p, opening, t)
  {
    var s, d, r := EventsIn(e.subscriptions, p), EventsIn(e.redemptions, p), EventsIn(e.rewards, p);
    SumOfBoth(s, d, Until(t));
    SumOfBoth(s + d, r, Until(t));
    ChangeIsAmount(e.subscriptions, p, t, 1);
    ChangeIsAmount(e.redemptions, p, t, -1);
    ChangeIsAmount(e.rewards, p, t, 1);
    hide SumOf;
    hide EventsIn;
    hide Amount;
  }

  /** Some listed fact of the product is this event. */
  ghost predicate Listed(facts: seq<Fact<int>>, p: Product, e: Event<int>) {
    Fact(p, e) in facts
  }

  lemma {:induction false} EventsAreListed(facts: seq<Fact<int>>, p: Product, e: Event<int>)
    ensures e in EventsIn(facts, p) <==> Listed(facts, p, e)
    decreases |facts|
  {
    if facts != [] {
      var n := |facts| - 1;
      EventsAreListed(facts[..n], p, e);
      assert facts == facts[..n] + [facts[n]];
    }
  }

  ghost predicate Happened(e: Evidence<int>, p: Product, x: Event<int>) {
    Listed(e.subscriptions, p, x) || Listed(e.redemptions, p, x) || Listed(e.rewards, p, x)
  }

  lemma HappenedIff(e: Evidence<int>, p: Product, x: Event<int>)
    ensures x in EventsOf(e, p) <==> Happened(e, p, x)
  {
    EventsAreListed(e.subscriptions, p, x);
    EventsAreListed(e.redemptions, p, x);
    EventsAreListed(e.rewards, p, x);
    hide EventsIn;
    hide Listed;
  }

  /** A subscription of the product at, or before, a moment. */
  ghost predicate SubscribedThen(e: Evidence<int>, p: Product, t: int) {
    exists x :: Listed(e.subscriptions, p, x) && x.time == t
  }

  ghost predicate SubscribedEarlier(e: Evidence<int>, p: Product, t: int) {
    exists x :: Listed(e.subscriptions, p, x) && x.time < t
  }

  lemma SubscribedIff(e: Evidence<int>, p: Product, t: int)
    requires Sorted(e)
    ensures SubscribedAt(EventsOf(e, p), t) <==> SubscribedThen(e, p, t)
    ensures SubscribedBefore(EventsOf(e, p), t) <==> SubscribedEarlier(e, p, t)
  {
    forall x ensures x in EventsOf(e, p) && x.kind.Subscribe? <==> Listed(e.subscriptions, p, x) {
      HappenedIff(e, p, x);
    }
    hide EventsOf;
    hide Listed;
    var events := EventsOf(e, p);
    if SubscribedThen(e, p, t) {
      var x :| Listed(e.subscriptions, p, x) && x.time == t;
      var k :| 0 <= k < |events| && events[k] == x;
    }
    if SubscribedEarlier(e, p, t) {
      var x :| Listed(e.subscriptions, p, x) && x.time < t;
      var k :| 0 <= k < |events| && events[k] == x;
    }
    if SubscribedAt(events, t) {
      var k :| 0 <= k < |events| && events[k].kind.Subscribe? && events[k].time == t;
      assert events[k] in events;
    }
    if SubscribedBefore(events, t) {
      var k :| 0 <= k < |events| && events[k].kind.Subscribe? && events[k].time < t;
      assert events[k] in events;
    }
  }

  predicate IsCategory(k: Kind) {
    k == Reward("BONUS") || k == Reward("REALTIME")
  }

  /** The reward was paid on a position that was there the millisecond before and not just subscribed. */
  ghost predicate Accrued(e: Evidence<int>, p: Product, opening: int, x: Event<int>) {
    && IsCategory(x.kind) && Balance(e, p, opening, x.time - 1) > 0
    && !SubscribedThen(e, p, x.time) && (p in e.opening || SubscribedEarlier(e, p, x.time))
  }

  /** The account of one product. */
  ghost predicate Coherent(e: Evidence<int>, p: Product) {
    if p in e.totals || p !in e.opening then
      var opening := if p in e.totals then e.totals[p] else 0;
      && (forall x :: Happened(e, p, x) ==> Balance(e, p, opening, x.time) >= 0)
      && (forall x :: Listed(e.rewards, p, x) ==> Accrued(e, p, opening, x))
    else
      forall x :: Happened(e, p, x) ==> IsCategory(x.kind)
  }

  /** Some fact of the product is listed. */
  ghost predicate Occurs(e: Evidence<int>, p: Product) {
    exists x :: Happened(e, p, x)
  }

  lemma {:induction false} ProductsIff(facts: seq<Fact<int>>, p: Product)
    ensures p in ProductsIn(facts) <==> exists x :: Listed(facts, p, x)
  {
    if p in ProductsIn(facts) {
      var k :| 0 <= k < |facts| && facts[k].product == p;
      assert facts[k] in facts && Listed(facts, p, facts[k].event);
    }
    if x :| Listed(facts, p, x) {
      var k :| 0 <= k < |facts| && facts[k] == Fact(p, x);
    }
  }

  lemma OccursIff(e: Evidence<int>, p: Product)
    ensures p in FactProducts(e) <==> Occurs(e, p)
  {
    ProductsIff(e.subscriptions, p);
    ProductsIff(e.redemptions, p);
    ProductsIff(e.rewards, p);
    hide ProductsIn;
    hide Listed;
    if x :| Listed(e.subscriptions, p, x) {
      assert Happened(e, p, x);
    }
    if x :| Listed(e.redemptions, p, x) {
      assert Happened(e, p, x);
    }
    if x :| Listed(e.rewards, p, x) {
      assert Happened(e, p, x);
    }
  }

  lemma CategoryIff(k: Kind)
    ensures k.Reward? && KnownCategory(k.category) <==> IsCategory(k)
  {
  }

  /** One event of a product with a known opening. */
  lemma EventIff(e: Evidence<int>, p: Product, opening: int, x: Event<int>)
    requires Sorted(e)
    ensures opening + ChangeBy(EventsOf(e, p), x.time) == Balance(e, p, opening, x.time)
    ensures x in EventsOf(e, p) <==> Happened(e, p, x)
    ensures x in EventsOf(e, p) && x.kind.Reward? <==> Listed(e.rewards, p, x)
    ensures Earned(opening, p in e.opening, EventsOf(e, p), x) <==> Accrued(e, p, opening, x)
  {
    BalanceIs(e, p, opening, x.time);
    BalanceIs(e, p, opening, x.time - 1);
    HappenedIff(e, p, x);
    SubscribedIff(e, p, x.time);
    CategoryIff(x.kind);
    hide EventsOf;
    hide ChangeBy;
    hide Balance;
    hide SubscribedAt;
    hide SubscribedBefore;
    hide SubscribedThen;
    hide SubscribedEarlier;
    hide KnownCategory;
    hide IsCategory;
  }

  lemma CoherentIff(e: Evidence<int>, p: Product)
    requires Sorted(e)
    ensures HistoryOk(Opening(e, p, 0), p in e.opening, EventsOf(e, p)) <==> Coherent(e, p)
  {
    var events := EventsOf(e, p);
    if p in e.totals || p !in e.opening {
      var opening := if p in e.totals then e.totals[p] else 0;
      forall x: Event<int>
        ensures opening + ChangeBy(events, x.time) == Balance(e, p, opening, x.time)
        ensures x in events <==> Happened(e, p, x)
        ensures x in events && x.kind.Reward? <==> Listed(e.rewards, p, x)
        ensures Earned(opening, p in e.opening, events, x) <==> Accrued(e, p, opening, x)
      {
        EventIff(e, p, opening, x);
      }
      hide EventsOf;
      hide Earned;
      hide Accrued;
      hide ChangeBy;
      hide Balance;
      hide Happened;
      hide Listed;
      ExplainedByMembers(opening, p in e.opening, events);
      hide Explained;
    } else {
      forall x ensures x in events <==> Happened(e, p, x) {
        HappenedIff(e, p, x);
      }
      hide EventsOf;
      hide Happened;
      assert forall k :: 0 <= k < |events| ==> events[k] in events;
    }
  }

  /** `Explained` over the members instead of the positions. */
  lemma ExplainedByMembers(opening: int, approved: bool, events: seq<Event<int>>)
    ensures Explained(opening, approved, events) <==>
              && (forall x :: x in events ==> opening + ChangeBy(events, x.time) >= 0)
              && (forall x :: x in events && x.kind.Reward? ==> Earned(opening, approved, events, x))
  {
    hide ChangeBy;
    hide Earned;
    assert forall k :: 0 <= k < |events| ==> events[k] in events;
  }

  /**
  The verdict is meant to be given exactly to accounts whose facts all name a product, whose products are all
  managed, and each of which is coherent.
  */
  lemma AcceptedIff(e: Evidence<int>)
    requires Sorted(e)
    ensures Accepted(e) <==>
              && (forall p :: Occurs(e, p) ==> p.asset != "" && p.id != "")
              && (forall p :: p in e.opening || Occurs(e, p) ==>
                    (e.managed == None || p.asset in e.managed.value) && Coherent(e, p))
  {
    forall p ensures p in FactProducts(e) <==> Occurs(e, p) {
      OccursIff(e, p);
    }
    forall p ensures HistoryOk(Opening(e, p, 0), p in e.opening, EventsOf(e, p)) <==> Coherent(e, p) {
      CoherentIff(e, p);
    }
    hide FactProducts;
    hide Occurs;
    hide Coherent;
    hide HistoryOk;
    hide EventsOf;
    assert forall p :: ProductExplained(e, p) <==>
      (e.managed == None || p.asset in e.managed.value) && Coherent(e, p);
    hide ProductExplained;
  }
}

/**
_finalize_lifecycle_reward_classification of application/broker_reconciliation.py: per product, the
facts are replayed in batches of one millisecond, with the decimal arithmetic of Contexts.dfy, and the
verdict is compared with what the balance history of the product says once all quantities are read as
integers on one grid 10^grid.
*/
module Lifecycle {
  import opened Outcomes
  import opened Sequences
  import opened Decimals
  import opened Contexts

  datatype Product = Product(asset: string, id: string)

  datatype Kind = Subscribe | Reward(category: string) | Redeem

  /** `N` is Decimal in what is collected and int in what is read on a grid. */
  datatype Event<N> = Event(kind: Kind, time: int, amount: N)

  datatype Fact<N> = Fact(product: Product, event: Event<N>)

  /** `totals` are the verified opening quantities; `opening` the approved opening products. */
  datatype Evidence<N> = Evidence(
    subscriptions: seq<Fact<N>>, redemptions: seq<Fact<N>>, rewards: seq<Fact<N>>,
    opening: set<Product>, totals: map<Product, N>, managed: Option<set<string>>)

  predicate ValidAmount(e: Event<int>) {
    if e.kind.Reward? then e.amount >= 0 else e.amount > 0
  }

  predicate ValidQuantity(e: Event<Decimal>) {
    if e.kind.Reward? then e.amount.coeff >= 0 else e.amount.coeff > 0
  }

  /** What the row validators guarantee of the collected facts. */
  predicate Ingested(e: Evidence<Decimal>) {
    && (forall f :: f in e.subscriptions ==> f.event.kind.Subscribe? && ValidQuantity(f.event))
    && (forall f :: f in e.redemptions ==> f.event.kind.Redeem? && ValidQuantity(f.event))
    && (forall f :: f in e.rewards ==> f.event.kind.Reward? && ValidQuantity(f.event))
    && (forall p :: p in e.totals ==> e.totals[p].coeff >= 0)
  }

  // ---- The reference: balances over time --------------------------------------------------------

  /** What an event does to the balance; a BONUS reward is paid elsewhere. */
  function Delta(e: Event<int>): int {
    match e.kind
    case Subscribe => e.amount
    case Reward(category) => if category == "REALTIME" then e.amount else 0
    case Redeem => -e.amount
  }

  function Rank<N>(e: Event<N>): int {
    match e.kind
    case Subscribe => 0
    case Reward(_) => 1
    case Redeem => 2
  }

  /** Which events a sum takes: all, those up to a time, or those of one kind. */
  datatype Taken = Every | Until(t: int) | OfRank(rank: int)

  predicate Takes(taken: Taken, e: Event<int>) {
    match taken
    case Every => true
    case Until(t) => e.time <= t
    case OfRank(rank) => Rank(e) == rank
  }

  function SumOf(events: seq<Event<int>>, taken: Taken): int {
    if events == [] then 0
    else
      var last := events[|events| - 1];
      SumOf(events[..|events| - 1], taken) + (if Takes(taken, last) then Delta(last) else 0)
  }

  /** The change of the balance by all events up to and including time `t`. */
  function ChangeBy(events: seq<Event<int>>, t: int): int {
    SumOf(events, Until(t))
  }

  predicate KnownCategory(category: string) {
    category == "BONUS" || category == "REALTIME"
  }

  predicate SubscribedAt<N>(events: seq<Event<N>>, t: int) {
    exists k :: 0 <= k < |events| && events[k].kind.Subscribe? && events[k].time == t
  }

  predicate SubscribedBefore<N>(events: seq<Event<N>>, t: int) {
    exists k :: 0 <= k < |events| && events[k].kind.Subscribe? && events[k].time < t
  }

  predicate RedeemedBy<N>(events: seq<Event<N>>, t: int) {
    exists k :: 0 <= k < |events| && events[k].kind.Redeem? && events[k].time <= t
  }

  /** A reward accrued on a balance that was there strictly earlier. */
  predicate Earned(balance: int, opening: bool, events: seq<Event<int>>, e: Event<int>) {
    && e.kind.Reward? && KnownCategory(e.kind.category)
    && balance + ChangeBy(events, e.time - 1) > 0
    && !SubscribedAt(events, e.time)
    && (opening || SubscribedBefore(events, e.time))
  }

  /** With a known opening balance: it never ends a millisecond negative, and every reward is earned. */
  predicate Explained(balance: int, opening: bool, events: seq<Event<int>>) {
    && (forall k :: 0 <= k < |events| ==> balance + ChangeBy(events, events[k].time) >= 0)
    && (forall k :: 0 <= k < |events| && events[k].kind.Reward? ==> Earned(balance, opening, events, events[k]))
  }

  /** An approved opening product whose opening quantity is unknown can only have received rewards. */
  predicate OnlyRewards<N>(events: seq<Event<N>>) {
    forall k :: 0 <= k < |events| ==> events[k].kind.Reward? && KnownCategory(events[k].kind.category)
  }

  function Opening<N>(e: Evidence<N>, p: Product, zero: N): Option<N> {
    if p in e.totals then Some(e.totals[p]) else if p in e.opening then None else Some(zero)
  }

  function EventsIn<N>(facts: seq<Fact<N>>, p: Product): seq<Event<N>> {
    if facts == [] then []
    else
      var last := facts[|facts| - 1];
      EventsIn(facts[..|facts| - 1], p) + (if last.product == p then [last.event] else [])
  }

  function EventsOf<N>(e: Evidence<N>, p: Product): seq<Event<N>> {
    EventsIn(e.subscriptions, p) + EventsIn(e.redemptions, p) + EventsIn(e.rewards, p)
  }

  predicate HistoryOk(opening: Option<int>, approved: bool, events: seq<Event<int>>) {
    match opening
    case Some(balance) => Explained(balance, approved, events)
    case None => OnlyRewards(events)
  }

  predicate ProductExplained(e: Evidence<int>, p: Product) {
    && (e.managed.Some? ==> p.asset in e.managed.value)
    && HistoryOk(Opening(e, p, 0), p in e.opening, EventsOf(e, p))
  }

  function ProductsIn<N>(facts: seq<Fact<N>>): set<Product> {
    set k | 0 <= k < |facts| :: facts[k].product
  }

  function FactProducts<N>(e: Evidence<N>): set<Product> {
    ProductsIn(e.subscriptions) + ProductsIn(e.redemptions) + ProductsIn(e.rewards)
  }

  function Products<N>(e: Evidence<N>): set<Product> {
    e.opening + FactProducts(e)
  }

  /** Asset and product of every fact are named. */
  predicate Named(p: Product) {
    p.asset != "" && p.id != ""
  }

  /** The histories the classification is meant to accept. */
  predicate Accepted(e: Evidence<int>) {
    && (forall p :: p in FactProducts(e) ==> Named(p))
    && forall p :: p in Products(e) ==> ProductExplained(e, p)
  }

  // ---- The replay as functions ------------------------------------------------------------------

  predicate Before<N>(a: Event<N>, b: Event<N>) {
    a.time < b.time || (a.time == b.time && Rank(a) <= Rank(b))
  }

  function Insert<N>(sorted: seq<Event<N>>, e: Event<N>): seq<Event<N>> {
    if sorted == [] || Before(sorted[|sorted| - 1], e) then sorted + [e]
    else Insert(sorted[..|sorted| - 1], e) + [sorted[|sorted| - 1]]
  }

  /** `events.sort(key=(time, rank))`, stable */
  function SortEvents<N>(events: seq<Event<N>>): seq<Event<N>> {
    if events == [] then [] else Insert(SortEvents(events[..|events| - 1]), events[|events| - 1])
  }

  /** The three passes over the facts of one millisecond; a reward is judged by the balance before it. */
  datatype Pass =
    | Subscribing
    | Rewarding(prior: Option<Decimal>, opening: bool, subscribedEarlier: bool, redeemedBy: bool)
    | Redeeming(limit: nat)

  const REFUSED: string := "unapproved_reward_product"

  /** The quantity after an addition, which is refused when it overflows. */
  function Added(available: Decimal, amount: Decimal): Result<Option<Decimal>> {
    match AddRewardQuantity(available, amount)
    case Err(_) => Err(REFUSED)
    case Ok(sum) => Ok(Some(sum))
  }

  /** One event in one pass, on the quantity available. */
  function Apply(pass: Pass, available: Option<Decimal>, e: Event<Decimal>): Result<Option<Decimal>> {
    match pass
    case Subscribing =>
      if !e.kind.Subscribe? then Ok(available)
      else if available.None? then Err(REFUSED)
      else Added(available.value, e.amount)
    case Rewarding(prior, opening, subscribedEarlier, redeemedBy) =>
      if !e.kind.Reward? then Ok(available)
      else if !KnownCategory(e.kind.category) then Err(REFUSED)
      else if prior.None? && (!opening || redeemedBy) then Err(REFUSED)
      else if prior.Some? && prior.value.coeff <= 0 then Err(REFUSED)
      else if !opening && !subscribedEarlier then Err(REFUSED)
      else if e.kind.category == "REALTIME" && available.Some? then Added(available.value, e.amount)
      else Ok(available)
    case Redeeming(limit) =>
      if !e.kind.Redeem? then Ok(available)
      else if available.None? || Less(available.value, e.amount) then Err(REFUSED)
      else
        match SubtractLifecycleQuantity(available.value, e.amount, limit)
        case Err(_) => Err(REFUSED)
        case Ok(rest) => if rest.coeff < 0 then Err(REFUSED) else Ok(Some(rest))
  }

  function Fold(pass: Pass, batch: seq<Event<Decimal>>, start: Option<Decimal>): Result<Option<Decimal>> {
    if batch == [] then Ok(start)
    else
      match Fold(pass, batch[..|batch| - 1], start)
      case Err(code) => Err(code)
      case Ok(available) => Apply(pass, available, batch[|batch| - 1])
  }

  predicate HasKind<N>(events: seq<Event<N>>, rank: int) {
    exists i :: 0 <= i < |events| && Rank(events[i]) == rank
  }

  /** All passes over one millisecond. */
  function AfterBatch(batch: seq<Event<Decimal>>, prior: Option<Decimal>, opening: bool, subscribedEarlier: bool,
                      redeemedBy: bool, limit: nat):
    Result<Option<Decimal>>
  {
    match Fold(Subscribing, batch, prior)
    case Err(code) => Err(code)
    case Ok(subscribed) =>
      if HasKind(batch, 1) && HasKind(batch, 0) then Err(REFUSED)
      else
        match Fold(Rewarding(prior, opening, subscribedEarlier, redeemedBy), batch, subscribed)
        case Err(code) => Err(code)
        case Ok(rewarded) => Fold(Redeeming(limit), batch, rewarded)
  }

  /** The end of the millisecond `stamp` from index `k` on. */
  function BatchEnd<N>(events: seq<Event<N>>, k: nat, stamp: int): (end: nat)
    requires k <= |events|
    ensures k <= end <= |events| && forall i :: k <= i < end ==> events[i].time == stamp
    ensures end < |events| ==> events[end].time != stamp
    decreases |events| - k
  {
    if k < |events| && events[k].time == stamp then BatchEnd(events, k + 1, stamp) else k
  }

  function ReplayFrom(events: seq<Event<Decimal>>, from: nat, available: Option<Decimal>, approved: bool, limit: nat):
      bool
    requires from <= |events|
    decreases |events| - from
  {
    if from == |events| then true
    else
      var stamp, to := events[from].time, BatchEnd(events, from + 1, events[from].time);
      match AfterBatch(events[from..to], available, approved, SubscribedBefore(events, stamp),
        RedeemedBy(events, stamp), limit)
      case Err(_) => false
      case Ok(after) => ReplayFrom(events, to, after, approved, limit)
  }

  /** The replay of one product's facts. */
  predicate Simulates(facts: seq<Event<Decimal>>, opening: Option<Decimal>, approved: bool, limit: nat) {
    ReplayFrom(SortEvents(facts), 0, opening, approved, limit)
  }

  predicate ProductSimulates(e: Evidence<Decimal>, p: Product, limit: nat) {
    && (e.managed.Some? ==> p.asset in e.managed.value)
    && Simulates(EventsOf(e, p), Opening(e, p, ZERO), p in e.opening, limit)
  }

  /** The verdict of the classification. */
  predicate Verdict(e: Evidence<Decimal>, limit: nat) {
    && (forall p :: p in FactProducts(e) ==> Named(p))
    && forall p :: p in Products(e) ==> ProductSimulates(e, p, limit)
  }

  // ---- The replay as code -----------------------------------------------------------------------

  lemma {:induction false} FoldFailsEarly(pass: Pass, batch: seq<Event<Decimal>>, start: Option<Decimal>, n: nat)
    requires n <= |batch| && Fold(pass, batch[..n], start).Err?
    ensures Fold(pass, batch, start) == Fold(pass, batch[..n], start)
    decreases |batch|
  {
    hide Apply;
    if n < |batch| {
      assert batch[..|batch| - 1][..n] == batch[..n];
      FoldFailsEarly(pass, batch[..|batch| - 1], start, n);
    } else {
      assert batch[..n] == batch;
    }
  }

  /** One of the three loops over a batch. */
  method RunPass(pass: Pass, batch: seq<Event<Decimal>>, start: Option<Decimal>) returns (r: Result<Option<Decimal>>)
    ensures r == Fold(pass, batch, start)
  {
    hide Apply;
    var available := start;
    for i := 0 to |batch|
      invariant Fold(pass, batch[..i], start) == Ok(available)
    {
      assert batch[..i + 1][..i] == batch[..i];
      r := Apply(pass, available, batch[i]);
      if r.Err? {
        FoldFailsEarly(pass, batch, start, i + 1);
        return;
      }
      available := r.value;
    }
    assert batch[..|batch|] == batch;
    r := Ok(available);
  }

  method ProcessBatch(batch: seq<Event<Decimal>>, prior: Option<Decimal>, opening: bool, subscribedEarlier: bool,
                      redeemedBy: bool, limit: nat)
    returns (r: Result<Option<Decimal>>)
    ensures r == AfterBatch(batch, prior, opening, subscribedEarlier, redeemedBy, limit)
  {
    hide Fold;
    r := RunPass(Subscribing, batch, prior);
    if r.Err? {
      return;
    }
    if HasKind(batch, 1) && HasKind(batch, 0) {
      return Err(REFUSED);
    }
    r := RunPass(Rewarding(prior, opening, subscribedEarlier, redeemedBy), batch, r.value);
    if r.Err? {
      return;
    }
    r := RunPass(Redeeming(limit), batch, r.value);
  }

  /** The loop over the batches, and the inner one that collects a batch. */
  method SimulateProduct(facts: seq<Event<Decimal>>, opening: Option<Decimal>, approved: bool, limit: nat)
      returns (ok: bool)
    ensures ok == Simulates(facts, opening, approved, limit)
  {
    hide AfterBatch;
    hide SubscribedBefore;
    hide RedeemedBy;
    var events := SortEvents(facts);
    var available, index: nat := opening, 0;
    while index < |events|
      invariant index <= |events|
      invariant ReplayFrom(events, 0, opening, approved, limit) == ReplayFrom(events, index, available, approved, limit)
    {
      var stamp, to, batch := events[index].time, index + 1, [events[index]];
      while to < |events| && events[to].time == stamp
        invariant index < to <= |events| && batch == events[index..to]
        invariant BatchEnd(events, to, stamp) == BatchEnd(events, index + 1, stamp)
      {
        batch := batch + [events[to]];
        to := to + 1;
      }
      var r := ProcessBatch(batch, available, approved, SubscribedBefore(events, stamp), RedeemedBy(events, stamp),
        limit);
      if r.Err? {
        return false;
      }
      available, index := r.value, to;
    }
    ok := true;
  }

  // ---- The classification -------------------------------------------------------------------------

  datatype Counts = Counts(openingApproved: nat, subscriptionProven: nat, outOfScope: nat, incomplete: nat)

  /** How many rewards belong to a product of `ps`. */
  function RewardsOf<N>(rewards: seq<Fact<N>>, ps: set<Product>): nat {
    if rewards == [] then 0
    else RewardsOf(rewards[..|rewards| - 1], ps) + (if rewards[|rewards| - 1].product in ps then 1 else 0)
  }

  lemma {:induction false} RewardsOfOneMore<N>(rewards: seq<Fact<N>>, ps: set<Product>, p: Product)
    requires p !in ps
    ensures RewardsOf(rewards, ps + {p}) == RewardsOf(rewards, ps) + |EventsIn(rewards, p)|
  {
    if rewards != [] {
      RewardsOfOneMore(rewards[..|rewards| - 1], ps, p);
    }
  }

  lemma {:induction false} NoProductsNoRewards<N>(rewards: seq<Fact<N>>)
    ensures RewardsOf(rewards, {}) == 0
  {
    if rewards != [] {
      NoProductsNoRewards(rewards[..|rewards| - 1]);
    }
  }

  /** Every reward is counted once, either as of an opening product or as of another. */
  lemma {:induction false} TalliesAddUp<N>(rewards: seq<Fact<N>>, ps: set<Product>, opening: set<Product>)
    requires ProductsIn(rewards) <= ps
    ensures RewardsOf(rewards, ps * opening) + RewardsOf(rewards, ps - opening) == |rewards|
  {
    if rewards != [] {
      var n := |rewards| - 1;
      assert rewards[n] in rewards && rewards[n].product in ProductsIn(rewards);
      assert ProductsIn(rewards[..n]) <= ProductsIn(rewards);
      TalliesAddUp(rewards[..n], ps, opening);
    }
  }

  function ToSet(products: seq<Product>): set<Product> {
    set p | p in products
  }

  /**
  `_finalize_lifecycle_reward_classification`. `products` lists the products in the order in which the
  source visits them; nothing below depends on that order.
  */
  method Classify(e: Evidence<Decimal>, products: seq<Product>, limit: nat) returns (ok: bool, counts: Counts)
    requires ToSet(products) == Products(e)
    requires forall i, j :: 0 <= i < j < |products| ==> products[i] != products[j]
    ensures ok <==> Verdict(e, limit)
    ensures ok ==> counts == Counts(RewardsOf(e.rewards, e.opening), RewardsOf(e.rewards, Products(e) - e.opening), 0,
            0)
    ensures ok ==> counts.openingApproved + counts.subscriptionProven == |e.rewards|
    ensures !ok ==> counts == Counts(0, 0, 1, 0) || counts == Counts(0, 0, 0, 1)
  {
    hide Simulates;
    hide EventsIn;
    hide EventsOf;
    hide RewardsOf;
    if exists p :: p in FactProducts(e) && !Named(p) {
      return false, Counts(0, 0, 0, 1);
    }
    var proven, approved: nat := 0, 0;
    NoProductsNoRewards(e.rewards);
    assert ToSet(products[..0]) * e.opening == {} && ToSet(products[..0]) - e.opening == {};
    for i := 0 to |products|
      invariant forall k :: 0 <= k < i ==> ProductSimulates(e, products[k], limit)
      invariant approved == RewardsOf(e.rewards, ToSet(products[..i]) * e.opening)
      invariant proven == RewardsOf(e.rewards, ToSet(products[..i]) - e.opening)
    {
      var p := products[i];
      assert p in ToSet(products);
      if e.managed.Some? && p.asset !in e.managed.value {
        return false, Counts(0, 0, 1, 0);
      }
      ok := SimulateProduct(EventsOf(e, p), Opening(e, p, ZERO), p in e.opening, limit);
      if !ok {
        return false, Counts(0, 0, 0, 1);
      }
      OneMoreProduct(e, products, i);
      if p in e.opening {
        approved := approved + |EventsIn(e.rewards, p)|;
      } else {
        proven := proven + |EventsIn(e.rewards, p)|;
      }
    }
    assert products[..|products|] == products;
    assert forall p :: p in Products(e) ==> p in ToSet(products);
    TalliesAddUp(e.rewards, Products(e), e.opening);
    assert Products(e) * e.opening == e.opening;
    return true, Counts(approved, proven, 0, 0);
  }

  lemma OneMoreProduct(e: Evidence<Decimal>, products: seq<Product>, i: nat)
    requires i < |products| && forall a, b :: 0 <= a < b < |products| ==> products[a] != products[b]
    ensures var before, after, p := ToSet(products[..i]), ToSet(products[..i + 1]), products[i];
            && RewardsOf(e.rewards, after * e.opening) ==
               RewardsOf(e.rewards, before * e.opening) + (if p in e.opening then |EventsIn(e.rewards, p)| else 0)
            && RewardsOf(e.rewards, after - e.opening) ==
               RewardsOf(e.rewards, before - e.opening) + (if p in e.opening then 0 else |EventsIn(e.rewards, p)|)
  {
    var before, after, p := ToSet(products[..i]), ToSet(products[..i + 1]), products[i];
    assert after == before + {p} && p !in before;
    if p in e.opening {
      assert after * e.opening == before * e.opening + {p} && after - e.opening == before - e.opening;
      RewardsOfOneMore(e.rewards, before * e.opening, p);
    } else {
      assert after - e.opening == before - e.opening + {p} && after * e.opening == before * e.opening;
      RewardsOfOneMore(e.rewards, before - e.opening, p);
    }
  }

  // ---- Sums ---------------------------------------------------------------------------------------

  function Contribution(e: Event<int>, taken: Taken): int {
    if Takes(taken, e) then Delta(e) else 0
  }

  function Net(events: seq<Event<int>>): int {
    SumOf(events, Every)
  }

  function NetOf(events: seq<Event<int>>, rank: int): int {
    SumOf(events, OfRank(rank))
  }

  /** What subscriptions and rewards bring in altogether. */
  function Gains(events: seq<Event<int>>): int {
    NetOf(events, 0) + NetOf(events, 1)
  }

  lemma {:induction false} NetByKind(events: seq<Event<int>>)
    ensures Net(events) == NetOf(events, 0) + NetOf(events, 1) + NetOf(events, 2)
  {
    if events != [] {
      NetByKind(events[..|events| - 1]);
    }
  }

  lemma {:induction false} SumAppend(a: seq<Event<int>>, b: seq<Event<int>>, taken: Taken)
    ensures SumOf(a + b, taken) == SumOf(a, taken) + SumOf(b, taken)
    decreases |b|
  {
    if b == [] {
      assert a + b == a;
    } else {
      assert (a + b)[..|a + b| - 1] == a + b[..|b| - 1];
      SumAppend(a, b[..|b| - 1], taken);
    }
  }

  lemma {:induction false} SumWithout(events: seq<Event<int>>, k: nat, taken: Taken)
    requires k < |events|
    ensures SumOf(events, taken) == SumOf(events[..k] + events[k + 1..], taken) + Contribution(events[k], taken)
    decreases |events|
  {
    var n := |events| - 1;
    if k < n {
      SumWithout(events[..n], k, taken);
      var without := events[..k] + events[k + 1..];
      assert events[..n][..k] + events[..n][k + 1..] == without[..|without| - 1];
      assert without[|without| - 1] == events[n];
    } else {
      assert events[..k] + events[k + 1..] == events[..n];
    }
  }

  lemma {:induction false} SumIgnoresOrder(a: seq<Event<int>>, b: seq<Event<int>>, taken: Taken)
    requires multiset(a) == multiset(b)
    ensures SumOf(a, taken) == SumOf(b, taken)
    decreases |a|
  {
    SameMembers(a, b);
    if a != [] {
      var n := |a| - 1;
      assert a[n] in multiset(b);
      var k :| 0 <= k < |b| && b[k] == a[n];
      Without(a, n);
      Without(b, k);
      assert a[..n] + a[n + 1..] == a[..n];
      SumIgnoresOrder(a[..n], b[..k] + b[k + 1..], taken);
      SumWithout(b, k, taken);
      SumWithout(a, n, taken);
    }
  }

  predicate AmountsValid(events: seq<Event<int>>) {
    forall i :: 0 <= i < |events| ==> ValidAmount(events[i])
  }

  /** Subscriptions and rewards only raise the balance, redemptions only lower it. */
  lemma {:induction false} SignOfKinds(events: seq<Event<int>>, n: nat)
    requires AmountsValid(events) && n <= |events|
    ensures 0 <= NetOf(events[..n], 0) <= NetOf(events, 0)
    ensures 0 <= NetOf(events[..n], 1) <= NetOf(events, 1)
    ensures NetOf(events, 2) <= NetOf(events[..n], 2) <= 0
    decreases |events|
  {
    if n == |events| {
      assert events[..n] == events;
    }
    if events != [] {
      var m := |events| - 1;
      SignOfKinds(events[..m], if n < m then n else m);
      if n <= m {
        assert events[..m][..n] == events[..n];
      }
    }
  }

  // ---- Order of the facts -------------------------------------------------------------------------

  /** The verdict on a product ignores the order of its facts. */
  lemma HistoryIgnoresOrder(opening: Option<int>, approved: bool, a: seq<Event<int>>, b: seq<Event<int>>)
    requires multiset(a) == multiset(b)
    ensures HistoryOk(opening, approved, a) <==> HistoryOk(opening, approved, b)
  {
    if HistoryOk(opening, approved, a) {
      HistoryCarries(opening, approved, a, b);
    }
    if HistoryOk(opening, approved, b) {
      HistoryCarries(opening, approved, b, a);
    }
    hide HistoryOk;
  }

  lemma HistoryCarries(opening: Option<int>, approved: bool, a: seq<Event<int>>, b: seq<Event<int>>)
    requires multiset(a) == multiset(b) && HistoryOk(opening, approved, a)
    ensures HistoryOk(opening, approved, b)
  {
    SameMembers(a, b);
    forall k | 0 <= k < |b| ensures EventOk(opening, approved, b, b[k]) {
      assert b[k] in a;
      var i :| 0 <= i < |a| && a[i] == b[k];
      SameSubscriptions(a, b, b[k].time);
      SumIgnoresOrder(a, b, Until(b[k].time));
      SumIgnoresOrder(a, b, Until(b[k].time - 1));
      HistoryIsEvents(opening, approved, a);
      assert EventOk(opening, approved, a, a[i]);
      hide SubscribedAt;
      hide SubscribedBefore;
      hide HistoryOk;
      hide SumOf;
    }
    HistoryIsEvents(opening, approved, b);
    hide EventOk;
    hide HistoryOk;
  }

  lemma SameSubscriptions(a: seq<Event<int>>, b: seq<Event<int>>, t: int)
    requires forall x :: x in a <==> x in b
    ensures SubscribedAt(a, t) == SubscribedAt(b, t) && SubscribedBefore(a, t) == SubscribedBefore(b, t)
  {
    forall x | x in a ensures exists k :: 0 <= k < |b| && b[k] == x {
      assert x in b;
    }
    forall x | x in b ensures exists k :: 0 <= k < |a| && a[k] == x {
      assert x in a;
    }
    assert forall k :: 0 <= k < |a| ==> a[k] in a;
    assert forall k :: 0 <= k < |b| ==> b[k] in b;
  }

  // ---- Sorting ----------------------------------------------------------------------------------

  predicate InTimeOrder<N>(events: seq<Event<N>>) {
    forall i, j :: 0 <= i < j < |events| ==> events[i].time <= events[j].time
  }

  lemma {:induction false} InsertMultiset(sorted: seq<Event<int>>, e: Event<int>)
    ensures multiset(Insert(sorted, e)) == multiset(sorted) + multiset{e}
  {
    if !(sorted == [] || Before(sorted[|sorted| - 1], e)) {
      var n := |sorted| - 1;
      InsertMultiset(sorted[..n], e);
      assert sorted == sorted[..n] + [sorted[n]];
    }
  }

  lemma {:induction false} InsertOrder(sorted: seq<Event<int>>, e: Event<int>)
    requires InTimeOrder(sorted)
    ensures InTimeOrder(Insert(sorted, e))
    ensures forall x :: x in Insert(sorted, e) ==> x == e || x in sorted
  {
    if sorted == [] || Before(sorted[|sorted| - 1], e) {
      assert forall i :: 0 <= i < |sorted| ==> sorted[i].time <= e.time;
    } else {
      var n := |sorted| - 1;
      InsertOrder(sorted[..n], e);
      LastInOrder(Insert(sorted[..n], e), sorted[n]);
    }
  }

  lemma LastInOrder(events: seq<Event<int>>, last: Event<int>)
    requires InTimeOrder(events) && forall x :: x in events ==> x.time <= last.time
    ensures InTimeOrder(events + [last])
  {
  }

  lemma {:induction false} SortKeeps(events: seq<Event<int>>)
    ensures InTimeOrder(SortEvents(events)) && multiset(SortEvents(events)) == multiset(events)
  {
    hide Insert;
    if events != [] {
      var n := |events| - 1;
      SortKeeps(events[..n]);
      InsertMultiset(SortEvents(events[..n]), events[n]);
      InsertOrder(SortEvents(events[..n]), events[n]);
      assert events == events[..n] + [events[n]];
    }
  }

  // ---- Reading decimals on a grid -----------------------------------------------------------------

  /** Every quantity is a multiple of 10^grid. */
  predicate OnGrid(events: seq<Event<Decimal>>, grid: int) {
    forall k :: 0 <= k < |events| ==> grid <= events[k].amount.exp && ValidQuantity(events[k])
  }

  function ReadEvent(e: Event<Decimal>, grid: int): Event<int>
    requires grid <= e.amount.exp
  {
    Event(e.kind, e.time, Scaled(e.amount, grid))
  }

  function ReadAll(events: seq<Event<Decimal>>, grid: int): (read: seq<Event<int>>)
    requires OnGrid(events, grid)
    ensures |read| == |events| && forall k :: 0 <= k < |events| ==> read[k] == ReadEvent(events[k], grid)
  {
    seq(|events|, k requires 0 <= k < |events| => ReadEvent(events[k], grid))
  }

  lemma ReadSlice(events: seq<Event<Decimal>>, grid: int, from: nat, to: nat)
    requires OnGrid(events, grid) && from <= to <= |events|
    ensures OnGrid(events[from..to], grid) && ReadAll(events[from..to], grid) == ReadAll(events, grid)[from..to]
  {
  }

  lemma ReadIsValid(events: seq<Event<Decimal>>, grid: int)
    requires OnGrid(events, grid)
    ensures AmountsValid(ReadAll(events, grid))
  {
    forall k | 0 <= k < |events| ensures ValidAmount(ReadAll(events, grid)[k]) {
      SignAt(events[k].amount, grid);
    }
    hide Scaled;
  }

  lemma {:induction false} InsertReads(sorted: seq<Event<Decimal>>, e: Event<Decimal>, grid: int)
    requires OnGrid(sorted, grid) && grid <= e.amount.exp && ValidQuantity(e)
    ensures OnGrid(Insert(sorted, e), grid)
    ensures ReadAll(Insert(sorted, e), grid) == Insert(ReadAll(sorted, grid), ReadEvent(e, grid))
  {
    hide Scaled;
    hide ValidQuantity;
    if !(sorted == [] || Before(sorted[|sorted| - 1], e)) {
      var n := |sorted| - 1;
      ReadSlice(sorted, grid, 0, n);
      InsertReads(sorted[..n], e, grid);
    }
  }

  lemma {:induction false} SortReads(events: seq<Event<Decimal>>, grid: int)
    requires OnGrid(events, grid)
    ensures OnGrid(SortEvents(events), grid)
    ensures ReadAll(SortEvents(events), grid) == SortEvents(ReadAll(events, grid))
  {
    hide Scaled;
    hide ValidQuantity;
    hide Insert;
    if events != [] {
      var n := |events| - 1;
      ReadSlice(events, grid, 0, n);
      SortReads(events[..n], grid);
      InsertReads(SortEvents(events[..n]), events[n], grid);
    }
  }

  /** A quantity available, and what it reads. */
  predicate Reads(available: Option<Decimal>, value: Option<int>, grid: int) {
    match available
    case None => value.None?
    case Some(d) => value.Some? && grid <= d.exp && Scaled(d, grid) == value.value >= 0
  }

  /** `value` and what is added to it keep clear of every limit of the decimal helpers. */
  ghost predicate Roomy(value: int, limit: nat) {
    BelowCap(value) && (limit == 0 || value < Pow10(limit))
  }

  lemma RoomyBelow(x: int, y: int, limit: nat)
    requires x <= y && Roomy(y, limit)
    ensures Roomy(x, limit)
  {
    CapIsMonotone(x, y);
    hide BelowCap;
    hide Pow10;
  }

  lemma Adds(available: Decimal, amount: Decimal, grid: int, value: int)
    requires Reads(Some(available), Some(value), grid) && LEAST <= grid <= 0 && grid <= amount.exp && amount.coeff >= 0
    requires BelowCap(value + Scaled(amount, grid))
    ensures Added(available, amount).Ok?
            && Reads(Added(available, amount).value, Some(value + Scaled(amount, grid)), grid)
  {
    hide Scaled;
    hide AddRewardQuantity;
    hide BelowCap;
    SignAt(available, grid);
    SignAt(amount, grid);
    AddQuantity(available, amount, grid);
  }

  // ---- The passes on readings ---------------------------------------------------------------------

  lemma OneMoreSum(events: seq<Event<int>>, taken: Taken)
    requires events != []
    ensures SumOf(events, taken) == SumOf(events[..|events| - 1], taken) + Contribution(events[|events| - 1], taken)
  {
  }

  lemma {:induction false} SubscribingReads(batch: seq<Event<Decimal>>, prior: Option<Decimal>, value: Option<int>,
                                            grid: int)
    requires OnGrid(batch, grid) && Reads(prior, value, grid) && LEAST <= grid <= 0
    requires value.Some? ==> BelowCap(value.value + NetOf(ReadAll(batch, grid), 0))
    ensures Fold(Subscribing, batch, prior).Ok? <==> value.Some? || !HasKind(batch, 0)
    ensures Fold(Subscribing, batch, prior).Ok? ==>
              Reads(Fold(Subscribing, batch, prior).value,
                    if value.Some? then Some(value.value + NetOf(ReadAll(batch, grid), 0)) else None, grid)
  {
    hide BelowCap;
    hide Scaled;
    hide Added;
    if batch != [] {
      var n, read := |batch| - 1, ReadAll(batch, grid);
      ReadSlice(batch, grid, 0, n);
      ReadIsValid(batch, grid);
      SignOfKinds(read, n);
      OneMoreSum(read, OfRank(0));
      hide SumOf;
      if value.Some? {
        CapIsMonotone(value.value + NetOf(read[..n], 0), value.value + NetOf(read, 0));
      }
      SubscribingReads(batch[..n], prior, value, grid);
      HasKindOneMore(batch, 0);
      if value.Some? && batch[n].kind.Subscribe? {
        Adds(Fold(Subscribing, batch[..n], prior).value.value, batch[n].amount, grid,
          value.value + NetOf(read[..n], 0));
      }
      hide HasKind;
      hide Reads;
    }
  }

  lemma HasKindOneMore<N>(events: seq<Event<N>>, rank: int)
    requires events != []
    ensures HasKind(events, rank) <==> HasKind(events[..|events| - 1], rank) || Rank(events[|events| - 1]) == rank
  {
    var n := |events| - 1;
    assert forall i :: 0 <= i < n ==> events[..n][i] == events[i];
    if HasKind(events[..n], rank) {
      var i :| 0 <= i < n && Rank(events[..n][i]) == rank;
      assert Rank(events[i]) == rank;
    }
  }

  predicate RewardOk(e: Event<Decimal>, value: Option<int>, opening: bool, subscribedEarlier: bool, redeemedBy: bool) {
    && e.kind.Reward? && KnownCategory(e.kind.category)
    && (if value.None? then opening && !redeemedBy else value.value > 0)
    && (opening || subscribedEarlier)
  }

  predicate RewardsOk(batch: seq<Event<Decimal>>, value: Option<int>, opening: bool, subscribedEarlier: bool,
                      redeemedBy: bool) {
    forall i :: 0 <= i < |batch| && batch[i].kind.Reward? ==>
      RewardOk(batch[i], value, opening, subscribedEarlier, redeemedBy)
  }

  /** One event in the pass over the rewards. */
  lemma RewardReads(e: Event<Decimal>, pass: Pass, available: Option<Decimal>, prior: Option<int>, value: Option<int>,
                    grid: int)
    requires pass.Rewarding? && Reads(pass.prior, prior, grid) && Reads(available, value, grid)
    requires LEAST <= grid <= 0 && grid <= e.amount.exp && e.amount.coeff >= 0
    requires value.Some? ==> BelowCap(value.value
             + (if e.kind == Reward("REALTIME") then Scaled(e.amount, grid) else 0))
    ensures var r := Apply(pass, available, e);
            && (r.Ok? <==> (e.kind.Reward? ==>
              RewardOk(e, prior, pass.opening, pass.subscribedEarlier, pass.redeemedBy)))
            && (r.Ok? ==>
                  Reads(r.value, if value.Some? then
                    Some(value.value + (if e.kind == Reward("REALTIME") then Scaled(e.amount, grid) else 0)) else None,
                    grid))
  {
    hide BelowCap;
    hide Scaled;
    hide Added;
    if pass.prior.Some? {
      SignAt(pass.prior.value, grid);
    }
    if value.Some? && e.kind == Reward("REALTIME") {
      Adds(available.value, e.amount, grid, value.value);
    }
  }

  /** The readings of a batch, and of the batch without its last event. */
  lemma LastRead(batch: seq<Event<Decimal>>, grid: int)
    requires OnGrid(batch, grid) && batch != []
    ensures var n, read := |batch| - 1, ReadAll(batch, grid);
            && AmountsValid(read) && grid <= batch[n].amount.exp && batch[n].amount.coeff >= 0
            && OnGrid(batch[..n], grid) && ReadAll(batch[..n], grid) == read[..n]
              && read[n] == ReadEvent(batch[n], grid)
  {
    ReadSlice(batch, grid, 0, |batch| - 1);
    ReadIsValid(batch, grid);
    hide Scaled;
  }

  lemma LastReward(read: seq<Event<int>>)
    requires AmountsValid(read) && read != []
    ensures var n := |read| - 1;
            && NetOf(read, 1) == NetOf(read[..n], 1)
              + (if read[n].kind == Reward("REALTIME") then read[n].amount else 0)
            && 0 <= NetOf(read[..n], 1) <= NetOf(read, 1)
  {
    SignOfKinds(read, |read| - 1);
  }

  lemma NothingNet(read: seq<Event<int>>, rank: int)
    requires read == []
    ensures NetOf(read, rank) == 0
  {
  }

  lemma {:induction false} RewardingReads(batch: seq<Event<Decimal>>, pass: Pass, start: Option<Decimal>,
                                          prior: Option<int>, value: Option<int>, grid: int)
    requires OnGrid(batch, grid) && LEAST <= grid <= 0 && pass.Rewarding? && Reads(pass.prior, prior, grid)
             && Reads(start, value, grid)
    requires value.Some? ==> BelowCap(value.value + NetOf(ReadAll(batch, grid), 1))
    ensures Fold(pass, batch, start).Ok? <==>
            RewardsOk(batch, prior, pass.opening, pass.subscribedEarlier, pass.redeemedBy)
    ensures Fold(pass, batch, start).Ok? ==>
              Reads(Fold(pass, batch, start).value,
                    if value.Some? then Some(value.value + NetOf(ReadAll(batch, grid), 1)) else None, grid)
  {
    hide BelowCap;
    hide Scaled;
    hide Apply;
    hide ReadAll;
    hide OnGrid;
    hide NetOf;
    if batch == [] {
      NothingNet(ReadAll(batch, grid), 1);
    } else {
      hide Reads;
      var n, read := |batch| - 1, ReadAll(batch, grid);
      LastRead(batch, grid);
      LastReward(read);
      if value.Some? {
        CapIsMonotone(value.value + NetOf(read[..n], 1), value.value + NetOf(read, 1));
      }
      RewardingReads(batch[..n], pass, start, prior, value, grid);
      RewardsOkOneMore(batch, prior, pass.opening, pass.subscribedEarlier, pass.redeemedBy);
      hide RewardsOk;
      hide RewardOk;
      var held := if value.Some? then Some(value.value + NetOf(read[..n], 1)) else None;
      if Fold(pass, batch[..n], start).Ok? {
        RewardReads(batch[n], pass, Fold(pass, batch[..n], start).value, prior, held, grid);
      }
    }
  }

  lemma RewardsOkOneMore(batch: seq<Event<Decimal>>, value: Option<int>, opening: bool, subscribedEarlier: bool,
                         redeemedBy: bool)
    requires batch != []
    ensures RewardsOk(batch, value, opening, subscribedEarlier, redeemedBy) <==>
            && RewardsOk(batch[..|batch| - 1], value, opening, subscribedEarlier, redeemedBy)
            && (batch[|batch| - 1].kind.Reward? ==>
              RewardOk(batch[|batch| - 1], value, opening, subscribedEarlier, redeemedBy))
  {
    hide RewardOk;
    var n := |batch| - 1;
    assert forall i :: 0 <= i < n ==> batch[..n][i] == batch[i];
  }

  /** One event in the pass over the redemptions. */
  lemma RedeemReads(e: Event<Decimal>, limit: nat, available: Option<Decimal>, value: Option<int>, grid: int)
    requires Reads(available, value, grid) && grid <= 0 && grid <= e.amount.exp && e.amount.coeff >= 0
    requires value.Some? && limit > 0 ==> value.value < Pow10(limit)
    ensures var r := Apply(Redeeming(limit), available, e);
            var taken := if e.kind.Redeem? then Scaled(e.amount, grid) else 0;
            && (r.Ok? <==> (e.kind.Redeem? ==> value.Some? && value.value >= taken))
            && (r.Ok? ==> Reads(r.value, if value.Some? then Some(value.value - taken) else None, grid))
  {
    hide Scaled;
    hide Pow10;
    hide SubtractLifecycleQuantity;
    hide Less;
    if value.Some? && e.kind.Redeem? {
      CoveredReads(available.value, e.amount, grid, value.value, limit);
    }
  }

  lemma LastRedemption(read: seq<Event<int>>)
    requires AmountsValid(read) && read != []
    ensures var n := |read| - 1;
            && NetOf(read, 2) == NetOf(read[..n], 2) - (if read[n].kind.Redeem? then read[n].amount else 0)
            && NetOf(read, 2) <= NetOf(read[..n], 2) <= 0
  {
    SignOfKinds(read, |read| - 1);
  }

  lemma {:induction false} RedeemingReads(batch: seq<Event<Decimal>>, limit: nat, start: Option<Decimal>,
                                          value: Option<int>, grid: int)
    requires OnGrid(batch, grid) && Reads(start, value, grid) && grid <= 0
             && (value.Some? ==> limit == 0 || value.value < Pow10(limit))
    ensures Fold(Redeeming(limit), batch, start).Ok? <==>
            if value.Some? then value.value + NetOf(ReadAll(batch, grid), 2) >= 0 else !HasKind(batch, 2)
    ensures Fold(Redeeming(limit), batch, start).Ok? ==>
              Reads(Fold(Redeeming(limit), batch, start).value,
                    if value.Some? then Some(value.value + NetOf(ReadAll(batch, grid), 2)) else None, grid)
  {
    hide Scaled;
    hide Pow10;
    hide Apply;
    hide ReadAll;
    hide OnGrid;
    hide NetOf;
    if batch == [] {
      NothingNet(ReadAll(batch, grid), 2);
    } else {
      hide Reads;
      var n, read := |batch| - 1, ReadAll(batch, grid);
      LastRead(batch, grid);
      LastRedemption(read);
      RedeemingReads(batch[..n], limit, start, value, grid);
      HasKindOneMore(batch, 2);
      hide HasKind;
      var held := if value.Some? then Some(value.value + NetOf(read[..n], 2)) else None;
      if Fold(Redeeming(limit), batch[..n], start).Ok? {
        RedeemReads(batch[n], limit, Fold(Redeeming(limit), batch[..n], start).value, held, grid);
      }
    }
  }

  /** A redemption is covered exactly when its reading is, and then taken away exactly. */
  lemma CoveredReads(available: Decimal, amount: Decimal, grid: int, value: int, limit: nat)
    requires Reads(Some(available), Some(value), grid) && grid <= amount.exp && grid <= 0 && amount.coeff >= 0
    requires limit == 0 || value < Pow10(limit)
    ensures Less(available, amount) <==> value < Scaled(amount, grid)
    ensures !Less(available, amount) ==>
              var r := SubtractLifecycleQuantity(available, amount, limit);
              r.Ok? && r.value.coeff >= 0 && Reads(Some(r.value), Some(value - Scaled(amount, grid)), grid)
  {
    hide Pow10;
    LessAt(available, amount, grid);
    SignAt(amount, grid);
    hide Scaled;
    hide Less;
    hide SubtractLifecycleQuantity;
    if !Less(available, amount) {
      SubtractQuantity(available, amount, grid, limit);
      SignAt(SubtractLifecycleQuantity(available, amount, limit).value, grid);
    }
  }

  // ---- One millisecond ----------------------------------------------------------------------------

  /** What a batch of one millisecond must satisfy on the balance before it. */
  predicate BatchOk(batch: seq<Event<int>>, prior: Option<int>, opening: bool, subscribedEarlier: bool,
                    redeemedBy: bool) {
    match prior
    case None => OnlyRewards(batch) && (HasKind(batch, 1) ==> opening && !redeemedBy)
    case Some(balance) =>
      && (HasKind(batch, 1) ==> !HasKind(batch, 0) && balance > 0 && (opening || subscribedEarlier))
      && (forall i :: 0 <= i < |batch| && batch[i].kind.Reward? ==> KnownCategory(batch[i].kind.category))
      && balance + Net(batch) >= 0
  }

  /** The batch condition, pass by pass. */
  lemma PassesOfBatch(batch: seq<Event<Decimal>>, grid: int, prior: Option<int>, opening: bool, subscribedEarlier: bool,
                      redeemedBy: bool)
    requires OnGrid(batch, grid) && (prior.None? ==> opening)
    ensures BatchOk(ReadAll(batch, grid), prior, opening, subscribedEarlier, redeemedBy) <==>
            && (prior.Some? || !HasKind(batch, 0))
            && !(HasKind(batch, 1) && HasKind(batch, 0))
            && RewardsOk(batch, prior, opening, subscribedEarlier, redeemedBy)
            && (if prior.Some? then prior.value + Net(ReadAll(batch, grid)) >= 0 else !HasKind(batch, 2))
  {
    hide SumOf;
    hide Scaled;
    var read := ReadAll(batch, grid);
    SameKinds(batch, grid, 0);
    SameKinds(batch, grid, 1);
    SameKinds(batch, grid, 2);
    assert forall i :: 0 <= i < |batch| ==> read[i].kind == batch[i].kind;
    assert forall i :: 0 <= i < |batch| ==> (Rank(batch[i]) == 1 <==> batch[i].kind.Reward?);
    if prior.None? && !HasKind(batch, 0) && !HasKind(batch, 2) {
      forall i | 0 <= i < |batch| ensures read[i].kind.Reward? {
        assert Rank(batch[i]) != 0 && Rank(batch[i]) != 2;
      }
    }
  }

  lemma SameKinds(batch: seq<Event<Decimal>>, grid: int, rank: int)
    requires OnGrid(batch, grid)
    ensures HasKind(ReadAll(batch, grid), rank) <==> HasKind(batch, rank)
  {
    var read := ReadAll(batch, grid);
    assert forall i :: 0 <= i < |batch| ==> Rank(read[i]) == Rank(batch[i]);
  }

  /**
  With room for all that comes in, the decimal passes accept a batch exactly when its readings satisfy the
  batch condition, and leave a quantity that reads as the exact balance.
  */
  lemma BatchReads(batch: seq<Event<Decimal>>, prior: Option<Decimal>, value: Option<int>, opening: bool,
                   subscribedEarlier: bool, redeemedBy: bool, limit: nat, grid: int)
    requires OnGrid(batch, grid) && Reads(prior, value, grid) && LEAST <= grid <= 0 && (prior.None? ==> opening)
    requires value.Some? ==> Roomy(value.value + Gains(ReadAll(batch, grid)), limit)
    ensures var r := AfterBatch(batch, prior, opening, subscribedEarlier, redeemedBy, limit);
            && (r.Ok? <==> BatchOk(ReadAll(batch, grid), value, opening, subscribedEarlier, redeemedBy))
            && (r.Ok? ==> Reads(r.value, if value.Some? then Some(value.value + Net(ReadAll(batch, grid))) else None,
              grid))
  {
    hide SumOf;
    hide BatchOk;
    hide Fold;
    hide HasKind;
    hide RewardsOk;
    hide Scaled;
    hide OnGrid;
    hide ReadAll;
    hide BelowCap;
    hide Pow10;
    var read := ReadAll(batch, grid);
    ReadIsValid(batch, grid);
    SignOfKinds(read, |read|);
    NetByKind(read);
    assert read[..|read|] == read;
    PassesOfBatch(batch, grid, value, opening, subscribedEarlier, redeemedBy);
    if value.Some? {
      RoomyBelow(value.value + NetOf(read, 0), value.value + Gains(read), limit);
    }
    SubscribingReads(batch, prior, value, grid);
    var subscribed := Fold(Subscribing, batch, prior);
    if subscribed.Ok? && !(HasKind(batch, 1) && HasKind(batch, 0)) {
      var held := if value.Some? then Some(value.value + NetOf(read, 0)) else None;
      var pass := Rewarding(prior, opening, subscribedEarlier, redeemedBy);
      RewardingReads(batch, pass, subscribed.value, value, held, grid);
      var rewarded := Fold(pass, batch, subscribed.value);
      if rewarded.Ok? {
        var held := if value.Some? then Some(value.value + Gains(read)) else None;
        RedeemingReads(batch, limit, rewarded.value, held, grid);
      }
    }
  }

  // ---- One product --------------------------------------------------------------------------------

  /** In time order, the change by a moment is the net of the events up to it. */
  lemma {:induction false} ChangeIsPrefixNet(events: seq<Event<int>>, n: nat, t: int)
    requires n <= |events|
    requires forall k :: 0 <= k < n ==> events[k].time <= t
    requires forall k :: n <= k < |events| ==> events[k].time > t
    ensures ChangeBy(events, t) == Net(events[..n])
    decreases |events|
  {
    if events != [] {
      var m := |events| - 1;
      if n <= m {
        ChangeIsPrefixNet(events[..m], n, t);
        assert events[..m][..n] == events[..n];
      } else {
        ChangeIsPrefixNet(events[..m], m, t);
        assert events[..n] == events && events[..m][..m] == events[..m];
      }
    }
  }

  /** The conditions one event contributes to its product's verdict. */
  predicate EventOk(opening: Option<int>, approved: bool, events: seq<Event<int>>, e: Event<int>) {
    match opening
    case Some(balance) =>
      balance + ChangeBy(events, e.time) >= 0 && (e.kind.Reward? ==> Earned(balance, approved, events, e))
    case None => e.kind.Reward? && KnownCategory(e.kind.category)
  }

  lemma HistoryIsEvents(opening: Option<int>, approved: bool, events: seq<Event<int>>)
    ensures HistoryOk(opening, approved, events) <==> forall k :: 0 <= k < |events| ==>
            EventOk(opening, approved, events, events[k])
  {
    hide ChangeBy;
    hide Earned;
    if opening.Some? {
      forall k | 0 <= k < |events| && Explained(opening.value, approved, events)
        ensures EventOk(opening, approved, events, events[k]) {
      }
      if forall k :: 0 <= k < |events| ==> EventOk(opening, approved, events, events[k]) {
        forall k | 0 <= k < |events|
          ensures opening.value + ChangeBy(events, events[k].time) >= 0
          ensures events[k].kind.Reward? ==> Earned(opening.value, approved, events, events[k])
        {
          assert EventOk(opening, approved, events, events[k]);
        }
      }
    }
  }

  /** events[from..to] are exactly the events at `stamp`. */
  predicate IsBatch<N>(events: seq<Event<N>>, from: nat, to: nat, stamp: int) {
    && from < to <= |events|
    && (forall k :: 0 <= k < from ==> events[k].time < stamp)
    && (forall k :: from <= k < to ==> events[k].time == stamp)
    && (forall k :: to <= k < |events| ==> events[k].time > stamp)
  }

  lemma BatchBalances(events: seq<Event<int>>, from: nat, to: nat, stamp: int)
    requires IsBatch(events, from, to, stamp)
    ensures ChangeBy(events, stamp) == Net(events[..to]) == Net(events[..from]) + Net(events[from..to])
    ensures ChangeBy(events, stamp - 1) == Net(events[..from])
  {
    ChangeIsPrefixNet(events, to, stamp);
    ChangeIsPrefixNet(events, from, stamp - 1);
    SumAppend(events[..from], events[from..to], Every);
    assert events[..from] + events[from..to] == events[..to];
  }

  lemma BatchKinds(events: seq<Event<int>>, from: nat, to: nat, stamp: int)
    requires IsBatch(events, from, to, stamp)
    ensures HasKind(events[from..to], 0) <==> SubscribedAt(events, stamp)
  {
    var batch := events[from..to];
    if HasKind(batch, 0) {
      var i :| 0 <= i < |batch| && Rank(batch[i]) == 0;
      assert events[from + i] == batch[i];
    }
    if SubscribedAt(events, stamp) {
      var k :| 0 <= k < |events| && events[k].kind.Subscribe? && events[k].time == stamp;
      assert Rank(batch[k - from]) == 0;
    }
  }

  /** With a known opening: a batch passes exactly when all its events satisfy their conditions. */
  lemma BatchIsEvents(events: seq<Event<int>>, from: nat, to: nat, stamp: int, balance: int, approved: bool,
                      redeemedBy: bool)
    requires IsBatch(events, from, to, stamp)
    ensures BatchOk(events[from..to], Some(balance + Net(events[..from])), approved, SubscribedBefore(events, stamp),
            redeemedBy)
            <==> forall k :: from <= k < to ==> EventOk(Some(balance), approved, events, events[k])
  {
    BatchBalances(events, from, to, stamp);
    BatchKinds(events, from, to, stamp);
    var batch := events[from..to];
    assert forall k :: from <= k < to ==> events[k] == batch[k - from];
    assert forall i :: 0 <= i < |batch| ==> batch[i] == events[from + i];
    assert EventOk(Some(balance), approved, events, events[from]) ==> balance + ChangeBy(events, stamp) >= 0;
    assert forall i :: 0 <= i < |batch| ==> (Rank(batch[i]) == 1 <==> batch[i].kind.Reward?);
    hide Net;
    hide ChangeBy;
    hide SubscribedAt;
    hide SubscribedBefore;
  }

  /** With an unknown opening: the same, once nothing but rewards came before. */
  lemma BatchIsRewards(events: seq<Event<int>>, from: nat, to: nat, stamp: int, subscribedEarlier: bool)
    requires IsBatch(events, from, to, stamp)
    requires forall k :: 0 <= k < from ==> events[k].kind.Reward?
    ensures BatchOk(events[from..to], None, true, subscribedEarlier, RedeemedBy(events, stamp))
            <==> forall k :: from <= k < to ==> EventOk(None, true, events, events[k])
  {
    var batch := events[from..to];
    assert forall k :: from <= k < to ==> events[k] == batch[k - from];
    assert forall i :: 0 <= i < |batch| ==> batch[i] == events[from + i];
    if forall k :: from <= k < to ==> EventOk(None, true, events, events[k]) {
      forall i | 0 <= i < |batch| ensures batch[i].kind.Reward? && KnownCategory(batch[i].kind.category) {
        assert EventOk(None, true, events, events[from + i]);
      }
    }
    if OnlyRewards(batch) {
      forall k | from <= k < to ensures EventOk(None, true, events, events[k]) {
        assert batch[k - from].kind.Reward?;
      }
    }
  }

  predicate UpTo(opening: Option<int>, approved: bool, events: seq<Event<int>>, n: nat)
    requires n <= |events|
  {
    forall k :: 0 <= k < n ==> EventOk(opening, approved, events, events[k])
  }

  lemma BatchDecides(events: seq<Event<int>>, from: nat, to: nat, stamp: int, opening: Option<int>, approved: bool)
    requires IsBatch(events, from, to, stamp) && UpTo(opening, approved, events, from) && (opening.None? ==> approved)
    ensures BatchOk(events[from..to], Held(opening, events, from), approved, SubscribedBefore(events, stamp),
            RedeemedBy(events, stamp))
            <==> UpTo(opening, approved, events, to)
  {
    hide BatchOk;
    match opening
    case Some(balance) =>
      hide EventOk;
      BatchIsEvents(events, from, to, stamp, balance, approved, RedeemedBy(events, stamp));
    case None =>
      assert forall k :: 0 <= k < from ==> EventOk(None, approved, events, events[k]);
      BatchIsRewards(events, from, to, stamp, SubscribedBefore(events, stamp));
  }

  /** The exact balance after the first `n` events. */
  function Held(opening: Option<int>, events: seq<Event<int>>, n: nat): Option<int>
    requires n <= |events|
  {
    if opening.Some? then Some(opening.value + Net(events[..n])) else None
  }

  /** Whatever comes in during a batch, the balance stays within the opening and all gains. */
  lemma RoomInBatch(events: seq<Event<int>>, from: nat, to: nat, opening: int, limit: nat)
    requires AmountsValid(events) && from <= to <= |events| && Roomy(opening + Gains(events), limit)
    ensures Roomy(opening + Net(events[..from]) + Gains(events[from..to]), limit)
  {
    SignOfKinds(events[..from], from);
    assert events[..from][..from] == events[..from];
    SignOfKinds(events, to);
    NetByKind(events[..from]);
    assert events[..from] + events[from..to] == events[..to];
    SumAppend(events[..from], events[from..to], OfRank(0));
    SumAppend(events[..from], events[from..to], OfRank(1));
    hide SumOf;
    RoomyBelow(opening + Net(events[..from]) + Gains(events[from..to]), opening + Gains(events), limit);
    hide Roomy;
  }

  lemma SameMoments(events: seq<Event<Decimal>>, grid: int, t: int)
    requires OnGrid(events, grid)
    ensures SubscribedBefore(ReadAll(events, grid), t) == SubscribedBefore(events, t)
    ensures RedeemedBy(ReadAll(events, grid), t) == RedeemedBy(events, t)
  {
    hide Scaled;
    var read := ReadAll(events, grid);
    assert forall k :: 0 <= k < |events| ==> read[k].kind == events[k].kind && read[k].time == events[k].time;
  }

  lemma NextIsBatch(events: seq<Event<Decimal>>, from: nat)
    requires from < |events| && InTimeOrder(events)
    requires forall k :: 0 <= k < from ==> events[k].time < events[from].time
    ensures IsBatch(events, from, BatchEnd(events, from + 1, events[from].time), events[from].time)
  {
    var to, stamp := BatchEnd(events, from + 1, events[from].time), events[from].time;
    forall k | to <= k < |events| ensures events[k].time > stamp {
      assert events[to].time != stamp && events[from].time <= events[to].time <= events[k].time;
    }
  }

  /** From any batch on, the replay accepts exactly when all events satisfy their conditions. */
  lemma {:induction false} ReplayDecides(events: seq<Event<Decimal>>, from: nat, available: Option<Decimal>,
                                         opening: Option<int>, approved: bool, limit: nat, grid: int)
    requires OnGrid(events, grid) && LEAST <= grid <= 0 && from <= |events| && InTimeOrder(events)
    requires from < |events| ==> forall k :: 0 <= k < from ==> events[k].time < events[from].time
    requires opening.None? ==> approved
    requires opening.Some? ==> Roomy(opening.value + Gains(ReadAll(events, grid)), limit)
    requires Reads(available, Held(opening, ReadAll(events, grid), from), grid)
    requires UpTo(opening, approved, ReadAll(events, grid), from)
    ensures ReplayFrom(events, from, available, approved, limit) <==>
            UpTo(opening, approved, ReadAll(events, grid), |events|)
    decreases |events| - from
  {
    hide AfterBatch;
    hide EventOk;
    hide Scaled;
    hide Roomy;
    hide Net;
    hide Gains;
    hide SubscribedBefore;
    hide RedeemedBy;
    hide OnGrid;
    hide BatchOk;
    if from < |events| {
      var stamp, to, read := events[from].time, BatchEnd(events, from + 1, events[from].time), ReadAll(events, grid);
      NextIsBatch(events, from);
      ReadBatch(events, grid, from, to, stamp);
      SameMoments(events, grid, stamp);
      ReadSlice(events, grid, from, to);
      BatchDecides(read, from, to, stamp, opening, approved);
      ReadIsValid(events, grid);
      if opening.Some? {
        RoomInBatch(read, from, to, opening.value, limit);
      }
      var r := AfterBatch(events[from..to], available, approved, SubscribedBefore(events, stamp),
        RedeemedBy(events, stamp), limit);
      BatchReads(events[from..to], available, Held(opening, read, from), approved, SubscribedBefore(events, stamp),
        RedeemedBy(events, stamp), limit, grid);
      if r.Ok? {
        HeldAfter(opening, read, from, to);
        ReplayDecides(events, to, r.value, opening, approved, limit, grid);
      }
    }
  }

  lemma HeldAfter(opening: Option<int>, events: seq<Event<int>>, from: nat, to: nat)
    requires from <= to <= |events|
    ensures Held(opening, events, to)
            == if opening.Some? then Some(Held(opening, events, from).value + Net(events[from..to])) else None
  {
    SumAppend(events[..from], events[from..to], Every);
    assert events[..from] + events[from..to] == events[..to];
  }

  lemma ReadBatch(events: seq<Event<Decimal>>, grid: int, from: nat, to: nat, stamp: int)
    requires OnGrid(events, grid) && IsBatch(events, from, to, stamp)
    ensures IsBatch(ReadAll(events, grid), from, to, stamp)
  {
    hide Scaled;
  }

  /**
  What a caller can check: all quantities lie on a grid that every context keeps, and opening and gains keep
  clear of the other limits.
  */
  ghost predicate Measured(facts: seq<Event<Decimal>>, opening: Option<Decimal>, limit: nat, grid: int) {
    && LEAST <= grid <= 0 && OnGrid(facts, grid)
    && (opening.Some? ==>
          && grid <= opening.value.exp && opening.value.coeff >= 0
          && Roomy(Scaled(opening.value, grid) + Gains(ReadAll(facts, grid)), limit))
  }

  function ReadOpening(opening: Option<Decimal>, grid: int): Option<int>
    requires opening.Some? ==> grid <= opening.value.exp
  {
    if opening.Some? then Some(Scaled(opening.value, grid)) else None
  }

  /** On such facts the decimal replay accepts exactly the explained histories. */
  lemma SimulationIsExact(facts: seq<Event<Decimal>>, opening: Option<Decimal>, approved: bool, limit: nat, grid: int)
    requires Measured(facts, opening, limit, grid) && (opening.None? ==> approved)
    ensures Simulates(facts, opening, approved, limit) <==>
            HistoryOk(ReadOpening(opening, grid), approved, ReadAll(facts, grid))
  {
    var events, read, balance := SortEvents(facts), ReadAll(facts, grid), ReadOpening(opening, grid);
    SortedFacts(facts, grid);
    if opening.Some? {
      SignAt(opening.value, grid);
    }
    hide Scaled;
    hide SortEvents;
    hide OnGrid;
    hide Gains;
    hide EventOk;
    hide HistoryOk;
    hide ReplayFrom;
    NothingHeld(balance, ReadAll(events, grid));
    ReplayDecides(events, 0, opening, balance, approved, limit, grid);
    HistoryIsEvents(balance, approved, ReadAll(events, grid));
    HistoryIgnoresOrder(balance, approved, read, ReadAll(events, grid));
  }

  lemma NothingHeld(balance: Option<int>, events: seq<Event<int>>)
    ensures Held(balance, events, 0) == balance
  {
    assert events[..0] == [];
  }

  /** Sorting the collected facts sorts their readings. */
  lemma SortedFacts(facts: seq<Event<Decimal>>, grid: int)
    requires OnGrid(facts, grid)
    ensures OnGrid(SortEvents(facts), grid) && InTimeOrder(SortEvents(facts))
    ensures multiset(ReadAll(SortEvents(facts), grid)) == multiset(ReadAll(facts, grid))
    ensures Gains(ReadAll(SortEvents(facts), grid)) == Gains(ReadAll(facts, grid))
  {
    SortReads(facts, grid);
    var read, sorted := ReadAll(facts, grid), ReadAll(SortEvents(facts), grid);
    SortKeeps(read);
    hide OnGrid;
    hide SortEvents;
    SumIgnoresOrder(sorted, read, OfRank(0));
    SumIgnoresOrder(sorted, read, OfRank(1));
    TimesRead(SortEvents(facts), grid);
    hide SumOf;
  }

  lemma TimesRead(events: seq<Event<Decimal>>, grid: int)
    requires OnGrid(events, grid) && InTimeOrder(ReadAll(events, grid))
    ensures InTimeOrder(events)
  {
    hide Scaled;
    var read := ReadAll(events, grid);
    forall i, j | 0 <= i < j < |events| ensures events[i].time <= events[j].time {
      assert read[i].time <= read[j].time;
    }
  }

  // ---- All products -------------------------------------------------------------------------------

  predicate FactsOnGrid(facts: seq<Fact<Decimal>>, grid: int) {
    forall k :: 0 <= k < |facts| ==> grid <= facts[k].event.amount.exp && ValidQuantity(facts[k].event)
  }

  function ReadFacts(facts: seq<Fact<Decimal>>, grid: int): (read: seq<Fact<int>>)
    requires FactsOnGrid(facts, grid)
    ensures |read| == |facts| && forall k :: 0 <= k < |facts| ==>
            read[k] == Fact(facts[k].product, ReadEvent(facts[k].event, grid))
  {
    seq(|facts|, k requires 0 <= k < |facts| => Fact(facts[k].product, ReadEvent(facts[k].event, grid)))
  }

  lemma {:induction false} EventsRead(facts: seq<Fact<Decimal>>, p: Product, grid: int)
    requires FactsOnGrid(facts, grid)
    ensures OnGrid(EventsIn(facts, p), grid)
    ensures ReadAll(EventsIn(facts, p), grid) == EventsIn(ReadFacts(facts, grid), p)
  {
    hide Scaled;
    hide ValidQuantity;
    if facts != [] {
      var n := |facts| - 1;
      EventsRead(facts[..n], p, grid);
      assert ReadFacts(facts, grid)[..n] == ReadFacts(facts[..n], grid);
    }
  }

  predicate EvidenceOnGrid(e: Evidence<Decimal>, grid: int) {
    && FactsOnGrid(e.subscriptions, grid) && FactsOnGrid(e.redemptions, grid) && FactsOnGrid(e.rewards, grid)
    && forall p :: p in e.totals ==> grid <= e.totals[p].exp
  }

  /** The facts, opening quantities and readings of one account on one grid, with room for every product. */
  ghost predicate AllMeasured(e: Evidence<Decimal>, limit: nat, grid: int) {
    && EvidenceOnGrid(e, grid)
    && forall p :: p in Products(e) ==> Measured(EventsOf(e, p), Opening(e, p, ZERO), limit, grid)
  }

  function ReadEvidence(e: Evidence<Decimal>, grid: int): Evidence<int>
    requires EvidenceOnGrid(e, grid)
  {
    Evidence(ReadFacts(e.subscriptions, grid), ReadFacts(e.redemptions, grid), ReadFacts(e.rewards, grid), e.opening,
             map p | p in e.totals :: Scaled(e.totals[p], grid), e.managed)
  }

  lemma ReadConcat(a: seq<Event<Decimal>>, b: seq<Event<Decimal>>, grid: int)
    requires OnGrid(a, grid) && OnGrid(b, grid)
    ensures OnGrid(a + b, grid) && ReadAll(a + b, grid) == ReadAll(a, grid) + ReadAll(b, grid)
  {
    hide Scaled;
    hide ValidQuantity;
  }

  /** The events of a product, read fact by fact or all together. */
  lemma EventsOfRead(e: Evidence<Decimal>, p: Product, grid: int)
    requires FactsOnGrid(e.subscriptions, grid) && FactsOnGrid(e.redemptions, grid) && FactsOnGrid(e.rewards, grid)
    ensures OnGrid(EventsOf(e, p), grid)
    ensures ReadAll(EventsOf(e, p), grid)
            == EventsIn(ReadFacts(e.subscriptions, grid), p) + EventsIn(ReadFacts(e.redemptions, grid), p)
              + EventsIn(ReadFacts(e.rewards, grid), p)
  {
    EventsRead(e.subscriptions, p, grid);
    EventsRead(e.redemptions, p, grid);
    EventsRead(e.rewards, p, grid);
    var s, d, r := EventsIn(e.subscriptions, p), EventsIn(e.redemptions, p), EventsIn(e.rewards, p);
    hide EventsIn;
    hide OnGrid;
    hide FactsOnGrid;
    ReadConcat(s, d, grid);
    ReadConcat(s + d, r, grid);
  }

  lemma ProductRead(e: Evidence<Decimal>, p: Product, limit: nat, grid: int)
    requires AllMeasured(e, limit, grid) && p in Products(e)
    ensures ReadAll(EventsOf(e, p), grid) == EventsOf(ReadEvidence(e, grid), p)
    ensures ReadOpening(Opening(e, p, ZERO), grid) == Opening(ReadEvidence(e, grid), p, 0)
  {
    EventsOfRead(e, p, grid);
    hide EventsIn;
    hide OnGrid;
    hide FactsOnGrid;
    hide Roomy;
    hide ReadAll;
  }

  lemma SameProductsRead(e: Evidence<Decimal>, limit: nat, grid: int)
    requires AllMeasured(e, limit, grid)
    ensures FactProducts(ReadEvidence(e, grid)) == FactProducts(e)
  {
    hide Measured;
    ProductsRead(e.subscriptions, grid);
    ProductsRead(e.redemptions, grid);
    ProductsRead(e.rewards, grid);
  }

  lemma ProductsRead(facts: seq<Fact<Decimal>>, grid: int)
    requires FactsOnGrid(facts, grid)
    ensures ProductsIn(ReadFacts(facts, grid)) == ProductsIn(facts)
  {
    var read := ReadFacts(facts, grid);
    assert forall k :: 0 <= k < |facts| ==> read[k].product == facts[k].product;
    forall p | p in ProductsIn(facts) ensures p in ProductsIn(read) {
      var k :| 0 <= k < |facts| && facts[k].product == p;
      assert read[k].product == p;
    }
  }

  /** On measured evidence the verdict is exactly that of the balance histories. */
  lemma VerdictIsAccepted(e: Evidence<Decimal>, limit: nat, grid: int)
    requires AllMeasured(e, limit, grid)
    ensures Verdict(e, limit) <==> Accepted(ReadEvidence(e, grid))
  {
    SameProductsRead(e, limit, grid);
    var read := ReadEvidence(e, grid);
    forall p | p in Products(e) ensures ProductSimulates(e, p, limit) <==> ProductExplained(read, p) {
      ProductRead(e, p, limit, grid);
      SimulationIsExact(EventsOf(e, p), Opening(e, p, ZERO), p in e.opening, limit, grid);
      hide Measured;
      hide Simulates;
      hide HistoryOk;
    }
    hide ProductSimulates;
    hide ProductExplained;
    hide AllMeasured;
  }

  // ---- The order of all facts ---------------------------------------------------------------------

  /** The event of a fact that belongs to product `p`, if it does. */
  function EventFor(f: Fact<int>, p: Product): multiset<Event<int>> {
    if f.product == p then multiset{f.event} else multiset{}
  }

  lemma LastFact(facts: seq<Fact<int>>, p: Product)
    requires facts != []
    ensures multiset(EventsIn(facts, p))
            == multiset(EventsIn(facts[..|facts| - 1], p)) + EventFor(facts[|facts| - 1], p)
  {
  }

  lemma Exchange(w: multiset<Event<int>>, x: multiset<Event<int>>, y: multiset<Event<int>>)
    ensures (w + x) + y == (w + y) + x
  {
  }

  lemma {:induction false} EventsWithout(facts: seq<Fact<int>>, k: nat, p: Product)
    requires k < |facts|
    ensures multiset(EventsIn(facts, p)) == multiset(EventsIn(facts[..k] + facts[k + 1..], p)) + EventFor(facts[k], p)
    decreases |facts|
  {
    hide EventFor;
    hide EventsIn;
    var n := |facts| - 1;
    LastFact(facts, p);
    if k < n {
      EventsWithout(facts[..n], k, p);
      var without := facts[..k] + facts[k + 1..];
      assert facts[..n][..k] + facts[..n][k + 1..] == without[..|without| - 1];
      assert without[|without| - 1] == facts[n];
      LastFact(without, p);
      Exchange(multiset(EventsIn(without[..|without| - 1], p)), EventFor(facts[k], p), EventFor(facts[n], p));
    } else {
      assert facts[..k] + facts[k + 1..] == facts[..n];
    }
  }

  lemma {:induction false} EventsIgnoreOrder(a: seq<Fact<int>>, b: seq<Fact<int>>, p: Product)
    requires multiset(a) == multiset(b)
    ensures multiset(EventsIn(a, p)) == multiset(EventsIn(b, p))
    decreases |a|
  {
    hide EventFor;
    hide EventsIn;
    assert |multiset(a)| == |a| && |multiset(b)| == |b|;
    if a == [] {
      assert a == b;
    } else {
      var n := |a| - 1;
      assert a[n] in multiset(b);
      var k :| 0 <= k < |b| && b[k] == a[n];
      Without(a, n);
      Without(b, k);
      assert a[..n] + a[n + 1..] == a[..n];
      EventsIgnoreOrder(a[..n], b[..k] + b[k + 1..], p);
      EventsWithout(b, k, p);
      LastFact(a, p);
    }
  }

  lemma SameProducts<N>(a: seq<Fact<N>>, b: seq<Fact<N>>)
    requires multiset(a) == multiset(b)
    ensures ProductsIn(a) <= ProductsIn(b)
  {
    SameMembers(a, b);
    forall p | p in ProductsIn(a) ensures p in ProductsIn(b) {
      var k :| 0 <= k < |a| && a[k].product == p;
      assert a[k] in b;
      var i :| 0 <= i < |b| && b[i] == a[k];
    }
  }

  /** The same facts in any other order. */
  predicate Reordered<N(==)>(a: Evidence<N>, b: Evidence<N>) {
    && multiset(a.subscriptions) == multiset(b.subscriptions)
    && multiset(a.redemptions) == multiset(b.redemptions)
    && multiset(a.rewards) == multiset(b.rewards)
    && a.opening == b.opening && a.totals == b.totals && a.managed == b.managed
  }

  /** The reference verdict depends on the facts, not on the order in which they were collected. */
  lemma AcceptanceIgnoresOrder(a: Evidence<int>, b: Evidence<int>)
    requires Reordered(a, b)
    ensures Accepted(a) <==> Accepted(b)
  {
    SameProducts(a.subscriptions, b.subscriptions);
    SameProducts(a.redemptions, b.redemptions);
    SameProducts(a.rewards, b.rewards);
    SameProducts(b.subscriptions, a.subscriptions);
    SameProducts(b.redemptions, a.redemptions);
    SameProducts(b.rewards, a.rewards);
    forall p ensures ProductExplained(a, p) == ProductExplained(b, p) {
      EventsIgnoreOrder(a.subscriptions, b.subscriptions, p);
      EventsIgnoreOrder(a.redemptions, b.redemptions, p);
      EventsIgnoreOrder(a.rewards, b.rewards, p);
      assert multiset(EventsOf(a, p)) == multiset(EventsOf(b, p));
      HistoryIgnoresOrder(Opening(a, p, 0), p in a.opening, EventsOf(a, p), EventsOf(b, p));
      hide HistoryOk;
      hide EventsOf;
    }
    hide ProductExplained;
    hide ProductsIn;
  }

  lemma {:induction false} SameReadings(a: seq<Fact<Decimal>>, b: seq<Fact<Decimal>>, grid: int)
    requires multiset(a) == multiset(b) && FactsOnGrid(a, grid)
    ensures FactsOnGrid(b, grid) && multiset(ReadFacts(a, grid)) == multiset(ReadFacts(b, grid))
    decreases |a|
  {
    hide *;
    SameMembers(a, b);
    if a == [] {
      assert b == a;
    } else {
      var n := |a| - 1;
      assert a[n] in b;
      var k :| 0 <= k < |b| && b[k] == a[n];
      Without(a, n);
      Without(b, k);
      assert a[..n] + a[n + 1..] == a[..n];
      PartOnGrid(a, n, grid);
      SameReadings(a[..n], b[..k] + b[k + 1..], grid);
      BackOnGrid(b, k, grid);
      ReadWithout(a, n, grid);
      ReadWithout(b, k, grid);
      OneBack(multiset(ReadFacts(a, grid)), multiset(ReadFacts(b, grid)), ReadFacts(a, grid)[n]);
    }
  }

  lemma PartOnGrid(a: seq<Fact<Decimal>>, n: nat, grid: int)
    requires FactsOnGrid(a, grid) && n == |a| - 1
    ensures FactsOnGrid(a[..n], grid) && FactsOnGrid([a[n]], grid)
  {
    hide ValidQuantity;
  }

  lemma ReadWithout(b: seq<Fact<Decimal>>, k: nat, grid: int)
    requires k < |b| && FactsOnGrid(b, grid)
    ensures FactsOnGrid(b[..k] + b[k + 1..], grid)
    ensures multiset(ReadFacts(b[..k] + b[k + 1..], grid))
            == multiset(ReadFacts(b, grid)) - multiset{ReadFacts(b, grid)[k]}
    ensures ReadFacts(b, grid)[k] in multiset(ReadFacts(b, grid))
  {
    hide Scaled;
    hide ValidQuantity;
    var y := ReadFacts(b, grid);
    Without(y, k);
    assert ReadFacts(b[..k] + b[k + 1..], grid) == y[..k] + y[k + 1..];
  }

  lemma OneBack(x: multiset<Fact<int>>, y: multiset<Fact<int>>, f: Fact<int>)
    requires f in x && f in y && x - multiset{f} == y - multiset{f}
    ensures x == y
  {
    assert x == (x - multiset{f}) + multiset{f};
    assert y == (y - multiset{f}) + multiset{f};
  }

  lemma BackOnGrid(b: seq<Fact<Decimal>>, k: nat, grid: int)
    requires k < |b| && FactsOnGrid(b[..k] + b[k + 1..], grid) && FactsOnGrid([b[k]], grid)
    ensures FactsOnGrid(b, grid)
  {
    hide ValidQuantity;
    var rest := b[..k] + b[k + 1..];
    forall i | 0 <= i < |b| ensures grid <= b[i].event.amount.exp && ValidQuantity(b[i].event) {
      if i < k {
        assert rest[i] == b[i];
      } else if i > k {
        assert rest[i - 1] == b[i];
      } else {
        assert [b[k]][0] == b[k];
      }
    }
  }

  /** Whether evidence is measured does not depend on its order. */
  lemma MeasureIgnoresOrder(a: Evidence<Decimal>, b: Evidence<Decimal>, limit: nat, grid: int)
    requires AllMeasured(a, limit, grid) && Reordered(a, b)
    ensures AllMeasured(b, limit, grid) && Reordered(ReadEvidence(a, grid), ReadEvidence(b, grid))
  {
    SameReadings(a.subscriptions, b.subscriptions, grid);
    SameReadings(a.redemptions, b.redemptions, grid);
    SameReadings(a.rewards, b.rewards, grid);
    SameFactProducts(a, b);
    forall p | p in Products(b) ensures Measured(EventsOf(b, p), Opening(b, p, ZERO), limit, grid) {
      assert p in Products(a);
      SameEvents(a, b, p, grid);
      MeasuredAlike(EventsOf(a, p), EventsOf(b, p), Opening(a, p, ZERO), limit, grid);
      hide EventsOf;
    }
    hide Measured;
    hide FactsOnGrid;
  }

  lemma MeasuredAlike(a: seq<Event<Decimal>>, b: seq<Event<Decimal>>, opening: Option<Decimal>, limit: nat, grid: int)
    requires Measured(a, opening, limit, grid) && OnGrid(b, grid)
    requires multiset(ReadAll(a, grid)) == multiset(ReadAll(b, grid))
    ensures Measured(b, opening, limit, grid)
  {
    hide OnGrid;
    hide Roomy;
    hide Scaled;
    hide ReadAll;
    SumIgnoresOrder(ReadAll(a, grid), ReadAll(b, grid), OfRank(0));
    SumIgnoresOrder(ReadAll(a, grid), ReadAll(b, grid), OfRank(1));
    hide SumOf;
  }

  lemma SameEvents(a: Evidence<Decimal>, b: Evidence<Decimal>, p: Product, grid: int)
    requires FactsOnGrid(a.subscriptions, grid) && FactsOnGrid(a.redemptions, grid) && FactsOnGrid(a.rewards, grid)
    requires Reordered(a, b)
    ensures OnGrid(EventsOf(a, p), grid) && OnGrid(EventsOf(b, p), grid)
    ensures multiset(ReadAll(EventsOf(a, p), grid)) == multiset(ReadAll(EventsOf(b, p), grid))
  {
    SameReadings(a.subscriptions, b.subscriptions, grid);
    SameReadings(a.redemptions, b.redemptions, grid);
    SameReadings(a.rewards, b.rewards, grid);
    EventsOfRead(a, p, grid);
    EventsOfRead(b, p, grid);
    hide FactsOnGrid;
    hide EventsOf;
    hide OnGrid;
    EventsIgnoreOrder(ReadFacts(a.subscriptions, grid), ReadFacts(b.subscriptions, grid), p);
    EventsIgnoreOrder(ReadFacts(a.redemptions, grid), ReadFacts(b.redemptions, grid), p);
    EventsIgnoreOrder(ReadFacts(a.rewards, grid), ReadFacts(b.rewards, grid), p);
    hide EventsIn;
  }

  lemma SameFactProducts(a: Evidence<Decimal>, b: Evidence<Decimal>)
    requires Reordered(a, b)
    ensures FactProducts(a) == FactProducts(b)
  {
    SameMembers(a.subscriptions, b.subscriptions);
    SameMembers(a.redemptions, b.redemptions);
    SameMembers(a.rewards, b.rewards);
    SameProducts(a.subscriptions, b.subscriptions);
    SameProducts(a.redemptions, b.redemptions);
    SameProducts(a.rewards, b.rewards);
    SameProducts(b.subscriptions, a.subscriptions);
    SameProducts(b.redemptions, a.redemptions);
    SameProducts(b.rewards, a.rewards);
    hide ProductsIn;
  }

  /** Measured evidence gets the same verdict in whatever order its facts were collected. */
  lemma VerdictIgnoresOrder(a: Evidence<Decimal>, b: Evidence<Decimal>, limit: nat, grid: int)
    requires AllMeasured(a, limit, grid) && Reordered(a, b)
    ensures Verdict(a, limit) <==> Verdict(b, limit)
  {
    MeasureIgnoresOrder(a, b, limit, grid);
    hide AllMeasured;
    hide Verdict;
    hide Accepted;
    hide Reordered;
    VerdictIsAccepted(a, limit, grid);
    VerdictIsAccepted(b, limit, grid);
    AcceptanceIgnoresOrder(ReadEvidence(a, grid), ReadEvidence(b, grid));
  }
}

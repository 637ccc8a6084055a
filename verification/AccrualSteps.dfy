/**
The forward step of EarnAccrual.dfy from outside: exactly which steps are accepted, said of the fields of the
two checkpoints, the ledger and the cash flows, and what an accepted step leaves.
*/
module AccrualSteps {
  import opened Outcomes
  import opened Amounts
  import opened Sums
  import opened EarnAccrual

  // ---- Checkpoints ----------------------------------------------------------------------------------

  predicate IsSymbol(a: string) {
    a != "" && |a| < 21 && forall c :: c in a ==> 'A' <= c <= 'Z' || '0' <= c <= '9'
  }

  predicate IsAmount(x: int) {
    x >= 0 && x <= LIMIT
  }

  /** One asset: nothing locked, every product redeemable, and the quantity is Spot plus all products. */
  ghost predicate Adds(h: Holding) {
    && h == Holding(h.free, 0, h.products, h.free + Sum(map p | p in h.products :: h.products[p].total))
    && IsAmount(h.free) && IsAmount(h.quantity) && |h.products| < 100
    && forall p :: p in h.products ==>
         && p != "" && h.products[p].canRedeem && IsAmount(h.products[p].total) && IsAmount(h.products[p].rewards)
  }

  ghost predicate Sound(c: Checkpoint) {
    && !c.grantsExecution && c.assets != map[] && |c.assets| < 33
    && |c.scope| == 64 && (forall x :: x in c.scope ==> '0' <= x <= '9' || 'a' <= x <= 'f')
    && forall a :: a in c.assets ==> IsSymbol(a) && Adds(c.assets[a])
  }

  lemma SymbolIff(a: string)
    ensures ValidAsset(a) <==> IsSymbol(a)
  {
    assert forall k :: 0 <= k < |a| ==> a[k] in a;
  }

  lemma HexIff(s: string)
    requires |s| == 64
    ensures (forall k :: 0 <= k < 64 ==> IsHex(s[k])) <==> (forall x :: x in s ==> '0' <= x <= '9' || 'a' <= x <= 'f')
  {
    assert forall k :: 0 <= k < 64 ==> s[k] in s;
  }

  lemma HoldingIff(h: Holding)
    ensures ValidHolding(h) <==> Adds(h)
  {
    assert Totals(h.products) == map p | p in h.products :: h.products[p].total;
  }

  lemma CheckpointIff(c: Checkpoint)
    ensures Valid(c) <==> Sound(c)
  {
    if |c.scope| == 64 {
      HexIff(c.scope);
    }
    forall a | a in c.assets ensures ValidAsset(a) <==> IsSymbol(a)
      ensures ValidHolding(c.assets[a]) <==> Adds(c.assets[a]) {
      SymbolIff(a);
      HoldingIff(c.assets[a]);
    }
    hide ValidAsset;
    hide IsSymbol;
    hide ValidHolding;
    hide Adds;
    hide IsHex;
  }

  // ---- Steps ----------------------------------------------------------------------------------------

  /** What is documented of an asset: booked fills, and the deposits in USDT and dividends in BNB of the step. */
  function Known(s: State, flows: CashFlows, a: string): int
    requires a in s.nets
  {
    s.nets[a] + (match a case "USDT" => flows.principal case "BNB" => flows.dividend case _ => 0)
  }

  /** The same products with the same flags, no counter fell, and the quantity grew as documented. */
  ghost predicate Explains(before: Holding, after: Holding, known: int) {
    && before.products.Keys == after.products.Keys && -LIMIT <= known && known <= LIMIT
    && (forall p :: p in before.products ==>
          && before.products[p].rewards <= after.products[p].rewards
          && after.products[p] == before.products[p].(
               total := after.products[p].total, rewards := after.products[p].rewards,
               canRedeem := after.products[p].canRedeem))
    && after.quantity == before.quantity + known
       + Sum(map p | p in after.products :: after.products[p].rewards)
       - Sum(map p | p in before.products :: before.products[p].rewards)
  }

  /** The instant falls on the UTC day of the other, no later, and after the third. */
  predicate OnTheDay(t: int, day: int, after: int) {
    after < t && day - day % DAY <= t && t <= day
  }

  /** Deposits are documented one by one, and no flow is unsupported. */
  predicate Documents(flows: CashFlows, since: int, until: int) {
    && flows.cursorAt == until && flows.unsupported == 0 && flows.withdrawals == 0
    && flows.deposits == |flows.completedAt| && IsAmount(flows.principal) && IsAmount(flows.dividend)
    && (flows.deposits == 0 <==> flows.principal == 0)
    && forall t :: t in flows.completedAt ==> OnTheDay(t, until, since)
  }

  lemma SameDay(t: int, day: int, after: int)
    ensures after < t <= day && DateOf(t) == DateOf(day) <==> OnTheDay(t, day, after)
  {
  }

  lemma FlowsIff(s: State, current: Checkpoint, flows: CashFlows)
    ensures FlowsOk(s, current, flows) <==>
              && s.cursorAt == s.checkpoint.observedAt
              && Documents(flows, s.checkpoint.observedAt, current.observedAt)
  {
    forall t: int
      ensures s.checkpoint.observedAt < t <= current.observedAt && DateOf(t) == DateOf(current.observedAt)
              <==> OnTheDay(t, current.observedAt, s.checkpoint.observedAt)
    {
      SameDay(t, current.observedAt, s.checkpoint.observedAt);
    }
    hide OnTheDay;
    hide DateOf;
    assert forall k :: 0 <= k < |flows.completedAt| ==> flows.completedAt[k] in flows.completedAt;
  }

  lemma ExplainsIff(before: Holding, after: Holding, known: int)
    ensures AssetConserves(before, after, known) <==> Explains(before, after, known)
  {
    assert Counters(after.products) == map p | p in after.products :: after.products[p].rewards;
    assert Counters(before.products) == map p | p in before.products :: before.products[p].rewards;
    if before.products.Keys == after.products.Keys {
      SumOfDifferences(Counters(after.products), Counters(before.products));
    }
  }

  /** Every asset of the ledger is explained. */
  ghost predicate AllExplained(s: State, current: Checkpoint, flows: CashFlows)
    requires s.nets.Keys == s.checkpoint.assets.Keys == current.assets.Keys
  {
    forall a :: a in s.nets ==> Explains(s.checkpoint.assets[a], current.assets[a], Known(s, flows, a))
  }

  /** The step may be taken. */
  ghost predicate MayStep(s: State, current: Checkpoint, flows: CashFlows) {
    && Sound(s.checkpoint) && Sound(current) && s.settled
    && s.checkpoint.scope == current.scope && s.checkpoint.observedAt < current.observedAt
    && s.cursorAt == s.checkpoint.observedAt
    && s.nets.Keys == s.snapshotAssets == s.checkpoint.assets.Keys == current.assets.Keys
    && Documents(flows, s.checkpoint.observedAt, current.observedAt)
    && "USDT" in s.nets && (flows.dividend > 0 ==> "BNB" in s.nets)
    && (forall a :: a in s.nets ==> -LIMIT <= s.nets[a] <= LIMIT)
    && AllExplained(s, current, flows)
    && (flows.principal > 0 && s.lastReset == Some(current.observedAt / 86_400_000_000) ==> IsAmount(s.dailyPrincipal))
  }

  lemma AllExplainedIff(s: State, current: Checkpoint, flows: CashFlows)
    requires s.nets.Keys == s.checkpoint.assets.Keys == current.assets.Keys
    ensures Verified(s.nets, flows).Keys == s.nets.Keys
    ensures AllExplained(s, current, flows) <==>
            forall a :: a in Verified(s.nets, flows) ==>
              AssetConserves(s.checkpoint.assets[a], current.assets[a], Verified(s.nets, flows)[a])
  {
    forall a | a in s.nets
      ensures Verified(s.nets, flows)[a] == Known(s, flows, a)
      ensures AssetConserves(s.checkpoint.assets[a], current.assets[a], Known(s, flows, a))
              <==> Explains(s.checkpoint.assets[a], current.assets[a], Known(s, flows, a))
    {
      ExplainsIff(s.checkpoint.assets[a], current.assets[a], Known(s, flows, a));
    }
    hide AssetConserves;
    hide Explains;
    hide Known;
  }

  /** A forward step is accepted exactly when it may be taken. */
  lemma StepIsAcceptedIff(s: State, current: Checkpoint, flows: CashFlows)
    ensures Acceptable(s, current, flows) <==> MayStep(s, current, flows)
  {
    hide Valid;
    hide Sound;
    hide AssetConserves;
    hide Documents;
    hide FlowsOk;
    hide AllExplained;
    hide Verified;
    CheckpointIff(s.checkpoint);
    CheckpointIff(current);
    FlowsIff(s, current, flows);
    if s.nets.Keys == s.checkpoint.assets.Keys == current.assets.Keys {
      AllExplainedIff(s, current, flows);
    }
    if Documents(flows, s.checkpoint.observedAt, current.observedAt) {
      PositiveFlows(flows, s.checkpoint.observedAt, current.observedAt);
    }
  }

  lemma PositiveFlows(flows: CashFlows, since: int, until: int)
    requires Documents(flows, since, until)
    ensures flows.principal >= 0 && flows.dividend >= 0
  {
  }

  /** The instant falls on that day. */
  predicate IsItsDay(day: Option<int>, t: int) {
    day.Some? && day.value * DAY <= t < (day.value + 1) * DAY
  }

  /**
  What it leaves: checkpoint, snapshot and cash cursor at the new observation, no net change left, and the
  day's external principal grown by the deposits when the ledger's day is that of the observation.
  */
  lemma StepLeaves(s: State, current: Checkpoint, flows: CashFlows)
    requires MayStep(s, current, flows)
    ensures var t := Stepped(s, current, flows);
            && t.checkpoint == current && t.cursorAt == current.observedAt
            && t.nets.Keys == t.snapshotAssets == current.assets.Keys && (forall a :: a in t.nets ==> t.nets[a] == 0)
            && t.settled == s.settled && t.lastReset == s.lastReset
            && t.dailyPrincipal == s.dailyPrincipal + (if IsItsDay(s.lastReset, current.observedAt) then flows.principal
                                                       else 0)
  {
    hide Sound;
    hide Explains;
    hide Known;
    assert current.observedAt == DateOf(current.observedAt) * DAY + current.observedAt % DAY;
  }
}

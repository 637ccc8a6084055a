/**
application/earn_accrual.py: checkpoints of Earn quantities and reward counters, the comparison of two
of them, and the forward step of the ledger. Amounts are integers in units of 10^-30. Additions are
those of a context of 100 digits; the limits on the amounts are what makes them exact.
*/
module EarnAccrual {
  import opened Outcomes
  import opened Amounts
  import opened Precision
  import opened Sums

  const DAY: int := 86_400_000_000

  datatype Position = Position(total: int, rewards: int, autoSubscribe: bool, canRedeem: bool)

  datatype Holding = Holding(free: int, locked: int, products: map<string, Position>, quantity: int)

  /** `observedAt` is in microseconds. */
  datatype Checkpoint = Checkpoint(scope: string, observedAt: int, assets: map<string, Holding>, grantsExecution: bool)

  // ---- Checkpoints ------------------------------------------------------------------------------

  function Totals(products: map<string, Position>): map<string, int> {
    map p | p in products :: products[p].total
  }

  function Counters(products: map<string, Position>): map<string, int> {
    map p | p in products :: products[p].rewards
  }

  /** The totals of some of the positions. */
  function TotalsOf(products: map<string, Position>, names: set<string>): map<string, int> {
    map p | p in products && p in names :: products[p].total
  }

  predicate IsHex(c: char) {
    '0' <= c <= '9' || 'a' <= c <= 'f'
  }

  predicate ValidAsset(a: string) {
    1 <= |a| <= 20 && forall k :: 0 <= k < |a| ==> 'A' <= a[k] <= 'Z' || '0' <= a[k] <= '9'
  }

  predicate ValidPosition(name: string, p: Position) {
    name != "" && p.canRedeem && AdmissibleQuantity(p.total) && AdmissibleQuantity(p.rewards)
  }

  /** The recorded quantity is the Spot balance plus every position; nothing is locked. */
  ghost predicate ValidHolding(h: Holding) {
    && |h.products| < 100
    && AdmissibleQuantity(h.free) && AdmissibleQuantity(h.locked) && AdmissibleQuantity(h.quantity)
    && (forall p :: p in h.products ==> ValidPosition(p, h.products[p]))
    && h.quantity == h.free + h.locked + Sum(Totals(h.products))
    && h.locked == 0
  }

  ghost predicate Valid(c: Checkpoint) {
    && !c.grantsExecution
    && |c.scope| == 64 && (forall k :: 0 <= k < 64 ==> IsHex(c.scope[k]))
    && 0 < |c.assets| <= 32
    && forall a :: a in c.assets ==> ValidAsset(a) && ValidHolding(c.assets[a])
  }

  lemma OneMoreTotal(products: map<string, Position>, done: set<string>, p: string)
    requires p in products && p !in done
    ensures Sum(TotalsOf(products, done + {p})) == Sum(TotalsOf(products, done)) + products[p].total
  {
    SumWith(TotalsOf(products, done), p, products[p].total);
    assert TotalsOf(products, done)[p := products[p].total] == TotalsOf(products, done + {p});
  }

  lemma PartIsSmall(products: map<string, Position>, done: set<string>)
    requires |products| < 100 && forall p :: p in products && p in done ==> ValidPosition(p, products[p])
    ensures 0 <= Sum(TotalsOf(products, done)) <= 99 * LIMIT
  {
    SumBounded(TotalsOf(products, done), LIMIT);
    CardinalityOfPart(TotalsOf(products, done).Keys, products.Keys);
    Scale(|TotalsOf(products, done)|, 99, LIMIT);
  }

  lemma CardinalityOfPart(a: set<string>, b: set<string>)
    requires a <= b
    ensures |a| <= |b|
  {
    assert b == a + (b - a);
  }

  lemma Scale(n: nat, m: nat, limit: nat)
    requires n <= m
    ensures n * limit <= m * limit
  {
  }

  /** One more position: the running total stays that of the positions done. */
  lemma OneMorePosition(h: Holding, done: set<string>, p: string)
    requires |h.products| < 100 && AdmissibleQuantity(h.free) && AdmissibleQuantity(h.locked)
    requires p in h.products && p !in done && ValidPosition(p, h.products[p])
    requires forall x :: x in h.products && x in done ==> ValidPosition(x, h.products[x])
    ensures Plus(h.free + h.locked + Sum(TotalsOf(h.products, done)), h.products[p].total)
            == h.free + h.locked + Sum(TotalsOf(h.products, done + {p}))
  {
    OneMoreTotal(h.products, done, p);
    PartIsSmall(h.products, done);
    PlusIsExact(h.free + h.locked + Sum(TotalsOf(h.products, done)), h.products[p].total);
  }

  /** One asset of `_validate`: the running total over the positions, compared with the quantity. */
  method CheckHolding(h: Holding) returns (ok: bool)
    ensures ok <==> ValidHolding(h)
  {
    hide Sum;
    hide TotalsOf;
    hide Totals;
    hide Plus;
    hide ValidPosition;
    hide AdmissibleQuantity;
    if |h.products| >= 100 || !AdmissibleQuantity(h.free) || !AdmissibleQuantity(h.locked) {
      return false;
    }
    var total := Plus(h.free, h.locked);
    var rest := h.products.Keys;
    ghost var done: set<string> := {};
    NothingDone(h);
    while rest != {}
      invariant rest == h.products.Keys - done && done <= h.products.Keys
      invariant forall p :: p in done ==> ValidPosition(p, h.products[p])
      invariant total == h.free + h.locked + Sum(TotalsOf(h.products, done))
      decreases |rest|
    {
      var p :| p in rest;
      if !ValidPosition(p, h.products[p]) {
        return false;
      }
      OneMorePosition(h, done, p);
      total := Plus(total, h.products[p].total);
      rest := rest - {p};
      done := done + {p};
    }
    AllDone(h.products, done);
    ok := AdmissibleQuantity(h.quantity) && h.quantity == total && h.locked == 0;
  }

  lemma NothingDone(h: Holding)
    requires AdmissibleQuantity(h.free) && AdmissibleQuantity(h.locked)
    ensures Plus(h.free, h.locked) == h.free + h.locked + Sum(TotalsOf(h.products, {}))
  {
    PlusIsExact(h.free, h.locked);
    assert TotalsOf(h.products, {}) == map[];
  }

  lemma AllDone(products: map<string, Position>, done: set<string>)
    requires products.Keys <= done
    ensures TotalsOf(products, done) == Totals(products)
  {
  }

  /** `_validate` */
  method Validate(c: Checkpoint) returns (ok: bool)
    ensures ok <==> Valid(c)
  {
    if c.grantsExecution || |c.scope| != 64 || (exists k :: 0 <= k < 64 && !IsHex(c.scope[k]))
      || !(0 < |c.assets| <= 32) {
      return false;
    }
    var rest := c.assets.Keys;
    while rest != {}
      invariant rest <= c.assets.Keys
      invariant forall a :: a in c.assets && a !in rest ==> ValidAsset(a) && ValidHolding(c.assets[a])
      decreases |rest|
    {
      var a :| a in rest;
      ok := CheckHolding(c.assets[a]);
      if !ok || !ValidAsset(a) {
        return false;
      }
      rest := rest - {a};
    }
    ok := true;
  }

  // ---- Comparison -------------------------------------------------------------------------------

  /** The broker-reported accrual of one asset: the growth of its products' reward counters. */
  ghost function Reward(before: Holding, after: Holding): int
    requires before.products.Keys == after.products.Keys
  {
    Sum(Minus(Counters(after.products), Counters(before.products)))
  }

  /** The products kept their flags and no counter went back. */
  predicate CountersAdvance(before: Holding, after: Holding) {
    && before.products.Keys == after.products.Keys
    && forall p :: p in before.products ==>
         && before.products[p].autoSubscribe == after.products[p].autoSubscribe
         && before.products[p].rewards <= after.products[p].rewards
  }

  /** The products are the same, no counter went back, and the quantity changed by rewards and `net`. */
  ghost predicate AssetConserves(before: Holding, after: Holding, net: int) {
    && CountersAdvance(before, after)
    && Admissible(net)
    && after.quantity - before.quantity == Reward(before, after) + net
  }

  ghost predicate Conserves(previous: Checkpoint, current: Checkpoint, nets: map<string, int>) {
    && Valid(previous) && Valid(current)
    && previous.scope == current.scope && previous.assets.Keys == current.assets.Keys == nets.Keys
    && previous.observedAt < current.observedAt
    && forall a :: a in nets ==> AssetConserves(previous.assets[a], current.assets[a], nets[a])
  }

  function DeltasOf(before: Holding, after: Holding, names: set<string>): map<string, int>
    requires before.products.Keys == after.products.Keys
  {
    map p | p in before.products && p in names :: after.products[p].rewards - before.products[p].rewards
  }

  lemma OneMoreDelta(before: Holding, after: Holding, done: set<string>, p: string)
    requires before.products.Keys == after.products.Keys && p in before.products && p !in done
    ensures Sum(DeltasOf(before, after, done + {p})) ==
            Sum(DeltasOf(before, after, done)) + after.products[p].rewards - before.products[p].rewards
  {
    var part := DeltasOf(before, after, done);
    SumWith(part, p, after.products[p].rewards - before.products[p].rewards);
    assert part[p := after.products[p].rewards - before.products[p].rewards] == DeltasOf(before, after, done + {p});
  }

  /** Counters within the limits, not going back, add up to less than the limit of exactness. */
  lemma DeltasAreSmall(before: Holding, after: Holding, done: set<string>)
    requires ValidHolding(before) && ValidHolding(after) && before.products.Keys == after.products.Keys
    requires forall p :: p in done && p in before.products ==> before.products[p].rewards <= after.products[p].rewards
    ensures 0 <= Sum(DeltasOf(before, after, done)) <= 99 * LIMIT
  {
    var part := DeltasOf(before, after, done);
    forall p | p in part ensures 0 <= part[p] <= LIMIT {
      assert ValidPosition(p, before.products[p]) && ValidPosition(p, after.products[p]);
    }
    SumBounded(part, LIMIT);
    CardinalityOfPart(part.Keys, before.products.Keys);
    Scale(|part|, 99, LIMIT);
  }

  predicate Advances(before: Holding, after: Holding, p: string) {
    && p in before.products && p in after.products
    && before.products[p].autoSubscribe == after.products[p].autoSubscribe
    && before.products[p].rewards <= after.products[p].rewards
  }

  /** One product: its flag and the growth of its counter. */
  method CounterGrowth(before: Position, after: Position) returns (ok: bool, delta: int)
    requires AdmissibleQuantity(before.rewards) && AdmissibleQuantity(after.rewards)
    ensures ok <==> before.autoSubscribe == after.autoSubscribe && before.rewards <= after.rewards
    ensures ok ==> delta == after.rewards - before.rewards
  {
    if before.autoSubscribe != after.autoSubscribe {
      return false, 0;
    }
    PlusIsExact(after.rewards, -before.rewards);
    hide Plus;
    delta := Plus(after.rewards, -before.rewards);
    ok := delta >= 0;
  }

  /** Adding one more growth stays exact. */
  lemma NextReward(before: Holding, after: Holding, done: set<string>, p: string)
    requires ValidHolding(before) && ValidHolding(after) && before.products.Keys == after.products.Keys
    requires p in before.products && p !in done && forall q :: q in done + {p} ==> Advances(before, after, q)
    ensures var sum := Sum(DeltasOf(before, after, done));
            var delta := after.products[p].rewards - before.products[p].rewards;
            Plus(sum, delta) == sum + delta == Sum(DeltasOf(before, after, done + {p}))
  {
    OneMoreDelta(before, after, done, p);
    DeltasAreSmall(before, after, done);
    DeltasAreSmall(before, after, done + {p});
    PlusIsExact(Sum(DeltasOf(before, after, done)), after.products[p].rewards - before.products[p].rewards);
    hide Plus;
  }

  lemma RewardsAdmissible(h: Holding, p: string)
    requires ValidHolding(h) && p in h.products
    ensures AdmissibleQuantity(h.products[p].rewards)
  {
    assert ValidPosition(p, h.products[p]);
  }

  /** Nothing at the start, the whole reward at the end. */
  lemma RewardBounds(before: Holding, after: Holding)
    requires ValidHolding(before) && ValidHolding(after) && before.products.Keys == after.products.Keys
    ensures Sum(DeltasOf(before, after, {})) == 0
    ensures Sum(DeltasOf(before, after, before.products.Keys)) == Reward(before, after)
    ensures CountersAdvance(before, after) ==> 0 <= Reward(before, after) <= 99 * LIMIT
  {
    assert DeltasOf(before, after, {}) == map[];
    assert DeltasOf(before, after, before.products.Keys) == Minus(Counters(after.products), Counters(before.products));
    if CountersAdvance(before, after) {
      DeltasAreSmall(before, after, before.products.Keys);
    }
  }

  /** The loop over the products of one asset. */
  method SumRewards(before: Holding, after: Holding) returns (ok: bool, reward: int)
    requires ValidHolding(before) && ValidHolding(after) && before.products.Keys == after.products.Keys
    ensures ok <==> CountersAdvance(before, after)
    ensures ok ==> reward == Reward(before, after) && 0 <= reward <= 99 * LIMIT
  {
    hide Plus;
    hide ValidHolding;
    hide AdmissibleQuantity;
    hide DeltasOf;
    hide Sum;
    hide Reward;
    RewardBounds(before, after);
    reward := 0;
    var rest := before.products.Keys;
    ghost var done: set<string> := {};
    while rest != {}
      invariant rest == before.products.Keys - done && done <= before.products.Keys
      invariant forall p :: p in done ==> Advances(before, after, p)
      invariant reward == Sum(DeltasOf(before, after, done))
      decreases |rest|
    {
      var p :| p in rest;
      RewardsAdmissible(before, p);
      RewardsAdmissible(after, p);
      var grown, delta := CounterGrowth(before.products[p], after.products[p]);
      if !grown {
        return false, 0;
      }
      assert Advances(before, after, p);
      NextReward(before, after, done, p);
      reward := Plus(reward, delta);
      rest := rest - {p};
      done := done + {p};
    }
    assert done == before.products.Keys;
    ok := true;
  }

  /** One asset of `compare_earn_checkpoints`. */
  method CompareAsset(before: Holding, after: Holding, net: int) returns (ok: bool, reward: int)
    requires ValidHolding(before) && ValidHolding(after)
    ensures ok <==> AssetConserves(before, after, net)
    ensures ok ==> before.products.Keys == after.products.Keys && reward == Reward(before, after)
  {
    hide Plus;
    hide Reward;
    if before.products.Keys != after.products.Keys {
      return false, 0;
    }
    ok, reward := SumRewards(before, after);
    if !ok || !Admissible(net) {
      return false, 0;
    }
    PlusIsExact(after.quantity, -before.quantity);
    PlusIsExact(reward, net);
    ok := Plus(after.quantity, -before.quantity) == Plus(reward, net);
  }

  ghost function Accruals(previous: Checkpoint, current: Checkpoint): map<string, int>
    requires previous.assets.Keys == current.assets.Keys
    requires forall a :: a in previous.assets ==> previous.assets[a].products.Keys == current.assets[a].products.Keys
  {
    map a | a in previous.assets :: Reward(previous.assets[a], current.assets[a])
  }

  /** `compare_earn_checkpoints` */
  method CompareCheckpoints(previous: Checkpoint, current: Checkpoint, nets: map<string, int>)
      returns (r: Result<map<string, int>>)
    ensures r.Ok? <==> Conserves(previous, current, nets)
    ensures r.Ok? ==> forall a :: a in nets ==> previous.assets[a].products.Keys == current.assets[a].products.Keys
    ensures r.Ok? ==> r.value == Accruals(previous, current)
  {
    hide ValidHolding;
    hide ValidAsset;
    hide AssetConserves;
    hide Reward;
    var ok := Validate(previous);
    if ok {
      ok := Validate(current);
    }
    if !ok {
      return Err("earn_checkpoint_invalid");
    }
    if previous.scope != current.scope || previous.assets.Keys != current.assets.Keys
       || current.observedAt <= previous.observedAt || nets.Keys != current.assets.Keys {
      return Err("earn_checkpoint_scope_changed");
    }
    var accrual: map<string, int> := map[];
    var rest := nets.Keys;
    while rest != {}
      invariant rest <= nets.Keys && accrual.Keys == nets.Keys - rest
      invariant forall a :: a in accrual ==>
                  && AssetConserves(previous.assets[a], current.assets[a], nets[a])
                  && previous.assets[a].products.Keys == current.assets[a].products.Keys
                  && accrual[a] == Reward(previous.assets[a], current.assets[a])
      decreases |rest|
    {
      var a :| a in rest;
      var conserved, reward := CompareAsset(previous.assets[a], current.assets[a], nets[a]);
      if !conserved {
        return Err("earn_quantity_change_unexplained");
      }
      accrual := accrual[a := reward];
      rest := rest - {a};
    }
    r := Ok(accrual);
  }

  // ---- The forward step ---------------------------------------------------------------------------

  datatype CashFlows = CashFlows(
    cursorAt: int, deposits: int, unsupported: int, withdrawals: int, principal: int, dividend: int,
      completedAt: seq<int>)

  /** The ledger fields the step reads or writes; a day is a date, `cursorAt` the time of the cash cursor. */
  datatype State = State(
    checkpoint: Checkpoint, settled: bool, nets: map<string, int>, snapshotAssets: set<string>,
    cursorAt: int, lastReset: Option<int>, dailyPrincipal: int)

  function DateOf(t: int): int {
    t / DAY
  }

  /** The known changes of each asset: accounted fills, deposits in USDT, dividends in BNB. */
  function Verified(nets: map<string, int>, flows: CashFlows): map<string, int> {
    map a | a in nets :: nets[a] + (if a == "USDT" then flows.principal else 0)
      + (if a == "BNB" then flows.dividend else 0)
  }

  predicate FlowsOk(s: State, current: Checkpoint, flows: CashFlows) {
    && s.cursorAt == s.checkpoint.observedAt && flows.cursorAt == current.observedAt
    && flows.deposits >= 0 && flows.unsupported == 0 && flows.withdrawals == 0
    && AdmissibleQuantity(flows.principal) && AdmissibleQuantity(flows.dividend)
    && |flows.completedAt| == flows.deposits && (flows.principal == 0 <==> flows.completedAt == [])
    && (forall k :: 0 <= k < |flows.completedAt| ==>
          s.checkpoint.observedAt < flows.completedAt[k] <= current.observedAt
          && DateOf(flows.completedAt[k]) == DateOf(current.observedAt))
  }

  /** The principal belongs to the day whose accumulator the ledger holds. */
  predicate ForToday(s: State, current: Checkpoint, flows: CashFlows) {
    flows.principal != 0 && s.lastReset == Some(DateOf(current.observedAt))
  }

  /** The step is accepted: the record is settled, the flows are documented and the quantities conserve. */
  ghost predicate Acceptable(s: State, current: Checkpoint, flows: CashFlows) {
    && Valid(s.checkpoint) && Valid(current) && s.settled
    && s.nets.Keys == s.checkpoint.assets.Keys && s.snapshotAssets == s.checkpoint.assets.Keys
    && (forall a :: a in s.nets ==> Admissible(s.nets[a]))
    && FlowsOk(s, current, flows)
    && "USDT" in s.nets && (flows.dividend != 0 ==> "BNB" in s.nets)
    && Conserves(s.checkpoint, current, Verified(s.nets, flows))
    && (ForToday(s, current, flows) ==> AdmissibleQuantity(s.dailyPrincipal))
  }

  /** The next ledger: the new checkpoint, every net change zero, the cursor at the checkpoint's time. */
  function Stepped(s: State, current: Checkpoint, flows: CashFlows): State {
    s.(checkpoint := current, nets := map a | a in s.checkpoint.assets :: 0, snapshotAssets := current.assets.Keys,
       cursorAt := flows.cursorAt,
       dailyPrincipal := if ForToday(s, current, flows) then s.dailyPrincipal + flows.principal else s.dailyPrincipal)
  }

  /** The documented flows are added to the net changes of USDT and BNB, where those are named. */
  method AddFlows(nets: map<string, int>, flows: CashFlows) returns (named: bool, verified: map<string, int>)
    requires AdmissibleQuantity(flows.principal) && AdmissibleQuantity(flows.dividend)
    requires forall a :: a in nets ==> Admissible(nets[a])
    ensures named <==> "USDT" in nets && (flows.dividend != 0 ==> "BNB" in nets)
    ensures named ==> verified == Verified(nets, flows)
  {
    hide Plus;
    verified := nets;
    if "USDT" !in nets {
      return false, nets;
    }
    PlusIsExact(nets["USDT"], flows.principal);
    verified := nets["USDT" := Plus(nets["USDT"], flows.principal)];
    if flows.dividend != 0 {
      if "BNB" !in verified {
        return false, nets;
      }
      PlusIsExact(verified["BNB"], flows.dividend);
      verified := verified["BNB" := Plus(verified["BNB"], flows.dividend)];
    }
    named := true;
  }

  /** The checks of `prepare_forward_earn_state`. */
  method CheckForward(s: State, current: Checkpoint, flows: CashFlows) returns (r: Result<bool>)
    ensures r.Ok? <==> Acceptable(s, current, flows)
  {
    hide Valid;
    hide Conserves;
    hide FlowsOk;
    hide Verified;
    hide Admissible;
    var ok := Validate(s.checkpoint);
    if ok {
      ok := Validate(current);
    }
    if !ok {
      return Err("earn_checkpoint_invalid");
    }
    if !s.settled {
      return Err("earn_order_unsettled");
    }
    if s.nets.Keys != s.checkpoint.assets.Keys || s.snapshotAssets != s.checkpoint.assets.Keys
       || exists a :: a in s.nets && !Admissible(s.nets[a]) {
      return Err("earn_accounted_changes_missing");
    }
    if !FlowsOk(s, current, flows) {
      return Err("earn_cash_flow_invalid");
    }
    FlowAmounts(s, current, flows);
    var named, verified := AddFlows(s.nets, flows);
    if !named {
      return Err("earn_cash_flow_invalid");
    }
    var compared := CompareCheckpoints(s.checkpoint, current, verified);
    if compared.Err? {
      return Err(compared.code);
    }
    if ForToday(s, current, flows) && !AdmissibleQuantity(s.dailyPrincipal) {
      return Err("earn_checkpoint_invalid");
    }
    r := Ok(true);
  }

  lemma FlowAmounts(s: State, current: Checkpoint, flows: CashFlows)
    requires FlowsOk(s, current, flows)
    ensures AdmissibleQuantity(flows.principal) && AdmissibleQuantity(flows.dividend)
  {
  }

  /** `prepare_forward_earn_state` */
  method PrepareForward(s: State, current: Checkpoint, flows: CashFlows) returns (r: Result<State>)
    ensures r.Ok? <==> Acceptable(s, current, flows)
    ensures r.Ok? ==> r.value == Stepped(s, current, flows)
  {
    hide Valid;
    hide Conserves;
    hide Plus;
    var checked := CheckForward(s, current, flows);
    if checked.Err? {
      return Err(checked.code);
    }
    var updated := s;
    if flows.principal != 0 && s.lastReset == Some(DateOf(current.observedAt)) {
      PlusIsExact(s.dailyPrincipal, flows.principal);
      updated := updated.(dailyPrincipal := Plus(s.dailyPrincipal, flows.principal));
    }
    updated := updated.(checkpoint := current, nets := map a | a in s.checkpoint.assets :: 0,
                        snapshotAssets := current.assets.Keys, cursorAt := flows.cursorAt);
    r := Ok(updated);
  }

  // ---- Runs -----------------------------------------------------------------------------------------

  /** Between steps fills are booked into the net changes and other fields change; steps may be refused. */
  datatype Op =
    | Book(legs: map<string, int>)
    | Other(settled: bool, snapshotAssets: set<string>, lastReset: Option<int>, dailyPrincipal: int)
    | Forward(current: Checkpoint, flows: CashFlows)

  function LegOf(legs: map<string, int>, a: string): int {
    if a in legs then legs[a] else 0
  }

  ghost function Apply(s: State, op: Op): State {
    match op
    case Book(legs) => s.(nets := map a | a in s.nets :: s.nets[a] + LegOf(legs, a))
    case Other(settled, assets, day, principal) =>
      s.(settled := settled, snapshotAssets := assets, lastReset := day, dailyPrincipal := principal)
    case Forward(current, flows) => if Acceptable(s, current, flows) then Stepped(s, current, flows) else s
  }

  ghost function RunOps(s: State, ops: seq<Op>): State {
    if ops == [] then s else Apply(RunOps(s, ops[..|ops| - 1]), ops[|ops| - 1])
  }

  /** What has been documented about one asset over the run: fills booked, deposits, dividends. */
  ghost function Documented(s: State, ops: seq<Op>, a: string): int {
    if ops == [] then 0
    else
      var before, last := ops[..|ops| - 1], ops[|ops| - 1];
      Documented(s, before, a)
      + (match last
         case Book(legs) => LegOf(legs, a)
         case Other(_, _, _, _) => 0
         case Forward(current, flows) =>
           if !Acceptable(RunOps(s, before), current, flows) then 0
           else (if a == "USDT" then flows.principal else 0) + (if a == "BNB" then flows.dividend else 0))
  }

  /** All reward counters of an asset together. */
  ghost function CounterOf(c: Checkpoint, a: string): int
    requires a in c.assets
  {
    Sum(Counters(c.assets[a].products))
  }

  predicate SameProducts(a: Checkpoint, b: Checkpoint) {
    && a.assets.Keys == b.assets.Keys
    && forall x :: x in a.assets ==> a.assets[x].products.Keys == b.assets[x].products.Keys
  }

  lemma StepConserves(s: State, current: Checkpoint, flows: CashFlows, a: string)
    requires Acceptable(s, current, flows) && a in s.checkpoint.assets
    ensures SameProducts(s.checkpoint, current)
    ensures current.assets[a].quantity - s.checkpoint.assets[a].quantity ==
            CounterOf(current, a) - CounterOf(s.checkpoint, a) + Verified(s.nets, flows)[a]
  {
    var nets := Verified(s.nets, flows);
    forall x | x in s.checkpoint.assets
      ensures s.checkpoint.assets[x].products.Keys == current.assets[x].products.Keys {
      assert x in nets && AssetConserves(s.checkpoint.assets[x], current.assets[x], nets[x]);
    }
    assert AssetConserves(s.checkpoint.assets[a], current.assets[a], nets[a]);
    SumOfDifferences(Counters(current.assets[a].products), Counters(s.checkpoint.assets[a].products));
    hide Valid;
  }

  /**
  Over any run of booked fills and forward steps, refused steps included: the assets and their products
  stay the same, and each asset's quantity has changed by exactly the growth of its reward counters plus
  what was documented of it, except for the fills not yet taken up by a step.
  */
  lemma {:induction false} QuantitiesAreExplained(s: State, ops: seq<Op>, a: string)
    requires s.nets.Keys == s.checkpoint.assets.Keys && a in s.checkpoint.assets
    ensures var t := RunOps(s, ops);
            && SameProducts(s.checkpoint, t.checkpoint) && t.nets.Keys == t.checkpoint.assets.Keys
            && t.checkpoint.assets[a].quantity - s.checkpoint.assets[a].quantity ==
               CounterOf(t.checkpoint, a) - CounterOf(s.checkpoint, a) + Documented(s, ops, a) - (t.nets[a] - s.nets[a])
  {
    hide Acceptable;
    hide CounterOf;
    if ops != [] {
      var n := |ops| - 1;
      QuantitiesAreExplained(s, ops[..n], a);
      var before := RunOps(s, ops[..n]);
      if ops[n].Forward? && Acceptable(before, ops[n].current, ops[n].flows) {
        StepConserves(before, ops[n].current, ops[n].flows, a);
      }
    }
  }

  /** The cash cursor and the checkpoint move together, and only forward. */
  lemma {:induction false} CursorIsAtCheckpoint(s: State, ops: seq<Op>)
    requires s.cursorAt == s.checkpoint.observedAt
    ensures RunOps(s, ops).cursorAt == RunOps(s, ops).checkpoint.observedAt >= s.checkpoint.observedAt
  {
    if ops != [] {
      CursorIsAtCheckpoint(s, ops[..|ops| - 1]);
    }
    hide Valid;
  }
}

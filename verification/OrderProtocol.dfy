/**
The durable order and Earn submission protocol of runtime_support.py, as values.

A `Process` is one run: its in-memory ledger, its pending funds, and the journal of everything that
happened outside the process so far, over all runs: durable commits, mutating requests sent to the
broker, reads, claims and releases. The journal is what survives a crash; the durable ledger is its
last commit. What the outside world decides (whether a save took effect, whether its acknowledgement
came back, what the broker answered) is an argument of each operation.

`ExecutionRuntime` (ExecutionRuntime.dfy) performs these operations step by step on its fields.
*/
module OrderProtocol {
  import opened Outcomes
  import opened Amounts
  import Decimals

  // ---- Amounts, fills and records -----------------------------------------------------------

  type Asset = string

  datatype Side = Buy | Sell

  datatype Part = Part(price: int, qty: int, commission: int, asset: Asset)

  datatype KnownFill = KnownFill(side: Option<Side>, executed: int, quote: int, parts: seq<Part>)

  /** The digest of a logical order or Earn call; digests are taken to be injective. */
  datatype Identity =
    | Supplied(clientOrderId: string)
    | Derived(runId: string, call: string, payload: string)

  datatype EarnMethod = Redeem | Subscribe

  datatype Receipt = Receipt(id: int, asset: Asset, productId: string, amount: int, spotBefore: int)

  /**
  The `order_submission` record as the cycle's loader reads it: an absent record, or one that is not a
  mapping, is normalised to RESERVED; a mapping that `_load_order_submission_state` rejects is Malformed.
  */
  datatype Record =
    | Reserved
    | Terminal
    | UnknownOrder(identity: Identity, symbol: string)
    | UnknownEarn(identity: Identity, earn: EarnMethod, receipt: Option<Receipt>)
    | FillPending(identity: Identity, symbol: string, fill: KnownFill)
    | Malformed
  {
    predicate Settled() {
      Reserved? || Terminal?
    }

    predicate Unknown() {
      UnknownOrder? || UnknownEarn?
    }
  }

  datatype Mark = Mark(action: string, date: string)

  /**
  The ledger fields the protocol reads or writes. `assets` are those of the Earn checkpoint, None when
  the ledger has no checkpoint; `nets` is earn_accounted_net_changes.
  */
  datatype Ledger = Ledger(
    record: Record,
    assets: Option<set<Asset>>,
    nets: map<Asset, int>,
    history: map<string, Mark>,
    dcaDates: map<string, string>,
    circuitBroken: bool,
    snapshot: Option<map<Asset, int>>)

  predicate QuotedInUsdt(symbol: string) {
    |symbol| >= 4 && symbol[|symbol| - 4..] == "USDT"
  }

  function BaseAsset(symbol: string): Asset
    requires QuotedInUsdt(symbol)
  {
    symbol[..|symbol| - 4]
  }

  function Sign(side: Side): int {
    if side.Buy? then 1 else -1
  }

  function FeesIn(parts: seq<Part>, a: Asset): int {
    if parts == [] then 0
    else
      var n := |parts| - 1;
      FeesIn(parts[..n], a) + (if parts[n].asset == a then parts[n].commission else 0)
  }

  /** What a fill does to one asset: its base leg, its quote leg and its fees. */
  function Leg(symbol: string, fill: KnownFill, a: Asset): int
    requires QuotedInUsdt(symbol) && fill.side.Some?
  {
    (if a == BaseAsset(symbol) then Sign(fill.side.value) * fill.executed else 0)
    - (if a == "USDT" then Sign(fill.side.value) * fill.quote else 0)
    - FeesIn(fill.parts, a)
  }

  /** A result of Python's default context of 28 digits. */
  function Rounded(x: int): int {
    Decimals.RoundTo(x, 28)
  }

  /** Quantities and quotes of the parts, added up in that context. */
  function PartQuantity(parts: seq<Part>): int {
    if parts == [] then 0
    else Rounded(PartQuantity(parts[..|parts| - 1]) + parts[|parts| - 1].qty)
  }

  function PartQuote(parts: seq<Part>): int {
    if parts == [] then 0
    else Rounded(PartQuote(parts[..|parts| - 1]) + Rounded(parts[|parts| - 1].price * parts[|parts| - 1].qty))
  }

  predicate PartsWellFormed(parts: seq<Part>, allowed: set<Asset>) {
    forall i :: 0 <= i < |parts| ==>
      parts[i].price > 0 && parts[i].qty > 0 && parts[i].commission >= 0 && parts[i].asset in allowed
  }

  /** |total - amount| <= max(1e-8, amount * 1e-8), all in the units of `amount`. */
  predicate Near(total: int, amount: int, unit: int) {
    var scaled := 100_000_000 * Decimals.Abs(Rounded(total - amount));
    scaled <= unit || scaled <= Rounded(amount)
  }

  /** `_known_fill_is_complete` */
  predicate KnownFillIsComplete(fill: KnownFill, allowed: set<Asset>) {
    && fill.executed > 0 && fill.quote > 0 && fill.parts != []
    && PartsWellFormed(fill.parts, allowed)
    && Near(PartQuantity(fill.parts), fill.executed, UNIT)
    && Near(PartQuote(fill.parts), fill.quote * UNIT, UNIT * UNIT)
  }

  /** What `account_known_fill_for_earn` demands of a ledger whose fill it books. */
  predicate Bookable(ledger: Ledger) {
    && ledger.assets.Some? && ledger.record.FillPending?
    && var assets, fill := ledger.assets.value, ledger.record.fill;
    && ledger.nets.Keys == assets && "USDT" in assets
    && QuotedInUsdt(ledger.record.symbol) && BaseAsset(ledger.record.symbol) in assets
    && fill.side.Some? && KnownFillIsComplete(fill, assets)
    && (forall a :: a in assets ==> Admissible(ledger.nets[a]))
    && AdmissibleQuantity(fill.executed) && AdmissibleQuantity(fill.quote)
    && (forall i :: 0 <= i < |fill.parts| ==> AdmissibleQuantity(fill.parts[i].commission))
  }

  function AddLegs(nets: map<Asset, int>, symbol: string, fill: KnownFill): map<Asset, int>
    requires QuotedInUsdt(symbol) && fill.side.Some?
  {
    map a | a in nets :: nets[a] + Leg(symbol, fill, a)
  }

  /** `account_known_fill_for_earn`: nothing without a checkpoint or a pending fill, else one booking. */
  function AccountKnownFill(ledger: Ledger): Result<Ledger> {
    if ledger.assets.None? || !ledger.record.FillPending? then Ok(ledger)
    else if !Bookable(ledger) then Err("earn_fill_accounting_unverified")
    else Ok(ledger.(nets := AddLegs(ledger.nets, ledger.record.symbol, ledger.record.fill)))
  }

  // ---- Journal ------------------------------------------------------------------------------

  datatype Target = OrderOn(symbol: string) | EarnCall(earn: EarnMethod)

  datatype Event =
    | Installed(ledger: Ledger)                   // the ledger an operator put in place
    | Committed(ledger: Ledger, forward: bool)    // a durable write took effect
    | Posted(identity: Identity, target: Target)  // a mutating request left for the broker
    | Read                                        // a broker read
    | Claimed
    | Released

  /** The durable ledger: the last one installed or committed. */
  function Durable(events: seq<Event>): Option<Ledger> {
    if events == [] then None
    else
      var last := events[|events| - 1];
      if last.Installed? || last.Committed? then Some(last.ledger) else Durable(events[..|events| - 1])
  }

  /** Mutating requests sent since the last durable write that settled or recorded the outcome. */
  function OpenPosts(events: seq<Event>): nat {
    if events == [] then 0
    else
      var before, last := events[..|events| - 1], events[|events| - 1];
      match last
      case Posted(_, _) => OpenPosts(before) + 1
      case Committed(ledger, _) => if ledger.record.Unknown() then OpenPosts(before) else 0
      case _ => OpenPosts(before)
  }

  // ---- Processes ----------------------------------------------------------------------------

  datatype Pending = Pending(confirmed: bool, action: string, symbol: Option<string>, asset: Option<Asset>)

  /** What is fixed for one run: its date, its fuel and whether its session keeps interval receipts. */
  datatype Config = Config(today: string, fuelSymbol: string, fuelAsset: Asset, receipts: bool)

  /**
  One run of the program. `admitted` is set once the cycle has checked the loaded record; `held` is
  state_owner_held. `inFlight` is a commit or a release whose outcome nobody knows and which the store may
  still apply, as long as the owner document it was made under is there.
  */
  datatype Process = Process(
    config: Config,
    held: bool,
    memory: Option<Ledger>,
    pending: seq<Pending>,
    observed: map<Asset, int>,
    admitted: bool,
    events: seq<Event>,
    inFlight: Option<Event>)

  /**
  How a save ends: acknowledged, or not, in which case it took effect, or is still in flight and may take
  effect later or never.
  */
  datatype SaveOutcome = Acked | Lost(applied: bool)

  function Log(p: Process, e: Event): Process {
    p.(events := p.events + [e])
  }

  /** `_persist_runtime_state` on a bound session: any doubt ends the process's ownership. */
  function Persist(p: Process, ledger: Ledger, forward: bool, outcome: SaveOutcome): Process {
    match outcome
    case Acked => Log(p, Committed(ledger, forward))
    case Lost(true) => Log(p, Committed(ledger, forward)).(held := false)
    case Lost(false) => p.(held := false, inFlight := Some(Committed(ledger, forward)))
  }

  /** `_persist_order_submission_state`: memory changes only after an acknowledged write. */
  function PersistRecord(p: Process, record: Record, outcome: SaveOutcome): Process
    requires p.memory.Some?
  {
    var ledger := p.memory.value.(record := record);
    var after := Persist(p, ledger, false, outcome);
    if outcome.Acked? then after.(memory := Some(ledger)) else after
  }

  // ---- Orders -------------------------------------------------------------------------------

  /** `quantity` is None when the request does not carry exactly one positive finite quantity. */
  datatype OrderRequest = OrderRequest(
    side: Side, symbol: string, byQuote: bool, quantity: Option<int>, identity: Identity)

  datatype OrderStatus = Filled | FailedStatus | OtherStatus

  datatype OrderResponse = OrderResponse(
    status: OrderStatus, market: bool, identity: Option<Identity>, symbol: string, side: Option<Side>,
    quantity: Option<int>, quoteQuantity: Option<int>, nothingExecuted: bool, fill: KnownFill)

  /** A failed call may nevertheless have been executed; `query` is the later get_order, None if it fails. */
  datatype OrderEnv = OrderEnv(
    reserveSave: SaveOutcome, unknownSave: SaveOutcome, completeSave: SaveOutcome,
    reply: Option<OrderResponse>, query: Option<OrderResponse>)

  predicate ValidSymbol(symbol: string) {
    && 3 <= |symbol| <= 30
    && forall i :: 0 <= i < |symbol| ==> 'A' <= symbol[i] <= 'Z' || '0' <= symbol[i] <= '9'
  }

  /** `_build_order_request_association` succeeds. */
  predicate ValidRequest(request: OrderRequest) {
    ValidSymbol(request.symbol) && request.quantity.Some? && request.quantity.value > 0
  }

  /** `_reconciled_order_matches_request` */
  predicate Matches(response: OrderResponse, request: OrderRequest) {
    && response.market
    && response.identity == Some(request.identity)
    && response.symbol == request.symbol
    && response.side == Some(request.side)
    && request.quantity.Some?
    && (if request.byQuote then response.quoteQuantity else response.quantity) == request.quantity
  }

  function ActionOf(side: Side): string {
    if side.Buy? then "buy" else "sell"
  }

  /** `_complete_order_response` followed by `_require_filled_order_response`. */
  function CompleteOrder(p: Process, response: OrderResponse, save: SaveOutcome): (Process, Result<OrderResponse>)
    requires p.memory.Some?
  {
    if response.status.OtherStatus? || (response.status.FailedStatus? && !response.nothingExecuted) then
      (p, Err("order_reconciliation_uncertain"))
    else
      var previous := p.memory.value.record;
      var record :=
        if response.status.FailedStatus? then Terminal
        else if previous.UnknownOrder? then FillPending(previous.identity, previous.symbol, response.fill)
        else Malformed;
      var after := PersistRecord(p, record, save);
      if !save.Acked? then (after, Err("state_persistence_failed"))
      else
        if response.status.Filled? then (ConfirmLast(after), Ok(response))
        else
          (if after.pending == [] then after else after.(pending := after.pending[..|after.pending| - 1]),
           Err("order_submission_failed"))
  }

  /** The read-only path for a record whose outcome is unknown. */
  function ReconcileOrder(p: Process, request: OrderRequest, env: OrderEnv): (Process, Result<OrderResponse>)
    requires p.memory.Some? && p.memory.value.record.UnknownOrder?
  {
    if request.identity != p.memory.value.record.identity then (p, Err("order_reconciliation_intent_mismatch"))
    else if !ValidRequest(request) then (p, Err("submission_state_invalid"))
    else
      var read := Log(p, Read);
      if env.query.None? then (read, Err("order_reconciliation_uncertain"))
      else if !Matches(env.query.value, request) then (read, Err("order_reconciliation_intent_mismatch"))
      else
        var noted := if read.pending != [] then read
                     else read.(pending := [Pending(false, ActionOf(request.side), Some(request.symbol), None)]);
        CompleteOrder(noted, env.query.value, env.completeSave)
  }

  /** From the durable reservation of the intent to the end of the call. */
  function SubmitOrder(p: Process, request: OrderRequest, env: OrderEnv): (Process, Result<OrderResponse>)
    requires p.memory.Some?
  {
    if !ValidRequest(request) then (p, Err("submission_state_invalid"))
    else
      var reserved := PersistRecord(p, UnknownOrder(request.identity, request.symbol), env.unknownSave);
      if !env.unknownSave.Acked? then (reserved, Err("state_persistence_failed"))
      else
        var item := Pending(false, ActionOf(request.side), Some(request.symbol),
                            if request.symbol == p.config.fuelSymbol then Some(p.config.fuelAsset) else None);
        var sent := Log(reserved.(pending := reserved.pending + [item]),
                        Posted(request.identity, OrderOn(request.symbol)));
        AwaitOrder(sent, request, env)
  }

  /** After the request was sent: a matching reply completes it, a failed call is looked up, never resent. */
  function AwaitOrder(sent: Process, request: OrderRequest, env: OrderEnv): (Process, Result<OrderResponse>)
    requires sent.memory.Some?
  {
    match env.reply
    case Some(response) =>
      if Matches(response, request) then CompleteOrder(sent, response, env.completeSave)
      else (sent, Err("order_reconciliation_uncertain"))
    case None =>
      var read := Log(sent, Read);
      if env.query.None? then (read, Err("order_reconciliation_uncertain"))
      else if !Matches(env.query.value, request) then (read, Err("order_reconciliation_intent_mismatch"))
      else CompleteOrder(read, env.query.value, env.completeSave)
  }

  /** `runtime_call_client` for an order. */
  function CallOrder(p: Process, request: OrderRequest, env: OrderEnv): (Process, Result<OrderResponse>)
  {
    if !p.held then (p, Err("state_owner_required"))
    else if p.memory.None? then (p, Err("state_persistence_failed"))
    else
      match p.memory.value.record
      case Malformed => (p, Err("submission_state_invalid"))
      case UnknownEarn(_, _, _) => (p, Err("order_reconciliation_uncertain"))
      case FillPending(_, _, _) => (p, Err("filled_order_accounting_unverifiable"))
      case UnknownOrder(_, _) => ReconcileOrder(p, request, env)
      case Terminal =>
        var reserved := PersistRecord(p, Reserved, env.reserveSave);
        if !env.reserveSave.Acked? then (reserved, Err("state_persistence_failed"))
        else SubmitOrder(reserved, request, env)
      case Reserved => SubmitOrder(p, request, env)
  }

  // ---- Earn ---------------------------------------------------------------------------------

  datatype EarnRequest = EarnRequest(
    earn: EarnMethod, asset: Asset, productId: string, amount: int, identity: Identity)

  /**
  `spotBefore` is the preflight read, None if the preflight fails; `successId` the id of a confirmed
  success reply; `settled` whether the id-bound history and the Spot balance confirm the movement.
  */
  datatype EarnEnv = EarnEnv(
    reserveSave: SaveOutcome, spotBefore: Option<int>, unknownSave: SaveOutcome, successId: Option<int>,
    receiptSave: SaveOutcome, settled: bool, terminalSave: SaveOutcome)

  function SubmitEarn(p: Process, request: EarnRequest, env: EarnEnv): (Process, Result<int>)
    requires p.memory.Some?
  {
    var preflight := Log(p, Read);
    if env.spotBefore.None? || request.amount <= 0
       || (request.earn.Subscribe? && request.amount > env.spotBefore.value) then
      (preflight, Err("funding_preflight_failed"))
    else
      var unknown := UnknownEarn(request.identity, request.earn, None);
      var reserved := PersistRecord(preflight, unknown, env.unknownSave);
      if !env.unknownSave.Acked? then (reserved, Err("state_persistence_failed"))
      else
        var item := Pending(false, "sell", None, Some(request.asset));
        var sent := Log(reserved.(pending := reserved.pending + [item]),
                        Posted(request.identity, EarnCall(request.earn)));
        if env.successId.None? then (sent, Err("order_reconciliation_uncertain"))
        else
          var receipt := Receipt(env.successId.value, request.asset, request.productId, request.amount,
            env.spotBefore.value);
          SettleEarn(sent, unknown.(receipt := Some(receipt)), env)
  }

  /** After a confirmed success: keep the receipt, confirm the movement by reads, settle the record. */
  function SettleEarn(sent: Process, known: Record, env: EarnEnv): (Process, Result<int>)
    requires sent.memory.Some? && env.successId.Some?
  {
    var kept := PersistRecord(sent, known, env.receiptSave);
    if !env.receiptSave.Acked? then (kept, Err("state_persistence_failed"))
    else
      var read := Log(kept, Read);
      if !env.settled then (read, Err("funding_settlement_unverified"))
      else
        var done := PersistRecord(read, Terminal, env.terminalSave);
        if !env.terminalSave.Acked? then (done, Err("state_persistence_failed"))
        else (ConfirmLast(done), Ok(env.successId.value))
  }

  function ConfirmLast(p: Process): Process {
    var n := |p.pending|;
    if n == 0 then p else p.(pending := p.pending[n - 1 := p.pending[n - 1].(confirmed := true)])
  }

  /** `runtime_call_client` for an Earn redemption or subscription. */
  function CallEarn(p: Process, request: EarnRequest, env: EarnEnv): (Process, Result<int>) {
    if !p.held then (p, Err("state_owner_required"))
    else if p.memory.None? then (p, Err("state_persistence_failed"))
    else
      match p.memory.value.record
      case Malformed => (p, Err("submission_state_invalid"))
      case UnknownOrder(_, _) => (p, Err("order_reconciliation_uncertain"))
      case UnknownEarn(_, _, _) => (p, Err("order_reconciliation_uncertain"))
      case FillPending(_, _, _) => (p, Err("filled_order_accounting_unverifiable"))
      case Terminal =>
        var reserved := PersistRecord(p, Reserved, env.reserveSave);
        if !env.reserveSave.Acked? then (reserved, Err("state_persistence_failed"))
        else SubmitEarn(reserved, request, env)
      case Reserved => SubmitEarn(p, request, env)
  }

  // ---- Accounting in memory and whole-ledger writes ------------------------------------------

  /** `last_balance_snapshot`, updated with some balances. */
  function Snapshot(ledger: Ledger, balances: map<Asset, int>): Ledger {
    ledger.(snapshot := Some((if ledger.snapshot.Some? then ledger.snapshot.value else map[]) + balances))
  }

  /** `_prepare_accounting_state`: new balances in the snapshot, then the pending fill is booked in memory. */
  function PrepareAccounting(p: Process, balances: map<Asset, int>): (Process, Result<bool>) {
    if p.memory.None? then (p, Err("state_persistence_failed"))
    else
      var ledger := Snapshot(p.memory.value, balances);
      if !ledger.record.FillPending? then (p.(memory := Some(ledger)), Ok(false))
      else
        match AccountKnownFill(ledger)
        case Err(code) => (p.(memory := Some(ledger)), Err(code))
        case Ok(booked) => (p.(memory := Some(booked.(record := Terminal))), Ok(true))
  }

  /**
  One iteration of the order loops: the call, and directly after a filled call the booking in memory.
  `balances` is None when applying the fill to the balances fails in between.
  */
  function Trade(p: Process, request: OrderRequest, env: OrderEnv, balances: Option<map<Asset, int>>): Process {
    var (called, result) := CallOrder(p, request, env);
    if result.Ok? && balances.Some? then PrepareAccounting(called, balances.value).0 else called
  }

  function ConfirmedAssets(pending: seq<Pending>): set<Asset> {
    set i | 0 <= i < |pending| && pending[i].confirmed && pending[i].asset.Some? :: pending[i].asset.value
  }

  /** `observations` is None when a read or the conservation comparison fails; it names the assets read. */
  datatype CashEnv = CashEnv(observations: Option<map<Asset, int>>, fuelMatches: bool)

  /** `reconcile_runtime_cash_effects` */
  function ReconcileCash(p: Process, env: CashEnv): (Process, Result<bool>) {
    if p.memory.None? then (p, Err("state_persistence_failed"))
    else if ConfirmedAssets(p.pending) == {} then (p, Ok(false))
    else if !p.held then (p, Err("state_owner_required"))
    else
      var read, ledger := Log(p, Read), p.memory.value;
      var fuelPending := ledger.record.FillPending? && ledger.record.symbol == p.config.fuelSymbol;
      if env.observations.None?
         || env.observations.value.Keys != ConfirmedAssets(p.pending) + {"USDT"} then
        (read, Err("cash_reconciliation_uncertain"))
      else if fuelPending && ledger.assets.None?
        && !KnownFillIsComplete(ledger.record.fill, {p.config.fuelAsset, "USDT"}) then
        (read, Err("filled_order_accounting_unverifiable"))
      else if fuelPending && ledger.assets.None? && !env.fuelMatches then
        (read, Err("cash_reconciliation_uncertain"))
      else if fuelPending && AccountKnownFill(ledger).Err? then
        (read, Err("cash_reconciliation_uncertain"))
      else
        var booked := if fuelPending then AccountKnownFill(ledger).value.(record := Terminal) else ledger;
        (read.(memory := Some(Snapshot(booked, env.observations.value)), observed := env.observations.value), Ok(true))
  }

  /** `_accounted_funds`: the written ledger carries the evidence that this item was accounted. */
  predicate AccountedFunds(config: Config, ledger: Ledger, observed: map<Asset, int>, reason: string, item: Pending) {
    if !item.confirmed then false
    else if item.symbol.Some? && reason == "trend_" + item.action + ":" + item.symbol.value then
      item.symbol.value in ledger.history && ledger.history[item.symbol.value] == Mark(item.action, config.today)
    else if item.symbol == Some("BTCUSDT") && reason == "btc_dca_" + item.action then
      item.action in ledger.dcaDates && ledger.dcaDates[item.action] == config.today
    else if reason == "daily_circuit_breaker" && item.action == "sell" then
      ledger.circuitBroken && ledger.snapshot.Some?
    else
      && item.asset.Some? && item.asset.value in observed
      && (reason == "cycle_complete" || reason == "cash_reconciliation")
      && forall a :: a in observed ==>
           ledger.snapshot.Some? && a in ledger.snapshot.value && ledger.snapshot.value[a] == observed[a]
  }

  function Unaccounted(config: Config, ledger: Ledger, observed: map<Asset, int>, reason: string,
                       pending: seq<Pending>): seq<Pending> {
    if pending == [] then []
    else
      var n := |pending| - 1;
      Unaccounted(config, ledger, observed, reason, pending[..n])
      + (if AccountedFunds(config, ledger, observed, reason, pending[n]) then [] else [pending[n]])
  }

  const FORWARD_REASON: string := "earn_forward_accounting"

  /**
  `runtime_set_trade_state`: a session with receipts takes the forward reason only with its interval, and
  an interval goes with no other reason; a refusal ends the ownership.
  */
  function WriteState(p: Process, ledger: Ledger, reason: string, interval: bool, forward: bool, save: SaveOutcome):
      (Process, Result<bool>) {
    if !p.held then (p, Err("state_owner_required"))
    else if p.config.receipts && reason == FORWARD_REASON && !interval then
      (p.(held := false), Err("state_session_interval_required"))
    else if interval && reason != FORWARD_REASON then
      (p.(held := false), Err("state_session_interval_reason_invalid"))
    else
      var after := Persist(p, ledger, forward, save);
      if !save.Acked? then (after, Err("state_persistence_failed"))
      else
        (after.(memory := Some(ledger), pending := Unaccounted(p.config, ledger, p.observed, reason, after.pending)),
          Ok(true))
  }

  /** A write of the working ledger as it is. */
  function SetTradeState(p: Process, reason: string, interval: bool, save: SaveOutcome): (Process, Result<bool>) {
    if p.memory.None? then (p, Err("state_persistence_failed"))
    else WriteState(p, p.memory.value, reason, interval, false, save)
  }

  /**
  The write of one verified forward step (`prepare_forward_earn_state` and its persistence): every
  counted net change returns to zero and the working state becomes the written one.
  */
  function ForwardStep(p: Process, snapshot: map<Asset, int>, save: SaveOutcome): (Process, Result<bool>) {
    if p.memory.None? || p.memory.value.assets.None? || !p.memory.value.record.Settled() then
      (p, Err("earn_forward_accounting_unverified"))
    else
      var updated := p.memory.value.(nets := map a | a in p.memory.value.assets.value :: 0, snapshot := Some(snapshot));
      WriteState(p, updated, FORWARD_REASON, p.config.receipts, true, save)
  }

  /** `reconcile_pending_funding_submission`: finish one durable Earn receipt, using reads only. */
  function ReconcileFunding(p: Process, settled: bool, cash: CashEnv, save: SaveOutcome): (Process, Result<bool>) {
    if !p.held then (p, Err("state_owner_required"))
    else if p.memory.None? then (p, Err("state_persistence_failed"))
    else if p.memory.value.record.Malformed? then (p, Err("submission_state_invalid"))
    else
      var ledger := p.memory.value;
      if !ledger.record.UnknownEarn? || ledger.record.receipt.None? then (p, Ok(false))
      else if ledger.snapshot.None? then (p, Err("funding_balance_conservation_unverified"))
      else
        var read := Log(p, Read);
        if !settled then (read, Err("funding_settlement_unverified"))
        else
          var item := Pending(true, "funding", None, Some(ledger.record.receipt.value.asset));
          var (checked, outcome) := ReconcileCash(read.(pending := read.pending + [item]), cash);
          if outcome.Err? then (checked, Err(outcome.code))
          else FinishFunding(checked, ledger.snapshot.value, item, save)
  }

  /** The managed balances must be those of the opening snapshot, which stays; then the record is settled. */
  function FinishFunding(p: Process, opening: map<Asset, int>, item: Pending, save: SaveOutcome):
      (Process, Result<bool>) {
    if p.memory.None? then (p, Err("state_persistence_failed"))
    else
      var restored := p.(memory := Some(p.memory.value.(snapshot := Some(opening))));
      if exists a :: a in p.observed && (a !in opening || opening[a] != p.observed[a]) then
        (restored.(observed := map[]), Err("funding_balance_conservation_unverified"))
      else
        var done := PersistRecord(restored, Terminal, save);
        if !save.Acked? then (done, Err("state_persistence_failed"))
        else (done.(pending := RemoveFirst(done.pending, item)), Ok(true))
  }

  /** `list.remove` */
  function RemoveFirst(pending: seq<Pending>, item: Pending): seq<Pending> {
    if pending == [] then []
    else if pending[0] == item then pending[1..]
    else [pending[0]] + RemoveFirst(pending[1..], item)
  }

  // ---- Ownership and the cycle's entry and exit ----------------------------------------------

  /** A new run after `acquire_runtime_state_owner` returned True: nothing cached is reused. */
  function StartCycle(config: Config, events: seq<Event>): Process {
    Process(config, true, None, [], map[], false, events + [Claimed], None)
  }

  function LoadState(p: Process): Process {
    if p.held && p.memory.None? then p.(memory := Durable(p.events)) else p
  }

  /**
  The entry checks of the cycle. It stops at a record the funding recovery, which runs just before,
  cannot read, and at an unsettled one, so nothing below runs unless the record is settled.
  */
  function Admit(p: Process): (Process, Result<bool>) {
    if p.memory.None? then (p, Err("state_load"))
    else if p.memory.value.record.Malformed? then (p, Err("submission_state_invalid"))
    else if p.memory.value.record.Unknown() then (p, Err("order_reconciliation_uncertain"))
    else if p.memory.value.record.FillPending? then (p, Err("filled_order_accounting_unverifiable"))
    else (p.(admitted := true), Ok(true))
  }

  /**
  `release_runtime_state_owner`: refuses while funds are pending or the record in memory is unsettled.
  `released` is whether the owner document was deleted, `acked` whether the caller was told what happened;
  otherwise the deletion may still take effect.
  */
  function ReleaseOwner(p: Process, released: bool, acked: bool): (Process, Result<bool>) {
    if !p.held then (p, Err("state_owner_required"))
    else if p.pending != []
            || (p.memory.Some? && (p.memory.value.record.Unknown() || p.memory.value.record.FillPending?)) then
      (p, Ok(false))
    else
      var after := if released then Log(p, Released) else if acked then p else p.(inFlight := Some(Released));
      (after.(held := false), if released && acked then Ok(true) else Err("state_owner_release_uncertain"))
  }

  // ---- Runs ---------------------------------------------------------------------------------

  /** Edits the strategy makes to the fields of the working ledger that the protocol does not own. */
  datatype Edits = Edits(history: map<string, Mark>, dcaDates: map<string, string>, circuitBroken: bool,
      snapshot: Option<map<Asset, int>>)

  function Edit(p: Process, edits: Edits): Process {
    if p.memory.None? then p
    else p.(memory := Some(p.memory.value.(history := edits.history, dcaDates := edits.dcaDates,
                                           circuitBroken := edits.circuitBroken, snapshot := edits.snapshot)))
  }

  datatype Op =
    | OpLoad
    | OpAdmit
    | OpTrade(order: OrderRequest, orderEnv: OrderEnv, balances: Option<map<Asset, int>>)
    | OpEarn(earnCall: EarnRequest, earnEnv: EarnEnv)
    | OpEdit(edits: Edits)
    | OpCash(cashEnv: CashEnv)
    | OpFunding(settled: bool, fundingCash: CashEnv, fundingSave: SaveOutcome)
    | OpSave(reason: string, interval: bool, save: SaveOutcome)
    | OpForward(closing: map<Asset, int>, forwardSave: SaveOutcome)
    | OpRelease(released: bool, acked: bool)

  /**
  Trading, accounting and the release run only after admission (a cycle is healthy only from then on);
  loading, funding recovery and saving also before it.
  */
  function Perform(p: Process, op: Op): Process {
    match op
    case OpLoad => LoadState(p)
    case OpAdmit => Admit(p).0
    case OpTrade(request, env, balances) => if p.admitted then Trade(p, request, env, balances) else p
    case OpEarn(request, env) => if p.admitted then CallEarn(p, request, env).0 else p
    case OpEdit(edits) => Edit(p, edits)
    case OpCash(env) => if p.admitted then ReconcileCash(p, env).0 else p
    case OpFunding(settled, cash, save) => ReconcileFunding(p, settled, cash, save).0
    case OpSave(reason, interval, save) => SetTradeState(p, reason, interval, save).0
    case OpForward(closing, save) => if p.admitted then ForwardStep(p, closing, save).0 else p
    case OpRelease(released, acked) => if p.admitted then ReleaseOwner(p, released, acked).0 else p
  }

  /**
  A step of the system: an operation; a crash after `kept` of its outside effects, the next of which may
  already be on its way if it is a commit or a release; a new run with its own configuration, which may never learn
  that its claim succeeded; or something in flight that takes effect.
  */
  datatype Step =
    | Do(op: Op)
    | CrashDuring(crashed: Op, kept: nat, sending: bool)
    | NewRun(config: Config, told: bool)
    | LateCommit

  function Dead(config: Config, events: seq<Event>, inFlight: Option<Event>): Process {
    Process(config, false, None, [], map[], false, events, inFlight)
  }

  function Crash(before: Process, after: Process, kept: nat, sending: bool): Process {
    var all, end := after.events, |before.events| + kept;
    if end < |all| then
      var lands := sending && (all[end].Committed? || all[end].Released?);
      Dead(before.config, all[..end], if lands then Some(all[end]) else None)
    else Dead(before.config, all, after.inFlight)
  }

  /** A claim needs the owner document to be gone, and without it no earlier run's commit can take effect. */
  function Advance(p: Process, step: Step): Process {
    match step
    case Do(op) => Perform(p, op)
    case CrashDuring(op, kept, sending) => Crash(p, Perform(p, op), kept, sending)
    case NewRun(config, told) =>
      if told then StartCycle(config, p.events)
      else p.(config := config, held := false, events := p.events + [Claimed], inFlight := None)
    case LateCommit => if p.inFlight.Some? then Log(p, p.inFlight.value).(inFlight := None) else p
  }

  function Run(p: Process, steps: seq<Step>): Process {
    if steps == [] then p
    else Advance(Run(p, steps[..|steps| - 1]), steps[|steps| - 1])
  }

  /** The beginning of history: an operator installed a ledger. */
  function Initial(ledger: Ledger, config: Config): Process {
    Dead(config, [Installed(ledger)], None)
  }
}

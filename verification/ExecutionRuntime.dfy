/**
ExecutionRuntime of runtime_support.py: the fields one run updates in place, and its methods in the
order of the source's statements. Every method is proved to do to the fields exactly what
OrderProtocol's function of the same operation does to a Process, so the safety results of OrderSafety
hold of this code; `ExecuteCycle` is then shown to be one of the runs they quantify over.
*/
module ExecutionRuntimes {
  import opened Outcomes
  import opened Amounts
  import opened OrderProtocol
  import opened OrderSafety

  /** `_known_fill_is_complete`: one pass over the parts, accumulating quantity and quote. */
  method CheckKnownFill(fill: KnownFill, allowed: set<Asset>) returns (complete: bool)
    ensures complete == KnownFillIsComplete(fill, allowed)
  {
    hide Rounded;
    if fill.executed <= 0 || fill.quote <= 0 || fill.parts == [] {
      return false;
    }
    var quantity, quote := 0, 0;
    for i := 0 to |fill.parts|
      invariant PartsWellFormed(fill.parts[..i], allowed)
      invariant quantity == PartQuantity(fill.parts[..i]) && quote == PartQuote(fill.parts[..i])
    {
      var part := fill.parts[i];
      assert fill.parts[..i + 1][..i] == fill.parts[..i];
      if part.price <= 0 || part.qty <= 0 || part.commission < 0 || part.asset !in allowed {
        return false;
      }
      quantity, quote := Rounded(quantity + part.qty), Rounded(quote + Rounded(part.price * part.qty));
    }
    assert fill.parts[..|fill.parts|] == fill.parts;
    complete := Near(quantity, fill.executed, UNIT) && Near(quote, fill.quote * UNIT, UNIT * UNIT);
  }

  /** The base and quote legs of a fill, without its fees. */
  function TradeLegs(symbol: string, fill: KnownFill, a: Asset): int
    requires QuotedInUsdt(symbol) && fill.side.Some?
  {
    (if a == BaseAsset(symbol) then Sign(fill.side.value) * fill.executed else 0)
    - (if a == "USDT" then Sign(fill.side.value) * fill.quote else 0)
  }

  /** The update of the copied net changes: base, quote, then fee by fee. */
  method BookLegs(nets: map<Asset, int>, symbol: string, fill: KnownFill) returns (updated: map<Asset, int>)
    requires QuotedInUsdt(symbol) && fill.side.Some? && BaseAsset(symbol) in nets && "USDT" in nets
    requires forall i :: 0 <= i < |fill.parts| ==> fill.parts[i].asset in nets
    ensures updated == AddLegs(nets, symbol, fill)
  {
    var base, sign := BaseAsset(symbol), Sign(fill.side.value);
    updated := nets[base := nets[base] + sign * fill.executed];
    updated := updated["USDT" := updated["USDT"] - sign * fill.quote];
    for i := 0 to |fill.parts|
      invariant updated.Keys == nets.Keys
      invariant forall a :: a in nets ==>
                  updated[a] == nets[a] + TradeLegs(symbol, fill, a) - FeesIn(fill.parts[..i], a)
    {
      var part := fill.parts[i];
      assert fill.parts[..i + 1][..i] == fill.parts[..i];
      updated := updated[part.asset := updated[part.asset] - part.commission];
    }
    assert fill.parts[..|fill.parts|] == fill.parts;
  }

  /** `account_known_fill_for_earn` */
  method AccountFill(ledger: Ledger) returns (r: Result<Ledger>)
    ensures r == AccountKnownFill(ledger)
  {
    hide Near;
    hide AddLegs;
    hide Admissible;
    hide AdmissibleQuantity;
    if ledger.assets.None? || !ledger.record.FillPending? {
      return Ok(ledger);
    }
    var assets, symbol, fill := ledger.assets.value, ledger.record.symbol, ledger.record.fill;
    if ledger.nets.Keys != assets || !QuotedInUsdt(symbol) || BaseAsset(symbol) !in assets || "USDT" !in assets {
      return Err("earn_fill_accounting_unverified");
    }
    var complete := CheckKnownFill(fill, assets);
    if fill.side.None? || !complete
       || !(forall a :: a in assets ==> Admissible(ledger.nets[a]))
       || !AdmissibleQuantity(fill.executed) || !AdmissibleQuantity(fill.quote)
       || exists i :: 0 <= i < |fill.parts| && !AdmissibleQuantity(fill.parts[i].commission) {
      return Err("earn_fill_accounting_unverified");
    }
    var updated := BookLegs(ledger.nets, symbol, fill);
    r := Ok(ledger.(nets := updated));
  }

  class ExecutionRuntime {
    const config: Config
    var tradeState: Option<Ledger>
    var pendingFunds: seq<Pending>
    var cashBalanceObservation: map<Asset, int>
    var stateOwnerHeld: bool
    /** The cycle has passed its entry checks. */
    var admitted: bool
    /** What has happened outside so far: the store's commits and the broker's requests. */
    var journal: seq<Event>
    /** A commit or a release whose outcome nobody knows. */
    var inFlight: Option<Event>

    function View(): Process
      reads this
    {
      Process(config, stateOwnerHeld, tradeState, pendingFunds, cashBalanceObservation, admitted, journal, inFlight)
    }

    /** A process started on the store and broker history `journal`; it owns nothing yet. */
    constructor (config: Config, journal: seq<Event>, inFlight: Option<Event>)
      ensures View() == Dead(config, journal, inFlight) && this.config == config
    {
      this.config := config;
      this.journal, this.inFlight := journal, inFlight;
      tradeState, pendingFunds, cashBalanceObservation := None, [], map[];
      stateOwnerHeld, admitted := false, false;
    }

    /** `_persist_runtime_state` */
    method PersistState(ledger: Ledger, forward: bool, outcome: SaveOutcome) returns (saved: bool)
      modifies this`journal, this`inFlight, this`stateOwnerHeld
      ensures View() == Persist(old(View()), ledger, forward, outcome) && saved == outcome.Acked?
    {
      if outcome == Lost(false) {
        inFlight := Some(Committed(ledger, forward));
      } else {
        journal := journal + [Committed(ledger, forward)];
      }
      if !outcome.Acked? {
        stateOwnerHeld := false;
        return false;
      }
      return true;
    }

    /** `_persist_order_submission_state` */
    method PersistSubmission(record: Record, outcome: SaveOutcome) returns (saved: bool)
      requires tradeState.Some?
      modifies this
      ensures View() == PersistRecord(old(View()), record, outcome) && saved == outcome.Acked?
    {
      var updated := tradeState.value.(record := record);
      saved := PersistState(updated, false, outcome);
      if saved {
        tradeState := Some(updated);
      }
    }

    /** `_complete_order_response` and `_require_filled_order_response` */
    method CompleteOrderResponse(response: OrderResponse, save: SaveOutcome) returns (r: Result<OrderResponse>)
      requires tradeState.Some?
      modifies this
      ensures (View(), r) == CompleteOrder(old(View()), response, save)
    {
      if response.status.FailedStatus? && !response.nothingExecuted {
        return Err("order_reconciliation_uncertain");
      }
      if response.status.Filled? || response.status.FailedStatus? {
        var record := Terminal;
        if response.status.Filled? {
          var previous := tradeState.value.record;
          record := if previous.UnknownOrder? then FillPending(previous.identity, previous.symbol, response.fill)
            else Malformed;
        }
        var saved := PersistSubmission(record, save);
        if !saved {
          return Err("state_persistence_failed");
        }
        if pendingFunds != [] {
          var last := |pendingFunds| - 1;
          if response.status.Filled? {
            pendingFunds := pendingFunds[last := pendingFunds[last].(confirmed := true)];
          } else {
            pendingFunds := pendingFunds[..last];
          }
        }
      }
      match response.status
      case Filled => return Ok(response);
      case FailedStatus => return Err("order_submission_failed");
      case OtherStatus => return Err("order_reconciliation_uncertain");
    }

    /** The path of `runtime_call_client` for a record whose outcome is unknown: no request is sent. */
    method ReconcileUnknownOrder(request: OrderRequest, env: OrderEnv) returns (r: Result<OrderResponse>)
      requires tradeState.Some? && tradeState.value.record.UnknownOrder?
      modifies this
      ensures (View(), r) == ReconcileOrder(old(View()), request, env)
    {
      hide CompleteOrder;
      if request.identity != tradeState.value.record.identity {
        return Err("order_reconciliation_intent_mismatch");
      }
      if !ValidRequest(request) {
        return Err("submission_state_invalid");
      }
      journal := journal + [Read];
      if env.query.None? {
        return Err("order_reconciliation_uncertain");
      }
      if !Matches(env.query.value, request) {
        return Err("order_reconciliation_intent_mismatch");
      }
      if pendingFunds == [] {
        pendingFunds := [Pending(false, ActionOf(request.side), Some(request.symbol), None)];
      }
      r := CompleteOrderResponse(env.query.value, env.completeSave);
    }

    /**
    The retry loop of `runtime_call_client`. For an order both branches of the first attempt leave the
    loop, so however many retries are allowed the request goes out once.
    */
    method SendOrder(request: OrderRequest, maxRetries: nat, env: OrderEnv) returns (r: Result<OrderResponse>)
      requires tradeState.Some?
      modifies this
      ensures (View(), r)
              == AwaitOrder(Log(old(View()), Posted(request.identity, OrderOn(request.symbol))), request, env)
    {
      hide CompleteOrder;
      for attempt := 0 to maxRetries + 1
        invariant attempt == 0 && View() == old(View())
      {
        journal := journal + [Posted(request.identity, OrderOn(request.symbol))];
        match env.reply {
          case Some(response) =>
            if !Matches(response, request) {
              return Err("order_reconciliation_uncertain");
            }
            r := CompleteOrderResponse(response, env.completeSave);
            return;
          case None =>
            journal := journal + [Read];
            if env.query.None? {
              return Err("order_reconciliation_uncertain");
            }
            if !Matches(env.query.value, request) {
              return Err("order_reconciliation_intent_mismatch");
            }
            r := CompleteOrderResponse(env.query.value, env.completeSave);
            return;
        }
      }
      assert false;
      r := Err("order_submission_failed");
    }

    /** Reserve durably, note the funds at stake, then send. */
    method SubmitReserved(request: OrderRequest, maxRetries: nat, env: OrderEnv) returns (r: Result<OrderResponse>)
      requires tradeState.Some?
      modifies this
      ensures (View(), r) == SubmitOrder(old(View()), request, env)
    {
      hide AwaitOrder;
      if !ValidRequest(request) {
        return Err("submission_state_invalid");
      }
      var saved := PersistSubmission(UnknownOrder(request.identity, request.symbol), env.unknownSave);
      if !saved {
        return Err("state_persistence_failed");
      }
      var fuel := if request.symbol == config.fuelSymbol then Some(config.fuelAsset) else None;
      pendingFunds := pendingFunds + [Pending(false, ActionOf(request.side), Some(request.symbol), fuel)];
      r := SendOrder(request, maxRetries, env);
    }

    /** `runtime_call_client` for an order */
    method CallClientForOrder(request: OrderRequest, maxRetries: nat, env: OrderEnv) returns (r: Result<OrderResponse>)
      modifies this
      ensures (View(), r) == CallOrder(old(View()), request, env)
    {
      hide SubmitOrder;
      hide ReconcileOrder;
      if !stateOwnerHeld {
        return Err("state_owner_required");
      }
      if tradeState.None? {
        return Err("state_persistence_failed");
      }
      match tradeState.value.record
      case Malformed => return Err("submission_state_invalid");
      case UnknownEarn(_, _, _) => return Err("order_reconciliation_uncertain");
      case FillPending(_, _, _) => return Err("filled_order_accounting_unverifiable");
      case UnknownOrder(_, _) =>
        r := ReconcileUnknownOrder(request, env);
      case Terminal =>
        var saved := PersistSubmission(Reserved, env.reserveSave);
        if !saved {
          return Err("state_persistence_failed");
        }
        r := SubmitReserved(request, maxRetries, env);
      case Reserved =>
        r := SubmitReserved(request, maxRetries, env);
    }

    /** The success path of an Earn call after its confirmed reply. */
    method ConfirmEarn(known: Record, env: EarnEnv) returns (r: Result<int>)
      requires tradeState.Some? && env.successId.Some?
      modifies this
      ensures (View(), r) == SettleEarn(old(View()), known, env)
    {
      var saved := PersistSubmission(known, env.receiptSave);
      if !saved {
        return Err("state_persistence_failed");
      }
      journal := journal + [Read];
      if !env.settled {
        return Err("funding_settlement_unverified");
      }
      saved := PersistSubmission(Terminal, env.terminalSave);
      if !saved {
        return Err("state_persistence_failed");
      }
      if pendingFunds != [] {
        var last := |pendingFunds| - 1;
        pendingFunds := pendingFunds[last := pendingFunds[last].(confirmed := true)];
      }
      r := Ok(env.successId.value);
    }

    method SubmitReservedEarn(request: EarnRequest, env: EarnEnv) returns (r: Result<int>)
      requires tradeState.Some?
      modifies this
      ensures (View(), r) == SubmitEarn(old(View()), request, env)
    {
      hide SettleEarn;
      journal := journal + [Read];
      if env.spotBefore.None? || request.amount <= 0
         || (request.earn.Subscribe? && request.amount > env.spotBefore.value) {
        return Err("funding_preflight_failed");
      }
      var unknown := UnknownEarn(request.identity, request.earn, None);
      var saved := PersistSubmission(unknown, env.unknownSave);
      if !saved {
        return Err("state_persistence_failed");
      }
      pendingFunds := pendingFunds + [Pending(false, "sell", None, Some(request.asset))];
      journal := journal + [Posted(request.identity, EarnCall(request.earn))];
      if env.successId.None? {
        return Err("order_reconciliation_uncertain");
      }
      var receipt := Receipt(env.successId.value, request.asset, request.productId, request.amount,
        env.spotBefore.value);
      r := ConfirmEarn(unknown.(receipt := Some(receipt)), env);
    }

    /** `runtime_call_client` for an Earn redemption or subscription */
    method CallClientForEarn(request: EarnRequest, env: EarnEnv) returns (r: Result<int>)
      modifies this
      ensures (View(), r) == CallEarn(old(View()), request, env)
    {
      hide SubmitEarn;
      if !stateOwnerHeld {
        return Err("state_owner_required");
      }
      if tradeState.None? {
        return Err("state_persistence_failed");
      }
      match tradeState.value.record
      case Malformed => return Err("submission_state_invalid");
      case UnknownOrder(_, _) => return Err("order_reconciliation_uncertain");
      case UnknownEarn(_, _, _) => return Err("order_reconciliation_uncertain");
      case FillPending(_, _, _) => return Err("filled_order_accounting_unverifiable");
      case Terminal =>
        var saved := PersistSubmission(Reserved, env.reserveSave);
        if !saved {
          return Err("state_persistence_failed");
        }
        r := SubmitReservedEarn(request, env);
      case Reserved =>
        r := SubmitReservedEarn(request, env);
    }

    /** `_prepare_accounting_state` */
    method PrepareAccountingState(balances: map<Asset, int>) returns (r: Result<bool>)
      modifies this`tradeState
      ensures (View(), r) == PrepareAccounting(old(View()), balances)
    {
      hide AccountKnownFill;
      if tradeState.None? {
        return Err("state_persistence_failed");
      }
      tradeState := Some(Snapshot(tradeState.value, balances));
      if !tradeState.value.record.FillPending? {
        return Ok(false);
      }
      var booked := AccountFill(tradeState.value);
      if booked.Err? {
        return Err(booked.code);
      }
      tradeState := Some(booked.value.(record := Terminal));
      r := Ok(true);
    }

    /** `reconcile_runtime_cash_effects` */
    method ReconcileCashEffects(env: CashEnv) returns (r: Result<bool>)
      modifies this
      ensures (View(), r) == ReconcileCash(old(View()), env)
    {
      hide AccountKnownFill;
      hide KnownFillIsComplete;
      if tradeState.None? {
        return Err("state_persistence_failed");
      }
      var assets := ConfirmedAssets(pendingFunds);
      if assets == {} {
        return Ok(false);
      }
      if !stateOwnerHeld {
        return Err("state_owner_required");
      }
      journal := journal + [Read];
      var ledger := tradeState.value;
      var fuelPending := ledger.record.FillPending? && ledger.record.symbol == config.fuelSymbol;
      if env.observations.None? || env.observations.value.Keys != assets + {"USDT"} {
        return Err("cash_reconciliation_uncertain");
      }
      if fuelPending {
        if ledger.assets.None? {
          var complete := CheckKnownFill(ledger.record.fill, {config.fuelAsset, "USDT"});
          if !complete {
            return Err("filled_order_accounting_unverifiable");
          }
          if !env.fuelMatches {
            return Err("cash_reconciliation_uncertain");
          }
        }
        var booked := AccountFill(ledger);
        if booked.Err? {
          return Err("cash_reconciliation_uncertain");
        }
        tradeState := Some(booked.value.(record := Terminal));
      }
      tradeState := Some(Snapshot(tradeState.value, env.observations.value));
      cashBalanceObservation := env.observations.value;
      r := Ok(true);
    }

    /** Keep the pending items the written ledger gives no evidence of. */
    method DropAccounted(ledger: Ledger, reason: string)
      modifies this`pendingFunds
      ensures pendingFunds == Unaccounted(config, ledger, cashBalanceObservation, reason, old(pendingFunds))
    {
      hide AccountedFunds;
      var kept: seq<Pending> := [];
      for i := 0 to |pendingFunds|
        invariant pendingFunds == old(pendingFunds)
        invariant kept == Unaccounted(config, ledger, cashBalanceObservation, reason, pendingFunds[..i])
      {
        assert pendingFunds[..i + 1][..i] == pendingFunds[..i];
        if !AccountedFunds(config, ledger, cashBalanceObservation, reason, pendingFunds[i]) {
          kept := kept + [pendingFunds[i]];
        }
      }
      assert pendingFunds[..|pendingFunds|] == pendingFunds;
      pendingFunds := kept;
    }

    /** `runtime_set_trade_state` */
    method RuntimeSetTradeState(ledger: Ledger, reason: string, interval: bool, forward: bool, save: SaveOutcome)
        returns (r: Result<bool>)
      modifies this
      ensures (View(), r) == WriteState(old(View()), ledger, reason, interval, forward, save)
    {
      hide Unaccounted;
      if !stateOwnerHeld {
        return Err("state_owner_required");
      }
      if config.receipts && reason == FORWARD_REASON && !interval {
        stateOwnerHeld := false;
        return Err("state_session_interval_required");
      }
      if interval && reason != FORWARD_REASON {
        stateOwnerHeld := false;
        return Err("state_session_interval_reason_invalid");
      }
      var saved := PersistState(ledger, forward, save);
      if !saved {
        return Err("state_persistence_failed");
      }
      tradeState := Some(ledger);
      DropAccounted(ledger, reason);
      r := Ok(true);
    }

    /** The verified forward step and its write. */
    method PersistForwardStep(snapshot: map<Asset, int>, save: SaveOutcome) returns (r: Result<bool>)
      modifies this
      ensures (View(), r) == ForwardStep(old(View()), snapshot, save)
    {
      hide WriteState;
      if tradeState.None? || tradeState.value.assets.None? || !tradeState.value.record.Settled() {
        return Err("earn_forward_accounting_unverified");
      }
      var updated := tradeState.value.(nets := map a | a in tradeState.value.assets.value :: 0,
        snapshot := Some(snapshot));
      r := RuntimeSetTradeState(updated, FORWARD_REASON, config.receipts, true, save);
    }

    /** `reconcile_pending_funding_submission` */
    method ReconcilePendingFunding(settled: bool, cash: CashEnv, save: SaveOutcome) returns (r: Result<bool>)
      modifies this
      ensures (View(), r) == ReconcileFunding(old(View()), settled, cash, save)
    {
      hide ReconcileCash;
      if !stateOwnerHeld {
        return Err("state_owner_required");
      }
      if tradeState.None? {
        return Err("state_persistence_failed");
      }
      var record := tradeState.value.record;
      if record.Malformed? {
        return Err("submission_state_invalid");
      }
      if !record.UnknownEarn? || record.receipt.None? {
        return Ok(false);
      }
      if tradeState.value.snapshot.None? {
        return Err("funding_balance_conservation_unverified");
      }
      var opening := tradeState.value.snapshot.value;
      journal := journal + [Read];
      if !settled {
        return Err("funding_settlement_unverified");
      }
      var item := Pending(true, "funding", None, Some(record.receipt.value.asset));
      pendingFunds := pendingFunds + [item];
      var checked := ReconcileCashEffects(cash);
      if checked.Err? {
        return Err(checked.code);
      }
      if tradeState.None? {
        return Err("state_persistence_failed");
      }
      var changed := exists a ::
        a in cashBalanceObservation && (a !in opening || opening[a] != cashBalanceObservation[a]);
      tradeState := Some(tradeState.value.(snapshot := Some(opening)));
      if changed {
        cashBalanceObservation := map[];
        return Err("funding_balance_conservation_unverified");
      }
      var saved := PersistSubmission(Terminal, save);
      if !saved {
        return Err("state_persistence_failed");
      }
      pendingFunds := RemoveFirst(pendingFunds, item);
      r := Ok(true);
    }

    /** `acquire_runtime_state_owner`: only a claim known to have succeeded gives anything. */
    method AcquireStateOwner(claim: ClaimOutcome) returns (r: Result<bool>)
      modifies this
      ensures r == Ok(true) <==> !old(stateOwnerHeld) && claim.Granted?
      ensures View() == if old(stateOwnerHeld) then old(View()) else Claim(old(View()), claim)
    {
      if stateOwnerHeld {
        return Err("state_owner_already_held");
      }
      if claim.Granted? || claim == Uncertain(true) {
        journal, inFlight := journal + [Event.Claimed], None;
      }
      if claim.Uncertain? {
        return Err("state_owner_claim_uncertain");
      }
      if claim.Busy? {
        return Ok(false);
      }
      stateOwnerHeld := true;
      tradeState, pendingFunds, cashBalanceObservation := None, [], map[];
      admitted := false;
      r := Ok(true);
    }

    /** `release_runtime_state_owner` */
    method ReleaseStateOwner(released: bool, acked: bool) returns (r: Result<bool>)
      modifies this
      ensures (View(), r) == ReleaseOwner(old(View()), released, acked)
    {
      if !stateOwnerHeld {
        return Err("state_owner_required");
      }
      if pendingFunds != []
         || (tradeState.Some? && (tradeState.value.record.Unknown() || tradeState.value.record.FillPending?)) {
        return Ok(false);
      }
      if released {
        journal := journal + [Released];
      } else if !acked {
        inFlight := Some(Released);
      }
      stateOwnerHeld := false;
      if !(released && acked) {
        return Err("state_owner_release_uncertain");
      }
      r := Ok(true);
    }

    /** One operation of a cycle; `ok` is false when the source would raise. */
    method Execute(op: Op, maxRetries: nat) returns (ok: bool)
      modifies this
      ensures View() == Perform(old(View()), op)
    {
      hide CallOrder;
      hide PrepareAccounting;
      hide CallEarn;
      hide ReconcileCash;
      hide ReconcileFunding;
      hide WriteState;
      hide ForwardStep;
      hide ReleaseOwner;
      ok := true;
      match op
      case OpLoad =>
        if stateOwnerHeld && tradeState.None? {
          tradeState := Durable(journal);
        }
        ok := tradeState.Some?;
      case OpAdmit =>
        ok := tradeState.Some? && tradeState.value.record.Settled();
        if ok {
          admitted := true;
        }
      case OpEdit(edits) =>
        if tradeState.Some? {
          tradeState := Some(tradeState.value.(history := edits.history, dcaDates := edits.dcaDates,
                                               circuitBroken := edits.circuitBroken, snapshot := edits.snapshot));
        }
      case OpTrade(request, env, balances) =>
        if admitted {
          var response := CallClientForOrder(request, maxRetries, env);
          ok := response.Ok? && balances.Some?;
          if ok {
            var booked := PrepareAccountingState(balances.value);
            ok := booked.Ok?;
          }
        }
      case OpEarn(request, env) =>
        if admitted {
          var r := CallClientForEarn(request, env);
          ok := r.Ok?;
        }
      case OpCash(env) =>
        if admitted {
          var r := ReconcileCashEffects(env);
          ok := r.Ok?;
        }
      case OpFunding(settled, cash, save) =>
        var r := ReconcilePendingFunding(settled, cash, save);
        ok := r.Ok?;
      case OpSave(reason, interval, save) =>
        ok := tradeState.Some?;
        if ok {
          var r := RuntimeSetTradeState(tradeState.value, reason, interval, false, save);
          ok := r.Ok?;
        }
      case OpForward(closing, save) =>
        if admitted {
          var r := PersistForwardStep(closing, save);
          ok := r.Ok?;
        }
      case OpRelease(released, acked) =>
        if admitted {
          var r := ReleaseStateOwner(released, acked);
          ok := r.Ok?;
        }
    }

    /**
    `execute_strategy_cycle`: claim, load, recover a funding receipt, entry checks, the strategy's
    operations until one raises, and the release in `finally`: of a healthy cycle, or of one whose daily
    accounting (operation `daily`) failed before anything was sent or written. Whatever happens, the cycle
    is the run `steps`, so everything proved of every run holds of it; and when it lets go of the owner
    document the store is settled.
    */
    method ExecuteCycle(claim: ClaimOutcome, recovery: Op, plan: seq<Op>, daily: nat, forwardReason: bool,
                        maxRetries: nat, released: bool, acked: bool)
      returns (healthy: bool, letGo: bool, ghost steps: seq<Step>)
      requires Inv(View()) && !stateOwnerHeld && recovery.OpFunding?
      modifies this
      ensures Inv(View()) && View() == Run(old(View()), steps)
      ensures healthy ==> Extends(journal, old(journal) + [Event.Claimed])
      ensures letGo ==> journal != [] && journal[|journal| - 1] == Released && Quiet(journal)
      ensures letGo && !healthy ==> |journal| > |old(journal)| && NothingSent(journal, |old(journal)|)
    {
      hide Perform;
      hide Inv;
      healthy, letGo, steps := false, false, [];
      var start := |journal|;
      var owner := AcquireStateOwner(claim);
      if claim.Granted? || claim == Uncertain(true) {
        steps := [NewRun(config, claim.Granted?)];
        assert steps[..0] == [];
        AdvanceKeeps(old(View()), steps[0]);
      }
      if owner != Ok(true) {
        return;
      }
      assert journal[..|old(journal) + [Event.Claimed]|] == old(journal) + [Event.Claimed];
      var initiallySettled := false;
      var entry := [OpLoad, recovery, OpAdmit];
      for i := 0 to 3
        invariant Inv(View()) && View() == Run(old(View()), steps)
        invariant Extends(journal, old(journal) + [Event.Claimed])
      {
        steps := Extended(old(View()), steps, entry[i]);
        var ok := ExecuteNext(entry[i], maxRetries, old(journal) + [Event.Claimed]);
        if !ok {
          return;
        }
        if i == 0 {
          initiallySettled := tradeState.Some? && tradeState.value.record.Settled();
        }
      }
      healthy := true;
      var next, dailyStart: nat := 0, 0;
      while next < |plan| && healthy
        invariant 0 <= next <= |plan|
        invariant Inv(View()) && View() == Run(old(View()), steps)
        invariant Extends(journal, old(journal) + [Event.Claimed])
      {
        if next == daily {
          dailyStart := |journal|;
        }
        steps := Extended(old(View()), steps, plan[next]);
        healthy := ExecuteNext(plan[next], maxRetries, old(journal) + [Event.Claimed]);
        next := next + 1;
      }
      var pureDailyFailure :=
        && !healthy && next == daily + 1 && forwardReason && initiallySettled
        && tradeState.Some? && tradeState.value.record.Settled() && pendingFunds == []
        && NothingSent(journal, start) && NothingWritten(journal, dailyStart);
      if (healthy || pureDailyFailure) && stateOwnerHeld {
        var before := journal;
        steps := Extended(old(View()), steps, OpRelease(released, acked));
        ReleaseFindsQuiet(View(), released, acked);
        var ok := ExecuteNext(OpRelease(released, acked), maxRetries, old(journal) + [Event.Claimed]);
        letGo := journal != before;
      }
    }

    /** An operation that leaves the journal's beginning in place. */
    method ExecuteNext(op: Op, maxRetries: nat, ghost start: seq<Event>) returns (ok: bool)
      requires Inv(View()) && Extends(journal, start)
      modifies this
      ensures View() == Perform(old(View()), op)
      ensures Inv(View()) && Extends(journal, start)
    {
      hide Perform;
      hide Inv;
      PerformKeeps(View(), op);
      ok := Execute(op, maxRetries);
      ExtendsTransitive(start, old(journal), journal);
    }
  }

  /** How a claim ends: granted, refused because there is an owner, or unknown. */
  datatype ClaimOutcome = Granted | Busy | Uncertain(created: bool)

  function Claim(p: Process, claim: ClaimOutcome): Process {
    if claim.Granted? || claim == Uncertain(true) then Advance(p, NewRun(p.config, claim.Granted?)) else p
  }

  predicate NothingSent(events: seq<Event>, from: nat) {
    forall k :: from <= k < |events| ==> !events[k].Posted?
  }

  predicate NothingWritten(events: seq<Event>, from: nat) {
    forall k :: from <= k < |events| ==> !events[k].Committed?
  }

  /** One more operation at the end of a run: what it leads to, and that it keeps the invariant. */
  lemma Extended(start: Process, steps: seq<Step>, op: Op) returns (longer: seq<Step>)
    requires Inv(Run(start, steps))
    ensures longer == steps + [Do(op)]
    ensures Run(start, longer) == Perform(Run(start, steps), op)
    ensures Inv(Run(start, longer))
    ensures Extends(Run(start, longer).events, Run(start, steps).events)
  {
    hide Perform;
    longer := steps + [Do(op)];
    OneMoreStep(start, steps, Do(op));
    AdvanceKeeps(Run(start, steps), Do(op));
  }
}

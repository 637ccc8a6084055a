/**
What the broker says decides. First what one order or Earn call makes of the answer it gets; then, for every
history of runs in which the broker's final answers are true, that no execution is ever lost: a request that
was executed is recorded as open, waiting to be booked, or booked, and nothing else is ever booked.
*/
module ExecutedOrders {
  import opened Outcomes
  import opened OrderProtocol
  import opened OrderSafety

  // ---- The truth ------------------------------------------------------------------------------------

  /** What an order was executed for. */
  datatype Execution = Execution(side: Side, quantity: int, quote: int)

  /** What became of each request in the end: the execution of an order, if there was any, and Earn movements. */
  datatype Broker = Broker(executed: Identity -> Option<Execution>, moved: Identity -> bool)

  /** The fill is of this execution; how it is told apart into parts depends on the answer. */
  predicate IsOf(fill: KnownFill, execution: Option<Execution>) {
    execution.Some? && fill.side.Some? && execution.value == Execution(fill.side.value, fill.executed, fill.quote)
  }

  /** An answer about a finished order tells what was executed. */
  predicate HonestAnswer(broker: Broker, answer: Option<OrderResponse>) {
    answer.Some? && answer.value.identity.Some? ==>
      var r, id := answer.value, answer.value.identity.value;
      && (r.status.Filled? ==> IsOf(r.fill, broker.executed(id)))
      && (r.status.FailedStatus? ==> (r.nothingExecuted <==> broker.executed(id).None?))
  }

  predicate HonestOp(broker: Broker, p: Process, op: Op) {
    match op
    case OpTrade(_, env, _) => HonestAnswer(broker, env.reply) && HonestAnswer(broker, env.query)
    case OpEarn(request, env) => env.settled ==> broker.moved(request.identity)
    case OpFunding(settled, _, _) =>
      settled && p.memory.Some? && p.memory.value.record.UnknownEarn? ==>
        broker.moved(p.memory.value.record.identity)
    case _ => true
  }

  predicate HonestStep(broker: Broker, p: Process, step: Step) {
    match step
    case Do(op) => HonestOp(broker, p, op)
    case CrashDuring(op, _, _) => HonestOp(broker, p, op)
    case _ => true
  }

  predicate HonestRun(broker: Broker, p: Process, steps: seq<Step>) {
    steps != [] ==>
      var n := |steps| - 1;
      HonestRun(broker, p, steps[..n]) && HonestStep(broker, Run(p, steps[..n]), steps[n])
  }

  // ---- What the journal must not contradict ---------------------------------------------------------

  /** A record of unknown outcome is left only for what really happened. */
  predicate Follows(broker: Broker, before: Record, after: Record) {
    match before
    case UnknownOrder(id, symbol) =>
      || after == before
      || (after.Terminal? && broker.executed(id).None?)
      || (after.FillPending? && after.symbol == symbol && IsOf(after.fill, broker.executed(id)))
    case UnknownEarn(id, _, _) =>
      || (after.UnknownEarn? && after.identity == id)
      || (after.Terminal? && broker.moved(id))
    case _ => true
  }

  predicate TruthfulNext(broker: Broker, before: seq<Event>, e: Event) {
    e.Committed? && Durable(before).Some? ==> Follows(broker, Durable(before).value.record, e.ledger.record)
  }

  predicate Truthful(broker: Broker, events: seq<Event>) {
    events != [] ==>
      var n := |events| - 1;
      Truthful(broker, events[..n]) && TruthfulNext(broker, events[..n], events[n])
  }

  ghost predicate Told(broker: Broker, p: Process) {
    && Inv(p) && Truthful(broker, p.events)
    && (p.inFlight.Some? ==> TruthfulNext(broker, p.events, p.inFlight.value))
  }

  lemma GrowTruthful(broker: Broker, events: seq<Event>, e: Event)
    ensures Truthful(broker, events + [e]) <==> Truthful(broker, events) && TruthfulNext(broker, events, e)
  {
    assert (events + [e])[..|events + [e]| - 1] == events;
  }

  lemma {:induction false} PrefixIsTruthful(broker: Broker, events: seq<Event>, n: nat)
    requires n <= |events| && Truthful(broker, events)
    ensures Truthful(broker, events[..n])
  {
    if n < |events| {
      PrefixIsTruthful(broker, events[..|events| - 1], n);
      assert events[..|events| - 1][..n] == events[..n];
    } else {
      assert events[..n] == events;
    }
  }

  // ---- Operations keep it ---------------------------------------------------------------------------

  /** What follows from the record in memory follows from the durable one: they differ only by a booking. */
  lemma MemoryFollows(broker: Broker, p: Process, record: Record)
    requires Inv(p) && p.held && p.memory.Some? && Follows(broker, p.memory.value.record, record)
    ensures Follows(broker, Durable(p.events).value.record, record)
  {
    hide Safe;
    hide Allowed;
    hide Durable;
    hide Bookable;
    hide AddLegs;
  }

  lemma PersistTells(broker: Broker, p: Process, ledger: Ledger, forward: bool, outcome: SaveOutcome)
    requires Told(broker, p) && p.held && p.memory.Some? && Follows(broker, p.memory.value.record, ledger.record)
    ensures var after := Persist(p, ledger, forward, outcome);
            && Truthful(broker, after.events)
            && (after.inFlight.Some? ==> TruthfulNext(broker, after.events, after.inFlight.value))
  {
    MemoryFollows(broker, p, ledger.record);
    GrowTruthful(broker, p.events, Committed(ledger, forward));
    hide Truthful;
    hide Follows;
    hide Safe;
    hide Allowed;
    hide Durable;
  }

  lemma RecordTells(broker: Broker, p: Process, record: Record, outcome: SaveOutcome)
    requires Told(broker, p) && p.held && p.memory.Some? && Follows(broker, p.memory.value.record, record)
    requires MayFollow(p.memory.value.record, record) && !p.memory.value.record.FillPending?
    ensures var after := PersistRecord(p, record, outcome);
            && Told(broker, after)
            && (outcome.Acked? ==> after.held && after.memory == Some(p.memory.value.(record := record)))
  {
    PersistRecordKeeps(p, record, outcome);
    PersistTells(broker, p, p.memory.value.(record := record), false, outcome);
    hide Inv;
    hide Truthful;
    hide TruthfulNext;
  }

  lemma QuietTells(broker: Broker, p: Process, e: Event)
    requires Told(broker, p) && p.inFlight.None? && !e.Committed?
    ensures Truthful(broker, Log(p, e).events)
  {
    GrowTruthful(broker, p.events, e);
    hide Inv;
    hide Truthful;
  }

  lemma CompleteTells(broker: Broker, p: Process, response: OrderResponse, save: SaveOutcome)
    requires Told(broker, p) && p.held && p.memory.Some? && p.memory.value.record.UnknownOrder?
    requires response.identity == Some(p.memory.value.record.identity) && HonestAnswer(broker, Some(response))
    ensures Truthful(broker, CompleteOrder(p, response, save).0.events)
    ensures var after := CompleteOrder(p, response, save).0;
            after.inFlight.Some? ==> TruthfulNext(broker, after.events, after.inFlight.value)
  {
    hide Inv;
    hide Truthful;
    hide TruthfulNext;
    var previous := p.memory.value.record;
    if response.status.FailedStatus? && response.nothingExecuted {
      RecordTells(broker, p, Terminal, save);
    } else if response.status.Filled? {
      RecordTells(broker, p, FillPending(previous.identity, previous.symbol, response.fill), save);
    }
  }

  /** The journal and what is in flight, without the rest of the invariant. */
  ghost predicate Tells(broker: Broker, p: Process) {
    && Truthful(broker, p.events)
    && (p.inFlight.Some? ==> TruthfulNext(broker, p.events, p.inFlight.value))
  }

  lemma ReadTells(broker: Broker, p: Process)
    requires Told(broker, p) && p.held
    ensures Told(broker, Log(p, Read))
  {
    LogKeeps(p, Read);
    QuietTells(broker, p, Read);
    hide Inv;
    hide Truthful;
    hide TruthfulNext;
  }

  lemma PostTells(broker: Broker, p: Process, identity: Identity, target: Target, item: Pending)
    requires Told(broker, p) && p.held && p.memory.Some? && Durable(p.events) == p.memory
    requires Covers(p.memory.value.record, identity, target) && OpenPosts(p.events) == 0
    ensures Told(broker, Log(p.(pending := p.pending + [item]), Posted(identity, target)))
  {
    PostKeeps(p, identity, target, item);
    QuietTells(broker, p, Posted(identity, target));
    hide Inv;
    hide Truthful;
    hide TruthfulNext;
  }

  lemma AwaitTells(broker: Broker, sent: Process, request: OrderRequest, env: OrderEnv)
    requires Told(broker, sent) && sent.held && sent.memory.Some? && sent.memory.value.record.UnknownOrder?
    requires sent.memory.value.record.identity == request.identity
    requires HonestAnswer(broker, env.reply) && HonestAnswer(broker, env.query)
    ensures Tells(broker, AwaitOrder(sent, request, env).0)
  {
    hide HonestAnswer;
    hide CompleteOrder;
    ReadTells(broker, sent);
    hide Inv;
    hide Truthful;
    hide TruthfulNext;
    if env.reply.Some? {
      if Matches(env.reply.value, request) {
        CompleteTells(broker, sent, env.reply.value, env.completeSave);
      }
    } else if env.query.Some? && Matches(env.query.value, request) {
      CompleteTells(broker, Log(sent, Read), env.query.value, env.completeSave);
    }
  }

  lemma SubmitOrderTells(broker: Broker, p: Process, request: OrderRequest, env: OrderEnv)
    requires Told(broker, p) && p.held && p.memory.Some? && p.memory.value.record.Reserved?
    requires HonestAnswer(broker, env.reply) && HonestAnswer(broker, env.query)
    ensures Tells(broker, SubmitOrder(p, request, env).0)
  {
    hide HonestAnswer;
    hide AwaitOrder;
    SettledMemoryIsQuiet(p);
    var unknown := UnknownOrder(request.identity, request.symbol);
    RecordTells(broker, p, unknown, env.unknownSave);
    PersistRecordKeeps(p, unknown, env.unknownSave);
    hide Inv;
    hide Truthful;
    hide TruthfulNext;
    var reserved := PersistRecord(p, unknown, env.unknownSave);
    if env.unknownSave.Acked? && ValidRequest(request) {
      var item := Pending(false, ActionOf(request.side), Some(request.symbol),
                          if request.symbol == p.config.fuelSymbol then Some(p.config.fuelAsset) else None);
      PostTells(broker, reserved, request.identity, OrderOn(request.symbol), item);
      AwaitTells(broker, Log(reserved.(pending := reserved.pending + [item]),
                             Posted(request.identity, OrderOn(request.symbol))), request, env);
    }
  }

  lemma CallOrderTells(broker: Broker, p: Process, request: OrderRequest, env: OrderEnv)
    requires Told(broker, p) && HonestAnswer(broker, env.reply) && HonestAnswer(broker, env.query)
    ensures Tells(broker, CallOrder(p, request, env).0)
  {
    hide HonestAnswer;
    hide SubmitOrder;
    hide CompleteOrder;
    hide Truthful;
    hide TruthfulNext;
    if p.held && p.memory.Some? {
      match p.memory.value.record
      case UnknownOrder(_, _) =>
        ReadTells(broker, p);
        var read := Log(p, Read);
        var noted := if read.pending != [] then read
                     else read.(pending := [Pending(false, ActionOf(request.side), Some(request.symbol), None)]);
        assert Told(broker, noted);
        if request.identity == p.memory.value.record.identity && env.query.Some? && Matches(env.query.value, request) {
          CompleteTells(broker, noted, env.query.value, env.completeSave);
        }
      case Terminal =>
        RecordTells(broker, p, Reserved, env.reserveSave);
        if env.reserveSave.Acked? {
          SubmitOrderTells(broker, PersistRecord(p, Reserved, env.reserveSave), request, env);
        }
      case Reserved => SubmitOrderTells(broker, p, request, env);
      case _ =>
    }
  }

  lemma SettleEarnTells(broker: Broker, sent: Process, known: Record, env: EarnEnv)
    requires Told(broker, sent) && sent.held && sent.memory.Some? && env.successId.Some?
    requires MayFollow(sent.memory.value.record, known) && known.UnknownEarn? && known.receipt.Some?
    requires Follows(broker, sent.memory.value.record, known) && (env.settled ==> broker.moved(known.identity))
    ensures Tells(broker, SettleEarn(sent, known, env).0)
  {
    RecordTells(broker, sent, known, env.receiptSave);
    hide Inv;
    hide Truthful;
    hide TruthfulNext;
    var kept := PersistRecord(sent, known, env.receiptSave);
    if env.receiptSave.Acked? {
      ReadTells(broker, kept);
      if env.settled {
        RecordTells(broker, Log(kept, Read), Terminal, env.terminalSave);
      }
    }
  }

  lemma SubmitEarnTells(broker: Broker, p: Process, request: EarnRequest, env: EarnEnv)
    requires Told(broker, p) && p.held && p.memory.Some? && p.memory.value.record.Reserved?
    requires env.settled ==> broker.moved(request.identity)
    ensures Tells(broker, SubmitEarn(p, request, env).0)
  {
    hide SettleEarn;
    ReadTells(broker, p);
    var preflight, unknown := Log(p, Read), UnknownEarn(request.identity, request.earn, None);
    SettledMemoryIsQuiet(preflight);
    RecordTells(broker, preflight, unknown, env.unknownSave);
    PersistRecordKeeps(preflight, unknown, env.unknownSave);
    hide Inv;
    hide Truthful;
    hide TruthfulNext;
    var reserved := PersistRecord(preflight, unknown, env.unknownSave);
    if env.spotBefore.Some? && env.unknownSave.Acked? {
      var item := Pending(false, "sell", None, Some(request.asset));
      PostTells(broker, reserved, request.identity, EarnCall(request.earn), item);
      var sent := Log(reserved.(pending := reserved.pending + [item]),
                      Posted(request.identity, EarnCall(request.earn)));
      if env.successId.Some? {
        SettleEarnTells(broker, sent, unknown.(receipt := Some(Receipt(
          env.successId.value, request.asset, request.productId, request.amount, env.spotBefore.value))), env);
      }
    }
  }

  lemma CallEarnTells(broker: Broker, p: Process, request: EarnRequest, env: EarnEnv)
    requires Told(broker, p) && (env.settled ==> broker.moved(request.identity))
    ensures Tells(broker, CallEarn(p, request, env).0)
  {
    hide SubmitEarn;
    hide Truthful;
    hide TruthfulNext;
    if p.held && p.memory.Some? {
      match p.memory.value.record
      case Terminal =>
        RecordTells(broker, p, Reserved, env.reserveSave);
        if env.reserveSave.Acked? {
          SubmitEarnTells(broker, PersistRecord(p, Reserved, env.reserveSave), request, env);
        }
      case Reserved => SubmitEarnTells(broker, p, request, env);
      case _ =>
    }
  }

  lemma TradeTells(broker: Broker, p: Process, request: OrderRequest, env: OrderEnv, balances: Option<map<Asset, int>>)
    requires Told(broker, p) && HonestAnswer(broker, env.reply) && HonestAnswer(broker, env.query)
    ensures Tells(broker, Trade(p, request, env, balances))
  {
    CallOrderTells(broker, p, request, env);
    hide CallOrder;
    hide AccountKnownFill;
    hide Inv;
    hide Truthful;
    hide TruthfulNext;
    hide HonestAnswer;
  }

  /** A cash reconciliation reads, and writes nothing. */
  lemma CashTells(broker: Broker, p: Process, cash: CashEnv)
    requires Told(broker, p)
    ensures Tells(broker, ReconcileCash(p, cash).0)
  {
    hide AccountKnownFill;
    hide KnownFillIsComplete;
    if p.held {
      ReadTells(broker, p);
    }
    hide Inv;
    hide Truthful;
    hide TruthfulNext;
  }

  lemma FundingTells(broker: Broker, p: Process, settled: bool, cash: CashEnv, save: SaveOutcome)
    requires Told(broker, p) && HonestOp(broker, p, OpFunding(settled, cash, save))
    ensures Tells(broker, ReconcileFunding(p, settled, cash, save).0)
  {
    hide ReconcileCash;
    hide FinishFunding;
    hide Truthful;
    hide TruthfulNext;
    if p.held && p.memory.Some? && p.memory.value.record.UnknownEarn? && p.memory.value.record.receipt.Some?
       && p.memory.value.snapshot.Some? {
      ReadTells(broker, p);
      if settled {
        var item := Pending(true, "funding", None, Some(p.memory.value.record.receipt.value.asset));
        var noted := Log(p, Read).(pending := p.pending + [item]);
        assert Told(broker, noted);
        CashKeeps(noted, cash);
        CashTells(broker, noted, cash);
        var (checked, outcome) := ReconcileCash(noted, cash);
        if outcome.Ok? {
          FinishTells(broker, checked, p.memory.value.snapshot.value, item, save);
        }
      }
    }
  }

  lemma FinishTells(broker: Broker, p: Process, opening: map<Asset, int>, item: Pending, save: SaveOutcome)
    requires Told(broker, p) && p.held && p.memory.Some? && p.memory.value.record.UnknownEarn?
    requires broker.moved(p.memory.value.record.identity)
    ensures Tells(broker, FinishFunding(p, opening, item, save).0)
  {
    RecordTells(broker, p.(memory := Some(p.memory.value.(snapshot := Some(opening)))), Terminal, save);
    hide Inv;
    hide Truthful;
    hide TruthfulNext;
  }

  /** Writes of the working ledger leave its record as it is. */
  lemma WriteTells(broker: Broker, p: Process, ledger: Ledger, reason: string, interval: bool, forward: bool,
                   save: SaveOutcome)
    requires Told(broker, p) && p.memory.Some? && ledger.record == p.memory.value.record
    ensures Tells(broker, WriteState(p, ledger, reason, interval, forward, save).0)
  {
    if p.held {
      PersistTells(broker, p, ledger, forward, save);
    }
    hide Inv;
    hide Truthful;
    hide TruthfulNext;
  }

  lemma PerformTells(broker: Broker, p: Process, op: Op)
    requires Told(broker, p) && HonestOp(broker, p, op)
    ensures Told(broker, Perform(p, op))
  {
    PerformKeeps(p, op);
    hide Trade;
    hide CallEarn;
    hide ReconcileCash;
    hide ReconcileFunding;
    hide WriteState;
    hide HonestAnswer;
    hide Truthful;
    hide TruthfulNext;
    match op
    case OpTrade(request, env, balances) => TradeTells(broker, p, request, env, balances);
    case OpEarn(request, env) => CallEarnTells(broker, p, request, env);
    case OpCash(env) => CashTells(broker, p, env);
    case OpFunding(settled, cash, save) => FundingTells(broker, p, settled, cash, save);
    case OpSave(reason, interval, save) =>
      if p.memory.Some? {
        WriteTells(broker, p, p.memory.value, reason, interval, false, save);
      }
    case OpForward(closing, save) =>
      if p.memory.Some? && p.memory.value.assets.Some? {
        var nets := map a | a in p.memory.value.assets.value :: 0;
        WriteTells(broker, p, p.memory.value.(nets := nets, snapshot := Some(closing)), FORWARD_REASON,
                   p.config.receipts, true, save);
      }
    case OpRelease(_, _) => ReleaseTells(broker, p, op.released, op.acked);
    case OpLoad =>
    case OpAdmit =>
    case OpEdit(_) =>
  }

  lemma ReleaseTells(broker: Broker, p: Process, released: bool, acked: bool)
    requires Told(broker, p)
    ensures Tells(broker, ReleaseOwner(p, released, acked).0)
  {
    if p.inFlight.None? {
      QuietTells(broker, p, Released);
    }
    hide Inv;
    hide Truthful;
  }

  lemma CrashTells(broker: Broker, p: Process, op: Op, kept: nat, sending: bool)
    requires Told(broker, p) && HonestOp(broker, p, op)
    ensures Told(broker, Advance(p, CrashDuring(op, kept, sending)))
  {
    CrashDuringKeeps(p, op, kept, sending);
    PerformTells(broker, p, op);
    hide Perform;
    hide Inv;
    hide Truthful;
    hide TruthfulNext;
    hide HonestOp;
    var all, n := Perform(p, op).events, |p.events| + kept;
    if n < |all| {
      CutTells(broker, all, n);
    }
  }

  lemma CutTells(broker: Broker, all: seq<Event>, n: nat)
    requires Truthful(broker, all) && n < |all|
    ensures Truthful(broker, all[..n]) && TruthfulNext(broker, all[..n], all[n])
  {
    PrefixIsTruthful(broker, all, n + 1);
    assert all[..n + 1][..n] == all[..n];
    hide TruthfulNext;
  }

  lemma AdvanceTells(broker: Broker, p: Process, step: Step)
    requires Told(broker, p) && HonestStep(broker, p, step)
    ensures Told(broker, Advance(p, step))
  {
    AdvanceKeeps(p, step);
    hide Perform;
    match step
    case Do(op) => PerformTells(broker, p, op);
    case CrashDuring(op, kept, sending) => CrashTells(broker, p, op, kept, sending);
    case NewRun(_, _) => GrowTruthful(broker, p.events, Claimed);
    case LateCommit =>
      if p.inFlight.Some? {
        GrowTruthful(broker, p.events, p.inFlight.value);
      }
  }

  /** Every run in which the broker's answers are true leaves a truthful journal. */
  lemma {:induction false} EveryRunIsTruthful(broker: Broker, ledger: Ledger, config: Config, steps: seq<Step>)
    requires HonestRun(broker, Initial(ledger, config), steps)
    ensures Told(broker, Run(Initial(ledger, config), steps))
  {
    hide Inv;
    if steps == [] {
      EveryRunIsSafe(ledger, config, steps);
      GrowTruthful(broker, [], Installed(ledger));
      assert Truthful(broker, []) && [] + [Installed(ledger)] == Initial(ledger, config).events;
    } else {
      var n := |steps| - 1;
      EveryRunIsTruthful(broker, ledger, config, steps[..n]);
      AdvanceTells(broker, Run(Initial(ledger, config), steps[..n]), steps[n]);
    }
  }

  // ---- Nothing is lost, nothing is invented ---------------------------------------------------------

  /** Where an executed order is accounted for: still open, waiting to be booked, or booked. */
  predicate OrderIsOpen(events: seq<Event>, id: Identity, symbol: string) {
    Durable(events).Some? && Durable(events).value.record == UnknownOrder(id, symbol)
  }

  /** One of the fills is of this execution, in this symbol. */
  ghost predicate IsAmong(fills: seq<Booking>, symbol: string, execution: Option<Execution>) {
    exists b :: b in fills && b.symbol == symbol && IsOf(b.fill, execution)
  }

  lemma {:induction false} ExecutionIsEntered(broker: Broker, events: seq<Event>, i: nat, id: Identity, symbol: string)
    requires Safe(events) && Truthful(broker, events) && i < |events| && events[i] == Posted(id, OrderOn(symbol))
    requires broker.executed(id).Some?
    ensures OrderIsOpen(events, id, symbol) || IsAmong(EnteredFills(events), symbol, broker.executed(id))
    decreases |events|
  {
    var n := |events| - 1;
    var before, last := events[..n], events[n];
    hide NetsAreSettledLegs;
    hide IsOf;
    if i < n {
      ExecutionIsEntered(broker, before, i, id, symbol);
      if OrderIsOpen(before, id, symbol) && last.Committed? && last.ledger.record.FillPending? {
        assert Booking(last.ledger.record.symbol, last.ledger.record.fill) in EnteredFills(events);
      }
    }
  }

  /**
  In every run in which the broker's final answers are true, an order that was sent and executed is open, or
  its fill is waiting to be booked, or it has been booked; never is it forgotten.
  */
  lemma NoExecutionIsLost(broker: Broker, ledger: Ledger, config: Config, steps: seq<Step>, i: nat)
    requires HonestRun(broker, Initial(ledger, config), steps) && i < |RunJournal(ledger, config, steps)|
    requires var e := RunJournal(ledger, config, steps)[i]; e.Posted? && broker.executed(e.identity).Some?
    ensures var events := RunJournal(ledger, config, steps);
            match events[i].target
            case EarnCall(_) => true
            case OrderOn(symbol) =>
              var execution := broker.executed(events[i].identity);
              || OrderIsOpen(events, events[i].identity, symbol)
              || IsAmong(CurrentFill(events), symbol, execution) || IsAmong(LeftFills(events), symbol, execution)
  {
    var events := RunJournal(ledger, config, steps);
    EveryRunIsTruthful(broker, ledger, config, steps);
    if events[i].target.OrderOn? {
      ExecutionIsEntered(broker, events, i, events[i].identity, events[i].target.symbol);
      FillsAreConserved(events);
      AmongEither(LeftFills(events), CurrentFill(events), events[i].target.symbol, broker.executed(events[i].identity));
    }
  }

  lemma AmongEither(a: seq<Booking>, b: seq<Booking>, symbol: string, execution: Option<Execution>)
    ensures IsAmong(a + b, symbol, execution) ==> IsAmong(a, symbol, execution) || IsAmong(b, symbol, execution)
  {
  }

  /** Conversely every fill recorded after installation is of an order that the broker executed. */
  lemma {:induction false} NothingIsInvented(broker: Broker, events: seq<Event>, b: Booking)
    requires Safe(events) && Truthful(broker, events) && b in EnteredFills(events)
    ensures (exists id :: IsOf(b.fill, broker.executed(id))) || b in CurrentFill(events[..1])
  {
    var n := |events| - 1;
    var before, last := events[..n], events[n];
    hide NetsAreSettledLegs;
    hide IsOf;
    if n == 0 {
      assert events[..1] == events;
    } else {
      assert events[..1] == before[..1];
      if b in EnteredFills(before) {
        NothingIsInvented(broker, before, b);
      } else {
        assert last.Committed? && Durable(before).value.record.UnknownOrder?;
        assert IsOf(b.fill, broker.executed(Durable(before).value.record.identity));
      }
    }
  }

  /** And an Earn request that was sent is open until its movement is confirmed. */
  lemma {:induction false} EarnIsConfirmed(broker: Broker, events: seq<Event>, i: nat, id: Identity, earn: EarnMethod)
    requires Safe(events) && Truthful(broker, events) && i < |events| && events[i] == Posted(id, EarnCall(earn))
    ensures || broker.moved(id)
            || (Durable(events).Some? && Durable(events).value.record.UnknownEarn?
                && Durable(events).value.record.identity == id)
    decreases |events|
  {
    var n := |events| - 1;
    var before, last := events[..n], events[n];
    hide NetsAreSettledLegs;
    if i < n {
      EarnIsConfirmed(broker, before, i, id, earn);
    }
  }
}

/**
Safety of the submission protocol over every history: any sequence of runs, each with its own
configuration, of operations, lost replies, lost acknowledgements, crashes in the middle of an operation,
restarts, and commits or releases that take effect late.
*/
module OrderSafety {
  import opened Outcomes
  import opened OrderProtocol

  // ---- What a journal must satisfy -----------------------------------------------------------

  /** The record names this very request as submitted with unknown outcome. */
  predicate Covers(record: Record, identity: Identity, target: Target) {
    match target
    case OrderOn(symbol) => record == UnknownOrder(identity, symbol)
    case EarnCall(earn) => record == UnknownEarn(identity, earn, None)
  }

  /** The durable state machine of the order_submission record. */
  predicate MayFollow(before: Record, after: Record) {
    match before
    case Reserved => after.Reserved? || after.UnknownOrder? || (after.UnknownEarn? && after.receipt.None?)
    case Terminal => after.Terminal? || after.Reserved?
    case UnknownOrder(identity, symbol) =>
      || after == before || after.Terminal?
      || (after.FillPending? && after.identity == identity && after.symbol == symbol)
    case UnknownEarn(identity, earn, receipt) =>
      || after == before || after.Terminal?
      || (receipt.None? && after.UnknownEarn? && after.identity == identity && after.earn == earn
        && after.receipt.Some?)
    case FillPending(_, _, _) => after == before || after.Settled()
    case Malformed => after.Malformed?
  }

  datatype Booking = Booking(symbol: string, fill: KnownFill)

  predicate Countable(b: Booking) {
    QuotedInUsdt(b.symbol) && b.fill.side.Some?
  }

  /** Fills whose durable record left FILLED_ACCOUNTING_PENDING since the last forward step. */
  function SettledFills(events: seq<Event>): seq<Booking> {
    if events == [] then []
    else
      var before, last := events[..|events| - 1], events[|events| - 1];
      match last
      case Installed(_) => []
      case Committed(ledger, forward) => if forward then [] else SettledFills(before) + Leaving(before, ledger)
      case _ => SettledFills(before)
  }

  /** The fill that a commit takes out of FILLED_ACCOUNTING_PENDING, if any. */
  function Leaving(before: seq<Event>, ledger: Ledger): seq<Booking> {
    var d := Durable(before);
    if d.Some? && d.value.record.FillPending? && !ledger.record.FillPending? then
      [Booking(d.value.record.symbol, d.value.record.fill)]
    else []
  }

  /** Net changes at the last forward step (zero) or installation (as installed). */
  function OpeningNets(events: seq<Event>): map<Asset, int> {
    if events == [] then map[]
    else
      var last := events[|events| - 1];
      match last
      case Installed(ledger) => ledger.nets
      case Committed(ledger, forward) =>
        if !forward then OpeningNets(events[..|events| - 1])
        else if ledger.assets.Some? then map a | a in ledger.assets.value :: 0
        else map[]
      case _ => OpeningNets(events[..|events| - 1])
  }

  function SumLegs(bookings: seq<Booking>, a: Asset): int {
    if bookings == [] then 0
    else
      var n := |bookings| - 1;
      SumLegs(bookings[..n], a) + (if Countable(bookings[n]) then Leg(bookings[n].symbol, bookings[n].fill, a) else 0)
  }

  /** Every net change is its opening value plus the legs of the settled fills. */
  ghost predicate NetsAreSettledLegs(events: seq<Event>, ledger: Ledger) {
    && ledger.nets.Keys == OpeningNets(events).Keys
    && (forall b :: b in SettledFills(events) ==> Countable(b))
    && forall a :: a in ledger.nets ==> ledger.nets[a] == OpeningNets(events)[a] + SumLegs(SettledFills(events), a)
  }

  /** Fills recorded as FILLED_ACCOUNTING_PENDING, in order. */
  function EnteredFills(events: seq<Event>): seq<Booking> {
    if events == [] then []
    else
      var before, last := events[..|events| - 1], events[|events| - 1];
      EnteredFills(before)
      + (if (last.Committed? || last.Installed?) && last.ledger.record.FillPending? && CurrentFill(before) == [] then
           [Booking(last.ledger.record.symbol, last.ledger.record.fill)]
         else [])
  }

  /** Fills whose record left FILLED_ACCOUNTING_PENDING, in order, over the whole journal. */
  function LeftFills(events: seq<Event>): seq<Booking> {
    if events == [] then []
    else
      var before, last := events[..|events| - 1], events[|events| - 1];
      LeftFills(before) + (if last.Committed? then Leaving(before, last.ledger) else [])
  }

  function CurrentFill(events: seq<Event>): seq<Booking> {
    var d := Durable(events);
    if d.Some? && d.value.record.FillPending? then [Booking(d.value.record.symbol, d.value.record.fill)] else []
  }

  /**
  The store is settled: the durable record is RESERVED or TERMINAL, no request is open, and every fill
  ever recorded has been booked in the durable ledger.
  */
  predicate Quiet(events: seq<Event>) {
    && Durable(events).Some? && Durable(events).value.record.Settled()
    && OpenPosts(events) == 0
    && EnteredFills(events) == LeftFills(events)
  }

  /** One journal entry on top of a journal. */
  ghost predicate Allowed(before: seq<Event>, e: Event) {
    match e
    case Installed(_) => before == []
    case Committed(ledger, forward) =>
      && Durable(before).Some?
      && MayFollow(Durable(before).value.record, ledger.record)
      && ledger.assets == Durable(before).value.assets
      && (forward ==> ledger.record.Settled())
      && (ledger.assets.Some? ==> NetsAreSettledLegs(before + [e], ledger))
    case Posted(identity, target) =>
      && Durable(before).Some? && Covers(Durable(before).value.record, identity, target)
      && OpenPosts(before) == 0
    case Released => Quiet(before)
    case _ => true
  }

  ghost predicate Safe(events: seq<Event>) {
    events != [] ==> Safe(events[..|events| - 1]) && Allowed(events[..|events| - 1], events[|events| - 1])
  }

  // ---- The link between memory and store ------------------------------------------------------

  /** Memory may run ahead of the store in one way only: the pending fill is booked but not written. */
  predicate Ahead(memory: Ledger, durable: Ledger) {
    && durable.record.FillPending? && memory.record.Terminal?
    && (durable.assets.Some? ==>
          Bookable(durable) && memory.nets == AddLegs(durable.nets, durable.record.symbol, durable.record.fill))
  }

  predicate InStep(memory: Ledger, durable: Ledger) {
    memory.record == durable.record && (durable.assets.Some? ==> memory.nets == durable.nets)
  }

  predicate Linked(p: Process, memory: Ledger, durable: Ledger) {
    && memory.assets == durable.assets
    && (InStep(memory, durable) || (Ahead(memory, durable) && p.pending != []))
  }

  ghost predicate Inv(p: Process) {
    && Safe(p.events) && Durable(p.events).Some?
    && (p.held && p.memory.Some? ==> Linked(p, p.memory.value, Durable(p.events).value))
    && (p.held && p.admitted ==> p.memory.Some? && !p.memory.value.record.Malformed?)
    && (p.inFlight.Some? ==>
          !p.held && (p.inFlight.value.Committed? || p.inFlight.value.Released?) && Allowed(p.events, p.inFlight.value))
  }

  // ---- Journals -------------------------------------------------------------------------------

  lemma Grow(events: seq<Event>, e: Event)
    ensures (events + [e])[..|events|] == events
    ensures Safe(events + [e]) <==> Safe(events) && Allowed(events, e)
  {
    assert (events + [e])[..|events + [e]| - 1] == events;
  }

  predicate Extends(later: seq<Event>, earlier: seq<Event>) {
    |earlier| <= |later| && later[..|earlier|] == earlier
  }

  lemma ExtendsTransitive(a: seq<Event>, b: seq<Event>, c: seq<Event>)
    requires Extends(b, a) && Extends(c, b)
    ensures Extends(c, a)
  {
    assert c[..|a|] == c[..|b|][..|a|];
  }

  lemma {:induction false} PrefixIsSafe(events: seq<Event>, n: nat)
    requires n <= |events| && Safe(events)
    ensures Safe(events[..n])
  {
    if n < |events| {
      PrefixIsSafe(events[..|events| - 1], n);
      assert events[..|events| - 1][..n] == events[..n];
    } else {
      assert events[..n] == events;
    }
  }

  lemma {:induction false} DurableOfPrefix(events: seq<Event>, n: nat)
    requires n <= |events| && Durable(events[..n]).Some?
    ensures Durable(events).Some?
  {
    if n < |events| {
      assert events[..|events| - 1][..n] == events[..n];
      DurableOfPrefix(events[..|events| - 1], n);
    } else {
      assert events[..n] == events;
    }
  }

  /** What holds of every safe journal: one open request at most, and the books of the durable ledger. */
  lemma {:induction false} SafeFacts(events: seq<Event>)
    requires Safe(events)
    ensures OpenPosts(events) <= 1
    ensures OpenPosts(events) > 0 ==> Durable(events).Some? && Durable(events).value.record.Unknown()
    ensures Durable(events).Some? && Durable(events).value.assets.Some? ==>
              NetsAreSettledLegs(events, Durable(events).value)
  {
    if events != [] {
      var before, last := events[..|events| - 1], events[|events| - 1];
      SafeFacts(before);
      assert before + [last] == events;
      if last.Committed? && last.ledger.record.Unknown() && OpenPosts(before) > 0 {
        assert MayFollow(Durable(before).value.record, last.ledger.record);
      }
    }
  }

  // ---- Writes ---------------------------------------------------------------------------------

  /** Any ledger derived from a linked memory may be committed. */
  lemma CommitFrom(p: Process, ledger: Ledger)
    requires Inv(p) && p.held && p.memory.Some?
    requires var m := p.memory.value;
             && ledger.assets == m.assets && ledger.nets == m.nets
             && MayFollow(m.record, ledger.record)
             && (m.record.FillPending? ==> ledger.record == m.record)
    ensures Allowed(p.events, Committed(ledger, false))
  {
    var m, d, e := p.memory.value, Durable(p.events).value, Committed(ledger, false);
    SafeFacts(p.events);
    Grow(p.events, e);
    var after := p.events + [e];
    assert MayFollow(d.record, ledger.record);
    if d.assets.Some? {
      assert OpeningNets(after) == OpeningNets(p.events);
      if InStep(m, d) {
        assert Leaving(p.events, ledger) == [];
        assert SettledFills(after) == SettledFills(p.events);
      } else {
        BookedNets(p.events, d, ledger);
      }
    }
  }

  lemma BookedNets(events: seq<Event>, d: Ledger, ledger: Ledger)
    requires Durable(events) == Some(d) && Bookable(d) && ledger.record.Settled()
    requires NetsAreSettledLegs(events, d)
    requires ledger.nets == AddLegs(d.nets, d.record.symbol, d.record.fill)
    ensures NetsAreSettledLegs(events + [Committed(ledger, false)], ledger)
  {
    var after := events + [Committed(ledger, false)];
    var booking := Booking(d.record.symbol, d.record.fill);
    Grow(events, Committed(ledger, false));
    assert after[|after| - 1] == Committed(ledger, false);
    assert SettledFills(after) == SettledFills(events) + [booking];
    assert OpeningNets(after) == OpeningNets(events);
    OneMoreBooking(SettledFills(events), booking);
    forall a | a in ledger.nets
      ensures ledger.nets[a] == OpeningNets(after)[a] + SumLegs(SettledFills(after), a)
    {
      assert ledger.nets[a] == d.nets[a] + Leg(d.record.symbol, d.record.fill, a);
    }
  }

  lemma OneMoreBooking(bookings: seq<Booking>, booking: Booking)
    requires Countable(booking) && forall b :: b in bookings ==> Countable(b)
    ensures forall b :: b in bookings + [booking] ==> Countable(b)
    ensures forall a: Asset ::
            SumLegs(bookings + [booking], a) == SumLegs(bookings, a) + Leg(booking.symbol, booking.fill, a)
  {
    assert (bookings + [booking])[..|bookings|] == bookings;
  }

  lemma ForwardNets(p: Process, ledger: Ledger)
    requires Inv(p) && p.held && p.memory.Some? && p.memory.value.assets.Some? && p.memory.value.record.Settled()
    requires ledger.record == p.memory.value.record && ledger.assets == p.memory.value.assets
    requires ledger.nets == map a | a in ledger.assets.value :: 0
    ensures Allowed(p.events, Committed(ledger, true))
  {
    var e := Committed(ledger, true);
    Grow(p.events, e);
    assert SettledFills(p.events + [e]) == [];
    assert OpeningNets(p.events + [e]) == ledger.nets;
  }

  /** A save that may be lost or unacknowledged; acknowledged, store and saved ledger agree. */
  lemma PersistKeeps(p: Process, ledger: Ledger, forward: bool, outcome: SaveOutcome)
    requires Inv(p) && p.held && Allowed(p.events, Committed(ledger, forward))
    ensures var after := Persist(p, ledger, forward, outcome);
            && Safe(after.events) && Durable(after.events).Some? && Extends(after.events, p.events)
            && (outcome.Acked? ==> after.held && after.inFlight.None? && Durable(after.events) == Some(ledger))
            && (outcome.Acked? ==>
              OpenPosts(after.events) == if ledger.record.Unknown() then OpenPosts(p.events) else 0)
            && (!outcome.Acked? ==> Inv(after))
  {
    CommitFacts(p.events, ledger, forward);
    hide Safe;
    hide Allowed;
    hide Durable;
    hide OpenPosts;
    hide Linked;
  }

  lemma CommitFacts(events: seq<Event>, ledger: Ledger, forward: bool)
    requires Safe(events) && Allowed(events, Committed(ledger, forward))
    ensures var after := events + [Committed(ledger, forward)];
            && Safe(after) && Extends(after, events) && Durable(after) == Some(ledger)
            && OpenPosts(after) == if ledger.record.Unknown() then OpenPosts(events) else 0
  {
    Grow(events, Committed(ledger, forward));
    hide Allowed;
    hide Safe;
  }

  lemma PersistRecordKeeps(p: Process, record: Record, outcome: SaveOutcome)
    requires Inv(p) && p.held && p.memory.Some?
    requires MayFollow(p.memory.value.record, record) && !p.memory.value.record.FillPending?
    ensures var after := PersistRecord(p, record, outcome);
            && Inv(after) && Extends(after.events, p.events)
            && (outcome.Acked? ==>
                  && after.held && after.memory == Some(p.memory.value.(record := record))
                  && Durable(after.events) == after.memory
                  && OpenPosts(after.events) == if record.Unknown() then OpenPosts(p.events) else 0)
  {
    hide Allowed;
    hide Safe;
    var ledger := p.memory.value.(record := record);
    CommitFrom(p, ledger);
    PersistKeeps(p, ledger, false, outcome);
  }

  lemma LogKeeps(p: Process, e: Event)
    requires Inv(p) && p.inFlight.None? && (e.Read? || e.Claimed?)
    ensures Inv(Log(p, e)) && Extends(Log(p, e).events, p.events)
    ensures Durable(Log(p, e).events) == Durable(p.events) && OpenPosts(Log(p, e).events) == OpenPosts(p.events)
  {
    Grow(p.events, e);
  }

  /** With a settled record in memory no request is open. */
  lemma SettledMemoryIsQuiet(p: Process)
    requires Inv(p) && p.held && p.memory.Some? && p.memory.value.record.Settled()
    ensures OpenPosts(p.events) == 0
  {
    SafeFacts(p.events);
  }

  // ---- Operations -----------------------------------------------------------------------------

  /** Afterwards the fill is recorded as pending, in memory and store, and its funds are pending too. */
  predicate Recorded(p: Process) {
    p.held && p.memory.Some? && p.memory.value.record.FillPending? && p.pending != []
  }

  lemma CompleteKeeps(p: Process, response: OrderResponse, save: SaveOutcome)
    requires Inv(p) && p.held && p.memory.Some? && p.memory.value.record.UnknownOrder? && p.pending != []
    ensures Inv(CompleteOrder(p, response, save).0)
    ensures CompleteOrder(p, response, save).1.Ok? ==> Recorded(CompleteOrder(p, response, save).0)
    ensures Extends(CompleteOrder(p, response, save).0.events, p.events)
  {
    hide Allowed;
    hide Safe;
    var previous := p.memory.value.record;
    var record := if response.status.FailedStatus? then Terminal
                  else FillPending(previous.identity, previous.symbol, response.fill);
    if !response.status.OtherStatus? && (response.status.FailedStatus? ==> response.nothingExecuted) {
      PersistRecordKeeps(p, record, save);
    }
  }

  lemma PostKeeps(p: Process, identity: Identity, target: Target, item: Pending)
    requires Inv(p) && p.held && p.memory.Some? && Durable(p.events) == p.memory
    requires Covers(p.memory.value.record, identity, target) && OpenPosts(p.events) == 0
    ensures var sent := Log(p.(pending := p.pending + [item]), Posted(identity, target));
            Inv(sent) && Extends(sent.events, p.events) && Durable(sent.events) == p.memory
  {
    Grow(p.events, Posted(identity, target));
  }

  lemma SubmitOrderKeeps(p: Process, request: OrderRequest, env: OrderEnv)
    requires Inv(p) && p.held && p.memory.Some? && p.memory.value.record.Reserved?
    ensures Inv(SubmitOrder(p, request, env).0)
    ensures Extends(SubmitOrder(p, request, env).0.events, p.events)
    ensures SubmitOrder(p, request, env).1.Ok? ==> Recorded(SubmitOrder(p, request, env).0)
  {
    hide Allowed;
    hide Safe;
    hide AwaitOrder;
    if ValidRequest(request) {
      SettledMemoryIsQuiet(p);
      var unknown := UnknownOrder(request.identity, request.symbol);
      PersistRecordKeeps(p, unknown, env.unknownSave);
      var reserved := PersistRecord(p, unknown, env.unknownSave);
      if env.unknownSave.Acked? {
        var item := Pending(false, ActionOf(request.side), Some(request.symbol),
                            if request.symbol == p.config.fuelSymbol then Some(p.config.fuelAsset) else None);
        PostKeeps(reserved, request.identity, OrderOn(request.symbol), item);
        var sent := Log(reserved.(pending := reserved.pending + [item]),
                        Posted(request.identity, OrderOn(request.symbol)));
        ExtendsTransitive(p.events, reserved.events, sent.events);
        AwaitKeeps(p, sent, request, env);
      }
    }
  }

  lemma AwaitKeeps(start: Process, sent: Process, request: OrderRequest, env: OrderEnv)
    requires Inv(sent) && sent.held && sent.memory.Some? && sent.memory.value.record.UnknownOrder? && sent.pending != []
    requires Extends(sent.events, start.events)
    ensures Inv(AwaitOrder(sent, request, env).0)
    ensures Extends(AwaitOrder(sent, request, env).0.events, start.events)
    ensures AwaitOrder(sent, request, env).1.Ok? ==> Recorded(AwaitOrder(sent, request, env).0)
  {
    hide Allowed;
    hide Safe;
    hide CompleteOrder;
    hide Matches;
    if env.reply.Some? {
      CompleteFrom(start, sent, env.reply.value, env.completeSave);
    } else {
      LogKeeps(sent, Read);
      var read := Log(sent, Read);
      ExtendsTransitive(start.events, sent.events, read.events);
      if env.query.Some? {
        CompleteFrom(start, read, env.query.value, env.completeSave);
      }
    }
  }

  lemma CompleteFrom(start: Process, p: Process, response: OrderResponse, save: SaveOutcome)
    requires Inv(p) && p.held && p.memory.Some? && p.memory.value.record.UnknownOrder? && p.pending != []
    requires Extends(p.events, start.events)
    ensures Inv(CompleteOrder(p, response, save).0)
    ensures Extends(CompleteOrder(p, response, save).0.events, start.events)
    ensures CompleteOrder(p, response, save).1.Ok? ==> Recorded(CompleteOrder(p, response, save).0)
  {
    CompleteKeeps(p, response, save);
    ExtendsTransitive(start.events, p.events, CompleteOrder(p, response, save).0.events);
  }

  lemma CallOrderKeeps(p: Process, request: OrderRequest, env: OrderEnv)
    requires Inv(p)
    ensures Inv(CallOrder(p, request, env).0)
    ensures Extends(CallOrder(p, request, env).0.events, p.events)
    ensures CallOrder(p, request, env).1.Ok? ==> Recorded(CallOrder(p, request, env).0)
  {
    hide Allowed;
    hide Safe;
    hide SubmitOrder;
    hide CompleteOrder;
    hide Matches;
    if p.held && p.memory.Some? {
      match p.memory.value.record
      case UnknownOrder(_, _) =>
        LogKeeps(p, Read);
        var read := Log(p, Read);
        if env.query.Some? {
          var noted := if read.pending != [] then read
                       else read.(pending := [Pending(false, ActionOf(request.side), Some(request.symbol), None)]);
          CompleteFrom(p, noted, env.query.value, env.completeSave);
        }
      case Terminal =>
        PersistRecordKeeps(p, Reserved, env.reserveSave);
        var reserved := PersistRecord(p, Reserved, env.reserveSave);
        if env.reserveSave.Acked? {
          SubmitOrderKeeps(reserved, request, env);
          ExtendsTransitive(p.events, reserved.events, SubmitOrder(reserved, request, env).0.events);
        }
      case Reserved => SubmitOrderKeeps(p, request, env);
      case _ =>
    }
  }

  lemma SubmitEarnKeeps(p: Process, request: EarnRequest, env: EarnEnv)
    requires Inv(p) && p.held && p.memory.Some? && p.memory.value.record.Reserved?
    ensures Inv(SubmitEarn(p, request, env).0)
    ensures Extends(SubmitEarn(p, request, env).0.events, p.events)
  {
    hide Allowed;
    hide Safe;
    hide SettleEarn;
    LogKeeps(p, Read);
    var preflight, unknown := Log(p, Read), UnknownEarn(request.identity, request.earn, None);
    SettledMemoryIsQuiet(preflight);
    PersistRecordKeeps(preflight, unknown, env.unknownSave);
    var reserved := PersistRecord(preflight, unknown, env.unknownSave);
    ExtendsTransitive(p.events, preflight.events, reserved.events);
    if env.spotBefore.Some? && request.amount > 0 && env.unknownSave.Acked?
       && (request.earn.Redeem? || request.amount <= env.spotBefore.value) {
      var item := Pending(false, "sell", None, Some(request.asset));
      PostKeeps(reserved, request.identity, EarnCall(request.earn), item);
      var sent := Log(reserved.(pending := reserved.pending + [item]),
                      Posted(request.identity, EarnCall(request.earn)));
      ExtendsTransitive(p.events, reserved.events, sent.events);
      if env.successId.Some? {
        SettleEarnKeeps(sent, unknown.(receipt := Some(Receipt(
          env.successId.value, request.asset, request.productId, request.amount, env.spotBefore.value))), env);
        ExtendsTransitive(p.events, sent.events, SubmitEarn(p, request, env).0.events);
      }
    }
  }

  lemma SettleEarnKeeps(sent: Process, known: Record, env: EarnEnv)
    requires Inv(sent) && sent.held && sent.memory.Some? && env.successId.Some?
    requires MayFollow(sent.memory.value.record, known) && known.UnknownEarn? && known.receipt.Some?
    ensures Inv(SettleEarn(sent, known, env).0)
    ensures Extends(SettleEarn(sent, known, env).0.events, sent.events)
  {
    hide Allowed;
    hide Safe;
    PersistRecordKeeps(sent, known, env.receiptSave);
    var kept := PersistRecord(sent, known, env.receiptSave);
    if env.receiptSave.Acked? {
      LogKeeps(kept, Read);
      var read := Log(kept, Read);
      ExtendsTransitive(sent.events, kept.events, read.events);
      PersistRecordKeeps(read, Terminal, env.terminalSave);
      ExtendsTransitive(sent.events, read.events, PersistRecord(read, Terminal, env.terminalSave).events);
    }
  }

  lemma CallEarnKeeps(p: Process, request: EarnRequest, env: EarnEnv)
    requires Inv(p)
    ensures Inv(CallEarn(p, request, env).0)
    ensures Extends(CallEarn(p, request, env).0.events, p.events)
  {
    hide Allowed;
    hide Safe;
    if p.held && p.memory.Some? {
      match p.memory.value.record
      case Terminal =>
        PersistRecordKeeps(p, Reserved, env.reserveSave);
        var reserved := PersistRecord(p, Reserved, env.reserveSave);
        if env.reserveSave.Acked? {
          SubmitEarnKeeps(reserved, request, env);
          ExtendsTransitive(p.events, reserved.events, SubmitEarn(reserved, request, env).0.events);
        }
      case Reserved => SubmitEarnKeeps(p, request, env);
      case _ =>
    }
  }

  /** Booking the pending fill in memory is the one way memory moves ahead of the store. */
  lemma BookInMemory(p: Process, ledger: Ledger)
    requires Inv(p) && Recorded(p)
    requires ledger.record == p.memory.value.record && ledger.assets == p.memory.value.assets
    requires ledger.nets == p.memory.value.nets && AccountKnownFill(ledger).Ok?
    ensures Linked(p, AccountKnownFill(ledger).value.(record := Terminal), Durable(p.events).value)
  {
    hide Safe;
    hide Allowed;
    hide KnownFillIsComplete;
  }

  lemma TradeKeeps(p: Process, request: OrderRequest, env: OrderEnv, balances: Option<map<Asset, int>>)
    requires Inv(p)
    ensures Inv(Trade(p, request, env, balances))
    ensures Extends(Trade(p, request, env, balances).events, p.events)
  {
    hide Allowed;
    hide Safe;
    CallOrderKeeps(p, request, env);
    var (called, result) := CallOrder(p, request, env);
    if result.Ok? && balances.Some? {
      var ledger := Snapshot(called.memory.value, balances.value);
      if AccountKnownFill(ledger).Ok? {
        BookInMemory(called, ledger);
      }
    }
  }

  /** A ledger linked to the store may become the working one; its snapshot does not matter. */
  lemma WorkOn(p: Process, ledger: Ledger, balances: map<Asset, int>)
    requires Inv(p) && p.held && p.memory.Some? && Linked(p, ledger, Durable(p.events).value)
             && !ledger.record.Malformed?
    ensures Inv(p.(memory := Some(Snapshot(ledger, balances)), observed := balances))
  {
    hide Safe;
    hide Allowed;
    hide Durable;
    hide Bookable;
  }

  lemma CashKeeps(p: Process, env: CashEnv)
    requires Inv(p)
    ensures Inv(ReconcileCash(p, env).0)
    ensures Extends(ReconcileCash(p, env).0.events, p.events)
    ensures var after := ReconcileCash(p, env).0;
            p.memory.Some? && !p.memory.value.record.FillPending? ==>
              && after.memory.Some? && after.memory.value.record == p.memory.value.record
              && (p.held ==> after.held)
  {
    hide Allowed;
    hide Safe;
    hide KnownFillIsComplete;
    hide Durable;
    hide OpenPosts;
    hide Bookable;
    hide AddLegs;
    if p.held && p.memory.Some? {
      LogKeeps(p, Read);
      var read, ledger := Log(p, Read), p.memory.value;
      if env.observations.Some? && p.pending != [] {
        if ledger.record.FillPending? && AccountKnownFill(ledger).Ok? {
          BookInMemory(read, ledger);
          WorkOn(read, AccountKnownFill(ledger).value.(record := Terminal), env.observations.value);
        }
        if !ledger.record.Malformed? {
          WorkOn(read, ledger, env.observations.value);
        }
      }
    }
  }

  lemma FundingKeeps(p: Process, settled: bool, cash: CashEnv, save: SaveOutcome)
    requires Inv(p)
    ensures Inv(ReconcileFunding(p, settled, cash, save).0)
    ensures Extends(ReconcileFunding(p, settled, cash, save).0.events, p.events)
  {
    hide Allowed;
    hide Safe;
    hide ReconcileCash;
    hide FinishFunding;
    if p.held && p.memory.Some? && p.memory.value.record.UnknownEarn? && p.memory.value.record.receipt.Some?
       && p.memory.value.snapshot.Some? {
      LogKeeps(p, Read);
      if settled {
        var item := Pending(true, "funding", None, Some(p.memory.value.record.receipt.value.asset));
        var noted := Log(p, Read).(pending := p.pending + [item]);
        CashKeeps(noted, cash);
        var (checked, outcome) := ReconcileCash(noted, cash);
        ExtendsTransitive(p.events, noted.events, checked.events);
        if outcome.Ok? {
          FinishFundingKeeps(checked, p.memory.value.snapshot.value, item, save);
          ExtendsTransitive(p.events, checked.events,
                            FinishFunding(checked, p.memory.value.snapshot.value, item, save).0.events);
        }
      }
    }
  }

  lemma FinishFundingKeeps(p: Process, opening: map<Asset, int>, item: Pending, save: SaveOutcome)
    requires Inv(p) && p.held && p.memory.Some? && p.memory.value.record.UnknownEarn?
    ensures Inv(FinishFunding(p, opening, item, save).0)
    ensures Extends(FinishFunding(p, opening, item, save).0.events, p.events)
  {
    hide Allowed;
    hide Safe;
    PersistRecordKeeps(p.(memory := Some(p.memory.value.(snapshot := Some(opening)))), Terminal, save);
  }

  lemma WriteKeeps(p: Process, ledger: Ledger, reason: string, interval: bool, forward: bool, save: SaveOutcome)
    requires Inv(p) && (p.held ==> p.memory.Some? && Allowed(p.events, Committed(ledger, forward)))
    requires p.held && p.admitted ==> !ledger.record.Malformed?
    ensures Inv(WriteState(p, ledger, reason, interval, forward, save).0)
    ensures Extends(WriteState(p, ledger, reason, interval, forward, save).0.events, p.events)
  {
    hide Allowed;
    hide Safe;
    if p.held {
      PersistKeeps(p, ledger, forward, save);
    }
  }

  lemma SaveKeeps(p: Process, reason: string, interval: bool, save: SaveOutcome)
    requires Inv(p)
    ensures Inv(SetTradeState(p, reason, interval, save).0)
    ensures Extends(SetTradeState(p, reason, interval, save).0.events, p.events)
  {
    hide Allowed;
    hide Safe;
    hide WriteState;
    if p.memory.Some? {
      if p.held {
        CommitFrom(p, p.memory.value);
      }
      WriteKeeps(p, p.memory.value, reason, interval, false, save);
    }
  }

  lemma ForwardKeeps(p: Process, closing: map<Asset, int>, save: SaveOutcome)
    requires Inv(p)
    ensures Inv(ForwardStep(p, closing, save).0)
    ensures Extends(ForwardStep(p, closing, save).0.events, p.events)
  {
    hide WriteState;
    if p.memory.Some? && p.memory.value.assets.Some? && p.memory.value.record.Settled() {
      var updated := p.memory.value.(nets := map a | a in p.memory.value.assets.value :: 0, snapshot := Some(closing));
      if p.held {
        ForwardNets(p, updated);
      }
      WriteKeeps(p, updated, FORWARD_REASON, p.config.receipts, true, save);
    }
  }

  /** A release finds the store settled. */
  lemma ReleaseIsQuiet(p: Process)
    requires Inv(p) && p.held && p.admitted && p.pending == []
    requires !p.memory.value.record.Unknown() && !p.memory.value.record.FillPending?
    ensures Quiet(p.events)
  {
    SafeFacts(p.events);
    FillsAreConserved(p.events);
  }

  lemma ReleaseKeeps(p: Process, released: bool, acked: bool)
    requires Inv(p) && p.admitted
    ensures Inv(ReleaseOwner(p, released, acked).0)
    ensures Extends(ReleaseOwner(p, released, acked).0.events, p.events)
  {
    if p.held && p.pending == [] && !p.memory.value.record.Unknown() && !p.memory.value.record.FillPending? {
      ReleaseIsQuiet(p);
      Grow(p.events, Released);
    }
  }

  lemma PerformKeeps(p: Process, op: Op)
    requires Inv(p)
    ensures Inv(Perform(p, op)) && Extends(Perform(p, op).events, p.events)
  {
    hide Trade;
    hide CallEarn;
    hide ReconcileCash;
    hide ReconcileFunding;
    hide SetTradeState;
    hide ForwardStep;
    hide ReleaseOwner;
    match op
    case OpTrade(request, env, balances) => TradeKeeps(p, request, env, balances);
    case OpEarn(request, env) => CallEarnKeeps(p, request, env);
    case OpCash(env) => CashKeeps(p, env);
    case OpFunding(settled, cash, save) => FundingKeeps(p, settled, cash, save);
    case OpSave(reason, interval, save) => SaveKeeps(p, reason, interval, save);
    case OpForward(closing, save) => ForwardKeeps(p, closing, save);
    case OpRelease(released, acked) =>
      if p.admitted {
        ReleaseKeeps(p, released, acked);
      }
    case OpLoad =>
    case OpAdmit =>
    case OpEdit(_) =>
  }

  /** A crash keeps what was already done outside, and perhaps one thing on its way. */
  lemma CrashKeeps(p: Process, later: Process, kept: nat, sending: bool)
    requires Inv(p) && Inv(later) && Extends(later.events, p.events)
    ensures Inv(Crash(p, later, kept, sending)) && Extends(Crash(p, later, kept, sending).events, p.events)
  {
    var all, n := later.events, |p.events| + kept;
    if n < |all| {
      PrefixIsSafe(all, n + 1);
      assert all[..n + 1][..n] == all[..n];
      assert all[..n][..|p.events|] == p.events;
      DurableOfPrefix(all[..n], |p.events|);
    }
  }

  lemma CrashDuringKeeps(p: Process, op: Op, kept: nat, sending: bool)
    requires Inv(p)
    ensures var after := Advance(p, CrashDuring(op, kept, sending)); Inv(after) && Extends(after.events, p.events)
  {
    hide Perform;
    PerformKeeps(p, op);
    hide Inv;
    CrashKeeps(p, Perform(p, op), kept, sending);
  }

  lemma AdvanceKeeps(p: Process, step: Step)
    requires Inv(p)
    ensures Inv(Advance(p, step)) && Extends(Advance(p, step).events, p.events)
  {
    hide Perform;
    match step
    case Do(op) => PerformKeeps(p, op);
    case NewRun(_, _) => Grow(p.events, Claimed);
    case CrashDuring(op, kept, sending) => CrashDuringKeeps(p, op, kept, sending);
    case LateCommit =>
      if p.inFlight.Some? {
        Grow(p.events, p.inFlight.value);
      }
  }

  // ---- Main results ---------------------------------------------------------------------------

  /** Every run from an installed ledger keeps the invariant, and with it a safe journal. */
  lemma {:induction false} EveryRunIsSafe(ledger: Ledger, config: Config, steps: seq<Step>)
    ensures Inv(Run(Initial(ledger, config), steps))
  {
    if steps == [] {
      assert [Installed(ledger)][..0] == [];
    } else {
      var n := |steps| - 1;
      EveryRunIsSafe(ledger, config, steps[..n]);
      AdvanceKeeps(Run(Initial(ledger, config), steps[..n]), steps[n]);
    }
  }

  function RunJournal(ledger: Ledger, config: Config, steps: seq<Step>): seq<Event> {
    Run(Initial(ledger, config), steps).events
  }

  /**
  In every run each request to the broker finds its own SUBMISSION_UNKNOWN record already durable, and
  between two requests a durable write settles the first; so at any moment at most one is unsettled.
  */
  lemma EveryPostIsRecordedAndSettled(ledger: Ledger, config: Config, steps: seq<Step>, i: nat)
    requires i < |RunJournal(ledger, config, steps)|
    ensures var events := RunJournal(ledger, config, steps);
            && OpenPosts(events[..i]) <= 1
            && (events[i].Posted? ==>
                  && Durable(events[..i]).Some?
                  && Covers(Durable(events[..i]).value.record, events[i].identity, events[i].target)
                  && forall j :: 0 <= j < i && events[j].Posted? ==>
                       exists k :: j < k < i && SettlesAt(events, k))
  {
    var events := RunJournal(ledger, config, steps);
    EveryRunIsSafe(ledger, config, steps);
    PrefixIsSafe(events, i);
    SafeFacts(events[..i]);
    PrefixIsSafe(events, i + 1);
    assert events[..i + 1][..i] == events[..i];
    if events[i].Posted? {
      forall j | 0 <= j < i && events[j].Posted?
        ensures exists k :: j < k < i && SettlesAt(events, k)
      {
        UnsettledPostStaysOpen(events, j, i);
      }
    }
  }

  predicate SettlesAt(events: seq<Event>, k: nat)
    requires k < |events|
  {
    events[k].Committed? && !events[k].ledger.record.Unknown()
  }

  lemma {:induction false} UnsettledPostStaysOpen(events: seq<Event>, j: nat, i: nat)
    requires j < i <= |events| && events[j].Posted?
    ensures OpenPosts(events[..i]) > 0 || exists k :: j < k < i && SettlesAt(events, k)
    decreases i
  {
    var before := events[..i][..i - 1];
    assert before == events[..i - 1];
    if j < i - 1 {
      UnsettledPostStaysOpen(events, j, i - 1);
      if !(exists k :: j < k < i - 1 && SettlesAt(events, k)) && events[i - 1].Committed?
        && !events[i - 1].ledger.record.Unknown() {
        assert SettlesAt(events, i - 1);
      }
    }
  }

  /**
  In every run, while the durable ledger has a forward checkpoint, each of its net changes is the value
  at the last forward step plus the legs of exactly the fills whose record has since left
  FILLED_ACCOUNTING_PENDING.
  */
  lemma DurableNetsAreSettledLegs(ledger: Ledger, config: Config, steps: seq<Step>)
    ensures var events := RunJournal(ledger, config, steps);
            && Durable(events).Some?
            && (Durable(events).value.assets.Some? ==>
                  && (forall b :: b in SettledFills(events) ==> Countable(b))
                  && forall a :: a in Durable(events).value.nets ==>
                    && a in OpeningNets(events)
                    && Durable(events).value.nets[a] == OpeningNets(events)[a] + SumLegs(SettledFills(events), a))
  {
    EveryRunIsSafe(ledger, config, steps);
    SafeFacts(RunJournal(ledger, config, steps));
  }

  /** Every recorded fill is booked once, in order, except the one that is still pending. */
  lemma {:induction false} FillsAreConserved(events: seq<Event>)
    requires Safe(events)
    ensures EnteredFills(events) == LeftFills(events) + CurrentFill(events)
  {
    if events != [] {
      FillsAreConserved(events[..|events| - 1]);
      assert events[..|events| - 1] + [events[|events| - 1]] == events;
    }
  }

  /** A release that deletes the owner document, now or later, finds the store settled. */
  lemma ReleaseFindsQuiet(p: Process, released: bool, acked: bool)
    requires Inv(p)
    ensures var after := Perform(p, OpRelease(released, acked));
            && (after.events != p.events ==>
              after.events == p.events + [Released] && Quiet(p.events) && Quiet(after.events))
            && (after.inFlight != p.inFlight ==>
              after.inFlight == Some(Released) && after.events == p.events && Quiet(p.events))
  {
    if p.admitted && p.held && p.pending == []
       && !p.memory.value.record.Unknown() && !p.memory.value.record.FillPending? {
      ReleaseIsQuiet(p);
      StaysQuiet(p.events);
    }
  }

  lemma StaysQuiet(events: seq<Event>)
    requires Quiet(events)
    ensures Quiet(events + [Released])
  {
    Grow(events, Released);
    var after := events + [Released];
    assert EnteredFills(after) == EnteredFills(events) + [];
    assert LeftFills(after) == LeftFills(events) + [];
  }

  /**
  In every run, whenever an owner document is deleted, at once or late, the store is settled: the durable
  record is RESERVED or TERMINAL, no request is open, and every fill recorded so far is booked in it.
  */
  lemma ReleaseOnlyWhenSettled(ledger: Ledger, config: Config, steps: seq<Step>, i: nat)
    requires i < |RunJournal(ledger, config, steps)| && RunJournal(ledger, config, steps)[i].Released?
    ensures var events := RunJournal(ledger, config, steps); Quiet(events[..i]) && Quiet(events[..i + 1])
  {
    var events := RunJournal(ledger, config, steps);
    EveryRunIsSafe(ledger, config, steps);
    PrefixIsSafe(events, i + 1);
    hide Run;
    hide Inv;
    hide Durable;
    hide NetsAreSettledLegs;
    hide Quiet;
    hide Safe;
    assert events[..i + 1] == events[..i] + [Released];
    Grow(events[..i], Released);
    StaysQuiet(events[..i]);
  }

  lemma OneMoreStep(p: Process, steps: seq<Step>, step: Step)
    ensures Run(p, steps + [step]) == Advance(Run(p, steps), step)
  {
    hide Advance;
    assert (steps + [step])[..|steps|] == steps;
  }

  /** While memory is ahead of the store the owner is kept, although the record in memory reads TERMINAL. */
  lemma AheadIsNotReleased(p: Process, released: bool, acked: bool)
    requires Inv(p) && p.held && p.memory.Some? && p.memory.value.record != Durable(p.events).value.record
    ensures p.memory.value.record.Terminal? && Durable(p.events).value.record.FillPending?
    ensures Perform(p, OpRelease(released, acked)) == p
  {
    hide Safe;
    hide Allowed;
    hide Durable;
    hide Bookable;
    hide AddLegs;
  }

  /** Booking a filled order in memory does put memory ahead: the state the previous lemma is about exists. */
  lemma TradeRunsAhead(p: Process, request: OrderRequest, env: OrderEnv, balances: map<Asset, int>)
    requires Inv(p) && CallOrder(p, request, env).1.Ok?
    requires var called := CallOrder(p, request, env).0;
             called.memory.Some? && AccountKnownFill(Snapshot(called.memory.value, balances)).Ok?
    ensures var after := Trade(p, request, env, Some(balances));
            && after.memory.Some? && after.memory.value.record.Terminal? && after.pending != []
            && Durable(after.events).Some? && Durable(after.events).value.record.FillPending?
  {
    CallOrderKeeps(p, request, env);
  }

  /** Nothing was sent to the broker between the two journals. */
  predicate OnlyReadsAndWrites(later: seq<Event>, earlier: seq<Event>) {
    Extends(later, earlier) && forall i :: |earlier| <= i < |later| ==> !later[i].Posted?
  }

  lemma SaveSendsNothing(p: Process, record: Record, outcome: SaveOutcome)
    requires p.memory.Some?
    ensures OnlyReadsAndWrites(PersistRecord(p, record, outcome).events, p.events)
  {
  }

  lemma NothingSentYet(events: seq<Event>)
    ensures OnlyReadsAndWrites(events, events)
  {
  }

  lemma CompleteSendsNothing(p: Process, response: OrderResponse, save: SaveOutcome)
    requires p.memory.Some?
    ensures OnlyReadsAndWrites(CompleteOrder(p, response, save).0.events, p.events)
  {
    var previous := p.memory.value.record;
    SaveSendsNothing(p, Terminal, save);
    SaveSendsNothing(p, Malformed, save);
    if previous.UnknownOrder? {
      SaveSendsNothing(p, FillPending(previous.identity, previous.symbol, response.fill), save);
    }
    hide PersistRecord;
    hide OnlyReadsAndWrites;
    NothingSentYet(p.events);
  }

  lemma CashSendsNothing(p: Process, cash: CashEnv)
    ensures OnlyReadsAndWrites(ReconcileCash(p, cash).0.events, p.events)
    ensures p.memory.Some? ==> ReconcileCash(p, cash).0.memory.Some?
  {
    hide AccountKnownFill;
    hide KnownFillIsComplete;
    hide Snapshot;
    hide ConfirmedAssets;
  }

  lemma NothingSentTwice(a: seq<Event>, b: seq<Event>, c: seq<Event>)
    requires OnlyReadsAndWrites(b, a) && OnlyReadsAndWrites(c, b)
    ensures OnlyReadsAndWrites(c, a)
  {
    ExtendsTransitive(a, b, c);
    forall i | |a| <= i < |c| ensures !c[i].Posted? {
      if i < |b| {
        assert c[i] == c[..|b|][i] == b[i];
      }
    }
  }

  lemma FinishSendsNothing(p: Process, opening: map<Asset, int>, item: Pending, save: SaveOutcome)
    ensures OnlyReadsAndWrites(FinishFunding(p, opening, item, save).0.events, p.events)
  {
    if p.memory.Some? {
      SaveSendsNothing(p.(memory := Some(p.memory.value.(snapshot := Some(opening)))), Terminal, save);
    }
  }

  lemma FundingSendsNothing(p: Process, settled: bool, cash: CashEnv, save: SaveOutcome)
    ensures OnlyReadsAndWrites(ReconcileFunding(p, settled, cash, save).0.events, p.events)
  {
    hide ReconcileCash;
    hide FinishFunding;
    if p.memory.Some? && p.memory.value.record.UnknownEarn? && p.memory.value.record.receipt.Some?
      && p.memory.value.snapshot.Some? {
      var item := Pending(true, "funding", None, Some(p.memory.value.record.receipt.value.asset));
      var noted := Log(p, Read).(pending := p.pending + [item]);
      CashSendsNothing(noted, cash);
      var checked := ReconcileCash(noted, cash).0;
      NothingSentTwice(p.events, noted.events, checked.events);
      FinishSendsNothing(checked, p.memory.value.snapshot.value, item, save);
      NothingSentTwice(p.events, checked.events,
        FinishFunding(checked, p.memory.value.snapshot.value, item, save).0.events);
    }
  }

  lemma ReconcileSendsNothing(p: Process, request: OrderRequest, env: OrderEnv)
    requires p.memory.Some? && p.memory.value.record.UnknownOrder?
    ensures OnlyReadsAndWrites(ReconcileOrder(p, request, env).0.events, p.events)
  {
    hide CompleteOrder;
    hide Matches;
    if env.query.Some? {
      var read := Log(p, Read);
      var noted := if read.pending != [] then read
                   else read.(pending := [Pending(false, ActionOf(request.side), Some(request.symbol), None)]);
      CompleteSendsNothing(noted, env.query.value, env.completeSave);
      NothingSentTwice(p.events, noted.events, CompleteOrder(noted, env.query.value, env.completeSave).0.events);
    }
  }

  lemma PrepareSendsNothing(p: Process, balances: map<Asset, int>)
    ensures PrepareAccounting(p, balances).0.events == p.events
  {
  }

  lemma TradeSendsNothing(p: Process, request: OrderRequest, env: OrderEnv, balances: Option<map<Asset, int>>)
    requires p.memory.Some? && p.memory.value.record.Unknown()
    ensures OnlyReadsAndWrites(Trade(p, request, env, balances).events, p.events)
  {
    hide ReconcileOrder;
    hide SubmitOrder;
    hide PrepareAccounting;
    if p.memory.value.record.UnknownOrder? {
      ReconcileSendsNothing(p, request, env);
    }
    if balances.Some? {
      PrepareSendsNothing(CallOrder(p, request, env).0, balances.value);
    }
  }

  /** No operation on a record of unknown outcome sends a request: it can only be reconciled by reads. */
  lemma UnknownIsReconciledByReads(p: Process, op: Op)
    requires p.memory.Some? && p.memory.value.record.Unknown()
    ensures OnlyReadsAndWrites(Perform(p, op).events, p.events)
  {
    hide Trade;
    hide ReconcileFunding;
    hide ReconcileCash;
    match op
    case OpTrade(request, env, balances) => TradeSendsNothing(p, request, env, balances);
    case OpFunding(settled, cash, save) => FundingSendsNothing(p, settled, cash, save);
    case OpCash(env) => CashSendsNothing(p, env);
    case _ =>
  }
}

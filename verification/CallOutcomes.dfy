/**
What one call leaves behind, for every answer of the broker and every outcome of its saves: the record in
memory and in the store, the pending funds and the result, each said from the fields of request and answer.
*/
module CallOutcomes {
  import opened Outcomes
  import opened OrderProtocol
  import opened OrderSafety

  // ---- Orders ---------------------------------------------------------------------------------------

  /** The answer is about the market order that was requested, whatever became of it. */
  predicate IsOwnOrder(r: OrderResponse, request: OrderRequest) {
    && request.quantity.Some?
    && r == OrderResponse(r.status, true, Some(request.identity), request.symbol, Some(request.side),
                          if request.byQuote then r.quantity else request.quantity,
                          if request.byQuote then request.quantity else r.quoteQuantity,
                          r.nothingExecuted, r.fill)
  }

  /** A request with a plain symbol and one positive quantity. */
  predicate IsSound(request: OrderRequest) {
    && 3 <= |request.symbol| <= 30
    && (forall c :: c in request.symbol ==> 'A' <= c <= 'Z' || '0' <= c <= '9')
    && request.quantity.Some? && request.quantity.value > 0
  }

  /** The call gets as far as sending the order. */
  predicate Sends(p: Process, request: OrderRequest, env: OrderEnv) {
    && p.held && p.memory.Some?
    && (p.memory.value.record.Reserved? || (p.memory.value.record.Terminal? && env.reserveSave.Acked?))
    && IsSound(request) && env.unknownSave.Acked?
  }

  /** The call takes up its own order, sent earlier, whose outcome is unknown. */
  predicate Resumes(p: Process, request: OrderRequest) {
    && p.held && p.memory.Some? && p.memory.value.record.UnknownOrder?
    && p.memory.value.record.identity == request.identity && IsSound(request)
  }

  /** The pending item of an order: for an order of the fuel symbol it names the fuel. */
  function ItemOf(config: Config, request: OrderRequest): Pending {
    Pending(false, if request.side == Sell then "sell" else "buy", Some(request.symbol),
            if config.fuelSymbol == request.symbol then Some(config.fuelAsset) else None)
  }

  /** The funds of a filled order are confirmed: its item is the last one. */
  predicate Confirmed(before: seq<Pending>, after: seq<Pending>) {
    && |before| == |after| > 0
    && before[..|before| - 1] == after[..|before| - 1]
    && after[|after| - 1] == before[|before| - 1].(confirmed := true)
  }

  /**
  How a call on an open order ends. Filled, and the answer about this very order: its fill is recorded and its
  funds are confirmed. Failed with nothing executed: the record is settled and the funds are no longer pending.
  With any other answer, or none, or a save that fails, the record in memory stays open and so do the funds.
  */
  ghost predicate EndsAs(open: Process, request: OrderRequest, answer: Option<OrderResponse>, save: SaveOutcome,
                         after: Process, r: Result<OrderResponse>)
    requires open.memory.Some? && open.memory.value.record.UnknownOrder? && open.pending != []
  {
    var ledger, known, n := open.memory.value, open.memory.value.record, |open.pending|;
    var final := && answer.Some? && IsOwnOrder(answer.value, request)
                 && (answer.value.status == Filled
                     || (answer.value.status == FailedStatus && answer.value.nothingExecuted));
    && (final && save == Acked ==>
          && after.held && Durable(after.events) == after.memory && OpenPosts(after.events) == 0
          && if answer.value.status == Filled then
               && after.memory == Some(ledger.(record := FillPending(known.identity, known.symbol, answer.value.fill)))
               && Confirmed(open.pending, after.pending) && r == Ok(answer.value)
             else
               && after.memory == Some(ledger.(record := Terminal))
               && after.pending == open.pending[..n - 1] && r == Err("order_submission_failed"))
    && (!final || save != Acked ==>
          && after.memory == open.memory && after.pending == open.pending && r.Err?
          && (after.held <==> !final))
    && (!final || save == Lost(false) ==>
          Durable(after.events) == Durable(open.events) && OpenPosts(after.events) == OpenPosts(open.events))
  }

  lemma CompletionEnds(p: Process, request: OrderRequest, response: OrderResponse, save: SaveOutcome)
    requires p.held && p.memory.Some? && p.memory.value.record.UnknownOrder? && p.pending != []
    requires IsOwnOrder(response, request)
    ensures var (after, r) := CompleteOrder(p, response, save);
            EndsAs(p, request, Some(response), save, after, r)
  {
    hide IsOwnOrder;
    hide Durable;
    hide OpenPosts;
    var known := p.memory.value.record;
    CommitSettles(p.events, p.memory.value.(record := Terminal));
    CommitSettles(p.events, p.memory.value.(record := FillPending(known.identity, known.symbol, response.fill)));
    match response.status
    case Filled => hide Confirmed; ConfirmsLast(p);
    case FailedStatus =>
    case OtherStatus =>
  }

  lemma ConfirmsLast(p: Process)
    requires p.pending != []
    ensures Confirmed(p.pending, ConfirmLast(p).pending)
    ensures ConfirmLast(p) == p.(pending := ConfirmLast(p).pending)
  {
  }

  lemma CommitSettles(events: seq<Event>, ledger: Ledger)
    requires !ledger.record.Unknown()
    ensures var after := events + [Committed(ledger, false)]; Durable(after) == Some(ledger) && OpenPosts(after) == 0
  {
  }

  lemma SoundIsValid(request: OrderRequest)
    ensures IsSound(request) <==> ValidRequest(request)
  {
    if IsSound(request) {
      forall i | 0 <= i < |request.symbol|
        ensures 'A' <= request.symbol[i] <= 'Z' || '0' <= request.symbol[i] <= '9'
      {
        assert request.symbol[i] in request.symbol;
      }
    }
  }

  lemma MatchesIsOwn(r: OrderResponse, request: OrderRequest)
    ensures Matches(r, request) <==> IsOwnOrder(r, request)
  {
  }

  lemma ReadChangesNothing(p: Process)
    ensures var after := Log(p, Read);
            Durable(after.events) == Durable(p.events) && OpenPosts(after.events) == OpenPosts(p.events)
  {
    assert Log(p, Read).events[..|p.events|] == p.events;
  }

  /** After the request was sent, the reply decides; only when there is none is the order looked up. */
  lemma AwaitEnds(sent: Process, request: OrderRequest, env: OrderEnv)
    requires sent.held && sent.memory.Some? && sent.memory.value.record.UnknownOrder? && sent.pending != []
    ensures var (after, r) := AwaitOrder(sent, request, env);
            EndsAs(sent, request, if env.reply.Some? then env.reply else env.query, env.completeSave, after, r)
  {
    hide CompleteOrder;
    hide Durable;
    hide OpenPosts;
    hide Matches;
    hide IsOwnOrder;
    ReadChangesNothing(sent);
    if env.reply.Some? {
      MatchesIsOwn(env.reply.value, request);
      if Matches(env.reply.value, request) {
        CompletionEnds(sent, request, env.reply.value, env.completeSave);
      }
    } else if env.query.Some? {
      MatchesIsOwn(env.query.value, request);
      if Matches(env.query.value, request) {
        CompletionEnds(Log(sent, Read), request, env.query.value, env.completeSave);
      }
    }
  }

  /** A call that sends: its intent is durable, exactly one request leaves, and then the answer decides. */
  lemma SendEnds(p: Process, request: OrderRequest, env: OrderEnv) returns (sent: Process)
    requires Sends(p, request, env)
    ensures var ledger := p.memory.value.(record := UnknownOrder(request.identity, request.symbol));
            && sent.memory == Some(ledger) && Durable(sent.events) == sent.memory
            && sent.events[|sent.events| - 1] == Posted(request.identity, OrderOn(request.symbol))
            && sent.pending == p.pending + [ItemOf(p.config, request)]
    ensures p.memory.value.record.Reserved? ==> OpenPosts(sent.events) == OpenPosts(p.events) + 1
    ensures var (after, r) := CallOrder(p, request, env);
            EndsAs(sent, request, if env.reply.Some? then env.reply else env.query, env.completeSave, after, r)
  {
    var reserved := if p.memory.value.record.Terminal? then PersistRecord(p, Reserved, env.reserveSave) else p;
    var known := PersistRecord(reserved, UnknownOrder(request.identity, request.symbol), env.unknownSave);
    sent := Log(known.(pending := known.pending + [ItemOf(p.config, request)]),
                Posted(request.identity, OrderOn(request.symbol)));
    hide AwaitOrder;
    hide EndsAs;
    SoundIsValid(request);
    hide IsSound;
    hide ValidRequest;
    SentJournal(reserved.events, known.memory.value, request);
    AwaitEnds(sent, request, env);
  }

  lemma SentJournal(events: seq<Event>, ledger: Ledger, request: OrderRequest)
    requires ledger.record.UnknownOrder?
    ensures var sent := events + [Committed(ledger, false)] + [Posted(request.identity, OrderOn(request.symbol))];
            Durable(sent) == Some(ledger) && OpenPosts(sent) == OpenPosts(events) + 1
  {
    var noted := events + [Committed(ledger, false)];
    var sent := noted + [Posted(request.identity, OrderOn(request.symbol))];
    assert sent[..|sent| - 1] == noted && noted[..|noted| - 1] == events;
  }

  /** A call that takes up an order sends nothing more: the lookup decides. */
  lemma ResumeEnds(p: Process, request: OrderRequest, env: OrderEnv)
    requires Resumes(p, request)
    ensures var (after, r) := CallOrder(p, request, env);
            var item := ItemOf(p.config, request).(asset := None);
            var open := p.(pending := if p.pending == [] then [item] else p.pending);
            && (env.query.Some? && IsOwnOrder(env.query.value, request) ==>
                  EndsAs(open, request, env.query, env.completeSave, after, r))
            && (env.query.None? || !IsOwnOrder(env.query.value, request) ==>
                  after == Log(p, Read) && r.Err?)
  {
    hide CompleteOrder;
    hide Durable;
    hide OpenPosts;
    ReadChangesNothing(p);
    SoundIsValid(request);
    hide IsSound;
    hide ValidRequest;
    hide IsOwnOrder;
    hide Matches;
    if env.query.Some? {
      MatchesIsOwn(env.query.value, request);
      var item := ItemOf(p.config, request).(asset := None);
      var open := p.(pending := if p.pending == [] then [item] else p.pending);
      if IsOwnOrder(env.query.value, request) {
        CompletionEnds(Log(open, Read), request, env.query.value, env.completeSave);
      }
    }
  }

  /** From a settled record on, a call that cannot send stops before. */
  lemma NothingSubmitted(p: Process, request: OrderRequest, env: OrderEnv)
    requires p.memory.Some? && (!IsSound(request) || !env.unknownSave.Acked?)
    ensures var (after, r) := SubmitOrder(p, request, env);
            r.Err? && after.pending == p.pending && NothingSent(p.events, after.events)
  {
    SoundIsValid(request);
    hide IsSound;
    hide ValidRequest;
    hide AwaitOrder;
    hide OpenPosts;
    CommitSendsNothing(p.events, Committed(p.memory.value.(
      record := UnknownOrder(request.identity, request.symbol)), false));
  }

  /** Every other call is refused without a request, and leaves record and funds as they are. */
  lemma OtherwiseNothingIsSent(p: Process, request: OrderRequest, env: OrderEnv)
    requires !Sends(p, request, env) && !Resumes(p, request)
    ensures var (after, r) := CallOrder(p, request, env);
            && r.Err? && after.pending == p.pending
            && NothingSent(p.events, after.events)
            && (p.held && p.memory.Some? && !p.memory.value.record.Settled() ==> after == p)
  {
    SoundIsValid(request);
    hide IsSound;
    hide ValidRequest;
    hide SubmitOrder;
    hide CompleteOrder;
    hide Matches;
    hide NothingSent;
    hide OpenPosts;
    NothingHappened(p.events);
    if p.held && p.memory.Some? && p.memory.value.record.Settled() {
      var reserved := if p.memory.value.record.Reserved? then p else PersistRecord(p, Reserved, env.reserveSave);
      CommitSendsNothing(p.events, Committed(p.memory.value.(record := Reserved), false));
      if p.memory.value.record.Reserved? || env.reserveSave.Acked? {
        NothingSubmitted(reserved, request, env);
        NothingSentOn(p.events, reserved.events, CallOrder(p, request, env).0.events);
      }
    }
  }

  /** The journal has grown by commits alone. */
  predicate NothingSent(before: seq<Event>, after: seq<Event>) {
    && Extends(after, before) && OpenPosts(after) <= OpenPosts(before)
    && forall k :: |before| <= k < |after| ==> after[k].Committed?
  }

  lemma CommitSendsNothing(events: seq<Event>, e: Event)
    requires e.Committed?
    ensures NothingSent(events, events + [e])
  {
    assert (events + [e])[..|events|] == events;
  }

  lemma NothingHappened(events: seq<Event>)
    ensures NothingSent(events, events)
  {
  }

  lemma NothingSentOn(a: seq<Event>, b: seq<Event>, c: seq<Event>)
    requires NothingSent(a, b) && NothingSent(b, c)
    ensures NothingSent(a, c)
  {
    ExtendsTransitive(a, b, c);
    hide OpenPosts;
    assert forall k :: |a| <= k < |b| ==> c[k] == c[..|b|][k] == b[k];
  }

  // ---- Earn -----------------------------------------------------------------------------------------

  /** The preflight allows the movement: Spot was read and, for a subscription, covers it. */
  predicate MayMove(request: EarnRequest, env: EarnEnv) {
    && env.spotBefore.Some? && request.amount > 0
    && (request.earn == Subscribe ==> request.amount <= env.spotBefore.value)
  }

  predicate MovesFunds(p: Process, request: EarnRequest, env: EarnEnv) {
    && p.held && p.memory.Some?
    && (p.memory.value.record.Reserved? || (p.memory.value.record.Terminal? && env.reserveSave.Acked?))
    && MayMove(request, env) && env.unknownSave.Acked?
  }

  /**
  An Earn call that is allowed to move funds: its intent is durable before its one request; a confirmed reply
  is kept as a receipt; and only the confirmed movement, durably settled, confirms the funds and returns.
  */
  lemma EarnEnds(p: Process, request: EarnRequest, env: EarnEnv)
    requires MovesFunds(p, request, env)
    ensures var (after, r) := CallEarn(p, request, env);
            var receipt := if env.successId.None? then None else Some(Receipt(
              env.successId.value, request.asset, request.productId, request.amount, env.spotBefore.value));
            var kept := receipt.Some? && env.receiptSave.Acked?;
            var done := kept && env.settled && env.terminalSave.Acked?;
            var record := if done then Terminal
                          else UnknownEarn(request.identity, request.earn, if kept then receipt else None);
            && after.memory == Some(p.memory.value.(record := record))
            && after.pending == p.pending + [Pending(done, "sell", None, Some(request.asset))]
            && (done ==> r == Ok(env.successId.value) && after.held && Durable(after.events) == after.memory)
            && (!done ==> r.Err?)
            && (receipt.None? || (kept && !env.settled) ==> after.held && Durable(after.events) == after.memory)
  {
    hide SettleEarn;
    hide Durable;
    var reserved := if p.memory.value.record.Terminal? then PersistRecord(p, Reserved, env.reserveSave) else p;
    var unknown := UnknownEarn(request.identity, request.earn, None);
    var noted := PersistRecord(Log(reserved, Read), unknown, env.unknownSave);
    var item := Pending(false, "sell", None, Some(request.asset));
    var sent := Log(noted.(pending := noted.pending + [item]), Posted(request.identity, EarnCall(request.earn)));
    DurableAfter(Log(reserved, Read).events, noted.memory.value, Posted(request.identity, EarnCall(request.earn)));
    if env.successId.Some? {
      SettlementEnds(sent, p.pending, request, env);
    }
  }

  /** From the confirmed reply on: receipt, confirmation by reads, settlement. */
  lemma SettlementEnds(sent: Process, before: seq<Pending>, request: EarnRequest, env: EarnEnv)
    requires sent.held && sent.memory.Some? && env.successId.Some? && env.spotBefore.Some?
    requires sent.pending == before + [Pending(false, "sell", None, Some(request.asset))]
    ensures var known := UnknownEarn(request.identity, request.earn, Some(Receipt(
              env.successId.value, request.asset, request.productId, request.amount, env.spotBefore.value)));
            var (after, r) := SettleEarn(sent, known, env);
            var kept := env.receiptSave.Acked?;
            var done := kept && env.settled && env.terminalSave.Acked?;
            && after.memory == Some(sent.memory.value.(
                 record := if done then Terminal else if kept then known else sent.memory.value.record))
            && after.pending == before + [Pending(done, "sell", None, Some(request.asset))]
            && (done ==> r == Ok(env.successId.value) && after.held && Durable(after.events) == after.memory)
            && (!done ==> r.Err?)
            && (kept && !env.settled ==> after.held && Durable(after.events) == after.memory)
  {
    var known := UnknownEarn(request.identity, request.earn, Some(Receipt(
      env.successId.value, request.asset, request.productId, request.amount, env.spotBefore.value)));
    DurableAfter(sent.events, sent.memory.value.(record := known), Read);
    DurableOfCommit(sent.events + [Committed(sent.memory.value.(record := known), false)] + [Read],
                    sent.memory.value.(record := Terminal));
    hide Durable;
  }

  lemma DurableOfCommit(events: seq<Event>, ledger: Ledger)
    ensures Durable(events + [Committed(ledger, false)]) == Some(ledger)
  {
  }

  lemma DurableAfter(events: seq<Event>, ledger: Ledger, e: Event)
    requires e.Read? || e.Posted?
    ensures Durable(events + [Committed(ledger, false)] + [e]) == Some(ledger)
  {
    var noted := events + [Committed(ledger, false)];
    assert (noted + [e])[..|noted|] == noted;
  }

  /** Otherwise nothing is sent, and record of unknown outcome, fill and funds stay as they are. */
  lemma OtherwiseNothingMoves(p: Process, request: EarnRequest, env: EarnEnv)
    requires !MovesFunds(p, request, env)
    ensures var (after, r) := CallEarn(p, request, env);
            && r.Err? && after.pending == p.pending
            && (forall k :: |p.events| <= k < |after.events| ==> after.events[k].Committed? || after.events[k].Read?)
            && (p.held && p.memory.Some? && !p.memory.value.record.Settled() ==> after == p)
  {
    hide Durable;
  }
}

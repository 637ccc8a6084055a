/**
The accounting and exit steps of OrderProtocol.dfy from outside: when a fill is booked, when observed balances
are taken over, which pending funds a write accounts for, and what each step leaves when it is refused.
*/
module ProtocolSteps {
  import opened Outcomes
  import opened Amounts
  import opened OrderProtocol

  // ---- Booking --------------------------------------------------------------------------------------

  predicate IsAmount(x: int) {
    x >= 0 && x <= LIMIT
  }

  /** The books can take the fill: a complete trade of a listed asset for USDT, with every amount in bounds. */
  ghost predicate CanBook(assets: set<Asset>, nets: map<Asset, int>, symbol: string, fill: KnownFill) {
    && (exists base :: symbol == base + "USDT" && base in assets)
    && "USDT" in assets && nets.Keys == assets && (forall a :: a in assets ==> -LIMIT <= nets[a] && nets[a] <= LIMIT)
    && fill.side in {Some(Buy), Some(Sell)} && KnownFillIsComplete(fill, assets)
    && IsAmount(fill.executed) && IsAmount(fill.quote) && forall part :: part in fill.parts ==>
      IsAmount(part.commission)
  }

  lemma BaseIff(symbol: string, assets: set<Asset>)
    ensures QuotedInUsdt(symbol) && BaseAsset(symbol) in assets <==>
            exists base :: symbol == base + "USDT" && base in assets
  {
    if QuotedInUsdt(symbol) {
      assert symbol == BaseAsset(symbol) + "USDT";
    }
    if base :| symbol == base + "USDT" && base in assets {
      assert symbol[..|symbol| - 4] == base;
    }
  }

  lemma CommissionsIff(parts: seq<Part>)
    ensures (forall i :: 0 <= i < |parts| ==> AdmissibleQuantity(parts[i].commission)) <==>
            (forall part :: part in parts ==> IsAmount(part.commission))
  {
    assert forall i :: 0 <= i < |parts| ==> parts[i] in parts;
  }

  lemma SideIff(side: Option<Side>)
    ensures side.Some? <==> side in {Some(Buy), Some(Sell)}
  {
    if side.Some? {
      assert side.value == Buy || side.value == Sell;
    }
  }

  /** A pending fill of a ledger with a checkpoint is booked exactly when the books can take it. */
  lemma BookedIff(ledger: Ledger)
    requires ledger.assets.Some? && ledger.record.FillPending?
    ensures AccountKnownFill(ledger).Ok? <==>
            CanBook(ledger.assets.value, ledger.nets, ledger.record.symbol, ledger.record.fill)
  {
    hide KnownFillIsComplete;
    hide QuotedInUsdt;
    hide AddLegs;
    BaseIff(ledger.record.symbol, ledger.assets.value);
    CommissionsIff(ledger.record.fill.parts);
    SideIff(ledger.record.fill.side);
  }

  /** Without a checkpoint or a pending fill there is nothing to book. */
  lemma NothingToBook(ledger: Ledger)
    requires ledger.assets.None? || !ledger.record.FillPending?
    ensures AccountKnownFill(ledger) == Ok(ledger)
  {
  }

  /** A balance after some have been observed: the observed one, else the one before. */
  function Later(before: Option<map<Asset, int>>, observed: map<Asset, int>, a: Asset): Option<int> {
    if a in observed then Some(observed[a])
    else if before.Some? && a in before.value then Some(before.value[a])
    else None
  }

  ghost predicate Updates(before: Option<map<Asset, int>>, observed: map<Asset, int>, after: Option<map<Asset, int>>) {
    after.Some? && forall a :: Later(before, observed, a) == if a in after.value then Some(after.value[a]) else None
  }

  /** The only fields that booking and observing change. */
  predicate SameElsewhere(before: Ledger, after: Ledger) {
    && after.assets == before.assets && after.history == before.history && after.dcaDates == before.dcaDates
    && after.circuitBroken == before.circuitBroken
  }

  /**
  After a filled order: the balances enter the snapshot, and the pending fill, if the books can take it, is
  booked in memory and its record settled there. Nothing is written, and the funds stay pending.
  */
  lemma AccountingOutcome(p: Process, balances: map<Asset, int>)
    requires p.memory.Some?
    ensures var (after, r) := PrepareAccounting(p, balances);
            var before := p.memory.value;
            && after == p.(memory := after.memory) && after.memory.Some?
            && Updates(before.snapshot, balances, after.memory.value.snapshot)
            && SameElsewhere(before, after.memory.value)
            && match AccountKnownFill(before)
               case Ok(booked) =>
                 && r == Ok(before.record.FillPending?)
                 && after.memory.value.nets == booked.nets
                 && after.memory.value.record == (if before.record.FillPending? then Terminal else before.record)
               case Err(code) =>
                 r == Err(code) && after.memory.value.nets == before.nets && after.memory.value.record == before.record
  {
    hide Bookable;
    hide AddLegs;
    BookingIgnoresSnapshot(p.memory.value, balances);
  }

  lemma BookingIgnoresSnapshot(ledger: Ledger, balances: map<Asset, int>)
    ensures AccountKnownFill(Snapshot(ledger, balances))
            == match AccountKnownFill(ledger)
               case Ok(booked) => Ok(Snapshot(booked, balances))
               case Err(code) => Err(code)
  {
    hide KnownFillIsComplete;
    hide AddLegs;
  }

  // ---- Observed balances ------------------------------------------------------------------------------

  /** An asset whose funds are confirmed. */
  ghost predicate Awaits(pending: seq<Pending>, a: Asset) {
    exists item :: item in pending && item.confirmed && item.asset == Some(a)
  }

  lemma AwaitsIff(pending: seq<Pending>, a: Asset)
    ensures a in ConfirmedAssets(pending) <==> Awaits(pending, a)
  {
    if Awaits(pending, a) {
      var item :| item in pending && item.confirmed && item.asset == Some(a);
      var i :| 0 <= i < |pending| && pending[i] == item;
    }
  }

  /** The fill of the fuel, waiting to be booked. */
  predicate FuelWaits(config: Config, record: Record) {
    record.FillPending? && record.symbol == config.fuelSymbol
  }

  /** The pending fuel fill, if there is one, agrees with what was observed and with the books. */
  ghost predicate FuelAgrees(config: Config, ledger: Ledger, env: CashEnv) {
    FuelWaits(config, ledger.record) ==>
      if ledger.assets == None then env.fuelMatches
        && KnownFillIsComplete(ledger.record.fill, {config.fuelAsset, "USDT"})
      else CanBook(ledger.assets.value, ledger.nets, ledger.record.symbol, ledger.record.fill)
  }

  /** Exactly the confirmed assets and USDT were read. */
  ghost predicate ReadsWhatAwaits(pending: seq<Pending>, env: CashEnv) {
    env.observations.Some? && forall a :: a in env.observations.value <==> a == "USDT" || Awaits(pending, a)
  }

  /**
  Confirmed funds are reconciled exactly when the run is the owner, the balances of exactly the confirmed
  assets and of USDT were read, and a pending fuel fill agrees with them; then they enter snapshot and
  observation, and the fuel fill is booked. Otherwise nothing changes beyond a read.
  */
  lemma CashOutcome(p: Process, env: CashEnv)
    requires p.memory.Some? && exists a :: Awaits(p.pending, a)
    ensures var (after, r) := ReconcileCash(p, env);
            var before := p.memory.value;
            && (r.Ok? <==> p.held && ReadsWhatAwaits(p.pending, env) && FuelAgrees(p.config, before, env))
            && (r.Ok? ==>
                  && after == Log(p, Read).(memory := after.memory, observed := env.observations.value)
                  && after.memory.Some? && SameElsewhere(before, after.memory.value)
                  && Updates(before.snapshot, env.observations.value, after.memory.value.snapshot)
                  && (if FuelWaits(p.config, before.record) then
                        && after.memory.value.record == Terminal
                        && AccountKnownFill(before).Ok?
                          && after.memory.value.nets == AccountKnownFill(before).value.nets
                      else after.memory.value.record == before.record && after.memory.value.nets == before.nets))
            && (r.Err? ==> after == if p.held then Log(p, Read) else p)
  {
    hide ConfirmedAssets;
    hide Awaits;
    hide KnownFillIsComplete;
    hide AccountKnownFill;
    hide CanBook;
    hide Updates;
    var ledger := p.memory.value;
    AwaitsSome(p.pending);
    ReadsIff(p.pending, env);
    hide ReadsWhatAwaits;
    if FuelWaits(p.config, ledger.record) {
      if ledger.assets.Some? {
        BookedIff(ledger);
      } else {
        NothingToBook(ledger);
      }
    }
    BookedOnlyNets(ledger);
    if env.observations.Some? {
      Observed(ledger, env.observations.value);
      if AccountKnownFill(ledger).Ok? {
        Observed(AccountKnownFill(ledger).value.(record := Terminal), env.observations.value);
      }
    }
  }

  lemma Observed(ledger: Ledger, balances: map<Asset, int>)
    ensures Snapshot(ledger, balances) == ledger.(snapshot := Snapshot(ledger, balances).snapshot)
    ensures Updates(ledger.snapshot, balances, Snapshot(ledger, balances).snapshot)
  {
  }

  lemma AwaitsSome(pending: seq<Pending>)
    ensures ConfirmedAssets(pending) != {} <==> exists a :: Awaits(pending, a)
  {
    forall a ensures a in ConfirmedAssets(pending) <==> Awaits(pending, a) {
      AwaitsIff(pending, a);
    }
    hide ConfirmedAssets;
    hide Awaits;
  }

  lemma ReadsIff(pending: seq<Pending>, env: CashEnv)
    ensures env.observations.Some? && env.observations.value.Keys == ConfirmedAssets(pending) + {"USDT"}
            <==> ReadsWhatAwaits(pending, env)
  {
    forall a ensures a in ConfirmedAssets(pending) <==> Awaits(pending, a) {
      AwaitsIff(pending, a);
    }
    hide ConfirmedAssets;
    hide Awaits;
  }

  lemma BookedOnlyNets(ledger: Ledger)
    ensures AccountKnownFill(ledger).Ok? ==>
              AccountKnownFill(ledger).value == ledger.(nets := AccountKnownFill(ledger).value.nets)
  {
    hide Bookable;
    hide AddLegs;
  }

  /** Without confirmed funds there is nothing to reconcile. */
  lemma NothingAwaits(p: Process, env: CashEnv)
    requires p.memory.Some? && forall a :: !Awaits(p.pending, a)
    ensures ReconcileCash(p, env) == (p, Ok(false))
  {
    forall a ensures a !in ConfirmedAssets(p.pending) {
      AwaitsIff(p.pending, a);
    }
    hide AccountKnownFill;
    hide KnownFillIsComplete;
  }

  // ---- Writes -----------------------------------------------------------------------------------------

  /** The written ledger carries the evidence, of the kind the reason names, that the funds were accounted for. */
  ghost predicate Evident(config: Config, ledger: Ledger, observed: map<Asset, int>, reason: string, item: Pending) {
    item.confirmed &&
      if item.symbol.Some? && reason == "trend_" + item.action + ":" + item.symbol.value then
        // today's trend action of the symbol
        (item.symbol.value, Mark(item.action, config.today)) in ledger.history.Items
      else if reason == "btc_dca_" + item.action && item.symbol == Some("BTCUSDT") then
        // today's purchase or sale of BTC
        (item.action, config.today) in ledger.dcaDates.Items
      else if item.action == "sell" && reason == "daily_circuit_breaker" then
        ledger.circuitBroken && ledger.snapshot != None
      else
        // the observed balance, in a ledger that holds all of them
        && reason in {"cash_reconciliation", "cycle_complete"}
        && item.asset != None && item.asset.value in observed
        && ledger.snapshot != None && observed.Items <= ledger.snapshot.value.Items
  }

  lemma EvidentIff(config: Config, ledger: Ledger, observed: map<Asset, int>, reason: string, item: Pending)
    ensures AccountedFunds(config, ledger, observed, reason, item) <==> Evident(config, ledger, observed, reason, item)
  {
    if ledger.snapshot.Some? {
      var held := ledger.snapshot.value;
      if observed.Items <= held.Items {
        forall a | a in observed ensures a in held && held[a] == observed[a] {
          assert (a, observed[a]) in observed.Items;
        }
      }
      if forall a :: a in observed ==> a in held && held[a] == observed[a] {
        forall x | x in observed.Items ensures x in held.Items {
        }
      }
    }
  }

  /** Those of the items for which the written ledger carries no evidence, in their order. */
  ghost function Unproven(config: Config, ledger: Ledger, observed: map<Asset, int>, reason: string,
                          pending: seq<Pending>): seq<Pending> {
    if pending == [] then []
    else
      (if Evident(config, ledger, observed, reason, pending[0]) then [] else [pending[0]])
      + Unproven(config, ledger, observed, reason, pending[1..])
  }

  lemma {:induction false} UnprovenOfBoth(config: Config, ledger: Ledger, observed: map<Asset, int>, reason: string,
                                          a: seq<Pending>, b: seq<Pending>)
    ensures Unproven(config, ledger, observed, reason, a + b)
            == Unproven(config, ledger, observed, reason, a) + Unproven(config, ledger, observed, reason, b)
  {
    hide Evident;
    if a == [] {
      assert a + b == b;
    } else {
      assert (a + b)[1..] == a[1..] + b;
      UnprovenOfBoth(config, ledger, observed, reason, a[1..], b);
    }
  }

  lemma {:induction false} UnaccountedIsUnproven(config: Config, ledger: Ledger, observed: map<Asset, int>,
                                                 reason: string, pending: seq<Pending>)
    ensures Unaccounted(config, ledger, observed, reason, pending)
            == Unproven(config, ledger, observed, reason, pending)
    decreases |pending|
  {
    hide AccountedFunds;
    hide Evident;
    if pending != [] {
      var n := |pending| - 1;
      UnaccountedIsUnproven(config, ledger, observed, reason, pending[..n]);
      EvidentIff(config, ledger, observed, reason, pending[n]);
      UnprovenOfBoth(config, ledger, observed, reason, pending[..n], [pending[n]]);
      assert pending[..n] + [pending[n]] == pending && [pending[n]][1..] == [];
    }
  }

  /** In a session with receipts exactly the forward accounting comes with an interval. */
  predicate FitsReason(config: Config, reason: string, interval: bool) {
    if reason == "earn_forward_accounting" then config.receipts ==> interval else !interval
  }

  /**
  A write succeeds exactly when the run is the owner, the interval goes with the reason and the save is
  acknowledged; the ledger is then durable and in memory, and the funds it accounts for are no longer pending.
  A refusal of the interval ends the ownership and writes nothing; a doubtful save ends it too.
  */
  lemma WriteOutcome(p: Process, ledger: Ledger, reason: string, interval: bool, forward: bool, save: SaveOutcome)
    ensures var (after, r) := WriteState(p, ledger, reason, interval, forward, save);
            var fits := FitsReason(p.config, reason, interval);
            && (r.Ok? <==> p.held && fits && save == Acked)
            && (r.Ok? ==> after == p.(
                  memory := Some(ledger), events := p.events + [Committed(ledger, forward)],
                  pending := Unproven(p.config, ledger, p.observed, reason, p.pending)))
            && (r.Err? ==>
                  && !after.held && after.memory == p.memory && after.pending == p.pending
                  && (!p.held || !fits ==> after == p.(held := false))
                  && (p.held && fits ==>
                        if save == Lost(true) then after.events == p.events + [Committed(ledger, forward)]
                        else after.events == p.events && after.inFlight == Some(Committed(ledger, forward))))
  {
    UnaccountedIsUnproven(p.config, ledger, p.observed, reason, p.pending);
    hide Unaccounted;
    hide Unproven;
  }

  /** A save of the working ledger is such a write: it is made as it is, and accounts for funds by its reason. */
  lemma WorkingLedgerIsWritten(p: Process, reason: string, interval: bool, save: SaveOutcome)
    ensures var (after, r) := SetTradeState(p, reason, interval, save);
            && (r.Ok? <==> p.held && p.memory != None && FitsReason(p.config, reason, interval) && save == Acked)
            && (r.Ok? ==> after == p.(
                  events := p.events + [Committed(p.memory.value, false)],
                  pending := Unproven(p.config, p.memory.value, p.observed, reason, p.pending)))
  {
    if p.memory.Some? {
      WriteOutcome(p, p.memory.value, reason, interval, false, save);
    }
    hide WriteState;
    hide Unproven;
  }

  /** A forward step writes the settled working ledger with every net change at zero and the closing balances. */
  lemma ForwardOutcome(p: Process, closing: map<Asset, int>, save: SaveOutcome)
    ensures var (after, r) := ForwardStep(p, closing, save);
            var ready := p.memory.Some? && p.memory.value.assets.Some?
                         && p.memory.value.record in {Reserved, Terminal};
            && (r.Ok? <==> ready && p.held && save == Acked)
            && (!ready ==> after == p)
            && (r.Ok? ==>
                  && after.held && after.memory.Some? && after.observed == p.observed
                  && after.memory == Some(p.memory.value.(nets := after.memory.value.nets, snapshot := Some(closing)))
                  && after.memory.value.nets.Keys == p.memory.value.assets.value
                  && (forall a :: a in after.memory.value.nets ==> after.memory.value.nets[a] == 0)
                  && after.events == p.events + [Committed(after.memory.value, true)])
  {
    if p.memory.Some? && p.memory.value.assets.Some? {
      var nets := map a | a in p.memory.value.assets.value :: 0;
      WriteOutcome(p, p.memory.value.(nets := nets, snapshot := Some(closing)), "earn_forward_accounting",
                   p.config.receipts, true, save);
    }
    hide WriteState;
    hide Unproven;
  }

  // ---- Funding recovery and exit --------------------------------------------------------------------

  /** No observed managed balance differs from the opening. */
  predicate Undisturbed(opening: map<Asset, int>, observed: map<Asset, int>) {
    observed.Items <= opening.Items
  }

  lemma UndisturbedIff(opening: map<Asset, int>, observed: map<Asset, int>)
    ensures Undisturbed(opening, observed) <==>
            !exists a :: a in observed && (a !in opening || opening[a] != observed[a])
  {
    if observed.Items <= opening.Items {
      forall a | a in observed ensures a in opening && opening[a] == observed[a] {
        assert (a, observed[a]) in observed.Items;
      }
    } else {
      var x :| x in observed.Items && x !in opening.Items;
      assert x.0 in observed && (x.0 !in opening || opening[x.0] != observed[x.0]);
    }
  }

  /** One occurrence of an item is gone, the others stay in order. */
  ghost predicate RemovedOnce(before: seq<Pending>, item: Pending, after: seq<Pending>) {
    exists k :: 0 <= k < |before| && before[k] == item && item !in before[..k] && after == before[..k] + before[k + 1..]
  }

  lemma {:induction false} FirstPosition(pending: seq<Pending>, item: Pending) returns (k: nat)
    requires item in pending
    ensures k < |pending| && pending[k] == item && item !in pending[..k]
    ensures RemoveFirst(pending, item) == pending[..k] + pending[k + 1..]
  {
    if pending[0] == item {
      k := 0;
    } else {
      var j := FirstPosition(pending[1..], item);
      k := j + 1;
      assert pending[..k] == [pending[0]] + pending[1..][..j] && pending[k + 1..] == pending[1..][j + 1..];
    }
  }

  lemma RemoveFirstRemoves(pending: seq<Pending>, item: Pending)
    requires item in pending
    ensures RemovedOnce(pending, item, RemoveFirst(pending, item))
  {
    var k := FirstPosition(pending, item);
    hide RemoveFirst;
  }

  /**
  A confirmed movement is settled exactly when no managed balance has changed and the record is durably
  TERMINAL; the opening snapshot is kept in any case. A change forgets what was observed.
  */
  lemma SettledOutcome(p: Process, opening: map<Asset, int>, item: Pending, save: SaveOutcome)
    requires p.memory.Some? && item in p.pending
    ensures var (after, r) := FinishFunding(p, opening, item, save);
            var kept := p.memory.value.(snapshot := Some(opening));
            && (r.Ok? <==> Undisturbed(opening, p.observed) && save == Acked)
            && (r.Ok? ==>
                  && after.memory == Some(kept.(record := Terminal))
                  && after.events == p.events + [Committed(kept.(record := Terminal), false)]
                  && RemovedOnce(p.pending, item, after.pending))
            && (r.Err? ==> after.memory == Some(kept) && after.pending == p.pending)
            && (!Undisturbed(opening, p.observed) ==> after == p.(memory := Some(kept), observed := map[]))
  {
    UndisturbedIff(opening, p.observed);
    RemoveFirstRemoves(p.pending, item);
    hide RemovedOnce;
    hide RemoveFirst;
    hide Undisturbed;
  }

  /** The recovery takes up only an Earn call whose success was received, and sends nothing. */
  lemma RecoveryOutcome(p: Process, settled: bool, cash: CashEnv, save: SaveOutcome)
    ensures var (after, r) := ReconcileFunding(p, settled, cash, save);
            var waits := p.held && p.memory.Some? && p.memory.value.record.UnknownEarn?
                         && p.memory.value.record.receipt.Some?;
            && (!waits ==> after == p && (r.Ok? ==> r == Ok(false)))
            && (waits && (p.memory.value.snapshot.None? || !settled) ==>
                  r.Err? && after.memory == p.memory && after.pending == p.pending)
            && (waits && p.memory.value.snapshot.Some? && settled ==>
                  var item := Pending(true, "funding", None, Some(p.memory.value.record.receipt.value.asset));
                  var noted := Log(p, Read).(pending := p.pending + [item]);
                  var (checked, outcome) := ReconcileCash(noted, cash);
                  if outcome.Err? then after == checked && r.Err?
                  else (after, r) == FinishFunding(checked, p.memory.value.snapshot.value, item, save))
  {
    hide ReconcileCash;
    hide FinishFunding;
  }

  /** Nothing waits to be settled or accounted for. */
  predicate Free(p: Process) {
    p.pending == [] && (p.memory.Some? ==> p.memory.value.record in {Reserved, Terminal, Malformed})
  }

  /** The owner document is given back only by its owner, with nothing waiting; then the run is no longer owner. */
  lemma ReleaseOutcome(p: Process, released: bool, acked: bool)
    ensures var (after, r) := ReleaseOwner(p, released, acked);
            && (r == Ok(true) <==> p.held && Free(p) && released && acked)
            && (p.held && Free(p) ==>
                  && !after.held && after.memory == p.memory
                  && (if released then after.events == p.events + [Released] && after.inFlight == p.inFlight
                      else after.events == p.events && after.inFlight == if acked then p.inFlight else Some(Released)))
            && (!p.held || !Free(p) ==> after == p && r != Ok(true))
            && (p.held && !Free(p) ==> r == Ok(false))
  {
    SettledOrNot(p);
    hide Free;
  }

  lemma SettledOrNot(p: Process)
    ensures Free(p) <==> p.pending == [] && (p.memory.Some? ==>
              !p.memory.value.record.Unknown() && !p.memory.value.record.FillPending?)
  {
    if p.memory.Some? {
      match p.memory.value.record
      case Reserved => assert p.memory.value.record == Reserved;
      case Terminal => assert p.memory.value.record == Terminal;
      case Malformed => assert p.memory.value.record == Malformed;
      case UnknownOrder(_, _) =>
      case UnknownEarn(_, _, _) =>
      case FillPending(_, _, _) =>
    }
  }

  /** The cycle goes on only from a settled record; the ledger is loaded once, by the owner. */
  lemma EntryOutcome(p: Process)
    ensures var (after, r) := Admit(p);
            && (r.Ok? <==> p.memory.Some? && p.memory.value.record in {Reserved, Terminal})
            && after == p.(admitted := p.admitted || r.Ok?)
    ensures LoadState(p) == p.(memory := if p.memory == None && p.held then Durable(p.events) else p.memory)
    ensures var begun := StartCycle(p.config, p.events);
            && begun.held && !begun.admitted && begun.memory == None && begun.pending == [] && begun.observed == map[]
            && begun.inFlight == None && begun.events == p.events + [Claimed] && Admit(begun).1.Err?
  {
    if p.memory.Some? && (p.memory.value.record.Reserved? || p.memory.value.record.Terminal?) {
      assert p.memory.value.record in {Reserved, Terminal};
    }
  }
}

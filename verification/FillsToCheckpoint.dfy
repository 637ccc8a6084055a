/**
The two ends of the accounting put together: fills recorded by the order protocol become net changes of the
ledger (OrderSafety.dfy), and each accepted forward step explains the quantities of its checkpoint by them
(EarnAccrual.dfy).
*/
module FillsToCheckpoint {
  import opened Outcomes
  import opened OrderProtocol
  import opened OrderSafety
  import Earn = EarnAccrual

  // ---- What a forward step sees ---------------------------------------------------------------------

  /** The fills that count for a write of the forward step: settled since the last one, or settled by it. */
  function PeriodFills(before: seq<Event>, ledger: Ledger): seq<Booking> {
    SettledFills(before) + Leaving(before, ledger)
  }

  ghost predicate IsPeriodNets(before: seq<Event>, ledger: Ledger, nets: map<Asset, int>) {
    && nets.Keys == OpeningNets(before).Keys
    && forall a :: a in nets ==> nets[a] == OpeningNets(before)[a] + SumLegs(PeriodFills(before, ledger), a)
  }

  lemma {:induction false} SumLegsOfBoth(x: seq<Booking>, y: seq<Booking>, a: Asset)
    ensures SumLegs(x + y, a) == SumLegs(x, a) + SumLegs(y, a)
    decreases |y|
  {
    if y == [] {
      assert x + y == x;
    } else {
      assert (x + y)[..|x + y| - 1] == x + y[..|y| - 1];
      SumLegsOfBoth(x, y[..|y| - 1], a);
    }
  }

  lemma BookedIsPeriod(before: seq<Event>, d: Ledger, nets: map<Asset, int>, ledger: Ledger)
    requires NetsAreSettledLegs(before, d) && Bookable(d) && nets == AddLegs(d.nets, d.record.symbol, d.record.fill)
    requires Leaving(before, ledger) == [Booking(d.record.symbol, d.record.fill)]
    ensures IsPeriodNets(before, ledger, nets)
  {
    var booking := Booking(d.record.symbol, d.record.fill);
    OneMoreBooking(SettledFills(before), booking);
    forall a | a in nets ensures nets[a] == OpeningNets(before)[a] + SumLegs(PeriodFills(before, ledger), a) {
      assert nets[a] == d.nets[a] + Leg(d.record.symbol, d.record.fill, a);
    }
  }

  /** The net changes that a forward step verifies, and then resets, are the legs of exactly these fills. */
  lemma StepSeesPeriod(p: Process, ledger: Ledger)
    requires Inv(p) && p.held && p.memory.Some? && p.memory.value.assets.Some? && p.memory.value.record.Settled()
    requires ledger.record == p.memory.value.record
    ensures IsPeriodNets(p.events, ledger, p.memory.value.nets)
  {
    hide Allowed;
    hide AddLegs;
    hide SumLegs;
    hide NetsAreSettledLegs;
    hide IsPeriodNets;
    SafeFacts(p.events);
    var m, d, before := p.memory.value, Durable(p.events).value, p.events;
    if InStep(m, d) {
      assert Leaving(before, ledger) == [];
      SettledIsPeriod(before, d, m.nets, ledger);
    } else {
      BookedIsPeriod(before, d, m.nets, ledger);
    }
  }

  lemma SettledIsPeriod(before: seq<Event>, d: Ledger, nets: map<Asset, int>, ledger: Ledger)
    requires NetsAreSettledLegs(before, d) && nets == d.nets && Leaving(before, ledger) == []
    ensures IsPeriodNets(before, ledger, nets)
  {
    assert PeriodFills(before, ledger) == SettledFills(before);
  }

  // ---- Audited histories ----------------------------------------------------------------------------

  /** One accepted forward step: the accounting state it started from, its checkpoint and its cash flows. */
  datatype Audit = Audit(state: Earn.State, current: Earn.Checkpoint, flows: Earn.CashFlows)

  function Forwards(events: seq<Event>): nat {
    if events == [] then 0
    else
      var last := events[|events| - 1];
      Forwards(events[..|events| - 1]) + (if last.Committed? && last.forward then 1 else 0)
  }

  function CheckpointAfter(first: Earn.Checkpoint, audits: seq<Audit>): Earn.Checkpoint {
    if audits == [] then first else audits[|audits| - 1].current
  }

  /**
  Every write of a forward step in the journal is that of an accepted step: from the checkpoint before it
  and the net changes of its period.
  */
  ghost predicate Audited(first: Earn.Checkpoint, events: seq<Event>, audits: seq<Audit>) {
    if events == [] then audits == []
    else
      var before, last := events[..|events| - 1], events[|events| - 1];
      if last.Committed? && last.forward then
        && audits != []
        && var earlier, audit := audits[..|audits| - 1], audits[|audits| - 1];
        && Audited(first, before, earlier)
        && Earn.Acceptable(audit.state, audit.current, audit.flows)
        && audit.state.checkpoint == CheckpointAfter(first, earlier)
        && IsPeriodNets(before, last.ledger, audit.state.nets)
      else Audited(first, before, audits)
  }

  /** The fills taken up by the checkpoints: all that were settled up to the last forward step. */
  function Taken(events: seq<Event>): seq<Booking> {
    if events == [] then []
    else
      var last := events[|events| - 1];
      if last.Committed? && last.forward then LeftFills(events) else Taken(events[..|events| - 1])
  }

  /** Documented deposits and dividends of one asset over the steps. */
  function Documented(audits: seq<Audit>, a: Asset): int {
    if audits == [] then 0
    else
      var flows := audits[|audits| - 1].flows;
      Documented(audits[..|audits| - 1], a)
      + (if a == "USDT" then flows.principal else 0) + (if a == "BNB" then flows.dividend else 0)
  }

  /** Net changes the ledger was installed with. */
  function InstalledNets(events: seq<Event>): map<Asset, int> {
    if events != [] && events[0].Installed? then events[0].ledger.nets else map[]
  }

  /** Fills settled so far are those taken up and those settled since. */
  lemma {:induction false} LeftIsTakenAndSettled(events: seq<Event>)
    requires Safe(events)
    ensures LeftFills(events) == Taken(events) + SettledFills(events)
  {
    if events != [] {
      var before, last := events[..|events| - 1], events[|events| - 1];
      LeftIsTakenAndSettled(before);
      assert before + [last] == events;
      hide NetsAreSettledLegs;
      hide MayFollow;
      if last.Committed? {
        assert Taken(before) + SettledFills(before) + Leaving(before, last.ledger)
            == Taken(before) + (SettledFills(before) + Leaving(before, last.ledger));
      }
    }
  }

  /** Before any forward step the net changes started as installed, afterwards at zero. */
  lemma {:induction false} OpeningIs(events: seq<Event>, a: Asset)
    requires Safe(events) && a in OpeningNets(events)
    ensures Forwards(events) == 0 ==>
            OpeningNets(events)[a] == (if a in InstalledNets(events) then InstalledNets(events)[a] else 0)
    ensures Forwards(events) > 0 ==> OpeningNets(events)[a] == 0
    ensures Forwards(events) == 0 ==> Taken(events) == [] && OpeningNets(events) == InstalledNets(events)
  {
    if events != [] {
      var before, last := events[..|events| - 1], events[|events| - 1];
      hide NetsAreSettledLegs;
      hide MayFollow;
      if last.Installed? {
        assert events == [last] && before == [];
        assert Forwards(before) == 0;
      } else if !(last.Committed? && last.forward) {
        OpeningIs(before, a);
        assert before != [] ==> before[0] == events[0];
      }
    }
  }

  // ---- The whole way --------------------------------------------------------------------------------

  /**
  Over every audited history, from the ledger an operator installed on: the products stay the same, and each
  asset's quantity has changed by exactly the growth of its reward counters, the documented deposits and
  dividends, what the ledger was installed with, and the legs of exactly the fills taken up by the steps.
  */
  lemma {:induction false} QuantitiesAreFills(first: Earn.Checkpoint, events: seq<Event>, audits: seq<Audit>, a: Asset)
    requires Safe(events) && Audited(first, events, audits) && a in first.assets
    ensures var last := CheckpointAfter(first, audits);
            && Earn.SameProducts(first, last) && |audits| == Forwards(events)
            && last.assets[a].quantity - first.assets[a].quantity ==
               Earn.CounterOf(last, a) - Earn.CounterOf(first, a) + Documented(audits, a) + SumLegs(Taken(events), a)
               + (if audits == [] || a !in InstalledNets(events) then 0 else InstalledNets(events)[a])
  {
    hide Allowed;
    hide IsPeriodNets;
    hide LeftFills;
    hide SumLegs;
    hide Earn.CounterOf;
    hide Earn.Acceptable;
    hide Earn.SameProducts;
    if events == [] {
      SameAsBefore(first, first, first);
      NoLegs(a);
    } else {
      var before, last := events[..|events| - 1], events[|events| - 1];
      assert before != [] ==> before[0] == events[0];
      if last.Committed? && last.forward {
        var earlier, audit := audits[..|audits| - 1], audits[|audits| - 1];
        assert events == before + [Committed(last.ledger, true)];
        QuantitiesAreFills(first, before, earlier, a);
        KeepsAsset(first, audit.state.checkpoint, a);
        StepTakes(before, last.ledger, audit, a);
        SameAsBefore(first, audit.state.checkpoint, audit.current);
      } else {
        QuantitiesAreFills(first, before, audits, a);
      }
    }
  }

  lemma SameAsBefore(x: Earn.Checkpoint, y: Earn.Checkpoint, z: Earn.Checkpoint)
    ensures Earn.SameProducts(x, x)
    ensures Earn.SameProducts(x, y) && Earn.SameProducts(y, z) ==> Earn.SameProducts(x, z)
  {
  }

  lemma NoLegs(a: Asset)
    ensures SumLegs([], a) == 0
  {
  }

  lemma KeepsAsset(x: Earn.Checkpoint, y: Earn.Checkpoint, a: Asset)
    requires Earn.SameProducts(x, y) && a in x.assets
    ensures a in y.assets
  {
  }

  /** The fills that a forward step takes up, and the net changes it therefore verifies. */
  lemma StepTakesUp(before: seq<Event>, ledger: Ledger, nets: map<Asset, int>, a: Asset)
    requires Safe(before + [Committed(ledger, true)]) && IsPeriodNets(before, ledger, nets) && a in nets
    ensures var taken := Taken(before + [Committed(ledger, true)]);
            nets[a] == SumLegs(taken, a) - SumLegs(Taken(before), a)
                       + (if Forwards(before) > 0 || a !in InstalledNets(before) then 0 else InstalledNets(before)[a])
  {
    hide NetsAreSettledLegs;
    hide MayFollow;
    hide SumLegs;
    var events := before + [Committed(ledger, true)];
    Grow(before, Committed(ledger, true));
    assert Safe(before);
    hide Safe;
    OpeningIs(before, a);
    LeftIsTakenAndSettled(before);
    TakenUp(before, ledger);
    SumLegsOfBoth(Taken(before), PeriodFills(before, ledger), a);
  }

  lemma TakenUp(before: seq<Event>, ledger: Ledger)
    requires LeftFills(before) == Taken(before) + SettledFills(before)
    ensures Taken(before + [Committed(ledger, true)]) == Taken(before) + PeriodFills(before, ledger)
  {
    var events := before + [Committed(ledger, true)];
    assert events[..|events| - 1] == before;
    assert Taken(before) + SettledFills(before) + Leaving(before, ledger)
        == Taken(before) + PeriodFills(before, ledger);
  }

  /** One step: what it adds to the quantities is what it takes up. */
  lemma StepTakes(before: seq<Event>, ledger: Ledger, audit: Audit, a: Asset)
    requires Safe(before + [Committed(ledger, true)]) && a in audit.state.checkpoint.assets
    requires Earn.Acceptable(audit.state, audit.current, audit.flows) && IsPeriodNets(before, ledger, audit.state.nets)
    ensures Earn.SameProducts(audit.state.checkpoint, audit.current)
    ensures var taken := Taken(before + [Committed(ledger, true)]);
            audit.current.assets[a].quantity - audit.state.checkpoint.assets[a].quantity ==
              Earn.CounterOf(audit.current, a) - Earn.CounterOf(audit.state.checkpoint, a)
              + (if a == "USDT" then audit.flows.principal else 0) + (if a == "BNB" then audit.flows.dividend else 0)
              + SumLegs(taken, a) - SumLegs(Taken(before), a)
              + (if Forwards(before) > 0 || a !in InstalledNets(before) then 0 else InstalledNets(before)[a])
  {
    hide *;
    Earn.StepConserves(audit.state, audit.current, audit.flows, a);
    NetsNamed(audit, a);
    StepTakesUp(before, ledger, audit.state.nets, a);
  }

  lemma NetsNamed(audit: Audit, a: Asset)
    requires Earn.Acceptable(audit.state, audit.current, audit.flows) && a in audit.state.checkpoint.assets
    ensures a in audit.state.nets
    ensures Earn.Verified(audit.state.nets, audit.flows)[a]
            == audit.state.nets[a] + (if a == "USDT" then audit.flows.principal else 0)
               + (if a == "BNB" then audit.flows.dividend else 0)
  {
    hide Earn.Valid;
    hide Earn.Conserves;
  }

  /** The same of every run of the protocol, with crashes, lost replies and late commits. */
  lemma EveryRunIsExplained(ledger: Ledger, config: Config, steps: seq<Step>, first: Earn.Checkpoint,
                            audits: seq<Audit>, a: Asset)
    requires Audited(first, RunJournal(ledger, config, steps), audits) && a in first.assets
    ensures var events, last := RunJournal(ledger, config, steps), CheckpointAfter(first, audits);
            && Earn.SameProducts(first, last)
            && last.assets[a].quantity - first.assets[a].quantity ==
               Earn.CounterOf(last, a) - Earn.CounterOf(first, a) + Documented(audits, a) + SumLegs(Taken(events), a)
               + (if audits == [] || a !in InstalledNets(events) then 0 else InstalledNets(events)[a])
            && EnteredFills(events) == Taken(events) + SettledFills(events) + CurrentFill(events)
  {
    var events := RunJournal(ledger, config, steps);
    EveryRunIsSafe(ledger, config, steps);
    QuantitiesAreFills(first, events, audits, a);
    FillsAreConserved(events);
    LeftIsTakenAndSettled(events);
  }
}

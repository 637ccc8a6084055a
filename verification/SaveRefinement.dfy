/**
The two protocols are one: what a save of an owned session does to the store is what
OrderProtocol.Persist says of the journal, commits that take effect late included, and once another
session owns the ledger nothing in flight can take effect any more.
*/
module SaveRefinement {
  import opened Outcomes
  import opened IntervalReceipts
  import opened StateSessions
  import opened SessionSafety
  import opened BoundAccess
  import Protocol = OrderProtocol

  /** How the order protocol reads a ledger document. */
  type Reading = Fields -> Protocol.Ledger

  predicate IsWrite(txn: Txn) {
    txn.WriteLedger? || txn.WriteReceipt?
  }

  /** The store as the journal has it, the ownership as the process has it, the doubt as what is in flight. */
  ghost predicate Mirrors(reading: Reading, id: nat, s: Session, store: Store, p: Protocol.Process) {
    && store.ledger.Some? && Protocol.Durable(p.events) == Some(reading(store.ledger.value.fields))
    && (p.held <==> s.owner == Some(id) && !s.invalid)
    && (s.doubt.Some? ==>
          && IsWrite(s.doubt.value) && p.inFlight.Some? && p.inFlight.value.Committed?
          && p.inFlight.value.ledger == reading(Intended(s.doubt.value)))
  }

  /** Nobody edits the ledger from outside during the operation. */
  predicate Undisturbed(env: seq<Interruption>) {
    forall k :: 0 <= k < |env| ==> env[k].edit.None?
  }

  predicate Written(store: Store, job: Job) {
    store.ledger.Some? && store.ledger.value.fields == job.intended
  }

  // ---- The transactions of a save ---------------------------------------------------------------

  /** Committed on its source, a write leaves what it intends. */
  lemma CommitLeavesIntended(id: nat, s: Session, store: Store, txn: Txn, retained: bool)
    requires IsWrite(txn) && TxnFits(s, txn) && Applies(store, id, txn)
    ensures var after := Commit(store, id, s.seenAt, txn, retained);
            after.ledger.Some? && after.ledger.value.fields == Intended(txn) && after.owner == store.owner
  {
    hide FindReceipt;
  }

  /** A save after its write: the ledger keeps what was intended, whatever the readbacks say. */
  lemma {:induction false} ReadbackKeeps(id: nat, s: Session, store: Store, env: seq<Interruption>, k: nat, job: Job)
    requires Undisturbed(env) && Written(store, job) && s.doubt.None?
    requires s.work.Some? && s.work.value in {ToConfirmReceipt(job), ToReadBack(job), ToFinish(false, true)}
    ensures var (t, after, answer) := Drive(id, s, store, env, k);
            && after == store && t.doubt.None? && t.owner == s.owner
            && (answer.Some? ==>
              (answer == Some(Returned(true)) && !t.invalid) || (answer == Some(Raised) && t.invalid))
    decreases |env| - k
  {
    hide ReadBackAccepted;
    hide FindReceipt;
    if k < |env| && !s.work.value.ToFinish? {
      var s1 := Revoked(s, env[k].revoked);
      var (t, after, answer) := NextRpc(id, s1, store, env[k].acked, env[k].retained);
      if answer.None? {
        ReadbackKeeps(id, t, after, env, k + 1, job);
      }
    }
  }

  /** The staging transaction of a save: refused, in doubt, written, or written before. */
  lemma StagingOutcome(id: nat, s: Session, store: Store, job: Job, i: Interruption)
    requires s.work == Some(ToStage(job)) && JobFits(s, job) && IsWrite(job.txn) && s.doubt.None? && i.edit.None?
    ensures var (t, after, answer) := NextRpc(id, Revoked(s, i.revoked), store, i.acked, i.retained);
            && t.owner == s.owner
            && (answer.Some? ==>
              answer == Some(Raised) && t.invalid && after == store && t.doubt in {None, Some(job.txn)})
            && (answer.None? ==>
                  && Written(after, job) && t.doubt.None?
                  && t.work.Some? && t.work.value in {ToConfirmReceipt(job), ToReadBack(job)})
  {
    hide FindReceipt;
    hide Commit;
    if Applies(store, id, job.txn) {
      CommitLeavesIntended(id, Revoked(s, i.revoked), store, job.txn, i.retained);
    }
    hide Applies;
  }

  /** A whole save: it returns with the intended document, or fails with it written, in doubt or refused. */
  lemma SaveOutcomes(id: nat, s: Session, store: Store, job: Job, env: seq<Interruption>)
    requires s.work == Some(ToStage(job)) && JobFits(s, job) && IsWrite(job.txn) && s.doubt.None? && Undisturbed(env)
    requires Drive(id, s, store, env, 0).2.Some?
    ensures var (t, after, answer) := Drive(id, s, store, env, 0);
            && t.owner == s.owner
            && (|| (answer == Some(Returned(true)) && !t.invalid && Written(after, job) && t.doubt.None?)
                || (answer == Some(Raised) && t.invalid && Written(after, job) && t.doubt.None?)
                || (answer == Some(Raised) && t.invalid && after == store && t.doubt in {None, Some(job.txn)}))
  {
    hide NextRpc;
    hide Leave;
    StagingOutcome(id, s, store, job, env[0]);
    var (t, after, answer) := NextRpc(id, Revoked(s, env[0].revoked), store, env[0].acked, env[0].retained);
    if answer.None? {
      ReadbackKeeps(id, t, after, env, 1, job);
    }
  }

  // ---- Main results -----------------------------------------------------------------------------

  lemma PersistAppends(p: Protocol.Process, ledger: Protocol.Ledger, forward: bool, outcome: Protocol.SaveOutcome)
    ensures var after := Protocol.Persist(p, ledger, forward, outcome);
            && Protocol.Durable(after.events)
              == (if outcome == Protocol.Lost(false) then Protocol.Durable(p.events) else Some(ledger))
            && after.held == (p.held && outcome.Acked?)
            && (outcome == Protocol.Lost(false) ==> after.inFlight == Some(Protocol.Committed(ledger, forward)))
  {
    var events := p.events + [Protocol.Committed(ledger, forward)];
    assert events[|events| - 1] == Protocol.Committed(ledger, forward);
  }

  /** Every save of a session that owns the ledger is a write of the order protocol, with the same outcome. */
  lemma SaveRealisesPersist(reading: Reading, id: nat, s: Session, store: Store, data: Fields,
                            interval: Option<Interval>, env: seq<Interruption>, p: Protocol.Process, forward: bool)
    requires s.work.None? && s.loaded && s.doubt.None? && p.held && Mirrors(reading, id, s, store, p)
    requires PrepareSave(s, data, interval).Ok? && Undisturbed(env)
    requires Conduct(id, s, store, Call.Save(data, interval), env).2.Some?
    ensures var intended := reading(PrepareSave(s, data, interval).value.intended);
            var (t, after, answer) := Conduct(id, s, store, Call.Save(data, interval), env);
            exists outcome ::
              && Mirrors(reading, id, t, after, Protocol.Persist(p, intended, forward, outcome))
              && (outcome.Acked? <==> answer == Some(Returned(true)))
  {
    hide PrepareSave;
    hide Drive;
    PreparedFits(s, data, interval);
    PreparedIsWrite(s, data, interval);
    var job := PrepareSave(s, data, interval).value;
    var begun := s.(work := Some(ToStage(job)));
    SaveOutcomes(id, begun, store, job, env);
    var (t, after, answer) := Drive(id, begun, store, env, 0);
    var ledger := reading(job.intended);
    PersistAppends(p, ledger, forward, Protocol.Acked);
    PersistAppends(p, ledger, forward, Protocol.Lost(true));
    PersistAppends(p, ledger, forward, Protocol.Lost(false));
    hide Protocol.Persist;
    hide TxnFits;
    var outcome := if answer == Some(Returned(true)) then Protocol.Acked
                   else if Written(after, job) && t.doubt.None? then Protocol.Lost(true)
                   else Protocol.Lost(false);
    assert Mirrors(reading, id, t, after, Protocol.Persist(p, ledger, forward, outcome));
  }

  // ---- What is in memory --------------------------------------------------------------------------

  /** The protocol reads no other fields of a document than `fields`. */
  ghost predicate ReadsOnly(reading: Reading, fields: set<Field>) {
    forall a, b :: SameAt(a, b, fields) ==> reading(a) == reading(b)
  }

  /** The normaliser leaves those fields as they are. */
  ghost predicate KeepsFields(normalize: Fields -> Fields, fields: set<Field>) {
    forall a :: SameAt(normalize(a), a, fields)
  }

  /**
  What a save intends, merged with the source as it is, reads as the working ledger in memory, provided the
  working ledger has all the fields the protocol reads and the normaliser keeps them.
  */
  lemma MergedReadsAsMemory(reading: Reading, fields: set<Field>, s: Session, data: Fields, interval: Option<Interval>)
    requires ReadsOnly(reading, fields) && KeepsFields(s.config.normalize, fields) && fields <= data.Keys
    requires PrepareSave(s, data, interval).Ok?
    ensures reading(PrepareSave(s, data, interval).value.intended) == reading(data)
  {
    PreparedKeeps(s, data, interval);
    var source, normalized := SourceFields(s), s.config.normalize(data);
    var intended := PrepareSave(s, data, interval).value.intended;
    assert SameAt(normalized, data, fields);
    if interval.Some? {
      UnpatchedIsSource(s, data, interval.value);
      assert SameAt(s.config.normalize(source), source, fields);
    }
    hide PrepareSave;
    forall f | f in fields ensures Get(intended, f) == Get(data, f) {
      assert f in data && f in normalized;
    }
    assert SameAt(intended, data, fields);
  }

  /** An interval save is refused unless both states normalise alike outside the patch. */
  lemma UnpatchedIsSource(s: Session, data: Fields, interval: Interval)
    requires PrepareSave(s, data, Some(interval)).Ok?
    ensures forall f :: f !in PATCH_FIELDS ==>
              Get(s.config.normalize(SourceFields(s)), f) == Get(s.config.normalize(data), f)
  {
    hide BuildPlan;
    var a, b := s.config.normalize(SourceFields(s)), s.config.normalize(data);
    assert a - PATCH_FIELDS == b - PATCH_FIELDS;
    forall f | f !in PATCH_FIELDS ensures Get(a, f) == Get(b, f) {
      assert Get(a - PATCH_FIELDS, f) == Get(a, f) && Get(b - PATCH_FIELDS, f) == Get(b, f);
    }
  }

  /** So the save of the working ledger realises the protocol's write of exactly that ledger. */
  lemma SaveRealisesMemory(reading: Reading, fields: set<Field>, id: nat, s: Session, store: Store, data: Fields,
                           interval: Option<Interval>, env: seq<Interruption>, p: Protocol.Process, forward: bool)
    requires s.work.None? && s.loaded && s.doubt.None? && p.held && Mirrors(reading, id, s, store, p)
    requires ReadsOnly(reading, fields) && KeepsFields(s.config.normalize, fields) && fields <= data.Keys
    requires p.memory == Some(reading(data))
    requires PrepareSave(s, data, interval).Ok? && Undisturbed(env)
    requires Conduct(id, s, store, Call.Save(data, interval), env).2.Some?
    ensures var (t, after, answer) := Conduct(id, s, store, Call.Save(data, interval), env);
            exists outcome ::
              && Mirrors(reading, id, t, after, Protocol.Persist(p, p.memory.value, forward, outcome))
              && (outcome.Acked? <==> answer == Some(Returned(true)))
  {
    MergedReadsAsMemory(reading, fields, s, data, interval);
    SaveRealisesPersist(reading, id, s, store, data, interval, env, p, forward);
  }

  /** Without that proviso it need not: a field the working ledger lacks comes back from the source. */
  lemma MissingFieldComesBack(s: Session, data: Fields, f: Field)
    requires PrepareSave(s, data, None).Ok? && f !in s.config.normalize(data)
    ensures Get(PrepareSave(s, data, None).value.intended, f) == Get(SourceFields(s), f)
  {
  }

  lemma PreparedIsWrite(s: Session, data: Fields, interval: Option<Interval>)
    requires PrepareSave(s, data, interval).Ok?
    ensures IsWrite(PrepareSave(s, data, interval).value.txn)
  {
    hide BuildPlan;
  }

  /** A commit in doubt that takes effect is the late step of the order protocol. */
  lemma LateRealisesLateCommit(reading: Reading, id: nat, s: Session, store: Store, keeps: bool, p: Protocol.Process)
    requires Mirrors(reading, id, s, store, p) && s.doubt.Some?
    requires TxnFits(s, s.doubt.value) && Applies(store, id, s.doubt.value)
    ensures var (t, after, answer) := Act(id, s, store, Late(keeps));
            Mirrors(reading, id, t, after, Protocol.Advance(p, Protocol.LateCommit)) && answer.None?
  {
    CommitLeavesIntended(id, s, store, s.doubt.value, keeps);
    var events := p.events + [p.inFlight.value];
    assert events[|events| - 1] == p.inFlight.value;
    hide Commit;
    hide Applies;
    hide TxnFits;
  }

  /** A poisoned session whose owner document is gone. */
  predicate TakenOver(w: World, id: nat) {
    && id in w.sessions && w.sessions[id].invalid && w.sessions[id].work.None?
    && (w.sessions[id].doubt.Some? ==> IsWrite(w.sessions[id].doubt.value))
    && w.store.owner != Some(id)
  }

  /** That is where an operator leaves a poisoned owner whose write is in doubt. */
  lemma OutsideReleaseTakesOver(w: World, id: nat)
    requires Frozen(w, id)
    ensures var after := AdvanceWorld(w, OutsideRelease); TakenOver(after, id) && after.sessions[id] == w.sessions[id]
  {
    hide TxnFits;
    if w.sessions[id].doubt.Some? {
      FittingIsWrite(w.sessions[id], w.sessions[id].doubt.value);
    }
  }

  lemma FittingIsWrite(s: Session, txn: Txn)
    requires TxnFits(s, txn)
    ensures IsWrite(txn)
  {
  }

  /** Nobody else can give it back: a session creates an owner document only under its own id. */
  lemma OwnerIsActor(id: nat, s: Session, store: Store, a: Action)
    ensures Act(id, s, store, a).1.owner in {store.owner, Some(id), None}
  {
    hide PrepareSave;
    hide FindReceipt;
    hide ReadBackAccepted;
    hide LoadAccepted;
    hide IsReplay;
    hide Applies;
  }

  lemma TakenOverActs(id: nat, s: Session, store: Store, a: Action)
    requires s.invalid && s.work.None? && store.owner != Some(id) && (s.doubt.Some? ==> IsWrite(s.doubt.value))
    ensures var (t, after, _) := Act(id, s, store, a);
            after == store && t.invalid && t.work.None? && t.doubt == s.doubt
  {
    hide PrepareSave;
    hide FindReceipt;
  }

  lemma OneMoreTakenOver(w: World, step: Step, id: nat)
    requires TakenOver(w, id)
    ensures TakenOver(AdvanceWorld(w, step), id) && AdvanceWorld(w, step).sessions[id].doubt == w.sessions[id].doubt
  {
    hide Act;
    if step.SessionStep? && step.id in w.sessions {
      if step.id == id {
        TakenOverActs(id, w.sessions[id], w.store, step.action);
      } else {
        OwnerIsActor(step.id, w.sessions[step.id], w.store, step.action);
      }
    }
  }

  /** It stays gone: whatever happens, its commit in doubt never takes effect. */
  lemma {:induction false} TakenOverForGood(w: World, steps: seq<Step>, id: nat)
    requires TakenOver(w, id)
    ensures var after := RunWorld(w, steps);
            && TakenOver(after, id) && after.sessions[id].doubt == w.sessions[id].doubt
            && (after.sessions[id].doubt.Some? ==> !Applies(after.store, id, after.sessions[id].doubt.value))
  {
    hide AdvanceWorld;
    if steps != [] {
      var n := |steps| - 1;
      TakenOverForGood(w, steps[..n], id);
      OneMoreTakenOver(RunWorld(w, steps[..n]), steps[n], id);
    }
  }
}

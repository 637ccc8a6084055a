/**
The class of live_services.py: its fields, its operation latch and its four operations, statement by
statement. `Conduct` is one whole operation among revocations and outside edits, built from the steps of
StateSession.dfy; each method is proved to be exactly that, and `Conduct` to be a run of a World.
*/
module BoundAccess {
  import opened Outcomes
  import opened IntervalReceipts
  import opened StateSessions

  // ---- One whole operation --------------------------------------------------------------------

  /** What happens around one transaction: a revocation, an outside edit, and how its reply fares. */
  datatype Interruption = Interruption(revoked: bool, edit: Option<Fields>, acked: bool, retained: bool)

  function Edited(store: Store, edit: Option<Fields>): Store {
    if edit.None? then store else PutLedger(store, None, store.ledger, |store.log|, edit.value, false)
  }

  function Revoked(s: Session, revoked: bool): Session {
    s.(invalid := s.invalid || revoked)
  }

  /** The remaining transactions of the operation in flight, and its exit. */
  function Drive(id: nat, s: Session, store: Store, env: seq<Interruption>, k: nat): (Session, Store, Option<Answer>)
    decreases |env| - k
  {
    if s.work.None? || k >= |env| then (s, store, None)
    else
      var s1, store1 := Revoked(s, env[k].revoked), Edited(store, env[k].edit);
      if s.work.value.ToFinish? then (var (t, answer) := Leave(s1); (t, store1, answer))
      else
        var (t, after, answer) := NextRpc(id, s1, store1, env[k].acked, env[k].retained);
        if answer.Some? then (t, after, answer) else Drive(id, t, after, env, k + 1)
  }

  function Conduct(id: nat, s: Session, store: Store, call: Call, env: seq<Interruption>):
      (Session, Store, Option<Answer>) {
    var (t, answer) := Enter(id, s, call);
    if answer.Some? then (t, store, answer) else Drive(id, t, store, env, 0)
  }

  // ---- The class ------------------------------------------------------------------------------

  /** The shared database. */
  class Backend {
    var state: Store

    constructor (state: Store)
      ensures this.state == state
    {
      this.state := state;
    }
  }

  class BoundTradeStateAccess {
    const config: Config
    const backend: Backend
    /** The id this session claims with. */
    const id: nat
    var ownerId: Option<nat>
    var source: Option<Fields>
    var sourceVersion: nat
    var loaded: bool
    var invalid: bool
    var busy: bool
    ghost var work: Option<Work>
    ghost var doubt: Option<Txn>
    /** Length of the store's history at the last read; for the history only. */
    var seenAt: nat

    ghost predicate Valid()
      reads this
    {
      busy == work.Some?
    }

    function Source(): Option<Doc>
      reads this
    {
      if source.Some? then Some(Doc(source.value, sourceVersion)) else None
    }

    /** The fields of the source, none when there is no document yet. */
    function Current(): Fields
      reads this
    {
      if source.Some? then source.value else map[]
    }

    ghost function View(): Session
      reads this
    {
      Session(config, ownerId, Source(), loaded, invalid, work, doubt, seenAt)
    }

    constructor (config: Config, backend: Backend, id: nat)
      ensures Valid() && View() == NewSession(config)
      ensures this.config == config && this.backend == backend && this.id == id
    {
      this.config, this.backend, this.id := config, backend, id;
      ownerId, source, sourceVersion, loaded, invalid, busy := None, None, 0, false, false, false;
      work, doubt, seenAt := None, None, 0;
    }

    /** `invalidate`: terminal, and possible at any moment. */
    method InvalidateSession()
      modifies this`invalid
      ensures View() == old(View()).(invalid := true)
    {
      invalid := true;
    }

    /** `active` */
    method IsActive() returns (active: bool)
      requires Valid()
      ensures active <==> ownerId.Some? && !invalid && View().work.None?
    {
      active := ownerId.Some? && !invalid && !busy;
    }

    /** Everything that may happen before a transaction or the exit check. */
    method Interrupt(i: Interruption)
      requires Valid()
      modifies this`invalid, backend
      ensures Valid() && View() == Revoked(old(View()), i.revoked)
              && backend.state == Edited(old(backend.state), i.edit)
    {
      if i.revoked {
        InvalidateSession();
      }
      if i.edit.Some? {
        backend.state := PutLedger(backend.state, None, backend.state.ledger, |backend.state.log|, i.edit.value, false);
      }
    }

    /** The failure path of `_operation`. */
    method Fail()
      modifies this`invalid, this`busy, this`work
      ensures Valid() && View() == Poison(old(View()))
    {
      invalid, busy, work := true, false, None;
    }

    /** The admission part of `_operation`. */
    method Admit(claiming: bool) returns (admitted: bool)
      requires Valid()
      modifies this`invalid, this`busy, this`work
      ensures admitted <==> old(View().work.None? && !invalid && (claiming <==> ownerId.None?))
      ensures !admitted ==> Valid() && View() == if old(busy) then old(View()).(invalid := true) else old(View())
      ensures admitted ==> busy && View() == old(View())
    {
      if busy {
        invalid := true;
        return false;
      }
      if invalid || (claiming && ownerId.Some?) || (!claiming && ownerId.None?) {
        return false;
      }
      busy := true;
      admitted := true;
    }

    /** The completion part of `_operation`; `result` is what the operation would return. */
    method Complete(closing: bool, result: bool, env: seq<Interruption>, k: nat) returns (answer: Answer)
      requires Valid() && work == Some(ToFinish(closing, result)) && k < |env|
      modifies this, backend
      ensures Valid()
      ensures (View(), backend.state, Some(answer)) == Drive(id, old(View()), old(backend.state), env, k)
    {
      Interrupt(env[k]);
      if invalid {
        Fail();
        return Raised;
      }
      if closing {
        invalid := true;
      }
      busy, work := false, None;
      answer := Returned(result);
    }

    /** `_publish_source` after `_read_owned` */
    method PublishSource(ghost next: Work)
      requires busy
      modifies this
      ensures Valid() && busy && View() == Publish(old(View()), backend.state, next)
    {
      var ledger := backend.state.ledger;
      if ledger.Some? {
        source, sourceVersion := Some(ledger.value.fields), ledger.value.version;
      } else {
        source := None;
      }
      loaded := true;
      work, seenAt := Some(next), |backend.state.log|;
    }

    /** A write transaction: what it reads is checked, then it commits, with or without a reply. */
    method Transact(txn: Txn, i: Interruption, ghost next: Work) returns (ok: bool)
      requires Valid() && busy
      modifies this`invalid, this`busy, this`work, this`doubt, backend
      ensures Valid() && ok == busy && (ok ==> work == Some(next))
      ensures (View(), backend.state, if ok then None else Some(Raised))
              == CommitWith(id, old(View()), old(backend.state), txn, i.acked, i.retained, next)
    {
      hide Applies;
      hide Commit;
      hide PutLedger;
      ghost var s, store := View(), backend.state;
      if !Applies(backend.state, id, txn) {
        Fail();
        assert CommitWith(id, s, store, txn, i.acked, i.retained, next) == (Poison(s), store, Some(Raised));
        return false;
      }
      hide CommitWith;
      CommitOutcome(id, s, store, txn, i.acked, i.retained, next);
      if !i.acked {
        Fail();
        doubt := Some(txn);
        return false;
      }
      backend.state := Commit(backend.state, id, seenAt, txn, i.retained);
      work := Some(next);
      ok := true;
    }

    /** The creation of the owner document. */
    method CreateOwnerDocument(env: seq<Interruption>) returns (ok: bool, created: bool)
      requires Valid() && work == Some(ToClaim) && |env| >= 2
      modifies this, backend
      ensures Valid() && ok == busy
      ensures ok ==> work == Some(ToFinish(false, created))
                     && Drive(id, old(View()), old(backend.state), env, 0) == Drive(id, View(), backend.state, env, 1)
      ensures !ok ==> Drive(id, old(View()), old(backend.state), env, 0) == (View(), backend.state, Some(Raised))
    {
      Interrupt(env[0]);
      if backend.state.owner.Some? {
        if !env[0].acked {
          Fail();
          return false, false;
        }
        work := Some(ToFinish(false, false));
        return true, false;
      }
      if !env[0].acked {
        Fail();
        doubt := Some(CreateOwner);
        return false, false;
      }
      backend.state := Commit(backend.state, id, seenAt, CreateOwner, false);
      if invalid {
        Fail();
        return false, false;
      }
      ownerId := Some(id);
      work := Some(ToFinish(false, true));
      return true, true;
    }

    method Claim(env: seq<Interruption>) returns (answer: Answer)
      requires Valid() && |env| >= 4
      modifies this, backend
      ensures Valid()
      ensures (View(), backend.state, Some(answer)) == Conduct(id, old(View()), old(backend.state), Call.Claim, env)
    {
      hide Drive;
      var admitted := Admit(true);
      if !admitted {
        return Raised;
      }
      work := Some(ToClaim);
      var ok, created := CreateOwnerDocument(env);
      if !ok {
        return Raised;
      }
      answer := Complete(false, created, env, 1);
    }

    /** The read of `load`, refused when a receipt session finds no checkpoint. */
    method ReadForLoad(env: seq<Interruption>) returns (ok: bool)
      requires Valid() && work == Some(ToLoad) && |env| >= 2
      modifies this, backend
      ensures Valid() && ok == busy
      ensures ok ==> work == Some(ToFinish(false, true))
                     && Drive(id, old(View()), old(backend.state), env, 0) == Drive(id, View(), backend.state, env, 1)
      ensures !ok ==> Drive(id, old(View()), old(backend.state), env, 0) == (View(), backend.state, Some(Raised))
    {
      Interrupt(env[0]);
      if invalid || !env[0].acked || !LoadAccepted(config, id, backend.state) {
        Fail();
        return false;
      }
      PublishSource(ToFinish(false, true));
      ok := true;
    }

    method Load(env: seq<Interruption>) returns (answer: Answer)
      requires Valid() && |env| >= 4
      modifies this, backend
      ensures Valid()
      ensures (View(), backend.state, Some(answer)) == Conduct(id, old(View()), old(backend.state), Call.Load, env)
    {
      hide Drive;
      var admitted := Admit(false);
      if !admitted {
        return Raised;
      }
      if loaded {
        Fail();
        return Raised;
      }
      work := Some(ToLoad);
      var ok := ReadForLoad(env);
      if !ok {
        return Raised;
      }
      answer := Complete(false, true, env, 1);
    }

    /**
    The first part of `save`: what would be written, or why nothing is. An ordinary save keeps every field
    of the source that the normalised state lacks and, in a receipt session, checkpoint and cursor; an
    interval save changes the patch fields and nothing else.
    */
    method PrepareWrite(data: Fields, interval: Option<Interval>) returns (r: Result<Job>)
      ensures r == PrepareSave(View(), data, interval)
      ensures r.Ok? && interval.None? ==> KeepsUnknown(Current(), config.normalize(data), r.value.intended)
      ensures r.Ok? && interval.None? && config.receiptEnabled ==>
                SameAt(Current(), r.value.intended, {EarnAccrualCheckpoint, ExternalCashFlowCursor})
      ensures r.Ok? && interval.Some? ==>
                PatchedOnly(Current(), config.normalize(data), r.value.intended) && r.value.txn.WriteReceipt?
    {
      hide BuildPlan;
      PreparedKeeps(View(), data, interval);
      var normalized := config.normalize(data);
      var current := Current();
      if interval.Some? {
        if !config.receiptEnabled || source.None? {
          return Err("state_session_receipt_unavailable");
        }
        var before := config.normalize(current);
        if before - PATCH_FIELDS != normalized - PATCH_FIELDS {
          return Err("state_session_forward_fields_changed");
        }
        if !(PATCH_FIELDS <= normalized.Keys) {
          return Err("state_session_write_uncertain");
        }
        var intended := current + Restrict(normalized, PATCH_FIELDS);
        var plan := BuildPlan(config.path, sourceVersion, current, intended, interval.value);
        if plan.Err? {
          return Err(plan.code);
        }
        return Ok(Job(WriteReceipt(Doc(current, sourceVersion), plan.value), intended));
      }
      if config.receiptEnabled
         && (Get(current, EarnAccrualCheckpoint) != Get(normalized, EarnAccrualCheckpoint)
             || Get(current, ExternalCashFlowCursor) != Get(normalized, ExternalCashFlowCursor)) {
        return Err("state_session_checkpoint_requires_receipt");
      }
      var intended := current + normalized;
      r := Ok(Job(WriteLedger(Source(), intended), intended));
    }

    /** The staging transaction of `save`. */
    method StageWrite(job: Job, env: seq<Interruption>) returns (ok: bool)
      requires Valid() && work == Some(ToStage(job)) && |env| >= 4
      modifies this, backend
      ensures Valid() && ok == busy
      ensures ok ==> work == Some(if job.txn.WriteReceipt? then ToConfirmReceipt(job) else ToReadBack(job))
                     && Drive(id, old(View()), old(backend.state), env, 0) == Drive(id, View(), backend.state, env, 1)
      ensures !ok ==> Drive(id, old(View()), old(backend.state), env, 0) == (View(), backend.state, Some(Raised))
    {
      hide CommitWith;
      hide IsReplay;
      Interrupt(env[0]);
      if invalid {
        Fail();
        return false;
      }
      if job.txn.WriteReceipt? && IsReplay(id, backend.state, job.txn.source, job.txn.plan) {
        if !env[0].acked {
          Fail();
          return false;
        }
        work := Some(ToConfirmReceipt(job));
        return true;
      }
      ok := Transact(job.txn, env[0], if job.txn.WriteReceipt? then ToConfirmReceipt(job) else ToReadBack(job));
    }

    /** The receipt's own readback. */
    method ConfirmReceipt(job: Job, env: seq<Interruption>) returns (ok: bool)
      requires Valid() && work == Some(ToConfirmReceipt(job)) && job.txn.WriteReceipt? && |env| >= 4
      modifies this, backend
      ensures Valid() && ok == busy
      ensures ok ==> work == Some(ToReadBack(job))
                     && Drive(id, old(View()), old(backend.state), env, 1) == Drive(id, View(), backend.state, env, 2)
      ensures !ok ==> Drive(id, old(View()), old(backend.state), env, 1) == (View(), backend.state, Some(Raised))
    {
      Interrupt(env[1]);
      var store, receipt := backend.state, job.txn.plan.receipt;
      if invalid || !env[1].acked || store.owner != Some(id) || store.ledger.None?
         || FindReceipt(store.receipts, IdOf(receipt.interval)) != Some(receipt)
         || store.ledger.value.fields != receipt.after {
        Fail();
        return false;
      }
      work := Some(ToReadBack(job));
      ok := true;
    }

    /** `_readback` and the publication of what it read. */
    method ReadBack(job: Job, env: seq<Interruption>, k: nat) returns (ok: bool)
      requires Valid() && work == Some(ToReadBack(job)) && k < |env|
      modifies this, backend
      ensures Valid() && ok == busy
      ensures ok ==> work == Some(ToFinish(false, true))
                     && Drive(id, old(View()), old(backend.state), env, k)
                       == Drive(id, View(), backend.state, env, k + 1)
      ensures !ok ==> Drive(id, old(View()), old(backend.state), env, k) == (View(), backend.state, Some(Raised))
    {
      Interrupt(env[k]);
      var store := backend.state;
      if invalid || !env[k].acked || store.owner != Some(id) || store.ledger.None?
        || store.ledger.value.fields != job.intended {
        Fail();
        return false;
      }
      if source.Some? {
        var same := job.intended == source.value;
        if store.ledger.value.version < sourceVersion || (store.ledger.value.version == sourceVersion && !same) {
          Fail();
          return false;
        }
      }
      PublishSource(ToFinish(false, true));
      ok := true;
    }

    method Save(data: Fields, interval: Option<Interval>, env: seq<Interruption>) returns (answer: Answer)
      requires Valid() && |env| >= 4
      modifies this, backend
      ensures Valid()
      ensures (View(), backend.state, Some(answer))
              == Conduct(id, old(View()), old(backend.state), Call.Save(data, interval), env)
    {
      hide Drive;
      hide PrepareSave;
      var admitted := Admit(false);
      if !admitted {
        return Raised;
      }
      if !loaded {
        Fail();
        return Raised;
      }
      var prepared := PrepareWrite(data, interval);
      PreparationIsLocal(old(View()), View(), data, interval);
      if prepared.Err? {
        Fail();
        return Raised;
      }
      var job := prepared.value;
      work := Some(ToStage(job));
      var ok := StageWrite(job, env);
      if !ok {
        return Raised;
      }
      if job.txn.WriteReceipt? {
        ok := ConfirmReceipt(job, env);
        if !ok {
          return Raised;
        }
        ok := ReadBack(job, env, 2);
        if !ok {
          return Raised;
        }
        answer := Complete(false, true, env, 3);
        return;
      }
      ok := ReadBack(job, env, 1);
      if !ok {
        return Raised;
      }
      answer := Complete(false, true, env, 2);
    }

    /** The deleting transaction of `release`. */
    method DeleteOwnerDocument(txn: Txn, env: seq<Interruption>) returns (ok: bool)
      requires Valid() && work == Some(ToRelease(txn)) && |env| >= 4
      modifies this, backend
      ensures Valid() && ok == busy
      ensures ok ==> work == Some(ToFinish(true, true))
                     && Drive(id, old(View()), old(backend.state), env, 0) == Drive(id, View(), backend.state, env, 1)
      ensures !ok ==> Drive(id, old(View()), old(backend.state), env, 0) == (View(), backend.state, Some(Raised))
    {
      hide CommitWith;
      Interrupt(env[0]);
      if invalid {
        Fail();
        return false;
      }
      ok := Transact(txn, env[0], ToFinish(true, true));
    }

    method Release(owner: nat, env: seq<Interruption>) returns (answer: Answer)
      requires Valid() && |env| >= 4
      modifies this, backend
      ensures Valid()
      ensures (View(), backend.state, Some(answer))
              == Conduct(id, old(View()), old(backend.state), Call.Release(owner), env)
    {
      hide Drive;
      var admitted := Admit(false);
      if !admitted {
        return Raised;
      }
      if owner != id {
        Fail();
        return Raised;
      }
      var txn := DeleteOwner(loaded, Source());
      work := Some(ToRelease(txn));
      var ok := DeleteOwnerDocument(txn, env);
      if !ok {
        return Raised;
      }
      answer := Complete(true, true, env, 1);
    }
  }

  /** A transaction that may commit: with a reply it has, without one it is in doubt. */
  lemma CommitOutcome(id: nat, s: Session, store: Store, txn: Txn, acked: bool, retained: bool, next: Work)
    requires Applies(store, id, txn)
    ensures CommitWith(id, s, store, txn, acked, retained, next)
            == if acked then (s.(work := Some(next)), Commit(store, id, s.seenAt, txn, retained), None)
               else (Poison(s).(doubt := Some(txn)), store, Some(Raised))
  {
    hide Applies;
    hide Commit;
  }

  predicate SameAt(a: Fields, b: Fields, keys: set<Field>) {
    forall f :: f in keys ==> Get(a, f) == Get(b, f)
  }

  /** `{**source, **normalized}`: what the normalised state lacks stays as the source has it. */
  predicate KeepsUnknown(source: Fields, normalized: Fields, intended: Fields) {
    && intended.Keys == source.Keys + normalized.Keys
    && SameAt(intended, normalized, normalized.Keys)
    && SameAt(intended, source, source.Keys - normalized.Keys)
  }

  predicate PatchedOnly(source: Fields, normalized: Fields, intended: Fields) {
    && intended.Keys == source.Keys + PATCH_FIELDS
    && SameAt(intended, normalized, PATCH_FIELDS)
    && SameAt(intended, source, source.Keys - PATCH_FIELDS)
  }

  function SourceFields(s: Session): Fields {
    if s.source.Some? then s.source.value.fields else map[]
  }

  /** What a prepared save changes and what it leaves alone. */
  lemma PreparedKeeps(s: Session, data: Fields, interval: Option<Interval>)
    ensures PrepareSave(s, data, interval).Ok? ==>
              var job := PrepareSave(s, data, interval).value;
              && (interval.None? ==>
                job.txn.WriteLedger? && KeepsUnknown(SourceFields(s), s.config.normalize(data), job.intended))
              && (interval.None? && s.config.receiptEnabled ==>
                    SameAt(SourceFields(s), job.intended, {EarnAccrualCheckpoint, ExternalCashFlowCursor}))
              && (interval.Some? ==>
                job.txn.WriteReceipt? && PatchedOnly(SourceFields(s), s.config.normalize(data), job.intended))
  {
    hide Transition;
    hide ValidInterval;
  }

  /** Committed on its source, a prepared save leaves the ledger exactly as intended. */
  lemma PreparedLeavesIntended(s: Session, store: Store, id: nat, data: Fields, interval: Option<Interval>,
                               retained: bool)
    requires PrepareSave(s, data, interval).Ok? && store.ledger == s.source
    requires Applies(store, id, PrepareSave(s, data, interval).value.txn)
    ensures var job := PrepareSave(s, data, interval).value;
            var after := Commit(store, id, s.seenAt, job.txn, retained);
            after.ledger.Some? && after.ledger.value.fields == job.intended
  {
    if interval.Some? {
      var source, version := s.source.value.fields, s.source.value.version;
      var intended := source + Restrict(s.config.normalize(data), PATCH_FIELDS);
      BuiltPlanIsExact(s.config.path, version, source, intended, interval.value);
    }
  }

  /** What a save would write depends on the source alone. */
  lemma PreparationIsLocal(s: Session, t: Session, data: Fields, interval: Option<Interval>)
    requires s.source == t.source && s.config == t.config
    ensures PrepareSave(s, data, interval) == PrepareSave(t, data, interval)
  {
  }

  // ---- A whole operation is a run ---------------------------------------------------------------

  lemma {:induction false} RunsCompose(w: World, a: seq<Step>, b: seq<Step>)
    ensures RunWorld(w, a + b) == RunWorld(RunWorld(w, a), b)
    decreases |b|
  {
    hide AdvanceWorld;
    if b == [] {
      assert a + b == a;
    } else {
      var n := |b| - 1;
      assert (a + b)[..|a + b| - 1] == a + b[..n];
      RunsCompose(w, a, b[..n]);
    }
  }

  /** A revocation and an outside edit before a transaction are steps of the world. */
  function Before(id: nat, i: Interruption): seq<Step> {
    (if i.revoked then [SessionStep(id, Invalidate)] else [])
      + (if i.edit.Some? then [OutsideEdit(i.edit.value)] else [])
  }

  ghost predicate Holds(w: World, id: nat, s: Session, store: Store) {
    id in w.sessions && w.sessions[id] == s && w.store == store
  }

  lemma OneStep(w: World, step: Step)
    ensures RunWorld(w, [step]) == AdvanceWorld(w, step)
  {
    hide AdvanceWorld;
    assert [step][..0] == [];
    assert RunWorld(w, []) == w;
  }

  lemma BeforeIsRun(w: World, id: nat, i: Interruption)
    requires id in w.sessions
    ensures Holds(RunWorld(w, Before(id, i)), id, Revoked(w.sessions[id], i.revoked), Edited(w.store, i.edit))
  {
    hide RunWorld;
    hide PutLedger;
    var first := if i.revoked then [SessionStep(id, Invalidate)] else [];
    var second := if i.edit.Some? then [OutsideEdit(i.edit.value)] else [];
    RunsCompose(w, first, second);
    NoStep(w);
    if i.revoked {
      OneStep(w, SessionStep(id, Invalidate));
    }
    NoStep(RunWorld(w, first));
    if i.edit.Some? {
      OneStep(RunWorld(w, first), OutsideEdit(i.edit.value));
    }
  }

  lemma NoStep(w: World)
    ensures RunWorld(w, []) == w
  {
  }

  lemma {:induction false} DriveIsRun(w: World, id: nat, env: seq<Interruption>, k: nat) returns (steps: seq<Step>)
    requires id in w.sessions
    ensures var (t, store, _) := Drive(id, w.sessions[id], w.store, env, k); Holds(RunWorld(w, steps), id, t, store)
    decreases |env| - k
  {
    hide NextRpc;
    hide Leave;
    steps := [];
    var s := w.sessions[id];
    if s.work.Some? && k < |env| {
      BeforeIsRun(w, id, env[k]);
      var w1 := RunWorld(w, Before(id, env[k]));
      var step := SessionStep(id, if s.work.value.ToFinish? then Finish else Rpc(env[k].acked, env[k].retained));
      OneStep(w1, step);
      var w2 := AdvanceWorld(w1, step);
      RunsCompose(w, Before(id, env[k]), [step]);
      steps := Before(id, env[k]) + [step];
      if !s.work.value.ToFinish? && NextRpc(id, w1.sessions[id], w1.store, env[k].acked, env[k].retained).2.None? {
        var rest := DriveIsRun(w2, id, env, k + 1);
        RunsCompose(w, steps, rest);
        steps := steps + rest;
      }
    }
  }

  /** Each operation of the class is a run of the world, so what holds of every run holds of it. */
  lemma ConductIsRun(w: World, id: nat, call: Call, env: seq<Interruption>) returns (steps: seq<Step>)
    requires id in w.sessions
    ensures var (t, store, _) := Conduct(id, w.sessions[id], w.store, call, env);
            Holds(RunWorld(w, steps), id, t, store)
  {
    hide Enter;
    hide Drive;
    var step := SessionStep(id, Begin(call));
    OneStep(w, step);
    steps := [step];
    if Enter(id, w.sessions[id], call).1.None? {
      var w1 := RunWorld(w, steps);
      var rest := DriveIsRun(w1, id, env, 0);
      RunsCompose(w, steps, rest);
      steps := steps + rest;
    }
  }
}

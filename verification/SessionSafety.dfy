/**
Any number of sessions, with outside edits of the ledger and commits that take effect late: no update
is lost, and a session that was in doubt once is never trusted again and lets nobody else in.
*/
module SessionSafety {
  import opened Outcomes
  import opened IntervalReceipts
  import opened StateSessions

  /** The ledger document after the first `n` logged writes. */
  function LedgerAt(first: Option<Doc>, log: seq<Write>, n: nat): Option<Doc>
    requires n <= |log|
  {
    if n == 0 then first else Some(log[n - 1].after)
  }

  /** Write `k` starts from the document the previous one left, and a change has a newer version. */
  predicate Link(first: Option<Doc>, log: seq<Write>, k: nat)
    requires k < |log|
  {
    && log[k].before == LedgerAt(first, log, k)
    && (log[k].before.Some? ==>
      log[k].after == log[k].before.value || log[k].after.version > log[k].before.value.version)
  }

  predicate Chained(first: Option<Doc>, log: seq<Write>) {
    forall k {:trigger Link(first, log, k)} :: 0 <= k < |log| ==> Link(first, log, k)
  }

  /** The writes from `m` up to `n` changed nothing. */
  predicate Idle(log: seq<Write>, m: nat, n: nat)
    requires m <= n <= |log|
  {
    forall i :: m <= i < n ==> log[i].before == Some(log[i].after)
  }

  /**
  A write is an outside edit, or it was made by the holder of the owner document, on exactly the value
  and version that session last read, with no change in between.
  */
  predicate Faithful(log: seq<Write>, k: nat)
    requires k < |log|
  {
    log[k].writer.Some? ==>
      && log[k].owner == log[k].writer
      && log[k].base == log[k].before
      && log[k].since <= k && Idle(log, log[k].since, k)
  }

  /** A write transaction prepared from what the session last read. */
  predicate TxnFits(s: Session, txn: Txn) {
    match txn
    case WriteLedger(base, _) => base == s.source
    case WriteReceipt(source, plan) =>
      && s.source == Some(source) && plan.receipt.before == source.fields
      && source.fields + plan.receipt.patch == plan.receipt.after
    case _ => false
  }

  /** The document a write transaction leaves. */
  function Intended(txn: Txn): Fields
    requires txn.WriteLedger? || txn.WriteReceipt?
  {
    if txn.WriteLedger? then txn.fields else txn.plan.receipt.after
  }

  predicate JobFits(s: Session, job: Job) {
    TxnFits(s, job.txn) && job.intended == Intended(job.txn)
  }

  predicate DoubtFits(s: Session, txn: Txn) {
    && s.invalid && s.work.None?
    && (txn.WriteLedger? || txn.WriteReceipt? ==> s.loaded && TxnFits(s, txn))
  }

  predicate WorkFits(s: Session, work: Work) {
    match work
    case ToStage(job) => s.loaded && JobFits(s, job)
    case ToConfirmReceipt(job) => s.loaded
    case ToReadBack(job) => s.loaded
    case ToRelease(txn) => txn.DeleteOwner?
    case _ => true
  }

  predicate SessionOk(first: Option<Doc>, log: seq<Write>, s: Session) {
    && (s.loaded ==> s.seenAt <= |log| && s.source == LedgerAt(first, log, s.seenAt))
    && (s.work.Some? ==> WorkFits(s, s.work.value))
    && (s.doubt.Some? ==> DoubtFits(s, s.doubt.value))
  }

  predicate StoreOk(first: Option<Doc>, store: Store) {
    && Chained(first, store.log)
    && store.ledger == LedgerAt(first, store.log, |store.log|)
    && (store.ledger.Some? ==> store.ledger.value.version <= store.clock)
    && forall k :: 0 <= k < |store.log| ==> Faithful(store.log, k)
  }

  predicate Inv(first: Option<Doc>, w: World) {
    && StoreOk(first, w.store)
    && forall id :: id in w.sessions ==> SessionOk(first, w.store.log, w.sessions[id])
  }

  // ---- The log --------------------------------------------------------------------------------

  /** The same document at two moments means nothing changed in between: versions never return. */
  lemma {:induction false} SameMeansIdle(first: Option<Doc>, log: seq<Write>, m: nat, n: nat)
    requires m <= n <= |log| && Chained(first, log)
    requires LedgerAt(first, log, m) == LedgerAt(first, log, n)
    ensures Idle(log, m, n)
    decreases n
  {
    if m < n {
      assert Link(first, log, n - 1);
      if LedgerAt(first, log, m).Some? {
        VersionsGrow(first, log, m, n - 1);
      }
      SameMeansIdle(first, log, m, n - 1);
    }
  }

  lemma {:induction false} VersionsGrow(first: Option<Doc>, log: seq<Write>, m: nat, n: nat)
    requires m <= n <= |log| && Chained(first, log) && LedgerAt(first, log, m).Some?
    ensures LedgerAt(first, log, n).Some?
    ensures LedgerAt(first, log, n) == LedgerAt(first, log, m)
            || LedgerAt(first, log, n).value.version > LedgerAt(first, log, m).value.version
    decreases n
  {
    if m < n {
      assert Link(first, log, n - 1);
      VersionsGrow(first, log, m, n - 1);
    }
  }

  /** What holds of a log entry holds of it in every longer log. */
  lemma EntryStays(first: Option<Doc>, log: seq<Write>, longer: seq<Write>, k: nat)
    requires k < |log| && log <= longer
    ensures Link(first, log, k) ==> Link(first, longer, k)
    ensures Faithful(log, k) ==> Faithful(longer, k)
  {
    assert forall i :: 0 <= i <= k ==> longer[i] == log[i];
  }

  lemma LastIsFaithful(first: Option<Doc>, log: seq<Write>, e: Write)
    requires Chained(first, log) && e.before == LedgerAt(first, log, |log|)
    requires e.writer.Some? ==>
      e.owner == e.writer && e.base == e.before && e.since <= |log| && e.base == LedgerAt(first, log, e.since)
    ensures Faithful(log + [e], |log|)
  {
    if e.writer.Some? {
      SameMeansIdle(first, log, e.since, |log|);
      assert forall i :: 0 <= i < |log| ==> (log + [e])[i] == log[i];
    }
  }

  /** A write of the ledger keeps the log in order; a session's has to be based on the ledger it read. */
  lemma PutKeeps(first: Option<Doc>, store: Store, writer: Option<nat>, base: Option<Doc>, since: nat, fields: Fields,
                 retained: bool)
    requires StoreOk(first, store)
    requires writer.Some? ==>
      && store.owner == writer && base == store.ledger && since <= |store.log|
      && base == LedgerAt(first, store.log, since)
    ensures StoreOk(first, PutLedger(store, writer, base, since, fields, retained))
    ensures store.log <= PutLedger(store, writer, base, since, fields, retained).log
  {
    var after, n := PutLedger(store, writer, base, since, fields, retained), |store.log|;
    LastIsFaithful(first, store.log, after.log[n]);
    assert Link(first, after.log, n);
    forall k | 0 <= k < |after.log|
      ensures Link(first, after.log, k) && Faithful(after.log, k)
    {
      if k < n {
        assert Link(first, store.log, k);
        EntryStays(first, store.log, after.log, k);
      }
    }
  }

  // ---- Steps ----------------------------------------------------------------------------------

  lemma LogGrows(first: Option<Doc>, log: seq<Write>, longer: seq<Write>, s: Session)
    requires SessionOk(first, log, s) && log <= longer
    ensures SessionOk(first, longer, s)
  {
    if s.loaded && s.seenAt > 0 {
      assert longer[s.seenAt - 1] == log[s.seenAt - 1];
    }
  }

  lemma PreparedFits(s: Session, data: Fields, interval: Option<Interval>)
    requires PrepareSave(s, data, interval).Ok?
    ensures JobFits(s, PrepareSave(s, data, interval).value)
  {
    if interval.Some? {
      var source, version := s.source.value.fields, s.source.value.version;
      var intended := source + Restrict(s.config.normalize(data), PATCH_FIELDS);
      BuiltPlanIsExact(s.config.path, version, source, intended, interval.value);
    }
  }

  lemma EnterKeeps(first: Option<Doc>, log: seq<Write>, id: nat, s: Session, call: Call)
    requires SessionOk(first, log, s)
    ensures SessionOk(first, log, Enter(id, s, call).0)
  {
    if call.Save? && PrepareSave(s, call.data, call.interval).Ok? {
      PreparedFits(s, call.data, call.interval);
    }
    hide PrepareSave;
  }

  /** Committing a prepared write is a faithful write of the log. */
  lemma CommitKeeps(first: Option<Doc>, s: Session, store: Store, id: nat, txn: Txn, retained: bool)
    requires StoreOk(first, store) && SessionOk(first, store.log, s) && Applies(store, id, txn)
    requires txn.WriteLedger? || txn.WriteReceipt? ==> s.loaded && TxnFits(s, txn)
    ensures StoreOk(first, Commit(store, id, s.seenAt, txn, retained))
    ensures store.log <= Commit(store, id, s.seenAt, txn, retained).log
  {
    match txn
    case WriteLedger(base, fields) => PutKeeps(first, store, Some(id), base, s.seenAt, fields, retained);
    case WriteReceipt(source, plan) =>
      var written := store.(receipts := store.receipts + [plan.receipt]);
      assert StoreOk(first, written);
      assert store.ledger.value == source;
      PutKeeps(first, written, Some(id), Some(source), s.seenAt, store.ledger.value.fields + plan.receipt.patch, false);
    case _ =>
  }

  lemma CommitWithKeeps(first: Option<Doc>, id: nat, s: Session, store: Store, txn: Txn, acked: bool, retained: bool,
                        next: Work)
    requires StoreOk(first, store) && SessionOk(first, store.log, s) && s.doubt.None?
    requires txn.WriteLedger? || txn.WriteReceipt? ==> s.loaded && TxnFits(s, txn)
    requires WorkFits(s, next)
    ensures var (t, after, _) := CommitWith(id, s, store, txn, acked, retained, next);
            StoreOk(first, after) && SessionOk(first, after.log, t) && store.log <= after.log
  {
    hide StoreOk;
    hide Commit;
    hide Applies;
    if Applies(store, id, txn) && acked {
      CommitKeeps(first, s, store, id, txn, retained);
      LogGrows(first, store.log, Commit(store, id, s.seenAt, txn, retained).log, s.(work := Some(next)));
    }
  }

  lemma NextRpcKeeps(first: Option<Doc>, id: nat, s: Session, store: Store, acked: bool, retained: bool)
    requires StoreOk(first, store) && SessionOk(first, store.log, s) && s.work.Some?
    ensures var (t, after, _) := NextRpc(id, s, store, acked, retained);
            StoreOk(first, after) && SessionOk(first, after.log, t) && store.log <= after.log
  {
    hide CommitWith;
    hide Commit;
    hide LoadAccepted;
    hide ReadBackAccepted;
    hide IsReplay;
    if s.work.value.ToClaim? && store.owner.None? && acked {
      CommitKeeps(first, s, store, id, CreateOwner, false);
      LogGrows(first, store.log, Commit(store, id, s.seenAt, CreateOwner, false).log,
               s.(owner := Some(id), work := Some(ToFinish(false, true))));
      LogGrows(first, store.log, Commit(store, id, s.seenAt, CreateOwner, false).log, Poison(s));
    }
    if !s.invalid {
      match s.work.value
      case ToStage(job) =>
        CommitWithKeeps(first, id, s, store, job.txn, acked, retained,
                        if job.txn.WriteReceipt? then ToConfirmReceipt(job) else ToReadBack(job));
      case ToRelease(txn) => CommitWithKeeps(first, id, s, store, txn, acked, retained, ToFinish(true, true));
      case _ =>
    }
  }

  lemma ActKeeps(first: Option<Doc>, id: nat, s: Session, store: Store, a: Action)
    requires StoreOk(first, store) && SessionOk(first, store.log, s)
    ensures var (t, after, _) := Act(id, s, store, a);
            StoreOk(first, after) && SessionOk(first, after.log, t) && store.log <= after.log
  {
    hide Enter;
    hide NextRpc;
    hide StoreOk;
    hide Commit;
    hide Applies;
    match a
    case Begin(call) => EnterKeeps(first, store.log, id, s, call);
    case Rpc(acked, retained) =>
      if s.work.Some? {
        NextRpcKeeps(first, id, s, store, acked, retained);
      }
    case Late(keeps) =>
      if s.doubt.Some? && Applies(store, id, s.doubt.value) {
        CommitKeeps(first, s, store, id, s.doubt.value, keeps);
        LogGrows(first, store.log, Commit(store, id, s.seenAt, s.doubt.value, keeps).log, s.(doubt := None));
      }
    case _ =>
  }

  lemma OwnerIsOutside(first: Option<Doc>, store: Store)
    requires StoreOk(first, store)
    ensures StoreOk(first, store.(owner := None))
  {
  }

  lemma FreshSessionOk(first: Option<Doc>, log: seq<Write>, config: Config)
    ensures SessionOk(first, log, NewSession(config))
  {
  }

  lemma AdvanceKeeps(first: Option<Doc>, w: World, step: Step)
    requires Inv(first, w)
    ensures Inv(first, AdvanceWorld(w, step))
    ensures w.store.log <= AdvanceWorld(w, step).store.log
  {
    hide Act;
    hide StoreOk;
    hide SessionOk;
    var after := AdvanceWorld(w, step);
    match step {
      case Open(id, config) => FreshSessionOk(first, w.store.log, config);
      case SessionStep(id, a) =>
        if id in w.sessions {
          ActKeeps(first, id, w.sessions[id], w.store, a);
        }
      case OutsideRelease => OwnerIsOutside(first, w.store);
      case OutsideEdit(fields) => PutKeeps(first, w.store, None, w.store.ledger, |w.store.log|, fields, false);
      case OutsidePatch(patch) =>
        if w.store.ledger.Some? {
          PutKeeps(first, w.store, None, w.store.ledger, |w.store.log|,
                   w.store.ledger.value.fields + (patch - {EarnAccrualCheckpoint, ExternalCashFlowCursor}), false);
        }
    }
    forall other | other in w.sessions && after.sessions[other] == w.sessions[other]
      ensures SessionOk(first, after.store.log, after.sessions[other])
    {
      LogGrows(first, w.store.log, after.store.log, w.sessions[other]);
    }
  }

  // ---- No update is lost ------------------------------------------------------------------------

  lemma {:induction false} EveryRunKeeps(ledger: Option<Fields>, steps: seq<Step>)
    ensures Inv(FirstWorld(ledger).store.ledger, RunWorld(FirstWorld(ledger), steps))
  {
    if steps != [] {
      EveryRunKeeps(ledger, steps[..|steps| - 1]);
      AdvanceKeeps(FirstWorld(ledger).store.ledger,
                   RunWorld(FirstWorld(ledger), steps[..|steps| - 1]), steps[|steps| - 1]);
    }
  }

  /**
  In every run, every write a session commits, at once or late, is made while its own owner document is
  present, on exactly the value and version it last loaded or read back, with no change by anyone in
  between; and every write starts from the document its predecessor left.
  */
  lemma NoUpdateIsLost(ledger: Option<Fields>, steps: seq<Step>, k: nat)
    requires k < |RunWorld(FirstWorld(ledger), steps).store.log|
    ensures var log := RunWorld(FirstWorld(ledger), steps).store.log;
            && log[k].before == LedgerAt(FirstWorld(ledger).store.ledger, log, k)
            && (log[k].writer.Some? ==>
                  && log[k].owner == log[k].writer
                  && log[k].base == log[k].before
                  && log[k].since <= k
                  && forall i :: log[k].since <= i < k ==> log[i].before == Some(log[i].after))
  {
    EveryRunKeeps(ledger, steps);
    var log := RunWorld(FirstWorld(ledger), steps).store.log;
    assert Link(FirstWorld(ledger).store.ledger, log, k) && Faithful(log, k);
  }

  // ---- Poison -----------------------------------------------------------------------------------

  /** The session had no owner document to work under, or had one and was asked to claim another. */
  predicate NotAdmitted(s: Session, a: Action) {
    a.Begin? && s.work.None? && (a.call.Claim? <==> s.owner.Some?)
  }

  /** Any failure of an admitted operation, any overlap and any `invalidate` poisons the session. */
  lemma FailurePoisons(id: nat, s: Session, store: Store, a: Action)
    ensures var (t, _, answer) := Act(id, s, store, a);
            && (answer == Some(Raised) && !NotAdmitted(s, a) ==> t.invalid)
            && (a.Begin? && s.work.Some? ==> answer == Some(Raised) && t.invalid)
            && (a.Invalidate? ==> t.invalid)
  {
    hide PrepareSave;
    hide Commit;
    hide Applies;
    hide LoadAccepted;
    hide ReadBackAccepted;
    hide IsReplay;
  }

  lemma PoisonStays(id: nat, s: Session, store: Store, a: Action)
    requires s.invalid
    ensures Act(id, s, store, a).0.invalid
    ensures Act(id, s, store, a).2 in {None, Some(Raised)}
    ensures s.work.None? ==> Act(id, s, store, a).0.work.None?
  {
    hide PrepareSave;
    hide Commit;
    hide Applies;
  }

  /** Whatever happens afterwards, no operation of a poisoned session returns, not even one in flight. */
  lemma {:induction false} PoisonedNeverReturns(w: World, steps: seq<Step>, id: nat)
    requires id in w.sessions && w.sessions[id].invalid
    ensures var after := RunWorld(w, steps);
            && id in after.sessions && after.sessions[id].invalid
            && w.answers <= after.answers
            && forall k :: |w.answers| <= k < |after.answers| && after.answers[k].0 == id ==>
              after.answers[k].1 == Raised
  {
    hide Act;
    if steps != [] {
      var n := |steps| - 1;
      PoisonedNeverReturns(w, steps[..n], id);
      var before := RunWorld(w, steps[..n]);
      if steps[n].SessionStep? && steps[n].id == id {
        PoisonStays(id, before.sessions[id], before.store, steps[n].action);
      }
    }
  }

  // ---- A save in doubt --------------------------------------------------------------------------

  /** A poisoned session that still owns the ledger and has no uncertain release. */
  predicate Frozen(w: World, id: nat) {
    && id in w.sessions && w.store.owner == Some(id)
    && w.sessions[id].invalid && w.sessions[id].work.None?
    && (w.sessions[id].doubt.Some? ==> TxnFits(w.sessions[id], w.sessions[id].doubt.value))
  }

  /** The ledger is what it was, or what the doubtful write of session `id` intends. */
  predicate OldOrIntended(w: World, id: nat, after: World)
    requires Frozen(w, id)
  {
    || after.store.ledger == w.store.ledger
    || (w.sessions[id].doubt.Some? && after.store.ledger.Some?
        && after.store.ledger.value.fields == Intended(w.sessions[id].doubt.value))
  }

  predicate Internal(step: Step) {
    step.Open? || step.SessionStep?
  }

  /** A session other than the owner changes neither the ledger nor the owner document. */
  lemma OthersAreLockedOut(id: nat, s: Session, store: Store, a: Action)
    requires store.owner.Some? && store.owner != Some(id)
    ensures Act(id, s, store, a).1 == store
  {
    hide PrepareSave;
    hide PutLedger;
    hide LoadAccepted;
    hide ReadBackAccepted;
    hide IsReplay;
  }

  /** The owner itself can only see its doubtful write take effect, once. */
  lemma FrozenOwner(id: nat, s: Session, store: Store, a: Action)
    requires store.owner == Some(id) && s.invalid && s.work.None?
    requires s.doubt.Some? ==> TxnFits(s, s.doubt.value)
    ensures var (t, after, _) := Act(id, s, store, a);
            && after.owner == Some(id) && t.source == s.source
            && ((t.doubt == s.doubt && after == store)
                || (s.doubt.Some? && t.doubt.None? && after.ledger.Some?
                  && after.ledger.value.fields == Intended(s.doubt.value)))
  {
    hide PrepareSave;
    hide FindReceipt;
  }

  lemma FrozenStep(w: World, step: Step, id: nat)
    requires Frozen(w, id) && Internal(step)
    ensures var after := AdvanceWorld(w, step);
            && Frozen(after, id) && OldOrIntended(w, id, after)
            && (after.sessions[id].doubt.None?
              || (after.sessions[id].doubt == w.sessions[id].doubt && after.store.ledger == w.store.ledger))
  {
    hide Act;
    if step.SessionStep? && step.id in w.sessions {
      if step.id == id {
        FrozenOwner(id, w.sessions[id], w.store, step.action);
        PoisonStays(id, w.sessions[id], w.store, step.action);
      } else {
        OthersAreLockedOut(step.id, w.sessions[step.id], w.store, step.action);
      }
    }
  }

  /**
  After a save whose outcome stayed unknown, its owner document is never deleted, so no other session
  can claim, and sessions leave the ledger forever at the old source or at the intended document.
  */
  lemma {:induction false} DoubtfulSaveHoldsTheLedger(w: World, steps: seq<Step>, id: nat)
    requires Frozen(w, id) && forall k :: 0 <= k < |steps| ==> Internal(steps[k])
    ensures var after := RunWorld(w, steps);
            && Frozen(after, id) && OldOrIntended(w, id, after)
            && (after.sessions[id].doubt.None?
              || (after.sessions[id].doubt == w.sessions[id].doubt && after.store.ledger == w.store.ledger))
  {
    hide AdvanceWorld;
    if steps != [] {
      var n := |steps| - 1;
      DoubtfulSaveHoldsTheLedger(w, steps[..n], id);
      FrozenStep(RunWorld(w, steps[..n]), steps[n], id);
    }
  }

  /** That situation is what a save with an unacknowledged commit leaves, in every run. */
  lemma UnacknowledgedSaveFreezes(ledger: Option<Fields>, steps: seq<Step>, id: nat, retained: bool)
    requires var w := RunWorld(FirstWorld(ledger), steps);
             && id in w.sessions && w.sessions[id].work.Some? && w.sessions[id].work.value.ToStage?
             && Applies(w.store, id, w.sessions[id].work.value.job.txn) && !w.sessions[id].invalid
    ensures var w := RunWorld(FirstWorld(ledger), steps);
            var after := AdvanceWorld(w, SessionStep(id, Rpc(false, retained)));
            && Frozen(after, id) && after.store == w.store
            && after.sessions[id].doubt == Some(w.sessions[id].work.value.job.txn)
            && Intended(after.sessions[id].doubt.value) == w.sessions[id].work.value.job.intended
  {
    EveryRunKeeps(ledger, steps);
    var w := RunWorld(FirstWorld(ledger), steps);
    hide RunWorld;
    assert SessionOk(FirstWorld(ledger).store.ledger, w.store.log, w.sessions[id]);
  }
}

/**
What the answer of a session's operation means, whatever is revoked or edited from outside on the way: what
was in the store, what is there now, and what the session has as its source.
*/
module SessionResults {
  import opened Outcomes
  import opened IntervalReceipts
  import opened StateSessions
  import opened BoundAccess

  /** Edits leave the owner document alone. */
  lemma EditKeepsOwner(store: Store, edit: Option<Fields>)
    ensures Edited(store, edit).owner == store.owner
  {
  }

  /** One transaction of the operation in flight that neither ends it nor poisons the session. */
  lemma OneRpc(id: nat, s: Session, store: Store, env: seq<Interruption>, k: nat)
    requires s.work.Some? && !s.work.value.ToFinish? && Drive(id, s, store, env, k).2.Some?
    requires Drive(id, s, store, env, k).2.value.Returned?
    ensures k < |env|
    ensures var (t, after, answer) := NextRpc(id, Revoked(s, env[k].revoked), Edited(store, env[k].edit), env[k].acked,
                                              env[k].retained);
            answer.None? && Drive(id, s, store, env, k) == Drive(id, t, after, env, k + 1)
    ensures Edited(store, env[k].edit).owner == store.owner
  {
    EditKeepsOwner(store, env[k].edit);
    hide PutLedger;
    hide Stage;
    hide CommitWith;
    hide LoadAccepted;
    hide ReadBackAccepted;
    hide FindReceipt;
  }

  /** The exit of an operation. */
  lemma Exit(id: nat, s: Session, store: Store, env: seq<Interruption>, k: nat)
    requires s.work.Some? && s.work.value.ToFinish? && Drive(id, s, store, env, k).2.Some?
    requires Drive(id, s, store, env, k).2.value.Returned?
    ensures k < |env| && !s.invalid && !env[k].revoked
    ensures Drive(id, s, store, env, k)
            == (s.(work := None, invalid := s.work.value.closing), Edited(store, env[k].edit),
                Some(Returned(s.work.value.result)))
    ensures Edited(store, env[k].edit).owner == store.owner
  {
    EditKeepsOwner(store, env[k].edit);
    hide PutLedger;
  }

  /** A claim that returns: it created the owner document, or somebody else's was there. */
  lemma ReturnedClaim(id: nat, s: Session, store: Store, env: seq<Interruption>)
    requires Conduct(id, s, store, Call.Claim, env).2.Some? && Conduct(id, s, store, Call.Claim, env).2.value.Returned?
    ensures var (t, after, answer) := Conduct(id, s, store, Call.Claim, env);
            && s.owner.None? && !s.invalid && !t.invalid
            && (answer == Some(Returned(true)) ==> store.owner.None? && after.owner == t.owner == Some(id))
            && (answer == Some(Returned(false)) ==> store.owner.Some? && after.owner == store.owner && t.owner.None?)
  {
    hide PutLedger;
    var begun := s.(work := Some(ToClaim));
    OneRpc(id, begun, store, env, 0);
    var (t, after, _) := NextRpc(id, Revoked(begun, env[0].revoked), Edited(store, env[0].edit), env[0].acked,
                                 env[0].retained);
    Exit(id, t, after, env, 1);
    hide Drive;
  }

  /** A load that returns: the session owns the ledger, and the document as it was read is its source. */
  lemma ReturnedLoad(id: nat, s: Session, store: Store, env: seq<Interruption>)
    requires Conduct(id, s, store, Call.Load, env).2.Some? && Conduct(id, s, store, Call.Load, env).2.value.Returned?
    ensures |env| > 0
    ensures var (t, after, answer) := Conduct(id, s, store, Call.Load, env);
            && answer == Some(Returned(true)) && !s.loaded && t.loaded && !t.invalid && t.owner == s.owner
            && store.owner == Some(id) == after.owner
            && t.source == Edited(store, env[0].edit).ledger
            && (s.config.receiptEnabled ==>
                  t.source.Some? && {EarnAccrualCheckpoint, ExternalCashFlowCursor} <= t.source.value.fields.Keys)
  {
    hide PutLedger;
    var begun := s.(work := Some(ToLoad));
    OneRpc(id, begun, store, env, 0);
    var (t, after, _) := NextRpc(id, Revoked(begun, env[0].revoked), Edited(store, env[0].edit), env[0].acked,
                                 env[0].retained);
    Exit(id, t, after, env, 1);
    hide Drive;
  }

  /** A release that returns: the ledger still was the source, the owner document is gone, the session closed. */
  lemma ReturnedRelease(id: nat, s: Session, store: Store, owner: nat, env: seq<Interruption>)
    requires Conduct(id, s, store, Call.Release(owner), env).2.Some?
    requires Conduct(id, s, store, Call.Release(owner), env).2.value.Returned?
    ensures |env| > 0
    ensures var (t, after, answer) := Conduct(id, s, store, Call.Release(owner), env);
            && answer == Some(Returned(true)) && owner == id && t.invalid
            && store.owner == Some(id) && after.owner.None?
            && (s.loaded ==> Edited(store, env[0].edit).ledger == s.source)
  {
    hide PutLedger;
    var begun := s.(work := Some(ToRelease(DeleteOwner(s.loaded, s.source))));
    OneRpc(id, begun, store, env, 0);
    var (t, after, _) := NextRpc(id, Revoked(begun, env[0].revoked), Edited(store, env[0].edit), env[0].acked,
                                 env[0].retained);
    Exit(id, t, after, env, 1);
    hide Drive;
  }

  // ---- Saves ----------------------------------------------------------------------------------------

  /** The document is the intended one, newer than the one before or, if nothing changed, the same. */
  predicate Succeeds(before: Option<Doc>, after: Option<Doc>, intended: Fields) {
    && after.Some? && after.value.fields == intended
    && (before.Some? ==>
          || before.value.version < after.value.version
          || before == after)
  }

  /** The readback: what it publishes is what the save intended. */
  lemma ReturnedReadBack(id: nat, s: Session, store: Store, env: seq<Interruption>, k: nat, job: Job)
    requires s.work == Some(ToReadBack(job)) && Drive(id, s, store, env, k).2.Some?
    requires Drive(id, s, store, env, k).2.value.Returned?
    ensures var (t, after, answer) := Drive(id, s, store, env, k);
            && answer == Some(Returned(true)) && !t.invalid && t.owner == s.owner
              && after.owner == store.owner == Some(id)
            && Succeeds(s.source, t.source, job.intended)
  {
    hide PutLedger;
    OneRpc(id, s, store, env, k);
    var (t, after, _) := NextRpc(id, Revoked(s, env[k].revoked), Edited(store, env[k].edit), env[k].acked,
                                 env[k].retained);
    Exit(id, t, after, env, k + 1);
    hide Drive;
  }

  /** What a save does to the source's fields. */
  ghost predicate Merged(s: Session, data: Fields, interval: Option<Interval>, fields: Fields) {
    && (interval.None? ==> KeepsUnknown(SourceFields(s), s.config.normalize(data), fields))
    && (interval.None? && s.config.receiptEnabled ==>
          SameAt(SourceFields(s), fields, {EarnAccrualCheckpoint, ExternalCashFlowCursor}))
    && (interval.Some? ==> PatchedOnly(SourceFields(s), s.config.normalize(data), fields))
  }

  /** The receipt of an interval from one document to another. */
  predicate IsReceipt(r: Receipt, path: string, before: Doc, after: Fields, i: Interval) {
    r == Receipt(path, before.version, before.fields, after, r.patch, i)
  }

  /**
  A save that returns, whatever was edited or revoked on the way: the session still owns the ledger, its new
  source holds exactly the merged fields, at a newer version unless nothing changed, an ordinary save was
  committed on the very document the session had as its source, and an interval save has left its receipt.
  */
  lemma ReturnedSave(id: nat, s: Session, store: Store, data: Fields, interval: Option<Interval>,
                     env: seq<Interruption>)
    requires Conduct(id, s, store, Call.Save(data, interval), env).2.Some?
    requires Conduct(id, s, store, Call.Save(data, interval), env).2.value.Returned?
    ensures |env| > 0
    ensures var (t, after, answer) := Conduct(id, s, store, Call.Save(data, interval), env);
            && answer == Some(Returned(true)) && s.loaded && !t.invalid && t.owner == s.owner
            && store.owner == Some(id) == after.owner
            && t.source.Some? && Succeeds(s.source, t.source, t.source.value.fields)
            && Merged(s, data, interval, t.source.value.fields)
            && (interval.None? ==> Edited(store, env[0].edit).ledger == s.source)
            && (interval.Some? ==>
                  s.source.Some? && exists r ::
                    r in after.receipts
                    && IsReceipt(r, s.config.path, s.source.value, t.source.value.fields, interval.value))
  {
    hide PrepareSave;
    hide Drive;
    var job := PrepareSave(s, data, interval).value;
    PreparedKeeps(s, data, interval);
    PreparedJob(s, data, interval);
    var begun := s.(work := Some(ToStage(job)));
    if interval.None? {
      ReturnedWrite(id, begun, store, env, job);
    } else {
      ReturnedReceipt(id, begun, store, env, job);
    }
  }

  /** The job of a save and its transaction. */
  lemma PreparedJob(s: Session, data: Fields, interval: Option<Interval>)
    requires PrepareSave(s, data, interval).Ok?
    ensures var job := PrepareSave(s, data, interval).value;
            && (interval.None? ==> job.txn == WriteLedger(s.source, job.intended))
            && (interval.Some? ==>
                  && job.txn.WriteReceipt? && s.source == Some(job.txn.source)
                  && IsReceipt(job.txn.plan.receipt, s.config.path, s.source.value, job.intended, interval.value))
  {
    hide Transition;
    hide ValidInterval;
  }

  lemma ReturnedWrite(id: nat, s: Session, store: Store, env: seq<Interruption>, job: Job)
    requires s.work == Some(ToStage(job)) && job.txn == WriteLedger(s.source, job.intended)
    requires Drive(id, s, store, env, 0).2.Some? && Drive(id, s, store, env, 0).2.value.Returned?
    ensures |env| > 0
    ensures var (t, after, answer) := Drive(id, s, store, env, 0);
            && answer == Some(Returned(true)) && !t.invalid && t.owner == s.owner
            && store.owner == Some(id) == after.owner && Edited(store, env[0].edit).ledger == s.source
            && Succeeds(s.source, t.source, job.intended)
  {
    hide PutLedger;
    hide Drive;
    OneRpc(id, s, store, env, 0);
    var (t, after, _) := NextRpc(id, Revoked(s, env[0].revoked), Edited(store, env[0].edit), env[0].acked,
                                 env[0].retained);
    ReturnedReadBack(id, t, after, env, 1, job);
  }

  lemma ReturnedReceipt(id: nat, s: Session, store: Store, env: seq<Interruption>, job: Job)
    requires s.work == Some(ToStage(job)) && job.txn.WriteReceipt?
    requires Drive(id, s, store, env, 0).2.Some? && Drive(id, s, store, env, 0).2.value.Returned?
    ensures |env| > 0
    ensures var (t, after, answer) := Drive(id, s, store, env, 0);
            && answer == Some(Returned(true)) && !t.invalid && t.owner == s.owner
            && store.owner == Some(id) == after.owner
            && Succeeds(s.source, t.source, job.intended) && job.txn.plan.receipt in after.receipts
  {
    hide Drive;
    OneRpc(id, s, store, env, 0);
    StagedOwner(id, s, store, env[0], job);
    var (t1, after1, _) := NextRpc(id, Revoked(s, env[0].revoked), Edited(store, env[0].edit), env[0].acked,
                                   env[0].retained);
    OneRpc(id, t1, after1, env, 1);
    var store2 := Edited(after1, env[1].edit);
    var (t2, after2, _) := NextRpc(id, Revoked(t1, env[1].revoked), store2, env[1].acked, env[1].retained);
    ConfirmedReceipt(id, Revoked(t1, env[1].revoked), store2, env[1], job);
    hide NextRpc;
    hide PutLedger;
    ReturnedReadBack(id, t2, after2, env, 2, job);
    ReadBackKeepsReceipts(id, t2, after2, env, job);
  }

  lemma StagedOwner(id: nat, s: Session, store: Store, i: Interruption, job: Job)
    requires s.work == Some(ToStage(job)) && job.txn.WriteReceipt?
    requires NextRpc(id, Revoked(s, i.revoked), Edited(store, i.edit), i.acked, i.retained).2.None?
    ensures var (t, after, _) := NextRpc(id, Revoked(s, i.revoked), Edited(store, i.edit), i.acked, i.retained);
            && t.work == Some(ToConfirmReceipt(job)) && t.source == s.source && t.owner == s.owner
            && store.owner == Some(id) == after.owner
  {
    hide FindReceipt;
  }

  lemma {:induction false} FoundIsThere(receipts: seq<Receipt>, id: IntervalId)
    ensures FindReceipt(receipts, id).Some? ==> FindReceipt(receipts, id).value in receipts
  {
    if receipts != [] {
      FoundIsThere(receipts[1..], id);
    }
  }

  lemma ConfirmedReceipt(id: nat, s: Session, store: Store, i: Interruption, job: Job)
    requires s.work == Some(ToConfirmReceipt(job)) && job.txn.WriteReceipt?
    requires NextRpc(id, s, store, i.acked, i.retained).2.None?
    ensures var (t, after, _) := NextRpc(id, s, store, i.acked, i.retained);
            && t == s.(work := Some(ToReadBack(job))) && after == store && job.txn.plan.receipt in after.receipts
  {
    FoundIsThere(store.receipts, IdOf(job.txn.plan.receipt.interval));
    hide FindReceipt;
  }

  lemma ReadBackKeepsReceipts(id: nat, s: Session, store: Store, env: seq<Interruption>, job: Job)
    requires s.work == Some(ToReadBack(job)) && Drive(id, s, store, env, 2).2.Some?
    requires Drive(id, s, store, env, 2).2.value.Returned?
    ensures Drive(id, s, store, env, 2).1.receipts == store.receipts
  {
    hide Drive;
    OneRpc(id, s, store, env, 2);
    var (t, after, _) := NextRpc(id, Revoked(s, env[2].revoked), Edited(store, env[2].edit), env[2].acked,
                                 env[2].retained);
    Exit(id, t, after, env, 3);
  }

  // ---- When operations return -----------------------------------------------------------------------

  /** Nothing is revoked or edited, and every reply arrives. */
  predicate Calm(env: seq<Interruption>) {
    && |env| >= 4
    && forall k :: 0 <= k < |env| ==> !env[k].revoked && env[k].edit == None && env[k].acked
  }

  /** The session may begin an operation on the store it owns. */
  predicate Owns(id: nat, s: Session, store: Store) {
    !s.invalid && s.work == None && s.owner == Some(id) && store.owner == Some(id)
  }

  lemma CalmStep(s: Session, store: Store, env: seq<Interruption>, k: nat)
    requires Calm(env) && k < |env|
    ensures Revoked(s, env[k].revoked) == s && Edited(store, env[k].edit) == store && env[k].acked
  {
  }

  /** One transaction and the exit, with nothing in between. */
  lemma CalmExit(id: nat, s: Session, store: Store, env: seq<Interruption>)
    requires Calm(env) && s.work.Some? && !s.work.value.ToFinish?
    requires var (t, after, answer) := NextRpc(id, s, store, true, env[0].retained);
             answer.None? && t.work.Some? && t.work.value.ToFinish? && !t.invalid
    ensures Drive(id, s, store, env, 0).2
            == Some(Returned(NextRpc(id, s, store, true, env[0].retained).0.work.value.result))
  {
    hide NextRpc;
    hide PutLedger;
    CalmStep(s, store, env, 0);
    var (t, after, _) := NextRpc(id, s, store, true, env[0].retained);
    CalmStep(t, after, env, 1);
  }

  /** A claim returns, with success exactly when nobody owns the ledger. */
  lemma CalmClaimReturns(id: nat, s: Session, store: Store, env: seq<Interruption>)
    requires Calm(env) && !s.invalid && s.work == None && s.owner == None
    ensures Conduct(id, s, store, Call.Claim, env).2 == Some(Returned(store.owner == None))
  {
    hide Drive;
    hide PutLedger;
    CalmExit(id, s.(work := Some(ToClaim)), store, env);
  }

  /** The first load of an owner returns; with receipts the document must hold checkpoint and cursor. */
  lemma CalmLoadReturns(id: nat, s: Session, store: Store, env: seq<Interruption>)
    requires Calm(env) && Owns(id, s, store) && !s.loaded
    requires s.config.receiptEnabled ==>
               store.ledger.Some? && {EarnAccrualCheckpoint, ExternalCashFlowCursor} <= store.ledger.value.fields.Keys
    ensures Conduct(id, s, store, Call.Load, env).2 == Some(Returned(true))
  {
    hide Drive;
    hide PutLedger;
    CalmExit(id, s.(work := Some(ToLoad)), store, env);
  }

  /** A release by the owner returns while the ledger is as it was last read. */
  lemma CalmReleaseReturns(id: nat, s: Session, store: Store, env: seq<Interruption>)
    requires Calm(env) && Owns(id, s, store) && (s.loaded ==> store.ledger == s.source)
    ensures Conduct(id, s, store, Call.Release(id), env).2 == Some(Returned(true))
  {
    hide Drive;
    hide PutLedger;
    CalmExit(id, s.(work := Some(ToRelease(DeleteOwner(s.loaded, s.source)))), store, env);
  }

  /**
  A save is prepared exactly when it is ordinary and, with receipts, leaves checkpoint and cursor as they are,
  or it has an interval, receipts and a source, changes no field outside the patch, and the plan can be built.
  */
  lemma PreparedIff(s: Session, data: Fields, interval: Option<Interval>)
    ensures var normalized := s.config.normalize(data);
            PrepareSave(s, data, interval).Ok? <==>
              if interval == None then
                s.config.receiptEnabled ==>
                  SameAt(SourceFields(s), normalized, {EarnAccrualCheckpoint, ExternalCashFlowCursor})
              else
                && s.config.receiptEnabled && s.source != None && PATCH_FIELDS <= normalized.Keys
                && (forall f :: f !in PATCH_FIELDS ==>
                  Get(s.config.normalize(SourceFields(s)), f) == Get(normalized, f))
                && BuildPlan(s.config.path, s.source.value.version, SourceFields(s),
                             SourceFields(s) + Restrict(normalized, PATCH_FIELDS), interval.value).Ok?
  {
    hide BuildPlan;
    var a, b := s.config.normalize(SourceFields(s)), s.config.normalize(data);
    if forall f :: f !in PATCH_FIELDS ==> Get(a, f) == Get(b, f) {
      forall f | f !in PATCH_FIELDS ensures (f in a <==> f in b) && (f in a ==> a[f] == b[f]) {
        assert Get(a, f) == Get(b, f);
      }
      assert a - PATCH_FIELDS == b - PATCH_FIELDS;
    }
    if a - PATCH_FIELDS == b - PATCH_FIELDS {
      forall f | f !in PATCH_FIELDS ensures Get(a, f) == Get(b, f) {
        assert f in a - PATCH_FIELDS <==> f in a;
        assert f in b - PATCH_FIELDS <==> f in b;
      }
    }
  }

  /** A prepared save of the owner returns while the ledger is as it was last read and has no such receipt yet. */
  lemma CalmSaveReturns(id: nat, s: Session, store: Store, data: Fields, interval: Option<Interval>,
                        env: seq<Interruption>)
    requires Calm(env) && Owns(id, s, store) && s.loaded && store.ledger == s.source
    requires store.ledger.Some? ==> store.ledger.value.version <= store.clock
    requires PrepareSave(s, data, interval).Ok?
    requires interval.Some? ==> FindReceipt(store.receipts, IdOf(interval.value)).None?
    ensures Conduct(id, s, store, Call.Save(data, interval), env).2 == Some(Returned(true))
  {
    hide PrepareSave;
    var job := PrepareSave(s, data, interval).value;
    PreparedJob(s, data, interval);
    if interval.Some? {
      PreparedIntends(s, data, interval);
    }
    var begun := s.(work := Some(ToStage(job)));
    if interval.None? {
      CalmWriteReturns(id, begun, store, env, job);
    } else {
      CalmReceiptReturns(id, begun, store, env, job);
    }
    hide Drive;
  }

  /** The patch of a prepared receipt turns the source into what is intended. */
  lemma PreparedIntends(s: Session, data: Fields, interval: Option<Interval>)
    requires PrepareSave(s, data, interval).Ok? && interval.Some?
    ensures var job := PrepareSave(s, data, interval).value;
            job.txn.WriteReceipt? && SourceFields(s) + job.txn.plan.receipt.patch == job.intended
  {
    var source, version := s.source.value.fields, s.source.value.version;
    var intended := source + Restrict(s.config.normalize(data), PATCH_FIELDS);
    BuiltPlanIsExact(s.config.path, version, source, intended, interval.value);
    hide BuildPlan;
  }

  lemma CalmReadBackReturns(id: nat, s: Session, store: Store, env: seq<Interruption>, k: nat, job: Job)
    requires Calm(env) && k + 1 < |env| && !s.invalid && s.work == Some(ToReadBack(job)) && store.owner == Some(id)
    requires Succeeds(s.source, store.ledger, job.intended)
    ensures Drive(id, s, store, env, k).2 == Some(Returned(true))
  {
    CalmStep(s, store, env, k);
    CalmStep(Publish(s, store, ToFinish(false, true)), store, env, k + 1);
    hide PutLedger;
  }

  lemma CalmWriteReturns(id: nat, s: Session, store: Store, env: seq<Interruption>, job: Job)
    requires Calm(env) && !s.invalid && store.owner == Some(id) && store.ledger == s.source
    requires store.ledger.Some? ==> store.ledger.value.version <= store.clock
    requires s.work == Some(ToStage(job)) && job.txn == WriteLedger(s.source, job.intended)
    ensures Drive(id, s, store, env, 0).2 == Some(Returned(true))
  {
    CalmStep(s, store, env, 0);
    var (t, after, _) := NextRpc(id, s, store, true, env[0].retained);
    CalmReadBackReturns(id, t, after, env, 1, job);
    hide Drive;
  }

  lemma CalmReceiptReturns(id: nat, s: Session, store: Store, env: seq<Interruption>, job: Job)
    requires Calm(env) && !s.invalid && store.owner == Some(id) && store.ledger == s.source && s.source.Some?
    requires store.ledger.value.version <= store.clock
    requires s.work == Some(ToStage(job)) && job.txn.WriteReceipt? && job.txn.source == s.source.value
    requires var r := job.txn.plan.receipt;
             && r.before == s.source.value.fields && r.after == job.intended
             && s.source.value.fields + r.patch == job.intended && FindReceipt(store.receipts, IdOf(r.interval)).None?
    ensures Drive(id, s, store, env, 0).2 == Some(Returned(true))
  {
    CalmStep(s, store, env, 0);
    var (t, after, _) := NextRpc(id, s, store, true, env[0].retained);
    FindLast(store.receipts, job.txn.plan.receipt);
    CalmStep(t, after, env, 1);
    hide FindReceipt;
    var (t2, after2, _) := NextRpc(id, t, after, true, env[1].retained);
    CalmReadBackReturns(id, t2, after2, env, 2, job);
    hide Drive;
  }

  /** A new session is idle and valid, owns nothing and has read nothing, so that it may claim and do nothing else. */
  lemma NewSessionMayClaim(id: nat, config: Config, store: Store, call: Call, env: seq<Interruption>)
    requires Calm(env)
    ensures var s := NewSession(config);
            && s.source == None && !s.loaded && s.doubt == None && s.config == config
            && Conduct(id, s, store, Call.Claim, env).2 == Some(Returned(store.owner == None))
            && (!call.Claim? ==> Conduct(id, s, store, call, env) == (s, store, Some(Raised)))
  {
    CalmClaimReturns(id, NewSession(config), store, env);
    hide Drive;
  }
}

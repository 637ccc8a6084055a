/**
With receipts enabled in every session, the receipts of any run (late and doubtful commits included)
are exactly the committed checkpoint moves, they chain end to start in the order of their source
versions, and the reader accepts them as a whole.
*/
module ReceiptChain {
  import opened Outcomes
  import opened IntervalReceipts
  import opened StateSessions
  import opened IntervalReader

  // ---- Invariant --------------------------------------------------------------------------------

  /** A receipt starts where its predecessor ended, from a newer version of the same account's ledger. */
  predicate Continues(a: Receipt, b: Receipt) {
    b.interval.start == a.interval.end && b.interval.scope == a.interval.scope && a.version < b.version
  }

  predicate Chain(path: string, receipts: seq<Receipt>) {
    && (forall k :: 0 <= k < |receipts| ==> ValidInterval(receipts[k].interval) && receipts[k].path == path)
    && forall k :: 0 < k < |receipts| ==> Continues(receipts[k - 1], receipts[k])
  }

  /** The ledger's checkpoint stands at the end of the last receipt. */
  predicate AtLastEnd(receipts: seq<Receipt>, doc: Doc) {
    receipts != [] ==>
      var last := receipts[|receipts| - 1];
      IsCheckpoint(doc.fields, last.interval.scope, last.interval.end) && last.version < doc.version
  }

  /** One committed change of the checkpoint. */
  datatype Move = Move(version: nat, before: Fields, after: Fields)

  function Moves(log: seq<Write>): seq<Move> {
    if log == [] then []
    else
      var e := log[|log| - 1];
      Moves(log[..|log| - 1])
      + (if e.before.Some?
            && Get(e.before.value.fields, EarnAccrualCheckpoint) != Get(e.after.fields, EarnAccrualCheckpoint) then
           [Move(e.before.value.version, e.before.value.fields, e.after.fields)]
         else [])
  }

  function Recorded(receipts: seq<Receipt>): seq<Move> {
    if receipts == [] then []
    else
      var r := receipts[|receipts| - 1];
      Recorded(receipts[..|receipts| - 1]) + [Move(r.version, r.before, r.after)]
  }

  predicate TxnOk(path: string, txn: Txn) {
    match txn
    case WriteLedger(base, fields) =>
      base.Some? && Get(base.value.fields, EarnAccrualCheckpoint) == Get(fields, EarnAccrualCheckpoint)
    case WriteReceipt(source, plan) =>
      BuildPlan(path, source.version, source.fields, plan.receipt.after, plan.receipt.interval) == Ok(plan)
    case _ => true
  }

  predicate SessionOk(path: string, s: Session) {
    && s.config.receiptEnabled && s.config.path == path
    && (s.loaded ==> s.source.Some?)
    && (s.work.Some? && s.work.value.ToStage? ==> TxnOk(path, s.work.value.job.txn))
    && (s.work.Some? && s.work.value.ToRelease? ==> s.work.value.txn.DeleteOwner?)
    && (s.doubt.Some? ==> TxnOk(path, s.doubt.value))
  }

  predicate StoreOk(path: string, store: Store) {
    && store.ledger.Some? && store.ledger.value.version <= store.clock
    && Chain(path, store.receipts) && AtLastEnd(store.receipts, store.ledger.value)
    && Moves(store.log) == Recorded(store.receipts)
  }

  predicate Inv(path: string, w: World) {
    && StoreOk(path, w.store)
    && forall id :: id in w.sessions ==> SessionOk(path, w.sessions[id])
  }

  // ---- Commits ----------------------------------------------------------------------------------

  /** A write that leaves the checkpoint alone moves nothing. */
  lemma PutKeeps(path: string, store: Store, writer: Option<nat>, base: Option<Doc>, since: nat, fields: Fields,
                 retained: bool)
    requires StoreOk(path, store)
    requires Get(store.ledger.value.fields, EarnAccrualCheckpoint) == Get(fields, EarnAccrualCheckpoint)
    ensures StoreOk(path, PutLedger(store, writer, base, since, fields, retained))
  {
    var after := PutLedger(store, writer, base, since, fields, retained);
    assert after.log[..|store.log|] == store.log;
    assert Moves(after.log) == Moves(store.log) + [];
    hide ValidInterval;
    hide Moves;
  }

  /** What a planned receipt says of the document it was planned on. */
  lemma PlannedReceipt(path: string, source: Doc, plan: Plan)
    requires TxnOk(path, WriteReceipt(source, plan))
    ensures var r := plan.receipt;
            && ValidInterval(r.interval) && r.path == path && r.version == source.version
            && r.before == source.fields && source.fields + r.patch == r.after
            && IsCheckpoint(r.before, r.interval.scope, r.interval.start)
              && IsCheckpoint(r.after, r.interval.scope, r.interval.end)
            && Get(r.before, EarnAccrualCheckpoint) != Get(r.after, EarnAccrualCheckpoint)
  {
    BuiltPlanIsExact(path, source.version, source.fields, plan.receipt.after, plan.receipt.interval);
  }

  /** A receipt commit extends the chain by one link and records the move it makes. */
  lemma ReceiptKeeps(path: string, store: Store, id: nat, since: nat, source: Doc, plan: Plan, retained: bool)
    requires StoreOk(path, store) && Applies(store, id, WriteReceipt(source, plan))
    requires TxnOk(path, WriteReceipt(source, plan))
    ensures StoreOk(path, Commit(store, id, since, WriteReceipt(source, plan), retained))
  {
    hide BuildPlan;
    hide ValidInterval;
    hide IsCheckpoint;
    hide FindReceipt;
    hide Chain;
    var r, doc := plan.receipt, store.ledger.value;
    PlannedReceipt(path, source, plan);
    var after := Commit(store, id, since, WriteReceipt(source, plan), retained);
    assert after.ledger == Some(Doc(r.after, store.clock + 1));
    assert after.receipts[..|store.receipts|] == store.receipts;
    assert after.log[..|store.log|] == store.log;
    assert Moves(after.log) == Moves(store.log) + [Move(source.version, r.before, r.after)];
    ChainGrows(path, store.receipts, r, doc);
  }

  lemma ChainGrows(path: string, receipts: seq<Receipt>, r: Receipt, doc: Doc)
    requires Chain(path, receipts) && AtLastEnd(receipts, doc)
    requires ValidInterval(r.interval) && r.path == path && r.version == doc.version
    requires IsCheckpoint(doc.fields, r.interval.scope, r.interval.start)
    ensures Chain(path, receipts + [r])
  {
    var longer := receipts + [r];
    forall k | 0 < k < |longer| ensures Continues(longer[k - 1], longer[k]) {
      if k < |receipts| {
        assert longer[k] == receipts[k] && longer[k - 1] == receipts[k - 1];
      }
    }
  }

  lemma CommitKeeps(path: string, store: Store, id: nat, since: nat, txn: Txn, retained: bool)
    requires StoreOk(path, store) && Applies(store, id, txn) && TxnOk(path, txn)
    ensures StoreOk(path, Commit(store, id, since, txn, retained))
  {
    match txn
    case WriteLedger(base, fields) => PutKeeps(path, store, Some(id), base, since, fields, retained);
    case WriteReceipt(source, plan) => ReceiptKeeps(path, store, id, since, source, plan, retained);
    case _ =>
  }

  // ---- Steps ------------------------------------------------------------------------------------

  lemma PreparedOk(path: string, s: Session, data: Fields, interval: Option<Interval>)
    requires s.config.receiptEnabled && s.config.path == path && s.source.Some? && PrepareSave(s, data, interval).Ok?
    ensures TxnOk(path, PrepareSave(s, data, interval).value.txn)
  {
    hide Transition;
    hide ValidInterval;
  }

  lemma EnterKeeps(path: string, id: nat, s: Session, call: Call)
    requires SessionOk(path, s)
    ensures SessionOk(path, Enter(id, s, call).0)
  {
    if call.Save? && s.loaded && PrepareSave(s, call.data, call.interval).Ok? {
      PreparedOk(path, s, call.data, call.interval);
    }
    hide PrepareSave;
    hide TxnOk;
    assert TxnOk(path, DeleteOwner(s.loaded, s.source)) by { DeleteIsOk(path, s.loaded, s.source); }
  }

  lemma DeleteIsOk(path: string, bound: bool, expected: Option<Doc>)
    ensures TxnOk(path, DeleteOwner(bound, expected)) && TxnOk(path, CreateOwner)
  {
  }

  lemma CommitWithKeeps(path: string, id: nat, s: Session, store: Store, txn: Txn, acked: bool, retained: bool,
                        next: Work)
    requires StoreOk(path, store) && SessionOk(path, s) && TxnOk(path, txn)
    requires next.ToConfirmReceipt? || next.ToReadBack? || next.ToFinish?
    ensures var (t, after, _) := CommitWith(id, s, store, txn, acked, retained, next);
            StoreOk(path, after) && SessionOk(path, t)
  {
    hide StoreOk;
    hide Commit;
    hide Applies;
    hide TxnOk;
    if Applies(store, id, txn) && acked {
      CommitKeeps(path, store, id, s.seenAt, txn, retained);
    }
  }

  lemma NextRpcKeeps(path: string, id: nat, s: Session, store: Store, acked: bool, retained: bool)
    requires StoreOk(path, store) && SessionOk(path, s) && s.work.Some?
    ensures var (t, after, _) := NextRpc(id, s, store, acked, retained);
            StoreOk(path, after) && SessionOk(path, t)
  {
    hide StoreOk;
    hide CommitWith;
    hide Commit;
    hide IsReplay;
    hide TxnOk;
    DeleteIsOk(path, s.loaded, s.source);
    if s.work.value.ToClaim? && store.owner.None? && acked {
      CommitKeeps(path, store, id, s.seenAt, CreateOwner, false);
    }
    if !s.invalid {
      match s.work.value
      case ToStage(job) =>
        CommitWithKeeps(path, id, s, store, job.txn, acked, retained,
                        if job.txn.WriteReceipt? then ToConfirmReceipt(job) else ToReadBack(job));
      case ToRelease(txn) =>
        DeleteIsOk(path, txn.bound, txn.expected);
        CommitWithKeeps(path, id, s, store, txn, acked, retained, ToFinish(true, true));
      case _ =>
    }
  }

  lemma ActKeeps(path: string, id: nat, s: Session, store: Store, a: Action)
    requires StoreOk(path, store) && SessionOk(path, s)
    ensures var (t, after, _) := Act(id, s, store, a);
            StoreOk(path, after) && SessionOk(path, t)
  {
    hide StoreOk;
    hide Enter;
    hide NextRpc;
    hide Commit;
    hide Applies;
    hide TxnOk;
    match a
    case Begin(call) => EnterKeeps(path, id, s, call);
    case Rpc(acked, retained) =>
      if s.work.Some? {
        NextRpcKeeps(path, id, s, store, acked, retained);
      }
    case Late(keeps) =>
      if s.doubt.Some? && Applies(store, id, s.doubt.value) {
        CommitKeeps(path, store, id, s.seenAt, s.doubt.value, keeps);
      }
    case _ =>
  }

  lemma AdvanceKeeps(path: string, w: World, step: Step)
    requires Inv(path, w) && !step.OutsideEdit?
             && (step.Open? ==> step.config.receiptEnabled && step.config.path == path)
    ensures Inv(path, AdvanceWorld(w, step))
  {
    hide Act;
    hide StoreOk;
    match step
    case Open(id, config) => assert SessionOk(path, NewSession(config));
    case SessionStep(id, a) =>
      if id in w.sessions {
        ActKeeps(path, id, w.sessions[id], w.store, a);
      }
    case OutsideRelease => OwnerIsOutside(path, w.store);
    case OutsidePatch(patch) =>
      LedgerIsThere(path, w.store);
      var fields := w.store.ledger.value.fields + (patch - {EarnAccrualCheckpoint, ExternalCashFlowCursor});
      PutKeeps(path, w.store, None, w.store.ledger, |w.store.log|, fields, false);
    case _ =>
  }

  lemma OwnerIsOutside(path: string, store: Store)
    requires StoreOk(path, store)
    ensures StoreOk(path, store.(owner := None))
  {
  }

  lemma LedgerIsThere(path: string, store: Store)
    requires StoreOk(path, store)
    ensures store.ledger.Some?
  {
  }

  /** Nobody but the sessions moves the checkpoint or the cursor. */
  predicate Protected(steps: seq<Step>) {
    forall k :: 0 <= k < |steps| ==> !steps[k].OutsideEdit?
  }

  /** Every session has receipts enabled and works on the ledger at `path`; their normalisers may differ. */
  predicate AllReceipts(path: string, steps: seq<Step>) {
    forall k :: 0 <= k < |steps| ==> steps[k].Open? ==> steps[k].config.receiptEnabled && steps[k].config.path == path
  }

  lemma {:induction false} EveryRunKeeps(path: string, fields: Fields, steps: seq<Step>)
    requires AllReceipts(path, steps) && Protected(steps)
    ensures Inv(path, RunWorld(FirstWorld(Some(fields)), steps))
  {
    hide AdvanceWorld;
    if steps != [] {
      EveryRunKeeps(path, fields, steps[..|steps| - 1]);
      AdvanceKeeps(path, RunWorld(FirstWorld(Some(fields)), steps[..|steps| - 1]), steps[|steps| - 1]);
    }
  }

  // ---- Main results -----------------------------------------------------------------------------

  function FinalStore(fields: Fields, steps: seq<Step>): Store {
    RunWorld(FirstWorld(Some(fields)), steps).store
  }

  /**
  In every run a receipt exists exactly when its checkpoint move was committed, in the same order, with
  the version and the documents before and after; and consecutive receipts meet end to start, from
  strictly newer versions.
  */
  lemma ReceiptsAreTheMoves(path: string, fields: Fields, steps: seq<Step>)
    requires AllReceipts(path, steps) && Protected(steps)
    ensures var store := FinalStore(fields, steps);
            && Moves(store.log) == Recorded(store.receipts)
            && Chain(path, store.receipts)
            && store.ledger.Some? && AtLastEnd(store.receipts, store.ledger.value)
  {
    EveryRunKeeps(path, fields, steps);
  }

  /**
  After a receipt committed, staging the same plan again from the ledger it left writes nothing: the
  store is unchanged, and an acknowledged replay goes on to its readback.
  */
  lemma ReplayWritesNothing(path: string, id: nat, since: nat, s: Session, store: Store, source: Doc, plan: Plan,
                            acked: bool, retained: bool)
    requires StoreOk(path, store) && Applies(store, id, WriteReceipt(source, plan))
    requires TxnOk(path, WriteReceipt(source, plan))
    ensures var after := Commit(store, id, since, WriteReceipt(source, plan), retained);
            after.ledger.Some?
            && var job := Job(WriteReceipt(after.ledger.value, plan), plan.receipt.after);
               Stage(id, s, after, job, acked, retained)
               == (if acked then (s.(work := Some(ToConfirmReceipt(job))), after, None)
                 else (Poison(s), after, Some(Raised)))
  {
    var r := plan.receipt;
    BuiltPlanIsExact(path, source.version, source.fields, r.after, r.interval);
    FindLast(store.receipts, r);
  }

  function Entries(receipts: seq<Receipt>): seq<Entry> {
    if receipts == [] then [] else Entries(receipts[..|receipts| - 1]) + [EntryOf(receipts[|receipts| - 1])]
  }

  lemma {:induction false} EntriesAt(receipts: seq<Receipt>)
    ensures |Entries(receipts)| == |receipts|
    ensures forall k :: 0 <= k < |receipts| ==> Entries(receipts)[k] == EntryOf(receipts[k])
  {
    if receipts != [] {
      EntriesAt(receipts[..|receipts| - 1]);
    }
  }

  lemma {:induction false} ChainScans(path: string, receipts: seq<Receipt>, i: nat)
    requires Chain(path, receipts) && i < |receipts|
    ensures Scan(receipts[i..], Start(receipts[i]), End(receipts[|receipts| - 1]),
                 if i == 0 then None else Some(receipts[i - 1].version)).Ok?
    decreases |receipts| - i
  {
    assert i > 0 ==> Continues(receipts[i - 1], receipts[i]);
    assert receipts[i..][1..] == receipts[i + 1..];
    if i + 1 < |receipts| {
      assert Continues(receipts[i], receipts[i + 1]);
      ChainScans(path, receipts, i + 1);
    }
  }

  lemma {:induction false} OneScope(path: string, receipts: seq<Receipt>, k: nat)
    requires Chain(path, receipts) && k < |receipts|
    ensures receipts[k].interval.scope == receipts[0].interval.scope
  {
    if k > 0 {
      OneScope(path, receipts, k - 1);
      assert Continues(receipts[k - 1], receipts[k]);
    }
  }

  lemma ChainIsReadable(path: string, receipts: seq<Receipt>, q: Request)
    requires Chain(path, receipts) && receipts != [] && CoversRun(q, path, receipts)
    ensures AllReadable(q, Entries(receipts)) && Receipts(Entries(receipts)) == SetOf(receipts)
  {
    hide ValidInterval;
    EntriesAt(receipts);
    forall k | 0 <= k < |receipts| ensures Readable(q, Entries(receipts)[k]) {
      OneScope(path, receipts, k);
    }
    forall r | r in SetOf(receipts) ensures r in Receipts(Entries(receipts)) {
      var k :| 0 <= k < |receipts| && receipts[k] == r;
      assert Entries(receipts)[k].receipt == r;
    }
  }

  lemma ChainIsTiling(path: string, receipts: seq<Receipt>, q: Request)
    requires Chain(path, receipts) && receipts != [] && CoversRun(q, path, receipts)
    ensures Tiles(q, SetOf(receipts)) && Proper(receipts) && Scan(receipts, q.start, q.end, None).Ok? && q.start < q.end
  {
    assert receipts[0..] == receipts;
    ChainScans(path, receipts, 0);
    ScannedTiles(q, receipts);
    ScannedIsChain(receipts, q.start, q.end, None);
  }

  /** The request for the whole run: its account, from the first start to the last end. */
  predicate CoversRun(q: Request, path: string, receipts: seq<Receipt>)
    requires receipts != []
  {
    && q.ledgerPath == path && q.scope == receipts[0].interval.scope
    && q.start == Start(receipts[0]) && q.end == End(receipts[|receipts| - 1])
  }

  /**
  Within the reader's limits the receipts of any run are accepted as a whole, in whatever order and
  however often they are supplied, and come out in the order in which they were committed.
  */
  lemma ReaderAcceptsEveryRun(path: string, fields: Fields, steps: seq<Step>, q: Request, supplied: seq<Entry>)
    requires AllReceipts(path, steps) && Protected(steps)
    requires var receipts := FinalStore(fields, steps).receipts;
             && receipts != [] && CoversRun(q, path, receipts)
             && (forall e :: e in supplied <==> e in Entries(receipts))
    requires WithinLimits(q, supplied)
    ensures Prepared(q, supplied).Ok?
    ensures Prepared(q, supplied).value.ordered == FinalStore(fields, steps).receipts
  {
    EveryRunKeeps(path, fields, steps);
    var receipts := FinalStore(fields, steps).receipts;
    hide FinalStore;
    ChainIsTiling(path, receipts, q);
    ChainIsReadable(path, receipts, q);
    SameReceipts(supplied, Entries(receipts));
    SameReceipts(Entries(receipts), supplied);
    SameReadable(q, supplied, Entries(receipts));
    assert Receipts(supplied) == SetOf(receipts);
    AcceptsExactlyTilings(q, supplied);
    AcceptedTiles(q, supplied);
    ChainIsUnique(Prepared(q, supplied).value.ordered, receipts, q.start, q.end, None, None);
  }
}

/**
BoundTradeStateAccess of live_services.py: one owned session on a versioned ledger document.

An operation is cut at its lock acquisitions and at its transactions, so that other sessions, outside
edits and `invalidate` can come in between; `Act` is one such step. A transaction is atomic; a commit
whose reply is lost stays in doubt and the store may still apply it at any later time at which what
the transaction read is unchanged. The store keeps the history of ledger writes in `log`.
*/
module StateSessions {
  import opened Outcomes
  import opened IntervalReceipts

  // ---- Store --------------------------------------------------------------------------------

  datatype Doc = Doc(fields: Fields, version: nat)

  /**
  One ledger write: its writer (None is an outside edit), the document the writer relied on, how long the
  log was when the writer last read, the owner document, and the ledger before and after.
  */
  datatype Write = Write(writer: Option<nat>, base: Option<Doc>, since: nat, owner: Option<nat>, before: Option<Doc>,
      after: Doc)

  datatype Store = Store(ledger: Option<Doc>, owner: Option<nat>, receipts: seq<Receipt>, clock: nat, log: seq<Write>)

  /** A write that changes nothing may keep the version; any other gets a newer one. */
  function PutLedger(store: Store, writer: Option<nat>, base: Option<Doc>, since: nat, fields: Fields, retained: bool):
      Store {
    var same := retained && store.ledger.Some? && store.ledger.value.fields == fields;
    var after := if same then store.ledger.value else Doc(fields, store.clock + 1);
    store.(ledger := Some(after), clock := if same then store.clock else store.clock + 1,
           log := store.log + [Write(writer, base, since, store.owner, store.ledger, after)])
  }

  datatype Txn =
    | CreateOwner
    | WriteLedger(base: Option<Doc>, fields: Fields)
    | WriteReceipt(source: Doc, plan: Plan)
    | DeleteOwner(bound: bool, expected: Option<Doc>)

  /** What the transaction reads still allows its writes. */
  predicate Applies(store: Store, id: nat, txn: Txn) {
    match txn
    case CreateOwner => store.owner.None?
    case WriteLedger(base, _) => store.owner == Some(id) && store.ledger == base
    case WriteReceipt(source, plan) =>
      && store.owner == Some(id) && store.ledger.Some? && store.ledger.value.version == source.version
      && FindReceipt(store.receipts, IdOf(plan.receipt.interval)).None?
      && store.ledger.value.fields == plan.receipt.before
    case DeleteOwner(bound, expected) => store.owner == Some(id) && (bound ==> store.ledger == expected)
  }

  function Commit(store: Store, id: nat, since: nat, txn: Txn, retained: bool): Store {
    match txn
    case CreateOwner => store.(owner := Some(id))
    case WriteLedger(base, fields) => PutLedger(store, Some(id), base, since, fields, retained)
    case WriteReceipt(source, plan) =>
      var written := store.(receipts := store.receipts + [plan.receipt]);
      var current := if store.ledger.Some? then store.ledger.value.fields else map[];
      PutLedger(written, Some(id), Some(source), since, current + plan.receipt.patch, false)
    case DeleteOwner(_, _) => store.(owner := None)
  }

  // ---- Session ------------------------------------------------------------------------------

  datatype Config = Config(path: string, receiptEnabled: bool, normalize: Fields -> Fields)

  /** A prepared save: its transaction and the document it intends to leave. */
  datatype Job = Job(txn: Txn, intended: Fields)

  /** What the operation in flight does next; the session is busy while there is one. */
  datatype Work =
    | ToClaim
    | ToLoad
    | ToStage(job: Job)
    | ToConfirmReceipt(confirming: Job)
    | ToReadBack(written: Job)
    | ToRelease(txn: Txn)
    | ToFinish(closing: bool, result: bool)

  /** `doubt` is a commit of this session whose outcome it never learned. */
  datatype Session = Session(
    config: Config, owner: Option<nat>, source: Option<Doc>, loaded: bool, invalid: bool, work: Option<Work>,
    doubt: Option<Txn>, seenAt: nat)

  function NewSession(config: Config): Session {
    Session(config, None, None, false, false, None, None, 0)
  }

  datatype Answer = Returned(result: bool) | Raised

  datatype Call = Claim | Load | Save(data: Fields, interval: Option<Interval>) | Release(ownerId: nat)

  datatype Action = Begin(call: Call) | Rpc(acked: bool, retained: bool) | Finish | Invalidate | Late(keeps: bool)

  function Poison(s: Session): Session {
    s.(invalid := true, work := None)
  }

  /** The prepared transaction of a save, or why it is refused. */
  function PrepareSave(s: Session, data: Fields, interval: Option<Interval>): Result<Job> {
    var normalized := s.config.normalize(data);
    var source := if s.source.Some? then s.source.value.fields else map[];
    match interval
    case None =>
      if s.config.receiptEnabled
         && (Get(source, EarnAccrualCheckpoint) != Get(normalized, EarnAccrualCheckpoint)
             || Get(source, ExternalCashFlowCursor) != Get(normalized, ExternalCashFlowCursor)) then
        Err("state_session_checkpoint_requires_receipt")
      else Ok(Job(WriteLedger(s.source, source + normalized), source + normalized))
    case Some(i) =>
      if !s.config.receiptEnabled || s.source.None? then Err("state_session_receipt_unavailable")
      else if s.config.normalize(source) - PATCH_FIELDS != normalized - PATCH_FIELDS then
        Err("state_session_forward_fields_changed")
      else if !(PATCH_FIELDS <= normalized.Keys) then Err("state_session_write_uncertain")
      else
        var intended := source + Restrict(normalized, PATCH_FIELDS);
        match BuildPlan(s.config.path, s.source.value.version, source, intended, i)
        case Err(code) => Err(code)
        case Ok(plan) => Ok(Job(WriteReceipt(s.source.value, plan), intended))
  }

  /** `_operation` on entry, and what the operation does before its first transaction. */
  function Enter(id: nat, s: Session, call: Call): (Session, Option<Answer>) {
    if s.work.Some? then (s.(invalid := true), Some(Raised))
    else if s.invalid || (call.Claim? <==> s.owner.Some?) then (s, Some(Raised))
    else
      match call
      case Claim => (s.(work := Some(ToClaim)), None)
      case Load => if s.loaded then (Poison(s), Some(Raised)) else (s.(work := Some(ToLoad)), None)
      case Save(data, interval) =>
        if !s.loaded then (Poison(s), Some(Raised))
        else
          (match PrepareSave(s, data, interval)
           case Err(_) => (Poison(s), Some(Raised))
           case Ok(job) => (s.(work := Some(ToStage(job))), None))
      case Release(ownerId) =>
        if ownerId != id then (Poison(s), Some(Raised))
        else (s.(work := Some(ToRelease(DeleteOwner(s.loaded, s.source)))), None)
  }

  /** The transaction a successful or doubtful commit leaves behind. */
  function CommitWith(id: nat, s: Session, store: Store, txn: Txn, acked: bool, retained: bool, next: Work):
      (Session, Store, Option<Answer>) {
    if !Applies(store, id, txn) then (Poison(s), store, Some(Raised))
    else if acked then (s.(work := Some(next)), Commit(store, id, s.seenAt, txn, retained), None)
    else (Poison(s).(doubt := Some(txn)), store, Some(Raised))
  }

  /** `_read_owned` in a read-only transaction, and `_publish_source`. */
  function Publish(s: Session, store: Store, next: Work): Session {
    s.(source := store.ledger, loaded := true, work := Some(next), seenAt := |store.log|)
  }

  predicate LoadAccepted(config: Config, id: nat, store: Store) {
    && store.owner == Some(id)
    && (config.receiptEnabled ==>
          && store.ledger.Some?
          && EarnAccrualCheckpoint in store.ledger.value.fields && ExternalCashFlowCursor in store.ledger.value.fields)
  }

  /** `_readback` */
  predicate ReadBackAccepted(id: nat, s: Session, store: Store, intended: Fields) {
    && store.owner == Some(id) && store.ledger.Some? && store.ledger.value.fields == intended
    && (s.source.Some? ==>
          || store.ledger.value.version > s.source.value.version
          || (store.ledger.value.version == s.source.value.version && s.source.value.fields == intended))
  }

  /** The receipt is already there with exactly this plan and its poststate: nothing is written. */
  predicate IsReplay(id: nat, store: Store, source: Doc, plan: Plan) {
    && store.owner == Some(id) && store.ledger.Some? && store.ledger.value.version == source.version
    && FindReceipt(store.receipts, IdOf(plan.receipt.interval)) == Some(plan.receipt)
    && store.ledger.value.fields == plan.receipt.after
  }

  function Stage(id: nat, s: Session, store: Store, job: Job, acked: bool, retained: bool):
      (Session, Store, Option<Answer>) {
    if job.txn.WriteReceipt? && IsReplay(id, store, job.txn.source, job.txn.plan) then
      if acked then (s.(work := Some(ToConfirmReceipt(job))), store, None) else (Poison(s), store, Some(Raised))
    else
      CommitWith(id, s, store, job.txn, acked, retained,
                 if job.txn.WriteReceipt? then ToConfirmReceipt(job) else ToReadBack(job))
  }

  /** `create` of the owner document, which no check precedes; the owner id is published if still valid. */
  function ClaimRpc(id: nat, s: Session, store: Store, acked: bool): (Session, Store, Option<Answer>) {
    if store.owner.Some? then
      if acked then (s.(work := Some(ToFinish(false, false))), store, None) else (Poison(s), store, Some(Raised))
    else if !acked then (Poison(s).(doubt := Some(CreateOwner)), store, Some(Raised))
    else
      var claimed := Commit(store, id, s.seenAt, CreateOwner, false);
      if s.invalid then (Poison(s), claimed, Some(Raised))
      else (s.(owner := Some(id), work := Some(ToFinish(false, true))), claimed, None)
  }

  /** The next transaction of the operation in flight; except for a claim `_check_operation` comes first. */
  function NextRpc(id: nat, s: Session, store: Store, acked: bool, retained: bool): (Session, Store, Option<Answer>)
    requires s.work.Some?
  {
    if s.work.value.ToClaim? then ClaimRpc(id, s, store, acked)
    else if s.invalid then (Poison(s), store, Some(Raised))
    else
      match s.work.value
      case ToClaim => ClaimRpc(id, s, store, acked)
      case ToLoad =>
        if acked && LoadAccepted(s.config, id, store) then (Publish(s, store, ToFinish(false, true)), store, None)
        else (Poison(s), store, Some(Raised))
      case ToStage(job) => Stage(id, s, store, job, acked, retained)
      case ToConfirmReceipt(job) =>
        if acked && job.txn.WriteReceipt? && store.owner == Some(id) && store.ledger.Some?
           && FindReceipt(store.receipts, IdOf(job.txn.plan.receipt.interval)) == Some(job.txn.plan.receipt)
           && store.ledger.value.fields == job.txn.plan.receipt.after then
          (s.(work := Some(ToReadBack(job))), store, None)
        else (Poison(s), store, Some(Raised))
      case ToReadBack(job) =>
        if acked && ReadBackAccepted(id, s, store, job.intended) then
          (Publish(s, store, ToFinish(false, true)), store, None)
        else (Poison(s), store, Some(Raised))
      case ToRelease(txn) => CommitWith(id, s, store, txn, acked, retained, ToFinish(true, true))
      case ToFinish(_, _) => (s, store, None)
  }

  /** `_operation` on exit: success only if nothing invalidated the session meanwhile. */
  function Leave(s: Session): (Session, Option<Answer>)
    requires s.work.Some? && s.work.value.ToFinish?
  {
    if s.invalid then (Poison(s), Some(Raised))
    else (s.(work := None, invalid := s.work.value.closing), Some(Returned(s.work.value.result)))
  }

  /** One step of one session on the store. */
  function Act(id: nat, s: Session, store: Store, a: Action): (Session, Store, Option<Answer>) {
    match a
    case Begin(call) => var (t, answer) := Enter(id, s, call); (t, store, answer)
    case Rpc(acked, retained) => if s.work.Some? then NextRpc(id, s, store, acked, retained) else (s, store, None)
    case Finish =>
      if s.work.Some? && s.work.value.ToFinish? then (var (t, answer) := Leave(s); (t, store, answer))
        else (s, store, None)
    case Invalidate => (s.(invalid := true), store, None)
    case Late(keeps) =>
      if s.doubt.Some? && Applies(store, id, s.doubt.value) then
        (s.(doubt := None), Commit(store, id, s.seenAt, s.doubt.value, keeps), None)
      else (s, store, None)
  }

  // ---- Many sessions ------------------------------------------------------------------------

  /** `sessions` by owner id (ids are unique); `answers` records every operation's outcome, in order. */
  datatype World = World(sessions: map<nat, Session>, store: Store, answers: seq<(nat, Answer)>)

  datatype Step =
    | Open(id: nat, config: Config)
    | SessionStep(id: nat, action: Action)
    | OutsideEdit(fields: Fields)       // an edit of the ledger document by anything else
    | OutsidePatch(patch: Fields)       // one that leaves the checkpoint and the cursor alone
    | OutsideRelease                    // an operator removes the owner document

  function AdvanceWorld(w: World, step: Step): World {
    match step
    case Open(id, config) => if id in w.sessions then w else w.(sessions := w.sessions[id := NewSession(config)])
    case SessionStep(id, a) =>
      if id !in w.sessions then w
      else
        var (s, store, answer) := Act(id, w.sessions[id], w.store, a);
        World(w.sessions[id := s], store, if answer.Some? then w.answers + [(id, answer.value)] else w.answers)
    case OutsideEdit(fields) => w.(store := PutLedger(w.store, None, w.store.ledger, |w.store.log|, fields, false))
    case OutsideRelease => w.(store := w.store.(owner := None))
    case OutsidePatch(patch) =>
      if w.store.ledger.None? then w
      else
        var fields := w.store.ledger.value.fields + (patch - {EarnAccrualCheckpoint, ExternalCashFlowCursor});
        w.(store := PutLedger(w.store, None, w.store.ledger, |w.store.log|, fields, false))
  }

  function RunWorld(w: World, steps: seq<Step>): World {
    if steps == [] then w
    else AdvanceWorld(RunWorld(w, steps[..|steps| - 1]), steps[|steps| - 1])
  }

  /** The world before any session: a ledger document put in place by an operator, or none. */
  function FirstWorld(ledger: Option<Fields>): World {
    World(map[], Store(if ledger.Some? then Some(Doc(ledger.value, 0)) else None, None, [], 0, []), [])
  }
}

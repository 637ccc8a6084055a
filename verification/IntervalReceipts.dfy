/**
The ledger document and the interval receipts of application/interval_source_receipt_candidate.py.
JSON values are a datatype of the shapes the code inspects; digests are injective, so a receipt holds
the digested material itself. Instants are microseconds, versions positions in the store's own clock.
*/
module IntervalReceipts {
  import opened Outcomes
  import opened Amounts

  type Instant = int

  const DAY: int := 86_400_000_000

  datatype Field =
    | EarnAccrualCheckpoint
    | ExternalCashFlowCursor
    | EarnAccountedNetChanges
    | LastBalanceSnapshot
    | DailyExternalPrincipal
    | OrderSubmission
    | Unlisted(name: string)

  datatype Value =
    | CheckpointOf(scope: string, observedAt: Instant, assets: map<string, int>, grantsExecution: bool)
    | CursorOf(cursorAt: Instant, entries: string)
    | NetsOf(nets: map<string, int>)
    | SubmissionOf(state: string)
    | Plain(text: string)

  type Fields = map<Field, Value>

  /** `_PATCH_FIELDS` */
  const PATCH_FIELDS: set<Field> :=
    {EarnAccrualCheckpoint, ExternalCashFlowCursor, EarnAccountedNetChanges, LastBalanceSnapshot,
      DailyExternalPrincipal}

  datatype Interval = Interval(
    scope: string, start: Instant, end: Instant, endEquity: int, netFlow: int, currency: string, basis: string)

  /** `_payload_material` accepts the interval. */
  predicate ValidInterval(i: Interval) {
    && |i.scope| == 64 && (forall k :: 0 <= k < 64 ==> '0' <= i.scope[k] <= '9' || 'a' <= i.scope[k] <= 'f')
    && i.currency == "USDT" && i.basis == "checkpoint_quantities_sampled_prices"
    && i.start < i.end && i.end / DAY - i.start / DAY <= 1
    && 0 < i.endEquity && AdmissibleQuantity(i.endEquity) && Admissible(i.netFlow)
  }

  /** The logical identity of an interval; its digest names the receipt document. */
  datatype IntervalId = IntervalId(scope: string, start: Instant, end: Instant)

  function IdOf(i: Interval): IntervalId {
    IntervalId(i.scope, i.start, i.end)
  }

  datatype Receipt = Receipt(path: string, version: nat, before: Fields, after: Fields, patch: Fields,
      interval: Interval)

  /** The frozen plan; its receipt is the same material. */
  datatype Plan = Plan(receipt: Receipt)

  predicate IsCheckpoint(fields: Fields, scope: string, at: Instant) {
    && EarnAccrualCheckpoint in fields && fields[EarnAccrualCheckpoint].CheckpointOf?
    && fields[EarnAccrualCheckpoint].scope == scope
    && fields[EarnAccrualCheckpoint].observedAt == at
    && !fields[EarnAccrualCheckpoint].grantsExecution
  }

  predicate IsCursor(fields: Fields, at: Instant) {
    && ExternalCashFlowCursor in fields && fields[ExternalCashFlowCursor].CursorOf?
    && fields[ExternalCashFlowCursor].cursorAt == at
  }

  predicate IsSettled(fields: Fields) {
    && OrderSubmission in fields && fields[OrderSubmission].SubmissionOf?
    && (fields[OrderSubmission].state == "RESERVED" || fields[OrderSubmission].state == "TERMINAL")
  }

  function Zeros(assets: set<string>): map<string, int> {
    map a | a in assets :: 0
  }

  /** What `build_interval_receipt_plan` demands of the states around an interval. */
  predicate Transition(previous: Fields, next: Fields, i: Interval) {
    && IsCheckpoint(previous, i.scope, i.start) && IsCheckpoint(next, i.scope, i.end)
    && IsCursor(previous, i.start) && IsCursor(next, i.end)
    && previous[EarnAccrualCheckpoint].assets != map[]
    && previous[EarnAccrualCheckpoint].assets.Keys == next[EarnAccrualCheckpoint].assets.Keys
    && EarnAccountedNetChanges in next
    && next[EarnAccountedNetChanges] == NetsOf(Zeros(previous[EarnAccrualCheckpoint].assets.Keys))
    && IsSettled(previous)
    && (forall f :: f in previous.Keys + next.Keys && f !in PATCH_FIELDS ==>
      f in previous && f in next && previous[f] == next[f])
    && PATCH_FIELDS <= next.Keys
  }

  function Get(fields: Fields, f: Field): Option<Value> {
    if f in fields then Some(fields[f]) else None
  }

  function Restrict(fields: Fields, keys: set<Field>): Fields {
    map f | f in fields && f in keys :: fields[f]
  }

  /** `build_interval_receipt_plan` */
  function BuildPlan(path: string, version: nat, previous: Fields, next: Fields, i: Interval): Result<Plan> {
    if !ValidInterval(i) then Err("interval_receipt_payload_invalid")
    else if !Transition(previous, next, i) then Err("interval_receipt_transition_invalid")
    else Ok(Plan(Receipt(path, version, previous, next, Restrict(next, PATCH_FIELDS), i)))
  }

  /** `_validate_plan`, which trusts none of the plan's parts. */
  predicate PlanIsValid(p: Plan) {
    var r := p.receipt;
    && ValidInterval(r.interval)
    && r.patch.Keys == PATCH_FIELDS
    && IsCheckpoint(r.patch, r.interval.scope, r.interval.end) && IsCursor(r.patch, r.interval.end)
    && r.patch[EarnAccrualCheckpoint].assets != map[]
    && r.patch[EarnAccountedNetChanges] == NetsOf(Zeros(r.patch[EarnAccrualCheckpoint].assets.Keys))
  }

  /**
  What a built plan does: it is accepted by the validator, and applying its patch to the state it was
  built from gives exactly the planned state, every field outside the patch untouched.
  */
  lemma BuiltPlanIsExact(path: string, version: nat, previous: Fields, next: Fields, i: Interval)
    requires BuildPlan(path, version, previous, next, i).Ok?
    ensures var p := BuildPlan(path, version, previous, next, i).value;
            && PlanIsValid(p)
            && previous + p.receipt.patch == next
            && (forall f :: f in previous && f !in PATCH_FIELDS ==> next[f] == previous[f])
            && p.receipt.interval == i && p.receipt.before == previous && p.receipt.version == version
  {
    var patch := Restrict(next, PATCH_FIELDS);
    assert patch.Keys == PATCH_FIELDS;
    assert previous + patch == next;
  }

  // ---- What a receipt certifies -----------------------------------------------------------------

  /** At most from one UTC day into the next, forwards in time, in the one currency and basis. */
  predicate IsDailyInterval(i: Interval) {
    && i == Interval(i.scope, i.start, i.end, i.endEquity, i.netFlow, "USDT", "checkpoint_quantities_sampled_prices")
    && |i.scope| == 64 && (forall c :: c in i.scope ==> '0' <= c <= '9' || 'a' <= c <= 'f')
    && i.start < i.end < (i.start / DAY + 2) * DAY
    && 0 < i.endEquity <= LIMIT && -LIMIT <= i.netFlow <= LIMIT
  }

  /** Checkpoint and cursor of a document stand at one instant and hold the same assets as another. */
  predicate StandsAt(fields: Fields, scope: string, at: Instant, assets: set<string>) {
    && {EarnAccrualCheckpoint, ExternalCashFlowCursor} <= fields.Keys
    && (match fields[EarnAccrualCheckpoint]
        case CheckpointOf(s, t, held, grants) => s == scope && t == at && held.Keys == assets && !grants
        case _ => false)
    && (match fields[ExternalCashFlowCursor]
        case CursorOf(t, _) => t == at
        case _ => false)
  }

  /**
  A receipt is built exactly for a daily interval between two documents that stand at its start and its end
  with the same assets, none of whose net changes is left at the end, whose submission is settled, and which
  agree in every field outside the patch.
  */
  lemma PlanIsBuiltIff(path: string, version: nat, previous: Fields, next: Fields, i: Interval)
    ensures BuildPlan(path, version, previous, next, i).Ok? <==>
              && IsDailyInterval(i)
              && (exists assets ::
                    && assets != {} && StandsAt(previous, i.scope, i.start, assets)
                    && StandsAt(next, i.scope, i.end, assets)
                    && Get(next, EarnAccountedNetChanges) == Some(NetsOf(map a | a in assets :: 0)))
              && Get(previous, OrderSubmission) in {Some(SubmissionOf("RESERVED")), Some(SubmissionOf("TERMINAL"))}
              && {LastBalanceSnapshot, DailyExternalPrincipal} <= next.Keys
              && (forall f :: f !in PATCH_FIELDS ==> Get(previous, f) == Get(next, f))
  {
    DailyIsValid(i);
    hide ValidInterval;
    hide IsDailyInterval;
    if Transition(previous, next, i) {
      var assets := previous[EarnAccrualCheckpoint].assets.Keys;
      assert StandsAt(previous, i.scope, i.start, assets) && StandsAt(next, i.scope, i.end, assets);
    }
  }

  /** The validator accepts exactly the patch of a daily interval that stands at its end with no net change left. */
  lemma PlanIsValidIff(p: Plan)
    ensures PlanIsValid(p) <==>
              && IsDailyInterval(p.receipt.interval) && p.receipt.patch.Keys == PATCH_FIELDS
              && exists assets ::
                   && assets != {} && StandsAt(p.receipt.patch, p.receipt.interval.scope, p.receipt.interval.end,
                     assets)
                   && p.receipt.patch[EarnAccountedNetChanges] == NetsOf(map a | a in assets :: 0)
  {
    var r := p.receipt;
    DailyIsValid(r.interval);
    hide ValidInterval;
    hide IsDailyInterval;
    if PlanIsValid(p) {
      var assets := r.patch[EarnAccrualCheckpoint].assets.Keys;
      assert StandsAt(r.patch, r.interval.scope, r.interval.end, assets);
    }
  }

  lemma DailyIsValid(i: Interval)
    ensures ValidInterval(i) <==> IsDailyInterval(i)
  {
    assert forall k :: 0 <= k < |i.scope| ==> i.scope[k] in i.scope;
  }

  function FindReceipt(receipts: seq<Receipt>, id: IntervalId): Option<Receipt> {
    if receipts == [] then None
    else if IdOf(receipts[0].interval) == id then Some(receipts[0])
    else FindReceipt(receipts[1..], id)
  }

  lemma {:induction false} FindLast(receipts: seq<Receipt>, r: Receipt)
    requires FindReceipt(receipts, IdOf(r.interval)).None?
    ensures FindReceipt(receipts + [r], IdOf(r.interval)) == Some(r)
  {
    if receipts != [] {
      FindLast(receipts[1..], r);
      assert (receipts + [r])[1..] == receipts[1..] + [r];
    }
  }
}

/**
collect_spot_usdt_external_cash_flows of application/broker_reconciliation.py: each poll reads the last
seven days of deposits and withdrawals, reports the deposits it sees completed for the first time, and
hands a pruned cursor to the next poll. Times are milliseconds; digests are injective, so a record holds
what was digested. The principal is accumulated in Python's default context of 28 digits.
*/
module DepositCursor {
  import opened Outcomes
  import opened Decimals
  import opened Contexts

  const PRECISION: nat := 28
  const LOOKBACK: int := 604_800_000
  const PAGE_SIZE: int := 1000
  const MAX_RECORDS: int := 256

  /** A number as `format(.., "f")` writes it. */
  type Plain = d: Decimal | d.exp <= 0 witness Decimal(0, 0)

  /** `coin` is stripped and in upper case. */
  datatype Core = Core(id: string, amount: Plain, coin: string, wallet: int, transfer: int, insertTime: int)

  datatype Completion = Completion(completeTime: int, txId: string)

  datatype Deposit = Deposit(core: Core, status: int, completion: Completion)

  datatype Withdrawal = Withdrawal(id: string, payload: string)

  datatype Identity = DepositId(depositId: string) | WithdrawalId(withdrawalId: string)

  /** A deposit is pending until its completion is known; a withdrawal is only observed. */
  datatype Record = DepositRecord(core: Core, completed: Option<Completion>) | WithdrawalRecord(payload: string)

  type Records = map<Identity, Record>

  datatype Cursor = Cursor(observedAt: int, records: Records)

  datatype Report = Report(
    bootstrap: bool, principal: Decimal, completedAt: seq<int>, unsupported: nat, withdrawals: nat, cursor: Cursor)

  predicate ValidCursor(c: Cursor, now: int) {
    c.observedAt <= now && |c.records| <= MAX_RECORDS
  }

  // ---- One poll as a function -----------------------------------------------------------------

  predicate ValidRow(d: Deposit, start: int, end: int) {
    && 0 < |d.core.id| <= 160 && d.status in {0, 1, 2, 6, 7, 8}
    && start <= d.core.insertTime <= end && d.core.amount.coeff > 0 && d.core.coin != ""
  }

  predicate ValidCompletion(d: Deposit, end: int) {
    && d.core.insertTime <= d.completion.completeTime <= end
    && 0 < |d.completion.txId| <= 256
  }

  predicate Eligible(c: Core) {
    c.coin == "USDT" && c.wallet == 0 && c.transfer == 0
  }

  datatype Tally = Tally(
    records: Records, seen: set<Identity>, principal: Decimal, completedAt: seq<int>, unsupported: nat,
      withdrawals: nat)

  predicate FinalIn(records: Records, id: string) {
    && DepositId(id) in records && records[DepositId(id)].DepositRecord?
    && records[DepositId(id)].completed.Some?
  }

  /** The record of a completed deposit, and what this poll reports of it; an overflow ends the poll. */
  function NoteCompleted(t: Tally, d: Deposit, bootstrap: bool): Result<Tally> {
    var noted := t.(seen := t.seen + {DepositId(d.core.id)},
                    records := t.records[DepositId(d.core.id) := DepositRecord(d.core, Some(d.completion))]);
    if bootstrap then Ok(noted)
    else if !Eligible(d.core) then Ok(noted.(unsupported := t.unsupported + 1))
    else
      match Add(t.principal, d.core.amount, PRECISION)
      case Err(code) => Err(code)
      case Ok(sum) => Ok(noted.(principal := sum, completedAt := t.completedAt + [d.completion.completeTime]))
  }

  function NoteDeposit(t: Tally, d: Deposit, bootstrap: bool, start: int, end: int): Result<Tally> {
    var id := DepositId(d.core.id);
    if !ValidRow(d, start, end) then Err("external_cash_flow_record_invalid")
    else if id in t.seen then Err("external_cash_flow_history_incomplete")
    else if id in t.records && !(t.records[id].DepositRecord? && t.records[id].core == d.core) then
      Err("external_cash_flow_record_changed")
    else if d.status == 1 then
      if !ValidCompletion(d, end) then Err("external_cash_flow_record_invalid")
      else if FinalIn(t.records, d.core.id) then
        if t.records[id].completed != Some(d.completion) then Err("external_cash_flow_record_changed")
        else Ok(t.(seen := t.seen + {id}))
      else NoteCompleted(t, d, bootstrap)
    else if FinalIn(t.records, d.core.id) then Err("external_cash_flow_record_changed")
    else Ok(t.(seen := t.seen + {id}, records := t.records[id := DepositRecord(d.core, None)]))
  }

  function NoteDeposits(t: Tally, rows: seq<Deposit>, bootstrap: bool, start: int, end: int): Result<Tally> {
    if rows == [] then Ok(t)
    else
      match NoteDeposits(t, rows[..|rows| - 1], bootstrap, start, end)
      case Err(code) => Err(code)
      case Ok(before) => NoteDeposit(before, rows[|rows| - 1], bootstrap, start, end)
  }

  function NoteWithdrawal(t: Tally, w: Withdrawal, bootstrap: bool): Result<Tally> {
    var id := WithdrawalId(w.id);
    if !(0 < |w.id| <= 160) then Err("external_cash_flow_record_invalid")
    else if id in t.seen then Err("external_cash_flow_history_incomplete")
    else if id in t.records && t.records[id] == WithdrawalRecord(w.payload) then Ok(t.(seen := t.seen + {id}))
    else Ok(t.(seen := t.seen + {id}, records := t.records[id := WithdrawalRecord(w.payload)],
               withdrawals := if bootstrap then t.withdrawals else t.withdrawals + 1))
  }

  function NoteWithdrawals(t: Tally, rows: seq<Withdrawal>, bootstrap: bool): Result<Tally> {
    if rows == [] then Ok(t)
    else
      match NoteWithdrawals(t, rows[..|rows| - 1], bootstrap)
      case Err(code) => Err(code)
      case Ok(before) => NoteWithdrawal(before, rows[|rows| - 1], bootstrap)
  }

  /** Withdrawals no longer listed and completed deposits older than the window are dropped. */
  predicate Kept(id: Identity, r: Record, seen: set<Identity>, start: int) {
    if r.WithdrawalRecord? then id in seen else r.completed.Some? ==> r.core.insertTime >= start
  }

  function Prune(records: Records, seen: set<Identity>, start: int): Records {
    map id | id in records && Kept(id, records[id], seen, start) :: records[id]
  }

  function Opened(cursor: Option<Cursor>): Tally {
    Tally(if cursor.Some? then cursor.value.records else map[], {}, ZERO, [], 0, 0)
  }

  function Poll(now: int, cursor: Option<Cursor>, deposits: seq<Deposit>, withdrawals: seq<Withdrawal>):
      Result<Report> {
    var start, bootstrap := now - LOOKBACK, cursor.None?;
    if cursor.Some? && !ValidCursor(cursor.value, now) then Err("external_cash_flow_cursor_invalid")
    else if |deposits| >= PAGE_SIZE || |withdrawals| >= PAGE_SIZE then Err("external_cash_flow_history_incomplete")
    else
      match NoteDeposits(Opened(cursor), deposits, bootstrap, start, now)
      case Err(code) => Err(code)
      case Ok(noted) =>
        match NoteWithdrawals(noted, withdrawals, bootstrap)
        case Err(code) => Err(code)
        case Ok(t) =>
          var records := Prune(t.records, t.seen, start);
          if |records| > MAX_RECORDS then Err("external_cash_flow_cursor_capacity_exceeded")
          else Ok(Report(bootstrap, t.principal, t.completedAt, t.unsupported, t.withdrawals, Cursor(now, records)))
  }

  // ---- One poll as code -----------------------------------------------------------------------

  lemma {:induction false} DepositsFailEarly(t: Tally, rows: seq<Deposit>, n: nat, bootstrap: bool, start: int,
                                             end: int)
    requires n <= |rows|
    ensures NoteDeposits(t, rows[..n], bootstrap, start, end).Err? ==>
              NoteDeposits(t, rows, bootstrap, start, end) == NoteDeposits(t, rows[..n], bootstrap, start, end)
    decreases |rows|
  {
    if n < |rows| {
      DepositsFailEarly(t, rows[..|rows| - 1], n, bootstrap, start, end);
      assert rows[..|rows| - 1][..n] == rows[..n];
    } else {
      assert rows[..n] == rows;
    }
  }

  lemma {:induction false} WithdrawalsFailEarly(t: Tally, rows: seq<Withdrawal>, n: nat, bootstrap: bool)
    requires n <= |rows|
    ensures NoteWithdrawals(t, rows[..n], bootstrap).Err? ==>
              NoteWithdrawals(t, rows, bootstrap) == NoteWithdrawals(t, rows[..n], bootstrap)
    decreases |rows|
  {
    if n < |rows| {
      WithdrawalsFailEarly(t, rows[..|rows| - 1], n, bootstrap);
      assert rows[..|rows| - 1][..n] == rows[..n];
    } else {
      assert rows[..n] == rows;
    }
  }

  /** The deposit loop: records, principal and counters updated row by row. */
  method ReadDeposits(t: Tally, rows: seq<Deposit>, bootstrap: bool, start: int, end: int) returns (r: Result<Tally>)
    ensures r == NoteDeposits(t, rows, bootstrap, start, end)
  {
    hide NoteCompleted;
    hide ValidRow;
    hide ValidCompletion;
    var now := t;
    for i := 0 to |rows|
      invariant NoteDeposits(t, rows[..i], bootstrap, start, end) == Ok(now)
    {
      var d := rows[i];
      var id := DepositId(d.core.id);
      assert rows[..i + 1][..i] == rows[..i];
      DepositsFailEarly(t, rows, i + 1, bootstrap, start, end);
      if !ValidRow(d, start, end) {
        return Err("external_cash_flow_record_invalid");
      }
      if id in now.seen {
        return Err("external_cash_flow_history_incomplete");
      }
      if id in now.records {
        var previous := now.records[id];
        if previous.WithdrawalRecord? || previous.core != d.core {
          return Err("external_cash_flow_record_changed");
        }
      }
      if d.status == 1 {
        if !ValidCompletion(d, end) {
          return Err("external_cash_flow_record_invalid");
        }
        if FinalIn(now.records, d.core.id) {
          if now.records[id].completed != Some(d.completion) {
            return Err("external_cash_flow_record_changed");
          }
          now := now.(seen := now.seen + {id});
        } else {
          var noted := NoteCompleted(now, d, bootstrap);
          if noted.Err? {
            return noted;
          }
          now := noted.value;
        }
      } else {
        if FinalIn(now.records, d.core.id) {
          return Err("external_cash_flow_record_changed");
        }
        now := now.(seen := now.seen + {id}, records := now.records[id := DepositRecord(d.core, None)]);
      }
    }
    assert rows[..|rows|] == rows;
    r := Ok(now);
  }

  method ReadWithdrawals(t: Tally, rows: seq<Withdrawal>, bootstrap: bool) returns (r: Result<Tally>)
    ensures r == NoteWithdrawals(t, rows, bootstrap)
  {
    var now := t;
    for i := 0 to |rows|
      invariant NoteWithdrawals(t, rows[..i], bootstrap) == Ok(now)
    {
      var w, id := rows[i], WithdrawalId(rows[i].id);
      assert rows[..i + 1][..i] == rows[..i];
      WithdrawalsFailEarly(t, rows, i + 1, bootstrap);
      if w.id == "" || |w.id| > 160 {
        return Err("external_cash_flow_record_invalid");
      }
      if id in now.seen {
        return Err("external_cash_flow_history_incomplete");
      }
      if id !in now.records || now.records[id] != WithdrawalRecord(w.payload) {
        now := now.(records := now.records[id := WithdrawalRecord(w.payload)],
                    withdrawals := if bootstrap then now.withdrawals else now.withdrawals + 1);
      }
      now := now.(seen := now.seen + {id});
    }
    assert rows[..|rows|] == rows;
    r := Ok(now);
  }

  /** The pruning loop deletes from the records while it walks over a copy of their keys. */
  method DropAged(records: Records, seen: set<Identity>, start: int) returns (kept: Records)
    ensures kept == Prune(records, seen, start)
  {
    kept := records;
    var rest := records.Keys;
    while rest != {}
      invariant rest <= records.Keys
      invariant kept == map id | id in records && (id in rest || Kept(id, records[id], seen, start)) :: records[id]
      decreases |rest|
    {
      var id :| id in rest;
      if !Kept(id, records[id], seen, start) {
        kept := kept - {id};
      }
      rest := rest - {id};
    }
  }

  /** `collect_spot_usdt_external_cash_flows` */
  method Collect(now: int, cursor: Option<Cursor>, deposits: seq<Deposit>, withdrawals: seq<Withdrawal>)
      returns (r: Result<Report>)
    ensures r == Poll(now, cursor, deposits, withdrawals)
  {
    if cursor.Some? && !ValidCursor(cursor.value, now) {
      return Err("external_cash_flow_cursor_invalid");
    }
    if |deposits| >= PAGE_SIZE || |withdrawals| >= PAGE_SIZE {
      return Err("external_cash_flow_history_incomplete");
    }
    var start := now - LOOKBACK;
    var noted := ReadDeposits(Opened(cursor), deposits, cursor.None?, start, now);
    if noted.Err? {
      return Err(noted.code);
    }
    var t := ReadWithdrawals(noted.value, withdrawals, cursor.None?);
    if t.Err? {
      return Err(t.code);
    }
    var records := DropAged(t.value.records, t.value.seen, start);
    if |records| > MAX_RECORDS {
      return Err("external_cash_flow_cursor_capacity_exceeded");
    }
    r := Ok(Report(cursor.None?, t.value.principal, t.value.completedAt, t.value.unsupported, t.value.withdrawals,
                   Cursor(now, records)));
  }

  // ---- What one accepted poll does ------------------------------------------------------------

  /** The completed rows of a poll that its cursor does not know as completed. */
  function Fresh(records: Records, rows: seq<Deposit>): seq<Core> {
    if rows == [] then []
    else
      var last := rows[|rows| - 1];
      Fresh(records, rows[..|rows| - 1])
      + (if last.status == 1 && !FinalIn(records, last.core.id) then [last.core] else [])
  }

  function EligibleOf(cores: seq<Core>): seq<Core> {
    if cores == [] then []
    else EligibleOf(cores[..|cores| - 1]) + (if Eligible(cores[|cores| - 1]) then [cores[|cores| - 1]] else [])
  }

  function Amounts(cores: seq<Core>): (amounts: seq<Decimal>)
    ensures |amounts| == |cores| && forall k :: 0 <= k < |cores| ==> amounts[k] == cores[k].amount
  {
    if cores == [] then [] else Amounts(cores[..|cores| - 1]) + [cores[|cores| - 1].amount]
  }

  /** The principal a poll returns for the deposits it reports, or the overflow that ends it. */
  function Principal(cores: seq<Core>): Result<Decimal> {
    Accumulate(Amounts(cores), PRECISION)
  }

  predicate CompletedRow(rows: seq<Deposit>, id: string) {
    exists k :: 0 <= k < |rows| && rows[k].status == 1 && rows[k].core.id == id
  }

  predicate DistinctRows(rows: seq<Deposit>) {
    forall i, j :: 0 <= i < j < |rows| ==> rows[i].core.id != rows[j].core.id
  }

  ghost predicate Noted(records: Records, rows: seq<Deposit>, start: int, end: int, t: Tally) {
    && DistinctRows(rows)
    && (forall k :: 0 <= k < |rows| ==> ValidRow(rows[k], start, end))
    && SeenIs(t.seen, rows)
    && (forall k :: 0 <= k < |rows| && rows[k].status == 1 ==>
          FinalIn(t.records, rows[k].core.id) && t.records[DepositId(rows[k].core.id)].core == rows[k].core)
    && (forall id :: FinalIn(t.records, id) ==> FinalIn(records, id) || CompletedRow(rows, id))
    && (forall id :: FinalIn(records, id) ==>
          FinalIn(t.records, id) && t.records[DepositId(id)].core == records[DepositId(id)].core)
  }

  lemma PrincipalOneMore(cores: seq<Core>, c: Core)
    requires Principal(cores).Ok?
    ensures Principal(cores + [c]) == Add(Principal(cores).value, c.amount, PRECISION)
  {
    hide Add;
    assert (cores + [c])[..|cores|] == cores;
    assert Amounts(cores + [c])[..|cores|] == Amounts(cores);
  }

  predicate SeenIs(seen: set<Identity>, rows: seq<Deposit>) {
    seen == set k | 0 <= k < |rows| :: DepositId(rows[k].core.id)
  }

  lemma SeenOne(seen: set<Identity>, rows: seq<Deposit>)
    requires rows != [] && SeenIs(seen, rows[..|rows| - 1])
    ensures SeenIs(seen + {DepositId(rows[|rows| - 1].core.id)}, rows)
  {
    var n := |rows| - 1;
    assert forall k :: 0 <= k < n ==> rows[..n][k] == rows[k];
  }

  lemma CompletedIsSeen(seen: set<Identity>, rows: seq<Deposit>, id: string)
    requires SeenIs(seen, rows)
    ensures CompletedRow(rows, id) ==> DepositId(id) in seen
  {
  }

  lemma CompletedOne(rows: seq<Deposit>, id: string)
    requires rows != []
    ensures CompletedRow(rows, id) <==>
            CompletedRow(rows[..|rows| - 1], id) || (rows[|rows| - 1].status == 1 && rows[|rows| - 1].core.id == id)
  {
    var n := |rows| - 1;
    assert forall k :: 0 <= k < n ==> rows[..n][k] == rows[k];
    if CompletedRow(rows[..n], id) {
      var k :| 0 <= k < n && rows[..n][k].status == 1 && rows[..n][k].core.id == id;
      assert rows[k].status == 1 && rows[k].core.id == id;
    }
  }

  /** What one row does to the records. */
  lemma NotedRecord(before: Tally, d: Deposit, bootstrap: bool, start: int, end: int, t: Tally)
    requires NoteDeposit(before, d, bootstrap, start, end) == Ok(t)
    ensures ValidRow(d, start, end) && DepositId(d.core.id) !in before.seen
            && t.seen == before.seen + {DepositId(d.core.id)}
    ensures d.status == 1 ==> FinalIn(t.records, d.core.id) && t.records[DepositId(d.core.id)].core == d.core
    ensures d.status != 1 ==> !FinalIn(t.records, d.core.id) && !FinalIn(before.records, d.core.id)
    ensures FinalIn(before.records, d.core.id) ==>
            t.records[DepositId(d.core.id)] == before.records[DepositId(d.core.id)]
    ensures forall id :: id != d.core.id ==> (FinalIn(t.records, id) <==> FinalIn(before.records, id))
    ensures forall id :: id != d.core.id && FinalIn(before.records, id) ==>
            t.records[DepositId(id)] == before.records[DepositId(id)]
  {
    hide ValidRow;
    hide ValidCompletion;
  }

  /** One more row keeps what the deposit loop establishes. */
  lemma NoteOne(records: Records, rows: seq<Deposit>, bootstrap: bool, start: int, end: int, before: Tally, t: Tally)
    requires rows != [] && Noted(records, rows[..|rows| - 1], start, end, before)
    requires NoteDeposit(before, rows[|rows| - 1], bootstrap, start, end) == Ok(t)
    ensures Noted(records, rows, start, end, t)
    ensures FinalIn(before.records, rows[|rows| - 1].core.id) <==> FinalIn(records, rows[|rows| - 1].core.id)
  {
    hide NoteDeposit;
    hide FinalIn;
    hide ValidRow;
    var n := |rows| - 1;
    var d, init := rows[n], rows[..n];
    NotedRecord(before, d, bootstrap, start, end, t);
    SeenOne(before.seen, rows);
    assert forall k :: 0 <= k < n ==> init[k] == rows[k];
    forall id ensures CompletedRow(rows, id) <==> CompletedRow(init, id) || (d.status == 1 && d.core.id == id) {
      CompletedOne(rows, id);
    }
    CompletedIsSeen(before.seen, init, d.core.id);
    assert forall k :: 0 <= k < n ==> DepositId(init[k].core.id) in before.seen;
    hide CompletedRow;
    hide SeenIs;
  }

  lemma NothingNoted(records: Records, start: int, end: int)
    ensures Noted(records, [], start, end, Tally(records, {}, ZERO, [], 0, 0))
  {
  }

  /** The report counts the fresh rows: principal and times of the eligible ones, number of the others. */
  predicate Reports(bootstrap: bool, cores: seq<Core>, t: Tally) {
    if bootstrap then t.principal == ZERO && t.completedAt == [] && t.unsupported == 0
    else
      && Principal(EligibleOf(cores)) == Ok(t.principal) && |t.completedAt| == |EligibleOf(cores)|
      && t.unsupported == |cores| - |EligibleOf(cores)|
  }

  lemma EligibleOneMore(cores: seq<Core>, c: Core)
    ensures EligibleOf(cores + [c]) == EligibleOf(cores) + (if Eligible(c) then [c] else [])
  {
    assert (cores + [c])[..|cores|] == cores;
  }

  /** What one row adds to the report. */
  lemma RowReported(before: Tally, d: Deposit, bootstrap: bool, start: int, end: int, t: Tally)
    requires NoteDeposit(before, d, bootstrap, start, end) == Ok(t)
    ensures var counted := !bootstrap && d.status == 1 && !FinalIn(before.records, d.core.id);
            && (if counted && Eligible(d.core) then Add(before.principal, d.core.amount, PRECISION) == Ok(t.principal)
                else t.principal == before.principal)
            && t.completedAt == before.completedAt
              + (if counted && Eligible(d.core) then [d.completion.completeTime] else [])
            && t.unsupported == before.unsupported + (if counted && !Eligible(d.core) then 1 else 0)
  {
    hide ValidRow;
    hide ValidCompletion;
    hide FinalIn;
    hide Eligible;
    hide Add;
  }

  lemma ReportOne(records: Records, rows: seq<Deposit>, bootstrap: bool, start: int, end: int, before: Tally, t: Tally)
    requires rows != [] && NoteDeposit(before, rows[|rows| - 1], bootstrap, start, end) == Ok(t)
    requires FinalIn(before.records, rows[|rows| - 1].core.id) <==> FinalIn(records, rows[|rows| - 1].core.id)
    requires Reports(bootstrap, Fresh(records, rows[..|rows| - 1]), before)
    ensures Reports(bootstrap, Fresh(records, rows), t)
  {
    hide NoteDeposit;
    hide FinalIn;
    hide EligibleOf;
    hide Principal;
    hide Eligible;
    var sofar, d := Fresh(records, rows[..|rows| - 1]), rows[|rows| - 1];
    RowReported(before, d, bootstrap, start, end, t);
    if !bootstrap {
      PrincipalOneMore(EligibleOf(sofar), d.core);
    }
    hide Add;
    EligibleOneMore(sofar, d.core);
    assert sofar + [] == sofar && EligibleOf(sofar) + [] == EligibleOf(sofar);
  }

  /** The deposit loop: what it records, and what it reports. */
  lemma {:induction false} NotedFacts(records: Records, rows: seq<Deposit>, bootstrap: bool, start: int, end: int)
    requires NoteDeposits(Tally(records, {}, ZERO, [], 0, 0), rows, bootstrap, start, end).Ok?
    ensures var t := NoteDeposits(Tally(records, {}, ZERO, [], 0, 0), rows, bootstrap, start, end).value;
            && Noted(records, rows, start, end, t)
            && Reports(bootstrap, Fresh(records, rows), t)
  {
    hide Noted;
    hide NoteDeposit;
    hide FinalIn;
    var first := Tally(records, {}, ZERO, [], 0, 0);
    if rows == [] {
      NothingNoted(records, start, end);
    } else {
      var n := |rows| - 1;
      NotedFacts(records, rows[..n], bootstrap, start, end);
      var before := NoteDeposits(first, rows[..n], bootstrap, start, end).value;
      var t := NoteDeposits(first, rows, bootstrap, start, end).value;
      NoteOne(records, rows, bootstrap, start, end, before, t);
      ReportOne(records, rows, bootstrap, start, end, before, t);
    }
  }

  /** Withdrawals touch no deposit. */
  lemma {:induction false} WithdrawalsKeepDeposits(t: Tally, rows: seq<Withdrawal>, bootstrap: bool)
    requires NoteWithdrawals(t, rows, bootstrap).Ok?
    ensures var after := NoteWithdrawals(t, rows, bootstrap).value;
            && after.principal == t.principal && after.completedAt == t.completedAt
              && after.unsupported == t.unsupported
            && forall id :: DepositId(id) in t.records <==> DepositId(id) in after.records
    ensures var after := NoteWithdrawals(t, rows, bootstrap).value;
            forall id :: DepositId(id) in t.records ==> after.records[DepositId(id)] == t.records[DepositId(id)]
  {
    if rows != [] {
      WithdrawalsKeepDeposits(t, rows[..|rows| - 1], bootstrap);
    }
  }

  // ---- Runs of polls --------------------------------------------------------------------------

  datatype Input = Input(now: int, deposits: seq<Deposit>, withdrawals: seq<Withdrawal>)

  /**
  A run so far: the cursor of the last accepted poll, the deposits reported, and the ids ever seen
  completed in an accepted poll.
  */
  datatype History = History(cursor: Option<Cursor>, reported: seq<Core>, completed: set<string>)

  function CompletedIds(rows: seq<Deposit>): set<string> {
    set k | 0 <= k < |rows| && rows[k].status == 1 :: rows[k].core.id
  }

  /** What a poll reports: nothing at bootstrap, else the eligible fresh deposits. */
  function Reported(cursor: Option<Cursor>, rows: seq<Deposit>): seq<Core> {
    if cursor.None? then [] else EligibleOf(Fresh(cursor.value.records, rows))
  }

  /** A refused poll changes nothing. */
  function Polled(h: History, i: Input): History {
    match Poll(i.now, h.cursor, i.deposits, i.withdrawals)
    case Err(_) => h
    case Ok(report) =>
      History(Some(report.cursor), h.reported + Reported(h.cursor, i.deposits), h.completed + CompletedIds(i.deposits))
  }

  function RunPolls(inputs: seq<Input>): History {
    if inputs == [] then History(None, [], {})
    else Polled(RunPolls(inputs[..|inputs| - 1]), inputs[|inputs| - 1])
  }

  /** The broker's rows are immutable: an id always names the same deposit. */
  ghost predicate Immutable(truth: string -> Core, i: Input) {
    forall k :: 0 <= k < |i.deposits| ==> i.deposits[k].core == truth(i.deposits[k].core.id)
  }

  ghost predicate AllImmutable(truth: string -> Core, inputs: seq<Input>) {
    forall k :: 0 <= k < |inputs| ==> Immutable(truth, inputs[k])
  }

  /** A completed deposit is in the cursor, or it is older than anything a later poll may read. */
  ghost predicate Remembered(truth: string -> Core, c: Cursor, id: string) {
    || (FinalIn(c.records, id) && c.records[DepositId(id)].core == truth(id))
    || truth(id).insertTime < c.observedAt - LOOKBACK
  }

  predicate NoRepeats(cores: seq<Core>) {
    forall i, j :: 0 <= i < j < |cores| ==> cores[i].id != cores[j].id
  }

  ghost predicate Inv(truth: string -> Core, h: History) {
    && (h.cursor.None? ==> h.completed == {} && h.reported == [])
    && (h.cursor.Some? ==>
          && |h.cursor.value.records| <= MAX_RECORDS
          && (forall id :: id in h.completed ==> Remembered(truth, h.cursor.value, id))
          && (forall id :: FinalIn(h.cursor.value.records, id) ==> id in h.completed))
    && NoRepeats(h.reported) && (forall c :: c in h.reported ==> c.id in h.completed)
  }

  lemma {:induction false} FreshMembers(records: Records, rows: seq<Deposit>)
    ensures forall c :: c in Fresh(records, rows) <==>
              exists k :: 0 <= k < |rows| && rows[k].core == c && rows[k].status == 1 && !FinalIn(records, c.id)
  {
    hide FinalIn;
    if rows != [] {
      var n := |rows| - 1;
      FreshMembers(records, rows[..n]);
      assert forall k :: 0 <= k < n ==> rows[..n][k] == rows[k];
      forall c | c in Fresh(records, rows)
        ensures exists k :: 0 <= k < |rows| && rows[k].core == c && rows[k].status == 1 && !FinalIn(records, c.id)
      {
        if c in Fresh(records, rows[..n]) {
          var k :| 0 <= k < n && rows[..n][k].core == c && rows[..n][k].status == 1 && !FinalIn(records, c.id);
          assert rows[k].core == c;
        } else {
          assert rows[n].core == c;
        }
      }
    }
  }

  lemma OneMoreDistinct(cores: seq<Core>, c: Core)
    requires NoRepeats(cores) && forall x :: x in cores ==> x.id != c.id
    ensures NoRepeats(cores + [c])
  {
  }

  lemma {:induction false} FreshDistinct(records: Records, rows: seq<Deposit>)
    requires DistinctRows(rows)
    ensures NoRepeats(Fresh(records, rows))
  {
    hide FinalIn;
    if rows != [] {
      var n := |rows| - 1;
      assert forall k :: 0 <= k < n ==> rows[..n][k] == rows[k];
      FreshDistinct(records, rows[..n]);
      FreshMembers(records, rows[..n]);
      OneMoreDistinct(Fresh(records, rows[..n]), rows[n].core);
      hide NoRepeats;
      assert Fresh(records, rows[..n]) + [] == Fresh(records, rows[..n]);
    }
  }

  lemma {:induction false} EligibleMembers(cores: seq<Core>)
    ensures forall c :: c in EligibleOf(cores) <==> c in cores && Eligible(c)
  {
    hide Eligible;
    if cores != [] {
      EligibleMembers(cores[..|cores| - 1]);
      assert cores == cores[..|cores| - 1] + [cores[|cores| - 1]];
    }
  }

  lemma {:induction false} EligibleDistinct(cores: seq<Core>)
    requires NoRepeats(cores)
    ensures NoRepeats(EligibleOf(cores))
  {
    hide Eligible;
    if cores != [] {
      var n := |cores| - 1;
      EligibleDistinct(cores[..n]);
      EligibleMembers(cores[..n]);
      assert forall x :: x in cores[..n] ==> x.id != cores[n].id;
      OneMoreDistinct(EligibleOf(cores[..n]), cores[n]);
      hide NoRepeats;
      assert EligibleOf(cores[..n]) + [] == EligibleOf(cores[..n]);
    }
  }

  // ---- Main results ---------------------------------------------------------------------------

  lemma PruneFacts(records: Records, seen: set<Identity>, start: int)
    ensures forall id :: FinalIn(Prune(records, seen, start), id) <==>
              FinalIn(records, id) && records[DepositId(id)].core.insertTime >= start
    ensures forall id :: FinalIn(Prune(records, seen, start), id) ==>
              Prune(records, seen, start)[DepositId(id)] == records[DepositId(id)]
  {
  }

  /** What the two loops leave for the pruning. */
  lemma LoopsDone(records: Records, bootstrap: bool, i: Input, noted: Tally, t: Tally)
    requires NoteDeposits(Tally(records, {}, ZERO, [], 0, 0), i.deposits, bootstrap, i.now - LOOKBACK, i.now)
             == Ok(noted)
    requires NoteWithdrawals(noted, i.withdrawals, bootstrap) == Ok(t)
    ensures DistinctRows(i.deposits) && forall k :: 0 <= k < |i.deposits| ==>
            ValidRow(i.deposits[k], i.now - LOOKBACK, i.now)
    ensures Reports(bootstrap, Fresh(records, i.deposits), t)
    ensures forall id :: FinalIn(t.records, id) ==> FinalIn(records, id) || CompletedRow(i.deposits, id)
    ensures forall k :: 0 <= k < |i.deposits| && i.deposits[k].status == 1 ==>
              FinalIn(t.records, i.deposits[k].core.id)
                && t.records[DepositId(i.deposits[k].core.id)].core == i.deposits[k].core
    ensures forall id :: FinalIn(records, id) ==>
              FinalIn(t.records, id) && t.records[DepositId(id)].core == records[DepositId(id)].core
  {
    NotedFacts(records, i.deposits, bootstrap, i.now - LOOKBACK, i.now);
    WithdrawalsKeepDeposits(noted, i.withdrawals, bootstrap);
    hide NoteDeposits;
    hide NoteWithdrawals;
    hide ValidRow;
    hide CompletedRow;
  }

  /** An accepted poll, seen from outside. */
  lemma AcceptedPoll(cursor: Option<Cursor>, i: Input)
    requires Poll(i.now, cursor, i.deposits, i.withdrawals).Ok?
    ensures var report := Poll(i.now, cursor, i.deposits, i.withdrawals).value;
            var records := if cursor.Some? then cursor.value.records else map[];
            && DistinctRows(i.deposits)
            && (forall k :: 0 <= k < |i.deposits| ==> i.deposits[k].core.insertTime >= i.now - LOOKBACK)
            && Principal(Reported(cursor, i.deposits)) == Ok(report.principal)
            && |report.completedAt| == |Reported(cursor, i.deposits)|
            && report.unsupported == (if cursor.None? then 0 else |Fresh(records, i.deposits)|)
              - |Reported(cursor, i.deposits)|
            && report.cursor.observedAt == i.now && |report.cursor.records| <= MAX_RECORDS
            && (forall id :: FinalIn(report.cursor.records, id) ==>
              FinalIn(records, id) || id in CompletedIds(i.deposits))
            && (forall k :: 0 <= k < |i.deposits| && i.deposits[k].status == 1 ==>
                  FinalIn(report.cursor.records, i.deposits[k].core.id)
                  && report.cursor.records[DepositId(i.deposits[k].core.id)].core == i.deposits[k].core)
            && (forall id :: FinalIn(records, id) ==>
                  || records[DepositId(id)].core.insertTime < i.now - LOOKBACK
                  || (FinalIn(report.cursor.records, id)
                      && report.cursor.records[DepositId(id)].core == records[DepositId(id)].core))
  {
    hide NoteDeposits;
    hide NoteWithdrawals;
    hide Prune;
    hide FinalIn;
    var records := if cursor.Some? then cursor.value.records else map[];
    var start := i.now - LOOKBACK;
    var noted := NoteDeposits(Opened(cursor), i.deposits, cursor.None?, start, i.now).value;
    var t := NoteWithdrawals(noted, i.withdrawals, cursor.None?).value;
    LoopsDone(records, cursor.None?, i, noted, t);
    PruneFacts(t.records, t.seen, start);
  }

  lemma AppendDistinct(a: seq<Core>, b: seq<Core>)
    requires NoRepeats(a) && NoRepeats(b) && forall x, y :: x in a && y in b ==> x.id != y.id
    ensures NoRepeats(a + b)
  {
    forall i, j | 0 <= i < j < |a + b| ensures (a + b)[i].id != (a + b)[j].id {
      if i < |a| <= j {
        assert a[i] in a && b[j - |a|] in b;
      }
    }
  }

  /** A completed row is fresh to the cursor exactly when it was never seen completed before. */
  lemma FreshMeansFirst(truth: string -> Core, h: History, i: Input, k: nat)
    requires Inv(truth, h) && Immutable(truth, i) && Poll(i.now, h.cursor, i.deposits, i.withdrawals).Ok?
    requires h.cursor.Some? && k < |i.deposits| && i.deposits[k].status == 1
    ensures FinalIn(h.cursor.value.records, i.deposits[k].core.id) <==> i.deposits[k].core.id in h.completed
  {
    AcceptedPoll(h.cursor, i);
    hide Poll;
    assert ValidCursor(h.cursor.value, i.now) by { CursorWasValid(h.cursor, i); }
  }

  lemma CursorWasValid(cursor: Option<Cursor>, i: Input)
    requires Poll(i.now, cursor, i.deposits, i.withdrawals).Ok? && cursor.Some?
    ensures ValidCursor(cursor.value, i.now)
  {
  }

  lemma ReportedMembers(cursor: Option<Cursor>, rows: seq<Deposit>)
    ensures forall c :: c in Reported(cursor, rows) <==>
              cursor.Some? && Eligible(c)
              && exists k ::
                0 <= k < |rows| && rows[k].core == c && rows[k].status == 1 && !FinalIn(cursor.value.records, c.id)
  {
    if cursor.Some? {
      FreshMembers(cursor.value.records, rows);
      EligibleMembers(Fresh(cursor.value.records, rows));
    }
  }

  /** Nothing a poll reports was seen completed before, and it is afterwards. */
  lemma ReportsAreNew(truth: string -> Core, h: History, i: Input)
    requires Inv(truth, h) && Immutable(truth, i) && Poll(i.now, h.cursor, i.deposits, i.withdrawals).Ok?
    ensures NoRepeats(Reported(h.cursor, i.deposits))
    ensures forall c :: c in Reported(h.cursor, i.deposits) ==> c.id !in h.completed && c.id in CompletedIds(i.deposits)
  {
    AcceptedPoll(h.cursor, i);
    ReportedMembers(h.cursor, i.deposits);
    hide Poll;
    if h.cursor.Some? {
      FreshDistinct(h.cursor.value.records, i.deposits);
      EligibleDistinct(Fresh(h.cursor.value.records, i.deposits));
    }
    hide Inv;
    forall c | c in Reported(h.cursor, i.deposits) ensures c.id !in h.completed && c.id in CompletedIds(i.deposits) {
      var k :| 0 <= k < |i.deposits| && i.deposits[k].core == c && i.deposits[k].status == 1
        && !FinalIn(h.cursor.value.records, c.id);
      FreshMeansFirst(truth, h, i, k);
    }
  }

  lemma RememberedAfter(truth: string -> Core, h: History, i: Input, id: string)
    requires Inv(truth, h) && Immutable(truth, i) && Poll(i.now, h.cursor, i.deposits, i.withdrawals).Ok?
    requires id in h.completed + CompletedIds(i.deposits)
    ensures Remembered(truth, Poll(i.now, h.cursor, i.deposits, i.withdrawals).value.cursor, id)
  {
    AcceptedPoll(h.cursor, i);
    if h.cursor.Some? {
      CursorWasValid(h.cursor, i);
    }
    hide Poll;
    hide FinalIn;
    if id in CompletedIds(i.deposits) {
      var k :| 0 <= k < |i.deposits| && i.deposits[k].status == 1 && i.deposits[k].core.id == id;
    } else {
      assert Remembered(truth, h.cursor.value, id);
    }
  }

  lemma PolledKeeps(truth: string -> Core, h: History, i: Input)
    requires Inv(truth, h) && Immutable(truth, i)
    ensures Inv(truth, Polled(h, i))
  {
    if Poll(i.now, h.cursor, i.deposits, i.withdrawals).Ok? {
      AcceptedPoll(h.cursor, i);
      ReportsAreNew(truth, h, i);
      AppendDistinct(h.reported, Reported(h.cursor, i.deposits));
      forall id | id in h.completed + CompletedIds(i.deposits)
        ensures Remembered(truth, Poll(i.now, h.cursor, i.deposits, i.withdrawals).value.cursor, id)
      {
        RememberedAfter(truth, h, i, id);
      }
    }
    hide Poll;
    hide FinalIn;
    hide Remembered;
    hide NoRepeats;
    hide Reported;
    hide CompletedIds;
  }

  lemma {:induction false} EveryRunKeeps(truth: string -> Core, inputs: seq<Input>)
    requires AllImmutable(truth, inputs)
    ensures Inv(truth, RunPolls(inputs))
  {
    if inputs != [] {
      EveryRunKeeps(truth, inputs[..|inputs| - 1]);
      PolledKeeps(truth, RunPolls(inputs[..|inputs| - 1]), inputs[|inputs| - 1]);
    }
  }

  /**
  Over any run of polls of an immutable history, refused polls included, no deposit is reported twice,
  although the cursor forgets completed deposits that have aged out of the window.
  */
  lemma ReportedAtMostOnce(truth: string -> Core, inputs: seq<Input>, i: nat, j: nat)
    requires AllImmutable(truth, inputs) && i < j < |RunPolls(inputs).reported|
    ensures RunPolls(inputs).reported[i].id != RunPolls(inputs).reported[j].id
  {
    EveryRunKeeps(truth, inputs);
  }

  /**
  An accepted poll reports exactly the eligible deposits that it is the first accepted poll to see
  completed, unless it is the bootstrap; it lists as many completion times, and the principal it returns is
  the total of their amounts accumulated in 28 digits.
  */
  lemma ReportedWhenFirstCompleted(truth: string -> Core, inputs: seq<Input>, i: Input, c: Core)
    requires AllImmutable(truth, inputs) && Immutable(truth, i)
    requires Poll(i.now, RunPolls(inputs).cursor, i.deposits, i.withdrawals).Ok?
    ensures var h := RunPolls(inputs);
            && (c in Reported(h.cursor, i.deposits) <==>
                  && h.cursor.Some? && Eligible(c) && c.id !in h.completed
                  && exists k :: 0 <= k < |i.deposits| && i.deposits[k].core == c && i.deposits[k].status == 1)
            && var report := Poll(i.now, h.cursor, i.deposits, i.withdrawals).value;
               Principal(Reported(h.cursor, i.deposits)) == Ok(report.principal)
               && |report.completedAt| == |Reported(h.cursor, i.deposits)|
  {
    var h := RunPolls(inputs);
    EveryRunKeeps(truth, inputs);
    AcceptedPoll(h.cursor, i);
    ReportedMembers(h.cursor, i.deposits);
    hide Poll;
    hide RunPolls;
    hide Inv;
    hide Principal;
    forall k | 0 <= k < |i.deposits| && i.deposits[k].core == c && i.deposits[k].status == 1 && h.cursor.Some?
      ensures FinalIn(h.cursor.value.records, c.id) <==> c.id in h.completed
    {
      FreshMeansFirst(truth, h, i, k);
    }
  }

  // ---- The principal --------------------------------------------------------------------------

  /**
  Counted in any common units, the principal is exact after every deposit exactly when the context can hold
  each total on the way: 28 digits, no exponent below the least one, and no overflow.
  */
  lemma PrincipalIsExactIff(cores: seq<Core>, e: int)
    requires e <= 0 && AtScale(Amounts(cores), e)
    ensures ExactSums(Amounts(cores), PRECISION, e) <==> WritableSums(Amounts(cores), PRECISION, e)
    ensures ExactSums(Amounts(cores), PRECISION, e) ==> Yields(Principal(cores), e, SumScaled(Amounts(cores), e))
  {
    SumsAreExactIff(Amounts(cores), PRECISION, e);
    assert Amounts(cores)[..|Amounts(cores)|] == Amounts(cores);
    hide WritableSums;
    hide Yields;
  }

  lemma {:induction false} FreshAreRows(records: Records, rows: seq<Deposit>, start: int, end: int)
    requires forall k :: 0 <= k < |rows| ==> ValidRow(rows[k], start, end)
    ensures forall k :: 0 <= k < |Fresh(records, rows)| ==> Fresh(records, rows)[k].amount.coeff > 0
  {
    hide FinalIn;
    if rows != [] {
      FreshAreRows(records, rows[..|rows| - 1], start, end);
    }
  }

  /**
  An accepted poll whose deposits have at most 1000026 decimals and stay below 10^28 units of their grid
  returns their exact sum.
  */
  lemma PrincipalBelowCapIsExact(cursor: Option<Cursor>, i: Input, e: int)
    requires Poll(i.now, cursor, i.deposits, i.withdrawals).Ok?
    requires Etiny(PRECISION) <= e <= 0 && AtScale(Amounts(Reported(cursor, i.deposits)), e)
    requires SumScaled(Amounts(Reported(cursor, i.deposits)), e) < Pow10(PRECISION)
    ensures Yields(Ok(Poll(i.now, cursor, i.deposits, i.withdrawals).value.principal), e,
                   SumScaled(Amounts(Reported(cursor, i.deposits)), e))
  {
    AcceptedPoll(cursor, i);
    AcceptedRows(cursor, i);
    var reported := Reported(cursor, i.deposits);
    ReportedAreQuantities(cursor, i);
    hide *;
    ShortPrincipal(reported, e);
  }

  lemma ShortPrincipal(cores: seq<Core>, e: int)
    requires Etiny(PRECISION) <= e <= 0 && AtScale(Amounts(cores), e) && Quantities(Amounts(cores))
    requires SumScaled(Amounts(cores), e) < Pow10(PRECISION)
    ensures Yields(Principal(cores), e, SumScaled(Amounts(cores), e))
  {
    ShortSumsAreExact(Amounts(cores), PRECISION, e);
    PrincipalIsExactIff(cores, e);
    hide *;
  }

  lemma ReportedAreQuantities(cursor: Option<Cursor>, i: Input)
    requires forall k :: 0 <= k < |i.deposits| ==> ValidRow(i.deposits[k], i.now - LOOKBACK, i.now)
    ensures Quantities(Amounts(Reported(cursor, i.deposits)))
  {
    var reported := Reported(cursor, i.deposits);
    if cursor.Some? {
      FreshAreRows(cursor.value.records, i.deposits, i.now - LOOKBACK, i.now);
      EligibleMembers(Fresh(cursor.value.records, i.deposits));
      forall k | 0 <= k < |reported| ensures Amounts(reported)[k].coeff >= 0 {
        assert reported[k] in Fresh(cursor.value.records, i.deposits);
      }
    }
  }

  lemma AcceptedRows(cursor: Option<Cursor>, i: Input)
    requires Poll(i.now, cursor, i.deposits, i.withdrawals).Ok?
    ensures forall k :: 0 <= k < |i.deposits| ==> ValidRow(i.deposits[k], i.now - LOOKBACK, i.now)
  {
    hide NoteDeposits;
    hide NoteWithdrawals;
    hide Prune;
    hide ValidRow;
    var records := if cursor.Some? then cursor.value.records else map[];
    var noted := NoteDeposits(Opened(cursor), i.deposits, cursor.None?, i.now - LOOKBACK, i.now).value;
    var t := NoteWithdrawals(noted, i.withdrawals, cursor.None?).value;
    LoopsDone(records, cursor.None?, i, noted, t);
  }

  // ---- Where it is not exact ------------------------------------------------------------------

  /** A completed USDT deposit, as the second poll of an account sees it. */
  function Completed(id: string, amount: Plain): Deposit {
    Deposit(Core(id, amount, "USDT", 0, 0, 1), 1, Completion(2, "tx"))
  }

  /** The cursor of an account without history. */
  function Empty(): Option<Cursor> {
    Some(Cursor(0, map[]))
  }

  lemma PollOf(now: int, cursor: Option<Cursor>, rows: seq<Deposit>, t: Tally)
    requires NoteDeposits(Opened(cursor), rows, cursor.None?, now - LOOKBACK, now) == Ok(t)
    requires (cursor.Some? ==> ValidCursor(cursor.value, now)) && |rows| < PAGE_SIZE
    requires |Prune(t.records, t.seen, now - LOOKBACK)| <= MAX_RECORDS
    ensures Poll(now, cursor, rows, []).Ok? && Poll(now, cursor, rows, []).value.principal == t.principal
  {
    hide NoteDeposits;
    hide Prune;
  }

  lemma OneNoted(t: Tally, d: Deposit, now: int)
    requires ValidRow(d, now - LOOKBACK, now) && ValidCompletion(d, now) && d.status == 1
    requires DepositId(d.core.id) !in t.seen && DepositId(d.core.id) !in t.records
    ensures NoteDeposit(t, d, false, now - LOOKBACK, now) == NoteCompleted(t, d, false)
  {
    hide NoteCompleted;
  }

  /** After one deposit and after two, when their sums do not overflow. */
  lemma TwoNoted(a: Deposit, b: Deposit, s: Decimal, r: Decimal, now: int) returns (t: Tally)
    requires now == 3 && a == Completed("a", a.core.amount) && b == Completed("b", b.core.amount)
    requires a.core.amount.coeff > 0 && b.core.amount.coeff > 0
    requires Add(ZERO, a.core.amount, PRECISION) == Ok(s) && Add(s, b.core.amount, PRECISION) == Ok(r)
    ensures NoteDeposits(Opened(Empty()), [a, b], false, now - LOOKBACK, now) == Ok(t) && t.principal == r
    ensures t.records.Keys == {DepositId("a"), DepositId("b")} && ValidCursor(Empty().value, now)
  {
    hide Add;
    var first := Opened(Empty());
    var rows := [a, b];
    assert rows[..1] == [a] && rows[..1][..0] == [];
    OneNoted(first, a, now);
    var one := NoteCompleted(first, a, false).value;
    OneNoted(one, b, now);
    assert NoteDeposits(first, rows[..1], false, now - LOOKBACK, now) == Ok(one) by {
      hide NoteDeposit;
      hide NoteCompleted;
    }
    t := NoteCompleted(one, b, false).value;
    hide NoteDeposit;
  }

  lemma OneDeposit(a: Deposit, s: Decimal, now: int) returns (t: Tally)
    requires now == 3 && a == Completed("a", a.core.amount) && a.core.amount.coeff > 0
    requires Add(ZERO, a.core.amount, PRECISION) == Ok(s)
    ensures NoteDeposits(Opened(Empty()), [a], false, now - LOOKBACK, now) == Ok(t) && t.principal == s
    ensures t.records.Keys == {DepositId("a")} && ValidCursor(Empty().value, now)
  {
    hide Add;
    var first := Opened(Empty());
    assert [a][..0] == [];
    OneNoted(first, a, now);
    t := NoteCompleted(first, a, false).value;
    hide NoteDeposit;
  }

  lemma FewRecords(t: Tally, now: int)
    requires t.records.Keys <= {DepositId("a"), DepositId("b")}
    ensures |Prune(t.records, t.seen, now - LOOKBACK)| <= MAX_RECORDS
  {
    var kept := Prune(t.records, t.seen, now - LOOKBACK);
    assert kept.Keys <= {DepositId("a"), DepositId("b")};
    KeysBound(kept.Keys);
  }

  lemma KeysBound(keys: set<Identity>)
    requires keys <= {DepositId("a"), DepositId("b")}
    ensures |keys| <= 2
  {
    var rest := {DepositId("a"), DepositId("b")} - keys;
    assert keys + rest == {DepositId("a"), DepositId("b")};
    assert |keys + rest| == |keys| + |rest|;
  }

  /**
  10^29 units and one: a poll of deposits of 10000000000 and 0.0000000000000000001 USDT is accepted and does
  not return their sum.
  */
  lemma PrincipalCanRound(large: Plain, small: Plain, digits: nat, now: int)
    requires digits == 29 && large == Decimal(Pow10(digits), -19) && small == Decimal(1, -19) && now == 3
    ensures var poll := Poll(now, Empty(), [Completed("a", large), Completed("b", small)], []);
            poll.Ok? && !Yields(Ok(poll.value.principal), -19, Pow10(digits) + 1)
  {
    LargeIsKept(large, digits);
    var s := Add(ZERO, large, PRECISION).value;
    SmallIsLost(s, small, digits);
    var r := Add(s, small, PRECISION).value;
    PositivePower(digits);
    hide *;
    var a, b := Completed("a", large), Completed("b", small);
    CompletedIs("a", large);
    CompletedIs("b", small);
    var t := TwoNoted(a, b, s, r, now);
    FewRecords(t, now);
    PollOf(now, Empty(), [a, b], t);
  }

  lemma CompletedIs(id: string, amount: Plain)
    ensures Completed(id, amount).core.amount == amount && PAGE_SIZE > 2 && Empty().Some?
  {
  }

  lemma PositivePower(digits: nat)
    ensures Pow10(digits) >= 1
  {
    hide Pow10;
  }

  /** One digit is enough to write a power of ten. */
  lemma LargeIsKept(large: Plain, digits: nat)
    requires digits == 29 && large == Decimal(Pow10(digits), -19)
    ensures Yields(Add(ZERO, large, PRECISION), -19, Pow10(digits))
  {
    hide Pow10;
    hide DigitCount;
    hide Scaled;
    ReadBack(large);
    ReadZero(ZERO, -19);
    PowMonotone(1, PRECISION);
    TenIsPower();
    assert WrittenIn(Pow10(digits), -19, 1, digits, PRECISION);
    Tens(digits + 1);
    ShortIsNotTooLarge(Pow10(digits), -19, digits + 1);
    SumIsExactIff(ZERO, large, PRECISION, -19);
  }

  lemma TenIsPower()
    ensures Pow10(1) == 10
  {
    assert Pow10(1) == 10 * Pow10(0);
  }

  lemma SmallIsLost(s: Decimal, small: Plain, digits: nat)
    requires digits == 29 && Yields(Ok(s), -19, Pow10(digits)) && small == Decimal(1, -19)
    ensures Add(s, small, PRECISION).Ok? && !Yields(Add(s, small, PRECISION), -19, Pow10(digits) + 1)
  {
    hide Pow10;
    hide DigitCount;
    hide Scaled;
    hide Finished;
    ReadBack(small);
    Tens(digits);
    PowMonotone(PRECISION, digits);
    NotWritable(Pow10(digits) + 1, -19, PRECISION);
    SumIsExactIff(s, small, PRECISION, -19);
    Tens(digits + 1);
    NoOverflow(Pow10(digits) + 1, -19, digits + 1, PRECISION);
    assert Min(s.exp, small.exp) == -19;
  }

  /**
  A deposit of 1E-1100000 USDT: it is one unit of its grid, and the accepted poll returns nothing for it.
  */
  lemma PrincipalCanVanish(tiny: Plain, now: int)
    requires tiny == Decimal(1, -1_100_000) && now == 3
    ensures var poll := Poll(now, Empty(), [Completed("a", tiny)], []);
            poll.Ok? && poll.value.principal.coeff == 0 && Scaled(tiny, tiny.exp) == 1
  {
    TinyIsLost(tiny, PRECISION);
    var s := Add(ZERO, tiny, PRECISION).value;
    hide *;
    var a := Completed("a", tiny);
    CompletedIs("a", tiny);
    var t := OneDeposit(a, s, now);
    FewRecords(t, now);
    PollOf(now, Empty(), [a], t);
    ReadBack(tiny);
  }

  lemma TinyIsLost(tiny: Plain, prec: nat)
    requires tiny == Decimal(1, -1_100_000) && prec == PRECISION
    ensures Add(ZERO, tiny, prec).Ok? && Add(ZERO, tiny, prec).value.coeff == 0
  {
    hide Pow10;
    hide DigitCount;
    hide Scaled;
    ReadBack(tiny);
    ReadZero(ZERO, tiny.exp);
    OneIsOneDigit();
    var k := Excess(1, tiny.exp, prec);
    assert k >= 2;
    UnitVanishes(k);
    PositivePower(prec);
    hide Excess;
    hide RoundedUnits;
  }

  lemma OneIsOneDigit()
    ensures DigitCount(1) == 1
  {
    hide Pow10;
  }

  /** One unit of which two or more places are given up is rounded to nothing. */
  lemma UnitVanishes(k: nat)
    requires k >= 1
    ensures RoundedUnits(1, k) == 0
  {
    hide Pow10;
    hide DropDigits;
    DroppedPartIsSmall(1, k);
    Tens(k);
    NoneOfOne(DropDigits(1, k), Pow10(k));
  }

  lemma NoneOfOne(q: nat, unit: nat)
    requires q * unit <= 1 && unit >= 10
    ensures q == 0 && HalfEven(q, 1 - q * unit, unit) == 0
  {
    if q >= 1 {
      MulAtLeast(1, q, unit);
    }
  }

  /** A deposit of 1E+1000000 USDT: one digit would do, but the sum overflows and the poll ends. */
  lemma PrincipalCanOverflow(huge: Plain, digits: nat, now: int)
    requires 999_999 < digits < 1_000_001 && huge == Decimal(Pow10(digits), 0) && now == 3
    ensures Poll(now, Empty(), [Completed("a", huge)], []) == Err("overflow")
  {
    HugeOverflows(huge, digits);
    PositivePower(digits);
    hide *;
    CompletedIs("a", huge);
    EmptyIsValid(now);
    OneRefused(Completed("a", huge), now);
    PollRefused(now, Empty(), [Completed("a", huge)]);
  }

  lemma EmptyIsValid(now: int)
    requires now == 3
    ensures Empty().Some? && ValidCursor(Empty().value, now) && PAGE_SIZE > 1
  {
  }

  lemma OneRefused(a: Deposit, now: int)
    requires now == 3 && a == Completed("a", a.core.amount) && a.core.amount.coeff > 0
    requires Add(ZERO, a.core.amount, PRECISION) == Err("overflow")
    ensures NoteDeposits(Opened(Empty()), [a], false, now - LOOKBACK, now) == Err("overflow")
  {
    hide Add;
    var first := Opened(Empty());
    assert [a][..0] == [];
    OneNoted(first, a, now);
    assert NoteCompleted(first, a, false) == Err("overflow");
    hide NoteDeposit;
  }

  lemma PollRefused(now: int, cursor: Option<Cursor>, rows: seq<Deposit>)
    requires NoteDeposits(Opened(cursor), rows, cursor.None?, now - LOOKBACK, now) == Err("overflow")
    requires (cursor.Some? ==> ValidCursor(cursor.value, now)) && |rows| < PAGE_SIZE
    ensures Poll(now, cursor, rows, []) == Err("overflow")
  {
    hide NoteDeposits;
  }

  lemma HugeOverflows(huge: Plain, digits: nat)
    requires 999_999 < digits < 1_000_001 && huge == Decimal(Pow10(digits), 0)
    ensures Add(ZERO, huge, PRECISION) == Err("overflow")
  {
    hide Pow10;
    hide DigitCount;
    hide Scaled;
    ReadBack(huge);
    ReadZero(ZERO, 0);
    Tens(digits + 1);
    ExactDigitCount(Pow10(digits), digits + 1);
  }

  /** Every cursor a run produces is within capacity and accepted at any later time. */
  lemma CursorsStayValid(truth: string -> Core, inputs: seq<Input>, later: int)
    requires AllImmutable(truth, inputs) && RunPolls(inputs).cursor.Some?
             && RunPolls(inputs).cursor.value.observedAt <= later
    ensures |RunPolls(inputs).cursor.value.records| <= 256
    ensures ValidCursor(RunPolls(inputs).cursor.value, later)
  {
    EveryRunKeeps(truth, inputs);
  }
}

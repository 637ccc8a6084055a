/**
A poll of DepositCursor.dfy as a whole: exactly which listings it accepts, and what it reports and records of
them, said of the rows and the cursor before alone, without the order in which the loops visit them.
*/
module PollResults {
  import opened Outcomes
  import opened Contexts
  import opened DepositCursor

  // ---- Deposits -------------------------------------------------------------------------------------

  /** A deposit row is well formed and does not contradict what the cursor recorded of it. */
  predicate Fits(known: Records, d: Deposit, start: int, now: int) {
    && 1 <= |d.core.id| <= 160 && (d.status == 0 || d.status == 1 || d.status == 2 || 6 <= d.status <= 8)
    && start <= d.core.insertTime <= now && d.core.amount.coeff >= 1 && |d.core.coin| >= 1
    && (d.status == 1 ==>
          && d.core.insertTime <= d.completion.completeTime && d.completion.completeTime <= now
          && 1 <= |d.completion.txId| <= 256)
    && (DepositId(d.core.id) in known ==>
          known[DepositId(d.core.id)] == DepositRecord(d.core, None)
          || (d.status == 1 && known[DepositId(d.core.id)] == DepositRecord(d.core, Some(d.completion))))
  }

  predicate Listed(rows: seq<Deposit>, id: Identity) {
    exists k :: 0 <= k < |rows| && DepositId(rows[k].core.id) == id
  }

  /** The listed deposits are recorded as listed, everything else as it was. */
  ghost predicate RecordsListed(known: Records, rows: seq<Deposit>, next: Records) {
    && (forall k :: 0 <= k < |rows| ==>
          DepositId(rows[k].core.id) in next
          && next[DepositId(rows[k].core.id)]
             == DepositRecord(rows[k].core, if rows[k].status == 1 then Some(rows[k].completion) else None))
    && (forall id :: !Listed(rows, id) ==> (id in next <==> id in known) && (id in next ==> next[id] == known[id]))
  }

  /** A row that fits is one the loop accepts next, and it is recorded as listed. */
  lemma NoteFits(t: Tally, d: Deposit, bootstrap: bool, start: int, now: int)
    requires DepositId(d.core.id) !in t.seen
    ensures var r := NoteDeposit(t, d, bootstrap, start, now);
            var overflows := !bootstrap && d.status == 1 && !FinalIn(t.records, d.core.id) && Eligible(d.core)
                             && Add(t.principal, d.core.amount, PRECISION).Err?;
            && (r.Ok? <==> Fits(t.records, d, start, now) && !overflows)
            && (r.Ok? ==>
                  && r.value.seen == t.seen + {DepositId(d.core.id)}
                  && r.value.records == t.records[DepositId(d.core.id) :=
                       DepositRecord(d.core, if d.status == 1 then Some(d.completion) else None)])
  {
    hide Add;
    var id := DepositId(d.core.id);
    if id in t.records && t.records[id].DepositRecord? {
      assert t.records == t.records[id := t.records[id]];
    }
  }

  lemma ListedOne(rows: seq<Deposit>, id: Identity)
    requires rows != []
    ensures Listed(rows, id) <==> Listed(rows[..|rows| - 1], id) || id == DepositId(rows[|rows| - 1].core.id)
  {
    var n := |rows| - 1;
    if Listed(rows[..n], id) {
      var k :| 0 <= k < n && DepositId(rows[..n][k].core.id) == id;
      assert DepositId(rows[k].core.id) == id;
    }
    if Listed(rows, id) && id != DepositId(rows[n].core.id) {
      var k :| 0 <= k < |rows| && DepositId(rows[k].core.id) == id;
      assert DepositId(rows[..n][k].core.id) == id;
    }
    if id == DepositId(rows[n].core.id) {
      assert Listed(rows, id);
    }
  }

  ghost predicate AllFit(known: Records, rows: seq<Deposit>, start: int, now: int) {
    forall k :: 0 <= k < |rows| ==> Fits(known, rows[k], start, now)
  }

  /** What the loop has noted of the rows so far. */
  ghost predicate NotedSoFar(known: Records, rows: seq<Deposit>, t: Tally) {
    && RecordsListed(known, rows, t.records)
    && forall id :: id in t.seen <==> Listed(rows, id)
  }

  lemma RecordsOneMore(known: Records, rows: seq<Deposit>, before: Records, after: Records)
    requires rows != [] && RecordsListed(known, rows[..|rows| - 1], before)
    requires var d := rows[|rows| - 1];
             && !Listed(rows[..|rows| - 1], DepositId(d.core.id))
             && after == before[DepositId(d.core.id) :=
                  DepositRecord(d.core, if d.status == 1 then Some(d.completion) else None)]
    ensures RecordsListed(known, rows, after)
  {
    var n := |rows| - 1;
    forall k | 0 <= k < n
      ensures rows[k] == rows[..n][k] && DepositId(rows[k].core.id) != DepositId(rows[n].core.id)
    {
      assert DepositId(rows[..n][k].core.id) == DepositId(rows[k].core.id);
    }
    forall id ensures Listed(rows, id) <==> Listed(rows[..n], id) || id == DepositId(rows[n].core.id) {
      ListedOne(rows, id);
    }
    hide Listed;
  }

  /** Whether a row may follow does not depend on the rows before it, which are about other deposits. */
  lemma FitsAlike(known: Records, records: Records, d: Deposit, start: int, now: int)
    requires DepositId(d.core.id) in known <==> DepositId(d.core.id) in records
    requires DepositId(d.core.id) in known ==> records[DepositId(d.core.id)] == known[DepositId(d.core.id)]
    ensures Fits(known, d, start, now) <==> Fits(records, d, start, now)
    ensures FinalIn(known, d.core.id) <==> FinalIn(records, d.core.id)
  {
  }

  lemma AllFitOne(known: Records, rows: seq<Deposit>, start: int, now: int)
    requires rows != []
    ensures AllFit(known, rows, start, now) <==>
            AllFit(known, rows[..|rows| - 1], start, now) && Fits(known, rows[|rows| - 1], start, now)
  {
    hide Fits;
    var n := |rows| - 1;
    assert forall k :: 0 <= k < n ==> rows[..n][k] == rows[k];
  }

  lemma DistinctOne(rows: seq<Deposit>)
    requires rows != []
    ensures DistinctRows(rows) <==>
            DistinctRows(rows[..|rows| - 1]) && !Listed(rows[..|rows| - 1], DepositId(rows[|rows| - 1].core.id))
  {
    var n := |rows| - 1;
    assert forall k :: 0 <= k < n ==> rows[..n][k] == rows[k];
    if !Listed(rows[..n], DepositId(rows[n].core.id)) {
      forall k | 0 <= k < n ensures rows[k].core.id != rows[n].core.id {
        assert DepositId(rows[..n][k].core.id) == DepositId(rows[k].core.id);
      }
    }
  }

  /** What the last row adds to the deposits reported. */
  lemma FreshOne(known: Records, rows: seq<Deposit>)
    requires rows != []
    ensures var before, d := EligibleOf(Fresh(known, rows[..|rows| - 1])), rows[|rows| - 1];
            EligibleOf(Fresh(known, rows))
            == before + (if d.status == 1 && !FinalIn(known, d.core.id) && Eligible(d.core) then [d.core] else [])
  {
    hide FinalIn;
    hide Eligible;
    var sofar, d := Fresh(known, rows[..|rows| - 1]), rows[|rows| - 1];
    EligibleOneMore(sofar, d.core);
    assert sofar + [] == sofar && EligibleOf(sofar) + [] == EligibleOf(sofar);
  }

  /** An overflow is not made good by more deposits. */
  lemma OverflowStays(cores: seq<Core>, c: Core)
    requires Principal(cores).Err?
    ensures Principal(cores + [c]).Err?
  {
    assert (cores + [c])[..|cores|] == cores;
    assert Amounts(cores + [c])[..|cores|] == Amounts(cores);
  }

  lemma NextDeposit(known: Records, rows: seq<Deposit>, bootstrap: bool, start: int, now: int, before: Tally)
    requires rows != [] && NotedSoFar(known, rows[..|rows| - 1], before)
    requires Reports(bootstrap, Fresh(known, rows[..|rows| - 1]), before)
    ensures var d := rows[|rows| - 1];
            var r := NoteDeposit(before, d, bootstrap, start, now);
            && (r.Ok? <==>
                  && Fits(known, d, start, now) && !Listed(rows[..|rows| - 1], DepositId(d.core.id))
                  && (bootstrap || Principal(EligibleOf(Fresh(known, rows))).Ok?))
            && (r.Ok? ==> NotedSoFar(known, rows, r.value))
  {
    hide Listed;
    hide Fits;
    hide Fresh;
    hide EligibleOf;
    hide Principal;
    hide Add;
    hide NoteDeposit;
    hide FinalIn;
    hide Eligible;
    var n, d := |rows| - 1, rows[|rows| - 1];
    var id := DepositId(d.core.id);
    if id in before.seen {
      SeenIsRefused(before, d, bootstrap, start, now);
    } else {
      NoteFits(before, d, bootstrap, start, now);
      FitsAlike(known, before.records, d, start, now);
      FreshOne(known, rows);
      var sofar := EligibleOf(Fresh(known, rows[..n]));
      assert sofar + [] == sofar;
      if !bootstrap {
        PrincipalOneMore(sofar, d.core);
      }
      var r := NoteDeposit(before, d, bootstrap, start, now);
      if r.Ok? {
        RecordsOneMore(known, rows, before.records, r.value.records);
        forall x ensures Listed(rows, x) <==> Listed(rows[..n], x) || x == id {
          ListedOne(rows, x);
        }
      }
    }
  }

  lemma SeenIsRefused(t: Tally, d: Deposit, bootstrap: bool, start: int, now: int)
    requires DepositId(d.core.id) in t.seen
    ensures NoteDeposit(t, d, bootstrap, start, now).Err?
  {
    hide ValidRow;
  }

  /** The deposits are accepted exactly when each fits, none is listed twice, and the principal does not overflow. */
  lemma {:induction false} DepositsAccepted(known: Records, rows: seq<Deposit>, bootstrap: bool, start: int, now: int)
    ensures var r := NoteDeposits(Tally(known, {}, ZERO, [], 0, 0), rows, bootstrap, start, now);
            && (r.Ok? <==>
                  && AllFit(known, rows, start, now) && DistinctRows(rows)
                  && (bootstrap || Principal(EligibleOf(Fresh(known, rows))).Ok?))
            && (r.Ok? ==> NotedSoFar(known, rows, r.value) && Reports(bootstrap, Fresh(known, rows), r.value))
  {
    var first := Tally(known, {}, ZERO, [], 0, 0);
    if rows == [] {
      NoDeposits(known, bootstrap, start, now);
    } else {
      hide AllFit;
      hide DistinctRows;
      hide Principal;
      hide NotedSoFar;
      hide Reports;
      hide NoteDeposit;
      hide EligibleOf;
      hide Fresh;
      hide FinalIn;
      hide Eligible;
      var n := |rows| - 1;
      DepositsAccepted(known, rows[..n], bootstrap, start, now);
      DistinctOne(rows);
      AllFitOne(known, rows, start, now);
      FreshOne(known, rows);
      var sofar, r := EligibleOf(Fresh(known, rows[..n])), NoteDeposits(first, rows[..n], bootstrap, start, now);
      assert sofar + [] == sofar;
      if r.Ok? {
        NextDeposit(known, rows, bootstrap, start, now, r.value);
      } else if !bootstrap && Principal(sofar).Err? {
        OverflowStays(sofar, rows[n].core);
      }
      if NoteDeposits(first, rows, bootstrap, start, now).Ok? {
        NotedFacts(known, rows, bootstrap, start, now);
      }
    }
  }

  lemma NoDeposits(known: Records, bootstrap: bool, start: int, now: int)
    ensures var r := NoteDeposits(Tally(known, {}, ZERO, [], 0, 0), [], bootstrap, start, now);
            && r.Ok? && NotedSoFar(known, [], r.value) && Reports(bootstrap, Fresh(known, []), r.value)
            && AllFit(known, [], start, now) && DistinctRows([]) && Principal(EligibleOf(Fresh(known, []))).Ok?
  {
  }

  // ---- Withdrawals ----------------------------------------------------------------------------------

  predicate ListedWithdrawal(rows: seq<Withdrawal>, id: Identity) {
    exists k :: 0 <= k < |rows| && WithdrawalId(rows[k].id) == id
  }

  predicate DistinctWithdrawals(rows: seq<Withdrawal>) {
    forall i, j :: 0 <= i < j < |rows| ==> rows[i].id != rows[j].id
  }

  /** A withdrawal is new, or its payload is another than recorded. */
  predicate IsNews(known: Records, w: Withdrawal) {
    WithdrawalId(w.id) !in known || known[WithdrawalId(w.id)] != WithdrawalRecord(w.payload)
  }

  /** The positions of the new and changed withdrawals. */
  function News(known: Records, rows: seq<Withdrawal>): set<int> {
    set k | 0 <= k < |rows| && IsNews(known, rows[k])
  }

  lemma NewsOne(known: Records, rows: seq<Withdrawal>)
    requires rows != []
    ensures |News(known, rows)|
            == |News(known, rows[..|rows| - 1])| + (if IsNews(known, rows[|rows| - 1]) then 1 else 0)
  {
    hide IsNews;
    var n := |rows| - 1;
    assert News(known, rows) == News(known, rows[..n]) + (if IsNews(known, rows[n]) then {n} else {});
  }

  ghost predicate WithdrawalsListed(known: Records, rows: seq<Withdrawal>, next: Records) {
    && (forall k :: 0 <= k < |rows| ==>
          WithdrawalId(rows[k].id) in next && next[WithdrawalId(rows[k].id)] == WithdrawalRecord(rows[k].payload))
    && (forall id :: !ListedWithdrawal(rows, id) ==>
          (id in next <==> id in known) && (id in next ==> next[id] == known[id]))
  }

  lemma ListedWithdrawalOne(rows: seq<Withdrawal>, id: Identity)
    requires rows != []
    ensures ListedWithdrawal(rows, id) <==>
            ListedWithdrawal(rows[..|rows| - 1], id) || id == WithdrawalId(rows[|rows| - 1].id)
  {
    var n := |rows| - 1;
    if ListedWithdrawal(rows[..n], id) {
      var k :| 0 <= k < n && WithdrawalId(rows[..n][k].id) == id;
      assert WithdrawalId(rows[k].id) == id;
    }
    if ListedWithdrawal(rows, id) && id != WithdrawalId(rows[n].id) {
      var k :| 0 <= k < |rows| && WithdrawalId(rows[k].id) == id;
      assert WithdrawalId(rows[..n][k].id) == id;
    }
    if id == WithdrawalId(rows[n].id) {
      assert ListedWithdrawal(rows, id);
    }
  }

  lemma DistinctWithdrawalOne(rows: seq<Withdrawal>)
    requires rows != []
    ensures DistinctWithdrawals(rows) <==>
            DistinctWithdrawals(rows[..|rows| - 1])
            && !ListedWithdrawal(rows[..|rows| - 1], WithdrawalId(rows[|rows| - 1].id))
  {
    var n := |rows| - 1;
    assert forall k :: 0 <= k < n ==> rows[..n][k] == rows[k];
    if !ListedWithdrawal(rows[..n], WithdrawalId(rows[n].id)) {
      forall k | 0 <= k < n ensures rows[k].id != rows[n].id {
        assert WithdrawalId(rows[..n][k].id) == WithdrawalId(rows[k].id);
      }
    }
  }

  predicate NamedWithdrawals(rows: seq<Withdrawal>) {
    forall k :: 0 <= k < |rows| ==> 1 <= |rows[k].id| <= 160
  }

  /** What the withdrawal loop has noted, beside what it found. */
  ghost predicate WithdrawalsNoted(t: Tally, rows: seq<Withdrawal>, bootstrap: bool, after: Tally) {
    && WithdrawalsListed(t.records, rows, after.records)
    && (forall id :: id in after.seen <==> id in t.seen || ListedWithdrawal(rows, id))
    && after.withdrawals == t.withdrawals + (if bootstrap then 0 else |News(t.records, rows)|)
  }

  lemma ListedOneMore(known: Records, rows: seq<Withdrawal>, before: Records, after: Records)
    requires rows != [] && WithdrawalsListed(known, rows[..|rows| - 1], before)
    requires !ListedWithdrawal(rows[..|rows| - 1], WithdrawalId(rows[|rows| - 1].id))
    requires after == before[WithdrawalId(rows[|rows| - 1].id) := WithdrawalRecord(rows[|rows| - 1].payload)]
    ensures WithdrawalsListed(known, rows, after)
  {
    var n, id := |rows| - 1, WithdrawalId(rows[|rows| - 1].id);
    forall k | 0 <= k < n ensures rows[k] == rows[..n][k] && WithdrawalId(rows[k].id) != id {
      assert WithdrawalId(rows[..n][k].id) == WithdrawalId(rows[k].id);
    }
    forall x ensures ListedWithdrawal(rows, x) <==> ListedWithdrawal(rows[..n], x) || x == id {
      ListedWithdrawalOne(rows, x);
    }
    hide ListedWithdrawal;
  }

  /** Whether a withdrawal is news is not changed by those listed before it. */
  lemma NewsUntouched(known: Records, rows: seq<Withdrawal>, before: Records, w: Withdrawal)
    requires WithdrawalsListed(known, rows, before) && !ListedWithdrawal(rows, WithdrawalId(w.id))
    ensures IsNews(before, w) <==> IsNews(known, w)
  {
    hide ListedWithdrawal;
  }

  lemma NextWithdrawal(t: Tally, rows: seq<Withdrawal>, bootstrap: bool, before: Tally)
    requires rows != [] && WithdrawalsNoted(t, rows[..|rows| - 1], bootstrap, before)
    requires WithdrawalId(rows[|rows| - 1].id) !in t.seen
    ensures var w := rows[|rows| - 1];
            var r := NoteWithdrawal(before, w, bootstrap);
            && (r.Ok? <==> 1 <= |w.id| <= 160 && !ListedWithdrawal(rows[..|rows| - 1], WithdrawalId(w.id)))
            && (r.Ok? ==> WithdrawalsNoted(t, rows, bootstrap, r.value))
  {
    hide ListedWithdrawal;
    hide WithdrawalsListed;
    hide News;
    hide IsNews;
    var n, w := |rows| - 1, rows[|rows| - 1];
    var id, r := WithdrawalId(w.id), NoteWithdrawal(before, w, bootstrap);
    assert id in before.seen <==> ListedWithdrawal(rows[..n], id);
    NotedUnlessSeen(before, w, bootstrap);
    hide NoteWithdrawal;
    if r.Ok? {
      NewsOne(t.records, rows);
      NotedAsListed(before, w, bootstrap);
      NewsUntouched(t.records, rows[..n], before.records, w);
      ListedOneMore(t.records, rows, before.records, r.value.records);
      forall x ensures ListedWithdrawal(rows, x) <==> ListedWithdrawal(rows[..n], x) || x == id {
        ListedWithdrawalOne(rows, x);
      }
    }
  }

  lemma NotedUnlessSeen(t: Tally, w: Withdrawal, bootstrap: bool)
    ensures NoteWithdrawal(t, w, bootstrap).Ok? <==> 1 <= |w.id| <= 160 && WithdrawalId(w.id) !in t.seen
  {
  }

  lemma NotedAsListed(t: Tally, w: Withdrawal, bootstrap: bool)
    requires NoteWithdrawal(t, w, bootstrap).Ok?
    ensures var after := NoteWithdrawal(t, w, bootstrap).value;
            && after.records == t.records[WithdrawalId(w.id) := WithdrawalRecord(w.payload)]
            && after.seen == t.seen + {WithdrawalId(w.id)}
            && after.withdrawals == t.withdrawals + (if !bootstrap && IsNews(t.records, w) then 1 else 0)
  {
    if WithdrawalId(w.id) in t.records {
      assert t.records == t.records[WithdrawalId(w.id) := t.records[WithdrawalId(w.id)]];
    }
  }

  /** The withdrawals are accepted exactly when each has an id of its own. */
  lemma {:induction false} WithdrawalsAccepted(t: Tally, rows: seq<Withdrawal>, bootstrap: bool)
    requires forall id: string :: WithdrawalId(id) !in t.seen
    ensures var r := NoteWithdrawals(t, rows, bootstrap);
            && (r.Ok? <==> NamedWithdrawals(rows) && DistinctWithdrawals(rows))
            && (r.Ok? ==> WithdrawalsNoted(t, rows, bootstrap, r.value))
  {
    hide DistinctWithdrawals;
    hide NamedWithdrawals;
    hide WithdrawalsNoted;
    hide NoteWithdrawal;
    hide ListedWithdrawal;
    if rows == [] {
      NoWithdrawals(t, bootstrap);
    } else {
      var n := |rows| - 1;
      WithdrawalsAccepted(t, rows[..n], bootstrap);
      DistinctWithdrawalOne(rows);
      NamedOne(rows);
      var r := NoteWithdrawals(t, rows[..n], bootstrap);
      if r.Ok? {
        NextWithdrawal(t, rows, bootstrap, r.value);
      }
    }
  }

  lemma NoWithdrawals(t: Tally, bootstrap: bool)
    ensures NamedWithdrawals([]) && DistinctWithdrawals([]) && WithdrawalsNoted(t, [], bootstrap, t)
  {
    assert News(t.records, []) == {};
  }

  lemma NamedOne(rows: seq<Withdrawal>)
    requires rows != []
    ensures NamedWithdrawals(rows) <==>
            NamedWithdrawals(rows[..|rows| - 1]) && 1 <= |rows[|rows| - 1].id| <= 160
  {
    var n := |rows| - 1;
    assert forall k :: 0 <= k < n ==> rows[..n][k] == rows[k];
  }

  // ---- The whole poll -------------------------------------------------------------------------------

  function Known(cursor: Option<Cursor>): Records {
    if cursor.Some? then cursor.value.records else map[]
  }

  /** The cursor is from no later than now and within capacity, and neither listing fills its page. */
  predicate MayPoll(cursor: Option<Cursor>, i: Input) {
    && (cursor.Some? ==> cursor.value.observedAt <= i.now && |cursor.value.records| <= 256)
    && |i.deposits| < 1000 && |i.withdrawals| < 1000
  }

  /**
  What a record becomes: the listed deposits and withdrawals as they are listed; of the others, pending
  deposits, and completed ones inserted in the last seven days, as they were recorded; nothing else.
  */
  ghost predicate RecordsAfter(known: Records, i: Input, next: Records) {
    && (forall k :: 0 <= k < |i.deposits| ==>
          var d := i.deposits[k];
          DepositId(d.core.id) in next
          && next[DepositId(d.core.id)] == DepositRecord(d.core, if d.status == 1 then Some(d.completion) else None))
    && (forall k :: 0 <= k < |i.withdrawals| ==>
          var w := i.withdrawals[k];
          WithdrawalId(w.id) in next && next[WithdrawalId(w.id)] == WithdrawalRecord(w.payload))
    && (forall id :: !Listed(i.deposits, id) && !ListedWithdrawal(i.withdrawals, id) ==>
          (id in next <==>
             && id in known && known[id].DepositRecord?
             && (known[id].completed == None || known[id].core.insertTime + 604_800_000 >= i.now))
          && (id in next ==> next[id] == known[id]))
  }

  lemma PrunedRecords(known: Records, i: Input, noted: Tally, t: Tally)
    requires NotedSoFar(known, i.deposits, noted) && AllFit(known, i.deposits, i.now - LOOKBACK, i.now)
    requires WithdrawalsListed(noted.records, i.withdrawals, t.records)
    requires forall id :: id in t.seen <==> id in noted.seen || ListedWithdrawal(i.withdrawals, id)
    ensures RecordsAfter(known, i, Prune(t.records, t.seen, i.now - LOOKBACK))
  {
    var next := Prune(t.records, t.seen, i.now - LOOKBACK);
    forall k | 0 <= k < |i.deposits|
      ensures var d := i.deposits[k];
              DepositId(d.core.id) in next
              && next[DepositId(d.core.id)] == DepositRecord(d.core, if d.status == 1 then Some(d.completion) else None)
    {
      assert Fits(known, i.deposits[k], i.now - LOOKBACK, i.now);
      assert !ListedWithdrawal(i.withdrawals, DepositId(i.deposits[k].core.id));
    }
    forall k | 0 <= k < |i.withdrawals|
      ensures var w := i.withdrawals[k];
              WithdrawalId(w.id) in next && next[WithdrawalId(w.id)] == WithdrawalRecord(w.payload)
    {
      assert ListedWithdrawal(i.withdrawals, WithdrawalId(i.withdrawals[k].id));
    }
    hide Listed;
    hide ListedWithdrawal;
    hide Fits;
  }

  /** The number of withdrawals that are news to the cursor; a first poll has nothing to compare with. */
  function NewsCount(cursor: Option<Cursor>, rows: seq<Withdrawal>): nat {
    if cursor.None? then 0 else |News(cursor.value.records, rows)|
  }

  lemma RecordsAfterIsUnique(known: Records, i: Input, a: Records, b: Records)
    requires RecordsAfter(known, i, a) && RecordsAfter(known, i, b)
    ensures a == b
  {
    forall id ensures (id in a <==> id in b) && (id in a ==> a[id] == b[id]) {
      if Listed(i.deposits, id) {
        var k :| 0 <= k < |i.deposits| && DepositId(i.deposits[k].core.id) == id;
      } else if ListedWithdrawal(i.withdrawals, id) {
        var k :| 0 <= k < |i.withdrawals| && WithdrawalId(i.withdrawals[k].id) == id;
      }
    }
  }

  lemma {:induction false} DepositsKeepWithdrawals(t: Tally, rows: seq<Deposit>, bootstrap: bool, start: int, now: int)
    requires NoteDeposits(t, rows, bootstrap, start, now).Ok?
    ensures NoteDeposits(t, rows, bootstrap, start, now).value.withdrawals == t.withdrawals
  {
    hide ValidRow;
    hide ValidCompletion;
    hide Add;
    hide Eligible;
    hide FinalIn;
    if rows != [] {
      DepositsKeepWithdrawals(t, rows[..|rows| - 1], bootstrap, start, now);
    }
  }

  /** The deposits noted before leave the withdrawals as the cursor had them. */
  lemma NewsAlike(known: Records, deposits: seq<Deposit>, noted: Tally, rows: seq<Withdrawal>)
    requires NotedSoFar(known, deposits, noted)
    ensures News(noted.records, rows) == News(known, rows)
    ensures forall id: string :: WithdrawalId(id) !in noted.seen
  {
    assert forall id: string :: !Listed(deposits, WithdrawalId(id));
  }

  /** The withdrawals and the pruning, after deposits that were accepted. */
  lemma RestOfPoll(cursor: Option<Cursor>, i: Input, noted: Tally)
    requires NotedSoFar(Known(cursor), i.deposits, noted) && noted.withdrawals == 0
    requires AllFit(Known(cursor), i.deposits, i.now - LOOKBACK, i.now)
    ensures var r := NoteWithdrawals(noted, i.withdrawals, cursor.None?);
            && (r.Ok? <==> NamedWithdrawals(i.withdrawals) && DistinctWithdrawals(i.withdrawals))
            && (r.Ok? ==>
                  && RecordsAfter(Known(cursor), i, Prune(r.value.records, r.value.seen, i.now - LOOKBACK))
                  && r.value.withdrawals == NewsCount(cursor, i.withdrawals))
  {
    var known, bootstrap := Known(cursor), cursor.None?;
    NewsAlike(known, i.deposits, noted, i.withdrawals);
    WithdrawalsAccepted(noted, i.withdrawals, bootstrap);
    var r := NoteWithdrawals(noted, i.withdrawals, bootstrap);
    hide NoteWithdrawals;
    if r.Ok? {
      PrunedRecords(known, i, noted, r.value);
    }
    hide RecordsAfter;
    hide Prune;
    hide NotedSoFar;
    hide AllFit;
    hide WithdrawalsListed;
    hide News;
  }

  lemma NothingReported(rows: seq<Deposit>)
    ensures Principal(Reported(None, rows)) == Ok(ZERO)
  {
    assert Amounts([]) == [];
  }

  /** What is to be remembered fits in a cursor. */
  ghost predicate FitsCursor(known: Records, i: Input) {
    exists next :: RecordsAfter(known, i, next) && |next| <= 256
  }

  lemma FitsIfAny(known: Records, i: Input, next: Records)
    requires RecordsAfter(known, i, next)
    ensures FitsCursor(known, i) <==> |next| <= 256
  {
    if FitsCursor(known, i) {
      var other :| RecordsAfter(known, i, other) && |other| <= 256;
      RecordsAfterIsUnique(known, i, next, other);
    }
    hide RecordsAfter;
  }

  /**
  A poll is accepted exactly when it may be made, every deposit fits the cursor, no id is listed twice, the
  principal does not overflow, and what is to be remembered fits in 256 records. Its cursor then holds exactly
  that, and it counts the withdrawals that are new or changed.
  */
  lemma PollIsAcceptedIff(cursor: Option<Cursor>, i: Input)
    ensures var r := Poll(i.now, cursor, i.deposits, i.withdrawals);
            && (r.Ok? <==>
                  && MayPoll(cursor, i) && AllFit(Known(cursor), i.deposits, i.now - 604_800_000, i.now)
                  && DistinctRows(i.deposits) && NamedWithdrawals(i.withdrawals) && DistinctWithdrawals(i.withdrawals)
                  && Principal(Reported(cursor, i.deposits)).Ok? && FitsCursor(Known(cursor), i))
            && (r.Ok? ==>
                  && r.value.cursor.observedAt == i.now && RecordsAfter(Known(cursor), i, r.value.cursor.records)
                  && r.value.withdrawals == NewsCount(cursor, i.withdrawals)
                  && (r.value.bootstrap <==> cursor.None?))
  {
    hide NoteDeposits;
    hide NoteWithdrawals;
    hide AllFit;
    hide DistinctRows;
    hide NamedWithdrawals;
    hide DistinctWithdrawals;
    hide Principal;
    hide EligibleOf;
    hide Fresh;
    hide RecordsAfter;
    hide FitsCursor;
    hide NotedSoFar;
    hide Reports;
    hide Prune;
    hide News;
    var known, bootstrap := Known(cursor), cursor.None?;
    DepositsAccepted(known, i.deposits, bootstrap, i.now - LOOKBACK, i.now);
    NothingReported(i.deposits);
    var r := NoteDeposits(Opened(cursor), i.deposits, bootstrap, i.now - LOOKBACK, i.now);
    if r.Ok? {
      DepositsKeepWithdrawals(Opened(cursor), i.deposits, bootstrap, i.now - LOOKBACK, i.now);
      RestOfPoll(cursor, i, r.value);
      var t := NoteWithdrawals(r.value, i.withdrawals, bootstrap);
      if t.Ok? {
        FitsIfAny(known, i, Prune(t.value.records, t.value.seen, i.now - LOOKBACK));
      }
    }
  }

  // ---- What is reported of the deposits ---------------------------------------------------------------

  /** The rows that are listed as completed and that the cursor does not know as completed. */
  function Newly(known: Records, rows: seq<Deposit>): set<int> {
    set k | 0 <= k < |rows| && rows[k].status == 1
            && !(DepositId(rows[k].core.id) in known && known[DepositId(rows[k].core.id)].DepositRecord?
                 && known[DepositId(rows[k].core.id)].completed != None)
  }

  /** Those of them that are USDT credited to the Spot wallet from outside. */
  function Supported(known: Records, rows: seq<Deposit>): set<int> {
    set k | k in Newly(known, rows)
            && rows[k].core.coin == "USDT" && rows[k].core.wallet == 0 && rows[k].core.transfer == 0
  }

  lemma NewlyOne(known: Records, rows: seq<Deposit>)
    requires rows != []
    ensures var n, d := |rows| - 1, rows[|rows| - 1];
            var first := d.status == 1 && !FinalIn(known, d.core.id);
            && Newly(known, rows) == Newly(known, rows[..n]) + (if first then {n} else {})
            && n !in Newly(known, rows[..n])
            && Supported(known, rows) == Supported(known, rows[..n]) + (if first && Eligible(d.core) then {n} else {})
            && n !in Supported(known, rows[..n])
  {
  }

  lemma {:induction false} FreshAreNewly(known: Records, rows: seq<Deposit>)
    ensures |Fresh(known, rows)| == |Newly(known, rows)|
    ensures |EligibleOf(Fresh(known, rows))| == |Supported(known, rows)|
  {
    if rows == [] {
      assert Newly(known, rows) == {} && Supported(known, rows) == {};
    } else {
      FreshAreNewly(known, rows[..|rows| - 1]);
      FreshOne(known, rows);
      NewlyOne(known, rows);
      hide EligibleOf;
      hide FinalIn;
      hide Eligible;
      hide Newly;
      hide Supported;
    }
  }

  /** Each completion time reported is that of a row reported, in the same order. */
  predicate TimesOf(rows: seq<Deposit>, reported: seq<Core>, times: seq<int>) {
    && |times| == |reported|
    && forall j :: 0 <= j < |times| ==>
         exists k :: 0 <= k < |rows| && rows[k].core == reported[j] && rows[k].completion.completeTime == times[j]
  }

  lemma TimesOneMore(rows: seq<Deposit>, reported: seq<Core>, times: seq<int>, counted: bool)
    requires rows != [] && TimesOf(rows[..|rows| - 1], reported, times)
    ensures var d := rows[|rows| - 1];
            TimesOf(rows, reported + (if counted then [d.core] else []),
                    times + (if counted then [d.completion.completeTime] else []))
  {
    var n := |rows| - 1;
    forall j | 0 <= j < |times|
      ensures exists k ::
        0 <= k < |rows| && rows[k].core == reported[j] && rows[k].completion.completeTime == times[j]
    {
      var k :| 0 <= k < n && rows[..n][k].core == reported[j] && rows[..n][k].completion.completeTime == times[j];
      assert rows[k].core == reported[j];
    }
    assert rows[n].core == rows[n].core;
  }

  lemma {:induction false} TimesAreListed(known: Records, rows: seq<Deposit>, start: int, now: int)
    requires NoteDeposits(Tally(known, {}, ZERO, [], 0, 0), rows, false, start, now).Ok?
    ensures TimesOf(rows, EligibleOf(Fresh(known, rows)),
                    NoteDeposits(Tally(known, {}, ZERO, [], 0, 0), rows, false, start, now).value.completedAt)
  {
    if rows != [] {
      hide NoteDeposit;
      hide EligibleOf;
      hide Fresh;
      hide TimesOf;
      hide FinalIn;
      hide Eligible;
      var n, first := |rows| - 1, Tally(known, {}, ZERO, [], 0, 0);
      TimesAreListed(known, rows[..n], start, now);
      DepositsAccepted(known, rows[..n], false, start, now);
      var before := NoteDeposits(first, rows[..n], false, start, now).value;
      var t := NoteDeposits(first, rows, false, start, now).value;
      RowReported(before, rows[n], false, start, now, t);
      SameFinal(known, rows, before, start, now, t);
      FreshOne(known, rows);
      var counted := rows[n].status == 1 && !FinalIn(known, rows[n].core.id) && Eligible(rows[n].core);
      TimesOneMore(rows, EligibleOf(Fresh(known, rows[..n])), before.completedAt, counted);
    }
  }

  lemma SameFinal(known: Records, rows: seq<Deposit>, before: Tally, start: int, now: int, t: Tally)
    requires rows != [] && NotedSoFar(known, rows[..|rows| - 1], before)
    requires NoteDeposit(before, rows[|rows| - 1], false, start, now) == Ok(t)
    ensures FinalIn(known, rows[|rows| - 1].core.id) <==> FinalIn(before.records, rows[|rows| - 1].core.id)
  {
    var d := rows[|rows| - 1];
    if DepositId(d.core.id) in before.seen {
      SeenIsRefused(before, d, false, start, now);
    } else {
      FitsAlike(known, before.records, d, start, now);
    }
    hide NoteDeposit;
    hide Listed;
  }

  /**
  What an accepted poll reports: the sum, the times and the number of the newly completed deposits, told
  apart by coin, wallet and kind of transfer; at bootstrap nothing.
  */
  lemma PollReports(cursor: Option<Cursor>, i: Input)
    requires Poll(i.now, cursor, i.deposits, i.withdrawals).Ok?
    ensures var report, known := Poll(i.now, cursor, i.deposits, i.withdrawals).value, Known(cursor);
            && (cursor.None? ==> report.principal == ZERO && report.completedAt == [] && report.unsupported == 0)
            && (cursor.Some? ==>
                  && Principal(Reported(cursor, i.deposits)) == Ok(report.principal)
                  && TimesOf(i.deposits, Reported(cursor, i.deposits), report.completedAt)
                  && |report.completedAt| == |Supported(known, i.deposits)|
                  && report.unsupported == |Newly(known, i.deposits)| - |Supported(known, i.deposits)|)
  {
    AcceptedPoll(cursor, i);
    var known, start := Known(cursor), i.now - LOOKBACK;
    FreshAreNewly(known, i.deposits);
    NothingReported(i.deposits);
    DepositsAccepted(known, i.deposits, cursor.None?, start, i.now);
    if cursor.Some? {
      TimesAreListed(known, i.deposits, start, i.now);
    }
    var noted := NoteDeposits(Opened(cursor), i.deposits, cursor.None?, start, i.now).value;
    WithdrawalsKeepDeposits(noted, i.withdrawals, cursor.None?);
    hide NoteDeposits;
    hide NoteWithdrawals;
    hide EligibleOf;
    hide Fresh;
    hide Principal;
    hide TimesOf;
    hide FinalIn;
    hide Prune;
    hide Newly;
    hide Supported;
  }
}

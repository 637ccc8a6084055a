/**
application/interval_receipt_reader_candidate.py: a bounded batch of receipts is accepted exactly when
its distinct receipts tile the cutover interval, whatever their order and however often each is repeated.
*/
module IntervalReader {
  import opened Outcomes
  import opened Sequences
  import opened IntervalReceipts

  /** A supplied receipt document: its path, the two digests it carries, and its material. */
  datatype Entry = Entry(ledgerPath: string, pathId: IntervalId, claimedId: IntervalId, claimedPayload: Interval,
      receipt: Receipt)

  /** The document the writer creates for a receipt. */
  function EntryOf(r: Receipt): Entry {
    Entry(r.path, IdOf(r.interval), IdOf(r.interval), r.interval, r)
  }

  datatype Request = Request(ledgerPath: string, scope: string, start: Instant, end: Instant,
                             maxReceipts: int, maxBytes: int, size: Entry -> nat)

  /** `_read_receipt` accepts the entry. */
  predicate Readable(q: Request, e: Entry) {
    && ValidInterval(e.receipt.interval)
    && e.claimedId == IdOf(e.receipt.interval) && e.claimedPayload == e.receipt.interval
    && e.receipt.path == q.ledgerPath && e.receipt.interval.scope == q.scope
    && e.ledgerPath == q.ledgerPath && e.pathId == IdOf(e.receipt.interval)
  }

  function Start(r: Receipt): Instant {
    r.interval.start
  }

  function End(r: Receipt): Instant {
    r.interval.end
  }

  // ---- The reader as a function ---------------------------------------------------------------

  datatype Batch = Batch(kept: seq<Receipt>, bytes: nat, duplicates: nat)

  predicate EndsElsewhere(kept: seq<Receipt>, r: Receipt) {
    exists k :: 0 <= k < |kept| && End(kept[k]) == End(r) && Start(kept[k]) != Start(r)
  }

  function AddEntry(q: Request, b: Batch, e: Entry): Result<Batch> {
    if !Readable(q, e) then Err("interval_reader_receipt_invalid")
    else if b.bytes + q.size(e) > q.maxBytes then Err("interval_reader_bytes_limit")
    else if Start(e.receipt) < q.start || End(e.receipt) > q.end then Err("interval_reader_coverage_outside_cutover")
    else
      var bytes := b.bytes + q.size(e);
      match FindReceipt(b.kept, IdOf(e.receipt.interval))
      case Some(r) =>
        if r != e.receipt then Err("interval_reader_existing_conflict") else Ok(Batch(b.kept, bytes, b.duplicates + 1))
      case None =>
        if EndsElsewhere(b.kept, e.receipt) then Err("interval_reader_existing_conflict")
        else Ok(Batch(b.kept + [e.receipt], bytes, b.duplicates))
  }

  function Collect(q: Request, entries: seq<Entry>): Result<Batch> {
    if entries == [] then Ok(Batch([], 0, 0))
    else
      match Collect(q, entries[..|entries| - 1])
      case Err(code) => Err(code)
      case Ok(b) => AddEntry(q, b, entries[|entries| - 1])
  }

  predicate Earlier(a: Receipt, b: Receipt) {
    Start(a) < Start(b) || (Start(a) == Start(b) && End(a) <= End(b))
  }

  function Insert(sorted: seq<Receipt>, r: Receipt): seq<Receipt> {
    if sorted == [] || Earlier(r, sorted[0]) then [r] + sorted
    else [sorted[0]] + Insert(sorted[1..], r)
  }

  /** `sorted(..., key=(start, end))` */
  function SortByTime(receipts: seq<Receipt>): seq<Receipt> {
    if receipts == [] then []
    else Insert(SortByTime(receipts[..|receipts| - 1]), receipts[|receipts| - 1])
  }

  /** The time-order scan from `cursor`; `last` is the version before. */
  function Scan(ordered: seq<Receipt>, cursor: Instant, end: Instant, last: Option<nat>): Result<bool> {
    if ordered == [] then
      if cursor != end then Err("interval_reader_coverage_gap") else Ok(true)
    else
      var r := ordered[0];
      if Start(r) < cursor then Err("interval_reader_coverage_overlap")
      else if Start(r) != cursor then Err("interval_reader_coverage_gap")
      else if last.Some? && r.version <= last.value then Err("interval_reader_source_order_invalid")
      else Scan(ordered[1..], End(r), end, Some(r.version))
  }

  datatype Preview = Preview(ordered: seq<Receipt>, inputCount: nat, duplicateCount: nat, encodedBytes: nat)

  function Prepared(q: Request, entries: seq<Entry>): Result<Preview> {
    if !(1 <= q.maxReceipts <= 1000 && 1 <= q.maxBytes <= 1_048_576) then Err("interval_reader_limits_invalid")
    else if |entries| > q.maxReceipts then Err("interval_reader_count_limit")
    else if q.start >= q.end then Err("interval_reader_cutover_invalid")
    else
      match Collect(q, entries)
      case Err(code) => Err(code)
      case Ok(b) =>
        var ordered := SortByTime(b.kept);
        var scan := Scan(ordered, q.start, q.end, None);
        if scan.Err? then Err(scan.code) else Ok(Preview(ordered, |entries|, b.duplicates, b.bytes))
  }

  // ---- The reader as code ---------------------------------------------------------------------

  ghost predicate Indexed(kept: seq<Receipt>, byId: map<IntervalId, Receipt>, byEnd: map<Instant, Instant>) {
    && (forall id :: id in byId <==> FindReceipt(kept, id).Some?)
    && (forall id :: id in byId ==> Some(byId[id]) == FindReceipt(kept, id))
    && (forall k :: 0 <= k < |kept| ==> End(kept[k]) in byEnd && byEnd[End(kept[k])] == Start(kept[k]))
    && (forall t :: t in byEnd ==> exists k :: 0 <= k < |kept| && End(kept[k]) == t)
  }

  lemma {:induction false} FindAppended(kept: seq<Receipt>, r: Receipt, id: IntervalId)
    ensures FindReceipt(kept + [r], id) ==
            if FindReceipt(kept, id).Some? then FindReceipt(kept, id)
            else if IdOf(r.interval) == id then Some(r) else None
  {
    if kept != [] {
      FindAppended(kept[1..], r, id);
      assert (kept + [r])[1..] == kept[1..] + [r];
    }
  }

  lemma IndexGrows(kept: seq<Receipt>, byId: map<IntervalId, Receipt>, byEnd: map<Instant, Instant>, r: Receipt)
    requires Indexed(kept, byId, byEnd) && IdOf(r.interval) !in byId
    requires End(r) in byEnd ==> byEnd[End(r)] == Start(r)
    ensures Indexed(kept + [r], byId[IdOf(r.interval) := r], byEnd[End(r) := Start(r)])
  {
    forall id ensures FindReceipt(kept + [r], id) ==
                      if FindReceipt(kept, id).Some? then FindReceipt(kept, id)
                      else if IdOf(r.interval) == id then Some(r) else None
    {
      FindAppended(kept, r, id);
    }
    var longer, ends := kept + [r], byEnd[End(r) := Start(r)];
    forall t | t in ends ensures exists k :: 0 <= k < |longer| && End(longer[k]) == t {
      if t == End(r) {
        assert End(longer[|kept|]) == t;
      } else {
        var k :| 0 <= k < |kept| && End(kept[k]) == t;
        assert longer[k] == kept[k];
      }
    }
  }

  /** The first loop of `_prepare`: `byId` keeps first occurrences, `byEnd` the start of each end. */
  method CollectEntries(q: Request, entries: seq<Entry>) returns (r: Result<Batch>)
    ensures r == Collect(q, entries)
  {
    hide Readable;
    hide Indexed;
    hide EndsElsewhere;
    hide FindReceipt;
    EmptyIndex();
    var byId: map<IntervalId, Receipt>, byEnd: map<Instant, Instant> := map[], map[];
    var kept: seq<Receipt> := [];
    var totalBytes: nat, duplicates: nat := 0, 0;
    for i := 0 to |entries|
      invariant Collect(q, entries[..i]) == Ok(Batch(kept, totalBytes, duplicates))
      invariant Indexed(kept, byId, byEnd)
    {
      var e := entries[i];
      assert entries[..i + 1][..i] == entries[..i];
      CollectFailsEarly(q, entries, i + 1);
      var id, receipt := IdOf(e.receipt.interval), e.receipt;
      if !Readable(q, e) {
        return Err("interval_reader_receipt_invalid");
      }
      if totalBytes + q.size(e) > q.maxBytes {
        return Err("interval_reader_bytes_limit");
      }
      totalBytes := totalBytes + q.size(e);
      if Start(receipt) < q.start || End(receipt) > q.end {
        return Err("interval_reader_coverage_outside_cutover");
      }
      IndexTells(kept, byId, byEnd, receipt);
      if id in byId {
        if byId[id] != receipt {
          return Err("interval_reader_existing_conflict");
        }
        duplicates := duplicates + 1;
      } else {
        if End(receipt) in byEnd && byEnd[End(receipt)] != Start(receipt) {
          return Err("interval_reader_existing_conflict");
        }
        IndexGrows(kept, byId, byEnd, receipt);
        byEnd, byId, kept := byEnd[End(receipt) := Start(receipt)], byId[id := receipt], kept + [receipt];
      }
    }
    assert entries[..|entries|] == entries;
    r := Ok(Batch(kept, totalBytes, duplicates));
  }

  lemma EmptyIndex()
    ensures Indexed([], map[], map[])
  {
  }

  /** The two maps answer the questions about the kept receipts. */
  lemma IndexTells(kept: seq<Receipt>, byId: map<IntervalId, Receipt>, byEnd: map<Instant, Instant>, r: Receipt)
    requires Indexed(kept, byId, byEnd)
    ensures FindReceipt(kept, IdOf(r.interval))
            == if IdOf(r.interval) in byId then Some(byId[IdOf(r.interval)]) else None
    ensures EndsElsewhere(kept, r) <==> End(r) in byEnd && byEnd[End(r)] != Start(r)
  {
    if End(r) in byEnd && byEnd[End(r)] != Start(r) {
      var k :| 0 <= k < |kept| && End(kept[k]) == End(r);
      assert byEnd[End(kept[k])] == Start(kept[k]);
    }
  }

  /** The second loop of `_prepare` */
  method ScanOrdered(q: Request, ordered: seq<Receipt>) returns (r: Result<bool>)
    ensures r == Scan(ordered, q.start, q.end, None)
  {
    var cursor, last: Option<nat> := q.start, None;
    for i := 0 to |ordered|
      invariant Scan(ordered, q.start, q.end, None) == Scan(ordered[i..], cursor, q.end, last)
    {
      var next := ordered[i];
      assert ordered[i..][1..] == ordered[i + 1..];
      if Start(next) < cursor {
        return Err("interval_reader_coverage_overlap");
      }
      if Start(next) != cursor {
        return Err("interval_reader_coverage_gap");
      }
      if last.Some? && next.version <= last.value {
        return Err("interval_reader_source_order_invalid");
      }
      cursor, last := End(next), Some(next.version);
    }
    if cursor != q.end {
      return Err("interval_reader_coverage_gap");
    }
    r := Ok(true);
  }

  /** `_prepare` */
  method Prepare(q: Request, entries: seq<Entry>) returns (r: Result<Preview>)
    ensures r == Prepared(q, entries)
  {
    if !(1 <= q.maxReceipts <= 1000 && 1 <= q.maxBytes <= 1_048_576) {
      return Err("interval_reader_limits_invalid");
    }
    if |entries| > q.maxReceipts {
      return Err("interval_reader_count_limit");
    }
    if q.start >= q.end {
      return Err("interval_reader_cutover_invalid");
    }
    var batch := CollectEntries(q, entries);
    if batch.Err? {
      return Err(batch.code);
    }
    var ordered := SortByTime(batch.value.kept);
    var scan := ScanOrdered(q, ordered);
    if scan.Err? {
      return Err(scan.code);
    }
    r := Ok(Preview(ordered, |entries|, batch.value.duplicates, batch.value.bytes));
  }

  lemma {:induction false} CollectFailsEarly(q: Request, entries: seq<Entry>, n: nat)
    requires n <= |entries|
    ensures Collect(q, entries[..n]).Err? ==> Collect(q, entries) == Collect(q, entries[..n])
    decreases |entries|
  {
    if n < |entries| {
      CollectFailsEarly(q, entries[..|entries| - 1], n);
      assert entries[..|entries| - 1][..n] == entries[..n];
    } else {
      assert entries[..n] == entries;
    }
  }

  // ---- What acceptance means --------------------------------------------------------------------

  function Receipts(entries: seq<Entry>): set<Receipt> {
    set i | 0 <= i < |entries| :: entries[i].receipt
  }

  function TotalSize(q: Request, entries: seq<Entry>): nat {
    if entries == [] then 0 else TotalSize(q, entries[..|entries| - 1]) + q.size(entries[|entries| - 1])
  }

  predicate Inside(q: Request, r: Receipt) {
    q.start <= Start(r) && End(r) <= q.end
  }

  predicate Apart(a: Receipt, b: Receipt) {
    End(a) <= Start(b) || End(b) <= Start(a)
  }

  ghost predicate Covered(rs: set<Receipt>, t: Instant) {
    exists r :: r in rs && Start(r) <= t < End(r)
  }

  /** The receipts cut [start, end) into intervals, in the order of their source versions. */
  ghost predicate Tiles(q: Request, rs: set<Receipt>) {
    && (forall r :: r in rs ==> Inside(q, r))
    && AllApart(rs)
    && (forall t :: q.start <= t < q.end ==> Covered(rs, t))
    && (forall a, b :: a in rs && b in rs && Start(a) < Start(b) ==> a.version < b.version)
  }

  predicate WithinLimits(q: Request, entries: seq<Entry>) {
    && 1 <= q.maxReceipts <= 1000 && 1 <= q.maxBytes <= 1_048_576
    && |entries| <= q.maxReceipts && TotalSize(q, entries) <= q.maxBytes
  }

  predicate AllReadable(q: Request, entries: seq<Entry>) {
    forall i :: 0 <= i < |entries| ==> Readable(q, entries[i])
  }

  ghost predicate Acceptable(q: Request, entries: seq<Entry>) {
    WithinLimits(q, entries) && q.start < q.end && AllReadable(q, entries) && Tiles(q, Receipts(entries))
  }

  // ---- Collecting -------------------------------------------------------------------------------

  function SetOf(s: seq<Receipt>): set<Receipt> {
    set r | r in s
  }

  predicate Distinct(s: seq<Receipt>) {
    forall i, j :: 0 <= i < j < |s| ==> s[i] != s[j]
  }

  lemma ReceiptsGrow(entries: seq<Entry>)
    requires entries != []
    ensures Receipts(entries) == Receipts(entries[..|entries| - 1]) + {entries[|entries| - 1].receipt}
  {
    var n := |entries| - 1;
    forall r | r in Receipts(entries) ensures r in Receipts(entries[..n]) + {entries[n].receipt} {
      var i :| 0 <= i < |entries| && entries[i].receipt == r;
      if i < n {
        assert entries[..n][i] == entries[i];
      }
    }
    forall r | r in Receipts(entries[..n]) ensures r in Receipts(entries) {
      var i :| 0 <= i < n && entries[..n][i].receipt == r;
      assert entries[i].receipt == r;
    }
  }

  lemma {:induction false} FoundIsKept(kept: seq<Receipt>, id: IntervalId)
    ensures FindReceipt(kept, id).Some? ==>
            FindReceipt(kept, id).value in kept && IdOf(FindReceipt(kept, id).value.interval) == id
    ensures FindReceipt(kept, id).None? ==> forall r :: r in kept ==> IdOf(r.interval) != id
  {
    if kept != [] {
      FoundIsKept(kept[1..], id);
    }
  }

  /** A collected batch holds every receipt once, and its bytes are those of all entries. */
  lemma {:induction false} CollectedFacts(q: Request, entries: seq<Entry>)
    requires Collect(q, entries).Ok?
    ensures AllReadable(q, entries) && (forall r :: r in Receipts(entries) ==> Inside(q, r))
    ensures var b := Collect(q, entries).value;
            && SetOf(b.kept) == Receipts(entries) && Distinct(b.kept)
            && b.bytes == TotalSize(q, entries) && (entries != [] ==> b.bytes <= q.maxBytes)
  {
    hide Readable;
    hide Inside;
    hide AddEntry;
    if entries != [] {
      var n := |entries| - 1;
      CollectedFacts(q, entries[..n]);
      ReceiptsGrow(entries);
      OneMoreKept(q, Collect(q, entries[..n]).value, entries[n]);
      assert forall i :: 0 <= i < n ==> entries[i] == entries[..n][i];
    }
  }

  /** One more entry: what it must be, and what the batch then holds. */
  lemma OneMoreKept(q: Request, b: Batch, e: Entry)
    requires AddEntry(q, b, e).Ok? && Distinct(b.kept)
    ensures Readable(q, e) && Inside(q, e.receipt)
    ensures var c := AddEntry(q, b, e).value;
            && SetOf(c.kept) == SetOf(b.kept) + {e.receipt} && Distinct(c.kept)
            && c.bytes == b.bytes + q.size(e) && c.bytes <= q.maxBytes
  {
    FoundIsKept(b.kept, IdOf(e.receipt.interval));
    assert SetOf(b.kept + [e.receipt]) == SetOf(b.kept) + {e.receipt};
  }

  predicate AllApart(rs: set<Receipt>) {
    forall a, b :: a in rs && b in rs && a != b ==> Apart(a, b)
  }

  /** Among disjoint proper intervals nothing conflicts with `r`. */
  lemma NoConflict(kept: seq<Receipt>, r: Receipt, rs: set<Receipt>)
    requires SetOf(kept) <= rs && r in rs && AllApart(rs) && forall x :: x in rs ==> Start(x) < End(x)
    ensures !EndsElsewhere(kept, r)
    ensures FindReceipt(kept, IdOf(r.interval)) in {None, Some(r)}
  {
    FoundIsKept(kept, IdOf(r.interval));
    if FindReceipt(kept, IdOf(r.interval)).Some? {
      var x := FindReceipt(kept, IdOf(r.interval)).value;
      assert x in SetOf(kept) && !Apart(x, r);
    }
    forall k | 0 <= k < |kept| ensures !(End(kept[k]) == End(r) && Start(kept[k]) != Start(r)) {
      assert kept[k] in SetOf(kept);
      assert kept[k] != r ==> Apart(kept[k], r);
    }
  }

  /** Disjoint receipts inside the cutover are collected without objection. */
  lemma {:induction false} DisjointAreCollected(q: Request, entries: seq<Entry>, rs: set<Receipt>)
    requires AllReadable(q, entries) && TotalSize(q, entries) <= q.maxBytes
    requires Receipts(entries) <= rs && AllApart(rs) && forall x :: x in rs ==> Start(x) < End(x) && Inside(q, x)
    ensures Collect(q, entries).Ok?
  {
    hide Readable;
    hide EndsElsewhere;
    if entries != [] {
      var n := |entries| - 1;
      ReceiptsGrow(entries);
      assert forall i :: 0 <= i < n ==> entries[..n][i] == entries[i];
      DisjointAreCollected(q, entries[..n], rs);
      CollectedFacts(q, entries[..n]);
      NoConflict(Collect(q, entries[..n]).value.kept, entries[n].receipt, rs);
    }
  }

  // ---- Sorting ----------------------------------------------------------------------------------

  predicate InOrder(s: seq<Receipt>) {
    forall i, j :: 0 <= i < j < |s| ==> Earlier(s[i], s[j])
  }

  lemma {:induction false} InsertMembers(sorted: seq<Receipt>, r: Receipt)
    ensures forall x :: x in Insert(sorted, r) <==> x == r || x in sorted
  {
    if !(sorted == [] || Earlier(r, sorted[0])) {
      InsertMembers(sorted[1..], r);
      assert sorted == [sorted[0]] + sorted[1..];
    }
  }

  lemma {:induction false} InsertInOrder(sorted: seq<Receipt>, r: Receipt)
    requires InOrder(sorted)
    ensures InOrder(Insert(sorted, r))
  {
    if !(sorted == [] || Earlier(r, sorted[0])) {
      var rest := sorted[1..];
      assert forall i :: 0 <= i < |rest| ==> rest[i] == sorted[i + 1];
      InsertInOrder(rest, r);
      InsertMembers(rest, r);
      FirstInOrder(sorted[0], Insert(rest, r));
    }
  }

  lemma FirstInOrder(first: Receipt, rest: seq<Receipt>)
    requires InOrder(rest) && forall x :: x in rest ==> Earlier(first, x)
    ensures InOrder([first] + rest)
  {
  }

  lemma FirstDistinct(first: Receipt, rest: seq<Receipt>)
    requires Distinct(rest) && first !in rest
    ensures Distinct([first] + rest)
  {
  }

  lemma {:induction false} InsertDistinct(sorted: seq<Receipt>, r: Receipt)
    requires Distinct(sorted) && r !in sorted
    ensures Distinct(Insert(sorted, r))
  {
    if !(sorted == [] || Earlier(r, sorted[0])) {
      var rest := sorted[1..];
      assert forall i :: 0 <= i < |rest| ==> rest[i] == sorted[i + 1];
      InsertDistinct(rest, r);
      InsertMembers(rest, r);
      FirstDistinct(sorted[0], Insert(rest, r));
    } else {
      FirstDistinct(r, sorted);
    }
  }

  lemma {:induction false} SortFacts(receipts: seq<Receipt>)
    requires Distinct(receipts)
    ensures var s := SortByTime(receipts); InOrder(s) && Distinct(s) && SetOf(s) == SetOf(receipts)
  {
    if receipts != [] {
      var n := |receipts| - 1;
      SortFacts(receipts[..n]);
      assert receipts == receipts[..n] + [receipts[n]];
      assert receipts[n] !in SetOf(receipts[..n]);
      assert SetOf(receipts) == SetOf(receipts[..n]) + {receipts[n]};
      InsertMembers(SortByTime(receipts[..n]), receipts[n]);
      InsertInOrder(SortByTime(receipts[..n]), receipts[n]);
      InsertDistinct(SortByTime(receipts[..n]), receipts[n]);
    }
  }

  // ---- Scanning ---------------------------------------------------------------------------------

  predicate Proper(s: seq<Receipt>) {
    forall i :: 0 <= i < |s| ==> Start(s[i]) < End(s[i])
  }

  /** A scanned sequence is a chain of intervals from `cursor` to `end` with growing versions. */
  lemma {:induction false} ScannedIsChain(s: seq<Receipt>, cursor: Instant, end: Instant, last: Option<nat>)
    requires Proper(s) && Scan(s, cursor, end, last).Ok?
    ensures cursor <= end && (forall i :: 0 <= i < |s| ==> cursor <= Start(s[i]) && End(s[i]) <= end)
    ensures last.Some? ==> forall i :: 0 <= i < |s| ==> last.value < s[i].version
    ensures forall i, j :: 0 <= i < j < |s| ==> End(s[i]) <= Start(s[j]) && s[i].version < s[j].version
    ensures forall t :: cursor <= t < end ==> Covered(SetOf(s), t)
  {
    if s != [] {
      var rest := s[1..];
      ScannedIsChain(rest, End(s[0]), end, Some(s[0].version));
      assert forall i :: 0 < i < |s| ==> s[i] == rest[i - 1];
      forall t | cursor <= t < end ensures Covered(SetOf(s), t) {
        if t < End(s[0]) {
          assert s[0] in SetOf(s);
        } else {
          assert Covered(SetOf(rest), t);
          var r :| r in SetOf(rest) && Start(r) <= t < End(r);
          assert r in SetOf(s);
        }
      }
    }
  }

  predicate IsChain(s: seq<Receipt>) {
    forall i, j :: 0 <= i < j < |s| ==> End(s[i]) <= Start(s[j]) && s[i].version < s[j].version
  }

  ghost predicate CoversRange(s: seq<Receipt>, cursor: Instant, end: Instant) {
    forall t :: cursor <= t < end ==> Covered(SetOf(s), t)
  }

  lemma CoveredAt(s: seq<Receipt>, cursor: Instant, end: Instant, t: Instant) returns (i: nat)
    requires CoversRange(s, cursor, end) && cursor <= t < end
    ensures i < |s| && Start(s[i]) <= t < End(s[i])
  {
    assert Covered(SetOf(s), t);
    var r :| r in SetOf(s) && Start(r) <= t < End(r);
    i :| 0 <= i < |s| && s[i] == r;
  }

  /** What lies behind the first interval is covered by the others. */
  lemma RestCovers(s: seq<Receipt>, cursor: Instant, end: Instant)
    requires s != [] && CoversRange(s, cursor, end) && cursor <= End(s[0])
    ensures CoversRange(s[1..], End(s[0]), end)
  {
    forall t | End(s[0]) <= t < end ensures Covered(SetOf(s[1..]), t) {
      var i := CoveredAt(s, cursor, end, t);
      assert s[1..][i - 1] == s[i];
    }
  }

  /** Disjoint intervals in time order with growing versions that cover the range pass the scan. */
  lemma {:induction false} ChainIsScanned(s: seq<Receipt>, cursor: Instant, end: Instant, last: Option<nat>)
    requires Proper(s) && cursor <= end && (forall i :: 0 <= i < |s| ==> cursor <= Start(s[i]) && End(s[i]) <= end)
    requires last.Some? ==> forall i :: 0 <= i < |s| ==> last.value < s[i].version
    requires IsChain(s) && CoversRange(s, cursor, end)
    ensures Scan(s, cursor, end, last).Ok?
  {
    hide CoversRange;
    if s == [] {
      if cursor < end {
        var i := CoveredAt(s, cursor, end, cursor);
        assert false;
      }
    } else {
      assert cursor <= Start(s[0]) < End(s[0]) <= end;
      var k := CoveredAt(s, cursor, end, cursor);
      assert End(s[0]) <= Start(s[k]) || k == 0;
      RestCovers(s, cursor, end);
      ChainIsScanned(s[1..], End(s[0]), end, Some(s[0].version));
    }
  }

  /** In time order, disjoint proper intervals follow each other. */
  lemma SortedApartIsChain(s: seq<Receipt>, i: nat, j: nat)
    requires i < j < |s| && Proper(s) && InOrder(s) && Distinct(s)
    requires AllApart(SetOf(s))
    ensures End(s[i]) <= Start(s[j])
  {
    assert s[i] in SetOf(s) && s[j] in SetOf(s);
    assert Apart(s[i], s[j]) && Earlier(s[i], s[j]);
  }

  // ---- Main results -----------------------------------------------------------------------------

  lemma ReadableIsProper(q: Request, entries: seq<Entry>, s: seq<Receipt>)
    requires AllReadable(q, entries) && SetOf(s) == Receipts(entries)
    ensures Proper(s) && forall r :: r in Receipts(entries) ==> Start(r) < End(r)
  {
    forall r | r in Receipts(entries) ensures Start(r) < End(r) {
      var i :| 0 <= i < |entries| && entries[i].receipt == r;
      assert Readable(q, entries[i]);
    }
    assert forall i :: 0 <= i < |s| ==> s[i] in SetOf(s);
  }

  lemma ScannedTiles(q: Request, s: seq<Receipt>)
    requires Proper(s) && Scan(s, q.start, q.end, None).Ok?
    ensures Tiles(q, SetOf(s))
  {
    ScannedIsChain(s, q.start, q.end, None);
    forall x, y | x in SetOf(s) && y in SetOf(s) && x != y
      ensures Apart(x, y) && (Start(x) < Start(y) ==> x.version < y.version)
    {
      var i :| 0 <= i < |s| && s[i] == x;
      var j :| 0 <= j < |s| && s[j] == y;
    }
  }

  lemma AcceptedTiles(q: Request, entries: seq<Entry>)
    requires Prepared(q, entries).Ok?
    ensures Acceptable(q, entries)
    ensures var s := Prepared(q, entries).value.ordered;
            SetOf(s) == Receipts(entries) && Proper(s) && Scan(s, q.start, q.end, None).Ok?
  {
    hide Tiles;
    hide Scan;
    hide Readable;
    CollectedFacts(q, entries);
    var b := Collect(q, entries).value;
    SortFacts(b.kept);
    var s := SortByTime(b.kept);
    ReadableIsProper(q, entries, s);
    ScannedTiles(q, s);
  }

  lemma TilesAreScanned(q: Request, s: seq<Receipt>)
    requires Proper(s) && InOrder(s) && Distinct(s) && Tiles(q, SetOf(s)) && q.start < q.end
    ensures Scan(s, q.start, q.end, None).Ok?
  {
    assert forall i :: 0 <= i < |s| ==> s[i] in SetOf(s);
    forall i, j | 0 <= i < j < |s| ensures End(s[i]) <= Start(s[j]) && s[i].version < s[j].version {
      SortedApartIsChain(s, i, j);
      assert s[i] in SetOf(s) && s[j] in SetOf(s);
    }
    ChainIsScanned(s, q.start, q.end, None);
  }

  lemma TilesAreAccepted(q: Request, entries: seq<Entry>)
    requires Acceptable(q, entries)
    ensures Prepared(q, entries).Ok?
  {
    var rs := Receipts(entries);
    forall r | r in rs ensures Start(r) < End(r) {
      var i :| 0 <= i < |entries| && entries[i].receipt == r;
      assert Readable(q, entries[i]);
    }
    DisjointAreCollected(q, entries, rs);
    CollectedFacts(q, entries);
    var b := Collect(q, entries).value;
    SortFacts(b.kept);
    hide Scan;
    hide Collect;
    ReadableIsProper(q, entries, SortByTime(b.kept));
    TilesAreScanned(q, SortByTime(b.kept));
  }

  /**
  The reader accepts a batch exactly when, within its limits, the distinct receipts are readable and
  tile the cutover with no gap and no overlap, in the order of their source versions.
  */
  lemma AcceptsExactlyTilings(q: Request, entries: seq<Entry>)
    ensures Prepared(q, entries).Ok? <==> Acceptable(q, entries)
  {
    if Prepared(q, entries).Ok? {
      AcceptedTiles(q, entries);
    }
    if Acceptable(q, entries) {
      TilesAreAccepted(q, entries);
    }
  }

  lemma EmptyWhenNoMembers(s: seq<Receipt>)
    ensures SetOf(s) == SetOf([]) ==> s == []
  {
    assert s != [] ==> s[0] in SetOf(s);
  }

  lemma {:induction false} ChainIsUnique(a: seq<Receipt>, b: seq<Receipt>, cursor: Instant, end: Instant,
                                         v: Option<nat>, w: Option<nat>)
    requires Proper(a) && Proper(b) && SetOf(a) == SetOf(b)
    requires Scan(a, cursor, end, v).Ok? && Scan(b, cursor, end, w).Ok?
    ensures a == b
  {
    if a == [] {
      EmptyWhenNoMembers(b);
    } else {
      assert a[0] in SetOf(a) && b != [];
      ScannedIsChain(a[1..], End(a[0]), end, Some(a[0].version));
      ScannedIsChain(b[1..], End(b[0]), end, Some(b[0].version));
      assert b[0] in SetOf(b);
      var i :| 0 <= i < |b| && b[i] == a[0];
      assert a[0] !in a[1..] && b[0] !in b[1..];
      assert SetOf(a[1..]) == SetOf(a) - {a[0]} && SetOf(b[1..]) == SetOf(b) - {b[0]};
      ChainIsUnique(a[1..], b[1..], End(a[0]), end, Some(a[0].version), Some(b[0].version));
    }
  }

  /**
  Neither the order of the documents nor exact repetitions matter: two batches of the same documents,
  both within the limits, are both refused or both accepted, with the same ordered records.
  */
  lemma OrderAndRepetitionDoNotMatter(q: Request, p: seq<Entry>, r: seq<Entry>)
    requires (forall e :: e in p <==> e in r) && WithinLimits(q, p) && WithinLimits(q, r)
    ensures Prepared(q, p).Ok? <==> Prepared(q, r).Ok?
    ensures Prepared(q, p).Ok? ==> Prepared(q, p).value.ordered == Prepared(q, r).value.ordered
  {
    SameReceipts(p, r);
    SameReceipts(r, p);
    SameReadable(q, p, r);
    SameReadable(q, r, p);
    AcceptsExactlyTilings(q, p);
    AcceptsExactlyTilings(q, r);
    assert Receipts(p) == Receipts(r);
    hide Prepared;
    hide Tiles;
    hide WithinLimits;
    assert Acceptable(q, p) <==> Acceptable(q, r);
    if Prepared(q, p).Ok? {
      AcceptedTiles(q, p);
      AcceptedTiles(q, r);
      ChainIsUnique(Prepared(q, p).value.ordered, Prepared(q, r).value.ordered, q.start, q.end, None, None);
    }
  }

  lemma SameReceipts(p: seq<Entry>, r: seq<Entry>)
    requires forall e :: e in p ==> e in r
    ensures Receipts(p) <= Receipts(r)
  {
    forall x | x in Receipts(p) ensures x in Receipts(r) {
      var i :| 0 <= i < |p| && p[i].receipt == x;
      assert p[i] in r;
      var j :| 0 <= j < |r| && r[j] == p[i];
    }
  }

  lemma SameReadable(q: Request, p: seq<Entry>, r: seq<Entry>)
    requires forall e :: e in p ==> e in r
    ensures AllReadable(q, r) ==> AllReadable(q, p)
  {
    forall i | 0 <= i < |p| && AllReadable(q, r) ensures Readable(q, p[i]) {
      assert p[i] in r;
      var j :| 0 <= j < |r| && r[j] == p[i];
    }
  }

  /** A reordering of the documents keeps their number and their bytes, hence the limits. */
  lemma {:induction false} ReorderingKeepsLimits(q: Request, p: seq<Entry>, r: seq<Entry>)
    requires multiset(p) == multiset(r)
    ensures |p| == |r| && TotalSize(q, p) == TotalSize(q, r)
    decreases |p|
  {
    assert |multiset(p)| == |p| && |multiset(r)| == |r|;
    if p != [] {
      var n := |p| - 1;
      assert p[n] in multiset(p);
      var k :| 0 <= k < |r| && r[k] == p[n];
      Without(p, n);
      Without(r, k);
      assert p[..n] + p[n + 1..] == p[..n];
      ReorderingKeepsLimits(q, p[..n], r[..k] + r[k + 1..]);
      SizeWithout(q, r, k);
    }
  }

  lemma {:induction false} SizeWithout(q: Request, r: seq<Entry>, k: nat)
    requires k < |r|
    ensures TotalSize(q, r) == TotalSize(q, r[..k] + r[k + 1..]) + q.size(r[k])
    decreases |r|
  {
    var n := |r| - 1;
    if k < n {
      SizeWithout(q, r[..n], k);
      assert r[..n][..k] == r[..k] && r[..n][k + 1..] == r[k + 1..n];
      var without := r[..k] + r[k + 1..];
      assert without[..|without| - 1] == r[..k] + r[k + 1..n];
      assert without[|without| - 1] == r[n];
    } else {
      assert r[..k] + r[k + 1..] == r[..n];
    }
  }
}

/**
The reader of IntervalReader.dfy from outside: exactly which documents it accepts, said of their fields, and
what its preview says of them.
*/
module ReaderResults {
  import opened Outcomes
  import opened IntervalReceipts
  import opened IntervalReader

  /** The document of a daily interval of this ledger and scope, under its own name and digests. */
  predicate IsDocument(q: Request, e: Entry) {
    var r, i := e.receipt, e.receipt.interval;
    var id := IntervalId(q.scope, i.start, i.end);
    && e == Entry(q.ledgerPath, id, id, i, r) && r.path == q.ledgerPath && i.scope == q.scope && IsDailyInterval(i)
  }

  lemma DocumentIff(q: Request, e: Entry)
    ensures Readable(q, e) <==> IsDocument(q, e)
  {
    DailyIsValid(e.receipt.interval);
    hide ValidInterval;
    hide IsDailyInterval;
  }

  function Bytes(q: Request, entries: seq<Entry>): nat {
    if entries == [] then 0 else q.size(entries[0]) + Bytes(q, entries[1..])
  }

  lemma {:induction false} LastBytes(q: Request, entries: seq<Entry>)
    requires entries != []
    ensures Bytes(q, entries) == Bytes(q, entries[..|entries| - 1]) + q.size(entries[|entries| - 1])
    decreases |entries|
  {
    if |entries| > 1 {
      LastBytes(q, entries[1..]);
      assert entries[1..][..|entries| - 2] == entries[..|entries| - 1][1..];
    }
  }

  lemma {:induction false} BytesAreTotal(q: Request, entries: seq<Entry>)
    ensures TotalSize(q, entries) == Bytes(q, entries)
    decreases |entries|
  {
    if entries != [] {
      BytesAreTotal(q, entries[..|entries| - 1]);
      LastBytes(q, entries);
    }
  }

  /** Some supplied document is of this receipt. */
  ghost predicate Supplied(entries: seq<Entry>, r: Receipt) {
    exists e :: e in entries && e.receipt == r
  }

  lemma SuppliedIff(entries: seq<Entry>, r: Receipt)
    ensures r in Receipts(entries) <==> Supplied(entries, r)
  {
    if Supplied(entries, r) {
      var e :| e in entries && e.receipt == r;
      var i :| 0 <= i < |entries| && entries[i] == e;
    }
  }

  /** The receipt's interval holds an instant. */
  predicate Holds(r: Receipt, t: Instant) {
    r.interval.start <= t < r.interval.end
  }

  ghost predicate HeldAt(entries: seq<Entry>, t: Instant) {
    exists r :: Supplied(entries, r) && Holds(r, t)
  }

  /** Every instant of the cutover, and no other, lies in exactly one receipt; later ones have higher versions. */
  ghost predicate CutsUp(q: Request, entries: seq<Entry>) {
    && (forall t :: HeldAt(entries, t) <==> q.start <= t < q.end)
    && (forall t, a, b :: Supplied(entries, a) && Supplied(entries, b) && Holds(a, t) && Holds(b, t) ==> a == b)
    && forall a, b :: Supplied(entries, a) && Supplied(entries, b) && a.interval.start < b.interval.start ==>
         a.version < b.version
  }

  ghost predicate AllDocuments(q: Request, entries: seq<Entry>) {
    forall e :: e in entries ==> IsDocument(q, e)
  }

  lemma SuppliedIsDaily(q: Request, entries: seq<Entry>, r: Receipt)
    requires AllDocuments(q, entries) && Supplied(entries, r)
    ensures r.interval.start < r.interval.end
  {
  }

  lemma TilesIff(q: Request, entries: seq<Entry>)
    requires AllDocuments(q, entries)
    ensures Tiles(q, Receipts(entries)) <==> CutsUp(q, entries)
  {
    var rs := Receipts(entries);
    forall r ensures r in rs <==> Supplied(entries, r) {
      SuppliedIff(entries, r);
    }
    forall r | r in rs ensures r.interval.start < r.interval.end {
      SuppliedIsDaily(q, entries, r);
    }
    hide Supplied;
    hide Receipts;
    hide AllDocuments;
    hide Tiles;
    hide CutsUp;
    if Tiles(q, rs) {
      TilesCutUp(q, entries, rs);
    }
    if CutsUp(q, entries) {
      CutsUpTiles(q, entries, rs);
    }
  }

  lemma TilesCutUp(q: Request, entries: seq<Entry>, rs: set<Receipt>)
    requires Tiles(q, rs) && (forall r :: r in rs <==> Supplied(entries, r))
    requires forall r :: r in rs ==> r.interval.start < r.interval.end
    ensures CutsUp(q, entries)
  {
    hide Supplied;
    forall t ensures HeldAt(entries, t) <==> q.start <= t < q.end {
      if q.start <= t < q.end {
        assert Covered(rs, t);
        var r :| r in rs && Start(r) <= t < End(r);
        assert Supplied(entries, r) && Holds(r, t);
      }
      if r :| Supplied(entries, r) && Holds(r, t) {
        assert Inside(q, r);
      }
    }
    forall t, a, b | Supplied(entries, a) && Supplied(entries, b) && Holds(a, t) && Holds(b, t) ensures a == b {
      assert a != b ==> Apart(a, b);
    }
  }

  lemma CutsUpTiles(q: Request, entries: seq<Entry>, rs: set<Receipt>)
    requires CutsUp(q, entries) && (forall r :: r in rs <==> Supplied(entries, r))
    requires forall r :: r in rs ==> r.interval.start < r.interval.end
    ensures Tiles(q, rs)
  {
    hide Supplied;
    forall r | r in rs ensures Inside(q, r) {
      assert Holds(r, r.interval.start) && Holds(r, r.interval.end - 1);
      assert HeldAt(entries, r.interval.start) && HeldAt(entries, r.interval.end - 1);
    }
    forall a, b | a in rs && b in rs && a != b ensures Apart(a, b) {
      var t := if a.interval.start <= b.interval.start then b.interval.start else a.interval.start;
      assert !Apart(a, b) ==> Holds(a, t) && Holds(b, t);
    }
    forall t | q.start <= t < q.end ensures Covered(rs, t) {
      assert HeldAt(entries, t);
      var r :| Supplied(entries, r) && Holds(r, t);
      assert r in rs && Start(r) <= t < End(r);
    }
  }

  /** Within the reader's own limits and those of the request. */
  predicate Fits(q: Request, entries: seq<Entry>) {
    && 0 < q.maxReceipts < 1001 && 0 < q.maxBytes < 1_048_577
    && |entries| <= q.maxReceipts && Bytes(q, entries) <= q.maxBytes
  }

  /** The receipts in time order, each beginning where the one before ended, from start to end of the cutover. */
  predicate IsRow(q: Request, ordered: seq<Receipt>) {
    && ordered != [] && ordered[0].interval.start == q.start && ordered[|ordered| - 1].interval.end == q.end
    && forall k :: 0 < k < |ordered| ==>
         && ordered[k].interval.start == ordered[k - 1].interval.end
         && ordered[k].version > ordered[k - 1].version
  }

  lemma {:induction false} ScannedIsRow(s: seq<Receipt>, cursor: Instant, end: Instant, last: Option<nat>)
    requires s != [] && Scan(s, cursor, end, last).Ok?
    ensures s[0].interval.start == cursor && s[|s| - 1].interval.end == end
    ensures last.Some? ==> s[0].version > last.value
    ensures forall k :: 0 < k < |s| ==>
              s[k].interval.start == s[k - 1].interval.end && s[k].version > s[k - 1].version
  {
    if |s| > 1 {
      var rest := s[1..];
      ScannedIsRow(rest, End(s[0]), end, Some(s[0].version));
      forall k | 0 < k < |s|
        ensures s[k].interval.start == s[k - 1].interval.end && s[k].version > s[k - 1].version
      {
        assert s[k] == rest[k - 1];
        if k > 1 {
          assert s[k - 1] == rest[k - 2];
        }
      }
    }
  }

  /** Every document is kept or counted as a repetition. */
  lemma {:induction false} RepetitionsAreCounted(q: Request, entries: seq<Entry>)
    requires Collect(q, entries).Ok?
    ensures var b := Collect(q, entries).value; |b.kept| + b.duplicates == |entries|
  {
    hide Readable;
    hide EndsElsewhere;
    if entries != [] {
      RepetitionsAreCounted(q, entries[..|entries| - 1]);
    }
  }

  lemma {:induction false} SortKeepsLength(receipts: seq<Receipt>)
    ensures |SortByTime(receipts)| == |receipts|
  {
    if receipts != [] {
      SortKeepsLength(receipts[..|receipts| - 1]);
      InsertLength(SortByTime(receipts[..|receipts| - 1]), receipts[|receipts| - 1]);
    }
  }

  lemma {:induction false} InsertLength(sorted: seq<Receipt>, r: Receipt)
    ensures |Insert(sorted, r)| == |sorted| + 1
  {
    if !(sorted == [] || Earlier(r, sorted[0])) {
      InsertLength(sorted[1..], r);
    }
  }

  /** What the preview says: the receipts in a row, how many documents there were, and how many repeated one. */
  predicate Previews(q: Request, entries: seq<Entry>, p: Preview) {
    && IsRow(q, p.ordered) && p.inputCount == |entries| && p.encodedBytes == Bytes(q, entries)
    && p.duplicateCount == |entries| - |p.ordered|
  }

  /**
  The reader accepts exactly documents of its ledger and scope, within the limits, that cut up the cutover;
  its preview lists their receipts in a row, each once.
  */
  lemma PreparedIff(q: Request, entries: seq<Entry>)
    ensures Prepared(q, entries).Ok? <==>
              Fits(q, entries) && q.start < q.end && AllDocuments(q, entries) && CutsUp(q, entries)
    ensures Prepared(q, entries).Ok? ==>
              && Previews(q, entries, Prepared(q, entries).value)
              && forall r :: r in Prepared(q, entries).value.ordered <==> Supplied(entries, r)
  {
    AcceptsExactlyTilings(q, entries);
    BytesAreTotal(q, entries);
    DocumentsIff(q, entries);
    if AllDocuments(q, entries) {
      TilesIff(q, entries);
    }
    if Prepared(q, entries).Ok? {
      PreviewOf(q, entries);
    }
    hide Prepared;
    hide AllDocuments;
    hide Tiles;
    hide CutsUp;
    hide AllReadable;
    hide Supplied;
    hide Previews;
  }

  lemma DocumentsIff(q: Request, entries: seq<Entry>)
    ensures AllReadable(q, entries) <==> AllDocuments(q, entries)
  {
    forall e ensures Readable(q, e) <==> IsDocument(q, e) {
      DocumentIff(q, e);
    }
    hide Readable;
    hide IsDocument;
    assert forall i :: 0 <= i < |entries| ==> entries[i] in entries;
  }

  lemma PreviewOf(q: Request, entries: seq<Entry>)
    requires Prepared(q, entries).Ok?
    ensures var p := Prepared(q, entries).value;
            Previews(q, entries, p) && forall r :: r in p.ordered <==> Supplied(entries, r)
  {
    hide Acceptable;
    hide Collect;
    hide SortByTime;
    hide Scan;
    hide Supplied;
    hide Receipts;
    hide Readable;
    hide Inside;
    hide Distinct;
    AcceptedTiles(q, entries);
    BytesAreTotal(q, entries);
    CollectedFacts(q, entries);
    RepetitionsAreCounted(q, entries);
    SortKeepsLength(Collect(q, entries).value.kept);
    var p := Prepared(q, entries).value;
    forall r ensures r in p.ordered <==> Supplied(entries, r) {
      SuppliedIff(entries, r);
      assert r in p.ordered <==> r in SetOf(p.ordered);
    }
    if p.ordered != [] {
      ScannedIsRow(p.ordered, q.start, q.end, None);
    } else {
      NothingIsNotScanned(q);
    }
  }

  lemma NothingIsNotScanned(q: Request)
    ensures q.start < q.end ==> Scan([], q.start, q.end, None).Err?
  {
  }
}

/**
The windowed readers of application/broker_reconciliation.py: day windows over a trade history in
milliseconds, and chunk windows over a range of microseconds whose bounds the API sees as milliseconds.
*/
module Windows {
  import opened Outcomes
  import opened Timestamps

  // ---- Day windows over trades ------------------------------------------------------------------

  const DAY_MS: int := 86_400_000
  const PAGE_SIZE: int := 1000

  datatype Trade = Trade(symbol: string, id: string, time: int, content: string)

  /** What the broker answers to a window: its trades, or None when the call fails. */
  type Broker = (int, int) -> Option<seq<Trade>>

  datatype Window = Window(from: int, to: int)

  function WindowEnd(start: int, end: int): int {
    if start + DAY_MS <= end then start + DAY_MS else end
  }

  /** The windows of the loop. */
  function DayWindows(start: int, end: int): seq<Window>
    decreases end - start + 1
  {
    if start > end then [] else [Window(start, WindowEnd(start, end))] + DayWindows(WindowEnd(start, end) + 1, end)
  }

  predicate SameKey(a: Trade, b: Trade) {
    a.symbol == b.symbol && a.id == b.id
  }

  function FindTrade(kept: seq<Trade>, t: Trade): Option<Trade> {
    if kept == [] then None
    else if SameKey(kept[0], t) then Some(kept[0])
    else FindTrade(kept[1..], t)
  }

  /** The dictionary after one page; None when a key is listed with another content. */
  function AddTrades(kept: seq<Trade>, page: seq<Trade>): Option<seq<Trade>> {
    if page == [] then Some(kept)
    else
      var before, last := AddTrades(kept, page[..|page| - 1]), page[|page| - 1];
      if before.None? then None
      else
        var known := FindTrade(before.value, last);
        if known.None? then Some(before.value + [last]) else if known.value == last then before else None
  }

  function ReadTrades(broker: Broker, kept: seq<Trade>, start: int, end: int): Option<seq<Trade>>
    decreases end - start + 1
  {
    if start > end then Some(kept)
    else
      var page := broker(start, WindowEnd(start, end));
      if page.None? || |page.value| >= PAGE_SIZE then None
      else
        var more := AddTrades(kept, page.value);
        if more.None? then None else ReadTrades(broker, more.value, WindowEnd(start, end) + 1, end)
  }

  /** One page into the dictionary of trades. */
  method AddPage(kept: seq<Trade>, page: seq<Trade>) returns (r: Option<seq<Trade>>)
    ensures r == AddTrades(kept, page)
  {
    var now := kept;
    for i := 0 to |page|
      invariant AddTrades(kept, page[..i]) == Some(now)
    {
      assert page[..i + 1][..i] == page[..i];
      AddingFailsEarly(kept, page, i + 1);
      var known := FindTrade(now, page[i]);
      if known.Some? && known.value != page[i] {
        return None;
      }
      if known.None? {
        now := now + [page[i]];
      }
    }
    assert page[..|page|] == page;
    r := Some(now);
  }

  lemma {:induction false} AddingFailsEarly(kept: seq<Trade>, page: seq<Trade>, n: nat)
    requires n <= |page|
    ensures AddTrades(kept, page[..n]).None? ==> AddTrades(kept, page).None?
    decreases |page|
  {
    if n < |page| {
      AddingFailsEarly(kept, page[..|page| - 1], n);
      assert page[..|page| - 1][..n] == page[..n];
    } else {
      assert page[..n] == page;
    }
  }

  lemma NextDay(windows: seq<Window>, from: int, end: int)
    requires from <= end
    ensures windows + DayWindows(from, end) ==
            windows + [Window(from, WindowEnd(from, end))] + DayWindows(WindowEnd(from, end) + 1, end)
  {
  }

  lemma NoMoreDays(from: int, end: int)
    ensures from > end ==> DayWindows(from, end) == []
  {
  }

  /** `_collect_bounded_recent_trades`; `windows` are the requests it made. */
  method CollectTrades(broker: Broker, start: int, end: int) returns (r: Option<seq<Trade>>, ghost windows: seq<Window>)
    ensures r == ReadTrades(broker, [], start, end)
    ensures r.Some? ==> windows == DayWindows(start, end)
  {
    hide DayWindows;
    hide AddTrades;
    var kept: seq<Trade>, from := [], start;
    windows := [];
    assert windows + DayWindows(start, end) == DayWindows(start, end);
    while from <= end
      invariant ReadTrades(broker, [], start, end) == ReadTrades(broker, kept, from, end)
      invariant DayWindows(start, end) == windows + DayWindows(from, end)
      decreases end - from + 1
    {
      var to := WindowEnd(from, end);
      NextDay(windows, from, end);
      var page := broker(from, to);
      if page.None? || |page.value| >= PAGE_SIZE {
        return None, windows;
      }
      var more := AddPage(kept, page.value);
      if more.None? {
        return None, windows;
      }
      windows := windows + [Window(from, to)];
      kept, from := more.value, to + 1;
    }
    NoMoreDays(from, end);
    assert windows + [] == windows;
    r := Some(kept);
  }

  predicate In(w: Window, t: int) {
    w.from <= t <= w.to
  }

  /** Every millisecond of the range lies in exactly one window; each window spans at most a day. */
  lemma {:induction false} DayWindowsPartition(start: int, end: int, t: int)
    ensures forall i :: 0 <= i < |DayWindows(start, end)| ==>
              var w := DayWindows(start, end)[i]; start <= w.from <= w.to <= end && w.to - w.from <= DAY_MS
    ensures start <= t <= end ==> exists i :: 0 <= i < |DayWindows(start, end)| && In(DayWindows(start, end)[i], t)
    ensures forall i, j :: 0 <= i < j < |DayWindows(start, end)| ==>
              !(In(DayWindows(start, end)[i], t) && In(DayWindows(start, end)[j], t))
    decreases end - start + 1
  {
    if start <= end {
      var first, rest := Window(start, WindowEnd(start, end)), DayWindows(WindowEnd(start, end) + 1, end);
      DayWindowsPartition(WindowEnd(start, end) + 1, end, t);
      var all := DayWindows(start, end);
      assert forall i :: 1 <= i < |all| ==> all[i] == rest[i - 1];
      assert all[0] == first;
      if start <= t <= end && t > first.to {
        var i :| 0 <= i < |rest| && In(rest[i], t);
        assert In(all[i + 1], t);
      }
    }
  }

  function TradesWithin(trades: set<Trade>, from: int, to: int): set<Trade> {
    set t | t in trades && from <= t.time <= to
  }

  function SetOf(s: seq<Trade>): set<Trade> {
    set t | t in s
  }

  /** The broker answers every window with exactly its trades there, in any order. */
  ghost predicate Honest(broker: Broker, trades: set<Trade>) {
    forall from, to :: broker(from, to).Some? ==> SetOf(broker(from, to).value) == TradesWithin(trades, from, to)
  }

  predicate NoRepeats(s: seq<Trade>) {
    forall i, j :: 0 <= i < j < |s| ==> !SameKey(s[i], s[j])
  }

  lemma {:induction false} FoundTrade(kept: seq<Trade>, t: Trade)
    ensures FindTrade(kept, t).Some? ==> FindTrade(kept, t).value in kept && SameKey(FindTrade(kept, t).value, t)
    ensures FindTrade(kept, t).None? ==> forall x :: x in kept ==> !SameKey(x, t)
  {
    if kept != [] {
      FoundTrade(kept[1..], t);
      assert kept == [kept[0]] + kept[1..];
    }
  }

  /** One trade more, or one the dictionary already holds. */
  lemma AddedTrade(kept: seq<Trade>, t: Trade)
    requires NoRepeats(kept) && FindTrade(kept, t) in {None, Some(t)}
    ensures var after := if FindTrade(kept, t).None? then kept + [t] else kept;
            SetOf(after) == SetOf(kept) + {t} && NoRepeats(after)
  {
    FoundTrade(kept, t);
    NewTrade(kept, t);
    hide NoRepeats;
    hide SameKey;
    assert SetOf(kept + [t]) == SetOf(kept) + {t};
    assert t in kept ==> SetOf(kept) + {t} == SetOf(kept);
  }

  lemma SetOfPage(page: seq<Trade>)
    ensures page == [] ==> SetOf(page) == {}
    ensures page != [] ==> SetOf(page) == SetOf(page[..|page| - 1]) + {page[|page| - 1]}
  {
    if page != [] {
      assert page == page[..|page| - 1] + [page[|page| - 1]];
    }
  }

  lemma {:induction false} AddedTrades(kept: seq<Trade>, page: seq<Trade>)
    requires AddTrades(kept, page).Some? && NoRepeats(kept)
    ensures var all := AddTrades(kept, page).value; SetOf(all) == SetOf(kept) + SetOf(page) && NoRepeats(all)
  {
    hide NoRepeats;
    hide FindTrade;
    hide SetOf;
    SetOfPage(page);
    if page == [] {
      assert SetOf(kept) + {} == SetOf(kept);
    } else {
      var n := |page| - 1;
      AddedTrades(kept, page[..n]);
      AddedTrade(AddTrades(kept, page[..n]).value, page[n]);
      assert SetOf(kept) + SetOf(page[..n]) + {page[n]} == SetOf(kept) + (SetOf(page[..n]) + {page[n]});
    }
  }

  lemma NewTrade(kept: seq<Trade>, t: Trade)
    requires NoRepeats(kept)
    ensures (forall x :: x in kept ==> !SameKey(x, t)) ==> NoRepeats(kept + [t])
  {
    assert forall i :: 0 <= i < |kept| ==> kept[i] in kept;
  }

  lemma {:induction false} ReadIsExact(broker: Broker, trades: set<Trade>, kept: seq<Trade>, start: int, end: int)
    requires Honest(broker, trades) && NoRepeats(kept) && ReadTrades(broker, kept, start, end).Some?
    ensures var all := ReadTrades(broker, kept, start, end).value;
            SetOf(all) == SetOf(kept) + TradesWithin(trades, start, end) && NoRepeats(all)
    decreases end - start + 1
  {
    if start > end {
      assert TradesWithin(trades, start, end) == {};
    } else {
      var to := WindowEnd(start, end);
      var page := broker(start, to).value;
      AddedTrades(kept, page);
      var more := AddTrades(kept, page).value;
      ReadIsExact(broker, trades, more, to + 1, end);
      assert TradesWithin(trades, start, end) == TradesWithin(trades, start, to) + TradesWithin(trades, to + 1, end);
      hide NoRepeats;
      assert SetOf(kept) + TradesWithin(trades, start, to) + TradesWithin(trades, to + 1, end) ==
             SetOf(kept) + (TradesWithin(trades, start, to) + TradesWithin(trades, to + 1, end));
    }
  }

  /** A successful read is exactly the broker's trades of the range, each once. */
  lemma TradesAreReadOnce(broker: Broker, trades: set<Trade>, start: int, end: int)
    requires Honest(broker, trades) && ReadTrades(broker, [], start, end).Some?
    ensures var all := ReadTrades(broker, [], start, end).value;
            SetOf(all) == TradesWithin(trades, start, end) && NoRepeats(all)
  {
    ReadIsExact(broker, trades, [], start, end);
    assert SetOf([]) + TradesWithin(trades, start, end) == TradesWithin(trades, start, end);
  }

  // ---- Chunk windows in microseconds ------------------------------------------------------------

  function ChunkEnd(cursor: int, end: int, maxChunk: int): int {
    if cursor + maxChunk <= end then cursor + maxChunk else end
  }

  /** The chunks read from `cursor` on. */
  function Chunks(cursor: int, end: int, maxChunk: int): seq<Window>
    requires maxChunk > 0
    decreases end - cursor
  {
    if cursor >= end then []
    else
      var to := ChunkEnd(cursor, end, maxChunk);
      [Window(cursor, to)]
      + (if to == end || to + MS > end then []
         else Chunks(if to + MS == end then to else to + MS, end, maxChunk))
  }

  type Counts = map<string, nat>

  function CountOf(counts: Counts, name: string): nat {
    if name in counts then counts[name] else 0
  }

  function AddCounts(counts: Counts, more: Counts): Counts {
    map name | name in counts.Keys + more.Keys :: CountOf(counts, name) + CountOf(more, name)
  }

  predicate AllRead(windows: seq<Window>, read: Window -> Option<Counts>) {
    forall i :: 0 <= i < |windows| ==> read(windows[i]).Some?
  }

  /** The rows counted in some windows, all of which were read completely. */
  function SumCounts(windows: seq<Window>, read: Window -> Option<Counts>): Counts
    requires AllRead(windows, read)
  {
    if windows == [] then map[]
    else AddCounts(SumCounts(windows[..|windows| - 1], read), read(windows[|windows| - 1]).value)
  }

  /** The windows read so far, all completely, and what they counted. */
  predicate Counted(windows: seq<Window>, counts: Counts, read: Window -> Option<Counts>) {
    AllRead(windows, read) && counts == SumCounts(windows, read)
  }

  lemma OneMoreCounted(windows: seq<Window>, counts: Counts, w: Window, read: Window -> Option<Counts>)
    requires Counted(windows, counts, read) && read(w).Some?
    ensures Counted(windows + [w], AddCounts(counts, read(w).value), read)
  {
    hide AddCounts;
    assert (windows + [w])[..|windows|] == windows;
  }

  /** Where the chunk after one that ends at `to` starts, if there is one. */
  function NextCursor(to: int, end: int): Option<int> {
    if to == end || to + MS > end then None else Some(if to + MS == end then to else to + MS)
  }

  lemma ChunksFrom(cursor: int, end: int, maxChunk: int)
    requires maxChunk > 0 && cursor < end
    ensures var to := ChunkEnd(cursor, end, maxChunk);
            && Chunks(cursor, end, maxChunk)
               == [Window(cursor, to)] + (if NextCursor(to, end).None? then []
                 else Chunks(NextCursor(to, end).value, end, maxChunk))
            && (NextCursor(to, end).Some? ==> cursor < NextCursor(to, end).value < end)
  {
  }

  /**
  The loop of `diagnose_chunked_balance_flows`: `read` gives the row counts of a chunk that was read
  completely. The first incomplete chunk ends the loop; otherwise every chunk was read and counted.
  */
  method ChunkLoop(start: int, end: int, maxChunk: int, read: Window -> Option<Counts>)
    returns (complete: bool, windows: seq<Window>, counts: Counts)
    requires maxChunk > 0
    ensures complete <==> AllRead(Chunks(start, end, maxChunk), read)
    ensures complete ==> windows == Chunks(start, end, maxChunk) && Counted(windows, counts, read)
    ensures !complete ==> windows != [] && windows <= Chunks(start, end, maxChunk) && read(windows[|windows| - 1]).None?
  {
    hide Chunks;
    hide SumCounts;
    hide AddCounts;
    hide AllRead;
    hide NextCursor;
    windows, counts := [], map[];
    NothingCounted(read);
    if start >= end {
      NoChunks(start, end, maxChunk);
      return true, windows, counts;
    }
    var cursor := Some(start);
    while cursor.Some?
      invariant cursor.Some? ==> cursor.value < end
      invariant Chunks(start, end, maxChunk)
                == windows + (if cursor.Some? then Chunks(cursor.value, end, maxChunk) else [])
      invariant Counted(windows, counts, read)
      decreases if cursor.Some? then end - cursor.value else 0
    {
      var to := ChunkEnd(cursor.value, end, maxChunk);
      var w, next := Window(cursor.value, to), NextCursor(to, end);
      ghost var rest := if next.Some? then Chunks(next.value, end, maxChunk) else [];
      ChunksFrom(cursor.value, end, maxChunk);
      Regrouped(windows, w, rest);
      var chunk := read(w);
      if chunk.None? {
        StopsAt(windows, w, rest, read);
        return false, windows + [w], counts;
      }
      OneMoreCounted(windows, counts, w, read);
      windows, counts, cursor := windows + [w], AddCounts(counts, chunk.value), next;
    }
    assert windows + [] == windows;
    complete := true;
  }

  lemma Regrouped(windows: seq<Window>, w: Window, rest: seq<Window>)
    ensures windows + ([w] + rest) == (windows + [w]) + rest
  {
  }

  lemma StopsAt(windows: seq<Window>, w: Window, rest: seq<Window>, read: Window -> Option<Counts>)
    requires read(w).None?
    ensures windows + [w] <= (windows + [w]) + rest && !AllRead((windows + [w]) + rest, read)
  {
    assert ((windows + [w]) + rest)[|windows|] == w;
  }

  lemma NothingCounted(read: Window -> Option<Counts>)
    ensures Counted([], map[], read)
  {
  }

  lemma NoChunks(start: int, end: int, maxChunk: int)
    requires maxChunk > 0 && start >= end
    ensures Chunks(start, end, maxChunk) == []
  {
  }

  /** The chunk's request names the millisecond `m`: bounds are floored to milliseconds and inclusive. */
  predicate Reads(w: Window, m: int) {
    w.from / MS <= m <= w.to / MS
  }

  predicate Read(windows: seq<Window>, m: int) {
    exists i :: 0 <= i < |windows| && Reads(windows[i], m)
  }

  /** The window lies between `from` and `to`. */
  predicate Spans(w: Window, from: int, to: int) {
    from <= w.from < w.to <= to
  }

  /** The chunks start at the cursor, and the last ends latest. */
  lemma {:induction false} ChunkBounds(cursor: int, end: int, maxChunk: int)
    requires maxChunk > 0 && cursor < end
    ensures var ws := Chunks(cursor, end, maxChunk);
            && ws != [] && ws[0].from == cursor && ws[|ws| - 1].to <= end
            && forall i :: 0 <= i < |ws| ==> Spans(ws[i], cursor, ws[|ws| - 1].to)
    decreases end - cursor
  {
    var ws, to := Chunks(cursor, end, maxChunk), ChunkEnd(cursor, end, maxChunk);
    if to != end && to + MS <= end {
      var next := if to + MS == end then to else to + MS;
      var rest := Chunks(next, end, maxChunk);
      ChunkBounds(next, end, maxChunk);
      JoinedSpans(Window(cursor, to), rest, next);
    } else {
      assert ws == [Window(cursor, to)];
    }
  }

  lemma JoinedSpans(first: Window, rest: seq<Window>, next: int)
    requires rest != [] && first.from < first.to <= next && rest[0].from == next
    requires forall i :: 0 <= i < |rest| ==> Spans(rest[i], next, rest[|rest| - 1].to)
    ensures var ws := [first] + rest; forall i :: 0 <= i < |ws| ==> Spans(ws[i], first.from, ws[|ws| - 1].to)
  {
    var ws := [first] + rest;
    assert ws[|ws| - 1] == rest[|rest| - 1];
    assert Spans(rest[0], next, rest[|rest| - 1].to);
    forall i | 0 <= i < |ws| ensures Spans(ws[i], first.from, ws[|ws| - 1].to) {
      if i > 0 {
        assert ws[i] == rest[i - 1];
      }
    }
  }

  /** Up to the end of the last chunk every millisecond is read. */
  lemma {:induction false} ReadUpToLast(cursor: int, end: int, maxChunk: int, m: int)
    requires maxChunk > 0 && cursor < end
    requires var ws := Chunks(cursor, end, maxChunk); ws != [] && cursor / MS <= m <= ws[|ws| - 1].to / MS
    ensures Read(Chunks(cursor, end, maxChunk), m)
    decreases end - cursor
  {
    var ws, to := Chunks(cursor, end, maxChunk), ChunkEnd(cursor, end, maxChunk);
    assert ws[0] == Window(cursor, to);
    if m <= to / MS {
      assert Reads(ws[0], m);
    } else if to != end && to + MS <= end {
      var next := if to + MS == end then to else to + MS;
      var rest := Chunks(next, end, maxChunk);
      ChunkBounds(next, end, maxChunk);
      assert ws[|ws| - 1] == rest[|rest| - 1];
      ReadUpToLast(next, end, maxChunk, m);
      var i :| 0 <= i < |rest| && Reads(rest[i], m);
      assert Reads(ws[i + 1], m);
    }
  }

  /** The part of a range beyond its whole periods of chunk and gap. */
  predicate EndsInsideChunk(span: int, maxChunk: int)
    requires maxChunk > 0
  {
    var rest := span % (maxChunk + MS);
    0 < rest <= maxChunk || (rest == 0 && maxChunk >= MS)
  }

  lemma OnePeriodLess(d: int, p: int)
    requires p > 0
    ensures d % p == (d - p) % p
  {
    var q := (d - p) / p;
    assert d - p == q * p + (d - p) % p;
    assert d == (q + 1) * p + (d - p) % p;
    QuotientIsUnique(d, p, q + 1, (d - p) % p);
  }

  lemma QuotientIsUnique(d: int, p: int, q: int, r: int)
    requires p > 0 && d == q * p + r && 0 <= r < p
    ensures d % p == r
  {
    var q1, r1 := d / p, d % p;
    assert d == q1 * p + r1;
    if q1 > q {
      Ordered(q + 1, q1, p);
    } else if q1 < q {
      Ordered(q1 + 1, q, p);
    }
  }

  lemma Ordered(a: int, b: int, p: int)
    requires a <= b && p > 0
    ensures a * p <= b * p
  {
  }

  /** The last chunk reaches the last millisecond exactly when the range ends inside a chunk. */
  lemma {:induction false} LastChunk(cursor: int, end: int, maxChunk: int)
    requires maxChunk > 0 && cursor < end && end % MS == 0
    ensures var ws := Chunks(cursor, end, maxChunk);
            ws != [] && (ws[|ws| - 1].to / MS == end / MS <==> EndsInsideChunk(end - cursor, maxChunk))
    decreases end - cursor
  {
    var ws, to, span, period := Chunks(cursor, end, maxChunk), ChunkEnd(cursor, end, maxChunk), end - cursor,
      maxChunk + MS;
    if span < period {
      QuotientIsUnique(span, period, 0, span);
      assert ws == [Window(cursor, to)];
    } else {
      OnePeriodLess(span, period);
      var next := if to + MS == end then to else to + MS;
      var rest := Chunks(next, end, maxChunk);
      ChunkBounds(next, end, maxChunk);
      assert ws[|ws| - 1] == rest[|rest| - 1];
      if span == period {
        QuotientIsUnique(0, period, 0, 0);
        OverlapChunk(to, end, maxChunk);
      } else {
        LastChunk(next, end, maxChunk);
      }
    }
  }

  /** The overlapping window before the end: a chunk of at least a millisecond closes the range. */
  lemma OverlapChunk(cursor: int, end: int, maxChunk: int)
    requires maxChunk > 0 && cursor + MS == end && end % MS == 0
    ensures var ws := Chunks(cursor, end, maxChunk);
            ws == [Window(cursor, ChunkEnd(cursor, end, maxChunk))] && (ws[0].to / MS == end / MS <==> maxChunk >= MS)
  {
  }

  /**
  For a range of whole milliseconds the chunks read every millisecond exactly when the range ends inside
  a chunk; where it does not, its last millisecond is missed.
  */
  lemma ChunksCoverIff(start: int, end: int, maxChunk: int)
    requires maxChunk > 0 && start < end && start % MS == 0 && end % MS == 0
    ensures (forall m :: start / MS <= m <= end / MS ==> Read(Chunks(start, end, maxChunk), m)) <==>
            EndsInsideChunk(end - start, maxChunk)
  {
    var ws := Chunks(start, end, maxChunk);
    ChunkBounds(start, end, maxChunk);
    LastChunk(start, end, maxChunk);
    var last := ws[|ws| - 1];
    if last.to / MS == end / MS {
      forall m | start / MS <= m <= end / MS ensures Read(ws, m) {
        ReadUpToLast(start, end, maxChunk, m);
      }
    } else {
      assert !Read(ws, end / MS);
    }
  }

  lemma WholeChunkEndsInside(span: int, maxChunk: int)
    requires maxChunk > 0 && maxChunk % MS == 0 && span > 0 && span % MS == 0
    ensures EndsInsideChunk(span, maxChunk)
  {
    WholeRemainder(span, maxChunk + MS);
    AMillisecondLess(span % (maxChunk + MS), maxChunk);
  }

  lemma AMillisecondLess(rest: int, maxChunk: int)
    requires 0 <= rest < maxChunk + MS && rest % MS == 0 && maxChunk % MS == 0 && maxChunk > 0
    ensures rest <= maxChunk && maxChunk >= MS
  {
  }

  /** The same of the bounds the code computes: the millisecond is asked for in the chunk's request. */
  predicate Asks(w: Window, m: int) {
    w.from >= 0 && w.to >= 0 && Milliseconds(w.from) <= m <= Milliseconds(w.to)
  }

  predicate Asked(windows: seq<Window>, m: int) {
    exists i :: 0 <= i < |windows| && Asks(windows[i], m)
  }

  /** For instants whose milliseconds the code computes exactly, its requests are the chunks above. */
  lemma RequestsAreChunks(start: int, end: int, maxChunk: int, m: int)
    requires maxChunk > 0 && start < end && InRange(start) && InRange(end)
    ensures Asked(Chunks(start, end, maxChunk), m) <==> Read(Chunks(start, end, maxChunk), m)
  {
    var ws := Chunks(start, end, maxChunk);
    ChunkBounds(start, end, maxChunk);
    hide Chunks;
    hide Milliseconds;
    forall i | 0 <= i < |ws| ensures Asks(ws[i], m) <==> Reads(ws[i], m) {
      assert Spans(ws[i], start, ws[|ws| - 1].to);
      MillisecondsAreFloors(ws[i].from);
      MillisecondsAreFloors(ws[i].to);
    }
  }

  /** So they ask for every millisecond of an aligned range exactly when it ends inside a chunk. */
  lemma RequestsCoverIff(start: int, end: int, maxChunk: int)
    requires maxChunk > 0 && start < end && start % MS == 0 && end % MS == 0 && InRange(start) && InRange(end)
    ensures (forall m :: start / MS <= m <= end / MS ==> Asked(Chunks(start, end, maxChunk), m))
            <==> EndsInsideChunk(end - start, maxChunk)
  {
    ChunksCoverIff(start, end, maxChunk);
    forall m ensures Asked(Chunks(start, end, maxChunk), m) <==> Read(Chunks(start, end, maxChunk), m) {
      RequestsAreChunks(start, end, maxChunk, m);
    }
    hide EndsInsideChunk;
    hide Chunks;
    hide Asked;
    hide Read;
  }

  /** Later on they need not: the day up to 2038-11-10T21:08:27.002Z is read without its last millisecond. */
  lemma LateRequestMisses(start: int, end: int, maxChunk: int)
    requires end == 2_173_036_107_002_000 && maxChunk == 86_400_000 * MS && start == end - maxChunk
    ensures !Asked(Chunks(start, end, maxChunk), end / MS)
  {
    MillisecondsCanFallShort();
    assert Chunks(start, end, maxChunk) == [Window(start, end)];
    hide Milliseconds;
  }

  /** A chunk length of whole milliseconds, such as the default of seven days, always covers. */
  lemma WholeMillisecondChunksCover(start: int, end: int, maxChunk: int, m: int)
    requires maxChunk > 0 && maxChunk % MS == 0 && start < end && start % MS == 0 && end % MS == 0
    requires start / MS <= m <= end / MS
    ensures Read(Chunks(start, end, maxChunk), m)
  {
    WholeChunkEndsInside(end - start, maxChunk);
    hide EndsInsideChunk;
    hide Chunks;
    ChunksCoverIff(start, end, maxChunk);
  }

  /** The remainder of whole milliseconds by whole milliseconds is whole. */
  lemma WholeRemainder(span: int, period: int)
    requires period > 0 && span % MS == 0 && period % MS == 0
    ensures span % period % MS == 0
  {
    var q, a, b := span / period, span / MS, period / MS;
    assert span == q * period + span % period;
    assert period == b * MS && span == a * MS;
    Regroup(q, b);
    assert span % period == (a - q * b) * MS;
  }

  lemma Regroup(q: int, b: int)
    ensures q * (b * MS) == (q * b) * MS
  {
  }

  /** A chunk of 1.5 ms misses the last millisecond of a range of 2 ms. */
  lemma HalfMillisecondChunkMisses()
    ensures !Read(Chunks(0, 2000, 1500), 2)
  {
    assert Chunks(0, 2000, 1500) == [Window(0, 1500)];
  }

  /** The chunks after the first one, when there are any. */
  lemma ChunksAfterFirst(cursor: int, end: int, maxChunk: int)
    requires maxChunk > 0 && cursor < end && |Chunks(cursor, end, maxChunk)| > 1
    ensures var to := ChunkEnd(cursor, end, maxChunk);
            var next := if to + MS == end then to else to + MS;
            && to + MS <= end && Chunks(cursor, end, maxChunk) == [Window(cursor, to)] + Chunks(next, end, maxChunk)
  {
  }

  /** At most one millisecond is read twice: the one before the last, by the last two chunks. */
  lemma {:induction false} OnlyBoundaryIsReadTwice(cursor: int, end: int, maxChunk: int, i: nat, j: nat, m: int)
    requires maxChunk > 0 && cursor < end && end % MS == 0
    requires var ws := Chunks(cursor, end, maxChunk); i < j < |ws| && Reads(ws[i], m) && Reads(ws[j], m)
    ensures m == end / MS - 1 && i + 1 == j == |Chunks(cursor, end, maxChunk)| - 1
    decreases end - cursor
  {
    hide Chunks;
    var ws, to := Chunks(cursor, end, maxChunk), ChunkEnd(cursor, end, maxChunk);
    ChunksAfterFirst(cursor, end, maxChunk);
    var next := if to + MS == end then to else to + MS;
    var rest := Chunks(next, end, maxChunk);
    ChunkBounds(next, end, maxChunk);
    assert ws[j] == rest[j - 1] && Spans(rest[j - 1], next, rest[|rest| - 1].to);
    if to + MS == end {
      OverlapChunk(to, end, maxChunk);
    } else if i > 0 {
      assert ws[i] == rest[i - 1];
      OnlyBoundaryIsReadTwice(next, end, maxChunk, i - 1, j - 1, m);
    }
  }
}

/**
_fetch_surface of application/broker_reconciliation.py: a history surface is read page by page, either
until a short page (list surfaces, by offset) or until the announced total is reached (by page number).
*/
module Paging {
  import opened Outcomes

  const MAX_HISTORY_PAGES: nat := 20

  /** `identity` is the stable identity of a row, None for a row that carries none. */
  datatype Row = Row(identity: Option<int>, content: string)

  datatype Body = Absent | Unusable | Rows(rows: seq<Row>)

  /** `total` is None when the announced total is missing or not a nonnegative number. */
  datatype Response = ReadFailed | Reply(body: Body, total: Option<nat>)

  /** A strict surface (transfers) refuses rows without identity; others pass them through. */
  datatype Surface = Surface(isList: bool, pageSize: nat, strict: bool)

  datatype Progress = Progress(collected: seq<Row>, seen: set<int>, locked: Option<nat>)

  /** What the broker answers to the page with this number and offset. */
  type Broker = (nat, nat) -> Response

  datatype Fetched = Fetched(rows: seq<Row>, seen: set<int>)

  // ---- The loop as a function -----------------------------------------------------------------

  /** The identities seen after the rows of a page; None when one repeats or a needed one is missing. */
  function SeenAfter(strict: bool, seen: set<int>, rows: seq<Row>): Option<set<int>> {
    if rows == [] then Some(seen)
    else
      var before, last := SeenAfter(strict, seen, rows[..|rows| - 1]), rows[|rows| - 1];
      if before.None? then None
      else if last.identity.None? then (if strict then None else before)
      else if last.identity.value in before.value then None
      else Some(before.value + {last.identity.value})
  }

  datatype Turn = Finished(result: Result<Fetched>) | More(next: Progress)

  function Incomplete(): Turn {
    Finished(Err("balance_history_incomplete"))
  }

  /** The rows of a response; an announced total of zero stands for an absent list. */
  function RowsOf(surface: Surface, reply: Response): Option<seq<Row>>
    requires reply.Reply?
  {
    match reply.body
    case Rows(rows) => Some(rows)
    case Absent => if !surface.isList && reply.total == Some(0) then Some([]) else None
    case Unusable => None
  }

  function OnPage(surface: Surface, p: Progress, reply: Response): Turn {
    if reply.ReadFailed? then Finished(Err("balance_history_read_failed"))
    else if !surface.isList && (reply.total.None? || (p.locked.Some? && p.locked != reply.total)) then Incomplete()
    else
      var rows := RowsOf(surface, reply);
      if rows.None? then Incomplete()
      else
        var seen := SeenAfter(surface.strict, p.seen, rows.value);
        if seen.None? then Incomplete()
        else
          AfterPage(surface, p, rows.value, seen.value, reply.total)
  }

  function AfterPage(surface: Surface, p: Progress, rows: seq<Row>, seen: set<int>, total: Option<nat>): Turn
    requires surface.isList || total.Some?
  {
    var all, full := p.collected + rows, |rows| >= surface.pageSize;
    if surface.isList then
      if full then More(Progress(all, seen, None)) else Finished(Ok(Fetched(all, seen)))
    else if |all| == total.value then Finished(Ok(Fetched(all, seen)))
    else if rows == [] || |all| > total.value || !full then Incomplete()
    else More(Progress(all, seen, total))
  }

  function Fetch(surface: Surface, broker: Broker, p: Progress, index: nat): Result<Fetched>
    decreases MAX_HISTORY_PAGES + 1 - index
  {
    if index > MAX_HISTORY_PAGES then Err("balance_history_incomplete")
    else
      match OnPage(surface, p, broker(index, |p.collected|))
      case Finished(result) => result
      case More(next) => Fetch(surface, broker, next, index + 1)
  }

  function FetchAll(surface: Surface, broker: Broker, seen: set<int>): Result<Fetched> {
    Fetch(surface, broker, Progress([], seen, None), 1)
  }

  // ---- The loop as code -----------------------------------------------------------------------

  method NoteRows(strict: bool, seen: set<int>, rows: seq<Row>) returns (after: Option<set<int>>)
    ensures after == SeenAfter(strict, seen, rows)
  {
    var noted := seen;
    for i := 0 to |rows|
      invariant SeenAfter(strict, seen, rows[..i]) == Some(noted)
    {
      var identity := rows[i].identity;
      assert rows[..i + 1][..i] == rows[..i];
      NotingFailsEarly(strict, seen, rows, i + 1);
      if identity.None? {
        if strict {
          return None;
        }
      } else {
        if identity.value in noted {
          return None;
        }
        noted := noted + {identity.value};
      }
    }
    assert rows[..|rows|] == rows;
    after := Some(noted);
  }

  lemma {:induction false} NotingFailsEarly(strict: bool, seen: set<int>, rows: seq<Row>, n: nat)
    requires n <= |rows|
    ensures SeenAfter(strict, seen, rows[..n]).None? ==> SeenAfter(strict, seen, rows).None?
    decreases |rows|
  {
    if n < |rows| {
      NotingFailsEarly(strict, seen, rows[..|rows| - 1], n);
      assert rows[..|rows| - 1][..n] == rows[..n];
    } else {
      assert rows[..n] == rows;
    }
  }

  /** One page: its total and rows are checked, its identities noted, and the end is recognised. */
  method TakePage(surface: Surface, p: Progress, reply: Response) returns (turn: Turn)
    ensures turn == OnPage(surface, p, reply)
  {
    if reply.ReadFailed? {
      return Finished(Err("balance_history_read_failed"));
    }
    if !surface.isList && (reply.total.None? || (p.locked.Some? && p.locked != reply.total)) {
      return Incomplete();
    }
    var rows := RowsOf(surface, reply);
    if rows.None? {
      return Incomplete();
    }
    var noted := NoteRows(surface.strict, p.seen, rows.value);
    if noted.None? {
      return Incomplete();
    }
    turn := EndOfPage(surface, p, rows.value, noted.value, reply.total);
  }

  /** Whether a page is the last: a short one of a list, or the one that completes the announced total. */
  method EndOfPage(surface: Surface, p: Progress, rows: seq<Row>, seen: set<int>, total: Option<nat>)
      returns (turn: Turn)
    requires surface.isList || total.Some?
    ensures turn == AfterPage(surface, p, rows, seen, total)
  {
    var collected, full := p.collected + rows, |rows| >= surface.pageSize;
    if surface.isList {
      return if full then More(Progress(collected, seen, None)) else Finished(Ok(Fetched(collected, seen)));
    }
    if rows == [] {
      assert collected == p.collected;
      return if |p.collected| == total.value then Finished(Ok(Fetched(p.collected, seen))) else Incomplete();
    }
    if |collected| > total.value {
      return Incomplete();
    }
    if |collected| == total.value {
      return Finished(Ok(Fetched(collected, seen)));
    }
    if !full {
      return Incomplete();
    }
    turn := More(Progress(collected, seen, total));
  }

  /** `_fetch_surface`; `known` are identities already seen in earlier chunks of the same surface. */
  method FetchSurface(surface: Surface, broker: Broker, known: set<int>) returns (r: Result<Fetched>)
    ensures r == FetchAll(surface, broker, known)
  {
    hide OnPage;
    var p := Progress([], known, None);
    for index := 1 to MAX_HISTORY_PAGES + 1
      invariant FetchAll(surface, broker, known) == Fetch(surface, broker, p, index)
    {
      var turn := TakePage(surface, p, broker(index, |p.collected|));
      match turn {
        case Finished(result) => return result;
        case More(next) => p := next;
      }
    }
    r := Err("balance_history_incomplete");
  }

  // ---- What a successful read means -------------------------------------------------------------

  predicate Identified(rows: seq<Row>) {
    forall i :: 0 <= i < |rows| ==> rows[i].identity.Some?
  }

  predicate Distinct(rows: seq<Row>) {
    forall i, j :: 0 <= i < j < |rows| ==> rows[i].identity != rows[j].identity
  }

  function IdsOf(rows: seq<Row>): set<int> {
    set i | 0 <= i < |rows| && rows[i].identity.Some? :: rows[i].identity.value
  }

  lemma {:induction false} NotedFacts(strict: bool, seen: set<int>, rows: seq<Row>)
    requires SeenAfter(strict, seen, rows).Some? && Identified(rows)
    ensures SeenAfter(strict, seen, rows).value == seen + IdsOf(rows)
    ensures IdsOf(rows) !! seen && Distinct(rows)
  {
    if rows != [] {
      var n := |rows| - 1;
      assert forall i :: 0 <= i < n ==> rows[..n][i] == rows[i];
      NotedFacts(strict, seen, rows[..n]);
      assert IdsOf(rows) == IdsOf(rows[..n]) + {rows[n].identity.value};
    }
  }

  lemma JoinDistinct(a: seq<Row>, b: seq<Row>)
    requires Identified(a) && Identified(b) && Distinct(a) && Distinct(b) && IdsOf(a) !! IdsOf(b)
    ensures Identified(a + b) && Distinct(a + b) && IdsOf(a + b) == IdsOf(a) + IdsOf(b)
  {
    forall i, j | 0 <= i < j < |a + b| ensures (a + b)[i].identity != (a + b)[j].identity {
      if i < |a| <= j {
        assert a[i].identity.value in IdsOf(a) && b[j - |a|].identity.value in IdsOf(b);
      }
    }
    forall x | x in IdsOf(a) + IdsOf(b) ensures x in IdsOf(a + b) {
      if x in IdsOf(a) {
        var i :| 0 <= i < |a| && a[i].identity == Some(x);
        assert (a + b)[i].identity == Some(x);
      } else {
        var i :| 0 <= i < |b| && b[i].identity == Some(x);
        assert (a + b)[|a| + i].identity == Some(x);
      }
    }
  }

  /** Every page the broker may give holds only rows of `universe`, which all have identities. */
  ghost predicate DrawsFrom(broker: Broker, universe: set<Row>) {
    forall index, offset :: PageWithin(broker(index, offset), universe)
  }

  predicate PageWithin(reply: Response, universe: set<Row>) {
    reply.Reply? && reply.body.Rows? ==>
      forall i :: 0 <= i < |reply.body.rows| ==> reply.body.rows[i] in universe && reply.body.rows[i].identity.Some?
  }

  predicate Within(rows: seq<Row>, universe: set<Row>) {
    forall i :: 0 <= i < |rows| ==> rows[i] in universe
  }

  ghost predicate ProgressOk(universe: set<Row>, start: set<int>, p: Progress) {
    && Within(p.collected, universe) && Identified(p.collected) && Distinct(p.collected)
    && p.seen == start + IdsOf(p.collected) && IdsOf(p.collected) !! start
  }

  lemma PageKeeps(universe: set<Row>, start: set<int>, strict: bool, p: Progress, rows: seq<Row>)
    requires ProgressOk(universe, start, p) && Within(rows, universe) && Identified(rows)
    requires SeenAfter(strict, p.seen, rows).Some?
    ensures ProgressOk(universe, start, Progress(p.collected + rows, SeenAfter(strict, p.seen, rows).value, p.locked))
  {
    NotedFacts(strict, p.seen, rows);
    JoinDistinct(p.collected, rows);
  }

  /** A successful read returns rows of the universe, each identity once, none seen before. */
  lemma {:induction false} FetchedFacts(surface: Surface, broker: Broker, universe: set<Row>, start: set<int>,
                                        p: Progress, index: nat)
    requires DrawsFrom(broker, universe) && ProgressOk(universe, start, p)
    requires Fetch(surface, broker, p, index).Ok?
    ensures var rows := Fetch(surface, broker, p, index).value.rows;
            && Within(rows, universe) && Identified(rows) && Distinct(rows) && IdsOf(rows) !! start
            && Fetch(surface, broker, p, index).value.seen == start + IdsOf(rows)
    ensures !surface.isList ==>
              exists k, offset :: broker(k, offset).Reply?
                && broker(k, offset).total == Some(|Fetch(surface, broker, p, index).value.rows|)
    decreases MAX_HISTORY_PAGES + 1 - index
  {
    hide ProgressOk;
    hide SeenAfter;
    var reply := broker(index, |p.collected|);
    var rows := RowsOf(surface, reply).value;
    assert PageWithin(reply, universe);
    PageKeeps(universe, start, surface.strict, p, rows);
    var seen := SeenAfter(surface.strict, p.seen, rows).value;
    LockedIsIrrelevant(universe, start, p.collected + rows, seen, p.locked, reply.total);
    LockedIsIrrelevant(universe, start, p.collected + rows, seen, p.locked, None);
    match OnPage(surface, p, reply)
    case Finished(_) =>
    case More(next) => FetchedFacts(surface, broker, universe, start, next, index + 1);
  }

  lemma LockedIsIrrelevant(universe: set<Row>, start: set<int>, rows: seq<Row>, seen: set<int>, a: Option<nat>,
                           b: Option<nat>)
    ensures ProgressOk(universe, start, Progress(rows, seen, a)) ==>
            ProgressOk(universe, start, Progress(rows, seen, b))
    ensures ProgressOk(universe, start, Progress(rows, seen, a)) ==>
              Within(rows, universe) && Identified(rows) && Distinct(rows) && IdsOf(rows) !! start
                && seen == start + IdsOf(rows)
  {
  }

  // ---- Main results -------------------------------------------------------------------------------

  function SetOf(rows: seq<Row>): set<Row> {
    set r | r in rows
  }

  lemma {:induction false} SizeOfDistinct(rows: seq<Row>)
    requires Distinct(rows)
    ensures |SetOf(rows)| == |rows|
  {
    if rows != [] {
      var n := |rows| - 1;
      assert forall i :: 0 <= i < n ==> rows[..n][i] == rows[i];
      SizeOfDistinct(rows[..n]);
      assert rows[n] !in SetOf(rows[..n]);
      assert SetOf(rows) == SetOf(rows[..n]) + {rows[n]};
    }
  }

  lemma SubsetOfSameSize(a: set<Row>, b: set<Row>)
    requires a <= b && |a| == |b|
    ensures a == b
  {
    assert b == a + (b - a);
    assert |b - a| == 0;
  }

  /**
  A surface with an announced total: when every page is drawn from one fixed set of `total` rows with
  distinct identities, whatever their order on the pages, a successful read is that whole set, each row once.
  */
  lemma SuccessIsTheWholeSet(surface: Surface, broker: Broker, universe: set<Row>, known: set<int>)
    requires !surface.isList && DrawsFrom(broker, universe)
    requires forall k, offset :: broker(k, offset).Reply? ==> broker(k, offset).total == Some(|universe|)
    requires FetchAll(surface, broker, known).Ok?
    ensures var rows := FetchAll(surface, broker, known).value.rows;
            SetOf(rows) == universe && |rows| == |universe| && Distinct(rows)
  {
    FetchedFacts(surface, broker, universe, known, Progress([], known, None), 1);
    var rows := FetchAll(surface, broker, known).value.rows;
    SizeOfDistinct(rows);
    SubsetOfSameSize(SetOf(rows), universe);
  }

  /** Page `index` of `s` at `offset`. */
  function PageOf(s: seq<Row>, offset: nat, size: nat): seq<Row> {
    if offset >= |s| then [] else s[offset..if offset + size < |s| then offset + size else |s|]
  }

  /** A broker whose listing `s` does not change during the read. */
  ghost predicate Stable(surface: Surface, broker: Broker, s: seq<Row>) {
    forall index: nat, offset: nat :: 1 <= index && (surface.isList || offset == (index - 1) * surface.pageSize) ==>
      broker(index, offset) == Reply(Rows(PageOf(s, offset, surface.pageSize)),
        if surface.isList then None else Some(|s|))
  }

  lemma {:induction false} FreshRowsAreNoted(strict: bool, seen: set<int>, rows: seq<Row>)
    requires Identified(rows) && Distinct(rows) && IdsOf(rows) !! seen
    ensures SeenAfter(strict, seen, rows) == Some(seen + IdsOf(rows))
  {
    if rows != [] {
      var n := |rows| - 1;
      assert forall i :: 0 <= i < n ==> rows[..n][i] == rows[i];
      assert rows[n].identity.value in IdsOf(rows);
      assert IdsOf(rows) == IdsOf(rows[..n]) + {rows[n].identity.value};
      assert forall i :: 0 <= i < n ==> rows[i].identity != rows[n].identity;
      FreshRowsAreNoted(strict, seen, rows[..n]);
      assert seen + IdsOf(rows[..n]) + {rows[n].identity.value} == seen + IdsOf(rows);
    } else {
      assert IdsOf(rows) == {} && seen + {} == seen;
    }
  }

  lemma SlicesAreApart(s: seq<Row>, offset: nat, end: nat)
    requires offset <= end <= |s| && Identified(s) && Distinct(s)
    ensures IdsOf(s[..offset]) !! IdsOf(s[offset..end])
    ensures IdsOf(s[..offset]) <= IdsOf(s) && IdsOf(s[offset..end]) <= IdsOf(s)
  {
    var a, b := s[..offset], s[offset..end];
    assert forall i :: 0 <= i < |a| ==> a[i] == s[i];
    assert forall i :: 0 <= i < |b| ==> b[i] == s[offset + i];
    forall x | x in IdsOf(b) ensures x in IdsOf(s) && x !in IdsOf(a) {
      var i :| 0 <= i < |b| && b[i].identity == Some(x);
      assert s[offset + i].identity == Some(x);
      assert forall j :: 0 <= j < |a| ==> a[j].identity != s[offset + i].identity;
    }
  }

  /** The rows of s[offset..end] are new after s[..offset]. */
  lemma NextSliceIsFresh(strict: bool, known: set<int>, s: seq<Row>, offset: nat, end: nat)
    requires offset <= end <= |s| && Identified(s) && Distinct(s) && IdsOf(s) !! known
    ensures SeenAfter(strict, known + IdsOf(s[..offset]), s[offset..end]) == Some(known + IdsOf(s[..end]))
    ensures s[..offset] + s[offset..end] == s[..end]
  {
    var a, b := s[..offset], s[offset..end];
    SlicesAreApart(s, offset, end);
    assert Identified(a) && Distinct(a) && Identified(b) && Distinct(b);
    FreshRowsAreNoted(strict, known + IdsOf(a), b);
    JoinDistinct(a, b);
    assert a + b == s[..end];
    hide IdsOf;
    hide SeenAfter;
    assert known + IdsOf(a) + IdsOf(b) == known + (IdsOf(a) + IdsOf(b));
  }

  lemma NextPage(index: nat, size: nat)
    requires 1 <= index
    ensures (index - 1) * size + size == index * size
    ensures (MAX_HISTORY_PAGES + 1 - index) * size == size + (MAX_HISTORY_PAGES - index) * size
  {
  }

  /** The progress after the first `n` rows of a listing. */
  function ReadUpTo(s: seq<Row>, known: set<int>, n: nat, locked: Option<nat>): Progress
    requires n <= |s|
  {
    Progress(s[..n], known + IdsOf(s[..n]), locked)
  }

  lemma StableReply(surface: Surface, broker: Broker, s: seq<Row>, offset: nat, index: nat)
    requires Stable(surface, broker, s) && 1 <= index && offset == (index - 1) * surface.pageSize
    ensures broker(index, offset) ==
            Reply(Rows(PageOf(s, offset, surface.pageSize)), if surface.isList then None else Some(|s|))
  {
  }

  /** One page of a stable listing: it ends the read, or adds the next slice. */
  lemma StablePage(surface: Surface, broker: Broker, s: seq<Row>, known: set<int>, locked: Option<nat>, offset: nat,
                   index: nat)
    requires Stable(surface, broker, s) && surface.pageSize > 0
    requires Identified(s) && Distinct(s) && IdsOf(s) !! known
    requires 1 <= index && offset == (index - 1) * surface.pageSize <= |s|
    requires locked in {None, Some(|s|)} && (!surface.isList && index > 1 ==> offset < |s|)
    ensures var end := offset + surface.pageSize;
            OnPage(surface, ReadUpTo(s, known, offset, locked), broker(index, offset)) ==
            if (if surface.isList then end <= |s| else end < |s|) then
              More(ReadUpTo(s, known, end, if surface.isList then None else Some(|s|)))
            else Finished(Ok(Fetched(s, known + IdsOf(s))))
  {
    hide Stable;
    hide SeenAfter;
    hide IdsOf;
    hide Identified;
    hide Distinct;
    StableReply(surface, broker, s, offset, index);
    var size := surface.pageSize;
    var end := if offset + size < |s| then offset + size else |s|;
    assert PageOf(s, offset, size) == s[offset..end];
    NextSliceIsFresh(surface.strict, known, s, offset, end);
    assert s[..|s|] == s;
  }

  /** From page `index` on a stable listing is read to its end if the remaining pages have room for it. */
  lemma {:induction false} StableRead(surface: Surface, broker: Broker, s: seq<Row>, known: set<int>,
                                      locked: Option<nat>, offset: nat, index: nat)
    requires Stable(surface, broker, s) && surface.pageSize > 0
    requires Identified(s) && Distinct(s) && IdsOf(s) !! known
    requires 1 <= index <= MAX_HISTORY_PAGES + 1 && offset == (index - 1) * surface.pageSize <= |s|
    requires locked in {None, Some(|s|)} && (!surface.isList && index > 1 ==> offset < |s|)
    ensures var room := (MAX_HISTORY_PAGES + 1 - index) * surface.pageSize;
            Fetch(surface, broker, ReadUpTo(s, known, offset, locked), index) ==
            if (if surface.isList then |s| - offset < room else |s| - offset <= room && index <= MAX_HISTORY_PAGES) then
              Ok(Fetched(s, known + IdsOf(s)))
            else Err("balance_history_incomplete")
    decreases MAX_HISTORY_PAGES + 1 - index
  {
    hide OnPage;
    hide IdsOf;
    hide Stable;
    hide Identified;
    hide Distinct;
    if index <= MAX_HISTORY_PAGES {
      var end := offset + surface.pageSize;
      StablePage(surface, broker, s, known, locked, offset, index);
      assert |s[..offset]| == offset;
      NextPage(index, surface.pageSize);
      RoomIsPositive(index, surface.pageSize);
      if if surface.isList then end <= |s| else end < |s| {
        StableRead(surface, broker, s, known, if surface.isList then None else Some(|s|), end, index + 1);
      }
    }
  }

  lemma RoomIsPositive(index: nat, size: nat)
    requires index <= MAX_HISTORY_PAGES
    ensures (MAX_HISTORY_PAGES - index) * size >= 0
  {
  }

  /**
  A listing that does not change during the read is returned as it is exactly when it fits the page
  limit: 20 pages for a surface with a total, strictly less for a list surface, which needs a short page.
  */
  lemma StableListingIsReadIff(surface: Surface, broker: Broker, s: seq<Row>, known: set<int>)
    requires Stable(surface, broker, s) && surface.pageSize > 0
    requires Identified(s) && Distinct(s) && IdsOf(s) !! known
    ensures FetchAll(surface, broker, known).Ok? <==>
            if surface.isList then |s| < MAX_HISTORY_PAGES * surface.pageSize
              else |s| <= MAX_HISTORY_PAGES * surface.pageSize
    ensures FetchAll(surface, broker, known).Ok? ==> FetchAll(surface, broker, known).value.rows == s
  {
    assert s[..0] == [] && known + IdsOf(s[..0]) == known;
    StableRead(surface, broker, s, known, None, 0, 1);
  }
}

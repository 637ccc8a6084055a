/**
Paged surfaces (Paging.dfy) and day windows (Windows.dfy) from outside: exactly which answers of the broker make
a read succeed, and what it then returns.
*/
module SurfaceReads {
  import opened Outcomes
  import opened Paging

  /** The pages of a read put together. */
  function Joined(pages: seq<seq<Row>>): seq<Row> {
    if pages == [] then [] else Joined(pages[..|pages| - 1]) + pages[|pages| - 1]
  }

  /**
  The broker's reply carries these rows; where totals are announced, with that total, and an absent list will do
  if it is zero.
  */
  predicate Carries(surface: Surface, reply: Response, rows: seq<Row>, total: nat) {
    && reply.Reply?
    && (surface.isList || reply.total == Some(total))
    && (reply.body == Rows(rows) || (!surface.isList && reply.body == Absent && total == 0 && rows == []))
  }

  /** No two rows carry the same identity, none one that was seen before, and a strict surface lacks none. */
  ghost predicate Identities(strict: bool, before: set<int>, rows: seq<Row>) {
    && (forall j, k :: 0 <= j < k < |rows| && rows[j].identity.Some? ==> rows[j].identity != rows[k].identity)
    && forall row :: row in rows ==> if row.identity == None then !strict else row.identity.value !in before
  }

  function IdentitiesOf(rows: seq<Row>): set<int> {
    set k | 0 <= k < |rows| && rows[k].identity != None :: rows[k].identity.value
  }

  lemma IdentitiesOne(strict: bool, before: set<int>, rows: seq<Row>)
    requires rows != []
    ensures var n, last := |rows| - 1, rows[|rows| - 1];
            Identities(strict, before, rows) <==>
              && Identities(strict, before, rows[..n])
              && (if last.identity == None then !strict
                  else last.identity.value !in before && last.identity.value !in IdentitiesOf(rows[..n]))
    ensures var n, last := |rows| - 1, rows[|rows| - 1];
            IdentitiesOf(rows) == IdentitiesOf(rows[..n])
              + (if last.identity == None then {} else {last.identity.value})
  {
    var n, last := |rows| - 1, rows[|rows| - 1];
    var init := rows[..n];
    assert rows == init + [last];
    assert forall k :: 0 <= k < n ==> init[k] == rows[k];
    if last.identity.Some? && last.identity.value in IdentitiesOf(init) {
      var k :| 0 <= k < n && init[k].identity != None && init[k].identity.value == last.identity.value;
      assert rows[k].identity == rows[n].identity;
    }
  }

  /** The identities of a page are noted exactly when they are in order. */
  lemma {:induction false} SeenIff(strict: bool, seen: set<int>, rows: seq<Row>)
    ensures SeenAfter(strict, seen, rows)
            == if Identities(strict, seen, rows) then Some(seen + IdentitiesOf(rows)) else None
    decreases |rows|
  {
    if rows == [] {
      assert IdentitiesOf(rows) == {} && seen + {} == seen;
    } else {
      SeenIff(strict, seen, rows[..|rows| - 1]);
      IdentitiesOne(strict, seen, rows);
      var last, before := rows[|rows| - 1], IdentitiesOf(rows[..|rows| - 1]);
      assert before + {} == before;
      if last.identity.Some? {
        assert seen + (before + {last.identity.value}) == seen + before + {last.identity.value};
      }
      hide Identities;
      hide IdentitiesOf;
    }
  }

  /** After this page there is another: it is full and, where totals are announced, not empty and not the rest. */
  predicate GoesOn(surface: Surface, page: seq<Row>, sofar: nat, total: nat) {
    |page| >= surface.pageSize && (surface.isList || (page != [] && sofar < total))
  }

  /** This page is the last: it is short or, where totals are announced, completes them. */
  predicate Ends(surface: Surface, page: seq<Row>, sofar: nat, total: nat) {
    if surface.isList then |page| < surface.pageSize else sofar == total
  }

  /** Page k (from 0) of a read: what the broker answers to its number and offset, and whether it goes on. */
  predicate IsPage(surface: Surface, broker: Broker, pages: seq<seq<Row>>, total: nat, k: nat)
    requires k < |pages|
  {
    var sofar := |Joined(pages[..k + 1])|;
    && Carries(surface, broker(k + 1, |Joined(pages[..k])|), pages[k], total)
    && if k == |pages| - 1 then Ends(surface, pages[k], sofar, total) else GoesOn(surface, pages[k], sofar, total)
  }

  /** A complete read of at most 20 pages. */
  ghost predicate IsRead(surface: Surface, broker: Broker, seen: set<int>, pages: seq<seq<Row>>, total: nat) {
    && 1 <= |pages| <= 20 && Identities(surface.strict, seen, Joined(pages))
    && forall k :: 0 <= k < |pages| ==> IsPage(surface, broker, pages, total, k)
  }

  /** Where the loop stands before page k. */
  function Before(surface: Surface, seen: set<int>, pages: seq<seq<Row>>, total: nat, k: nat): Progress
    requires k <= |pages|
  {
    var rows := Joined(pages[..k]);
    Progress(rows, seen + IdentitiesOf(rows), if k == 0 || surface.isList then None else Some(total))
  }

  lemma JoinedOne(pages: seq<seq<Row>>, k: nat)
    requires k < |pages|
    ensures Joined(pages[..k + 1]) == Joined(pages[..k]) + pages[k]
  {
    assert pages[..k + 1][..k] == pages[..k];
  }

  lemma IdentitiesOfBoth(strict: bool, seen: set<int>, a: seq<Row>, b: seq<Row>)
    ensures IdentitiesOf(a + b) == IdentitiesOf(a) + IdentitiesOf(b)
    ensures Identities(strict, seen, a + b) <==>
            Identities(strict, seen, a) && Identities(strict, seen + IdentitiesOf(a), b)
  {
    forall x | x in IdentitiesOf(a) ensures x in IdentitiesOf(a + b) {
      var k :| 0 <= k < |a| && a[k].identity == Some(x);
      assert (a + b)[k] == a[k];
    }
    forall x | x in IdentitiesOf(b) ensures x in IdentitiesOf(a + b) {
      var k :| 0 <= k < |b| && b[k].identity == Some(x);
      assert (a + b)[|a| + k] == b[k];
    }
    if Identities(strict, seen, a + b) {
      BothAreInOrder(strict, seen, a, b);
    }
    if Identities(strict, seen, a) && Identities(strict, seen + IdentitiesOf(a), b) {
      TogetherInOrder(strict, seen, a, b);
    }
  }

  lemma BothAreInOrder(strict: bool, seen: set<int>, a: seq<Row>, b: seq<Row>)
    requires Identities(strict, seen, a + b)
    ensures Identities(strict, seen, a) && Identities(strict, seen + IdentitiesOf(a), b)
  {
    var all := a + b;
    assert forall k :: 0 <= k < |a| ==> all[k] == a[k];
    assert forall k :: 0 <= k < |b| ==> all[|a| + k] == b[k];
    forall row | row in a ensures row in all {
    }
    forall row | row in b
      ensures if row.identity == None then !strict else row.identity.value !in seen + IdentitiesOf(a)
    {
      var k :| 0 <= k < |b| && b[k] == row;
      assert row in all;
      assert forall j :: 0 <= j < |a| && a[j].identity.Some? ==> all[j].identity != all[|a| + k].identity;
    }
  }

  lemma TogetherInOrder(strict: bool, seen: set<int>, a: seq<Row>, b: seq<Row>)
    requires Identities(strict, seen, a) && Identities(strict, seen + IdentitiesOf(a), b)
    ensures Identities(strict, seen, a + b)
  {
    var all := a + b;
    forall j, k | 0 <= j < k < |all| && all[j].identity.Some? ensures all[j].identity != all[k].identity {
      if j < |a| <= k {
        assert b[k - |a|] in b && a[j].identity.value in IdentitiesOf(a);
      }
    }
  }

  /** The rows of one reply are taken exactly as it carries them. */
  lemma RowsIff(surface: Surface, reply: Response, rows: seq<Row>, total: nat)
    requires reply.Reply? && (surface.isList || reply.total == Some(total))
    ensures RowsOf(surface, reply) == Some(rows) <==> Carries(surface, reply, rows, total)
  {
  }

  /** A page of a complete read is taken, and the loop goes on or ends as the page says. */
  lemma PageIsTaken(surface: Surface, broker: Broker, seen: set<int>, pages: seq<seq<Row>>, total: nat, k: nat)
    requires k < |pages| && IsPage(surface, broker, pages, total, k)
    requires Identities(surface.strict, seen, Joined(pages[..k + 1]))
    ensures OnPage(surface, Before(surface, seen, pages, total, k), broker(k + 1, |Joined(pages[..k])|))
            == if k == |pages| - 1 then
                 Finished(Ok(Fetched(Joined(pages[..k + 1]), seen + IdentitiesOf(Joined(pages[..k + 1])))))
               else More(Before(surface, seen, pages, total, k + 1))
  {
    hide Identities;
    hide IdentitiesOf;
    hide Joined;
    var done := Joined(pages[..k]);
    var reply := broker(k + 1, |done|);
    JoinedOne(pages, k);
    RowsIff(surface, reply, pages[k], total);
    IdentitiesOfBoth(surface.strict, seen, done, pages[k]);
    SeenIff(surface.strict, seen + IdentitiesOf(done), pages[k]);
    assert seen + (IdentitiesOf(done) + IdentitiesOf(pages[k])) == seen + IdentitiesOf(done) + IdentitiesOf(pages[k]);
  }

  lemma IdentitiesOfPart(strict: bool, seen: set<int>, pages: seq<seq<Row>>, k: nat)
    requires k <= |pages| && Identities(strict, seen, Joined(pages))
    ensures Identities(strict, seen, Joined(pages[..k]))
    decreases |pages| - k
  {
    hide Identities;
    if k < |pages| {
      IdentitiesOfPart(strict, seen, pages, k + 1);
      JoinedOne(pages, k);
      IdentitiesOfBoth(strict, seen, Joined(pages[..k]), pages[k]);
    } else {
      assert pages[..k] == pages;
    }
  }

  /** A complete read succeeds, from wherever the loop stands in it. */
  lemma {:induction false} ReadSucceeds(surface: Surface, broker: Broker, seen: set<int>, pages: seq<seq<Row>>,
                                        total: nat, k: nat)
    requires IsRead(surface, broker, seen, pages, total) && k < |pages|
    ensures Fetch(surface, broker, Before(surface, seen, pages, total, k), k + 1)
            == Ok(Fetched(Joined(pages), seen + IdentitiesOf(Joined(pages))))
    decreases |pages| - k
  {
    IdentitiesOfPart(surface.strict, seen, pages, k + 1);
    PageIsTaken(surface, broker, seen, pages, total, k);
    hide OnPage;
    hide IsPage;
    hide Identities;
    if k < |pages| - 1 {
      ReadSucceeds(surface, broker, seen, pages, total, k + 1);
    } else {
      assert pages[..k + 1] == pages;
    }
  }

  /** What a page that the loop takes must have carried. */
  lemma TakenPage(surface: Surface, p: Progress, reply: Response) returns (rows: seq<Row>, total: nat)
    requires var turn := OnPage(surface, p, reply); turn.More? || turn.result.Ok?
    ensures Carries(surface, reply, rows, total) && (p.locked.Some? && !surface.isList ==> p.locked == Some(total))
    ensures Identities(surface.strict, p.seen, rows)
    ensures var turn, sofar := OnPage(surface, p, reply), |p.collected + rows|;
            match turn
            case More(next) =>
              && GoesOn(surface, rows, sofar, total)
              && next == Progress(p.collected + rows, p.seen + IdentitiesOf(rows),
                                  if surface.isList then None else Some(total))
            case Finished(result) =>
              && Ends(surface, rows, sofar, total)
              && result == Ok(Fetched(p.collected + rows, p.seen + IdentitiesOf(rows)))
  {
    rows := RowsOf(surface, reply).value;
    total := if surface.isList then 0 else reply.total.value;
    SeenIff(surface.strict, p.seen, rows);
    hide Identities;
    hide IdentitiesOf;
    hide SeenAfter;
  }

  /** The loop has read these pages and goes on. */
  ghost predicate Underway(surface: Surface, broker: Broker, seen: set<int>, done: seq<seq<Row>>, total: nat) {
    && Identities(surface.strict, seen, Joined(done))
    && forall k :: 0 <= k < |done| ==>
         && Carries(surface, broker(k + 1, |Joined(done[..k])|), done[k], total)
         && GoesOn(surface, done[k], |Joined(done[..k + 1])|, total)
  }

  lemma OnePageMore(surface: Surface, broker: Broker, seen: set<int>, done: seq<seq<Row>>, page: seq<Row>, total: nat)
    requires Underway(surface, broker, seen, done, total)
    requires Carries(surface, broker(|done| + 1, |Joined(done)|), page, total)
    requires Identities(surface.strict, seen + IdentitiesOf(Joined(done)), page)
    ensures Joined(done + [page]) == Joined(done) + page
    ensures Identities(surface.strict, seen, Joined(done + [page]))
    ensures IdentitiesOf(Joined(done + [page])) == IdentitiesOf(Joined(done)) + IdentitiesOf(page)
    ensures GoesOn(surface, page, |Joined(done + [page])|, total) ==>
              Underway(surface, broker, seen, done + [page], total)
    ensures Ends(surface, page, |Joined(done + [page])|, total) && |done| < 20 ==>
              IsRead(surface, broker, seen, done + [page], total)
  {
    hide Identities;
    hide IdentitiesOf;
    hide Joined;
    hide Carries;
    hide GoesOn;
    hide Ends;
    var pages := done + [page];
    SamePrefix(done, page);
    JoinedOne(pages, |done|);
    IdentitiesOfBoth(surface.strict, seen, Joined(done), page);
  }

  lemma SamePrefix(done: seq<seq<Row>>, page: seq<Row>)
    ensures var pages := done + [page];
            && pages[..|done| + 1] == pages
            && (forall k {:trigger done[..k]} :: 0 <= k <= |done| ==> pages[..k] == done[..k])
            && (forall k {:trigger pages[..k]} :: 0 <= k <= |done| ==> pages[..k] == done[..k])
            && done[..|done|] == done
  {
  }

  /** A read that succeeds was a complete one. */
  lemma {:induction false} FetchedIsRead(surface: Surface, broker: Broker, seen: set<int>, done: seq<seq<Row>>,
                                         known: nat, p: Progress)
      returns (pages: seq<seq<Row>>, total: nat)
    requires Underway(surface, broker, seen, done, known)
    requires p == Before(surface, seen, done, known, |done|)
    requires Fetch(surface, broker, p, |done| + 1).Ok?
    ensures IsRead(surface, broker, seen, pages, total)
    ensures Fetch(surface, broker, p, |done| + 1)
            == Ok(Fetched(Joined(pages), seen + IdentitiesOf(Joined(pages))))
    decreases 21 - |done|
  {
    hide OnPage;
    hide Identities;
    hide IdentitiesOf;
    hide Joined;
    hide Carries;
    hide GoesOn;
    hide Ends;
    hide Underway;
    hide IsRead;
    assert done[..|done|] == done;
    var reply := broker(|done| + 1, |p.collected|);
    var page, announced := TakenPage(surface, p, reply);
    total := announced;
    if done == [] {
      NothingUnderway(surface, broker, seen, total);
    } else if !surface.isList {
      assert total == known;
    }
    FreeTotal(surface, broker, seen, done, known, total);
    OnePageMore(surface, broker, seen, done, page, total);
    pages := done + [page];
    assert seen + (IdentitiesOf(Joined(done)) + IdentitiesOf(page)) == p.seen + IdentitiesOf(page);
    match OnPage(surface, p, reply)
    case Finished(result) =>
    case More(next) =>
      assert pages[..|pages|] == pages;
      pages, total := FetchedIsRead(surface, broker, seen, done + [page], announced, next);
  }

  lemma NothingUnderway(surface: Surface, broker: Broker, seen: set<int>, total: nat)
    ensures Underway(surface, broker, seen, [], total)
  {
  }

  /** Where no totals are announced, any will do. */
  lemma FreeTotal(surface: Surface, broker: Broker, seen: set<int>, done: seq<seq<Row>>, a: nat, b: nat)
    requires Underway(surface, broker, seen, done, a) && (surface.isList || done == [] || a == b)
    ensures Underway(surface, broker, seen, done, b)
  {
    hide Identities;
    hide Joined;
  }

  /**
  A surface is read exactly when some at most 20 pages of the broker make a complete read, each asked for by
  its number and the rows before it; it then returns those rows and every identity seen.
  */
  lemma FetchedIff(surface: Surface, broker: Broker, seen: set<int>)
    ensures FetchAll(surface, broker, seen).Ok? <==>
            exists pages, total :: IsRead(surface, broker, seen, pages, total)
    ensures forall pages, total :: IsRead(surface, broker, seen, pages, total) ==>
              FetchAll(surface, broker, seen) == Ok(Fetched(Joined(pages), seen + IdentitiesOf(Joined(pages))))
  {
    forall pages, total | IsRead(surface, broker, seen, pages, total)
      ensures FetchAll(surface, broker, seen) == Ok(Fetched(Joined(pages), seen + IdentitiesOf(Joined(pages))))
    {
      ReadSucceeds(surface, broker, seen, pages, total, 0);
      NothingBefore(surface, seen, pages, total);
    }
    if FetchAll(surface, broker, seen).Ok? {
      NothingUnderway(surface, broker, seen, 0);
      NothingBefore(surface, seen, [], 0);
      var pages, total := FetchedIsRead(surface, broker, seen, [], 0, Progress([], seen, None));
    }
    hide IsRead;
    hide Fetch;
  }

  lemma NothingBefore(surface: Surface, seen: set<int>, pages: seq<seq<Row>>, total: nat)
    ensures Before(surface, seen, pages, total, 0) == Progress([], seen, None)
  {
    assert pages[..0] == [] && IdentitiesOf([]) == {} && seen + {} == seen;
  }
}

module TradeReads {
  import opened Outcomes
  import opened Windows

  /** The rows of some windows, one page after the other. */
  function RowsIn(broker: Broker, windows: seq<Window>): seq<Trade> {
    if windows == [] then []
    else
      var page := broker(windows[0].from, windows[0].to);
      (if page.Some? then page.value else []) + RowsIn(broker, windows[1..])
  }

  /** Rows with one symbol and id have one content. */
  ghost predicate Agree(rows: seq<Trade>) {
    forall x, y :: x in rows && y in rows && x.symbol == y.symbol && x.id == y.id ==> x == y
  }

  ghost predicate Answered(broker: Broker, windows: seq<Window>) {
    forall w :: w in windows ==> broker(w.from, w.to).Some? && |broker(w.from, w.to).value| < 1000
  }

  /** Each symbol and id occurs once. */
  predicate OnceEach(rows: seq<Trade>) {
    forall j, k :: 0 <= j < k < |rows| ==> (rows[j].symbol, rows[j].id) != (rows[k].symbol, rows[k].id)
  }

  lemma OnceEachIff(rows: seq<Trade>)
    ensures NoRepeats(rows) <==> OnceEach(rows)
    ensures NoRepeats(rows) ==> Agree(rows)
  {
  }

  lemma {:induction false} AddedIff(kept: seq<Trade>, page: seq<Trade>)
    requires NoRepeats(kept)
    ensures AddTrades(kept, page).Some? <==> Agree(kept + page)
  {
    hide FindTrade;
    if page == [] {
      OnceEachIff(kept);
      assert kept + page == kept;
    } else {
      var n, last := |page| - 1, page[|page| - 1];
      AddedIff(kept, page[..n]);
      var before := AddTrades(kept, page[..n]);
      assert kept + page == kept + page[..n] + [last];
      if before.Some? {
        AddedTrades(kept, page[..n]);
        FoundTrade(before.value, last);
        SameMembers(kept, page[..n], before.value);
        hide NoRepeats;
        OneMoreAgrees(kept + page[..n], before.value, last);
      }
    }
  }

  lemma SameMembers(kept: seq<Trade>, page: seq<Trade>, all: seq<Trade>)
    requires SetOf(all) == SetOf(kept) + SetOf(page)
    ensures forall t :: t in all <==> t in kept + page
  {
    forall t ensures t in all <==> t in kept + page {
      assert t in all <==> t in SetOf(all);
    }
  }

  lemma OneMoreAgrees(rows: seq<Trade>, all: seq<Trade>, last: Trade)
    requires Agree(rows) && forall t :: t in all <==> t in rows
    requires FindTrade(all, last).Some? ==>
               FindTrade(all, last).value in all && SameKey(FindTrade(all, last).value, last)
    requires FindTrade(all, last).None? ==> forall x :: x in all ==> !SameKey(x, last)
    ensures Agree(rows + [last]) <==> FindTrade(all, last) in {None, Some(last)}
  {
    hide FindTrade;
    if FindTrade(all, last).Some? {
      var x := FindTrade(all, last).value;
      assert x in rows + [last] && last in rows + [last];
    }
  }

  lemma PartAgrees(a: seq<Trade>, b: seq<Trade>)
    requires Agree(a + b)
    ensures Agree(a)
  {
    assert forall x :: x in a ==> x in a + b;
  }

  /** Whether rows agree depends on which they are alone. */
  lemma AgreeBySet(a: seq<Trade>, b: seq<Trade>)
    requires forall t :: t in a <==> t in b
    ensures Agree(a) <==> Agree(b)
  {
  }

  /** The windows from one moment on are read exactly when each is answered and all rows agree. */
  lemma {:induction false} ReadFromIff(broker: Broker, kept: seq<Trade>, start: int, end: int)
    requires NoRepeats(kept)
    ensures var windows := DayWindows(start, end);
            var r := ReadTrades(broker, kept, start, end);
            && (r.Some? <==> Answered(broker, windows) && Agree(kept + RowsIn(broker, windows)))
            && (r.Some? ==>
                  OnceEach(r.value) && forall t :: t in r.value <==> t in kept || t in RowsIn(broker, windows))
    decreases end - start + 1
  {
    hide NoRepeats;
    hide Agree;
    hide AddTrades;
    hide OnceEach;
    OnceEachIff(kept);
    if start > end {
      assert kept + RowsIn(broker, []) == kept;
    } else {
      var to := WindowEnd(start, end);
      var rest := DayWindows(to + 1, end);
      var windows := [Window(start, to)] + rest;
      assert windows[1..] == rest;
      AnsweredOne(broker, Window(start, to), rest);
      var page := broker(start, to);
      if page.Some? && |page.value| < 1000 {
        var rows := RowsIn(broker, rest);
        assert kept + RowsIn(broker, windows) == kept + page.value + rows;
        AddedIff(kept, page.value);
        var more := AddTrades(kept, page.value);
        if more.Some? {
          AddedTrades(kept, page.value);
          SameMembers(kept, page.value, more.value);
          ReadFromIff(broker, more.value, to + 1, end);
          AgreeBySet(more.value + rows, kept + page.value + rows);
        } else if Agree(kept + page.value + rows) {
          PartAgrees(kept + page.value, rows);
        }
      }
    }
  }

  lemma AnsweredOne(broker: Broker, w: Window, rest: seq<Window>)
    ensures Answered(broker, [w] + rest) <==>
              broker(w.from, w.to).Some? && |broker(w.from, w.to).value| < 1000 && Answered(broker, rest)
  {
    if Answered(broker, [w] + rest) {
      assert w in [w] + rest;
      forall x | x in rest ensures broker(x.from, x.to).Some? && |broker(x.from, x.to).value| < 1000 {
        assert x in [w] + rest;
      }
    }
  }

  /**
  A range of trades is read exactly when every day window is answered with less than a full page and rows of one
  symbol and id agree; it is then each of these rows, each key once.
  */
  lemma TradesReadIff(broker: Broker, start: int, end: int)
    ensures var windows := DayWindows(start, end);
            var r := ReadTrades(broker, [], start, end);
            && (r.Some? <==> Answered(broker, windows) && Agree(RowsIn(broker, windows)))
            && (r.Some? ==> OnceEach(r.value) && forall t :: t in r.value <==> t in RowsIn(broker, windows))
  {
    ReadFromIff(broker, [], start, end);
    assert [] + RowsIn(broker, DayWindows(start, end)) == RowsIn(broker, DayWindows(start, end));
    hide ReadTrades;
    hide DayWindows;
    hide RowsIn;
    hide Agree;
  }

  /** The counts of one name over some windows. */
  function Times(windows: seq<Window>, read: Window -> Option<Counts>, name: string): nat
    requires AllRead(windows, read)
  {
    if windows == [] then 0
    else
      (if name in read(windows[0]).value then read(windows[0]).value[name] else 0) + Times(windows[1..], read, name)
  }

  lemma {:induction false} LastTimes(windows: seq<Window>, read: Window -> Option<Counts>, name: string)
    requires windows != [] && AllRead(windows, read)
    ensures var last := read(windows[|windows| - 1]).value;
            Times(windows, read, name)
            == Times(windows[..|windows| - 1], read, name) + (if name in last then last[name] else 0)
    decreases |windows|
  {
    if |windows| > 1 {
      LastTimes(windows[1..], read, name);
      assert windows[1..][..|windows| - 2] == windows[..|windows| - 1][1..];
    }
  }

  /** The loop adds up the counts of every chunk, name by name. */
  lemma {:induction false} CountsAddUp(windows: seq<Window>, read: Window -> Option<Counts>, name: string)
    requires AllRead(windows, read)
    ensures var sum := SumCounts(windows, read);
            (if name in sum then sum[name] else 0) == Times(windows, read, name)
    ensures name in SumCounts(windows, read) <==> exists w :: w in windows && name in read(w).value
    decreases |windows|
  {
    if windows != [] {
      var n := |windows| - 1;
      CountsAddUp(windows[..n], read, name);
      LastTimes(windows, read, name);
      assert windows == windows[..n] + [windows[n]];
    }
  }
}

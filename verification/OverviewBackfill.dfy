/**
 * The filtered backfill. A status change below page one does not move the list's
 * cursor, so before loading more history the console replays the loaded range
 * from its first cursor to its old boundary, page by page and at most fifty pages.
 */
module OverviewBackfill {
  import opened Basics
  import opened Overview

  datatype Warning = RepeatedCursor | MissingCursor | PageLimit

  /** The server: what it answers to the i-th request of a replay, for a cursor. */
  type Fetch = (nat, Cursor) -> PageAnswer

  datatype Replayed = Replayed(
    pagination: Pagination, items: seq<Row>, requested: seq<Cursor>,
    warning: Option<Warning>, failure: Option<PageAnswer>)

  /** The page ends at the old boundary's workspace, or past its sort position. */
  predicate BoundaryReached(items: seq<Row>, b: Key)
  {
    items != [] && AtOrPast(KeyOf(Last(items)), b)
  }

  predicate AtOrPast(k: Key, b: Key) { k.id == b.id || Older(k, b) }

  predicate Older(k: Key, c: Key)
  {
    k.createdAt < c.createdAt || (k.createdAt == c.createdAt && k.id < c.id)
  }

  predicate Repeats(page: Page, asked: seq<Cursor>)
  {
    page.hasMore && page.next.Some? && page.next.value in asked
  }

  function Progress(p: Pagination, page: Page, asked: seq<Cursor>): Pagination
  {
    p.(nextCursor := if page.hasMore && !Repeats(page, asked) then page.next else None,
       boundary := if page.items == [] then p.boundary else LastKey(page.items),
       needsBackfill := false, complete := !page.hasMore, fetched := ToSet(asked))
  }

  function Replay(p: Pagination, b: Key, fetch: Fetch, i: nat, cursor: Cursor, done: Replayed): Replayed
    decreases OVERVIEW_LIST_MAX_PAGES - i
  {
    if i >= OVERVIEW_LIST_MAX_PAGES then done
    else if cursor in done.requested then
      done.(warning := Some(RepeatedCursor),
            pagination := p.(nextCursor := None, needsBackfill := false, fetched := ToSet(done.requested)))
    else
      var asked := done.requested + [cursor];
      match fetch(i, cursor)
      case Denied => done.(requested := asked, failure := Some(Denied))
      case Outage => done.(requested := asked, failure := Some(Outage))
      case Answered(page) =>
        var d := done.(pagination := Progress(p, page, asked), items := done.items + page.items, requested := asked);
        if !page.hasMore || BoundaryReached(page.items, b) then d
        else if page.next.None? then d.(warning := Some(MissingCursor))
        else if Repeats(page, asked) then d.(warning := Some(RepeatedCursor))
        else if i == OVERVIEW_LIST_MAX_PAGES - 1 then
          d.(warning := Some(PageLimit), pagination := d.pagination.(nextCursor := None))
        else Replay(p, b, fetch, i + 1, page.next.value, d)
  }

  function ReplayLoadedRange(p: Pagination, first: Cursor, b: Key, fetch: Fetch): Replayed
  {
    Replay(p, b, fetch, 0, first, Replayed(p, [], [], None, None))
  }

  /** The loop of the source. */
  method BackfillFilteredHistory(p: Pagination, first: Cursor, b: Key, fetch: Fetch) returns (r: Replayed)
    ensures r == ReplayLoadedRange(p, first, b, fetch)
  {
    r := Replayed(p, [], [], None, None);
    var cursor := first;
    for i := 0 to OVERVIEW_LIST_MAX_PAGES
      invariant ReplayLoadedRange(p, first, b, fetch) == Replay(p, b, fetch, i, cursor, r)
    {
      if cursor in r.requested {
        r := r.(warning := Some(RepeatedCursor),
                pagination := p.(nextCursor := None, needsBackfill := false, fetched := ToSet(r.requested)));
        return;
      }
      var asked := r.requested + [cursor];
      r := r.(requested := asked);
      var answer := fetch(i, cursor);
      if !answer.Answered? {
        r := r.(failure := Some(answer));
        return;
      }
      var page := answer.page;
      r := r.(items := r.items + page.items, pagination := Progress(p, page, asked));
      if !page.hasMore || BoundaryReached(page.items, b) {
        return;
      }
      if page.next.None? {
        r := r.(warning := Some(MissingCursor));
        return;
      }
      if Repeats(page, asked) {
        r := r.(warning := Some(RepeatedCursor));
        return;
      }
      cursor := page.next.value;
      if i == OVERVIEW_LIST_MAX_PAGES - 1 {
        r := r.(warning := Some(PageLimit), pagination := r.pagination.(nextCursor := None));
      }
    }
  }

  // ---------------------------------------------------------------- any server

  lemma {:induction false} ReplayRequests(p: Pagination, b: Key, fetch: Fetch, i: nat, cursor: Cursor, done: Replayed)
    requires Distinct(done.requested) && |done.requested| == i <= OVERVIEW_LIST_MAX_PAGES
    ensures var r := Replay(p, b, fetch, i, cursor, done);
      Distinct(r.requested) && |r.requested| <= OVERVIEW_LIST_MAX_PAGES
    decreases OVERVIEW_LIST_MAX_PAGES - i
  {
    if i < OVERVIEW_LIST_MAX_PAGES && cursor !in done.requested && fetch(i, cursor).Answered? {
      var asked, page := done.requested + [cursor], fetch(i, cursor).page;
      if page.next.Some? && i + 1 < OVERVIEW_LIST_MAX_PAGES {
        var d := done.(pagination := Progress(p, page, asked), items := done.items + page.items, requested := asked);
        ReplayRequests(p, b, fetch, i + 1, page.next.value, d);
      }
    }
  }

  /** Whatever the server answers, no cursor is requested twice and at most fifty are. */
  lemma ReplayIsBounded(p: Pagination, first: Cursor, b: Key, fetch: Fetch)
    ensures var r := ReplayLoadedRange(p, first, b, fetch);
      Distinct(r.requested) && |r.requested| <= OVERVIEW_LIST_MAX_PAGES
  {
    ReplayRequests(p, b, fetch, 0, first, Replayed(p, [], [], None, None));
  }

  // ---------------------------------------------------------------- a keyset pager

  ghost predicate Sorted(rows: seq<Row>)
  {
    forall i, j :: 0 <= i < j < |rows| ==> Older(KeyOf(rows[j]), KeyOf(rows[i]))
  }

  /** The rows the pager selects for a cursor. */
  function After(rows: seq<Row>, c: Cursor): seq<Row>
  {
    if rows == [] then []
    else if Older(KeyOf(rows[0]), c) then [rows[0]] + After(rows[1..], c)
    else After(rows[1..], c)
  }

  function Serve(rows: seq<Row>, c: Cursor): Page
  {
    var rest := After(rows, c);
    if |rest| > OVERVIEW_LIST_PAGE_SIZE
    then Page(rest[..OVERVIEW_LIST_PAGE_SIZE], true, Some(KeyOf(rest[OVERVIEW_LIST_PAGE_SIZE - 1])))
    else Page(rest, false, None)
  }

  function Pager(rows: seq<Row>): Fetch { (i, c) => Answered(Serve(rows, c)) }

  lemma {:induction false} AfterEverything(rows: seq<Row>, c: Cursor)
    requires forall r <- rows :: Older(KeyOf(r), c)
    ensures After(rows, c) == rows
  {
    if rows != [] {
      AfterEverything(rows[1..], c);
      assert rows == [rows[0]] + rows[1..];
    }
  }

  lemma {:induction false} AfterMembers(rows: seq<Row>, c: Cursor)
    ensures forall r: Row :: r in After(rows, c) <==> r in rows && Older(KeyOf(r), c)
    ensures Sorted(rows) ==> Sorted(After(rows, c))
  {
    if rows != [] {
      AfterMembers(rows[1..], c);
      assert rows == [rows[0]] + rows[1..];
      var rest := After(rows[1..], c);
      if Sorted(rows) {
        forall j | 0 <= j < |rest| ensures Older(KeyOf(rest[j]), KeyOf(rows[0])) {
          assert rest[j] in rest;
          assert rest[j] in rows[1..];
        }
      }
    }
  }

  lemma {:induction false} AfterOwnKey(rows: seq<Row>, n: nat)
    requires Sorted(rows) && 0 < n <= |rows|
    ensures After(rows, KeyOf(rows[n - 1])) == rows[n..]
  {
    assert rows[1..][n - 1..] == rows[n..];
    if n == 1 {
      AfterEverything(rows[1..], KeyOf(rows[0]));
    } else {
      AfterOwnKey(rows[1..], n - 1);
    }
  }

  /** The next cursor resumes exactly where the page ended. */
  lemma {:induction false} AfterResumes(rows: seq<Row>, c: Cursor, n: nat)
    requires Sorted(rows) && 0 < n <= |After(rows, c)|
    ensures After(rows, KeyOf(After(rows, c)[n - 1])) == After(rows, c)[n..]
  {
    if Older(KeyOf(rows[0]), c) {
      AfterEverything(rows, c);
      AfterOwnKey(rows, n);
    } else {
      AfterMembers(rows[1..], c);
      AfterResumes(rows[1..], c, n);
      var last := After(rows[1..], c)[n - 1];
      assert last in After(rows[1..], c);
      assert last in rows[1..];
    }
  }

  /** `n` pages into the replay of a keyset pager. */
  ghost predicate Replaying(rows: seq<Row>, first: Cursor, i: nat, cursor: Cursor, done: Replayed)
  {
    var all := After(rows, first);
    var n := OVERVIEW_LIST_PAGE_SIZE * i;
    && i < OVERVIEW_LIST_MAX_PAGES && n <= |all|
    && done.items == all[..n] && After(rows, cursor) == all[n..]
    && done.warning.None? && done.failure.None?
    && forall c <- done.requested :: Older(cursor, c)
  }

  /** What an ended replay promises. */
  ghost predicate Covers(r: Replayed, all: seq<Row>, b: Key)
  {
    && r.failure.None? && r.items <= all
    && (r.pagination.complete ==> r.items == all && r.pagination.nextCursor.None?)
    && (r.pagination.nextCursor.Some? ==> forall c <- r.pagination.fetched :: Older(r.pagination.nextCursor.value, c))
    && match r.warning
       case None =>
         r.pagination.complete ||
         (BoundaryReached(r.items, b) && r.pagination.nextCursor == LastKey(r.items) == r.pagination.boundary)
       case Some(w) =>
         && w == PageLimit && r.items < all && |r.items| == OVERVIEW_LIST_PAGE_SIZE * OVERVIEW_LIST_MAX_PAGES
         && !BoundaryReached(r.items, b) && r.pagination.nextCursor.None?
  }

  /** One more page: it starts where the last one ended, and its cursor is new. */
  lemma PageStep(rows: seq<Row>, first: Cursor, i: nat, cursor: Cursor, done: Replayed)
    requires Sorted(rows) && Replaying(rows, first, i, cursor, done)
    ensures var all, page := After(rows, first), Serve(rows, cursor);
      var n, asked := OVERVIEW_LIST_PAGE_SIZE * i, done.requested + [cursor];
      && cursor !in done.requested
      && n + |page.items| <= |all| && done.items + page.items == all[..n + |page.items|]
      && (!page.hasMore ==> n + |page.items| == |all|)
      && (page.hasMore ==>
            && |page.items| == OVERVIEW_LIST_PAGE_SIZE && n + OVERVIEW_LIST_PAGE_SIZE < |all|
            && page.next == LastKey(page.items) && !Repeats(page, asked)
            && After(rows, page.next.value) == all[n + OVERVIEW_LIST_PAGE_SIZE..]
            && forall c <- asked :: Older(page.next.value, c))
  {
    var all, page := After(rows, first), Serve(rows, cursor);
    var n := OVERVIEW_LIST_PAGE_SIZE * i;
    var rest := all[n..];
    assert rest[..|page.items|] == all[n..n + |page.items|];
    if page.hasMore {
      var last := rest[OVERVIEW_LIST_PAGE_SIZE - 1];
      assert last == all[n + OVERVIEW_LIST_PAGE_SIZE - 1];
      AfterResumes(rows, first, n + OVERVIEW_LIST_PAGE_SIZE);
      AfterMembers(rows, cursor);
      assert last in After(rows, cursor);
    }
  }

  lemma {:induction false} ReplayCovers(
    p: Pagination, b: Key, rows: seq<Row>, first: Cursor, i: nat, cursor: Cursor, done: Replayed)
    requires Sorted(rows) && Replaying(rows, first, i, cursor, done)
    ensures Covers(Replay(p, b, Pager(rows), i, cursor, done), After(rows, first), b)
    decreases OVERVIEW_LIST_MAX_PAGES - i
  {
    var page, asked := Serve(rows, cursor), done.requested + [cursor];
    var d := done.(pagination := Progress(p, page, asked), items := done.items + page.items, requested := asked);
    PageStep(rows, first, i, cursor, done);
    assert page.items != [] ==> Last(d.items) == Last(page.items);
    if page.hasMore && !BoundaryReached(page.items, b) && i + 1 < OVERVIEW_LIST_MAX_PAGES {
      ReplayCovers(p, b, rows, first, i + 1, page.next.value, d);
    }
  }

  lemma ReplayOfPagerCovers(p: Pagination, first: Cursor, b: Key, rows: seq<Row>)
    requires Sorted(rows)
    ensures Covers(ReplayLoadedRange(p, first, b, Pager(rows)), After(rows, first), b)
  {
    var done := Replayed(p, [], [], None, None);
    assert After(rows, first)[..0] == [];
    ReplayCovers(p, b, rows, first, 0, first, done);
  }

  /** A workspace's creation time never changes. */
  ghost predicate BoundaryStable(rows: seq<Row>, b: Key)
  {
    forall r <- rows :: r.id == b.id ==> r.createdAt == b.createdAt
  }

  /**
   * Against a keyset pager over fixed rows, a replay without a warning fetched
   * exactly the rows after the first cursor down to a boundary at or past the old
   * one, so no member of the loaded range is missed, and history resumes there.
   */
  lemma ReplayMissesNothing(p: Pagination, first: Cursor, b: Key, rows: seq<Row>)
    requires Sorted(rows) && BoundaryStable(rows, b)
    ensures var r := ReplayLoadedRange(p, first, b, Pager(rows));
      && r.items <= After(rows, first)
      && (r.warning.None? ==> forall x <- rows :: Older(KeyOf(x), first) && !Older(KeyOf(x), b) ==> x in r.items)
      && (r.warning.None? && !r.pagination.complete ==>
            r.pagination.nextCursor.Some?
            && r.items + After(rows, r.pagination.nextCursor.value) == After(rows, first))
      && (r.warning.None? && r.pagination.complete ==> r.items == After(rows, first))
  {
    var r, all := ReplayLoadedRange(p, first, b, Pager(rows)), After(rows, first);
    ReplayOfPagerCovers(p, first, b, rows);
    AfterMembers(rows, first);
    if r.warning.None? && !r.pagination.complete {
      var n := |r.items|;
      AfterResumes(rows, first, n);
      assert all == r.items + all[n..];
      var last := all[n - 1];
      assert last in all && last == Last(r.items);
      forall x | x in rows && Older(KeyOf(x), first) && !Older(KeyOf(x), b) ensures x in r.items {
        var j :| 0 <= j < |all| && all[j] == x;
        assert j < n;
      }
    }
  }

  /**
   * The page limit is the only warning such a pager can cause, and it is raised
   * exactly when five thousand rows do not reach the old boundary.
   */
  lemma ReplayWarnsExactlyAtLimit(p: Pagination, first: Cursor, b: Key, rows: seq<Row>)
    requires Sorted(rows) && BoundaryStable(rows, b)
    ensures var r := ReplayLoadedRange(p, first, b, Pager(rows));
      var all, limit := After(rows, first), OVERVIEW_LIST_PAGE_SIZE * OVERVIEW_LIST_MAX_PAGES;
      && (r.warning.None? || r.warning == Some(PageLimit))
      && (r.warning.Some? <==> |all| > limit && !AtOrPast(KeyOf(all[limit - 1]), b))
  {
    var r, all := ReplayLoadedRange(p, first, b, Pager(rows)), After(rows, first);
    var limit := OVERVIEW_LIST_PAGE_SIZE * OVERVIEW_LIST_MAX_PAGES;
    ReplayOfPagerCovers(p, first, b, rows);
    AfterMembers(rows, first);
    ReplayLength(p, b, Pager(rows), 0, first, Replayed(p, [], [], None, None), rows);
    if r.warning.None? && |all| > limit {
      var n := |r.items|;
      assert Last(r.items) == all[n - 1] && all[n - 1] in all;
      assert n <= limit;
      if n < limit { assert Older(KeyOf(all[limit - 1]), KeyOf(all[n - 1])); }
    }
  }

  lemma {:induction false} ReplayLength(
    p: Pagination, b: Key, fetch: Fetch, i: nat, cursor: Cursor, done: Replayed, rows: seq<Row>)
    requires fetch == Pager(rows) && i <= OVERVIEW_LIST_MAX_PAGES
    requires |done.items| <= OVERVIEW_LIST_PAGE_SIZE * i
    ensures |Replay(p, b, fetch, i, cursor, done).items| <= OVERVIEW_LIST_PAGE_SIZE * OVERVIEW_LIST_MAX_PAGES
    decreases OVERVIEW_LIST_MAX_PAGES - i
  {
    if i < OVERVIEW_LIST_MAX_PAGES && cursor !in done.requested {
      var asked, page := done.requested + [cursor], Serve(rows, cursor);
      assert |page.items| <= OVERVIEW_LIST_PAGE_SIZE;
      if page.next.Some? {
        var d := done.(pagination := Progress(p, page, asked), items := done.items + page.items, requested := asked);
        ReplayLength(p, b, fetch, i + 1, page.next.value, d, rows);
      }
    }
  }
}

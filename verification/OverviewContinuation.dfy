/**
 * Load More under a status filter, end to end: the replay, the decision whether
 * one more page is still needed, the merge into the list and the cursor kept for
 * the next request, against a keyset pager.
 */
module OverviewContinuation {
  import opened Basics
  import opened Overview
  import opened OverviewBackfill
  import opened OverviewLoader

  /** Everything between two cursors is on the list. */
  ghost predicate Loaded(rows: seq<Row>, first: Cursor, next: Option<Cursor>, list: seq<Row>)
  {
    forall x <- After(rows, first) :: next.None? || !Older(KeyOf(x), next.value) ==> x.id in Ids(list)
  }

  function ReplayOf(r: Request, rows: seq<Row>): Replayed
    requires NeedsReplay(r)
  {
    var p := r.pagination.value;
    ReplayLoadedRange(p, p.firstCursor.value, p.boundary.value, Pager(rows))
  }

  /** What the pager answers to the request after the replay, when there is one. */
  function FollowUp(done: Replayed, rows: seq<Row>): PageAnswer
  {
    if done.pagination.nextCursor.None? then Outage else Answered(Serve(rows, done.pagination.nextCursor.value))
  }

  lemma MembersOf(a: seq<Row>, list: seq<Row>)
    requires Ids(a) <= Ids(list)
    ensures forall x <- a :: x.id in Ids(list)
  {
    forall x | x in a ensures x.id in Ids(list) { assert x.id in Ids(a); }
  }

  lemma JoinedMembers(a: seq<Row>, b: seq<Row>, list: seq<Row>)
    requires Ids(a) <= Ids(list) && Ids(b) <= Ids(list)
    ensures forall x <- a + b :: x.id in Ids(list)
  {
    MembersOf(a, list);
    MembersOf(b, list);
  }

  /** The page installed after a replay reaches from the first cursor to the cursor kept. */
  lemma FoundPageIsContiguous(list: seq<Row>, r: Request, rows: seq<Row>)
    requires NeedsReplay(r) && Sorted(rows) && UniqueIds(list) && ReplayOf(r, rows).warning.None?
    ensures var found := FindPage(list, r, Pager(rows), FollowUp(ReplayOf(r, rows), rows));
      && found.answer.Answered?
      && var page, kept := found.answer.page, Continued(r, found, found.answer.page);
         && Loaded(rows, r.pagination.value.firstCursor.value, kept.nextCursor, AppendUnique(list, Tagged(page.items, r)))
         && (kept.complete <==> kept.nextCursor.None?) && kept.complete == !page.hasMore
  {
    var p := r.pagination.value;
    var first, done := p.firstCursor.value, ReplayOf(r, rows);
    var found := FindPage(list, r, Pager(rows), FollowUp(done, rows));
    ReplayOfPagerCovers(p, first, p.boundary.value, rows);
    if Ids(done.items) <= Ids(list) && done.pagination.nextCursor.Some? {
      FurtherPage(list, r, rows, done, found);
    } else {
      ReplayedPage(list, r, rows, done, found);
    }
  }

  /** A merged page keeps the list and adds every workspace of the page. */
  lemma MergedIds(list: seq<Row>, items: seq<Row>, r: Request)
    requires UniqueIds(list)
    ensures Ids(AppendUnique(list, Tagged(items, r))) == Ids(list) + Ids(items)
  {
    var t := Tagged(items, r);
    AppendUniqueExtends(list, t);
    forall i | 0 <= i < |items| ensures t[i].id == items[i].id { }
    forall id | id in Ids(items) ensures id in Ids(t) {
      var i :| 0 <= i < |items| && items[i].id == id;
      assert t[i].id == id;
    }
  }

  /** A list that holds a prefix of the server's rows is loaded up to the prefix's last key. */
  lemma PrefixIsLoaded(rows: seq<Row>, first: Cursor, m: nat, list: seq<Row>)
    requires Sorted(rows) && m <= |After(rows, first)| && forall x <- After(rows, first)[..m] :: x.id in Ids(list)
    ensures m > 0 ==> Loaded(rows, first, Some(KeyOf(After(rows, first)[m - 1])), list)
    ensures m == |After(rows, first)| ==> Loaded(rows, first, None, list)
  {
    var all := After(rows, first);
    AfterMembers(rows, first);
    if m == |all| { assert all[..m] == all; }
    if m > 0 {
      forall x | x in all && !Older(KeyOf(x), KeyOf(all[m - 1])) ensures x.id in Ids(list) {
        var j :| 0 <= j < |all| && all[j] == x;
        assert j < m;
        assert all[..m][j] == x;
      }
    }
  }

  lemma PrefixSplits(all: seq<Row>, n: nat, k: nat)
    requires n + k <= |all|
    ensures all[..n + k] == all[..n] + all[n..][..k]
    ensures k > 0 ==> all[n..][k - 1] == all[n + k - 1]
  {
  }

  /** The page past a prefix extends it. */
  lemma ServedPastPrefix(rows: seq<Row>, first: Cursor, n: nat)
    requires Sorted(rows) && 0 < n <= |After(rows, first)|
    ensures var all := After(rows, first);
      var next := KeyOf(all[n - 1]);
      var page := Serve(rows, next);
      var m := n + |page.items|;
      && m <= |all| && all[..m] == all[..n] + page.items
      && (if page.hasMore then m > n && page.next == Some(KeyOf(all[m - 1])) && Older(page.next.value, next)
          else m == |all| && page.next.None?)
  {
    var all := After(rows, first);
    var next := KeyOf(all[n - 1]);
    var page := Serve(rows, next);
    AfterResumes(rows, first, n);
    PrefixSplits(all, n, |page.items|);
    if page.hasMore { AfterMembers(rows, first); } else { assert all[n..][..|page.items|] == all[n..]; }
  }

  /** The replay found new members, or the end: its own rows are the page. */
  lemma ReplayedPage(list: seq<Row>, r: Request, rows: seq<Row>, done: Replayed, found: Found)
    requires NeedsReplay(r) && Sorted(rows) && UniqueIds(list) && done.warning.None?
    requires Covers(done, After(rows, r.pagination.value.firstCursor.value), r.pagination.value.boundary.value)
    requires found == Found(Answered(Page(done.items, !done.pagination.complete, done.pagination.nextCursor)), Some(done.pagination), None)
    ensures var page, kept := found.answer.page, Continued(r, found, found.answer.page);
      && Loaded(rows, r.pagination.value.firstCursor.value, kept.nextCursor, AppendUnique(list, Tagged(page.items, r)))
      && (kept.complete <==> kept.nextCursor.None?) && kept.complete == !page.hasMore
  {
    var first, kept := r.pagination.value.firstCursor.value, Continued(r, found, found.answer.page);
    var merged := AppendUnique(list, Tagged(done.items, r));
    MergedIds(list, done.items, r);
    MembersOf(done.items, merged);
    KeptCursor(r, found, found.answer.page, done.pagination);
    PrefixIsLoaded(rows, first, |done.items|, merged);
  }

  /** A cursor older than every cursor already fetched is kept. */
  lemma KeptCursor(r: Request, found: Found, page: Page, base: Pagination)
    requires found.base == Some(base) && (page.next.Some? ==> page.hasMore)
    requires page.next.Some? ==> forall c <- base.fetched :: Older(page.next.value, c)
    requires page.next.Some? && found.requested.Some? ==> Older(page.next.value, found.requested.value)
    ensures Continued(r, found, page).nextCursor == page.next && Continued(r, found, page).complete == !page.hasMore
  {
  }

  lemma OlderStill(k: Key, next: Key, fetched: set<Cursor>)
    requires Older(k, next) && forall c <- fetched :: Older(next, c)
    ensures forall c <- fetched :: Older(k, c)
  {
  }

  /** The replay found nothing new: one more page is fetched past it. */
  lemma FurtherPage(list: seq<Row>, r: Request, rows: seq<Row>, done: Replayed, found: Found)
    requires NeedsReplay(r) && Sorted(rows) && UniqueIds(list) && done.warning.None?
    requires Covers(done, After(rows, r.pagination.value.firstCursor.value), r.pagination.value.boundary.value)
    requires done.pagination.nextCursor.Some? && Ids(done.items) <= Ids(list)
    requires found == Found(Answered(Serve(rows, done.pagination.nextCursor.value)), Some(done.pagination), done.pagination.nextCursor)
    ensures var page, kept := found.answer.page, Continued(r, found, found.answer.page);
      && Loaded(rows, r.pagination.value.firstCursor.value, kept.nextCursor, AppendUnique(list, Tagged(page.items, r)))
      && (kept.complete <==> kept.nextCursor.None?) && kept.complete == !page.hasMore
  {
    var first, next := r.pagination.value.firstCursor.value, done.pagination.nextCursor.value;
    var page, n := found.answer.page, |done.items|;
    var merged := AppendUnique(list, Tagged(page.items, r));
    ServedPastPrefix(rows, first, n);
    MergedIds(list, page.items, r);
    JoinedMembers(done.items, page.items, merged);
    if page.hasMore { OlderStill(page.next.value, next, done.pagination.fetched); }
    KeptCursor(r, found, page, done.pagination);
    var all := After(rows, first);
    assert all[..n] == done.items && all[..n + |page.items|] == done.items + page.items;
    PrefixIsLoaded(rows, first, n + |page.items|, merged);
  }

  /**
   * After Load More under a status filter, every workspace the server holds
   * between the first cursor and the cursor where history resumes is on the
   * list; with no such cursor, every workspace after the first cursor is.
   */
  lemma FilteredContinuationIsContiguous(c: Loader, t: nat, rows: seq<Row>)
    requires t in c.pending && NeedsReplay(c.pending[t]) && Writes(c, c.pending[t])
    requires UniqueIds(c.list.rows) && Sorted(rows) && ReplayOf(c.pending[t], rows).warning.None?
    ensures var r := c.pending[t];
      var d := SettlePage(c, t, Pager(rows), FollowUp(ReplayOf(r, rows), rows));
      && d.list.pagination.Some?
      && var p := d.list.pagination.value;
         && p.query == r.query && p.firstCursor == r.pagination.value.firstCursor
         && (p.complete <==> p.nextCursor.None?)
         && Loaded(rows, p.firstCursor.value, p.nextCursor, d.list.rows)
  {
    var r := c.pending[t];
    var c0 := c.(pending := c.pending - {t});
    var answer := FollowUp(ReplayOf(r, rows), rows);
    var found := FindPage(c.list.rows, r, Pager(rows), answer);
    FoundPageIsContiguous(c.list.rows, r, rows);
    ReplayKeepsFirst(r.pagination.value, r.pagination.value.boundary.value, Pager(rows), 0,
                     r.pagination.value.firstCursor.value, Replayed(r.pagination.value, [], [], None, None));
    assert SettlePage(c, t, Pager(rows), answer) == InstallContinuation(c0, r, found, found.answer.page);
  }

  lemma {:induction false} ReplayKeepsFirst(p: Pagination, b: Key, fetch: Fetch, i: nat, cursor: Cursor, done: Replayed)
    requires done.pagination.firstCursor == p.firstCursor
    ensures Replay(p, b, fetch, i, cursor, done).pagination.firstCursor == p.firstCursor
    decreases OVERVIEW_LIST_MAX_PAGES - i
  {
    if i < OVERVIEW_LIST_MAX_PAGES && cursor !in done.requested && fetch(i, cursor).Answered? {
      var asked, page := done.requested + [cursor], fetch(i, cursor).page;
      if page.next.Some? {
        var d := done.(pagination := Progress(p, page, asked), items := done.items + page.items, requested := asked);
        ReplayKeepsFirst(p, b, fetch, i + 1, page.next.value, d);
      }
    }
  }
}

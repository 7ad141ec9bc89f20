/**
 * The history rotation over runs of the loader. Each answered poll refreshes one
 * batch of the rows beyond page one; while the list stands still, consecutive
 * polls walk through all of them.
 */
module OverviewRotation {
  import opened Basics
  import opened Overview
  import opened OverviewBackfill
  import opened OverviewLoader
  import opened OverviewTheorems

  /** The list already shows what the poll will answer, ahead of its loaded history. */
  ghost predicate Standing(c: Loader, page: Page)
  {
    && Inv(c) && !c.consoleDenied && page.hasMore && !SelectionMissing(c)
    && c.list.pagination.Some? && c.list.pagination.value.query == c.query
    && |page.items| <= |c.list.rows| && forall i :: 0 <= i < |page.items| ==> SameText(c.list.rows[i], page.items[i])
  }

  /** One poll: it starts, and its page arrives. */
  ghost function Poll(c: Loader, page: Page): Loader
    requires !c.consoleDenied
  {
    Step(Step(c, Load(false)), PageSettles(c.nextTicket, (i, k) => Outage, Answered(page)))
  }

  /** The workspaces the poll asks its history refresh about. */
  function Refreshing(d: Loader): seq<int>
  {
    if d.refresh.Some? && d.refresh.value in d.pending && d.pending[d.refresh.value].phase.Retained?
    then d.pending[d.refresh.value].phase.ids else []
  }

  /** The loaded rows beyond page one, in list order. */
  function History(c: Loader, page: Page): seq<int>
    requires |page.items| <= |c.list.rows|
  {
    IdList(c.list.rows[|page.items|..])
  }

  /** Whatever happened since the last poll left the list, the query and the rotation alone. */
  predicate Undisturbed(d: Loader, c: Loader)
  {
    d.list == c.list && d.query == c.query && d.rotation == c.rotation
  }

  // ---------------------------------------------------------------- an unchanged list

  lemma {:induction false} UnseenUnique(rows: seq<Row>, seen: set<int>)
    requires UniqueIds(rows) && Ids(rows) !! seen
    ensures Unseen(rows, seen) == rows
  {
    UnseenKeepsUnique(rows, [], seen);
    assert rows + [] == rows;
  }

  lemma {:induction false} UnseenSkips(head: seq<Row>, tail: seq<Row>, seen: set<int>)
    requires Ids(head) <= seen
    ensures Unseen(head + tail, seen) == Unseen(tail, seen)
  {
    if head == [] {
      assert head + tail == tail;
    } else {
      assert head[0].id in Ids(head) && (head + tail)[1..] == head[1..] + tail;
      forall x | x in head[1..] ensures x.id in Ids(head) { }
      UnseenSkips(head[1..], tail, seen);
    }
  }

  lemma {:induction false} UniqueLookup(rows: seq<Row>, i: nat)
    requires UniqueIds(rows) && i < |rows|
    ensures Lookup(rows, rows[i].id) == Some(rows[i])
  {
    var r := Lookup(rows, rows[i].id);
    assert rows[i].id in Ids(rows);
    var j :| 0 <= j < |rows| && rows[j] == r.value;
    assert j == i;
  }

  lemma {:induction false} RefreshNothing(items: seq<Row>, firstPage: set<int>)
    ensures RefreshRows(items, firstPage, [], {}) == items
  {
    if items != [] {
      RefreshNothing(items[1..], firstPage);
      assert items == [items[0]] + items[1..];
    }
  }

  /** The page repeats the head of the list, so reconciling reuses every row. */
  lemma ReconcileRepeats(rows: seq<Row>, items: seq<Row>)
    requires UniqueIds(rows) && |items| <= |rows| && forall i :: 0 <= i < |items| ==> SameText(rows[i], items[i])
    ensures ReconcileRetained(rows, items, [], []) == rows
    ensures Unseen(rows, Ids(items)) == rows[|items|..]
  {
    var n, head, tail := |items|, rows[..|items|], rows[|items|..];
    assert rows == head + tail;
    RepeatedIds(rows, items);
    UnseenUnique(items, {});
    UnseenSkips(head, tail, Ids(items));
    UnseenUnique(tail, Ids(items));
    var reused := ReuseAll(rows, items);
    forall i | 0 <= i < n ensures reused[i] == rows[i] {
      UniqueLookup(rows, i);
      assert reused[i] == Reuse(rows, items[i]);
    }
    assert reused == head;
    assert ToSet<int>([]) == {};
    RefreshNothing(rows, Ids(items));
  }

  lemma RepeatedIds(rows: seq<Row>, items: seq<Row>)
    requires UniqueIds(rows) && |items| <= |rows| && forall i :: 0 <= i < |items| ==> SameText(rows[i], items[i])
    ensures UniqueIds(items) && Ids(rows[..|items|]) == Ids(items) && Ids(rows[|items|..]) !! Ids(items)
  {
    var head, tail := rows[..|items|], rows[|items|..];
    forall i | 0 <= i < |items| ensures items[i].id == rows[i].id { }
    forall id | id in Ids(items) ensures id in Ids(head) && id !in Ids(tail) {
      var i :| 0 <= i < |items| && items[i].id == id;
      assert head[i].id == id;
      forall x | x in tail ensures x.id != id { var j :| 0 <= j < |tail| && tail[j] == x; assert rows[|items| + j] == x; }
    }
    forall id | id in Ids(head) ensures id in Ids(items) {
      var i :| 0 <= i < |items| && head[i].id == id;
      assert items[i].id == id;
    }
  }

  // ---------------------------------------------------------------- one poll

  lemma TaggedRepeats(rows: seq<Row>, items: seq<Row>, r: Request)
    requires |items| <= |rows| && forall i :: 0 <= i < |items| ==> SameText(rows[i], items[i])
    ensures forall i :: 0 <= i < |items| ==> SameText(rows[i], Tagged(items, r)[i])
  {
  }

  lemma StartedRefresh(c: Loader, r: Request, page: Page, ids: seq<int>)
    requires c.refresh.None? || ids != []
    ensures Refreshing(StartRefresh(c, r, page, ids)) == ids
    ensures var d := StartRefresh(c, r, page, ids);
      d.list == c.list && d.query == c.query && d.rotation == c.rotation && d.selected == c.selected
  {
  }

  /** The installed page: what it leaves, and what it asks about. */
  lemma InstalledBatch(c: Loader, r: Request, page: Page)
    requires page.hasMore && FirstPageList(c, r, page).rows == c.list.rows && !SelectionMissing(c)
    ensures var d, batch := InstallFirstPage(c, r, page), FirstPageBatch(c, r, page);
      && Refreshing(d) == batch.0 && d.rotation == Rotation(Some(r.query), batch.1)
      && d.list.rows == c.list.rows && d.query == c.query
  {
    var batch := FirstPageBatch(c, r, page);
    var d1 := Applied(c, r).(list := FirstPageList(c, r, page), rotation := Rotation(Some(r.query), batch.1));
    StartedRefresh(d1, r, page, batch.0);
  }

  /** The request of the next poll. */
  function PollRequest(c: Loader): Request
  {
    Request(c.epoch, c.query, c.marks.generation + 1, c.list.pagination,
            c.list.pagination.None? && c.list.rows == [], c.isolated, FirstPage)
  }

  /** The loader while that poll is the only news. */
  function Polling(c: Loader): Loader
  {
    c.(marks := c.marks.(generation := c.marks.generation + 1), inFlight := true, nextTicket := c.nextTicket + 1)
  }

  lemma PollInstalls(c: Loader, page: Page)
    requires Inv(c) && !c.consoleDenied
    ensures Poll(c, page) == InstallFirstPage(Polling(c), PollRequest(c), page)
  {
    var asked := Step(c, Load(false));
    assert asked.pending[c.nextTicket] == PollRequest(c);
    assert asked.pending - {c.nextTicket} == c.pending;
    assert asked.(pending := c.pending) == Polling(c);
  }

  lemma BatchIsHistory(c: Loader, page: Page)
    requires Standing(c, page)
    ensures FirstPageList(Polling(c), PollRequest(c), page).rows == c.list.rows
    ensures FirstPageBatch(Polling(c), PollRequest(c), page)
         == NextBatch(History(c, page), if c.rotation.query == Some(c.query) then c.rotation.offset else 0)
  {
    TaggedRepeats(c.list.rows, page.items, PollRequest(c));
    ReconcileRepeats(c.list.rows, Tagged(page.items, PollRequest(c)));
  }

  /** One poll of a standing list refreshes the next batch of its history and moves on. */
  lemma PollRefreshesBatch(c: Loader, page: Page)
    requires Standing(c, page)
    ensures var d := Poll(c, page);
      var offset := if c.rotation.query == Some(c.query) then c.rotation.offset else 0;
      && d.list.rows == c.list.rows && d.query == c.query
      && Refreshing(d) == NextBatch(History(c, page), offset).0
      && d.rotation == Rotation(Some(c.query), NextBatch(History(c, page), offset).1)
  {
    PollInstalls(c, page);
    BatchIsHistory(c, page);
    InstalledBatch(Polling(c), PollRequest(c), page);
  }

  // ---------------------------------------------------------------- a whole rotation

  /** Consecutive polls of one standing list, with anything in between that leaves it alone. */
  ghost predicate Polled(cs: seq<Loader>, page: Page)
  {
    && (forall i :: 0 <= i < |cs| ==> Standing(cs[i], page))
    && (forall i :: 0 < i < |cs| ==> Undisturbed(Poll(cs[i - 1], page), cs[i]))
  }

  /** Everything those polls asked about, in order. */
  ghost function AllRefreshed(cs: seq<Loader>, page: Page): seq<int>
    requires Polled(cs, page)
  {
    if cs == [] then []
    else
      assert Polled(DropLast(cs), page);
      AllRefreshed(DropLast(cs), page) + Refreshing(Poll(Last(cs), page))
  }

  /** A batch that starts at a multiple extends the part already covered. */
  lemma BatchExtends(ids: seq<int>, m: nat)
    requires m < |ids|
    ensures var n := m + OVERVIEW_REFRESH_BATCH_SIZE;
      && ids[..m] + NextBatch(ids, m).0 == ids[..Min(n, |ids|)]
      && NextBatch(ids, m).1 == if n >= |ids| then 0 else n
  {
  }

  lemma {:induction false} PollsCoverPrefix(cs: seq<Loader>, page: Page)
    requires cs != [] && Polled(cs, page)
    requires cs[0].rotation.query == Some(cs[0].query) ==> cs[0].rotation.offset == 0
    requires OVERVIEW_REFRESH_BATCH_SIZE * (|cs| - 1) < |History(cs[0], page)|
    ensures var ids, n := History(cs[0], page), OVERVIEW_REFRESH_BATCH_SIZE * |cs|;
      && Last(cs).list.rows == cs[0].list.rows && Last(cs).query == cs[0].query
      && AllRefreshed(cs, page) == ids[..Min(n, |ids|)]
      && Poll(Last(cs), page).rotation == Rotation(Some(cs[0].query), if n >= |ids| then 0 else n)
  {
    var c, ids := Last(cs), History(cs[0], page);
    var before, m := DropLast(cs), OVERVIEW_REFRESH_BATCH_SIZE * (|cs| - 1);
    assert Standing(c, page);
    FewerPolls(cs, page);
    PollRefreshesBatch(c, page);
    BatchExtends(ids, m);
    if before != [] {
      PollsCoverPrefix(before, page);
      NextPollContinues(Last(before), c, page, m);
    } else {
      assert c == cs[0] && ids[..0] == [] && AllRefreshed(before, page) == [];
    }
  }

  lemma FewerPolls(cs: seq<Loader>, page: Page)
    requires cs != [] && Polled(cs, page)
    ensures Polled(DropLast(cs), page)
    ensures AllRefreshed(cs, page) == AllRefreshed(DropLast(cs), page) + Refreshing(Poll(Last(cs), page))
    ensures |cs| > 1 ==> DropLast(cs)[0] == cs[0] && Undisturbed(Poll(Last(DropLast(cs)), page), Last(cs))
  {
  }

  lemma NextPollContinues(was: Loader, c: Loader, page: Page, m: nat)
    requires Standing(was, page) && Standing(c, page) && Undisturbed(Poll(was, page), c)
    requires Poll(was, page).rotation == Rotation(Some(was.query), m)
    ensures c.list.rows == was.list.rows && c.query == was.query && c.rotation == Rotation(Some(c.query), m)
  {
    PollRefreshesBatch(was, page);
  }

  /**
   * While the list stands still, one rotation of polls asks about every loaded
   * row beyond page one exactly once, in list order, and then starts over.
   */
  lemma RotationRefreshesEveryRow(cs: seq<Loader>, page: Page)
    requires cs != [] && Polled(cs, page)
    requires cs[0].rotation.query == Some(cs[0].query) ==> cs[0].rotation.offset == 0
    requires OVERVIEW_REFRESH_BATCH_SIZE * (|cs| - 1) < |History(cs[0], page)| <= OVERVIEW_REFRESH_BATCH_SIZE * |cs|
    ensures AllRefreshed(cs, page) == History(cs[0], page)
    ensures Poll(Last(cs), page).rotation.offset == 0
    ensures forall i :: 0 <= i < |cs| ==> |Refreshing(Poll(cs[i], page))| <= OVERVIEW_REFRESH_BATCH_SIZE
  {
    PollsCoverPrefix(cs, page);
    var ids := History(cs[0], page);
    assert ids[..|ids|] == ids;
    forall i | 0 <= i < |cs| ensures |Refreshing(Poll(cs[i], page))| <= OVERVIEW_REFRESH_BATCH_SIZE {
      PollRefreshesBatch(cs[i], page);
    }
  }
}

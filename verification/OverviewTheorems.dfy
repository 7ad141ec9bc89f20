/** What every interleaving of overview requests keeps about the workspace list. */
module OverviewTheorems {
  import opened Basics
  import opened Overview
  import opened OverviewBackfill
  import opened OverviewLoader

  // ---------------------------------------------------------------- invariant

  /** Every row was delivered to this query, in this epoch, by a generation in force. */
  ghost predicate From(rows: seq<Row>, epoch: nat, q: Query, m: Marks)
  {
    forall x <- rows ::
      x.source.epoch == epoch && x.source.query == q && m.revoked < x.source.generation <= m.applied
  }

  ghost predicate ListSound(l: List, epoch: nat, m: Marks)
  {
    && UniqueIds(l.rows)
    && (l.rows != [] ==> From(l.rows, epoch, l.rows[0].source.query, m))
    && (l.pagination.Some? ==> From(l.rows, epoch, l.pagination.value.query, m))
  }

  predicate Current(r: Request, epoch: nat, m: Marks)
  {
    r.epoch == epoch && r.generation == m.generation && m.revoked < r.generation
  }

  /** What a request of the newest load may still rely on. */
  ghost predicate Backed(r: Request, l: List, epoch: nat, m: Marks)
  {
    match r.phase
    case FirstPage => r.pagination == l.pagination
    case Continuation => r.pagination == l.pagination && SameQuery(r)
    case Retained(page, _) =>
      && From(l.rows, epoch, r.query, m) && From(page, epoch, r.query, m) && r.generation == m.applied
      && (l.pagination.Some? ==> l.pagination.value.query == r.query)
    case Selected(_, replace, _) =>
      !replace ==>
        && From(l.rows, epoch, r.query, m) && (l.pagination.Some? ==> l.pagination.value.query == r.query)
  }

  predicate IsPage(r: Request) { r.phase.FirstPage? || r.phase.Continuation? }

  ghost predicate Tickets(pending: map<nat, Request>, nextTicket: nat, m: Marks, epoch: nat, consoleDenied: bool)
  {
    && (forall t <- pending ::
          && t < nextTicket && 1 <= pending[t].generation <= m.generation && pending[t].epoch <= epoch
          && (consoleDenied ==> pending[t].epoch < epoch))
    && (forall t, u | t in pending && u in pending && pending[t].generation == pending[u].generation ::
          && pending[t].query == pending[u].query && pending[t].epoch == pending[u].epoch
          && (IsPage(pending[t]) ==> t == u))
    && m.applied <= m.generation && m.revoked <= m.generation && m.failed <= m.generation
  }

  ghost predicate AllBacked(c: Loader)
  {
    forall t <- c.pending :: Current(c.pending[t], c.epoch, c.marks) ==> Backed(c.pending[t], c.list, c.epoch, c.marks)
  }

  /** At most one history refresh is alive, and the loader can abort it. */
  ghost predicate OneRefresh(pending: map<nat, Request>, refresh: Option<nat>)
  {
    forall t <- pending :: pending[t].phase.Retained? ==> refresh == Some(t)
  }

  ghost predicate Inv(c: Loader)
  {
    && OneRefresh(c.pending, c.refresh)
    && Tickets(c.pending, c.nextTicket, c.marks, c.epoch, c.consoleDenied)
    && ListSound(c.list, c.epoch, c.marks)
    && AllBacked(c)
  }

  // ---------------------------------------------------------------- building blocks

  lemma TaggedFrom(items: seq<Row>, r: Request, m: Marks)
    requires m.revoked < r.generation <= m.applied
    ensures From(Tagged(items, r), r.epoch, r.query, m) && Ids(Tagged(items, r)) == Ids(items)
    ensures UniqueIds(items) ==> UniqueIds(Tagged(items, r))
  {
    var t := Tagged(items, r);
    forall i | 0 <= i < |items| ensures t[i].id == items[i].id { }
    forall id | id in Ids(items) ensures id in Ids(t) {
      var i :| 0 <= i < |items| && items[i].id == id;
      assert t[i].id == id;
    }
  }

  lemma {:induction false} MatchingRows(items: seq<Row>, q: Query)
    ensures forall x <- Matching(items, q) :: x in items && Matches(x, q)
    ensures UniqueIds(items) ==> UniqueIds(Matching(items, q))
  {
    if items != [] {
      MatchingRows(items[1..], q);
      assert items == [items[0]] + items[1..];
      var rest := Matching(items[1..], q);
      if UniqueIds(items) {
        forall x | x in rest ensures x.id != items[0].id { assert x in items[1..]; }
      }
    }
  }

  lemma SoundFrom(rows: seq<Row>, p: Option<Pagination>, epoch: nat, q: Query, m: Marks)
    requires UniqueIds(rows) && From(rows, epoch, q, m) && (p.Some? ==> p.value.query == q)
    ensures ListSound(List(rows, p), epoch, m)
  {
  }

  /** The parts of the loader the invariant does not read. */
  lemma FrameInv(c: Loader, d: Loader)
    requires Inv(c)
    requires d == c.(query := d.query, selected := d.selected, inFlight := d.inFlight, isolated := d.isolated, rotation := d.rotation)
    ensures Inv(d)
  {
  }

  lemma AbortKeepsInv(c: Loader)
    requires Inv(c)
    ensures Inv(AbortRefresh(c))
  {
  }

  lemma SettledKeepsInv(c: Loader, t: nat)
    requires Inv(c) && t in c.pending
    ensures Inv(c.(pending := c.pending - {t}))
  {
  }

  lemma FailKeepsInv(c: Loader, r: Request, denied: bool)
    requires Inv(c) && r.generation <= c.marks.generation
    ensures Inv(Fail(c, r, denied))
  {
  }

  // ---------------------------------------------------------------- starting

  lemma BeginKeepsInv(c: Loader, phase: Phase)
    requires Inv(c) && !c.consoleDenied && !phase.Retained?
    requires phase.Continuation? ==> CanContinue(c)
    requires phase.Selected? ==> phase.replace
    ensures Inv(Begin(c, phase))
  {
    var d := Begin(c, phase);
    assert d.pending[c.nextTicket].generation == c.marks.generation + 1;
    forall t | t in c.pending ensures !Current(c.pending[t], d.epoch, d.marks) { }
  }

  lemma ClearKeepsInv(c: Loader)
    requires Inv(c) && c.consoleDenied
    ensures Inv(ClearList(c))
  {
  }

  // ---------------------------------------------------------------- installing

  /** The newest load replaces the list; its other requests still rely on one query. */
  lemma InstallKeepsInv(c: Loader, r: Request, l: List)
    requires Tickets(c.pending, c.nextTicket, c.marks, c.epoch, c.consoleDenied) && OneRefresh(c.pending, c.refresh)
    requires Current(r, c.epoch, c.marks) && c.marks.applied <= r.generation
    requires forall t <- c.pending :: Current(c.pending[t], c.epoch, c.marks) ==>
      !IsPage(c.pending[t]) && !c.pending[t].phase.Retained? && c.pending[t].query == r.query
    requires var m := c.marks.(applied := r.generation);
      From(l.rows, c.epoch, r.query, m) && UniqueIds(l.rows) && (l.pagination.Some? ==> l.pagination.value.query == r.query)
    ensures Inv(c.(list := l, marks := c.marks.(applied := r.generation)))
  {
    SoundFrom(l.rows, l.pagination, c.epoch, r.query, c.marks.(applied := r.generation));
  }

  lemma IssueKeepsInv(c: Loader, r: Request)
    requires Inv(c) && Current(r, c.epoch, c.marks) && !c.consoleDenied && !IsPage(r)
    requires forall t <- c.pending :: c.pending[t].generation == r.generation ==>
      c.pending[t].query == r.query && c.pending[t].epoch == r.epoch && !IsPage(c.pending[t])
    requires Backed(r, c.list, c.epoch, c.marks) && !r.phase.Retained?
    ensures Inv(Issue(c, r))
  {
  }

  lemma IssueRefreshKeepsInv(c: Loader, r: Request)
    requires Inv(c) && Current(r, c.epoch, c.marks) && !c.consoleDenied && r.phase.Retained? && c.refresh.None?
    requires forall t <- c.pending :: c.pending[t].generation != r.generation
    requires Backed(r, c.list, c.epoch, c.marks)
    ensures Inv(Issue(c, r).(refresh := Some(c.nextTicket)))
  {
  }

  lemma AppendFrom(rows: seq<Row>, items: seq<Row>, epoch: nat, q: Query, m: Marks)
    requires From(rows, epoch, q, m) && From(items, epoch, q, m)
    ensures From(AppendUnique(rows, items), epoch, q, m) && UniqueIds(AppendUnique(rows, items))
  {
    UnseenRows(rows + items, {});
  }

  lemma ReconcileFrom(
    rows: seq<Row>, page: seq<Row>, refreshed: seq<Row>, missing: seq<int>, epoch: nat, q: Query, m: Marks)
    requires From(rows, epoch, q, m) && From(page, epoch, q, m) && From(refreshed, epoch, q, m)
    ensures var r := ReconcileRetained(rows, page, refreshed, missing); From(r, epoch, q, m) && UniqueIds(r)
  {
    ReconcileRetainedRows(rows, page, refreshed, missing);
  }

  // ---------------------------------------------------------------- a settled page

  /** A page request that may write is the only request of its load, and its list is unchanged. */
  lemma PageOwnsList(c: Loader, t: nat)
    requires Inv(c) && t in c.pending && IsPage(c.pending[t])
    ensures forall u <- c.pending - {t} :: c.pending[u].generation != c.pending[t].generation
    ensures var r := c.pending[t]; Writes(c, r) ==>
      && Current(r, c.epoch, c.marks) && r.pagination == c.list.pagination && (r.phase.Continuation? ==> SameQuery(r))
      && (SameQuery(r) ==> From(c.list.rows, c.epoch, r.query, c.marks.(applied := r.generation)))
  {
  }

  /** Which query the next pagination belongs to. */
  lemma NextPaginationQuery(rows: seq<Row>, r: Request, found: Found, page: Page)
    ensures Continued(r, found, page).query == r.query && Repaged(rows, r, page).query == r.query
  {
  }

  /** The list after the page, with the request's generation applied. */
  lemma PageListSound(c: Loader, t: nat, found: Found, page: Page)
    requires Inv(c) && t in c.pending && IsPage(c.pending[t]) && Writes(c, c.pending[t])
    ensures var r := c.pending[t];
      var items, m := Tagged(page.items, r), c.marks.(applied := r.generation);
      && From(items, c.epoch, r.query, m)
      && (r.phase.Continuation? ==>
            From(AppendUnique(c.list.rows, items), c.epoch, r.query, m) && UniqueIds(AppendUnique(c.list.rows, items)))
      && From(RefreshedRows(c.list.rows, r, items, page.hasMore), c.epoch, r.query, m)
      && UniqueIds(RefreshedRows(c.list.rows, r, items, page.hasMore))
  {
    var r := c.pending[t];
    var items, m := Tagged(page.items, r), c.marks.(applied := r.generation);
    PageOwnsList(c, t);
    TaggedFrom(page.items, r, m);
    if r.phase.Continuation? { AppendFrom(c.list.rows, items, c.epoch, r.query, m); }
    if SameQuery(r) && page.hasMore {
      ReconcileFrom(c.list.rows, items, [], [], c.epoch, r.query, m);
    } else {
      AppendFrom([], items, c.epoch, r.query, m);
    }
  }

  /** The state right after a page is applied: its list, and no other request of its load. */
  lemma AppliedPageInv(c: Loader, t: nat, l: List)
    requires Inv(c) && t in c.pending && IsPage(c.pending[t]) && Writes(c, c.pending[t])
    requires var r, m := c.pending[t], c.marks.(applied := c.pending[t].generation);
      From(l.rows, c.epoch, r.query, m) && UniqueIds(l.rows) && (l.pagination.Some? ==> l.pagination.value.query == r.query)
    ensures var d := Applied(c.(pending := c.pending - {t}), c.pending[t]).(list := l);
      && Inv(d) && d.refresh.None? && Current(c.pending[t], d.epoch, d.marks) && d.marks.applied == c.pending[t].generation
      && forall u <- d.pending :: d.pending[u].generation != c.pending[t].generation
  {
    var r := c.pending[t];
    PageOwnsList(c, t);
    var c0 := c.(pending := c.pending - {t});
    SettledKeepsInv(c, t);
    AbortKeepsInv(c0);
    var a := AbortRefresh(c0);
    forall u | u in a.pending ensures u in c.pending - {t} && a.pending[u] == c.pending[u] { }
    InstallKeepsInv(a, r, l);
    assert Max(c.marks.applied, r.generation) == r.generation;
  }

  lemma ReleaseKeepsInv(c: Loader, r: Request, page: Page)
    requires Inv(c)
    ensures Inv(Release(c, r)) && Inv(DropMissingSelection(c, page))
  {
  }

  lemma SelectedKeepsInv(c: Loader, r: Request, id: int, awaited: bool)
    requires Inv(c) && Current(r, c.epoch, c.marks) && !c.consoleDenied
    requires forall t <- c.pending :: c.pending[t].generation == r.generation ==>
      c.pending[t].query == r.query && c.pending[t].epoch == r.epoch && !IsPage(c.pending[t])
    requires From(c.list.rows, c.epoch, r.query, c.marks)
    requires c.list.pagination.Some? ==> c.list.pagination.value.query == r.query
    ensures Inv(IssueSelected(c, r, id, awaited))
  {
    var alone := r.startedEmpty || r.isolated == Some(Selection(r.query, id));
    var c0 := if alone then c.(isolated := Some(Selection(r.query, id))) else c;
    IssueKeepsInv(c0, r.(phase := Selected(id, alone, awaited)));
  }

  lemma ContinuationKeepsInv(c: Loader, t: nat, found: Found, page: Page)
    requires Inv(c) && t in c.pending && c.pending[t].phase.Continuation? && Writes(c, c.pending[t])
    ensures Inv(InstallContinuation(c.(pending := c.pending - {t}), c.pending[t], found, page))
  {
    var r := c.pending[t];
    var l := List(AppendUnique(c.list.rows, Tagged(page.items, r)), Some(Continued(r, found, page)));
    PageListSound(c, t, found, page);
    NextPaginationQuery(c.list.rows, r, found, page);
    AppliedPageInv(c, t, l);
    var d := Applied(c.(pending := c.pending - {t}), r).(list := l);
    ReleaseKeepsInv(d, r, page);
    ReleaseKeepsInv(DropMissingSelection(d, page), r, page);
  }

  /** What the stages after the list was written leave alone. */
  lemma LaterStagesFrame(c: Loader, r: Request, page: Page, ids: seq<int>)
    ensures var d := StartRefresh(c, r, page, ids); d.list == c.list && d.marks == c.marks && d.epoch == c.epoch
    ensures var d := DropMissingSelection(c, page); d == c.(selected := d.selected)
    ensures var d := FollowSelection(c, r, page); d.list == c.list && d.marks == c.marks
  {
  }

  lemma StartRefreshKeepsInv(c: Loader, r: Request, page: Page, ids: seq<int>)
    requires Inv(c) && Current(r, c.epoch, c.marks) && !c.consoleDenied && c.refresh.None?
    requires r.generation == c.marks.applied && From(c.list.rows, c.epoch, r.query, c.marks)
    requires c.list.pagination.Some? ==> c.list.pagination.value.query == r.query
    requires forall t <- c.pending :: c.pending[t].generation != r.generation
    ensures var d := StartRefresh(c, r, page, ids);
      && Inv(d) && d.consoleDenied == c.consoleDenied
      && forall t <- d.pending :: d.pending[t].generation == r.generation ==>
           d.pending[t].query == r.query && d.pending[t].epoch == r.epoch && !IsPage(d.pending[t])
  {
    if ids != [] {
      TaggedFrom(page.items, r, c.marks);
      IssueRefreshKeepsInv(c, r.(phase := Retained(Tagged(page.items, r), ids)));
    }
  }

  lemma FirstPageKeepsInv(c: Loader, t: nat, page: Page)
    requires Inv(c) && t in c.pending && c.pending[t].phase.FirstPage? && Writes(c, c.pending[t])
    ensures Inv(InstallFirstPage(c.(pending := c.pending - {t}), c.pending[t], page))
  {
    var r := c.pending[t];
    var c0 := c.(pending := c.pending - {t});
    var batch, l := FirstPageBatch(c0, r, page), FirstPageList(c0, r, page);
    var found := Found(Answered(page), r.pagination, None);
    PageListSound(c, t, found, page);
    NextPaginationQuery(c.list.rows, r, found, page);
    AppliedPageInv(c, t, l);
    var d := Applied(c0, r).(list := l);
    var d1 := d.(rotation := Rotation(Some(r.query), batch.1));
    FrameInv(d, d1);
    StartRefreshKeepsInv(d1, r, page, batch.0);
    LaterStagesFrame(d1, r, page, batch.0);
    var d2 := StartRefresh(d1, r, page, batch.0);
    LaterStagesFrame(d2, r, page, batch.0);
    FollowKeepsInv(DropMissingSelection(d2, page), r, page);
  }

  lemma FollowKeepsInv(c: Loader, r: Request, page: Page)
    requires Inv(c) && Current(r, c.epoch, c.marks) && !c.consoleDenied
    requires forall t <- c.pending :: c.pending[t].generation == r.generation ==>
      c.pending[t].query == r.query && c.pending[t].epoch == r.epoch && !IsPage(c.pending[t])
    requires From(c.list.rows, c.epoch, r.query, c.marks)
    requires c.list.pagination.Some? ==> c.list.pagination.value.query == r.query
    ensures Inv(FollowSelection(c, r, page))
  {
    ReleaseKeepsInv(c, r, page);
    if page.hasMore && SelectionMissing(c) { SelectedKeepsInv(c, r, c.selected.value, true); }
  }

  lemma PageKeepsInv(c: Loader, t: nat, replay: Fetch, answer: PageAnswer)
    requires Inv(c) && t in c.pending && IsPage(c.pending[t])
    ensures Inv(SettlePage(c, t, replay, answer))
  {
    var r := c.pending[t];
    var c0 := c.(pending := c.pending - {t});
    SettledKeepsInv(c, t);
    var found := FindPage(c0.list.rows, r, replay, answer);
    if found.answer.Answered? {
      if Writes(c0, r) {
        if r.phase.Continuation? {
          ContinuationKeepsInv(c, t, found, found.answer.page);
        } else {
          FirstPageKeepsInv(c, t, found.answer.page);
        }
      }
    } else {
      PageFailureKeepsInv(c0, r, found.answer.Denied?);
    }
  }

  lemma PageFailureKeepsInv(c: Loader, r: Request, denied: bool)
    requires Inv(c) && r.generation <= c.marks.generation
    ensures Inv(Release(Fail(if FailureCounts(c, r) then AbortRefresh(c) else c, r, denied), r))
  {
    AbortKeepsInv(c);
    var a := if FailureCounts(c, r) then AbortRefresh(c) else c;
    FailKeepsInv(a, r, denied);
    FrameInv(Fail(a, r, denied), Release(Fail(a, r, denied), r));
  }

  // ---------------------------------------------------------------- a settled batch

  /** The requests left of a load whose batch settled: no page among them, one query. */
  lemma BatchCompanions(c: Loader, t: nat)
    requires Inv(c) && t in c.pending && !IsPage(c.pending[t])
    ensures forall u <- c.pending :: c.pending[u].generation == c.pending[t].generation ==>
      !IsPage(c.pending[u]) && c.pending[u].query == c.pending[t].query && c.pending[u].epoch == c.pending[t].epoch
  {
  }

  lemma AbortedRefreshIsGone(c: Loader)
    requires OneRefresh(c.pending, c.refresh)
    ensures forall u <- AbortRefresh(c).pending :: !c.pending[u].phase.Retained?
  {
  }

  /** A lookup that found nothing leaves the list as it was. */
  lemma EmptyLookupKeepsInv(c: Loader, r: Request)
    requires Inv(c) && Current(r, c.epoch, c.marks)
    requires forall u <- c.pending :: c.pending[u].generation == r.generation ==>
      !IsPage(c.pending[u]) && !c.pending[u].phase.Retained?
    ensures Inv(c.(marks := c.marks.(applied := r.generation)))
  {
  }

  lemma AppendNothing(rows: seq<Row>)
    requires UniqueIds(rows)
    ensures AppendUnique(rows, []) == rows
  {
    UnseenKeepsUnique(rows, [], {});
    assert rows + [] == rows;
  }

  function SelectedList(l: List, id: int, replace: bool, items: seq<Row>): List
  {
    if replace && id in Ids(items) then List(items, None) else l.(rows := AppendUnique(l.rows, items))
  }

  lemma SelectedShape(c: Loader, r: Request, id: int, replace: bool, items: seq<Row>, missing: seq<int>)
    requires c.marks.applied <= r.generation
    ensures var a, d := AbortRefresh(c), InstallSelected(c, r, id, replace, items, missing);
      d == a.(marks := c.marks.(applied := r.generation), list := SelectedList(c.list, id, replace, items),
              selected := d.selected, isolated := d.isolated)
  {
  }

  lemma SelectedListKeepsInv(c: Loader, t: nat, items: seq<Row>)
    requires Inv(c) && t in c.pending && c.pending[t].phase.Selected? && Current(c.pending[t], c.epoch, c.marks)
    requires UniqueIds(items) && Ids(items) <= {c.pending[t].phase.id}
    requires From(items, c.epoch, c.pending[t].query, c.marks.(applied := c.pending[t].generation))
    ensures var r := c.pending[t];
      Inv(AbortRefresh(c.(pending := c.pending - {t})).(
        marks := c.marks.(applied := r.generation), list := SelectedList(c.list, r.phase.id, r.phase.replace, items)))
  {
    var r, id := c.pending[t], c.pending[t].phase.id;
    var c0 := c.(pending := c.pending - {t});
    var a := AbortRefresh(c0);
    BatchCompanions(c, t);
    SettledKeepsInv(c, t);
    AbortKeepsInv(c0);
    AbortedRefreshIsGone(c0);
    if r.phase.replace && id in Ids(items) {
      InstallKeepsInv(a, r, List(items, None));
    } else if r.phase.replace {
      NothingFound(items, items, id);
      AppendNothing(c.list.rows);
      EmptyLookupKeepsInv(a, r);
    } else {
      AppendFrom(c.list.rows, items, c.epoch, r.query, c.marks.(applied := r.generation));
      InstallKeepsInv(a, r, c.list.(rows := AppendUnique(c.list.rows, items)));
    }
  }

  lemma LookupKeepsInv(c: Loader, t: nat, batch: BatchAnswer)
    requires Inv(c) && t in c.pending && c.pending[t].phase.Selected? && batch.Batch?
    requires UniqueIds(batch.items) && Ids(batch.items) <= {c.pending[t].phase.id}
    requires Fresh(c, c.pending[t]) && c.marks.revoked < c.pending[t].generation
    ensures var r := c.pending[t];
      Inv(InstallSelected(c.(pending := c.pending - {t}), r, r.phase.id, r.phase.replace,
                          Tagged(Matching(batch.items, r.query), r), batch.missing))
  {
    var r, id := c.pending[t], c.pending[t].phase.id;
    var kept := Matching(batch.items, r.query);
    MatchingRows(batch.items, r.query);
    TaggedFrom(kept, r, c.marks.(applied := r.generation));
    SelectedListKeepsInv(c, t, Tagged(kept, r));
    var c0 := c.(pending := c.pending - {t});
    SelectedShape(c0, r, id, r.phase.replace, Tagged(kept, r), batch.missing);
    var l := SelectedList(c.list, id, r.phase.replace, Tagged(kept, r));
    FrameInv(AbortRefresh(c0).(marks := c.marks.(applied := r.generation), list := l),
             InstallSelected(c0, r, id, r.phase.replace, Tagged(kept, r), batch.missing));
  }

  lemma NothingFound(items: seq<Row>, answered: seq<Row>, id: int)
    requires Ids(items) <= Ids(answered) <= {id} && id !in Ids(items)
    ensures items == []
  {
    assert items == [] || items[0].id in Ids(items);
  }

  lemma RefreshKeepsInv(c: Loader, t: nat, batch: BatchAnswer)
    requires Inv(c) && t in c.pending && c.pending[t].phase.Retained? && batch.Batch?
    requires Fresh(c, c.pending[t]) && c.marks.revoked < c.pending[t].generation
    ensures Inv(InstallRetained(c.(pending := c.pending - {t}, refresh := None), c.pending[t],
                                c.pending[t].phase.page, batch.items, batch.missing))
  {
    var r, page := c.pending[t], c.pending[t].phase.page;
    var kept := Tagged(Matching(batch.items, r.query), r);
    var missing := Mismatched(batch.items, r.query) + batch.missing;
    var c0 := c.(pending := c.pending - {t}, refresh := None);
    TaggedFrom(Matching(batch.items, r.query), r, c.marks);
    ReconcileFrom(c.list.rows, page, kept, missing, c.epoch, r.query, c.marks);
    BatchCompanions(c, t);
    var l := c.list.(rows := ReconcileRetained(c.list.rows, page, kept, missing));
    assert c.marks == c.marks.(applied := r.generation);
    InstallKeepsInv(c0, r, l);
    var d := c0.(list := l);
    if SelectionMissing(d) { SelectedKeepsInv(d, r, d.selected.value, false); }
  }

  lemma SettledBatchKeepsInv(c: Loader, t: nat)
    requires Inv(c) && t in c.pending
    ensures Inv(c.(pending := c.pending - {t}, refresh := if c.refresh == Some(t) then None else c.refresh))
  {
  }

  lemma RefreshPointerKeepsInv(c: Loader, t: nat)
    requires Inv(c) && t in c.pending && !c.pending[t].phase.Retained?
    ensures Inv(c.(refresh := if c.refresh == Some(t) then None else c.refresh))
  {
  }

  lemma LookupAnswerKeepsInv(c: Loader, t: nat, batch: BatchAnswer)
    requires Inv(c) && Enabled(c, BatchSettles(t, batch)) && c.pending[t].phase.Selected?
    ensures Inv(AnswerBatch(c.(pending := c.pending - {t}), c.pending[t], batch))
  {
    SettledKeepsInv(c, t);
    if !batch.Batch? {
      FailKeepsInv(c.(pending := c.pending - {t}), c.pending[t], batch.BatchDenied?);
    } else if Fresh(c, c.pending[t]) && c.marks.revoked < c.pending[t].generation {
      LookupKeepsInv(c, t, batch);
    }
  }

  lemma RefreshAnswerKeepsInv(c: Loader, t: nat, batch: BatchAnswer)
    requires Inv(c) && Enabled(c, BatchSettles(t, batch)) && c.pending[t].phase.Retained?
    ensures Inv(AnswerBatch(c.(pending := c.pending - {t}, refresh := None), c.pending[t], batch))
  {
    SettledBatchKeepsInv(c, t);
    if !batch.Batch? {
      FailKeepsInv(c.(pending := c.pending - {t}, refresh := None), c.pending[t], batch.BatchDenied?);
    } else if Fresh(c, c.pending[t]) && c.marks.revoked < c.pending[t].generation {
      RefreshKeepsInv(c, t, batch);
    }
  }

  lemma BatchKeepsInv(c: Loader, t: nat, batch: BatchAnswer)
    requires Inv(c) && Enabled(c, BatchSettles(t, batch))
    ensures Inv(SettleBatch(c, t, batch))
  {
    var r := c.pending[t];
    var c1 := c.(refresh := if c.refresh == Some(t) then None else c.refresh);
    if r.phase.Selected? {
      RefreshPointerKeepsInv(c, t);
      LookupAnswerKeepsInv(c1, t, batch);
      var d := AnswerBatch(c1.(pending := c.pending - {t}), r, batch);
      FrameInv(d, if r.phase.awaited then Release(d, r) else d);
    } else {
      RefreshAnswerKeepsInv(c, t, batch);
    }
  }

  // ---------------------------------------------------------------- every run

  lemma StepKeepsInv(c: Loader, ev: Event)
    requires Inv(c) && Enabled(c, ev)
    ensures Inv(Step(c, ev))
  {
    match ev
    case Load(continuation) =>
      if c.consoleDenied { ClearKeepsInv(c); }
      else if !continuation || CanContinue(c) { BeginKeepsInv(c, if continuation then Continuation else FirstPage); }
    case LookUp(id) =>
      if c.consoleDenied { ClearKeepsInv(c); } else { BeginKeepsInv(c, Selected(id, true, true)); }
    case PageSettles(t, replay, answer) => PageKeepsInv(c, t, replay, answer);
    case BatchSettles(t, batch) => BatchKeepsInv(c, t, batch);
    case RefreshTimesOut => AbortKeepsInv(c);
    case EditFilters(_) =>
    case Select(_) =>
    case ConsoleCleared(denied) => ConsoleClearKeepsInv(c, denied);
    case ConsoleRecovered =>
  }

  lemma ConsoleClearKeepsInv(c: Loader, denied: bool)
    requires Inv(c)
    ensures Inv(Step(c, ConsoleCleared(denied)))
  {
    var d := c.(epoch := c.epoch + 1, consoleDenied := denied, list := EMPTY);
    assert Inv(d);
    AbortKeepsInv(d);
    FrameInv(AbortRefresh(d), Step(c, ConsoleCleared(denied)));
  }

  lemma {:induction false} RunKeepsInv(c: Loader, evs: seq<Event>)
    requires Inv(c) && Run(c, evs)
    ensures Inv(Exec(c, evs))
    decreases |evs|
  {
    if evs != [] {
      StepKeepsInv(c, evs[0]);
      RunKeepsInv(Step(c, evs[0]), evs[1..]);
    }
  }

  /**
   * In every run the list is of one epoch, the current one, and of one query
   * object; every row's request is newer than every applied denial; and no
   * workspace is listed twice.
   */
  lemma RowsHaveOneOrigin(q: Query, evs: seq<Event>)
    requires Run(Mounted(q), evs)
    ensures var c := Exec(Mounted(q), evs);
      && UniqueIds(c.list.rows)
      && (c.list.rows != [] ==> c.marks.applied > c.marks.revoked)
      && (forall x <- c.list.rows ::
            x.source.epoch == c.epoch && c.marks.revoked < x.source.generation <= c.marks.applied)
      && (forall x, y | x in c.list.rows && y in c.list.rows :: x.source.query == y.source.query)
      && (c.list.pagination.Some? ==> forall x <- c.list.rows :: x.source.query == c.list.pagination.value.query)
  {
    RunKeepsInv(Mounted(q), evs);
    var c := Exec(Mounted(q), evs);
    if c.list.rows != [] { assert c.list.rows[0] in c.list.rows; }
  }

  /** While a console denial is latched, no request of this epoch is outstanding. */
  lemma DeniedConsoleAsksNothing(q: Query, evs: seq<Event>, t: nat)
    requires Run(Mounted(q), evs)
    requires Exec(Mounted(q), evs).consoleDenied && t in Exec(Mounted(q), evs).pending
    ensures Exec(Mounted(q), evs).pending[t].epoch < Exec(Mounted(q), evs).epoch
  {
    RunKeepsInv(Mounted(q), evs);
  }

  // ---------------------------------------------------------------- denials and recovery

  /** Whether this event applies a 401/403 to the list. */
  ghost predicate Denies(c: Loader, ev: Event)
    requires Enabled(c, ev)
  {
    match ev
    case PageSettles(t, replay, answer) =>
      FailureCounts(c, c.pending[t]) && FindPage(c.list.rows, c.pending[t], replay, answer).answer.Denied?
    case BatchSettles(t, batch) => batch.BatchDenied? && FailureCounts(c, c.pending[t])
    case _ => false
  }

  lemma InstallPageRevoked(c: Loader, r: Request, found: Found, page: Page)
    ensures InstallPage(c, r, found, page).marks == c.marks.(applied := Max(c.marks.applied, r.generation))
  {
    if !r.phase.Continuation? { InstalledFirstPage(c, r, page); }
  }

  lemma InstalledFirstPage(c: Loader, r: Request, page: Page)
    ensures var d := InstallFirstPage(c, r, page);
      d.list == FirstPageList(c, r, page) && d.marks == c.marks.(applied := Max(c.marks.applied, r.generation))
  {
    var batch := FirstPageBatch(c, r, page);
    var d1 := Applied(c, r).(list := FirstPageList(c, r, page), rotation := Rotation(Some(r.query), batch.1));
    LaterStagesFrame(d1, r, page, batch.0);
    var d2 := StartRefresh(d1, r, page, batch.0);
    LaterStagesFrame(d2, r, page, batch.0);
    LaterStagesFrame(DropMissingSelection(d2, page), r, page, batch.0);
  }

  lemma PageRevoked(c: Loader, t: nat, replay: Fetch, answer: PageAnswer)
    requires t in c.pending
    ensures var d := SettlePage(c, t, replay, answer);
      && c.marks.revoked <= d.marks.revoked
      && (FailureCounts(c, c.pending[t]) && FindPage(c.list.rows, c.pending[t], replay, answer).answer.Denied? ==>
            d.list == EMPTY && c.marks.generation <= d.marks.revoked)
  {
    var r, c0 := c.pending[t], c.(pending := c.pending - {t});
    var found := FindPage(c0.list.rows, r, replay, answer);
    if found.answer.Answered? { InstallPageRevoked(c0, r, found, found.answer.page); }
  }

  lemma BatchRevoked(c: Loader, t: nat, batch: BatchAnswer)
    requires t in c.pending
    ensures var d := SettleBatch(c, t, batch);
      && c.marks.revoked <= d.marks.revoked
      && (FailureCounts(c, c.pending[t]) && batch.BatchDenied? ==>
            d.list == EMPTY && c.marks.generation <= d.marks.revoked)
  {
  }

  lemma RevokedGrows(c: Loader, ev: Event)
    requires Enabled(c, ev)
    ensures c.marks.revoked <= Step(c, ev).marks.revoked
    ensures Denies(c, ev) ==> Step(c, ev).list == EMPTY && c.marks.generation <= Step(c, ev).marks.revoked
  {
    match ev
    case PageSettles(t, replay, answer) => PageRevoked(c, t, replay, answer);
    case BatchSettles(t, batch) => BatchRevoked(c, t, batch);
    case _ =>
  }

  lemma {:induction false} RevokedGrowsOverRun(c: Loader, evs: seq<Event>)
    requires Run(c, evs)
    ensures c.marks.revoked <= Exec(c, evs).marks.revoked
    decreases |evs|
  {
    if evs != [] {
      RevokedGrows(c, evs[0]);
      RevokedGrowsOverRun(Step(c, evs[0]), evs[1..]);
    }
  }

  /** After an applied 401/403, only loads started later put rows on the list again. */
  lemma DeniedRowsNeverReturn(c: Loader, ev: Event, evs: seq<Event>, x: Row)
    requires Inv(c) && Enabled(c, ev) && Denies(c, ev) && Run(Step(c, ev), evs)
    requires x in Exec(Step(c, ev), evs).list.rows
    ensures x.source.generation > c.marks.generation
  {
    RevokedGrows(c, ev);
    RevokedGrowsOverRun(Step(c, ev), evs);
    StepKeepsInv(c, ev);
    RunKeepsInv(Step(c, ev), evs);
  }

  lemma RefreshedRowsHoldPage(rows: seq<Row>, r: Request, items: seq<Row>, hasMore: bool)
    ensures Ids(items) <= Ids(RefreshedRows(rows, r, items, hasMore))
  {
    ReconcileRetainedRows(rows, items, [], []);
    UnseenRows([] + items, {});
    assert [] + items == items;
  }

  /** From every state outside a console denial, one poll answered by a page installs it. */
  lemma PollRecovers(c: Loader, page: Page, replay: Fetch)
    requires Inv(c) && !c.consoleDenied
    ensures var asked, ev := Step(c, Load(false)), PageSettles(c.nextTicket, replay, Answered(page));
      && Enabled(asked, ev)
      && var d := Step(asked, ev);
         && Ids(page.items) <= Ids(d.list.rows) && d.marks.applied == d.marks.generation == c.marks.generation + 1
         && d.list.pagination.Some? && d.list.pagination.value.query == c.query
         && forall x <- d.list.rows :: x.source.query == c.query
  {
    var asked, ev := Step(c, Load(false)), PageSettles(c.nextTicket, replay, Answered(page));
    BeginKeepsInv(c, FirstPage);
    StepKeepsInv(asked, ev);
    var r := asked.pending[c.nextTicket];
    var c0 := asked.(pending := asked.pending - {c.nextTicket});
    var found := Found(Answered(page), r.pagination, None);
    assert Step(asked, ev) == InstallPage(c0, r, found, page);
    InstalledFirstPage(c0, r, page);
    TaggedFrom(page.items, r, c0.marks.(applied := r.generation));
    RefreshedRowsHoldPage(c0.list.rows, r, Tagged(page.items, r), page.hasMore);
    NextPaginationQuery(c0.list.rows, r, found, page);
  }
}

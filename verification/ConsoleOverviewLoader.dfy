/**
 * The loader as the hook keeps it: item, pagination and watermark refs that the
 * stages of a load overwrite in place. Every stage is proved to make exactly one
 * transition of the state machine.
 */
module ConsoleOverviewLoader {
  import opened Basics
  import opened Overview
  import opened OverviewBackfill
  import opened OverviewLoader
  import opened OverviewTheorems

  class LoaderHook {
    var epoch: nat
    var consoleDenied: bool
    var query: Query
    var selected: Option<int>
    var marks: Marks
    var list: List
    var inFlight: bool
    var isolated: Option<Selection>
    var rotation: Rotation
    var refresh: Option<nat>
    var nextTicket: nat
    var pending: map<nat, Request>

    ghost function Model(): Loader
      reads this
    {
      Loader(epoch, consoleDenied, query, selected, marks, list, inFlight, isolated, rotation,
             refresh, nextTicket, pending)
    }

    /** What every event keeps: see the loader's invariant. */
    ghost predicate Valid()
      reads this
    {
      Inv(Model())
    }

    constructor (q: Query)
      ensures Model() == Mounted(q) && Valid()
    {
      epoch, consoleDenied, query, selected := 0, false, q, None;
      marks, list, inFlight := Marks(0, 0, 0, 0), List([], None), false;
      isolated, rotation, refresh := None, Rotation(None, 0), None;
      nextTicket, pending := 0, map[];
    }

    // -------------------------------------------------------------- starting

    method ClearItems()
      modifies this`list, this`isolated
      ensures Model() == ClearList(old(Model()))
    {
      list := list.(rows := []);
      list := list.(pagination := None);
      isolated := None;
    }

    method Send(r: Request)
      modifies this`pending, this`nextTicket
      ensures Model() == Issue(old(Model()), r)
    {
      pending := pending[nextTicket := r];
      nextTicket := nextTicket + 1;
    }

    method BeginLoad(phase: Phase)
      modifies this`marks, this`inFlight, this`pending, this`nextTicket
      ensures Model() == Begin(old(Model()), phase)
    {
      var startedEmpty := list.pagination.None? && |list.rows| == 0;
      var generation := marks.generation + 1;
      marks := marks.(generation := generation);
      inFlight := true;
      Send(Request(epoch, query, generation, list.pagination, startedEmpty, isolated, phase));
    }

    method LoadOverview(continuation: bool)
      modifies this
      ensures Model() == StartLoad(old(Model()), continuation)
    {
      if consoleDenied {
        ClearItems();
        return;
      }
      if continuation {
        if inFlight || list.pagination.None? {
          return;
        }
        var captured := list.pagination.value;
        if captured.query != query || captured.complete || captured.nextCursor.None? {
          return;
        }
      }
      BeginLoad(if continuation then Continuation else FirstPage);
    }

    method LookUpSelected(id: int)
      modifies this
      ensures Model() == StartLookup(old(Model()), id)
    {
      if consoleDenied {
        ClearItems();
        return;
      }
      if id in Ids(list.rows) {
        return;
      }
      BeginLoad(Selected(id, true, true));
      isolated := Some(Selection(query, id));
    }

    // -------------------------------------------------------------- failures

    method ApplyFailure(r: Request, denied: bool)
      modifies this
      ensures Model() == Fail(old(Model()), r, denied)
    {
      if r.epoch != epoch || consoleDenied || r.generation < marks.applied
         || r.generation < marks.failed || r.generation <= marks.revoked {
        return;
      }
      if denied {
        marks := marks.(revoked := Max(marks.revoked, marks.generation));
        ClearItems();
        selected := None;
      } else {
        marks := marks.(failed := Max(marks.failed, r.generation));
      }
    }

    method AbortRetainedRefresh()
      modifies this`pending, this`refresh
      ensures Model() == AbortRefresh(old(Model()))
    {
      if refresh.Some? {
        pending := pending - {refresh.value};
        refresh := None;
      }
    }

    method FinishLoad(r: Request)
      modifies this`inFlight
      ensures Model() == Release(old(Model()), r)
    {
      if r.generation == marks.generation {
        inFlight := false;
      }
    }

    method PageFailed(r: Request, denied: bool)
      modifies this
      ensures Model() == Release(Fail(
        if FailureCounts(old(Model()), r) then AbortRefresh(old(Model())) else old(Model()), r, denied), r)
    {
      if r.epoch == epoch && !consoleDenied && r.generation >= marks.applied
         && r.generation >= marks.failed && r.generation > marks.revoked {
        AbortRetainedRefresh();
      }
      ApplyFailure(r, denied);
      FinishLoad(r);
    }

    // -------------------------------------------------------------- pages

    /** The backfill loop first, when the loaded range needs a replay. */
    method FindNextPage(r: Request, replay: Fetch, answer: PageAnswer) returns (found: Found)
      ensures found == FindPage(list.rows, r, replay, answer)
    {
      if !NeedsReplay(r) {
        found := Found(answer, r.pagination,
                       if r.phase.Continuation? && r.pagination.Some? then r.pagination.value.nextCursor else None);
        return;
      }
      var p := r.pagination.value;
      var done := BackfillFilteredHistory(p, p.firstCursor.value, p.boundary.value, replay);
      if done.failure.Some? {
        return Found(done.failure.value, Some(done.pagination), None);
      }
      var addedMembership := !(Ids(done.items) <= Ids(list.rows));
      if addedMembership || done.pagination.nextCursor.None? {
        var page := Page(done.items, !done.pagination.complete, done.pagination.nextCursor);
        return Found(Answered(page), Some(done.pagination), None);
      }
      return Found(answer, Some(done.pagination), done.pagination.nextCursor);
    }

    method MarkApplied(r: Request)
      modifies this`pending, this`refresh, this`marks
      ensures Model() == Applied(old(Model()), r)
    {
      AbortRetainedRefresh();
      marks := marks.(applied := Max(marks.applied, r.generation));
    }

    method DropSelection(page: Page)
      modifies this`selected
      ensures Model() == DropMissingSelection(old(Model()), page)
    {
      if selected.Some? && !page.hasMore && selected.value !in Ids(list.rows) {
        selected := None;
      }
    }

    method FetchSelected(r: Request, id: int, awaited: bool)
      modifies this`isolated, this`pending, this`nextTicket
      ensures Model() == IssueSelected(old(Model()), r, id, awaited)
    {
      var alone := r.startedEmpty || r.isolated == Some(Selection(r.query, id));
      if alone {
        isolated := Some(Selection(r.query, id));
      }
      Send(r.(phase := Selected(id, alone, awaited)));
    }

    method ApplyContinuation(r: Request, found: Found, page: Page)
      requires r.phase.Continuation?
      modifies this
      ensures Model() == InstallPage(old(Model()), r, found, page)
    {
      MarkApplied(r);
      var appended := AppendUniqueOverviewItems(list.rows, Tagged(page.items, r));
      list := List(appended, Some(Continued(r, found, page)));
      DropSelection(page);
      FinishLoad(r);
    }

    /** The rows page one leaves, through the loops of the list helpers. */
    method RefreshFirstPage(r: Request, items: seq<Row>, hasMore: bool) returns (rows: seq<Row>)
      ensures rows == RefreshedRows(list.rows, r, items, hasMore)
    {
      if SameQuery(r) && hasMore {
        var reconciled := ReconcileOverviewFirstPage(list.rows, items);
        rows := RefreshRows(reconciled, Ids(items), [], ToSet([]));
      } else {
        rows := AppendUniqueOverviewItems([], items);
      }
    }

    method StartRetainedRefresh(r: Request, page: Page, ids: seq<int>)
      modifies this`pending, this`nextTicket, this`refresh
      ensures Model() == StartRefresh(old(Model()), r, page, ids)
    {
      if ids != [] {
        var ticket := nextTicket;
        Send(r.(phase := Retained(Tagged(page.items, r), ids)));
        refresh := Some(ticket);
      }
    }

    method FollowSelectedRow(r: Request, page: Page)
      modifies this`isolated, this`pending, this`nextTicket, this`inFlight
      ensures Model() == FollowSelection(old(Model()), r, page)
    {
      if page.hasMore && selected.Some? && selected.value !in Ids(list.rows) {
        FetchSelected(r, selected.value, true);
      } else {
        FinishLoad(r);
      }
    }

    method ApplyFirstPage(r: Request, page: Page)
      modifies this
      ensures Model() == InstallFirstPage(old(Model()), r, page)
    {
      var batch := if SameQuery(r) && page.hasMore
        then RetainedBatch(list.rows, Tagged(page.items, r), if rotation.query == Some(r.query) then rotation.offset else 0)
        else ([], 0);
      MarkApplied(r);
      rotation := Rotation(Some(r.query), batch.1);
      var rows := RefreshFirstPage(r, Tagged(page.items, r), page.hasMore);
      list := List(rows, Some(Repaged(list.rows, r, page)));
      StartRetainedRefresh(r, page, batch.0);
      DropSelection(page);
      FollowSelectedRow(r, page);
    }

    method PageAnswered(t: nat, replay: Fetch, answer: PageAnswer)
      requires t in pending
      modifies this
      ensures Model() == SettlePage(old(Model()), t, replay, answer)
    {
      var r := pending[t];
      pending := pending - {t};
      var found := FindNextPage(r, replay, answer);
      if !found.answer.Answered? {
        PageFailed(r, found.answer.Denied?);
        return;
      }
      if r.epoch != epoch || consoleDenied || r.generation != marks.generation || query != r.query
         || r.generation <= marks.revoked || r.generation < marks.applied || r.generation < marks.failed {
        FinishLoad(r);
        return;
      }
      if r.phase.Continuation? {
        ApplyContinuation(r, found, found.answer.page);
      } else {
        ApplyFirstPage(r, found.answer.page);
      }
    }

    // -------------------------------------------------------------- batches

    method ApplySelected(r: Request, id: int, replace: bool, items: seq<Row>, missing: seq<int>)
      modifies this
      ensures Model() == InstallSelected(old(Model()), r, id, replace, items, missing)
    {
      if isolated == Some(Selection(r.query, id)) {
        isolated := None;
      }
      MarkApplied(r);
      if replace && id in Ids(items) {
        list := List(items, None);
      } else {
        var merged := AppendUniqueOverviewItems(list.rows, items);
        list := list.(rows := merged);
      }
      if id in missing || id !in Ids(items) {
        selected := None;
      }
    }

    /** Splits the answer into rows that still match and rows that left the query. */
    method SplitBatch(items: seq<Row>, q: Query) returns (matching: seq<Row>, left: seq<int>)
      ensures matching == Matching(items, q) && left == Mismatched(items, q)
    {
      matching, left := [], [];
      var i := 0;
      while i < |items|
        invariant 0 <= i <= |items|
        invariant Matching(items, q) == matching + Matching(items[i..], q)
        invariant Mismatched(items, q) == left + Mismatched(items[i..], q)
      {
        assert items[i..][1..] == items[i + 1..];
        if Matches(items[i], q) {
          matching := matching + [items[i]];
        } else {
          left := left + [items[i].id];
        }
        i := i + 1;
      }
    }

    method ApplyRetained(r: Request, page: seq<Row>, items: seq<Row>, missing: seq<int>)
      modifies this
      ensures Model() == InstallRetained(old(Model()), r, page, items, missing)
    {
      var matching, left := SplitBatch(items, r.query);
      var reconciled := ReconcileOverviewFirstPage(list.rows, page);
      var rows := RefreshRows(reconciled, Ids(page), Tagged(matching, r), ToSet(left + missing));
      list := list.(rows := rows);
      if selected.Some? && selected.value !in Ids(list.rows) {
        FetchSelected(r, selected.value, false);
      }
    }

    method ApplyBatch(r: Request, batch: BatchAnswer)
      modifies this
      ensures Model() == AnswerBatch(old(Model()), r, batch)
    {
      if !batch.Batch? {
        ApplyFailure(r, batch.BatchDenied?);
        return;
      }
      if r.epoch != epoch || consoleDenied || r.generation != marks.generation || query != r.query
         || r.generation <= marks.revoked || r.generation < marks.failed {
        return;
      }
      if r.phase.Selected? {
        var matching, _ := SplitBatch(batch.items, r.query);
        ApplySelected(r, r.phase.id, r.phase.replace, Tagged(matching, r), batch.missing);
      } else if r.phase.Retained? {
        ApplyRetained(r, r.phase.page, batch.items, batch.missing);
      }
    }

    method BatchAnswered(t: nat, batch: BatchAnswer)
      requires t in pending
      modifies this
      ensures Model() == SettleBatch(old(Model()), t, batch)
    {
      var r := pending[t];
      pending := pending - {t};
      if refresh == Some(t) {
        refresh := None;
      }
      ApplyBatch(r, batch);
      if r.phase.Selected? && r.phase.awaited {
        FinishLoad(r);
      }
    }

    // -------------------------------------------------------------- the console around it

    method ClearAuthorizedConsoleFeeds(denied: bool)
      modifies this
      ensures Model() == Step(old(Model()), ConsoleCleared(denied))
    {
      epoch := epoch + 1;
      consoleDenied := denied;
      ClearItems();
      AbortRetainedRefresh();
      selected := None;
    }

    method Dispatch(ev: Event)
      requires Enabled(Model(), ev)
      modifies this
      ensures Model() == Step(old(Model()), ev)
    {
      match ev {
        case Load(continuation) => LoadOverview(continuation);
        case LookUp(id) => LookUpSelected(id);
        case PageSettles(t, replay, answer) => PageAnswered(t, replay, answer);
        case BatchSettles(t, batch) => BatchAnswered(t, batch);
        case RefreshTimesOut => AbortRetainedRefresh();
        case EditFilters(q) => query := q;
        case Select(target) => selected := target;
        case ConsoleCleared(denied) => ClearAuthorizedConsoleFeeds(denied);
        case ConsoleRecovered => consoleDenied := false;
      }
    }

    /**
     * Every event makes one step of the loader. Whatever the events, the list is
     * of the current epoch and of one query, newer than every applied denial, and
     * names no workspace twice.
     */
    method Handle(ev: Event)
      requires Valid() && Enabled(Model(), ev)
      modifies this
      ensures Model() == Step(old(Model()), ev) && Valid()
      ensures UniqueIds(list.rows) && (list.rows != [] ==> marks.applied > marks.revoked)
      ensures forall x <- list.rows :: x.source.epoch == epoch && x.source.generation > marks.revoked
      ensures forall x <- list.rows, y <- list.rows :: x.source.query == y.source.query
    {
      StepKeepsInv(Model(), ev);
      Dispatch(ev);
      if list.rows != [] { assert list.rows[0] in list.rows; }
    }
  }
}

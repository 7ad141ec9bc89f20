/**
 * The overview loader as a state machine. Polls, continuations, selected-row
 * lookups and best-effort history refreshes overlap; generations, the
 * authorization epoch and the query object decide which of them may still write
 * the workspace list. One load may issue several requests, all of its generation.
 */
module OverviewLoader {
  import opened Basics
  import opened Overview
  import opened OverviewBackfill

  datatype Selection = Selection(query: Query, id: int)

  datatype Phase =
    | FirstPage
    | Continuation
    | Retained(page: seq<Row>, ids: seq<int>)                  // refresh of rows beyond the first page
    | Selected(id: int, replace: bool, awaited: bool)          // lookup of the selected workspace

  /** What a request captured when its load started. */
  datatype Request = Request(
    epoch: nat, query: Query, generation: nat, pagination: Option<Pagination>,
    startedEmpty: bool, isolated: Option<Selection>, phase: Phase)

  datatype BatchAnswer = BatchDenied | BatchOutage | Batch(items: seq<Row>, missing: seq<int>)

  datatype Marks = Marks(generation: nat, applied: nat, failed: nat, revoked: nat)

  datatype List = List(rows: seq<Row>, pagination: Option<Pagination>)

  datatype Rotation = Rotation(query: Option<Query>, offset: nat)

  datatype Loader = Loader(
    epoch: nat, consoleDenied: bool, query: Query, selected: Option<int>,
    marks: Marks, list: List, inFlight: bool, isolated: Option<Selection>, rotation: Rotation,
    refresh: Option<nat>, nextTicket: nat, pending: map<nat, Request>)

  datatype Event =
    | Load(continuation: bool)
    | LookUp(id: int)
    | PageSettles(ticket: nat, replay: Fetch, answer: PageAnswer)
    | BatchSettles(ticket: nat, batch: BatchAnswer)
    | RefreshTimesOut
    | EditFilters(query: Query)
    | Select(target: Option<int>)
    | ConsoleCleared(denied: bool)
    | ConsoleRecovered

  const EMPTY := List([], None)

  // ---------------------------------------------------------------- starting

  function ClearList(c: Loader): Loader { c.(list := EMPTY, isolated := None) }

  function Issue(c: Loader, r: Request): Loader
  {
    c.(pending := c.pending[c.nextTicket := r], nextTicket := c.nextTicket + 1)
  }

  function Begin(c: Loader, phase: Phase): Loader
  {
    var g := c.marks.generation + 1;
    var empty := c.list.pagination.None? && c.list.rows == [];
    var r := Request(c.epoch, c.query, g, c.list.pagination, empty, c.isolated, phase);
    Issue(c.(marks := c.marks.(generation := g), inFlight := true), r)
  }

  predicate CanContinue(c: Loader)
  {
    && !c.inFlight && c.list.pagination.Some?
    && var p := c.list.pagination.value;
       p.query == c.query && !p.complete && p.nextCursor.Some?
  }

  function StartLoad(c: Loader, continuation: bool): Loader
  {
    if c.consoleDenied then ClearList(c)
    else if continuation && !CanContinue(c) then c
    else Begin(c, if continuation then Continuation else FirstPage)
  }

  function StartLookup(c: Loader, id: int): Loader
  {
    if c.consoleDenied then ClearList(c)
    else if id in Ids(c.list.rows) then c
    else Begin(c, Selected(id, true, true)).(isolated := Some(Selection(c.query, id)))
  }

  // ---------------------------------------------------------------- who may write

  predicate Fresh(c: Loader, r: Request)
  {
    r.epoch == c.epoch && !c.consoleDenied && r.generation == c.marks.generation && r.query == c.query
  }

  predicate Writes(c: Loader, r: Request)
  {
    Fresh(c, r) && c.marks.revoked < r.generation && c.marks.applied <= r.generation && c.marks.failed <= r.generation
  }

  /** A failure counts until something newer has applied, even if superseded. */
  predicate FailureCounts(c: Loader, r: Request)
  {
    && r.epoch == c.epoch && !c.consoleDenied
    && c.marks.applied <= r.generation && c.marks.failed <= r.generation && c.marks.revoked < r.generation
  }

  function Refuse(c: Loader): Loader
  {
    ClearList(c).(marks := c.marks.(revoked := Max(c.marks.revoked, c.marks.generation)), selected := None)
  }

  function Fail(c: Loader, r: Request, denied: bool): Loader
  {
    if !FailureCounts(c, r) then c
    else if denied then Refuse(c)
    else c.(marks := c.marks.(failed := Max(c.marks.failed, r.generation)))
  }

  function AbortRefresh(c: Loader): Loader
  {
    if c.refresh.Some? then c.(pending := c.pending - {c.refresh.value}, refresh := None) else c
  }

  function Applied(c: Loader, r: Request): Loader
  {
    AbortRefresh(c).(marks := c.marks.(applied := Max(c.marks.applied, r.generation)))
  }

  function Release(c: Loader, r: Request): Loader
  {
    if r.generation == c.marks.generation then c.(inFlight := false) else c
  }

  function Tagged(items: seq<Row>, r: Request): (t: seq<Row>)
    ensures |t| == |items|
    ensures forall i :: 0 <= i < |t| ==> t[i] == items[i].(source := Source(r.epoch, r.query, r.generation))
  {
    if items == [] then []
    else [items[0].(source := Source(r.epoch, r.query, r.generation))] + Tagged(items[1..], r)
  }

  // ---------------------------------------------------------------- a settled page

  /** The page to install, the pagination it continues, and the cursor it answered. */
  datatype Found = Found(answer: PageAnswer, base: Option<Pagination>, requested: Option<Cursor>)

  predicate NeedsReplay(r: Request)
  {
    && r.phase.Continuation? && StatusFiltered(r.query) && r.pagination.Some?
    && r.pagination.value.needsBackfill && r.pagination.value.firstCursor.Some? && r.pagination.value.boundary.Some?
  }

  function FindPage(rows: seq<Row>, r: Request, replay: Fetch, answer: PageAnswer): Found
  {
    if !NeedsReplay(r) then
      Found(answer, r.pagination, if r.phase.Continuation? && r.pagination.Some? then r.pagination.value.nextCursor else None)
    else
      var p := r.pagination.value;
      var done := ReplayLoadedRange(p, p.firstCursor.value, p.boundary.value, replay);
      if done.failure.Some? then Found(done.failure.value, Some(done.pagination), None)
      else if Ids(done.items) <= Ids(rows) && done.pagination.nextCursor.Some? then
        Found(answer, Some(done.pagination), done.pagination.nextCursor)
      else
        Found(Answered(Page(done.items, !done.pagination.complete, done.pagination.nextCursor)),
              Some(done.pagination), None)
  }

  function SettlePage(c: Loader, t: nat, replay: Fetch, answer: PageAnswer): Loader
    requires t in c.pending
  {
    var r := c.pending[t];
    var c := c.(pending := c.pending - {t});
    var found := FindPage(c.list.rows, r, replay, answer);
    match found.answer
    case Denied => Release(Fail(if FailureCounts(c, r) then AbortRefresh(c) else c, r, true), r)
    case Outage => Release(Fail(if FailureCounts(c, r) then AbortRefresh(c) else c, r, false), r)
    case Answered(page) => if Writes(c, r) then InstallPage(c, r, found, page) else Release(c, r)
  }

  function InstallPage(c: Loader, r: Request, found: Found, page: Page): Loader
  {
    if r.phase.Continuation? then InstallContinuation(c, r, found, page) else InstallFirstPage(c, r, page)
  }

  function InstallContinuation(c: Loader, r: Request, found: Found, page: Page): Loader
  {
    var list := List(AppendUnique(c.list.rows, Tagged(page.items, r)), Some(Continued(r, found, page)));
    Release(DropMissingSelection(Applied(c, r).(list := list), page), r)
  }

  function InstallFirstPage(c: Loader, r: Request, page: Page): Loader
  {
    var batch := FirstPageBatch(c, r, page);
    var d := Applied(c, r).(list := FirstPageList(c, r, page), rotation := Rotation(Some(r.query), batch.1));
    FollowSelection(DropMissingSelection(StartRefresh(d, r, page, batch.0), page), r, page)
  }

  function FirstPageList(c: Loader, r: Request, page: Page): List
  {
    List(RefreshedRows(c.list.rows, r, Tagged(page.items, r), page.hasMore), Some(Repaged(c.list.rows, r, page)))
  }

  function FirstPageBatch(c: Loader, r: Request, page: Page): (seq<int>, nat)
  {
    if SameQuery(r) && page.hasMore then RetainedBatch(c.list.rows, Tagged(page.items, r), Offset(c, r)) else ([], 0)
  }

  /** Best-effort history: at most one refresh is alive. */
  function StartRefresh(c: Loader, r: Request, page: Page, ids: seq<int>): Loader
  {
    if ids == [] then c
    else Issue(c, r.(phase := Retained(Tagged(page.items, r), ids))).(refresh := Some(c.nextTicket))
  }

  /** The load goes on to look up a selected workspace that page one does not show. */
  function FollowSelection(c: Loader, r: Request, page: Page): Loader
  {
    if page.hasMore && SelectionMissing(c) then IssueSelected(c, r, c.selected.value, true) else Release(c, r)
  }

  predicate SameQuery(r: Request) { r.pagination.Some? && r.pagination.value.query == r.query }

  function Offset(c: Loader, r: Request): nat
  {
    if c.rotation.query == Some(r.query) then c.rotation.offset else 0
  }

  function IdList(rows: seq<Row>): (ids: seq<int>)
    ensures |ids| == |rows| && forall i :: 0 <= i < |ids| ==> ids[i] == rows[i].id
  {
    if rows == [] then [] else [rows[0].id] + IdList(rows[1..])
  }

  /** One rotating batch: what to ask for, and the offset to go on from. */
  function NextBatch(ids: seq<int>, offset: nat): (seq<int>, nat)
  {
    var start := if offset >= |ids| then 0 else offset;
    var end := Min(|ids|, start + OVERVIEW_REFRESH_BATCH_SIZE);
    (ids[start..end], if end >= |ids| then 0 else end)
  }

  /** The batch is taken from the loaded rows outside the refreshed first page. */
  function RetainedBatch(rows: seq<Row>, page: seq<Row>, offset: nat): (seq<int>, nat)
  {
    NextBatch(IdList(Unseen(rows, Ids(page))), offset)
  }

  function RefreshedRows(rows: seq<Row>, r: Request, items: seq<Row>, hasMore: bool): seq<Row>
  {
    if SameQuery(r) && hasMore then ReconcileRetained(rows, items, [], []) else AppendUnique([], items)
  }

  function Continued(r: Request, found: Found, page: Page): Pagination
  {
    var base := found.base;
    var fetched := (if base.Some? then base.value.fetched else {})
                   + (if found.requested.Some? then {found.requested.value} else {});
    var repeated := page.hasMore && page.next.Some? && page.next.value in fetched;
    var first := if base.Some? then base.value.firstCursor else None;
    var next := if page.hasMore && !repeated then page.next else None;
    var boundary := if page.items == [] && base.Some? then base.value.boundary else LastKey(page.items);
    Pagination(r.query, first, next, boundary,
               StatusFiltered(r.query) && next.Some? && next != first && boundary.Some?,
               !page.hasMore, fetched)
  }

  /** Keep the loaded continuation while page one still meets the list at the same cursor. */
  function Repaged(rows: seq<Row>, r: Request, page: Page): Pagination
  {
    if !page.hasMore then Pagination(r.query, None, None, None, false, true, {})
    else if SameQuery(r) && !(Ids(page.items) !! Ids(rows)) && r.pagination.value.nextCursor.Some?
            && (!StatusFiltered(r.query) || r.pagination.value.firstCursor == page.next) then
      var p := r.pagination.value;
      p.(needsBackfill := StatusFiltered(r.query) && p.nextCursor != page.next && p.boundary.Some?)
    else Pagination(r.query, page.next, page.next, LastKey(page.items), false, false, {})
  }

  predicate SelectionMissing(c: Loader) { c.selected.Some? && c.selected.value !in Ids(c.list.rows) }

  function DropMissingSelection(c: Loader, page: Page): Loader
  {
    if !page.hasMore && SelectionMissing(c) then c.(selected := None) else c
  }

  /** A deep link into an empty list shows its workspace alone. */
  function IssueSelected(c: Loader, r: Request, id: int, awaited: bool): Loader
  {
    var alone := r.startedEmpty || r.isolated == Some(Selection(r.query, id));
    var c := if alone then c.(isolated := Some(Selection(r.query, id))) else c;
    Issue(c, r.(phase := Selected(id, alone, awaited)))
  }

  // ---------------------------------------------------------------- a settled batch

  function Matching(items: seq<Row>, q: Query): (m: seq<Row>)
  {
    if items == [] then []
    else if Matches(items[0], q) then [items[0]] + Matching(items[1..], q)
    else Matching(items[1..], q)
  }

  function Mismatched(items: seq<Row>, q: Query): seq<int>
  {
    if items == [] then []
    else if Matches(items[0], q) then Mismatched(items[1..], q)
    else [items[0].id] + Mismatched(items[1..], q)
  }

  function AnswerBatch(c: Loader, r: Request, batch: BatchAnswer): Loader
  {
    match batch
    case BatchDenied => Fail(c, r, true)
    case BatchOutage => Fail(c, r, false)
    case Batch(items, missing) =>
      if !(Fresh(c, r) && c.marks.revoked < r.generation && c.marks.failed <= r.generation) then c
      else match r.phase
        case Selected(id, replace, _) => InstallSelected(c, r, id, replace, Tagged(Matching(items, r.query), r), missing)
        case Retained(page, _) => InstallRetained(c, r, page, items, missing)
        case _ => c
  }

  function SettleBatch(c: Loader, t: nat, batch: BatchAnswer): Loader
    requires t in c.pending
  {
    var r := c.pending[t];
    var d := AnswerBatch(
      c.(pending := c.pending - {t}, refresh := if c.refresh == Some(t) then None else c.refresh), r, batch);
    if r.phase.Selected? && r.phase.awaited then Release(d, r) else d
  }

  function InstallSelected(c: Loader, r: Request, id: int, replace: bool, items: seq<Row>, missing: seq<int>): Loader
  {
    var found := id in Ids(items);
    var d := Applied(c, r).(isolated := if c.isolated == Some(Selection(r.query, id)) then None else c.isolated);
    var d := d.(list := if replace && found then List(items, None)
                        else c.list.(rows := AppendUnique(c.list.rows, items)));
    if id in missing || !found then d.(selected := None) else d
  }

  function InstallRetained(c: Loader, r: Request, page: seq<Row>, items: seq<Row>, missing: seq<int>): Loader
  {
    var kept := Tagged(Matching(items, r.query), r);
    var rows := ReconcileRetained(c.list.rows, page, kept, Mismatched(items, r.query) + missing);
    var d := c.(list := c.list.(rows := rows));
    if SelectionMissing(d) then IssueSelected(d, r, d.selected.value, false) else d
  }

  // ---------------------------------------------------------------- steps and runs

  function Asked(r: Request): set<int>
  {
    match r.phase
    case Retained(_, ids) => ToSet(ids)
    case Selected(id, _, _) => {id}
    case _ => {}
  }

  /** A batch answers only for workspaces it was asked about, each once. */
  ghost predicate Enabled(c: Loader, ev: Event)
  {
    match ev
    case PageSettles(t, _, _) => t in c.pending && (c.pending[t].phase.FirstPage? || c.pending[t].phase.Continuation?)
    case BatchSettles(t, b) =>
      && t in c.pending && (c.pending[t].phase.Selected? || c.pending[t].phase.Retained?)
      && (b.Batch? ==> UniqueIds(b.items) && Ids(b.items) <= Asked(c.pending[t]))
    case EditFilters(q) => q.version > c.query.version
    case _ => true
  }

  function Step(c: Loader, ev: Event): Loader
    requires Enabled(c, ev)
  {
    match ev
    case Load(continuation) => StartLoad(c, continuation)
    case LookUp(id) => StartLookup(c, id)
    case PageSettles(t, replay, answer) => SettlePage(c, t, replay, answer)
    case BatchSettles(t, batch) => SettleBatch(c, t, batch)
    case RefreshTimesOut => AbortRefresh(c)
    case EditFilters(q) => c.(query := q)
    case Select(id) => c.(selected := id)
    case ConsoleCleared(denied) =>
      AbortRefresh(ClearList(c)).(epoch := c.epoch + 1, consoleDenied := denied, selected := None)
    case ConsoleRecovered => c.(consoleDenied := false)
  }

  function Mounted(q: Query): Loader
  {
    Loader(0, false, q, None, Marks(0, 0, 0, 0), EMPTY, false, None, Rotation(None, 0), None, 0, map[])
  }

  ghost predicate Run(c: Loader, evs: seq<Event>)
    decreases |evs|
  {
    evs == [] || (Enabled(c, evs[0]) && Run(Step(c, evs[0]), evs[1..]))
  }

  ghost function Exec(c: Loader, evs: seq<Event>): Loader
    requires Run(c, evs)
    decreases |evs|
  {
    if evs == [] then c else Exec(Step(c, evs[0]), evs[1..])
  }
}

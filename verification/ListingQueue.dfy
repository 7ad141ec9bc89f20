/**
 * The listing route with its state updates queued.
 *
 * React keeps one queue of updates per state cell and may run it long after the
 * callback that filled it. Here every cell has its own queue, each queue is
 * flushed one update at a time at any moment, and an update reads the refs as
 * they are when it runs. Entries and offsets are always queued together, so one
 * queue carries both.
 */
module ListingQueue {
  import opened Basics
  import opened LogTrim
  import opened LogColumn

  datatype Click = Toggle(stream: StreamId, checked: bool) | Replace(streams: seq<StreamId>)

  datatype StreamsUpdate = ClearStreams | InstallStreams(generation: nat, items: seq<StreamId>)
  datatype SelectedUpdate = ClearSelected | PickSelected(generation: nat, items: seq<StreamId>) | Clicked(click: Click)
  datatype CachesUpdate = ClearCaches | RevokeCaches(epoch: nat) | WriteCaches(epoch: nat, rows: seq<LogEntry>, offsets: map<StreamId, int>)

  datatype Cells = Cells(
    epoch: nat, listing: ListingRoute,
    streams: seq<StreamId>, selected: seq<StreamId>, rows: seq<LogEntry>, offsets: map<StreamId, int>,
    streamsQueue: seq<StreamsUpdate>, selectedQueue: seq<SelectedUpdate>, cachesQueue: seq<CachesUpdate>,
    installed: seq<nat>,      // generations of the inventories installed so far
    clicks: seq<Click>)       // clicks since the last listing denial or withdrawal

  datatype Event =
    | StartPoll
    | PollSettles(poll: nat, answer: Listing)
    | Clicks(click: Click)
    | RouteWrites(rows: seq<LogEntry>, offsets: map<StreamId, int>)  // a tail wave or a live frame
    | RouteDenied(newEpoch: bool)                                    // a tail or stream denial
    | LogsWithdrawn                                                  // a poll finds the logs unavailable
    | FlushStreams
    | FlushSelected
    | FlushCaches(stillLatched: bool)

  function ApplyClick(selected: seq<StreamId>, click: Click): seq<StreamId>
  {
    match click
    case Toggle(s, checked) =>
      if checked then (if s in selected then selected else selected + [s]) else Without(selected, s)
    case Replace(streams) => streams
  }

  function Without(selected: seq<StreamId>, s: StreamId): seq<StreamId>
  {
    if selected == [] then []
    else if selected[0] == s then Without(selected[1..], s)
    else [selected[0]] + Without(selected[1..], s)
  }

  function ApplyClicks(selected: seq<StreamId>, clicks: seq<Click>): seq<StreamId>
  {
    if clicks == [] then selected else ApplyClick(ApplyClicks(selected, DropLast(clicks)), Last(clicks))
  }

  function Queued(clicks: seq<Click>): (q: seq<SelectedUpdate>)
    ensures |q| == |clicks|
  {
    seq(|clicks|, i requires 0 <= i < |clicks| => Clicked(clicks[i]))
  }

  /** A listing 200 re-checked when its update runs. */
  predicate StillApplied(l: ListingRoute, g: nat) { g == l.applied && g > l.revoked && g >= l.failed }

  // ---------------------------------------------------------------- callbacks

  function SettleListing(c: Cells, g: nat, answer: Listing): Cells
    requires g in c.listing.polls
  {
    var startedIn := c.listing.polls[g];
    var l := c.listing.(polls := c.listing.polls - {g});
    var c := c.(listing := l);
    if startedIn != c.epoch then c
    else match answer
      case ListingUnauthorized =>
        if g < l.applied || (l.denied && g <= l.revoked) then c
        else c.(epoch := c.epoch + 1,
                listing := l.(revoked := Max(l.revoked, l.generation), denied := true),
                streamsQueue := c.streamsQueue + [ClearStreams],
                selectedQueue := c.selectedQueue + [ClearSelected],
                cachesQueue := c.cachesQueue + [ClearCaches],
                clicks := [])
      case ListingOutage =>
        if g < l.applied || g < l.failed then c else c.(listing := l.(failed := g))
      case Streams(items) =>
        if g <= l.revoked || g < l.applied || g < l.failed then c
        else c.(listing := l.(denied := false, applied := g),
                streamsQueue := c.streamsQueue + [InstallStreams(g, items)],
                selectedQueue := c.selectedQueue + [PickSelected(g, items)])
  }

  function RunStreams(c: Cells): Cells
    requires c.streamsQueue != []
  {
    var rest := c.(streamsQueue := c.streamsQueue[1..]);
    match c.streamsQueue[0]
    case ClearStreams => rest.(streams := [])
    case InstallStreams(g, items) =>
      if StillApplied(c.listing, g) then rest.(streams := items, installed := c.installed + [g]) else rest
  }

  function RunSelected(c: Cells): Cells
    requires c.selectedQueue != []
  {
    var rest := c.(selectedQueue := c.selectedQueue[1..]);
    match c.selectedQueue[0]
    case ClearSelected => rest.(selected := [])
    case PickSelected(g, items) =>
      if StillApplied(c.listing, g) then rest.(selected := PickStreams(items, c.selected)) else rest
    case Clicked(click) => rest.(selected := ApplyClick(c.selected, click))
  }

  function RunCaches(c: Cells, stillLatched: bool): Cells
    requires c.cachesQueue != []
  {
    var rest := c.(cachesQueue := c.cachesQueue[1..]);
    match c.cachesQueue[0]
    case ClearCaches => rest.(rows := [], offsets := map[])
    case RevokeCaches(e) => if stillLatched && e == c.epoch && !c.listing.denied then rest.(rows := [], offsets := map[]) else rest
    case WriteCaches(e, rows, offsets) =>
      if c.listing.denied || e != c.epoch then rest
      else rest.(rows := c.rows + rows, offsets := c.offsets + offsets)
  }

  /** The controls on screen: one per listed stream, select all, and clear. */
  predicate Offered(streams: seq<StreamId>, click: Click)
  {
    match click
    case Toggle(s, _) => s in streams
    case Replace(picked) => picked == streams || picked == []
  }

  predicate Enabled(c: Cells, ev: Event)
  {
    match ev
    case PollSettles(g, _) => g in c.listing.polls
    case Clicks(click) => Offered(c.streams, click)
    case RouteWrites(_, _) => !c.listing.denied
    case RouteDenied(_) => !c.listing.denied
    case FlushStreams => c.streamsQueue != []
    case FlushSelected => c.selectedQueue != []
    case FlushCaches(_) => c.cachesQueue != []
    case _ => true
  }

  function Step(c: Cells, ev: Event): Cells
    requires Enabled(c, ev)
  {
    match ev
    case StartPoll =>
      var g := c.listing.generation + 1;
      c.(listing := c.listing.(generation := g, polls := c.listing.polls[g := c.epoch]))
    case PollSettles(g, answer) => SettleListing(c, g, answer)
    case Clicks(click) => c.(selectedQueue := c.selectedQueue + [Clicked(click)], clicks := c.clicks + [click])
    case RouteWrites(rows, offsets) => c.(cachesQueue := c.cachesQueue + [WriteCaches(c.epoch, rows, offsets)])
    case RouteDenied(newEpoch) =>
      var e := if newEpoch then c.epoch + 1 else c.epoch;
      c.(epoch := e, cachesQueue := c.cachesQueue + [RevokeCaches(e)])
    case LogsWithdrawn =>
      c.(streamsQueue := c.streamsQueue + [ClearStreams], selectedQueue := c.selectedQueue + [ClearSelected], clicks := [])
    case FlushStreams => RunStreams(c)
    case FlushSelected => RunSelected(c)
    case FlushCaches(stillLatched) => RunCaches(c, stillLatched)
  }

  const EMPTY := Cells(0, ListingRoute(0, 0, 0, 0, false, map[]), [], [], [], map[], [], [], [], [], [])

  predicate Run(c: Cells, evs: seq<Event>)
    decreases |evs|
  {
    evs == [] || (Enabled(c, evs[0]) && Run(Step(c, evs[0]), evs[1..]))
  }

  function Exec(c: Cells, evs: seq<Event>): Cells
    requires Run(c, evs)
    decreases |evs|
  {
    if evs == [] then c else Exec(Step(c, evs[0]), evs[1..])
  }

  // ---------------------------------------------------------------- invariant

  predicate Ascending(gs: seq<nat>) { forall i, j :: 0 <= i < j < |gs| ==> gs[i] < gs[j] }

  function Installs(q: seq<StreamsUpdate>): seq<nat>
  {
    if q == [] then [] else if q[0].InstallStreams? then [q[0].generation] + Installs(q[1..]) else Installs(q[1..])
  }

  /** Installed and queued inventories, in order, and none newer than the applied watermark. */
  predicate History(c: Cells)
  {
    var gs := c.installed + Installs(c.streamsQueue);
    && Ascending(gs) && (forall g <- gs :: g <= c.listing.applied)
    && c.listing.applied <= c.listing.generation
    && (forall g <- c.listing.polls :: g <= c.listing.generation && g != c.listing.applied)
  }

  predicate StreamsRevoked(q: seq<StreamsUpdate>, streams: seq<StreamId>)
  {
    if q == [] then streams == [] else Last(q).ClearStreams?
  }

  predicate CachesRevoked(q: seq<CachesUpdate>, rows: seq<LogEntry>, offsets: map<StreamId, int>)
  {
    if q == [] then rows == [] && offsets == map[] else Last(q).ClearCaches?
  }

  /** The queue ends with the clicks since the last clear, on top of it. */
  predicate SelectionRevoked(q: seq<SelectedUpdate>, clicks: seq<Click>, selected: seq<StreamId>)
  {
    var n, k := |clicks|, |q|;
    if k > n then q[k - n - 1].ClearSelected? && q[k - n..] == Queued(clicks)
    else q == Queued(clicks[n - k..]) && selected == ApplyClicks([], clicks[..n - k])
  }

  predicate Revoked(c: Cells)
  {
    && StreamsRevoked(c.streamsQueue, c.streams) && CachesRevoked(c.cachesQueue, c.rows, c.offsets)
    && SelectionRevoked(c.selectedQueue, c.clicks, c.selected)
  }

  predicate Inv(c: Cells)
  {
    && History(c)
    && (c.listing.denied ==> Revoked(c))
  }

  lemma {:induction false} InstallsConcat(a: seq<StreamsUpdate>, b: seq<StreamsUpdate>)
    ensures Installs(a + b) == Installs(a) + Installs(b)
  {
    if a == [] {
      assert a + b == b;
    } else {
      InstallsConcat(a[1..], b);
      assert (a + b)[0] == a[0] && (a + b)[1..] == a[1..] + b;
    }
  }

  lemma Newer(gs: seq<nat>, g: nat, bound: nat)
    requires Ascending(gs) && (forall x <- gs :: x <= bound) && bound < g
    ensures Ascending(gs + [g]) && (forall x <- gs + [g] :: x <= g)
  {
    forall i | 0 <= i < |gs| ensures gs[i] < g { assert gs[i] in gs; }
  }

  lemma PollKeepsHistory(c: Cells, g: nat, answer: Listing)
    requires History(c) && g in c.listing.polls
    ensures History(SettleListing(c, g, answer))
  {
    InstallsConcat(c.streamsQueue, [ClearStreams]);
    assert Installs([ClearStreams]) == [];
    if answer.Streams? {
      InstallsConcat(c.streamsQueue, [InstallStreams(g, answer.items)]);
      assert Installs([InstallStreams(g, answer.items)]) == [g] by {
        assert [InstallStreams(g, answer.items)][1..] == [];
      }
      var gs := c.installed + Installs(c.streamsQueue);
      assert c.installed + (Installs(c.streamsQueue) + [g]) == gs + [g];
      if g > c.listing.applied { Newer(gs, g, c.listing.applied); }
    }
    assert Installs(c.streamsQueue) + [] == Installs(c.streamsQueue);
  }

  lemma FlushKeepsHistory(c: Cells)
    requires History(c) && c.streamsQueue != []
    ensures History(RunStreams(c))
  {
    var head, rest := c.streamsQueue[0], Installs(c.streamsQueue[1..]);
    if head.InstallStreams? {
      assert (c.installed + [head.generation]) + rest == c.installed + ([head.generation] + rest);
      var gs := c.installed + ([head.generation] + rest);
      var kept := c.installed + rest;
      forall i | 0 <= i < |kept| ensures kept[i] == gs[if i < |c.installed| then i else i + 1] {}
      forall g | g in kept ensures g in gs {}
    }
  }

  lemma StepKeepsHistory(c: Cells, ev: Event)
    requires History(c) && Enabled(c, ev)
    ensures History(Step(c, ev))
  {
    match ev
    case PollSettles(g, answer) => PollKeepsHistory(c, g, answer);
    case LogsWithdrawn =>
      InstallsConcat(c.streamsQueue, [ClearStreams]);
      assert Installs([ClearStreams]) == [] && Installs(c.streamsQueue) + [] == Installs(c.streamsQueue);
    case FlushStreams => FlushKeepsHistory(c);
    case _ =>
  }

  /** A denial puts its clears behind everything already queued. */
  lemma PollKeepsRevoked(c: Cells, g: nat, answer: Listing)
    requires g in c.listing.polls && (c.listing.denied ==> Revoked(c))
    ensures SettleListing(c, g, answer).listing.denied ==> Revoked(SettleListing(c, g, answer))
  {
    var d := SettleListing(c, g, answer);
    if d.listing.denied && d.selectedQueue != c.selectedQueue {
      assert d.selectedQueue == c.selectedQueue + [ClearSelected] && d.clicks == [];
      assert d.selectedQueue[|d.selectedQueue|..] == [];
    }
  }

  lemma ClickKeepsSelection(q: seq<SelectedUpdate>, clicks: seq<Click>, selected: seq<StreamId>, click: Click)
    requires SelectionRevoked(q, clicks, selected)
    ensures SelectionRevoked(q + [Clicked(click)], clicks + [click], selected)
  {
    var n, k := |clicks|, |q|;
    if k > n {
      assert (q + [Clicked(click)])[k - n..] == q[k - n..] + [Clicked(click)];
    } else {
      assert (clicks + [click])[n - k..] == clicks[n - k..] + [click];
      assert (clicks + [click])[..n - k] == clicks[..n - k];
    }
  }

  lemma FlushKeepsSelection(c: Cells)
    requires SelectionRevoked(c.selectedQueue, c.clicks, c.selected) && c.selectedQueue != []
    ensures var d := RunSelected(c); SelectionRevoked(d.selectedQueue, d.clicks, d.selected)
  {
    var d := RunSelected(c);
    var n, k := |c.clicks|, |c.selectedQueue|;
    if k <= n {
      var m := n - k;
      assert c.selectedQueue[0] == Clicked(c.clicks[m]);
      assert DropLast(c.clicks[..m + 1]) == c.clicks[..m];
      assert c.clicks[m..][1..] == c.clicks[m + 1..];
    } else if k == n + 1 {
      assert c.clicks[0..] == c.clicks && c.clicks[..0] == [];
      assert c.selectedQueue[1..] == Queued(c.clicks);
    } else {
      assert d.selectedQueue[k - 1 - n..] == c.selectedQueue[k - n..];
    }
  }

  lemma StepKeepsRevoked(c: Cells, ev: Event)
    requires Enabled(c, ev) && (c.listing.denied ==> Revoked(c))
    ensures Step(c, ev).listing.denied ==> Revoked(Step(c, ev))
  {
    match ev
    case PollSettles(g, answer) => PollKeepsRevoked(c, g, answer);
    case LogsWithdrawn =>
      assert Step(c, ev).selectedQueue[|c.selectedQueue| + 1..] == [];
    case Clicks(click) =>
      if c.listing.denied { ClickKeepsSelection(c.selectedQueue, c.clicks, c.selected, click); }
    case FlushSelected => if c.listing.denied { FlushKeepsSelection(c); }
    case FlushStreams =>
    case FlushCaches(_) =>
    case _ =>
  }

  lemma {:induction false} RunKeepsInv(c: Cells, evs: seq<Event>)
    requires Inv(c) && Run(c, evs)
    ensures Inv(Exec(c, evs))
    decreases |evs|
  {
    if evs != [] {
      StepKeepsHistory(c, evs[0]);
      StepKeepsRevoked(c, evs[0]);
      RunKeepsInv(Step(c, evs[0]), evs[1..]);
    }
  }

  // ---------------------------------------------------------------- theorems

  /**
   * However late the queues run: a cell whose queue has drained while the listing
   * is denied is empty, except that the selection replays exactly the clicks
   * made since the denial, or since a later withdrawal of the logs.
   */
  lemma DrainedDenialIsEmpty(evs: seq<Event>)
    requires Run(EMPTY, evs)
    ensures var c := Exec(EMPTY, evs); c.listing.denied ==>
      && (c.streamsQueue == [] ==> c.streams == [])
      && (c.cachesQueue == [] ==> c.rows == [] && c.offsets == map[])
      && (c.selectedQueue == [] ==> c.selected == ApplyClicks([], c.clicks))
  {
    RunKeepsInv(EMPTY, evs);
    var c := Exec(EMPTY, evs);
    assert c.clicks[..|c.clicks|] == c.clicks;
  }

  /** Clicks that select nothing leave the drained selection empty. */
  lemma {:induction false} DeselectingClicksStayEmpty(clicks: seq<Click>)
    requires forall click <- clicks :: (click.Toggle? && !click.checked) || (click.Replace? && click.streams == [])
    ensures ApplyClicks([], clicks) == []
  {
    if clicks != [] {
      assert Last(clicks) in clicks;
      assert forall click <- DropLast(clicks) :: click in clicks;
      DeselectingClicksStayEmpty(DropLast(clicks));
    }
  }

  /** The stream is listed and picked, then the operator unchecks it; every queue has run. */
  lemma ListedAndUnchecked(s: StreamId) returns (c: Cells, evs: seq<Event>)
    ensures Run(EMPTY, evs) && Exec(EMPTY, evs) == c
    ensures c == EMPTY.(listing := c.listing, streams := [s], installed := [1])
         .(clicks := [Toggle(s, false)])
    ensures c.listing == ListingRoute(1, 1, 0, 0, false, map[])
  {
    var c1 := Step(EMPTY, StartPoll);
    var c2 := Step(c1, PollSettles(1, Streams([s])));
    var c3 := Step(c2, FlushStreams);
    var c4 := Step(c3, FlushSelected);
    var c5 := Step(c4, Clicks(Toggle(s, false)));
    c := Step(c5, FlushSelected);
    evs := After(c5, FlushSelected, []);
    evs := After(c4, Clicks(Toggle(s, false)), evs);
    evs := After(c3, FlushSelected, evs);
    evs := After(c2, FlushStreams, evs);
    evs := After(c1, PollSettles(1, Streams([s])), evs);
    evs := After(EMPTY, StartPoll, evs);
    assert PickStreams([s], []) == [s] && Without([s], s) == [];
  }

  /** A denied poll, one click on the row still on screen, and everything drains. */
  lemma DeniedThenClicked(c: Cells, s: StreamId) returns (evs: seq<Event>)
    requires c.streams == [s] && c.selected == [] && c.rows == [] && c.offsets == map[] && c.epoch == 0
    requires c.streamsQueue == [] && c.selectedQueue == [] && c.cachesQueue == []
    requires c.listing == ListingRoute(1, 1, 0, 0, false, map[])
    ensures Run(c, evs)
    ensures var d := Exec(c, evs);
      && d.listing.denied && d.streamsQueue == [] && d.selectedQueue == [] && d.cachesQueue == []
      && d.streams == [] && d.selected == [s]
  {
    var c1 := Step(c, StartPoll);
    var c2 := Step(c1, PollSettles(2, ListingUnauthorized));
    var c3 := Step(c2, Clicks(Toggle(s, true)));
    var c4 := Step(c3, FlushStreams);
    var c5 := Step(c4, FlushSelected);
    var c6 := Step(c5, FlushCaches(false));
    evs := After(c6, FlushSelected, []);
    evs := After(c5, FlushCaches(false), evs);
    evs := After(c4, FlushSelected, evs);
    evs := After(c3, FlushStreams, evs);
    evs := After(c2, Clicks(Toggle(s, true)), evs);
    evs := After(c1, PollSettles(2, ListingUnauthorized), evs);
    evs := After(c, StartPoll, evs);
  }

  /** A click on a row still on screen refills the selection of a denied, drained column. */
  lemma QueuedClickRefillsSelection(s: StreamId) returns (evs: seq<Event>)
    ensures Run(EMPTY, evs)
    ensures var c := Exec(EMPTY, evs);
      && c.listing.denied && c.streamsQueue == [] && c.selectedQueue == [] && c.cachesQueue == []
      && c.streams == [] && c.selected == [s]
  {
    var c, first := ListedAndUnchecked(s);
    var second := DeniedThenClicked(c, s);
    RunConcat(EMPTY, first, second);
    evs := first + second;
  }

  lemma {:induction false} RunConcat(c: Cells, a: seq<Event>, b: seq<Event>)
    requires Run(c, a) && Run(Exec(c, a), b)
    ensures Run(c, a + b) && Exec(c, a + b) == Exec(Exec(c, a), b)
    decreases |a|
  {
    if a == [] {
      assert a + b == b;
    } else {
      var ab, next := a + b, Step(c, a[0]);
      assert ab != [] && ab[0] == a[0] && ab[1..] == a[1..] + b;
      RunConcat(next, a[1..], b);
      assert Run(next, ab[1..]) && Exec(next, ab[1..]) == Exec(Exec(c, a), b);
    }
  }

  lemma After(c: Cells, ev: Event, rest: seq<Event>) returns (evs: seq<Event>)
    requires Enabled(c, ev) && Run(Step(c, ev), rest)
    ensures Run(c, evs) && Exec(c, evs) == Exec(Step(c, ev), rest)
  {
    evs := [ev] + rest;
    assert evs[1..] == rest;
  }

  /** Over every run, a newer inventory is never replaced by an older one. */
  lemma InstalledInventoriesIncrease(evs: seq<Event>)
    requires Run(EMPTY, evs)
    ensures Ascending(Exec(EMPTY, evs).installed)
  {
    RunKeepsInv(EMPTY, evs);
    var c := Exec(EMPTY, evs);
    var gs := c.installed + Installs(c.streamsQueue);
    forall i | 0 <= i < |c.installed| ensures c.installed[i] == gs[i] {}
  }
}

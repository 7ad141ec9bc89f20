/**
 * The fullscreen log column as a state machine.
 *
 * Three routes feed one column: the stream listing, waves of tail reads, and an
 * EventSource. Each can be denied on its own, each answers out of order, and a
 * denied EventSource is retried by one delayed probe. Every function below is
 * one synchronous callback of the column, with the state updates it queues
 * flushed before the next callback runs; `Step` then re-runs the stream effect
 * when one of its dependencies changed.
 */
module LogColumn {
  import opened Basics
  import opened LogTrim

  datatype ReadResult = Tail(entry: LogEntry, nextOffset: int) | Unauthorized | Outage

  /** One call that reads the tail of every selected stream. */
  datatype Wave = Wave(
    epoch: nat, selection: nat, streams: seq<StreamId>,
    pending: set<StreamId>, results: map<StreamId, ReadResult>, denied: bool)

  datatype Listing = Streams(items: seq<StreamId>) | ListingUnauthorized | ListingOutage

  datatype Source = Source(openedEpoch: nat, open: bool, rejected: bool)

  datatype Frame =
    | Log(entry: LogEntry, nextOffset: int)
    | Refused                              // an error or closed frame carrying 401 or 403
    | Ended                                // any other error or closed frame
    | Signal                               // connected, heartbeat, snapshot or event

  datatype ListingRoute = ListingRoute(
    generation: nat, applied: nat, failed: nat, revoked: nat, denied: bool, polls: map<nat, nat>)

  datatype TailRoute = TailRoute(
    generation: nat, revoked: nat, denied: bool, deniedStreams: set<StreamId>,
    succeeded: map<StreamId, nat>, failed: map<StreamId, nat>, warnings: map<StreamId, nat>,
    waves: map<nat, Wave>)

  datatype StreamRoute = StreamRoute(
    denied: bool, nonce: nat, timer: Option<nat>, timers: set<nat>, nextTimer: nat,
    sources: seq<Source>, current: Option<nat>)

  /** What the operator sees and picks. */
  datatype View = View(
    listed: seq<StreamId>, selection: nat, selected: seq<StreamId>,
    entries: seq<LogEntry>, offsets: map<StreamId, int>)

  datatype Column = Column(
    allowLogs: bool, allowStream: bool, epoch: nat,
    listing: ListingRoute, tails: TailRoute, stream: StreamRoute, view: View)

  datatype Event =
    | StartListing
    | ListingSettles(poll: nat, answer: Listing)
    | StartTails
    | ReadSettles(wave: nat, of: StreamId, result: ReadResult)
    | WaveSettles(wave: nat)
    | Select(streams: seq<StreamId>)
    | Message(source: nat, frame: Frame)
    | SourceError(source: nat)
    | TimerFires(id: nat)
    | Gates(logs: bool, streaming: bool)
    | CapabilitiesReplaced

  // ---------------------------------------------------------------- selection

  /** The operator's selection; a changed selection invalidates older waves. */
  function Reselect(v: View, streams: seq<StreamId>): View
  {
    if streams == v.selected then v else v.(selected := streams, selection := v.selection + 1)
  }

  function Retained(current: seq<StreamId>, items: seq<StreamId>): (r: seq<StreamId>)
    ensures forall s :: s in r <==> s in current && s in items
  {
    if current == [] then []
    else
      assert current == [current[0]] + current[1..];
      var rest := Retained(current[1..], items);
      if current[0] in items then [current[0]] + rest else rest
  }

  /** Keep what is still listed, or select everything when nothing is left. */
  function PickStreams(items: seq<StreamId>, current: seq<StreamId>): (r: seq<StreamId>)
    ensures ToSet(r) <= ToSet(items)
  {
    var retained := Retained(current, items);
    if retained != [] then retained else items
  }

  function ClearCaches(v: View): View { v.(entries := [], offsets := map[]) }

  function ForgetWarnings(t: TailRoute): TailRoute { t.(failed := map[], warnings := map[]) }

  // ---------------------------------------------------------------- listing route

  function StartPoll(c: Column): Column
  {
    if !c.allowLogs then ClearInventory(c)
    else
      var g := c.listing.generation + 1;
      c.(listing := c.listing.(generation := g, polls := c.listing.polls[g := c.epoch]))
  }

  function ClearInventory(c: Column): Column
  {
    c.(tails := ForgetWarnings(c.tails), view := Reselect(c.view.(listed := []), []))
  }

  function SettlePoll(c: Column, g: nat, answer: Listing): Column
    requires g in c.listing.polls
  {
    var startedIn := c.listing.polls[g];
    var l := c.listing.(polls := c.listing.polls - {g});
    var c := c.(listing := l);
    if startedIn != c.epoch then c
    else match answer
      case ListingUnauthorized =>
        if g < l.applied || (l.denied && g <= l.revoked) then c else DenyListing(c)
      case ListingOutage =>
        if g < l.applied || g < l.failed then c else c.(listing := l.(failed := g))
      case Streams(items) =>
        if g <= l.revoked || g < l.applied || g < l.failed then c
        else c.(listing := l.(denied := false, applied := g),
                view := Reselect(c.view.(listed := items), PickStreams(items, c.view.selected)))
  }

  function DenyListing(c: Column): Column
  {
    c.(epoch := c.epoch + 1,
       listing := c.listing.(revoked := Max(c.listing.revoked, c.listing.generation), denied := true),
       tails := ForgetWarnings(c.tails),
       stream := CloseCurrent(c.stream),
       view := ClearCaches(c.view).(listed := [], selected := []))
  }

  // ---------------------------------------------------------------- tail route

  function StartWave(c: Column): Column
  {
    var streams := Retained(c.view.selected, c.view.listed);
    if !c.allowLogs || streams == [] then c
    else
      var g := c.tails.generation + 1;
      var w := Wave(c.epoch, c.view.selection, streams, ToSet(streams), map[], false);
      c.(tails := c.tails.(generation := g, waves := c.tails.waves[g := w]))
  }

  function Answered(w: Wave, s: StreamId, r: ReadResult): Wave
  {
    w.(pending := w.pending - {s}, results := w.results[s := r])
  }

  function SettleRead(c: Column, g: nat, s: StreamId, r: ReadResult): Column
    requires g in c.tails.waves
  {
    var w := Answered(c.tails.waves[g], s, r);
    var c := c.(tails := c.tails.(waves := c.tails.waves[g := w]));
    match r
    case Tail(_, _) => c
    case Unauthorized => if TailDenialApplies(c, g, w, s) then DenyTail(c, g, w, s) else c
    case Outage => if TailWarningApplies(c, g, w, s) then WarnTail(c, g, s) else c
  }

  /** A 401/403 that neither a newer success of its stream nor an applied denial overrides. */
  predicate TailDenialApplies(c: Column, g: nat, w: Wave, s: StreamId)
  {
    && w.epoch == c.epoch && w.selection == c.view.selection
    && !c.listing.denied
    && Stamp(c.tails.succeeded, s) <= g
    && !(c.tails.denied && g <= c.tails.revoked)
  }

  function DenyTail(c: Column, g: nat, w: Wave, s: StreamId): Column
  {
    var t := ForgetWarnings(c.tails);
    c.(epoch := if t.denied then c.epoch else c.epoch + 1,
       tails := t.(denied := true, deniedStreams := t.deniedStreams + w.pending + {s},
                   revoked := Max(t.revoked, t.generation), waves := t.waves[g := w.(denied := true)]),
       stream := CloseCurrent(c.stream),
       view := ClearCaches(c.view))
  }

  predicate TailWarningApplies(c: Column, g: nat, w: Wave, s: StreamId)
  {
    && w.epoch == c.epoch && s in c.view.selected
    && !c.listing.denied && !c.tails.denied && !c.stream.denied && !w.denied
    && Stamp(c.tails.succeeded, s) <= g
    && c.tails.revoked < g
    && Stamp(c.tails.failed, s) <= g
  }

  function WarnTail(c: Column, g: nat, s: StreamId): Column
  {
    c.(tails := c.tails.(failed := c.tails.failed[s := g], warnings := c.tails.warnings[s := g]))
  }

  /** A settled wave may write only while it still owns the column. */
  predicate WaveOwnsColumn(c: Column, g: nat, w: Wave)
  {
    && !w.denied
    && w.epoch == c.epoch && w.selection == c.view.selection
    && c.tails.revoked < g
    && !c.listing.denied && !c.stream.denied
  }

  function Succeeded(t: TailRoute, g: nat, w: Wave): set<StreamId>
  {
    set s | s in w.streams && s in w.results && w.results[s].Tail? && Stamp(t.succeeded, s) <= g
  }

  function StillFailed(t: TailRoute, g: nat, w: Wave): set<StreamId>
  {
    set s | s in w.streams && s in w.results && !w.results[s].Tail?
            && Stamp(t.succeeded, s) <= g && s in t.failed && t.failed[s] == g
  }

  function SettleWave(c: Column, g: nat): Column
    requires g in c.tails.waves
  {
    var w := c.tails.waves[g];
    var t := c.tails.(waves := c.tails.waves - {g});
    if !WaveOwnsColumn(c, g, w) then c.(tails := t)
    else
      var good := Succeeded(t, g, w);
      var t := t.(deniedStreams := (t.deniedStreams - good) * ToSet(w.streams));
      if t.deniedStreams != {} then c.(tails := t)
      else if good == {} then
        c.(tails := if t.denied then t else t.(warnings := Rewarn(t, g, w)))
      else
        c.(tails := RecordSuccess(t, g, w, good), view := InstallWave(c.view, g, w, good))
  }

  function Rewarn(t: TailRoute, g: nat, w: Wave): map<StreamId, nat>
  {
    t.warnings + map s | s in StillFailed(t, g, w) :: g
  }

  function RecordSuccess(t: TailRoute, g: nat, w: Wave, good: set<StreamId>): TailRoute
  {
    var recovered := set s | s in good && Stamp(t.failed, s) <= g;
    t.(denied := false,
       succeeded := t.succeeded + map s | s in good :: g,
       failed := t.failed - recovered,
       warnings := Rewarn(t, g, w) - recovered)
  }

  function InstallWave(v: View, g: nat, w: Wave, good: set<StreamId>): View
  {
    v.(entries := TrimLogEntries(
         Uncovered(v.entries, w, good) + Snapshots(w.streams, g, w, good), v.selected),
       offsets := v.offsets + map s | s in good && s in w.results && w.results[s].Tail? :: w.results[s].nextOffset)
  }

  /** Entries a wave leaves: other streams, and live text past the snapshot. */
  function Uncovered(es: seq<LogEntry>, w: Wave, good: set<StreamId>): (r: seq<LogEntry>)
    ensures forall e <- r :: e in es
  {
    if es == [] then []
    else
      var e, rest := es[0], Uncovered(es[1..], w, good);
      if e.stream !in good ||
         (e.live && e.stream in w.results && w.results[e.stream].Tail? && e.offset >= w.results[e.stream].nextOffset)
      then [e] + rest else rest
  }

  function Snapshots(streams: seq<StreamId>, g: nat, w: Wave, good: set<StreamId>): (r: seq<LogEntry>)
    ensures forall e <- r :: e.tag == TailRead(g, w.epoch) && e.stream in good
  {
    if streams == [] then []
    else
      var s, rest := streams[0], Snapshots(streams[1..], g, w, good);
      if s in good && s in w.results && w.results[s].Tail?
      then [w.results[s].entry.(stream := s, live := false, tag := TailRead(g, w.epoch))] + rest
      else rest
  }

  // ---------------------------------------------------------------- stream route

  function CloseCurrent(r: StreamRoute): StreamRoute
  {
    if r.current.Some? then CloseSource(r, r.current.value) else r
  }

  function CloseSource(r: StreamRoute, i: nat): StreamRoute
  {
    r.(sources := if i < |r.sources| then r.sources[i := r.sources[i].(open := false)] else r.sources,
       current := if r.current == Some(i) then None else r.current)
  }

  function ScheduleProbe(r: StreamRoute): StreamRoute
  {
    if r.timer.Some? then r
    else r.(timer := Some(r.nextTimer), timers := r.timers + {r.nextTimer}, nextTimer := r.nextTimer + 1)
  }

  function ClearProbe(r: StreamRoute): StreamRoute
  {
    if r.timer.None? then r else r.(timer := None, timers := r.timers - {r.timer.value})
  }

  function FireTimer(r: StreamRoute, id: nat): StreamRoute
  {
    r.(timer := None, timers := r.timers - {id}, nonce := if r.denied then r.nonce + 1 else r.nonce)
  }

  function OpenSource(r: StreamRoute, epoch: nat): StreamRoute
  {
    r.(sources := r.sources + [Source(epoch, true, false)], current := Some(|r.sources|))
  }

  /** The cleanup of the previous run of the effect, then its body. */
  function RunStreamEffect(c: Column): Column
  {
    var r := CloseCurrent(c.stream);
    c.(stream :=
      if !c.allowStream then
        if r.denied then ClearProbe(r).(denied := false, nonce := 0) else r
      else if c.listing.denied || c.tails.denied then r
      else if r.denied && r.nonce == 0 then ScheduleProbe(r)
      else OpenSource(r, c.epoch))
  }

  function RejectProbe(r: StreamRoute, i: nat): StreamRoute
    requires i < |r.sources|
  {
    ScheduleProbe(CloseSource(r.(sources := r.sources[i := r.sources[i].(rejected := true)], nonce := 0), i))
  }

  function DenyStream(c: Column, i: nat): Column
  {
    c.(epoch := if c.stream.denied then c.epoch else c.epoch + 1,
       stream := CloseSource(ScheduleProbe(ClearProbe(c.stream).(nonce := 0, denied := true)), i),
       view := ClearCaches(c.view))
  }

  function Receive(c: Column, i: nat, frame: Frame): Column
    requires i < |c.stream.sources|
  {
    var source := c.stream.sources[i];
    if c.listing.denied || c.tails.denied || source.openedEpoch != c.epoch then c
    else if frame.Refused? then DenyStream(c, i)
    else if frame.Ended? then
      c.(stream := if c.stream.denied then RejectProbe(c.stream, i)
                   else c.stream.(sources := c.stream.sources[i := source.(open := false)]))
    else if c.stream.denied && source.rejected then c
    else
      var c := if c.stream.denied then c.(stream := c.stream.(denied := false, nonce := 0)) else c;
      if source.rejected || !frame.Log? then c
      else c.(view := AppendFrame(c.view, frame.entry.(tag := LiveFrame(source.openedEpoch)), frame.nextOffset))
  }

  function AppendFrame(v: View, entry: LogEntry, nextOffset: int): View
  {
    v.(entries := TrimLogEntries(ReplaceTail(v.entries, entry) + [entry], v.selected),
       offsets := v.offsets[entry.stream :=
         Max(if entry.stream in v.offsets then v.offsets[entry.stream] else 0, nextOffset)])
  }

  /** A replayed tail replaces the stored tail of its stream. */
  function ReplaceTail(es: seq<LogEntry>, entry: LogEntry): (r: seq<LogEntry>)
    ensures forall e <- r :: e in es
  {
    if es == [] then []
    else
      var e, rest := es[0], ReplaceTail(es[1..], entry);
      if e.stream != entry.stream || e.live || entry.live then [e] + rest else rest
  }

  function ReceiveError(c: Column, i: nat): Column
    requires i < |c.stream.sources|
  {
    if c.stream.denied && c.stream.sources[i].openedEpoch == c.epoch
    then c.(stream := RejectProbe(c.stream, i)) else c
  }

  // ---------------------------------------------------------------- steps and runs

  /** What the browser, the server and the operator may do next. */
  predicate Enabled(c: Column, ev: Event)
  {
    match ev
    case ListingSettles(g, _) => g in c.listing.polls
    case ReadSettles(g, s, _) => g in c.tails.waves && s in c.tails.waves[g].pending
    case WaveSettles(g) => g in c.tails.waves && c.tails.waves[g].pending == {}
    case Select(streams) => ToSet(streams) <= ToSet(c.view.listed)
    case Message(i, _) => i < |c.stream.sources|
    case SourceError(i) => i < |c.stream.sources|
    case TimerFires(id) => id in c.stream.timers
    case Gates(logs, streaming) => streaming ==> logs
    case _ => true
  }

  function SetGates(c: Column, logs: bool, streaming: bool): Column
  {
    var c := c.(allowLogs := logs, allowStream := streaming);
    if logs then c else ClearInventory(c)
  }

  function Apply(c: Column, ev: Event): Column
    requires Enabled(c, ev)
  {
    match ev
    case StartListing => StartPoll(c)
    case ListingSettles(g, answer) => SettlePoll(c, g, answer)
    case StartTails => StartWave(c)
    case ReadSettles(g, s, r) => SettleRead(c, g, s, r)
    case WaveSettles(g) => SettleWave(c, g)
    case Select(streams) => c.(view := Reselect(c.view, streams))
    case Message(i, frame) => Receive(c, i, frame)
    case SourceError(i) => ReceiveError(c, i)
    case TimerFires(id) => c.(stream := FireTimer(c.stream, id))
    case Gates(logs, streaming) => SetGates(c, logs, streaming)
    case CapabilitiesReplaced => c
  }

  predicate EffectRuns(before: Column, after: Column, ev: Event)
  {
    || ev.CapabilitiesReplaced?
    || before.allowStream != after.allowStream
    || before.listing.denied != after.listing.denied
    || before.tails.denied != after.tails.denied
    || before.stream.denied != after.stream.denied
    || before.stream.nonce != after.stream.nonce
  }

  function SyncEffect(before: Column, after: Column, ev: Event): Column
  {
    if EffectRuns(before, after, ev) then RunStreamEffect(after) else after
  }

  function Step(c: Column, ev: Event): Column
    requires Enabled(c, ev)
  {
    SyncEffect(c, Apply(c, ev), ev)
  }

  function Mounted(logs: bool, streaming: bool): Column
  {
    RunStreamEffect(Column(
      logs, streaming, 0,
      ListingRoute(0, 0, 0, 0, false, map[]),
      TailRoute(0, 0, false, {}, map[], map[], map[], map[]),
      StreamRoute(false, 0, None, {}, 0, [], None),
      View([], 0, [], [], map[])))
  }

  predicate Run(c: Column, evs: seq<Event>)
    decreases |evs|
  {
    evs == [] || (Enabled(c, evs[0]) && Run(Step(c, evs[0]), evs[1..]))
  }

  function Exec(c: Column, evs: seq<Event>): Column
    requires Run(c, evs)
    decreases |evs|
  {
    if evs == [] then c else Exec(Step(c, evs[0]), evs[1..])
  }
}

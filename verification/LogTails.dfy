/**
 * The inspector's log tails. Every stream of the selected workspace is read on
 * its own, reads of one stream overlap, and a 401/403 for one stream latches the
 * inspector until every selected and listed stream it covers has itself succeeded.
 *
 * Commits and passive effects are separate steps: a read may settle after a new
 * selection or listing is committed and before the effect that prunes denials.
 */
module LogTails {
  import opened Basics
  import opened LogTrim

  datatype ReadId = ReadId(stream: StreamId, generation: nat)

  /** What a read captured when it started. */
  datatype Read = Read(visit: nat, epoch: nat, gated: nat, selection: seq<StreamId>)

  datatype LiveView = LiveView(offset: int, data: string)

  /** `visible` is the part of a stored live frame that a snapshot does not cover. */
  datatype Answer =
    | Snapshot(entry: LogEntry, nextOffset: int, visible: LogEntry -> Option<LiveView>)
    | Unauthorized(row: LogEntry)
    | Outage

  datatype Ledger = Ledger(
    requested: map<StreamId, nat>, applied: map<StreamId, nat>, revoked: map<StreamId, nat>,
    inFlight: set<StreamId>, denied: set<StreamId>, latch: bool, warnings: map<StreamId, nat>)

  datatype Pick = Pick(selected: seq<StreamId>, listed: seq<StreamId>, effectDue: bool)

  datatype Screen = Screen(entries: seq<LogEntry>, offsets: map<StreamId, int>)

  datatype Inspector = Inspector(
    visit: nat, epoch: nat, gated: nat, listingDenied: bool, detailDenied: bool,
    pick: Pick, ledger: Ledger, screen: Screen, pending: map<ReadId, Read>)

  datatype Event =
    | StartRead(of: StreamId, selection: seq<StreamId>)
    | Settles(id: ReadId, answer: Answer)
    | Commit(selected: seq<StreamId>, listed: seq<StreamId>)
    | EffectRuns
    | Frame(openedIn: nat, of: StreamId, shown: Option<LogEntry>, nextOffset: int, selection: seq<StreamId>)
    | ListingRefused
    | ListingRestored
    | DetailRefused
    | DetailRestored
    | Withdraw(bump: bool)                   // a capability withdrawal clears the log feeds
    | Revisit(newEpoch: bool)                // the workspace is left, then opened again

  // ---------------------------------------------------------------- denials

  /** Streams the inspector can still read: selected and in the latest listing. */
  function Active(p: Pick): set<StreamId> { ToSet(p.selected) * ToSet(p.listed) }

  function Prune(l: Ledger, active: set<StreamId>): Ledger { l.(denied := l.denied * active) }

  function Sync(l: Ledger): Ledger { l.(latch := l.denied != {}) }

  function SettleInFlight(l: Ledger, id: ReadId): Ledger
  {
    if Stamp(l.requested, id.stream) == id.generation then l.(inFlight := l.inFlight - {id.stream}) else l
  }

  // ---------------------------------------------------------------- reads

  function StartReadOf(c: Inspector, s: StreamId, selection: seq<StreamId>): Inspector
  {
    var g := Stamp(c.ledger.requested, s) + 1;
    c.(ledger := c.ledger.(requested := c.ledger.requested[s := g], inFlight := c.ledger.inFlight + {s}),
       pending := c.pending[ReadId(s, g) := Read(c.visit, c.epoch, c.gated, selection)])
  }

  /** The read still belongs to this visit of this workspace, and nothing wider is denied. */
  predicate Owned(c: Inspector, r: Read)
  {
    r.visit == c.visit && r.epoch == c.epoch && !c.listingDenied && !c.detailDenied
  }

  predicate DenialCounts(l: Ledger, id: ReadId)
  {
    && Stamp(l.applied, id.stream) <= id.generation
    && !(id.stream in l.denied && id.generation <= Stamp(l.revoked, id.stream))
  }

  /** A 200 or an outage must be the newest read, past every denial and every drop. */
  predicate ResultCounts(c: Inspector, id: ReadId, r: Read)
  {
    && id.generation == Stamp(c.ledger.requested, id.stream)
    && Stamp(c.ledger.revoked, id.stream) < id.generation
    && Stamp(c.ledger.applied, id.stream) <= id.generation
    && r.gated == c.gated
  }

  function Settle(c: Inspector, id: ReadId, answer: Answer): Inspector
    requires id in c.pending
  {
    var r := c.pending[id];
    var c := c.(pending := c.pending - {id});
    var idle := c.(ledger := SettleInFlight(c.ledger, id));
    if !Owned(c, r) then idle
    else match answer
      case Unauthorized(row) =>
        if !DenialCounts(c.ledger, id) then idle
        else if id.stream !in Active(c.pick) then
          idle.(ledger := Sync(Prune(idle.ledger, Active(c.pick))))
        else Deny(c, id, r, row)
      case Outage =>
        if !ResultCounts(c, id, r) then idle
        else idle.(ledger := idle.ledger.(warnings := idle.ledger.warnings[id.stream := id.generation]))
      case Snapshot(entry, next, visible) =>
        if !ResultCounts(c, id, r) then idle
        else idle.(ledger := Recover(idle.ledger, id, Active(c.pick)),
                   screen := Install(c.screen, id, r, entry, next, visible))
  }

  /** Latch the stream with its in-flight siblings, cover its started reads, drop the text. */
  function Deny(c: Inspector, id: ReadId, r: Read, row: LogEntry): Inspector
  {
    c.(gated := if c.ledger.latch then c.gated else c.gated + 1,
       ledger := Refuse(c.ledger, id, Active(c.pick)),
       screen := Screen(TrimLogEntries(
                          Diagnostics(c.screen.entries, id.stream)
                          + [row.(stream := id.stream, live := false, tag := ErrorRow)], r.selection),
                        map[]))
  }

  function Refuse(l: Ledger, id: ReadId, active: set<StreamId>): Ledger
  {
    var denied := (l.denied + l.inFlight * active + {id.stream}) * active;
    var covered := Max(Stamp(l.revoked, id.stream), Stamp(l.requested, id.stream));
    SettleInFlight(l, id).(denied := denied, latch := denied != {}, revoked := l.revoked[id.stream := covered],
                           warnings := l.warnings - {id.stream})
  }

  /** A 200 recovers its own stream only. */
  function Recover(l: Ledger, id: ReadId, active: set<StreamId>): Ledger
  {
    var denied := l.denied * active - {id.stream};
    l.(denied := denied, latch := denied != {}, applied := l.applied[id.stream := id.generation],
       warnings := l.warnings - {id.stream})
  }

  function Install(
    v: Screen, id: ReadId, r: Read, entry: LogEntry, next: int, visible: LogEntry -> Option<LiveView>): Screen
  {
    var snapshot := entry.(stream := id.stream, live := false, tag := InspectorRead(id.generation, r.epoch, r.visit));
    v.(entries := TrimLogEntries(AfterSnapshot(v.entries, id.stream, visible) + [snapshot], r.selection),
       offsets := Advance(v.offsets, id.stream, next))
  }

  function Advance(offsets: map<StreamId, int>, s: StreamId, next: int): map<StreamId, int>
  {
    offsets[s := Max(if s in offsets then offsets[s] else 0, next)]
  }

  /** A live frame writes the cursor only when it moves it. */
  function AdvanceLive(offsets: map<StreamId, int>, s: StreamId, next: int): map<StreamId, int>
  {
    if next > (if s in offsets then offsets[s] else 0) then offsets[s := next] else offsets
  }

  /** Sibling denial rows; everything else is revoked text. */
  function Diagnostics(es: seq<LogEntry>, s: StreamId): (r: seq<LogEntry>)
    ensures forall e <- r :: e in es && e.stream != s && e.tag.ErrorRow?
  {
    if es == [] then []
    else
      var rest := Diagnostics(es[1..], s);
      if es[0].stream != s && es[0].tag.ErrorRow? then [es[0]] + rest else rest
  }

  /** Other streams whole, and of this stream only live text past the snapshot. */
  function AfterSnapshot(es: seq<LogEntry>, s: StreamId, visible: LogEntry -> Option<LiveView>): (r: seq<LogEntry>)
  {
    if es == [] then []
    else
      var e, rest := es[0], AfterSnapshot(es[1..], s, visible);
      if e.stream != s then [e] + rest
      else if !e.live then rest
      else match visible(e)
        case None => rest
        case Some(v) => [e.(offset := v.offset, data := v.data)] + rest
  }

  // ---------------------------------------------------------------- the rest of the page

  function RunEffect(c: Inspector): Inspector
  {
    c.(ledger := Sync(Prune(c.ledger, Active(c.pick))), pick := c.pick.(effectDue := false))
  }

  /** A pending effect of the previous commit runs before the next commit. */
  function CommitPick(c: Inspector, selected: seq<StreamId>, listed: seq<StreamId>): Inspector
  {
    var c := if c.pick.effectDue then RunEffect(c) else c;
    c.(pick := Pick(selected, listed, true))
  }

  function ClearScreen(c: Inspector): Inspector { c.(screen := Screen([], map[])) }

  function RefuseListing(c: Inspector): Inspector
  {
    var c := ClearScreen(c).(gated := if c.listingDenied then c.gated else c.gated + 1, listingDenied := true);
    CommitPick(c.(ledger := c.ledger.(warnings := map[])), [], [])
  }

  function RefuseDetail(c: Inspector): Inspector
  {
    CommitPick(ClearScreen(c).(detailDenied := true), [], [])
  }

  function WithdrawLogs(c: Inspector, bump: bool): Inspector
  {
    CommitPick(ClearScreen(c).(gated := if bump then c.gated + 1 else c.gated, listingDenied := false,
                               ledger := c.ledger.(latch := false)), [], [])
  }

  function Reopen(c: Inspector, newEpoch: bool): Inspector
  {
    Inspector(c.visit + 1, if newEpoch then c.epoch + 1 else c.epoch, c.gated, false, false,
              Pick([], [], false), Ledger(c.ledger.requested, map[], map[], {}, {}, false, map[]),
              Screen([], map[]), c.pending)
  }

  function Receive(c: Inspector, openedIn: nat, s: StreamId, shown: Option<LogEntry>, next: int, selection: seq<StreamId>): Inspector
  {
    if openedIn != c.epoch || c.listingDenied || c.detailDenied || c.ledger.latch then c
    else
      c.(screen := Screen(
           if shown.None? then c.screen.entries
           else TrimLogEntries(c.screen.entries + [shown.value.(stream := s, live := true, tag := LiveFrame(openedIn))], selection),
           AdvanceLive(c.screen.offsets, s, next)))
  }

  // ---------------------------------------------------------------- steps and runs

  predicate Enabled(c: Inspector, ev: Event) { ev.Settles? ==> ev.id in c.pending }

  function Step(c: Inspector, ev: Event): Inspector
    requires Enabled(c, ev)
  {
    match ev
    case StartRead(s, selection) => StartReadOf(c, s, selection)
    case Settles(id, answer) => Settle(c, id, answer)
    case Commit(selected, listed) => CommitPick(c, selected, listed)
    case EffectRuns => RunEffect(c)
    case Frame(openedIn, s, shown, next, selection) => Receive(c, openedIn, s, shown, next, selection)
    case ListingRefused => RefuseListing(c)
    case ListingRestored => c.(listingDenied := false)
    case DetailRefused => RefuseDetail(c)
    case DetailRestored => c.(detailDenied := false)
    case Withdraw(bump) => WithdrawLogs(c, bump)
    case Revisit(newEpoch) => Reopen(c, newEpoch)
  }

  const OPENED := Inspector(0, 0, 0, false, false, Pick([], [], false),
                            Ledger(map[], map[], map[], {}, {}, false, map[]), Screen([], map[]), map[])

  predicate Run(c: Inspector, evs: seq<Event>)
    decreases |evs|
  {
    evs == [] || (Enabled(c, evs[0]) && Run(Step(c, evs[0]), evs[1..]))
  }

  function Exec(c: Inspector, evs: seq<Event>): Inspector
    requires Run(c, evs)
    decreases |evs|
  {
    if evs == [] then c else Exec(Step(c, evs[0]), evs[1..])
  }
}

/**
 * Automatic tail reads. A column re-reads its tails when the fingerprint of its
 * selected streams changes, and, on a static listing, only while a denial or a
 * failed read is on record and no read is outstanding. This is the column with
 * that effect, and exactly when it still retries a held tail denial.
 */
module TailRetry {
  import opened Basics
  import opened LogTrim
  import opened LogColumn
  import opened LogColumnSafety
  import opened LogColumnTheorems

  /** A stream with the sizes and times its listing reported. */
  datatype Fingerprint = Fingerprint(stream: StreamId, metadata: nat)

  /** The column, what its listing reported, its failed reads on record, and the key last read for. */
  datatype Auto = Auto(column: Column, metadata: map<StreamId, nat>, errors: set<StreamId>, key: seq<Fingerprint>)

  /** An event; `reported` is the metadata that comes with a listing. */
  datatype Tick = Tick(ev: Event, reported: map<StreamId, nat>)

  function RefreshKey(listed: seq<StreamId>, selected: seq<StreamId>, metadata: map<StreamId, nat>): (k: seq<Fingerprint>)
    ensures k != [] <==> exists s <- listed :: s in selected
  {
    if listed == [] then []
    else
      var s, rest := listed[0], RefreshKey(listed[1..], selected, metadata);
      if s in selected then [Fingerprint(s, Stamp(metadata, s))] + rest else rest
  }

  function KeyOf(a: Auto): seq<Fingerprint> { RefreshKey(a.column.view.listed, a.column.view.selected, a.metadata) }

  // ---------------------------------------------------------------- failed reads on record

  /** Every place that forgets warnings forgets these too; a settled wave also drops streams it did not read. */
  function ErrorsAfter(c: Column, errors: set<StreamId>, ev: Event): set<StreamId>
    requires Enabled(c, ev)
  {
    match ev
    case StartListing => if c.allowLogs then errors else {}
    case Gates(logs, _) => if logs then errors else {}
    case ListingSettles(g, answer) =>
      if answer.ListingUnauthorized? && SettlePoll(c, g, answer).epoch != c.epoch then {} else errors
    case ReadSettles(g, s, r) => ReadErrors(c, errors, g, s, r)
    case WaveSettles(g) =>
      if WaveOwnsColumn(c, g, c.tails.waves[g]) then WaveErrors(c.tails, errors, g, c.tails.waves[g]) else errors
    case _ => errors
  }

  function ReadErrors(c: Column, errors: set<StreamId>, g: nat, s: StreamId, r: ReadResult): set<StreamId>
    requires g in c.tails.waves
  {
    var w := Answered(c.tails.waves[g], s, r);
    var c := c.(tails := c.tails.(waves := c.tails.waves[g := w]));
    if r.Unauthorized? && TailDenialApplies(c, g, w, s) then {}
    else if r.Outage? && TailWarningApplies(c, g, w, s) then errors + {s}
    else errors
  }

  function WaveErrors(t: TailRoute, errors: set<StreamId>, g: nat, w: Wave): set<StreamId>
  {
    var kept, good := errors * ToSet(w.streams), Succeeded(t, g, w);
    if (t.deniedStreams - good) * ToSet(w.streams) != {} then kept
    else if good == {} then (if t.denied then kept else kept + StillFailed(t, g, w))
    else kept - (set s | s in good && Stamp(t.failed, s) <= g) + StillFailed(t, g, w)
  }

  // ---------------------------------------------------------------- the effect

  predicate RetryDue(a: Auto)
  {
    a.column.tails.deniedStreams != {} || exists s <- a.column.view.selected :: s in a.errors
  }

  function RefreshEffect(a: Auto): Auto
  {
    var key := KeyOf(a);
    if key == [] then a.(key := [])
    else if a.key == key && (!RetryDue(a) || a.column.tails.waves != map[]) then a
    else a.(key := key, column := StartWave(a.column))
  }

  /** The listing applied, the gate, the streams or the selection changed, or the operator picked again. */
  predicate EffectDue(before: Column, after: Column, ev: Event)
  {
    || ev.Select?
    || before.listing.applied != after.listing.applied
    || before.allowLogs != after.allowLogs
    || before.view.listed != after.view.listed
    || before.view.selected != after.view.selected
  }

  /** Withdrawing a denied stream refills the caches it cleared through one tail read. */
  predicate Refills(before: Column, after: Column)
  {
    before.stream.denied && !after.stream.denied && !after.allowStream && !after.listing.denied && !after.tails.denied
  }

  /** The callback itself, before any effect runs. */
  function Noted(a: Auto, t: Tick): Auto
    requires Enabled(a.column, t.ev)
  {
    var c := Step(a.column, t.ev);
    var installed := t.ev.ListingSettles? && c.listing.applied != a.column.listing.applied;
    Auto(c, if installed then t.reported else a.metadata, ErrorsAfter(a.column, a.errors, t.ev), a.key)
  }

  function RunEffects(before: Column, b: Auto, ev: Event): Auto
  {
    var d := if EffectDue(before, b.column, ev) then RefreshEffect(b) else b;
    if Refills(before, b.column) then d.(column := StartWave(d.column)) else d
  }

  function AutoStep(a: Auto, t: Tick): Auto
    requires Enabled(a.column, t.ev)
  {
    RunEffects(a.column, Noted(a, t), t.ev)
  }

  function AutoMounted(logs: bool, streaming: bool): Auto { Auto(Mounted(logs, streaming), map[], {}, []) }

  predicate AutoRun(a: Auto, ts: seq<Tick>)
    decreases |ts|
  {
    ts == [] || (Enabled(a.column, ts[0].ev) && AutoRun(AutoStep(a, ts[0]), ts[1..]))
  }

  function AutoExec(a: Auto, ts: seq<Tick>): Auto
    requires AutoRun(a, ts)
    decreases |ts|
  {
    if ts == [] then a else AutoExec(AutoStep(a, ts[0]), ts[1..])
  }

  // ---------------------------------------------------------------- still a column

  lemma StartIsStep(c: Column)
    ensures Step(c, StartTails) == StartWave(c)
  {
  }

  /** The effects start at most two reads, and nothing else. */
  lemma EffectsOnlyStart(before: Column, b: Auto, ev: Event)
    ensures var d, c := RunEffects(before, b, ev), b.column;
      && (d.column == c || d.column == StartWave(c) || d.column == StartWave(StartWave(c)))
      && d.errors == b.errors && d.metadata == b.metadata && d.column.tails.denied == c.tails.denied
  {
  }

  /** A step with the effect is the event, followed by at most two tail reads of the column. */
  lemma AutoStepIsRun(a: Auto, t: Tick) returns (evs: seq<Event>)
    requires Enabled(a.column, t.ev)
    ensures Run(a.column, evs) && Exec(a.column, evs) == AutoStep(a, t).column
  {
    var c0, c1 := a.column, Step(a.column, t.ev);
    EffectsOnlyStart(c0, Noted(a, t), t.ev);
    evs := ThenReads(c0, t.ev, AutoStep(a, t).column);
  }

  lemma ThenReads(c: Column, ev: Event, d: Column) returns (evs: seq<Event>)
    requires Enabled(c, ev)
    requires var c1 := Step(c, ev); d == c1 || d == StartWave(c1) || d == StartWave(StartWave(c1))
    ensures Run(c, evs) && Exec(c, evs) == d
  {
    var c1 := Step(c, ev);
    StartIsStep(c1);
    StartIsStep(StartWave(c1));
    One(c, ev);
    evs := [ev];
    if d != c1 {
      One(c1, StartTails);
      ExecConcat(c, evs, [StartTails]);
      evs := evs + [StartTails];
      if d != StartWave(c1) {
        One(StartWave(c1), StartTails);
        ExecConcat(c, evs, [StartTails]);
        evs := evs + [StartTails];
      }
    }
  }

  /** So everything proved of column runs holds of runs with the effect. */
  lemma {:induction false} AutoRunIsColumnRun(a: Auto, ts: seq<Tick>) returns (evs: seq<Event>)
    requires AutoRun(a, ts)
    ensures Run(a.column, evs) && Exec(a.column, evs) == AutoExec(a, ts).column
    decreases |ts|
  {
    evs := [];
    if ts != [] {
      var first := AutoStepIsRun(a, ts[0]);
      var rest := AutoRunIsColumnRun(AutoStep(a, ts[0]), ts[1..]);
      ExecConcat(a.column, first, rest);
      evs := first + rest;
    }
  }

  // ---------------------------------------------------------------- invariant

  /** A held tail denial has cleared the failed reads on record. */
  ghost predicate AutoInv(a: Auto) { Inv(a.column) && (a.column.tails.denied ==> a.errors == {}) }

  lemma ReadErrorsKeep(c: Column, errors: set<StreamId>, g: nat, s: StreamId, r: ReadResult)
    requires g in c.tails.waves && (c.tails.denied ==> errors == {})
    ensures SettleRead(c, g, s, r).tails.denied ==> ReadErrors(c, errors, g, s, r) == {}
  {
  }

  lemma WaveErrorsKeep(c: Column, errors: set<StreamId>, g: nat)
    requires Enabled(c, WaveSettles(g)) && (c.tails.denied ==> errors == {})
    ensures SettleWave(c, g).tails.denied ==> ErrorsAfter(c, errors, WaveSettles(g)) == {}
  {
  }

  lemma ErrorsKeep(c: Column, errors: set<StreamId>, ev: Event)
    requires Enabled(c, ev) && (c.tails.denied ==> errors == {})
    ensures Step(c, ev).tails.denied ==> ErrorsAfter(c, errors, ev) == {}
  {
    EffectFrame(Apply(c, ev));
    match ev
    case ReadSettles(g, s, r) => ReadErrorsKeep(c, errors, g, s, r);
    case WaveSettles(g) => WaveErrorsKeep(c, errors, g);
    case _ =>
  }

  lemma RunKeepsColumn(c: Column, evs: seq<Event>)
    requires Inv(c) && Run(c, evs)
    ensures Inv(Exec(c, evs))
  {
    LogColumnTheorems.RunKeepsInv(c, evs);
  }

  lemma AutoStepKeepsInv(a: Auto, t: Tick)
    requires AutoInv(a) && Enabled(a.column, t.ev)
    ensures AutoInv(AutoStep(a, t))
  {
    var evs := AutoStepIsRun(a, t);
    RunKeepsColumn(a.column, evs);
    ErrorsKeep(a.column, a.errors, t.ev);
    EffectsOnlyStart(a.column, Noted(a, t), t.ev);
  }

  // ---------------------------------------------------------------- who empties the denied set

  /**
   * A settled wave leaves the latch held with nobody on record as denied exactly
   * when it owns the column, read none of the denied streams, and had no success.
   */
  lemma WaveOrphansLatchIff(c: Column, g: nat)
    requires g in c.tails.waves && c.tails.denied && c.tails.deniedStreams != {}
    ensures var w, d := c.tails.waves[g], SettleWave(c, g);
      (d.tails.denied && d.tails.deniedStreams == {}) <==>
      (WaveOwnsColumn(c, g, w) && c.tails.deniedStreams !! ToSet(w.streams) && Succeeded(c.tails, g, w) == {})
  {
    var w := c.tails.waves[g];
    var t := c.tails.(waves := c.tails.waves - {g});
    var good := Succeeded(t, g, w);
    assert good == Succeeded(c.tails, g, w) && good <= ToSet(w.streams);
    var left := (t.deniedStreams - good) * ToSet(w.streams);
    if WaveOwnsColumn(c, g, w) {
      if good == {} {
        assert left == t.deniedStreams * ToSet(w.streams);
        DisjointIff(c.tails.deniedStreams, ToSet(w.streams));
        assert SettleWave(c, g).tails.deniedStreams == left && SettleWave(c, g).tails.denied;
      } else if left == {} {
        assert !SettleWave(c, g).tails.denied;
      }
    }
  }

  // ---------------------------------------------------------------- automatic retry

  /** Nothing but the poll, the stream and unchanged listings. */
  predicate Quiet(a: Auto, t: Tick)
  {
    match t.ev
    case StartListing => true
    case ListingSettles(_, ListingOutage) => true
    case ListingSettles(_, Streams(items)) => items == a.column.view.listed && t.reported == a.metadata
    case Message(_, _) => true
    case SourceError(_) => true
    case TimerFires(_) => true
    case CapabilitiesReplaced => true
    case _ => false
  }

  predicate QuietRun(a: Auto, ts: seq<Tick>)
    decreases |ts|
  {
    ts == [] || (Enabled(a.column, ts[0].ev) && Quiet(a, ts[0]) && QuietRun(AutoStep(a, ts[0]), ts[1..]))
  }

  lemma {:induction false} QuietIsRun(a: Auto, ts: seq<Tick>)
    requires QuietRun(a, ts)
    ensures AutoRun(a, ts)
    decreases |ts|
  {
    if ts != [] { QuietIsRun(AutoStep(a, ts[0]), ts[1..]); }
  }

  /** A held tail denial on an authorized listing, with every read answered and the key read for. */
  ghost predicate Held(a: Auto)
  {
    && AutoInv(a) && a.column.allowLogs && a.column.tails.denied && !a.column.listing.denied
    && a.column.tails.waves == map[] && a.key == KeyOf(a) && a.key != []
  }

  /** Some quiet run reads a tail again. */
  ghost predicate RetriedAutomatically(a: Auto)
  {
    exists ts :: QuietRun(a, ts) && AutoRun(a, ts) && AutoExec(a, ts).column.tails.generation > a.column.tails.generation
  }

  lemma {:induction false} RetainedAll(current: seq<StreamId>, items: seq<StreamId>)
    requires forall s <- current :: s in items
    ensures Retained(current, items) == current
  {
    if current != [] {
      assert current == [current[0]] + current[1..];
      RetainedAll(current[1..], items);
    }
  }

  /** An unchanged listing leaves the selection, and so the key, as they were. */
  lemma StaticListing(c: Column, g: nat)
    requires Core(c) && g in c.listing.polls && c.view.selected != []
    ensures var d := SettlePoll(c, g, Streams(c.view.listed));
      d.view == c.view && d.tails == c.tails && d.allowLogs == c.allowLogs && d.epoch == c.epoch
  {
    forall s | s in c.view.selected ensures s in c.view.listed { assert s in ToSet(c.view.selected); }
    RetainedAll(c.view.selected, c.view.listed);
  }

  lemma StaticPoll(c: Column, g: nat)
    requires Core(c) && g in c.listing.polls && c.view.selected != []
    ensures var d := Step(c, ListingSettles(g, Streams(c.view.listed)));
      d.view == c.view && d.tails == c.tails && d.allowLogs == c.allowLogs
  {
    StaticListing(c, g);
    EffectFrame(Apply(c, ListingSettles(g, Streams(c.view.listed))));
  }

  lemma KeyNamesSelection(a: Auto)
    requires KeyOf(a) != []
    ensures a.column.view.selected != [] && Retained(a.column.view.selected, a.column.view.listed) != []
  {
    var s :| s in a.column.view.listed && s in a.column.view.selected;
    assert s in Retained(a.column.view.selected, a.column.view.listed);
  }

  /**
   * A listing answered as before starts a read of a held column if and only if a
   * denied stream is still on record.
   */
  lemma StaticListingRetriesIff(a: Auto, g: nat)
    requires Held(a) && g in a.column.listing.polls
    requires Step(a.column, ListingSettles(g, Streams(a.column.view.listed))).listing.applied != a.column.listing.applied
    ensures var d := AutoStep(a, Tick(ListingSettles(g, Streams(a.column.view.listed)), a.metadata));
      d.column.tails.generation > a.column.tails.generation <==> a.column.tails.deniedStreams != {}
  {
    KeyNamesSelection(a);
    StaticPoll(a.column, g);
  }

  // ---------------------------------------------------------------- without a record, never again

  ghost predicate Orphaned(a: Auto) { Held(a) && a.column.tails.deniedStreams == {} }

  lemma QuietColumn(c: Column, ev: Event)
    requires Core(c) && c.tails.denied && Enabled(c, ev) && c.allowLogs
    requires ev.StartListing? || ev.Message? || ev.SourceError? || ev.TimerFires? || ev.CapabilitiesReplaced?
      || (ev.ListingSettles? && ev.answer.ListingOutage?)
    ensures var d := Step(c, ev);
      && d.view == c.view && d.tails == c.tails && d.allowLogs == c.allowLogs
      && d.listing.denied == c.listing.denied && d.listing.applied == c.listing.applied
  {
    EffectFrame(Apply(c, ev));
  }

  lemma OrphanStays(a: Auto, t: Tick)
    requires Orphaned(a) && Enabled(a.column, t.ev) && Quiet(a, t)
    ensures Orphaned(AutoStep(a, t)) && AutoStep(a, t).column.tails.generation == a.column.tails.generation
  {
    AutoStepKeepsInv(a, t);
    KeyNamesSelection(a);
    if t.ev.ListingSettles? && t.ev.answer.Streams? {
      StaticPoll(a.column, t.ev.poll);
      StaticKeepsLatch(a.column, t.ev.poll);
    } else {
      QuietColumn(a.column, t.ev);
    }
  }

  lemma StaticKeepsLatch(c: Column, g: nat)
    requires g in c.listing.polls && !c.listing.denied
    ensures !Step(c, ListingSettles(g, Streams(c.view.listed))).listing.denied
  {
    EffectFrame(Apply(c, ListingSettles(g, Streams(c.view.listed))));
  }

  lemma {:induction false} OrphanIsNeverRead(a: Auto, ts: seq<Tick>)
    requires Orphaned(a) && QuietRun(a, ts) && AutoRun(a, ts)
    ensures Orphaned(AutoExec(a, ts)) && AutoExec(a, ts).column.tails.generation == a.column.tails.generation
    decreases |ts|
  {
    if ts != [] {
      OrphanStays(a, ts[0]);
      OrphanIsNeverRead(AutoStep(a, ts[0]), ts[1..]);
    }
  }

  /** The next poll answered as before reads the denied streams again. */
  lemma NextPollRetries(a: Auto)
    requires Held(a) && a.column.tails.deniedStreams != {}
    ensures RetriedAutomatically(a)
  {
    var g := a.column.listing.generation + 1;
    var t1 := Tick(StartListing, map[]);
    var t2 := Tick(ListingSettles(g, Streams(a.column.view.listed)), a.metadata);
    var a1 := AutoStep(a, t1);
    PollStarts(a);
    PollApplies(a.column);
    StaticListingRetriesIff(a1, g);
    TwoTicks(a, t1, t2);
  }

  lemma PollStarts(a: Auto)
    requires Held(a)
    ensures var a1 := AutoStep(a, Tick(StartListing, map[]));
      && Held(a1) && a1 == a.(column := Step(a.column, StartListing))
      && a1.column.tails == a.column.tails && a1.column.view == a.column.view
  {
    QuietColumn(a.column, StartListing);
    AutoStepKeepsInv(a, Tick(StartListing, map[]));
  }

  lemma TwoTicks(a: Auto, t1: Tick, t2: Tick)
    requires Enabled(a.column, t1.ev) && Quiet(a, t1)
    requires Enabled(AutoStep(a, t1).column, t2.ev) && Quiet(AutoStep(a, t1), t2)
    ensures QuietRun(a, [t1, t2]) && AutoRun(a, [t1, t2])
    ensures AutoExec(a, [t1, t2]) == AutoStep(AutoStep(a, t1), t2)
  {
    OneTick(AutoStep(a, t1), t2);
    assert [t1, t2][1..] == [t2];
  }

  lemma OneTick(a: Auto, t: Tick)
    requires Enabled(a.column, t.ev) && Quiet(a, t)
    ensures QuietRun(a, [t]) && AutoRun(a, [t]) && AutoExec(a, [t]) == AutoStep(a, t)
  {
    assert [t][1..] == [];
  }

  lemma PollApplies(c: Column)
    requires Core(c) && c.allowLogs
    ensures var d, g := Step(c, StartListing), c.listing.generation + 1;
      && g in d.listing.polls && d.view == c.view
      && Step(d, ListingSettles(g, Streams(c.view.listed))).listing.applied == g != c.listing.applied
      && d.listing.applied == c.listing.applied
  {
    EffectFrame(Apply(c, StartListing));
    var d := Step(c, StartListing);
    EffectFrame(Apply(d, ListingSettles(c.listing.generation + 1, Streams(c.view.listed))));
  }

  /**
   * A held tail denial is retried by some run of polls and unchanged listings if
   * and only if a denied stream is still on record.
   */
  lemma HeldLatchIsRetriedIff(a: Auto)
    requires Held(a)
    ensures RetriedAutomatically(a) <==> a.column.tails.deniedStreams != {}
  {
    if a.column.tails.deniedStreams != {} {
      NextPollRetries(a);
    } else if ts :| QuietRun(a, ts) && AutoRun(a, ts)
                    && AutoExec(a, ts).column.tails.generation > a.column.tails.generation {
      OrphanIsNeverRead(a, ts);
    }
  }

  // ---------------------------------------------------------------- the record can be lost

  const DENIED_STREAM := StreamId(0, 0)
  const OTHER_STREAM := StreamId(1, 1)

  /** One tick, then the rest of a run. */
  lemma AfterTick(a: Auto, t: Tick, rest: seq<Tick>) returns (ts: seq<Tick>)
    requires Enabled(a.column, t.ev) && AutoRun(AutoStep(a, t), rest)
    ensures AutoRun(a, ts) && AutoExec(a, ts) == AutoExec(AutoStep(a, t), rest)
  {
    ts := [t] + rest;
    assert ts[1..] == rest;
  }

  /** Two streams are listed and picked, and their first read is on its way. */
  function BothRead(): Auto
  {
    var a, b := DENIED_STREAM, OTHER_STREAM;
    var w := Wave(0, 1, [a, b], {a, b}, map[], false);
    Auto(Column(true, false, 0, ListingRoute(1, 1, 0, 0, false, map[]),
                TailRoute(1, 0, false, {}, map[], map[], map[], map[1 := w]),
                StreamRoute(false, 0, None, {}, 0, [], None), View([a, b], 1, [a, b], [], map[])),
         map[], {}, [Fingerprint(a, 0), Fingerprint(b, 0)])
  }

  /** The first poll is out. */
  function FirstPoll(): Auto
  {
    var a := AutoMounted(true, false);
    a.(column := a.column.(listing := ListingRoute(1, 0, 0, 0, false, map[1 := 0])))
  }

  lemma ListingFollows()
    ensures AutoStep(FirstPoll(), Tick(ListingSettles(1, Streams([DENIED_STREAM, OTHER_STREAM])), map[])) == BothRead()
  {
    var a, b := DENIED_STREAM, OTHER_STREAM;
    assert Retained([], [a, b]) == [];
    assert PickStreams([a, b], []) == [a, b];
    RetainedAll([a, b], [a, b]);
    assert ToSet([a, b]) == {a, b};
    assert [a, b][1..] == [b] && [b][1..] == [];
    assert RefreshKey([a, b], [a, b], map[]) == [Fingerprint(a, 0), Fingerprint(b, 0)];
  }

  lemma FirstReadIsReachable() returns (ts: seq<Tick>)
    ensures AutoRun(AutoMounted(true, false), ts) && AutoExec(AutoMounted(true, false), ts) == BothRead()
  {
    ListingFollows();
    ts := AfterTick(FirstPoll(), Tick(ListingSettles(1, Streams([DENIED_STREAM, OTHER_STREAM])), map[]), []);
    assert AutoStep(AutoMounted(true, false), Tick(StartListing, map[])) == FirstPoll();
    ts := AfterTick(AutoMounted(true, false), Tick(StartListing, map[]), ts);
  }

  /** One stream answers, the other is refused; the wave is over. */
  function OneRefused(): Auto
  {
    var a, b := DENIED_STREAM, OTHER_STREAM;
    var c := BothRead().column;
    BothRead().(column := c.(epoch := 1,
      tails := c.tails.(denied := true, deniedStreams := {a}, revoked := 1, waves := map[])))
  }

  lemma RefusalFollows() returns (ts: seq<Tick>)
    ensures AutoRun(BothRead(), ts) && AutoExec(BothRead(), ts) == OneRefused()
  {
    var a, b := DENIED_STREAM, OTHER_STREAM;
    var entry := LogEntry(b, Some(1), 1, 0, false, "", ErrorRow);
    var t1 := Tick(ReadSettles(1, b, Tail(entry, 0)), map[]);
    var t2 := Tick(ReadSettles(1, a, Unauthorized), map[]);
    var t3 := Tick(WaveSettles(1), map[]);
    var a0 := BothRead();
    var a1 := AutoStep(a0, t1);
    var a2 := AutoStep(a1, t2);
    assert a1.column.tails.waves[1].pending == {a};
    assert a2.column.tails.waves[1].pending == {};
    assert a2.column.tails.deniedStreams == {a};
    assert a2.column.tails.waves - {1} == map[];
    ts := AfterTick(a2, t3, []);
    ts := AfterTick(a1, t2, ts);
    ts := AfterTick(a0, t1, ts);
  }

  /** The operator looks at the other stream only; it is read at once. */
  function OtherPicked(): Auto
  {
    var b := OTHER_STREAM;
    var c := OneRefused().column;
    var w := Wave(1, 2, [b], {b}, map[], false);
    OneRefused().(key := [Fingerprint(b, 0)], column := c.(
      view := c.view.(selected := [b], selection := 2), tails := c.tails.(generation := 2, waves := map[2 := w])))
  }

  lemma PickFollows()
    ensures ToSet([OTHER_STREAM]) <= ToSet(OneRefused().column.view.listed)
    ensures AutoStep(OneRefused(), Tick(Select([OTHER_STREAM]), map[])) == OtherPicked()
  {
    var a, b := DENIED_STREAM, OTHER_STREAM;
    assert ToSet([b]) == {b} && ToSet([a, b]) == {a, b};
    RetainedAll([b], [a, b]);
    assert [a, b][1..] == [b] && [b][1..] == [];
    assert RefreshKey([a, b], [b], map[]) == [Fingerprint(b, 0)];
  }

  /** That read fails, and with it the record of the denial goes. */
  lemma RecordIsLost() returns (ts: seq<Tick>)
    ensures AutoRun(OtherPicked(), ts)
    ensures var d := AutoExec(OtherPicked(), ts);
      && d.column.allowLogs && d.column.tails.denied && !d.column.listing.denied && d.column.tails.waves == map[]
      && d.column.tails.deniedStreams == {} && d.key == KeyOf(d) && d.key != []
  {
    var a, b := DENIED_STREAM, OTHER_STREAM;
    var t2, t3 := Tick(ReadSettles(2, b, Outage), map[]), Tick(WaveSettles(2), map[]);
    var a1 := OtherPicked();
    var a2 := AutoStep(a1, t2);
    var w := Wave(1, 2, [b], {}, map[b := ReadResult.Outage], false);
    assert Answered(a1.column.tails.waves[2], b, ReadResult.Outage) == w;
    assert a1.column.tails.waves[2 := w] == map[2 := w];
    assert a2 == a1.(column := a1.column.(tails := a1.column.tails.(waves := map[2 := w])));
    assert ToSet([b]) == {b} && {a} !! {b} && Succeeded(a2.column.tails, 2, w) == {};
    WaveOrphansLatchIff(a2.column, 2);
    assert [a, b][1..] == [b] && [b][1..] == [];
    assert RefreshKey([a, b], [b], map[]) == [Fingerprint(b, 0)];
    ts := AfterTick(a2, t3, []);
    ts := AfterTick(a1, t2, ts);
  }

  /** From a fresh column: a held denial that no poll or unchanged listing will ever read again. */
  lemma LostRecordIsReachable() returns (ts: seq<Tick>)
    ensures AutoRun(AutoMounted(true, false), ts)
    ensures var d := AutoExec(AutoMounted(true, false), ts); Orphaned(d) && !RetriedAutomatically(d)
  {
    var a0 := AutoMounted(true, false);
    var first := FirstReadIsReachable();
    var second := RefusalFollows();
    var third := RecordIsLost();
    PickFollows();
    third := AfterTick(OneRefused(), Tick(Select([OTHER_STREAM]), map[]), third);
    AutoConcat(BothRead(), second, third);
    AutoConcat(a0, first, second + third);
    ts := first + (second + third);
    MountedInv(true, false);
    AutoRunKeepsInv(a0, ts);
    HeldLatchIsRetriedIff(AutoExec(a0, ts));
  }

  lemma {:induction false} AutoRunKeepsInv(a: Auto, ts: seq<Tick>)
    requires AutoInv(a) && AutoRun(a, ts)
    ensures AutoInv(AutoExec(a, ts))
    decreases |ts|
  {
    if ts != [] {
      AutoStepKeepsInv(a, ts[0]);
      AutoRunKeepsInv(AutoStep(a, ts[0]), ts[1..]);
    }
  }

  lemma {:induction false} AutoConcat(a: Auto, s: seq<Tick>, t: seq<Tick>)
    requires AutoRun(a, s) && AutoRun(AutoExec(a, s), t)
    ensures AutoRun(a, s + t) && AutoExec(a, s + t) == AutoExec(AutoExec(a, s), t)
    decreases |s|
  {
    if s == [] {
      assert s + t == t;
    } else {
      var st, next := s + t, AutoStep(a, s[0]);
      assert st != [] && st[0] == s[0] && st[1..] == s[1..] + t;
      AutoConcat(next, s[1..], t);
    }
  }
}

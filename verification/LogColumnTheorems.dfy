/**
 * Theorems over whole runs of a log column: what a denial hides, which answers
 * may lift it, how long a stale warning may live, that a denied stream is always
 * retried, and exactly which columns can recover.
 */
module LogColumnTheorems {
  import opened Basics
  import opened LogTrim
  import opened LogColumn
  import opened LogColumnSafety

  lemma {:induction false} RunKeepsInv(c: Column, evs: seq<Event>)
    requires Inv(c) && Run(c, evs)
    ensures Inv(Exec(c, evs))
    decreases |evs|
  {
    if evs != [] {
      StepKeepsInv(c, evs[0]);
      RunKeepsInv(Step(c, evs[0]), evs[1..]);
    }
  }

  // ---------------------------------------------------------------- confidentiality

  /**
   * In every run: a held latch means an empty column; every stored entry comes
   * from a request opened in the current epoch; and a tail entry is newer than
   * every tail request covered by an applied denial.
   */
  lemma DeniedColumnIsBlank(logs: bool, streaming: bool, evs: seq<Event>)
    requires Run(Mounted(logs, streaming), evs)
    ensures var c := Exec(Mounted(logs, streaming), evs);
      && (c.listing.denied || c.tails.denied || c.stream.denied ==> c.view.entries == [] && c.view.offsets == map[])
      && (forall e <- c.view.entries ::
            || (e.tag.LiveFrame? && e.tag.epoch == c.epoch)
            || (e.tag.TailRead? && e.tag.epoch == c.epoch && e.tag.generation > c.tails.revoked))
  {
    MountedInv(logs, streaming);
    RunKeepsInv(Mounted(logs, streaming), evs);
    var c := Exec(Mounted(logs, streaming), evs);
    forall e | e in c.view.entries ensures OwnedTag(e.tag, c.epoch, c.tails.revoked) {}
  }

  /** A denial that newly latches a route starts a new epoch, so every open request goes stale. */
  lemma NewLatchStartsEpoch(c: Column, ev: Event)
    requires Enabled(c, ev)
    ensures c.epoch <= Step(c, ev).epoch
    ensures NewlyLatched(c, Step(c, ev)) ==> c.epoch < Step(c, ev).epoch
  {
    EffectFrame(Apply(c, ev));
    ApplyEpoch(c, ev);
  }

  lemma ApplyEpoch(c: Column, ev: Event)
    requires Enabled(c, ev)
    ensures c.epoch <= Apply(c, ev).epoch
    ensures NewlyLatched(c, Apply(c, ev)) ==> c.epoch < Apply(c, ev).epoch
  {
    match ev
    case ListingSettles(g, answer) => PollEpoch(c, g, answer);
    case ReadSettles(g, s, r) => ReadEpoch(c, g, s, r);
    case WaveSettles(g) => WaveEpoch(c, g);
    case Message(i, frame) => MessageEpoch(c, i, frame);
    case _ =>
  }

  lemma PollEpoch(c: Column, g: nat, answer: Listing)
    requires g in c.listing.polls
    ensures var d := SettlePoll(c, g, answer); c.epoch <= d.epoch && (NewlyLatched(c, d) ==> c.epoch < d.epoch)
  {
  }

  lemma ReadEpoch(c: Column, g: nat, s: StreamId, r: ReadResult)
    requires g in c.tails.waves
    ensures var d := SettleRead(c, g, s, r); c.epoch <= d.epoch && (NewlyLatched(c, d) ==> c.epoch < d.epoch)
  {
  }

  lemma WaveEpoch(c: Column, g: nat)
    requires g in c.tails.waves
    ensures var d := SettleWave(c, g); c.epoch == d.epoch && !NewlyLatched(c, d)
  {
  }

  lemma MessageEpoch(c: Column, i: nat, frame: Frame)
    requires i < |c.stream.sources|
    ensures var d := Receive(c, i, frame); c.epoch <= d.epoch && (NewlyLatched(c, d) ==> c.epoch < d.epoch)
  {
  }

  predicate NewlyLatched(c: Column, d: Column)
  {
    || (d.listing.denied && !c.listing.denied)
    || (d.tails.denied && !c.tails.denied)
    || (d.stream.denied && !c.stream.denied)
  }

  /** The stream effect writes only its own route, and never latches it. */
  lemma EffectFrame(c: Column)
    ensures var d := RunStreamEffect(c);
      && d == c.(stream := d.stream)
      && (d.stream.denied ==> c.stream.denied)
  {
  }

  // ---------------------------------------------------------------- who lifts a tail denial

  /** The wave answered 200 for this very stream, after the revoke watermark. */
  predicate OwnSuccess(c: Column, ev: Event, s: StreamId)
  {
    && ev.WaveSettles? && ev.wave in c.tails.waves && ev.wave > c.tails.revoked
    && s in c.tails.waves[ev.wave].results && c.tails.waves[ev.wave].results[s].Tail?
  }

  /**
   * A stream leaves the denied set only through its own 200 in a wave started
   * after the denial, or because it is no longer selected and listed.
   */
  lemma DeniedStreamLeaves(c: Column, ev: Event, s: StreamId)
    requires Inv(c) && Enabled(c, ev)
    requires s in c.tails.deniedStreams && s !in Step(c, ev).tails.deniedStreams
    ensures OwnSuccess(c, ev, s) || !(s in c.view.selected && s in c.view.listed)
    ensures ev.WaveSettles? && ev.wave > c.tails.revoked
  {
    EffectFrame(Apply(c, ev));
    if ev.WaveSettles? {
      WaveReleases(c, ev.wave, s);
    } else {
      OnlyWavesRelease(c, ev, s);
    }
  }

  lemma WaveReleases(c: Column, g: nat, s: StreamId)
    requires Core(c) && g in c.tails.waves
    requires s in c.tails.deniedStreams && s !in SettleWave(c, g).tails.deniedStreams
    ensures g > c.tails.revoked && (OwnSuccess(c, WaveSettles(g), s) || s !in c.view.selected || s !in c.view.listed)
  {
    var w := c.tails.waves[g];
    assert WaveSane(w, c.epoch, c.view.selection, c.view.selected);
    if s !in w.streams { assert s !in ToSet(w.streams); assert s !in ToSet(c.view.selected); }
  }

  lemma OnlyWavesRelease(c: Column, ev: Event, s: StreamId)
    requires Enabled(c, ev) && !ev.WaveSettles? && s in c.tails.deniedStreams
    ensures s in Apply(c, ev).tails.deniedStreams
  {
    if ev.ReadSettles? { ReadKeepsDenied(c, ev.wave, ev.of, ev.result, s); }
  }

  lemma ReadKeepsDenied(c: Column, g: nat, of: StreamId, r: ReadResult, s: StreamId)
    requires g in c.tails.waves && s in c.tails.deniedStreams
    ensures s in SettleRead(c, g, of, r).tails.deniedStreams
  {
  }

  /** So the tail latch survives a sibling's 200 and any 5xx retry. */
  lemma TailLatchReleased(c: Column, ev: Event)
    requires Inv(c) && Enabled(c, ev)
    requires c.tails.denied && !Step(c, ev).tails.denied
    ensures ev.WaveSettles? && ev.wave > c.tails.revoked
    ensures forall s <- c.tails.deniedStreams ::
      OwnSuccess(c, ev, s) || !(s in c.view.selected && s in c.view.listed)
    ensures exists s <- c.view.selected :: OwnSuccess(c, ev, s)
  {
    EffectFrame(Apply(c, ev));
    if !ev.WaveSettles? { OnlyWavesUnlatch(c, ev); }
    var w := c.tails.waves[ev.wave];
    assert WaveSane(w, c.epoch, c.view.selection, c.view.selected);
    forall s | s in c.tails.deniedStreams
      ensures OwnSuccess(c, ev, s) || !(s in c.view.selected && s in c.view.listed)
    {
      DeniedStreamLeaves(c, ev, s);
    }
    var t := c.tails.(waves := c.tails.waves - {ev.wave});
    var good := Succeeded(t, ev.wave, w);
    assert good != {};
    var s :| s in good;
    assert s in ToSet(w.streams);
    assert s in c.view.selected && OwnSuccess(c, ev, s);
  }

  lemma OnlyWavesUnlatch(c: Column, ev: Event)
    requires Enabled(c, ev) && !ev.WaveSettles? && c.tails.denied
    ensures Apply(c, ev).tails.denied
  {
    if ev.ReadSettles? { ReadKeepsLatch(c, ev.wave, ev.of, ev.result); }
  }

  lemma ReadKeepsLatch(c: Column, g: nat, of: StreamId, r: ReadResult)
    requires g in c.tails.waves && c.tails.denied
    ensures SettleRead(c, g, of, r).tails.denied
  {
  }

  // ---------------------------------------------------------------- stale warnings

  lemma SuccessOnlyGrows(c: Column, ev: Event, s: StreamId)
    requires Inv(c) && Enabled(c, ev)
    ensures Stamp(c.tails.succeeded, s) <= Stamp(Step(c, ev).tails.succeeded, s)
  {
    EffectFrame(Apply(c, ev));
    match ev
    case ReadSettles(g, of, r) => ReadKeepsSuccess(c, g, of, r);
    case WaveSettles(g) => WaveSuccessGrows(c, g, s);
    case _ =>
  }

  lemma ReadKeepsSuccess(c: Column, g: nat, of: StreamId, r: ReadResult)
    requires g in c.tails.waves
    ensures SettleRead(c, g, of, r).tails.succeeded == c.tails.succeeded
  {
  }

  lemma WaveSuccessGrows(c: Column, g: nat, s: StreamId)
    requires g in c.tails.waves
    ensures Stamp(c.tails.succeeded, s) <= Stamp(SettleWave(c, g).tails.succeeded, s)
  {
    var w := c.tails.waves[g];
    var t := c.tails.(waves := c.tails.waves - {g});
    var good := Succeeded(t, g, w);
    var t1 := t.(deniedStreams := (t.deniedStreams - good) * ToSet(w.streams));
    RecordedSuccess(t1, g, w, good, s);
  }

  lemma RecordedSuccess(t: TailRoute, g: nat, w: Wave, good: set<StreamId>, s: StreamId)
    ensures Stamp(RecordSuccess(t, g, w, good).succeeded, s) == if s in good then g else Stamp(t.succeeded, s)
  {
  }

  /**
   * Once a success of generation `h` is applied for a stream, no failure of
   * generation `h` or less shows a warning for it in any later state, whatever
   * waves overlap and however its siblings answer.
   */
  lemma {:induction false} AppliedSuccessSilencesOlderFailures(c: Column, evs: seq<Event>, s: StreamId, h: nat)
    requires Inv(c) && Run(c, evs) && h <= Stamp(c.tails.succeeded, s)
    ensures var d := Exec(c, evs); s in d.tails.warnings ==> d.tails.warnings[s] > h
    decreases |evs|
  {
    if evs != [] {
      StepKeepsInv(c, evs[0]);
      SuccessOnlyGrows(c, evs[0], s);
      AppliedSuccessSilencesOlderFailures(Step(c, evs[0]), evs[1..], s, h);
    }
  }

  /** A shown warning names a failure newer than every applied read of its stream. */
  lemma WarningIsNewest(logs: bool, streaming: bool, evs: seq<Event>, s: StreamId)
    requires Run(Mounted(logs, streaming), evs)
    ensures var t := Exec(Mounted(logs, streaming), evs).tails;
      s in t.warnings ==> Stamp(t.succeeded, s) < t.warnings[s]
  {
    MountedInv(logs, streaming);
    RunKeepsInv(Mounted(logs, streaming), evs);
  }

  // ---------------------------------------------------------------- the probe

  /**
   * The denied stream never goes silent: while streaming is allowed and the
   * other routes are authorized, a probe timer is pending or a probe connection
   * of the current epoch is open. There is never a second timer.
   */
  lemma DeniedStreamIsProbed(logs: bool, streaming: bool, evs: seq<Event>)
    requires Run(Mounted(logs, streaming), evs)
    ensures var c := Exec(Mounted(logs, streaming), evs); var r := c.stream;
      && (r.denied && c.allowStream && !c.listing.denied && !c.tails.denied ==>
            || (r.timer.Some? && r.timer.value in r.timers)
            || (r.current.Some? && r.current.value < |r.sources| &&
                r.sources[r.current.value] == Source(c.epoch, true, false)))
      && |r.timers| <= 1
  {
    MountedInv(logs, streaming);
    RunKeepsInv(Mounted(logs, streaming), evs);
    var r := Exec(Mounted(logs, streaming), evs).stream;
    if r.timer.Some? { assert r.timers == {r.timer.value}; }
  }

  // ---------------------------------------------------------------- recovery

  predicate Ungated(evs: seq<Event>) { forall ev <- evs :: !ev.Gates? }

  /** Some run without a capability change lifts every latch. */
  ghost predicate Recoverable(c: Column)
  {
    exists evs :: Run(c, evs) && Ungated(evs) && !Latched(Exec(c, evs))
  }

  /** The tail gate waits for the stream latch and the stream gate for the tail latch. */
  predicate Stuck(c: Column) { c.tails.denied && c.stream.denied && c.allowStream }

  lemma {:induction false} StuckForever(c: Column, evs: seq<Event>)
    requires Stuck(c) && Run(c, evs) && Ungated(evs)
    ensures Stuck(Exec(c, evs))
    decreases |evs|
  {
    if evs != [] {
      assert Stuck(Step(c, evs[0]));
      StuckForever(Step(c, evs[0]), evs[1..]);
    }
  }

  lemma {:induction false} ExecConcat(c: Column, a: seq<Event>, b: seq<Event>)
    requires Run(c, a) && Run(Exec(c, a), b)
    ensures Run(c, a + b) && Exec(c, a + b) == Exec(Exec(c, a), b)
    decreases |a|
  {
    if a == [] {
      assert a + b == b;
    } else {
      var ab, next := a + b, Step(c, a[0]);
      assert ab != [] && ab[0] == a[0] && ab[1..] == a[1..] + b;
      ExecConcat(next, a[1..], b);
      assert Run(next, ab[1..]) && Exec(next, ab[1..]) == Exec(Exec(c, a), b);
    }
  }

  lemma One(c: Column, ev: Event)
    requires Enabled(c, ev)
    ensures Run(c, [ev]) && Exec(c, [ev]) == Step(c, ev)
  {
    assert [ev][1..] == [];
  }

  lemma Two(c: Column, a: Event, b: Event)
    requires Enabled(c, a) && Enabled(Step(c, a), b)
    ensures Run(c, [a, b]) && Exec(c, [a, b]) == Step(Step(c, a), b)
  {
    One(c, a);
    One(Step(c, a), b);
    ExecConcat(c, [a], [b]);
    assert [a] + [b] == [a, b];
  }

  const ANY_STREAM := StreamId(0, 0)

  lemma ListingRecovers(c: Column) returns (evs: seq<Event>)
    requires Inv(c) && c.allowLogs
    ensures Run(c, evs) && Ungated(evs)
    ensures var d := Exec(c, evs);
      && Inv(d) && d.allowLogs && !d.listing.denied
      && d.tails.denied == c.tails.denied
      && d.stream.denied == c.stream.denied && d.allowStream == c.allowStream
      && d.view.selected != [] && (forall s <- d.view.selected :: s == ANY_STREAM) && d.view.listed == [ANY_STREAM]
  {
    var g := c.listing.generation + 1;
    var a, b := StartListing, ListingSettles(g, Streams([ANY_STREAM]));
    Two(c, a, b);
    StepKeepsInv(c, a);
    StepKeepsInv(Step(c, a), b);
    evs := [a, b];
  }

  /** A wave that owns the column and answers 200 for all it read lifts the tail latch. */
  lemma FullSuccessLiftsLatch(c: Column, g: nat)
    requires g in c.tails.waves && WaveOwnsColumn(c, g, c.tails.waves[g])
    requires c.tails.waves[g].streams != []
    requires forall s <- c.tails.waves[g].streams ::
      s in c.tails.waves[g].results && c.tails.waves[g].results[s].Tail? && Stamp(c.tails.succeeded, s) <= g
    ensures !SettleWave(c, g).tails.denied
    ensures SettleWave(c, g).listing == c.listing && SettleWave(c, g).stream == c.stream
  {
    var w := c.tails.waves[g];
    var t := c.tails.(waves := c.tails.waves - {g});
    var good := Succeeded(t, g, w);
    assert good == ToSet(w.streams);
    assert w.streams[0] in good;
  }

  lemma TailsAnswered(c: Column) returns (g: nat, evs: seq<Event>)
    requires Inv(c) && c.allowLogs && !c.listing.denied && !c.stream.denied
    requires c.view.selected != [] && (forall s <- c.view.selected :: s == ANY_STREAM) && c.view.listed == [ANY_STREAM]
    ensures Run(c, evs) && Ungated(evs)
    ensures var d := Exec(c, evs);
      && !d.listing.denied && !d.stream.denied
      && g in d.tails.waves && d.tails.waves[g].pending == {} && WaveOwnsColumn(d, g, d.tails.waves[g])
      && d.tails.waves[g].streams != []
      && (forall s <- d.tails.waves[g].streams ::
            s in d.tails.waves[g].results && d.tails.waves[g].results[s].Tail? && Stamp(d.tails.succeeded, s) <= g)
  {
    g := c.tails.generation + 1;
    var entry := LogEntry(ANY_STREAM, Some(0), 0, 0, false, "", ErrorRow);
    var a, b := StartTails, ReadSettles(g, ANY_STREAM, Tail(entry, 0));
    var streams := Retained(c.view.selected, c.view.listed);
    assert c.view.selected[0] in c.view.selected;
    assert ANY_STREAM in streams;
    Two(c, a, b);
    evs := [a, b];
  }

  lemma TailsRecover(c: Column) returns (evs: seq<Event>)
    requires Inv(c) && c.allowLogs && !c.listing.denied && !c.stream.denied
    requires c.view.selected != [] && (forall s <- c.view.selected :: s == ANY_STREAM) && c.view.listed == [ANY_STREAM]
    ensures Run(c, evs) && Ungated(evs)
    ensures !Latched(Exec(c, evs))
  {
    var g, answered := TailsAnswered(c);
    var d := Exec(c, answered);
    FullSuccessLiftsLatch(d, g);
    EffectFrame(Apply(d, WaveSettles(g)));
    One(d, WaveSettles(g));
    ExecConcat(c, answered, [WaveSettles(g)]);
    evs := answered + [WaveSettles(g)];
  }

  lemma StreamRecovers(c: Column) returns (evs: seq<Event>)
    requires Inv(c) && !c.listing.denied && !c.tails.denied && c.stream.denied
    ensures Run(c, evs) && Ungated(evs)
    ensures !Latched(Exec(c, evs))
  {
    if ProbeOpen(c.stream, c.epoch) {
      var a := Message(c.stream.current.value, Signal);
      One(c, a);
      evs := [a];
    } else {
      var a := TimerFires(c.stream.timer.value);
      var c1 := Step(c, a);
      assert ProbeOpen(c1.stream, c1.epoch);
      var b := Message(c1.stream.current.value, Signal);
      Two(c, a, b);
      evs := [a, b];
    }
  }

  /**
   * Exactly which columns recover. A column whose tail and stream latches are
   * both held stays blank for good; every other column has a run, with no
   * capability change, that lifts every latch.
   */
  lemma RecoversUnlessBothDenied(c: Column)
    requires Inv(c) && c.allowLogs
    ensures Recoverable(c) <==> !(c.tails.denied && c.stream.denied)
  {
    if c.tails.denied && c.stream.denied {
      if evs :| Run(c, evs) && Ungated(evs) && !Latched(Exec(c, evs)) {
        StuckForever(c, evs);
      }
    } else {
      var first := ListingRecovers(c);
      var d := Exec(c, first);
      var second: seq<Event> := [];
      if d.tails.denied {
        second := TailsRecover(d);
      } else if d.stream.denied {
        second := StreamRecovers(d);
      }
      ExecConcat(c, first, second);
      assert Ungated(first + second);
    }
  }

  /** A tail read started while only the stream is denied can still be refused. */
  lemma TailsRefused(c: Column) returns (evs: seq<Event>)
    requires Inv(c) && c.allowLogs && c.allowStream && !c.listing.denied && !c.tails.denied && c.stream.denied
    requires c.view.selected != [] && (forall s <- c.view.selected :: s == ANY_STREAM) && c.view.listed == [ANY_STREAM]
    ensures Run(c, evs) && Stuck(Exec(c, evs))
  {
    var g := c.tails.generation + 1;
    var streams := Retained(c.view.selected, c.view.listed);
    assert c.view.selected[0] in c.view.selected;
    assert ANY_STREAM in streams;
    var a, b := StartTails, ReadSettles(g, ANY_STREAM, Unauthorized);
    Two(c, a, b);
    evs := [a, b];
  }

  /** Both latches are reached from a fresh column: the stream is refused, then a tail read is. */
  lemma BothDeniedIsReachable() returns (evs: seq<Event>)
    ensures Run(Mounted(true, true), evs) && Stuck(Exec(Mounted(true, true), evs))
    ensures !Recoverable(Exec(Mounted(true, true), evs))
  {
    var c0 := Mounted(true, true);
    MountedInv(true, true);
    assert c0.stream.sources == [Source(0, true, false)];
    var refuse := Message(0, Refused);
    One(c0, refuse);
    StepKeepsInv(c0, refuse);
    var c1 := Step(c0, refuse);
    var list := ListingRecovers(c1);
    var tails := TailsRefused(Exec(c1, list));
    ExecConcat(c1, list, tails);
    ExecConcat(c0, [refuse], list + tails);
    evs := [refuse] + (list + tails);
    RunKeepsInv(c0, evs);
    if rescue :| Run(Exec(c0, evs), rescue) && Ungated(rescue) && !Latched(Exec(Exec(c0, evs), rescue)) {
      StuckForever(Exec(c0, evs), rescue);
    }
  }
}

/**
 * What every interleaving of the column's routes keeps.
 */
module LogColumnSafety {
  import opened Basics
  import opened LogTrim
  import opened LogColumn

  // ---------------------------------------------------------------- the invariant

  predicate Latched(c: Column) { c.listing.denied || c.tails.denied || c.stream.denied }

  predicate Blank(v: View) { v.entries == [] && v.offsets == map[] }

  /** The request behind an entry: opened in this epoch, and newer than the last tail denial. */
  predicate OwnedTag(t: Tag, epoch: nat, revoked: nat)
  {
    match t
    case TailRead(g, e) => e == epoch && g > revoked
    case LiveFrame(e) => e == epoch
    case _ => false
  }

  predicate Owned(es: seq<LogEntry>, epoch: nat, revoked: nat)
  {
    forall e <- es :: OwnedTag(e.tag, epoch, revoked)
  }

  /** A stale-tail warning is the newest word on its stream. */
  predicate Warned(t: TailRoute)
  {
    forall s <- t.warnings ::
      s in t.failed && t.failed[s] == t.warnings[s] && Stamp(t.succeeded, s) < t.warnings[s]
  }

  predicate ListingSane(l: ListingRoute)
  {
    && l.applied <= l.generation && l.failed <= l.generation && l.revoked <= l.generation
    && (forall g <- l.polls :: g <= l.generation)
  }

  predicate WaveSane(w: Wave, epoch: nat, selection: nat, selected: seq<StreamId>)
  {
    && w.epoch <= epoch && w.selection <= selection
    && w.pending <= ToSet(w.streams)
    && (forall s :: s in w.streams && s !in w.pending ==> s in w.results)
    && (w.epoch == epoch && w.selection == selection ==> ToSet(w.streams) == ToSet(selected))
  }

  predicate WavesSane(waves: map<nat, Wave>, epoch: nat, selection: nat, selected: seq<StreamId>)
  {
    forall g <- waves :: WaveSane(waves[g], epoch, selection, selected)
  }

  /** A generation is spent once: an outstanding wave has not succeeded yet. */
  predicate TailsSane(t: TailRoute)
  {
    && t.revoked <= t.generation
    && (t.deniedStreams != {} ==> t.denied)
    && (forall s <- t.succeeded :: t.succeeded[s] <= t.generation && t.succeeded[s] !in t.waves)
    && (forall g <- t.waves :: 1 <= g <= t.generation)
  }

  predicate SelectionListed(v: View) { ToSet(v.selected) <= ToSet(v.listed) }

  predicate OneTimer(r: StreamRoute)
  {
    && r.timers == (if r.timer.Some? then {r.timer.value} else {})
    && (forall t <- r.timers :: t < r.nextTimer)
  }

  predicate SourcesSane(r: StreamRoute, epoch: nat)
  {
    && (r.current.Some? ==> r.current.value < |r.sources|)
    && (forall s <- r.sources :: s.openedEpoch <= epoch)
  }

  predicate Core(c: Column)
  {
    && (Latched(c) ==> Blank(c.view))
    && Owned(c.view.entries, c.epoch, c.tails.revoked)
    && Warned(c.tails) && TailsSane(c.tails) && WavesSane(c.tails.waves, c.epoch, c.view.selection, c.view.selected)
    && ListingSane(c.listing) && SelectionListed(c.view)
    && OneTimer(c.stream) && SourcesSane(c.stream, c.epoch)
  }

  predicate ProbeOpen(r: StreamRoute, epoch: nat)
  {
    r.current.Some? && r.current.value < |r.sources| && r.sources[r.current.value] == Source(epoch, true, false)
  }

  /** A held stream latch is always on its way to another attempt. */
  predicate ProbeArmed(c: Column)
  {
    c.stream.denied && c.allowStream && !c.listing.denied && !c.tails.denied
    ==> c.stream.timer.Some? || ProbeOpen(c.stream, c.epoch)
  }

  predicate StreamGated(c: Column)
  {
    && (!c.allowStream || c.listing.denied || c.tails.denied ==> c.stream.current.None?)
    && (!c.allowStream ==> !c.stream.denied)
  }

  predicate Inv(c: Column) { Core(c) && ProbeArmed(c) && StreamGated(c) }

  // ---------------------------------------------------------------- the stream effect

  lemma EffectKeepsCore(c: Column)
    requires Core(c)
    ensures Inv(RunStreamEffect(c))
  {
  }

  lemma MountedInv(logs: bool, stream: bool)
    ensures Inv(Mounted(logs, stream))
  {
  }

  // ---------------------------------------------------------------- listing route

  lemma ListingKeepsCore(c: Column, g: nat, answer: Listing)
    requires Inv(c) && g in c.listing.polls
    ensures Core(SettlePoll(c, g, answer))
  {
  }

  // ---------------------------------------------------------------- tail route

  lemma StartWaveKeepsCore(c: Column)
    requires Inv(c)
    ensures Core(StartWave(c))
  {
  }

  lemma AnswerKeepsCore(c: Column, g: nat, s: StreamId, r: ReadResult)
    requires Core(c) && g in c.tails.waves
    ensures Core(c.(tails := c.tails.(waves := c.tails.waves[g := Answered(c.tails.waves[g], s, r)])))
  {
    var w := Answered(c.tails.waves[g], s, r);
    assert WaveSane(w, c.epoch, c.view.selection, c.view.selected);
  }

  lemma DenyTailKeepsCore(c: Column, g: nat, w: Wave, s: StreamId)
    requires Core(c) && g in c.tails.waves && c.tails.waves[g] == w
    ensures Core(DenyTail(c, g, w, s))
  {
    var d := DenyTail(c, g, w, s);
    forall h | h in d.tails.waves ensures WaveSane(d.tails.waves[h], d.epoch, d.view.selection, d.view.selected) {
      assert WaveSane(c.tails.waves[h], c.epoch, c.view.selection, c.view.selected);
    }
  }

  lemma ReadKeepsCore(c: Column, g: nat, s: StreamId, r: ReadResult)
    requires Core(c) && g in c.tails.waves
    ensures Core(SettleRead(c, g, s, r))
  {
    var w := Answered(c.tails.waves[g], s, r);
    var c0 := c.(tails := c.tails.(waves := c.tails.waves[g := w]));
    AnswerKeepsCore(c, g, s, r);
    if r.Unauthorized? {
      DenyTailKeepsCore(c0, g, w, s);
    } else if r.Outage? && TailWarningApplies(c0, g, w, s) {
      assert Warned(WarnTail(c0, g, s).tails);
    }
  }

  lemma TrimKeepsOwned(es: seq<LogEntry>, selected: seq<StreamId>, epoch: nat, revoked: nat)
    requires Owned(es, epoch, revoked)
    ensures Owned(TrimLogEntries(es, selected), epoch, revoked)
  {
    forall k: LogEntry | k in TrimLogEntries(es, selected) ensures OwnedTag(k.tag, epoch, revoked) {
      var o := TrimProvenance(es, selected, k);
    }
  }

  lemma RewarnKeepsWarned(t: TailRoute, g: nat, w: Wave)
    requires Warned(t) && forall s <- t.succeeded :: t.succeeded[s] != g
    requires 1 <= g
    ensures Warned(t.(warnings := Rewarn(t, g, w)))
  {
  }

  lemma SuccessKeepsWarned(t: TailRoute, g: nat, w: Wave)
    requires Warned(t) && 1 <= g && forall s <- t.succeeded :: t.succeeded[s] != g
    ensures Warned(RecordSuccess(t, g, w, Succeeded(t, g, w)))
  {
    var good := Succeeded(t, g, w);
    var r := RecordSuccess(t, g, w, good);
    RewarnKeepsWarned(t, g, w);
    forall s | s in r.warnings
      ensures s in r.failed && r.failed[s] == r.warnings[s] && Stamp(r.succeeded, s) < r.warnings[s]
    {
      assert s in Rewarn(t, g, w);
    }
  }

  lemma SuccessKeepsTails(t: TailRoute, g: nat, w: Wave)
    requires TailsSane(t) && g !in t.waves && 1 <= g <= t.generation && t.deniedStreams == {}
    ensures TailsSane(RecordSuccess(t, g, w, Succeeded(t, g, w)))
  {
  }

  lemma InstallKeepsOwned(c: Column, g: nat, w: Wave, good: set<StreamId>)
    requires Core(c) && WaveOwnsColumn(c, g, w)
    ensures Owned(InstallWave(c.view, g, w, good).entries, c.epoch, c.tails.revoked)
  {
    TrimKeepsOwned(Uncovered(c.view.entries, w, good) + Snapshots(w.streams, g, w, good),
                   c.view.selected, c.epoch, c.tails.revoked);
  }

  lemma TailsKeepCore(c: Column, t: TailRoute)
    requires Core(c) && Warned(t) && TailsSane(t) && t.revoked == c.tails.revoked
    requires WavesSane(t.waves, c.epoch, c.view.selection, c.view.selected)
    requires t.denied ==> c.tails.denied
    ensures Core(c.(tails := t))
  {
  }

  lemma WaveKeepsCore(c: Column, g: nat)
    requires Core(c) && g in c.tails.waves
    ensures Core(SettleWave(c, g))
  {
    var w := c.tails.waves[g];
    var t := c.tails.(waves := c.tails.waves - {g});
    assert WavesSane(t.waves, c.epoch, c.view.selection, c.view.selected);
    if !WaveOwnsColumn(c, g, w) {
      TailsKeepCore(c, t);
      return;
    }
    var good := Succeeded(t, g, w);
    var t1 := t.(deniedStreams := (t.deniedStreams - good) * ToSet(w.streams));
    TailsKeepCore(c, t1);
    if t1.deniedStreams == {} {
      assert Succeeded(t1, g, w) == good;
      RewarnKeepsWarned(t1, g, w);
      SuccessKeepsWarned(t1, g, w);
      SuccessKeepsTails(t1, g, w);
      TailsKeepCore(c, t1.(warnings := Rewarn(t1, g, w)));
      if good != {} { InstallKeepsCore(c, g, w, t1, good); }
    }
  }

  lemma InstallKeepsCore(c: Column, g: nat, w: Wave, t: TailRoute, good: set<StreamId>)
    requires Core(c) && WaveOwnsColumn(c, g, w) && t.revoked == c.tails.revoked
    requires Warned(RecordSuccess(t, g, w, good)) && TailsSane(RecordSuccess(t, g, w, good))
    requires WavesSane(t.waves, c.epoch, c.view.selection, c.view.selected)
    ensures Core(c.(tails := RecordSuccess(t, g, w, good), view := InstallWave(c.view, g, w, good)))
  {
    var r := RecordSuccess(t, g, w, good);
    TailsKeepCore(c, r);
    InstallKeepsOwned(c, g, w, good);
    assert !Latched(c.(tails := r));
  }

  lemma FrameKeepsCore(c: Column, i: nat, frame: Frame)
    requires Inv(c) && i < |c.stream.sources|
    ensures Core(Receive(c, i, frame))
  {
    if frame.Log? && c.stream.sources[i].openedEpoch == c.epoch {
      var entry := frame.entry.(tag := LiveFrame(c.epoch));
      TrimKeepsOwned(ReplaceTail(c.view.entries, entry) + [entry], c.view.selected, c.epoch, c.tails.revoked);
    }
  }

  lemma ApplyKeepsCore(c: Column, ev: Event)
    requires Inv(c) && Enabled(c, ev)
    ensures Core(Apply(c, ev))
  {
    match ev
    case ListingSettles(g, answer) => ListingKeepsCore(c, g, answer);
    case StartTails => StartWaveKeepsCore(c);
    case ReadSettles(g, s, r) => ReadKeepsCore(c, g, s, r);
    case WaveSettles(g) => WaveKeepsCore(c, g);
    case Message(i, frame) => FrameKeepsCore(c, i, frame);
    case _ =>
  }

  /** A step the stream effect does not react to leaves the probe armed. */
  lemma QuietStepKeepsProbe(c: Column, ev: Event)
    requires Inv(c) && Enabled(c, ev) && !EffectRuns(c, Apply(c, ev), ev)
    ensures ProbeArmed(Apply(c, ev)) && StreamGated(Apply(c, ev))
  {
  }

  lemma StepKeepsInv(c: Column, ev: Event)
    requires Inv(c) && Enabled(c, ev)
    ensures Inv(Step(c, ev))
  {
    var after := Apply(c, ev);
    ApplyKeepsCore(c, ev);
    if EffectRuns(c, after, ev) { EffectKeepsCore(after); } else { QuietStepKeepsProbe(c, ev); }
  }
}

/**
 * The column as the component keeps it: refs and state cells, grouped by route
 * and updated in place by its callbacks. Each callback is proved to make exactly
 * the transition of the state machine, so every theorem about runs is a theorem
 * about this object.
 */
module WorkspaceLogColumn {
  import opened Basics
  import opened LogTrim
  import opened LogColumn
  import opened LogColumnSafety

  class LogColumnComponent {
    var allowLogs: bool
    var allowStream: bool
    var epoch: nat
    var listing: ListingRoute
    var tails: TailRoute
    var stream: StreamRoute
    var view: View

    ghost function Model(): Column
      reads this
    {
      Column(allowLogs, allowStream, epoch, listing, tails, stream, view)
    }

    /** What every event keeps: see the column's invariant. */
    ghost predicate Valid()
      reads this
    {
      Inv(Model())
    }

    constructor (logs: bool, streaming: bool)
      ensures Model() == Mounted(logs, streaming) && Valid()
    {
      allowLogs, allowStream, epoch := logs, streaming, 0;
      listing := ListingRoute(0, 0, 0, 0, false, map[]);
      tails := TailRoute(0, 0, false, {}, map[], map[], map[], map[]);
      stream := StreamRoute(false, 0, None, {}, 0, [], None);
      view := View([], 0, [], [], map[]);
      new;
      RunEffect();
      MountedInv(logs, streaming);
    }

    // -------------------------------------------------------------- stream route

    method CloseEventSource(i: nat)
      modifies this`stream
      ensures stream == CloseSource(old(stream), i)
    {
      if i < |stream.sources| {
        stream := stream.(sources := stream.sources[i := stream.sources[i].(open := false)]);
      }
      if stream.current == Some(i) {
        stream := stream.(current := None);
      }
    }

    method CloseCurrentSource()
      modifies this`stream
      ensures stream == CloseCurrent(old(stream))
    {
      if stream.current.Some? {
        CloseEventSource(stream.current.value);
      }
    }

    method ScheduleStreamAuthProbe()
      modifies this`stream
      ensures stream == ScheduleProbe(old(stream))
    {
      if stream.timer.Some? {
        return;
      }
      var id := stream.nextTimer;
      stream := stream.(timer := Some(id), nextTimer := id + 1);
      stream := stream.(timers := stream.timers + {id});
    }

    method ClearStreamAuthProbe()
      modifies this`stream
      ensures stream == ClearProbe(old(stream))
    {
      if stream.timer.Some? {
        stream := stream.(timers := stream.timers - {stream.timer.value});
        stream := stream.(timer := None);
      }
    }

    method OnProbeTimer(id: nat)
      modifies this`stream
      ensures stream == FireTimer(old(stream), id)
    {
      stream := stream.(timers := stream.timers - {id}, timer := None);
      if !stream.denied {
        return;
      }
      stream := stream.(nonce := stream.nonce + 1);
    }

    method RunEffect()
      modifies this`stream
      ensures Model() == RunStreamEffect(old(Model()))
    {
      CloseCurrentSource();
      if !allowStream {
        if stream.denied {
          ClearStreamAuthProbe();
          stream := stream.(denied := false);
          stream := stream.(nonce := 0);
        }
        return;
      }
      if listing.denied || tails.denied {
        return;
      }
      var probingDeniedStream := stream.denied && stream.nonce > 0;
      if stream.denied && !probingDeniedStream {
        ScheduleStreamAuthProbe();
        return;
      }
      var next := |stream.sources|;
      stream := stream.(sources := stream.sources + [Source(epoch, true, false)]);
      stream := stream.(current := Some(next));
    }

    method RejectFailedStreamProbe(i: nat)
      requires i < |stream.sources|
      modifies this`stream
      ensures Model() == ReceiveError(old(Model()), i)
    {
      if !stream.denied || stream.sources[i].openedEpoch != epoch {
        return;
      }
      stream := stream.(sources := stream.sources[i := stream.sources[i].(rejected := true)]);
      stream := stream.(nonce := 0);
      CloseEventSource(i);
      ScheduleStreamAuthProbe();
    }

    method ApplyStreamAuthorizationDenial(i: nat)
      modifies this`epoch, this`stream, this`view
      ensures Model() == DenyStream(old(Model()), i)
    {
      if !stream.denied {
        epoch := epoch + 1;
      }
      var denialEpoch := epoch;
      ClearStreamAuthProbe();
      stream := stream.(nonce := 0);
      stream := stream.(denied := true);
      ScheduleStreamAuthProbe();
      if denialEpoch == epoch && stream.denied {
        view := view.(entries := []);
        view := view.(offsets := map[]);
      }
      CloseEventSource(i);
    }

    method AcceptStreamProbe()
      modifies this`stream
      ensures stream == if old(stream).denied then old(stream).(denied := false, nonce := 0) else old(stream)
    {
      if !stream.denied {
        return;
      }
      stream := stream.(denied := false);
      stream := stream.(nonce := 0);
    }

    method OnMessage(i: nat, frame: Frame)
      requires i < |stream.sources|
      modifies this
      ensures Model() == Receive(old(Model()), i, frame)
    {
      var source := stream.sources[i];
      if listing.denied || tails.denied || source.openedEpoch != epoch {
        return;
      }
      if frame.Refused? || frame.Ended? {
        if frame.Refused? {
          ApplyStreamAuthorizationDenial(i);
          return;
        }
        if stream.denied {
          RejectFailedStreamProbe(i);
          return;
        }
      } else if stream.denied && !source.rejected {
        AcceptStreamProbe();
      }
      if stream.denied {
        return;
      }
      if frame.Ended? {
        stream := stream.(sources := stream.sources[i := source.(open := false)]);
        return;
      }
      if frame.Log? && !source.rejected {
        AppendLog(frame.entry.(tag := LiveFrame(source.openedEpoch)), frame.nextOffset);
      }
    }

    method AppendLog(entry: LogEntry, nextOffset: int)
      modifies this`view
      ensures view == AppendFrame(old(view), entry, nextOffset)
    {
      var trimmed := Trim(ReplaceTail(view.entries, entry) + [entry], view.selected);
      var known := if entry.stream in view.offsets then view.offsets[entry.stream] else 0;
      view := view.(entries := trimmed);
      view := view.(offsets := view.offsets[entry.stream := Max(known, nextOffset)]);
    }

    // -------------------------------------------------------------- listing route

    method SetSelectedStreams(next: seq<StreamId>)
      modifies this`view
      ensures view == Reselect(old(view), next)
    {
      if next != view.selected {
        view := view.(selection := view.selection + 1);
      }
      view := view.(selected := next);
    }

    method ForgetTailWarnings()
      modifies this`tails
      ensures tails == ForgetWarnings(old(tails))
    {
      tails := tails.(failed := map[]);
      tails := tails.(warnings := map[]);
    }

    method LoadStreams()
      modifies this
      ensures Model() == StartPoll(old(Model()))
    {
      if !allowLogs {
        view := view.(listed := []);
        SetSelectedStreams([]);
        ForgetTailWarnings();
        return;
      }
      listing := listing.(generation := listing.generation + 1);
      listing := listing.(polls := listing.polls[listing.generation := epoch]);
    }

    method ApplyAuthoritativeListingDenial(g: nat)
      modifies this
      ensures Model() ==
        if g < old(listing).applied || (old(listing).denied && g <= old(listing).revoked)
        then old(Model()) else DenyListing(old(Model()))
    {
      if g < listing.applied {
        return;
      }
      if listing.denied && g <= listing.revoked {
        return;
      }
      ForgetTailWarnings();
      epoch := epoch + 1;
      listing := listing.(revoked := Max(listing.revoked, listing.generation));
      listing := listing.(denied := true);
      CloseCurrentSource();
      view := view.(listed := [], selected := []);
      view := view.(entries := [], offsets := map[]);
    }

    method ListingAnswered(g: nat, answer: Listing)
      requires g in listing.polls
      modifies this
      ensures Model() == SettlePoll(old(Model()), g, answer)
    {
      var startedIn := listing.polls[g];
      listing := listing.(polls := listing.polls - {g});
      if startedIn != epoch {
        return;
      }
      if answer.ListingUnauthorized? {
        ApplyAuthoritativeListingDenial(g);
        return;
      }
      if answer.ListingOutage? {
        if g < listing.applied || g < listing.failed {
          return;
        }
        listing := listing.(failed := g);
        return;
      }
      if g <= listing.revoked || g < listing.applied || g < listing.failed {
        return;
      }
      listing := listing.(denied := false);
      listing := listing.(applied := Max(listing.applied, g));
      if g == listing.applied && g > listing.revoked && g >= listing.failed {
        view := view.(listed := answer.items);
        SetSelectedStreams(PickStreams(answer.items, view.selected));
      }
    }

    // -------------------------------------------------------------- tail route

    method LoadSelectedTails()
      modifies this`tails
      ensures Model() == StartWave(old(Model()))
    {
      if !allowLogs {
        return;
      }
      var selected := Retained(view.selected, view.listed);
      if |selected| == 0 {
        return;
      }
      var g := tails.generation + 1;
      tails := tails.(generation := g);
      tails := tails.(waves := tails.waves[g := Wave(epoch, view.selection, selected, ToSet(selected), map[], false)]);
    }

    method TailAnswered(g: nat, s: StreamId, r: ReadResult)
      requires g in tails.waves
      modifies this
      ensures Model() == SettleRead(old(Model()), g, s, r)
    {
      tails := tails.(waves := tails.waves[g := Answered(tails.waves[g], s, r)]);
      if r.Unauthorized? {
        ApplyTailAuthDenial(g, s);
      } else if r.Outage? {
        ApplyTailRefreshFailure(g, s);
      }
    }

    method ApplyTailAuthDenial(g: nat, s: StreamId)
      requires g in tails.waves
      modifies this
      ensures Model() ==
        if TailDenialApplies(old(Model()), g, old(tails).waves[g], s)
        then DenyTail(old(Model()), g, old(tails).waves[g], s) else old(Model())
    {
      var w := tails.waves[g];
      if w.epoch != epoch || w.selection != view.selection || listing.denied ||
         g < Stamp(tails.succeeded, s) || (tails.denied && g <= tails.revoked) {
        return;
      }
      tails := tails.(deniedStreams := tails.deniedStreams + w.pending);
      tails := tails.(deniedStreams := tails.deniedStreams + {s});
      if !tails.denied {
        epoch := epoch + 1;
      }
      var denialEpoch := epoch;
      tails := tails.(revoked := Max(tails.revoked, tails.generation));
      tails := tails.(denied := true);
      tails := tails.(waves := tails.waves[g := w.(denied := true)]);
      ForgetTailWarnings();
      CloseCurrentSource();
      if denialEpoch == epoch && Stamp(tails.succeeded, s) <= g && tails.denied && !listing.denied {
        view := view.(entries := []);
        view := view.(offsets := map[]);
      }
    }

    method ApplyTailRefreshFailure(g: nat, s: StreamId)
      requires g in tails.waves
      modifies this`tails
      ensures Model() ==
        if TailWarningApplies(old(Model()), g, old(tails).waves[g], s)
        then WarnTail(old(Model()), g, s) else old(Model())
    {
      var w := tails.waves[g];
      if w.epoch != epoch || s !in view.selected || listing.denied || tails.denied ||
         stream.denied || w.denied || g < Stamp(tails.succeeded, s) || g <= tails.revoked {
        return;
      }
      if g < Stamp(tails.failed, s) {
        return;
      }
      tails := tails.(failed := tails.failed[s := g]);
      tails := tails.(warnings := tails.warnings[s := g]);
    }

    /** The wave's outcomes that the applied watermarks still admit. */
    method AdmittedOutcomes(g: nat, w: Wave) returns (successes: set<StreamId>, failures: set<StreamId>)
      ensures successes == Succeeded(tails, g, w)
      ensures failures == StillFailed(tails, g, w)
    {
      successes, failures := {}, {};
      for i := 0 to |w.streams|
        invariant successes == set s | s in w.streams[..i] && s in Succeeded(tails, g, w)
        invariant failures == set s | s in w.streams[..i] && s in StillFailed(tails, g, w)
      {
        var s := w.streams[i];
        assert w.streams[..i + 1] == w.streams[..i] + [s];
        if s in w.results && Stamp(tails.succeeded, s) <= g {
          if w.results[s].Tail? {
            successes := successes + {s};
          } else if s in tails.failed && tails.failed[s] == g {
            failures := failures + {s};
          }
        }
      }
      assert w.streams[..|w.streams|] == w.streams;
    }

    method WaveAnswered(g: nat)
      requires g in tails.waves
      modifies this`tails, this`view
      ensures Model() == SettleWave(old(Model()), g)
    {
      var w := tails.waves[g];
      tails := tails.(waves := tails.waves - {g});
      if w.denied {
        return;
      }
      if w.epoch != epoch || w.selection != view.selection || g <= tails.revoked || listing.denied || stream.denied {
        return;
      }
      var successes, failures := AdmittedOutcomes(g, w);
      tails := tails.(deniedStreams := tails.deniedStreams - successes);
      tails := tails.(deniedStreams := tails.deniedStreams * ToSet(w.streams));
      assert failures == StillFailed(tails, g, w);
      if tails.deniedStreams != {} {
        return;
      }
      if successes == {} {
        if !tails.denied {
          tails := tails.(warnings := tails.warnings + map s | s in failures :: g);
        }
        return;
      }
      StampTailSuccess(g, w, successes, failures);
      InstallTailSnapshots(g, w, successes);
    }

    method StampTailSuccess(g: nat, w: Wave, successes: set<StreamId>, failures: set<StreamId>)
      requires failures == StillFailed(tails, g, w)
      modifies this`tails
      ensures tails == RecordSuccess(old(tails), g, w, successes)
    {
      var recovered := set s | s in successes && Stamp(tails.failed, s) <= g;
      var warnings := (tails.warnings + map s | s in failures :: g) - recovered;
      tails := tails.(succeeded := tails.succeeded + map s | s in successes :: g);
      tails := tails.(denied := false);
      tails := tails.(failed := tails.failed - recovered);
      tails := tails.(warnings := warnings);
    }

    method InstallTailSnapshots(g: nat, w: Wave, successes: set<StreamId>)
      modifies this`view
      ensures view == InstallWave(old(view), g, w, successes)
    {
      var trimmed := Trim(Uncovered(view.entries, w, successes) + Snapshots(w.streams, g, w, successes), view.selected);
      view := view.(entries := trimmed);
      view := view.(offsets := view.offsets +
        map s | s in successes && s in w.results && w.results[s].Tail? :: w.results[s].nextOffset);
    }

    // -------------------------------------------------------------- one step

    method ApplyGates(logs: bool, streaming: bool)
      modifies this
      ensures Model() == SetGates(old(Model()), logs, streaming)
    {
      allowLogs := logs;
      allowStream := streaming;
      if !logs {
        LoadStreams();
      }
    }

    method Dispatch(ev: Event)
      requires Enabled(Model(), ev)
      modifies this
      ensures Model() == Apply(old(Model()), ev)
    {
      match ev {
        case StartListing => LoadStreams();
        case ListingSettles(g, answer) => ListingAnswered(g, answer);
        case StartTails => LoadSelectedTails();
        case ReadSettles(g, s, r) => TailAnswered(g, s, r);
        case WaveSettles(g) => WaveAnswered(g);
        case Select(next) => SetSelectedStreams(next);
        case Message(i, frame) => OnMessage(i, frame);
        case SourceError(i) => RejectFailedStreamProbe(i);
        case TimerFires(id) => OnProbeTimer(id);
        case Gates(logs, streaming) => ApplyGates(logs, streaming);
        case CapabilitiesReplaced =>
      }
    }

    /** The stream effect runs when one of its dependencies changed. */
    method RerunEffect(changed: bool, ghost before: Column, ghost ev: Event)
      requires changed == EffectRuns(before, Model(), ev)
      modifies this`stream
      ensures Model() == SyncEffect(before, old(Model()), ev)
    {
      if changed {
        RunEffect();
      }
    }

    /** One callback, then the effects its state changes call for. */
    method Transition(ev: Event)
      requires Enabled(Model(), ev)
      modifies this
      ensures Model() == Step(old(Model()), ev)
    {
      var gate, lists, waves, route, nonce := allowStream, listing.denied, tails.denied, stream.denied, stream.nonce;
      Dispatch(ev);
      var changed := ev.CapabilitiesReplaced? || gate != allowStream || lists != listing.denied ||
                     waves != tails.denied || route != stream.denied || nonce != stream.nonce;
      RerunEffect(changed, old(Model()), ev);
    }

    /**
     * Every event makes one step of the column. Whatever the events, a held
     * latch means a blank column, and every entry shown is of the current epoch.
     */
    method Handle(ev: Event)
      requires Valid() && Enabled(Model(), ev)
      modifies this
      ensures Model() == Step(old(Model()), ev) && Valid()
      ensures listing.denied || tails.denied || stream.denied ==> view.entries == [] && view.offsets == map[]
      ensures forall e <- view.entries ::
        || (e.tag.LiveFrame? && e.tag.epoch == epoch)
        || (e.tag.TailRead? && e.tag.epoch == epoch && e.tag.generation > tails.revoked)
    {
      StepKeepsInv(Model(), ev);
      Transition(ev);
      forall e | e in view.entries ensures OwnedTag(e.tag, epoch, tails.revoked) {}
    }
  }
}

/**
 * The refresh-key effect as the component keeps it, beside the column: the failed
 * reads on record, the metadata last listed, and the key last read for.
 */
module TailRefreshEffect {
  import opened Basics
  import opened LogTrim
  import opened LogColumn
  import opened WorkspaceLogColumn
  import opened TailRetry

  class RefreshingColumn {
    const column: LogColumnComponent
    var metadata: map<StreamId, nat>
    var errors: set<StreamId>
    var key: seq<Fingerprint>

    ghost function Model(): Auto
      reads this, column
    {
      Auto(column.Model(), metadata, errors, key)
    }

    /** What every event keeps: the column's invariant, and no failed read on record under a denial. */
    ghost predicate Valid()
      reads this, column
    {
      AutoInv(Model())
    }

    constructor (c: LogColumnComponent, ghost logs: bool, ghost streaming: bool)
      requires c.Valid() && c.Model() == Mounted(logs, streaming)
      ensures column == c && Model() == AutoMounted(logs, streaming) && Valid()
    {
      column, metadata, errors, key := c, map[], {}, [];
    }

    method Snapshot() returns (c: Column)
      ensures c == column.Model()
    {
      c := Column(column.allowLogs, column.allowStream, column.epoch, column.listing, column.tails,
                  column.stream, column.view);
    }

    /** Failed reads of streams the wave did not read cannot be retried from it. */
    method PruneErrors(active: set<StreamId>)
      modifies this`errors
      ensures errors == old(errors) * active
    {
      var unseen := errors;
      while unseen != {}
        invariant unseen <= errors <= old(errors) && old(errors) * active <= errors && errors - unseen <= active
        decreases unseen
      {
        var s :| s in unseen;
        unseen := unseen - {s};
        if s !in active {
          errors := errors - {s};
        }
      }
      assert errors == old(errors) * active;
    }

    method NoteWave(t: TailRoute, g: nat, w: Wave)
      modifies this`errors
      ensures errors == WaveErrors(t, old(errors), g, w)
    {
      PruneErrors(ToSet(w.streams));
      var good, failed := Succeeded(t, g, w), StillFailed(t, g, w);
      if (t.deniedStreams - good) * ToSet(w.streams) != {} {
        return;
      }
      if good == {} {
        if !t.denied {
          errors := errors + failed;
        }
        return;
      }
      errors := errors - (set s | s in good && Stamp(t.failed, s) <= g);
      errors := errors + failed;
    }

    method NoteErrors(ev: Event)
      requires Enabled(column.Model(), ev)
      modifies this`errors
      ensures errors == ErrorsAfter(column.Model(), old(errors), ev)
    {
      var c := Snapshot();
      match ev {
        case StartListing =>
          if !c.allowLogs {
            errors := {};
          }
        case Gates(logs, _) =>
          if !logs {
            errors := {};
          }
        case ListingSettles(g, answer) =>
          if answer.ListingUnauthorized? && SettlePoll(c, g, answer).epoch != c.epoch {
            errors := {};
          }
        case ReadSettles(g, s, r) =>
          errors := ReadErrors(c, errors, g, s, r);
        case WaveSettles(g) =>
          if WaveOwnsColumn(c, g, c.tails.waves[g]) {
            NoteWave(c.tails, g, c.tails.waves[g]);
          }
        case _ =>
      }
    }

    /** The effect: read when the key changed, or when a retry is due and nothing is outstanding. */
    method RefreshSelectedTails()
      modifies this`key, column
      ensures Model() == RefreshEffect(old(Model()))
    {
      var next := RefreshKey(column.view.listed, column.view.selected, metadata);
      if next == [] {
        key := [];
        return;
      }
      var retry := column.tails.deniedStreams != {} || exists s <- column.view.selected :: s in errors;
      if key == next && (!retry || column.tails.waves != map[]) {
        return;
      }
      key := next;
      column.LoadSelectedTails();
    }

    method RunTailEffects(before: Column, ev: Event)
      modifies this`key, column
      ensures Model() == RunEffects(before, old(Model()), ev)
    {
      var after := Snapshot();
      if EffectDue(before, after, ev) {
        RefreshSelectedTails();
      }
      if Refills(before, after) {
        column.LoadSelectedTails();
      }
    }

    method Note(t: Tick)
      requires Enabled(column.Model(), t.ev)
      modifies this, column
      ensures Model() == Noted(old(Model()), t)
    {
      var applied := column.listing.applied;
      NoteErrors(t.ev);
      column.Transition(t.ev);
      if t.ev.ListingSettles? && column.listing.applied != applied {
        metadata := t.reported;
      }
    }

    /** One event and its effects, for ever within the invariant. */
    method Handle(t: Tick)
      requires Valid() && Enabled(column.Model(), t.ev)
      modifies this, column
      ensures Model() == AutoStep(old(Model()), t) && Valid()
    {
      AutoStepKeepsInv(Model(), t);
      var before := Snapshot();
      Note(t);
      RunTailEffects(before, t.ev);
    }
  }
}

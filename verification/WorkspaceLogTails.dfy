/**
 * The tails as the hook keeps them: generation records, denied and in-flight
 * sets, the latch and the screen, changed in place by its callbacks and effects.
 * Every callback is proved to make one transition of the inspector.
 */
module WorkspaceLogTails {
  import opened Basics
  import opened LogTrim
  import opened LogTails
  import opened LogTailTheorems

  /** The retained rows are collected in order, as the snapshot commits. */
  method EntriesAfterTailSnapshot(
    entries: seq<LogEntry>, snapshot: LogEntry, visible: LogEntry -> Option<LiveView>) returns (retained: seq<LogEntry>)
    ensures retained == AfterSnapshot(entries, snapshot.stream, visible) + [snapshot]
  {
    retained := [];
    var i := 0;
    while i < |entries|
      invariant 0 <= i <= |entries|
      invariant AfterSnapshot(entries, snapshot.stream, visible)
             == retained + AfterSnapshot(entries[i..], snapshot.stream, visible)
    {
      var entry := entries[i];
      assert entries[i..][1..] == entries[i + 1..];
      i := i + 1;
      if entry.stream != snapshot.stream {
        retained := retained + [entry];
        continue;
      }
      if !entry.live {
        continue;
      }
      var view := visible(entry);
      if view.None? {
        continue;
      }
      retained := retained + [entry.(offset := view.value.offset, data := view.value.data)];
    }
    retained := retained + [snapshot];
  }

  class LogTailsHook {
    var visit: nat
    var epoch: nat
    var gated: nat
    var listingDenied: bool
    var detailDenied: bool
    var pick: Pick
    var ledger: Ledger
    var screen: Screen
    var pending: map<ReadId, Read>

    ghost function Model(): Inspector
      reads this
    {
      Inspector(visit, epoch, gated, listingDenied, detailDenied, pick, ledger, screen, pending)
    }

    /** What every event keeps: see the inspector's invariant. */
    ghost predicate Valid()
      reads this
    {
      Inv(Model())
    }

    constructor ()
      ensures Model() == OPENED && Valid()
    {
      visit, epoch, gated, listingDenied, detailDenied := 0, 0, 0, false, false;
      pick := Pick([], [], false);
      ledger := Ledger(map[], map[], map[], {}, {}, false, map[]);
      screen := Screen([], map[]);
      pending := map[];
    }

    // -------------------------------------------------------------- denied-set helpers

    /** Deletes, one at a time, the denials that can no longer be retried from here. */
    method PruneDeniedOutside(active: set<StreamId>)
      modifies this`ledger
      ensures ledger == Prune(old(ledger), active)
    {
      var unseen := ledger.denied;
      while unseen != {}
        invariant ledger == old(ledger).(denied := ledger.denied)
        invariant unseen <= ledger.denied <= old(ledger.denied)
        invariant old(ledger.denied) * active <= ledger.denied
        invariant ledger.denied - unseen <= active
        decreases unseen
      {
        var key :| key in unseen;
        unseen := unseen - {key};
        if key !in active {
          ledger := ledger.(denied := ledger.denied - {key});
        }
      }
      assert ledger.denied == old(ledger.denied) * active;
    }

    method SyncAuthDenied()
      modifies this`ledger
      ensures ledger == Sync(old(ledger))
    {
      var stillDenied := ledger.denied != {};
      if ledger.latch != stillDenied {
        ledger := ledger.(latch := stillDenied);
      }
    }

    method SettleRead(id: ReadId)
      modifies this`ledger
      ensures ledger == SettleInFlight(old(ledger), id)
    {
      if Stamp(ledger.requested, id.stream) == id.generation {
        ledger := ledger.(inFlight := ledger.inFlight - {id.stream});
      }
    }

    /** The denied stream, and every readable stream still in flight beside it. */
    method RecordDeniedAndInFlightSiblings(s: StreamId, active: set<StreamId>)
      modifies this`ledger
      ensures ledger == old(ledger).(denied := old(ledger.denied) + old(ledger.inFlight) * active + {s} * active)
    {
      var unseen := ledger.inFlight;
      while unseen != {}
        invariant unseen <= old(ledger.inFlight)
        invariant ledger == old(ledger).(denied := ledger.denied)
        invariant ledger.denied == old(ledger.denied) + (old(ledger.inFlight) - unseen) * active
        decreases unseen
      {
        var key :| key in unseen;
        unseen := unseen - {key};
        if key in active {
          ledger := ledger.(denied := ledger.denied + {key});
        }
      }
      if s in active {
        ledger := ledger.(denied := ledger.denied + {s});
      }
      assert ledger.denied == old(ledger.denied) + old(ledger.inFlight) * active + {s} * active;
    }

    // -------------------------------------------------------------- loadLogTail

    method StartLogTail(s: StreamId, selection: seq<StreamId>)
      modifies this`ledger, this`pending
      ensures Model() == StartReadOf(old(Model()), s, selection)
    {
      var generation := Stamp(ledger.requested, s) + 1;
      ledger := ledger.(requested := ledger.requested[s := generation]);
      ledger := ledger.(inFlight := ledger.inFlight + {s});
      pending := pending[ReadId(s, generation) := Read(visit, epoch, gated, selection)];
    }

    /** Latch, revoke, prune, settle and publish, in that order. */
    method LatchTailDenial(id: ReadId, active: set<StreamId>)
      requires id.stream in active
      modifies this`ledger
      ensures ledger == Refuse(old(ledger), id, active)
    {
      var s := id.stream;
      RecordDeniedAndInFlightSiblings(s, active);
      assert ledger.denied == old(ledger.denied) + old(ledger.inFlight) * active + {s};
      ledger := ledger.(
        revoked := ledger.revoked[s := Max(Stamp(ledger.revoked, s), Stamp(ledger.requested, s))]);
      PruneDeniedOutside(active);
      SettleRead(id);
      SyncAuthDenied();
      ledger := ledger.(warnings := ledger.warnings - {s});
    }

    method ApplyTailDenial(id: ReadId, r: Read, row: LogEntry)
      requires id.stream in Active(pick)
      modifies this`gated, this`ledger, this`screen
      ensures Model() == Deny(old(Model()), id, r, row)
    {
      if !ledger.latch {
        gated := gated + 1;
      }
      LatchTailDenial(id, Active(pick));
      var errorRow := row.(stream := id.stream, live := false, tag := ErrorRow);
      var kept := Trim(Diagnostics(screen.entries, id.stream) + [errorRow], r.selection);
      screen := Screen(kept, map[]);
    }

    method RecoverTail(id: ReadId, active: set<StreamId>)
      requires Stamp(ledger.applied, id.stream) <= id.generation
      modifies this`ledger
      ensures ledger == Recover(SettleInFlight(old(ledger), id), id, active)
    {
      var s := id.stream;
      SettleRead(id);
      ledger := ledger.(applied := ledger.applied[s := Max(Stamp(ledger.applied, s), id.generation)]);
      PruneDeniedOutside(active);
      ledger := ledger.(denied := ledger.denied - {s});
      SyncAuthDenied();
      ledger := ledger.(warnings := ledger.warnings - {s});
    }

    method InstallSnapshot(id: ReadId, r: Read, answer: Answer)
      requires answer.Snapshot?
      modifies this`screen
      ensures screen == Install(old(screen), id, r, answer.entry, answer.nextOffset, answer.visible)
    {
      var snapshot := answer.entry.(
        stream := id.stream, live := false, tag := InspectorRead(id.generation, r.epoch, r.visit));
      var offered := EntriesAfterTailSnapshot(screen.entries, snapshot, answer.visible);
      var kept := Trim(offered, r.selection);
      screen := Screen(kept, Advance(screen.offsets, id.stream, answer.nextOffset));
    }

    method TailRefused(id: ReadId, r: Read, row: LogEntry)
      modifies this`gated, this`ledger, this`screen
      requires id in pending && pending[id] == r && Owned(Model(), r)
      ensures Model().(pending := pending - {id}) == Settle(old(Model()), id, Unauthorized(row))
    {
      var s := id.stream;
      if id.generation < Stamp(ledger.applied, s)
         || (s in ledger.denied && id.generation <= Stamp(ledger.revoked, s)) {
        SettleRead(id);
        return;
      }
      if s !in Active(pick) {
        SettleRead(id);
        PruneDeniedOutside(Active(pick));
        SyncAuthDenied();
        return;
      }
      ApplyTailDenial(id, r, row);
    }

    /** The part of loadLogTail after its read is answered. */
    method LogTailAnswered(id: ReadId, answer: Answer)
      requires id in pending
      modifies this
      ensures Model() == Settle(old(Model()), id, answer)
    {
      var r := pending[id];
      var s := id.stream;
      var superseded := id.generation != Stamp(ledger.requested, s);
      if r.visit != visit || r.epoch != epoch || listingDenied || detailDenied {
        SettleRead(id);
      } else if answer.Unauthorized? {
        TailRefused(id, r, answer.row);
      } else if superseded || id.generation <= Stamp(ledger.revoked, s)
                || id.generation < Stamp(ledger.applied, s) || r.gated != gated {
        SettleRead(id);
      } else if answer.Outage? {
        SettleRead(id);
        ledger := ledger.(warnings := ledger.warnings[s := id.generation]);
      } else {
        RecoverTail(id, Active(pick));
        InstallSnapshot(id, r, answer);
      }
      pending := pending - {id};
    }

    // -------------------------------------------------------------- effects and sibling hooks

    method SelectionEffect()
      modifies this`ledger, this`pick
      ensures Model() == RunEffect(old(Model()))
    {
      PruneDeniedOutside(Active(pick));
      SyncAuthDenied();
      pick := pick.(effectDue := false);
    }

    method LayoutEffect(selected: seq<StreamId>, listed: seq<StreamId>)
      modifies this`ledger, this`pick
      ensures Model() == CommitPick(old(Model()), selected, listed)
    {
      if pick.effectDue {
        SelectionEffect();
      }
      pick := Pick(selected, listed, true);
    }

    method AppendFrame(openedIn: nat, s: StreamId, shown: Option<LogEntry>, next: int, selection: seq<StreamId>)
      modifies this`screen
      ensures Model() == Receive(old(Model()), openedIn, s, shown, next, selection)
    {
      if openedIn != epoch || listingDenied || ledger.latch || detailDenied {
        return;
      }
      if shown.Some? {
        var entry := shown.value.(stream := s, live := true, tag := LiveFrame(openedIn));
        var kept := Trim(screen.entries + [entry], selection);
        screen := screen.(entries := kept);
      }
      var known := if s in screen.offsets then screen.offsets[s] else 0;
      if next > known {
        screen := screen.(offsets := screen.offsets[s := next]);
      }
    }

    method RefuseLogListing()
      modifies this
      ensures Model() == RefuseListing(old(Model()))
    {
      if !listingDenied {
        gated := gated + 1;
      }
      listingDenied := true;
      screen := Screen([], map[]);
      ledger := ledger.(warnings := map[]);
      LayoutEffect([], []);
    }

    method WithdrawLogFeeds(bump: bool)
      modifies this
      ensures Model() == WithdrawLogs(old(Model()), bump)
    {
      if bump {
        gated := gated + 1;
      }
      listingDenied := false;
      ledger := ledger.(latch := false);
      screen := Screen([], map[]);
      LayoutEffect([], []);
    }

    method ResetInspectorSession(newEpoch: bool)
      modifies this
      ensures Model() == Reopen(old(Model()), newEpoch)
    {
      visit := visit + 1;
      if newEpoch {
        epoch := epoch + 1;
      }
      listingDenied, detailDenied := false, false;
      pick := Pick([], [], false);
      screen := Screen([], map[]);
      ledger := ledger.(latch := false, denied := {}, inFlight := {});
      ledger := ledger.(applied := map[], revoked := map[], warnings := map[]);
    }

    method RefuseWorkspaceDetail()
      modifies this
      ensures Model() == RefuseDetail(old(Model()))
    {
      detailDenied := true;
      screen := Screen([], map[]);
      LayoutEffect([], []);
    }

    method Dispatch(ev: Event)
      requires Enabled(Model(), ev)
      modifies this
      ensures Model() == Step(old(Model()), ev)
    {
      match ev {
        case StartRead(s, selection) => StartLogTail(s, selection);
        case Settles(id, answer) => LogTailAnswered(id, answer);
        case Commit(selected, listed) => LayoutEffect(selected, listed);
        case EffectRuns => SelectionEffect();
        case Frame(openedIn, s, shown, next, selection) => AppendFrame(openedIn, s, shown, next, selection);
        case ListingRefused => RefuseLogListing();
        case ListingRestored => listingDenied := false;
        case DetailRefused => RefuseWorkspaceDetail();
        case DetailRestored => detailDenied := false;
        case Withdraw(bump) => WithdrawLogFeeds(bump);
        case Revisit(newEpoch) => ResetInspectorSession(newEpoch);
      }
    }

    /**
     * Every event makes one step of the inspector. Whatever the events, a denied
     * stream that can be read holds the latch and shows only its error rows.
     */
    method Handle(ev: Event)
      requires Valid() && Enabled(Model(), ev)
      modifies this
      ensures Model() == Step(old(Model()), ev) && Valid()
      ensures (exists s <- Active(pick) :: s in ledger.denied) ==> ledger.latch
      ensures forall e <- screen.entries ::
        e.stream in ledger.denied && e.stream in Active(pick) ==> e.tag == ErrorRow
    {
      StepKeepsInv(Model(), ev);
      Dispatch(ev);
      if s :| s in Active(pick) && s in ledger.denied { assert s in Blocked(ledger, pick); }
    }
  }
}

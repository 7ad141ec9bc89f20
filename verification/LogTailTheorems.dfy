/** What every run of the inspector keeps, and what each denial then guarantees. */
module LogTailTheorems {
  import opened Basics
  import opened LogTrim
  import opened LogTails

  // ---------------------------------------------------------------- invariant

  /** Generations: reads are numbered, and watermarks never pass the newest one. */
  ghost predicate Numbered(
    requested: map<StreamId, nat>, applied: map<StreamId, nat>, revoked: map<StreamId, nat>,
    visit: nat, pending: map<ReadId, Read>)
  {
    && (forall id <- pending :: 1 <= id.generation <= Stamp(requested, id.stream) && pending[id].visit <= visit)
    && (forall id <- pending :: pending[id].visit == visit ==> id.generation != Stamp(applied, id.stream))
    && (forall s: StreamId :: Stamp(applied, s) <= Stamp(requested, s) && Stamp(revoked, s) <= Stamp(requested, s))
  }

  /** A stream is in flight exactly while its newest read of this visit is unanswered. */
  ghost predicate Flying(
    requested: map<StreamId, nat>, inFlight: set<StreamId>, visit: nat, pending: map<ReadId, Read>)
  {
    forall s: StreamId :: s in inFlight <==>
      var id := ReadId(s, Stamp(requested, s)); id in pending && pending[id].visit == visit
  }

  ghost predicate Latched(l: Ledger, p: Pick)
  {
    && (l.latch ==> l.denied != {})
    && (Blocked(l, p) != {} ==> l.latch)
    && (!p.effectDue ==> l.denied <= Active(p))
  }

  /** Denied streams that the operator can still read. */
  function Blocked(l: Ledger, p: Pick): set<StreamId> { l.denied * Active(p) }

  ghost predicate Warned(warnings: map<StreamId, nat>, applied: map<StreamId, nat>, revoked: map<StreamId, nat>)
  {
    forall s <- warnings :: Stamp(applied, s) < warnings[s] && Stamp(revoked, s) < warnings[s]
  }

  /** A stored row's provenance: all that later steps ever ask about it. */
  datatype Label = Label(stream: StreamId, tag: Tag)

  function LabelOf(e: LogEntry): Label { Label(e.stream, e.tag) }

  predicate Allowed(a: Label, applied: map<StreamId, nat>, revoked: map<StreamId, nat>, visit: nat, epoch: nat)
  {
    match a.tag
    case InspectorRead(g, e, v) =>
      e == epoch && v == visit && Stamp(revoked, a.stream) < g <= Stamp(applied, a.stream)
    case LiveFrame(e) => e == epoch
    case ErrorRow => true
    case TailRead(_, _) => false
  }

  ghost predicate Shown(
    es: seq<LogEntry>, applied: map<StreamId, nat>, revoked: map<StreamId, nat>, blocked: set<StreamId>,
    visit: nat, epoch: nat)
  {
    forall e <- es ::
      Allowed(LabelOf(e), applied, revoked, visit, epoch) && (e.stream in blocked ==> e.tag.ErrorRow?)
  }

  ghost predicate Inv(c: Inspector)
  {
    var l := c.ledger;
    && Numbered(l.requested, l.applied, l.revoked, c.visit, c.pending)
    && Flying(l.requested, l.inFlight, c.visit, c.pending)
    && Latched(l, c.pick)
    && Warned(l.warnings, l.applied, l.revoked)
    && Shown(c.screen.entries, l.applied, l.revoked, Blocked(l, c.pick), c.visit, c.epoch)
    && c.screen.offsets.Keys !! Blocked(l, c.pick)
  }

  // ---------------------------------------------------------------- provenance of rows

  lemma TrimLabel(entries: seq<LogEntry>, selected: seq<StreamId>, k: LogEntry) returns (o: LogEntry)
    requires k in TrimLogEntries(entries, selected)
    ensures o in entries && LabelOf(o) == LabelOf(k)
  {
    o := TrimProvenance(entries, selected, k);
  }

  lemma {:induction false} AfterSnapshotLabel(
    es: seq<LogEntry>, s: StreamId, visible: LogEntry -> Option<LiveView>, k: LogEntry) returns (o: LogEntry)
    requires k in AfterSnapshot(es, s, visible)
    ensures o in es && LabelOf(o) == LabelOf(k) && (o.stream == s ==> o.live)
  {
    var rest := AfterSnapshot(es[1..], s, visible);
    if k in rest {
      o := AfterSnapshotLabel(es[1..], s, visible, k);
    } else {
      o := es[0];
    }
  }

  // ---------------------------------------------------------------- one settled read

  lemma IdleFlying(l: Ledger, visit: nat, pending: map<ReadId, Read>, id: ReadId)
    requires Flying(l.requested, l.inFlight, visit, pending)
    ensures Flying(l.requested, SettleInFlight(l, id).inFlight, visit, pending - {id})
  {
  }

  lemma IdleKeepsInv(c: Inspector, id: ReadId)
    requires Inv(c) && id in c.pending
    ensures Inv(c.(pending := c.pending - {id}, ledger := SettleInFlight(c.ledger, id)))
  {
    IdleFlying(c.ledger, c.visit, c.pending, id);
    FewerReads(c.ledger, c.visit, c.pending, id);
    var l := SettleInFlight(c.ledger, id);
    assert l == c.ledger.(inFlight := l.inFlight);
  }

  lemma DenyShape(c: Inspector, id: ReadId, r: Read, row: LogEntry)
    ensures var d := Deny(c, id, r, row);
      && d == c.(gated := d.gated, ledger := Refuse(c.ledger, id, Active(c.pick)), screen := d.screen)
      && d.screen.offsets == map[] && forall e <- d.screen.entries :: e.tag.ErrorRow?
  {
    var offered := Diagnostics(c.screen.entries, id.stream) + [row.(stream := id.stream, live := false, tag := ErrorRow)];
    forall e | e in TrimLogEntries(offered, r.selection) ensures e.tag.ErrorRow? {
      var o := TrimLabel(offered, r.selection, e);
    }
  }

  /** What a denial writes to the ledger, part by part. */
  lemma RefuseShape(l: Ledger, id: ReadId, active: set<StreamId>)
    ensures var r := Refuse(l, id, active);
      && r.requested == l.requested && r.applied == l.applied
      && r.revoked == l.revoked[id.stream := Max(Stamp(l.revoked, id.stream), Stamp(l.requested, id.stream))]
      && r.inFlight == SettleInFlight(l, id).inFlight
      && r.denied == (l.denied + l.inFlight * active + {id.stream}) * active && r.latch == (r.denied != {})
      && r.warnings == l.warnings - {id.stream}
  {
  }

  lemma RefuseNumbered(l: Ledger, visit: nat, pending: map<ReadId, Read>, s: StreamId, revoked: map<StreamId, nat>)
    requires Numbered(l.requested, l.applied, l.revoked, visit, pending)
    requires revoked == l.revoked[s := Max(Stamp(l.revoked, s), Stamp(l.requested, s))]
    ensures Numbered(l.requested, l.applied, revoked, visit, pending)
  {
  }

  lemma RefuseLatched(l: Ledger, p: Pick, id: ReadId)
    requires id.stream in Active(p)
    ensures Latched(Refuse(l, id, Active(p)), p) && id.stream in Refuse(l, id, Active(p)).denied
    ensures Refuse(l, id, Active(p)).latch
  {
    RefuseShape(l, id, Active(p));
    assert id.stream in Refuse(l, id, Active(p)).denied;
  }

  lemma RefuseWarned(
    warnings: map<StreamId, nat>, applied: map<StreamId, nat>, revoked: map<StreamId, nat>, s: StreamId, g: nat)
    requires Warned(warnings, applied, revoked)
    ensures Warned(warnings - {s}, applied, revoked[s := g])
  {
  }

  lemma DenyKeepsInv(c: Inspector, id: ReadId, row: LogEntry)
    requires Inv(c) && id in c.pending && id.stream in Active(c.pick)
    ensures Inv(Deny(c.(pending := c.pending - {id}), id, c.pending[id], row))
  {
    var l := Refuse(c.ledger, id, Active(c.pick));
    DenyShape(c.(pending := c.pending - {id}), id, c.pending[id], row);
    RefuseShape(c.ledger, id, Active(c.pick));
    RefuseNumbered(c.ledger, c.visit, c.pending, id.stream, l.revoked);
    FewerReads(l, c.visit, c.pending, id);
    IdleFlying(c.ledger, c.visit, c.pending, id);
    RefuseLatched(c.ledger, c.pick, id);
    RefuseWarned(c.ledger.warnings, c.ledger.applied, c.ledger.revoked, id.stream,
                 Max(Stamp(c.ledger.revoked, id.stream), Stamp(c.ledger.requested, id.stream)));
    RefusedInv(Deny(c.(pending := c.pending - {id}), id, c.pending[id], row));
  }

  /** A screen of error rows suits every ledger. */
  lemma RefusedInv(d: Inspector)
    requires var l := d.ledger;
      && Numbered(l.requested, l.applied, l.revoked, d.visit, d.pending)
      && Flying(l.requested, l.inFlight, d.visit, d.pending)
      && Latched(l, d.pick) && Warned(l.warnings, l.applied, l.revoked)
    requires d.screen.offsets == map[] && forall e <- d.screen.entries :: e.tag.ErrorRow?
    ensures Inv(d)
  {
  }

  lemma FewerReads(l: Ledger, visit: nat, pending: map<ReadId, Read>, id: ReadId)
    requires Numbered(l.requested, l.applied, l.revoked, visit, pending)
    ensures Numbered(l.requested, l.applied, l.revoked, visit, pending - {id})
  {
  }

  /** What a recovery writes to the ledger, part by part. */
  lemma RecoverShape(l: Ledger, id: ReadId, active: set<StreamId>)
    ensures var r := Recover(SettleInFlight(l, id), id, active);
      && r.requested == l.requested && r.applied == l.applied[id.stream := id.generation] && r.revoked == l.revoked
      && r.inFlight == SettleInFlight(l, id).inFlight
      && r.denied == l.denied * active - {id.stream} && r.latch == (r.denied != {})
      && r.warnings == l.warnings - {id.stream}
  {
  }

  lemma InstallShows(c: Inspector, id: ReadId, r: Read, answer: Answer, blocked: set<StreamId>)
    requires answer.Snapshot? && Owned(c, r) && ResultCounts(c, id, r)
    requires var l := c.ledger; Shown(c.screen.entries, l.applied, l.revoked, Blocked(l, c.pick), c.visit, c.epoch)
    requires blocked <= Blocked(c.ledger, c.pick) - {id.stream}
    ensures Shown(Install(c.screen, id, r, answer.entry, answer.nextOffset, answer.visible).entries,
                  c.ledger.applied[id.stream := id.generation], c.ledger.revoked, blocked, c.visit, c.epoch)
  {
    var l, applied := c.ledger, c.ledger.applied[id.stream := id.generation];
    var kept := AfterSnapshot(c.screen.entries, id.stream, answer.visible);
    var snapshot := answer.entry.(stream := id.stream, live := false, tag := InspectorRead(id.generation, r.epoch, r.visit));
    forall e | e in TrimLogEntries(kept + [snapshot], r.selection)
      ensures Allowed(LabelOf(e), applied, l.revoked, c.visit, c.epoch) && (e.stream in blocked ==> e.tag.ErrorRow?)
    {
      var o := TrimLabel(kept + [snapshot], r.selection, e);
      if o != snapshot {
        var was := AfterSnapshotLabel(c.screen.entries, id.stream, answer.visible, o);
        assert Allowed(LabelOf(was), l.applied, l.revoked, c.visit, c.epoch);
      }
    }
  }

  /** A 200 that counts: the ledger and the screen it leaves. */
  lemma SnapshotShape(c: Inspector, id: ReadId, answer: Answer)
    requires answer.Snapshot? && id in c.pending
    requires Owned(c, c.pending[id]) && ResultCounts(c, id, c.pending[id])
    ensures Settle(c, id, answer) == c.(
      pending := c.pending - {id}, ledger := Recover(SettleInFlight(c.ledger, id), id, Active(c.pick)),
      screen := Install(c.screen, id, c.pending[id], answer.entry, answer.nextOffset, answer.visible))
  {
  }

  lemma RecoverNumbered(l: Ledger, visit: nat, pending: map<ReadId, Read>, id: ReadId)
    requires Numbered(l.requested, l.applied, l.revoked, visit, pending) && id in pending
    ensures Numbered(l.requested, l.applied[id.stream := id.generation], l.revoked, visit, pending - {id})
  {
  }

  lemma RecoverKeepsInv(c: Inspector, id: ReadId, answer: Answer)
    requires answer.Snapshot? && Inv(c) && id in c.pending
    requires Owned(c, c.pending[id]) && ResultCounts(c, id, c.pending[id])
    ensures Inv(Settle(c, id, answer))
  {
    var l := Recover(SettleInFlight(c.ledger, id), id, Active(c.pick));
    RecoverShape(c.ledger, id, Active(c.pick));
    InstallShows(c, id, c.pending[id], answer, Blocked(l, c.pick));
    RecoverNumbered(c.ledger, c.visit, c.pending, id);
    IdleFlying(c.ledger, c.visit, c.pending, id);
    SnapshotShape(c, id, answer);
  }

  lemma OutageShape(c: Inspector, id: ReadId)
    requires id in c.pending && Owned(c, c.pending[id]) && ResultCounts(c, id, c.pending[id])
    ensures var idle := SettleInFlight(c.ledger, id);
      Settle(c, id, Outage) == c.(
        pending := c.pending - {id}, ledger := idle.(warnings := idle.warnings[id.stream := id.generation]))
  {
  }

  lemma WarnKeepsInv(c: Inspector, id: ReadId)
    requires Inv(c) && id in c.pending
    requires Owned(c, c.pending[id]) && ResultCounts(c, id, c.pending[id])
    ensures Inv(Settle(c, id, Outage))
  {
    IdleKeepsInv(c, id);
    OutageShape(c, id);
  }

  lemma LateRefusalKeepsInv(c: Inspector, id: ReadId, row: LogEntry)
    requires Inv(c) && id in c.pending && id.stream !in Active(c.pick)
    ensures Inv(Settle(c, id, Unauthorized(row)))
  {
    IdleKeepsInv(c, id);
    var idle := c.(pending := c.pending - {id}, ledger := SettleInFlight(c.ledger, id));
    PruneKeepsInv(idle);
    LateRefusalOnlyPrunes(c, id, row);
  }

  /** A refusal of a stream the operator already dropped is not recorded. */
  lemma LateRefusalOnlyPrunes(c: Inspector, id: ReadId, row: LogEntry)
    requires id in c.pending && id.stream !in Active(c.pick)
    ensures var idle := c.(pending := c.pending - {id}, ledger := SettleInFlight(c.ledger, id));
      var r := Settle(c, id, Unauthorized(row));
      r == idle || r == idle.(ledger := Sync(Prune(idle.ledger, Active(idle.pick))))
  {
  }

  lemma PruneKeepsInv(c: Inspector)
    requires Inv(c)
    ensures Inv(c.(ledger := Sync(Prune(c.ledger, Active(c.pick))))) && Inv(RunEffect(c))
  {
    var l := Sync(Prune(c.ledger, Active(c.pick)));
    assert Blocked(l, c.pick) == Blocked(c.ledger, c.pick);
    assert Blocked(l, c.pick.(effectDue := false)) == Blocked(c.ledger, c.pick);
  }

  lemma SettleKeepsInv(c: Inspector, id: ReadId, answer: Answer)
    requires Inv(c) && id in c.pending
    ensures Inv(Settle(c, id, answer))
  {
    var r := c.pending[id];
    match answer
    case Unauthorized(row) =>
      if id.stream !in Active(c.pick) {
        LateRefusalKeepsInv(c, id, row);
      } else if Owned(c, r) && DenialCounts(c.ledger, id) {
        DenyKeepsInv(c, id, row);
      } else {
        IdleKeepsInv(c, id);
      }
    case Outage =>
      if Owned(c, r) && ResultCounts(c, id, r) { WarnKeepsInv(c, id); } else { IdleKeepsInv(c, id); }
    case Snapshot(_, _, _) =>
      if Owned(c, r) && ResultCounts(c, id, r) { RecoverKeepsInv(c, id, answer); } else { IdleKeepsInv(c, id); }
  }

  // ---------------------------------------------------------------- every step

  lemma StartKeepsInv(c: Inspector, s: StreamId, selection: seq<StreamId>)
    requires Inv(c)
    ensures Inv(StartReadOf(c, s, selection))
  {
    var g, r := Stamp(c.ledger.requested, s) + 1, Read(c.visit, c.epoch, c.gated, selection);
    var requested, inFlight, pending := c.ledger.requested[s := g], c.ledger.inFlight + {s}, c.pending[ReadId(s, g) := r];
    StartNumbered(c.ledger, c.visit, c.pending, s, r);
    RequestsKeepInv(c, requested, inFlight, pending);
    StartShape(c, s, selection, g, r);
  }

  lemma StartShape(c: Inspector, s: StreamId, selection: seq<StreamId>, g: nat, r: Read)
    requires g == Stamp(c.ledger.requested, s) + 1 && r == Read(c.visit, c.epoch, c.gated, selection)
    ensures StartReadOf(c, s, selection) == c.(
      ledger := c.ledger.(requested := c.ledger.requested[s := g], inFlight := c.ledger.inFlight + {s}),
      pending := c.pending[ReadId(s, g) := r])
  {
  }

  /** Three clauses read the outstanding requests; the others do not. */
  lemma RequestsKeepInv(
    c: Inspector, requested: map<StreamId, nat>, inFlight: set<StreamId>, pending: map<ReadId, Read>)
    requires Inv(c)
    requires Numbered(requested, c.ledger.applied, c.ledger.revoked, c.visit, pending)
    requires Flying(requested, inFlight, c.visit, pending)
    ensures Inv(c.(ledger := c.ledger.(requested := requested, inFlight := inFlight), pending := pending))
  {
  }

  lemma StartNumbered(l: Ledger, visit: nat, pending: map<ReadId, Read>, s: StreamId, r: Read)
    requires Numbered(l.requested, l.applied, l.revoked, visit, pending) && r.visit == visit
    requires Flying(l.requested, l.inFlight, visit, pending)
    ensures var g := Stamp(l.requested, s) + 1;
      var requested, asked := l.requested[s := g], pending[ReadId(s, g) := r];
      Numbered(requested, l.applied, l.revoked, visit, asked) && Flying(requested, l.inFlight + {s}, visit, asked)
  {
  }

  /** A commit may drop readable streams; it cannot bring back a denied one. */
  lemma CommitKeepsInv(c: Inspector, selected: seq<StreamId>, listed: seq<StreamId>)
    requires Inv(c)
    ensures Inv(CommitPick(c, selected, listed))
  {
    PruneKeepsInv(c);
    var d := if c.pick.effectDue then RunEffect(c) else c;
    PickKeepsInv(d, Pick(selected, listed, true));
  }

  lemma PickKeepsInv(c: Inspector, pick: Pick)
    requires Inv(c) && !c.pick.effectDue && pick.effectDue
    ensures Inv(c.(pick := pick))
  {
    assert Blocked(c.ledger, pick) <= c.ledger.denied <= Active(c.pick);
    assert Blocked(c.ledger, pick) <= Blocked(c.ledger, c.pick);
  }

  lemma FrameKeepsInv(c: Inspector, openedIn: nat, s: StreamId, shown: Option<LogEntry>, next: int, selection: seq<StreamId>)
    requires Inv(c)
    ensures Inv(Receive(c, openedIn, s, shown, next, selection))
  {
    var r := Receive(c, openedIn, s, shown, next, selection);
    if r != c && shown.Some? {
      var offered := c.screen.entries + [shown.value.(stream := s, live := true, tag := LiveFrame(openedIn))];
      forall e | e in r.screen.entries
        ensures Allowed(LabelOf(e), c.ledger.applied, c.ledger.revoked, c.visit, c.epoch)
      {
        var o := TrimLabel(offered, selection, e);
      }
    }
  }

  lemma StepKeepsInv(c: Inspector, ev: Event)
    requires Inv(c) && Enabled(c, ev)
    ensures Inv(Step(c, ev))
  {
    match ev
    case StartRead(s, selection) => StartKeepsInv(c, s, selection);
    case Settles(id, answer) => SettleKeepsInv(c, id, answer);
    case Commit(selected, listed) => CommitKeepsInv(c, selected, listed);
    case EffectRuns => PruneKeepsInv(c);
    case Frame(openedIn, s, shown, next, selection) => FrameKeepsInv(c, openedIn, s, shown, next, selection);
    case ListingRefused => ListingKeepsInv(c);
    case ListingRestored =>
    case DetailRefused => DetailKeepsInv(c);
    case DetailRestored =>
    case Withdraw(bump) => WithdrawKeepsInv(c, bump);
    case Revisit(newEpoch) => RevisitKeepsInv(c, newEpoch);
  }

  lemma DetailKeepsInv(c: Inspector)
    requires Inv(c)
    ensures Inv(RefuseDetail(c))
  {
    CommitKeepsInv(ClearScreen(c).(detailDenied := true), [], []);
  }

  lemma ListingKeepsInv(c: Inspector)
    requires Inv(c)
    ensures Inv(RefuseListing(c))
  {
    var d := ClearScreen(c).(gated := if c.listingDenied then c.gated else c.gated + 1, listingDenied := true);
    CommitKeepsInv(d.(ledger := d.ledger.(warnings := map[])), [], []);
  }

  lemma WithdrawKeepsInv(c: Inspector, bump: bool)
    requires Inv(c)
    ensures Inv(WithdrawLogs(c, bump))
  {
  }

  lemma RevisitKeepsInv(c: Inspector, newEpoch: bool)
    requires Inv(c)
    ensures Inv(Reopen(c, newEpoch))
  {
  }

  lemma {:induction false} RunKeepsInv(c: Inspector, evs: seq<Event>)
    requires Inv(c) && Run(c, evs)
    ensures Inv(Exec(c, evs))
    decreases |evs|
  {
    if evs != [] {
      StepKeepsInv(c, evs[0]);
      RunKeepsInv(Step(c, evs[0]), evs[1..]);
    }
  }

  // ---------------------------------------------------------------- theorems

  /**
   * In every run the latch is held exactly while some selected and listed stream
   * is denied; between a commit and its effect it may only be held too long.
   */
  lemma LatchMeansActiveDenial(evs: seq<Event>)
    requires Run(OPENED, evs)
    ensures var c := Exec(OPENED, evs);
      && ((exists s <- Active(c.pick) :: s in c.ledger.denied) ==> c.ledger.latch)
      && (!c.pick.effectDue ==> (c.ledger.latch <==> exists s <- Active(c.pick) :: s in c.ledger.denied))
  {
    RunKeepsInv(OPENED, evs);
    var c := Exec(OPENED, evs);
    if s :| s in Active(c.pick) && s in c.ledger.denied { assert s in c.ledger.denied * Active(c.pick); }
    if !c.pick.effectDue && c.ledger.latch {
      var s :| s in c.ledger.denied;
      assert s in Active(c.pick);
    }
  }

  /** A denied stream that can be read shows its error rows and nothing else. */
  lemma DeniedStreamShowsOnlyErrors(evs: seq<Event>, s: StreamId)
    requires Run(OPENED, evs)
    requires s in Exec(OPENED, evs).ledger.denied && s in Active(Exec(OPENED, evs).pick)
    ensures forall e <- Exec(OPENED, evs).screen.entries :: e.stream == s ==> e.tag == ErrorRow
    ensures s !in Exec(OPENED, evs).screen.offsets
  {
    RunKeepsInv(OPENED, evs);
    assert s in Exec(OPENED, evs).ledger.denied * Active(Exec(OPENED, evs).pick);
  }

  /** Every snapshot on screen is of this visit, this epoch, and past its stream's denials. */
  lemma SnapshotsPostdateDenials(evs: seq<Event>, e: LogEntry)
    requires Run(OPENED, evs) && e in Exec(OPENED, evs).screen.entries
    ensures var c := Exec(OPENED, evs);
      match e.tag
      case InspectorRead(g, epoch, visit) =>
        epoch == c.epoch && visit == c.visit && Stamp(c.ledger.revoked, e.stream) < g <= Stamp(c.ledger.applied, e.stream)
      case LiveFrame(epoch) => epoch == c.epoch
      case ErrorRow => true
      case TailRead(_, _) => false
  {
    RunKeepsInv(OPENED, evs);
    var c := Exec(OPENED, evs);
    assert Allowed(LabelOf(e), c.ledger.applied, c.ledger.revoked, c.visit, c.epoch);
  }

  /** Whether this event applies a 401/403 to the stream it read. */
  predicate AppliesDenial(c: Inspector, ev: Event)
  {
    && ev.Settles? && ev.id in c.pending && ev.answer.Unauthorized?
    && Owned(c, c.pending[ev.id]) && DenialCounts(c.ledger, ev.id) && ev.id.stream in Active(c.pick)
  }

  predicate SameVisit(evs: seq<Event>) { forall i :: 0 <= i < |evs| ==> !evs[i].Revisit? }

  /** What a settled read does to the revoke watermarks and to the denied set. */
  lemma SettleEffect(c: Inspector, id: ReadId, answer: Answer)
    requires id in c.pending
    ensures var l, r := c.ledger, Settle(c, id, answer).ledger;
      if AppliesDenial(c, Settles(id, answer)) then
        && r.revoked == l.revoked[id.stream := Max(Stamp(l.revoked, id.stream), Stamp(l.requested, id.stream))]
        && l.denied * Active(c.pick) <= r.denied
      else
        && r.revoked == l.revoked
        && (l.denied * Active(c.pick) <= r.denied
            || (answer.Snapshot? && ResultCounts(c, id, c.pending[id])
                && l.denied * Active(c.pick) <= r.denied + {id.stream}))
  {
  }

  lemma RevokedGrows(c: Inspector, ev: Event, s: StreamId)
    requires Enabled(c, ev) && !ev.Revisit?
    ensures Stamp(c.ledger.revoked, s) <= Stamp(Step(c, ev).ledger.revoked, s)
  {
    if ev.Settles? {
      SettleEffect(c, ev.id, ev.answer);
    } else {
      assert Step(c, ev).ledger.revoked == c.ledger.revoked;
    }
  }

  lemma {:induction false} RevokedGrowsOverRun(c: Inspector, evs: seq<Event>, s: StreamId)
    requires Run(c, evs) && SameVisit(evs)
    ensures Stamp(c.ledger.revoked, s) <= Stamp(Exec(c, evs).ledger.revoked, s)
    decreases |evs|
  {
    if evs != [] {
      RevokedGrows(c, evs[0], s);
      RevokedGrowsOverRun(Step(c, evs[0]), evs[1..], s);
    }
  }

  /**
   * After an applied 401/403, no snapshot of that stream from a read already
   * started at the denial appears again for the rest of the visit.
   */
  lemma RevokedReadsNeverShown(c: Inspector, ev: Event, evs: seq<Event>, e: LogEntry)
    requires Inv(c) && AppliesDenial(c, ev) && Run(Step(c, ev), evs) && SameVisit(evs)
    requires e in Exec(Step(c, ev), evs).screen.entries && e.stream == ev.id.stream && e.tag.InspectorRead?
    ensures e.tag.generation > Stamp(c.ledger.requested, ev.id.stream)
  {
    SettleEffect(c, ev.id, ev.answer);
    StepKeepsInv(c, ev);
    RunKeepsInv(Step(c, ev), evs);
    RevokedGrowsOverRun(Step(c, ev), evs, ev.id.stream);
    var d := Exec(Step(c, ev), evs);
    assert Allowed(LabelOf(e), d.ledger.applied, d.ledger.revoked, d.visit, d.epoch);
  }

  /** A denial ends only by the stream's own newer 200, by leaving selection or listing, or with the visit. */
  lemma DenialEndsOnlyByOwnSuccess(c: Inspector, ev: Event, s: StreamId)
    requires Inv(c) && Enabled(c, ev) && s in c.ledger.denied && s !in Step(c, ev).ledger.denied
    ensures || ev.Revisit?
            || s !in Active(c.pick)
            || (ev.Settles? && ev.id.stream == s && ev.answer.Snapshot?
                && ev.id.generation > Stamp(c.ledger.revoked, s) && ev.id.generation == Stamp(c.ledger.requested, s))
  {
    if ev.Settles? {
      SettleEffect(c, ev.id, ev.answer);
      assert s in Active(c.pick) ==> s in c.ledger.denied * Active(c.pick);
    } else if !ev.Revisit? {
      assert c.ledger.denied * Active(c.pick) <= Step(c, ev).ledger.denied;
    }
  }

  /** The first denial latches every in-flight sibling that is still readable. */
  lemma DenialLatchesInFlightSiblings(c: Inspector, ev: Event, s: StreamId)
    requires Inv(c) && AppliesDenial(c, ev) && s in Active(c.pick)
    requires s == ev.id.stream ||
      (ReadId(s, Stamp(c.ledger.requested, s)) in c.pending
       && c.pending[ReadId(s, Stamp(c.ledger.requested, s))].visit == c.visit)
    ensures s in Step(c, ev).ledger.denied && Step(c, ev).ledger.latch
  {
    assert s == ev.id.stream || s in c.ledger.inFlight;
    RefuseLatched(c.ledger, c.pick, ev.id);
  }

  /** One fresh read answered by a 200 recovers its stream, whatever came before. */
  lemma FreshReadRecovers(c: Inspector, s: StreamId, selection: seq<StreamId>, answer: Answer)
    requires Inv(c) && answer.Snapshot? && !c.listingDenied && !c.detailDenied
    ensures var asked := Step(c, StartRead(s, selection));
      var id := ReadId(s, Stamp(asked.ledger.requested, s));
      && id in asked.pending
      && var d := Step(asked, Settles(id, answer));
         && s !in d.ledger.denied && s !in d.ledger.warnings && s in d.screen.offsets
         && Stamp(d.ledger.applied, s) == id.generation
         && (d.ledger.latch <==> (c.ledger.denied * Active(c.pick)) - {s} != {})
  {
  }

  /** A stale-tail warning belongs to the newest settled read of its stream. */
  lemma WarningIsNewest(evs: seq<Event>, s: StreamId)
    requires Run(OPENED, evs) && s in Exec(OPENED, evs).ledger.warnings
    ensures var l := Exec(OPENED, evs).ledger;
      Stamp(l.applied, s) < l.warnings[s] && Stamp(l.revoked, s) < l.warnings[s]
  {
    RunKeepsInv(OPENED, evs);
  }

  /** A stream's byte cursor never moves back while it is kept. */
  lemma OffsetsNeverRewind(c: Inspector, ev: Event, s: StreamId)
    requires Enabled(c, ev) && s in c.screen.offsets && s in Step(c, ev).screen.offsets
    ensures c.screen.offsets[s] <= Step(c, ev).screen.offsets[s]
  {
    match ev
    case Settles(id, answer) => SettleKeepsOffsets(c, id, answer, s);
    case Frame(openedIn, of, shown, next, selection) =>
    case _ =>
  }

  lemma SettleKeepsOffsets(c: Inspector, id: ReadId, answer: Answer, s: StreamId)
    requires id in c.pending && s in c.screen.offsets && s in Settle(c, id, answer).screen.offsets
    ensures c.screen.offsets[s] <= Settle(c, id, answer).screen.offsets[s]
  {
  }
}

/**
 * The retry-marker backfill. A workspace whose latest effective runtime release
 * recorded a failed auth-overlay unmount gets one pending marker in that
 * release's cycle, unless a marker is already there.
 */
module MarkerBackfill {
  import opened Basics
  import opened EventOrder

  // ---------------------------------------------------------------- the latest release

  /** Type and reason are filtered on their own: a mixed pair still competes. */
  predicate Competes(e: Event)
  {
    (e.kind.Released? || e.kind.Revoked?) && (e.reason.ReleasedReason? || e.reason.RevokedReason?)
  }

  /** Newest first: time, then ordered before unordered, then order, then identifier. */
  predicate Newer(a: Event, b: Event)
  {
    if a.occurredAt != b.occurredAt then a.occurredAt > b.occurredAt
    else if a.order.Some? != b.order.Some? then a.order.Some?
    else if a.order.Some? && a.order.value != b.order.value then a.order.value > b.order.value
    else a.id > b.id
  }

  /** Row number one of the window. */
  function Latest(es: seq<Event>): Option<Event>
  {
    if es == [] then None
    else
      var rest, e := Latest(DropLast(es)), Last(es);
      if Competes(e) && (rest.None? || Newer(e, rest.value)) then Some(e) else rest
  }

  function EventIds(es: seq<Event>): (ids: seq<int>)
    ensures |ids| == |es| && forall i :: 0 <= i < |es| ==> ids[i] == es[i].id
  {
    if es == [] then [] else EventIds(DropLast(es)) + [Last(es).id]
  }

  /** It beats every other competing event, and exists when one competes. */
  lemma {:induction false} LatestIsNewest(es: seq<Event>)
    requires Distinct(EventIds(es))
    ensures Latest(es).None? <==> forall e <- es :: !Competes(e)
    ensures Latest(es).Some? ==> Latest(es).value in es && Competes(Latest(es).value)
    ensures Latest(es).Some? ==> forall e <- es :: Competes(e) && e != Latest(es).value ==> Newer(Latest(es).value, e)
  {
    if es != [] {
      var ids := EventIds(es);
      assert EventIds(DropLast(es)) == DropLast(ids);
      LatestIsNewest(DropLast(es));
      assert es == DropLast(es) + [Last(es)];
      forall e | e in DropLast(es) ensures e.id != Last(es).id {
        var i :| 0 <= i < |es| - 1 && es[i] == e;
        assert ids[i] != ids[|es| - 1];
      }
    }
  }

  /** The latest event, when it is an unrevoked release. */
  function EffectiveRelease(es: seq<Event>): Option<Event>
  {
    var l := Latest(es);
    if l.Some? && l.value.kind.Released? && l.value.reason.ReleasedReason? then l else None
  }

  predicate RecordsFailedUnmount(p: Payload) { p.Object? && p.unmounted == Some(Bool(false)) }

  // ---------------------------------------------------------------- cycles and markers

  function CycleFloor(order: Option<int>): int { if order.None? then -1 else order.value }

  predicate IsMarker(e: Event) { e.kind.UnmountPending? || e.kind.UnmountResolved? || e.kind.UnmountExhausted? }

  predicate InCycle(e: Event, floor: int)
  {
    (e.order.Some? && e.order.value >= floor) || (floor == -1 && e.order.None?)
  }

  predicate HasMarker(es: seq<Event>, floor: int)
  {
    exists e <- es :: IsMarker(e) && InCycle(e, floor)
  }

  // ---------------------------------------------------------------- one candidate row

  /** A row of the candidate query: the release as it was read. */
  datatype Candidate = Candidate(release: Event, status: int, project: int)

  /** The guarded update: it reserves only while the release still rules and has no marker. */
  function Reserve(ws: Workspace, release: Event): Option<int>
  {
    var current := EffectiveRelease(ws.events);
    if current.None? || current.value.id != release.id || current.value.order != release.order then None
    else if HasMarker(ws.events, CycleFloor(release.order)) then None
    else Some(Max(if ws.sequence.Some? then ws.sequence.value else 0, CycleFloor(release.order)) + 1)
  }

  function MarkerEvent(id: int, order: int, now: int): Event
  {
    Event(id, UnmountPending, PendingReason, Object(None), Some(order), now)
  }

  /** `id` is derived from the workspace and the release; `now` is the clock. */
  function MarkCandidate(ws: Workspace, release: Event, id: int, now: int): Workspace
  {
    if !RecordsFailedUnmount(release.payload) || HasMarker(ws.events, CycleFloor(release.order)) then ws
    else
      var order := Reserve(ws, release);
      if order.None? then ws
      else ws.(sequence := order, events := ws.events + [MarkerEvent(id, order.value, now)])
  }

  /** One pass over one workspace: read its candidate row, then process it. */
  function MarkWorkspace(ws: Workspace, id: int, now: int): Workspace
  {
    var release := EffectiveRelease(ws.events);
    if release.None? then ws else MarkCandidate(ws, release.value, id, now)
  }

  predicate OwesMarker(ws: Workspace)
  {
    var release := EffectiveRelease(ws.events);
    release.Some? && RecordsFailedUnmount(release.value.payload)
  }

  lemma LatestIgnoresMarker(es: seq<Event>, e: Event)
    requires !Competes(e)
    ensures Latest(es + [e]) == Latest(es)
  {
    assert DropLast(es + [e]) == es;
  }

  /** What an inserted marker guarantees, whatever else has been written since the scan. */
  lemma MarkIsGuarded(ws: Workspace, release: Event, id: int, now: int)
    ensures var r := MarkCandidate(ws, release, id, now);
      && EffectiveRelease(r.events) == EffectiveRelease(ws.events) && ws.events <= r.events
      && (r != ws ==>
            && RecordsFailedUnmount(release.payload)
            && EffectiveRelease(ws.events).Some? && EffectiveRelease(ws.events).value.id == release.id
            && !HasMarker(ws.events, CycleFloor(release.order))
            && |r.events| == |ws.events| + 1 && IsMarker(Last(r.events))
            && HasMarker(r.events, CycleFloor(release.order))
            && r.sequence == Last(r.events).order && r.sequence.Some?
            && (ws.sequence.Some? ==> ws.sequence.value < r.sequence.value))
  {
    var r := MarkCandidate(ws, release, id, now);
    if r != ws {
      LatestIgnoresMarker(ws.events, Last(r.events));
      assert Last(r.events) in r.events;
    }
  }

  /**
   * One pass gives every workspace that owes a marker one in its release's cycle,
   * and leaves every other workspace as it was; releases never change.
   */
  lemma PassMarksExactlyWhatIsOwed(ws: Workspace, id: int, now: int)
    ensures var r := MarkWorkspace(ws, id, now);
      && EffectiveRelease(r.events) == EffectiveRelease(ws.events)
      && (OwesMarker(ws) ==> HasMarker(r.events, CycleFloor(EffectiveRelease(ws.events).value.order)))
      && (r != ws <==> OwesMarker(ws) && !HasMarker(ws.events, CycleFloor(EffectiveRelease(ws.events).value.order)))
  {
    var release := EffectiveRelease(ws.events);
    if release.Some? {
      MarkIsGuarded(ws, release.value, id, now);
      var r := MarkWorkspace(ws, id, now);
      if OwesMarker(ws) && !HasMarker(ws.events, CycleFloor(release.value.order)) {
        assert |r.events| == |ws.events| + 1;
      }
    }
  }

  /** A second pass inserts nothing. */
  lemma SecondPassInsertsNothing(ws: Workspace, id: int, now: int, id': int, now': int)
    ensures MarkWorkspace(MarkWorkspace(ws, id, now), id', now') == MarkWorkspace(ws, id, now)
  {
    PassMarksExactlyWhatIsOwed(ws, id, now);
    PassMarksExactlyWhatIsOwed(MarkWorkspace(ws, id, now), id', now');
  }

  // ---------------------------------------------------------------- orders over whole runs

  lemma {:induction false} LatestIsStored(es: seq<Event>)
    ensures Latest(es).Some? ==> Latest(es).value in es
  {
    if es != [] {
      LatestIsStored(DropLast(es));
      assert es == DropLast(es) + [Last(es)];
    }
  }

  /** A reservation over dense orders takes the next order, like any insert. */
  lemma MarkKeepsDense(ws: Workspace, release: Event, id: int, now: int)
    requires Dense(ws)
    ensures Dense(MarkCandidate(ws, release, id, now)) && ws.events <= MarkCandidate(ws, release, id, now).events
  {
    var r := MarkCandidate(ws, release, id, now);
    if r != ws {
      LatestIsStored(ws.events);
      var l := EffectiveRelease(ws.events).value;
      var i :| 0 <= i < |ws.events| && ws.events[i] == l;
      assert ws.events[i].order.value <= |ws.events|;
      var e := MarkerEvent(id, 0, now).(order := None);
      InsertKeepsDense(ws, e);
      assert r == InsertEvent(ws, e);
    }
  }

  datatype Action = Insert(event: Event) | Mark(release: Event, id: int, now: int)

  /** Writers that leave the order to the trigger, and marker reservations. */
  predicate ByTrigger(actions: seq<Action>)
  {
    forall i :: 0 <= i < |actions| ==> actions[i].Insert? ==> actions[i].event.order.None?
  }

  function Act(ws: Workspace, a: Action): Workspace
  {
    match a
    case Insert(e) => InsertEvent(ws, e)
    case Mark(release, id, now) => MarkCandidate(ws, release, id, now)
  }

  function ActAll(ws: Workspace, actions: seq<Action>): Workspace
    decreases |actions|
  {
    if actions == [] then ws else ActAll(Act(ws, actions[0]), actions[1..])
  }

  lemma {:induction false} ActionsKeepDense(ws: Workspace, actions: seq<Action>)
    requires Dense(ws) && ByTrigger(actions)
    ensures Dense(ActAll(ws, actions)) && ws.events <= ActAll(ws, actions).events
    decreases |actions|
  {
    if actions != [] {
      match actions[0] {
        case Insert(e) => InsertKeepsDense(ws, e);
        case Mark(release, id, now) => MarkKeepsDense(ws, release, id, now);
      }
      ActionsKeepDense(Act(ws, actions[0]), actions[1..]);
    }
  }

  /**
   * From unordered events, after the upgrade and any run of inserts and marker
   * reservations, the orders are exactly 1..event_sequence, each used once, and
   * the backfilled ones, which never change, agree with time.
   */
  lemma OrdersStayDense(ws: Workspace, actions: seq<Action>)
    requires ws.sequence.None? && (forall e <- ws.events :: e.order.None?) && ByTrigger(actions)
    ensures var r := ActAll(Upgrade(ws), actions);
      && Dense(r) && |ws.events| <= |r.events|
      && r.events[..|ws.events|] == Upgrade(ws).events && ConsistentWithTime(r.events[..|ws.events|])
  {
    UpgradeFromUnordered(ws);
    ActionsKeepDense(Upgrade(ws), actions);
    assert |Upgrade(ws).events| == |ws.events|;
  }
}

/**
 * The two tables as the migrations change them in place: one order upgrade, the
 * insert trigger it leaves behind, and the marker backfill.
 */
module EventMigrations {
  import opened Basics
  import opened EventOrder
  import opened MarkerBackfill

  /** Derives a marker's identifier from its workspace and its release. */
  type PendingId = (nat, int) -> int

  class EventTables {
    var workspaces: map<nat, Workspace>

    constructor (rows: map<nat, Workspace>)
      ensures workspaces == rows
    {
      workspaces := rows;
    }

    /** Numbers the unordered events, then lets every sequence catch up. */
    method UpgradeEventOrder()
      modifies this
      ensures workspaces.Keys == old(workspaces).Keys
      ensures forall k <- workspaces :: workspaces[k] == Upgrade(old(workspaces)[k])
    {
      BackfillAll();
      CatchUpAll();
    }

    method BackfillAll()
      modifies this
      ensures workspaces.Keys == old(workspaces).Keys
      ensures forall k <- workspaces ::
        workspaces[k] == old(workspaces)[k].(events := BackfillOrders(old(workspaces)[k].events))
    {
      var todo := workspaces.Keys;
      while todo != {}
        invariant todo <= workspaces.Keys == old(workspaces).Keys
        invariant forall k <- todo :: workspaces[k] == old(workspaces)[k]
        invariant forall k <- workspaces.Keys - todo ::
          workspaces[k] == old(workspaces)[k].(events := BackfillOrders(old(workspaces)[k].events))
        decreases todo
      {
        var k :| k in todo;
        todo := todo - {k};
        var numbered := NumberEvents(workspaces[k].events);
        workspaces := workspaces[k := workspaces[k].(events := numbered)];
      }
    }

    /** Only rows without an order are written; row numbers come from the rows as read. */
    method NumberEvents(es: seq<Event>) returns (numbered: seq<Event>)
      ensures numbered == BackfillOrders(es)
    {
      numbered := es;
      for i := 0 to |es|
        invariant |numbered| == |es|
        invariant forall k :: i <= k < |es| ==> numbered[k] == es[k]
        invariant forall k :: 0 <= k < i ==> numbered[k] == BackfillOrders(es)[k]
      {
        if numbered[i].order.None? {
          numbered := numbered[i := es[i].(order := Some(RowNumber(es, i)))];
        }
      }
    }

    method CatchUpAll()
      modifies this
      ensures workspaces.Keys == old(workspaces).Keys
      ensures forall k <- workspaces :: workspaces[k] == CatchUp(old(workspaces)[k])
    {
      var todo := workspaces.Keys;
      while todo != {}
        invariant todo <= workspaces.Keys == old(workspaces).Keys
        invariant forall k <- todo :: workspaces[k] == old(workspaces)[k]
        invariant forall k <- workspaces.Keys - todo :: workspaces[k] == CatchUp(old(workspaces)[k])
        decreases todo
      {
        var k :| k in todo;
        todo := todo - {k};
        var ws := workspaces[k];
        var top := MaxOrder(ws.events);
        if top.Some? && (ws.sequence.None? || ws.sequence.value < top.value) {
          ws := ws.(sequence := top);
        }
        if ws.sequence.None? {
          ws := ws.(sequence := Some(0));
        }
        workspaces := workspaces[k := ws];
      }
    }

    /** An insert into the events table, through the trigger. */
    method Insert(k: nat, e: Event)
      requires k in workspaces
      modifies this
      ensures workspaces == old(workspaces)[k := InsertEvent(old(workspaces)[k], e)]
    {
      var ws, row := workspaces[k], e;
      if row.order.None? {
        ws := ws.(sequence := Some((if ws.sequence.Some? then ws.sequence.value else 0) + 1));
        row := row.(order := ws.sequence);
      }
      workspaces := workspaces[k := ws.(events := ws.events + [row])];
    }

    /** One candidate row: check, reserve under the guard, insert. */
    method MarkRow(k: nat, release: Event, id: int, now: int) returns (inserted: bool)
      requires k in workspaces
      modifies this
      ensures workspaces == old(workspaces)[k := MarkCandidate(old(workspaces)[k], release, id, now)]
      ensures inserted <==> workspaces != old(workspaces)
    {
      if !RecordsFailedUnmount(release.payload) {
        return false;
      }
      var ws := workspaces[k];
      if HasMarker(ws.events, CycleFloor(release.order)) {
        return false;
      }
      var order := Reserve(ws, release);
      if order.None? {
        return false;
      }
      workspaces := workspaces[k := ws.(sequence := order)];
      workspaces := workspaces[k := workspaces[k].(events := ws.events + [MarkerEvent(id, order.value, now)])];
      assert |workspaces[k].events| == |old(workspaces)[k].events| + 1;
      return true;
    }

    /** Every workspace is passed once; the count is of the markers inserted. */
    method BackfillAuthOverlayUnmountPending(pendingId: PendingId, clock: nat -> int) returns (inserted: nat)
      modifies this
      ensures workspaces.Keys == old(workspaces).Keys
      ensures forall k <- workspaces :: workspaces[k] == Marked(old(workspaces)[k], k, pendingId, clock)
      ensures inserted == |set k | k in workspaces && workspaces[k] != old(workspaces)[k]|
    {
      inserted := 0;
      var todo := workspaces.Keys;
      ghost var changed: set<nat> := {};
      while todo != {}
        invariant todo <= workspaces.Keys == old(workspaces).Keys
        invariant forall k <- todo :: workspaces[k] == old(workspaces)[k]
        invariant forall k <- workspaces.Keys - todo ::
          workspaces[k] == Marked(old(workspaces)[k], k, pendingId, clock)
        invariant changed == set k | k in workspaces && workspaces[k] != old(workspaces)[k]
        invariant inserted == |changed|
        decreases todo
      {
        var k :| k in todo;
        todo := todo - {k};
        var release := EffectiveRelease(workspaces[k].events);
        if release.Some? {
          ghost var before := workspaces;
          var added := MarkRow(k, release.value, pendingId(k, release.value.id), clock(k));
          if added {
            assert workspaces[k] != before[k];
            inserted := inserted + 1;
            changed := changed + {k};
          } else {
            assert workspaces[k] == before[k];
          }
        }
      }
    }
  }

  function Marked(ws: Workspace, k: nat, pendingId: PendingId, clock: nat -> int): Workspace
  {
    var release := EffectiveRelease(ws.events);
    if release.None? then ws else MarkWorkspace(ws, pendingId(k, release.value.id), clock(k))
  }

  /** The backfill of one table leaves the others, and a second one finds nothing owed. */
  lemma BackfillIsIdempotent(ws: Workspace, k: nat, pendingId: PendingId, clock: nat -> int, later: nat -> int)
    ensures Marked(Marked(ws, k, pendingId, clock), k, pendingId, later) == Marked(ws, k, pendingId, clock)
  {
    var release := EffectiveRelease(ws.events);
    if release.Some? {
      PassMarksExactlyWhatIsOwed(ws, pendingId(k, release.value.id), clock(k));
      SecondPassInsertsNothing(ws, pendingId(k, release.value.id), clock(k), pendingId(k, release.value.id), later(k));
    }
  }
}

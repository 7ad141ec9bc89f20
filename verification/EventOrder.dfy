/**
 * The per-workspace event order: the backfill that numbers historical events,
 * the sequence catch-up, and the trigger that numbers each later insert.
 * A workspace holds its own events, in heap order; every statement of the
 * migration partitions by workspace.
 */
module EventOrder {
  import opened Basics

  datatype Kind = Released | Revoked | UnmountPending | UnmountResolved | UnmountExhausted | OtherKind

  datatype Reason = ReleasedReason | RevokedReason | PendingReason | OtherReason

  datatype Json = Bool(value: bool) | OtherJson

  /** A stored payload: not an object, or an object with or without the unmount field. */
  datatype Payload = NotAnObject | Object(unmounted: Option<Json>)

  datatype Event = Event(
    id: int, kind: Kind, reason: Reason, payload: Payload, order: Option<int>, occurredAt: int)

  datatype Workspace = Workspace(status: int, project: int, sequence: Option<int>, events: seq<Event>)

  // ---------------------------------------------------------------- row numbers

  /** The window order: by time, then by heap position. */
  predicate Precedes(es: seq<Event>, j: nat, i: nat)
    requires j < |es| && i < |es|
  {
    es[j].occurredAt < es[i].occurredAt || (es[j].occurredAt == es[i].occurredAt && j < i)
  }

  /** How many of the first `n` events precede event `i`. */
  function CountBefore(es: seq<Event>, i: nat, n: nat): nat
    requires i < |es| && n <= |es|
  {
    if n == 0 then 0 else CountBefore(es, i, n - 1) + if Precedes(es, n - 1, i) then 1 else 0
  }

  function RowNumber(es: seq<Event>, i: nat): nat
    requires i < |es|
  {
    CountBefore(es, i, |es|) + 1
  }

  lemma {:induction false} CountGrows(es: seq<Event>, i: nat, j: nat, n: nat)
    requires i < |es| && j < |es| && n <= |es| && Precedes(es, j, i)
    ensures CountBefore(es, j, n) + (if j < n then 1 else 0) <= CountBefore(es, i, n)
  {
    if n > 0 { CountGrows(es, i, j, n - 1); }
  }

  lemma {:induction false} CountIsBounded(es: seq<Event>, i: nat, n: nat)
    requires i < |es| && n <= |es|
    ensures CountBefore(es, i, n) + (if i < n then 1 else 0) <= n
  {
    if n > 0 { CountIsBounded(es, i, n - 1); }
  }

  /** Row numbers follow the window order, so they are distinct and lie in 1..n. */
  lemma RowNumbersFollowTime(es: seq<Event>, i: nat, j: nat)
    requires i < |es| && j < |es| && i != j
    ensures RowNumber(es, i) != RowNumber(es, j)
    ensures es[j].occurredAt < es[i].occurredAt ==> RowNumber(es, j) < RowNumber(es, i)
    ensures 1 <= RowNumber(es, i) <= |es|
  {
    CountIsBounded(es, i, |es|);
    if Precedes(es, j, i) { CountGrows(es, i, j, |es|); } else { CountGrows(es, j, i, |es|); }
  }

  // ---------------------------------------------------------------- pigeonhole

  function Interval(n: nat): (r: set<int>)
    ensures forall k :: k in r <==> 1 <= k <= n
  {
    if n == 0 then {} else Interval(n - 1) + {n as int}
  }

  lemma {:induction false} IntervalSize(n: nat)
    ensures |Interval(n)| == n
  {
    if n > 0 {
      IntervalSize(n - 1);
    }
  }

  function Values(f: seq<int>): set<int> { set k | k in f }

  lemma {:induction false} DistinctValues(f: seq<int>)
    requires Distinct(f)
    ensures |Values(f)| == |f|
  {
    if f != [] {
      DistinctValues(DropLast(f));
      assert f == DropLast(f) + [Last(f)];
      assert Values(f) == Values(DropLast(f)) + {Last(f)};
    }
  }

  /** `n` distinct numbers in 1..n are all of them. */
  lemma Pigeonhole(f: seq<int>, k: int) returns (i: nat)
    requires Distinct(f) && (forall j :: 0 <= j < |f| ==> 1 <= f[j] <= |f|) && 1 <= k <= |f|
    ensures i < |f| && f[i] == k
  {
    DistinctValues(f);
    IntervalSize(|f|);
    forall v | v in Values(f) ensures v in Interval(|f|) {
      var j :| 0 <= j < |f| && f[j] == v;
    }
    SubsetIsWhole(Values(f), Interval(|f|));
    assert k in Interval(|f|);
    assert k in f;
    i :| i < |f| && f[i] == k;
  }

  // ---------------------------------------------------------------- the upgrade

  /** Number only the events that have no order yet. */
  function BackfillFrom(es: seq<Event>, i: nat): (r: seq<Event>)
    requires i <= |es|
    ensures |r| == |es| - i
    ensures forall k :: 0 <= k < |r| ==>
      r[k] == es[i + k].(order := if es[i + k].order.Some? then es[i + k].order else Some(RowNumber(es, i + k)))
    decreases |es| - i
  {
    if i == |es| then []
    else
      [es[i].(order := if es[i].order.Some? then es[i].order else Some(RowNumber(es, i)))] + BackfillFrom(es, i + 1)
  }

  function BackfillOrders(es: seq<Event>): seq<Event> { BackfillFrom(es, 0) }

  /** `max(event_order)`: null orders do not count. */
  function MaxOrder(es: seq<Event>): (m: Option<int>)
  {
    if es == [] then None
    else
      var rest, own := MaxOrder(DropLast(es)), Last(es).order;
      if rest.None? then own else if own.None? then rest else Some(Max(rest.value, own.value))
  }

  function CatchUp(ws: Workspace): Workspace
  {
    var top := MaxOrder(ws.events);
    var ws := if top.Some? && (ws.sequence.None? || ws.sequence.value < top.value) then ws.(sequence := top) else ws;
    if ws.sequence.None? then ws.(sequence := Some(0)) else ws
  }

  function Upgrade(ws: Workspace): Workspace { CatchUp(ws.(events := BackfillOrders(ws.events))) }

  // ---------------------------------------------------------------- dense orders

  function Orders(es: seq<Event>): (f: seq<int>)
    ensures |f| == |es|
    ensures forall i :: 0 <= i < |es| ==> f[i] == if es[i].order.Some? then es[i].order.value else 0
  {
    if es == [] then [] else Orders(DropLast(es)) + [if Last(es).order.Some? then Last(es).order.value else 0]
  }

  /** As many orders as events, all distinct, in 1..event_sequence. */
  ghost predicate Dense(ws: Workspace)
  {
    && ws.sequence == Some(|ws.events|)
    && Distinct(Orders(ws.events))
    && forall i :: 0 <= i < |ws.events| ==> ws.events[i].order.Some? && 1 <= ws.events[i].order.value <= |ws.events|
  }

  /** So every order from 1 to the sequence is used, by one event. */
  lemma DenseUsesEachOrderOnce(ws: Workspace, k: int) returns (i: nat)
    requires Dense(ws) && 1 <= k <= |ws.events|
    ensures i < |ws.events| && ws.events[i].order == Some(k)
    ensures forall j :: 0 <= j < |ws.events| && ws.events[j].order == Some(k) ==> j == i
  {
    var f := Orders(ws.events);
    i := Pigeonhole(f, k);
    forall j | 0 <= j < |ws.events| && ws.events[j].order == Some(k) ensures j == i {
      assert f[j] == k;
    }
  }

  ghost predicate ConsistentWithTime(es: seq<Event>)
  {
    forall i, j | 0 <= i < |es| && 0 <= j < |es| && es[i].order.Some? && es[j].order.Some? ::
      es[i].occurredAt < es[j].occurredAt ==> es[i].order.value < es[j].order.value
  }

  lemma {:induction false} MaxOrderIs(es: seq<Event>, n: int)
    requires forall e <- es :: e.order.Some? ==> e.order.value <= n
    ensures MaxOrder(es).Some? ==> MaxOrder(es).value <= n
    ensures (exists e <- es :: e.order == Some(n)) ==> MaxOrder(es) == Some(n)
  {
    if es != [] {
      assert es == DropLast(es) + [Last(es)];
      MaxOrderIs(DropLast(es), n);
    }
  }

  lemma {:induction false} MaxOrderCovers(es: seq<Event>, e: Event)
    requires e in es && e.order.Some?
    ensures MaxOrder(es).Some? && e.order.value <= MaxOrder(es).value
  {
    assert es == DropLast(es) + [Last(es)];
    if e in DropLast(es) { MaxOrderCovers(DropLast(es), e); }
  }

  // ---------------------------------------------------------------- when the upgrade is exact

  /** Some event that had order `k` before the upgrade. */
  ghost predicate Preordered(es: seq<Event>, k: int)
  {
    exists i :: 0 <= i < |es| && es[i].order == Some(k)
  }

  /** Some event with row number `k` that had an order before the upgrade. */
  ghost predicate PreorderedRow(es: seq<Event>, k: int)
  {
    exists i :: 0 <= i < |es| && es[i].order.Some? && RowNumber(es, i) == k
  }

  /** Orders already present are distinct and rearrange their own events' row numbers. */
  ghost predicate Rearranged(es: seq<Event>)
  {
    && (forall i, j :: 0 <= i < j < |es| && es[i].order.Some? ==> es[i].order != es[j].order)
    && (forall k: int :: Preordered(es, k) <==> PreorderedRow(es, k))
  }

  /** Every backfilled order is the row number of an event of the same sort. */
  lemma BackfilledRow(es: seq<Event>, i: nat) returns (k: nat)
    requires Rearranged(es) && i < |es|
    ensures k < |es| && es[k].order.Some? == es[i].order.Some?
    ensures BackfillOrders(es)[i].order == Some(RowNumber(es, k)) && 1 <= RowNumber(es, k) <= |es|
  {
    k := i;
    if es[i].order.Some? {
      assert Preordered(es, es[i].order.value);
      assert PreorderedRow(es, es[i].order.value);
      k :| k < |es| && es[k].order.Some? && RowNumber(es, k) == es[i].order.value;
    }
    CountIsBounded(es, k, |es|);
  }

  lemma RearrangedDiffers(es: seq<Event>, i: nat, j: nat)
    requires Rearranged(es) && i < j < |es|
    ensures BackfillOrders(es)[i].order != BackfillOrders(es)[j].order
  {
    if es[i].order.Some? != es[j].order.Some? {
      var k := BackfilledRow(es, i);
      var l := BackfilledRow(es, j);
      RowNumbersFollowTime(es, k, l);
    } else if es[i].order.None? {
      RowNumbersFollowTime(es, i, j);
    }
  }

  lemma RearrangedIsDistinct(es: seq<Event>)
    requires Rearranged(es)
    ensures Distinct(Orders(BackfillOrders(es)))
    ensures forall i :: 0 <= i < |es| ==>
      BackfillOrders(es)[i].order.Some? && 1 <= BackfillOrders(es)[i].order.value <= |es|
  {
    forall i | 0 <= i < |es|
      ensures BackfillOrders(es)[i].order.Some? && 1 <= BackfillOrders(es)[i].order.value <= |es|
    {
      var k := BackfilledRow(es, i);
    }
    forall i, j | 0 <= i < j < |es| ensures BackfillOrders(es)[i].order != BackfillOrders(es)[j].order {
      RearrangedDiffers(es, i, j);
    }
  }

  lemma DistinctIsRearranged(es: seq<Event>)
    requires Distinct(Orders(BackfillOrders(es)))
    requires forall i :: 0 <= i < |es| ==> 1 <= Orders(BackfillOrders(es))[i] <= |es|
    ensures Rearranged(es)
  {
    var b := BackfillOrders(es);
    var f := Orders(b);
    forall i, j | 0 <= i < j < |es| && es[i].order.Some? ensures es[i].order != es[j].order {
      assert f[i] != f[j];
    }
    forall k: int ensures Preordered(es, k) <==> PreorderedRow(es, k) {
      if Preordered(es, k) { PreorderedHasRow(es, f, k); }
      if PreorderedRow(es, k) { RowHasPreordered(es, f, k); }
    }
  }

  lemma PreorderedHasRow(es: seq<Event>, f: seq<int>, k: int)
    requires f == Orders(BackfillOrders(es)) && Distinct(f)
    requires forall i :: 0 <= i < |es| ==> 1 <= f[i] <= |es|
    requires Preordered(es, k)
    ensures PreorderedRow(es, k)
  {
    var i :| 0 <= i < |es| && es[i].order == Some(k);
    assert f[i] == k;
    var r := RowNumbers(es);
    RowNumbersFill(es);
    var m := Pigeonhole(r, k);
    if es[m].order.None? { assert f[m] == k; }
  }

  lemma RowHasPreordered(es: seq<Event>, f: seq<int>, k: int)
    requires f == Orders(BackfillOrders(es)) && Distinct(f)
    requires forall i :: 0 <= i < |es| ==> 1 <= f[i] <= |es|
    requires PreorderedRow(es, k)
    ensures Preordered(es, k)
  {
    var m :| 0 <= m < |es| && es[m].order.Some? && RowNumber(es, m) == k;
    CountIsBounded(es, m, |es|);
    var i := Pigeonhole(f, k);
    if es[i].order.None? { RowNumbersFollowTime(es, i, m); }
  }

  function RowNumbers(es: seq<Event>): (r: seq<int>)
    ensures |r| == |es| && forall i :: 0 <= i < |es| ==> r[i] == RowNumber(es, i)
  {
    seq(|es|, i requires 0 <= i < |es| => RowNumber(es, i))
  }

  lemma RowNumbersFill(es: seq<Event>)
    ensures Distinct(RowNumbers(es)) && forall i :: 0 <= i < |es| ==> 1 <= RowNumbers(es)[i] <= |es|
  {
    forall i, j | 0 <= i < j < |es| ensures RowNumber(es, i) != RowNumber(es, j) { RowNumbersFollowTime(es, i, j); }
    forall i | 0 <= i < |es| ensures 1 <= RowNumber(es, i) <= |es| { CountIsBounded(es, i, |es|); }
  }

  /**
   * The upgrade leaves exactly the orders 1..event_sequence, each used once, if
   * and only if the sequence was not ahead and the orders already present
   * rearrange the row numbers of their own events.
   */
  lemma UpgradeIsDenseIff(ws: Workspace)
    ensures Dense(Upgrade(ws)) <==>
      Rearranged(ws.events) && (ws.sequence.None? || ws.sequence.value <= |ws.events|)
      && (ws.events == [] ==> ws.sequence.None? || ws.sequence.value == 0)
  {
    var n, b := |ws.events|, BackfillOrders(ws.events);
    var up := Upgrade(ws);
    if Rearranged(ws.events) {
      RearrangedIsDistinct(ws.events);
      forall e | e in b ensures e.order.Some? ==> e.order.value <= n { var i :| 0 <= i < |b| && b[i] == e; }
      MaxOrderIs(b, n);
      if n > 0 {
        var i := Pigeonhole(Orders(b), n);
        assert b[i] in b;
      }
    }
    if Dense(up) {
      forall i | 0 <= i < n ensures 1 <= Orders(b)[i] <= n { assert up.events[i].order.Some?; }
      DistinctIsRearranged(ws.events);
    }
  }

  /** From unordered events the upgrade is exact, and its orders follow time. */
  lemma UpgradeFromUnordered(ws: Workspace)
    requires ws.sequence.None? && forall e <- ws.events :: e.order.None?
    ensures Dense(Upgrade(ws)) && ConsistentWithTime(Upgrade(ws).events)
  {
    var es := ws.events;
    forall i | 0 <= i < |es| ensures es[i].order.None? { assert es[i] in es; }
    assert Rearranged(es);
    UpgradeIsDenseIff(ws);
    forall i, j | 0 <= i < |es| && 0 <= j < |es| && es[i].occurredAt < es[j].occurredAt
      ensures RowNumber(es, i) < RowNumber(es, j)
    {
      RowNumbersFollowTime(es, j, i);
    }
  }

  /** One event already numbered out of place is enough to break it. */
  lemma PreorderedEventCollides()
    ensures exists ws: Workspace :: |ws.events| == 2 && ws.sequence.None? && !Dense(Upgrade(ws))
  {
    var a := Event(1, OtherKind, OtherReason, NotAnObject, None, 10);
    var b := Event(2, OtherKind, OtherReason, NotAnObject, Some(1), 20);
    var ws := Workspace(0, 0, None, [a, b]);
    assert ws.events[0].order.None? && ws.events[1].order == Some(1);
    assert Preordered(ws.events, 1);
    assert CountBefore(ws.events, 1, 0) == 0;
    assert CountBefore(ws.events, 1, 1) == 1;
    assert RowNumber(ws.events, 1) == 2;
    assert !PreorderedRow(ws.events, 1);
    UpgradeIsDenseIff(ws);
  }

  // ---------------------------------------------------------------- later inserts

  /** The trigger: an insert without an order takes the next one. */
  function InsertEvent(ws: Workspace, e: Event): Workspace
  {
    if e.order.Some? then ws.(events := ws.events + [e])
    else
      var next := (if ws.sequence.Some? then ws.sequence.value else 0) + 1;
      ws.(sequence := Some(next), events := ws.events + [e.(order := Some(next))])
  }

  lemma InsertKeepsDense(ws: Workspace, e: Event)
    requires Dense(ws) && e.order.None?
    ensures Dense(InsertEvent(ws, e)) && ws.events <= InsertEvent(ws, e).events
  {
    var r := InsertEvent(ws, e);
    forall i, j | 0 <= i < j < |r.events| ensures Orders(r.events)[i] != Orders(r.events)[j] {
      if j < |ws.events| { assert Orders(ws.events)[i] != Orders(ws.events)[j]; }
    }
  }
}

/**
 * Keeping the operator's place. When membership changes, the row at the top of
 * the viewport is found in the new list; if it is gone, the nearest survivor
 * takes over. The list then jumps to the page that renders the anchor row.
 */
module ScrollAnchor {
  import opened Basics
  import opened ListWindow

  /** What one commit of the list laid out. */
  datatype Geometry = Geometry(ids: seq<int>, offsets: seq<real>, selected: Option<int>)

  datatype Jump = Jump(page: int, window: int, top: real)

  ghost predicate LaidOut(g: Geometry)
  {
    |g.offsets| == |g.ids| + 1 && g.offsets[0] == 0.0 && Increasing(g.offsets)
  }

  function IndexOf(ids: seq<int>, id: int): (r: Option<nat>)
    ensures r.Some? ==> r.value < |ids| && ids[r.value] == id && id !in ids[..r.value]
    ensures r.None? <==> id !in ids
  {
    if ids == [] then None
    else if Last(ids) == id && id !in DropLast(ids) then Some(|ids| - 1)
    else
      assert ids == DropLast(ids) + [Last(ids)];
      var r := IndexOf(DropLast(ids), id);
      assert r.Some? ==> ids[..r.value] == DropLast(ids)[..r.value];
      r
  }

  /** The first surviving row from `i` on. */
  function NextSurvivor(was: seq<int>, ids: seq<int>, i: nat): (r: Option<nat>)
    requires i <= |was|
    ensures r.Some? ==> i <= r.value < |was| && was[r.value] in ids
                        && forall k :: i <= k < r.value ==> was[k] !in ids
    ensures r.None? ==> forall k :: i <= k < |was| ==> was[k] !in ids
    decreases |was| - i
  {
    if i == |was| then None
    else if was[i] in ids then Some(i)
    else NextSurvivor(was, ids, i + 1)
  }

  /** The last surviving row before `i`. */
  function PriorSurvivor(was: seq<int>, ids: seq<int>, i: nat): (r: Option<nat>)
    requires i <= |was|
    ensures r.Some? ==> r.value < i && was[r.value] in ids && forall k :: r.value < k < i ==> was[k] !in ids
    ensures r.None? ==> forall k :: 0 <= k < i ==> was[k] !in ids
  {
    if i == 0 then None
    else if was[i - 1] in ids then Some(i - 1)
    else PriorSurvivor(was, ids, i - 1)
  }

  function Fallback(was: seq<int>, ids: seq<int>, p: nat): Option<nat>
    requires p < |was|
  {
    var next := NextSurvivor(was, ids, p + 1);
    if next.Some? then next else PriorSurvivor(was, ids, p)
  }

  function Land(next: Geometry, a: nat, top: real): Jump
  {
    var start := Min(PageStart(a), MaxPageStart(|next.ids|));
    Jump(start, start, top)
  }

  function Height(g: Geometry, i: nat): real
    requires i + 1 < |g.offsets|
  {
    g.offsets[i + 1] - g.offsets[i]
  }

  function Share(d: real, height: real): real { if height > 0.0 then d / height else 0.0 }

  function Place(start: real, share: real, height: real): real { start + share * height }

  /** How far into row `i` the position `y` lies, as a fraction of the row. */
  function Fraction(g: Geometry, i: nat, y: real): real
    requires i + 1 < |g.offsets|
  {
    Share(y - g.offsets[i], Height(g, i))
  }

  function Anchor(was: Geometry, next: Geometry, top: real): Option<Jump>
    requires |was.offsets| == |was.ids| + 1 && |next.offsets| == |next.ids| + 1
  {
    if was.selected != next.selected || was.ids == next.ids || was.ids == [] then None
    else if top <= TOP_EDGE_TOLERANCE then Some(Jump(0, 0, 0.0))
    else
      var p := RowAt(was.offsets, top);
      match IndexOf(next.ids, was.ids[p])
      case Some(a) =>
        Some(Land(next, a, Place(next.offsets[a], Fraction(was, p, top), Height(next, a))))
      case None =>
        match Fallback(was.ids, next.ids, p)
        case None => None
        case Some(f) =>
          var a, held := IndexOf(next.ids, was.ids[f]), IndexOf(was.ids, was.ids[f]);
          Some(Land(next, a.value, next.offsets[a.value] - (was.offsets[held.value] - top)))
  }

  // ---------------------------------------------------------------- the surviving row

  lemma RowAtIs(offsets: seq<real>, y: real, k: nat)
    requires Increasing(offsets) && k + 2 <= |offsets| && offsets[k] <= y < offsets[k + 1]
    ensures RowAt(offsets, y) == k
  {
    ScanRowIs(offsets, y, 0, k);
  }

  lemma RowAtHolds(offsets: seq<real>, y: real)
    requires |offsets| >= 2 && Increasing(offsets) && offsets[0] <= y < Last(offsets)
    ensures var k := RowAt(offsets, y); offsets[k] <= y < offsets[k + 1]
  {
    ScanRowFinds(offsets, y, 0);
  }

  /** Scaling a fraction of one height onto another keeps the fraction, and its row. */
  lemma PlaceKeepsShare(start: real, d: real, from: real, onto: real)
    requires from > 0.0 && onto > 0.0
    ensures var y := Place(start, Share(d, from), onto);
      && Share(y - start, onto) == Share(d, from)
      && (0.0 <= d < from ==> start <= y < start + onto)
      && (d >= from ==> y >= start + onto)
  {
    var r := d / from;
    var moved := r * onto;
    assert r * from == d;
    assert moved / onto == r;
    assert (start + moved) - start == moved;
    if 0.0 <= d < from {
      assert 0.0 <= r by { if r < 0.0 { Product(0.0 - r, from); } }
      assert r < 1.0 by { if r >= 1.0 { Grows(r, from); } }
      Shrinks(r, onto);
      assert 0.0 <= moved;
    }
    if d >= from {
      assert r >= 1.0 by { if r < 1.0 { Shrinks(r, from); } }
      Grows(r, onto);
    }
  }

  lemma Product(a: real, b: real)
    requires a > 0.0 && b > 0.0
    ensures a * b > 0.0
  {
  }

  lemma Shrinks(r: real, h: real)
    requires r < 1.0 && h > 0.0
    ensures r * h < h
  {
    Product(1.0 - r, h);
    assert (1.0 - r) * h == h - r * h;
  }

  lemma Grows(r: real, h: real)
    requires r >= 1.0 && h > 0.0
    ensures r * h >= h
  {
    assert (r - 1.0) * h >= 0.0;
    assert (r - 1.0) * h == r * h - h;
  }

  ghost predicate Moved(was: Geometry, next: Geometry, top: real)
  {
    && LaidOut(was) && LaidOut(next) && was.ids != [] && was.ids != next.ids
    && was.selected == next.selected && top > TOP_EDGE_TOLERANCE
  }

  /**
   * If the top row survives and the old position lay within the list, the new
   * position falls inside that same row at the same fraction, and the row is rendered.
   */
  lemma SurvivingRowKeepsItsPlace(was: Geometry, next: Geometry, top: real)
    requires Moved(was, next, top) && top < Last(was.offsets)
    requires was.ids[RowAt(was.offsets, top)] in next.ids
    ensures var j, p := Anchor(was, next, top), RowAt(was.offsets, top);
      && j.Some?
      && var a := RowAt(next.offsets, j.value.top);
         && next.ids[a] == was.ids[p]
         && next.offsets[a] <= j.value.top < next.offsets[a + 1]
         && Fraction(next, a, j.value.top) == Fraction(was, p, top)
         && var w := Rendered(j.value.window, |next.ids|); w.start <= a < w.end
  {
    var p := RowAt(was.offsets, top);
    var a := IndexOf(next.ids, was.ids[p]).value;
    RowAtHolds(was.offsets, top);
    PlaceKeepsShare(next.offsets[a], top - was.offsets[p], Height(was, p), Height(next, a));
    var y := Place(next.offsets[a], Fraction(was, p, top), Height(next, a));
    assert Anchor(was, next, top) == Some(Land(next, a, y));
    RowAtIs(next.offsets, y, a);
    PageHoldsRow(a, |next.ids|);
  }

  /** Past the end of the old list the same computation leaves the row behind. */
  lemma OverscrolledAnchorLeavesItsRow(was: Geometry, next: Geometry, top: real)
    requires Moved(was, next, top) && top >= Last(was.offsets) && Last(was.ids) in next.ids
    ensures var j, a := Anchor(was, next, top), IndexOf(next.ids, Last(was.ids));
      j.Some? && j.value.top >= next.offsets[a.value + 1]
  {
    var p := RowAt(was.offsets, top);
    ScanRowFinds(was.offsets, top, 0);
    assert p == |was.ids| - 1;
    var a := IndexOf(next.ids, Last(was.ids)).value;
    PlaceKeepsShare(next.offsets[a], top - was.offsets[p], Height(was, p), Height(next, a));
  }

  // ---------------------------------------------------------------- the nearest survivor

  lemma UniqueIndex(ids: seq<int>, k: nat)
    requires Distinct(ids) && k < |ids|
    ensures IndexOf(ids, ids[k]) == Some(k)
  {
    var r := IndexOf(ids, ids[k]).value;
    assert ids[r] == ids[k];
  }

  /** `f` is the nearest surviving row: the first after `p`, else the last before it. */
  ghost predicate Nearest(was: seq<int>, ids: seq<int>, p: nat, f: nat)
    requires p < |was|
  {
    && f < |was| && was[f] in ids
    && if f > p then forall k :: p < k < f ==> was[k] !in ids
       else f < p && (forall k :: f < k < |was| ==> was[k] !in ids)
  }

  /**
   * If the top row is gone, the nearest survivor keeps its exact pixel distance
   * from the top of the viewport, and is rendered.
   */
  lemma NearestSurvivorKeepsItsDistance(was: Geometry, next: Geometry, top: real, f: nat)
    requires Moved(was, next, top) && Distinct(was.ids)
    requires var p := RowAt(was.offsets, top); was.ids[p] !in next.ids && Nearest(was.ids, next.ids, p, f)
    ensures var j, a := Anchor(was, next, top), IndexOf(next.ids, was.ids[f]);
      && j.Some? && a.Some?
      && next.offsets[a.value] - j.value.top == was.offsets[f] - top
      && var w := Rendered(j.value.window, |next.ids|); w.start <= a.value < w.end
  {
    var p := RowAt(was.offsets, top);
    assert Fallback(was.ids, next.ids, p) == Some(f) by { NearestIsFallback(was.ids, next.ids, p, f); }
    UniqueIndex(was.ids, f);
    PageHoldsRow(IndexOf(next.ids, was.ids[f]).value, |next.ids|);
  }

  lemma NearestIsFallback(was: seq<int>, ids: seq<int>, p: nat, f: nat)
    requires p < |was| && was[p] !in ids && Nearest(was, ids, p, f)
    ensures Fallback(was, ids, p) == Some(f)
  {
    var next, prior := NextSurvivor(was, ids, p + 1), PriorSurvivor(was, ids, p);
    if f > p {
      assert next.Some?;
      assert next.value <= f;
    } else {
      assert next.None?;
      assert prior.Some?;
      assert prior.value >= f;
    }
  }

  /** The list stays put only when no row survives. */
  lemma AnchorFindsEverySurvivor(was: Geometry, next: Geometry, top: real)
    requires Moved(was, next, top)
    ensures Anchor(was, next, top).None? <==> forall id <- was.ids :: id !in next.ids
  {
    var p := RowAt(was.offsets, top);
    if was.ids[p] !in next.ids && Fallback(was.ids, next.ids, p).None? {
      forall id | id in was.ids ensures id !in next.ids {
        var k :| 0 <= k < |was.ids| && was.ids[k] == id;
        assert k < p || k == p || k > p;
      }
    }
  }

  // ---------------------------------------------------------------- the component

  class WorkspaceList {
    var ids: seq<int>
    var offsets: seq<real>
    var committed: Option<Geometry>
    var pageStart: int
    var windowStart: int
    var scrollTop: real

    ghost predicate Valid()
      reads this
    {
      && LaidOut(Geometry(ids, offsets, None))
      && (committed.Some? ==> LaidOut(committed.value))
    }

    constructor ()
      ensures Valid() && ids == [] && committed.None?
    {
      ids, offsets, committed := [], [0.0], None;
      pageStart, windowStart, scrollTop := 0, 0, 0.0;
    }

    /** A new render lays the rows out again. */
    method Render(items: seq<int>, measured: map<int, real>, estimate: real)
      requires Valid() && estimate > 0.0 && forall id <- measured :: measured[id] > 0.0
      modifies this`ids, this`offsets
      ensures Valid() && ids == items && Spans(offsets, items, measured, estimate)
    {
      ids := items;
      offsets := BuildRowOffsets(items, measured, estimate);
      SpansIncrease(offsets, items, measured, estimate);
    }

    /** A scroll event moves the rendered window. */
    method UpdateWindow(viewport: real)
      requires Valid()
      modifies this`pageStart, this`windowStart
      ensures ids == [] ==> pageStart == old(pageStart) && windowStart == old(windowStart)
      ensures ids != [] ==>
        var v := VisibleRows(offsets, scrollTop, scrollTop + viewport);
        pageStart == VisiblePage(v, |ids|) && windowStart == WindowStart(v, |ids|)
    {
      if |ids| == 0 {
        return;
      }
      var visible := FindVisibleRows(offsets, scrollTop, scrollTop + viewport);
      pageStart := VisiblePage(visible, |ids|);
      windowStart := ChooseWindow(visible, |ids|);
    }

    /** The anchor row in the new list, and where the list must scroll for it. */
    method FindAnchor(was: Geometry, selected: Option<int>) returns (j: Option<Jump>)
      requires Valid() && LaidOut(was) && was.selected == selected
      requires was.ids != ids && was.ids != [] && scrollTop > TOP_EDGE_TOLERANCE
      ensures j == Anchor(was, Geometry(ids, offsets, selected), scrollTop)
    {
      var p := WorkspaceRowAtOffset(was.offsets, scrollTop);
      var anchor := IndexOf(ids, was.ids[p]);
      var a, top;
      if anchor.Some? {
        a := anchor.value;
        top := Place(offsets[a], Fraction(was, p, scrollTop), offsets[a + 1] - offsets[a]);
      } else {
        var fallback := Fallback(was.ids, ids, p);
        if fallback.None? {
          return None;
        }
        var id := was.ids[fallback.value];
        a := IndexOf(ids, id).value;
        var delta := was.offsets[IndexOf(was.ids, id).value] - scrollTop;
        top := offsets[a] - delta;
      }
      var start := Min(PageStart(a), MaxPageStart(|ids|));
      return Some(Jump(start, start, top));
    }

    /** The layout effect after a render: remember the layout, then keep the place. */
    method CommitGeometry(selected: Option<int>)
      requires Valid()
      modifies this`committed, this`pageStart, this`windowStart, this`scrollTop
      ensures Valid() && committed == Some(Geometry(ids, offsets, selected))
      ensures old(committed).None? ==>
        pageStart == old(pageStart) && windowStart == old(windowStart) && scrollTop == old(scrollTop)
      ensures old(committed).Some? ==>
        match Anchor(old(committed).value, Geometry(ids, offsets, selected), old(scrollTop))
        case None => pageStart == old(pageStart) && windowStart == old(windowStart) && scrollTop == old(scrollTop)
        case Some(j) => pageStart == j.page && windowStart == j.window && scrollTop == j.top
    {
      var previous := committed;
      committed := Some(Geometry(ids, offsets, selected));
      if previous.None? || previous.value.selected != selected {
        return;
      }
      var was := previous.value;
      if was.ids == ids || |was.ids| == 0 {
        return;
      }
      if scrollTop <= TOP_EDGE_TOLERANCE {
        pageStart, windowStart, scrollTop := 0, 0, 0.0;
        return;
      }
      var jump := FindAnchor(was, selected);
      if jump.Some? {
        pageStart, windowStart, scrollTop := jump.value.page, jump.value.window, jump.value.top;
      }
    }
  }
}

/**
 * The virtualized workspace list: row offsets, the two searches over them, the
 * rendered window for a scroll position, and the scroll anchor that keeps the
 * operator's place when rows are inserted, removed or reordered.
 * Pixel positions are real numbers.
 */
module ListWindow {
  import opened Basics

  const WINDOW_SIZE := 100
  const OVERSCAN_ROWS := 2
  const TOP_EDGE_TOLERANCE := 0.5

  // ---------------------------------------------------------------- row offsets

  function RowHeight(id: int, measured: map<int, real>, estimate: real): real
  {
    if id in measured then measured[id] else estimate
  }

  /** Row `i` spans `offsets[i]` to `offsets[i + 1]`. */
  ghost predicate Spans(offsets: seq<real>, ids: seq<int>, measured: map<int, real>, estimate: real)
  {
    && |offsets| == |ids| + 1 && offsets[0] == 0.0
    && forall i :: 0 <= i < |ids| ==> offsets[i + 1] == offsets[i] + RowHeight(ids[i], measured, estimate)
  }

  method BuildRowOffsets(ids: seq<int>, measured: map<int, real>, estimate: real) returns (offsets: seq<real>)
    ensures Spans(offsets, ids, measured, estimate)
  {
    offsets := [0.0];
    for i := 0 to |ids|
      invariant |offsets| == i + 1 && offsets[0] == 0.0
      invariant forall j :: 0 <= j < i ==> offsets[j + 1] == offsets[j] + RowHeight(ids[j], measured, estimate)
    {
      offsets := offsets + [Last(offsets) + RowHeight(ids[i], measured, estimate)];
    }
  }

  ghost predicate Increasing(offsets: seq<real>)
  {
    forall i, j :: 0 <= i < j < |offsets| ==> offsets[i] < offsets[j]
  }

  /** Positive heights make the offsets strictly increasing. */
  lemma SpansIncrease(offsets: seq<real>, ids: seq<int>, measured: map<int, real>, estimate: real)
    requires Spans(offsets, ids, measured, estimate)
    requires estimate > 0.0 && forall id <- measured :: measured[id] > 0.0
    ensures Increasing(offsets)
  {
    forall i, j | 0 <= i < j < |offsets| ensures offsets[i] < offsets[j] {
      SpanGrows(offsets, ids, measured, estimate, i, j);
    }
  }

  lemma {:induction false} SpanGrows(
    offsets: seq<real>, ids: seq<int>, measured: map<int, real>, estimate: real, i: nat, j: nat)
    requires Spans(offsets, ids, measured, estimate) && i < j < |offsets|
    requires estimate > 0.0 && forall id <- measured :: measured[id] > 0.0
    ensures offsets[i] < offsets[j]
    decreases j
  {
    assert offsets[(j - 1) + 1] == offsets[j - 1] + RowHeight(ids[j - 1], measured, estimate);
    if i < j - 1 { SpanGrows(offsets, ids, measured, estimate, i, j - 1); }
  }

  // ---------------------------------------------------------------- the two searches

  /** The first row that ends past `y`, or the last row. */
  function ScanRow(offsets: seq<real>, y: real, i: nat): (row: nat)
    requires i + 2 <= |offsets|
    ensures i <= row && row + 2 <= |offsets|
    decreases |offsets| - i
  {
    if i + 2 == |offsets| || offsets[i + 1] > y then i else ScanRow(offsets, y, i + 1)
  }

  function RowAt(offsets: seq<real>, y: real): nat
  {
    if |offsets| < 2 then 0 else ScanRow(offsets, y, 0)
  }

  /** How many rows start before `y`. */
  function ScanBefore(offsets: seq<real>, y: real, i: nat): nat
    requires i < |offsets|
    decreases |offsets| - i
  {
    if i + 1 == |offsets| || offsets[i] >= y then i else ScanBefore(offsets, y, i + 1)
  }

  function RowsBefore(offsets: seq<real>, y: real): nat
    requires offsets != []
  {
    ScanBefore(offsets, y, 0)
  }

  lemma {:induction false} ScanRowIs(offsets: seq<real>, y: real, i: nat, k: nat)
    requires i <= k && k + 2 <= |offsets|
    requires forall j :: i < j <= k ==> offsets[j] <= y
    requires k + 2 == |offsets| || offsets[k + 1] > y
    ensures ScanRow(offsets, y, i) == k
    decreases k - i
  {
    if i < k {
      ScanRowIs(offsets, y, i + 1, k);
    }
  }

  lemma {:induction false} ScanBeforeIs(offsets: seq<real>, y: real, i: nat, k: nat)
    requires i <= k < |offsets|
    requires forall j :: i <= j < k ==> offsets[j] < y
    requires k + 1 == |offsets| || offsets[k] >= y
    ensures ScanBefore(offsets, y, i) == k
    decreases k - i
  {
    if i < k { ScanBeforeIs(offsets, y, i + 1, k); }
  }

  /** The scan's answer, said without it. */
  lemma {:induction false} ScanRowFinds(offsets: seq<real>, y: real, i: nat)
    requires i + 2 <= |offsets|
    ensures var k := ScanRow(offsets, y, i);
      && i <= k && k + 2 <= |offsets|
      && (forall j :: i < j <= k ==> offsets[j] <= y)
      && (k + 2 == |offsets| || offsets[k + 1] > y)
    decreases |offsets| - i
  {
    if i + 2 != |offsets| && offsets[i + 1] <= y { ScanRowFinds(offsets, y, i + 1); }
  }

  lemma {:induction false} ScanBeforeFinds(offsets: seq<real>, y: real, i: nat)
    requires i < |offsets|
    ensures var k := ScanBefore(offsets, y, i);
      && i <= k < |offsets|
      && (forall j :: i <= j < k ==> offsets[j] < y)
      && (k + 1 == |offsets| || offsets[k] >= y)
    decreases |offsets| - i
  {
    if i + 1 != |offsets| && offsets[i] < y { ScanBeforeFinds(offsets, y, i + 1); }
  }

  /** The binary search agrees with the scan on every increasing list, the empty one included. */
  method WorkspaceRowAtOffset(offsets: seq<real>, y: real) returns (row: nat)
    requires offsets != [] && Increasing(offsets)
    ensures row == RowAt(offsets, y)
  {
    var low, high := 0, Max(0, |offsets| - 2);
    while low < high
      invariant 0 <= low <= high <= Max(0, |offsets| - 2)
      invariant forall j :: 0 < j <= low ==> offsets[j] <= y
      invariant high == Max(0, |offsets| - 2) || offsets[high + 1] > y
    {
      var middle := (low + high) / 2;
      if offsets[middle + 1] <= y {
        low := middle + 1;
      } else {
        high := middle;
      }
    }
    row := low;
    if |offsets| >= 2 { ScanRowIs(offsets, y, 0, low); }
  }

  method WorkspaceRowsBeforeOffset(offsets: seq<real>, y: real) returns (rows: nat)
    requires offsets != [] && Increasing(offsets)
    ensures rows == RowsBefore(offsets, y)
  {
    var low, high := 0, |offsets| - 1;
    while low < high
      invariant 0 <= low <= high <= |offsets| - 1
      invariant forall j :: 0 <= j < low ==> offsets[j] < y
      invariant high == |offsets| - 1 || offsets[high] >= y
    {
      var middle := (low + high) / 2;
      if offsets[middle] < y {
        low := middle + 1;
      } else {
        high := middle;
      }
    }
    rows := low;
    ScanBeforeIs(offsets, y, 0, low);
  }

  // ---------------------------------------------------------------- the rendered window

  datatype Range = Range(start: int, end: int)

  function PageStart(row: int): int { row / WINDOW_SIZE * WINDOW_SIZE }

  function MaxPageStart(n: nat): int { Max(0, PageStart(n - 1)) }

  function VisibleRows(offsets: seq<real>, top: real, bottom: real): Range
    requires |offsets| >= 2
  {
    var n := |offsets| - 1;
    var first := Max(0, Min(n - 1, RowAt(offsets, top)));
    Range(first, Max(first + 1, Min(n, RowsBefore(offsets, bottom))))
  }

  function Overscan(visible: Range, n: nat): Range
  {
    Range(Max(0, visible.start - OVERSCAN_ROWS), Min(n, visible.end + OVERSCAN_ROWS))
  }

  function VisiblePage(visible: Range, n: nat): int { Min(MaxPageStart(n), PageStart(visible.start)) }

  function WindowStart(visible: Range, n: nat): int
  {
    var over := Overscan(visible, n);
    var page := VisiblePage(visible, n);
    var start := if over.start < page then over.start else page;
    var start := if over.end > start + WINDOW_SIZE then over.end - WINDOW_SIZE else start;
    Max(0, Min(start, MaxPageStart(n)))
  }

  method FindVisibleRows(offsets: seq<real>, top: real, bottom: real) returns (visible: Range)
    requires |offsets| >= 2 && Increasing(offsets)
    ensures visible == VisibleRows(offsets, top, bottom)
  {
    var n := |offsets| - 1;
    var row := WorkspaceRowAtOffset(offsets, top);
    var first := Max(0, Min(n - 1, row));
    var before := WorkspaceRowsBeforeOffset(offsets, bottom);
    visible := Range(first, Max(first + 1, Min(n, before)));
  }

  method ChooseWindow(visible: Range, n: nat) returns (start: int)
    ensures start == WindowStart(visible, n)
  {
    var overscanStart := Max(0, visible.start - OVERSCAN_ROWS);
    var overscanEnd := Min(n, visible.end + OVERSCAN_ROWS);
    start := VisiblePage(visible, n);
    if overscanStart < start {
      start := overscanStart;
    }
    if overscanEnd > start + WINDOW_SIZE {
      start := overscanEnd - WINDOW_SIZE;
    }
    start := Max(0, Min(start, MaxPageStart(n)));
  }

  /** The rows the list renders for a window start. */
  function Rendered(start: int, n: nat): Range { Range(start, Min(n, start + WINDOW_SIZE)) }

  predicate Within(inner: Range, outer: Range) { outer.start <= inner.start && inner.end <= outer.end }

  predicate Intersects(offsets: seq<real>, row: nat, top: real, bottom: real)
    requires row + 1 < |offsets|
  {
    offsets[row] < bottom && offsets[row + 1] > top
  }

  /** Every row on screen is in the computed range, for any scroll position. */
  lemma VisibleRowsCoverScreen(offsets: seq<real>, top: real, bottom: real, row: nat)
    requires |offsets| >= 2 && Increasing(offsets) && row + 1 < |offsets|
    requires Intersects(offsets, row, top, bottom)
    ensures var v := VisibleRows(offsets, top, bottom); v.start <= row < v.end
  {
    ScanRowFinds(offsets, top, 0);
    ScanBeforeFinds(offsets, bottom, 0);
  }

  /** And within the list, the computed range holds nothing else. */
  lemma VisibleRowsAreOnScreen(offsets: seq<real>, top: real, bottom: real, row: nat)
    requires |offsets| >= 2 && Increasing(offsets) && row + 1 < |offsets|
    requires offsets[0] <= top < Last(offsets) && top < bottom
    ensures var v := VisibleRows(offsets, top, bottom);
      v.start <= row < v.end <==> Intersects(offsets, row, top, bottom)
  {
    ScanRowFinds(offsets, top, 0);
    ScanBeforeFinds(offsets, bottom, 0);
    var first := ScanRow(offsets, top, 0);
    assert offsets[first] <= top;
  }

  lemma VisibleRowsAreRows(offsets: seq<real>, top: real, bottom: real)
    requires |offsets| >= 2
    ensures var v := VisibleRows(offsets, top, bottom); 0 <= v.start < v.end <= |offsets| - 1
  {
    ScanRowFinds(offsets, top, 0);
  }

  /** The rendered window holds the visible rows with their overscan exactly when they fit. */
  lemma WindowCoversIffItFits(visible: Range, n: nat)
    requires 0 <= visible.start < visible.end <= n
    ensures var over := Overscan(visible, n);
      Within(over, Rendered(WindowStart(visible, n), n)) <==> over.end - over.start <= WINDOW_SIZE
  {
    var page := visible.start / WINDOW_SIZE;
    assert page * WINDOW_SIZE <= visible.start < page * WINDOW_SIZE + WINDOW_SIZE;
    var last := (n - 1) / WINDOW_SIZE;
    assert last * WINDOW_SIZE <= n - 1 < last * WINDOW_SIZE + WINDOW_SIZE;
  }

  /**
   * For any positive row heights and scroll position: when the visible range
   * spans at most 96 rows, every row on screen and two rows each side are rendered.
   */
  lemma WindowShowsScreen(offsets: seq<real>, top: real, bottom: real, shown: nat, row: nat)
    requires |offsets| >= 2 && Increasing(offsets) && row + 1 < |offsets| && shown + 1 < |offsets|
    requires var v := VisibleRows(offsets, top, bottom); v.end - v.start <= WINDOW_SIZE - 2 * OVERSCAN_ROWS
    requires Intersects(offsets, shown, top, bottom) && shown - OVERSCAN_ROWS <= row <= shown + OVERSCAN_ROWS
    ensures var n := |offsets| - 1;
      var w := Rendered(WindowStart(VisibleRows(offsets, top, bottom), n), n); w.start <= row < w.end
  {
    var n, v := |offsets| - 1, VisibleRows(offsets, top, bottom);
    VisibleRowsCoverScreen(offsets, top, bottom, shown);
    VisibleRowsAreRows(offsets, top, bottom);
    WindowCoversIffItFits(v, n);
  }

  /** The page of any row holds it: the window an anchor or a selection jumps to. */
  lemma PageHoldsRow(row: nat, n: nat)
    requires row < n
    ensures var w := Rendered(Min(PageStart(row), MaxPageStart(n)), n); w.start <= row < w.end
  {
    var page, last := row / WINDOW_SIZE, (n - 1) / WINDOW_SIZE;
    assert page * WINDOW_SIZE <= row < page * WINDOW_SIZE + WINDOW_SIZE;
    assert last * WINDOW_SIZE <= n - 1 < last * WINDOW_SIZE + WINDOW_SIZE;
  }
}

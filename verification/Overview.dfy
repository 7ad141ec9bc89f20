/**
 * The workspace list: rows, queries, pages, and the merges that install a page
 * into the list. Identifiers and timestamps are integers ordered as their texts.
 * Every row carries the request that delivered it; the merges never look at it.
 */
module Overview {
  import opened Basics

  /** One query object; editing a filter makes a new object. */
  datatype Query = Query(version: nat, statuses: seq<int>, agents: seq<int>, repo: Option<int>)

  datatype Source = Source(epoch: nat, query: Query, generation: nat)

  datatype Row = Row(id: int, createdAt: int, status: int, agent: int, repo: int, body: int, source: Source)

  /** A position in the list order, newest first. The console only compares cursors for equality. */
  datatype Key = Key(createdAt: int, id: int)

  type Cursor = Key

  /** A blank or missing cursor is None. */
  datatype Page = Page(items: seq<Row>, hasMore: bool, next: Option<Cursor>)

  datatype PageAnswer = Denied | Outage | Answered(page: Page)

  datatype Pagination = Pagination(
    query: Query, firstCursor: Option<Cursor>, nextCursor: Option<Cursor>, boundary: Option<Key>,
    needsBackfill: bool, complete: bool, fetched: set<Cursor>)

  const OVERVIEW_LIST_PAGE_SIZE: nat := 100
  const OVERVIEW_LIST_MAX_PAGES: nat := 50
  const OVERVIEW_REFRESH_BATCH_SIZE: nat := 200

  predicate StatusFiltered(q: Query) { |q.statuses| == 1 }

  predicate Matches(r: Row, q: Query)
  {
    && (q.statuses == [] || r.status in q.statuses)
    && (q.agents == [] || r.agent in q.agents)
    && (q.repo.None? || q.repo == Some(r.repo))
  }

  function KeyOf(r: Row): Key { Key(r.createdAt, r.id) }

  function LastKey(rows: seq<Row>): Option<Key>
  {
    if rows == [] then None else Some(KeyOf(Last(rows)))
  }

  function Ids(rows: seq<Row>): set<int> { set r | r in rows :: r.id }

  ghost predicate UniqueIds(rows: seq<Row>) { forall i, j :: 0 <= i < j < |rows| ==> rows[i].id != rows[j].id }

  /** Equal as serialized rows. */
  predicate SameText(a: Row, b: Row) { a == b.(source := a.source) }

  // ---------------------------------------------------------------- append

  function Unseen(rows: seq<Row>, seen: set<int>): (r: seq<Row>)
  {
    if rows == [] then []
    else if rows[0].id in seen then Unseen(rows[1..], seen)
    else [rows[0]] + Unseen(rows[1..], seen + {rows[0].id})
  }

  lemma UnseenTurn(rows: seq<Row>, i: nat, seen: set<int>)
    requires i < |rows|
    ensures Unseen(rows[i..], seen)
         == if rows[i].id in seen then Unseen(rows[i + 1..], seen)
            else [rows[i]] + Unseen(rows[i + 1..], seen + {rows[i].id})
  {
    assert rows[i..][1..] == rows[i + 1..];
  }

  function AppendUnique(current: seq<Row>, page: seq<Row>): seq<Row> { Unseen(current + page, {}) }

  /** The loop of the source: first occurrence wins. */
  method AppendUniqueOverviewItems(current: seq<Row>, page: seq<Row>) returns (merged: seq<Row>)
    ensures merged == AppendUnique(current, page)
  {
    var all, seen: set<int>, i := current + page, {}, 0;
    merged := [];
    while i < |all|
      invariant 0 <= i <= |all|
      invariant Unseen(all, {}) == merged + Unseen(all[i..], seen)
    {
      var item := all[i];
      UnseenTurn(all, i, seen);
      i := i + 1;
      if item.id in seen {
        continue;
      }
      seen := seen + {item.id};
      merged := merged + [item];
    }
  }

  lemma {:induction false} UnseenRows(rows: seq<Row>, seen: set<int>)
    ensures var r := Unseen(rows, seen);
      UniqueIds(r) && Ids(r) == Ids(rows) - seen && forall x <- r :: x in rows
  {
    if rows != [] {
      var id := rows[0].id;
      assert rows == [rows[0]] + rows[1..];
      if id in seen {
        UnseenRows(rows[1..], seen);
      } else {
        UnseenRows(rows[1..], seen + {id});
        var rest := Unseen(rows[1..], seen + {id});
        forall x | x in rest ensures x.id != id { assert x.id in Ids(rest); }
        assert Ids(Unseen(rows, seen)) == {id} + Ids(rest);
        assert Ids(rows) == {id} + Ids(rows[1..]);
      }
    }
  }

  lemma {:induction false} UnseenKeepsUnique(rows: seq<Row>, more: seq<Row>, seen: set<int>)
    requires UniqueIds(rows) && Ids(rows) !! seen
    ensures Unseen(rows + more, seen) == rows + Unseen(more, seen + Ids(rows))
  {
    if rows == [] {
      assert rows + more == more && seen + Ids(rows) == seen;
    } else {
      var id := rows[0].id;
      assert id in Ids(rows);
      assert (rows + more)[1..] == rows[1..] + more;
      forall x | x in rows[1..] ensures x.id != id && x.id in Ids(rows) { }
      UnseenKeepsUnique(rows[1..], more, seen + {id});
      assert rows == [rows[0]] + rows[1..];
      assert Ids(rows) == {id} + Ids(rows[1..]);
      assert seen + {id} + Ids(rows[1..]) == seen + Ids(rows);
    }
  }

  /**
   * Appending a page keeps the list as it was, adds exactly the page's new
   * workspaces, and never lists one twice.
   */
  lemma AppendUniqueExtends(current: seq<Row>, page: seq<Row>)
    requires UniqueIds(current)
    ensures var r := AppendUnique(current, page);
      && current <= r && UniqueIds(r) && Ids(r) == Ids(current) + Ids(page)
      && forall x <- r[|current|..] :: x in page && x.id !in Ids(current)
  {
    UnseenRows(current + page, {});
    UnseenKeepsUnique(current, page, {});
    UnseenRows(page, Ids(current));
    var added := Unseen(page, {} + Ids(current));
    assert {} + Ids(current) == Ids(current);
    assert AppendUnique(current, page)[|current|..] == added;
    forall x | x in added ensures x.id !in Ids(current) { assert x.id in Ids(added); }
    assert Ids(current + page) == Ids(current) + Ids(page);
  }

  // ---------------------------------------------------------------- reconcile

  /** A `Map` built from the rows: the last row of an identifier wins. */
  function Lookup(rows: seq<Row>, id: int): (r: Option<Row>)
    ensures r.Some? ==> r.value in rows && r.value.id == id
    ensures r.None? ==> id !in Ids(rows)
  {
    if rows == [] then None
    else
      assert rows == DropLast(rows) + [Last(rows)];
      if Last(rows).id == id then Some(Last(rows)) else Lookup(DropLast(rows), id)
  }

  function Reuse(current: seq<Row>, item: Row): (r: Row)
    ensures SameText(r, item) && (r == item || r in current)
  {
    var prior := Lookup(current, item.id);
    if prior.Some? && SameText(prior.value, item) then prior.value else item
  }

  function ReuseAll(current: seq<Row>, rows: seq<Row>): (r: seq<Row>)
    ensures |r| == |rows|
    ensures forall i :: 0 <= i < |r| ==> r[i] == Reuse(current, rows[i])
  {
    if rows == [] then [] else [Reuse(current, rows[0])] + ReuseAll(current, rows[1..])
  }

  /** The page first, then what the list held beyond it. */
  function ReconcileFirstPage(current: seq<Row>, page: seq<Row>): seq<Row>
  {
    ReuseAll(current, Unseen(page, {})) + Unseen(current, Ids(page))
  }

  lemma IdsPush(rows: seq<Row>, i: nat)
    requires i < |rows|
    ensures Ids(rows[..i + 1]) == Ids(rows[..i]) + {rows[i].id}
  {
    assert rows[..i + 1] == rows[..i] + [rows[i]];
  }

  method ReusePage(current: seq<Row>, page: seq<Row>) returns (reconciled: seq<Row>, seen: set<int>)
    ensures reconciled == ReuseAll(current, Unseen(page, {})) && seen == Ids(page)
  {
    seen, reconciled := {}, [];
    var i := 0;
    while i < |page|
      invariant 0 <= i <= |page|
      invariant seen == Ids(page[..i])
      invariant ReuseAll(current, Unseen(page, {})) == reconciled + ReuseAll(current, Unseen(page[i..], seen))
    {
      var item := page[i];
      UnseenTurn(page, i, seen);
      IdsPush(page, i);
      i := i + 1;
      if item.id in seen {
        continue;
      }
      assert ([item] + Unseen(page[i..], seen + {item.id}))[1..] == Unseen(page[i..], seen + {item.id});
      seen := seen + {item.id};
      reconciled := reconciled + [Reuse(current, item)];
    }
    assert page[..|page|] == page;
  }

  /** The two loops of the source. */
  method ReconcileOverviewFirstPage(current: seq<Row>, page: seq<Row>) returns (reconciled: seq<Row>)
    ensures reconciled == ReconcileFirstPage(current, page)
  {
    var seen: set<int>;
    reconciled, seen := ReusePage(current, page);
    var i := 0;
    while i < |current|
      invariant 0 <= i <= |current|
      invariant ReconcileFirstPage(current, page) == reconciled + Unseen(current[i..], seen)
    {
      var item := current[i];
      UnseenTurn(current, i, seen);
      i := i + 1;
      if item.id !in seen {
        seen := seen + {item.id};
        reconciled := reconciled + [item];
      }
    }
  }

  lemma {:induction false} ReuseAllRows(current: seq<Row>, rows: seq<Row>)
    ensures var r := ReuseAll(current, rows);
      && Ids(r) == Ids(rows) && (UniqueIds(rows) ==> UniqueIds(r))
      && forall x <- r :: x in rows || x in current
  {
    var r := ReuseAll(current, rows);
    forall i | 0 <= i < |rows| ensures r[i].id == rows[i].id && (r[i] in rows || r[i] in current) {
      assert r[i] == Reuse(current, rows[i]);
    }
    forall id | id in Ids(rows) ensures id in Ids(r) {
      var i :| 0 <= i < |rows| && rows[i].id == id;
      assert r[i].id == id;
    }
  }

  lemma ConcatUnique(a: seq<Row>, b: seq<Row>)
    requires UniqueIds(a) && UniqueIds(b) && Ids(a) !! Ids(b)
    ensures UniqueIds(a + b)
  {
    forall i, j | 0 <= i < j < |a + b| ensures (a + b)[i].id != (a + b)[j].id {
      if i < |a| <= j { assert a[i].id in Ids(a) && b[j - |a|].id in Ids(b); }
    }
  }

  lemma ReconcileFirstPageRows(current: seq<Row>, page: seq<Row>)
    ensures var r := ReconcileFirstPage(current, page);
      UniqueIds(r) && Ids(r) == Ids(page) + Ids(current) && forall x <- r :: x in page || x in current
  {
    var head, tail := Unseen(page, {}), Unseen(current, Ids(page));
    UnseenRows(page, {});
    UnseenRows(current, Ids(page));
    ReuseAllRows(current, head);
    ConcatUnique(ReuseAll(current, head), tail);
    assert Ids(ReuseAll(current, head) + tail) == Ids(ReuseAll(current, head)) + Ids(tail);
  }

  /** What the history refresh does to one row outside the first page. */
  function RefreshRow(item: Row, firstPage: set<int>, refreshed: seq<Row>, missing: set<int>): seq<Row>
  {
    if item.id in firstPage then [item]
    else match Lookup(refreshed, item.id)
      case Some(f) => if SameText(item, f) then [item] else [f]
      case None => if item.id in missing then [] else [item]
  }

  function RefreshRows(items: seq<Row>, firstPage: set<int>, refreshed: seq<Row>, missing: set<int>): seq<Row>
  {
    if items == [] then []
    else RefreshRow(items[0], firstPage, refreshed, missing) + RefreshRows(items[1..], firstPage, refreshed, missing)
  }

  function ReconcileRetained(current: seq<Row>, page: seq<Row>, refreshed: seq<Row>, missing: seq<int>): seq<Row>
  {
    RefreshRows(ReconcileFirstPage(current, page), Ids(page), refreshed, ToSet(missing))
  }

  lemma {:induction false} RefreshRowsRows(items: seq<Row>, firstPage: set<int>, refreshed: seq<Row>, missing: set<int>)
    requires UniqueIds(items)
    ensures var r := RefreshRows(items, firstPage, refreshed, missing);
      && UniqueIds(r)
      && Ids(r) == (set x | x in items && (x.id in firstPage || x.id in Ids(refreshed) || x.id !in missing) :: x.id)
      && forall x <- r :: x in items || x in refreshed
  {
    if items != [] {
      var head := RefreshRow(items[0], firstPage, refreshed, missing);
      var tail := RefreshRows(items[1..], firstPage, refreshed, missing);
      RefreshRowsRows(items[1..], firstPage, refreshed, missing);
      assert items == [items[0]] + items[1..];
      assert Ids(tail) <= Ids(items[1..]);
      forall x | x in items[1..] ensures x.id != items[0].id { }
      assert forall x <- head :: x.id == items[0].id;
      ConcatUnique(head, tail);
      assert Ids(head + tail) == Ids(head) + Ids(tail);
      var f := Lookup(refreshed, items[0].id);
      if f.Some? { assert f.value in refreshed; assert items[0].id in Ids(refreshed); }
      var keep := items[0].id in firstPage || items[0].id in Ids(refreshed) || items[0].id !in missing;
      assert keep ==> |head| == 1 && head[0].id == items[0].id;
      assert !keep ==> head == [];
      assert Ids(head) == if keep then {items[0].id} else {};
    }
  }

  /**
   * A history refresh never lists a workspace twice, keeps every loaded or
   * refreshed workspace, and drops exactly those reported missing.
   */
  lemma ReconcileRetainedRows(current: seq<Row>, page: seq<Row>, refreshed: seq<Row>, missing: seq<int>)
    ensures var r := ReconcileRetained(current, page, refreshed, missing);
      && UniqueIds(r)
      && (forall x <- r :: x in current || x in page || x in refreshed)
      && Ids(r) == set id | id in Ids(page) + Ids(current) && (id in Ids(page) || id in Ids(refreshed) || id !in missing) :: id
  {
    ReconcileFirstPageRows(current, page);
    var first := ReconcileFirstPage(current, page);
    RefreshRowsRows(first, Ids(page), refreshed, ToSet(missing));
    forall id | id in Ids(first) ensures exists x :: x in first && x.id == id { }
  }
}

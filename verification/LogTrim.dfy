/**
 * The bounded log buffer: the entry order, the per-stream trimmer and the
 * buffer trimmer shared by the inspector and the fullscreen log column.
 *
 * A stream identifier carries its collation rank, because the console compares
 * identifiers with a locale-aware comparison; two identifiers may share a rank.
 * Text is a sequence of UTF-16 code units. Every entry also carries a tag naming
 * the request that produced it; the trimmer never looks at it.
 */
module LogTrim {
  import opened Basics

  datatype StreamId = StreamId(name: nat, rank: int)

  datatype Tag =
    | TailRead(generation: nat, epoch: nat)                      // fullscreen column
    | InspectorRead(generation: nat, epoch: nat, visit: nat)
    | LiveFrame(epoch: nat)
    | ErrorRow

  /** `time` is the parsed timestamp, or None when the text does not parse. */
  datatype LogEntry = LogEntry(
    stream: StreamId, time: Option<int>, order: int, offset: int, live: bool, data: string, tag: Tag)

  const MAX_LOG_CHARS: nat := 180_000

  // ---------------------------------------------------------------- order

  /** Negative, zero or positive, like a JavaScript comparator. */
  function CompareLogEntries(a: LogEntry, b: LogEntry): int
  {
    if a.time.Some? && b.time.Some? && a.time.value != b.time.value then a.time.value - b.time.value
    else if a.order != b.order then a.order - b.order
    else if a.stream.rank != b.stream.rank then a.stream.rank - b.stream.rank
    else a.offset - b.offset
  }

  predicate Before(a: LogEntry, b: LogEntry) { CompareLogEntries(a, b) <= 0 }

  ghost predicate Ordered(es: seq<LogEntry>) {
    forall i, j :: 0 <= i < j < |es| ==> Before(es[i], es[j])
  }

  // ---------------------------------------------------------------- when the order is one

  /** The comparison left when a timestamp does not parse: order, collation rank, offset. */
  predicate FallsBack(a: LogEntry, b: LogEntry)
  {
    a.order < b.order
    || (a.order == b.order && (a.stream.rank < b.stream.rank
                               || (a.stream.rank == b.stream.rank && a.offset <= b.offset)))
  }

  /** Two timed entries whose times an untimed entry contradicts. */
  predicate Conflict(a: LogEntry, b: LogEntry, c: LogEntry)
  {
    && a.time.Some? && b.time.Some? && c.time.None?
    && a.time.value < b.time.value && FallsBack(b, c) && FallsBack(c, a)
  }

  ghost predicate Consistent(es: seq<LogEntry>) { forall a <- es, b <- es, c <- es :: !Conflict(a, b, c) }

  ghost predicate TransitiveOn(es: seq<LogEntry>)
  {
    forall a <- es, b <- es, c <- es :: Before(a, b) && Before(b, c) ==> Before(a, c)
  }

  lemma Chain(es: seq<LogEntry>, a: LogEntry, b: LogEntry, c: LogEntry)
    requires Consistent(es) && a in es && b in es && c in es && Before(a, b) && Before(b, c)
    ensures Before(a, c)
  {
    assert !Conflict(a, b, c) && !Conflict(b, c, a) && !Conflict(c, a, b);
  }

  /** The comparator is an order on a list exactly when no untimed entry contradicts its times. */
  lemma TransitiveIffConsistent(es: seq<LogEntry>)
    ensures TransitiveOn(es) <==> Consistent(es)
  {
    if Consistent(es) {
      forall a, b, c | a in es && b in es && c in es && Before(a, b) && Before(b, c) ensures Before(a, c) {
        Chain(es, a, b, c);
      }
    }
    if TransitiveOn(es) {
      forall a, b, c | a in es && b in es && c in es ensures !Conflict(a, b, c) {
        assert Before(b, c) && Before(c, a) ==> Before(b, a);
      }
    }
  }

  /** Times that agree with the stored order rule a conflict out, whatever else does not parse. */
  lemma OrderedByTimeIsConsistent(es: seq<LogEntry>)
    requires forall a <- es, b <- es ::
      a.time.Some? && b.time.Some? && a.time.value < b.time.value ==> a.order < b.order
    ensures Consistent(es)
  {
  }

  /** In particular, entries whose order is their time. */
  lemma StampedByTimeIsConsistent(es: seq<LogEntry>)
    requires forall e <- es :: e.time.Some? ==> e.order == e.time.value
    ensures Consistent(es)
  {
    OrderedByTimeIsConsistent(es);
  }

  /** `Date.parse(occurred_at) || Date.now()`: no timestamp, or the epoch itself, takes the clock. */
  function LiveOrder(time: Option<int>, now: int): int
  {
    if time.Some? && time.value != 0 then time.value else now
  }

  /** Entries as the console builds them: from one parsed time, with the clock as the fallback. */
  predicate BuiltAt(e: LogEntry, now: int) { e.order == LiveOrder(e.time, now) }

  /** Away from the epoch, entries so built are always consistent. */
  lemma BuiltEntriesAreConsistent(es: seq<LogEntry>, clock: LogEntry -> int)
    requires forall e <- es :: BuiltAt(e, clock(e)) && e.time != Some(0)
    ensures Consistent(es)
  {
    forall e | e in es && e.time.Some? ensures e.order == e.time.value { assert BuiltAt(e, clock(e)); }
    StampedByTimeIsConsistent(es);
  }

  /** A frame stamped with the epoch and an unparsable one make the order cyclic. */
  lemma EpochFrameIsCyclic()
    ensures exists a: LogEntry, b: LogEntry, c: LogEntry ::
      && a.time == Some(0) && b.time.Some? && c.time.None?
      && BuiltAt(a, 20) && BuiltAt(b, 20) && BuiltAt(c, 10)
      && CompareLogEntries(a, b) < 0 && CompareLogEntries(b, c) < 0 && CompareLogEntries(c, a) < 0
  {
    var s := StreamId(0, 0);
    var a := LogEntry(s, Some(0), 20, 0, true, "", LiveFrame(0));
    var b := LogEntry(s, Some(5), 5, 0, true, "", LiveFrame(0));
    var c := LogEntry(s, None, 10, 0, true, "", LiveFrame(0));
    assert CompareLogEntries(a, b) < 0 && CompareLogEntries(b, c) < 0 && CompareLogEntries(c, a) < 0;
  }

  /** Only times and fallback keys matter, so a list drawn from another inherits it. */
  lemma ConsistentDrawn(es: seq<LogEntry>, r: seq<LogEntry>)
    requires Consistent(es)
    requires forall k <- r :: exists o :: o in es && k == o.(data := k.data)
    ensures Consistent(r)
  {
    forall a, b, c | a in r && b in r && c in r ensures !Conflict(a, b, c) {
      var a0 :| a0 in es && a == a0.(data := a.data);
      var b0 :| b0 in es && b == b0.(data := b.data);
      var c0 :| c0 in es && c == c0.(data := c.data);
      assert !Conflict(a0, b0, c0);
    }
  }

  lemma ConsistentPart(es: seq<LogEntry>, r: seq<LogEntry>)
    requires Consistent(es) && forall k <- r :: k in es
    ensures Consistent(r)
  {
  }

  // ---------------------------------------------------------------- stable sort

  /** Insert after every entry that does not sort strictly later. */
  function Insert(es: seq<LogEntry>, e: LogEntry): (r: seq<LogEntry>)
  {
    if es == [] || Before(Last(es), e) then es + [e]
    else Insert(DropLast(es), e) + [Last(es)]
  }

  /** `[...entries].sort(compareLogEntries)`, which is a stable sort. */
  function Sort(es: seq<LogEntry>): (r: seq<LogEntry>)
  {
    if es == [] then [] else Insert(Sort(DropLast(es)), Last(es))
  }

  lemma {:induction false} InsertPermutes(es: seq<LogEntry>, e: LogEntry)
    ensures multiset(Insert(es, e)) == multiset(es) + multiset{e}
  {
    if es != [] && !Before(Last(es), e) {
      InsertPermutes(DropLast(es), e);
      assert es == DropLast(es) + [Last(es)];
    }
  }

  lemma {:induction false} SortPermutes(es: seq<LogEntry>)
    ensures multiset(Sort(es)) == multiset(es)
    ensures forall e: LogEntry :: e in Sort(es) <==> e in es
  {
    if es != [] {
      SortPermutes(DropLast(es));
      InsertPermutes(Sort(DropLast(es)), Last(es));
      assert es == DropLast(es) + [Last(es)];
    }
    SameMembers(Sort(es), es);
  }

  lemma SameMembers(a: seq<LogEntry>, b: seq<LogEntry>)
    requires multiset(a) == multiset(b)
    ensures forall e: LogEntry :: e in a <==> e in b
  {
    forall e: LogEntry ensures e in a <==> e in b {
      assert e in a <==> e in multiset(a);
      assert e in b <==> e in multiset(b);
    }
  }

  lemma {:induction false} InsertOrdered(es: seq<LogEntry>, e: LogEntry)
    requires Consistent(es + [e]) && Ordered(es)
    ensures Ordered(Insert(es, e))
  {
    if es == [] {
    } else if Before(Last(es), e) {
      forall i | 0 <= i < |es| ensures Before(es[i], e) {
        if i < |es| - 1 { Chain(es + [e], es[i], Last(es), e); }
      }
    } else {
      var rest := DropLast(es);
      ConsistentPart(es + [e], rest + [e]);
      InsertOrdered(rest, e);
      InsertPermutes(rest, e);
      var r := Insert(rest, e);
      assert es == rest + [Last(es)];
      forall i | 0 <= i < |r| ensures Before(r[i], Last(es)) {
        assert r[i] in multiset(r);
        assert r[i] in rest || r[i] == e;
      }
    }
  }

  lemma {:induction false} SortOrdered(es: seq<LogEntry>)
    requires Consistent(es)
    ensures Ordered(Sort(es)) && Consistent(Sort(es))
  {
    SortPermutes(es);
    ConsistentPart(es, Sort(es));
    if es != [] {
      var rest := DropLast(es);
      assert es == rest + [Last(es)];
      SortPermutes(rest);
      ConsistentPart(es, rest);
      SortOrdered(rest);
      ConsistentPart(es, Sort(rest) + [Last(es)]);
      InsertOrdered(Sort(rest), Last(es));
    }
  }

  // ---------------------------------------------------------------- the condition is exact

  /** `b` stands somewhere before `a`. */
  ghost predicate Precedes(es: seq<LogEntry>, b: LogEntry, a: LogEntry)
  {
    exists i, j :: 0 <= i < j < |es| && es[i] == b && es[j] == a
  }

  lemma {:induction false} InsertKeepsPlaces(es: seq<LogEntry>, e: LogEntry, b: LogEntry, a: LogEntry)
    requires Precedes(es, b, a)
    ensures Precedes(Insert(es, e), b, a)
  {
    var i, j :| 0 <= i < j < |es| && es[i] == b && es[j] == a;
    if Before(Last(es), e) {
      assert Insert(es, e)[i] == b && Insert(es, e)[j] == a;
    } else {
      var rest, r := DropLast(es), Insert(DropLast(es), e);
      InsertPermutes(rest, e);
      if j < |rest| {
        assert rest[i] == b && rest[j] == a;
        InsertKeepsPlaces(rest, e, b, a);
        var k, l :| 0 <= k < l < |r| && r[k] == b && r[l] == a;
        assert (r + [Last(es)])[k] == b && (r + [Last(es)])[l] == a;
      } else {
        assert b in rest && b in multiset(rest) && b in multiset(r);
        var k :| 0 <= k < |r| && r[k] == b;
        assert (r + [Last(es)])[k] == b && (r + [Last(es)])[|r|] == a;
      }
    }
  }

  lemma {:induction false} SortKeepsPlaces(first: seq<LogEntry>, more: seq<LogEntry>, b: LogEntry, a: LogEntry)
    requires Precedes(Sort(first), b, a)
    ensures Precedes(Sort(first + more), b, a)
    decreases |more|
  {
    if more == [] {
      assert first + more == first;
    } else {
      SortKeepsPlaces(first, DropLast(more), b, a);
      var all := first + more;
      assert DropLast(all) == first + DropLast(more) && Last(all) == Last(more);
      InsertKeepsPlaces(Sort(first + DropLast(more)), Last(more), b, a);
    }
  }

  /** The rest of a list after one entry is taken out. */
  lemma {:induction false} TakeOut(es: seq<LogEntry>, e: LogEntry) returns (rest: seq<LogEntry>)
    requires e in es
    ensures multiset(es) == multiset(rest) + multiset{e}
    ensures forall x <- es :: x == e || x in rest
  {
    assert es == DropLast(es) + [Last(es)];
    if Last(es) == e {
      rest := DropLast(es);
    } else {
      rest := TakeOut(DropLast(es), e);
      rest := rest + [Last(es)];
    }
  }

  lemma BringForward(es: seq<LogEntry>, a: LogEntry, b: LogEntry, c: LogEntry) returns (rest: seq<LogEntry>)
    requires a in es && b in es && c in es && a != b && b != c && a != c
    ensures multiset([b, c, a] + rest) == multiset(es)
  {
    rest := TakeOut(es, b);
    rest := TakeOut(rest, c);
    rest := TakeOut(rest, a);
  }

  lemma SortThree(x: LogEntry, y: LogEntry, z: LogEntry)
    requires Before(x, y) && Before(y, z)
    ensures Sort([x, y, z]) == [x, y, z]
  {
    SortSnoc([], x);
    SortSnoc([x], y);
    SortSnoc([x, y], z);
    assert [] + [x] == [x] && [x] + [y] == [x, y] && [x, y] + [z] == [x, y, z];
    InsertAtEnd([], x);
    InsertAtEnd([x], y);
    InsertAtEnd([x, y], z);
  }

  lemma SortSnoc(es: seq<LogEntry>, e: LogEntry)
    ensures Sort(es + [e]) == Insert(Sort(es), e)
  {
    assert DropLast(es + [e]) == es && Last(es + [e]) == e;
  }

  /** A conflict makes some arrangement of the same entries sort wrongly. */
  lemma ConflictMisSorts(es: seq<LogEntry>, a: LogEntry, b: LogEntry, c: LogEntry) returns (arranged: seq<LogEntry>)
    requires a in es && b in es && c in es && Conflict(a, b, c)
    ensures multiset(arranged) == multiset(es) && !Ordered(Sort(arranged))
  {
    var rest := BringForward(es, a, b, c);
    var first := [b, c, a];
    arranged := first + rest;
    SortThree(b, c, a);
    assert Sort(first)[0] == b && Sort(first)[2] == a;
    SortKeepsPlaces(first, rest, b, a);
    var i, j :| 0 <= i < j < |Sort(arranged)| && Sort(arranged)[i] == b && Sort(arranged)[j] == a;
    assert !Before(b, a);
  }

  /**
   * Exactly the consistent buffers sort: every arrangement of the same entries
   * comes out ordered if and only if no untimed entry contradicts two times.
   */
  lemma SortsEveryArrangementIff(es: seq<LogEntry>)
    ensures Consistent(es) <==>
      forall arranged: seq<LogEntry> :: multiset(arranged) == multiset(es) ==> Ordered(Sort(arranged))
  {
    if Consistent(es) {
      forall arranged: seq<LogEntry> | multiset(arranged) == multiset(es) ensures Ordered(Sort(arranged)) {
        forall k | k in arranged ensures k in es { assert k in multiset(arranged); }
        ConsistentPart(es, arranged);
        SortOrdered(arranged);
      }
    } else {
      var a, b, c :| a in es && b in es && c in es && Conflict(a, b, c);
      var arranged := ConflictMisSorts(es, a, b, c);
    }
  }

  lemma {:induction false} SortKeepsOrdered(es: seq<LogEntry>)
    requires Ordered(es)
    ensures Sort(es) == es
  {
    if es != [] {
      var rest, last := DropLast(es), Last(es);
      SortKeepsOrdered(rest);
      InsertAtEnd(rest, last);
      assert es == rest + [last];
    }
  }

  lemma InsertAtEnd(es: seq<LogEntry>, e: LogEntry)
    requires es == [] || Before(Last(es), e)
    ensures Insert(es, e) == es + [e]
  {
  }

  // ---------------------------------------------------------------- selection

  function Keep(es: seq<LogEntry>, selected: set<StreamId>, want: bool): (r: seq<LogEntry>)
  {
    if es == [] then []
    else
      var rest := Keep(DropLast(es), selected, want);
      if (Last(es).stream in selected) == want then rest + [Last(es)] else rest
  }

  lemma {:induction false} KeepMembers(es: seq<LogEntry>, selected: set<StreamId>, want: bool)
    ensures forall e: LogEntry :: e in Keep(es, selected, want) <==> e in es && (e.stream in selected) == want
  {
    if es != [] {
      KeepMembers(DropLast(es), selected, want);
      assert es == DropLast(es) + [Last(es)];
    }
  }

  lemma {:induction false} KeepConcat(a: seq<LogEntry>, b: seq<LogEntry>, selected: set<StreamId>, want: bool)
    ensures Keep(a + b, selected, want) == Keep(a, selected, want) + Keep(b, selected, want)
  {
    if b == [] {
      assert a + b == a;
    } else {
      KeepConcat(a, DropLast(b), selected, want);
      assert DropLast(a + b) == a + DropLast(b) && Last(a + b) == Last(b);
    }
  }

  lemma {:induction false} KeepAllOrNothing(es: seq<LogEntry>, selected: set<StreamId>, want: bool)
    requires forall e <- es :: (e.stream in selected) == want
    ensures Keep(es, selected, want) == es && Keep(es, selected, !want) == []
  {
    if es != [] {
      KeepAllOrNothing(DropLast(es), selected, want);
      assert es == DropLast(es) + [Last(es)];
    }
  }

  lemma {:induction false} KeepInsert(es: seq<LogEntry>, e: LogEntry, selected: set<StreamId>, want: bool)
    requires Consistent(es + [e]) && Ordered(es)
    ensures Keep(Insert(es, e), selected, want)
         == if (e.stream in selected) == want then Insert(Keep(es, selected, want), e) else Keep(es, selected, want)
  {
    if es == [] {
      KeepOne(es, e, selected, want);
    } else if Before(Last(es), e) {
      KeepOne(es, e, selected, want);
      var kept := Keep(es, selected, want);
      if kept != [] {
        KeepMembers(es, selected, want);
        assert Last(kept) in es;
        var i :| 0 <= i < |es| && es[i] == Last(kept);
        if i < |es| - 1 { Chain(es + [e], es[i], Last(es), e); }
      }
    } else {
      var rest := DropLast(es);
      ConsistentPart(es + [e], rest + [e]);
      KeepInsert(rest, e, selected, want);
      KeepOne(Insert(rest, e), Last(es), selected, want);
      var kept := Keep(rest, selected, want);
      assert DropLast(kept + [Last(es)]) == kept;
    }
  }

  lemma KeepOne(es: seq<LogEntry>, e: LogEntry, selected: set<StreamId>, want: bool)
    ensures Keep(es + [e], selected, want)
         == Keep(es, selected, want) + if (e.stream in selected) == want then [e] else []
  {
    assert DropLast(es + [e]) == es;
  }

  /** Stability: selecting from the sorted buffer is sorting the selection. */
  lemma {:induction false} KeepSort(es: seq<LogEntry>, selected: set<StreamId>, want: bool)
    requires Consistent(es)
    ensures Keep(Sort(es), selected, want) == Sort(Keep(es, selected, want))
  {
    if es != [] {
      var rest := DropLast(es);
      assert es == rest + [Last(es)];
      ConsistentPart(es, rest);
      KeepSort(rest, selected, want);
      SortOrdered(rest);
      SortPermutes(rest);
      ConsistentPart(es, Sort(rest) + [Last(es)]);
      KeepInsert(Sort(rest), Last(es), selected, want);
      var kept := Keep(rest, selected, want);
      assert DropLast(kept + [Last(es)]) == kept;
    }
  }

  // ---------------------------------------------------------------- trimming one list

  function Text(es: seq<LogEntry>): string
  {
    if es == [] then "" else Text(DropLast(es)) + Last(es).data
  }

  /** The last `n` characters, or the whole text when it is shorter. */
  function Suffix(text: string, n: int): string
  {
    if n <= 0 then "" else if |text| <= n then text else text[|text| - n..]
  }

  /** What the backward loop keeps: whole entries, then one entry cut to fit. */
  function TrimStream(es: seq<LogEntry>, capacity: int): seq<LogEntry>
  {
    if capacity <= 0 || es == [] then []
    else if |Last(es).data| <= capacity then
      TrimStream(DropLast(es), capacity - |Last(es).data|) + [Last(es)]
    else
      [Last(es).(data := Suffix(Last(es).data, capacity))]
  }

  /** One turn of the loop: the entry moves whole, or cut, to the front of what is kept. */
  lemma TrimStreamTurn(es: seq<LogEntry>, n: nat, capacity: int, tail: seq<LogEntry>)
    requires n < |es| && capacity > 0
    ensures TrimStream(es[..n + 1], capacity) + tail
         == if |es[n].data| <= capacity then TrimStream(es[..n], capacity - |es[n].data|) + ([es[n]] + tail)
            else [es[n].(data := Suffix(es[n].data, capacity))] + tail
  {
    assert DropLast(es[..n + 1]) == es[..n] && Last(es[..n + 1]) == es[n];
    if |es[n].data| <= capacity {
      var rest := TrimStream(es[..n], capacity - |es[n].data|);
      assert (rest + [es[n]]) + tail == rest + ([es[n]] + tail);
    }
  }

  /** What the loop holds: `reversed` newest first, `used` its characters, the rest still to visit. */
  ghost predicate Trimming(es: seq<LogEntry>, capacity: int, n: nat, reversed: seq<LogEntry>, used: nat)
    requires n <= |es|
  {
    && used <= capacity && used == Chars(Reverse(reversed))
    && TrimStream(es, capacity) == TrimStream(es[..n], capacity - used) + Reverse(reversed)
  }

  lemma TrimmingTakes(es: seq<LogEntry>, capacity: int, n: nat, reversed: seq<LogEntry>, used: nat)
    requires n < |es| && used < capacity && Trimming(es, capacity, n + 1, reversed, used)
    requires |es[n].data| <= capacity - used
    ensures Trimming(es, capacity, n, reversed + [es[n]], used + |es[n].data|)
  {
    var left, after := capacity - used, capacity - (used + |es[n].data|);
    assert after == left - |es[n].data|;
    TrimStreamTurn(es, n, left, Reverse(reversed));
    ReversePush(reversed, es[n]);
  }

  lemma TrimmingCuts(es: seq<LogEntry>, capacity: int, n: nat, reversed: seq<LogEntry>, used: nat, cut: LogEntry)
    requires n < |es| && used < capacity && Trimming(es, capacity, n + 1, reversed, used)
    requires |es[n].data| > capacity - used && cut == es[n].(data := Suffix(es[n].data, capacity - used))
    ensures TrimStream(es, capacity) == Reverse(reversed + [cut])
    ensures Chars(Reverse(reversed + [cut])) == capacity
  {
    TrimStreamTurn(es, n, capacity - used, Reverse(reversed));
    ReversePush(reversed, cut);
    assert |cut.data| == capacity - used;
  }

  /** Nothing is left to keep once the capacity or the entries are used up. */
  lemma TrimmingDone(es: seq<LogEntry>, capacity: int, n: nat, reversed: seq<LogEntry>, used: nat)
    requires n <= |es| && Trimming(es, capacity, n, reversed, used) && (n == 0 || used == capacity)
    ensures TrimStream(es, capacity) == Reverse(reversed) && used == Chars(Reverse(reversed))
  {
    assert TrimStream(es[..n], capacity - used) == [];
  }

  lemma TrimmingStarts(es: seq<LogEntry>, capacity: int)
    requires capacity >= 0
    ensures Trimming(es, capacity, |es|, [], 0)
  {
    assert es[..|es|] == es;
  }

  /** The loop of the source: newest entry first, then one reversal. */
  method TrimStreamEntries(entries: seq<LogEntry>, capacity: int) returns (kept: seq<LogEntry>, used: nat)
    ensures kept == TrimStream(entries, capacity) && used == Chars(kept)
  {
    var reversed: seq<LogEntry> := [];
    used := 0;
    if capacity <= 0 {
      return [], 0;
    }
    var n := |entries|;
    TrimmingStarts(entries, capacity);
    while n > 0 && used < capacity
      invariant 0 <= n <= |entries|
      invariant Trimming(entries, capacity, n, reversed, used)
    {
      n := n - 1;
      var entry := entries[n];
      var remaining := capacity - used;
      if |entry.data| <= remaining {
        TrimmingTakes(entries, capacity, n, reversed, used);
        reversed := reversed + [entry];
        used := used + |entry.data|;
        continue;
      }
      var cut := entry.(data := Suffix(entry.data, remaining));
      TrimmingCuts(entries, capacity, n, reversed, used, cut);
      return Reverse(reversed + [cut]), used + remaining;
    }
    TrimmingDone(entries, capacity, n, reversed, used);
    kept := Reverse(reversed);
  }

  function Reverse(es: seq<LogEntry>): (r: seq<LogEntry>)
  {
    if es == [] then [] else [Last(es)] + Reverse(DropLast(es))
  }

  function Chars(es: seq<LogEntry>): nat
  {
    if es == [] then 0 else Chars(es[1..]) + |es[0].data|
  }

  lemma ReversePush(es: seq<LogEntry>, e: LogEntry)
    ensures Reverse(es + [e]) == [e] + Reverse(es)
    ensures Chars([e] + Reverse(es)) == |e.data| + Chars(Reverse(es))
  {
    assert DropLast(es + [e]) == es;
    assert ([e] + Reverse(es))[1..] == Reverse(es);
  }

  /** The running count of the loop is the length of the kept text. */
  lemma {:induction false} CharsCountText(es: seq<LogEntry>)
    ensures Chars(es) == |Text(es)|
  {
    if es != [] {
      CharsCountText(es[1..]);
      TextConcat([es[0]], es[1..]);
      assert [es[0]] + es[1..] == es;
      assert DropLast([es[0]]) == [];
    }
  }

  lemma {:induction false} TextConcat(a: seq<LogEntry>, b: seq<LogEntry>)
    ensures Text(a + b) == Text(a) + Text(b)
  {
    if b == [] {
      assert a + b == a;
    } else {
      var rest := DropLast(b);
      TextConcat(a, rest);
      assert DropLast(a + b) == a + rest && Last(a + b) == Last(b);
      calc {
        Text(a + b);
        Text(a + rest) + Last(b).data;
        (Text(a) + Text(rest)) + Last(b).data;
        Text(a) + (Text(rest) + Last(b).data);
      }
    }
  }

  lemma SuffixConcat(a: string, b: string, n: int)
    requires n > 0
    ensures Suffix(a + b, n) == if |b| <= n then Suffix(a, n - |b|) + b else Suffix(b, n)
  {
  }

  lemma {:induction false} TrimStreamText(es: seq<LogEntry>, capacity: int)
    ensures Text(TrimStream(es, capacity)) == Suffix(Text(es), capacity)
  {
    if capacity > 0 && es != [] {
      var last := Last(es);
      SuffixConcat(Text(DropLast(es)), last.data, capacity);
      if |last.data| <= capacity {
        var rest := TrimStream(DropLast(es), capacity - |last.data|);
        TrimStreamText(DropLast(es), capacity - |last.data|);
        assert DropLast(rest + [last]) == rest;
      } else {
        var cut := last.(data := Suffix(last.data, capacity));
        assert DropLast([cut]) == [];
      }
    }
  }

  lemma TrimStreamSnoc(es: seq<LogEntry>, e: LogEntry, capacity: int)
    requires capacity > 0 && |e.data| <= capacity
    ensures TrimStream(es + [e], capacity) == TrimStream(es, capacity - |e.data|) + [e]
  {
    assert DropLast(es + [e]) == es && Last(es + [e]) == e;
  }

  lemma {:induction false} TrimStreamIdempotent(es: seq<LogEntry>, capacity: int)
    ensures TrimStream(TrimStream(es, capacity), capacity) == TrimStream(es, capacity)
  {
    if capacity > 0 && es != [] {
      var last := Last(es);
      if |last.data| <= capacity {
        TrimStreamIdempotent(DropLast(es), capacity - |last.data|);
        TrimStreamSnoc(TrimStream(DropLast(es), capacity - |last.data|), last, capacity);
      } else {
        var cut := last.(data := Suffix(last.data, capacity));
        assert TrimStream([], 0) == [] && [] + [cut] == [cut];
        TrimStreamSnoc([], cut, capacity);
      }
    }
  }

  // ---------------------------------------------------------------- provenance

  /** `kept` is `original`, possibly with its oldest characters cut away. */
  predicate CutOf(kept: LogEntry, original: LogEntry)
  {
    && kept == original.(data := kept.data)
    && |kept.data| <= |original.data|
    && kept.data == original.data[|original.data| - |kept.data|..]
  }

  lemma {:induction false} TrimStreamProvenance(es: seq<LogEntry>, capacity: int, k: LogEntry) returns (o: LogEntry)
    requires k in TrimStream(es, capacity)
    ensures o in es && CutOf(k, o)
  {
    var last := Last(es);
    if |last.data| <= capacity && k != last {
      o := TrimStreamProvenance(DropLast(es), capacity - |last.data|, k);
    } else {
      o := last;
    }
  }

  lemma {:induction false} TrimStreamOrdered(es: seq<LogEntry>, capacity: int)
    requires Ordered(es)
    ensures Ordered(TrimStream(es, capacity))
  {
    if capacity > 0 && es != [] && |Last(es).data| <= capacity {
      var last := Last(es);
      var rest := TrimStream(DropLast(es), capacity - |last.data|);
      TrimStreamOrdered(DropLast(es), capacity - |last.data|);
      forall i | 0 <= i < |rest| ensures Before(rest[i], last) {
        var o := TrimStreamProvenance(DropLast(es), capacity - |last.data|, rest[i]);
        assert CutOf(rest[i], o);
      }
    }
  }

  // ---------------------------------------------------------------- trimming the buffer

  function TrimLogEntries(entries: seq<LogEntry>, selected: seq<StreamId>): seq<LogEntry>
  {
    if selected == [] then TrimStream(Sort(entries), MAX_LOG_CHARS)
    else Sort(TrimmedSelected(entries, selected) + TrimmedUnselected(entries, selected))
  }

  function TrimmedSelected(entries: seq<LogEntry>, selected: seq<StreamId>): seq<LogEntry>
  {
    TrimStream(Keep(Sort(entries), ToSet(selected), true), MAX_LOG_CHARS)
  }

  function TrimmedUnselected(entries: seq<LogEntry>, selected: seq<StreamId>): seq<LogEntry>
  {
    TrimStream(Keep(Sort(entries), ToSet(selected), false),
               Max(0, MAX_LOG_CHARS - |Text(TrimmedSelected(entries, selected))|))
  }

  /** The running count of the selected half fixes what the other half may keep. */
  lemma UnselectedShare(entries: seq<LogEntry>, selected: seq<StreamId>, used: nat)
    requires used == Chars(TrimmedSelected(entries, selected))
    ensures TrimmedUnselected(entries, selected)
         == TrimStream(Keep(Sort(entries), ToSet(selected), false), Max(0, MAX_LOG_CHARS - used))
  {
    CharsCountText(TrimmedSelected(entries, selected));
  }

  /** Selected text first; the rest gets what is left. */
  method TrimHalves(entries: seq<LogEntry>, selected: seq<StreamId>, ordered: seq<LogEntry>)
    returns (keptSelected: seq<LogEntry>, keptOther: seq<LogEntry>)
    requires ordered == Sort(entries)
    ensures keptSelected == TrimmedSelected(entries, selected)
    ensures keptOther == TrimmedUnselected(entries, selected)
  {
    var ids := ToSet(selected);
    var usedSelected, usedOther: nat;
    keptSelected, usedSelected := TrimStreamEntries(Keep(ordered, ids, true), MAX_LOG_CHARS);
    keptOther, usedOther := TrimStreamEntries(Keep(ordered, ids, false), Max(0, MAX_LOG_CHARS - usedSelected));
    UnselectedShare(entries, selected, usedSelected);
  }

  method Trim(entries: seq<LogEntry>, selected: seq<StreamId>) returns (r: seq<LogEntry>)
    ensures r == TrimLogEntries(entries, selected)
  {
    var ordered := Sort(entries);
    if |selected| == 0 {
      var used: nat;
      r, used := TrimStreamEntries(ordered, MAX_LOG_CHARS);
      return;
    }
    var keptSelected, keptOther := TrimHalves(entries, selected, ordered);
    r := Sort(keptSelected + keptOther);
  }

  /** Every buffered entry is an entry that was offered, cut at most at its start. */
  lemma TrimProvenance(entries: seq<LogEntry>, selected: seq<StreamId>, k: LogEntry) returns (o: LogEntry)
    requires k in TrimLogEntries(entries, selected)
    ensures o in entries && CutOf(k, o)
  {
    var ordered := Sort(entries);
    SortPermutes(entries);
    var a, b := TrimmedSelected(entries, selected), TrimmedUnselected(entries, selected);
    if selected == [] {
      o := TrimStreamProvenance(ordered, MAX_LOG_CHARS, k);
    } else {
      SortPermutes(a + b);
      KeepMembers(ordered, ToSet(selected), true);
      KeepMembers(ordered, ToSet(selected), false);
      if k in a {
        o := TrimStreamProvenance(Keep(ordered, ToSet(selected), true), MAX_LOG_CHARS, k);
      } else {
        o := TrimStreamProvenance(Keep(ordered, ToSet(selected), false),
                                  Max(0, MAX_LOG_CHARS - |Text(a)|), k);
      }
    }
  }

  /** The two halves of a trimmed buffer are recovered by selecting from it. */
  lemma TrimSplits(entries: seq<LogEntry>, selected: seq<StreamId>)
    requires Consistent(entries) && selected != []
    ensures var r := TrimLogEntries(entries, selected);
      && Ordered(r) && Consistent(r)
      && Keep(r, ToSet(selected), true) == TrimmedSelected(entries, selected)
      && Keep(r, ToSet(selected), false) == TrimmedUnselected(entries, selected)
  {
    var ids := ToSet(selected);
    var ordered := Sort(entries);
    var a, b := TrimmedSelected(entries, selected), TrimmedUnselected(entries, selected);
    TrimHalf(entries, ids, true, MAX_LOG_CHARS);
    TrimHalf(entries, ids, false, Max(0, MAX_LOG_CHARS - |Text(a)|));
    TrimConsistent(entries, selected);
    SortOrdered(a + b);
    KeepAllOrNothing(a, ids, true);
    KeepAllOrNothing(b, ids, false);
    KeepConcat(a, b, ids, true);
    KeepConcat(a, b, ids, false);
    assert a + [] == a && [] + b == b;
    KeepSort(a + b, ids, true);
    KeepSort(a + b, ids, false);
    SortKeepsOrdered(a);
    SortKeepsOrdered(b);
  }

  lemma TrimHalf(entries: seq<LogEntry>, ids: set<StreamId>, want: bool, capacity: int)
    requires Consistent(entries)
    ensures var h := TrimStream(Keep(Sort(entries), ids, want), capacity);
      Ordered(h) && forall e <- h :: (e.stream in ids) == want
  {
    KeepSort(entries, ids, want);
    KeepMembers(entries, ids, want);
    KeepMembers(Sort(entries), ids, want);
    ConsistentPart(entries, Keep(entries, ids, want));
    var half := Keep(Sort(entries), ids, want);
    SortOrdered(Keep(entries, ids, want));
    TrimStreamOrdered(half, capacity);
    forall e | e in TrimStream(half, capacity) ensures (e.stream in ids) == want {
      var o := TrimStreamProvenance(half, capacity, e);
    }
  }

  /** Trimming adds no conflict. */
  lemma TrimConsistent(entries: seq<LogEntry>, selected: seq<StreamId>)
    requires Consistent(entries) && selected != []
    ensures Consistent(TrimmedSelected(entries, selected) + TrimmedUnselected(entries, selected))
  {
    var halves := TrimmedSelected(entries, selected) + TrimmedUnselected(entries, selected);
    SortPermutes(halves);
    forall k | k in halves ensures exists o :: o in entries && k == o.(data := k.data) {
      assert k in TrimLogEntries(entries, selected);
      var o := TrimProvenance(entries, selected, k);
    }
    ConsistentDrawn(entries, halves);
  }

  /**
   * The buffer's contract. Selected text is the longest fitting suffix of all
   * selected text in sort order, unselected text the longest fitting suffix
   * within what is left, and the buffer stays sorted.
   */
  lemma TrimKeepsLongestSuffixes(entries: seq<LogEntry>, selected: seq<StreamId>)
    requires Consistent(entries) && selected != []
    ensures var r, ids, ordered := TrimLogEntries(entries, selected), ToSet(selected), Sort(entries);
      var kept := Text(Keep(r, ids, true));
      && Ordered(r)
      && kept == Suffix(Text(Keep(ordered, ids, true)), MAX_LOG_CHARS)
      && Text(Keep(r, ids, false)) == Suffix(Text(Keep(ordered, ids, false)), MAX_LOG_CHARS - |kept|)
  {
    TrimSplits(entries, selected);
    SelectedText(entries, selected);
    UnselectedText(entries, selected);
  }

  lemma SelectedText(entries: seq<LogEntry>, selected: seq<StreamId>)
    ensures Text(TrimmedSelected(entries, selected))
         == Suffix(Text(Keep(Sort(entries), ToSet(selected), true)), MAX_LOG_CHARS)
  {
    TrimStreamText(Keep(Sort(entries), ToSet(selected), true), MAX_LOG_CHARS);
  }

  lemma UnselectedText(entries: seq<LogEntry>, selected: seq<StreamId>)
    ensures Text(TrimmedUnselected(entries, selected))
         == Suffix(Text(Keep(Sort(entries), ToSet(selected), false)),
                   MAX_LOG_CHARS - |Text(TrimmedSelected(entries, selected))|)
  {
    TrimStreamText(Keep(Sort(entries), ToSet(selected), false),
                   Max(0, MAX_LOG_CHARS - |Text(TrimmedSelected(entries, selected))|));
  }

  /** With no selection the whole buffer competes for the cap. */
  lemma TrimWithoutSelection(entries: seq<LogEntry>)
    requires Consistent(entries)
    ensures var r := TrimLogEntries(entries, []);
      Ordered(r) && Text(r) == Suffix(Text(Sort(entries)), MAX_LOG_CHARS)
  {
    SortOrdered(entries);
    TrimStreamText(Sort(entries), MAX_LOG_CHARS);
    TrimStreamOrdered(Sort(entries), MAX_LOG_CHARS);
  }

  function TextLength(es: seq<LogEntry>): nat { |Text(es)| }

  lemma {:induction false} InsertTextLength(es: seq<LogEntry>, e: LogEntry)
    ensures TextLength(Insert(es, e)) == TextLength(es) + |e.data|
  {
    if es == [] || Before(Last(es), e) {
      TextConcat(es, [e]);
      assert DropLast([e]) == [];
    } else {
      InsertTextLength(DropLast(es), e);
      TextConcat(Insert(DropLast(es), e), [Last(es)]);
      assert DropLast([Last(es)]) == [];
    }
  }

  lemma {:induction false} SortTextLength(es: seq<LogEntry>)
    ensures TextLength(Sort(es)) == TextLength(es)
  {
    if es != [] {
      SortTextLength(DropLast(es));
      InsertTextLength(Sort(DropLast(es)), Last(es));
    }
  }

  /** The cap holds for every input, sorted or not, timed or not. */
  lemma TrimStaysUnderCap(entries: seq<LogEntry>, selected: seq<StreamId>)
    ensures TextLength(TrimLogEntries(entries, selected)) <= MAX_LOG_CHARS
  {
    var ordered := Sort(entries);
    var ids := ToSet(selected);
    TrimStreamText(ordered, MAX_LOG_CHARS);
    TrimStreamText(Keep(ordered, ids, true), MAX_LOG_CHARS);
    var a, b := TrimmedSelected(entries, selected), TrimmedUnselected(entries, selected);
    TrimStreamText(Keep(ordered, ids, false), Max(0, MAX_LOG_CHARS - |Text(a)|));
    SortTextLength(a + b);
    TextConcat(a, b);
  }

  /** Trimming twice is trimming once. */
  lemma TrimIdempotent(entries: seq<LogEntry>, selected: seq<StreamId>)
    requires Consistent(entries)
    ensures TrimLogEntries(TrimLogEntries(entries, selected), selected) == TrimLogEntries(entries, selected)
  {
    var r := TrimLogEntries(entries, selected);
    if selected == [] {
      TrimWithoutSelection(entries);
      SortKeepsOrdered(r);
      TrimStreamIdempotent(Sort(entries), MAX_LOG_CHARS);
    } else {
      var ids := ToSet(selected);
      TrimSplits(entries, selected);
      SortKeepsOrdered(r);
      var ordered := Sort(entries);
      TrimStreamIdempotent(Keep(ordered, ids, true), MAX_LOG_CHARS);
      assert TrimmedSelected(r, selected) == TrimmedSelected(entries, selected);
      var left := Max(0, MAX_LOG_CHARS - |Text(TrimmedSelected(entries, selected))|);
      TrimStreamIdempotent(Keep(ordered, ids, false), left);
    }
  }
}

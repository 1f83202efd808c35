// Abstract commit log: everything ever appended, the offset at which every segment
// started, and the index of the oldest segment still held.
module LogModel {
  import opened Types

  function Bytes(s: seq<Publish>): nat {
    if s == [] then 0 else Bytes(s[..|s| - 1]) + Size(s[|s| - 1])
  }

  // Index of the segment that holds an offset, given where the segments start.
  function SegOf(starts: seq<nat>, offset: nat): nat {
    if |starts| <= 1 then 0
    else if starts[|starts| - 1] <= offset then |starts| - 1
    else SegOf(starts[..|starts| - 1], offset)
  }

  datatype ReadResult = ReadResult(entries: seq<(Publish, Cursor)>, start: Cursor, end: Cursor, done: bool)

  datatype Log = Log(
    maxSize: nat,
    maxSegments: nat,
    history: seq<Publish>,
    starts: seq<nat>,
    head: nat)
  {
    // Segments are numbered from 0; segment k covers offsets [starts[k], SegEnd(k)).
    predicate WellFormed() {
      && starts != []
      && head < |starts|
      && starts[0] == 0
      && (forall i, j :: 0 <= i < j < |starts| ==> starts[i] < starts[j])
      && (forall i :: 0 <= i < |starts| ==> starts[i] <= |history|)
      && (|starts| > 1 ==> starts[|starts| - 1] < |history|)
    }

    function Tail(): nat {
      if starts == [] then 0 else |starts| - 1
    }

    function SegEnd(k: nat): nat
      requires k < |starts|
    {
      if k + 1 < |starts| then starts[k + 1] else |history|
    }

    ghost function SegmentData(k: nat): seq<Publish>
      requires WellFormed() && k < |starts|
    {
      history[starts[k]..SegEnd(k)]
    }

    // The retention rules: a bounded number of segments, oldest evicted only when the bound is
    // reached, segments sealed only once full, and no segment over the limit by more than one entry.
    ghost predicate Retained() {
      && WellFormed()
      && maxSize > 0 && maxSegments > 0
      && |starts| - head <= maxSegments
      && (head > 0 ==> |starts| - head == maxSegments)
      && (forall k: nat :: k < |starts| ==> SegmentRetained(k))
    }

    // A sealed segment is full, and no segment was full before its last entry.
    ghost predicate SegmentRetained(k: nat)
      requires WellFormed() && k < |starts|
    {
      var d := SegmentData(k);
      && (k < |starts| - 1 ==> Bytes(d) >= maxSize)
      && (d != [] ==> Bytes(d[..|d| - 1]) < maxSize)
    }

    function NextOffset(): Cursor {
      Cursor(Tail(), |history|)
    }

    // Offset of the oldest entry still held.
    function HeadOffset(): nat
      requires head < |starts|
    {
      starts[head]
    }

    function Where(offset: nat): Cursor {
      Cursor(SegOf(starts, offset), offset)
    }

    // Bytes in the segment that is being written.
    function ActiveBytes(): nat {
      if starts != [] && starts[|starts| - 1] <= |history| then Bytes(history[starts[|starts| - 1]..]) else 0
    }

    function Append(m: Publish): Log {
      if ActiveBytes() >= maxSize then
        this.(starts := starts + [|history|],
              head := if |starts| - head >= maxSegments then head + 1 else head,
              history := history + [m])
      else
        this.(history := history + [m])
    }

    // A cursor that lies in, or at the end of, the segment it names.
    predicate CursorOk(c: Cursor)
    {
      c.segment < |starts| && starts[c.segment] <= c.offset <= SegEnd(c.segment)
    }

    // Where a read really starts: stale cursors jump forward to what is still held.
    function ReadStart(c: Cursor): Cursor
      requires head < |starts| && c.segment < |starts|
    {
      if c.segment < head then Cursor(head, starts[head])
      else if starts[c.segment] > c.offset then Cursor(c.segment, starts[c.segment])
      else c
    }

    // First offset a read from a cursor returns: a cursor beyond its segment is pulled back to its end.
    function ReadFloor(s: Cursor): nat
      requires s.segment < |starts|
    {
      if s.offset <= SegEnd(s.segment) then s.offset else SegEnd(s.segment)
    }

    function Entries(lo: nat, hi: nat): (r: seq<(Publish, Cursor)>)
      requires lo <= hi <= |history|
    {
      seq(hi - lo, i requires 0 <= i < hi - lo => (history[lo + i], Where(lo + i)))
    }

    // Closed form of a read of at most len entries.
    function Read(c: Cursor, len: nat): ReadResult
      requires WellFormed()
    {
      if c.segment >= |starts| then ReadResult([], c, c, true)
      else
        var s := ReadStart(c);
        if s.segment == |starts| - 1 && s.offset >= |history| then ReadResult([], s, s, true)
        else
          var lo := ReadFloor(s);
          if lo + len >= |history| then
            ReadResult(Entries(lo, |history|), s, NextOffset(), true)
          else
            ReadResult(Entries(lo, lo + len), s, Where(lo + len), false)
    }
  }

  function Empty(maxSize: nat, maxSegments: nat): Log {
    Log(maxSize, maxSegments, [], [0], 0)
  }

  // ---------------------------------------------------------------------------------------------
  // Where an offset lives

  lemma {:induction false} SegOfBounds(starts: seq<nat>, offset: nat)
    requires starts != [] && starts[0] <= offset
    ensures SegOf(starts, offset) < |starts|
    ensures starts[SegOf(starts, offset)] <= offset
    ensures SegOf(starts, offset) + 1 < |starts| ==> offset < starts[SegOf(starts, offset) + 1]
  {
    if |starts| == 1 || starts[|starts| - 1] <= offset {
    } else {
      SegOfBounds(starts[..|starts| - 1], offset);
    }
  }

  lemma WhereIsUnique(l: Log, k: nat, offset: nat)
    requires l.WellFormed() && k < |l.starts| && l.starts[k] <= offset
    requires k + 1 < |l.starts| ==> offset < l.starts[k + 1]
    ensures l.Where(offset) == Cursor(k, offset)
  {
    var j := SegOf(l.starts, offset);
    SegOfBounds(l.starts, offset);
  }

  lemma WhereIsOk(l: Log, offset: nat)
    requires l.WellFormed() && offset <= |l.history|
    ensures l.CursorOk(l.Where(offset))
    ensures offset == |l.history| ==> l.Where(offset) == l.NextOffset()
  {
    SegOfBounds(l.starts, offset);
    if offset == |l.history| {
      WhereIsUnique(l, |l.starts| - 1, offset);
    }
  }

  // Offset order and cursor order agree on positions that name their own segment.
  lemma WhereIsMonotone(l: Log, a: nat, b: nat)
    requires l.WellFormed() && a <= b <= |l.history|
    ensures l.Where(a).segment <= l.Where(b).segment
    ensures a < b ==> Before(l.Where(a), l.Where(b))
  {
    var i, j := SegOf(l.starts, a), SegOf(l.starts, b);
    SegOfBounds(l.starts, a);
    SegOfBounds(l.starts, b);
  }

  // ---------------------------------------------------------------------------------------------
  // Appending

  lemma AppendKeepsForm(l: Log, m: Publish)
    requires l.WellFormed() && l.maxSize > 0 && l.maxSegments > 0
    ensures l.Append(m).WellFormed()
    ensures l.head <= l.Append(m).head
    ensures l.starts <= l.Append(m).starts
  {
    if l.ActiveBytes() >= l.maxSize {
      assert l.history[l.starts[|l.starts| - 1]..] != [];
    }
  }

  // What an append preserves about cursors handed out earlier.
  lemma AppendKeepsCursors(l: Log, m: Publish)
    requires l.WellFormed() && l.maxSize > 0 && l.maxSegments > 0
    ensures forall c :: l.CursorOk(c) ==> l.Append(m).CursorOk(c)
    ensures forall o :: 0 <= o < |l.history| ==> l.Append(m).Where(o) == l.Where(o)
  {
    AppendKeepsForm(l, m);
    var l' := l.Append(m);
    forall o | 0 <= o < |l.history|
      ensures l'.Where(o) == l.Where(o)
    {
      SegOfBounds(l.starts, o);
      WhereIsUnique(l', SegOf(l.starts, o), o);
    }
  }

  lemma AppendKeepsSealed(l: Log, m: Publish, k: nat)
    requires l.WellFormed() && l.maxSize > 0 && l.maxSegments > 0
    requires k < |l.starts|
    ensures l.Append(m).WellFormed() && k < |l.Append(m).starts|
    ensures k < |l.starts| - 1 || l.Append(m).starts != l.starts ==> l.Append(m).SegmentData(k) == l.SegmentData(k)
    ensures k == |l.starts| - 1 && l.Append(m).starts == l.starts ==>
              l.Append(m).SegmentData(k) == l.SegmentData(k) + [m]
  {
    AppendKeepsForm(l, m);
    var l' := l.Append(m);
    if k == |l.starts| - 1 && l'.starts == l.starts {
      assert (l.history + [m])[l.starts[k]..] == l.history[l.starts[k]..] + [m];
      assert l'.SegmentData(k) == l'.history[l.starts[k]..] && l.SegmentData(k) == l.history[l.starts[k]..];
    } else {
      assert l.history == l'.history[..|l.history|];
      assert l'.SegEnd(k) == l.SegEnd(k);
      assert l'.SegmentData(k) == l.history[l.starts[k]..l.SegEnd(k)];
    }
  }

  lemma LastHolds(l: Log)
    requires l.WellFormed()
    ensures l.ActiveBytes() == Bytes(l.SegmentData(|l.starts| - 1))
    ensures l.SegmentData(|l.starts| - 1) == l.history[l.starts[|l.starts| - 1]..]
  {
  }

  lemma AppendRetainsOld(l: Log, m: Publish, k: nat)
    requires l.WellFormed() && l.maxSize > 0 && l.maxSegments > 0
    requires k < |l.starts| && l.SegmentRetained(k)
    ensures l.Append(m).WellFormed() && k < |l.Append(m).starts|
    ensures l.Append(m).SegmentRetained(k)
  {
    hide Bytes, Log.WellFormed;
    AppendKeepsSealed(l, m, k);
    LastHolds(l);
    var d := l.SegmentData(k);
    if k == |l.starts| - 1 {
      assert (d + [m])[..|d|] == d;
    }
  }

  lemma AppendRetainsNew(l: Log, m: Publish, k: nat)
    requires l.WellFormed() && l.maxSize > 0 && l.maxSegments > 0
    requires |l.starts| <= k
    ensures l.Append(m).WellFormed()
    ensures k < |l.Append(m).starts| ==> l.Append(m).SegmentRetained(k)
  {
    AppendKeepsForm(l, m);
    var l' := l.Append(m);
    if k < |l'.starts| {
      assert l'.SegmentData(k) == [m];
      assert [m][..0] == [];
    }
  }

  // Retention: segment count, contiguity, sealed and overflow sizes survive every append, and the
  // append itself adds exactly one entry at the end of the history.
  lemma AppendRetains(l: Log, m: Publish)
    requires l.Retained()
    ensures l.Append(m).Retained()
    ensures l.Append(m).history == l.history + [m]
    ensures l.Append(m).NextOffset().offset == l.NextOffset().offset + 1
  {
    AppendKeepsForm(l, m);
    var l' := l.Append(m);
    forall k: nat | k < |l'.starts|
      ensures l'.SegmentRetained(k)
    {
      if k < |l.starts| {
        assert l.SegmentRetained(k);
        AppendRetainsOld(l, m, k);
      } else {
        AppendRetainsNew(l, m, k);
      }
    }
  }

  lemma EmptyRetains(maxSize: nat, maxSegments: nat)
    requires maxSize > 0 && maxSegments > 0
    ensures Empty(maxSize, maxSegments).Retained()
    ensures Empty(maxSize, maxSegments).NextOffset() == Cursor(0, 0)
  {
  }

  // ---------------------------------------------------------------------------------------------
  // Reading

  lemma EntryAt(l: Log, lo: nat, hi: nat, o: nat)
    requires lo <= o < hi <= |l.history|
    ensures l.Entries(lo, hi)[o - lo] == (l.history[o], l.Where(o))
  {
    var i := o - lo;
    assert l.Entries(lo, hi)[i] == (l.history[lo + i], l.Where(lo + i));
  }

  lemma EntriesConcat(l: Log, a: nat, b: nat, c: nat)
    requires a <= b <= c <= |l.history|
    ensures l.Entries(a, b) + l.Entries(b, c) == l.Entries(a, c)
    ensures |l.Entries(a, c)| == c - a
  {
    var x, y, z := l.Entries(a, b), l.Entries(b, c), l.Entries(a, c);
    forall i | 0 <= i < |z|
      ensures (x + y)[i] == z[i]
    {
      if i < |x| {
        EntryAt(l, a, b, a + i);
      } else {
        EntryAt(l, b, c, a + i);
      }
      EntryAt(l, a, c, a + i);
    }
  }

  function Max(a: nat, b: nat): nat { if a < b then b else a }
  function Min(a: nat, b: nat): nat { if a < b then a else b }

  // From a cursor obtained from the log, a read depends on its offset alone: it returns the
  // entries still held from there on, as many as asked for, each under its true position; it is
  // Done exactly when it reached the end, and otherwise returned exactly len entries.
  lemma ReadFromCursor(l: Log, c: Cursor, len: nat)
    requires l.WellFormed() && l.CursorOk(c)
    ensures var r := l.Read(c, len);
            var lo := Max(c.offset, l.HeadOffset());
            var hi := Min(lo + len, |l.history|);
            && lo <= hi
            && r.entries == l.Entries(lo, hi)
            && r.end == l.Where(hi)
            && l.CursorOk(r.end)
            && (r.done <==> lo + len >= |l.history|)
            && (r.done ==> r.end == l.NextOffset())
            && (!r.done ==> |r.entries| == len)
            && (r.start == c <==> c.segment >= l.head)
  {
    var s := l.ReadStart(c);
    if c.segment < l.head {
      assert l.SegEnd(c.segment) <= l.starts[l.head];
    } else {
      assert l.starts[l.head] <= l.starts[c.segment];
    }
    var lo := Max(c.offset, l.HeadOffset());
    assert s.offset == lo;
    WhereIsOk(l, |l.history|);
    WhereIsOk(l, Min(lo + len, |l.history|));
    if s.segment == |l.starts| - 1 && s.offset >= |l.history| {
      assert lo == |l.history|;
      WhereIsUnique(l, s.segment, lo);
    }
  }

  // Any cursor at all: what comes back is a contiguous run of entries still held.
  lemma ReadFromAnywhere(l: Log, c: Cursor, len: nat)
    requires l.WellFormed()
    ensures var r := l.Read(c, len);
            exists lo: nat, hi: nat ::
              lo <= hi <= |l.history| && hi - lo <= len && (lo < hi ==> l.HeadOffset() <= lo) &&
              r.entries == l.Entries(lo, hi)
  {
    var r := l.Read(c, len);
    if c.segment >= |l.starts| {
      assert r.entries == l.Entries(0, 0);
    } else {
      var s := l.ReadStart(c);
      if s.segment == |l.starts| - 1 && s.offset >= |l.history| {
        assert r.entries == l.Entries(0, 0);
      } else {
        var lo := Min(s.offset, l.SegEnd(s.segment));
        var hi := Min(lo + len, |l.history|);
        assert l.starts[l.head] <= l.starts[s.segment] <= lo;
        assert r.entries == l.Entries(lo, hi);
      }
    }
  }
}

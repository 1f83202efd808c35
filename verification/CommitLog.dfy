// The segmented commit log, in place: a deque of segments with head and tail indices.
module CommitLogs {
  import opened Types
  import opened LogModel

  datatype Position = Next(start: Cursor, end: Cursor) | Done(start: Cursor, end: Cursor)
  datatype SegmentPosition = SegmentNext(offset: nat) | SegmentDone(offset: nat)

  datatype Segment = Segment(data: seq<Publish>, totalSize: nat, absoluteOffset: nat) {
    function NextOffset(): nat {
      absoluteOffset + |data|
    }

    function Push(p: Publish): Segment {
      Segment(data + [p], totalSize + Size(p), absoluteOffset)
    }

    // What reading at most len entries from the cursor yields.
    ghost function Chunk(cursor: Cursor, len: nat): (seq<(Publish, Cursor)>, SegmentPosition)
      requires absoluteOffset <= cursor.offset
    {
      var idx := cursor.offset - absoluteOffset;
      var n := if idx >= |data| then 0 else if idx + len < |data| then len else |data| - idx;
      (seq(n, i requires 0 <= i < n => (data[idx + i], Cursor(cursor.segment, cursor.offset + i))),
       if idx < |data| && idx + len < |data| then SegmentNext(absoluteOffset + idx + len)
         else SegmentDone(NextOffset()))
    }

    method Readv(cursor: Cursor, len: nat, out: seq<(Publish, Cursor)>)
      returns (pos: SegmentPosition, out': seq<(Publish, Cursor)>)
      requires absoluteOffset <= cursor.offset
      ensures out' == out + Chunk(cursor, len).0 && pos == Chunk(cursor, len).1
    {
      var idx := cursor.offset - absoluteOffset;
      var ret: Option<nat> := None;
      out' := out;
      if idx < |data| {
        var limit := idx + len;
        ret := Some(limit);
        if limit >= |data| {
          ret := None;
          limit := |data|;
        }
        out' := out + seq(limit - idx, i requires 0 <= i < limit - idx =>
                            (data[idx + i], Cursor(cursor.segment, cursor.offset + i)));
      }
      match ret {
        case Some(relative) => pos := SegmentNext(absoluteOffset + relative);
        case None => pos := SegmentDone(NextOffset());
      }
    }
  }

  // The segment deque that represents an abstract log.
  ghost function HeldSegments(l: Log): seq<Segment>
    requires l.WellFormed()
  {
    seq(|l.starts| - l.head, i requires 0 <= i < |l.starts| - l.head => Image(l, l.head + i))
  }

  ghost function Image(l: Log, k: nat): Segment
    requires l.WellFormed() && k < |l.starts|
  {
    Segment(l.SegmentData(k), Bytes(l.SegmentData(k)), l.starts[k])
  }

  // The deque after retention has been applied.
  ghost function Rotated(segments: seq<Segment>, maxSize: nat, maxSegments: nat): seq<Segment>
    requires segments != []
  {
    var active := segments[|segments| - 1];
    if active.totalSize >= maxSize then
      (if |segments| >= maxSegments then segments[1..] else segments) + [Segment([], 0, active.NextOffset())]
    else segments
  }

  lemma HeldAt(l: Log, i: nat)
    requires l.WellFormed() && i < |l.starts| - l.head
    ensures |HeldSegments(l)| == |l.starts| - l.head
    ensures HeldSegments(l)[i] == Image(l, l.head + i)
    ensures Image(l, l.head + i).absoluteOffset == l.starts[l.head + i]
  {
  }

  lemma ActiveIsFull(l: Log)
    requires l.WellFormed()
    ensures |HeldSegments(l)| == |l.starts| - l.head
    ensures var active := HeldSegments(l)[|l.starts| - l.head - 1];
            && active == Image(l, |l.starts| - 1)
            && active.totalSize == l.ActiveBytes()
            && active.NextOffset() == |l.history|
            && active.data == l.history[l.starts[|l.starts| - 1]..]
  {
    var t := |l.starts| - 1;
    assert l.SegmentData(t) == l.history[l.starts[t]..];
  }

  lemma AppendImageSealed(l: Log, m: Publish, k: nat)
    requires l.WellFormed() && l.maxSize > 0 && l.maxSegments > 0 && k < |l.starts|
    requires k < |l.starts| - 1 || l.Append(m).starts != l.starts
    ensures l.Append(m).WellFormed() && k < |l.Append(m).starts|
    ensures Image(l.Append(m), k) == Image(l, k)
  {
    hide Bytes, Log.ActiveBytes;
    AppendKeepsSealed(l, m, k);
  }

  lemma AppendImageActive(l: Log, m: Publish)
    requires l.WellFormed() && l.maxSize > 0 && l.maxSegments > 0
    requires l.Append(m).starts == l.starts
    ensures l.Append(m).WellFormed()
    ensures Image(l.Append(m), |l.starts| - 1) == Image(l, |l.starts| - 1).Push(m)
  {
    hide Log.ActiveBytes, Log.SegmentData;
    AppendKeepsSealed(l, m, |l.starts| - 1);
    var d := l.SegmentData(|l.starts| - 1);
    assert (d + [m])[..|d|] == d;
  }

  lemma AppendImageFresh(l: Log, m: Publish)
    requires l.WellFormed() && l.maxSize > 0 && l.maxSegments > 0
    requires l.Append(m).starts != l.starts
    ensures l.Append(m).WellFormed() && |l.Append(m).starts| == |l.starts| + 1
    ensures Image(l.Append(m), |l.starts|) == Segment([], 0, |l.history|).Push(m)
  {
    AppendKeepsForm(l, m);
    assert l.Append(m).SegmentData(|l.starts|) == [m];
    assert [m][..0] == [] && Bytes([m]) == Bytes([]) + Size(m);
  }

  lemma HeldIs(l: Log, q: seq<Segment>)
    requires l.WellFormed() && |q| == |l.starts| - l.head
    requires forall i: nat :: i < |q| ==> q[i] == Image(l, l.head + i)
    ensures HeldSegments(l) == q
  {
    hide Image;
  }

  // The deque of the log after an append: retention, then a push on the active segment.
  lemma AppendHeld(l: Log, m: Publish)
    requires l.WellFormed() && l.maxSize > 0 && l.maxSegments > 0
    ensures l.Append(m).WellFormed()
    ensures var r := Rotated(HeldSegments(l), l.maxSize, l.maxSegments);
            r != [] && HeldSegments(l.Append(m)) == r[..|r| - 1] + [r[|r| - 1].Push(m)]
  {
    hide HeldSegments, Rotated, Image, Bytes, Log.Append, Log.SegmentData, Segment.Push;
    ActiveIsFull(l);
    AppendKeepsForm(l, m);
    AppendHeldAt(l, m, 0);
    var l' := l.Append(m);
    var r := Rotated(HeldSegments(l), l.maxSize, l.maxSegments);
    var after := r[..|r| - 1] + [r[|r| - 1].Push(m)];
    forall i: nat | i < |after|
      ensures Image(l', l'.head + i) == after[i]
    {
      AppendHeldAt(l, m, i);
    }
    HeldIs(l', after);
  }

  lemma AppendHeldAt(l: Log, m: Publish, i: nat)
    requires l.WellFormed() && l.maxSize > 0 && l.maxSegments > 0
    ensures l.Append(m).WellFormed()
    ensures var r := Rotated(HeldSegments(l), l.maxSize, l.maxSegments);
            && |r| == |l.Append(m).starts| - l.Append(m).head
            && (i < |r| ==> Image(l.Append(m), l.Append(m).head + i)
                            == if i < |r| - 1 then r[i] else r[|r| - 1].Push(m))
  {
    hide HeldSegments, Image, Bytes, Log.ActiveBytes, Log.SegmentData;
    ActiveIsFull(l);
    AppendKeepsForm(l, m);
    var l' := l.Append(m);
    var k := l'.head + i;
    if k < |l'.starts| {
      if k < |l.starts| {
        HeldAt(l, k - l.head);
      }
      if k == |l.starts| {
        AppendImageFresh(l, m);
      } else if k == |l.starts| - 1 && l'.starts == l.starts {
        AppendImageActive(l, m);
      } else {
        AppendImageSealed(l, m, k);
      }
    }
  }

  class CommitLog {
    var head: nat
    var tail: nat
    var maxSegmentSize: nat
    var maxMemSegments: nat
    var segments: seq<Segment>

    // Everything ever appended, and where each segment started, evicted ones included.
    ghost var history: seq<Publish>
    ghost var starts: seq<nat>

    ghost function Model(): Log
      reads this
    {
      Log(maxSegmentSize, maxMemSegments, history, starts, head)
    }

    ghost predicate Valid()
      reads this
    {
      && Model().Retained()
      && tail == |starts| - 1
      && segments == HeldSegments(Model())
    }

    lemma FormOf()
      requires Valid()
      ensures Model().WellFormed() && Model().Retained()
      ensures Model() == Log(maxSegmentSize, maxMemSegments, history, starts, head)
      ensures tail == |starts| - 1 && head <= tail && segments == HeldSegments(Model())
      ensures tail > 0 ==> starts[tail] < |history|
    {
    }

    constructor (maxSegmentSize: nat, maxMemSegments: nat)
      requires maxSegmentSize >= 1024 && maxMemSegments >= 1
      ensures Valid()
      ensures Model() == Empty(maxSegmentSize, maxMemSegments)
    {
      this.head, this.tail := 0, 0;
      this.maxSegmentSize := maxSegmentSize;
      this.maxMemSegments := maxMemSegments;
      this.segments := [Segment([], 0, 0)];
      this.history, this.starts := [], [0];
      new;
      assert Image(Model(), 0) == Segment([], 0, 0);
    }

    function ActiveSegment(): Segment
      reads this
      requires segments != []
    {
      segments[|segments| - 1]
    }

    method NextOffset() returns (c: Cursor)
      requires Valid()
      ensures c == Model().NextOffset()
    {
      ActiveIsFull(Model());
      c := Cursor(tail, ActiveSegment().NextOffset());
    }

    // Number of entries ever appended, evicted ones included.
    method Entries() returns (n: nat)
      requires Valid()
      ensures n == |history|
    {
      ActiveIsFull(Model());
      n := ActiveSegment().NextOffset();
    }

    method Last() returns (m: Option<Publish>)
      requires Valid()
      ensures m == if history == [] then None else Some(history[|history| - 1])
    {
      ActiveIsFull(Model());
      var data := ActiveSegment().data;
      m := if data == [] then None else Some(data[|data| - 1]);
    }

    method Append(message: Publish) returns (offset: Cursor)
      requires Valid()
      modifies this
      ensures Valid()
      ensures Model() == old(Model()).Append(message)
      ensures offset == Model().NextOffset()
    {
      hide HeldSegments, Image, Bytes, Log.SegmentData, Log.SegmentRetained, Log.ActiveBytes,
        Log.WellFormed, Log.Retained;
      ghost var l := Model();
      FormOf();
      AppendRetains(l, message);
      ActiveIsFull(l);
      AppendHeld(l, message);
      ApplyRetention();
      var active := ActiveSegment();
      segments := segments[..|segments| - 1] + [active.Push(message)];
      history := history + [message];
      offset := Cursor(tail, ActiveSegment().NextOffset());
      assert ActiveSegment().NextOffset() == |history|;
    }

    // Seals the active segment once it is full, dropping the oldest one when at the limit.
    method ApplyRetention()
      requires Valid()
      modifies this
      ensures history == old(history)
      ensures maxSegmentSize == old(maxSegmentSize) && maxMemSegments == old(maxMemSegments)
      ensures segments == Rotated(old(segments), maxSegmentSize, maxMemSegments)
      ensures if old(Model()).ActiveBytes() >= maxSegmentSize then
                && starts == old(starts) + [|history|] && tail == old(tail) + 1
                && head == old(head) + (if old(|segments|) >= maxMemSegments then 1 else 0)
              else
                starts == old(starts) && tail == old(tail) && head == old(head)
    {
      ActiveIsFull(Model());
      if ActiveSegment().totalSize >= maxSegmentSize {
        var absoluteOffset := ActiveSegment().NextOffset();
        if |segments| >= maxMemSegments {
          segments := segments[1..];
          head := head + 1;
        }
        segments := segments + [Segment([], 0, absoluteOffset)];
        starts := starts + [absoluteOffset];
        tail := tail + 1;
      }
    }

    // Reads up to len entries across segments. The result is the closed form of LogModel.Read.
    method Readv(start: Cursor, len: nat, out: seq<(Publish, Cursor)>)
      returns (pos: Position, out': seq<(Publish, Cursor)>)
      requires Valid()
      ensures var r := Model().Read(start, len);
              && out' == out + r.entries
              && pos == if r.done then Done(r.start, r.end) else Next(r.start, r.end)
    {
      hide HeldSegments, Image, Bytes, SegOf, Log.Entries, Log.SegmentData, Segment.Chunk, Log.SegmentRetained;
      ghost var l := Model();
      out' := out;
      if start.segment > tail {
        return Done(start, start), out';
      }
      var start', cursor := start, start;
      if cursor.segment < head {
        HeldAt(l, 0);
        cursor := Cursor(head, segments[0].absoluteOffset);
        start' := cursor;
      }
      var idx := cursor.segment - head;
      HeldAt(l, idx);
      var current := segments[idx];
      if current.absoluteOffset > cursor.offset {
        start' := Cursor(start'.segment, current.absoluteOffset);
        cursor := Cursor(cursor.segment, current.absoluteOffset);
      }
      assert start' == cursor == l.ReadStart(start);
      pos, out' := ReadFrom(start', len, out);
    }

    // From a cursor inside or beyond the segment it names.
    method ReadFrom(start: Cursor, len: nat, out: seq<(Publish, Cursor)>)
      returns (pos: Position, out': seq<(Publish, Cursor)>)
      requires Valid()
      requires head <= start.segment <= tail && starts[start.segment] <= start.offset
      ensures var r := Model().Read(start, len);
              && out' == out + r.entries
              && pos == if r.done then Done(r.start, r.end) else Next(r.start, r.end)
    {
      hide *;
      ghost var l := Model();
      FormOf();
      ReadOutcome(l, start, len);
      var stopped, cursor, left;
      stopped, cursor, left, out' := ReadSealed(start, len, out);
      if stopped {
        return Next(start, cursor), out';
      }
      ghost var lo := l.ReadFloor(start);
      ghost var at := lo + (len - left);
      ChunkOfImage(l, cursor, left);
      pos, out' := ReadActive(start, cursor, left, out');
      ExtendOut(l, out, lo, at, if at + left < |l.history| then at + left else |l.history|);
    }

    // One sealed segment: reads from it, and moves on to the next one unless enough has been read.
    method ReadSegment(cursor: Cursor, left: nat, out: seq<(Publish, Cursor)>)
      returns (stopped: bool, cursor': Cursor, left': nat, out': seq<(Publish, Cursor)>)
      requires Valid()
      requires head <= cursor.segment < tail && starts[cursor.segment] <= cursor.offset
      ensures var l := Model();
              var at := if cursor.offset < l.SegEnd(cursor.segment) then cursor.offset else l.SegEnd(cursor.segment);
              && left' <= left && at + (left - left') < |history|
              && out' == out + l.Entries(at, at + (left - left'))
              && if stopped then left' == 0 && cursor' == l.Where(at + left)
                 else
                   && left' > 0 && cursor' == Cursor(cursor.segment + 1, at + (left - left'))
                   && cursor'.offset == starts[cursor.segment + 1]
    {
      hide *;
      ghost var l := Model();
      FormOf();
      var idx := cursor.segment - head;
      HeldAt(l, idx);
      ChunkOfImage(l, cursor, left);
      var p;
      p, out' := segments[idx].Readv(cursor, left, out);
      match p {
        case SegmentNext(offset) =>
          WhereIsUnique(l, cursor.segment, offset);
          return true, Cursor(cursor.segment, offset), 0, out';
        case SegmentDone(nextOffset) =>
          left' := if nextOffset >= cursor.offset then left - (nextOffset - cursor.offset) else left;
          cursor' := Cursor(cursor.segment + 1, nextOffset);
      }
      stopped := left' == 0;
      if stopped {
        WhereIsUnique(l, cursor'.segment, cursor'.offset);
      }
    }

    // The loop over sealed segments. Stops early once len entries have been read.
    method ReadSealed(start: Cursor, len: nat, out: seq<(Publish, Cursor)>)
      returns (stopped: bool, cursor: Cursor, left: nat, out': seq<(Publish, Cursor)>)
      requires Valid()
      requires head <= start.segment <= tail && starts[start.segment] <= start.offset
      ensures var l, lo := Model(), Model().ReadFloor(start);
              && lo <= lo + (len - left) <= |history| && left <= len
              && (stopped ==>
                    lo + len < |history| && out' == out + l.Entries(lo, lo + len) && cursor == l.Where(lo + len))
              && (!stopped ==>
                    && cursor.segment == tail && starts[tail] <= cursor.offset
                    && out' == out + l.Entries(lo, lo + (len - left))
                    && if cursor == start then left == len
                       else tail > 0 && lo + (len - left) == cursor.offset == starts[tail])
    {
      hide *;
      ghost var l := Model();
      FormOf();
      left, cursor, stopped, out' := len, start, false, out;
      // Offsets of the first and the next entry to return.
      ghost var lo := l.ReadFloor(start);
      ghost var at := lo;
      ReadOutcome(l, start, len);
      ExtendOut(l, out, lo, lo, lo);

      while cursor.segment < tail
        invariant head <= cursor.segment <= tail && (cursor == start || start.segment < cursor.segment)
        invariant starts[cursor.segment] <= cursor.offset
        invariant lo <= at <= |history| && left <= len && at == lo + (len - left)
        invariant out' == out + l.Entries(lo, at)
        invariant if cursor == start then at == lo else at == cursor.offset == starts[cursor.segment] && left > 0
        decreases tail - cursor.segment
      {
        SegmentBounds(l, cursor.segment);
        ghost var before := left;
        stopped, cursor, left, out' := ReadSegment(cursor, left, out');
        ExtendOut(l, out, lo, at, at + (before - left));
        at := at + (before - left);
        if stopped {
          return;
        }
      }
    }

    // The last segment, where running out of entries means the end of the log.
    method ReadActive(start: Cursor, cursor: Cursor, left: nat, out: seq<(Publish, Cursor)>)
      returns (pos: Position, out': seq<(Publish, Cursor)>)
      requires Valid()
      requires cursor.segment == tail && starts[tail] <= cursor.offset
      ensures if cursor.offset >= |history| then pos == Done(start, cursor) && out' == out
              else
                var hi := if cursor.offset + left < |history| then cursor.offset + left else |history|;
                && out' == out + Model().Entries(cursor.offset, hi)
                && pos == if cursor.offset + left < |history| then Next(start, Model().Where(hi))
                          else Done(start, Model().NextOffset())
    {
      hide HeldSegments, Image, Bytes, SegOf, Log.Entries, Log.SegmentData, Segment.Chunk, Log.SegmentRetained;
      ghost var l := Model();
      HeldAt(l, |l.starts| - l.head - 1);
      var current := segments[|segments| - 1];
      ChunkOfImage(l, cursor, left);
      out' := out;
      if current.NextOffset() <= cursor.offset {
        return Done(start, cursor), out';
      }
      var p;
      p, out' := current.Readv(cursor, left, out');
      match p {
        case SegmentNext(offset) =>
          WhereIsUnique(l, tail, offset);
          pos := Next(start, Cursor(cursor.segment, offset));
        case SegmentDone(absoluteOffset) =>
          pos := Done(start, Cursor(cursor.segment, absoluteOffset));
      }
    }
  }

  lemma ExtendOut(l: Log, out: seq<(Publish, Cursor)>, a: nat, b: nat, c: nat)
    requires a <= b <= c <= |l.history|
    ensures (out + l.Entries(a, b)) + l.Entries(b, c) == out + l.Entries(a, c)
  {
    EntriesConcat(l, a, b, c);
    assert (out + l.Entries(a, b)) + l.Entries(b, c) == out + (l.Entries(a, b) + l.Entries(b, c));
  }

  lemma ReadOutcome(l: Log, c: Cursor, len: nat)
    requires l.WellFormed() && l.head <= c.segment < |l.starts| && l.starts[c.segment] <= c.offset
    ensures var lo := l.ReadFloor(c);
            && lo == (if c.offset <= l.SegEnd(c.segment) then c.offset else l.SegEnd(c.segment))
            && l.starts[c.segment] <= lo <= |l.history|
            && (c.segment == |l.starts| - 1 && c.offset >= |l.history| ==> lo == |l.history|)
            && l.Read(c, len) ==
               if c.segment == |l.starts| - 1 && c.offset >= |l.history| then ReadResult([], c, c, true)
               else if lo + len >= |l.history| then ReadResult(l.Entries(lo, |l.history|), c, l.NextOffset(), true)
               else ReadResult(l.Entries(lo, lo + len), c, l.Where(lo + len), false)
  {
  }

  // Bounds of a segment that is being read.
  lemma SegmentBounds(l: Log, k: nat)
    requires l.WellFormed() && k < |l.starts|
    ensures l.starts[k] <= l.SegEnd(k) <= |l.history|
    ensures k + 1 < |l.starts| ==> l.SegEnd(k) == l.starts[k + 1] < |l.history|
    ensures k + 1 == |l.starts| ==> l.SegEnd(k) == |l.history|
    ensures |l.SegmentData(k)| == l.SegEnd(k) - l.starts[k]
    ensures forall o :: l.starts[k] <= o < l.SegEnd(k) ==> l.SegmentData(k)[o - l.starts[k]] == l.history[o]
  {
  }

  // One entry of what reading a segment yields, in terms of the whole history.
  lemma ChunkAt(l: Log, c: Cursor, len: nat, i: nat)
    requires l.WellFormed() && c.segment < |l.starts| && l.starts[c.segment] <= c.offset
    ensures var e := l.SegEnd(c.segment);
            var at := if c.offset < e then c.offset else e;
            var to := if at + len < e then at + len else e;
            && at <= to <= |l.history| && |Image(l, c.segment).Chunk(c, len).0| == to - at
            && (i < to - at ==> Image(l, c.segment).Chunk(c, len).0[i] == (l.history[at + i], l.Where(at + i)))
  {
    hide Log.SegmentData, Log.SegEnd, Bytes, SegOf;
    var e := l.SegEnd(c.segment);
    SegmentBounds(l, c.segment);
    if c.offset < e && c.offset + i < e {
      WhereIsUnique(l, c.segment, c.offset + i);
    }
  }

  // What one segment contributes to a read, in terms of the whole history.
  lemma ChunkOfImage(l: Log, c: Cursor, len: nat)
    requires l.WellFormed() && c.segment < |l.starts| && l.starts[c.segment] <= c.offset
    ensures var e := l.SegEnd(c.segment);
            var at := if c.offset < e then c.offset else e;
            var to := if at + len < e then at + len else e;
            && l.starts[c.segment] <= at <= to <= e <= |l.history|
            && (c.segment + 1 < |l.starts| ==> e == l.starts[c.segment + 1] < |l.history|)
            && (c.segment + 1 == |l.starts| ==> e == |l.history|)
            && Image(l, c.segment).NextOffset() == e
            && Image(l, c.segment).absoluteOffset == l.starts[c.segment]
            && Image(l, c.segment).Chunk(c, len).0 == l.Entries(at, to)
            && Image(l, c.segment).Chunk(c, len).1
               == if c.offset < e && c.offset + len < e then SegmentNext(c.offset + len) else SegmentDone(e)
  {
    hide Log.WellFormed, Image, Segment.Chunk, Log.Entries, Log.Where, Log.SegEnd;
    ChunkEnds(l, c, len);
    var e := l.SegEnd(c.segment);
    var at := if c.offset < e then c.offset else e;
    var to := if at + len < e then at + len else e;
    EntriesConcat(l, at, at, to);
    var chunk := Image(l, c.segment).Chunk(c, len).0;
    ChunkAt(l, c, len, 0);
    forall i | 0 <= i < to - at
      ensures chunk[i] == l.Entries(at, to)[i]
    {
      ChunkAt(l, c, len, i);
      EntryAt(l, at, to, at + i);
    }
  }

  lemma ChunkEnds(l: Log, c: Cursor, len: nat)
    requires l.WellFormed() && c.segment < |l.starts| && l.starts[c.segment] <= c.offset
    ensures var e := l.SegEnd(c.segment);
            && l.starts[c.segment] <= e <= |l.history|
            && (c.segment + 1 < |l.starts| ==> e == l.starts[c.segment + 1] < |l.history|)
            && (c.segment + 1 == |l.starts| ==> e == |l.history|)
            && Image(l, c.segment).NextOffset() == e
            && Image(l, c.segment).absoluteOffset == l.starts[c.segment]
            && Image(l, c.segment).Chunk(c, len).1
               == if c.offset < e && c.offset + len < e then SegmentNext(c.offset + len) else SegmentDone(e)
  {
    hide Log.SegmentData, Log.SegEnd, Bytes;
    SegmentBounds(l, c.segment);
  }
}

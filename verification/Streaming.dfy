// A reader that keeps calling Read from the position the last call returned, while the log grows
// and evicts underneath it.
module Streaming {
  import opened Types
  import opened LogModel

  datatype Op = Put(p: Publish) | Get(len: nat)

  // seen: everything returned so far; missed: offsets already evicted when the reader got to them.
  datatype Reader = Reader(log: Log, cursor: Cursor, seen: seq<(Publish, Cursor)>, missed: set<nat>)

  function Evicted(l: Log, c: Cursor): set<nat>
    requires l.head < |l.starts|
  {
    Range(c.offset, l.HeadOffset())
  }

  function Step(r: Reader, op: Op): Reader
    requires r.log.WellFormed()
  {
    match op
    case Put(p) => r.(log := r.log.Append(p))
    case Get(len) =>
      var res := r.log.Read(r.cursor, len);
      r.(cursor := res.end, seen := r.seen + res.entries, missed := r.missed + Evicted(r.log, r.cursor))
  }

  ghost predicate Increasing(es: seq<(Publish, Cursor)>) {
    forall i, j :: 0 <= i < j < |es| ==> es[i].1.offset < es[j].1.offset
  }

  ghost predicate Seen(r: Reader, o: nat) {
    exists i :: 0 <= i < |r.seen| && r.seen[i].1.offset == o
  }

  // Every offset from the start up to the cursor was either returned, or evicted before the reader
  // reached it, and not both; what was returned is the entry itself under its true position.
  ghost predicate Consistent(r: Reader, from: nat) {
    && r.log.WellFormed() && r.log.maxSize > 0 && r.log.maxSegments > 0
    && r.log.CursorOk(r.cursor)
    && from <= r.cursor.offset
    && Increasing(r.seen)
    && (forall i :: 0 <= i < |r.seen| ==>
          && from <= r.seen[i].1.offset < r.cursor.offset <= |r.log.history|
          && r.seen[i] == (r.log.history[r.seen[i].1.offset], r.log.Where(r.seen[i].1.offset)))
    && (forall o :: o in r.missed ==> from <= o < r.cursor.offset && o < r.log.HeadOffset())
    && (forall o: nat :: from <= o < r.cursor.offset ==> (o in r.missed <==> !Seen(r, o)))
  }

  lemma PutKeepsConsistent(r: Reader, p: Publish, from: nat)
    requires Consistent(r, from)
    ensures Consistent(Step(r, Put(p)), from)
  {
    var r' := Step(r, Put(p));
    AppendKeepsForm(r.log, p);
    AppendKeepsCursors(r.log, p);
    assert r'.log.HeadOffset() >= r.log.HeadOffset() by {
      assert r'.log.starts[r.log.head] == r.log.starts[r.log.head];
    }
    forall o: nat | from <= o < r'.cursor.offset
      ensures o in r'.missed <==> !Seen(r', o)
    {
      assert Seen(r', o) == Seen(r, o);
    }
  }

  lemma PositionsAt(l: Log)
    ensures forall o: nat :: l.Where(o).offset == o
  {
  }

  // A reader that has been given everything still held from its cursor up to an offset.
  function Extended(r: Reader, hi: nat): Reader
    requires r.log.WellFormed() && Max(r.cursor.offset, r.log.HeadOffset()) <= hi <= |r.log.history|
  {
    r.(cursor := r.log.Where(hi),
       seen := r.seen + r.log.Entries(Max(r.cursor.offset, r.log.HeadOffset()), hi),
       missed := r.missed + Evicted(r.log, r.cursor))
  }

  lemma ExtendedSeen(r: Reader, hi: nat, i: nat)
    requires r.log.WellFormed() && Max(r.cursor.offset, r.log.HeadOffset()) <= hi <= |r.log.history|
    ensures var lo, n, s := Max(r.cursor.offset, r.log.HeadOffset()), |r.seen|, Extended(r, hi).seen;
            && |s| == n + (hi - lo)
            && (i < n ==> s[i] == r.seen[i])
            && (n <= i < |s| ==>
                  s[i] == (r.log.history[lo + (i - n)], r.log.Where(lo + (i - n))) && s[i].1.offset == lo + (i - n))
  {
    hide Log.Where, Log.Entries, SegOf;
    var lo, n := Max(r.cursor.offset, r.log.HeadOffset()), |r.seen|;
    EntriesConcat(r.log, lo, lo, hi);
    PositionsAt(r.log);
    if n <= i < n + (hi - lo) {
      EntryAt(r.log, lo, hi, lo + (i - n));
    }
  }

  lemma ExtendedCovers(r: Reader, hi: nat, from: nat, o: nat)
    requires Consistent(r, from) && from <= o < hi
    requires Max(r.cursor.offset, r.log.HeadOffset()) <= hi <= |r.log.history|
    ensures o in Extended(r, hi).missed <==> !Seen(Extended(r, hi), o)
  {
    hide Log.Where, Log.Entries, Log.CursorOk, Increasing;
    var lo, n, r' := Max(r.cursor.offset, r.log.HeadOffset()), |r.seen|, Extended(r, hi);
    if Seen(r, o) {
      var i :| 0 <= i < n && r.seen[i].1.offset == o;
      ExtendedSeen(r, hi, i);
      assert r'.seen[i].1.offset == o;
    }
    if lo <= o {
      ExtendedSeen(r, hi, n + (o - lo));
      assert r'.seen[n + (o - lo)].1.offset == o;
    }
    if Seen(r', o) {
      var i :| 0 <= i < |r'.seen| && r'.seen[i].1.offset == o;
      ExtendedSeen(r, hi, i);
      assert i < n ==> r.seen[i].1.offset == o;
    }
  }

  lemma ExtendIncreases(r: Reader, hi: nat, from: nat)
    requires Consistent(r, from)
    requires Max(r.cursor.offset, r.log.HeadOffset()) <= hi <= |r.log.history|
    ensures var r' := Extended(r, hi);
            && Increasing(r'.seen)
            && forall i :: 0 <= i < |r'.seen| ==>
                 && from <= r'.seen[i].1.offset < hi
                 && r'.seen[i] == (r.log.history[r'.seen[i].1.offset], r.log.Where(r'.seen[i].1.offset))
  {
    hide Log.Where, Log.Entries, Log.CursorOk, SegOf, Seen, Extended;
    var r' := Extended(r, hi);
    ExtendedSeen(r, hi, 0);
    forall i | 0 <= i < |r'.seen|
      ensures from <= r'.seen[i].1.offset < hi
      ensures r'.seen[i] == (r.log.history[r'.seen[i].1.offset], r.log.Where(r'.seen[i].1.offset))
      ensures i < |r.seen| ==> r'.seen[i] == r.seen[i]
      ensures |r.seen| <= i ==> r'.seen[i].1.offset == Max(r.cursor.offset, r.log.HeadOffset()) + (i - |r.seen|)
    {
      ExtendedSeen(r, hi, i);
    }
  }

  lemma ExtendKeepsConsistent(r: Reader, hi: nat, from: nat)
    requires Consistent(r, from)
    requires Max(r.cursor.offset, r.log.HeadOffset()) <= hi <= |r.log.history|
    ensures Consistent(Extended(r, hi), from)
  {
    hide Log.Where, Log.Entries, Log.CursorOk, SegOf, Seen, Increasing;
    PositionsAt(r.log);
    WhereIsOk(r.log, hi);
    ExtendIncreases(r, hi, from);
    forall o: nat | from <= o < hi
      ensures o in Extended(r, hi).missed <==> !Seen(Extended(r, hi), o)
    {
      ExtendedCovers(r, hi, from, o);
    }
  }

  lemma GetKeepsConsistent(r: Reader, len: nat, from: nat)
    requires Consistent(r, from)
    ensures Consistent(Step(r, Get(len)), from)
  {
    hide Log.Where, Log.Entries, Log.Read, Seen, Increasing;
    ReadFromCursor(r.log, r.cursor, len);
    ExtendKeepsConsistent(r, Min(Max(r.cursor.offset, r.log.HeadOffset()) + len, |r.log.history|), from);
  }

  function Run(r: Reader, ops: seq<Op>): Reader
    decreases |ops|
  {
    if ops == [] || !r.log.WellFormed() then r
    else Run(Step(r, ops[0]), ops[1..])
  }

  // Whatever the interleaving of appends and reads.
  lemma {:induction false} StreamingReads(r: Reader, ops: seq<Op>, from: nat)
    requires Consistent(r, from)
    ensures Consistent(Run(r, ops), from)
    decreases |ops|
  {
    if ops != [] {
      match ops[0] {
        case Put(p) => PutKeepsConsistent(r, p, from);
        case Get(len) => GetKeepsConsistent(r, len, from);
      }
      StreamingReads(Step(r, ops[0]), ops[1..], from);
    }
  }

  // Reads of the given lengths, one after the other, until one of them is Done.
  function Drain(l: Log, c: Cursor, lens: seq<nat>): (seq<(Publish, Cursor)>, Cursor, bool)
    requires l.WellFormed() && l.CursorOk(c)
    decreases |lens|
  {
    if lens == [] then ([], c, false)
    else
      var r := l.Read(c, lens[0]);
      ReadFromCursor(l, c, lens[0]);
      if r.done then (r.entries, r.end, true)
      else
        var rest := Drain(l, r.end, lens[1..]);
        (r.entries + rest.0, rest.1, rest.2)
  }

  // What is left to read.
  function Left(l: Log, c: Cursor): nat
    requires l.WellFormed() && l.CursorOk(c)
  {
    |l.history| - Max(c.offset, l.HeadOffset())
  }

  // Without further appends every read of positive length that is not Done leaves less to read, so
  // whatever the lengths, as many reads as there are entries left, and one more, end with Done at the
  // end of the log and have returned all that was left, in order.
  lemma {:induction false} DrainReturnsTheRest(l: Log, c: Cursor, lens: seq<nat>)
    requires l.WellFormed() && l.CursorOk(c)
    requires (forall len :: len in lens ==> len > 0) && |lens| > Left(l, c)
    ensures Drain(l, c, lens) == (l.Entries(Max(c.offset, l.HeadOffset()), |l.history|), l.NextOffset(), true)
    decreases |lens|
  {
    hide Log.Read, Log.Entries, Log.Where, Log.NextOffset;
    var r, lo := l.Read(c, lens[0]), Max(c.offset, l.HeadOffset());
    assert lens[0] in lens;
    ReadFromCursor(l, c, lens[0]);
    if r.done {
      EntriesConcat(l, lo, |l.history|, |l.history|);
    } else {
      PositionsAt(l);
      assert forall len :: len in lens[1..] ==> len in lens;
      DrainReturnsTheRest(l, r.end, lens[1..]);
      EntriesConcat(l, lo, lo + lens[0], |l.history|);
    }
  }
}

// One inflight window against one request and one account: what acknowledging, sweeping and
// rewinding do to the offsets that are settled, in flight, or still to be read.
module Flights {
  import opened Types
  import opened LogModel
  import opened DataLogModel
  import opened OutgoingModel
  import opened RouterModel
  import opened Forwarding

  // An entry that came from a log names an entry of that log, under its true position.
  ghost predicate EntryPlaced(dl: DataLog, e: Inflight) {
    e.cursor.Some? ==>
      && e.filterIdx < |dl.native|
      && e.cursor.value.offset < |dl.native[e.filterIdx].log.history|
      && e.cursor.value == dl.native[e.filterIdx].log.Where(e.cursor.value.offset)
  }

  predicate FromLog(e: Inflight, i: FilterIdx) {
    e.filterIdx == i && e.cursor.Some?
  }

  predicate At(e: Inflight, i: FilterIdx, o: nat) {
    FromLog(e, i) && e.cursor.value.offset == o
  }

  // Offsets of one log appear in increasing order.
  ghost predicate Rising(q: seq<Inflight>) {
    forall a, b :: 0 <= a < b < |q| && q[a].filterIdx == q[b].filterIdx && q[a].cursor.Some? && q[b].cursor.Some?
      ==> q[a].cursor.value.offset < q[b].cursor.value.offset
  }

  ghost predicate Placed(dl: DataLog, q: seq<Inflight>) {
    Rising(q) && forall e :: e in q ==> EntryPlaced(dl, e)
  }

  ghost predicate Flies(q: seq<Inflight>, i: FilterIdx, o: nat) {
    exists e :: e in q && At(e, i, o)
  }

  // Everything in flight for a log lies before an offset.
  ghost predicate Beyond(q: seq<Inflight>, i: FilterIdx, p: nat) {
    forall o: nat :: Flies(q, i, o) ==> o < p
  }

  // Acknowledged, evicted before it was read, or dropped by an acknowledgement for another packet.
  predicate Settled(a: Account, o: nat) {
    o in a.acked || o in a.missed || o in a.dropped
  }

  predicate Gone(a: Account, o: nat) {
    o in a.acked || o in a.dropped
  }

  // Go-back-N: from the start of the subscription to the position of its request everything is
  // settled or in flight, and what is acknowledged or dropped lies before all that is in flight. No
  // offset is counted twice.
  ghost predicate Covers(a: Account, q: seq<Inflight>, r: DataRequest) {
    && (r.qos != AtMostOnce ==>
          forall o: nat :: a.start <= o < r.cursor.offset ==> Settled(a, o) || Flies(q, r.filterIdx, o))
    && (forall x: nat :: Gone(a, x) ==> x < r.cursor.offset)
    && (forall x: nat, o: nat :: Gone(a, x) && Flies(q, r.filterIdx, o) ==> x < o)
    && (forall x: nat :: x in a.missed ==> !Gone(a, x) && !Flies(q, r.filterIdx, x))
    && a.acked !! a.dropped
  }

  ghost predicate Served(accounts: map<AccountKey, Account>, client: ClientId, q: seq<Inflight>, r: DataRequest) {
    && Beyond(q, r.filterIdx, r.cursor.offset)
    && ((client, r.filter) in accounts ==> Covers(accounts[(client, r.filter)], q, r))
  }

  // ---------------------------------------------------------------------------------------------
  // Acknowledging

  lemma FliesTail(q: seq<Inflight>, i: FilterIdx, o: nat)
    requires q != []
    ensures Flies(q, i, o) <==> (At(q[0], i, o)) || Flies(q[1..], i, o)
  {
    assert q == [q[0]] + q[1..];
    if Flies(q, i, o) {
      var e :| e in q && At(e, i, o);
      assert e == q[0] || e in q[1..];
    }
    if Flies(q[1..], i, o) {
      var e :| e in q[1..] && At(e, i, o);
      assert e in q;
    }
  }

  lemma HeadIsFirst(q: seq<Inflight>, i: FilterIdx, o: nat)
    requires q != [] && Rising(q) && FromLog(q[0], i) && Flies(q[1..], i, o)
    ensures q[0].cursor.value.offset < o
  {
    var e :| e in q[1..] && At(e, i, o);
    var b :| 0 <= b < |q| - 1 && q[1..][b] == e;
    assert q[b + 1] == e;
  }

  lemma TailPlaced(dl: DataLog, q: seq<Inflight>)
    requires q != [] && Placed(dl, q)
    ensures Placed(dl, q[1..])
  {
    hide EntryPlaced;
  }

  // The head of the window leaves it: its offset is settled, whichever way.
  lemma AckCovers(a: Account, q: seq<Inflight>, r: DataRequest, a': Account)
    requires q != [] && Rising(q) && Beyond(q, r.filterIdx, r.cursor.offset) && Covers(a, q, r)
    requires if FromLog(q[0], r.filterIdx) then
               || a' == a.(acked := a.acked + {q[0].cursor.value.offset})
               || a' == a.(dropped := a.dropped + {q[0].cursor.value.offset})
             else a' == a
    ensures Covers(a', q[1..], r)
    ensures Beyond(q[1..], r.filterIdx, r.cursor.offset)
  {
    hide Flies, Rising;
    var i := r.filterIdx;
    forall o: nat
      ensures Flies(q[1..], i, o) ==> Flies(q, i, o) && (FromLog(q[0], i) ==> q[0].cursor.value.offset < o)
      ensures Flies(q, i, o) <==> At(q[0], i, o) || Flies(q[1..], i, o)
    {
      FliesTail(q, i, o);
      if Flies(q[1..], i, o) && FromLog(q[0], i) {
        HeadIsFirst(q, i, o);
      }
    }
    if FromLog(q[0], i) {
      var h := q[0].cursor.value.offset;
      assert At(q[0], i, h) && Flies(q, i, h) && !Gone(a, h);
    }
    forall x: nat
      ensures Gone(a', x) <==> Gone(a, x) || At(q[0], i, x)
      ensures Settled(a, x) || At(q[0], i, x) ==> Settled(a', x)
    {
    }
  }

  // ---------------------------------------------------------------------------------------------
  // Sweeping

  // The window after a sweep of a QoS 1 or 2 request, in offsets.
  lemma SweepFlies(dl: DataLog, o: Outgoing, r: DataRequest, i: FilterIdx, x: nat)
    requires Readable(dl, r) && WindowOk(o) && r.qos != AtMostOnce
             && ForwardData(dl, o, r).2 != ConsumeStatus.InflightFull
    ensures var f, lo := ForwardData(dl, o, r), From(dl.native[r.filterIdx].log, r.cursor);
            Flies(f.0.inflight, i, x) <==> Flies(o.inflight, i, x) || (i == r.filterIdx && lo <= x < f.1.cursor.offset)
  {
    hide ForwardData, RetainedCount, WindowOk, Log.CursorOk, Log.Where;
    ForwardFills(dl, o, r);
    var l, f, lo := dl.native[r.filterIdx].log, ForwardData(dl, o, r), From(dl.native[r.filterIdx].log, r.cursor);
    var q, q', n, w := o.inflight, f.0.inflight, |o.inflight|, |o.inflight| + RetainedCount(dl, o, r);
    if Flies(q, i, x) {
      var e :| e in q && At(e, i, x);
      assert e in q'[..n];
      assert Flies(q', i, x);
    }
    if i == r.filterIdx && lo <= x < f.1.cursor.offset {
      var j := w + (x - lo);
      assert q'[j].cursor == Some(l.Where(lo + (j - w)));
      WhereOffset(l, x);
      assert At(q'[j], i, x);
    }
    if Flies(q', i, x) {
      var e :| e in q' && At(e, i, x);
      var j :| 0 <= j < |q'| && q'[j] == e;
      if j < n {
        assert q'[..n][j] == q[j];
      } else {
        assert w <= j;
        WhereOffset(l, lo + (j - w));
      }
    }
  }

  lemma WhereOffset(l: Log, o: nat)
    ensures l.Where(o).offset == o
  {
  }

  lemma SweepPlaced(dl: DataLog, o: Outgoing, r: DataRequest)
    requires Readable(dl, r) && WindowOk(o)
    requires Placed(dl, o.inflight) && Beyond(o.inflight, r.filterIdx, r.cursor.offset)
    ensures Placed(dl, ForwardData(dl, o, r).0.inflight)
  {
    hide ForwardData, RetainedCount, WindowOk, Log.CursorOk, Log.Where, Beyond, Placed, Holds;
    ForwardFills(dl, o, r);
    ForwardMoves(dl, o, r);
    var l, f, lo := dl.native[r.filterIdx].log, ForwardData(dl, o, r), From(dl.native[r.filterIdx].log, r.cursor);
    if r.qos != AtMostOnce && f.2 != ConsumeStatus.InflightFull {
      EndBound(l, f.1.cursor);
      AppendedPlaced(dl, o.inflight, f.0.inflight, r.filterIdx, |o.inflight| + RetainedCount(dl, o, r), lo,
                     r.cursor.offset);
    }
  }

  lemma EndBound(l: Log, c: Cursor)
    requires l.WellFormed() && l.CursorOk(c)
    ensures c.offset <= |l.history|
  {
  }

  lemma AppendedPlaced(dl: DataLog, q: seq<Inflight>, q': seq<Inflight>, i: FilterIdx, w: nat, lo: nat, p: nat)
    requires i < |dl.native| && Placed(dl, q) && Beyond(q, i, p) && p <= lo
    requires |q| <= w <= |q'| && q'[..|q|] == q && lo + (|q'| - w) <= |dl.native[i].log.history|
    requires forall j :: |q| <= j < w ==> q'[j].filterIdx == i && q'[j].cursor == None
    requires Holds(q', i, dl.native[i].log, w, lo)
    ensures Placed(dl, q')
  {
    hide Log.Where;
    var l := dl.native[i].log;
    forall j | 0 <= j < |q'|
      ensures EntryPlaced(dl, q'[j])
      ensures w <= j ==> q'[j].cursor.Some? && q'[j].cursor.value.offset == lo + (j - w)
      ensures j < |q| ==> q'[j] == q[j]
      ensures j < |q| && FromLog(q'[j], i) ==> q'[j].cursor.value.offset < p
    {
      if j < |q| {
        assert q'[..|q|][j] == q[j];
        if FromLog(q[j], i) {
          assert q[j] in q && At(q[j], i, q[j].cursor.value.offset);
          assert Flies(q, i, q[j].cursor.value.offset);
        }
      } else if w <= j {
        WhereOffset(l, lo + (j - w));
      }
    }
  }

  // The request after a sweep is served as it was before.
  lemma SweepCovers(dl: DataLog, o: Outgoing, r: DataRequest, a: Account)
    requires Readable(dl, r) && WindowOk(o)
    requires Beyond(o.inflight, r.filterIdx, r.cursor.offset) && Covers(a, o.inflight, r)
    requires forall x: nat :: x in a.missed ==> x < dl.native[r.filterIdx].log.HeadOffset()
    ensures var f := ForwardData(dl, o, r);
            var a' := if f.2 == ConsumeStatus.InflightFull then a
                      else a.(missed := a.missed + Range(r.cursor.offset, dl.native[r.filterIdx].log.HeadOffset()));
            Covers(a', f.0.inflight, f.1)
  {
    hide ForwardData, RetainedCount, WindowOk, Log.CursorOk, Log.Where, Flies;
    ForwardMoves(dl, o, r);
    var f, lo := ForwardData(dl, o, r), From(dl.native[r.filterIdx].log, r.cursor);
    if f.2 != ConsumeStatus.InflightFull {
      PullReads(dl, o, r);
      SweepRange(dl, r);
      ForwardFills(dl, o, r);
      forall x: nat | r.qos != AtMostOnce
        ensures Flies(f.0.inflight, r.filterIdx, x) <==>
                  Flies(o.inflight, r.filterIdx, x) || lo <= x < f.1.cursor.offset
      {
        SweepFlies(dl, o, r, r.filterIdx, x);
      }
      var a' := a.(missed := a.missed + Range(r.cursor.offset, dl.native[r.filterIdx].log.HeadOffset()));
      forall x: nat
        ensures Gone(a', x) == Gone(a, x)
        ensures Settled(a, x) || (r.cursor.offset <= x < lo) ==> Settled(a', x)
      {
      }
    }
  }

  lemma SweepRange(dl: DataLog, r: DataRequest)
    requires Readable(dl, r)
    ensures var lo := From(dl.native[r.filterIdx].log, r.cursor);
            && r.cursor.offset <= lo
            && forall x: nat :: r.cursor.offset <= x < lo ==>
                x in Range(r.cursor.offset, dl.native[r.filterIdx].log.HeadOffset())
  {
    hide Log.CursorOk;
    forall x: nat | r.cursor.offset <= x < From(dl.native[r.filterIdx].log, r.cursor)
      ensures x in Range(r.cursor.offset, dl.native[r.filterIdx].log.HeadOffset())
    {
      assert Within(r.cursor.offset, x, dl.native[r.filterIdx].log.HeadOffset());
    }
  }

  // ---------------------------------------------------------------------------------------------
  // Rewinding

  // First unacknowledged offset of a request: the least in flight, or its position when none is.
  ghost predicate FirstUnacked(q: seq<Inflight>, r: DataRequest, first: nat) {
    && (forall o: nat :: Flies(q, r.filterIdx, o) ==> first <= o)
    && (if exists o: nat :: Flies(q, r.filterIdx, o) then Flies(q, r.filterIdx, first) else first == r.cursor.offset)
  }

  // retransmission_map finds the least offset in flight of every log that has one, and no other.
  ghost predicate LeastAt(q: seq<Inflight>, i: FilterIdx, m: map<FilterIdx, Cursor>) {
    if i in m then Flies(q, i, m[i].offset) && forall o: nat :: Flies(q, i, o) ==> m[i].offset <= o
    else forall o: nat :: !Flies(q, i, o)
  }

  lemma {:induction false} RetransmitsFirst(q: seq<Inflight>, i: FilterIdx)
    requires Rising(q)
    ensures LeastAt(q, i, Retransmissions(q))
    decreases |q|
  {
    if q == [] {
      forall o: nat
        ensures !Flies(q, i, o)
      {
        NothingFlies(i, o);
      }
    } else {
      RetransmitsFirst(q[..|q| - 1], i);
      LeastSnoc(q, i);
    }
  }

  lemma LeastSnoc(q: seq<Inflight>, i: FilterIdx)
    requires q != [] && Rising(q) && LeastAt(q[..|q| - 1], i, Retransmissions(q[..|q| - 1]))
    ensures LeastAt(q, i, Retransmissions(q))
  {
    hide Flies;
    var rest, e := q[..|q| - 1], q[|q| - 1];
    assert q == rest + [e];
    forall o: nat
      ensures Flies(q, i, o) <==> Flies(rest, i, o) || At(e, i, o)
    {
      FliesLast(rest, e, i, o);
    }
    var m := Retransmissions(rest);
    if FromLog(e, i) && i in m {
      LastIsLater(q, i, m[i].offset);
    }
    if FromLog(e, i) {
      assert At(e, i, e.cursor.value.offset);
    }
  }

  lemma LastIsLater(q: seq<Inflight>, i: FilterIdx, o: nat)
    requires q != [] && Rising(q) && FromLog(q[|q| - 1], i) && Flies(q[..|q| - 1], i, o)
    ensures o < q[|q| - 1].cursor.value.offset
  {
    var rest := q[..|q| - 1];
    var d :| d in rest && At(d, i, o);
    var b :| 0 <= b < |rest| && rest[b] == d;
    assert q[b] == d;
  }

  lemma FliesLast(rest: seq<Inflight>, e: Inflight, i: FilterIdx, o: nat)
    ensures Flies(rest + [e], i, o) <==> Flies(rest, i, o) || (At(e, i, o))
  {
    if Flies(rest + [e], i, o) {
      var d :| d in rest + [e] && At(d, i, o);
      assert d in rest || d == e;
    }
    if Flies(rest, i, o) {
      var d :| d in rest && At(d, i, o);
      assert d in rest + [e];
    }
    if At(e, i, o) {
      assert e in rest + [e];
    }
  }

  // A disconnect rewinds a request to exactly its first unacknowledged offset.
  lemma RewindsToFirst(q: seq<Inflight>, r: DataRequest)
    requires Rising(q)
    ensures FirstUnacked(q, r, Rewind(r, Retransmissions(q)).cursor.offset)
  {
    hide Rising, Retransmissions, Flies;
    RetransmitsFirst(q, r.filterIdx);
    var first := Rewind(r, Retransmissions(q)).cursor.offset;
    if r.filterIdx in Retransmissions(q) {
      assert Flies(q, r.filterIdx, first);
    }
  }

  // Nothing is in flight afterwards, and everything before the rewound position is settled.
  lemma RewindCovers(a: Account, q: seq<Inflight>, r: DataRequest)
    requires Rising(q) && Beyond(q, r.filterIdx, r.cursor.offset) && Covers(a, q, r)
    ensures Covers(a, [], Rewind(r, Retransmissions(q)))
  {
    hide Rising, Retransmissions, Flies;
    RewindsToFirst(q, r);
    forall o: nat
      ensures !Flies([], r.filterIdx, o)
    {
      NothingFlies(r.filterIdx, o);
    }
  }

  lemma NothingFlies(i: FilterIdx, o: nat)
    ensures !Flies([], i, o)
  {
  }
}

// One sweep of a request in terms of the history of its log: what it reads, where it ends up, and
// which entries it leaves in the inflight window.
module Forwarding {
  import opened Types
  import opened LogModel
  import opened DataLogModel
  import opened OutgoingModel
  import opened RouterModel

  ghost predicate Readable(dl: DataLog, r: DataRequest) {
    && r.filterIdx < |dl.native|
    && dl.native[r.filterIdx].log.WellFormed()
    && dl.native[r.filterIdx].log.CursorOk(r.cursor)
  }

  function From(l: Log, c: Cursor): nat
    requires l.head < |l.starts|
  {
    Max(c.offset, l.HeadOffset())
  }

  // Number of retained publishes a sweep puts in front of the log entries.
  ghost function RetainedCount(dl: DataLog, o: Outgoing, r: DataRequest): nat {
    |RetainedItems(dl, r, Slots(dl, o, r))|
  }

  lemma PullReads(dl: DataLog, o: Outgoing, r: DataRequest)
    requires Readable(dl, r)
    ensures var l, read, slots, n := dl.native[r.filterIdx].log, Pull(dl, o, r), Slots(dl, o, r),
            RetainedCount(dl, o, r);
            && n <= slots
            && From(l, r.cursor) <= read.end.offset <= |l.history|
            && read.end == l.Where(read.end.offset)
            && l.CursorOk(read.end)
            && read.entries == l.Entries(From(l, r.cursor), read.end.offset)
            && |read.entries| == read.end.offset - From(l, r.cursor) <= slots - n
            && (read.done <==> read.end.offset == |l.history|)
            && (!read.done ==> |read.entries| == slots - n)
  {
    hide Log.Read, Log.CursorOk, Slots;
    var l, slots, n := dl.native[r.filterIdx].log, Slots(dl, o, r), RetainedCount(dl, o, r);
    RetainedFits(dl, r, slots);
    ReadFromCursor(l, r.cursor, slots - n);
    var lo := From(l, r.cursor);
    EntriesConcat(l, lo, lo, Min(lo + (slots - n), |l.history|));
  }

  lemma RetainedFits(dl: DataLog, r: DataRequest, slots: nat)
    ensures |RetainedItems(dl, r, slots)| <= slots
    ensures forall i :: 0 <= i < |RetainedItems(dl, r, slots)| ==> RetainedItems(dl, r, slots)[i].1 == None
  {
    hide RetainedFor;
  }

  // The request afterwards: same filter and log, at the position the read ended; parked only at the
  // end of the log unless the broker is configured to read nothing at a time.
  lemma ForwardMoves(dl: DataLog, o: Outgoing, r: DataRequest)
    requires Readable(dl, r)
    ensures var l, f := dl.native[r.filterIdx].log, ForwardData(dl, o, r);
            && f.1.filter == r.filter && f.1.filterIdx == r.filterIdx && f.1.qos == r.qos
            && l.CursorOk(f.1.cursor)
            && (f.2 == ConsumeStatus.InflightFull <==> r.qos != AtMostOnce && o.FreeSlots() == 0)
            && (f.2 == ConsumeStatus.InflightFull ==> f.1 == r && f.0 == o)
            && (f.2 != ConsumeStatus.InflightFull ==> f.1.cursor == Pull(dl, o, r).end)
            && (f.2 == FilterCaughtup && (r.qos != AtMostOnce || dl.config.maxOutgoingPacketCount > 0) ==>
                  f.1.cursor == l.NextOffset())
  {
    hide Pull, Log.CursorOk, RetainedItems, Outgoing.PushForwards;
    PullReads(dl, o, r);
    WhereIsOk(dl.native[r.filterIdx].log, Pull(dl, o, r).end.offset);
    ItemsCount(dl, o, r);
  }

  lemma ItemsCount(dl: DataLog, o: Outgoing, r: DataRequest)
    requires Readable(dl, r)
    ensures var items := RetainedItems(dl, r, Slots(dl, o, r)) + LogItems(Pull(dl, o, r).entries);
            |items| == RetainedCount(dl, o,
                                     r) + (Pull(dl, o, r).end.offset - From(dl.native[r.filterIdx].log, r.cursor))
  {
    hide Pull, Slots, RetainedItems;
    PullReads(dl, o, r);
  }

  // Entries i on of the window stand for the offsets lo on, under their true positions.
  ghost predicate Holds(inflight: seq<Inflight>, idx: FilterIdx, l: Log, w: nat, lo: nat) {
    forall i :: w <= i < |inflight| ==>
      inflight[i].filterIdx == idx && lo + (i - w) >= 0 && inflight[i].cursor == Some(l.Where(lo + (i - w)))
  }

  // The window afterwards: retained publishes without a cursor, then one entry for each offset read,
  // in order, under its true position.
  lemma ForwardFills(dl: DataLog, o: Outgoing, r: DataRequest)
    requires Readable(dl, r) && WindowOk(o)
    ensures var l, f, n, lo := dl.native[r.filterIdx].log, ForwardData(dl, o, r), RetainedCount(dl, o, r),
            From(dl.native[r.filterIdx].log, r.cursor);
            var w := |o.inflight| + n;
            if r.qos == AtMostOnce || f.2 == ConsumeStatus.InflightFull then f.0.inflight == o.inflight
            else
              && lo <= f.1.cursor.offset
              && |f.0.inflight| == w + (f.1.cursor.offset - lo)
              && f.0.inflight[..|o.inflight|] == o.inflight
              && (forall i :: |o.inflight| <= i < w ==>
                    f.0.inflight[i].filterIdx == r.filterIdx && f.0.inflight[i].cursor == None)
              && Holds(f.0.inflight, r.filterIdx, l, w, lo)
  {
    hide Pull, Slots, RetainedItems, LogItems, Outgoing.PushForwards, Log.Where, Log.CursorOk;
    var items := RetainedItems(dl, r, Slots(dl, o, r)) + LogItems(Pull(dl, o, r).entries);
    PullReads(dl, o, r);
    ItemsCount(dl, o, r);
    if r.qos == AtMostOnce {
      PushForwardsQoS0(o, items, r.filterIdx);
    } else {
      PushedFills(dl, o, r);
    }
  }

  lemma PushedFills(dl: DataLog, o: Outgoing, r: DataRequest)
    requires Readable(dl, r) && WindowOk(o) && r.qos != AtMostOnce
    ensures var l, n, lo := dl.native[r.filterIdx].log, RetainedCount(dl, o, r),
            From(dl.native[r.filterIdx].log, r.cursor);
            var items := RetainedItems(dl, r, Slots(dl, o, r)) + LogItems(Pull(dl, o, r).entries);
            var w, q := |o.inflight| + n, o.PushForwards(items, r.qos, r.filterIdx).inflight;
            && n <= |items| && |q| == |o.inflight| + |items|
            && q[..|o.inflight|] == o.inflight
            && (forall i :: |o.inflight| <= i < w ==> q[i].filterIdx == r.filterIdx && q[i].cursor == None)
            && Holds(q, r.filterIdx, l, w, lo)
  {
    hide Pull, Slots, RetainedItems, RetainedCount, LogItems, Outgoing.PushForwards, Log.Where, Log.CursorOk, WindowOk;
    var n, lo := RetainedCount(dl, o, r), From(dl.native[r.filterIdx].log, r.cursor);
    var items := RetainedItems(dl, r, Slots(dl, o, r)) + LogItems(Pull(dl, o, r).entries);
    ItemsAre(dl, o, r);
    PushForwardsSends(o, items, r.qos, r.filterIdx);
    var b, q := |o.inflight|, o.PushForwards(items, r.qos, r.filterIdx).inflight;
    forall i | b <= i < |q|
      ensures q[i].filterIdx == r.filterIdx && q[i].cursor == items[i - b].1
    {
      var k := i - b;
      assert items[k].1 == q[b + k].cursor;
    }
  }

  lemma ItemsAre(dl: DataLog, o: Outgoing, r: DataRequest)
    requires Readable(dl, r)
    ensures var l, n, lo := dl.native[r.filterIdx].log, RetainedCount(dl, o, r),
            From(dl.native[r.filterIdx].log, r.cursor);
            var items := RetainedItems(dl, r, Slots(dl, o, r)) + LogItems(Pull(dl, o, r).entries);
            && n <= |items| && lo + (|items| - n) <= |l.history|
            && (forall i :: 0 <= i < n ==> items[i].1 == None)
            && (forall i :: n <= i < |items| ==> items[i] == (l.history[lo + (i - n)], Some(l.Where(lo + (i - n)))))
  {
    hide Pull, Slots, RetainedItems, Log.Where, Log.CursorOk;
    var l, lo, n := dl.native[r.filterIdx].log, From(dl.native[r.filterIdx].log, r.cursor), RetainedCount(dl, o, r);
    PullReads(dl, o, r);
    ItemsCount(dl, o, r);
    RetainedFits(dl, r, Slots(dl, o, r));
    var es := Pull(dl, o, r).entries;
    forall k | 0 <= k < |es|
      ensures es[k] == (l.history[lo + k], l.Where(lo + k))
    {
      EntryAt(l, lo, Pull(dl, o, r).end.offset, lo + k);
    }
  }

  // A notification that carries an entry of a log as it was published, under the QoS of the subscription.
  ghost predicate Carries(m: Notification, l: Log, o: nat, qos: QoS)
    requires o < |l.history|
  {
    m.Forward? && m.cursor == Some(l.Where(o)) && m.publish == l.history[o].(qos := qos, pkid := m.publish.pkid)
  }

  // Each log entry that was read is handed to the link once, with its own payload, in order.
  lemma ForwardDelivers(dl: DataLog, o: Outgoing, r: DataRequest)
    requires Readable(dl, r) && WindowOk(o)
    ensures var l, f, lo := dl.native[r.filterIdx].log, ForwardData(dl, o, r),
            From(dl.native[r.filterIdx].log, r.cursor);
            var w := |o.buffer| + RetainedCount(dl, o, r);
            f.2 != ConsumeStatus.InflightFull ==>
              && lo <= f.1.cursor.offset <= |l.history|
              && |f.0.buffer| >= w + (f.1.cursor.offset - lo)
              && f.0.buffer[..|o.buffer|] == o.buffer
              && forall j :: w <= j < w + (f.1.cursor.offset - lo) ==> Carries(f.0.buffer[j], l, lo + (j - w), r.qos)
  {
    hide Pull, Slots, RetainedItems, LogItems, Outgoing.PushForwards, Log.CursorOk, Carries;
    PullReads(dl, o, r);
    ItemsCount(dl, o, r);
    PushedCarries(dl, o, r);
  }

  lemma PushedCarries(dl: DataLog, o: Outgoing, r: DataRequest)
    requires Readable(dl, r) && WindowOk(o)
    ensures var l, lo := dl.native[r.filterIdx].log, From(dl.native[r.filterIdx].log, r.cursor);
            var items := RetainedItems(dl, r, Slots(dl, o, r)) + LogItems(Pull(dl, o, r).entries);
            var w, q := |o.buffer| + RetainedCount(dl, o, r), o.PushForwards(items, r.qos, r.filterIdx).buffer;
            && |q| == |o.buffer| + |items| && q[..|o.buffer|] == o.buffer
            && lo + (|q| - w) <= |l.history|
            && forall j :: w <= j < |q| ==> Carries(q[j], l, lo + (j - w), r.qos)
  {
    hide Pull, Slots, RetainedItems, RetainedCount, LogItems, Outgoing.PushForwards, Log.Where, Log.CursorOk, WindowOk;
    var l, n, lo := dl.native[r.filterIdx].log, RetainedCount(dl, o, r), From(dl.native[r.filterIdx].log, r.cursor);
    var items := RetainedItems(dl, r, Slots(dl, o, r)) + LogItems(Pull(dl, o, r).entries);
    ItemsAre(dl, o, r);
    if r.qos == AtMostOnce {
      PushForwardsQoS0(o, items, r.filterIdx);
    } else {
      PushForwardsSends(o, items, r.qos, r.filterIdx);
    }
    var b, q := |o.buffer|, o.PushForwards(items, r.qos, r.filterIdx).buffer;
    forall j | b + n <= j < |q|
      ensures Carries(q[j], l, lo + (j - b - n), r.qos)
    {
      assert items[j - b] == (l.history[lo + (j - b - n)], Some(l.Where(lo + (j - b - n))));
      assert q[b + (j - b)].Forward?;
    }
  }

  predicate UnderIts(b: seq<Notification>, j: nat, e: Inflight) {
    j < |b| && b[j].Forward? && b[j].publish.pkid == e.pkid && b[j].cursor == e.cursor
  }

  // Every entry a sweep adds to the window goes out under the packet id and position it has there.
  lemma ForwardPairs(dl: DataLog, o: Outgoing, r: DataRequest)
    requires WindowOk(o) && r.qos != AtMostOnce
    ensures var f, w, b := ForwardData(dl, o, r), |o.inflight|, |o.buffer|;
            forall i :: w <= i < |f.0.inflight| ==> UnderIts(f.0.buffer, b + (i - w), f.0.inflight[i])
  {
    hide Pull, Slots, RetainedItems, LogItems, Outgoing.PushForwards;
    var items := RetainedItems(dl, r, Slots(dl, o, r)) + LogItems(Pull(dl, o, r).entries);
    PushForwardsSends(o, items, r.qos, r.filterIdx);
    var p, w, b := o.PushForwards(items, r.qos, r.filterIdx), |o.inflight|, |o.buffer|;
    forall i | w <= i < |p.inflight|
      ensures UnderIts(p.buffer, b + (i - w), p.inflight[i])
    {
      assert SentAs(p, w + (i - w), b + (i - w), items[i - w], r.qos, r.filterIdx);
    }
  }

  // How a sweep ends. Something sent takes one token, if there is room for it; a buffer that then holds 199
  // notifications or more gets Unschedule behind them.
  lemma ForwardEnds(dl: DataLog, o: Outgoing, r: DataRequest)
    requires Readable(dl, r) && WindowOk(o)
    ensures var l, f, lo := dl.native[r.filterIdx].log, ForwardData(dl, o, r),
            From(dl.native[r.filterIdx].log, r.cursor);
            var sent := RetainedCount(dl, o, r) + (f.1.cursor.offset - lo);
            var more := if o.tokens < 200 then o.tokens + 1 else o.tokens;
            if r.qos != AtMostOnce && |o.inflight| == 100 then f.0 == o && f.1 == r && f.2 == ConsumeStatus.InflightFull
            else if sent == 0 then f.0 == o && f.2 == FilterCaughtup
            else if |o.buffer| + sent >= 199 then
              && f.2 == BufferFull && |f.0.buffer| == |o.buffer| + sent + 1 && f.0.tokens == more
              && f.0.buffer[|o.buffer| + sent] == Unschedule
            else
              && f.2 == (if f.1.cursor.offset == |l.history| then FilterCaughtup else PartialRead)
              && |f.0.buffer| == |o.buffer| + sent && f.0.tokens == more
  {
    hide Pull, Slots, RetainedItems, LogItems, Outgoing.PushForwards, Log.CursorOk;
    PullReads(dl, o, r);
    ItemsCount(dl, o, r);
    var items := RetainedItems(dl, r, Slots(dl, o, r)) + LogItems(Pull(dl, o, r).entries);
    SlotsLeft(dl, o, r);
    if r.qos == AtMostOnce {
      PushForwardsQoS0(o, items, r.filterIdx);
    } else {
      PushForwardsSends(o, items, r.qos, r.filterIdx);
    }
  }

  lemma SlotsLeft(dl: DataLog, o: Outgoing, r: DataRequest)
    requires WindowOk(o)
    ensures Slots(dl, o, r) == if r.qos != AtMostOnce then MAX_INFLIGHT - |o.inflight|
            else dl.config.maxOutgoingPacketCount
  {
  }

  // A broker configured to read zero entries at a time takes every QoS 0 reader for caught up.
  lemma ZeroLimitStopsReaders(dl: DataLog, o: Outgoing, r: DataRequest)
    requires Readable(dl, r) && r.qos == AtMostOnce && dl.config.maxOutgoingPacketCount == 0
    ensures ForwardData(dl, o, r).2 == FilterCaughtup
    ensures ForwardData(dl, o, r).1.cursor.offset == From(dl.native[r.filterIdx].log, r.cursor)
  {
    hide Pull, RetainedItems, Log.CursorOk, Outgoing.PushForwards;
    PullReads(dl, o, r);
    RetainedFits(dl, r, 0);
    ItemsCount(dl, o, r);
  }
}

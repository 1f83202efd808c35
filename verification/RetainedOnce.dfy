// Retained publishes are sent by the first sweep of a subscription and never again, also when a
// connection goes before they are acknowledged.
module RetainedOnce {
  import opened Types
  import opened Slabs
  import opened LogModel
  import opened DataLogModel
  import opened OutgoingModel
  import opened SchedulerModel
  import opened RouterModel
  import opened Forwarding
  import opened Identity
  import opened Queue
  import opened Sessions

  // An entry of the window that stands for a retained publish of a log.
  predicate RetainedEntry(e: Inflight, i: FilterIdx) {
    e.filterIdx == i && e.cursor.None?
  }

  // A sweep that reads anything reads the retained store for the last time; only a sweep that reads it
  // puts retained publishes into the window.
  lemma SweepSendsRetainedOnce(dl: DataLog, o: Outgoing, r: DataRequest)
    requires Readable(dl, r) && WindowOk(o)
    ensures var f := ForwardData(dl, o, r);
            && (f.1.forwardRetained <==> r.forwardRetained && f.2 == ConsumeStatus.InflightFull)
            && forall e :: e in f.0.inflight && RetainedEntry(e, r.filterIdx) ==>
                e in o.inflight || (r.forwardRetained && !f.1.forwardRetained)
  {
    hide Pull, Slots, RetainedItems, LogItems, Outgoing.PushForwards, Log.Where, Log.CursorOk, WindowOk, ForwardData;
    var f := ForwardData(dl, o, r);
    ForwardMoves(dl, o, r);
    ForwardFlag(dl, o, r);
    ForwardFills(dl, o, r);
    if !r.forwardRetained {
      NoRetained(dl, o, r);
      forall e | e in f.0.inflight && RetainedEntry(e, r.filterIdx)
        ensures e in o.inflight
      {
        var j :| 0 <= j < |f.0.inflight| && f.0.inflight[j] == e;
        assert j < |o.inflight| ==> e == f.0.inflight[..|o.inflight|][j];
      }
    }
  }

  lemma ForwardFlag(dl: DataLog, o: Outgoing, r: DataRequest)
    ensures var f := ForwardData(dl, o, r);
            f.1.forwardRetained <==> r.forwardRetained && r.qos != AtMostOnce && o.FreeSlots() == 0
  {
    hide Pull, RetainedItems, LogItems, Outgoing.PushForwards, Outgoing.FreeSlots;
  }

  lemma NoRetained(dl: DataLog, o: Outgoing, r: DataRequest)
    requires !r.forwardRetained
    ensures RetainedItems(dl, r, Slots(dl, o, r)) == [] && RetainedCount(dl, o, r) == 0
  {
  }

  // Some request of a log is still to read the retained store.
  ghost predicate ReadsRetained(rs: seq<DataRequest>, i: FilterIdx) {
    exists r :: r in rs && r.filterIdx == i && r.forwardRetained
  }

  lemma RewindKeepsFlags(rs: seq<DataRequest>, m: map<FilterIdx, Cursor>, i: FilterIdx)
    ensures ReadsRetained(RewindAll(rs, m), i) <==> ReadsRetained(rs, i)
  {
    var ts := RewindAll(rs, m);
    if ReadsRetained(ts, i) {
      var t :| t in ts && t.filterIdx == i && t.forwardRetained;
      var j :| 0 <= j < |ts| && ts[j] == t;
      assert rs[j] in rs && rs[j].filterIdx == i && rs[j].forwardRetained;
    }
    if ReadsRetained(rs, i) {
      var r :| r in rs && r.filterIdx == i && r.forwardRetained;
      var j :| 0 <= j < |rs| && rs[j] == r;
      assert ts[j] in ts && ts[j].filterIdx == i && ts[j].forwardRetained;
    }
  }

  // A persistent client disconnects and comes back: its window is empty, and the retained store is read
  // again for a log if and only if it had not been read before. Retained publishes that were in flight
  // under an earlier read are not sent again.
  lemma ResumedReadsRetainedIff(s: Router, id: ConnectionId, will: Option<Publish>, i: FilterIdx)
    requires Identified(s) && SavedBusy(s) && Present(s, id) && !s.connections.m[id].clean
    requires Accepted(Disconnect(s, id), s.connections.m[id].clientId)
    ensures var t := Connect(Disconnect(s, id), s.connections.m[id].clientId, false, will);
            && Present(t, id) && t.obufs.m[id].inflight == []
            && (ReadsRetained(t.scheduler.trackers.m[id].requests, i) <==>
                ReadsRetained(s.scheduler.trackers.m[id].requests + Clean(s.datalog, id).1, i))
  {
    hide Connect, Disconnect, Identified, SavedBusy, Accepted, Clean, RewindAll, Retransmissions, ReadsRetained;
    SessionRoundTrip(s, id, will);
    RewindKeepsFlags(s.scheduler.trackers.m[id].requests + Clean(s.datalog, id).1,
                     Retransmissions(s.obufs.m[id].inflight), i);
  }

  // So what was in flight without a cursor is lost: a request that has read the store before puts only
  // entries of its log into the new window.
  lemma RetainedIsLost(dl: DataLog, o: Outgoing, r: DataRequest)
    requires Readable(dl, r) && WindowOk(o) && !r.forwardRetained && o.inflight == []
    ensures forall e :: e in ForwardData(dl, o, r).0.inflight ==> e.cursor.Some?
    ensures !ForwardData(dl, o, r).1.forwardRetained
  {
    hide ForwardData, Pull, Slots, RetainedItems, LogItems, Log.Where, Log.CursorOk, WindowOk;
    SweepSendsRetainedOnce(dl, o, r);
    ForwardFills(dl, o, r);
    NoRetained(dl, o, r);
  }
}

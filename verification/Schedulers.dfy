// Trackers and ready queue, in place.
module Schedulers {
  import opened Types
  import opened Slabs
  import M = SchedulerModel
  import opened Queue

  class Scheduler {
    var trackers: Slab<M.Tracker>
    var readyqueue: seq<ConnectionId>

    ghost function Model(): M.Scheduler
      reads this
    {
      M.Scheduler(trackers, readyqueue)
    }

    constructor ()
      ensures Model() == M.Scheduler(New(), [])
    {
      trackers, readyqueue := New(), [];
    }

    method Add(tracker: M.Tracker) returns (id: ConnectionId)
      modifies this`trackers
      ensures trackers == old(trackers).Insert(tracker) && id == old(trackers).NextKey()
      ensures old(trackers).WellFormed() ==> trackers.WellFormed() && id !in old(trackers).m
    {
      if trackers.WellFormed() {
        InsertKeeps(trackers, tracker);
      }
      id := trackers.NextKey();
      trackers := trackers.Insert(tracker);
    }

    method Remove(id: ConnectionId) returns (tracker: M.Tracker)
      requires id in trackers.m
      modifies this`trackers
      ensures tracker == old(trackers).m[id] && trackers == old(trackers).Remove(id)
      ensures QueueKept(old(Model()), Model())
    {
      tracker := trackers.m[id];
      trackers := trackers.Remove(id);
    }

    // The connection at the front moves to the back and hands out its requests; an id without a
    // tracker is dropped.
    method Poll() returns (next: Option<(ConnectionId, seq<DataRequest>)>)
      modifies this
      ensures readyqueue == old(Model()).Rotate().readyqueue
      ensures if old(readyqueue) == [] || old(readyqueue)[0] !in old(trackers).m then next == None
              && trackers == old(trackers)
              else
                var id := old(readyqueue)[0];
                && next == Some((id, old(trackers).m[id].requests))
                && trackers == old(trackers).Set(id, old(trackers).m[id].(requests := []))
                && AtBack(Model(), id)
      ensures QueueKept(old(Model()), Model())
    {
      ghost var c := Model();
      RotateQueue(c);
      if readyqueue == [] {
        return None;
      }
      var id := readyqueue[0];
      readyqueue := readyqueue[1..];
      if id !in trackers.m {
        return None;
      }
      var dataRequests := trackers.m[id].requests;
      trackers := trackers.Set(id, trackers.m[id].(requests := []));
      readyqueue := readyqueue + [id];
      SetRequestsQueue(c.Rotate(), id, trackers.m[id]);
      return Some((id, dataRequests));
    }

    method Track(id: ConnectionId, request: DataRequest)
      requires id in trackers.m
      modifies this`trackers
      ensures Model() == old(Model()).Track(id, request)
    {
      trackers := trackers.Set(id, trackers.m[id].(requests := trackers.m[id].requests + [request]));
    }

    method Untrack(id: ConnectionId, filter: Filter)
      requires id in trackers.m
      modifies this`trackers
      ensures Model() == old(Model()).Untrack(id, filter)
    {
      var rs := trackers.m[id].requests;
      var kept: seq<DataRequest> := [];
      var i := 0;
      while i < |rs|
        invariant i <= |rs| && kept == M.WithoutFilter(rs[..i], filter)
      {
        assert rs[..i + 1][..i] == rs[..i];
        if rs[i].filter != filter {
          kept := kept + [rs[i]];
        }
        i := i + 1;
      }
      assert rs[..i] == rs;
      trackers := trackers.Set(id, trackers.m[id].(requests := kept));
    }

    method Trackv(id: ConnectionId, requests: seq<DataRequest>)
      requires id in trackers.m
      modifies this`trackers
      ensures trackers == old(trackers).Set(id,
                                            old(trackers).m[id].(requests := old(trackers).m[id].requests + requests))
    {
      trackers := trackers.Set(id, trackers.m[id].(requests := trackers.m[id].requests + requests));
    }

    method Reschedule(id: ConnectionId, reason: M.ScheduleReason)
      requires id in trackers.m
      modifies this
      ensures Model() == old(Model()).Reschedule(id, reason)
      ensures QueueKept(old(Model()), Model())
    {
      RescheduleQueue(Model(), id, reason);
      var ready, tracker := TryReady(trackers.m[id], reason);
      if ready {
        trackers := trackers.Set(id, tracker);
        readyqueue := readyqueue + [id];
      }
    }

    // The id at the back of the queue must be the one that is paused.
    method Pause(id: ConnectionId, reason: M.PauseReason)
      requires id in trackers.m && AtBack(Model(), id)
      modifies this
      ensures Model() == old(Model()).Pause(id, reason)
      ensures QueueKept(old(Model()), Model())
    {
      PauseQueue(Model(), id, reason);
      var back := readyqueue[|readyqueue| - 1];
      readyqueue := readyqueue[..|readyqueue| - 1];
      assert back == id;
      trackers := trackers.Set(id, trackers.m[id].(status := M.Paused(reason)));
    }
  }

  // The state machine of one tracker.
  method TryReady(t: M.Tracker, reason: M.ScheduleReason) returns (ready: bool, t': M.Tracker)
    ensures ready <==> M.Awakens(t.status, reason)
    ensures ready <==>
              t.status.Paused? &&
                match reason
                case Init => true
                case LinkReady => true
                case NewFilter => t.status.reason == M.Caughtup
                case FreshData => t.status.reason == M.Caughtup
                case IncomingAck => t.status.reason == M.Caughtup || t.status.reason == M.InflightFull
    ensures t' == if ready then t.(status := M.Ready) else t
    ensures t.status.Paused? && t.status.reason == M.Busy && ready ==> reason == M.Init || reason == M.LinkReady
  {
    ready, t' := false, t;
    match t.status {
      case Ready => return;
      case Paused(previous) =>
        match reason {
          case Init => ready := true;
          case NewFilter => ready := previous == M.Caughtup;
          case FreshData => ready := previous == M.Caughtup;
          case IncomingAck => ready := previous != M.Busy;
          case LinkReady => ready := true;
        }
    }
    if ready {
      t' := t.(status := M.Ready);
    }
  }
}

// Trackers, the ready queue, and the pause/ready state machine.
module SchedulerModel {
  import opened Types
  import opened Slabs

  datatype PauseReason = Caughtup | InflightFull | Busy
  datatype Status = Ready | Paused(reason: PauseReason)
  datatype ScheduleReason = Init | NewFilter | FreshData | IncomingAck | LinkReady

  datatype Tracker = Tracker(id: ClientId, requests: seq<DataRequest>, status: Status)

  // Whether an event takes a tracker from its current status to Ready.
  predicate Awakens(status: Status, reason: ScheduleReason) {
    status.Paused? &&
    match reason
    case Init => true
    case NewFilter => status.reason == Caughtup
    case FreshData => status.reason == Caughtup
    case IncomingAck => status.reason != Busy
    case LinkReady => true
  }

  function WithoutFilter(rs: seq<DataRequest>, filter: Filter): seq<DataRequest> {
    if rs == [] then []
    else
      var r := WithoutFilter(rs[..|rs| - 1], filter);
      if rs[|rs| - 1].filter != filter then r + [rs[|rs| - 1]] else r
  }

  datatype Scheduler = Scheduler(trackers: Slab<Tracker>, readyqueue: seq<ConnectionId>) {
    function SetTracker(id: ConnectionId, t: Tracker): Scheduler {
      this.(trackers := trackers.Set(id, t))
    }

    function Track(id: ConnectionId, r: DataRequest): Scheduler {
      if id !in trackers.m then this
      else SetTracker(id, trackers.m[id].(requests := trackers.m[id].requests + [r]))
    }

    function Untrack(id: ConnectionId, filter: Filter): Scheduler {
      if id !in trackers.m then this
      else SetTracker(id, trackers.m[id].(requests := WithoutFilter(trackers.m[id].requests, filter)))
    }

    function Reschedule(id: ConnectionId, reason: ScheduleReason): Scheduler {
      if id in trackers.m && Awakens(trackers.m[id].status, reason) then
        SetTracker(id, trackers.m[id].(status := Ready)).(readyqueue := readyqueue + [id])
      else this
    }

    // Takes the id at the back of the queue off it; the source asserts that it is this one.
    function Pause(id: ConnectionId, reason: PauseReason): Scheduler {
      if id !in trackers.m || readyqueue == [] then this
      else
        SetTracker(id, trackers.m[id].(status := Paused(reason)))
          .(readyqueue := readyqueue[..|readyqueue| - 1])
    }

    // Moves the id at the front to the back, or drops it when its tracker is gone.
    function Rotate(): Scheduler {
      if readyqueue == [] then this
      else if readyqueue[0] !in trackers.m then this.(readyqueue := readyqueue[1..])
      else this.(readyqueue := readyqueue[1..] + [readyqueue[0]])
    }
  }
}

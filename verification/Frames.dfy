// What the folds of the router leave alone.
module Frames {
  import opened Types
  import opened Slabs
  import opened DataLogModel
  import opened OutgoingModel
  import opened SchedulerModel
  import opened RouterModel

  lemma {:induction false} WakeAllFrame(s: Router)
    ensures WakeAll(s) == s.(scheduler := WakeAll(s).scheduler, notifications := [])
    decreases |s.notifications|
  {
    hide Scheduler.Track, Scheduler.Reschedule;
    if s.notifications != [] {
      WakeAllFrame(Wake(s, s.notifications[0]).(notifications := s.notifications[1..]));
    }
  }

  lemma AppendFrame(b: Batch, id: ConnectionId, p: Publish, props: Props, report: bool)
    requires Present(b.r, id)
    ensures var r := AppendToCommitlog(b, id, p, props, report).r;
            r == b.r.(connections := r.connections, datalog := r.datalog, notifications := r.notifications)
  {
    hide Resolve, Accept;
  }

  lemma SubscribeOneFrame(s: Router, id: ConnectionId, path: Filter, qos: QoS)
    requires Present(s, id)
    ensures var r := SubscribeOne(s, id, path, qos);
            r == s.(connections := r.connections, datalog := r.datalog, subscriptionMap := r.subscriptionMap,
                    scheduler := r.scheduler, accounts := r.accounts)
  {
    hide Register, IndexOf, AddSubscriber, Scheduler.Track, Scheduler.Reschedule;
  }

  lemma {:induction false} SubscribeAllFrame(b: Batch, id: ConnectionId, filters: seq<(Filter, QoS)>,
                                             subId: Option<nat>)
    ensures var c := SubscribeAll(b, id, filters, subId).0;
            && c.r == b.r.(connections := c.r.connections, datalog := c.r.datalog,
                           subscriptionMap := c.r.subscriptionMap,
                           scheduler := c.r.scheduler, accounts := c.r.accounts)
            && c.forceAck == b.forceAck && c.newData == b.newData && c.stop == b.stop
            && (b.disconnect ==> c.disconnect)
    decreases |filters|
  {
    hide SubscribeOne;
    if filters != [] && Present(b.r, id) {
      SubscribeOneFrame(b.r, id, filters[0].0, filters[0].1);
      SubscribeAllFrame(b.(r := SubscribeOne(b.r, id, filters[0].0, filters[0].1)), id, filters[1..], subId);
    }
  }

  lemma LeaveFrame(s: Router, id: ConnectionId, path: Filter)
    requires Present(s, id)
    ensures var r := Leave(s, id, path);
            r == s.(connections := r.connections, datalog := r.datalog, scheduler := r.scheduler,
                    accounts := r.accounts)
  {
    hide RemoveWaiter, Scheduler.Untrack;
  }

  // What leaving filters may change, and that no flag but the one for acks does.
  ghost predicate OnlyLeft(b: Batch, c: Batch) {
    && c.r == b.r.(connections := c.r.connections, datalog := c.r.datalog, subscriptionMap := c.r.subscriptionMap,
                   ackslog := c.r.ackslog, scheduler := c.r.scheduler, accounts := c.r.accounts)
    && c.newData == b.newData && c.stop == b.stop && c.disconnect == b.disconnect
    && (b.forceAck ==> c.forceAck)
  }

  lemma UnsubscribeOneFrame(b: Batch, id: ConnectionId, pkid: nat, path: Filter)
    requires Present(b.r, id)
    ensures OnlyLeft(b, UnsubscribeOne(b, id, pkid, path))
  {
    hide Leave;
    if path in b.r.subscriptionMap {
      LeaveFrame(b.r.(subscriptionMap := b.r.subscriptionMap[path := b.r.subscriptionMap[path] - {id}]), id, path);
    }
  }

  lemma {:induction false} UnsubscribeAllFrame(b: Batch, id: ConnectionId, pkid: nat, paths: seq<Filter>)
    ensures OnlyLeft(b, UnsubscribeAll(b, id, pkid, paths))
    decreases |paths|
  {
    hide UnsubscribeOne;
    if paths != [] && Present(b.r, id) {
      UnsubscribeOneFrame(b, id, pkid, paths[0]);
      UnsubscribeAllFrame(UnsubscribeOne(b, id, pkid, paths[0]), id, pkid, paths[1..]);
    }
  }

  lemma RegisterAckFrame(s: Router, id: ConnectionId, pkid: nat)
    requires Present(s, id)
    ensures var r := RegisterAck(s, id, pkid);
            r == s.(obufs := s.obufs.Set(id, s.obufs.m[id].RegisterAck(pkid).0), accounts := r.accounts)
              && Present(r, id)
  {
    hide Settle;
  }

  // What one turn of the sweep loop changes, by outcome.
  lemma ConsumeOneShape(s: Router, id: ConnectionId)
    requires Present(s, id) && s.scheduler.trackers.m[id].requests != []
    ensures var t, r, rest := ConsumeOne(s, id), s.scheduler.trackers.m[id].requests[0],
            s.scheduler.trackers.m[id].requests[1..];
            var f := ForwardData(s.datalog, s.obufs.m[id], r);
            var c := SetRequests(s, id, if f.2 == FilterCaughtup then rest else rest + [f.1]).scheduler;
            && t.0 == s.(scheduler := t.0.scheduler, obufs := t.0.obufs, datalog := t.0.datalog,
                         accounts := t.0.accounts)
            && t.0.datalog == (if f.2 == FilterCaughtup then Park(s.datalog, id, f.1) else s.datalog)
            && t.0.obufs == (if f.2 == ConsumeStatus.InflightFull then s.obufs else s.obufs.Set(id, f.0))
            && t.0.accounts == (if f.2 == ConsumeStatus.InflightFull then s.accounts else Skip(s, id, r))
            && t.0.scheduler == (match f.2
                                 case BufferFull => c.Pause(id, Busy)
                                 case InflightFull => c.Pause(id, PauseReason.InflightFull)
                                 case _ => c)
            && t.1 == (f.2 == FilterCaughtup || f.2 == PartialRead)
  {
    hide ForwardData, Skip, Park, Scheduler.Pause;
  }
}

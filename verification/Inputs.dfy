// What the broker holds of what clients gave it: publishes in the logs and the store, topics in the
// cache, wills, topic aliases, packets not yet handled, and QoS 2 publishes not yet released. Most steps
// bring in nothing of the kind.
module Inputs {
  import opened Types
  import opened Slabs
  import opened DataLogModel
  import opened OutgoingModel
  import opened SchedulerModel
  import opened RouterModel
  import opened Frames
  import opened Identity

  // What a connection gave is what it gave before, and so is everything the broker holds of it.
  ghost predicate NothingNew(s: Router, t: Router) {
    && SameStore(s.datalog, t.datalog) && t.lastWills == s.lastWills && t.config == s.config
    && (forall id :: id in t.connections.m ==>
          id in s.connections.m && t.connections.m[id].topicAliases == s.connections.m[id].topicAliases)
    && (forall id :: id in t.ibufs.m ==> id in s.ibufs.m && t.ibufs.m[id].buffer == s.ibufs.m[id].buffer)
    && (forall id :: id in t.ackslog.m ==>
          id in s.ackslog.m && t.ackslog.m[id].recorded == s.ackslog.m[id].recorded)
  }

  predicate SameStore(a: DataLog, b: DataLog) {
    && a.config == b.config && a.retained == b.retained && a.accepted == b.accepted
    && a.publishFilters.Keys == b.publishFilters.Keys
  }

  lemma NothingNewThen(s: Router, t: Router, u: Router)
    requires NothingNew(s, t) && NothingNew(t, u)
    ensures NothingNew(s, u)
  {
  }

  lemma SameSlots(s: Router, t: Router)
    requires SameStore(s.datalog, t.datalog) && t.lastWills == s.lastWills && t.config == s.config
    requires t.connections == s.connections && t.ibufs == s.ibufs && t.ackslog == s.ackslog
    ensures NothingNew(s, t)
  {
    hide SameStore;
  }

  // ---------------------------------------------------------------------------------------------
  // Steps

  lemma WakeAllBrings(s: Router)
    ensures NothingNew(s, WakeAll(s))
  {
    hide WakeAll;
    WakeAllFrame(s);
  }

  lemma SubscribeOneBrings(s: Router, id: ConnectionId, path: Filter, qos: QoS)
    requires Present(s, id)
    ensures NothingNew(s, SubscribeOne(s, id, path, qos))
  {
    hide Register, IndexOf, AddSubscriber, Scheduler.Track, Scheduler.Reschedule, SameStore;
    RegisterStore(s.datalog, path);
  }

  lemma RegisterStore(dl: DataLog, path: Filter)
    ensures SameStore(dl, Register(dl, path))
  {
    hide NewData;
  }

  lemma {:induction false} SubscribeAllBrings(b: Batch, id: ConnectionId, filters: seq<(Filter, QoS)>,
                                              subId: Option<nat>)
    ensures NothingNew(b.r, SubscribeAll(b, id, filters, subId).0.r)
    decreases |filters|
  {
    hide SubscribeOne, NothingNew;
    NothingNewSelf(b.r);
    if filters != [] && Present(b.r, id) {
      var t := SubscribeOne(b.r, id, filters[0].0, filters[0].1);
      SubscribeOneBrings(b.r, id, filters[0].0, filters[0].1);
      SubscribeAllBrings(b.(r := t), id, filters[1..], subId);
      NothingNewThen(b.r, t, SubscribeAll(b.(r := t), id, filters[1..], subId).0.r);
    }
  }

  lemma NothingNewSelf(s: Router)
    ensures NothingNew(s, s)
  {
  }

  lemma RemoveWaiterStore(dl: DataLog, id: ConnectionId, path: Filter)
    ensures SameStore(dl, RemoveWaiter(dl, id, path))
  {
    hide RemoveOne;
  }

  lemma LeaveBrings(s: Router, id: ConnectionId, path: Filter)
    requires Present(s, id)
    ensures NothingNew(s, Leave(s, id, path)) && Present(Leave(s, id, path), id)
  {
    hide RemoveWaiter, Scheduler.Untrack, SameStore;
    RemoveWaiterStore(s.datalog, id, path);
    LeaveSame(s, id, path);
  }

  lemma CommitBrings(s: Router, id: ConnectionId, a: Ack)
    requires Present(s, id)
    ensures NothingNew(s, Commit(s, id, a))
  {
    hide SameStore;
    SameStoreSelf(s.datalog);
  }

  lemma SameStoreSelf(dl: DataLog)
    ensures SameStore(dl, dl)
  {
  }

  lemma UnsubscribeOneBrings(b: Batch, id: ConnectionId, pkid: nat, path: Filter)
    requires Present(b.r, id)
    ensures NothingNew(b.r, UnsubscribeOne(b, id, pkid, path).r)
  {
    hide Leave, Commit, NothingNew, SameStore;
    NothingNewSelf(b.r);
    if path in b.r.subscriptionMap && id in b.r.subscriptionMap[path] {
      var s := b.r.(subscriptionMap := b.r.subscriptionMap[path := b.r.subscriptionMap[path] - {id}]);
      SameStoreSelf(b.r.datalog);
      SameSlots(b.r, s);
      LeaveBrings(s, id, path);
      CommitBrings(Leave(s, id, path), id, UnsubAck(pkid));
      NothingNewThen(b.r, s, Leave(s, id, path));
      NothingNewThen(b.r, Leave(s, id, path), Commit(Leave(s, id, path), id, UnsubAck(pkid)));
    }
  }

  lemma {:induction false} UnsubscribeAllBrings(b: Batch, id: ConnectionId, pkid: nat, paths: seq<Filter>)
    ensures NothingNew(b.r, UnsubscribeAll(b, id, pkid, paths).r)
    decreases |paths|
  {
    hide UnsubscribeOne, NothingNew;
    NothingNewSelf(b.r);
    if paths != [] && Present(b.r, id) {
      var c := UnsubscribeOne(b, id, pkid, paths[0]);
      UnsubscribeOneBrings(b, id, pkid, paths[0]);
      UnsubscribeAllBrings(c, id, pkid, paths[1..]);
      NothingNewThen(b.r, c.r, UnsubscribeAll(c, id, pkid, paths[1..]).r);
    }
  }

  lemma DisconnectBrings(s: Router, id: ConnectionId)
    ensures NothingNew(s, Disconnect(s, id))
  {
    hide CleanFirst, RewindAll, Retransmissions, ForgetAccounts, Unsubscribed;
  }

  lemma SendAcksBrings(s: Router, id: ConnectionId)
    requires Present(s, id)
    ensures NothingNew(s, SendAcks(s, id))
  {
    hide DeviceAcks, SameStore;
    SameStoreSelf(s.datalog);
  }

  lemma ConsumeOneBrings(s: Router, id: ConnectionId)
    requires Present(s, id) && s.scheduler.trackers.m[id].requests != []
    ensures NothingNew(s, ConsumeOne(s, id).0)
  {
    hide ConsumeOne, ForwardData, Skip, Park, Scheduler.Pause, SetRequests, NothingNew, SameStore;
    ConsumeOneShape(s, id);
    SameStoreSelf(s.datalog);
    forall r
      ensures SameStore(s.datalog, Park(s.datalog, id, r))
    {
      ParkStore(s.datalog, id, r);
    }
    SameSlots(s, ConsumeOne(s, id).0);
  }

  lemma ParkStore(dl: DataLog, id: ConnectionId, r: DataRequest)
    ensures SameStore(dl, Park(dl, id, r))
  {
  }

  lemma {:induction false} ConsumeLoopBrings(s: Router, id: ConnectionId, n: nat)
    ensures NothingNew(s, ConsumeLoop(s, id, n))
    decreases n
  {
    hide ConsumeOne, NothingNew, Scheduler.Pause;
    NothingNewSelf(s);
    if n > 0 && Present(s, id) {
      if s.scheduler.trackers.m[id].requests == [] {
        PauseBrings(s, id);
      } else {
        ConsumeOneBrings(s, id);
        var t := ConsumeOne(s, id).0;
        ConsumeLoopBrings(t, id, n - 1);
        NothingNewThen(s, t, ConsumeLoop(t, id, n - 1));
      }
    }
  }

  lemma PauseBrings(s: Router, id: ConnectionId)
    ensures NothingNew(s, Pause(s, id, Caughtup))
  {
    hide Scheduler.Pause;
  }

  lemma ConsumeBrings(s: Router)
    ensures NothingNew(s, Consume(s).0)
  {
    hide SendAcks, ConsumeLoop, NothingNew, Scheduler.Rotate;
    NothingNewSelf(s);
    if s.scheduler.readyqueue != [] {
      var id, s1 := s.scheduler.readyqueue[0], s.(scheduler := s.scheduler.Rotate());
      RotateBrings(s);
      if id in s.scheduler.trackers.m && Present(s1, id) {
        SendAcksBrings(s1, id);
        ConsumeLoopBrings(SendAcks(s1, id), id, MAX_SCHEDULE_ITERATIONS);
        NothingNewThen(s, s1, SendAcks(s1, id));
        NothingNewThen(s, SendAcks(s1, id), ConsumeLoop(SendAcks(s1, id), id, MAX_SCHEDULE_ITERATIONS));
      }
    }
  }

  lemma RotateBrings(s: Router)
    ensures NothingNew(s, s.(scheduler := s.scheduler.Rotate()))
  {
    hide Scheduler.Rotate;
  }

  lemma FinishBrings(b: Batch, id: ConnectionId)
    ensures NothingNew(b.r, Finish(b, id))
  {
    hide NothingNew, WakeAll, Disconnect, Scheduler.Reschedule;
    var s1 := if b.forceAck then Reschedule(b.r, id, FreshData) else b.r;
    RescheduleBrings(b.r, id, FreshData);
    NothingNewSelf(b.r);
    WakeAllBrings(s1);
    NothingNewThen(b.r, s1, WakeAll(s1));
    var s2 := if b.newData then WakeAll(s1) else s1;
    DisconnectBrings(s2, id);
    NothingNewThen(b.r, s2, Disconnect(s2, id));
  }

  lemma RescheduleBrings(s: Router, id: ConnectionId, reason: ScheduleReason)
    ensures NothingNew(s, Reschedule(s, id, reason))
  {
    hide Scheduler.Reschedule;
  }

  lemma AckBrings(b: Batch, id: ConnectionId, p: Packet)
    requires Present(b.r, id) && (p.PacketPubAck? || p.PacketPubRec? || p.PacketPubComp?)
    ensures NothingNew(b.r, HandlePacket(b, id, p).r)
  {
    hide Settle, Outgoing.RegisterAck, Outgoing.RegisterPubRec, Outgoing.RegisterPubComp, Scheduler.Reschedule,
      SameStore, NothingNew, Commit;
    var s := b.r;
    SameStoreSelf(s.datalog);
    forall obufs, accounts, scheduler
      ensures NothingNew(s, s.(obufs := obufs, accounts := accounts, scheduler := scheduler))
    {
      SameSlots(s, s.(obufs := obufs, accounts := accounts, scheduler := scheduler));
    }
    if p.PacketPubRec? {
      PubRecBrings(b, id, p.pkid);
    }
  }

  lemma PubRecBrings(b: Batch, id: ConnectionId, pkid: nat)
    requires Present(b.r, id)
    ensures NothingNew(b.r, HandlePubRec(b, id, pkid).r)
  {
    hide Settle, Outgoing.RegisterAck, Outgoing.RegisterPubRec, Scheduler.Reschedule, SameStore, NothingNew, Commit;
    var s := RegisterAck(b.r, id, pkid);
    SameStoreSelf(s.datalog);
    SameSlots(b.r, s);
    var s1 := s.(obufs := s.obufs.Set(id, s.obufs.m[id].RegisterPubRec(pkid)));
    SameSlots(b.r, s1);
    CommitBrings(s1, id, PubRel(pkid));
    NothingNewThen(b.r, s1, Commit(s1, id, PubRel(pkid)));
    RescheduleBrings(Commit(s1, id, PubRel(pkid)), id, IncomingAck);
    NothingNewThen(b.r, Commit(s1, id, PubRel(pkid)), Reschedule(Commit(s1, id, PubRel(pkid)), id, IncomingAck));
  }

  lemma OtherBrings(b: Batch, id: ConnectionId, p: Packet)
    requires Present(b.r, id) && !p.PacketPublish? && !p.PacketPubRel? && !p.PacketDisconnect?
    ensures NothingNew(b.r, HandlePacket(b, id, p).r)
  {
    hide NothingNew, SubscribeAll, UnsubscribeAll, HandlePubAck, HandlePubRec, HandlePubComp, Commit;
    NothingNewSelf(b.r);
    match p {
      case PacketSubscribe(pkid, filters, subId) =>
        var r := SubscribeAll(b, id, filters, subId);
        SubscribeAllBrings(b, id, filters, subId);
        if Present(r.0.r, id) {
          CommitBrings(r.0.r, id, SubAck(pkid, r.1));
          NothingNewThen(b.r, r.0.r, Commit(r.0.r, id, SubAck(pkid, r.1)));
        }
      case PacketUnsubscribe(pkid, paths) => UnsubscribeAllBrings(b, id, pkid, paths);
      case PacketPingReq => CommitBrings(b.r, id, PingResp);
      case PacketOther =>
      case _ => AckBrings(b, id, p);
    }
  }

  lemma ExchangeBrings(s: Router, id: ConnectionId)
    ensures NothingNew(s, Exchange(s, id))
  {
    hide NothingNew, SameStore;
    SameStoreSelf(s.datalog);
    SameSlots(s, Exchange(s, id));
  }

}

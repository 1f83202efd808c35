// Acks for a client whose window is full: they wait until the client acknowledges something, and
// exactly until then, whatever else happens meanwhile.
module Withheld {
  import opened Types
  import opened DataLogModel
  import opened OutgoingModel
  import opened SchedulerModel
  import opened RouterModel
  import opened Frames
  import opened Identity
  import opened Queue
  import opened Requests
  import opened ConservationRuns
  import opened Wakeups
  import opened Neighbours

  function StatusOf(s: Router, id: ConnectionId): Status
    requires Present(s, id)
  {
    s.scheduler.trackers.m[id].status
  }

  // A packet that acknowledges a publish, or releases one of the client's own.
  predicate Acknowledges(p: Packet) {
    p.PacketPubAck? || p.PacketPubRec? || (p.PacketPubRel? && !p.hasProps)
  }

  predicate Acknowledging(packets: seq<Packet>) {
    exists p :: p in packets && Acknowledges(p)
  }

  // What handling packets of its own may do to a connection's status: only acknowledgements open a full
  // window, nothing but its link makes it less busy.
  predicate Reached(a: Status, b: Status, acked: bool) {
    match a
    case Ready => b == Ready
    case Paused(Busy) => b == a
    case Paused(InflightFull) => b == if acked then Ready else a
    case Paused(Caughtup) => b == Ready || (b == a && !acked)
  }

  lemma ReachedTrans(a: Status, b: Status, c: Status, x: bool, y: bool)
    requires Reached(a, b, x) && Reached(b, c, y)
    ensures Reached(a, c, x || y)
  {
  }

  // Acks are only added to what a connection has committed.
  ghost predicate Committed(s: Router, t: Router, id: ConnectionId) {
    Present(s, id) && Present(t, id) && s.ackslog.m[id].committed <= t.ackslog.m[id].committed
  }

  // From one point of a batch to another, if the connection is not going to be dropped.
  ghost predicate Moved(b: Batch, c: Batch, id: ConnectionId, acked: bool) {
    && Committed(b.r, c.r, id)
    && (b.disconnect ==> c.disconnect) && (c.stop && !b.stop ==> c.disconnect)
    && (!c.disconnect ==> Reached(StatusOf(b.r, id), StatusOf(c.r, id), acked))
  }

  // ---------------------------------------------------------------------------------------------
  // Packets

  lemma RescheduleMoves(s: Router, id: ConnectionId, why: ScheduleReason)
    requires Present(s, id) && why != Init && why != LinkReady
    ensures var t := Reschedule(s, id, why);
            && Committed(s, t, id) && Reached(StatusOf(s, id), StatusOf(t, id), why == IncomingAck)
  {
  }

  lemma AppendMoves(b: Batch, id: ConnectionId, p: Publish, props: Props, report: bool)
    requires Present(b.r, id)
    ensures Moved(b, AppendToCommitlog(b, id, p, props, report), id, false)
  {
    hide Awakens;
    AppendStill(b, id, p, props, report);
    AppendFrame(b, id, p, props, report);
  }

  lemma CommitMoves(b: Batch, id: ConnectionId, a: Ack)
    requires Present(b.r, id)
    ensures Moved(b, b.(r := Commit(b.r, id, a), forceAck := true), id, false)
  {
  }

  lemma MovedTrans(b: Batch, c: Batch, d: Batch, id: ConnectionId, x: bool, y: bool)
    requires Moved(b, c, id, x) && Moved(c, d, id, y)
    ensures Moved(b, d, id, x || y)
  {
    if !d.disconnect {
      ReachedTrans(StatusOf(b.r, id), StatusOf(c.r, id), StatusOf(d.r, id), x, y);
    }
  }

  lemma HandlePublishMoves(b: Batch, id: ConnectionId, p: Publish, props: Props)
    requires Present(b.r, id)
    ensures Moved(b, HandlePublish(b, id, p, props), id, false)
  {
    hide AppendToCommitlog, Moved, Commit;
    match p.qos {
      case ExactlyOnce => RecordMoves(b, id, p, props);
      case AtLeastOnce =>
        var b1 := b.(r := Commit(b.r, id, PubAck(p.pkid)), forceAck := true);
        CommitMoves(b, id, PubAck(p.pkid));
        CommitPresent(b.r, id, PubAck(p.pkid));
        AppendMoves(b1, id, p, props, true);
        MovedTrans(b, b1, AppendToCommitlog(b1, id, p, props, true), id, false, false);
      case AtMostOnce => AppendMoves(b, id, p, props, true);
    }
  }

  lemma RecordMoves(b: Batch, id: ConnectionId, p: Publish, props: Props)
    requires Present(b.r, id)
    ensures Moved(b, b.(r := b.r.(ackslog := b.r.ackslog.Set(id, b.r.ackslog.m[id].Record(p, props))),
                        forceAck := true), id, false)
  {
  }

  lemma RouterMoves(b: Batch, s: Router, forced: bool, id: ConnectionId)
    requires Committed(b.r, s, id) && Reached(StatusOf(b.r, id), StatusOf(s, id), false)
    ensures Moved(b, b.(r := s), id, false) && Moved(b, b.(r := s, forceAck := forced), id, false)
  {
    hide Reached;
  }

  lemma SubscribeOneMoves(s: Router, id: ConnectionId, path: Filter, qos: QoS)
    requires Present(s, id)
    ensures var t := SubscribeOne(s, id, path, qos);
            Committed(s, t, id) && Reached(StatusOf(s, id), StatusOf(t, id), false)
  {
    hide Register, IndexOf, SubscribeOne, SameNames, Reached, Awakens;
    var dl := Register(s.datalog, path);
    var i := IndexOf(dl, path);
    var r := DataRequest(path, i, qos, if i < |dl.native| then dl.native[i].log.NextOffset()
                         else Cursor(0, 0), 0, true);
    SubscribeOneAcks(s, id, path, qos);
    SubscribeOneShape(s, id, path, qos);
    SubscribeOneSame(s, id, path, qos);
    SameNamesPresent(s, SubscribeOne(s, id, path, qos));
    TrackMoves(s.scheduler, id, r);
    SameStatus(StatusOf(s, id));
  }

  lemma SameStatus(a: Status)
    ensures Reached(a, a, false)
  {
  }

  lemma TrackMoves(c: Scheduler, id: ConnectionId, r: DataRequest)
    requires id in c.trackers.m
    ensures var d := c.Track(id, r).Reschedule(id, NewFilter);
            id in d.trackers.m && Reached(c.trackers.m[id].status, d.trackers.m[id].status, false)
  {
  }

  lemma {:induction false} SubscribeAllMoves(b: Batch, id: ConnectionId, filters: seq<(Filter, QoS)>,
                                             subId: Option<nat>)
    requires Present(b.r, id)
    ensures Moved(b, SubscribeAll(b, id, filters, subId).0, id, false)
    decreases |filters|
  {
    hide SubscribeOne, Moved;
    MovedRefl(b, id);
    if filters != [] && !RefusedFilter(filters[0].0) && subId != Some(0) {
      var c := b.(r := SubscribeOne(b.r, id, filters[0].0, filters[0].1));
      SubscribeOneMoves(b.r, id, filters[0].0, filters[0].1);
      RouterMoves(b, c.r, false, id);
      MovedPresent(b, c, id, false);
      SubscribeAllMoves(c, id, filters[1..], subId);
      MovedTrans(b, c, SubscribeAll(c, id, filters[1..], subId).0, id, false, false);
    }
  }

  lemma MovedRefl(b: Batch, id: ConnectionId)
    requires Present(b.r, id)
    ensures Moved(b, b, id, false) && Moved(b, b.(disconnect := true), id, false)
    ensures forall why :: Moved(b, b.(disconnect := true, reason := why), id, false)
  {
  }

  lemma MovedPresent(b: Batch, c: Batch, id: ConnectionId, acked: bool)
    requires Moved(b, c, id, acked)
    ensures Present(c.r, id)
  {
  }

  lemma LeaveMoves(s: Router, id: ConnectionId, path: Filter)
    requires Present(s, id)
    ensures var t := Leave(s, id, path); Present(t, id) && Committed(s, t, id) && StatusOf(t, id) == StatusOf(s, id)
  {
    hide RemoveWaiter, WithoutFilter;
  }

  lemma UnsubscribeOneMoves(b: Batch, id: ConnectionId, pkid: nat, path: Filter)
    requires Present(b.r, id)
    ensures Moved(b, UnsubscribeOne(b, id, pkid, path), id, false)
  {
    hide Leave, Moved, Reached, Commit, Committed;
    MovedRefl(b, id);
    if path in b.r.subscriptionMap {
      var s := b.r.(subscriptionMap := b.r.subscriptionMap[path := b.r.subscriptionMap[path] - {id}]);
      UnlistedMoves(b.r, s, id);
      RouterMoves(b, s, false, id);
      LeaveMoves(s, id, path);
      SameStatus(StatusOf(s, id));
      CommitMoves(b.(r := Leave(s, id, path)), id, UnsubAck(pkid));
      RouterMoves(b.(r := s), Leave(s, id, path), false, id);
      MovedTrans(b, b.(r := s), b.(r := Leave(s, id, path)), id, false, false);
      MovedTrans(b, b.(r := Leave(s, id, path)),
                 b.(r := Commit(Leave(s, id, path), id, UnsubAck(pkid)), forceAck := true), id, false, false);
    }
  }

  lemma UnlistedMoves(s: Router, t: Router, id: ConnectionId)
    requires Present(s, id) && t == s.(subscriptionMap := t.subscriptionMap)
    ensures Committed(s, t, id) && Present(t, id) && Reached(StatusOf(s, id), StatusOf(t, id), false)
  {
  }

  lemma {:induction false} UnsubscribeAllMoves(b: Batch, id: ConnectionId, pkid: nat, paths: seq<Filter>)
    requires Present(b.r, id)
    ensures Moved(b, UnsubscribeAll(b, id, pkid, paths), id, false)
    decreases |paths|
  {
    hide UnsubscribeOne, Moved;
    MovedRefl(b, id);
    if paths != [] {
      var c := UnsubscribeOne(b, id, pkid, paths[0]);
      UnsubscribeOneMoves(b, id, pkid, paths[0]);
      MovedPresent(b, c, id, false);
      UnsubscribeAllMoves(c, id, pkid, paths[1..]);
      MovedTrans(b, c, UnsubscribeAll(c, id, pkid, paths[1..]), id, false, false);
    }
  }

  lemma RegisterAckMoves(s: Router, id: ConnectionId, pkid: nat)
    requires Present(s, id)
    ensures var t := RegisterAck(s, id, pkid);
            && Present(t, id) && t.ackslog == s.ackslog && t.scheduler == s.scheduler
  {
    hide Settle, Outgoing.RegisterAck;
  }

  // An acknowledgement in order wakes the connection; any other ends its session.
  lemma HandlePubAckMoves(b: Batch, id: ConnectionId, pkid: nat)
    requires Present(b.r, id)
    ensures Moved(b, HandlePubAck(b, id, pkid), id, true)
  {
    hide RegisterAck, Outgoing.RegisterAck, Reschedule, Awakens;
    RegisterAckMoves(b.r, id, pkid);
    RescheduleMoves(RegisterAck(b.r, id, pkid), id, IncomingAck);
  }

  lemma HandlePubRecMoves(b: Batch, id: ConnectionId, pkid: nat)
    requires Present(b.r, id)
    ensures Moved(b, HandlePubRec(b, id, pkid), id, true)
  {
    hide RegisterAck, Outgoing.RegisterAck, Outgoing.RegisterPubRec, Reschedule, Awakens;
    var s := RegisterAck(b.r, id, pkid);
    RegisterAckMoves(b.r, id, pkid);
    var s1 := s.(obufs := s.obufs.Set(id, s.obufs.m[id].RegisterPubRec(pkid)));
    RescheduleMoves(Commit(s1, id, PubRel(pkid)), id, IncomingAck);
  }

  lemma HandlePubRelMoves(b: Batch, id: ConnectionId, pkid: nat)
    requires Present(b.r, id) && !b.stop
    ensures Moved(b, HandlePubRel(b, id, pkid), id, true)
  {
    hide AppendToCommitlog, Reschedule, Moved;
    var a := b.r.ackslog.m[id].Release(pkid);
    var b1 := b.(r := b.r.(ackslog := b.r.ackslog.Set(id, a.0)));
    ReleaseMoves(b, id, pkid);
    if a.1.Some? {
      var b2 := AppendToCommitlog(b1, id, a.1.value.0, a.1.value.1, false);
      MovedPresent(b, b1, id, false);
      AppendMoves(b1, id, a.1.value.0, a.1.value.1, false);
      MovedPresent(b1, b2, id, false);
      MovedTrans(b, b1, b2, id, false, false);
      if b2.stop {
        DroppedMoves(b1, b2, id);
        MovedAny(b, b2, id);
      } else {
        WokenMoves(b2, id);
        MovedTrans(b, b2, b2.(r := Reschedule(b2.r, id, IncomingAck)), id, false, true);
      }
    } else {
      FailMoves(b, b1, id);
    }
  }

  lemma ReleaseMoves(b: Batch, id: ConnectionId, pkid: nat)
    requires Present(b.r, id)
    ensures Moved(b, b.(r := b.r.(ackslog := b.r.ackslog.Set(id, b.r.ackslog.m[id].Release(pkid).0))), id, false)
  {
  }

  lemma DroppedMoves(b: Batch, c: Batch, id: ConnectionId)
    requires Moved(b, c, id, false) && c.stop && !b.stop
    ensures c.disconnect
  {
  }

  lemma MovedAny(b: Batch, c: Batch, id: ConnectionId)
    requires Moved(b, c, id, false) && c.disconnect
    ensures Moved(b, c, id, true)
  {
  }

  lemma FailMoves(b: Batch, c: Batch, id: ConnectionId)
    requires Moved(b, c, id, false)
    ensures Moved(b, Fail(c), id, true)
  {
  }

  lemma WokenMoves(b: Batch, id: ConnectionId)
    requires Present(b.r, id)
    ensures Moved(b, b.(r := Reschedule(b.r, id, IncomingAck)), id, true)
  {
    hide Reschedule;
    RescheduleMoves(b.r, id, IncomingAck);
  }

  lemma HandlePubCompMoves(b: Batch, id: ConnectionId, pkid: nat)
    requires Present(b.r, id)
    ensures Moved(b, HandlePubComp(b, id, pkid), id, false)
  {
    hide Outgoing.RegisterPubComp;
  }

  lemma DisconnectPacketMoves(b: Batch, id: ConnectionId)
    requires Present(b.r, id)
    ensures Moved(b, HandlePacket(b, id, PacketDisconnect), id, false)
  {
  }

  lemma HandlePacketMoves(b: Batch, id: ConnectionId, p: Packet)
    requires Present(b.r, id) && !b.stop
    ensures Moved(b, HandlePacket(b, id, p), id, Acknowledges(p))
  {
    hide Moved, Commit, SubscribeAll, UnsubscribeAll, HandlePublish, HandlePubAck, HandlePubRec, HandlePubRel,
      HandlePubComp;
    MovedRefl(b, id);
    match p {
      case PacketPublish(publish, props) => HandlePublishMoves(b, id, publish, props);
      case PacketSubscribe(pkid, filters, subId) =>
        var r := SubscribeAll(b, id, filters, subId);
        SubscribeAllMoves(b, id, filters, subId);
        MovedPresent(b, r.0, id, false);
        CommitMoves(r.0, id, SubAck(pkid, r.1));
        MovedTrans(b, r.0, HandlePacket(b, id, p), id, false, false);
      case PacketUnsubscribe(pkid, paths) => UnsubscribeAllMoves(b, id, pkid, paths);
      case PacketPubAck(pkid) => HandlePubAckMoves(b, id, pkid);
      case PacketPubRec(pkid) => HandlePubRecMoves(b, id, pkid);
      case PacketPubRel(pkid, _) => HandlePubRelMoves(b, id, pkid);
      case PacketPubComp(pkid) => HandlePubCompMoves(b, id, pkid);
      case PacketPingReq => CommitMoves(b, id, PingResp);
      case PacketDisconnect => DisconnectPacketMoves(b, id);
      case PacketOther =>
    }
  }

  // A whole batch, all of which is handled unless the connection is dropped.
  lemma {:induction false} HandlePacketsMoves(b: Batch, id: ConnectionId, packets: seq<Packet>)
    requires Present(b.r, id) && (b.stop ==> b.disconnect)
    ensures var c := HandlePackets(b, id, packets);
            && Committed(b.r, c.r, id) && (b.disconnect ==> c.disconnect)
            && (!c.disconnect ==> Reached(StatusOf(b.r, id), StatusOf(c.r, id), Acknowledging(packets)))
    decreases |packets|
  {
    hide HandlePacket, Acknowledges, Reached;
    if packets != [] && !b.stop {
      var c := HandlePacket(b, id, packets[0]);
      HandlePacketMoves(b, id, packets[0]);
      HandlePacketsMoves(c, id, packets[1..]);
      var d := HandlePackets(c, id, packets[1..]);
      assert packets == [packets[0]] + packets[1..];
      assert Acknowledging(packets) <==> Acknowledges(packets[0]) || Acknowledging(packets[1..]);
      if !d.disconnect {
        ReachedTrans(StatusOf(b.r, id), StatusOf(c.r, id), StatusOf(d.r, id), Acknowledges(packets[0]),
                     Acknowledging(packets[1..]));
      }
    } else if packets == [] {
      SameStatus(StatusOf(b.r, id));
    }
  }

  // ---------------------------------------------------------------------------------------------
  // Batches

  lemma WokeReached(a: Status, b: Status, c: Status, acked: bool)
    requires Reached(a, b, acked) && Woke(b, c)
    ensures Reached(a, c, acked)
  {
  }

  lemma NudgedCommitted(s: Router, t: Router, u: Router, id: ConnectionId)
    requires Committed(s, t, id) && Nudged(t, u, id)
    ensures Committed(s, u, id) && Woke(StatusOf(t, id), StatusOf(u, id))
  {
  }

  lemma FreshMoves(s: Router, id: ConnectionId)
    requires Present(s, id)
    ensures Nudged(s, Reschedule(s, id, FreshData), id) && Present(Reschedule(s, id, FreshData), id)
  {
  }

  lemma FirstMoves(s: Router, id: ConnectionId)
    requires Present(s, id)
    ensures var b := FirstBatch(s, id);
            && Committed(s, b.r, id) && Present(b.r, id) && StatusOf(b.r, id) == StatusOf(s, id)
              && b.r.ackslog == s.ackslog
  {
  }

  lemma DisconnectedIsGone(s: Router, id: ConnectionId)
    ensures !Present(Disconnect(s, id), id)
  {
    hide Clean, RewindAll, Retransmissions, ForgetAccounts, Unsubscribed;
  }

  // A batch that does not cost the client its connection.
  lemma DeviceDataMoves(s: Router, id: ConnectionId)
    requires Present(s, id) && Present(DeviceData(s, id), id)
    ensures var t := DeviceData(s, id);
            && Committed(s, t, id)
            && Reached(StatusOf(s, id), StatusOf(t, id), Acknowledging(s.ibufs.m[id].buffer))
  {
    hide HandlePackets, WakeAll, Reschedule, Disconnect, Nudged, Reached, Acknowledging, Woke;
    var b0 := FirstBatch(s, id);
    var b := HandlePackets(b0, id, s.ibufs.m[id].buffer);
    var s1 := if b.forceAck then Reschedule(b.r, id, FreshData) else b.r;
    FirstMoves(s, id);
    HandlePacketsMoves(b0, id, s.ibufs.m[id].buffer);
    DisconnectedIsGone(if b.newData then WakeAll(s1) else s1, id);
    FreshMoves(b.r, id);
    NudgedRefl(b.r, id);
    NudgedCommitted(s, b.r, s1, id);
    WakeAllNudged(s1, id);
    NudgedRefl(s1, id);
    NudgedCommitted(s, s1, DeviceData(s, id), id);
    WokeReached(StatusOf(s, id), StatusOf(b.r, id), StatusOf(s1, id), Acknowledging(s.ibufs.m[id].buffer));
    WokeReached(StatusOf(s, id), StatusOf(s1, id), StatusOf(DeviceData(s, id), id),
                Acknowledging(s.ibufs.m[id].buffer));
  }

  // ---------------------------------------------------------------------------------------------
  // Exactly when acks wait

  // The acks of a connection, which is not busy, are going out after a batch of its own.
  predicate GoesOut(s: Router, id: ConnectionId)
    requires Present(s, id)
  {
    StatusOf(s, id) != Paused(PauseReason.InflightFull) || Acknowledging(s.ibufs.m[id].buffer)
  }

  lemma BatchGoesOutIff(s: Router, id: ConnectionId)
    requires Present(s, id) && Present(DeviceData(s, id), id) && StatusOf(s, id) != Paused(Busy)
    requires NoneAsleep(DeviceData(s, id)) && DeviceData(s, id).ackslog.m[id].committed != []
    ensures StatusOf(DeviceData(s, id), id) == Ready <==> GoesOut(s, id)
    ensures s.ackslog.m[id].committed <= DeviceData(s, id).ackslog.m[id].committed
  {
    hide DeviceData, Acknowledging;
    DeviceDataMoves(s, id);
    assert AwakeAt(DeviceData(s, id), id, false);
  }

  lemma RunSnoc(s: Router, es: seq<Event>, e: Event)
    ensures Run(s, es + [e]) == Step(Run(s, es), e)
    ensures NoQueuedReuse(s, es) && !e.EventConnect? ==> NoQueuedReuse(s, es + [e])
  {
    hide Step;
    assert (es + [e])[..|es + [e]| - 1] == es;
  }

  // In every run: after a batch that leaves a live, not busy connection with acks to send, the
  // connection is going to be served if and only if its window was not full or it acknowledged
  // something in that batch.
  lemma AcksGoOutIff(c: Config, es: seq<Event>, id: ConnectionId)
    requires ConfigOk(c)
    ensures var s, t := Run(InitRouter(c), es), Run(InitRouter(c), es + [EventDeviceData(id)]);
            Present(s, id) && Present(t, id) && StatusOf(s, id) != Paused(Busy) && t.ackslog.m[id].committed != [] ==>
              && (StatusOf(t, id) == Ready <==> GoesOut(s, id))
              && (NoQueuedReuse(InitRouter(c), es) ==> (id in t.scheduler.readyqueue <==> GoesOut(s, id)))
              && s.ackslog.m[id].committed <= t.ackslog.m[id].committed
  {
    hide InitRouter, Queued, QueuedOnce, SavedBusy, DeviceData, GoesOut, NoneAsleep, Run, NoQueuedReuse;
    var s, e := Run(InitRouter(c), es), EventDeviceData(id);
    var t := Run(InitRouter(c), es + [e]);
    RunSnoc(InitRouter(c), es, e);
    RunKeepsAwake(c, es + [e]);
    RunKeepsQueue(c, es + [e]);
    if Present(s, id) && Present(t, id) && StatusOf(s, id) != Paused(Busy) && t.ackslog.m[id].committed != [] {
      BatchGoesOutIff(s, id);
      if NoQueuedReuse(InitRouter(c), es) {
        QueuedIffReady(t.scheduler, id);
      }
    }
  }

  lemma QueuedIffReady(c: Scheduler, id: ConnectionId)
    requires QueuedOnce(c) && id in c.trackers.m
    ensures id in c.readyqueue <==> c.trackers.m[id].status == Ready
  {
    assert id in c.readyqueue <==> multiset(c.readyqueue)[id] > 0;
  }

  // The connection is still the same one after an event.
  predicate Stays(s: Router, e: Event, id: ConnectionId)
    requires Present(s, id)
  {
    Present(Step(s, e), id) && !(e.EventConnect? && e.client == s.connections.m[id].clientId)
  }

  // What opens a full window: an acknowledgement from the client, or a call back from the link.
  predicate Opens(s: Router, e: Event, id: ConnectionId)
    requires Present(s, id)
  {
    e == EventReady(id) || (e == EventDeviceData(id) && Acknowledging(s.ibufs.m[id].buffer))
  }

  // One event, whichever it is.
  lemma FullWindowOpensIff(s: Router, e: Event, id: ConnectionId)
    requires Identified(s) && QueuedOnce(s.scheduler) && Present(s, id)
             && StatusOf(s, id) == Paused(PauseReason.InflightFull) && Stays(s, e, id)
    ensures var t := Step(s, e);
            Committed(s, t, id) && StatusOf(t, id) == if Opens(s, e, id) then Ready
              else Paused(PauseReason.InflightFull)
  {
    hide Identified, DeviceData, Connect, Disconnect, PublishWill, Consume, Acknowledging, QueuedOnce;
    if !About(s, e, id) {
      StepNudged(s, e, id);
      SelfCommitted(s, id);
      NudgedCommitted(s, s, Step(s, e), id);
    } else {
      match e {
        case EventDeviceData(_) => DeviceDataMoves(s, id);
        case EventDisconnect(_) => DisconnectedIsGone(s, id);
        case EventConsume => QueuedIffReady(s.scheduler, id);
        case _ =>
      }
    }
  }

  lemma SelfCommitted(s: Router, id: ConnectionId)
    requires Present(s, id)
    ensures Committed(s, s, id)
  {
  }

  // A continuation through which the connection stays and nothing opens its window.
  ghost predicate Shut(s: Router, es: seq<Event>, more: seq<Event>, id: ConnectionId)
    decreases |more|
  {
    more == [] ||
    var t, e := Run(s, es + more[..|more| - 1]), more[|more| - 1];
    Shut(s, es, more[..|more| - 1], id) && Present(t, id) && Stays(t, e, id) && !Opens(t, e, id)
  }

  // However long that goes on, what the client is owed stays where it is, unqueued.
  lemma {:induction false} AcksAreWithheld(c: Config, es: seq<Event>, more: seq<Event>, id: ConnectionId)
    requires ConfigOk(c) && NoQueuedReuse(InitRouter(c), es + more) && Shut(InitRouter(c), es, more, id)
    requires Present(Run(InitRouter(c), es), id)
             && StatusOf(Run(InitRouter(c), es), id) == Paused(PauseReason.InflightFull)
    ensures var s, t := Run(InitRouter(c), es), Run(InitRouter(c), es + more);
            && Committed(s, t, id) && StatusOf(t, id) == Paused(PauseReason.InflightFull)
              && id !in t.scheduler.readyqueue
    decreases |more|
  {
    hide Step, InitRouter, Identified, Queued, QueuedOnce, SavedBusy, Opens, Stays, Subscribers, ReusesQueuedId;
    var t := Run(InitRouter(c), es + more);
    RunKeepsQueue(c, es + more);
    if more == [] {
      assert es + more == es;
    } else {
      var rest, e := more[..|more| - 1], more[|more| - 1];
      var u := Run(InitRouter(c), es + rest);
      assert (es + more)[..|es + more| - 1] == es + rest;
      AcksAreWithheld(c, es, rest, id);
      RunKeepsIdentity(c, es + rest);
      RunKeepsQueue(c, es + rest);
      FullWindowOpensIff(u, e, id);
    }
    QueuedIffReady(t.scheduler, id);
  }
}

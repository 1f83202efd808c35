// What an event may do to a connection it is not about: give it a woken request and make it Ready if
// it was caught up, and nothing else.
module Neighbours {
  import opened Types
  import opened Slabs
  import opened DataLogModel
  import opened OutgoingModel
  import opened SchedulerModel
  import opened RouterModel
  import opened Frames
  import opened Identity
  import opened Queue
  import opened ConservationRuns
  import opened Wakeups

  // Events of a connection itself, its link, and the turns in which it is served.
  predicate About(s: Router, e: Event, id: ConnectionId)
    requires Present(s, id)
  {
    match e
    case EventConnect(client, _, _) => client == s.connections.m[id].clientId
    case EventArrive(i, _) => false
    case EventDeviceData(i) => i == id
    case EventDisconnect(i) => i == id
    case EventReady(i) => i == id
    case EventExchange(i) => i == id
    case EventPublishWill(_) => false
    case EventConsume => s.scheduler.readyqueue != [] && s.scheduler.readyqueue[0] == id
  }

  predicate Woke(a: Status, b: Status) {
    b == a || (a == Paused(Caughtup) && b == Ready)
  }

  ghost predicate Nudged(s: Router, t: Router, id: ConnectionId) {
    && Present(s, id) && Present(t, id)
    && t.connections.m[id].clientId == s.connections.m[id].clientId
    && t.ackslog.m[id] == s.ackslog.m[id] && t.obufs.m[id] == s.obufs.m[id]
    && s.scheduler.trackers.m[id].requests <= t.scheduler.trackers.m[id].requests
    && Woke(s.scheduler.trackers.m[id].status, t.scheduler.trackers.m[id].status)
  }

  lemma NudgedTrans(s: Router, t: Router, u: Router, id: ConnectionId)
    requires Nudged(s, t, id) && Nudged(t, u, id)
    ensures Nudged(s, u, id)
  {
  }

  // ---------------------------------------------------------------------------------------------
  // Packets of another connection

  lemma OthersAppend(b: Batch, id: ConnectionId, p: Publish, props: Props)
    requires Present(b.r, id)
    ensures OthersSame(b.r, HandlePublish(b, id, p, props).r, id)
  {
    hide AppendToCommitlog, AwakeAt, OthersSame, Commit;
    match p.qos {
      case ExactlyOnce => RecordOthers(b.r, id, p, props);
      case AtLeastOnce =>
        var b1 := b.(r := Commit(b.r, id, PubAck(p.pkid)), forceAck := true);
        CommitPresent(b.r, id, PubAck(p.pkid));
        CommitOthers(b.r, id, PubAck(p.pkid));
        AppendStill(b1, id, p, props, true);
        OthersTrans(b.r, b1.r, HandlePublish(b, id, p, props).r, id);
      case AtMostOnce => AppendStill(b, id, p, props, true);
    }
  }

  lemma OthersPubAck(b: Batch, id: ConnectionId, pkid: nat)
    requires Present(b.r, id)
    ensures OthersSame(b.r, HandlePubAck(b, id, pkid).r, id)
  {
    hide RegisterAck, Outgoing.RegisterAck, AwakeAt, OthersSame, Reschedule;
    var s := RegisterAck(b.r, id, pkid);
    RegisterAckOthers(b.r, id, pkid);
    RescheduleOthers(s, id, IncomingAck);
    OthersTrans(b.r, s, Reschedule(s, id, IncomingAck), id);
  }

  lemma OthersPubRec(b: Batch, id: ConnectionId, pkid: nat)
    requires Present(b.r, id)
    ensures OthersSame(b.r, HandlePubRec(b, id, pkid).r, id)
  {
    hide RegisterAck, Outgoing.RegisterAck, Outgoing.RegisterPubRec, AwakeAt, OthersSame, Reschedule, Commit;
    var s := RegisterAck(b.r, id, pkid);
    RegisterAckOthers(b.r, id, pkid);
    var s1 := s.(obufs := s.obufs.Set(id, s.obufs.m[id].RegisterPubRec(pkid)));
    SetObufOthers(s, id, s.obufs.m[id].RegisterPubRec(pkid));
    OthersTrans(b.r, s, s1, id);
    var s2 := Commit(s1, id, PubRel(pkid));
    CommitOthers(s1, id, PubRel(pkid));
    OthersTrans(b.r, s1, s2, id);
    RescheduleOthers(s2, id, IncomingAck);
    OthersTrans(b.r, s2, Reschedule(s2, id, IncomingAck), id);
  }

  lemma OthersPubRel(b: Batch, id: ConnectionId, pkid: nat)
    requires Present(b.r, id)
    ensures OthersSame(b.r, HandlePubRel(b, id, pkid).r, id)
  {
    hide AppendToCommitlog, AwakeAt, OthersSame, Reschedule, AckLog.Release;
    var a := b.r.ackslog.m[id].Release(pkid);
    var b1 := b.(r := b.r.(ackslog := b.r.ackslog.Set(id, a.0)));
    ReleaseOthers(b.r, id, a.0);
    if a.1.Some? {
      var b2 := AppendToCommitlog(b1, id, a.1.value.0, a.1.value.1, false);
      AppendStill(b1, id, a.1.value.0, a.1.value.1, false);
      OthersTrans(b.r, b1.r, b2.r, id);
      RescheduleOthers(b2.r, id, IncomingAck);
      OthersTrans(b.r, b2.r, Reschedule(b2.r, id, IncomingAck), id);
    }
  }

  lemma {:induction false} OthersSubscribe(b: Batch, id: ConnectionId, filters: seq<(Filter, QoS)>, subId: Option<nat>)
    requires Present(b.r, id)
    ensures OthersSame(b.r, SubscribeAll(b, id, filters, subId).0.r, id)
            && Present(SubscribeAll(b, id, filters, subId).0.r, id)
    decreases |filters|
  {
    hide SubscribeOne, AwakeAt, OthersSame;
    OthersRefl(b.r, id);
    if filters != [] && !RefusedFilter(filters[0].0) && subId != Some(0) {
      SubscribeOneAwake(b.r, id, filters[0].0, filters[0].1);
      var c := b.(r := SubscribeOne(b.r, id, filters[0].0, filters[0].1));
      OthersSubscribe(c, id, filters[1..], subId);
      OthersTrans(b.r, c.r, SubscribeAll(c, id, filters[1..], subId).0.r, id);
    }
  }

  lemma OthersRefl(s: Router, id: ConnectionId)
    ensures OthersSame(s, s, id)
  {
  }

  lemma OthersUnsubscribeOne(b: Batch, id: ConnectionId, pkid: nat, path: Filter)
    requires Present(b.r, id)
    ensures OthersSame(b.r, UnsubscribeOne(b, id, pkid, path).r, id)
  {
    hide Leave, AwakeAt, OthersSame, Commit;
    OthersRefl(b.r, id);
    if path in b.r.subscriptionMap {
      var s := b.r.(subscriptionMap := b.r.subscriptionMap[path := b.r.subscriptionMap[path] - {id}]);
      FrameSame(b.r, s);
      LeaveAwake(s, id, path);
      OthersTrans(b.r, s, Leave(s, id, path), id);
      CommitOthers(Leave(s, id, path), id, UnsubAck(pkid));
      OthersTrans(b.r, Leave(s, id, path), Commit(Leave(s, id, path), id, UnsubAck(pkid)), id);
    }
  }

  lemma {:induction false} OthersUnsubscribe(b: Batch, id: ConnectionId, pkid: nat, paths: seq<Filter>)
    requires Present(b.r, id)
    ensures OthersSame(b.r, UnsubscribeAll(b, id, pkid, paths).r, id)
    decreases |paths|
  {
    hide UnsubscribeOne, OthersSame;
    OthersRefl(b.r, id);
    if paths != [] {
      var c := UnsubscribeOne(b, id, pkid, paths[0]);
      OthersUnsubscribeOne(b, id, pkid, paths[0]);
      if Present(c.r, id) {
        OthersUnsubscribe(c, id, pkid, paths[1..]);
        OthersTrans(b.r, c.r, UnsubscribeAll(c, id, pkid, paths[1..]).r, id);
      }
    }
  }

  lemma OthersRest(b: Batch, id: ConnectionId, p: Packet)
    requires Present(b.r, id) && (p.PacketPubComp? || p.PacketPingReq? || p.PacketDisconnect? || p.PacketOther?)
    ensures OthersSame(b.r, HandlePacket(b, id, p).r, id)
  {
    hide SubscribeAll, UnsubscribeAll, HandlePublish, HandlePubAck, HandlePubRec, HandlePubRel,
      Outgoing.RegisterPubComp;
  }

  lemma HandlePacketOthers(b: Batch, id: ConnectionId, p: Packet)
    requires Present(b.r, id)
    ensures OthersSame(b.r, HandlePacket(b, id, p).r, id)
  {
    hide OthersSame, Commit, SubscribeAll, UnsubscribeAll, HandlePublish, HandlePubAck, HandlePubRec, HandlePubRel,
      HandlePubComp, AwakeAt;
    match p {
      case PacketPublish(publish, props) => OthersAppend(b, id, publish, props);
      case PacketSubscribe(pkid, filters, subId) =>
        var r := SubscribeAll(b, id, filters, subId);
        OthersSubscribe(b, id, filters, subId);
        CommitOthers(r.0.r, id, SubAck(pkid, r.1));
        OthersTrans(b.r, r.0.r, HandlePacket(b, id, p).r, id);
      case PacketUnsubscribe(pkid, paths) => OthersUnsubscribe(b, id, pkid, paths);
      case PacketPubAck(pkid) => OthersPubAck(b, id, pkid);
      case PacketPubRec(pkid) => OthersPubRec(b, id, pkid);
      case PacketPubRel(pkid, _) =>
        OthersPubRel(b, id, pkid);
        OthersRefl(b.r, id);
      case _ => OthersRest(b, id, p);
    }
  }

  lemma {:induction false} HandlePacketsOthers(b: Batch, id: ConnectionId, packets: seq<Packet>)
    ensures OthersSame(b.r, HandlePackets(b, id, packets).r, id)
    decreases |packets|
  {
    hide HandlePacket, OthersSame;
    OthersRefl(b.r, id);
    if packets != [] && !b.stop && Present(b.r, id) {
      var c := HandlePacket(b, id, packets[0]);
      HandlePacketOthers(b, id, packets[0]);
      HandlePacketsOthers(c, id, packets[1..]);
      OthersTrans(b.r, c.r, HandlePackets(c, id, packets[1..]).r, id);
    }
  }

  // ---------------------------------------------------------------------------------------------
  // Events

  lemma SameNudged(s: Router, t: Router, other: ConnectionId, id: ConnectionId)
    requires OthersSame(s, t, other) && SameNames(s, t) && id != other && Present(s, id)
    ensures Nudged(s, t, id)
  {
    hide NamesOf;
    SameNamesPresent(s, t);
    assert SameAt(s, t, id);
  }

  lemma WakeNudged(s: Router, id: ConnectionId)
    requires s.notifications != [] && Present(s, id)
    ensures Nudged(s, Wake(s, s.notifications[0]).(notifications := s.notifications[1..]), id)
  {
  }

  lemma {:induction false} WakeAllNudged(s: Router, id: ConnectionId)
    requires Present(s, id)
    ensures Nudged(s, WakeAll(s), id)
    decreases |s.notifications|
  {
    hide Wake, Nudged;
    if s.notifications == [] {
      NudgedRefl(s, id);
    } else {
      var t := Wake(s, s.notifications[0]).(notifications := s.notifications[1..]);
      WakeNudged(s, id);
      NudgedPresent(s, t, id);
      WakeAllNudged(t, id);
      NudgedTrans(s, t, WakeAll(s), id);
    }
  }

  lemma NudgedRefl(s: Router, id: ConnectionId)
    requires Present(s, id)
    ensures Nudged(s, s, id)
  {
  }

  lemma NudgedPresent(s: Router, t: Router, id: ConnectionId)
    requires Nudged(s, t, id)
    ensures Present(t, id)
  {
  }

  lemma DisconnectNudged(s: Router, other: ConnectionId, id: ConnectionId)
    requires Present(s, id) && id != other
    ensures Nudged(s, Disconnect(s, other), id)
  {
    hide Clean, RewindAll, Retransmissions, ForgetAccounts, Unsubscribed;
  }

  lemma AdmitNudged(s: Router, client: ClientId, clean: bool, will: Option<Publish>, id: ConnectionId)
    requires Identified(s) && Present(s, id)
    ensures Nudged(s, Admit(s, client, clean, will), id)
  {
    hide PubRels, ForgetAccounts, NamesOf, NamesOk, Awakens;
    AdmitKeysAgree(s);
  }

  lemma ConnectNudged(s: Router, client: ClientId, clean: bool, will: Option<Publish>, id: ConnectionId)
    requires Identified(s) && Present(s, id) && s.connections.m[id].clientId != client
    ensures Nudged(s, Connect(s, client, clean, will), id)
  {
    hide Identified, Nudged, Admit, Disconnect, Subscribers;
    NudgedRefl(s, id);
    var d := Dropped(s, client);
    if client in s.connectionMap {
      MappedName(s, client);
      DisconnectNudged(s, s.connectionMap[client], id);
      DisconnectKeeps(s, s.connectionMap[client]);
    }
    NudgedPresent(s, d, id);
    AdmitNudged(d, client, clean, will, id);
    NudgedTrans(s, d, Admit(d, client, clean, will), id);
  }

  lemma MappedName(s: Router, client: ClientId)
    requires Identified(s) && client in s.connectionMap
    ensures var id := s.connectionMap[client]; Present(s, id) && s.connections.m[id].clientId == client
  {
    hide Project, InLockstep;
    ProjectAt(s.connections, ConnectionName);
    IdentifiedPresent(s);
  }

  lemma DeviceDataNudged(s: Router, other: ConnectionId, id: ConnectionId)
    requires Present(s, id) && id != other
    ensures Nudged(s, DeviceData(s, other), id)
  {
    hide HandlePackets, WakeAll, Reschedule, Disconnect, Nudged, OthersSame, NamesOf, SameSubscriptions, Subscribers,
      AwakeAt;
    NudgedRefl(s, id);
    if Present(s, other) {
      var b0 := FirstBatch(s, other);
      var b := HandlePackets(b0, other, s.ibufs.m[other].buffer);
      var s1 := if b.forceAck then Reschedule(b.r, other, FreshData) else b.r;
      FirstNudged(s, other, id);
      HandlePacketsOthers(b0, other, s.ibufs.m[other].buffer);
      HandlePacketsSame(b0, other, s.ibufs.m[other].buffer);
      SameNudged(b0.r, b.r, other, id);
      NudgedTrans(s, b0.r, b.r, id);
      NudgedPresent(b0.r, b.r, id);
      RescheduleNudged(b.r, other, FreshData, id);
      NudgedRefl(b.r, id);
      NudgedTrans(s, b.r, s1, id);
      NudgedPresent(b.r, s1, id);
      WakeAllNudged(s1, id);
      NudgedTrans(s, s1, WakeAll(s1), id);
      var s2 := if b.newData then WakeAll(s1) else s1;
      NudgedPresent(s, s2, id);
      DisconnectNudged(s2, other, id);
      NudgedTrans(s, s2, Disconnect(s2, other), id);
    }
  }

  lemma FirstNudged(s: Router, other: ConnectionId, id: ConnectionId)
    requires Present(s, id) && Present(s, other)
    ensures Nudged(s, FirstBatch(s, other).r, id) && Present(FirstBatch(s, other).r, id)
  {
  }

  lemma RescheduleNudged(s: Router, other: ConnectionId, why: ScheduleReason, id: ConnectionId)
    requires Present(s, id) && id != other
    ensures Nudged(s, Reschedule(s, other, why), id)
  {
    hide Awakens;
  }

  lemma PublishWillNudged(s: Router, client: ClientId, id: ConnectionId)
    requires Present(s, id)
    ensures Nudged(s, PublishWill(s, client), id)
  {
    hide WakeAll, Accept, Nudged;
    NudgedRefl(s, id);
    if client in s.lastWills {
      var t := AcceptPublish(s.(lastWills := s.lastWills - {client}), s.lastWills[client]);
      FrameNudged(s, t, id);
      WakeAllNudged(t, id);
      NudgedTrans(s, t, WakeAll(t), id);
    }
  }

  lemma FrameNudged(s: Router, t: Router, id: ConnectionId)
    requires Present(s, id) && t.scheduler.trackers == s.scheduler.trackers && t.ackslog == s.ackslog
             && t.obufs == s.obufs
    requires t.connections == s.connections && t.ibufs.m.Keys == s.ibufs.m.Keys
    ensures Nudged(s, t, id) && Present(t, id)
  {
  }

  // A turn serves only the connection at the front of the queue.
  lemma ConsumeOneNudged(s: Router, front: ConnectionId, id: ConnectionId)
    requires Present(s, front) && s.scheduler.trackers.m[front].requests != [] && Present(s, id) && id != front
    ensures Nudged(s, ConsumeOne(s, front).0, id)
  {
    hide ConsumeOne, ForwardData, Skip, Park;
    ConsumeOneShape(s, front);
  }

  lemma PauseNudged(s: Router, front: ConnectionId, why: PauseReason, id: ConnectionId)
    requires Present(s, id) && id != front
    ensures Nudged(s, Pause(s, front, why), id)
  {
  }

  lemma {:induction false} ConsumeLoopNudged(s: Router, front: ConnectionId, n: nat, id: ConnectionId)
    requires Present(s, id) && id != front
    ensures Nudged(s, ConsumeLoop(s, front, n), id)
    decreases n
  {
    hide ConsumeOne, Pause, Nudged;
    NudgedRefl(s, id);
    if n > 0 && Present(s, front) {
      if s.scheduler.trackers.m[front].requests == [] {
        PauseNudged(s, front, Caughtup, id);
      } else {
        var t := ConsumeOne(s, front);
        ConsumeOneNudged(s, front, id);
        NudgedPresent(s, t.0, id);
        if t.1 {
          ConsumeLoopNudged(t.0, front, n - 1, id);
          NudgedTrans(s, t.0, ConsumeLoop(t.0, front, n - 1), id);
        }
      }
    }
  }

  lemma SendAcksNudged(s: Router, front: ConnectionId, id: ConnectionId)
    requires Present(s, id) && Present(s, front) && id != front
    ensures Nudged(s, SendAcks(s, front), id)
  {
    hide DeviceAcks, Nudged;
    NudgedRefl(s, id);
    var a, o := s.ackslog.m[front], s.obufs.m[front];
    var s1 := s.(ackslog := s.ackslog.Set(front, a.(committed := [])));
    SetAcksNudged(s, front, a.(committed := []), id);
    NudgedPresent(s, s1, id);
    SetObufNudged(s1, front, o.(buffer := o.buffer + DeviceAcks(a.committed)).Notify(), id);
    NudgedTrans(s, s1, s1.(obufs := s1.obufs.Set(front, o.(buffer := o.buffer + DeviceAcks(a.committed)).Notify())),
                id);
  }

  lemma SetAcksNudged(s: Router, front: ConnectionId, a: AckLog, id: ConnectionId)
    requires Present(s, id) && id != front && front in s.ackslog.m
    ensures Nudged(s, s.(ackslog := s.ackslog.Set(front, a)), id)
  {
  }

  lemma ConsumeNudged(s: Router, id: ConnectionId)
    requires Present(s, id) && (s.scheduler.readyqueue == [] || s.scheduler.readyqueue[0] != id)
    ensures Nudged(s, Consume(s).0, id)
  {
    hide ConsumeLoop, SendAcks, Nudged, Scheduler.Rotate;
    NudgedRefl(s, id);
    if s.scheduler.readyqueue != [] {
      var front := s.scheduler.readyqueue[0];
      var s1 := s.(scheduler := s.scheduler.Rotate());
      RotateFrame(s);
      FrameNudged(s, s1, id);
      if Present(s1, front) {
        SendAcksNudged(s1, front, id);
        NudgedPresent(s1, SendAcks(s1, front), id);
        ConsumeLoopNudged(SendAcks(s1, front), front, MAX_SCHEDULE_ITERATIONS, id);
        NudgedTrans(s, s1, SendAcks(s1, front), id);
        NudgedTrans(s, SendAcks(s1, front), ConsumeLoop(SendAcks(s1, front), front, MAX_SCHEDULE_ITERATIONS), id);
      }
    }
  }

  lemma ArriveNudged(s: Router, other: ConnectionId, p: Packet, id: ConnectionId)
    requires Present(s, id)
    ensures Nudged(s, Arrive(s, other, p), id)
  {
    hide Nudged;
    NudgedRefl(s, id);
    if other in s.ibufs.m {
      FrameNudged(s, Arrive(s, other, p), id);
    }
  }

  lemma ExchangeNudged(s: Router, other: ConnectionId, id: ConnectionId)
    requires Present(s, id) && id != other
    ensures Nudged(s, Exchange(s, other), id)
  {
    hide Nudged;
    NudgedRefl(s, id);
    if other in s.obufs.m {
      SetObufNudged(s, other,
                    s.obufs.m[other].(buffer := [],
                                      tokens := if s.obufs.m[other].tokens > 0 then s.obufs.m[other].tokens - 1
                                        else 0), id);
    }
  }

  lemma SetObufNudged(s: Router, other: ConnectionId, o: Outgoing, id: ConnectionId)
    requires Present(s, id) && id != other && other in s.obufs.m
    ensures Nudged(s, s.(obufs := s.obufs.Set(other, o)), id)
  {
  }

  lemma StepNudged(s: Router, e: Event, id: ConnectionId)
    requires Identified(s) && Present(s, id) && !About(s, e, id)
    ensures Nudged(s, Step(s, e), id)
  {
    hide Connect, DeviceData, Disconnect, PublishWill, Consume, Identified, Nudged, Reschedule, Arrive, Exchange;
    match e {
      case EventConnect(client, clean, will) => ConnectNudged(s, client, clean, will, id);
      case EventDeviceData(other) => DeviceDataNudged(s, other, id);
      case EventDisconnect(other) => DisconnectNudged(s, other, id);
      case EventPublishWill(client) => PublishWillNudged(s, client, id);
      case EventConsume => ConsumeNudged(s, id);
      case EventReady(other) => RescheduleNudged(s, other, LinkReady, id);
      case EventArrive(other, p) => ArriveNudged(s, other, p, id);
      case EventExchange(other) => ExchangeNudged(s, other, id);
    }
  }
}

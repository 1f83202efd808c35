// No wake-up is lost: a connection sleeps for new data only when it has nothing tracked and nothing
// to acknowledge, and for acknowledgements only when its window is full.
module Wakeups {
  import opened Types
  import opened Slabs
  import opened LogModel
  import opened DataLogModel
  import opened OutgoingModel
  import opened SchedulerModel
  import opened RouterModel
  import opened Frames
  import opened Window
  import opened Identity
  import opened Queue
  import opened Requests
  import opened RequestRuns

  // acked: the acks of the connection are going to be swept anyway.
  ghost predicate AwakeAt(s: Router, id: ConnectionId, acked: bool) {
    Present(s, id) ==>
      var t := s.scheduler.trackers.m[id];
      && (t.status == Paused(Caughtup) ==> t.requests == [] && (acked || s.ackslog.m[id].committed == []))
      && (t.status == Paused(PauseReason.InflightFull) ==> s.obufs.m[id].FreeSlots() == 0)
  }

  ghost predicate NoneAsleep(s: Router) {
    forall id :: AwakeAt(s, id, false)
  }

  // Within a batch of one connection; a connection about to be dropped does not matter.
  ghost predicate BatchAwake(b: Batch, id: ConnectionId) {
    && (forall other :: other != id ==> AwakeAt(b.r, other, false))
    && (b.disconnect || AwakeAt(b.r, id, b.forceAck))
  }

  ghost predicate SameAt(s: Router, t: Router, id: ConnectionId) {
    Present(t, id) ==>
      && Present(s, id) && t.scheduler.trackers.m[id] == s.scheduler.trackers.m[id]
      && t.ackslog.m[id] == s.ackslog.m[id] && t.obufs.m[id] == s.obufs.m[id]
  }

  // Everyone but one connection is left alone.
  ghost predicate OthersSame(s: Router, t: Router, id: ConnectionId) {
    forall other :: other != id ==> SameAt(s, t, other)
  }

  lemma OthersAwake(s: Router, t: Router, id: ConnectionId)
    requires OthersSame(s, t, id) && forall other :: other != id ==> AwakeAt(s, other, false)
    ensures forall other :: other != id ==> AwakeAt(t, other, false)
  {
    hide Present;
    forall other | other != id
      ensures AwakeAt(t, other, false)
    {
      assert SameAt(s, t, other) && AwakeAt(s, other, false);
    }
  }

  lemma OthersTrans(s: Router, t: Router, u: Router, id: ConnectionId)
    requires OthersSame(s, t, id) && OthersSame(t, u, id)
    ensures OthersSame(s, u, id)
  {
    hide Present;
    forall other | other != id
      ensures SameAt(s, u, other)
    {
      assert SameAt(s, t, other) && SameAt(t, u, other);
    }
  }

  // ---------------------------------------------------------------------------------------------
  // Single updates

  lemma RescheduleOthers(s: Router, id: ConnectionId, why: ScheduleReason)
    ensures OthersSame(s, Reschedule(s, id, why), id)
    ensures forall acked :: AwakeAt(s, id, acked) ==> AwakeAt(Reschedule(s, id, why), id, acked)
    ensures why == IncomingAck ==> forall acked :: AwakeAt(Reschedule(s, id, why), id, acked)
    ensures why == FreshData && AwakeAt(s, id, true) ==> AwakeAt(Reschedule(s, id, why), id, false)
  {
  }

  lemma CommitOthers(s: Router, id: ConnectionId, a: Ack)
    requires Present(s, id)
    ensures OthersSame(s, Commit(s, id, a), id)
    ensures AwakeAt(s, id, true) ==> AwakeAt(Commit(s, id, a), id, true)
  {
  }

  lemma SetObufOthers(s: Router, id: ConnectionId, o: Outgoing)
    requires Present(s, id)
    ensures OthersSame(s, s.(obufs := s.obufs.Set(id, o)), id)
  {
  }

  lemma FrameSame(s: Router, t: Router)
    requires t.scheduler.trackers == s.scheduler.trackers && t.ackslog == s.ackslog && t.obufs == s.obufs
    requires forall id :: Present(t, id) ==> Present(s, id)
    ensures forall id :: OthersSame(s, t, id)
    ensures forall id, acked :: AwakeAt(s, id, acked) ==> AwakeAt(t, id, acked)
  {
  }

  lemma AppendStill(b: Batch, id: ConnectionId, p: Publish, props: Props, report: bool)
    requires Present(b.r, id)
    ensures var c := AppendToCommitlog(b, id, p, props, report);
            && OthersSame(b.r, c.r, id) && Present(c.r, id)
            && (forall acked :: AwakeAt(b.r, id, acked) ==> AwakeAt(c.r, id, acked))
            && c.forceAck == b.forceAck && (b.disconnect ==> c.disconnect) && (c.stop && !b.stop ==> c.disconnect)
  {
    hide AwakeAt, OthersSame, SameNames;
    AppendFrame(b, id, p, props, report);
    AppendSame(b, id, p, props, report);
    SameNamesPresent(b.r, AppendToCommitlog(b, id, p, props, report).r);
    FrameSame(b.r, AppendToCommitlog(b, id, p, props, report).r);
    AppendFlags(b, id, p, props, report);
  }

  lemma AppendFlags(b: Batch, id: ConnectionId, p: Publish, props: Props, report: bool)
    requires Present(b.r, id)
    ensures var c := AppendToCommitlog(b, id, p, props, report);
            c.forceAck == b.forceAck && (b.disconnect ==> c.disconnect) && (c.stop && !b.stop ==> c.disconnect)
  {
    hide Resolve, AcceptPublish;
  }

  // ---------------------------------------------------------------------------------------------
  // Packets

  lemma BatchStep(b: Batch, c: Batch, id: ConnectionId)
    requires BatchAwake(b, id) && OthersSame(b.r, c.r, id)
    requires c.disconnect || (!b.disconnect && AwakeAt(b.r, id, b.forceAck) ==> AwakeAt(c.r, id, c.forceAck))
    requires b.disconnect ==> c.disconnect
    ensures BatchAwake(c, id)
  {
    hide AwakeAt, OthersSame;
    OthersAwake(b.r, c.r, id);
  }

  lemma HandlePublishAwake(b: Batch, id: ConnectionId, p: Publish, props: Props)
    requires Present(b.r, id) && BatchAwake(b, id)
    ensures BatchAwake(HandlePublish(b, id, p, props), id)
  {
    hide AppendToCommitlog, AwakeAt, OthersSame, BatchAwake, Commit;
    var c := HandlePublish(b, id, p, props);
    match p.qos {
      case ExactlyOnce =>
        RecordOthers(b.r, id, p, props);
        ForceAwake(b.r, id, b.forceAck);
      case AtLeastOnce =>
        var b1 := b.(r := Commit(b.r, id, PubAck(p.pkid)), forceAck := true);
        CommitPresent(b.r, id, PubAck(p.pkid));
        CommitOthers(b.r, id, PubAck(p.pkid));
        ForceAwake(b.r, id, b.forceAck);
        AppendStill(b1, id, p, props, true);
        OthersTrans(b.r, b1.r, c.r, id);
      case AtMostOnce =>
        AppendStill(b, id, p, props, true);
    }
    BatchStep(b, c, id);
  }

  lemma ForceAwake(s: Router, id: ConnectionId, acked: bool)
    ensures AwakeAt(s, id, acked) ==> AwakeAt(s, id, true)
  {
  }

  lemma CommitPresent(s: Router, id: ConnectionId, a: Ack)
    requires Present(s, id)
    ensures Present(Commit(s, id, a), id)
  {
  }

  lemma RecordOthers(s: Router, id: ConnectionId, p: Publish, props: Props)
    requires Present(s, id)
    ensures var t := s.(ackslog := s.ackslog.Set(id, s.ackslog.m[id].Record(p, props)));
            OthersSame(s, t, id) && (AwakeAt(s, id, true) ==> AwakeAt(t, id, true))
  {
  }

  lemma RegisterAckOthers(s: Router, id: ConnectionId, pkid: nat)
    requires Present(s, id)
    ensures OthersSame(s, RegisterAck(s, id, pkid), id) && Present(RegisterAck(s, id, pkid), id)
  {
    hide Settle, Outgoing.RegisterAck;
  }

  lemma HandlePubAckAwake(b: Batch, id: ConnectionId, pkid: nat)
    requires Present(b.r, id) && BatchAwake(b, id)
    ensures BatchAwake(HandlePubAck(b, id, pkid), id)
  {
    hide RegisterAck, Outgoing.RegisterAck, AwakeAt, OthersSame, BatchAwake, Reschedule;
    var s := RegisterAck(b.r, id, pkid);
    RegisterAckOthers(b.r, id, pkid);
    RescheduleOthers(s, id, IncomingAck);
    OthersTrans(b.r, s, Reschedule(s, id, IncomingAck), id);
    BatchStep(b, HandlePubAck(b, id, pkid), id);
  }

  lemma HandlePubRecAwake(b: Batch, id: ConnectionId, pkid: nat)
    requires Present(b.r, id) && BatchAwake(b, id)
    ensures BatchAwake(HandlePubRec(b, id, pkid), id)
  {
    hide RegisterAck, Outgoing.RegisterAck, Outgoing.RegisterPubRec, AwakeAt, OthersSame, BatchAwake, Reschedule,
      Commit;
    var s := RegisterAck(b.r, id, pkid);
    RegisterAckOthers(b.r, id, pkid);
    var s1 := s.(obufs := s.obufs.Set(id, s.obufs.m[id].RegisterPubRec(pkid)));
    SetObufOthers(s, id, s.obufs.m[id].RegisterPubRec(pkid));
    OthersTrans(b.r, s, s1, id);
    var s2 := Commit(s1, id, PubRel(pkid));
    CommitOthers(s1, id, PubRel(pkid));
    OthersTrans(b.r, s1, s2, id);
    RescheduleOthers(s2, id, IncomingAck);
    OthersTrans(b.r, s2, Reschedule(s2, id, IncomingAck), id);
    BatchStep(b, HandlePubRec(b, id, pkid), id);
  }

  lemma ReleaseOthers(s: Router, id: ConnectionId, a: AckLog)
    requires Present(s, id)
    ensures OthersSame(s, s.(ackslog := s.ackslog.Set(id, a)), id) && Present(s.(ackslog := s.ackslog.Set(id, a)), id)
  {
  }

  lemma HandlePubRelAwake(b: Batch, id: ConnectionId, pkid: nat)
    requires Present(b.r, id) && BatchAwake(b, id) && !b.stop
    ensures BatchAwake(HandlePubRel(b, id, pkid), id)
  {
    hide AppendToCommitlog, AwakeAt, OthersSame, BatchAwake, Reschedule, AckLog.Release;
    var a := b.r.ackslog.m[id].Release(pkid);
    var b1 := b.(r := b.r.(ackslog := b.r.ackslog.Set(id, a.0)));
    ReleaseOthers(b.r, id, a.0);
    if a.1.Some? {
      var b2 := AppendToCommitlog(b1, id, a.1.value.0, a.1.value.1, false);
      AppendStill(b1, id, a.1.value.0, a.1.value.1, false);
      OthersTrans(b.r, b1.r, b2.r, id);
      RescheduleOthers(b2.r, id, IncomingAck);
      OthersTrans(b.r, b2.r, Reschedule(b2.r, id, IncomingAck), id);
    }
    BatchStep(b, HandlePubRel(b, id, pkid), id);
  }

  lemma HandlePubCompAwake(b: Batch, id: ConnectionId, pkid: nat)
    requires Present(b.r, id) && BatchAwake(b, id)
    ensures BatchAwake(HandlePubComp(b, id, pkid), id)
  {
    hide OthersSame, BatchAwake;
    SetObufOthers(b.r, id, b.r.obufs.m[id].RegisterPubComp(pkid).0);
    BatchStep(b, HandlePubComp(b, id, pkid), id);
  }

  lemma SubscribeOneAwake(s: Router, id: ConnectionId, path: Filter, qos: QoS)
    requires Present(s, id)
    ensures var t := SubscribeOne(s, id, path, qos);
            && OthersSame(s, t, id) && Present(t, id)
            && forall acked :: AwakeAt(s, id, acked) ==> AwakeAt(t, id, acked)
  {
    hide Register, IndexOf, AddSubscriber, AwakeAt, OthersSame, SubscribeOne;
    var dl := Register(s.datalog, path);
    var i := IndexOf(dl, path);
    var r := DataRequest(path, i, qos, if i < |dl.native| then dl.native[i].log.NextOffset()
                         else Cursor(0, 0), 0, true);
    SubscribeOneAcks(s, id, path, qos);
    SubscribeOneShape(s, id, path, qos);
    SubscribeOneSame(s, id, path, qos);
    SameNamesPresent(s, SubscribeOne(s, id, path, qos));
    TrackThenWake(s, SubscribeOne(s, id, path, qos), id, r);
  }

  lemma SubscribeOneAcks(s: Router, id: ConnectionId, path: Filter, qos: QoS)
    requires Present(s, id)
    ensures SubscribeOne(s, id, path, qos).ackslog == s.ackslog
  {
    hide Register, IndexOf, AddSubscriber, Scheduler.Track, Scheduler.Reschedule;
  }

  // A new request wakes a connection that had none.
  lemma TrackThenWake(s: Router, t: Router, id: ConnectionId, r: DataRequest)
    requires Present(s, id) && (forall k :: Present(t, k) == Present(s, k)) && t.ackslog == s.ackslog
             && t.obufs == s.obufs
    requires t.scheduler == s.scheduler || t.scheduler == s.scheduler.Track(id, r).Reschedule(id, NewFilter)
    ensures OthersSame(s, t, id) && forall acked :: AwakeAt(s, id, acked) ==> AwakeAt(t, id, acked)
  {
  }

  lemma {:induction false} SubscribeAllAwake(b: Batch, id: ConnectionId, filters: seq<(Filter, QoS)>,
                                             subId: Option<nat>)
    requires BatchAwake(b, id)
    ensures BatchAwake(SubscribeAll(b, id, filters, subId).0, id)
    decreases |filters|
  {
    hide SubscribeOne, AwakeAt, OthersSame, BatchAwake;
    if filters != [] && Present(b.r, id) {
      BatchStepDrop(b, id);
      SubscribeOneAwake(b.r, id, filters[0].0, filters[0].1);
      var c := b.(r := SubscribeOne(b.r, id, filters[0].0, filters[0].1));
      BatchStep(b, c, id);
      SubscribeAllAwake(c, id, filters[1..], subId);
    }
  }

  lemma BatchStepDrop(b: Batch, id: ConnectionId)
    requires BatchAwake(b, id)
    ensures forall why :: BatchAwake(b.(disconnect := true, reason := why), id)
    ensures BatchAwake(b.(disconnect := true), id)
  {
    hide AwakeAt;
  }

  lemma LeaveAwake(s: Router, id: ConnectionId, path: Filter)
    requires Present(s, id)
    ensures var t := Leave(s, id, path);
            && OthersSame(s, t, id) && Present(t, id)
            && forall acked :: AwakeAt(s, id, acked) ==> AwakeAt(t, id, acked)
  {
    hide RemoveWaiter;
  }

  lemma UnsubscribeOneAwake(b: Batch, id: ConnectionId, pkid: nat, path: Filter)
    requires Present(b.r, id) && BatchAwake(b, id)
    ensures BatchAwake(UnsubscribeOne(b, id, pkid, path), id)
  {
    hide Leave, AwakeAt, OthersSame, BatchAwake, Commit;
    if path in b.r.subscriptionMap {
      var s := b.r.(subscriptionMap := b.r.subscriptionMap[path := b.r.subscriptionMap[path] - {id}]);
      FrameSame(b.r, s);
      LeaveAwake(s, id, path);
      OthersTrans(b.r, s, Leave(s, id, path), id);
      var u := Commit(Leave(s, id, path), id, UnsubAck(pkid));
      CommitOthers(Leave(s, id, path), id, UnsubAck(pkid));
      OthersTrans(b.r, Leave(s, id, path), u, id);
      ForceAwake(b.r, id, b.forceAck);
      BatchStepIf(b, UnsubscribeOne(b, id, pkid, path), id);
    }
  }

  lemma BatchStepIf(b: Batch, c: Batch, id: ConnectionId)
    requires BatchAwake(b, id) && (c == b || OthersSame(b.r, c.r, id))
    requires c == b || (c.disconnect == b.disconnect && (AwakeAt(b.r, id, b.forceAck) ==> AwakeAt(c.r, id, c.forceAck)))
    ensures BatchAwake(c, id)
  {
    hide AwakeAt, OthersSame;
    if c != b {
      BatchStep(b, c, id);
    }
  }

  lemma {:induction false} UnsubscribeAllAwake(b: Batch, id: ConnectionId, pkid: nat, paths: seq<Filter>)
    requires BatchAwake(b, id)
    ensures BatchAwake(UnsubscribeAll(b, id, pkid, paths), id)
    decreases |paths|
  {
    hide UnsubscribeOne, BatchAwake;
    if paths != [] && Present(b.r, id) {
      UnsubscribeOneAwake(b, id, pkid, paths[0]);
      UnsubscribeAllAwake(UnsubscribeOne(b, id, pkid, paths[0]), id, pkid, paths[1..]);
    }
  }

  lemma CommitForced(b: Batch, id: ConnectionId, a: Ack)
    requires Present(b.r, id) && BatchAwake(b, id)
    ensures BatchAwake(b.(r := Commit(b.r, id, a), forceAck := true), id)
  {
    hide AwakeAt, OthersSame, BatchAwake, Commit;
    CommitOthers(b.r, id, a);
    ForceAwake(b.r, id, b.forceAck);
    BatchStep(b, b.(r := Commit(b.r, id, a), forceAck := true), id);
  }

  lemma DisconnectPacketAwake(b: Batch, id: ConnectionId)
    requires Present(b.r, id) && BatchAwake(b, id)
    ensures BatchAwake(HandlePacket(b, id, PacketDisconnect), id)
  {
    hide AwakeAt, OthersSame, BatchAwake;
    var s := b.r.(lastWills := b.r.lastWills - {b.r.ibufs.m[id].clientId});
    FrameSame(b.r, s);
    BatchStep(b, Fail(b.(r := s)), id);
  }

  lemma HandlePacketAwake(b: Batch, id: ConnectionId, p: Packet)
    requires Present(b.r, id) && BatchAwake(b, id) && !b.stop
    ensures BatchAwake(HandlePacket(b, id, p), id)
  {
    hide BatchAwake, Commit, SubscribeAll, UnsubscribeAll, HandlePublish, HandlePubAck, HandlePubRec, HandlePubRel,
      HandlePubComp;
    match p {
      case PacketPublish(publish, props) => HandlePublishAwake(b, id, publish, props);
      case PacketSubscribe(pkid, filters, subId) =>
        var r := SubscribeAll(b, id, filters, subId);
        SubscribeAllAwake(b, id, filters, subId);
        if Present(r.0.r, id) {
          CommitForced(r.0, id, SubAck(pkid, r.1));
        }
      case PacketUnsubscribe(pkid, paths) => UnsubscribeAllAwake(b, id, pkid, paths);
      case PacketPubAck(pkid) => HandlePubAckAwake(b, id, pkid);
      case PacketPubRec(pkid) => HandlePubRecAwake(b, id, pkid);
      case PacketPubRel(pkid, _) => HandlePubRelAwake(b, id, pkid);
      case PacketPubComp(pkid) => HandlePubCompAwake(b, id, pkid);
      case PacketPingReq => CommitForced(b, id, PingResp);
      case PacketDisconnect => DisconnectPacketAwake(b, id);
      case PacketOther =>
    }
  }

  lemma {:induction false} HandlePacketsAwake(b: Batch, id: ConnectionId, packets: seq<Packet>)
    requires BatchAwake(b, id)
    ensures BatchAwake(HandlePackets(b, id, packets), id)
    decreases |packets|
  {
    hide HandlePacket, BatchAwake;
    if packets != [] && !b.stop && Present(b.r, id) {
      HandlePacketAwake(b, id, packets[0]);
      HandlePacketsAwake(HandlePacket(b, id, packets[0]), id, packets[1..]);
    }
  }

  // ---------------------------------------------------------------------------------------------
  // Events

  lemma WakeAwake(s: Router)
    requires s.notifications != [] && NoneAsleep(s)
    ensures NoneAsleep(Wake(s, s.notifications[0]).(notifications := s.notifications[1..]))
  {
    var w := s.notifications[0];
    var t := Wake(s, w).(notifications := s.notifications[1..]);
    forall id
      ensures AwakeAt(t, id, false)
    {
      assert AwakeAt(s, id, false);
    }
  }

  lemma {:induction false} WakeAllAwake(s: Router)
    requires NoneAsleep(s)
    ensures NoneAsleep(WakeAll(s))
    decreases |s.notifications|
  {
    hide Wake, NoneAsleep;
    if s.notifications != [] {
      WakeAwake(s);
      WakeAllAwake(Wake(s, s.notifications[0]).(notifications := s.notifications[1..]));
    }
  }

  // Waking in the middle of a connection's own batch: everyone but possibly itself.
  ghost predicate OthersAwakeAt(s: Router, id: ConnectionId) {
    forall other :: other != id ==> AwakeAt(s, other, false)
  }

  lemma {:induction false} WakeAllOthers(s: Router, id: ConnectionId)
    requires OthersAwakeAt(s, id)
    ensures OthersAwakeAt(WakeAll(s), id)
    decreases |s.notifications|
  {
    hide Wake, AwakeAt;
    if s.notifications != [] {
      WakeOthers(s, id);
      WakeAllOthers(Wake(s, s.notifications[0]).(notifications := s.notifications[1..]), id);
    }
  }

  lemma WakeOthers(s: Router, id: ConnectionId)
    requires s.notifications != [] && OthersAwakeAt(s, id)
    ensures OthersAwakeAt(Wake(s, s.notifications[0]).(notifications := s.notifications[1..]), id)
  {
    var t := Wake(s, s.notifications[0]).(notifications := s.notifications[1..]);
    forall other | other != id
      ensures AwakeAt(t, other, false)
    {
      assert AwakeAt(s, other, false);
    }
  }

  lemma DisconnectAwake(s: Router, id: ConnectionId)
    requires OthersAwakeAt(s, id)
    ensures Present(s, id) ==> NoneAsleep(Disconnect(s, id))
    ensures NoneAsleep(s) ==> NoneAsleep(Disconnect(s, id))
  {
    hide Clean, RewindAll, Retransmissions, ForgetAccounts, Unsubscribed;
    var t := Disconnect(s, id);
    if Present(s, id) {
      forall other
        ensures AwakeAt(t, other, false)
      {
        assert other != id ==> AwakeAt(s, other, false);
      }
    }
  }

  lemma BatchStarts(s: Router, id: ConnectionId)
    requires Present(s, id) && NoneAsleep(s)
    ensures BatchAwake(Batch(TakePackets(s, id), false, false, false, None, false), id)
  {
    hide AwakeAt, OthersSame;
    FrameSame(s, TakePackets(s, id));
  }

  lemma FinishAwake(b: Batch, id: ConnectionId)
    requires BatchAwake(b, id) && Present(Woken(b, id), id)
    ensures NoneAsleep(Finish(b, id))
  {
    hide AwakeAt, WakeAll, Reschedule, Disconnect, OthersSame;
    var s1 := if b.forceAck then Reschedule(b.r, id, FreshData) else b.r;
    RescheduleOthers(b.r, id, FreshData);
    if b.forceAck {
      OthersAwake(b.r, s1, id);
      ForceAwake(b.r, id, b.forceAck);
    }
    WakeAllOthers(s1, id);
    DisconnectAwake(Woken(b, id), id);
    if !b.disconnect {
      assert NoneAsleep(s1);
      WakeAllAwake(s1);
    }
  }

  lemma DeviceDataAwake(s: Router, id: ConnectionId)
    requires NoneAsleep(s)
    ensures NoneAsleep(DeviceData(s, id))
  {
    hide HandlePackets, NoneAsleep, BatchAwake, Finish, SameNames, SameSubscriptions;
    if Present(s, id) {
      var b0 := Batch(TakePackets(s, id), false, false, false, None, false);
      var b := HandlePackets(b0, id, s.ibufs.m[id].buffer);
      BatchStarts(s, id);
      HandlePacketsAwake(b0, id, s.ibufs.m[id].buffer);
      HandlePacketsSame(b0, id, s.ibufs.m[id].buffer);
      WokenSame(b, id);
      NamesOfSubscriptions(b.r, Woken(b, id));
      SameNamesPresent(b0.r, b.r);
      SameNamesPresent(b.r, Woken(b, id));
      FinishAwake(b, id);
    }
  }

  lemma NamesOfSubscriptions(s: Router, t: Router)
    requires SameSubscriptions(s, t)
    ensures SameNames(s, t)
  {
    hide NamesOf, Project;
  }

  lemma AdmitAwake(s: Router, client: ClientId, clean: bool, will: Option<Publish>)
    requires Identified(s) && NoneAsleep(s)
    ensures NoneAsleep(Admit(s, client, clean, will))
  {
    hide PubRels, ForgetAccounts, NamesOf, NamesOk;
    AdmitKeysAgree(s);
    var id, t := s.connections.NextKey(), Admit(s, client, clean, will);
    forall other
      ensures AwakeAt(t, other, false)
    {
      assert AwakeAt(s, other, false);
    }
  }

  lemma ConnectAwake(s: Router, client: ClientId, clean: bool, will: Option<Publish>)
    requires Identified(s) && NoneAsleep(s)
    ensures NoneAsleep(Connect(s, client, clean, will))
  {
    hide Identified, NoneAsleep, Admit, Disconnect;
    var d := Dropped(s, client);
    if client in s.connectionMap {
      AllAwakeOthers(s, s.connectionMap[client]);
      DisconnectAwake(s, s.connectionMap[client]);
      DisconnectKeeps(s, s.connectionMap[client]);
    }
    AdmitAwake(d, client, clean, will);
  }

  lemma AllAwakeOthers(s: Router, id: ConnectionId)
    requires NoneAsleep(s)
    ensures OthersAwakeAt(s, id)
  {
    hide AwakeAt;
  }

  // ---------------------------------------------------------------------------------------------
  // Consuming

  // What holds of the connection that is being served.
  ghost predicate Serving(s: Router, id: ConnectionId) {
    && NoneAsleep(s)
    && (Present(s, id) ==> s.ackslog.m[id].committed == [])
  }

  lemma SendAcksAwake(s: Router, id: ConnectionId)
    requires Present(s, id) && NoneAsleep(s)
    ensures Serving(SendAcks(s, id), id)
  {
    hide DeviceAcks;
    var t := SendAcks(s, id);
    forall other
      ensures AwakeAt(t, other, false)
    {
      assert AwakeAt(s, other, false);
    }
  }

  lemma PauseCaughtup(s: Router, id: ConnectionId)
    requires Present(s, id) && Serving(s, id) && s.scheduler.trackers.m[id].requests == []
    ensures NoneAsleep(Pause(s, id, Caughtup))
  {
    var t := Pause(s, id, Caughtup);
    forall other
      ensures AwakeAt(t, other, false)
    {
      assert AwakeAt(s, other, false);
    }
  }

  // Entries enter the window only when there was room, so a connection waiting for acks has none.
  lemma ForwardFull(dl: DataLog, o: Outgoing, r: DataRequest)
    ensures var f := ForwardData(dl, o, r);
            && (f.2 == ConsumeStatus.InflightFull ==> o.FreeSlots() == 0 && f.0 == o)
            && (o.FreeSlots() == 0 ==> f.0.FreeSlots() == 0)
  {
    hide Pull, RetainedItems, LogItems, Outgoing.PushForwards;
    var items := RetainedItems(dl, r, Slots(dl, o, r)) + LogItems(Pull(dl, o, r).entries);
    if r.qos == AtMostOnce {
      PushForwardsQoS0(o, items, r.filterIdx);
    }
  }

  lemma ConsumeOneAwake(s: Router, id: ConnectionId)
    requires Present(s, id) && s.scheduler.trackers.m[id].requests != [] && Serving(s, id)
    ensures NoneAsleep(ConsumeOne(s, id).0)
    ensures ConsumeOne(s, id).1 ==> Serving(ConsumeOne(s, id).0, id)
  {
    hide ConsumeOne, ForwardData, AwakeAt;
    var r := s.scheduler.trackers.m[id].requests[0];
    var f := ForwardData(s.datalog, s.obufs.m[id], r);
    var t := ConsumeOne(s, id).0;
    ForwardFull(s.datalog, s.obufs.m[id], r);
    ConsumeOneParts(s, id);
    forall other
      ensures AwakeAt(t, other, false)
    {
      assert AwakeAt(s, other, false);
      ConsumeOneAt(s, id, t, f, other);
    }
  }

  // The parts of the state a sweep touches, for the connection served and for everyone else.
  ghost predicate SweepTouches(s: Router, id: ConnectionId, t: Router, f: (Outgoing, DataRequest, ConsumeStatus)) {
    && t.ackslog == s.ackslog && t.connections == s.connections && t.ibufs == s.ibufs
    && id in s.scheduler.trackers.m && t.scheduler.trackers.m.Keys == s.scheduler.trackers.m.Keys
    && t.obufs.m == s.obufs.m[id := f.0]
    && (forall other :: other in s.scheduler.trackers.m && other != id ==>
          t.scheduler.trackers.m[other] == s.scheduler.trackers.m[other])
    && var st := t.scheduler.trackers.m[id].status;
       match f.2
       case BufferFull => st == Paused(Busy) || st == s.scheduler.trackers.m[id].status
       case InflightFull => st == Paused(PauseReason.InflightFull) || st == s.scheduler.trackers.m[id].status
       case _ => st == s.scheduler.trackers.m[id].status
  }

  lemma ConsumeOneParts(s: Router, id: ConnectionId)
    requires Present(s, id) && s.scheduler.trackers.m[id].requests != []
    ensures var f := ForwardData(s.datalog, s.obufs.m[id], s.scheduler.trackers.m[id].requests[0]);
            f.2 == ConsumeStatus.InflightFull ==> f.0 == s.obufs.m[id]
    ensures SweepTouches(s, id, ConsumeOne(s, id).0,
                         ForwardData(s.datalog, s.obufs.m[id], s.scheduler.trackers.m[id].requests[0]))
    ensures Present(ConsumeOne(s, id).0, id)
  {
    hide ForwardData, ConsumeOne, Skip, Park;
    ForwardFull(s.datalog, s.obufs.m[id], s.scheduler.trackers.m[id].requests[0]);
    ConsumeOneShape(s, id);
  }

  lemma ConsumeOneAt(s: Router, id: ConnectionId, t: Router, f: (Outgoing, DataRequest, ConsumeStatus),
                     other: ConnectionId)
    requires Present(s, id) && s.scheduler.trackers.m[id].requests != [] && AwakeAt(s, other, false)
    requires SweepTouches(s, id, t, f)
    requires f.2 == ConsumeStatus.InflightFull ==> s.obufs.m[id].FreeSlots() == 0 && f.0 == s.obufs.m[id]
    requires s.obufs.m[id].FreeSlots() == 0 ==> f.0.FreeSlots() == 0
    ensures AwakeAt(t, other, false)
  {
    if other == id {
      assert t.obufs.m[id] == f.0;
    }
  }

  lemma {:induction false} ConsumeLoopAwake(s: Router, id: ConnectionId, n: nat)
    requires Serving(s, id)
    ensures NoneAsleep(ConsumeLoop(s, id, n))
    decreases n
  {
    hide ConsumeOne, Pause, NoneAsleep;
    if n > 0 && Present(s, id) {
      if s.scheduler.trackers.m[id].requests == [] {
        PauseCaughtup(s, id);
      } else {
        ConsumeOneAwake(s, id);
        if ConsumeOne(s, id).1 {
          ConsumeLoopAwake(ConsumeOne(s, id).0, id, n - 1);
        }
      }
    }
  }

  lemma ConsumeAwake(s: Router)
    requires NoneAsleep(s)
    ensures NoneAsleep(Consume(s).0)
  {
    hide ConsumeLoop, SendAcks, AwakeAt;
    if s.scheduler.readyqueue != [] {
      var id := s.scheduler.readyqueue[0];
      var s1 := s.(scheduler := s.scheduler.Rotate());
      FrameSame(s, s1);
      if Present(s1, id) {
        SendAcksAwake(s1, id);
        ConsumeLoopAwake(SendAcks(s1, id), id, MAX_SCHEDULE_ITERATIONS);
      }
    }
  }

  lemma BuffersAwake(s: Router, e: Event)
    requires NoneAsleep(s) && (e.EventArrive? || e.EventExchange? || e.EventReady?)
    ensures NoneAsleep(Step(s, e))
  {
    var t := Step(s, e);
    forall id
      ensures AwakeAt(t, id, false)
    {
      assert AwakeAt(s, id, false);
    }
  }

  lemma PublishWillAwake(s: Router, client: ClientId)
    requires NoneAsleep(s)
    ensures NoneAsleep(PublishWill(s, client))
  {
    hide WakeAll, Accept, AwakeAt;
    if client in s.lastWills {
      var t := AcceptPublish(s.(lastWills := s.lastWills - {client}), s.lastWills[client]);
      FrameSame(s, t);
      WakeAllAwake(t);
    }
  }

  lemma StepAwake(s: Router, e: Event)
    requires Identified(s) && NoneAsleep(s)
    ensures NoneAsleep(Step(s, e))
  {
    hide Connect, DeviceData, Disconnect, PublishWill, Consume, Identified, NoneAsleep, Scheduler.Reschedule;
    match e {
      case EventConnect(client, clean, will) => ConnectAwake(s, client, clean, will);
      case EventDeviceData(id) => DeviceDataAwake(s, id);
      case EventDisconnect(id) =>
        AllAwakeOthers(s, id);
        DisconnectAwake(s, id);
      case EventPublishWill(client) => PublishWillAwake(s, client);
      case EventConsume => ConsumeAwake(s);
      case _ => BuffersAwake(s, e);
    }
  }

  lemma {:induction false} RunKeepsAwake(c: Config, es: seq<Event>)
    ensures NoneAsleep(Run(InitRouter(c), es))
    decreases |es|
  {
    hide Step, NoneAsleep, Identified, Subscribers, InitRouter;
    if es == [] {
      InitAwake(c);
    } else {
      RunKeepsAwake(c, es[..|es| - 1]);
      RunKeepsIdentity(c, es[..|es| - 1]);
      StepAwake(Run(InitRouter(c), es[..|es| - 1]), es[|es| - 1]);
    }
  }

  lemma InitAwake(c: Config)
    ensures NoneAsleep(InitRouter(c))
  {
  }

  // A connection that is not queued has nothing to do, or waits for its link or for acks.
  ghost predicate WaitsRightly(s: Router, id: ConnectionId) {
    Present(s, id) ==>
      var t := s.scheduler.trackers.m[id];
      t.requests != [] || s.ackslog.m[id].committed != [] ==>
        || id in s.scheduler.readyqueue
        || t.status == Paused(Busy)
        || (t.status == Paused(PauseReason.InflightFull) && |s.obufs.m[id].inflight| == MAX_INFLIGHT)
  }

  lemma AwakeMeans(s: Router, id: ConnectionId)
    requires NoneAsleep(s) && Queued(s.scheduler) && Windows(s.obufs)
    ensures WaitsRightly(s, id)
  {
    hide WindowOk, Outgoing.FreeSlots;
    assert AwakeAt(s, id, false);
    if Present(s, id) {
      WindowsAt(s.obufs, id);
      FullWindow(s.obufs.m[id]);
      match s.scheduler.trackers.m[id].status {
        case Ready =>
        case Paused(Caughtup) =>
        case Paused(InflightFull) =>
        case Paused(Busy) =>
      }
    }
  }

  // In every reachable state, a connection with something left to send is queued, or waits for its
  // link to drain the buffer, or has 100 publishes in flight. What is not tracked is parked, and what
  // is parked has nothing left to read.
  lemma NoLostWakeup(c: Config, es: seq<Event>, id: ConnectionId, i: FilterIdx, w: Waiter)
    requires ConfigOk(c)
    ensures WaitsRightly(Run(InitRouter(c), es), id)
    ensures var s := Run(InitRouter(c), es);
            i < |s.datalog.native| && w in s.datalog.native[i].waiters ==>
              && w.0 in s.scheduler.trackers.m && w.1.filter == s.datalog.native[i].filter
              && (CanRead(s.datalog.config, w.1) ==> w.1.cursor == s.datalog.native[i].log.NextOffset())
  {
    hide Run, InitRouter, DataLogOk, HeldOk, SavedBusy, Log.NextOffset, Log.CursorOk, QueuedOnce, WaitsRightly,
      NoneAsleep, Queued, Windows;
    var s := Run(InitRouter(c), es);
    RunKeepsAwake(c, es);
    RunKeepsQueue(c, es);
    RunKeepsWindows(c, es);
    AwakeMeans(s, id);
    RunKeepsRequests(c, es);
    if i < |s.datalog.native| {
      assert ParkedAt(s.datalog, s.scheduler.trackers.m.Keys, i);
    }
  }

  lemma FullWindow(o: Outgoing)
    requires WindowOk(o)
    ensures o.FreeSlots() == 0 <==> |o.inflight| == MAX_INFLIGHT
  {
  }
}

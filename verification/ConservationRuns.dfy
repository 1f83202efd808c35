// Conservation of requests through every packet, every event and every run.
module ConservationRuns {
  import opened Types
  import opened Slabs
  import opened LogModel
  import opened DataLogModel
  import opened TopicMatch
  import opened OutgoingModel
  import opened SchedulerModel
  import opened RouterModel
  import opened Frames
  import opened Forwarding
  import opened Window
  import opened Identity
  import opened Queue
  import opened Requests
  import opened RequestRuns
  import opened Conservation

  // Nothing is subscribed or unsubscribed, no request comes or goes, none that was woken is tracked.
  ghost predicate Carried(s: Router, t: Router) {
    && SameSubscriptions(s, t) && SameOwned(s, t)
    && forall id, f :: Pending(t.notifications, id, f) >= Pending(s.notifications, id, f)
  }

  // A woken request in excess of the subscription it belongs to.
  ghost predicate Zombie(s: Router, id: ConnectionId, f: Filter) {
    && id in Subs(s).m && Pending(s.notifications, id, f) > 0
    && Owned(s, id, f) > if f in Subs(s).m[id] then 1 else 0
  }

  ghost predicate HasZombie(s: Router, id: ConnectionId) {
    exists f :: Zombie(s, id, f)
  }

  lemma CarriedKeeps(s: Router, t: Router, id: ConnectionId, strays: set<ClientId>)
    requires Carried(s, t)
    ensures Conserved(s, strays) ==> Conserved(t, strays)
    ensures HasZombie(s, id) ==> HasZombie(t, id)
  {
    hide Project, Owned, Pending, Conserved, NamesOf;
    if Conserved(s, strays) {
      SameConserved(s, t, strays);
    }
    if HasZombie(s, id) {
      var f :| Zombie(s, id, f);
      assert Zombie(t, id, f);
    }
  }

  lemma CarriedTrans(s: Router, t: Router, u: Router)
    requires Carried(s, t) && Carried(t, u)
    ensures Carried(s, u)
  {
    hide Project, Owned, Pending, NamesOf;
    forall id, f
      ensures Pending(u.notifications, id, f) >= Pending(s.notifications, id, f) && Owned(u, id, f) == Owned(s, id, f)
    {
      assert Pending(t.notifications, id, f) >= Pending(s.notifications, id, f);
      assert Owned(t, id, f) == Owned(s, id, f);
    }
  }

  // A zombie is exactly what an exact count rules out.
  lemma ZombieNotExact(s: Router, id: ConnectionId, strays: set<ClientId>)
    requires HasZombie(s, id) && ClientOf(s, id) !in strays
    ensures !Conserved(s, strays)
  {
    hide Subs, Owned, Pending, SavedRight, ClientOf;
    var f :| Zombie(s, id, f);
    assert !Right(Owned(s, id, f), f in Subs(s).m[id], true);
  }

  // A client joins the strays unless all went well.
  function Blamed(strays: set<ClientId>, client: ClientId, well: bool): set<ClientId> {
    if well then strays else strays + {client}
  }

  // ---------------------------------------------------------------------------------------------
  // Packets that neither subscribe nor unsubscribe

  lemma OwnedFrame(s: Router, t: Router)
    requires t.scheduler.trackers == s.scheduler.trackers && t.datalog == s.datalog
             && t.notifications == s.notifications
    ensures SameOwned(s, t)
  {
    hide Tracked, Parked, Pending;
  }

  lemma FrameCarried(s: Router, t: Router)
    requires SameSubscriptions(s, t)
    requires t.scheduler.trackers == s.scheduler.trackers && t.datalog == s.datalog
             && t.notifications == s.notifications
    ensures Carried(s, t)
  {
    hide SameSubscriptions, SameOwned, Pending;
    OwnedFrame(s, t);
  }

  lemma RescheduleCarried(s: Router, id: ConnectionId, why: ScheduleReason)
    ensures Carried(s, Reschedule(s, id, why))
  {
    hide SameSubscriptions, SameOwned, Pending, Scheduler.Reschedule;
    RescheduleSame(s, id, why);
    RescheduleOwned(s, id, why);
  }

  lemma AcceptCarried(s: Router, p: Publish)
    requires RequestsOk(s)
    ensures Carried(s, AcceptPublish(s, p))
  {
    hide SameSubscriptions, SameOwned, Accept, RequestsOk, Count;
    AcceptSame(s, p);
    AcceptOwned(s, p);
    forall id, f
      ensures Pending(AcceptPublish(s, p).notifications, id, f) >= Pending(s.notifications, id, f)
    {
      CountConcat(s.notifications, Accept(s.datalog, p).1, OfBoth(id, f));
    }
  }

  lemma AppendCarried(b: Batch, id: ConnectionId, p: Publish, props: Props, report: bool)
    requires Present(b.r, id) && RequestsOk(b.r)
    ensures Carried(b.r, AppendToCommitlog(b, id, p, props, report).r)
  {
    hide Resolve, AcceptPublish, RequestsOk, SameSubscriptions, SameOwned, Pending;
    var c := b.r.connections.m[id];
    var t := Resolve(c.topicAliases, p, props);
    if t.0.Some? {
      var s := b.r.(connections := b.r.connections.Set(id, c.(topicAliases := t.1)));
      SetConnectionSame(b.r, id, c.(topicAliases := t.1));
      FrameCarried(b.r, s);
      RequestsFrame(b.r, s);
      AcceptCarried(s, p.(topic := t.0.value));
      CarriedTrans(b.r, s, AcceptPublish(s, p.(topic := t.0.value)));
    } else {
      ReflSame(b.r);
      FrameCarried(b.r, b.r);
    }
  }

  lemma ReflSame(s: Router)
    ensures SameSubscriptions(s, s)
  {
    hide Project, NamesOf;
  }

  lemma SetAcksCarried(s: Router, id: ConnectionId, a: AckLog)
    requires id in s.ackslog.m
    ensures Carried(s, s.(ackslog := s.ackslog.Set(id, a)))
  {
    hide Carried, SameSubscriptions;
    SetAcksSame(s, id, a);
    FrameCarried(s, s.(ackslog := s.ackslog.Set(id, a)));
  }

  lemma CommitCarried(s: Router, id: ConnectionId, a: Ack)
    requires Present(s, id)
    ensures Carried(s, Commit(s, id, a)) && Present(Commit(s, id, a), id)
    ensures RequestsOk(s) ==> RequestsOk(Commit(s, id, a))
  {
    hide Carried, RequestsOk;
    SetAcksCarried(s, id, s.ackslog.m[id].Commit(a));
    if RequestsOk(s) {
      RequestsFrame(s, Commit(s, id, a));
    }
  }

  lemma HandlePublishCarried(b: Batch, id: ConnectionId, p: Publish, props: Props)
    requires Present(b.r, id) && RequestsOk(b.r)
    ensures Carried(b.r, HandlePublish(b, id, p, props).r)
  {
    hide RequestsOk, AppendToCommitlog, Carried, AckLog.Record, Commit;
    match p.qos {
      case ExactlyOnce => SetAcksCarried(b.r, id, b.r.ackslog.m[id].Record(p, props));
      case AtLeastOnce =>
        var b1 := b.(r := Commit(b.r, id, PubAck(p.pkid)), forceAck := true);
        CommitCarried(b.r, id, PubAck(p.pkid));
        AppendCarried(b1, id, p, props, true);
        CarriedTrans(b.r, b1.r, AppendToCommitlog(b1, id, p, props, true).r);
      case AtMostOnce => AppendCarried(b, id, p, props, true);
    }
  }

  lemma RegisterAckCarried(s: Router, id: ConnectionId, pkid: nat)
    requires Present(s, id)
    ensures Carried(s, RegisterAck(s, id, pkid)) && Present(RegisterAck(s, id, pkid), id)
  {
    hide RegisterAck, Outgoing.RegisterAck, SameSubscriptions, Carried;
    RegisterAckSame(s, id, pkid);
    RegisterAckFrame(s, id, pkid);
    FrameCarried(s, RegisterAck(s, id, pkid));
  }

  lemma HandlePubAckCarried(b: Batch, id: ConnectionId, pkid: nat)
    requires Present(b.r, id)
    ensures Carried(b.r, HandlePubAck(b, id, pkid).r)
  {
    hide RegisterAck, Reschedule, Outgoing.RegisterAck, Carried;
    var s := RegisterAck(b.r, id, pkid);
    RegisterAckCarried(b.r, id, pkid);
    RescheduleCarried(s, id, IncomingAck);
    CarriedTrans(b.r, s, Reschedule(s, id, IncomingAck));
  }

  lemma HandlePubRecCarried(b: Batch, id: ConnectionId, pkid: nat)
    requires Present(b.r, id)
    ensures Carried(b.r, HandlePubRec(b, id, pkid).r)
  {
    hide RegisterAck, Reschedule, Outgoing.RegisterAck, Carried, SameSubscriptions;
    var s := RegisterAck(b.r, id, pkid);
    RegisterAckCarried(b.r, id, pkid);
    var s1 := s.(obufs := s.obufs.Set(id, s.obufs.m[id].RegisterPubRec(pkid)));
    SetObufSame(s, id, s.obufs.m[id].RegisterPubRec(pkid));
    FrameCarried(s, s1);
    CarriedTrans(b.r, s, s1);
    var s2 := Commit(s1, id, PubRel(pkid));
    CommitCarried(s1, id, PubRel(pkid));
    CarriedTrans(b.r, s1, s2);
    RescheduleCarried(s2, id, IncomingAck);
    CarriedTrans(b.r, s2, Reschedule(s2, id, IncomingAck));
  }

  lemma HandlePubRelCarried(b: Batch, id: ConnectionId, pkid: nat)
    requires Present(b.r, id) && RequestsOk(b.r)
    ensures Carried(b.r, HandlePubRel(b, id, pkid).r)
  {
    hide RequestsOk, AppendToCommitlog, Reschedule, Carried, SameSubscriptions;
    var a := b.r.ackslog.m[id].Release(pkid);
    var b1 := b.(r := b.r.(ackslog := b.r.ackslog.Set(id, a.0)));
    SetAcksCarried(b.r, id, a.0);
    RequestsFrame(b.r, b1.r);
    if a.1.Some? {
      var b2 := AppendToCommitlog(b1, id, a.1.value.0, a.1.value.1, false);
      AppendCarried(b1, id, a.1.value.0, a.1.value.1, false);
      CarriedTrans(b.r, b1.r, b2.r);
      RescheduleCarried(b2.r, id, IncomingAck);
      CarriedTrans(b.r, b2.r, Reschedule(b2.r, id, IncomingAck));
    }
  }

  lemma OtherCarried(b: Batch, id: ConnectionId, p: Packet)
    requires Present(b.r, id) && (p.PacketPubComp? || p.PacketPingReq? || p.PacketDisconnect? || p.PacketOther?)
    ensures Carried(b.r, HandlePacket(b, id, p).r)
  {
    hide Carried, SameSubscriptions, Outgoing.RegisterPubComp, SubscribeAll, UnsubscribeAll, HandlePublish,
      HandlePubAck, HandlePubRec, HandlePubRel;
    match p {
      case PacketPubComp(pkid) => HandlePubCompSame(b, id, pkid);
      case PacketPingReq => SetAcksSame(b.r, id, b.r.ackslog.m[id].Commit(PingResp));
      case PacketDisconnect => LastWillsSame(b.r, b.r.lastWills - {b.r.ibufs.m[id].clientId});
      case PacketOther => ReflSame(b.r);
    }
    FrameCarried(b.r, HandlePacket(b, id, p).r);
  }

  lemma HandlePacketCarried(b: Batch, id: ConnectionId, p: Packet)
    requires Present(b.r, id) && RequestsOk(b.r) && !p.PacketSubscribe? && !p.PacketUnsubscribe?
    ensures Carried(b.r, HandlePacket(b, id, p).r)
  {
    hide Carried, RequestsOk, SubscribeAll, UnsubscribeAll, HandlePublish, HandlePubAck, HandlePubRec, HandlePubRel,
      HandlePubComp;
    match p {
      case PacketPublish(publish, props) => HandlePublishCarried(b, id, publish, props);
      case PacketPubAck(pkid) => HandlePubAckCarried(b, id, pkid);
      case PacketPubRec(pkid) => HandlePubRecCarried(b, id, pkid);
      case PacketPubRel(pkid, hasProps) =>
        HandlePubRelCarried(b, id, pkid);
        ReflSame(b.r);
        FrameCarried(b.r, b.r);
      case _ => OtherCarried(b, id, p);
    }
  }

  // ---------------------------------------------------------------------------------------------
  // Subscribe and Unsubscribe

  lemma SubscribeOneZombie(s: Router, id: ConnectionId, path: Filter, qos: QoS)
    requires Present(s, id) && RequestsOk(s) && HasZombie(s, id)
    ensures HasZombie(SubscribeOne(s, id, path, qos), id)
  {
    hide Subs, Owned, Pending, SubscribeOne, RequestsOk;
    var f :| Zombie(s, id, f);
    SubscribeOneSubs(s, id, path, qos);
    SubscribeOneOwned(s, id, path, qos, id, f);
    SubscribeOneFrame(s, id, path, qos);
    assert Zombie(SubscribeOne(s, id, path, qos), id, f);
  }

  lemma {:induction false} SubscribeAllConserved(b: Batch, id: ConnectionId, filters: seq<(Filter, QoS)>,
                                                 subId: Option<nat>, strays: set<ClientId>)
    requires RequestsOk(b.r)
    ensures Conserved(b.r, strays) ==> Conserved(SubscribeAll(b, id, filters, subId).0.r, strays)
    ensures HasZombie(b.r, id) ==> HasZombie(SubscribeAll(b, id, filters, subId).0.r, id)
    decreases |filters|
  {
    hide SubscribeOne, RequestsOk, Conserved, HasZombie;
    if filters != [] && Present(b.r, id) {
      var t := SubscribeOne(b.r, id, filters[0].0, filters[0].1);
      SubscribeOneRequests(b.r, id, filters[0].0, filters[0].1);
      if Conserved(b.r, strays) {
        SubscribeOneConserved(b.r, id, filters[0].0, filters[0].1, strays);
      }
      if HasZombie(b.r, id) {
        SubscribeOneZombie(b.r, id, filters[0].0, filters[0].1);
      }
      SubscribeAllConserved(b.(r := t), id, filters[1..], subId, strays);
    }
  }

  // Whether an Unsubscribe takes effect on a filter.
  predicate Leaves(s: Router, id: ConnectionId, path: Filter) {
    Present(s, id) && path in s.subscriptionMap && id in s.subscriptionMap[path]
      && path in s.connections.m[id].subscriptions
  }

  // Whether it finds the filter's request woken by an earlier packet of the batch.
  ghost predicate Strays(s: Router, id: ConnectionId, path: Filter) {
    Leaves(s, id, path) && Pending(s.notifications, id, path) > 0
  }

  lemma LeaveZombie(s: Router, id: ConnectionId, path: Filter)
    requires Present(s, id) && RequestsOk(s) && (HasZombie(s, id) || Pending(s.notifications, id, path) > 0)
    ensures HasZombie(Leave(s, id, path), id)
  {
    hide Subs, Owned, Parked, Pending, Leave, RequestsOk;
    var f := path;
    if Pending(s.notifications, id, path) == 0 {
      f :| Zombie(s, id, f);
    }
    LeaveSubs(s, id, path);
    LeaveOwned(s, id, path, id, f);
    LeaveFrame(s, id, path);
    assert Zombie(Leave(s, id, path), id, f);
  }

  // The rest of an effective Unsubscribe only touches the subscription map and the acks.
  lemma UnsubscribeOneCarried(b: Batch, id: ConnectionId, pkid: nat, path: Filter)
    requires Present(b.r, id)
    ensures var t, u := UnsubscribeOne(b, id, pkid, path).r, if Leaves(b.r, id, path) then Leave(b.r, id, path)
            else b.r;
            Subs(t) == Subs(u) && SameOwned(u, t) && t.notifications == u.notifications && t.graveyard == u.graveyard
  {
    hide RemoveWaiter, Scheduler.Untrack, Project, SameOwned;
    var t, u := UnsubscribeOne(b, id, pkid, path).r, if Leaves(b.r, id, path) then Leave(b.r, id, path) else b.r;
    OwnedFrame(u, t);
  }

  lemma AlikeConserved(s: Router, t: Router, strays: set<ClientId>, id: ConnectionId)
    requires SameNames(s, t) && Subs(t) == Subs(s) && SameOwned(s, t) && t.notifications == s.notifications
             && t.graveyard == s.graveyard
    ensures Conserved(s, strays) <==> Conserved(t, strays)
    ensures HasZombie(s, id) ==> HasZombie(t, id)
  {
    hide Subs, Owned, Pending, SavedRight, NamesOf;
    if HasZombie(s, id) {
      var f :| Zombie(s, id, f);
      assert Zombie(t, id, f);
    }
  }

  lemma UnsubscribeOneConserved(b: Batch, id: ConnectionId, pkid: nat, path: Filter, strays: set<ClientId>)
    requires Present(b.r, id) && RequestsOk(b.r)
    ensures Conserved(b.r, strays) ==>
              Conserved(UnsubscribeOne(b, id, pkid, path).r, Blamed(strays, ClientOf(b.r, id), !Strays(b.r, id, path)))
    ensures HasZombie(b.r, id) || Strays(b.r, id, path) ==> HasZombie(UnsubscribeOne(b, id, pkid, path).r, id)
  {
    hide RequestsOk, Conserved, UnsubscribeOne, Leave, HasZombie, Subs, SameOwned, Pending, ClientOf, SameNames,
      Subscribers, Project;
    var t, u := UnsubscribeOne(b, id, pkid, path).r, if Leaves(b.r, id, path) then Leave(b.r, id, path) else b.r;
    UnsubscribeOneCarried(b, id, pkid, path);
    UnsubscribeOneNames(b, id, pkid, path);
    AlikeConserved(u, t, Blamed(strays, ClientOf(b.r, id), !Strays(b.r, id, path)), id);
    if Conserved(b.r, strays) && Leaves(b.r, id, path) {
      LeaveConserved(b.r, id, path, strays);
    }
    if (HasZombie(b.r, id) || Strays(b.r, id, path)) && Leaves(b.r, id, path) {
      LeaveZombie(b.r, id, path);
    }
  }

  lemma UnsubscribeOneNames(b: Batch, id: ConnectionId, pkid: nat, path: Filter)
    requires Present(b.r, id)
    ensures SameNames(if Leaves(b.r, id, path) then Leave(b.r, id, path) else b.r, UnsubscribeOne(b, id, pkid, path).r)
  {
    hide NamesOf, Leave, UnsubscribeOne, Subscribers, Project;
    UnsubscribeOneSame(b, id, pkid, path);
    if Leaves(b.r, id, path) {
      LeaveSame(b.r, id, path);
    }
  }

  ghost predicate NoStrayAmong(b: Batch, id: ConnectionId, pkid: nat, paths: seq<Filter>)
    decreases |paths|
  {
    paths == [] || !Present(b.r, id) ||
    (!Strays(b.r, id, paths[0]) && NoStrayAmong(UnsubscribeOne(b, id, pkid, paths[0]), id, pkid, paths[1..]))
  }

  lemma {:induction false} UnsubscribeAllConserved(b: Batch, id: ConnectionId, pkid: nat, paths: seq<Filter>,
                                                   strays: set<ClientId>)
    requires RequestsOk(b.r)
    ensures var t := UnsubscribeAll(b, id, pkid, paths).r;
            && (Conserved(b.r, strays) ==>
                  Conserved(t, Blamed(strays, ClientOf(b.r, id), NoStrayAmong(b, id, pkid, paths))))
            && (HasZombie(b.r, id) || !NoStrayAmong(b, id, pkid, paths) ==> HasZombie(t, id))
    decreases |paths|
  {
    hide UnsubscribeOne, RequestsOk, Conserved, HasZombie, Strays, ClientOf, SameNames, Subscribers;
    if paths != [] && Present(b.r, id) {
      var b' := UnsubscribeOne(b, id, pkid, paths[0]);
      UnsubscribeOneRequests(b, id, pkid, paths[0]);
      UnsubscribeOneConserved(b, id, pkid, paths[0], strays);
      UnsubscribeOneSame(b, id, pkid, paths[0]);
      SameClient(b.r, b'.r, id);
      UnsubscribeAllConserved(b', id, pkid, paths[1..], Blamed(strays, ClientOf(b.r, id), !Strays(b.r, id, paths[0])));
    }
  }

  ghost predicate NoStrayIn(b: Batch, id: ConnectionId, p: Packet) {
    p.PacketUnsubscribe? ==> NoStrayAmong(b, id, p.pkid, p.paths)
  }

  // ---------------------------------------------------------------------------------------------
  // Batches

  lemma HandlePacketConserved(b: Batch, id: ConnectionId, p: Packet, strays: set<ClientId>)
    requires Present(b.r, id) && RequestsOk(b.r)
    ensures var t := HandlePacket(b, id, p).r;
            && (Conserved(b.r, strays) ==> Conserved(t, Blamed(strays, ClientOf(b.r, id), NoStrayIn(b, id, p))))
            && (HasZombie(b.r, id) || !NoStrayIn(b, id, p) ==> HasZombie(t, id))
  {
    hide RequestsOk, Conserved, HasZombie, NoStrayAmong, SubscribeAll, UnsubscribeAll, HandlePacket, SameOwned, Carried,
      ClientOf, NamesOf, Subscribers;
    if p.PacketUnsubscribe? {
      HandleUnsubscribe(b, id, p);
      UnsubscribeAllConserved(b, id, p.pkid, p.paths, strays);
    } else if p.PacketSubscribe? {
      var u := SubscribeAll(b, id, p.filters, p.subscriptionId).0.r;
      SubscribeAllConserved(b, id, p.filters, p.subscriptionId, strays);
      SubscribeAllSame(b, id, p.filters, p.subscriptionId);
      HandlePacketSame(b, id, p);
      HandleSubscribe(b, id, p);
      AlikeConserved(u, HandlePacket(b, id, p).r, strays, id);
    } else {
      HandlePacketCarried(b, id, p);
      CarriedKeeps(b.r, HandlePacket(b, id, p).r, id, strays);
    }
  }

  lemma HandleUnsubscribe(b: Batch, id: ConnectionId, p: Packet)
    requires Present(b.r, id) && p.PacketUnsubscribe?
    ensures HandlePacket(b, id, p) == UnsubscribeAll(b, id, p.pkid, p.paths)
  {
    hide UnsubscribeAll;
  }

  lemma HandleSubscribe(b: Batch, id: ConnectionId, p: Packet)
    requires Present(b.r, id) && p.PacketSubscribe?
    ensures var t, u := HandlePacket(b, id, p).r, SubscribeAll(b, id, p.filters, p.subscriptionId).0.r;
            Subs(t) == Subs(u) && SameOwned(u, t) && t.notifications == u.notifications && t.graveyard == u.graveyard
  {
    hide SubscribeAll, SameOwned, Project;
    OwnedFrame(SubscribeAll(b, id, p.filters, p.subscriptionId).0.r, HandlePacket(b, id, p).r);
  }

  // No packet of the batch unsubscribes from a filter whose request an earlier one has woken.
  ghost predicate NoStray(b: Batch, id: ConnectionId, packets: seq<Packet>)
    decreases |packets|
  {
    packets == [] || b.stop || !Present(b.r, id) ||
    (NoStrayIn(b, id, packets[0]) && NoStray(HandlePacket(b, id, packets[0]), id, packets[1..]))
  }

  lemma {:induction false} HandlePacketsConserved(b: Batch, id: ConnectionId, packets: seq<Packet>,
                                                  strays: set<ClientId>)
    requires RequestsOk(b.r)
    ensures var t := HandlePackets(b, id, packets).r;
            && (Conserved(b.r, strays) ==> Conserved(t, Blamed(strays, ClientOf(b.r, id), NoStray(b, id, packets))))
            && (HasZombie(b.r, id) || !NoStray(b, id, packets) ==> HasZombie(t, id))
    decreases |packets|
  {
    hide HandlePacket, RequestsOk, Conserved, HasZombie, NoStrayIn, ClientOf, SameNames, Subscribers;
    if packets != [] && !b.stop && Present(b.r, id) {
      HandlePacketRequests(b, id, packets[0]);
      HandlePacketConserved(b, id, packets[0], strays);
      HandlePacketSame(b, id, packets[0]);
      SameClient(b.r, HandlePacket(b, id, packets[0]).r, id);
      HandlePacketsConserved(HandlePacket(b, id, packets[0]), id, packets[1..],
                             Blamed(strays, ClientOf(b.r, id), NoStrayIn(b, id, packets[0])));
    }
  }

  // The exact condition: after a batch each subscription owns exactly one request, and nothing else
  // owns any, if and only if no packet of it left a filter whose request it had woken before. Whatever
  // the batch does, the other clients' requests stay exact.
  lemma BatchExact(b: Batch, id: ConnectionId, packets: seq<Packet>, strays: set<ClientId>)
    requires RequestsOk(b.r) && Conserved(b.r, strays)
    ensures ClientOf(b.r, id) !in strays ==>
              (Conserved(HandlePackets(b, id, packets).r, strays) <==> NoStray(b, id, packets))
    ensures Conserved(HandlePackets(b, id, packets).r, strays + {ClientOf(b.r, id)})
  {
    hide HandlePackets, RequestsOk, Conserved, HasZombie, NoStray, ClientOf, SameNames, Subscribers;
    var t := HandlePackets(b, id, packets).r;
    HandlePacketsConserved(b, id, packets, strays);
    HandlePacketsSame(b, id, packets);
    SameClient(b.r, t, id);
    if NoStray(b, id, packets) {
      MoreStrays(t, strays, strays + {ClientOf(b.r, id)});
    } else if ClientOf(b.r, id) !in strays {
      ZombieNotExact(t, id, strays);
    }
  }

  // The smallest batch that does: a client whose request is parked on a filter publishes to that very
  // topic and leaves the filter.
  lemma PublishThenUnsubscribeStrays(b: Batch, id: ConnectionId, p: Publish, pkid: nat)
    requires Present(b.r, id) && RequestsOk(b.r) && !b.stop && p.qos == AtMostOnce && Matches(p.topic, p.topic)
    requires Leaves(b.r, id, p.topic) && Parked(b.r.datalog, id, p.topic) > 0
    ensures !NoStray(b, id, [PacketPublish(p, Props(None, [])), PacketUnsubscribe(pkid, [p.topic])])
  {
    hide RequestsOk, HandlePacket, Parked, Leaves, UnsubscribeOne;
    var publish, unsubscribe := PacketPublish(p, Props(None, [])), PacketUnsubscribe(pkid, [p.topic]);
    var c := HandlePacket(b, id, publish);
    assert [publish, unsubscribe][1..] == [unsubscribe];
    PublishWakesOwn(b, id, p);
    assert Strays(c.r, id, [p.topic][0]);
  }

  lemma PublishWakesOwn(b: Batch, id: ConnectionId, p: Publish)
    requires Present(b.r, id) && RequestsOk(b.r) && !b.stop && p.qos == AtMostOnce && Matches(p.topic, p.topic)
    requires Leaves(b.r, id, p.topic) && Parked(b.r.datalog, id, p.topic) > 0
    ensures var c := HandlePacket(b, id, PacketPublish(p, Props(None, [])));
            !c.stop && Present(c.r, id) && Leaves(c.r, id, p.topic) && Pending(c.r.notifications, id, p.topic) > 0
  {
    hide RequestsOk, Accept, Parked, Count, DataLogOk, ParkedOk, HeldOk;
    var dl := b.r.datalog;
    RequestsLogs(b.r);
    RequestsParked(b.r);
    AcceptCount(dl, b.r.scheduler.trackers.m.Keys, p, id, p.topic);
    AcceptEmpties(dl, p, id);
    CountConcat(b.r.notifications, Accept(dl, p).1, OfBoth(id, p.topic));
  }

  lemma RequestsParked(s: Router)
    requires RequestsOk(s)
    ensures ParkedOk(s.datalog, s.scheduler.trackers.m.Keys)
  {
    hide DataLogOk, HeldOk, ParkedOk;
  }

  lemma AcceptEmpties(dl: DataLog, p: Publish, id: ConnectionId)
    requires DataLogOk(dl) && Matches(p.topic, p.topic)
    ensures Parked(Accept(dl, p).0, id, p.topic) == 0
  {
    hide Accept, Log.Append, Log.Retained, CacheOk, FanOut, Matches;
    AcceptEach(dl, p);
    AcceptFrame(dl, p);
    CountZero<Waiter>([], OfBoth(id, p.topic));
  }

  // A batch without an Unsubscribe after a Publish or a PubRel is such a batch.
  predicate Wakes(p: Packet) {
    p.PacketPublish? || p.PacketPubRel?
  }

  predicate Orderly(packets: seq<Packet>) {
    forall i, j :: 0 <= i < j < |packets| && Wakes(packets[i]) ==> !packets[j].PacketUnsubscribe?
  }

  lemma {:induction false} QuietUnsubscribe(b: Batch, id: ConnectionId, pkid: nat, paths: seq<Filter>)
    requires b.r.notifications == []
    ensures NoStrayAmong(b, id, pkid, paths)
    decreases |paths|
  {
    hide UnsubscribeOne, Leaves;
    if paths != [] && Present(b.r, id) {
      UnsubscribeOneFrame(b, id, pkid, paths[0]);
      QuietUnsubscribe(UnsubscribeOne(b, id, pkid, paths[0]), id, pkid, paths[1..]);
    }
  }

  lemma QuietPacket(b: Batch, id: ConnectionId, p: Packet)
    requires Present(b.r, id) && !Wakes(p)
    ensures HandlePacket(b, id, p).r.notifications == b.r.notifications
  {
    hide SubscribeAll, UnsubscribeAll, HandlePubAck, HandlePubRec;
    match p {
      case PacketSubscribe(pkid, filters, subId) => SubscribeAllFrame(b, id, filters, subId);
      case PacketUnsubscribe(pkid, paths) => UnsubscribeAllFrame(b, id, pkid, paths);
      case PacketPubAck(pkid) => HandleAcksFlagged(b, id, pkid);
      case PacketPubRec(pkid) => HandleAcksFlagged(b, id, pkid);
      case _ =>
    }
  }

  lemma {:induction false} OrderlyHasNoStray(b: Batch, id: ConnectionId, packets: seq<Packet>)
    requires Orderly(packets) && (b.r.notifications == [] || forall p :: p in packets ==> !p.PacketUnsubscribe?)
    ensures NoStray(b, id, packets)
    decreases |packets|
  {
    hide HandlePacket, NoStrayAmong;
    if packets != [] && !b.stop && Present(b.r, id) {
      var p := packets[0];
      if p.PacketUnsubscribe? {
        QuietUnsubscribe(b, id, p.pkid, p.paths);
      }
      if !Wakes(p) {
        QuietPacket(b, id, p);
      }
      OrderlyHasNoStray(HandlePacket(b, id, p), id, packets[1..]);
    }
  }

  // ---------------------------------------------------------------------------------------------
  // Consuming

  lemma ConsumeOneOwned(s: Router, id: ConnectionId)
    requires Present(s, id) && s.scheduler.trackers.m[id].requests != [] && RequestsOk(s)
    ensures SameOwned(s, ConsumeOne(s, id).0)
  {
    hide Owned, ConsumeOne, Present, RequestsOk;
    forall id', f
      ensures Owned(ConsumeOne(s, id).0, id', f) == Owned(s, id', f)
    {
      ConsumeOneCount(s, id, id', f);
    }
  }

  // A sweep moves a request to the back of its tracker or parks it; it never loses or copies one.
  lemma ConsumeOneCount(s: Router, id: ConnectionId, id': ConnectionId, f: Filter)
    requires Present(s, id) && s.scheduler.trackers.m[id].requests != [] && RequestsOk(s)
    ensures Owned(ConsumeOne(s, id).0, id', f) == Owned(s, id', f)
  {
    hide ConsumeOne, ForwardData, Park, Pending, Parked, Tracked, RequestsOk, ReqOk, Readable, SetRequests,
      Scheduler.Pause, LogsOk, CacheOk, FanOut, RegistryOk;
    ConsumeOneShape(s, id);
    var r, rest := s.scheduler.trackers.m[id].requests[0], s.scheduler.trackers.m[id].requests[1..];
    var o := ForwardData(s.datalog, s.obufs.m[id], r);
    TrackedAt(s, id);
    RequestsLogs(s);
    ReadableRequest(s.datalog, r);
    ForwardMovesOk(s.datalog, s.obufs.m[id], r);
    ForwardFilter(s.datalog, s.obufs.m[id], r);
    ParkCount(s.datalog, id, o.1, id', f);
    SetRequestsCount(s, id, r, rest, o.1, id', f);
    var c := SetRequests(s, id, rest + [o.1]).scheduler;
    RescheduleCount(c, id, Init, Busy, id', f);
    RescheduleCount(c, id, Init, PauseReason.InflightFull, id', f);
  }

  lemma SetRequestsCount(s: Router, id: ConnectionId, r: DataRequest, rest: seq<DataRequest>, q: DataRequest,
                         id': ConnectionId, f: Filter)
    requires id in s.scheduler.trackers.m && s.scheduler.trackers.m[id].requests == [r] + rest && q.filter == r.filter
    ensures Tracked(SetRequests(s, id, rest + [q]).scheduler.trackers, id', f) == Tracked(s.scheduler.trackers, id', f)
    ensures Tracked(SetRequests(s, id, rest).scheduler.trackers, id', f) ==
            Tracked(s.scheduler.trackers, id', f) - (if id' == id && f == r.filter then 1 else 0)
  {
    hide Count;
    CountHead(s.scheduler.trackers.m[id].requests, OfFilter(f));
    CountSnoc(rest, q, OfFilter(f));
    assert ([r] + rest)[1..] == rest;
  }

  lemma ForwardFilter(dl: DataLog, o: Outgoing, r: DataRequest)
    ensures ForwardData(dl, o, r).1.filter == r.filter
  {
    hide Pull, Slots, RetainedItems, LogItems, Outgoing.PushForwards;
  }

  lemma {:induction false} ConsumeLoopConserved(s: Router, id: ConnectionId, n: nat, strays: set<ClientId>)
    requires RequestsOk(s) && Windows(s.obufs) && Conserved(s, strays)
    ensures Conserved(ConsumeLoop(s, id, n), strays)
    decreases n
  {
    hide ConsumeOne, Pause, RequestsOk, WindowOk, Windows, Conserved, SameSubscriptions, SameOwned;
    if n > 0 && Present(s, id) {
      if s.scheduler.trackers.m[id].requests == [] {
        PauseConserved(s, id, Caughtup, strays);
      } else {
        WindowsAt(s.obufs, id);
        ConsumeOneRequests(s, id);
        ConsumeOneWindow(s, id);
        ConsumeOneSame(s, id);
        ConsumeOneOwned(s, id);
        SameConserved(s, ConsumeOne(s, id).0, strays);
        if ConsumeOne(s, id).1 {
          ConsumeLoopConserved(ConsumeOne(s, id).0, id, n - 1, strays);
        }
      }
    }
  }

  lemma PauseConserved(s: Router, id: ConnectionId, why: PauseReason, strays: set<ClientId>)
    requires Conserved(s, strays)
    ensures Conserved(Pause(s, id, why), strays)
    ensures Conserved(s.(scheduler := s.scheduler.Rotate()), strays)
  {
    hide Conserved, SameSubscriptions, Tracked, Parked, Pending, Scheduler.Pause, Scheduler.Rotate;
    var t, u := Pause(s, id, why), s.(scheduler := s.scheduler.Rotate());
    forall id', f
      ensures Owned(t, id', f) == Owned(s, id', f) && Owned(u, id', f) == Owned(s, id', f)
    {
      RescheduleCount(s.scheduler, id, Init, why, id', f);
    }
    PauseSame(s, id, why);
    SameConserved(s, t, strays);
    RotateSame(s);
    SameConserved(s, u, strays);
  }

  lemma ConsumeConserved(s: Router, strays: set<ClientId>)
    requires RequestsOk(s) && Windows(s.obufs) && Conserved(s, strays)
    ensures Conserved(Consume(s).0, strays)
  {
    hide RequestsOk, ConsumeLoop, SendAcks, Windows, Conserved, Scheduler.Rotate;
    if s.scheduler.readyqueue != [] {
      var id := s.scheduler.readyqueue[0];
      var s1 := s.(scheduler := s.scheduler.Rotate());
      RotateFrame(s);
      RequestsFrame(s, s1);
      PauseConserved(s, id, Busy, strays);
      if Present(s1, id) {
        SendAcksRequests(s1, id);
        SendAcksConserved(s1, id, strays);
        ConsumeLoopConserved(SendAcks(s1, id), id, MAX_SCHEDULE_ITERATIONS, strays);
      }
    }
  }

  lemma RotateFrame(s: Router)
    ensures s.scheduler.Rotate().trackers == s.scheduler.trackers
  {
  }

  lemma SendAcksConserved(s: Router, id: ConnectionId, strays: set<ClientId>)
    requires Present(s, id) && Conserved(s, strays)
    ensures Conserved(SendAcks(s, id), strays)
  {
    hide Conserved, SameSubscriptions, SameOwned, DeviceAcks;
    SendAcksSame(s, id);
    OwnedFrame(s, SendAcks(s, id));
    SameConserved(s, SendAcks(s, id), strays);
  }

  // ---------------------------------------------------------------------------------------------
  // Coming and going

  lemma RewindCount(rs: seq<DataRequest>, m: map<FilterIdx, Cursor>, f: Filter)
    ensures Count(RewindAll(rs, m), OfFilter(f)) == Count(rs, OfFilter(f))
  {
    if rs == [] {
      assert RewindAll(rs, m) == rs;
    } else {
      RewindCount(rs[..|rs| - 1], m, f);
      assert RewindAll(rs, m)[..|rs| - 1] == RewindAll(rs[..|rs| - 1], m);
    }
  }

  // The session of a dropped connection holds every request the connection owned, once.
  lemma SavedOwned(s: Router, id: ConnectionId, f: Filter)
    requires Present(s, id) && RequestsOk(s) && s.notifications == []
    ensures Count(RewindAll(s.scheduler.trackers.m[id].requests + Clean(s.datalog, id).1,
                            Retransmissions(s.obufs.m[id].inflight)), OfFilter(f))
            == Owned(s, id, f)
  {
    hide Count, Parked, RewindAll, Clean, Retransmissions, HeldOk, ParkedOk, LogsOk, CacheOk, FanOut, RegistryOk;
    var rs := s.scheduler.trackers.m[id].requests;
    RewindCount(rs + Clean(s.datalog, id).1, Retransmissions(s.obufs.m[id].inflight), f);
    CountConcat(rs, Clean(s.datalog, id).1, OfFilter(f));
    CleanOwned(s.datalog, s.scheduler.trackers.m.Keys, id, id, f);
    CountZero<Waiter>([], OfBoth(id, f));
  }

  lemma OthersOwned(s: Router, id: ConnectionId, id': ConnectionId, f: Filter)
    requires Present(s, id) && RequestsOk(s) && s.notifications == [] && id' != id
    ensures Owned(Disconnect(s, id), id', f) == Owned(s, id', f)
  {
    hide Disconnect, Count, Parked, Clean, HeldOk, ParkedOk, LogsOk, CacheOk, FanOut, RegistryOk, SavedBy;
    DisconnectShape(s, id);
    CleanOwned(s.datalog, s.scheduler.trackers.m.Keys, id, id', f);
  }

  lemma DisconnectSubs(s: Router, id: ConnectionId)
    requires Present(s, id)
    ensures id in Subs(s).m && Subs(s).m[id] == s.connections.m[id].subscriptions
    ensures Subs(Disconnect(s, id)) == Subs(s).Remove(id)
  {
    hide Project, Clean, RewindAll, Retransmissions, ForgetAccounts, Unsubscribed;
    ProjectAt(s.connections, SubscriptionsOf);
    ProjectRemove(s.connections, id, SubscriptionsOf);
  }

  lemma DisconnectNames(s: Router, id: ConnectionId)
    requires Present(s, id) && Identified(s)
    ensures s.scheduler.trackers.m[id].id == ClientOf(s, id)
    ensures forall id' :: id' != id ==> ClientOf(Disconnect(s, id), id') == ClientOf(s, id')
  {
    hide Clean, RewindAll, Retransmissions, ForgetAccounts, Unsubscribed, Project, NamesOk;
    TrackerNamed(s, id);
    ProjectRemove(s.connections, id, ConnectionName);
  }

  lemma TrackerNamed(s: Router, id: ConnectionId)
    requires Present(s, id) && Identified(s)
    ensures s.scheduler.trackers.m[id].id == ClientOf(s, id)
  {
    hide Project, InLockstep;
    ProjectAt(s.connections, ConnectionName);
    ProjectAt(s.scheduler.trackers, TrackerName);
  }

  lemma DisconnectConserved(s: Router, id: ConnectionId, strays: set<ClientId>)
    requires Identified(s) && RequestsOk(s) && s.notifications == [] && Conserved(s, strays)
    ensures Conserved(Disconnect(s, id), strays)
  {
    hide Subs, Owned, Disconnect, RequestsOk, Count, RewindAll, Clean, Retransmissions, Identified, ClientOf;
    if Present(s, id) {
      DisconnectSubs(s, id);
      DisconnectShape(s, id);
      DisconnectNames(s, id);
      var t := Disconnect(s, id);
      forall id', f | id' in Subs(t).m
        ensures Right(Owned(t, id', f), f in Subs(t).m[id'], ClientOf(t, id') !in strays)
      {
        OthersOwned(s, id, id', f);
      }
      SavedByRight(s, id, strays);
      SavedAdd(s.graveyard, s.scheduler.trackers.m[id].id, SavedBy(s, id), strays);
    } else {
      AbsentStays(s, id);
    }
  }

  ghost predicate SessionRight(saved: Option<Session>, exact: bool) {
    saved.Some? ==> forall f :: Right(Count(saved.value.tracker.requests, OfFilter(f)), f in saved.value.subscriptions,
                                      exact)
  }

  lemma SavedByRight(s: Router, id: ConnectionId, strays: set<ClientId>)
    requires Present(s, id) && RequestsOk(s) && s.notifications == [] && Conserved(s, strays)
    ensures SessionRight(SavedBy(s, id), ClientOf(s, id) !in strays)
  {
    hide Subs, Owned, RequestsOk, Count, RewindAll, Clean, Retransmissions, ClientOf;
    DisconnectSubs(s, id);
    if SavedBy(s, id).Some? {
      forall f
        ensures Right(Count(SavedBy(s, id).value.tracker.requests, OfFilter(f)),
                      f in SavedBy(s, id).value.subscriptions, ClientOf(s, id) !in strays)
      {
        SavedOwned(s, id, f);
        assert Right(Owned(s, id, f), f in Subs(s).m[id], ClientOf(s, id) !in strays);
      }
    }
  }

  lemma SavedAdd(g: map<ClientId, Option<Session>>, c: ClientId, saved: Option<Session>, strays: set<ClientId>)
    requires SavedRight(g, strays) && SessionRight(saved, c !in strays)
    ensures SavedRight(g[c := saved], strays)
  {
    hide Count;
  }

  lemma AdmittedOwned(s: Router, client: ClientId, clean: bool, will: Option<Publish>, id: ConnectionId, f: Filter)
    requires Identified(s) && RequestsOk(s) && s.notifications == []
    ensures var t, saved := Admitted(s, client, clean, will), SavedSession(s, client);
            Owned(t, id, f) ==
            if id == s.connections.NextKey() then
              (if !clean && saved.Some? then Count(saved.value.tracker.requests, OfFilter(f)) else 0)
            else Owned(s, id, f)
  {
    hide Count, PubRels, ForgetAccounts, NamesOf, NamesOk, HeldOk, ParkedOk, LogsOk, CacheOk, FanOut, RegistryOk;
    AdmitKeysAgree(s);
    IdentifiedPresent(s);
    CountZero<Waiter>([], OfBoth(id, f));
    CountZero<DataRequest>([], OfFilter(f));
    NewIdParksNothing(s.datalog, s.scheduler.trackers.m.Keys, s.connections.NextKey(), f);
  }

  lemma NewIdParksNothing(dl: DataLog, live: set<ConnectionId>, id: ConnectionId, f: Filter)
    requires ParkedOk(dl, live) && id !in live
    ensures Parked(dl, id, f) == 0
  {
    hide Count, Log.CursorOk, Log.NextOffset;
    if f in dl.filterIndexes && dl.filterIndexes[f] < |dl.native| {
      assert ParkedAt(dl, live, dl.filterIndexes[f]);
      CountZero(dl.native[dl.filterIndexes[f]].waiters, OfBoth(id, f));
    }
  }

  lemma AdmittedSubs(s: Router, client: ClientId, clean: bool, will: Option<Publish>)
    ensures var t, saved := Admitted(s, client, clean, will), SavedSession(s, client);
            && Subs(t) == Subs(s).Insert(if !clean && saved.Some? then saved.value.subscriptions else {})
            && Subs(s).NextKey() == s.connections.NextKey()
            && t.graveyard == s.graveyard - {client}
  {
    hide Project, PubRels, ForgetAccounts;
    var saved := SavedSession(s, client);
    ProjectInsert(s.connections,
                  Connection(client, clean, if !clean && saved.Some? then saved.value.subscriptions else {}, map[]),
                      SubscriptionsOf);
  }

  lemma AdmittedNames(s: Router, client: ClientId, clean: bool, will: Option<Publish>, id: ConnectionId)
    ensures ClientOf(Admitted(s, client, clean, will), id) == if id == s.connections.NextKey() then client
            else ClientOf(s, id)
  {
    hide Project, PubRels, ForgetAccounts;
    var saved := SavedSession(s, client);
    ProjectInsert(s.connections,
                  Connection(client, clean, if !clean && saved.Some? then saved.value.subscriptions else {}, map[]),
                      ConnectionName);
  }

  lemma NamedElsewhere(s: Router, client: ClientId)
    requires Identified(s) && client !in s.connectionMap
    ensures forall id :: id in Subs(s).m ==> ClientOf(s, id) != client
  {
    hide InLockstep, Project;
    ProjectAt(s.connections, ConnectionName);
    ProjectAt(s.connections, SubscriptionsOf);
  }

  // A session that begins anew owes nothing to what its client did before.
  function Excused(strays: set<ClientId>, client: ClientId, anew: bool): set<ClientId> {
    if anew then strays - {client} else strays
  }

  predicate FreshSession(s: Router, client: ClientId, clean: bool) {
    clean || SavedSession(s, client).None?
  }

  // A new connection takes over the saved session as it was, or starts with nothing.
  lemma AdmittedConserved(s: Router, client: ClientId, clean: bool, will: Option<Publish>, strays: set<ClientId>)
    requires Identified(s) && RequestsOk(s) && s.notifications == [] && client !in s.connectionMap
             && Conserved(s, strays)
    ensures Conserved(Admitted(s, client, clean, will), Excused(strays, client, FreshSession(s, client, clean)))
  {
    hide Subs, Owned, Admitted, Identified, RequestsOk, Count, ClientOf;
    AdmittedSubs(s, client, clean, will);
    NamedElsewhere(s, client);
    var t, saved, left := Admitted(s, client, clean, will), SavedSession(s, client),
        Excused(strays, client, FreshSession(s, client, clean));
    forall id, f | id in Subs(t).m
      ensures Right(Owned(t, id, f), f in Subs(t).m[id], ClientOf(t, id) !in left)
    {
      AdmittedNames(s, client, clean, will, id);
      AdmittedOwned(s, client, clean, will, id, f);
    }
  }

  // A connect that begins a new session.
  predicate Begins(s: Router, e: Event) {
    Admits(s, e) && FreshSession(Dropped(s, e.client), e.client, e.clean)
  }

  lemma DroppedConserved(s: Router, client: ClientId, strays: set<ClientId>)
    requires Identified(s) && RequestsOk(s) && s.notifications == [] && Conserved(s, strays)
    ensures var d := Dropped(s, client);
            && Identified(d) && RequestsOk(d) && d.notifications == [] && client !in d.connectionMap
            && Conserved(d, strays)
  {
    hide Identified, RequestsOk, Disconnect, Conserved, Subscribers;
    if client in s.connectionMap {
      DisconnectRequests(s, s.connectionMap[client]);
      DisconnectKeeps(s, s.connectionMap[client]);
      DisconnectFreesName(s, client);
      DisconnectConserved(s, s.connectionMap[client], strays);
    }
  }

  lemma ConnectConserved(s: Router, client: ClientId, clean: bool, will: Option<Publish>, strays: set<ClientId>)
    requires Identified(s) && RequestsOk(s) && s.notifications == [] && Conserved(s, strays)
    ensures var e := EventConnect(client, clean, will);
            Conserved(Connect(s, client, clean, will), Excused(strays, client, Begins(s, e)))
  {
    hide Identified, RequestsOk, Admitted, Disconnect, Conserved, Scheduler.Reschedule, FreshSession;
    var d, left := Dropped(s, client), Excused(strays, client, FreshSession(Dropped(s, client), client, clean));
    DroppedConserved(s, client, strays);
    AdmittedConserved(d, client, clean, will, strays);
    RescheduleConserved(Admitted(d, client, clean, will), d.connections.NextKey(), Init, left);
  }

  // ---------------------------------------------------------------------------------------------
  // Runs

  lemma WokenIsLive(s: Router)
    requires RequestsOk(s)
    ensures forall w :: w in s.notifications ==> w.0 in s.scheduler.trackers.m
  {
    hide DataLogOk, TrackedOk, SavedOk, SentOk, ParkedOk, ReqOk;
  }

  lemma WakeAllConserved(s: Router, strays: set<ClientId>)
    requires RequestsOk(s) && Conserved(s, strays)
    ensures Conserved(WakeAll(s), strays)
  {
    hide RequestsOk, WakeAll, Conserved, SameSubscriptions, SameOwned;
    WokenIsLive(s);
    WakeAllSame(s);
    WakeAllOwned(s);
    SameConserved(s, WakeAll(s), strays);
  }

  lemma WokenConserved(b: Batch, id: ConnectionId, strays: set<ClientId>)
    requires RequestsOk(b.r) && Conserved(b.r, strays)
    ensures Conserved(Woken(b, id), strays)
  {
    hide RequestsOk, WakeAll, Scheduler.Reschedule, Conserved;
    RescheduleRequests(b.r, id, FreshData);
    RescheduleConserved(b.r, id, FreshData, strays);
    WakeAllConserved(if b.forceAck then Reschedule(b.r, id, FreshData) else b.r, strays);
  }

  function FirstBatch(s: Router, id: ConnectionId): Batch
    requires Present(s, id)
  {
    Batch(TakePackets(s, id), false, false, false, None, false)
  }

  lemma FirstBatchConserved(s: Router, id: ConnectionId, strays: set<ClientId>)
    requires Present(s, id) && RequestsOk(s)
    ensures RequestsOk(FirstBatch(s, id).r)
    ensures Conserved(s, strays) ==> Conserved(FirstBatch(s, id).r, strays)
  {
    hide RequestsOk, Conserved, SameSubscriptions, SameOwned;
    RequestsFrame(s, FirstBatch(s, id).r);
    SetIbufSame(s, id, s.ibufs.m[id].(buffer := []));
    OwnedFrame(s, FirstBatch(s, id).r);
    if Conserved(s, strays) {
      SameConserved(s, FirstBatch(s, id).r, strays);
    }
  }

  // What keeps an event exact: nothing but a batch can leave a stray request behind.
  ghost predicate NoStrayAt(s: Router, e: Event) {
    e.EventDeviceData? && Present(s, e.id) ==> NoStray(FirstBatch(s, e.id), e.id, s.ibufs.m[e.id].buffer)
  }

  lemma WokenIdentified(s: Router, id: ConnectionId)
    requires Identified(s) && RequestsOk(s) && s.notifications == [] && Present(s, id)
    ensures var b := HandlePackets(FirstBatch(s, id), id, s.ibufs.m[id].buffer);
            Identified(Woken(b, id)) && Woken(b, id).notifications == []
  {
    hide NamesOf, NamesOk, RequestsOk, HandlePackets, WakeAll, Reschedule, Woken, Subscribers;
    var b0 := FirstBatch(s, id);
    var b := HandlePackets(b0, id, s.ibufs.m[id].buffer);
    SetIbufSame(s, id, s.ibufs.m[id].(buffer := []));
    RequestsFrame(s, b0.r);
    HandlePacketsSame(b0, id, s.ibufs.m[id].buffer);
    HandlePacketsRequests(b0, id, s.ibufs.m[id].buffer);
    HandlePacketsFlagged(b0, id, s.ibufs.m[id].buffer);
    WokenSame(b, id);
    WokenRequests(b, id);
  }

  lemma SubscriptionsName(s: Router, t: Router)
    requires SameSubscriptions(s, t)
    ensures SameNames(s, t)
  {
    hide NamesOf, Project;
  }

  lemma DeviceDataConserved(s: Router, id: ConnectionId, strays: set<ClientId>)
    requires Identified(s) && RequestsOk(s) && s.notifications == [] && Conserved(s, strays)
    ensures Conserved(DeviceData(s, id), Blamed(strays, ClientOf(s, id), NoStrayAt(s, EventDeviceData(id))))
  {
    hide RequestsOk, HandlePackets, WakeAll, Reschedule, Disconnect, Conserved, NoStray, ClientOf, NamesOf, NamesOk,
      Subscribers;
    if Present(s, id) {
      SetIbufSame(s, id, s.ibufs.m[id].(buffer := []));
      SameClient(s, FirstBatch(s, id).r, id);
      WokenIdentified(s, id);
      var b0 := FirstBatch(s, id);
      var b := HandlePackets(b0, id, s.ibufs.m[id].buffer);
      var ok := Blamed(strays, ClientOf(s, id), NoStrayAt(s, EventDeviceData(id)));
      FirstBatchConserved(s, id, strays);
      HandlePacketsRequests(b0, id, s.ibufs.m[id].buffer);
      HandlePacketsConserved(b0, id, s.ibufs.m[id].buffer, strays);
      HandlePacketsFlagged(b0, id, s.ibufs.m[id].buffer);
      WokenRequests(b, id);
      WokenConserved(b, id, ok);
      DisconnectConserved(Woken(b, id), id, ok);
    }
  }

  lemma PublishWillConserved(s: Router, client: ClientId, strays: set<ClientId>)
    requires RequestsOk(s) && s.notifications == [] && Conserved(s, strays)
    ensures Conserved(PublishWill(s, client), strays)
  {
    hide RequestsOk, WakeAll, AcceptPublish, Conserved, SameSubscriptions, SameOwned;
    if client in s.lastWills {
      var s1 := s.(lastWills := s.lastWills - {client});
      RequestsFrame(s, s1);
      LastWillsSame(s, s1.lastWills);
      OwnedFrame(s, s1);
      SameConserved(s, s1, strays);
      AcceptPublishRequests(s1, s.lastWills[client]);
      AcceptSame(s1, s.lastWills[client]);
      AcceptOwned(s1, s.lastWills[client]);
      SameConserved(s1, AcceptPublish(s1, s.lastWills[client]), strays);
      WakeAllConserved(AcceptPublish(s1, s.lastWills[client]), strays);
    }
  }

  lemma BuffersConserved(s: Router, e: Event, strays: set<ClientId>)
    requires (e.EventArrive? || e.EventExchange?) && Conserved(s, strays)
    ensures Conserved(Step(s, e), strays)
  {
    hide Conserved, SameSubscriptions, SameOwned;
    if e.EventArrive? && e.id in s.ibufs.m {
      SetIbufSame(s, e.id, s.ibufs.m[e.id].(buffer := s.ibufs.m[e.id].buffer + [e.packet]));
    } else if e.EventExchange? && e.id in s.obufs.m && s.obufs.m[e.id].tokens > 0 {
      SetObufSame(s, e.id, s.obufs.m[e.id].(buffer := [], tokens := s.obufs.m[e.id].tokens - 1));
    } else {
      ReflSame(s);
    }
    OwnedFrame(s, Step(s, e));
    SameConserved(s, Step(s, e), strays);
  }

  // Whose session holds a stray request after an event.
  ghost function StraysAfter(s: Router, e: Event, strays: set<ClientId>): set<ClientId> {
    match e
    case EventDeviceData(id) => Blamed(strays, ClientOf(s, id), NoStrayAt(s, e))
    case EventConnect(client, _, _) => Excused(strays, client, Begins(s, e))
    case _ => strays
  }

  lemma StepConserved(s: Router, e: Event, strays: set<ClientId>)
    requires Identified(s) && Windows(s.obufs) && RequestsOk(s) && s.notifications == [] && Conserved(s, strays)
    ensures Conserved(Step(s, e), StraysAfter(s, e, strays))
  {
    hide RequestsOk, Connect, DeviceData, Disconnect, PublishWill, Consume, Identified, Windows, Scheduler.Reschedule,
      Conserved, NoStray, ClientOf, Begins;
    match e {
      case EventConnect(client, clean, will) => ConnectConserved(s, client, clean, will, strays);
      case EventDeviceData(id) => DeviceDataConserved(s, id, strays);
      case EventDisconnect(id) => DisconnectConserved(s, id, strays);
      case EventPublishWill(client) => PublishWillConserved(s, client, strays);
      case EventConsume => ConsumeConserved(s, strays);
      case EventReady(id) => RescheduleConserved(s, id, LinkReady, strays);
      case _ => BuffersConserved(s, e, strays);
    }
  }

  // The clients that at some point of a run left a filter in the batch that woke its request, and have
  // not begun a new session since.
  ghost function StrayClients(s: Router, es: seq<Event>): set<ClientId>
    decreases |es|
  {
    if es == [] then {}
    else StraysAfter(Run(s, es[..|es| - 1]), es[|es| - 1], StrayClients(s, es[..|es| - 1]))
  }

  // In every reachable state every subscription owns at least one request; exactly one, and nothing
  // else owns any, if the client is none of those.
  lemma {:induction false} RunConserves(c: Config, es: seq<Event>)
    requires ConfigOk(c)
    ensures Conserved(Run(InitRouter(c), es), StrayClients(InitRouter(c), es))
    decreases |es|
  {
    hide Step, RequestsOk, Identified, Subscribers, Windows, InitRouter, Conserved, StraysAfter;
    if es == [] {
      InitConserved(c);
    } else {
      var before := es[..|es| - 1];
      RunConserves(c, before);
      RunKeepsRequests(c, before);
      RunKeepsIdentity(c, before);
      RunKeepsWindows(c, before);
      StepConserved(Run(InitRouter(c), before), es[|es| - 1], StrayClients(InitRouter(c), before));
    }
  }

  lemma InitConserved(c: Config)
    ensures Conserved(InitRouter(c), {})
  {
  }

  // Runs in which no batch of a client unsubscribes after a publish or a release.
  ghost predicate OrderlyRun(s: Router, es: seq<Event>, client: ClientId)
    decreases |es|
  {
    es == [] ||
    var t, e := Run(s, es[..|es| - 1]), es[|es| - 1];
    && OrderlyRun(s, es[..|es| - 1], client)
    && (e.EventDeviceData? && Present(t, e.id) && ClientOf(t, e.id) == client ==> Orderly(t.ibufs.m[e.id].buffer))
  }

  lemma {:induction false} OrderlyRunHasNoStrays(c: Config, es: seq<Event>, client: ClientId)
    requires ConfigOk(c) && OrderlyRun(InitRouter(c), es, client)
    ensures client !in StrayClients(InitRouter(c), es)
    decreases |es|
  {
    hide Run, RequestsOk, InitRouter, NoStray, Orderly, ClientOf;
    if es != [] {
      var before, e := es[..|es| - 1], es[|es| - 1];
      OrderlyRunHasNoStrays(c, before, client);
      RunKeepsRequests(c, before);
      var t := Run(InitRouter(c), before);
      if e.EventDeviceData? && Present(t, e.id) && ClientOf(t, e.id) == client {
        OrderlyHasNoStray(FirstBatch(t, e.id), e.id, t.ibufs.m[e.id].buffer);
      }
    }
  }
}

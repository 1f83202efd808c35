// What a subscription starts with, and who may be connected.
module Subscribing {
  import opened Types
  import opened Slabs
  import opened LogModel
  import opened DataLogModel
  import opened OutgoingModel
  import opened SchedulerModel
  import opened RouterModel
  import opened Frames
  import opened Identity
  import opened Queue
  import opened ConservationRuns
  import opened Sessions
  import opened Inputs
  import opened DeliveryRuns

  // A request that is to read the retained store, and then the log of its filter from its present end on.
  ghost predicate StartsAt(dl: DataLog, r: DataRequest, path: Filter, qos: QoS) {
    && r.filter == path && r.qos == qos && r.forwardRetained
    && r.filterIdx < |dl.native| && dl.native[r.filterIdx].filter == path
    && r.cursor.offset == |dl.native[r.filterIdx].log.history| && dl.native[r.filterIdx].log.CursorOk(r.cursor)
  }

  // A new subscription adds one such request to its connection, under the QoS asked for, and queues the
  // connection if it was caught up. Subscribing again changes neither requests nor queue.
  lemma SubscribeStarts(s: Router, id: ConnectionId, path: Filter, qos: QoS)
    requires Present(s, id) && DataLogOk(s.datalog)
    ensures var t, q, q' := SubscribeOne(s, id, path, qos), s.scheduler.trackers.m[id],
            SubscribeOne(s, id, path, qos).scheduler.trackers.m;
            && Present(t, id) && t.connections.m[id].subscriptions == s.connections.m[id].subscriptions + {path}
            && if path in s.connections.m[id].subscriptions then t.scheduler == s.scheduler
               else
                 && |q'[id].requests| == |q.requests| + 1 && q.requests <= q'[id].requests
                 && StartsAt(t.datalog, q'[id].requests[|q.requests|], path, qos)
                 && if q.status == Paused(Caughtup) then
                      q'[id].status == Ready && t.scheduler.readyqueue == s.scheduler.readyqueue + [id]
                    else q'[id].status == q.status && t.scheduler.readyqueue == s.scheduler.readyqueue
  {
    hide SubscribeOne, Register, IndexOf, DataLogOk, StartsAt;
    SubscribeOneParts(s, id, path, qos);
    RegisterKeeps(s.datalog, path);
    RequestStarts(s.datalog, path, qos);
  }

  lemma SubscribeOneParts(s: Router, id: ConnectionId, path: Filter, qos: QoS)
    requires Present(s, id)
    ensures var t, r, c := SubscribeOne(s, id, path, qos), NewRequest(s, path, qos), s.connections.m[id];
            && t.datalog == Register(s.datalog, path) && Present(t, id)
            && t.connections.m[id].subscriptions == c.subscriptions + {path}
            && t.scheduler ==
               (if path in c.subscriptions then s.scheduler else s.scheduler.Track(id, r).Reschedule(id, NewFilter))
  {
    hide Register, IndexOf, AddSubscriber, Log.NextOffset;
    if path in s.connections.m[id].subscriptions {
      assert s.connections.m[id].subscriptions + {path} == s.connections.m[id].subscriptions;
    }
  }

  lemma RequestStarts(dl: DataLog, path: Filter, qos: QoS)
    requires DataLogOk(dl)
    ensures var t, i := Register(dl, path), IndexOf(Register(dl, path), path);
            && i < |t.native|
            && StartsAt(t, DataRequest(path, i, qos, t.native[i].log.NextOffset(), 0, true), path, qos)
  {
    hide Register, IndexOf, FanOut, CacheOk, RegistryOk, Log.SegmentRetained;
    RegisterKeeps(dl, path);
    assert Register(dl, path).native[IndexOf(Register(dl, path), path)].log.Retained();
  }

  // ---------------------------------------------------------------------------------------------
  // Who is connected

  lemma ValidMeans(client: ClientId)
    ensures ValidClientId(client) <==>
              forall i :: 0 <= i < |client| ==>
                client[i] != '+' && client[i] != '$' && client[i] != '#' && client[i] != '/'
  {
    forall i | 0 <= i < |client|
      ensures client[i] in client
    {
    }
  }

  // No more connections than the configuration allows, all of them of clients with a valid id.
  ghost predicate Admissible(c: Config, s: Router) {
    && s.config == c && |s.connections.m| <= c.maxConnections
    && forall client :: client in s.connectionMap ==> ValidClientId(client)
  }

  lemma KeysCount<T>(a: map<nat, T>, b: map<nat, T>)
    requires a.Keys == b.Keys
    ensures |a| == |b|
  {
    assert |a| == |a.Keys| && |b| == |b.Keys|;
  }

  lemma SameAdmissible(c: Config, s: Router, t: Router)
    requires SameNames(s, t) && t.config == s.config && Admissible(c, s)
    ensures Admissible(c, t)
  {
    hide ValidClientId;
    ProjectAt(s.connections, ConnectionName);
    ProjectAt(t.connections, ConnectionName);
    KeysCount(s.connections.m, t.connections.m);
  }

  lemma DisconnectAdmissible(c: Config, s: Router, id: ConnectionId)
    requires Admissible(c, s)
    ensures Admissible(c, Disconnect(s, id))
  {
    hide Clean, RewindAll, Retransmissions, ForgetAccounts, Unsubscribed, ValidClientId;
    if Present(s, id) {
      assert Disconnect(s, id).connections.m.Keys == s.connections.m.Keys - {id};
    }
  }

  lemma ConnectAdmissible(c: Config, s: Router, e: Event)
    requires Identified(s) && e.EventConnect? && Admissible(c, s)
    ensures Admissible(c, Step(s, e))
  {
    hide Identified, Disconnect, Admit, ValidClientId, Subscribers;
    ConnectIsAdmit(s, e.client, e.clean, e.will);
    if e.client in s.connectionMap {
      DisconnectAdmissible(c, s, s.connectionMap[e.client]);
      DisconnectKeeps(s, s.connectionMap[e.client]);
    }
    var d := Dropped(s, e.client);
    if ValidClientId(e.client) && Accepted(s, e.client) {
      AdmitKeysAgree(d);
      AdmitCounts(d, e.client, e.clean, e.will);
    }
  }

  lemma AdmitCounts(s: Router, client: ClientId, clean: bool, will: Option<Publish>)
    requires s.connections.NextKey() !in s.connections.m
    ensures var t := Admit(s, client, clean, will);
            && |t.connections.m| == |s.connections.m| + 1 && t.config == s.config
            && t.connectionMap == s.connectionMap[client := s.connections.NextKey()]
  {
    hide PubRels, ForgetAccounts, Scheduler.Reschedule;
  }

  // ---------------------------------------------------------------------------------------------
  // The configuration stays

  lemma SameConfig(s: Router, t: Router)
    requires NothingNew(s, t)
    ensures t.config == s.config
  {
  }

  lemma PacketConfig(b: Batch, id: ConnectionId, p: Packet)
    requires Present(b.r, id)
    ensures HandlePacket(b, id, p).r.config == b.r.config
  {
    hide AppendToCommitlog, Commit, SubscribeAll, UnsubscribeAll, HandlePubAck, HandlePubRec, HandlePubComp, NothingNew,
      Scheduler.Reschedule, AckLog.Release, AckLog.Record;
    match p {
      case PacketPublish(publish, props) =>
        AppendFrame(b, id, publish, props, true);
        if publish.qos == AtLeastOnce {
          CommitConfig(b.r, id, PubAck(publish.pkid));
          AppendFrame(b.(r := Commit(b.r, id, PubAck(publish.pkid)), forceAck := true), id, publish, props, true);
        }
      case PacketPubRel(pkid, hasProps) =>
        var a := b.r.ackslog.m[id].Release(pkid);
        if a.1.Some? {
          AppendFrame(b.(r := b.r.(ackslog := b.r.ackslog.Set(id, a.0))), id, a.1.value.0, a.1.value.1, false);
        }
      case PacketDisconnect =>
      case _ =>
        OtherBrings(b, id, p);
        SameConfig(b.r, HandlePacket(b, id, p).r);
    }
  }

  lemma CommitConfig(s: Router, id: ConnectionId, a: Ack)
    requires Present(s, id)
    ensures Present(Commit(s, id, a), id) && Commit(s, id, a).config == s.config
  {
  }

  lemma {:induction false} PacketsConfig(b: Batch, id: ConnectionId, packets: seq<Packet>)
    ensures HandlePackets(b, id, packets).r.config == b.r.config
    decreases |packets|
  {
    hide HandlePacket;
    if packets != [] && !b.stop && Present(b.r, id) {
      PacketConfig(b, id, packets[0]);
      PacketsConfig(HandlePacket(b, id, packets[0]), id, packets[1..]);
    }
  }

  lemma StepConfig(s: Router, e: Event)
    requires !e.EventConnect?
    ensures Step(s, e).config == s.config
  {
    hide HandlePackets, Finish, Disconnect, PublishWill, Consume, Scheduler.Reschedule, NothingNew;
    match e {
      case EventDeviceData(id) =>
        if Present(s, id) {
          PacketsConfig(FirstBatch(s, id), id, s.ibufs.m[id].buffer);
          FinishBrings(HandlePackets(FirstBatch(s, id), id, s.ibufs.m[id].buffer), id);
          SameConfig(HandlePackets(FirstBatch(s, id), id, s.ibufs.m[id].buffer).r, Step(s, e));
        }
      case EventDisconnect(id) =>
        DisconnectBrings(s, id);
        SameConfig(s, Step(s, e));
      case EventPublishWill(client) => WillConfig(s, client);
      case EventConsume =>
        ConsumeBrings(s);
        SameConfig(s, Step(s, e));
      case _ =>
    }
  }

  lemma WillConfig(s: Router, client: ClientId)
    ensures PublishWill(s, client).config == s.config
  {
    hide WakeAll, Accept;
    if client in s.lastWills {
      WakeAllFrame(AcceptPublish(s.(lastWills := s.lastWills - {client}), s.lastWills[client]));
    }
  }

  // ---------------------------------------------------------------------------------------------
  // Runs

  lemma DataAdmissible(c: Config, s: Router, id: ConnectionId)
    requires Admissible(c, s)
    ensures Admissible(c, DeviceData(s, id))
  {
    hide HandlePackets, WakeAll, Disconnect, Scheduler.Reschedule, Admissible, SameNames, Subscribers;
    StepConfig(s, EventDeviceData(id));
    if Present(s, id) {
      var b0 := FirstBatch(s, id);
      var b := HandlePackets(b0, id, s.ibufs.m[id].buffer);
      SetIbufSame(s, id, s.ibufs.m[id].(buffer := []));
      HandlePacketsSame(b0, id, s.ibufs.m[id].buffer);
      WokenSame(b, id);
      PacketsConfig(b0, id, s.ibufs.m[id].buffer);
      WokenConfig(b, id);
      SameAdmissible(c, s, b0.r);
      SameAdmissible(c, b0.r, b.r);
      SameAdmissible(c, b.r, Woken(b, id));
      DisconnectAdmissible(c, Woken(b, id), id);
    }
  }

  lemma WokenConfig(b: Batch, id: ConnectionId)
    ensures Woken(b, id).config == b.r.config
  {
    hide WakeAll, Scheduler.Reschedule;
    WakeAllFrame(if b.forceAck then Reschedule(b.r, id, FreshData) else b.r);
  }

  lemma StepAdmissible(c: Config, s: Router, e: Event)
    requires Identified(s) && Admissible(c, s)
    ensures Admissible(c, Step(s, e))
  {
    hide Identified, Connect, DeviceData, Disconnect, PublishWill, Consume, Admissible, SameNames, Scheduler.Reschedule;
    if !e.EventConnect? {
      StepConfig(s, e);
    }
    match e {
      case EventConnect(_, _, _) => ConnectAdmissible(c, s, e);
      case EventDeviceData(id) => DataAdmissible(c, s, id);
      case EventDisconnect(id) => DisconnectAdmissible(c, s, id);
      case EventPublishWill(client) =>
        WillNames(s, client);
        SameAdmissible(c, s, Step(s, e));
      case EventConsume =>
        ConsumeSame(s);
        SameAdmissible(c, s, Step(s, e));
      case EventReady(id) =>
        RescheduleSame(s, id, LinkReady);
        SameAdmissible(c, s, Step(s, e));
      case _ => BufferAdmissible(c, s, e);
    }
  }

  lemma BufferAdmissible(c: Config, s: Router, e: Event)
    requires (e.EventArrive? || e.EventExchange?) && Admissible(c, s)
    ensures Admissible(c, Step(s, e))
  {
  }

  lemma WillNames(s: Router, client: ClientId)
    ensures SameNames(s, PublishWill(s, client))
  {
    hide WakeAll, AcceptPublish, NamesOf;
    if client in s.lastWills {
      var s1 := s.(lastWills := s.lastWills - {client});
      LastWillsSame(s, s1.lastWills);
      AcceptSame(s1, s.lastWills[client]);
      WakeAllSame(AcceptPublish(s1, s.lastWills[client]));
    }
  }

  // In every run no more clients are connected than the configuration allows, and none whose id contains
  // one of + $ # /.
  lemma {:induction false} AdmissibleInEveryRun(c: Config, es: seq<Event>)
    ensures Admissible(c, Run(InitRouter(c), es))
    decreases |es|
  {
    hide Step, Identified, Subscribers, Admissible, InitRouter;
    if es == [] {
      NobodyConnected(c);
    } else {
      AdmissibleInEveryRun(c, es[..|es| - 1]);
      RunKeepsIdentity(c, es[..|es| - 1]);
      StepAdmissible(c, Run(InitRouter(c), es[..|es| - 1]), es[|es| - 1]);
    }
  }

  lemma NobodyConnected(c: Config)
    ensures Admissible(c, InitRouter(c))
  {
  }
}

// Names that start with an ASCII character can always be sliced: a run in which clients use no
// others never panics over a name. And whatever a surviving run has cached can be sliced.
module PlainRuns {
  import opened Types
  import opened Slabs
  import opened TopicMatch
  import opened DataLogModel
  import opened OutgoingModel
  import opened SchedulerModel
  import opened RouterModel
  import opened Frames
  import opened Identity
  import opened Inputs
  import opened RequestRuns
  import opened Slices
  import opened Panics
  import opened Witnesses

  // Filters are sliced only where there are overrides of segment limits to compare them with.
  predicate PlainPacket(c: Config, p: Packet) {
    match p
    case PacketPublish(publish, _) => Sliceable(publish.topic)
    case PacketSubscribe(_, filters, _) => c.customSegments == [] || forall f :: f in filters ==> Sliceable(f.0)
    case _ => true
  }

  predicate PlainEvent(c: Config, e: Event) {
    match e
    case EventConnect(_, _, will) => will.Some? ==> Sliceable(will.value.topic)
    case EventArrive(_, p) => PlainPacket(c, p)
    case _ => true
  }

  // ---------------------------------------------------------------------------------------------
  // Where names are kept

  predicate PlainLogs(dl: DataLog) {
    RetainedSliced(dl.retained) && CacheSliced(dl.publishFilters)
  }

  predicate PlainWills(wills: map<ClientId, Publish>) {
    forall client :: client in wills ==> Sliceable(wills[client].topic)
  }

  predicate PlainAliases(c: Connection) {
    forall a :: a in c.topicAliases ==> Sliceable(c.topicAliases[a])
  }

  predicate PlainRecords(a: AckLog) {
    forall r :: r in a.recorded ==> Sliceable(r.0.topic)
  }

  predicate PlainPackets(c: Config, packets: seq<Packet>) {
    forall p :: p in packets ==> PlainPacket(c, p)
  }

  ghost predicate PlainSlots(c: Config, connections: Slab<Connection>, ibufs: Slab<Incoming>, ackslog: Slab<AckLog>) {
    && (forall id :: id in connections.m ==> PlainAliases(connections.m[id]))
    && (forall id :: id in ibufs.m ==> PlainPackets(c, ibufs.m[id].buffer))
    && (forall id :: id in ackslog.m ==> PlainRecords(ackslog.m[id]))
  }

  ghost predicate Plain(c: Config, s: Router) {
    s.datalog.config == c && PlainLogs(s.datalog) && PlainWills(s.lastWills)
      && PlainSlots(c, s.connections, s.ibufs, s.ackslog)
  }

  lemma NothingNewPlain(c: Config, s: Router, t: Router)
    requires NothingNew(s, t)
    ensures Plain(c, s) ==> Plain(c, t)
    ensures CacheSliced(s.datalog.publishFilters) ==> CacheSliced(t.datalog.publishFilters)
  {
    assert forall k :: k in t.datalog.publishFilters ==> k in s.datalog.publishFilters;
  }

  // ---------------------------------------------------------------------------------------------
  // Publishes

  // A lookup that passes caches only topics that can be sliced.
  lemma AcceptNames(dl: DataLog, p: Publish)
    ensures Accept(dl, p).0.config == dl.config
    ensures LookupSliced(dl, p.topic) && CacheSliced(dl.publishFilters) ==> CacheSliced(Accept(dl, p).0.publishFilters)
    ensures Sliceable(p.topic) && PlainLogs(dl) ==> PlainLogs(Accept(dl, p).0)
  {
    hide AppendAll, Matches, Scan;
    ScanEmpty(dl, p.topic);
    ForgetNames(dl.retained, p.topic);
  }

  lemma ScanEmpty(dl: DataLog, topic: Topic)
    ensures dl.native == [] ==> Scan(dl.native, topic, |dl.native|) == []
  {
  }

  lemma {:induction false} ForgetNames(ps: seq<Publish>, topic: Topic)
    ensures forall p :: p in Forget(ps, topic) ==> p in ps
  {
    if ps != [] {
      ForgetNames(ps[..|ps| - 1], topic);
    }
  }

  lemma AppendNames(c: Config, b: Batch, id: ConnectionId, p: Publish, props: Props, report: bool)
    requires Present(b.r, id)
    ensures AppendSliced(b.r, id, p, props) && CacheSliced(b.r.datalog.publishFilters) ==>
              CacheSliced(AppendToCommitlog(b, id, p, props, report).r.datalog.publishFilters)
    ensures Plain(c, b.r) && Sliceable(p.topic) ==>
              AppendSliced(b.r, id, p, props) && Plain(c, AppendToCommitlog(b, id, p, props, report).r)
  {
    hide AcceptPublish, LookupSliced, Plain, PlainAliases, CacheSliced, Resolve;
    var connection := b.r.connections.m[id];
    var t := Resolve(connection.topicAliases, p, props);
    ResolveNames(connection, p, props);
    AliasNames(c, b.r, id, t.1);
    if t.0.Some? {
      var s := b.r.(connections := b.r.connections.Set(id, connection.(topicAliases := t.1)));
      AcceptPublishNames(c, s, p.(topic := t.0.value));
    }
  }

  lemma AliasNames(c: Config, s: Router, id: ConnectionId, aliases: map<nat, Topic>)
    requires Present(s, id)
    ensures var connection := s.connections.m[id].(topicAliases := aliases);
            Plain(c, s) ==>
              PlainAliases(s.connections.m[id])
              && (PlainAliases(connection) ==> Plain(c, s.(connections := s.connections.Set(id, connection))))
  {
    hide PlainLogs, PlainAliases, PlainWills, PlainPackets, PlainRecords;
  }

  lemma AcceptPublishNames(c: Config, s: Router, p: Publish)
    ensures LookupSliced(s.datalog, p.topic) && CacheSliced(s.datalog.publishFilters) ==>
              CacheSliced(AcceptPublish(s, p).datalog.publishFilters)
    ensures Sliceable(p.topic) ==> LookupSliced(s.datalog, p.topic) && (Plain(c, s) ==> Plain(c, AcceptPublish(s, p)))
  {
    hide Accept, LookupSliced, CacheSliced, PlainLogs, PlainWills, PlainSlots;
    AcceptNames(s.datalog, p);
    PlainLookup(s.datalog, p.topic);
  }

  lemma ResolveNames(c: Connection, p: Publish, props: Props)
    ensures var t := Resolve(c.topicAliases, p, props);
            PlainAliases(c) && Sliceable(p.topic) ==>
              PlainAliases(c.(topicAliases := t.1)) && (t.0.Some? ==> Sliceable(t.0.value))
  {
  }

  lemma PlainLookup(dl: DataLog, topic: Topic)
    ensures Sliceable(topic) ==> LookupSliced(dl, topic)
  {
  }

  // ---------------------------------------------------------------------------------------------
  // Packets

  lemma PublishNames(c: Config, b: Batch, id: ConnectionId, p: Publish, props: Props)
    requires Present(b.r, id)
    ensures PacketSliced(b, id, PacketPublish(p, props)) && CacheSliced(b.r.datalog.publishFilters) ==>
              CacheSliced(HandlePublish(b, id, p, props).r.datalog.publishFilters)
    ensures Plain(c, b.r) && Sliceable(p.topic) ==>
              PacketSliced(b, id, PacketPublish(p, props)) && Plain(c, HandlePublish(b, id, p, props).r)
  {
    hide AppendToCommitlog, CacheSliced, Plain, NothingNew, Commit, AckLog.Record, AppendSliced, LookupSliced, Resolve;
    match p.qos {
      case AtMostOnce => AppendNames(c, b, id, p, props, true);
      case AtLeastOnce =>
        CommittedAppend(b.r, id, p, props);
        CommitBrings(b.r, id, PubAck(p.pkid));
        NothingNewPlain(c, b.r, Commit(b.r, id, PubAck(p.pkid)));
        AppendNames(c, b.(r := Commit(b.r, id, PubAck(p.pkid)), forceAck := true), id, p, props, true);
      case ExactlyOnce => RecordNames(c, b.r, id, p, props);
    }
  }

  lemma CommittedAppend(s: Router, id: ConnectionId, p: Publish, props: Props)
    requires Present(s, id)
    ensures Present(Commit(s, id, PubAck(p.pkid)), id)
    ensures AppendSliced(Commit(s, id, PubAck(p.pkid)), id, p, props) == AppendSliced(s, id, p, props)
    ensures Commit(s, id, PubAck(p.pkid)).datalog == s.datalog
  {
    hide Resolve, LookupSliced;
  }

  lemma RecordNames(c: Config, s: Router, id: ConnectionId, p: Publish, props: Props)
    requires Present(s, id)
    ensures Plain(c, s) && Sliceable(p.topic) ==>
              Plain(c, s.(ackslog := s.ackslog.Set(id, s.ackslog.m[id].Record(p, props))))
  {
    hide PlainLogs, PlainWills, PlainAliases, PlainPackets;
  }

  lemma PubRelNames(c: Config, b: Batch, id: ConnectionId, pkid: nat)
    requires Present(b.r, id)
    ensures PacketSliced(b, id, PacketPubRel(pkid, false)) && CacheSliced(b.r.datalog.publishFilters) ==>
              CacheSliced(HandlePubRel(b, id, pkid).r.datalog.publishFilters)
    ensures Plain(c, b.r) ==> PacketSliced(b, id, PacketPubRel(pkid, false)) && Plain(c, HandlePubRel(b, id, pkid).r)
  {
    hide AppendToCommitlog, CacheSliced, PlainLogs, PlainWills, PlainAliases, PlainPackets, LookupSliced, Resolve,
      Scheduler.Reschedule, NothingNew;
    var a := b.r.ackslog.m[id].Release(pkid);
    var b1 := b.(r := b.r.(ackslog := b.r.ackslog.Set(id, a.0)));
    if a.1.Some? {
      var rec := a.1.value;
      AppendNames(c, b1, id, rec.0, rec.1, false);
      var b2 := AppendToCommitlog(b1, id, rec.0, rec.1, false);
      RescheduleBrings(b2.r, id, IncomingAck);
      NothingNewPlain(c, b2.r, Reschedule(b2.r, id, IncomingAck));
    }
  }

  lemma ForgottenWill(c: Config, s: Router, id: ConnectionId)
    requires Present(s, id)
    ensures var t := s.(lastWills := s.lastWills - {s.ibufs.m[id].clientId});
            t.datalog == s.datalog && (Plain(c, s) ==> Plain(c, t))
  {
    hide PlainLogs, PlainSlots;
  }

  lemma {:induction false} PlainSubscribe(c: Config, b: Batch, id: ConnectionId, filters: seq<(Filter, QoS)>,
                                          subId: Option<nat>)
    requires Plain(c, b.r) && PlainPacket(c, PacketSubscribe(0, filters, subId))
    ensures SubscribeSliced(b, id, filters, subId)
    decreases |filters|
  {
    hide SubscribeOne, NothingNew, PlainSlots, PlainWills;
    if filters != [] && Present(b.r, id) {
      assert filters[0] in filters;
      var t := SubscribeOne(b.r, id, filters[0].0, filters[0].1);
      SubscribeOneBrings(b.r, id, filters[0].0, filters[0].1);
      NothingNewPlain(c, b.r, t);
      PlainSubscribe(c, b.(r := t), id, filters[1..], subId);
    }
  }

  lemma PacketNames(c: Config, b: Batch, id: ConnectionId, p: Packet)
    requires Present(b.r, id)
    ensures PacketSliced(b, id, p) && CacheSliced(b.r.datalog.publishFilters) ==>
              CacheSliced(HandlePacket(b, id, p).r.datalog.publishFilters)
    ensures Plain(c, b.r) && PlainPacket(c, p) ==> PacketSliced(b, id, p) && Plain(c, HandlePacket(b, id, p).r)
  {
    hide NothingNew, CacheSliced, Plain, HandlePublish, HandlePubRel, SubscribeAll, UnsubscribeAll, SubscribeSliced,
      AppendSliced;
    match p {
      case PacketPublish(publish, props) => PublishNames(c, b, id, publish, props);
      case PacketPubRel(pkid, hasProps) => PubRelNames(c, b, id, pkid);
      case PacketDisconnect => ForgottenWill(c, b.r, id);
      case _ =>
        OtherBrings(b, id, p);
        NothingNewPlain(c, b.r, HandlePacket(b, id, p).r);
    }
    if p.PacketSubscribe? && Plain(c, b.r) && PlainPacket(c, p) {
      PlainSubscribe(c, b, id, p.filters, p.subscriptionId);
    }
  }

  lemma {:induction false} PacketsNames(c: Config, b: Batch, id: ConnectionId, packets: seq<Packet>)
    ensures PacketsSliced(b, id, packets) && CacheSliced(b.r.datalog.publishFilters) ==>
              CacheSliced(HandlePackets(b, id, packets).r.datalog.publishFilters)
    ensures Plain(c, b.r) && PlainPackets(c, packets) ==>
              PacketsSliced(b, id, packets) && Plain(c, HandlePackets(b, id, packets).r)
    decreases |packets|
  {
    hide HandlePacket, PacketSliced, Plain, CacheSliced, PlainPacket;
    if packets != [] && !b.stop && Present(b.r, id) {
      assert packets[0] in packets;
      PacketNames(c, b, id, packets[0]);
      PacketsNames(c, HandlePacket(b, id, packets[0]), id, packets[1..]);
    }
  }

  // ---------------------------------------------------------------------------------------------
  // Events

  lemma DeviceDataNames(c: Config, s: Router, id: ConnectionId)
    ensures DeviceDataSliced(s, id) && CacheSliced(s.datalog.publishFilters) ==>
              CacheSliced(DeviceData(s, id).datalog.publishFilters)
    ensures Plain(c, s) ==> DeviceDataSliced(s, id) && Plain(c, DeviceData(s, id))
  {
    hide HandlePackets, PacketsSliced, CacheSliced, Finish, NothingNew, Plain;
    if Present(s, id) {
      var b := Batch(TakePackets(s, id), false, false, false, None, false);
      TakeNames(c, s, id);
      PacketsNames(c, b, id, s.ibufs.m[id].buffer);
      FinishBrings(HandlePackets(b, id, s.ibufs.m[id].buffer), id);
      NothingNewPlain(c, HandlePackets(b, id, s.ibufs.m[id].buffer).r, DeviceData(s, id));
    }
  }

  lemma TakeNames(c: Config, s: Router, id: ConnectionId)
    requires Present(s, id)
    ensures TakePackets(s, id).datalog == s.datalog
    ensures Plain(c, s) ==> Plain(c, TakePackets(s, id)) && PlainPackets(c, s.ibufs.m[id].buffer)
  {
    hide PlainLogs, PlainWills, PlainAliases, PlainRecords, PlainPacket;
  }

  lemma ConnectNames(c: Config, s: Router, client: ClientId, clean: bool, will: Option<Publish>)
    ensures CacheSliced(s.datalog.publishFilters) ==>
              CacheSliced(Connect(s, client, clean, will).datalog.publishFilters)
    ensures Plain(c, s) && (will.Some? ==> Sliceable(will.value.topic)) ==> Plain(c, Connect(s, client, clean, will))
  {
    hide Disconnect, Admit, NothingNew, Plain, CacheSliced;
    if client in s.connectionMap {
      DisconnectBrings(s, s.connectionMap[client]);
      NothingNewPlain(c, s, Disconnect(s, s.connectionMap[client]));
    }
    AdmitPlain(c, if client in s.connectionMap then Disconnect(s, s.connectionMap[client]) else s, client, clean, will);
  }

  lemma AdmitPlain(c: Config, s: Router, client: ClientId, clean: bool, will: Option<Publish>)
    ensures Admit(s, client, clean, will).datalog == s.datalog
    ensures Plain(c, s) && (will.Some? ==> Sliceable(will.value.topic)) ==> Plain(c, Admit(s, client, clean, will))
  {
    hide PlainLogs, PlainAliases, PlainRecords, PlainPackets, PubRels, ForgetAccounts, Scheduler.Reschedule;
    FreshNames(c);
  }

  lemma FreshNames(c: Config)
    ensures PlainPackets(c, [])
    ensures forall client, clean, subscriptions :: PlainAliases(Connection(client, clean, subscriptions, map[]))
    ensures forall acks :: PlainRecords(AckLog(acks, []))
  {
  }

  lemma WillNames(c: Config, s: Router, client: ClientId)
    ensures WillSliced(s, client) && CacheSliced(s.datalog.publishFilters) ==>
              CacheSliced(PublishWill(s, client).datalog.publishFilters)
    ensures Plain(c, s) ==> WillSliced(s, client) && Plain(c, PublishWill(s, client))
  {
    hide AcceptPublish, WakeAll, NothingNew, CacheSliced, PlainLogs, LookupSliced, PlainSlots;
    if client in s.lastWills {
      var s1, p := s.(lastWills := s.lastWills - {client}), s.lastWills[client];
      AcceptPublishNames(c, s1, p);
      WakeAllBrings(AcceptPublish(s1, p));
      NothingNewPlain(c, AcceptPublish(s1, p), PublishWill(s, client));
    }
  }

  lemma ArriveNames(c: Config, s: Router, id: ConnectionId, p: Packet)
    ensures Plain(c, s) && PlainPacket(c, p) ==> Plain(c, Arrive(s, id, p))
  {
    hide PlainLogs, PlainWills, PlainAliases, PlainRecords, PlainPacket;
  }

  lemma {:induction false} PlainSweeps(s: Router, id: ConnectionId, n: nat)
    requires PlainLogs(s.datalog)
    ensures LoopSliced(s, id, n)
    decreases n
  {
    hide ConsumeOne, NothingNew;
    if n > 0 && Present(s, id) && s.scheduler.trackers.m[id].requests != [] {
      ConsumeOneBrings(s, id);
      LogsNames(s, ConsumeOne(s, id).0);
      PlainSweeps(ConsumeOne(s, id).0, id, n - 1);
    }
  }

  lemma LogsNames(s: Router, t: Router)
    requires NothingNew(s, t) && PlainLogs(s.datalog)
    ensures PlainLogs(t.datalog)
  {
    assert forall k :: k in t.datalog.publishFilters ==> k in s.datalog.publishFilters;
  }

  lemma PlainTurn(c: Config, s: Router)
    requires Plain(c, s)
    ensures ConsumeSliced(s)
  {
    hide LoopSliced, NothingNew, SendAcks, Scheduler.Rotate, PlainLogs;
    if s.scheduler.readyqueue != [] {
      var id, s1 := s.scheduler.readyqueue[0], s.(scheduler := s.scheduler.Rotate());
      if Present(s1, id) {
        SendAcksBrings(s1, id);
        LogsNames(s1, SendAcks(s1, id));
        PlainSweeps(SendAcks(s1, id), id, MAX_SCHEDULE_ITERATIONS);
      }
    }
  }

  lemma StepNames(c: Config, s: Router, e: Event)
    ensures Sliced(s, e) && CacheSliced(s.datalog.publishFilters) ==> CacheSliced(Step(s, e).datalog.publishFilters)
    ensures Plain(c, s) && PlainEvent(c, e) ==> Sliced(s, e) && Plain(c, Step(s, e))
  {
    hide Plain, PlainPacket, NothingNew, CacheSliced, Connect, DeviceData, Disconnect, Consume, PublishWill, Arrive,
      DeviceDataSliced, WillSliced, ConsumeSliced, Scheduler.Reschedule;
    match e {
      case EventConnect(client, clean, will) => ConnectNames(c, s, client, clean, will);
      case EventDeviceData(id) => DeviceDataNames(c, s, id);
      case EventPublishWill(client) => WillNames(c, s, client);
      case EventArrive(id, p) =>
        ArriveNames(c, s, id, p);
        ArriveLogs(s, id, p);
      case EventDisconnect(id) =>
        DisconnectBrings(s, id);
        NothingNewPlain(c, s, Step(s, e));
      case EventReady(id) =>
        RescheduleBrings(s, id, LinkReady);
        NothingNewPlain(c, s, Step(s, e));
      case EventExchange(id) =>
        ExchangeBrings(s, id);
        NothingNewPlain(c, s, Step(s, e));
      case EventConsume =>
        ConsumeBrings(s);
        NothingNewPlain(c, s, Step(s, e));
        if Plain(c, s) {
          PlainTurn(c, s);
        }
    }
  }

  lemma ArriveLogs(s: Router, id: ConnectionId, p: Packet)
    ensures Arrive(s, id, p).datalog == s.datalog
  {
  }

  // ---------------------------------------------------------------------------------------------
  // Runs

  // Whatever a run has cached can be sliced if all that it compared could be.
  lemma {:induction false} CachedTopicsAreSliceable(c: Config, es: seq<Event>)
    requires AllSliced(InitRouter(c), es)
    ensures CacheSliced(Run(InitRouter(c), es).datalog.publishFilters)
    decreases |es|
  {
    hide Step, Sliced, CacheSliced;
    if es == [] {
      InitPlain(c);
    } else {
      CachedTopicsAreSliceable(c, es[..|es| - 1]);
      StepNames(c, Run(InitRouter(c), es[..|es| - 1]), es[|es| - 1]);
    }
  }

  lemma InitPlain(c: Config)
    ensures Plain(c, InitRouter(c)) && CacheSliced(InitRouter(c).datalog.publishFilters)
  {
  }

  lemma {:induction false} PlainRunIsSliced(c: Config, es: seq<Event>)
    requires forall e :: e in es ==> PlainEvent(c, e)
    ensures AllSliced(InitRouter(c), es) && Plain(c, Run(InitRouter(c), es))
    decreases |es|
  {
    hide Step, Sliced, Plain, PlainEvent;
    InitPlain(c);
    if es != [] {
      var before := es[..|es| - 1];
      assert es[|es| - 1] in es;
      PlainRunIsSliced(c, before);
      StepNames(c, Run(InitRouter(c), before), es[|es| - 1]);
    }
  }

  // If clients use no name that starts with a longer character, only a Ready event for a connection
  // that is gone can end the thread.
  lemma PlainRunsSurvive(c: Config, es: seq<Event>)
    requires ConfigOk(c) && forall e :: e in es ==> PlainEvent(c, e)
    ensures Lives(InitRouter(c), es) == if NoDeadCall(InitRouter(c), es) then Alive(Run(InitRouter(c), es))
            else Panicked
  {
    PlainRunIsSliced(c, es);
    SurvivesIff(c, es);
  }

  // ---------------------------------------------------------------------------------------------
  // The publish that ends the thread

  function PublishOf(id: ConnectionId, p: Publish): seq<Event> {
    [EventArrive(id, PacketPublish(p, Props(None, []))), EventDeviceData(id)]
  }

  // In any run, with any filter registered, the first publish to a name that cannot be sliced.
  lemma UnsliceablePublishPanics(c: Config, es: seq<Event>, id: ConnectionId, p: Publish)
    requires ConfigOk(c) && p.qos != ExactlyOnce && !Sliceable(p.topic)
    requires var s := Run(InitRouter(c), es); Present(s, id) && s.ibufs.m[id].buffer == [] && s.datalog.native != []
    ensures Lives(InitRouter(c), es + PublishOf(id, p)) == Panicked
  {
    hide Run, Lives, Step, InitRouter, Sliced, NoDeadCall, CacheSliced;
    var all, before := es + PublishOf(id, p), es + [PublishOf(id, p)[0]];
    assert all[..|all| - 1] == before && before[..|before| - 1] == es;
    SurvivesIff(c, all);
    if AllSliced(InitRouter(c), all) {
      CachedTopicsAreSliceable(c, es);
      RunThen(InitRouter(c), es, PublishOf(id, p)[0]);
      UnslicedPublish(Run(InitRouter(c), es), id, p);
      assert false;
    }
  }

  lemma RunThen(s: Router, es: seq<Event>, e: Event)
    ensures Run(s, es + [e]) == Step(Run(s, es), e)
  {
    hide Step;
    assert (es + [e])[..|es + [e]| - 1] == es;
  }

  lemma UnslicedPublish(s: Router, id: ConnectionId, p: Publish)
    requires Present(s, id) && s.ibufs.m[id].buffer == [] && s.datalog.native != []
             && CacheSliced(s.datalog.publishFilters)
    requires p.qos != ExactlyOnce && !Sliceable(p.topic)
    ensures !Sliced(Step(s, PublishOf(id, p)[0]), EventDeviceData(id))
  {
    hide HandlePacket;
    var t := Step(s, PublishOf(id, p)[0]);
    assert t.ibufs.m[id].buffer == [PublishOf(id, p)[0].packet];
  }

  // Such a run: one client that subscribes, and publishes to a topic that starts with a letter of two
  // bytes in UTF-8.
  lemma AccentedTopicPanics(c: Config)
    requires ConfigOk(c) && c.maxConnections >= 1
    ensures Lives(InitRouter(c), Script(true, 0) + PublishOf(0, Publish("\U{E9}/x", [], AtMostOnce, false, 0)))
            == Panicked
  {
    hide Run, Lives, InitRouter, Script;
    ScriptFills(c, true, 0);
    UnsliceablePublishPanics(c, Script(true, 0), 0, Publish("\U{E9}/x", [], AtMostOnce, false, 0));
  }
}

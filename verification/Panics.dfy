// Where the code would panic: every lookup it unwraps, every slot it removes or indexes, every
// assertion it makes, every slice it takes. In reachable states two kinds of place are left: waking a
// connection that is gone, and slicing the first byte of a name (module Slices).
module Panics {
  import opened Types
  import opened Slabs
  import opened TopicMatch
  import opened DataLogModel
  import opened OutgoingModel
  import opened SchedulerModel
  import opened RouterModel
  import opened Frames
  import opened Window
  import opened Identity
  import opened Queue
  import opened Requests
  import opened RequestRuns
  import opened ConservationRuns
  import opened Witnesses
  import opened Slices

  // ---------------------------------------------------------------------------------------------
  // The places

  // The logs a publish is appended to exist.
  predicate Matched(dl: DataLog, topic: Topic) {
    forall i :: i in MatchingFilters(dl, topic) ==> i < |dl.native|
  }

  // A registered filter has its log.
  predicate Registered(dl: DataLog, path: Filter) {
    path in dl.filterIndexes ==> dl.filterIndexes[path] < |dl.native|
  }

  predicate AppendSafe(s: Router, id: ConnectionId, p: Publish, props: Props)
    requires Present(s, id)
  {
    var t := Resolve(s.connections.m[id].topicAliases, p, props).0;
    t.Some? ==> Matched(s.datalog, t.value) && LookupSliced(s.datalog, t.value)
  }

  predicate SubscribeSafe(b: Batch, id: ConnectionId, filters: seq<(Filter, QoS)>, subId: Option<nat>)
    decreases |filters|
  {
    filters == [] || RefusedFilter(filters[0].0) || subId == Some(0) ||
    (Present(b.r, id) && Registered(b.r.datalog, filters[0].0) && RegisterSliced(b.r.datalog, filters[0].0)
     && SubscribeSafe(b.(r := SubscribeOne(b.r, id, filters[0].0, filters[0].1)), id, filters[1..], subId))
  }

  predicate UnsubscribeSafe(b: Batch, id: ConnectionId, pkid: nat, paths: seq<Filter>)
    decreases |paths|
  {
    paths == [] ||
    (Present(b.r, id) && Registered(b.r.datalog, paths[0])
     && UnsubscribeSafe(UnsubscribeOne(b, id, pkid, paths[0]), id, pkid, paths[1..]))
  }

  predicate PacketSafe(b: Batch, id: ConnectionId, p: Packet)
    requires Present(b.r, id)
  {
    match p
    case PacketPublish(publish, props) => publish.qos == ExactlyOnce || AppendSafe(b.r, id, publish, props)
    case PacketSubscribe(_, filters, subId) => SubscribeSafe(b, id, filters, subId)
      && Present(SubscribeAll(b, id, filters, subId).0.r, id)
    case PacketUnsubscribe(pkid, paths) => UnsubscribeSafe(b, id, pkid, paths)
    case PacketPubRel(pkid, hasProps) =>
      var a := b.r.ackslog.m[id].Release(pkid).1;
      hasProps || a.None? || AppendSafe(b.r, id, a.value.0, a.value.1)
    case _ => true
  }

  predicate PacketsSafe(b: Batch, id: ConnectionId, packets: seq<Packet>)
    decreases |packets|
  {
    packets == [] || b.stop ||
    (Present(b.r, id) && PacketSafe(b, id, packets[0])
     && PacketsSafe(HandlePacket(b, id, packets[0]), id, packets[1..]))
  }

  // Every woken request belongs to a tracker.
  predicate WakesSafe(s: Router)
    decreases |s.notifications|
  {
    s.notifications == [] ||
    (s.notifications[0].0 in s.scheduler.trackers.m
     && WakesSafe(Wake(s, s.notifications[0]).(notifications := s.notifications[1..])))
  }

  // What has a send buffer has its slot in every slab.
  predicate DisconnectSafe(s: Router, id: ConnectionId) {
    id in s.obufs.m ==> Present(s, id)
  }

  predicate FinishSafe(b: Batch, id: ConnectionId) {
    var s1 := if b.forceAck then Reschedule(b.r, id, FreshData) else b.r;
    && (b.forceAck ==> id in b.r.scheduler.trackers.m)
    && (b.newData ==> WakesSafe(s1))
    && (b.disconnect ==> DisconnectSafe(if b.newData then WakeAll(s1) else s1, id))
  }

  predicate DeviceDataSafe(s: Router, id: ConnectionId) {
    id in s.ibufs.m ==>
      && Present(s, id) && PacketsSafe(FirstBatch(s, id), id, s.ibufs.m[id].buffer)
      && FinishSafe(HandlePackets(FirstBatch(s, id), id, s.ibufs.m[id].buffer), id)
  }

  // The four assertions that all slabs hand out the connection's id.
  predicate KeysAgree(s: Router) {
    s.ibufs.NextKey() == s.obufs.NextKey() == s.ackslog.NextKey() == s.scheduler.trackers.NextKey()
      == s.connections.NextKey()
  }

  predicate ConnectSafe(s: Router, e: Event)
    requires e.EventConnect?
  {
    && (ValidClientId(e.client) && e.client in s.connectionMap ==> DisconnectSafe(s, s.connectionMap[e.client]))
    && (Admits(s, e) ==> KeysAgree(Dropped(s, e.client)))
  }

  // Sweeps index the log of their request, and a pause finds its own id at the back of the queue.
  ghost predicate LoopSafe(s: Router, id: ConnectionId, n: nat)
    decreases n
  {
    n == 0 ||
    (Present(s, id) &&
      if s.scheduler.trackers.m[id].requests == [] then AtBack(s.scheduler, id)
      else
        && s.scheduler.trackers.m[id].requests[0].filterIdx < |s.datalog.native|
        && SweepSliced(s.datalog, s.obufs.m[id], s.scheduler.trackers.m[id].requests[0])
        && (if ConsumeOne(s, id).1 then LoopSafe(ConsumeOne(s, id).0, id, n - 1) else AtBack(s.scheduler, id)))
  }

  ghost predicate ConsumeSafe(s: Router) {
    s.scheduler.readyqueue == [] ||
    var id, s1 := s.scheduler.readyqueue[0], s.(scheduler := s.scheduler.Rotate());
    id in s.scheduler.trackers.m && id in s.obufs.m ==>
        Present(s1, id) && LoopSafe(SendAcks(s1, id), id, MAX_SCHEDULE_ITERATIONS)
  }

  predicate PublishWillSafe(s: Router, client: ClientId) {
    client in s.lastWills ==>
      && Matched(s.datalog, s.lastWills[client].topic) && LookupSliced(s.datalog, s.lastWills[client].topic)
      && WakesSafe(AcceptPublish(s.(lastWills := s.lastWills - {client}), s.lastWills[client]))
  }

  ghost predicate Safe(s: Router, e: Event) {
    match e
    case EventConnect(_, _, _) => ConnectSafe(s, e)
    case EventDeviceData(id) => DeviceDataSafe(s, id)
    case EventDisconnect(id) => DisconnectSafe(s, id)
    case EventReady(id) => id in s.scheduler.trackers.m
    case EventPublishWill(client) => PublishWillSafe(s, client)
    case EventConsume => ConsumeSafe(s)
    case EventArrive(_, _) => true
    case EventExchange(_) => true
  }

  // ---------------------------------------------------------------------------------------------
  // Packets

  lemma LogsExist(s: Router)
    requires RequestsOk(s)
    ensures forall topic :: Matched(s.datalog, topic)
    ensures forall path :: Registered(s.datalog, path)
  {
    hide HeldOk, ParkedOk, LogsOk, FanOut, MatchingFilters;
    forall topic
      ensures Matched(s.datalog, topic)
    {
      LookupIsFullScan(s.datalog, topic);
    }
  }

  lemma {:induction false} SubscribeIsSafe(b: Batch, id: ConnectionId, filters: seq<(Filter, QoS)>, subId: Option<nat>)
    requires Present(b.r, id) && RequestsOk(b.r)
    ensures SubscribeSafe(b, id, filters, subId) <==> SubscribeSliced(b, id, filters, subId)
    decreases |filters|
  {
    hide RegisterSliced, SubscribeOne, RequestsOk, SameNames, Subscribers, Present, Registered, Matched;
    if filters != [] {
      var t := SubscribeOne(b.r, id, filters[0].0, filters[0].1);
      LogsExist(b.r);
      SubscribeOneRequests(b.r, id, filters[0].0, filters[0].1);
      SubscribeOneSame(b.r, id, filters[0].0, filters[0].1);
      SameNamesPresent(b.r, t);
      SubscribeIsSafe(b.(r := t), id, filters[1..], subId);
    }
  }

  lemma {:induction false} UnsubscribeIsSafe(b: Batch, id: ConnectionId, pkid: nat, paths: seq<Filter>)
    requires Present(b.r, id) && RequestsOk(b.r)
    ensures UnsubscribeSafe(b, id, pkid, paths)
    decreases |paths|
  {
    hide UnsubscribeOne, RequestsOk, SameNames, Subscribers, Present, Registered, Matched;
    if paths != [] {
      var c := UnsubscribeOne(b, id, pkid, paths[0]);
      LogsExist(b.r);
      UnsubscribeOneRequests(b, id, pkid, paths[0]);
      UnsubscribeOneSame(b, id, pkid, paths[0]);
      SameNamesPresent(b.r, c.r);
      UnsubscribeIsSafe(c, id, pkid, paths[1..]);
    }
  }

  lemma PacketIsSafe(b: Batch, id: ConnectionId, p: Packet)
    requires Present(b.r, id) && RequestsOk(b.r)
    ensures PacketSafe(b, id, p) <==> PacketSliced(b, id, p)
  {
    hide LookupSliced, RequestsOk, Matched, Registered, SameNames, Subscribers, SubscribeAll, Resolve;
    LogsExist(b.r);
    match p {
      case PacketSubscribe(_, filters, subId) =>
        SubscribeIsSafe(b, id, filters, subId);
        SubscribeAllSame(b, id, filters, subId);
        SameNamesPresent(b.r, SubscribeAll(b, id, filters, subId).0.r);
      case PacketUnsubscribe(pkid, paths) => UnsubscribeIsSafe(b, id, pkid, paths);
      case _ =>
    }
  }

  lemma {:induction false} PacketsAreSafe(b: Batch, id: ConnectionId, packets: seq<Packet>)
    requires Present(b.r, id) && RequestsOk(b.r)
    ensures PacketsSafe(b, id, packets) <==> PacketsSliced(b, id, packets)
    decreases |packets|
  {
    hide PacketSliced, HandlePacket, RequestsOk, PacketSafe, SameNames, Subscribers, Present;
    if packets != [] && !b.stop {
      PacketIsSafe(b, id, packets[0]);
      HandlePacketRequests(b, id, packets[0]);
      HandlePacketSame(b, id, packets[0]);
      SameNamesPresent(b.r, HandlePacket(b, id, packets[0]).r);
      PacketsAreSafe(HandlePacket(b, id, packets[0]), id, packets[1..]);
    }
  }

  // ---------------------------------------------------------------------------------------------
  // Events

  lemma {:induction false} WakesAreSafe(s: Router)
    requires RequestsOk(s)
    ensures WakesSafe(s)
    decreases |s.notifications|
  {
    hide Wake, RequestsOk;
    WokenIsLive(s);
    if s.notifications != [] {
      assert s.notifications[0] in s.notifications;
      WakeRequests(s);
      WakesAreSafe(Wake(s, s.notifications[0]).(notifications := s.notifications[1..]));
    }
  }

  lemma IdentifiedSafe(s: Router, id: ConnectionId)
    requires Identified(s)
    ensures DisconnectSafe(s, id) && KeysAgree(s)
    ensures id in s.ibufs.m || id in s.obufs.m ==> Present(s, id)
  {
    hide NamesOf, NamesOk, Slab.NextKey;
    IdentifiedPresent(s);
    AdmitKeysAgree(s);
  }

  lemma DeviceDataIsSafe(s: Router, id: ConnectionId)
    requires Identified(s) && RequestsOk(s) && s.notifications == []
    ensures DeviceDataSafe(s, id) <==> DeviceDataSliced(s, id)
  {
    hide PacketsSliced, Identified, RequestsOk, HandlePackets, PacketsSafe, WakesSafe, WakeAll, Reschedule,
      DisconnectSafe, KeysAgree, Woken;
    IdentifiedSafe(s, id);
    if id in s.ibufs.m {
      FirstIsSafe(s, id);
      BatchEndsSafe(s, id);
    }
  }

  lemma FirstIsSafe(s: Router, id: ConnectionId)
    requires Present(s, id) && RequestsOk(s)
    ensures PacketsSafe(FirstBatch(s, id), id, s.ibufs.m[id].buffer) <==> DeviceDataSliced(s, id)
    ensures RequestsOk(FirstBatch(s, id).r) && Present(FirstBatch(s, id).r, id)
  {
    hide RequestsOk, PacketsSafe, PacketsSliced;
    RequestsFrame(s, FirstBatch(s, id).r);
    PacketsAreSafe(FirstBatch(s, id), id, s.ibufs.m[id].buffer);
  }

  lemma BatchEndsSafe(s: Router, id: ConnectionId)
    requires Present(s, id) && Identified(s) && RequestsOk(s) && s.notifications == []
    ensures FinishSafe(HandlePackets(FirstBatch(s, id), id, s.ibufs.m[id].buffer), id)
  {
    hide Identified, RequestsOk, HandlePackets, WakesSafe, WakeAll, Reschedule, DisconnectSafe, KeysAgree, NamesOf,
      SameSubscriptions, Subscribers, PacketsSafe;
    var b0 := FirstBatch(s, id);
    var b := HandlePackets(b0, id, s.ibufs.m[id].buffer);
    var s1 := if b.forceAck then Reschedule(b.r, id, FreshData) else b.r;
    FirstIsSafe(s, id);
    HandlePacketsSame(b0, id, s.ibufs.m[id].buffer);
    SameNamesPresent(b0.r, b.r);
    HandlePacketsRequests(b0, id, s.ibufs.m[id].buffer);
    RescheduleRequests(b.r, id, FreshData);
    WakesAreSafe(s1);
    WokenIdentified(s, id);
    HandlePacketsFlagged(b0, id, s.ibufs.m[id].buffer);
    WokenIs(b, id);
    IdentifiedSafe(Woken(b, id), id);
  }

  lemma WokenIs(b: Batch, id: ConnectionId)
    ensures Woken(b, id)
            == (var s1 := if b.forceAck then Reschedule(b.r, id, FreshData) else b.r;
                if b.newData then WakeAll(s1) else s1)
  {
    hide WakeAll, Reschedule;
  }

  lemma ConnectIsSafe(s: Router, e: Event)
    requires e.EventConnect? && Identified(s)
    ensures ConnectSafe(s, e)
  {
    hide Identified, Disconnect, DisconnectSafe, KeysAgree, Subscribers;
    if e.client in s.connectionMap {
      IdentifiedSafe(s, s.connectionMap[e.client]);
      DisconnectKeeps(s, s.connectionMap[e.client]);
    }
    IdentifiedSafe(Dropped(s, e.client), 0);
  }

  lemma SweepIsSafe(s: Router, id: ConnectionId)
    requires Present(s, id) && s.scheduler.trackers.m[id].requests != [] && RequestsOk(s) && AtBack(s.scheduler, id)
    ensures s.scheduler.trackers.m[id].requests[0].filterIdx < |s.datalog.native|
    ensures ConsumeOne(s, id).1 ==> AtBack(ConsumeOne(s, id).0.scheduler, id)
    ensures Present(ConsumeOne(s, id).0, id)
  {
    hide ConsumeOne, ForwardData, Park, Skip, RequestsOk, Scheduler.Pause, SameSubscriptions;
    TrackedAt(s, id);
    assert s.scheduler.trackers.m[id].requests[0] in s.scheduler.trackers.m[id].requests;
    ConsumeOneShape(s, id);
    NextSweep(s, id);
  }

  lemma NextSweep(s: Router, id: ConnectionId)
    requires Present(s, id) && s.scheduler.trackers.m[id].requests != []
    ensures Present(ConsumeOne(s, id).0, id)
  {
    hide ConsumeOne, SameNames;
    ConsumeOneSame(s, id);
    SameNamesPresent(s, ConsumeOne(s, id).0);
  }

  lemma {:induction false} LoopIsSafe(s: Router, id: ConnectionId, n: nat)
    requires Present(s, id) && RequestsOk(s) && Windows(s.obufs) && AtBack(s.scheduler, id)
    ensures LoopSafe(s, id, n) <==> LoopSliced(s, id, n)
    decreases n
  {
    hide SweepSliced, ConsumeOne, RequestsOk, WindowOk, Windows, AtBack;
    if n > 0 && s.scheduler.trackers.m[id].requests != [] {
      WindowsAt(s.obufs, id);
      SweepIsSafe(s, id);
      ConsumeOneRequests(s, id);
      ConsumeOneWindow(s, id);
      if ConsumeOne(s, id).1 {
        LoopIsSafe(ConsumeOne(s, id).0, id, n - 1);
      }
    }
  }

  lemma ConsumeIsSafe(s: Router)
    requires Identified(s) && RequestsOk(s) && Windows(s.obufs)
    ensures ConsumeSafe(s) <==> ConsumeSliced(s)
  {
    hide LoopSliced, Identified, RequestsOk, LoopSafe, Windows, DeviceAcks, AtBack, QueueKept, DisconnectSafe,
      KeysAgree, Scheduler.Rotate;
    if s.scheduler.readyqueue != [] {
      var id := s.scheduler.readyqueue[0];
      var s1 := s.(scheduler := s.scheduler.Rotate());
      IdentifiedSafe(s, id);
      RotateFrame(s);
      RotateQueue(s.scheduler);
      RequestsFrame(s, s1);
      if id in s.scheduler.trackers.m && id in s.obufs.m {
        SendAcksRequests(s1, id);
        LoopIsSafe(SendAcks(s1, id), id, MAX_SCHEDULE_ITERATIONS);
      }
    }
  }

  lemma PublishWillIsSafe(s: Router, client: ClientId)
    requires RequestsOk(s)
    ensures PublishWillSafe(s, client) <==> WillSliced(s, client)
  {
    hide LookupSliced, RequestsOk, WakesSafe, AcceptPublish, Matched, Registered;
    LogsExist(s);
    if client in s.lastWills {
      var s1 := s.(lastWills := s.lastWills - {client});
      RequestsFrame(s, s1);
      AcceptPublishRequests(s1, s.lastWills[client]);
      WakesAreSafe(AcceptPublish(s1, s.lastWills[client]));
    }
  }

  // ---------------------------------------------------------------------------------------------
  // The places left

  lemma PanicsIff(s: Router, e: Event)
    requires Identified(s) && RequestsOk(s) && Windows(s.obufs) && s.notifications == []
    ensures !Safe(s, e) <==> !Sliced(s, e) || (e.EventReady? && e.id !in s.scheduler.trackers.m)
  {
    hide DeviceDataSliced, WillSliced, ConsumeSliced, Identified, RequestsOk, Windows, ConnectSafe, DeviceDataSafe,
      DisconnectSafe, PublishWillSafe, ConsumeSafe, KeysAgree;
    match e {
      case EventConnect(_, _, _) => ConnectIsSafe(s, e);
      case EventDeviceData(id) => DeviceDataIsSafe(s, id);
      case EventDisconnect(id) => IdentifiedSafe(s, id);
      case EventPublishWill(client) => PublishWillIsSafe(s, client);
      case EventConsume => ConsumeIsSafe(s);
      case _ =>
    }
  }

  // A router thread that ends with its first panic.
  datatype Outcome = Alive(router: Router) | Panicked

  ghost function Live(o: Outcome, e: Event): Outcome {
    if o.Alive? && Safe(o.router, e) then Alive(Step(o.router, e)) else Panicked
  }

  ghost function Lives(s: Router, es: seq<Event>): Outcome
    decreases |es|
  {
    if es == [] then Alive(s) else Live(Lives(s, es[..|es| - 1]), es[|es| - 1])
  }

  // No Ready event of a run comes for a connection that is gone.
  predicate NoDeadCall(s: Router, es: seq<Event>)
    decreases |es|
  {
    es == [] ||
    (NoDeadCall(s, es[..|es| - 1])
     && (es[|es| - 1].EventReady? ==> es[|es| - 1].id in Run(s, es[..|es| - 1]).scheduler.trackers.m))
  }

  // Every name that a run compares with filters can be sliced.
  predicate AllSliced(s: Router, es: seq<Event>)
    decreases |es|
  {
    es == [] || (AllSliced(s, es[..|es| - 1]) && Sliced(Run(s, es[..|es| - 1]), es[|es| - 1]))
  }

  // The thread survives a run, and is then where the state machine says, if and only if that is so.
  lemma {:induction false} SurvivesIff(c: Config, es: seq<Event>)
    requires ConfigOk(c)
    ensures Lives(InitRouter(c), es) ==
            if NoDeadCall(InitRouter(c), es) && AllSliced(InitRouter(c), es) then Alive(Run(InitRouter(c), es))
              else Panicked
    decreases |es|
  {
    hide Sliced, Step, Identified, RequestsOk, Windows, Safe, InitRouter, Subscribers;
    if es != [] {
      var before := es[..|es| - 1];
      SurvivesIff(c, before);
      RunKeepsIdentity(c, before);
      RunKeepsRequests(c, before);
      RunKeepsWindows(c, before);
      PanicsIff(Run(InitRouter(c), before), es[|es| - 1]);
    }
  }

  // Such a run: the call back of a link arrives after its connection has been dropped.
  lemma DroppedLinkPanics(c: Config)
    requires ConfigOk(c) && c.maxConnections >= 1
    ensures Lives(InitRouter(c), [EventConnect("a", true, None), EventDisconnect(0), EventReady(0)]) == Panicked
  {
    hide InitRouter, Run, Lives;
    var es := [EventConnect("a", true, None), EventDisconnect(0), EventReady(0)];
    assert es[..2] == [EventConnect("a", true, None), EventDisconnect(0)];
    DropDeserts(c);
    SurvivesIff(c, es);
  }
}

// The ready queue: every Ready tracker is queued, exactly once unless a connection id was reused
// while still queued; pausing always finds its own id at the back.
module Queue {
  import opened Types
  import opened Slabs
  import opened DataLogModel
  import opened OutgoingModel
  import opened SchedulerModel
  import opened RouterModel
  import opened Identity

  ghost predicate Queued(c: Scheduler) {
    forall id :: id in c.trackers.m && c.trackers.m[id].status == Ready ==> id in c.readyqueue
  }

  ghost predicate QueuedOnce(c: Scheduler) {
    forall id :: id in c.trackers.m ==>
      multiset(c.readyqueue)[id] == if c.trackers.m[id].status == Ready then 1 else 0
  }

  // Both at once, as an implication between two schedulers.
  ghost predicate QueueKept(c: Scheduler, d: Scheduler) {
    (Queued(c) ==> Queued(d)) && (QueuedOnce(c) ==> QueuedOnce(d))
  }

  ghost predicate AtBack(c: Scheduler, id: ConnectionId) {
    c.readyqueue != [] && c.readyqueue[|c.readyqueue| - 1] == id
  }

  // ---------------------------------------------------------------------------------------------
  // Scheduler operations

  lemma SetRequestsQueue(c: Scheduler, id: ConnectionId, t: Tracker)
    requires id in c.trackers.m && t.status == c.trackers.m[id].status
    ensures QueueKept(c, c.SetTracker(id, t))
  {
  }

  lemma TrackQueue(c: Scheduler, id: ConnectionId, r: DataRequest)
    ensures QueueKept(c, c.Track(id, r))
  {
  }

  lemma UntrackQueue(c: Scheduler, id: ConnectionId, f: Filter)
    ensures QueueKept(c, c.Untrack(id, f))
  {
  }

  lemma RescheduleQueue(c: Scheduler, id: ConnectionId, why: ScheduleReason)
    ensures QueueKept(c, c.Reschedule(id, why))
  {
  }

  // The assertion in pause holds, so exactly one entry of this id leaves the queue.
  lemma PauseQueue(c: Scheduler, id: ConnectionId, why: PauseReason)
    requires AtBack(c, id)
    ensures QueueKept(c, c.Pause(id, why))
  {
    var q := c.readyqueue;
    assert q == q[..|q| - 1] + [id];
  }

  lemma RotateQueue(c: Scheduler)
    ensures QueueKept(c, c.Rotate())
    ensures c.readyqueue != [] && c.readyqueue[0] in c.trackers.m ==> AtBack(c.Rotate(), c.readyqueue[0])
  {
    var q := c.readyqueue;
    if q != [] {
      assert q == [q[0]] + q[1..];
    }
  }

  // ---------------------------------------------------------------------------------------------
  // Packets

  lemma {:induction false} WakeAllQueue(s: Router)
    ensures QueueKept(s.scheduler, WakeAll(s).scheduler)
    decreases |s.notifications|
  {
    hide QueueKept, Scheduler.Track, Scheduler.Reschedule;
    if s.notifications != [] {
      var w := s.notifications[0];
      TrackQueue(s.scheduler, w.0, w.1);
      RescheduleQueue(s.scheduler.Track(w.0, w.1), w.0, FreshData);
      WakeAllQueue(Wake(s, w).(notifications := s.notifications[1..]));
      KeptTrans(s.scheduler, s.scheduler.Track(w.0, w.1), Wake(s, w).scheduler);
      KeptTrans(s.scheduler, Wake(s, w).scheduler, WakeAll(s).scheduler);
    } else {
      KeptRefl(s.scheduler);
    }
  }

  lemma KeptRefl(c: Scheduler)
    ensures QueueKept(c, c)
  {
  }

  lemma KeptTrans(c: Scheduler, d: Scheduler, e: Scheduler)
    requires QueueKept(c, d) && QueueKept(d, e)
    ensures QueueKept(c, e)
  {
  }

  lemma SubscribeOneQueue(s: Router, id: ConnectionId, path: Filter, qos: QoS)
    requires Present(s, id)
    ensures QueueKept(s.scheduler, SubscribeOne(s, id, path, qos).scheduler)
  {
    hide QueueKept, Scheduler.Track, Scheduler.Reschedule, Register, IndexOf;
    var datalog := Register(s.datalog, path);
    var idx := IndexOf(datalog, path);
    var cursor := if idx < |datalog.native| then datalog.native[idx].log.NextOffset() else Cursor(0, 0);
    var r := DataRequest(path, idx, qos, cursor, 0, true);
    TrackQueue(s.scheduler, id, r);
    RescheduleQueue(s.scheduler.Track(id, r), id, NewFilter);
    KeptTrans(s.scheduler, s.scheduler.Track(id, r), s.scheduler.Track(id, r).Reschedule(id, NewFilter));
    KeptRefl(s.scheduler);
  }

  lemma {:induction false} SubscribeAllQueue(b: Batch, id: ConnectionId, filters: seq<(Filter, QoS)>,
                                             subId: Option<nat>)
    ensures QueueKept(b.r.scheduler, SubscribeAll(b, id, filters, subId).0.r.scheduler)
    decreases |filters|
  {
    hide QueueKept, SubscribeOne;
    KeptRefl(b.r.scheduler);
    if filters != [] && Present(b.r, id) {
      var t := SubscribeOne(b.r, id, filters[0].0, filters[0].1);
      SubscribeOneQueue(b.r, id, filters[0].0, filters[0].1);
      SubscribeAllQueue(b.(r := t), id, filters[1..], subId);
      KeptTrans(b.r.scheduler, t.scheduler, SubscribeAll(b.(r := t), id, filters[1..], subId).0.r.scheduler);
    }
  }

  lemma {:induction false} UnsubscribeAllQueue(b: Batch, id: ConnectionId, pkid: nat, paths: seq<Filter>)
    ensures QueueKept(b.r.scheduler, UnsubscribeAll(b, id, pkid, paths).r.scheduler)
    decreases |paths|
  {
    hide QueueKept, Scheduler.Untrack, RemoveWaiter;
    KeptRefl(b.r.scheduler);
    if paths != [] && Present(b.r, id) {
      var b' := UnsubscribeOne(b, id, pkid, paths[0]);
      UntrackQueue(b.r.scheduler, id, paths[0]);
      UnsubscribeAllQueue(b', id, pkid, paths[1..]);
      KeptTrans(b.r.scheduler, b'.r.scheduler, UnsubscribeAll(b', id, pkid, paths[1..]).r.scheduler);
    }
  }

  lemma AppendQueue(b: Batch, id: ConnectionId, p: Publish, props: Props, report: bool)
    requires Present(b.r, id)
    ensures AppendToCommitlog(b, id, p, props, report).r.scheduler == b.r.scheduler
  {
    hide Resolve, Accept;
  }

  lemma HandlePublishQueue(b: Batch, id: ConnectionId, p: Publish, props: Props)
    requires Present(b.r, id)
    ensures HandlePublish(b, id, p, props).r.scheduler == b.r.scheduler
  {
    hide AppendToCommitlog;
    AppendQueue(b, id, p, props, true);
    AppendQueue(b.(r := Commit(b.r, id, PubAck(p.pkid)), forceAck := true), id, p, props, true);
  }

  lemma RegisterAckQueue(s: Router, id: ConnectionId, pkid: nat)
    requires Present(s, id)
    ensures RegisterAck(s, id, pkid).scheduler == s.scheduler
    ensures Present(RegisterAck(s, id, pkid), id)
  {
    hide Settle;
  }

  lemma HandlePubAckQueue(b: Batch, id: ConnectionId, pkid: nat)
    requires Present(b.r, id)
    ensures QueueKept(b.r.scheduler, HandlePubAck(b, id, pkid).r.scheduler)
  {
    hide QueueKept, RegisterAck, Scheduler.Reschedule, Outgoing.RegisterAck;
    KeptRefl(b.r.scheduler);
    RegisterAckQueue(b.r, id, pkid);
    RescheduleQueue(b.r.scheduler, id, IncomingAck);
  }

  lemma HandlePubRecQueue(b: Batch, id: ConnectionId, pkid: nat)
    requires Present(b.r, id)
    ensures QueueKept(b.r.scheduler, HandlePubRec(b, id, pkid).r.scheduler)
  {
    hide QueueKept, RegisterAck, Scheduler.Reschedule, Outgoing.RegisterAck;
    KeptRefl(b.r.scheduler);
    RegisterAckQueue(b.r, id, pkid);
    RescheduleQueue(b.r.scheduler, id, IncomingAck);
  }

  lemma HandlePubRelQueue(b: Batch, id: ConnectionId, pkid: nat)
    requires Present(b.r, id)
    ensures QueueKept(b.r.scheduler, HandlePubRel(b, id, pkid).r.scheduler)
  {
    hide QueueKept, AppendToCommitlog, Scheduler.Reschedule;
    KeptRefl(b.r.scheduler);
    RescheduleQueue(b.r.scheduler, id, IncomingAck);
    var a := b.r.ackslog.m[id].Release(pkid);
    if a.1.Some? {
      AppendQueue(b.(r := b.r.(ackslog := b.r.ackslog.Set(id, a.0))), id, a.1.value.0, a.1.value.1, false);
    }
  }

  lemma HandlePacketQueue(b: Batch, id: ConnectionId, p: Packet)
    requires Present(b.r, id)
    ensures QueueKept(b.r.scheduler, HandlePacket(b, id, p).r.scheduler)
  {
    hide QueueKept, SubscribeAll, UnsubscribeAll, HandlePublish, HandlePubAck, HandlePubRec, HandlePubRel;
    KeptRefl(b.r.scheduler);
    match p {
      case PacketPublish(publish, props) => HandlePublishQueue(b, id, publish, props);
      case PacketSubscribe(pkid, filters, subId) => SubscribeAllQueue(b, id, filters, subId);
      case PacketUnsubscribe(pkid, paths) => UnsubscribeAllQueue(b, id, pkid, paths);
      case PacketPubAck(pkid) => HandlePubAckQueue(b, id, pkid);
      case PacketPubRec(pkid) => HandlePubRecQueue(b, id, pkid);
      case PacketPubRel(pkid, _) => HandlePubRelQueue(b, id, pkid);
      case _ =>
    }
  }

  lemma {:induction false} HandlePacketsQueue(b: Batch, id: ConnectionId, packets: seq<Packet>)
    ensures QueueKept(b.r.scheduler, HandlePackets(b, id, packets).r.scheduler)
    decreases |packets|
  {
    hide QueueKept, HandlePacket;
    KeptRefl(b.r.scheduler);
    if packets != [] && !b.stop && Present(b.r, id) {
      var b' := HandlePacket(b, id, packets[0]);
      HandlePacketQueue(b, id, packets[0]);
      HandlePacketsQueue(b', id, packets[1..]);
      KeptTrans(b.r.scheduler, b'.r.scheduler, HandlePackets(b', id, packets[1..]).r.scheduler);
    }
  }

  lemma DisconnectQueue(s: Router, id: ConnectionId)
    ensures QueueKept(s.scheduler, Disconnect(s, id).scheduler)
  {
    hide Clean, RewindAll, Retransmissions, ForgetAccounts, Unsubscribed;
  }

  lemma WokenQueue(b: Batch, id: ConnectionId)
    ensures QueueKept(b.r.scheduler, Woken(b, id).scheduler)
  {
    hide QueueKept, WakeAll, Scheduler.Reschedule;
    var s1 := if b.forceAck then Reschedule(b.r, id, FreshData) else b.r;
    KeptRefl(b.r.scheduler);
    RescheduleQueue(b.r.scheduler, id, FreshData);
    WakeAllQueue(s1);
    KeptTrans(b.r.scheduler, s1.scheduler, WakeAll(s1).scheduler);
  }

  lemma DeviceDataQueue(s: Router, id: ConnectionId)
    ensures QueueKept(s.scheduler, DeviceData(s, id).scheduler)
  {
    hide QueueKept, HandlePackets, Disconnect, WakeAll, Reschedule;
    KeptRefl(s.scheduler);
    if Present(s, id) {
      var b0 := Batch(TakePackets(s, id), false, false, false, None, false);
      var b := HandlePackets(b0, id, s.ibufs.m[id].buffer);
      HandlePacketsQueue(b0, id, s.ibufs.m[id].buffer);
      WokenQueue(b, id);
      DisconnectQueue(Woken(b, id), id);
      KeptTrans(s.scheduler, b.r.scheduler, Woken(b, id).scheduler);
      KeptTrans(s.scheduler, Woken(b, id).scheduler, Disconnect(Woken(b, id), id).scheduler);
    }
  }

  // ---------------------------------------------------------------------------------------------
  // Consuming

  // Between the poll and the pause nothing enters the queue, so the polled id stays at its back.
  lemma ConsumeOneQueue(s: Router, id: ConnectionId)
    requires Present(s, id) && s.scheduler.trackers.m[id].requests != [] && AtBack(s.scheduler, id)
    ensures QueueKept(s.scheduler, ConsumeOne(s, id).0.scheduler)
    ensures ConsumeOne(s, id).1 ==> AtBack(ConsumeOne(s, id).0.scheduler, id)
  {
    hide QueueKept, ForwardData, Park, Skip, Scheduler.Pause;
    var r, rest := s.scheduler.trackers.m[id].requests[0], s.scheduler.trackers.m[id].requests[1..];
    var f := ForwardData(s.datalog, s.obufs.m[id], r);
    var rs := if f.2 == FilterCaughtup then rest else rest + [f.1];
    var c := s.scheduler.SetTracker(id, s.scheduler.trackers.m[id].(requests := rs));
    SetRequestsQueue(s.scheduler, id, s.scheduler.trackers.m[id].(requests := rs));
    var why := if f.2 == BufferFull then Busy else PauseReason.InflightFull;
    PauseQueue(c, id, why);
    KeptTrans(s.scheduler, c, c.Pause(id, why));
  }

  lemma {:induction false} ConsumeLoopQueue(s: Router, id: ConnectionId, n: nat)
    requires AtBack(s.scheduler, id)
    ensures QueueKept(s.scheduler, ConsumeLoop(s, id, n).scheduler)
    decreases n
  {
    hide QueueKept, ConsumeOne, Scheduler.Pause;
    KeptRefl(s.scheduler);
    PauseQueue(s.scheduler, id, Caughtup);
    if n > 0 && Present(s, id) && s.scheduler.trackers.m[id].requests != [] {
      var t := ConsumeOne(s, id);
      ConsumeOneQueue(s, id);
      if t.1 {
        ConsumeLoopQueue(t.0, id, n - 1);
        KeptTrans(s.scheduler, t.0.scheduler, ConsumeLoop(t.0, id, n - 1).scheduler);
      }
    }
  }

  lemma ConsumeQueue(s: Router)
    ensures QueueKept(s.scheduler, Consume(s).0.scheduler)
  {
    hide QueueKept, ConsumeLoop, Scheduler.Rotate;
    KeptRefl(s.scheduler);
    RotateQueue(s.scheduler);
    if s.scheduler.readyqueue != [] {
      var id := s.scheduler.readyqueue[0];
      var s1 := s.(scheduler := s.scheduler.Rotate());
      if id in s.scheduler.trackers.m && Present(s1, id) {
        ConsumeLoopQueue(SendAcks(s1, id), id, MAX_SCHEDULE_ITERATIONS);
        KeptTrans(s.scheduler, s1.scheduler, ConsumeLoop(SendAcks(s1, id), id, MAX_SCHEDULE_ITERATIONS).scheduler);
      }
    }
  }

  // ---------------------------------------------------------------------------------------------
  // Connecting

  // A connect that gets past the client id check and the connection limit.
  predicate Admits(s: Router, e: Event) {
    e.EventConnect? && ValidClientId(e.client) &&
    |Dropped(s, e.client).connections.m| < Dropped(s, e.client).config.maxConnections
  }

  // After an earlier connection of the same client has been dropped.
  function Dropped(s: Router, client: ClientId): Router {
    if client in s.connectionMap then Disconnect(s, s.connectionMap[client]) else s
  }

  // The id the connect hands out is still queued for a connection that is gone.
  predicate ReusesQueuedId(s: Router, e: Event) {
    Admits(s, e) && Dropped(s, e.client).connections.NextKey() in s.scheduler.readyqueue
  }

  // Saved trackers are Paused(Busy).
  ghost predicate SavedBusy(s: Router) {
    forall c :: c in s.graveyard && s.graveyard[c].Some? ==> s.graveyard[c].value.tracker.status == Paused(Busy)
  }

  lemma InsertQueue(c: Scheduler, t: Tracker)
    requires t.status == Paused(Busy) && c.trackers.NextKey() !in c.trackers.m
    ensures var d, id := c.(trackers := c.trackers.Insert(t)).Reschedule(c.trackers.NextKey(), Init),
            c.trackers.NextKey();
            && d.readyqueue == c.readyqueue + [id]
            && (Queued(c) ==> Queued(d))
            && (QueuedOnce(c) ==> (QueuedOnce(d) <==> id !in c.readyqueue))
  {
    var id := c.trackers.NextKey();
    var d := c.(trackers := c.trackers.Insert(t)).Reschedule(id, Init);
    assert d.trackers.m[id].status == Ready;
    assert multiset(d.readyqueue)[id] == multiset(c.readyqueue)[id] + 1;
  }

  lemma AdmitQueue(s: Router, client: ClientId, clean: bool, will: Option<Publish>)
    requires Identified(s) && SavedBusy(s)
    ensures var t := Admit(s, client, clean, will);
            && (Queued(s.scheduler) ==> Queued(t.scheduler))
            && (QueuedOnce(s.scheduler) ==>
                  (QueuedOnce(t.scheduler) <==> s.connections.NextKey() !in s.scheduler.readyqueue))
            && SavedBusy(t)
  {
    hide Queued, QueuedOnce, ForgetAccounts, PubRels, NamesOf, Scheduler.Reschedule;
    AdmitKeysAgree(s);
    var resumed := !clean && SavedSession(s, client).Some?;
    var tracker := if resumed then SavedSession(s, client).value.tracker else Tracker(client, [], Paused(Busy));
    IdentifiedPresent(s);
    InsertQueue(s.scheduler, tracker);
  }

  lemma IdentifiedPresent(s: Router)
    requires Identified(s)
    ensures s.connections.m.Keys == s.ibufs.m.Keys == s.obufs.m.Keys == s.ackslog.m.Keys == s.scheduler.trackers.m.Keys
    ensures forall id :: id in s.connections.m ==>
              Present(s, id) && s.connections.m[id].clientId == s.obufs.m[id].clientId == s.scheduler.trackers.m[id].id
                == s.ibufs.m[id].clientId
  {
    hide Slab.WellFormed, Project;
    ProjectAt(s.connections, ConnectionName);
    ProjectAt(s.ibufs, IncomingName);
    ProjectAt(s.obufs, OutgoingName);
    ProjectAt(s.ackslog, AckName);
    ProjectAt(s.scheduler.trackers, TrackerName);
  }

  lemma DisconnectSavedBusy(s: Router, id: ConnectionId)
    requires SavedBusy(s)
    ensures SavedBusy(Disconnect(s, id)) && Disconnect(s, id).scheduler.readyqueue == s.scheduler.readyqueue
  {
    hide Clean, RewindAll, Retransmissions, ForgetAccounts, Unsubscribed;
  }

  // Whether ids stay queued once is decided by exactly one thing: whether the new id is still queued.
  lemma ConnectQueue(s: Router, client: ClientId, clean: bool, will: Option<Publish>)
    requires Identified(s) && SavedBusy(s)
    ensures var t, e := Connect(s, client, clean, will), EventConnect(client, clean, will);
            && (Queued(s.scheduler) ==> Queued(t.scheduler))
            && (QueuedOnce(s.scheduler) ==> (QueuedOnce(t.scheduler) <==> !ReusesQueuedId(s, e)))
            && SavedBusy(t)
  {
    hide Queued, QueuedOnce, Admit, Disconnect, NamesOf, SavedBusy;
    var d := Dropped(s, client);
    if client in s.connectionMap {
      DisconnectQueue(s, s.connectionMap[client]);
      DisconnectKeeps(s, s.connectionMap[client]);
      DisconnectSavedBusy(s, s.connectionMap[client]);
    }
    AdmitQueue(d, client, clean, will);
  }

  // ---------------------------------------------------------------------------------------------
  // Runs

  lemma PublishWillQueue(s: Router, client: ClientId)
    ensures QueueKept(s.scheduler, PublishWill(s, client).scheduler)
  {
    hide QueueKept, WakeAll, Accept;
    KeptRefl(s.scheduler);
    if client in s.lastWills {
      WakeAllQueue(AcceptPublish(s.(lastWills := s.lastWills - {client}), s.lastWills[client]));
    }
  }

  lemma StepSavedBusy(s: Router, e: Event)
    requires Identified(s) && SavedBusy(s)
    ensures SavedBusy(Step(s, e))
  {
    hide Connect, HandlePackets, WakeAll, Reschedule, Disconnect, NamesOf, Consume, PublishWill, Accept;
    match e {
      case EventConnect(client, clean, will) => ConnectQueue(s, client, clean, will);
      case EventDeviceData(id) =>
        if Present(s, id) {
          var b0 := Batch(TakePackets(s, id), false, false, false, None, false);
          var b := HandlePackets(b0, id, s.ibufs.m[id].buffer);
          HandlePacketsSame(b0, id, s.ibufs.m[id].buffer);
          WokenSame(b, id);
          assert Woken(b, id).graveyard
              == s.graveyard by { SameGraveyard(b.r, Woken(b, id)); SameGraveyard(b0.r, b.r); }
          DisconnectSavedBusy(Woken(b, id), id);
        }
      case EventDisconnect(id) => DisconnectSavedBusy(s, id);
      case EventPublishWill(client) => WillGraveyard(s, client);
      case EventConsume =>
        ConsumeSame(s);
        SameGraveyard(s, Consume(s).0);
      case EventReady(id) =>
        RescheduleSame(s, id, LinkReady);
        SameGraveyard(s, Reschedule(s, id, LinkReady));
      case _ =>
    }
  }

  lemma SameGraveyard(s: Router, t: Router)
    requires SameNames(s, t)
    ensures t.graveyard == s.graveyard
  {
    hide Project;
  }

  lemma WillGraveyard(s: Router, client: ClientId)
    ensures PublishWill(s, client).graveyard == s.graveyard
  {
    hide WakeAll, Accept, NamesOf;
    if client in s.lastWills {
      var t := AcceptPublish(s.(lastWills := s.lastWills - {client}), s.lastWills[client]);
      WakeAllSame(t);
      SameGraveyard(t, WakeAll(t));
    }
  }

  lemma StepQueue(s: Router, e: Event)
    requires Identified(s) && SavedBusy(s)
    ensures Queued(s.scheduler) ==> Queued(Step(s, e).scheduler)
    ensures QueuedOnce(s.scheduler) ==> (QueuedOnce(Step(s, e).scheduler) <==> !ReusesQueuedId(s, e))
  {
    hide Queued, QueuedOnce, Connect, Disconnect, DeviceData, PublishWill, Consume, NamesOf, SavedBusy,
      Scheduler.Reschedule, Dropped;
    match e {
      case EventConnect(client, clean, will) => ConnectQueue(s, client, clean, will);
      case EventDeviceData(id) => DeviceDataQueue(s, id);
      case EventDisconnect(id) => DisconnectQueue(s, id);
      case EventPublishWill(client) => PublishWillQueue(s, client);
      case EventConsume => ConsumeQueue(s);
      case EventReady(id) => RescheduleQueue(s.scheduler, id, LinkReady);
      case _ =>
    }
  }

  // No event of the run reuses an id that is still queued.
  ghost predicate NoQueuedReuse(s: Router, es: seq<Event>)
    decreases |es|
  {
    es == [] || (NoQueuedReuse(s, es[..|es| - 1]) && !ReusesQueuedId(Run(s, es[..|es| - 1]), es[|es| - 1]))
  }

  // Every Ready connection is queued in every run, and queued exactly once, and only then, in every
  // run without reuse of a queued id.
  lemma {:induction false} RunKeepsQueue(c: Config, es: seq<Event>)
    ensures Queued(Run(InitRouter(c), es).scheduler) && SavedBusy(Run(InitRouter(c), es))
    ensures NoQueuedReuse(InitRouter(c), es) ==> QueuedOnce(Run(InitRouter(c), es).scheduler)
    decreases |es|
  {
    hide Step, Identified, ReusesQueuedId, QueuedOnce, Queued, SavedBusy, InitRouter;
    if es == [] {
      InitQueue(c);
    } else {
      var s := Run(InitRouter(c), es[..|es| - 1]);
      RunKeepsQueue(c, es[..|es| - 1]);
      RunKeepsIdentity(c, es[..|es| - 1]);
      StepQueue(s, es[|es| - 1]);
      StepSavedBusy(s, es[|es| - 1]);
    }
  }

  lemma InitQueue(c: Config)
    ensures Queued(InitRouter(c).scheduler) && QueuedOnce(InitRouter(c).scheduler) && SavedBusy(InitRouter(c))
  {
  }
}

// Connection ids: the five per-connection slabs stay in lockstep, client ids and connection ids
// correspond one to one, and the subscription map mentions only live subscribers.
module Identity {
  import opened Types
  import opened Slabs
  import opened LogModel
  import opened DataLogModel
  import opened OutgoingModel
  import opened SchedulerModel
  import opened RouterModel

  // Who is connected under which name; everything else is projected away.
  datatype Names = Names(
    connections: Slab<(ClientId, bool)>,
    ibufs: Slab<ClientId>,
    obufs: Slab<ClientId>,
    acks: Slab<()>,
    trackers: Slab<ClientId>,
    connectionMap: map<ClientId, ConnectionId>,
    graveyard: map<ClientId, Option<Session>>)

  function ConnectionName(c: Connection): (ClientId, bool) { (c.clientId, c.clean) }
  function IncomingName(i: Incoming): ClientId { i.clientId }
  function OutgoingName(o: Outgoing): ClientId { o.clientId }
  function AckName(a: AckLog): () { () }
  function TrackerName(t: Tracker): ClientId { t.id }
  function SubscriptionsOf(c: Connection): set<Filter> { c.subscriptions }

  ghost function NamesOf(s: Router): Names {
    Names(
      Project(s.connections, ConnectionName),
      Project(s.ibufs, IncomingName),
      Project(s.obufs, OutgoingName),
      Project(s.ackslog, AckName),
      Project(s.scheduler.trackers, TrackerName),
      s.connectionMap,
      s.graveyard)
  }

  ghost predicate InLockstep(n: Names) {
    && n.connections.WellFormed()
    && Lockstep(n.connections, n.ibufs) && Lockstep(n.connections, n.obufs)
    && Lockstep(n.connections, n.acks) && Lockstep(n.connections, n.trackers)
  }

  // One connection: the same client in every slab, and the one it is mapped from.
  ghost predicate NamedAt(n: Names, id: ConnectionId)
    requires id in n.connections.m
  {
    var c := n.connections.m[id].0;
    && id in n.ibufs.m && n.ibufs.m[id] == c && id in n.obufs.m && n.obufs.m[id] == c
    && id in n.trackers.m && n.trackers.m[id] == c && c in n.connectionMap && n.connectionMap[c] == id
  }

  // One connected client: where it is mapped to, and that it has no saved session.
  ghost predicate ClientAt(n: Names, c: ClientId)
    requires c in n.connectionMap
  {
    n.connectionMap[c] in n.connections.m && n.connections.m[n.connectionMap[c]].0 == c && c !in n.graveyard
  }

  ghost predicate Named(n: Names) {
    && n.connections.m.Keys == n.ibufs.m.Keys == n.obufs.m.Keys == n.trackers.m.Keys
    && (forall id :: id in n.connections.m ==> NamedAt(n, id))
    && (forall c :: c in n.connectionMap ==> ClientAt(n, c))
    && (forall c :: c in n.graveyard && n.graveyard[c].Some? ==> n.graveyard[c].value.tracker.id == c)
  }

  ghost predicate NamesOk(n: Names) {
    InLockstep(n) && Named(n)
  }

  // The slabs agree on every key, the key free list and the next key; client ids and connection ids
  // determine each other; a connected client has no saved session.
  ghost predicate Identified(s: Router) {
    NamesOk(NamesOf(s))
  }

  ghost predicate SubscribersOk(m: map<Filter, set<ConnectionId>>, subs: Slab<set<Filter>>) {
    forall f, id :: f in m && id in m[f] ==> id in subs.m && f in subs.m[id]
  }

  ghost predicate Subscribers(s: Router) {
    SubscribersOk(s.subscriptionMap, Project(s.connections, SubscriptionsOf))
  }

  // Nobody comes, goes, or changes name.
  ghost predicate SameNames(s: Router, t: Router) {
    NamesOf(s) == NamesOf(t)
  }

  // Nobody's subscriptions change either.
  ghost predicate SameSubscriptions(s: Router, t: Router) {
    && SameNames(s, t)
    && t.subscriptionMap == s.subscriptionMap
    && Project(t.connections, SubscriptionsOf) == Project(s.connections, SubscriptionsOf)
  }

  lemma SameNamesPresent(s: Router, t: Router)
    requires SameNames(s, t)
    ensures forall id :: Present(t, id) == Present(s, id)
    ensures t.connections.m.Keys == s.connections.m.Keys
    ensures forall id :: id in s.connections.m ==> t.connections.m[id].clientId == s.connections.m[id].clientId
  {
    var n := NamesOf(s);
    ProjectAt(s.connections, ConnectionName);
    ProjectAt(s.ibufs, IncomingName);
    ProjectAt(s.obufs, OutgoingName);
    ProjectAt(s.ackslog, AckName);
    ProjectAt(s.scheduler.trackers, TrackerName);
    ProjectAt(t.connections, ConnectionName);
    ProjectAt(t.ibufs, IncomingName);
    ProjectAt(t.obufs, OutgoingName);
    ProjectAt(t.ackslog, AckName);
    ProjectAt(t.scheduler.trackers, TrackerName);
    assert n == NamesOf(t);
    forall id | id in s.connections.m
      ensures t.connections.m[id].clientId == s.connections.m[id].clientId
    {
      assert n.connections.m[id] == ConnectionName(s.connections.m[id]);
    }
  }

  // ---------------------------------------------------------------------------------------------
  // Single updates

  lemma SetTrackerSame(s: Scheduler, id: ConnectionId, t: Tracker)
    requires id in s.trackers.m && t.id == s.trackers.m[id].id
    ensures Project(s.SetTracker(id, t).trackers, TrackerName) == Project(s.trackers, TrackerName)
  {
    ProjectSet(s.trackers, id, t, TrackerName);
  }

  lemma SchedulerSame(s: Scheduler, id: ConnectionId, r: DataRequest, f: Filter, why: ScheduleReason, p: PauseReason)
    ensures Project(s.Track(id, r).trackers, TrackerName) == Project(s.trackers, TrackerName)
    ensures Project(s.Untrack(id, f).trackers, TrackerName) == Project(s.trackers, TrackerName)
    ensures Project(s.Reschedule(id, why).trackers, TrackerName) == Project(s.trackers, TrackerName)
    ensures Project(s.Pause(id, p).trackers, TrackerName) == Project(s.trackers, TrackerName)
    ensures Project(s.Rotate().trackers, TrackerName) == Project(s.trackers, TrackerName)
  {
    hide Project;
    if id in s.trackers.m {
      var t := s.trackers.m[id];
      SetTrackerSame(s, id, t.(requests := t.requests + [r]));
      SetTrackerSame(s, id, t.(requests := WithoutFilter(t.requests, f)));
      SetTrackerSame(s, id, t.(status := Ready));
      SetTrackerSame(s, id, t.(status := Paused(p)));
    }
  }

  lemma RescheduleSame(s: Router, id: ConnectionId, why: ScheduleReason)
    ensures SameSubscriptions(s, Reschedule(s, id, why))
  {
    hide Project, Scheduler.Reschedule;
    SchedulerSame(s.scheduler, id, DataRequest("", 0, AtMostOnce, Cursor(0, 0), 0, false), "", why, Busy);
  }

  lemma SetAcksSame(s: Router, id: ConnectionId, a: AckLog)
    requires id in s.ackslog.m
    ensures SameSubscriptions(s, s.(ackslog := s.ackslog.Set(id, a)))
  {
    hide Project;
    ProjectSet(s.ackslog, id, a, AckName);
  }

  lemma SetObufSame(s: Router, id: ConnectionId, o: Outgoing)
    requires id in s.obufs.m && o.clientId == s.obufs.m[id].clientId
    ensures SameSubscriptions(s, s.(obufs := s.obufs.Set(id, o)))
  {
    hide Project;
    ProjectSet(s.obufs, id, o, OutgoingName);
  }

  lemma SetConnectionSame(s: Router, id: ConnectionId, c: Connection)
    requires id in s.connections.m && ConnectionName(c) == ConnectionName(s.connections.m[id])
    ensures SameNames(s, s.(connections := s.connections.Set(id, c)))
    ensures c.subscriptions == s.connections.m[id].subscriptions ==>
              SameSubscriptions(s, s.(connections := s.connections.Set(id, c)))
  {
    hide Project;
    ProjectSet(s.connections, id, c, ConnectionName);
    ProjectSet(s.connections, id, c, SubscriptionsOf);
  }

  // ---------------------------------------------------------------------------------------------
  // Steps that change no name

  lemma WakeSame(s: Router, w: Waiter)
    ensures SameSubscriptions(s, Wake(s, w))
  {
    hide Project, Scheduler.Reschedule, Scheduler.Track;
    SchedulerSame(s.scheduler, w.0, w.1, "", FreshData, Busy);
    SchedulerSame(s.scheduler.Track(w.0, w.1), w.0, w.1, "", FreshData, Busy);
  }

  lemma {:induction false} WakeAllSame(s: Router)
    ensures SameSubscriptions(s, WakeAll(s))
    ensures WakeAll(s).notifications == []
    decreases |s.notifications|
  {
    hide Project, Wake;
    if s.notifications != [] {
      WakeSame(s, s.notifications[0]);
      var t := Wake(s, s.notifications[0]).(notifications := s.notifications[1..]);
      assert SameSubscriptions(s, t);
      WakeAllSame(t);
    }
  }

  lemma AcceptSame(s: Router, p: Publish)
    ensures SameSubscriptions(s, AcceptPublish(s, p))
  {
    hide Project, Accept;
  }

  lemma AppendSame(b: Batch, id: ConnectionId, p: Publish, props: Props, report: bool)
    requires Present(b.r, id)
    ensures SameSubscriptions(b.r, AppendToCommitlog(b, id, p, props, report).r)
  {
    hide Project, Resolve, AcceptPublish;
    var c := b.r.connections.m[id];
    var t := Resolve(c.topicAliases, p, props);
    if t.0.Some? {
      SetConnectionSame(b.r, id, c.(topicAliases := t.1));
      AcceptSame(b.r.(connections := b.r.connections.Set(id, c.(topicAliases := t.1))), p.(topic := t.0.value));
    }
  }

  lemma HandlePublishSame(b: Batch, id: ConnectionId, p: Publish, props: Props)
    requires Present(b.r, id)
    ensures SameSubscriptions(b.r, HandlePublish(b, id, p, props).r)
  {
    hide Project, AppendToCommitlog;
    var a := b.r.ackslog.m[id];
    match p.qos {
      case ExactlyOnce => SetAcksSame(b.r, id, a.Record(p, props));
      case AtLeastOnce =>
        SetAcksSame(b.r, id, a.Commit(PubAck(p.pkid)));
        AppendSame(b.(r := Commit(b.r, id, PubAck(p.pkid)), forceAck := true), id, p, props, true);
      case AtMostOnce => AppendSame(b, id, p, props, true);
    }
  }

  lemma RegisterAckSame(s: Router, id: ConnectionId, pkid: nat)
    requires Present(s, id)
    ensures SameSubscriptions(s, RegisterAck(s, id, pkid))
    ensures Present(RegisterAck(s, id, pkid), id)
  {
    hide Project, Settle;
    SetObufSame(s, id, s.obufs.m[id].RegisterAck(pkid).0);
  }

  lemma HandlePubAckSame(b: Batch, id: ConnectionId, pkid: nat)
    requires Present(b.r, id)
    ensures SameSubscriptions(b.r, HandlePubAck(b, id, pkid).r)
  {
    hide Project, RegisterAck, Reschedule;
    RegisterAckSame(b.r, id, pkid);
    RescheduleSame(RegisterAck(b.r, id, pkid), id, IncomingAck);
  }

  lemma HandlePubRecSame(b: Batch, id: ConnectionId, pkid: nat)
    requires Present(b.r, id)
    ensures SameSubscriptions(b.r, HandlePubRec(b, id, pkid).r)
  {
    hide Project, RegisterAck, Reschedule;
    RegisterAckSame(b.r, id, pkid);
    var s := RegisterAck(b.r, id, pkid);
    SetObufSame(s, id, s.obufs.m[id].RegisterPubRec(pkid));
    var s1 := s.(obufs := s.obufs.Set(id, s.obufs.m[id].RegisterPubRec(pkid)));
    SetAcksSame(s1, id, s1.ackslog.m[id].Commit(PubRel(pkid)));
    RescheduleSame(Commit(s1, id, PubRel(pkid)), id, IncomingAck);
  }

  lemma HandlePubCompSame(b: Batch, id: ConnectionId, pkid: nat)
    requires Present(b.r, id)
    ensures SameSubscriptions(b.r, HandlePubComp(b, id, pkid).r)
  {
    hide Project;
    SetObufSame(b.r, id, b.r.obufs.m[id].RegisterPubComp(pkid).0);
  }

  lemma HandlePubRelSame(b: Batch, id: ConnectionId, pkid: nat)
    requires Present(b.r, id)
    ensures SameSubscriptions(b.r, HandlePubRel(b, id, pkid).r)
  {
    hide Project, AppendToCommitlog, Reschedule;
    var a := b.r.ackslog.m[id].Release(pkid);
    SetAcksSame(b.r, id, a.0);
    var b1 := b.(r := b.r.(ackslog := b.r.ackslog.Set(id, a.0)));
    if a.1.Some? {
      AppendSame(b1, id, a.1.value.0, a.1.value.1, false);
      RescheduleSame(AppendToCommitlog(b1, id, a.1.value.0, a.1.value.1, false).r, id, IncomingAck);
    }
  }

  lemma SubscribersGrow(m: map<Filter, set<ConnectionId>>, subs: Slab<set<Filter>>, path: Filter, id: ConnectionId)
    requires SubscribersOk(m, subs) && id in subs.m
    ensures SubscribersOk(AddSubscriber(m, path, id), subs.Set(id, subs.m[id] + {path}))
    ensures path in subs.m[id] ==> SubscribersOk(AddSubscriber(m, path, id), subs)
  {
  }

  lemma SubscribersShrink(m: map<Filter, set<ConnectionId>>, subs: Slab<set<Filter>>, path: Filter, id: ConnectionId)
    requires SubscribersOk(m, subs) && id in subs.m && path in m
    ensures SubscribersOk(m[path := m[path] - {id}], subs.Set(id, subs.m[id] - {path}))
    ensures SubscribersOk(m[path := m[path] - {id}], subs)
  {
  }

  // Names do not depend on the logs, the subscription map or the accounts.
  lemma NamesIgnore(s: Router, t: Router)
    requires t == s.(datalog := t.datalog, subscriptionMap := t.subscriptionMap, scheduler := t.scheduler,
                     accounts := t.accounts)
    requires Project(t.scheduler.trackers, TrackerName) == Project(s.scheduler.trackers, TrackerName)
    ensures SameNames(s, t)
  {
    hide Project;
  }

  lemma SubscribeOneNames(s: Router, id: ConnectionId, path: Filter, qos: QoS)
    requires Present(s, id)
    ensures SameNames(s, SubscribeOne(s, id, path, qos))
  {
    hide NamesOf, Project, AddSubscriber, Register, IndexOf, Scheduler.Track, Scheduler.Reschedule;
    var c := s.connections.m[id];
    var s1 := s.(connections := s.connections.Set(id, c.(subscriptions := c.subscriptions + {path})));
    SetConnectionSame(s, id, c.(subscriptions := c.subscriptions + {path}));
    var datalog := Register(s.datalog, path);
    var idx := IndexOf(datalog, path);
    var cursor := if idx < |datalog.native| then datalog.native[idx].log.NextOffset() else Cursor(0, 0);
    var r := DataRequest(path, idx, qos, cursor, 0, true);
    SchedulerSame(s.scheduler, id, r, path, NewFilter, Busy);
    SchedulerSame(s.scheduler.Track(id, r), id, r, path, NewFilter, Busy);
    NamesIgnore(if path in c.subscriptions then s else s1, SubscribeOne(s, id, path, qos));
  }

  lemma SubscribeOneSame(s: Router, id: ConnectionId, path: Filter, qos: QoS)
    requires Present(s, id)
    ensures SameNames(s, SubscribeOne(s, id, path, qos))
    ensures Subscribers(s) ==> Subscribers(SubscribeOne(s, id, path, qos))
  {
    hide SameNames, Project, SubscribersOk, AddSubscriber, Register, IndexOf, Scheduler.Track, Scheduler.Reschedule;
    SubscribeOneNames(s, id, path, qos);
    var c := s.connections.m[id];
    var c' := c.(subscriptions := c.subscriptions + {path});
    ProjectSet(s.connections, id, c', SubscriptionsOf);
    ProjectAt(s.connections, SubscriptionsOf);
    if Subscribers(s) {
      SubscribersGrow(s.subscriptionMap, Project(s.connections, SubscriptionsOf), path, id);
    }
  }

  lemma {:induction false} SubscribeAllSame(b: Batch, id: ConnectionId, filters: seq<(Filter, QoS)>, subId: Option<nat>)
    ensures var r := SubscribeAll(b, id, filters, subId).0.r;
            SameNames(b.r, r) && (Subscribers(b.r) ==> Subscribers(r))
    decreases |filters|
  {
    hide SubscribeOne, Subscribers, NamesOf;
    if filters != [] && Present(b.r, id) {
      SubscribeOneSame(b.r, id, filters[0].0, filters[0].1);
      SubscribeAllSame(b.(r := SubscribeOne(b.r, id, filters[0].0, filters[0].1)), id, filters[1..], subId);
    }
  }

  lemma LeaveSame(s: Router, id: ConnectionId, path: Filter)
    requires Present(s, id)
    ensures SameNames(s, Leave(s, id, path))
    ensures Present(Leave(s, id, path), id) && Leave(s, id, path).subscriptionMap == s.subscriptionMap
    ensures id in Project(s.connections, SubscriptionsOf).m
    ensures Project(Leave(s, id, path).connections, SubscriptionsOf)
            == Project(s.connections, SubscriptionsOf).Set(id, Project(s.connections, SubscriptionsOf).m[id] - {path})
  {
    hide Project, RemoveWaiter, Scheduler.Untrack;
    var c := s.connections.m[id];
    var c' := c.(subscriptions := c.subscriptions - {path});
    SetConnectionSame(s, id, c');
    ProjectSet(s.connections, id, c', SubscriptionsOf);
    ProjectAt(s.connections, SubscriptionsOf);
    SchedulerSame(s.scheduler, id, DataRequest("", 0, AtMostOnce, Cursor(0, 0), 0, false), path, NewFilter, Busy);
    SameNamesPresent(s, Leave(s, id, path));
  }

  lemma UnsubscribeOneSame(b: Batch, id: ConnectionId, pkid: nat, path: Filter)
    requires Present(b.r, id)
    ensures SameNames(b.r, UnsubscribeOne(b, id, pkid, path).r)
    ensures Subscribers(b.r) ==> Subscribers(UnsubscribeOne(b, id, pkid, path).r)
  {
    hide Project, SubscribersOk, Leave;
    if path in b.r.subscriptionMap {
      var s := b.r.(subscriptionMap := b.r.subscriptionMap[path := b.r.subscriptionMap[path] - {id}]);
      LeaveSame(s, id, path);
      SetAcksSame(Leave(s, id, path), id, Leave(s, id, path).ackslog.m[id].Commit(UnsubAck(pkid)));
      if Subscribers(b.r) {
        SubscribersShrink(b.r.subscriptionMap, Project(b.r.connections, SubscriptionsOf), path, id);
      }
    }
  }

  lemma {:induction false} UnsubscribeAllSame(b: Batch, id: ConnectionId, pkid: nat, paths: seq<Filter>)
    ensures var r := UnsubscribeAll(b, id, pkid, paths).r;
            SameNames(b.r, r) && (Subscribers(b.r) ==> Subscribers(r))
    decreases |paths|
  {
    hide UnsubscribeOne, Subscribers, NamesOf;
    if paths != [] && Present(b.r, id) {
      UnsubscribeOneSame(b, id, pkid, paths[0]);
      UnsubscribeAllSame(UnsubscribeOne(b, id, pkid, paths[0]), id, pkid, paths[1..]);
    }
  }

  lemma SameSubscriptionsKeeps(s: Router, t: Router)
    requires SameSubscriptions(s, t)
    ensures Identified(s) ==> Identified(t)
    ensures Subscribers(s) ==> Subscribers(t)
  {
  }

  lemma HandlePacketSame(b: Batch, id: ConnectionId, p: Packet)
    requires Present(b.r, id)
    ensures var r := HandlePacket(b, id, p).r;
            SameNames(b.r, r) && (Subscribers(b.r) ==> Subscribers(r))
  {
    hide HandlePublish, HandlePubRel, HandlePubAck, HandlePubRec, HandlePubComp, UnsubscribeAll, SubscribeAll, NamesOf,
      Project;
    match p {
      case PacketPublish(publish, props) => HandlePublishSame(b, id, publish, props);
      case PacketSubscribe(pkid, filters, subId) =>
        SubscribeAllSame(b, id, filters, subId);
        var r := SubscribeAll(b, id, filters, subId);
        SameNamesPresent(b.r, r.0.r);
        SetAcksSame(r.0.r, id, r.0.r.ackslog.m[id].Commit(SubAck(pkid, r.1)));
      case PacketUnsubscribe(pkid, paths) => UnsubscribeAllSame(b, id, pkid, paths);
      case PacketPubAck(pkid) => HandlePubAckSame(b, id, pkid);
      case PacketPubRec(pkid) => HandlePubRecSame(b, id, pkid);
      case PacketPubComp(pkid) => HandlePubCompSame(b, id, pkid);
      case PacketPubRel(pkid, hasProps) => HandlePubRelSame(b, id, pkid);
      case PacketPingReq => SetAcksSame(b.r, id, b.r.ackslog.m[id].Commit(PingResp));
      case PacketDisconnect =>
        assert NamesOf(HandlePacket(b, id, p).r) == NamesOf(b.r) by {
          LastWillsSame(b.r, b.r.lastWills - {b.r.ibufs.m[id].clientId});
        }
      case PacketOther =>
    }
  }

  lemma LastWillsSame(s: Router, wills: map<ClientId, Publish>)
    ensures SameSubscriptions(s, s.(lastWills := wills))
  {
  }

  lemma {:induction false} HandlePacketsSame(b: Batch, id: ConnectionId, packets: seq<Packet>)
    ensures var r := HandlePackets(b, id, packets).r;
            SameNames(b.r, r) && (Subscribers(b.r) ==> Subscribers(r))
    decreases |packets|
  {
    hide HandlePacket, Subscribers, NamesOf;
    if packets != [] && !b.stop && Present(b.r, id) {
      HandlePacketSame(b, id, packets[0]);
      HandlePacketsSame(HandlePacket(b, id, packets[0]), id, packets[1..]);
    }
  }

  lemma {:induction false} PushForwardsKeepsName(o: Outgoing, ps: seq<Item>, qos: QoS, idx: FilterIdx)
    ensures o.PushForwards(ps, qos, idx).clientId == o.clientId
    decreases |ps|
  {
    if ps != [] {
      PushForwardsKeepsName(o, ps[..|ps| - 1], qos, idx);
    }
  }

  lemma ForwardKeepsName(dl: DataLog, o: Outgoing, r: DataRequest)
    ensures ForwardData(dl, o, r).0.clientId == o.clientId
  {
    hide Slots, RetainedItems, LogItems, Pull, Outgoing.PushForwards;
    var items := RetainedItems(dl, r, Slots(dl, o, r)) + LogItems(Pull(dl, o, r).entries);
    PushForwardsKeepsName(o, items, r.qos, r.filterIdx);
  }

  lemma SetRequestsSame(s: Router, id: ConnectionId, rs: seq<DataRequest>)
    requires id in s.scheduler.trackers.m
    ensures SameSubscriptions(s, SetRequests(s, id, rs))
  {
    hide Project;
    SetTrackerSame(s.scheduler, id, s.scheduler.trackers.m[id].(requests := rs));
  }

  lemma PauseSame(s: Router, id: ConnectionId, why: PauseReason)
    ensures SameSubscriptions(s, Pause(s, id, why))
  {
    hide Project, Scheduler.Pause;
    SchedulerSame(s.scheduler, id, DataRequest("", 0, AtMostOnce, Cursor(0, 0), 0, false), "", Init, why);
  }

  lemma ForwardedSame(s: Router, id: ConnectionId, r: DataRequest, o: Outgoing)
    requires Present(s, id) && o.clientId == s.obufs.m[id].clientId
    ensures SameSubscriptions(s, Forwarded(s, id, r, o))
    ensures Forwarded(s, id, r, o).scheduler == s.scheduler
  {
    hide Project, Skip;
    SetObufSame(s, id, o);
  }

  lemma ConsumeOneSame(s: Router, id: ConnectionId)
    requires Present(s, id) && s.scheduler.trackers.m[id].requests != []
    ensures SameSubscriptions(s, ConsumeOne(s, id).0)
  {
    hide ForwardData, Park, Forwarded, SetRequests, Pause, Project;
    var r, rest := s.scheduler.trackers.m[id].requests[0], s.scheduler.trackers.m[id].requests[1..];
    var f := ForwardData(s.datalog, s.obufs.m[id], r);
    ForwardKeepsName(s.datalog, s.obufs.m[id], r);
    ForwardedSame(s, id, r, f.0);
    var s1 := if f.2 == ConsumeStatus.InflightFull then s else Forwarded(s, id, r, f.0);
    var s2 := SetRequests(s1, id, if f.2 == FilterCaughtup then rest else rest + [f.1]);
    SetRequestsSame(s1, id, if f.2 == FilterCaughtup then rest else rest + [f.1]);
    PauseSame(s2, id, if f.2 == BufferFull then Busy else PauseReason.InflightFull);
  }

  lemma {:induction false} ConsumeLoopSame(s: Router, id: ConnectionId, n: nat)
    ensures SameSubscriptions(s, ConsumeLoop(s, id, n))
    decreases n
  {
    hide ConsumeOne, Pause, NamesOf, Project;
    if n > 0 && Present(s, id) {
      if s.scheduler.trackers.m[id].requests != [] {
        ConsumeOneSame(s, id);
        if ConsumeOne(s, id).1 {
          ConsumeLoopSame(ConsumeOne(s, id).0, id, n - 1);
        }
      } else {
        PauseSame(s, id, Caughtup);
      }
    }
  }

  lemma SendAcksSame(s: Router, id: ConnectionId)
    requires Present(s, id)
    ensures SameSubscriptions(s, SendAcks(s, id))
    ensures Present(SendAcks(s, id), id)
  {
    hide Project, DeviceAcks;
    var a, o := s.ackslog.m[id], s.obufs.m[id];
    SetAcksSame(s, id, a.(committed := []));
    SetObufSame(s, id, o.(buffer := o.buffer + DeviceAcks(a.committed)).Notify());
  }

  lemma RotateSame(s: Router)
    ensures SameSubscriptions(s, s.(scheduler := s.scheduler.Rotate()))
  {
    hide Project;
  }

  lemma ConsumeSame(s: Router)
    ensures SameSubscriptions(s, Consume(s).0)
  {
    hide ConsumeLoop, SendAcks, NamesOf, Project, Scheduler.Rotate;
    if s.scheduler.readyqueue != [] {
      var id := s.scheduler.readyqueue[0];
      var s1 := s.(scheduler := s.scheduler.Rotate());
      RotateSame(s);
      if Present(s1, id) {
        SendAcksSame(s1, id);
        ConsumeLoopSame(SendAcks(s1, id), id, MAX_SCHEDULE_ITERATIONS);
      }
    }
  }

  // ---------------------------------------------------------------------------------------------
  // Coming and going

  // What a disconnect does to the names.
  ghost function NamesWithout(n: Names, id: ConnectionId, saved: Option<Session>): Names
    requires id in n.obufs.m && id in n.trackers.m
  {
    Names(n.connections.Remove(id), n.ibufs.Remove(id), n.obufs.Remove(id), n.acks.Remove(id), n.trackers.Remove(id),
          n.connectionMap - {n.obufs.m[id]}, n.graveyard[n.trackers.m[id] := saved])
  }

  ghost function SavedBy(s: Router, id: ConnectionId): Option<Session>
    requires Present(s, id)
  {
    if s.connections.m[id].clean then None
    else
      Some(Session(Tracker(s.scheduler.trackers.m[id].id,
                           RewindAll(s.scheduler.trackers.m[id].requests + Clean(s.datalog, id).1,
                                     Retransmissions(s.obufs.m[id].inflight)),
                           Paused(Busy)),
                   s.connections.m[id].subscriptions, s.obufs.m[id].unackedPubrels))
  }

  lemma DisconnectNames(s: Router, id: ConnectionId)
    requires Present(s, id)
    ensures id in NamesOf(s).obufs.m && id in NamesOf(s).trackers.m
    ensures NamesOf(Disconnect(s, id)) == NamesWithout(NamesOf(s), id, SavedBy(s, id))
  {
    hide Project, Clean, RewindAll, Retransmissions, ForgetAccounts, Unsubscribed;
    ProjectRemove(s.connections, id, ConnectionName);
    ProjectRemove(s.ibufs, id, IncomingName);
    ProjectRemove(s.obufs, id, OutgoingName);
    ProjectRemove(s.ackslog, id, AckName);
    ProjectRemove(s.scheduler.trackers, id, TrackerName);
    ProjectAt(s.obufs, OutgoingName);
    ProjectAt(s.scheduler.trackers, TrackerName);
  }

  lemma NamesWithoutOk(n: Names, id: ConnectionId, saved: Option<Session>)
    requires NamesOk(n) && id in n.connections.m
    requires saved.Some? ==> saved.value.tracker.id == n.trackers.m[id]
    ensures NamesOk(NamesWithout(n, id, saved))
  {
    NamesWithoutLockstep(n, id, saved);
    NamesWithoutNamed(n, id, saved);
  }

  lemma NamesWithoutLockstep(n: Names, id: ConnectionId, saved: Option<Session>)
    requires InLockstep(n) && id in n.connections.m
    ensures InLockstep(NamesWithout(n, id, saved))
  {
    hide Slab.WellFormed;
    RemoveKeeps(n.connections, id);
    RemoveLockstep(n.connections, n.ibufs, id);
    RemoveLockstep(n.connections, n.obufs, id);
    RemoveLockstep(n.connections, n.acks, id);
    RemoveLockstep(n.connections, n.trackers, id);
  }

  lemma NamesWithoutParts(n: Names, id: ConnectionId, saved: Option<Session>)
    requires Named(n) && id in n.connections.m
    ensures id in n.obufs.m && id in n.trackers.m
    ensures var t := NamesWithout(n, id, saved);
            && t.connections.m == n.connections.m - {id} && t.ibufs.m == n.ibufs.m - {id}
            && t.obufs.m == n.obufs.m - {id} && t.trackers.m == n.trackers.m - {id}
            && t.connectionMap == n.connectionMap - {n.obufs.m[id]}
              && t.graveyard == n.graveyard[n.trackers.m[id] := saved]
            && t.connections.m.Keys == t.ibufs.m.Keys == t.obufs.m.Keys == t.trackers.m.Keys
  {
    hide Slab.WellFormed;
    assert NamedAt(n, id);
  }

  lemma NamesWithoutNamed(n: Names, id: ConnectionId, saved: Option<Session>)
    requires Named(n) && id in n.connections.m
    requires saved.Some? ==> saved.value.tracker.id == n.trackers.m[id]
    ensures Named(NamesWithout(n, id, saved))
  {
    hide NamesWithout;
    var t := NamesWithout(n, id, saved);
    NamesWithoutParts(n, id, saved);
    forall k | k in t.connections.m
      ensures NamedAt(t, k)
    {
      assert NamedAt(n, k) && NamedAt(n, id);
    }
    assert NamedAt(n, id);
  }

  lemma DisconnectKeeps(s: Router, id: ConnectionId)
    requires Identified(s)
    ensures Identified(Disconnect(s, id))
    ensures Subscribers(s) ==> Subscribers(Disconnect(s, id))
  {
    hide Project, NamesOk, Clean, RewindAll, Retransmissions, ForgetAccounts, NamesWithout;
    if Present(s, id) {
      DisconnectNames(s, id);
      ProjectAt(s.connections, ConnectionName);
      ProjectAt(s.scheduler.trackers, TrackerName);
      NamesWithoutOk(NamesOf(s), id, SavedBy(s, id));
      ProjectRemove(s.connections, id, SubscriptionsOf);
      ProjectAt(s.connections, SubscriptionsOf);
    }
  }

  ghost function NamesWith(n: Names, client: ClientId, clean: bool): Names {
    Names(n.connections.Insert((client, clean)), n.ibufs.Insert(client), n.obufs.Insert(client), n.acks.Insert(()),
          n.trackers.Insert(client), n.connectionMap[client := n.connections.NextKey()], n.graveyard - {client})
  }

  lemma AdmitNames(s: Router, client: ClientId, clean: bool, will: Option<Publish>)
    requires SavedSession(s, client).Some? ==> SavedSession(s, client).value.tracker.id == client
    ensures NamesOf(Admit(s, client, clean, will)) == NamesWith(NamesOf(s), client, clean)
  {
    hide Project, ForgetAccounts, PubRels, Reschedule;
    var saved := SavedSession(s, client);
    var resumed := !clean && saved.Some?;
    var tracker := if resumed then saved.value.tracker else Tracker(client, [], Paused(Busy));
    var pubrels := if resumed then saved.value.unackedPubrels else [];
    ProjectInsert(s.connections, Connection(client, clean, if resumed then saved.value.subscriptions else {}, map[]),
                  ConnectionName);
    ProjectInsert(s.ibufs, Incoming(client, []), IncomingName);
    ProjectInsert(s.obufs, NewOutgoing(client, pubrels), OutgoingName);
    ProjectInsert(s.ackslog, AckLog([ConnAck(s.connections.NextKey(), resumed)] + PubRels(pubrels), []), AckName);
    ProjectInsert(s.scheduler.trackers, tracker, TrackerName);
    RescheduleSame(Admitted(s, client, clean, will), s.connections.NextKey(), Init);
  }

  lemma NamesWithOk(n: Names, client: ClientId, clean: bool)
    requires NamesOk(n) && client !in n.connectionMap
    ensures NamesOk(NamesWith(n, client, clean))
  {
    NamesWithLockstep(n, client, clean);
    InsertKeeps(n.connections, (client, clean));
    NamesWithNamed(n, client, clean);
  }

  lemma NamesWithLockstep(n: Names, client: ClientId, clean: bool)
    requires InLockstep(n)
    ensures InLockstep(NamesWith(n, client, clean))
  {
    hide Slab.WellFormed;
    InsertKeeps(n.connections, (client, clean));
    InsertLockstep(n.connections, n.ibufs, (client, clean), client);
    InsertLockstep(n.connections, n.obufs, (client, clean), client);
    InsertLockstep(n.connections, n.acks, (client, clean), ());
    InsertLockstep(n.connections, n.trackers, (client, clean), client);
  }

  lemma NamesWithNamed(n: Names, client: ClientId, clean: bool)
    requires InLockstep(n) && Named(n) && client !in n.connectionMap && n.connections.NextKey() !in n.connections.m
    ensures Named(NamesWith(n, client, clean))
  {
    hide InLockstep, Slab.NextKey, NamesWith, NamedAt, ClientAt;
    var t, k := NamesWith(n, client, clean), n.connections.NextKey();
    NamesWithParts(n, client, clean);
    forall id | id in t.connections.m
      ensures NamedAt(t, id)
    {
      NamedStays(n, t, client, k, id);
    }
    forall c | c in t.connectionMap
      ensures ClientAt(t, c)
    {
      ClientStays(n, t, client, k, c);
    }
  }

  lemma NamedStays(n: Names, t: Names, client: ClientId, k: ConnectionId, id: ConnectionId)
    requires id in t.connections.m && (id in n.connections.m ==> NamedAt(n, id)) && client !in n.connectionMap
             && k !in n.connections.m
    requires t.connections.m.Keys == n.connections.m.Keys + {k} && t.connections.m[k].0 == client
    requires forall j :: j in n.connections.m ==> t.connections.m[j] == n.connections.m[j]
    requires t.ibufs.m == n.ibufs.m[k := client] && t.obufs.m == n.obufs.m[k := client]
             && t.trackers.m == n.trackers.m[k := client]
    requires t.connectionMap == n.connectionMap[client := k]
    ensures NamedAt(t, id)
  {
  }

  lemma ClientStays(n: Names, t: Names, client: ClientId, k: ConnectionId, c: ClientId)
    requires c in t.connectionMap && (c in n.connectionMap ==> ClientAt(n, c)) && k !in n.connections.m
    requires t.connections.m.Keys == n.connections.m.Keys + {k} && t.connections.m[k].0 == client
    requires forall j :: j in n.connections.m ==> t.connections.m[j] == n.connections.m[j]
    requires t.connectionMap == n.connectionMap[client := k] && t.graveyard == n.graveyard - {client}
    ensures ClientAt(t, c)
  {
  }

  lemma NamesWithParts(n: Names, client: ClientId, clean: bool)
    requires InLockstep(n)
    ensures var t, k := NamesWith(n, client, clean), n.connections.NextKey();
            && t.connections.m == n.connections.m[k := (client, clean)] && t.ibufs.m == n.ibufs.m[k := client]
            && t.obufs.m == n.obufs.m[k := client] && t.trackers.m == n.trackers.m[k := client]
            && t.connectionMap == n.connectionMap[client := k] && t.graveyard == n.graveyard - {client}
            && t.connections.m.Keys == t.ibufs.m.Keys == t.obufs.m.Keys == t.trackers.m.Keys
  {
    hide Slab.WellFormed;
  }

  // The four assertions on connect: every slab hands out the key the first one did, a fresh one.
  lemma AdmitKeysAgree(s: Router)
    requires Identified(s)
    ensures s.connections.NextKey() == s.ibufs.NextKey() == s.obufs.NextKey()
            == s.ackslog.NextKey() == s.scheduler.trackers.NextKey()
    ensures s.connections.NextKey() !in s.connections.m
  {
    InsertKeeps(NamesOf(s).connections, ("", true));
  }

  lemma AdmitKeeps(s: Router, client: ClientId, clean: bool, will: Option<Publish>)
    requires Identified(s) && client !in s.connectionMap
    ensures Identified(Admit(s, client, clean, will))
    ensures Subscribers(s) ==> Subscribers(Admit(s, client, clean, will))
  {
    hide Project, InLockstep, ForgetAccounts, PubRels, NamesWith, NamesOk, SubscribersOk;
    AdmitKeysAgree(s);
    AdmitSaved(s, client);
    AdmitNames(s, client, clean, will);
    NamesWithOk(NamesOf(s), client, clean);
    var t := Admitted(s, client, clean, will);
    RescheduleSame(t, s.connections.NextKey(), Init);
    var resumed := !clean && SavedSession(s, client).Some?;
    var subs := if resumed then SavedSession(s, client).value.subscriptions else {};
    ProjectInsert(s.connections, Connection(client, clean, subs, map[]), SubscriptionsOf);
    ProjectAt(s.connections, SubscriptionsOf);
    if Subscribers(s) {
      SubscribersInsert(s.subscriptionMap, Project(s.connections, SubscriptionsOf), subs);
    }
  }

  lemma SubscribersInsert(m: map<Filter, set<ConnectionId>>, subs: Slab<set<Filter>>, v: set<Filter>)
    requires SubscribersOk(m, subs) && subs.NextKey() !in subs.m
    ensures SubscribersOk(m, subs.Insert(v))
  {
  }

  lemma AdmitSaved(s: Router, client: ClientId)
    requires Identified(s)
    ensures SavedSession(s, client).Some? ==> SavedSession(s, client).value.tracker.id == client
  {
    hide Project, InLockstep;
  }

  lemma DisconnectFreesName(s: Router, client: ClientId)
    requires Identified(s) && client in s.connectionMap
    ensures client !in Disconnect(s, s.connectionMap[client]).connectionMap
  {
    hide Project, Clean, RewindAll, Retransmissions, ForgetAccounts, Unsubscribed;
    var id := s.connectionMap[client];
    ProjectAt(s.connections, ConnectionName);
    ProjectAt(s.ibufs, IncomingName);
    ProjectAt(s.obufs, OutgoingName);
    ProjectAt(s.ackslog, AckName);
    ProjectAt(s.scheduler.trackers, TrackerName);
  }

  lemma ConnectKeeps(s: Router, client: ClientId, clean: bool, will: Option<Publish>)
    requires Identified(s)
    ensures Identified(Connect(s, client, clean, will))
    ensures Subscribers(s) ==> Subscribers(Connect(s, client, clean, will))
  {
    hide Admit, Disconnect, Identified, Subscribers;
    if client in s.connectionMap {
      DisconnectKeeps(s, s.connectionMap[client]);
      DisconnectFreesName(s, client);
      AdmitKeeps(Disconnect(s, s.connectionMap[client]), client, clean, will);
    } else {
      AdmitKeeps(s, client, clean, will);
    }
  }

  lemma SetIbufSame(s: Router, id: ConnectionId, i: Incoming)
    requires id in s.ibufs.m && i.clientId == s.ibufs.m[id].clientId
    ensures SameSubscriptions(s, s.(ibufs := s.ibufs.Set(id, i)))
  {
    hide Project;
    ProjectSet(s.ibufs, id, i, IncomingName);
  }

  // State in which a batch ends, before the connection is dropped if it is to be.
  ghost function Woken(b: Batch, id: ConnectionId): Router {
    var s1 := if b.forceAck then Reschedule(b.r, id, FreshData) else b.r;
    if b.newData then WakeAll(s1) else s1
  }

  lemma WokenSame(b: Batch, id: ConnectionId)
    ensures SameSubscriptions(b.r, Woken(b, id))
  {
    hide Project, NamesOf, WakeAll, Reschedule;
    RescheduleSame(b.r, id, FreshData);
    WakeAllSame(if b.forceAck then Reschedule(b.r, id, FreshData) else b.r);
  }

  lemma DeviceDataKeeps(s: Router, id: ConnectionId)
    requires Identified(s)
    ensures Identified(DeviceData(s, id))
    ensures Subscribers(s) ==> Subscribers(DeviceData(s, id))
  {
    hide HandlePackets, WakeAll, Reschedule, Disconnect, NamesOf, Subscribers;
    if Present(s, id) {
      SetIbufSame(s, id, s.ibufs.m[id].(buffer := []));
      var b0 := Batch(TakePackets(s, id), false, false, false, None, false);
      SameSubscriptionsKeeps(s, b0.r);
      var b := HandlePackets(b0, id, s.ibufs.m[id].buffer);
      HandlePacketsSame(b0, id, s.ibufs.m[id].buffer);
      WokenSame(b, id);
      SameSubscriptionsKeeps(b.r, Woken(b, id));
      DisconnectKeeps(Woken(b, id), id);
    }
  }

  lemma PublishWillKeeps(s: Router, client: ClientId)
    requires Identified(s)
    ensures Identified(PublishWill(s, client))
    ensures Subscribers(s) ==> Subscribers(PublishWill(s, client))
  {
    hide WakeAll, NamesOf, Subscribers, AcceptPublish, Project;
    if client in s.lastWills {
      var s1 := s.(lastWills := s.lastWills - {client});
      LastWillsSame(s, s1.lastWills);
      AcceptSame(s1, s.lastWills[client]);
      WakeAllSame(AcceptPublish(s1, s.lastWills[client]));
      SameSubscriptionsKeeps(s, PublishWill(s, client));
    }
  }

  lemma StepKeeps(s: Router, e: Event)
    requires Identified(s)
    ensures Identified(Step(s, e))
    ensures Subscribers(s) ==> Subscribers(Step(s, e))
  {
    hide Connect, Disconnect, DeviceData, PublishWill, Consume, NamesOf, Subscribers, Project, Reschedule;
    match e {
      case EventConnect(client, clean, will) => ConnectKeeps(s, client, clean, will);
      case EventDeviceData(id) => DeviceDataKeeps(s, id);
      case EventDisconnect(id) => DisconnectKeeps(s, id);
      case EventPublishWill(client) => PublishWillKeeps(s, client);
      case EventConsume =>
        ConsumeSame(s);
        SameSubscriptionsKeeps(s, Consume(s).0);
      case EventReady(id) =>
        RescheduleSame(s, id, LinkReady);
        SameSubscriptionsKeeps(s, Step(s, e));
      case EventArrive(id, p) =>
        if id in s.ibufs.m {
          SetIbufSame(s, id, s.ibufs.m[id].(buffer := s.ibufs.m[id].buffer + [p]));
          SameSubscriptionsKeeps(s, Step(s, e));
        }
      case EventExchange(id) =>
        if id in s.obufs.m && s.obufs.m[id].tokens > 0 {
          SetObufSame(s, id, s.obufs.m[id].(buffer := [], tokens := s.obufs.m[id].tokens - 1));
          SameSubscriptionsKeeps(s, Step(s, e));
        }
    }
  }

  lemma InitIdentified(c: Config)
    ensures Identified(InitRouter(c)) && Subscribers(InitRouter(c))
  {
  }

  // In every run, whatever the events.
  lemma {:induction false} RunKeepsIdentity(c: Config, es: seq<Event>)
    ensures Identified(Run(InitRouter(c), es)) && Subscribers(Run(InitRouter(c), es))
    decreases |es|
  {
    hide Step, Identified, Subscribers, InitRouter;
    InitIdentified(c);
    if es != [] {
      RunKeepsIdentity(c, es[..|es| - 1]);
      StepKeeps(Run(InitRouter(c), es[..|es| - 1]), es[|es| - 1]);
    }
  }
}

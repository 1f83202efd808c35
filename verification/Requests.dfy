// Every request anywhere names an existing log and a cursor of it; a parked one has read its log to
// the end and belongs to a live connection. With this, the logs themselves keep all their invariants
// over every run of the router.
module Requests {
  import opened Types
  import opened Slabs
  import opened LogModel
  import opened DataLogModel
  import opened OutgoingModel
  import opened SchedulerModel
  import opened RouterModel
  import opened Frames
  import opened Parking
  import opened Identity

  ghost predicate ReqOk(dl: DataLog, r: DataRequest) {
    && r.filterIdx < |dl.native|
    && dl.native[r.filterIdx].filter == r.filter
    && dl.native[r.filterIdx].log.CursorOk(r.cursor)
  }

  ghost predicate AllOk(dl: DataLog, rs: seq<DataRequest>) {
    forall r :: r in rs ==> ReqOk(dl, r)
  }

  ghost predicate TrackedOk(dl: DataLog, t: Slab<Tracker>) {
    forall id :: id in t.m ==> AllOk(dl, t.m[id].requests)
  }

  ghost predicate SavedOk(dl: DataLog, g: map<ClientId, Option<Session>>) {
    forall c :: c in g && g[c].Some? ==> AllOk(dl, g[c].value.tracker.requests)
  }

  ghost predicate WokenOk(dl: DataLog, live: set<ConnectionId>, ns: seq<Waiter>) {
    forall w :: w in ns ==> ReqOk(dl, w.1) && w.0 in live
  }

  // Whether a reader is ever given a slot: all but QoS 0 readers of a broker configured with none.
  predicate CanRead(c: Config, r: DataRequest) {
    r.qos != AtMostOnce || c.maxOutgoingPacketCount > 0
  }

  // A request parked on a log: nothing in the log lies beyond its cursor.
  ghost predicate ParkedAt(dl: DataLog, live: set<ConnectionId>, i: FilterIdx)
    requires i < |dl.native|
  {
    forall w :: w in dl.native[i].waiters ==>
      && w.0 in live
      && w.1.filterIdx == i
      && w.1.filter == dl.native[i].filter
      && dl.native[i].log.CursorOk(w.1.cursor)
      && (CanRead(dl.config, w.1) ==> w.1.cursor == dl.native[i].log.NextOffset())
  }

  ghost predicate ParkedOk(dl: DataLog, live: set<ConnectionId>) {
    forall i: nat :: i < |dl.native| ==> ParkedAt(dl, live, i)
  }

  ghost predicate EntryOk(dl: DataLog, e: Inflight) {
    e.cursor.Some? ==> e.filterIdx < |dl.native| && dl.native[e.filterIdx].log.CursorOk(e.cursor.value)
  }

  ghost predicate SentOk(dl: DataLog, b: Slab<Outgoing>) {
    forall id, e :: id in b.m && e in b.m[id].inflight ==> EntryOk(dl, e)
  }

  ghost predicate HeldOk(dl: DataLog, t: Slab<Tracker>, g: map<ClientId, Option<Session>>, ns: seq<Waiter>,
                         b: Slab<Outgoing>) {
    TrackedOk(dl, t) && SavedOk(dl, g) && WokenOk(dl, t.m.Keys, ns) && SentOk(dl, b)
  }

  ghost predicate RequestsOk(s: Router) {
    && DataLogOk(s.datalog)
    && HeldOk(s.datalog, s.scheduler.trackers, s.graveyard, s.notifications, s.obufs)
    && ParkedOk(s.datalog, s.scheduler.trackers.m.Keys)
  }

  // ---------------------------------------------------------------------------------------------
  // Changes to the logs

  lemma ReqGrows(a: DataLog, b: DataLog)
    requires Grows(a, b)
    ensures forall r :: ReqOk(a, r) ==> ReqOk(b, r)
    ensures forall e :: EntryOk(a, e) ==> EntryOk(b, e)
  {
    hide Log.CursorOk;
  }

  lemma HeldGrows(a: DataLog, b: DataLog, t: Slab<Tracker>, g: map<ClientId, Option<Session>>, ns: seq<Waiter>,
                  o: Slab<Outgoing>)
    requires Grows(a, b) && HeldOk(a, t, g, ns, o)
    ensures HeldOk(b, t, g, ns, o)
  {
    hide ReqOk, EntryOk, Grows;
    ReqGrows(a, b);
  }

  lemma RegisterParked(dl: DataLog, live: set<ConnectionId>, f: Filter)
    requires ParkedOk(dl, live)
    ensures ParkedOk(Register(dl, f), live)
  {
    hide Extend, Limits;
    var b := Register(dl, f);
    forall i: nat | i < |b.native|
      ensures ParkedAt(b, live, i)
    {
      assert i < |dl.native| ==> ParkedAt(dl, live, i);
    }
  }

  lemma AcceptParked(dl: DataLog, live: set<ConnectionId>, p: Publish)
    requires CacheOk(dl) && ParkedOk(dl, live)
    ensures ParkedOk(Accept(dl, p).0, live)
  {
    hide Accept, CacheOk, Log.Append, Log.NextOffset, Log.CursorOk;
    AcceptEach(dl, p);
    AcceptFrame(dl, p);
    var b := Accept(dl, p).0;
    forall i: nat | i < |b.native|
      ensures ParkedAt(b, live, i)
    {
      assert ParkedAt(dl, live, i);
    }
  }

  lemma AcceptWoken(dl: DataLog, live: set<ConnectionId>, p: Publish)
    requires DataLogOk(dl) && ParkedOk(dl, live)
    ensures WokenOk(dl, live, Accept(dl, p).1)
  {
    hide Log.Append, Lookup, DataLogOk, AppendAll;
    var q := p.(retain := false);
    AppendAllWakes(dl.native, MatchingFilters(dl, q.topic), q);
    forall w | w in Accept(dl, p).1
      ensures ReqOk(dl, w.1) && w.0 in live
    {
      var i :| 0 <= i < |dl.native| && w in dl.native[i].waiters;
      assert ParkedAt(dl, live, i);
    }
  }

  lemma AcceptPublishRequests(s: Router, p: Publish)
    requires RequestsOk(s)
    ensures RequestsOk(AcceptPublish(s, p))
  {
    hide Accept, DataLogOk, ParkedOk, TrackedOk, SavedOk, SentOk, ReqOk, Grows;
    var dl, live := s.datalog, s.scheduler.trackers.m.Keys;
    AcceptKeeps(dl, p);
    AcceptGrows(dl, p);
    AcceptParkedOk(dl, live, p);
    AcceptWoken(dl, live, p);
    HeldGrows(dl, Accept(dl, p).0, s.scheduler.trackers, s.graveyard, s.notifications, s.obufs);
    ReqGrows(dl, Accept(dl, p).0);
  }

  lemma AcceptParkedOk(dl: DataLog, live: set<ConnectionId>, p: Publish)
    requires DataLogOk(dl) && ParkedOk(dl, live)
    ensures ParkedOk(Accept(dl, p).0, live)
  {
    hide Accept, ParkedOk, LogsOk, RegistryOk, FanOut;
    AcceptParked(dl, live, p);
  }

  // Replacing the logs by ones that differ only in what is parked.
  lemma SwapLogs(s: Router, b: DataLog)
    requires RequestsOk(s) && SameLogs(s.datalog, b) && ParkedOk(b, s.scheduler.trackers.m.Keys)
    ensures RequestsOk(s.(datalog := b))
  {
    hide DataLogOk, ParkedOk, HeldOk, Grows, SameLogs;
    SameLogsOk(s.datalog, b);
    SameLogsGrows(s.datalog, b);
    HeldGrows(s.datalog, b, s.scheduler.trackers, s.graveyard, s.notifications, s.obufs);
  }

  // ---------------------------------------------------------------------------------------------
  // Changes to a tracker

  lemma RescheduleRequests(s: Router, id: ConnectionId, why: ScheduleReason)
    requires RequestsOk(s)
    ensures RequestsOk(Reschedule(s, id, why))
  {
    hide DataLogOk, ParkedOk, SavedOk, SentOk, WokenOk, AllOk, Awakens;
    assert Reschedule(s, id, why).scheduler.trackers.m.Keys == s.scheduler.trackers.m.Keys;
  }

  lemma PauseRequests(s: Router, id: ConnectionId, why: PauseReason)
    requires RequestsOk(s)
    ensures RequestsOk(Pause(s, id, why))
  {
    hide DataLogOk, ParkedOk, SavedOk, SentOk, WokenOk, AllOk;
    assert Pause(s, id, why).scheduler.trackers.m.Keys == s.scheduler.trackers.m.Keys;
  }

  lemma SetRequestsRequests(s: Router, id: ConnectionId, rs: seq<DataRequest>)
    requires RequestsOk(s) && id in s.scheduler.trackers.m && AllOk(s.datalog, rs)
    ensures RequestsOk(SetRequests(s, id, rs))
  {
    hide DataLogOk, ParkedOk, SavedOk, SentOk, WokenOk, AllOk;
    assert SetRequests(s, id, rs).scheduler.trackers.m.Keys == s.scheduler.trackers.m.Keys;
  }

  lemma TrackedAt(s: Router, id: ConnectionId)
    requires RequestsOk(s) && id in s.scheduler.trackers.m
    ensures AllOk(s.datalog, s.scheduler.trackers.m[id].requests)
  {
    hide DataLogOk, ParkedOk, SavedOk, SentOk, WokenOk, AllOk;
  }

  lemma WakeRequests(s: Router)
    requires RequestsOk(s) && s.notifications != []
    ensures RequestsOk(Wake(s, s.notifications[0]).(notifications := s.notifications[1..]))
  {
    hide DataLogOk, ParkedOk, SavedOk, SentOk, TrackedOk, ReqOk, SetRequests, Scheduler.Reschedule;
    var w := s.notifications[0];
    assert w in s.notifications;
    var s1 := s.(notifications := s.notifications[1..]);
    assert RequestsOk(s1);
    var rs := s.scheduler.trackers.m[w.0].requests;
    TrackedAt(s, w.0);
    assert AllOk(s.datalog, rs + [w.1]);
    SetRequestsRequests(s1, w.0, rs + [w.1]);
    TrackIsSet(s1, w.0, w.1);
    RescheduleRequests(SetRequests(s1, w.0, rs + [w.1]), w.0, FreshData);
  }

  lemma TrackIsSet(s: Router, id: ConnectionId, r: DataRequest)
    requires id in s.scheduler.trackers.m
    ensures SetRequests(s, id, s.scheduler.trackers.m[id].requests + [r]) == s.(scheduler := s.scheduler.Track(id, r))
  {
  }

  lemma {:induction false} WakeAllRequests(s: Router)
    requires RequestsOk(s)
    ensures RequestsOk(WakeAll(s)) && WakeAll(s).notifications == []
    decreases |s.notifications|
  {
    hide RequestsOk, Wake;
    if s.notifications != [] {
      WakeRequests(s);
      WakeAllRequests(Wake(s, s.notifications[0]).(notifications := s.notifications[1..]));
    }
  }

  // ---------------------------------------------------------------------------------------------
  // Packets

  // Only the pieces the invariant speaks about matter.
  lemma RequestsFrame(s: Router, t: Router)
    requires RequestsOk(s)
    requires t.datalog == s.datalog && t.scheduler.trackers == s.scheduler.trackers && t.graveyard == s.graveyard
    requires t.notifications == s.notifications && t.obufs == s.obufs
    ensures RequestsOk(t)
  {
  }

  lemma AppendRequests(b: Batch, id: ConnectionId, p: Publish, props: Props, report: bool)
    requires Present(b.r, id) && RequestsOk(b.r)
    ensures RequestsOk(AppendToCommitlog(b, id, p, props, report).r)
  {
    hide RequestsOk, Resolve, AcceptPublish;
    var c := b.r.connections.m[id];
    var t := Resolve(c.topicAliases, p, props);
    if t.0.Some? {
      var s := b.r.(connections := b.r.connections.Set(id, c.(topicAliases := t.1)));
      RequestsFrame(b.r, s);
      AcceptPublishRequests(s, p.(topic := t.0.value));
    }
  }

  lemma SetObufRequests(s: Router, id: ConnectionId, o: Outgoing)
    requires RequestsOk(s) && id in s.obufs.m
    requires forall e :: e in o.inflight ==> e in s.obufs.m[id].inflight || EntryOk(s.datalog, e)
    ensures RequestsOk(s.(obufs := s.obufs.Set(id, o)))
  {
    hide DataLogOk, ParkedOk, SavedOk, TrackedOk, WokenOk, EntryOk;
  }

  lemma RegisterAckRequests(s: Router, id: ConnectionId, pkid: nat)
    requires Present(s, id) && RequestsOk(s)
    ensures RequestsOk(RegisterAck(s, id, pkid))
    ensures Present(RegisterAck(s, id, pkid), id)
  {
    hide RequestsOk, Settle;
    SetObufRequests(s, id, s.obufs.m[id].RegisterAck(pkid).0);
    RequestsFrame(s.(obufs := s.obufs.Set(id, s.obufs.m[id].RegisterAck(pkid).0)), RegisterAck(s, id, pkid));
  }

  lemma HandlePublishRequests(b: Batch, id: ConnectionId, p: Publish, props: Props)
    requires Present(b.r, id) && RequestsOk(b.r)
    ensures RequestsOk(HandlePublish(b, id, p, props).r)
  {
    hide RequestsOk, AppendToCommitlog;
    var b1 := b.(r := Commit(b.r, id, PubAck(p.pkid)), forceAck := true);
    match p.qos {
      case ExactlyOnce => RequestsFrame(b.r, HandlePublish(b, id, p, props).r);
      case AtLeastOnce =>
        RequestsFrame(b.r, b1.r);
        AppendRequests(b1, id, p, props, true);
      case AtMostOnce => AppendRequests(b, id, p, props, true);
    }
  }

  lemma HandlePubAckRequests(b: Batch, id: ConnectionId, pkid: nat)
    requires Present(b.r, id) && RequestsOk(b.r)
    ensures RequestsOk(HandlePubAck(b, id, pkid).r)
  {
    hide RequestsOk, RegisterAck, Reschedule, Outgoing.RegisterAck;
    RegisterAckRequests(b.r, id, pkid);
    RescheduleRequests(RegisterAck(b.r, id, pkid), id, IncomingAck);
  }

  lemma HandlePubRecRequests(b: Batch, id: ConnectionId, pkid: nat)
    requires Present(b.r, id) && RequestsOk(b.r)
    ensures RequestsOk(HandlePubRec(b, id, pkid).r)
  {
    hide RequestsOk, RegisterAck, Reschedule, Outgoing.RegisterAck;
    RegisterAckRequests(b.r, id, pkid);
    var s := RegisterAck(b.r, id, pkid);
    var s1 := s.(obufs := s.obufs.Set(id, s.obufs.m[id].RegisterPubRec(pkid)));
    SetObufRequests(s, id, s.obufs.m[id].RegisterPubRec(pkid));
    RequestsFrame(s1, Commit(s1, id, PubRel(pkid)));
    RescheduleRequests(Commit(s1, id, PubRel(pkid)), id, IncomingAck);
  }

  lemma HandlePubCompRequests(b: Batch, id: ConnectionId, pkid: nat)
    requires Present(b.r, id) && RequestsOk(b.r)
    ensures RequestsOk(HandlePubComp(b, id, pkid).r)
  {
    hide RequestsOk;
    SetObufRequests(b.r, id, b.r.obufs.m[id].RegisterPubComp(pkid).0);
  }

  lemma HandlePubRelRequests(b: Batch, id: ConnectionId, pkid: nat)
    requires Present(b.r, id) && RequestsOk(b.r)
    ensures RequestsOk(HandlePubRel(b, id, pkid).r)
  {
    hide RequestsOk, AppendToCommitlog, Reschedule;
    var a := b.r.ackslog.m[id].Release(pkid);
    var b1 := b.(r := b.r.(ackslog := b.r.ackslog.Set(id, a.0)));
    RequestsFrame(b.r, b1.r);
    if a.1.Some? {
      AppendRequests(b1, id, a.1.value.0, a.1.value.1, false);
      RescheduleRequests(AppendToCommitlog(b1, id, a.1.value.0, a.1.value.1, false).r, id, IncomingAck);
    }
  }

  lemma RegisterRequests(s: Router, path: Filter)
    requires RequestsOk(s)
    ensures RequestsOk(s.(datalog := Register(s.datalog, path)))
    ensures var dl := Register(s.datalog, path);
            var i := IndexOf(dl, path);
            && i < |dl.native| && dl.native[i].filter == path
            && dl.native[i].log.CursorOk(dl.native[i].log.NextOffset())
  {
    hide HeldOk, ParkedOk, Register, LogsOk, CacheOk, FanOut, RegistryOk, Log.CursorOk, Grows;
    var dl := Register(s.datalog, path);
    RegisterKeeps(s.datalog, path);
    RegisterGrows(s.datalog, path);
    RegisterParked(s.datalog, s.scheduler.trackers.m.Keys, path);
    HeldGrows(s.datalog, dl, s.scheduler.trackers, s.graveyard, s.notifications, s.obufs);
    NextIsCursor(dl, IndexOf(dl, path));
  }

  lemma NextIsCursor(dl: DataLog, i: FilterIdx)
    requires DataLogOk(dl) && i < |dl.native|
    ensures dl.native[i].log.CursorOk(dl.native[i].log.NextOffset())
    ensures dl.native[i].log.WellFormed()
  {
    hide CacheOk, FanOut, RegistryOk;
    RetainedForm(dl.native[i].log);
    WhereIsOk(dl.native[i].log, |dl.native[i].log.history|);
  }

  lemma SubscribeOneRequests(s: Router, id: ConnectionId, path: Filter, qos: QoS)
    requires Present(s, id) && RequestsOk(s)
    ensures RequestsOk(SubscribeOne(s, id, path, qos))
  {
    hide RequestsOk, Register, IndexOf, AddSubscriber, SetRequests, Scheduler.Reschedule, Scheduler.Track,
      Log.NextOffset, Log.CursorOk, SubscribeOne;
    RegisterRequests(s, path);
    var dl := Register(s.datalog, path);
    var i := IndexOf(dl, path);
    var c := s.connections.m[id];
    var s1 := s.(datalog := dl);
    var r := DataRequest(path, i, qos, dl.native[i].log.NextOffset(), 0, true);
    var rs := s.scheduler.trackers.m[id].requests;
    TrackedAt(s1, id);
    assert AllOk(dl, rs + [r]);
    SetRequestsRequests(s1, id, rs + [r]);
    RescheduleRequests(SetRequests(s1, id, rs + [r]), id, NewFilter);
    TrackIsSet(s1, id, r);
    SubscribeOneShape(s, id, path, qos);
    if path in c.subscriptions {
      RequestsFrame(s1, SubscribeOne(s, id, path, qos));
    } else {
      RequestsFrame(Reschedule(SetRequests(s1, id, rs + [r]), id, NewFilter), SubscribeOne(s, id, path, qos));
    }
  }

  lemma SubscribeOneShape(s: Router, id: ConnectionId, path: Filter, qos: QoS)
    requires Present(s, id)
    ensures var dl := Register(s.datalog, path);
            var i := IndexOf(dl, path);
            var cursor := if i < |dl.native| then dl.native[i].log.NextOffset() else Cursor(0, 0);
            var t := SubscribeOne(s, id, path, qos);
            && t.datalog == dl && t.graveyard == s.graveyard && t.notifications == s.notifications && t.obufs == s.obufs
            && t.scheduler == if path in s.connections.m[id].subscriptions then s.scheduler
                              else Reschedule(s.(scheduler := s.scheduler.Track(id,
                                  DataRequest(path, i, qos, cursor, 0, true))), id, NewFilter).scheduler
  {
    hide Register, IndexOf, AddSubscriber, Scheduler.Track, Scheduler.Reschedule, Log.NextOffset;
  }

  lemma {:induction false} SubscribeAllRequests(b: Batch, id: ConnectionId, filters: seq<(Filter, QoS)>,
                                                subId: Option<nat>)
    requires RequestsOk(b.r)
    ensures RequestsOk(SubscribeAll(b, id, filters, subId).0.r)
    decreases |filters|
  {
    hide SubscribeOne, RequestsOk;
    if filters != [] && Present(b.r, id) {
      SubscribeOneRequests(b.r, id, filters[0].0, filters[0].1);
      SubscribeAllRequests(b.(r := SubscribeOne(b.r, id, filters[0].0, filters[0].1)), id, filters[1..], subId);
    }
  }

  lemma {:induction false} WithoutFilterIs(rs: seq<DataRequest>, f: Filter)
    ensures forall r :: r in WithoutFilter(rs, f) ==> r in rs && r.filter != f
  {
    if rs != [] {
      WithoutFilterIs(rs[..|rs| - 1], f);
    }
  }

  lemma LeaveRequests(s: Router, id: ConnectionId, path: Filter)
    requires Present(s, id) && RequestsOk(s)
    ensures RequestsOk(Leave(s, id, path))
  {
    hide RequestsOk, RemoveWaiter, WithoutFilter, SetRequests, SameLogs;
    var rs := WithoutFilter(s.scheduler.trackers.m[id].requests, path);
    WithoutFilterIs(s.scheduler.trackers.m[id].requests, path);
    TrackedAt(s, id);
    SetRequestsRequests(s, id, rs);
    var s1 := SetRequests(s, id, rs);
    LeaveShape(s, id, path);
    RemoveWaiterParked(s1, id, path);
    SwapLogs(s1, RemoveWaiter(s.datalog, id, path));
    RequestsFrame(s1.(datalog := RemoveWaiter(s.datalog, id, path)), Leave(s, id, path));
  }

  lemma LeaveShape(s: Router, id: ConnectionId, path: Filter)
    requires Present(s, id)
    ensures var t, s1 := Leave(s, id, path),
            SetRequests(s, id, WithoutFilter(s.scheduler.trackers.m[id].requests, path));
            && t.datalog == RemoveWaiter(s.datalog, id, path) && t.graveyard == s.graveyard
            && t.notifications == s.notifications && t.obufs == s.obufs && t.scheduler == s1.scheduler
              && s1 == s.(scheduler := s1.scheduler)
  {
    hide RemoveWaiter, WithoutFilter;
  }

  lemma RemoveWaiterParked(s: Router, id: ConnectionId, path: Filter)
    requires RequestsOk(s)
    ensures SameLogs(s.datalog, RemoveWaiter(s.datalog, id, path))
    ensures ParkedOk(RemoveWaiter(s.datalog, id, path), s.scheduler.trackers.m.Keys)
  {
    hide DataLogOk, HeldOk, RemoveWaiter, Log.NextOffset;
    var dl, b := s.datalog, RemoveWaiter(s.datalog, id, path);
    RemoveWaiterIs(dl, id, path);
    forall i: nat | i < |b.native|
      ensures ParkedAt(b, s.scheduler.trackers.m.Keys, i)
    {
      assert ParkedAt(dl, s.scheduler.trackers.m.Keys, i);
    }
  }

  lemma UnsubscribeOneRequests(b: Batch, id: ConnectionId, pkid: nat, path: Filter)
    requires Present(b.r, id) && RequestsOk(b.r)
    ensures RequestsOk(UnsubscribeOne(b, id, pkid, path).r)
  {
    hide RequestsOk, Leave;
    if path in b.r.subscriptionMap {
      var s := b.r.(subscriptionMap := b.r.subscriptionMap[path := b.r.subscriptionMap[path] - {id}]);
      RequestsFrame(b.r, s);
      LeaveRequests(s, id, path);
      LeaveFrame(s, id, path);
      RequestsFrame(Leave(s, id, path), Commit(Leave(s, id, path), id, UnsubAck(pkid)));
    }
  }

  lemma {:induction false} UnsubscribeAllRequests(b: Batch, id: ConnectionId, pkid: nat, paths: seq<Filter>)
    requires RequestsOk(b.r)
    ensures RequestsOk(UnsubscribeAll(b, id, pkid, paths).r)
    decreases |paths|
  {
    hide UnsubscribeOne, RequestsOk;
    if paths != [] && Present(b.r, id) {
      UnsubscribeOneRequests(b, id, pkid, paths[0]);
      UnsubscribeAllRequests(UnsubscribeOne(b, id, pkid, paths[0]), id, pkid, paths[1..]);
    }
  }

  lemma HandlePacketRequests(b: Batch, id: ConnectionId, p: Packet)
    requires Present(b.r, id) && RequestsOk(b.r)
    ensures RequestsOk(HandlePacket(b, id, p).r)
  {
    hide RequestsOk, SubscribeAll, UnsubscribeAll, HandlePublish, HandlePubAck, HandlePubRec, HandlePubComp,
      HandlePubRel;
    match p {
      case PacketPublish(publish, props) => HandlePublishRequests(b, id, publish, props);
      case PacketSubscribe(pkid, filters, subId) =>
        var r := SubscribeAll(b, id, filters, subId).0.r;
        SubscribeAllRequests(b, id, filters, subId);
        RequestsFrame(r, HandlePacket(b, id, p).r);
      case PacketUnsubscribe(pkid, paths) => UnsubscribeAllRequests(b, id, pkid, paths);
      case PacketPubAck(pkid) => HandlePubAckRequests(b, id, pkid);
      case PacketPubRec(pkid) => HandlePubRecRequests(b, id, pkid);
      case PacketPubComp(pkid) => HandlePubCompRequests(b, id, pkid);
      case PacketPubRel(pkid, _) => HandlePubRelRequests(b, id, pkid);
      case _ => RequestsFrame(b.r, HandlePacket(b, id, p).r);
    }
  }

  lemma {:induction false} HandlePacketsRequests(b: Batch, id: ConnectionId, packets: seq<Packet>)
    requires RequestsOk(b.r)
    ensures RequestsOk(HandlePackets(b, id, packets).r)
    decreases |packets|
  {
    hide HandlePacket, RequestsOk;
    if packets != [] && !b.stop && Present(b.r, id) {
      HandlePacketRequests(b, id, packets[0]);
      HandlePacketsRequests(HandlePacket(b, id, packets[0]), id, packets[1..]);
    }
  }

  // Woken requests are only ever held back within a batch that is going to release them.
  ghost predicate Flagged(b: Batch) {
    b.r.notifications != [] ==> b.newData
  }

  lemma AppendFlagged(b: Batch, id: ConnectionId, p: Publish, props: Props, report: bool)
    requires Present(b.r, id) && Flagged(b)
    ensures Flagged(AppendToCommitlog(b, id, p, props, report))
  {
    hide AcceptPublish, Resolve;
  }

  lemma HandlePublishFlagged(b: Batch, id: ConnectionId, p: Publish, props: Props)
    requires Present(b.r, id) && Flagged(b)
    ensures Flagged(HandlePublish(b, id, p, props))
  {
    hide AppendToCommitlog;
    AppendFlagged(b, id, p, props, true);
    if p.qos == AtLeastOnce {
      AppendFlagged(b.(r := Commit(b.r, id, PubAck(p.pkid)), forceAck := true), id, p, props, true);
    }
  }

  lemma HandlePubRelFlagged(b: Batch, id: ConnectionId, pkid: nat)
    requires Present(b.r, id) && Flagged(b)
    ensures Flagged(HandlePubRel(b, id, pkid))
  {
    hide AppendToCommitlog, Scheduler.Reschedule;
    var a := b.r.ackslog.m[id].Release(pkid);
    if a.1.Some? {
      AppendFlagged(b.(r := b.r.(ackslog := b.r.ackslog.Set(id, a.0))), id, a.1.value.0, a.1.value.1, false);
    }
  }

  lemma HandleAcksFlagged(b: Batch, id: ConnectionId, pkid: nat)
    requires Present(b.r, id)
    ensures HandlePubAck(b, id, pkid).r.notifications == b.r.notifications
            && HandlePubAck(b, id, pkid).newData == b.newData
    ensures HandlePubRec(b, id, pkid).r.notifications == b.r.notifications
            && HandlePubRec(b, id, pkid).newData == b.newData
  {
    hide RegisterAck, Outgoing.RegisterAck, Outgoing.RegisterPubRec, Scheduler.Reschedule;
    RegisterAckFrame(b.r, id, pkid);
  }

  lemma HandlePacketFlagged(b: Batch, id: ConnectionId, p: Packet)
    requires Present(b.r, id) && Flagged(b)
    ensures Flagged(HandlePacket(b, id, p))
  {
    hide SubscribeAll, UnsubscribeAll, HandlePublish, HandlePubAck, HandlePubRec, HandlePubRel;
    match p {
      case PacketPublish(publish, props) => HandlePublishFlagged(b, id, publish, props);
      case PacketSubscribe(pkid, filters, subId) => SubscribeAllFrame(b, id, filters, subId);
      case PacketUnsubscribe(pkid, paths) => UnsubscribeAllFrame(b, id, pkid, paths);
      case PacketPubAck(pkid) => HandleAcksFlagged(b, id, pkid);
      case PacketPubRec(pkid) => HandleAcksFlagged(b, id, pkid);
      case PacketPubRel(pkid, _) => HandlePubRelFlagged(b, id, pkid);
      case _ =>
    }
  }

  lemma {:induction false} HandlePacketsFlagged(b: Batch, id: ConnectionId, packets: seq<Packet>)
    requires Flagged(b)
    ensures Flagged(HandlePackets(b, id, packets))
    decreases |packets|
  {
    hide HandlePacket, Flagged;
    if packets != [] && !b.stop && Present(b.r, id) {
      HandlePacketFlagged(b, id, packets[0]);
      HandlePacketsFlagged(HandlePacket(b, id, packets[0]), id, packets[1..]);
    }
  }
}

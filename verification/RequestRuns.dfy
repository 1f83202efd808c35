// Requests over whole runs: consuming, disconnecting, connecting, and every event in between.
module RequestRuns {
  import opened Types
  import opened Slabs
  import opened LogModel
  import opened DataLogModel
  import opened OutgoingModel
  import opened SchedulerModel
  import opened RouterModel
  import opened Parking
  import opened Forwarding
  import opened Window
  import opened Identity
  import opened Queue
  import opened Requests

  // ---------------------------------------------------------------------------------------------
  // Consuming

  lemma ReadableRequest(dl: DataLog, r: DataRequest)
    requires DataLogOk(dl) && ReqOk(dl, r)
    ensures Readable(dl, r)
  {
    hide CacheOk, FanOut, RegistryOk, Log.CursorOk;
    RetainedForm(dl.native[r.filterIdx].log);
  }

  lemma ForwardEntries(dl: DataLog, o: Outgoing, r: DataRequest)
    requires Readable(dl, r) && WindowOk(o)
    ensures forall e :: e in ForwardData(dl, o, r).0.inflight ==> e in o.inflight || EntryOk(dl, e)
  {
    hide ForwardData, RetainedCount, WindowOk, Log.Where, Log.CursorOk;
    var l, q, lo := dl.native[r.filterIdx].log, ForwardData(dl, o, r).0.inflight,
        From(dl.native[r.filterIdx].log, r.cursor);
    ForwardFills(dl, o, r);
    ForwardMoves(dl, o, r);
    forall i | 0 <= i < |q|
      ensures q[i] in o.inflight || EntryOk(dl, q[i])
    {
      var w := |o.inflight| + RetainedCount(dl, o, r);
      if i < |o.inflight| {
        assert q[i] == q[..|o.inflight|][i];
      } else if q != o.inflight && w <= i {
        EndWithin(l, ForwardData(dl, o, r).1.cursor);
        WhereIsOk(l, lo + (i - w));
      }
    }
  }

  lemma EndWithin(l: Log, c: Cursor)
    requires l.WellFormed() && l.CursorOk(c)
    ensures c.offset <= |l.history|
  {
  }

  lemma ConsumeOneRequests(s: Router, id: ConnectionId)
    requires Present(s, id) && s.scheduler.trackers.m[id].requests != []
    requires RequestsOk(s) && WindowOk(s.obufs.m[id])
    ensures RequestsOk(ConsumeOne(s, id).0)
  {
    hide RequestsOk, ForwardData, Forwarded, SetRequests, Pause, Park, ReqOk, Readable, EntryOk, WindowOk, Log.CursorOk;
    var t := s.scheduler.trackers.m[id];
    var r, rest := t.requests[0], t.requests[1..];
    var f := ForwardData(s.datalog, s.obufs.m[id], r);
    TrackedAt(s, id);
    RequestsLogs(s);
    ReadableRequest(s.datalog, r);
    ForwardMovesOk(s.datalog, s.obufs.m[id], r);
    ForwardEntries(s.datalog, s.obufs.m[id], r);
    ForwardedRequests(s, id, r, f.0);
    var s2 := if f.2 == ConsumeStatus.InflightFull then s else Forwarded(s, id, r, f.0);
    var rs := if f.2 == FilterCaughtup then rest else rest + [f.1];
    SetRequestsRequests(s2, id, rs);
    PauseRequests(SetRequests(s2, id, rs), id, if f.2 == BufferFull then Busy else PauseReason.InflightFull);
    if f.2 == FilterCaughtup {
      ParkShape(s2, id, rs);
      ParkRequests(SetRequests(s2, id, rs), id, f.1);
    }
  }

  lemma ForwardedRequests(s: Router, id: ConnectionId, r: DataRequest, o: Outgoing)
    requires Present(s, id) && RequestsOk(s)
    requires forall e :: e in o.inflight ==> e in s.obufs.m[id].inflight || EntryOk(s.datalog, e)
    ensures var t := Forwarded(s, id, r, o);
            RequestsOk(t) && Present(t, id) && t.datalog == s.datalog && t.scheduler == s.scheduler
  {
    hide RequestsOk, Skip, EntryOk;
    SetObufRequests(s, id, o);
    RequestsFrame(s.(obufs := s.obufs.Set(id, o)), Forwarded(s, id, r, o));
  }

  lemma ParkShape(s: Router, id: ConnectionId, rs: seq<DataRequest>)
    requires Present(s, id)
    ensures SetRequests(s, id, rs).datalog == s.datalog
    ensures id in SetRequests(s, id, rs).scheduler.trackers.m
  {
  }

  lemma RequestsLogs(s: Router)
    requires RequestsOk(s)
    ensures DataLogOk(s.datalog)
  {
  }

  lemma ForwardMovesOk(dl: DataLog, o: Outgoing, r: DataRequest)
    requires Readable(dl, r) && ReqOk(dl, r)
    ensures var f := ForwardData(dl, o, r);
            && ReqOk(dl, f.1)
            && (f.2 == FilterCaughtup && CanRead(dl.config, f.1) ==>
                  f.1.cursor == dl.native[f.1.filterIdx].log.NextOffset())
  {
    hide ForwardData, Log.CursorOk, Log.NextOffset;
    ForwardMoves(dl, o, r);
  }

  lemma ParkRequests(s: Router, id: ConnectionId, r: DataRequest)
    requires RequestsOk(s) && id in s.scheduler.trackers.m && ReqOk(s.datalog, r)
    requires CanRead(s.datalog.config, r) ==> r.cursor == s.datalog.native[r.filterIdx].log.NextOffset()
    ensures RequestsOk(s.(datalog := Park(s.datalog, id, r)))
  {
    hide DataLogOk, HeldOk, Park, Log.NextOffset, Log.CursorOk;
    var dl, b := s.datalog, Park(s.datalog, id, r);
    ParkIs(dl, id, r);
    forall i: nat | i < |b.native|
      ensures ParkedAt(b, s.scheduler.trackers.m.Keys, i)
    {
      assert ParkedAt(dl, s.scheduler.trackers.m.Keys, i);
    }
    SwapLogs(s, b);
  }

  lemma {:induction false} ConsumeLoopRequests(s: Router, id: ConnectionId, n: nat)
    requires RequestsOk(s) && Windows(s.obufs)
    ensures RequestsOk(ConsumeLoop(s, id, n))
    decreases n
  {
    hide ConsumeOne, Pause, RequestsOk, WindowOk, Windows;
    if n > 0 && Present(s, id) {
      if s.scheduler.trackers.m[id].requests == [] {
        PauseRequests(s, id, Caughtup);
      } else {
        WindowsAt(s.obufs, id);
        ConsumeOneRequests(s, id);
        ConsumeOneWindow(s, id);
        if ConsumeOne(s, id).1 {
          ConsumeLoopRequests(ConsumeOne(s, id).0, id, n - 1);
        }
      }
    }
  }

  lemma SendAcksRequests(s: Router, id: ConnectionId)
    requires Present(s, id) && RequestsOk(s) && Windows(s.obufs)
    ensures RequestsOk(SendAcks(s, id)) && Windows(SendAcks(s, id).obufs)
  {
    hide RequestsOk, DeviceAcks;
    var o := s.obufs.m[id].(buffer := s.obufs.m[id].buffer + DeviceAcks(s.ackslog.m[id].committed)).Notify();
    SetObufRequests(s, id, o);
    RequestsFrame(s.(obufs := s.obufs.Set(id, o)), s.(obufs := s.obufs.Set(id, o), ackslog := SendAcks(s, id).ackslog));
  }

  lemma ConsumeRequests(s: Router)
    requires RequestsOk(s) && Windows(s.obufs)
    ensures RequestsOk(Consume(s).0)
  {
    hide RequestsOk, ConsumeLoop, SendAcks, Windows;
    if s.scheduler.readyqueue != [] {
      var id := s.scheduler.readyqueue[0];
      var s1 := s.(scheduler := s.scheduler.Rotate());
      RequestsFrame(s, s1);
      if Present(s1, id) {
        SendAcksRequests(s1, id);
        ConsumeLoopRequests(SendAcks(s1, id), id, MAX_SCHEDULE_ITERATIONS);
      }
    }
  }

  // ---------------------------------------------------------------------------------------------
  // Coming and going

  lemma {:induction false} RetransmissionsHeld(inflight: seq<Inflight>, idx: FilterIdx)
    requires idx in Retransmissions(inflight)
    ensures exists e :: e in inflight && e.filterIdx == idx && e.cursor == Some(Retransmissions(inflight)[idx])
  {
    var e := inflight[|inflight| - 1];
    if idx in Retransmissions(inflight[..|inflight| - 1]) {
      RetransmissionsHeld(inflight[..|inflight| - 1], idx);
    } else {
      assert e in inflight && e.filterIdx == idx;
    }
  }

  lemma RewindOk(dl: DataLog, r: DataRequest, inflight: seq<Inflight>)
    requires ReqOk(dl, r) && forall e :: e in inflight ==> EntryOk(dl, e)
    ensures ReqOk(dl, Rewind(r, Retransmissions(inflight)))
  {
    hide Retransmissions, Log.CursorOk;
    if r.filterIdx in Retransmissions(inflight) {
      RetransmissionsHeld(inflight, r.filterIdx);
    }
  }

  // The requests a persistent session keeps.
  lemma SavedRequests(s: Router, id: ConnectionId)
    requires Present(s, id) && RequestsOk(s)
    ensures AllOk(s.datalog,
                  RewindAll(s.scheduler.trackers.m[id].requests + Clean(s.datalog, id).1,
                            Retransmissions(s.obufs.m[id].inflight)))
  {
    hide DataLogOk, Clean, Retransmissions, Rewind, ReqOk, EntryOk;
    var rs, q := s.scheduler.trackers.m[id].requests + Clean(s.datalog, id).1, s.obufs.m[id].inflight;
    TrackedAt(s, id);
    CleanedOk(s, id);
    forall r | r in rs
      ensures ReqOk(s.datalog, Rewind(r, Retransmissions(q)))
    {
      RewindOk(s.datalog, r, q);
    }
  }

  lemma CleanedOk(s: Router, id: ConnectionId)
    requires RequestsOk(s)
    ensures AllOk(s.datalog, Clean(s.datalog, id).1)
  {
    hide DataLogOk, HeldOk, Clean, Log.CursorOk, Log.NextOffset;
    CleanIs(s.datalog, id);
    forall r | r in Clean(s.datalog, id).1
      ensures ReqOk(s.datalog, r)
    {
      var i :| 0 <= i < |s.datalog.native| && (id, r) in s.datalog.native[i].waiters;
      assert ParkedAt(s.datalog, s.scheduler.trackers.m.Keys, i);
    }
  }

  lemma CleanParked(dl: DataLog, live: set<ConnectionId>, id: ConnectionId)
    requires ParkedOk(dl, live)
    ensures ParkedOk(Clean(dl, id).0, live - {id})
  {
    hide Clean, Log.CursorOk, Log.NextOffset;
    CleanIs(dl, id);
    var b := Clean(dl, id).0;
    forall i: nat | i < |b.native|
      ensures ParkedAt(b, live - {id}, i)
    {
      assert ParkedAt(dl, live, i);
    }
  }

  lemma HeldRemove(dl: DataLog, t: Slab<Tracker>, g: map<ClientId, Option<Session>>, o: Slab<Outgoing>,
                   id: ConnectionId, c: ClientId, saved: Option<Session>)
    requires HeldOk(dl, t, g, [], o)
    requires saved.Some? ==> AllOk(dl, saved.value.tracker.requests)
    ensures HeldOk(dl, t.Remove(id), g[c := saved], [], o.Remove(id))
  {
    hide AllOk, EntryOk;
  }

  lemma DisconnectShape(s: Router, id: ConnectionId)
    requires Present(s, id)
    ensures var t, saved := Disconnect(s, id), SavedBy(s, id);
            && t.datalog == Clean(s.datalog, id).0 && t.scheduler.trackers == s.scheduler.trackers.Remove(id)
            && t.obufs == s.obufs.Remove(id) && t.notifications == s.notifications
            && t.graveyard == s.graveyard[s.scheduler.trackers.m[id].id := saved]
            && t.scheduler.trackers.m.Keys == s.scheduler.trackers.m.Keys - {id}
  {
    hide Clean, RewindAll, Retransmissions, ForgetAccounts, Unsubscribed;
    assert s.scheduler.trackers.Remove(id).m.Keys == s.scheduler.trackers.m.Keys - {id};
  }

  lemma DisconnectRequests(s: Router, id: ConnectionId)
    requires RequestsOk(s) && s.notifications == []
    ensures RequestsOk(Disconnect(s, id)) && Disconnect(s, id).notifications == []
  {
    hide DataLogOk, HeldOk, ParkedOk, Disconnect, AllOk, RewindAll, Retransmissions, Clean, Grows, SameLogs;
    if Present(s, id) {
      DisconnectShape(s, id);
      SavedRequests(s, id);
      CleanIs(s.datalog, id);
      var t, dl := Disconnect(s, id), s.datalog;
      SameLogsOk(dl, t.datalog);
      SameLogsGrows(dl, t.datalog);
      CleanParked(dl, s.scheduler.trackers.m.Keys, id);
      HeldRemove(dl, s.scheduler.trackers, s.graveyard, s.obufs, id, s.scheduler.trackers.m[id].id, SavedBy(s, id));
      HeldGrows(dl, t.datalog, t.scheduler.trackers, t.graveyard, t.notifications, t.obufs);
    } else {
      assert Disconnect(s, id) == s by { AbsentStays(s, id); }
    }
  }

  lemma AbsentStays(s: Router, id: ConnectionId)
    requires !Present(s, id)
    ensures Disconnect(s, id) == s
  {
  }

  lemma HeldInsert(dl: DataLog, t: Slab<Tracker>, g: map<ClientId, Option<Session>>, o: Slab<Outgoing>, v: Tracker,
                   c: ClientId, w: Outgoing)
    requires HeldOk(dl, t, g, [], o) && AllOk(dl, v.requests) && w.inflight == []
    requires t.NextKey() !in t.m && o.NextKey() !in o.m
    ensures HeldOk(dl, t.Insert(v), g - {c}, [], o.Insert(w))
  {
    hide AllOk, EntryOk;
  }

  lemma ParkedMore(dl: DataLog, live: set<ConnectionId>, more: set<ConnectionId>)
    requires ParkedOk(dl, live) && live <= more
    ensures ParkedOk(dl, more)
  {
    hide Log.CursorOk, Log.NextOffset;
    forall i: nat | i < |dl.native|
      ensures ParkedAt(dl, more, i)
    {
      assert ParkedAt(dl, live, i);
    }
  }

  lemma AdmittedRequests(s: Router, client: ClientId, clean: bool, will: Option<Publish>)
    requires Identified(s) && RequestsOk(s) && s.notifications == []
    ensures RequestsOk(Admitted(s, client, clean, will)) && Admitted(s, client, clean, will).notifications == []
  {
    hide DataLogOk, HeldOk, ParkedOk, PubRels, ForgetAccounts, NamesOf, NamesOk;
    AdmitKeysAgree(s);
    IdentifiedPresent(s);
    var t := Admitted(s, client, clean, will);
    var saved := SavedSession(s, client);
    var tracker := if !clean && saved.Some? then saved.value.tracker else Tracker(client, [], Paused(Busy));
    var pubrels := if !clean && saved.Some? then saved.value.unackedPubrels else [];
    SessionOk(s, client);
    HeldInsert(s.datalog, s.scheduler.trackers, s.graveyard, s.obufs, tracker, client, NewOutgoing(client, pubrels));
    assert s.scheduler.trackers.m.Keys <= t.scheduler.trackers.m.Keys;
    ParkedMore(s.datalog, s.scheduler.trackers.m.Keys, t.scheduler.trackers.m.Keys);
  }

  lemma SessionOk(s: Router, client: ClientId)
    requires RequestsOk(s)
    ensures SavedSession(s, client).Some? ==> AllOk(s.datalog, SavedSession(s, client).value.tracker.requests)
  {
    hide DataLogOk, ParkedOk, AllOk, TrackedOk, SentOk, WokenOk;
  }

  lemma ConnectRequests(s: Router, client: ClientId, clean: bool, will: Option<Publish>)
    requires Identified(s) && RequestsOk(s) && s.notifications == []
    ensures RequestsOk(Connect(s, client, clean, will)) && Connect(s, client, clean, will).notifications == []
  {
    hide Identified, RequestsOk, Admitted, Disconnect, Scheduler.Reschedule;
    var d := Dropped(s, client);
    if client in s.connectionMap {
      DisconnectRequests(s, s.connectionMap[client]);
      DisconnectKeeps(s, s.connectionMap[client]);
    }
    AdmittedRequests(d, client, clean, will);
    RescheduleRequests(Admitted(d, client, clean, will), d.connections.NextKey(), Init);
  }

  // ---------------------------------------------------------------------------------------------
  // Runs

  lemma WokenRequests(b: Batch, id: ConnectionId)
    requires RequestsOk(b.r) && Flagged(b)
    ensures RequestsOk(Woken(b, id)) && Woken(b, id).notifications == []
  {
    hide RequestsOk, WakeAll, Scheduler.Reschedule;
    RescheduleRequests(b.r, id, FreshData);
    WakeAllRequests(if b.forceAck then Reschedule(b.r, id, FreshData) else b.r);
  }

  lemma DeviceDataRequests(s: Router, id: ConnectionId)
    requires RequestsOk(s) && s.notifications == []
    ensures RequestsOk(DeviceData(s, id)) && DeviceData(s, id).notifications == []
  {
    hide RequestsOk, HandlePackets, WakeAll, Reschedule, Disconnect;
    if Present(s, id) {
      var b0 := Batch(TakePackets(s, id), false, false, false, None, false);
      var b := HandlePackets(b0, id, s.ibufs.m[id].buffer);
      RequestsFrame(s, b0.r);
      HandlePacketsRequests(b0, id, s.ibufs.m[id].buffer);
      HandlePacketsFlagged(b0, id, s.ibufs.m[id].buffer);
      WokenRequests(b, id);
      DisconnectRequests(Woken(b, id), id);
    }
  }

  lemma PublishWillRequests(s: Router, client: ClientId)
    requires RequestsOk(s) && s.notifications == []
    ensures RequestsOk(PublishWill(s, client)) && PublishWill(s, client).notifications == []
  {
    hide RequestsOk, WakeAll, AcceptPublish;
    if client in s.lastWills {
      var s1 := s.(lastWills := s.lastWills - {client});
      RequestsFrame(s, s1);
      AcceptPublishRequests(s1, s.lastWills[client]);
      WakeAllRequests(AcceptPublish(s1, s.lastWills[client]));
    }
  }

  lemma {:induction false} ConsumeLoopFrame(s: Router, id: ConnectionId, n: nat)
    ensures ConsumeLoop(s, id, n).notifications == s.notifications
    decreases n
  {
    hide ForwardData, Park, Skip, Scheduler.Pause, Scheduler.SetTracker;
    if n > 0 && Present(s, id) && s.scheduler.trackers.m[id].requests != [] {
      if ConsumeOne(s, id).1 {
        ConsumeLoopFrame(ConsumeOne(s, id).0, id, n - 1);
      }
    }
  }

  lemma ConsumeFrame(s: Router)
    ensures Consume(s).0.notifications == s.notifications
  {
    hide ConsumeLoop, DeviceAcks, Scheduler.Rotate;
    if s.scheduler.readyqueue != [] {
      var id, s1 := s.scheduler.readyqueue[0], s.(scheduler := s.scheduler.Rotate());
      if Present(s1, id) {
        ConsumeLoopFrame(SendAcks(s1, id), id, MAX_SCHEDULE_ITERATIONS);
      }
    }
  }

  lemma StepRequests(s: Router, e: Event)
    requires Identified(s) && Windows(s.obufs) && RequestsOk(s) && s.notifications == []
    ensures RequestsOk(Step(s, e)) && Step(s, e).notifications == []
  {
    hide RequestsOk, Connect, DeviceData, Disconnect, PublishWill, Consume, Identified, Windows, Scheduler.Reschedule;
    match e {
      case EventConnect(client, clean, will) => ConnectRequests(s, client, clean, will);
      case EventDeviceData(id) => DeviceDataRequests(s, id);
      case EventDisconnect(id) => DisconnectRequests(s, id);
      case EventPublishWill(client) => PublishWillRequests(s, client);
      case EventConsume =>
        ConsumeRequests(s);
        ConsumeFrame(s);
      case EventReady(id) => RescheduleRequests(s, id, LinkReady);
      case EventArrive(id, p) => RequestsFrame(s, Step(s, e));
      case EventExchange(id) => ExchangeRequests(s, id);
    }
  }

  lemma ExchangeRequests(s: Router, id: ConnectionId)
    requires RequestsOk(s)
    ensures RequestsOk(Exchange(s, id)) && Exchange(s, id).notifications == s.notifications
  {
    hide RequestsOk;
    if id in s.obufs.m {
      SetObufRequests(s, id,
                      s.obufs.m[id].(buffer := [], tokens := if s.obufs.m[id].tokens > 0 then s.obufs.m[id].tokens - 1
                                     else 0));
    }
  }

  lemma InitRequests(c: Config)
    requires ConfigOk(c)
    ensures RequestsOk(InitRouter(c)) && InitRouter(c).notifications == []
  {
    hide DataLogOk;
    EmptyDataLogOk(c);
  }

  // In every reachable state: the retention rules, the one-to-one registry, the exact topic cache and
  // the fan-out of every log hold; every request, wherever it is held, names an existing log and a
  // cursor of it; everything parked is at the end of its log; no woken request is held back, so none
  // is ever given to a connection that is gone.
  lemma {:induction false} RunKeepsRequests(c: Config, es: seq<Event>)
    requires ConfigOk(c)
    ensures RequestsOk(Run(InitRouter(c), es)) && Run(InitRouter(c), es).notifications == []
    decreases |es|
  {
    hide Step, RequestsOk, Identified, Subscribers, Windows, InitRouter;
    if es == [] {
      InitRequests(c);
    } else {
      RunKeepsRequests(c, es[..|es| - 1]);
      RunKeepsIdentity(c, es[..|es| - 1]);
      RunKeepsWindows(c, es[..|es| - 1]);
      StepRequests(Run(InitRouter(c), es[..|es| - 1]), es[|es| - 1]);
    }
  }

  // The headline facts about the logs, spelled out for a reachable state.
  lemma LogsInEveryRun(c: Config, es: seq<Event>, i: nat)
    requires ConfigOk(c) && i < |Run(InitRouter(c), es).datalog.native|
    ensures var dl := Run(InitRouter(c), es).datalog;
            var d := dl.native[i];
            && d.log.Retained()
            && d.born <= |dl.accepted|
            && d.log.history == Select(dl.accepted[d.born..], d.filter)
            && forall t :: t in dl.publishFilters ==> FullScan(dl.native, t, dl.publishFilters[t])
  {
    hide InitRouter, Run, HeldOk, ParkedOk, RegistryOk, Log.Retained, FullScan, Select;
    RunKeepsRequests(c, es);
  }
}

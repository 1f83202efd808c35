// At-least-once delivery over whole runs.
module DeliveryRuns {
  import opened Types
  import opened Slabs
  import opened LogModel
  import opened DataLogModel
  import opened OutgoingModel
  import opened SchedulerModel
  import opened RouterModel
  import opened Frames
  import opened Parking
  import opened Forwarding
  import opened Flights
  import opened Window
  import opened Identity
  import opened Queue
  import opened Requests
  import opened RequestRuns
  import opened Conservation
  import opened ConservationRuns
  import opened Delivery
  import opened Missed

  // ---------------------------------------------------------------------------------------------
  // Subscribing and unsubscribing

  lemma NoneParkedFor(dl: DataLog, live: set<ConnectionId>, id: ConnectionId, f: Filter)
    requires RegistryOk(dl) && ParkedOk(dl, live) && Parked(dl, id, f) == 0
    ensures forall i, r :: 0 <= i < |dl.native| && (id, r) in dl.native[i].waiters ==> r.filter != f
  {
    hide Count, Log.CursorOk, Log.NextOffset;
    FilterElsewhere(dl, live, f);
    if f in dl.filterIndexes {
      var k := dl.filterIndexes[f];
      CountZero(dl.native[k].waiters, OfBoth(id, f));
      forall r | (id, r) in dl.native[k].waiters
        ensures r.filter != f
      {
        assert !OfBoth(id, f)((id, r));
      }
    }
  }

  lemma NoneHeld(s: Router, id: ConnectionId, f: Filter)
    requires RequestsOk(s) && Owned(s, id, f) == 0
    ensures forall r :: Held(s, id, r) ==> r.filter != f
  {
    hide Count, Parked, LogsOk, CacheOk, FanOut, HeldOk, ParkedOk, RegistryOk;
    CountZero(s.notifications, OfBoth(id, f));
    NoneParkedFor(s.datalog, s.scheduler.trackers.m.Keys, id, f);
    if id in s.scheduler.trackers.m {
      CountZero(s.scheduler.trackers.m[id].requests, OfFilter(f));
    }
    forall r | Held(s, id, r)
      ensures r.filter != f
    {
      assert (id, r) in s.notifications ==> !OfBoth(id, f)((id, r));
      assert id in s.scheduler.trackers.m && r in s.scheduler.trackers.m[id].requests ==> !OfFilter(f)(r);
    }
  }

  lemma UnsubscribedHoldsNone(s: Router, id: ConnectionId, f: Filter, strays: set<ClientId>)
    requires Straight(s, id, strays) && RequestsOk(s) && Conserved(s, strays) && f !in s.connections.m[id].subscriptions
    ensures forall r :: Held(s, id, r) ==> r.filter != f
  {
    hide Owned, Held, RequestsOk, SavedRight, ClientOf;
    ProjectAt(s.connections, SubscriptionsOf);
    ClientIs(s, id);
    assert Right(Owned(s, id, f), f in Subs(s).m[id], true);
    NoneHeld(s, id, f);
  }

  // The request a new subscription starts with.
  function NewRequest(s: Router, path: Filter, qos: QoS): DataRequest {
    var dl := Register(s.datalog, path);
    var i := IndexOf(dl, path);
    DataRequest(path, i, qos, if i < |dl.native| then dl.native[i].log.NextOffset() else Cursor(0, 0), 0, true)
  }

  lemma SubscribeOneIs(s: Router, id: ConnectionId, path: Filter, qos: QoS)
    requires Present(s, id) && path !in s.connections.m[id].subscriptions
    ensures var t, r, c := SubscribeOne(s, id, path, qos), NewRequest(s, path, qos), s.connections.m[id];
            && Present(t, id) && t.datalog == Register(s.datalog, path) && t.notifications == s.notifications
            && t.connections == s.connections.Set(id, c.(subscriptions := c.subscriptions + {path}))
            && t.scheduler.trackers.m.Keys == s.scheduler.trackers.m.Keys
            && (forall k :: k in s.scheduler.trackers.m ==>
                  t.scheduler.trackers.m[k].requests
                    == s.scheduler.trackers.m[k].requests + (if k == id then [r] else []))
            && t.accounts == s.accounts[(c.clientId, path) := Account(r.cursor.offset, {}, {}, {})]
            && t.obufs == s.obufs && t.graveyard == s.graveyard && t.ibufs == s.ibufs && t.ackslog == s.ackslog
  {
    hide Register, IndexOf, AddSubscriber, Awakens, Log.NextOffset;
  }

  lemma RegisterHeld(dl: DataLog, path: Filter)
    ensures forall i, w :: 0 <= i < |Register(dl, path).native| && w in Register(dl, path).native[i].waiters ==>
              i < |dl.native| && w in dl.native[i].waiters
  {
    hide Limits, Extend;
  }

  lemma SubscribeOneLocal(s: Router, id: ConnectionId, path: Filter, qos: QoS)
    requires Present(s, id) && path !in s.connections.m[id].subscriptions
    ensures var t := SubscribeOne(s, id, path, qos);
            && LocalTo(s, t, id)
            && forall r :: Held(t, id, r) ==> Held(s, id, r) || r == NewRequest(s, path, qos)
  {
    hide SubscribeOne, Register, NewRequest, LogsKeep;
    SubscribeOneIs(s, id, path, qos);
    RegisterLogsKeep(s.datalog, path);
    RegisterHeld(s.datalog, path);
    var t := SubscribeOne(s, id, path, qos);
    forall other | other != id
      ensures UndisturbedAt(s, t, other)
    {
    }
  }

  // A new subscription starts with nothing owed: its request is at the end of the log.
  lemma NewRequestServed(s: Router, id: ConnectionId, path: Filter, qos: QoS, q: seq<Inflight>)
    requires RequestsOk(s) && Placed(s.datalog, q)
    ensures var r := NewRequest(s, path, qos);
            Beyond(q, r.filterIdx, r.cursor.offset) && Covers(Account(r.cursor.offset, {}, {}, {}), q, r)
  {
    hide Register, IndexOf, HeldOk, ParkedOk, Rising, LogsOk, CacheOk, FanOut, RegistryOk, Log.Where, Log.CursorOk,
      LogKeeps;
    RequestsLogs(s);
    RegisterKeeps(s.datalog, path);
    RegisterLogsKeep(s.datalog, path);
    var dl, i := Register(s.datalog, path), IndexOf(Register(s.datalog, path), path);
    PlacedKeeps(s.datalog, dl, q);
    forall o: nat | Flies(q, i, o)
      ensures o < |dl.native[i].log.history|
    {
      var e :| e in q && At(e, i, o);
      assert EntryPlaced(dl, e);
    }
  }

  lemma SubscribeOneDelivers(s: Router, id: ConnectionId, path: Filter, qos: QoS, strays: set<ClientId>)
    requires Present(s, id) && Identified(s) && RequestsOk(s) && Conserved(s, strays) && Delivers(s, strays)
    ensures Delivers(SubscribeOne(s, id, path, qos), strays)
  {
    hide SubscribeOne, RequestsOk, Identified, Conserved, Delivers, LocalTo, DeliversTo, Undisturbed;
    if path in s.connections.m[id].subscriptions {
      ResubscribeUndisturbed(s, id, path, qos);
      UndisturbedDelivers(s, SubscribeOne(s, id, path, qos), strays);
    } else {
      SubscribeOneLocal(s, id, path, qos);
      if Straight(s, id, strays) {
        DeliversAt(s, id, strays);
        SubscribeOneTo(s, id, path, qos, strays);
      }
      LocalDelivers(s, SubscribeOne(s, id, path, qos), id, strays);
    }
  }

  lemma ResubscribeUndisturbed(s: Router, id: ConnectionId, path: Filter, qos: QoS)
    requires Present(s, id) && path in s.connections.m[id].subscriptions
    ensures Undisturbed(s, SubscribeOne(s, id, path, qos))
  {
    hide Register, IndexOf, AddSubscriber, LogsKeep;
    RegisterLogsKeep(s.datalog, path);
    RegisterHeld(s.datalog, path);
    var t := SubscribeOne(s, id, path, qos);
    forall other
      ensures UndisturbedAt(s, t, other)
    {
    }
  }

  lemma SubscribeOneTo(s: Router, id: ConnectionId, path: Filter, qos: QoS, strays: set<ClientId>)
    requires Straight(s, id, strays) && RequestsOk(s) && Conserved(s, strays)
             && path !in s.connections.m[id].subscriptions && DeliversTo(s, id)
    ensures DeliversTo(SubscribeOne(s, id, path, qos), id)
  {
    hide SubscribeOne, RequestsOk, Conserved, Held, NewRequest, Placed, Covers, Beyond, Register, LocalTo, LogsKeep;
    var t, client, q := SubscribeOne(s, id, path, qos), s.connections.m[id].clientId, s.obufs.m[id].inflight;
    SubscribeOneIs(s, id, path, qos);
    SubscribeOneLocal(s, id, path, qos);
    UnsubscribedHoldsNone(s, id, path, strays);
    NewRequestServed(s, id, path, qos, q);
    RegisterLogsKeep(s.datalog, path);
    PlacedKeeps(s.datalog, t.datalog, q);
    forall r | Held(t, id, r)
      ensures Served(t.accounts, client, q, r)
    {
      NewRequestFilter(s, path, qos);
      if r != NewRequest(s, path, qos) {
        ServedElsewhere(s.accounts, t.accounts, client, q, r);
      }
    }
  }

  lemma NewRequestFilter(s: Router, path: Filter, qos: QoS)
    ensures NewRequest(s, path, qos).filter == path
  {
    hide Register, IndexOf;
  }

  lemma LeaveLocal(s: Router, id: ConnectionId, path: Filter)
    requires Present(s, id)
    ensures var t, c := Leave(s, id, path), s.connections.m[id];
            && LocalTo(s, t, id)
            && (forall r :: Held(t, id, r) ==> Held(s, id, r))
            && t.accounts == s.accounts - {(c.clientId, path)}
            && t.connections.m[id].subscriptions == c.subscriptions - {path}
            && t.obufs == s.obufs
  {
    hide RemoveWaiter, WithoutFilter, LogsKeep;
    RemoveWaiterIs(s.datalog, id, path);
    SameLogsKeep(s.datalog, RemoveWaiter(s.datalog, id, path));
    WithoutFilterIs(s.scheduler.trackers.m[id].requests, path);
    var t := Leave(s, id, path);
    forall other | other != id
      ensures UndisturbedAt(s, t, other)
    {
    }
  }

  lemma LeaveDelivers(s: Router, id: ConnectionId, path: Filter, strays: set<ClientId>)
    requires Present(s, id) && Identified(s) && Delivers(s, strays)
    ensures Delivers(Leave(s, id, path), strays)
  {
    hide Leave, Identified, Delivers, LocalTo, DeliversTo;
    LeaveLocal(s, id, path);
    if Straight(s, id, strays) {
      DeliversAt(s, id, strays);
      LeaveTo(s, id, path);
    }
    LocalDelivers(s, Leave(s, id, path), id, strays);
  }

  lemma LeaveTo(s: Router, id: ConnectionId, path: Filter)
    requires Present(s, id) && DeliversTo(s, id)
    ensures DeliversTo(Leave(s, id, path), id)
  {
    hide Leave, Held, Placed, Covers, Beyond, LogsKeep;
    LeaveLocal(s, id, path);
    PlacedKeeps(s.datalog, Leave(s, id, path).datalog, s.obufs.m[id].inflight);
  }

  // ---------------------------------------------------------------------------------------------
  // Sweeping

  // With exactly one request per subscription, the rest of what a connection holds is for other filters.
  lemma OnlyOneHeld(s: Router, id: ConnectionId, strays: set<ClientId>)
    requires Straight(s, id, strays) && s.scheduler.trackers.m[id].requests != [] && RequestsOk(s)
             && Conserved(s, strays)
    ensures var rs := s.scheduler.trackers.m[id].requests;
            forall r :: Held(SetRequests(s, id, rs[1..]), id, r) ==> r.filter != rs[0].filter
  {
    hide RequestsOk, SetRequests, Held, Parked, Pending, Tracked, SavedRight, ClientOf;
    var rs := s.scheduler.trackers.m[id].requests;
    ClientIs(s, id);
    var s0, f := SetRequests(s, id, rs[1..]), rs[0].filter;
    TrackedAt(s, id);
    SetRequestsRequests(s, id, rs[1..]);
    ProjectAt(s.connections, SubscriptionsOf);
    assert Right(Owned(s, id, f), f in Subs(s).m[id], true);
    SetRequestsCount(s, id, rs[0], rs[1..], rs[0], id, f);
    SetRequestsFrame(s, id, rs[1..]);
    NoneHeld(s0, id, f);
  }

  lemma SetRequestsFrame(s: Router, id: ConnectionId, rs: seq<DataRequest>)
    requires id in s.scheduler.trackers.m
    ensures SetRequests(s, id, rs).datalog == s.datalog && SetRequests(s, id, rs).notifications == s.notifications
  {
  }

  lemma ConsumeOneTrackers(s: Router, id: ConnectionId, k: ConnectionId)
    requires Present(s, id) && s.scheduler.trackers.m[id].requests != []
             && k in ConsumeOne(s, id).0.scheduler.trackers.m
    ensures var t, rs := ConsumeOne(s, id).0, s.scheduler.trackers.m[id].requests;
            var f := ForwardData(s.datalog, s.obufs.m[id], rs[0]);
            && k in s.scheduler.trackers.m
            && t.scheduler.trackers.m[k].requests ==
               if k != id then s.scheduler.trackers.m[k].requests
               else if f.2 == FilterCaughtup then rs[1..] else rs[1..] + [f.1]
  {
    hide ConsumeOne, ForwardData, Park, Skip;
    ConsumeOneShape(s, id);
  }

  lemma ConsumeOneParked(s: Router, id: ConnectionId, w: Waiter, i: nat)
    requires Present(s, id) && s.scheduler.trackers.m[id].requests != []
    requires i < |ConsumeOne(s, id).0.datalog.native| && w in ConsumeOne(s, id).0.datalog.native[i].waiters
    ensures var f := ForwardData(s.datalog, s.obufs.m[id], s.scheduler.trackers.m[id].requests[0]);
            i < |s.datalog.native| && (w in s.datalog.native[i].waiters || w == (id, f.1))
  {
    hide ConsumeOne, ForwardData, Park, Skip, Scheduler.Pause, SetRequests;
    var f := ForwardData(s.datalog, s.obufs.m[id], s.scheduler.trackers.m[id].requests[0]);
    ConsumeOneShape(s, id);
    ParkIs(s.datalog, id, f.1);
  }

  lemma ConsumeOneHeld(s: Router, id: ConnectionId, other: ConnectionId, r2: DataRequest)
    requires Present(s, id) && s.scheduler.trackers.m[id].requests != [] && Held(ConsumeOne(s, id).0, other, r2)
    ensures var rs := s.scheduler.trackers.m[id].requests;
            || Held(SetRequests(s, id, rs[1..]), other, r2)
            || (other == id && r2 == ForwardData(s.datalog, s.obufs.m[id], rs[0]).1)
  {
    hide ConsumeOne, ForwardData, Skip;
    var rs, t := s.scheduler.trackers.m[id].requests, ConsumeOne(s, id).0;
    if other in t.scheduler.trackers.m && r2 in t.scheduler.trackers.m[other].requests {
      ConsumeOneTrackers(s, id, other);
    } else if (other, r2) in t.notifications {
      ConsumeOneFrame(s, id);
    } else {
      var i :| 0 <= i < |t.datalog.native| && (other, r2) in t.datalog.native[i].waiters;
      ConsumeOneParked(s, id, (other, r2), i);
    }
  }

  lemma ConsumeOneFrame(s: Router, id: ConnectionId)
    requires Present(s, id) && s.scheduler.trackers.m[id].requests != []
    ensures ConsumeOne(s, id).0.notifications == s.notifications
  {
    hide ConsumeOne, ForwardData, Skip, Park, Scheduler.Pause, SetRequests;
    ConsumeOneShape(s, id);
  }

  lemma RestHeld(s: Router, id: ConnectionId, other: ConnectionId, r2: DataRequest)
    requires Present(s, id) && s.scheduler.trackers.m[id].requests != []
    requires Held(SetRequests(s, id, s.scheduler.trackers.m[id].requests[1..]), other, r2)
    ensures Held(s, other, r2)
  {
  }

  // What a sweep leaves alone, and the window and accounts it leaves behind.
  lemma ConsumeOneLocal(s: Router, id: ConnectionId)
    requires Present(s, id) && s.scheduler.trackers.m[id].requests != [] && RequestsOk(s)
    ensures LocalTo(s, ConsumeOne(s, id).0, id)
  {
    hide ConsumeOne, ForwardData, Skip, Park, RequestsOk, LogsKeep, Held, SameAccount, SetRequests;
    var rs, t := s.scheduler.trackers.m[id].requests, ConsumeOne(s, id).0;
    var f := ForwardData(s.datalog, s.obufs.m[id], rs[0]);
    ConsumeOnePresent(s, id);
    ConsumeOneShape(s, id);
    ParkIs(s.datalog, id, f.1);
    SameLogsKeep(s.datalog, Park(s.datalog, id, f.1));
    KeepsRefl(s.datalog);
    forall k: AccountKey | k.0 != s.connections.m[id].clientId
      ensures SameAccount(s.accounts, t.accounts, k)
    {
      SkipOnly(s, id, rs[0], k);
      SameAccountRefl(s.accounts, k);
    }
    forall other | other != id
      ensures UndisturbedAt(s, t, other)
    {
      forall r2 | Held(t, other, r2)
        ensures Held(s, other, r2)
      {
        ConsumeOneHeld(s, id, other, r2);
        RestHeld(s, id, other, r2);
      }
    }
  }

  lemma SameAccountRefl(a: map<AccountKey, Account>, k: AccountKey)
    ensures SameAccount(a, a, k)
  {
  }

  lemma ConsumeOnePresent(s: Router, id: ConnectionId)
    requires Present(s, id) && s.scheduler.trackers.m[id].requests != []
    ensures forall other :: Present(ConsumeOne(s, id).0, other) <==> Present(s, other)
    ensures ConsumeOne(s, id).0.connections == s.connections
  {
    hide ConsumeOne, ForwardData, Skip, Park, NamesOf;
    ConsumeOneShape(s, id);
    ConsumeOneSame(s, id);
    SameNamesPresent(s, ConsumeOne(s, id).0);
  }

  lemma ServedFlies(accounts: map<AccountKey, Account>, client: ClientId, q: seq<Inflight>, q': seq<Inflight>,
                    r: DataRequest)
    requires forall o: nat :: Flies(q', r.filterIdx, o) <==> Flies(q, r.filterIdx, o)
    requires Served(accounts, client, q, r)
    ensures Served(accounts, client, q', r)
  {
    hide Flies;
  }

  lemma SweptServed(s: Router, id: ConnectionId)
    requires Present(s, id) && s.scheduler.trackers.m[id].requests != [] && RequestsOk(s) && WindowOk(s.obufs.m[id])
    requires DeliversTo(s, id) && Past(s)
    ensures var r, t := s.scheduler.trackers.m[id].requests[0], ConsumeOne(s, id).0;
            var f := ForwardData(s.datalog, s.obufs.m[id], r);
            Served(t.accounts, s.connections.m[id].clientId, f.0.inflight, f.1)
  {
    hide ConsumeOne, ForwardData, Skip, RequestsOk, Flies, Readable, Covers, Placed, WindowOk;
    var r, t, k := s.scheduler.trackers.m[id].requests[0], ConsumeOne(s, id).0,
        (s.connections.m[id].clientId, s.scheduler.trackers.m[id].requests[0].filter);
    TrackedAt(s, id);
    RequestsLogs(s);
    ReadableRequest(s.datalog, r);
    ConsumeOneShape(s, id);
    ForwardMoves(s.datalog, s.obufs.m[id], r);
    assert Held(s, id, r);
    assert Served(s.accounts, k.0, s.obufs.m[id].inflight, r);
    SkipOnly(s, id, r, k);
    SweptBeyond(s.datalog, s.obufs.m[id], r);
    if k in s.accounts {
      PastHead(s, r, k);
      SweepCovers(s.datalog, s.obufs.m[id], r, s.accounts[k]);
    }
  }

  lemma SweptBeyond(dl: DataLog, o: Outgoing, r: DataRequest)
    requires Readable(dl, r) && WindowOk(o) && Beyond(o.inflight, r.filterIdx, r.cursor.offset)
    ensures var f := ForwardData(dl, o, r); Beyond(f.0.inflight, f.1.filterIdx, f.1.cursor.offset)
  {
    hide ForwardData, RetainedCount, WindowOk, Log.CursorOk, Flies;
    ForwardMoves(dl, o, r);
    ForwardFills(dl, o, r);
    PullReads(dl, o, r);
    var f := ForwardData(dl, o, r);
    forall x: nat | Flies(f.0.inflight, r.filterIdx, x)
      ensures x < f.1.cursor.offset
    {
      if f.0.inflight != o.inflight {
        SweepFlies(dl, o, r, r.filterIdx, x);
      }
    }
  }

  lemma OthersServed(s: Router, id: ConnectionId, r2: DataRequest)
    requires Present(s, id) && s.scheduler.trackers.m[id].requests != [] && RequestsOk(s) && WindowOk(s.obufs.m[id])
    requires DeliversTo(s, id) && Held(s, id, r2) && r2.filter != s.scheduler.trackers.m[id].requests[0].filter
    ensures var r, t := s.scheduler.trackers.m[id].requests[0], ConsumeOne(s, id).0;
            Served(t.accounts, s.connections.m[id].clientId, ForwardData(s.datalog, s.obufs.m[id], r).0.inflight, r2)
  {
    hide ConsumeOne, ForwardData, Skip, RequestsOk, Flies, Readable, Covers, Placed, WindowOk, Served, SameAccount;
    var r, t, client := s.scheduler.trackers.m[id].requests[0], ConsumeOne(s, id).0, s.connections.m[id].clientId;
    var q, q' := s.obufs.m[id].inflight, ForwardData(s.datalog, s.obufs.m[id], r).0.inflight;
    TrackedAt(s, id);
    RequestsLogs(s);
    ReadableRequest(s.datalog, r);
    SameFilterSameLog(s, id, r2);
    ConsumeOneShape(s, id);
    SkipOnly(s, id, r, (client, r2.filter));
    SameAccountRefl(s.accounts, (client, r2.filter));
    ServedElsewhere(s.accounts, t.accounts, client, q, r2);
    forall o: nat
      ensures Flies(q', r2.filterIdx, o) <==> Flies(q, r2.filterIdx, o)
    {
      SweepElsewhere(s.datalog, s.obufs.m[id], r, r2.filterIdx, o);
    }
    ServedFlies(t.accounts, client, q, q', r2);
  }

  lemma SweepElsewhere(dl: DataLog, o: Outgoing, r: DataRequest, i: FilterIdx, x: nat)
    requires Readable(dl, r) && WindowOk(o) && i != r.filterIdx
    ensures Flies(ForwardData(dl, o, r).0.inflight, i, x) <==> Flies(o.inflight, i, x)
  {
    hide ForwardData, RetainedCount, WindowOk, Log.CursorOk, Flies;
    ForwardFills(dl, o, r);
    if r.qos != AtMostOnce && ForwardData(dl, o, r).2 != ConsumeStatus.InflightFull {
      SweepFlies(dl, o, r, i, x);
    }
  }

  lemma ConsumeOneTo(s: Router, id: ConnectionId, strays: set<ClientId>)
    requires Straight(s, id, strays) && s.scheduler.trackers.m[id].requests != [] && RequestsOk(s)
             && WindowOk(s.obufs.m[id])
    requires Conserved(s, strays) && DeliversTo(s, id) && Past(s)
    ensures DeliversTo(ConsumeOne(s, id).0, id)
  {
    hide ConsumeOne, ForwardData, Skip, RequestsOk, Conserved, Readable, WindowOk, Served, Held, SetRequests, LocalTo,
      Placed, LogsKeep;
    var r, t, client := s.scheduler.trackers.m[id].requests[0], ConsumeOne(s, id).0, s.connections.m[id].clientId;
    var f := ForwardData(s.datalog, s.obufs.m[id], r);
    OnlyOneHeld(s, id, strays);
    SweptServed(s, id);
    ConsumeOneWindowIs(s, id);
    forall r2 | Held(t, id, r2)
      ensures Served(t.accounts, client, f.0.inflight, r2)
    {
      ConsumeOneHeld(s, id, id, r2);
      if r2 != f.1 {
        RestHeld(s, id, id, r2);
        OthersServed(s, id, r2);
      }
    }
    forall g | g in s.connections.m[id].subscriptions
      ensures (client, g) in t.accounts
    {
      ConsumeOneShape(s, id);
      SkipOnly(s, id, r, (client, g));
    }
  }

  lemma ConsumeOneWindowIs(s: Router, id: ConnectionId)
    requires Present(s, id) && s.scheduler.trackers.m[id].requests != [] && RequestsOk(s) && WindowOk(s.obufs.m[id])
    requires DeliversTo(s, id)
    ensures var r, t := s.scheduler.trackers.m[id].requests[0], ConsumeOne(s, id).0;
            && Present(t, id) && t.connections == s.connections
            && t.obufs.m[id].inflight == ForwardData(s.datalog, s.obufs.m[id], r).0.inflight
            && Placed(t.datalog, t.obufs.m[id].inflight)
  {
    hide ConsumeOne, ForwardData, Skip, Park, RequestsOk, Readable, WindowOk, Served, LogsKeep, Beyond, Covers, Placed;
    var r := s.scheduler.trackers.m[id].requests[0];
    var f := ForwardData(s.datalog, s.obufs.m[id], r);
    ConsumeOnePresent(s, id);
    ConsumeOneShape(s, id);
    TrackedAt(s, id);
    RequestsLogs(s);
    ReadableRequest(s.datalog, r);
    ForwardMoves(s.datalog, s.obufs.m[id], r);
    assert Held(s, id, r);
    assert Served(s.accounts, s.connections.m[id].clientId, s.obufs.m[id].inflight, r);
    ServedBeyond(s.accounts, s.connections.m[id].clientId, s.obufs.m[id].inflight, r);
    SweepPlaced(s.datalog, s.obufs.m[id], r);
    ParkIs(s.datalog, id, f.1);
    SameLogsKeep(s.datalog, Park(s.datalog, id, f.1));
    if f.2 == FilterCaughtup {
      PlacedKeeps(s.datalog, Park(s.datalog, id, f.1), f.0.inflight);
    }
  }

  lemma ServedBeyond(accounts: map<AccountKey, Account>, client: ClientId, q: seq<Inflight>, r: DataRequest)
    requires Served(accounts, client, q, r)
    ensures Beyond(q, r.filterIdx, r.cursor.offset)
  {
  }

  // A sweep keeps every subscription's guarantee.
  lemma ConsumeOneDelivers(s: Router, id: ConnectionId, strays: set<ClientId>)
    requires Present(s, id) && s.scheduler.trackers.m[id].requests != []
    requires Identified(s) && RequestsOk(s) && WindowOk(s.obufs.m[id]) && Conserved(s, strays) && Delivers(s, strays)
             && Past(s)
    ensures Delivers(ConsumeOne(s, id).0, strays)
  {
    hide ConsumeOne, Identified, RequestsOk, WindowOk, Conserved, Delivers, LocalTo, DeliversTo;
    ConsumeOneLocal(s, id);
    if Straight(s, id, strays) {
      DeliversAt(s, id, strays);
      ConsumeOneTo(s, id, strays);
    }
    LocalDelivers(s, ConsumeOne(s, id).0, id, strays);
  }

  // ---------------------------------------------------------------------------------------------
  // Packets

  lemma FrameDelivers(s: Router, t: Router, strays: set<ClientId>)
    requires Delivers(s, strays)
    requires t.accounts == s.accounts && t.graveyard == s.graveyard && t.datalog == s.datalog
             && t.notifications == s.notifications
    requires SameClients(s.connections, t.connections) && t.scheduler == s.scheduler
    requires forall id :: id in t.obufs.m ==> id in s.obufs.m && t.obufs.m[id].inflight == s.obufs.m[id].inflight
    requires t.ibufs.m.Keys == s.ibufs.m.Keys && t.ackslog.m.Keys == s.ackslog.m.Keys
    ensures Delivers(t, strays)
  {
    hide Delivers, Undisturbed;
    FrameUndisturbed(s, t);
    UndisturbedDelivers(s, t, strays);
  }

  lemma RescheduleDelivers(s: Router, id: ConnectionId, why: ScheduleReason, strays: set<ClientId>)
    requires Delivers(s, strays)
    ensures Delivers(Reschedule(s, id, why), strays)
  {
    hide Delivers, Undisturbed, Scheduler.Reschedule;
    RescheduleUndisturbed(s, id, why);
    UndisturbedDelivers(s, Reschedule(s, id, why), strays);
  }

  lemma SetAcksDelivers(s: Router, id: ConnectionId, a: AckLog, strays: set<ClientId>)
    requires id in s.ackslog.m && Delivers(s, strays)
    ensures Delivers(s.(ackslog := s.ackslog.Set(id, a)), strays)
  {
    hide Delivers;
    FrameDelivers(s, s.(ackslog := s.ackslog.Set(id, a)), strays);
  }

  lemma CommitDelivers(s: Router, id: ConnectionId, a: Ack, strays: set<ClientId>)
    requires Present(s, id) && Delivers(s, strays)
    ensures Delivers(Commit(s, id, a), strays) && Present(Commit(s, id, a), id)
  {
    hide Delivers;
    SetAcksDelivers(s, id, s.ackslog.m[id].Commit(a), strays);
  }

  lemma SetObufDelivers(s: Router, id: ConnectionId, o: Outgoing, strays: set<ClientId>)
    requires id in s.obufs.m && o.inflight == s.obufs.m[id].inflight && Delivers(s, strays)
    ensures Delivers(s.(obufs := s.obufs.Set(id, o)), strays)
  {
    hide Delivers;
    FrameDelivers(s, s.(obufs := s.obufs.Set(id, o)), strays);
  }

  lemma AcceptDelivers(s: Router, p: Publish, strays: set<ClientId>)
    requires RequestsOk(s) && Delivers(s, strays)
    ensures Delivers(AcceptPublish(s, p), strays)
  {
    hide Delivers, Undisturbed, RequestsOk, AcceptPublish;
    RequestsLogs(s);
    AcceptUndisturbed(s, p);
    UndisturbedDelivers(s, AcceptPublish(s, p), strays);
  }

  lemma AppendDelivers(b: Batch, id: ConnectionId, p: Publish, props: Props, report: bool, strays: set<ClientId>)
    requires Present(b.r, id) && RequestsOk(b.r) && Delivers(b.r, strays)
    ensures Delivers(AppendToCommitlog(b, id, p, props, report).r, strays)
  {
    hide Resolve, AcceptPublish, RequestsOk, Delivers;
    var c := b.r.connections.m[id];
    var t := Resolve(c.topicAliases, p, props);
    if t.0.Some? {
      var s := b.r.(connections := b.r.connections.Set(id, c.(topicAliases := t.1)));
      FrameDelivers(b.r, s, strays);
      RequestsFrame(b.r, s);
      AcceptDelivers(s, p.(topic := t.0.value), strays);
    }
  }

  lemma HandlePublishDelivers(b: Batch, id: ConnectionId, p: Publish, props: Props, strays: set<ClientId>)
    requires Present(b.r, id) && RequestsOk(b.r) && Delivers(b.r, strays)
    ensures Delivers(HandlePublish(b, id, p, props).r, strays)
  {
    hide RequestsOk, AppendToCommitlog, Delivers, AckLog.Record, Commit;
    match p.qos {
      case ExactlyOnce => SetAcksDelivers(b.r, id, b.r.ackslog.m[id].Record(p, props), strays);
      case AtLeastOnce =>
        CommitDelivers(b.r, id, PubAck(p.pkid), strays);
        CommitCarried(b.r, id, PubAck(p.pkid));
        AppendDelivers(b.(r := Commit(b.r, id, PubAck(p.pkid)), forceAck := true), id, p, props, true, strays);
      case AtMostOnce => AppendDelivers(b, id, p, props, true, strays);
    }
  }

  lemma HandlePubAckDelivers(b: Batch, id: ConnectionId, pkid: nat, strays: set<ClientId>)
    requires Present(b.r, id) && Identified(b.r) && RequestsOk(b.r) && Delivers(b.r, strays)
    ensures Delivers(HandlePubAck(b, id, pkid).r, strays)
  {
    hide RegisterAck, Reschedule, Outgoing.RegisterAck, Delivers, Identified, RequestsOk;
    RegisterAckDelivers(b.r, id, pkid, strays);
    RescheduleDelivers(RegisterAck(b.r, id, pkid), id, IncomingAck, strays);
  }

  lemma HandlePubRecDelivers(b: Batch, id: ConnectionId, pkid: nat, strays: set<ClientId>)
    requires Present(b.r, id) && Identified(b.r) && RequestsOk(b.r) && Delivers(b.r, strays)
    ensures Delivers(HandlePubRec(b, id, pkid).r, strays)
  {
    hide RegisterAck, Reschedule, Outgoing.RegisterAck, Delivers, Identified, RequestsOk, Commit;
    RegisterAckDelivers(b.r, id, pkid, strays);
    RegisterAckFrame(b.r, id, pkid);
    var s := RegisterAck(b.r, id, pkid);
    var s1 := s.(obufs := s.obufs.Set(id, s.obufs.m[id].RegisterPubRec(pkid)));
    SetObufDelivers(s, id, s.obufs.m[id].RegisterPubRec(pkid), strays);
    CommitDelivers(s1, id, PubRel(pkid), strays);
    RescheduleDelivers(Commit(s1, id, PubRel(pkid)), id, IncomingAck, strays);
  }

  lemma HandlePubRelDelivers(b: Batch, id: ConnectionId, pkid: nat, strays: set<ClientId>)
    requires Present(b.r, id) && RequestsOk(b.r) && Delivers(b.r, strays)
    ensures Delivers(HandlePubRel(b, id, pkid).r, strays)
  {
    hide RequestsOk, AppendToCommitlog, Reschedule, Delivers;
    var a := b.r.ackslog.m[id].Release(pkid);
    var b1 := b.(r := b.r.(ackslog := b.r.ackslog.Set(id, a.0)));
    SetAcksDelivers(b.r, id, a.0, strays);
    RequestsFrame(b.r, b1.r);
    if a.1.Some? {
      AppendDelivers(b1, id, a.1.value.0, a.1.value.1, false, strays);
      RescheduleDelivers(AppendToCommitlog(b1, id, a.1.value.0, a.1.value.1, false).r, id, IncomingAck, strays);
    }
  }

  lemma {:induction false} SubscribeAllDelivers(b: Batch, id: ConnectionId, filters: seq<(Filter, QoS)>,
                                                subId: Option<nat>, strays: set<ClientId>)
    requires Identified(b.r) && RequestsOk(b.r) && Conserved(b.r, strays) && Delivers(b.r, strays)
    ensures Delivers(SubscribeAll(b, id, filters, subId).0.r, strays)
    decreases |filters|
  {
    hide SubscribeOne, RequestsOk, Conserved, Delivers, NamesOk, NamesOf;
    if filters != [] && Present(b.r, id) {
      var t := SubscribeOne(b.r, id, filters[0].0, filters[0].1);
      SubscribeOneRequests(b.r, id, filters[0].0, filters[0].1);
      SubscribeOneConserved(b.r, id, filters[0].0, filters[0].1, strays);
      SubscribeOneSame(b.r, id, filters[0].0, filters[0].1);
      SubscribeOneDelivers(b.r, id, filters[0].0, filters[0].1, strays);
      SubscribeAllDelivers(b.(r := t), id, filters[1..], subId, strays);
    }
  }

  lemma UnsubscribeOneDelivers(b: Batch, id: ConnectionId, pkid: nat, path: Filter, strays: set<ClientId>)
    requires Present(b.r, id) && Identified(b.r) && Delivers(b.r, strays)
    ensures Delivers(UnsubscribeOne(b, id, pkid, path).r, strays) && Identified(UnsubscribeOne(b, id, pkid, path).r)
  {
    hide Leave, Delivers, NamesOk, NamesOf, Commit;
    UnsubscribeOneSame(b, id, pkid, path);
    if path in b.r.subscriptionMap && id in b.r.subscriptionMap[path] {
      var s := b.r.(subscriptionMap := b.r.subscriptionMap[path := b.r.subscriptionMap[path] - {id}]);
      FrameDelivers(b.r, s, strays);
      LeaveKeepsNames(b.r, s);
      LeaveDelivers(s, id, path, strays);
      LeaveFrame(s, id, path);
      LeaveSame(s, id, path);
      CommitDelivers(Leave(s, id, path), id, UnsubAck(pkid), strays);
    }
  }

  lemma LeaveKeepsNames(s: Router, t: Router)
    requires t == s.(subscriptionMap := t.subscriptionMap)
    ensures NamesOf(t) == NamesOf(s)
  {
    hide Project;
  }

  lemma {:induction false} UnsubscribeAllDelivers(b: Batch, id: ConnectionId, pkid: nat, paths: seq<Filter>,
                                                  strays: set<ClientId>)
    requires Identified(b.r) && Delivers(b.r, strays)
    ensures Delivers(UnsubscribeAll(b, id, pkid, paths).r, strays)
    decreases |paths|
  {
    hide UnsubscribeOne, Delivers, Identified;
    if paths != [] && Present(b.r, id) {
      UnsubscribeOneDelivers(b, id, pkid, paths[0], strays);
      UnsubscribeAllDelivers(UnsubscribeOne(b, id, pkid, paths[0]), id, pkid, paths[1..], strays);
    }
  }

  lemma HandlePubCompDelivers(b: Batch, id: ConnectionId, pkid: nat, strays: set<ClientId>)
    requires Present(b.r, id) && Delivers(b.r, strays)
    ensures Delivers(HandlePubComp(b, id, pkid).r, strays)
  {
    hide Delivers;
    SetObufDelivers(b.r, id, b.r.obufs.m[id].RegisterPubComp(pkid).0, strays);
  }

  lemma HandlePacketDelivers(b: Batch, id: ConnectionId, p: Packet, strays: set<ClientId>)
    requires Present(b.r, id) && Identified(b.r) && RequestsOk(b.r) && Conserved(b.r, strays) && Delivers(b.r, strays)
    ensures Delivers(HandlePacket(b, id, p).r, strays)
  {
    hide Delivers, Identified, RequestsOk, Conserved, Commit, SubscribeAll, UnsubscribeAll, HandlePublish, HandlePubAck,
      HandlePubRec, HandlePubRel, HandlePubComp;
    match p {
      case PacketPublish(publish, props) => HandlePublishDelivers(b, id, publish, props, strays);
      case PacketSubscribe(pkid, filters, subId) =>
        var r := SubscribeAll(b, id, filters, subId);
        SubscribeAllDelivers(b, id, filters, subId, strays);
        if Present(r.0.r, id) {
          CommitDelivers(r.0.r, id, SubAck(pkid, r.1), strays);
        }
      case PacketUnsubscribe(pkid, paths) => UnsubscribeAllDelivers(b, id, pkid, paths, strays);
      case PacketPubAck(pkid) => HandlePubAckDelivers(b, id, pkid, strays);
      case PacketPubRec(pkid) => HandlePubRecDelivers(b, id, pkid, strays);
      case PacketPubRel(pkid, _) => HandlePubRelDelivers(b, id, pkid, strays);
      case PacketPubComp(pkid) => HandlePubCompDelivers(b, id, pkid, strays);
      case PacketPingReq => CommitDelivers(b.r, id, PingResp, strays);
      case PacketDisconnect => FrameDelivers(b.r, b.r.(lastWills := b.r.lastWills - {b.r.ibufs.m[id].clientId}),
                                             strays);
      case PacketOther =>
    }
  }

  lemma MoreDelivers(s: Router, strays: set<ClientId>, more: set<ClientId>)
    requires Delivers(s, strays) && strays <= more
    ensures Delivers(s, more)
  {
    hide DeliversTo, DeliversLater;
    forall id | Straight(s, id, more)
      ensures DeliversTo(s, id)
    {
      assert Straight(s, id, strays);
    }
  }

  // A batch may cost its own client the guarantee, but nobody else.
  lemma {:induction false} HandlePacketsDelivers(b: Batch, id: ConnectionId, packets: seq<Packet>,
                                                 strays: set<ClientId>)
    requires Identified(b.r) && RequestsOk(b.r) && Conserved(b.r, strays) && Delivers(b.r, strays)
    ensures Delivers(HandlePackets(b, id, packets).r, Blamed(strays, ClientOf(b.r, id), NoStray(b, id, packets)))
    decreases |packets|
  {
    hide HandlePacket, RequestsOk, Conserved, Delivers, NamesOk, NamesOf, NoStrayIn, HasZombie, ClientOf, Subscribers;
    if packets != [] && !b.stop && Present(b.r, id) {
      var c, more := HandlePacket(b, id, packets[0]), Blamed(strays, ClientOf(b.r, id), NoStrayIn(b, id, packets[0]));
      HandlePacketSame(b, id, packets[0]);
      SameClient(b.r, c.r, id);
      HandlePacketRequests(b, id, packets[0]);
      HandlePacketConserved(b, id, packets[0], strays);
      HandlePacketDelivers(b, id, packets[0], strays);
      MoreDelivers(c.r, strays, more);
      HandlePacketsDelivers(c, id, packets[1..], more);
    }
  }

  // ---------------------------------------------------------------------------------------------
  // Consuming

  // All that a reachable state of a run without stray requests satisfies.
  ghost predicate Sound(s: Router, strays: set<ClientId>) {
    Identified(s) && RequestsOk(s) && Windows(s.obufs) && Conserved(s, strays) && Delivers(s, strays) && Past(s)
  }

  lemma ConsumeOneSound(s: Router, id: ConnectionId, strays: set<ClientId>)
    requires Present(s, id) && s.scheduler.trackers.m[id].requests != [] && Sound(s, strays)
    ensures Sound(ConsumeOne(s, id).0, strays)
  {
    hide ConsumeOne, Identified, RequestsOk, WindowOk, Windows, Conserved, Delivers, SameSubscriptions, SameOwned,
      Subscribers;
    WindowsAt(s.obufs, id);
    ConsumeOneSame(s, id);
    SameSubscriptionsKeeps(s, ConsumeOne(s, id).0);
    ConsumeOneRequests(s, id);
    ConsumeOneWindow(s, id);
    ConsumeOneOwned(s, id);
    SameConserved(s, ConsumeOne(s, id).0, strays);
    ConsumeOneDelivers(s, id, strays);
    ConsumeOnePast(s, id);
  }

  lemma {:induction false} ConsumeLoopDelivers(s: Router, id: ConnectionId, n: nat, strays: set<ClientId>)
    requires Sound(s, strays)
    ensures Delivers(ConsumeLoop(s, id, n), strays)
    decreases n
  {
    hide ConsumeOne, Pause, Sound, Delivers, Undisturbed;
    if n > 0 && Present(s, id) {
      if s.scheduler.trackers.m[id].requests == [] {
        PauseUndisturbed(s, id, Caughtup);
        SoundDelivers(s, strays);
        UndisturbedDelivers(s, Pause(s, id, Caughtup), strays);
      } else {
        ConsumeOneSound(s, id, strays);
        SoundDelivers(ConsumeOne(s, id).0, strays);
        if ConsumeOne(s, id).1 {
          ConsumeLoopDelivers(ConsumeOne(s, id).0, id, n - 1, strays);
        }
      }
    } else {
      SoundDelivers(s, strays);
    }
  }

  lemma SoundDelivers(s: Router, strays: set<ClientId>)
    requires Sound(s, strays)
    ensures Delivers(s, strays)
  {
    hide Delivers, Identified, RequestsOk, Windows, Conserved;
  }

  lemma SendAcksDelivers(s: Router, id: ConnectionId, strays: set<ClientId>)
    requires Present(s, id) && Delivers(s, strays)
    ensures Delivers(SendAcks(s, id), strays)
  {
    hide Delivers, DeviceAcks;
    var a, o := s.ackslog.m[id], s.obufs.m[id];
    var s1 := s.(ackslog := s.ackslog.Set(id, a.(committed := [])));
    SetAcksDelivers(s, id, a.(committed := []), strays);
    SetObufDelivers(s1, id, o.(buffer := o.buffer + DeviceAcks(a.committed)).Notify(), strays);
  }

  lemma SendAcksSound(s: Router, id: ConnectionId, strays: set<ClientId>)
    requires Present(s, id) && Sound(s, strays)
    ensures Sound(SendAcks(s, id), strays)
  {
    hide SendAcks, Identified, RequestsOk, Windows, Conserved, Delivers, SameSubscriptions, Subscribers;
    SendAcksSame(s, id);
    SameSubscriptionsKeeps(s, SendAcks(s, id));
    SendAcksRequests(s, id);
    SendAcksConserved(s, id, strays);
    SendAcksDelivers(s, id, strays);
    SendAcksFrame(s, id);
    StillPast(s, SendAcks(s, id));
  }

  lemma SendAcksFrame(s: Router, id: ConnectionId)
    requires Present(s, id)
    ensures SendAcks(s, id).accounts == s.accounts && SendAcks(s, id).datalog == s.datalog
  {
    hide DeviceAcks;
  }

  lemma RotateSound(s: Router, strays: set<ClientId>)
    requires Sound(s, strays)
    ensures Sound(s.(scheduler := s.scheduler.Rotate()), strays)
  {
    hide Scheduler.Rotate, Identified, RequestsOk, Windows, Conserved, Delivers, SameSubscriptions, Subscribers,
      Undisturbed;
    var t := s.(scheduler := s.scheduler.Rotate());
    RotateSame(s);
    SameSubscriptionsKeeps(s, t);
    RotateFrame(s);
    RequestsFrame(s, t);
    PauseConserved(s, 0, Busy, strays);
    RotateUndisturbed(s);
    UndisturbedDelivers(s, t, strays);
    StillPast(s, t);
  }

  lemma ConsumeDelivers(s: Router, strays: set<ClientId>)
    requires Sound(s, strays)
    ensures Delivers(Consume(s).0, strays)
  {
    hide ConsumeLoop, SendAcks, Sound, Delivers, Scheduler.Rotate;
    SoundDelivers(s, strays);
    if s.scheduler.readyqueue != [] {
      var id := s.scheduler.readyqueue[0];
      var s1 := s.(scheduler := s.scheduler.Rotate());
      RotateSound(s, strays);
      SoundDelivers(s1, strays);
      if Present(s1, id) {
        SendAcksSound(s1, id, strays);
        ConsumeLoopDelivers(SendAcks(s1, id), id, MAX_SCHEDULE_ITERATIONS, strays);
      }
    }
  }

  // ---------------------------------------------------------------------------------------------
  // Coming and going

  lemma ForgetOnly(accounts: map<AccountKey, Account>, client: ClientId, c: ClientId, f: Filter)
    requires c != client
    ensures SameAccount(accounts, ForgetAccounts(accounts, client), (c, f))
  {
  }

  // The session of a dropped connection: its requests are rewound to what is unacknowledged.
  lemma SavedDelivers(s: Router, id: ConnectionId)
    requires Present(s, id) && s.notifications == [] && DeliversTo(s, id) && !s.connections.m[id].clean
    ensures DeliversLater(s.accounts, s.connections.m[id].clientId, SavedBy(s, id))
  {
    hide Clean, Retransmissions, Rewind, Served, Held;
    var client, q, rs := s.connections.m[id].clientId, s.obufs.m[id].inflight,
        s.scheduler.trackers.m[id].requests + Clean(s.datalog, id).1;
    forall r | r in rs
      ensures Served(s.accounts, client, [], Rewind(r, Retransmissions(q)))
    {
      CleanedHeld(s, id, r);
      RewindServed(s.accounts, client, q, r);
    }
  }

  lemma CleanedHeld(s: Router, id: ConnectionId, r: DataRequest)
    requires Present(s, id) && r in s.scheduler.trackers.m[id].requests + Clean(s.datalog, id).1
    ensures Held(s, id, r)
  {
    hide Clean;
    CleanIs(s.datalog, id);
  }

  lemma RewindServed(accounts: map<AccountKey, Account>, client: ClientId, q: seq<Inflight>, r: DataRequest)
    requires Rising(q) && Served(accounts, client, q, r)
    ensures Served(accounts, client, [], Rewind(r, Retransmissions(q)))
  {
    hide Retransmissions, Rising, Covers, Flies;
    forall o: nat
      ensures !Flies([], r.filterIdx, o)
    {
      NothingFlies(r.filterIdx, o);
    }
    if (client, r.filter) in accounts {
      RewindCovers(accounts[(client, r.filter)], q, r);
    }
  }

  lemma DisconnectHeld(s: Router, id: ConnectionId, other: ConnectionId, r: DataRequest)
    requires Present(s, id) && Held(Disconnect(s, id), other, r)
    ensures Held(s, other, r)
  {
    hide Disconnect, Clean, SavedBy;
    DisconnectShape(s, id);
    CleanIs(s.datalog, id);
  }

  lemma DisconnectOthers(s: Router, id: ConnectionId)
    requires Present(s, id) && Identified(s)
    ensures var t, client := Disconnect(s, id), s.connections.m[id].clientId;
            && !Present(t, id) && LogsKeep(s.datalog, t.datalog)
            && (forall other :: other != id ==> UndisturbedAt(s, t, other))
            && t.accounts == (if s.connections.m[id].clean then ForgetAccounts(s.accounts, client) else s.accounts)
            && t.graveyard == s.graveyard[client := SavedBy(s, id)]
  {
    hide Disconnect, Clean, SavedBy, ForgetAccounts, LogsKeep, Held, NamesOf, NamesOk;
    DisconnectShape(s, id);
    DisconnectRest(s, id);
    IdentifiedPresent(s);
    CleanIs(s.datalog, id);
    SameLogsKeep(s.datalog, Clean(s.datalog, id).0);
    var t := Disconnect(s, id);
    forall other | other != id
      ensures UndisturbedAt(s, t, other)
    {
      forall r | Held(t, other, r)
        ensures Held(s, other, r)
      {
        DisconnectHeld(s, id, other, r);
      }
    }
  }

  lemma DisconnectRest(s: Router, id: ConnectionId)
    requires Present(s, id)
    ensures var t := Disconnect(s, id);
            && t.connections == s.connections.Remove(id) && t.ibufs == s.ibufs.Remove(id)
              && t.ackslog == s.ackslog.Remove(id)
            && t.accounts == (if s.connections.m[id].clean then ForgetAccounts(s.accounts, s.connections.m[id].clientId)
                              else s.accounts)
  {
    hide Clean, RewindAll, Retransmissions, ForgetAccounts, Unsubscribed;
  }

  lemma DisconnectDelivers(s: Router, id: ConnectionId, strays: set<ClientId>)
    requires Identified(s) && s.notifications == [] && Delivers(s, strays)
    ensures Delivers(Disconnect(s, id), strays)
  {
    hide Disconnect, Identified, DeliversTo, DeliversLater, ForgetAccounts, SavedBy, SameAccount, LogsKeep;
    if Present(s, id) {
      var t, client := Disconnect(s, id), s.connections.m[id].clientId;
      DisconnectOthers(s, id);
      NamesDiffer(s, id);
      forall other | Straight(t, other, strays)
        ensures DeliversTo(t, other)
      {
        assert UndisturbedAt(s, t, other) && Straight(s, other, strays);
        OtherAccounts(s, t, client, other);
        OtherDelivers(s, t, other);
      }
      forall c | c in t.graveyard && c !in strays
        ensures DeliversLater(t.accounts, c, t.graveyard[c])
      {
        if c == client {
          OwnLater(s, id);
        } else {
          AccountsOfOther(s, t, client, c);
          LaterElsewhere(s.accounts, t.accounts, c, s.graveyard[c]);
        }
      }
    } else {
      AbsentStays(s, id);
    }
  }

  lemma AccountsOfOther(s: Router, t: Router, client: ClientId, c: ClientId)
    requires t.accounts == s.accounts || t.accounts == ForgetAccounts(s.accounts, client)
    requires c != client
    ensures forall f :: SameAccount(s.accounts, t.accounts, (c, f))
  {
    hide ForgetAccounts, SameAccount;
    forall f
      ensures SameAccount(s.accounts, t.accounts, (c, f))
    {
      ForgetOnly(s.accounts, client, c, f);
      SameAccountRefl(s.accounts, (c, f));
    }
  }

  lemma OtherAccounts(s: Router, t: Router, client: ClientId, other: ConnectionId)
    requires t.accounts == s.accounts || t.accounts == ForgetAccounts(s.accounts, client)
    requires Present(t, other) ==> t.connections.m[other].clientId != client
    ensures Present(t, other) ==> forall f :: SameAccount(s.accounts, t.accounts, (t.connections.m[other].clientId, f))
  {
    hide ForgetAccounts, SameAccount;
    if Present(t, other) {
      AccountsOfOther(s, t, client, t.connections.m[other].clientId);
    }
  }

  lemma OwnLater(s: Router, id: ConnectionId)
    requires Present(s, id) && s.notifications == [] && DeliversTo(s, id)
    ensures var client := s.connections.m[id].clientId;
            DeliversLater(if s.connections.m[id].clean then ForgetAccounts(s.accounts, client)
                          else s.accounts, client, SavedBy(s, id))
  {
    hide DeliversTo, Clean, RewindAll, Retransmissions, Served, ForgetAccounts;
    if !s.connections.m[id].clean {
      SavedDelivers(s, id);
    }
  }

  lemma AdmittedHeld(s: Router, client: ClientId, clean: bool, will: Option<Publish>, id: ConnectionId, r: DataRequest)
    requires Identified(s) && RequestsOk(s) && s.notifications == []
    requires Held(Admitted(s, client, clean, will), id, r)
    ensures var saved := SavedSession(s, client);
            if id == s.connections.NextKey() then !clean && saved.Some? && r in saved.value.tracker.requests
            else Held(s, id, r)
  {
    hide PubRels, ForgetAccounts, NamesOf, NamesOk, HeldOk, DataLogOk, Log.CursorOk, Log.NextOffset;
    AdmitKeysAgree(s);
    IdentifiedPresent(s);
    var t := Admitted(s, client, clean, will);
    if exists i :: 0 <= i < |t.datalog.native| && (id, r) in t.datalog.native[i].waiters {
      var i :| 0 <= i < |t.datalog.native| && (id, r) in t.datalog.native[i].waiters;
      assert ParkedAt(s.datalog, s.scheduler.trackers.m.Keys, i);
    }
  }

  lemma AdmittedParts(s: Router, client: ClientId, clean: bool, will: Option<Publish>)
    requires Identified(s)
    ensures var t, saved, id := Admitted(s, client, clean, will), SavedSession(s, client), s.connections.NextKey();
            var resumed := !clean && saved.Some?;
            && t.datalog == s.datalog && t.graveyard == s.graveyard - {client}
            && t.accounts == (if resumed then s.accounts else ForgetAccounts(s.accounts, client))
            && Present(t, id) && t.connections.m[id].clientId == client && t.obufs.m[id].inflight == []
            && t.connections.m[id].subscriptions == (if resumed then saved.value.subscriptions else {})
            && forall other :: other != id && Present(t, other) ==>
                 && Present(s, other) && t.connections.m[other] == s.connections.m[other]
                   && t.obufs.m[other] == s.obufs.m[other]
  {
    hide PubRels, ForgetAccounts, NamesOf, NamesOk;
    AdmitKeysAgree(s);
  }

  lemma LiveDiffer(s: Router, client: ClientId)
    requires Identified(s) && client !in s.connectionMap
    ensures forall id :: Present(s, id) ==> s.connections.m[id].clientId != client
  {
    hide Project, InLockstep;
    ProjectAt(s.connections, ConnectionName);
  }

  // A resumed session carries on from where it was saved; any other connection starts with nothing.
  lemma AdmittedDelivers(s: Router, client: ClientId, clean: bool, will: Option<Publish>, strays: set<ClientId>)
    requires Identified(s) && RequestsOk(s) && s.notifications == [] && client !in s.connectionMap
             && Delivers(s, strays)
    ensures Delivers(Admitted(s, client, clean, will), Excused(strays, client, FreshSession(s, client, clean)))
  {
    hide Admitted, Identified, RequestsOk, DeliversTo, DeliversLater, ForgetAccounts, SameAccount, LogsKeep;
    var t, id, left := Admitted(s, client, clean, will), s.connections.NextKey(),
        Excused(strays, client, FreshSession(s, client, clean));
    AdmittedParts(s, client, clean, will);
    LiveDiffer(s, client);
    KeepsRefl(s.datalog);
    forall other | Straight(t, other, left)
      ensures DeliversTo(t, other)
    {
      if other == id {
        ResumedDelivers(s, client, clean, will, strays);
      } else {
        AdmittedOther(s, client, clean, will, other);
        assert Straight(s, other, strays);
        OtherAccounts(s, t, client, other);
        OtherDelivers(s, t, other);
      }
    }
    forall c | c in t.graveyard && c !in left
      ensures DeliversLater(t.accounts, c, t.graveyard[c])
    {
      AccountsOfOther(s, t, client, c);
      LaterElsewhere(s.accounts, t.accounts, c, s.graveyard[c]);
    }
  }

  lemma AdmittedOther(s: Router, client: ClientId, clean: bool, will: Option<Publish>, other: ConnectionId)
    requires Identified(s) && RequestsOk(s) && s.notifications == [] && other != s.connections.NextKey()
    ensures UndisturbedAt(s, Admitted(s, client, clean, will), other)
  {
    hide Admitted, Identified, RequestsOk, Held;
    AdmittedParts(s, client, clean, will);
    forall r | Held(Admitted(s, client, clean, will), other, r)
      ensures Held(s, other, r)
    {
      AdmittedHeld(s, client, clean, will, other, r);
    }
  }

  lemma ResumedDelivers(s: Router, client: ClientId, clean: bool, will: Option<Publish>, strays: set<ClientId>)
    requires Identified(s) && RequestsOk(s) && s.notifications == [] && Delivers(s, strays)
    requires client !in strays || FreshSession(s, client, clean)
    ensures DeliversTo(Admitted(s, client, clean, will), s.connections.NextKey())
  {
    hide Admitted, Identified, RequestsOk, Held, Served, DeliversTo, EntryPlaced;
    var t, id := Admitted(s, client, clean, will), s.connections.NextKey();
    AdmittedParts(s, client, clean, will);
    assert client in s.graveyard && client !in strays ==> DeliversLater(s.accounts, client, s.graveyard[client]);
    forall r | Held(t, id, r)
      ensures Served(t.accounts, client, [], r)
    {
      AdmittedHeld(s, client, clean, will, id, r);
    }
    ResumedTo(t, id);
  }

  lemma ResumedTo(t: Router, id: ConnectionId)
    requires Present(t, id) && t.obufs.m[id].inflight == []
    requires Accounted(t.accounts, t.connections.m[id].clientId, t.connections.m[id].subscriptions)
    requires forall r :: Held(t, id, r) ==> Served(t.accounts, t.connections.m[id].clientId, [], r)
    ensures DeliversTo(t, id)
  {
    hide Held, Served;
  }

  lemma DroppedDelivers(s: Router, client: ClientId, strays: set<ClientId>)
    requires Identified(s) && RequestsOk(s) && s.notifications == [] && Delivers(s, strays)
    ensures var d := Dropped(s, client);
            Identified(d) && RequestsOk(d) && d.notifications == [] && Delivers(d, strays) && client !in d.connectionMap
  {
    hide Identified, RequestsOk, Delivers, Disconnect, Subscribers;
    if client in s.connectionMap {
      DisconnectRequests(s, s.connectionMap[client]);
      DisconnectKeeps(s, s.connectionMap[client]);
      DisconnectFreesName(s, client);
      DisconnectDelivers(s, s.connectionMap[client], strays);
    }
  }

  lemma ConnectDelivers(s: Router, client: ClientId, clean: bool, will: Option<Publish>, strays: set<ClientId>)
    requires Identified(s) && RequestsOk(s) && s.notifications == [] && Delivers(s, strays)
    ensures var e := EventConnect(client, clean, will);
            Delivers(Connect(s, client, clean, will), Excused(strays, client, Begins(s, e)))
  {
    hide Identified, RequestsOk, Delivers, Admitted, Disconnect, Scheduler.Reschedule, FreshSession;
    var d, left := Dropped(s, client), Excused(strays, client, FreshSession(Dropped(s, client), client, clean));
    DroppedDelivers(s, client, strays);
    AdmittedDelivers(d, client, clean, will, strays);
    RescheduleDelivers(Admitted(d, client, clean, will), d.connections.NextKey(), Init, left);
  }

  // ---------------------------------------------------------------------------------------------
  // Runs

  lemma WokenDelivers(b: Batch, id: ConnectionId, strays: set<ClientId>)
    requires Delivers(b.r, strays)
    ensures Delivers(Woken(b, id), strays)
  {
    hide Delivers, WakeAll, Reschedule;
    RescheduleDelivers(b.r, id, FreshData, strays);
    WakeAllDelivers(if b.forceAck then Reschedule(b.r, id, FreshData) else b.r, strays);
  }

  lemma DeviceDataDelivers(s: Router, id: ConnectionId, strays: set<ClientId>)
    requires Sound(s, strays) && s.notifications == []
    ensures Delivers(DeviceData(s, id), Blamed(strays, ClientOf(s, id), NoStrayAt(s, EventDeviceData(id))))
  {
    hide Identified, RequestsOk, Windows, HandlePackets, WakeAll, Reschedule, Disconnect, Conserved, NoStray, Delivers,
      Subscribers, SameNames, SameSubscriptions, ClientOf;
    if Present(s, id) {
      var b0 := FirstBatch(s, id);
      var b := HandlePackets(b0, id, s.ibufs.m[id].buffer);
      var ok := Blamed(strays, ClientOf(s, id), NoStrayAt(s, EventDeviceData(id)));
      SetIbufSame(s, id, s.ibufs.m[id].(buffer := []));
      SubscriptionsName(s, b0.r);
      SameClient(s, b0.r, id);
      FirstBatchDelivers(s, id, strays);
      HandlePacketsDelivers(b0, id, s.ibufs.m[id].buffer, strays);
      WokenDelivers(b, id, ok);
      WokenIdentified(s, id);
      DisconnectDelivers(Woken(b, id), id, ok);
    }
  }

  lemma FirstBatchDelivers(s: Router, id: ConnectionId, strays: set<ClientId>)
    requires Sound(s, strays) && Present(s, id)
    ensures var b := FirstBatch(s, id);
            Identified(b.r) && RequestsOk(b.r) && Conserved(b.r, strays) && Delivers(b.r, strays)
  {
    hide Identified, RequestsOk, Windows, Conserved, Delivers, Subscribers, SameSubscriptions;
    FirstBatchConserved(s, id, strays);
    SetIbufSame(s, id, s.ibufs.m[id].(buffer := []));
    SameSubscriptionsKeeps(s, FirstBatch(s, id).r);
    FrameDelivers(s, FirstBatch(s, id).r, strays);
  }

  lemma PublishWillDelivers(s: Router, client: ClientId, strays: set<ClientId>)
    requires RequestsOk(s) && Delivers(s, strays)
    ensures Delivers(PublishWill(s, client), strays)
  {
    hide RequestsOk, WakeAll, AcceptPublish, Delivers;
    if client in s.lastWills {
      var s1 := s.(lastWills := s.lastWills - {client});
      RequestsFrame(s, s1);
      FrameDelivers(s, s1, strays);
      AcceptDelivers(s1, s.lastWills[client], strays);
      WakeAllDelivers(AcceptPublish(s1, s.lastWills[client]), strays);
    }
  }

  lemma StepDelivers(s: Router, e: Event, strays: set<ClientId>)
    requires Sound(s, strays) && s.notifications == []
    ensures Delivers(Step(s, e), StraysAfter(s, e, strays))
  {
    hide Identified, RequestsOk, Windows, Conserved, Delivers, Connect, DeviceData, Disconnect, PublishWill, Consume,
      Reschedule, NoStray, Arrive, Exchange, ClientOf, Begins;
    match e {
      case EventConnect(client, clean, will) => ConnectDelivers(s, client, clean, will, strays);
      case EventDeviceData(id) => DeviceDataDelivers(s, id, strays);
      case EventDisconnect(id) => DisconnectDelivers(s, id, strays);
      case EventPublishWill(client) => PublishWillDelivers(s, client, strays);
      case EventConsume => ConsumeDelivers(s, strays);
      case EventReady(id) => RescheduleDelivers(s, id, LinkReady, strays);
      case EventArrive(id, p) => ArriveDelivers(s, id, p, strays);
      case EventExchange(id) => ExchangeDelivers(s, id, strays);
    }
  }

  lemma ArriveDelivers(s: Router, id: ConnectionId, p: Packet, strays: set<ClientId>)
    requires Delivers(s, strays)
    ensures Delivers(Arrive(s, id, p), strays)
  {
    hide Delivers;
    if id in s.ibufs.m {
      FrameDelivers(s, Arrive(s, id, p), strays);
    }
  }

  lemma ExchangeDelivers(s: Router, id: ConnectionId, strays: set<ClientId>)
    requires Delivers(s, strays)
    ensures Delivers(Exchange(s, id), strays)
  {
    hide Delivers;
    if id in s.obufs.m && s.obufs.m[id].tokens > 0 {
      SetObufDelivers(s, id, s.obufs.m[id].(buffer := [], tokens := s.obufs.m[id].tokens - 1), strays);
    }
  }

  // In every run, for every client that has left no stray request.
  lemma {:induction false} RunDelivers(c: Config, es: seq<Event>)
    requires ConfigOk(c)
    ensures Sound(Run(InitRouter(c), es), StrayClients(InitRouter(c), es))
    decreases |es|
  {
    hide Step, Identified, RequestsOk, Windows, Conserved, Delivers, Subscribers, InitRouter, StraysAfter;
    RunKeepsIdentity(c, es);
    RunKeepsRequests(c, es);
    RunKeepsWindows(c, es);
    RunConserves(c, es);
    RunIsPast(c, es);
    if es == [] {
      InitDelivers(c);
    } else {
      var before := es[..|es| - 1];
      RunDelivers(c, before);
      RunKeepsRequests(c, before);
      StepDelivers(Run(InitRouter(c), before), es[|es| - 1], StrayClients(InitRouter(c), before));
    }
  }

  lemma InitDelivers(c: Config)
    ensures Delivers(InitRouter(c), {})
  {
  }
}

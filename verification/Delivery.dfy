// At-least-once delivery: for every subscription, everything from its start to the position of its
// request is settled or in flight. What each operation of the router does to that.
module Delivery {
  import opened Types
  import opened Slabs
  import opened LogModel
  import opened DataLogModel
  import opened OutgoingModel
  import opened SchedulerModel
  import opened RouterModel
  import opened Frames
  import opened Parking
  import opened Flights
  import opened Identity
  import opened Requests
  import opened RequestRuns

  ghost predicate Held(s: Router, id: ConnectionId, r: DataRequest) {
    || (id in s.scheduler.trackers.m && r in s.scheduler.trackers.m[id].requests)
    || (exists i :: 0 <= i < |s.datalog.native| && (id, r) in s.datalog.native[i].waiters)
    || (id, r) in s.notifications
  }

  // Every subscription has an account.
  ghost predicate Accounted(accounts: map<AccountKey, Account>, client: ClientId, subscriptions: set<Filter>) {
    forall f :: f in subscriptions ==> (client, f) in accounts
  }

  ghost predicate DeliversTo(s: Router, id: ConnectionId) {
    Present(s, id) ==>
      var client, q := s.connections.m[id].clientId, s.obufs.m[id].inflight;
      && Placed(s.datalog, q)
      && Accounted(s.accounts, client, s.connections.m[id].subscriptions)
      && forall r :: Held(s, id, r) ==> Served(s.accounts, client, q, r)
  }

  ghost predicate DeliversLater(accounts: map<AccountKey, Account>, client: ClientId, saved: Option<Session>) {
    saved.Some? ==>
      && Accounted(accounts, client, saved.value.subscriptions)
      && forall r :: r in saved.value.tracker.requests ==> Served(accounts, client, [], r)
  }

  // A connection whose client has left no stray request behind.
  predicate Straight(s: Router, id: ConnectionId, strays: set<ClientId>) {
    Present(s, id) && s.connections.m[id].clientId !in strays
  }

  ghost predicate Delivers(s: Router, strays: set<ClientId>) {
    && (forall id :: Straight(s, id, strays) ==> DeliversTo(s, id))
    && (forall c :: c in s.graveyard && c !in strays ==> DeliversLater(s.accounts, c, s.graveyard[c]))
  }

  // Positions of entries stay what they were.
  ghost predicate LogKeeps(l: Log, m: Log) {
    |l.history| <= |m.history| && forall o: nat :: o < |l.history| ==> m.Where(o) == l.Where(o)
  }

  ghost predicate LogsKeep(a: DataLog, b: DataLog) {
    |a.native| <= |b.native| && forall i :: 0 <= i < |a.native| ==> LogKeeps(a.native[i].log, b.native[i].log)
  }

  lemma PlacedKeeps(a: DataLog, b: DataLog, q: seq<Inflight>)
    requires LogsKeep(a, b) && Placed(a, q)
    ensures Placed(b, q)
  {
    hide Log.Where, Rising;
  }

  // No connection has its window, name or subscriptions changed, and none gets a new request.
  ghost predicate Undisturbed(s: Router, t: Router) {
    && t.accounts == s.accounts && t.graveyard == s.graveyard && LogsKeep(s.datalog, t.datalog)
    && forall id :: UndisturbedAt(s, t, id)
  }

  ghost predicate UndisturbedAt(s: Router, t: Router, id: ConnectionId) {
    Present(t, id) ==>
      && Present(s, id)
      && t.connections.m[id].clientId == s.connections.m[id].clientId
      && t.connections.m[id].subscriptions == s.connections.m[id].subscriptions
      && t.obufs.m[id].inflight == s.obufs.m[id].inflight
      && forall r :: Held(t, id, r) ==> Held(s, id, r)
  }

  lemma UndisturbedDelivers(s: Router, t: Router, strays: set<ClientId>)
    requires Undisturbed(s, t) && Delivers(s, strays)
    ensures Delivers(t, strays)
  {
    hide Served, Held, Placed, LogsKeep, Accounted, DeliversLater;
    forall id | Straight(t, id, strays)
      ensures DeliversTo(t, id)
    {
      assert UndisturbedAt(s, t, id) && Straight(s, id, strays) && DeliversTo(s, id);
      PlacedKeeps(s.datalog, t.datalog, s.obufs.m[id].inflight);
    }
  }

  // Only one connection is affected, and only accounts of its client.
  ghost predicate LocalTo(s: Router, t: Router, id: ConnectionId) {
    && Present(s, id) && Present(t, id) && t.connections.m[id].clientId == s.connections.m[id].clientId
    && t.graveyard == s.graveyard && LogsKeep(s.datalog, t.datalog)
    && (forall k: AccountKey :: k.0 != s.connections.m[id].clientId ==> SameAccount(s.accounts, t.accounts, k))
    && forall other :: other != id ==> UndisturbedAt(s, t, other)
  }

  ghost predicate SameAccount(a: map<AccountKey, Account>, b: map<AccountKey, Account>, k: AccountKey) {
    (k in a <==> k in b) && (k in a ==> b[k] == a[k])
  }

  lemma ServedElsewhere(a: map<AccountKey, Account>, b: map<AccountKey, Account>, client: ClientId, q: seq<Inflight>,
                        r: DataRequest)
    requires SameAccount(a, b, (client, r.filter)) && Served(a, client, q, r)
    ensures Served(b, client, q, r)
  {
    hide Covers, Beyond;
  }

  lemma LaterElsewhere(a: map<AccountKey, Account>, b: map<AccountKey, Account>, client: ClientId,
                       saved: Option<Session>)
    requires forall f :: SameAccount(a, b, (client, f))
    requires DeliversLater(a, client, saved)
    ensures DeliversLater(b, client, saved)
  {
    hide Served, SameAccount;
    if saved.Some? {
      forall f | f in saved.value.subscriptions
        ensures (client, f) in b
      {
        SameAccountIn(a, b, (client, f));
      }
      forall r | r in saved.value.tracker.requests
        ensures Served(b, client, [], r)
      {
        ServedElsewhere(a, b, client, [], r);
      }
    }
  }

  lemma SameAccountIn(a: map<AccountKey, Account>, b: map<AccountKey, Account>, k: AccountKey)
    requires SameAccount(a, b, k)
    ensures k in a <==> k in b
  {
  }

  lemma OtherDelivers(s: Router, t: Router, other: ConnectionId)
    requires UndisturbedAt(s, t, other) && DeliversTo(s, other) && LogsKeep(s.datalog, t.datalog)
    requires Present(t, other) ==> forall f :: SameAccount(s.accounts, t.accounts, (t.connections.m[other].clientId, f))
    ensures DeliversTo(t, other)
  {
    hide Served, Held, Placed, LogsKeep, SameAccount;
    if Present(t, other) {
      var client, q := t.connections.m[other].clientId, t.obufs.m[other].inflight;
      PlacedKeeps(s.datalog, t.datalog, q);
      forall r | Held(t, other, r)
        ensures Served(t.accounts, client, q, r)
      {
        ServedElsewhere(s.accounts, t.accounts, client, q, r);
      }
      forall f | f in t.connections.m[other].subscriptions
        ensures (client, f) in t.accounts
      {
        SameAccountIn(s.accounts, t.accounts, (client, f));
      }
    }
  }

  // Client names of different connections differ, and differ from those of saved sessions.
  lemma NamesDiffer(s: Router, id: ConnectionId)
    requires Identified(s) && Present(s, id)
    ensures forall other :: other != id && Present(s, other) ==>
              s.connections.m[other].clientId != s.connections.m[id].clientId
    ensures s.connections.m[id].clientId !in s.graveyard
  {
    hide Project, InLockstep;
    ProjectAt(s.connections, ConnectionName);
  }

  lemma LocalDelivers(s: Router, t: Router, id: ConnectionId, strays: set<ClientId>)
    requires Identified(s) && Delivers(s, strays) && LocalTo(s, t, id)
    requires Straight(s, id, strays) ==> DeliversTo(t, id)
    ensures Delivers(t, strays)
  {
    hide DeliversTo, DeliversLater, LogsKeep, SameAccount, Identified;
    NamesDiffer(s, id);
    forall other | Straight(t, other, strays)
      ensures DeliversTo(t, other)
    {
      if other != id {
        assert UndisturbedAt(s, t, other) && Straight(s, other, strays);
        OtherDelivers(s, t, other);
      }
    }
    forall c | c in t.graveyard && c !in strays
      ensures DeliversLater(t.accounts, c, t.graveyard[c])
    {
      LaterElsewhere(s.accounts, t.accounts, c, s.graveyard[c]);
    }
  }

  // ---------------------------------------------------------------------------------------------
  // What disturbs nobody

  lemma KeepsRefl(a: DataLog)
    ensures LogsKeep(a, a)
  {
    hide Log.Where;
  }

  lemma AcceptLogsKeep(dl: DataLog, p: Publish)
    requires DataLogOk(dl)
    ensures LogsKeep(dl, Accept(dl, p).0)
  {
    hide Log.Where, Log.Append, Log.Retained, Accept, CacheOk, FanOut, RegistryOk, Log.CursorOk;
    AcceptEach(dl, p);
    forall i | 0 <= i < |dl.native|
      ensures LogKeeps(dl.native[i].log, Accept(dl, p).0.native[i].log)
    {
      RetainedForm(dl.native[i].log);
      AppendKeepsCursors(dl.native[i].log, p.(retain := false));
      AppendRetains(dl.native[i].log, p.(retain := false));
    }
  }

  lemma SameLogsKeep(a: DataLog, b: DataLog)
    requires SameLogs(a, b)
    ensures LogsKeep(a, b)
  {
    hide Log.Where;
  }

  lemma RegisterLogsKeep(dl: DataLog, f: Filter)
    ensures LogsKeep(dl, Register(dl, f))
  {
    hide Log.Where, Extend, NewData;
  }

  ghost predicate SameClients(a: Slab<Connection>, b: Slab<Connection>) {
    && a.m.Keys == b.m.Keys
    && forall id :: id in a.m ==> b.m[id].clientId == a.m[id].clientId && b.m[id].subscriptions == a.m[id].subscriptions
  }

  // Trackers, logs, windows, names, subscriptions and accounts as before.
  lemma FrameUndisturbed(s: Router, t: Router)
    requires t.accounts == s.accounts && t.graveyard == s.graveyard && t.datalog == s.datalog
             && t.notifications == s.notifications
    requires SameClients(s.connections, t.connections)
    requires t.scheduler.trackers.m.Keys == s.scheduler.trackers.m.Keys
    requires forall id :: id in s.scheduler.trackers.m ==>
               t.scheduler.trackers.m[id].requests == s.scheduler.trackers.m[id].requests
    requires forall id :: id in t.obufs.m ==> id in s.obufs.m && t.obufs.m[id].inflight == s.obufs.m[id].inflight
    requires t.ibufs.m.Keys == s.ibufs.m.Keys && t.ackslog.m.Keys == s.ackslog.m.Keys
    ensures Undisturbed(s, t)
  {
    hide LogsKeep;
    KeepsRefl(s.datalog);
    forall id
      ensures UndisturbedAt(s, t, id)
    {
    }
  }

  lemma RescheduleUndisturbed(s: Router, id: ConnectionId, why: ScheduleReason)
    ensures Undisturbed(s, Reschedule(s, id, why))
  {
    hide Undisturbed, Awakens;
    FrameUndisturbed(s, Reschedule(s, id, why));
  }

  lemma PauseUndisturbed(s: Router, id: ConnectionId, why: PauseReason)
    ensures Undisturbed(s, Pause(s, id, why))
  {
    hide Undisturbed;
    FrameUndisturbed(s, Pause(s, id, why));
  }

  lemma RotateUndisturbed(s: Router)
    ensures Undisturbed(s, s.(scheduler := s.scheduler.Rotate()))
  {
    hide Undisturbed;
    FrameUndisturbed(s, s.(scheduler := s.scheduler.Rotate()));
  }

  lemma WakeUndisturbed(s: Router)
    requires s.notifications != []
    ensures Undisturbed(s, Wake(s, s.notifications[0]).(notifications := s.notifications[1..]))
  {
    hide LogsKeep, Awakens;
    var t := Wake(s, s.notifications[0]).(notifications := s.notifications[1..]);
    KeepsRefl(s.datalog);
    forall id
      ensures UndisturbedAt(s, t, id)
    {
      forall r | Held(t, id, r)
        ensures Held(s, id, r)
      {
        assert s.notifications[0] in s.notifications;
      }
    }
  }

  lemma {:induction false} WakeAllDelivers(s: Router, strays: set<ClientId>)
    requires Delivers(s, strays)
    ensures Delivers(WakeAll(s), strays)
    decreases |s.notifications|
  {
    hide Wake, Delivers, Undisturbed;
    if s.notifications != [] {
      WakeUndisturbed(s);
      UndisturbedDelivers(s, Wake(s, s.notifications[0]).(notifications := s.notifications[1..]), strays);
      WakeAllDelivers(Wake(s, s.notifications[0]).(notifications := s.notifications[1..]), strays);
    }
  }

  lemma AcceptUndisturbed(s: Router, p: Publish)
    requires DataLogOk(s.datalog)
    ensures Undisturbed(s, AcceptPublish(s, p))
  {
    hide LogsKeep, DataLogOk, Lookup, AppendAll;
    var t, q := AcceptPublish(s, p), p.(retain := false);
    AcceptLogsKeep(s.datalog, p);
    AppendAllWakes(s.datalog.native, MatchingFilters(s.datalog, q.topic), q);
    forall id
      ensures UndisturbedAt(s, t, id)
    {
    }
  }

  // ---------------------------------------------------------------------------------------------
  // Acknowledgements

  // A window entry that came from the log of a filter.
  predicate CameFrom(dl: DataLog, e: Inflight, f: Filter) {
    e.cursor.Some? && e.filterIdx < |dl.native| && dl.native[e.filterIdx].filter == f
  }

  // What the head of the window leaving it means for one account.
  lemma SettleIs(s: Router, id: ConnectionId, pkid: nat, f: Filter)
    requires Present(s, id) && DataLogOk(s.datalog) && Placed(s.datalog, s.obufs.m[id].inflight)
             && s.obufs.m[id].inflight != []
    ensures var k, e := (s.connections.m[id].clientId, f), s.obufs.m[id].inflight[0];
            var m := Settle(s, id, pkid);
            && (k in m <==> k in s.accounts)
            && (k in s.accounts ==>
                  m[k] == if !CameFrom(s.datalog, e, f) then s.accounts[k]
                          else if e.pkid == pkid then
                            s.accounts[k].(acked := s.accounts[k].acked + {e.cursor.value.offset})
                          else s.accounts[k].(dropped := s.accounts[k].dropped + {e.cursor.value.offset}))
            && forall k': AccountKey :: k'.0 != k.0 ==> SameAccount(s.accounts, m, k')
  {
    hide DataLogOk, Rising, Log.Where;
    assert EntryPlaced(s.datalog, s.obufs.m[id].inflight[0]);
  }

  // Nobody else's accounts are touched.
  lemma SettleOthers(s: Router, id: ConnectionId, pkid: nat)
    requires Present(s, id)
    ensures forall k: AccountKey :: k.0 != s.connections.m[id].clientId ==>
              SameAccount(s.accounts, Settle(s, id, pkid), k)
  {
  }

  lemma SettleNothing(s: Router, id: ConnectionId, pkid: nat)
    requires Present(s, id) && s.obufs.m[id].inflight == []
    ensures Settle(s, id, pkid) == s.accounts && s.obufs.m[id].RegisterAck(pkid).0 == s.obufs.m[id]
  {
  }

  // Requests name the log of their filter, so equal filters mean equal logs.
  lemma SameFilterSameLog(s: Router, id: ConnectionId, r: DataRequest)
    requires RequestsOk(s) && Held(s, id, r)
    ensures r.filterIdx < |s.datalog.native| && s.datalog.native[r.filterIdx].filter == r.filter
    ensures forall i :: 0 <= i < |s.datalog.native| && s.datalog.native[i].filter == r.filter ==> i == r.filterIdx
  {
    hide LogsOk, CacheOk, FanOut, SavedOk, SentOk, Log.CursorOk, Log.NextOffset;
    if id in s.scheduler.trackers.m && r in s.scheduler.trackers.m[id].requests {
      assert ReqOk(s.datalog, r);
    } else if (id, r) in s.notifications {
      assert ReqOk(s.datalog, r);
    } else {
      var i :| 0 <= i < |s.datalog.native| && (id, r) in s.datalog.native[i].waiters;
      assert ParkedAt(s.datalog, s.scheduler.trackers.m.Keys, i);
    }
  }

  lemma AckServed(s: Router, id: ConnectionId, pkid: nat, r: DataRequest)
    requires Present(s, id) && RequestsOk(s) && DeliversTo(s, id) && Held(s, id, r) && s.obufs.m[id].inflight != []
    ensures Served(Settle(s, id, pkid), s.connections.m[id].clientId, s.obufs.m[id].inflight[1..], r)
  {
    hide Settle, Flies, Rising, DataLogOk, HeldOk, ParkedOk, Held, Covers, Beyond;
    var q, client := s.obufs.m[id].inflight, s.connections.m[id].clientId;
    RequestsLogs(s);
    SettleIs(s, id, pkid, r.filter);
    SameFilterSameLog(s, id, r);
    assert EntryPlaced(s.datalog, q[0]);
    var k := (client, r.filter);
    if k in s.accounts {
      AckCovers(s.accounts[k], q, r, Settle(s, id, pkid)[k]);
    } else {
      TailBeyond(q, r);
    }
  }

  lemma TailBeyond(q: seq<Inflight>, r: DataRequest)
    requires q != [] && Beyond(q, r.filterIdx, r.cursor.offset)
    ensures Beyond(q[1..], r.filterIdx, r.cursor.offset)
  {
    hide Flies;
    forall o: nat | Flies(q[1..], r.filterIdx, o)
      ensures o < r.cursor.offset
    {
      FliesTail(q, r.filterIdx, o);
    }
  }

  lemma RegisterAckDelivers(s: Router, id: ConnectionId, pkid: nat, strays: set<ClientId>)
    requires Present(s, id) && Identified(s) && RequestsOk(s) && Delivers(s, strays)
    ensures Delivers(RegisterAck(s, id, pkid), strays)
  {
    hide RequestsOk, Identified, Delivers, RegisterAck, LocalTo, DeliversTo, Settle;
    if s.obufs.m[id].inflight == [] {
      SettleNothing(s, id, pkid);
      NothingToAck(s, id, pkid, strays);
    } else {
      RegisterAckLocal(s, id, pkid);
      if Straight(s, id, strays) {
        DeliversAt(s, id, strays);
        RegisterAckTo(s, id, pkid);
      }
      LocalDelivers(s, RegisterAck(s, id, pkid), id, strays);
    }
  }

  lemma DeliversAt(s: Router, id: ConnectionId, strays: set<ClientId>)
    requires Delivers(s, strays) && Straight(s, id, strays)
    ensures DeliversTo(s, id)
  {
    hide DeliversTo, DeliversLater;
  }

  lemma NothingToAck(s: Router, id: ConnectionId, pkid: nat, strays: set<ClientId>)
    requires Present(s, id) && s.obufs.m[id].inflight == [] && Delivers(s, strays)
    ensures Delivers(RegisterAck(s, id, pkid), strays)
  {
    hide Undisturbed, Delivers;
    FrameUndisturbed(s, RegisterAck(s, id, pkid));
    UndisturbedDelivers(s, RegisterAck(s, id, pkid), strays);
  }

  lemma RegisterAckLocal(s: Router, id: ConnectionId, pkid: nat)
    requires Present(s, id)
    ensures LocalTo(s, RegisterAck(s, id, pkid), id)
  {
    hide Settle, LogsKeep, SameAccount;
    SettleOthers(s, id, pkid);
    KeepsRefl(s.datalog);
    RegisterAckFrame(s, id, pkid);
    var t := RegisterAck(s, id, pkid);
    forall other | other != id
      ensures UndisturbedAt(s, t, other)
    {
    }
  }

  lemma RegisterAckTo(s: Router, id: ConnectionId, pkid: nat)
    requires Present(s, id) && RequestsOk(s) && DeliversTo(s, id) && s.obufs.m[id].inflight != []
    ensures DeliversTo(RegisterAck(s, id, pkid), id)
  {
    hide Settle, RequestsOk, Placed, Served, RegisterAck, Held;
    var t, client, q := RegisterAck(s, id, pkid), s.connections.m[id].clientId, s.obufs.m[id].inflight;
    RegisterAckParts(s, id, pkid);
    TailPlaced(s.datalog, q);
    RequestsLogs(s);
    forall r | Held(t, id, r)
      ensures Served(t.accounts, client, q[1..], r)
    {
      HeldFrame(s, t, id, r);
      AckServed(s, id, pkid, r);
    }
    forall f | f in s.connections.m[id].subscriptions
      ensures (client, f) in t.accounts
    {
      SettleIs(s, id, pkid, f);
    }
  }

  lemma RegisterAckParts(s: Router, id: ConnectionId, pkid: nat)
    requires Present(s, id) && s.obufs.m[id].inflight != []
    ensures var t := RegisterAck(s, id, pkid);
            && Present(t, id) && t.datalog == s.datalog && t.scheduler == s.scheduler
              && t.notifications == s.notifications
            && t.connections == s.connections && t.accounts == Settle(s, id, pkid)
              && t.obufs.m[id].inflight == s.obufs.m[id].inflight[1..]
  {
    hide Settle;
  }

  lemma HeldFrame(s: Router, t: Router, id: ConnectionId, r: DataRequest)
    requires t.datalog == s.datalog && t.scheduler == s.scheduler && t.notifications == s.notifications
    ensures Held(t, id, r) == Held(s, id, r)
  {
  }
}

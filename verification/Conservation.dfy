// Requests are conserved: every subscription of a live connection or a saved session owns a request
// that is tracked, parked on its log, or woken and about to be tracked.
module Conservation {
  import opened Types
  import opened Slabs
  import opened LogModel
  import opened DataLogModel
  import opened SchedulerModel
  import opened RouterModel
  import opened Parking
  import opened Identity
  import opened Requests

  ghost function OfFilter(f: Filter): DataRequest -> bool {
    (r: DataRequest) => r.filter == f
  }

  ghost function OfBoth(id: ConnectionId, f: Filter): Waiter -> bool {
    (w: Waiter) => w.0 == id && w.1.filter == f
  }

  ghost function Tracked(t: Slab<Tracker>, id: ConnectionId, f: Filter): nat {
    if id in t.m then Count(t.m[id].requests, OfFilter(f)) else 0
  }

  // Requests for a filter can only be parked on that filter's log.
  ghost function Parked(dl: DataLog, id: ConnectionId, f: Filter): nat {
    if f in dl.filterIndexes && dl.filterIndexes[f] < |dl.native| then
      Count(dl.native[dl.filterIndexes[f]].waiters, OfBoth(id, f))
    else 0
  }

  ghost function Pending(ns: seq<Waiter>, id: ConnectionId, f: Filter): nat {
    Count(ns, OfBoth(id, f))
  }

  ghost function Owned(s: Router, id: ConnectionId, f: Filter): nat {
    Tracked(s.scheduler.trackers, id, f) + Parked(s.datalog, id, f) + Pending(s.notifications, id, f)
  }

  // At least one request for a subscription; exactly one, and none without, if exact.
  predicate Right(n: nat, subscribed: bool, exact: bool) {
    (subscribed ==> n >= 1) && (exact ==> n == if subscribed then 1 else 0)
  }

  ghost function Subs(s: Router): Slab<set<Filter>> {
    Project(s.connections, SubscriptionsOf)
  }

  ghost function ClientOf(s: Router, id: ConnectionId): ClientId {
    var names := NamesOf(s).connections;
    if id in names.m then names.m[id].0 else ""
  }

  // strays: the clients whose count need not be exact.
  ghost predicate LiveRight(s: Router, strays: set<ClientId>) {
    forall id, f :: id in Subs(s).m ==> Right(Owned(s, id, f), f in Subs(s).m[id], ClientOf(s, id) !in strays)
  }

  ghost predicate SavedRight(g: map<ClientId, Option<Session>>, strays: set<ClientId>) {
    forall c, f :: c in g && g[c].Some? ==>
      Right(Count(g[c].value.tracker.requests, OfFilter(f)), f in g[c].value.subscriptions, c !in strays)
  }

  ghost predicate Conserved(s: Router, strays: set<ClientId>) {
    LiveRight(s, strays) && SavedRight(s.graveyard, strays)
  }

  ghost predicate SameOwned(s: Router, t: Router) {
    forall id, f :: Owned(t, id, f) == Owned(s, id, f)
  }

  lemma MoreStrays(s: Router, strays: set<ClientId>, more: set<ClientId>)
    requires Conserved(s, strays) && strays <= more
    ensures Conserved(s, more)
  {
    hide Project, Owned, Count, NamesOf;
  }

  lemma SameClient(s: Router, t: Router, id: ConnectionId)
    requires SameNames(s, t)
    ensures ClientOf(t, id) == ClientOf(s, id)
  {
    hide Project;
  }

  lemma ClientIs(s: Router, id: ConnectionId)
    requires id in s.connections.m
    ensures ClientOf(s, id) == s.connections.m[id].clientId
  {
    hide Project;
    ProjectAt(s.connections, ConnectionName);
  }

  lemma SameConserved(s: Router, t: Router, strays: set<ClientId>)
    requires SameSubscriptions(s, t) && SameOwned(s, t) && Conserved(s, strays)
    ensures Conserved(t, strays)
  {
    hide Project, Owned;
  }

  // ---------------------------------------------------------------------------------------------
  // Trackers

  lemma CountSnoc<T>(s: seq<T>, x: T, p: T -> bool)
    ensures Count(s + [x], p) == Count(s, p) + (if p(x) then 1 else 0)
  {
    assert (s + [x])[..|s|] == s;
  }

  lemma CountHead<T>(s: seq<T>, p: T -> bool)
    requires s != []
    ensures Count(s, p) == (if p(s[0]) then 1 else 0) + Count(s[1..], p)
  {
    assert s == [s[0]] + s[1..];
    CountConcat([s[0]], s[1..], p);
    CountSnoc([], s[0], p);
  }

  lemma TrackCount(c: Scheduler, id: ConnectionId, r: DataRequest, id': ConnectionId, f: Filter)
    requires id in c.trackers.m
    ensures Tracked(c.Track(id, r).trackers, id', f)
            == Tracked(c.trackers, id', f) + (if id' == id && f == r.filter then 1 else 0)
  {
    hide Count;
    CountSnoc(c.trackers.m[id].requests, r, OfFilter(f));
  }

  lemma RescheduleCount(c: Scheduler, id: ConnectionId, why: ScheduleReason, p: PauseReason, id': ConnectionId,
                        f: Filter)
    ensures Tracked(c.Reschedule(id, why).trackers, id', f) == Tracked(c.trackers, id', f)
    ensures Tracked(c.Pause(id, p).trackers, id', f) == Tracked(c.trackers, id', f)
    ensures Tracked(c.Rotate().trackers, id', f) == Tracked(c.trackers, id', f)
  {
    hide Count, Awakens;
  }

  lemma RescheduleOwned(s: Router, id: ConnectionId, why: ScheduleReason)
    ensures SameOwned(s, Reschedule(s, id, why))
  {
    hide Tracked, Parked, Pending, Scheduler.Reschedule;
    forall id', f
      ensures Owned(Reschedule(s, id, why), id', f) == Owned(s, id', f)
    {
      RescheduleCount(s.scheduler, id, why, Busy, id', f);
    }
  }

  lemma RescheduleConserved(s: Router, id: ConnectionId, why: ScheduleReason, strays: set<ClientId>)
    requires Conserved(s, strays)
    ensures Conserved(Reschedule(s, id, why), strays)
  {
    hide Conserved, NamesOf, SameOwned, Project, Scheduler.Reschedule;
    RescheduleSame(s, id, why);
    RescheduleOwned(s, id, why);
    SameConserved(s, Reschedule(s, id, why), strays);
  }

  lemma WakeOwned(s: Router)
    requires s.notifications != [] && s.notifications[0].0 in s.scheduler.trackers.m
    ensures SameOwned(s, Wake(s, s.notifications[0]).(notifications := s.notifications[1..]))
  {
    hide Tracked, Parked, Scheduler.Reschedule, Scheduler.Track, Count;
    var w := s.notifications[0];
    var t := Wake(s, w).(notifications := s.notifications[1..]);
    forall id', f
      ensures Owned(t, id', f) == Owned(s, id', f)
    {
      TrackCount(s.scheduler, w.0, w.1, id', f);
      RescheduleCount(s.scheduler.Track(w.0, w.1), w.0, FreshData, Busy, id', f);
      CountHead(s.notifications, OfBoth(id', f));
    }
  }

  lemma {:induction false} WakeAllOwned(s: Router)
    requires forall w :: w in s.notifications ==> w.0 in s.scheduler.trackers.m
    ensures SameOwned(s, WakeAll(s))
    decreases |s.notifications|
  {
    hide Wake, Owned;
    if s.notifications != [] {
      var t := Wake(s, s.notifications[0]).(notifications := s.notifications[1..]);
      WakeOwned(s);
      WakeKeys(s, s.notifications[0]);
      WakeAllOwned(t);
    }
  }

  lemma WakeKeys(s: Router, w: Waiter)
    ensures Wake(s, w).scheduler.trackers.m.Keys == s.scheduler.trackers.m.Keys
  {
  }

  // ---------------------------------------------------------------------------------------------
  // The logs

  // What a set of appends wakes: everything parked on the logs that are appended to.
  lemma {:induction false} AppendAllCount(native: seq<Data>, idxs: seq<FilterIdx>, p: Publish, k: FilterIdx,
                                          q: Waiter -> bool)
    requires NoDuplicates(idxs) && (forall i :: i in idxs ==> i < |native|) && k < |native|
    requires forall i, w :: 0 <= i < |native| && i != k && w in native[i].waiters ==> !q(w)
    ensures Count(AppendAll(native, idxs, p).1, q) == if k in idxs then Count(native[k].waiters, q) else 0
  {
    hide Log.Append;
    if idxs != [] {
      var rest, last := idxs[..|idxs| - 1], idxs[|idxs| - 1];
      assert idxs == rest + [last];
      assert forall i :: i in rest ==> i in idxs;
      AppendAllCount(native, rest, p, k, q);
      AppendAllEach(native, rest, p);
      assert last in idxs && last !in rest;
      CountConcat(AppendAll(native, rest, p).1, native[last].waiters, q);
      CountZero(native[last].waiters, q);
    }
  }

  lemma AcceptCount(dl: DataLog, live: set<ConnectionId>, p: Publish, id: ConnectionId, f: Filter)
    requires DataLogOk(dl) && ParkedOk(dl, live)
    ensures Parked(Accept(dl, p).0, id, f) + Count(Accept(dl, p).1, OfBoth(id, f)) == Parked(dl, id, f)
  {
    hide Log.Append, Log.Retained, Log.CursorOk, Log.NextOffset, Lookup, Count, AppendAll, FanOut, LogsOk;
    var q := p.(retain := false);
    var idxs := MatchingFilters(dl, q.topic);
    LookupIsFullScan(dl, q.topic);
    AcceptEach(dl, p);
    AcceptFrame(dl, p);
    if f in dl.filterIndexes {
      OthersElsewhere(dl, live, id, f);
      AppendAllCount(dl.native, idxs, q, dl.filterIndexes[f], OfBoth(id, f));
      CountZero([], OfBoth(id, f));
    } else {
      NoneParked(dl, live, p, id, f);
    }
  }

  lemma OthersElsewhere(dl: DataLog, live: set<ConnectionId>, id: ConnectionId, f: Filter)
    requires RegistryOk(dl) && ParkedOk(dl, live) && f in dl.filterIndexes
    ensures forall i, w :: 0 <= i < |dl.native| && i != dl.filterIndexes[f] && w in dl.native[i].waiters ==>
              !OfBoth(id, f)(w)
  {
    hide Log.CursorOk, Log.NextOffset;
    forall i, w | 0 <= i < |dl.native| && i != dl.filterIndexes[f] && w in dl.native[i].waiters
      ensures !OfBoth(id, f)(w)
    {
      assert ParkedAt(dl, live, i);
    }
  }

  lemma NoneParked(dl: DataLog, live: set<ConnectionId>, p: Publish, id: ConnectionId, f: Filter)
    requires RegistryOk(dl) && ParkedOk(dl, live) && f !in dl.filterIndexes
    ensures Count(Accept(dl, p).1, OfBoth(id, f)) == 0
  {
    hide Log.Append, Log.CursorOk, Log.NextOffset, Lookup, Count, AppendAll;
    var q := p.(retain := false);
    AppendAllWakes(dl.native, MatchingFilters(dl, q.topic), q);
    forall w | w in Accept(dl, p).1
      ensures !OfBoth(id, f)(w)
    {
      var i :| 0 <= i < |dl.native| && w in dl.native[i].waiters;
      assert ParkedAt(dl, live, i);
    }
    CountZero(Accept(dl, p).1, OfBoth(id, f));
  }

  lemma AcceptOwned(s: Router, p: Publish)
    requires RequestsOk(s)
    ensures SameOwned(s, AcceptPublish(s, p))
  {
    hide Tracked, Parked, Accept, Count, DataLogOk, ParkedOk;
    forall id, f
      ensures Owned(AcceptPublish(s, p), id, f) == Owned(s, id, f)
    {
      AcceptCount(s.datalog, s.scheduler.trackers.m.Keys, p, id, f);
      CountConcat(s.notifications, Accept(s.datalog, p).1, OfBoth(id, f));
    }
  }

  lemma RegisterParkedCount(dl: DataLog, path: Filter, id: ConnectionId, f: Filter)
    requires RegistryOk(dl)
    ensures Parked(Register(dl, path), id, f) == Parked(dl, id, f)
  {
    hide Limits, Extend;
    CountZero([], OfBoth(id, f));
  }

  lemma {:induction false} RemoveAllCount(w: seq<Waiter>, id: ConnectionId, id': ConnectionId, f: Filter)
    ensures Count(RemoveAll(w, id).0, OfBoth(id', f)) == if id' == id then 0 else Count(w, OfBoth(id', f))
    ensures Count(RemoveAll(w, id).1, OfFilter(f)) == Count(w, OfBoth(id, f))
    decreases |w|
  {
    PositionIs(w, id);
    var i := Position(w, id);
    if i == |w| {
      CountZero(w, OfBoth(id, f));
      CountZero<DataRequest>([], OfFilter(f));
    } else {
      RemoveAllCount(SwapRemove(w, i), id, id', f);
      SwapRemoveCount(w, i, OfBoth(id', f));
      SwapRemoveCount(w, i, OfBoth(id, f));
      CountConcat([w[i].1], RemoveAll(SwapRemove(w, i), id).1, OfFilter(f));
      CountSnoc([], w[i].1, OfFilter(f));
    }
  }

  lemma RemoveOneCount(w: seq<Waiter>, id: ConnectionId, id': ConnectionId, f: Filter, f': Filter)
    requires forall x :: x in w ==> x.1.filter == f
    ensures Count(RemoveOne(w, id), OfBoth(id', f')) ==
            if id' == id && f' == f && Count(w, OfBoth(id, f)) > 0 then Count(w, OfBoth(id, f)) - 1
              else Count(w, OfBoth(id', f'))
  {
    hide Count, Position;
    PositionIs(w, id);
    var i := Position(w, id);
    if i == |w| {
      CountZero(w, OfBoth(id, f));
    } else {
      SwapRemoveCount(w, i, OfBoth(id', f'));
      CountZero(w, OfBoth(id, f));
    }
  }

  lemma {:induction false} CleanCount(native: seq<Data>, id: ConnectionId, n: nat, k: FilterIdx, f: Filter)
    requires n <= |native| && k < |native|
    requires forall i, w :: 0 <= i < |native| && i != k && w in native[i].waiters ==> w.1.filter != f
    ensures Count(CleanFirst(native, id, n).1, OfFilter(f)) == if k < n then Count(native[k].waiters, OfBoth(id, f))
            else 0
  {
    hide Count, RemoveAll;
    if n == 0 {
      CountZero<DataRequest>([], OfFilter(f));
    } else {
      CleanCount(native, id, n - 1, k, f);
      CleanFirstIs(native, id, n - 1);
      RemoveAllCount(native[n - 1].waiters, id, id, f);
      CountConcat(CleanFirst(native, id, n - 1).1, RemoveAll(native[n - 1].waiters, id).1, OfFilter(f));
      CountZero(native[n - 1].waiters, OfBoth(id, f));
    }
  }

  // Cleaning takes exactly what a connection has parked, and nothing of anyone else.
  lemma CleanOwned(dl: DataLog, live: set<ConnectionId>, id: ConnectionId, id': ConnectionId, f: Filter)
    requires RegistryOk(dl) && ParkedOk(dl, live)
    ensures Parked(Clean(dl, id).0, id', f) == if id' == id then 0 else Parked(dl, id', f)
    ensures Count(Clean(dl, id).1, OfFilter(f)) == Parked(dl, id, f)
  {
    hide Count, RemoveAll, CleanFirst, Log.CursorOk, Log.NextOffset;
    CleanFirstIs(dl.native, id, |dl.native|);
    FilterElsewhere(dl, live, f);
    if f in dl.filterIndexes {
      var k := dl.filterIndexes[f];
      CleanCount(dl.native, id, |dl.native|, k, f);
      RemoveAllCount(dl.native[k].waiters, id, id', f);
    } else {
      CleanNone(dl, id, f);
    }
  }

  lemma CleanNone(dl: DataLog, id: ConnectionId, f: Filter)
    requires forall i, w :: 0 <= i < |dl.native| && w in dl.native[i].waiters ==> w.1.filter != f
    ensures Count(Clean(dl, id).1, OfFilter(f)) == 0
  {
    hide CleanFirst;
    CleanIs(dl, id);
    forall r | r in Clean(dl, id).1
      ensures !OfFilter(f)(r)
    {
      var i :| 0 <= i < |dl.native| && (id, r) in dl.native[i].waiters;
    }
    CountZero(Clean(dl, id).1, OfFilter(f));
  }

  lemma FilterElsewhere(dl: DataLog, live: set<ConnectionId>, f: Filter)
    requires RegistryOk(dl) && ParkedOk(dl, live)
    ensures forall i, w :: 0 <= i < |dl.native| && w in dl.native[i].waiters && w.1.filter == f ==>
              f in dl.filterIndexes && i == dl.filterIndexes[f]
  {
    hide Log.CursorOk, Log.NextOffset;
    forall i, w | 0 <= i < |dl.native| && w in dl.native[i].waiters && w.1.filter == f
      ensures f in dl.filterIndexes && i == dl.filterIndexes[f]
    {
      assert ParkedAt(dl, live, i);
    }
  }

  lemma ParkCount(dl: DataLog, id: ConnectionId, r: DataRequest, id': ConnectionId, f: Filter)
    requires RegistryOk(dl) && ReqOk(dl, r)
    ensures Parked(Park(dl, id, r), id', f) == Parked(dl, id', f) + (if id' == id && f == r.filter then 1 else 0)
  {
    hide Count, Log.CursorOk;
    CountSnoc(dl.native[r.filterIdx].waiters, (id, r), OfBoth(id', f));
  }

  lemma {:induction false} WithoutFilterCount(rs: seq<DataRequest>, path: Filter, f: Filter)
    ensures Count(WithoutFilter(rs, path), OfFilter(f)) == if f == path then 0 else Count(rs, OfFilter(f))
  {
    if rs == [] {
      CountZero(rs, OfFilter(f));
    } else {
      WithoutFilterCount(rs[..|rs| - 1], path, f);
      CountSnoc(WithoutFilter(rs[..|rs| - 1], path), rs[|rs| - 1], OfFilter(f));
    }
  }

  lemma RemoveWaiterCount(dl: DataLog, live: set<ConnectionId>, id: ConnectionId, path: Filter, id': ConnectionId,
                          f: Filter)
    requires RegistryOk(dl) && ParkedOk(dl, live)
    ensures Parked(RemoveWaiter(dl, id, path), id', f) ==
            if id' == id && f == path && Parked(dl, id, path) > 0 then Parked(dl, id, path) - 1 else Parked(dl, id', f)
  {
    hide Count, RemoveOne, Log.CursorOk, Log.NextOffset;
    if path in dl.filterIndexes {
      var k := dl.filterIndexes[path];
      assert ParkedAt(dl, live, k);
      RemoveOneCount(dl.native[k].waiters, id, id', path, f);
    }
  }

  // ---------------------------------------------------------------------------------------------
  // Subscribing and unsubscribing

  lemma SubscribeOneOwned(s: Router, id: ConnectionId, path: Filter, qos: QoS, id': ConnectionId, f: Filter)
    requires Present(s, id) && RequestsOk(s)
    ensures Owned(SubscribeOne(s, id, path, qos), id', f) ==
            Owned(s, id', f) + (if id' == id && f == path && path !in s.connections.m[id].subscriptions then 1 else 0)
  {
    hide Register, IndexOf, Tracked, Parked, Pending, HeldOk, ParkedOk, Scheduler.Track, Scheduler.Reschedule,
      SubscribeOne, Log.NextOffset, LogsOk, CacheOk, FanOut, RegistryOk;
    SubscribeOneShape(s, id, path, qos);
    RegisterParkedCount(s.datalog, path, id', f);
    var dl := Register(s.datalog, path);
    var i := IndexOf(dl, path);
    var r := DataRequest(path, i, qos, if i < |dl.native| then dl.native[i].log.NextOffset()
                         else Cursor(0, 0), 0, true);
    TrackCount(s.scheduler, id, r, id', f);
    RescheduleCount(s.scheduler.Track(id, r), id, NewFilter, Busy, id', f);
  }

  lemma SubscribeOneSubs(s: Router, id: ConnectionId, path: Filter, qos: QoS)
    requires Present(s, id)
    ensures id in Subs(s).m && Subs(s).m[id] == s.connections.m[id].subscriptions
    ensures Subs(SubscribeOne(s, id, path, qos)) == Subs(s).Set(id, Subs(s).m[id] + {path})
    ensures SubscribeOne(s, id, path, qos).graveyard == s.graveyard
  {
    hide Project, Register, IndexOf, AddSubscriber, Scheduler.Track, Scheduler.Reschedule;
    var c := s.connections.m[id];
    ProjectAt(s.connections, SubscriptionsOf);
    ProjectSet(s.connections, id, c.(subscriptions := c.subscriptions + {path}), SubscriptionsOf);
    if path in c.subscriptions {
      assert Subs(s).m[id] + {path} == Subs(s).m[id];
      SetSame(Subs(s), id);
    }
  }

  lemma SetSame<T>(s: Slab<T>, id: nat)
    requires id in s.m
    ensures s.Set(id, s.m[id]) == s
  {
  }

  lemma SubscribeOneConserved(s: Router, id: ConnectionId, path: Filter, qos: QoS, strays: set<ClientId>)
    requires Present(s, id) && RequestsOk(s) && Conserved(s, strays)
    ensures Conserved(SubscribeOne(s, id, path, qos), strays)
  {
    hide Subs, Owned, SubscribeOne, RequestsOk, SavedRight, ClientOf, SameNames, Subscribers;
    SubscribeOneSubs(s, id, path, qos);
    SubscribeOneSame(s, id, path, qos);
    var t := SubscribeOne(s, id, path, qos);
    forall id', f | id' in Subs(t).m
      ensures Right(Owned(t, id', f), f in Subs(t).m[id'], ClientOf(t, id') !in strays)
    {
      SameClient(s, t, id');
      SubscribeOneOwned(s, id, path, qos, id', f);
    }
  }

  lemma LeaveOwned(s: Router, id: ConnectionId, path: Filter, id': ConnectionId, f: Filter)
    requires Present(s, id) && RequestsOk(s)
    ensures Owned(Leave(s, id, path), id', f) ==
            if id' == id && f == path then
              (if Parked(s.datalog, id, path) > 0 then Parked(s.datalog, id, path) - 1
               else 0) + Pending(s.notifications, id, path)
            else Owned(s, id', f)
  {
    hide RemoveWaiter, WithoutFilter, Count, Parked, Pending, LogsOk, CacheOk, FanOut, RegistryOk, HeldOk, ParkedOk;
    RemoveWaiterCount(s.datalog, s.scheduler.trackers.m.Keys, id, path, id', f);
    WithoutFilterCount(s.scheduler.trackers.m[id].requests, path, f);
  }

  lemma LeaveSubs(s: Router, id: ConnectionId, path: Filter)
    requires Present(s, id)
    ensures id in Subs(s).m && Subs(s).m[id] == s.connections.m[id].subscriptions
    ensures Subs(Leave(s, id, path)) == Subs(s).Set(id, Subs(s).m[id] - {path})
    ensures Leave(s, id, path).graveyard == s.graveyard
  {
    hide Project, RemoveWaiter, Scheduler.Untrack;
    var c := s.connections.m[id];
    ProjectAt(s.connections, SubscriptionsOf);
    ProjectSet(s.connections, id, c.(subscriptions := c.subscriptions - {path}), SubscriptionsOf);
  }

  // Leaving a filter takes its request along, unless that request has just been woken by a publish
  // of the same batch: then, and only then, a request without a subscription is left over.
  lemma LeaveConserved(s: Router, id: ConnectionId, path: Filter, strays: set<ClientId>)
    requires Present(s, id) && RequestsOk(s) && path in s.connections.m[id].subscriptions && Conserved(s, strays)
    ensures ClientOf(s, id) !in strays ==>
              (Conserved(Leave(s, id, path), strays) <==> Pending(s.notifications, id, path) == 0)
    ensures Conserved(Leave(s, id, path), strays + {ClientOf(s, id)})
    ensures Pending(s.notifications, id, path) == 0 ==> Conserved(Leave(s, id, path), strays)
  {
    hide Subs, Owned, Parked, Pending, Leave, RequestsOk, SavedRight, ClientOf, SameNames;
    LeaveSubs(s, id, path);
    LeaveOwned(s, id, path, id, path);
    LeaveSame(s, id, path);
    assert Right(Owned(s, id, path), true, ClientOf(s, id) !in strays);
    OwnedParts(s, id, path);
    var t := Leave(s, id, path);
    forall id', f | id' in Subs(t).m
      ensures ClientOf(t, id') == ClientOf(s, id')
      ensures (id' == id && f == path) || Right(Owned(t, id', f), f in Subs(t).m[id'], ClientOf(t, id') !in strays)
    {
      SameClient(s, t, id');
      LeaveOwned(s, id, path, id', f);
    }
    SavedWeaker(s.graveyard, strays, strays + {ClientOf(s, id)});
    if ClientOf(s, id) !in strays && Pending(s.notifications, id, path) != 0 {
      assert !Right(Owned(t, id, path), path in Subs(t).m[id], true);
    }
  }

  lemma OwnedParts(s: Router, id: ConnectionId, f: Filter)
    ensures Owned(s, id, f) >= Parked(s.datalog, id, f) + Pending(s.notifications, id, f)
  {
    hide Tracked, Parked, Pending;
  }

  lemma SavedWeaker(g: map<ClientId, Option<Session>>, strays: set<ClientId>, more: set<ClientId>)
    requires SavedRight(g, strays) && strays <= more
    ensures SavedRight(g, more)
  {
    hide Count;
  }
}

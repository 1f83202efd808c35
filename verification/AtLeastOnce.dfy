// The delivery guarantee in the terms of a subscriber, for every reachable state and every client that
// has left no stray request behind.
module AtLeastOnce {
  import opened Types
  import opened Slabs
  import opened LogModel
  import opened DataLogModel
  import opened OutgoingModel
  import opened RouterModel
  import opened Parking
  import opened Flights
  import opened Window
  import opened Identity
  import opened Requests
  import opened RequestRuns
  import opened Conservation
  import opened ConservationRuns
  import opened Delivery
  import opened DeliveryRuns

  // Every subscription has a request to speak of.
  lemma SubscriptionHolds(s: Router, id: ConnectionId, f: Filter, strays: set<ClientId>)
    requires Present(s, id) && Conserved(s, strays) && f in s.connections.m[id].subscriptions
    ensures exists r :: Held(s, id, r) && r.filter == f
  {
    hide Count, SavedRight, ClientOf;
    ProjectAt(s.connections, SubscriptionsOf);
    assert Right(Owned(s, id, f), f in Subs(s).m[id], ClientOf(s, id) !in strays);
    if Pending(s.notifications, id, f) > 0 {
      CountZero(s.notifications, OfBoth(id, f));
      var w :| w in s.notifications && OfBoth(id, f)(w);
      assert Held(s, id, w.1);
    } else if Tracked(s.scheduler.trackers, id, f) > 0 {
      CountZero(s.scheduler.trackers.m[id].requests, OfFilter(f));
      var r :| r in s.scheduler.trackers.m[id].requests && OfFilter(f)(r);
      assert Held(s, id, r);
    } else {
      var k := s.datalog.filterIndexes[f];
      CountZero(s.datalog.native[k].waiters, OfBoth(id, f));
      var w :| w in s.datalog.native[k].waiters && OfBoth(id, f)(w);
      assert Held(s, id, w.1);
    }
  }

  // Where a disconnect would rewind a request to.
  function Unacked(s: Router, id: ConnectionId, r: DataRequest): nat
    requires Present(s, id)
  {
    Rewind(r, Retransmissions(s.obufs.m[id].inflight)).cursor.offset
  }

  // Go-back-N for one subscription: everything from its start to the first unacknowledged offset is
  // settled; from there to the position of its request everything is in flight unless it had been
  // evicted; nothing in flight lies outside; nothing acknowledged or dropped lies at or after it; and
  // nothing is acknowledged, in flight, evicted or dropped twice over.
  ghost predicate GoesBackN(s: Router, id: ConnectionId, r: DataRequest)
    requires Present(s, id)
  {
    var q, k, first := s.obufs.m[id].inflight, (s.connections.m[id].clientId, r.filter), Unacked(s, id, r);
    && k in s.accounts
    && FirstUnacked(q, r, first)
    && (forall o: nat :: Flies(q, r.filterIdx, o) ==> first <= o < r.cursor.offset)
    && (forall o: nat :: Gone(s.accounts[k], o) ==> o < first)
    && (forall o: nat :: o in s.accounts[k].missed ==> !Gone(s.accounts[k], o) && !Flies(q, r.filterIdx, o))
    && s.accounts[k].acked !! s.accounts[k].dropped
    && (r.qos != AtMostOnce ==>
          && (forall o: nat :: s.accounts[k].start <= o < first ==> Settled(s.accounts[k], o))
          && (forall o: nat :: s.accounts[k].start <= o < r.cursor.offset && first <= o ==>
                Flies(q, r.filterIdx, o) || o in s.accounts[k].missed))
  }

  lemma ServedGoesBackN(accounts: map<AccountKey, Account>, k: AccountKey, q: seq<Inflight>, r: DataRequest, first: nat)
    requires Rising(q) && k.1 == r.filter && k in accounts && Served(accounts, k.0, q, r) && FirstUnacked(q, r, first)
    ensures forall o: nat :: Flies(q, r.filterIdx, o) ==> first <= o < r.cursor.offset
    ensures forall o: nat :: Gone(accounts[k], o) ==> o < first
    ensures forall o: nat :: o in accounts[k].missed ==> !Gone(accounts[k], o) && !Flies(q, r.filterIdx, o)
    ensures accounts[k].acked !! accounts[k].dropped
    ensures r.qos != AtMostOnce ==>
              && (forall o: nat :: accounts[k].start <= o < first ==> Settled(accounts[k], o))
              && (forall o: nat :: accounts[k].start <= o < r.cursor.offset && first <= o ==>
                    Flies(q, r.filterIdx, o) || o in accounts[k].missed)
  {
    hide Flies, Rising;
    forall o: nat
      ensures Settled(accounts[k], o) <==> Gone(accounts[k], o) || o in accounts[k].missed
    {
    }
  }

  lemma SoundGoesBackN(s: Router, id: ConnectionId, r: DataRequest, strays: set<ClientId>)
    requires Sound(s, strays) && Straight(s, id, strays) && Held(s, id, r)
             && r.filter in s.connections.m[id].subscriptions
    ensures GoesBackN(s, id, r)
  {
    hide Identified, RequestsOk, Windows, Conserved, Held, Rising, Flies, Retransmissions, Served, FirstUnacked,
      EntryPlaced, Gone, Settled;
    var q, k := s.obufs.m[id].inflight, (s.connections.m[id].clientId, r.filter);
    DeliversAt(s, id, strays);
    RewindsToFirst(q, r);
    ServedGoesBackN(s.accounts, k, q, r, Unacked(s, id, r));
  }

  // Every subscription of every live connection has a request, and goes back N unless its client has
  // left a stray request behind.
  ghost predicate AllGoBackN(s: Router, strays: set<ClientId>) {
    && (forall id, f :: Present(s, id) && f in s.connections.m[id].subscriptions ==>
          exists r :: Held(s, id, r) && r.filter == f)
    && (forall id, r :: Straight(s, id, strays) && Held(s, id, r) && r.filter in s.connections.m[id].subscriptions ==>
          GoesBackN(s, id, r))
  }

  // The main theorem, over all interleavings of events.
  lemma DeliveredInEveryRun(c: Config, es: seq<Event>)
    requires ConfigOk(c)
    ensures AllGoBackN(Run(InitRouter(c), es), StrayClients(InitRouter(c), es))
  {
    hide Run, InitRouter, StrayClients, GoesBackN, Held, Identified, RequestsOk, Windows, Conserved, Delivers;
    var s, strays := Run(InitRouter(c), es), StrayClients(InitRouter(c), es);
    RunDelivers(c, es);
    forall id, f | Present(s, id) && f in s.connections.m[id].subscriptions
      ensures exists r :: Held(s, id, r) && r.filter == f
    {
      SubscriptionHolds(s, id, f, strays);
    }
    forall id, r | Straight(s, id, strays) && Held(s, id, r) && r.filter in s.connections.m[id].subscriptions
      ensures GoesBackN(s, id, r)
    {
      SoundGoesBackN(s, id, r, strays);
    }
  }

  // The window lists the entries of each log in cursor order, which is what retransmission relies on.
  lemma PlacedIsOrdered(dl: DataLog, q: seq<Inflight>)
    requires DataLogOk(dl) && Placed(dl, q)
    ensures Ordered(q)
  {
    hide CacheOk, FanOut, RegistryOk, Log.Where;
    forall i, j | 0 <= i < j < |q| && q[i].filterIdx == q[j].filterIdx && q[i].cursor.Some? && q[j].cursor.Some?
      ensures Before(q[i].cursor.value, q[j].cursor.value)
    {
      assert EntryPlaced(dl, q[i]) && EntryPlaced(dl, q[j]);
      var l := dl.native[q[i].filterIdx].log;
      RetainedForm(l);
      WhereIsMonotone(l, q[i].cursor.value.offset, q[j].cursor.value.offset);
    }
  }

  lemma WindowsOrderedInEveryRun(c: Config, es: seq<Event>)
    requires ConfigOk(c)
    ensures var s, strays := Run(InitRouter(c), es), StrayClients(InitRouter(c), es);
            forall id :: Straight(s, id, strays) ==> Ordered(s.obufs.m[id].inflight)
  {
    hide Run, InitRouter, StrayClients, Identified, RequestsOk, Windows, Conserved, Delivers, DataLogOk, Ordered,
      Placed, Served, Accounted;
    var s, strays := Run(InitRouter(c), es), StrayClients(InitRouter(c), es);
    RunDelivers(c, es);
    RequestsLogs(s);
    forall id | Straight(s, id, strays)
      ensures Ordered(s.obufs.m[id].inflight)
    {
      DeliversAt(s, id, strays);
      PlacedIsOrdered(s.datalog, s.obufs.m[id].inflight);
    }
  }

  // A disconnect of a persistent session keeps every request, at its first unacknowledged entry.
  lemma DisconnectRewinds(s: Router, id: ConnectionId, r: DataRequest)
    requires Identified(s) && Present(s, id) && s.notifications == [] && DeliversTo(s, id)
    requires Held(s, id, r) && !s.connections.m[id].clean && RequestsOk(s)
    ensures var t, client := Disconnect(s, id), s.connections.m[id].clientId;
            && client in t.graveyard && t.graveyard[client].Some?
            && exists r' :: r' in t.graveyard[client].value.tracker.requests
                 && r' == r.(cursor := r'.cursor) && FirstUnacked(s.obufs.m[id].inflight, r, r'.cursor.offset)
  {
    hide Identified, RequestsOk, Disconnect, Held, Clean, Retransmissions, Rising, Served, FirstUnacked, EntryPlaced,
      LogsKeep;
    DisconnectOthers(s, id);
    var q, rs := s.obufs.m[id].inflight, s.scheduler.trackers.m[id].requests + Clean(s.datalog, id).1;
    HeldIsSaved(s, id, r);
    var j :| 0 <= j < |rs| && rs[j] == r;
    RewindsToFirst(q, r);
    var saved := RewindAll(rs, Retransmissions(q));
    assert saved[j] == Rewind(r, Retransmissions(q));
  }

  // Nothing a connection holds is lost by cleaning up after it.
  lemma HeldIsSaved(s: Router, id: ConnectionId, r: DataRequest)
    requires Present(s, id) && s.notifications == [] && Held(s, id, r) && RequestsOk(s)
    ensures r in s.scheduler.trackers.m[id].requests + Clean(s.datalog, id).1
  {
    hide Clean, DataLogOk, HeldOk, ParkedOk;
    if r !in s.scheduler.trackers.m[id].requests {
      var i :| 0 <= i < |s.datalog.native| && (id, r) in s.datalog.native[i].waiters;
      CleanTakes(s.datalog.native, id, |s.datalog.native|, i, r);
      CleanIsFirst(s.datalog, id);
    }
  }

  lemma CleanIsFirst(dl: DataLog, id: ConnectionId)
    ensures Clean(dl, id).1 == CleanFirst(dl.native, id, |dl.native|).1
  {
  }

  lemma {:induction false} CleanTakes(native: seq<Data>, id: ConnectionId, n: nat, i: nat, r: DataRequest)
    requires i < n <= |native| && (id, r) in native[i].waiters
    ensures r in CleanFirst(native, id, n).1
  {
    if i == n - 1 {
      RemoveAllTakes(native[i].waiters, id, r);
      CleanLength(native, id, n - 1);
    } else {
      CleanTakes(native, id, n - 1, i, r);
    }
  }

  lemma {:induction false} CleanLength(native: seq<Data>, id: ConnectionId, n: nat)
    requires n <= |native|
    ensures |CleanFirst(native, id, n).0| == |native|
  {
    if n > 0 {
      CleanLength(native, id, n - 1);
    }
  }

  lemma {:induction false} RemoveAllTakes(w: seq<Waiter>, id: ConnectionId, r: DataRequest)
    requires (id, r) in w
    ensures r in RemoveAll(w, id).1
    decreases |w|
  {
    PositionIs(w, id);
    var i := Position(w, id);
    assert i < |w|;
    if w[i] != (id, r) {
      var j :| 0 <= j < |w| && w[j] == (id, r);
      var u := SwapRemove(w, i);
      assert (if j == |w| - 1 then u[i] else u[j]) == (id, r);
      RemoveAllTakes(u, id, r);
    }
  }
}

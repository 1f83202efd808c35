// Persistent sessions: what a disconnect saves is what the next connect of the client restores.
module Sessions {
  import opened Types
  import opened Slabs
  import opened LogModel
  import opened DataLogModel
  import opened OutgoingModel
  import opened SchedulerModel
  import opened RouterModel
  import opened Parking
  import opened Identity
  import opened Queue

  // ---------------------------------------------------------------------------------------------
  // What cleaning takes, as a multiset

  // How often a request is parked for a connection on the first n logs.
  ghost function ParkedTimes(native: seq<Data>, id: ConnectionId, r: DataRequest, n: nat): nat
    requires n <= |native|
  {
    if n == 0 then 0 else ParkedTimes(native, id, r, n - 1) + multiset(native[n - 1].waiters)[(id, r)]
  }

  lemma SwapRemoveMultiset<T>(w: seq<T>, i: nat)
    requires i < |w|
    ensures multiset(SwapRemove(w, i)) == multiset(w) - multiset{w[i]}
  {
    var last := w[|w| - 1];
    var u, v := w[i := last], SwapRemove(w, i);
    assert u == v + [last];
    assert multiset(u) == multiset(v) + multiset{last};
    assert multiset(u) == multiset(w) - multiset{w[i]} + multiset{last};
    forall x
      ensures multiset(v)[x] == (multiset(w) - multiset{w[i]})[x]
    {
      assert multiset(u)[x] == multiset(v)[x] + multiset{last}[x];
    }
  }

  lemma {:induction false} RemoveAllMultiset(w: seq<Waiter>, id: ConnectionId, r: DataRequest)
    ensures multiset(RemoveAll(w, id).1)[r] == multiset(w)[(id, r)]
    decreases |w|
  {
    PositionIs(w, id);
    var i := Position(w, id);
    if i == |w| {
      assert (id, r) !in w;
    } else {
      var u, rest := SwapRemove(w, i), RemoveAll(SwapRemove(w, i), id).1;
      SwapRemoveMultiset(w, i);
      RemoveAllMultiset(u, id, r);
      assert multiset([w[i].1] + rest) == multiset{w[i].1} + multiset(rest);
    }
  }

  lemma {:induction false} CleanMultiset(native: seq<Data>, id: ConnectionId, r: DataRequest, n: nat)
    requires n <= |native|
    ensures multiset(CleanFirst(native, id, n).1)[r] == ParkedTimes(native, id, r, n)
  {
    hide RemoveAll;
    if n > 0 {
      CleanMultiset(native, id, r, n - 1);
      CleanFirstIs(native, id, n - 1);
      RemoveAllMultiset(native[n - 1].waiters, id, r);
    }
  }

  // Requests are saved with the multiplicity they were tracked and parked with.
  lemma SavesEverything(s: Router, id: ConnectionId, r: DataRequest)
    requires Present(s, id)
    ensures var rs := s.scheduler.trackers.m[id].requests;
            multiset(rs + Clean(s.datalog, id).1)[r]
              == multiset(rs)[r] + ParkedTimes(s.datalog.native, id, r, |s.datalog.native|)
  {
    hide CleanFirst;
    CleanMultiset(s.datalog.native, id, r, |s.datalog.native|);
  }

  // ---------------------------------------------------------------------------------------------
  // Restoring

  // Whether a connect gets past the client id check and the connection limit.
  predicate Accepted(s: Router, client: ClientId) {
    ValidClientId(client) && |Dropped(s, client).connections.m| < s.config.maxConnections
  }

  lemma DroppedConfig(s: Router, client: ClientId)
    ensures Dropped(s, client).config == s.config
  {
    hide Clean, RewindAll, Retransmissions, ForgetAccounts, Unsubscribed;
  }

  lemma ConnectIsAdmit(s: Router, client: ClientId, clean: bool, will: Option<Publish>)
    ensures Connect(s, client, clean, will) ==
            if !ValidClientId(client) then s
            else if Accepted(s, client) then Admit(Dropped(s, client), client, clean, will)
            else Dropped(s, client)
  {
    hide Admit, Disconnect;
    DroppedConfig(s, client);
  }

  // State of a connection right after it has been admitted.
  ghost predicate Resumed(t: Router, id: ConnectionId, client: ClientId, session: Option<Session>, present: bool,
                          clean: bool) {
    var subs, rs, pubrels :=
      if session.Some? then session.value.subscriptions else {},
      if session.Some? then session.value.tracker.requests else [],
      if session.Some? then session.value.unackedPubrels else [];
    && Present(t, id)
    && client in t.connectionMap && t.connectionMap[client] == id && client !in t.graveyard
    && t.connections.m[id] == Connection(client, clean, subs, map[]) && t.ibufs.m[id].buffer == []
    && t.scheduler.trackers.m[id] == Tracker(client, rs, Ready) && id in t.scheduler.readyqueue
    && t.obufs.m[id] == NewOutgoing(client, pubrels)
    && t.ackslog.m[id] == AckLog([ConnAck(id, present)] + PubRels(pubrels), [])
  }

  // session_present is set exactly when a session was saved and the connect does not ask for a clean
  // one; exactly then is that session restored, whole, and its unacknowledged releases come right
  // after the ConnAck, in order.
  lemma AdmitResumes(s: Router, client: ClientId, clean: bool, will: Option<Publish>)
    requires Identified(s) && SavedBusy(s)
    ensures var saved, present := SavedSession(s, client), !clean && SavedSession(s, client).Some?;
            Resumed(Admit(s, client, clean, will), s.connections.NextKey(), client, if present then saved else None,
                    present, clean)
  {
    hide PubRels, ForgetAccounts, NamesOf, NamesOk;
    AdmitKeysAgree(s);
    AdmitSaved(s, client);
  }

  // A disconnect and the next connect of a persistent client, with nothing in between.
  lemma SessionRoundTrip(s: Router, id: ConnectionId, will: Option<Publish>)
    requires Identified(s) && SavedBusy(s) && Present(s, id) && !s.connections.m[id].clean
    requires Accepted(Disconnect(s, id), s.connections.m[id].clientId)
    ensures var client, o, rs := s.connections.m[id].clientId, s.obufs.m[id], s.scheduler.trackers.m[id].requests;
            var requests := RewindAll(rs + Clean(s.datalog, id).1, Retransmissions(o.inflight));
            var session := Session(Tracker(client, requests, Paused(Busy)), s.connections.m[id].subscriptions,
                                   o.unackedPubrels);
            Resumed(Connect(Disconnect(s, id), client, false, will), id, client, Some(session), true, false)
  {
    hide Disconnect, Admit, Clean, RewindAll, Retransmissions, NamesOk, NamesOf, Resumed, Dropped, SavedBusy,
      Subscribers;
    var client, t := s.connections.m[id].clientId, Disconnect(s, id);
    IdentifiedPresent(s);
    DisconnectKeeps(s, id);
    DisconnectSavedBusy(s, id);
    DisconnectSaves(s, id);
    ConnectIsAdmit(t, client, false, will);
    NotLive(t, client);
    AdmitResumes(t, client, false, will);
  }

  lemma NotLive(s: Router, client: ClientId)
    requires client !in s.connectionMap
    ensures Dropped(s, client) == s
  {
  }

  // Where the session goes, and that the vacated id is the next one handed out.
  lemma DisconnectSaves(s: Router, id: ConnectionId)
    requires Identified(s) && Present(s, id)
    ensures var t, client := Disconnect(s, id), s.connections.m[id].clientId;
            && SavedSession(t, client) == SavedBy(s, id)
            && client !in t.connectionMap && t.connections.NextKey() == id
  {
    hide Clean, RewindAll, Retransmissions, ForgetAccounts, Unsubscribed, NamesOf, NamesOk;
    IdentifiedPresent(s);
  }

  // A session is saved if and only if its connection did not ask for a clean one.
  lemma SavedIff(s: Router, id: ConnectionId)
    requires Identified(s) && Present(s, id)
    ensures SavedSession(Disconnect(s, id), s.connections.m[id].clientId).Some? <==> !s.connections.m[id].clean
  {
    hide Disconnect, NamesOf, NamesOk, Clean, RewindAll, Retransmissions;
    DisconnectSaves(s, id);
  }

  // Taking over a live connection of the same client is a disconnect followed by a connect.
  lemma TakeoverIsReconnect(s: Router, id: ConnectionId, clean: bool, will: Option<Publish>)
    requires Identified(s) && Present(s, id) && ValidClientId(s.connections.m[id].clientId)
    ensures var client := s.connections.m[id].clientId;
            Connect(s, client, clean, will) == Connect(Disconnect(s, id), client, clean, will)
  {
    hide Disconnect, Admit, NamesOf, NamesOk;
    var client := s.connections.m[id].clientId;
    LiveIsMapped(s, id);
    DisconnectSaves(s, id);
  }

  lemma LiveIsMapped(s: Router, id: ConnectionId)
    requires Identified(s) && Present(s, id)
    ensures s.connections.m[id].clientId in s.connectionMap && s.connectionMap[s.connections.m[id].clientId] == id
  {
    hide Project, InLockstep;
    ProjectAt(s.connections, ConnectionName);
  }

  // The first turn of a resumed connection puts the ConnAck and then every release into its buffer.
  lemma ReleasesAreResent(s: Router, id: ConnectionId, client: ClientId, session: Session)
    requires Resumed(s, id, client, Some(session), true, false)
    ensures var b, p := SendAcks(s, id).obufs.m[id].buffer, session.unackedPubrels;
            && |b| == 1 + |p| && b[0] == DeviceAck(ConnAck(id, true))
            && forall j :: 0 <= j < |p| ==> b[1 + j] == DeviceAck(PubRel(p[j]))
  {
    var a, p := s.ackslog.m[id].committed, session.unackedPubrels;
    assert a == [ConnAck(id, true)] + PubRels(p);
    forall j | 0 <= j < |p|
      ensures DeviceAcks(a)[1 + j] == DeviceAck(PubRel(p[j]))
    {
    }
  }

  // ---------------------------------------------------------------------------------------------
  // Between the two

  ghost predicate Away(s: Router, client: ClientId) {
    client !in s.connectionMap
  }

  lemma DisconnectOther(s: Router, id: ConnectionId, client: ClientId)
    requires Identified(s) && Away(s, client)
    ensures Away(Disconnect(s, id), client) && SavedSession(Disconnect(s, id), client) == SavedSession(s, client)
  {
    hide Clean, RewindAll, Retransmissions, ForgetAccounts, Unsubscribed, NamesOf, NamesOk;
    if Present(s, id) {
      IdentifiedPresent(s);
      LiveIsMapped(s, id);
    }
  }

  lemma ConnectOther(s: Router, other: ClientId, clean: bool, will: Option<Publish>, client: ClientId)
    requires Identified(s) && Away(s, client) && other != client
    ensures var t := Connect(s, other, clean, will);
            Away(t, client) && SavedSession(t, client) == SavedSession(s, client)
  {
    hide Disconnect, Identified, ForgetAccounts, PubRels, Scheduler.Reschedule;
    if other in s.connectionMap {
      DisconnectOther(s, s.connectionMap[other], client);
    }
  }

  lemma SameAway(s: Router, t: Router, client: ClientId)
    requires SameNames(s, t) && Away(s, client)
    ensures Away(t, client) && SavedSession(t, client) == SavedSession(s, client)
  {
    hide Project;
  }

  lemma DeviceDataOther(s: Router, id: ConnectionId, client: ClientId)
    requires Identified(s) && Away(s, client)
    ensures Away(DeviceData(s, id), client) && SavedSession(DeviceData(s, id), client) == SavedSession(s, client)
  {
    hide HandlePackets, WakeAll, Reschedule, Disconnect, NamesOf, NamesOk, Away, SavedSession, Subscribers;
    if Present(s, id) {
      var b0 := Batch(TakePackets(s, id), false, false, false, None, false);
      var b := HandlePackets(b0, id, s.ibufs.m[id].buffer);
      SetIbufSame(s, id, s.ibufs.m[id].(buffer := []));
      HandlePacketsSame(b0, id, s.ibufs.m[id].buffer);
      WokenSame(b, id);
      SameAway(s, Woken(b, id), client);
      DisconnectOther(Woken(b, id), id, client);
    }
  }

  lemma WillOther(s: Router, who: ClientId, client: ClientId)
    requires Away(s, client)
    ensures Away(PublishWill(s, who), client) && SavedSession(PublishWill(s, who), client) == SavedSession(s, client)
  {
    hide WakeAll, AcceptPublish, NamesOf, Away, SavedSession;
    if who in s.lastWills {
      var s1 := s.(lastWills := s.lastWills - {who});
      LastWillsSame(s, s1.lastWills);
      AcceptSame(s1, s.lastWills[who]);
      WakeAllSame(AcceptPublish(s1, s.lastWills[who]));
      SameAway(s, PublishWill(s, who), client);
    }
  }

  lemma StepOther(s: Router, e: Event, client: ClientId)
    requires Identified(s) && Away(s, client) && !(e.EventConnect? && e.client == client)
    ensures Away(Step(s, e), client) && SavedSession(Step(s, e), client) == SavedSession(s, client)
  {
    hide Identified, Connect, DeviceData, Disconnect, PublishWill, Consume, NamesOf, Reschedule, Away, SavedSession;
    match e {
      case EventConnect(other, clean, will) => ConnectOther(s, other, clean, will, client);
      case EventDeviceData(id) => DeviceDataOther(s, id, client);
      case EventDisconnect(id) => DisconnectOther(s, id, client);
      case EventPublishWill(who) => WillOther(s, who, client);
      case EventConsume =>
        ConsumeSame(s);
        SameAway(s, Consume(s).0, client);
      case EventReady(id) =>
        RescheduleSame(s, id, LinkReady);
        SameAway(s, Reschedule(s, id, LinkReady), client);
      case _ => BufferOther(s, e, client);
    }
  }

  lemma BufferOther(s: Router, e: Event, client: ClientId)
    requires (e.EventArrive? || e.EventExchange?) && Away(s, client)
    ensures Away(Step(s, e), client) && SavedSession(Step(s, e), client) == SavedSession(s, client)
  {
  }

  // Whatever other clients do meanwhile, a saved session stays what it was until its client connects.
  lemma {:induction false} SessionSurvives(s: Router, es: seq<Event>, client: ClientId)
    requires Identified(s) && Away(s, client)
    requires forall e :: e in es ==> !(e.EventConnect? && e.client == client)
    ensures Identified(Run(s, es)) && Away(Run(s, es), client)
    ensures SavedSession(Run(s, es), client) == SavedSession(s, client)
    decreases |es|
  {
    hide Step, Identified, Away, SavedSession, Subscribers;
    if es != [] {
      SessionSurvives(s, es[..|es| - 1], client);
      StepKeeps(Run(s, es[..|es| - 1]), es[|es| - 1]);
      StepOther(Run(s, es[..|es| - 1]), es[|es| - 1], client);
    }
  }

  // ---------------------------------------------------------------------------------------------
  // Leaving a filter

  // An Unsubscribe takes a subscription away exactly when the subscription map lists the connection.
  lemma UnsubscribeWorksIff(b: Batch, id: ConnectionId, pkid: nat, path: Filter)
    requires Present(b.r, id) && path in b.r.connections.m[id].subscriptions
    ensures var t := UnsubscribeOne(b, id, pkid, path).r;
            && Present(t, id)
            && (path !in t.connections.m[id].subscriptions <==>
                  path in b.r.subscriptionMap && id in b.r.subscriptionMap[path])
            && (path in t.connections.m[id].subscriptions ==> t == b.r)
  {
    hide RemoveWaiter, WithoutFilter;
  }

  // A resumed connection is listed for no filter, so it cannot leave one before subscribing again.
  lemma ResumedIsNotListed(s: Router, client: ClientId, clean: bool, will: Option<Publish>)
    requires Identified(s) && Subscribers(s)
    ensures var t, id := Admit(s, client, clean, will), s.connections.NextKey();
            forall f :: f in t.subscriptionMap ==> id !in t.subscriptionMap[f]
  {
    hide PubRels, ForgetAccounts, NamesOf, NamesOk, Project, Scheduler.Reschedule;
    AdmitKeysAgree(s);
    ProjectAt(s.connections, SubscriptionsOf);
  }

  lemma ResubscribedIsListed(s: Router, id: ConnectionId, path: Filter, qos: QoS)
    requires Present(s, id)
    ensures var t := SubscribeOne(s, id, path, qos);
            path in t.subscriptionMap && id in t.subscriptionMap[path] && Present(t, id)
              && path in t.connections.m[id].subscriptions
  {
    hide Register, IndexOf, Scheduler.Track, Scheduler.Reschedule;
    SubscribeOneSame(s, id, path, qos);
    SameNamesPresent(s, SubscribeOne(s, id, path, qos));
  }
}

// Which filters a connection is subscribed to, and which it is listed for, told from its packets alone.
module Subscriptions {
  import opened Types
  import opened Slabs
  import opened DataLogModel
  import opened OutgoingModel
  import opened SchedulerModel
  import opened RouterModel
  import opened Frames
  import opened Identity
  import opened Queue
  import opened ConservationRuns
  import opened Sessions
  import opened Dialogue
  import opened DialogueRuns

  datatype Roll = Roll(subscribed: set<Filter>, listed: set<Filter>)

  predicate Lists(s: Router, f: Filter, id: ConnectionId) {
    f in s.subscriptionMap && id in s.subscriptionMap[f]
  }

  ghost predicate RollIs(s: Router, id: ConnectionId, r: Roll) {
    && id in s.connections.m && s.connections.m[id].subscriptions == r.subscribed
    && forall f :: Lists(s, f, id) <==> f in r.listed
  }

  ghost predicate SameRoll(s: Router, t: Router, id: ConnectionId) {
    && (id in t.connections.m <==> id in s.connections.m)
    && (id in s.connections.m ==> t.connections.m[id].subscriptions == s.connections.m[id].subscriptions)
    && forall f :: Lists(t, f, id) <==> Lists(s, f, id)
  }

  // Everyone but one connection.
  ghost predicate OtherRolls(s: Router, t: Router, id: ConnectionId) {
    forall other :: other != id ==> SameRoll(s, t, other)
  }

  lemma SameRollIs(s: Router, t: Router, id: ConnectionId, r: Roll)
    requires SameRoll(s, t, id) && RollIs(s, id, r)
    ensures RollIs(t, id, r)
  {
    hide Lists;
  }

  lemma SameRolls(s: Router, t: Router)
    requires SameSubscriptions(s, t)
    ensures forall id :: SameRoll(s, t, id)
  {
    hide NamesOf;
    ProjectAt(s.connections, SubscriptionsOf);
    ProjectAt(t.connections, SubscriptionsOf);
  }

  lemma OthersThen(s: Router, t: Router, u: Router, id: ConnectionId)
    requires OtherRolls(s, t, id) && OtherRolls(t, u, id)
    ensures OtherRolls(s, u, id)
  {
    hide Lists;
    forall other | other != id
      ensures SameRoll(s, u, other)
    {
      assert SameRoll(s, t, other) && SameRoll(t, u, other);
    }
  }

  // ---------------------------------------------------------------------------------------------
  // Packets

  function Named(filters: seq<(Filter, QoS)>, n: nat): set<Filter>
    requires n <= |filters|
  {
    set i | 0 <= i < n :: filters[i].0
  }

  // A Subscribe adds its filters up to the first that is barred. An Unsubscribe takes its filters off the
  // list, and ends the subscriptions to those that were on it.
  function Sign(r: Roll, p: Packet): Roll {
    match p
    case PacketSubscribe(_, filters, subId) =>
      var fs := Named(filters, |Codes(filters, subId)|);
      Roll(r.subscribed + fs, r.listed + fs)
    case PacketUnsubscribe(_, paths) =>
      var fs := set f | f in paths;
      Roll(r.subscribed - (fs * r.listed), r.listed - fs)
    case _ => r
  }

  lemma SubscribeOneSigns(s: Router, id: ConnectionId, path: Filter, qos: QoS, r: Roll)
    requires Present(s, id) && RollIs(s, id, r)
    ensures RollIs(SubscribeOne(s, id, path, qos), id, Roll(r.subscribed + {path}, r.listed + {path}))
    ensures OtherRolls(s, SubscribeOne(s, id, path, qos), id)
  {
    hide Register, IndexOf, Scheduler.Track, Scheduler.Reschedule;
  }

  lemma NamedFirst(filters: seq<(Filter, QoS)>, n: nat)
    requires 0 < n <= |filters|
    ensures Named(filters, n) == {filters[0].0} + Named(filters[1..], n - 1)
  {
    forall f
      ensures f in Named(filters, n) <==> f in {filters[0].0} + Named(filters[1..], n - 1)
    {
      if f in Named(filters, n) {
        var i :| 0 <= i < n && filters[i].0 == f;
        assert i > 0 ==> filters[1..][i - 1] == filters[i];
      }
    }
  }

  lemma {:induction false} SubscribeAllSigns(b: Batch, id: ConnectionId, filters: seq<(Filter, QoS)>,
                                             subId: Option<nat>,
                                             r: Roll)
    requires Present(b.r, id) && RollIs(b.r, id, r)
    ensures var t, fs := SubscribeAll(b, id, filters, subId).0.r, Named(filters, |Codes(filters, subId)|);
            RollIs(t, id, Roll(r.subscribed + fs, r.listed + fs)) && OtherRolls(b.r, t, id)
    decreases |filters|
  {
    hide SubscribeOne, SameNames, Present, Subscribers, RollIs, OtherRolls, Named;
    assert Named(filters, 0) == {} by { NamedNone(filters); }
    assert Roll(r.subscribed + {}, r.listed + {}) == r;
    NoOther(b.r, id);
    if filters != [] && !Barred(filters[0].0, subId) {
      var t, f := SubscribeOne(b.r, id, filters[0].0, filters[0].1), filters[0].0;
      var r1 := Roll(r.subscribed + {f}, r.listed + {f});
      SubscribeOneSame(b.r, id, f, filters[0].1);
      SameNamesPresent(b.r, t);
      SubscribeOneSigns(b.r, id, f, filters[0].1, r);
      SubscribeAllSigns(b.(r := t), id, filters[1..], subId, r1);
      OthersThen(b.r, t, SubscribeAll(b.(r := t), id, filters[1..], subId).0.r, id);
      NamedFirst(filters, |Codes(filters, subId)|);
      var fs := Named(filters[1..], |Codes(filters[1..], subId)|);
      assert (r.subscribed + {f}) + fs == r.subscribed + ({f} + fs) && (r.listed + {f}) + fs == r.listed + ({f} + fs);
    }
  }

  lemma NamedNone(filters: seq<(Filter, QoS)>)
    ensures Named(filters, 0) == {}
  {
  }

  lemma NoOther(s: Router, id: ConnectionId)
    ensures OtherRolls(s, s, id)
  {
  }

  lemma UnsubscribeOneSigns(b: Batch, id: ConnectionId, pkid: nat, path: Filter, r: Roll)
    requires Present(b.r, id) && RollIs(b.r, id, r)
    ensures var t := UnsubscribeOne(b, id, pkid, path).r;
            && RollIs(t, id, Roll(r.subscribed - ({path} * r.listed), r.listed - {path}))
            && OtherRolls(b.r, t, id)
  {
    hide UnsubscribeOne;
    UnsubscribeOneParts(b, id, pkid, path);
    UnsubscribeOneRest(b, id, pkid, path);
    assert path in r.listed <==> Lists(b.r, path, id);
  }

  lemma UnsubscribeOneRest(b: Batch, id: ConnectionId, pkid: nat, path: Filter)
    requires Present(b.r, id)
    ensures var s, t := b.r, UnsubscribeOne(b, id, pkid, path).r;
            && t.connections.m.Keys == s.connections.m.Keys
            && forall other :: other in s.connections.m && other != id ==>
                t.connections.m[other] == s.connections.m[other]
  {
    hide RemoveWaiter, Scheduler.Untrack;
  }

  lemma {:induction false} UnsubscribeAllSigns(b: Batch, id: ConnectionId, pkid: nat, paths: seq<Filter>, r: Roll)
    requires Present(b.r, id) && RollIs(b.r, id, r)
    ensures var t, fs := UnsubscribeAll(b, id, pkid, paths).r, set f | f in paths;
            RollIs(t, id, Roll(r.subscribed - (fs * r.listed), r.listed - fs)) && OtherRolls(b.r, t, id)
    decreases |paths|
  {
    hide UnsubscribeOne, RollIs, OtherRolls, Present;
    if paths == [] {
      NoOther(b.r, id);
      assert Roll(r.subscribed - ({} * r.listed), r.listed - {}) == r;
      assert (set f | f in paths) == {};
    } else {
      var c, p := UnsubscribeOne(b, id, pkid, paths[0]), paths[0];
      var r1 := Roll(r.subscribed - ({p} * r.listed), r.listed - {p});
      UnsubscribeOneParts(b, id, pkid, p);
      UnsubscribeOneSigns(b, id, pkid, p, r);
      UnsubscribeAllSigns(c, id, pkid, paths[1..], r1);
      OthersThen(b.r, c.r, UnsubscribeAll(c, id, pkid, paths[1..]).r, id);
      var fs, rest := set f | f in paths, set f | f in paths[1..];
      assert paths == [p] + paths[1..];
      assert fs == {p} + rest;
      assert r1.subscribed - (rest * r1.listed) == r.subscribed - (fs * r.listed);
      assert r1.listed - rest == r.listed - fs;
    }
  }

  lemma PacketSigns(b: Batch, id: ConnectionId, p: Packet, r: Roll)
    requires Present(b.r, id) && RollIs(b.r, id, r)
    ensures RollIs(HandlePacket(b, id, p).r, id, Sign(r, p)) && OtherRolls(b.r, HandlePacket(b, id, p).r, id)
  {
    hide RollIs, OtherRolls, SameRoll, Sign, SubscribeAll, SameNames, Subscribers, Commit, HandlePacket;
    match p {
      case PacketSubscribe(pkid, filters, subId) =>
        var t := SubscribeAll(b, id, filters, subId).0.r;
        SubscribeAllSigns(b, id, filters, subId, r);
        SubscribeAllSame(b, id, filters, subId);
        SameNamesPresent(b.r, t);
        var r1 := Sign(r, p);
        SubscribeCommits(b, id, p, t);
        CommitRolls(t, id, SubAck(pkid, SubscribeAll(b, id, filters, subId).1));
        SignSubscribe(r, p);
        SameRollIs(t, HandlePacket(b, id, p).r, id, r1);
        RollsOthers(t, HandlePacket(b, id, p).r, id);
        OthersThen(b.r, t, HandlePacket(b, id, p).r, id);
      case PacketUnsubscribe(pkid, paths) =>
        UnsubscribeAllSigns(b, id, pkid, paths, r);
        SignUnsubscribe(b, id, r, p);
      case _ =>
        OtherSame(b, id, p);
        SameRolls(b.r, HandlePacket(b, id, p).r);
        SignOther(r, p);
        SameRollIs(b.r, HandlePacket(b, id, p).r, id, r);
        RollsOthers(b.r, HandlePacket(b, id, p).r, id);
    }
  }

  lemma SubscribeCommits(b: Batch, id: ConnectionId, p: Packet, t: Router)
    requires Present(b.r, id) && p.PacketSubscribe?
    requires t == SubscribeAll(b, id, p.filters, p.subscriptionId).0.r && Present(t, id)
    ensures HandlePacket(b, id, p).r
            == Commit(t, id, SubAck(p.pkid, SubscribeAll(b, id, p.filters, p.subscriptionId).1))
  {
    hide SubscribeAll, Commit;
  }

  lemma CommitRolls(s: Router, id: ConnectionId, a: Ack)
    requires Present(s, id)
    ensures forall i :: SameRoll(s, Commit(s, id, a), i)
  {
  }

  lemma RollsOthers(s: Router, t: Router, id: ConnectionId)
    requires forall i :: SameRoll(s, t, i)
    ensures OtherRolls(s, t, id)
  {
    hide SameRoll;
  }

  lemma SignSubscribe(r: Roll, p: Packet)
    requires p.PacketSubscribe?
    ensures var fs := Named(p.filters, |Codes(p.filters, p.subscriptionId)|);
            Sign(r, p) == Roll(r.subscribed + fs, r.listed + fs)
  {
  }

  lemma SignUnsubscribe(b: Batch, id: ConnectionId, r: Roll, p: Packet)
    requires p.PacketUnsubscribe? && Present(b.r, id)
    ensures var fs := set f | f in p.paths; Sign(r, p) == Roll(r.subscribed - (fs * r.listed), r.listed - fs)
    ensures HandlePacket(b, id, p) == UnsubscribeAll(b, id, p.pkid, p.paths)
  {
  }

  lemma SignOther(r: Roll, p: Packet)
    requires !p.PacketSubscribe? && !p.PacketUnsubscribe?
    ensures Sign(r, p) == r
  {
  }

  lemma OtherSame(b: Batch, id: ConnectionId, p: Packet)
    requires Present(b.r, id) && !p.PacketSubscribe? && !p.PacketUnsubscribe?
    ensures SameSubscriptions(b.r, HandlePacket(b, id, p).r)
  {
    hide HandlePublish, HandlePubRel, HandlePubAck, HandlePubRec, HandlePubComp, SameSubscriptions;
    match p {
      case PacketPublish(publish, props) => HandlePublishSame(b, id, publish, props);
      case PacketPubAck(pkid) => HandlePubAckSame(b, id, pkid);
      case PacketPubRec(pkid) => HandlePubRecSame(b, id, pkid);
      case PacketPubComp(pkid) => HandlePubCompSame(b, id, pkid);
      case PacketPubRel(pkid, hasProps) =>
        LastWillsSame(b.r, b.r.lastWills);
        HandlePubRelSame(b, id, pkid);
      case PacketPingReq => SetAcksSame(b.r, id, b.r.ackslog.m[id].Commit(PingResp));
      case PacketDisconnect => LastWillsSame(b.r, b.r.lastWills - {b.r.ibufs.m[id].clientId});
      case PacketOther => LastWillsSame(b.r, b.r.lastWills);
    }
  }

  // What a batch does to the roll of its connection, packet by packet, until it stops.
  function SignAll(b: Batch, id: ConnectionId, packets: seq<Packet>, r: Roll): Roll
    decreases |packets|
  {
    if packets == [] || b.stop || !Present(b.r, id) then r
    else SignAll(HandlePacket(b, id, packets[0]), id, packets[1..], Sign(r, packets[0]))
  }

  lemma {:induction false} PacketsSign(b: Batch, id: ConnectionId, packets: seq<Packet>, r: Roll)
    requires RollIs(b.r, id, r)
    ensures var t := HandlePackets(b, id, packets).r;
            RollIs(t, id, SignAll(b, id, packets, r)) && OtherRolls(b.r, t, id)
    decreases |packets|
  {
    hide HandlePacket, RollIs, OtherRolls, Sign;
    NoOther(b.r, id);
    if packets != [] && !b.stop && Present(b.r, id) {
      var c := HandlePacket(b, id, packets[0]);
      PacketSigns(b, id, packets[0], r);
      PacketsSign(c, id, packets[1..], Sign(r, packets[0]));
      OthersThen(b.r, c.r, HandlePackets(c, id, packets[1..]).r, id);
    }
  }

  // ---------------------------------------------------------------------------------------------
  // Events

  // A connection begins with the subscriptions of its session, and listed for none of them.
  function SignedAt(s: Router, e: Event, id: ConnectionId, r: Roll): Roll {
    match e
    case EventConnect(client, clean, _) =>
      if Makes(s, e, id) then
        var session := ResumedBy(s, client, clean);
        Roll(if session.Some? then session.value.subscriptions else {}, {})
      else r
    case EventDeviceData(i) =>
      if i == id && Present(s, id) then SignAll(FirstBatch(s, id), id, s.ibufs.m[id].buffer, r) else r
    case _ => r
  }

  function RollOf(s: Router, es: seq<Event>, id: ConnectionId): Roll
    decreases |es|
  {
    if es == [] then Roll({}, {}) else SignedAt(Run(s, es[..|es| - 1]), es[|es| - 1], id, RollOf(s, es[..|es| - 1], id))
  }

  ghost predicate OnRoll(s: Router, id: ConnectionId, r: Roll) {
    id in s.connections.m ==> RollIs(s, id, r)
  }

  lemma SameOnRoll(s: Router, t: Router, id: ConnectionId, r: Roll)
    requires OnRoll(s, id, r) && (id in t.connections.m ==> SameRoll(s, t, id))
    ensures OnRoll(t, id, r)
  {
    hide RollIs;
    if id in t.connections.m {
      SameRollIs(s, t, id, r);
    }
  }

  lemma DisconnectRolls(s: Router, gone: ConnectionId, id: ConnectionId)
    ensures id in Disconnect(s, gone).connections.m ==> SameRoll(s, Disconnect(s, gone), id)
  {
    hide Clean, RewindAll, Retransmissions, ForgetAccounts;
  }

  lemma AdmitRolls(s: Router, client: ClientId, clean: bool, will: Option<Publish>, id: ConnectionId)
    requires Identified(s) && Subscribers(s)
    ensures var t, session := Admit(s, client, clean, will), if clean then None else SavedSession(s, client);
            if id == s.connections.NextKey() then
              RollIs(t, id, Roll(if session.Some? then session.value.subscriptions else {}, {}))
            else SameRoll(s, t, id)
  {
    hide Identified, Subscribers, PubRels, ForgetAccounts, Scheduler.Reschedule;
    AdmitKeysAgree(s);
    ResumedIsNotListed(s, client, clean, will);
  }

  lemma ConnectOnRoll(s: Router, e: Event, id: ConnectionId, r: Roll)
    requires Identified(s) && Subscribers(s) && e.EventConnect? && OnRoll(s, id, r)
    ensures OnRoll(Step(s, e), id, SignedAt(s, e, id, r))
  {
    hide Identified, Subscribers, Disconnect, Admit, SavedSession, RollIs, SameRoll;
    var d := Dropped(s, e.client);
    ConnectIsAdmit(s, e.client, e.clean, e.will);
    NoRollChange(s, id);
    if e.client in s.connectionMap {
      DisconnectRolls(s, s.connectionMap[e.client], id);
      DisconnectKeeps(s, s.connectionMap[e.client]);
    }
    SameOnRoll(s, d, id, r);
    DroppedConfig(s, e.client);
    if Admits(s, e) {
      AdmitRolls(d, e.client, e.clean, e.will, id);
      if d.connections.NextKey() != id {
        SameOnRoll(d, Step(s, e), id, r);
      }
    }
  }

  lemma NoRollChange(s: Router, id: ConnectionId)
    ensures SameRoll(s, s, id)
  {
  }

  lemma DataOnRoll(s: Router, who: ConnectionId, id: ConnectionId, r: Roll)
    requires Identified(s) && OnRoll(s, id, r)
    ensures OnRoll(DeviceData(s, who), id, SignedAt(s, EventDeviceData(who), id, r))
  {
    hide HandlePackets, WakeAll, Disconnect, Scheduler.Reschedule, SameSubscriptions, Identified, RollIs, SignAll,
      SameRoll,
      OtherRolls;
    if Present(s, who) {
      var b0, packets := FirstBatch(s, who), s.ibufs.m[who].buffer;
      var b, r1 := HandlePackets(b0, who, packets), SignedAt(s, EventDeviceData(who), id, r);
      SetIbufSame(s, who, s.ibufs.m[who].(buffer := []));
      SameRolls(s, b0.r);
      SameOnRoll(s, b0.r, id, r);
      BatchOnRoll(s, who, id, r);
      WokenSame(b, who);
      SameRolls(b.r, Woken(b, who));
      SameOnRoll(b.r, Woken(b, who), id, r1);
      DisconnectRolls(Woken(b, who), who, id);
      if b.disconnect {
        SameOnRoll(Woken(b, who), DeviceData(s, who), id, r1);
      }
    }
  }

  lemma BatchOnRoll(s: Router, who: ConnectionId, id: ConnectionId, r: Roll)
    requires Identified(s) && Present(s, who) && OnRoll(FirstBatch(s, who).r, id, r)
    ensures OnRoll(HandlePackets(FirstBatch(s, who), who, s.ibufs.m[who].buffer).r, id,
                   SignedAt(s, EventDeviceData(who), id, r))
  {
    hide HandlePackets, RollIs, SignAll, SameRoll, Identified;
    var b0, packets := FirstBatch(s, who), s.ibufs.m[who].buffer;
    if who == id {
      PacketsSign(b0, id, packets, r);
    } else {
      OtherBatch(b0, who, packets);
      assert SameRoll(b0.r, HandlePackets(b0, who, packets).r, id);
      SameOnRoll(b0.r, HandlePackets(b0, who, packets).r, id, r);
    }
  }

  lemma OtherBatch(b: Batch, id: ConnectionId, packets: seq<Packet>)
    requires Present(b.r, id)
    ensures OtherRolls(b.r, HandlePackets(b, id, packets).r, id)
  {
    hide HandlePackets, OtherRolls;
    var listed := set f | f in b.r.subscriptionMap && Lists(b.r, f, id);
    PacketsSign(b, id, packets, Roll(b.r.connections.m[id].subscriptions, listed));
  }

  lemma StepOnRoll(s: Router, e: Event, id: ConnectionId, r: Roll)
    requires Identified(s) && Subscribers(s) && OnRoll(s, id, r)
    ensures OnRoll(Step(s, e), id, SignedAt(s, e, id, r))
  {
    hide Identified, Subscribers, Connect, DeviceData, Disconnect, PublishWill, Consume, Scheduler.Reschedule, OnRoll,
      SameRoll, SameSubscriptions, Makes, ResumedBy, SignAll;
    match e {
      case EventConnect(_, _, _) => ConnectOnRoll(s, e, id, r);
      case EventDeviceData(who) => DataOnRoll(s, who, id, r);
      case EventDisconnect(gone) =>
        DisconnectRolls(s, gone, id);
        SameOnRoll(s, Step(s, e), id, r);
      case EventPublishWill(client) => WillOnRoll(s, client, id, r);
      case EventConsume =>
        ConsumeSame(s);
        SameRolls(s, Step(s, e));
        SameOnRoll(s, Step(s, e), id, r);
      case EventReady(i) =>
        RescheduleSame(s, i, LinkReady);
        SameRolls(s, Step(s, e));
        SameOnRoll(s, Step(s, e), id, r);
      case _ =>
        BufferRolls(s, e, id);
        SameOnRoll(s, Step(s, e), id, r);
    }
  }

  lemma BufferRolls(s: Router, e: Event, id: ConnectionId)
    requires e.EventArrive? || e.EventExchange?
    ensures SameRoll(s, Step(s, e), id)
  {
  }

  lemma WillOnRoll(s: Router, client: ClientId, id: ConnectionId, r: Roll)
    requires OnRoll(s, id, r)
    ensures OnRoll(PublishWill(s, client), id, r)
  {
    hide WakeAll, Accept, OnRoll;
    if client in s.lastWills {
      WakeAllFrame(AcceptPublish(s.(lastWills := s.lastWills - {client}), s.lastWills[client]));
      SameOnRoll(s, PublishWill(s, client), id, r);
    }
  }

  // ---------------------------------------------------------------------------------------------
  // Runs

  // In every run a connection is subscribed to, and listed for, exactly what its packets since it was made
  // say, beginning with the subscriptions of the session it resumed.
  lemma {:induction false} SubscriptionsInEveryRun(c: Config, es: seq<Event>, id: ConnectionId)
    ensures OnRoll(Run(InitRouter(c), es), id, RollOf(InitRouter(c), es, id))
    decreases |es|
  {
    hide Step, InitRouter, OnRoll, Identified, Subscribers, SignedAt;
    if es == [] {
      NobodyOnRoll(c, id);
    } else {
      var before := es[..|es| - 1];
      SubscriptionsInEveryRun(c, before, id);
      RunKeepsIdentity(c, before);
      StepOnRoll(Run(InitRouter(c), before), es[|es| - 1], id, RollOf(InitRouter(c), before, id));
    }
  }

  lemma NobodyOnRoll(c: Config, id: ConnectionId)
    ensures OnRoll(InitRouter(c), id, Roll({}, {}))
  {
  }
}

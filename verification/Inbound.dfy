// Inbound QoS 2: what a client sent, what was released to the logs, and what still waits.
module Inbound {
  import opened Types
  import opened Slabs
  import opened DataLogModel
  import opened OutgoingModel
  import opened SchedulerModel
  import opened RouterModel
  import opened Frames
  import opened Identity
  import opened Queue
  import opened ConservationRuns
  import opened RetainedStore
  import opened Acceptance

  type Inflow = (Publish, Props)

  // The publish a packet records with its PubRec, if it does.
  function RecordedBy(p: Packet): seq<Inflow> {
    if p.PacketPublish? && p.publish.qos == ExactlyOnce then [(p.publish, p.props)] else []
  }

  // The publish a packet releases, if it does.
  function ReleasedBy(s: Router, id: ConnectionId, p: Packet): seq<Inflow> {
    if p.PacketPubRel? && !p.hasProps && id in s.ackslog.m
      && s.ackslog.m[id].recorded != [] then [s.ackslog.m[id].recorded[0]] else []
  }

  function Waiting(s: Router, id: ConnectionId): seq<Inflow> {
    if id in s.ackslog.m then s.ackslog.m[id].recorded else []
  }

  // One connection's records move by what came in and what went out; nobody else's do.
  ghost predicate RecordsMove(s: Router, t: Router, id: ConnectionId, more: seq<Inflow>, fewer: seq<Inflow>) {
    && Waiting(s, id) + more == fewer + Waiting(t, id)
    && t.ackslog.m.Keys == s.ackslog.m.Keys
    && forall other :: other != id ==> Waiting(t, other) == Waiting(s, other)
  }

  lemma NothingMoves(s: Router, t: Router, id: ConnectionId)
    requires t.ackslog == s.ackslog
    ensures RecordsMove(s, t, id, [], [])
  {
    assert Waiting(s, id) + [] == Waiting(s, id) == [] + Waiting(t, id);
  }

  lemma CommitKeepsRecords(s: Router, id: ConnectionId, a: Ack)
    requires Present(s, id)
    ensures RecordsMove(s, Commit(s, id, a), id, [], []) && Present(Commit(s, id, a), id)
  {
    assert Waiting(s, id) + [] == Waiting(s, id) == [] + Waiting(Commit(s, id, a), id);
  }

  lemma MoveTrans(s: Router, t: Router, u: Router, id: ConnectionId, m: seq<Inflow>, f: seq<Inflow>, m': seq<Inflow>,
                  f': seq<Inflow>)
    requires RecordsMove(s, t, id, m, f) && RecordsMove(t, u, id, m', f')
    ensures RecordsMove(s, u, id, m + m', f + f')
  {
    hide Waiting;
    var a, b, c := Waiting(s, id), Waiting(t, id), Waiting(u, id);
    assert a + (m + m') == (a + m) + m' == (f + b) + m' == f + (b + m') == f + (f' + c) == (f + f') + c;
    forall other | other != id
      ensures Waiting(u, other) == Waiting(s, other)
    {
      assert Waiting(t, other) == Waiting(s, other) && Waiting(u, other) == Waiting(t, other);
    }
  }

  lemma QuietTrans(s: Router, t: Router, u: Router, id: ConnectionId, m: seq<Inflow>, f: seq<Inflow>)
    requires RecordsMove(s, t, id, [], []) && RecordsMove(t, u, id, m, f)
    ensures RecordsMove(s, u, id, m, f)
  {
    MoveTrans(s, t, u, id, [], [], m, f);
    assert [] + m == m && [] + f == f;
  }

  lemma ThenQuiet(s: Router, t: Router, u: Router, id: ConnectionId, m: seq<Inflow>, f: seq<Inflow>)
    requires RecordsMove(s, t, id, m, f) && RecordsMove(t, u, id, [], [])
    ensures RecordsMove(s, u, id, m, f)
  {
    MoveTrans(s, t, u, id, m, f, [], []);
    assert m + [] == m && f + [] == f;
  }

  lemma PublishMovesRecords(b: Batch, id: ConnectionId, p: Publish, props: Props)
    requires Present(b.r, id)
    ensures RecordsMove(b.r, HandlePublish(b, id, p, props).r, id, RecordedBy(PacketPublish(p, props)), [])
  {
    hide AppendToCommitlog, RecordsMove, Commit;
    match p.qos {
      case ExactlyOnce => RecordingMoves(b.r, id, p, props);
      case AtLeastOnce =>
        var b1 := b.(r := Commit(b.r, id, PubAck(p.pkid)), forceAck := true);
        CommitKeepsRecords(b.r, id, PubAck(p.pkid));
        AppendFrame(b1, id, p, props, true);
        NothingMoves(b1.r, AppendToCommitlog(b1, id, p, props, true).r, id);
        QuietTrans(b.r, b1.r, AppendToCommitlog(b1, id, p, props, true).r, id, [], []);
      case AtMostOnce =>
        AppendFrame(b, id, p, props, true);
        NothingMoves(b.r, AppendToCommitlog(b, id, p, props, true).r, id);
    }
  }

  lemma RecordingMoves(s: Router, id: ConnectionId, p: Publish, props: Props)
    requires Present(s, id)
    ensures RecordsMove(s, s.(ackslog := s.ackslog.Set(id, s.ackslog.m[id].Record(p, props))), id, [(p, props)], [])
  {
  }

  lemma PubRelMovesRecords(b: Batch, id: ConnectionId, pkid: nat)
    requires Present(b.r, id)
    ensures RecordsMove(b.r, HandlePubRel(b, id, pkid).r, id, [], ReleasedBy(b.r, id, PacketPubRel(pkid, false)))
  {
    hide AppendToCommitlog, Scheduler.Reschedule, RecordsMove;
    var a := b.r.ackslog.m[id].Release(pkid);
    var b1 := b.(r := b.r.(ackslog := b.r.ackslog.Set(id, a.0)));
    var out := ReleasedBy(b.r, id, PacketPubRel(pkid, false));
    ReleaseMovesRecords(b.r, id, pkid);
    if a.1.Some? {
      AppendFrame(b1, id, a.1.value.0, a.1.value.1, false);
      NothingMoves(b1.r, HandlePubRel(b, id, pkid).r, id);
      ThenQuiet(b.r, b1.r, HandlePubRel(b, id, pkid).r, id, [], out);
    }
  }

  lemma ReleaseMovesRecords(s: Router, id: ConnectionId, pkid: nat)
    requires Present(s, id)
    ensures RecordsMove(s, s.(ackslog := s.ackslog.Set(id, s.ackslog.m[id].Release(pkid).0)), id, [],
                        ReleasedBy(s, id, PacketPubRel(pkid, false)))
  {
    var r := s.ackslog.m[id].recorded;
    assert r + [] == r;
    if r != [] {
      assert r == [r[0]] + r[1..];
    } else {
      assert [] + r == r;
    }
  }

  lemma AckMoves(b: Batch, id: ConnectionId, pkid: nat)
    requires Present(b.r, id)
    ensures RecordsMove(b.r, HandlePubAck(b, id, pkid).r, id, [], [])
    ensures RecordsMove(b.r, HandlePubRec(b, id, pkid).r, id, [], [])
  {
    hide RegisterAck, Outgoing.RegisterAck, Outgoing.RegisterPubRec, Scheduler.Reschedule, RecordsMove, Commit;
    RegisterAckFrame(b.r, id, pkid);
    var s := RegisterAck(b.r, id, pkid);
    NothingMoves(b.r, HandlePubAck(b, id, pkid).r, id);
    var s1 := s.(obufs := s.obufs.Set(id, s.obufs.m[id].RegisterPubRec(pkid)));
    NothingMoves(b.r, s1, id);
    NothingMoves(b.r, s, id);
    CommitKeepsRecords(s1, id, PubRel(pkid));
    NothingMoves(Commit(s1, id, PubRel(pkid)), Reschedule(Commit(s1, id, PubRel(pkid)), id, IncomingAck), id);
    QuietTrans(b.r, s1, Commit(s1, id, PubRel(pkid)), id, [], []);
    QuietTrans(b.r, Commit(s1, id, PubRel(pkid)), Reschedule(Commit(s1, id, PubRel(pkid)), id, IncomingAck), id, [],
               []);
  }

  lemma UnsubscribeOneKeepsRecords(b: Batch, id: ConnectionId, pkid: nat, path: Filter)
    requires Present(b.r, id)
    ensures RecordsMove(b.r, UnsubscribeOne(b, id, pkid, path).r, id, [], [])
  {
    hide Leave, RecordsMove, Commit;
    NothingMoves(b.r, b.r, id);
    if path in b.r.subscriptionMap {
      var s := b.r.(subscriptionMap := b.r.subscriptionMap[path := b.r.subscriptionMap[path] - {id}]);
      NothingMoves(b.r, s, id);
      LeaveFrame(s, id, path);
      LeaveSame(s, id, path);
      NothingMoves(b.r, Leave(s, id, path), id);
      CommitKeepsRecords(Leave(s, id, path), id, UnsubAck(pkid));
      QuietTrans(b.r, Leave(s, id, path), Commit(Leave(s, id, path), id, UnsubAck(pkid)), id, [], []);
    }
  }

  lemma {:induction false} UnsubscribeAllKeepsRecords(b: Batch, id: ConnectionId, pkid: nat, paths: seq<Filter>)
    ensures RecordsMove(b.r, UnsubscribeAll(b, id, pkid, paths).r, id, [], [])
    decreases |paths|
  {
    hide UnsubscribeOne, RecordsMove;
    NothingMoves(b.r, b.r, id);
    if paths != [] && Present(b.r, id) {
      var b' := UnsubscribeOne(b, id, pkid, paths[0]);
      UnsubscribeOneKeepsRecords(b, id, pkid, paths[0]);
      UnsubscribeAllKeepsRecords(b', id, pkid, paths[1..]);
      QuietTrans(b.r, b'.r, UnsubscribeAll(b', id, pkid, paths[1..]).r, id, [], []);
    }
  }

  lemma PacketMovesRecords(b: Batch, id: ConnectionId, p: Packet)
    requires Present(b.r, id)
    ensures RecordsMove(b.r, HandlePacket(b, id, p).r, id, RecordedBy(p), ReleasedBy(b.r, id, p))
  {
    hide RecordsMove, Commit, SubscribeAll, UnsubscribeAll, HandlePublish, HandlePubAck, HandlePubRec, HandlePubRel,
      Outgoing.RegisterPubComp;
    match p {
      case PacketPublish(publish, props) => PublishMovesRecords(b, id, publish, props);
      case PacketSubscribe(pkid, filters, subId) =>
        var r := SubscribeAll(b, id, filters, subId);
        SubscribeAllFrame(b, id, filters, subId);
        NothingMoves(b.r, r.0.r, id);
        if Present(r.0.r, id) {
          CommitKeepsRecords(r.0.r, id, SubAck(pkid, r.1));
          QuietTrans(b.r, r.0.r, Commit(r.0.r, id, SubAck(pkid, r.1)), id, [], []);
        }
      case PacketUnsubscribe(pkid, paths) => UnsubscribeAllKeepsRecords(b, id, pkid, paths);
      case PacketPubAck(pkid) => AckMoves(b, id, pkid);
      case PacketPubRec(pkid) => AckMoves(b, id, pkid);
      case PacketPubRel(pkid, hasProps) =>
        if hasProps {
          NothingMoves(b.r, b.r, id);
        } else {
          PubRelMovesRecords(b, id, pkid);
        }
      case PacketPingReq => CommitKeepsRecords(b.r, id, PingResp);
      case _ => NothingMoves(b.r, HandlePacket(b, id, p).r, id);
    }
  }

  // What a batch records and releases, packet by packet, until it stops.
  function Recorded(b: Batch, id: ConnectionId, packets: seq<Packet>): seq<Inflow>
    decreases |packets|
  {
    if packets == [] || b.stop || !Present(b.r, id) then []
    else RecordedBy(packets[0]) + Recorded(HandlePacket(b, id, packets[0]), id, packets[1..])
  }

  function Released(b: Batch, id: ConnectionId, packets: seq<Packet>): seq<Inflow>
    decreases |packets|
  {
    if packets == [] || b.stop || !Present(b.r, id) then []
    else ReleasedBy(b.r, id, packets[0]) + Released(HandlePacket(b, id, packets[0]), id, packets[1..])
  }

  lemma {:induction false} PacketsMoveRecords(b: Batch, id: ConnectionId, packets: seq<Packet>)
    ensures RecordsMove(b.r, HandlePackets(b, id, packets).r, id, Recorded(b, id, packets), Released(b, id, packets))
    decreases |packets|
  {
    hide HandlePacket, RecordsMove, RecordedBy, ReleasedBy;
    if packets != [] && !b.stop && Present(b.r, id) {
      var b' := HandlePacket(b, id, packets[0]);
      PacketMovesRecords(b, id, packets[0]);
      PacketsMoveRecords(b', id, packets[1..]);
      MoveTrans(b.r, b'.r, HandlePackets(b', id, packets[1..]).r, id, RecordedBy(packets[0]),
                ReleasedBy(b.r, id, packets[0]),
                Recorded(b', id, packets[1..]), Released(b', id, packets[1..]));
    } else {
      NothingMoves(b.r, b.r, id);
    }
  }

  // A release hands the oldest recorded publish to the logs, once, and takes it off the record.
  lemma ReleaseIsAccepted(b: Batch, id: ConnectionId, pkid: nat)
    requires Present(b.r, id) && b.r.ackslog.m[id].recorded != []
    ensures var rec, c := b.r.ackslog.m[id].recorded[0], HandlePubRel(b, id, pkid);
            && c.r.datalog.accepted ==
               b.r.datalog.accepted + Unretained(TakenFrom(b.r.connections.m[id].topicAliases, rec.0, rec.1))
            && id in c.r.ackslog.m && c.r.ackslog.m[id].recorded == b.r.ackslog.m[id].recorded[1..]
  {
    hide AppendToCommitlog, Scheduler.Reschedule, TakenFrom, StoreIs;
    ReleaseTakes(b, id, pkid);
    var b1 := b.(r := b.r.(ackslog := b.r.ackslog.Set(id, b.r.ackslog.m[id].Release(pkid).0)));
    AppendFrame(b1, id, b.r.ackslog.m[id].recorded[0].0, b.r.ackslog.m[id].recorded[0].1, false);
  }

  // ---------------------------------------------------------------------------------------------
  // Over runs

  // Everything one connection recorded and released since it connected.
  datatype Flow = Flow(recorded: seq<Inflow>, released: seq<Inflow>)

  function Trace(s: Router, es: seq<Event>, id: ConnectionId): Flow
    decreases |es|
  {
    if es == [] then Flow([], [])
    else
      var t, e, before := Run(s, es[..|es| - 1]), es[|es| - 1], Trace(s, es[..|es| - 1], id);
      match e
      case EventConnect(client, clean, will) =>
        if Admits(t, e) && Dropped(t, client).connections.NextKey() == id then Flow([], []) else before
      case EventDeviceData(id') =>
        if id' == id && Present(t, id) then
          var b := FirstBatch(t, id);
          Flow(before.recorded + Recorded(b, id, t.ibufs.m[id].buffer),
               before.released + Released(b, id, t.ibufs.m[id].buffer))
        else before
      case _ => before
  }

  ghost predicate Balanced(s: Router, id: ConnectionId, f: Flow) {
    id in s.ackslog.m ==> f.recorded == f.released + Waiting(s, id)
  }

  // Events that neither start a connection nor carry its packets leave its records alone.
  ghost predicate RecordsStay(s: Router, t: Router, id: ConnectionId) {
    id in t.ackslog.m ==> id in s.ackslog.m && Waiting(t, id) == Waiting(s, id)
  }

  lemma StayBalanced(s: Router, t: Router, id: ConnectionId, f: Flow)
    requires RecordsStay(s, t, id) && Balanced(s, id, f)
    ensures Balanced(t, id, f)
  {
    hide Waiting;
  }

  lemma DisconnectStays(s: Router, gone: ConnectionId, id: ConnectionId)
    ensures RecordsStay(s, Disconnect(s, gone), id)
  {
    hide Clean, RewindAll, Retransmissions, ForgetAccounts, Unsubscribed;
  }

  lemma {:induction false} ConsumeLoopAcks(s: Router, id: ConnectionId, n: nat)
    ensures ConsumeLoop(s, id, n).ackslog == s.ackslog
    decreases n
  {
    hide ConsumeOne, Scheduler.Pause;
    if n > 0 && Present(s, id) && s.scheduler.trackers.m[id].requests != [] {
      ConsumeOneAcks(s, id);
      if ConsumeOne(s, id).1 {
        ConsumeLoopAcks(ConsumeOne(s, id).0, id, n - 1);
      }
    }
  }

  lemma ConsumeOneAcks(s: Router, id: ConnectionId)
    requires Present(s, id) && s.scheduler.trackers.m[id].requests != []
    ensures ConsumeOne(s, id).0.ackslog == s.ackslog
  {
    hide ConsumeOne, ForwardData, Skip, Park, Scheduler.Pause, SetRequests;
    ConsumeOneShape(s, id);
  }

  lemma ConsumeStays(s: Router, id: ConnectionId)
    ensures RecordsStay(s, Consume(s).0, id)
  {
    hide ConsumeLoop, DeviceAcks, Scheduler.Rotate;
    if s.scheduler.readyqueue != [] {
      var k, s1 := s.scheduler.readyqueue[0], s.(scheduler := s.scheduler.Rotate());
      if Present(s1, k) {
        ConsumeLoopAcks(SendAcks(s1, k), k, MAX_SCHEDULE_ITERATIONS);
      }
    }
  }

  lemma BatchEnds(b: Batch, id: ConnectionId, k: ConnectionId)
    ensures RecordsStay(b.r, Finish(b, id), k)
  {
    hide WakeAll, Disconnect, Scheduler.Reschedule;
    WakeAllFrame(if b.forceAck then Reschedule(b.r, id, FreshData) else b.r);
    DisconnectStays(Woken(b, id), id, k);
  }

  lemma DeviceDataMovesRecords(s: Router, who: ConnectionId, id: ConnectionId, f: Flow)
    requires Balanced(s, id, f)
    ensures var b, p := FirstBatch(s, who), s.ibufs.m[who].buffer;
            Balanced(DeviceData(s, who), id,
                     if who == id && Present(s, who) then Flow(f.recorded + Recorded(b, id, p),
                                                               f.released + Released(b, id, p)) else f)
    requires Present(s, who)
  {
    hide HandlePackets, Finish, Waiting, Recorded, Released;
    var b0, p := FirstBatch(s, who), s.ibufs.m[who].buffer;
    var b := HandlePackets(b0, who, p);
    NothingMoves(s, b0.r, who);
    PacketsMoveRecords(b0, who, p);
    QuietTrans(s, b0.r, b.r, who, Recorded(b0, who, p), Released(b0, who, p));
    BatchEnds(b, who, id);
    var w, m, r := Waiting(s, id), Recorded(b0, who, p), Released(b0, who, p);
    if who == id && id in s.ackslog.m {
      assert f.recorded + m == (f.released + w) + m == f.released + (w + m) == f.released + (r + Waiting(b.r, id))
          == (f.released + r) + Waiting(b.r, id);
    }
  }

  lemma ConnectBalanced(s: Router, e: Event, id: ConnectionId, f: Flow)
    requires Identified(s) && e.EventConnect? && Balanced(s, id, f)
    ensures Balanced(Step(s, e), id,
                     if Admits(s, e) && Dropped(s, e.client).connections.NextKey() == id then Flow([], []) else f)
  {
    hide Disconnect, Identified, Subscribers, PubRels, ForgetAccounts, Scheduler.Reschedule;
    var d := Dropped(s, e.client);
    if e.client in s.connectionMap {
      DisconnectStays(s, s.connectionMap[e.client], id);
      DisconnectKeeps(s, s.connectionMap[e.client]);
    }
    AdmitKeysAgree(d);
    DroppedLimit(s, e.client);
  }

  lemma DroppedLimit(s: Router, client: ClientId)
    ensures Dropped(s, client).config == s.config
  {
    hide Clean, RewindAll, Retransmissions, ForgetAccounts, Unsubscribed;
  }

  lemma OtherStays(s: Router, e: Event, id: ConnectionId)
    requires !e.EventConnect? && !e.EventDeviceData?
    ensures RecordsStay(s, Step(s, e), id)
  {
    hide Disconnect, Consume, WakeAll, Accept, Scheduler.Reschedule, Waiting;
    match e {
      case EventDisconnect(gone) => DisconnectStays(s, gone, id);
      case EventConsume => ConsumeStays(s, id);
      case EventPublishWill(client) =>
        if client in s.lastWills {
          WakeAllFrame(AcceptPublish(s.(lastWills := s.lastWills - {client}), s.lastWills[client]));
          SameAcks(s, PublishWill(s, client), id);
        }
      case _ => SameAcks(s, Step(s, e), id);
    }
  }

  lemma SameAcks(s: Router, t: Router, id: ConnectionId)
    requires t.ackslog == s.ackslog
    ensures RecordsStay(s, t, id)
  {
  }

  // In every run, for every connection: what was released, in order, followed by what still waits, is
  // exactly what was recorded, in order. Nothing is released twice or ahead of its turn.
  lemma {:induction false} ReleasedInOrder(c: Config, es: seq<Event>, id: ConnectionId)
    ensures Balanced(Run(InitRouter(c), es), id, Trace(InitRouter(c), es, id))
    decreases |es|
  {
    hide Step, InitRouter, Balanced, Identified, Subscribers, Admits, Dropped, Recorded, Released;
    if es == [] {
      InitBalanced(c, id);
    } else {
      var before, e := es[..|es| - 1], es[|es| - 1];
      var t, f := Run(InitRouter(c), before), Trace(InitRouter(c), before, id);
      ReleasedInOrder(c, before, id);
      RunKeepsIdentity(c, before);
      match e {
        case EventConnect(client, clean, will) => ConnectBalanced(t, e, id, f);
        case EventDeviceData(who) => DataBalanced(t, who, id, f);
        case _ =>
          OtherStays(t, e, id);
          StayBalanced(t, Step(t, e), id, f);
      }
    }
  }

  lemma DataBalanced(s: Router, who: ConnectionId, id: ConnectionId, f: Flow)
    requires Balanced(s, id, f)
    ensures Balanced(Step(s, EventDeviceData(who)), id,
                     if who == id && Present(s, who) then
                       Flow(f.recorded + Recorded(FirstBatch(s, who), id, s.ibufs.m[who].buffer),
                            f.released + Released(FirstBatch(s, who), id, s.ibufs.m[who].buffer))
                     else f)
  {
    hide HandlePackets, Finish, Waiting, Recorded, Released;
    if Present(s, who) {
      DeviceDataMovesRecords(s, who, id, f);
    }
  }

  lemma InitBalanced(c: Config, id: ConnectionId)
    ensures Balanced(InitRouter(c), id, Trace(InitRouter(c), [], id))
  {
  }
}

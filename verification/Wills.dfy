// Last wills: when the broker has one for a client, and what publishing it does.
module Wills {
  import opened Types
  import opened Slabs
  import opened DataLogModel
  import opened OutgoingModel
  import opened SchedulerModel
  import opened RouterModel
  import opened Frames
  import opened Identity
  import opened Queue
  import opened ConservationRuns
  import opened Inputs
  import opened RetainedStore
  import opened Acceptance

  // ---------------------------------------------------------------------------------------------
  // Packets

  // Only a Disconnect packet takes a will away, that of its own client.
  lemma PacketWills(b: Batch, id: ConnectionId, p: Packet)
    requires Present(b.r, id)
    ensures var t := HandlePacket(b, id, p).r;
            && t.lastWills == (if p.PacketDisconnect? then b.r.lastWills - {b.r.ibufs.m[id].clientId}
                               else b.r.lastWills)
            && t.ibufs == b.r.ibufs
  {
    hide AppendToCommitlog, Commit, SubscribeAll, UnsubscribeAll, Outgoing.RegisterPubComp, HandlePubRel, HandlePubRec,
      HandlePublish, HandlePubAck;
    match p {
      case PacketPublish(publish, props) => PublishWills(b, id, publish, props);
      case PacketSubscribe(pkid, filters, subId) =>
        SubscribeAllFrame(b, id, filters, subId);
        var r := SubscribeAll(b, id, filters, subId);
        if Present(r.0.r, id) {
          CommitWills(r.0.r, id, SubAck(pkid, r.1));
        }
      case PacketUnsubscribe(pkid, paths) => UnsubscribeAllFrame(b, id, pkid, paths);
      case PacketPubRel(pkid, hasProps) => ReleaseWills(b, id, pkid);
      case PacketPingReq => CommitWills(b.r, id, PingResp);
      case PacketPubAck(pkid) => PubAckWills(b, id, pkid);
      case PacketPubRec(pkid) => PubRecWills(b, id, pkid);
      case _ =>
    }
  }

  lemma CommitWills(s: Router, id: ConnectionId, a: Ack)
    requires Present(s, id)
    ensures var t := Commit(s, id, a); Present(t, id) && t.lastWills == s.lastWills && t.ibufs == s.ibufs
  {
  }

  lemma PublishWills(b: Batch, id: ConnectionId, p: Publish, props: Props)
    requires Present(b.r, id)
    ensures var t := HandlePublish(b, id, p, props).r; t.lastWills == b.r.lastWills && t.ibufs == b.r.ibufs
  {
    hide AppendToCommitlog, Commit, AckLog.Record;
    AppendFrame(b, id, p, props, true);
    if p.qos == AtLeastOnce {
      CommitWills(b.r, id, PubAck(p.pkid));
      AppendFrame(b.(r := Commit(b.r, id, PubAck(p.pkid)), forceAck := true), id, p, props, true);
    }
  }

  lemma PubAckWills(b: Batch, id: ConnectionId, pkid: nat)
    requires Present(b.r, id)
    ensures var t := HandlePubAck(b, id, pkid).r; t.lastWills == b.r.lastWills && t.ibufs == b.r.ibufs
  {
    hide Settle, Scheduler.Reschedule, Outgoing.RegisterAck;
  }

  lemma PubRecWills(b: Batch, id: ConnectionId, pkid: nat)
    requires Present(b.r, id)
    ensures var t := HandlePubRec(b, id, pkid).r; t.lastWills == b.r.lastWills && t.ibufs == b.r.ibufs
  {
    hide Settle, Scheduler.Reschedule, Outgoing.RegisterAck, Outgoing.RegisterPubRec, Commit;
    var s := RegisterAck(b.r, id, pkid);
    CommitWills(s.(obufs := s.obufs.Set(id, s.obufs.m[id].RegisterPubRec(pkid))), id, PubRel(pkid));
  }

  lemma ReleaseWills(b: Batch, id: ConnectionId, pkid: nat)
    requires Present(b.r, id)
    ensures var t := HandlePubRel(b, id, pkid).r; t.lastWills == b.r.lastWills && t.ibufs == b.r.ibufs
  {
    hide AppendToCommitlog, Scheduler.Reschedule, AckLog.Release;
    var a := b.r.ackslog.m[id].Release(pkid);
    var b1 := b.(r := b.r.(ackslog := b.r.ackslog.Set(id, a.0)));
    if a.1.Some? {
      AppendFrame(b1, id, a.1.value.0, a.1.value.1, false);
      assert AppendToCommitlog(b1, id, a.1.value.0, a.1.value.1, false).r.lastWills == b.r.lastWills;
    }
  }

  // The batch gets to a Disconnect packet.
  predicate Leaving(b: Batch, id: ConnectionId, packets: seq<Packet>)
    decreases |packets|
  {
    packets != [] && !b.stop && Present(b.r, id)
    && (packets[0].PacketDisconnect? || Leaving(HandlePacket(b, id, packets[0]), id, packets[1..]))
  }

  lemma {:induction false} PacketsWills(b: Batch, id: ConnectionId, packets: seq<Packet>)
    requires id in b.r.ibufs.m
    ensures var t := HandlePackets(b, id, packets).r;
            && t.lastWills ==
               (if Leaving(b, id, packets) then b.r.lastWills - {b.r.ibufs.m[id].clientId} else b.r.lastWills)
            && t.ibufs == b.r.ibufs
    decreases |packets|
  {
    hide HandlePacket;
    if packets != [] && !b.stop && Present(b.r, id) {
      PacketWills(b, id, packets[0]);
      PacketsWills(HandlePacket(b, id, packets[0]), id, packets[1..]);
    }
  }

  // ---------------------------------------------------------------------------------------------
  // Events

  predicate Anew(s: Router, e: Event, client: ClientId) {
    e.EventConnect? && e.client == client && e.will.Some? && Admits(s, e)
  }

  // A connect that brings a will.
  predicate Brings(s: Router, e: Event, client: ClientId, will: Publish) {
    e.EventConnect? && e.client == client && e.will == Some(will) && Admits(s, e)
  }

  // An event that uses the will up or takes it back.
  predicate Ends(s: Router, e: Event, client: ClientId) {
    match e
    case EventDeviceData(id) =>
      && Present(s, id) && s.connections.m[id].clientId == client
      && Leaving(FirstBatch(s, id), id, s.ibufs.m[id].buffer)
    case EventPublishWill(who) => who == client
    case _ => false
  }

  function WillOf(s: Router, client: ClientId): Option<Publish> {
    if client in s.lastWills then Some(s.lastWills[client]) else None
  }

  lemma DeviceDataWills(s: Router, id: ConnectionId, client: ClientId)
    requires Identified(s)
    ensures WillOf(DeviceData(s, id), client) == if Ends(s, EventDeviceData(id), client) then None
            else WillOf(s, client)
  {
    hide HandlePackets, Leaving, Finish, NothingNew, NamesOf, NamesOk;
    if Present(s, id) {
      var b0, packets := FirstBatch(s, id), s.ibufs.m[id].buffer;
      IdentifiedPresent(s);
      PacketsWills(b0, id, packets);
      FinishBrings(HandlePackets(b0, id, packets), id);
      StoreOf(HandlePackets(b0, id, packets).r, DeviceData(s, id));
    }
  }

  lemma ConnectWills(s: Router, e: Event, client: ClientId)
    requires e.EventConnect?
    ensures WillOf(Step(s, e), client) ==
            if Anew(s, e, client) then e.will else WillOf(s, client)
  {
    hide Disconnect, PubRels, ForgetAccounts, Scheduler.Reschedule, NothingNew;
    if e.client in s.connectionMap {
      DisconnectBrings(s, s.connectionMap[e.client]);
      StoreOf(s, Disconnect(s, s.connectionMap[e.client]));
      DisconnectLimit(s, s.connectionMap[e.client]);
    }
  }

  lemma DisconnectLimit(s: Router, id: ConnectionId)
    ensures Disconnect(s, id).config == s.config
  {
    hide Clean, RewindAll, Retransmissions, ForgetAccounts, Unsubscribed;
  }

  // A will is handed to the logs once, as it was given, and is gone then; a client without one publishes
  // nothing and changes nothing.
  lemma PublishWillOnce(s: Router, client: ClientId)
    ensures WillOf(PublishWill(s, client), client) == None
    ensures forall other :: other != client ==> WillOf(PublishWill(s, client), other) == WillOf(s, other)
    ensures match WillOf(s, client)
            case None => PublishWill(s, client) == s
            case Some(will) =>
              PublishWill(s, client).datalog.accepted == s.datalog.accepted + [will.(retain := false)]
  {
    hide Accept, WakeAll;
    if client in s.lastWills {
      AcceptFrame(s.datalog, s.lastWills[client]);
      WakeAllFrame(AcceptPublish(s.(lastWills := s.lastWills - {client}), s.lastWills[client]));
    }
  }

  lemma StepWills(s: Router, e: Event, client: ClientId)
    requires Identified(s)
    ensures WillOf(Step(s, e), client) ==
            if Anew(s, e, client) then e.will
            else if Ends(s, e, client) then None
            else WillOf(s, client)
  {
    hide Identified, Connect, DeviceData, Disconnect, PublishWill, Consume, Leaving, NothingNew, Scheduler.Reschedule,
      Admits;
    match e {
      case EventConnect(_, _, _) => ConnectWills(s, e, client);
      case EventDeviceData(id) => DeviceDataWills(s, id, client);
      case EventDisconnect(id) =>
        DisconnectBrings(s, id);
        StoreOf(s, Step(s, e));
      case EventPublishWill(who) => PublishWillOnce(s, who);
      case EventConsume =>
        ConsumeBrings(s);
        StoreOf(s, Step(s, e));
      case _ =>
    }
  }

  // ---------------------------------------------------------------------------------------------
  // Runs

  // Event i of the run brought this will, and no later one has brought another or ended it.
  ghost predicate InForce(s: Router, es: seq<Event>, client: ClientId, will: Publish, i: int) {
    && 0 <= i < |es| && Brings(Run(s, es[..i]), es[i], client, will)
    && forall j :: i < j < |es| ==> !Undoes(Run(s, es[..j]), es[j], client)
  }

  ghost predicate Undoes(s: Router, e: Event, client: ClientId) {
    Ends(s, e, client) || exists will :: Brings(s, e, client, will)
  }

  // In every run a client has a will exactly if one of its admitted connects brought it, and since then it
  // has handled no Disconnect packet of the client, has not been published, and none has come in its place.
  lemma {:induction false} WillInEveryRun(c: Config, es: seq<Event>, client: ClientId, will: Publish)
    ensures WillOf(Run(InitRouter(c), es), client) == Some(will) <==>
              exists i :: InForce(InitRouter(c), es, client, will, i)
    decreases |es|
  {
    hide Step, Identified, Subscribers, InitRouter, Brings, Ends, Undoes, WillOf, Admits;
    if es == [] {
      NoWillYet(c, client);
    } else {
      var s0, before, e := InitRouter(c), es[..|es| - 1], es[|es| - 1];
      WillInEveryRun(c, before, client, will);
      RunKeepsIdentity(c, before);
      StepWills(Run(s0, before), e, client);
      BringsIs(Run(s0, before), e, client);
      InForceSnoc(s0, es, client, will);
    }
  }

  lemma NoWillYet(c: Config, client: ClientId)
    ensures WillOf(InitRouter(c), client) == None
  {
  }

  lemma BringsIs(s: Router, e: Event, client: ClientId)
    ensures forall will :: Brings(s, e, client, will) <==>
              Anew(s, e, client) && e.will.value == will
    ensures Undoes(s, e, client) <==> Ends(s, e, client) || Anew(s, e, client)
    ensures Ends(s, e, client) ==> !Anew(s, e, client)
  {
    hide Admits, Leaving;
    if Anew(s, e, client) {
      assert Brings(s, e, client, e.will.value);
    }
  }

  lemma InForceSnoc(s: Router, es: seq<Event>, client: ClientId, will: Publish)
    requires es != []
    ensures var before, e := es[..|es| - 1], es[|es| - 1];
            (exists i :: InForce(s, es, client, will, i)) <==>
              Brings(Run(s, before), e, client, will)
              || ((exists i :: InForce(s, before, client, will, i)) && !Undoes(Run(s, before), e, client))
  {
    hide Run, Brings, Undoes;
    var n := |es| - 1;
    assert forall j :: 0 <= j <= n ==> es[..n][..j] == es[..j];
    if i :| InForce(s, es, client, will, i) {
      if i < n {
        assert InForce(s, es[..n], client, will, i);
        assert !Undoes(Run(s, es[..n]), es[n], client);
      }
    }
    if Brings(Run(s, es[..n]), es[n], client, will) {
      assert InForce(s, es, client, will, n);
    }
    if !Undoes(Run(s, es[..n]), es[n], client) {
      forall i | InForce(s, es[..n], client, will, i)
        ensures InForce(s, es, client, will, i)
      {
      }
    }
  }
}

// Which packets cost a connection its life, and which connections a batch drops.
module Dropping {
  import opened Types
  import opened Slabs
  import opened DataLogModel
  import opened OutgoingModel
  import opened SchedulerModel
  import opened RouterModel
  import opened Frames
  import opened Identity
  import opened Queue
  import opened ConservationRuns
  import opened Acceptance
  import opened Dialogue

  // A publish or release that is refused, a filter that is barred, an acknowledgement out of order, a
  // release of nothing, or a Disconnect.
  predicate Drops(s: Router, id: ConnectionId, p: Packet)
    requires Present(s, id)
  {
    var table, o, recorded := s.connections.m[id].topicAliases, s.obufs.m[id], s.ackslog.m[id].recorded;
    match p
    case PacketPublish(publish, props) => publish.qos != ExactlyOnce && Refused(table, publish, props)
    case PacketSubscribe(_, filters, subId) => exists i :: 0 <= i < |filters| && Barred(filters[i].0, subId)
    case PacketPubAck(pkid) => o.inflight == [] || o.inflight[0].pkid != pkid
    case PacketPubRec(pkid) => o.inflight == [] || o.inflight[0].pkid != pkid
    case PacketPubComp(pkid) => o.unackedPubrels == [] || o.unackedPubrels[0] != pkid
    case PacketPubRel(_, hasProps) => !hasProps && (recorded == [] || Refused(table, recorded[0].0, recorded[0].1))
    case PacketDisconnect => true
    case _ => false
  }

  // Such a packet and no other marks the connection; all of them but a Subscribe end the batch at once.
  lemma PacketDropsIff(b: Batch, id: ConnectionId, p: Packet)
    requires Present(b.r, id)
    ensures var c := HandlePacket(b, id, p);
            && (c.disconnect <==> b.disconnect || Drops(b.r, id, p))
            && (c.stop <==> b.stop || (Drops(b.r, id, p) && !p.PacketSubscribe?))
  {
    hide Refused, Barred, Accept, Resolve, Commit, Settle, SubscribeAll, UnsubscribeAll, Scheduler.Reschedule,
      HandlePublish, HandlePubRel, HandlePubAck, HandlePubRec;
    match p {
      case PacketPublish(publish, props) => PublishDropsIff(b, id, publish, props);
      case PacketSubscribe(_, filters, subId) => SubscribeDropsIff(b, id, filters, subId);
      case PacketUnsubscribe(pkid, paths) => UnsubscribeAllFrame(b, id, pkid, paths);
      case PacketPubAck(pkid) => AckDropsIff(b, id, pkid);
      case PacketPubRec(pkid) => AckDropsIff(b, id, pkid);
      case PacketPubRel(pkid, hasProps) => ReleaseDropsIff(b, id, pkid);
      case _ =>
    }
  }

  lemma PublishDropsIff(b: Batch, id: ConnectionId, p: Publish, props: Props)
    requires Present(b.r, id)
    ensures var c, drops := HandlePublish(b, id, p, props), Drops(b.r, id, PacketPublish(p, props));
            (c.disconnect <==> b.disconnect || drops) && (c.stop <==> b.stop || drops)
  {
    hide Refused, AppendToCommitlog, Commit;
    if p.qos == AtMostOnce {
      AppendFlags(b, id, p, props, true);
    } else {
      CommitAliases(b.r, id, PubAck(p.pkid));
      AppendFlags(b.(r := Commit(b.r, id, PubAck(p.pkid)), forceAck := true), id, p, props, true);
    }
  }

  lemma CommitAliases(s: Router, id: ConnectionId, a: Ack)
    requires Present(s, id)
    ensures Present(Commit(s, id, a), id) && Commit(s, id, a).connections == s.connections
  {
  }

  lemma AckDropsIff(b: Batch, id: ConnectionId, pkid: nat)
    requires Present(b.r, id)
    ensures var drops, c, d := Drops(b.r, id, PacketPubAck(pkid)), HandlePubAck(b, id, pkid), HandlePubRec(b, id, pkid);
            && (c.disconnect <==> b.disconnect || drops) && (c.stop <==> b.stop || drops)
            && (d.disconnect <==> b.disconnect || drops) && (d.stop <==> b.stop || drops)
  {
    hide Settle, Commit, Scheduler.Reschedule, Outgoing.RegisterPubRec;
  }

  lemma ReleaseDropsIff(b: Batch, id: ConnectionId, pkid: nat)
    requires Present(b.r, id)
    ensures var c, drops := HandlePubRel(b, id, pkid), Drops(b.r, id, PacketPubRel(pkid, false));
            (c.disconnect <==> b.disconnect || drops) && (c.stop <==> b.stop || drops)
  {
    hide Refused, AppendToCommitlog, Scheduler.Reschedule;
    var recorded := b.r.ackslog.m[id].recorded;
    if recorded != [] {
      AppendFlags(Released(b, id, pkid), id, recorded[0].0, recorded[0].1, false);
    }
  }

  lemma {:induction false} SubscribeDropsIff(b: Batch, id: ConnectionId, filters: seq<(Filter, QoS)>,
                                             subId: Option<nat>)
    requires Present(b.r, id)
    ensures var c := SubscribeAll(b, id, filters, subId).0;
            && (c.disconnect <==> b.disconnect || exists i :: 0 <= i < |filters| && Barred(filters[i].0, subId))
            && c.stop == b.stop
            && c.reason ==
               if subId == Some(0) && filters != [] && !Barred(filters[0].0, None) then Some(ProtocolError)
                 else b.reason
    decreases |filters|
  {
    hide SubscribeOne, SameNames, Present, Subscribers;
    if filters != [] {
      assert filters == [filters[0]] + filters[1..];
      if !Barred(filters[0].0, subId) {
        var t := SubscribeOne(b.r, id, filters[0].0, filters[0].1);
        SubscribeOneSame(b.r, id, filters[0].0, filters[0].1);
        SameNamesPresent(b.r, t);
        SubscribeDropsIff(b.(r := t), id, filters[1..], subId);
      }
    }
  }

  // The batch gets to such a packet.
  predicate DropsIn(b: Batch, id: ConnectionId, packets: seq<Packet>)
    decreases |packets|
  {
    packets != [] && !b.stop && Present(b.r, id)
    && (Drops(b.r, id, packets[0]) || DropsIn(HandlePacket(b, id, packets[0]), id, packets[1..]))
  }

  lemma {:induction false} BatchDropsIff(b: Batch, id: ConnectionId, packets: seq<Packet>)
    ensures HandlePackets(b, id, packets).disconnect <==> b.disconnect || DropsIn(b, id, packets)
    decreases |packets|
  {
    hide HandlePacket, Drops;
    if packets != [] && !b.stop && Present(b.r, id) {
      PacketDropsIff(b, id, packets[0]);
      BatchDropsIff(HandlePacket(b, id, packets[0]), id, packets[1..]);
    }
  }

  // A connection survives its batch if and only if the batch gets to no such packet.
  lemma ConnectionDropsIff(s: Router, id: ConnectionId)
    requires Identified(s) && Present(s, id)
    ensures id in DeviceData(s, id).connections.m <==> !DropsIn(FirstBatch(s, id), id, s.ibufs.m[id].buffer)
  {
    hide HandlePackets, DropsIn, WakeAll, Disconnect, Scheduler.Reschedule, SameNames, Subscribers, Identified;
    var b0, packets := FirstBatch(s, id), s.ibufs.m[id].buffer;
    var b := HandlePackets(b0, id, packets);
    BatchDropsIff(b0, id, packets);
    SetIbufSame(s, id, s.ibufs.m[id].(buffer := []));
    HandlePacketsSame(b0, id, packets);
    WokenSame(b, id);
    SameNamesPresent(b0.r, b.r);
    SameNamesPresent(b.r, Woken(b, id));
    Removes(Woken(b, id), id);
  }

  lemma Removes(s: Router, id: ConnectionId)
    requires Present(s, id)
    ensures id !in Disconnect(s, id).connections.m
  {
    hide Clean, RewindAll, Retransmissions, ForgetAccounts, Unsubscribed;
  }
}

// Where handling an event compares a topic or a filter with filters. The comparison slices the first
// byte of what it is given, and panics if the first character is longer; so each place below is
// passed only with a name that can be sliced.
module Slices {
  import opened Types
  import opened TopicMatch
  import opened DataLogModel
  import opened OutgoingModel
  import opened RouterModel

  predicate AppendSliced(s: Router, id: ConnectionId, p: Publish, props: Props)
    requires Present(s, id)
  {
    var t := Resolve(s.connections.m[id].topicAliases, p, props).0;
    t.Some? ==> LookupSliced(s.datalog, t.value)
  }

  predicate SubscribeSliced(b: Batch, id: ConnectionId, filters: seq<(Filter, QoS)>, subId: Option<nat>)
    decreases |filters|
  {
    filters == [] || !Present(b.r, id) || RefusedFilter(filters[0].0) || subId == Some(0) ||
    (RegisterSliced(b.r.datalog, filters[0].0)
     && SubscribeSliced(b.(r := SubscribeOne(b.r, id, filters[0].0, filters[0].1)), id, filters[1..], subId))
  }

  // A QoS 2 publish is not looked up before its release.
  predicate PacketSliced(b: Batch, id: ConnectionId, p: Packet)
    requires Present(b.r, id)
  {
    match p
    case PacketPublish(publish, props) => publish.qos == ExactlyOnce || AppendSliced(b.r, id, publish, props)
    case PacketSubscribe(_, filters, subId) => SubscribeSliced(b, id, filters, subId)
    case PacketPubRel(pkid, hasProps) =>
      var a := b.r.ackslog.m[id].Release(pkid).1;
      hasProps || a.None? || AppendSliced(b.r, id, a.value.0, a.value.1)
    case _ => true
  }

  predicate PacketsSliced(b: Batch, id: ConnectionId, packets: seq<Packet>)
    decreases |packets|
  {
    packets == [] || b.stop || !Present(b.r, id) ||
    (PacketSliced(b, id, packets[0]) && PacketsSliced(HandlePacket(b, id, packets[0]), id, packets[1..]))
  }

  predicate DeviceDataSliced(s: Router, id: ConnectionId) {
    Present(s, id) ==>
      PacketsSliced(Batch(TakePackets(s, id), false, false, false, None, false), id, s.ibufs.m[id].buffer)
  }

  // A sweep reads the retained store once for each subscription, and not in front of a full window.
  predicate SweepSliced(dl: DataLog, o: Outgoing, r: DataRequest) {
    r.forwardRetained && (r.qos == AtMostOnce || o.FreeSlots() > 0) ==> RetainedSliced(dl.retained)
  }

  predicate LoopSliced(s: Router, id: ConnectionId, n: nat)
    decreases n
  {
    n == 0 || !Present(s, id) || s.scheduler.trackers.m[id].requests == [] ||
    (SweepSliced(s.datalog, s.obufs.m[id], s.scheduler.trackers.m[id].requests[0])
     && (ConsumeOne(s, id).1 ==> LoopSliced(ConsumeOne(s, id).0, id, n - 1)))
  }

  predicate ConsumeSliced(s: Router) {
    s.scheduler.readyqueue == [] ||
    var id, s1 := s.scheduler.readyqueue[0], s.(scheduler := s.scheduler.Rotate());
    Present(s1, id) ==> LoopSliced(SendAcks(s1, id), id, MAX_SCHEDULE_ITERATIONS)
  }

  predicate WillSliced(s: Router, client: ClientId) {
    client in s.lastWills ==> LookupSliced(s.datalog, s.lastWills[client].topic)
  }

  predicate Sliced(s: Router, e: Event) {
    match e
    case EventDeviceData(id) => DeviceDataSliced(s, id)
    case EventPublishWill(client) => WillSliced(s, client)
    case EventConsume => ConsumeSliced(s)
    case _ => true
  }
}

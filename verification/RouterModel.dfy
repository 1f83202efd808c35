// The router as a state machine over values: one function per event it handles.
module RouterModel {
  import opened Types
  import opened Slabs
  import opened LogModel
  import opened DataLogModel
  import opened OutgoingModel
  import opened SchedulerModel

  const TOPIC_ALIAS_MAX: nat := 4096

  datatype Reason = MalformedPacket | TopicAliasInvalid | ProtocolError

  datatype Props = Props(topicAlias: Option<nat>, subscriptionIds: seq<nat>)

  datatype Packet =
    | PacketPublish(publish: Publish, props: Props)
    | PacketSubscribe(pkid: nat, filters: seq<(Filter, QoS)>, subscriptionId: Option<nat>)
    | PacketUnsubscribe(pkid: nat, paths: seq<Filter>)
    | PacketPubAck(pkid: nat)
    | PacketPubRec(pkid: nat)
    | PacketPubRel(pkid: nat, hasProps: bool)
    | PacketPubComp(pkid: nat)
    | PacketPingReq
    | PacketDisconnect
    | PacketOther

  datatype Connection = Connection(
    clientId: ClientId,
    clean: bool,
    subscriptions: set<Filter>,
    topicAliases: map<nat, Topic>)

  datatype Incoming = Incoming(clientId: ClientId, buffer: seq<Packet>)

  // Acks not yet sent, and QoS 2 publishes waiting for their PubRel.
  datatype AckLog = AckLog(committed: seq<Ack>, recorded: seq<(Publish, Props)>) {
    function Commit(a: Ack): AckLog {
      this.(committed := committed + [a])
    }

    function Record(p: Publish, props: Props): AckLog {
      AckLog(committed + [PubRec(p.pkid)], recorded + [(p, props)])
    }

    function Release(pkid: nat): (AckLog, Option<(Publish, Props)>) {
      if recorded == [] then (Commit(PubComp(pkid)), None)
      else (AckLog(committed + [PubComp(pkid)], recorded[1..]), Some(recorded[0]))
    }
  }

  datatype Session = Session(tracker: Tracker, subscriptions: set<Filter>, unackedPubrels: seq<nat>)

  // History of one subscription, for stating what was delivered. Offsets of its log: where it
  // started; acknowledged by the client; evicted before they were read; and dropped from the window
  // by an acknowledgement that named another packet.
  datatype Account = Account(start: nat, acked: set<nat>, missed: set<nat>, dropped: set<nat>)

  type AccountKey = (ClientId, Filter)

  datatype Router = Router(
    config: Config,
    graveyard: map<ClientId, Option<Session>>,
    connections: Slab<Connection>,
    connectionMap: map<ClientId, ConnectionId>,
    subscriptionMap: map<Filter, set<ConnectionId>>,
    ibufs: Slab<Incoming>,
    obufs: Slab<Outgoing>,
    datalog: DataLog,
    ackslog: Slab<AckLog>,
    scheduler: Scheduler,
    notifications: seq<Waiter>,
    lastWills: map<ClientId, Publish>,
    accounts: map<AccountKey, Account>)

  function InitRouter(c: Config): Router {
    Router(c, map[], New(), map[], map[], New(), New(), EmptyDataLog(c), New(), Scheduler(New(), []), [], map[], map[])
  }

  predicate Present(s: Router, id: ConnectionId) {
    id in s.connections.m && id in s.ibufs.m && id in s.obufs.m && id in s.ackslog.m && id in s.scheduler.trackers.m
  }

  // ---------------------------------------------------------------------------------------------
  // Waking

  function Reschedule(s: Router, id: ConnectionId, reason: ScheduleReason): Router {
    s.(scheduler := s.scheduler.Reschedule(id, reason))
  }

  function Wake(s: Router, w: Waiter): Router {
    s.(scheduler := s.scheduler.Track(w.0, w.1).Reschedule(w.0, FreshData))
  }

  // Tracks every woken request again and schedules its connection.
  function WakeAll(s: Router): Router
    decreases |s.notifications|
  {
    if s.notifications == [] then s
    else WakeAll(Wake(s, s.notifications[0]).(notifications := s.notifications[1..]))
  }

  // ---------------------------------------------------------------------------------------------
  // Connecting

  function ForgetAccounts(accounts: map<AccountKey, Account>, client: ClientId): map<AccountKey, Account> {
    map k | k in accounts && k.0 != client :: accounts[k]
  }

  function SavedSession(s: Router, client: ClientId): Option<Session> {
    if client in s.graveyard then s.graveyard[client] else None
  }

  function PubRels(pkids: seq<nat>): seq<Ack> {
    seq(|pkids|, i requires 0 <= i < |pkids| => PubRel(pkids[i]))
  }

  // Before the new connection is scheduled.
  function Admitted(s: Router, client: ClientId, clean: bool, will: Option<Publish>): Router {
    var saved := SavedSession(s, client);
    var resumed := !clean && saved.Some?;
    var id := s.connections.NextKey();
    var subscriptions := if resumed then saved.value.subscriptions else {};
    var pubrels := if resumed then saved.value.unackedPubrels else [];
    var tracker := if resumed then saved.value.tracker else Tracker(client, [], Paused(Busy));
    s.(
      graveyard := s.graveyard - {client},
      lastWills := if will.Some? then s.lastWills[client := will.value] else s.lastWills,
      connections := s.connections.Insert(Connection(client, clean, subscriptions, map[])),
      ibufs := s.ibufs.Insert(Incoming(client, [])),
      obufs := s.obufs.Insert(NewOutgoing(client, pubrels)),
      connectionMap := s.connectionMap[client := id],
      ackslog := s.ackslog.Insert(AckLog([ConnAck(id, resumed)] + PubRels(pubrels), [])),
      scheduler := s.scheduler.(trackers := s.scheduler.trackers.Insert(tracker)),
      accounts := if resumed then s.accounts else ForgetAccounts(s.accounts, client))
  }

  function Admit(s: Router, client: ClientId, clean: bool, will: Option<Publish>): Router {
    Reschedule(Admitted(s, client, clean, will), s.connections.NextKey(), Init)
  }

  predicate ValidClientId(client: ClientId) {
    forall c :: c in client ==> c !in "+$#/"
  }

  function Connect(s: Router, client: ClientId, clean: bool, will: Option<Publish>): Router {
    if !ValidClientId(client) then s
    else
      var s1 := if client in s.connectionMap then Disconnect(s, s.connectionMap[client]) else s;
      if |s1.connections.m| >= s1.config.maxConnections then s1
      else Admit(s1, client, clean, will)
  }

  // ---------------------------------------------------------------------------------------------
  // Disconnecting

  function Unsubscribed(m: map<Filter, set<ConnectionId>>, filters: set<Filter>, id: ConnectionId)
    : map<Filter, set<ConnectionId>>
  {
    map f | f in m :: if f in filters then m[f] - {id} else m[f]
  }

  function Rewind(r: DataRequest, retransmissions: map<FilterIdx, Cursor>): DataRequest {
    if r.filterIdx in retransmissions then r.(cursor := retransmissions[r.filterIdx]) else r
  }

  function RewindAll(rs: seq<DataRequest>, retransmissions: map<FilterIdx, Cursor>): seq<DataRequest> {
    seq(|rs|, i requires 0 <= i < |rs| => Rewind(rs[i], retransmissions))
  }

  // Removes the connection; a persistent session keeps its requests, rewound to what is unacked.
  function Disconnect(s: Router, id: ConnectionId): Router {
    if !Present(s, id) then s
    else
      var connection, outgoing, tracker := s.connections.m[id], s.obufs.m[id], s.scheduler.trackers.m[id];
      var cleaned := Clean(s.datalog, id);
      var requests := RewindAll(tracker.requests + cleaned.1, Retransmissions(outgoing.inflight));
      s.(
        connections := s.connections.Remove(id),
        ibufs := s.ibufs.Remove(id),
        obufs := s.obufs.Remove(id),
        scheduler := s.scheduler.(trackers := s.scheduler.trackers.Remove(id)),
        connectionMap := s.connectionMap - {outgoing.clientId},
        ackslog := s.ackslog.Remove(id),
        datalog := cleaned.0,
        subscriptionMap := Unsubscribed(s.subscriptionMap, connection.subscriptions, id),
        graveyard := s.graveyard[tracker.id :=
          if connection.clean then None
          else Some(Session(Tracker(tracker.id, requests, Paused(Busy)), connection.subscriptions,
                            outgoing.unackedPubrels))],
        accounts := if connection.clean then ForgetAccounts(s.accounts, connection.clientId) else s.accounts)
  }

  // ---------------------------------------------------------------------------------------------
  // Packets

  // Progress through one batch of packets of one connection.
  datatype Batch = Batch(
    r: Router,
    forceAck: bool,
    newData: bool,
    disconnect: bool,
    reason: Option<Reason>,
    stop: bool)

  function Commit(s: Router, id: ConnectionId, a: Ack): Router
    requires id in s.ackslog.m
  {
    s.(ackslog := s.ackslog.Set(id, s.ackslog.m[id].Commit(a)))
  }

  function Fail(b: Batch): Batch {
    b.(disconnect := true, stop := true)
  }

  // The topic a publish resolves to, the alias table afterwards, or why it is refused.
  function Resolve(aliases: map<nat, Topic>, p: Publish, props: Props): (Option<Topic>, map<nat, Topic>, Reason) {
    if props.subscriptionIds != [] then (None, aliases, MalformedPacket)
    else
      match props.topicAlias
      case None => (Some(p.topic), aliases, ProtocolError)
      case Some(alias) =>
        if alias == 0 || alias > TOPIC_ALIAS_MAX then (None, aliases, TopicAliasInvalid)
        else if p.topic == "" then
          (if alias in aliases then Some(aliases[alias]) else None, aliases, ProtocolError)
        else (Some(p.topic), aliases[alias := p.topic], ProtocolError)
  }

  function AcceptPublish(s: Router, p: Publish): Router {
    var a := Accept(s.datalog, p);
    s.(datalog := a.0, notifications := s.notifications + a.1)
  }

  // Appends a publish of a connection to the logs, or ends the batch.
  function AppendToCommitlog(b: Batch, id: ConnectionId, p: Publish, props: Props, reportReason: bool): Batch
    requires Present(b.r, id)
  {
    var c := b.r.connections.m[id];
    var t := Resolve(c.topicAliases, p, props);
    match t.0
    case None => Fail(if reportReason then b.(reason := Some(t.2)) else b)
    case Some(topic) =>
      var s := b.r.(connections := b.r.connections.Set(id, c.(topicAliases := t.1)));
      b.(r := AcceptPublish(s, p.(topic := topic)), newData := true)
  }

  function HandlePublish(b: Batch, id: ConnectionId, p: Publish, props: Props): Batch
    requires Present(b.r, id)
  {
    match p.qos
    case ExactlyOnce =>
      b.(r := b.r.(ackslog := b.r.ackslog.Set(id, b.r.ackslog.m[id].Record(p, props))), forceAck := true)
    case AtLeastOnce =>
      AppendToCommitlog(b.(r := Commit(b.r, id, PubAck(p.pkid)), forceAck := true), id, p, props, true)
    case AtMostOnce => AppendToCommitlog(b, id, p, props, true)
  }

  predicate RefusedFilter(path: Filter) {
    path != "" && path[0] == '$' && !("$share" <= path)
  }

  function AddSubscriber(m: map<Filter, set<ConnectionId>>, path: Filter, id: ConnectionId): map<Filter,
      set<ConnectionId>> {
    m[path := (if path in m then m[path] else {}) + {id}]
  }

  // Registers the filter, and starts a request at the end of its log if the subscription is new.
  function SubscribeOne(s: Router, id: ConnectionId, path: Filter, qos: QoS): Router
    requires Present(s, id)
  {
    var datalog := Register(s.datalog, path);
    var idx := IndexOf(datalog, path);
    var cursor := if idx < |datalog.native| then datalog.native[idx].log.NextOffset() else Cursor(0, 0);
    var c := s.connections.m[id];
    var s1 := s.(datalog := datalog, subscriptionMap := AddSubscriber(s.subscriptionMap, path, id));
    if path in c.subscriptions then s1
    else
      s1.(connections := s.connections.Set(id, c.(subscriptions := c.subscriptions + {path})),
          scheduler := s.scheduler.Track(id, DataRequest(path, idx, qos, cursor, 0, true)).Reschedule(id, NewFilter),
          accounts := s.accounts[(c.clientId, path) := Account(cursor.offset, {}, {}, {})])
  }

  // The filters of one Subscribe, stopping at the first bad one.
  function SubscribeAll(b: Batch, id: ConnectionId, filters: seq<(Filter, QoS)>, subId: Option<nat>): (Batch, seq<QoS>)
    decreases |filters|
  {
    if filters == [] || !Present(b.r, id) then (b, [])
    else if RefusedFilter(filters[0].0) then (b.(disconnect := true), [])
    else if subId == Some(0) then (b.(disconnect := true, reason := Some(ProtocolError)), [])
    else
      var rest := SubscribeAll(b.(r := SubscribeOne(b.r, id, filters[0].0, filters[0].1)), id, filters[1..], subId);
      (rest.0, [filters[0].1] + rest.1)
  }

  // The subscription, its tracked and parked request, and its account go.
  function Leave(s: Router, id: ConnectionId, path: Filter): Router
    requires Present(s, id)
  {
    var c := s.connections.m[id];
    s.(connections := s.connections.Set(id, c.(subscriptions := c.subscriptions - {path})),
       scheduler := s.scheduler.Untrack(id, path),
       datalog := RemoveWaiter(s.datalog, id, path),
       accounts := s.accounts - {(c.clientId, path)})
  }

  // Only a connection listed in the subscription map can leave a filter.
  function UnsubscribeOne(b: Batch, id: ConnectionId, pkid: nat, path: Filter): Batch
    requires Present(b.r, id)
  {
    if path !in b.r.subscriptionMap || id !in b.r.subscriptionMap[path] then b
    else
      var s := b.r.(subscriptionMap := b.r.subscriptionMap[path := b.r.subscriptionMap[path] - {id}]);
      if path !in s.connections.m[id].subscriptions then b.(r := s)
      else b.(r := Commit(Leave(s, id, path), id, UnsubAck(pkid)), forceAck := true)
  }

  function UnsubscribeAll(b: Batch, id: ConnectionId, pkid: nat, paths: seq<Filter>): Batch
    decreases |paths|
  {
    if paths == [] || !Present(b.r, id) then b
    else UnsubscribeAll(UnsubscribeOne(b, id, pkid, paths[0]), id, pkid, paths[1..])
  }

  // What the head of the window means for the accounts when it leaves it.
  function Settle(s: Router, id: ConnectionId, pkid: nat): map<AccountKey, Account>
    requires Present(s, id)
  {
    var o := s.obufs.m[id];
    if o.inflight == [] || o.inflight[0].cursor.None? || o.inflight[0].filterIdx >= |s.datalog.native| then s.accounts
    else
      var e := o.inflight[0];
      var k := (s.connections.m[id].clientId, s.datalog.native[e.filterIdx].filter);
      if k !in s.accounts then s.accounts
      else
        var a := s.accounts[k];
        s.accounts[k := if e.pkid == pkid then a.(acked := a.acked + {e.cursor.value.offset})
                        else a.(dropped := a.dropped + {e.cursor.value.offset})]
  }

  function RegisterAck(s: Router, id: ConnectionId, pkid: nat): Router
    requires Present(s, id)
  {
    s.(obufs := s.obufs.Set(id, s.obufs.m[id].RegisterAck(pkid).0), accounts := Settle(s, id, pkid))
  }

  function HandlePubAck(b: Batch, id: ConnectionId, pkid: nat): Batch
    requires Present(b.r, id)
  {
    var s := RegisterAck(b.r, id, pkid);
    if b.r.obufs.m[id].RegisterAck(pkid).1 then b.(r := Reschedule(s, id, IncomingAck)) else Fail(b.(r := s))
  }

  function HandlePubRec(b: Batch, id: ConnectionId, pkid: nat): Batch
    requires Present(b.r, id)
  {
    var s := RegisterAck(b.r, id, pkid);
    if b.r.obufs.m[id].RegisterAck(pkid).1 then
      var s1 := s.(obufs := s.obufs.Set(id, s.obufs.m[id].RegisterPubRec(pkid)));
      b.(r := Reschedule(Commit(s1, id, PubRel(pkid)), id, IncomingAck))
    else Fail(b.(r := s))
  }

  function HandlePubRel(b: Batch, id: ConnectionId, pkid: nat): Batch
    requires Present(b.r, id)
  {
    var a := b.r.ackslog.m[id].Release(pkid);
    var b1 := b.(r := b.r.(ackslog := b.r.ackslog.Set(id, a.0)));
    match a.1
    case None => Fail(b1)
    case Some(rec) =>
      var b2 := AppendToCommitlog(b1, id, rec.0, rec.1, false);
      if b2.stop then b2 else b2.(r := Reschedule(b2.r, id, IncomingAck))
  }

  function HandlePubComp(b: Batch, id: ConnectionId, pkid: nat): Batch
    requires Present(b.r, id)
  {
    var o := b.r.obufs.m[id].RegisterPubComp(pkid);
    var b1 := b.(r := b.r.(obufs := b.r.obufs.Set(id, o.0)));
    if o.1 then b1 else Fail(b1)
  }

  function HandlePacket(b: Batch, id: ConnectionId, p: Packet): Batch
    requires Present(b.r, id)
  {
    match p
    case PacketPublish(publish, props) => HandlePublish(b, id, publish, props)
    case PacketSubscribe(pkid, filters, subId) =>
      var r := SubscribeAll(b, id, filters, subId);
      if Present(r.0.r, id) then r.0.(r := Commit(r.0.r, id, SubAck(pkid, r.1)), forceAck := true) else r.0
    case PacketUnsubscribe(pkid, paths) => UnsubscribeAll(b, id, pkid, paths)
    case PacketPubAck(pkid) => HandlePubAck(b, id, pkid)
    case PacketPubRec(pkid) => HandlePubRec(b, id, pkid)
    case PacketPubRel(pkid, hasProps) => if hasProps then b else HandlePubRel(b, id, pkid)
    case PacketPubComp(pkid) => HandlePubComp(b, id, pkid)
    case PacketPingReq => b.(r := Commit(b.r, id, PingResp), forceAck := true)
    case PacketDisconnect => Fail(b.(r := b.r.(lastWills := b.r.lastWills - {b.r.ibufs.m[id].clientId})))
    case PacketOther => b
  }

  // Handles packets until one of them ends the batch; the rest is discarded.
  function HandlePackets(b: Batch, id: ConnectionId, packets: seq<Packet>): Batch
    decreases |packets|
  {
    if packets == [] || b.stop || !Present(b.r, id) then b
    else HandlePackets(HandlePacket(b, id, packets[0]), id, packets[1..])
  }

  function Finish(b: Batch, id: ConnectionId): Router {
    var s1 := if b.forceAck then Reschedule(b.r, id, FreshData) else b.r;
    var s2 := if b.newData then WakeAll(s1) else s1;
    if b.disconnect then Disconnect(s2, id) else s2
  }

  function TakePackets(s: Router, id: ConnectionId): Router
    requires Present(s, id)
  {
    s.(ibufs := s.ibufs.Set(id, s.ibufs.m[id].(buffer := [])))
  }

  function DeviceData(s: Router, id: ConnectionId): Router {
    if !Present(s, id) then s
    else Finish(HandlePackets(Batch(TakePackets(s, id), false, false, false, None, false), id, s.ibufs.m[id].buffer),
                id)
  }

  // ---------------------------------------------------------------------------------------------
  // Consuming

  datatype ConsumeStatus = BufferFull | InflightFull | FilterCaughtup | PartialRead

  function Take<T>(s: seq<T>, n: nat): seq<T> {
    if n <= |s| then s[..n] else s
  }

  function Slots(dl: DataLog, o: Outgoing, r: DataRequest): nat {
    if r.qos != AtMostOnce then o.FreeSlots() else dl.config.maxOutgoingPacketCount
  }

  function RetainedItems(dl: DataLog, r: DataRequest, slots: nat): seq<Item> {
    if !r.forwardRetained then []
    else
      AsRetained(Take(RetainedFor(dl.retained, r.filter), slots))
  }

  function AsRetained(ps: seq<Publish>): seq<Item> {
    seq(|ps|, i requires 0 <= i < |ps| => (ps[i], None))
  }

  function LogItems(es: seq<(Publish, Cursor)>): seq<Item> {
    seq(|es|, i requires 0 <= i < |es| => (es[i].0, Some(es[i].1)))
  }

  // What one request may read from its log now.
  function Pull(dl: DataLog, o: Outgoing, r: DataRequest): ReadResult {
    var slots := Slots(dl, o, r);
    var n := |RetainedItems(dl, r, slots)|;
    ReadFor(dl, r.filterIdx, r.cursor, if n <= slots then slots - n else 0)
  }

  // One sweep of a request: retained publishes once, then the log, into buffer and window.
  function ForwardData(dl: DataLog, o: Outgoing, r: DataRequest): (Outgoing, DataRequest, ConsumeStatus) {
    var slots := Slots(dl, o, r);
    if r.qos != AtMostOnce && slots == 0 then (o, r, ConsumeStatus.InflightFull)
    else
      var retained := RetainedItems(dl, r, slots);
      var read := Pull(dl, o, r);
      var items := retained + LogItems(read.entries);
      var r' := r.(readCount := r.readCount + |items|, cursor := read.end, forwardRetained := false);
      if items == [] then (o, r', FilterCaughtup)
      else
        var o' := o.PushForwards(items, r.qos, r.filterIdx);
        if |o'.buffer| >= MAX_CHANNEL_CAPACITY - 1 then
          (o'.PushNotification(Unschedule).Notify(), r', BufferFull)
        else (o'.Notify(), r', if read.done then FilterCaughtup else PartialRead)
  }

  // Offsets a read skips because they were evicted first.
  function Skip(s: Router, id: ConnectionId, r: DataRequest): map<AccountKey, Account>
    requires Present(s, id)
  {
    var k := (s.connections.m[id].clientId, r.filter);
    if k !in s.accounts || r.filterIdx >= |s.datalog.native|
      || s.datalog.native[r.filterIdx].log.head >= |s.datalog.native[r.filterIdx].log.starts| then s.accounts
    else
      var a := s.accounts[k];
      s.accounts[k := a.(missed := a.missed + Range(r.cursor.offset, s.datalog.native[r.filterIdx].log.HeadOffset()))]
  }

  function SetRequests(s: Router, id: ConnectionId, rs: seq<DataRequest>): Router
    requires id in s.scheduler.trackers.m
  {
    s.(scheduler := s.scheduler.SetTracker(id, s.scheduler.trackers.m[id].(requests := rs)))
  }

  // Handles the request at the front of a tracker; the flag says whether to go on.
  function ConsumeOne(s: Router, id: ConnectionId): (Router, bool)
    requires Present(s, id) && s.scheduler.trackers.m[id].requests != []
  {
    var r, rest := s.scheduler.trackers.m[id].requests[0], s.scheduler.trackers.m[id].requests[1..];
    var f := ForwardData(s.datalog, s.obufs.m[id], r);
    match f.2
    case InflightFull =>
      (Pause(SetRequests(s, id, rest + [f.1]), id, PauseReason.InflightFull), false)
    case BufferFull =>
      (Pause(SetRequests(Forwarded(s, id, r, f.0), id, rest + [f.1]), id, Busy), false)
    case FilterCaughtup =>
      (SetRequests(Forwarded(s, id, r, f.0), id, rest).(datalog := Park(s.datalog, id, f.1)), true)
    case PartialRead =>
      (SetRequests(Forwarded(s, id, r, f.0), id, rest + [f.1]), true)
  }

  function Forwarded(s: Router, id: ConnectionId, r: DataRequest, o: Outgoing): Router
    requires Present(s, id)
  {
    s.(obufs := s.obufs.Set(id, o), accounts := Skip(s, id, r))
  }

  function Pause(s: Router, id: ConnectionId, reason: PauseReason): Router {
    s.(scheduler := s.scheduler.Pause(id, reason))
  }

  function ConsumeLoop(s: Router, id: ConnectionId, n: nat): Router
    decreases n
  {
    if n == 0 || !Present(s, id) then s
    else if s.scheduler.trackers.m[id].requests == [] then Pause(s, id, Caughtup)
    else
      var r := ConsumeOne(s, id);
      if r.1 then ConsumeLoop(r.0, id, n - 1) else r.0
  }

  function DeviceAcks(acks: seq<Ack>): seq<Notification> {
    seq(|acks|, i requires 0 <= i < |acks| => DeviceAck(acks[i]))
  }

  function SendAcks(s: Router, id: ConnectionId): Router
    requires Present(s, id)
  {
    var a, o := s.ackslog.m[id], s.obufs.m[id];
    if a.committed == [] then s
    else
      s.(ackslog := s.ackslog.Set(id, a.(committed := [])),
         obufs := s.obufs.Set(id, o.(buffer := o.buffer + DeviceAcks(a.committed)).Notify()))
  }

  // One turn of the ready queue; the flag is false when the router would block for events.
  function Consume(s: Router): (Router, bool) {
    if s.scheduler.readyqueue == [] then (s, false)
    else
      var id := s.scheduler.readyqueue[0];
      var s1 := s.(scheduler := s.scheduler.Rotate());
      if id !in s.scheduler.trackers.m then (s1, false)
      else if !Present(s1, id) then (s1, true)
      else (ConsumeLoop(SendAcks(s1, id), id, MAX_SCHEDULE_ITERATIONS), true)
  }

  // ---------------------------------------------------------------------------------------------
  // Remaining events

  function PublishWill(s: Router, client: ClientId): Router {
    if client !in s.lastWills then s
    else WakeAll(AcceptPublish(s.(lastWills := s.lastWills - {client}), s.lastWills[client]))
  }

  // The link puts a packet into the receive buffer.
  function Arrive(s: Router, id: ConnectionId, p: Packet): Router {
    if id !in s.ibufs.m then s
    else s.(ibufs := s.ibufs.Set(id, s.ibufs.m[id].(buffer := s.ibufs.m[id].buffer + [p])))
  }

  // The link takes a token and everything in the send buffer.
  function Exchange(s: Router, id: ConnectionId): Router {
    if id !in s.obufs.m || s.obufs.m[id].tokens == 0 then s
    else s.(obufs := s.obufs.Set(id, s.obufs.m[id].(buffer := [], tokens := s.obufs.m[id].tokens - 1)))
  }

  datatype Event =
    | EventConnect(client: ClientId, clean: bool, will: Option<Publish>)
    | EventArrive(id: ConnectionId, packet: Packet)
    | EventDeviceData(id: ConnectionId)
    | EventDisconnect(id: ConnectionId)
    | EventReady(id: ConnectionId)
    | EventExchange(id: ConnectionId)
    | EventPublishWill(client: ClientId)
    | EventConsume

  // Where the code panics the step goes on: a Ready event for a connection that is gone changes
  // nothing, and a name that cannot be sliced is matched like any other (module Panics).
  function Step(s: Router, e: Event): Router {
    match e
    case EventConnect(client, clean, will) => Connect(s, client, clean, will)
    case EventArrive(id, p) => Arrive(s, id, p)
    case EventDeviceData(id) => DeviceData(s, id)
    case EventDisconnect(id) => Disconnect(s, id)
    case EventReady(id) => Reschedule(s, id, LinkReady)
    case EventExchange(id) => Exchange(s, id)
    case EventPublishWill(client) => PublishWill(s, client)
    case EventConsume => Consume(s).0
  }

  function Run(s: Router, es: seq<Event>): Router
    decreases |es|
  {
    if es == [] then s else Step(Run(s, es[..|es| - 1]), es[|es| - 1])
  }
}

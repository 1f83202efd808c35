// Which publishes the broker accepts, and under which topic: from packets, from releases of QoS 2
// publishes, and from wills. What the logs hold and what is retained follows from these alone.
module Acceptance {
  import opened Types
  import opened Slabs
  import opened DataLogModel
  import opened OutgoingModel
  import opened SchedulerModel
  import opened RouterModel
  import opened Frames
  import opened Identity
  import opened ConservationRuns
  import opened Inputs
  import opened RetainedStore

  // ---------------------------------------------------------------------------------------------
  // One publish

  // The publish has been handed to the logs, and nothing has been decided against its connection.
  ghost predicate TakenAs(b: Batch, c: Batch, id: ConnectionId, q: Publish, table: map<nat, Topic>) {
    && c.r.datalog.accepted == b.r.datalog.accepted + [q.(retain := false)]
    && id in c.r.connections.m && c.r.connections.m[id].topicAliases == table
    && c.newData && c.stop == b.stop && c.disconnect == b.disconnect && c.reason == b.reason
  }

  // The publish has left no trace in logs and aliases, and its connection is to be dropped.
  ghost predicate RefusedFor(b: Batch, c: Batch, id: ConnectionId, why: Reason) {
    && c.r.datalog == b.r.datalog && c.r.connections == b.r.connections && c.r.notifications == b.r.notifications
    && c.stop && c.disconnect && c.reason == Some(why)
  }

  // A publish that carries subscription ids, an alias out of range, or no topic and an alias that stands
  // for none is refused. Any other is accepted: under its topic, for which its alias stands from then on,
  // or under the topic its alias stands for.
  lemma PublishIsTaken(b: Batch, id: ConnectionId, p: Publish, props: Props)
    requires Present(b.r, id) && p.qos != ExactlyOnce
    ensures var c, table := HandlePublish(b, id, p, props), b.r.connections.m[id].topicAliases;
            if props.subscriptionIds != [] then RefusedFor(b, c, id, MalformedPacket)
            else
              match props.topicAlias
              case None => TakenAs(b, c, id, p, table)
              case Some(k) =>
                if k < 1 || k > 4096 then RefusedFor(b, c, id, TopicAliasInvalid)
                else if p.topic != "" then TakenAs(b, c, id, p, table[k := p.topic])
                else if k in table then TakenAs(b, c, id, p.(topic := table[k]), table)
                else RefusedFor(b, c, id, ProtocolError)
  {
    hide AppendToCommitlog, TakenAs, RefusedFor;
    if p.qos == AtLeastOnce {
      var b1 := b.(r := Commit(b.r, id, PubAck(p.pkid)), forceAck := true);
      AppendIsTaken(b1, id, p, props);
      BeforeTheAck(b, id, PubAck(p.pkid));
    } else {
      AppendIsTaken(b, id, p, props);
    }
  }

  lemma BeforeTheAck(b: Batch, id: ConnectionId, a: Ack)
    requires Present(b.r, id)
    ensures var b1 := b.(r := Commit(b.r, id, a), forceAck := true);
            && b1.r.connections == b.r.connections
            && (forall c, q, table :: TakenAs(b1, c, id, q, table) ==> TakenAs(b, c, id, q, table))
            && (forall c, why :: RefusedFor(b1, c, id, why) ==> RefusedFor(b, c, id, why))
  {
  }

  lemma AppendIsTaken(b: Batch, id: ConnectionId, p: Publish, props: Props)
    requires Present(b.r, id)
    ensures var c, table := AppendToCommitlog(b, id, p, props, true), b.r.connections.m[id].topicAliases;
            if props.subscriptionIds != [] then RefusedFor(b, c, id, MalformedPacket)
            else
              match props.topicAlias
              case None => TakenAs(b, c, id, p, table)
              case Some(k) =>
                if k < 1 || k > 4096 then RefusedFor(b, c, id, TopicAliasInvalid)
                else if p.topic != "" then TakenAs(b, c, id, p, table[k := p.topic])
                else if k in table then TakenAs(b, c, id, p.(topic := table[k]), table)
                else RefusedFor(b, c, id, ProtocolError)
  {
    hide AppendToCommitlog, Resolve, TakenAs, RefusedFor;
    ResolveIs(b.r.connections.m[id].topicAliases, p, props);
    AppendResolves(b, id, p, props);
    assert p.(topic := p.topic) == p;
  }

  lemma AppendResolves(b: Batch, id: ConnectionId, p: Publish, props: Props)
    requires Present(b.r, id)
    ensures var c, t := AppendToCommitlog(b, id, p, props, true), Resolve(b.r.connections.m[id].topicAliases, p, props);
            match t.0
            case None => RefusedFor(b, c, id, t.2)
            case Some(topic) => TakenAs(b, c, id, p.(topic := topic), t.1)
  {
    hide Accept, Resolve;
    var t := Resolve(b.r.connections.m[id].topicAliases, p, props);
    if t.0.Some? {
      AcceptFrame(b.r.datalog, p.(topic := t.0.value));
    }
  }

  lemma ResolveIs(table: map<nat, Topic>, p: Publish, props: Props)
    ensures Resolve(table, p, props) ==
            if props.subscriptionIds != [] then (None, table, MalformedPacket)
            else
              match props.topicAlias
              case None => (Some(p.topic), table, ProtocolError)
              case Some(k) =>
                if k < 1 || k > 4096 then (None, table, TopicAliasInvalid)
                else if p.topic != "" then (Some(p.topic), table[k := p.topic], ProtocolError)
                else if k in table then (Some(table[k]), table, ProtocolError)
                else (None, table, ProtocolError)
  {
  }

  // A release: the oldest recorded publish is accepted under the same conditions, and dropped from the
  // record either way. Without a record, or if the publish is refused, the connection is to be dropped, and
  // no reason is given.
  lemma ReleaseIsTaken(b: Batch, id: ConnectionId, pkid: nat)
    requires Present(b.r, id)
    ensures var c, recorded := HandlePubRel(b, id, pkid), b.r.ackslog.m[id].recorded;
            && id in c.r.ackslog.m && c.reason == b.reason
            && if recorded == [] then c.r.ackslog.m[id].recorded == [] && c.r.datalog == b.r.datalog && c.stop
              && c.disconnect
               else
                 && c.r.ackslog.m[id].recorded == recorded[1..]
                 && if Refused(b.r.connections.m[id].topicAliases, recorded[0].0, recorded[0].1) then
                      c.r.datalog == b.r.datalog && c.stop && c.disconnect
                    else c.newData && c.disconnect == b.disconnect && (c.stop ==> b.stop)
  {
    hide AppendToCommitlog, Reschedule, Refused, HandlePubRel, Released;
    var recorded := b.r.ackslog.m[id].recorded;
    ReleaseSteps(b, id, pkid);
    if recorded != [] {
      AppendFlags(Released(b, id, pkid), id, recorded[0].0, recorded[0].1, false);
      RescheduleKeeps(AppendToCommitlog(Released(b, id, pkid), id, recorded[0].0, recorded[0].1, false).r, id);
    }
  }

  lemma RescheduleKeeps(s: Router, id: ConnectionId)
    ensures Reschedule(s, id, IncomingAck).ackslog == s.ackslog && Reschedule(s, id, IncomingAck).datalog == s.datalog
  {
    hide Scheduler.Reschedule;
  }

  lemma ReleaseSteps(b: Batch, id: ConnectionId, pkid: nat)
    requires Present(b.r, id)
    ensures var recorded, b1 := b.r.ackslog.m[id].recorded, Released(b, id, pkid);
            HandlePubRel(b, id, pkid) ==
            if recorded == [] then Fail(b1)
            else
              var c := AppendToCommitlog(b1, id, recorded[0].0, recorded[0].1, false);
              if c.stop then c else c.(r := Reschedule(c.r, id, IncomingAck))
  {
    hide AppendToCommitlog, Reschedule;
  }

  // A publish that is refused fails its batch; any other is new data and changes no other flag.
  lemma AppendFlags(b: Batch, id: ConnectionId, p: Publish, props: Props, report: bool)
    requires Present(b.r, id)
    ensures var c := AppendToCommitlog(b, id, p, props, report);
            && c.r.ackslog == b.r.ackslog && c.forceAck == b.forceAck
            && if Refused(b.r.connections.m[id].topicAliases, p, props) then
                 c.r == b.r && c.stop && c.disconnect && c.newData == b.newData && (!report ==> c.reason == b.reason)
               else c.newData && c.disconnect == b.disconnect && c.stop == b.stop && c.reason == b.reason
  {
    hide Accept, Resolve, Refused;
    ResolvesUnless(b.r.connections.m[id].topicAliases, p, props);
  }

  // ---------------------------------------------------------------------------------------------
  // Packets

  predicate Refused(table: map<nat, Topic>, p: Publish, props: Props) {
    || props.subscriptionIds != []
    || (props.topicAlias.Some? &&
          var k := props.topicAlias.value;
          k < 1 || k > 4096 || (p.topic == "" && k !in table))
  }

  function TopicOf(table: map<nat, Topic>, p: Publish, props: Props): Topic
    requires !Refused(table, p, props)
  {
    if p.topic == "" && props.topicAlias.Some? then table[props.topicAlias.value] else p.topic
  }

  function TakenFrom(table: map<nat, Topic>, p: Publish, props: Props): seq<Publish> {
    if Refused(table, p, props) then [] else [p.(topic := TopicOf(table, p, props))]
  }

  // What a packet makes the broker accept: a QoS 2 publish only with its release.
  function TakenBy(s: Router, id: ConnectionId, p: Packet): seq<Publish>
    requires Present(s, id)
  {
    var table, recorded := s.connections.m[id].topicAliases, s.ackslog.m[id].recorded;
    match p
    case PacketPublish(publish, props) => if publish.qos == ExactlyOnce then [] else TakenFrom(table, publish, props)
    case PacketPubRel(_, hasProps) =>
      if hasProps || recorded == [] then [] else TakenFrom(table, recorded[0].0, recorded[0].1)
    case _ => []
  }

  function Unretained(ps: seq<Publish>): seq<Publish> {
    seq(|ps|, i requires 0 <= i < |ps| => ps[i].(retain := false))
  }

  // The logs have taken some publishes, in this order.
  ghost predicate Takes(a: DataLog, b: DataLog, ps: seq<Publish>) {
    && b.accepted == a.accepted + Unretained(ps)
    && forall qs :: StoreIs(a.retained, qs) ==> StoreIs(b.retained, qs + ps)
  }

  lemma TakesNothing(a: DataLog, b: DataLog)
    requires b.accepted == a.accepted && b.retained == a.retained
    ensures Takes(a, b, [])
  {
    hide StoreIs;
    forall qs: seq<Publish>
      ensures qs + [] == qs
    {
    }
  }

  lemma TakesThen(a: DataLog, b: DataLog, c: DataLog, ps: seq<Publish>, qs: seq<Publish>)
    requires Takes(a, b, ps) && Takes(b, c, qs)
    ensures Takes(a, c, ps + qs)
  {
    hide StoreIs;
    assert Unretained(ps + qs) == Unretained(ps) + Unretained(qs);
    forall rs | StoreIs(a.retained, rs)
      ensures StoreIs(c.retained, rs + (ps + qs))
    {
      assert StoreIs(b.retained, rs + ps);
      assert rs + (ps + qs) == (rs + ps) + qs;
    }
  }

  lemma TakesQuietly(a: DataLog, b: DataLog, c: DataLog, ps: seq<Publish>)
    requires SameStore(a, b) && Takes(b, c, ps)
    ensures Takes(a, c, ps)
  {
    hide StoreIs;
    TakesNothing(a, b);
    TakesThen(a, b, c, [], ps);
    assert [] + ps == ps;
  }

  lemma ThenTakesNothing(a: DataLog, b: DataLog, c: DataLog, ps: seq<Publish>)
    requires Takes(a, b, ps) && SameStore(b, c)
    ensures Takes(a, c, ps)
  {
    hide StoreIs;
    TakesNothing(b, c);
    TakesThen(a, b, c, ps, []);
    assert ps + [] == ps;
  }

  lemma AcceptTakes(dl: DataLog, p: Publish)
    ensures Takes(dl, Accept(dl, p).0, [p])
  {
    hide Accept, StoreIs;
    AcceptFrame(dl, p);
    forall qs | StoreIs(dl.retained, qs)
      ensures StoreIs(Accept(dl, p).0.retained, qs + [p])
    {
      AcceptKeepsLast(dl, qs, p);
    }
  }

  lemma AppendTakes(b: Batch, id: ConnectionId, p: Publish, props: Props, report: bool)
    requires Present(b.r, id)
    ensures Takes(b.r.datalog, AppendToCommitlog(b, id, p, props, report).r.datalog,
                  TakenFrom(b.r.connections.m[id].topicAliases, p, props))
  {
    hide Accept, Takes, Resolve, Refused, TopicOf;
    var table := b.r.connections.m[id].topicAliases;
    ResolvesUnless(table, p, props);
    if Refused(table, p, props) {
      TakesNothing(b.r.datalog, b.r.datalog);
    } else {
      AcceptTakes(b.r.datalog, p.(topic := TopicOf(table, p, props)));
    }
  }

  lemma ResolvesUnless(table: map<nat, Topic>, p: Publish, props: Props)
    ensures Resolve(table, p, props).0 == if Refused(table, p, props) then None else Some(TopicOf(table, p, props))
  {
    hide Resolve;
    ResolveIs(table, p, props);
  }

  lemma PacketTakes(b: Batch, id: ConnectionId, p: Packet)
    requires Present(b.r, id)
    ensures Takes(b.r.datalog, HandlePacket(b, id, p).r.datalog, TakenBy(b.r, id, p))
  {
    hide Takes, TakenFrom, AppendToCommitlog, Commit, Scheduler.Reschedule, SubscribeAll, UnsubscribeAll, HandlePubAck,
      HandlePubRec, HandlePubComp, NothingNew;
    match p {
      case PacketPublish(publish, props) => PublishTakes(b, id, publish, props);
      case PacketPubRel(pkid, hasProps) =>
        TakesNothing(b.r.datalog, b.r.datalog);
        if !hasProps {
          ReleaseTakes(b, id, pkid);
        }
      case PacketDisconnect => TakesNothing(b.r.datalog, HandlePacket(b, id, p).r.datalog);
      case _ =>
        OtherBrings(b, id, p);
        StoreOf(b.r, HandlePacket(b, id, p).r);
        TakesNothing(b.r.datalog, HandlePacket(b, id, p).r.datalog);
    }
  }

  lemma StoreOf(s: Router, t: Router)
    requires NothingNew(s, t)
    ensures SameStore(s.datalog, t.datalog) && t.lastWills == s.lastWills
  {
  }

  lemma PublishTakes(b: Batch, id: ConnectionId, p: Publish, props: Props)
    requires Present(b.r, id)
    ensures Takes(b.r.datalog, HandlePublish(b, id, p, props).r.datalog, TakenBy(b.r, id, PacketPublish(p, props)))
  {
    hide Takes, TakenFrom, AppendToCommitlog;
    match p.qos {
      case AtMostOnce => AppendTakes(b, id, p, props, true);
      case AtLeastOnce => AppendTakes(b.(r := Commit(b.r, id, PubAck(p.pkid)), forceAck := true), id, p, props, true);
      case ExactlyOnce => TakesNothing(b.r.datalog, b.r.datalog);
    }
  }

  lemma ReleaseTakes(b: Batch, id: ConnectionId, pkid: nat)
    requires Present(b.r, id)
    ensures Takes(b.r.datalog, HandlePubRel(b, id, pkid).r.datalog, TakenBy(b.r, id, PacketPubRel(pkid, false)))
  {
    hide Takes, TakenFrom, AppendToCommitlog, HandlePubRel;
    TakesNothing(b.r.datalog, b.r.datalog);
    ReleaseAppends(b, id, pkid);
    var recorded := b.r.ackslog.m[id].recorded;
    if recorded != [] {
      AppendTakes(Released(b, id, pkid), id, recorded[0].0, recorded[0].1, false);
    }
  }

  function Released(b: Batch, id: ConnectionId, pkid: nat): (c: Batch)
    requires Present(b.r, id)
    ensures Present(c.r, id) && c.r.datalog == b.r.datalog && c.r.connections == b.r.connections && c == b.(r := c.r)
    ensures c.r.ackslog.m[id].recorded ==
            if b.r.ackslog.m[id].recorded == [] then [] else b.r.ackslog.m[id].recorded[1..]
  {
    b.(r := b.r.(ackslog := b.r.ackslog.Set(id, b.r.ackslog.m[id].Release(pkid).0)))
  }

  lemma ReleaseAppends(b: Batch, id: ConnectionId, pkid: nat)
    requires Present(b.r, id)
    ensures var recorded := b.r.ackslog.m[id].recorded;
            HandlePubRel(b, id, pkid).r.datalog ==
            if recorded == [] then b.r.datalog
            else AppendToCommitlog(Released(b, id, pkid), id, recorded[0].0, recorded[0].1, false).r.datalog
  {
    hide AppendToCommitlog, Scheduler.Reschedule;
  }

  // What a batch makes the broker accept, packet by packet, until it stops.
  function Taken(b: Batch, id: ConnectionId, packets: seq<Packet>): seq<Publish>
    decreases |packets|
  {
    if packets == [] || b.stop || !Present(b.r, id) then []
    else TakenBy(b.r, id, packets[0]) + Taken(HandlePacket(b, id, packets[0]), id, packets[1..])
  }

  lemma {:induction false} PacketsTake(b: Batch, id: ConnectionId, packets: seq<Packet>)
    ensures Takes(b.r.datalog, HandlePackets(b, id, packets).r.datalog, Taken(b, id, packets))
    decreases |packets|
  {
    hide HandlePacket, Takes, TakenBy;
    if packets != [] && !b.stop && Present(b.r, id) {
      var c := HandlePacket(b, id, packets[0]);
      PacketTakes(b, id, packets[0]);
      PacketsTake(c, id, packets[1..]);
      TakesThen(b.r.datalog, c.r.datalog, HandlePackets(b, id, packets).r.datalog, TakenBy(b.r, id, packets[0]),
                Taken(c, id, packets[1..]));
    } else {
      TakesNothing(b.r.datalog, b.r.datalog);
    }
  }

  // ---------------------------------------------------------------------------------------------
  // Events

  function TakenAt(s: Router, e: Event): seq<Publish> {
    match e
    case EventDeviceData(id) => if Present(s, id) then Taken(FirstBatch(s, id), id, s.ibufs.m[id].buffer) else []
    case EventPublishWill(client) => if client in s.lastWills then [s.lastWills[client]] else []
    case _ => []
  }

  lemma DeviceDataTakes(s: Router, id: ConnectionId)
    ensures Takes(s.datalog, DeviceData(s, id).datalog, TakenAt(s, EventDeviceData(id)))
  {
    hide HandlePackets, Taken, Finish, Takes, NothingNew, SameStore;
    TakesNothing(s.datalog, s.datalog);
    if Present(s, id) {
      var b := HandlePackets(FirstBatch(s, id), id, s.ibufs.m[id].buffer);
      PacketsTake(FirstBatch(s, id), id, s.ibufs.m[id].buffer);
      FinishBrings(b, id);
      StoreOf(b.r, Finish(b, id));
      ThenTakesNothing(s.datalog, b.r.datalog, Finish(b, id).datalog,
                       Taken(FirstBatch(s, id), id, s.ibufs.m[id].buffer));
    }
  }

  // Publishing a will hands it to the logs once, as it was given.
  lemma WillTakes(s: Router, client: ClientId)
    ensures Takes(s.datalog, PublishWill(s, client).datalog, TakenAt(s, EventPublishWill(client)))
  {
    hide Accept, WakeAll, Takes, SameStore;
    TakesNothing(s.datalog, s.datalog);
    if client in s.lastWills {
      var t := AcceptPublish(s.(lastWills := s.lastWills - {client}), s.lastWills[client]);
      AcceptTakes(s.datalog, s.lastWills[client]);
      WakeAllFrame(t);
    }
  }

  lemma ConnectStore(s: Router, client: ClientId, clean: bool, will: Option<Publish>)
    ensures SameStore(s.datalog, Connect(s, client, clean, will).datalog)
  {
    hide Disconnect, PubRels, ForgetAccounts, Scheduler.Reschedule, SameStore, NothingNew;
    SameStoreSelf(s.datalog);
    if client in s.connectionMap {
      DisconnectBrings(s, s.connectionMap[client]);
      StoreOf(s, Disconnect(s, s.connectionMap[client]));
    }
  }

  lemma StepTakes(s: Router, e: Event)
    ensures Takes(s.datalog, Step(s, e).datalog, TakenAt(s, e))
  {
    hide Connect, DeviceData, Disconnect, PublishWill, Consume, Takes, Taken, NothingNew, Scheduler.Reschedule;
    match e {
      case EventConnect(client, clean, will) =>
        ConnectStore(s, client, clean, will);
        TakesNothing(s.datalog, Step(s, e).datalog);
      case EventDeviceData(id) => DeviceDataTakes(s, id);
      case EventDisconnect(id) =>
        DisconnectBrings(s, id);
        StoreOf(s, Step(s, e));
        TakesNothing(s.datalog, Step(s, e).datalog);
      case EventPublishWill(client) => WillTakes(s, client);
      case EventConsume =>
        ConsumeBrings(s);
        StoreOf(s, Step(s, e));
        TakesNothing(s.datalog, Step(s, e).datalog);
      case _ => TakesNothing(s.datalog, Step(s, e).datalog);
    }
  }

  // ---------------------------------------------------------------------------------------------
  // Runs

  // Every publish of a run that the broker is to accept, in order.
  function Accepted(s: Router, es: seq<Event>): seq<Publish>
    decreases |es|
  {
    if es == [] then [] else Accepted(s, es[..|es| - 1]) + TakenAt(Run(s, es[..|es| - 1]), es[|es| - 1])
  }

  // In every run the logs have been handed these publishes and no others, each once and in order, with the
  // retain flag taken off; and the store holds, for each topic, the last of them that was to be retained,
  // unless one without a payload came after it.
  lemma {:induction false} AcceptedInEveryRun(c: Config, es: seq<Event>)
    ensures var dl, ps := Run(InitRouter(c), es).datalog, Accepted(InitRouter(c), es);
            dl.accepted == Unretained(ps) && StoreIs(dl.retained, ps)
    decreases |es|
  {
    hide Step, TakenAt, StoreIs, InitRouter;
    if es == [] {
      NothingAccepted(c);
    } else {
      var before := es[..|es| - 1];
      var s := Run(InitRouter(c), before);
      AcceptedInEveryRun(c, before);
      StepTakes(s, es[|es| - 1]);
      assert Unretained(Accepted(InitRouter(c), before) + TakenAt(s, es[|es| - 1]))
          == Unretained(Accepted(InitRouter(c), before)) + Unretained(TakenAt(s, es[|es| - 1]));
    }
  }

  lemma NothingAccepted(c: Config)
    ensures InitRouter(c).datalog.accepted == [] == Unretained([]) && StoreIs(InitRouter(c).datalog.retained, [])
  {
    forall q
      ensures !Current([], q)
    {
    }
  }
}

// Concrete runs of the broker from its initial state.
module Witnesses {
  import opened Types
  import opened Slabs
  import opened LogModel
  import opened DataLogModel
  import opened TopicMatch
  import opened OutgoingModel
  import opened SchedulerModel
  import opened RouterModel
  import opened Frames
  import opened Parking
  import opened Forwarding
  import opened Window
  import opened Identity
  import opened Queue
  import opened Requests
  import opened RequestRuns
  import opened Conservation
  import opened ConservationRuns
  import opened Delivery
  import opened DeliveryRuns
  import opened Flights
  import opened Missed
  import opened Losses
  import opened Withheld

  // Runs that continue one another.
  lemma {:induction false} RunConcat(s: Router, es: seq<Event>, more: seq<Event>)
    ensures Run(s, es + more) == Run(Run(s, es), more)
    decreases |more|
  {
    hide Step;
    if more == [] {
      assert es + more == es;
    } else {
      assert (es + more)[..|es + more| - 1] == es + more[..|more| - 1];
      RunConcat(s, es, more[..|more| - 1]);
    }
  }

  lemma RunOneEvent(s: Router, e: Event)
    ensures Run(s, [e]) == Step(s, e)
  {
    hide Step;
    assert [e][..0] == [];
  }

  lemma RunTwoEvents(s: Router, e: Event, f: Event)
    ensures Run(s, [e, f]) == Step(Step(s, e), f)
  {
    hide Step;
    assert [e, f][..1] == [e];
    RunOneEvent(s, e);
  }

  // ---------------------------------------------------------------------------------------------
  // A window that fills up

  const CLIENT: ClientId := "c"
  const TOPIC: Topic := "t"

  function Message(): Publish {
    Publish(TOPIC, [], AtMostOnce, false, 0)
  }

  function Standing(): DataRequest {
    DataRequest(TOPIC, 0, AtLeastOnce, Cursor(0, 0), 0, true)
  }

  // One client, with nothing sent to it yet.
  ghost predicate Alone(s: Router, clean: bool) {
    && Present(s, 0) && s.notifications == [] && s.ibufs.m[0].buffer == []
    && s.obufs.m[0].inflight == [] && s.obufs.m[0].buffer == [] && s.obufs.m[0].lastPkid == 0
    && s.connections.m[0].clientId == CLIENT && s.connections.m[0].clean == clean
    && |s.ackslog.m[0].committed| <= 2
    && s.scheduler.trackers.m[0].status == Ready && s.scheduler.readyqueue == [0]
    && s.datalog.retained == []
  }

  // The first slot of a slab.
  ghost predicate OnlyOne<T>(s: Slab<T>) {
    s.m.Keys == {0} && s.free == [] && s.cap == 1
  }

  lemma FirstAdmitted(c: Config, client: ClientId, clean: bool)
    ensures var t := Admitted(InitRouter(c), client, clean, None);
            && OnlyOne(t.connections) && OnlyOne(t.ibufs) && OnlyOne(t.obufs) && OnlyOne(t.ackslog)
              && OnlyOne(t.scheduler.trackers)
            && t.connections.m[0] == Connection(client, clean, {}, map[]) && t.ibufs.m[0] == Incoming(client, [])
            && t.obufs.m[0] == NewOutgoing(client, []) && t.ackslog.m[0].committed == [ConnAck(0, false)]
            && t.scheduler.trackers.m[0] == Tracker(client, [], Paused(Busy)) && t.scheduler.readyqueue == []
            && t.connectionMap == map[client := 0] && t.graveyard == map[] && t.notifications == []
            && t.datalog == EmptyDataLog(c) && t.config == c
  {
    hide ForgetAccounts;
    assert PubRels([]) == [];
  }

  lemma FirstConnected(c: Config, client: ClientId, clean: bool)
    requires c.maxConnections >= 1 && ValidClientId(client)
    ensures var s, t := Step(InitRouter(c), EventConnect(client, clean, None)),
            Admitted(InitRouter(c), client, clean, None);
            && s == t.(scheduler := s.scheduler) && OnlyOne(s.scheduler.trackers) && s.scheduler.readyqueue == [0]
            && s.scheduler.trackers.m[0] == Tracker(client, [], Ready)
  {
    hide Admitted;
    FirstAdmitted(c, client, clean);
  }

  lemma ConnectAlone(c: Config, clean: bool)
    requires c.maxConnections >= 1
    ensures var s := Step(InitRouter(c), EventConnect(CLIENT, clean, None));
            && Alone(s, clean) && s.connections.m[0].subscriptions == {} && s.datalog == EmptyDataLog(c)
            && s.scheduler.trackers.m[0].requests == [] && |s.ackslog.m[0].committed| == 1
  {
    hide Admitted, InitRouter, Step;
    FirstAdmitted(c, CLIENT, clean);
    FirstConnected(c, CLIENT, clean);
  }

  // A packet arrives and is handled.
  function Handle(s: Router, p: Packet): Router {
    Step(Step(s, EventArrive(0, p)), EventDeviceData(0))
  }

  lemma HandleIs(s: Router, p: Packet)
    requires Present(s, 0) && s.ibufs.m[0].buffer == []
    ensures Handle(s, p) == Finish(HandlePacket(Batch(s, false, false, false, None, false), 0, p), 0)
  {
    hide HandlePacket, Finish;
    var t := Step(s, EventArrive(0, p));
    assert t.ibufs.m[0].buffer == [p];
    assert TakePackets(t, 0) == s by {
      SetTwice(s.ibufs, s.ibufs.m[0].(buffer := [p]));
    }
    var b := Batch(s, false, false, false, None, false);
    assert [p][1..] == [];
    assert HandlePackets(b, 0, [p]) == HandlePacket(b, 0, p);
  }

  lemma SetTwice(i: Slab<Incoming>, v: Incoming)
    requires 0 in i.m
    ensures i.Set(0, v).Set(0, i.m[0]) == i
  {
    assert i.m[0 := v][0 := i.m[0]] == i.m;
  }

  const SUBSCRIBE: Packet := PacketSubscribe(1, [(TOPIC, AtLeastOnce)], None)

  // The state after k publishes to the client's own topic, all of them still to be read.
  ghost predicate Filling(s: Router, clean: bool, k: nat) {
    && Alone(s, clean) && s.scheduler.trackers.m[0].requests == [Standing()]
      && TOPIC in s.connections.m[0].subscriptions
    && |s.datalog.native| == 1 && s.datalog.native[0].filter == TOPIC && s.datalog.native[0].waiters == []
    && FirstSegment(s.datalog.native[0].log, k)
  }

  // A log still in its first segment.
  ghost predicate FirstSegment(l: Log, k: nat) {
    |l.history| == k && l.starts == [0] && l.head == 0 && l.maxSize >= 1024 && Bytes(l.history) == 5 * k
  }

  // The log and the account are new.
  ghost predicate Opened(s: Router, c: Config) {
    && s.datalog == Register(EmptyDataLog(c), TOPIC)
    && (CLIENT, TOPIC) in s.accounts && s.accounts[(CLIENT, TOPIC)] == Account(0, {}, {}, {})
  }

  lemma SubscribeFills(c: Config, s: Router, clean: bool)
    requires ConfigOk(c) && Alone(s, clean) && s.connections.m[0].subscriptions == {} && s.datalog == EmptyDataLog(c)
    requires s.scheduler.trackers.m[0].requests == [] && |s.ackslog.m[0].committed| == 1
    ensures Filling(Handle(s, SUBSCRIBE), clean, 0) && Opened(Handle(s, SUBSCRIBE), c)
  {
    hide SubscribeOne, Handle, SameNames, Filling, Register;
    var b, filters := Batch(s, false, false, false, None, false), [(TOPIC, AtLeastOnce)];
    var t := SubscribeOne(s, 0, TOPIC, AtLeastOnce);
    HandleIs(s, SUBSCRIBE);
    FirstSubscription(c, s, clean);
    assert SubscribeAll(b, 0, filters, None) == (b.(r := t), [AtLeastOnce]) by {
      assert filters[1..] == [];
      assert SubscribeAll(b.(r := t), 0, [], None) == (b.(r := t), []);
      assert [AtLeastOnce] + [] == [AtLeastOnce];
    }
    var u := Commit(t, 0, SubAck(1, [AtLeastOnce]));
    CommitFills(t, clean);
    ReadyStays(u);
    assert Handle(s, SUBSCRIBE) == Reschedule(u, 0, FreshData);
  }

  lemma ReadyStays(s: Router)
    requires Present(s, 0) && s.scheduler.trackers.m[0].status == Ready
    ensures Reschedule(s, 0, FreshData) == s
  {
  }

  lemma FirstSubscription(c: Config, s: Router, clean: bool)
    requires ConfigOk(c) && Alone(s, clean) && s.connections.m[0].subscriptions == {} && s.datalog == EmptyDataLog(c)
    requires s.scheduler.trackers.m[0].requests == []
    ensures var t := SubscribeOne(s, 0, TOPIC, AtLeastOnce);
            Present(t, 0) && t.ackslog == s.ackslog && Filling(t, clean, 0) && Opened(t, c)
  {
    hide SubscribeOne, NewRequest;
    SubscribeOneIs(s, 0, TOPIC, AtLeastOnce);
    FirstRegister(c);
    FirstRequest(c, s);
    FirstScheduled(c, s, clean);
  }

  lemma FirstRegister(c: Config)
    requires ConfigOk(c)
    ensures var dl := Register(EmptyDataLog(c), TOPIC);
            && dl.native == [NewData(c, TOPIC, 0)] && IndexOf(dl, TOPIC) == 0 && dl.retained == []
            && dl.native[0].waiters == [] && dl.native[0].filter == TOPIC && FirstSegment(dl.native[0].log, 0)
            && dl.native[0].log.NextOffset() == Cursor(0, 0)
  {
    LimitsOk(c, TOPIC, |c.customSegments|);
  }

  lemma FirstRequest(c: Config, s: Router)
    requires ConfigOk(c) && s.datalog == EmptyDataLog(c)
    ensures NewRequest(s, TOPIC, AtLeastOnce) == Standing()
  {
    hide Register;
    FirstRegister(c);
  }

  lemma FirstScheduled(c: Config, s: Router, clean: bool)
    requires ConfigOk(c) && Alone(s, clean) && s.connections.m[0].subscriptions == {} && s.datalog == EmptyDataLog(c)
    ensures var t := SubscribeOne(s, 0, TOPIC, AtLeastOnce);
            && 0 in t.scheduler.trackers.m && t.scheduler.trackers.m[0].status == Ready && t.scheduler.readyqueue == [0]
  {
    hide SubscribeOne, Register, IndexOf;
    SubscribeOneShape(s, 0, TOPIC, AtLeastOnce);
  }

  lemma CommitFills(s: Router, clean: bool)
    requires Filling(s, clean, 0) && |s.ackslog.m[0].committed| == 1
    ensures var t := Commit(s, 0, SubAck(1, [AtLeastOnce]));
            Filling(t, clean, 0) && Present(t, 0) && t.scheduler.trackers.m[0].status == Ready
  {
    hide FirstSegment;
  }

  const PUBLISH: Packet := PacketPublish(Message(), Props(None, []))

  lemma TopicMatches()
    ensures Matches(TOPIC, TOPIC)
  {
    assert Split("t") == ["t"] by {
      assert "t"[1..] == "";
      assert ['t'] + "" == "t";
    }
  }

  lemma AppendFresh(l: Log, k: nat)
    requires FirstSegment(l, k) && k <= 200
    ensures FirstSegment(l.Append(Message()), k + 1)
  {
    assert l.history[0..] == l.history;
    assert (l.history + [Message()])[..|l.history|] == l.history;
  }

  // A publish to the client's own topic that nobody is to retain.
  predicate Plainly(p: Publish) {
    p.topic == TOPIC && p.qos == AtMostOnce && !p.retain
  }

  // One log, on which nothing is parked, takes a publish.
  lemma AcceptAlone(dl: DataLog, p: Publish)
    requires CacheOk(dl) && |dl.native| == 1 && dl.native[0].filter == TOPIC && dl.native[0].waiters == []
             && dl.retained == []
    requires Plainly(p)
    ensures var a := Accept(dl, p);
            && a.1 == [] && |a.0.native| == 1 && a.0.native[0].filter == TOPIC && a.0.native[0].waiters == []
              && a.0.retained == []
            && a.0.native[0].log == dl.native[0].log.Append(p)
  {
    hide Lookup, AppendAll, Log.Append, Matches, CacheOk;
    TopicMatches();
    AcceptEach(dl, p);
    assert p.(retain := false) == p;
    var woken := Accept(dl, p).1;
    assert woken != [] ==> woken[0] in woken;
    AppendAllWakes(dl.native, MatchingFilters(dl, TOPIC), p);
  }

  // The subscription of the only client, with everything its log holds still to be read.
  ghost predicate Waits(s: Router, clean: bool, l: Log) {
    && Alone(s, clean) && s.scheduler.trackers.m[0].requests == [Standing()]
      && TOPIC in s.connections.m[0].subscriptions
    && |s.datalog.native| == 1 && s.datalog.native[0].filter == TOPIC && s.datalog.native[0].waiters == []
    && s.datalog.native[0].log == l
  }

  lemma PublishWaits(s: Router, clean: bool, l: Log, p: Publish)
    requires RequestsOk(s) && Waits(s, clean, l) && Plainly(p)
    ensures var t := Handle(s, PacketPublish(p, Props(None, [])));
            Waits(t, clean, l.Append(p)) && t.accounts == s.accounts
  {
    hide RequestsOk, Handle, Accept, Log.Append;
    HandleIs(s, PacketPublish(p, Props(None, [])));
    RequestsLogs(s);
    AcceptAlone(s.datalog, p);
    PublishIs(s, p);
    assert Handle(s, PacketPublish(p, Props(None, []))) == AcceptPublish(s, p);
  }

  lemma PublishFills(s: Router, clean: bool, k: nat)
    requires RequestsOk(s) && Filling(s, clean, k) && k <= 200
    ensures Filling(Handle(s, PUBLISH), clean, k + 1)
  {
    hide RequestsOk, Handle, FirstSegment, Log.Append, Alone;
    PublishWaits(s, clean, s.datalog.native[0].log, Message());
    AppendFresh(s.datalog.native[0].log, k);
  }

  lemma PublishIs(s: Router, p: Publish)
    requires Present(s, 0) && Plainly(p)
    ensures var b := Batch(s, false, false, false, None, false);
            HandlePacket(b, 0, PacketPublish(p, Props(None, []))) == b.(r := AcceptPublish(s, p), newData := true)
  {
    hide Accept;
    assert s.connections.m[0 := s.connections.m[0]] == s.connections.m;
    assert p.(topic := TOPIC) == p;
  }

  // The run: connect, subscribe, publish k times.
  function Script(clean: bool, k: nat): seq<Event> {
    if k == 0 then [EventConnect(CLIENT, clean, None), EventArrive(0, SUBSCRIBE), EventDeviceData(0)]
    else Script(clean, k - 1) + [EventArrive(0, PUBLISH), EventDeviceData(0)]
  }

  lemma {:induction false} ScriptFills(c: Config, clean: bool, k: nat)
    requires ConfigOk(c) && c.maxConnections >= 1 && k <= 200
    ensures Filling(Run(InitRouter(c), Script(clean, k)), clean, k)
    ensures k == 0 ==> Opened(Run(InitRouter(c), Script(clean, k)), c)
  {
    hide Run, InitRouter, Handle, Filling, RequestsOk, Step, Opened;
    if k == 0 {
      var first := Step(InitRouter(c), EventConnect(CLIENT, clean, None));
      ConnectAlone(c, clean);
      SubscribeFills(c, first, clean);
      assert Script(clean, 0) == [EventConnect(CLIENT, clean, None)] + [EventArrive(0, SUBSCRIBE), EventDeviceData(0)];
      RunConcat(InitRouter(c), [EventConnect(CLIENT, clean, None)], [EventArrive(0, SUBSCRIBE), EventDeviceData(0)]);
      RunOneEvent(InitRouter(c), EventConnect(CLIENT, clean, None));
      RunHandles(first, SUBSCRIBE);
    } else {
      var s := Run(InitRouter(c), Script(clean, k - 1));
      ScriptFills(c, clean, k - 1);
      RunKeepsRequests(c, Script(clean, k - 1));
      PublishFills(s, clean, k - 1);
      RunConcat(InitRouter(c), Script(clean, k - 1), [EventArrive(0, PUBLISH), EventDeviceData(0)]);
      RunHandles(s, PUBLISH);
    }
  }

  lemma RunHandles(s: Router, p: Packet)
    ensures Run(s, [EventArrive(0, p), EventDeviceData(0)]) == Handle(s, p)
  {
    hide Step;
    RunTwoEvents(s, EventArrive(0, p), EventDeviceData(0));
  }

  // ---------------------------------------------------------------------------------------------
  // The turn that fills the window, and the ping that goes unanswered

  // The first sweep fills the window and leaves more to read.
  lemma FirstSweep(dl: DataLog, o: Outgoing)
    requires |dl.native| == 1 && FirstSegment(dl.native[0].log, 101) && dl.retained == []
    requires o.inflight == [] && o.lastPkid == 0 && |o.buffer| <= 2
    ensures var f := ForwardData(dl, o, Standing());
            f.2 == PartialRead && f.0.FreeSlots() == 0 && f.1.qos == AtLeastOnce
  {
    hide Pull, Outgoing.PushForwards, LogItems, Log.Where, Log.Entries;
    var r, l := Standing(), dl.native[0].log;
    assert Readable(dl, r);
    PullReads(dl, o, r);
    assert RetainedItems(dl, r, 100) == [];
    ForwardFills(dl, o, r);
    ItemsCount(dl, o, r);
    PushForwardsSends(o, LogItems(Pull(dl, o, r).entries), AtLeastOnce, 0);
    assert [] + LogItems(Pull(dl, o, r).entries) == LogItems(Pull(dl, o, r).entries);
  }

  // A connection asleep in front of a full window, with nothing to tell it and nothing arriving.
  ghost predicate Stuck(s: Router) {
    && Present(s, 0) && StatusOf(s, 0) == Paused(PauseReason.InflightFull) && s.scheduler.readyqueue == []
    && s.ackslog.m[0].committed == [] && s.ibufs.m[0].buffer == [] && s.notifications == []
  }

  // Between the two sweeps of the turn.
  ghost predicate Halfway(s: Router) {
    && Present(s, 0) && |s.scheduler.trackers.m[0].requests| == 1
      && s.scheduler.trackers.m[0].requests[0].qos == AtLeastOnce
    && s.obufs.m[0].FreeSlots() == 0 && s.scheduler.readyqueue == [0]
    && s.ackslog.m[0].committed == [] && s.ibufs.m[0].buffer == [] && s.notifications == []
  }

  lemma AcksSent(s: Router, clean: bool)
    requires Alone(s, clean)
    ensures var s1 := s.(scheduler := s.scheduler.Rotate());
            && Present(s1, 0)
            && var t := SendAcks(s1, 0);
               && Present(t, 0) && t.datalog == s.datalog && t.notifications == [] && t.ibufs == s.ibufs
               && t.scheduler.trackers == s.scheduler.trackers && t.scheduler.readyqueue == [0]
                 && t.ackslog.m[0].committed == []
               && t.connections == s.connections && t.accounts == s.accounts
               && t.obufs.m[0].inflight == [] && t.obufs.m[0].lastPkid == 0 && |t.obufs.m[0].buffer| <= 2
  {
    hide SendAcks, Scheduler.Rotate;
    RotateAlone(s.scheduler);
    SendAcksParts(s.(scheduler := s.scheduler.Rotate()));
  }

  lemma RotateAlone(c: Scheduler)
    requires c.readyqueue == [0] && 0 in c.trackers.m
    ensures c.Rotate() == c
  {
    assert c.readyqueue[1..] + [c.readyqueue[0]] == [0];
  }

  lemma SendAcksParts(s: Router)
    requires Present(s, 0) && |s.ackslog.m[0].committed| <= 2 && s.obufs.m[0].buffer == []
    ensures var t := SendAcks(s, 0);
            && t == s.(ackslog := t.ackslog, obufs := t.obufs) && 0 in t.ackslog.m && 0 in t.obufs.m
            && t.ackslog.m[0].committed == [] && t.obufs.m[0].inflight == s.obufs.m[0].inflight
            && t.obufs.m[0].lastPkid == s.obufs.m[0].lastPkid && |t.obufs.m[0].buffer| <= 2
  {
  }

  lemma SweepsHalfway(s: Router)
    requires Present(s, 0) && s.scheduler.trackers.m[0].requests == [Standing()] && s.scheduler.readyqueue == [0]
    requires s.ackslog.m[0].committed == [] && s.ibufs.m[0].buffer == [] && s.notifications == []
    requires ForwardData(s.datalog, s.obufs.m[0], Standing()).2 == PartialRead
    requires ForwardData(s.datalog, s.obufs.m[0], Standing()).0.FreeSlots() == 0
    requires ForwardData(s.datalog, s.obufs.m[0], Standing()).1.qos == AtLeastOnce
    ensures ConsumeOne(s, 0).1 && Halfway(ConsumeOne(s, 0).0)
  {
    hide ForwardData, ConsumeOne, Outgoing.FreeSlots, Skip;
    ConsumeOneShape(s, 0);
  }

  lemma HalfwaySticks(s: Router)
    requires Halfway(s)
    ensures !ConsumeOne(s, 0).1 && Stuck(ConsumeOne(s, 0).0)
  {
    hide ConsumeOne, Pull, Outgoing.PushForwards, Skip, RetainedItems, LogItems;
    ConsumeOneShape(s, 0);
  }

  lemma ConsumeSticks(s: Router, clean: bool)
    requires Filling(s, clean, 101)
    ensures Stuck(Consume(s).0)
  {
    hide SendAcks, Scheduler.Rotate, ForwardData, ConsumeOne, Stuck, Outgoing.FreeSlots, FirstSegment;
    var s1 := s.(scheduler := s.scheduler.Rotate());
    AcksSent(s, clean);
    var t := SendAcks(s1, 0);
    FirstSweep(t.datalog, t.obufs.m[0]);
    SweepsHalfway(t);
    HalfwaySticks(ConsumeOne(t, 0).0);
    TwoSweeps(t);
  }

  lemma TwoSweeps(s: Router)
    requires Present(s, 0) && s.scheduler.trackers.m[0].requests != []
    requires ConsumeOne(s, 0).1 && Halfway(ConsumeOne(s, 0).0) && !ConsumeOne(ConsumeOne(s, 0).0, 0).1
    ensures ConsumeLoop(s, 0, MAX_SCHEDULE_ITERATIONS) == ConsumeOne(ConsumeOne(s, 0).0, 0).0
  {
    hide ConsumeOne, Outgoing.FreeSlots;
    assert ConsumeLoop(s, 0, MAX_SCHEDULE_ITERATIONS)
        == ConsumeLoop(ConsumeOne(s, 0).0, 0, MAX_SCHEDULE_ITERATIONS - 1);
  }

  // Connect, subscribe, publish 101 times, one turn: the client sleeps in front of a full window. Its
  // ping is answered with an ack that nobody is going to send.
  lemma PingGoesUnanswered(c: Config)
    requires ConfigOk(c) && c.maxConnections >= 1
    ensures var es, ping := Script(true, 101) + [EventConsume], [EventArrive(0, PacketPingReq), EventDeviceData(0)];
            var s, t := Run(InitRouter(c), es), Run(InitRouter(c), es + ping);
            && Stuck(s)
            && Present(t, 0) && t.scheduler == s.scheduler && 0 !in t.scheduler.readyqueue
            && t.ackslog.m[0].committed == [PingResp]
  {
    hide Run, InitRouter, Handle, Stuck, Consume;
    var es, ping := Script(true, 101) + [EventConsume], [EventArrive(0, PacketPingReq), EventDeviceData(0)];
    var s := Run(InitRouter(c), es);
    ScriptFills(c, true, 101);
    RunConcat(InitRouter(c), Script(true, 101), [EventConsume]);
    RunOneEvent(Run(InitRouter(c), Script(true, 101)), EventConsume);
    ConsumeSticks(Run(InitRouter(c), Script(true, 101)), true);
    RunConcat(InitRouter(c), es, ping);
    RunHandles(s, PacketPingReq);
    PingStays(s);
  }

  lemma PingStays(s: Router)
    requires Stuck(s)
    ensures var t := Handle(s, PacketPingReq);
            && Present(t, 0) && t.scheduler == s.scheduler && 0 !in t.scheduler.readyqueue
            && t.ackslog.m[0].committed == [PingResp]
  {
    hide Handle;
    HandleIs(s, PacketPingReq);
    PingIs(s);
  }

  lemma PingIs(s: Router)
    requires Stuck(s)
    ensures var t := Finish(HandlePacket(Batch(s, false, false, false, None, false), 0, PacketPingReq), 0);
            && Present(t, 0) && t.scheduler == s.scheduler && t.ackslog.m[0].committed == [PingResp]
  {
  }

  // ---------------------------------------------------------------------------------------------
  // A connection that goes before its turn comes

  lemma ConnectOnce(c: Config)
    requires c.maxConnections >= 1
    ensures var s := Step(InitRouter(c), EventConnect("a", true, None));
            && OnlyOne(s.connections) && OnlyOne(s.ibufs) && OnlyOne(s.obufs) && OnlyOne(s.ackslog)
              && OnlyOne(s.scheduler.trackers)
            && s.scheduler.readyqueue == [0] && s.notifications == [] && s.config == c && s.graveyard == map[]
            && s.connectionMap == map["a" := 0] && s.obufs.m[0].clientId == "a" && s.scheduler.trackers.m[0].id == "a"
  {
    hide Admitted, InitRouter, Step;
    FirstAdmitted(c, "a", true);
    FirstConnected(c, "a", true);
  }

  lemma RemoveOnly<T>(s: Slab<T>)
    requires OnlyOne(s)
    ensures s.Remove(0) == Slab(map[], [0], 1)
  {
    assert s.m - {0} == map[];
  }

  lemma DisconnectOnce(s: Router)
    requires OnlyOne(s.connections) && OnlyOne(s.ibufs) && OnlyOne(s.obufs) && OnlyOne(s.ackslog)
             && OnlyOne(s.scheduler.trackers)
    requires s.connectionMap == map["a" := 0] && s.obufs.m[0].clientId == "a" && s.scheduler.trackers.m[0].id == "a"
             && s.graveyard == map[]
    ensures var t := Disconnect(s, 0);
            && t.connections == Slab(map[], [0], 1) && t.ibufs == Slab(map[], [0], 1) && t.obufs == Slab(map[], [0], 1)
            && t.ackslog == Slab(map[], [0], 1) && t.scheduler.trackers == Slab(map[], [0], 1)
            && t.scheduler.readyqueue == s.scheduler.readyqueue && t.connectionMap == map[] && t.config == s.config
            && t.notifications == s.notifications && "b" !in t.graveyard
  {
    hide Clean, RewindAll, Retransmissions, ForgetAccounts, Unsubscribed, OnlyOne, Slab.Remove;
    RemoveOnly(s.connections);
    RemoveOnly(s.ibufs);
    RemoveOnly(s.obufs);
    RemoveOnly(s.ackslog);
    RemoveOnly(s.scheduler.trackers);
    PresentOnly(s);
  }

  lemma PresentOnly(s: Router)
    requires OnlyOne(s.connections) && OnlyOne(s.ibufs) && OnlyOne(s.obufs) && OnlyOne(s.ackslog)
             && OnlyOne(s.scheduler.trackers)
    ensures Present(s, 0)
  {
  }

  // Nobody is left, but the id is still queued.
  ghost predicate Deserted(s: Router) {
    && s.connections == Slab(map[], [0], 1) && s.ibufs == Slab(map[], [0], 1) && s.obufs == Slab(map[], [0], 1)
    && s.ackslog == Slab(map[], [0], 1) && s.scheduler.trackers == Slab(map[], [0], 1)
    && s.scheduler.readyqueue == [0] && s.connectionMap == map[] && s.config.maxConnections >= 1
    && s.notifications == [] && "b" !in s.graveyard
  }

  lemma DropDeserts(c: Config)
    requires c.maxConnections >= 1
    ensures Deserted(Run(InitRouter(c), [EventConnect("a", true, None), EventDisconnect(0)]))
  {
    hide InitRouter, Connect, Disconnect, OnlyOne;
    RunTwoEvents(InitRouter(c), EventConnect("a", true, None), EventDisconnect(0));
    ConnectOnce(c);
    DisconnectOnce(Step(InitRouter(c), EventConnect("a", true, None)));
  }

  // Connection 0 is dropped before it was served; the next connection gets its id and is queued twice.
  lemma ReusedIdIsQueuedTwice(c: Config)
    requires c.maxConnections >= 1
    ensures var es := [EventConnect("a", true, None), EventDisconnect(0)];
            var s, t := Run(InitRouter(c), es), Run(InitRouter(c), es + [EventConnect("b", true, None)]);
            && QueuedOnce(s.scheduler) && t.scheduler.readyqueue == [0, 0] && !QueuedOnce(t.scheduler)
            && ReusesQueuedId(s, EventConnect("b", true, None))
  {
    hide Run, InitRouter, Step, Deserted, QueuedOnce, Queued, SavedBusy, Identified, Subscribers, ReusesQueuedId;
    var es := [EventConnect("a", true, None), EventDisconnect(0)];
    var s := Run(InitRouter(c), es);
    DropDeserts(c);
    RunKeepsIdentity(c, es);
    RunKeepsQueue(c, es);
    StepQueue(s, EventConnect("b", true, None));
    RunConcat(InitRouter(c), es, [EventConnect("b", true, None)]);
    RunOneEvent(s, EventConnect("b", true, None));
    ConnectRequeues(s);
  }

  lemma ConnectRequeues(s: Router)
    requires Deserted(s)
    ensures ReusesQueuedId(s, EventConnect("b", true, None)) && QueuedOnce(s.scheduler)
    ensures Step(s, EventConnect("b", true, None)).scheduler.readyqueue == [0, 0]
  {
    hide PubRels, ForgetAccounts, Admitted;
    AdmittedTracker(s);
  }

  lemma AdmittedTracker(s: Router)
    requires Deserted(s)
    ensures var t := Admitted(s, "b", true, None);
            && 0 in t.scheduler.trackers.m && t.scheduler.trackers.m[0].status == Paused(Busy)
              && t.scheduler.readyqueue == [0]
  {
    hide PubRels, ForgetAccounts;
  }

  // ---------------------------------------------------------------------------------------------
  // An acknowledgement out of order

  lemma NoStraysAfter(s: Router, es: seq<Event>, p: Packet)
    requires StrayClients(s, es) == {} && !p.PacketUnsubscribe?
    requires Present(Run(s, es), 0) && Run(s, es).ibufs.m[0].buffer == []
    ensures StrayClients(s, es + [EventArrive(0, p), EventDeviceData(0)]) == {}
  {
    hide Step, HandlePacket, ClientOf;
    var one, two := es + [EventArrive(0, p)], es + [EventArrive(0, p), EventDeviceData(0)];
    assert one[..|one| - 1] == es && two[..|two| - 1] == one;
    assert Run(s, one) == Step(Run(s, es), EventArrive(0, p));
    SingleIsNoStray(Run(s, es), p);
  }

  lemma SingleIsNoStray(s: Router, p: Packet)
    requires Present(s, 0) && s.ibufs.m[0].buffer == [] && !p.PacketUnsubscribe?
    ensures NoStrayAt(Step(s, EventArrive(0, p)), EventDeviceData(0))
  {
    hide HandlePacket;
    var t := Step(s, EventArrive(0, p));
    assert t.ibufs.m[0].buffer == [p];
    OrderlyHasNoStray(FirstBatch(t, 0), 0, [p]);
  }

  lemma {:induction false} ScriptHasNoStrays(c: Config, clean: bool, k: nat)
    requires ConfigOk(c) && c.maxConnections >= 1 && k <= 200
    ensures StrayClients(InitRouter(c), Script(clean, k)) == {}
    decreases k
  {
    hide Run, InitRouter, Filling, StraysAfter, Step;
    if k == 0 {
      var first := [EventConnect(CLIENT, clean, None)];
      assert first[..0] == [] && Script(clean, 0) == first + [EventArrive(0, SUBSCRIBE), EventDeviceData(0)];
      RunOneEvent(InitRouter(c), EventConnect(CLIENT, clean, None));
      ConnectAlone(c, clean);
      FirstNoStray(InitRouter(c), CLIENT, clean);
      NoStraysAfter(InitRouter(c), first, SUBSCRIBE);
    } else {
      ScriptHasNoStrays(c, clean, k - 1);
      ScriptFills(c, clean, k - 1);
      FillingIsQuiet(Run(InitRouter(c), Script(clean, k - 1)), clean, k - 1);
      NoStraysAfter(InitRouter(c), Script(clean, k - 1), PUBLISH);
    }
  }

  lemma FirstNoStray(s: Router, client: ClientId, clean: bool)
    ensures StrayClients(s, [EventConnect(client, clean, None)]) == {}
  {
    hide Step, Run;
    assert [EventConnect(client, clean, None)][..0] == [];
  }

  lemma FillingIsQuiet(s: Router, clean: bool, k: nat)
    requires Filling(s, clean, k)
    ensures Present(s, 0) && s.ibufs.m[0].buffer == []
  {
    hide FirstSegment;
  }

  // Two entries in flight, the first under packet id 1, and a request to go on with.
  ghost predicate TwoInFlight(s: Router) {
    && Present(s, 0) && s.notifications == [] && s.ibufs.m[0].buffer == []
    && s.connections.m[0].clientId == CLIENT && !s.connections.m[0].clean && TOPIC in s.connections.m[0].subscriptions
    && |s.obufs.m[0].inflight| == 2 && s.obufs.m[0].inflight[0].pkid == 1 && At(s.obufs.m[0].inflight[0], 0, 0)
    && exists r :: Held(s, 0, r) && r.filter == TOPIC && r.filterIdx == 0
  }

  lemma FirstPkid(o: Outgoing, items: seq<Item>)
    requires o.inflight == [] && o.lastPkid == 0 && |items| == 2
    ensures var q := o.PushForwards(items, AtLeastOnce, 0).inflight; |q| == 2 && q[0].pkid == 1
  {
    assert items[..1][..0] == [] && items[..1][0] == items[0];
    assert o.PushForwards([], AtLeastOnce, 0) == o;
    assert o.PushForwards(items[..1], AtLeastOnce, 0) == o.PushOne(items[0], AtLeastOnce, 0);
  }

  lemma SweepOfTwo(dl: DataLog, o: Outgoing)
    requires |dl.native| == 1 && FirstSegment(dl.native[0].log, 2) && dl.retained == []
    requires o.inflight == [] && o.lastPkid == 0 && |o.buffer| <= 2
    ensures var f := ForwardData(dl, o, Standing());
            && f.2 == FilterCaughtup && f.1.filter == TOPIC && f.1.filterIdx == 0
            && |f.0.inflight| == 2 && f.0.inflight[0].pkid == 1 && At(f.0.inflight[0], 0, 0)
  {
    hide Pull, Outgoing.PushForwards, LogItems, Log.Where, Log.Entries;
    var r, l := Standing(), dl.native[0].log;
    assert Readable(dl, r);
    PullReads(dl, o, r);
    assert RetainedItems(dl, r, 100) == [];
    ForwardFills(dl, o, r);
    ItemsCount(dl, o, r);
    WhereOffset(l, 0);
    PushForwardsSends(o, LogItems(Pull(dl, o, r).entries), AtLeastOnce, 0);
    FirstPkid(o, LogItems(Pull(dl, o, r).entries));
    assert [] + LogItems(Pull(dl, o, r).entries) == LogItems(Pull(dl, o, r).entries);
  }

  // The sweep of both entries, and the pause that ends the turn.
  lemma ParkedAfterTwo(s: Router)
    requires Present(s, 0) && s.scheduler.trackers.m[0].requests == [Standing()] && |s.datalog.native| == 1
    requires ForwardData(s.datalog, s.obufs.m[0], Standing()).2 == FilterCaughtup
    requires ForwardData(s.datalog, s.obufs.m[0], Standing()).1.filterIdx == 0
    ensures var t, f := ConsumeOne(s, 0), ForwardData(s.datalog, s.obufs.m[0], Standing());
            && t.1 && Present(t.0, 0) && t.0.scheduler.trackers.m[0].requests == [] && t.0.obufs.m[0] == f.0
            && t.0.connections == s.connections && t.0.notifications == s.notifications && t.0.ibufs == s.ibufs
            && |t.0.datalog.native| == 1 && (0, f.1) in t.0.datalog.native[0].waiters
  {
    hide ForwardData, ConsumeOne, Skip, Outgoing.FreeSlots;
    ConsumeOneShape(s, 0);
  }

  lemma PausedAfter(s: Router)
    requires Present(s, 0) && s.scheduler.trackers.m[0].requests != [] && ConsumeOne(s, 0).1
    requires Present(ConsumeOne(s, 0).0, 0) && ConsumeOne(s, 0).0.scheduler.trackers.m[0].requests == []
    ensures ConsumeLoop(s, 0, MAX_SCHEDULE_ITERATIONS) == Pause(ConsumeOne(s, 0).0, 0, Caughtup)
  {
    hide ConsumeOne, Pause;
    assert ConsumeLoop(s, 0, MAX_SCHEDULE_ITERATIONS)
        == ConsumeLoop(ConsumeOne(s, 0).0, 0, MAX_SCHEDULE_ITERATIONS - 1);
  }

  lemma ConsumeTwo(s: Router)
    requires Filling(s, false, 2)
    ensures TwoInFlight(Consume(s).0)
  {
    hide SendAcks, Scheduler.Rotate, ForwardData, ConsumeOne, FirstSegment, ConsumeLoop;
    var s1 := s.(scheduler := s.scheduler.Rotate());
    AcksSent(s, false);
    var t := SendAcks(s1, 0);
    SweepOfTwo(t.datalog, t.obufs.m[0]);
    ParkedAfterTwo(t);
    PausedAfter(t);
    var u := ConsumeOne(t, 0).0;
    PausedInFlight(u, ForwardData(t.datalog, t.obufs.m[0], Standing()).1);
  }

  lemma PausedInFlight(s: Router, r: DataRequest)
    requires Present(s, 0) && s.notifications == [] && s.ibufs.m[0].buffer == []
    requires s.connections.m[0].clientId == CLIENT && !s.connections.m[0].clean
             && TOPIC in s.connections.m[0].subscriptions
    requires |s.obufs.m[0].inflight| == 2 && s.obufs.m[0].inflight[0].pkid == 1 && At(s.obufs.m[0].inflight[0], 0, 0)
    requires |s.datalog.native| == 1 && (0, r) in s.datalog.native[0].waiters && r.filter == TOPIC && r.filterIdx == 0
    ensures TwoInFlight(Pause(s, 0, Caughtup))
  {
    assert Held(Pause(s, 0, Caughtup), 0, r);
  }

  lemma WrongAckIs(s: Router)
    requires TwoInFlight(s)
    ensures Handle(s, PacketPubAck(2)) == Disconnect(RegisterAck(s, 0, 2), 0)
  {
    hide Handle, Disconnect, RegisterAck, Held;
    HandleIs(s, PacketPubAck(2));
    WrongAckFinishes(s);
  }

  lemma WrongAckFinishes(s: Router)
    requires Present(s, 0) && s.obufs.m[0].inflight != [] && s.obufs.m[0].inflight[0].pkid == 1
    ensures Finish(HandlePacket(Batch(s, false, false, false, None, false), 0, PacketPubAck(2)), 0)
            == Disconnect(RegisterAck(s, 0, 2), 0)
  {
    hide Disconnect, RegisterAck;
  }

  // A persistent client subscribes, is sent two publishes, and acknowledges the second first: the first
  // is lost to it. Its saved session starts behind it, and it has not been acknowledged.
  lemma OutOfOrderAckLoses(c: Config)
    requires ConfigOk(c) && c.maxConnections >= 1
    ensures var es, ack := Script(false, 2) + [EventConsume], [EventArrive(0, PacketPubAck(2)), EventDeviceData(0)];
            TwoInFlight(Run(InitRouter(c), es)) && LostTo(Run(InitRouter(c), es + ack), CLIENT, TOPIC, 0)
  {
    hide Run, InitRouter, Handle, Consume, RegisterAck, Disconnect, Identified, RequestsOk, Windows, Conserved,
      Delivers, Past, StrayClients, Held, LostTo, Filling;
    var script, ack := Script(false, 2), [EventArrive(0, PacketPubAck(2)), EventDeviceData(0)];
    var es := script + [EventConsume];
    var s := Run(InitRouter(c), es);
    ScriptFills(c, false, 2);
    RunConcat(InitRouter(c), script, [EventConsume]);
    RunOneEvent(Run(InitRouter(c), script), EventConsume);
    ConsumeTwo(Run(InitRouter(c), script));
    RunConcat(InitRouter(c), es, ack);
    RunHandles(s, PacketPubAck(2));
    WrongAckIs(s);
    RunDelivers(c, es);
    ConsumeNoStrays(InitRouter(c), script);
    ScriptHasNoStrays(c, false, 2);
    var r :| Held(s, 0, r) && r.filter == TOPIC && r.filterIdx == 0;
    AckLosesExactly(s, 0, 2, r, {});
  }

  lemma ConsumeNoStrays(s: Router, es: seq<Event>)
    ensures StrayClients(s, es + [EventConsume]) == StrayClients(s, es)
  {
    hide Step, Run;
    assert (es + [EventConsume])[..|es|] == es;
  }

  // ---------------------------------------------------------------------------------------------
  // A log that forgets before it is read

  // A publish that fills the smallest segment there can be.
  function Large(): Publish {
    Publish(TOPIC, seq(1020, _ => 0), AtMostOnce, false, 0)
  }

  const LARGE: Packet := PacketPublish(Large(), Props(None, []))

  function Tiny(): Config {
    Config(1, 0, 1024, 1, [])
  }

  lemma LargeFills()
    ensures Size(Large()) == 1025
  {
    assert Utf8Length(TOPIC[..0]) == 0;
  }

  // The second publish evicts the first.
  lemma SecondEvicts(l: Log)
    requires l == Empty(1024, 1)
    ensures var m := l.Append(Large()).Append(Large()); m.head == 1 && m.starts == [0, 1] && m.HeadOffset() == 1
  {
    LargeFills();
    assert [Large()][..0] == [] && [Large()][0..] == [Large()] && [] + [Large()] == [Large()];
  }

  lemma TinyLog()
    ensures ConfigOk(Tiny())
    ensures Register(EmptyDataLog(Tiny()), TOPIC).native == [NewData(Tiny(), TOPIC, 0)]
            && NewData(Tiny(), TOPIC, 0).log == Empty(1024, 1)
  {
  }

  function LargeScript(clean: bool): seq<Event> {
    Script(clean, 0) + [EventArrive(0, LARGE), EventDeviceData(0)] + [EventArrive(0, LARGE), EventDeviceData(0)]
  }

  lemma LargeWaits(clean: bool)
    ensures var s := Run(InitRouter(Tiny()), LargeScript(clean));
            && RequestsOk(s) && Waits(s, clean, Empty(1024, 1).Append(Large()).Append(Large()))
            && (CLIENT, TOPIC) in s.accounts && s.accounts[(CLIENT, TOPIC)] == Account(0, {}, {}, {})
  {
    hide Run, InitRouter, Handle, RequestsOk, Step, Log.Append, Alone, FirstSegment, Register, Script;
    var c, es, l := Tiny(), Script(clean, 0), Empty(1024, 1);
    var more := [EventArrive(0, LARGE), EventDeviceData(0)];
    var s := Run(InitRouter(c), es);
    TinyLog();
    ScriptFills(c, clean, 0);
    RunKeepsRequests(c, es);
    PublishWaits(s, clean, l, Large());
    RunConcat(InitRouter(c), es, more);
    RunHandles(s, LARGE);
    RunKeepsRequests(c, es + more);
    PublishWaits(Run(InitRouter(c), es + more), clean, l.Append(Large()), Large());
    RunConcat(InitRouter(c), es + more, more);
    RunHandles(Run(InitRouter(c), es + more), LARGE);
    RunKeepsRequests(c, LargeScript(clean));
  }

  lemma LargeOvertakes(s: Router, clean: bool)
    requires RequestsOk(s) && Waits(s, clean, Empty(1024, 1).Append(Large()).Append(Large()))
    requires (CLIENT, TOPIC) in s.accounts && s.accounts[(CLIENT, TOPIC)] == Account(0, {}, {}, {})
    ensures OvertakenAt(s, EventConsume, (CLIENT, TOPIC))
  {
    hide RequestsOk, SendAcks, Scheduler.Rotate, ConsumeOne, Log.Append;
    SecondEvicts(Empty(1024, 1));
    AcksSent(s, clean);
    RegistryOf(s);
    var t := SendAcks(s.(scheduler := s.scheduler.Rotate()), 0);
    assert Overtakes(t, 0, (CLIENT, TOPIC));
    FirstOvertakes(t, (CLIENT, TOPIC));
  }

  lemma RegistryOf(s: Router)
    requires RequestsOk(s) && s.datalog.native != []
    ensures s.datalog.native[0].filter in s.datalog.filterIndexes
            && s.datalog.filterIndexes[s.datalog.native[0].filter] == 0
  {
    hide HeldOk, ParkedOk, LogsOk, CacheOk, FanOut;
  }

  lemma FirstOvertakes(s: Router, k: AccountKey)
    requires Present(s, 0) && s.scheduler.trackers.m[0].requests != [] && Overtakes(s, 0, k)
    ensures !KeepsUp(s, 0, MAX_SCHEDULE_ITERATIONS, k)
  {
    hide ConsumeOne, Overtakes;
  }

  // Connect, subscribe, publish twice what fills a segment of a log that may hold one: the first publish
  // is evicted before the subscription reads it.
  lemma EvictionOvertakes(clean: bool)
    ensures var s := Run(InitRouter(Tiny()), LargeScript(clean) + [EventConsume]);
            && !KeptUp(InitRouter(Tiny()), LargeScript(clean) + [EventConsume], (CLIENT, TOPIC))
            && (CLIENT, TOPIC) in s.accounts && s.accounts[(CLIENT, TOPIC)].missed == {0}
  {
    hide Run, InitRouter, Consume, RequestsOk, Windows, OvertakenAt, KeptUp, LargeScript, Waits;
    var es, k := LargeScript(clean), (CLIENT, TOPIC);
    var s := Run(InitRouter(Tiny()), es);
    TinyLog();
    LargeWaits(clean);
    LargeOvertakes(s, clean);
    RunKeepsWindows(Tiny(), es);
    ConsumeMisses(s, k);
    RunConcat(InitRouter(Tiny()), es, [EventConsume]);
    RunOneEvent(s, EventConsume);
    LossesExactly(Tiny(), es + [EventConsume], k);
    RunIsPast(Tiny(), es + [EventConsume]);
    OnlyTheFirst(s, clean);
  }

  lemma {:induction false} LoopHeads(s: Router, id: ConnectionId, n: nat, f: Filter)
    ensures HeldFrom(ConsumeLoop(s, id, n).datalog, f) == HeldFrom(s.datalog, f)
    decreases n
  {
    hide ConsumeOne, HeldFrom, Scheduler.Pause, Park, ForwardData, Skip;
    if n > 0 && Present(s, id) && s.scheduler.trackers.m[id].requests != [] {
      ConsumeOneShape(s, id);
      ParkHeads(s.datalog, id, ForwardData(s.datalog, s.obufs.m[id], s.scheduler.trackers.m[id].requests[0]).1, f);
      if ConsumeOne(s, id).1 {
        LoopHeads(ConsumeOne(s, id).0, id, n - 1, f);
      }
    }
  }

  lemma ParkHeads(dl: DataLog, id: ConnectionId, r: DataRequest, f: Filter)
    ensures HeldFrom(Park(dl, id, r), f) == HeldFrom(dl, f)
  {
  }

  lemma ConsumeHeads(s: Router, f: Filter)
    ensures HeldFrom(Consume(s).0.datalog, f) == HeldFrom(s.datalog, f)
  {
    hide ConsumeLoop, HeldFrom, Scheduler.Rotate, DeviceAcks;
    if s.scheduler.readyqueue != [] {
      var id, s1 := s.scheduler.readyqueue[0], s.(scheduler := s.scheduler.Rotate());
      if Present(s1, id) {
        LoopHeads(SendAcks(s1, id), id, MAX_SCHEDULE_ITERATIONS, f);
      }
    }
  }

  lemma OnlyTheFirst(s: Router, clean: bool)
    requires RequestsOk(s) && Waits(s, clean, Empty(1024, 1).Append(Large()).Append(Large())) && Past(Consume(s).0)
    requires (CLIENT, TOPIC) in Consume(s).0.accounts && !MissedNone(Consume(s).0.accounts[(CLIENT, TOPIC)])
    ensures Consume(s).0.accounts[(CLIENT, TOPIC)].missed == {0}
  {
    hide RequestsOk, Consume, Log.Append;
    SecondEvicts(Empty(1024, 1));
    ConsumeHeads(s, TOPIC);
    RegistryOf(s);
    assert EvictedAt(Consume(s).0.datalog, (CLIENT, TOPIC), Consume(s).0.accounts[(CLIENT, TOPIC)]);
  }
}

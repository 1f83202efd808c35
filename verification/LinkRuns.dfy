// The router and one link together: whatever the router is made to do, and however the link's own
// steps fall in between, is an interleaving of the handshake.
module LinkRuns {
  import opened Types
  import opened DataLogModel
  import opened OutgoingModel
  import opened SchedulerModel
  import opened RouterModel
  import opened Frames
  import opened Identity
  import opened Queue
  import opened ConservationRuns
  import opened Wakeups
  import opened Neighbours
  import opened Withheld
  import opened LinkProtocol

  // The link's half. calls: Ready events it has sent and the router has not handled.
  datatype Side = Side(built: bool, holding: bool, drained: seq<Notification>, unscheduled: bool, calls: nat)

  datatype Pair = Pair(router: Router, side: Side)

  const UNBUILT: Side := Side(false, false, [], false, 0)

  // Outside: any event but the link's own; packets can only come once the link is built. BuildLink: what
  // building it takes out of buffer and channel. Its other steps are those of the handshake.
  datatype Act =
    | Outside(event: Event)
    | CallBack
    | BuildLink
    | TakeToken
    | SwapBuffer
    | DrainBuffer
    | CallRouter

  function SetObuf(s: Router, id: ConnectionId, o: Outgoing): Router {
    s.(obufs := s.obufs.Set(id, o))
  }

  predicate Allowed(p: Pair, id: ConnectionId, a: Act)
    requires Present(p.router, id)
  {
    var o := p.router.obufs.m[id];
    match a
    case Outside(e) =>
      && Stays(p.router, e, id) && e != EventExchange(id) && e != EventReady(id)
      && !ReusesQueuedId(p.router, e) && ((e.EventArrive? || e.EventDeviceData?) && e.id == id ==> p.side.built)
    case CallBack => p.side.calls > 0
    case BuildLink => !p.side.built && o.buffer != [] && o.tokens > 0
    case TakeToken => p.side.built && o.tokens > 0 && !p.side.holding && p.side.drained == [] && !p.side.unscheduled
    case SwapBuffer => p.side.holding
    case DrainBuffer => p.side.drained != []
    case CallRouter => p.side.unscheduled
  }

  function Next(p: Pair, id: ConnectionId, a: Act): Pair
    requires Present(p.router, id) && Allowed(p, id, a)
  {
    var o := p.router.obufs.m[id];
    match a
    case Outside(e) => p.(router := Step(p.router, e))
    case CallBack => Pair(Step(p.router, EventReady(id)), p.side.(calls := p.side.calls - 1))
    case BuildLink => Pair(SetObuf(p.router, id, o.(tokens := o.tokens - 1, buffer := o.buffer[1..])),
                           p.side.(built := true))
    case TakeToken => Pair(SetObuf(p.router, id, o.(tokens := o.tokens - 1)), p.side.(holding := true))
    case SwapBuffer => Pair(SetObuf(p.router, id, o.(buffer := [])), p.side.(drained := o.buffer, holding := false))
    case DrainBuffer => p.(side := p.side.(unscheduled := Unschedule in p.side.drained, drained := []))
    case CallRouter => p.(side := p.side.(calls := p.side.calls + 1, unscheduled := false))
  }

  // The two as the handshake sees them, between two events.
  function WireOf(s: Router, id: ConnectionId, l: Side): Wire
    requires Present(s, id)
  {
    var o := s.obufs.m[id];
    Wire(o.buffer, o.tokens, false, false, false, StatusOf(s, id), l.holding, l.drained, l.unscheduled, l.calls)
  }

  ghost predicate Reaches(w: Wire, v: Wire) {
    exists ms :: Runs(w, ms) && After(w, ms) == v
  }

  lemma ReachesRefl(w: Wire)
    ensures Reaches(w, w)
  {
    assert Runs(w, []) && After(w, []) == w;
  }

  lemma {:induction false} RunsConcat(w: Wire, ms: seq<Move>, ns: seq<Move>)
    requires Runs(w, ms) && Runs(After(w, ms), ns)
    ensures Runs(w, ms + ns) && After(w, ms + ns) == After(After(w, ms), ns)
    decreases |ms|
  {
    hide Enabled, Do;
    if ms == [] {
      assert ms + ns == ns;
    } else {
      assert (ms + ns)[1..] == ms[1..] + ns;
      RunsConcat(Do(w, ms[0]), ms[1..], ns);
    }
  }

  lemma ReachesTrans(u: Wire, v: Wire, w: Wire)
    requires Reaches(u, v) && Reaches(v, w)
    ensures Reaches(u, w)
  {
    hide Runs, After;
    var ms :| Runs(u, ms) && After(u, ms) == v;
    var ns :| Runs(v, ns) && After(v, ns) == w;
    RunsConcat(u, ms, ns);
  }

  lemma ReachesOne(w: Wire, m: Move)
    requires Enabled(w, m)
    ensures Reaches(w, Do(w, m))
  {
    hide Enabled, Do, Runs, After;
    RunOne(w, m);
  }

  lemma ReachesKeepsInv(w: Wire, v: Wire)
    requires Inv(w) && Reaches(w, v)
    ensures Inv(v)
  {
    hide Inv, Runs, After;
    var ms :| Runs(w, ms) && After(w, ms) == v;
    RunsKeepInv(w, ms);
  }

  // ---------------------------------------------------------------------------------------------
  // Turns

  // A move of the router that does not answer the link.
  predicate ByRouter(m: Move) {
    m.PushAcks? || m.PushForwards? || m.PushUnschedule? || m.TrySend? || m.PauseBusy? || m.PauseFor?
  }

  lemma {:induction false} RouterKeepsSide(w: Wire, ms: seq<Move>)
    requires forall m :: m in ms ==> ByRouter(m)
    ensures var v := After(w, ms);
            v.holding == w.holding && v.drained == w.drained && v.unscheduled == w.unscheduled && v.events == w.events
    decreases |ms|
  {
    if ms != [] {
      assert ms[0] in ms;
      RouterKeepsSide(Do(w, ms[0]), ms[1..]);
    }
  }

  // Nothing but a push sets full, and what is pushed is signalled or turned into an Unschedule.
  lemma SweepNotFull(dl: DataLog, o: Outgoing, r: DataRequest, w: Wire)
    requires Shows(w, o) && w.status == Ready && !w.owing && !w.full && !w.pausing
    ensures !After(w, SweepMoves(dl, o, r)).full
    ensures forall m :: m in SweepMoves(dl, o, r) ==> ByRouter(m)
  {
    hide Pull, Slots, RetainedItems, LogItems, Outgoing.PushForwards, NoUnschedule, Runs, After;
    var items := RetainedItems(dl, r, Slots(dl, o, r)) + LogItems(Pull(dl, o, r).entries);
    PushForwardsPushes(o, items, r.qos, r.filterIdx);
    var ms, pushed := SweepMoves(dl, o, r), o.PushForwards(items, r.qos, r.filterIdx).buffer;
    if |ms| == 0 {
      RunNone(w);
    } else if |ms| == 1 {
      RunOne(w, ms[0]);
    } else {
      assert pushed == o.buffer + pushed[|o.buffer|..];
      RunTwo(w, ms[0], ms[1]);
      if |ms| == 4 {
        RunTwo(Do(Do(w, ms[0]), ms[1]), ms[2], ms[3]);
        RunFour(w, ms);
      }
    }
  }

  lemma SweepReaches(s: Router, id: ConnectionId, l: Side)
    requires Present(s, id) && s.scheduler.trackers.m[id].requests != [] && StatusOf(s, id) == Ready
             && AtBack(s.scheduler, id)
    ensures var t := ConsumeOne(s, id);
            && Present(t.0, id) && Reaches(WireOf(s, id, l), WireOf(t.0, id, l))
            && (t.1 ==> StatusOf(t.0, id) == Ready && AtBack(t.0.scheduler, id))
  {
    hide ConsumeOne, ForwardData, SweepMoves, Runs, After, Reaches, SameNames, Skip, Park;
    var o, r := s.obufs.m[id], s.scheduler.trackers.m[id].requests[0];
    var w, ms := WireOf(s, id, l), SweepMoves(s.datalog, o, r);
    SweepIsMoves(s.datalog, o, r, w);
    SweepNotFull(s.datalog, o, r, w);
    RouterKeepsSide(w, ms);
    SweptParts(s, id);
    assert After(w, ms) == WireOf(ConsumeOne(s, id).0, id, l);
    ReachesBy(w, ms);
  }

  lemma ReachesBy(w: Wire, ms: seq<Move>)
    requires Runs(w, ms)
    ensures Reaches(w, After(w, ms))
  {
    hide Runs, After;
  }

  // Buffer, tokens and status after one sweep.
  lemma SweptParts(s: Router, id: ConnectionId)
    requires Present(s, id) && s.scheduler.trackers.m[id].requests != [] && StatusOf(s, id) == Ready
             && AtBack(s.scheduler, id)
    ensures var t, f := ConsumeOne(s, id),
            ForwardData(s.datalog, s.obufs.m[id], s.scheduler.trackers.m[id].requests[0]);
            && Present(t.0, id) && t.0.obufs.m[id] == f.0
            && StatusOf(t.0, id) == (match f.2
                                     case BufferFull => Paused(Busy)
                                     case InflightFull => Paused(PauseReason.InflightFull)
                                     case _ => Ready)
            && (t.1 <==> f.2 == FilterCaughtup || f.2 == PartialRead)
            && (t.1 ==> AtBack(t.0.scheduler, id))
  {
    hide ConsumeOne, ForwardData, Skip, Park;
    ForwardFull(s.datalog, s.obufs.m[id], s.scheduler.trackers.m[id].requests[0]);
    ConsumeOneShape(s, id);
  }

  lemma {:induction false} LoopReaches(s: Router, id: ConnectionId, n: nat, l: Side)
    requires Present(s, id) && StatusOf(s, id) == Ready && AtBack(s.scheduler, id)
    ensures var t := ConsumeLoop(s, id, n); Present(t, id) && Reaches(WireOf(s, id, l), WireOf(t, id, l))
    decreases n
  {
    hide ConsumeOne, Reaches, Pause, WireOf, AtBack;
    if n == 0 {
      ReachesRefl(WireOf(s, id, l));
    } else if s.scheduler.trackers.m[id].requests == [] {
      CaughtupReaches(s, id, l);
    } else {
      var t := ConsumeOne(s, id);
      SweepReaches(s, id, l);
      if t.1 {
        LoopReaches(t.0, id, n - 1, l);
        ReachesTrans(WireOf(s, id, l), WireOf(t.0, id, l), WireOf(ConsumeLoop(t.0, id, n - 1), id, l));
      }
    }
  }

  lemma CaughtupReaches(s: Router, id: ConnectionId, l: Side)
    requires Present(s, id) && StatusOf(s, id) == Ready && AtBack(s.scheduler, id)
    ensures Present(Pause(s, id, Caughtup), id) && Reaches(WireOf(s, id, l), WireOf(Pause(s, id, Caughtup), id, l))
  {
    hide Reaches;
    ReachesOne(WireOf(s, id, l), PauseFor(Caughtup));
  }

  lemma AcksReach(s: Router, id: ConnectionId, l: Side)
    requires Present(s, id) && StatusOf(s, id) == Ready
    ensures var t := SendAcks(s, id);
            Present(t, id) && t.scheduler == s.scheduler && Reaches(WireOf(s, id, l), WireOf(t, id, l))
  {
    hide Runs, After, Reaches, DeviceAcks;
    var acks := s.ackslog.m[id].committed;
    var w, ms := WireOf(s, id, l), if acks == [] then [] else [PushAcks(DeviceAcks(acks)), TrySend];
    AcksAreMoves(s, id, w);
    RouterKeepsSide(w, ms);
    RunNone(w);
    RunTwo(w, PushAcks(DeviceAcks(acks)), TrySend);
    assert After(w, ms) == WireOf(SendAcks(s, id), id, l);
    ReachesBy(w, ms);
  }

  // A whole turn of the connection at the front of the queue.
  lemma TurnReaches(s: Router, id: ConnectionId, l: Side)
    requires Present(s, id) && s.scheduler.readyqueue != [] && s.scheduler.readyqueue[0] == id
             && StatusOf(s, id) == Ready
    ensures var t := Consume(s).0; Present(t, id) && Reaches(WireOf(s, id, l), WireOf(t, id, l))
  {
    hide ConsumeLoop, SendAcks, Reaches, Scheduler.Rotate, QueueKept, AtBack;
    var s1 := s.(scheduler := s.scheduler.Rotate());
    RotateFrame(s);
    RotateQueue(s.scheduler);
    AcksReach(s1, id, l);
    LoopReaches(SendAcks(s1, id), id, MAX_SCHEDULE_ITERATIONS, l);
    ReachesTrans(WireOf(s1, id, l), WireOf(SendAcks(s1, id), id, l), WireOf(Consume(s).0, id, l));
  }

  // ---------------------------------------------------------------------------------------------
  // Batches

  ghost predicate SameBuffer(s: Router, t: Router, id: ConnectionId) {
    id in s.obufs.m && id in t.obufs.m
    && t.obufs.m[id].buffer == s.obufs.m[id].buffer && t.obufs.m[id].tokens == s.obufs.m[id].tokens
  }

  lemma HandlePacketBuffer(b: Batch, id: ConnectionId, p: Packet)
    requires Present(b.r, id)
    ensures SameBuffer(b.r, HandlePacket(b, id, p).r, id)
  {
    hide AppendToCommitlog, SubscribeAll, UnsubscribeAll, HandlePubAck, HandlePubRec, HandlePubRel, HandlePublish;
    match p {
      case PacketPublish(publish, props) => PublishBuffer(b, id, publish, props);
      case PacketSubscribe(pkid, filters, subId) => SubscribeAllFrame(b, id, filters, subId);
      case PacketUnsubscribe(pkid, paths) => UnsubscribeAllFrame(b, id, pkid, paths);
      case PacketPubAck(pkid) => AckBuffer(b, id, pkid);
      case PacketPubRec(pkid) => AckBuffer(b, id, pkid);
      case PacketPubRel(pkid, _) => PubRelBuffer(b, id, pkid);
      case _ =>
    }
  }

  lemma PublishBuffer(b: Batch, id: ConnectionId, p: Publish, props: Props)
    requires Present(b.r, id)
    ensures HandlePublish(b, id, p, props).r.obufs == b.r.obufs
  {
    hide AppendToCommitlog;
    if p.qos == AtLeastOnce {
      AppendFrame(b.(r := Commit(b.r, id, PubAck(p.pkid)), forceAck := true), id, p, props, true);
    } else if p.qos == AtMostOnce {
      AppendFrame(b, id, p, props, true);
    }
  }

  lemma AckBuffer(b: Batch, id: ConnectionId, pkid: nat)
    requires Present(b.r, id)
    ensures SameBuffer(b.r, HandlePubAck(b, id, pkid).r, id) && SameBuffer(b.r, HandlePubRec(b, id, pkid).r, id)
  {
    hide RegisterAck;
    RegisterAckFrame(b.r, id, pkid);
  }

  lemma PubRelBuffer(b: Batch, id: ConnectionId, pkid: nat)
    requires Present(b.r, id)
    ensures HandlePubRel(b, id, pkid).r.obufs == b.r.obufs
  {
    hide AppendToCommitlog;
    var a := b.r.ackslog.m[id].Release(pkid);
    var b1 := b.(r := b.r.(ackslog := b.r.ackslog.Set(id, a.0)));
    if a.1.Some? {
      AppendFrame(b1, id, a.1.value.0, a.1.value.1, false);
    }
  }

  lemma {:induction false} HandlePacketsBuffer(b: Batch, id: ConnectionId, packets: seq<Packet>)
    requires Present(b.r, id)
    ensures SameBuffer(b.r, HandlePackets(b, id, packets).r, id)
    decreases |packets|
  {
    hide HandlePacket;
    if packets != [] && !b.stop {
      HandlePacketBuffer(b, id, packets[0]);
      if Present(HandlePacket(b, id, packets[0]).r, id) {
        HandlePacketsBuffer(HandlePacket(b, id, packets[0]), id, packets[1..]);
      }
    }
  }

  lemma DeviceDataBuffer(s: Router, id: ConnectionId)
    requires Present(s, id) && Present(DeviceData(s, id), id)
    ensures SameBuffer(s, DeviceData(s, id), id)
  {
    hide HandlePackets, WakeAll, Reschedule, Disconnect;
    var b := HandlePackets(FirstBatch(s, id), id, s.ibufs.m[id].buffer);
    var s1 := if b.forceAck then Reschedule(b.r, id, FreshData) else b.r;
    HandlePacketsBuffer(FirstBatch(s, id), id, s.ibufs.m[id].buffer);
    RescheduleBuffer(b.r, id);
    WakeAllFrame(s1);
    DisconnectedIsGone(if b.newData then WakeAll(s1) else s1, id);
  }

  lemma RescheduleBuffer(s: Router, id: ConnectionId)
    ensures Reschedule(s, id, FreshData).obufs == s.obufs
  {
  }

  // The connection's own packets, and everyone else's, can only awaken it.
  lemma AwakenReaches(w: Wire, why: ScheduleReason)
    requires !w.owing && !w.pausing && (why == IncomingAck || why == FreshData) && Awakens(w.status, why)
    ensures Reaches(w, w.(status := Ready))
  {
    hide Reaches;
    ReachesOne(w, Awaken(why));
  }

  lemma DeviceDataReaches(s: Router, id: ConnectionId, l: Side)
    requires Present(s, id) && Present(DeviceData(s, id), id)
    ensures Reaches(WireOf(s, id, l), WireOf(DeviceData(s, id), id, l))
  {
    hide DeviceData, Reaches, Acknowledging;
    var w, v := WireOf(s, id, l), WireOf(DeviceData(s, id), id, l);
    DeviceDataMoves(s, id);
    DeviceDataBuffer(s, id);
    if v.status == w.status {
      ReachesRefl(w);
    } else {
      AwakenReaches(w, IncomingAck);
    }
  }

  lemma NudgedReaches(s: Router, t: Router, id: ConnectionId, l: Side)
    requires Nudged(s, t, id)
    ensures Reaches(WireOf(s, id, l), WireOf(t, id, l))
  {
    hide Reaches;
    var w, v := WireOf(s, id, l), WireOf(t, id, l);
    if v.status == w.status {
      ReachesRefl(w);
    } else {
      AwakenReaches(w, FreshData);
    }
  }

  // Every event of the router that leaves the connection in place, and is not the link's own, is a
  // sequence of moves of the handshake.
  lemma EventReaches(s: Router, e: Event, id: ConnectionId, l: Side)
    requires Identified(s) && QueuedOnce(s.scheduler) && Present(s, id) && Stays(s, e, id)
    requires e != EventExchange(id) && e != EventReady(id)
    ensures Reaches(WireOf(s, id, l), WireOf(Step(s, e), id, l))
  {
    hide Identified, QueuedOnce, Connect, DeviceData, Disconnect, PublishWill, Consume, Reaches, WireOf, Reschedule,
      Arrive, Exchange;
    if !About(s, e, id) {
      StepNudged(s, e, id);
      NudgedReaches(s, Step(s, e), id, l);
    } else {
      match e {
        case EventDeviceData(_) => DeviceDataReaches(s, id, l);
        case EventDisconnect(_) => DisconnectedIsGone(s, id);
        case EventConsume =>
          QueuedIffReady(s.scheduler, id);
          assert s.scheduler.readyqueue[0] in s.scheduler.readyqueue;
          TurnReaches(s, id, l);
        case _ =>
      }
    }
  }

  // ---------------------------------------------------------------------------------------------
  // Before the link is built

  // Something to start with has been announced on its own account.
  predicate Welcomed(o: Outgoing) {
    o.buffer != [] && o.buffer[0].DeviceAck? && o.tokens > 0 && (|o.buffer| == 1 || o.tokens > 1)
  }

  // The ConnAck of a clean session is waiting, or has been sent.
  predicate Greeted(s: Router, id: ConnectionId)
    requires Present(s, id)
  {
    var a, o := s.ackslog.m[id].committed, s.obufs.m[id];
    || (a == [ConnAck(id, false)] && o.buffer == [] && o.tokens == 0)
    || (a == [] && Welcomed(o))
  }

  lemma SweepWelcomes(dl: DataLog, o: Outgoing, r: DataRequest)
    requires Welcomed(o)
    ensures Welcomed(ForwardData(dl, o, r).0)
  {
    hide Pull, Slots, RetainedItems, LogItems, Outgoing.PushForwards, NoUnschedule;
    var items := RetainedItems(dl, r, Slots(dl, o, r)) + LogItems(Pull(dl, o, r).entries);
    PushForwardsPushes(o, items, r.qos, r.filterIdx);
    var pushed := o.PushForwards(items, r.qos, r.filterIdx).buffer;
    assert pushed[..|o.buffer|][0] == pushed[0];
  }

  lemma {:induction false} LoopWelcomes(s: Router, id: ConnectionId, n: nat)
    requires Present(s, id) && s.ackslog.m[id].committed == [] && Welcomed(s.obufs.m[id])
    ensures var t := ConsumeLoop(s, id, n); Present(t, id) && t.ackslog.m[id].committed == [] && Welcomed(t.obufs.m[id])
    decreases n
  {
    hide ConsumeOne, Pause, Welcomed;
    if n > 0 {
      if s.scheduler.trackers.m[id].requests == [] {
        PauseParts(s, id);
      } else {
        SweepWelcomed(s, id);
        if ConsumeOne(s, id).1 {
          LoopWelcomes(ConsumeOne(s, id).0, id, n - 1);
        }
      }
    }
  }

  lemma PauseParts(s: Router, id: ConnectionId)
    requires Present(s, id)
    ensures var t := Pause(s, id, Caughtup); Present(t, id) && t.ackslog == s.ackslog && t.obufs == s.obufs
  {
  }

  lemma SweepWelcomed(s: Router, id: ConnectionId)
    requires Present(s, id) && s.scheduler.trackers.m[id].requests != [] && Welcomed(s.obufs.m[id])
    ensures var t := ConsumeOne(s, id).0; Present(t, id) && t.ackslog == s.ackslog && Welcomed(t.obufs.m[id])
  {
    hide ConsumeOne, ForwardData, Skip, Park, Welcomed;
    SweepWelcomes(s.datalog, s.obufs.m[id], s.scheduler.trackers.m[id].requests[0]);
    ForwardFull(s.datalog, s.obufs.m[id], s.scheduler.trackers.m[id].requests[0]);
    ConsumeOneShape(s, id);
  }

  lemma AcksWelcome(s: Router, id: ConnectionId)
    requires Present(s, id) && Greeted(s, id)
    ensures var t := SendAcks(s, id); Present(t, id) && t.ackslog.m[id].committed == [] && Welcomed(t.obufs.m[id])
  {
    if s.ackslog.m[id].committed != [] {
      assert DeviceAcks([ConnAck(id, false)]) == [DeviceAck(ConnAck(id, false))];
    }
  }

  lemma TurnGreets(s: Router, id: ConnectionId)
    requires Present(s, id) && s.scheduler.readyqueue != [] && s.scheduler.readyqueue[0] == id && Greeted(s, id)
    ensures var t := Consume(s).0; Present(t, id) && Greeted(t, id)
  {
    hide ConsumeLoop, SendAcks, Scheduler.Rotate, Welcomed;
    var s1 := s.(scheduler := s.scheduler.Rotate());
    RotateFrame(s);
    AcksWelcome(s1, id);
    LoopWelcomes(SendAcks(s1, id), id, MAX_SCHEDULE_ITERATIONS);
  }

  lemma NudgedGreets(s: Router, t: Router, id: ConnectionId)
    requires Nudged(s, t, id) && Greeted(s, id)
    ensures Greeted(t, id)
  {
    hide Welcomed;
  }

  lemma EventGreets(s: Router, e: Event, id: ConnectionId)
    requires Identified(s) && Present(s, id) && Stays(s, e, id) && Greeted(s, id)
    requires e != EventExchange(id) && e != EventReady(id) && e != EventDeviceData(id)
    ensures Greeted(Step(s, e), id)
  {
    hide Identified, Connect, DeviceData, Disconnect, PublishWill, Consume, Greeted, Reschedule, Arrive, Exchange;
    if !About(s, e, id) {
      StepNudged(s, e, id);
      NudgedGreets(s, Step(s, e), id);
    } else {
      match e {
        case EventDisconnect(_) => DisconnectedIsGone(s, id);
        case EventConsume => TurnGreets(s, id);
        case _ =>
      }
    }
  }

  // ---------------------------------------------------------------------------------------------
  // Runs of both

  ghost predicate Paired(p: Pair, id: ConnectionId) {
    && Present(p.router, id) && Identified(p.router) && SavedBusy(p.router) && QueuedOnce(p.router.scheduler)
    && Inv(WireOf(p.router, id, p.side))
    && (!p.side.built ==> p.side == UNBUILT && Greeted(p.router, id))
  }

  lemma SetObufKeeps(s: Router, id: ConnectionId, o: Outgoing)
    requires Present(s, id) && o.clientId == s.obufs.m[id].clientId
    ensures var t := SetObuf(s, id, o);
            && Present(t, id) && t.scheduler == s.scheduler && t.ackslog == s.ackslog && t.obufs.m[id] == o
            && (Identified(s) ==> Identified(t)) && (SavedBusy(s) ==> SavedBusy(t))
  {
    hide NamesOf, NamesOk, Subscribers;
    SetObufSame(s, id, o);
    SameSubscriptionsKeeps(s, SetObuf(s, id, o));
  }

  lemma OutsideKeeps(p: Pair, id: ConnectionId, e: Event)
    requires Paired(p, id) && Allowed(p, id, Outside(e))
    ensures Paired(Next(p, id, Outside(e)), id)
  {
    hide Identified, SavedBusy, QueuedOnce, Queued, Inv, WireOf, Reaches, Greeted, Step, Subscribers, ReusesQueuedId;
    StepKeeps(p.router, e);
    StepSavedBusy(p.router, e);
    StepQueue(p.router, e);
    EventReaches(p.router, e, id, p.side);
    ReachesKeepsInv(WireOf(p.router, id, p.side), WireOf(Step(p.router, e), id, p.side));
    if !p.side.built {
      EventGreets(p.router, e, id);
    }
  }

  lemma CallBackKeeps(p: Pair, id: ConnectionId)
    requires Paired(p, id) && Allowed(p, id, CallBack)
    ensures Paired(Next(p, id, CallBack), id)
  {
    hide Identified, SavedBusy, QueuedOnce, Queued, Inv, Greeted, Subscribers, ReusesQueuedId;
    StepKeeps(p.router, EventReady(id));
    StepSavedBusy(p.router, EventReady(id));
    NoReuse(p.router, id);
    StepQueue(p.router, EventReady(id));
    MoveKeepsInv(WireOf(p.router, id, p.side), HandleReady);
  }

  lemma NoReuse(s: Router, id: ConnectionId)
    ensures !ReusesQueuedId(s, EventReady(id))
  {
  }

  lemma BuildKeeps(p: Pair, id: ConnectionId)
    requires Paired(p, id) && Allowed(p, id, BuildLink)
    ensures Paired(Next(p, id, BuildLink), id)
  {
    hide Identified, SavedBusy, QueuedOnce, Inv, SetObuf;
    var o := p.router.obufs.m[id];
    SetObufKeeps(p.router, id, o.(tokens := o.tokens - 1, buffer := o.buffer[1..]));
    BuildKeepsInvIff(WireOf(p.router, id, p.side));
  }

  lemma TakeKeeps(p: Pair, id: ConnectionId)
    requires Paired(p, id) && Allowed(p, id, TakeToken)
    ensures Paired(Next(p, id, TakeToken), id)
  {
    hide Identified, SavedBusy, QueuedOnce, Inv, SetObuf, Greeted;
    var o := p.router.obufs.m[id];
    SetObufKeeps(p.router, id, o.(tokens := o.tokens - 1));
    MoveKeepsInv(WireOf(p.router, id, p.side), Take);
  }

  lemma SwapKeeps(p: Pair, id: ConnectionId)
    requires Paired(p, id) && Allowed(p, id, SwapBuffer)
    ensures Paired(Next(p, id, SwapBuffer), id)
  {
    hide Identified, SavedBusy, QueuedOnce, Inv, SetObuf, Greeted;
    SetObufKeeps(p.router, id, p.router.obufs.m[id].(buffer := []));
    MoveKeepsInv(WireOf(p.router, id, p.side), Swap);
  }

  lemma OwnMoveKeeps(p: Pair, id: ConnectionId, a: Act)
    requires Paired(p, id) && Allowed(p, id, a) && (a.DrainBuffer? || a.CallRouter?)
    ensures Paired(Next(p, id, a), id)
  {
    hide Identified, SavedBusy, QueuedOnce, Inv, SetObuf, Greeted;
    MoveKeepsInv(WireOf(p.router, id, p.side), if a.DrainBuffer? then Move.Drain else Move.Wake);
  }

  lemma ActKeeps(p: Pair, id: ConnectionId, a: Act)
    requires Paired(p, id) && Allowed(p, id, a)
    ensures Paired(Next(p, id, a), id)
  {
    hide Paired, Next, Allowed;
    match a {
      case Outside(e) => OutsideKeeps(p, id, e);
      case CallBack => CallBackKeeps(p, id);
      case BuildLink => BuildKeeps(p, id);
      case TakeToken => TakeKeeps(p, id);
      case SwapBuffer => SwapKeeps(p, id);
      case _ => OwnMoveKeeps(p, id, a);
    }
  }

  ghost predicate Plays(p: Pair, id: ConnectionId, acts: seq<Act>)
    decreases |acts|
  {
    acts == [] || (Present(p.router, id) && Allowed(p, id, acts[0]) && Plays(Next(p, id, acts[0]), id, acts[1..]))
  }

  ghost function Played(p: Pair, id: ConnectionId, acts: seq<Act>): Pair
    requires Plays(p, id, acts)
    decreases |acts|
  {
    if acts == [] then p else Played(Next(p, id, acts[0]), id, acts[1..])
  }

  lemma {:induction false} ActsKeep(p: Pair, id: ConnectionId, acts: seq<Act>)
    requires Paired(p, id) && Plays(p, id, acts)
    ensures Paired(Played(p, id, acts), id)
    decreases |acts|
  {
    hide Paired, Next, Allowed;
    if acts != [] {
      ActKeeps(p, id, acts[0]);
      ActsKeep(Next(p, id, acts[0]), id, acts[1..]);
    }
  }

  function IdOf(s: Router, e: Event): ConnectionId
    requires e.EventConnect?
  {
    Dropped(s, e.client).connections.NextKey()
  }

  lemma AdmitStarts(s: Router, client: ClientId, clean: bool, will: Option<Publish>)
    requires Identified(s) && (clean || SavedSession(s, client).None?)
    ensures var t, id := Admit(s, client, clean, will), s.connections.NextKey();
            && Present(t, id) && t.obufs.m[id] == NewOutgoing(client, [])
              && t.ackslog.m[id].committed == [ConnAck(id, false)]
            && StatusOf(t, id) == Ready
  {
    hide NamesOf, NamesOk, ForgetAccounts;
    AdmitKeysAgree(s);
    assert PubRels([]) == [];
  }

  lemma BeginningIs(s: Router, e: Event)
    requires Identified(s) && Begins(s, e)
    ensures e.EventConnect?
    ensures var t, id := Step(s, e), IdOf(s, e);
            Present(t, id) && Greeted(t, id) && StatusOf(t, id) == Ready && t.obufs.m[id].buffer == []
              && t.obufs.m[id].tokens == 0
  {
    hide Disconnect, Identified, Subscribers, Admit;
    if e.client in s.connectionMap {
      DisconnectKeeps(s, s.connectionMap[e.client]);
    }
    AdmitStarts(Dropped(s, e.client), e.client, e.clean, e.will);
  }

  lemma BeginningPairs(s: Router, e: Event)
    requires Identified(s) && SavedBusy(s) && QueuedOnce(s.scheduler) && e.EventConnect? && Begins(s, e)
             && !ReusesQueuedId(s, e)
    ensures Paired(Pair(Step(s, e), UNBUILT), IdOf(s, e))
  {
    hide Identified, SavedBusy, QueuedOnce, Queued, Begins, ReusesQueuedId, Step, IdOf, Subscribers, Greeted;
    StepKeeps(s, e);
    StepSavedBusy(s, e);
    StepQueue(s, e);
    BeginningIs(s, e);
    NewWireInv(Step(s, e), IdOf(s, e));
  }

  lemma NewWireInv(s: Router, id: ConnectionId)
    requires Present(s, id) && Greeted(s, id) && StatusOf(s, id) == Ready
             && s.obufs.m[id].tokens <= MAX_CHANNEL_CAPACITY
    requires s.obufs.m[id].buffer == []
    ensures Inv(WireOf(s, id, UNBUILT))
  {
    hide Count;
    CountZero<Notification>([], IsUnschedule());
  }

  // From any point of any run without reuse of a queued id: a client connects for a new session, its
  // link is built, and from then on, whatever the router is made to do, and whatever the link does between events,
  // what is in the buffer is announced, and a busy connection has exactly one call back under way.
  lemma HandshakeInEveryRun(c: Config, es: seq<Event>, e: Event, acts: seq<Act>)
    requires NoQueuedReuse(InitRouter(c), es)
    requires var s := Run(InitRouter(c), es);
             e.EventConnect? && Begins(s, e) && !ReusesQueuedId(s, e)
               && Plays(Pair(Step(s, e), UNBUILT), IdOf(s, e), acts)
    ensures var s := Run(InitRouter(c), es);
            var p, id := Played(Pair(Step(s, e), UNBUILT), IdOf(s, e), acts), IdOf(s, e);
            && Present(p.router, id)
            && (p.router.obufs.m[id].buffer != [] ==> p.router.obufs.m[id].tokens > 0 || p.side.holding)
            && Calls(WireOf(p.router, id, p.side)) == if StatusOf(p.router, id) == Paused(Busy) then 1 else 0
  {
    hide Run, InitRouter, Step, Identified, SavedBusy, QueuedOnce, Queued, Begins, ReusesQueuedId, Plays, Played, IdOf,
      Calls, NoQueuedReuse, Subscribers, Greeted;
    var s := Run(InitRouter(c), es);
    RunKeepsIdentity(c, es);
    RunKeepsQueue(c, es);
    BeginningPairs(s, e);
    ActsKeep(Pair(Step(s, e), UNBUILT), IdOf(s, e), acts);
  }
}

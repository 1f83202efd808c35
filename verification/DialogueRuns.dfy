// The dialogue of every connection over whole runs of the broker.
module DialogueRuns {
  import opened Types
  import opened Slabs
  import opened DataLogModel
  import opened OutgoingModel
  import opened SchedulerModel
  import opened RouterModel
  import opened Frames
  import opened Identity
  import opened Queue
  import opened ConservationRuns
  import opened Inbound
  import opened Sessions
  import opened Inputs
  import opened Dialogue

  // What has been said on a connection since it was made: the packets that arrived and those taken to be
  // handled, the aliases bound, the acks committed and those put into its buffer.
  datatype History = History(
    arrived: seq<Packet>,
    taken: seq<Packet>,
    bound: seq<Binding>,
    replies: seq<Ack>,
    sent: seq<Ack>)

  // The acks a connection starts with: its ConnAck, and the releases a resumed session still owes.
  function Greeting(id: ConnectionId, session: Option<Session>): seq<Ack> {
    [ConnAck(id, session.Some?)] + (if session.Some? then PubRels(session.value.unackedPubrels) else [])
  }

  function ResumedBy(s: Router, client: ClientId, clean: bool): Option<Session> {
    if clean then None else SavedSession(Dropped(s, client), client)
  }

  predicate Makes(s: Router, e: Event, id: ConnectionId) {
    Admits(s, e) && Dropped(s, e.client).connections.NextKey() == id
  }

  predicate ServesAt(s: Router, id: ConnectionId) {
    s.scheduler.readyqueue != [] && s.scheduler.readyqueue[0] == id && Present(s, id)
  }

  function After(s: Router, e: Event, id: ConnectionId, h: History): History {
    match e
    case EventConnect(client, clean, _) =>
      if Makes(s, e, id) then History([], [], [], Greeting(id, ResumedBy(s, client, clean)), []) else h
    case EventArrive(i, p) => if i == id && id in s.ibufs.m then h.(arrived := h.arrived + [p]) else h
    case EventDeviceData(i) =>
      if i == id && Present(s, id) then
        var b, packets := FirstBatch(s, id), s.ibufs.m[id].buffer;
        h.(taken := h.taken + packets, bound := h.bound + BoundIn(b, id, packets),
           replies := h.replies + Replies(b, id, packets))
      else h
    case EventConsume => if ServesAt(s, id) then h.(sent := h.sent + s.ackslog.m[id].committed) else h
    case _ => h
  }

  function HistoryOf(s: Router, es: seq<Event>, id: ConnectionId): History
    decreases |es|
  {
    if es == [] then History([], [], [], [], [])
    else After(Run(s, es[..|es| - 1]), es[|es| - 1], id, HistoryOf(s, es[..|es| - 1], id))
  }

  ghost predicate Recalls(s: Router, id: ConnectionId, h: History) {
    Present(s, id) ==>
      && h.arrived == h.taken + s.ibufs.m[id].buffer
      && TableIs(s.connections.m[id].topicAliases, h.bound)
      && h.replies == h.sent + s.ackslog.m[id].committed
  }

  // ---------------------------------------------------------------------------------------------
  // Events that say nothing on a connection

  ghost predicate Silent(s: Router, t: Router, id: ConnectionId) {
    Present(t, id) ==>
      && Present(s, id)
      && t.connections.m[id].topicAliases == s.connections.m[id].topicAliases
      && t.ibufs.m[id].buffer == s.ibufs.m[id].buffer
      && t.ackslog.m[id].committed == s.ackslog.m[id].committed
  }

  lemma SilentRecalls(s: Router, t: Router, id: ConnectionId, h: History)
    requires Silent(s, t, id) && Recalls(s, id, h)
    ensures Recalls(t, id, h)
  {
    hide TableIs;
  }

  // No connection has more acks than before, nor others.
  ghost predicate AcksKept(s: Router, t: Router) {
    forall id :: id in t.ackslog.m ==> id in s.ackslog.m && t.ackslog.m[id].committed == s.ackslog.m[id].committed
  }

  lemma SilentIf(s: Router, t: Router, id: ConnectionId)
    requires NothingNew(s, t) && AcksKept(s, t) && Identified(s)
    ensures Silent(s, t, id)
  {
    hide SameStore, Identified;
    IdentifiedPresent(s);
  }

  lemma DisconnectAcks(s: Router, id: ConnectionId)
    ensures AcksKept(s, Disconnect(s, id))
  {
    hide Clean, RewindAll, Retransmissions, ForgetAccounts, Unsubscribed;
  }

  lemma DisconnectSilent(s: Router, gone: ConnectionId, id: ConnectionId)
    requires Identified(s)
    ensures Silent(s, Disconnect(s, gone), id)
  {
    hide Disconnect, NothingNew, AcksKept, Identified, Silent;
    DisconnectBrings(s, gone);
    DisconnectAcks(s, gone);
    SilentIf(s, Disconnect(s, gone), id);
  }

  lemma SilentThen(s: Router, t: Router, u: Router, id: ConnectionId)
    requires Silent(s, t, id) && Silent(t, u, id)
    ensures Silent(s, u, id)
  {
    hide Present;
  }

  // ---------------------------------------------------------------------------------------------
  // Connecting

  lemma AdmitSilent(s: Router, client: ClientId, clean: bool, will: Option<Publish>, id: ConnectionId)
    requires Identified(s) && id != s.connections.NextKey()
    ensures Silent(s, Admit(s, client, clean, will), id)
  {
    hide Identified, PubRels, ForgetAccounts, Scheduler.Reschedule;
    AdmitKeysAgree(s);
    IdentifiedPresent(s);
  }

  lemma AdmitGreets(s: Router, client: ClientId, clean: bool, will: Option<Publish>)
    requires Identified(s)
    ensures var t, id := Admit(s, client, clean, will), s.connections.NextKey();
            && id in t.ibufs.m && t.ibufs.m[id].buffer == []
            && id in t.connections.m && t.connections.m[id].topicAliases == map[]
            && id in t.ackslog.m
              && t.ackslog.m[id].committed == Greeting(id, if clean then None else SavedSession(s, client))
  {
    hide Identified, ForgetAccounts, Scheduler.Reschedule;
    AdmitKeysAgree(s);
    assert PubRels([]) == [];
  }

  lemma ConnectRecalls(s: Router, e: Event, id: ConnectionId, h: History)
    requires Identified(s) && e.EventConnect? && Recalls(s, id, h)
    ensures Recalls(Step(s, e), id, After(s, e, id, h))
  {
    hide Identified, Disconnect, Admit, Silent, Recalls, Greeting, Subscribers, SavedSession;
    var d := Dropped(s, e.client);
    ConnectIsAdmit(s, e.client, e.clean, e.will);
    SilentSelf(s, id);
    if e.client in s.connectionMap {
      DisconnectSilent(s, s.connectionMap[e.client], id);
      DisconnectKeeps(s, s.connectionMap[e.client]);
    }
    SilentRecalls(s, d, id, h);
    DroppedConfig(s, e.client);
    if Admits(s, e) {
      if d.connections.NextKey() == id {
        AdmitGreets(d, e.client, e.clean, e.will);
        Greeted(Step(s, e), id, After(s, e, id, h));
      } else {
        AdmitSilent(d, e.client, e.clean, e.will, id);
        SilentRecalls(d, Step(s, e), id, h);
      }
    }
  }

  lemma SilentSelf(s: Router, id: ConnectionId)
    ensures Silent(s, s, id)
  {
  }

  lemma Greeted(s: Router, id: ConnectionId, h: History)
    requires id in s.ibufs.m && s.ibufs.m[id].buffer == [] && id in s.connections.m && id in s.ackslog.m
    requires s.connections.m[id].topicAliases == map[] && s.ackslog.m[id].committed == h.replies
    requires h.arrived == [] && h.taken == [] && h.bound == [] && h.sent == []
    ensures Recalls(s, id, h)
  {
    forall k: nat, topic: Topic
      ensures !LastBound([], k, topic)
    {
    }
  }

  // ---------------------------------------------------------------------------------------------
  // Packets

  lemma FinishAcks(b: Batch, id: ConnectionId)
    ensures AcksKept(b.r, Finish(b, id))
  {
    hide WakeAll, Disconnect, Scheduler.Reschedule;
    WakeAllFrame(if b.forceAck then Reschedule(b.r, id, FreshData) else b.r);
    DisconnectAcks(Woken(b, id), id);
  }

  lemma FinishSilent(s: Router, who: ConnectionId, id: ConnectionId)
    requires Identified(s) && Present(s, who)
    ensures Silent(HandlePackets(FirstBatch(s, who), who, s.ibufs.m[who].buffer).r, DeviceData(s, who), id)
  {
    hide Identified, HandlePackets, Finish, NothingNew, AcksKept, Silent, SameNames;
    var b := HandlePackets(FirstBatch(s, who), who, s.ibufs.m[who].buffer);
    FinishBrings(b, who);
    FinishAcks(b, who);
    BatchIdentified(s, who);
    SilentIf(b.r, Finish(b, who), id);
  }

  lemma BatchIdentified(s: Router, who: ConnectionId)
    requires Identified(s) && Present(s, who)
    ensures Identified(HandlePackets(FirstBatch(s, who), who, s.ibufs.m[who].buffer).r)
  {
    hide HandlePackets, NamesOk, NamesOf;
    SetIbufSame(s, who, s.ibufs.m[who].(buffer := []));
    HandlePacketsSame(FirstBatch(s, who), who, s.ibufs.m[who].buffer);
  }

  lemma OwnBatchRecalls(s: Router, id: ConnectionId, h: History)
    requires Present(s, id) && Recalls(s, id, h)
    ensures Recalls(HandlePackets(FirstBatch(s, id), id, s.ibufs.m[id].buffer).r, id,
                    After(s, EventDeviceData(id), id, h))
  {
    hide HandlePackets, BoundIn, Replies, TableIs, Rebinds;
    var b, packets := FirstBatch(s, id), s.ibufs.m[id].buffer;
    PacketsTold(b, id, packets);
    var t := HandlePackets(b, id, packets).r;
    var c := s.ackslog.m[id].committed;
    RebindsFrom(s.connections.m[id].topicAliases, t.connections.m[id].topicAliases, BoundIn(b, id, packets), h.bound);
    assert (h.sent + c) + Replies(b, id, packets) == h.sent + (c + Replies(b, id, packets));
    assert (h.taken + packets) + [] == h.taken + packets;
  }

  lemma OtherBatchSilent(s: Router, who: ConnectionId, id: ConnectionId)
    requires Present(s, who) && who != id && Identified(s)
    ensures Silent(s, HandlePackets(FirstBatch(s, who), who, s.ibufs.m[who].buffer).r, id)
  {
    hide HandlePackets, BoundIn, Replies, Rebinds, Identified;
    PacketsTold(FirstBatch(s, who), who, s.ibufs.m[who].buffer);
    assert SameTo(FirstBatch(s, who).r, HandlePackets(FirstBatch(s, who), who, s.ibufs.m[who].buffer).r, id);
    IdentifiedPresent(s);
  }

  lemma DataRecalls(s: Router, who: ConnectionId, id: ConnectionId, h: History)
    requires Identified(s) && Recalls(s, id, h)
    ensures Recalls(DeviceData(s, who), id, After(s, EventDeviceData(who), id, h))
  {
    hide Identified, HandlePackets, Finish, Recalls, Silent, After;
    AfterOthers(s, EventDeviceData(who), id, h);
    if Present(s, who) {
      var t := HandlePackets(FirstBatch(s, who), who, s.ibufs.m[who].buffer).r;
      FinishSilent(s, who, id);
      if who == id {
        OwnBatchRecalls(s, id, h);
      } else {
        OtherBatchSilent(s, who, id);
        SilentRecalls(s, t, id, h);
      }
      SilentRecalls(t, DeviceData(s, who), id, After(s, EventDeviceData(who), id, h));
    }
  }

  lemma AfterOthers(s: Router, e: Event, id: ConnectionId, h: History)
    requires e.EventDeviceData?
    ensures e.id != id || !Present(s, id) ==> After(s, e, id, h) == h
  {
    hide BoundIn, Replies;
  }

  // ---------------------------------------------------------------------------------------------
  // Turns

  lemma ConsumeRecalls(s: Router, id: ConnectionId, h: History)
    requires Identified(s) && Recalls(s, id, h)
    ensures Recalls(Consume(s).0, id, After(s, EventConsume, id, h))
  {
    hide Identified, Consume, NothingNew, TableIs, SendAcks;
    ConsumeBrings(s);
    ConsumeCommitted(s, id);
    IdentifiedPresent(s);
    AliasesOf(s, Consume(s).0, id);
    if ServesAt(s, id) {
      assert (h.sent + s.ackslog.m[id].committed) + [] == h.sent + s.ackslog.m[id].committed;
    }
  }

  lemma AliasesOf(s: Router, t: Router, id: ConnectionId)
    requires NothingNew(s, t)
    ensures id in t.connections.m ==>
              id in s.connections.m && t.connections.m[id].topicAliases == s.connections.m[id].topicAliases
    ensures id in t.ibufs.m ==> id in s.ibufs.m && t.ibufs.m[id].buffer == s.ibufs.m[id].buffer
  {
  }

  lemma ConsumeCommitted(s: Router, id: ConnectionId)
    requires Identified(s)
    ensures id in Consume(s).0.ackslog.m ==>
              && id in s.ackslog.m
              && Consume(s).0.ackslog.m[id].committed == if ServesAt(s, id) then [] else s.ackslog.m[id].committed
  {
    hide ConsumeLoop, DeviceAcks, Scheduler.Rotate, Identified;
    if s.scheduler.readyqueue != [] {
      var k, s1 := s.scheduler.readyqueue[0], s.(scheduler := s.scheduler.Rotate());
      RotatedPresent(s, k);
      if Present(s1, k) {
        ConsumeLoopAcks(SendAcks(s1, k), k, MAX_SCHEDULE_ITERATIONS);
      }
    }
  }

  lemma RotatedPresent(s: Router, id: ConnectionId)
    ensures Present(s.(scheduler := s.scheduler.Rotate()), id) <==> Present(s, id)
  {
  }

  lemma {:induction false} PushForwardsAppends(o: Outgoing, ps: seq<Item>, qos: QoS, idx: FilterIdx)
    ensures o.buffer <= o.PushForwards(ps, qos, idx).buffer
    decreases |ps|
  {
    if ps != [] {
      PushForwardsAppends(o, ps[..|ps| - 1], qos, idx);
    }
  }

  lemma ForwardAppends(dl: DataLog, o: Outgoing, r: DataRequest)
    ensures o.buffer <= ForwardData(dl, o, r).0.buffer
  {
    hide Pull, RetainedItems, LogItems, Outgoing.PushForwards;
    PushForwardsAppends(o, RetainedItems(dl, r, Slots(dl, o, r)) + LogItems(Pull(dl, o, r).entries), r.qos,
                        r.filterIdx);
  }

  lemma {:induction false} ConsumeLoopAppends(s: Router, id: ConnectionId, n: nat)
    requires Present(s, id)
    ensures Present(ConsumeLoop(s, id, n), id) && s.obufs.m[id].buffer <= ConsumeLoop(s, id, n).obufs.m[id].buffer
    decreases n
  {
    hide ConsumeOne, Scheduler.Pause, ForwardData, Skip, SameSubscriptions;
    ConsumeLoopSame(s, id, n);
    LoopPresent(s, ConsumeLoop(s, id, n), id);
    if n > 0 && s.scheduler.trackers.m[id].requests != [] {
      ConsumeOneSame(s, id);
      LoopPresent(s, ConsumeOne(s, id).0, id);
      ConsumeOneShape(s, id);
      ForwardAppends(s.datalog, s.obufs.m[id], s.scheduler.trackers.m[id].requests[0]);
      if ConsumeOne(s, id).1 {
        ConsumeLoopAppends(ConsumeOne(s, id).0, id, n - 1);
      }
    }
  }

  lemma LoopPresent(s: Router, t: Router, id: ConnectionId)
    requires SameSubscriptions(s, t) && Present(s, id)
    ensures Present(t, id)
  {
    hide SameNames;
    SameNamesPresent(s, t);
  }

  lemma SendAcksPuts(s: Router, id: ConnectionId)
    requires Present(s, id)
    ensures var t, acks := SendAcks(s, id), s.ackslog.m[id].committed;
            && Present(t, id) && t.ackslog.m[id].committed == []
            && t.obufs.m[id].buffer ==
               s.obufs.m[id].buffer + seq(|acks|, i requires 0 <= i < |acks| => DeviceAck(acks[i]))
  {
  }

  // The turn in which a connection is served puts all its acks behind what is in its buffer, in order, and
  // in front of whatever else the turn sends.
  lemma TurnSendsAcks(s: Router, id: ConnectionId)
    requires ServesAt(s, id)
    ensures var t, acks := Consume(s).0, s.ackslog.m[id].committed;
            var sent := seq(|acks|, i requires 0 <= i < |acks| => DeviceAck(acks[i]));
            && Present(t, id) && t.ackslog.m[id].committed == []
            && s.obufs.m[id].buffer + sent <= t.obufs.m[id].buffer
  {
    hide ConsumeLoop, Scheduler.Rotate, SendAcks;
    var s1 := s.(scheduler := s.scheduler.Rotate());
    RotatedPresent(s, id);
    SendAcksPuts(s1, id);
    ConsumeLoopAppends(SendAcks(s1, id), id, MAX_SCHEDULE_ITERATIONS);
    ConsumeLoopAcks(SendAcks(s1, id), id, MAX_SCHEDULE_ITERATIONS);
  }

  // ---------------------------------------------------------------------------------------------
  // Runs

  lemma OtherRecalls(s: Router, e: Event, id: ConnectionId, h: History)
    requires Identified(s) && Recalls(s, id, h)
             && (e.EventDisconnect? || e.EventPublishWill? || e.EventReady? || e.EventExchange?)
    ensures Recalls(Step(s, e), id, h)
  {
    hide Identified, Disconnect, WakeAll, AcceptPublish, Scheduler.Reschedule, Recalls, NothingNew, AcksKept, Silent;
    match e {
      case EventDisconnect(gone) => DisconnectSilent(s, gone, id);
      case EventPublishWill(client) => WillSilent(s, client, id);
      case EventReady(i) =>
        RescheduleBrings(s, i, LinkReady);
        SameAcksKept(s, Step(s, e));
        SilentIf(s, Step(s, e), id);
      case EventExchange(i) =>
        ExchangeBrings(s, i);
        SameAcksKept(s, Step(s, e));
        SilentIf(s, Step(s, e), id);
    }
    SilentRecalls(s, Step(s, e), id, h);
  }

  lemma SameAcksKept(s: Router, t: Router)
    requires t.ackslog == s.ackslog
    ensures AcksKept(s, t)
  {
  }

  lemma WillSilent(s: Router, client: ClientId, id: ConnectionId)
    requires Identified(s)
    ensures Silent(s, PublishWill(s, client), id)
  {
    hide WakeAll, Accept, Identified;
    IdentifiedPresent(s);
    if client in s.lastWills {
      WakeAllFrame(AcceptPublish(s.(lastWills := s.lastWills - {client}), s.lastWills[client]));
    }
  }

  lemma ArriveRecalls(s: Router, i: ConnectionId, p: Packet, id: ConnectionId, h: History)
    requires Recalls(s, id, h)
    ensures Recalls(Arrive(s, i, p), id, After(s, EventArrive(i, p), id, h))
  {
    hide TableIs;
    if i == id && id in s.ibufs.m {
      assert (h.taken + s.ibufs.m[id].buffer) + [p] == h.taken + (s.ibufs.m[id].buffer + [p]);
    }
  }

  // In every run, for every connection: its packets are taken in the order they arrived, and those not yet
  // taken wait in its buffer; an alias stands for the topic of its last binding, and for none without one;
  // the acks put into its send buffer, followed by those to be put there, are its greeting and the acks of
  // its packets, in order.
  lemma {:induction false} DialogueInEveryRun(c: Config, es: seq<Event>, id: ConnectionId)
    ensures Recalls(Run(InitRouter(c), es), id, HistoryOf(InitRouter(c), es, id))
    decreases |es|
  {
    hide Step, InitRouter, Recalls, Identified, Subscribers, After;
    if es == [] {
      NothingSaid(c, id);
    } else {
      var before, e := es[..|es| - 1], es[|es| - 1];
      var s, h := Run(InitRouter(c), before), HistoryOf(InitRouter(c), before, id);
      DialogueInEveryRun(c, before, id);
      RunKeepsIdentity(c, before);
      StepRecalls(s, e, id, h);
    }
  }

  lemma StepRecalls(s: Router, e: Event, id: ConnectionId, h: History)
    requires Identified(s) && Recalls(s, id, h)
    ensures Recalls(Step(s, e), id, After(s, e, id, h))
  {
    hide Connect, DeviceData, Disconnect, PublishWill, Consume, Arrive, Recalls, Identified, Makes, BoundIn, Replies;
    match e {
      case EventConnect(_, _, _) => ConnectRecalls(s, e, id, h);
      case EventArrive(i, p) => ArriveRecalls(s, i, p, id, h);
      case EventDeviceData(who) => DataRecalls(s, who, id, h);
      case EventConsume => ConsumeRecalls(s, id, h);
      case _ => OtherRecalls(s, e, id, h);
    }
  }

  lemma NothingSaid(c: Config, id: ConnectionId)
    ensures Recalls(InitRouter(c), id, HistoryOf(InitRouter(c), [], id))
  {
  }
}

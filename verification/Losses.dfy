// The two ways an entry is lost to a subscription: it is evicted before it is read, or dropped by an
// acknowledgement for another packet. Exactly when either happens in a run, and what a subscriber to
// whom neither happens is owed.
module Losses {
  import opened Types
  import opened DataLogModel
  import opened OutgoingModel
  import opened SchedulerModel
  import opened RouterModel
  import opened Frames
  import opened Flights
  import opened Window
  import opened Identity
  import opened Requests
  import opened RequestRuns
  import opened Conservation
  import opened ConservationRuns
  import opened Delivery
  import opened DeliveryRuns
  import opened AtLeastOnce
  import opened Missed

  // Nothing evicted unread, or dropped by an acknowledgement, since the subscription began.
  ghost predicate MissedNone(a: Account) {
    forall o: nat :: o in a.missed ==> o < a.start
  }

  ghost predicate DroppedNone(a: Account) {
    forall o: nat :: o in a.dropped ==> o < a.start
  }

  // The account of a subscription is what it was, if there still is one.
  ghost predicate Kept(a: map<AccountKey, Account>, b: map<AccountKey, Account>, k: AccountKey) {
    k in b ==> k in a && b[k] == a[k]
  }

  // ---------------------------------------------------------------------------------------------
  // Packets

  // Between two states the client has subscribed to the filter anew.
  predicate Anew(s: Router, t: Router, id: ConnectionId, k: AccountKey) {
    && Present(s, id) && Present(t, id) && s.connections.m[id].clientId == k.0
    && k.1 !in s.connections.m[id].subscriptions && k.1 in t.connections.m[id].subscriptions
  }

  // An operation starts the account afresh if it subscribes anew, and leaves it alone otherwise.
  ghost predicate AnewOrKept(s: Router, t: Router, id: ConnectionId, k: AccountKey) {
    if Anew(s, t, id, k) then k in t.accounts ==> t.accounts[k].missed == {} && t.accounts[k].dropped == {}
    else Kept(s.accounts, t.accounts, k)
  }

  lemma SubscribeOneAnewOrKept(s: Router, id: ConnectionId, path: Filter, qos: QoS, k: AccountKey)
    requires Present(s, id)
    ensures var t := SubscribeOne(s, id, path, qos);
            && Present(t, id) && AnewOrKept(s, t, id, k)
            && s.connections.m[id].subscriptions <= t.connections.m[id].subscriptions
            && t.connections.m[id].clientId == s.connections.m[id].clientId
  {
    hide SubscribeOne, NewRequest, Register;
    if path in s.connections.m[id].subscriptions {
      ResubscribeIs(s, id, path, qos);
    } else {
      SubscribeOneIs(s, id, path, qos);
    }
  }

  lemma ResubscribeIs(s: Router, id: ConnectionId, path: Filter, qos: QoS)
    requires Present(s, id) && path in s.connections.m[id].subscriptions
    ensures var t := SubscribeOne(s, id, path, qos);
            && Present(t, id) && t.accounts == s.accounts && t.connections == s.connections
  {
    hide Register, IndexOf, AddSubscriber;
  }

  lemma {:induction false} SubscribeAllAnewOrKept(b: Batch, id: ConnectionId, filters: seq<(Filter, QoS)>,
                                                  subId: Option<nat>, k: AccountKey)
    requires Present(b.r, id)
    ensures var c := SubscribeAll(b, id, filters, subId).0;
            && Present(c.r, id) && AnewOrKept(b.r, c.r, id, k)
            && b.r.connections.m[id].subscriptions <= c.r.connections.m[id].subscriptions
            && c.r.connections.m[id].clientId == b.r.connections.m[id].clientId
    decreases |filters|
  {
    hide SubscribeOne;
    if filters != [] && !RefusedFilter(filters[0].0) && subId != Some(0) {
      SubscribeOneAnewOrKept(b.r, id, filters[0].0, filters[0].1, k);
      SubscribeAllAnewOrKept(b.(r := SubscribeOne(b.r, id, filters[0].0, filters[0].1)), id, filters[1..], subId, k);
    }
  }

  // Fewer subscriptions and accounts; those that stay are as they were.
  ghost predicate OnlyFewer(s: Router, t: Router, id: ConnectionId, k: AccountKey) {
    && Present(s, id) && Present(t, id) && Kept(s.accounts, t.accounts, k)
    && t.connections.m[id].subscriptions <= s.connections.m[id].subscriptions
  }

  lemma UnsubscribeOneFewer(b: Batch, id: ConnectionId, pkid: nat, path: Filter, k: AccountKey)
    requires Present(b.r, id)
    ensures OnlyFewer(b.r, UnsubscribeOne(b, id, pkid, path).r, id, k)
  {
    hide Leave, LocalTo;
    if path in b.r.subscriptionMap {
      LeaveLocal(b.r.(subscriptionMap := b.r.subscriptionMap[path := b.r.subscriptionMap[path] - {id}]), id, path);
      LeaveStays(b.r.(subscriptionMap := b.r.subscriptionMap[path := b.r.subscriptionMap[path] - {id}]), id, path);
    }
  }

  lemma LeaveStays(s: Router, id: ConnectionId, path: Filter)
    requires Present(s, id)
    ensures Present(Leave(s, id, path), id)
  {
    hide Leave, SameNames;
    LeaveSame(s, id, path);
  }

  lemma {:induction false} UnsubscribeAllFewer(b: Batch, id: ConnectionId, pkid: nat, paths: seq<Filter>, k: AccountKey)
    requires Present(b.r, id)
    ensures OnlyFewer(b.r, UnsubscribeAll(b, id, pkid, paths).r, id, k)
    decreases |paths|
  {
    hide UnsubscribeOne, Present;
    if paths != [] {
      UnsubscribeOneFewer(b, id, pkid, paths[0], k);
      UnsubscribeAllFewer(UnsubscribeOne(b, id, pkid, paths[0]), id, pkid, paths[1..], k);
    }
  }

  lemma AppendFewer(b: Batch, id: ConnectionId, p: Publish, props: Props, report: bool, k: AccountKey)
    requires Present(b.r, id)
    ensures OnlyFewer(b.r, AppendToCommitlog(b, id, p, props, report).r, id, k)
  {
    hide Resolve, Accept;
  }

  lemma HandlePublishFewer(b: Batch, id: ConnectionId, p: Publish, props: Props, k: AccountKey)
    requires Present(b.r, id)
    ensures OnlyFewer(b.r, HandlePublish(b, id, p, props).r, id, k)
  {
    hide AppendToCommitlog;
    match p.qos {
      case ExactlyOnce =>
      case AtLeastOnce => AppendFewer(b.(r := Commit(b.r, id, PubAck(p.pkid)), forceAck := true), id, p, props, true,
                                      k);
      case AtMostOnce => AppendFewer(b, id, p, props, true, k);
    }
  }

  lemma HandlePubRelFewer(b: Batch, id: ConnectionId, pkid: nat, k: AccountKey)
    requires Present(b.r, id)
    ensures OnlyFewer(b.r, HandlePubRel(b, id, pkid).r, id, k)
  {
    hide AppendToCommitlog;
    var a := b.r.ackslog.m[id].Release(pkid);
    var b1 := b.(r := b.r.(ackslog := b.r.ackslog.Set(id, a.0)));
    if a.1.Some? {
      AppendFewer(b1, id, a.1.value.0, a.1.value.1, false, k);
    }
  }

  // The client acknowledges, but not the packet at the head of its window, which is an entry of the
  // subscription.
  predicate Drops(s: Router, id: ConnectionId, p: Packet, k: AccountKey) {
    && (p.PacketPubAck? || p.PacketPubRec?) && Present(s, id) && k.0 == s.connections.m[id].clientId && k in s.accounts
    && var q := s.obufs.m[id].inflight;
       && q != [] && q[0].pkid != p.pkid && CameFrom(s.datalog, q[0], k.1)
       && s.accounts[k].start <= q[0].cursor.value.offset
  }

  // What it drops then stays dropped, and nothing else is.
  ghost predicate Booked(s: Router, t: Router, dropped: bool, k: AccountKey) {
    k in t.accounts ==>
      && k in s.accounts && t.accounts[k].start == s.accounts[k].start && t.accounts[k].missed == s.accounts[k].missed
      && s.accounts[k].dropped <= t.accounts[k].dropped
      && (DroppedNone(t.accounts[k]) <==> DroppedNone(s.accounts[k]) && !dropped)
  }

  lemma SettleBooked(s: Router, t: Router, id: ConnectionId, p: Packet, k: AccountKey)
    requires Present(s, id) && (p.PacketPubAck? || p.PacketPubRec?) && t.accounts == Settle(s, id, p.pkid)
    ensures Booked(s, t, Drops(s, id, p, k), k)
  {
    if Drops(s, id, p, k) {
      assert s.obufs.m[id].inflight[0].cursor.value.offset in t.accounts[k].dropped;
    }
  }

  lemma AckParts(b: Batch, id: ConnectionId, p: Packet)
    requires Present(b.r, id) && (p.PacketPubAck? || p.PacketPubRec?)
    ensures var t := HandlePacket(b, id, p).r;
            t.accounts == RegisterAck(b.r, id, p.pkid).accounts && t.connections == b.r.connections
  {
    hide RegisterAck, Outgoing.RegisterAck, Outgoing.RegisterPubRec, Scheduler.Reschedule, AckLog.Commit;
    RegisterAckFrame(b.r, id, p.pkid);
  }

  lemma AckSettles(s: Router, id: ConnectionId, pkid: nat)
    requires Present(s, id)
    ensures RegisterAck(s, id, pkid).accounts == Settle(s, id, pkid)
  {
    hide Settle, Outgoing.RegisterAck;
  }

  lemma HandleAcksBooked(b: Batch, id: ConnectionId, p: Packet, k: AccountKey)
    requires Present(b.r, id) && (p.PacketPubAck? || p.PacketPubRec?)
    ensures var t := HandlePacket(b, id, p).r;
            Booked(b.r, t, Drops(b.r, id, p, k), k) && t.connections == b.r.connections
  {
    hide HandlePacket, RegisterAck, Settle, Booked, Drops;
    AckParts(b, id, p);
    AckSettles(b.r, id, p.pkid);
    SettleBooked(b.r, HandlePacket(b, id, p).r, id, p, k);
  }

  lemma QuietFewer(b: Batch, id: ConnectionId, p: Packet, k: AccountKey)
    requires Present(b.r, id) && (p.PacketPubComp? || p.PacketPingReq? || p.PacketDisconnect? || p.PacketOther?)
    ensures OnlyFewer(b.r, HandlePacket(b, id, p).r, id, k)
  {
    hide SubscribeAll, UnsubscribeAll, HandlePublish, HandlePubAck, HandlePubRec, HandlePubRel,
      Outgoing.RegisterPubComp;
  }

  lemma FewerAnewOrKept(s: Router, t: Router, id: ConnectionId, k: AccountKey)
    requires OnlyFewer(s, t, id, k)
    ensures AnewOrKept(s, t, id, k)
  {
  }

  lemma OtherPacketAnewOrKept(b: Batch, id: ConnectionId, p: Packet, k: AccountKey)
    requires Present(b.r, id) && !p.PacketPubAck? && !p.PacketPubRec?
    ensures AnewOrKept(b.r, HandlePacket(b, id, p).r, id, k)
  {
    hide SubscribeAll, UnsubscribeAll, HandlePublish, HandlePubAck, HandlePubRec, HandlePubRel, HandlePubComp,
      AnewOrKept, OnlyFewer, Kept;
    match p {
      case PacketPublish(publish, props) =>
        HandlePublishFewer(b, id, publish, props, k);
        FewerAnewOrKept(b.r, HandlePacket(b, id, p).r, id, k);
      case PacketSubscribe(pkid, filters, subId) => SubscribeAnewOrKept(b, id, p, k);
      case PacketUnsubscribe(pkid, paths) =>
        UnsubscribeAllFewer(b, id, pkid, paths, k);
        FewerAnewOrKept(b.r, HandlePacket(b, id, p).r, id, k);
      case PacketPubRel(pkid, hasProps) =>
        HandlePubRelFewer(b, id, pkid, k);
        FewerRefl(b.r, id, k);
        FewerAnewOrKept(b.r, HandlePacket(b, id, p).r, id, k);
      case _ =>
        QuietFewer(b, id, p, k);
        FewerAnewOrKept(b.r, HandlePacket(b, id, p).r, id, k);
    }
  }

  lemma FewerRefl(s: Router, id: ConnectionId, k: AccountKey)
    requires Present(s, id)
    ensures OnlyFewer(s, s, id, k)
  {
  }

  lemma SubscribeAnewOrKept(b: Batch, id: ConnectionId, p: Packet, k: AccountKey)
    requires Present(b.r, id) && p.PacketSubscribe?
    ensures AnewOrKept(b.r, HandlePacket(b, id, p).r, id, k)
  {
    hide SubscribeAll;
    SubscribeAllAnewOrKept(b, id, p.filters, p.subscriptionId, k);
  }

  lemma KeptBooked(s: Router, t: Router, k: AccountKey)
    requires Kept(s.accounts, t.accounts, k)
    ensures Booked(s, t, false, k)
  {
  }

  // One packet, whichever it is.
  lemma HandlePacketBooked(b: Batch, id: ConnectionId, p: Packet, k: AccountKey)
    requires Present(b.r, id)
    ensures var t := HandlePacket(b, id, p).r;
            if Anew(b.r, t, id, k) then !Drops(b.r, id, p, k)
              && (k in t.accounts ==> t.accounts[k].missed == {} && t.accounts[k].dropped == {})
            else Booked(b.r, t, Drops(b.r, id, p, k), k)
  {
    hide HandlePacket, Booked, Kept;
    HandlePacketSame(b, id, p);
    if p.PacketPubAck? || p.PacketPubRec? {
      HandleAcksBooked(b, id, p, k);
    } else {
      OtherPacketAnewOrKept(b, id, p, k);
      if !Anew(b.r, HandlePacket(b, id, p).r, id, k) {
        KeptBooked(b.r, HandlePacket(b, id, p).r, k);
      }
    }
  }

  // Some packet of a batch subscribes to the filter anew.
  ghost predicate RenewsIn(b: Batch, id: ConnectionId, packets: seq<Packet>, k: AccountKey)
    decreases |packets|
  {
    && packets != [] && !b.stop && Present(b.r, id)
    && (Anew(b.r, HandlePacket(b, id, packets[0]).r, id, k)
        || RenewsIn(HandlePacket(b, id, packets[0]), id, packets[1..], k))
  }

  // Whether nothing of the subscription has been dropped after a batch, by what was before it.
  ghost predicate InLineIn(b: Batch, id: ConnectionId, packets: seq<Packet>, k: AccountKey, before: bool)
    decreases |packets|
  {
    if packets == [] || b.stop || !Present(b.r, id) then before
    else
      var c := HandlePacket(b, id, packets[0]);
      InLineIn(c, id, packets[1..], k, (before || Anew(b.r, c.r, id, k)) && !Drops(b.r, id, packets[0], k))
  }

  // An account as it was, but for what has been acknowledged or dropped.
  ghost predicate Follows(a: map<AccountKey, Account>, b: map<AccountKey, Account>, k: AccountKey) {
    k in b ==> k in a && b[k].start == a[k].start && b[k].missed == a[k].missed && a[k].dropped <= b[k].dropped
  }

  lemma {:induction false} HandlePacketsBooked(b: Batch, id: ConnectionId, packets: seq<Packet>, k: AccountKey,
                                               before: bool)
    requires k in b.r.accounts ==> (DroppedNone(b.r.accounts[k]) <==> before)
    ensures var t := HandlePackets(b, id, packets).r;
            && (if RenewsIn(b, id, packets, k) then k in t.accounts ==> t.accounts[k].missed == {}
                else Follows(b.r.accounts, t.accounts, k))
            && (k in t.accounts ==> (DroppedNone(t.accounts[k]) <==> InLineIn(b, id, packets, k, before)))
    decreases |packets|
  {
    hide HandlePacket, Anew, Drops;
    if packets != [] && !b.stop && Present(b.r, id) {
      var c := HandlePacket(b, id, packets[0]);
      HandlePacketBooked(b, id, packets[0], k);
      HandlePacketsBooked(c, id, packets[1..], k, (before || Anew(b.r, c.r, id, k)) && !Drops(b.r, id, packets[0], k));
    }
  }

  // ---------------------------------------------------------------------------------------------
  // Sweeps

  // The next sweep of a connection reads the subscription's log, and finds that entries it has yet
  // to read since the subscription began are gone.
  ghost predicate Overtakes(s: Router, id: ConnectionId, k: AccountKey)
    requires Present(s, id) && s.scheduler.trackers.m[id].requests != []
  {
    var r := s.scheduler.trackers.m[id].requests[0];
    && k == (s.connections.m[id].clientId, r.filter) && k in s.accounts
    && (r.qos == AtMostOnce || s.obufs.m[id].FreeSlots() > 0)
    && r.cursor.offset < HeldFrom(s.datalog, r.filter) && s.accounts[k].start < HeldFrom(s.datalog, r.filter)
  }

  lemma ConsumeOneMisses(s: Router, id: ConnectionId, k: AccountKey)
    requires Present(s, id) && s.scheduler.trackers.m[id].requests != [] && RequestsOk(s)
    ensures var t := ConsumeOne(s, id).0;
            && (k in t.accounts <==> k in s.accounts)
            && (k in s.accounts ==>
                  t.accounts[k].start == s.accounts[k].start && t.accounts[k].dropped == s.accounts[k].dropped)
            && (k in s.accounts ==> (MissedNone(t.accounts[k]) <==> MissedNone(s.accounts[k]) && !Overtakes(s, id, k)))
  {
    hide ConsumeOne, ForwardData, Skip, RequestsOk, HeldFrom, SameAccount, Outgoing.FreeSlots;
    var r := s.scheduler.trackers.m[id].requests[0];
    ConsumeOneShape(s, id);
    ForwardReads(s.datalog, s.obufs.m[id], r);
    TrackedAt(s, id);
    SkipAdds(s, id, r);
    SkipOnly(s, id, r, k);
    SameAccountIs(s.accounts, Skip(s, id, r), k);
    if k in s.accounts && Overtakes(s, id, k) {
      var o := if r.cursor.offset <= s.accounts[k].start then s.accounts[k].start else r.cursor.offset;
      assert o in Skip(s, id, r)[k].missed;
    }
  }

  lemma ForwardReads(dl: DataLog, o: Outgoing, r: DataRequest)
    ensures ForwardData(dl, o, r).2 == ConsumeStatus.InflightFull <==> r.qos != AtMostOnce && o.FreeSlots() == 0
  {
    hide Pull, RetainedItems, LogItems, Outgoing.PushForwards, Outgoing.FreeSlots;
  }

  // No sweep of one turn is overtaken.
  ghost predicate KeepsUp(s: Router, id: ConnectionId, n: nat, k: AccountKey)
    decreases n
  {
    n == 0 || !Present(s, id) || s.scheduler.trackers.m[id].requests == [] ||
    (!Overtakes(s, id, k) && (ConsumeOne(s, id).1 ==> KeepsUp(ConsumeOne(s, id).0, id, n - 1, k)))
  }

  lemma {:induction false} ConsumeLoopMisses(s: Router, id: ConnectionId, n: nat, k: AccountKey)
    requires RequestsOk(s) && Windows(s.obufs)
    ensures var t := ConsumeLoop(s, id, n);
            && (k in t.accounts <==> k in s.accounts)
            && (k in s.accounts ==>
                  t.accounts[k].start == s.accounts[k].start && t.accounts[k].dropped == s.accounts[k].dropped)
            && (k in s.accounts ==> (MissedNone(t.accounts[k]) <==> MissedNone(s.accounts[k]) && KeepsUp(s, id, n, k)))
    decreases n
  {
    hide ConsumeOne, RequestsOk, WindowOk, Windows, Scheduler.Pause, Overtakes, MissedNone;
    if n > 0 && Present(s, id) && s.scheduler.trackers.m[id].requests != [] {
      WindowsAt(s.obufs, id);
      ConsumeOneRequests(s, id);
      ConsumeOneWindow(s, id);
      ConsumeOneMisses(s, id, k);
      if ConsumeOne(s, id).1 {
        ConsumeLoopMisses(ConsumeOne(s, id).0, id, n - 1, k);
      }
    }
  }

  // ---------------------------------------------------------------------------------------------
  // Events

  ghost predicate RenewedAt(s: Router, e: Event, k: AccountKey) {
    e.EventDeviceData? && Present(s, e.id) && RenewsIn(FirstBatch(s, e.id), e.id, s.ibufs.m[e.id].buffer, k)
  }

  // The state a turn of the queue sweeps, for the connection at its front.
  function TurnOf(s: Router): Router {
    var s1 := s.(scheduler := s.scheduler.Rotate());
    if s.scheduler.readyqueue != []
      && Present(s1, s.scheduler.readyqueue[0]) then SendAcks(s1, s.scheduler.readyqueue[0]) else s1
  }

  ghost predicate OvertakenAt(s: Router, e: Event, k: AccountKey) {
    && e.EventConsume? && s.scheduler.readyqueue != []
    && !KeepsUp(TurnOf(s), s.scheduler.readyqueue[0], MAX_SCHEDULE_ITERATIONS, k)
  }

  lemma ConsumeMisses(s: Router, k: AccountKey)
    requires RequestsOk(s) && Windows(s.obufs)
    ensures var t := Consume(s).0;
            && (k in t.accounts <==> k in s.accounts)
            && (k in s.accounts ==>
                  t.accounts[k].start == s.accounts[k].start && t.accounts[k].dropped == s.accounts[k].dropped)
            && (k in s.accounts ==>
                  (MissedNone(t.accounts[k]) <==> MissedNone(s.accounts[k]) && !OvertakenAt(s, EventConsume, k)))
  {
    hide RequestsOk, ConsumeLoop, KeepsUp, Windows, Scheduler.Rotate, DeviceAcks, MissedNone;
    if s.scheduler.readyqueue != [] {
      var id := s.scheduler.readyqueue[0];
      var s1 := s.(scheduler := s.scheduler.Rotate());
      RotateFrame(s);
      RequestsFrame(s, s1);
      if Present(s1, id) {
        SendAcksRequests(s1, id);
        ConsumeLoopMisses(SendAcks(s1, id), id, MAX_SCHEDULE_ITERATIONS, k);
      } else {
        AbsentKeepsUp(s1, id, k);
      }
    }
  }

  lemma AbsentKeepsUp(s: Router, id: ConnectionId, k: AccountKey)
    requires !Present(s, id)
    ensures KeepsUp(s, id, MAX_SCHEDULE_ITERATIONS, k)
  {
  }

  lemma DisconnectKept(s: Router, id: ConnectionId, k: AccountKey)
    ensures Kept(s.accounts, Disconnect(s, id).accounts, k)
  {
    hide Clean, RewindAll, Retransmissions, Unsubscribed;
  }

  lemma ConnectKept(s: Router, client: ClientId, clean: bool, will: Option<Publish>, k: AccountKey)
    ensures Kept(s.accounts, Connect(s, client, clean, will).accounts, k)
  {
    hide Disconnect, PubRels, Scheduler.Reschedule, SavedSession;
    if client in s.connectionMap {
      DisconnectKept(s, s.connectionMap[client], k);
    }
  }

  lemma PublishWillKept(s: Router, client: ClientId, k: AccountKey)
    ensures Kept(s.accounts, PublishWill(s, client).accounts, k)
  {
    hide WakeAll, Accept;
    if client in s.lastWills {
      WakeAllFrame(AcceptPublish(s.(lastWills := s.lastWills - {client}), s.lastWills[client]));
    }
  }

  ghost predicate InLineAt(s: Router, e: Event, k: AccountKey, before: bool) {
    if e.EventDeviceData?
      && Present(s, e.id) then InLineIn(FirstBatch(s, e.id), e.id, s.ibufs.m[e.id].buffer, k, before) else before
  }

  // What an event does to one account: which entries were missed, which dropped.
  ghost predicate Audited(s: Router, t: Router, e: Event, k: AccountKey, before: bool) {
    k in t.accounts ==>
      && (if RenewedAt(s, e, k) then t.accounts[k].missed == {}
          else
            && k in s.accounts && t.accounts[k].start == s.accounts[k].start
              && s.accounts[k].dropped <= t.accounts[k].dropped
            && (MissedNone(t.accounts[k]) <==> MissedNone(s.accounts[k]) && !OvertakenAt(s, e, k)))
      && (DroppedNone(t.accounts[k]) <==> InLineAt(s, e, k, before))
  }

  lemma FinishKept(b: Batch, id: ConnectionId, k: AccountKey)
    ensures Kept(b.r.accounts, Finish(b, id).accounts, k)
  {
    hide WakeAll, Scheduler.Reschedule, Disconnect;
    WakeAllFrame(if b.forceAck then Reschedule(b.r, id, FreshData) else b.r);
    DisconnectKept(Woken(b, id), id, k);
  }

  lemma DeviceDataAudited(s: Router, id: ConnectionId, k: AccountKey, before: bool)
    requires k in s.accounts ==> (DroppedNone(s.accounts[k]) <==> before)
    ensures Audited(s, DeviceData(s, id), EventDeviceData(id), k, before)
  {
    hide HandlePackets, RenewsIn, InLineIn, Finish;
    if Present(s, id) {
      HandlePacketsBooked(FirstBatch(s, id), id, s.ibufs.m[id].buffer, k, before);
      FinishKept(HandlePackets(FirstBatch(s, id), id, s.ibufs.m[id].buffer), id, k);
    }
  }

  lemma KeptAudited(s: Router, t: Router, e: Event, k: AccountKey, before: bool)
    requires Kept(s.accounts, t.accounts, k) && !e.EventDeviceData? && !e.EventConsume?
    requires k in s.accounts ==> (DroppedNone(s.accounts[k]) <==> before)
    ensures Audited(s, t, e, k, before)
  {
    hide RenewsIn, InLineIn;
  }

  lemma StepAudited(s: Router, e: Event, k: AccountKey, before: bool)
    requires RequestsOk(s) && Windows(s.obufs)
    requires k in s.accounts ==> (DroppedNone(s.accounts[k]) <==> before)
    ensures Audited(s, Step(s, e), e, k, before)
  {
    hide RequestsOk, Windows, Connect, DeviceData, Disconnect, PublishWill, Consume, Scheduler.Reschedule, RenewsIn,
      InLineIn, KeepsUp, TurnOf, Audited, MissedNone;
    match e {
      case EventConnect(client, clean, will) => ConnectKept(s, client, clean, will, k);
      case EventDeviceData(id) => DeviceDataAudited(s, id, k, before);
      case EventDisconnect(id) => DisconnectKept(s, id, k);
      case EventPublishWill(client) => PublishWillKept(s, client, k);
      case EventConsume => ConsumeAudited(s, k, before);
      case _ =>
    }
    if !e.EventDeviceData? && !e.EventConsume? {
      KeptAudited(s, Step(s, e), e, k, before);
    }
  }

  lemma ConsumeAudited(s: Router, k: AccountKey, before: bool)
    requires RequestsOk(s) && Windows(s.obufs)
    requires k in s.accounts ==> (DroppedNone(s.accounts[k]) <==> before)
    ensures Audited(s, Consume(s).0, EventConsume, k, before)
  {
    hide RequestsOk, Windows, Consume, KeepsUp, TurnOf, MissedNone;
    ConsumeMisses(s, k);
  }

  // Since the subscription began, no sweep of it found its cursor evicted.
  ghost predicate KeptUp(s: Router, es: seq<Event>, k: AccountKey)
    decreases |es|
  {
    es == [] ||
    var t, e := Run(s, es[..|es| - 1]), es[|es| - 1];
    (RenewedAt(t, e, k) || KeptUp(s, es[..|es| - 1], k)) && !OvertakenAt(t, e, k)
  }

  // Since the subscription began, no acknowledgement for another packet found one of its entries at
  // the head of the window.
  ghost predicate InLine(s: Router, es: seq<Event>, k: AccountKey)
    decreases |es|
  {
    es == [] || InLineAt(Run(s, es[..|es| - 1]), es[|es| - 1], k, InLine(s, es[..|es| - 1], k))
  }

  // Exactly then has nothing been missed, and nothing dropped.
  lemma {:induction false} LossesExactly(c: Config, es: seq<Event>, k: AccountKey)
    requires ConfigOk(c)
    ensures var accounts := Run(InitRouter(c), es).accounts;
            k in accounts ==>
              && (MissedNone(accounts[k]) <==> KeptUp(InitRouter(c), es, k))
              && (DroppedNone(accounts[k]) <==> InLine(InitRouter(c), es, k))
    decreases |es|
  {
    hide Step, RequestsOk, Windows, RenewsIn, InLineAt, KeepsUp, TurnOf, DroppedNone;
    if es != [] {
      var before := es[..|es| - 1];
      var t := Run(InitRouter(c), before);
      RunKeepsRequests(c, before);
      RunKeepsWindows(c, before);
      LossesExactly(c, before, k);
      StepAudited(t, es[|es| - 1], k, InLine(InitRouter(c), before, k));
    }
  }

  // ---------------------------------------------------------------------------------------------
  // At-least-once, without exceptions

  // Acknowledged offsets reach up to the first unacknowledged one, and the offsets in flight are
  // exactly the contiguous range from there to the position of the request.
  ghost predicate ExactlyContiguous(s: Router, id: ConnectionId, r: DataRequest)
    requires Present(s, id)
  {
    var k, q, first := (s.connections.m[id].clientId, r.filter), s.obufs.m[id].inflight, Unacked(s, id, r);
    && k in s.accounts
    && (forall o: nat :: s.accounts[k].start <= o < first ==> o in s.accounts[k].acked)
    && (forall o: nat :: s.accounts[k].start <= o ==> (Flies(q, r.filterIdx, o) <==> first <= o < r.cursor.offset))
  }

  // A QoS 1 or 2 request of a subscription.
  ghost predicate Reliable(s: Router, id: ConnectionId, r: DataRequest) {
    Present(s, id) && Held(s, id, r) && r.filter in s.connections.m[id].subscriptions && r.qos != AtMostOnce
  }

  // Whatever its log has evicted since the subscription began: if no sweep was overtaken by it and no
  // acknowledgement came out of line, nothing is skipped, unless the client left a stray request behind.
  lemma NothingIsSkipped(c: Config, es: seq<Event>, id: ConnectionId, r: DataRequest)
    requires ConfigOk(c)
    ensures var s := Run(InitRouter(c), es);
            && Reliable(s, id, r)
            && s.connections.m[id].clientId !in StrayClients(InitRouter(c), es)
            && KeptUp(InitRouter(c), es, (s.connections.m[id].clientId, r.filter))
            && InLine(InitRouter(c), es, (s.connections.m[id].clientId, r.filter))
            ==> ExactlyContiguous(s, id, r)
  {
    hide Run, InitRouter, StrayClients, KeptUp, InLine, Held, Identified, RequestsOk, Windows, Conserved, Delivers,
      Past, ExactlyContiguous, GoesBackN, MissedNone, DroppedNone;
    var s, strays := Run(InitRouter(c), es), StrayClients(InitRouter(c), es);
    if Reliable(s, id, r) && s.connections.m[id].clientId !in strays {
      RunDelivers(c, es);
      SoundGoesBackN(s, id, r, strays);
      GoesBackNCounted(s, id, r);
      LossesExactly(c, es, (s.connections.m[id].clientId, r.filter));
      if KeptUp(InitRouter(c), es, (s.connections.m[id].clientId, r.filter))
        && InLine(InitRouter(c), es, (s.connections.m[id].clientId, r.filter)) {
        NoLossContiguous(s, id, r);
      }
    }
  }

  lemma GoesBackNCounted(s: Router, id: ConnectionId, r: DataRequest)
    requires Present(s, id) && GoesBackN(s, id, r)
    ensures (s.connections.m[id].clientId, r.filter) in s.accounts
  {
    hide Unacked, Flies, FirstUnacked;
  }

  lemma NoLossContiguous(s: Router, id: ConnectionId, r: DataRequest)
    requires Present(s, id) && GoesBackN(s, id, r) && r.qos != AtMostOnce
    requires var k := (s.connections.m[id].clientId, r.filter);
             k in s.accounts && MissedNone(s.accounts[k]) && DroppedNone(s.accounts[k])
    ensures ExactlyContiguous(s, id, r)
  {
    hide Flies, Unacked, FirstUnacked;
    ContiguousExactly(s, id, r);
  }

  // In any one state: exactly when nothing between the start and the position of the request was lost.
  lemma ContiguousExactly(s: Router, id: ConnectionId, r: DataRequest)
    requires Present(s, id) && GoesBackN(s, id, r) && r.qos != AtMostOnce
    ensures var a := s.accounts[(s.connections.m[id].clientId, r.filter)];
            ExactlyContiguous(s, id, r) <==>
                forall o: nat :: a.start <= o < r.cursor.offset ==> o !in a.missed && o !in a.dropped
  {
    hide Flies, Unacked;
    var a, first := s.accounts[(s.connections.m[id].clientId, r.filter)], Unacked(s, id, r);
    assert first <= r.cursor.offset;
    if forall o: nat :: a.start <= o < r.cursor.offset ==> o !in a.missed && o !in a.dropped {
      forall o: nat | a.start <= o < first
        ensures o in a.acked
      {
        assert Settled(a, o);
      }
    }
    forall o: nat | ExactlyContiguous(s, id, r) && a.start <= o < r.cursor.offset
      ensures o !in a.missed && o !in a.dropped
    {
      assert o in a.dropped ==> Gone(a, o);
      assert o in a.acked ==> Gone(a, o);
    }
  }

  // ---------------------------------------------------------------------------------------------
  // What a dropped entry means

  // A saved session resumes past an entry that its client never acknowledged.
  ghost predicate LostTo(s: Router, client: ClientId, f: Filter, o: nat) {
    && client in s.graveyard && s.graveyard[client].Some?
    && (exists r :: r in s.graveyard[client].value.tracker.requests && r.filter == f)
    && (forall r :: r in s.graveyard[client].value.tracker.requests && r.filter == f ==> o < r.cursor.offset)
    && (client, f) in s.accounts && o !in s.accounts[(client, f)].acked
  }

  // The head of the window is the entry at offset o of a persistent session's subscription, not yet
  // acknowledged. The client acknowledges something and is disconnected: the entry is lost to it
  // exactly when that was not the head's packet id.
  lemma AckLosesExactly(s: Router, id: ConnectionId, pkid: nat, r: DataRequest, strays: set<ClientId>)
    requires Sound(s, strays) && Straight(s, id, strays) && s.notifications == [] && !s.connections.m[id].clean
    requires Held(s, id, r) && r.filter in s.connections.m[id].subscriptions
    requires s.obufs.m[id].inflight != [] && FromLog(s.obufs.m[id].inflight[0], r.filterIdx)
    ensures var client, head := s.connections.m[id].clientId, s.obufs.m[id].inflight[0];
            && (client, r.filter) in s.accounts && head.cursor.value.offset !in s.accounts[(client, r.filter)].acked
            && (LostTo(Disconnect(RegisterAck(s, id, pkid), id), client, r.filter, head.cursor.value.offset) <==>
                  pkid != head.pkid)
  {
    hide Identified, RequestsOk, Windows, Conserved, Delivers, Past, RegisterAck, Disconnect, Held, Settle,
      Retransmissions, Clean, Placed, Served;
    var t, client, head := RegisterAck(s, id, pkid), s.connections.m[id].clientId, s.obufs.m[id].inflight[0];
    var o, k := head.cursor.value.offset, (s.connections.m[id].clientId, r.filter);
    HeadUnacked(s, id, r, strays);
    RegisterAckDelivers(s, id, pkid, strays);
    AckedState(s, id, pkid, strays);
    HeadSettles(s, id, pkid, r);
    HeldFrame(s, t, id, r);
    SavedPast(t, id, r, o, strays);
  }

  lemma HeadUnacked(s: Router, id: ConnectionId, r: DataRequest, strays: set<ClientId>)
    requires Sound(s, strays) && Straight(s, id, strays) && Held(s, id, r)
             && r.filter in s.connections.m[id].subscriptions
    requires s.obufs.m[id].inflight != [] && FromLog(s.obufs.m[id].inflight[0], r.filterIdx)
    ensures var k := (s.connections.m[id].clientId, r.filter);
            k in s.accounts && !Gone(s.accounts[k], s.obufs.m[id].inflight[0].cursor.value.offset)
  {
    hide Identified, RequestsOk, Windows, Conserved, Delivers, Past, Held, Unacked, FirstUnacked;
    var q := s.obufs.m[id].inflight;
    SoundGoesBackN(s, id, r, strays);
    assert q[0] in q && At(q[0], r.filterIdx, q[0].cursor.value.offset);
    assert Flies(q, r.filterIdx, q[0].cursor.value.offset);
  }

  // What else an acknowledgement leaves as it was.
  lemma AckedState(s: Router, id: ConnectionId, pkid: nat, strays: set<ClientId>)
    requires Sound(s, strays) && Straight(s, id, strays)
    ensures var t := RegisterAck(s, id, pkid);
            && Identified(t) && RequestsOk(t) && Straight(t, id, strays) && t.notifications == s.notifications
            && t.connections == s.connections && t.accounts == Settle(s, id, pkid)
            && t.datalog == s.datalog && t.scheduler == s.scheduler
  {
    hide Identified, RequestsOk, Windows, Conserved, Delivers, Past, RegisterAck, Settle, SameSubscriptions,
      Subscribers;
    RegisterAckSame(s, id, pkid);
    SameSubscriptionsKeeps(s, RegisterAck(s, id, pkid));
    RegisterAckFrame(s, id, pkid);
    RegisterAckRequests(s, id, pkid);
    AckSettles(s, id, pkid);
  }

  lemma HeadSettles(s: Router, id: ConnectionId, pkid: nat, r: DataRequest)
    requires Present(s, id) && RequestsOk(s) && Held(s, id, r) && (s.connections.m[id].clientId, r.filter) in s.accounts
    requires s.obufs.m[id].inflight != [] && FromLog(s.obufs.m[id].inflight[0], r.filterIdx)
    ensures var k, head, m := (s.connections.m[id].clientId, r.filter), s.obufs.m[id].inflight[0], Settle(s, id, pkid);
            && k in m && Gone(m[k], head.cursor.value.offset)
            && (head.cursor.value.offset in m[k].acked <==>
                  pkid == head.pkid || head.cursor.value.offset in s.accounts[k].acked)
  {
    hide RequestsOk, Held;
    SameFilterSameLog(s, id, r);
  }

  // A dropped connection's session resumes past everything acknowledged or dropped.
  lemma SavedPast(t: Router, id: ConnectionId, r: DataRequest, o: nat, strays: set<ClientId>)
    requires Identified(t) && RequestsOk(t) && t.notifications == [] && Delivers(t, strays) && Straight(t, id, strays)
    requires !t.connections.m[id].clean && Held(t, id, r)
    requires var k := (t.connections.m[id].clientId, r.filter); k in t.accounts && Gone(t.accounts[k], o)
    ensures var u, client := Disconnect(t, id), t.connections.m[id].clientId;
            && u.accounts == t.accounts && client in u.graveyard && u.graveyard[client].Some?
            && (exists r' :: r' in u.graveyard[client].value.tracker.requests && r'.filter == r.filter)
            && (forall r' :: r' in u.graveyard[client].value.tracker.requests && r'.filter == r.filter ==>
                  o < r'.cursor.offset)
  {
    hide Identified, RequestsOk, Disconnect, Held, DeliversTo, SavedBy, FirstUnacked, LogsKeep;
    DeliversAt(t, id, strays);
    DisconnectRewinds(t, id, r);
    DisconnectOthers(t, id);
    SavedDelivers(t, id);
    var u, client := Disconnect(t, id), t.connections.m[id].clientId;
    forall r' | r' in u.graveyard[client].value.tracker.requests && r'.filter == r.filter
      ensures o < r'.cursor.offset
    {
      assert Served(t.accounts, client, [], r');
    }
  }

  // No event of a continuation starts the subscription anew.
  ghost predicate Lasts(s: Router, es: seq<Event>, more: seq<Event>, k: AccountKey)
    decreases |more|
  {
    more == [] ||
    (Lasts(s, es, more[..|more| - 1], k) && !RenewedAt(Run(s, es + more[..|more| - 1]), more[|more| - 1], k))
  }

  lemma {:induction false} DroppedStays(c: Config, es: seq<Event>, more: seq<Event>, k: AccountKey, o: nat)
    requires ConfigOk(c) && Lasts(InitRouter(c), es, more, k)
    requires k in Run(InitRouter(c), es).accounts && o in Run(InitRouter(c), es).accounts[k].dropped
    ensures var t := Run(InitRouter(c), es + more); k in t.accounts ==> o in t.accounts[k].dropped
    decreases |more|
  {
    hide Step, RequestsOk, Windows, RenewsIn, InLineAt, OvertakenAt, MissedNone, DroppedNone, InitRouter;
    if more == [] {
      assert es + more == es;
    } else {
      var rest, e := more[..|more| - 1], more[|more| - 1];
      var t := Run(InitRouter(c), es + rest);
      assert (es + more)[..|es + more| - 1] == es + rest;
      DroppedStays(c, es, rest, k, o);
      RunKeepsRequests(c, es + rest);
      RunKeepsWindows(c, es + rest);
      StepAudited(t, e, k, k in t.accounts && DroppedNone(t.accounts[k]));
    }
  }

  // Whatever happens afterwards, as long as the subscription lasts: a dropped entry is never put into
  // the window again, never acknowledged, and the subscription never goes back to it.
  lemma LostForGood(c: Config, es: seq<Event>, more: seq<Event>, id: ConnectionId, r: DataRequest, o: nat)
    requires ConfigOk(c)
    ensures var s, t := Run(InitRouter(c), es), Run(InitRouter(c), es + more);
            && Straight(t, id, StrayClients(InitRouter(c), es + more)) && Held(t, id, r)
              && r.filter in t.connections.m[id].subscriptions
            && Lasts(InitRouter(c), es, more, (t.connections.m[id].clientId, r.filter))
            && (t.connections.m[id].clientId, r.filter) in s.accounts
            && o in s.accounts[(t.connections.m[id].clientId, r.filter)].dropped
            ==> && !Flies(t.obufs.m[id].inflight, r.filterIdx, o)
                && o < Unacked(t, id, r)
                && (t.connections.m[id].clientId, r.filter) in t.accounts
                && o !in t.accounts[(t.connections.m[id].clientId, r.filter)].acked
  {
    hide Run, InitRouter, StrayClients, Lasts, Held, Identified, RequestsOk, Windows, Conserved, Delivers, Past,
      Unacked, Flies, FirstUnacked;
    var t, strays := Run(InitRouter(c), es + more), StrayClients(InitRouter(c), es + more);
    if Straight(t, id, strays) && Held(t, id, r) && r.filter in t.connections.m[id].subscriptions {
      var k := (t.connections.m[id].clientId, r.filter);
      if Lasts(InitRouter(c), es, more, k) && k in Run(InitRouter(c), es).accounts
        && o in Run(InitRouter(c), es).accounts[k].dropped {
        RunDelivers(c, es + more);
        SoundGoesBackN(t, id, r, strays);
        DroppedStays(c, es, more, k, o);
        assert Gone(t.accounts[k], o);
      }
    }
  }
}

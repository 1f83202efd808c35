// The inflight window of every connection: never more than 100 entries, consecutively numbered.
module Window {
  import opened Types
  import opened Slabs
  import opened LogModel
  import opened DataLogModel
  import opened OutgoingModel
  import opened SchedulerModel
  import opened RouterModel
  import opened Frames

  ghost predicate Windows(b: Slab<Outgoing>) {
    forall id :: id in b.m ==> WindowOk(b.m[id])
  }

  // Retained publishes and log entries together never exceed the slots that were free.
  lemma ForwardFits(dl: DataLog, o: Outgoing, r: DataRequest)
    ensures |RetainedItems(dl, r, Slots(dl, o, r)) + LogItems(Pull(dl, o, r).entries)| <= Slots(dl, o, r)
  {
    hide Slots, RetainedFor;
    var slots := Slots(dl, o, r);
    var n := |RetainedItems(dl, r, slots)|;
    assert n <= slots;
    ReadBounded(dl, r.filterIdx, r.cursor, slots - n);
  }

  lemma ReadBounded(dl: DataLog, idx: FilterIdx, c: Cursor, len: nat)
    ensures |ReadFor(dl, idx, c, len).entries| <= len
  {
    hide Log.Read;
    if idx < |dl.native| && dl.native[idx].log.WellFormed() {
      ReadFromAnywhere(dl.native[idx].log, c, len);
    }
  }

  lemma ForwardKeepsWindow(dl: DataLog, o: Outgoing, r: DataRequest)
    requires WindowOk(o)
    ensures WindowOk(ForwardData(dl, o, r).0)
  {
    hide Slots, RetainedItems, LogItems, Pull, Outgoing.PushForwards;
    var items := RetainedItems(dl, r, Slots(dl, o, r)) + LogItems(Pull(dl, o, r).entries);
    ForwardFits(dl, o, r);
    SlotsFree(dl, o, r);
    PushForwardsKeepsWindow(o, items, r.qos, r.filterIdx);
  }

  lemma SlotsFree(dl: DataLog, o: Outgoing, r: DataRequest)
    ensures r.qos != AtMostOnce ==> Slots(dl, o, r) == o.FreeSlots()
  {
  }

  lemma WindowsSet(b: Slab<Outgoing>, id: ConnectionId, o: Outgoing)
    requires Windows(b) && id in b.m && WindowOk(o)
    ensures Windows(b.Set(id, o))
  {
    hide WindowOk;
  }

  lemma WindowsAt(b: Slab<Outgoing>, id: ConnectionId)
    requires Windows(b) && id in b.m
    ensures WindowOk(b.m[id])
  {
  }

  lemma RegisterAckWindow(s: Router, id: ConnectionId, pkid: nat)
    requires Present(s, id) && Windows(s.obufs)
    ensures Windows(RegisterAck(s, id, pkid).obufs)
    ensures Present(RegisterAck(s, id, pkid), id) && WindowOk(RegisterAck(s, id, pkid).obufs.m[id])
  {
    hide RegisterAck, Outgoing.RegisterAck, WindowOk;
    RegisterAckFrame(s, id, pkid);
    AckKeepsWindow(s.obufs.m[id], pkid);
    WindowsSet(s.obufs, id, s.obufs.m[id].RegisterAck(pkid).0);
  }

  lemma HandlePubAckWindow(b: Batch, id: ConnectionId, pkid: nat)
    requires Present(b.r, id) && Windows(b.r.obufs)
    ensures Windows(HandlePubAck(b, id, pkid).r.obufs)
  {
    hide RegisterAck, Outgoing.RegisterAck, Windows, Scheduler.Reschedule;
    RegisterAckWindow(b.r, id, pkid);
  }

  lemma HandlePubRecWindow(b: Batch, id: ConnectionId, pkid: nat)
    requires Present(b.r, id) && Windows(b.r.obufs)
    ensures Windows(HandlePubRec(b, id, pkid).r.obufs)
  {
    hide RegisterAck, Outgoing.RegisterAck, Outgoing.RegisterPubRec, Windows, WindowOk, Scheduler.Reschedule;
    RegisterAckWindow(b.r, id, pkid);
    var s := RegisterAck(b.r, id, pkid);
    PubRelsKeepWindow(s.obufs.m[id], pkid);
    WindowsSet(s.obufs, id, s.obufs.m[id].RegisterPubRec(pkid));
  }

  lemma HandlePubCompWindow(b: Batch, id: ConnectionId, pkid: nat)
    requires Present(b.r, id) && Windows(b.r.obufs)
    ensures Windows(HandlePubComp(b, id, pkid).r.obufs)
  {
    hide Outgoing.RegisterPubComp, WindowOk;
    PubRelsKeepWindow(b.r.obufs.m[id], pkid);
    WindowsSet(b.r.obufs, id, b.r.obufs.m[id].RegisterPubComp(pkid).0);
  }

  lemma HandlePublishWindow(b: Batch, id: ConnectionId, p: Publish, props: Props)
    requires Present(b.r, id)
    ensures HandlePublish(b, id, p, props).r.obufs == b.r.obufs
  {
    hide AppendToCommitlog;
    AppendFrame(b, id, p, props, true);
    AppendFrame(b.(r := Commit(b.r, id, PubAck(p.pkid)), forceAck := true), id, p, props, true);
  }

  lemma HandlePubRelWindow(b: Batch, id: ConnectionId, pkid: nat)
    requires Present(b.r, id)
    ensures HandlePubRel(b, id, pkid).r.obufs == b.r.obufs
  {
    hide AppendToCommitlog, Scheduler.Reschedule;
    var a := b.r.ackslog.m[id].Release(pkid);
    if a.1.Some? {
      AppendFrame(b.(r := b.r.(ackslog := b.r.ackslog.Set(id, a.0))), id, a.1.value.0, a.1.value.1, false);
    }
  }

  lemma HandlePacketWindow(b: Batch, id: ConnectionId, p: Packet)
    requires Present(b.r, id) && Windows(b.r.obufs)
    ensures Windows(HandlePacket(b, id, p).r.obufs)
  {
    hide SubscribeAll, UnsubscribeAll, HandlePublish, HandlePubAck, HandlePubRec, HandlePubRel, HandlePubComp, Windows;
    match p {
      case PacketPublish(publish, props) => HandlePublishWindow(b, id, publish, props);
      case PacketSubscribe(pkid, filters, subId) => SubscribeAllFrame(b, id, filters, subId);
      case PacketUnsubscribe(pkid, paths) => UnsubscribeAllFrame(b, id, pkid, paths);
      case PacketPubAck(pkid) => HandlePubAckWindow(b, id, pkid);
      case PacketPubRec(pkid) => HandlePubRecWindow(b, id, pkid);
      case PacketPubComp(pkid) => HandlePubCompWindow(b, id, pkid);
      case PacketPubRel(pkid, _) => HandlePubRelWindow(b, id, pkid);
      case _ =>
    }
  }

  lemma PubRelsKeepWindow(o: Outgoing, pkid: nat)
    requires WindowOk(o)
    ensures WindowOk(o.RegisterPubRec(pkid)) && WindowOk(o.RegisterPubComp(pkid).0)
  {
  }

  lemma {:induction false} HandlePacketsWindow(b: Batch, id: ConnectionId, packets: seq<Packet>)
    requires Windows(b.r.obufs)
    ensures Windows(HandlePackets(b, id, packets).r.obufs)
    decreases |packets|
  {
    hide HandlePacket, Windows;
    if packets != [] && !b.stop && Present(b.r, id) {
      HandlePacketWindow(b, id, packets[0]);
      HandlePacketsWindow(HandlePacket(b, id, packets[0]), id, packets[1..]);
    }
  }

  lemma DisconnectWindow(s: Router, id: ConnectionId)
    requires Windows(s.obufs)
    ensures Windows(Disconnect(s, id).obufs)
  {
    hide Clean, RewindAll, Retransmissions, ForgetAccounts, Unsubscribed, WindowOk;
  }

  lemma DeviceDataWindow(s: Router, id: ConnectionId)
    requires Windows(s.obufs)
    ensures Windows(DeviceData(s, id).obufs)
  {
    hide HandlePackets, WakeAll, Disconnect, Windows, Scheduler.Reschedule;
    if Present(s, id) {
      var b0 := Batch(TakePackets(s, id), false, false, false, None, false);
      var b := HandlePackets(b0, id, s.ibufs.m[id].buffer);
      HandlePacketsWindow(b0, id, s.ibufs.m[id].buffer);
      var s1 := if b.forceAck then Reschedule(b.r, id, FreshData) else b.r;
      WakeAllFrame(s1);
      DisconnectWindow(if b.newData then WakeAll(s1) else s1, id);
    }
  }

  lemma ConsumeOneWindow(s: Router, id: ConnectionId)
    requires Present(s, id) && s.scheduler.trackers.m[id].requests != [] && Windows(s.obufs)
    ensures Windows(ConsumeOne(s, id).0.obufs)
  {
    hide ForwardData, Park, Skip, Scheduler.Pause, Windows, WindowOk;
    var r := s.scheduler.trackers.m[id].requests[0];
    assert WindowOk(s.obufs.m[id]) by { WindowsAt(s.obufs, id); }
    ForwardKeepsWindow(s.datalog, s.obufs.m[id], r);
    WindowsSet(s.obufs, id, ForwardData(s.datalog, s.obufs.m[id], r).0);
  }

  lemma {:induction false} ConsumeLoopWindow(s: Router, id: ConnectionId, n: nat)
    requires Windows(s.obufs)
    ensures Windows(ConsumeLoop(s, id, n).obufs)
    decreases n
  {
    hide ConsumeOne, Windows, Scheduler.Pause;
    if n > 0 && Present(s, id) && s.scheduler.trackers.m[id].requests != [] {
      ConsumeOneWindow(s, id);
      if ConsumeOne(s, id).1 {
        ConsumeLoopWindow(ConsumeOne(s, id).0, id, n - 1);
      }
    }
  }

  lemma ConsumeWindow(s: Router)
    requires Windows(s.obufs)
    ensures Windows(Consume(s).0.obufs)
  {
    hide ConsumeLoop, DeviceAcks, Scheduler.Rotate;
    if s.scheduler.readyqueue != [] {
      var id := s.scheduler.readyqueue[0];
      var s1 := s.(scheduler := s.scheduler.Rotate());
      if Present(s1, id) {
        assert Windows(SendAcks(s1, id).obufs);
        ConsumeLoopWindow(SendAcks(s1, id), id, MAX_SCHEDULE_ITERATIONS);
      }
    }
  }

  lemma ConnectWindow(s: Router, client: ClientId, clean: bool, will: Option<Publish>)
    requires Windows(s.obufs)
    ensures Windows(Connect(s, client, clean, will).obufs)
  {
    hide Disconnect, ForgetAccounts, PubRels, Scheduler.Reschedule, SavedSession;
    if client in s.connectionMap {
      DisconnectWindow(s, s.connectionMap[client]);
    }
  }

  lemma StepWindow(s: Router, e: Event)
    requires Windows(s.obufs)
    ensures Windows(Step(s, e).obufs)
  {
    hide Connect, Disconnect, DeviceData, Consume, WakeAll, Accept, Scheduler.Reschedule;
    match e {
      case EventConnect(client, clean, will) => ConnectWindow(s, client, clean, will);
      case EventDeviceData(id) => DeviceDataWindow(s, id);
      case EventDisconnect(id) => DisconnectWindow(s, id);
      case EventConsume => ConsumeWindow(s);
      case EventPublishWill(client) =>
        if client in s.lastWills {
          WakeAllFrame(AcceptPublish(s.(lastWills := s.lastWills - {client}), s.lastWills[client]));
        }
      case _ =>
    }
  }

  // In every reachable state the window of every connection is bounded and its ids are consecutive
  // modulo 100, hence distinct and never zero.
  lemma {:induction false} RunKeepsWindows(c: Config, es: seq<Event>)
    ensures Windows(Run(InitRouter(c), es).obufs)
    decreases |es|
  {
    hide Step, Windows;
    if es == [] {
      assert Windows(New()) by { EmptyWindows(); }
    } else {
      RunKeepsWindows(c, es[..|es| - 1]);
      StepWindow(Run(InitRouter(c), es[..|es| - 1]), es[|es| - 1]);
    }
  }

  lemma EmptyWindows()
    ensures Windows(New())
  {
  }
}

// What a subscription has missed is no longer held by its log, in every reachable state.
module Missed {
  import opened Types
  import opened LogModel
  import opened DataLogModel
  import opened OutgoingModel
  import opened SchedulerModel
  import opened RouterModel
  import opened Frames
  import opened Parking
  import opened Forwarding
  import opened Window
  import opened Identity
  import opened Queue
  import opened Requests
  import opened RequestRuns
  import opened Conservation
  import opened ConservationRuns
  import opened Delivery

  // Oldest offset of a filter's log that is still held.
  function HeldFrom(dl: DataLog, f: Filter): nat {
    if f in dl.filterIndexes && dl.filterIndexes[f] < |dl.native| &&
       dl.native[dl.filterIndexes[f]].log.head < |dl.native[dl.filterIndexes[f]].log.starts|
    then dl.native[dl.filterIndexes[f]].log.HeadOffset()
    else 0
  }

  ghost predicate EvictedAt(dl: DataLog, k: AccountKey, a: Account) {
    forall o: nat :: o in a.missed ==> o < HeldFrom(dl, k.1)
  }

  // What any subscription has missed, its log no longer holds.
  ghost predicate Past(s: Router) {
    forall k: AccountKey :: k in s.accounts ==> EvictedAt(s.datalog, k, s.accounts[k])
  }

  ghost predicate HeadsGrow(a: DataLog, b: DataLog) {
    forall f :: HeldFrom(a, f) <= HeldFrom(b, f)
  }

  lemma FramePast(s: Router, t: Router)
    requires Past(s) && t.accounts == s.accounts && HeadsGrow(s.datalog, t.datalog)
    ensures Past(t)
  {
    hide HeldFrom;
    forall k: AccountKey | k in t.accounts
      ensures EvictedAt(t.datalog, k, t.accounts[k])
    {
      assert EvictedAt(s.datalog, k, s.accounts[k]);
      assert HeldFrom(s.datalog, k.1) <= HeldFrom(t.datalog, k.1);
    }
  }

  lemma SameHeads(a: DataLog, b: DataLog)
    requires b == a || SameLogs(a, b)
    ensures HeadsGrow(a, b)
  {
  }

  lemma RegisterHeads(dl: DataLog, f: Filter)
    requires RegistryOk(dl)
    ensures HeadsGrow(dl, Register(dl, f))
  {
    hide NewData, Extend;
  }

  lemma AppendHead(l: Log, m: Publish)
    requires l.Retained()
    ensures l.head < |l.starts| && l.Append(m).head < |l.Append(m).starts|
    ensures l.HeadOffset() <= l.Append(m).HeadOffset()
  {
    hide Log.ActiveBytes, Log.SegmentRetained;
    AppendKeepsForm(l, m);
  }

  lemma AcceptHeads(dl: DataLog, p: Publish)
    requires DataLogOk(dl)
    ensures HeadsGrow(dl, Accept(dl, p).0)
  {
    hide Accept, Log.Append, Log.Retained, CacheOk, FanOut;
    AcceptEach(dl, p);
    AcceptFrame(dl, p);
    forall f
      ensures HeldFrom(dl, f) <= HeldFrom(Accept(dl, p).0, f)
    {
      if f in dl.filterIndexes {
        AppendHead(dl.native[dl.filterIndexes[f]].log, p.(retain := false));
      }
    }
  }

  // ---------------------------------------------------------------------------------------------
  // Packets

  lemma AcceptPast(s: Router, p: Publish)
    requires RequestsOk(s) && Past(s)
    ensures Past(AcceptPublish(s, p))
  {
    hide Past, HeadsGrow, RequestsOk, Accept, DataLogOk;
    RequestsLogs(s);
    AcceptHeads(s.datalog, p);
    FramePast(s, AcceptPublish(s, p));
  }

  lemma StillPast(s: Router, t: Router)
    requires Past(s) && t.accounts == s.accounts && t.datalog == s.datalog
    ensures Past(t)
  {
    hide Past, HeadsGrow;
    SameHeads(s.datalog, t.datalog);
    FramePast(s, t);
  }

  lemma AppendPast(b: Batch, id: ConnectionId, p: Publish, props: Props, report: bool)
    requires Present(b.r, id) && RequestsOk(b.r) && Past(b.r)
    ensures Past(AppendToCommitlog(b, id, p, props, report).r)
  {
    hide Resolve, AcceptPublish, RequestsOk, Past;
    var c := b.r.connections.m[id];
    var t := Resolve(c.topicAliases, p, props);
    if t.0.Some? {
      var s := b.r.(connections := b.r.connections.Set(id, c.(topicAliases := t.1)));
      StillPast(b.r, s);
      RequestsFrame(b.r, s);
      AcceptPast(s, p.(topic := t.0.value));
    }
  }

  lemma HandlePublishPast(b: Batch, id: ConnectionId, p: Publish, props: Props)
    requires Present(b.r, id) && RequestsOk(b.r) && Past(b.r)
    ensures Past(HandlePublish(b, id, p, props).r)
  {
    hide RequestsOk, AppendToCommitlog, Past;
    match p.qos {
      case ExactlyOnce => StillPast(b.r, HandlePublish(b, id, p, props).r);
      case AtLeastOnce =>
        var b1 := b.(r := Commit(b.r, id, PubAck(p.pkid)), forceAck := true);
        StillPast(b.r, b1.r);
        RequestsFrame(b.r, b1.r);
        AppendPast(b1, id, p, props, true);
      case AtMostOnce => AppendPast(b, id, p, props, true);
    }
  }

  lemma HandlePubRelPast(b: Batch, id: ConnectionId, pkid: nat)
    requires Present(b.r, id) && RequestsOk(b.r) && Past(b.r)
    ensures Past(HandlePubRel(b, id, pkid).r)
  {
    hide RequestsOk, AppendToCommitlog, Scheduler.Reschedule, Past;
    var a := b.r.ackslog.m[id].Release(pkid);
    var b1 := b.(r := b.r.(ackslog := b.r.ackslog.Set(id, a.0)));
    StillPast(b.r, b1.r);
    RequestsFrame(b.r, b1.r);
    if a.1.Some? {
      AppendPast(b1, id, a.1.value.0, a.1.value.1, false);
      var s := AppendToCommitlog(b1, id, a.1.value.0, a.1.value.1, false).r;
      StillPast(s, Reschedule(s, id, IncomingAck));
    }
  }

  lemma RegisterAckPast(s: Router, id: ConnectionId, pkid: nat)
    requires Present(s, id) && Past(s)
    ensures Past(RegisterAck(s, id, pkid))
  {
    hide HeldFrom, Outgoing.RegisterAck;
    var t := RegisterAck(s, id, pkid);
    ClientIs(s, id);
    forall k: AccountKey | k in t.accounts
      ensures EvictedAt(t.datalog, k, t.accounts[k])
    {
      assert k in s.accounts && EvictedAt(s.datalog, k, s.accounts[k]);
    }
  }

  lemma HandlePubAckPast(b: Batch, id: ConnectionId, pkid: nat)
    requires Present(b.r, id) && Past(b.r)
    ensures Past(HandlePubAck(b, id, pkid).r)
    ensures Past(HandlePubRec(b, id, pkid).r)
  {
    hide RegisterAck, Outgoing.RegisterAck, Outgoing.RegisterPubRec, Scheduler.Reschedule, Past;
    var s := RegisterAck(b.r, id, pkid);
    RegisterAckPast(b.r, id, pkid);
    RegisterAckFrame(b.r, id, pkid);
    StillPast(s, HandlePubAck(b, id, pkid).r);
    StillPast(s, HandlePubRec(b, id, pkid).r);
  }

  lemma SubscribeOnePast(s: Router, id: ConnectionId, path: Filter, qos: QoS)
    requires Present(s, id) && RequestsOk(s) && Past(s)
    ensures Past(SubscribeOne(s, id, path, qos))
  {
    hide HeldFrom, Register, IndexOf, AddSubscriber, Scheduler.Track, Scheduler.Reschedule, HeldOk, ParkedOk, LogsOk,
      CacheOk, FanOut, RegistryOk;
    RegisterHeads(s.datalog, path);
    var t := SubscribeOne(s, id, path, qos);
    forall k: AccountKey | k in t.accounts
      ensures EvictedAt(t.datalog, k, t.accounts[k])
    {
      assert k in s.accounts ==> EvictedAt(s.datalog, k, s.accounts[k]);
      assert HeldFrom(s.datalog, k.1) <= HeldFrom(Register(s.datalog, path), k.1);
    }
  }

  lemma {:induction false} SubscribeAllPast(b: Batch, id: ConnectionId, filters: seq<(Filter, QoS)>, subId: Option<nat>)
    requires RequestsOk(b.r) && Past(b.r)
    ensures Past(SubscribeAll(b, id, filters, subId).0.r)
    decreases |filters|
  {
    hide SubscribeOne, RequestsOk, Past;
    if filters != [] && Present(b.r, id) {
      SubscribeOneRequests(b.r, id, filters[0].0, filters[0].1);
      SubscribeOnePast(b.r, id, filters[0].0, filters[0].1);
      SubscribeAllPast(b.(r := SubscribeOne(b.r, id, filters[0].0, filters[0].1)), id, filters[1..], subId);
    }
  }

  lemma FewerPast(s: Router, t: Router)
    requires Past(s) && HeadsGrow(s.datalog, t.datalog)
    requires forall k: AccountKey :: k in t.accounts ==> k in s.accounts && t.accounts[k] == s.accounts[k]
    ensures Past(t)
  {
    hide HeldFrom;
    forall k: AccountKey | k in t.accounts
      ensures EvictedAt(t.datalog, k, t.accounts[k])
    {
      assert EvictedAt(s.datalog, k, s.accounts[k]);
      assert HeldFrom(s.datalog, k.1) <= HeldFrom(t.datalog, k.1);
    }
  }

  lemma LeavePast(s: Router, id: ConnectionId, path: Filter)
    requires Present(s, id) && Past(s)
    ensures Past(Leave(s, id, path))
  {
    hide RemoveWaiter, Scheduler.Untrack, Past, HeadsGrow;
    RemoveWaiterIs(s.datalog, id, path);
    SameHeads(s.datalog, RemoveWaiter(s.datalog, id, path));
    FewerPast(s, Leave(s, id, path));
  }

  lemma UnsubscribeOnePast(b: Batch, id: ConnectionId, pkid: nat, path: Filter)
    requires Present(b.r, id) && Past(b.r)
    ensures Past(UnsubscribeOne(b, id, pkid, path).r)
  {
    hide Leave, Past;
    if path in b.r.subscriptionMap {
      var s := b.r.(subscriptionMap := b.r.subscriptionMap[path := b.r.subscriptionMap[path] - {id}]);
      StillPast(b.r, s);
      LeavePast(s, id, path);
      LeaveFrame(s, id, path);
      StillPast(Leave(s, id, path), Commit(Leave(s, id, path), id, UnsubAck(pkid)));
    }
  }

  lemma {:induction false} UnsubscribeAllPast(b: Batch, id: ConnectionId, pkid: nat, paths: seq<Filter>)
    requires Past(b.r)
    ensures Past(UnsubscribeAll(b, id, pkid, paths).r)
    decreases |paths|
  {
    hide UnsubscribeOne, Past;
    if paths != [] && Present(b.r, id) {
      UnsubscribeOnePast(b, id, pkid, paths[0]);
      UnsubscribeAllPast(UnsubscribeOne(b, id, pkid, paths[0]), id, pkid, paths[1..]);
    }
  }

  lemma HandlePacketPast(b: Batch, id: ConnectionId, p: Packet)
    requires Present(b.r, id) && RequestsOk(b.r) && Past(b.r)
    ensures Past(HandlePacket(b, id, p).r)
  {
    hide Past, RequestsOk, SubscribeAll, UnsubscribeAll, HandlePublish, HandlePubAck, HandlePubRec, HandlePubRel,
      Outgoing.RegisterPubComp, AckLog.Commit;
    match p {
      case PacketPublish(publish, props) => HandlePublishPast(b, id, publish, props);
      case PacketSubscribe(pkid, filters, subId) =>
        SubscribeAllPast(b, id, filters, subId);
        StillPast(SubscribeAll(b, id, filters, subId).0.r, HandlePacket(b, id, p).r);
      case PacketUnsubscribe(pkid, paths) => UnsubscribeAllPast(b, id, pkid, paths);
      case PacketPubAck(pkid) => HandlePubAckPast(b, id, pkid);
      case PacketPubRec(pkid) => HandlePubAckPast(b, id, pkid);
      case PacketPubRel(pkid, _) => HandlePubRelPast(b, id, pkid);
      case _ => StillPast(b.r, HandlePacket(b, id, p).r);
    }
  }

  lemma {:induction false} HandlePacketsPast(b: Batch, id: ConnectionId, packets: seq<Packet>)
    requires RequestsOk(b.r) && Past(b.r)
    ensures Past(HandlePackets(b, id, packets).r)
    decreases |packets|
  {
    hide HandlePacket, RequestsOk, Past;
    if packets != [] && !b.stop && Present(b.r, id) {
      HandlePacketRequests(b, id, packets[0]);
      HandlePacketPast(b, id, packets[0]);
      HandlePacketsPast(HandlePacket(b, id, packets[0]), id, packets[1..]);
    }
  }

  // ---------------------------------------------------------------------------------------------
  // Events

  lemma DisconnectPast(s: Router, id: ConnectionId)
    requires Past(s)
    ensures Past(Disconnect(s, id))
  {
    hide Clean, RewindAll, Retransmissions, Unsubscribed, Past, HeadsGrow;
    CleanIs(s.datalog, id);
    SameHeads(s.datalog, Clean(s.datalog, id).0);
    SameHeads(s.datalog, s.datalog);
    FewerPast(s, Disconnect(s, id));
  }

  lemma AdmitPast(s: Router, client: ClientId, clean: bool, will: Option<Publish>)
    requires Past(s)
    ensures Past(Admit(s, client, clean, will))
  {
    hide PubRels, Scheduler.Reschedule, Past, HeadsGrow, SavedSession;
    SameHeads(s.datalog, s.datalog);
    FewerPast(s, Admit(s, client, clean, will));
  }

  lemma ConsumeOnePast(s: Router, id: ConnectionId)
    requires Present(s, id) && s.scheduler.trackers.m[id].requests != [] && RequestsOk(s) && Past(s)
    ensures Past(ConsumeOne(s, id).0)
  {
    hide ConsumeOne, ForwardData, Skip, Park, RequestsOk, HeldFrom, SetRequests, Scheduler.Pause;
    var r := s.scheduler.trackers.m[id].requests[0];
    var t, f := ConsumeOne(s, id).0, ForwardData(s.datalog, s.obufs.m[id], r);
    ConsumeOneShape(s, id);
    TrackedAt(s, id);
    ParkIs(s.datalog, id, f.1);
    SameHeads(s.datalog, s.datalog);
    SameHeads(s.datalog, Park(s.datalog, id, f.1));
    forall k: AccountKey | k in t.accounts
      ensures EvictedAt(t.datalog, k, t.accounts[k])
    {
      SkipOnly(s, id, r, k);
      assert k in s.accounts && EvictedAt(s.datalog, k, s.accounts[k]);
      SkipPast(s, id, r, k);
      assert HeldFrom(s.datalog, k.1) <= HeldFrom(t.datalog, k.1);
    }
  }

  lemma SkipOnly(s: Router, id: ConnectionId, r: DataRequest, k: AccountKey)
    requires Present(s, id)
    ensures k != (s.connections.m[id].clientId, r.filter) ==> SameAccount(s.accounts, Skip(s, id, r), k)
    ensures k in Skip(s, id, r) <==> k in s.accounts
    ensures k == (s.connections.m[id].clientId, r.filter) && k in s.accounts && Readable(s.datalog, r) ==>
              Skip(s, id, r)[k] == s.accounts[k].(missed := s.accounts[k].missed + Range(r.cursor.offset,
                  s.datalog.native[r.filterIdx].log.HeadOffset()))
  {
    hide Log.CursorOk;
  }

  // A sweep counts as missed exactly what lies between its cursor and the oldest entry still held.
  lemma SkipAdds(s: Router, id: ConnectionId, r: DataRequest)
    requires Present(s, id) && RequestsOk(s) && ReqOk(s.datalog, r)
    ensures var k := (s.connections.m[id].clientId, r.filter);
            k in s.accounts ==>
              && k in Skip(s, id, r) && Skip(s, id, r)[k] == s.accounts[k].(missed := Skip(s, id, r)[k].missed)
              && forall o: nat :: o in Skip(s, id, r)[k].missed <==>
                   o in s.accounts[k].missed || r.cursor.offset <= o < HeldFrom(s.datalog, r.filter)
  {
    hide HeldOk, ParkedOk, CacheOk, FanOut, LogsOk, Log.CursorOk;
    RequestsLogs(s);
    ReadableForm(s.datalog, r);
    var l := s.datalog.native[r.filterIdx].log;
    forall o: nat
      ensures o in Range(r.cursor.offset, l.HeadOffset()) <==> r.cursor.offset <= o < l.HeadOffset()
    {
      assert Within(r.cursor.offset, o, l.HeadOffset()) <==> r.cursor.offset <= o < l.HeadOffset();
    }
  }

  lemma SkipPast(s: Router, id: ConnectionId, r: DataRequest, k: AccountKey)
    requires Present(s, id) && RequestsOk(s) && ReqOk(s.datalog, r) && k in s.accounts
             && EvictedAt(s.datalog, k, s.accounts[k])
    ensures k in Skip(s, id, r) && EvictedAt(s.datalog, k, Skip(s, id, r)[k])
  {
    hide RequestsOk, ReqOk, HeldFrom, Skip, SameAccount;
    SkipAdds(s, id, r);
    SkipOnly(s, id, r, k);
    SameAccountIs(s.accounts, Skip(s, id, r), k);
  }

  lemma SameAccountIs(a: map<AccountKey, Account>, b: map<AccountKey, Account>, k: AccountKey)
    ensures SameAccount(a, b, k) && k in a ==> k in b && b[k] == a[k]
  {
  }

  lemma ReadableForm(dl: DataLog, r: DataRequest)
    requires DataLogOk(dl) && ReqOk(dl, r)
    ensures dl.native[r.filterIdx].log.head < |dl.native[r.filterIdx].log.starts|
    ensures r.filter in dl.filterIndexes && dl.filterIndexes[r.filter] == r.filterIdx
  {
    hide CacheOk, FanOut, Log.CursorOk;
    RetainedForm(dl.native[r.filterIdx].log);
  }

  // A request's log is the one its filter's account is measured by.
  lemma PastHead(s: Router, r: DataRequest, k: AccountKey)
    requires Past(s) && DataLogOk(s.datalog) && ReqOk(s.datalog, r) && k in s.accounts && k.1 == r.filter
    ensures forall x: nat :: x in s.accounts[k].missed ==> x < s.datalog.native[r.filterIdx].log.HeadOffset()
  {
    hide DataLogOk, Log.CursorOk;
    ReadableForm(s.datalog, r);
    assert EvictedAt(s.datalog, k, s.accounts[k]);
  }

  lemma {:induction false} ConsumeLoopPast(s: Router, id: ConnectionId, n: nat)
    requires RequestsOk(s) && Windows(s.obufs) && Past(s)
    ensures Past(ConsumeLoop(s, id, n))
    decreases n
  {
    hide ConsumeOne, RequestsOk, WindowOk, Windows, Past, Scheduler.Pause;
    if n > 0 && Present(s, id) {
      if s.scheduler.trackers.m[id].requests == [] {
        StillPast(s, Pause(s, id, Caughtup));
      } else {
        WindowsAt(s.obufs, id);
        ConsumeOneRequests(s, id);
        ConsumeOneWindow(s, id);
        ConsumeOnePast(s, id);
        if ConsumeOne(s, id).1 {
          ConsumeLoopPast(ConsumeOne(s, id).0, id, n - 1);
        }
      }
    }
  }

  lemma ConsumePast(s: Router)
    requires RequestsOk(s) && Windows(s.obufs) && Past(s)
    ensures Past(Consume(s).0)
  {
    hide RequestsOk, ConsumeLoop, Windows, Past, Scheduler.Rotate, DeviceAcks;
    if s.scheduler.readyqueue != [] {
      var id := s.scheduler.readyqueue[0];
      var s1 := s.(scheduler := s.scheduler.Rotate());
      RotateFrame(s);
      RequestsFrame(s, s1);
      StillPast(s, s1);
      if Present(s1, id) {
        SendAcksRequests(s1, id);
        StillPast(s1, SendAcks(s1, id));
        ConsumeLoopPast(SendAcks(s1, id), id, MAX_SCHEDULE_ITERATIONS);
      }
    }
  }

  lemma DeviceDataPast(s: Router, id: ConnectionId)
    requires RequestsOk(s) && Past(s)
    ensures Past(DeviceData(s, id))
  {
    hide RequestsOk, HandlePackets, WakeAll, Scheduler.Reschedule, Disconnect, Past;
    if Present(s, id) {
      var b0 := FirstBatch(s, id);
      var b := HandlePackets(b0, id, s.ibufs.m[id].buffer);
      RequestsFrame(s, b0.r);
      StillPast(s, b0.r);
      HandlePacketsPast(b0, id, s.ibufs.m[id].buffer);
      WakeAllFrame(if b.forceAck then Reschedule(b.r, id, FreshData) else b.r);
      StillPast(b.r, Woken(b, id));
      DisconnectPast(Woken(b, id), id);
    }
  }

  lemma PublishWillPast(s: Router, client: ClientId)
    requires RequestsOk(s) && Past(s)
    ensures Past(PublishWill(s, client))
  {
    hide RequestsOk, WakeAll, AcceptPublish, Past;
    if client in s.lastWills {
      var s1 := s.(lastWills := s.lastWills - {client});
      RequestsFrame(s, s1);
      StillPast(s, s1);
      AcceptPast(s1, s.lastWills[client]);
      var t := AcceptPublish(s1, s.lastWills[client]);
      WakeAllFrame(t);
      StillPast(t, WakeAll(t));
    }
  }

  lemma ConnectPast(s: Router, client: ClientId, clean: bool, will: Option<Publish>)
    requires Past(s)
    ensures Past(Connect(s, client, clean, will))
  {
    hide Disconnect, Admit, Past;
    if client in s.connectionMap {
      DisconnectPast(s, s.connectionMap[client]);
    }
    AdmitPast(Dropped(s, client), client, clean, will);
  }

  lemma StepPast(s: Router, e: Event)
    requires RequestsOk(s) && Windows(s.obufs) && Past(s)
    ensures Past(Step(s, e))
  {
    hide RequestsOk, Windows, Past, Connect, DeviceData, Disconnect, PublishWill, Consume, Scheduler.Reschedule;
    match e {
      case EventConnect(client, clean, will) => ConnectPast(s, client, clean, will);
      case EventDeviceData(id) => DeviceDataPast(s, id);
      case EventDisconnect(id) => DisconnectPast(s, id);
      case EventPublishWill(client) => PublishWillPast(s, client);
      case EventConsume => ConsumePast(s);
      case _ => StillPast(s, Step(s, e));
    }
  }

  lemma {:induction false} RunIsPast(c: Config, es: seq<Event>)
    requires ConfigOk(c)
    ensures Past(Run(InitRouter(c), es))
    decreases |es|
  {
    hide Step, RequestsOk, Windows, InitRouter, Past;
    if es == [] {
      InitPast(c);
    } else {
      var before := es[..|es| - 1];
      RunIsPast(c, before);
      RunKeepsRequests(c, before);
      RunKeepsWindows(c, before);
      StepPast(Run(InitRouter(c), before), es[|es| - 1]);
    }
  }

  lemma InitPast(c: Config)
    ensures Past(InitRouter(c))
  {
  }
}

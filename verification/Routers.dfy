// The router in place: its methods over slabs, maps, the logs and the scheduler, each proved to do
// what the corresponding function of the state machine says.
module Routers {
  import opened Types
  import opened Slabs
  import opened LogModel
  import opened DataLogModel
  import opened OutgoingModel
  import S = SchedulerModel
  import opened RouterModel
  import opened Frames
  import opened Window
  import opened Identity
  import opened Queue
  import opened Requests
  import opened RequestRuns
  import opened Forwarding
  import opened Slices
  import DataLogs
  import Schedulers
  import Graveyards
  import Panics

  // What a batch of packets has decided so far.
  datatype Flags = Flags(forceAck: bool, newData: bool, disconnect: bool, reason: Option<Reason>, stop: bool)

  function Of(s: RouterModel.Router, f: Flags): Batch {
    Batch(s, f.forceAck, f.newData, f.disconnect, f.reason, f.stop)
  }

  // The filter has a log, of this index and with this end.
  predicate Logged(dl: DataLogModel.DataLog, path: Filter, idx: FilterIdx, cursor: Cursor) {
    path in dl.filterIndexes && dl.filterIndexes[path] == idx < |dl.native| && dl.native[idx].log.NextOffset() == cursor
  }

  // The subscription by the parts of the router.
  function Prepared(s: RouterModel.Router, id: ConnectionId, cursor: Cursor, idx: FilterIdx, path: Filter,
                    qos: QoS): RouterModel.Router
    requires Present(s, id)
  {
    var c := s.connections.m[id];
    var s1 := s.(subscriptionMap := AddSubscriber(s.subscriptionMap, path, id));
    if path in c.subscriptions then s1
    else
      s1.(connections := s.connections.Set(id, c.(subscriptions := c.subscriptions + {path})),
          scheduler := s.scheduler.Track(id, DataRequest(path, idx, qos, cursor, 0, true)).Reschedule(id, S.NewFilter),
          accounts := s.accounts[(c.clientId, path) := Account(cursor.offset, {}, {}, {})])
  }

  lemma SubscribeOneIsPrepared(s: RouterModel.Router, id: ConnectionId, cursor: Cursor, idx: FilterIdx, path: Filter,
                               qos: QoS)
    requires Present(s, id) && Logged(s.datalog, path, idx, cursor)
    ensures SubscribeOne(s, id, path, qos) == Prepared(s, id, cursor, idx, path, qos)
  {
    hide AddSubscriber, S.Scheduler.Track, S.Scheduler.Reschedule, Log.NextOffset;
  }

  // Registering the filter first makes no difference.
  lemma RegisteredFirst(s: RouterModel.Router, id: ConnectionId, path: Filter, qos: QoS)
    requires Present(s, id)
    ensures SubscribeOne(s.(datalog := Register(s.datalog, path)), id, path, qos) == SubscribeOne(s, id, path, qos)
  {
    hide AddSubscriber, S.Scheduler.Track, S.Scheduler.Reschedule, Log.NextOffset, NewData, Extend;
  }

  class Router {
    const config: Config
    const graveyard: Graveyards.Graveyard
    const datalog: DataLogs.DataLog
    const scheduler: Schedulers.Scheduler
    var connections: Slab<Connection>
    var connectionMap: map<ClientId, ConnectionId>
    var subscriptionMap: map<Filter, set<ConnectionId>>
    var ibufs: Slab<Incoming>
    var obufs: Slab<Outgoing>
    var ackslog: Slab<AckLog>
    var notifications: seq<Waiter>
    var lastWills: map<ClientId, Publish>
    // History of every subscription, for the specification only.
    ghost var accounts: map<AccountKey, Account>

    ghost function View(): RouterModel.Router
      reads this, graveyard, datalog, scheduler
    {
      RouterModel.Router(config, graveyard.connections, connections, connectionMap, subscriptionMap, ibufs, obufs,
                         datalog.Model(), ackslog, scheduler.Model(), notifications, lastWills, accounts)
    }

    constructor (config: Config)
      requires ConfigOk(config)
      ensures View() == InitRouter(config) && fresh(graveyard) && fresh(datalog) && fresh(scheduler)
    {
      this.config := config;
      graveyard := new Graveyards.Graveyard();
      datalog := new DataLogs.DataLog(config);
      scheduler := new Schedulers.Scheduler();
      connections, connectionMap, subscriptionMap, ibufs, obufs := New(), map[], map[], New(), New();
      ackslog, notifications, lastWills, accounts := New(), [], map[], map[];
    }

    // Tracks every woken request again and schedules its connection.
    method WakeWaiters()
      requires RequestsOk(View())
      modifies this`notifications, scheduler
      ensures View() == WakeAll(old(View()))
    {
      hide RequestsOk, S.Scheduler.Track, S.Scheduler.Reschedule, QueueKept;
      while notifications != []
        invariant RequestsOk(View())
        invariant WakeAll(View()) == WakeAll(old(View()))
        decreases |notifications|
      {
        ghost var s := View();
        WokenLive(s);
        WakeRequests(s);
        var w := notifications[0];
        notifications := notifications[1..];
        scheduler.Track(w.0, w.1);
        TrackStays(s.scheduler, w.0, w.1);
        scheduler.Reschedule(w.0, S.FreshData);
        assert View() == Wake(s, w).(notifications := s.notifications[1..]);
      }
    }

    // The logs take a publish and give up the requests it wakes.
    method AppendToLogs(publish: Publish) returns (e: Exit)
      requires DataLogOk(View().datalog)
      modifies this`notifications, datalog
      ensures e.Normal? <==> LookupSliced(old(datalog.Model()), publish.topic)
      ensures e.Normal? ==> View() == AcceptPublish(old(View()), publish)
    {
      hide DataLogOk, DataLogModel.Accept, LookupSliced;
      e := Normal;
      var woken :- datalog.Accept(publish);
      notifications := notifications + woken;
    }

    // Nothing changes when a publish is refused, and the reason is returned.
    method AppendToCommitlog(id: ConnectionId, publish: Publish, props: Props, ghost f: Flags, ghost report: bool)
      returns (e: Exit, err: Option<Reason>)
      requires Present(View(), id) && RequestsOk(View())
      modifies this`connections, this`notifications, datalog
      ensures e.Normal? <==> AppendSliced(old(View()), id, publish, props)
      ensures e.Normal? ==>
                RouterModel.AppendToCommitlog(Of(old(View()), f), id, publish, props, report) ==
                if err.None? then Of(View(), f.(newData := true))
                else Fail(Of(View(), if report then f.(reason := err) else f))
      ensures e.Normal? && err.Some? ==> View() == old(View())
    {
      hide LookupSliced, RequestsOk, DataLogOk, RouterModel.AppendToCommitlog, AcceptPublish, Resolve;
      ghost var s := View();
      RequestsLogs(s);
      AppendIs(s, id, publish, props, f, report);
      var t := Resolve(connections.m[id].topicAliases, publish, props);
      match t.0 {
        case None => return Normal, Some(t.2);
        case Some(topic) =>
          e, err := Normal, None;
          connections := connections.Set(id, connections.m[id].(topicAliases := t.1));
          :- AppendToLogs(publish.(topic := topic));
      }
    }

    // Queues the ack of a publish; a QoS 2 publish is recorded until its PubRel.
    method AcknowledgePublish(id: ConnectionId, publish: Publish, props: Props)
      requires Present(View(), id)
      modifies this`ackslog
      ensures View() == match publish.qos
                        case AtLeastOnce => Commit(old(View()), id, PubAck(publish.pkid))
                        case ExactlyOnce => old(View()).(ackslog := old(ackslog).Set(id,
                            old(ackslog).m[id].Record(publish, props)))
                        case AtMostOnce => old(View())
    {
      match publish.qos {
        case AtLeastOnce => ackslog := ackslog.Set(id, ackslog.m[id].Commit(PubAck(publish.pkid)));
        case ExactlyOnce => ackslog := ackslog.Set(id, ackslog.m[id].Record(publish, props));
        case AtMostOnce =>
      }
    }

    method OnPublish(id: ConnectionId, publish: Publish, props: Props, f: Flags) returns (e: Exit, f': Flags)
      requires Present(View(), id) && RequestsOk(View()) && !f.stop
      modifies this`ackslog, this`connections, this`notifications, datalog
      ensures e.Normal? <==> PacketSliced(Of(old(View()), f), id, PacketPublish(publish, props))
      ensures e.Normal? ==> Of(View(), f') == HandlePublish(Of(old(View()), f), id, publish, props)
    {
      hide RequestsOk, RouterModel.AppendToCommitlog, HandlePublish, LookupSliced, Resolve;
      e := Normal;
      ghost var s := View();
      PublishIs(s, id, publish, props, f);
      AcknowledgePublish(id, publish, props);
      f' := if publish.qos == AtMostOnce then f else f.(forceAck := true);
      if publish.qos == ExactlyOnce {
        return;
      }
      RequestsFrame(s, View());
      var err :- AppendToCommitlog(id, publish, props, f', true);
      match err {
        case None => f' := f'.(newData := true);
        case Some(reason) => f' := f'.(disconnect := true, reason := err, stop := true);
      }
    }

    method ListSubscriber(id: ConnectionId, path: Filter)
      modifies this`subscriptionMap
      ensures subscriptionMap == AddSubscriber(old(subscriptionMap), path, id)
    {
      if path in subscriptionMap {
        subscriptionMap := subscriptionMap[path := subscriptionMap[path] + {id}];
      } else {
        subscriptionMap := subscriptionMap[path := {} + {id}];
      }
    }

    // Lists the connection for a filter and, if the subscription is new, starts its request.
    method PrepareFilter(id: ConnectionId, cursor: Cursor, filterIdx: FilterIdx, path: Filter, qos: QoS)
      requires Present(View(), id) && Logged(View().datalog, path, filterIdx, cursor)
      modifies this`subscriptionMap, this`connections, this`accounts, scheduler
      ensures View() == SubscribeOne(old(View()), id, path, qos)
    {
      hide S.Scheduler.Reschedule, QueueKept, SubscribeOne, Logged, AddSubscriber;
      SubscribeOneIsPrepared(View(), id, cursor, filterIdx, path, qos);
      ListSubscriber(id, path);
      var c := connections.m[id];
      if path !in c.subscriptions {
        connections := connections.Set(id, c.(subscriptions := c.subscriptions + {path}));
        accounts := accounts[(c.clientId, path) := Account(cursor.offset, {}, {}, {})];
        scheduler.Track(id, DataRequest(path, filterIdx, qos, cursor, 0, true));
        scheduler.Reschedule(id, S.NewFilter);
      }
    }

    // One filter of a Subscribe.
    method SubscribeTo(id: ConnectionId, path: Filter, qos: QoS) returns (e: Exit)
      requires Present(View(), id) && RequestsOk(View())
      modifies this`subscriptionMap, this`connections, this`accounts, scheduler, datalog
      ensures e.Normal? <==> RegisterSliced(old(datalog.Model()), path)
      ensures e.Normal? ==> View() == SubscribeOne(old(View()), id, path, qos)
    {
      hide RegisterSliced, RequestsOk, RegistryOk, DataLogOk, SubscribeOne, Register, Log.NextOffset;
      e := Normal;
      ghost var s := View();
      RegistryFrom(s);
      RegisteredFirst(s, id, path, qos);
      var idx, cursor :- datalog.NextNativeOffset(path);
      PrepareFilter(id, cursor, idx, path, qos);
    }

    method SubscribeFilters(id: ConnectionId, filters: seq<(Filter, QoS)>, subscriptionId: Option<nat>, f: Flags)
      returns (e: Exit, f': Flags, returnCodes: seq<QoS>)
      requires Present(View(), id) && RequestsOk(View())
      modifies this`subscriptionMap, this`connections, this`accounts, scheduler, datalog
      ensures e.Normal? <==> SubscribeSliced(Of(old(View()), f), id, filters, subscriptionId)
      ensures e.Normal? ==>
                (Of(View(), f'), returnCodes) == SubscribeAll(Of(old(View()), f), id, filters, subscriptionId)
      ensures e.Normal? ==> Present(View(), id)
    {
      hide SubscribeSliced, RegisterSliced, RequestsOk, SubscribeOne, SameNames, Subscribers, Present, SubscribeAll;
      ghost var b := Of(View(), f);
      e, f', returnCodes := Normal, f, [];
      var i := 0;
      AllFromStart(b, id, filters, subscriptionId);
      while i < |filters|
        invariant i <= |filters| && Present(View(), id) && RequestsOk(View())
        invariant SubscribeAll(b, id, filters, subscriptionId) ==
                  Joined(returnCodes, SubscribeAll(Of(View(), f'), id, filters[i..], subscriptionId))
        invariant SubscribeSliced(b, id, filters, subscriptionId)
                  == SubscribeSliced(Of(View(), f'), id, filters[i..], subscriptionId)
      {
        ghost var s := View();
        SubscribeStep(Of(s, f'), id, filters, i, subscriptionId, returnCodes);
        var path, qos := filters[i].0, filters[i].1;
        if RefusedFilter(path) {
          f' := f'.(disconnect := true);
          return;
        }
        if subscriptionId == Some(0) {
          f' := f'.(disconnect := true, reason := Some(ProtocolError));
          return;
        }
        SubscribeOneRequests(s, id, path, qos);
        SubscribeOneSame(s, id, path, qos);
        SameNamesPresent(s, SubscribeOne(s, id, path, qos));
        :- SubscribeTo(id, path, qos);
        returnCodes := returnCodes + [qos];
        i := i + 1;
      }
      AllToEnd(Of(View(), f'), id, filters, subscriptionId, returnCodes);
    }

    method OnSubscribe(id: ConnectionId, pkid: nat, filters: seq<(Filter, QoS)>, subscriptionId: Option<nat>, f: Flags)
      returns (e: Exit, f': Flags)
      requires Present(View(), id) && RequestsOk(View())
      modifies this`subscriptionMap, this`connections, this`accounts, this`ackslog, scheduler, datalog
      ensures e.Normal? <==> PacketSliced(Of(old(View()), f), id, PacketSubscribe(pkid, filters, subscriptionId))
      ensures e.Normal? ==>
                Of(View(), f') == RouterModel.HandlePacket(Of(old(View()), f), id,
                                                           PacketSubscribe(pkid, filters, subscriptionId))
    {
      hide SubscribeSliced, RequestsOk, SubscribeAll;
      e, f' := Normal, f;
      var returnCodes;
      f', returnCodes :- SubscribeFilters(id, filters, subscriptionId, f);
      ackslog := ackslog.Set(id, ackslog.m[id].Commit(SubAck(pkid, returnCodes)));
      f' := f'.(forceAck := true);
    }

    // Drops a subscription with its tracked and parked request.
    method LeaveFilter(id: ConnectionId, path: Filter)
      requires Present(View(), id) && RegistryOk(datalog.Model())
      modifies this`connections, this`accounts, scheduler, datalog
      ensures View() == Leave(old(View()), id, path)
    {
      hide RegistryOk, RemoveWaiter, S.WithoutFilter;
      var c := connections.m[id];
      connections := connections.Set(id, c.(subscriptions := c.subscriptions - {path}));
      scheduler.Untrack(id, path);
      datalog.RemoveWaitersForId(id, path);
      accounts := accounts - {(c.clientId, path)};
    }

    method CommitAck(id: ConnectionId, a: Ack)
      requires Present(View(), id)
      modifies this`ackslog
      ensures View() == Commit(old(View()), id, a) && Present(View(), id)
    {
      ackslog := ackslog.Set(id, ackslog.m[id].Commit(a));
    }

    method UnsubscribeFrom(id: ConnectionId, pkid: nat, path: Filter, f: Flags) returns (f': Flags)
      requires Present(View(), id) && RequestsOk(View())
      modifies this`subscriptionMap, this`connections, this`accounts, this`ackslog, scheduler, datalog
      ensures Of(View(), f') == UnsubscribeOne(Of(old(View()), f), id, pkid, path)
    {
      hide RequestsOk, RegistryOk, Leave, Commit, UnsubscribeOne;
      ghost var s := View();
      RegistryFrom(s);
      UnsubscribeIs(s, id, pkid, path, f);
      f' := f;
      if path !in subscriptionMap || id !in subscriptionMap[path] {
        return;
      }
      subscriptionMap := subscriptionMap[path := subscriptionMap[path] - {id}];
      if path !in connections.m[id].subscriptions {
        return;
      }
      LeaveFilter(id, path);
      CommitAck(id, UnsubAck(pkid));
      f' := f'.(forceAck := true);
    }

    method OnUnsubscribe(id: ConnectionId, pkid: nat, filters: seq<Filter>, f: Flags) returns (f': Flags)
      requires Present(View(), id) && RequestsOk(View())
      modifies this`subscriptionMap, this`connections, this`accounts, this`ackslog, scheduler, datalog
      ensures Of(View(), f') == UnsubscribeAll(Of(old(View()), f), id, pkid, filters)
    {
      hide RequestsOk, UnsubscribeOne, UnsubscribeAll, SameNames, Subscribers, Present;
      ghost var b := Of(View(), f);
      f' := f;
      var i := 0;
      assert filters[0..] == filters;
      while i < |filters|
        invariant i <= |filters| && Present(View(), id) && RequestsOk(View())
        invariant UnsubscribeAll(Of(View(), f'), id, pkid, filters[i..]) == UnsubscribeAll(b, id, pkid, filters)
      {
        ghost var c := Of(View(), f');
        UnsubscribeStep(c, id, pkid, filters, i);
        UnsubscribeOneRequests(c, id, pkid, filters[i]);
        UnsubscribeOneSame(c, id, pkid, filters[i]);
        SameNamesPresent(c.r, UnsubscribeOne(c, id, pkid, filters[i]).r);
        f' := UnsubscribeFrom(id, pkid, filters[i], f');
        i := i + 1;
      }
      UnsubscribeEnd(Of(View(), f'), id, pkid, filters);
    }

    // The head of the window goes; the answer tells whether it was the one acknowledged.
    method RegisterAck(id: ConnectionId, pkid: nat) returns (ok: bool)
      requires Present(View(), id)
      modifies this`obufs, this`accounts
      ensures View() == RouterModel.RegisterAck(old(View()), id, pkid) && Present(View(), id)
      ensures ok == old(obufs).m[id].RegisterAck(pkid).1
    {
      hide Settle, Outgoing.RegisterAck;
      accounts := Settle(View(), id, pkid);
      var r := obufs.m[id].RegisterAck(pkid);
      obufs := obufs.Set(id, r.0);
      ok := r.1;
    }

    method OnPubAck(id: ConnectionId, pkid: nat, f: Flags) returns (f': Flags)
      requires Present(View(), id)
      modifies this`obufs, this`accounts, scheduler
      ensures Of(View(), f') == HandlePubAck(Of(old(View()), f), id, pkid)
    {
      hide RouterModel.RegisterAck, Outgoing.RegisterAck, S.Scheduler.Reschedule, QueueKept;
      f' := f;
      var ok := RegisterAck(id, pkid);
      if !ok {
        f' := f'.(disconnect := true, stop := true);
        return;
      }
      scheduler.Reschedule(id, S.IncomingAck);
    }

    // Remembers a QoS 2 publish until its PubComp, and answers with the PubRel.
    method ReleasePublish(id: ConnectionId, pkid: nat)
      requires Present(View(), id)
      modifies this`obufs, this`ackslog, scheduler
      ensures View() == Reschedule(Commit(WithPubRec(old(View()), id, pkid), id, PubRel(pkid)), id, S.IncomingAck)
    {
      hide S.Scheduler.Reschedule, QueueKept, Commit;
      obufs := obufs.Set(id, obufs.m[id].RegisterPubRec(pkid));
      CommitAck(id, PubRel(pkid));
      CommitStays(WithPubRec(old(View()), id, pkid), id, PubRel(pkid));
      scheduler.Reschedule(id, S.IncomingAck);
    }

    method OnPubRec(id: ConnectionId, pkid: nat, f: Flags) returns (f': Flags)
      requires Present(View(), id)
      modifies this`obufs, this`accounts, this`ackslog, scheduler
      ensures Of(View(), f') == HandlePubRec(Of(old(View()), f), id, pkid)
    {
      hide RouterModel.RegisterAck, Outgoing.RegisterAck, Reschedule, Commit, HandlePubRec, WithPubRec;
      PubRecIs(View(), id, pkid, f);
      f' := f;
      var ok := RegisterAck(id, pkid);
      if !ok {
        f' := f'.(disconnect := true, stop := true);
        return;
      }
      ReleasePublish(id, pkid);
    }

    method StoreReleased(id: ConnectionId, rec: (Publish, Props), f: Flags) returns (e: Exit, f': Flags)
      requires Present(View(), id) && RequestsOk(View()) && !f.stop
      modifies this`connections, this`notifications, datalog, scheduler
      ensures e.Normal? <==> AppendSliced(old(View()), id, rec.0, rec.1)
      ensures e.Normal? ==> var b := RouterModel.AppendToCommitlog(Of(old(View()), f), id, rec.0, rec.1, false);
              Of(View(), f') == if b.stop then b else b.(r := Reschedule(b.r, id, S.IncomingAck))
    {
      hide AppendSliced, RequestsOk, RouterModel.AppendToCommitlog, S.Scheduler.Reschedule, QueueKept;
      AppendStays(View(), id, rec.0, rec.1, f);
      e, f' := Normal, f;
      var err :- AppendToCommitlog(id, rec.0, rec.1, f, false);
      if err.Some? {
        f' := f.(disconnect := true, stop := true);
        return;
      }
      f' := f.(newData := true);
      scheduler.Reschedule(id, S.IncomingAck);
    }

    method OnPubRel(id: ConnectionId, pkid: nat, f: Flags) returns (e: Exit, f': Flags)
      requires Present(View(), id) && RequestsOk(View()) && !f.stop
      modifies this`ackslog, this`connections, this`notifications, datalog, scheduler
      ensures e.Normal? <==> PacketSliced(Of(old(View()), f), id, PacketPubRel(pkid, false))
      ensures e.Normal? ==> Of(View(), f') == HandlePubRel(Of(old(View()), f), id, pkid)
    {
      hide LookupSliced, Resolve, RequestsOk, RouterModel.AppendToCommitlog, HandlePubRel, Reschedule, AckLog.Release;
      e, f' := Normal, f;
      ghost var s := View();
      PubRelIs(s, id, pkid, f);
      var a := ackslog.m[id].Release(pkid);
      ackslog := ackslog.Set(id, a.0);
      match a.1 {
        case None => f' := f.(disconnect := true, stop := true);
        case Some(rec) =>
          RequestsFrame(s, View());
          f' :- StoreReleased(id, rec, f);
      }
    }

    method OnPubComp(id: ConnectionId, pkid: nat, f: Flags) returns (f': Flags)
      requires Present(View(), id)
      modifies this`obufs
      ensures Of(View(), f') == HandlePubComp(Of(old(View()), f), id, pkid)
    {
      hide Outgoing.RegisterPubComp;
      f' := f;
      var r := obufs.m[id].RegisterPubComp(pkid);
      obufs := obufs.Set(id, r.0);
      if !r.1 {
        f' := f'.(disconnect := true, stop := true);
      }
    }

    method HandlePacket(id: ConnectionId, packet: Packet, f: Flags) returns (e: Exit, f': Flags)
      requires Present(View(), id) && RequestsOk(View()) && !f.stop
      modifies this, datalog, scheduler
      ensures e.Normal? <==> PacketSliced(Of(old(View()), f), id, packet)
      ensures e.Normal? ==> Of(View(), f') == RouterModel.HandlePacket(Of(old(View()), f), id, packet)
      ensures graveyard.connections == old(graveyard.connections)
    {
      hide AppendSliced, SubscribeSliced, AckLog.Release, RequestsOk, Commit, SubscribeAll, UnsubscribeAll,
        HandlePublish, HandlePubAck, HandlePubRec, HandlePubRel, HandlePubComp;
      e, f' := Normal, f;
      match packet {
        case PacketPublish(publish, props) => f' :- OnPublish(id, publish, props, f);
        case PacketSubscribe(pkid, filters, subscriptionId) => f' :- OnSubscribe(id, pkid, filters, subscriptionId, f);
        case PacketUnsubscribe(pkid, paths) => f' := OnUnsubscribe(id, pkid, paths, f);
        case PacketPubAck(pkid) => f' := OnPubAck(id, pkid, f);
        case PacketPubRec(pkid) => f' := OnPubRec(id, pkid, f);
        case PacketPubRel(pkid, hasProps) =>
          if !hasProps {
            f' :- OnPubRel(id, pkid, f);
          }
        case PacketPubComp(pkid) => f' := OnPubComp(id, pkid, f);
        case PacketPingReq =>
          CommitAck(id, PingResp);
          f' := f.(forceAck := true);
        case PacketDisconnect =>
          lastWills := lastWills - {ibufs.m[id].clientId};
          f' := f.(disconnect := true, stop := true);
        case PacketOther =>
      }
    }

    // The packets of a batch, in order, until one of them ends it.
    method HandleBatch(id: ConnectionId, packets: seq<Packet>) returns (e: Exit, f: Flags)
      requires Present(View(), id) && RequestsOk(View()) && notifications == []
      modifies this, datalog, scheduler
      ensures e.Normal? <==> PacketsSliced(Of(old(View()), Flags(false, false, false, None, false)), id, packets)
      ensures e.Normal? ==>
                Of(View(), f) == HandlePackets(Of(old(View()), Flags(false, false, false, None, false)), id, packets)
      ensures e.Normal? ==>
                Present(View(), id) && SameNames(old(View()), View()) && RequestsOk(View())
                  && (notifications != [] ==> f.newData)
    {
      hide PacketSliced, PacketsSliced, RequestsOk, RouterModel.HandlePacket, HandlePackets, NamesOf, Subscribers,
        Present;
      e, f := Normal, Flags(false, false, false, None, false);
      ghost var s, b := View(), Of(View(), f);
      var i := 0;
      assert packets[0..] == packets;
      while i < |packets|
        invariant i <= |packets| && Present(View(), id) && RequestsOk(View()) && SameNames(s, View())
        invariant HandlePackets(Of(View(), f), id, packets[i..]) == HandlePackets(b, id, packets)
        invariant PacketsSliced(Of(View(), f), id, packets[i..]) == PacketsSliced(b, id, packets)
        invariant notifications != [] ==> f.newData
      {
        if f.stop {
          break;
        }
        ghost var c := Of(View(), f);
        PacketStep(c, id, packets, i);
        HandlePacketRequests(c, id, packets[i]);
        HandlePacketFlagged(c, id, packets[i]);
        HandlePacketSame(c, id, packets[i]);
        SameNamesPresent(c.r, RouterModel.HandlePacket(c, id, packets[i]).r);
        f :- HandlePacket(id, packets[i], f);
        i := i + 1;
      }
      PacketsEnd(Of(View(), f), id, packets, i);
    }

    method HandleDevicePayload(id: ConnectionId) returns (e: Exit)
      requires Identified(View()) && RequestsOk(View()) && notifications == []
      modifies this, graveyard, datalog, scheduler
      ensures e.Normal? <==> DeviceDataSliced(old(View()), id)
      ensures e.Normal? ==> View() == DeviceData(old(View()), id)
    {
      hide PacketsSliced, RequestsOk, HandlePackets, NamesOf, NamesOk, WakeAll, Disconnect, S.Scheduler.Reschedule,
        QueueKept, Subscribers;
      e := Normal;
      ghost var s := View();
      IdentifiedPresent(s);
      if id !in ibufs.m {
        return;
      }
      var packets := ibufs.m[id].buffer;
      ibufs := ibufs.Set(id, ibufs.m[id].(buffer := []));
      ghost var s0 := View();
      SetIbufSame(s, id, s.ibufs.m[id].(buffer := []));
      RequestsFrame(s, s0);
      var f :- HandleBatch(id, packets);
      FinishBatch(id, f);
    }

    // Flushes acks, wakes consumers of new data, and only then drops the connection if it must go.
    method FinishBatch(id: ConnectionId, f: Flags)
      requires Identified(View()) && RequestsOk(View()) && Present(View(), id) && (notifications != [] ==> f.newData)
      modifies this, graveyard, datalog, scheduler
      ensures View() == Finish(Of(old(View()), f), id)
    {
      hide RequestsOk, NamesOf, NamesOk, WakeAll, Disconnect, S.Scheduler.Reschedule, QueueKept, Subscribers,
        SubscribersOk;
      ghost var s := View();
      RescheduleRequests(s, id, S.FreshData);
      RescheduleSame(s, id, S.FreshData);
      if f.forceAck {
        scheduler.Reschedule(id, S.FreshData);
      }
      WakeAllSame(View());
      if f.newData {
        WakeWaiters();
      }
      if f.disconnect {
        HandleDisconnection(id);
      }
    }

    // Takes a connection apart, with everything it has tracked and parked.
    method RemoveConnection(id: ConnectionId)
      returns (connection: Connection, outgoing: Outgoing, tracker: S.Tracker, inflightDataRequests: seq<DataRequest>)
      requires Present(View(), id)
      modifies this, datalog, scheduler
      ensures View() == Removed(old(View()), id)
      ensures connection == old(connections).m[id] && outgoing == old(obufs).m[id]
              && tracker == old(scheduler.trackers).m[id]
      ensures inflightDataRequests == DataLogModel.Clean(old(datalog.Model()), id).1
    {
      hide DataLogModel.Clean, QueueKept, Removed;
      RemovedIs(View(), id);
      connection, outgoing := connections.m[id], obufs.m[id];
      connections := connections.Remove(id);
      ibufs := ibufs.Remove(id);
      obufs := obufs.Remove(id);
      tracker := scheduler.Remove(id);
      connectionMap := connectionMap - {outgoing.clientId};
      ackslog := ackslog.Remove(id);
      inflightDataRequests := datalog.Clean(id);
      subscriptionMap := Unsubscribed(subscriptionMap, connection.subscriptions, id);
    }

    // A persistent session is saved with its requests rewound in place; of a clean one only the name.
    method HandleDisconnection(id: ConnectionId)
      requires Identified(View())
      modifies this, graveyard, datalog, scheduler
      ensures View() == Disconnect(old(View()), id)
    {
      hide NamesOf, NamesOk, DataLogModel.Clean, Retransmissions, RewindAll, ForgetAccounts, Disconnect, Removed;
      ghost var s := View();
      IdentifiedPresent(s);
      if id !in obufs.m {
        AbsentStays(s, id);
        return;
      }
      DisconnectIsRemoved(s, id);
      var connection, outgoing, tracker, inflightDataRequests := RemoveConnection(id);
      if !connection.clean {
        var requests := RewindRequests(tracker.requests + inflightDataRequests, Retransmissions(outgoing.inflight));
        graveyard.SaveState(tracker.(requests := requests), connection.subscriptions, outgoing.unackedPubrels);
      } else {
        graveyard.SaveMetrics(tracker.id);
        accounts := ForgetAccounts(accounts, connection.clientId);
      }
    }

    method HandleLastWill(client: ClientId) returns (e: Exit)
      requires RequestsOk(View())
      modifies this, datalog, scheduler
      ensures e.Normal? <==> WillSliced(old(View()), client)
      ensures e.Normal? ==> View() == PublishWill(old(View()), client)
    {
      hide LookupSliced, RequestsOk, DataLogOk, AcceptPublish, WakeAll;
      e := Normal;
      if client !in lastWills {
        return;
      }
      ghost var s := View();
      var publish := lastWills[client];
      lastWills := lastWills - {client};
      RequestsFrame(s, View());
      RequestsLogs(View());
      AcceptPublishRequests(View(), publish);
      :- AppendToLogs(publish);
      WakeWaiters();
    }

    // Puts a connection into all five slabs; the keys they hand out agree.
    method Enroll(connection: Connection, outgoing: Outgoing, acks: AckLog,
                  tracker: S.Tracker) returns (id: ConnectionId)
      requires Identified(View())
      modifies this, scheduler
      ensures id == old(connections).NextKey() && id !in old(connections).m && id in scheduler.trackers.m
      ensures View() == WithConnection(old(View()), connection, outgoing, acks, tracker)
    {
      hide Identified;
      AdmitKeysAgree(View());
      id := connections.NextKey();
      connections := connections.Insert(connection);
      var incomingId := ibufs.NextKey();
      ibufs := ibufs.Insert(Incoming(connection.clientId, []));
      assert incomingId == id;
      var outgoingId := obufs.NextKey();
      obufs := obufs.Insert(outgoing);
      assert outgoingId == id;
      connectionMap := connectionMap[connection.clientId := id];
      var acksId := ackslog.NextKey();
      ackslog := ackslog.Insert(acks);
      assert acksId == id;
      var trackerId := scheduler.Add(tracker);
      assert trackerId == id;
    }

    // The saved session of a client, unless it asks for a clean one.
    method RetrieveSession(client: ClientId, clean: bool) returns (session: Option<Session>)
      modifies this`accounts, graveyard
      ensures session == if clean then None else SavedSession(old(View()), client)
      ensures View() == Retrieved(old(View()), client, session)
    {
      hide ForgetAccounts;
      var saved := graveyard.Retrieve(client);
      session := if clean || saved.None? then None else saved.value;
      if session.None? {
        accounts := ForgetAccounts(accounts, client);
      }
    }

    // Restores a saved session, and queues the ConnAck and the releases still to be answered.
    method AdmitConnection(client: ClientId, clean: bool, will: Option<Publish>)
      requires Identified(View())
      modifies this, graveyard, scheduler
      ensures View() == Admit(old(View()), client, clean, will)
    {
      hide Identified, Admit, WithConnection, FirstConnection, FirstAcks, FirstTracker, S.Scheduler.Reschedule,
        QueueKept;
      ghost var s := View();
      AdmitIs(s, client, clean, will);
      var session := RetrieveSession(client, clean);
      RetrievedIdentified(s, client, session, lastWills);
      if will.Some? {
        lastWills := lastWills[client := will.value];
        RetrievedIdentified(s, client, session, lastWills);
      }
      var pendingAcks := if session.Some? then session.value.unackedPubrels else [];
      var id := Enroll(FirstConnection(client, clean, session), NewOutgoing(client, pendingAcks),
                       FirstAcks(connections.NextKey(), session), FirstTracker(client, session));
      scheduler.Reschedule(id, S.Init);
    }

    method HandleNewConnection(client: ClientId, clean: bool, will: Option<Publish>)
      requires Identified(View())
      modifies this, graveyard, datalog, scheduler
      ensures View() == Connect(old(View()), client, clean, will)
    {
      hide Identified, Admit, Disconnect, Subscribers;
      if !ValidClientId(client) {
        return;
      }
      if client in connectionMap {
        DisconnectKeeps(View(), connectionMap[client]);
        HandleDisconnection(connectionMap[client]);
      }
      if |connections.m| >= config.maxConnections {
        return;
      }
      AdmitConnection(client, clean, will);
    }

    // Everything acknowledged goes into the send buffer, with one token for all of it.
    method AckDeviceData(id: ConnectionId)
      requires Present(View(), id)
      modifies this`ackslog, this`obufs
      ensures View() == SendAcks(old(View()), id) && Present(View(), id)
    {
      hide DeviceAcks;
      var acks := ackslog.m[id].committed;
      if acks == [] {
        return;
      }
      ackslog := ackslog.Set(id, ackslog.m[id].(committed := []));
      var o := obufs.m[id];
      obufs := obufs.Set(id, o.(buffer := o.buffer + DeviceAcks(acks)).Notify());
    }

    // What one sweep may send: retained publishes first, once, then what the log has from the cursor on.
    method Collect(id: ConnectionId, request: DataRequest) returns (e: Exit, publishes: seq<Item>, read: ReadResult)
      requires Present(View(), id) && Readable(datalog.Model(), request)
      requires request.qos == AtMostOnce || obufs.m[id].FreeSlots() > 0
      ensures e.Normal? <==> SweepSliced(datalog.Model(), obufs.m[id], request)
      ensures e.Normal? ==>
              var dl, o := datalog.Model(), obufs.m[id];
              && read == Pull(dl, o, request)
              && publishes == RetainedItems(dl, request, Slots(dl, o, request)) + LogItems(read.entries)
    {
      hide RetainedSliced, Log.Read, Log.CursorOk, LogItems, RetainedFor, Outgoing.FreeSlots;
      e, read := Normal, ReadResult([], request.cursor, request.cursor, true);
      var slots := datalog.config.maxOutgoingPacketCount;
      if request.qos != AtMostOnce {
        slots := obufs.m[id].FreeSlots();
      }
      publishes := [];
      if request.forwardRetained {
        var retained :- datalog.ReadRetainedMessages(request.filter);
        if |retained| > slots {
          retained := retained[..slots];
        }
        publishes := AsRetained(retained);
        slots := slots - |publishes|;
      }
      read := datalog.NativeReadv(request.filterIdx, request.cursor, slots);
      publishes := publishes + LogItems(read.entries);
    }

    method ForwardDeviceData(id: ConnectionId, request: DataRequest) returns (e: Exit, status: ConsumeStatus,
        request': DataRequest)
      requires Present(View(), id) && Readable(datalog.Model(), request)
      modifies this`obufs, this`accounts
      ensures e.Normal? <==> SweepSliced(old(datalog.Model()), old(obufs).m[id], request)
      ensures e.Normal? ==>
              var f := ForwardData(old(datalog.Model()), old(obufs).m[id], request);
              && request' == f.1 && status == f.2
              && View() == if f.2 == ConsumeStatus.InflightFull then old(View())
                else Forwarded(old(View()), id, request, f.0)
    {
      hide RetainedSliced, Pull, RetainedItems, LogItems, Readable, Skip, Outgoing.PushForwards, Outgoing.FreeSlots;
      e, status, request' := Normal, ConsumeStatus.InflightFull, request;
      var o := obufs.m[id];
      if request.qos != AtMostOnce && o.FreeSlots() == 0 {
        return;
      }
      var publishes, read :- Collect(id, request);
      accounts := Skip(View(), id, request);
      request' := request.(readCount := request.readCount + |publishes|, cursor := read.end, forwardRetained := false);
      if publishes == [] {
        SameMap(obufs, id);
        return e, FilterCaughtup, request';
      }
      o := o.PushForwards(publishes, request.qos, request.filterIdx);
      if |o.buffer| >= MAX_CHANNEL_CAPACITY - 1 {
        obufs := obufs.Set(id, o.PushNotification(Unschedule).Notify());
        return e, BufferFull, request';
      }
      obufs := obufs.Set(id, o.Notify());
      status := if read.done then FilterCaughtup else PartialRead;
    }

    // One request: sent as far as it goes, then kept for later, parked, or the reason to stop.
    method ServeOne(id: ConnectionId, request: DataRequest, rest: seq<DataRequest>)
      returns (e: Exit, requests: seq<DataRequest>, more: bool)
      requires Present(View(), id) && Readable(datalog.Model(), request) && AtBack(scheduler.Model(), id)
      requires scheduler.trackers.m[id].requests == []
      modifies this`obufs, this`accounts, datalog, scheduler
      ensures e.Normal? <==> SweepSliced(old(datalog.Model()), old(obufs).m[id], request)
      ensures e.Normal? ==>
                Present(View(), id) && (Loaded(View(), id, requests), more)
                  == SweepLoaded(old(View()), id, request, rest)
      ensures e.Normal? ==> scheduler.trackers.m[id].requests == [] && (more ==> AtBack(scheduler.Model(), id))
    {
      hide SweepSliced, ForwardData, Forwarded, Readable, DataLogModel.Park, Loaded, QueueKept, Pause,
        S.Scheduler.Pause, AtBack;
      ghost var s, f := View(), ForwardData(datalog.Model(), obufs.m[id], request);
      ForwardedLoaded(s, id, request, f.0, rest);
      ReadableIndex(datalog.Model(), request);
      ForwardIndex(datalog.Model(), obufs.m[id], request);
      e, more, requests := Normal, true, rest;
      var status, r :- ForwardDeviceData(id, request);
      match status {
        case BufferFull =>
          requests, more := rest + [r], false;
          PauseIs(View(), id, S.Busy);
          PauseShape(View(), id, S.Busy);
          scheduler.Pause(id, S.Busy);
        case InflightFull =>
          requests, more := rest + [r], false;
          PauseIs(View(), id, S.PauseReason.InflightFull);
          PauseShape(View(), id, S.PauseReason.InflightFull);
          scheduler.Pause(id, S.PauseReason.InflightFull);
        case FilterCaughtup => datalog.Park(id, r);
        case PartialRead => requests := rest + [r];
      }
    }

    // What is left of the requests taken from a tracker goes back to it.
    method PutBack(id: ConnectionId, requests: seq<DataRequest>)
      requires Present(View(), id) && scheduler.trackers.m[id].requests == []
      modifies scheduler
      ensures View() == Loaded(old(View()), id, requests)
    {
      hide Loaded, QueueKept;
      LoadedIs(View(), id, requests);
      scheduler.Trackv(id, requests);
    }

    // Serves the requests taken from a tracker until they are exhausted, the link or the window is
    // full, or the turn is over; what is left goes back to the tracker.
    method ServeRequests(id: ConnectionId, data: seq<DataRequest>) returns (e: Exit)
      requires Present(View(), id) && scheduler.trackers.m[id].requests == [] && AtBack(scheduler.Model(), id)
      requires RequestsOk(Loaded(View(), id, data)) && Windows(obufs)
      modifies this`obufs, this`accounts, datalog, scheduler
      ensures e.Normal? <==> LoopSliced(Loaded(old(View()), id, data), id, MAX_SCHEDULE_ITERATIONS)
      ensures e.Normal? ==> View() == ConsumeLoop(Loaded(old(View()), id, data), id, MAX_SCHEDULE_ITERATIONS)
    {
      hide SweepSliced, LoopSliced, RequestsOk, ConsumeLoop, Readable, Windows, Loaded, QueueKept, SweepLoaded, Pause,
        AtBack, S.Scheduler.Pause;
      e := Normal;
      var requests, n := data, 0;
      ghost var target := ConsumeLoop(Loaded(View(), id, data), id, MAX_SCHEDULE_ITERATIONS);
      ghost var passes := LoopSliced(Loaded(View(), id, data), id, MAX_SCHEDULE_ITERATIONS);
      while n < MAX_SCHEDULE_ITERATIONS
        invariant n <= MAX_SCHEDULE_ITERATIONS && Present(View(), id)
        invariant scheduler.trackers.m[id].requests == [] && AtBack(scheduler.Model(), id)
        invariant RequestsOk(Loaded(View(), id, requests)) && Windows(obufs)
        invariant ConsumeLoop(Loaded(View(), id, requests), id, MAX_SCHEDULE_ITERATIONS - n) == target
        invariant LoopSliced(Loaded(View(), id, requests), id, MAX_SCHEDULE_ITERATIONS - n) == passes
      {
        ghost var s := View();
        LoopStep(s, id, requests, MAX_SCHEDULE_ITERATIONS - n);
        if requests == [] {
          PauseShape(s, id, S.Caughtup);
          scheduler.Pause(id, S.Caughtup);
          return;
        }
        var request, rest, more := requests[0], requests[1..], false;
        assert requests == [request] + rest;
        LoopKeeps(s, id, request, rest);
        requests, more :- ServeOne(id, request, rest);
        LoadedObufs(View(), id, requests);
        if !more {
          PutBack(id, requests);
          return;
        }
        n := n + 1;
      }
      LoopEnd(View(), id, requests);
      PutBack(id, requests);
    }

    // One turn of the ready queue; the answer is false when there was nothing to serve.
    method Consume() returns (e: Exit, progress: bool)
      requires Identified(View()) && RequestsOk(View()) && Windows(obufs)
      modifies this`obufs, this`accounts, this`ackslog, datalog, scheduler
      ensures e.Normal? <==> ConsumeSliced(old(View()))
      ensures e.Normal? ==> (View(), progress) == RouterModel.Consume(old(View()))
    {
      hide LoopSliced, NamesOf, NamesOk, RequestsOk, Windows, WindowOk, ConsumeLoop, SendAcks, Loaded, QueueKept,
        S.Scheduler.Rotate;
      e, progress := Normal, true;
      ghost var s := View();
      IdentifiedPresent(s);
      var next := scheduler.Poll();
      if next.None? {
        RotatedWithout(s.scheduler);
        return e, false;
      }
      var (id, requests) := next.value;
      if id !in obufs.m {
        return;
      }
      PolledIs(s, View(), id, requests);
      AckDeviceData(id);
      :- ServeRequests(id, requests);
    }

    // What every event finds and leaves behind.
    ghost predicate Ready()
      reads this, graveyard, datalog, scheduler
    {
      Identified(View()) && RequestsOk(View()) && Windows(obufs) && notifications == []
    }

    // One event of the loop. It ends in a panic exactly when one of the code's checks fails. Arrive and
    // Exchange are what a link does to the buffers it shares with the router.
    method Handle(e: Event) returns (exit: Exit)
      requires Ready()
      modifies this, graveyard, datalog, scheduler
      ensures exit.Normal? <==> Panics.Safe(old(View()), e)
      ensures exit.Normal? ==> View() == Step(old(View()), e) && Ready()
    {
      hide Identified, RequestsOk, Windows, Subscribers, Connect, DeviceData, Disconnect, PublishWill,
        RouterModel.Consume,
        S.Scheduler.Reschedule, QueueKept, Panics.Safe, DeviceDataSliced, WillSliced, ConsumeSliced;
      StepKeeps(View(), e);
      StepRequests(View(), e);
      StepWindow(View(), e);
      Panics.PanicsIff(View(), e);
      exit := Normal;
      match e {
        case EventConnect(client, clean, will) => HandleNewConnection(client, clean, will);
        case EventDeviceData(id) => :- HandleDevicePayload(id);
        case EventDisconnect(id) => HandleDisconnection(id);
        case EventReady(id) =>
          if id !in scheduler.trackers.m {
            return Panic;
          }
          scheduler.Reschedule(id, S.LinkReady);
        case EventPublishWill(client) => :- HandleLastWill(client);
        case EventConsume => var progress :- Consume();
        case EventArrive(id, packet) =>
          if id in ibufs.m {
            ibufs := ibufs.Set(id, ibufs.m[id].(buffer := ibufs.m[id].buffer + [packet]));
          }
        case EventExchange(id) =>
          if id in obufs.m && obufs.m[id].tokens > 0 {
            obufs := obufs.Set(id, obufs.m[id].(buffer := [], tokens := obufs.m[id].tokens - 1));
          }
      }
    }
  }

  lemma RegistryFrom(s: RouterModel.Router)
    requires RequestsOk(s)
    ensures RegistryOk(s.datalog)
  {
    hide LogsOk, CacheOk, FanOut, HeldOk, ParkedOk;
  }

  lemma WokenLive(s: RouterModel.Router)
    requires RequestsOk(s) && s.notifications != []
    ensures s.notifications[0].0 in s.scheduler.trackers.m
  {
    hide DataLogOk, ParkedOk, TrackedOk, SavedOk, SentOk, ReqOk;
  }

  lemma TrackStays(c: S.Scheduler, id: ConnectionId, r: DataRequest)
    requires id in c.trackers.m
    ensures id in c.Track(id, r).trackers.m
  {
  }

  lemma AppendIs(s: RouterModel.Router, id: ConnectionId, p: Publish, props: Props, f: Flags, report: bool)
    requires Present(s, id)
    ensures var b, t := Of(s, f), Resolve(s.connections.m[id].topicAliases, p, props);
            RouterModel.AppendToCommitlog(b, id, p, props, report) ==
              match t.0
              case None => Fail(if report then b.(reason := Some(t.2)) else b)
              case Some(topic) =>
                b.(r := AcceptPublish(s.(connections := s.connections.Set(id,
                    s.connections.m[id].(topicAliases := t.1))), p.(topic := topic)),
                   newData := true)
  {
    hide Resolve, AcceptPublish;
  }

  lemma PublishIs(s: RouterModel.Router, id: ConnectionId, p: Publish, props: Props, f: Flags)
    requires Present(s, id)
    ensures Present(Commit(s, id, PubAck(p.pkid)), id)
    ensures HandlePublish(Of(s, f), id, p, props) ==
            match p.qos
            case AtLeastOnce => RouterModel.AppendToCommitlog(Of(Commit(s, id, PubAck(p.pkid)), f.(forceAck := true)),
                                                              id, p, props, true)
            case ExactlyOnce => Of(s.(ackslog := s.ackslog.Set(id, s.ackslog.m[id].Record(p, props))),
                                   f.(forceAck := true))
            case AtMostOnce => RouterModel.AppendToCommitlog(Of(s, f), id, p, props, true)
  {
    hide RouterModel.AppendToCommitlog;
  }

  lemma UnsubscribeStep(b: Batch, id: ConnectionId, pkid: nat, paths: seq<Filter>, i: nat)
    requires i < |paths| && Present(b.r, id)
    ensures UnsubscribeAll(b, id, pkid, paths[i..])
            == UnsubscribeAll(UnsubscribeOne(b, id, pkid, paths[i]), id, pkid, paths[i + 1..])
  {
    hide UnsubscribeOne;
    assert paths[i..][0] == paths[i] && paths[i..][1..] == paths[i + 1..];
  }

  lemma UnsubscribeEnd(b: Batch, id: ConnectionId, pkid: nat, paths: seq<Filter>)
    ensures UnsubscribeAll(b, id, pkid, paths[|paths|..]) == b
  {
  }

  lemma UnsubscribeIs(s: RouterModel.Router, id: ConnectionId, pkid: nat, path: Filter, f: Flags)
    requires Present(s, id)
    ensures UnsubscribeOne(Of(s, f), id, pkid, path) ==
            if path !in s.subscriptionMap || id !in s.subscriptionMap[path] then Of(s, f)
            else
              var s1 := s.(subscriptionMap := s.subscriptionMap[path := s.subscriptionMap[path] - {id}]);
              if path !in s.connections.m[id].subscriptions then Of(s1, f)
              else if Present(Leave(s1, id, path), id) then Of(Commit(Leave(s1, id, path), id, UnsubAck(pkid)),
                                                               f.(forceAck := true))
              else Of(s, f)
    ensures path in s.subscriptionMap ==>
              Present(Leave(s.(subscriptionMap := s.subscriptionMap[path := s.subscriptionMap[path] - {id}]), id, path),
                      id)
  {
    hide Leave;
    if path in s.subscriptionMap {
      var s1 := s.(subscriptionMap := s.subscriptionMap[path := s.subscriptionMap[path] - {id}]);
      LeaveSame(s1, id, path);
    }
  }

  lemma PubRelIs(s: RouterModel.Router, id: ConnectionId, pkid: nat, f: Flags)
    requires Present(s, id) && !f.stop
    ensures var a := s.ackslog.m[id].Release(pkid);
            var s1 := s.(ackslog := s.ackslog.Set(id, a.0));
            && Present(s1, id)
            && HandlePubRel(Of(s, f), id, pkid) ==
               match a.1
               case None => Fail(Of(s1, f))
               case Some(rec) =>
                 var b := RouterModel.AppendToCommitlog(Of(s1, f), id, rec.0, rec.1, false);
                 if b.stop then b else b.(r := Reschedule(b.r, id, S.IncomingAck))
  {
    hide RouterModel.AppendToCommitlog, S.Scheduler.Reschedule;
  }

  lemma AppendStays(s: RouterModel.Router, id: ConnectionId, p: Publish, props: Props, f: Flags)
    requires Present(s, id)
    ensures RouterModel.AppendToCommitlog(Of(s, f), id, p, props, false).r.scheduler == s.scheduler
  {
    hide RouterModel.AppendToCommitlog;
    AppendFrame(Of(s, f), id, p, props, false);
  }

  lemma PacketStep(b: Batch, id: ConnectionId, packets: seq<Packet>, i: nat)
    requires i < |packets| && Present(b.r, id) && !b.stop
    ensures HandlePackets(b, id, packets[i..])
            == HandlePackets(RouterModel.HandlePacket(b, id, packets[i]), id, packets[i + 1..])
    ensures PacketsSliced(b, id, packets[i..]) ==
            (PacketSliced(b, id, packets[i])
             && PacketsSliced(RouterModel.HandlePacket(b, id, packets[i]), id, packets[i + 1..]))
  {
    hide RouterModel.HandlePacket, PacketSliced;
    assert packets[i..][0] == packets[i] && packets[i..][1..] == packets[i + 1..];
  }

  lemma PacketsEnd(b: Batch, id: ConnectionId, packets: seq<Packet>, i: nat)
    requires i <= |packets| && (i == |packets| || b.stop)
    ensures HandlePackets(b, id, packets[i..]) == b && PacketsSliced(b, id, packets[i..])
  {
  }

  // Moves the cursor of every request that has something in flight.
  method RewindRequests(requests: seq<DataRequest>, retransmissions: map<FilterIdx,
                        Cursor>) returns (rewound: seq<DataRequest>)
    ensures rewound == RewindAll(requests, retransmissions)
  {
    rewound := requests;
    var i := 0;
    while i < |rewound|
      invariant i <= |rewound| == |requests|
      invariant forall j :: 0 <= j < |requests| ==> rewound[j] == if j < i then Rewind(requests[j], retransmissions)
                else requests[j]
    {
      if rewound[i].filterIdx in retransmissions {
        rewound := rewound[i := rewound[i].(cursor := retransmissions[rewound[i].filterIdx])];
      }
      i := i + 1;
    }
  }

  // A disconnect before the session is saved.
  function Removed(s: RouterModel.Router, id: ConnectionId): RouterModel.Router {
    Disconnect(s, id).(graveyard := s.graveyard, accounts := s.accounts)
  }

  lemma RemovedIs(s: RouterModel.Router, id: ConnectionId)
    requires Present(s, id)
    ensures Removed(s, id) ==
            s.(connections := s.connections.Remove(id), ibufs := s.ibufs.Remove(id), obufs := s.obufs.Remove(id),
               scheduler := s.scheduler.(trackers := s.scheduler.trackers.Remove(id)),
               connectionMap := s.connectionMap - {s.obufs.m[id].clientId},
               ackslog := s.ackslog.Remove(id),
               datalog := DataLogModel.Clean(s.datalog, id).0,
               subscriptionMap := Unsubscribed(s.subscriptionMap, s.connections.m[id].subscriptions, id))
  {
    hide DataLogModel.Clean, RewindAll, Retransmissions, ForgetAccounts, Unsubscribed;
  }

  lemma DisconnectIsRemoved(s: RouterModel.Router, id: ConnectionId)
    requires Present(s, id)
    ensures var c, o, t := s.connections.m[id], s.obufs.m[id], s.scheduler.trackers.m[id];
            var requests := RewindAll(t.requests + DataLogModel.Clean(s.datalog, id).1, Retransmissions(o.inflight));
            Disconnect(s, id) == Removed(s, id).(
              graveyard := s.graveyard[t.id :=
                if c.clean then None
                  else Some(Session(S.Tracker(t.id, requests, S.Paused(S.Busy)), c.subscriptions, o.unackedPubrels))],
              accounts := if c.clean then ForgetAccounts(s.accounts, c.clientId) else s.accounts)
    ensures Removed(s, id).graveyard == s.graveyard && Removed(s, id).accounts == s.accounts
  {
    hide DataLogModel.Clean, RewindAll, Retransmissions, ForgetAccounts, Unsubscribed;
  }

  // A connection in every slab, not yet scheduled.
  function WithConnection(s: RouterModel.Router, c: Connection, o: Outgoing, a: AckLog,
                          t: S.Tracker): RouterModel.Router {
    s.(connections := s.connections.Insert(c), ibufs := s.ibufs.Insert(Incoming(c.clientId, [])),
       obufs := s.obufs.Insert(o),
       connectionMap := s.connectionMap[c.clientId := s.connections.NextKey()],
       ackslog := s.ackslog.Insert(a), scheduler := s.scheduler.(trackers := s.scheduler.trackers.Insert(t)))
  }

  function Retrieved(s: RouterModel.Router, client: ClientId, session: Option<Session>): RouterModel.Router {
    s.(graveyard := s.graveyard - {client}, accounts := if session.Some? then s.accounts
       else ForgetAccounts(s.accounts, client))
  }

  function FirstConnection(client: ClientId, clean: bool, session: Option<Session>): (c: Connection)
    ensures c.clientId == client
  {
    Connection(client, clean, if session.Some? then session.value.subscriptions else {}, map[])
  }

  function FirstTracker(client: ClientId, session: Option<Session>): S.Tracker {
    if session.Some? then session.value.tracker else S.Tracker(client, [], S.Paused(S.Busy))
  }

  function FirstAcks(id: ConnectionId, session: Option<Session>): AckLog {
    AckLog([ConnAck(id, session.Some?)] + PubRels(if session.Some? then session.value.unackedPubrels else []), [])
  }

  lemma AdmitIs(s: RouterModel.Router, client: ClientId, clean: bool, will: Option<Publish>)
    ensures var session, id := if clean then None else SavedSession(s, client), s.connections.NextKey();
            var s1 := Retrieved(s, client, session).(lastWills := if will.Some? then s.lastWills[client := will.value]
                                                     else s.lastWills);
            Admit(s, client, clean, will) ==
            Reschedule(WithConnection(s1, FirstConnection(client, clean, session),
                                      NewOutgoing(client, if session.Some? then session.value.unackedPubrels else []),
                                      FirstAcks(id, session), FirstTracker(client, session)), id, S.Init)
  {
    hide PubRels, ForgetAccounts, S.Scheduler.Reschedule;
  }

  // Identity survives taking a session out of the graveyard.
  lemma RetrievedIdentified(s: RouterModel.Router, client: ClientId, session: Option<Session>, wills: map<ClientId,
                            Publish>)
    requires Identified(s)
    ensures Identified(Retrieved(s, client, session).(lastWills := wills))
  {
    hide Project, InLockstep, ForgetAccounts;
    var t := Retrieved(s, client, session).(lastWills := wills);
    assert NamesOf(t) == NamesOf(s).(graveyard := t.graveyard);
    LockstepStays(NamesOf(s), t.graveyard);
  }

  lemma LockstepStays(n: Names, g: map<ClientId, Option<Session>>)
    requires InLockstep(n)
    ensures InLockstep(n.(graveyard := g))
  {
  }

  lemma SameMap<T>(s: Slab<T>, id: nat)
    requires id in s.m
    ensures s.Set(id, s.m[id]) == s
  {
  }

  lemma PauseShape(s: RouterModel.Router, id: ConnectionId, why: S.PauseReason)
    ensures Pause(s, id, why) == s.(scheduler := s.scheduler.Pause(id, why))
  {
    hide S.Scheduler.Pause;
  }

  lemma ReadableIndex(dl: DataLogModel.DataLog, r: DataRequest)
    requires Readable(dl, r)
    ensures r.filterIdx < |dl.native|
  {
  }

  lemma ForwardIndex(dl: DataLogModel.DataLog, o: Outgoing, r: DataRequest)
    ensures ForwardData(dl, o, r).1.filterIdx == r.filterIdx
  {
    hide Pull, Slots, RetainedItems, LogItems, Outgoing.PushForwards;
  }

  lemma LoadedObufs(s: RouterModel.Router, id: ConnectionId, rs: seq<DataRequest>)
    requires Present(s, id)
    ensures Loaded(s, id, rs).obufs == s.obufs
  {
  }

  lemma RotatedWithout(c: S.Scheduler)
    requires c.readyqueue == [] || c.readyqueue[0] !in c.trackers.m
    ensures c.Rotate() == S.Scheduler(c.trackers, c.Rotate().readyqueue)
    ensures c.readyqueue == [] ==> c.Rotate() == c
  {
  }

  // A connection whose requests have been taken out of its tracker, with them put back.
  function Loaded(s: RouterModel.Router, id: ConnectionId, requests: seq<DataRequest>): RouterModel.Router
    requires Present(s, id)
  {
    SetRequests(s, id, requests)
  }

  lemma Overwrite<T>(m: map<nat, T>, k: nat, a: T, b: T)
    ensures m[k := a][k := b] == m[k := b]
    ensures k in m && m[k] == b ==> m[k := b] == m
  {
  }

  lemma PauseIs(s: RouterModel.Router, id: ConnectionId, why: S.PauseReason)
    requires Present(s, id)
    ensures Present(Pause(s, id, why), id)
    ensures Pause(s, id, why).scheduler.trackers.m[id].requests == s.scheduler.trackers.m[id].requests
    ensures forall rs :: Pause(Loaded(s, id, rs), id, why) == Loaded(Pause(s, id, why), id, rs)
  {
    forall rs
      ensures Pause(Loaded(s, id, rs), id, why) == Loaded(Pause(s, id, why), id, rs)
    {
      PauseLoaded(s.scheduler, id, rs, why);
    }
  }

  lemma PauseLoaded(c: S.Scheduler, id: ConnectionId, rs: seq<DataRequest>, why: S.PauseReason)
    requires id in c.trackers.m
    ensures id in c.Pause(id, why).trackers.m
    ensures c.SetTracker(id, c.trackers.m[id].(requests := rs)).Pause(id, why)
            == c.Pause(id, why).SetTracker(id, c.Pause(id, why).trackers.m[id].(requests := rs))
  {
    var t := c.trackers.m[id];
    Overwrite(c.trackers.m, id, t.(requests := rs), t.(requests := rs, status := S.Paused(why)));
    Overwrite(c.trackers.m, id, t.(status := S.Paused(why)), t.(requests := rs, status := S.Paused(why)));
  }

  lemma LoadedTwice(s: RouterModel.Router, id: ConnectionId, rs: seq<DataRequest>, more: seq<DataRequest>)
    requires Present(s, id)
    ensures Present(Loaded(s, id, rs), id)
    ensures SetRequests(Loaded(s, id, rs), id, more) == Loaded(s, id, more)
    ensures s.scheduler.trackers.m[id].requests == rs ==> Loaded(s, id, rs) == s
  {
    var m, t := s.scheduler.trackers.m, s.scheduler.trackers.m[id];
    Overwrite(m, id, t.(requests := rs), t.(requests := more));
  }

  // A sweep of a loaded connection, done on the drained one.
  function SweepLoaded(s: RouterModel.Router, id: ConnectionId, r: DataRequest,
                       rest: seq<DataRequest>): (RouterModel.Router, bool)
    requires Present(s, id)
  {
    var f := ForwardData(s.datalog, s.obufs.m[id], r);
    var t := Forwarded(s, id, r, f.0);
    match f.2
    case InflightFull => (LoadedIf(Pause(s, id, S.PauseReason.InflightFull), id, rest + [f.1]), false)
    case BufferFull => (LoadedIf(Pause(t, id, S.Busy), id, rest + [f.1]), false)
    case FilterCaughtup => (LoadedIf(t.(datalog := DataLogModel.Park(s.datalog, id, f.1)), id, rest), true)
    case PartialRead => (LoadedIf(t, id, rest + [f.1]), true)
  }

  function LoadedIf(s: RouterModel.Router, id: ConnectionId, rs: seq<DataRequest>): RouterModel.Router {
    if Present(s, id) then Loaded(s, id, rs) else s
  }

  lemma SweepLoadedIs(s: RouterModel.Router, id: ConnectionId, r: DataRequest, rest: seq<DataRequest>)
    requires Present(s, id)
    ensures var l := Loaded(s, id, [r] + rest);
            && Present(l, id) && l.scheduler.trackers.m[id].requests == [r] + rest
            && ConsumeOne(l, id) == SweepLoaded(s, id, r, rest)
  {
    hide ForwardData, Skip, DataLogModel.Park, S.Scheduler.Pause;
    var l, f := Loaded(s, id, [r] + rest), ForwardData(s.datalog, s.obufs.m[id], r);
    assert ([r] + rest)[1..] == rest;
    SkipLoaded(s, id, r, [r] + rest);
    ForwardedLoaded(s, id, r, f.0, rest);
    ForwardedLoaded(s, id, r, f.0, rest + [f.1]);
    LoadedTwice(s, id, [r] + rest, rest + [f.1]);
    LoadedTwice(s, id, [r] + rest, rest);
    PauseIs(s, id, S.PauseReason.InflightFull);
    PauseIs(Forwarded(s, id, r, f.0), id, S.Busy);
  }

  lemma SkipLoaded(s: RouterModel.Router, id: ConnectionId, r: DataRequest, rs: seq<DataRequest>)
    requires Present(s, id)
    ensures Present(Loaded(s, id, rs), id) && Skip(Loaded(s, id, rs), id, r) == Skip(s, id, r)
  {
  }

  lemma ForwardedLoaded(s: RouterModel.Router, id: ConnectionId, r: DataRequest, o: Outgoing, rs: seq<DataRequest>)
    requires Present(s, id)
    ensures Present(Forwarded(s, id, r, o), id) && Forwarded(s, id, r, o).datalog == s.datalog
            && Forwarded(s, id, r, o).scheduler == s.scheduler
  {
    hide Skip;
  }

  // One round of the loop, on the loaded state.
  lemma LoopStep(s: RouterModel.Router, id: ConnectionId, requests: seq<DataRequest>, k: nat)
    requires Present(s, id) && s.scheduler.trackers.m[id].requests == [] && k > 0
    ensures ConsumeLoop(Loaded(s, id, requests), id, k) ==
            if requests == [] then Pause(s, id, S.Caughtup)
            else
              var r := SweepLoaded(s, id, requests[0], requests[1..]);
              if r.1 then ConsumeLoop(r.0, id, k - 1) else r.0
    ensures LoopSliced(Loaded(s, id, requests), id, k) ==
            (requests == [] ||
             var r := SweepLoaded(s, id, requests[0], requests[1..]);
             SweepSliced(s.datalog, s.obufs.m[id], requests[0]) && (r.1 ==> LoopSliced(r.0, id, k - 1)))
  {
    hide SweepSliced, SweepLoaded, S.Scheduler.Pause, ConsumeOne;
    LoadedTwice(s, id, requests, requests);
    if requests != [] {
      assert [requests[0]] + requests[1..] == requests;
      SweepLoadedIs(s, id, requests[0], requests[1..]);
    }
  }

  lemma LoopKeeps(s: RouterModel.Router, id: ConnectionId, r: DataRequest, rest: seq<DataRequest>)
    requires Present(s, id) && RequestsOk(Loaded(s, id, [r] + rest)) && Windows(s.obufs)
    ensures Readable(s.datalog, r)
    ensures RequestsOk(SweepLoaded(s, id, r, rest).0) && Windows(SweepLoaded(s, id, r, rest).0.obufs)
  {
    hide RequestsOk, WindowOk, ConsumeOne, SweepLoaded, ReqOk, Readable, DataLogOk;
    var l := Loaded(s, id, [r] + rest);
    SweepLoadedIs(s, id, r, rest);
    WindowsAt(s.obufs, id);
    TrackedAt(l, id);
    RequestsLogs(l);
    assert r in [r] + rest;
    ReadableRequest(l.datalog, r);
    ConsumeOneRequests(l, id);
    ConsumeOneWindow(l, id);
  }

  lemma LoopEnd(s: RouterModel.Router, id: ConnectionId, requests: seq<DataRequest>)
    requires Present(s, id)
    ensures ConsumeLoop(Loaded(s, id, requests), id, 0) == Loaded(s, id, requests)
    ensures LoopSliced(Loaded(s, id, requests), id, 0)
  {
    hide Loaded;
  }

  lemma LoadedIs(s: RouterModel.Router, id: ConnectionId, requests: seq<DataRequest>)
    requires Present(s, id) && s.scheduler.trackers.m[id].requests == []
    ensures var t := s.scheduler.trackers.m[id];
            Loaded(s, id, requests) ==
            s.(scheduler := s.scheduler.(trackers := s.scheduler.trackers.Set(id,
                t.(requests := t.requests + requests))))
  {
    assert [] + requests == requests;
  }

  // A polled connection: drained, at the back of the queue, and still the state the model serves.
  lemma PolledIs(s: RouterModel.Router, t: RouterModel.Router, id: ConnectionId, requests: seq<DataRequest>)
    requires Identified(s) && RequestsOk(s) && Windows(s.obufs) && s.scheduler.readyqueue != []
             && id == s.scheduler.readyqueue[0]
    requires Present(s, id) && requests == s.scheduler.trackers.m[id].requests
    requires t == s.(scheduler := S.Scheduler(s.scheduler.trackers.Set(id, s.scheduler.trackers.m[id].(requests := [])),
                                              s.scheduler.Rotate().readyqueue))
    ensures Present(t, id) && Present(SendAcks(t, id), id)
    ensures SendAcks(t, id).scheduler == t.scheduler
    ensures RequestsOk(Loaded(SendAcks(t, id), id, requests)) && Windows(SendAcks(t, id).obufs)
    ensures RouterModel.Consume(s)
            == (ConsumeLoop(Loaded(SendAcks(t, id), id, requests), id, MAX_SCHEDULE_ITERATIONS), true)
    ensures ConsumeSliced(s) == LoopSliced(Loaded(SendAcks(t, id), id, requests), id, MAX_SCHEDULE_ITERATIONS)
  {
    hide LoopSliced, NamesOf, NamesOk, RequestsOk, Windows, ConsumeLoop, DeviceAcks;
    var s1 := s.(scheduler := s.scheduler.Rotate());
    RequestsFrame(s, s1);
    SendAcksRequests(s1, id);
    DrainedIs(s1, t, id, requests);
  }

  lemma DrainedIs(s1: RouterModel.Router, t: RouterModel.Router, id: ConnectionId, requests: seq<DataRequest>)
    requires Present(s1, id) && requests == s1.scheduler.trackers.m[id].requests
    requires t == SetRequests(s1, id, [])
    ensures Present(t, id) && Present(SendAcks(t, id), id) && SendAcks(t, id).scheduler == t.scheduler
    ensures Loaded(SendAcks(t, id), id, requests) == SendAcks(s1, id)
    ensures SendAcks(t, id).obufs == SendAcks(s1, id).obufs
  {
    hide DeviceAcks;
    var m, u := s1.scheduler.trackers.m, s1.scheduler.trackers.m[id];
    Overwrite(m, id, u.(requests := []), u);
  }

  function WithPubRec(s: RouterModel.Router, id: ConnectionId, pkid: nat): (t: RouterModel.Router)
    requires Present(s, id)
    ensures Present(t, id)
  {
    s.(obufs := s.obufs.Set(id, s.obufs.m[id].RegisterPubRec(pkid)))
  }

  lemma CommitStays(s: RouterModel.Router, id: ConnectionId, a: Ack)
    requires Present(s, id)
    ensures Commit(s, id, a).scheduler == s.scheduler
  {
  }

  lemma PubRecIs(s: RouterModel.Router, id: ConnectionId, pkid: nat, f: Flags)
    requires Present(s, id)
    ensures var s1 := RouterModel.RegisterAck(s, id, pkid);
            && Present(s1, id)
            && HandlePubRec(Of(s, f), id, pkid) ==
               if !s.obufs.m[id].RegisterAck(pkid).1 then Fail(Of(s1, f))
               else Of(Reschedule(Commit(WithPubRec(s1, id, pkid), id, PubRel(pkid)), id, S.IncomingAck), f)
  {
    hide Outgoing.RegisterAck, Outgoing.RegisterPubRec, S.Scheduler.Reschedule;
    RegisterAckFrame(s, id, pkid);
  }

  function Joined(codes: seq<QoS>, r: (Batch, seq<QoS>)): (Batch, seq<QoS>) {
    (r.0, codes + r.1)
  }

  lemma AllFromStart(b: Batch, id: ConnectionId, filters: seq<(Filter, QoS)>, subId: Option<nat>)
    ensures SubscribeAll(b, id, filters, subId) == Joined([], SubscribeAll(b, id, filters[0..], subId))
  {
    hide SubscribeAll;
    assert filters[0..] == filters;
    assert [] + SubscribeAll(b, id, filters, subId).1 == SubscribeAll(b, id, filters, subId).1;
  }

  lemma AllToEnd(b: Batch, id: ConnectionId, filters: seq<(Filter, QoS)>, subId: Option<nat>, codes: seq<QoS>)
    ensures Joined(codes, SubscribeAll(b, id, filters[|filters|..], subId)) == (b, codes)
    ensures SubscribeSliced(b, id, filters[|filters|..], subId)
  {
    assert filters[|filters|..] == [];
    assert codes + [] == codes;
  }

  // One round of the loop over the filters of a Subscribe.
  lemma SubscribeStep(b: Batch, id: ConnectionId, filters: seq<(Filter, QoS)>, i: nat, subId: Option<nat>,
                      codes: seq<QoS>)
    requires i < |filters| && Present(b.r, id)
    ensures Joined(codes, SubscribeAll(b, id, filters[i..], subId)) ==
            if RefusedFilter(filters[i].0) then (b.(disconnect := true), codes)
            else if subId == Some(0) then (b.(disconnect := true, reason := Some(ProtocolError)), codes)
            else Joined(codes + [filters[i].1],
                        SubscribeAll(b.(r := SubscribeOne(b.r, id, filters[i].0, filters[i].1)), id, filters[i + 1..],
                                     subId))
    ensures SubscribeSliced(b, id, filters[i..], subId) ==
            (RefusedFilter(filters[i].0) || subId == Some(0) ||
             (RegisterSliced(b.r.datalog, filters[i].0)
              && SubscribeSliced(b.(r := SubscribeOne(b.r, id, filters[i].0, filters[i].1)), id, filters[i + 1..],
                                 subId)))
  {
    hide SubscribeOne, Present, RegisterSliced;
    var rest := filters[i..];
    assert rest[0] == filters[i] && rest[1..] == filters[i + 1..];
    assert codes + [] == codes;
    var more := SubscribeAll(b.(r := SubscribeOne(b.r, id, filters[i].0, filters[i].1)), id, filters[i + 1..], subId).1;
    assert codes + ([filters[i].1] + more) == (codes + [filters[i].1]) + more;
  }
}

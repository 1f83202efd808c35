// What one connection says to the broker, in order, and what the broker answers: packets are handled as
// they arrived, a topic alias stands for the topic it was last given, and every packet gets its acks.
module Dialogue {
  import opened Types
  import opened Slabs
  import opened DataLogModel
  import opened OutgoingModel
  import opened SchedulerModel
  import opened RouterModel
  import opened Frames
  import opened Identity
  import opened Queue
  import opened ConservationRuns
  import opened Inbound
  import opened Inputs
  import opened Acceptance

  type Binding = (nat, Topic)

  // ---------------------------------------------------------------------------------------------
  // Topic aliases

  // The last binding of an alias gave it this topic.
  ghost predicate LastBound(h: seq<Binding>, k: nat, topic: Topic) {
    exists i :: BoundAt(h, k, topic, i)
  }

  ghost predicate BoundAt(h: seq<Binding>, k: nat, topic: Topic, i: int) {
    0 <= i < |h| && h[i] == (k, topic) && forall j :: i < j < |h| ==> h[j].0 != k
  }

  ghost predicate TableIs(table: map<nat, Topic>, h: seq<Binding>) {
    forall k: nat, topic: Topic :: (k in table && table[k] == topic) <==> LastBound(h, k, topic)
  }

  lemma BindingSnoc(h: seq<Binding>, b: Binding, k: nat, topic: Topic)
    ensures LastBound(h + [b], k, topic) <==> if b.0 == k then b.1 == topic else LastBound(h, k, topic)
  {
    var n := |h|;
    assert (h + [b])[n] == b;
    if i :| BoundAt(h + [b], k, topic, i) {
      if i < n {
        assert (h + [b])[n].0 != k;
        assert BoundAt(h, k, topic, i) by {
          assert forall j :: i < j < n ==> (h + [b])[j] == h[j];
        }
      }
    }
    if b == (k, topic) {
      assert BoundAt(h + [b], k, topic, n);
    }
    if b.0 != k {
      forall i | BoundAt(h, k, topic, i)
        ensures BoundAt(h + [b], k, topic, i)
      {
      }
    }
  }

  // Bindings turn one table into another.
  ghost predicate Rebinds(a: map<nat, Topic>, b: map<nat, Topic>, bound: seq<Binding>) {
    forall h :: TableIs(a, h) ==> TableIs(b, h + bound)
  }

  lemma RebindsOne(table: map<nat, Topic>, k: nat, topic: Topic)
    ensures Rebinds(table, table[k := topic], [(k, topic)])
  {
    forall h | TableIs(table, h)
      ensures TableIs(table[k := topic], h + [(k, topic)])
    {
      forall k': nat, topic': Topic
        ensures (k' in table[k := topic] && table[k := topic][k'] == topic') <==>
                  LastBound(h + [(k, topic)], k', topic')
      {
        BindingSnoc(h, (k, topic), k', topic');
      }
    }
  }

  lemma RebindsNothing(table: map<nat, Topic>)
    ensures Rebinds(table, table, [])
  {
    forall h: seq<Binding>
      ensures h + [] == h
    {
    }
  }

  lemma RebindsThen(a: map<nat, Topic>, b: map<nat, Topic>, c: map<nat, Topic>, p: seq<Binding>, q: seq<Binding>)
    requires Rebinds(a, b, p) && Rebinds(b, c, q)
    ensures Rebinds(a, c, p + q)
  {
    hide TableIs, Rebinds;
    forall h | TableIs(a, h)
      ensures TableIs(c, h + (p + q))
    {
      RebindsFrom(a, b, p, h);
      RebindsFrom(b, c, q, h + p);
      assert h + (p + q) == (h + p) + q;
    }
    RebindsIf(a, c, p + q);
  }

  lemma RebindsFrom(a: map<nat, Topic>, b: map<nat, Topic>, bound: seq<Binding>, h: seq<Binding>)
    requires Rebinds(a, b, bound) && TableIs(a, h)
    ensures TableIs(b, h + bound)
  {
    hide TableIs;
  }

  lemma RebindsIf(a: map<nat, Topic>, b: map<nat, Topic>, bound: seq<Binding>)
    requires forall h :: TableIs(a, h) ==> TableIs(b, h + bound)
    ensures Rebinds(a, b, bound)
  {
    hide TableIs;
  }

  // ---------------------------------------------------------------------------------------------
  // Packets

  // What a packet binds: an alias in range to the topic that comes with it.
  function Binds(p: Publish, props: Props): seq<Binding> {
    if props.subscriptionIds == [] && props.topicAlias.Some? && 1 <= props.topicAlias.value <= 4096
      && p.topic != "" then
      [(props.topicAlias.value, p.topic)]
    else []
  }

  function BoundBy(s: Router, id: ConnectionId, p: Packet): seq<Binding>
    requires Present(s, id)
  {
    var recorded := s.ackslog.m[id].recorded;
    match p
    case PacketPublish(publish, props) => if publish.qos == ExactlyOnce then [] else Binds(publish, props)
    case PacketPubRel(_, hasProps) => if hasProps || recorded == [] then [] else Binds(recorded[0].0, recorded[0].1)
    case _ => []
  }

  // The broker's own filters start with $, and a subscription identifier is never 0.
  predicate Barred(path: Filter, subId: Option<nat>) {
    (path != "" && path[0] == '$' && !("$share" <= path)) || subId == Some(0)
  }

  // The QoS asked for with each filter, up to the first that is barred.
  function Codes(filters: seq<(Filter, QoS)>, subId: Option<nat>): (codes: seq<QoS>)
    ensures |codes| <= |filters|
    ensures forall i :: 0 <= i < |codes| ==> codes[i] == filters[i].1 && !Barred(filters[i].0, subId)
    ensures |codes| < |filters| ==> Barred(filters[|codes|].0, subId)
  {
    if filters == [] || Barred(filters[0].0, subId) then [] else [filters[0].1] + Codes(filters[1..], subId)
  }

  // Filters among these that the connection is subscribed to and listed for.
  function LeftBy(s: Router, id: ConnectionId, paths: seq<Filter>): set<Filter>
    requires Present(s, id)
  {
    set f | f in paths && f in s.connections.m[id].subscriptions && f in s.subscriptionMap && id in s.subscriptionMap[f]
  }

  function UnsubAcks(n: nat, pkid: nat): seq<Ack> {
    seq(n, _ => UnsubAck(pkid))
  }

  lemma UnsubAcksAre(m: nat, n: nat, pkid: nat)
    ensures UnsubAcks(0, pkid) == [] && UnsubAcks(1, pkid) == [UnsubAck(pkid)]
    ensures UnsubAcks(m, pkid) + UnsubAcks(n, pkid) == UnsubAcks(m + n, pkid)
  {
  }

  // The acks a packet gets.
  function RepliesTo(s: Router, id: ConnectionId, p: Packet): seq<Ack>
    requires Present(s, id)
  {
    match p
    case PacketPublish(publish, _) =>
      (match publish.qos
       case AtMostOnce => []
       case AtLeastOnce => [PubAck(publish.pkid)]
       case ExactlyOnce => [PubRec(publish.pkid)])
    case PacketSubscribe(pkid, filters, subId) => [SubAck(pkid, Codes(filters, subId))]
    case PacketUnsubscribe(pkid, paths) => UnsubAcks(|LeftBy(s, id, paths)|, pkid)
    case PacketPubRec(pkid) =>
      var q := s.obufs.m[id].inflight;
      if q != [] && q[0].pkid == pkid then [PubRel(pkid)] else []
    case PacketPubRel(pkid, hasProps) => if hasProps then [] else [PubComp(pkid)]
    case PacketPingReq => [PingResp]
    case _ => []
  }

  ghost predicate SameTo(s: Router, t: Router, id: ConnectionId) {
    && (id in t.connections.m <==> id in s.connections.m) && (id in t.ackslog.m <==> id in s.ackslog.m)
    && (id in s.connections.m ==> t.connections.m[id].topicAliases == s.connections.m[id].topicAliases)
    && (id in s.ackslog.m ==> t.ackslog.m[id].committed == s.ackslog.m[id].committed)
  }

  // A step of one connection binds some aliases of its own and commits some acks to it; no other connection
  // notices.
  ghost predicate Told(s: Router, t: Router, id: ConnectionId, bound: seq<Binding>, acks: seq<Ack>) {
    && Present(s, id) && Present(t, id) && t.ibufs == s.ibufs
    && (forall other :: other != id ==> SameTo(s, t, other))
    && t.ackslog.m[id].committed == s.ackslog.m[id].committed + acks
    && Rebinds(s.connections.m[id].topicAliases, t.connections.m[id].topicAliases, bound)
  }

  lemma ToldNothing(s: Router, t: Router, id: ConnectionId)
    requires Present(s, id) && Present(t, id) && t.ibufs == s.ibufs && forall other :: SameTo(s, t, other)
    ensures Told(s, t, id, [], [])
  {
    hide Rebinds;
    assert SameTo(s, t, id);
    RebindsNothing(s.connections.m[id].topicAliases);
    assert s.ackslog.m[id].committed + [] == s.ackslog.m[id].committed;
  }

  lemma ToldThen(s: Router, t: Router, u: Router, id: ConnectionId, p: seq<Binding>, a: seq<Ack>, q: seq<Binding>,
                 b: seq<Ack>)
    requires Told(s, t, id, p, a) && Told(t, u, id, q, b)
    ensures Told(s, u, id, p + q, a + b)
  {
    hide Rebinds;
    RebindsThen(s.connections.m[id].topicAliases, t.connections.m[id].topicAliases, u.connections.m[id].topicAliases, p,
                q);
    var x := s.ackslog.m[id].committed;
    assert (x + a) + b == x + (a + b);
    forall other | other != id
      ensures SameTo(s, u, other)
    {
      assert SameTo(s, t, other) && SameTo(t, u, other);
    }
  }

  // Nothing is bound and nothing committed.
  ghost predicate Unsaid(s: Router, t: Router) {
    && t.connections.m.Keys == s.connections.m.Keys && t.ibufs == s.ibufs && t.ackslog == s.ackslog
    && forall id :: id in s.connections.m ==> t.connections.m[id].topicAliases == s.connections.m[id].topicAliases
  }

  lemma UnsaidTold(s: Router, t: Router, id: ConnectionId)
    requires Unsaid(s, t) && Present(s, id) && Present(t, id)
    ensures Told(s, t, id, [], [])
  {
    hide Rebinds, Told;
    ToldNothing(s, t, id);
  }

  lemma QuietlyTold(s: Router, t: Router, u: Router, id: ConnectionId, p: seq<Binding>, a: seq<Ack>)
    requires (Told(s, t, id, [], []) && Told(t, u, id, p, a)) || (Told(s, t, id, p, a) && Told(t, u, id, [], []))
    ensures Told(s, u, id, p, a)
  {
    hide Told;
    assert [] + p == p == p + [] && [] + a == a == a + [];
    if Told(s, t, id, [], []) && Told(t, u, id, p, a) {
      ToldThen(s, t, u, id, [], [], p, a);
    } else {
      ToldThen(s, t, u, id, p, a, [], []);
    }
  }

  lemma CommitTold(s: Router, id: ConnectionId, a: Ack)
    requires Present(s, id)
    ensures Told(s, Commit(s, id, a), id, [], [a])
  {
    hide Rebinds;
    RebindsNothing(s.connections.m[id].topicAliases);
  }

  lemma AppendTold(b: Batch, id: ConnectionId, p: Publish, props: Props, report: bool)
    requires Present(b.r, id)
    ensures Told(b.r, AppendToCommitlog(b, id, p, props, report).r, id, Binds(p, props), [])
  {
    hide Rebinds, Accept, Resolve, Binds;
    var table := b.r.connections.m[id].topicAliases;
    var t := Resolve(table, p, props);
    assert b.r.ackslog.m[id].committed + [] == b.r.ackslog.m[id].committed;
    ResolveBinds(table, p, props);
  }

  lemma ResolveBinds(table: map<nat, Topic>, p: Publish, props: Props)
    ensures var t := Resolve(table, p, props); Rebinds(table, if t.0.Some? then t.1 else table, Binds(p, props))
  {
    hide Rebinds;
    RebindsNothing(table);
    if Binds(p, props) != [] {
      RebindsOne(table, props.topicAlias.value, p.topic);
    }
  }

  lemma PublishTold(b: Batch, id: ConnectionId, p: Publish, props: Props)
    requires Present(b.r, id)
    ensures var packet := PacketPublish(p, props);
            Told(b.r, HandlePublish(b, id, p, props).r, id, BoundBy(b.r, id, packet), RepliesTo(b.r, id, packet))
  {
    hide Told, Binds, AppendToCommitlog, Commit;
    match p.qos {
      case AtMostOnce => AppendTold(b, id, p, props, true);
      case AtLeastOnce =>
        var b1 := b.(r := Commit(b.r, id, PubAck(p.pkid)), forceAck := true);
        CommitTold(b.r, id, PubAck(p.pkid));
        ToldPresent(b.r, b1.r, id);
        AppendTold(b1, id, p, props, true);
        ToldThen(b.r, b1.r, AppendToCommitlog(b1, id, p, props, true).r, id, [], [PubAck(p.pkid)], Binds(p, props), []);
        assert [] + Binds(p, props) == Binds(p, props) && [PubAck(p.pkid)] + [] == [PubAck(p.pkid)];
      case ExactlyOnce => RecordTold(b.r, id, p, props);
    }
  }

  lemma ToldPresent(s: Router, t: Router, id: ConnectionId)
    requires exists p, a :: Told(s, t, id, p, a)
    ensures Present(t, id)
  {
  }

  lemma RecordTold(s: Router, id: ConnectionId, p: Publish, props: Props)
    requires Present(s, id)
    ensures Told(s, s.(ackslog := s.ackslog.Set(id, s.ackslog.m[id].Record(p, props))), id, [], [PubRec(p.pkid)])
  {
    hide Rebinds;
    RebindsNothing(s.connections.m[id].topicAliases);
  }

  lemma SubscribeTold(b: Batch, id: ConnectionId, pkid: nat, filters: seq<(Filter, QoS)>, subId: Option<nat>)
    requires Present(b.r, id)
    ensures Told(b.r, HandlePacket(b, id, PacketSubscribe(pkid, filters, subId)).r, id, [],
                 [SubAck(pkid, Codes(filters, subId))])
  {
    hide Told, Commit, SubscribeAll, NothingNew, SameNames, Subscribers;
    var r := SubscribeAll(b, id, filters, subId);
    SubscribeAllSame(b, id, filters, subId);
    SameNamesPresent(b.r, r.0.r);
    SubscribeAllFrame(b, id, filters, subId);
    SubscribeAllBrings(b, id, filters, subId);
    SubscribeCodes(b, id, filters, subId);
    SameUnsaid(b.r, r.0.r);
    UnsaidTold(b.r, r.0.r, id);
    CommitTold(r.0.r, id, SubAck(pkid, r.1));
    QuietlyTold(b.r, r.0.r, Commit(r.0.r, id, SubAck(pkid, r.1)), id, [], [SubAck(pkid, r.1)]);
  }

  lemma SameUnsaid(s: Router, t: Router)
    requires NothingNew(s, t) && SameNames(s, t) && t.ibufs == s.ibufs && t.ackslog == s.ackslog
    ensures Unsaid(s, t)
  {
    hide SameStore;
    ProjectAt(s.connections, ConnectionName);
    ProjectAt(t.connections, ConnectionName);
  }

  lemma {:induction false} SubscribeCodes(b: Batch, id: ConnectionId, filters: seq<(Filter, QoS)>, subId: Option<nat>)
    requires Present(b.r, id)
    ensures SubscribeAll(b, id, filters, subId).1 == Codes(filters, subId)
    decreases |filters|
  {
    hide SubscribeOne, SameNames, Present, Subscribers;
    if filters != [] && !Barred(filters[0].0, subId) {
      var t := SubscribeOne(b.r, id, filters[0].0, filters[0].1);
      SubscribeOneSame(b.r, id, filters[0].0, filters[0].1);
      SameNamesPresent(b.r, t);
      SubscribeCodes(b.(r := t), id, filters[1..], subId);
    }
  }

  // ---------------------------------------------------------------------------------------------
  // Unsubscribing

  lemma UnsubscribeOneTold(b: Batch, id: ConnectionId, pkid: nat, path: Filter)
    requires Present(b.r, id)
    ensures Told(b.r, UnsubscribeOne(b, id, pkid, path).r, id, [], UnsubAcks(|LeftBy(b.r, id, [path])|, pkid))
  {
    hide Told, Leave, Commit, NothingNew, SameNames, Subscribers;
    LeftByOne(b.r, id, path);
    UnsubAcksAre(0, 1, pkid);
    UnsaidTold(b.r, b.r, id);
    if path in b.r.subscriptionMap && id in b.r.subscriptionMap[path] {
      var s := b.r.(subscriptionMap := b.r.subscriptionMap[path := b.r.subscriptionMap[path] - {id}]);
      UnsaidTold(b.r, s, id);
      if path in s.connections.m[id].subscriptions {
        LeaveFrame(s, id, path);
        LeaveSame(s, id, path);
        LeaveBrings(s, id, path);
        SameUnsaid(s, Leave(s, id, path));
        UnsaidTold(s, Leave(s, id, path), id);
        CommitTold(Leave(s, id, path), id, UnsubAck(pkid));
        QuietlyTold(b.r, s, Leave(s, id, path), id, [], []);
        QuietlyTold(b.r, Leave(s, id, path), Commit(Leave(s, id, path), id, UnsubAck(pkid)), id, [], [UnsubAck(pkid)]);
      }
    }
  }

  lemma LeftByOne(s: Router, id: ConnectionId, path: Filter)
    requires Present(s, id)
    ensures LeftBy(s, id, [path]) ==
            if path in s.connections.m[id].subscriptions && path in s.subscriptionMap && id in s.subscriptionMap[path]
            then {path} else {}
  {
  }

  // After an Unsubscribe the connection is not both subscribed to the filter and listed for it; nothing else
  // about its filters has changed.
  lemma UnsubscribeOneLists(b: Batch, id: ConnectionId, pkid: nat, path: Filter, f: Filter)
    requires Present(b.r, id)
    ensures var s, t := b.r, UnsubscribeOne(b, id, pkid, path).r;
            && Present(t, id)
            && (f in LeftBy(t, id, [f]) <==> f != path && f in LeftBy(s, id, [f]))
  {
    hide UnsubscribeOne;
    UnsubscribeOneParts(b, id, pkid, path);
  }

  lemma UnsubscribeOneParts(b: Batch, id: ConnectionId, pkid: nat, path: Filter)
    requires Present(b.r, id)
    ensures var s, t := b.r, UnsubscribeOne(b, id, pkid, path).r;
            var subs, listed := s.connections.m[id].subscriptions, path in s.subscriptionMap
              && id in s.subscriptionMap[path];
            && Present(t, id)
            && t.connections.m[id].subscriptions == (if listed then subs - {path} else subs)
            && t.subscriptionMap ==
               (if listed then s.subscriptionMap[path := s.subscriptionMap[path] - {id}] else s.subscriptionMap)
  {
    hide Leave;
    if path in b.r.subscriptionMap {
      var s := b.r.(subscriptionMap := b.r.subscriptionMap[path := b.r.subscriptionMap[path] - {id}]);
      LeaveParts(s, id, path);
    }
  }

  lemma LeaveParts(s: Router, id: ConnectionId, path: Filter)
    requires Present(s, id)
    ensures var t := Leave(s, id, path);
            && Present(t, id) && t.subscriptionMap == s.subscriptionMap
            && t.connections.m[id].subscriptions == s.connections.m[id].subscriptions - {path}
  {
    hide RemoveWaiter, WithoutFilter;
  }

  lemma LeftByEach(s: Router, id: ConnectionId, paths: seq<Filter>)
    requires Present(s, id)
    ensures forall f :: f in LeftBy(s, id, paths) <==> f in paths && f in LeftBy(s, id, [f])
  {
  }

  // What is left with the first filter is not left again with the others.
  lemma LeftByRest(b: Batch, id: ConnectionId, pkid: nat, paths: seq<Filter>)
    requires paths != [] && Present(b.r, id)
    ensures var t := UnsubscribeOne(b, id, pkid, paths[0]).r;
            && Present(t, id)
            && LeftBy(b.r, id, paths) == LeftBy(b.r, id, [paths[0]]) + LeftBy(t, id, paths[1..])
            && LeftBy(b.r, id, [paths[0]]) !! LeftBy(t, id, paths[1..])
  {
    hide UnsubscribeOne, LeftBy, Present;
    var t := UnsubscribeOne(b, id, pkid, paths[0]).r;
    assert paths == [paths[0]] + paths[1..];
    UnsubscribeOneLists(b, id, pkid, paths[0], paths[0]);
    LeftByEach(b.r, id, paths);
    LeftByEach(b.r, id, [paths[0]]);
    LeftByEach(t, id, paths[1..]);
    forall f
      ensures f in LeftBy(t, id, [f]) <==> f != paths[0] && f in LeftBy(b.r, id, [f])
    {
      UnsubscribeOneLists(b, id, pkid, paths[0], f);
    }
  }

  lemma {:induction false} UnsubscribeTold(b: Batch, id: ConnectionId, pkid: nat, paths: seq<Filter>)
    requires Present(b.r, id)
    ensures Told(b.r, UnsubscribeAll(b, id, pkid, paths).r, id, [], UnsubAcks(|LeftBy(b.r, id, paths)|, pkid))
    decreases |paths|
  {
    hide Told, UnsubscribeOne, LeftBy, UnsubAcks;
    if paths == [] {
      UnsaidTold(b.r, b.r, id);
      LeftByEach(b.r, id, []);
      assert LeftBy(b.r, id, []) == {};
      UnsubAcksAre(0, 0, pkid);
    } else {
      var c := UnsubscribeOne(b, id, pkid, paths[0]);
      UnsubscribeOneTold(b, id, pkid, paths[0]);
      LeftByRest(b, id, pkid, paths);
      UnsubscribeTold(c, id, pkid, paths[1..]);
      var m, n := |LeftBy(b.r, id, [paths[0]])|, |LeftBy(c.r, id, paths[1..])|;
      ToldThen(b.r, c.r, UnsubscribeAll(c, id, pkid, paths[1..]).r, id, [], UnsubAcks(m, pkid), [], UnsubAcks(n, pkid));
      UnsubAcksAre(m, n, pkid);
      var none: seq<Binding> := [];
      assert none + none == none;
    }
  }

  // ---------------------------------------------------------------------------------------------
  // Acknowledgements and releases

  lemma PubAckTold(b: Batch, id: ConnectionId, pkid: nat)
    requires Present(b.r, id)
    ensures Told(b.r, HandlePubAck(b, id, pkid).r, id, [], [])
  {
    hide Told, Settle, Outgoing.RegisterAck, Scheduler.Reschedule;
    RegisterAckFrame(b.r, id, pkid);
    ReschedulePresent(RegisterAck(b.r, id, pkid), id, IncomingAck);
    UnsaidTold(b.r, HandlePubAck(b, id, pkid).r, id);
  }

  lemma ReschedulePresent(s: Router, id: ConnectionId, reason: ScheduleReason)
    requires Present(s, id)
    ensures Present(Reschedule(s, id, reason), id) && Unsaid(s, Reschedule(s, id, reason))
  {
  }

  lemma PubRecTold(b: Batch, id: ConnectionId, pkid: nat)
    requires Present(b.r, id)
    ensures Told(b.r, HandlePubRec(b, id, pkid).r, id, [], RepliesTo(b.r, id, PacketPubRec(pkid)))
  {
    hide Told, Settle, Scheduler.Reschedule, Commit, Outgoing.RegisterPubRec, RegisterAck, Unsaid;
    var s := RegisterAck(b.r, id, pkid);
    RegisterAckFrame(b.r, id, pkid);
    ObufsUnsaid(b.r, s, id);
    UnsaidTold(b.r, s, id);
    if b.r.obufs.m[id].RegisterAck(pkid).1 {
      var s1 := s.(obufs := s.obufs.Set(id, s.obufs.m[id].RegisterPubRec(pkid)));
      var u := Commit(s1, id, PubRel(pkid));
      ObufsUnsaid(b.r, s1, id);
      UnsaidTold(b.r, s1, id);
      CommitTold(s1, id, PubRel(pkid));
      ToldPresent(s1, u, id);
      ReschedulePresent(u, id, IncomingAck);
      UnsaidTold(u, Reschedule(u, id, IncomingAck), id);
      QuietlyTold(b.r, s1, u, id, [], [PubRel(pkid)]);
      QuietlyTold(b.r, u, Reschedule(u, id, IncomingAck), id, [], [PubRel(pkid)]);
    }
  }

  lemma ObufsUnsaid(s: Router, t: Router, id: ConnectionId)
    requires Present(s, id) && id in t.obufs.m && t == s.(obufs := t.obufs, accounts := t.accounts)
    ensures Unsaid(s, t) && Present(t, id)
  {
  }

  lemma PubRelTold(b: Batch, id: ConnectionId, pkid: nat)
    requires Present(b.r, id)
    ensures var packet := PacketPubRel(pkid, false);
            Told(b.r, HandlePubRel(b, id, pkid).r, id, BoundBy(b.r, id, packet), RepliesTo(b.r, id, packet))
  {
    hide Told, Binds, AppendToCommitlog, Scheduler.Reschedule, Unsaid;
    var a := b.r.ackslog.m[id].Release(pkid);
    var b1 := b.(r := b.r.(ackslog := b.r.ackslog.Set(id, a.0)));
    ReleaseTold(b.r, id, pkid);
    if a.1.Some? {
      var rec := a.1.value;
      var c := AppendToCommitlog(b1, id, rec.0, rec.1, false);
      AppendTold(b1, id, rec.0, rec.1, false);
      ToldThen(b.r, b1.r, c.r, id, [], [PubComp(pkid)], Binds(rec.0, rec.1), []);
      assert [] + Binds(rec.0, rec.1) == Binds(rec.0, rec.1) && [PubComp(pkid)] + [] == [PubComp(pkid)];
      ToldPresent(b1.r, c.r, id);
      ReschedulePresent(c.r, id, IncomingAck);
      UnsaidTold(c.r, Reschedule(c.r, id, IncomingAck), id);
      QuietlyTold(b.r, c.r, Reschedule(c.r, id, IncomingAck), id, Binds(rec.0, rec.1), [PubComp(pkid)]);
    }
  }

  lemma ReleaseTold(s: Router, id: ConnectionId, pkid: nat)
    requires Present(s, id)
    ensures Told(s, s.(ackslog := s.ackslog.Set(id, s.ackslog.m[id].Release(pkid).0)), id, [], [PubComp(pkid)])
  {
    hide Rebinds;
    RebindsNothing(s.connections.m[id].topicAliases);
  }

  lemma SubscribeAnswered(b: Batch, id: ConnectionId, p: Packet)
    requires Present(b.r, id) && p.PacketSubscribe?
    ensures Told(b.r, HandlePacket(b, id, p).r, id, BoundBy(b.r, id, p), RepliesTo(b.r, id, p))
  {
    hide Told, HandlePacket, Codes;
    SubscribeTold(b, id, p.pkid, p.filters, p.subscriptionId);
  }

  lemma UnsubscribeAnswered(b: Batch, id: ConnectionId, p: Packet)
    requires Present(b.r, id) && p.PacketUnsubscribe?
    ensures Told(b.r, HandlePacket(b, id, p).r, id, BoundBy(b.r, id, p), RepliesTo(b.r, id, p))
  {
    hide Told, UnsubscribeAll, LeftBy, UnsubAcks;
    UnsubscribeTold(b, id, p.pkid, p.paths);
  }

  lemma PublishAnswered(b: Batch, id: ConnectionId, p: Packet)
    requires Present(b.r, id) && (p.PacketPublish? || p.PacketPubRel?)
    ensures Told(b.r, HandlePacket(b, id, p).r, id, BoundBy(b.r, id, p), RepliesTo(b.r, id, p))
  {
    hide Told, HandlePublish, HandlePubRel, Binds;
    match p {
      case PacketPublish(publish, props) => PublishTold(b, id, publish, props);
      case PacketPubRel(pkid, hasProps) =>
        UnsaidTold(b.r, b.r, id);
        if !hasProps {
          PubRelTold(b, id, pkid);
        }
    }
  }

  lemma AckAnswered(b: Batch, id: ConnectionId, p: Packet)
    requires Present(b.r, id) && (p.PacketPubAck? || p.PacketPubRec?)
    ensures Told(b.r, HandlePacket(b, id, p).r, id, BoundBy(b.r, id, p), RepliesTo(b.r, id, p))
  {
    hide Told, HandlePubAck, HandlePubRec;
    match p {
      case PacketPubAck(pkid) => PubAckTold(b, id, pkid);
      case PacketPubRec(pkid) => PubRecTold(b, id, pkid);
    }
  }

  lemma OtherAnswered(b: Batch, id: ConnectionId, p: Packet)
    requires Present(b.r, id) && (p.PacketPubComp? || p.PacketPingReq? || p.PacketDisconnect? || p.PacketOther?)
    ensures Told(b.r, HandlePacket(b, id, p).r, id, BoundBy(b.r, id, p), RepliesTo(b.r, id, p))
  {
    hide Told, Commit, Outgoing.RegisterPubComp;
    if p.PacketPingReq? {
      CommitTold(b.r, id, PingResp);
    } else {
      UnsaidTold(b.r, HandlePacket(b, id, p).r, id);
    }
  }

  // Each packet binds its alias and commits its acks, no more and no fewer, for its own connection.
  lemma PacketTold(b: Batch, id: ConnectionId, p: Packet)
    requires Present(b.r, id)
    ensures Told(b.r, HandlePacket(b, id, p).r, id, BoundBy(b.r, id, p), RepliesTo(b.r, id, p))
  {
    hide Told, HandlePacket, BoundBy, RepliesTo;
    match p {
      case PacketPublish(_, _) => PublishAnswered(b, id, p);
      case PacketPubRel(_, _) => PublishAnswered(b, id, p);
      case PacketSubscribe(_, _, _) => SubscribeAnswered(b, id, p);
      case PacketUnsubscribe(_, _) => UnsubscribeAnswered(b, id, p);
      case PacketPubAck(_) => AckAnswered(b, id, p);
      case PacketPubRec(_) => AckAnswered(b, id, p);
      case _ => OtherAnswered(b, id, p);
    }
  }

  // ---------------------------------------------------------------------------------------------
  // Batches

  function BoundIn(b: Batch, id: ConnectionId, packets: seq<Packet>): seq<Binding>
    decreases |packets|
  {
    if packets == [] || b.stop || !Present(b.r, id) then []
    else BoundBy(b.r, id, packets[0]) + BoundIn(HandlePacket(b, id, packets[0]), id, packets[1..])
  }

  function Replies(b: Batch, id: ConnectionId, packets: seq<Packet>): seq<Ack>
    decreases |packets|
  {
    if packets == [] || b.stop || !Present(b.r, id) then []
    else RepliesTo(b.r, id, packets[0]) + Replies(HandlePacket(b, id, packets[0]), id, packets[1..])
  }

  lemma {:induction false} PacketsTold(b: Batch, id: ConnectionId, packets: seq<Packet>)
    requires Present(b.r, id)
    ensures Told(b.r, HandlePackets(b, id, packets).r, id, BoundIn(b, id, packets), Replies(b, id, packets))
    decreases |packets|
  {
    hide HandlePacket, Told, BoundBy, RepliesTo;
    if packets != [] && !b.stop {
      var c := HandlePacket(b, id, packets[0]);
      PacketTold(b, id, packets[0]);
      ToldPresent(b.r, c.r, id);
      PacketsTold(c, id, packets[1..]);
      ToldThen(b.r, c.r, HandlePackets(c, id, packets[1..]).r, id, BoundBy(b.r, id, packets[0]),
               RepliesTo(b.r, id, packets[0]), BoundIn(c, id, packets[1..]), Replies(c, id, packets[1..]));
    } else {
      UnsaidTold(b.r, b.r, id);
    }
  }
}

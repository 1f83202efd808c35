// Outbound QoS 2: the releases a session owes its client, which of them were answered, and which an
// answer that named another packet took away.
module Releases {
  import opened Types
  import opened Slabs
  import opened DataLogModel
  import opened OutgoingModel
  import opened SchedulerModel
  import opened RouterModel
  import opened Frames
  import opened Identity
  import opened Queue
  import opened ConservationRuns
  import opened Sessions

  // A release that left the session, and the packet id of the PubComp that took it.
  type Answer = (nat, nat)

  function Heads(done: seq<Answer>): seq<nat> {
    seq(|done|, i requires 0 <= i < |done| => done[i].0)
  }

  function Owing(s: Router, id: ConnectionId): seq<nat> {
    if id in s.obufs.m then s.obufs.m[id].unackedPubrels else []
  }

  // The release a packet makes the session owe.
  function OwedBy(s: Router, id: ConnectionId, p: Packet): seq<nat> {
    if p.PacketPubRec? && id in s.obufs.m && s.obufs.m[id].RegisterAck(p.pkid).1 then [p.pkid] else []
  }

  // The release a packet takes away.
  function TakenBy(s: Router, id: ConnectionId, p: Packet): seq<Answer> {
    if p.PacketPubComp? && Owing(s, id) != [] then [(Owing(s, id)[0], p.pkid)] else []
  }

  // One connection's releases move by what came in and what went out; nobody else's do.
  ghost predicate ReleasesMove(s: Router, t: Router, id: ConnectionId, more: seq<nat>, fewer: seq<Answer>) {
    && Owing(s, id) + more == Heads(fewer) + Owing(t, id)
    && t.obufs.m.Keys == s.obufs.m.Keys
    && forall other :: other != id ==> Owing(t, other) == Owing(s, other)
  }

  // Nothing changes what any connection owes.
  ghost predicate OwingSame(s: Router, t: Router) {
    t.obufs.m.Keys == s.obufs.m.Keys && forall id :: Owing(t, id) == Owing(s, id)
  }

  lemma SameMoves(s: Router, t: Router, id: ConnectionId)
    requires OwingSame(s, t)
    ensures ReleasesMove(s, t, id, [], [])
  {
    assert Owing(s, id) + [] == Owing(s, id) == [] + Owing(t, id);
  }

  lemma MoveThen(s: Router, t: Router, u: Router, id: ConnectionId, m: seq<nat>, f: seq<Answer>, m': seq<nat>,
                 f': seq<Answer>)
    requires ReleasesMove(s, t, id, m, f) && ReleasesMove(t, u, id, m', f')
    ensures ReleasesMove(s, u, id, m + m', f + f')
  {
    hide Owing, Heads;
    var a, b, c := Owing(s, id), Owing(t, id), Owing(u, id);
    HeadsConcat(f, f');
    assert a + (m + m') == (a + m) + m' == (Heads(f) + b) + m' == Heads(f) + (b + m') == Heads(f) + (Heads(f') + c)
        == (Heads(f) + Heads(f')) + c;
    forall other | other != id
      ensures Owing(u, other) == Owing(s, other)
    {
      assert Owing(t, other) == Owing(s, other) && Owing(u, other) == Owing(t, other);
    }
  }

  lemma HeadsConcat(a: seq<Answer>, b: seq<Answer>)
    ensures Heads(a + b) == Heads(a) + Heads(b)
  {
  }

  // ---------------------------------------------------------------------------------------------
  // Packets

  lemma AckOwes(s: Router, id: ConnectionId, pkid: nat)
    requires Present(s, id)
    ensures OwingSame(s, RegisterAck(s, id, pkid)) && Present(RegisterAck(s, id, pkid), id)
  {
    hide Settle;
    RegisterAckFrame(s, id, pkid);
  }

  lemma SameObufs(s: Router, t: Router)
    requires t.obufs == s.obufs
    ensures OwingSame(s, t)
  {
  }

  lemma PubRecOwes(b: Batch, id: ConnectionId, pkid: nat)
    requires Present(b.r, id)
    ensures ReleasesMove(b.r, HandlePubRec(b, id, pkid).r, id, OwedBy(b.r, id, PacketPubRec(pkid)), [])
  {
    hide Settle, Outgoing.RegisterAck, Scheduler.Reschedule, Commit, ReleasesMove, OwingSame;
    var s := RegisterAck(b.r, id, pkid);
    AckOwes(b.r, id, pkid);
    SameMoves(b.r, s, id);
    if b.r.obufs.m[id].RegisterAck(pkid).1 {
      var s1 := s.(obufs := s.obufs.Set(id, s.obufs.m[id].RegisterPubRec(pkid)));
      OneReleaseMore(s, id, pkid);
      var none: seq<Answer> := [];
      assert [] + [pkid] == [pkid] == [pkid] + [] && none + none == none;
      MoveThen(b.r, s, s1, id, [], [], [pkid], []);
      CommittedObufs(s1, id, PubRel(pkid));
      SameObufs(s1, HandlePubRec(b, id, pkid).r);
      SameMoves(s1, HandlePubRec(b, id, pkid).r, id);
      MoveThen(b.r, s1, HandlePubRec(b, id, pkid).r, id, [pkid], [], [], []);
    }
  }

  lemma CommittedObufs(s: Router, id: ConnectionId, a: Ack)
    requires Present(s, id)
    ensures Commit(s, id, a).obufs == s.obufs
  {
  }

  lemma OneReleaseMore(s: Router, id: ConnectionId, pkid: nat)
    requires Present(s, id)
    ensures ReleasesMove(s, s.(obufs := s.obufs.Set(id, s.obufs.m[id].RegisterPubRec(pkid))), id, [pkid], [])
  {
    assert Heads([]) == [];
  }

  lemma SetOwing(s: Router, id: ConnectionId, o: Outgoing)
    requires Present(s, id)
    ensures var t := s.(obufs := s.obufs.Set(id, o));
            && t.obufs.m.Keys == s.obufs.m.Keys && Owing(t, id) == o.unackedPubrels
              && Owing(s, id) == s.obufs.m[id].unackedPubrels
            && forall other :: other != id ==> Owing(t, other) == Owing(s, other)
  {
  }

  lemma PubCompIs(b: Batch, id: ConnectionId, pkid: nat)
    requires Present(b.r, id)
    ensures HandlePubComp(b, id, pkid).r == b.r.(obufs := b.r.obufs.Set(id, b.r.obufs.m[id].RegisterPubComp(pkid).0))
  {
    hide Outgoing.RegisterPubComp;
  }

  lemma PubCompTakes(b: Batch, id: ConnectionId, pkid: nat)
    requires Present(b.r, id)
    ensures ReleasesMove(b.r, HandlePubComp(b, id, pkid).r, id, [], TakenBy(b.r, id, PacketPubComp(pkid)))
  {
    hide Heads, Owing, HandlePubComp;
    PubCompIs(b, id, pkid);
    SetOwing(b.r, id, b.r.obufs.m[id].RegisterPubComp(pkid).0);
    assert Owing(b.r, id) + [] == Owing(b.r, id);
    HeadOf(Owing(b.r, id), pkid);
  }

  lemma HeadOf(u: seq<nat>, pkid: nat)
    ensures Heads([]) + u == u
    ensures u != [] ==> Heads([(u[0], pkid)]) + u[1..] == u
  {
  }

  // The oldest release leaves whatever packet the PubComp names; if it names another, the release is lost
  // and the connection dropped.
  lemma PubCompLosesIff(b: Batch, id: ConnectionId, pkid: nat)
    requires Present(b.r, id) && Owing(b.r, id) != []
    ensures var c := HandlePubComp(b, id, pkid);
            && Owing(c.r, id) == Owing(b.r, id)[1..]
            && c == if Owing(b.r, id)[0] == pkid then b.(r := c.r) else Fail(b.(r := c.r))
  {
  }

  lemma PacketMovesReleases(b: Batch, id: ConnectionId, p: Packet)
    requires Present(b.r, id)
    ensures ReleasesMove(b.r, HandlePacket(b, id, p).r, id, OwedBy(b.r, id, p), TakenBy(b.r, id, p))
  {
    hide ReleasesMove, OwingSame, Commit, SubscribeAll, UnsubscribeAll, AppendToCommitlog, HandlePubComp, HandlePubRec,
      RegisterAck,
      Outgoing.RegisterAck, Scheduler.Reschedule, AckLog.Record, AckLog.Release;
    match p {
      case PacketPubRec(pkid) => PubRecOwes(b, id, pkid);
      case PacketPubComp(pkid) => PubCompTakes(b, id, pkid);
      case PacketPubAck(pkid) =>
        AckOwes(b.r, id, pkid);
        SameMoves(b.r, RegisterAck(b.r, id, pkid), id);
        SameObufs(RegisterAck(b.r, id, pkid), HandlePacket(b, id, p).r);
        OwingThen(b.r, RegisterAck(b.r, id, pkid), HandlePacket(b, id, p).r);
        SameMoves(b.r, HandlePacket(b, id, p).r, id);
      case _ =>
        OtherPackets(b, id, p);
        SameObufs(b.r, HandlePacket(b, id, p).r);
        SameMoves(b.r, HandlePacket(b, id, p).r, id);
    }
  }

  lemma OwingThen(s: Router, t: Router, u: Router)
    requires OwingSame(s, t) && OwingSame(t, u)
    ensures OwingSame(s, u)
  {
    hide Owing;
    forall id
      ensures Owing(u, id) == Owing(s, id)
    {
      assert Owing(t, id) == Owing(s, id);
    }
  }

  lemma OtherPackets(b: Batch, id: ConnectionId, p: Packet)
    requires Present(b.r, id) && !p.PacketPubAck? && !p.PacketPubRec? && !p.PacketPubComp?
    ensures HandlePacket(b, id, p).r.obufs == b.r.obufs
  {
    hide SubscribeAll, UnsubscribeAll, AppendToCommitlog, Scheduler.Reschedule, AckLog.Record, AckLog.Release;
    match p {
      case PacketPublish(publish, props) =>
        AppendFrame(b, id, publish, props, true);
        if publish.qos == AtLeastOnce {
          AppendFrame(b.(r := Commit(b.r, id, PubAck(publish.pkid)), forceAck := true), id, publish, props, true);
        }
      case PacketSubscribe(_, filters, subId) => SubscribeAllFrame(b, id, filters, subId);
      case PacketUnsubscribe(pkid, paths) => UnsubscribeAllFrame(b, id, pkid, paths);
      case PacketPubRel(pkid, hasProps) =>
        var a := b.r.ackslog.m[id].Release(pkid);
        if a.1.Some? {
          AppendFrame(b.(r := b.r.(ackslog := b.r.ackslog.Set(id, a.0))), id, a.1.value.0, a.1.value.1, false);
        }
      case _ =>
    }
  }

  // What a batch owes and takes, packet by packet, until it stops.
  function Owed(b: Batch, id: ConnectionId, packets: seq<Packet>): seq<nat>
    decreases |packets|
  {
    if packets == [] || b.stop || !Present(b.r, id) then []
    else OwedBy(b.r, id, packets[0]) + Owed(HandlePacket(b, id, packets[0]), id, packets[1..])
  }

  function Taken(b: Batch, id: ConnectionId, packets: seq<Packet>): seq<Answer>
    decreases |packets|
  {
    if packets == [] || b.stop || !Present(b.r, id) then []
    else TakenBy(b.r, id, packets[0]) + Taken(HandlePacket(b, id, packets[0]), id, packets[1..])
  }

  lemma {:induction false} PacketsMoveReleases(b: Batch, id: ConnectionId, packets: seq<Packet>)
    ensures ReleasesMove(b.r, HandlePackets(b, id, packets).r, id, Owed(b, id, packets), Taken(b, id, packets))
    decreases |packets|
  {
    hide HandlePacket, ReleasesMove, OwedBy, TakenBy, OwingSame;
    if packets != [] && !b.stop && Present(b.r, id) {
      var c := HandlePacket(b, id, packets[0]);
      PacketMovesReleases(b, id, packets[0]);
      PacketsMoveReleases(c, id, packets[1..]);
      MoveThen(b.r, c.r, HandlePackets(c, id, packets[1..]).r, id, OwedBy(b.r, id, packets[0]),
               TakenBy(b.r, id, packets[0]),
               Owed(c, id, packets[1..]), Taken(c, id, packets[1..]));
    } else {
      SameObufs(b.r, b.r);
      SameMoves(b.r, b.r, id);
    }
  }

  // ---------------------------------------------------------------------------------------------
  // Sessions

  // What a client's session owes: at its connection, or saved.
  function StillOwed(s: Router, client: ClientId): Option<seq<nat>> {
    if client in s.connectionMap then Some(Owing(s, s.connectionMap[client]))
    else if SavedSession(s, client).Some? then Some(SavedSession(s, client).value.unackedPubrels)
    else None
  }

  // Everything the current session of one client owed and was answered.
  datatype Ledger = Ledger(owed: seq<nat>, taken: seq<Answer>)

  function Book(s: Router, es: seq<Event>, client: ClientId): Ledger
    decreases |es|
  {
    if es == [] then Ledger([], [])
    else
      var t, e, before := Run(s, es[..|es| - 1]), es[|es| - 1], Book(s, es[..|es| - 1], client);
      match e
      case EventConnect(who, _, _) => if who == client && Begins(t, e) then Ledger([], []) else before
      case EventDeviceData(id) => Entered(t, id, client, before)
      case _ => before
  }

  function Entered(s: Router, id: ConnectionId, client: ClientId, l: Ledger): Ledger {
    if Present(s, id) && s.connections.m[id].clientId == client then
      var b := FirstBatch(s, id);
      Ledger(l.owed + Owed(b, id, s.ibufs.m[id].buffer), l.taken + Taken(b, id, s.ibufs.m[id].buffer))
    else l
  }

  ghost predicate Reconciled(s: Router, client: ClientId, l: Ledger) {
    StillOwed(s, client).Some? ==> l.owed == Heads(l.taken) + StillOwed(s, client).value
  }

  // What is still pending was pending.
  ghost predicate StillOwedKept(s: Router, t: Router, client: ClientId) {
    StillOwed(t, client).Some? ==> StillOwed(t, client) == StillOwed(s, client)
  }

  lemma KeptSettled(s: Router, t: Router, client: ClientId, l: Ledger)
    requires StillOwedKept(s, t, client) && Reconciled(s, client, l)
    ensures Reconciled(t, client, l)
  {
    hide StillOwed;
  }

  lemma SamePending(s: Router, t: Router, client: ClientId)
    requires SameNames(s, t) && OwingSame(s, t)
    ensures StillOwed(t, client) == StillOwed(s, client)
  {
    hide Owing, Project;
  }

  lemma DisconnectPending(s: Router, id: ConnectionId, client: ClientId)
    requires Identified(s)
    ensures StillOwedKept(s, Disconnect(s, id), client)
  {
    hide Clean, RewindAll, Retransmissions, ForgetAccounts, Unsubscribed, NamesOf, NamesOk;
    if Present(s, id) {
      IdentifiedPresent(s);
      LiveIsMapped(s, id);
      if client in s.connectionMap && client != s.connections.m[id].clientId {
        MappedElsewhere(s, id, client);
      }
    }
  }

  lemma MappedElsewhere(s: Router, id: ConnectionId, client: ClientId)
    requires Identified(s) && Present(s, id) && client in s.connectionMap && client != s.connections.m[id].clientId
    ensures s.connectionMap[client] != id && s.connectionMap[client] in s.connections.m
  {
    hide Project, InLockstep;
    ProjectAt(s.connections, ConnectionName);
    assert ClientAt(NamesOf(s), client);
  }

  lemma AdmitPending(s: Router, who: ClientId, clean: bool, will: Option<Publish>, client: ClientId)
    requires Identified(s) && who !in s.connectionMap
    ensures var t := Admit(s, who, clean, will);
            if who != client then StillOwedKept(s, t, client)
            else if FreshSession(s, who, clean) then StillOwed(t, client) == Some([])
            else StillOwed(t, client) == StillOwed(s, client)
  {
    hide NamesOf, NamesOk, Admit;
    AdmitKeysAgree(s);
    AdmitOwing(s, who, clean, will);
    if who != client && client in s.connectionMap {
      MappedLive(s, client);
      IdentifiedPresent(s);
    }
  }

  lemma AdmitOwing(s: Router, who: ClientId, clean: bool, will: Option<Publish>)
    requires s.connections.NextKey() == s.obufs.NextKey()
    ensures var t, id := Admit(s, who, clean, will), s.connections.NextKey();
            && t.connectionMap == s.connectionMap[who := id] && t.graveyard == s.graveyard - {who}
            && Owing(t, id) == (if FreshSession(s, who, clean) then [] else SavedSession(s, who).value.unackedPubrels)
            && forall other :: other != id ==> Owing(t, other) == Owing(s, other)
  {
    hide PubRels, ForgetAccounts, Scheduler.Reschedule;
  }

  lemma MappedLive(s: Router, client: ClientId)
    requires Identified(s) && client in s.connectionMap
    ensures s.connectionMap[client] in s.connections.m
  {
    hide Project, InLockstep;
    ProjectAt(s.connections, ConnectionName);
    assert ClientAt(NamesOf(s), client);
  }

  lemma ConnectSettled(s: Router, e: Event, client: ClientId, l: Ledger)
    requires Identified(s) && e.EventConnect? && Reconciled(s, client, l)
    ensures Reconciled(Step(s, e), client, if e.client == client && Begins(s, e) then Ledger([], []) else l)
  {
    hide Identified, Disconnect, Admit, StillOwedKept, StillOwed, FreshSession, Subscribers;
    var d := Dropped(s, e.client);
    ConnectIsAdmit(s, e.client, e.clean, e.will);
    PendingSelf(s, client);
    if e.client in s.connectionMap {
      DisconnectPending(s, s.connectionMap[e.client], client);
      DisconnectKeeps(s, s.connectionMap[e.client]);
      DisconnectFreesName(s, e.client);
    }
    KeptSettled(s, d, client, l);
    AdmitPending(d, e.client, e.clean, e.will, client);
    if ValidClientId(e.client) && Admits(s, e) && !(e.client == client && Begins(s, e)) {
      EqualKept(d, Step(s, e), client);
      KeptSettled(d, Step(s, e), client, l);
    }
    DroppedConfig(s, e.client);
  }

  lemma EqualKept(s: Router, t: Router, client: ClientId)
    requires StillOwed(t, client) == StillOwed(s, client) || StillOwedKept(s, t, client)
    ensures StillOwedKept(s, t, client)
  {
  }

  lemma PendingSelf(s: Router, client: ClientId)
    ensures StillOwedKept(s, s, client)
  {
  }

  // ---------------------------------------------------------------------------------------------
  // Events

  lemma DataSettled(s: Router, id: ConnectionId, client: ClientId, l: Ledger)
    requires Identified(s) && Reconciled(s, client, l)
    ensures Reconciled(DeviceData(s, id), client, Entered(s, id, client, l))
  {
    hide HandlePackets, Finish, Identified, Owed, Taken, Reconciled, ReleasesMove, StillOwedKept;
    if Present(s, id) {
      BatchSettled(s, id, client, l);
      EndPending(s, id, client);
      KeptSettled(HandlePackets(FirstBatch(s, id), id, s.ibufs.m[id].buffer).r, DeviceData(s, id), client,
                  Entered(s, id, client, l));
    }
  }

  lemma BatchSettled(s: Router, id: ConnectionId, client: ClientId, l: Ledger)
    requires Identified(s) && Present(s, id) && Reconciled(s, client, l)
    ensures Reconciled(HandlePackets(FirstBatch(s, id), id, s.ibufs.m[id].buffer).r, client, Entered(s, id, client, l))
  {
    hide HandlePackets, Identified, Owed, Taken, SameNames, Heads;
    var b0, packets := FirstBatch(s, id), s.ibufs.m[id].buffer;
    var t, more, fewer := HandlePackets(b0, id, packets).r, Owed(b0, id, packets), Taken(b0, id, packets);
    BatchNames(s, id);
    PacketsMoveReleases(b0, id, packets);
    if s.connections.m[id].clientId == client {
      LiveIsMapped(s, id);
      HeadsConcat(l.taken, fewer);
      assert l.owed + more == (Heads(l.taken) + Owing(s, id)) + more == Heads(l.taken) + (Owing(s, id) + more)
          == Heads(l.taken) + (Heads(fewer) + Owing(t, id)) == (Heads(l.taken) + Heads(fewer)) + Owing(t, id);
    } else if client in s.connectionMap {
      MappedElsewhere(s, id, client);
    }
  }

  lemma BatchNames(s: Router, id: ConnectionId)
    requires Present(s, id)
    ensures var t := HandlePackets(FirstBatch(s, id), id, s.ibufs.m[id].buffer).r;
            && SameNames(s, t) && t.connectionMap == s.connectionMap && t.graveyard == s.graveyard
            && FirstBatch(s, id).r.obufs == s.obufs
  {
    hide HandlePackets, Project;
    SetIbufSame(s, id, s.ibufs.m[id].(buffer := []));
    HandlePacketsSame(FirstBatch(s, id), id, s.ibufs.m[id].buffer);
  }

  lemma EndPending(s: Router, id: ConnectionId, client: ClientId)
    requires Identified(s) && Present(s, id)
    ensures StillOwedKept(HandlePackets(FirstBatch(s, id), id, s.ibufs.m[id].buffer).r, DeviceData(s, id), client)
  {
    hide HandlePackets, NamesOf, NamesOk, WakeAll, Disconnect, Scheduler.Reschedule, StillOwedKept, StillOwed,
      OwingSame, Subscribers;
    var b := HandlePackets(FirstBatch(s, id), id, s.ibufs.m[id].buffer);
    BatchNames(s, id);
    WokenSame(b, id);
    WokenObufs(b, id);
    SameObufs(b.r, Woken(b, id));
    SamePending(b.r, Woken(b, id), client);
    EqualKept(b.r, Woken(b, id), client);
    DisconnectPending(Woken(b, id), id, client);
    if b.disconnect {
      ThenKept(b.r, Woken(b, id), Disconnect(Woken(b, id), id), client);
    }
  }

  lemma ThenKept(s: Router, t: Router, u: Router, client: ClientId)
    requires StillOwedKept(s, t, client) && StillOwedKept(t, u, client)
    ensures StillOwedKept(s, u, client)
  {
    hide StillOwed;
  }

  lemma WokenObufs(b: Batch, id: ConnectionId)
    ensures Woken(b, id).obufs == b.r.obufs
  {
    hide WakeAll, Scheduler.Reschedule;
    WakeAllFrame(if b.forceAck then Reschedule(b.r, id, FreshData) else b.r);
  }

  lemma {:induction false} ConsumeLoopOwes(s: Router, id: ConnectionId, n: nat)
    ensures OwingSame(s, ConsumeLoop(s, id, n))
    decreases n
  {
    hide ConsumeOne, OwingSame, Scheduler.Pause;
    SameObufs(s, s);
    if n > 0 && Present(s, id) {
      if s.scheduler.trackers.m[id].requests == [] {
        SameObufs(s, ConsumeLoop(s, id, n));
      } else {
        ConsumeOneOwes(s, id);
        if ConsumeOne(s, id).1 {
          ConsumeLoopOwes(ConsumeOne(s, id).0, id, n - 1);
          OwingThen(s, ConsumeOne(s, id).0, ConsumeLoop(s, id, n));
        }
      }
    }
  }

  lemma ConsumeOneOwes(s: Router, id: ConnectionId)
    requires Present(s, id) && s.scheduler.trackers.m[id].requests != []
    ensures OwingSame(s, ConsumeOne(s, id).0)
  {
    hide ConsumeOne, ForwardData, Skip, Park, Scheduler.Pause, SetRequests;
    ConsumeOneShape(s, id);
    ForwardOwes(s.datalog, s.obufs.m[id], s.scheduler.trackers.m[id].requests[0]);
  }

  lemma ForwardOwes(dl: DataLog, o: Outgoing, r: DataRequest)
    ensures ForwardData(dl, o, r).0.unackedPubrels == o.unackedPubrels
  {
    hide Pull, RetainedItems, LogItems, Outgoing.PushForwards;
    var items := RetainedItems(dl, r, Slots(dl, o, r)) + LogItems(Pull(dl, o, r).entries);
    PushForwardsOwes(o, items, r.qos, r.filterIdx);
  }

  lemma {:induction false} PushForwardsOwes(o: Outgoing, ps: seq<Item>, qos: QoS, idx: FilterIdx)
    ensures o.PushForwards(ps, qos, idx).unackedPubrels == o.unackedPubrels
    decreases |ps|
  {
    if ps != [] {
      PushForwardsOwes(o, ps[..|ps| - 1], qos, idx);
    }
  }

  lemma ConsumeOwes(s: Router)
    ensures OwingSame(s, Consume(s).0)
  {
    hide ConsumeLoop, SendAcks, Scheduler.Rotate, OwingSame;
    SameObufs(s, s);
    if s.scheduler.readyqueue != [] {
      var id, s1 := s.scheduler.readyqueue[0], s.(scheduler := s.scheduler.Rotate());
      SameObufs(s, s1);
      if Present(s1, id) {
        SendAcksOwes(s1, id);
        ConsumeLoopOwes(SendAcks(s1, id), id, MAX_SCHEDULE_ITERATIONS);
        OwingThen(s, s1, SendAcks(s1, id));
        OwingThen(s, SendAcks(s1, id), ConsumeLoop(SendAcks(s1, id), id, MAX_SCHEDULE_ITERATIONS));
      }
    }
  }

  lemma SendAcksOwes(s: Router, id: ConnectionId)
    requires Present(s, id)
    ensures OwingSame(s, SendAcks(s, id))
  {
    hide DeviceAcks;
  }

  lemma OthersPending(s: Router, e: Event, client: ClientId)
    requires Identified(s) && !e.EventConnect? && !e.EventDeviceData?
    ensures StillOwedKept(s, Step(s, e), client)
  {
    hide Identified, Disconnect, Consume, WakeAll, AcceptPublish, Scheduler.Reschedule, StillOwedKept, StillOwed,
      OwingSame, SameNames;
    match e {
      case EventDisconnect(id) => DisconnectPending(s, id, client);
      case EventConsume =>
        ConsumeOwes(s);
        ConsumeSame(s);
        SamePending(s, Step(s, e), client);
        EqualKept(s, Step(s, e), client);
      case EventReady(id) =>
        RescheduleSame(s, id, LinkReady);
        SameObufs(s, Step(s, e));
        SamePending(s, Step(s, e), client);
        EqualKept(s, Step(s, e), client);
      case EventPublishWill(who) => WillPending(s, who, client);
      case _ => BufferPending(s, e, client);
    }
  }

  lemma WillPending(s: Router, who: ClientId, client: ClientId)
    ensures StillOwedKept(s, PublishWill(s, who), client)
  {
    hide WakeAll, Accept, StillOwed, SameNames, OwingSame;
    PendingSelf(s, client);
    if who in s.lastWills {
      var s1 := s.(lastWills := s.lastWills - {who});
      LastWillsSame(s, s1.lastWills);
      AcceptSame(s1, s.lastWills[who]);
      WakeAllSame(AcceptPublish(s1, s.lastWills[who]));
      NamesTrans(s, s1, AcceptPublish(s1, s.lastWills[who]), PublishWill(s, who));
      WakeAllFrame(AcceptPublish(s1, s.lastWills[who]));
      SameObufs(s, PublishWill(s, who));
      SamePending(s, PublishWill(s, who), client);
    }
  }

  lemma NamesTrans(s: Router, t: Router, u: Router, v: Router)
    requires SameNames(s, t) && SameNames(t, u) && SameNames(u, v)
    ensures SameNames(s, v)
  {
    hide NamesOf;
  }

  lemma BufferPending(s: Router, e: Event, client: ClientId)
    requires e.EventArrive? || e.EventExchange?
    ensures StillOwedKept(s, Step(s, e), client)
  {
  }

  // ---------------------------------------------------------------------------------------------
  // Runs

  // In every run, for the current session of every client: the releases taken, in order, followed by
  // those pending, at its connection or saved, are exactly those owed, in order.
  lemma {:induction false} ReleasesSettle(c: Config, es: seq<Event>, client: ClientId)
    ensures Reconciled(Run(InitRouter(c), es), client, Book(InitRouter(c), es, client))
    decreases |es|
  {
    hide Step, InitRouter, Reconciled, Identified, Subscribers, Begins, Entered;
    if es == [] {
      InitSettled(c, client);
    } else {
      var before, e := es[..|es| - 1], es[|es| - 1];
      var t, l := Run(InitRouter(c), before), Book(InitRouter(c), before, client);
      ReleasesSettle(c, before, client);
      RunKeepsIdentity(c, before);
      match e {
        case EventConnect(_, _, _) => ConnectSettled(t, e, client, l);
        case EventDeviceData(id) => DataSettles(t, id, client, l);
        case _ =>
          OthersPending(t, e, client);
          KeptSettled(t, Step(t, e), client, l);
      }
    }
  }

  lemma DataSettles(s: Router, id: ConnectionId, client: ClientId, l: Ledger)
    requires Identified(s) && Reconciled(s, client, l)
    ensures Reconciled(Step(s, EventDeviceData(id)), client, Entered(s, id, client, l))
  {
    hide DeviceData, Reconciled, Identified, Entered;
    DataSettled(s, id, client, l);
  }

  lemma InitSettled(c: Config, client: ClientId)
    ensures Reconciled(InitRouter(c), client, Book(InitRouter(c), [], client))
  {
  }

  // The releases whose PubComp named them.
  function Completed(taken: seq<Answer>): seq<nat> {
    if taken == [] then []
    else
      var r, a := Completed(taken[..|taken| - 1]), taken[|taken| - 1];
      if a.0 == a.1 then r + [a.0] else r
  }

  lemma {:induction false} CompletedIff(taken: seq<Answer>)
    ensures |Completed(taken)| <= |taken|
    ensures |Completed(taken)| == |taken| <==> forall a :: a in taken ==> a.0 == a.1
    ensures |Completed(taken)| == |taken| ==> Completed(taken) == Heads(taken)
  {
    if taken != [] {
      var rest := taken[..|taken| - 1];
      CompletedIff(rest);
      assert taken == rest + [taken[|taken| - 1]];
      assert Heads(taken) == Heads(rest) + [taken[|taken| - 1].0];
    }
  }

  // Every release a session ever owed is completed or still pending if and only if every PubComp that
  // took one named it. A PubComp that named another lost one, and no later event brings it back.
  lemma NoReleaseLostIff(c: Config, es: seq<Event>, client: ClientId)
    requires StillOwed(Run(InitRouter(c), es), client).Some?
    ensures var l := Book(InitRouter(c), es, client);
            l.owed == Completed(l.taken) + StillOwed(Run(InitRouter(c), es), client).value <==>
                forall a :: a in l.taken ==> a.0 == a.1
  {
    hide Run, InitRouter, StillOwed, Book, Heads, Completed;
    var l := Book(InitRouter(c), es, client);
    ReleasesSettle(c, es, client);
    CompletedIff(l.taken);
    assert |Heads(l.taken)| == |l.taken| by {
      HeadsLength(l.taken);
    }
  }

  lemma HeadsLength(taken: seq<Answer>)
    ensures |Heads(taken)| == |taken|
  {
  }
}

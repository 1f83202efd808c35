// What a round of the router's loop does to the ready queue. After each batch of events the router
// gives a hundred turns, and then blocks for the next event if a turn finds nothing to serve. A turn
// finds nothing either when the queue is empty or when the id at its front has no tracker any more, so
// the router can block while connections are queued.
module Turns {
  import opened Types
  import opened Slabs
  import opened DataLogModel
  import opened OutgoingModel
  import opened SchedulerModel
  import opened RouterModel
  import opened Frames
  import opened Identity
  import opened Queue
  import opened Neighbours
  import opened Witnesses

  const TURNS: nat := 100

  function Serve(s: Router, n: nat): Router {
    if n == 0 then s else Consume(Serve(s, n - 1)).0
  }

  // The next turn would block.
  predicate Blocks(s: Router) {
    !Consume(s).1
  }

  predicate FrontIsGone(c: Scheduler) {
    c.readyqueue != [] && c.readyqueue[0] !in c.trackers.m
  }

  lemma BlocksIff(s: Router)
    ensures Blocks(s) <==> s.scheduler.readyqueue == [] || FrontIsGone(s.scheduler)
  {
    hide ConsumeLoop, SendAcks, Scheduler.Rotate;
  }

  // ---------------------------------------------------------------------------------------------
  // One turn

  function Shortened<T>(q: seq<T>): seq<T> {
    if q == [] then q else q[..|q| - 1]
  }

  lemma ConsumeOneTurn(s: Router, id: ConnectionId)
    requires Present(s, id) && s.scheduler.trackers.m[id].requests != []
    ensures var t := ConsumeOne(s, id);
            t.0.scheduler.readyqueue == if t.1 then s.scheduler.readyqueue else Shortened(s.scheduler.readyqueue)
  {
    hide ConsumeOne, ForwardData, Skip, Park;
    ConsumeOneShape(s, id);
  }

  lemma {:induction false} ConsumeLoopTurn(s: Router, id: ConnectionId, n: nat)
    ensures ConsumeLoop(s, id, n).scheduler.readyqueue in {s.scheduler.readyqueue, Shortened(s.scheduler.readyqueue)}
    decreases n
  {
    hide ConsumeOne;
    if n > 0 && Present(s, id) && s.scheduler.trackers.m[id].requests != [] {
      ConsumeOneTurn(s, id);
      if ConsumeOne(s, id).1 {
        ConsumeLoopTurn(ConsumeOne(s, id).0, id, n - 1);
      }
    }
  }

  lemma SameTrackers(s: Router, t: Router)
    requires SameNames(s, t)
    ensures t.scheduler.trackers.m.Keys == s.scheduler.trackers.m.Keys
  {
    ProjectAt(s.scheduler.trackers, TrackerName);
    ProjectAt(t.scheduler.trackers, TrackerName);
  }

  // The front of the queue leaves it, and returns to the back only if it has a tracker.
  lemma TurnIs(s: Router)
    ensures var q, t := s.scheduler.readyqueue, Consume(s).0;
            && t.scheduler.trackers.m.Keys == s.scheduler.trackers.m.Keys
            && (q == [] ==> t.scheduler.readyqueue == [])
            && (FrontIsGone(s.scheduler) ==> t.scheduler.readyqueue == q[1..])
            && (q != [] && !FrontIsGone(s.scheduler) ==> t.scheduler.readyqueue in {q[1..], q[1..] + [q[0]]})
  {
    hide ConsumeLoop, SendAcks, SameNames;
    ConsumeSame(s);
    SameTrackers(s, Consume(s).0);
    if s.scheduler.readyqueue != [] && !FrontIsGone(s.scheduler) {
      var id, s1 := s.scheduler.readyqueue[0], s.(scheduler := s.scheduler.Rotate());
      if Present(s1, id) {
        AcksQueue(s1, id);
        ConsumeLoopTurn(SendAcks(s1, id), id, MAX_SCHEDULE_ITERATIONS);
      }
    }
  }

  lemma AcksQueue(s: Router, id: ConnectionId)
    requires Present(s, id)
    ensures SendAcks(s, id).scheduler == s.scheduler
  {
    hide DeviceAcks;
  }

  // ---------------------------------------------------------------------------------------------
  // The sweeps of a turn

  function Sweeps(s: Router, id: ConnectionId, n: nat): Router
    decreases n
  {
    if n == 0 || !Present(s, id) || s.scheduler.trackers.m[id].requests == [] then s
    else Sweeps(ConsumeOne(s, id).0, id, n - 1)
  }

  // There is a request to sweep before each of the first n, and no sweep but perhaps the last ends the turn.
  predicate GoesOn(s: Router, id: ConnectionId, n: nat)
    decreases n
  {
    n == 0 || (Present(s, id) && s.scheduler.trackers.m[id].requests != [] &&
               (n == 1 || (ConsumeOne(s, id).1 && GoesOn(ConsumeOne(s, id).0, id, n - 1))))
  }

  // A turn of n sweeps that ends as it must: the last one has met a full window or buffer, all requests have
  // been caught up with and the connection is paused as such, or the allowance is used up.
  ghost predicate EndsAfter(s: Router, id: ConnectionId, t: Router, n: nat, allowance: nat) {
    && n <= allowance && GoesOn(s, id, n)
    && (|| (n == allowance && t == Sweeps(s, id, n))
        || (n > 0 && t == Sweeps(s, id, n) && Stops(Sweeps(s, id, n - 1), id))
        || (Present(Sweeps(s, id, n), id) && Sweeps(s, id, n).scheduler.trackers.m[id].requests == []
            && t == Pause(Sweeps(s, id, n), id, Caughtup)))
  }

  predicate Stops(s: Router, id: ConnectionId) {
    Present(s, id) && s.scheduler.trackers.m[id].requests != [] && !ConsumeOne(s, id).1
  }

  lemma {:induction false} LoopEnds(s: Router, id: ConnectionId, allowance: nat) returns (n: nat)
    requires Present(s, id)
    ensures EndsAfter(s, id, ConsumeLoop(s, id, allowance), n, allowance)
    decreases allowance
  {
    hide ConsumeOne, Scheduler.Pause;
    n := 0;
    if allowance > 0 && s.scheduler.trackers.m[id].requests != [] {
      var t := ConsumeOne(s, id);
      if t.1 {
        SweptPresent(s, id);
        var m := LoopEnds(t.0, id, allowance - 1);
        n := m + 1;
      } else {
        n := 1;
        assert Sweeps(t.0, id, 0) == t.0;
      }
    }
  }

  lemma SweptPresent(s: Router, id: ConnectionId)
    requires Present(s, id) && s.scheduler.trackers.m[id].requests != []
    ensures Present(ConsumeOne(s, id).0, id)
  {
    hide ConsumeOne, SameNames;
    ConsumeOneSame(s, id);
    SameNamesPresent(s, ConsumeOne(s, id).0);
  }

  // The requests of a connection take turns: none is swept again before each has been swept once.
  lemma {:induction false} SweepsInOrder(s: Router, id: ConnectionId, i: nat)
    requires Present(s, id) && i < |s.scheduler.trackers.m[id].requests| && GoesOn(s, id, i + 1)
    ensures var t := Sweeps(s, id, i);
            && Present(t, id) && t.scheduler.trackers.m[id].requests != []
            && t.scheduler.trackers.m[id].requests[0] == s.scheduler.trackers.m[id].requests[i]
    decreases i
  {
    hide ConsumeOne;
    if i > 0 {
      SweptPresent(s, id);
      SweptRest(s, id);
      var rest := s.scheduler.trackers.m[id].requests[1..];
      assert rest[i - 1] == s.scheduler.trackers.m[id].requests[i];
      SweepsInOrder(ConsumeOne(s, id).0, id, i - 1);
    }
  }

  lemma SweptRest(s: Router, id: ConnectionId)
    requires Present(s, id) && s.scheduler.trackers.m[id].requests != []
    ensures id in ConsumeOne(s, id).0.scheduler.trackers.m
    ensures s.scheduler.trackers.m[id].requests[1..] <= ConsumeOne(s, id).0.scheduler.trackers.m[id].requests
  {
    hide ConsumeOne, ForwardData, Skip, Park;
    ConsumeOneShape(s, id);
  }

  // A turn of a connection sends its acks, and then sweeps its requests in turn, a hundred times at most; it
  // stops before only at a full window or buffer, or with nothing left to sweep.
  lemma TurnEnds(s: Router, id: ConnectionId) returns (n: nat)
    requires s.scheduler.readyqueue != [] && s.scheduler.readyqueue[0] == id && Present(s, id)
    ensures var s1 := s.(scheduler := s.scheduler.Rotate());
            Present(s1, id) && EndsAfter(SendAcks(s1, id), id, Consume(s).0, n, 100)
  {
    hide ConsumeLoop, SendAcks, EndsAfter, SameSubscriptions, DeviceAcks;
    var s1 := s.(scheduler := s.scheduler.Rotate());
    SendAcksSame(s1, id);
    n := LoopEnds(SendAcks(s1, id), id, 100);
  }

  // ---------------------------------------------------------------------------------------------
  // Many turns

  // What is left of the queue after n turns: its part from position n on, and behind it only
  // connections that are there.
  ghost predicate RestOfQueue(c: Scheduler, d: Scheduler, n: nat) {
    var k := if n <= |c.readyqueue| then |c.readyqueue| - n else 0;
    && d.trackers.m.Keys == c.trackers.m.Keys
    && k <= |d.readyqueue|
    && (forall i :: 0 <= i < k ==> d.readyqueue[i] == c.readyqueue[n + i])
    && (forall i :: k <= i < |d.readyqueue| ==> d.readyqueue[i] in c.trackers.m)
  }

  lemma {:induction false} ServeIs(s: Router, n: nat)
    ensures RestOfQueue(s.scheduler, Serve(s, n).scheduler, n)
  {
    hide Consume, Scheduler.Rotate;
    if n > 0 {
      ServeIs(s, n - 1);
      TurnIs(Serve(s, n - 1));
      OneTurnMore(s.scheduler, Serve(s, n - 1).scheduler, Serve(s, n).scheduler, n - 1);
    }
  }

  lemma OneTurnMore(a: Scheduler, c: Scheduler, d: Scheduler, n: nat)
    requires RestOfQueue(a, c, n) && d.trackers.m.Keys == c.trackers.m.Keys
    requires var q := c.readyqueue;
             && (q == [] ==> d.readyqueue == [])
             && (FrontIsGone(c) ==> d.readyqueue == q[1..])
             && (q != [] && !FrontIsGone(c) ==> d.readyqueue in {q[1..], q[1..] + [q[0]]})
    ensures RestOfQueue(a, d, n + 1)
  {
    var q, r := c.readyqueue, d.readyqueue;
    if q != [] {
      assert forall i :: 0 <= i < |q| - 1 ==> r[i] == q[i + 1];
      assert q[0] in a.trackers.m || FrontIsGone(c);
    }
  }

  // After n turns the router blocks with ids in its queue exactly if the id that was at position n
  // has no tracker.
  lemma BlocksBehindIff(s: Router, n: nat)
    ensures var q, t := s.scheduler.readyqueue, Serve(s, n);
            Blocks(t) && t.scheduler.readyqueue != [] <==> n < |q| && q[n] !in s.scheduler.trackers.m
  {
    hide Serve, Consume;
    ServeIs(s, n);
    BlocksIff(Serve(s, n));
  }

  // Up to a hundred queued ids, a round serves until nothing is queued or goes on without blocking.
  lemma ShortQueueNeverStarves(s: Router)
    requires |s.scheduler.readyqueue| <= TURNS
    ensures Blocks(Serve(s, TURNS)) <==> Serve(s, TURNS).scheduler.readyqueue == []
  {
    hide Serve, Consume;
    BlocksBehindIff(s, TURNS);
    BlocksIff(Serve(s, TURNS));
  }

  // ---------------------------------------------------------------------------------------------
  // A run that starves a connection

  function Name(k: nat): (r: ClientId)
    ensures |r| == k && ValidClientId(r)
  {
    seq(k, _ => 'a')
  }

  function Connects(k: nat): seq<Event> {
    if k == 0 then [] else Connects(k - 1) + [EventConnect(Name(k), true, None)]
  }

  function Turnstile(n: nat): seq<Event> {
    if n == 0 then [] else Turnstile(n - 1) + [EventConsume]
  }

  lemma {:induction false} TurnstileServes(s: Router, n: nat)
    ensures Run(s, Turnstile(n)) == Serve(s, n)
  {
    hide Consume, Run;
    NoTurnYet(s);
    if n > 0 {
      TurnstileServes(s, n - 1);
      OneTurn(s, Turnstile(n - 1));
    }
  }

  lemma NoTurnYet(s: Router)
    ensures Run(s, []) == s
  {
    hide Step;
  }

  lemma OneTurn(s: Router, es: seq<Event>)
    ensures Run(s, es + [EventConsume]) == Consume(Run(s, es)).0
  {
    hide Run, Consume;
    RunConcat(s, es, [EventConsume]);
    RunOneEvent(Run(s, es), EventConsume);
  }

  // Connections 0 to k - 1, queued in this order; the newest has not been sent its ConnAck.
  ghost predicate Crowd(s: Router, k: nat) {
    && Crammed(s.connections, k) && s.graveyard == map[] && s.config.maxConnections >= TURNS + 2
    && (forall client :: client in s.connectionMap ==> |client| <= k)
    && |s.scheduler.readyqueue| == k && (forall i :: 0 <= i < k ==> s.scheduler.readyqueue[i] == i)
    && (k > 0 ==> Unanswered(s, k - 1))
  }

  ghost predicate Crammed<T>(s: Slab<T>, k: nat) {
    |s.m| == k && s.free == [] && s.cap == k && forall id: nat :: id in s.m <==> id < k
  }

  predicate Unanswered(s: Router, id: ConnectionId) {
    && id in s.scheduler.trackers.m && s.scheduler.trackers.m[id].status == Ready
    && id in s.ackslog.m && s.ackslog.m[id].committed == [ConnAck(id, false)]
  }

  lemma CrowdGrows(s: Router, k: nat)
    requires Identified(s) && Crowd(s, k) && k < TURNS + 2
    ensures Crowd(Step(s, EventConnect(Name(k + 1), true, None)), k + 1)
  {
    hide Identified, Crammed, Admit, Unanswered;
    assert Name(k + 1) !in s.connectionMap;
    Cram(s.connections, k);
    AdmitKeysAgree(s);
    NewestIs(s, Name(k + 1));
  }

  lemma Cram<T>(s: Slab<T>, k: nat)
    requires Crammed(s, k)
    ensures |s.m| == k == s.NextKey()
    ensures forall v :: Crammed(s.Insert(v), k + 1)
  {
  }

  lemma NewestIs(s: Router, client: ClientId)
    requires s.graveyard == map[] && s.connections.NextKey() == s.ackslog.NextKey() == s.scheduler.trackers.NextKey()
    ensures var t, id := Admit(s, client, true, None), s.connections.NextKey();
            && t.connections == s.connections.Insert(Connection(client, true, {}, map[]))
            && t.graveyard == map[] && t.config == s.config && t.connectionMap == s.connectionMap[client := id]
            && t.scheduler.readyqueue == s.scheduler.readyqueue + [id] && Unanswered(t, id)
  {
    hide ForgetAccounts;
    assert PubRels([]) == [];
  }

  lemma {:induction false} ConnectsCrowd(c: Config, k: nat)
    requires c.maxConnections >= TURNS + 2 && k <= TURNS + 2
    ensures Crowd(Run(InitRouter(c), Connects(k)), k)
  {
    hide Step, Identified, Crowd;
    if k == 0 {
      NoCrowd(c);
    } else {
      ConnectsCrowd(c, k - 1);
      RunKeepsIdentity(c, Connects(k - 1));
      CrowdGrows(Run(InitRouter(c), Connects(k - 1)), k - 1);
      assert Connects(k)[..|Connects(k)| - 1] == Connects(k - 1);
    }
  }

  lemma NoCrowd(c: Config)
    requires c.maxConnections >= TURNS + 2
    ensures Crowd(InitRouter(c), 0)
  {
  }

  // Turns in which others are served bring a connection nothing.
  lemma {:induction false} ServedOthers(s: Router, id: ConnectionId, n: nat)
    requires Identified(s) && Present(s, id) && n <= |s.scheduler.readyqueue|
    requires forall i :: 0 <= i < n ==> s.scheduler.readyqueue[i] != id
    ensures Identified(Serve(s, n)) && Nudged(s, Serve(s, n), id)
  {
    hide Identified, Consume, Nudged;
    if n == 0 {
      NudgedSelf(s, id);
    } else {
      ServedOthers(s, id, n - 1);
      ServeIs(s, n - 1);
      var t := Serve(s, n - 1);
      assert t.scheduler.readyqueue[0] == s.scheduler.readyqueue[n - 1];
      NudgedStays(s, t, id);
      StepKeeps(t, EventConsume);
      StepNudged(t, EventConsume, id);
      NudgedTrans(s, t, Serve(s, n), id);
    }
  }

  lemma NudgedSelf(s: Router, id: ConnectionId)
    requires Present(s, id)
    ensures Nudged(s, s, id)
  {
  }

  lemma NudgedStays(s: Router, t: Router, id: ConnectionId)
    requires Nudged(s, t, id)
    ensures Present(t, id)
    ensures Unanswered(s, id) ==> Unanswered(t, id)
  {
  }

  // 102 clients connect, the last but one leaves at once: after its hundred turns the router waits for
  // an event although the last one is queued and its ConnAck not sent.
  lemma NewcomerStarves(c: Config)
    requires c.maxConnections >= TURNS + 2
    ensures var s := Run(InitRouter(c), Connects(TURNS + 2) + [EventDisconnect(TURNS)] + Turnstile(TURNS));
            Blocks(s) && TURNS + 1 in s.scheduler.readyqueue && Unanswered(s, TURNS + 1)
  {
    hide Run, InitRouter, Step, Consume, Serve, Identified, Nudged, Crowd, Unanswered, Connects, Turnstile;
    var es := Connects(TURNS + 2);
    var s, t := Run(InitRouter(c), es), Run(InitRouter(c), es + [EventDisconnect(TURNS)]);
    ConnectsCrowd(c, TURNS + 2);
    RunKeepsIdentity(c, es);
    RunConcat(InitRouter(c), es, [EventDisconnect(TURNS)]);
    RunOneEvent(s, EventDisconnect(TURNS));
    LastButOneLeaves(s);
    RunConcat(InitRouter(c), es + [EventDisconnect(TURNS)], Turnstile(TURNS));
    TurnstileServes(t, TURNS);
    ServedOthers(t, TURNS + 1, TURNS);
    NudgedStays(t, Serve(t, TURNS), TURNS + 1);
    ServeIs(t, TURNS);
    BlocksBehindIff(t, TURNS);
    assert Serve(t, TURNS).scheduler.readyqueue[1] == TURNS + 1;
  }

  lemma LastButOneLeaves(s: Router)
    requires Identified(s) && Crowd(s, TURNS + 2)
    ensures var t := Step(s, EventDisconnect(TURNS));
            && Identified(t) && Present(t, TURNS + 1) && Unanswered(t, TURNS + 1)
            && TURNS !in t.scheduler.trackers.m && |t.scheduler.readyqueue| == TURNS + 2
            && forall i :: 0 <= i < TURNS + 2 ==> t.scheduler.readyqueue[i] == i
  {
    hide Identified, Nudged, NamesOf, Clean, RewindAll, Retransmissions, ForgetAccounts, Unsubscribed, Unanswered, Step;
    IdentifiedPresent(s);
    LeaverIsGone(s);
    assert TURNS in s.connections.m && TURNS + 1 in s.connections.m;
    StepKeeps(s, EventDisconnect(TURNS));
    StepNudged(s, EventDisconnect(TURNS), TURNS + 1);
    NudgedStays(s, Step(s, EventDisconnect(TURNS)), TURNS + 1);
  }

  lemma LeaverIsGone(s: Router)
    requires Present(s, TURNS)
    ensures var t := Step(s, EventDisconnect(TURNS));
            TURNS !in t.scheduler.trackers.m && t.scheduler.readyqueue == s.scheduler.readyqueue
  {
    hide Clean, RewindAll, Retransmissions, ForgetAccounts, Unsubscribed;
  }
}

// The handshake between the router thread and a link thread: a locked buffer, a bounded channel of
// tokens towards the link, and Ready events back to the router.
module LinkProtocol {
  import opened Types
  import opened DataLogModel
  import opened OutgoingModel
  import opened SchedulerModel
  import opened RouterModel
  import opened Forwarding

  // owing: pushed but not yet signalled; full: the last push of publishes reached the buffer limit;
  // pausing: Unschedule pushed, connection not yet paused. holding: a token taken but not yet used;
  // drained: notifications taken out of the buffer; unscheduled: one of them was Unschedule; events:
  // Ready events the router has not handled.
  datatype Wire = Wire(
    buffer: seq<Notification>,
    tokens: nat,
    owing: bool,
    full: bool,
    pausing: bool,
    status: Status,
    holding: bool,
    drained: seq<Notification>,
    unscheduled: bool,
    events: nat)

  datatype Move =
    | PushAcks(ns: seq<Notification>)
    | PushForwards(ns: seq<Notification>)
    | PushUnschedule
    | TrySend
    | PauseBusy
    | PauseFor(reason: PauseReason)
    | Awaken(why: ScheduleReason)
    | HandleReady
    | Take
    | Swap
    | Drain
    | Wake

  predicate ByLink(m: Move) {
    m.Take? || m.Swap? || m.Drain? || m.Wake?
  }

  predicate NoUnschedule(ns: seq<Notification>) {
    forall n :: n in ns ==> n != Unschedule
  }

  // Each thread runs its own steps in order; the two interleave freely.
  predicate Enabled(w: Wire, m: Move) {
    match m
    case PushAcks(ns) => w.status == Ready && !w.owing && !w.pausing && ns != [] && NoUnschedule(ns)
    case PushForwards(ns) => w.status == Ready && !w.owing && !w.pausing && ns != [] && NoUnschedule(ns)
    case PushUnschedule => w.owing && w.full
    case TrySend => w.owing && !w.full
    case PauseBusy => w.pausing && !w.owing
    case PauseFor(reason) => w.status == Ready && !w.owing && !w.pausing && reason != Busy
    case Awaken(why) => !w.owing && !w.pausing && why != Init && why != LinkReady && Awakens(w.status, why)
    case HandleReady => !w.owing && !w.pausing && w.events > 0
    case Take => w.tokens > 0 && !w.holding && w.drained == [] && !w.unscheduled
    case Swap => w.holding
    case Drain => w.drained != []
    case Wake => w.unscheduled
  }

  function Do(w: Wire, m: Move): Wire {
    match m
    case PushAcks(ns) => w.(buffer := w.buffer + ns, owing := true)
    case PushForwards(ns) =>
      w.(buffer := w.buffer + ns, owing := true, full := |w.buffer + ns| >= MAX_CHANNEL_CAPACITY - 1)
    case PushUnschedule => w.(buffer := w.buffer + [Unschedule], full := false, pausing := true)
    case TrySend => w.(tokens := if w.tokens < MAX_CHANNEL_CAPACITY then w.tokens + 1 else w.tokens, owing := false)
    case PauseBusy => w.(status := Paused(Busy), pausing := false)
    case PauseFor(reason) => w.(status := Paused(reason))
    case Awaken(why) => w.(status := Ready)
    case HandleReady =>
      w.(events := if w.events > 0 then w.events - 1 else 0,
         status := if Awakens(w.status, LinkReady) then Ready else w.status)
    case Take => w.(tokens := if w.tokens > 0 then w.tokens - 1 else 0, holding := true)
    case Swap => w.(drained := w.buffer, buffer := [], holding := false)
    case Drain => w.(unscheduled := Unschedule in w.drained, drained := [])
    case Wake => w.(events := w.events + 1, unscheduled := false)
  }

  // ---------------------------------------------------------------------------------------------
  // Invariants

  // Something in the buffer is always announced, about to be, or about to be collected.
  predicate Announced(w: Wire) {
    w.buffer != [] ==> w.tokens > 0 || w.owing || w.holding
  }

  ghost function IsUnschedule(): Notification -> bool {
    (n: Notification) => n == Unschedule
  }

  // Calls to wake up a connection that are under way, in whatever form.
  ghost function Calls(w: Wire): nat {
    Count(w.buffer, IsUnschedule()) + Count(w.drained, IsUnschedule()) + (if w.unscheduled then 1 else 0) + w.events
  }

  // A busy connection is called back exactly once, and nobody else is.
  ghost predicate CalledOnce(w: Wire) {
    Calls(w) == if w.status == Paused(Busy) || w.pausing then 1 else 0
  }

  ghost predicate Inv(w: Wire) {
    && Announced(w) && CalledOnce(w)
    && (w.owing || w.pausing ==> w.status == Ready)
    && (w.full ==> w.owing && !w.pausing)
    && (w.holding ==> w.drained == [])
    && (w.unscheduled ==> w.drained == [] && !w.holding)
    && w.tokens <= MAX_CHANNEL_CAPACITY
  }

  lemma NoneCounted(ns: seq<Notification>)
    ensures NoUnschedule(ns) <==> Count(ns, IsUnschedule()) == 0
  {
    CountZero(ns, IsUnschedule());
    if Count(ns, IsUnschedule()) == 0 {
      forall n | n in ns
        ensures n != Unschedule
      {
        assert !IsUnschedule()(n);
      }
    } else {
      var n :| n in ns && IsUnschedule()(n);
    }
  }

  lemma MoveCalls(w: Wire, m: Move)
    requires Inv(w) && Enabled(w, m)
    ensures CalledOnce(Do(w, m))
  {
    hide Count;
    match m {
      case PushAcks(ns) =>
        NoneCounted(ns);
        CountConcat(w.buffer, ns, IsUnschedule());
      case PushForwards(ns) =>
        NoneCounted(ns);
        CountConcat(w.buffer, ns, IsUnschedule());
      case PushUnschedule =>
        CountConcat(w.buffer, [Unschedule], IsUnschedule());
        OneCounted();
      case Swap => CountZero<Notification>([], IsUnschedule());
      case Drain =>
        CountZero<Notification>([], IsUnschedule());
        NoneCounted(w.drained);
      case _ =>
    }
  }

  lemma OneCounted()
    ensures Count([Unschedule], IsUnschedule()) == 1
  {
    assert [Unschedule][..0] == [];
  }

  // Every interleaving of the two threads, also when the channel of tokens is full.
  lemma MoveKeepsInv(w: Wire, m: Move)
    requires Inv(w) && Enabled(w, m)
    ensures Inv(Do(w, m))
  {
    hide CalledOnce, NoUnschedule;
    MoveCalls(w, m);
    PausedReady(w);
  }

  lemma PausedReady(w: Wire)
    ensures Awakens(w.status, LinkReady) <==> w.status.Paused?
  {
  }

  ghost predicate Runs(w: Wire, ms: seq<Move>)
    decreases |ms|
  {
    ms == [] || (Enabled(w, ms[0]) && Runs(Do(w, ms[0]), ms[1..]))
  }

  function After(w: Wire, ms: seq<Move>): Wire
    decreases |ms|
  {
    if ms == [] then w else After(Do(w, ms[0]), ms[1..])
  }

  lemma {:induction false} RunsKeepInv(w: Wire, ms: seq<Move>)
    requires Inv(w) && Runs(w, ms)
    ensures Inv(After(w, ms))
    decreases |ms|
  {
    if ms != [] {
      MoveKeepsInv(w, ms[0]);
      RunsKeepInv(Do(w, ms[0]), ms[1..]);
    }
  }

  // ---------------------------------------------------------------------------------------------
  // Nothing gets stuck

  // Moves left until the call under way has reached the router, when the router itself is idle.
  function Distance(w: Wire): nat {
    if w.events > 0 then 1
    else if w.unscheduled then 2
    else if w.drained != [] then (if Unschedule in w.drained then 3 else 6)
    else if w.holding then 4
    else 5
  }

  // The next move of a busy connection's own threads.
  function NextMove(w: Wire): Move {
    if w.events > 0 then HandleReady
    else if w.unscheduled then Wake
    else if w.drained != [] then Drain
    else if w.holding then Swap
    else Take
  }

  // A busy connection is never deadlocked: the next move is enabled, brings it strictly closer to
  // being served again, and the last one makes it Ready.
  lemma BusyProgresses(w: Wire)
    requires Inv(w) && w.status == Paused(Busy)
    ensures var m := NextMove(w);
            && Enabled(w, m)
            && (if m == HandleReady then Do(w, m).status == Ready
                else Do(w, m).status == Paused(Busy) && Distance(Do(w, m)) < Distance(w))
  {
    hide Count;
    NoneCounted(w.buffer);
    NoneCounted(w.drained);
    if w.events == 0 && !w.unscheduled && w.drained != [] {
      assert Count(w.buffer, IsUnschedule()) + Count(w.drained, IsUnschedule()) == 1;
    }
  }

  // Whatever is in the buffer while the router is not about to signal, the link can still get at.
  lemma BufferIsReachable(w: Wire)
    requires Inv(w) && w.buffer != [] && !w.owing
    ensures exists m :: ByLink(m) && Enabled(w, m)
  {
    if w.holding {
      assert ByLink(Swap) && Enabled(w, Swap);
    } else if w.unscheduled {
      assert ByLink(Wake) && Enabled(w, Wake);
    } else if w.drained != [] {
      assert ByLink(Drain) && Enabled(w, Drain);
    } else {
      assert ByLink(Take) && Enabled(w, Take);
    }
  }

  // ---------------------------------------------------------------------------------------------
  // Starting a link

  // What building a link does: take one token, then the first notification.
  function Build(w: Wire): Wire
    requires w.buffer != [] && w.tokens > 0
  {
    w.(tokens := w.tokens - 1, buffer := w.buffer[1..])
  }

  // The connection has been served for the first time; nobody has read from the buffer.
  ghost predicate JustServed(w: Wire) {
    && w.buffer != [] && w.buffer[0].DeviceAck? && w.tokens > 0
    && !w.owing && !w.full && !w.pausing && !w.holding && w.drained == [] && !w.unscheduled && w.events == 0
    && Inv(w)
  }

  // The handshake starts out right exactly when the ConnAck was alone in the buffer or was not the
  // only thing announced; otherwise what follows it stays there until the next push.
  lemma BuildKeepsInvIff(w: Wire)
    requires JustServed(w)
    ensures Inv(Build(w)) <==> |w.buffer| == 1 || w.tokens > 1
    ensures !Inv(Build(w)) ==> Build(w).buffer != [] && forall m :: ByLink(m) ==> !Enabled(Build(w), m)
  {
    hide Count;
    var head := w.buffer[0];
    assert w.buffer == [head] + w.buffer[1..];
    CountConcat([head], w.buffer[1..], IsUnschedule());
    NoneCounted([head]);
  }

  // A connection that has just become Ready for the first time.
  const START: Wire := Wire([], 0, false, false, false, Ready, false, [], false, 0)

  // Its first turn: the acks that wait for it, among them the ConnAck.
  function FirstTurn(acks: seq<Notification>): Wire {
    Do(Do(START, PushAcks(acks)), TrySend)
  }

  lemma FirstTurnIsFresh(acks: seq<Notification>)
    requires acks != [] && acks[0].DeviceAck? && NoUnschedule(acks)
    ensures JustServed(FirstTurn(acks)) && FirstTurn(acks).buffer == acks && FirstTurn(acks).tokens == 1
  {
    hide Count;
    CountZero<Notification>([], IsUnschedule());
    MoveKeepsInv(START, PushAcks(acks));
    MoveKeepsInv(Do(START, PushAcks(acks)), TrySend);
  }

  // From a clean session on, through every interleaving, what is buffered is announced and a busy
  // connection has exactly one call back under way.
  lemma CleanLinkKeepsInv(id: ConnectionId, ms: seq<Move>)
    requires Runs(Build(FirstTurn([DeviceAck(ConnAck(id, false))])), ms)
    ensures Inv(After(Build(FirstTurn([DeviceAck(ConnAck(id, false))])), ms))
  {
    hide Inv, Runs, After, Build, FirstTurn;
    var acks := [DeviceAck(ConnAck(id, false))];
    FirstTurnIsFresh(acks);
    BuildKeepsInvIff(FirstTurn(acks));
    RunsKeepInv(Build(FirstTurn(acks)), ms);
  }

  // A resumed session with unacknowledged releases starts with all of them unannounced.
  lemma ResumedLinkWaits(id: ConnectionId, pubrels: seq<nat>)
    requires pubrels != []
    ensures var acks := DeviceAcks([ConnAck(id, true)] + PubRels(pubrels));
            && FirstTurn(acks).buffer != [] && FirstTurn(acks).tokens > 0
            && var w := Build(FirstTurn(acks));
               |w.buffer| == |pubrels| && w.tokens == 0 && !Inv(w) && forall m :: ByLink(m) ==> !Enabled(w, m)
  {
    hide Inv, JustServed;
    var acks := DeviceAcks([ConnAck(id, true)] + PubRels(pubrels));
    FirstTurnIsFresh(acks);
    BuildKeepsInvIff(FirstTurn(acks));
  }

  // ---------------------------------------------------------------------------------------------
  // The router's own steps are such moves

  // Buffer and tokens of a wire as the router's state has them.
  predicate Shows(w: Wire, o: Outgoing) {
    w.buffer == o.buffer && w.tokens == o.tokens
  }

  lemma {:induction false} PushForwardsPushes(o: Outgoing, ps: seq<Item>, qos: QoS, idx: FilterIdx)
    ensures var o' := o.PushForwards(ps, qos, idx);
            && |o'.buffer| == |o.buffer| + |ps| && o'.buffer[..|o.buffer|] == o.buffer
              && NoUnschedule(o'.buffer[|o.buffer|..])
            && o'.tokens == o.tokens
  {
    if ps != [] {
      PushForwardsPushes(o, ps[..|ps| - 1], qos, idx);
      var b, b' := o.PushForwards(ps[..|ps| - 1], qos, idx).buffer, o.PushForwards(ps, qos, idx).buffer;
      assert b'[|o.buffer|..] == b[|o.buffer|..] + [b'[|b|]];
    }
  }

  // The moves one sweep of a request consists of.
  function SweepMoves(dl: DataLog, o: Outgoing, r: DataRequest): seq<Move> {
    var f := ForwardData(dl, o, r);
    var items := RetainedItems(dl, r, Slots(dl, o, r)) + LogItems(Pull(dl, o, r).entries);
    if f.2 == ConsumeStatus.InflightFull then [PauseFor(PauseReason.InflightFull)]
    else if items == [] then []
    else
      var pushed := o.PushForwards(items, r.qos, r.filterIdx).buffer;
      var ns := if |o.buffer| <= |pushed| then pushed[|o.buffer|..] else [];
      if f.2 == BufferFull then [Move.PushForwards(ns), PushUnschedule, TrySend, PauseBusy]
      else [Move.PushForwards(ns), TrySend]
  }

  lemma SweepIsMoves(dl: DataLog, o: Outgoing, r: DataRequest, w: Wire)
    requires Shows(w, o) && w.status == Ready && !w.owing && !w.full && !w.pausing
    ensures var f, ms := ForwardData(dl, o, r), SweepMoves(dl, o, r);
            && Runs(w, ms) && Shows(After(w, ms), f.0)
            && !After(w, ms).owing && !After(w, ms).pausing
            && After(w, ms).status == match f.2
                                      case BufferFull => Paused(Busy)
                                      case InflightFull => Paused(PauseReason.InflightFull)
                                      case _ => Ready
  {
    hide Pull, Slots, RetainedItems, LogItems, Outgoing.PushForwards, NoUnschedule, Runs, After;
    var items := RetainedItems(dl, r, Slots(dl, o, r)) + LogItems(Pull(dl, o, r).entries);
    PushForwardsPushes(o, items, r.qos, r.filterIdx);
    var ms, pushed := SweepMoves(dl, o, r), o.PushForwards(items, r.qos, r.filterIdx).buffer;
    if |ms| == 0 {
      RunNone(w);
    } else if |ms| == 1 {
      RunOne(w, ms[0]);
    } else {
      var ns := pushed[|o.buffer|..];
      assert pushed == o.buffer + ns;
      if |ms| == 2 {
        RunTwo(w, ms[0], ms[1]);
      } else {
        RunTwo(w, ms[0], ms[1]);
        RunTwo(Do(Do(w, ms[0]), ms[1]), ms[2], ms[3]);
        RunFour(w, ms);
      }
    }
  }

  lemma RunNone(w: Wire)
    ensures Runs(w, []) && After(w, []) == w
  {
  }

  lemma RunOne(w: Wire, m: Move)
    ensures Runs(w, [m]) <==> Enabled(w, m)
    ensures After(w, [m]) == Do(w, m)
  {
    hide Enabled, Do;
    assert [m][1..] == [];
  }

  lemma RunTwo(w: Wire, a: Move, b: Move)
    ensures Runs(w, [a, b]) <==> Enabled(w, a) && Enabled(Do(w, a), b)
    ensures After(w, [a, b]) == Do(Do(w, a), b)
  {
    hide Enabled, Do;
    RunOne(Do(w, a), b);
    assert [a, b][1..] == [b];
  }

  lemma RunFour(w: Wire, ms: seq<Move>)
    requires |ms| == 4
    ensures var v := Do(Do(w, ms[0]), ms[1]);
            && (Runs(w, ms) <==> Runs(w, [ms[0], ms[1]]) && Runs(v, [ms[2], ms[3]]))
            && After(w, ms) == After(v, [ms[2], ms[3]])
  {
    hide Enabled, Do;
    RunTwo(w, ms[0], ms[1]);
    assert ms[1..][1..] == [ms[2], ms[3]];
  }

  lemma AcksAreMoves(s: Router, id: ConnectionId, w: Wire)
    requires Present(s, id) && Shows(w, s.obufs.m[id]) && w.status == Ready && !w.owing && !w.full && !w.pausing
    ensures var acks := s.ackslog.m[id].committed;
            var ms := if acks == [] then [] else [PushAcks(DeviceAcks(acks)), TrySend];
            Runs(w, ms) && Shows(After(w, ms), SendAcks(s, id).obufs.m[id]) && !After(w, ms).owing
  {
    hide Runs, After;
    var acks := s.ackslog.m[id].committed;
    RunNone(w);
    RunTwo(w, PushAcks(DeviceAcks(acks)), TrySend);
  }
}

// The link side of the handshake, in place.
module Links {
  import opened Types
  import opened SchedulerModel
  import P = LinkProtocol

  // One connection as its link sees it: the shared buffer and channels, and the link's own state. What
  // belongs to the router thread is only looked at by the specification.
  class Link {
    var sendBuffer: seq<Notification>
    var routerRx: nat
    var holding: bool
    var notifications: seq<Notification>
    var unscheduled: bool
    var routerTx: nat
    // Notifications that became packets for the network, in order.
    var written: seq<Notification>
    ghost var owing: bool
    ghost var full: bool
    ghost var pausing: bool
    ghost var status: Status

    ghost function Model(): P.Wire
      reads this
    {
      P.Wire(sendBuffer, routerRx, owing, full, pausing, status, holding, notifications, unscheduled, routerTx)
    }

    // Takes over after the ConnAck has been taken out of the buffer with one token.
    constructor (buffer: seq<Notification>, tokens: nat, ghost w: P.Wire)
      requires P.JustServed(w) && w.buffer == buffer && w.tokens == tokens
      ensures Model() == P.Build(w) && written == []
      ensures P.Inv(Model()) <==> |buffer| == 1 || tokens > 1
    {
      sendBuffer, routerRx, holding, notifications := buffer[1..], tokens - 1, false, [];
      unscheduled, routerTx, written := false, 0, [];
      owing, full, pausing, status := w.owing, w.full, w.pausing, w.status;
      new;
      P.BuildKeepsInvIff(w);
    }

    // Waits for a token, then swaps everything out of the shared buffer.
    method Exchange()
      requires P.Inv(Model()) && P.Enabled(Model(), P.Take)
      modifies this
      ensures Model() == P.Do(P.Do(old(Model()), P.Take), P.Swap) && P.Inv(Model())
      ensures notifications == old(sendBuffer) && sendBuffer == [] && written == old(written)
    {
      P.MoveKeepsInv(Model(), P.Take);
      routerRx := routerRx - 1;
      holding := true;
      P.MoveKeepsInv(Model(), P.Swap);
      sendBuffer, notifications := [], sendBuffer;
      holding := false;
    }

    // Every notification but Unschedule becomes a packet; Unschedule is remembered.
    method Drain()
      requires P.Inv(Model()) && P.Enabled(Model(), P.Drain)
      modifies this
      ensures Model() == P.Do(old(Model()), P.Drain) && P.Inv(Model())
      ensures written == old(written) + Packets(old(notifications))
    {
      P.MoveKeepsInv(Model(), P.Drain);
      var drained, i, seen := notifications, 0, false;
      var packets: seq<Notification> := [];
      while i < |drained|
        invariant i <= |drained| && packets == Packets(drained[..i]) && (seen <==> Unschedule in drained[..i])
      {
        assert drained[..i + 1] == drained[..i] + [drained[i]];
        if drained[i] != Unschedule {
          packets := packets + [drained[i]];
        } else {
          seen := true;
        }
        i := i + 1;
      }
      assert drained[..i] == drained;
      notifications, unscheduled := [], seen;
      written := written + packets;
    }

    // Answers an Unschedule with a Ready event.
    method Wake()
      requires P.Inv(Model()) && P.Enabled(Model(), P.Wake)
      modifies this
      ensures Model() == P.Do(old(Model()), P.Wake) && P.Inv(Model()) && written == old(written)
    {
      P.MoveKeepsInv(Model(), P.Wake);
      routerTx := routerTx + 1;
      unscheduled := false;
    }
  }

  function Packets(ns: seq<Notification>): seq<Notification> {
    if ns == [] then []
    else
      var r := Packets(ns[..|ns| - 1]);
      if ns[|ns| - 1] == Unschedule then r else r + [ns[|ns| - 1]]
  }

  // The only thing a link ever withholds from the network is Unschedule.
  lemma {:induction false} PacketsAre(ns: seq<Notification>)
    ensures P.NoUnschedule(Packets(ns)) && |Packets(ns)| + Count(ns, P.IsUnschedule()) == |ns|
    ensures forall n :: n in ns && n != Unschedule ==> n in Packets(ns)
  {
    if ns != [] {
      var rest, last := ns[..|ns| - 1], ns[|ns| - 1];
      PacketsAre(rest);
      assert ns == rest + [last];
    }
  }
}

// The send side of a connection, in place.
module Outgoings {
  import opened Types
  import M = OutgoingModel

  class Outgoing {
    const clientId: ClientId
    var dataBuffer: seq<Notification>
    var tokens: nat
    var inflightBuffer: seq<M.Inflight>
    var unackedPubrels: seq<nat>
    var lastPkid: nat

    ghost function Model(): M.Outgoing
      reads this
    {
      M.Outgoing(clientId, dataBuffer, tokens, inflightBuffer, unackedPubrels, lastPkid)
    }

    constructor (clientId: ClientId)
      ensures Model() == M.NewOutgoing(clientId, [])
      ensures M.WindowOk(Model())
    {
      this.clientId := clientId;
      dataBuffer, tokens, inflightBuffer, unackedPubrels, lastPkid := [], 0, [], [], 0;
    }

    method FreeSlots() returns (n: nat)
      requires M.WindowOk(Model())
      ensures n == Model().FreeSlots() && n + |inflightBuffer| == MAX_INFLIGHT
    {
      n := MAX_INFLIGHT - |inflightBuffer|;
    }

    method PushNotification(n: Notification) returns (len: nat)
      modifies this`dataBuffer
      ensures Model() == old(Model()).PushNotification(n)
      ensures len == |dataBuffer|
    {
      dataBuffer := dataBuffer + [n];
      len := |dataBuffer|;
    }

    // Sends a token unless the channel is full.
    method Notify()
      modifies this`tokens
      ensures Model() == old(Model()).Notify()
      ensures tokens > 0
    {
      if tokens < MAX_CHANNEL_CAPACITY {
        tokens := tokens + 1;
      }
    }

    // Publishes enter the buffer, and the window when they need an acknowledgement, in order; the
    // window stays within its bound and consecutively numbered when they fit.
    method PushForwards(publishes: seq<M.Item>, qos: QoS, filterIdx: FilterIdx) returns (buffered: nat, inflight: nat)
      modifies this
      ensures Model() == old(Model()).PushForwards(publishes, qos, filterIdx)
      ensures buffered == |dataBuffer| && inflight == |inflightBuffer|
      ensures old(M.WindowOk(Model())) && (qos == AtMostOnce || |publishes| <= old(Model().FreeSlots())) ==>
                M.WindowOk(Model())
    {
      ghost var o := Model();
      var i := 0;
      if qos == AtMostOnce {
        while i < |publishes|
          invariant i <= |publishes|
          invariant Model() == o.PushForwards(publishes[..i], qos, filterIdx)
        {
          var p := publishes[i];
          assert publishes[..i + 1][..i] == publishes[..i];
          dataBuffer := dataBuffer + [Forward(p.1, p.0.(qos := qos))];
          i := i + 1;
        }
      } else {
        while i < |publishes|
          invariant i <= |publishes|
          invariant Model() == o.PushForwards(publishes[..i], qos, filterIdx)
        {
          var p := publishes[i];
          assert publishes[..i + 1][..i] == publishes[..i];
          lastPkid := lastPkid + 1;
          var publish := p.0.(qos := qos, pkid := lastPkid);
          inflightBuffer := inflightBuffer + [M.Inflight(lastPkid, filterIdx, p.1)];
          if lastPkid == MAX_INFLIGHT {
            lastPkid := 0;
          }
          dataBuffer := dataBuffer + [Forward(p.1, publish)];
          i := i + 1;
        }
      }
      assert publishes[..i] == publishes;
      buffered, inflight := |dataBuffer|, |inflightBuffer|;
      if M.WindowOk(o) && (qos == AtMostOnce || |publishes| <= o.FreeSlots()) {
        M.PushForwardsKeepsWindow(o, publishes, qos, filterIdx);
      }
    }

    method RegisterAck(pkid: nat) returns (ok: bool)
      modifies this`inflightBuffer
      ensures (Model(), ok) == old(Model()).RegisterAck(pkid)
      ensures ok <==> old(inflightBuffer) != [] && old(inflightBuffer)[0].pkid == pkid
      ensures inflightBuffer == if old(inflightBuffer) == [] then [] else old(inflightBuffer)[1..]
      ensures old(M.WindowOk(Model())) ==> M.WindowOk(Model())
    {
      ghost var o := Model();
      if M.WindowOk(o) {
        M.AckKeepsWindow(o, pkid);
      }
      if inflightBuffer == [] {
        return false;
      }
      var head := inflightBuffer[0].pkid;
      inflightBuffer := inflightBuffer[1..];
      if pkid != head {
        return false;
      }
      return true;
    }

    method RegisterPubRec(pkid: nat)
      modifies this`unackedPubrels
      ensures Model() == old(Model()).RegisterPubRec(pkid) && unackedPubrels == old(unackedPubrels) + [pkid]
    {
      unackedPubrels := unackedPubrels + [pkid];
    }

    method RegisterPubComp(pkid: nat) returns (ok: bool)
      modifies this`unackedPubrels
      ensures (Model(), ok) == old(Model()).RegisterPubComp(pkid)
      ensures ok <==> old(unackedPubrels) != [] && old(unackedPubrels)[0] == pkid
      ensures unackedPubrels == if old(unackedPubrels) == [] then [] else old(unackedPubrels)[1..]
    {
      if unackedPubrels == [] {
        return false;
      }
      var id := unackedPubrels[0];
      unackedPubrels := unackedPubrels[1..];
      if pkid != id {
        return false;
      }
      return true;
    }

    // The first cursor of every filter in the window; the least one when the window is ordered.
    method RetransmissionMap() returns (o: map<FilterIdx, Cursor>)
      ensures o == M.Retransmissions(inflightBuffer)
      ensures M.Ordered(inflightBuffer) ==> forall i, c :: M.HasCursor(inflightBuffer, i, c) ==>
                i in o && (c == o[i] || Before(o[i], c))
    {
      o := map[];
      var i := 0;
      while i < |inflightBuffer|
        invariant i <= |inflightBuffer|
        invariant o == M.Retransmissions(inflightBuffer[..i])
      {
        var e := inflightBuffer[i];
        assert inflightBuffer[..i + 1][..i] == inflightBuffer[..i];
        if e.filterIdx !in o && e.cursor.Some? {
          o := o[e.filterIdx := e.cursor.value];
        }
        i := i + 1;
      }
      assert inflightBuffer[..i] == inflightBuffer;
      if M.Ordered(inflightBuffer) {
        forall i, c | M.HasCursor(inflightBuffer, i, c)
          ensures i in o && (c == o[i] || Before(o[i], c))
        {
          M.RetransmissionsAreLeast(inflightBuffer, i);
        }
      }
    }
  }
}

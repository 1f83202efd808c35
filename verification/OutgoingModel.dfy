// The send side of one connection: notification buffer, inflight window, packet ids.
module OutgoingModel {
  import opened Types

  datatype Inflight = Inflight(pkid: nat, filterIdx: FilterIdx, cursor: Option<Cursor>)

  // A publish on its way out; no cursor marks a retained publish.
  type Item = (Publish, Option<Cursor>)

  datatype Outgoing = Outgoing(
    clientId: ClientId,
    buffer: seq<Notification>,
    tokens: nat,
    inflight: seq<Inflight>,
    unackedPubrels: seq<nat>,
    lastPkid: nat)
  {
    function FreeSlots(): nat {
      if |inflight| <= MAX_INFLIGHT then MAX_INFLIGHT - |inflight| else 0
    }

    // try_send on the bounded channel.
    function Notify(): Outgoing {
      this.(tokens := if tokens < MAX_CHANNEL_CAPACITY then tokens + 1 else tokens)
    }

    function PushNotification(n: Notification): Outgoing {
      this.(buffer := buffer + [n])
    }

    function PushOne(p: Item, qos: QoS, idx: FilterIdx): Outgoing {
      if qos == AtMostOnce then this.(buffer := buffer + [Forward(p.1, p.0.(qos := qos))])
      else
        this.(inflight := inflight + [Inflight(lastPkid + 1, idx, p.1)],
              lastPkid := if lastPkid + 1 == MAX_INFLIGHT then 0 else lastPkid + 1,
              buffer := buffer + [Forward(p.1, p.0.(qos := qos, pkid := lastPkid + 1))])
    }

    function PushForwards(ps: seq<Item>, qos: QoS, idx: FilterIdx): Outgoing
      decreases |ps|
    {
      if ps == [] then this
      else PushForwards(ps[..|ps| - 1], qos, idx).PushOne(ps[|ps| - 1], qos, idx)
    }

    // The head of the window is dropped even when the packet id is not the expected one.
    function RegisterAck(pkid: nat): (Outgoing, bool) {
      if inflight == [] then (this, false)
      else (this.(inflight := inflight[1..]), inflight[0].pkid == pkid)
    }

    function RegisterPubRec(pkid: nat): Outgoing {
      this.(unackedPubrels := unackedPubrels + [pkid])
    }

    function RegisterPubComp(pkid: nat): (Outgoing, bool) {
      if unackedPubrels == [] then (this, false)
      else (this.(unackedPubrels := unackedPubrels[1..]), unackedPubrels[0] == pkid)
    }
  }

  function NewOutgoing(clientId: ClientId, pubrels: seq<nat>): Outgoing {
    Outgoing(clientId, [], 0, [], pubrels, 0)
  }

  // First cursor found for every filter.
  function Retransmissions(inflight: seq<Inflight>): map<FilterIdx, Cursor> {
    if inflight == [] then map[]
    else
      var m := Retransmissions(inflight[..|inflight| - 1]);
      var e := inflight[|inflight| - 1];
      if e.cursor.Some? && e.filterIdx !in m then m[e.filterIdx := e.cursor.value] else m
  }

  // ---------------------------------------------------------------------------------------------
  // The window

  // At most 100 entries, numbered consecutively modulo 100 in 1..=100 up to the last id given out.
  ghost predicate WindowOk(o: Outgoing) {
    && |o.inflight| <= MAX_INFLIGHT
    && o.lastPkid < MAX_INFLIGHT
    && forall i :: 0 <= i < |o.inflight| ==>
         o.inflight[i].pkid == (o.lastPkid + MAX_INFLIGHT + i - |o.inflight|) % MAX_INFLIGHT + 1
  }

  lemma WindowPkidsDistinct(o: Outgoing)
    requires WindowOk(o)
    ensures forall i :: 0 <= i < |o.inflight| ==> 1 <= o.inflight[i].pkid <= MAX_INFLIGHT
    ensures forall i, j :: 0 <= i < j < |o.inflight| ==> o.inflight[i].pkid != o.inflight[j].pkid
    ensures forall i :: 0 <= i < |o.inflight| - 1 ==>
              o.inflight[i + 1].pkid == if o.inflight[i].pkid == MAX_INFLIGHT then 1 else o.inflight[i].pkid + 1
  {
  }

  lemma {:induction false} PushForwardsKeepsWindow(o: Outgoing, ps: seq<Item>, qos: QoS, idx: FilterIdx)
    requires WindowOk(o) && (qos == AtMostOnce || |ps| <= o.FreeSlots())
    ensures WindowOk(o.PushForwards(ps, qos, idx))
    ensures |o.PushForwards(ps, qos, idx).inflight| == |o.inflight| + (if qos == AtMostOnce then 0 else |ps|)
  {
    if ps != [] {
      PushForwardsKeepsWindow(o, ps[..|ps| - 1], qos, idx);
      PushOneKeepsWindow(o.PushForwards(ps[..|ps| - 1], qos, idx), ps[|ps| - 1], qos, idx);
    }
  }

  lemma PushOneKeepsWindow(o: Outgoing, p: Item, qos: QoS, idx: FilterIdx)
    requires WindowOk(o) && (qos == AtMostOnce || |o.inflight| < MAX_INFLIGHT)
    ensures WindowOk(o.PushOne(p, qos, idx))
  {
    if qos != AtMostOnce {
      var o', n := o.PushOne(p, qos, idx), |o.inflight|;
      forall i | 0 <= i < n
        ensures o'.inflight[i].pkid == (o'.lastPkid + MAX_INFLIGHT + i - |o'.inflight|) % MAX_INFLIGHT + 1
      {
        assert o'.inflight[i] == o.inflight[i];
      }
    }
  }

  lemma AckKeepsWindow(o: Outgoing, pkid: nat)
    requires WindowOk(o)
    ensures WindowOk(o.RegisterAck(pkid).0)
  {
  }

  // Entry i of the window and notification j of the buffer are one publish on its way out.
  ghost predicate SentAs(o: Outgoing, i: nat, j: nat, p: Item, qos: QoS, idx: FilterIdx) {
    && i < |o.inflight| && o.inflight[i].filterIdx == idx && o.inflight[i].cursor == p.1
    && j < |o.buffer| && o.buffer[j] == Forward(p.1, p.0.(qos := qos, pkid := o.inflight[i].pkid))
  }

  // Each inflight entry stands for one publish put in the buffer with the same id and cursor, in order.
  lemma {:induction false} PushForwardsSends(o: Outgoing, ps: seq<Item>, qos: QoS, idx: FilterIdx)
    requires WindowOk(o) && qos != AtMostOnce
    ensures var o', n, b := o.PushForwards(ps, qos, idx), |o.inflight|, |o.buffer|;
            && |o'.inflight| == n + |ps| && |o'.buffer| == b + |ps|
            && o'.inflight[..n] == o.inflight && o'.buffer[..b] == o.buffer
            && o'.clientId == o.clientId && o'.unackedPubrels == o.unackedPubrels && o'.tokens == o.tokens
            && forall k :: 0 <= k < |ps| ==> SentAs(o', n + k, b + k, ps[k], qos, idx)
  {
    hide WindowOk, SentAs, Outgoing.PushOne;
    if ps != [] {
      var rest, last := ps[..|ps| - 1], ps[|ps| - 1];
      PushForwardsSends(o, rest, qos, idx);
      var p, n, b := o.PushForwards(rest, qos, idx), |o.inflight|, |o.buffer|;
      PushOneSends(p, last, qos, idx);
      var o' := p.PushOne(last, qos, idx);
      assert o'.inflight[..n] == p.inflight[..n] && o'.buffer[..b] == p.buffer[..b];
      forall k | 0 <= k < |ps|
        ensures SentAs(o', n + k, b + k, ps[k], qos, idx)
      {
        if k < |rest| {
          PushOneKeepsSent(p, last, qos, idx, n + k, b + k, rest[k]);
        }
      }
    }
  }

  lemma PushOneSends(o: Outgoing, p: Item, qos: QoS, idx: FilterIdx)
    requires qos != AtMostOnce
    ensures var o', n, b := o.PushOne(p, qos, idx), |o.inflight|, |o.buffer|;
            && |o'.inflight| == n + 1 && |o'.buffer| == b + 1
            && o'.inflight[..n] == o.inflight && o'.buffer[..b] == o.buffer
            && o'.clientId == o.clientId && o'.unackedPubrels == o.unackedPubrels && o'.tokens == o.tokens
            && SentAs(o', n, b, p, qos, idx)
  {
  }

  lemma PushOneKeepsSent(o: Outgoing, p: Item, qos: QoS, idx: FilterIdx, i: nat, j: nat, q: Item)
    requires qos != AtMostOnce && SentAs(o, i, j, q, qos, idx)
    ensures SentAs(o.PushOne(p, qos, idx), i, j, q, qos, idx)
  {
  }

  lemma {:induction false} PushForwardsQoS0(o: Outgoing, ps: seq<Item>, idx: FilterIdx)
    ensures var o' := o.PushForwards(ps, AtMostOnce, idx);
            && o' == o.(buffer := o'.buffer) && |o'.buffer| == |o.buffer| + |ps| && o'.buffer[..|o.buffer|] == o.buffer
            && forall k :: 0 <= k < |ps| ==> o'.buffer[|o.buffer| + k] == Forward(ps[k].1, ps[k].0.(qos := AtMostOnce))
  {
    if ps != [] {
      PushForwardsQoS0(o, ps[..|ps| - 1], idx);
    }
  }

  // ---------------------------------------------------------------------------------------------
  // What has to be sent again

  // Cursors of one filter appear in increasing order.
  ghost predicate Ordered(inflight: seq<Inflight>) {
    forall i, j :: 0 <= i < j < |inflight| && inflight[i].filterIdx == inflight[j].filterIdx &&
                   inflight[i].cursor.Some? && inflight[j].cursor.Some?
      ==> Before(inflight[i].cursor.value, inflight[j].cursor.value)
  }

  ghost predicate HasCursor(inflight: seq<Inflight>, idx: FilterIdx, c: Cursor) {
    exists i :: 0 <= i < |inflight| && inflight[i].filterIdx == idx && inflight[i].cursor == Some(c)
  }

  // In an ordered window the first cursor found for a filter is the least one in flight.
  lemma {:induction false} RetransmissionsAreLeast(inflight: seq<Inflight>, idx: FilterIdx)
    requires Ordered(inflight)
    ensures idx in Retransmissions(inflight) <==> exists c :: HasCursor(inflight, idx, c)
    ensures idx in Retransmissions(inflight) ==>
              && HasCursor(inflight, idx, Retransmissions(inflight)[idx])
              && forall c :: HasCursor(inflight, idx, c) ==>
                   c == Retransmissions(inflight)[idx] || Before(Retransmissions(inflight)[idx], c)
  {
    if inflight != [] {
      var rest, n := inflight[..|inflight| - 1], |inflight| - 1;
      RetransmissionsAreLeast(rest, idx);
      var e := inflight[n];
      assert e.filterIdx == idx && e.cursor.Some? ==> HasCursor(inflight, idx, e.cursor.value);
      forall c | HasCursor(rest, idx, c)
        ensures HasCursor(inflight, idx, c)
      {
        var i :| 0 <= i < |rest| && rest[i].filterIdx == idx && rest[i].cursor == Some(c);
        assert inflight[i].filterIdx == idx && inflight[i].cursor == Some(c);
      }
      forall c | HasCursor(inflight, idx, c)
        ensures HasCursor(rest, idx, c) || (e.filterIdx == idx && e.cursor == Some(c))
      {
        var i :| 0 <= i < |inflight| && inflight[i].filterIdx == idx && inflight[i].cursor == Some(c);
        if i < n {
          assert rest[i].filterIdx == idx && rest[i].cursor == Some(c);
        }
      }
      if idx in Retransmissions(rest) && e.filterIdx == idx && e.cursor.Some? {
        var i :| 0 <= i < n && rest[i].filterIdx == idx && rest[i].cursor == Some(Retransmissions(rest)[idx]);
        assert inflight[i] == rest[i];
      }
    }
  }
}

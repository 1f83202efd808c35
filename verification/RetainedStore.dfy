// Retained publishes: what the store holds, which of it a subscription is sent, and how a sweep sends it.
module RetainedStore {
  import opened Types
  import opened LogModel
  import opened TopicMatch
  import opened DataLogModel
  import opened OutgoingModel
  import opened RouterModel
  import opened Forwarding

  // ---------------------------------------------------------------------------------------------
  // Contents

  ghost predicate OnePerTopic(ps: seq<Publish>) {
    forall i, j :: 0 <= i < j < |ps| ==> ps[i].topic != ps[j].topic
  }

  lemma {:induction false} ForgetIs(ps: seq<Publish>, topic: Topic)
    ensures forall q :: q in Forget(ps, topic) <==> q in ps && q.topic != topic
    ensures OnePerTopic(ps) ==> OnePerTopic(Forget(ps, topic))
  {
    if ps != [] {
      var rest, last := ps[..|ps| - 1], ps[|ps| - 1];
      assert ps == rest + [last];
      ForgetIs(rest, topic);
      if OnePerTopic(ps) {
        forall i | 0 <= i < |Forget(rest, topic)|
          ensures Forget(rest, topic)[i].topic != last.topic
        {
          assert Forget(rest, topic)[i] in rest;
        }
      }
    }
  }

  // A publish without a payload clears its topic, one that is to be retained replaces what its topic had,
  // and nothing else changes the store.
  lemma AcceptStores(dl: DataLog, p: Publish)
    requires OnePerTopic(dl.retained)
    ensures OnePerTopic(Accept(dl, p).0.retained)
    ensures forall q :: q in Accept(dl, p).0.retained <==>
              if q.topic != p.topic then q in dl.retained
              else if p.payload == [] then false
              else if p.retain then q == p
              else q in dl.retained
  {
    hide AppendAll, Lookup, Forget;
    ForgetIs(dl.retained, p.topic);
    var kept := Forget(dl.retained, p.topic);
    assert forall i :: 0 <= i < |kept| ==> kept[i] in kept;
  }

  // Whether a publish decides what is retained for its topic.
  predicate Decides(p: Publish) {
    p.payload == [] || p.retain
  }

  // The last publish of its topic that decides is one to be retained, and it is this one.
  ghost predicate Current(ps: seq<Publish>, q: Publish) {
    exists i :: CurrentAt(ps, q, i)
  }

  ghost predicate CurrentAt(ps: seq<Publish>, q: Publish, i: int) {
    && 0 <= i < |ps| && ps[i] == q && q.retain && q.payload != []
    && forall j :: i < j < |ps| && ps[j].topic == q.topic ==> !Decides(ps[j])
  }

  ghost predicate StoreIs(retained: seq<Publish>, ps: seq<Publish>) {
    OnePerTopic(retained) && forall q :: q in retained <==> Current(ps, q)
  }

  lemma CurrentSnoc(ps: seq<Publish>, p: Publish, q: Publish)
    ensures Current(ps + [p], q) <==>
              if q.topic == p.topic && Decides(p) then q == p && p.payload != [] else Current(ps, q)
  {
    var n := |ps|;
    assert (ps + [p])[n] == p;
    if Current(ps + [p], q) {
      var i :| CurrentAt(ps + [p], q, i);
      if i < n {
        assert CurrentAt(ps, q, i) by {
          assert forall j :: i < j < n ==> (ps + [p])[j] == ps[j];
        }
      }
    }
    if q == p && Decides(p) && p.payload != [] {
      assert CurrentAt(ps + [p], q, n);
    }
    if Current(ps, q) && !(q.topic == p.topic && Decides(p)) {
      var i :| CurrentAt(ps, q, i);
      assert CurrentAt(ps + [p], q, i) by {
        assert forall j :: i < j < n ==> (ps + [p])[j] == ps[j];
      }
    }
  }

  // After any publish the store holds, for each topic, the last one that was to be retained, unless one
  // without a payload came after it.
  lemma AcceptKeepsLast(dl: DataLog, ps: seq<Publish>, p: Publish)
    requires StoreIs(dl.retained, ps)
    ensures StoreIs(Accept(dl, p).0.retained, ps + [p])
  {
    hide Accept, Current;
    AcceptStores(dl, p);
    forall q
      ensures q in Accept(dl, p).0.retained <==> Current(ps + [p], q)
    {
      CurrentSnoc(ps, p, q);
    }
  }

  // ---------------------------------------------------------------------------------------------
  // Selection

  // Selecting goes through the store in order, takes what matches, and leaves the rest.
  lemma {:induction false} RetainedForIs(a: seq<Publish>, b: seq<Publish>, p: Publish, filter: Filter)
    ensures RetainedFor([p], filter) == if Matches(p.topic, filter) then [p] else []
    ensures RetainedFor(a + b, filter) == RetainedFor(a, filter) + RetainedFor(b, filter)
    ensures multiset(RetainedFor(a, filter))[p] == if Matches(p.topic, filter) then multiset(a)[p] else 0
    decreases |a| + |b|
  {
    hide Matches;
    assert [p][..0] == [] && RetainedFor([], filter) == [];
    if b != [] {
      assert (a + b)[..|a + b| - 1] == a + b[..|b| - 1];
      RetainedForIs(a, b[..|b| - 1], p, filter);
    } else {
      assert a + b == a;
      if a != [] {
        assert a == a[..|a| - 1] + [a[|a| - 1]];
        RetainedForIs(a[..|a| - 1], [], p, filter);
      }
    }
  }

  // ---------------------------------------------------------------------------------------------
  // Sending

  // A notification that carries a retained publish, under the QoS of the subscription and without a
  // position.
  ghost predicate CarriesRetained(m: Notification, p: Publish, qos: QoS) {
    m.Forward? && m.cursor == None && m.publish == p.(qos := qos, pkid := m.publish.pkid)
  }

  // The first sweep of a subscription puts the retained publishes that match its filter in front of what it
  // reads from the log, in the order of the store, as many as may be sent; later sweeps put none there.
  lemma SweepSendsRetained(dl: DataLog, o: Outgoing, r: DataRequest)
    requires Readable(dl, r) && WindowOk(o)
    ensures var f, ps := ForwardData(dl, o, r), RetainedFor(dl.retained, r.filter);
            var slots := if r.qos == AtMostOnce then dl.config.maxOutgoingPacketCount else 100 - |o.inflight|;
            var n := RetainedCount(dl, o, r);
            && n == (if !r.forwardRetained then 0 else if |ps| <= slots then |ps| else slots)
            && (f.2 != ConsumeStatus.InflightFull ==>
                  && |f.0.buffer| >= |o.buffer| + n && f.0.buffer[..|o.buffer|] == o.buffer
                  && forall k :: 0 <= k < n ==> CarriesRetained(f.0.buffer[|o.buffer| + k], ps[k], r.qos))
  {
    hide Pull, LogItems, Outgoing.PushForwards, RetainedFor, CarriesRetained;
    ForwardDelivers(dl, o, r);
    RetainedAre(dl, o, r);
    PushedCarriesRetained(dl, o, r);
  }

  lemma RetainedAre(dl: DataLog, o: Outgoing, r: DataRequest)
    ensures var ps, items := RetainedFor(dl.retained, r.filter), RetainedItems(dl, r, Slots(dl, o, r));
            && |items| == (if !r.forwardRetained then 0 else if |ps| <= Slots(dl, o, r) then |ps| else Slots(dl, o, r))
            && forall k :: 0 <= k < |items| ==> items[k] == (ps[k], None)
  {
    hide RetainedFor, Outgoing.FreeSlots;
  }

  lemma PushedCarriesRetained(dl: DataLog, o: Outgoing, r: DataRequest)
    requires Readable(dl, r) && WindowOk(o)
    ensures var items := RetainedItems(dl, r, Slots(dl, o, r)) + LogItems(Pull(dl, o, r).entries);
            var b := o.PushForwards(items, r.qos, r.filterIdx).buffer;
            && |b| == |o.buffer| + |items|
            && forall k :: 0 <= k < RetainedCount(dl, o, r) ==>
                 CarriesRetained(b[|o.buffer| + k], RetainedFor(dl.retained, r.filter)[k], r.qos)
  {
    hide Pull, Slots, RetainedItems, LogItems, Outgoing.PushForwards, RetainedFor;
    RetainedAre(dl, o, r);
    var items := RetainedItems(dl, r, Slots(dl, o, r)) + LogItems(Pull(dl, o, r).entries);
    if r.qos == AtMostOnce {
      PushForwardsQoS0(o, items, r.filterIdx);
    } else {
      PushForwardsSends(o, items, r.qos, r.filterIdx);
    }
    var b := o.PushForwards(items, r.qos, r.filterIdx).buffer;
    forall k | 0 <= k < RetainedCount(dl, o, r)
      ensures CarriesRetained(b[|o.buffer| + k], RetainedFor(dl.retained, r.filter)[k], r.qos)
    {
      assert items[k] == (RetainedFor(dl.retained, r.filter)[k], None);
    }
  }
}

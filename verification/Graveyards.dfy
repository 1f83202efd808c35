// Saved sessions, and the record of inbound QoS 2 publishes, in place.
module Graveyards {
  import opened Types
  import opened SchedulerModel
  import R = RouterModel

  class Graveyard {
    // A client whose session was clean leaves an entry without a session.
    var connections: map<ClientId, Option<R.Session>>

    constructor ()
      ensures connections == map[]
    {
      connections := map[];
    }

    method Retrieve(id: ClientId) returns (saved: Option<Option<R.Session>>)
      modifies this
      ensures connections == old(connections) - {id}
      ensures saved == if id in old(connections) then Some(old(connections)[id]) else None
    {
      saved := None;
      if id in connections {
        saved := Some(connections[id]);
      }
      connections := connections - {id};
    }

    method SaveState(tracker: Tracker, subscriptions: set<Filter>, unackedPubrels: seq<nat>)
      modifies this
      ensures connections == old(connections)[tracker.id :=
                Some(R.Session(tracker.(status := Paused(Busy)), subscriptions, unackedPubrels))]
    {
      var t := tracker.(status := Paused(Busy));
      connections := connections[t.id := Some(R.Session(t, subscriptions, unackedPubrels))];
    }

    method SaveMetrics(id: ClientId)
      modifies this
      ensures connections == old(connections)[id := None]
    {
      connections := connections[id := None];
    }
  }

  class AckLog {
    var committed: seq<Ack>
    var recorded: seq<(Publish, R.Props)>
    // Everything recorded, and everything released, since the connection began.
    ghost var received: seq<(Publish, R.Props)>
    ghost var released: seq<(Publish, R.Props)>

    ghost function Model(): R.AckLog
      reads this
    {
      R.AckLog(committed, recorded)
    }

    ghost predicate Valid()
      reads this
    {
      received == released + recorded
    }

    constructor ()
      ensures Valid() && Model() == R.AckLog([], []) && received == []
    {
      committed, recorded, received, released := [], [], [], [];
    }

    method Commit(a: Ack)
      modifies this`committed
      ensures Model() == old(Model()).Commit(a) && committed == old(committed) + [a] && recorded == old(recorded)
      ensures old(Valid()) ==> Valid()
    {
      committed := committed + [a];
    }

    method PubRec(publish: Publish, props: R.Props)
      requires Valid()
      modifies this
      ensures Valid()
      ensures Model() == old(Model()).Record(publish, props)
      ensures committed == old(committed) + [Ack.PubRec(publish.pkid)] && recorded == old(recorded) + [(publish, props)]
      ensures received == old(received) + [(publish, props)] && released == old(released)
    {
      assert (released + recorded) + [(publish, props)] == released + (recorded + [(publish, props)]);
      recorded := recorded + [(publish, props)];
      received := received + [(publish, props)];
      committed := committed + [Ack.PubRec(publish.pkid)];
    }

    // Releases the oldest record, if there is one, whatever packet id the PubRel names.
    method PubComp(pkid: nat) returns (publish: Option<(Publish, R.Props)>)
      requires Valid()
      modifies this
      ensures Valid() && received == old(received)
      ensures (Model(), publish) == old(Model()).Release(pkid)
      ensures committed == old(committed) + [Ack.PubComp(pkid)]
      ensures if old(recorded) == [] then publish == None && recorded == []
              else publish == Some(old(recorded)[0]) && recorded == old(recorded)[1..]
      ensures publish.Some? ==>
                released == old(released) + [publish.value] && received[|old(released)|] == publish.value
    {
      committed := committed + [Ack.PubComp(pkid)];
      if recorded == [] {
        return None;
      }
      publish := Some(recorded[0]);
      assert released + recorded == (released + [recorded[0]]) + recorded[1..];
      released := released + [recorded[0]];
      recorded := recorded[1..];
    }

    method Readv() returns (acks: seq<Ack>)
      modifies this`committed
      ensures acks == old(committed) && committed == []
    {
      acks := committed;
      committed := [];
    }
  }
}

// Entities shared by every part of the broker model.
module Types {
  type ConnectionId = nat
  type FilterIdx = nat
  type ClientId = string
  type Topic = string
  type Filter = string

  datatype Option<+T> = None | Some(value: T)

  // How a call ends: normally, or with a panic, which `:-` passes on to the caller.
  datatype Exit = Normal | Panic {
    predicate IsFailure() {
      Panic?
    }

    function PropagateFailure(): Exit {
      Panic
    }
  }

  datatype QoS = AtMostOnce | AtLeastOnce | ExactlyOnce

  datatype Publish = Publish(topic: Topic, payload: seq<bv8>, qos: QoS, retain: bool, pkid: nat)

  // Bytes a character takes in UTF-8.
  function Utf8Size(c: char): nat {
    if c as int < 0x80 then 1 else if c as int < 0x800 then 2 else if c as int < 0x1_0000 then 3 else 4
  }

  function Utf8Length(s: string): nat {
    if s == "" then 0 else Utf8Length(s[..|s| - 1]) + Utf8Size(s[|s| - 1])
  }

  // Bytes a publish is charged against its segment.
  function Size(p: Publish): nat {
    4 + Utf8Length(p.topic) + |p.payload|
  }

  // Position in a commit log: index of a segment and absolute offset of an entry.
  datatype Cursor = Cursor(segment: nat, offset: nat)

  // Lexicographic order, the one derived on (u64, u64).
  predicate Before(a: Cursor, b: Cursor) {
    a.segment < b.segment || (a.segment == b.segment && a.offset < b.offset)
  }

  // Standing request of one connection to read one filter's log.
  datatype DataRequest = DataRequest(
    filter: Filter,
    filterIdx: FilterIdx,
    qos: QoS,
    cursor: Cursor,
    readCount: nat,
    forwardRetained: bool)

  datatype Ack =
    | ConnAck(id: ConnectionId, sessionPresent: bool)
    | PubAck(pkid: nat)
    | SubAck(pkid: nat, codes: seq<QoS>)
    | PubRec(pkid: nat)
    | PubRel(pkid: nat)
    | PubComp(pkid: nat)
    | UnsubAck(pkid: nat)
    | PingResp

  datatype Notification =
    | Forward(cursor: Option<Cursor>, publish: Publish)
    | DeviceAck(ack: Ack)
    | Unschedule

  // A parked or woken request together with its connection.
  type Waiter = (ConnectionId, DataRequest)

  const MAX_CHANNEL_CAPACITY: nat := 200
  const MAX_SCHEDULE_ITERATIONS: nat := 100
  const MAX_INFLIGHT: nat := 100

  predicate Within(lo: nat, o: nat, hi: nat) {
    lo <= o < hi
  }

  // Offsets from lo up to, not including, hi.
  function Range(lo: nat, hi: nat): set<nat> {
    set o: nat | lo <= o < hi && Within(lo, o, hi)
  }

  // Number of elements that satisfy a property.
  ghost function Count<T>(s: seq<T>, p: T -> bool): nat {
    if s == [] then 0 else Count(s[..|s| - 1], p) + (if p(s[|s| - 1]) then 1 else 0)
  }

  lemma {:induction false} CountConcat<T>(a: seq<T>, b: seq<T>, p: T -> bool)
    ensures Count(a + b, p) == Count(a, p) + Count(b, p)
  {
    if b == [] {
      assert a + b == a;
    } else {
      assert (a + b)[..|a + b| - 1] == a + b[..|b| - 1];
      CountConcat(a, b[..|b| - 1], p);
    }
  }

  lemma {:induction false} CountUpdate<T>(s: seq<T>, i: nat, x: T, p: T -> bool)
    requires i < |s|
    ensures Count(s[i := x], p) + (if p(s[i]) then 1 else 0) == Count(s, p) + (if p(x) then 1 else 0)
  {
    if i == |s| - 1 {
      assert s[i := x][..|s| - 1] == s[..|s| - 1];
    } else {
      assert s[i := x][..|s| - 1] == s[..|s| - 1][i := x];
      CountUpdate(s[..|s| - 1], i, x, p);
    }
  }

  lemma {:induction false} CountZero<T>(s: seq<T>, p: T -> bool)
    ensures Count(s, p) == 0 <==> forall x :: x in s ==> !p(x)
  {
    if s != [] {
      var r := s[..|s| - 1];
      assert s == r + [s[|s| - 1]];
      CountZero(r, p);
    }
  }
}

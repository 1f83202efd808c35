// Topic aliases the broker assigns towards a client: numbers from a slab, one per filter.
module Aliases {
  import opened Types
  import opened Slabs

  datatype State = State(given: map<Filter, nat>, used: Slab<()>, max: nat) {
    function Get(topic: Filter): Option<nat> {
      if topic in given then Some(given[topic]) else None
    }

    // Takes the next free number; puts it back when it is over the limit.
    function SetNew(topic: Filter): (State, Option<nat>) {
      var alias, u := used.NextKey(), used.Insert(());
      if alias > max then (this.(used := u.Remove(alias)), None)
      else (this.(given := given[topic := alias], used := u), Some(alias))
    }

    function Remove(topic: Filter): State {
      if topic in given then this.(given := given - {topic}, used := used.Remove(given[topic])) else this
    }

    // What forwarding does: the alias of the filter, or a new one if there is none yet.
    function Use(topic: Filter): (State, Option<nat>) {
      if Get(topic).Some? then (this, Get(topic)) else SetNew(topic)
    }

    ghost predicate Injective() {
      forall f, g :: f in given && g in given && given[f] == given[g] ==> f == g
    }

    // Aliases are distinct and within 1..=max; the numbers in use are 0 and the assigned ones; the
    // one number beyond the limit, once it has been tried, stays at the bottom of the free list.
    ghost predicate Ok() {
      && used.WellFormed()
      && Injective()
      && (forall f :: f in given ==> 1 <= given[f] <= max)
      && (forall k :: k in used.m <==> k == 0 || k in given.Values)
      && used.cap <= max + 2
      && (used.cap == max + 2 ==> used.free != [] && used.free[|used.free| - 1] == max + 1)
    }
  }

  function Start(max: nat): State {
    State(map[], New<()>().Insert(()), max)
  }

  lemma StartOk(max: nat)
    ensures Start(max).Ok()
  {
  }

  // The number the slab offers is over the limit only when every number up to it is in use.
  lemma OfferedKey(s: State)
    requires s.Ok()
    ensures var k := s.used.NextKey();
            && k !in s.used.m && 1 <= k <= s.max + 1
            && (k == s.max + 1 <==> forall j: nat :: 1 <= j <= s.max ==> j in s.used.m)
  {
    InsertKeeps(s.used, ());
    var k := s.used.NextKey();
    if k == s.max + 1 {
      assert |s.used.free| <= 1;
      forall j: nat | 1 <= j <= s.max
        ensures j in s.used.m
      {
        assert j in s.used.m || j in s.used.free;
      }
    }
  }

  lemma SetNewKeeps(s: State, topic: Filter)
    requires s.Ok() && topic !in s.given
    ensures s.SetNew(topic).0.Ok()
  {
    hide Slab.WellFormed;
    OfferedKey(s);
    InsertKeeps(s.used, ());
    var k, u, t := s.used.NextKey(), s.used.Insert(()), s.SetNew(topic).0;
    if k > s.max {
      RemoveKeeps(u, k);
      assert t.used.m == s.used.m;
      BottomBack(s);
    } else {
      forall j
        ensures j in t.used.m <==> j == 0 || j in t.given.Values
      {
        ValuesAdd(s.given, topic, k, j);
      }
    }
  }

  lemma BottomBack(s: State)
    requires s.Ok() && s.used.NextKey() == s.max + 1
    ensures var t := s.used.Insert(()).Remove(s.max + 1);
            t.cap <= s.max + 2 && t.free != [] && t.free[|t.free| - 1] == s.max + 1
  {
    assert |s.used.free| <= 1;
  }

  lemma ValuesAdd(m: map<Filter, nat>, topic: Filter, k: nat, j: nat)
    requires topic !in m
    ensures j in m[topic := k].Values <==> j in m.Values || j == k
  {
    var n := m[topic := k];
    if j in m.Values {
      var f :| f in m && m[f] == j;
      assert f in n && n[f] == j;
    }
    if j == k {
      assert topic in n && n[topic] == j;
    }
  }

  lemma RemoveAliasKeeps(s: State, topic: Filter)
    requires s.Ok()
    ensures s.Remove(topic).Ok()
  {
    if topic in s.given {
      var a, t := s.given[topic], s.Remove(topic);
      assert a in s.given.Values;
      RemoveKeeps(s.used, a);
      forall j
        ensures j in t.used.m <==> j == 0 || j in t.given.Values
      {
        ValuesDrop(s, topic, j);
      }
    }
  }

  lemma ValuesDrop(s: State, topic: Filter, j: nat)
    requires s.Injective() && topic in s.given
    ensures j in (s.given - {topic}).Values <==> j in s.given.Values && j != s.given[topic]
  {
    var n := s.given - {topic};
    if j in s.given.Values && j != s.given[topic] {
      var f :| f in s.given && s.given[f] == j;
      assert f in n && n[f] == j;
    }
    if j in n.Values {
      var f :| f in n && n[f] == j;
      assert f in s.given && s.given[f] == j;
    }
  }

  // ---------------------------------------------------------------------------------------------
  // Exhaustion

  function UpTo(n: nat): set<nat> {
    if n == 0 then {} else UpTo(n - 1) + {n}
  }

  lemma {:induction false} UpToIs(n: nat)
    ensures forall j :: j in UpTo(n) <==> 1 <= j <= n
    ensures |UpTo(n)| == n
  {
    if n > 0 {
      UpToIs(n - 1);
    }
  }

  lemma {:induction false} InjectiveCount(m: map<Filter, nat>)
    requires forall f, g :: f in m && g in m && m[f] == m[g] ==> f == g
    ensures |m.Values| == |m|
    decreases |m|
  {
    if m == map[] {
      assert m.Values == {};
    } else {
      var f :| f in m;
      var n := m - {f};
      forall j
        ensures j in n.Values <==> j in m.Values && j != m[f]
      {
        ValuesDrop(State(m, New(), 0), f, j);
      }
      assert m[f] in m.Values;
      assert n.Values == m.Values - {m[f]};
      assert n.Keys == m.Keys - {f};
      InjectiveCount(n);
    }
  }

  lemma ManyMeansAll(s: State)
    requires s.Ok()
    ensures |s.given| <= s.max
    ensures |s.given| == s.max <==> forall j: nat :: 1 <= j <= s.max ==> j in s.used.m
  {
    var all, v := UpTo(s.max), s.given.Values;
    UpToIs(s.max);
    InjectiveCount(s.given);
    assert v <= all;
    SubsetCount(v, all);
    if forall j: nat :: 1 <= j <= s.max ==> j in s.used.m {
      forall j | j in all
        ensures j in v
      {
        assert j in s.used.m;
      }
      assert v == all;
    } else {
      var j: nat :| 1 <= j <= s.max && j !in s.used.m;
      assert j in all && j !in v;
    }
  }

  lemma {:induction false} SubsetCount(a: set<nat>, b: set<nat>)
    requires a <= b
    ensures |a| <= |b| && (|a| == |b| ==> a == b)
  {
    assert b == a + (b - a);
    assert a !! (b - a);
    if |a| == |b| {
      assert b - a == {};
    }
  }

  // No alias is given out exactly when all of them are taken, whatever was tried or removed before.
  lemma NoneIffExhausted(s: State, topic: Filter)
    requires s.Ok()
    ensures s.SetNew(topic).1 == None <==> |s.given| == s.max
    ensures s.SetNew(topic).1.Some? ==>
              var a := s.SetNew(topic).1.value;
              1 <= a <= s.max && a !in s.given.Values && s.SetNew(topic).0.Get(topic) == Some(a)
    ensures forall other :: other != topic ==> s.SetNew(topic).0.Get(other) == s.Get(other)
    ensures s.SetNew(topic).1.None? ==> s.SetNew(topic).0.given == s.given
  {
    OfferedKey(s);
    ManyMeansAll(s);
  }

  // ---------------------------------------------------------------------------------------------
  // Any sequence of uses and removals

  datatype Op = Forwarded(topic: Filter) | Unsubscribed(topic: Filter)

  function Run(s: State, ops: seq<Op>): State
    decreases |ops|
  {
    if ops == [] then s
    else
      match ops[|ops| - 1]
      case Forwarded(topic) => Run(s, ops[..|ops| - 1]).Use(topic).0
      case Unsubscribed(topic) => Run(s, ops[..|ops| - 1]).Remove(topic)
  }

  lemma {:induction false} RunKeepsAliases(max: nat, ops: seq<Op>)
    ensures Run(Start(max), ops).Ok() && Run(Start(max), ops).max == max
    decreases |ops|
  {
    hide State.Ok, State.SetNew, State.Remove;
    if ops == [] {
      StartOk(max);
    } else {
      var s, op := Run(Start(max), ops[..|ops| - 1]), ops[|ops| - 1];
      RunKeepsAliases(max, ops[..|ops| - 1]);
      LimitStays(s, op.topic);
      match op {
        case Forwarded(topic) =>
          if s.Get(topic).None? {
            SetNewKeeps(s, topic);
          }
        case Unsubscribed(topic) => RemoveAliasKeeps(s, topic);
      }
    }
  }

  // A topic that goes loses its alias, which is the next to be given out, and no other topic does.
  lemma RemoveForgets(s: State, topic: Filter)
    requires s.Ok()
    ensures s.Remove(topic).Get(topic) == None
    ensures forall other :: other != topic ==> s.Remove(topic).Get(other) == s.Get(other)
    ensures forall next :: s.Get(topic).Some? ==> s.Remove(topic).SetNew(next).1 == s.Get(topic)
  {
  }

  lemma LimitStays(s: State, topic: Filter)
    ensures s.SetNew(topic).0.max == s.max && s.Remove(topic).max == s.max
  {
  }

  // ---------------------------------------------------------------------------------------------
  // In place

  class BrokerAliases {
    var brokerTopicAliases: map<Filter, nat>
    var usedAliases: Slab<()>
    const topicAliasMax: nat

    ghost function Model(): State
      reads this
    {
      State(brokerTopicAliases, usedAliases, topicAliasMax)
    }

    constructor (max: nat)
      ensures Model() == Start(max) && Model().Ok()
    {
      brokerTopicAliases := map[];
      usedAliases := New<()>().Insert(());
      topicAliasMax := max;
      new;
      StartOk(max);
    }

    method RemoveAlias(topic: Filter)
      modifies this
      ensures Model() == old(Model()).Remove(topic) && brokerTopicAliases == old(brokerTopicAliases) - {topic}
      ensures old(Model()).Ok() ==> Model().Ok()
    {
      ghost var s := Model();
      if topic in brokerTopicAliases {
        var alias := brokerTopicAliases[topic];
        brokerTopicAliases := brokerTopicAliases - {topic};
        usedAliases := usedAliases.Remove(alias);
      }
      if s.Ok() {
        RemoveAliasKeeps(s, topic);
      }
    }

    method GetAlias(topic: Filter) returns (alias: Option<nat>)
      ensures alias == Model().Get(topic)
      ensures alias.Some? <==> topic in brokerTopicAliases
    {
      if topic in brokerTopicAliases {
        return Some(brokerTopicAliases[topic]);
      }
      return None;
    }

    method SetNewAlias(topic: Filter) returns (alias: Option<nat>)
      modifies this
      ensures (Model(), alias) == old(Model()).SetNew(topic)
      ensures brokerTopicAliases ==
              if alias.None? then old(brokerTopicAliases) else old(brokerTopicAliases)[topic := alias.value]
      ensures old(Model()).Ok() ==> (alias == None <==> |old(brokerTopicAliases)| == topicAliasMax)
      ensures old(Model()).Ok() && topic !in old(brokerTopicAliases) ==> Model().Ok()
    {
      ghost var s := Model();
      if s.Ok() {
        NoneIffExhausted(s, topic);
        if topic !in brokerTopicAliases {
          SetNewKeeps(s, topic);
        }
      }
      var aliasToUse := usedAliases.NextKey();
      usedAliases := usedAliases.Insert(());
      if aliasToUse > topicAliasMax {
        usedAliases := usedAliases.Remove(aliasToUse);
        return None;
      }
      brokerTopicAliases := brokerTopicAliases[topic := aliasToUse];
      return Some(aliasToUse);
    }
  }
}

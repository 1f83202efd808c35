// MQTT topic filters: splitting into levels and matching with the + and # wildcards.
module TopicMatch {
  import opened Types

  // Levels of a topic or filter; never empty.
  function Split(s: string): (r: seq<string>)
    ensures r != []
  {
    if s == "" then [""]
    else
      var rest := Split(s[1..]);
      if s[0] == '/' then [""] + rest else [[s[0]] + rest[0]] + rest[1..]
  }

  // One topic level against one filter level that is not the final #.
  predicate LevelMatches(t: string, f: string) {
    f != "#" && t != "#" && (f == "+" || f == t)
  }

  predicate LevelsMatch(ts: seq<string>, fs: seq<string>) {
    if fs == [] then ts == []
    else if fs[0] == "#" then true
    else ts != [] && LevelMatches(ts[0], fs[0]) && LevelsMatch(ts[1..], fs[1..])
  }

  predicate Matches(topic: Topic, filter: Filter) {
    !(topic != "" && topic[0] == '$') && LevelsMatch(Split(topic), Split(filter))
  }

  // The code asks for the first byte of a topic as a string of its own. That byte is a whole
  // character only if the character is ASCII; otherwise the slice panics.
  predicate Sliceable(topic: Topic) {
    topic == "" || topic[0] as int < 0x80
  }

  // ---------------------------------------------------------------------------------------------
  // What the levels are, and what matching means

  // Levels put together again, a slash between two.
  function Join(levels: seq<string>): string {
    if levels == [] then "" else if |levels| == 1 then levels[0] else levels[0] + "/" + Join(levels[1..])
  }

  ghost predicate NoSlashes(levels: seq<string>) {
    forall i :: 0 <= i < |levels| ==> '/' !in levels[i]
  }

  // The levels of a string have no slash in them and make up the string.
  lemma {:induction false} SplitJoins(s: string)
    ensures NoSlashes(Split(s)) && Join(Split(s)) == s
  {
    if s != "" {
      var rest := Split(s[1..]);
      SplitJoins(s[1..]);
      assert s == [s[0]] + s[1..];
      if s[0] == '/' {
        assert Split(s) == [""] + rest && Split(s)[1..] == rest;
        assert "" + "/" + Join(rest) == s;
      } else {
        assert Split(s)[1..] == rest[1..];
        FirstGrows(rest, s[0]);
      }
    }
  }

  lemma FirstGrows(levels: seq<string>, c: char)
    requires levels != []
    ensures Join([[c] + levels[0]] + levels[1..]) == [c] + Join(levels)
  {
    var more := [[c] + levels[0]] + levels[1..];
    assert more[1..] == levels[1..];
    if |levels| > 1 {
      assert ([c] + levels[0]) + "/" + Join(levels[1..]) == [c] + (levels[0] + "/" + Join(levels[1..]));
    }
  }

  // And they are the only levels that do.
  lemma {:induction false} SplitOnly(levels: seq<string>)
    requires levels != [] && NoSlashes(levels)
    ensures Split(Join(levels)) == levels
    decreases |levels|, |levels[0]|
  {
    var first := levels[0];
    assert '/' !in first;
    if first != "" {
      var fewer := levels[0 := first[1..]];
      assert forall k :: 0 <= k < |first[1..]| ==> first[1..][k] in first;
      SplitOnly(fewer);
      assert fewer[1..] == levels[1..];
      FirstGrows(fewer, first[0]);
      assert [first[0]] + fewer[0] == first;
      assert [[first[0]] + fewer[0]] + fewer[1..] == levels;
      assert first[0] in first;
      assert Join(levels)[1..] == Join(fewer);
    } else if |levels| > 1 {
      SplitOnly(levels[1..]);
      assert Join(levels) == "/" + Join(levels[1..]);
      assert [""] + levels[1..] == levels;
    }
  }

  // The first n levels match one by one, a + standing for any level and a # for none, and then either
  // a # follows or both sides are at their end.
  ghost predicate Agree(ts: seq<string>, fs: seq<string>, n: nat) {
    && n <= |ts| && n <= |fs|
    && (forall i :: 0 <= i < n ==> ts[i] != "#" && fs[i] != "#" && (fs[i] == "+" || fs[i] == ts[i]))
    && if n < |fs| then fs[n] == "#" else n == |ts|
  }

  lemma {:induction false} LevelsMatchMeaning(ts: seq<string>, fs: seq<string>)
    ensures LevelsMatch(ts, fs) <==> exists n: nat :: Agree(ts, fs, n)
  {
    if fs == [] {
      assert Agree(ts, fs, 0) <==> ts == [];
    } else if fs[0] == "#" {
      assert Agree(ts, fs, 0);
    } else {
      assert !Agree(ts, fs, 0);
      if ts != [] {
        LevelsMatchMeaning(ts[1..], fs[1..]);
        if LevelsMatch(ts, fs) {
          var n: nat :| Agree(ts[1..], fs[1..], n);
          assert ts == [ts[0]] + ts[1..] && fs == [fs[0]] + fs[1..];
          assert Agree(ts, fs, n + 1);
        }
        forall n: nat | Agree(ts, fs, n)
          ensures LevelsMatch(ts, fs)
        {
          assert forall i :: 0 <= i < n - 1 ==> ts[1..][i] == ts[i + 1] && fs[1..][i] == fs[i + 1];
          assert Agree(ts[1..], fs[1..], n - 1);
        }
      }
    }
  }

  // A filter matches a topic that does not start with $ and whose levels agree with its own.
  lemma MatchesMeaning(topic: Topic, filter: Filter)
    ensures Matches(topic, filter) <==>
              (topic == "" || topic[0] != '$') && exists n: nat :: Agree(Split(topic), Split(filter), n)
  {
    hide LevelsMatch, Agree;
    LevelsMatchMeaning(Split(topic), Split(filter));
    if Matches(topic, filter) {
      var n: nat :| Agree(Split(topic), Split(filter), n);
    }
    forall n: nat | Agree(Split(topic), Split(filter), n)
      ensures LevelsMatch(Split(topic), Split(filter))
    {
    }
  }

  // ---------------------------------------------------------------------------------------------
  // The code

  // The slice of the first byte.
  method FirstByte(topic: Topic) returns (e: Exit, first: string)
    requires topic != ""
    ensures e == if Utf8Size(topic[0]) == 1 then Normal else Panic
    ensures e.Normal? ==> first == topic[..1]
  {
    if Utf8Size(topic[0]) > 1 {
      return Panic, "";
    }
    return Normal, topic[..1];
  }

  // The loop that walks both iterators.
  method MatchesLoop(topic: Topic, filter: Filter) returns (e: Exit, r: bool)
    ensures e == if Sliceable(topic) then Normal else Panic
    ensures e.Normal? ==> r == Matches(topic, filter)
  {
    e, r := Normal, false;
    if topic != "" {
      var first :- FirstByte(topic);
      if '$' in first {
        return;
      }
    }
    var topics := Split(topic);
    var filters := Split(filter);
    var i := 0;
    while i < |filters|
      invariant 0 <= i <= |filters| && i <= |topics|
      invariant LevelsMatch(topics[i..], filters[i..]) == LevelsMatch(topics, filters)
    {
      var f := filters[i];
      assert filters[i..][0] == f && filters[i..][1..] == filters[i + 1..];
      if f == "#" {
        return e, true;
      }
      if i >= |topics| {
        return e, false;
      }
      var t := topics[i];
      assert topics[i..][0] == t && topics[i..][1..] == topics[i + 1..];
      if t == "#" {
        return e, false;
      }
      if f != "+" && f != t {
        return e, false;
      }
      i := i + 1;
    }
    assert filters[i..] == [];
    r := i == |topics|;
  }
}

// The per-filter logs, in place: topic lookup with its cache, registration, parking, cleaning, and
// appending a publish to every log it belongs to.
module DataLogs {
  import opened Types
  import opened LogModel
  import opened TopicMatch
  import opened DataLogModel

  // Index of the first waiter of a connection.
  method PositionOf(w: seq<Waiter>, id: ConnectionId) returns (i: nat)
    ensures i == Position(w, id)
    ensures i < |w| ==> w[i].0 == id
    ensures forall j :: 0 <= j < i ==> w[j].0 != id
  {
    i := 0;
    while i < |w|
      invariant i <= |w|
      invariant Position(w, id) == i + Position(w[i..], id)
      invariant forall j :: 0 <= j < i ==> w[j].0 != id
    {
      if w[i].0 == id {
        return;
      }
      assert w[i..][1..] == w[i + 1..];
      i := i + 1;
    }
  }

  // Takes all requests of a connection out of a wait queue, one swap with the back at a time.
  method RemoveRequests(w: seq<Waiter>, id: ConnectionId) returns (current: seq<Waiter>, requests: seq<DataRequest>)
    ensures (current, requests) == RemoveAll(w, id)
  {
    current, requests := w, [];
    assert [] + RemoveAll(w, id).1 == RemoveAll(w, id).1;
    var index := PositionOf(current, id);
    while index < |current|
      invariant index == Position(current, id)
      invariant RemoveAll(w, id) == (RemoveAll(current, id).0, requests + RemoveAll(current, id).1)
      decreases |current|
    {
      var request := current[index].1;
      assert requests + ([request] + RemoveAll(SwapRemove(current, index), id).1)
          == (requests + [request]) + RemoveAll(SwapRemove(current, index), id).1;
      current := current[index := current[|current| - 1]][..|current| - 1];
      requests := requests + [request];
      index := PositionOf(current, id);
    }
    assert requests + [] == requests;
  }

  class DataLog {
    const config: Config
    var native: seq<Data>
    var filterIndexes: map<Filter, FilterIdx>
    var retainedPublishes: seq<Publish>
    var publishFilters: map<Topic, seq<FilterIdx>>
    // Every publish handed to the logs so far; only the specification looks at it.
    var accepted: seq<Publish>

    ghost function Model(): DataLogModel.DataLog
      reads this
    {
      DataLogModel.DataLog(config, native, filterIndexes, retainedPublishes, publishFilters, accepted)
    }

    constructor (config: Config)
      requires ConfigOk(config)
      ensures Model() == EmptyDataLog(config) && DataLogOk(Model())
    {
      this.config := config;
      native, filterIndexes, retainedPublishes, publishFilters, accepted := [], map[], [], map[], [];
      new;
      EmptyDataLogOk(config);
    }

    // Logs whose filter matches a topic: from the cache, or by scanning all filters, remembering the
    // answer unless it is empty.
    method Matches(topic: Topic) returns (e: Exit, v: seq<FilterIdx>)
      modifies this`publishFilters
      ensures e.Normal? <==> LookupSliced(old(Model()), topic)
      ensures e.Normal? ==> v == MatchingFilters(old(Model()), topic)
      ensures e.Normal? ==> Model() == Lookup(old(Model()), topic)
      ensures e.Normal? && old(CacheOk(Model())) ==> CacheOk(Model()) && FullScan(native, topic, v)
    {
      e := Normal;
      ghost var dl := Model();
      if CacheOk(dl) {
        LookupIsFullScan(dl, topic);
      }
      if topic in publishFilters {
        return e, publishFilters[topic];
      }
      v := [];
      var i := 0;
      while i < |native|
        invariant i <= |native| && v == Scan(native, topic, i)
        invariant Model() == dl && (i > 0 ==> Sliceable(topic))
      {
        var matching :- MatchesLoop(topic, native[i].filter);
        if matching {
          v := v + [i];
        }
        i := i + 1;
      }
      if v != [] {
        publishFilters := publishFilters[topic := v];
      }
    }

    // The log of a filter and its end, creating the log on first use; the new log is added to every
    // cached topic it matches.
    method NextNativeOffset(filter: Filter) returns (e: Exit, idx: FilterIdx, cursor: Cursor)
      requires RegistryOk(Model())
      modifies this
      ensures e.Normal? <==> RegisterSliced(old(Model()), filter)
      ensures e.Normal? ==> Model() == Register(old(Model()), filter)
      ensures e.Normal? ==> idx == IndexOf(Model(), filter) && idx < |native| && cursor == native[idx].log.NextOffset()
      ensures e.Normal? && old(DataLogOk(Model())) ==> DataLogOk(Model())
    {
      e, idx, cursor := Normal, 0, Cursor(0, 0);
      ghost var dl := Model();
      if DataLogOk(dl) {
        RegisterKeeps(dl, filter);
      }
      if filter in filterIndexes {
        idx := filterIndexes[filter];
      } else {
        var data :- NewLog(filter);
        idx := |native|;
        native := native + [data];
        filterIndexes := filterIndexes[filter := idx];
        :- ExtendCache(filter, idx);
      }
      cursor := native[idx].log.NextOffset();
    }

    // An empty log, with the limits of the last override that matches its filter.
    method NewLog(filter: Filter) returns (e: Exit, data: Data)
      ensures e.Normal? <==> config.customSegments == [] || Sliceable(filter)
      ensures e.Normal? ==> data == NewData(config, filter, |accepted|)
    {
      e := Normal;
      data := Data(filter, Empty(config.maxSegmentSize, config.maxSegmentCount), [], |accepted|);
      var i := 0;
      while i < |config.customSegments|
        invariant i <= |config.customSegments| && (i > 0 ==> Sliceable(filter))
        invariant data == Data(filter, Empty(Limits(config, filter, i).0, Limits(config, filter, i).1), [], |accepted|)
      {
        var custom := config.customSegments[i];
        var matching :- MatchesLoop(filter, custom.filter);
        if matching {
          data := data.(log := Empty(custom.maxSegmentSize, custom.maxSegmentCount));
        }
        i := i + 1;
      }
    }

    method ExtendCache(filter: Filter, idx: FilterIdx) returns (e: Exit)
      modifies this`publishFilters
      ensures e.Normal? <==> CacheSliced(old(publishFilters))
      ensures e.Normal? ==> publishFilters == Extend(old(publishFilters), filter, idx)
    {
      e := Normal;
      var cache := publishFilters;
      var topics := cache.Keys;
      while topics != {}
        invariant topics <= cache.Keys == publishFilters.Keys
        invariant forall t :: t in topics ==> publishFilters[t] == cache[t]
        invariant forall t :: t in cache.Keys - topics ==> Sliceable(t)
        invariant forall t :: t in cache.Keys - topics ==> publishFilters[t] == Extend(cache, filter, idx)[t]
        decreases |topics|
      {
        var topic :| topic in topics;
        var matching :- MatchesLoop(topic, filter);
        if matching {
          publishFilters := publishFilters[topic := publishFilters[topic] + [idx]];
        }
        topics := topics - {topic};
      }
    }

    method NativeReadv(filterIdx: FilterIdx, offset: Cursor, len: nat) returns (r: ReadResult)
      requires filterIdx < |native| && native[filterIdx].log.WellFormed()
      ensures r == ReadFor(Model(), filterIdx, offset, len)
    {
      r := native[filterIdx].log.Read(offset, len);
    }

    method Park(id: ConnectionId, request: DataRequest)
      requires request.filterIdx < |native|
      modifies this`native
      ensures Model() == DataLogModel.Park(old(Model()), id, request)
    {
      var i := request.filterIdx;
      native := native[i := native[i].(waiters := native[i].waiters + [(id, request)])];
    }

    // Everything a connection has parked, log by log.
    method Clean(id: ConnectionId) returns (inflight: seq<DataRequest>)
      modifies this`native
      ensures (Model(), inflight) == DataLogModel.Clean(old(Model()), id)
    {
      ghost var before := native;
      inflight := [];
      var i := 0;
      while i < |native|
        invariant i <= |native| == |before|
        invariant (native, inflight) == CleanFirst(before, id, i)
        invariant forall j :: i <= j < |native| ==> native[j] == before[j]
      {
        var current, requests := RemoveRequests(native[i].waiters, id);
        native := native[i := native[i].(waiters := current)];
        inflight := inflight + requests;
        i := i + 1;
      }
    }

    // Forgets one parked request of a connection on a filter.
    method RemoveWaitersForId(id: ConnectionId, filter: Filter)
      requires RegistryOk(Model())
      modifies this`native
      ensures Model() == RemoveWaiter(old(Model()), id, filter)
    {
      if filter in filterIndexes {
        var i := filterIndexes[filter];
        var w := native[i].waiters;
        var index := PositionOf(w, id);
        if index < |w| {
          w := w[index := w[|w| - 1]][..|w| - 1];
        }
        native := native[i := native[i].(waiters := w)];
      }
    }

    method RemoveFromRetainedPublishes(topic: Topic)
      modifies this`retainedPublishes
      ensures retainedPublishes == Forget(old(retainedPublishes), topic)
    {
      var kept: seq<Publish> := [];
      var i := 0;
      while i < |retainedPublishes|
        invariant i <= |retainedPublishes| && kept == Forget(retainedPublishes[..i], topic)
        invariant retainedPublishes == old(retainedPublishes)
      {
        assert retainedPublishes[..i + 1][..i] == retainedPublishes[..i];
        if retainedPublishes[i].topic != topic {
          kept := kept + [retainedPublishes[i]];
        }
        i := i + 1;
      }
      assert retainedPublishes[..i] == retainedPublishes;
      retainedPublishes := kept;
    }

    method InsertToRetainedPublishes(publish: Publish)
      modifies this`retainedPublishes
      ensures retainedPublishes == Remember(old(retainedPublishes), publish)
    {
      RemoveFromRetainedPublishes(publish.topic);
      retainedPublishes := retainedPublishes + [publish];
    }

    method ReadRetainedMessages(filter: Filter) returns (e: Exit, ps: seq<Publish>)
      ensures e.Normal? <==> RetainedSliced(retainedPublishes)
      ensures e.Normal? ==> ps == RetainedFor(retainedPublishes, filter)
    {
      e, ps := Normal, [];
      var i := 0;
      while i < |retainedPublishes|
        invariant i <= |retainedPublishes| && ps == RetainedFor(retainedPublishes[..i], filter)
        invariant RetainedSliced(retainedPublishes[..i])
      {
        assert retainedPublishes[..i + 1][..i] == retainedPublishes[..i];
        assert retainedPublishes[i] in retainedPublishes;
        var matching :- MatchesLoop(retainedPublishes[i].topic, filter);
        if matching {
          ps := ps + [retainedPublishes[i]];
        }
        i := i + 1;
      }
      assert retainedPublishes[..i] == retainedPublishes;
    }

    // One log takes a publish and gives up everything parked on it.
    method Append(idx: FilterIdx, item: Publish) returns (woken: seq<Waiter>)
      requires idx < |native|
      modifies this`native
      ensures (native, woken) == AppendOne(old(native), idx, item)
    {
      woken := native[idx].waiters;
      native := native[idx := native[idx].(log := native[idx].log.Append(item), waiters := [])];
    }

    // A publish enters the retained store and the log of every matching filter.
    method Accept(publish: Publish) returns (e: Exit, notifications: seq<Waiter>)
      requires DataLogOk(Model())
      modifies this
      ensures e.Normal? <==> LookupSliced(old(Model()), publish.topic)
      ensures e.Normal? ==> (Model(), notifications) == DataLogModel.Accept(old(Model()), publish) && DataLogOk(Model())
    {
      e, notifications := Normal, [];
      hide AppendAll, Remember, Forget, Scan, LogsOk, FanOut, RegistryOk;
      ghost var dl := Model();
      AcceptKeeps(dl, publish);
      if publish.payload == [] {
        RemoveFromRetainedPublishes(publish.topic);
      } else if publish.retain {
        InsertToRetainedPublishes(publish);
      }
      var p := publish.(retain := false);
      ghost var m := Model();
      CacheFrame(dl, m);
      var filterIdxs :- Matches(p.topic);
      notifications := AppendEach(filterIdxs, p);
      accepted := accepted + [p];
    }

    method AppendEach(filterIdxs: seq<FilterIdx>, p: Publish) returns (notifications: seq<Waiter>)
      requires forall i :: i in filterIdxs ==> i < |native|
      modifies this`native
      ensures (native, notifications) == AppendAll(old(native), filterIdxs, p)
    {
      notifications := [];
      var i := 0;
      while i < |filterIdxs|
        invariant i <= |filterIdxs| && |native| == |old(native)|
        invariant (native, notifications) == AppendAll(old(native), filterIdxs[..i], p)
      {
        assert filterIdxs[..i + 1][..i] == filterIdxs[..i];
        assert filterIdxs[i] in filterIdxs;
        var woken := Append(filterIdxs[i], p);
        notifications := notifications + woken;
        i := i + 1;
      }
      assert filterIdxs[..i] == filterIdxs;
    }
  }

  lemma CacheFrame(a: DataLogModel.DataLog, b: DataLogModel.DataLog)
    requires CacheOk(a) && b == a.(retained := b.retained)
    ensures CacheOk(b)
    ensures forall t :: Lookup(b, t) == Lookup(a, t).(retained := b.retained)
    ensures forall t :: MatchingFilters(b, t) == MatchingFilters(a, t)
  {
  }
}

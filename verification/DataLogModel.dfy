// The per-filter logs of the broker, their parked readers, and the topic cache, as values.
module DataLogModel {
  import opened Types
  import opened LogModel
  import opened TopicMatch

  datatype SegmentConfig = SegmentConfig(filter: Filter, maxSegmentSize: nat, maxSegmentCount: nat)

  datatype Config = Config(
    maxConnections: nat,
    maxOutgoingPacketCount: nat,
    maxSegmentSize: nat,
    maxSegmentCount: nat,
    customSegments: seq<SegmentConfig>)

  // Limits of a new log: the last override that matches the filter, else the defaults.
  function Limits(c: Config, filter: Filter, n: nat): (nat, nat)
    requires n <= |c.customSegments|
  {
    if n == 0 then (c.maxSegmentSize, c.maxSegmentCount)
    else if Matches(filter, c.customSegments[n - 1].filter) then
      (c.customSegments[n - 1].maxSegmentSize, c.customSegments[n - 1].maxSegmentCount)
    else Limits(c, filter, n - 1)
  }

  // Limits a log can be created with.
  predicate ConfigOk(c: Config) {
    && c.maxSegmentSize >= 1024 && c.maxSegmentCount >= 1
    && forall s :: s in c.customSegments ==> s.maxSegmentSize >= 1024 && s.maxSegmentCount >= 1
  }

  lemma {:induction false} LimitsOk(c: Config, filter: Filter, n: nat)
    requires ConfigOk(c) && n <= |c.customSegments|
    ensures Limits(c, filter, n).0 >= 1024 && Limits(c, filter, n).1 >= 1
  {
    if n > 0 {
      assert c.customSegments[n - 1] in c.customSegments;
      LimitsOk(c, filter, n - 1);
    }
  }

  // No override from i on matches the filter.
  ghost predicate NoneFrom(c: Config, filter: Filter, i: nat) {
    forall j :: i <= j < |c.customSegments| ==> !Matches(filter, c.customSegments[j].filter)
  }

  // A new log gets the limits of the last override that matches its filter, or the defaults if none does.
  lemma NewLogLimits(c: Config, filter: Filter, born: nat)
    ensures var l := NewData(c, filter, born).log;
            && (NoneFrom(c, filter, 0) ==> l.maxSize == c.maxSegmentSize && l.maxSegments == c.maxSegmentCount)
            && forall i :: 0 <= i < |c.customSegments| && NoneFrom(c, filter, i + 1) ==>
                 var s := c.customSegments[i];
                 Matches(filter, s.filter) ==> l.maxSize == s.maxSegmentSize && l.maxSegments == s.maxSegmentCount
  {
    hide Limits, NoneFrom;
    LimitsDefault(c, filter, |c.customSegments|);
    forall i | 0 <= i < |c.customSegments| && NoneFrom(c, filter, i + 1) && Matches(filter, c.customSegments[i].filter)
      ensures Limits(c, filter, |c.customSegments|)
              == (c.customSegments[i].maxSegmentSize, c.customSegments[i].maxSegmentCount)
    {
      LimitsOfLast(c, filter, |c.customSegments|, i);
    }
  }

  lemma {:induction false} LimitsDefault(c: Config, filter: Filter, n: nat)
    requires n <= |c.customSegments|
    ensures NoneFrom(c, filter, 0) ==> Limits(c, filter, n) == (c.maxSegmentSize, c.maxSegmentCount)
  {
    hide Matches;
    if n > 0 {
      LimitsDefault(c, filter, n - 1);
    }
  }

  lemma {:induction false} LimitsOfLast(c: Config, filter: Filter, n: nat, i: nat)
    requires i < n <= |c.customSegments| && Matches(filter, c.customSegments[i].filter) && NoneFrom(c, filter, i + 1)
    ensures Limits(c, filter, n) == (c.customSegments[i].maxSegmentSize, c.customSegments[i].maxSegmentCount)
  {
    hide Matches;
    if i < n - 1 {
      LimitsOfLast(c, filter, n - 1, i);
    }
  }

  // born: how many publishes had been accepted when the filter was registered.
  datatype Data = Data(filter: Filter, log: Log, waiters: seq<Waiter>, born: nat)

  // accepted: every publish handed to the logs so far, in order.
  datatype DataLog = DataLog(
    config: Config,
    native: seq<Data>,
    filterIndexes: map<Filter, FilterIdx>,
    retained: seq<Publish>,
    publishFilters: map<Topic, seq<FilterIdx>>,
    accepted: seq<Publish>)

  function EmptyDataLog(c: Config): DataLog {
    DataLog(c, [], map[], [], map[], [])
  }

  // ---------------------------------------------------------------------------------------------
  // Operations

  function NewData(c: Config, filter: Filter, born: nat): Data {
    var l := Limits(c, filter, |c.customSegments|);
    Data(filter, Empty(l.0, l.1), [], born)
  }

  // Indexes below n of the registered filters that match a topic.
  function Scan(native: seq<Data>, topic: Topic, n: nat): seq<FilterIdx>
    requires n <= |native|
  {
    if n == 0 then []
    else if Matches(topic, native[n - 1].filter) then Scan(native, topic, n - 1) + [n - 1]
    else Scan(native, topic, n - 1)
  }

  function MatchingFilters(dl: DataLog, topic: Topic): seq<FilterIdx> {
    if topic in dl.publishFilters then dl.publishFilters[topic] else Scan(dl.native, topic, |dl.native|)
  }

  // What the lookup slices can be sliced: it compares the topic with filters only if the topic is
  // not in the cache, and only if there is a filter.
  predicate LookupSliced(dl: DataLog, topic: Topic) {
    topic in dl.publishFilters || dl.native == [] || Sliceable(topic)
  }

  // The same for a subscription: a new filter is compared with the overrides of the segment limits,
  // and every topic in the cache with the filter.
  predicate RegisterSliced(dl: DataLog, filter: Filter) {
    filter in dl.filterIndexes
      || ((dl.config.customSegments == [] || Sliceable(filter)) && CacheSliced(dl.publishFilters))
  }

  predicate CacheSliced(cache: map<Topic, seq<FilterIdx>>) {
    forall t :: t in cache ==> Sliceable(t)
  }

  // The same for reading the retained store, which compares every topic in it with a filter.
  predicate RetainedSliced(retained: seq<Publish>) {
    forall p :: p in retained ==> Sliceable(p.topic)
  }

  // The lookup with its caching effect: only non-empty answers are remembered.
  function Lookup(dl: DataLog, topic: Topic): DataLog {
    var v := MatchingFilters(dl, topic);
    if topic in dl.publishFilters || v == [] then dl
    else dl.(publishFilters := dl.publishFilters[topic := v])
  }

  function Extend(cache: map<Topic, seq<FilterIdx>>, filter: Filter, idx: FilterIdx): map<Topic, seq<FilterIdx>> {
    map t | t in cache :: if Matches(t, filter) then cache[t] + [idx] else cache[t]
  }

  function Register(dl: DataLog, filter: Filter): DataLog {
    if filter in dl.filterIndexes then dl
    else
      var idx := |dl.native|;
      dl.(native := dl.native + [NewData(dl.config, filter, |dl.accepted|)],
          filterIndexes := dl.filterIndexes[filter := idx],
          publishFilters := Extend(dl.publishFilters, filter, idx))
  }

  function IndexOf(dl: DataLog, filter: Filter): FilterIdx {
    if filter in dl.filterIndexes then dl.filterIndexes[filter] else |dl.native|
  }

  // Appends to one log and takes everything parked on it.
  function AppendOne(native: seq<Data>, idx: FilterIdx, p: Publish): (seq<Data>, seq<Waiter>) {
    if idx >= |native| then (native, [])
    else (native[idx := native[idx].(log := native[idx].log.Append(p), waiters := [])], native[idx].waiters)
  }

  function AppendAll(native: seq<Data>, idxs: seq<FilterIdx>, p: Publish): (seq<Data>, seq<Waiter>) {
    if idxs == [] then (native, [])
    else
      var r := AppendAll(native, idxs[..|idxs| - 1], p);
      var s := AppendOne(r.0, idxs[|idxs| - 1], p);
      (s.0, r.1 + s.1)
  }

  function Remember(retained: seq<Publish>, p: Publish): seq<Publish> {
    Forget(retained, p.topic) + [p]
  }

  function Forget(retained: seq<Publish>, topic: Topic): seq<Publish> {
    if retained == [] then []
    else
      var r := Forget(retained[..|retained| - 1], topic);
      if retained[|retained| - 1].topic == topic then r else r + [retained[|retained| - 1]]
  }

  function RetainedFor(retained: seq<Publish>, filter: Filter): seq<Publish> {
    if retained == [] then []
    else
      var r := RetainedFor(retained[..|retained| - 1], filter);
      if Matches(retained[|retained| - 1].topic, filter) then r + [retained[|retained| - 1]] else r
  }

  // Retained store, topic lookup, and one append per matching filter. Returns the woken requests.
  function Accept(dl: DataLog, p: Publish): (DataLog, seq<Waiter>) {
    var retained := if p.payload == [] then Forget(dl.retained, p.topic)
                    else if p.retain then Remember(dl.retained, p) else dl.retained;
    var q := p.(retain := false);
    var found := Lookup(dl, q.topic);
    var r := AppendAll(dl.native, MatchingFilters(dl, q.topic), q);
    (found.(native := r.0, retained := retained, accepted := dl.accepted + [q]), r.1)
  }

  function Park(dl: DataLog, id: ConnectionId, request: DataRequest): DataLog {
    var i := request.filterIdx;
    if i >= |dl.native| then dl
    else dl.(native := dl.native[i := dl.native[i].(waiters := dl.native[i].waiters + [(id, request)])])
  }

  // Position of the first element parked for a connection, or the length.
  function Position(w: seq<Waiter>, id: ConnectionId): (r: nat)
    ensures r <= |w|
  {
    if w == [] || w[0].0 == id then 0 else 1 + Position(w[1..], id)
  }

  // Removes an element by moving the last one into its place.
  function SwapRemove<T>(w: seq<T>, i: nat): seq<T>
    requires i < |w|
  {
    w[i := w[|w| - 1]][..|w| - 1]
  }

  // Everything parked for a connection, removed one swap at a time.
  function RemoveAll(w: seq<Waiter>, id: ConnectionId): (seq<Waiter>, seq<DataRequest>)
    decreases |w|
  {
    var i := Position(w, id);
    if i == |w| then (w, [])
    else
      var r := RemoveAll(SwapRemove(w, i), id);
      (r.0, [w[i].1] + r.1)
  }

  function RemoveOne(w: seq<Waiter>, id: ConnectionId): seq<Waiter> {
    var i := Position(w, id);
    if i == |w| then w else SwapRemove(w, i)
  }

  function CleanFirst(native: seq<Data>, id: ConnectionId, n: nat): (seq<Data>, seq<DataRequest>)
    requires n <= |native|
  {
    if n == 0 then (native, [])
    else
      var r := CleanFirst(native, id, n - 1);
      var w := RemoveAll(native[n - 1].waiters, id);
      if n - 1 < |r.0| then (r.0[n - 1 := native[n - 1].(waiters := w.0)], r.1 + w.1) else r
  }

  function Clean(dl: DataLog, id: ConnectionId): (DataLog, seq<DataRequest>) {
    var r := CleanFirst(dl.native, id, |dl.native|);
    (dl.(native := r.0), r.1)
  }

  function RemoveWaiter(dl: DataLog, id: ConnectionId, filter: Filter): DataLog {
    if filter !in dl.filterIndexes || dl.filterIndexes[filter] >= |dl.native| then dl
    else
      var i := dl.filterIndexes[filter];
      dl.(native := dl.native[i := dl.native[i].(waiters := RemoveOne(dl.native[i].waiters, id))])
  }

  // A read by a request; the guard always holds for requests the broker creates.
  function ReadFor(dl: DataLog, idx: FilterIdx, c: Cursor, len: nat): ReadResult {
    if idx < |dl.native| && dl.native[idx].log.WellFormed() then dl.native[idx].log.Read(c, len)
    else ReadResult([], c, c, true)
  }

  // ---------------------------------------------------------------------------------------------
  // What every operation keeps

  ghost predicate LogsOk(dl: DataLog) {
    forall i :: 0 <= i < |dl.native| ==> dl.native[i].log.Retained()
  }

  // Filters and log indexes correspond one to one.
  ghost predicate RegistryOk(dl: DataLog) {
    && (forall f :: f in dl.filterIndexes ==>
          dl.filterIndexes[f] < |dl.native| && dl.native[dl.filterIndexes[f]].filter == f)
    && (forall i :: 0 <= i < |dl.native| ==>
          dl.native[i].filter in dl.filterIndexes && dl.filterIndexes[dl.native[i].filter] == i)
  }

  ghost predicate NoDuplicates(v: seq<FilterIdx>) {
    forall i, j :: 0 <= i < j < |v| ==> v[i] != v[j]
  }

  // v lists exactly the registered filters that match the topic, each once.
  ghost predicate FullScan(native: seq<Data>, topic: Topic, v: seq<FilterIdx>) {
    && NoDuplicates(v)
    && (forall i :: i in v <==> 0 <= i < |native| && Matches(topic, native[i].filter))
  }

  ghost predicate CacheOk(dl: DataLog) {
    forall t :: t in dl.publishFilters ==> FullScan(dl.native, t, dl.publishFilters[t])
  }

  // The accepted publishes a filter should have received.
  ghost function Select(ps: seq<Publish>, filter: Filter): seq<Publish> {
    if ps == [] then []
    else
      var r := Select(ps[..|ps| - 1], filter);
      if Matches(ps[|ps| - 1].topic, filter) then r + [ps[|ps| - 1]] else r
  }

  // Fan-out: the full history of every log is what matched since the filter was registered.
  ghost predicate FanOut(dl: DataLog) {
    forall i :: 0 <= i < |dl.native| ==>
      && dl.native[i].born <= |dl.accepted|
      && dl.native[i].log.history == Select(dl.accepted[dl.native[i].born..], dl.native[i].filter)
  }

  ghost predicate DataLogOk(dl: DataLog) {
    ConfigOk(dl.config) && LogsOk(dl) && RegistryOk(dl) && CacheOk(dl) && FanOut(dl)
  }

  lemma EmptyDataLogOk(c: Config)
    requires ConfigOk(c)
    ensures DataLogOk(EmptyDataLog(c))
  {
  }

  lemma {:induction false} ScanIsFull(native: seq<Data>, topic: Topic, n: nat)
    requires n <= |native|
    ensures NoDuplicates(Scan(native, topic, n))
    ensures forall i :: i in Scan(native, topic, n) <==> 0 <= i < n && Matches(topic, native[i].filter)
  {
    if n > 0 {
      ScanIsFull(native, topic, n - 1);
    }
  }

  // The topic cache never differs from scanning every registered filter.
  lemma LookupIsFullScan(dl: DataLog, topic: Topic)
    requires CacheOk(dl)
    ensures FullScan(dl.native, topic, MatchingFilters(dl, topic))
    ensures CacheOk(Lookup(dl, topic))
    ensures MatchingFilters(Lookup(dl, topic), topic) == MatchingFilters(dl, topic)
  {
    ScanIsFull(dl.native, topic, |dl.native|);
  }

  lemma RegisterKeepsCache(dl: DataLog, filter: Filter)
    requires CacheOk(dl)
    ensures CacheOk(Register(dl, filter))
  {
    var dl' := Register(dl, filter);
    if filter !in dl.filterIndexes {
      forall t | t in dl'.publishFilters
        ensures FullScan(dl'.native, t, dl'.publishFilters[t])
      {
        assert FullScan(dl.native, t, dl.publishFilters[t]);
        var v, v' := dl.publishFilters[t], dl'.publishFilters[t];
        assert forall k :: 0 <= k < |v| ==> v[k] in v;
        forall i
          ensures i in v' <==> 0 <= i < |dl'.native| && Matches(t, dl'.native[i].filter)
        {
          if 0 <= i < |dl.native| {
            assert dl'.native[i] == dl.native[i];
          }
        }
      }
    }
  }

  lemma RegisterKeeps(dl: DataLog, filter: Filter)
    requires DataLogOk(dl)
    ensures DataLogOk(Register(dl, filter))
    ensures IndexOf(Register(dl, filter), filter) < |Register(dl, filter).native|
    ensures Register(dl, filter).native[IndexOf(Register(dl, filter), filter)].filter == filter
  {
    hide Limits, Extend, CacheOk, Log.Retained;
    RegisterKeepsCache(dl, filter);
    LimitsOk(dl.config, filter, |dl.config.customSegments|);
    EmptyRetains(Limits(dl.config, filter, |dl.config.customSegments|).0,
                 Limits(dl.config, filter, |dl.config.customSegments|).1);
    assert dl.accepted[|dl.accepted|..] == [];
  }

  // Appending to a set of logs touches exactly those, once each.
  lemma {:induction false} AppendAllEach(native: seq<Data>, idxs: seq<FilterIdx>, p: Publish)
    requires NoDuplicates(idxs) && (forall i :: i in idxs ==> i < |native|)
    ensures var r := AppendAll(native, idxs, p).0;
            && |r| == |native|
            && forall i :: 0 <= i < |native| ==>
                 r[i] == if i in idxs then native[i].(log := native[i].log.Append(p), waiters := []) else native[i]
  {
    if idxs != [] {
      var rest, last := idxs[..|idxs| - 1], idxs[|idxs| - 1];
      assert idxs == rest + [last];
      assert forall i :: i in rest ==> i in idxs;
      AppendAllEach(native, rest, p);
      assert last !in rest;
    }
  }

  lemma SelectSnoc(ps: seq<Publish>, born: nat, p: Publish, filter: Filter)
    requires born <= |ps|
    ensures Select((ps + [p])[born..], filter)
            == if Matches(p.topic, filter) then Select(ps[born..], filter) + [p] else Select(ps[born..], filter)
  {
    var s := (ps + [p])[born..];
    assert s[..|s| - 1] == ps[born..];
  }

  // The state of every log after a publish has been accepted.
  lemma AcceptEach(dl: DataLog, p: Publish)
    requires CacheOk(dl)
    ensures |Accept(dl, p).0.native| == |dl.native|
    ensures forall i :: 0 <= i < |dl.native| ==>
              Accept(dl, p).0.native[i] ==
              if Matches(p.topic, dl.native[i].filter) then
                dl.native[i].(log := dl.native[i].log.Append(p.(retain := false)), waiters := [])
              else dl.native[i]
  {
    LookupIsFullScan(dl, p.topic);
    AppendAllEach(dl.native, MatchingFilters(dl, p.topic), p.(retain := false));
  }

  lemma AcceptKeepsCache(dl: DataLog, p: Publish)
    requires CacheOk(dl)
    ensures CacheOk(Accept(dl, p).0)
  {
    hide AppendAll, Matches;
    LookupIsFullScan(dl, p.topic);
    AcceptEach(dl, p);
    var dl' := Accept(dl, p).0;
    forall t | t in dl'.publishFilters
      ensures FullScan(dl'.native, t, dl'.publishFilters[t])
    {
      assert FullScan(dl.native, t, dl'.publishFilters[t]);
    }
  }

  // Every accepted publish reaches the log of every matching filter exactly once, and no other.
  lemma AcceptKeeps(dl: DataLog, p: Publish)
    requires DataLogOk(dl)
    ensures DataLogOk(Accept(dl, p).0)
  {
    hide AppendAll, Matches, CacheOk, MatchingFilters, Lookup, Log.Append, Log.Retained, Select;
    AcceptEach(dl, p);
    AcceptKeepsCache(dl, p);
    var q, dl' := p.(retain := false), Accept(dl, p).0;
    AcceptFrame(dl, p);
    forall i | 0 <= i < |dl.native|
      ensures dl'.native[i].log.Retained()
      ensures dl'.native[i].log.history == Select(dl'.accepted[dl.native[i].born..], dl.native[i].filter)
    {
      SelectSnoc(dl.accepted, dl.native[i].born, q, dl.native[i].filter);
      AppendRetains(dl.native[i].log, q);
    }
  }

  lemma AcceptFrame(dl: DataLog, p: Publish)
    ensures Accept(dl, p).0.filterIndexes == dl.filterIndexes
    ensures Accept(dl, p).0.config == dl.config
    ensures Accept(dl, p).0.accepted == dl.accepted + [p.(retain := false)]
  {
  }
}

// Parked requests: what removing, cleaning, parking and waking do to them and leave alone.
module Parking {
  import opened Types
  import opened LogModel
  import opened DataLogModel

  // Same filters and same logs; only parked requests may differ.
  ghost predicate SameLogs(a: DataLog, b: DataLog) {
    && |a.native| == |b.native|
    && (forall i :: 0 <= i < |a.native| ==> b.native[i] == a.native[i].(waiters := b.native[i].waiters))
    && b == a.(native := b.native)
  }

  lemma SameLogsOk(a: DataLog, b: DataLog)
    requires SameLogs(a, b) && DataLogOk(a)
    ensures DataLogOk(b)
  {
    hide Log.Retained, Select, NoDuplicates;
    forall t | t in b.publishFilters
      ensures FullScan(b.native, t, b.publishFilters[t])
    {
      assert FullScan(a.native, t, a.publishFilters[t]);
    }
  }

  // Filters keep their index, and cursors handed out earlier stay usable.
  ghost predicate Grows(a: DataLog, b: DataLog) {
    && |a.native| <= |b.native|
    && forall i :: 0 <= i < |a.native| ==>
         && b.native[i].filter == a.native[i].filter
         && forall c :: a.native[i].log.CursorOk(c) ==> b.native[i].log.CursorOk(c)
  }

  lemma SameLogsGrows(a: DataLog, b: DataLog)
    requires SameLogs(a, b)
    ensures Grows(a, b) && Grows(b, a)
  {
    hide Log.CursorOk;
  }

  lemma RegisterGrows(dl: DataLog, f: Filter)
    ensures Grows(dl, Register(dl, f))
  {
    hide NewData, Extend, Log.CursorOk;
  }

  lemma AcceptGrows(dl: DataLog, p: Publish)
    requires DataLogOk(dl)
    ensures Grows(dl, Accept(dl, p).0)
  {
    hide Log.Append, Log.CursorOk, Log.Retained, Accept, CacheOk, FanOut;
    AcceptEach(dl, p);
    forall i, c | 0 <= i < |dl.native| && dl.native[i].log.CursorOk(c)
      ensures Accept(dl, p).0.native[i].log.CursorOk(c)
    {
      RetainedForm(dl.native[i].log);
      AppendKeepsCursors(dl.native[i].log, p.(retain := false));
    }
  }

  lemma RetainedForm(l: Log)
    requires l.Retained()
    ensures l.WellFormed() && l.maxSize > 0 && l.maxSegments > 0
  {
  }

  // ---------------------------------------------------------------------------------------------
  // Removing

  lemma PositionIs(w: seq<Waiter>, id: ConnectionId)
    ensures var i := Position(w, id);
            && (i < |w| ==> w[i].0 == id)
            && (i == |w| <==> forall x :: x in w ==> x.0 != id)
  {
    if w != [] && w[0].0 != id {
      PositionIs(w[1..], id);
      assert w == [w[0]] + w[1..];
    }
  }

  lemma SwapRemoveIs<T>(w: seq<T>, i: nat)
    requires i < |w|
    ensures forall x :: x in SwapRemove(w, i) ==> x in w
  {
  }

  lemma SwapRemoveCount<T>(w: seq<T>, i: nat, p: T -> bool)
    requires i < |w|
    ensures Count(SwapRemove(w, i), p) + (if p(w[i]) then 1 else 0) == Count(w, p)
  {
    var last := w[|w| - 1];
    CountUpdate(w, i, last, p);
    var u := w[i := last];
    assert u[|u| - 1] == last;
  }

  lemma {:induction false} RemoveAllIs(w: seq<Waiter>, id: ConnectionId)
    ensures forall x :: x in RemoveAll(w, id).0 ==> x in w && x.0 != id
    ensures forall r :: r in RemoveAll(w, id).1 ==> (id, r) in w
    decreases |w|
  {
    PositionIs(w, id);
    var i := Position(w, id);
    if i < |w| {
      SwapRemoveIs(w, i);
      RemoveAllIs(SwapRemove(w, i), id);
    }
  }

  lemma RemoveOneIs(w: seq<Waiter>, id: ConnectionId)
    ensures forall x :: x in RemoveOne(w, id) ==> x in w
  {
    if Position(w, id) < |w| {
      SwapRemoveIs(w, Position(w, id));
    }
  }

  lemma {:induction false} CleanFirstIs(native: seq<Data>, id: ConnectionId, n: nat)
    requires n <= |native|
    ensures var r := CleanFirst(native, id, n);
            && |r.0| == |native|
            && (forall i :: 0 <= i < n ==> r.0[i] == native[i].(waiters := RemoveAll(native[i].waiters, id).0))
            && (forall i :: n <= i < |native| ==> r.0[i] == native[i])
            && (forall q :: q in r.1 ==> exists i :: 0 <= i < n && (id, q) in native[i].waiters)
  {
    if n > 0 {
      CleanFirstIs(native, id, n - 1);
      RemoveAllIs(native[n - 1].waiters, id);
    }
  }

  lemma CleanIs(dl: DataLog, id: ConnectionId)
    ensures SameLogs(dl, Clean(dl, id).0)
    ensures forall i :: 0 <= i < |dl.native| ==>
              forall x :: x in Clean(dl, id).0.native[i].waiters ==> x in dl.native[i].waiters && x.0 != id
    ensures forall q :: q in Clean(dl, id).1 ==> exists i :: 0 <= i < |dl.native| && (id, q) in dl.native[i].waiters
  {
    hide RemoveAll, CleanFirst;
    CleanFirstIs(dl.native, id, |dl.native|);
    forall i | 0 <= i < |dl.native|
      ensures forall x :: x in Clean(dl, id).0.native[i].waiters ==> x in dl.native[i].waiters && x.0 != id
    {
      RemoveAllIs(dl.native[i].waiters, id);
    }
  }

  lemma RemoveWaiterIs(dl: DataLog, id: ConnectionId, f: Filter)
    ensures SameLogs(dl, RemoveWaiter(dl, id, f))
    ensures forall i, x :: 0 <= i < |dl.native| && x in RemoveWaiter(dl, id, f).native[i].waiters ==>
              x in dl.native[i].waiters
  {
    hide RemoveOne;
    if f in dl.filterIndexes && dl.filterIndexes[f] < |dl.native| {
      RemoveOneIs(dl.native[dl.filterIndexes[f]].waiters, id);
    }
  }

  lemma ParkIs(dl: DataLog, id: ConnectionId, r: DataRequest)
    ensures SameLogs(dl, Park(dl, id, r))
    ensures forall i, x :: 0 <= i < |dl.native| && x in Park(dl, id, r).native[i].waiters ==>
              x in dl.native[i].waiters || (x == (id, r) && i == r.filterIdx)
  {
  }

  // What is woken by a publish was parked on a log the publish went to.
  lemma {:induction false} AppendAllWakes(native: seq<Data>, idxs: seq<FilterIdx>, p: Publish)
    ensures |AppendAll(native, idxs, p).0| == |native|
    ensures forall w :: w in AppendAll(native, idxs, p).1 ==> exists i :: 0 <= i < |native| && w in native[i].waiters
    ensures forall i, w :: 0 <= i < |native| && w in AppendAll(native, idxs, p).0[i].waiters ==> w in native[i].waiters
  {
    hide Log.Append;
    if idxs != [] {
      AppendAllWakes(native, idxs[..|idxs| - 1], p);
    }
  }
}

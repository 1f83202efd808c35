// Slot storage with reused keys, and five of them kept in lockstep.
module Slabs {
  // m: occupied slots; free: vacated keys, most recent first; cap: number of slots ever created.
  datatype Slab<T> = Slab(m: map<nat, T>, free: seq<nat>, cap: nat) {
    ghost predicate WellFormed() {
      && (forall k :: k in m ==> k < cap)
      && (forall i :: 0 <= i < |free| ==> free[i] < cap && free[i] !in m)
      && (forall i, j :: 0 <= i < j < |free| ==> free[i] != free[j])
      && (forall k: nat :: k < cap ==> k in m || k in free)
    }

    // The key the next insertion gets.
    function NextKey(): nat {
      if free == [] then cap else free[0]
    }

    function Insert(v: T): Slab<T> {
      if free == [] then Slab(m[cap := v], [], cap + 1) else Slab(m[free[0] := v], free[1..], cap)
    }

    function Remove(k: nat): Slab<T> {
      Slab(m - {k}, [k] + free, cap)
    }

    function Set(k: nat, v: T): Slab<T> {
      this.(m := m[k := v])
    }
  }

  function New<T>(): Slab<T> {
    Slab(map[], [], 0)
  }

  ghost predicate Lockstep<A, B>(a: Slab<A>, b: Slab<B>) {
    a.m.Keys == b.m.Keys && a.free == b.free && a.cap == b.cap
  }

  lemma InsertKeeps<T>(s: Slab<T>, v: T)
    requires s.WellFormed()
    ensures s.NextKey() !in s.m
    ensures s.Insert(v).WellFormed()
    ensures s.Insert(v).m == s.m[s.NextKey() := v]
  {
    var s' := s.Insert(v);
    forall k: nat | k < s'.cap
      ensures k in s'.m || k in s'.free
    {
      if s.free != [] && k in s.free && k != s.free[0] {
        var i :| 0 <= i < |s.free| && s.free[i] == k;
        assert s'.free[i - 1] == k;
      }
    }
  }

  lemma RemoveKeeps<T>(s: Slab<T>, k: nat)
    requires s.WellFormed() && k in s.m
    ensures s.Remove(k).WellFormed()
    ensures s.Remove(k).NextKey() == k
  {
    var s' := s.Remove(k);
    forall j: nat | j < s'.cap
      ensures j in s'.m || j in s'.free
    {
      if j in s.free {
        var i :| 0 <= i < |s.free| && s.free[i] == j;
        assert s'.free[i + 1] == j;
      }
    }
  }

  // Slabs in lockstep hand out the same key, so inserting into both keeps them in lockstep.
  lemma InsertLockstep<A, B>(a: Slab<A>, b: Slab<B>, x: A, y: B)
    requires Lockstep(a, b)
    ensures a.NextKey() == b.NextKey()
    ensures Lockstep(a.Insert(x), b.Insert(y))
  {
  }

  lemma RemoveLockstep<A, B>(a: Slab<A>, b: Slab<B>, k: nat)
    requires Lockstep(a, b)
    ensures Lockstep(a.Remove(k), b.Remove(k))
  {
    assert (a.m - {k}).Keys == a.m.Keys - {k};
    assert (b.m - {k}).Keys == b.m.Keys - {k};
  }

  // ---------------------------------------------------------------------------------------------
  // Projections

  // The slab that keeps only what f shows of every element.
  ghost function Project<T, V>(s: Slab<T>, f: T -> V): Slab<V> {
    Slab(map k | k in s.m :: f(s.m[k]), s.free, s.cap)
  }

  lemma ProjectSet<T, V>(s: Slab<T>, k: nat, v: T, f: T -> V)
    requires k in s.m
    ensures Project(s.Set(k, v), f) == Project(s, f).Set(k, f(v))
    ensures f(v) == f(s.m[k]) ==> Project(s.Set(k, v), f) == Project(s, f)
  {
  }

  lemma ProjectInsert<T, V>(s: Slab<T>, v: T, f: T -> V)
    ensures Project(s.Insert(v), f) == Project(s, f).Insert(f(v))
    ensures Project(s, f).NextKey() == s.NextKey()
  {
  }

  lemma ProjectRemove<T, V>(s: Slab<T>, k: nat, f: T -> V)
    ensures Project(s.Remove(k), f) == Project(s, f).Remove(k)
  {
  }

  lemma ProjectAt<T, V>(s: Slab<T>, f: T -> V)
    ensures Project(s, f).m.Keys == s.m.Keys
    ensures forall k :: k in s.m ==> Project(s, f).m[k] == f(s.m[k])
  {
  }
}

/**
  The insert-only open-addressing table behind the shared arenas (lib.rs, fifo.rs):
  linear probing from a key's home slot with wrap-around, for any hash and any
  positive number of buckets.
*/
module ProbeTable {

  datatype Slot<V> = Empty | Full(key: nat, value: V)

  /** The bucket `q` steps after `home`, wrapping round. */
  function At(n: nat, home: nat, q: nat): (i: nat)
    requires home < n && q < n
    ensures i < n && i == (home + q) % n
  {
    if home + q < n then home + q else home + q - n
  }

  /** How many steps after `home` bucket `i` lies. */
  function Dist(n: nat, home: nat, i: nat): (q: nat)
    requires home < n && i < n
    ensures q < n && At(n, home, q) == i
  {
    if home <= i then i - home else i + n - home
  }

  lemma DistAt(n: nat, home: nat, q: nat)
    requires home < n && q < n
    ensures Dist(n, home, At(n, home, q)) == q
  {
  }

  type Hash = nat -> nat

  ghost predicate HashFits(hash: Hash, n: nat) {
    forall k :: hash(k) < n
  }

  ghost predicate Unique<V>(t: seq<Slot<V>>) {
    forall i, j :: 0 <= i < |t| && 0 <= j < |t| && t[i].Full? && t[j].Full? && t[i].key == t[j].key ==> i == j
  }

  /** No empty bucket among the first `q` probes of `home`. */
  ghost predicate Chain<V>(t: seq<Slot<V>>, home: nat, q: nat)
    requires home < |t| && q <= |t|
  {
    forall p :: 0 <= p < q ==> t[At(|t|, home, p)].Full?
  }

  /** No empty bucket between any key's home and its place. */
  ghost predicate Reachable<V>(t: seq<Slot<V>>, hash: Hash)
    requires HashFits(hash, |t|)
  {
    forall i :: 0 <= i < |t| && t[i].Full? ==> Chain(t, hash(t[i].key), Dist(|t|, hash(t[i].key), i))
  }

  ghost predicate Wf<V>(t: seq<Slot<V>>, hash: Hash) {
    Unique(t) && HashFits(hash, |t|) && Reachable(t, hash)
  }

  /** The map the table stands for. */
  ghost function Contents<V>(t: seq<Slot<V>>): map<nat, V>
    requires Unique(t)
  {
    map i | 0 <= i < |t| && t[i].Full? :: t[i].key := t[i].value
  }

  /** Probing `q` buckets has not met the key. */
  ghost predicate NotWithin<V>(t: seq<Slot<V>>, home: nat, q: nat, k: nat)
    requires home < |t| && q <= |t|
  {
    forall p :: 0 <= p < q ==> t[At(|t|, home, p)].Full? && t[At(|t|, home, p)].key != k
  }

  /** An empty bucket ends the search: the key is not in the table. */
  lemma MissAtEmpty<V>(t: seq<Slot<V>>, hash: Hash, k: nat, q: nat)
    requires Wf(t, hash) && q <= |t| && NotWithin(t, hash(k), q, k)
    requires q < |t| ==> t[At(|t|, hash(k), q)].Empty?
    ensures k !in Contents(t)
  {
    forall i | 0 <= i < |t| && t[i].Full?
      ensures t[i].key != k
    {
      var d := Dist(|t|, hash(t[i].key), i);
      assert Chain(t, hash(t[i].key), d);
      assert d < q ==> t[At(|t|, hash(t[i].key), d)] == t[i];
    }
  }

  lemma SetContents<V>(t: seq<Slot<V>>, place: nat, k: nat, v: V)
    requires Unique(t) && place < |t| && (t[place].Full? ==> t[place].key == k)
    requires Unique(t[place := Full(k, v)])
    ensures Contents(t[place := Full(k, v)]) == Contents(t)[k := v]
  {
    var u := t[place := Full(k, v)];
    forall j | j in Contents(t)[k := v]
      ensures j in Contents(u) && Contents(u)[j] == Contents(t)[k := v][j]
    {
      if j == k {
        assert u[place].Full? && u[place].key == k;
      } else {
        var i :| 0 <= i < |t| && t[i].Full? && t[i].key == j;
        assert u[i] == t[i];
      }
    }
  }

  lemma InsertKeeps<V>(t: seq<Slot<V>>, hash: Hash, k: nat, v: V, q: nat)
    requires Wf(t, hash) && k !in Contents(t) && q < |t|
    requires Chain(t, hash(k), q) && t[At(|t|, hash(k), q)].Empty?
    ensures var u := t[At(|t|, hash(k), q) := Full(k, v)];
            Wf(u, hash) && Contents(u) == Contents(t)[k := v]
  {
    var place := At(|t|, hash(k), q);
    var u := t[place := Full(k, v)];
    assert forall i :: 0 <= i < |t| && t[i].Full? ==> t[i].key in Contents(t);
    assert Unique(u);
    DistAt(|t|, hash(k), q);
    forall i | 0 <= i < |u| && u[i].Full?
      ensures Chain(u, hash(u[i].key), Dist(|u|, hash(u[i].key), i))
    {
      if i != place {
        assert Chain(t, hash(t[i].key), Dist(|t|, hash(t[i].key), i));
      }
    }
    SetContents(t, place, k, v);
  }

  lemma UpdateKeeps<V>(t: seq<Slot<V>>, hash: Hash, i: nat, v: V)
    requires Wf(t, hash) && i < |t| && t[i].Full?
    ensures var u := t[i := Full(t[i].key, v)];
            Wf(u, hash) && t[i].key in Contents(t) && Contents(u) == Contents(t)[t[i].key := v]
  {
    var k := t[i].key;
    var u := t[i := Full(k, v)];
    assert forall j :: 0 <= j < |t| ==> u[j].Full? == t[j].Full? && (t[j].Full? ==> u[j].key == t[j].key);
    forall j | 0 <= j < |u| && u[j].Full?
      ensures Chain(u, hash(u[j].key), Dist(|u|, hash(u[j].key), j))
    {
      assert Chain(t, hash(t[j].key), Dist(|t|, hash(t[j].key), j));
    }
    SetContents(t, i, k, v);
  }

  // ---- Counting -------------------------------------------------------------

  function Occupied<V>(t: seq<Slot<V>>): nat {
    if t == [] then 0 else Occupied(t[..|t| - 1]) + if t[|t| - 1].Full? then 1 else 0
  }

  ghost function Keys<V>(t: seq<Slot<V>>): set<nat> {
    set i | 0 <= i < |t| && t[i].Full? :: t[i].key
  }

  lemma KeysNext<V>(t: seq<Slot<V>>)
    requires Unique(t) && t != []
    ensures var n := |t| - 1;
            && Unique(t[..n])
            && (t[n].Full? ==> t[n].key !in Keys(t[..n]) && Keys(t) == Keys(t[..n]) + {t[n].key})
            && (t[n].Empty? ==> Keys(t) == Keys(t[..n]))
  {
    var n := |t| - 1;
    var s := t[..n];
    assert forall i :: 0 <= i < n ==> s[i] == t[i];
    assert Keys(s) <= Keys(t) by {
      forall k | k in Keys(s)
        ensures k in Keys(t)
      {
        var i :| 0 <= i < n && s[i].Full? && s[i].key == k;
        assert t[i].Full? && t[i].key == k;
      }
    }
    forall k | k in Keys(t)
      ensures k in Keys(s) || (t[n].Full? && k == t[n].key)
    {
      var i :| 0 <= i < |t| && t[i].Full? && t[i].key == k;
      if i < n {
        assert s[i].Full? && s[i].key == k;
      }
    }
  }

  lemma {:induction false} OccupiedIsKeys<V>(t: seq<Slot<V>>)
    requires Unique(t)
    ensures |Keys(t)| == Occupied(t)
  {
    if t != [] {
      KeysNext(t);
      hide Keys, Unique;
      OccupiedIsKeys(t[..|t| - 1]);
    }
  }

  lemma OccupiedIsSize<V>(t: seq<Slot<V>>)
    requires Unique(t)
    ensures |Contents(t)| == Occupied(t)
  {
    OccupiedIsKeys(t);
    assert Contents(t).Keys == Keys(t);
    assert |Contents(t)| == |Contents(t).Keys|;
    hide Occupied;
  }

  lemma {:induction false} FullMeansFull<V>(t: seq<Slot<V>>)
    ensures Occupied(t) <= |t|
    ensures Occupied(t) == |t| <==> forall i :: 0 <= i < |t| ==> t[i].Full?
  {
    if t != [] {
      FullMeansFull(t[..|t| - 1]);
    }
  }

  /** The table has as many keys as buckets exactly when no bucket is empty. */
  lemma SizeAtCapacity<V>(t: seq<Slot<V>>)
    requires Unique(t)
    ensures |Contents(t)| <= |t|
    ensures |Contents(t)| == |t| <==> forall i :: 0 <= i < |t| ==> t[i].Full?
  {
    OccupiedIsSize(t);
    FullMeansFull(t);
  }

  /** The first empty bucket is where a key that was not met goes. */
  lemma InsertAtEmpty<V>(t: seq<Slot<V>>, hash: Hash, k: nat, v: V, q: nat)
    requires Wf(t, hash) && q < |t| && NotWithin(t, hash(k), q, k) && t[At(|t|, hash(k), q)].Empty?
    ensures k !in Contents(t) && |Contents(t)| < |t|
    ensures var u := t[At(|t|, hash(k), q) := Full(k, v)];
            Wf(u, hash) && Contents(u) == Contents(t)[k := v]
  {
    MissAtEmpty(t, hash, k, q);
    InsertKeeps(t, hash, k, v, q);
    SizeAtCapacity(t);
  }

  lemma FitsHome<V>(t: seq<Slot<V>>, hash: Hash, k: nat)
    requires Wf(t, hash)
    ensures Unique(t) && hash(k) < |t|
  {
  }

  /** An empty bucket at the end of the probed chain takes a new key. */
  lemma InsertAtHole<V>(t: seq<Slot<V>>, hash: Hash, k: nat, v: V, q: nat)
    requires Wf(t, hash) && k !in Contents(t) && q < |t|
    requires Chain(t, hash(k), q) && t[At(|t|, hash(k), q)].Empty?
    ensures |Contents(t)| < |t|
    ensures var u := t[At(|t|, hash(k), q) := Full(k, v)];
            Wf(u, hash) && Contents(u) == Contents(t)[k := v] && |Contents(u)| == |Contents(t)| + 1
  {
    InsertKeeps(t, hash, k, v, q);
    SizeAtCapacity(t);
    var u := t[At(|t|, hash(k), q) := Full(k, v)];
    hide Wf, Contents, Unique, Reachable;
    assert Contents(u).Keys == Contents(t).Keys + {k};
    assert |Contents(u)| == |Contents(u).Keys| && |Contents(t)| == |Contents(t).Keys|;
  }

  lemma NoHole<V>(t: seq<Slot<V>>, hash: Hash, k: nat)
    requires Wf(t, hash) && hash(k) < |t| && Chain(t, hash(k), |t|)
    ensures |Contents(t)| == |t|
  {
    SizeAtCapacity(t);
    forall i | 0 <= i < |t|
      ensures t[i].Full?
    {
      assert i == At(|t|, hash(k), Dist(|t|, hash(k), i));
    }
  }

  lemma FoundAt<V>(t: seq<Slot<V>>, i: nat)
    requires Unique(t) && i < |t| && t[i].Full?
    ensures t[i].key in Contents(t) && Contents(t)[t[i].key] == t[i].value
  {
  }

  /** Probing every bucket in vain means the table is full. */
  lemma Exhausted<V>(t: seq<Slot<V>>, hash: Hash, k: nat)
    requires Wf(t, hash) && NotWithin(t, hash(k), |t|, k)
    ensures k !in Contents(t) && |Contents(t)| == |t|
  {
    MissAtEmpty(t, hash, k, |t|);
    SizeAtCapacity(t);
    forall i | 0 <= i < |t|
      ensures t[i].Full?
    {
      assert i == At(|t|, hash(k), Dist(|t|, hash(k), i));
    }
  }

  // ---- The table in shared memory -------------------------------------------

  class Table<V> {
    const slots: array<Slot<V>>
    const hash: Hash
    var occupiedCount: nat

    ghost predicate Valid()
      reads this, slots
    {
      Wf(slots[..], hash) && occupiedCount == |Contents(slots[..])|
    }

    ghost function Entries(): map<nat, V>
      requires Valid()
      reads this, slots
    {
      Contents(slots[..])
    }

    constructor (n: nat, h: Hash)
      requires HashFits(h, n)
      ensures Valid() && Entries() == map[] && slots.Length == n && hash == h && fresh(slots)
    {
      slots := new Slot<V>[n](_ => Empty);
      hash := h;
      occupiedCount := 0;
      new;
      assert forall i :: 0 <= i < n ==> slots[..][i].Empty?;
    }

    /** The walk of a probe and of a find-or-insert: from the home slot to the key or to the
        first empty bucket. */
    method Walk(k: nat) returns (probe: nat, idx: nat)
      requires Valid()
      ensures probe <= slots.Length && hash(k) < slots.Length && NotWithin(slots[..], hash(k), probe, k)
      ensures probe < slots.Length ==> idx == At(slots.Length, hash(k), probe)
      ensures probe < slots.Length ==> slots[idx].Empty? || slots[idx].key == k
    {
      ghost var t := slots[..];
      var start := hash(k);
      probe, idx := 0, start;
      hide Contents, Reachable, Unique;
      while probe < slots.Length
        invariant probe <= slots.Length && start == hash(k) < slots.Length == |t| && t == slots[..]
        invariant NotWithin(t, start, probe, k)
      {
        idx := (start + probe) % slots.Length;
        assert idx == At(|t|, start, probe);
        if slots[idx].Empty? || slots[idx].key == k {
          return;
        }
        probe := probe + 1;
      }
    }

    /** `probe_fifo_cell`, `cell_exists`. */
    method Probe(k: nat) returns (found: bool, idx: nat)
      requires Valid()
      ensures found <==> k in Entries()
      ensures found ==>
                idx < slots.Length && slots[idx].Full? && slots[idx].key == k && slots[idx].value == Entries()[k]
    {
      ghost var t := slots[..];
      var probe, i := Walk(k);
      idx := i;
      found := probe < slots.Length && slots[idx].Full?;
      if found {
        FoundAt(t, idx);
      } else {
        MissAtEmpty(t, hash, k, probe);
      }
    }

    /** `insert_new_seeded`: take the first empty bucket. The caller holds the table
        exclusively and has just probed without finding the key. */
    method InsertNew(k: nat, v: V) returns (ok: bool)
      requires Valid() && k !in Entries()
      modifies this`occupiedCount, slots
      ensures Valid()
      ensures ok <==> |old(Entries())| < slots.Length
      ensures Entries() == if ok then old(Entries())[k := v] else old(Entries())
    {
      ghost var t := slots[..];
      var start := hash(k);
      hide Contents, Reachable, Unique, Wf;
      FitsHome(t, hash, k);
      for probe := 0 to slots.Length
        invariant start == hash(k) < slots.Length == |t| && t == slots[..] == old(slots[..])
        invariant Chain(t, start, probe)
      {
        var idx := (start + probe) % slots.Length;
        assert idx == At(|t|, start, probe);
        if slots[idx].Empty? {
          InsertAtHole(t, hash, k, v, probe);
          hide Chain;
          slots[idx] := Full(k, v);
          assert slots[..] == t[idx := Full(k, v)];
          occupiedCount := occupiedCount + 1;
          return true;
        }
      }
      NoHole(t, hash, k);
      ok := false;
    }

    /** `insert_fifo_cell`: find the key or take the first empty bucket. */
    method FindOrInsert(k: nat, v: V) returns (ok: bool, idx: nat)
      requires Valid()
      modifies this`occupiedCount, slots
      ensures Valid()
      ensures Entries() == if k in old(Entries()) then old(Entries()) else Capped(old(Entries()), slots.Length, k, v)
      ensures ok <==> k in Entries()
      ensures ok ==> idx < slots.Length && slots[idx].Full? && slots[idx].key == k
    {
      ghost var t := slots[..];
      var probe, i := Walk(k);
      ok, idx := probe < slots.Length, i;
      if !ok {
        Exhausted(t, hash, k);
      } else if slots[idx].Full? {
        FoundAt(t, idx);
      } else {
        InsertAtEmpty(t, hash, k, v, probe);
        hide Wf, NotWithin, Contents;
        slots[idx] := Full(k, v);
        assert slots[..] == t[idx := Full(k, v)];
        occupiedCount := occupiedCount + 1;
      }
    }

    /** Probe, then update in place or insert: the second pass of a commit. */
    method Put(k: nat, v: V) returns (ok: bool)
      requires Valid()
      modifies this`occupiedCount, slots
      ensures Valid()
      ensures Entries() == Capped(old(Entries()), slots.Length, k, v)
      ensures ok <==> k in Entries()
    {
      var found, idx := Probe(k);
      if found {
        ghost var t := slots[..];
        UpdateKeeps(t, hash, idx, v);
        slots[idx] := Full(k, v);
        assert slots[..] == t[idx := Full(k, v)];
        assert Contents(slots[..]).Keys == Contents(t).Keys;
        ok := true;
      } else {
        ok := InsertNew(k, v);
      }
    }

    /** Any insert-only run of the table is the same run of a map of bounded size. */
    method PutAll(puts: seq<(nat, V)>)
      requires Valid()
      modifies this`occupiedCount, slots
      ensures Valid()
      ensures Entries() == CappedRun(old(Entries()), slots.Length, puts)
    {
      hide Wf, Contents, Capped;
      for i := 0 to |puts|
        invariant Valid()
        invariant Entries() == CappedRun(old(Entries()), slots.Length, puts[..i])
      {
        var _ := Put(puts[i].0, puts[i].1);
        assert puts[..i + 1][..i] == puts[..i];
      }
      assert puts[..|puts|] == puts;
    }
  }

  /** A map of bounded size: a new key is refused when there is no room. */
  function Capped<V>(m: map<nat, V>, cap: nat, k: nat, v: V): map<nat, V> {
    if k in m || |m| < cap then m[k := v] else m
  }

  function CappedRun<V>(m: map<nat, V>, cap: nat, puts: seq<(nat, V)>): map<nat, V> {
    if puts == [] then m
    else Capped(CappedRun(m, cap, puts[..|puts| - 1]), cap, puts[|puts| - 1].0, puts[|puts| - 1].1)
  }

  function PlainRun<V>(m: map<nat, V>, puts: seq<(nat, V)>): map<nat, V> {
    if puts == [] then m else PlainRun(m, puts[..|puts| - 1])[puts[|puts| - 1].0 := puts[|puts| - 1].1]
  }

  function PutKeys<V>(puts: seq<(nat, V)>): set<nat> {
    if puts == [] then {} else PutKeys(puts[..|puts| - 1]) + {puts[|puts| - 1].0}
  }

  lemma {:induction false} PlainKeys<V>(m: map<nat, V>, puts: seq<(nat, V)>)
    ensures PlainRun(m, puts).Keys == m.Keys + PutKeys(puts)
  {
    if puts != [] {
      PlainKeys(m, puts[..|puts| - 1]);
    }
  }

  lemma SmallerSet(a: set<nat>, b: set<nat>, k: nat)
    requires a <= b && k in b && k !in a
    ensures |a| < |b|
  {
    Subset(a, b - {k});
  }

  lemma {:induction false} Subset(a: set<nat>, b: set<nat>)
    requires a <= b
    ensures |a| <= |b|
  {
    if a != {} {
      var k :| k in a;
      Subset(a - {k}, b - {k});
    }
  }

  /** The capacity check of a commit (`xact_pre_commit`): if the distinct keys that are
      missing still fit, no put of the run is refused. */
  lemma {:induction false} CheckedRunIsPlain<V>(m: map<nat, V>, cap: nat, puts: seq<(nat, V)>, all: set<nat>)
    requires PutKeys(puts) <= all && |m| + |all - m.Keys| <= cap
    ensures CappedRun(m, cap, puts) == PlainRun(m, puts)
  {
    if puts != [] {
      var init, k := puts[..|puts| - 1], puts[|puts| - 1].0;
      CheckedRunIsPlain(m, cap, init, all);
      PlainKeys(m, init);
      StillFits(m, PlainRun(m, init), all, k, cap);
      hide PlainRun, PutKeys;
      PlainNext(m, puts);
    }
  }

  lemma PlainNext<V>(m: map<nat, V>, puts: seq<(nat, V)>)
    requires puts != []
    ensures PlainRun(m, puts) == PlainRun(m, puts[..|puts| - 1])[puts[|puts| - 1].0 := puts[|puts| - 1].1]
  {
  }

  lemma StillFits<V>(m: map<nat, V>, now: map<nat, V>, all: set<nat>, k: nat, cap: nat)
    requires now.Keys <= m.Keys + all && k in all && |m| + |all - m.Keys| <= cap
    ensures k in now || |now| < cap
  {
    if k !in now {
      var missing := all - m.Keys;
      assert |now| == |now.Keys| && |m| == |m.Keys|;
      SmallerSet(now.Keys, m.Keys + missing, k);
      assert |m.Keys + missing| == |m.Keys| + |missing|;
    }
  }
}

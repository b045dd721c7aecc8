/** The staging queue (staging.rs): a pool of slots scanned from the tail for a free one,
    single pushes, and batches that go in whole or not at all. The caller holds the
    queue's lock exclusively. */
module StagingQueue {
  import opened Collections
  import opened ProbeTable

  /** A slot's flag, its SuperBatch stamp and the entry written to it. */
  datatype Staged = Staged(valid: nat, sb: nat, entry: nat)

  function FreeSlots(slots: seq<Staged>): nat {
    if slots == [] then 0
    else FreeSlots(slots[..|slots| - 1]) + if slots[|slots| - 1].valid == 0 then 1 else 0
  }

  lemma {:induction false} TakeOneFree(slots: seq<Staged>, i: nat, v: Staged)
    requires i < |slots| && slots[i].valid == 0 && v.valid != 0
    ensures FreeSlots(slots) == FreeSlots(slots[i := v]) + 1
  {
    var n := |slots| - 1;
    if i == n {
      assert slots[i := v][..n] == slots[..n];
    } else {
      TakeOneFree(slots[..n], i, v);
      assert slots[i := v][..n] == slots[..n][i := v];
    }
  }

  lemma {:induction false} NoneFree(slots: seq<Staged>)
    requires forall i :: 0 <= i < |slots| ==> slots[i].valid != 0
    ensures FreeSlots(slots) == 0
  {
    if slots != [] {
      NoneFree(slots[..|slots| - 1]);
    }
  }

  /** The queue after the entries went, in order, into the listed slots. */
  ghost function Filled(slots: seq<Staged>, at: seq<nat>, entries: seq<nat>): (r: seq<Staged>)
    requires |at| <= |entries| && forall k :: 0 <= k < |at| ==> at[k] < |slots|
    ensures |r| == |slots|
  {
    if at == [] then slots
    else Filled(slots, at[..|at| - 1], entries)[at[|at| - 1] := Staged(1, 0, entries[|at| - 1])]
  }

  lemma FilledNext(slots: seq<Staged>, at: seq<nat>, entries: seq<nat>, i: nat)
    requires |at| < |entries| && i < |slots| && forall k :: 0 <= k < |at| ==> at[k] < |slots|
    ensures Filled(slots, at + [i], entries) == Filled(slots, at, entries)[i := Staged(1, 0, entries[|at|])]
  {
    assert (at + [i])[..|at|] == at;
  }

  /** Slots were free before, are taken once, and every other slot is untouched. */
  lemma {:induction false} FilledAt(slots: seq<Staged>, at: seq<nat>, entries: seq<nat>, i: nat)
    requires |at| <= |entries| && (forall k :: 0 <= k < |at| ==> at[k] < |slots|) && NoDup(at) && i < |slots|
    ensures i !in at ==> Filled(slots, at, entries)[i] == slots[i]
    ensures forall k :: 0 <= k < |at| && at[k] == i ==> Filled(slots, at, entries)[i] == Staged(1, 0, entries[k])
  {
    if at != [] {
      FilledAt(slots, at[..|at| - 1], entries, i);
    }
  }

  /** No free slot between the start of the scan and `idx`. */
  ghost predicate FirstFree(slots: seq<Staged>, start: nat, idx: nat)
    requires start < |slots| && idx < |slots|
  {
    forall p :: 0 <= p < Dist(|slots|, start, idx) ==> slots[At(|slots|, start, p)].valid != 0
  }

  class Queue {
    const slots: array<Staged>
    var tail: nat

    ghost predicate Valid()
      reads this
    {
      slots.Length > 0 && tail < slots.Length
    }

    constructor (n: nat)
      requires n > 0
      ensures Valid() && slots.Length == n && fresh(slots)
      ensures forall i :: 0 <= i < n ==> slots[i].valid == 0
    {
      slots := new Staged[n](_ => Staged(0, 0, 0));
      tail := 0;
    }

    /** Scan from `start` for the first free slot. */
    method FindFree(start: nat) returns (ok: bool, off: nat, idx: nat)
      requires start < slots.Length
      ensures ok ==> off < slots.Length && idx == At(slots.Length, start, off) && slots[idx].valid == 0
      ensures ok ==> forall p :: 0 <= p < off ==> slots[At(slots.Length, start, p)].valid != 0
      ensures !ok ==> forall i :: 0 <= i < slots.Length ==> slots[i].valid != 0
    {
      var n := slots.Length;
      for i := 0 to n
        invariant forall p :: 0 <= p < i ==> slots[At(n, start, p)].valid != 0
      {
        idx := (start + i) % n;
        assert idx == At(n, start, i);
        if slots[idx].valid == 0 {
          return true, i, idx;
        }
      }
      forall i | 0 <= i < n
        ensures slots[i].valid != 0
      {
        assert i == At(n, start, Dist(n, start, i));
      }
      ok, off, idx := false, 0, 0;
    }

    /** `push_entry`: the first free slot from the tail on, or full. */
    method PushEntry(entry: nat) returns (ok: bool, idx: nat)
      requires Valid()
      modifies this`tail, slots
      ensures Valid()
      ensures ok <==> FreeSlots(old(slots[..])) > 0
      ensures ok ==> idx < slots.Length && old(slots[..])[idx].valid == 0
      ensures ok ==> slots[..] == old(slots[..])[idx := Staged(1, 0, entry)]
      ensures ok ==> FirstFree(old(slots[..]), old(tail), idx)
      ensures !ok ==> slots[..] == old(slots[..]) && tail == old(tail)
    {
      var off;
      ok, off, idx := FindFree(tail);
      if ok {
        DistAt(slots.Length, tail, off);
        TakeOneFree(slots[..], idx, Staged(1, 0, entry));
        slots[idx] := Staged(1, 0, entry);
        tail := (tail + off + 1) % slots.Length;
      } else {
        NoneFree(slots[..]);
      }
    }

    /** Take the flags of the listed slots back. */
    method RollBack(at: seq<nat>, ghost before: seq<Staged>, ghost entries: seq<nat>)
      requires |before| == slots.Length && |at| <= |entries| && NoDup(at)
      requires forall k :: 0 <= k < |at| ==> at[k] < slots.Length && before[at[k]].valid == 0
      requires slots[..] == Filled(before, at, entries)
      modifies slots
      ensures forall i :: 0 <= i < slots.Length ==>
                slots[i].valid == before[i].valid && (before[i].valid != 0 ==> slots[i] == before[i])
    {
      forall i | 0 <= i < slots.Length
        ensures i !in at ==> slots[i] == before[i]
      {
        FilledAt(before, at, entries, i);
      }
      for k := 0 to |at|
        invariant forall i :: 0 <= i < slots.Length && i !in at ==> slots[i] == before[i]
        invariant forall j :: 0 <= j < k ==> slots[at[j]].valid == 0
      {
        slots[at[k]] := slots[at[k]].(valid := 0);
      }
    }

    /** `push_entries_batch`: all entries in order, each in the first free slot after the
        last, or none. */
    method PushBatch(entries: seq<nat>) returns (ok: bool, at: seq<nat>)
      requires Valid()
      modifies this`tail, slots
      ensures Valid()
      ensures ok <==> FreeSlots(old(slots[..])) >= |entries|
      ensures ok ==> |at| == |entries| && NoDup(at)
      ensures ok ==> forall k :: 0 <= k < |at| ==> at[k] < slots.Length && old(slots[..])[at[k]].valid == 0
      ensures ok ==> slots[..] == Filled(old(slots[..]), at, entries)
      ensures !ok ==> tail == old(tail) && forall i :: 0 <= i < slots.Length ==>
                slots[i].valid == old(slots[i]).valid && (old(slots[i]).valid != 0 ==> slots[i] == old(slots[i]))
    {
      ghost var before := slots[..];
      var nextTail: nat := tail;
      at := [];
      for k := 0 to |entries|
        invariant Valid() && tail == old(tail) && nextTail < slots.Length && |at| == k && NoDup(at)
        invariant forall j :: 0 <= j < k ==> at[j] < slots.Length && before[at[j]].valid == 0
        invariant slots[..] == Filled(before, at, entries)
        invariant FreeSlots(slots[..]) + k == FreeSlots(before)
      {
        var found, off, idx := FindFree(nextTail);
        if !found {
          NoneFree(slots[..]);
          RollBack(at, before, entries);
          return false, [];
        }
        FilledAt(before, at, entries, idx);
        FilledNext(before, at, entries, idx);
        TakeOneFree(slots[..], idx, Staged(1, 0, entries[k]));
        hide Filled, FreeSlots;
        slots[idx] := Staged(1, 0, entries[k]);
        at := at + [idx];
        nextTail := (nextTail + off + 1) % slots.Length;
      }
      tail := nextTail;
      ok := true;
    }
  }
}

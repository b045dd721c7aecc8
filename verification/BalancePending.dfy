/**
  The per-backend pending stack of the balance arena (lib.rs) as the mutable object
  the source keeps: each method is proved against the frame functions that
  BalanceTransaction's theorems are about.
*/
module BalancePending {
  import opened BalancePair
  import opened BalanceTransaction

  /** `child` has been merged into `parent` for every key outside `todo`. */
  ghost predicate PartMerged(parent: Frame, child: Frame, todo: set<Key>, merged: Frame) {
    && merged.Keys == parent.Keys + (child.Keys - todo)
    && forall k :: k in merged ==>
         merged[k] == if k !in child || k in todo then parent[k]
                      else if k !in parent then child[k] else MergeEntry(parent[k], child[k])
  }

  lemma MergeOneMore(parent: Frame, child: Frame, todo: set<Key>, merged: Frame, k: Key)
    requires PartMerged(parent, child, todo, merged) && k in todo && todo <= child.Keys
    ensures PartMerged(parent, child, todo - {k},
                       merged[k := if k in merged then MergeEntry(merged[k], child[k]) else child[k]])
  {
    hide MergeEntry;
    assert k in merged <==> k in parent;
  }

  /** `merge_entry` for every entry of `child`, in whatever order the hash map yields
      them. */
  method MergeInto(parent: Frame, child: Frame) returns (merged: Frame)
    ensures merged == MergeFrame(parent, child)
  {
    merged := parent;
    var todo := child.Keys;
    assert PartMerged(parent, child, todo, merged);
    hide *;
    while todo != {}
      invariant todo <= child.Keys && PartMerged(parent, child, todo, merged)
      decreases |todo|
    {
      var k :| k in todo;
      MergeOneMore(parent, child, todo, merged, k);
      merged := merged[k := if k in merged then MergeEntry(merged[k], child[k]) else child[k]];
      todo := todo - {k};
    }
    AllMerged(parent, child, merged);
  }

  lemma AllMerged(parent: Frame, child: Frame, merged: Frame)
    requires PartMerged(parent, child, {}, merged)
    ensures merged == MergeFrame(parent, child)
  {
    hide MergeEntry;
  }

  lemma OneMoreMissing(keys: set<Key>, todo: set<Key>, present: set<Key>, k: Key)
    requires k in todo && todo <= keys
    ensures |(keys - (todo - {k})) - present| == |(keys - todo) - present| + if k in present then 0 else 1
  {
    var missing := (keys - todo) - present;
    if k in present {
      assert (keys - (todo - {k})) - present == missing;
    } else {
      assert (keys - (todo - {k})) - present == missing + {k};
    }
  }

  /** How many of the keys have no cell yet. */
  method CountMissing(keys: set<Key>, cells: map<Key, Pair>) returns (newInserts: nat)
    ensures newInserts == |keys - cells.Keys|
  {
    newInserts := 0;
    var todo := keys;
    ghost var present := cells.Keys;
    assert (keys - todo) - present == {};
    while todo != {}
      invariant todo <= keys && newInserts == |(keys - todo) - present|
      decreases |todo|
    {
      var k :| k in todo;
      OneMoreMissing(keys, todo, present, k);
      if k !in cells {
        newInserts := newInserts + 1;
      }
      todo := todo - {k};
    }
    assert (keys - {}) - present == keys - present;
  }

  class PendingStack {
    var stack: seq<Frame>

    constructor ()
      ensures stack == []
    {
      stack := [];
    }

    /** The first half of `stage_apply`: sum into the top frame, or reserve an entry
        whose seed is still to be captured. */
    method Stage(k: Key, d: Pair) returns (needSeed: bool)
      modifies this
      ensures var was := Top(EnsureTop(old(stack)));
              && needSeed == (k !in was) && |stack| == |EnsureTop(old(stack))|
              && stack == SetTop(EnsureTop(old(stack)),
                   was[k := if k in was then was[k].(delta := SatPair(Plus(was[k].delta, d)))
                            else Pending(d, NoSeed, false)])
    {
      if stack == [] {
        stack := [map[]];
      }
      var top := stack[|stack| - 1];
      needSeed := k !in top;
      var entry := if k in top then top[k].(delta := SatPair(Plus(top[k].delta, d))) else Pending(d, NoSeed, false);
      var top': Frame := top[k := entry];
      stack := stack[|stack| - 1 := top'];
    }

    method StartSub()
      modifies this
      ensures stack == old(stack) + [map[]]
    {
      stack := stack + [map[]];
    }

    method CommitSub()
      modifies this
      ensures stack == Released(old(stack))
    {
      if stack == [] {
        stack := [map[]];
        return;
      }
      var popped := stack[|stack| - 1];
      stack := stack[..|stack| - 1];
      if stack == [] {
        stack := [popped];
        return;
      }
      var merged := MergeInto(stack[|stack| - 1], popped);
      stack := stack[|stack| - 1 := merged];
    }

    method AbortSub()
      modifies this
      ensures stack == RolledBack(old(stack))
    {
      if stack != [] {
        stack := stack[..|stack| - 1];
      }
      if stack == [] {
        stack := [map[]];
      }
    }

    method Abort()
      modifies this
      ensures stack == [map[]]
    {
      stack := [map[]];
    }

    /** `drain_pending_stack`. */
    method DrainAll() returns (merged: Frame)
      modifies this
      ensures merged == MergeAll(old(stack)) && stack == [map[]]
    {
      hide MergeFrame;
      merged := map[];
      var frames := stack;
      for i := 0 to |frames|
        invariant merged == MergeAll(frames[..i])
      {
        merged := MergeInto(merged, frames[i]);
        assert frames[..i + 1][..i] == frames[..i];
      }
      assert frames[..|frames|] == frames;
      stack := [map[]];
    }

    /** `xact_pre_commit`: collect the distinct keys, count those without a cell. */
    method PreCommit(m: Shared, cap: nat) returns (ok: bool)
      ensures ok <==> HasRoom(m, cap, stack)
    {
      var keys: set<Key> := {};
      for i := 0 to |stack|
        invariant keys == StackKeys(stack[..i])
      {
        keys := keys + stack[i].Keys;
        assert stack[..i + 1][..i] == stack[..i];
      }
      assert stack[..|stack|] == stack;
      var newInserts := CountMissing(keys, m.cells);
      ok := newInserts == 0 || |m.cells| + newInserts <= cap;
    }
  }
}

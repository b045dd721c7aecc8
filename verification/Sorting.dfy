/** The stable sort of the standard library, as both the router and the committer use
    it: by its definition on sequences, and what it guarantees. */
module Sorting {

  ghost predicate TotalPreorder<T(!new)>(le: (T, T) -> bool) {
    && (forall x, y :: le(x, y) || le(y, x))
    && (forall x, y, z :: le(x, y) && le(y, z) ==> le(x, z))
  }

  /** Put `x` after every element that does not come strictly later. */
  function Insert<T>(s: seq<T>, x: T, le: (T, T) -> bool): (r: seq<T>)
    ensures |r| == |s| + 1
  {
    if s == [] || le(s[|s| - 1], x) then s + [x]
    else Insert(s[..|s| - 1], x, le) + [s[|s| - 1]]
  }

  function Sort<T>(s: seq<T>, le: (T, T) -> bool): (r: seq<T>)
    ensures |r| == |s|
  {
    if s == [] then [] else Insert(Sort(s[..|s| - 1], le), s[|s| - 1], le)
  }

  ghost predicate Sorted<T>(s: seq<T>, le: (T, T) -> bool) {
    forall i, j :: 0 <= i < j < |s| ==> le(s[i], s[j])
  }

  lemma {:induction false} InsertPermutes<T>(s: seq<T>, x: T, le: (T, T) -> bool)
    ensures multiset(Insert(s, x, le)) == multiset(s) + multiset{x}
  {
    if s == [] || le(s[|s| - 1], x) {
    } else {
      InsertPermutes(s[..|s| - 1], x, le);
      assert s == s[..|s| - 1] + [s[|s| - 1]];
    }
  }

  lemma {:induction false} SortPermutes<T>(s: seq<T>, le: (T, T) -> bool)
    ensures multiset(Sort(s, le)) == multiset(s)
  {
    if s != [] {
      SortPermutes(s[..|s| - 1], le);
      InsertPermutes(Sort(s[..|s| - 1], le), s[|s| - 1], le);
      assert s == s[..|s| - 1] + [s[|s| - 1]];
    }
  }

  lemma {:induction false} InsertSorted<T(!new)>(s: seq<T>, x: T, le: (T, T) -> bool)
    requires TotalPreorder(le) && Sorted(s, le)
    ensures Sorted(Insert(s, x, le), le)
  {
    if s == [] || le(s[|s| - 1], x) {
      forall i | 0 <= i < |s|
        ensures le(s[i], x)
      {
        if i < |s| - 1 {
          assert le(s[i], s[|s| - 1]);
        }
      }
    } else {
      var t, last := s[..|s| - 1], s[|s| - 1];
      InsertSorted(t, x, le);
      InsertBelow(t, x, last, le);
    }
  }

  /** What is below `top` in the list and for `x` stays below it. */
  lemma {:induction false} InsertBelow<T>(s: seq<T>, x: T, top: T, le: (T, T) -> bool)
    requires forall i :: 0 <= i < |s| ==> le(s[i], top)
    requires le(x, top)
    ensures forall i :: 0 <= i < |Insert(s, x, le)| ==> le(Insert(s, x, le)[i], top)
  {
    if s == [] || le(s[|s| - 1], x) {
    } else {
      InsertBelow(s[..|s| - 1], x, top, le);
    }
  }

  lemma {:induction false} SortSorts<T(!new)>(s: seq<T>, le: (T, T) -> bool)
    requires TotalPreorder(le)
    ensures Sorted(Sort(s, le), le)
  {
    if s != [] {
      SortSorts(s[..|s| - 1], le);
      InsertSorted(Sort(s[..|s| - 1], le), s[|s| - 1], le);
    }
  }

  function Filter<T>(s: seq<T>, p: T -> bool): seq<T> {
    if s == [] then []
    else Filter(s[..|s| - 1], p) + if p(s[|s| - 1]) then [s[|s| - 1]] else []
  }

  lemma FilterNext<T>(s: seq<T>, x: T, p: T -> bool)
    ensures Filter(s + [x], p) == Filter(s, p) + if p(x) then [x] else []
  {
    assert (s + [x])[..|s|] == s;
  }

  /** Where the inserted element lands among those kept depends only on those kept. */
  lemma {:induction false} FilterInsert<T(!new)>(s: seq<T>, x: T, le: (T, T) -> bool, p: T -> bool)
    requires TotalPreorder(le) && Sorted(s, le)
    ensures Filter(Insert(s, x, le), p) == if p(x) then Insert(Filter(s, p), x, le) else Filter(s, p)
    decreases |s|, 1
  {
    if s == [] {
      FilterNext([], x, p);
    } else if le(s[|s| - 1], x) {
      FilterNext(s, x, p);
      if p(x) && Filter(s, p) != [] {
        LastBelow(s, x, le, p);
      }
    } else {
      FilterInsertBefore(s, x, le, p);
    }
  }

  lemma FilterInsertBefore<T(!new)>(s: seq<T>, x: T, le: (T, T) -> bool, p: T -> bool)
    requires TotalPreorder(le) && Sorted(s, le) && s != [] && !le(s[|s| - 1], x)
    ensures Filter(Insert(s, x, le), p) == if p(x) then Insert(Filter(s, p), x, le) else Filter(s, p)
    decreases |s|, 0
  {
    hide Insert, Filter, Sorted, TotalPreorder;
    var t, last := s[..|s| - 1], s[|s| - 1];
    SortedPrefix(s, le);
    assert s == t + [last];
    FilterInsert(t, x, le, p);
    InsertBefore(t, last, x, le);
    FilterNext(t, last, p);
    FilterNext(Insert(t, x, le), last, p);
    InsertBefore(Filter(t, p), last, x, le);
    if !p(last) {
      assert Filter(t, p) + [] == Filter(t, p);
      assert Filter(Insert(t, x, le), p) + [] == Filter(Insert(t, x, le), p);
    }
  }

  lemma SortedPrefix<T>(s: seq<T>, le: (T, T) -> bool)
    requires Sorted(s, le) && s != []
    ensures Sorted(s[..|s| - 1], le)
  {
  }

  lemma InsertBefore<T>(t: seq<T>, last: T, x: T, le: (T, T) -> bool)
    requires !le(last, x)
    ensures Insert(t + [last], x, le) == Insert(t, x, le) + [last]
  {
    assert (t + [last])[..|t|] == t;
  }

  lemma {:induction false} LastBelow<T(!new)>(s: seq<T>, x: T, le: (T, T) -> bool, p: T -> bool)
    requires TotalPreorder(le) && Sorted(s, le) && Filter(s, p) != [] && le(s[|s| - 1], x)
    ensures le(Filter(s, p)[|Filter(s, p)| - 1], x)
  {
    if !p(s[|s| - 1]) {
      var t := s[..|s| - 1];
      if t != [] {
        assert le(t[|t| - 1], s[|s| - 1]);
        assert le(t[|t| - 1], x);
        LastBelow(t, x, le, p);
      }
    }
  }

  /** Sorting a selection is selecting from the sorted list. */
  lemma {:induction false} FilterSort<T(!new)>(s: seq<T>, le: (T, T) -> bool, p: T -> bool)
    requires TotalPreorder(le)
    ensures Filter(Sort(s, le), p) == Sort(Filter(s, p), le)
  {
    if s != [] {
      var t, x := s[..|s| - 1], s[|s| - 1];
      FilterSort(t, le, p);
      SortSorts(t, le);
      FilterInsert(Sort(t, le), x, le, p);
      if p(x) {
        assert Filter(s, p)[..|Filter(s, p)| - 1] == Filter(t, p);
      } else {
        assert Filter(s, p) == Filter(t, p);
      }
    }
  }

  lemma {:induction false} SortedIsFixed<T(!new)>(s: seq<T>, le: (T, T) -> bool)
    requires Sorted(s, le)
    ensures Sort(s, le) == s
  {
    if s != [] {
      SortedIsFixed(s[..|s| - 1], le);
      if |s| > 1 {
        assert le(s[|s| - 2], s[|s| - 1]);
      }
    }
  }

  /** Stability: elements that tie keep their order. */
  lemma SortIsStable<T(!new)>(s: seq<T>, le: (T, T) -> bool, p: T -> bool)
    requires TotalPreorder(le) && forall x, y :: p(x) && p(y) ==> le(x, y)
    ensures Filter(Sort(s, le), p) == Filter(s, p)
  {
    FilterSort(s, le, p);
    FilterKeeps(s, p);
    SortedIsFixed(Filter(s, p), le);
  }

  lemma {:induction false} FilterKeeps<T>(s: seq<T>, p: T -> bool)
    ensures forall i :: 0 <= i < |Filter(s, p)| ==> p(Filter(s, p)[i])
  {
    if s != [] {
      FilterKeeps(s[..|s| - 1], p);
    }
  }
}

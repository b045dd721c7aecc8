/**
  When the sums staged by a balance transaction are exact: `merge_entry` and
  `stage_apply` saturate, so a delta can be lost, but not as long as the absolute
  values staged for each key in one transaction add up to less than 2^63.
*/
module BalanceExactness {
  import opened BalancePair
  import opened BalanceTransaction
  import opened Int64

  function AbsPair(d: Pair): Pair {
    Pair(Abs(d.amount), Abs(d.qty))
  }

  function AbsSum(log: seq<Staged>, k: Key): (r: Pair)
    ensures r.amount >= 0 && r.qty >= 0
  {
    if log == [] then ZERO
    else Plus(AbsSum(log[..|log| - 1], k), if log[|log| - 1].key == k then AbsPair(log[|log| - 1].delta) else ZERO)
  }

  predicate Within(d: Pair, bound: Pair) {
    Abs(d.amount) <= bound.amount && Abs(d.qty) <= bound.qty
  }

  lemma {:induction false} SumWithin(log: seq<Staged>, k: Key)
    ensures Within(Sum(log, k), AbsSum(log, k))
  {
    if log != [] {
      SumWithin(log[..|log| - 1], k);
    }
  }

  lemma {:induction false} AbsSumAppend(a: seq<Staged>, b: seq<Staged>, k: Key)
    ensures AbsSum(a + b, k) == Plus(AbsSum(a, k), AbsSum(b, k))
  {
    hide Plus;
    if b == [] {
      assert a + b == a;
      PlusZero(AbsSum(a, k));
    } else {
      AbsSumAppend(a, b[..|b| - 1], k);
      assert (a + b)[..|a + b| - 1] == a + b[..|b| - 1];
      PlusAssoc(AbsSum(a, k), AbsSum(b[..|b| - 1], k),
                if b[|b| - 1].key == k then AbsPair(b[|b| - 1].delta) else ZERO);
    }
  }

  /** The absolute values staged for each key by the open transaction add up to less
      than 2^63: something the caller can count while staging. */
  ghost predicate Light(logs: seq<seq<Staged>>) {
    forall k :: Fits(AbsSum(Flatten(logs), k))
  }

  lemma PartFits(a: seq<Staged>, b: seq<Staged>, c: seq<Staged>, k: Key)
    requires Fits(AbsSum(a + b + c, k))
    ensures Fits(Sum(b, k))
  {
    AbsSumAppend(a + b, c, k);
    AbsSumAppend(a, b, k);
    SumWithin(b, k);
    hide AbsSum, Sum;
  }

  /** One part of the staged deltas, seen as the frames between i and j. */
  lemma {:induction false} FlattenSplit(logs: seq<seq<Staged>>, n: nat)
    requires n <= |logs|
    ensures exists c :: Flatten(logs) == Flatten(logs[..n]) + c
  {
    if n == |logs| {
      assert logs[..n] == logs;
      assert Flatten(logs) == Flatten(logs[..n]) + [];
    } else {
      FlattenSplit(logs[..|logs| - 1], n);
      assert logs[..|logs| - 1][..n] == logs[..n];
      var c :| Flatten(logs[..|logs| - 1]) == Flatten(logs[..n]) + c;
      assert Flatten(logs) == Flatten(logs[..n]) + (c + logs[|logs| - 1]);
    }
  }

  lemma PrefixFits(logs: seq<seq<Staged>>, n: nat, k: Key)
    requires Light(logs) && n <= |logs|
    ensures Fits(Sum(Flatten(logs[..n]), k))
  {
    FlattenSplit(logs, n);
    var c :| Flatten(logs) == Flatten(logs[..n]) + c;
    var b := Flatten(logs[..n]);
    assert [] + b + c == Flatten(logs);
    assert Fits(AbsSum(Flatten(logs), k));
    hide Fits, AbsSum, Sum, Flatten;
    PartFits([], b, c, k);
  }

  /** The whole stack merges without saturation. */
  lemma {:induction false} LightMerges(stack: seq<Frame>, logs: seq<seq<Staged>>, n: nat)
    requires LogsMatch(stack, logs) && Light(logs) && n <= |stack|
    ensures MergeAllFits(stack[..n])
  {
    if n > 0 {
      hide LogsMatch, Light, MergeFits, MergeAll;
      LightMerges(stack, logs, n - 1);
      assert stack[..n][..n - 1] == stack[..n - 1];
      LightTop(stack, logs, n);
    }
  }

  lemma LightTop(stack: seq<Frame>, logs: seq<seq<Staged>>, n: nat)
    requires LogsMatch(stack, logs) && Light(logs) && 0 < n <= |stack| && MergeAllFits(stack[..n - 1])
    ensures MergeFits(MergeAll(stack[..n - 1]), stack[n - 1])
  {
    hide Plus, Fits, Sum, MergeAll, AbsSum, Holds, Light, MergeAllFits, StackSum;
    var below, top := MergeAll(stack[..n - 1]), stack[n - 1];
    forall k | k in below && k in top
      ensures Fits(Plus(below[k].delta, top[k].delta))
    {
      MergeAllDelta(stack[..n - 1], k);
      PrefixSum(stack, logs, n, k);
      PrefixFits(logs, n + |logs| - |stack|, k);
    }
  }

  lemma PrefixSum(stack: seq<Frame>, logs: seq<seq<Staged>>, n: nat, k: Key)
    requires LogsMatch(stack, logs) && 0 < n <= |stack|
    ensures Plus(StackSum(stack[..n - 1], k), DeltaOf(stack[n - 1], k))
         == Sum(Flatten(logs[..n + |logs| - |stack|]), k)
  {
    hide Plus, Sum, Holds;
    var st, lg := stack[..n], logs[..n + |logs| - |stack|];
    assert LogsMatch(st, lg) by {
      assert forall i :: 0 <= i < |stack| ==> Holds(stack[i], logs[i + |logs| - |stack|]);
    }
    StackSumIsLogSum(st, lg, k);
    assert st[..n - 1] == stack[..n - 1];
  }

  lemma TailFits(logs: seq<seq<Staged>>, b: seq<Staged>, a: seq<Staged>, k: Key)
    requires Light(logs) && Flatten(logs) == a + b
    ensures Fits(Sum(b, k))
  {
    assert a + b + [] == Flatten(logs);
    assert Fits(AbsSum(Flatten(logs), k));
    hide Fits, AbsSum, Sum, Flatten;
    PartFits(a, b, [], k);
  }

  lemma LightStage(m: Shared, cap: nat, x: Backend, e: Event)
    requires e.Stage? && x.pc.Ready? && LogsMatch(x.stack, x.logs) && Light(AddTo(x.logs, Staged(e.key, e.delta)))
    ensures StepFits(x, e)
  {
    hide Plus, Fits, Sum, AbsSum, Light;
    var k, d := e.key, e.delta;
    var n := |x.logs| - 1;
    var last, logs := x.logs[n], AddTo(x.logs, Staged(k, d));
    var a := Flatten(x.logs[..n]);
    assert logs[..n] == x.logs[..n];
    assert Flatten(logs) == a + (last + [Staged(k, d)]);
    TailFits(logs, last + [Staged(k, d)], a, k);
    SumNext(last, k, d, k);
    assert Flatten(logs) == (a + last) + [Staged(k, d)];
    TailFits(logs, [Staged(k, d)], a + last, k);
    SumNext([], k, d, k);
    SumEmpty(k);
    PlusZero(d);
    assert [] + [Staged(k, d)] == [Staged(k, d)];
    TopHolds(x);
    assert DeltaOf(Top(EnsureTop(x.stack)), k) == Sum(last, k);
  }

  lemma LightRelease(x: Backend)
    requires LogsMatch(x.stack, x.logs) && Light(x.logs) && |x.logs| >= 2
    ensures ReleaseFits(x.stack)
  {
    hide Plus, Fits, Sum, AbsSum, Light;
    var n := |x.logs|;
    if |x.stack| >= 2 {
      var p, c := x.stack[|x.stack| - 2], Top(x.stack);
      var l1, l2 := x.logs[n - 2], x.logs[n - 1];
      assert Holds(p, x.logs[|x.stack| - 2 + n - |x.stack|]) && Holds(c, x.logs[|x.stack| - 1 + n - |x.stack|]);
      forall k | k in p && k in c
        ensures Fits(Plus(p[k].delta, c[k].delta))
      {
        FlattenLastTwo(x.logs);
        TailFits(x.logs, l1 + l2, Flatten(x.logs[..n - 2]), k);
        SumAppend(l1, l2, k);
        assert DeltaOf(p, k) == Sum(l1, k) && DeltaOf(c, k) == Sum(l2, k);
      }
    }
  }

  lemma FlattenNext(logs: seq<seq<Staged>>)
    requires logs != []
    ensures Flatten(logs) == Flatten(logs[..|logs| - 1]) + logs[|logs| - 1]
  {
  }

  lemma Regroup(a: seq<Staged>, b: seq<Staged>, c: seq<Staged>)
    ensures (a + b) + c == a + (b + c)
  {
  }

  lemma FlattenLastTwo(logs: seq<seq<Staged>>)
    requires |logs| >= 2
    ensures Flatten(logs) == Flatten(logs[..|logs| - 2]) + (logs[|logs| - 2] + logs[|logs| - 1])
  {
    hide Flatten;
    var n := |logs|;
    FlattenNext(logs);
    FlattenNext(logs[..n - 1]);
    assert logs[..n - 1][..n - 2] == logs[..n - 2];
    Regroup(Flatten(logs[..n - 2]), logs[n - 2], logs[n - 1]);
  }

  ghost predicate LightState(s: State) {
    forall b :: 0 <= b < |s.backends| ==> Light(s.backends[b].logs)
  }

  lemma LightStep(s: State, e: Event)
    requires Inv(s) && s.exact && LightState(s) && LightState(Next(s, e))
    ensures Next(s, e).exact
  {
    if !e.DrainUpsert? && !e.Update? && !e.Insert? && e.b < |s.backends| {
      var x := s.backends[e.b];
      var t := Next(s, e);
      assert BackendOk(s.shared, x, s.exact);
      assert Light(x.logs) && Light(t.backends[e.b].logs);
      hide Inv, LogsMatch, SeedsOk, Light;
      if e.Stage? && x.pc.Ready? {
        LightStage(s.shared, s.cap, x, e);
      } else if e.CommitSub? && x.pc.Ready? && |x.logs| >= 2 {
        LightRelease(x);
      } else if e.Begin? && x.pc.Checked? {
        LightMerges(x.stack, x.logs, |x.stack|);
        assert x.stack[..|x.stack|] == x.stack;
      }
    }
  }

  /** In every run whose open transactions stay light, no staged sum saturates, so the
      condition `exact` of CommitsAddUp holds. */
  lemma {:induction false} LightRunsAreExact(s: State, es: seq<Event>)
    requires Start(s)
    requires forall n :: 0 <= n <= |es| ==> LightState(Run(s, es[..n]))
    ensures Run(s, es).exact
  {
    hide LightState, Inv, Next;
    if es != [] {
      var m := |es| - 1;
      forall n | 0 <= n <= m
        ensures LightState(Run(s, es[..m][..n]))
      {
        assert es[..m][..n] == es[..n];
        assert LightState(Run(s, es[..n]));
      }
      LightRunsAreExact(s, es[..m]);
      StartIsFine(s);
      RunKeepsInv(s, es[..m]);
      assert LightState(Run(s, es[..m]));
      assert es[..|es|] == es;
      assert LightState(Run(s, es[..|es|]));
      LightStep(Run(s, es[..m]), es[m]);
    }
  }

  // ---- Exactly when a stored delta is the sum -----------------------------------

  lemma SatIsExactIff(a: Pair)
    ensures SatPair(a) == a <==> Fits(a)
  {
  }

  /** Staging stores the sum of what was there and the delta if and only if the key has
      no entry in the top frame yet or the sum fits in 64 bits. */
  lemma StageIsExactIff(m: Shared, cap: nat, x: Backend, e: Event)
    requires e.Stage? && x.pc.Ready?
    ensures var top, y := Top(EnsureTop(x.stack)), LocalStep(m, cap, x, e);
            && y.stack != []
            && (DeltaOf(Top(y.stack), e.key) == Plus(DeltaOf(top, e.key), e.delta)
                <==> (e.key in top ==> Fits(Plus(top[e.key].delta, e.delta))))
  {
    var top := Top(EnsureTop(x.stack));
    if e.key in top {
      SatIsExactIff(Plus(top[e.key].delta, e.delta));
    } else {
      PlusZero(e.delta);
    }
    hide SatPair, Fits;
  }

  /** Merging stores the sum for a key if and only if one side has none or it fits. */
  lemma MergeIsExactIff(parent: Frame, child: Frame, k: Key)
    ensures DeltaOf(MergeFrame(parent, child), k) == Plus(DeltaOf(parent, k), DeltaOf(child, k))
       <==> (k in parent && k in child ==> Fits(Plus(parent[k].delta, child[k].delta)))
  {
    hide SatPair, Fits, Plus;
    MergedAt(parent, child, k);
    PlusZero(DeltaOf(parent, k));
    PlusZero(DeltaOf(child, k));
    if k in parent && k in child {
      SatIsExactIff(Plus(parent[k].delta, child[k].delta));
    }
    hide MergeFrame;
  }

  lemma MergedAt(parent: Frame, child: Frame, k: Key)
    ensures DeltaOf(MergeFrame(parent, child), k)
         == if k in parent && k in child then SatPair(Plus(parent[k].delta, child[k].delta))
            else if k in parent then parent[k].delta else DeltaOf(child, k)
  {
    hide SatPair, Plus;
  }

  // ---- A run that loses a delta ---------------------------------------------------

  lemma {:induction false} RunAppend(s: State, a: seq<Event>, b: seq<Event>)
    ensures Run(s, a + b) == Run(Run(s, a), b)
  {
    hide Next;
    if b == [] {
      assert a + b == a;
    } else {
      var n := |b| - 1;
      RunAppend(s, a, b[..n]);
      assert (a + b)[..|a + b| - 1] == a + b[..n];
    }
  }

  lemma RunOne(s: State, e: Event)
    ensures Run(s, [e]) == Next(s, e)
  {
    hide Next;
    assert [e][..0] == [];
    assert Run(s, []) == s;
  }

  lemma RunTwo(s: State, e: Event, f: Event)
    ensures Run(s, [e, f]) == Next(Next(s, e), f)
  {
    hide Next;
    assert [e, f] == [e] + [f];
    RunAppend(s, [e], [f]);
    RunOne(s, e);
    RunOne(Run(s, [e]), f);
  }

  lemma RunThree(s: State, e: Event, f: Event, g: Event)
    ensures Run(s, [e, f, g]) == Next(Next(Next(s, e), f), g)
  {
    hide Next;
    assert [e, f, g] == [e, f] + [g];
    RunAppend(s, [e, f], [g]);
    RunTwo(s, e, f);
    RunOne(Run(s, [e, f]), g);
  }

  /** The only backend does something that touches neither table nor history. */
  lemma OnlyBackend(s: State, e: Event, x: Backend, y: Backend)
    requires s.backends == [x] && !e.DrainUpsert? && !e.Update? && !e.Insert? && !e.Begin? && e.b == 0
    requires LocalStep(s.shared, s.cap, x, e) == y
    ensures Next(s, e) == s.(backends := [y], exact := s.exact && StepFits(x, e))
  {
    hide LocalStep, StepFits;
    assert [x][0 := y] == [y];
  }

  function Entry(d: Pair): Pending {
    Pending(d, NoSeed, true)
  }

  /** The top frame with a new entry for key 0. */
  function WithNew(stack: seq<Frame>, e: Pending): seq<Frame>
    requires stack != []
  {
    var f: Frame := Top(stack)[0 := e];
    SetTop(stack, f)
  }

  lemma StageStep(m: Shared, cap: nat, x: Backend, d: Pair)
    requires x.pc == Ready && x.stack != [] && 0 !in Top(x.stack)
    ensures LocalStep(m, cap, x, Stage(0, 0, d))
         == Backend(WithNew(x.stack, Pending(d, NoSeed, false)), Probing(0), AddTo(x.logs, Staged(0, d)))
    ensures StepFits(x, Stage(0, 0, d)) <==> Fits(d)
  {
    hide SatPair, Fits, AddTo;
  }

  lemma ProbeStep(m: Shared, cap: nat, x: Backend)
    requires x.pc == Probing(0) && 0 !in m.cells
    ensures LocalStep(m, cap, x, Probe(0)) == x.(pc := Seeding(0, false)) && StepFits(x, Probe(0))
  {
  }

  lemma CaptureStep(m: Shared, cap: nat, x: Backend, stack: seq<Frame>, d: Pair)
    requires x.pc == Seeding(0, false) && stack != [] && 0 !in m.rows
    requires x.stack == WithNew(stack, Pending(d, NoSeed, false))
    ensures LocalStep(m, cap, x, Capture(0)) == Backend(WithNew(stack, Entry(d)), Ready, x.logs)
    ensures StepFits(x, Capture(0))
  {
    var top := Top(stack);
    assert Top(x.stack)[0 := Entry(d)] == top[0 := Entry(d)];
    assert SetTop(x.stack, top[0 := Entry(d)]) == SetTop(stack, top[0 := Entry(d)]);
  }

  /** A delta for a key without cell or row goes into the top frame. */
  lemma StagesNew(s: State, x: Backend, d: Pair)
    requires s.backends == [x] && x.pc == Ready && x.stack != [] && 0 !in Top(x.stack)
    requires 0 !in s.shared.cells && 0 !in s.shared.rows && Fits(d)
    ensures Run(s, [Stage(0, 0, d), Probe(0), Capture(0)])
         == s.(backends := [Backend(WithNew(x.stack, Entry(d)), Ready, AddTo(x.logs, Staged(0, d)))])
  {
    hide LocalStep, StepFits, Next, Run, WithNew, AddTo, Fits;
    var y := Backend(WithNew(x.stack, Pending(d, NoSeed, false)), Probing(0), AddTo(x.logs, Staged(0, d)));
    var z := Backend(WithNew(x.stack, Entry(d)), Ready, y.logs);
    StageStep(s.shared, s.cap, x, d);
    ProbeStep(s.shared, s.cap, y);
    CaptureStep(s.shared, s.cap, y.(pc := Seeding(0, false)), x.stack, d);
    OnlyBackend(s, Stage(0, 0, d), x, y);
    OnlyBackend(s.(backends := [y]), Probe(0), y, y.(pc := Seeding(0, false)));
    OnlyBackend(s.(backends := [y.(pc := Seeding(0, false))]), Capture(0), y.(pc := Seeding(0, false)), z);
    RunThree(s, Stage(0, 0, d), Probe(0), Capture(0));
  }

  lemma StartsSub(s: State, x: Backend)
    requires s.backends == [x] && x.pc == Ready
    ensures Run(s, [StartSub(0)]) == s.(backends := [Backend(x.stack + [map[]], Ready, x.logs + [[]])])
  {
    hide Next, Run;
    RunOne(s, StartSub(0));
    OnlyBackend(s, StartSub(0), x, Backend(x.stack + [map[]], Ready, x.logs + [[]]));
  }

  lemma ReleaseStep(s: State, x: Backend, p: Frame, c: Frame, l1: seq<Staged>, l2: seq<Staged>)
    requires s.backends == [x] && x == Backend([p, c], Ready, [l1, l2])
    ensures Run(s, [CommitSub(0)])
         == s.(backends := [Backend([MergeFrame(p, c)], Ready, [l1 + l2])], exact := s.exact && MergeFits(p, c))
  {
    hide Next, Run, MergeFrame, MergeFits;
    var y := Backend([MergeFrame(p, c)], Ready, [l1 + l2]);
    RunOne(s, CommitSub(0));
    assert Released([p, c]) == y.stack by {
      assert [p, c][..1] == [p] && [p][0 := MergeFrame(p, c)] == [MergeFrame(p, c)];
    }
    assert ReleaseLog([l1, l2]) == y.logs by {
      assert [l1, l2][..0] == [] && [] + [l1 + l2] == [l1 + l2];
    }
    hide Released, ReleaseLog;
    assert LocalStep(s.shared, s.cap, x, CommitSub(0)) == y;
    OnlyBackend(s, CommitSub(0), x, y);
  }

  lemma CheckStep(s: State, f: Frame, logs: seq<seq<Staged>>)
    requires s.backends == [Backend([f], Ready, logs)] && f.Keys == {0} && s.shared.cells == map[] && s.cap >= 1
    ensures Next(s, PreCommit(0)) == s.(backends := [Backend([f], Checked, logs)])
  {
    assert HasRoom(s.shared, s.cap, [f]) by {
      var stack := [f];
      assert stack[..0] == [] && StackKeys(stack[..0]) == {};
      assert StackKeys(stack) == {0} && {0} - s.shared.cells.Keys == {0};
    }
    hide HasRoom, Next;
    OnlyBackend(s, PreCommit(0), Backend([f], Ready, logs), Backend([f], Checked, logs));
  }

  lemma BeginStep(s: State, e: Pending, log: seq<Staged>)
    requires s.backends == [Backend([map[0 := e]], Checked, [log])]
    ensures var t := Next(s, Begin(0));
            && t.backends == [Fresh().(pc := Committing(map[0 := Todo(e, false)]))] && t.shared == s.shared
            && t.survived == s.survived + log && t.cap == s.cap && t.lost == s.lost
  {
    var f: Frame := map[0 := e];
    var x := Backend([f], Checked, [log]);
    assert MergeAll([f]) == f by {
      var stack := [f];
      assert stack[..0] == [] && MergeAll(stack[..0]) == map[];
      assert MergeFrame(map[], f) == f;
    }
    assert Flatten([log]) == log by {
      assert [log][..0] == [] && [] + log == log;
      assert Flatten([log][..0]) == [];
    }
    hide MergeAll, Flatten, StepFits;
    var y := Fresh().(pc := Committing(map[0 := Todo(e, false)]));
    var z := LocalStep(s.shared, s.cap, x, Begin(0));
    assert z.pc.Committing? && z.pc.todo == map[0 := Todo(e, false)];
    assert z == y && s.backends[0 := y] == [y];
    hide LocalStep;
  }

  lemma UpdateMisses(s: State, e: Pending)
    requires s.backends == [Fresh().(pc := Committing(map[0 := Todo(e, false)]))] && 0 !in s.shared.cells
    ensures Next(s, Update(0, 0)) == s.(backends := [Fresh().(pc := Committing(map[0 := Todo(e, true)]))])
  {
    var y := Fresh().(pc := Committing(map[0 := Todo(e, true)]));
    var todo := s.backends[0].pc.todo;
    assert todo[0 := todo[0].(missed := true)] == map[0 := Todo(e, true)];
    assert s.backends[0 := y] == [y];
    hide LocalStep, StepFits;
  }

  lemma InsertLands(s: State, d: Pair)
    requires s.backends == [Fresh().(pc := Committing(map[0 := Todo(Entry(d), true)]))]
    requires s.shared.cells == map[] && s.cap >= 1 && Fits(d)
    ensures Next(s, Insert(0, 0))
         == s.(backends := [Fresh().(pc := Committing(map[]))], shared := s.shared.(cells := map[0 := d]))
  {
    var y := Fresh().(pc := Committing(map[]));
    var todo := s.backends[0].pc.todo;
    assert AllMissed(todo) && todo - {0} == map[];
    assert s.backends[0 := y] == [y];
    assert AddPair(ZERO, d) == d;
    hide LocalStep, StepFits, AddPair;
    assert s.shared.cells[0 := d] == map[0 := d];
  }

  /** A transaction whose only frame holds one new key commits. */
  lemma Commits(s: State, d: Pair, log: seq<Staged>)
    requires s.backends == [Backend([map[0 := Entry(d)]], Ready, [log])]
    requires s.shared.cells == map[] && s.cap >= 1 && Fits(d)
    ensures var t := Run(s, [PreCommit(0), Begin(0), Update(0, 0)] + [Insert(0, 0), Finish(0)]);
            && t.backends == [Fresh()] && t.shared == s.shared.(cells := map[0 := d])
            && t.survived == s.survived + log && t.lost == s.lost
  {
    hide Next, Run, Fits;
    RunAppend(s, [PreCommit(0), Begin(0), Update(0, 0)], [Insert(0, 0), Finish(0)]);
    RunThree(s, PreCommit(0), Begin(0), Update(0, 0));
    CheckStep(s, map[0 := Entry(d)], [log]);
    var s1 := Next(s, PreCommit(0));
    BeginStep(s1, Entry(d), log);
    var s2 := Next(s1, Begin(0));
    UpdateMisses(s2, Entry(d));
    var s3 := Next(s2, Update(0, 0));
    RunTwo(s3, Insert(0, 0), Finish(0));
    InsertLands(s3, d);
    var s4 := Next(s3, Insert(0, 0));
    OnlyBackend(s4, Finish(0), Fresh().(pc := Committing(map[])), Fresh()) by {
      hide StepFits;
    }
    hide LocalStep;
  }

  const TOP: Pair := Pair(I64_MAX, 0)
  const ONE: Pair := Pair(1, 0)

  function SaturatingRun(): seq<Event> {
    [Stage(0, 0, TOP), Probe(0), Capture(0)] + [StartSub(0)] + [Stage(0, 0, ONE), Probe(0), Capture(0)]
    + [CommitSub(0)] + ([PreCommit(0), Begin(0), Update(0, 0)] + [Insert(0, 0), Finish(0)])
  }

  lemma MergeSaturates()
    ensures MergeFrame(map[0 := Entry(TOP)], map[0 := Entry(ONE)]) == map[0 := Entry(TOP)]
  {
    TopAbsorbs();
    hide MergeEntry, SatPair, Plus, Entry;
    var max: Frame, one: Frame := map[0 := Entry(TOP)], map[0 := Entry(ONE)];
    var m := MergeFrame(max, one);
    assert m.Keys == {0} && m[0] == MergeEntry(max[0], one[0]);
  }

  lemma TopAbsorbs()
    ensures MergeEntry(Entry(TOP), Entry(ONE)) == Entry(TOP)
  {
  }

  /** One idle backend and a table with room for one cell. */
  function Empty(): State {
    State(Shared(map[], map[]), [Fresh()], 1, Shared(map[], map[]), [], true, false)
  }

  /** Stage the largest amount, one more in a savepoint, and release it. */
  lemma StagesBoth()
    ensures var s := Empty();
            var p := [Stage(0, 0, TOP), Probe(0), Capture(0)] + [StartSub(0)]
                     + [Stage(0, 0, ONE), Probe(0), Capture(0)];
            var t := Run(s, p);
            && t == s.(backends := [Backend([map[0 := Entry(TOP)], map[0 := Entry(ONE)]], Ready,
                                            [[Staged(0, TOP)], [Staged(0, ONE)]])])
  {
    hide Next, Run;
    var s := Empty();
    var p1, p3 := [Stage(0, 0, TOP), Probe(0), Capture(0)], [Stage(0, 0, ONE), Probe(0), Capture(0)];
    var max: Frame, one: Frame, none: Frame := map[0 := Entry(TOP)], map[0 := Entry(ONE)], map[];
    var x1 := Backend([max], Ready, [[Staged(0, TOP)]]);
    StagesNew(s, Fresh(), TOP);
    assert none[0 := Entry(TOP)] == max && none[0 := Entry(ONE)] == one;
    assert WithNew([none], Entry(TOP)) == [max];
    assert AddTo([[]], Staged(0, TOP)) == [[Staged(0, TOP)]] by {
      assert [] + [Staged(0, TOP)] == [Staged(0, TOP)];
    }
    var s1 := s.(backends := [x1]);
    StartsSub(s1, x1);
    var x2 := Backend([max, none], Ready, [[Staged(0, TOP)], []]);
    assert [max] + [none] == x2.stack && [[Staged(0, TOP)]] + [[]] == x2.logs;
    var s2 := s.(backends := [x2]);
    StagesNew(s2, x2, ONE);
    assert WithNew([max, none], Entry(ONE)) == [max, one];
    assert AddTo(x2.logs, Staged(0, ONE)) == [[Staged(0, TOP)], [Staged(0, ONE)]] by {
      assert [] + [Staged(0, ONE)] == [Staged(0, ONE)];
    }
    RunAppend(s, p1, [StartSub(0)]);
    RunAppend(s, p1 + [StartSub(0)], p3);
  }

  /** Beyond that bound a committed delta can be lost: after this run of one backend no
      commit is under way and no insert was refused, but the reader sees the largest
      amount and not the wrapped sum of the two deltas that survived. */
  lemma SaturationLosesADelta()
    ensures var s := Empty();
            var t := Run(s, SaturatingRun());
            && Start(s) && Quiet(t) && !t.lost
            && View(t.shared, 0) == Pair(I64_MAX, 0)
            && WrapPair(Plus(View(s.shared, 0), Sum(t.survived, 0))) == Pair(I64_MIN, 0)
  {
    hide Next, Run, Start, Sum, WrapPair, Plus, MergeFrame, MergeFits, Fits;
    var s := Empty();
    var p := [Stage(0, 0, TOP), Probe(0), Capture(0)] + [StartSub(0)] + [Stage(0, 0, ONE), Probe(0), Capture(0)];
    var q := [PreCommit(0), Begin(0), Update(0, 0)] + [Insert(0, 0), Finish(0)];
    StagesBoth();
    var s1 := Run(s, p);
    var max: Frame, one: Frame := map[0 := Entry(TOP)], map[0 := Entry(ONE)];
    ReleaseStep(s1, s1.backends[0], max, one, [Staged(0, TOP)], [Staged(0, ONE)]);
    MergeSaturates();
    var s2 := Run(s1, [CommitSub(0)]);
    TopFits();
    Commits(s2, TOP, [Staged(0, TOP)] + [Staged(0, ONE)]);
    RunAppend(s, p, [CommitSub(0)]);
    RunAppend(s, p + [CommitSub(0)], q);
    var t := Run(s2, q);
    assert t.survived == [Staged(0, TOP)] + [Staged(0, ONE)];
    StartsEmpty();
    SumsToMin();
  }

  lemma TopFits()
    ensures Fits(TOP)
  {
  }

  lemma StartsEmpty()
    ensures Start(Empty())
  {
  }

  lemma SumsToMin()
    ensures WrapPair(Plus(View(Empty().shared, 0), Sum([Staged(0, TOP)] + [Staged(0, ONE)], 0))) == Pair(I64_MIN, 0)
  {
    hide Sum, WrapPair, Plus;
    TotalWraps();
    SumEmpty(0);
    SumNext([], 0, TOP, 0);
    assert [] + [Staged(0, TOP)] == [Staged(0, TOP)];
    SumNext([Staged(0, TOP)], 0, ONE, 0);
  }

  lemma TotalWraps()
    ensures WrapPair(Plus(ZERO, Plus(Plus(ZERO, TOP), ONE))) == Pair(I64_MIN, 0)
  {
  }
}

/**
  Transactions of the balance arena (lib.rs): every backend stages deltas in a stack
  of frames, savepoints push, merge and pop frames, and commit applies the merged
  deltas in two passes to a shared insert-only table. Keys that have no cell yet start
  from the rollup row captured when they were first staged. Steps of any number of
  backends and of the drain interleave freely.

  Applying one staged delta is one step here; BalanceDrain splits it into its atomic
  accesses. Inserts of other backends may fall between any two steps, which is more
  than the table lock allows.
*/
module BalanceTransaction {
  import opened BalancePair

  type Key = nat

  datatype Stored = Stored(bal: Pair, lastSeq: nat)
  datatype Seed = NoSeed | Seed(row: Stored)
  datatype Pending = Pending(delta: Pair, seed: Seed, captured: bool)
  type Frame = map<Key, Pending>
  datatype Staged = Staged(key: Key, delta: Pair)

  /** What is left of a commit: an entry is `missed` once pass 1 found no cell. */
  datatype Todo = Todo(entry: Pending, missed: bool)

  datatype Pc =
    | Ready
    | Probing(key: Key)
    | Seeding(key: Key, found: bool)
    | Checked
    | Committing(todo: map<Key, Todo>)

  /** `logs` is history: what was staged, one list for the transaction and one for
      each open savepoint. `stack` may lack the transaction's own frame. */
  datatype Backend = Backend(stack: seq<Frame>, pc: Pc, logs: seq<seq<Staged>>)

  datatype Shared = Shared(cells: map<Key, Pair>, rows: map<Key, Stored>)

  /** `cells0`, `rows0`, `survived`, `exact` and `lost` are history: the start, the
      deltas whose transaction committed, whether no staging sum saturated, and
      whether some insert found the table full. */
  datatype State = State(
    shared: Shared, backends: seq<Backend>, cap: nat,
    start: Shared, survived: seq<Staged>, exact: bool, lost: bool)

  // ---- What a reader sees ---------------------------------------------------

  /** `balance()`: the cell, else the rollup row, else zero. */
  function View(m: Shared, k: Key): Pair {
    if k in m.cells then m.cells[k] else if k in m.rows then m.rows[k].bal else ZERO
  }

  function SeedAt(m: Shared, k: Key): Seed {
    if k in m.rows then Seed(m.rows[k]) else NoSeed
  }

  // ---- Frames ---------------------------------------------------------------

  function DeltaOf(f: Frame, k: Key): Pair {
    if k in f then f[k].delta else ZERO
  }

  /** `merge_entry` on an occupied key: the first captured seed wins. */
  function MergeEntry(e: Pending, x: Pending): Pending {
    var sum := SatPair(Plus(e.delta, x.delta));
    if e.captured then e.(delta := sum) else Pending(sum, x.seed, x.captured)
  }

  function MergeFrame(parent: Frame, child: Frame): Frame {
    map k | k in parent.Keys + child.Keys ::
      if k !in child then parent[k] else if k !in parent then child[k] else MergeEntry(parent[k], child[k])
  }

  /** No sum of this merge saturates. */
  predicate MergeFits(parent: Frame, child: Frame) {
    forall k :: k in parent && k in child ==> Fits(Plus(parent[k].delta, child[k].delta))
  }

  /** `drain_pending_stack`: all frames merged, bottom first. */
  function MergeAll(stack: seq<Frame>): Frame {
    if stack == [] then map[] else MergeFrame(MergeAll(stack[..|stack| - 1]), stack[|stack| - 1])
  }

  predicate MergeAllFits(stack: seq<Frame>) {
    stack == [] || (MergeAllFits(stack[..|stack| - 1]) && MergeFits(MergeAll(stack[..|stack| - 1]), stack[|stack| - 1]))
  }

  function EnsureTop(stack: seq<Frame>): seq<Frame> {
    if stack == [] then [map[]] else stack
  }

  function SetTop(stack: seq<Frame>, f: Frame): seq<Frame>
    requires stack != []
  {
    stack[|stack| - 1 := f]
  }

  function Top(stack: seq<Frame>): Frame
    requires stack != []
  {
    stack[|stack| - 1]
  }

  /** `subxact_commit_sub`: merge the popped frame into its parent, or keep it when
      it was the only one. */
  function Released(stack: seq<Frame>): seq<Frame> {
    if stack == [] then [map[]]
    else if |stack| == 1 then stack
    else SetTop(stack[..|stack| - 1], MergeFrame(stack[|stack| - 2], Top(stack)))
  }

  predicate ReleaseFits(stack: seq<Frame>) {
    |stack| >= 2 ==> MergeFits(stack[|stack| - 2], Top(stack))
  }

  /** `subxact_abort_sub`. */
  function RolledBack(stack: seq<Frame>): seq<Frame> {
    if |stack| <= 1 then [map[]] else stack[..|stack| - 1]
  }

  // ---- Steps ----------------------------------------------------------------

  datatype Event =
    | Stage(b: nat, key: Key, delta: Pair)
    | Probe(b: nat)
    | Capture(b: nat)
    | StartSub(b: nat)
    | CommitSub(b: nat)
    | AbortSub(b: nat)
    | Abort(b: nat)
    | PreCommit(b: nat)
    | Begin(b: nat)
    | Update(b: nat, key: Key)
    | Insert(b: nat, key: Key)
    | Finish(b: nat)
    | DrainUpsert(key: Key, row: Stored)

  function LocalStep(m: Shared, cap: nat, x: Backend, e: Event): Backend {
    match (e, x.pc)
    case (Stage(_, k, d), Ready) =>
      var stack := EnsureTop(x.stack);
      var logs := AddTo(x.logs, Staged(k, d));
      if k in Top(stack) then
        var was := Top(stack)[k];
        var f: Frame := Top(stack)[k := was.(delta := SatPair(Plus(was.delta, d)))];
        Backend(SetTop(stack, f), Ready, logs)
      else
        var f: Frame := Top(stack)[k := Pending(d, NoSeed, false)];
        Backend(SetTop(stack, f), Probing(k), logs)
    case (Probe(_), Probing(k)) => x.(pc := Seeding(k, k in m.cells))
    case (Capture(_), Seeding(k, found)) =>
      if x.stack != [] && k in Top(x.stack) then
        var was := Top(x.stack)[k];
        var f: Frame := Top(x.stack)[k := Pending(was.delta, if found then NoSeed else SeedAt(m, k), true)];
        Backend(SetTop(x.stack, f), Ready, x.logs)
      else x.(pc := Ready)
    case (StartSub(_), Ready) => x.(stack := x.stack + [map[]], logs := x.logs + [[]])
    case (CommitSub(_), Ready) =>
      if |x.logs| >= 2 then x.(stack := Released(x.stack), logs := ReleaseLog(x.logs)) else x
    case (AbortSub(_), Ready) =>
      if |x.logs| >= 2 then x.(stack := RolledBack(x.stack), logs := x.logs[..|x.logs| - 1]) else x
    case (Abort(_), Ready) => Fresh()
    case (Abort(_), Probing(_)) => Fresh()
    case (Abort(_), Seeding(_, _)) => Fresh()
    case (Abort(_), Checked) => Fresh()
    case (PreCommit(_), Ready) => if HasRoom(m, cap, x.stack) then x.(pc := Checked) else Fresh()
    case (Begin(_), Checked) =>
      var merged := MergeAll(x.stack);
      Fresh().(pc := Committing(map k | k in merged :: Todo(merged[k], false)))
    case (Finish(_), Committing(todo)) => if todo == map[] then x.(pc := Ready) else x
    case _ => x
  }

  function Fresh(): Backend {
    Backend([map[]], Ready, [[]])
  }

  function AddTo(logs: seq<seq<Staged>>, d: Staged): seq<seq<Staged>> {
    if logs == [] then [[d]] else logs[|logs| - 1 := logs[|logs| - 1] + [d]]
  }

  function ReleaseLog(logs: seq<seq<Staged>>): seq<seq<Staged>>
    requires |logs| >= 2
  {
    logs[..|logs| - 2] + [logs[|logs| - 2] + logs[|logs| - 1]]
  }

  function StackKeys(stack: seq<Frame>): set<Key> {
    if stack == [] then {} else StackKeys(stack[..|stack| - 1]) + stack[|stack| - 1].Keys
  }

  /** `xact_pre_commit`: the distinct staged keys without a cell must still fit. */
  predicate HasRoom(m: Shared, cap: nat, stack: seq<Frame>) {
    RoomFor(m.cells, cap, StackKeys(stack))
  }

  predicate RoomFor(cells: map<Key, Pair>, cap: nat, keys: set<Key>) {
    var newInserts := |keys - cells.Keys|;
    newInserts == 0 || |cells| + newInserts <= cap
  }

  /** Whether the step saturates no staged sum. */
  predicate StepFits(x: Backend, e: Event) {
    match (e, x.pc)
    case (Stage(_, k, d), Ready) =>
      var top := Top(EnsureTop(x.stack));
      Fits(d) && (k in top ==> Fits(Plus(top[k].delta, d)))
    case (CommitSub(_), Ready) => |x.logs| >= 2 ==> ReleaseFits(x.stack)
    case (Begin(_), Checked) => MergeAllFits(x.stack)
    case _ => true
  }

  function ApplyTo(m: Shared, k: Key, d: Pair): Shared
    requires k in m.cells
  {
    m.(cells := m.cells[k := AddPair(m.cells[k], d)])
  }

  /** `insert_new_seeded`. */
  function InsertInto(m: Shared, k: Key, e: Pending): Shared {
    m.(cells := m.cells[k := AddPair(if e.seed.Seed? then e.seed.row.bal else ZERO, e.delta)])
  }

  function SetBackend(s: State, b: nat, x: Backend): State
    requires b < |s.backends|
  {
    s.(backends := s.backends[b := x])
  }

  predicate AllMissed(todo: map<Key, Todo>) {
    forall k :: k in todo ==> todo[k].missed
  }

  /** Pass 1 for one key. */
  function UpdateStep(s: State, b: nat, k: Key): State
    requires b < |s.backends|
  {
    var x := s.backends[b];
    if x.pc.Committing? && k in x.pc.todo && !x.pc.todo[k].missed then
      if k in s.shared.cells then
        SetBackend(s, b, x.(pc := Committing(x.pc.todo - {k})))
          .(shared := ApplyTo(s.shared, k, x.pc.todo[k].entry.delta))
      else SetBackend(s, b, x.(pc := Committing(x.pc.todo[k := x.pc.todo[k].(missed := true)])))
    else s
  }

  /** Pass 2 for one key: probe again, else insert; a full table drops the delta. */
  function InsertStep(s: State, b: nat, k: Key): State
    requires b < |s.backends|
  {
    var x := s.backends[b];
    if x.pc.Committing? && k in x.pc.todo && AllMissed(x.pc.todo) then
      var e := x.pc.todo[k].entry;
      var t := SetBackend(s, b, x.(pc := Committing(x.pc.todo - {k})));
      if k in s.shared.cells then t.(shared := ApplyTo(s.shared, k, e.delta))
      else if |s.shared.cells| < s.cap then t.(shared := InsertInto(s.shared, k, e))
      else t.(lost := true)
    else s
  }

  function Next(s: State, e: Event): State {
    if e.DrainUpsert? then
      if e.key in s.shared.cells then s.(shared := s.shared.(rows := s.shared.rows[e.key := e.row])) else s
    else if e.b >= |s.backends| then s
    else if e.Update? then UpdateStep(s, e.b, e.key)
    else if e.Insert? then InsertStep(s, e.b, e.key)
    else
      var x := s.backends[e.b];
      SetBackend(s, e.b, LocalStep(s.shared, s.cap, x, e))
        .(exact := s.exact && StepFits(x, e),
          survived := if e.Begin? && x.pc.Checked? then s.survived + Flatten(x.logs) else s.survived)
  }

  function Run(s: State, es: seq<Event>): State {
    if es == [] then s else Next(Run(s, es[..|es| - 1]), es[|es| - 1])
  }

  function Flatten(logs: seq<seq<Staged>>): seq<Staged> {
    if logs == [] then [] else Flatten(logs[..|logs| - 1]) + logs[|logs| - 1]
  }

  function Sum(log: seq<Staged>, k: Key): Pair {
    if log == [] then ZERO
    else Plus(Sum(log[..|log| - 1], k), if log[|log| - 1].key == k then log[|log| - 1].delta else ZERO)
  }

  // ---- Seeds are never stale ------------------------------------------------

  /** A captured seed is the current row for as long as the key has no cell. */
  ghost predicate EntryOk(m: Shared, k: Key, p: Pending) {
    p.captured && (k in m.cells || p.seed == SeedAt(m, k))
  }

  predicate MidStage(pc: Pc, k: Key) {
    (pc.Probing? || pc.Seeding?) && pc.key == k
  }

  ghost predicate FrameOk(m: Shared, f: Frame) {
    forall k :: k in f ==> EntryOk(m, k, f[k])
  }

  ghost predicate SeedsOk(m: Shared, x: Backend) {
    && (forall i :: 0 <= i < |x.stack| - 1 ==> FrameOk(m, x.stack[i]))
    && (x.stack != [] ==> forall k :: k in Top(x.stack) && !MidStage(x.pc, k) ==> EntryOk(m, k, Top(x.stack)[k]))
    && (x.pc.Probing? || x.pc.Seeding? ==> x.stack != [] && x.pc.key in Top(x.stack))
    && (x.pc.Seeding? && x.pc.found ==> x.pc.key in m.cells)
    && (x.pc.Committing? ==> forall k :: k in x.pc.todo ==> EntryOk(m, k, x.pc.todo[k].entry))
  }

  lemma MergeFrameOk(m: Shared, parent: Frame, child: Frame)
    requires FrameOk(m, parent) && FrameOk(m, child)
    ensures FrameOk(m, MergeFrame(parent, child))
  {
  }

  lemma {:induction false} MergeAllOk(m: Shared, stack: seq<Frame>)
    requires forall i :: 0 <= i < |stack| ==> FrameOk(m, stack[i])
    ensures FrameOk(m, MergeAll(stack))
  {
    if stack != [] {
      hide FrameOk;
      MergeAllOk(m, stack[..|stack| - 1]);
      MergeFrameOk(m, MergeAll(stack[..|stack| - 1]), stack[|stack| - 1]);
    }
  }

  lemma TopOk(m: Shared, x: Backend)
    requires SeedsOk(m, x) && (x.pc.Ready? || x.pc.Checked?)
    ensures forall i :: 0 <= i < |x.stack| ==> FrameOk(m, x.stack[i])
  {
    if x.stack != [] {
      assert FrameOk(m, Top(x.stack));
    }
  }

  lemma StageSeeds(m: Shared, cap: nat, x: Backend, e: Event)
    requires SeedsOk(m, x) && (e.Stage? || e.Probe? || e.Capture?)
    ensures SeedsOk(m, LocalStep(m, cap, x, e))
  {
    hide SatPair;
  }

  lemma SavepointSeeds(m: Shared, cap: nat, x: Backend, e: Event)
    requires SeedsOk(m, x) && (e.StartSub? || e.CommitSub? || e.AbortSub?)
    ensures SeedsOk(m, LocalStep(m, cap, x, e))
  {
    if x.pc.Ready? {
      var y := LocalStep(m, cap, x, e);
      TopOk(m, x);
      if e.CommitSub? && |x.stack| >= 2 {
        MergeFrameOk(m, x.stack[|x.stack| - 2], Top(x.stack));
      }
      hide MergeFrame, EntryOk;
      assert forall i :: 0 <= i < |y.stack| ==> FrameOk(m, y.stack[i]);
      if y.stack != [] {
        assert FrameOk(m, Top(y.stack));
      }
    }
  }

  lemma CommitSeeds(m: Shared, cap: nat, x: Backend, e: Event)
    requires SeedsOk(m, x) && (e.Abort? || e.PreCommit? || e.Begin? || e.Finish?)
    ensures SeedsOk(m, LocalStep(m, cap, x, e))
  {
    hide MergeAll, HasRoom, EntryOk, MergeFrame;
    if e.Begin? && x.pc.Checked? {
      TopOk(m, x);
      MergeAllOk(m, x.stack);
    }
  }

  /** Cells stay, and a row changes only under an existing cell. */
  ghost predicate Grows(m: Shared, n: Shared) {
    && m.cells.Keys <= n.cells.Keys
    && forall k :: k !in n.cells ==> SeedAt(n, k) == SeedAt(m, k)
  }

  lemma GrowthKeepsSeeds(m: Shared, n: Shared, x: Backend)
    requires SeedsOk(m, x) && Grows(m, n)
    ensures SeedsOk(n, x)
  {
    assert forall k, p :: EntryOk(m, k, p) ==> EntryOk(n, k, p);
  }

  // ---- Frames carry the exact sums ------------------------------------------

  lemma MergeFrameDelta(parent: Frame, child: Frame, k: Key)
    requires MergeFits(parent, child)
    ensures DeltaOf(MergeFrame(parent, child), k) == Plus(DeltaOf(parent, k), DeltaOf(child, k))
  {
    hide Plus, Fits;
    PlusZero(DeltaOf(parent, k));
    PlusZero(DeltaOf(child, k));
  }

  function StackSum(stack: seq<Frame>, k: Key): Pair {
    if stack == [] then ZERO else Plus(StackSum(stack[..|stack| - 1], k), DeltaOf(stack[|stack| - 1], k))
  }

  lemma {:induction false} MergeAllDelta(stack: seq<Frame>, k: Key)
    requires MergeAllFits(stack)
    ensures DeltaOf(MergeAll(stack), k) == StackSum(stack, k)
  {
    if stack != [] {
      MergeAllDelta(stack[..|stack| - 1], k);
      MergeFrameDelta(MergeAll(stack[..|stack| - 1]), stack[|stack| - 1], k);
      hide MergeFrame, MergeFits, Plus;
    }
  }

  lemma {:induction false} SumAppend(a: seq<Staged>, b: seq<Staged>, k: Key)
    ensures Sum(a + b, k) == Plus(Sum(a, k), Sum(b, k))
  {
    hide Plus;
    if b == [] {
      assert a + b == a;
      PlusZero(Sum(a, k));
    } else {
      SumAppend(a, b[..|b| - 1], k);
      assert (a + b)[..|a + b| - 1] == a + b[..|b| - 1];
      PlusAssoc(Sum(a, k), Sum(b[..|b| - 1], k), if b[|b| - 1].key == k then b[|b| - 1].delta else ZERO);
    }
  }

  ghost predicate Holds(f: Frame, log: seq<Staged>) {
    forall k :: DeltaOf(f, k) == Sum(log, k)
  }

  /** Each frame holds the sums of its own savepoint. The transaction's own frame
      may be missing, and then nothing has been staged outside the savepoints. */
  ghost predicate LogsMatch(stack: seq<Frame>, logs: seq<seq<Staged>>) {
    var off := |logs| - |stack|;
    && logs != [] && 0 <= off <= 1 && (off == 1 ==> logs[0] == [])
    && forall i :: 0 <= i < |stack| ==> Holds(stack[i], logs[i + off])
  }

  lemma {:induction false} StackSumIsLogSum(stack: seq<Frame>, logs: seq<seq<Staged>>, k: Key)
    requires LogsMatch(stack, logs)
    ensures StackSum(stack, k) == Sum(Flatten(logs), k)
  {
    hide Plus, Sum;
    if stack == [] {
      SumEmpty(k);
      assert Flatten(logs) == [] by {
        assert logs[..0] == [];
      }
    } else {
      var st, lg := stack[..|stack| - 1], logs[..|logs| - 1];
      SumAppend(Flatten(lg), logs[|logs| - 1], k);
      assert Holds(stack[|stack| - 1], logs[|stack| - 1 + |logs| - |stack|]);
      if lg == [] {
        SumEmpty(k);
      } else {
        PrefixMatches(stack, logs);
        StackSumIsLogSum(st, lg, k);
      }
    }
  }

  lemma SumEmpty(k: Key)
    ensures Sum([], k) == ZERO
  {
  }

  lemma PrefixMatches(stack: seq<Frame>, logs: seq<seq<Staged>>)
    requires LogsMatch(stack, logs) && stack != [] && |logs| > 1
    ensures LogsMatch(stack[..|stack| - 1], logs[..|logs| - 1])
  {
    hide Holds;
    assert forall i :: 0 <= i < |stack| ==> Holds(stack[i], logs[i + |logs| - |stack|]);
  }

  lemma SumNext(log: seq<Staged>, k: Key, d: Pair, j: Key)
    ensures Sum(log + [Staged(k, d)], j) == if j == k then Plus(Sum(log, j), d) else Sum(log, j)
  {
    hide Plus;
    assert (log + [Staged(k, d)])[..|log|] == log;
    PlusZero(Sum(log, j));
  }

  lemma StageHolds(f: Frame, log: seq<Staged>, k: Key, d: Pair, p: Pending)
    requires Holds(f, log) && p.delta == Plus(DeltaOf(f, k), d)
    ensures Holds(f[k := p], log + [Staged(k, d)])
  {
    hide Plus, Sum;
    forall j
      ensures DeltaOf(f[k := p], j) == Sum(log + [Staged(k, d)], j)
    {
      SumNext(log, k, d, j);
      assert DeltaOf(f, j) == Sum(log, j);
    }
  }

  lemma ReleaseHolds(parent: Frame, child: Frame, a: seq<Staged>, b: seq<Staged>)
    requires Holds(parent, a) && Holds(child, b) && MergeFits(parent, child)
    ensures Holds(MergeFrame(parent, child), a + b)
  {
    forall k
      ensures DeltaOf(MergeFrame(parent, child), k) == Sum(a + b, k)
    {
      MergeFrameDelta(parent, child, k);
      SumAppend(a, b, k);
    }
  }

  lemma StageLogs(m: Shared, cap: nat, x: Backend, e: Event)
    requires LogsMatch(x.stack, x.logs) && StepFits(x, e) && e.Stage?
    ensures var y := LocalStep(m, cap, x, e); LogsMatch(y.stack, y.logs)
  {
    hide Plus, Fits, Holds;
    if x.pc.Ready? {
      var y := LocalStep(m, cap, x, e);
      TopHolds(x);
      var top := Top(EnsureTop(x.stack));
      PlusZero(e.delta);
      StageHolds(top, x.logs[|x.logs| - 1], e.key, e.delta, Top(y.stack)[e.key]);
    }
  }

  lemma TopHolds(x: Backend)
    requires LogsMatch(x.stack, x.logs)
    ensures Holds(Top(EnsureTop(x.stack)), x.logs[|x.logs| - 1])
  {
    if x.stack != [] {
      assert Holds(x.stack[|x.stack| - 1], x.logs[|x.stack| - 1 + |x.logs| - |x.stack|]);
    }
  }

  lemma SavepointLogs(m: Shared, cap: nat, x: Backend, e: Event)
    requires LogsMatch(x.stack, x.logs) && StepFits(x, e) && (e.StartSub? || e.CommitSub? || e.AbortSub?)
    ensures var y := LocalStep(m, cap, x, e); LogsMatch(y.stack, y.logs)
  {
    EmptyHolds();
    hide Holds, MergeFrame, MergeFits;
    var off := |x.logs| - |x.stack|;
    if x.pc.Ready? && e.CommitSub? && |x.logs| >= 2 && |x.stack| >= 2 {
      var n := |x.stack|;
      assert Holds(x.stack[n - 2], x.logs[n - 2 + off]) && Holds(x.stack[n - 1], x.logs[n - 1 + off]);
      ReleaseHolds(x.stack[n - 2], Top(x.stack), x.logs[n - 2 + off], x.logs[n - 1 + off]);
    }
    if x.pc.Ready? && e.CommitSub? && |x.logs| == 2 && |x.stack| == 1 {
      assert Holds(x.stack[0], x.logs[0 + off]);
      assert x.logs[0] + x.logs[1] == x.logs[1];
    }
    assert forall i :: 0 <= i < |x.stack| ==> Holds(x.stack[i], x.logs[i + off]);
  }

  lemma EmptyHolds()
    ensures Holds(map[], [])
  {
  }

  lemma LocalLogs(m: Shared, cap: nat, x: Backend, e: Event)
    requires LogsMatch(x.stack, x.logs) && StepFits(x, e) && !e.DrainUpsert?
    ensures var y := LocalStep(m, cap, x, e); LogsMatch(y.stack, y.logs)
  {
    if e.Stage? {
      StageLogs(m, cap, x, e);
    } else if e.StartSub? || e.CommitSub? || e.AbortSub? {
      SavepointLogs(m, cap, x, e);
    } else {
      EmptyHolds();
      hide StepFits, MergeAll, Holds;
      if e.Capture? && x.pc.Seeding? && x.stack != [] && x.pc.key in Top(x.stack) {
        CaptureHolds(m, cap, x, e);
      }
    }
  }

  lemma CaptureHolds(m: Shared, cap: nat, x: Backend, e: Event)
    requires LogsMatch(x.stack, x.logs) && e.Capture? && x.pc.Seeding? && x.stack != [] && x.pc.key in Top(x.stack)
    ensures var y := LocalStep(m, cap, x, e); LogsMatch(y.stack, y.logs)
  {
    hide Holds, DeltaOf;
    TopHolds(x);
    var y := LocalStep(m, cap, x, e);
    SameDelta(Top(x.stack), x.pc.key, Top(y.stack)[x.pc.key], x.logs[|x.logs| - 1]);
  }

  lemma SameDelta(f: Frame, k: Key, p: Pending, log: seq<Staged>)
    requires Holds(f, log) && k in f && p.delta == f[k].delta
    ensures Holds(f[k := p], log)
  {
    hide Sum;
    assert forall j :: DeltaOf(f[k := p], j) == DeltaOf(f, j);
  }

  // ---- Deltas in flight -----------------------------------------------------

  /** What a committing backend has yet to apply to the key. */
  function InFlight(x: Backend, k: Key): Pair {
    if x.pc.Committing? && k in x.pc.todo then x.pc.todo[k].entry.delta else ZERO
  }

  function Flight(xs: seq<Backend>, k: Key): Pair {
    if xs == [] then ZERO else Plus(Flight(xs[..|xs| - 1], k), InFlight(xs[|xs| - 1], k))
  }

  lemma LocalFlight(m: Shared, cap: nat, x: Backend, e: Event, k: Key)
    requires !e.Begin?
    ensures InFlight(LocalStep(m, cap, x, e), k) == InFlight(x, k)
  {
    hide MergeAll, HasRoom, SatPair;
  }

  lemma BeginFlight(m: Shared, cap: nat, x: Backend, b: nat, k: Key)
    requires LogsMatch(x.stack, x.logs) && x.pc.Checked? && MergeAllFits(x.stack)
    ensures InFlight(x, k) == ZERO
    ensures InFlight(LocalStep(m, cap, x, Begin(b)), k) == Sum(Flatten(x.logs), k)
  {
    hide MergeAll, MergeAllFits, StackSum, Flatten, Sum, LogsMatch, MergeFrame;
    MergeAllDelta(x.stack, k);
    StackSumIsLogSum(x.stack, x.logs, k);
  }

  lemma PlusSwap(a: Pair, b: Pair, c: Pair)
    ensures Plus(Plus(a, b), c) == Plus(Plus(a, c), b)
  {
  }

  /** Replacing one backend shifts the total by that backend's difference. */
  lemma {:induction false} FlightUpdate(xs: seq<Backend>, b: nat, y: Backend, k: Key)
    requires b < |xs|
    ensures Plus(Flight(xs[b := y], k), InFlight(xs[b], k)) == Plus(Flight(xs, k), InFlight(y, k))
  {
    hide Plus, InFlight;
    var n := |xs| - 1;
    var u := xs[b := y];
    if b == n {
      assert u[..n] == xs[..n];
      PlusSwap(Flight(xs[..n], k), InFlight(y, k), InFlight(xs[b], k));
    } else {
      FlightUpdate(xs[..n], b, y, k);
      assert u[..n] == xs[..n][b := y];
      PlusSwap(Flight(u[..n], k), InFlight(xs[n], k), InFlight(xs[b], k));
      PlusSwap(Flight(xs[..n], k), InFlight(xs[n], k), InFlight(y, k));
    }
  }

  // ---- The whole system -----------------------------------------------------

  /** Views plus deltas in flight account for every surviving delta, modulo 2^64. */
  ghost predicate Balanced(s: State, k: Key) {
    WrapPair(Plus(View(s.shared, k), Flight(s.backends, k)))
    == WrapPair(Plus(View(s.start, k), Sum(s.survived, k)))
  }

  ghost predicate BackendOk(m: Shared, x: Backend, exact: bool) {
    SeedsOk(m, x) && (exact ==> LogsMatch(x.stack, x.logs))
  }

  ghost predicate Inv(s: State) {
    && (forall b :: 0 <= b < |s.backends| ==> BackendOk(s.shared, s.backends[b], s.exact))
    && (s.exact && !s.lost ==> forall k :: Balanced(s, k))
  }

  lemma GrowthKeepsBackends(m: Shared, n: Shared, xs: seq<Backend>, exact: bool)
    requires Grows(m, n)
    requires forall b :: 0 <= b < |xs| ==> BackendOk(m, xs[b], exact)
    ensures forall b :: 0 <= b < |xs| ==> BackendOk(n, xs[b], exact)
  {
    hide SeedsOk, LogsMatch, Grows;
    forall b | 0 <= b < |xs|
      ensures BackendOk(n, xs[b], exact)
    {
      assert BackendOk(m, xs[b], exact);
      GrowthKeepsSeeds(m, n, xs[b]);
    }
  }

  /** Moving d from the deltas in flight into the view keeps the account. */
  lemma MoveIntoView(view: Pair, f: Pair, f': Pair, d: Pair)
    requires Plus(f', d) == f
    ensures WrapPair(Plus(AddPair(view, d), f')) == WrapPair(Plus(view, f))
  {
    WrapPlus(Plus(view, d), f');
    assert Plus(Plus(view, d), f') == Plus(view, f);
    hide WrapPair, Plus;
  }

  lemma DropTodo(x: Backend, k: Key, j: Key)
    requires x.pc.Committing? && k in x.pc.todo
    ensures var y := x.(pc := Committing(x.pc.todo - {k}));
            InFlight(y, j) == if j == k then ZERO else InFlight(x, j)
  {
  }

  /** One staged delta reaches the table: the shared map changes at k by exactly it. */
  lemma ApplyBalances(s: State, t: State, b: nat, k: Key, j: Key)
    requires b < |s.backends| && s.backends[b].pc.Committing? && k in s.backends[b].pc.todo
    requires t.backends == s.backends[b := s.backends[b].(pc := Committing(s.backends[b].pc.todo - {k}))]
    requires t.start == s.start && t.survived == s.survived
    requires View(t.shared, k) == AddPair(View(s.shared, k), s.backends[b].pc.todo[k].entry.delta)
    requires j != k ==> View(t.shared, j) == View(s.shared, j)
    requires Balanced(s, j)
    ensures Balanced(t, j)
  {
    hide View, Plus, WrapPair, Flight, Sum, InFlight, AddPair;
    var x := s.backends[b];
    var y := x.(pc := Committing(x.pc.todo - {k}));
    FlightUpdate(s.backends, b, y, j);
    DropTodo(x, k, j);
    InFlightAt(x, k);
    PlusZero(Flight(s.backends, j));
    if j == k {
      MoveIntoView(View(s.shared, k), Flight(s.backends, k), Flight(t.backends, k), x.pc.todo[k].entry.delta);
    } else {
      PlusCancel(Flight(t.backends, j), Flight(s.backends, j), InFlight(x, j));
    }
  }

  lemma InFlightAt(x: Backend, k: Key)
    requires x.pc.Committing? && k in x.pc.todo
    ensures InFlight(x, k) == x.pc.todo[k].entry.delta
  {
  }

  lemma PlusCancel(a: Pair, b: Pair, c: Pair)
    requires Plus(a, c) == Plus(b, c)
    ensures a == b
  {
  }

  lemma DrainKeeps(s: State, e: Event)
    requires Inv(s) && e.DrainUpsert?
    ensures Inv(Next(s, e))
    ensures forall k :: View(Next(s, e).shared, k) == View(s.shared, k)
  {
    var t := Next(s, e);
    assert Grows(s.shared, t.shared);
    GrowthKeepsBackends(s.shared, t.shared, s.backends, s.exact);
    hide BackendOk, Grows;
    assert forall k :: View(t.shared, k) == View(s.shared, k);
    hide View, Plus, WrapPair, Flight, Sum;
    assert forall k :: Balanced(s, k) ==> Balanced(t, k);
  }

  /** A key that pass 1 does not find is only marked. */
  lemma MarkSeeds(m: Shared, x: Backend, k: Key)
    requires SeedsOk(m, x) && x.pc.Committing? && k in x.pc.todo
    ensures SeedsOk(m, x.(pc := Committing(x.pc.todo[k := x.pc.todo[k].(missed := true)])))
    ensures SeedsOk(m, x.(pc := Committing(x.pc.todo - {k})))
  {
  }

  /** Replacing one backend by one with the same deltas in flight. */
  lemma ReplaceKeeps(s: State, t: State, b: nat, y: Backend)
    requires Inv(s) && b < |s.backends|
    requires t.backends == s.backends[b := y] && t.shared == s.shared && t.start == s.start
    requires t.lost == s.lost && t.survived == s.survived && (t.exact ==> s.exact)
    requires BackendOk(s.shared, y, t.exact)
    requires forall k :: InFlight(y, k) == InFlight(s.backends[b], k)
    ensures Inv(t)
  {
    hide SeedsOk, LogsMatch, View, Plus, WrapPair, Flight, Sum, InFlight;
    if t.exact && !t.lost {
      forall k
        ensures Balanced(t, k)
      {
        assert Balanced(s, k);
        FlightUpdate(s.backends, b, y, k);
        PlusCancel(Flight(t.backends, k), Flight(s.backends, k), InFlight(y, k));
      }
    }
    hide Balanced;
  }

  /** One delta reaches the table, or is dropped because the table is full. */
  lemma ApplyKeeps(s: State, t: State, b: nat, k: Key)
    requires Inv(s) && b < |s.backends| && s.backends[b].pc.Committing? && k in s.backends[b].pc.todo
    requires t.backends == s.backends[b := s.backends[b].(pc := Committing(s.backends[b].pc.todo - {k}))]
    requires t.start == s.start && t.survived == s.survived && t.exact == s.exact && (s.lost ==> t.lost)
    requires Grows(s.shared, t.shared)
    requires !t.lost ==> View(t.shared, k) == AddPair(View(s.shared, k), s.backends[b].pc.todo[k].entry.delta)
    requires !t.lost ==> forall j :: j != k ==> View(t.shared, j) == View(s.shared, j)
    ensures Inv(t)
  {
    hide SeedsOk, LogsMatch, View, AddPair, Balanced, Grows;
    var x := s.backends[b];
    MarkSeeds(s.shared, x, k);
    assert forall c :: 0 <= c < |t.backends| ==> BackendOk(s.shared, t.backends[c], s.exact);
    GrowthKeepsBackends(s.shared, t.shared, t.backends, s.exact);
    if t.exact && !t.lost {
      forall j
        ensures Balanced(t, j)
      {
        assert Balanced(s, j);
        ApplyBalances(s, t, b, k, j);
      }
    }
  }

  lemma ApplyToEffect(m: Shared, k: Key, d: Pair)
    requires k in m.cells
    ensures Grows(m, ApplyTo(m, k, d))
    ensures View(ApplyTo(m, k, d), k) == AddPair(View(m, k), d)
    ensures forall j :: j != k ==> View(ApplyTo(m, k, d), j) == View(m, j)
  {
    hide AddPair;
  }

  /** The captured seed is the row the reader saw, so the new cell continues it. */
  lemma InsertIntoEffect(m: Shared, k: Key, e: Pending)
    requires k !in m.cells && EntryOk(m, k, e)
    ensures Grows(m, InsertInto(m, k, e))
    ensures View(InsertInto(m, k, e), k) == AddPair(View(m, k), e.delta)
    ensures forall j :: j != k ==> View(InsertInto(m, k, e), j) == View(m, j)
  {
    hide AddPair;
  }

  lemma MarkFlight(x: Backend, k: Key, j: Key)
    requires x.pc.Committing? && k in x.pc.todo
    ensures InFlight(x.(pc := Committing(x.pc.todo[k := x.pc.todo[k].(missed := true)])), j) == InFlight(x, j)
  {
  }

  lemma UpdateKeeps(s: State, e: Event)
    requires Inv(s) && e.Update?
    ensures Inv(Next(s, e))
  {
    var t := Next(s, e);
    if e.b < |s.backends| {
      var x := s.backends[e.b];
      if x.pc.Committing? && e.key in x.pc.todo && !x.pc.todo[e.key].missed {
        assert BackendOk(s.shared, x, s.exact);
        hide Inv, View, AddPair, Grows, EntryOk, SeedsOk, LogsMatch, InFlight;
        if e.key in s.shared.cells {
          ApplyToEffect(s.shared, e.key, x.pc.todo[e.key].entry.delta);
          ApplyKeeps(s, t, e.b, e.key);
        } else {
          MarkSeeds(s.shared, x, e.key);
          forall j
            ensures InFlight(t.backends[e.b], j) == InFlight(x, j)
          {
            MarkFlight(x, e.key, j);
          }
          ReplaceKeeps(s, t, e.b, t.backends[e.b]);
        }
      }
    }
  }

  lemma InsertKeeps(s: State, e: Event)
    requires Inv(s) && e.Insert?
    ensures Inv(Next(s, e))
  {
    var t := Next(s, e);
    if e.b < |s.backends| {
      var x := s.backends[e.b];
      if x.pc.Committing? && e.key in x.pc.todo && AllMissed(x.pc.todo) {
        assert BackendOk(s.shared, x, s.exact);
        var p := x.pc.todo[e.key].entry;
        assert EntryOk(s.shared, e.key, p);
        GrowsSame(s.shared);
        hide Inv, View, AddPair, Grows, EntryOk, SeedsOk, LogsMatch, InFlight;
        if e.key in s.shared.cells {
          ApplyToEffect(s.shared, e.key, p.delta);
        } else {
          InsertIntoEffect(s.shared, e.key, p);
        }
        ApplyKeeps(s, t, e.b, e.key);
      }
    }
  }

  lemma GrowsSame(m: Shared)
    ensures Grows(m, m)
  {
  }

  lemma LocalSeeds(m: Shared, cap: nat, x: Backend, e: Event)
    requires SeedsOk(m, x)
    ensures SeedsOk(m, LocalStep(m, cap, x, e))
  {
    hide SeedsOk;
    match e {
      case Stage(_, _, _) => StageSeeds(m, cap, x, e);
      case Probe(_) => StageSeeds(m, cap, x, e);
      case Capture(_) => StageSeeds(m, cap, x, e);
      case StartSub(_) => SavepointSeeds(m, cap, x, e);
      case CommitSub(_) => SavepointSeeds(m, cap, x, e);
      case AbortSub(_) => SavepointSeeds(m, cap, x, e);
      case Abort(_) => CommitSeeds(m, cap, x, e);
      case PreCommit(_) => CommitSeeds(m, cap, x, e);
      case Begin(_) => CommitSeeds(m, cap, x, e);
      case Finish(_) => CommitSeeds(m, cap, x, e);
      case _ =>
    }
  }

  predicate Local(e: Event) {
    !e.DrainUpsert? && !e.Update? && !e.Insert?
  }

  lemma LocalOk(s: State, e: Event)
    requires Inv(s) && Local(e) && e.b < |s.backends|
    ensures var t := Next(s, e);
            && t.backends == s.backends[e.b := LocalStep(s.shared, s.cap, s.backends[e.b], e)]
            && BackendOk(s.shared, t.backends[e.b], t.exact)
  {
    hide SeedsOk, LogsMatch, LocalStep, StepFits, Balanced;
    var x := s.backends[e.b];
    assert BackendOk(s.shared, x, s.exact);
    LocalSeeds(s.shared, s.cap, x, e);
    if s.exact && StepFits(x, e) {
      LocalLogs(s.shared, s.cap, x, e);
    }
  }

  /** Begin: what goes in flight is what the surviving savepoints staged. */
  lemma BeginBalances(s: State, t: State, b: nat, y: Backend, log: seq<Staged>, k: Key)
    requires b < |s.backends| && t.backends == s.backends[b := y] && t.shared == s.shared && t.start == s.start
    requires t.survived == s.survived + log
    requires InFlight(s.backends[b], k) == ZERO && InFlight(y, k) == Sum(log, k)
    requires Balanced(s, k)
    ensures Balanced(t, k)
  {
    hide View, Plus, WrapPair, Flight, Sum, InFlight;
    SumAppend(s.survived, log, k);
    FlightUpdate(s.backends, b, y, k);
    PlusZero(Flight(t.backends, k));
    var d := Sum(log, k);
    PlusAssoc(View(s.shared, k), Flight(s.backends, k), d);
    PlusAssoc(View(s.start, k), Sum(s.survived, k), d);
    WrapPlus(Plus(View(s.shared, k), Flight(s.backends, k)), d);
    WrapPlus(Plus(View(s.start, k), Sum(s.survived, k)), d);
  }

  lemma BeginKeeps(s: State, e: Event)
    requires Inv(s) && e.Begin? && e.b < |s.backends| && s.backends[e.b].pc.Checked?
    ensures Inv(Next(s, e))
  {
    hide SeedsOk, LogsMatch, Balanced, LocalStep;
    var t := Next(s, e);
    var x := s.backends[e.b];
    LocalOk(s, e);
    if t.exact && !t.lost {
      assert BackendOk(s.shared, x, s.exact);
      FitsAtBegin(x, e);
      forall k
        ensures Balanced(t, k)
      {
        assert Balanced(s, k);
        BeginFlight(s.shared, s.cap, x, e.b, k);
        BeginBalances(s, t, e.b, t.backends[e.b], Flatten(x.logs), k);
      }
    }
  }

  lemma FitsAtBegin(x: Backend, e: Event)
    requires StepFits(x, e) && e.Begin? && x.pc.Checked?
    ensures MergeAllFits(x.stack)
  {
  }

  lemma LocalKeeps(s: State, e: Event)
    requires Inv(s) && Local(e)
    ensures Inv(Next(s, e))
  {
    if e.b < |s.backends| {
      var x := s.backends[e.b];
      if e.Begin? && x.pc.Checked? {
        BeginKeeps(s, e);
      } else {
        LocalOk(s, e);
        var t := Next(s, e);
        forall k
          ensures InFlight(t.backends[e.b], k) == InFlight(x, k)
        {
          hide InFlight;
          if e.Begin? {
            assert LocalStep(s.shared, s.cap, x, e) == x;
          } else {
            LocalFlight(s.shared, s.cap, x, e, k);
          }
        }
        hide Inv, BackendOk, InFlight, LocalStep, StepFits;
        ReplaceKeeps(s, t, e.b, t.backends[e.b]);
      }
    }
  }

  lemma NextKeepsInv(s: State, e: Event)
    requires Inv(s)
    ensures Inv(Next(s, e))
  {
    hide Inv, Next;
    match e {
      case DrainUpsert(_, _) => DrainKeeps(s, e);
      case Update(_, _) => UpdateKeeps(s, e);
      case Insert(_, _) => InsertKeeps(s, e);
      case _ => LocalKeeps(s, e);
    }
  }

  lemma {:induction false} RunKeepsInv(s: State, es: seq<Event>)
    requires Inv(s)
    ensures Inv(Run(s, es))
  {
    hide Inv, Next;
    if es != [] {
      RunKeepsInv(s, es[..|es| - 1]);
      NextKeepsInv(Run(s, es[..|es| - 1]), es[|es| - 1]);
    }
  }

  // ---- What transactions promise --------------------------------------------

  ghost predicate Start(s: State) {
    && (forall b :: 0 <= b < |s.backends| ==>
          s.backends[b].pc.Ready? && s.backends[b].logs == [[]] && s.backends[b].stack in {[], [map[]]})
    && s.start == s.shared && s.survived == [] && s.exact && !s.lost
    && forall k :: Fits(View(s.shared, k))
  }

  predicate Quiet(s: State) {
    forall b :: 0 <= b < |s.backends| ==> !s.backends[b].pc.Committing?
  }

  lemma {:induction false} QuietFlight(xs: seq<Backend>, k: Key)
    requires forall b :: 0 <= b < |xs| ==> !xs[b].pc.Committing?
    ensures Flight(xs, k) == ZERO
  {
    hide Plus;
    if xs != [] {
      QuietFlight(xs[..|xs| - 1], k);
      PlusZero(ZERO);
    }
  }

  lemma StartIsFine(s: State)
    requires Start(s)
    ensures Inv(s)
  {
    hide View, WrapPair, Plus, BackendOk, Flight, Fits;
    forall k
      ensures Balanced(s, k)
    {
      QuietFlight(s.backends, k);
      SumEmpty(k);
    }
    hide Balanced, Sum;
    forall b | 0 <= b < |s.backends|
      ensures BackendOk(s.shared, s.backends[b], s.exact)
    {
      RestedIsFine(s.shared, s.backends[b], s.exact);
    }
  }

  lemma RestedIsFine(m: Shared, x: Backend, exact: bool)
    requires x.pc.Ready? && x.logs == [[]] && x.stack in {[], [map[]]}
    ensures BackendOk(m, x, exact)
  {
    EmptyHolds();
    hide Holds;
    assert x.stack == [] || x.stack == [map[]];
  }

  /** The step is a commit step that finds or makes a cell for its key. */
  predicate Lands(s: State, e: Event) {
    && (e.Update? || e.Insert?) && e.b < |s.backends|
    && s.backends[e.b].pc.Committing? && e.key in s.backends[e.b].pc.todo
    && if e.Update? then !s.backends[e.b].pc.todo[e.key].missed && e.key in s.shared.cells
       else AllMissed(s.backends[e.b].pc.todo) && (e.key in s.shared.cells || |s.shared.cells| < s.cap)
  }

  /** What a reader sees changes only at a commit step, only at its key, and by exactly
      the entry's delta. A cell created by the step continues the row it replaces. */
  lemma StepChangesView(s: State, e: Event, k: Key)
    requires Inv(s)
    ensures View(Next(s, e).shared, k)
         == if Lands(s, e) && e.key == k then AddPair(View(s.shared, k), s.backends[e.b].pc.todo[k].entry.delta)
            else View(s.shared, k)
  {
    if e.DrainUpsert? {
      DrainKeeps(s, e);
    } else if Lands(s, e) {
      assert BackendOk(s.shared, s.backends[e.b], s.exact);
      var p := s.backends[e.b].pc.todo[e.key].entry;
      assert EntryOk(s.shared, e.key, p);
      hide Inv, View, AddPair, SeedsOk, EntryOk, Grows;
      if e.key in s.shared.cells {
        ApplyToEffect(s.shared, e.key, p.delta);
      } else {
        InsertIntoEffect(s.shared, e.key, p);
      }
    } else {
      hide Inv, View, LocalStep, StepFits;
    }
  }

  lemma {:induction false} ViewsFit(s: State, es: seq<Event>, k: Key)
    requires Inv(s) && Fits(View(s.shared, k))
    ensures Fits(View(Run(s, es).shared, k)) && Run(s, es).start == s.start
  {
    if es != [] {
      var t := Run(s, es[..|es| - 1]);
      ViewsFit(s, es[..|es| - 1], k);
      RunKeepsInv(s, es[..|es| - 1]);
      StepChangesView(t, es[|es| - 1], k);
      StartStays(t, es[|es| - 1]);
      hide Inv, Next, View, Lands, Fits;
    }
  }

  lemma StartStays(s: State, e: Event)
    ensures Next(s, e).start == s.start
  {
  }

  /** In every run, once no commit is under way, the view of a key is its first view
      plus the exact sum of the deltas staged by surviving (sub)transactions, in 64-bit
      arithmetic, unless an insert found the table full or a staged sum saturated. */
  lemma CommitsAddUp(s: State, es: seq<Event>, k: Key)
    requires Start(s)
    ensures var t := Run(s, es);
            t.exact && !t.lost && Quiet(t) ==>
              View(t.shared, k) == WrapPair(Plus(View(s.shared, k), Sum(t.survived, k)))
  {
    StartIsFine(s);
    RunKeepsInv(s, es);
    ViewsFit(s, es, k);
    var t := Run(s, es);
    if t.exact && !t.lost && Quiet(t) {
      assert Balanced(t, k);
      QuietFlight(t.backends, k);
      PlusZero(View(t.shared, k));
      hide Run, Inv, View, Plus, Flight, Sum, Fits;
    }
  }

  // ---- The capacity check ---------------------------------------------------

  lemma {:induction false} MergedKeys(stack: seq<Frame>)
    ensures MergeAll(stack).Keys == StackKeys(stack)
  {
    if stack != [] {
      MergedKeys(stack[..|stack| - 1]);
    }
  }

  /** Every key the commit of backend b still has to insert has a free slot. */
  ghost predicate Reserved(s: State, b: nat) {
    b < |s.backends| ==>
      match s.backends[b].pc
      case Checked => HasRoom(s.shared, s.cap, s.backends[b].stack)
      case Committing(todo) => RoomFor(s.shared.cells, s.cap, todo.Keys)
      case _ => true
  }

  lemma BeginReserves(s: State, e: Event)
    requires e.Begin? && Reserved(s, e.b)
    ensures Reserved(Next(s, e), e.b)
  {
    if e.b < |s.backends| && s.backends[e.b].pc.Checked? {
      var x := s.backends[e.b];
      MergedKeys(x.stack);
      var merged := MergeAll(x.stack);
      assert (map k | k in merged :: Todo(merged[k], false)).Keys == merged.Keys;
    }
  }

  lemma UpdateReserves(s: State, e: Event, b: nat)
    requires e.Update? && Reserved(s, b)
    ensures Reserved(Next(s, e), b)
  {
    if b < |s.backends| {
      var t := Next(s, e);
      hide StackKeys, RoomFor;
      UpdateEffect(s, e, b);
      hide Next;
      if s.backends[b].pc.Committing? {
        SameRoom(s.shared.cells, t.shared.cells, s.cap, s.backends[b].pc.todo.Keys, t.backends[b].pc.todo.Keys);
      } else if s.backends[b].pc.Checked? {
        var keys := StackKeys(s.backends[b].stack);
        SameRoom(s.shared.cells, t.shared.cells, s.cap, keys, keys);
      }
    }
  }

  /** Pass 1 creates no cell and takes off its list only keys that have one. */
  lemma UpdateEffect(s: State, e: Event, b: nat)
    requires e.Update? && b < |s.backends|
    ensures var t := Next(s, e);
            && t.shared.cells.Keys == s.shared.cells.Keys && t.cap == s.cap && |t.backends| == |s.backends|
            && t.backends[b].stack == s.backends[b].stack
            && (!s.backends[b].pc.Committing? ==> t.backends[b].pc == s.backends[b].pc)
            && (s.backends[b].pc.Committing? ==>
                  && t.backends[b].pc.Committing?
                  && t.backends[b].pc.todo.Keys - t.shared.cells.Keys
                      == s.backends[b].pc.todo.Keys - s.shared.cells.Keys)
  {
    hide AddPair;
  }

  /** Room depends only on which keys have cells and which of the wanted ones do not. */
  lemma SameRoom(cells: map<Key, Pair>, cells': map<Key, Pair>, cap: nat, keys: set<Key>, keys': set<Key>)
    requires cells'.Keys == cells.Keys && keys' - cells'.Keys == keys - cells.Keys
    ensures RoomFor(cells', cap, keys') <==> RoomFor(cells, cap, keys)
  {
    assert |cells| == |cells.Keys| && |cells'| == |cells'.Keys|;
  }

  lemma RoomAfterOne(cells: map<Key, Pair>, cap: nat, keys: set<Key>, k: Key, v: Pair)
    requires RoomFor(cells, cap, keys) && k in keys
    ensures k !in cells ==> |cells| < cap
    ensures RoomFor(cells[k := v], cap, keys - {k})
  {
    var cells' := cells[k := v];
    if k in cells {
      assert cells'.Keys == cells.Keys;
      assert (keys - {k}) - cells'.Keys == keys - cells.Keys;
      SameRoom(cells, cells', cap, keys, keys - {k});
    } else {
      NewKeyRoom(cells, cap, keys, k, v);
    }
    hide RoomFor;
  }

  lemma NewKeyRoom(cells: map<Key, Pair>, cap: nat, keys: set<Key>, k: Key, v: Pair)
    requires RoomFor(cells, cap, keys) && k in keys && k !in cells
    ensures |cells| < cap && RoomFor(cells[k := v], cap, keys - {k})
  {
    var cells', missing := cells[k := v], keys - cells.Keys;
    assert k in missing;
    assert (keys - {k}) - cells'.Keys == missing - {k};
    assert cells'.Keys == cells.Keys + {k};
    assert |cells| == |cells.Keys| && |cells'| == |cells'.Keys|;
  }

  lemma InsertEffect(s: State, b: nat, k: Key)
    requires b < |s.backends| && s.backends[b].pc.Committing?
    requires k in s.backends[b].pc.todo && AllMissed(s.backends[b].pc.todo)
    requires k in s.shared.cells || |s.shared.cells| < s.cap
    ensures var t := Next(s, Insert(b, k));
            && t.lost == s.lost && t.cap == s.cap && |t.backends| == |s.backends|
            && t.backends[b].pc == Committing(s.backends[b].pc.todo - {k})
            && k in t.shared.cells && t.shared.cells == s.shared.cells[k := t.shared.cells[k]]
  {
    hide AddPair;
  }

  lemma InsertReserves(s: State, e: Event)
    requires e.Insert? && Reserved(s, e.b)
    ensures Reserved(Next(s, e), e.b) && Next(s, e).lost == s.lost
  {
    if e.b < |s.backends| && s.backends[e.b].pc.Committing? {
      var todo := s.backends[e.b].pc.todo;
      if e.key in todo && AllMissed(todo) {
        hide AllMissed, RoomFor, HasRoom;
        RoomAfterOne(s.shared.cells, s.cap, todo.Keys, e.key, ZERO);
        InsertEffect(s, e.b, e.key);
        hide Next;
        RoomAfterOne(s.shared.cells, s.cap, todo.Keys, e.key, Next(s, e).shared.cells[e.key]);
        assert (todo - {e.key}).Keys == todo.Keys - {e.key};
      }
    }
  }

  lemma OtherReserves(s: State, e: Event, b: nat)
    requires Reserved(s, b) && !e.Update? && !e.Insert? && (e.Begin? ==> e.b != b)
    ensures Reserved(Next(s, e), b) && Next(s, e).lost == s.lost
  {
    hide StackKeys, MergeAll, StepFits, SatPair;
  }

  /** Once its capacity check has passed, a commit loses nothing in any run in which
      no other backend inserts: not with updates of others, savepoints or drains. */
  lemma {:induction false} ReservedCommitLosesNothing(s: State, es: seq<Event>, b: nat)
    requires Reserved(s, b)
    requires forall i :: 0 <= i < |es| && es[i].Insert? ==> es[i].b == b
    ensures Reserved(Run(s, es), b) && Run(s, es).lost == s.lost
  {
    if es != [] {
      var t, e := Run(s, es[..|es| - 1]), es[|es| - 1];
      ReservedCommitLosesNothing(s, es[..|es| - 1], b);
      UpdateLosesNothing(t, e);
      hide Reserved, Next;
      if e.Update? {
        UpdateReserves(t, e, b);
      } else if e.Insert? {
        InsertReserves(t, e);
      } else if e.Begin? && e.b == b {
        BeginReserves(t, e);
      } else {
        OtherReserves(t, e, b);
      }
    }
  }

  lemma UpdateLosesNothing(s: State, e: Event)
    ensures !e.Insert? ==> Next(s, e).lost == s.lost
  {
    hide LocalStep, StepFits, AddPair;
  }
}

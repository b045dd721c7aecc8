/** The cells, shadows and stack of FifoCells put together (poc/ledger-extension/src/fifo.rs):
    Phase 8 of a batch over the live buckets, and the replay at commit. */
module FifoApply {
  import opened Int64
  import opened LayerRing
  import opened FifoTransaction
  import opened FifoCells
  import FifoShortage

  // ---- Phase 8 ------------------------------------------------------------------------

  /** What an envelope hands to the later phases: its amount, the slices it depleted,
      those among them that go to the inline UPDATE, and what was missing. */
  datatype Report = Report(cost: int, slices: seq<Slice>, inlined: seq<Slice>, shortage: int)

  function ReportOf(e: Envelope, a: Applied): Report {
    Report(if e.Receipt? then Sat(e.layer.qty * e.layer.unitCost) else SatCost(a.slices),
           a.slices, a.inlined, a.shortage)
  }

  function Reports(envs: seq<Envelope>, outs: seq<Applied>): seq<Report>
    requires |envs| == |outs|
  {
    seq(|envs|, i requires 0 <= i < |envs| => ReportOf(envs[i], outs[i]))
  }

  lemma {:induction false} OneOutEach(s: CellState, envs: seq<Envelope>)
    ensures var r := ApplyEnvelopes(s, envs); r.CellOut? ==> |r.outs| == |envs|
  {
    if envs != [] {
      OneOutEach(s, envs[..|envs| - 1]);
    }
  }

  lemma NextEnvelope(s: CellState, envs: seq<Envelope>, i: nat)
    requires i < |envs| && ApplyEnvelopes(s, envs[..i]).CellOut?
    ensures var r := ApplyEnvelopes(s, envs[..i]);
            ApplyEnvelopes(s, envs[..i + 1])
            == if Fails(r.state, envs[i]) then CellFail
               else var a := ApplyEnvelope(r.state, envs[i]); CellOut(a.state, r.ops + a.ops, r.outs + [a])
  {
    assert envs[..i + 1][..i] == envs[..i];
  }

  lemma {:induction false} FailsForGood(s: CellState, envs: seq<Envelope>, i: nat)
    requires i <= |envs| && ApplyEnvelopes(s, envs[..i]).CellFail?
    ensures ApplyEnvelopes(s, envs).CellFail?
    decreases |envs|
  {
    if i == |envs| {
      assert envs[..i] == envs;
    } else {
      assert envs[..|envs| - 1][..i] == envs[..i];
      FailsForGood(s, envs[..|envs| - 1], i);
    }
  }

  /** One envelope on the shadow; an issue that is short of a ring without a spilled tail
      is an error. */
  method ApplyOne(cell: ShadowCell, e: Envelope) returns (ok: bool, r: Report)
    requires cell.Valid()
    modifies cell, cell.ring, cell.ring.layers, cell.ring.pendingDrain
    ensures cell.Valid() && ok == !Fails(old(cell.State()), e)
    ensures ok ==> var a := ApplyEnvelope(old(cell.State()), e);
                   cell.State() == a.state && cell.ops == old(cell.ops) + a.ops && r == ReportOf(e, a)
  {
    hide LayerRing.Consume, SatCost;
    match e
    case Receipt(layer) =>
      r := Report(Sat(layer.qty * layer.unitCost), [], [], 0);
      cell.Receive(layer);
      ok := true;
    case Issue(qty) =>
      var overflow := cell.overflowActive;
      ghost var ops := cell.ops;
      var totalCost, slices, inlined, shortage := cell.Issue(qty);
      ok := !(shortage > 0 && !overflow);
      r := Report(totalCost, slices, inlined, shortage);
      assert cell.ops == ops + cell.ops[|ops|..];
  }

  /** The envelopes of one cell on its shadow, in order. */
  method ApplyAll(sh: Shadow, envs: seq<Envelope>) returns (ok: bool, sh': Shadow, reports: seq<Report>)
    requires |sh.state.ring.layers| <= MAX_LAYERS && |sh.state.ring.pending| <= PENDING_DRAIN_CAP
    ensures var r := ApplyEnvelopes(sh.state, envs);
            && ok == r.CellOut?
            && (ok ==> |r.outs| == |envs| && sh' == sh.(state := r.state, ops := sh.ops + r.ops)
                       && reports == Reports(envs, r.outs))
    ensures GoodState(sh.state) && ValidEnvelopes(envs) ==> (ok <==> FifoShortage.Covered(sh.state, envs))
  {
    hide ApplyEnvelope, Fails, ReportOf, ApplyEnvelopes, FifoShortage.Covered, GoodState;
    if GoodState(sh.state) && ValidEnvelopes(envs) {
      FifoShortage.GoesThroughIff(sh.state, envs);
    }
    var cell := new ShadowCell.Load(sh);
    reports := [];
    NoEnvelopes(sh.state, envs);
    ghost var r := ApplyEnvelopes(sh.state, envs[..0]);
    for i := 0 to |envs|
      invariant fresh(cell) && fresh(cell.ring) && fresh(cell.ring.layers) && fresh(cell.ring.pendingDrain)
      invariant cell.Valid() && r == ApplyEnvelopes(sh.state, envs[..i]) && r.CellOut?
      invariant |r.outs| == i && cell.State() == r.state && cell.ops == sh.ops + r.ops
      invariant reports == Reports(envs[..i], r.outs)
    {
      NextEnvelope(sh.state, envs, i);
      var fine, report := ApplyOne(cell, envs[i]);
      if !fine {
        FailsForGood(sh.state, envs, i + 1);
        return false, sh, [];
      }
      reports := reports + [report];
      r := ApplyEnvelopes(sh.state, envs[..i + 1]);
    }
    assert envs[..|envs|] == envs;
    ok := true;
    var state := cell.Snapshot();
    sh' := sh.(state := state, ops := cell.ops);
  }

  lemma NoEnvelopes(s: CellState, envs: seq<Envelope>)
    ensures ApplyEnvelopes(s, envs[..0]) == CellOut(s, [], [])
  {
  }

  /** One cell of Phase 8: acquire its shadow, work on it, install it. An error leaves
      whatever it likes in the top frame and nothing in the others. */
  method WorkOnCell(st: PendingStack, bucket: FifoBucket, w: Work) returns (ok: bool, reports: seq<Report>)
    requires st.stack != [] && bucket.Valid()
    requires Faithful(st.stack, w.cell, bucket.Live()) && GoodState(bucket.Live().state) && ValidSeeds(w.seeds)
    modifies st
    ensures |st.stack| == |old(st.stack)|
    ensures var r := StackWork(old(st.stack), old(bucket.Live()), w);
            && ok == r.StackOut?
            && (ok ==> |r.outs| == 1 && |r.outs[0]| == |w.envs|
                       && st.stack == r.stack && reports == Reports(w.envs, r.outs[0]))
    ensures !ok ==> st.stack[..|st.stack| - 1] == old(st.stack)[..|st.stack| - 1]
  {
    hide Faithful, Acquire, ApplyEnvelopes, Visible, Reports;
    var live := bucket.Snapshot();
    ghost var before := st.stack;
    AcquireIsFaithful(before, w.cell, live, w.seeds);
    var sh := st.AcquireShadow(w.cell, live, w.seeds);
    FaithfulIsGood(sh, Visible(before[..|before| - 1], w.cell, live));
    var sh';
    ok, sh', reports := ApplyAll(sh, w.envs);
    if ok {
      ghost var taken := st.stack;
      st.InstallShadow(w.cell, sh');
      assert Install(taken, w.cell, sh') == Install(before, w.cell, sh');
    } else {
      SameBelow(before, st.stack, w.cell, sh);
    }
  }

  lemma FaithfulIsGood(sh: Shadow, below: LiveCell)
    requires FaithfulShadow(sh, below)
    ensures GoodState(sh.state)
  {
  }

  lemma SameBelow(a: seq<Frame>, b: seq<Frame>, cell: nat, sh: Shadow)
    requires a != [] && |a| == |b| && Install(a, cell, sh) == Install(b, cell, sh)
    ensures a[..|a| - 1] == b[..|a| - 1]
  {
    assert Install(a, cell, sh)[..|a| - 1] == a[..|a| - 1];
    assert Install(b, cell, sh)[..|a| - 1] == b[..|a| - 1];
  }

  // ---- the arena ----------------------------------------------------------------------

  /** The buckets a backend has probed, by cell index. */
  type Arena = map<nat, FifoBucket>

  ghost function Objects(arena: Arena): set<object> {
    set c, o | c in arena && o in arena[c].Repr() :: o
  }

  /** Distinct cells share nothing. */
  ghost predicate Separate(arena: Arena) {
    forall c, d :: c in arena && d in arena && c != d ==> arena[c].Repr() !! arena[d].Repr()
  }

  /** The buckets hold exactly these cells. */
  ghost predicate Holds(arena: Arena, live: map<nat, LiveCell>)
    reads Objects(arena)
  {
    arena.Keys == live.Keys && forall c :: c in arena ==> HoldsOne(arena[c], live[c])
  }

  ghost predicate HoldsOne(b: FifoBucket, c: LiveCell)
    reads b.Repr()
  {
    b.Valid() && b.Live() == c
  }

  // ---- Phase 8 over the cells of a batch ------------------------------------------------

  function BatchReports(b: Batch, outs: seq<seq<Applied>>): seq<seq<Report>> {
    seq(Min(|b|, |outs|), i requires 0 <= i < Min(|b|, |outs|) =>
      if |b[i].envs| == |outs[i]| then Reports(b[i].envs, outs[i]) else [])
  }

  lemma NextWork(stack: seq<Frame>, live: map<nat, LiveCell>, b: Batch, i: nat)
    requires stack != [] && i < |b| && StackBatch(stack, live, b[..i]).StackOut? && b[i].cell in live
    ensures var r := StackBatch(stack, live, b[..i]);
            var o := StackWork(r.stack, live[b[i].cell], b[i]);
            StackBatch(stack, live, b[..i + 1])
            == if o.StackFail? then StackFail else StackOut(o.stack, r.outs + o.outs)
  {
    hide StackWork;
    assert b[..i + 1][..i] == b[..i];
  }

  lemma {:induction false} BatchFailsForGood(stack: seq<Frame>, live: map<nat, LiveCell>, b: Batch, i: nat)
    requires stack != [] && i <= |b| && StackBatch(stack, live, b[..i]).StackFail?
    ensures StackBatch(stack, live, b).StackFail?
    decreases |b|
  {
    hide StackWork;
    if i == |b| {
      assert b[..i] == b;
    } else {
      assert b[..|b| - 1][..i] == b[..i];
      BatchFailsForGood(stack, live, b[..|b| - 1], i);
    }
  }

  lemma SyncAt(stack: seq<Frame>, live: map<nat, LiveCell>, cur: map<nat, LiveCell>, b: Batch, i: nat)
    requires stack != [] && Sync(stack, live, cur) && ValidBatch(b) && i < |b| && b[i].cell in live
    requires StackBatch(stack, live, b[..i]).StackOut?
    ensures Faithful(StackBatch(stack, live, b[..i]).stack, b[i].cell, live[b[i].cell])
    ensures GoodState(live[b[i].cell].state) && ValidSeeds(b[i].seeds)
  {
    hide StackBatch, Faithful, GoodState;
    BatchKeepsSync(stack, live, cur, b[..i]);
  }

  /** Phase 8: the cells of the batch one after the other. From a stack in step with
      direct execution it goes through exactly when the batch does, and leaves the stack
      and the reports of the batch; no bucket changes. */
  method ApplyBatch(st: PendingStack, arena: Arena, b: Batch,
                    ghost live: map<nat, LiveCell>, ghost cur: map<nat, LiveCell>)
    returns (ok: bool, reports: seq<seq<Report>>)
    requires Holds(arena, live) && Sync(EnsureTop(st.stack), live, cur) && ValidBatch(b)
    requires forall i :: 0 <= i < |b| ==> b[i].cell in arena
    modifies st
    ensures Holds(arena, live)
    ensures var r := StackBatch(EnsureTop(old(st.stack)), live, b);
            && ok == r.StackOut?
            && (ok ==> st.stack == r.stack && |reports| == |b| && reports == BatchReports(b, r.outs))
  {
    hide StackBatch, StackWork, Sync, Faithful, BatchReports, Reports, HoldsOne, ValidBatch, GoodState;
    assert st !in Objects(arena);
    st.EnsureTopFrame();
    ghost var before := st.stack;
    reports := [];
    StartBatch(before, live, b);
    ghost var r := StackBatch(before, live, b[..0]);
    for i := 0 to |b|
      invariant Holds(arena, live) && st.stack != []
      invariant r == StackBatch(before, live, b[..i]) && r.StackOut? && st.stack == r.stack && |r.outs| == i
      invariant |reports| == i && reports == BatchReports(b[..i], r.outs)
    {
      var w := b[i];
      SyncAt(before, live, cur, b, i);
      NextWork(before, live, b, i);
      HeldCell(arena[w.cell], live[w.cell]);
      var fine, rs := WorkOnCell(st, arena[w.cell], w);
      if !fine {
        BatchFailsForGood(before, live, b, i + 1);
        return false, [];
      }
      ghost var o := StackWork(r.stack, live[w.cell], w);
      NextReport(b, i, r.outs, o.outs[0]);
      assert o.outs == [o.outs[0]];
      reports := reports + [rs];
      r := StackBatch(before, live, b[..i + 1]);
    }
    assert b[..|b|] == b;
    ok := true;
  }

  lemma StartBatch(stack: seq<Frame>, live: map<nat, LiveCell>, b: Batch)
    requires stack != []
    ensures StackBatch(stack, live, b[..0]) == StackOut(stack, []) && BatchReports(b[..0], []) == []
  {
  }

  lemma HeldCell(b: FifoBucket, c: LiveCell)
    requires HoldsOne(b, c)
    ensures b.Valid() && b.Live() == c
  {
  }

  lemma NextReport(b: Batch, i: nat, outs: seq<seq<Applied>>, out: seq<Applied>)
    requires i < |b| && |outs| == i && |out| == |b[i].envs|
    ensures BatchReports(b[..i + 1], outs + [out]) == BatchReports(b[..i], outs) + [Reports(b[i].envs, out)]
  {
    hide Reports;
  }

  // ---- commit ---------------------------------------------------------------------------

  /** Which cells have been replayed. */
  ghost predicate PartReplayed(arena: Arena, live: map<nat, LiveCell>, merged: Frame, todo: set<nat>)
    reads Objects(arena)
  {
    arena.Keys == live.Keys && forall c :: c in arena ==> HoldsOne(arena[c], Target(live, merged, todo, c))
  }

  /** What a cell holds while the cells of `todo` are still to be replayed. */
  ghost function Target(live: map<nat, LiveCell>, merged: Frame, todo: set<nat>, c: nat): LiveCell
    requires c in live
  {
    if c in merged && c !in todo then CommitCell(live[c], merged[c]) else live[c]
  }

  /** `fifo_xact_commit`: merge the frames and replay cell by cell on the buckets. */
  method Commit(st: PendingStack, arena: Arena, ghost live: map<nat, LiveCell>)
    requires Holds(arena, live) && Separate(arena) && MergeAll(st.stack).Keys <= arena.Keys
    modifies st, Objects(arena)
    ensures st.stack == if old(st.stack) == [] then [] else [map[]]
    ensures Holds(arena, XactCommit(old(st.stack), live))
  {
    hide CommitCell, MergeAll, HoldsOne, Separate, XactCommit;
    ApartFrom(st, arena);
    ghost var frames := st.stack;
    var merged := st.TakeMerged();
    var todo := merged.Keys;
    assert PartReplayed(arena, live, merged, todo);
    hide Objects, PartReplayed, Holds;
    while todo != {}
      invariant todo <= merged.Keys && PartReplayed(arena, live, merged, todo)
      invariant st.stack == if frames == [] then [] else [map[]]
      decreases |todo|
    {
      var c :| c in todo;
      OwnObjects(arena, c);
      ReplayCell(st, arena, live, merged, todo, c);
      todo := todo - {c};
    }
    Replayed(arena, live, frames, merged);
  }

  lemma ApartFrom(st: PendingStack, arena: Arena)
    ensures st !in Objects(arena)
  {
  }

  lemma OwnObjects(arena: Arena, c: nat)
    requires c in arena
    ensures arena[c].Repr() <= Objects(arena)
  {
  }

  method ReplayCell(ghost st: PendingStack, arena: Arena, ghost live: map<nat, LiveCell>, merged: Frame,
                    ghost todo: set<nat>, c: nat)
    requires Separate(arena) && PartReplayed(arena, live, merged, todo)
    requires c in todo && todo <= merged.Keys && c in arena
    modifies arena[c].Repr()
    ensures PartReplayed(arena, live, merged, todo - {c}) && st.stack == old(st.stack)
  {
    hide CommitCell, HoldsOne, Objects, Target;
    TargetIs(live, merged, todo, c);
    HeldCell(arena[c], live[c]);
    assert st !in arena[c].Repr();
    arena[c].CommitShadow(merged[c]);
    NowHeld(arena[c], Target(live, merged, todo - {c}, c));
    forall d | d in arena && d != c
      ensures HoldsOne(arena[d], Target(live, merged, todo - {c}, d))
    {
      TargetIs(live, merged, todo, d);
      assert arena[c].Repr() !! arena[d].Repr();
    }
  }

  lemma TargetIs(live: map<nat, LiveCell>, merged: Frame, todo: set<nat>, c: nat)
    requires c in live
    ensures c in todo ==> Target(live, merged, todo, c) == live[c]
    ensures c in merged ==> Target(live, merged, todo - {c}, c) == CommitCell(live[c], merged[c])
    ensures forall d :: d != c ==> Target(live, merged, todo - {d}, c) == Target(live, merged, todo, c)
  {
    hide CommitCell;
  }

  lemma NowHeld(b: FifoBucket, c: LiveCell)
    requires b.Valid() && b.Live() == c
    ensures HoldsOne(b, c)
  {
  }

  lemma Replayed(arena: Arena, live: map<nat, LiveCell>, frames: seq<Frame>, merged: Frame)
    requires PartReplayed(arena, live, merged, {}) && merged == MergeAll(frames)
    ensures Holds(arena, XactCommit(frames, live))
  {
    hide CommitCell, HoldsOne, MergeAll;
  }

  // ---- a transaction of one batch -------------------------------------------------------

  lemma {:induction false} BatchKeys(stack: seq<Frame>, live: map<nat, LiveCell>, b: Batch)
    requires stack != [] && forall i :: 0 <= i < |stack| ==> stack[i].Keys <= live.Keys
    ensures var r := StackBatch(stack, live, b);
            r.StackOut? ==> forall i :: 0 <= i < |r.stack| ==> r.stack[i].Keys <= live.Keys
  {
    hide Acquire, ApplyEnvelopes;
    if b != [] {
      BatchKeys(stack, live, b[..|b| - 1]);
    }
  }

  lemma {:induction false} MergedKeys(stack: seq<Frame>, cells: set<nat>)
    requires forall i :: 0 <= i < |stack| ==> stack[i].Keys <= cells
    ensures MergeAll(stack).Keys <= cells
  {
    hide MergeShadow;
    if stack != [] {
      MergedKeys(stack[..|stack| - 1], cells);
    }
  }

  lemma FreshSync(live: map<nat, LiveCell>)
    requires forall c :: c in live ==> GoodState(live[c].state)
    ensures Sync([map[]], live, live)
  {
    var stack: seq<Frame> := [map[]];
    assert stack[..0] == [];
    hide GoodState;
    forall c | c in live
      ensures Faithful(stack, c, live[c]) && Visible(stack, c, live[c]) == live[c]
    {
      assert Faithful(stack[..0], c, live[c]) && Visible(stack[..0], c, live[c]) == live[c];
    }
  }

  /** A batch and its commit on the buckets themselves leave the cells, and report the
      slices and costs, of running the batch on the cells directly; a batch that fails
      leaves every cell as it was. */
  method ApplyAndCommit(st: PendingStack, arena: Arena, b: Batch, ghost live: map<nat, LiveCell>)
    returns (ok: bool, reports: seq<seq<Report>>)
    requires Holds(arena, live) && Separate(arena) && st.stack in {[], [map[]]} && ValidBatch(b)
    requires forall c :: c in live ==> GoodState(live[c].state)
    requires forall i :: 0 <= i < |b| ==> b[i].cell in arena
    modifies st, Objects(arena)
    ensures ok == DirectBatch(live, b).DirectOut?
    ensures Holds(arena, if ok then DirectBatch(live, b).live else live)
    ensures ok ==> reports == BatchReports(b, DirectBatch(live, b).outs)
    ensures FifoShortage.DistinctCells(b) ==>
              (ok <==> forall i :: 0 <= i < |b| ==> FifoShortage.ShareCovered(live, b, i))
  {
    hide FifoShortage.ShareCovered, FifoShortage.DistinctCells;
    hide Objects, Separate, Sync, ValidBatch, StackBatch, DirectBatch, GoodState, MergeAll, XactCommit,
      BatchReports, HoldsOne;
    if FifoShortage.DistinctCells(b) {
      FifoShortage.BatchGoesThroughIff(live, b);
    }
    ghost var start: seq<Frame> := [map[]];
    assert EnsureTop(st.stack) == start;
    FreshSync(live);
    BatchKeepsSync(start, live, live, b);
    ok, reports := ApplyBatch(st, arena, b, live, live);
    if ok {
      BatchKeys(start, live, b);
      MergedKeys(st.stack, live.Keys);
      CommitShowsVisible(st.stack, live, DirectBatch(live, b).live);
      Commit(st, arena, live);
    }
  }
}

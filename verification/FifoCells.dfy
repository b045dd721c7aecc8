/** The mutable side of the FIFO arena (poc/ledger-extension/src/fifo.rs): a live
    bucket, a shadow being worked on, and a backend's stack of frames, each
    proved against the functions of FifoTransaction. */
module FifoCells {
  import opened Int64
  import opened LayerRing
  import opened FifoTransaction
  import FifoDurable

  /** A private working copy of a cell. */
  class ShadowCell {
    const ring: RingFields
    var overflowActive: bool
    var overflowWatermark: int
    var ops: seq<LayerOp>

    ghost predicate Valid()
      reads this, ring
    {
      ring.Valid()
    }

    ghost function State(): CellState
      requires Valid()
      reads this, ring, ring.layers, ring.pendingDrain
    {
      CellState(RingVal(ring.Contents(), ring.Pending()), overflowActive, overflowWatermark)
    }

    constructor ()
      ensures Valid() && ops == [] && State() == CellState(RingVal([], []), false, 0)
      ensures fresh(ring) && fresh(ring.layers) && fresh(ring.pendingDrain)
    {
      ring := new RingFields();
      overflowActive, overflowWatermark, ops := false, 0, [];
    }

    /** The object that works on a shadow given as a value. */
    constructor Load(sh: Shadow)
      requires |sh.state.ring.layers| <= MAX_LAYERS && |sh.state.ring.pending| <= PENDING_DRAIN_CAP
      ensures Valid() && ops == sh.ops && State() == sh.state
      ensures fresh(ring) && fresh(ring.layers) && fresh(ring.pendingDrain)
    {
      ring := new RingFields.Load(sh.state.ring.layers, sh.state.ring.pending);
      overflowActive, overflowWatermark, ops := sh.state.overflow, sh.state.watermark, sh.ops;
    }

    method Snapshot() returns (s: CellState)
      requires Valid()
      ensures s == State()
    {
      var layers, pending := ring.Snapshot();
      s := CellState(RingVal(layers, pending), overflowActive, overflowWatermark);
    }

    /** The receipt arm of Phase 8: once the cell overflows, receipts bypass the ring. */
    method Receive(layer: Layer)
      requires Valid()
      modifies this, ring, ring.layers
      ensures Valid()
      ensures var a := ApplyReceipt(old(State()), layer);
              State() == a.state && ops == old(ops) + a.ops
    {
      var pushed := false;
      if !overflowActive {
        pushed := ring.PushLayer(layer);
        if pushed {
          ops := ops + [Push(layer)];
        }
      }
      if !pushed && !overflowActive {
        overflowActive := true;
        if overflowWatermark == 0 {
          overflowWatermark := layer.layerId;
        }
        ops := ops + [OverflowActivate(layer.layerId)];
      }
    }

    /** The issue arm of Phase 8: walk the ring, record the units served, and stage
        each slice for the background drain while the list has room. */
    method Issue(qty: int) returns (totalCost: int, slices: seq<Slice>, inlined: seq<Slice>, shortage: int)
      requires Valid()
      modifies this`ops, ring, ring.layers, ring.pendingDrain
      ensures Valid()
      ensures old(ops) <= ops
      ensures ApplyIssue(old(State()), qty) == Applied(State(), ops[|old(ops)|..], slices, inlined, shortage)
      ensures totalCost == SatCost(slices)
    {
      hide RingFields.Contents, RingFields.Pending, LayerRing.Consume, SatCost, Drains, DrainOps, Fitting;
      totalCost, slices, shortage := ring.ConsumeFromHead(qty);
      if qty - shortage > 0 {
        ops := ops + [LayerOp.Consume(qty - shortage)];
      }
      ghost var base := ops;
      inlined := Stage(slices);
      ghost var k := Fitting(old(ring.Pending()), slices);
      assert ops[|old(ops)|..] == base[|old(ops)|..] + DrainOps(slices[..k]);
    }

    method Stage(slices: seq<Slice>) returns (inlined: seq<Slice>)
      requires Valid()
      modifies this`ops, ring`pendingDrainN, ring.pendingDrain
      ensures Valid()
      ensures ring.Contents() == old(ring.Contents())
      ensures var k := Fitting(old(ring.Pending()), slices);
              && ring.Pending() == old(ring.Pending()) + Drains(slices[..k])
              && ops == old(ops) + DrainOps(slices[..k])
              && inlined == slices[k..]
    {
      hide Drains, DrainOps, RingFields.Contents, Fitting;
      inlined := [];
      ghost var p0 := ring.Pending();
      FittingIs(p0, slices);
      ghost var k := 0;
      for j := 0 to |slices|
        invariant Valid() && ring.Contents() == old(ring.Contents())
        invariant k == Min(j, PENDING_DRAIN_CAP - |p0|) && 0 <= k <= j
        invariant |ring.Pending()| == |p0| + k && ring.Pending() == p0 + Drains(slices[..k])
        invariant ops == old(ops) + DrainOps(slices[..k])
        invariant inlined == slices[k..j]
      {
        var staged := ring.PushPendingDrain(slices[j].layerId, slices[j].qtyConsumed);
        if staged {
          StageOne(slices, j);
          ops := ops + [PendingDrainPush(slices[j].layerId, slices[j].qtyConsumed)];
          k := k + 1;
        } else {
          inlined := inlined + [slices[j]];
        }
      }
    }

    static lemma FittingIs(pending: seq<PendingDrain>, slices: seq<Slice>)
      requires |pending| <= PENDING_DRAIN_CAP
      ensures Fitting(pending, slices) == Min(|slices|, PENDING_DRAIN_CAP - |pending|)
    {
    }

    static lemma StageOne(slices: seq<Slice>, j: nat)
      requires j < |slices|
      ensures Drains(slices[..j + 1]) == Drains(slices[..j]) + [PendingDrain(slices[j].layerId, slices[j].qtyConsumed)]
      ensures DrainOps(slices[..j + 1])
           == DrainOps(slices[..j]) + [PendingDrainPush(slices[j].layerId, slices[j].qtyConsumed)]
    {
    }
  }

  /** A live cell of the arena. */
  class FifoBucket {
    const ring: RingFields
    var seeded: bool
    var overflowActive: bool
    var firstSpilledLayerId: int

    ghost predicate Valid()
      reads this, ring
    {
      ring.Valid()
    }

    ghost function State(): CellState
      requires Valid()
      reads this, ring, ring.layers, ring.pendingDrain
    {
      CellState(RingVal(ring.Contents(), ring.Pending()), overflowActive, firstSpilledLayerId)
    }

    constructor ()
      ensures Valid() && !seeded && State() == CellState(RingVal([], []), false, 0)
      ensures fresh(ring) && fresh(ring.layers) && fresh(ring.pendingDrain)
    {
      ring := new RingFields();
      seeded, overflowActive, firstSpilledLayerId := false, false, 0;
    }

    ghost function Repr(): set<object> {
      {this, ring, ring.layers, ring.pendingDrain}
    }

    /** The cell as a value: its state and whether it has been seeded. */
    ghost function Live(): LiveCell
      requires Valid()
      reads this, ring, ring.layers, ring.pendingDrain
    {
      LiveCell(State(), seeded)
    }

    method Snapshot() returns (c: LiveCell)
      requires Valid()
      ensures c == Live()
    {
      var layers, pending := ring.Snapshot();
      c := LiveCell(CellState(RingVal(layers, pending), overflowActive, firstSpilledLayerId), seeded);
    }

    method ReplayOp(op: LayerOp)
      requires Valid()
      modifies this`overflowActive, this`firstSpilledLayerId, ring, ring.layers, ring.pendingDrain
      ensures Valid() && State() == Replay(op, old(State()))
    {
      match op
      case Push(layer) =>
        var ok := ring.PushLayer(layer);
        if !ok {
          overflowActive := true;
          if firstSpilledLayerId == 0 {
            firstSpilledLayerId := layer.layerId;
          }
        }
      case Consume(qty) =>
        var _, _, _ := ring.ConsumeFromHead(qty);
      case PendingDrainPush(layerId, qtyConsumed) =>
        var _ := ring.PushPendingDrain(layerId, qtyConsumed);
      case OverflowActivate(id) =>
        overflowActive := true;
        if firstSpilledLayerId == 0 {
          firstSpilledLayerId := id;
        }
    }

    method ReplayOps(ops: seq<LayerOp>)
      requires Valid()
      modifies this`overflowActive, this`firstSpilledLayerId, ring, ring.layers, ring.pendingDrain
      ensures Valid() && State() == ReplayAll(ops, old(State()))
    {
      for i := 0 to |ops|
        invariant Valid() && State() == ReplayAll(ops[..i], old(State()))
      {
        ReplayOne(ops[..i], ops[i], old(State()));
        assert ops[..i + 1] == ops[..i] + [ops[i]];
        ReplayOp(ops[i]);
      }
      assert ops[..|ops|] == ops;
    }

    /** The body of the commit loop for one cell: seed it if nobody has, then
        replay the recorded operations. */
    method CommitShadow(sh: Shadow)
      requires Valid()
      modifies this, ring, ring.layers, ring.pendingDrain
      ensures Valid()
      ensures Live() == CommitCell(old(Live()), sh)
    {
      if sh.stampSeeded && !seeded {
        ReplayOps(sh.seedOps);
        seeded := true;
      }
      ReplayOps(sh.ops);
    }

    /** The background tick's hold on one cell: hand over the staged drains. */
    method SnapshotPending() returns (entries: seq<PendingDrain>)
      requires Valid()
      modifies ring`pendingDrainN
      ensures Valid() && entries == old(State()).ring.pending
      ensures State() == var s := old(State()); s.(ring := s.ring.(pending := []))
    {
      entries := ring.DrainPendingInto([]);
    }

    /** What the tick does with the entries it took when its UPDATE fails. */
    method Restage(entries: seq<PendingDrain>)
      requires Valid()
      modifies ring`pendingDrainN, ring.pendingDrain
      ensures Valid() && State() == FifoDurable.Restaged(old(State()), entries)
    {
      ghost var p0 := ring.Pending();
      for i := 0 to |entries|
        invariant Valid() && ring.Contents() == old(ring.Contents())
        invariant |p0| <= PENDING_DRAIN_CAP
        invariant ring.Pending() == p0 + entries[..Min(i, PENDING_DRAIN_CAP - |p0|)]
      {
        var _ := ring.PushPendingDrain(entries[i].layerId, entries[i].qtyConsumed);
      }
    }
  }

  // ---- Merging frames -----------------------------------------------------------------

  /** `child` has been merged into `parent` for every cell outside `todo`. */
  ghost predicate PartMerged(parent: Frame, child: Frame, todo: set<nat>, merged: Frame) {
    && merged.Keys == parent.Keys + (child.Keys - todo)
    && forall c :: c in merged ==>
         merged[c] == if c !in child || c in todo then parent[c]
                      else if c !in parent then child[c] else MergeShadow(parent[c], child[c])
  }

  lemma MergeOneMore(parent: Frame, child: Frame, todo: set<nat>, merged: Frame, c: nat, sh: Shadow)
    requires PartMerged(parent, child, todo, merged) && c in todo && todo <= child.Keys
    requires sh == if c in merged then MergeShadow(merged[c], child[c]) else child[c]
    ensures PartMerged(parent, child, todo - {c}, merged[c := sh])
  {
    hide MergeShadow;
    assert c in merged <==> c in parent;
  }

  lemma AllMerged(parent: Frame, child: Frame, merged: Frame)
    requires PartMerged(parent, child, {}, merged)
    ensures merged == MergeFrame(parent, child)
  {
    hide MergeShadow;
  }

  /** The shadow of the later frame supersedes the earlier one: operations are appended,
      and seed operations are taken over only when there were none. */
  method MergeEntry(p: Shadow, sh: Shadow) returns (r: Shadow)
    ensures r == MergeShadow(p, sh)
  {
    r := p.(ops := p.ops + sh.ops, state := sh.state);
    if sh.stampSeeded && !p.stampSeeded {
      r := r.(stampSeeded := true, seedOps := sh.seedOps);
    }
  }

  /** Every entry of `child`, in whatever order the hash map yields them. */
  method MergeInto(parent: Frame, child: Frame) returns (merged: Frame)
    ensures merged == MergeFrame(parent, child)
  {
    merged := parent;
    var todo := child.Keys;
    assert PartMerged(parent, child, todo, merged);
    hide *;
    while todo != {}
      invariant todo <= child.Keys && PartMerged(parent, child, todo, merged)
      decreases |todo|
    {
      var c :| c in todo;
      var sh := child[c];
      if c in merged {
        sh := MergeEntry(merged[c], sh);
      }
      MergeOneMore(parent, child, todo, merged, c, sh);
      merged := merged[c := sh];
      todo := todo - {c};
    }
    AllMerged(parent, child, merged);
  }

  lemma PutBack(f: Frame, cell: nat, sh: Shadow)
    ensures (f - {cell})[cell := sh] == f[cell := sh]
  {
  }

  /** A backend's stack of frames, with the transaction and subtransaction callbacks. */
  class PendingStack {
    var stack: seq<Frame>

    constructor ()
      ensures stack == []
    {
      stack := [];
    }

    method EnsureTopFrame()
      modifies this
      ensures stack == EnsureTop(old(stack))
    {
      if stack == [] {
        stack := [map[]];
      }
    }

    /** Takes the top frame's own shadow out of the frame; InstallShadow puts the
        worked-on shadow back. */
    method AcquireShadow(cell: nat, live: LiveCell, seeds: seq<Layer>) returns (sh: Shadow)
      requires stack != []
      modifies this
      ensures sh == Acquire(old(stack), cell, live, seeds)
      ensures |stack| == |old(stack)|
      ensures forall s :: Install(stack, cell, s) == Install(old(stack), cell, s)
    {
      var n := |stack|;
      var top := stack[n - 1];
      if cell in top {
        sh := top[cell];
        var rest: Frame := top - {cell};
        stack := stack[n - 1 := rest];
        forall s: Shadow
          ensures Install(stack, cell, s) == Install(old(stack), cell, s)
        {
          PutBack(top, cell, s);
        }
        return;
      }
      var i := n - 1;
      while i > 0
        invariant 0 <= i <= n - 1
        invariant Visible(stack, cell, live) == Visible(stack[..i], cell, live)
      {
        assert stack[..i][..i - 1] == stack[..i - 1];
        if cell in stack[i - 1] {
          sh := Shadow(stack[i - 1][cell].state, false, [], []);
          return;
        }
        i := i - 1;
      }
      assert stack[..0] == [];
      if live.seeded {
        sh := Shadow(live.state, false, [], []);
      } else {
        var seedOps := SeedOps(live.state, seeds);
        sh := Shadow(ReplayAll(seedOps, live.state), true, seedOps, []);
      }
    }

    method InstallShadow(cell: nat, sh: Shadow)
      requires stack != []
      modifies this
      ensures stack == Install(old(stack), cell, sh)
      ensures forall c: nat, live ::
                Visible(stack, c, live) == if c == cell then LiveCell(sh.state, true) else Visible(old(stack), c, live)
    {
      forall c: nat, live: LiveCell | c != cell
        ensures Visible(Install(stack, cell, sh), c, live) == Visible(stack, c, live)
      {
        InstallFrame(stack, cell, sh, c, live);
      }
      var top: Frame := stack[|stack| - 1][cell := sh];
      stack := stack[|stack| - 1 := top];
    }

    method SubxactStart()
      modifies this
      ensures stack == StartSub(old(stack))
      ensures forall c: nat, live :: Visible(stack, c, live) == Visible(old(stack), c, live)
    {
      stack := stack + [map[]];
      assert stack[..|stack| - 1] == old(stack);
    }

    method SubxactCommit()
      modifies this
      ensures stack == CommitSub(old(stack))
    {
      if stack == [] {
        stack := [map[]];
        return;
      }
      var popped := stack[|stack| - 1];
      stack := stack[..|stack| - 1];
      if stack == [] {
        stack := [popped];
        return;
      }
      var merged := MergeInto(stack[|stack| - 1], popped);
      stack := stack[..|stack| - 1] + [merged];
    }

    method SubxactAbort()
      modifies this
      ensures stack == AbortSub(old(stack))
    {
      if stack != [] {
        stack := stack[..|stack| - 1];
      }
      if stack == [] {
        stack := [map[]];
      }
    }

    method Abort()
      modifies this
      ensures stack == [map[]]
      ensures forall c: nat, live :: Visible(stack, c, live) == live
    {
      stack := [map[]];
      assert stack[..|stack| - 1] == [];
    }

    /** The merge at the head of a commit, and the fresh frame it leaves. */
    method TakeMerged() returns (merged: Frame)
      modifies this
      ensures merged == MergeAll(old(stack))
      ensures stack == if old(stack) == [] then [] else [map[]]
    {
      hide MergeFrame;
      merged := map[];
      var frames := stack;
      if frames != [] {
        stack := [map[]];
      }
      for i := 0 to |frames|
        invariant merged == MergeAll(frames[..i])
        invariant stack == if frames == [] then [] else [map[]]
      {
        assert frames[..i + 1][..i] == frames[..i];
        merged := MergeInto(merged, frames[i]);
      }
      assert frames[..|frames|] == frames;
    }
  }
}

/** Deferred apply of poc/ledger-extension/src/fifo.rs: a batch works on private
    shadows of the cells it touches and records operations; savepoints push,
    merge or drop frames of shadows; commit replays the operations on the live
    cells. */
module FifoTransaction {
  import opened Int64
  import opened LayerRing

  datatype RingVal = RingVal(layers: seq<Layer>, pending: seq<PendingDrain>)

  /** Ring, `overflow_active` and `overflow_first_spilled_layer_id`. */
  datatype CellState = CellState(ring: RingVal, overflow: bool, watermark: int)

  datatype LiveCell = LiveCell(state: CellState, seeded: bool)

  datatype LayerOp =
    | Push(layer: Layer)
    | Consume(qty: int)
    | PendingDrainPush(layerId: int, qtyConsumed: int)
    | OverflowActivate(spilledId: int)

  datatype Shadow = Shadow(state: CellState, stampSeeded: bool, seedOps: seq<LayerOp>, ops: seq<LayerOp>)

  type Frame = map<nat, Shadow>

  // ---- replay -----------------------------------------------------------------

  function Activate(s: CellState, spilledId: int): CellState {
    s.(overflow := true, watermark := if s.watermark == 0 then spilledId else s.watermark)
  }

  function Replay(op: LayerOp, s: CellState): CellState {
    match op
    case Push(layer) =>
      if |s.ring.layers| < MAX_LAYERS then s.(ring := s.ring.(layers := s.ring.layers + [layer]))
      else Activate(s, layer.layerId)
    case Consume(qty) => s.(ring := s.ring.(layers := LayerRing.Consume(s.ring.layers, qty).rest))
    case PendingDrainPush(id, qty) =>
      if |s.ring.pending| < PENDING_DRAIN_CAP then
        s.(ring := s.ring.(pending := s.ring.pending + [PendingDrain(id, qty)]))
      else s
    case OverflowActivate(id) => Activate(s, id)
  }

  function ReplayAll(ops: seq<LayerOp>, s: CellState): CellState {
    if ops == [] then s else Replay(ops[|ops| - 1], ReplayAll(ops[..|ops| - 1], s))
  }

  lemma {:induction false} ReplayAppend(a: seq<LayerOp>, b: seq<LayerOp>, s: CellState)
    ensures ReplayAll(a + b, s) == ReplayAll(b, ReplayAll(a, s))
  {
    if b == [] {
      assert a + b == a;
    } else {
      var front := b[..|b| - 1];
      ReplayAppend(a, front, s);
      assert (a + b)[..|a + b| - 1] == a + front;
    }
  }

  lemma ReplayOne(a: seq<LayerOp>, op: LayerOp, s: CellState)
    ensures ReplayAll(a + [op], s) == Replay(op, ReplayAll(a, s))
  {
    assert (a + [op])[..|a|] == a;
  }

  // ---- applying envelopes to a cell ---------------------------------------------

  datatype Envelope = Receipt(layer: Layer) | Issue(qty: int)

  ghost predicate ValidEnvelope(e: Envelope) {
    match e
    case Receipt(layer) => layer.qty > 0
    case Issue(qty) => qty > 0
  }

  /** State change, recorded operations, what the issue took, and which of those
      takes found the pending-drain list full and go to the inline UPDATE. */
  datatype Applied = Applied(state: CellState, ops: seq<LayerOp>, slices: seq<Slice>, inlined: seq<Slice>,
                             shortage: int)

  function ApplyReceipt(s: CellState, layer: Layer): Applied {
    if !s.overflow && |s.ring.layers| < MAX_LAYERS then
      Applied(s.(ring := s.ring.(layers := s.ring.layers + [layer])), [Push(layer)], [], [], 0)
    else if !s.overflow then
      Applied(Activate(s, layer.layerId), [OverflowActivate(layer.layerId)], [], [], 0)
    else Applied(s, [], [], [], 0)
  }

  /** How many of `slices` still fit in the pending-drain list. */
  function Fitting(pending: seq<PendingDrain>, slices: seq<Slice>): (k: nat)
    ensures k <= |slices|
  {
    if |pending| >= PENDING_DRAIN_CAP then 0
    else if |pending| + |slices| <= PENDING_DRAIN_CAP then |slices|
    else PENDING_DRAIN_CAP - |pending|
  }

  function DrainOps(slices: seq<Slice>): (ops: seq<LayerOp>)
    ensures |ops| == |slices|
  {
    seq(|slices|, i requires 0 <= i < |slices| => PendingDrainPush(slices[i].layerId, slices[i].qtyConsumed))
  }

  function Drains(slices: seq<Slice>): (d: seq<PendingDrain>)
    ensures |d| == |slices|
  {
    seq(|slices|, i requires 0 <= i < |slices| => PendingDrain(slices[i].layerId, slices[i].qtyConsumed))
  }

  function ApplyIssue(s: CellState, qty: int): Applied {
    var w := LayerRing.Consume(s.ring.layers, qty);
    var served := qty - w.shortage;
    var k := Fitting(s.ring.pending, w.slices);
    Applied(s.(ring := RingVal(w.rest, s.ring.pending + Drains(w.slices[..k]))),
            (if served > 0 then [LayerOp.Consume(served)] else []) + DrainOps(w.slices[..k]),
            w.slices, w.slices[k..], w.shortage)
  }

  function ApplyEnvelope(s: CellState, e: Envelope): Applied {
    match e
    case Receipt(layer) => ApplyReceipt(s, layer)
    case Issue(qty) => ApplyIssue(s, qty)
  }

  /** An issue that runs short of a ring without a spilled tail aborts the batch. */
  predicate Fails(s: CellState, e: Envelope) {
    e.Issue? && ApplyIssue(s, e.qty).shortage > 0 && !s.overflow
  }

  ghost predicate GoodState(s: CellState) {
    && Positive(s.ring.layers)
    && |s.ring.layers| <= MAX_LAYERS
    && |s.ring.pending| <= PENDING_DRAIN_CAP
  }

  lemma {:induction false} ServedLeavesSame(layers: seq<Layer>, qty: nat)
    requires Positive(layers)
    ensures var w := LayerRing.Consume(layers, qty);
            && w.shortage >= 0
            && LayerRing.Consume(layers, qty - w.shortage).rest == w.rest
    decreases |layers|
  {
    if qty > 0 && layers != [] && qty >= layers[0].qty {
      var rest := layers[1..];
      ServedLeavesSame(rest, qty - layers[0].qty);
      ConsumeTakesOldestUnits(rest, qty - layers[0].qty);
      var w := LayerRing.Consume(rest, qty - layers[0].qty);
      assert LayerRing.Consume(layers, qty).shortage == w.shortage;
    }
  }

  lemma {:induction false} ReplayDrainOps(slices: seq<Slice>, s: CellState)
    requires |s.ring.pending| + |slices| <= PENDING_DRAIN_CAP
    ensures ReplayAll(DrainOps(slices), s) == s.(ring := s.ring.(pending := s.ring.pending + Drains(slices)))
  {
    if slices == [] {
      assert s.ring.pending + Drains(slices) == s.ring.pending;
    } else {
      var front, last := slices[..|slices| - 1], slices[|slices| - 1];
      ReplayDrainOps(front, s);
      assert DrainOps(slices)[..|slices| - 1] == DrainOps(front);
      assert s.ring.pending + Drains(slices)
          == (s.ring.pending + Drains(front)) + [PendingDrain(last.layerId, last.qtyConsumed)];
    }
  }

  /** Replaying what an envelope recorded, on the state it started from, gives
      the state it computed. */
  lemma EnvelopeReplays(s: CellState, e: Envelope)
    requires GoodState(s) && ValidEnvelope(e)
    ensures var a := ApplyEnvelope(s, e);
            ReplayAll(a.ops, s) == a.state && GoodState(a.state)
  {
    match e
    case Receipt(layer) =>
      var a := ApplyReceipt(s, layer);
      if a.ops != [] {
        assert a.ops[..0] == [];
      }
    case Issue(qty) =>
      IssueReplays(s, qty);
      IssueKeepsGood(s, qty);
  }

  /** The recorded Consume, if any, leaves the layers the walk left. */
  lemma ServedReplays(s: CellState, qty: nat)
    requires Positive(s.ring.layers) && qty > 0
    ensures var w := LayerRing.Consume(s.ring.layers, qty);
            var first := if qty - w.shortage > 0 then [LayerOp.Consume(qty - w.shortage)] else [];
            ReplayAll(first, s) == s.(ring := s.ring.(layers := w.rest))
  {
    var w := LayerRing.Consume(s.ring.layers, qty);
    ServedLeavesSame(s.ring.layers, qty);
    if qty - w.shortage > 0 {
      hide LayerRing.Consume;
      ReplayOne([], LayerOp.Consume(qty - w.shortage), s);
      assert [] + [LayerOp.Consume(qty - w.shortage)] == [LayerOp.Consume(qty - w.shortage)];
    }
  }

  lemma IssueReplays(s: CellState, qty: nat)
    requires GoodState(s) && qty > 0
    ensures ReplayAll(ApplyIssue(s, qty).ops, s) == ApplyIssue(s, qty).state
  {
    var w := LayerRing.Consume(s.ring.layers, qty);
    ServedReplays(s, qty);
    hide LayerRing.Consume, ReplayAll;
    var first := if qty - w.shortage > 0 then [LayerOp.Consume(qty - w.shortage)] else [];
    var k := Fitting(s.ring.pending, w.slices);
    ReplayDrainOps(w.slices[..k], s.(ring := s.ring.(layers := w.rest)));
    ReplayAppend(first, DrainOps(w.slices[..k]), s);
  }

  lemma IssueKeepsGood(s: CellState, qty: nat)
    requires GoodState(s) && qty > 0
    ensures GoodState(ApplyIssue(s, qty).state)
  {
    ConsumeTakesOldestUnits(s.ring.layers, qty);
    ConsumeShrinks(s.ring.layers, qty);
    hide LayerRing.Consume;
  }

  lemma {:induction false} ConsumeShrinks(layers: seq<Layer>, qty: int)
    ensures |LayerRing.Consume(layers, qty).rest| <= |layers|
    decreases |layers|
  {
    if qty > 0 && layers != [] && Min(qty, layers[0].qty) == layers[0].qty {
      ConsumeShrinks(layers[1..], qty - layers[0].qty);
    }
  }

  // ---- a run of envelopes on one cell --------------------------------------------

  /** The envelopes of one cell in order; stops with no result at the first failure. */
  datatype CellOut = CellOut(state: CellState, ops: seq<LayerOp>, outs: seq<Applied>) | CellFail

  function ApplyEnvelopes(s: CellState, envs: seq<Envelope>): CellOut {
    if envs == [] then CellOut(s, [], [])
    else
      match ApplyEnvelopes(s, envs[..|envs| - 1])
      case CellFail => CellFail
      case CellOut(s1, ops, outs) =>
        if Fails(s1, envs[|envs| - 1]) then CellFail
        else
          var a := ApplyEnvelope(s1, envs[|envs| - 1]);
          CellOut(a.state, ops + a.ops, outs + [a])
  }

  ghost predicate ValidEnvelopes(envs: seq<Envelope>) {
    forall i :: 0 <= i < |envs| ==> ValidEnvelope(envs[i])
  }

  lemma {:induction false} EnvelopesReplay(s: CellState, envs: seq<Envelope>)
    requires GoodState(s) && ValidEnvelopes(envs)
    ensures var r := ApplyEnvelopes(s, envs);
            r.CellOut? ==> ReplayAll(r.ops, s) == r.state && GoodState(r.state)
  {
    if envs != [] {
      var front := envs[..|envs| - 1];
      EnvelopesReplay(s, front);
      var r := ApplyEnvelopes(s, front);
      if r.CellOut? {
        EnvelopeReplays(r.state, envs[|envs| - 1]);
        ReplayAppend(r.ops, ApplyEnvelope(r.state, envs[|envs| - 1]).ops, s);
      }
    }
  }

  // ---- lazy seed ------------------------------------------------------------------

  /** Push the durable layers; on a full ring raise the overflow flag and stop. */
  function SeedOps(s: CellState, seeds: seq<Layer>): (ops: seq<LayerOp>)
    decreases |seeds|
  {
    if seeds == [] then []
    else if |s.ring.layers| < MAX_LAYERS then
      [Push(seeds[0])] + SeedOps(Replay(Push(seeds[0]), s), seeds[1..])
    else if !s.overflow then [OverflowActivate(seeds[0].layerId)]
    else []
  }

  ghost predicate ValidSeeds(seeds: seq<Layer>) {
    Positive(seeds)
  }

  lemma {:induction false} SeedKeepsGood(s: CellState, seeds: seq<Layer>)
    requires GoodState(s) && ValidSeeds(seeds)
    ensures GoodState(ReplayAll(SeedOps(s, seeds), s))
    decreases |seeds|
  {
    if seeds != [] && |s.ring.layers| < MAX_LAYERS {
      var s1 := Replay(Push(seeds[0]), s);
      SeedKeepsGood(s1, seeds[1..]);
      ReplayAppend([Push(seeds[0])], SeedOps(s1, seeds[1..]), s);
      ReplayOne([], Push(seeds[0]), s);
      assert [] + [Push(seeds[0])] == [Push(seeds[0])];
    } else if seeds != [] && !s.overflow {
      ReplayOne([], OverflowActivate(seeds[0].layerId), s);
      assert [] + [OverflowActivate(seeds[0].layerId)] == [OverflowActivate(seeds[0].layerId)];
    }
  }

  function Seeded(c: LiveCell, seeds: seq<Layer>): CellState {
    if c.seeded then c.state else ReplayAll(SeedOps(c.state, seeds), c.state)
  }

  // ---- direct execution: the reference ----------------------------------------------

  /** The share of a batch that falls on one cell: its envelopes, and the durable
      layers fetched for it in case it is still unseeded. */
  datatype Work = Work(cell: nat, envs: seq<Envelope>, seeds: seq<Layer>)

  type Batch = seq<Work>

  /** What running one cell's share on the cell itself gives. */
  function DirectWork(c: LiveCell, w: Work): CellOut {
    ApplyEnvelopes(Seeded(c, w.seeds), w.envs)
  }

  datatype DirectOut = DirectOut(live: map<nat, LiveCell>, outs: seq<seq<Applied>>) | DirectFail

  function DirectBatch(live: map<nat, LiveCell>, b: Batch): DirectOut {
    if b == [] then DirectOut(live, [])
    else
      match DirectBatch(live, b[..|b| - 1])
      case DirectFail => DirectFail
      case DirectOut(l, outs) =>
        var w := b[|b| - 1];
        if w.cell !in l then DirectFail
        else
          match DirectWork(l[w.cell], w)
          case CellFail => DirectFail
          case CellOut(s, _, o) => DirectOut(l[w.cell := LiveCell(s, true)], outs + [o])
  }

  function DirectAll(live: map<nat, LiveCell>, batches: seq<Batch>): DirectOut {
    if batches == [] then DirectOut(live, [])
    else
      match DirectAll(live, batches[..|batches| - 1])
      case DirectFail => DirectFail
      case DirectOut(l, outs) =>
        match DirectBatch(l, batches[|batches| - 1])
        case DirectFail => DirectFail
        case DirectOut(l', outs') => DirectOut(l', outs + outs')
  }

  // ---- the stack of frames --------------------------------------------------------

  function EnsureTop(stack: seq<Frame>): (r: seq<Frame>)
    ensures r != []
  {
    if stack == [] then [map[]] else stack
  }

  /** The cell as the innermost frame that knows it sees it, else the live cell. */
  function Visible(stack: seq<Frame>, cell: nat, live: LiveCell): LiveCell {
    if stack == [] then live
    else if cell in stack[|stack| - 1] then LiveCell(stack[|stack| - 1][cell].state, true)
    else Visible(stack[..|stack| - 1], cell, live)
  }

  /** `fifo_acquire_shadow`: the top frame's own shadow, else a copy of the nearest
      enclosing one with nothing recorded, else a snapshot of the live cell with
      the seed pushes it still needs. */
  function Acquire(stack: seq<Frame>, cell: nat, live: LiveCell, seeds: seq<Layer>): Shadow
    requires stack != []
  {
    if cell in stack[|stack| - 1] then stack[|stack| - 1][cell]
    else
      var v := Visible(stack, cell, live);
      if v.seeded then Shadow(v.state, false, [], [])
      else
        var seedOps := SeedOps(v.state, seeds);
        Shadow(ReplayAll(seedOps, v.state), true, seedOps, [])
  }

  function Install(stack: seq<Frame>, cell: nat, sh: Shadow): seq<Frame>
    requires stack != []
  {
    var top: Frame := stack[|stack| - 1][cell := sh];
    stack[|stack| - 1 := top]
  }

  datatype StackOut = StackOut(stack: seq<Frame>, outs: seq<seq<Applied>>) | StackFail

  /** Phase 8 for one cell. */
  function StackWork(stack: seq<Frame>, live: LiveCell, w: Work): (r: StackOut)
    requires stack != []
    ensures r.StackOut? ==> r.stack != []
  {
    var sh := Acquire(stack, w.cell, live, w.seeds);
    match ApplyEnvelopes(sh.state, w.envs)
    case CellFail => StackFail
    case CellOut(s, ops, outs) => StackOut(Install(stack, w.cell, sh.(state := s, ops := sh.ops + ops)), [outs])
  }

  function StackBatch(stack: seq<Frame>, live: map<nat, LiveCell>, b: Batch): (r: StackOut)
    requires stack != []
    ensures r.StackOut? ==> r.stack != []
  {
    if b == [] then StackOut(stack, [])
    else
      match StackBatch(stack, live, b[..|b| - 1])
      case StackFail => StackFail
      case StackOut(st, outs) =>
        var w := b[|b| - 1];
        if w.cell !in live then StackFail
        else
          match StackWork(st, live[w.cell], w)
          case StackFail => StackFail
          case StackOut(st', o) => StackOut(st', outs + o)
  }

  function MergeShadow(p: Shadow, c: Shadow): Shadow {
    Shadow(c.state, p.stampSeeded || c.stampSeeded,
           if c.stampSeeded && !p.stampSeeded then c.seedOps else p.seedOps, p.ops + c.ops)
  }

  function MergeFrame(parent: Frame, child: Frame): Frame {
    map cell | cell in parent.Keys + child.Keys ::
      if cell in parent && cell in child then MergeShadow(parent[cell], child[cell])
      else if cell in child then child[cell]
      else parent[cell]
  }

  function StartSub(stack: seq<Frame>): seq<Frame> {
    stack + [map[]]
  }

  function CommitSub(stack: seq<Frame>): (r: seq<Frame>)
    ensures r != []
  {
    if stack == [] then [map[]]
    else if |stack| == 1 then stack
    else stack[..|stack| - 2] + [MergeFrame(stack[|stack| - 2], stack[|stack| - 1])]
  }

  function AbortSub(stack: seq<Frame>): (r: seq<Frame>)
    ensures r != []
  {
    if |stack| <= 1 then [map[]] else stack[..|stack| - 1]
  }

  function MergeAll(stack: seq<Frame>): Frame {
    if stack == [] then map[] else MergeFrame(MergeAll(stack[..|stack| - 1]), stack[|stack| - 1])
  }

  /** Replay of one merged shadow on the live cell. */
  function CommitCell(c: LiveCell, sh: Shadow): LiveCell {
    var seedNow := sh.stampSeeded && !c.seeded;
    var s := if seedNow then ReplayAll(sh.seedOps, c.state) else c.state;
    LiveCell(ReplayAll(sh.ops, s), c.seeded || seedNow)
  }

  /** `fifo_xact_commit`. */
  function XactCommit(stack: seq<Frame>, live: map<nat, LiveCell>): map<nat, LiveCell> {
    var frame := MergeAll(stack);
    map cell | cell in live :: if cell in frame then CommitCell(live[cell], frame[cell]) else live[cell]
  }

  // ---- what the stack promises about a cell -------------------------------------------

  /** Replaying this shadow on the cell below it reproduces the shadow's state. */
  ghost predicate FaithfulShadow(sh: Shadow, below: LiveCell) {
    && sh.stampSeeded == !below.seeded
    && GoodState(sh.state)
    && ReplayAll(sh.ops, if sh.stampSeeded then ReplayAll(sh.seedOps, below.state) else below.state) == sh.state
  }

  ghost predicate Faithful(stack: seq<Frame>, cell: nat, live: LiveCell) {
    stack == [] ||
    (var front, top := stack[..|stack| - 1], stack[|stack| - 1];
     && Faithful(front, cell, live)
     && (cell in top ==> FaithfulShadow(top[cell], Visible(front, cell, live))))
  }

  lemma {:induction false} VisibleGood(stack: seq<Frame>, cell: nat, live: LiveCell)
    requires Faithful(stack, cell, live) && GoodState(live.state)
    ensures GoodState(Visible(stack, cell, live).state)
  {
    if stack != [] {
      VisibleGood(stack[..|stack| - 1], cell, live);
    }
  }

  lemma AcquireIsFaithful(stack: seq<Frame>, cell: nat, live: LiveCell, seeds: seq<Layer>)
    requires stack != [] && Faithful(stack, cell, live) && GoodState(live.state) && ValidSeeds(seeds)
    ensures var sh := Acquire(stack, cell, live, seeds);
            && FaithfulShadow(sh, Visible(stack[..|stack| - 1], cell, live))
            && sh.state == Seeded(Visible(stack, cell, live), seeds)
  {
    VisibleGood(stack, cell, live);
    var v := Visible(stack, cell, live);
    if cell !in stack[|stack| - 1] && !v.seeded {
      SeedKeepsGood(v.state, seeds);
    }
  }

  lemma InstallFrame(stack: seq<Frame>, cell: nat, sh: Shadow, other: nat, live: LiveCell)
    requires stack != [] && other != cell
    ensures Visible(Install(stack, cell, sh), other, live) == Visible(stack, other, live)
    ensures Faithful(Install(stack, cell, sh), other, live) == Faithful(stack, other, live)
  {
    assert Install(stack, cell, sh)[..|stack| - 1] == stack[..|stack| - 1];
  }

  lemma InstallHere(stack: seq<Frame>, cell: nat, sh: Shadow, live: LiveCell)
    requires stack != [] && Faithful(stack, cell, live)
    requires FaithfulShadow(sh, Visible(stack[..|stack| - 1], cell, live))
    ensures Visible(Install(stack, cell, sh), cell, live) == LiveCell(sh.state, true)
    ensures Faithful(Install(stack, cell, sh), cell, live)
  {
    assert Install(stack, cell, sh)[..|stack| - 1] == stack[..|stack| - 1];
  }

  /** One cell's share on the stack does what it does directly on the visible cell. */
  lemma WorkMatches(stack: seq<Frame>, live: LiveCell, w: Work)
    requires stack != [] && Faithful(stack, w.cell, live) && GoodState(live.state)
    requires ValidEnvelopes(w.envs) && ValidSeeds(w.seeds)
    ensures var r, d := StackWork(stack, live, w), DirectWork(Visible(stack, w.cell, live), w);
            && (r.StackFail? <==> d.CellFail?)
            && (r.StackOut? ==>
                  && r.outs == [d.outs]
                  && Visible(r.stack, w.cell, live) == LiveCell(d.state, true)
                  && Faithful(r.stack, w.cell, live))
  {
    AcquireIsFaithful(stack, w.cell, live, w.seeds);
    var sh := Acquire(stack, w.cell, live, w.seeds);
    EnvelopesReplay(sh.state, w.envs);
    var r := ApplyEnvelopes(sh.state, w.envs);
    if r.CellOut? {
      var below := Visible(stack[..|stack| - 1], w.cell, live);
      var base := if sh.stampSeeded then ReplayAll(sh.seedOps, below.state) else below.state;
      hide ApplyEnvelopes, Acquire;
      ReplayAppend(sh.ops, r.ops, base);
      InstallHere(stack, w.cell, sh.(state := r.state, ops := sh.ops + r.ops), live);
    }
  }

  /** The stack is faithful for every cell and shows exactly `cur`. */
  ghost predicate Sync(stack: seq<Frame>, live: map<nat, LiveCell>, cur: map<nat, LiveCell>) {
    && cur.Keys == live.Keys
    && forall c :: c in live ==>
         GoodState(live[c].state) && Faithful(stack, c, live[c]) && Visible(stack, c, live[c]) == cur[c]
  }

  ghost predicate ValidBatch(b: Batch) {
    forall i :: 0 <= i < |b| ==> ValidEnvelopes(b[i].envs) && ValidSeeds(b[i].seeds)
  }

  lemma WorkKeepsSync(stack: seq<Frame>, live: map<nat, LiveCell>, cur: map<nat, LiveCell>, w: Work)
    requires stack != [] && Sync(stack, live, cur) && w.cell in live
    requires ValidEnvelopes(w.envs) && ValidSeeds(w.seeds)
    ensures var r, d := StackWork(stack, live[w.cell], w), DirectWork(cur[w.cell], w);
            && (r.StackFail? <==> d.CellFail?)
            && (r.StackOut? ==> r.outs == [d.outs] && Sync(r.stack, live, cur[w.cell := LiveCell(d.state, true)]))
  {
    WorkMatches(stack, live[w.cell], w);
    var r := StackWork(stack, live[w.cell], w);
    if r.StackOut? {
      var sh := Acquire(stack, w.cell, live[w.cell], w.seeds);
      var o := ApplyEnvelopes(sh.state, w.envs);
      var sh' := sh.(state := o.state, ops := sh.ops + o.ops);
      assert r.stack == Install(stack, w.cell, sh');
      hide StackWork, ApplyEnvelopes, Acquire, Install, Visible, Faithful;
      forall c | c in live && c != w.cell
        ensures Faithful(r.stack, c, live[c]) && Visible(r.stack, c, live[c]) == cur[c]
      {
        InstallFrame(stack, w.cell, sh', c, live[c]);
      }
    }
  }

  lemma {:induction false} BatchKeepsSync(stack: seq<Frame>, live: map<nat, LiveCell>, cur: map<nat, LiveCell>,
                                          b: Batch)
    requires stack != [] && Sync(stack, live, cur) && ValidBatch(b)
    ensures var r, d := StackBatch(stack, live, b), DirectBatch(cur, b);
            && (r.StackFail? <==> d.DirectFail?)
            && (r.StackOut? ==> r.outs == d.outs && Sync(r.stack, live, d.live))
  {
    if b != [] {
      var front, w := b[..|b| - 1], b[|b| - 1];
      BatchKeepsSync(stack, live, cur, front);
      var r, d := StackBatch(stack, live, front), DirectBatch(cur, front);
      hide StackWork, DirectWork;
      if r.StackOut? && w.cell in live {
        WorkKeepsSync(r.stack, live, d.live, w);
      }
    }
  }

  // ---- savepoints -------------------------------------------------------------------

  lemma StartKeepsSync(stack: seq<Frame>, live: map<nat, LiveCell>, cur: map<nat, LiveCell>)
    requires Sync(stack, live, cur)
    ensures Sync(StartSub(stack), live, cur)
  {
    var s := StartSub(stack);
    assert s[..|s| - 1] == stack;
    forall c | c in live
      ensures Faithful(s, c, live[c]) && Visible(s, c, live[c]) == cur[c]
    {
      assert Faithful(stack, c, live[c]);
    }
  }

  lemma MergeIsFaithful(p: Shadow, c: Shadow, below: LiveCell)
    requires FaithfulShadow(p, below) && FaithfulShadow(c, LiveCell(p.state, true))
    ensures FaithfulShadow(MergeShadow(p, c), below)
  {
    var base := if p.stampSeeded then ReplayAll(p.seedOps, below.state) else below.state;
    ReplayAppend(p.ops, c.ops, base);
  }

  /** Folding the top frame into the one below changes nothing anyone sees. */
  lemma MergeTopCell(stack: seq<Frame>, cell: nat, live: LiveCell)
    requires |stack| >= 2 && Faithful(stack, cell, live)
    ensures var s := stack[..|stack| - 2] + [MergeFrame(stack[|stack| - 2], stack[|stack| - 1])];
            Faithful(s, cell, live) && Visible(s, cell, live) == Visible(stack, cell, live)
  {
    var n := |stack|;
    var base, parent, child := stack[..n - 2], stack[n - 2], stack[n - 1];
    var mid := stack[..n - 1];
    assert mid[..n - 2] == base && mid[n - 2] == parent;
    assert Faithful(mid, cell, live);
    var s := base + [MergeFrame(parent, child)];
    assert s[..n - 2] == base && s[n - 2] == MergeFrame(parent, child);
    var below := Visible(base, cell, live);
    if cell in parent && cell in child {
      MergeIsFaithful(parent[cell], child[cell], below);
    }
  }

  lemma CommitSubKeepsSync(stack: seq<Frame>, live: map<nat, LiveCell>, cur: map<nat, LiveCell>)
    requires |stack| >= 2 && Sync(stack, live, cur)
    ensures Sync(CommitSub(stack), live, cur)
  {
    forall c | c in live
      ensures Faithful(CommitSub(stack), c, live[c]) && Visible(CommitSub(stack), c, live[c]) == cur[c]
    {
      MergeTopCell(stack, c, live[c]);
    }
  }

  // ---- commit -------------------------------------------------------------------------

  lemma {:induction false} MergeAllCell(stack: seq<Frame>, cell: nat, live: LiveCell)
    requires Faithful(stack, cell, live)
    ensures cell in MergeAll(stack) ==>
              && FaithfulShadow(MergeAll(stack)[cell], live)
              && Visible(stack, cell, live) == LiveCell(MergeAll(stack)[cell].state, true)
    ensures cell !in MergeAll(stack) ==> Visible(stack, cell, live) == live
  {
    if stack != [] {
      var front, top := stack[..|stack| - 1], stack[|stack| - 1];
      MergeAllCell(front, cell, live);
      var m := MergeAll(front);
      if cell in m && cell in top {
        MergeIsFaithful(m[cell], top[cell], live);
      }
    }
  }

  /** Replaying on the untouched live cells yields exactly what the stack showed. */
  lemma CommitShowsVisible(stack: seq<Frame>, live: map<nat, LiveCell>, cur: map<nat, LiveCell>)
    requires Sync(stack, live, cur)
    ensures XactCommit(stack, live) == cur
  {
    var after := XactCommit(stack, live);
    forall c | c in live
      ensures after[c] == cur[c]
    {
      MergeAllCell(stack, c, live[c]);
    }
  }

  // ---- whole transactions ---------------------------------------------------------------

  /** A transaction in progress. `log` lists, per open level, the batches applied
      at that level; releasing a savepoint hands its batches to the level below and
      rolling back to it drops them, so the flattened log is the surviving batches.
      `poisoned` marks a level in which a batch failed and that can only be rolled
      back. */
  datatype Tx = Tx(stack: seq<Frame>, log: seq<seq<Batch>>, poisoned: bool)

  datatype Event = Apply(batch: Batch) | Broken(batch: Batch, junk: Frame) | Start | Release | RollbackTo

  function Flatten(log: seq<seq<Batch>>): seq<Batch> {
    if log == [] then [] else Flatten(log[..|log| - 1]) + log[|log| - 1]
  }

  ghost predicate Enabled(t: Tx, live: map<nat, LiveCell>, e: Event) {
    match e
    case Apply(b) => !t.poisoned && ValidBatch(b) && StackBatch(EnsureTop(t.stack), live, b).StackOut?
    case Broken(b, _) => !t.poisoned && ValidBatch(b) && StackBatch(EnsureTop(t.stack), live, b).StackFail?
    case Start => !t.poisoned
    case Release => !t.poisoned && |t.log| >= 2
    case RollbackTo => |t.log| >= 2
  }

  /** A failed batch leaves whatever it likes in the top frame. */
  ghost function Next(t: Tx, live: map<nat, LiveCell>, e: Event): Tx
    requires Enabled(t, live, e) && t.log != []
  {
    var n := |t.log|;
    match e
    case Apply(b) => Tx(StackBatch(EnsureTop(t.stack), live, b).stack, t.log[n - 1 := t.log[n - 1] + [b]], false)
    case Broken(_, junk) => var s := EnsureTop(t.stack); Tx(s[|s| - 1 := junk], t.log, true)
    case Start => Tx(StartSub(t.stack), t.log + [[]], false)
    case Release => Tx(CommitSub(t.stack), t.log[..n - 2] + [t.log[n - 2] + t.log[n - 1]], false)
    case RollbackTo => Tx(AbortSub(t.stack), t.log[..n - 1], false)
  }

  /** The stack with the frame of the outermost level supplied when the first
      batch came inside a savepoint and the stack still starts there. */
  function Padded(t: Tx): seq<Frame> {
    if |t.stack| < |t.log| then [map[]] + t.stack else t.stack
  }

  ghost predicate At(frames: seq<Frame>, log: seq<seq<Batch>>, live: map<nat, LiveCell>, i: nat)
    requires i <= |frames| && i <= |log|
  {
    var d := DirectAll(live, Flatten(log[..i]));
    d.DirectOut? && Sync(frames[..i], live, d.live)
  }

  /** Every level shows direct execution of what survives up to it. */
  ghost predicate Inv(t: Tx, live: map<nat, LiveCell>) {
    && t.log != []
    && (|t.stack| == |t.log| || (|t.stack| + 1 == |t.log| && t.log[0] == []))
    && forall i :: 0 <= i <= |t.log| && (i == |t.log| ==> !t.poisoned) ==> At(Padded(t), t.log, live, i)
  }

  // ---- an empty frame at the bottom is invisible -------------------------------------

  lemma {:induction false} UnderEmpty(stack: seq<Frame>, cell: nat, live: LiveCell)
    ensures Visible([map[]] + stack, cell, live) == Visible(stack, cell, live)
    ensures Faithful([map[]] + stack, cell, live) == Faithful(stack, cell, live)
  {
    var s := [map[]] + stack;
    if stack == [] {
      assert s[..0] == [];
    } else {
      assert s[..|s| - 1] == [map[]] + stack[..|stack| - 1];
      UnderEmpty(stack[..|stack| - 1], cell, live);
    }
  }

  lemma SyncUnderEmpty(stack: seq<Frame>, live: map<nat, LiveCell>, cur: map<nat, LiveCell>)
    ensures Sync([map[]] + stack, live, cur) == Sync(stack, live, cur)
  {
    forall c | c in live
      ensures Visible([map[]] + stack, c, live[c]) == Visible(stack, c, live[c])
      ensures Faithful([map[]] + stack, c, live[c]) == Faithful(stack, c, live[c])
    {
      UnderEmpty(stack, c, live[c]);
    }
    hide Visible, Faithful;
  }

  lemma WorkUnderEmpty(stack: seq<Frame>, live: LiveCell, w: Work)
    requires stack != []
    ensures var r, p := StackWork(stack, live, w), StackWork([map[]] + stack, live, w);
            && (r.StackFail? <==> p.StackFail?)
            && (r.StackOut? ==> p.outs == r.outs && p.stack == [map[]] + r.stack)
  {
    UnderEmpty(stack, w.cell, live);
    var p := [map[]] + stack;
    assert p[|p| - 1] == stack[|stack| - 1];
    hide Visible, Faithful, ApplyEnvelopes;
  }

  lemma {:induction false} BatchUnderEmpty(stack: seq<Frame>, live: map<nat, LiveCell>, b: Batch)
    requires stack != []
    ensures var r, p := StackBatch(stack, live, b), StackBatch([map[]] + stack, live, b);
            && (r.StackFail? <==> p.StackFail?)
            && (r.StackOut? ==> p.outs == r.outs && p.stack == [map[]] + r.stack)
  {
    if b != [] {
      BatchUnderEmpty(stack, live, b[..|b| - 1]);
      var r := StackBatch(stack, live, b[..|b| - 1]);
      hide StackWork;
      if r.StackOut? && b[|b| - 1].cell in live {
        WorkUnderEmpty(r.stack, live[b[|b| - 1].cell], b[|b| - 1]);
      }
    }
  }

  // ---- the invariant is kept by every event --------------------------------------------

  lemma {:induction false} StackBatchKeepsFront(stack: seq<Frame>, live: map<nat, LiveCell>, b: Batch)
    requires stack != []
    ensures var r := StackBatch(stack, live, b);
            r.StackOut? ==> |r.stack| == |stack| && r.stack[..|stack| - 1] == stack[..|stack| - 1]
  {
    if b != [] {
      StackBatchKeepsFront(stack, live, b[..|b| - 1]);
      hide ApplyEnvelopes, Acquire;
    }
  }

  lemma PaddedApply(t: Tx, live: map<nat, LiveCell>, b: Batch)
    requires Inv(t, live) && Enabled(t, live, Apply(b))
    ensures var p, r := Padded(t), StackBatch(Padded(t), live, b);
            && p != [] && |p| == |t.log|
            && r.StackOut? && Padded(Next(t, live, Apply(b))) == r.stack
            && |Next(t, live, Apply(b)).stack| >= |t.stack|
            && |r.stack| == |p|
  {
    hide At, StackBatch, Flatten;
    StackBatchKeepsFront(EnsureTop(t.stack), live, b);
    if t.stack == [] {
      assert [map[]] + t.stack == EnsureTop(t.stack);
    } else if |t.stack| < |t.log| {
      BatchUnderEmpty(t.stack, live, b);
    }
  }

  lemma FlattenLast(log: seq<seq<Batch>>, b: Batch)
    requires log != []
    ensures Flatten(log[|log| - 1 := log[|log| - 1] + [b]]) == Flatten(log) + [b]
  {
    var l := log[|log| - 1 := log[|log| - 1] + [b]];
    assert l[..|l| - 1] == log[..|log| - 1];
    assert Flatten(log[..|log| - 1]) + (log[|log| - 1] + [b]) == Flatten(log) + [b];
  }

  lemma DirectAllOne(live: map<nat, LiveCell>, bs: seq<Batch>, b: Batch)
    requires DirectAll(live, bs).DirectOut? && DirectBatch(DirectAll(live, bs).live, b).DirectOut?
    ensures DirectAll(live, bs + [b]).DirectOut?
    ensures DirectAll(live, bs + [b]).live == DirectBatch(DirectAll(live, bs).live, b).live
  {
    assert (bs + [b])[..|bs|] == bs;
  }

  lemma ApplyKeepsInv(t: Tx, live: map<nat, LiveCell>, b: Batch)
    requires Inv(t, live) && Enabled(t, live, Apply(b))
    ensures Inv(Next(t, live, Apply(b)), live)
  {
    hide StackBatch, DirectBatch, DirectAll, Flatten, Sync;
    var t', p := Next(t, live, Apply(b)), Padded(t);
    var n := |t.log|;
    PaddedApply(t, live, b);
    StackBatchKeepsFront(p, live, b);
    assert At(p, t.log, live, n);
    assert t.log[..n] == t.log && p[..n] == p && t'.log[..n] == t'.log;
    BatchKeepsSync(p, live, DirectAll(live, Flatten(t.log)).live, b);
    FlattenLast(t.log, b);
    DirectAllOne(live, Flatten(t.log), b);
    var p' := Padded(t');
    assert p'[..n] == p';
    forall i | 0 <= i < n
      ensures At(p', t'.log, live, i)
    {
      assert p'[..i] == p'[..n - 1][..i] == p[..i];
      assert t'.log[..i] == t.log[..i];
      assert At(p, t.log, live, i);
    }
  }

  lemma BrokenKeepsInv(t: Tx, live: map<nat, LiveCell>, b: Batch, junk: Frame)
    requires Inv(t, live) && Enabled(t, live, Broken(b, junk))
    ensures Inv(Next(t, live, Broken(b, junk)), live)
  {
    hide StackBatch, DirectAll, Flatten, Sync;
    var t', p := Next(t, live, Broken(b, junk)), Padded(t);
    var p' := Padded(t');
    assert |p'| == |p| && p'[..|p| - 1] == p[..|p| - 1];
    forall i | 0 <= i < |t.log|
      ensures At(p', t.log, live, i)
    {
      assert p'[..i] == p'[..|p| - 1][..i] == p[..i];
      assert At(p, t.log, live, i);
    }
  }

  lemma StartKeepsInv(t: Tx, live: map<nat, LiveCell>)
    requires Inv(t, live) && Enabled(t, live, Start)
    ensures Inv(Next(t, live, Start), live)
  {
    var t', p := Next(t, live, Start), Padded(t);
    var n := |t.log|;
    var p' := Padded(t');
    assert p' == StartSub(p);
    assert At(p, t.log, live, n);
    assert p[..n] == p && t.log[..n] == t.log;
    StartKeepsSync(p, live, DirectAll(live, Flatten(t.log)).live);
    assert t'.log[..n + 1] == t'.log && t'.log[..n] == t.log && p'[..n + 1] == p';
    assert Flatten(t'.log) == Flatten(t.log) + [] == Flatten(t.log);
    hide DirectAll, Flatten, Sync;
    forall i | 0 <= i <= n
      ensures At(p', t'.log, live, i)
    {
      assert p'[..i] == p[..i] && t'.log[..i] == t.log[..i];
      assert At(p, t.log, live, i);
    }
  }

  lemma MergeUnderEmpty(f: Frame)
    ensures MergeFrame(map[], f) == f
  {
  }

  lemma PaddedRelease(t: Tx, live: map<nat, LiveCell>)
    requires Inv(t, live) && Enabled(t, live, Release)
    ensures Padded(Next(t, live, Release)) == CommitSub(Padded(t))
    ensures |Padded(t)| == |t.log| && |CommitSub(Padded(t))| == |t.log| - 1
    ensures var n := |Next(t, live, Release).stack|;
            n == |t.log| - 1 || |t.stack| + 1 == |t.log| == n + 2
  {
    hide At;
    var t', p := Next(t, live, Release), Padded(t);
    if |t.stack| < |t.log| && |t.stack| == 1 {
      MergeUnderEmpty(t.stack[0]);
      assert p == [map[], t.stack[0]];
      assert p[..0] == [];
    } else if |t.stack| < |t.log| {
      assert p[..|p| - 2] == [map[]] + t.stack[..|t.stack| - 2];
    }
  }

  lemma FlattenOne(log: seq<seq<Batch>>, l: seq<Batch>)
    ensures Flatten(log + [l]) == Flatten(log) + l
  {
    assert (log + [l])[..|log|] == log;
  }

  lemma ConcatAssoc<T>(a: seq<T>, b: seq<T>, c: seq<T>)
    ensures a + (b + c) == (a + b) + c
  {
  }

  lemma SplitLastTwo<T>(s: seq<T>)
    requires |s| >= 2
    ensures s == (s[..|s| - 2] + [s[|s| - 2]]) + [s[|s| - 1]]
  {
  }

  lemma FlattenRelease(log: seq<seq<Batch>>)
    requires |log| >= 2
    ensures var n := |log|;
            Flatten(log[..n - 2] + [log[n - 2] + log[n - 1]]) == Flatten(log)
  {
    var n := |log|;
    var a, x, y := log[..n - 2], log[n - 2], log[n - 1];
    FlattenOne(a, x + y);
    FlattenOne(a, x);
    FlattenOne(a + [x], y);
    hide Flatten;
    SplitLastTwo(log);
    ConcatAssoc(Flatten(a), x, y);
  }

  lemma ReleaseKeepsInv(t: Tx, live: map<nat, LiveCell>)
    requires Inv(t, live) && Enabled(t, live, Release)
    ensures Inv(Next(t, live, Release), live)
  {
    var t', p, n := Next(t, live, Release), Padded(t), |t.log|;
    var p' := Padded(t');
    PaddedRelease(t, live);
    FlattenRelease(t.log);
    assert At(p, t.log, live, n);
    assert p[..n] == p && t.log[..n] == t.log && t'.log[..n - 1] == t'.log && p'[..n - 1] == p';
    CommitSubKeepsSync(p, live, DirectAll(live, Flatten(t.log)).live);
    assert p'[..n - 2] == p[..n - 2];
    if |t'.stack| < |t'.log| {
      assert t'.log[0] == t.log[0];
    }
    hide DirectAll, Flatten, Sync, MergeFrame;
    forall i | 0 <= i < n - 1
      ensures At(p', t'.log, live, i)
    {
      assert p'[..i] == p'[..n - 2][..i] == p[..i];
      assert t'.log[..i] == t.log[..i];
      assert At(p, t.log, live, i);
    }
  }

  lemma RollbackKeepsInv(t: Tx, live: map<nat, LiveCell>)
    requires Inv(t, live) && Enabled(t, live, RollbackTo)
    ensures Inv(Next(t, live, RollbackTo), live)
  {
    hide DirectAll, Flatten, Sync;
    var t', p, n := Next(t, live, RollbackTo), Padded(t), |t.log|;
    var p' := Padded(t');
    assert p' == p[..n - 1] by {
      if |t.stack| < n && |t.stack| == 1 {
        assert p == [map[], t.stack[0]];
      }
    }
    forall i | 0 <= i <= n - 1
      ensures At(p', t'.log, live, i)
    {
      assert p'[..i] == p[..i] && t'.log[..i] == t.log[..i];
      assert At(p, t.log, live, i);
    }
  }

  lemma NextKeepsInv(t: Tx, live: map<nat, LiveCell>, e: Event)
    requires Inv(t, live) && Enabled(t, live, e)
    ensures Inv(Next(t, live, e), live)
  {
    hide *;
    match e
    case Apply(b) => ApplyKeepsInv(t, live, b);
    case Broken(b, junk) => BrokenKeepsInv(t, live, b, junk);
    case Start => StartKeepsInv(t, live);
    case Release => ReleaseKeepsInv(t, live);
    case RollbackTo => RollbackKeepsInv(t, live);
  }

  /** A transaction from its first event on; the stack may start empty. */
  ghost predicate Run(txs: seq<Tx>, events: seq<Event>, live: map<nat, LiveCell>) {
    && |txs| == |events| + 1
    && txs[0].log == [[]] && !txs[0].poisoned && (txs[0].stack == [] || txs[0].stack == [map[]])
    && (forall c :: c in live ==> GoodState(live[c].state))
    && forall i :: 0 <= i < |events| ==>
         txs[i].log != [] && Enabled(txs[i], live, events[i]) && txs[i + 1] == Next(txs[i], live, events[i])
  }

  lemma InitInv(t: Tx, live: map<nat, LiveCell>)
    requires t.log == [[]] && !t.poisoned && (t.stack == [] || t.stack == [map[]])
    requires forall c :: c in live ==> GoodState(live[c].state)
    ensures Inv(t, live)
  {
    var p := Padded(t);
    assert p == [map[]];
    assert Sync([], live, live);
    SyncUnderEmpty([], live, live);
    assert [map[]] + [] == p;
    forall i | 0 <= i <= 1
      ensures At(p, t.log, live, i)
    {
      assert p[..0] == [] && p[..1] == p && t.log[..0] == [] && t.log[..1] == [[]];
      assert Flatten([[]][..0]) == [];
    }
  }

  lemma {:induction false} RunKeepsInv(txs: seq<Tx>, events: seq<Event>, live: map<nat, LiveCell>, k: nat)
    requires Run(txs, events, live) && k <= |events|
    ensures Inv(txs[k], live)
  {
    hide Inv, Enabled, Next;
    if k == 0 {
      InitInv(txs[0], live);
    } else {
      RunKeepsInv(txs, events, live, k - 1);
      NextKeepsInv(txs[k - 1], live, events[k - 1]);
    }
  }

  /** Shadow replay is faithful. After any run of batches, failed batches,
      savepoints, releases and rollbacks, committing leaves the live cells exactly
      as running only the surviving batches on them directly, and as the shadows
      showed them. */
  lemma CommitEqualsDirect(txs: seq<Tx>, events: seq<Event>, live: map<nat, LiveCell>)
    requires Run(txs, events, live) && !txs[|events|].poisoned
    ensures var t := txs[|events|];
            var d := DirectAll(live, Flatten(t.log));
            && d.DirectOut? && XactCommit(t.stack, live) == d.live
            && forall c :: c in live ==> d.live[c] == Visible(t.stack, c, live[c])
  {
    var t := txs[|events|];
    RunKeepsInv(txs, events, live, |events|);
    var p, n := Padded(t), |t.log|;
    assert At(p, t.log, live, n);
    assert p[..n] == p && t.log[..n] == t.log;
    var cur := DirectAll(live, Flatten(t.log)).live;
    hide DirectAll, Flatten;
    if |t.stack| < |t.log| {
      SyncUnderEmpty(t.stack, live, cur);
    }
    CommitShowsVisible(t.stack, live, cur);
  }

  /** Each batch of a run reports the same slices, costs and inline drains as it
      would when run directly on the survivors before it. */
  lemma BatchReportsDirect(txs: seq<Tx>, events: seq<Event>, live: map<nat, LiveCell>, k: nat)
    requires Run(txs, events, live) && k < |events| && events[k].Apply?
    ensures var d := DirectAll(live, Flatten(txs[k].log));
            && d.DirectOut?
            && DirectBatch(d.live, events[k].batch).DirectOut?
            && DirectBatch(d.live, events[k].batch).outs
               == StackBatch(EnsureTop(txs[k].stack), live, events[k].batch).outs
  {
    var t, b := txs[k], events[k].batch;
    assert Enabled(t, live, events[k]);
    RunKeepsInv(txs, events, live, k);
    var p, n := Padded(t), |t.log|;
    assert At(p, t.log, live, n);
    assert p[..n] == p && t.log[..n] == t.log;
    BatchKeepsSync(p, live, DirectAll(live, Flatten(t.log)).live, b);
    hide DirectAll, Flatten, StackBatch, DirectBatch, Sync;
    if t.stack == [] {
      assert [map[]] + t.stack == EnsureTop(t.stack);
    } else if |t.stack| < |t.log| {
      BatchUnderEmpty(t.stack, live, b);
    }
  }
}

/** The FIFO cell against its durable `cost_layers` rows: receipts insert rows at
    once, issues lower them later through the pending-drain list or at once when
    that list is full (poc/ledger-extension/src/fifo.rs, Phases 8 and 9 and the
    background tick). */
module FifoDurable {
  import opened Int64
  import opened LayerRing
  import opened FifoTransaction

  type Rows = map<int, int>

  /** A cell with the durable `qty_remaining` of its pool's layers. */
  datatype Pool = Pool(cell: LiveCell, rows: Rows)

  function RowQty(rows: Rows, id: int): int {
    if id in rows then rows[id] else 0
  }

  function QtyOf(layers: seq<Layer>, id: int): int {
    if layers == [] then 0
    else (if layers[0].layerId == id then layers[0].qty else 0) + QtyOf(layers[1..], id)
  }

  function PendOf(pending: seq<PendingDrain>, id: int): int {
    if pending == [] then 0
    else (if pending[0].layerId == id then pending[0].qtyConsumed else 0) + PendOf(pending[1..], id)
  }

  function Taken(slices: seq<Slice>, id: int): int {
    if slices == [] then 0
    else (if slices[0].layerId == id then slices[0].qtyConsumed else 0) + Taken(slices[1..], id)
  }

  /** What the ring and the staged drains together still owe the durable row. */
  function Owed(s: CellState, id: int): int {
    QtyOf(s.ring.layers, id) + PendOf(s.ring.pending, id)
  }

  // ---- the statements that touch the rows -------------------------------------

  /** Phase 9c: one row per receipt of the batch. */
  function InsertRows(rows: Rows, envs: seq<Envelope>): Rows {
    if envs == [] then rows
    else
      var r := InsertRows(rows, envs[..|envs| - 1]);
      match envs[|envs| - 1]
      case Receipt(layer) => r[layer.layerId := layer.qty]
      case Issue(_) => r
  }

  /** Phase 9e: the takes that found the pending-drain list full, summed per layer. */
  function InlineTakes(outs: seq<Applied>, id: int): int {
    if outs == [] then 0
    else InlineTakes(outs[..|outs| - 1], id) + Taken(outs[|outs| - 1].inlined, id)
  }

  function InlineUpdate(rows: Rows, outs: seq<Applied>): Rows {
    map id | id in rows :: rows[id] - InlineTakes(outs, id)
  }

  /** The tick's UPDATE, summed per layer. */
  function DrainUpdate(rows: Rows, entries: seq<PendingDrain>): Rows {
    map id | id in rows :: rows[id] - PendOf(entries, id)
  }

  function TickPool(p: Pool): Pool {
    var s := p.cell.state;
    Pool(p.cell.(state := s.(ring := s.ring.(pending := []))), DrainUpdate(p.rows, s.ring.pending))
  }

  /** One batch of one pool, cell and rows together. */
  function BatchPool(p: Pool, w: Work): Pool
    requires DirectWork(p.cell, w).CellOut?
  {
    var d := DirectWork(p.cell, w);
    Pool(LiveCell(d.state, true), InlineUpdate(InsertRows(p.rows, w.envs), d.outs))
  }

  // ---- sums --------------------------------------------------------------------

  lemma {:induction false} QtyOfAppend(a: seq<Layer>, l: Layer, id: int)
    ensures QtyOf(a + [l], id) == QtyOf(a, id) + if l.layerId == id then l.qty else 0
  {
    if a == [] {
      assert (a + [l])[1..] == [];
    } else {
      assert (a + [l])[1..] == a[1..] + [l];
      QtyOfAppend(a[1..], l, id);
    }
  }

  lemma {:induction false} PendOfConcat(a: seq<PendingDrain>, b: seq<PendingDrain>, id: int)
    ensures PendOf(a + b, id) == PendOf(a, id) + PendOf(b, id)
  {
    if a == [] {
      assert a + b == b;
    } else {
      assert (a + b)[1..] == a[1..] + b;
      PendOfConcat(a[1..], b, id);
    }
  }

  lemma {:induction false} PendOfDrains(slices: seq<Slice>, id: int)
    ensures PendOf(Drains(slices), id) == Taken(slices, id)
  {
    if slices != [] {
      assert Drains(slices)[1..] == Drains(slices[1..]);
      PendOfDrains(slices[1..], id);
    }
  }

  lemma {:induction false} TakenSplit(slices: seq<Slice>, k: nat, id: int)
    requires k <= |slices|
    ensures Taken(slices, id) == Taken(slices[..k], id) + Taken(slices[k..], id)
  {
    if k == 0 {
      assert slices[0..] == slices;
    } else {
      TakenSplit(slices[1..], k - 1, id);
      assert slices[..k][1..] == slices[1..][..k - 1];
      assert slices[k..] == slices[1..][k - 1..];
    }
  }

  lemma TakenCons(s: Slice, slices: seq<Slice>, id: int)
    ensures Taken([s] + slices, id) == (if s.layerId == id then s.qtyConsumed else 0) + Taken(slices, id)
  {
    assert ([s] + slices)[1..] == slices;
  }

  lemma QtyOfCons(l: Layer, layers: seq<Layer>, id: int)
    ensures QtyOf([l] + layers, id) == (if l.layerId == id then l.qty else 0) + QtyOf(layers, id)
  {
    assert ([l] + layers)[1..] == layers;
  }

  /** A walk moves quantity from the layers to the slices, layer by layer. */
  lemma {:induction false} ConsumeMoves(layers: seq<Layer>, qty: int, id: int)
    ensures var w := LayerRing.Consume(layers, qty);
            QtyOf(w.rest, id) + Taken(w.slices, id) == QtyOf(layers, id)
    decreases |layers|
  {
    if qty > 0 && layers != [] {
      var take := Min(qty, layers[0].qty);
      var slice := Slice(layers[0].layerId, take, layers[0].unitCost);
      if take == layers[0].qty {
        ConsumeMoves(layers[1..], qty - take, id);
        TakenCons(slice, LayerRing.Consume(layers[1..], qty - take).slices, id);
      } else {
        TakenCons(slice, [], id);
        QtyOfCons(layers[0].(qty := layers[0].qty - take), layers[1..], id);
        assert [slice] + [] == [slice];
      }
    }
  }

  ghost predicate PositivePending(pending: seq<PendingDrain>) {
    forall i :: 0 <= i < |pending| ==> pending[i].qtyConsumed > 0
  }

  lemma {:induction false} QtyOfNonNegative(layers: seq<Layer>, id: int)
    requires Positive(layers)
    ensures QtyOf(layers, id) >= 0
  {
    if layers != [] {
      QtyOfNonNegative(layers[1..], id);
    }
  }

  lemma {:induction false} PendOfNonNegative(pending: seq<PendingDrain>, id: int)
    requires PositivePending(pending)
    ensures PendOf(pending, id) >= 0
  {
    if pending != [] {
      PendOfNonNegative(pending[1..], id);
    }
  }

  lemma {:induction false} TakenNonNegative(slices: seq<Slice>, id: int)
    requires PositiveSlices(slices)
    ensures Taken(slices, id) >= 0
  {
    if slices != [] {
      TakenNonNegative(slices[1..], id);
    }
  }

  // ---- one envelope, then a batch --------------------------------------------------

  function Received(e: Envelope, id: int): int {
    if e.Receipt? && e.layer.layerId == id then e.layer.qty else 0
  }

  ghost predicate FineState(s: CellState) {
    GoodState(s) && PositivePending(s.ring.pending)
  }

  lemma IssueMoves(s: CellState, qty: nat, id: int)
    requires FineState(s) && qty > 0
    ensures var a := ApplyIssue(s, qty);
            && FineState(a.state) && PositiveSlices(a.inlined)
            && Owed(a.state, id) == Owed(s, id) - Taken(a.inlined, id)
  {
    var w := LayerRing.Consume(s.ring.layers, qty);
    ConsumeMoves(s.ring.layers, qty, id);
    ConsumeTakesOldestUnits(s.ring.layers, qty);
    IssueKeepsGood(s, qty);
    hide LayerRing.Consume, TookOldest;
    assert PositiveSlices(w.slices) by { TookOldestPositive(s.ring.layers, qty); }
    var k := Fitting(s.ring.pending, w.slices);
    TakenSplit(w.slices, k, id);
    PendOfDrains(w.slices[..k], id);
    PendOfConcat(s.ring.pending, Drains(w.slices[..k]), id);
  }

  lemma TookOldestPositive(layers: seq<Layer>, qty: nat)
    requires Positive(layers)
    ensures PositiveSlices(LayerRing.Consume(layers, qty).slices)
  {
    ConsumeTakesOldestUnits(layers, qty);
  }

  lemma EnvelopeMoves(s: CellState, e: Envelope, id: int)
    requires FineState(s) && ValidEnvelope(e) && !ApplyEnvelope(s, e).state.overflow
    ensures var a := ApplyEnvelope(s, e);
            && FineState(a.state) && PositiveSlices(a.inlined) && !s.overflow
            && Owed(a.state, id) == Owed(s, id) + Received(e, id) - Taken(a.inlined, id)
  {
    match e
    case Receipt(layer) => QtyOfAppend(s.ring.layers, layer, id);
    case Issue(qty) => IssueMoves(s, qty, id);
  }

  function ReceivedAll(envs: seq<Envelope>, id: int): int {
    if envs == [] then 0 else ReceivedAll(envs[..|envs| - 1], id) + Received(envs[|envs| - 1], id)
  }

  lemma {:induction false} EnvelopesMove(s: CellState, envs: seq<Envelope>, id: int)
    requires FineState(s) && ValidEnvelopes(envs)
    requires ApplyEnvelopes(s, envs).CellOut? && !ApplyEnvelopes(s, envs).state.overflow
    ensures var d := ApplyEnvelopes(s, envs);
            && FineState(d.state) && !s.overflow && InlineTakes(d.outs, id) >= 0
            && Owed(d.state, id) == Owed(s, id) + ReceivedAll(envs, id) - InlineTakes(d.outs, id)
  {
    if envs != [] {
      var front, e := envs[..|envs| - 1], envs[|envs| - 1];
      var d := ApplyEnvelopes(s, front);
      OverflowSticks(d.state, e);
      EnvelopesMove(s, front, id);
      EnvelopeMoves(d.state, e, id);
      var a := ApplyEnvelope(d.state, e);
      TakenNonNegative(a.inlined, id);
      assert (d.outs + [a])[..|d.outs|] == d.outs;
    }
  }

  lemma OverflowSticks(s: CellState, e: Envelope)
    ensures s.overflow ==> ApplyEnvelope(s, e).state.overflow
  {
  }

  // ---- the rows follow ---------------------------------------------------------------

  /** Layer ids come from a sequence: new ones are not in the table, and differ. */
  ghost predicate FreshIds(rows: Rows, envs: seq<Envelope>) {
    && (forall i :: 0 <= i < |envs| && envs[i].Receipt? ==> envs[i].layer.layerId !in rows)
    && (forall i, j :: 0 <= i < j < |envs| && envs[i].Receipt? && envs[j].Receipt? ==>
          envs[i].layer.layerId != envs[j].layer.layerId)
  }

  lemma {:induction false} InsertedIds(rows: Rows, envs: seq<Envelope>, id: int)
    requires id !in rows && forall i :: 0 <= i < |envs| && envs[i].Receipt? ==> envs[i].layer.layerId != id
    ensures id !in InsertRows(rows, envs)
  {
    if envs != [] {
      InsertedIds(rows, envs[..|envs| - 1], id);
    }
  }

  lemma {:induction false} InsertRowsQty(rows: Rows, envs: seq<Envelope>, id: int)
    requires FreshIds(rows, envs)
    ensures RowQty(InsertRows(rows, envs), id) == RowQty(rows, id) + ReceivedAll(envs, id)
  {
    if envs != [] {
      var front, e := envs[..|envs| - 1], envs[|envs| - 1];
      InsertRowsQty(rows, front, id);
      if e.Receipt? && e.layer.layerId == id {
        InsertedIds(rows, front, id);
      }
    }
  }

  /** Ring and durable rows agree, layer by layer. */
  ghost predicate Agree(p: Pool) {
    && FineState(p.cell.state)
    && !p.cell.state.overflow
    && (!p.cell.seeded ==> p.cell.state.ring == RingVal([], []))
    && (p.cell.seeded ==> forall id :: RowQty(p.rows, id) == Owed(p.cell.state, id))
    && forall id :: id in p.rows ==> p.rows[id] >= 0
  }

  /** The seed query returns every row with quantity left, once, oldest first. */
  ghost predicate SeedsMatch(rows: Rows, seeds: seq<Layer>) {
    && Positive(seeds) && |seeds| <= MAX_LAYERS
    && forall id :: QtyOf(seeds, id) == RowQty(rows, id)
  }

  lemma {:induction false} SeedFills(s: CellState, seeds: seq<Layer>)
    requires |s.ring.layers| + |seeds| <= MAX_LAYERS
    ensures ReplayAll(SeedOps(s, seeds), s) == s.(ring := s.ring.(layers := s.ring.layers + seeds))
    decreases |seeds|
  {
    if seeds == [] {
      assert s.ring.layers + seeds == s.ring.layers;
    } else {
      var push := Push(seeds[0]);
      var s1 := Replay(push, s);
      SeedFills(s1, seeds[1..]);
      ReplayAppend([push], SeedOps(s1, seeds[1..]), s);
      ReplayOne([], push, s);
      assert [] + [push] == [push];
      assert (s.ring.layers + [seeds[0]]) + seeds[1..] == s.ring.layers + seeds;
    }
  }

  ghost predicate AllowedBatch(p: Pool, w: Work) {
    && ValidEnvelopes(w.envs) && FreshIds(p.rows, w.envs)
    && (!p.cell.seeded ==> SeedsMatch(p.rows, w.seeds))
    && DirectWork(p.cell, w).CellOut?
    && !DirectWork(p.cell, w).state.overflow
  }

  lemma SeededAgrees(p: Pool, w: Work, id: int)
    requires Agree(p) && (!p.cell.seeded ==> SeedsMatch(p.rows, w.seeds))
    ensures FineState(Seeded(p.cell, w.seeds))
    ensures RowQty(p.rows, id) == Owed(Seeded(p.cell, w.seeds), id)
  {
    if !p.cell.seeded {
      SeedFills(p.cell.state, w.seeds);
      assert p.cell.state.ring.layers + w.seeds == w.seeds;
      assert Seeded(p.cell, w.seeds).ring == RingVal(w.seeds, []);
    }
  }

  lemma BatchKeepsAgree(p: Pool, w: Work)
    requires Agree(p) && AllowedBatch(p, w)
    ensures Agree(BatchPool(p, w))
  {
    var s := Seeded(p.cell, w.seeds);
    var d := DirectWork(p.cell, w);
    var q := BatchPool(p, w);
    SeededAgrees(p, w, 0);
    EnvelopesMove(s, w.envs, 0);
    forall id
      ensures RowQty(q.rows, id) == Owed(d.state, id)
      ensures id in q.rows ==> q.rows[id] >= 0
    {
      SeededAgrees(p, w, id);
      EnvelopesMove(s, w.envs, id);
      InsertRowsQty(p.rows, w.envs, id);
      QtyOfNonNegative(d.state.ring.layers, id);
      PendOfNonNegative(d.state.ring.pending, id);
      assert d == ApplyEnvelopes(s, w.envs);
      hide ApplyEnvelopes, QtyOf, PendOf, InlineTakes, ReceivedAll, InsertRows, SeedOps, ReplayAll;
    }
  }

  lemma TickKeepsAgree(p: Pool)
    requires Agree(p)
    ensures Agree(TickPool(p))
  {
    var q := TickPool(p);
    forall id
      ensures p.cell.seeded ==> RowQty(q.rows, id) == Owed(q.cell.state, id)
      ensures id in q.rows ==> q.rows[id] >= 0
    {
      QtyOfNonNegative(p.cell.state.ring.layers, id);
      PendOfNonNegative(p.cell.state.ring.pending, id);
      if p.cell.seeded {
        assert RowQty(p.rows, id) == Owed(p.cell.state, id);
      }
    }
  }

  // ---- a tick whose UPDATE fails -------------------------------------------------------

  /** How many re-staged entries still fit. */
  function Room(s: CellState, entries: seq<PendingDrain>): (k: nat)
    ensures k <= |entries|
    ensures k == |entries| <==> entries == [] || |s.ring.pending| + |entries| <= PENDING_DRAIN_CAP
  {
    if |s.ring.pending| >= PENDING_DRAIN_CAP then 0 else Min(PENDING_DRAIN_CAP - |s.ring.pending|, |entries|)
  }

  /** The failed tick pushes the entries it took back, as far as the list has room. */
  function Restaged(s: CellState, entries: seq<PendingDrain>): CellState {
    s.(ring := s.ring.(pending := s.ring.pending + entries[..Room(s, entries)]))
  }

  lemma RestageLoses(s: CellState, entries: seq<PendingDrain>, id: int)
    ensures Owed(Restaged(s, entries), id)
         == Owed(s, id) + PendOf(entries, id) - PendOf(entries[Room(s, entries)..], id)
  {
    var k := Room(s, entries);
    assert entries == entries[..k] + entries[k..];
    hide PendOf, QtyOf, Room;
    PendOfConcat(s.ring.pending, entries[..k], id);
    PendOfConcat(entries[..k], entries[k..], id);
  }

  /** Re-staging keeps what the cell owes every row exactly when the entries taken
      and the entries staged meanwhile fit in the list together; otherwise some
      durable row never learns of a drain. */
  lemma RestageKeepsOwedIff(s: CellState, entries: seq<PendingDrain>)
    requires PositivePending(entries)
    ensures (forall id :: Owed(Restaged(s, entries), id) == Owed(s, id) + PendOf(entries, id))
            <==> entries == [] || |s.ring.pending| + |entries| <= PENDING_DRAIN_CAP
  {
    var k := Room(s, entries);
    if k < |entries| {
      LostIsPositive(entries[k..]);
      RestageLoses(s, entries, entries[k].layerId);
    } else {
      assert entries[k..] == [] && forall id :: PendOf([], id) == 0;
    }
    hide Room, Restaged, Owed, PendOf;
    forall id
      ensures Owed(Restaged(s, entries), id) == Owed(s, id) + PendOf(entries, id) - PendOf(entries[k..], id)
    {
      RestageLoses(s, entries, id);
    }
  }

  lemma LostIsPositive(lost: seq<PendingDrain>)
    requires PositivePending(lost) && lost != []
    ensures PendOf(lost, lost[0].layerId) > 0
  {
    PendOfNonNegative(lost[1..], lost[0].layerId);
  }

  // ---- serial runs -----------------------------------------------------------------------

  /** A committed transaction with the batches that survived in it, an aborted one,
      or a background tick. */
  datatype Act = Committed(works: seq<Work>) | Aborted | Tick

  ghost predicate AllowedWorks(p: Pool, works: seq<Work>)
    decreases |works|
  {
    works == [] || (AllowedBatch(p, works[0]) && AllowedWorks(BatchPool(p, works[0]), works[1..]))
  }

  ghost function WorksPool(p: Pool, works: seq<Work>): Pool
    requires AllowedWorks(p, works)
    decreases |works|
  {
    if works == [] then p else WorksPool(BatchPool(p, works[0]), works[1..])
  }

  ghost predicate Allowed(p: Pool, a: Act) {
    a.Committed? ==> AllowedWorks(p, a.works)
  }

  ghost function ActPool(p: Pool, a: Act): Pool
    requires Allowed(p, a)
  {
    match a
    case Committed(works) => WorksPool(p, works)
    case Aborted => p
    case Tick => TickPool(p)
  }

  lemma {:induction false} WorksKeepAgree(p: Pool, works: seq<Work>)
    requires Agree(p) && AllowedWorks(p, works)
    ensures Agree(WorksPool(p, works))
    decreases |works|
  {
    if works != [] {
      BatchKeepsAgree(p, works[0]);
      hide Agree, BatchPool, AllowedBatch;
      WorksKeepAgree(BatchPool(p, works[0]), works[1..]);
    }
  }

  ghost predicate RunOf(pools: seq<Pool>, acts: seq<Act>) {
    && |pools| == |acts| + 1
    && forall i :: 0 <= i < |acts| ==> Allowed(pools[i], acts[i]) && pools[i + 1] == ActPool(pools[i], acts[i])
  }

  /** Over every serial run of receipts, issues, aborts and drain ticks, each layer
      of a seeded cell has durable quantity equal to its ring quantity plus its
      pending drains, whichever way each drain went; and no row goes negative. */
  lemma {:induction false} RunKeepsAgree(pools: seq<Pool>, acts: seq<Act>, k: nat)
    requires RunOf(pools, acts) && Agree(pools[0]) && k <= |acts|
    ensures Agree(pools[k])
  {
    if k > 0 {
      RunKeepsAgree(pools, acts, k - 1);
      var p, a := pools[k - 1], acts[k - 1];
      assert Allowed(p, a);
      match a {
        case Committed(works) => WorksKeepAgree(p, works);
        case Aborted =>
        case Tick => TickKeepsAgree(p);
      }
    }
  }
}

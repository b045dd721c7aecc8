/** When a FIFO batch is refused (poc/ledger-extension/src/fifo.rs, Phase 8), in terms of
    quantities: the units in stock at the start, those received and those issued. */
module FifoShortage {
  import opened FifoTransaction
  import opened Int64
  import opened LayerRing

  function Stock(layers: seq<Layer>): int {
    if layers == [] then 0 else layers[0].qty + Stock(layers[1..])
  }

  lemma {:induction false} StockAppend(layers: seq<Layer>, l: Layer)
    ensures Stock(layers + [l]) == Stock(layers) + l.qty
  {
    if layers == [] {
      assert [] + [l] == [l] && [l][1..] == [];
    } else {
      StockAppend(layers[1..], l);
      assert (layers + [l])[1..] == layers[1..] + [l];
    }
  }

  lemma {:induction false} StockIsNotNegative(layers: seq<Layer>)
    requires Positive(layers)
    ensures Stock(layers) >= 0
  {
    if layers != [] {
      StockIsNotNegative(layers[1..]);
    }
  }

  /** A walk misses what exceeds the stock and leaves what it did not take. */
  lemma {:induction false} ConsumeStock(layers: seq<Layer>, qty: nat)
    requires Positive(layers)
    ensures var w := LayerRing.Consume(layers, qty);
            w.shortage == Max(qty - Stock(layers), 0) && Stock(w.rest) == Max(Stock(layers) - qty, 0)
    decreases |layers|
  {
    StockIsNotNegative(layers);
    if qty > 0 && layers != [] {
      if qty >= layers[0].qty {
        ConsumeStock(layers[1..], qty - layers[0].qty);
      } else {
        StockIsNotNegative(layers[1..]);
        var rest := [layers[0].(qty := layers[0].qty - qty)] + layers[1..];
        assert LayerRing.Consume(layers, qty).rest == rest && rest[1..] == layers[1..];
      }
    }
  }

  // ---- one cell -------------------------------------------------------------------------

  /** Units received less units issued. */
  function Moved(envs: seq<Envelope>): int {
    if envs == [] then 0
    else
      Moved(envs[..|envs| - 1])
      + match envs[|envs| - 1] { case Receipt(layer) => layer.qty case Issue(qty) => -qty }
  }

  /** The cell after the envelopes, none of them refused. */
  function After(s: CellState, envs: seq<Envelope>): CellState {
    if envs == [] then s else ApplyEnvelope(After(s, envs[..|envs| - 1]), envs[|envs| - 1]).state
  }

  /** The i-th envelope is an issue of more than the stock at the start, plus the receipts
      before it, less the issues before it, and the cell has not overflowed. */
  predicate Uncovered(s: CellState, envs: seq<Envelope>, i: nat) {
    && i < |envs| && envs[i].Issue? && !After(s, envs[..i]).overflow
    && envs[i].qty > Stock(s.ring.layers) + Moved(envs[..i])
  }

  ghost predicate Covered(s: CellState, envs: seq<Envelope>) {
    forall i :: 0 <= i < |envs| ==> !Uncovered(s, envs, i)
  }

  lemma IssueStock(s: CellState, qty: int)
    requires GoodState(s) && qty > 0
    ensures var a := ApplyIssue(s, qty);
            && a.shortage == Max(qty - Stock(s.ring.layers), 0) && a.state.overflow == s.overflow
            && Stock(a.state.ring.layers) == Max(Stock(s.ring.layers) - qty, 0)
  {
    ConsumeStock(s.ring.layers, qty);
    hide LayerRing.Consume;
  }

  lemma ReceiptStock(s: CellState, layer: Layer)
    ensures var t := ApplyReceipt(s, layer).state;
            && (s.overflow ==> t == s)
            && (!t.overflow ==> Stock(t.ring.layers) == Stock(s.ring.layers) + layer.qty)
  {
    StockAppend(s.ring.layers, layer);
  }

  lemma StepStock(s: CellState, e: Envelope)
    requires GoodState(s) && ValidEnvelope(e)
    ensures var t := ApplyEnvelope(s, e).state;
            && (s.overflow ==> t.overflow)
            && (!s.overflow ==> (Fails(s, e) <==> e.Issue? && e.qty > Stock(s.ring.layers)))
            && (s.overflow ==> !Fails(s, e))
            && (!t.overflow && !Fails(s, e) ==>
                  Stock(t.ring.layers) == Stock(s.ring.layers)
                                          + match e { case Receipt(layer) => layer.qty case Issue(qty) => -qty })
  {
    hide Stock;
    match e
    case Receipt(layer) => ReceiptStock(s, layer);
    case Issue(qty) => IssueStock(s, qty);
  }

  lemma {:induction false} RunStock(s: CellState, envs: seq<Envelope>)
    requires GoodState(s) && ValidEnvelopes(envs)
    ensures var r := ApplyEnvelopes(s, envs);
            r.CellOut? ==>
              && r.state == After(s, envs) && GoodState(r.state)
              && (!r.state.overflow ==> Stock(r.state.ring.layers) == Stock(s.ring.layers) + Moved(envs))
  {
    hide Stock, GoodState, Fails, ApplyEnvelope;
    EnvelopesReplay(s, envs);
    if envs != [] {
      var n := |envs| - 1;
      RunStock(s, envs[..n]);
      var r := ApplyEnvelopes(s, envs[..n]);
      if r.CellOut? {
        StepStock(r.state, envs[n]);
      }
    }
  }

  lemma UncoveredBefore(s: CellState, envs: seq<Envelope>, i: nat)
    requires envs != [] && i < |envs| - 1
    ensures Uncovered(s, envs, i) <==> Uncovered(s, envs[..|envs| - 1], i)
  {
    hide Stock, After, Moved;
    assert envs[..|envs| - 1][..i] == envs[..i];
  }

  lemma CoveredNext(s: CellState, envs: seq<Envelope>)
    requires envs != []
    ensures Covered(s, envs) <==> Covered(s, envs[..|envs| - 1]) && !Uncovered(s, envs, |envs| - 1)
  {
    hide Uncovered;
    forall i | 0 <= i < |envs| - 1
      ensures Uncovered(s, envs, i) <==> Uncovered(s, envs[..|envs| - 1], i)
    {
      UncoveredBefore(s, envs, i);
    }
    var front := envs[..|envs| - 1];
    if Covered(s, front) && !Uncovered(s, envs, |envs| - 1) {
      forall i | 0 <= i < |envs|
        ensures !Uncovered(s, envs, i)
      {
        assert i < |envs| - 1 ==> !Uncovered(s, front, i);
      }
    } else if Covered(s, envs) {
      forall i | 0 <= i < |front|
        ensures !Uncovered(s, front, i)
      {
        assert !Uncovered(s, envs, i);
      }
    }
  }

  /** The envelopes of a cell go through exactly when every issue that finds the cell
      without overflow asks for no more than is there. An issue that is short on a cell
      with a spilled tail is not refused. */
  lemma {:induction false} GoesThroughIff(s: CellState, envs: seq<Envelope>)
    requires GoodState(s) && ValidEnvelopes(envs)
    ensures ApplyEnvelopes(s, envs).CellOut? <==> Covered(s, envs)
  {
    hide Stock, GoodState, Fails, ApplyEnvelope, Uncovered, Covered;
    if envs == [] {
      NothingUncovered(s);
    } else {
      var n := |envs| - 1;
      GoesThroughIff(s, envs[..n]);
      RunStock(s, envs[..n]);
      CoveredNext(s, envs);
      var r := ApplyEnvelopes(s, envs[..n]);
      if r.CellOut? {
        StepStock(r.state, envs[n]);
        UncoveredIs(s, envs, n);
      }
    }
  }

  lemma NothingUncovered(s: CellState)
    ensures Covered(s, [])
  {
  }

  lemma UncoveredIs(s: CellState, envs: seq<Envelope>, i: nat)
    requires i < |envs|
    ensures Uncovered(s, envs, i)
       <==> envs[i].Issue? && !After(s, envs[..i]).overflow
            && envs[i].qty > Stock(s.ring.layers) + Moved(envs[..i])
  {
  }

  /** In particular nothing is refused on a cell that has overflowed before. */
  lemma OverflowedGoesThrough(s: CellState, envs: seq<Envelope>)
    requires GoodState(s) && ValidEnvelopes(envs) && s.overflow
    ensures ApplyEnvelopes(s, envs).CellOut?
  {
    GoesThroughIff(s, envs);
    forall i | 0 <= i < |envs|
      ensures !Uncovered(s, envs, i)
    {
      OverflowStays(s, envs[..i]);
    }
  }

  lemma {:induction false} OverflowStays(s: CellState, envs: seq<Envelope>)
    requires s.overflow
    ensures After(s, envs).overflow && After(s, envs).watermark == s.watermark
  {
    hide LayerRing.Consume, Fitting;
    if envs != [] {
      OverflowStays(s, envs[..|envs| - 1]);
    }
  }

  // ---- when a cell overflows --------------------------------------------------------------

  /** The i-th envelope is a receipt that finds the ring full, and the first such. */
  predicate Spills(s: CellState, envs: seq<Envelope>, i: nat) {
    && i < |envs| && envs[i].Receipt?
    && !After(s, envs[..i]).overflow && |After(s, envs[..i]).ring.layers| >= MAX_LAYERS
  }

  lemma OverflowStep(s: CellState, e: Envelope)
    ensures var t := ApplyEnvelope(s, e).state;
            && (s.overflow ==> t.overflow && t.watermark == s.watermark)
            && (!s.overflow && e.Receipt? && |s.ring.layers| >= MAX_LAYERS ==>
                  t.overflow && t.watermark == if s.watermark == 0 then e.layer.layerId else s.watermark)
            && (!s.overflow && !(e.Receipt? && |s.ring.layers| >= MAX_LAYERS) ==>
                  !t.overflow && t.watermark == s.watermark)
  {
    hide LayerRing.Consume, Fitting, Drains, DrainOps;
  }

  lemma SpillsBefore(s: CellState, envs: seq<Envelope>, i: nat)
    requires envs != [] && i < |envs| - 1
    ensures Spills(s, envs, i) <==> Spills(s, envs[..|envs| - 1], i)
  {
    hide After;
    assert envs[..|envs| - 1][..i] == envs[..i];
  }

  lemma {:induction false} NoSpillNoOverflow(s: CellState, envs: seq<Envelope>)
    requires !s.overflow && forall i: nat :: !Spills(s, envs, i)
    ensures !After(s, envs).overflow && After(s, envs).watermark == s.watermark
  {
    hide ApplyEnvelope;
    if envs != [] {
      var n := |envs| - 1;
      forall i: nat
        ensures !Spills(s, envs[..n], i)
      {
        if i < n {
          SpillsBefore(s, envs, i);
        }
      }
      NoSpillNoOverflow(s, envs[..n]);
      OverflowStep(After(s, envs[..n]), envs[n]);
      assert !Spills(s, envs, n);
    }
  }

  lemma {:induction false} SpillOverflows(s: CellState, envs: seq<Envelope>, i: nat)
    requires !s.overflow && Spills(s, envs, i)
    ensures After(s, envs).overflow
    ensures After(s, envs[..i]).watermark == s.watermark ==>
              After(s, envs).watermark == if s.watermark == 0 then envs[i].layer.layerId else s.watermark
    decreases |envs|
  {
    hide ApplyEnvelope;
    var n := |envs| - 1;
    OverflowStep(After(s, envs[..n]), envs[n]);
    if i < n {
      SpillsBefore(s, envs, i);
      SpillOverflows(s, envs[..n], i);
      assert envs[..n][..i] == envs[..i];
    }
  }

  /** Before the first spill nothing has happened to flag and watermark. */
  lemma {:induction false} QuietBefore(s: CellState, envs: seq<Envelope>)
    requires !s.overflow
    ensures !After(s, envs).overflow ==> After(s, envs).watermark == s.watermark
  {
    hide ApplyEnvelope;
    if envs != [] {
      QuietBefore(s, envs[..|envs| - 1]);
      OverflowStep(After(s, envs[..|envs| - 1]), envs[|envs| - 1]);
    }
  }

  /** A cell overflows exactly at a receipt that finds its ring full, and the watermark is
      the layer of that receipt unless an earlier one was kept. */
  lemma OverflowsIff(s: CellState, envs: seq<Envelope>)
    requires !s.overflow
    ensures After(s, envs).overflow <==> exists i: nat :: Spills(s, envs, i)
    ensures forall i: nat :: Spills(s, envs, i) ==>
              After(s, envs).watermark == if s.watermark == 0 then envs[i].layer.layerId else s.watermark
  {
    hide After, Spills;
    forall i: nat | Spills(s, envs, i)
      ensures i < |envs| && envs[i].Receipt? && After(s, envs).overflow
      ensures After(s, envs).watermark == if s.watermark == 0 then envs[i].layer.layerId else s.watermark
    {
      SpillsIs(s, envs, i);
      QuietBefore(s, envs[..i]);
      SpillOverflows(s, envs, i);
    }
    if forall i: nat :: !Spills(s, envs, i) {
      NoSpillNoOverflow(s, envs);
    }
  }

  lemma SpillsIs(s: CellState, envs: seq<Envelope>, i: nat)
    requires Spills(s, envs, i)
    ensures i < |envs| && envs[i].Receipt? && !After(s, envs[..i]).overflow
  {
  }

  /** Ring and receipts that fit together never overflow. */
  lemma {:induction false} FewLayersFit(s: CellState, envs: seq<Envelope>)
    requires GoodState(s) && ValidEnvelopes(envs) && !s.overflow && |s.ring.layers| + |envs| <= MAX_LAYERS
    ensures !After(s, envs).overflow && |After(s, envs).ring.layers| <= |s.ring.layers| + |envs|
    ensures GoodState(After(s, envs))
  {
    if envs != [] {
      var n := |envs| - 1;
      FewLayersFit(s, envs[..n]);
      EnvelopeReplays(After(s, envs[..n]), envs[n]);
      if envs[n].Issue? {
        ConsumeShrinks(After(s, envs[..n]).ring.layers, envs[n].qty);
      }
      hide LayerRing.Consume, GoodState, ReplayAll;
    }
  }

  // ---- whole batches ------------------------------------------------------------------------

  /** Phase 7 gives each cell one share of the batch. */
  ghost predicate DistinctCells(b: Batch) {
    forall i, j :: 0 <= i < j < |b| ==> b[i].cell != b[j].cell
  }

  /** The share of the batch that falls on the i-th cell is covered. */
  ghost predicate ShareCovered(live: map<nat, LiveCell>, b: Batch, i: nat) {
    i < |b| && b[i].cell in live && Covered(Seeded(live[b[i].cell], b[i].seeds), b[i].envs)
  }

  lemma {:induction false} UntouchedCell(live: map<nat, LiveCell>, b: Batch, c: nat)
    requires forall i :: 0 <= i < |b| ==> b[i].cell != c
    ensures var d := DirectBatch(live, b);
            d.DirectOut? ==> (c in d.live <==> c in live) && (c in live ==> d.live[c] == live[c])
  {
    hide DirectWork;
    if b != [] {
      UntouchedCell(live, b[..|b| - 1], c);
    }
  }

  lemma {:induction false} SameCells(live: map<nat, LiveCell>, b: Batch)
    ensures var d := DirectBatch(live, b); d.DirectOut? ==> d.live.Keys == live.Keys
  {
    hide DirectWork;
    if b != [] {
      SameCells(live, b[..|b| - 1]);
    }
  }

  /** A batch goes through exactly when every cell covers its share. */
  lemma {:induction false} BatchGoesThroughIff(live: map<nat, LiveCell>, b: Batch)
    requires ValidBatch(b) && DistinctCells(b) && forall c :: c in live ==> GoodState(live[c].state)
    ensures DirectBatch(live, b).DirectOut? <==> forall i :: 0 <= i < |b| ==> ShareCovered(live, b, i)
  {
    hide GoodState, Covered, Seeded, ApplyEnvelopes;
    if b != [] {
      var n := |b| - 1;
      BatchGoesThroughIff(live, b[..n]);
      UntouchedCell(live, b[..n], b[n].cell);
      forall i | 0 <= i < n
        ensures ShareCovered(live, b, i) <==> ShareCovered(live, b[..n], i)
      {
        assert b[..n][i] == b[i];
      }
      if b[n].cell in live {
        ShareGoesThroughIff(live[b[n].cell], b[n]);
      }
      AllSharesNext(live, b);
    }
  }

  lemma AllSharesNext(live: map<nat, LiveCell>, b: Batch)
    requires b != []
    ensures (forall i :: 0 <= i < |b| ==> ShareCovered(live, b, i))
       <==> (forall i :: 0 <= i < |b| - 1 ==> ShareCovered(live, b, i)) && ShareCovered(live, b, |b| - 1)
  {
  }

  lemma ShareGoesThroughIff(c: LiveCell, w: Work)
    requires GoodState(c.state) && ValidEnvelopes(w.envs) && ValidSeeds(w.seeds)
    ensures DirectWork(c, w).CellOut? <==> Covered(Seeded(c, w.seeds), w.envs)
  {
    if !c.seeded {
      SeedKeepsGood(c.state, w.seeds);
    }
    GoesThroughIff(Seeded(c, w.seeds), w.envs);
    hide Covered, ApplyEnvelopes, GoodState;
  }

  // ---- what a lazy seed puts in the ring -------------------------------------------------------

  lemma SeedPush(s: CellState, seeds: seq<Layer>)
    requires seeds != [] && |s.ring.layers| < MAX_LAYERS
    ensures var u := Replay(Push(seeds[0]), s);
            ReplayAll(SeedOps(s, seeds), s) == ReplayAll(SeedOps(u, seeds[1..]), u)
  {
    var u := Replay(Push(seeds[0]), s);
    ReplayAppend([Push(seeds[0])], SeedOps(u, seeds[1..]), s);
    ReplayOne([], Push(seeds[0]), s);
    assert [] + [Push(seeds[0])] == [Push(seeds[0])];
  }

  lemma SeedStops(s: CellState, seeds: seq<Layer>)
    requires seeds == [] || |s.ring.layers| >= MAX_LAYERS
    ensures ReplayAll(SeedOps(s, seeds), s)
         == if seeds != [] && !s.overflow then Activate(s, seeds[0].layerId) else s
  {
    if seeds != [] {
      ReplayOne([], OverflowActivate(seeds[0].layerId), s);
      assert [] + [OverflowActivate(seeds[0].layerId)] == [OverflowActivate(seeds[0].layerId)];
    }
  }

  /** The cell has taken the oldest of the durable layers, as many as there was room for. */
  ghost predicate TookSeeds(s: CellState, seeds: seq<Layer>, t: CellState) {
    && |s.ring.layers| <= MAX_LAYERS
    && var room := MAX_LAYERS - |s.ring.layers|;
       && t.ring.layers == s.ring.layers + (if room <= |seeds| then seeds[..room] else seeds)
       && t.ring.pending == s.ring.pending && t.overflow == (|seeds| > room)
       && t.watermark == if |seeds| > room && s.watermark == 0 then seeds[room].layerId else s.watermark
  }

  lemma TookOneMore(s: CellState, seeds: seq<Layer>, t: CellState)
    requires seeds != [] && |s.ring.layers| < MAX_LAYERS && TookSeeds(Replay(Push(seeds[0]), s), seeds[1..], t)
    ensures TookSeeds(s, seeds, t)
  {
    var room := MAX_LAYERS - |s.ring.layers|;
    if room <= |seeds| {
      assert (s.ring.layers + [seeds[0]]) + seeds[1..][..room - 1] == s.ring.layers + seeds[..room];
    } else {
      assert (s.ring.layers + [seeds[0]]) + seeds[1..] == s.ring.layers + seeds;
    }
  }

  /** An unseeded cell takes the durable layers oldest first, up to the ring's capacity;
      if they do not all fit it overflows at the first that does not. */
  lemma {:induction false} SeedsFromTheOldest(s: CellState, seeds: seq<Layer>)
    requires !s.overflow && |s.ring.layers| <= MAX_LAYERS
    ensures TookSeeds(s, seeds, ReplayAll(SeedOps(s, seeds), s))
    decreases |seeds|
  {
    hide SeedOps, ReplayAll;
    if seeds != [] && |s.ring.layers| < MAX_LAYERS {
      var u := Replay(Push(seeds[0]), s);
      SeedPush(s, seeds);
      SeedsFromTheOldest(u, seeds[1..]);
      TookOneMore(s, seeds, ReplayAll(SeedOps(u, seeds[1..]), u));
      hide TookSeeds;
    } else {
      SeedStops(s, seeds);
      assert s.ring.layers + seeds[..0] == s.ring.layers;
    }
  }
}

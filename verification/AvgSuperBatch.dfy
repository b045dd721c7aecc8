/**
  The rounding theorems of AvgRounding for Step 4 of a SuperBatch: what the succeeding
  envelopes do to an average-cost pool, and to the value its inventory rows post, is a
  run of moves of that pool.
*/
module AvgSuperBatch {
  import opened CommitterStep4
  import opened CostMethods
  import opened Int64
  import A = AvgRounding
  import F = FifoConservation

  /** A receipt into the pool has a 64-bit cost that is not negative. */
  predicate CostOk(e: Event, k: PoolKey) {
    KeyOf(e) == k && IsReceipt(e) ==> 0 <= e.unitCost <= I64_MAX
  }

  /** What an event asks of the pool, if anything. */
  function MoveOf(e: Event, k: PoolKey): seq<A.Move> {
    if KeyOf(e) != k then []
    else if IsReceipt(e) then
      if 0 <= e.unitCost <= I64_MAX then [A.In(Abs(e.qty), e.unitCost)] else []
    else if IsConsumption(e) then [A.Out(Abs(e.qty))]
    else []
  }

  /** The moves of a list of events, with the output costs the dispatch injects. */
  function Moves(cfg: Config, s: Sim, es: seq<Event>, k: PoolKey): seq<A.Move> {
    if es == [] then []
    else
      var front, e := es[..|es| - 1], es[|es| - 1];
      Moves(cfg, s, front, k) + MoveOf(Injected(e, RunEvents(cfg, s, front).woCost), k)
  }

  predicate CostsOk(cfg: Config, s: Sim, es: seq<Event>, k: PoolKey) {
    es == [] ||
    (var front, e := es[..|es| - 1], es[|es| - 1];
     CostsOk(cfg, s, front, k) && CostOk(Injected(e, RunEvents(cfg, s, front).woCost), k))
  }

  /** The moves of the envelopes that succeed. */
  function GroupMoves(cfg: Config, s: Sim, gs: seq<Group>, k: PoolKey): seq<A.Move> {
    if gs == [] then []
    else
      var front, es := gs[..|gs| - 1], gs[|gs| - 1].events;
      var t := RunGroups(cfg, s, front).sim;
      GroupMoves(cfg, s, front, k) + if RunEnvelope(cfg, t, es).1 then Moves(cfg, t, es, k) else []
  }

  predicate GroupCostsOk(cfg: Config, s: Sim, gs: seq<Group>, k: PoolKey) {
    gs == [] ||
    (var front, es := gs[..|gs| - 1], gs[|gs| - 1].events;
     GroupCostsOk(cfg, s, front, k) && CostsOk(cfg, RunGroups(cfg, s, front).sim, es, k))
  }

  function Net(l: A.Ledger): int {
    l.received - l.issued
  }

  function Posted(r: Rows, k: PoolKey): int {
    F.InventoryValue(r.postings, r.inventory, k)
  }

  /** Pool and rows stand where the moves have brought them. */
  ghost predicate Tracks(s: Sim, k: PoolKey, base: int, ms: seq<A.Move>) {
    && Linked(s.rows)
    && PoolAt(s.pools, k).avgUnitCost == A.Run(ms).avg && PoolAt(s.pools, k).avgTotalQty == A.Run(ms).qty
    && Posted(s.rows, k) == base + Net(A.Run(ms))
  }

  lemma RunSnoc(ms: seq<A.Move>, m: A.Move)
    ensures A.Run(ms + [m]) == A.Step(A.Run(ms), m)
  {
    A.RunNext(ms + [m]);
    assert (ms + [m])[..|ms|] == ms;
  }

  lemma ReceiptTracks(s: Sim, e: Event, base: int, ms: seq<A.Move>)
    requires Tracks(s, KeyOf(e), base, ms) && IsReceipt(e) && CostOk(e, KeyOf(e))
    ensures RollIn(s, e).verdict.Fine? ==> Tracks(RollIn(s, e).sim, KeyOf(e), base, ms + MoveOf(e, KeyOf(e)))
  {
    hide A.Run, F.InventoryValue, Post, Wrap, RolledAverage, AccountInventory, OffsetReceipt;
    var k, m := KeyOf(e), A.In(Abs(e.qty), e.unitCost);
    A.EventIsMove(s, e, A.Run(ms), m);
    RunSnoc(ms, m);
    var amount := Abs(e.qty) * e.unitCost;
    if InI64(amount) {
      var p := PoolAt(s.pools, k);
      var rolled := p.(avgUnitCost := RolledAverage(p, Abs(e.qty), e.unitCost),
                       avgTotalQty := Wrap(p.avgTotalQty + Abs(e.qty)), avgDirty := true);
      var t := AddLayer(SetPool(s, k, rolled), e, e.unitCost);
      F.PostEffect(t.rows, e, amount, AccountInventory(k), OffsetReceipt(e), Abs(e.qty), k);
    }
  }

  lemma IssueTracks(s: Sim, e: Event, base: int, ms: seq<A.Move>)
    requires Tracks(s, KeyOf(e), base, ms) && IsConsumption(e) && !IsReceipt(e)
    ensures AvgConsume(s, e).verdict.Fine? ==> Tracks(AvgConsume(s, e).sim, KeyOf(e), base, ms + MoveOf(e, KeyOf(e)))
  {
    hide A.Run, F.InventoryValue, Post, AccountInventory, OffsetConsumption;
    var k, m := KeyOf(e), A.Out(Abs(e.qty));
    A.EventIsMove(s, e, A.Run(ms), m);
    RunSnoc(ms, m);
    if AvgConsume(s, e).verdict.Fine? {
      var unitCost := s.pools[k].avgUnitCost;
      var rows := s.rows.(consumptions := s.rows.consumptions + [Consumed(e, unitCost, Avg)]);
      F.PostEffect(rows, e, Abs(e.qty) * unitCost, OffsetConsumption(e), AccountInventory(k), -Abs(e.qty), k);
      Nothing(unitCost);
    }
  }

  lemma Nothing(x: int)
    ensures 0 * x == 0
  {
  }

  lemma OwnTracks(s: Sim, e: Event, base: int, ms: seq<A.Move>)
    requires Tracks(s, KeyOf(e), base, ms) && CostOk(e, KeyOf(e))
    ensures AvgApply(s, e).verdict.Fine? ==> Tracks(AvgApply(s, e).sim, KeyOf(e), base, ms + MoveOf(e, KeyOf(e)))
  {
    hide A.Run, F.InventoryValue, RollIn, AvgConsume;
    if IsReceipt(e) {
      ReceiptTracks(s, e, base, ms);
    } else if IsConsumption(e) {
      IssueTracks(s, e, base, ms);
    } else {
      F.AuditEffect(s.rows, e, KeyOf(e));
      assert ms + [] == ms;
    }
  }

  lemma ElsewhereTracks(cfg: Config, s: Sim, e: Event, k: PoolKey, base: int, ms: seq<A.Move>)
    requires Tracks(s, k, base, ms) && KeyOf(e) != k
    ensures ApplyOne(cfg, s, e).verdict.Fine? ==> Tracks(ApplyOne(cfg, s, e).sim, k, base, ms + MoveOf(e, k))
  {
    hide FifoApply, AvgApply, StdApply, F.InventoryValue, F.InventoryQty, A.Run;
    EventFrame(cfg, s, e);
    F.FifoElsewhere(s, e, k);
    F.AvgElsewhere(s, e, k);
    F.StdElsewhere(cfg, s, e, k);
    assert ms + [] == ms;
  }

  lemma ApplyTracks(cfg: Config, s: Sim, e: Event, k: PoolKey, base: int, ms: seq<A.Move>)
    requires Tracks(s, k, base, ms) && MethodOf(cfg, k.0).Avg? && CostOk(e, k)
    ensures ApplyOne(cfg, s, e).verdict.Fine? ==> Tracks(ApplyOne(cfg, s, e).sim, k, base, ms + MoveOf(e, k))
  {
    hide Tracks, FifoApply, AvgApply, StdApply, MoveOf;
    if KeyOf(e) == k {
      OwnTracks(s, e, base, ms);
    } else {
      ElsewhereTracks(cfg, s, e, k, base, ms);
    }
  }

  lemma StepTracks(cfg: Config, p: Progress, e: Event, k: PoolKey, base: int, ms: seq<A.Move>)
    requires Tracks(p.sim, k, base, ms) && MethodOf(cfg, k.0).Avg? && CostOk(Injected(e, p.woCost), k)
    ensures var q := StepEvent(cfg, p, e);
            !q.failed ==> Tracks(q.sim, k, base, ms + MoveOf(Injected(e, p.woCost), k))
  {
    hide Tracks, ApplyOne, ComponentCost, InI64, MoveOf, CostOk;
    ApplyTracks(cfg, p.sim, Injected(e, p.woCost), k, base, ms);
  }

  lemma {:induction false} RunTracks(cfg: Config, s: Sim, es: seq<Event>, k: PoolKey, base: int, ms: seq<A.Move>)
    requires Tracks(s, k, base, ms) && MethodOf(cfg, k.0).Avg? && CostsOk(cfg, s, es, k)
    ensures var p := RunEvents(cfg, s, es); !p.failed ==> Tracks(p.sim, k, base, ms + Moves(cfg, s, es, k))
  {
    hide Tracks, StepEvent, MoveOf, CostOk, MethodOf;
    if es == [] {
      assert ms + [] == ms;
    } else {
      var n := |es| - 1;
      RunTracks(cfg, s, es[..n], k, base, ms);
      var p, before := RunEvents(cfg, s, es[..n]), Moves(cfg, s, es[..n], k);
      if !p.failed {
        StepTracks(cfg, p, es[n], k, base, ms + before);
        var m := MoveOf(Injected(es[n], p.woCost), k);
        assert (ms + before) + m == ms + (before + m);
      }
    }
  }

  lemma {:induction false} GroupsTrack(cfg: Config, s: Sim, gs: seq<Group>, k: PoolKey, base: int, ms: seq<A.Move>)
    requires Tracks(s, k, base, ms) && MethodOf(cfg, k.0).Avg? && GroupCostsOk(cfg, s, gs, k)
    ensures Tracks(RunGroups(cfg, s, gs).sim, k, base, ms + GroupMoves(cfg, s, gs, k))
  {
    hide Tracks, RunEvents, Rollback, Moves, CostsOk, MethodOf;
    if gs == [] {
      assert ms + [] == ms;
    } else {
      var n := |gs| - 1;
      var t, es, before := RunGroups(cfg, s, gs[..n]).sim, gs[n].events, GroupMoves(cfg, s, gs[..n], k);
      GroupsTrack(cfg, s, gs[..n], k, base, ms);
      RunTracks(cfg, t, es, k, base, ms + before);
      FailedEnvelopeIsUndone(cfg, t, es);
      var m := Moves(cfg, t, es, k);
      assert (ms + before) + m == ms + (before + m) && before + [] == before;
    }
  }

  /** Step 4 brings an average-cost pool where the moves of its succeeding envelopes
      bring it, from wherever earlier moves `ms` had brought it, and the value its
      inventory rows post is the value received less issued by those moves. */
  lemma SuperBatchIsMoves(cfg: Config, pools: map<PoolKey, Pool>, events: seq<Event>, k: PoolKey, ms: seq<A.Move>)
    requires MethodOf(cfg, k.0).Avg? && GroupCostsOk(cfg, Sim(pools, NO_ROWS), Groups(events), k)
    requires PoolAt(pools, k).avgUnitCost == A.Run(ms).avg && PoolAt(pools, k).avgTotalQty == A.Run(ms).qty
    ensures var s := Step4(cfg, pools, events).sim;
            var l := A.Run(ms + GroupMoves(cfg, Sim(pools, NO_ROWS), Groups(events), k));
            && PoolAt(s.pools, k).avgUnitCost == l.avg && PoolAt(s.pools, k).avgTotalQty == l.qty
            && F.InventoryValue(s.rows.postings, s.rows.inventory, k) == Net(l) - Net(A.Run(ms))
  {
    hide A.Run, RunGroups, Groups, GroupMoves, GroupCostsOk, MethodOf;
    var start := Sim(pools, NO_ROWS);
    assert Tracks(start, k, -Net(A.Run(ms)), ms);
    GroupsTrack(cfg, start, Groups(events), k, -Net(A.Run(ms)), ms);
  }

  /** So from an empty pool, while the units received fit, the value posted less the
      value carried is the rounding residue, within its bounds, and the average lies
      between the least and greatest receipt cost as long as there is stock. */
  lemma SuperBatchRounds(cfg: Config, pools: map<PoolKey, Pool>, events: seq<Event>, k: PoolKey)
    requires MethodOf(cfg, k.0).Avg? && GroupCostsOk(cfg, Sim(pools, NO_ROWS), Groups(events), k)
    requires PoolAt(pools, k).avgUnitCost == 0 && PoolAt(pools, k).avgTotalQty == 0
    ensures var s := Step4(cfg, pools, events).sim;
            var ms := GroupMoves(cfg, Sim(pools, NO_ROWS), Groups(events), k);
            var p, l := PoolAt(s.pools, k), A.Run(ms);
            A.UnitsIn(ms) <= I64_MAX ==>
              && 0 <= F.InventoryValue(s.rows.postings, s.rows.inventory, k) - p.avgUnitCost * p.avgTotalQty <= l.slack
              && (p.avgTotalQty > 0 ==> l.lo <= p.avgUnitCost <= l.hi)
  {
    hide *;
    var ms := GroupMoves(cfg, Sim(pools, NO_ROWS), Groups(events), k);
    RunNothing();
    assert [] + ms == ms;
    SuperBatchIsMoves(cfg, pools, events, k, []);
    LedgerRounds(ms);
  }

  lemma RunNothing()
    ensures A.Run([]).avg == 0 && A.Run([]).qty == 0 && Net(A.Run([])) == 0
  {
  }

  lemma LedgerRounds(ms: seq<A.Move>)
    ensures var l := A.Run(ms);
            A.UnitsIn(ms) <= I64_MAX ==>
              0 <= Net(l) - l.avg * l.qty <= l.slack && (l.qty > 0 ==> l.lo <= l.avg <= l.hi)
  {
    hide A.Run, A.UnitsIn, A.Fits;
    if A.UnitsIn(ms) <= I64_MAX {
      A.FewUnitsFit(ms);
      A.RoundingIsBounded(ms);
      A.AverageIsBetweenWithStock(ms);
    }
  }
}

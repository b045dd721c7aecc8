/**
  When an envelope of a SuperBatch succeeds (committer.rs), event by event and by quantity
  and cost: every event can be booked, and the cost of the components of a work order stays
  within 64 bits.
*/
module EnvelopeOutcomes {
  import opened Collections
  import opened CommitterStep4
  import opened CostMethods
  import opened EventOutcomes
  import opened Int64

  /** What a consumption costs under the method of its SKU. */
  function CostOf(cfg: Config, s: Sim, e: Event): int {
    var k, qty := KeyOf(e), Abs(e.qty);
    match MethodOf(cfg, e.sku)
    case Fifo => if k in s.pools then CostBefore(s.pools[k].layers, qty, |s.pools[k].layers|) else 0
    case Avg => if k in s.pools then qty * s.pools[k].avgUnitCost else 0
    case Std => if k in cfg.standards then qty * cfg.standards[k] else 0
  }

  // ---- the cost read back from the rows -------------------------------------------

  /** The rows of a walk, added up with the same checks, give its cost; and that is the cost
      of the shares. */
  lemma {:induction false} WalkCost(ls: seq<LayerView>, qty: int, cost: int, e: Event)
    requires qty >= 0
    ensures var t := TakeLayers(ls, qty, cost, e);
            !t.overflow ==> DepletionCost(t.rows, cost) == Some(t.cost) && t.cost == cost + CostBefore(ls, qty, |ls|)
    decreases |ls|
  {
    hide Depletion, InI64, CostBefore, Share, StockBefore, DepletionCost;
    if ls == [] || qty == 0 {
      NoShares(ls, qty, |ls|);
      NoRows(cost);
    } else {
      FirstShare(ls, qty, cost);
      Behind(ls, qty, |ls|);
      if ls[0].qty <= 0 {
        WalkCost(ls[1..], qty, cost, e);
      } else {
        var take := Min(qty, ls[0].qty);
        var p := take * ls[0].unitCost;
        if InI64(p) && InI64(cost + p) {
          WalkCost(ls[1..], qty - take, cost + p, e);
          RowCost(ls[0], e, take, TakeLayers(ls[1..], qty - take, cost + p, e).rows, cost);
        }
      }
    }
  }

  lemma NoRows(cost: int)
    ensures DepletionCost([], cost) == Some(cost)
  {
  }

  lemma RowCost(l: LayerView, e: Event, take: int, rows: seq<DepletionRow>, cost: int)
    requires InI64(take * l.unitCost) && InI64(cost + take * l.unitCost)
    ensures DepletionCost([Depletion(l, e, take)] + rows, cost) == DepletionCost(rows, cost + take * l.unitCost)
  {
    assert ([Depletion(l, e, take)] + rows)[1..] == rows;
  }

  lemma {:induction false} NoShares(ls: seq<LayerView>, qty: int, j: nat)
    requires j <= |ls| && (ls == [] || qty == 0)
    ensures CostBefore(ls, qty, j) == 0
  {
    if j > 0 {
      NoShares(ls, qty, j - 1);
      StockGrows(ls, j - 1);
    }
  }

  lemma FifoCost(s: Sim, e: Event)
    requires Deplete(s, e).verdict.Fine?
    ensures var k := KeyOf(e);
            && k in s.pools
            && var c := CostBefore(s.pools[k].layers, Abs(e.qty), |s.pools[k].layers|);
               InI64(c) && ComponentCost(s.rows, Deplete(s, e).sim.rows) == Some(c)
  {
    var k := KeyOf(e);
    var t := TakeLayers(s.pools[k].layers, Abs(e.qty), 0, e);
    WalkCost(s.pools[k].layers, Abs(e.qty), 0, e);
    CostStaysIn(s.pools[k].layers, Abs(e.qty), 0, e);
    hide TakeLayers, CostBefore, InI64;
    var after := Deplete(s, e).sim.rows;
    assert after.depletions[|s.rows.depletions|..] == t.rows;
    assert after.consumptions[|s.rows.consumptions|..] == [];
  }

  lemma {:induction false} CostStaysIn(ls: seq<LayerView>, qty: int, cost: int, e: Event)
    requires InI64(cost)
    ensures InI64(TakeLayers(ls, qty, cost, e).cost)
    decreases |ls|
  {
    hide Depletion, InI64;
    if ls != [] && qty != 0 {
      if ls[0].qty <= 0 {
        CostStaysIn(ls[1..], qty, cost, e);
      } else {
        var take := Min(qty, ls[0].qty);
        var p := take * ls[0].unitCost;
        if InI64(p) && InI64(cost + p) {
          CostStaysIn(ls[1..], qty - take, cost + p, e);
        }
      }
    }
  }

  /** One consumption row is read back as quantity times unit cost, if that fits. */
  lemma OneRowCost(r: Rows, t: Rows, c: ConsumptionRow)
    requires t.depletions == r.depletions && t.consumptions == r.consumptions + [c]
    ensures ComponentCost(r, t) == if InI64(c.qty * c.unitCost) then Some(c.qty * c.unitCost) else None
  {
    assert t.depletions[|r.depletions|..] == [] && t.consumptions[|r.consumptions|..] == [c];
    assert [c][1..] == [];
    assert DepletionCost([], 0) == Some(0);
    match CheckedAdd(0, c.qty, c.unitCost) {
      case None => assert ConsumptionCost([c], 0) == None;
      case Some(sum) => assert ConsumptionCost([], sum) == Some(sum);
    }
  }

  lemma AvgCost(s: Sim, e: Event)
    requires AvgConsume(s, e).verdict.Fine?
    ensures KeyOf(e) in s.pools
    ensures var c := Abs(e.qty) * s.pools[KeyOf(e)].avgUnitCost;
            InI64(c) && ComponentCost(s.rows, AvgConsume(s, e).sim.rows) == Some(c)
  {
    var c := Consumed(e, s.pools[KeyOf(e)].avgUnitCost, Avg);
    OneRowCost(s.rows, AvgConsume(s, e).sim.rows, c);
    hide ComponentCost;
  }

  lemma StdCost(s: Sim, e: Event, unitCost: int)
    ensures var c := Abs(e.qty) * unitCost;
            ComponentCost(s.rows, StdConsume(s, e, unitCost).sim.rows) == if InI64(c) then Some(c) else None
  {
    OneRowCost(s.rows, StdConsume(s, e, unitCost).sim.rows, Consumed(e, unitCost, Std));
    hide ComponentCost, Wrap;
  }

  /** The cost of a component, as the committer reads it back. */
  lemma ComponentCostIs(cfg: Config, s: Sim, e: Event)
    requires e.kind.WoComplete? && e.qty < 0 && ApplyOne(cfg, s, e).verdict.Fine?
    ensures ComponentCost(s.rows, ApplyOne(cfg, s, e).sim.rows)
         == if InI64(CostOf(cfg, s, e)) then Some(CostOf(cfg, s, e)) else None
  {
    hide ComponentCost, InI64, CostBefore, Deplete, AvgConsume, StdConsume;
    match MethodOf(cfg, e.sku)
    case Fifo => FifoCost(s, e);
    case Avg => AvgCost(s, e);
    case Std => StdCost(s, e, cfg.standards[KeyOf(e)]);
  }

  // ---- one event, one envelope, one SuperBatch ---------------------------------------

  predicate IsComponent(e: Event) {
    e.kind.WoComplete? && e.qty < 0
  }

  /** The event can be booked where the run stands, and so can its cost. */
  ghost predicate StepPossible(cfg: Config, p: Progress, e: Event) {
    && Possible(cfg, p.sim, Injected(e, p.woCost))
    && (IsComponent(e) ==> InI64(CostOf(cfg, p.sim, e)) && InI64(p.woCost + CostOf(cfg, p.sim, e)))
  }

  /** An event succeeds exactly when it is possible, and the components' cost runs up by
      what each of them costs. */
  lemma StepSucceedsIff(cfg: Config, p: Progress, e: Event)
    ensures var q := StepEvent(cfg, p, e);
            && (!q.failed <==> StepPossible(cfg, p, e))
            && (!q.failed ==> q.woCost == p.woCost + if IsComponent(e) then CostOf(cfg, p.sim, e) else 0)
  {
    EventSucceedsIff(cfg, p.sim, Injected(e, p.woCost));
    if IsComponent(e) && ApplyOne(cfg, p.sim, e).verdict.Fine? {
      ComponentCostIs(cfg, p.sim, e);
    }
    hide ApplyOne, Possible, CostOf, ComponentCost, InI64;
  }

  /** An envelope succeeds exactly when each of its events is possible after the ones
      before it. */
  lemma {:induction false} EnvelopeSucceedsIff(cfg: Config, s: Sim, es: seq<Event>)
    ensures !RunEvents(cfg, s, es).failed
       <==> forall i :: 0 <= i < |es| ==> StepPossible(cfg, RunEvents(cfg, s, es[..i]), es[i])
  {
    hide StepPossible, StepEvent;
    if es != [] {
      var n := |es| - 1;
      EnvelopeSucceedsIff(cfg, s, es[..n]);
      var p := RunEvents(cfg, s, es[..n]);
      StepSucceedsIff(cfg, p, es[n]);
      hide RunEvents;
      Prefixes(cfg, s, es);
      RunOneMore(cfg, s, es, |es|);
      assert es[..|es|] == es;
    }
  }

  /** The condition on all events is the one on all but the last and the one on the last. */
  lemma Prefixes(cfg: Config, s: Sim, es: seq<Event>)
    requires es != []
    ensures var n := |es| - 1;
            (forall i :: 0 <= i < |es| ==> StepPossible(cfg, RunEvents(cfg, s, es[..i]), es[i]))
            <==> (forall i :: 0 <= i < n ==> StepPossible(cfg, RunEvents(cfg, s, es[..n][..i]), es[..n][i]))
                 && StepPossible(cfg, RunEvents(cfg, s, es[..n]), es[n])
  {
    hide StepPossible, RunEvents;
    var n := |es| - 1;
    forall i | 0 <= i < n
      ensures StepPossible(cfg, RunEvents(cfg, s, es[..n][..i]), es[..n][i])
         <==> StepPossible(cfg, RunEvents(cfg, s, es[..i]), es[i])
    {
      assert es[..n][..i] == es[..i];
    }
  }

  /** Over a SuperBatch the i-th envelope is reported as succeeded exactly when each of its
      events is possible on what the envelopes before it left. */
  lemma {:induction false} ReportedIff(cfg: Config, s: Sim, gs: seq<Group>, i: nat)
    requires i < |gs|
    ensures var before := RunGroups(cfg, s, gs[..i]).sim;
            RunGroups(cfg, s, gs).oks[i]
            <==> forall j :: 0 <= j < |gs[i].events| ==>
                   StepPossible(cfg, RunEvents(cfg, before, gs[i].events[..j]), gs[i].events[j])
  {
    hide StepPossible, RunEvents, Rollback;
    var n := |gs| - 1;
    if i == n {
      EnvelopeSucceedsIff(cfg, RunGroups(cfg, s, gs[..n]).sim, gs[n].events);
    } else {
      ReportedIff(cfg, s, gs[..n], i);
      assert gs[..n][..i] == gs[..i];
    }
  }
}

/**
  References to layers that have no database id yet (fifo.rs, committer.rs): depletion
  rows and pool layers carry an index into the SuperBatch's layer rows, which Step 5
  turns into the id returned by the insert.
*/
module LayerReferences {
  import opened Collections
  import opened CommitterStep4
  import opened CostMethods
  import opened Int64
  import opened Sorting

  /** An index, if any, points to a layer row of this pool and cost. */
  ghost predicate RefOk(layers: seq<LayerRow>, k: PoolKey, index: Option<nat>, unitCost: int) {
    index.Some? ==> index.value < |layers| && layers[index.value].key == k && layers[index.value].unitCost == unitCost
  }

  ghost predicate ViewsOk(layers: seq<LayerRow>, k: PoolKey, views: seq<LayerView>) {
    forall i :: 0 <= i < |views| ==> RefOk(layers, k, views[i].index, views[i].unitCost)
  }

  ghost predicate PoolsOk(layers: seq<LayerRow>, pools: map<PoolKey, Pool>) {
    forall k :: k in pools ==> ViewsOk(layers, k, pools[k].layers)
  }

  ghost predicate DepletionsOk(layers: seq<LayerRow>, ds: seq<DepletionRow>) {
    forall i :: 0 <= i < |ds| ==> RefOk(layers, ds[i].key, ds[i].index, ds[i].unitCost)
  }

  ghost predicate RefsOk(s: Sim) {
    PoolsOk(s.rows.layers, s.pools) && DepletionsOk(s.rows.layers, s.rows.depletions)
  }

  /** References survive further layer rows. */
  lemma RefsGrow(s: Sim, layers: seq<LayerRow>)
    requires RefsOk(s) && s.rows.layers <= layers
    ensures PoolsOk(layers, s.pools) && DepletionsOk(layers, s.rows.depletions)
  {
    forall k | k in s.pools
      ensures ViewsOk(layers, k, s.pools[k].layers)
    {
      assert ViewsOk(s.rows.layers, k, s.pools[k].layers);
    }
  }

  lemma {:induction false} TakeRefs(rows: seq<LayerRow>, layers: seq<LayerView>, remaining: int, cost: int, e: Event)
    requires ViewsOk(rows, KeyOf(e), layers)
    ensures var t := TakeLayers(layers, remaining, cost, e);
            ViewsOk(rows, KeyOf(e), t.layers) && DepletionsOk(rows, t.rows)
    decreases |layers|
  {
    if layers != [] && remaining != 0 {
      hide InI64;
      assert ViewsOk(rows, KeyOf(e), layers[1..]);
      if layers[0].qty <= 0 {
        TakeRefs(rows, layers[1..], remaining, cost, e);
      } else {
        var take := Min(remaining, layers[0].qty);
        var p := take * layers[0].unitCost;
        if InI64(p) && InI64(cost + p) {
          TakeRefs(rows, layers[1..], remaining - take, cost + p, e);
        }
      }
    }
  }

  lemma PoolRefs(s: Sim, k: PoolKey)
    requires RefsOk(s)
    ensures ViewsOk(s.rows.layers, k, PoolAt(s.pools, k).layers)
  {
  }

  lemma SetPoolRefs(s: Sim, k: PoolKey, p: Pool)
    requires RefsOk(s) && ViewsOk(s.rows.layers, k, p.layers)
    ensures RefsOk(SetPool(s, k, p))
  {
    hide ViewsOk, DepletionsOk;
  }

  /** A new layer points at the row that was just pushed. */
  lemma AddLayerRefs(s: Sim, e: Event, unitCost: int)
    requires RefsOk(s)
    ensures RefsOk(AddLayer(s, e, unitCost))
  {
    var t := AddLayer(s, e, unitCost);
    var k := KeyOf(e);
    RefsGrow(s, t.rows.layers);
    PoolRefs(s, k);
    assert ViewsOk(t.rows.layers, k, t.pools[k].layers) by {
      assert t.rows.layers[|s.rows.layers|].key == k;
    }
    hide ViewsOk, DepletionsOk;
  }

  lemma FifoRefs(s: Sim, e: Event)
    requires RefsOk(s)
    ensures FifoApply(s, e).verdict.Fine? ==> RefsOk(FifoApply(s, e).sim)
  {
    hide InI64, RefsOk;
    if IsReceipt(e) {
      AddLayerRefs(s, e, e.unitCost);
      PostedRefs(AddLayer(s, e, e.unitCost), FifoApply(s, e).sim);
    } else if IsConsumption(e) {
      DepleteRefs(s, e);
    } else {
      PostedRefs(s, FifoApply(s, e).sim);
    }
  }

  /** Posting lines do not touch references. */
  lemma PostedRefs(s: Sim, t: Sim)
    requires RefsOk(s)
    ensures t.pools == s.pools && t.rows.layers == s.rows.layers && t.rows.depletions == s.rows.depletions ==> RefsOk(t)
  {
  }

  lemma DepleteRefs(s: Sim, e: Event)
    requires RefsOk(s)
    ensures Deplete(s, e).verdict.Fine? ==> RefsOk(Deplete(s, e).sim)
  {
    var k := KeyOf(e);
    if k in s.pools {
      PoolRefs(s, k);
      TakeRefs(s.rows.layers, s.pools[k].layers, Abs(e.qty), 0, e);
      hide TakeLayers;
      var t := TakeLayers(s.pools[k].layers, Abs(e.qty), 0, e);
      SetPoolRefs(s, k, s.pools[k].(layers := t.layers));
      hide ViewsOk, RefOk;
      assert DepletionsOk(s.rows.layers, s.rows.depletions + t.rows);
    }
  }

  lemma AvgRefs(s: Sim, e: Event)
    requires RefsOk(s)
    ensures AvgApply(s, e).verdict.Fine? ==> RefsOk(AvgApply(s, e).sim)
  {
    var k := KeyOf(e);
    PoolRefs(s, k);
    hide InI64, RefsOk, Wrap, RolledAverage, ViewsOk;
    if IsReceipt(e) {
      var p := PoolAt(s.pools, k);
      var rolled := p.(avgUnitCost := RolledAverage(p, Abs(e.qty), e.unitCost),
                       avgTotalQty := Wrap(p.avgTotalQty + Abs(e.qty)), avgDirty := true);
      SetPoolRefs(s, k, rolled);
      AddLayerRefs(SetPool(s, k, rolled), e, e.unitCost);
      PostedRefs(AddLayer(SetPool(s, k, rolled), e, e.unitCost), AvgApply(s, e).sim);
    } else if IsConsumption(e) {
      AvgConsumeRefs(s, e);
    } else {
      PostedRefs(s, AvgApply(s, e).sim);
    }
  }

  lemma AvgConsumeRefs(s: Sim, e: Event)
    requires RefsOk(s)
    ensures RefsOk(AvgConsume(s, e).sim)
  {
    var k := KeyOf(e);
    PoolRefs(s, k);
    hide InI64, ViewsOk, DepletionsOk;
  }

  lemma StdRefs(cfg: Config, s: Sim, e: Event)
    requires RefsOk(s)
    ensures RefsOk(StdApply(cfg, s, e).sim)
  {
    var k := KeyOf(e);
    PoolRefs(s, k);
    SetPoolRefs(s, k, PoolAt(s.pools, k));
    AddLayerRefs(s, e, e.unitCost);
    hide RefsOk, Wrap, ViewsOk;
    var t := StdApply(cfg, s, e).sim;
    PostedRefs(s, t);
    PostedRefs(SetPool(s, k, PoolAt(s.pools, k)), t);
    PostedRefs(AddLayer(s, e, e.unitCost), t);
  }

  lemma ApplyRefs(cfg: Config, s: Sim, e: Event)
    requires RefsOk(s)
    ensures ApplyOne(cfg, s, e).verdict.Fine? ==> RefsOk(ApplyOne(cfg, s, e).sim)
  {
    hide RefsOk, FifoApply, AvgApply, StdApply;
    FifoRefs(s, e);
    AvgRefs(s, e);
    StdRefs(cfg, s, e);
  }

  lemma {:induction false} RunRefs(cfg: Config, s: Sim, es: seq<Event>)
    requires RefsOk(s)
    ensures !RunEvents(cfg, s, es).failed ==> RefsOk(RunEvents(cfg, s, es).sim)
  {
    if es != [] {
      RunRefs(cfg, s, es[..|es| - 1]);
      var p, e := RunEvents(cfg, s, es[..|es| - 1]), es[|es| - 1];
      hide RefsOk, ApplyOne, ComponentCost, InI64;
      if !p.failed {
        ApplyRefs(cfg, p.sim, Injected(e, p.woCost));
      }
    }
  }

  lemma EnvelopeRefs(cfg: Config, s: Sim, es: seq<Event>)
    requires RefsOk(s)
    ensures RefsOk(RunEnvelope(cfg, s, es).0)
  {
    hide RefsOk, RunEvents, Rollback;
    RunRefs(cfg, s, es);
    FailedEnvelopeIsUndone(cfg, s, es);
  }

  lemma {:induction false} GroupsRefs(cfg: Config, s: Sim, gs: seq<Group>)
    requires RefsOk(s)
    ensures RefsOk(RunGroups(cfg, s, gs).sim)
  {
    if gs != [] {
      hide RefsOk, RunEnvelope;
      GroupsRefs(cfg, s, gs[..|gs| - 1]);
      EnvelopeRefs(cfg, RunGroups(cfg, s, gs[..|gs| - 1]).sim, gs[|gs| - 1].events);
    }
  }

  // ---- Rows belong to succeeded envelopes -----------------------------------

  ghost predicate DepletionsIn(ds: seq<DepletionRow>, keep: set<nat>) {
    forall i :: 0 <= i < |ds| ==> ds[i].corr in keep
  }

  ghost predicate RowsIn(r: Rows, keep: set<nat>) {
    (forall i :: 0 <= i < |r.layers| ==> r.layers[i].corr in keep) && DepletionsIn(r.depletions, keep)
  }

  lemma DepletionsAppend(a: seq<DepletionRow>, b: seq<DepletionRow>, keep: set<nat>, corr: nat)
    requires DepletionsIn(a, keep) && DepletionsIn(b, {corr}) && corr in keep
    ensures DepletionsIn(a + b, keep)
  {
    forall i | 0 <= i < |a + b|
      ensures (a + b)[i].corr in keep
    {
      if i >= |a| {
        assert (a + b)[i] == b[i - |a|];
      }
    }
  }

  lemma {:induction false} TakeCorrs(layers: seq<LayerView>, remaining: int, cost: int, e: Event)
    ensures DepletionsIn(TakeLayers(layers, remaining, cost, e).rows, {e.corr})
    decreases |layers|
  {
    if layers != [] && remaining != 0 {
      hide InI64;
      if layers[0].qty <= 0 {
        TakeCorrs(layers[1..], remaining, cost, e);
        assert TakeLayers(layers, remaining, cost, e).rows == TakeLayers(layers[1..], remaining, cost, e).rows;
      } else {
        var take := Min(remaining, layers[0].qty);
        var p := take * layers[0].unitCost;
        if InI64(p) && InI64(cost + p) {
          TakeCorrs(layers[1..], remaining - take, cost + p, e);
          DepletionsAppend([Depletion(layers[0], e, take)],
                           TakeLayers(layers[1..], remaining - take, cost + p, e).rows, {e.corr}, e.corr);
        }
      }
    }
  }

  lemma ApplyCorrs(cfg: Config, s: Sim, e: Event, keep: set<nat>)
    requires RowsIn(s.rows, keep) && e.corr in keep
    ensures RowsIn(ApplyOne(cfg, s, e).sim.rows, keep)
  {
    hide FifoApply, AvgApply, StdApply, RowsIn;
    FifoCorrs(s, e, keep);
    AvgCorrs(s, e, keep);
    StdCorrs(cfg, s, e, keep);
  }

  lemma FifoCorrs(s: Sim, e: Event, keep: set<nat>)
    requires RowsIn(s.rows, keep) && e.corr in keep
    ensures RowsIn(FifoApply(s, e).sim.rows, keep)
  {
    hide InI64, TakeLayers;
    if KeyOf(e) in s.pools {
      var layers := s.pools[KeyOf(e)].layers;
      TakeCorrs(layers, Abs(e.qty), 0, e);
      DepletionsAppend(s.rows.depletions, TakeLayers(layers, Abs(e.qty), 0, e).rows, keep, e.corr);
    }
    hide DepletionsIn;
  }

  lemma AvgCorrs(s: Sim, e: Event, keep: set<nat>)
    requires RowsIn(s.rows, keep) && e.corr in keep
    ensures RowsIn(AvgApply(s, e).sim.rows, keep)
  {
    hide InI64, Wrap, RolledAverage;
  }

  lemma StdCorrs(cfg: Config, s: Sim, e: Event, keep: set<nat>)
    requires RowsIn(s.rows, keep) && e.corr in keep
    ensures RowsIn(StdApply(cfg, s, e).sim.rows, keep)
  {
    hide Wrap;
  }

  lemma {:induction false} RunCorrs(cfg: Config, s: Sim, es: seq<Event>, keep: set<nat>)
    requires RowsIn(s.rows, keep) && forall i :: 0 <= i < |es| ==> es[i].corr in keep
    ensures RowsIn(RunEvents(cfg, s, es).sim.rows, keep)
  {
    if es != [] {
      RunCorrs(cfg, s, es[..|es| - 1], keep);
      var p, e := RunEvents(cfg, s, es[..|es| - 1]), es[|es| - 1];
      hide RowsIn, ApplyOne, ComponentCost, InI64;
      ApplyCorrs(cfg, p.sim, Injected(e, p.woCost), keep);
    }
  }

  ghost predicate OwnEvents(gs: seq<Group>) {
    forall g, i :: 0 <= g < |gs| && 0 <= i < |gs[g].events| ==> gs[g].events[i].corr == gs[g].corr
  }

  lemma {:induction false} AddInOwns(gs: seq<Group>, e: Event)
    requires OwnEvents(gs)
    ensures OwnEvents(AddIn(gs, e))
  {
    if gs != [] {
      var n := |gs| - 1;
      assert OwnEvents(gs[..n]);
      if gs[n].corr != e.corr {
        AddInOwns(gs[..n], e);
      }
    }
  }

  lemma {:induction false} GroupsOwnEvents(es: seq<Event>)
    ensures OwnEvents(GroupByCorr(es))
  {
    if es != [] {
      GroupsOwnEvents(es[..|es| - 1]);
      AddInOwns(GroupByCorr(es[..|es| - 1]), es[|es| - 1]);
    }
  }

  lemma {:induction false} RowsAreSucceeded(cfg: Config, s: Sim, gs: seq<Group>)
    requires OwnEvents(gs) && RowsIn(s.rows, {})
    ensures var o := RunGroups(cfg, s, gs); RowsIn(o.sim.rows, Succeeded(gs, o.oks))
  {
    if gs != [] {
      var n := |gs| - 1;
      var h, g := gs[..n], gs[n];
      assert gs == h + [g] && OwnEvents(h);
      RowsAreSucceeded(cfg, s, h);
      RunGroupsNext(cfg, s, h, g);
      var o := RunGroups(cfg, s, h);
      var all := RunGroups(cfg, s, gs);
      SucceededNext(h, o.oks, g, all.oks[n]);
      assert forall i :: 0 <= i < |g.events| ==> g.events[i].corr == g.corr;
      FailedEnvelopeIsUndone(cfg, o.sim, g.events);
      var keep := Succeeded(gs, all.oks);
      RowsInMore(o.sim.rows, Succeeded(h, o.oks), keep);
      hide RowsIn, RunGroups, RunEvents, Rollback, OwnEvents, Succeeded;
      if RunEnvelope(cfg, o.sim, g.events).1 {
        RunCorrs(cfg, o.sim, g.events, keep);
      }
    }
  }

  lemma RowsInMore(r: Rows, keep: set<nat>, more: set<nat>)
    requires RowsIn(r, keep) && keep <= more
    ensures RowsIn(r, more)
  {
  }

  lemma SucceededNext(h: seq<Group>, oks: seq<bool>, g: Group, ok: bool)
    requires |h| == |oks|
    ensures Succeeded(h + [g], oks + [ok]) == Succeeded(h, oks) + if ok then {g.corr} else {}
  {
    var all, flags := h + [g], oks + [ok];
    forall c | c in Succeeded(h, oks)
      ensures c in Succeeded(all, flags)
    {
      var i :| 0 <= i < |h| && oks[i] && h[i].corr == c;
      assert all[i] == h[i] && flags[i];
    }
    if ok {
      assert all[|h|] == g && flags[|h|];
    }
    forall c | c in Succeeded(all, flags)
      ensures c in Succeeded(h, oks) || (ok && c == g.corr)
    {
      var i :| 0 <= i < |all| && flags[i] && all[i].corr == c;
      if i < |h| {
        assert oks[i] && h[i].corr == c;
      }
    }
  }

  // ---- Step 5 ---------------------------------------------------------------

  /** The positions of the layer rows that Step 5b inserts. */
  function Inserted(layers: seq<LayerRow>, keep: set<nat>): seq<nat> {
    if layers == [] then []
    else Inserted(layers[..|layers| - 1], keep) + if layers[|layers| - 1].corr in keep then [|layers| - 1] else []
  }

  lemma {:induction false} AllInserted(layers: seq<LayerRow>, keep: set<nat>)
    requires forall i :: 0 <= i < |layers| ==> layers[i].corr in keep
    ensures Inserted(layers, keep) == seq(|layers|, i => i)
  {
    if layers != [] {
      AllInserted(layers[..|layers| - 1], keep);
    }
  }

  /** Step 5b: the returned ids, keyed by the position of the row they belong to. */
  function IdsByIndex(at: seq<nat>, ids: seq<int>): map<nat, int>
    requires |at| == |ids|
  {
    if at == [] then map[]
    else IdsByIndex(at[..|at| - 1], ids[..|ids| - 1])[at[|at| - 1] := ids[|ids| - 1]]
  }

  lemma {:induction false} IdsInOrder(n: nat, ids: seq<int>)
    requires |ids| == n
    ensures var m := IdsByIndex(seq(n, i => i), ids);
            forall i :: 0 <= i < n ==> i in m && m[i] == ids[i]
  {
    if n > 0 {
      IdsInOrder(n - 1, ids[..n - 1]);
      var at := seq(n, i => i);
      assert at[..n - 1] == seq(n - 1, i => i);
    }
  }

  /** Step 5c for one row: the invariant error is None. */
  function Resolve(d: DepletionRow, ids: map<nat, int>): Option<int> {
    match d.index
    case None => Some(d.layerId)
    case Some(i) => if i in ids then Some(ids[i]) else None
  }

  ghost predicate Hydrated(pools: map<PoolKey, Pool>) {
    forall k, i :: k in pools && 0 <= i < |pools[k].layers| ==> pools[k].layers[i].index.None?
  }

  /** After Step 4 from hydrated pools, every row belongs to a succeeded envelope, and
      every reference points to a layer row of the same pool and cost. */
  lemma ReferencesHold(cfg: Config, pools: map<PoolKey, Pool>, events: seq<Event>)
    requires Hydrated(pools)
    ensures var o := Step4(cfg, pools, events);
            RefsOk(o.sim) && RowsIn(o.sim.rows, Succeeded(Groups(events), o.oks))
  {
    var s := Sim(pools, NO_ROWS);
    assert RefsOk(s);
    GroupsRefs(cfg, s, Groups(events));
    GroupsOwnEvents(Sort(events, InOrder));
    RowsAreSucceeded(cfg, s, Groups(events));
  }

  /** So when the database returns one id per inserted layer row, Step 5c resolves every
      depletion to the id of the very row it was made against. */
  lemma EveryReferenceResolves(cfg: Config, pools: map<PoolKey, Pool>, events: seq<Event>, ids: seq<int>, j: nat)
    requires Hydrated(pools)
    requires var o := Step4(cfg, pools, events);
             |ids| == |Inserted(o.sim.rows.layers, Succeeded(Groups(events), o.oks))| && j < |o.sim.rows.depletions|
    ensures var o := Step4(cfg, pools, events);
            var d, layers := o.sim.rows.depletions[j], o.sim.rows.layers;
            var byIndex := IdsByIndex(Inserted(layers, Succeeded(Groups(events), o.oks)), ids);
            match d.index
            case None => Resolve(d, byIndex) == Some(d.layerId)
            case Some(i) =>
              && i < |layers| == |ids| && Resolve(d, byIndex) == Some(ids[i])
              && layers[i].key == d.key && layers[i].unitCost == d.unitCost
              && layers[i].corr in Succeeded(Groups(events), o.oks)
  {
    ReferencesHold(cfg, pools, events);
    var o := Step4(cfg, pools, events);
    var keep := Succeeded(Groups(events), o.oks);
    hide Step4, Groups, Succeeded;
    var layers := o.sim.rows.layers;
    AllInserted(layers, keep);
    IdsInOrder(|layers|, ids);
    hide IdsByIndex, Inserted;
    var d := o.sim.rows.depletions[j];
    assert RefOk(layers, d.key, d.index, d.unitCost);
  }
}

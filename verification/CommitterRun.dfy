/**
  Step 4 as the mutable object the source keeps: the snapshot's pools, the row vectors
  and the `consumed_seq` counters. Every method is proved against the functions of
  CostMethods and CommitterStep4, so their theorems hold of what it computes. The
  counters are never rolled back, as in the source, and nothing else reads them.
*/
module CommitterRun {
  import opened Collections
  import opened CommitterStep4
  import opened CostMethods
  import opened Int64
  import opened Sorting

  // ---- The layer walk as a loop ---------------------------------------------

  /** A walk that has already passed `done` and produced `rows`. */
  ghost function After(done: seq<LayerView>, rows: seq<DepletionRow>, t: Took): Took {
    t.(layers := done + t.layers, rows := rows + t.rows)
  }

  ghost predicate Ahead(all: Took, layers: seq<LayerView>, i: nat, rows: seq<DepletionRow>, remaining: int,
                        cost: int, e: Event) {
    i <= |layers| && all == After(layers[..i], rows, TakeLayers(layers[i..], remaining, cost, e))
  }

  lemma AheadStart(layers: seq<LayerView>, q: int, e: Event)
    ensures Ahead(TakeLayers(layers, q, 0, e), layers, 0, [], q, 0, e)
  {
    var t := TakeLayers(layers, q, 0, e);
    assert layers[0..] == layers && [] + t.layers == t.layers && [] + t.rows == t.rows;
  }

  lemma AheadSkip(all: Took, layers: seq<LayerView>, i: nat, rows: seq<DepletionRow>, remaining: int, cost: int,
                  e: Event)
    requires Ahead(all, layers, i, rows, remaining, cost, e) && i < |layers| && remaining != 0 && layers[i].qty <= 0
    ensures Ahead(all, layers, i + 1, rows, remaining, cost, e)
  {
    var t := TakeLayers(layers[i + 1..], remaining, cost, e);
    assert layers[i..][1..] == layers[i + 1..];
    assert layers[..i] + ([layers[i]] + t.layers) == layers[..i + 1] + t.layers;
  }

  lemma AheadTake(all: Took, layers: seq<LayerView>, i: nat, rows: seq<DepletionRow>, remaining: int, cost: int,
                  e: Event)
    requires Ahead(all, layers, i, rows, remaining, cost, e) && i < |layers| && remaining != 0 && layers[i].qty > 0
    ensures var take := Min(remaining, layers[i].qty);
            var p := take * layers[i].unitCost;
            var layers' := layers[i := layers[i].(qty := layers[i].qty - take)];
            if InI64(p) && InI64(cost + p) then
              Ahead(all, layers', i + 1, rows + [Depletion(layers[i], e, take)], remaining - take, cost + p, e)
            else all.overflow && all.layers == layers'
  {
    hide InI64;
    var take := Min(remaining, layers[i].qty);
    var p := take * layers[i].unitCost;
    var rest := layers[i].(qty := layers[i].qty - take);
    var layers' := layers[i := rest];
    assert layers[i..][1..] == layers[i + 1..] == layers'[i + 1..];
    assert layers[..i] == layers'[..i] && layers'[..i + 1] == layers[..i] + [rest];
    if InI64(p) && InI64(cost + p) {
      var t := TakeLayers(layers[i + 1..], remaining - take, cost + p, e);
      assert layers[..i] + ([rest] + t.layers) == (layers[..i] + [rest]) + t.layers;
      var d := Depletion(layers[i], e, take);
      assert rows + ([d] + t.rows) == (rows + [d]) + t.rows;
    } else {
      assert layers[..i] + ([rest] + layers[i + 1..]) == layers';
    }
  }

  lemma AheadDone(all: Took, layers: seq<LayerView>, i: nat, rows: seq<DepletionRow>, remaining: int, cost: int,
                  e: Event)
    requires Ahead(all, layers, i, rows, remaining, cost, e) && (i == |layers| || remaining == 0)
    ensures all == Took(layers, rows, cost, remaining, false)
  {
    assert layers[..i] + layers[i..] == layers && rows + [] == rows;
  }

  lemma PostLeavesDepletions(r: Rows, e: Event, amount: int, debit: int, credit: int, qty: int)
    ensures Post(r, e, amount, debit, credit, qty).depletions == r.depletions
  {
  }

  class Run {
    const cfg: Config
    var pools: map<PoolKey, Pool>
    var rows: Rows
    var seqPerLayer: map<int, int>
    var seqPerNewLayer: map<nat, int>
    var consumedSeqs: seq<int>

    ghost predicate Valid()
      reads this
    {
      |consumedSeqs| == |rows.depletions|
    }

    ghost function View(): Sim
      reads this
    {
      Sim(pools, rows)
    }

    constructor (c: Config, p: map<PoolKey, Pool>)
      ensures Valid() && cfg == c && View() == Sim(p, NO_ROWS)
    {
      cfg, pools, rows, seqPerLayer, seqPerNewLayer, consumedSeqs := c, p, NO_ROWS, map[], map[], [];
    }

    /** The next `consumed_seq` of a layer, counted apart for layers without an id. */
    method NextConsumedSeq(l: LayerView) returns (n: int)
      modifies `seqPerLayer, `seqPerNewLayer
      ensures l.index.Some? ==>
                && n == (if l.index.value in old(seqPerNewLayer) then old(seqPerNewLayer)[l.index.value] else 0) + 1
                && seqPerNewLayer == old(seqPerNewLayer)[l.index.value := n] && seqPerLayer == old(seqPerLayer)
      ensures l.index.None? ==>
                && n == (if l.layerId in old(seqPerLayer) then old(seqPerLayer)[l.layerId] else 0) + 1
                && seqPerLayer == old(seqPerLayer)[l.layerId := n] && seqPerNewLayer == old(seqPerNewLayer)
    {
      match l.index {
        case Some(i) =>
          n := (if i in seqPerNewLayer then seqPerNewLayer[i] else 0) + 1;
          seqPerNewLayer := seqPerNewLayer[i := n];
        case None =>
          n := (if l.layerId in seqPerLayer then seqPerLayer[l.layerId] else 0) + 1;
          seqPerLayer := seqPerLayer[l.layerId := n];
      }
    }

    /** The loop of `deplete`: rows are pushed as layers are taken. */
    method WalkLayers(layers: seq<LayerView>, e: Event) returns (t: Took)
      requires Valid()
      modifies `rows, `consumedSeqs, `seqPerLayer, `seqPerNewLayer
      ensures Valid()
      ensures var spec := TakeLayers(layers, Abs(e.qty), 0, e);
              && t.overflow == spec.overflow && t.layers == spec.layers
              && (!t.overflow ==> t == spec && rows == old(rows).(depletions := old(rows).depletions + t.rows))
              && (t.overflow ==> rows == old(rows))
    {
      var before := |rows.depletions|;
      ghost var base := rows;
      var now, remaining, cost, taken := layers, Abs(e.qty), 0, [];
      ghost var all := TakeLayers(layers, remaining, 0, e);
      AheadStart(layers, remaining, e);
      hide TakeLayers, Ahead, Depletion;
      assert base.depletions + taken == base.depletions;
      var i := 0;
      while i < |now| && remaining != 0
        invariant i <= |now| && Ahead(all, now, i, taken, remaining, cost, e)
        invariant |base.depletions| == before && rows == base.(depletions := base.depletions + taken)
        invariant |consumedSeqs| == |rows.depletions|
      {
        var l := now[i];
        if l.qty <= 0 {
          AheadSkip(all, now, i, taken, remaining, cost, e);
        } else {
          AheadTake(all, now, i, taken, remaining, cost, e);
          var take := Min(remaining, l.qty);
          now := now[i := l.(qty := l.qty - take)];
          var n := NextConsumedSeq(l);
          consumedSeqs := consumedSeqs + [n];
          var d := Depletion(l, e, take);
          assert (base.depletions + taken) + [d] == base.depletions + (taken + [d]);
          rows := rows.(depletions := rows.depletions + [d]);
          var p := take * l.unitCost;
          if !InI64(p) || !InI64(cost + p) {
            rows := rows.(depletions := rows.depletions[..before]);
            consumedSeqs := consumedSeqs[..before];
            return Took(now, [], cost, remaining, true);
          }
          cost, taken, remaining := cost + p, taken + [d], remaining - take;
        }
        i := i + 1;
      }
      AheadDone(all, now, i, taken, remaining, cost, e);
      t := Took(now, taken, cost, remaining, false);
    }

    /** `deplete`. */
    method DepleteEvent(e: Event) returns (v: Verdict)
      requires Valid()
      modifies `pools, `rows, `consumedSeqs, `seqPerLayer, `seqPerNewLayer
      ensures Valid() && Deplete(old(View()), e) == Applied(View(), v)
    {
      var k := KeyOf(e);
      if k !in pools {
        return Insufficient;
      }
      var before := |rows.depletions|;
      var t := WalkLayers(pools[k].layers, e);
      hide TakeLayers;
      pools := pools[k := pools[k].(layers := t.layers)];
      if t.overflow {
        return Overflow;
      }
      if t.remaining > 0 {
        assert rows.depletions[..before] == old(rows).depletions;
        rows := rows.(depletions := rows.depletions[..before]);
        consumedSeqs := consumedSeqs[..before];
        return Insufficient;
      }
      PushPosting(e, t.cost, OffsetConsumption(e), AccountInventory(k), -Abs(e.qty));
      v := Fine;
    }

    /** Push a layer row and, to the pool, a layer that points at it. */
    method PushLayer(e: Event, unitCost: int)
      modifies `pools, `rows
      ensures View() == AddLayer(old(View()), e, unitCost) && rows.depletions == old(rows).depletions
    {
      var k := KeyOf(e);
      if k !in pools {
        pools := pools[k := EMPTY_POOL];
      }
      var born := pools[k].maxBornSeq + 1;
      pools := pools[k := pools[k].(maxBornSeq := born)];
      rows := rows.(layers := rows.layers + [LayerRow(k, Abs(e.qty), unitCost, e.at, born, e.kind, e.corr)]);
      var view := LayerView(0, Some(|rows.layers| - 1), unitCost, Abs(e.qty), born, e.corr);
      pools := pools[k := pools[k].(layers := pools[k].layers + [view])];
    }

    /** Push a posting line and the inventory line that refers to it. */
    method PushPosting(e: Event, amount: int, debit: int, credit: int, qty: int)
      modifies `rows
      ensures rows == Post(old(rows), e, amount, debit, credit, qty)
    {
      rows := rows.(postings := rows.postings + [Posting(e, amount, Some(debit), Some(credit))]);
      rows := rows.(inventory := rows.inventory + [InventoryRow(|rows.postings| - 1, KeyOf(e), qty)]);
    }

    /** `emit_layer`. */
    method EmitLayerEvent(e: Event) returns (v: Verdict)
      requires Valid()
      modifies `pools, `rows
      ensures Valid() && EmitLayer(old(View()), e) == Applied(View(), v)
    {
      hide AddLayer, Post, AccountInventory, OffsetReceipt;
      var amount := Abs(e.qty) * e.unitCost;
      if !InI64(amount) {
        return Overflow;
      }
      PushLayer(e, e.unitCost);
      PostLeavesDepletions(rows, e, amount, AccountInventory(KeyOf(e)), OffsetReceipt(e), Abs(e.qty));
      PushPosting(e, amount, AccountInventory(KeyOf(e)), OffsetReceipt(e), Abs(e.qty));
      v := Fine;
    }

    /** `roll_in`. */
    method RollInEvent(e: Event) returns (v: Verdict)
      requires Valid()
      modifies `pools, `rows
      ensures Valid() && RollIn(old(View()), e) == Applied(View(), v)
    {
      hide AddLayer, Post, AccountInventory, OffsetReceipt, RolledAverage, Wrap;
      var qty := Abs(e.qty);
      var amount := qty * e.unitCost;
      if !InI64(amount) {
        return Overflow;
      }
      var k := KeyOf(e);
      if k !in pools {
        pools := pools[k := EMPTY_POOL];
      }
      var p := pools[k];
      p := p.(avgUnitCost := RolledAverage(p, qty, e.unitCost));
      p := p.(avgTotalQty := Wrap(p.avgTotalQty + qty), avgDirty := true);
      pools := pools[k := p];
      assert pools == old(pools)[k := p];
      PushLayer(e, e.unitCost);
      PostLeavesDepletions(rows, e, amount, AccountInventory(k), OffsetReceipt(e), qty);
      PushPosting(e, amount, AccountInventory(k), OffsetReceipt(e), qty);
      v := Fine;
    }

    /** `consume` of the average method. */
    method AvgConsumeEvent(e: Event) returns (v: Verdict)
      requires Valid()
      modifies `pools, `rows
      ensures Valid() && AvgConsume(old(View()), e) == Applied(View(), v)
    {
      hide Post, AccountInventory, OffsetConsumption;
      var k, qty := KeyOf(e), Abs(e.qty);
      if k !in pools || pools[k].avgTotalQty <= 0 || qty > pools[k].avgTotalQty {
        return Insufficient;
      }
      var unitCost := pools[k].avgUnitCost;
      var amount := qty * unitCost;
      if !InI64(amount) {
        return Overflow;
      }
      pools := pools[k := pools[k].(avgTotalQty := pools[k].avgTotalQty - qty, avgDirty := true)];
      rows := rows.(consumptions := rows.consumptions + [Consumed(e, unitCost, Avg)]);
      PostLeavesDepletions(rows, e, amount, OffsetConsumption(e), AccountInventory(k), -qty);
      PushPosting(e, amount, OffsetConsumption(e), AccountInventory(k), -qty);
      v := Fine;
    }

    /** `receive` of the standard method. */
    method StdReceiveEvent(e: Event, unitCost: int, emitLayer: bool)
      requires Valid()
      modifies `pools, `rows
      ensures Valid() && Receive(old(View()), e, unitCost, emitLayer) == Applied(View(), Fine)
    {
      hide AddLayer, Post, AccountInventory, OffsetReceipt, Wrap;
      var k, qty := KeyOf(e), Abs(e.qty);
      var amount := Wrap(qty * unitCost);
      if emitLayer {
        PushLayer(e, unitCost);
      } else if k !in pools {
        pools := pools[k := EMPTY_POOL];
      } else {
        assert pools[k := pools[k]] == pools;
      }
      PostLeavesDepletions(rows, e, amount, AccountInventory(k), OffsetReceipt(e), qty);
      PushPosting(e, amount, AccountInventory(k), OffsetReceipt(e), qty);
    }

    /** `consume` of the standard method. */
    method StdConsumeEvent(e: Event, unitCost: int)
      requires Valid()
      modifies `rows
      ensures Valid() && StdConsume(old(View()), e, unitCost) == Applied(View(), Fine)
    {
      hide Post, AccountInventory, OffsetConsumption, Wrap;
      var k, qty := KeyOf(e), Abs(e.qty);
      var amount := Wrap(qty * unitCost);
      rows := rows.(consumptions := rows.consumptions + [Consumed(e, unitCost, Std)]);
      PostLeavesDepletions(rows, e, amount, OffsetConsumption(e), AccountInventory(k), -qty);
      PushPosting(e, amount, OffsetConsumption(e), AccountInventory(k), -qty);
    }

    /** Neither receipt nor consumption: an audit line. */
    method AuditEvent(e: Event)
      requires Valid()
      modifies `rows
      ensures Valid() && Audit(old(View()), e) == Applied(View(), Fine)
    {
      rows := rows.(postings := rows.postings + [Posting(e, 0, None, None)]);
    }

    /** `apply_one` of the standard method. */
    method StdApplyEvent(e: Event) returns (v: Verdict)
      requires Valid()
      modifies `pools, `rows
      ensures Valid() && StdApply(cfg, old(View()), e) == Applied(View(), v)
    {
      hide Receive, StdConsume, Audit;
      v := Fine;
      if e.kind.WoComplete? && e.qty > 0 {
        StdReceiveEvent(e, e.unitCost, true);
        return;
      }
      if KeyOf(e) !in cfg.standards {
        return NoStandard;
      }
      var unitCost := cfg.standards[KeyOf(e)];
      if IsReceipt(e) {
        StdReceiveEvent(e, unitCost, false);
      } else if IsConsumption(e) {
        StdConsumeEvent(e, unitCost);
      } else {
        AuditEvent(e);
      }
    }

    /** `apply_one` of the event's method. */
    method ApplyEvent(e: Event) returns (v: Verdict)
      requires Valid()
      modifies `pools, `rows, `consumedSeqs, `seqPerLayer, `seqPerNewLayer
      ensures Valid() && ApplyOne(cfg, old(View()), e) == Applied(View(), v)
    {
      hide Deplete, EmitLayer, RollIn, AvgConsume, StdApply, Audit;
      var m := MethodOf(cfg, e.sku);
      if m == Std {
        v := StdApplyEvent(e);
      } else if IsReceipt(e) {
        if m == Avg {
          v := RollInEvent(e);
        } else {
          v := EmitLayerEvent(e);
        }
      } else if IsConsumption(e) {
        if m == Avg {
          v := AvgConsumeEvent(e);
        } else {
          v := DepleteEvent(e);
        }
      } else {
        AuditEvent(e);
        v := Fine;
      }
    }

    /** Add up the cost of a component from the rows it added, with checked arithmetic. */
    method CostOfRows(depletions: seq<DepletionRow>, consumptions: seq<ConsumptionRow>) returns (cost: Option<int>)
      ensures cost == match DepletionCost(depletions, 0)
                      case None => None
                      case Some(c) => ConsumptionCost(consumptions, c)
    {
      var sum := 0;
      var i := 0;
      while i < |depletions|
        invariant i <= |depletions| && DepletionCost(depletions, 0) == DepletionCost(depletions[i..], sum)
      {
        var d := depletions[i];
        assert depletions[i..][0] == d && depletions[i..][1..] == depletions[i + 1..];
        if !InI64(d.qty * d.unitCost) || !InI64(sum + d.qty * d.unitCost) {
          return None;
        }
        sum := sum + d.qty * d.unitCost;
        i := i + 1;
      }
      ghost var first := sum;
      i := 0;
      while i < |consumptions|
        invariant i <= |consumptions| && ConsumptionCost(consumptions, first) == ConsumptionCost(consumptions[i..], sum)
      {
        var c := consumptions[i];
        assert consumptions[i..][0] == c && consumptions[i..][1..] == consumptions[i + 1..];
        if !InI64(c.qty * c.unitCost) || !InI64(sum + c.qty * c.unitCost) {
          return None;
        }
        sum := sum + c.qty * c.unitCost;
        i := i + 1;
      }
      cost := Some(sum);
    }

    /** One event of an envelope: inject the output cost, dispatch, accumulate. */
    method Dispatch(e: Event, woCost: int) returns (failed: bool, woCost': int)
      requires Valid()
      modifies `pools, `rows, `consumedSeqs, `seqPerLayer, `seqPerNewLayer
      ensures Valid() && StepEvent(cfg, Progress(old(View()), woCost, false), e) == Progress(View(), woCost', failed)
    {
      ghost var s := View();
      EventFrame(cfg, s, Injected(e, woCost));
      var deplBefore, consBefore := |rows.depletions|, |rows.consumptions|;
      hide ApplyOne, DepletionCost, ConsumptionCost, InI64;
      var v := ApplyEvent(Injected(e, woCost));
      if !v.Fine? {
        return true, woCost;
      }
      if e.kind.WoComplete? && e.qty < 0 {
        var cost := CostOfRows(rows.depletions[deplBefore..], rows.consumptions[consBefore..]);
        if cost.None? || !InI64(woCost + cost.value) {
          return true, woCost;
        }
        return false, woCost + cost.value;
      }
      failed, woCost' := false, woCost;
    }

    /** Restore the checkpointed pools and truncate the row vectors. */
    method Undo(before: Sim, touched: set<PoolKey>)
      requires Valid() && |before.rows.depletions| <= |rows.depletions|
      modifies `pools, `rows, `consumedSeqs
      ensures Valid() && View() == Rollback(before, old(View()), touched)
    {
      var todo := touched;
      ghost var was := pools;
      assert Restored(before.pools, was, touched - todo, pools);
      while todo != {}
        invariant todo <= touched && rows == old(rows) && consumedSeqs == old(consumedSeqs)
        invariant Restored(before.pools, was, touched - todo, pools)
        decreases |todo|
      {
        var k :| k in todo;
        RestoreOne(before.pools, was, touched - todo, pools, k);
        assert touched - (todo - {k}) == (touched - todo) + {k};
        hide Restored;
        if k in before.pools {
          pools := pools[k := before.pools[k]];
        } else {
          pools := pools - {k};
        }
        todo := todo - {k};
      }
      assert touched - {} == touched;
      AllRestored(before.pools, was, touched, pools);
      hide Restored;
      consumedSeqs := consumedSeqs[..|before.rows.depletions|];
      rows := Truncate(rows, before.rows);
    }

    method Envelope(es: seq<Event>) returns (ok: bool)
      requires Valid()
      modifies `pools, `rows, `consumedSeqs, `seqPerLayer, `seqPerNewLayer
      ensures Valid() && RunEnvelope(cfg, old(View()), es) == (View(), ok)
    {
      var before := Sim(pools, rows);
      var woCost, failed := 0, false;
      var i := 0;
      assert es[..0] == [];
      while i < |es| && !failed
        invariant i <= |es| && Valid()
        invariant RunEvents(cfg, before, es[..i]) == Progress(View(), woCost, failed)
      {
        hide RunEvents, StepEvent;
        RunOneMore(cfg, before, es, i + 1);
        failed, woCost := Dispatch(es[i], woCost);
        i := i + 1;
      }
      StaysFailed(cfg, before, es, i);
      assert failed || es[..i] == es;
      if failed {
        RunFrame(cfg, before, es, i);
        hide RunEvents, Rollback;
        Undo(before, Touched(es));
      }
      ok := !failed;
    }

    /** Step 4 of the SuperBatch. */
    method Batch(events: seq<Event>) returns (oks: seq<bool>)
      requires Valid() && rows == NO_ROWS
      modifies `pools, `rows, `consumedSeqs, `seqPerLayer, `seqPerNewLayer
      ensures Valid() && Step4(cfg, old(pools), events) == Outcome(View(), oks)
    {
      hide RunEnvelope, Sort, GroupByCorr;
      var groups := GroupEvents(Sort(events, InOrder));
      ghost var s := View();
      oks := [];
      assert groups[..0] == [];
      for i := 0 to |groups|
        invariant Valid() && RunGroups(cfg, s, groups[..i]) == Outcome(View(), oks)
      {
        RunGroupsNext(cfg, s, groups[..i], groups[i]);
        assert groups[..i] + [groups[i]] == groups[..i + 1];
        hide RunGroups;
        var ok := Envelope(groups[i].events);
        oks := oks + [ok];
      }
      assert groups[..|groups|] == groups;
    }
  }

  /** The keys in `done` are back to `before`, the others as they were. */
  ghost predicate Restored(before: map<PoolKey, Pool>, was: map<PoolKey, Pool>, done: set<PoolKey>,
                           now: map<PoolKey, Pool>) {
    forall k :: if k in done then (k in now <==> k in before) && (k in before ==> now[k] == before[k])
                else (k in now <==> k in was) && (k in was ==> now[k] == was[k])
  }

  lemma RestoreOne(before: map<PoolKey, Pool>, was: map<PoolKey, Pool>, done: set<PoolKey>, now: map<PoolKey, Pool>,
                   k: PoolKey)
    requires Restored(before, was, done, now)
    ensures Restored(before, was, done + {k}, if k in before then now[k := before[k]] else now - {k})
  {
  }

  lemma AllRestored(before: map<PoolKey, Pool>, was: map<PoolKey, Pool>, touched: set<PoolKey>, now: map<PoolKey, Pool>)
    requires Restored(before, was, touched, now)
    ensures now == (was - touched) + (map k | k in touched && k in before :: before[k])
  {
    var r := (was - touched) + (map k | k in touched && k in before :: before[k]);
    assert forall k :: k in r <==> k in now;
    assert forall k :: k in now ==> r[k] == now[k];
  }

  lemma {:induction false} StaysFailed(cfg: Config, s: Sim, es: seq<Event>, n: nat)
    requires n <= |es|
    ensures RunEvents(cfg, s, es[..n]).failed ==> RunEvents(cfg, s, es) == RunEvents(cfg, s, es[..n])
    ensures n == |es| ==> RunEvents(cfg, s, es) == RunEvents(cfg, s, es[..n])
    decreases |es| - n
  {
    if n == |es| {
      assert es[..n] == es;
    } else {
      RunOneMore(cfg, s, es, n + 1);
      StaysFailed(cfg, s, es, n + 1);
    }
  }

  // ---- Grouping with a hash map ---------------------------------------------

  lemma {:induction false} AddInAt(gs: seq<Group>, e: Event, i: nat)
    requires DistinctCorrs(gs) && i < |gs| && gs[i].corr == e.corr
    ensures AddIn(gs, e) == gs[i := gs[i].(events := gs[i].events + [e])]
  {
    var n := |gs| - 1;
    if i < n {
      assert gs[n].corr != e.corr;
      AddInAt(gs[..n], e, i);
    }
  }

  ghost predicate IndexOk(gs: seq<Group>, index: map<nat, nat>) {
    && DistinctCorrs(gs)
    && (forall c :: c in index ==> index[c] < |gs| && gs[index[c]].corr == c)
    && (forall i :: 0 <= i < |gs| ==> gs[i].corr in index)
  }

  lemma AddKeepsIndex(gs: seq<Group>, index: map<nat, nat>, e: Event)
    requires IndexOk(gs, index)
    ensures e.corr in index ==>
              && AddEvent(gs, e) == gs[index[e.corr] := gs[index[e.corr]].(events := gs[index[e.corr]].events + [e])]
              && IndexOk(AddEvent(gs, e), index)
    ensures e.corr !in index ==>
              && AddEvent(gs, e) == gs + [Group(e.corr, [e])] && IndexOk(AddEvent(gs, e), index[e.corr := |gs|])
  {
    if e.corr in index {
      AddInAt(gs, e, index[e.corr]);
      assert Has(gs, e.corr);
    }
    hide AddIn;
  }

  method GroupEvents(es: seq<Event>) returns (gs: seq<Group>)
    ensures gs == GroupByCorr(es)
  {
    gs := [];
    var index: map<nat, nat> := map[];
    for i := 0 to |es|
      invariant gs == GroupByCorr(es[..i]) && IndexOk(gs, index)
    {
      var e := es[i];
      AddKeepsIndex(gs, index, e);
      assert es[..i + 1][..i] == es[..i];
      if e.corr in index {
        var j := index[e.corr];
        gs := gs[j := gs[j].(events := gs[j].events + [e])];
      } else {
        index := index[e.corr := |gs|];
        gs := gs + [Group(e.corr, [e])];
      }
      hide IndexOk, AddEvent;
    }
    assert es[..|es|] == es;
  }
}

/**
  Conservation in FIFO pools over a whole SuperBatch (fifo.rs, committer.rs): what the
  layers of a pool gain or lose, in quantity and in value, is exactly what the inventory
  and posting rows say.
*/
module FifoConservation {
  import opened Collections
  import opened CommitterStep4
  import opened CostMethods
  import opened Int64

  function LineValue(v: LayerView): int {
    v.qty * v.unitCost
  }

  function Quantity(views: seq<LayerView>): int {
    if views == [] then 0 else views[0].qty + Quantity(views[1..])
  }

  function Value(views: seq<LayerView>): int {
    if views == [] then 0 else LineValue(views[0]) + Value(views[1..])
  }

  ghost predicate NonNegative(views: seq<LayerView>) {
    forall i :: 0 <= i < |views| ==> views[i].qty >= 0
  }

  lemma {:induction false} SumsAppend(views: seq<LayerView>, v: LayerView)
    ensures Quantity(views + [v]) == Quantity(views) + v.qty
    ensures Value(views + [v]) == Value(views) + LineValue(v)
  {
    hide LineValue;
    if views == [] {
      assert (views + [v])[1..] == [];
    } else {
      SumsAppend(views[1..], v);
      assert (views + [v])[1..] == views[1..] + [v];
    }
  }

  lemma LineSplits(v: LayerView, take: int)
    ensures LineValue(v.(qty := v.qty - take)) == LineValue(v) - take * v.unitCost
  {
  }

  /** The walk takes from the layers what it reports, in quantity and in value. */
  lemma {:induction false} TakeConserves(views: seq<LayerView>, remaining: int, cost: int, e: Event)
    requires remaining >= 0 && NonNegative(views)
    ensures var t := TakeLayers(views, remaining, cost, e);
            !t.overflow ==>
              && 0 <= t.remaining <= remaining && NonNegative(t.layers)
              && Quantity(t.layers) == Quantity(views) - (remaining - t.remaining)
              && Value(t.layers) == Value(views) - (t.cost - cost)
    decreases |views|
  {
    if views != [] && remaining != 0 {
      hide InI64;
      hide LineValue;
      var rest := views[1..];
      if views[0].qty <= 0 {
        TakeConserves(rest, remaining, cost, e);
        SumsCons(views[0], TakeLayers(rest, remaining, cost, e).layers);
      } else {
        var take := Min(remaining, views[0].qty);
        var p := take * views[0].unitCost;
        LineSplits(views[0], take);
        if InI64(p) && InI64(cost + p) {
          TakeConserves(rest, remaining - take, cost + p, e);
          var t := TakeLayers(rest, remaining - take, cost + p, e);
          SumsCons(views[0].(qty := views[0].qty - take), t.layers);
          SumsCons(views[0], rest);
          assert [views[0]] + rest == views;
          hide Quantity, Value;
        }
      }
    }
  }

  lemma SumsCons(v: LayerView, views: seq<LayerView>)
    ensures Quantity([v] + views) == v.qty + Quantity(views)
    ensures Value([v] + views) == LineValue(v) + Value(views)
  {
    assert ([v] + views)[1..] == views;
  }

  // ---- The books of one pool ------------------------------------------------

  function InventoryQty(rows: seq<InventoryRow>, k: PoolKey): int {
    if rows == [] then 0
    else InventoryQty(rows[..|rows| - 1], k) + if rows[|rows| - 1].key == k then rows[|rows| - 1].qty else 0
  }

  /** Receipts count their posting's amount, consumptions subtract it. */
  function Signed(postings: seq<PostingRow>, r: InventoryRow): int {
    if r.ordinal >= |postings| then 0
    else if r.qty < 0 then -postings[r.ordinal].amount else postings[r.ordinal].amount
  }

  function InventoryValue(postings: seq<PostingRow>, rows: seq<InventoryRow>, k: PoolKey): int {
    if rows == [] then 0
    else InventoryValue(postings, rows[..|rows| - 1], k)
         + if rows[|rows| - 1].key == k then Signed(postings, rows[|rows| - 1]) else 0
  }

  lemma {:induction false} MorePostings(postings: seq<PostingRow>, more: seq<PostingRow>, rows: seq<InventoryRow>,
                                        k: PoolKey)
    requires postings <= more && forall i :: 0 <= i < |rows| ==> rows[i].ordinal < |postings|
    ensures InventoryValue(more, rows, k) == InventoryValue(postings, rows, k)
  {
    if rows != [] {
      MorePostings(postings, more, rows[..|rows| - 1], k);
      assert more[rows[|rows| - 1].ordinal] == postings[rows[|rows| - 1].ordinal];
    }
  }

  function QtyOf(s: Sim, k: PoolKey): int {
    Quantity(PoolAt(s.pools, k).layers)
  }

  function ValueOf(s: Sim, k: PoolKey): int {
    Value(PoolAt(s.pools, k).layers)
  }

  /** The pool less what the rows say has moved. */
  ghost predicate Balanced(s: Sim, k: PoolKey, qty: int, value: int) {
    && Linked(s.rows) && NonNegative(PoolAt(s.pools, k).layers)
    && QtyOf(s, k) == qty + InventoryQty(s.rows.inventory, k)
    && ValueOf(s, k) == value + InventoryValue(s.rows.postings, s.rows.inventory, k)
  }

  lemma PostEffect(r: Rows, e: Event, amount: int, debit: int, credit: int, q: int, k: PoolKey)
    requires Linked(r)
    ensures var t := Post(r, e, amount, debit, credit, q);
            && Linked(t)
            && InventoryQty(t.inventory, k) == InventoryQty(r.inventory, k) + (if KeyOf(e) == k then q else 0)
            && InventoryValue(t.postings, t.inventory, k) == InventoryValue(r.postings, r.inventory, k)
                 + (if KeyOf(e) != k then 0 else if q < 0 then -amount else amount)
  {
    var t := Post(r, e, amount, debit, credit, q);
    assert t.inventory[..|r.inventory|] == r.inventory;
    MorePostings(r.postings, t.postings, r.inventory, k);
  }

  lemma AuditEffect(r: Rows, e: Event, k: PoolKey)
    requires Linked(r)
    ensures var t := r.(postings := r.postings + [Posting(e, 0, None, None)]);
            Linked(t) && InventoryValue(t.postings, t.inventory, k) == InventoryValue(r.postings, r.inventory, k)
  {
    MorePostings(r.postings, r.postings + [Posting(e, 0, None, None)], r.inventory, k);
  }

  lemma EmitBalances(s: Sim, e: Event, qty: int, value: int)
    requires Balanced(s, KeyOf(e), qty, value)
    ensures EmitLayer(s, e).verdict.Fine? ==> Balanced(EmitLayer(s, e).sim, KeyOf(e), qty, value)
  {
    var k := KeyOf(e);
    var amount := Abs(e.qty) * e.unitCost;
    hide InI64;
    if InI64(amount) {
      var t := AddLayer(s, e, e.unitCost);
      var v := t.pools[k].layers[|t.pools[k].layers| - 1];
      SumsAppend(PoolAt(s.pools, k).layers, v);
      assert LineValue(v) == amount;
      PostEffect(t.rows, e, amount, AccountInventory(k), OffsetReceipt(e), Abs(e.qty), k);
      hide LineValue, Quantity, Value, InventoryQty, InventoryValue, Post;
    }
  }

  lemma DepleteBalances(s: Sim, e: Event, qty: int, value: int)
    requires Balanced(s, KeyOf(e), qty, value)
    ensures Deplete(s, e).verdict.Fine? ==> Balanced(Deplete(s, e).sim, KeyOf(e), qty, value)
  {
    var k := KeyOf(e);
    if k in s.pools {
      TakeConserves(s.pools[k].layers, Abs(e.qty), 0, e);
      hide TakeLayers;
      var t := TakeLayers(s.pools[k].layers, Abs(e.qty), 0, e);
      if !t.overflow && t.remaining <= 0 {
        var rows := s.rows.(depletions := s.rows.depletions + t.rows);
        PostEffect(rows, e, t.cost, OffsetConsumption(e), AccountInventory(k), -Abs(e.qty), k);
        NothingCostsNothing(s.pools[k].layers, e);
        hide Quantity, Value, InventoryQty, InventoryValue, Post;
      }
    }
  }

  lemma NothingCostsNothing(views: seq<LayerView>, e: Event)
    ensures e.qty == 0 ==> TakeLayers(views, Abs(e.qty), 0, e).cost == 0
  {
  }

  lemma FifoBalances(s: Sim, e: Event, qty: int, value: int)
    requires Balanced(s, KeyOf(e), qty, value)
    ensures FifoApply(s, e).verdict.Fine? ==> Balanced(FifoApply(s, e).sim, KeyOf(e), qty, value)
  {
    EmitBalances(s, e, qty, value);
    DepleteBalances(s, e, qty, value);
    AuditEffect(s.rows, e, KeyOf(e));
    hide EmitLayer, Deplete, Quantity, Value, InventoryQty, InventoryValue;
  }

  // ---- Events of other pools ------------------------------------------------

  ghost predicate SameBooks(r: Rows, t: Rows, k: PoolKey) {
    && Linked(t) && InventoryQty(t.inventory, k) == InventoryQty(r.inventory, k)
    && InventoryValue(t.postings, t.inventory, k) == InventoryValue(r.postings, r.inventory, k)
  }

  lemma PostElsewhere(r: Rows, e: Event, amount: int, debit: int, credit: int, q: int, k: PoolKey)
    requires Linked(r) && KeyOf(e) != k
    ensures SameBooks(r, Post(r, e, amount, debit, credit, q), k)
  {
    PostEffect(r, e, amount, debit, credit, q, k);
  }

  lemma FifoElsewhere(s: Sim, e: Event, k: PoolKey)
    requires Linked(s.rows) && KeyOf(e) != k
    ensures FifoApply(s, e).verdict.Fine? ==> SameBooks(s.rows, FifoApply(s, e).sim.rows, k)
  {
    hide InI64, TakeLayers, InventoryQty, InventoryValue, Post;
    if IsReceipt(e) {
      var t := AddLayer(s, e, e.unitCost);
      PostElsewhere(t.rows, e, Abs(e.qty) * e.unitCost, AccountInventory(KeyOf(e)), OffsetReceipt(e), Abs(e.qty), k);
    } else if IsConsumption(e) {
      if KeyOf(e) in s.pools {
        var t := TakeLayers(s.pools[KeyOf(e)].layers, Abs(e.qty), 0, e);
        var rows := s.rows.(depletions := s.rows.depletions + t.rows);
        PostElsewhere(rows, e, t.cost, OffsetConsumption(e), AccountInventory(KeyOf(e)), -Abs(e.qty), k);
      }
    } else {
      AuditEffect(s.rows, e, k);
    }
  }

  lemma AvgElsewhere(s: Sim, e: Event, k: PoolKey)
    requires Linked(s.rows) && KeyOf(e) != k
    ensures AvgApply(s, e).verdict.Fine? ==> SameBooks(s.rows, AvgApply(s, e).sim.rows, k)
  {
    hide InI64, Wrap, RolledAverage, InventoryQty, InventoryValue, Post;
    var j := KeyOf(e);
    if IsReceipt(e) {
      var p := PoolAt(s.pools, j);
      var rolled := p.(avgUnitCost := RolledAverage(p, Abs(e.qty), e.unitCost),
                       avgTotalQty := Wrap(p.avgTotalQty + Abs(e.qty)), avgDirty := true);
      var t := AddLayer(SetPool(s, j, rolled), e, e.unitCost);
      PostElsewhere(t.rows, e, Abs(e.qty) * e.unitCost, AccountInventory(j), OffsetReceipt(e), Abs(e.qty), k);
    } else if IsConsumption(e) {
      if j in s.pools {
        var rows := s.rows.(consumptions := s.rows.consumptions + [Consumed(e, s.pools[j].avgUnitCost, Avg)]);
        PostElsewhere(rows, e, Abs(e.qty) * s.pools[j].avgUnitCost, OffsetConsumption(e), AccountInventory(j),
                      -Abs(e.qty), k);
      }
    } else {
      AuditEffect(s.rows, e, k);
    }
  }

  lemma StdElsewhere(cfg: Config, s: Sim, e: Event, k: PoolKey)
    requires Linked(s.rows) && KeyOf(e) != k
    ensures StdApply(cfg, s, e).verdict.Fine? ==> SameBooks(s.rows, StdApply(cfg, s, e).sim.rows, k)
  {
    hide Wrap, InventoryQty, InventoryValue, Post;
    var j := KeyOf(e);
    var cost := if j in cfg.standards then cfg.standards[j] else 0;
    var layered := AddLayer(s, e, e.unitCost);
    PostElsewhere(layered.rows, e, Wrap(Abs(e.qty) * e.unitCost), AccountInventory(j), OffsetReceipt(e), Abs(e.qty), k);
    PostElsewhere(s.rows, e, Wrap(Abs(e.qty) * cost), AccountInventory(j), OffsetReceipt(e), Abs(e.qty), k);
    var rows := s.rows.(consumptions := s.rows.consumptions + [Consumed(e, cost, Std)]);
    PostElsewhere(rows, e, Wrap(Abs(e.qty) * cost), OffsetConsumption(e), AccountInventory(j), -Abs(e.qty), k);
    AuditEffect(s.rows, e, k);
  }

  lemma ElsewhereBalances(cfg: Config, s: Sim, e: Event, k: PoolKey, qty: int, value: int)
    requires Balanced(s, k, qty, value) && KeyOf(e) != k
    ensures ApplyOne(cfg, s, e).verdict.Fine? ==> Balanced(ApplyOne(cfg, s, e).sim, k, qty, value)
  {
    EventFrame(cfg, s, e);
    hide FifoApply, AvgApply, StdApply, Quantity, Value, InventoryQty, InventoryValue;
    FifoElsewhere(s, e, k);
    AvgElsewhere(s, e, k);
    StdElsewhere(cfg, s, e, k);
  }

  // ---- Whole SuperBatches ---------------------------------------------------

  lemma ApplyBalances(cfg: Config, s: Sim, e: Event, k: PoolKey, qty: int, value: int)
    requires Balanced(s, k, qty, value) && MethodOf(cfg, k.0).Fifo?
    ensures ApplyOne(cfg, s, e).verdict.Fine? ==> Balanced(ApplyOne(cfg, s, e).sim, k, qty, value)
  {
    hide Balanced, FifoApply, AvgApply, StdApply;
    if KeyOf(e) == k {
      FifoBalances(s, e, qty, value);
    } else {
      ElsewhereBalances(cfg, s, e, k, qty, value);
    }
  }

  lemma {:induction false} RunBalances(cfg: Config, s: Sim, es: seq<Event>, k: PoolKey, qty: int, value: int)
    requires Balanced(s, k, qty, value) && MethodOf(cfg, k.0).Fifo?
    ensures !RunEvents(cfg, s, es).failed ==> Balanced(RunEvents(cfg, s, es).sim, k, qty, value)
  {
    if es != [] {
      RunBalances(cfg, s, es[..|es| - 1], k, qty, value);
      var p, e := RunEvents(cfg, s, es[..|es| - 1]), es[|es| - 1];
      hide Balanced, ApplyOne, ComponentCost, InI64;
      if !p.failed {
        ApplyBalances(cfg, p.sim, Injected(e, p.woCost), k, qty, value);
      }
    }
  }

  lemma {:induction false} GroupsBalance(cfg: Config, s: Sim, gs: seq<Group>, k: PoolKey, qty: int, value: int)
    requires Balanced(s, k, qty, value) && MethodOf(cfg, k.0).Fifo?
    ensures Balanced(RunGroups(cfg, s, gs).sim, k, qty, value)
  {
    if gs != [] {
      var n := |gs| - 1;
      GroupsBalance(cfg, s, gs[..n], k, qty, value);
      var o := RunGroups(cfg, s, gs[..n]);
      hide Balanced, RunEvents, Rollback;
      RunBalances(cfg, o.sim, gs[n].events, k, qty, value);
      FailedEnvelopeIsUndone(cfg, o.sim, gs[n].events);
    }
  }

  /** Over a SuperBatch, a FIFO pool's quantity changes by the sum of its inventory rows
      and its value by receipt amounts less consumption amounts, exactly; and no layer
      goes negative. */
  lemma SuperBatchConserves(cfg: Config, pools: map<PoolKey, Pool>, events: seq<Event>, k: PoolKey)
    requires MethodOf(cfg, k.0).Fifo? && NonNegative(PoolAt(pools, k).layers)
    ensures var s := Step4(cfg, pools, events).sim;
            && QtyOf(s, k) - Quantity(PoolAt(pools, k).layers) == InventoryQty(s.rows.inventory, k)
            && ValueOf(s, k) - Value(PoolAt(pools, k).layers) == InventoryValue(s.rows.postings, s.rows.inventory, k)
            && NonNegative(PoolAt(s.pools, k).layers)
  {
    var s := Sim(pools, NO_ROWS);
    var qty, value := QtyOf(s, k), ValueOf(s, k);
    assert Balanced(s, k, qty, value);
    hide RunGroups, Groups;
    GroupsBalance(cfg, s, Groups(events), k, qty, value);
  }
}

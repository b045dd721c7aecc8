/**
  Where the rows of a SuperBatch come from (fifo.rs, avg.rs, standard.rs, committer.rs):
  every posting, inventory, layer and consumption row by field, in terms of the events of
  the envelopes that succeeded, with the account table written out.
*/
module RowOrigins {
  import opened Collections
  import opened CommitterStep4
  import opened CostMethods
  import opened Int64
  import opened Sorting

  // ---- one event --------------------------------------------------------------

  ghost predicate Between(p: PostingRow, debit: int, credit: int) {
    p.debit == Some(debit) && p.credit == Some(credit)
  }

  ghost predicate Nothing(p: PostingRow) {
    p.debit == None && p.credit == None && p.amount == 0
  }

  /** The accounts of a posting, by the kind of the event and the sign of its quantity. */
  ghost predicate AccountsFor(e: Event, p: PostingRow) {
    var inventory, wip := Wrap(1_000_000 + e.sku * 1000 + e.loc), Wrap(7_000_000 + e.wo * 1000 + e.op);
    match e.kind
    case PoReceipt => Between(p, inventory, 2_001)
    case SoShipment => Between(p, 4_001, inventory)
    case InvIssue => Between(p, 5_001, inventory)
    case InvAdjust =>
      if e.qty > 0 then Between(p, inventory, 3_001) else if e.qty < 0 then Between(p, 3_001, inventory) else Nothing(p)
    case WoComplete =>
      if e.qty > 0 then Between(p, inventory, wip) else if e.qty < 0 then Between(p, wip, inventory) else Nothing(p)
  }

  /** Stock comes in, goes out, or stays. */
  function Delta(e: Event): int {
    match e.kind
    case PoReceipt => Abs(e.qty)
    case SoShipment => -Abs(e.qty)
    case InvIssue => -Abs(e.qty)
    case _ => e.qty
  }

  predicate ComesIn(e: Event) {
    e.kind.PoReceipt? || ((e.kind.InvAdjust? || e.kind.WoComplete?) && e.qty > 0)
  }

  predicate GoesOut(e: Event) {
    e.kind.SoShipment? || e.kind.InvIssue? || ((e.kind.InvAdjust? || e.kind.WoComplete?) && e.qty < 0)
  }

  /** Equal in 64-bit arithmetic. */
  ghost predicate Cut(amount: int, exact: int) {
    InI64(amount) && (amount - exact) % TWO_64 == 0
  }

  /** Receipts at their own cost under FIFO and AVG, everything at the standard cost under
      STD. The outputs of work orders have a cost of their own (see WorkOrder). */
  ghost predicate AmountFor(cfg: Config, e: Event, amount: int) {
    && (ComesIn(e) && !e.kind.WoComplete? && !MethodOf(cfg, e.sku).Std? ==> amount == Abs(e.qty) * e.unitCost)
    && (MethodOf(cfg, e.sku).Std? && (GoesOut(e) || (ComesIn(e) && !e.kind.WoComplete?)) ==>
          KeyOf(e) in cfg.standards && Cut(amount, Abs(e.qty) * cfg.standards[KeyOf(e)]))
  }

  ghost predicate PostingFor(cfg: Config, e: Event, p: PostingRow) {
    && p.date == e.date && p.chrono == e.chrono && p.doc == e.doc && p.sub == e.sub
    && p.kind == e.kind && p.corr == e.corr && AccountsFor(e, p) && AmountFor(cfg, e, p.amount)
  }

  /** STD keeps no layers but those of work order outputs. */
  predicate HasLayer(cfg: Config, e: Event) {
    ComesIn(e) && (!MethodOf(cfg, e.sku).Std? || e.kind.WoComplete?)
  }

  ghost predicate LayerFor(e: Event, l: LayerRow) {
    && l.key == (e.sku, e.loc) && l.qty == Abs(e.qty) && l.bornAt == e.at && l.kind == e.kind && l.corr == e.corr
    && (!e.kind.WoComplete? ==> l.unitCost == e.unitCost)
  }

  /** FIFO writes depletion rows instead. */
  predicate HasConsumption(cfg: Config, e: Event) {
    GoesOut(e) && !MethodOf(cfg, e.sku).Fifo?
  }

  ghost predicate ConsumptionFor(cfg: Config, e: Event, c: ConsumptionRow) {
    && c.key == (e.sku, e.loc) && c.qty == Abs(e.qty) && c.at == e.at && c.issueId == e.issueId && c.corr == e.corr
    && c.method_ == MethodOf(cfg, e.sku)
    && (c.method_.Std? ==> c.key in cfg.standards && c.unitCost == cfg.standards[c.key])
  }

  // ---- what one event adds ------------------------------------------------------

  ghost predicate AddsPosting(cfg: Config, r: Rows, t: Rows, e: Event) {
    && |t.postings| == |r.postings| + 1 && r.postings <= t.postings && PostingFor(cfg, e, t.postings[|r.postings|])
    && t.inventory == r.inventory + if ComesIn(e) || GoesOut(e) then [InventoryRow(|r.postings|, KeyOf(e), Delta(e))]
                                    else []
  }

  ghost predicate AddsLayer(cfg: Config, s: Sim, t: Sim, e: Event) {
    && (forall k :: PoolAt(t.pools, k).maxBornSeq
                 == PoolAt(s.pools, k).maxBornSeq + if k == KeyOf(e) && HasLayer(cfg, e) then 1 else 0)
    && if HasLayer(cfg, e) then
         && |t.rows.layers| == |s.rows.layers| + 1 && s.rows.layers <= t.rows.layers
         && var l := t.rows.layers[|s.rows.layers|];
            LayerFor(e, l) && l.bornSeq == PoolAt(s.pools, KeyOf(e)).maxBornSeq + 1
       else t.rows.layers == s.rows.layers
  }

  ghost predicate AddsConsumption(cfg: Config, r: Rows, t: Rows, e: Event) {
    if HasConsumption(cfg, e) then
      && |t.consumptions| == |r.consumptions| + 1 && r.consumptions <= t.consumptions
      && ConsumptionFor(cfg, e, t.consumptions[|r.consumptions|])
    else t.consumptions == r.consumptions
  }

  function DepletedQty(ds: seq<DepletionRow>): int {
    if ds == [] then 0 else DepletedQty(ds[..|ds| - 1]) + ds[|ds| - 1].qty
  }

  function DepletedCost(ds: seq<DepletionRow>): int {
    if ds == [] then 0 else DepletedCost(ds[..|ds| - 1]) + ds[|ds| - 1].qty * ds[|ds| - 1].unitCost
  }

  function ConsumedQty(cs: seq<ConsumptionRow>): int {
    if cs == [] then 0 else ConsumedQty(cs[..|cs| - 1]) + cs[|cs| - 1].qty
  }

  function ConsumedCost(cs: seq<ConsumptionRow>): int {
    if cs == [] then 0 else ConsumedCost(cs[..|cs| - 1]) + cs[|cs| - 1].qty * cs[|cs| - 1].unitCost
  }

  /** What the rows say left the stock, and what it cost. */
  function OutQty(r: Rows): int {
    DepletedQty(r.depletions) + ConsumedQty(r.consumptions)
  }

  function OutCost(r: Rows): int {
    DepletedCost(r.depletions) + ConsumedCost(r.consumptions)
  }

  /** A consumption draws its quantity, and its posting carries what it cost. */
  ghost predicate AddsOut(r: Rows, t: Rows, e: Event)
    requires |t.postings| == |r.postings| + 1
  {
    && OutQty(t) - OutQty(r) == (if GoesOut(e) then Abs(e.qty) else 0)
    && (OutCost(t) - OutCost(r) - if GoesOut(e) then t.postings[|r.postings|].amount else 0) % TWO_64 == 0
  }

  ghost predicate Adds(cfg: Config, s: Sim, t: Sim, e: Event) {
    && AddsPosting(cfg, s.rows, t.rows, e) && AddsLayer(cfg, s, t, e)
    && AddsConsumption(cfg, s.rows, t.rows, e) && AddsOut(s.rows, t.rows, e)
  }

  // ---- receipts -------------------------------------------------------------------

  lemma ReceiptPosts(cfg: Config, r: Rows, e: Event, amount: int)
    requires ComesIn(e) && AmountFor(cfg, e, amount)
    ensures AddsPosting(cfg, r, PostReceipt(r, e, amount), e)
  {
    hide AmountFor, Wrap, MethodOf;
  }

  lemma ConsumptionPosts(cfg: Config, r: Rows, e: Event, amount: int)
    requires GoesOut(e) && AmountFor(cfg, e, amount)
    ensures AddsPosting(cfg, r, PostConsumption(r, e, amount), e)
  {
    hide AmountFor, Wrap, MethodOf;
  }

  lemma AuditAdds(cfg: Config, s: Sim, e: Event)
    requires !ComesIn(e) && !GoesOut(e)
    ensures Audit(s, e).verdict.Fine? && Adds(cfg, s, Audit(s, e).sim, e)
  {
    var r, t := s.rows, Audit(s, e).sim.rows;
    assert r.inventory + [] == r.inventory;
    assert OutQty(t) == OutQty(r) && OutCost(t) == OutCost(r);
    hide MethodOf, OutQty, OutCost, Wrap, PoolAt;
  }

  lemma LayerAdds(cfg: Config, s: Sim, e: Event, unitCost: int)
    requires HasLayer(cfg, e) && (e.kind.WoComplete? || unitCost == e.unitCost)
    ensures var t := AddLayer(s, e, unitCost);
            && AddsLayer(cfg, s, t, e) && t.rows == s.rows.(layers := t.rows.layers)
  {
    hide MethodOf;
  }

  /** A receipt that adds a layer: of a state with the same rows and `maxBornSeq`. */
  lemma ReceiptAdds(cfg: Config, s: Sim, u: Sim, e: Event, unitCost: int, amount: int)
    requires HasLayer(cfg, e) && (e.kind.WoComplete? || unitCost == e.unitCost) && AmountFor(cfg, e, amount)
    requires u.rows == s.rows && forall k :: PoolAt(u.pools, k).maxBornSeq == PoolAt(s.pools, k).maxBornSeq
    ensures var v := AddLayer(u, e, unitCost); Adds(cfg, s, v.(rows := PostReceipt(v.rows, e, amount)), e)
  {
    var v := AddLayer(u, e, unitCost);
    var t := v.(rows := PostReceipt(v.rows, e, amount));
    LayerAdds(cfg, u, e, unitCost);
    ReceiptPosts(cfg, v.rows, e, amount);
    assert OutQty(t.rows) == OutQty(s.rows) && OutCost(t.rows) == OutCost(s.rows);
    hide MethodOf, AmountFor, OutQty, OutCost, PoolAt, AddLayer, PostingFor, LayerFor;
  }

  // ---- consumptions ---------------------------------------------------------------

  lemma OneDepletion(ds: seq<DepletionRow>, d: DepletionRow)
    ensures DepletedQty(ds + [d]) == DepletedQty(ds) + d.qty
    ensures DepletedCost(ds + [d]) == DepletedCost(ds) + d.qty * d.unitCost
  {
    assert (ds + [d])[..|ds|] == ds;
  }

  lemma {:induction false} DepletedAppend(a: seq<DepletionRow>, b: seq<DepletionRow>)
    ensures DepletedQty(a + b) == DepletedQty(a) + DepletedQty(b)
    ensures DepletedCost(a + b) == DepletedCost(a) + DepletedCost(b)
  {
    if b == [] {
      assert a + b == a;
    } else {
      var n := |b| - 1;
      DepletedAppend(a, b[..n]);
      OneDepletion(a + b[..n], b[n]);
      OneDepletion(b[..n], b[n]);
      hide DepletedQty, DepletedCost;
      assert b == b[..n] + [b[n]];
      assert a + b == a + b[..n] + [b[n]];
    }
  }

  /** The layer walk draws what it does not leave, and its cost is that of its rows. */
  lemma {:induction false} WalkDraws(ls: seq<LayerView>, remaining: int, cost: int, e: Event)
    requires remaining >= 0
    ensures var t := TakeLayers(ls, remaining, cost, e);
            && t.remaining >= 0
            && (!t.overflow ==> DepletedQty(t.rows) == remaining - t.remaining && DepletedCost(t.rows) == t.cost - cost)
    decreases |ls|
  {
    hide InI64, Depletion, DepletedQty, DepletedCost;
    if ls == [] || remaining == 0 {
      NoDepletion();
    } else if ls[0].qty <= 0 {
      WalkDraws(ls[1..], remaining, cost, e);
    } else {
      var take := Min(remaining, ls[0].qty);
      var p := take * ls[0].unitCost;
      if InI64(p) && InI64(cost + p) {
        WalkDraws(ls[1..], remaining - take, cost + p, e);
        var t, d := TakeLayers(ls[1..], remaining - take, cost + p, e), Depletion(ls[0], e, take);
        DepletedAppend([d], t.rows);
        FirstDepletion(ls[0], e, take);
      }
    }
  }

  lemma NoDepletion()
    ensures DepletedQty([]) == 0 && DepletedCost([]) == 0
  {
  }

  lemma FirstDepletion(l: LayerView, e: Event, take: int)
    ensures DepletedQty([Depletion(l, e, take)]) == take && DepletedCost([Depletion(l, e, take)]) == take * l.unitCost
  {
    var d := Depletion(l, e, take);
    assert [d] == [] + [d];
    OneDepletion([], d);
  }

  lemma DepleteAdds(cfg: Config, s: Sim, e: Event)
    requires MethodOf(cfg, e.sku).Fifo? && GoesOut(e) && Deplete(s, e).verdict.Fine?
    ensures Adds(cfg, s, Deplete(s, e).sim, e)
  {
    var k, t := KeyOf(e), Deplete(s, e).sim;
    var w := TakeLayers(s.pools[k].layers, Abs(e.qty), 0, e);
    WalkDraws(s.pools[k].layers, Abs(e.qty), 0, e);
    hide TakeLayers, MethodOf;
    DepletedAppend(s.rows.depletions, w.rows);
    var rows := s.rows.(depletions := s.rows.depletions + w.rows);
    assert AmountFor(cfg, e, w.cost);
    ConsumptionPosts(cfg, rows, e, w.cost);
    assert t.rows == PostConsumption(rows, e, w.cost);
    assert t.rows.postings[|s.rows.postings|].amount == w.cost;
    hide PostingFor, AmountFor, DepletedQty, DepletedCost, ConsumedQty, ConsumedCost;
  }

  lemma OneConsumption(cs: seq<ConsumptionRow>, c: ConsumptionRow)
    ensures ConsumedQty(cs + [c]) == ConsumedQty(cs) + c.qty
    ensures ConsumedCost(cs + [c]) == ConsumedCost(cs) + c.qty * c.unitCost
  {
    assert (cs + [c])[..|cs|] == cs;
  }

  /** One consumption row and its posting, under AVG or STD. */
  lemma ConsumptionAdds(cfg: Config, s: Sim, u: Sim, e: Event, unitCost: int, m: Method, amount: int)
    requires !MethodOf(cfg, e.sku).Fifo? && m == MethodOf(cfg, e.sku) && GoesOut(e) && AmountFor(cfg, e, amount)
    requires Cut(amount, Abs(e.qty) * unitCost)
    requires m.Std? ==> KeyOf(e) in cfg.standards && unitCost == cfg.standards[KeyOf(e)]
    requires u.rows == s.rows && forall k :: PoolAt(u.pools, k).maxBornSeq == PoolAt(s.pools, k).maxBornSeq
    ensures var rows := s.rows.(consumptions := s.rows.consumptions + [Consumed(e, unitCost, m)]);
            Adds(cfg, s, u.(rows := PostConsumption(rows, e, amount)), e)
  {
    var c := Consumed(e, unitCost, m);
    var rows := s.rows.(consumptions := s.rows.consumptions + [c]);
    var t := PostConsumption(rows, e, amount);
    ConsumptionPosts(cfg, rows, e, amount);
    OneConsumption(s.rows.consumptions, c);
    assert c.qty * c.unitCost == Abs(e.qty) * unitCost;
    assert t.postings[|s.rows.postings|].amount == amount;
    hide MethodOf, PostingFor, AmountFor, ConsumedQty, ConsumedCost, DepletedQty, DepletedCost, PoolAt, InI64;
    CutBack(amount, Abs(e.qty) * unitCost);
  }

  lemma CutBack(amount: int, exact: int)
    requires Cut(amount, exact)
    ensures (exact - amount) % TWO_64 == 0
  {
  }

  // ---- every method -----------------------------------------------------------------

  lemma Sides(e: Event)
    ensures IsReceipt(e) == ComesIn(e) && IsConsumption(e) == GoesOut(e) && !(ComesIn(e) && GoesOut(e))
  {
  }

  lemma FifoAdds(cfg: Config, s: Sim, e: Event)
    requires MethodOf(cfg, e.sku).Fifo? && FifoApply(s, e).verdict.Fine?
    ensures Adds(cfg, s, FifoApply(s, e).sim, e)
  {
    Sides(e);
    hide Adds, ComesIn, GoesOut, IsReceipt, IsConsumption, MethodOf, InI64, Deplete, AddLayer, PostReceipt;
    if ComesIn(e) {
      ReceiptAdds(cfg, s, s, e, e.unitCost, Abs(e.qty) * e.unitCost);
    } else if GoesOut(e) {
      DepleteAdds(cfg, s, e);
    } else {
      AuditAdds(cfg, s, e);
    }
  }

  lemma AvgAdds(cfg: Config, s: Sim, e: Event)
    requires MethodOf(cfg, e.sku).Avg? && AvgApply(s, e).verdict.Fine?
    ensures Adds(cfg, s, AvgApply(s, e).sim, e)
  {
    Sides(e);
    hide Adds, ComesIn, GoesOut, IsReceipt, IsConsumption, MethodOf, InI64, Wrap, AddLayer, PostReceipt;
    hide PostConsumption, RolledAverage;
    var k := KeyOf(e);
    if ComesIn(e) {
      var p := PoolAt(s.pools, k);
      var rolled := SetPool(s, k, p.(avgUnitCost := RolledAverage(p, Abs(e.qty), e.unitCost),
                                     avgTotalQty := Wrap(p.avgTotalQty + Abs(e.qty)), avgDirty := true));
      ReceiptAdds(cfg, s, rolled, e, e.unitCost, Abs(e.qty) * e.unitCost);
    } else if GoesOut(e) {
      var p := s.pools[k];
      var u := SetPool(s, k, p.(avgTotalQty := p.avgTotalQty - Abs(e.qty), avgDirty := true));
      ConsumptionAdds(cfg, s, u, e, p.avgUnitCost, Avg, Abs(e.qty) * p.avgUnitCost);
    } else {
      AuditAdds(cfg, s, e);
    }
  }

  lemma WrapCuts(x: int)
    ensures Cut(Wrap(x), x)
  {
  }

  lemma StdReceives(cfg: Config, s: Sim, e: Event)
    requires MethodOf(cfg, e.sku).Std? && KeyOf(e) in cfg.standards && ComesIn(e) && !e.kind.WoComplete?
    ensures Adds(cfg, s, Receive(s, e, cfg.standards[KeyOf(e)], false).sim, e)
  {
    var cost := cfg.standards[KeyOf(e)];
    var t := Receive(s, e, cost, false).sim;
    WrapCuts(Abs(e.qty) * cost);
    ReceiptPosts(cfg, s.rows, e, Wrap(Abs(e.qty) * cost));
    assert OutQty(t.rows) == OutQty(s.rows) && OutCost(t.rows) == OutCost(s.rows);
    hide MethodOf, AmountFor, OutQty, OutCost, PostingFor, Wrap, InI64;
  }

  lemma StdAdds(cfg: Config, s: Sim, e: Event)
    requires MethodOf(cfg, e.sku).Std? && StdApply(cfg, s, e).verdict.Fine?
    ensures Adds(cfg, s, StdApply(cfg, s, e).sim, e)
  {
    Sides(e);
    hide Adds, MethodOf, InI64, Wrap, AddLayer, PostReceipt, PostConsumption;
    if e.kind.WoComplete? && e.qty > 0 {
      ReceiptAdds(cfg, s, s, e, e.unitCost, Wrap(Abs(e.qty) * e.unitCost));
    } else if ComesIn(e) {
      StdReceives(cfg, s, e);
    } else if GoesOut(e) {
      var cost := cfg.standards[KeyOf(e)];
      WrapCuts(Abs(e.qty) * cost);
      ConsumptionAdds(cfg, s, s, e, cost, Std, Wrap(Abs(e.qty) * cost));
    } else {
      AuditAdds(cfg, s, e);
    }
  }

  /** A work order output is posted for the event as it came, whatever cost it was given. */
  lemma InjectedAdds(cfg: Config, s: Sim, t: Sim, e: Event, woCost: int)
    requires Adds(cfg, s, t, Injected(e, woCost))
    ensures Adds(cfg, s, t, e)
  {
    hide MethodOf, OutQty, OutCost, PoolAt, Wrap, Cut;
  }

  lemma StepAdds(cfg: Config, p: Progress, e: Event)
    requires !StepEvent(cfg, p, e).failed
    ensures Adds(cfg, p.sim, StepEvent(cfg, p, e).sim, e)
  {
    hide Adds, FifoApply, AvgApply, StdApply, ComponentCost, InI64;
    var f := Injected(e, p.woCost);
    match MethodOf(cfg, e.sku) {
      case Fifo => FifoAdds(cfg, p.sim, f);
      case Avg => AvgAdds(cfg, p.sim, f);
      case Std => StdAdds(cfg, p.sim, f);
    }
    InjectedAdds(cfg, p.sim, StepEvent(cfg, p, e).sim, e, p.woCost);
  }

  // ---- a run of events ----------------------------------------------------------------

  ghost predicate PostingsFrom(cfg: Config, es: seq<Event>, ps: seq<PostingRow>) {
    |ps| == |es| && forall i :: 0 <= i < |es| ==> PostingFor(cfg, es[i], ps[i])
  }

  /** One inventory line for each event that moves stock, referring to its posting. */
  function InventoryOf(es: seq<Event>): seq<InventoryRow> {
    if es == [] then []
    else
      var n := |es| - 1;
      var e := es[n];
      InventoryOf(es[..n]) + if ComesIn(e) || GoesOut(e) then [InventoryRow(n, KeyOf(e), Delta(e))] else []
  }

  function Layered(cfg: Config): Event -> bool {
    (e: Event) => HasLayer(cfg, e)
  }

  function Consuming(cfg: Config): Event -> bool {
    (e: Event) => HasConsumption(cfg, e)
  }

  /** How many of the layer rows are of the pool. */
  function Born(ls: seq<LayerRow>, k: PoolKey): nat {
    if ls == [] then 0 else Born(ls[..|ls| - 1], k) + if ls[|ls| - 1].key == k then 1 else 0
  }

  /** The layer rows are those of the receipts in order, numbered on from the highest
      number of their pool. */
  ghost predicate LayersFrom(pools: map<PoolKey, Pool>, es: seq<Event>, ls: seq<LayerRow>) {
    && |ls| == |es|
    && forall j :: 0 <= j < |ls| ==>
         LayerFor(es[j], ls[j])
         && ls[j].bornSeq == PoolAt(pools, ls[j].key).maxBornSeq + 1 + Born(ls[..j], ls[j].key)
  }

  ghost predicate Numbered(pools: map<PoolKey, Pool>, s: Sim) {
    forall k :: PoolAt(s.pools, k).maxBornSeq == PoolAt(pools, k).maxBornSeq + Born(s.rows.layers, k)
  }

  ghost predicate ConsumptionsFrom(cfg: Config, es: seq<Event>, cs: seq<ConsumptionRow>) {
    |cs| == |es| && forall j :: 0 <= j < |es| ==> ConsumptionFor(cfg, es[j], cs[j])
  }

  /** The quantity the consumptions of the list ask for. */
  function Drawn(es: seq<Event>): int {
    if es == [] then 0 else Drawn(es[..|es| - 1]) + if GoesOut(es[|es| - 1]) then Abs(es[|es| - 1].qty) else 0
  }

  /** What their postings carry. */
  function Charged(es: seq<Event>, ps: seq<PostingRow>): int
    requires |es| == |ps|
  {
    if es == [] then 0
    else
      var n := |es| - 1;
      Charged(es[..n], ps[..n]) + if GoesOut(es[n]) then ps[n].amount else 0
  }

  ghost predicate Balances(es: seq<Event>, r: Rows) {
    && |r.postings| == |es| && OutQty(r) == Drawn(es)
    && (OutCost(r) - Charged(es, r.postings)) % TWO_64 == 0
  }

  /** The rows are those of the events, in order and by field. */
  ghost predicate Origins(cfg: Config, pools: map<PoolKey, Pool>, es: seq<Event>, s: Sim) {
    && PostingsFrom(cfg, es, s.rows.postings) && s.rows.inventory == InventoryOf(es)
    && LayersFrom(pools, Filter(es, Layered(cfg)), s.rows.layers) && Numbered(pools, s)
    && ConsumptionsFrom(cfg, Filter(es, Consuming(cfg)), s.rows.consumptions)
    && Balances(es, s.rows)
  }

  lemma PostingsGrow(cfg: Config, r: Rows, t: Rows, es: seq<Event>, e: Event)
    requires PostingsFrom(cfg, es, r.postings) && r.inventory == InventoryOf(es) && AddsPosting(cfg, r, t, e)
    ensures PostingsFrom(cfg, es + [e], t.postings) && t.inventory == InventoryOf(es + [e])
  {
    hide PostingFor;
    assert (es + [e])[..|es|] == es;
  }

  lemma BornNext(ls: seq<LayerRow>, l: LayerRow, k: PoolKey)
    ensures Born(ls + [l], k) == Born(ls, k) + if l.key == k then 1 else 0
  {
    assert (ls + [l])[..|ls|] == ls;
  }

  lemma NumbersGrow(cfg: Config, pools: map<PoolKey, Pool>, s: Sim, t: Sim, e: Event)
    requires Numbered(pools, s) && AddsLayer(cfg, s, t, e)
    ensures Numbered(pools, t)
  {
    hide PoolAt, Born, HasLayer, LayersFrom;
    var ls := s.rows.layers;
    forall k
      ensures PoolAt(t.pools, k).maxBornSeq == PoolAt(pools, k).maxBornSeq + Born(t.rows.layers, k)
    {
      assert PoolAt(s.pools, k).maxBornSeq == PoolAt(pools, k).maxBornSeq + Born(ls, k);
      if HasLayer(cfg, e) {
        assert t.rows.layers == ls + [t.rows.layers[|ls|]];
        BornNext(ls, t.rows.layers[|ls|], k);
      }
    }
  }

  lemma LayersGrow(cfg: Config, pools: map<PoolKey, Pool>, s: Sim, t: Sim, es: seq<Event>, e: Event)
    requires LayersFrom(pools, Filter(es, Layered(cfg)), s.rows.layers) && Numbered(pools, s) && AddsLayer(cfg, s, t, e)
    ensures LayersFrom(pools, Filter(es + [e], Layered(cfg)), t.rows.layers)
  {
    hide PoolAt, Born, HasLayer, Numbered, LayersFrom, Filter, LayerFor;
    var ls, fs := s.rows.layers, Filter(es, Layered(cfg));
    FilterNext(es, e, Layered(cfg));
    if HasLayer(cfg, e) {
      var l := t.rows.layers[|ls|];
      assert t.rows.layers == ls + [l];
      OneLayerMore(pools, s, fs, e, l);
    } else {
      assert fs + [] == fs;
    }
  }

  lemma OneLayerMore(pools: map<PoolKey, Pool>, s: Sim, fs: seq<Event>, e: Event, l: LayerRow)
    requires LayersFrom(pools, fs, s.rows.layers) && Numbered(pools, s) && LayerFor(e, l)
    requires l.bornSeq == PoolAt(s.pools, KeyOf(e)).maxBornSeq + 1
    ensures LayersFrom(pools, fs + [e], s.rows.layers + [l])
  {
    assert l.key == KeyOf(e);
    hide LayerFor, PoolAt, Born;
    var ls := s.rows.layers;
    forall j | 0 <= j < |ls + [l]|
      ensures var m := (ls + [l])[j];
              LayerFor((fs + [e])[j], m)
              && m.bornSeq == PoolAt(pools, m.key).maxBornSeq + 1 + Born((ls + [l])[..j], m.key)
    {
      if j < |ls| {
        assert (ls + [l])[..j] == ls[..j];
      } else {
        assert (ls + [l])[..j] == ls;
      }
    }
  }

  lemma ConsumptionsGrow(cfg: Config, r: Rows, t: Rows, es: seq<Event>, e: Event)
    requires ConsumptionsFrom(cfg, Filter(es, Consuming(cfg)), r.consumptions) && AddsConsumption(cfg, r, t, e)
    ensures ConsumptionsFrom(cfg, Filter(es + [e], Consuming(cfg)), t.consumptions)
  {
    FilterNext(es, e, Consuming(cfg));
    hide Filter, ConsumptionFor;
    assert Filter(es, Consuming(cfg)) + [] == Filter(es, Consuming(cfg));
  }

  lemma BalanceGrows(r: Rows, t: Rows, es: seq<Event>, e: Event)
    requires Balances(es, r) && |t.postings| == |r.postings| + 1 && r.postings <= t.postings && AddsOut(r, t, e)
    ensures Balances(es + [e], t)
  {
    assert (es + [e])[..|es|] == es && t.postings[..|es|] == r.postings;
    assert Drawn(es + [e]) == Drawn(es) + if GoesOut(e) then Abs(e.qty) else 0;
    var more := if GoesOut(e) then t.postings[|es|].amount else 0;
    assert Charged(es + [e], t.postings) == Charged(es, r.postings) + more;
    hide Drawn, Charged, OutQty, OutCost;
    SumOfMultiples(OutCost(r) - Charged(es, r.postings), OutCost(t) - OutCost(r) - more);
  }

  lemma SumOfMultiples(a: int, b: int)
    requires a % TWO_64 == 0 && b % TWO_64 == 0
    ensures (a + b) % TWO_64 == 0
  {
  }

  lemma OneEventMore(cfg: Config, pools: map<PoolKey, Pool>, s: Sim, t: Sim, es: seq<Event>, e: Event)
    requires Origins(cfg, pools, es, s) && Adds(cfg, s, t, e)
    ensures Origins(cfg, pools, es + [e], t)
  {
    PostingsGrow(cfg, s.rows, t.rows, es, e);
    LayersGrow(cfg, pools, s, t, es, e);
    NumbersGrow(cfg, pools, s, t, e);
    ConsumptionsGrow(cfg, s.rows, t.rows, es, e);
    BalanceGrows(s.rows, t.rows, es, e);
    hide *;
    OriginsAre(cfg, pools, es + [e], t);
  }

  lemma OriginsAre(cfg: Config, pools: map<PoolKey, Pool>, es: seq<Event>, s: Sim)
    requires PostingsFrom(cfg, es, s.rows.postings) && s.rows.inventory == InventoryOf(es)
    requires LayersFrom(pools, Filter(es, Layered(cfg)), s.rows.layers) && Numbered(pools, s)
    requires ConsumptionsFrom(cfg, Filter(es, Consuming(cfg)), s.rows.consumptions) && Balances(es, s.rows)
    ensures Origins(cfg, pools, es, s)
  {
  }

  lemma {:induction false} RunOrigins(cfg: Config, pools: map<PoolKey, Pool>, s: Sim, done: seq<Event>, es: seq<Event>)
    requires Origins(cfg, pools, done, s)
    ensures var p := RunEvents(cfg, s, es); !p.failed ==> Origins(cfg, pools, done + es, p.sim)
  {
    hide Origins, Adds, StepEvent;
    if es == [] {
      assert done + es == done;
    } else {
      var n := |es| - 1;
      RunOrigins(cfg, pools, s, done, es[..n]);
      var p := RunEvents(cfg, s, es[..n]);
      if !p.failed && !StepEvent(cfg, p, es[n]).failed {
        StepAdds(cfg, p, es[n]);
        OneEventMore(cfg, pools, p.sim, StepEvent(cfg, p, es[n]).sim, done + es[..n], es[n]);
        assert done + es == done + es[..n] + [es[n]];
      }
    }
  }

  /** The events of the envelopes that succeeded, in the order they ran. */
  function Kept(gs: seq<Group>, oks: seq<bool>): seq<Event>
    requires |gs| == |oks|
  {
    if gs == [] then []
    else
      var n := |gs| - 1;
      Kept(gs[..n], oks[..n]) + if oks[n] then gs[n].events else []
  }

  lemma {:induction false} GroupsOrigins(cfg: Config, pools: map<PoolKey, Pool>, s: Sim, gs: seq<Group>)
    requires Origins(cfg, pools, [], s)
    ensures var o := RunGroups(cfg, s, gs); Origins(cfg, pools, Kept(gs, o.oks), o.sim)
  {
    hide Origins, RunEvents, Rollback;
    if gs != [] {
      var n := |gs| - 1;
      var o := RunGroups(cfg, s, gs[..n]);
      GroupsOrigins(cfg, pools, s, gs[..n]);
      RunOrigins(cfg, pools, o.sim, Kept(gs[..n], o.oks), gs[n].events);
      FailedEnvelopeIsUndone(cfg, o.sim, gs[n].events);
      var t := RunGroups(cfg, s, gs);
      assert t.oks[..n] == o.oks;
      assert Kept(gs[..n], o.oks) + [] == Kept(gs[..n], o.oks);
    }
  }

  lemma NoEvents(cfg: Config, pools: map<PoolKey, Pool>)
    ensures Origins(cfg, pools, [], Sim(pools, NO_ROWS))
  {
  }

  /** The rows of a SuperBatch are those of the events of its successful envelopes. */
  lemma RowsComeFromEvents(cfg: Config, pools: map<PoolKey, Pool>, events: seq<Event>)
    ensures var o := Step4(cfg, pools, events); Origins(cfg, pools, Kept(Groups(events), o.oks), o.sim)
  {
    hide Origins, Groups, RunGroups, Kept;
    NoEvents(cfg, pools);
    GroupsOrigins(cfg, pools, Sim(pools, NO_ROWS), Groups(events));
  }
}

/**
  The three cost methods of the committer (fifo.rs, avg.rs, standard.rs): what one event
  does to the in-memory pools and to the five row vectors. Failing events leave the
  partial changes the source leaves; the committer undoes them per envelope.

  `consumed_seq` numbers are kept apart from the rows (see CommitterStep4): nothing else
  depends on them. Quantities exclude the smallest 64-bit value, whose absolute value the
  source cannot form.
*/
module CostMethods {
  import opened Collections
  import opened Int64

  datatype Kind = InvAdjust | InvIssue | PoReceipt | SoShipment | WoComplete

  datatype Event = Event(
    corr: nat, issueId: int, kind: Kind, sku: int, loc: int, qty: int, unitCost: int,
    date: int, chrono: int, doc: int, sub: int, at: int, wo: int, op: int)

  type PoolKey = (int, int)

  function KeyOf(e: Event): PoolKey {
    (e.sku, e.loc)
  }

  /** A layer of a pool; `index` points into the layer rows of this SuperBatch for a
      layer that has no database id yet. */
  datatype LayerView = LayerView(layerId: int, index: Option<nat>, unitCost: int, qty: int, bornSeq: int, corr: nat)

  datatype Pool = Pool(layers: seq<LayerView>, maxBornSeq: int, avgUnitCost: int, avgTotalQty: int, avgDirty: bool)

  datatype LayerRow = LayerRow(key: PoolKey, qty: int, unitCost: int, bornAt: int, bornSeq: int, kind: Kind, corr: nat)

  /** `key` is history: the pool the depleted layer is in. */
  datatype DepletionRow = DepletionRow(
    key: PoolKey, layerId: int, index: Option<nat>, qty: int, unitCost: int, at: int, issueId: int, corr: nat)

  datatype ConsumptionRow = ConsumptionRow(
    key: PoolKey, qty: int, unitCost: int, at: int, issueId: int, method_: Method, corr: nat)

  datatype PostingRow = PostingRow(
    date: int, chrono: int, doc: int, sub: int, kind: Kind, amount: int,
    debit: Option<int>, credit: Option<int>, corr: nat)

  datatype InventoryRow = InventoryRow(ordinal: nat, key: PoolKey, qty: int)

  datatype Rows = Rows(
    layers: seq<LayerRow>, depletions: seq<DepletionRow>, consumptions: seq<ConsumptionRow>,
    postings: seq<PostingRow>, inventory: seq<InventoryRow>)

  datatype Method = Fifo | Avg | Std

  /** Method assignments (FIFO where there is none) and standard costs: fixed while a
      SuperBatch runs. */
  datatype Config = Config(methods: map<int, Method>, standards: map<PoolKey, int>)

  datatype Sim = Sim(pools: map<PoolKey, Pool>, rows: Rows)

  datatype Verdict = Fine | Insufficient | Overflow | NoStandard

  datatype Applied = Applied(sim: Sim, verdict: Verdict)

  function MethodOf(cfg: Config, sku: int): Method {
    if sku in cfg.methods then cfg.methods[sku] else Fifo
  }

  const EMPTY_POOL := Pool([], 0, 0, 0, false)

  function PoolAt(pools: map<PoolKey, Pool>, k: PoolKey): Pool {
    if k in pools then pools[k] else EMPTY_POOL
  }

  function SetPool(s: Sim, k: PoolKey, p: Pool): Sim {
    s.(pools := s.pools[k := p])
  }

  // ---- Accounts and classification ------------------------------------------

  /** Account numbers are computed in unchecked 64-bit arithmetic. */
  function AccountInventory(k: PoolKey): int {
    Wrap(1_000_000 + k.0 * 1000 + k.1)
  }

  function AccountWip(wo: int, op: int): int {
    Wrap(7_000_000 + wo * 1000 + op)
  }

  function OffsetReceipt(e: Event): int {
    match e.kind
    case PoReceipt => 2_001
    case InvAdjust => 3_001
    case WoComplete => AccountWip(e.wo, e.op)
    case _ => 9_999
  }

  function OffsetConsumption(e: Event): int {
    match e.kind
    case SoShipment => 4_001
    case InvIssue => 5_001
    case InvAdjust => 3_001
    case WoComplete => AccountWip(e.wo, e.op)
    case PoReceipt => 9_999
  }

  predicate IsReceipt(e: Event) {
    e.kind.PoReceipt? || ((e.kind.InvAdjust? || e.kind.WoComplete?) && e.qty > 0)
  }

  predicate IsConsumption(e: Event) {
    e.kind.InvIssue? || e.kind.SoShipment? || ((e.kind.InvAdjust? || e.kind.WoComplete?) && e.qty < 0)
  }

  function Posting(e: Event, amount: int, debit: Option<int>, credit: Option<int>): PostingRow {
    PostingRow(e.date, e.chrono, e.doc, e.sub, e.kind, amount, debit, credit, e.corr)
  }

  /** A posting line together with the inventory line that refers to it. */
  function Post(r: Rows, e: Event, amount: int, debit: int, credit: int, qty: int): Rows {
    r.(postings := r.postings + [Posting(e, amount, Some(debit), Some(credit))],
       inventory := r.inventory + [InventoryRow(|r.postings|, KeyOf(e), qty)])
  }

  function PostReceipt(r: Rows, e: Event, amount: int): Rows {
    Post(r, e, amount, AccountInventory(KeyOf(e)), OffsetReceipt(e), Abs(e.qty))
  }

  function PostConsumption(r: Rows, e: Event, amount: int): Rows {
    Post(r, e, amount, OffsetConsumption(e), AccountInventory(KeyOf(e)), -Abs(e.qty))
  }

  /** Neither receipt nor consumption: an audit line of amount zero. */
  function Audit(s: Sim, e: Event): Applied {
    Applied(s.(rows := s.rows.(postings := s.rows.postings + [Posting(e, 0, None, None)])), Fine)
  }

  /** A receipt adds a layer row and, to the pool, a layer that points at it. */
  function AddLayer(s: Sim, e: Event, unitCost: int): Sim {
    var k := KeyOf(e);
    var p := PoolAt(s.pools, k);
    var born := p.maxBornSeq + 1;
    var view := LayerView(0, Some(|s.rows.layers|), unitCost, Abs(e.qty), born, e.corr);
    SetPool(s, k, p.(layers := p.layers + [view], maxBornSeq := born))
      .(rows := s.rows.(layers := s.rows.layers + [LayerRow(k, Abs(e.qty), unitCost, e.at, born, e.kind, e.corr)]))
  }

  // ---- FIFO -----------------------------------------------------------------

  /** `emit_layer`. */
  function EmitLayer(s: Sim, e: Event): Applied {
    var amount := Abs(e.qty) * e.unitCost;
    if !InI64(amount) then Applied(s, Overflow)
    else
      var t := AddLayer(s, e, e.unitCost);
      Applied(t.(rows := PostReceipt(t.rows, e, amount)), Fine)
  }

  datatype Took = Took(layers: seq<LayerView>, rows: seq<DepletionRow>, cost: int, remaining: int, overflow: bool)

  function Depletion(l: LayerView, e: Event, take: int): DepletionRow {
    DepletionRow(KeyOf(e), l.layerId, l.index, take, l.unitCost, e.at, e.issueId, e.corr)
  }

  /** The layer walk of `deplete`, with the running cost checked at every layer. */
  function TakeLayers(layers: seq<LayerView>, remaining: int, cost: int, e: Event): Took
    decreases |layers|
  {
    if layers == [] || remaining == 0 then Took(layers, [], cost, remaining, false)
    else if layers[0].qty <= 0 then
      var t := TakeLayers(layers[1..], remaining, cost, e);
      t.(layers := [layers[0]] + t.layers)
    else
      var take := Min(remaining, layers[0].qty);
      var rest := layers[0].(qty := layers[0].qty - take);
      var p := take * layers[0].unitCost;
      if !InI64(p) || !InI64(cost + p) then Took([rest] + layers[1..], [], cost, remaining, true)
      else
        var t := TakeLayers(layers[1..], remaining - take, cost + p, e);
        t.(layers := [rest] + t.layers, rows := [Depletion(layers[0], e, take)] + t.rows)
  }

  /** `deplete`. */
  function Deplete(s: Sim, e: Event): Applied {
    var k := KeyOf(e);
    if k !in s.pools then Applied(s, Insufficient)
    else
      var t := TakeLayers(s.pools[k].layers, Abs(e.qty), 0, e);
      var u := SetPool(s, k, s.pools[k].(layers := t.layers));
      if t.overflow then Applied(u, Overflow)
      else if t.remaining > 0 then Applied(u, Insufficient)
      else
        var rows := s.rows.(depletions := s.rows.depletions + t.rows);
        Applied(u.(rows := PostConsumption(rows, e, t.cost)), Fine)
  }

  function FifoApply(s: Sim, e: Event): Applied {
    if IsReceipt(e) then EmitLayer(s, e) else if IsConsumption(e) then Deplete(s, e) else Audit(s, e)
  }

  // ---- AVG ------------------------------------------------------------------

  /** The running average after a receipt: the 128-bit quotient, cut to 64 bits. */
  function RolledAverage(p: Pool, qty: int, unitCost: int): int {
    var total := p.avgTotalQty + qty;
    if total == 0 then 0
    else if total > 0 then Wrap(TruncDiv(p.avgUnitCost * p.avgTotalQty + qty * unitCost, total))
    else Wrap(-TruncDiv(p.avgUnitCost * p.avgTotalQty + qty * unitCost, -total))
  }

  /** `roll_in`. */
  function RollIn(s: Sim, e: Event): Applied {
    var amount := Abs(e.qty) * e.unitCost;
    if !InI64(amount) then Applied(s, Overflow)
    else
      var k := KeyOf(e);
      var p := PoolAt(s.pools, k);
      var rolled := p.(avgUnitCost := RolledAverage(p, Abs(e.qty), e.unitCost),
                       avgTotalQty := Wrap(p.avgTotalQty + Abs(e.qty)), avgDirty := true);
      var t := AddLayer(SetPool(s, k, rolled), e, e.unitCost);
      Applied(t.(rows := PostReceipt(t.rows, e, amount)), Fine)
  }

  function Consumed(e: Event, unitCost: int, m: Method): ConsumptionRow {
    ConsumptionRow(KeyOf(e), Abs(e.qty), unitCost, e.at, e.issueId, m, e.corr)
  }

  /** `consume` under AVG. */
  function AvgConsume(s: Sim, e: Event): Applied {
    var k := KeyOf(e);
    var qty := Abs(e.qty);
    if k !in s.pools || s.pools[k].avgTotalQty <= 0 || qty > s.pools[k].avgTotalQty then Applied(s, Insufficient)
    else
      var p := s.pools[k];
      var amount := qty * p.avgUnitCost;
      if !InI64(amount) then Applied(s, Overflow)
      else
        var t := SetPool(s, k, p.(avgTotalQty := p.avgTotalQty - qty, avgDirty := true));
        var rows := s.rows.(consumptions := s.rows.consumptions + [Consumed(e, p.avgUnitCost, Avg)]);
        Applied(t.(rows := PostConsumption(rows, e, amount)), Fine)
  }

  function AvgApply(s: Sim, e: Event): Applied {
    if IsReceipt(e) then RollIn(s, e) else if IsConsumption(e) then AvgConsume(s, e) else Audit(s, e)
  }

  // ---- STD ------------------------------------------------------------------

  /** `receive`: the product is not checked, so it wraps. */
  function Receive(s: Sim, e: Event, unitCost: int, emitLayer: bool): Applied {
    var t := if emitLayer then AddLayer(s, e, unitCost) else SetPool(s, KeyOf(e), PoolAt(s.pools, KeyOf(e)));
    Applied(t.(rows := PostReceipt(t.rows, e, Wrap(Abs(e.qty) * unitCost))), Fine)
  }

  function StdConsume(s: Sim, e: Event, unitCost: int): Applied {
    var rows := s.rows.(consumptions := s.rows.consumptions + [Consumed(e, unitCost, Std)]);
    Applied(s.(rows := PostConsumption(rows, e, Wrap(Abs(e.qty) * unitCost))), Fine)
  }

  function StdApply(cfg: Config, s: Sim, e: Event): Applied {
    if e.kind.WoComplete? && e.qty > 0 then Receive(s, e, e.unitCost, true)
    else if KeyOf(e) !in cfg.standards then Applied(s, NoStandard)
    else if IsReceipt(e) then Receive(s, e, cfg.standards[KeyOf(e)], false)
    else if IsConsumption(e) then StdConsume(s, e, cfg.standards[KeyOf(e)])
    else Audit(s, e)
  }

  /** The dispatch on the SKU's method. */
  function ApplyOne(cfg: Config, s: Sim, e: Event): Applied {
    match MethodOf(cfg, e.sku)
    case Avg => AvgApply(s, e)
    case Std => StdApply(cfg, s, e)
    case Fifo => FifoApply(s, e)
  }

  // ---- What every event leaves alone ----------------------------------------

  ghost predicate Extends(r: Rows, t: Rows) {
    && r.layers <= t.layers && r.depletions <= t.depletions && r.consumptions <= t.consumptions
    && r.postings <= t.postings && r.inventory <= t.inventory
  }

  /** No pool but `k` changes, and rows are only appended. */
  ghost predicate Frame(s: Sim, t: Sim, k: PoolKey) {
    && Extends(s.rows, t.rows)
    && (forall j :: j != k ==> (j in t.pools <==> j in s.pools))
    && (forall j :: j != k && j in s.pools ==> t.pools[j] == s.pools[j])
  }

  lemma FifoFrame(s: Sim, e: Event)
    ensures Frame(s, FifoApply(s, e).sim, KeyOf(e))
  {
    hide TakeLayers, InI64;
  }

  lemma AvgFrame(s: Sim, e: Event)
    ensures Frame(s, AvgApply(s, e).sim, KeyOf(e))
  {
    hide RolledAverage, Wrap, InI64;
  }

  lemma StdFrame(cfg: Config, s: Sim, e: Event)
    ensures Frame(s, StdApply(cfg, s, e).sim, KeyOf(e))
  {
    hide Wrap;
  }

  /** An event changes no pool but its own, and only appends rows, whether or not it
      succeeds. */
  lemma EventFrame(cfg: Config, s: Sim, e: Event)
    ensures Frame(s, ApplyOne(cfg, s, e).sim, KeyOf(e))
  {
    hide Frame, FifoApply, AvgApply, StdApply;
    FifoFrame(s, e);
    AvgFrame(s, e);
    StdFrame(cfg, s, e);
  }

  /** Every inventory line refers to a posting line. */
  ghost predicate Linked(r: Rows) {
    forall i :: 0 <= i < |r.inventory| ==> r.inventory[i].ordinal < |r.postings|
  }
}

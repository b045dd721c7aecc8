/** The two ways the ledger applies a FIFO batch: in envelope order over per-pool
    lists (`fifo_apply_batch_inline`, poc/ledger-extension/src/lib.rs) and cell by
    cell over rings (`fifo_apply_batch_maximal`, poc/ledger-extension/src/fifo.rs).
    Both are proved against the same reference, which is itself proved to take the
    oldest units one by one. */
module FifoPaths {
  import opened Grouping
  import opened Int64
  import opened LayerRing

  /** `pool` is the debited account of a receipt and the credited one of an issue. */
  datatype Env = Receipt(pool: int, qty: int, unitCost: int) | Issue(pool: int, qty: int)

  /** What an envelope reports: its amount, and the layers it depleted. */
  datatype Out = Out(cost: int, slices: seq<Slice>)

  type Batch = seq<Env>

  ghost predicate ValidBatch(envs: Batch) {
    forall i :: 0 <= i < |envs| ==> envs[i].qty > 0
  }

  function ReceiptsBefore(envs: Batch, i: nat): (n: nat)
    requires i <= |envs|
    ensures n <= i
  {
    if i == 0 then 0 else ReceiptsBefore(envs, i - 1) + if envs[i - 1].Receipt? then 1 else 0
  }

  /** Receipts get the pre-allocated layer ids in envelope order. */
  ghost predicate EnoughIds(envs: Batch, ids: seq<int>) {
    |ids| == ReceiptsBefore(envs, |envs|)
  }

  function IdOf(envs: Batch, ids: seq<int>, i: nat): int
    requires i < |envs|
  {
    var k := ReceiptsBefore(envs, i);
    if k < |ids| then ids[k] else 0
  }

  // ---- the reference: each pool sees its own envelopes in order -------------------

  /** The positions below `n` that touch `pool`, in order. */
  function Touching(envs: Batch, pool: int, n: nat): (s: seq<nat>)
    requires n <= |envs|
    ensures forall k :: 0 <= k < |s| ==> s[k] < n && envs[s[k]].pool == pool
    ensures forall j, k :: 0 <= j < k < |s| ==> s[j] < s[k]
  {
    if n == 0 then []
    else if envs[n - 1].pool == pool then Touching(envs, pool, n - 1) + [n - 1]
    else Touching(envs, pool, n - 1)
  }

  function StepLayers(layers: seq<Layer>, e: Env, id: int): seq<Layer> {
    match e
    case Receipt(_, qty, unitCost) => layers + [Layer(qty, unitCost, id)]
    case Issue(_, qty) => Consume(layers, qty).rest
  }

  function RunLayers(layers: seq<Layer>, envs: Batch, ids: seq<int>, idxs: seq<nat>): seq<Layer>
    requires forall k :: 0 <= k < |idxs| ==> idxs[k] < |envs|
  {
    if idxs == [] then layers
    else
      var i := idxs[|idxs| - 1];
      StepLayers(RunLayers(layers, envs, ids, idxs[..|idxs| - 1]), envs[i], IdOf(envs, ids, i))
  }

  function InitOf(init: map<int, seq<Layer>>, pool: int): seq<Layer> {
    if pool in init then init[pool] else []
  }

  function LayersAt(init: map<int, seq<Layer>>, envs: Batch, ids: seq<int>, pool: int, n: nat): seq<Layer>
    requires n <= |envs|
  {
    RunLayers(InitOf(init, pool), envs, ids, Touching(envs, pool, n))
  }

  function OutOf(layers: seq<Layer>, e: Env): Out {
    match e
    case Receipt(_, qty, unitCost) => Out(Sat(qty * unitCost), [])
    case Issue(_, qty) => var s := Consume(layers, qty).slices; Out(SatCost(s), s)
  }

  predicate ShortOn(layers: seq<Layer>, e: Env) {
    e.Issue? && Consume(layers, e.qty).shortage > 0
  }

  function Expected(init: map<int, seq<Layer>>, envs: Batch, ids: seq<int>, i: nat): Out
    requires i < |envs|
  {
    OutOf(LayersAt(init, envs, ids, envs[i].pool, i), envs[i])
  }

  predicate Short(init: map<int, seq<Layer>>, envs: Batch, ids: seq<int>, i: nat)
    requires i < |envs|
  {
    ShortOn(LayersAt(init, envs, ids, envs[i].pool, i), envs[i])
  }

  /** The batch goes through, and what each envelope reports. */
  ghost predicate Correct(init: map<int, seq<Layer>>, envs: Batch, ids: seq<int>, ok: bool, outs: seq<Out>) {
    && (ok <==> forall i :: 0 <= i < |envs| ==> !Short(init, envs, ids, i))
    && (ok ==> |outs| == |envs| && forall i :: 0 <= i < |envs| ==> outs[i] == Expected(init, envs, ids, i))
  }

  lemma LayersNext(init: map<int, seq<Layer>>, envs: Batch, ids: seq<int>, pool: int, n: nat)
    requires n < |envs|
    ensures LayersAt(init, envs, ids, pool, n + 1)
         == if envs[n].pool == pool then StepLayers(LayersAt(init, envs, ids, pool, n), envs[n], IdOf(envs, ids, n))
            else LayersAt(init, envs, ids, pool, n)
  {
    if envs[n].pool == pool {
      var t := Touching(envs, pool, n);
      assert Touching(envs, pool, n + 1) == t + [n];
      assert (t + [n])[..|t|] == t;
    }
  }

  // ---- the reference takes the oldest units, one by one -------------------------------

  ghost function UnitsOf(e: Env, id: int): seq<Unit> {
    if e.Receipt? && e.qty > 0 then Repeat(Unit(id, e.unitCost), e.qty) else []
  }

  /** Every unit the pool ever held up to `n`, oldest first. */
  ghost function Stream(init: map<int, seq<Layer>>, envs: Batch, ids: seq<int>, pool: int, n: nat): seq<Unit>
    requires n <= |envs| && Positive(InitOf(init, pool))
  {
    if n == 0 then Units(InitOf(init, pool))
    else Stream(init, envs, ids, pool, n - 1)
         + if envs[n - 1].pool == pool then UnitsOf(envs[n - 1], IdOf(envs, ids, n - 1)) else []
  }

  /** How many units the issues of the pool below `n` asked for. */
  ghost function Asked(envs: Batch, pool: int, n: nat): int
    requires n <= |envs|
  {
    if n == 0 then 0
    else Asked(envs, pool, n - 1) + if envs[n - 1].Issue? && envs[n - 1].pool == pool then envs[n - 1].qty else 0
  }

  ghost predicate NoneShortBefore(init: map<int, seq<Layer>>, envs: Batch, ids: seq<int>, n: nat)
    requires n <= |envs|
  {
    forall i :: 0 <= i < n ==> !Short(init, envs, ids, i)
  }

  lemma UnitsPush(layers: seq<Layer>, l: Layer)
    requires Positive(layers) && l.qty > 0
    ensures Positive(layers + [l])
    ensures Units(layers + [l]) == Units(layers) + Repeat(Unit(l.layerId, l.unitCost), l.qty)
  {
    UnitsAppend(layers, [l]);
    assert [l][1..] == [];
    assert Units([l]) == Repeat(Unit(l.layerId, l.unitCost), l.qty) + [];
  }

  /** What is left in a pool is the stream minus the units already asked for. */
  lemma {:induction false} LayersAreStream(init: map<int, seq<Layer>>, envs: Batch, ids: seq<int>, pool: int, n: nat)
    requires n <= |envs| && ValidBatch(envs) && Positive(InitOf(init, pool)) && NoneShortBefore(init, envs, ids, n)
    ensures Positive(LayersAt(init, envs, ids, pool, n))
    ensures 0 <= Asked(envs, pool, n) <= |Stream(init, envs, ids, pool, n)|
    ensures Units(LayersAt(init, envs, ids, pool, n)) == Stream(init, envs, ids, pool, n)[Asked(envs, pool, n)..]
  {
    hide LayersAt, Units, Consume, Stream, Asked, UnitsOf, StepLayers, ShortOn, IdOf;
    StreamNext(init, envs, ids, pool, n);
    if n > 0 {
      LayersAreStream(init, envs, ids, pool, n - 1);
      LayersNext(init, envs, ids, pool, n - 1);
      if envs[n - 1].pool == pool {
        assert !Short(init, envs, ids, n - 1);
        StreamStep(LayersAt(init, envs, ids, pool, n - 1), envs[n - 1], IdOf(envs, ids, n - 1),
                   Stream(init, envs, ids, pool, n - 1), Asked(envs, pool, n - 1));
      }
    }
  }

  lemma StreamNext(init: map<int, seq<Layer>>, envs: Batch, ids: seq<int>, pool: int, n: nat)
    requires n <= |envs| && Positive(InitOf(init, pool))
    ensures n == 0 ==>
              && Asked(envs, pool, 0) == 0 && LayersAt(init, envs, ids, pool, 0) == InitOf(init, pool)
              && Stream(init, envs, ids, pool, 0)[0..] == Units(InitOf(init, pool))
    ensures n > 0 ==>
              var here, e := envs[n - 1].pool == pool, envs[n - 1];
              && Asked(envs, pool, n) == Asked(envs, pool, n - 1) + (if e.Issue? && here then e.qty else 0)
              && Stream(init, envs, ids, pool, n)
                 == if here then Stream(init, envs, ids, pool, n - 1) + UnitsOf(e, IdOf(envs, ids, n - 1))
                    else Stream(init, envs, ids, pool, n - 1)
  {
    if n > 0 {
      var s := Stream(init, envs, ids, pool, n - 1);
      assert s + [] == s;
    }
  }

  lemma StreamStep(before: seq<Layer>, e: Env, id: int, s: seq<Unit>, a: nat)
    requires Positive(before) && e.qty > 0 && a <= |s| && Units(before) == s[a..] && !ShortOn(before, e)
    ensures var after := StepLayers(before, e, id);
            var a' := if e.Issue? then a + e.qty else a;
            && Positive(after) && a' <= |s + UnitsOf(e, id)|
            && Units(after) == (s + UnitsOf(e, id))[a'..]
  {
    if e.Receipt? {
      UnitsPush(before, Layer(e.qty, e.unitCost, id));
      assert (s + UnitsOf(e, id))[a..] == s[a..] + UnitsOf(e, id);
    } else {
      ConsumeTakesOldestUnits(before, e.qty);
      assert s + [] == s;
      assert s[a..][e.qty..] == s[a + e.qty..];
    }
  }

  /** An issue that is not short depletes exactly the next `qty` units of its
      pool's stream, in order. */
  lemma IssueTakesNextUnits(init: map<int, seq<Layer>>, envs: Batch, ids: seq<int>, i: nat)
    requires i < |envs| && envs[i].Issue? && ValidBatch(envs) && Positive(InitOf(init, envs[i].pool))
    requires NoneShortBefore(init, envs, ids, i + 1)
    ensures var s := Expected(init, envs, ids, i).slices;
            var stream := Stream(init, envs, ids, envs[i].pool, i);
            var a := Asked(envs, envs[i].pool, i);
            && PositiveSlices(s)
            && 0 <= a <= a + envs[i].qty <= |stream|
            && SliceUnits(s) == stream[a..a + envs[i].qty]
  {
    var pool, qty := envs[i].pool, envs[i].qty;
    LayersAreStream(init, envs, ids, pool, i);
    var layers := LayersAt(init, envs, ids, pool, i);
    assert !Short(init, envs, ids, i);
    hide LayersAt, Stream;
    ConsumeTakesOldestUnits(layers, qty);
    var stream, a := Stream(init, envs, ids, pool, i), Asked(envs, pool, i);
    assert stream[a..][..qty] == stream[a..a + qty];
  }

  // ---- the simple path ------------------------------------------------------------------

  /** A layer known by its durable id, or by the sentinel of a receipt of this batch. */
  datatype Ref = Real(id: int) | Sentinel(n: int)

  datatype LayerRec = LayerRec(ref: Ref, qtyRemaining: int, unitCost: int)

  datatype Depletion = Depletion(ref: Ref, qty: int, unitCost: int)

  /** Sentinels count down from -1 and are resolved once the rows have ids. */
  function Resolve(ids: seq<int>, r: Ref): int {
    match r
    case Real(id) => id
    case Sentinel(n) => if 0 <= -1 - n < |ids| then ids[-1 - n] else 0
  }

  function ResolveAll(ids: seq<int>, deps: seq<Depletion>): (s: seq<Slice>)
    ensures |s| == |deps|
  {
    seq(|deps|, i requires 0 <= i < |deps| => Slice(Resolve(ids, deps[i].ref), deps[i].qty, deps[i].unitCost))
  }

  /** The list without its exhausted layers, under the resolved ids. */
  function Alive(ids: seq<int>, recs: seq<LayerRec>): seq<Layer> {
    if recs == [] then []
    else
      var rest := Alive(ids, recs[1..]);
      if recs[0].qtyRemaining == 0 then rest
      else [Layer(recs[0].qtyRemaining, recs[0].unitCost, Resolve(ids, recs[0].ref))] + rest
  }

  ghost predicate NonNegative(recs: seq<LayerRec>) {
    forall i :: 0 <= i < |recs| ==> recs[i].qtyRemaining >= 0
  }

  lemma {:induction false} AliveAppend(ids: seq<int>, a: seq<LayerRec>, b: seq<LayerRec>)
    ensures Alive(ids, a + b) == Alive(ids, a) + Alive(ids, b)
  {
    if a == [] {
      assert a + b == b;
    } else {
      assert (a + b)[1..] == a[1..] + b;
      AliveAppend(ids, a[1..], b);
      if a[0].qtyRemaining != 0 {
        var l := Layer(a[0].qtyRemaining, a[0].unitCost, Resolve(ids, a[0].ref));
        assert [l] + (Alive(ids, a[1..]) + Alive(ids, b)) == ([l] + Alive(ids, a[1..])) + Alive(ids, b);
      }
    }
  }

  /** The list with the first `i` layers exhausted by an issue. */
  function Emptied(recs: seq<LayerRec>, i: nat): (r: seq<LayerRec>)
    requires i <= |recs|
    ensures |r| == |recs|
  {
    seq(|recs|, k requires 0 <= k < |recs| => if k < i then recs[k].(qtyRemaining := 0) else recs[k])
  }

  lemma {:induction false} EmptiedIsGone(ids: seq<int>, recs: seq<LayerRec>, i: nat)
    requires i <= |recs|
    ensures Alive(ids, Emptied(recs, i)[..i]) == []
  {
    if i > 0 {
      var e := Emptied(recs, i)[..i];
      assert e[1..] == Emptied(recs[1..], i - 1)[..i - 1];
      EmptiedIsGone(ids, recs[1..], i - 1);
    }
  }

  lemma AliveAt(ids: seq<int>, recs: seq<LayerRec>, i: nat)
    requires i < |recs|
    ensures recs[i].qtyRemaining == 0 ==> Alive(ids, recs[i..]) == Alive(ids, recs[i + 1..])
    ensures recs[i].qtyRemaining != 0 ==>
              Alive(ids, recs[i..])
              == [Layer(recs[i].qtyRemaining, recs[i].unitCost, Resolve(ids, recs[i].ref))] + Alive(ids, recs[i + 1..])
  {
    assert recs[i..][1..] == recs[i + 1..];
  }

  lemma ResolveOneMore(ids: seq<int>, deps: seq<Depletion>, d: Depletion)
    ensures ResolveAll(ids, deps + [d]) == ResolveAll(ids, deps) + [Slice(Resolve(ids, d.ref), d.qty, d.unitCost)]
  {
  }

  /** What taking from the i-th layer does to the walk. */
  lemma TakeOne(ids: seq<int>, recs: seq<LayerRec>, i: nat, deps: seq<Depletion>, remaining: int)
    requires i < |recs| && recs[i].qtyRemaining > 0 && remaining > 0
    ensures var take := Min(remaining, recs[i].qtyRemaining);
            var deps' := deps + [Depletion(recs[i].ref, take, recs[i].unitCost)];
            && SatCost(ResolveAll(ids, deps')) == Sat(SatCost(ResolveAll(ids, deps)) + Sat(take * recs[i].unitCost))
            && Alive(ids, recs[i..]) != []
            && After(ResolveAll(ids, deps), Consume(Alive(ids, recs[i..]), remaining))
               == After(ResolveAll(ids, deps'), Consume(DropHead(Alive(ids, recs[i..]), take), remaining - take))
            && (take == recs[i].qtyRemaining ==> DropHead(Alive(ids, recs[i..]), take) == Alive(ids, recs[i + 1..]))
  {
    hide Consume, SatCost, ResolveAll, Alive, After, Resolve, Sat;
    var take := Min(remaining, recs[i].qtyRemaining);
    var taken := ResolveAll(ids, deps);
    AliveAt(ids, recs, i);
    SatCostAppend(taken, Slice(Resolve(ids, recs[i].ref), take, recs[i].unitCost));
    ConsumeOneMore(taken, Alive(ids, recs[i..]), remaining);
    ResolveOneMore(ids, deps, Depletion(recs[i].ref, take, recs[i].unitCost));
  }

  /** One issue over a pool's list: skip exhausted layers, stop once satisfied. */
  method WalkList(recs: seq<LayerRec>, qty: int, ghost ids: seq<int>)
    returns (recs': seq<LayerRec>, deps: seq<Depletion>, totalCost: int, remaining: int)
    requires NonNegative(recs) && qty > 0
    ensures NonNegative(recs')
    ensures Consume(Alive(ids, recs), qty) == Walk(Alive(ids, recs'), ResolveAll(ids, deps), remaining)
    ensures totalCost == SatCost(ResolveAll(ids, deps))
  {
    hide Consume, SatCost, ResolveAll, Alive, After, Emptied, Sat, DropHead, Resolve;
    recs', deps, totalCost, remaining := recs, [], 0, qty;
    ghost var all := Consume(Alive(ids, recs), qty);
    WalkStarts(ids, recs, qty);
    for i := 0 to |recs|
      invariant remaining > 0 && recs' == Emptied(recs, i)
      invariant totalCost == SatCost(ResolveAll(ids, deps))
      invariant all == After(ResolveAll(ids, deps), Consume(Alive(ids, recs[i..]), remaining))
    {
      EmptiedNext(recs, i);
      AliveAt(ids, recs, i);
      var layer := recs'[i];
      if layer.qtyRemaining == 0 {
        continue;
      }
      var take := Min(remaining, layer.qtyRemaining);
      TakeOne(ids, recs, i, deps, remaining);
      deps := deps + [Depletion(layer.ref, take, layer.unitCost)];
      recs' := recs'[i := layer.(qtyRemaining := layer.qtyRemaining - take)];
      totalCost := Sat(totalCost + Sat(take * layer.unitCost));
      remaining := remaining - take;
      if remaining == 0 {
        WalkEnds(ids, recs, recs', i, take);
        WalkDone(all, ids, recs', deps, 0);
        return;
      }
    }
    WalkExhausted(ids, recs, recs');
    WalkDone(all, ids, recs', deps, remaining);
  }

  lemma WalkStarts(ids: seq<int>, recs: seq<LayerRec>, qty: int)
    ensures Emptied(recs, 0) == recs && recs[0..] == recs && SatCost(ResolveAll(ids, [])) == 0
    ensures var all := Consume(Alive(ids, recs), qty); After(ResolveAll(ids, []), all) == all
  {
    hide Consume, Alive;
    assert ResolveAll(ids, []) == [];
  }

  lemma EmptiedNext(recs: seq<LayerRec>, i: nat)
    requires i < |recs| && NonNegative(recs)
    ensures Emptied(recs, i)[i] == recs[i]
    ensures Emptied(recs, i)[i := recs[i].(qtyRemaining := 0)] == Emptied(recs, i + 1)
    ensures recs[i].qtyRemaining == 0 ==> Emptied(recs, i) == Emptied(recs, i + 1)
    ensures NonNegative(Emptied(recs, i))
  {
  }

  lemma WalkDone(all: Walk, ids: seq<int>, recs: seq<LayerRec>, deps: seq<Depletion>, remaining: int)
    requires all == After(ResolveAll(ids, deps), Consume(Alive(ids, recs), remaining))
    requires remaining == 0 || Alive(ids, recs) == []
    ensures all == Walk(Alive(ids, recs), ResolveAll(ids, deps), remaining)
  {
    assert ResolveAll(ids, deps) + [] == ResolveAll(ids, deps);
  }

  lemma WalkExhausted(ids: seq<int>, recs: seq<LayerRec>, recs': seq<LayerRec>)
    requires recs' == Emptied(recs, |recs|)
    ensures NonNegative(recs')
    ensures Alive(ids, recs') == [] == Alive(ids, recs[|recs|..])
  {
    EmptiedIsGone(ids, recs, |recs|);
    assert recs'[..|recs|] == recs';
  }

  lemma WalkEnds(ids: seq<int>, recs: seq<LayerRec>, recs': seq<LayerRec>, i: nat, take: int)
    requires i < |recs| && recs[i].qtyRemaining != 0
    requires recs' == Emptied(recs, i)[i := recs[i].(qtyRemaining := recs[i].qtyRemaining - take)]
    ensures Alive(ids, recs') == DropHead(Alive(ids, recs[i..]), take)
  {
    var head, tail := recs'[..i], recs'[i..];
    assert recs' == head + tail;
    AliveAppend(ids, head, tail);
    assert head == Emptied(recs, i)[..i];
    EmptiedIsGone(ids, recs, i);
    assert [] + Alive(ids, tail) == Alive(ids, tail);
    assert tail[1..] == recs[i + 1..] == recs[i..][1..];
  }

  ghost predicate HasIssue(envs: Batch, pool: int) {
    exists i :: 0 <= i < |envs| && envs[i] == Issue(pool, envs[i].qty)
  }

  function Lookup(m: map<int, seq<LayerRec>>, pool: int): seq<LayerRec> {
    if pool in m then m[pool] else []
  }

  /** Only pools that some issue touches are fetched and have to match. */
  ghost predicate PoolMatches(m: map<int, seq<LayerRec>>, init: map<int, seq<Layer>>, envs: Batch, ids: seq<int>,
                              pool: int, n: nat)
    requires n <= |envs|
  {
    NonNegative(Lookup(m, pool)) && Alive(ids, Lookup(m, pool)) == LayersAt(init, envs, ids, pool, n)
  }

  ghost predicate PoolsMatch(m: map<int, seq<LayerRec>>, init: map<int, seq<Layer>>, envs: Batch, ids: seq<int>, n: nat)
    requires n <= |envs|
  {
    forall pool :: HasIssue(envs, pool) ==> PoolMatches(m, init, envs, ids, pool, n)
  }

  lemma OtherPoolsMatch(m: map<int, seq<LayerRec>>, init: map<int, seq<Layer>>, envs: Batch, ids: seq<int>, n: nat,
                        recs: seq<LayerRec>)
    requires n < |envs| && PoolsMatch(m, init, envs, ids, n)
    requires HasIssue(envs, envs[n].pool) ==>
               PoolMatches(m[envs[n].pool := recs], init, envs, ids, envs[n].pool, n + 1)
    ensures PoolsMatch(m[envs[n].pool := recs], init, envs, ids, n + 1)
  {
    var m' := m[envs[n].pool := recs];
    forall pool | HasIssue(envs, pool)
      ensures PoolMatches(m', init, envs, ids, pool, n + 1)
    {
      if pool != envs[n].pool {
        assert PoolMatches(m, init, envs, ids, pool, n);
        LayersNext(init, envs, ids, pool, n);
        hide LayersAt, Alive;
      }
    }
  }

  lemma OnePool(m: map<int, seq<LayerRec>>, init: map<int, seq<Layer>>, envs: Batch, ids: seq<int>, pool: int, n: nat)
    requires n <= |envs| && PoolsMatch(m, init, envs, ids, n) && HasIssue(envs, pool)
    ensures PoolMatches(m, init, envs, ids, pool, n)
  {
  }

  lemma AliveOne(ids: seq<int>, r: LayerRec)
    requires r.qtyRemaining != 0
    ensures Alive(ids, [r]) == [Layer(r.qtyRemaining, r.unitCost, Resolve(ids, r.ref))]
  {
    assert [r][1..] == [];
  }

  /** The pushed record is the layer the receipt adds. */
  lemma ReceiptJoins(m: map<int, seq<LayerRec>>, init: map<int, seq<Layer>>, envs: Batch, ids: seq<int>, n: nat)
    requires n < |envs| && envs[n].Receipt? && envs[n].qty > 0 && PoolMatches(m, init, envs, ids, envs[n].pool, n)
    ensures var recs := Lookup(m, envs[n].pool)
                        + [LayerRec(Sentinel(-1 - ReceiptsBefore(envs, n)), envs[n].qty, envs[n].unitCost)];
            PoolMatches(m[envs[n].pool := recs], init, envs, ids, envs[n].pool, n + 1)
  {
    var pool := envs[n].pool;
    var last := LayerRec(Sentinel(-1 - ReceiptsBefore(envs, n)), envs[n].qty, envs[n].unitCost);
    hide LayersAt, Alive, ReceiptsBefore;
    AliveAppend(ids, Lookup(m, pool), [last]);
    AliveOne(ids, last);
    LayersNext(init, envs, ids, pool, n);
  }

  lemma ReceiptMatches(m: map<int, seq<LayerRec>>, init: map<int, seq<Layer>>, envs: Batch, ids: seq<int>, n: nat)
    requires n < |envs| && envs[n].Receipt? && envs[n].qty > 0 && PoolsMatch(m, init, envs, ids, n)
    ensures var recs := Lookup(m, envs[n].pool)
                        + [LayerRec(Sentinel(-1 - ReceiptsBefore(envs, n)), envs[n].qty, envs[n].unitCost)];
            PoolsMatch(m[envs[n].pool := recs], init, envs, ids, n + 1)
  {
    hide *;
    var pool := envs[n].pool;
    var last := LayerRec(Sentinel(-1 - ReceiptsBefore(envs, n)), envs[n].qty, envs[n].unitCost);
    if HasIssue(envs, pool) {
      OnePool(m, init, envs, ids, pool, n);
      ReceiptJoins(m, init, envs, ids, n);
    }
    OtherPoolsMatch(m, init, envs, ids, n, Lookup(m, pool) + [last]);
  }

  datatype RawOut = RawOut(cost: int, deps: seq<Depletion>)

  ghost predicate RawMatches(init: map<int, seq<Layer>>, envs: Batch, ids: seq<int>, i: nat, r: RawOut)
    requires i < |envs|
  {
    && Out(r.cost, ResolveAll(ids, r.deps)) == Expected(init, envs, ids, i)
    && !Short(init, envs, ids, i)
  }

  /** The in-order walk of `fifo_apply_batch_inline`. `ids` are the row ids the
      receipts get, by which the sentinels are resolved at the end. */
  method ApplyInline(envs: Batch, fetched: map<int, seq<LayerRec>>, ids: seq<int>, ghost init: map<int, seq<Layer>>)
    returns (ok: bool, outs: seq<Out>)
    requires ValidBatch(envs) && EnoughIds(envs, ids)
    requires forall pool :: HasIssue(envs, pool) ==>
               NonNegative(Lookup(fetched, pool)) && Alive(ids, Lookup(fetched, pool)) == InitOf(init, pool)
    ensures Correct(init, envs, ids, ok, outs)
  {
    hide *;
    var poolLayers := fetched;
    var raw: seq<RawOut> := [];
    var nextSentinel := -1;
    InlineStarts(fetched, ids, envs, init);
    for i := 0 to |envs|
      invariant nextSentinel == -1 - ReceiptsBefore(envs, i)
      invariant PoolsMatch(poolLayers, init, envs, ids, i)
      invariant |raw| == i && forall k :: 0 <= k < i ==> RawMatches(init, envs, ids, k, raw[k])
    {
      ReceiptsNext(envs, i);
      match envs[i] {
        case Receipt(pool, qty, unitCost) =>
          ReceiptMatches(poolLayers, init, envs, ids, i);
          var rec := LayerRec(Sentinel(nextSentinel), qty, unitCost);
          poolLayers := poolLayers[pool := Lookup(poolLayers, pool) + [rec]];
          nextSentinel := nextSentinel - 1;
          ReceiptRaw(init, envs, ids, i);
          raw := raw + [RawOut(Sat(qty * unitCost), [])];
        case Issue(pool, qty) =>
          IssueReady(poolLayers, init, envs, ids, i);
          var recs, deps, totalCost, remaining := WalkList(Lookup(poolLayers, pool), qty, ids);
          IssueDone(poolLayers, init, envs, ids, i, recs, deps, totalCost, remaining);
          if remaining > 0 {
            InlineFails(init, envs, ids, i);
            return false, [];
          }
          poolLayers := poolLayers[pool := recs];
          raw := raw + [RawOut(totalCost, deps)];
      }
    }
    ok := true;
    outs := seq(|envs|, i requires 0 <= i < |raw| => Out(raw[i].cost, ResolveAll(ids, raw[i].deps)));
    InlineEnds(init, envs, ids, raw, outs);
  }

  lemma InlineStarts(fetched: map<int, seq<LayerRec>>, ids: seq<int>, envs: Batch, init: map<int, seq<Layer>>)
    requires forall pool :: HasIssue(envs, pool) ==>
               NonNegative(Lookup(fetched, pool)) && Alive(ids, Lookup(fetched, pool)) == InitOf(init, pool)
    ensures PoolsMatch(fetched, init, envs, ids, 0) && ReceiptsBefore(envs, 0) == 0
  {
    forall pool | HasIssue(envs, pool)
      ensures PoolMatches(fetched, init, envs, ids, pool, 0)
    {
      assert Touching(envs, pool, 0) == [];
    }
  }

  lemma ReceiptsNext(envs: Batch, i: nat)
    requires i < |envs|
    ensures ReceiptsBefore(envs, i + 1) == ReceiptsBefore(envs, i) + if envs[i].Receipt? then 1 else 0
    ensures ValidBatch(envs) ==> envs[i].qty > 0
  {
  }

  lemma InlineFails(init: map<int, seq<Layer>>, envs: Batch, ids: seq<int>, i: nat)
    requires i < |envs| && Short(init, envs, ids, i)
    ensures Correct(init, envs, ids, false, [])
  {
  }

  lemma InlineEnds(init: map<int, seq<Layer>>, envs: Batch, ids: seq<int>, raw: seq<RawOut>, outs: seq<Out>)
    requires |raw| == |envs| == |outs|
    requires forall i :: 0 <= i < |envs| ==> RawMatches(init, envs, ids, i, raw[i])
    requires forall i :: 0 <= i < |envs| ==> outs[i] == Out(raw[i].cost, ResolveAll(ids, raw[i].deps))
    ensures Correct(init, envs, ids, true, outs)
  {
    forall i | 0 <= i < |envs|
      ensures !Short(init, envs, ids, i) && outs[i] == Expected(init, envs, ids, i)
    {
      assert RawMatches(init, envs, ids, i, raw[i]);
    }
  }

  lemma ReceiptRaw(init: map<int, seq<Layer>>, envs: Batch, ids: seq<int>, i: nat)
    requires i < |envs| && envs[i].Receipt?
    ensures RawMatches(init, envs, ids, i, RawOut(Sat(envs[i].qty * envs[i].unitCost), []))
  {
    assert ResolveAll(ids, []) == [];
  }

  lemma IssueReady(m: map<int, seq<LayerRec>>, init: map<int, seq<Layer>>, envs: Batch, ids: seq<int>, i: nat)
    requires i < |envs| && envs[i].Issue? && PoolsMatch(m, init, envs, ids, i)
    ensures PoolMatches(m, init, envs, ids, envs[i].pool, i) && NonNegative(Lookup(m, envs[i].pool))
  {
    assert HasIssue(envs, envs[i].pool);
  }

  lemma IssueDone(m: map<int, seq<LayerRec>>, init: map<int, seq<Layer>>, envs: Batch, ids: seq<int>, i: nat,
                  recs: seq<LayerRec>, deps: seq<Depletion>, totalCost: int, remaining: int)
    requires i < |envs| && envs[i].Issue? && PoolsMatch(m, init, envs, ids, i) && NonNegative(recs)
    requires Consume(Alive(ids, Lookup(m, envs[i].pool)), envs[i].qty)
          == Walk(Alive(ids, recs), ResolveAll(ids, deps), remaining)
    requires totalCost == SatCost(ResolveAll(ids, deps))
    ensures remaining > 0 <==> Short(init, envs, ids, i)
    ensures remaining <= 0 ==> RawMatches(init, envs, ids, i, RawOut(totalCost, deps))
    ensures PoolsMatch(m[envs[i].pool := recs], init, envs, ids, i + 1)
  {
    IssueReady(m, init, envs, ids, i);
    LayersNext(init, envs, ids, envs[i].pool, i);
    hide LayersAt, Alive, Consume, SatCost, ResolveAll;
    OtherPoolsMatch(m, init, envs, ids, i, recs);
  }

  // ---- the fast path -----------------------------------------------------------------------

  /** Pools and cells correspond one to one. */
  ghost predicate CellsMatch(envs: Batch, cells: seq<nat>) {
    && |cells| == |envs|
    && forall i, j :: 0 <= i < |envs| && 0 <= j < |envs| ==> (cells[i] == cells[j] <==> envs[i].pool == envs[j].pool)
  }

  lemma {:induction false} PositionsAreTouching(envs: Batch, cells: seq<nat>, i: nat, n: nat)
    requires CellsMatch(envs, cells) && i < |envs| && n <= |envs|
    ensures Positions(cells, cells[i], n) == Touching(envs, envs[i].pool, n)
  {
    if n > 0 {
      PositionsAreTouching(envs, cells, i, n - 1);
    }
  }

  lemma {:induction false} TouchingPrefix(envs: Batch, pool: int, n: nat, k: nat)
    requires n <= |envs| && k < |Touching(envs, pool, n)|
    ensures Touching(envs, pool, Touching(envs, pool, n)[k]) == Touching(envs, pool, n)[..k]
  {
    if envs[n - 1].pool == pool {
      var t := Touching(envs, pool, n - 1);
      if k < |t| {
        TouchingPrefix(envs, pool, n - 1, k);
        assert (t + [n - 1])[..k] == t[..k];
      } else {
        assert (t + [n - 1])[..k] == t;
      }
    } else {
      TouchingPrefix(envs, pool, n - 1, k);
    }
  }

  lemma {:induction false} TouchingFinds(envs: Batch, pool: int, n: nat, i: nat) returns (k: nat)
    requires n <= |envs| && i < n && envs[i].pool == pool
    ensures k < |Touching(envs, pool, n)| && Touching(envs, pool, n)[k] == i
  {
    if i == n - 1 {
      k := |Touching(envs, pool, n - 1)|;
    } else {
      k := TouchingFinds(envs, pool, n - 1, i);
    }
  }

  ghost predicate InBatch(envs: Batch, idxs: seq<nat>) {
    forall k :: 0 <= k < |idxs| ==> idxs[k] < |envs|
  }

  /** The ring never has to hold more than its capacity while the pool's envelopes run. */
  ghost predicate Fits(start: seq<Layer>, envs: Batch, ids: seq<int>, idxs: seq<nat>)
    requires InBatch(envs, idxs)
  {
    && |start| <= MAX_LAYERS
    && forall k :: 0 <= k < |idxs| && envs[idxs[k]].Receipt? ==> |RunLayers(start, envs, ids, idxs[..k])| < MAX_LAYERS
  }

  lemma RunNext(start: seq<Layer>, envs: Batch, ids: seq<int>, idxs: seq<nat>, k: nat)
    requires InBatch(envs, idxs) && k < |idxs|
    ensures RunLayers(start, envs, ids, idxs[..k + 1])
         == StepLayers(RunLayers(start, envs, ids, idxs[..k]), envs[idxs[k]], IdOf(envs, ids, idxs[k]))
  {
    assert idxs[..k + 1][..k] == idxs[..k];
  }

  method LoadRing(start: seq<Layer>) returns (ring: RingFields)
    requires |start| <= MAX_LAYERS
    ensures fresh(ring) && fresh(ring.layers) && ring.Valid() && ring.Contents() == start
  {
    ring := new RingFields();
    for i := 0 to |start|
      invariant fresh(ring) && fresh(ring.layers) && ring.Valid() && ring.Contents() == start[..i]
    {
      var _ := ring.PushLayer(start[i]);
    }
    assert start[..|start|] == start;
  }

  /** The cell's layers when its k-th envelope is reached. */
  ghost function Before(start: seq<Layer>, envs: Batch, ids: seq<int>, idxs: seq<nat>, k: nat): seq<Layer> {
    if k <= |idxs| && InBatch(envs, idxs) then RunLayers(start, envs, ids, idxs[..k]) else []
  }

  /** The k-th envelope of the cell reports `out` and is served in full. */
  ghost predicate Served(start: seq<Layer>, envs: Batch, ids: seq<int>, idxs: seq<nat>, k: nat, out: Out) {
    && k < |idxs| && idxs[k] < |envs|
    && out == OutOf(Before(start, envs, ids, idxs, k), envs[idxs[k]])
    && !ShortOn(Before(start, envs, ids, idxs, k), envs[idxs[k]])
  }

  ghost predicate Unserved(start: seq<Layer>, envs: Batch, ids: seq<int>, idxs: seq<nat>, k: nat) {
    && k < |idxs| && idxs[k] < |envs|
    && ShortOn(Before(start, envs, ids, idxs, k), envs[idxs[k]])
  }

  lemma CellStep(start: seq<Layer>, envs: Batch, ids: seq<int>, idxs: seq<nat>, k: nat)
    requires InBatch(envs, idxs) && k < |idxs| && Fits(start, envs, ids, idxs)
    ensures idxs[k] < |envs|
    ensures var layers, e := Before(start, envs, ids, idxs, k), envs[idxs[k]];
            && (e.Receipt? ==> |layers| < MAX_LAYERS)
            && Before(start, envs, ids, idxs, k + 1) == StepLayers(layers, e, IdOf(envs, ids, idxs[k]))
            && (ShortOn(layers, e) ==> Unserved(start, envs, ids, idxs, k))
            && (!ShortOn(layers, e) ==> Served(start, envs, ids, idxs, k, OutOf(layers, e)))
  {
    RunNext(start, envs, ids, idxs, k);
  }

  lemma CellStart(start: seq<Layer>, envs: Batch, ids: seq<int>, idxs: seq<nat>)
    requires InBatch(envs, idxs) && Fits(start, envs, ids, idxs)
    ensures Before(start, envs, ids, idxs, 0) == start && |start| <= MAX_LAYERS
  {
  }

  /** One envelope on the ring. */
  method RunOne(ring: RingFields, e: Env, id: int) returns (out: Out, shortage: int)
    requires ring.Valid() && (e.Receipt? ==> |ring.Contents()| < MAX_LAYERS)
    modifies ring`head, ring`nLayers, ring.layers
    ensures ring.Valid()
    ensures ring.Contents() == StepLayers(old(ring.Contents()), e, id)
    ensures shortage > 0 <==> ShortOn(old(ring.Contents()), e)
    ensures shortage <= 0 ==> out == OutOf(old(ring.Contents()), e)
  {
    hide RingFields.Valid, RingFields.Contents, RingFields.Pending, Consume, SatCost, Sat;
    match e {
      case Receipt(_, qty, unitCost) =>
        var _ := ring.PushLayer(Layer(qty, unitCost, id));
        out, shortage := Out(Sat(qty * unitCost), []), 0;
      case Issue(_, qty) =>
        var totalCost, consumed, short := ring.ConsumeFromHead(qty);
        out, shortage := Out(totalCost, consumed), short;
    }
  }

  /** Phase 8 for one cell without overflow: its envelopes in order on its ring. */
  method RunCell(start: seq<Layer>, envs: Batch, ids: seq<int>, idxs: seq<nat>) returns (ok: bool, outs: seq<Out>)
    requires InBatch(envs, idxs) && Fits(start, envs, ids, idxs)
    ensures ok ==> |outs| == |idxs| && forall k :: 0 <= k < |idxs| ==> Served(start, envs, ids, idxs, k, outs[k])
    ensures !ok ==> exists k :: 0 <= k < |idxs| && Unserved(start, envs, ids, idxs, k)
  {
    hide *;
    CellStart(start, envs, ids, idxs);
    var ring := LoadRing(start);
    outs := [];
    for k := 0 to |idxs|
      invariant fresh(ring) && fresh(ring.layers) && ring.Valid()
      invariant ring.Contents() == Before(start, envs, ids, idxs, k)
      invariant |outs| == k && forall j :: 0 <= j < k ==> Served(start, envs, ids, idxs, j, outs[j])
    {
      CellStep(start, envs, ids, idxs, k);
      var out, shortage := RunOne(ring, envs[idxs[k]], IdOf(envs, ids, idxs[k]));
      if shortage > 0 {
        assert Unserved(start, envs, ids, idxs, k);
        return false, [];
      }
      outs := outs + [out];
    }
    ok := true;
  }

  lemma ServedMeansExpected(init: map<int, seq<Layer>>, envs: Batch, ids: seq<int>, pool: int, k: nat, out: Out)
    requires k < |Touching(envs, pool, |envs|)|
    ensures var idxs := Touching(envs, pool, |envs|);
            && (Served(InitOf(init, pool), envs, ids, idxs, k, out) <==>
                out == Expected(init, envs, ids, idxs[k]) && !Short(init, envs, ids, idxs[k]))
            && (Unserved(InitOf(init, pool), envs, ids, idxs, k) <==> Short(init, envs, ids, idxs[k]))
  {
    TouchingPrefix(envs, pool, |envs|, k);
  }

  ghost predicate Done(init: map<int, seq<Layer>>, envs: Batch, ids: seq<int>, i: nat, out: Out)
    requires i < |envs|
  {
    out == Expected(init, envs, ids, i) && !Short(init, envs, ids, i)
  }

  lemma CellDone(init: map<int, seq<Layer>>, envs: Batch, ids: seq<int>, pool: int, cellOuts: seq<Out>)
    requires var idxs := Touching(envs, pool, |envs|);
             && |cellOuts| == |idxs|
             && forall k :: 0 <= k < |idxs| ==> Served(InitOf(init, pool), envs, ids, idxs, k, cellOuts[k])
    ensures var idxs := Touching(envs, pool, |envs|);
            forall k :: 0 <= k < |idxs| ==> Done(init, envs, ids, idxs[k], cellOuts[k])
  {
    var idxs := Touching(envs, pool, |envs|);
    forall k | 0 <= k < |idxs|
      ensures Done(init, envs, ids, idxs[k], cellOuts[k])
    {
      ServedMeansExpected(init, envs, ids, pool, k, cellOuts[k]);
    }
  }

  /** Put the results of one cell back at their envelopes' positions. */
  method Scatter(outs: seq<Out>, idxs: seq<nat>, cellOuts: seq<Out>) returns (outs': seq<Out>)
    requires |idxs| == |cellOuts| && forall k :: 0 <= k < |idxs| ==> idxs[k] < |outs|
    requires forall j, k :: 0 <= j < k < |idxs| ==> idxs[j] < idxs[k]
    ensures |outs'| == |outs|
    ensures forall k :: 0 <= k < |idxs| ==> outs'[idxs[k]] == cellOuts[k]
    ensures forall i :: 0 <= i < |outs| && i !in idxs ==> outs'[i] == outs[i]
  {
    outs' := outs;
    for k := 0 to |idxs|
      invariant |outs'| == |outs|
      invariant forall j :: 0 <= j < k ==> outs'[idxs[j]] == cellOuts[j]
      invariant forall i :: 0 <= i < |outs| && i !in idxs ==> outs'[i] == outs[i]
    {
      outs' := outs'[idxs[k] := cellOuts[k]];
    }
  }

  lemma TouchingFacts(envs: Batch, cells: seq<nat>, e: nat)
    requires CellsMatch(envs, cells) && e < |envs|
    ensures var t := Touching(envs, envs[e].pool, |envs|);
            && InBatch(envs, t) && (forall k :: 0 <= k < |t| ==> t[k] < |envs| && cells[t[k]] == cells[e])
            && (forall i :: 0 <= i < |envs| && cells[i] == cells[e] ==> i in t)
  {
    var pool := envs[e].pool;
    var t := Touching(envs, pool, |envs|);
    forall i | 0 <= i < |envs| && cells[i] == cells[e]
      ensures i in t
    {
      var k := TouchingFinds(envs, pool, |envs|, i);
    }
  }

  /** Run the cell of envelope `e` and put its results in place. */
  method RunAndScatter(envs: Batch, ids: seq<int>, cells: seq<nat>, start: seq<Layer>, idxs: seq<nat>, outs: seq<Out>,
                       ghost init: map<int, seq<Layer>>, ghost e: nat)
    returns (ok: bool, outs': seq<Out>)
    requires CellsMatch(envs, cells) && e < |envs| && |outs| == |envs|
    requires idxs == Touching(envs, envs[e].pool, |envs|) && start == InitOf(init, envs[e].pool)
    requires Fits(start, envs, ids, idxs)
    ensures !ok ==> Correct(init, envs, ids, false, [])
    ensures ok ==> |outs'| == |outs| == |cells|
    ensures ok ==> forall i :: 0 <= i < |outs| ==>
                     if cells[i] == cells[e] then Done(init, envs, ids, i, outs'[i]) else outs'[i] == outs[i]
  {
    assert |cells| == |envs|;
    TouchingFacts(envs, cells, e);
    hide *;
    var cellOk, cellOuts := RunCell(start, envs, ids, idxs);
    ok, outs' := cellOk, outs;
    if !ok {
      ghost var k :| 0 <= k < |idxs| && Unserved(start, envs, ids, idxs, k);
      ServedMeansExpected(init, envs, ids, envs[e].pool, k, Out(0, []));
      InlineFails(init, envs, ids, idxs[k]);
    } else {
      CellDone(init, envs, ids, envs[e].pool, cellOuts);
      outs' := Scatter(outs, idxs, cellOuts);
    }
  }

  ghost predicate DoneOutside(init: map<int, seq<Layer>>, envs: Batch, ids: seq<int>, cells: seq<nat>,
                              todo: set<nat>, outs: seq<Out>) {
    && |outs| == |envs| == |cells|
    && forall i :: 0 <= i < |envs| && cells[i] !in todo ==> Done(init, envs, ids, i, outs[i])
  }

  /** The cell-grouped path of `fifo_apply_batch_maximal`, from rings that hold the
      same layers and never overflow. */
  method ApplyByCell(envs: Batch, ids: seq<int>, cells: seq<nat>, rings: map<nat, seq<Layer>>,
                     ghost init: map<int, seq<Layer>>)
    returns (ok: bool, outs: seq<Out>)
    requires CellsMatch(envs, cells) && ValidBatch(envs)
    requires forall i :: 0 <= i < |envs| ==> cells[i] in rings && rings[cells[i]] == InitOf(init, envs[i].pool)
    requires forall i :: 0 <= i < |envs| ==>
               Fits(InitOf(init, envs[i].pool), envs, ids, Touching(envs, envs[i].pool, |envs|))
    ensures Correct(init, envs, ids, ok, outs)
  {
    var groups := GroupBy(cells);
    outs := seq(|envs|, _ => Out(0, []));
    var todo := groups.Keys;
    assert DoneOutside(init, envs, ids, cells, todo, outs);
    assert |cells| == |envs|;
    hide *;
    while todo != {}
      invariant todo <= groups.Keys && DoneOutside(init, envs, ids, cells, todo, outs) && |outs| == |envs|
      decreases |todo|
    {
      var c :| c in todo;
      ghost var e :| 0 <= e < |cells| && cells[e] == c;
      PositionsAreTouching(envs, cells, e, |envs|);
      var cellOk, outs' := RunAndScatter(envs, ids, cells, rings[c], groups[c], outs, init, e);
      if !cellOk {
        return false, [];
      }
      OneFewer(init, envs, ids, cells, todo, outs, e, outs');
      outs, todo := outs', todo - {c};
    }
    ok := true;
    AllDone(init, envs, ids, cells, outs);
  }

  lemma OneFewer(init: map<int, seq<Layer>>, envs: Batch, ids: seq<int>, cells: seq<nat>,
                 todo: set<nat>, outs: seq<Out>, e: nat, outs': seq<Out>)
    requires DoneOutside(init, envs, ids, cells, todo, outs) && e < |cells| && |outs'| == |outs| == |cells|
    requires forall i :: 0 <= i < |outs| ==>
               if cells[i] == cells[e] then Done(init, envs, ids, i, outs'[i]) else outs'[i] == outs[i]
    ensures DoneOutside(init, envs, ids, cells, todo - {cells[e]}, outs')
  {
  }

  lemma AllDone(init: map<int, seq<Layer>>, envs: Batch, ids: seq<int>, cells: seq<nat>, outs: seq<Out>)
    requires DoneOutside(init, envs, ids, cells, {}, outs)
    ensures Correct(init, envs, ids, true, outs)
  {
    forall i | 0 <= i < |envs|
      ensures outs[i] == Expected(init, envs, ids, i) && !Short(init, envs, ids, i)
    {
      assert cells[i] !in {};
      assert Done(init, envs, ids, i, outs[i]);
    }
  }

  // ---- both paths on the same layers -----------------------------------------------------

  /** The layers of a pool as the query of the simple path returns them. */
  function Fetched(layers: seq<Layer>): (recs: seq<LayerRec>) {
    seq(|layers|, i requires 0 <= i < |layers| => LayerRec(Real(layers[i].layerId), layers[i].qty, layers[i].unitCost))
  }

  lemma {:induction false} FetchedAlive(ids: seq<int>, layers: seq<Layer>)
    requires Positive(layers)
    ensures Alive(ids, Fetched(layers)) == layers && NonNegative(Fetched(layers))
  {
    if layers != [] {
      FetchedAlive(ids, layers[1..]);
      assert Fetched(layers)[1..] == Fetched(layers[1..]);
    }
  }

  /** The same layers in the ring of each envelope's cell. */
  method LoadRings(envs: Batch, cells: seq<nat>, layers: map<int, seq<Layer>>) returns (rings: map<nat, seq<Layer>>)
    requires CellsMatch(envs, cells)
    ensures forall i :: 0 <= i < |envs| ==> cells[i] in rings && rings[cells[i]] == InitOf(layers, envs[i].pool)
  {
    rings := map[];
    for n := 0 to |envs|
      invariant forall i :: 0 <= i < n ==> cells[i] in rings && rings[cells[i]] == InitOf(layers, envs[i].pool)
    {
      rings := rings[cells[n] := InitOf(layers, envs[n].pool)];
    }
  }

  /** The i-th envelope, if an issue, depletes the next units of its pool's stream. */
  ghost predicate TakesNext(layers: map<int, seq<Layer>>, envs: Batch, ids: seq<int>, i: nat, out: Out) {
    i < |envs| && ValidBatch(envs) && (envs[i].Issue? ==>
      Positive(InitOf(layers, envs[i].pool)) && PositiveSlices(out.slices) &&
      var stream, a := Stream(layers, envs, ids, envs[i].pool, i), Asked(envs, envs[i].pool, i);
      0 <= a <= a + envs[i].qty <= |stream| && SliceUnits(out.slices) == stream[a..a + envs[i].qty])
  }

  /** The fast path equals the simple path: run on the same batch and the same layers,
      both go through or neither does, every envelope reports the same cost and the same
      depletion slices, and each issue takes the oldest units one by one. */
  method ApplyBoth(envs: Batch, ids: seq<int>, layers: map<int, seq<Layer>>, cells: seq<nat>)
    returns (ok1: bool, outs1: seq<Out>, ok2: bool, outs2: seq<Out>)
    requires ValidBatch(envs) && EnoughIds(envs, ids) && CellsMatch(envs, cells)
    requires forall pool :: pool in layers ==> Positive(layers[pool])
    requires forall i :: 0 <= i < |envs| ==>
               Fits(InitOf(layers, envs[i].pool), envs, ids, Touching(envs, envs[i].pool, |envs|))
    ensures ok1 == ok2 && (ok1 ==> |outs1| == |envs| && outs1 == outs2)
    ensures ok1 ==> forall i :: 0 <= i < |envs| ==> TakesNext(layers, envs, ids, i, outs1[i])
  {
    hide *;
    var fetched := map pool | pool in layers :: Fetched(layers[pool]);
    forall pool
      ensures NonNegative(Lookup(fetched, pool)) && Alive(ids, Lookup(fetched, pool)) == InitOf(layers, pool)
    {
      LookupFetched(ids, layers, fetched, pool);
    }
    ok1, outs1 := ApplyInline(envs, fetched, ids, layers);
    var rings := LoadRings(envs, cells, layers);
    ok2, outs2 := ApplyByCell(envs, ids, cells, rings, layers);
    OneOutcome(layers, envs, ids, ok1, outs1, ok2, outs2);
    if ok1 {
      forall i | 0 <= i < |envs|
        ensures TakesNext(layers, envs, ids, i, outs1[i])
      {
        CorrectTakesNext(layers, envs, ids, outs1, i);
      }
    }
  }

  lemma LookupFetched(ids: seq<int>, layers: map<int, seq<Layer>>, fetched: map<int, seq<LayerRec>>, pool: int)
    requires forall p :: p in layers ==> Positive(layers[p])
    requires fetched == map p | p in layers :: Fetched(layers[p])
    ensures NonNegative(Lookup(fetched, pool)) && Alive(ids, Lookup(fetched, pool)) == InitOf(layers, pool)
  {
    FetchedAlive(ids, InitOf(layers, pool));
  }

  lemma OneOutcome(init: map<int, seq<Layer>>, envs: Batch, ids: seq<int>,
                   ok1: bool, outs1: seq<Out>, ok2: bool, outs2: seq<Out>)
    requires Correct(init, envs, ids, ok1, outs1) && Correct(init, envs, ids, ok2, outs2)
    ensures ok1 == ok2 && (ok1 ==> |outs1| == |envs| && outs1 == outs2)
  {
    if ok1 && ok2 {
      assert forall i :: 0 <= i < |envs| ==> outs1[i] == Expected(init, envs, ids, i) == outs2[i];
    }
  }

  lemma CorrectTakesNext(init: map<int, seq<Layer>>, envs: Batch, ids: seq<int>, outs: seq<Out>, i: nat)
    requires Correct(init, envs, ids, true, outs) && ValidBatch(envs) && i < |envs| == |outs|
    requires forall p :: p in init ==> Positive(init[p])
    ensures TakesNext(init, envs, ids, i, outs[i])
  {
    hide Expected, Short, Stream, Asked;
    if envs[i].Issue? {
      assert outs[i] == Expected(init, envs, ids, i);
      IssueTakesNextUnits(init, envs, ids, i);
    }
  }
}

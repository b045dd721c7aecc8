/**
  What the two FIFO batch paths decide and charge (poc/ledger-extension/src/fifo.rs), told
  from the stream of units a pool receives: a batch goes through if no issue asks for more
  than has come in, and an issue costs what the next units of the stream cost.
*/
module FifoStream {
  import opened FifoPaths
  import opened Int64
  import opened LayerRing

  /** The unit costs of the units, added up. */
  ghost function CostOfUnits(us: seq<Unit>): int {
    if us == [] then 0 else us[0].unitCost + CostOfUnits(us[1..])
  }

  lemma {:induction false} CostOfUnitsAppend(a: seq<Unit>, b: seq<Unit>)
    ensures CostOfUnits(a + b) == CostOfUnits(a) + CostOfUnits(b)
  {
    if a == [] {
      assert a + b == b;
    } else {
      CostOfUnitsAppend(a[1..], b);
      assert (a + b)[1..] == a[1..] + b;
    }
  }

  lemma {:induction false} CostOfRepeat(u: Unit, n: nat)
    ensures CostOfUnits(Repeat(u, n)) == n * u.unitCost
  {
    if n > 0 {
      CostOfRepeat(u, n - 1);
      assert Repeat(u, n)[1..] == Repeat(u, n - 1);
      hide Repeat;
      assert (n - 1) * u.unitCost + u.unitCost == n * u.unitCost;
    }
  }

  lemma {:induction false} ExactCostCons(s: Slice, slices: seq<Slice>)
    ensures ExactCost([s] + slices) == s.qtyConsumed * s.unitCost + ExactCost(slices)
  {
    if slices == [] {
      assert [s] + slices == [s] && [s][..0] == [];
    } else {
      var n := |slices| - 1;
      ExactCostCons(s, slices[..n]);
      assert ([s] + slices)[..n + 1] == [s] + slices[..n];
    }
  }

  lemma {:induction false} SlicesCostTheirUnits(slices: seq<Slice>)
    requires PositiveSlices(slices)
    ensures ExactCost(slices) == CostOfUnits(SliceUnits(slices))
  {
    if slices != [] {
      var s, rest := slices[0], slices[1..];
      assert slices == [s] + rest;
      SlicesCostTheirUnits(rest);
      ExactCostCons(s, rest);
      var head := Repeat(Unit(s.layerId, s.unitCost), s.qtyConsumed);
      assert SliceUnits(slices) == head + SliceUnits(rest);
      CostOfRepeat(Unit(s.layerId, s.unitCost), s.qtyConsumed);
      hide SliceUnits, Repeat, ExactCost;
      CostOfUnitsAppend(head, SliceUnits(rest));
    }
  }

  /** A slice's unit cost is that of one of its units. */
  lemma {:induction false} SliceHasUnit(slices: seq<Slice>, i: nat)
    requires PositiveSlices(slices) && i < |slices|
    ensures Unit(slices[i].layerId, slices[i].unitCost) in SliceUnits(slices)
  {
    var head := Repeat(Unit(slices[0].layerId, slices[0].unitCost), slices[0].qtyConsumed);
    assert SliceUnits(slices) == head + SliceUnits(slices[1..]);
    if i == 0 {
      assert head[0] == Unit(slices[0].layerId, slices[0].unitCost);
    } else {
      SliceHasUnit(slices[1..], i - 1);
    }
  }

  /** An issue that goes through reports what the next units of its pool's stream cost, as
      long as no unit cost is negative and the sum fits in 64 bits. */
  lemma IssueCostsNextUnits(init: map<int, seq<Layer>>, envs: Batch, ids: seq<int>, i: nat)
    requires i < |envs| && envs[i].Issue? && ValidBatch(envs) && Positive(InitOf(init, envs[i].pool))
    requires NoneShortBefore(init, envs, ids, i + 1)
    ensures var a := Asked(envs, envs[i].pool, i);
            var stream := Stream(init, envs, ids, envs[i].pool, i);
            && 0 <= a <= a + envs[i].qty <= |stream|
            && var next := stream[a..a + envs[i].qty];
               (forall u :: u in next ==> u.unitCost >= 0) && CostOfUnits(next) <= I64_MAX ==>
                 Expected(init, envs, ids, i).cost == CostOfUnits(next)
  {
    IssueTakesNextUnits(init, envs, ids, i);
    var out := Expected(init, envs, ids, i);
    assert out.cost == SatCost(out.slices);
    hide Expected, Stream, Asked, NoneShortBefore, SatCost;
    SlicesCostTheirUnits(out.slices);
    var next := SliceUnits(out.slices);
    if (forall u :: u in next ==> u.unitCost >= 0) && CostOfUnits(next) <= I64_MAX {
      forall j | 0 <= j < |out.slices|
        ensures out.slices[j].unitCost >= 0
      {
        SliceHasUnit(out.slices, j);
      }
      SatCostExact(out.slices);
    }
  }

  /** A receipt reports its quantity at its unit cost. */
  lemma ReceiptCosts(init: map<int, seq<Layer>>, envs: Batch, ids: seq<int>, i: nat)
    requires i < |envs| && envs[i].Receipt? && InI64(envs[i].qty * envs[i].unitCost)
    ensures Expected(init, envs, ids, i).cost == envs[i].qty * envs[i].unitCost
  {
  }

  /** The next issue is short exactly when the pool has not received enough. */
  lemma ShortIff(init: map<int, seq<Layer>>, envs: Batch, ids: seq<int>, i: nat)
    requires i < |envs| && envs[i].Issue? && ValidBatch(envs) && Positive(InitOf(init, envs[i].pool))
    requires NoneShortBefore(init, envs, ids, i)
    ensures Short(init, envs, ids, i)
       <==> |Stream(init, envs, ids, envs[i].pool, i)| < Asked(envs, envs[i].pool, i) + envs[i].qty
  {
    var pool := envs[i].pool;
    LayersAreStream(init, envs, ids, pool, i);
    var layers := LayersAt(init, envs, ids, pool, i);
    hide LayersAt, Stream, Asked, Units, Consume, NoneShortBefore;
    ConsumeTakesOldestUnits(layers, envs[i].qty);
  }

  /** What a pool held at first and received in the first `n` envelopes. */
  ghost function Received(init: map<int, seq<Layer>>, envs: Batch, pool: int, n: nat): int
    requires n <= |envs|
  {
    if n == 0 then StockOf(InitOf(init, pool))
    else
      Received(init, envs, pool, n - 1)
      + if envs[n - 1].pool == pool && envs[n - 1].Receipt? then envs[n - 1].qty else 0
  }

  ghost function StockOf(layers: seq<Layer>): int {
    if layers == [] then 0 else layers[0].qty + StockOf(layers[1..])
  }

  lemma {:induction false} StockIsUnits(layers: seq<Layer>)
    requires Positive(layers)
    ensures |Units(layers)| == StockOf(layers)
  {
    if layers != [] {
      StockIsUnits(layers[1..]);
    }
  }

  lemma {:induction false} StreamLength(init: map<int, seq<Layer>>, envs: Batch, ids: seq<int>, pool: int, n: nat)
    requires n <= |envs| && ValidBatch(envs) && Positive(InitOf(init, pool))
    ensures |Stream(init, envs, ids, pool, n)| == Received(init, envs, pool, n)
  {
    if n == 0 {
      StockIsUnits(InitOf(init, pool));
    } else {
      StreamLength(init, envs, ids, pool, n - 1);
    }
  }

  /** No issue among the first `n` envelopes asks for more than has come in before it. */
  ghost predicate CoveredBefore(init: map<int, seq<Layer>>, envs: Batch, n: nat)
    requires n <= |envs|
  {
    forall i :: 0 <= i < n && envs[i].Issue? ==>
      Asked(envs, envs[i].pool, i) + envs[i].qty <= Received(init, envs, envs[i].pool, i)
  }

  /** A batch goes through exactly when every issue is covered. */
  lemma {:induction false} NoneShortIff(init: map<int, seq<Layer>>, envs: Batch, ids: seq<int>, n: nat)
    requires n <= |envs| && ValidBatch(envs) && forall i :: 0 <= i < |envs| ==> Positive(InitOf(init, envs[i].pool))
    ensures NoneShortBefore(init, envs, ids, n) <==> CoveredBefore(init, envs, n)
  {
    hide Short, Asked, Received;
    if n > 0 {
      NoneShortIff(init, envs, ids, n - 1);
      if envs[n - 1].Issue? && NoneShortBefore(init, envs, ids, n - 1) {
        ShortIff(init, envs, ids, n - 1);
        StreamLength(init, envs, ids, envs[n - 1].pool, n - 1);
      } else if envs[n - 1].Receipt? {
        ReceiptIsNotShort(init, envs, ids, n - 1);
      }
    }
  }

  lemma ReceiptIsNotShort(init: map<int, seq<Layer>>, envs: Batch, ids: seq<int>, i: nat)
    requires i < |envs| && envs[i].Receipt?
    ensures !Short(init, envs, ids, i)
  {
  }
}

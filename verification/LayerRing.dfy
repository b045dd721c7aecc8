/** One FIFO cell: the ring of cost layers and the pending-drain list of
    poc/ledger-extension/src/fifo.rs. */
module LayerRing {
  import opened Int64

  const MAX_LAYERS: nat := 256
  const PENDING_DRAIN_CAP: nat := 64

  datatype Layer = Layer(qty: int, unitCost: int, layerId: int)

  datatype PendingDrain = PendingDrain(layerId: int, qtyConsumed: int)

  datatype Slice = Slice(layerId: int, qtyConsumed: int, unitCost: int)

  /** Outcome of an issue walk: what stays, what was taken, what is missing. */
  datatype Walk = Walk(rest: seq<Layer>, slices: seq<Slice>, shortage: int)

  /** The walk of `consume_from_head` on the layers listed oldest first. */
  function Consume(layers: seq<Layer>, qty: int): (w: Walk)
    decreases |layers|
  {
    if qty <= 0 || layers == [] then Walk(layers, [], qty)
    else
      var take := Min(qty, layers[0].qty);
      var slice := Slice(layers[0].layerId, take, layers[0].unitCost);
      if take == layers[0].qty then
        var w := Consume(layers[1..], qty - take);
        Walk(w.rest, [slice] + w.slices, w.shortage)
      else
        Walk([layers[0].(qty := layers[0].qty - take)] + layers[1..], [slice], 0)
  }

  /** The running total of an issue, saturating at every step as the code does. */
  function SatCost(slices: seq<Slice>): (c: int)
    ensures InI64(c)
  {
    if slices == [] then 0
    else
      var last := slices[|slices| - 1];
      Sat(SatCost(slices[..|slices| - 1]) + Sat(last.qtyConsumed * last.unitCost))
  }

  lemma SatCostAppend(slices: seq<Slice>, s: Slice)
    ensures SatCost(slices + [s]) == Sat(SatCost(slices) + Sat(s.qtyConsumed * s.unitCost))
  {
    assert (slices + [s])[..|slices|] == slices;
  }

  /** A walk that already holds `taken` when it reaches the state of `w`. */
  ghost function After(taken: seq<Slice>, w: Walk): Walk {
    Walk(w.rest, taken + w.slices, w.shortage)
  }

  /** The layers once `take` units left the oldest one. */
  function DropHead(layers: seq<Layer>, take: int): (rest: seq<Layer>)
    requires layers != []
  {
    if take == layers[0].qty then layers[1..]
    else [layers[0].(qty := layers[0].qty - take)] + layers[1..]
  }

  lemma ConsumeOneMore(taken: seq<Slice>, layers: seq<Layer>, qty: int)
    requires qty > 0 && layers != []
    ensures var take := Min(qty, layers[0].qty);
            var slice := Slice(layers[0].layerId, take, layers[0].unitCost);
            After(taken, Consume(layers, qty)) == After(taken + [slice], Consume(DropHead(layers, take), qty - take))
  {
    var take := Min(qty, layers[0].qty);
    var slice := Slice(layers[0].layerId, take, layers[0].unitCost);
    if take == layers[0].qty {
      var w := Consume(layers[1..], qty - take);
      assert taken + ([slice] + w.slices) == (taken + [slice]) + w.slices;
    } else {
      assert (taken + [slice]) + [] == taken + [slice];
    }
  }

  function ExactCost(slices: seq<Slice>): int {
    if slices == [] then 0
    else
      var last := slices[|slices| - 1];
      ExactCost(slices[..|slices| - 1]) + last.qtyConsumed * last.unitCost
  }

  // ---- a layer is a run of identical units --------------------------------

  datatype Unit = Unit(layerId: int, unitCost: int)

  ghost function Repeat(u: Unit, n: nat): (s: seq<Unit>)
    ensures |s| == n
    ensures forall i :: 0 <= i < n ==> s[i] == u
  {
    seq(n, _ => u)
  }

  ghost predicate Positive(layers: seq<Layer>) {
    forall i :: 0 <= i < |layers| ==> layers[i].qty > 0
  }

  ghost function Units(layers: seq<Layer>): seq<Unit>
    requires Positive(layers)
  {
    if layers == [] then []
    else Repeat(Unit(layers[0].layerId, layers[0].unitCost), layers[0].qty) + Units(layers[1..])
  }

  ghost predicate PositiveSlices(slices: seq<Slice>) {
    forall i :: 0 <= i < |slices| ==> slices[i].qtyConsumed > 0
  }

  ghost function SliceUnits(slices: seq<Slice>): seq<Unit>
    requires PositiveSlices(slices)
  {
    if slices == [] then []
    else Repeat(Unit(slices[0].layerId, slices[0].unitCost), slices[0].qtyConsumed)
         + SliceUnits(slices[1..])
  }

  lemma {:induction false} UnitsAppend(a: seq<Layer>, b: seq<Layer>)
    requires Positive(a) && Positive(b)
    ensures Positive(a + b)
    ensures Units(a + b) == Units(a) + Units(b)
  {
    if a == [] {
      assert a + b == b;
    } else {
      UnitsAppend(a[1..], b);
      assert (a + b)[1..] == a[1..] + b;
      var head := Repeat(Unit(a[0].layerId, a[0].unitCost), a[0].qty);
      assert Units(a) == head + Units(a[1..]);
      assert Units(a + b) == head + Units(a[1..] + b);
      hide Units, Repeat;
    }
  }

  lemma UnitsHead(layers: seq<Layer>, m: nat)
    requires Positive(layers) && layers != [] && m <= layers[0].qty
    ensures var u := Unit(layers[0].layerId, layers[0].unitCost);
            && |Units(layers)| >= m
            && Units(layers)[..m] == Repeat(u, m)
            && Units(layers)[m..] == Repeat(u, layers[0].qty - m) + Units(layers[1..])
  {
    var u := Unit(layers[0].layerId, layers[0].unitCost);
    var head, tail := Repeat(u, layers[0].qty), Units(layers[1..]);
    assert (head + tail)[..m] == Repeat(u, m);
    assert (head + tail)[m..] == Repeat(u, layers[0].qty - m) + tail;
  }

  ghost predicate TookOldest(layers: seq<Layer>, qty: nat, w: Walk)
    requires Positive(layers)
  {
    var m := Min(qty, |Units(layers)|);
    && Positive(w.rest) && PositiveSlices(w.slices)
    && SliceUnits(w.slices) == Units(layers)[..m]
    && Units(w.rest) == Units(layers)[m..]
    && w.shortage == qty - m
  }

  lemma TookNothing(layers: seq<Layer>, qty: nat)
    requires Positive(layers) && (qty == 0 || layers == [])
    ensures TookOldest(layers, qty, Walk(layers, [], qty))
  {
  }

  lemma TookOldestWhole(layers: seq<Layer>, qty: nat, w: Walk)
    requires Positive(layers) && layers != [] && qty >= layers[0].qty
    requires TookOldest(layers[1..], qty - layers[0].qty, w)
    ensures var first := Slice(layers[0].layerId, layers[0].qty, layers[0].unitCost);
            TookOldest(layers, qty, Walk(w.rest, [first] + w.slices, w.shortage))
  {
    var slice := Slice(layers[0].layerId, layers[0].qty, layers[0].unitCost);
    var tail := Units(layers[1..]);
    var head := Repeat(Unit(layers[0].layerId, layers[0].unitCost), layers[0].qty);
    assert ([slice] + w.slices)[1..] == w.slices;
    assert PositiveSlices([slice] + w.slices);
    var m' := Min(qty - layers[0].qty, |tail|);
    assert (head + tail)[..|head| + m'] == head + tail[..m'];
    assert (head + tail)[|head| + m'..] == tail[m'..];
  }

  lemma TookOldestPart(layers: seq<Layer>, qty: nat)
    requires Positive(layers) && layers != [] && 0 < qty < layers[0].qty
    ensures TookOldest(layers, qty,
                       Walk([layers[0].(qty := layers[0].qty - qty)] + layers[1..],
                            [Slice(layers[0].layerId, qty, layers[0].unitCost)], 0))
  {
    UnitsHead(layers, qty);
    var rest := [layers[0].(qty := layers[0].qty - qty)] + layers[1..];
    assert rest[1..] == layers[1..];
    var slices := [Slice(layers[0].layerId, qty, layers[0].unitCost)];
    assert SliceUnits(slices[1..]) == [];
  }

  /** The walk takes exactly the oldest units, in order, and leaves the rest. */
  lemma {:induction false} ConsumeTakesOldestUnits(layers: seq<Layer>, qty: nat)
    requires Positive(layers)
    ensures TookOldest(layers, qty, Consume(layers, qty))
    decreases |layers|
  {
    hide TookOldest;
    if qty == 0 || layers == [] {
      TookNothing(layers, qty);
    } else if qty >= layers[0].qty {
      ConsumeTakesOldestUnits(layers[1..], qty - layers[0].qty);
      TookOldestWhole(layers, qty, Consume(layers[1..], qty - layers[0].qty));
    } else {
      TookOldestPart(layers, qty);
    }
  }

  /** Consuming q1 and then q2 leaves what consuming q1 + q2 leaves. */
  lemma {:induction false} ConsumeTwice(layers: seq<Layer>, q1: nat, q2: nat)
    requires Positive(layers)
    requires Consume(layers, q1).shortage == 0
    ensures Consume(Consume(layers, q1).rest, q2).rest == Consume(layers, q1 + q2).rest
    decreases |layers|
  {
    if q1 > 0 && layers != [] {
      if q1 >= layers[0].qty {
        ConsumeTwice(layers[1..], q1 - layers[0].qty, q2);
      } else {
        var mid := Consume(layers, q1).rest;
        assert mid[1..] == layers[1..];
        if q2 > 0 {
          assert [layers[0].(qty := layers[0].qty - q1 - q2)] + layers[1..]
              == [mid[0].(qty := mid[0].qty - q2)] + mid[1..];
        }
      }
    }
  }

  /** Without saturation an issue costs the sum of the unit costs it took. */
  lemma {:induction false} SatCostExact(slices: seq<Slice>)
    requires PositiveSlices(slices)
    requires forall i :: 0 <= i < |slices| ==> slices[i].unitCost >= 0
    requires ExactCost(slices) <= I64_MAX
    ensures SatCost(slices) == ExactCost(slices) >= 0
  {
    if slices != [] {
      var front := slices[..|slices| - 1];
      var last := slices[|slices| - 1];
      assert last.qtyConsumed * last.unitCost >= 0;
      SatCostExact(front);
    }
  }

  // ---- the ring itself ----------------------------------------------------

  class RingFields {
    var head: nat
    var nLayers: nat
    var pendingDrainN: nat
    const layers: array<Layer>
    const pendingDrain: array<PendingDrain>

    ghost predicate Valid()
      reads this
    {
      && layers.Length == MAX_LAYERS
      && pendingDrain.Length == PENDING_DRAIN_CAP
      && head < MAX_LAYERS
      && nLayers <= MAX_LAYERS
      && pendingDrainN <= PENDING_DRAIN_CAP
    }

    /** The layers from oldest to newest. */
    ghost function Contents(): (s: seq<Layer>)
      requires Valid()
      reads this, layers
      ensures |s| == nLayers
    {
      seq(nLayers, i requires 0 <= i < nLayers && Valid() reads this, layers => layers[(head + i) % MAX_LAYERS])
    }

    ghost function Pending(): (s: seq<PendingDrain>)
      requires Valid()
      reads this, pendingDrain
    {
      pendingDrain[..pendingDrainN]
    }

    constructor ()
      ensures Valid() && Contents() == [] && Pending() == []
      ensures fresh(layers) && fresh(pendingDrain)
    {
      head, nLayers, pendingDrainN := 0, 0, 0;
      layers := new Layer[MAX_LAYERS](_ => Layer(0, 0, 0));
      pendingDrain := new PendingDrain[PENDING_DRAIN_CAP](_ => PendingDrain(0, 0));
    }

    /** `ring_fields_clone`: the contents as values. */
    method Snapshot() returns (ls: seq<Layer>, ps: seq<PendingDrain>)
      requires Valid()
      ensures ls == Contents() && ps == Pending()
    {
      ls, ps := [], [];
      for i := 0 to nLayers
        invariant ls == Contents()[..i]
      {
        ls := ls + [layers[(head + i) % MAX_LAYERS]];
      }
      for i := 0 to pendingDrainN
        invariant ps == Pending()[..i]
      {
        ps := ps + [pendingDrain[i]];
      }
    }

    /** A ring that holds the given layers and pending drains. */
    constructor Load(ls: seq<Layer>, ps: seq<PendingDrain>)
      requires |ls| <= MAX_LAYERS && |ps| <= PENDING_DRAIN_CAP
      ensures Valid() && Contents() == ls && Pending() == ps
      ensures fresh(layers) && fresh(pendingDrain)
    {
      head, nLayers, pendingDrainN := 0, |ls|, |ps|;
      layers := new Layer[MAX_LAYERS](i => if 0 <= i < |ls| then ls[i] else Layer(0, 0, 0));
      pendingDrain := new PendingDrain[PENDING_DRAIN_CAP](i => if 0 <= i < |ps| then ps[i] else PendingDrain(0, 0));
    }

    method PushLayer(layer: Layer) returns (ok: bool)
      requires Valid()
      modifies this`nLayers, layers
      ensures Valid()
      ensures ok == (|old(Contents())| < MAX_LAYERS)
      ensures Contents() == if ok then old(Contents()) + [layer] else old(Contents())
      ensures Pending() == old(Pending())
    {
      if nLayers >= MAX_LAYERS {
        return false;
      }
      var tail := (head + nLayers) % MAX_LAYERS;
      layers[tail] := layer;
      nLayers := nLayers + 1;
      assert forall i :: 0 <= i < old(nLayers) ==> Contents()[i] == old(Contents()[i]);
      return true;
    }

    method PushPendingDrain(layerId: int, qtyConsumed: int) returns (ok: bool)
      requires Valid()
      modifies this`pendingDrainN, pendingDrain
      ensures Valid()
      ensures ok == (|old(Pending())| < PENDING_DRAIN_CAP)
      ensures Pending() == if ok then old(Pending()) + [PendingDrain(layerId, qtyConsumed)] else old(Pending())
      ensures Contents() == old(Contents())
    {
      if pendingDrainN >= PENDING_DRAIN_CAP {
        return false;
      }
      pendingDrain[pendingDrainN] := PendingDrain(layerId, qtyConsumed);
      pendingDrainN := pendingDrainN + 1;
      return true;
    }

    method DrainPendingInto(out: seq<PendingDrain>) returns (out': seq<PendingDrain>)
      requires Valid()
      modifies this`pendingDrainN
      ensures Valid()
      ensures out' == out + old(Pending())
      ensures Pending() == []
      ensures Contents() == old(Contents())
    {
      out' := out;
      for i := 0 to pendingDrainN
        invariant out' == out + pendingDrain[..i]
      {
        out' := out' + [pendingDrain[i]];
      }
      pendingDrainN := 0;
    }

    static lemma NextPlace(h: nat, i: nat)
      ensures ((h + 1) % MAX_LAYERS + i) % MAX_LAYERS == (h + (i + 1)) % MAX_LAYERS
    {
    }

    static lemma OtherPlace(h: nat, i: nat)
      requires h < MAX_LAYERS && 1 <= i < MAX_LAYERS
      ensures (h + i) % MAX_LAYERS != h
    {
    }

    /** Remove `take` units from the oldest layer, dropping it when it empties. */
    method TakeFromHead(take: int)
      requires Valid() && nLayers > 0
      modifies this`head, this`nLayers, layers
      ensures Valid()
      ensures Contents() == DropHead(old(Contents()), take)
      ensures Pending() == old(Pending())
    {
      ghost var before := Contents();
      var headIdx := head;
      var layer := layers[headIdx];
      assert before[0] == layer;
      if take == layer.qty {
        head := (head + 1) % MAX_LAYERS;
        nLayers := nLayers - 1;
        forall i | 0 <= i < nLayers
          ensures Contents()[i] == before[i + 1]
        {
          NextPlace(headIdx, i);
        }
        assert Contents() == before[1..];
      } else {
        layers[headIdx] := layer.(qty := layer.qty - take);
        forall i | 1 <= i < nLayers
          ensures Contents()[i] == before[i]
        {
          OtherPlace(headIdx, i);
        }
        assert Contents() == [layer.(qty := layer.qty - take)] + before[1..];
      }
    }

    /** Take `qty` units from the oldest layers, moving the head past each
        layer that empties. */
    method ConsumeFromHead(qty: int) returns (totalCost: int, consumed: seq<Slice>, shortage: int)
      requires Valid()
      modifies this`head, this`nLayers, layers
      ensures Valid()
      ensures Consume(old(Contents()), qty) == Walk(Contents(), consumed, shortage)
      ensures totalCost == SatCost(consumed)
      ensures Pending() == old(Pending())
    {
      hide Consume, SatCost, After;
      NothingTaken(Contents(), qty);
      var remaining := qty;
      totalCost := 0;
      consumed := [];
      ghost var all, cur := Consume(Contents(), qty), Contents();
      while remaining > 0 && nLayers > 0
        invariant Valid() && cur == Contents()
        invariant totalCost == SatCost(consumed)
        invariant all == After(consumed, Consume(cur, remaining))
        invariant Pending() == old(Pending())
        decreases nLayers, remaining
      {
        var layer := layers[head];
        assert cur[0] == layer;
        var take := Min(remaining, layer.qty);
        totalCost := Sat(totalCost + Sat(take * layer.unitCost));
        SatCostAppend(consumed, Slice(layer.layerId, take, layer.unitCost));
        ConsumeOneMore(consumed, cur, remaining);
        consumed := consumed + [Slice(layer.layerId, take, layer.unitCost)];
        TakeFromHead(take);
        cur := DropHead(cur, take);
        remaining := remaining - take;
      }
      shortage := remaining;
      NoMoreTaken(consumed, cur, remaining);
    }

    static lemma NothingTaken(ls: seq<Layer>, qty: int)
      ensures After([], Consume(ls, qty)) == Consume(ls, qty) && SatCost([]) == 0
    {
    }

    static lemma NoMoreTaken(taken: seq<Slice>, ls: seq<Layer>, qty: int)
      requires qty <= 0 || ls == []
      ensures After(taken, Consume(ls, qty)) == Walk(ls, taken, qty)
    {
      assert Consume(ls, qty) == Walk(ls, [], qty);
    }
  }
}

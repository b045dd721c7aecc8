/**
  What the issues of h_batch_fifo.rs cost, told from the layers' residuals before and
  after instead of from the rows: the cost of an issue is, layer by layer, the quantity
  that left the layer times the layer's unit cost.
*/
module HIssueCosts {
  import opened Int64
  import opened HIssues

  /** What left layers `i` and on, valued at their unit costs. */
  function Value(layers: seq<LayerRef>, was: seq<int>, now: seq<int>, i: nat): int
    requires |was| == |now| == |layers| && i <= |layers|
    decreases |layers| - i
  {
    if i == |layers| then 0
    else (was[i] - now[i]) * layers[i].unitCost + Value(layers, was, now, i + 1)
  }

  /** What left layers `i` and on. */
  function Quantity(was: seq<int>, now: seq<int>, i: nat): int
    requires |was| == |now| && i <= |was|
    decreases |was| - i
  {
    if i == |was| then 0 else was[i] - now[i] + Quantity(was, now, i + 1)
  }

  lemma {:induction false} SameBeyond(layers: seq<LayerRef>, was: seq<int>, also: seq<int>, now: seq<int>, i: nat)
    requires |was| == |also| == |now| == |layers| && i <= |layers| && was[i..] == also[i..]
    ensures Value(layers, was, now, i) == Value(layers, also, now, i)
    ensures Quantity(was, now, i) == Quantity(also, now, i)
    decreases |layers| - i
  {
    if i < |layers| {
      assert was[i] == was[i..][0] == also[i];
      assert was[i + 1..] == was[i..][1..] == also[i + 1..];
      SameBeyond(layers, was, also, now, i + 1);
    }
  }

  lemma {:induction false} NothingLeft(layers: seq<LayerRef>, cells: seq<int>, i: nat)
    requires |cells| == |layers| && i <= |layers|
    ensures Value(layers, cells, cells, i) == 0 && Quantity(cells, cells, i) == 0
    decreases |layers| - i
  {
    if i < |layers| {
      NothingLeft(layers, cells, i + 1);
    }
  }

  /** The row prices what it took at its layer's unit cost. */
  ghost predicate Priced(layers: seq<LayerRef>, row: Depletion, j: nat) {
    j < |layers| && row.layerId == layers[j].id && row.qty > 0
    && (row.cost - row.qty * layers[j].unitCost) % TWO_64 == 0 && InI64(row.cost)
  }

  lemma {:induction false} CostOfCons(row: Depletion, rows: seq<Depletion>)
    ensures CostOf([row] + rows) == Wrap(row.cost + CostOf(rows))
  {
    hide Wrap;
    if rows == [] {
      assert [row] + rows == [row] && [row][..0] == [];
      assert CostOf([row]) == Wrap(CostOf([]) + row.cost);
    } else {
      hide CostOf;
      var n := |rows| - 1;
      CostOfCons(row, rows[..n]);
      assert ([row] + rows)[..n + 1] == [row] + rows[..n];
      CostOfLast([row] + rows);
      CostOfLast(rows);
      WrapAdd(row.cost + CostOf(rows[..n]), rows[n].cost);
      WrapAdd(CostOf(rows[..n]) + rows[n].cost, row.cost);
    }
  }

  lemma CostOfLast(rows: seq<Depletion>)
    requires rows != []
    ensures CostOf(rows) == Wrap(CostOf(rows[..|rows| - 1]) + rows[|rows| - 1].cost)
  {
  }

  /** The rows price what left the layers from `i` on, and add up to the quantity met. */
  ghost predicate PricedWalk(layers: seq<LayerRef>, cells: seq<int>, i: nat, issue: nat, remaining: int, w: Walked) {
    && |cells| == |w.cells| == |layers| && i <= |layers|
    && CostOf(w.rows) == Wrap(Value(layers, cells, w.cells, i))
    && Quantity(cells, w.cells, i) == remaining - w.remaining
    && RowsPriced(layers, w.rows, issue)
  }

  ghost predicate RowsPriced(layers: seq<LayerRef>, rows: seq<Depletion>, issue: nat) {
    forall k :: 0 <= k < |rows| ==> rows[k].issue == issue && HasPrice(layers, rows[k])
  }

  ghost predicate HasPrice(layers: seq<LayerRef>, row: Depletion) {
    exists j: nat :: Priced(layers, row, j)
  }

  lemma {:induction false} WalkIsPriced(layers: seq<LayerRef>, cells: seq<int>, i: nat, issue: nat, remaining: int)
    requires |cells| == |layers| && i <= |layers| && remaining >= 0
    ensures PricedWalk(layers, cells, i, issue, remaining, WalkFrom(layers, cells, i, issue, remaining))
    decreases |layers| - i
  {
    hide PricedWalk, LineCost, WalkFrom;
    if remaining <= 0 || i == |layers| {
      NothingIsPriced(layers, cells, i, issue, remaining);
    } else {
      var take := Take(cells[i], remaining);
      var now := cells[i := cells[i] - take];
      var w := WalkFrom(layers, now, i + 1, issue, remaining - take);
      WalkNext(layers, cells, i, issue, remaining);
      WalkFrame(layers, now, i + 1, issue, remaining - take, i);
      WalkIsPriced(layers, now, i + 1, issue, remaining - take);
      hide Take;
      if take == 0 {
        assert now == cells;
        SkipIsPriced(layers, cells, i, issue, remaining, w);
      } else {
        var row := Depletion(layers[i].id, issue, take, LineCost(take, layers[i].unitCost));
        TakeIsPriced(layers, cells, i, issue, remaining, take, w, row, WalkFrom(layers, cells, i, issue, remaining));
      }
    }
  }

  lemma NothingIsPriced(layers: seq<LayerRef>, cells: seq<int>, i: nat, issue: nat, remaining: int)
    requires |cells| == |layers| && i <= |layers| && (remaining <= 0 || i == |layers|)
    ensures PricedWalk(layers, cells, i, issue, remaining, WalkFrom(layers, cells, i, issue, remaining))
  {
    NothingLeft(layers, cells, i);
  }

  lemma ValueNext(layers: seq<LayerRef>, was: seq<int>, now: seq<int>, i: nat)
    requires |was| == |now| == |layers| && i < |layers|
    ensures var left := was[i] - now[i];
            && Value(layers, was, now, i) == left * layers[i].unitCost + Value(layers, was, now, i + 1)
            && Quantity(was, now, i) == left + Quantity(was, now, i + 1)
  {
  }

  lemma SkipIsPriced(layers: seq<LayerRef>, cells: seq<int>, i: nat, issue: nat, remaining: int, w: Walked)
    requires i < |layers| && PricedWalk(layers, cells, i + 1, issue, remaining, w) && w.cells[i] == cells[i]
    ensures PricedWalk(layers, cells, i, issue, remaining, w)
  {
    hide RowsPriced, CostOf, Wrap, Value, Quantity;
    ValueNext(layers, cells, w.cells, i);
    assert (cells[i] - w.cells[i]) * layers[i].unitCost == 0;
  }

  lemma OneRowMore(layers: seq<LayerRef>, row: Depletion, rows: seq<Depletion>, issue: nat, j: nat)
    requires RowsPriced(layers, rows, issue) && row.issue == issue && Priced(layers, row, j)
    ensures RowsPriced(layers, [row] + rows, issue)
  {
    assert HasPrice(layers, row);
    hide HasPrice;
    forall k | 0 <= k < |[row] + rows|
      ensures ([row] + rows)[k].issue == issue && HasPrice(layers, ([row] + rows)[k])
    {
      if k > 0 {
        assert ([row] + rows)[k] == rows[k - 1];
      }
    }
  }

  lemma TakeIsPriced(layers: seq<LayerRef>, cells: seq<int>, i: nat, issue: nat, remaining: int, take: int, w: Walked,
                     row: Depletion, more: Walked)
    requires |cells| == |layers| && i < |layers| && take > 0
    requires row == Depletion(layers[i].id, issue, take, LineCost(take, layers[i].unitCost))
    requires PricedWalk(layers, cells[i := cells[i] - take], i + 1, issue, remaining - take, w)
    requires w.cells[i] == cells[i] - take
    requires more.cells == w.cells && more.remaining == w.remaining && more.rows == [row] + w.rows
    ensures PricedWalk(layers, cells, i, issue, remaining, more)
  {
    var now := cells[i := cells[i] - take];
    assert Priced(layers, row, i);
    assert row.cost == Wrap(take * layers[i].unitCost);
    hide LineCost, RowsPriced, CostOf, Wrap, Value, Quantity;
    OneRowMore(layers, row, w.rows, issue, i);
    SameBeyond(layers, cells, now, w.cells, i + 1);
    ValueNext(layers, cells, w.cells, i);
    CostOfCons(row, w.rows);
    var cost, rest := take * layers[i].unitCost, Value(layers, now, w.cells, i + 1);
    WrapTwice(cost, rest);
    assert cells[i] - w.cells[i] == take;
    assert Value(layers, cells, w.cells, i) == cost + rest;
    assert CostOf([row] + w.rows) == Wrap(Wrap(cost) + Wrap(rest));
  }

  lemma WrapTwice(a: int, b: int)
    ensures Wrap(Wrap(a) + Wrap(b)) == Wrap(a + b)
  {
    hide Wrap;
    WrapAdd(a, Wrap(b));
    WrapAdd(b, a);
  }

  lemma {:induction false} PrefixIsDone(layers: seq<LayerRef>, cells: seq<int>, issues: seq<int>, n: nat)
    requires |cells| == |layers| && n <= |issues| && Plain(layers, cells, issues).Done?
    ensures Plain(layers, cells, issues[..n]).Done?
    ensures var p, q := Plain(layers, cells, issues[..n]).batch, Plain(layers, cells, issues).batch;
            |p.consumed| == n && p.consumed <= q.consumed
  {
    hide WalkFrom, CostOf, Weighted;
    if n == |issues| {
      assert issues[..n] == issues;
      ConsumedLength(layers, cells, issues);
    } else {
      assert issues[..|issues| - 1][..n] == issues[..n];
      PrefixIsDone(layers, cells, issues[..|issues| - 1], n);
    }
  }

  lemma {:induction false} ConsumedLength(layers: seq<LayerRef>, cells: seq<int>, issues: seq<int>)
    requires |cells| == |layers| && Plain(layers, cells, issues).Done?
    ensures |Plain(layers, cells, issues).batch.consumed| == |issues|
  {
    hide WalkFrom, CostOf, Weighted;
    if issues != [] {
      ConsumedLength(layers, cells, issues[..|issues| - 1]);
    }
  }

  /** The issue takes its whole quantity, and its consumption row carries the average
      unit cost of what left the layers, rounded towards zero. */
  ghost predicate Averaged(layers: seq<LayerRef>, was: seq<int>, now: seq<int>, qty: int, unitCost: int)
    requires |was| == |now| == |layers|
  {
    && Quantity(was, now, 0) == qty
    && (0 <= Value(layers, was, now, 0) <= I64_MAX ==> 0 <= Value(layers, was, now, 0) - qty * unitCost < qty)
  }

  lemma WeightedIsAverage(cost: int, qty: int)
    requires cost >= 0 && qty > 0
    ensures 0 <= cost - qty * Weighted(cost, qty) < qty
  {
  }

  lemma LastIsAveraged(layers: seq<LayerRef>, cells: seq<int>, issues: seq<int>)
    requires |cells| == |layers| && issues != [] && Plain(layers, cells, issues).Done? && issues[|issues| - 1] > 0
    requires Plain(layers, cells, issues[..|issues| - 1]).Done?
    ensures var n, b := |issues| - 1, Plain(layers, cells, issues).batch;
            var was := Plain(layers, cells, issues[..n]).batch;
            && |b.consumed| == |was.consumed| + 1
            && var c := b.consumed[|was.consumed|];
               c.issue == n && c.qty == issues[n] && Averaged(layers, was.cells, b.cells, issues[n], c.unitCost)
  {
    var n := |issues| - 1;
    var was := Plain(layers, cells, issues[..n]).batch;
    var w := WalkFrom(layers, was.cells, 0, n, issues[n]);
    WalkIsPriced(layers, was.cells, 0, n, issues[n]);
    NeverOver(layers, was.cells, 0, n, issues[n]);
    hide WalkFrom, CostOf, Weighted, Value, Quantity, Priced, Wrap;
    var cost := Value(layers, was.cells, w.cells, 0);
    if 0 <= cost <= I64_MAX {
      WeightedIsAverage(cost, issues[n]);
    }
  }

  lemma {:induction false} NeverOver(layers: seq<LayerRef>, cells: seq<int>, i: nat, issue: nat, remaining: int)
    requires |cells| == |layers| && i <= |layers| && remaining >= 0
    ensures WalkFrom(layers, cells, i, issue, remaining).remaining >= 0
    decreases |layers| - i
  {
    if remaining > 0 && i < |layers| {
      var take := Take(cells[i], remaining);
      NeverOver(layers, cells[i := cells[i] - take], i + 1, issue, remaining - take);
      if take == 0 {
        assert cells[i := cells[i]] == cells;
      }
    }
  }

  /** In every batch that goes through, issue `n` takes its quantity from the layers as
      the issues before it left them, and its consumption row is at their average cost. */
  lemma ConsumptionsArePriced(layers: seq<LayerRef>, cells: seq<int>, issues: seq<int>, n: nat)
    requires |cells| == |layers| && n < |issues| && Plain(layers, cells, issues).Done? && issues[n] > 0
    ensures var consumed := Plain(layers, cells, issues).batch.consumed;
            var before, after := Plain(layers, cells, issues[..n]), Plain(layers, cells, issues[..n + 1]);
            && |consumed| == |issues| && consumed[n].issue == n && consumed[n].qty == issues[n]
            && before.Done? && after.Done?
            && Averaged(layers, before.batch.cells, after.batch.cells, issues[n], consumed[n].unitCost)
  {
    hide WalkFrom, CostOf, Weighted, Averaged, Plain;
    PrefixIsDone(layers, cells, issues, n);
    PrefixIsDone(layers, cells, issues, n + 1);
    ConsumedLength(layers, cells, issues);
    var upTo := issues[..n + 1];
    assert upTo[..n] == issues[..n] && upTo[n] == issues[n];
    LastIsAveraged(layers, cells, upTo);
  }

  /** Every depletion row of a batch names a layer of the group, an issue of the batch,
      and the layer's unit cost times the quantity, in 64-bit arithmetic. */
  lemma {:induction false} RowsArePriced(layers: seq<LayerRef>, cells: seq<int>, issues: seq<int>, k: nat)
    requires |cells| == |layers| && Plain(layers, cells, issues).Done?
    requires forall n :: 0 <= n < |issues| ==> issues[n] > 0
    requires k < |Plain(layers, cells, issues).batch.rows|
    ensures var row := Plain(layers, cells, issues).batch.rows[k];
            row.issue < |issues| && HasPrice(layers, row)
  {
    hide WalkFrom, CostOf, Weighted, HasPrice;
    var n := |issues| - 1;
    var was := Plain(layers, cells, issues[..n]).batch;
    if k < |was.rows| {
      RowsArePriced(layers, cells, issues[..n], k);
    } else {
      WalkIsPriced(layers, was.cells, 0, n, issues[n]);
    }
  }
}

/**
  The issue walk of h_batch_fifo.rs, Phase 4, for one layer group and without
  interference: all issues of the group share one cursor over the group's layers. The
  walk is proved equal to the plain one that starts every issue at the first layer.
*/
module HIssues {
  import opened Int64
  import opened LayerRing

  datatype LayerRef = LayerRef(id: int, unitCost: int)
  datatype Depletion = Depletion(layerId: int, issue: nat, qty: int, cost: int)
  datatype Consumption = Consumption(issue: nat, qty: int, unitCost: int)

  /** What `h_layer_decrement` takes from a residual. */
  function Take(residual: int, requested: int): int {
    if requested <= 0 || residual <= 0 then 0 else Min(residual, requested)
  }

  function LineCost(qty: int, unitCost: int): int {
    Wrap(qty * unitCost)
  }

  datatype Walked = Walked(cells: seq<int>, rows: seq<Depletion>, remaining: int)

  /** One issue from layer `i` on: take what each layer has until the issue is met. */
  function WalkFrom(layers: seq<LayerRef>, cells: seq<int>, i: nat, issue: nat, remaining: int): (w: Walked)
    requires |cells| == |layers| && i <= |layers|
    ensures |w.cells| == |layers|
    decreases |layers| - i
  {
    if remaining <= 0 || i == |layers| then Walked(cells, [], remaining)
    else
      var take := Take(cells[i], remaining);
      if take == 0 then WalkFrom(layers, cells, i + 1, issue, remaining)
      else
        var w := WalkFrom(layers, cells[i := cells[i] - take], i + 1, issue, remaining - take);
        w.(rows := [Depletion(layers[i].id, issue, take, LineCost(take, layers[i].unitCost))] + w.rows)
  }

  /** The walk one layer further on; a layer that gives nothing adds no row. */
  lemma WalkNext(layers: seq<LayerRef>, cells: seq<int>, i: nat, issue: nat, remaining: int)
    requires |cells| == |layers| && i < |layers| && remaining > 0
    ensures var take := Take(cells[i], remaining);
            var w := WalkFrom(layers, cells, i, issue, remaining);
            var next := WalkFrom(layers, cells[i := cells[i] - take], i + 1, issue, remaining - take);
            && w.cells == next.cells && w.remaining == next.remaining
            && w.rows == if take == 0 then next.rows
                         else [Depletion(layers[i].id, issue, take, LineCost(take, layers[i].unitCost))] + next.rows
  {
    hide LineCost, Take;
    if Take(cells[i], remaining) == 0 {
      assert cells[i := cells[i]] == cells;
    }
  }

  function CostOf(rows: seq<Depletion>): int {
    if rows == [] then 0 else Wrap(CostOf(rows[..|rows| - 1]) + rows[|rows| - 1].cost)
  }

  datatype Batch = Batch(cells: seq<int>, rows: seq<Depletion>, consumed: seq<Consumption>)
  datatype Outcome = Done(batch: Batch) | Short(issue: nat, shortage: int)

  /** The plain walk: every issue starts at the first layer. */
  function Plain(layers: seq<LayerRef>, cells: seq<int>, issues: seq<int>): (o: Outcome)
    requires |cells| == |layers|
    ensures o.Done? ==> |o.batch.cells| == |layers|
  {
    if issues == [] then Done(Batch(cells, [], []))
    else
      var n := |issues| - 1;
      var o := Plain(layers, cells, issues[..n]);
      if o.Short? then o
      else
        var w := WalkFrom(layers, o.batch.cells, 0, n, issues[n]);
        if w.remaining > 0 then Short(n, w.remaining)
        else
          Done(Batch(w.cells, o.batch.rows + w.rows,
                     o.batch.consumed + [Consumption(n, issues[n], Weighted(CostOf(w.rows), issues[n]))]))
  }

  /** `total_cost / qty`. */
  function Weighted(cost: int, qty: int): int {
    if qty > 0 then TruncDiv(cost, qty) else 0
  }

  ghost predicate Drained(cells: seq<int>, cursor: nat) {
    cursor <= |cells| && forall i :: 0 <= i < cursor ==> cells[i] <= 0
  }

  /** Drained layers at the front contribute nothing. */
  lemma {:induction false} SkipDrained(layers: seq<LayerRef>, cells: seq<int>, cursor: nat, issue: nat, remaining: int)
    requires |cells| == |layers| && Drained(cells, cursor) && remaining > 0
    ensures WalkFrom(layers, cells, 0, issue, remaining) == WalkFrom(layers, cells, cursor, issue, remaining)
  {
    if cursor > 0 {
      SkipDrained(layers, cells, cursor - 1, issue, remaining);
    }
  }

  /** The rows and cells one more take adds, read from the end of the walk. */
  ghost predicate Ahead(layers: seq<LayerRef>, issue: nat, start: Walked, cells: seq<int>, rows: seq<Depletion>,
                        cursor: nat, remaining: int)
  {
    && |cells| == |layers| && cursor <= |layers|
    && var w := WalkFrom(layers, cells, cursor, issue, remaining);
       start == Walked(w.cells, rows + w.rows, w.remaining)
  }

  lemma AheadSkip(layers: seq<LayerRef>, issue: nat, start: Walked, cells: seq<int>, rows: seq<Depletion>,
                  cursor: nat, remaining: int)
    requires Ahead(layers, issue, start, cells, rows, cursor, remaining) && remaining > 0
    requires cursor < |layers| && Take(cells[cursor], remaining) == 0
    ensures Ahead(layers, issue, start, cells, rows, cursor + 1, remaining)
  {
  }

  lemma AheadTake(layers: seq<LayerRef>, issue: nat, start: Walked, cells: seq<int>, rows: seq<Depletion>,
                  cursor: nat, remaining: int)
    requires Ahead(layers, issue, start, cells, rows, cursor, remaining) && remaining > 0
    requires cursor < |layers| && Take(cells[cursor], remaining) > 0
    ensures var take := Take(cells[cursor], remaining);
            var row := Depletion(layers[cursor].id, issue, take, LineCost(take, layers[cursor].unitCost));
            Ahead(layers, issue, start, cells[cursor := cells[cursor] - take], rows + [row], cursor + 1,
                  remaining - take)
  {
    var take := Take(cells[cursor], remaining);
    var row := Depletion(layers[cursor].id, issue, take, LineCost(take, layers[cursor].unitCost));
    var w := WalkFrom(layers, cells[cursor := cells[cursor] - take], cursor + 1, issue, remaining - take);
    assert rows + ([row] + w.rows) == rows + [row] + w.rows;
  }

  lemma AheadDone(layers: seq<LayerRef>, issue: nat, start: Walked, cells: seq<int>, rows: seq<Depletion>,
                  cursor: nat, remaining: int)
    requires Ahead(layers, issue, start, cells, rows, cursor, remaining)
    requires remaining <= 0 || cursor == |layers|
    ensures start == Walked(cells, rows, remaining)
  {
    assert rows + [] == rows;
  }

  /** A walk that has met its issue does not care where it stands. */
  lemma AheadMet(layers: seq<LayerRef>, issue: nat, start: Walked, cells: seq<int>, rows: seq<Depletion>,
                 cursor: nat, remaining: int)
    requires Ahead(layers, issue, start, cells, rows, cursor + 1, remaining) && remaining <= 0
    ensures Ahead(layers, issue, start, cells, rows, cursor, remaining)
  {
  }

  /** The inner loop: one issue from the shared cursor. */
  method IssueOne(layers: seq<LayerRef>, cells: seq<int>, cursor: nat, issue: nat, qty: int)
    returns (cells': seq<int>, cursor': nat, rows: seq<Depletion>, totalCost: int, remaining: int)
    requires |cells| == |layers| && Drained(cells, cursor)
    ensures |cells'| == |layers| && Drained(cells', cursor')
    ensures WalkFrom(layers, cells, 0, issue, qty) == Walked(cells', rows, remaining)
    ensures totalCost == CostOf(rows)
  {
    cells', cursor', rows, totalCost, remaining := cells, cursor, [], 0, qty;
    ghost var start := WalkFrom(layers, cells, 0, issue, qty);
    if qty <= 0 {
      return;
    }
    SkipDrained(layers, cells, cursor, issue, qty);
    assert Ahead(layers, issue, start, cells', rows, cursor', remaining);
    hide WalkFrom, Ahead;
    while remaining > 0 && cursor' < |layers|
      invariant Ahead(layers, issue, start, cells', rows, cursor', remaining)
      invariant |cells'| == |layers| && Drained(cells', cursor') && totalCost == CostOf(rows)
      decreases |layers| - cursor', remaining
    {
      var requested := remaining;
      var take := Take(cells'[cursor'], requested);
      if take == 0 {
        AheadSkip(layers, issue, start, cells', rows, cursor', remaining);
        cursor' := cursor' + 1;
        continue;
      }
      AheadTake(layers, issue, start, cells', rows, cursor', remaining);
      var row := Depletion(layers[cursor'].id, issue, take, LineCost(take, layers[cursor'].unitCost));
      assert (rows + [row])[..|rows|] == rows;
      cells' := cells'[cursor' := cells'[cursor'] - take];
      rows := rows + [row];
      remaining := remaining - take;
      totalCost := Wrap(totalCost + row.cost);
      if take < requested {
        cursor' := cursor' + 1;
      } else {
        AheadMet(layers, issue, start, cells', rows, cursor', remaining);
      }
    }
    AheadDone(layers, issue, start, cells', rows, cursor', remaining);
  }

  /** The outer loop: the issues of one group in order. */
  method IssueGroup(layers: seq<LayerRef>, cells: seq<int>, issues: seq<int>) returns (o: Outcome)
    requires |cells| == |layers|
    ensures o == Plain(layers, cells, issues)
  {
    var cursor, now, rows, consumed := 0, cells, [], [];
    for n := 0 to |issues|
      invariant |now| == |layers| && Drained(now, cursor)
      invariant Plain(layers, cells, issues[..n]) == Done(Batch(now, rows, consumed))
    {
      var cells', cursor', more, cost, remaining := IssueOne(layers, now, cursor, n, issues[n]);
      assert issues[..n + 1][..n] == issues[..n];
      hide WalkFrom, CostOf;
      if remaining > 0 {
        StaysShort(layers, cells, issues, n + 1);
        return Short(n, remaining);
      }
      now, cursor, rows := cells', cursor', rows + more;
      consumed := consumed + [Consumption(n, issues[n], Weighted(cost, issues[n]))];
    }
    assert issues[..|issues|] == issues;
    o := Done(Batch(now, rows, consumed));
  }

  lemma {:induction false} StaysShort(layers: seq<LayerRef>, cells: seq<int>, issues: seq<int>, n: nat)
    requires |cells| == |layers| && n <= |issues| && Plain(layers, cells, issues[..n]).Short?
    ensures Plain(layers, cells, issues) == Plain(layers, cells, issues[..n])
  {
    if n == |issues| {
      assert issues[..n] == issues;
    } else {
      assert issues[..|issues| - 1][..n] == issues[..n];
      StaysShort(layers, cells, issues[..|issues| - 1], n);
    }
  }

  // ---- Oldest units first ---------------------------------------------------

  /** The group's layers from `i` on that still hold stock, oldest first. */
  function Stock(layers: seq<LayerRef>, cells: seq<int>, i: nat): (r: seq<Layer>)
    requires |cells| == |layers| && i <= |layers|
    ensures Positive(r)
    decreases |layers| - i
  {
    if i == |layers| then []
    else if cells[i] <= 0 then Stock(layers, cells, i + 1)
    else [Layer(cells[i], layers[i].unitCost, layers[i].id)] + Stock(layers, cells, i + 1)
  }

  function RowsOf(slices: seq<Slice>, issue: nat): seq<Depletion> {
    if slices == [] then []
    else
      [Depletion(slices[0].layerId, issue, slices[0].qtyConsumed, LineCost(slices[0].qtyConsumed, slices[0].unitCost))]
      + RowsOf(slices[1..], issue)
  }

  lemma {:induction false} StockFrame(layers: seq<LayerRef>, cells: seq<int>, i: nat, j: nat, v: int)
    requires |cells| == |layers| && j < i <= |layers|
    ensures Stock(layers, cells[j := v], i) == Stock(layers, cells, i)
    decreases |layers| - i
  {
    if i < |layers| {
      StockFrame(layers, cells, i + 1, j, v);
    }
  }

  /** A walk from `i` on leaves the cells before `i` alone. */
  lemma {:induction false} WalkFrame(layers: seq<LayerRef>, cells: seq<int>, i: nat, issue: nat, remaining: int, j: nat)
    requires |cells| == |layers| && j < i <= |layers|
    ensures WalkFrom(layers, cells, i, issue, remaining).cells[j] == cells[j]
    decreases |layers| - i
  {
    if remaining > 0 && i < |layers| {
      var take := Take(cells[i], remaining);
      if take == 0 {
        WalkFrame(layers, cells, i + 1, issue, remaining, j);
      } else {
        WalkFrame(layers, cells[i := cells[i] - take], i + 1, issue, remaining - take, j);
      }
    }
  }

  /** The walk is the FIFO walk over the layers that hold stock, so LayerRing's unit
      theorem applies to it: an issue takes the oldest units. */
  lemma {:induction false} WalkTakesOldest(layers: seq<LayerRef>, cells: seq<int>, i: nat, issue: nat, remaining: int)
    requires |cells| == |layers| && i <= |layers|
    ensures var w, c := WalkFrom(layers, cells, i, issue, remaining), Consume(Stock(layers, cells, i), remaining);
            && Stock(layers, w.cells, i) == c.rest && w.rows == RowsOf(c.slices, issue) && w.remaining == c.shortage
    decreases |layers| - i
  {
    if remaining > 0 && i < |layers| {
      var take := Take(cells[i], remaining);
      if take == 0 {
        WalkTakesOldest(layers, cells, i + 1, issue, remaining);
        WalkFrame(layers, cells, i + 1, issue, remaining, i);
      } else {
        TakeIsOldest(layers, cells, i, issue, remaining);
      }
    }
  }

  lemma TakeIsOldest(layers: seq<LayerRef>, cells: seq<int>, i: nat, issue: nat, remaining: int)
    requires |cells| == |layers| && i < |layers| && remaining > 0 && cells[i] > 0
    ensures var w, c := WalkFrom(layers, cells, i, issue, remaining), Consume(Stock(layers, cells, i), remaining);
            && Stock(layers, w.cells, i) == c.rest && w.rows == RowsOf(c.slices, issue) && w.remaining == c.shortage
    decreases |layers| - i, 0
  {
    hide LineCost;
    var take := Take(cells[i], remaining);
    var now := cells[i := cells[i] - take];
    var rest := Stock(layers, cells, i + 1);
    var oldest := Layer(cells[i], layers[i].unitCost, layers[i].id);
    assert Stock(layers, cells, i)[1..] == rest;
    StockFrame(layers, cells, i + 1, i, cells[i] - take);
    WalkFrame(layers, now, i + 1, issue, remaining - take, i);
    var slice := Slice(oldest.layerId, take, oldest.unitCost);
    if take == cells[i] {
      WalkTakesOldest(layers, now, i + 1, issue, remaining - take);
      var c := Consume(rest, remaining - take);
      assert ([slice] + c.slices)[1..] == c.slices;
    } else {
      assert [slice][1..] == [];
    }
  }
}

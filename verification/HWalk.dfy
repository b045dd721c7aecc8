/**
  The issue walk of h_batch_fifo.rs on the shared residuals of h_layer_arena.rs: with
  nobody else at the group's layers, the walk of HIssues is a run of the machine of
  HLayers, decrement by decrement.
*/
module HWalk {
  import opened Int64
  import L = HLayers
  import W = HIssues

  ghost predicate GoodIds(layers: seq<W.LayerRef>) {
    && (forall i :: 0 <= i < |layers| ==> layers[i].id > 0)
    && (forall i, j :: 0 <= i < j < |layers| ==> layers[i].id != layers[j].id)
  }

  /** Layer `i` is one the backend may see, and holds `qty`. */
  ghost predicate Cell(s: L.State, b: nat, id: int, qty: int) {
    id > 0 && L.Visible(s, b, id) && id in s.residual && s.residual[id] == qty
  }

  /** The backend is between decrements and the group's layers hold `cells`. */
  ghost predicate Matches(s: L.State, b: nat, layers: seq<W.LayerRef>, cells: seq<int>) {
    && b < |s.backends| && s.backends[b].Running? && |cells| == |layers| && GoodIds(layers)
    && forall i :: 0 <= i < |layers| ==> Cell(s, b, layers[i].id, cells[i])
  }

  function Residual(s: L.State, l: L.LayerId): int {
    if l in s.residual then s.residual[l] else 0
  }

  /** The machine after one undisturbed decrement of layer `i`. */
  ghost function Visit(s: L.State, b: nat, layers: seq<W.LayerRef>, i: nat, remaining: int): L.State
    requires GoodIds(layers) && i < |layers|
  {
    L.Decremented(s, b, layers[i].id, remaining)
  }

  /** What layer `i` lost between two states. */
  ghost function Lost(s: L.State, t: L.State, layers: seq<W.LayerRef>, i: nat): int
    requires GoodIds(layers) && i < |layers|
  {
    Residual(s, layers[i].id) - Residual(t, layers[i].id)
  }

  /** Decrement layer after layer until the issue is met, on the machine itself. */
  ghost function Walk(s: L.State, b: nat, layers: seq<W.LayerRef>, i: nat, remaining: int): L.State
    requires GoodIds(layers) && i <= |layers|
    decreases |layers| - i
  {
    if remaining <= 0 || i == |layers| then s
    else
      var t := Visit(s, b, layers, i, remaining);
      Walk(t, b, layers, i + 1, remaining - Lost(s, t, layers, i))
  }

  /** The machine's events of that walk. */
  ghost function Events(s: L.State, b: nat, layers: seq<W.LayerRef>, i: nat, remaining: int): seq<L.Event>
    requires GoodIds(layers) && i <= |layers|
    decreases |layers| - i
  {
    if remaining <= 0 || i == |layers| then []
    else
      var t := Visit(s, b, layers, i, remaining);
      [L.Load(b, layers[i].id, remaining), L.Swap(b)] + Events(t, b, layers, i + 1, remaining - Lost(s, t, layers, i))
  }

  lemma {:induction false} RunAppend(s: L.State, a: seq<L.Event>, b: seq<L.Event>)
    ensures L.Run(s, a + b) == L.Run(L.Run(s, a), b)
  {
    hide L.Next;
    if b == [] {
      assert a + b == a;
    } else {
      var n := |b| - 1;
      RunAppend(s, a, b[..n]);
      assert (a + b)[..|a + b| - 1] == a + b[..n];
    }
  }

  lemma RunTwo(s: L.State, e: L.Event, f: L.Event)
    ensures L.Run(s, [e, f]) == L.Next(L.Next(s, e), f)
  {
    hide L.Next;
    assert [e, f][..1] == [e] && [e][..0] == [];
    assert L.Run(s, []) == s;
    assert L.Run(s, [e]) == L.Next(s, e);
  }

  lemma {:induction false} WalkIsARun(s: L.State, b: nat, layers: seq<W.LayerRef>, i: nat, remaining: int)
    requires GoodIds(layers) && i <= |layers|
    ensures Walk(s, b, layers, i, remaining) == L.Run(s, Events(s, b, layers, i, remaining))
    decreases |layers| - i
  {
    hide L.Next;
    if remaining > 0 && i < |layers| {
      var e, f := L.Load(b, layers[i].id, remaining), L.Swap(b);
      var t := Visit(s, b, layers, i, remaining);
      var left := remaining - Lost(s, t, layers, i);
      RunTwo(s, e, f);
      WalkIsARun(t, b, layers, i + 1, left);
      RunAppend(s, [e, f], Events(t, b, layers, i + 1, left));
    }
  }

  /** The machine recorded the takes of the rows. */
  ghost predicate SameTakes(items: seq<L.Item>, rows: seq<W.Depletion>) {
    && |items| == |rows|
    && forall i :: 0 <= i < |rows| ==> items[i].layer == rows[i].layerId && -items[i].delta == rows[i].qty
  }

  lemma DecrementMatches(s: L.State, b: nat, layers: seq<W.LayerRef>, cells: seq<int>, i: nat, remaining: int)
    requires Matches(s, b, layers, cells) && i < |layers| && remaining > 0
    ensures var t, take := Visit(s, b, layers, i, remaining), W.Take(cells[i], remaining);
            && Matches(t, b, layers, cells[i := cells[i] - take])
            && Lost(s, t, layers, i) == take
            && var was, now := s.backends[b].applied, t.backends[b].applied;
               if take == 0 then now == was
               else |now| == |was| + 1 && now[..|was|] == was
                    && now[|was|].layer == layers[i].id && -now[|was|].delta == take
  {
    assert Cell(s, b, layers[i].id, cells[i]);
    L.UndisturbedTake(s, b, s.backends[b].applied, layers[i].id, remaining);
    hide L.Decremented;
    var t, take := Visit(s, b, layers, i, remaining), W.Take(cells[i], remaining);
    forall j | 0 <= j < |layers|
      ensures Cell(t, b, layers[j].id, cells[i := cells[i] - take][j])
    {
      assert Cell(s, b, layers[j].id, cells[j]);
    }
  }

  lemma TakesNext(was: seq<L.Item>, now: seq<L.Item>, end: seq<L.Item>, row: W.Depletion, rows: seq<W.Depletion>)
    requires |now| == |was| + 1 && now[..|was|] == was
    requires now[|was|].layer == row.layerId && -now[|was|].delta == row.qty
    requires now <= end && SameTakes(end[|now|..], rows)
    ensures was <= end && SameTakes(end[|was|..], [row] + rows)
  {
    forall i | 0 <= i < |[row] + rows|
      ensures end[|was|..][i].layer == ([row] + rows)[i].layerId && -end[|was|..][i].delta == ([row] + rows)[i].qty
    {
      if i == 0 {
        assert end[|was|] == now[|was|];
      } else {
        assert end[|was|..][i] == end[|now|..][i - 1];
      }
    }
  }

  lemma WalkNext(s: L.State, b: nat, layers: seq<W.LayerRef>, cells: seq<int>, i: nat, remaining: int)
    requires Matches(s, b, layers, cells) && i < |layers| && remaining > 0
    ensures var t, take := Visit(s, b, layers, i, remaining), W.Take(cells[i], remaining);
            Walk(s, b, layers, i, remaining) == Walk(t, b, layers, i + 1, remaining - take)
  {
    hide Visit, Lost, W.Take;
    DecrementMatches(s, b, layers, cells, i, remaining);
  }

  /** From `s` to `t` the machine took what the walk `w` says. */
  ghost predicate TookWhat(s: L.State, t: L.State, b: nat, layers: seq<W.LayerRef>, w: W.Walked)
    requires b < |s.backends| && s.backends[b].Running?
  {
    && Matches(t, b, layers, w.cells)
    && s.backends[b].applied <= t.backends[b].applied
    && SameTakes(t.backends[b].applied[|s.backends[b].applied|..], w.rows)
  }

  lemma OneLayerMore(s: L.State, t: L.State, b: nat, layers: seq<W.LayerRef>, cells: seq<int>, i: nat, issue: nat,
                     remaining: int)
    requires Matches(s, b, layers, cells) && i < |layers| && remaining > 0
    requires var u, take := Visit(s, b, layers, i, remaining), W.Take(cells[i], remaining);
             var now := cells[i := cells[i] - take];
             Matches(u, b, layers, now)
             && TookWhat(u, t, b, layers, W.WalkFrom(layers, now, i + 1, issue, remaining - take))
    ensures TookWhat(s, t, b, layers, W.WalkFrom(layers, cells, i, issue, remaining))
  {
    hide Visit, Lost, W.Take, W.LineCost, Cell, GoodIds, SameTakes, W.WalkFrom;
    DecrementMatches(s, b, layers, cells, i, remaining);
    W.WalkNext(layers, cells, i, issue, remaining);
    var u, take := Visit(s, b, layers, i, remaining), W.Take(cells[i], remaining);
    if take != 0 {
      var row := W.Depletion(layers[i].id, issue, take, W.LineCost(take, layers[i].unitCost));
      TakesNext(s.backends[b].applied, u.backends[b].applied, t.backends[b].applied, row,
                W.WalkFrom(layers, cells[i := cells[i] - take], i + 1, issue, remaining - take).rows);
    }
  }

  lemma NoLayerMore(s: L.State, b: nat, layers: seq<W.LayerRef>, cells: seq<int>, i: nat, issue: nat, remaining: int)
    requires Matches(s, b, layers, cells) && i <= |layers| && (remaining <= 0 || i == |layers|)
    ensures TookWhat(s, s, b, layers, W.WalkFrom(layers, cells, i, issue, remaining))
  {
    hide Cell, GoodIds;
  }

  /** So what HIssues says an issue takes is what the machine takes: the same residuals
      are left, and the same layers give the same quantities in the same order. */
  lemma {:induction false} WalkTakesTheSame(s: L.State, b: nat, layers: seq<W.LayerRef>, cells: seq<int>, i: nat,
                                            issue: nat, remaining: int)
    requires Matches(s, b, layers, cells) && i <= |layers|
    ensures TookWhat(s, Walk(s, b, layers, i, remaining), b, layers,
                     W.WalkFrom(layers, cells, i, issue, remaining))
    decreases |layers| - i
  {
    hide Visit, Lost, W.Take, Cell, GoodIds, TookWhat, W.WalkFrom;
    if remaining <= 0 || i == |layers| {
      NoLayerMore(s, b, layers, cells, i, issue, remaining);
    } else {
      hide Walk;
      DecrementMatches(s, b, layers, cells, i, remaining);
      WalkNext(s, b, layers, cells, i, remaining);
      var u, take := Visit(s, b, layers, i, remaining), W.Take(cells[i], remaining);
      WalkTakesTheSame(u, b, layers, cells[i := cells[i] - take], i + 1, issue, remaining - take);
      OneLayerMore(s, Walk(u, b, layers, i + 1, remaining - take), b, layers, cells, i, issue, remaining);
    }
  }

  /** An issue walked from the first layer by a backend alone is a run of the machine. */
  lemma IssueIsARun(s: L.State, b: nat, layers: seq<W.LayerRef>, cells: seq<int>, issue: nat, qty: int)
    requires Matches(s, b, layers, cells)
    ensures TookWhat(s, L.Run(s, Events(s, b, layers, 0, qty)), b, layers, W.WalkFrom(layers, cells, 0, issue, qty))
  {
    hide TookWhat, L.Run, Walk, Events, W.WalkFrom, GoodIds, Cell;
    WalkIsARun(s, b, layers, 0, qty);
    WalkTakesTheSame(s, b, layers, cells, 0, issue, qty);
  }
}

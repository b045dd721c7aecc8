/**
  The books of the cost layers (fifo.rs): which layer every depletion row of a SuperBatch
  is booked on, for which event, and that the rows of a layer account for exactly what was
  taken from it.
*/
module LayerBooks {
  import opened Collections
  import opened CommitterStep4
  import opened CostMethods
  import opened Int64
  import opened LayerReferences
  import opened Sorting

  /** A layer by its database id, or by the index of its row if it has none yet. */
  datatype Name = ById(id: int) | ByIndex(i: nat)

  function NameOf(l: LayerView): Name {
    match l.index
    case Some(i) => ByIndex(i)
    case None => ById(l.layerId)
  }

  function RowName(d: DepletionRow): Name {
    match d.index
    case Some(i) => ByIndex(i)
    case None => ById(d.layerId)
  }

  /** The quantity the rows book on a layer. */
  function Booked(ds: seq<DepletionRow>, n: Name): int {
    if ds == [] then 0 else (if RowName(ds[0]) == n then ds[0].qty else 0) + Booked(ds[1..], n)
  }

  lemma {:induction false} BookedAppend(a: seq<DepletionRow>, b: seq<DepletionRow>, n: Name)
    ensures Booked(a + b, n) == Booked(a, n) + Booked(b, n)
  {
    hide RowName;
    if a == [] {
      assert a + b == b;
    } else {
      BookedAppend(a[1..], b, n);
      assert (a + b)[1..] == a[1..] + b;
    }
  }

  lemma {:induction false} NothingBooked(ds: seq<DepletionRow>, n: Name)
    requires forall i :: 0 <= i < |ds| ==> RowName(ds[i]) != n
    ensures Booked(ds, n) == 0
  {
    hide RowName;
    if ds != [] {
      NothingBooked(ds[1..], n);
    }
  }

  ghost predicate NamesDiffer(ls: seq<LayerView>) {
    forall i, j :: 0 <= i < j < |ls| ==> NameOf(ls[i]) != NameOf(ls[j])
  }

  ghost predicate Names(ls: seq<LayerView>, n: Name, unitCost: int) {
    exists i :: 0 <= i < |ls| && NameOf(ls[i]) == n && ls[i].unitCost == unitCost
  }

  // ---- one walk ---------------------------------------------------------------

  /** The row names a layer of the walk at its cost, and the event it was made for. */
  ghost predicate RowFits(ls: seq<LayerView>, e: Event, d: DepletionRow) {
    && Names(ls, RowName(d), d.unitCost) && d.key == KeyOf(e)
    && d.issueId == e.issueId && d.at == e.at && d.corr == e.corr
  }

  /** Layers keep their names and costs, and lose exactly what is booked on them. */
  ghost predicate Walked(ls: seq<LayerView>, ts: seq<LayerView>, ds: seq<DepletionRow>, e: Event) {
    && |ts| == |ls|
    && (forall i :: 0 <= i < |ls| ==>
          && ts[i].index == ls[i].index && ts[i].layerId == ls[i].layerId && ts[i].unitCost == ls[i].unitCost
          && ls[i].qty - ts[i].qty == Booked(ds, NameOf(ls[i])))
    && (forall i :: 0 <= i < |ds| ==> RowFits(ls, e, ds[i]))
  }

  lemma WalkedElsewhere(ls: seq<LayerView>, ts: seq<LayerView>, ds: seq<DepletionRow>, e: Event, n: Name)
    requires Walked(ls, ts, ds, e) && forall i :: 0 <= i < |ls| ==> NameOf(ls[i]) != n
    ensures Booked(ds, n) == 0
  {
    hide NameOf, RowName;
    forall i | 0 <= i < |ds|
      ensures RowName(ds[i]) != n
    {
      assert RowFits(ls, e, ds[i]);
    }
    NothingBooked(ds, n);
  }

  lemma NamesMore(l: LayerView, rest: seq<LayerView>, n: Name, unitCost: int)
    requires Names(rest, n, unitCost)
    ensures Names([l] + rest, n, unitCost)
  {
    hide NameOf;
    var i :| 0 <= i < |rest| && NameOf(rest[i]) == n && rest[i].unitCost == unitCost;
    assert ([l] + rest)[i + 1] == rest[i];
  }

  lemma FirstDiffers(l: LayerView, rest: seq<LayerView>)
    requires NamesDiffer([l] + rest)
    ensures forall i :: 0 <= i < |rest| ==> NameOf(rest[i]) != NameOf(l)
  {
    hide NameOf;
    var ls := [l] + rest;
    forall i | 0 <= i < |rest|
      ensures NameOf(rest[i]) != NameOf(l)
    {
      assert NameOf(ls[0]) != NameOf(ls[i + 1]);
    }
  }

  /** A walk that leaves the first layer alone. */
  lemma WalkedSkip(l: LayerView, rest: seq<LayerView>, ts: seq<LayerView>, ds: seq<DepletionRow>, e: Event)
    requires NamesDiffer([l] + rest) && Walked(rest, ts, ds, e)
    ensures Walked([l] + rest, [l] + ts, ds, e)
  {
    hide NameOf, RowName, Names, Booked;
    var ls := [l] + rest;
    FirstDiffers(l, rest);
    WalkedElsewhere(rest, ts, ds, e, NameOf(l));
    hide NamesDiffer;
    forall i | 0 <= i < |ds|
      ensures RowFits(ls, e, ds[i])
    {
      assert RowFits(rest, e, ds[i]);
      NamesMore(l, rest, RowName(ds[i]), ds[i].unitCost);
    }
    forall i | 0 <= i < |ls|
      ensures var us := [l] + ts;
              && us[i].index == ls[i].index && us[i].layerId == ls[i].layerId && us[i].unitCost == ls[i].unitCost
              && ls[i].qty - us[i].qty == Booked(ds, NameOf(ls[i]))
    {
      if i > 0 {
        assert ls[i] == rest[i - 1] && ([l] + ts)[i] == ts[i - 1];
        assert rest[i - 1].qty - ts[i - 1].qty == Booked(ds, NameOf(rest[i - 1]));
      }
    }
  }

  lemma DepletionFits(l: LayerView, rest: seq<LayerView>, e: Event, take: int)
    ensures var d := Depletion(l, e, take); RowName(d) == NameOf(l) && d.qty == take && RowFits([l] + rest, e, d)
  {
    assert ([l] + rest)[0] == l;
  }

  /** A walk that takes from the first layer and goes on. */
  lemma WalkedTake(l: LayerView, rest: seq<LayerView>, ts: seq<LayerView>, ds: seq<DepletionRow>, e: Event, take: int)
    requires NamesDiffer([l] + rest) && Walked(rest, ts, ds, e)
    ensures Walked([l] + rest, [l.(qty := l.qty - take)] + ts, [Depletion(l, e, take)] + ds, e)
  {
    var ls, us, d := [l] + rest, [l.(qty := l.qty - take)] + ts, Depletion(l, e, take);
    DepletionFits(l, rest, e, take);
    WalkedSkip(l, rest, ts, ds, e);
    FirstDiffers(l, rest);
    hide NameOf, RowName, Names, Depletion, RowFits, NamesDiffer;
    assert ([d] + ds)[1..] == ds;
    forall i | 0 <= i < |ls|
      ensures us[i].index == ls[i].index && us[i].layerId == ls[i].layerId && us[i].unitCost == ls[i].unitCost
      ensures ls[i].qty - us[i].qty == Booked([d] + ds, NameOf(ls[i]))
    {
      assert ls[i].qty - ([l] + ts)[i].qty == Booked(ds, NameOf(ls[i]));
      if i > 0 {
        assert us[i] == ([l] + ts)[i] && ls[i] == rest[i - 1];
      }
    }
    forall i | 0 <= i < |[d] + ds|
      ensures RowFits(ls, e, ([d] + ds)[i])
    {
      if i > 0 {
        assert ([d] + ds)[i] == ds[i - 1];
      }
    }
  }

  lemma WalkedNothing(ls: seq<LayerView>, e: Event)
    ensures Walked(ls, ls, [], e)
  {
  }

  lemma {:induction false} TakeBooks(ls: seq<LayerView>, remaining: int, cost: int, e: Event)
    requires NamesDiffer(ls)
    ensures var t := TakeLayers(ls, remaining, cost, e); !t.overflow ==> Walked(ls, t.layers, t.rows, e)
    decreases |ls|
  {
    hide Walked, NameOf, InI64, Depletion;
    if ls == [] || remaining == 0 {
      WalkedNothing(ls, e);
    } else {
      var l, rest := ls[0], ls[1..];
      assert ls == [l] + rest;
      if l.qty <= 0 {
        TakeBooks(rest, remaining, cost, e);
        var t := TakeLayers(rest, remaining, cost, e);
        if !t.overflow {
          WalkedSkip(l, rest, t.layers, t.rows, e);
        }
      } else {
        var take := Min(remaining, l.qty);
        var p := take * l.unitCost;
        if InI64(p) && InI64(cost + p) {
          TakeBooks(rest, remaining - take, cost + p, e);
          var t := TakeLayers(rest, remaining - take, cost + p, e);
          if !t.overflow {
            WalkedTake(l, rest, t.layers, t.rows, e, take);
          }
        }
      }
    }
  }

  lemma MetTakesNothing(ls: seq<LayerView>, cost: int, e: Event)
    ensures TakeLayers(ls, 0, cost, e).layers == ls
  {
  }

  /** The walk takes the oldest first: it takes from a layer only once those before it are
      empty. */
  lemma {:induction false} TakesOldestFirst(ls: seq<LayerView>, remaining: int, cost: int, e: Event, i: nat, j: nat)
    requires i < j < |ls| && remaining >= 0
    ensures var ts := TakeLayers(ls, remaining, cost, e).layers;
            |ts| == |ls| && (ts[j].qty != ls[j].qty ==> ts[i].qty <= 0)
    decreases |ls|
  {
    hide InI64, Depletion;
    if remaining > 0 {
      var l, rest := ls[0], ls[1..];
      var take := if l.qty <= 0 then 0 else Min(remaining, l.qty);
      var now := if l.qty <= 0 then cost else cost + take * l.unitCost;
      TakeLength(rest, remaining - take, now, e);
      if i > 0 {
        TakesOldestFirst(rest, remaining - take, now, e, i - 1, j - 1);
      } else if remaining == take {
        MetTakesNothing(rest, now, e);
      }
    }
  }

  lemma {:induction false} TakeLength(ls: seq<LayerView>, remaining: int, cost: int, e: Event)
    ensures |TakeLayers(ls, remaining, cost, e).layers| == |ls|
    decreases |ls|
  {
    hide InI64, Depletion;
    if ls != [] && remaining != 0 {
      if ls[0].qty <= 0 {
        TakeLength(ls[1..], remaining, cost, e);
      } else {
        var take := Min(remaining, ls[0].qty);
        TakeLength(ls[1..], remaining - take, cost + take * ls[0].unitCost, e);
      }
    }
  }

  // ---- the books of a SuperBatch ------------------------------------------------

  /** No two hydrated layers have the same id. */
  ghost predicate DistinctIds(pools: map<PoolKey, Pool>) {
    forall k, i, l, j ::
      k in pools && l in pools && 0 <= i < |pools[k].layers| && 0 <= j < |pools[l].layers| && (k, i) != (l, j) ==>
        pools[k].layers[i].layerId != pools[l].layers[j].layerId
  }

  /** The layer at `i` of a pool: a hydrated one is where it was, less what is booked on
      its id; a later one is that of its row, less what is booked on its index. */
  ghost predicate LayerBook(r: Rows, k: PoolKey, init: seq<LayerView>, now: seq<LayerView>, i: nat) {
    && i < |now|
    && if i < |init| then
         && now[i].index == init[i].index == None
         && now[i].layerId == init[i].layerId && now[i].unitCost == init[i].unitCost
         && init[i].qty - now[i].qty == Booked(r.depletions, ById(init[i].layerId))
       else
         && now[i].index.Some? && now[i].index.value < |r.layers|
         && var row := r.layers[now[i].index.value];
            && row.key == k && row.unitCost == now[i].unitCost
            && row.qty - now[i].qty == Booked(r.depletions, ByIndex(now[i].index.value))
  }

  ghost predicate PoolBook(r: Rows, k: PoolKey, init: seq<LayerView>, now: seq<LayerView>) {
    |init| <= |now| && NamesDiffer(now) && forall i :: 0 <= i < |now| ==> LayerBook(r, k, init, now, i)
  }

  /** The row names a layer of its own pool at its own cost. */
  ghost predicate RowBook(pools: map<PoolKey, Pool>, r: Rows, d: DepletionRow) {
    match d.index
    case None => Names(PoolAt(pools, d.key).layers, ById(d.layerId), d.unitCost)
    case Some(i) => i < |r.layers| && r.layers[i].key == d.key && r.layers[i].unitCost == d.unitCost
  }

  /** Some consumption of the list, of the row's pool, has the row's issue, time and envelope. */
  ghost predicate MadeFor(events: seq<Event>, d: DepletionRow) {
    exists e :: e in events && IsConsumption(e) && KeyOf(e) == d.key
                && e.issueId == d.issueId && e.at == d.at && e.corr == d.corr
  }

  ghost predicate RowsBook(pools: map<PoolKey, Pool>, events: seq<Event>, r: Rows) {
    forall i :: 0 <= i < |r.depletions| ==> RowBook(pools, r, r.depletions[i]) && MadeFor(events, r.depletions[i])
  }

  ghost predicate Books(pools: map<PoolKey, Pool>, events: seq<Event>, s: Sim) {
    && pools.Keys <= s.pools.Keys && RowsBook(pools, events, s.rows)
    && forall k :: k in s.pools ==> PoolBook(s.rows, k, PoolAt(pools, k).layers, s.pools[k].layers)
  }

  lemma NothingTakenYet(pools: map<PoolKey, Pool>, events: seq<Event>)
    requires Hydrated(pools) && DistinctIds(pools)
    ensures Books(pools, events, Sim(pools, NO_ROWS))
  {
    forall k | k in pools
      ensures PoolBook(NO_ROWS, k, pools[k].layers, pools[k].layers)
    {
      var ls := pools[k].layers;
      forall i | 0 <= i < |ls|
        ensures LayerBook(NO_ROWS, k, ls, ls, i)
      {
      }
    }
  }

  // ---- rows that leave layers alone ----------------------------------------------

  /** More layer rows and other rows do not touch the book of a layer. */
  lemma PoolBookGrows(r: Rows, t: Rows, k: PoolKey, init: seq<LayerView>, now: seq<LayerView>)
    requires PoolBook(r, k, init, now) && r.layers <= t.layers && t.depletions == r.depletions
    ensures PoolBook(t, k, init, now)
  {
    hide NamesDiffer, Booked;
    forall i | 0 <= i < |now|
      ensures LayerBook(t, k, init, now, i)
    {
      assert LayerBook(r, k, init, now, i);
    }
  }

  lemma RowsBookGrows(pools: map<PoolKey, Pool>, events: seq<Event>, r: Rows, t: Rows)
    requires RowsBook(pools, events, r) && r.layers <= t.layers && t.depletions == r.depletions
    ensures RowsBook(pools, events, t)
  {
    hide MadeFor, Names;
    forall i | 0 <= i < |t.depletions|
      ensures RowBook(pools, t, t.depletions[i]) && MadeFor(events, t.depletions[i])
    {
      assert RowBook(pools, r, r.depletions[i]) && MadeFor(events, r.depletions[i]);
    }
  }

  /** A state whose pools hold the same layers. */
  lemma SameLayersBook(pools: map<PoolKey, Pool>, events: seq<Event>, s: Sim, t: Sim)
    requires Books(pools, events, s)
    requires s.pools.Keys <= t.pools.Keys && s.rows.layers <= t.rows.layers && t.rows.depletions == s.rows.depletions
    requires forall k :: k in t.pools ==> t.pools[k].layers == PoolAt(s.pools, k).layers
    ensures Books(pools, events, t)
  {
    hide PoolBook, RowsBook;
    RowsBookGrows(pools, events, s.rows, t.rows);
    forall k | k in t.pools
      ensures PoolBook(t.rows, k, PoolAt(pools, k).layers, t.pools[k].layers)
    {
      if k in s.pools {
        PoolBookGrows(s.rows, t.rows, k, PoolAt(pools, k).layers, s.pools[k].layers);
      } else {
        NewPoolBook(t.rows, k);
      }
    }
  }

  lemma NewPoolBook(r: Rows, k: PoolKey)
    ensures PoolBook(r, k, [], [])
  {
  }

  // ---- receipts --------------------------------------------------------------------

  lemma IndexUnbooked(pools: map<PoolKey, Pool>, events: seq<Event>, r: Rows)
    requires RowsBook(pools, events, r)
    ensures Booked(r.depletions, ByIndex(|r.layers|)) == 0
  {
    forall i | 0 <= i < |r.depletions|
      ensures RowName(r.depletions[i]) != ByIndex(|r.layers|)
    {
      assert RowBook(pools, r, r.depletions[i]);
    }
    NothingBooked(r.depletions, ByIndex(|r.layers|));
  }

  lemma AppendBook(r: Rows, t: Rows, k: PoolKey, init: seq<LayerView>, now: seq<LayerView>, v: LayerView)
    requires PoolBook(r, k, init, now) && t.depletions == r.depletions
    requires |t.layers| == |r.layers| + 1 && r.layers <= t.layers
    requires v.index == Some(|r.layers|) && Booked(r.depletions, ByIndex(|r.layers|)) == 0
    requires var row := t.layers[|r.layers|]; row.key == k && row.unitCost == v.unitCost && row.qty == v.qty
    ensures PoolBook(t, k, init, now + [v])
  {
    PoolBookGrows(r, t, k, init, now);
    hide Booked;
    var ls := now + [v];
    forall i | 0 <= i < |now|
      ensures NameOf(ls[i]) != NameOf(v)
    {
      assert LayerBook(r, k, init, now, i);
    }
    assert NamesDiffer(ls) by {
      forall i, j | 0 <= i < j < |ls|
        ensures NameOf(ls[i]) != NameOf(ls[j])
      {
        if j < |now| {
          assert NameOf(now[i]) != NameOf(now[j]);
        }
      }
    }
    hide NamesDiffer, NameOf;
    forall i | 0 <= i < |ls|
      ensures LayerBook(t, k, init, ls, i)
    {
      assert i < |now| ==> LayerBook(t, k, init, now, i);
    }
  }

  lemma AddLayerBooks(pools: map<PoolKey, Pool>, events: seq<Event>, s: Sim, e: Event, unitCost: int)
    requires Books(pools, events, s)
    ensures Books(pools, events, AddLayer(s, e, unitCost))
  {
    var t, k := AddLayer(s, e, unitCost), KeyOf(e);
    IndexUnbooked(pools, events, s.rows);
    hide PoolBook, RowsBook;
    RowsBookGrows(pools, events, s.rows, t.rows);
    var init, now := PoolAt(pools, k).layers, PoolAt(s.pools, k).layers;
    assert PoolBook(s.rows, k, init, now) by {
      if k !in s.pools {
        NewPoolBook(s.rows, k);
      }
    }
    AppendBook(s.rows, t.rows, k, init, now, t.pools[k].layers[|now|]);
    forall j | j in t.pools && j != k
      ensures PoolBook(t.rows, j, PoolAt(pools, j).layers, t.pools[j].layers)
    {
      PoolBookGrows(s.rows, t.rows, j, PoolAt(pools, j).layers, s.pools[j].layers);
    }
  }

  // ---- consumptions ------------------------------------------------------------------

  /** Layers of different pools have different names. */
  lemma OtherPool(pools: map<PoolKey, Pool>, s: Sim, k: PoolKey, i: nat, l: PoolKey, j: nat)
    requires DistinctIds(pools) && k in s.pools && l in s.pools && k != l
    requires LayerBook(s.rows, k, PoolAt(pools, k).layers, s.pools[k].layers, i)
    requires LayerBook(s.rows, l, PoolAt(pools, l).layers, s.pools[l].layers, j)
    ensures NameOf(s.pools[k].layers[i]) != NameOf(s.pools[l].layers[j])
  {
    hide Booked;
  }

  lemma WalkedBook(r: Rows, k: PoolKey, init: seq<LayerView>, now: seq<LayerView>, ts: seq<LayerView>,
                   ds: seq<DepletionRow>, e: Event)
    requires PoolBook(r, k, init, now) && Walked(now, ts, ds, e)
    ensures PoolBook(r.(depletions := r.depletions + ds), k, init, ts)
  {
    var t := r.(depletions := r.depletions + ds);
    hide Booked, Names, RowFits;
    assert NamesDiffer(ts) by {
      forall i, j | 0 <= i < j < |ts|
        ensures NameOf(ts[i]) != NameOf(ts[j])
      {
        assert NameOf(now[i]) != NameOf(now[j]);
      }
    }
    hide NamesDiffer;
    forall i | 0 <= i < |ts|
      ensures LayerBook(t, k, init, ts, i)
    {
      assert LayerBook(r, k, init, now, i);
      BookedAppend(r.depletions, ds, NameOf(now[i]));
    }
  }

  lemma UnwalkedBook(r: Rows, k: PoolKey, init: seq<LayerView>, now: seq<LayerView>, ds: seq<DepletionRow>)
    requires PoolBook(r, k, init, now)
    requires forall i :: 0 <= i < |now| ==> Booked(ds, NameOf(now[i])) == 0
    ensures PoolBook(r.(depletions := r.depletions + ds), k, init, now)
  {
    var t := r.(depletions := r.depletions + ds);
    hide Booked, NamesDiffer;
    forall i | 0 <= i < |now|
      ensures LayerBook(t, k, init, now, i)
    {
      assert LayerBook(r, k, init, now, i);
      BookedAppend(r.depletions, ds, NameOf(now[i]));
    }
  }

  lemma RowBooked(pools: map<PoolKey, Pool>, s: Sim, e: Event, d: DepletionRow)
    requires KeyOf(e) in s.pools && RowFits(s.pools[KeyOf(e)].layers, e, d)
    requires PoolBook(s.rows, KeyOf(e), PoolAt(pools, KeyOf(e)).layers, s.pools[KeyOf(e)].layers)
    ensures RowBook(pools, s.rows, d)
  {
    var k := KeyOf(e);
    var init, now := PoolAt(pools, k).layers, s.pools[k].layers;
    hide Booked, NamesDiffer;
    var i :| 0 <= i < |now| && NameOf(now[i]) == RowName(d) && now[i].unitCost == d.unitCost;
    assert LayerBook(s.rows, k, init, now, i);
    if i < |init| && init[i].index.None? {
      assert NameOf(init[i]) == ById(d.layerId);
    }
  }

  lemma RowsBooked(pools: map<PoolKey, Pool>, events: seq<Event>, s: Sim, e: Event, ds: seq<DepletionRow>)
    requires RowsBook(pools, events, s.rows) && KeyOf(e) in s.pools && e in events && IsConsumption(e)
    requires PoolBook(s.rows, KeyOf(e), PoolAt(pools, KeyOf(e)).layers, s.pools[KeyOf(e)].layers)
    requires forall i :: 0 <= i < |ds| ==> RowFits(s.pools[KeyOf(e)].layers, e, ds[i])
    ensures RowsBook(pools, events, s.rows.(depletions := s.rows.depletions + ds))
  {
    hide PoolBook, Names;
    var t := s.rows.(depletions := s.rows.depletions + ds);
    forall i | 0 <= i < |t.depletions|
      ensures RowBook(pools, t, t.depletions[i]) && MadeFor(events, t.depletions[i])
    {
      if i < |s.rows.depletions| {
        assert RowBook(pools, s.rows, s.rows.depletions[i]) && MadeFor(events, s.rows.depletions[i]);
      } else {
        var d := ds[i - |s.rows.depletions|];
        assert RowFits(s.pools[KeyOf(e)].layers, e, d);
        RowBooked(pools, s, e, d);
      }
    }
  }

  lemma DepleteBooks(pools: map<PoolKey, Pool>, events: seq<Event>, s: Sim, e: Event)
    requires Books(pools, events, s) && DistinctIds(pools) && e in events && IsConsumption(e)
    ensures Deplete(s, e).verdict.Fine? ==> Books(pools, events, Deplete(s, e).sim)
  {
    var k := KeyOf(e);
    if k in s.pools {
      var now := s.pools[k].layers;
      var t := TakeLayers(now, Abs(e.qty), 0, e);
      assert PoolBook(s.rows, k, PoolAt(pools, k).layers, now);
      TakeBooks(now, Abs(e.qty), 0, e);
      hide TakeLayers;
      if !t.overflow && t.remaining <= 0 {
        var rows := s.rows.(depletions := s.rows.depletions + t.rows);
        WalkBooks(pools, events, s, e, t.layers, t.rows);
        var u := SetPool(s, k, s.pools[k].(layers := t.layers)).(rows := rows);
        hide Books;
        SameLayersBook(pools, events, u, Deplete(s, e).sim);
      }
    }
  }

  lemma WalkBooks(pools: map<PoolKey, Pool>, events: seq<Event>, s: Sim, e: Event, ts: seq<LayerView>,
                  ds: seq<DepletionRow>)
    requires Books(pools, events, s) && DistinctIds(pools) && e in events && IsConsumption(e)
    requires KeyOf(e) in s.pools && Walked(s.pools[KeyOf(e)].layers, ts, ds, e)
    ensures Books(pools, events, SetPool(s, KeyOf(e), s.pools[KeyOf(e)].(layers := ts))
                                   .(rows := s.rows.(depletions := s.rows.depletions + ds)))
  {
    var k := KeyOf(e);
    var now := s.pools[k].layers;
    var rows := s.rows.(depletions := s.rows.depletions + ds);
    RowsBooked(pools, events, s, e, ds);
    WalkedBook(s.rows, k, PoolAt(pools, k).layers, now, ts, ds, e);
    hide RowsBook, Walked, LayerBook, NamesDiffer;
    forall j | j in s.pools && j != k
      ensures PoolBook(rows, j, PoolAt(pools, j).layers, s.pools[j].layers)
    {
      OthersUnwalked(pools, events, s, e, ts, ds, j);
      UnwalkedBook(s.rows, j, PoolAt(pools, j).layers, s.pools[j].layers, ds);
    }
  }

  lemma OthersUnwalked(pools: map<PoolKey, Pool>, events: seq<Event>, s: Sim, e: Event, ts: seq<LayerView>,
                       ds: seq<DepletionRow>, j: PoolKey)
    requires Books(pools, events, s) && DistinctIds(pools) && j in s.pools && j != KeyOf(e)
    requires KeyOf(e) in s.pools && Walked(s.pools[KeyOf(e)].layers, ts, ds, e)
    ensures forall i :: 0 <= i < |s.pools[j].layers| ==> Booked(ds, NameOf(s.pools[j].layers[i])) == 0
  {
    var k := KeyOf(e);
    assert PoolBook(s.rows, k, PoolAt(pools, k).layers, s.pools[k].layers);
    assert PoolBook(s.rows, j, PoolAt(pools, j).layers, s.pools[j].layers);
    hide RowsBook, Walked, LayerBook, NamesDiffer, NameOf, DistinctIds;
    forall i | 0 <= i < |s.pools[j].layers|
      ensures Booked(ds, NameOf(s.pools[j].layers[i])) == 0
    {
      forall h | 0 <= h < |s.pools[k].layers|
        ensures NameOf(s.pools[k].layers[h]) != NameOf(s.pools[j].layers[i])
      {
        OtherPool(pools, s, k, h, j, i);
      }
      WalkedElsewhere(s.pools[k].layers, ts, ds, e, NameOf(s.pools[j].layers[i]));
    }
  }

  // ---- every event, every envelope ------------------------------------------------------

  lemma FifoBooks(pools: map<PoolKey, Pool>, events: seq<Event>, s: Sim, e: Event)
    requires Books(pools, events, s) && DistinctIds(pools) && (IsConsumption(e) ==> e in events)
    ensures FifoApply(s, e).verdict.Fine? ==> Books(pools, events, FifoApply(s, e).sim)
  {
    hide Books, InI64, DistinctIds, Deplete;
    var t := FifoApply(s, e).sim;
    if IsReceipt(e) {
      AddLayerBooks(pools, events, s, e, e.unitCost);
      var u := AddLayer(s, e, e.unitCost);
      SameLayersBook(pools, events, u, u.(rows := PostReceipt(u.rows, e, Abs(e.qty) * e.unitCost)));
    } else if IsConsumption(e) {
      DepleteBooks(pools, events, s, e);
    } else {
      SameLayersBook(pools, events, s, t);
    }
  }

  lemma AvgBooks(pools: map<PoolKey, Pool>, events: seq<Event>, s: Sim, e: Event)
    requires Books(pools, events, s)
    ensures AvgApply(s, e).verdict.Fine? ==> Books(pools, events, AvgApply(s, e).sim)
  {
    hide Books, InI64, Wrap, RolledAverage;
    var t := AvgApply(s, e).sim;
    if IsReceipt(e) {
      var k := KeyOf(e);
      var p := PoolAt(s.pools, k);
      var rolled := SetPool(s, k, p.(avgUnitCost := RolledAverage(p, Abs(e.qty), e.unitCost),
                                     avgTotalQty := Wrap(p.avgTotalQty + Abs(e.qty)), avgDirty := true));
      SameLayersBook(pools, events, s, rolled);
      AddLayerBooks(pools, events, rolled, e, e.unitCost);
      var u := AddLayer(rolled, e, e.unitCost);
      SameLayersBook(pools, events, u, u.(rows := PostReceipt(u.rows, e, Abs(e.qty) * e.unitCost)));
    } else {
      SameLayersBook(pools, events, s, t);
    }
  }

  lemma StdBooks(cfg: Config, pools: map<PoolKey, Pool>, events: seq<Event>, s: Sim, e: Event)
    requires Books(pools, events, s)
    ensures StdApply(cfg, s, e).verdict.Fine? ==> Books(pools, events, StdApply(cfg, s, e).sim)
  {
    hide Books, Wrap;
    var t := StdApply(cfg, s, e).sim;
    if e.kind.WoComplete? && e.qty > 0 {
      AddLayerBooks(pools, events, s, e, e.unitCost);
      SameLayersBook(pools, events, AddLayer(s, e, e.unitCost), t);
    } else {
      SameLayersBook(pools, events, s, t);
    }
  }

  lemma StepBooks(cfg: Config, pools: map<PoolKey, Pool>, events: seq<Event>, p: Progress, e: Event)
    requires Books(pools, events, p.sim) && DistinctIds(pools) && e in events
    ensures var q := StepEvent(cfg, p, e); !q.failed ==> Books(pools, events, q.sim)
  {
    hide Books, DistinctIds, FifoApply, AvgApply, StdApply, ComponentCost, InI64;
    var f := Injected(e, p.woCost);
    assert IsConsumption(f) ==> f == e;
    FifoBooks(pools, events, p.sim, f);
    AvgBooks(pools, events, p.sim, f);
    StdBooks(cfg, pools, events, p.sim, f);
  }

  lemma {:induction false} RunBooks(cfg: Config, pools: map<PoolKey, Pool>, events: seq<Event>, s: Sim, es: seq<Event>)
    requires Books(pools, events, s) && DistinctIds(pools) && forall e :: e in es ==> e in events
    ensures var p := RunEvents(cfg, s, es); !p.failed ==> Books(pools, events, p.sim)
  {
    hide Books, DistinctIds, StepEvent;
    if es != [] {
      RunBooks(cfg, pools, events, s, es[..|es| - 1]);
      var p := RunEvents(cfg, s, es[..|es| - 1]);
      if !p.failed {
        StepBooks(cfg, pools, events, p, es[|es| - 1]);
      }
    }
  }

  lemma {:induction false} GroupsBook(cfg: Config, pools: map<PoolKey, Pool>, events: seq<Event>, s: Sim,
                                      gs: seq<Group>)
    requires Books(pools, events, s) && DistinctIds(pools)
    requires forall i, e :: 0 <= i < |gs| && e in gs[i].events ==> e in events
    ensures Books(pools, events, RunGroups(cfg, s, gs).sim)
  {
    hide Books, DistinctIds, RunEvents, Rollback;
    if gs != [] {
      var n := |gs| - 1;
      GroupsBook(cfg, pools, events, s, gs[..n]);
      var t := RunGroups(cfg, s, gs[..n]).sim;
      RunBooks(cfg, pools, events, t, gs[n].events);
      FailedEnvelopeIsUndone(cfg, t, gs[n].events);
    }
  }

  lemma {:induction false} FilterIn<T>(s: seq<T>, p: T -> bool, x: T)
    requires x in Filter(s, p)
    ensures x in s
  {
    if s != [] && x in Filter(s[..|s| - 1], p) {
      FilterIn(s[..|s| - 1], p, x);
    }
  }

  lemma GroupEventsAreEvents(events: seq<Event>)
    ensures forall i, e :: 0 <= i < |Groups(events)| && e in Groups(events)[i].events ==> e in events
  {
    hide Groups, Sort, Filter;
    forall i, e | 0 <= i < |Groups(events)| && e in Groups(events)[i].events
      ensures e in events
    {
      var p := CorrIs(Groups(events)[i].corr);
      GroupsHoldTheirEvents(events, i);
      SortPermutes(Filter(events, p), InOrder);
      assert e in multiset(Groups(events)[i].events);
      FilterIn(events, p, e);
    }
  }

  lemma SuperBatchBooks(cfg: Config, pools: map<PoolKey, Pool>, events: seq<Event>)
    requires Hydrated(pools) && DistinctIds(pools)
    ensures Books(pools, events, Step4(cfg, pools, events).sim)
  {
    hide Books, Hydrated, DistinctIds, Groups, RunGroups;
    NothingTakenYet(pools, events);
    GroupEventsAreEvents(events);
    GroupsBook(cfg, pools, events, Sim(pools, NO_ROWS), Groups(events));
  }

  /** After Step 4 every hydrated layer stands where it stood, under its id and at its
      cost, less exactly the quantity of the depletion rows that name its id. */
  lemma HydratedLayerIsBooked(cfg: Config, pools: map<PoolKey, Pool>, events: seq<Event>, k: PoolKey, i: nat)
    requires Hydrated(pools) && DistinctIds(pools) && k in pools && i < |pools[k].layers|
    ensures var s, was := Step4(cfg, pools, events).sim, pools[k].layers[i];
            && k in s.pools && i < |s.pools[k].layers|
            && var now := s.pools[k].layers[i];
               && now.layerId == was.layerId && now.unitCost == was.unitCost && now.index == None
               && was.qty - now.qty == Booked(s.rows.depletions, ById(was.layerId))
  {
    hide Hydrated, DistinctIds, Step4, Booked, RowsBook, NamesDiffer;
    SuperBatchBooks(cfg, pools, events);
    var s := Step4(cfg, pools, events).sim;
    assert PoolBook(s.rows, k, PoolAt(pools, k).layers, s.pools[k].layers);
    assert LayerBook(s.rows, k, pools[k].layers, s.pools[k].layers, i);
  }

  /** And every layer received by the SuperBatch is that of its layer row, of the same
      pool and cost, less exactly the quantity of the rows that name its index. */
  lemma NewLayerIsBooked(cfg: Config, pools: map<PoolKey, Pool>, events: seq<Event>, k: PoolKey, i: nat)
    requires Hydrated(pools) && DistinctIds(pools)
    requires var s := Step4(cfg, pools, events).sim;
             k in s.pools && |PoolAt(pools, k).layers| <= i < |s.pools[k].layers|
    ensures var s := Step4(cfg, pools, events).sim;
            var now := s.pools[k].layers[i];
            && now.index.Some? && now.index.value < |s.rows.layers|
            && var row := s.rows.layers[now.index.value];
               && row.key == k && row.unitCost == now.unitCost
               && row.qty - now.qty == Booked(s.rows.depletions, ByIndex(now.index.value))
  {
    hide Hydrated, DistinctIds, Step4, Booked, RowsBook, NamesDiffer;
    SuperBatchBooks(cfg, pools, events);
    var s := Step4(cfg, pools, events).sim;
    assert PoolBook(s.rows, k, PoolAt(pools, k).layers, s.pools[k].layers);
    assert LayerBook(s.rows, k, PoolAt(pools, k).layers, s.pools[k].layers, i);
  }

  /** Every depletion row without an index names a hydrated layer of its pool at its cost,
      and every row carries the issue, the time and the envelope of a consumption of its
      pool in the list. */
  lemma RowNamesItsLayer(cfg: Config, pools: map<PoolKey, Pool>, events: seq<Event>, j: nat)
    requires Hydrated(pools) && DistinctIds(pools) && j < |Step4(cfg, pools, events).sim.rows.depletions|
    ensures var d := Step4(cfg, pools, events).sim.rows.depletions[j];
            && (d.index == None ==>
                  exists i :: 0 <= i < |PoolAt(pools, d.key).layers|
                              && PoolAt(pools, d.key).layers[i].layerId == d.layerId
                              && PoolAt(pools, d.key).layers[i].unitCost == d.unitCost)
            && exists e :: e in events && IsConsumption(e) && KeyOf(e) == d.key
                           && e.issueId == d.issueId && e.at == d.at && e.corr == d.corr
  {
    hide DistinctIds, Step4, PoolBook;
    SuperBatchBooks(cfg, pools, events);
    var r := Step4(cfg, pools, events).sim.rows;
    var d := r.depletions[j];
    assert RowBook(pools, r, d) && MadeFor(events, d);
    if d.index == None {
      var ls := PoolAt(pools, d.key).layers;
      var i :| 0 <= i < |ls| && NameOf(ls[i]) == ById(d.layerId) && ls[i].unitCost == d.unitCost;
      assert ls[i].layerId == d.layerId;
    }
  }
}

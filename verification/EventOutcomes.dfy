/**
  When an event of a SuperBatch succeeds (fifo.rs, avg.rs, standard.rs), told from the
  stock and the costs and not from the walk that finds out.
*/
module EventOutcomes {
  import opened Collections
  import opened CostMethods
  import opened Int64

  /** What the first `j` layers hold. */
  function StockBefore(ls: seq<LayerView>, j: nat): int
    requires j <= |ls|
  {
    if j == 0 then 0 else StockBefore(ls, j - 1) + if ls[j - 1].qty > 0 then ls[j - 1].qty else 0
  }

  /** What an issue of `qty` takes from layer `j`: its stock, as far as the layers before it
      do not cover the issue. */
  function Share(ls: seq<LayerView>, qty: int, j: nat): int
    requires j < |ls|
  {
    var open := qty - StockBefore(ls, j);
    if ls[j].qty <= 0 || open <= 0 then 0 else Min(open, ls[j].qty)
  }

  /** What the shares of the first `j` layers cost. */
  function CostBefore(ls: seq<LayerView>, qty: int, j: nat): int
    requires j <= |ls|
  {
    if j == 0 then 0 else CostBefore(ls, qty, j - 1) + Share(ls, qty, j - 1) * ls[j - 1].unitCost
  }

  ghost predicate CostFits(ls: seq<LayerView>, qty: int, cost: int, j: nat)
    requires j < |ls|
  {
    Share(ls, qty, j) > 0 ==>
      InI64(Share(ls, qty, j) * ls[j].unitCost) && InI64(cost + CostBefore(ls, qty, j + 1))
  }

  /** The cost stays within 64 bits at every layer that gives something. */
  ghost predicate CostsFit(ls: seq<LayerView>, qty: int, cost: int) {
    forall j :: 0 <= j < |ls| ==> CostFits(ls, qty, cost, j)
  }

  /** The layers behind the first, for what the first leaves open. */
  lemma {:induction false} Behind(ls: seq<LayerView>, qty: int, j: nat)
    requires 0 < j <= |ls| && qty >= 0
    ensures var first := if ls[0].qty > 0 then ls[0].qty else 0;
            StockBefore(ls, j) == first + StockBefore(ls[1..], j - 1)
    ensures j < |ls| ==> Share(ls, qty, j) == Share(ls[1..], qty - Share(ls, qty, 0), j - 1)
    ensures CostBefore(ls, qty, j)
         == Share(ls, qty, 0) * ls[0].unitCost + CostBefore(ls[1..], qty - Share(ls, qty, 0), j - 1)
  {
    if j > 1 {
      Behind(ls, qty, j - 1);
      StockGrows(ls[1..], j - 1);
    }
    assert StockBefore(ls, 1) == if ls[0].qty > 0 then ls[0].qty else 0;
  }

  lemma {:induction false} StockGrows(ls: seq<LayerView>, j: nat)
    requires j <= |ls|
    ensures StockBefore(ls, j) >= 0
  {
    if j > 0 {
      StockGrows(ls, j - 1);
    }
  }

  lemma CostFitsBehind(ls: seq<LayerView>, qty: int, cost: int, j: nat)
    requires 0 < j < |ls| && qty >= 0
    ensures var take := Share(ls, qty, 0);
            CostFits(ls, qty, cost, j) <==> CostFits(ls[1..], qty - take, cost + take * ls[0].unitCost, j - 1)
  {
    Behind(ls, qty, j);
    Behind(ls, qty, j + 1);
    hide Share, CostBefore, StockBefore, InI64;
  }

  lemma CostsFitBehind(ls: seq<LayerView>, qty: int, cost: int)
    requires ls != [] && qty >= 0
    ensures var take := Share(ls, qty, 0);
            CostsFit(ls, qty, cost)
            <==> CostFits(ls, qty, cost, 0) && CostsFit(ls[1..], qty - take, cost + take * ls[0].unitCost)
  {
    hide CostFits, Share;
    var take := Share(ls, qty, 0);
    var rest, open, now := ls[1..], qty - take, cost + take * ls[0].unitCost;
    if CostsFit(ls, qty, cost) {
      forall j | 0 <= j < |rest|
        ensures CostFits(rest, open, now, j)
      {
        assert CostFits(ls, qty, cost, j + 1);
        CostFitsBehind(ls, qty, cost, j + 1);
      }
    }
    if CostFits(ls, qty, cost, 0) && CostsFit(rest, open, now) {
      forall j | 0 <= j < |ls|
        ensures CostFits(ls, qty, cost, j)
      {
        if j > 0 {
          assert CostFits(rest, open, now, j - 1);
          CostFitsBehind(ls, qty, cost, j);
        }
      }
    }
  }

  lemma NothingToTake(ls: seq<LayerView>, cost: int)
    ensures CostsFit(ls, 0, cost) && StockBefore(ls, |ls|) >= 0
  {
    forall j | 0 <= j < |ls|
      ensures Share(ls, 0, j) == 0
    {
      StockGrows(ls, j);
    }
    StockGrows(ls, |ls|);
  }

  /** The walk overflows exactly when the costs do not fit, and otherwise leaves open what
      the stock does not cover. */
  lemma {:induction false} WalkOutcome(ls: seq<LayerView>, qty: int, cost: int, e: Event)
    requires qty >= 0
    ensures var t, stock := TakeLayers(ls, qty, cost, e), StockBefore(ls, |ls|);
            && (t.overflow <==> !CostsFit(ls, qty, cost))
            && (!t.overflow ==> t.remaining == if qty <= stock then 0 else qty - stock)
    decreases |ls|
  {
    hide InI64, Depletion, CostsFit, StockBefore;
    if ls == [] || qty == 0 {
      NoWalk(ls, qty, cost);
    } else {
      var take := Share(ls, qty, 0);
      FirstShare(ls, qty, cost);
      Behind(ls, qty, |ls|);
      CostsFitBehind(ls, qty, cost);
      StockGrows(ls[1..], |ls| - 1);
      hide Share, CostFits, CostBefore;
      WalkOutcome(ls[1..], qty - take, cost + take * ls[0].unitCost, e);
    }
  }

  lemma NoWalk(ls: seq<LayerView>, qty: int, cost: int)
    requires qty >= 0 && (ls == [] || qty == 0)
    ensures CostsFit(ls, qty, cost) && StockBefore(ls, |ls|) >= 0 && (ls == [] ==> StockBefore(ls, |ls|) == 0)
  {
    if qty == 0 {
      NothingToTake(ls, cost);
    }
  }

  lemma FirstShare(ls: seq<LayerView>, qty: int, cost: int)
    requires ls != [] && qty > 0
    ensures Share(ls, qty, 0) == if ls[0].qty <= 0 then 0 else Min(qty, ls[0].qty)
    ensures var p := Share(ls, qty, 0) * ls[0].unitCost;
            CostFits(ls, qty, cost, 0) <==> ls[0].qty <= 0 || (InI64(p) && InI64(cost + p))
  {
    assert CostBefore(ls, qty, 1) == Share(ls, qty, 0) * ls[0].unitCost;
    hide InI64;
  }

  /** `deplete` succeeds exactly when the pool has the stock and the costs fit, and says
      which of the two is missing. */
  lemma DepleteSucceedsIff(s: Sim, e: Event)
    ensures var k, qty, v := KeyOf(e), Abs(e.qty), Deplete(s, e).verdict;
            if k !in s.pools then v == Insufficient
            else
              var ls := s.pools[k].layers;
              v == if !CostsFit(ls, qty, 0) then Overflow
                   else if StockBefore(ls, |ls|) < qty then Insufficient else Fine
  {
    if KeyOf(e) in s.pools {
      WalkOutcome(s.pools[KeyOf(e)].layers, Abs(e.qty), 0, e);
      hide TakeLayers, CostsFit, StockBefore;
    }
  }

  /** The event can be booked, by its kind, its quantity and the state of its pool. */
  ghost predicate Possible(cfg: Config, s: Sim, e: Event) {
    var k, qty := (e.sku, e.loc), Abs(e.qty);
    var comesIn := e.kind.PoReceipt? || ((e.kind.InvAdjust? || e.kind.WoComplete?) && e.qty > 0);
    var stays := (e.kind.InvAdjust? || e.kind.WoComplete?) && e.qty == 0;
    match MethodOf(cfg, e.sku)
    case Std => k in cfg.standards || (e.kind.WoComplete? && e.qty > 0)
    case Avg =>
      stays
      || (if comesIn then InI64(qty * e.unitCost)
          else k in s.pools && 0 < s.pools[k].avgTotalQty && qty <= s.pools[k].avgTotalQty
               && InI64(qty * s.pools[k].avgUnitCost))
    case Fifo =>
      stays
      || (if comesIn then InI64(qty * e.unitCost)
          else k in s.pools && qty <= StockBefore(s.pools[k].layers, |s.pools[k].layers|)
               && CostsFit(s.pools[k].layers, qty, 0))
  }

  /** And it is booked exactly when it can be. */
  lemma EventSucceedsIff(cfg: Config, s: Sim, e: Event)
    ensures ApplyOne(cfg, s, e).verdict.Fine? <==> Possible(cfg, s, e)
  {
    DepleteSucceedsIff(s, e);
    hide InI64, Wrap, RolledAverage, Deplete, AddLayer, Post, CostsFit, StockBefore;
  }
}

/**
  Step 4 of the committer (committer.rs): sort the events, group them by envelope, run
  each envelope event by event, and on any failure restore the pools the envelope touched
  and truncate the row vectors.
*/
module CommitterStep4 {
  import opened Collections
  import opened CostMethods
  import opened Int64
  import opened Sorting

  // ---- One envelope ---------------------------------------------------------

  /** The output of a work order is valued at the component cost so far, per unit. */
  function Injected(e: Event, woCost: int): Event {
    if e.kind.WoComplete? && e.qty > 0 then e.(unitCost := TruncDiv(woCost, e.qty)) else e
  }

  /** `checked_mul` then `checked_add`. */
  function CheckedAdd(cost: int, qty: int, unitCost: int): Option<int> {
    if InI64(qty * unitCost) && InI64(cost + qty * unitCost) then Some(cost + qty * unitCost) else None
  }

  function DepletionCost(rows: seq<DepletionRow>, cost: int): Option<int>
    decreases |rows|
  {
    if rows == [] then Some(cost)
    else match CheckedAdd(cost, rows[0].qty, rows[0].unitCost)
         case None => None
         case Some(c) => DepletionCost(rows[1..], c)
  }

  function ConsumptionCost(rows: seq<ConsumptionRow>, cost: int): Option<int>
    decreases |rows|
  {
    if rows == [] then Some(cost)
    else match CheckedAdd(cost, rows[0].qty, rows[0].unitCost)
         case None => None
         case Some(c) => ConsumptionCost(rows[1..], c)
  }

  /** What one component cost, read back from the rows it added. */
  function ComponentCost(before: Rows, after: Rows): Option<int> {
    if !(|before.depletions| <= |after.depletions| && |before.consumptions| <= |after.consumptions|) then None
    else
      match DepletionCost(after.depletions[|before.depletions|..], 0)
      case None => None
      case Some(c) => ConsumptionCost(after.consumptions[|before.consumptions|..], c)
  }

  datatype Progress = Progress(sim: Sim, woCost: int, failed: bool)

  function StepEvent(cfg: Config, p: Progress, e: Event): Progress {
    var a := ApplyOne(cfg, p.sim, Injected(e, p.woCost));
    if !a.verdict.Fine? then Progress(a.sim, p.woCost, true)
    else if e.kind.WoComplete? && e.qty < 0 then
      match ComponentCost(p.sim.rows, a.sim.rows)
      case None => Progress(a.sim, p.woCost, true)
      case Some(c) =>
        if InI64(p.woCost + c) then Progress(a.sim, p.woCost + c, false) else Progress(a.sim, p.woCost, true)
    else Progress(a.sim, p.woCost, false)
  }

  /** Events in order, up to and including the first that fails. */
  function RunEvents(cfg: Config, s: Sim, es: seq<Event>): Progress {
    if es == [] then Progress(s, 0, false)
    else
      var p := RunEvents(cfg, s, es[..|es| - 1]);
      if p.failed then p else StepEvent(cfg, p, es[|es| - 1])
  }

  function Touched(es: seq<Event>): set<PoolKey> {
    set e | e in es :: KeyOf(e)
  }

  function Truncate(r: Rows, to: Rows): Rows {
    Rows(Prefix(r.layers, |to.layers|), Prefix(r.depletions, |to.depletions|),
         Prefix(r.consumptions, |to.consumptions|),
         Prefix(r.postings, |to.postings|), Prefix(r.inventory, |to.inventory|))
  }

  /** `Vec::truncate`. */
  function Prefix<T>(s: seq<T>, n: nat): seq<T> {
    if n <= |s| then s[..n] else s
  }

  /** Put the touched pools back, or remove them if they did not exist, and drop the
      rows of the envelope. */
  function Rollback(before: Sim, after: Sim, touched: set<PoolKey>): Sim {
    Sim((after.pools - touched) + (map k | k in touched && k in before.pools :: before.pools[k]),
        Truncate(after.rows, before.rows))
  }

  function RunEnvelope(cfg: Config, s: Sim, es: seq<Event>): (r: (Sim, bool)) {
    var p := RunEvents(cfg, s, es);
    if p.failed then (Rollback(s, p.sim, Touched(es)), false) else (p.sim, true)
  }

  // ---- Rollback undoes everything -------------------------------------------

  ghost predicate FrameOf(s: Sim, t: Sim, touched: set<PoolKey>) {
    && Extends(s.rows, t.rows)
    && (forall k :: k !in touched ==> (k in t.pools <==> k in s.pools))
    && (forall k :: k !in touched && k in s.pools ==> t.pools[k] == s.pools[k])
  }

  lemma ExtendsTrans(a: Rows, b: Rows, c: Rows)
    requires Extends(a, b) && Extends(b, c)
    ensures Extends(a, c)
  {
  }

  lemma StepFrame(cfg: Config, p: Progress, e: Event)
    ensures Frame(p.sim, StepEvent(cfg, p, e).sim, KeyOf(e))
  {
    hide ApplyOne, Frame, ComponentCost;
    EventFrame(cfg, p.sim, Injected(e, p.woCost));
  }

  lemma {:induction false} RunFrame(cfg: Config, s: Sim, es: seq<Event>, n: nat)
    requires n <= |es|
    ensures FrameOf(s, RunEvents(cfg, s, es[..n]).sim, Touched(es))
  {
    if n > 0 {
      RunFrame(cfg, s, es, n - 1);
      assert es[..n][..n - 1] == es[..n - 1];
      var p, e := RunEvents(cfg, s, es[..n - 1]), es[n - 1];
      hide RunEvents, StepEvent, Extends;
      StepFrame(cfg, p, e);
      if !p.failed {
        ExtendsTrans(s.rows, p.sim.rows, StepEvent(cfg, p, e).sim.rows);
        assert KeyOf(e) in Touched(es);
      }
      RunOneMore(cfg, s, es, n);
    }
  }

  lemma RunOneMore(cfg: Config, s: Sim, es: seq<Event>, n: nat)
    requires 0 < n <= |es|
    ensures var p := RunEvents(cfg, s, es[..n - 1]);
            RunEvents(cfg, s, es[..n]) == if p.failed then p else StepEvent(cfg, p, es[n - 1])
  {
    assert es[..n][..n - 1] == es[..n - 1];
  }

  lemma FrameRestores(s: Sim, t: Sim, touched: set<PoolKey>)
    requires FrameOf(s, t, touched)
    ensures Rollback(s, t, touched) == s
  {
    var r := Rollback(s, t, touched);
    assert r.pools == s.pools by {
      assert forall k :: k in r.pools <==> k in s.pools;
      assert forall k :: k in s.pools ==> r.pools[k] == s.pools[k];
    }
  }

  /** A failed envelope leaves pools and rows exactly as they were: partial depletions,
      rolled averages and freshly created pools included. */
  lemma FailedEnvelopeIsUndone(cfg: Config, s: Sim, es: seq<Event>)
    ensures !RunEnvelope(cfg, s, es).1 ==> RunEnvelope(cfg, s, es).0 == s
  {
    RunFrame(cfg, s, es, |es|);
    assert es[..|es|] == es;
    hide RunEvents, FrameOf, Rollback;
    FrameRestores(s, RunEvents(cfg, s, es).sim, Touched(es));
  }

  // ---- The whole SuperBatch -------------------------------------------------

  datatype Group = Group(corr: nat, events: seq<Event>)

  predicate Has(gs: seq<Group>, corr: nat) {
    exists i :: 0 <= i < |gs| && gs[i].corr == corr
  }

  /** Append to the envelope's existing group. */
  function AddIn(gs: seq<Group>, e: Event): (r: seq<Group>)
    ensures |r| == |gs|
  {
    if gs == [] then []
    else
      var n := |gs| - 1;
      if gs[n].corr == e.corr then gs[..n] + [gs[n].(events := gs[n].events + [e])]
      else AddIn(gs[..n], e) + [gs[n]]
  }

  function AddEvent(gs: seq<Group>, e: Event): seq<Group> {
    if Has(gs, e.corr) then AddIn(gs, e) else gs + [Group(e.corr, [e])]
  }

  /** Group by correlation id, in order of first appearance. */
  function GroupByCorr(es: seq<Event>): seq<Group> {
    if es == [] then [] else AddEvent(GroupByCorr(es[..|es| - 1]), es[|es| - 1])
  }

  /** The sort key (business_date, doc_chrono, document_id, sub_priority). */
  predicate InOrder(d: Event, e: Event) {
    || d.date < e.date
    || (d.date == e.date && (d.chrono < e.chrono
    || (d.chrono == e.chrono && (d.doc < e.doc
    || (d.doc == e.doc && d.sub <= e.sub)))))
  }

  datatype Outcome = Outcome(sim: Sim, oks: seq<bool>)

  function RunGroups(cfg: Config, s: Sim, gs: seq<Group>): (o: Outcome)
    ensures |o.oks| == |gs|
  {
    if gs == [] then Outcome(s, [])
    else
      var o := RunGroups(cfg, s, gs[..|gs| - 1]);
      var r := RunEnvelope(cfg, o.sim, gs[|gs| - 1].events);
      Outcome(r.0, o.oks + [r.1])
  }

  const NO_ROWS := Rows([], [], [], [], [])

  function Groups(events: seq<Event>): seq<Group> {
    GroupByCorr(Sort(events, InOrder))
  }

  function Step4(cfg: Config, pools: map<PoolKey, Pool>, events: seq<Event>): Outcome {
    RunGroups(cfg, Sim(pools, NO_ROWS), Groups(events))
  }

  /** The envelopes that succeeded. */
  function Succeeded(gs: seq<Group>, oks: seq<bool>): set<nat>
    requires |gs| == |oks|
  {
    set i | 0 <= i < |gs| && oks[i] :: gs[i].corr
  }

  // ---- Grouping and selecting commute ---------------------------------------

  function InSet(keep: set<nat>): Event -> bool {
    (e: Event) => e.corr in keep
  }

  function GroupInSet(keep: set<nat>): Group -> bool {
    (g: Group) => g.corr in keep
  }

  lemma {:induction false} HasFilter(gs: seq<Group>, keep: set<nat>, corr: nat)
    requires corr in keep
    ensures Has(Filter(gs, GroupInSet(keep)), corr) <==> Has(gs, corr)
  {
    if gs != [] {
      var n := |gs| - 1;
      var f, p := Filter(gs[..n], GroupInSet(keep)), GroupInSet(keep);
      HasFilter(gs[..n], keep, corr);
      HasNext(gs[..n], gs[n], corr);
      assert gs == gs[..n] + [gs[n]];
      HasNext(f, gs[n], corr);
      assert Filter(gs, p) == f + if p(gs[n]) then [gs[n]] else [];
      hide Has, Filter;
      assert !p(gs[n]) ==> Filter(gs, p) == f;
    }
  }

  lemma HasNext(gs: seq<Group>, g: Group, corr: nat)
    ensures Has(gs + [g], corr) <==> Has(gs, corr) || g.corr == corr
  {
    if Has(gs, corr) {
      var i :| 0 <= i < |gs| && gs[i].corr == corr;
      assert (gs + [g])[i].corr == corr;
    }
    if g.corr == corr {
      assert (gs + [g])[|gs|].corr == corr;
    }
  }

  lemma AddInNext(gs: seq<Group>, g: Group, e: Event)
    ensures AddIn(gs + [g], e)
         == if g.corr == e.corr then gs + [g.(events := g.events + [e])] else AddIn(gs, e) + [g]
  {
    assert (gs + [g])[..|gs|] == gs;
  }

  lemma {:induction false} AddInFilter(gs: seq<Group>, keep: set<nat>, e: Event)
    ensures Filter(AddIn(gs, e), GroupInSet(keep))
         == if e.corr in keep then AddIn(Filter(gs, GroupInSet(keep)), e) else Filter(gs, GroupInSet(keep))
  {
    if gs != [] {
      var n := |gs| - 1;
      var h, g, p := gs[..n], gs[n], GroupInSet(keep);
      assert gs == h + [g];
      AddInFilter(h, keep, e);
      AddInNext(h, g, e);
      AddInNext(Filter(h, p), g, e);
      FilterNext(h, g, p);
      FilterNext(h, g.(events := g.events + [e]), p);
      FilterNext(AddIn(h, e), g, p);
      hide AddIn, Filter;
      if !p(g) {
        assert Filter(h, p) + [] == Filter(h, p);
        assert Filter(AddIn(h, e), p) + [] == Filter(AddIn(h, e), p);
      }
    }
  }

  lemma AddEventFilter(gs: seq<Group>, keep: set<nat>, e: Event)
    ensures Filter(AddEvent(gs, e), GroupInSet(keep))
         == if e.corr in keep then AddEvent(Filter(gs, GroupInSet(keep)), e) else Filter(gs, GroupInSet(keep))
  {
    var p := GroupInSet(keep);
    AddInFilter(gs, keep, e);
    FilterNext(gs, Group(e.corr, [e]), p);
    if e.corr in keep {
      HasFilter(gs, keep, e.corr);
    }
    hide AddIn, Filter, Has;
    assert Filter(gs, p) + [] == Filter(gs, p);
  }

  lemma {:induction false} GroupFilter(es: seq<Event>, keep: set<nat>)
    ensures GroupByCorr(Filter(es, InSet(keep))) == Filter(GroupByCorr(es), GroupInSet(keep))
  {
    if es != [] {
      var n := |es| - 1;
      var e, f := es[n], Filter(es[..n], InSet(keep));
      GroupFilter(es[..n], keep);
      AddEventFilter(GroupByCorr(es[..n]), keep, e);
      if e.corr in keep {
        assert Filter(es, InSet(keep)) == f + [e];
        assert (f + [e])[..|f|] == f;
      } else {
        assert Filter(es, InSet(keep)) == f + [] == f;
      }
      hide Filter, AddEvent;
    }
  }

  // ---- Failed envelopes are invisible ---------------------------------------

  /** `keep` names exactly the envelopes that succeed in this run. */
  ghost predicate Agrees(gs: seq<Group>, oks: seq<bool>, keep: set<nat>) {
    |gs| == |oks| && forall i :: 0 <= i < |gs| ==> (gs[i].corr in keep <==> oks[i])
  }

  ghost predicate DistinctCorrs(gs: seq<Group>) {
    forall i, j :: 0 <= i < j < |gs| ==> gs[i].corr != gs[j].corr
  }

  lemma {:induction false} AddInKeepsCorrs(gs: seq<Group>, e: Event)
    ensures forall i :: 0 <= i < |gs| ==> AddIn(gs, e)[i].corr == gs[i].corr
  {
    if gs != [] && gs[|gs| - 1].corr != e.corr {
      AddInKeepsCorrs(gs[..|gs| - 1], e);
    }
  }

  lemma {:induction false} GroupsAreDistinct(es: seq<Event>)
    ensures DistinctCorrs(GroupByCorr(es))
  {
    if es != [] {
      GroupsAreDistinct(es[..|es| - 1]);
      AddInKeepsCorrs(GroupByCorr(es[..|es| - 1]), es[|es| - 1]);
    }
  }

  lemma SucceededAgrees(gs: seq<Group>, oks: seq<bool>)
    requires |gs| == |oks| && DistinctCorrs(gs)
    ensures Agrees(gs, oks, Succeeded(gs, oks))
  {
    forall i | 0 <= i < |gs|
      ensures gs[i].corr in Succeeded(gs, oks) <==> oks[i]
    {
      if gs[i].corr in Succeeded(gs, oks) {
        var j :| 0 <= j < |gs| && oks[j] && gs[j].corr == gs[i].corr;
        assert i == j;
      }
    }
  }

  lemma RunGroupsNext(cfg: Config, s: Sim, gs: seq<Group>, g: Group)
    ensures var o := RunGroups(cfg, s, gs);
            var r := RunEnvelope(cfg, o.sim, g.events);
            RunGroups(cfg, s, gs + [g]) == Outcome(r.0, o.oks + [r.1])
  {
    assert (gs + [g])[..|gs|] == gs;
  }

  /** Running only the groups that succeed gives the same pools and rows, and all of
      them succeed again. */
  lemma {:induction false} DropFailed(cfg: Config, s: Sim, gs: seq<Group>, keep: set<nat>)
    requires Agrees(gs, RunGroups(cfg, s, gs).oks, keep)
    ensures var o := RunGroups(cfg, s, Filter(gs, GroupInSet(keep)));
            o.sim == RunGroups(cfg, s, gs).sim && forall i :: 0 <= i < |o.oks| ==> o.oks[i]
  {
    hide RunGroups, Filter, RunEnvelope, Agrees;
    if gs == [] {
      FilterEmpty(GroupInSet(keep));
    } else {
      var n := |gs| - 1;
      var h, g, p := gs[..n], gs[n], GroupInSet(keep);
      assert gs == h + [g];
      AgreesSplit(cfg, s, h, g, keep);
      DropFailed(cfg, s, h, keep);
      DropOneMore(cfg, s, h, g, keep);
    }
  }

  lemma FilterEmpty(p: Group -> bool)
    ensures Filter([], p) == []
  {
  }

  lemma DropOneMore(cfg: Config, s: Sim, h: seq<Group>, g: Group, keep: set<nat>)
    requires var o, p := RunGroups(cfg, s, h), GroupInSet(keep);
             && RunGroups(cfg, s, Filter(h, p)).sim == o.sim
             && (forall i :: 0 <= i < |Filter(h, p)| ==> RunGroups(cfg, s, Filter(h, p)).oks[i])
             && (g.corr in keep <==> RunEnvelope(cfg, o.sim, g.events).1)
    ensures var o, p := RunGroups(cfg, s, Filter(h + [g], GroupInSet(keep))), GroupInSet(keep);
            o.sim == RunGroups(cfg, s, h + [g]).sim && forall i :: 0 <= i < |o.oks| ==> o.oks[i]
  {
    hide RunGroups, Filter, RunEnvelope;
    var p := GroupInSet(keep);
    RunGroupsNext(cfg, s, h, g);
    FilterNext(h, g, p);
    FailedEnvelopeIsUndone(cfg, RunGroups(cfg, s, h).sim, g.events);
    if p(g) {
      RunGroupsNext(cfg, s, Filter(h, p), g);
    } else {
      assert Filter(h, p) + [] == Filter(h, p);
    }
  }

  lemma AgreesSplit(cfg: Config, s: Sim, gs: seq<Group>, g: Group, keep: set<nat>)
    requires Agrees(gs + [g], RunGroups(cfg, s, gs + [g]).oks, keep)
    ensures Agrees(gs, RunGroups(cfg, s, gs).oks, keep)
    ensures g.corr in keep <==> RunEnvelope(cfg, RunGroups(cfg, s, gs).sim, g.events).1
  {
    RunGroupsNext(cfg, s, gs, g);
    hide RunGroups, RunEnvelope;
    var n, oks := |gs|, RunGroups(cfg, s, gs + [g]).oks;
    assert forall i :: 0 <= i < n ==> (gs + [g])[i] == gs[i] && oks[i] == RunGroups(cfg, s, gs).oks[i];
    assert (gs + [g])[n] == g;
  }

  lemma OrderIsTotal()
    ensures TotalPreorder(InOrder)
  {
  }

  /** For any event list, Step 4 leaves the same pools and the same rows as running only
      the envelopes that succeed, in the same order. */
  lemma FailedEnvelopesAreInvisible(cfg: Config, pools: map<PoolKey, Pool>, events: seq<Event>)
    ensures var o := Step4(cfg, pools, events);
            var keep := Succeeded(Groups(events), o.oks);
            var o' := Step4(cfg, pools, Filter(events, InSet(keep)));
            o'.sim == o.sim && forall i :: 0 <= i < |o'.oks| ==> o'.oks[i]
  {
    var o := Step4(cfg, pools, events);
    var keep := Succeeded(Groups(events), o.oks);
    var sorted := Sort(events, InOrder);
    OrderIsTotal();
    FilterSort(events, InOrder, InSet(keep));
    GroupFilter(sorted, keep);
    GroupsAreDistinct(sorted);
    SucceededAgrees(Groups(events), o.oks);
    hide Sort, GroupByCorr, Filter, RunGroups, TotalPreorder, Succeeded, Agrees;
    DropFailed(cfg, Sim(pools, NO_ROWS), Groups(events), keep);
  }

  // ---- What a group holds ---------------------------------------------------

  function CorrIs(corr: nat): Event -> bool {
    (e: Event) => e.corr == corr
  }

  ghost predicate HoldsAll(gs: seq<Group>, es: seq<Event>) {
    && DistinctCorrs(gs)
    && (forall i :: 0 <= i < |gs| ==> gs[i].events == Filter(es, CorrIs(gs[i].corr)))
    && (forall c :: !Has(gs, c) ==> Filter(es, CorrIs(c)) == [])
  }

  lemma {:induction false} AddInEach(gs: seq<Group>, e: Event, i: nat)
    requires DistinctCorrs(gs) && i < |gs|
    ensures AddIn(gs, e)[i] == if gs[i].corr == e.corr then gs[i].(events := gs[i].events + [e]) else gs[i]
  {
    var n := |gs| - 1;
    if gs[n].corr != e.corr && i < n {
      AddInEach(gs[..n], e, i);
    }
  }

  lemma AddHoldsAll(gs: seq<Group>, es: seq<Event>, e: Event)
    requires HoldsAll(gs, es) && DistinctCorrs(AddEvent(gs, e))
    ensures HoldsAll(AddEvent(gs, e), es + [e])
  {
    var hs := AddEvent(gs, e);
    forall i | 0 <= i < |hs|
      ensures hs[i].events == Filter(es + [e], CorrIs(hs[i].corr))
    {
      hide Filter, AddIn, Has;
      FilterNext(es, e, CorrIs(hs[i].corr));
      if i < |gs| {
        AddInEach(gs, e, i);
        assert Filter(es, CorrIs(gs[i].corr)) + [] == Filter(es, CorrIs(gs[i].corr));
      }
    }
    forall c | !Has(hs, c)
      ensures Filter(es + [e], CorrIs(c)) == []
    {
      hide Filter;
      AddedHas(gs, e, c);
      FilterNext(es, e, CorrIs(c));
    }
  }

  lemma AddedHas(gs: seq<Group>, e: Event, c: nat)
    ensures Has(AddEvent(gs, e), c) <==> Has(gs, c) || c == e.corr
  {
    AddInKeepsCorrs(gs, e);
    HasNext(gs, Group(e.corr, [e]), c);
    hide AddIn;
    if Has(gs, e.corr) {
      if Has(gs, c) {
        var i :| 0 <= i < |gs| && gs[i].corr == c;
        assert AddEvent(gs, e)[i].corr == c;
      }
    }
  }

  lemma {:induction false} GroupsHoldAll(es: seq<Event>)
    ensures HoldsAll(GroupByCorr(es), es)
  {
    if es != [] {
      var h, e := es[..|es| - 1], es[|es| - 1];
      GroupsHoldAll(h);
      GroupsAreDistinct(es);
      assert h + [e] == es;
      hide HoldsAll, AddEvent, DistinctCorrs;
      AddHoldsAll(GroupByCorr(h), h, e);
    }
  }

  /** A group holds exactly the events of its envelope, in dispatch order. */
  lemma GroupsHoldTheirEvents(events: seq<Event>, i: nat)
    requires i < |Groups(events)|
    ensures Groups(events)[i].events == Sort(Filter(events, CorrIs(Groups(events)[i].corr)), InOrder)
    ensures var es := Groups(events)[i].events; forall a, b :: 0 <= a < b < |es| ==> NotLater(es[a], es[b])
  {
    var sorted := Sort(events, InOrder);
    GroupsHoldAll(sorted);
    OrderIsTotal();
    FilterSort(events, InOrder, CorrIs(Groups(events)[i].corr));
    SortSorts(Filter(events, CorrIs(Groups(events)[i].corr)), InOrder);
    hide Sort, Filter, GroupByCorr, TotalPreorder;
  }

  // ---- The dispatch order, field by field -------------------------------------

  /** Earlier business date first, then document chronology, document and sub-priority. */
  predicate NotLater(d: Event, e: Event) {
    && d.date <= e.date
    && (d.date == e.date ==> d.chrono <= e.chrono)
    && (d.date == e.date && d.chrono == e.chrono ==> d.doc <= e.doc)
    && (d.date == e.date && d.chrono == e.chrono && d.doc == e.doc ==> d.sub <= e.sub)
  }

  function SameKey(d: Event): Event -> bool {
    (e: Event) => e.date == d.date && e.chrono == d.chrono && e.doc == d.doc && e.sub == d.sub
  }

  /** Step 4 dispatches the events of the list, none missing and none twice, from the
      earliest to the latest; events with the same key keep the order of the list. */
  lemma DispatchOrder(events: seq<Event>, d: Event)
    ensures var es := Sort(events, InOrder);
            && multiset(es) == multiset(events)
            && (forall i, j :: 0 <= i < j < |es| ==> NotLater(es[i], es[j]))
            && Filter(es, SameKey(d)) == Filter(events, SameKey(d))
  {
    OrderIsTotal();
    SortPermutes(events, InOrder);
    SortSorts(events, InOrder);
    SortIsStable(events, InOrder, SameKey(d));
    hide Sort, Filter, TotalPreorder;
  }

  lemma {:induction false} AddInKeepsFirsts(gs: seq<Group>, e: Event)
    requires forall i :: 0 <= i < |gs| ==> gs[i].events != []
    ensures forall i :: 0 <= i < |gs| ==>
              AddIn(gs, e)[i].events != [] && AddIn(gs, e)[i].events[0] == gs[i].events[0]
  {
    if gs != [] {
      AddInKeepsFirsts(gs[..|gs| - 1], e);
    }
  }

  /** Where the groups' first events stand in the list. */
  ghost predicate FirstsFrom(es: seq<Event>, gs: seq<Group>, le: (Event, Event) -> bool) {
    && (forall i :: 0 <= i < |gs| ==> gs[i].events != [] && gs[i].events[0] in es)
    && (forall i, j :: 0 <= i < j < |gs| ==> gs[i].events != [] && gs[j].events != []
                                             && le(gs[i].events[0], gs[j].events[0]))
  }

  lemma FirstsNext(es: seq<Event>, gs: seq<Group>, e: Event, le: (Event, Event) -> bool)
    requires FirstsFrom(es, gs, le) && forall d :: d in es ==> le(d, e)
    ensures FirstsFrom(es + [e], AddEvent(gs, e), le)
  {
    AddInKeepsFirsts(gs, e);
    hide AddIn, Has;
  }

  lemma {:induction false} FirstsInOrder(es: seq<Event>, le: (Event, Event) -> bool)
    requires Sorted(es, le)
    ensures FirstsFrom(es, GroupByCorr(es), le)
  {
    if es != [] {
      var front, e := es[..|es| - 1], es[|es| - 1];
      FirstsInOrder(front, le);
      hide FirstsFrom, AddEvent;
      forall d | d in front
        ensures le(d, e)
      {
        var i :| 0 <= i < |front| && front[i] == d;
        assert es[i] == d && le(es[i], es[|es| - 1]);
      }
      FirstsNext(front, GroupByCorr(front), e, le);
      assert front + [e] == es;
    } else {
      assert FirstsFrom([], [], le);
    }
  }

  /** Envelopes run in the order of their first events. */
  lemma GroupsInOrder(events: seq<Event>, i: nat, j: nat)
    requires i < j < |Groups(events)|
    ensures var g, h := Groups(events)[i], Groups(events)[j];
            g.events != [] && h.events != [] && NotLater(g.events[0], h.events[0])
  {
    OrderIsTotal();
    SortSorts(events, InOrder);
    FirstsInOrder(Sort(events, InOrder), InOrder);
    hide Sort, GroupByCorr, TotalPreorder;
  }

  lemma {:induction false} FilterHas<T>(s: seq<T>, p: T -> bool, x: T)
    requires x in s && p(x)
    ensures x in Filter(s, p)
  {
    if s[|s| - 1] != x {
      FilterHas(s[..|s| - 1], p, x);
    }
  }

  /** Every event is in the group of its envelope, and the envelope has no other group. */
  lemma EveryEventHasOneGroup(events: seq<Event>, e: Event) returns (i: nat)
    requires e in events
    ensures i < |Groups(events)| && Groups(events)[i].corr == e.corr && e in Groups(events)[i].events
    ensures forall j :: 0 <= j < |Groups(events)| && j != i ==> Groups(events)[j].corr != e.corr
  {
    var sorted, gs := Sort(events, InOrder), Groups(events);
    SortPermutes(events, InOrder);
    assert e in multiset(sorted);
    GroupsHoldAll(sorted);
    FilterHas(sorted, CorrIs(e.corr), e);
    hide Sort, Filter, GroupByCorr;
    assert Has(gs, e.corr);
    i :| 0 <= i < |gs| && gs[i].corr == e.corr;
  }
}

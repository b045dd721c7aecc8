/**
  Work-order completion (committer.rs): one envelope consumes K components at their own
  cost methods and receives one output at the truncated unit cost. What stays on the
  work-in-progress account is the remainder of that division.
*/
module WorkOrder {
  import opened Collections
  import opened CommitterStep4
  import opened CostMethods
  import opened Int64
  import opened Sorting

  const STRIDE := 100_000
  const OUTPUT_SUB_PRIORITY := 1_000_000

  datatype Line = Line(sku: int, loc: int, qty: int)

  datatype Payload = Payload(
    wo: int, op: int, components: seq<Line>, output: Line, date: int, chrono: int, doc: int, corr: nat, at: int)

  /** What `expand_wo_complete_payload` accepts. */
  predicate WellFormed(p: Payload) {
    && p.components != [] && p.output.qty > 0
    && forall i :: 0 <= i < |p.components| ==> p.components[i].qty > 0
  }

  /** `as i32`. */
  function AsI32(x: int): int {
    (x + 0x8000_0000) % 0x1_0000_0000 - 0x8000_0000
  }

  function IssueId(p: Payload, offset: int): int {
    Sat(Sat(p.doc * STRIDE) + offset)
  }

  function EventOf(p: Payload, l: Line, qty: int, offset: int, sub: int): Event {
    Event(p.corr, IssueId(p, offset), WoComplete, l.sku, l.loc, qty, 0, p.date, p.chrono, p.doc, sub, p.at, p.wo, p.op)
  }

  function ComponentEvent(p: Payload, i: nat): Event
    requires i < |p.components|
  {
    EventOf(p, p.components[i], -p.components[i].qty, i, AsI32(i))
  }

  function OutputEvent(p: Payload): Event {
    EventOf(p, p.output, p.output.qty, STRIDE - 1, OUTPUT_SUB_PRIORITY)
  }

  function ComponentEvents(p: Payload, n: nat): (es: seq<Event>)
    requires n <= |p.components|
    ensures |es| == n
  {
    if n == 0 then [] else ComponentEvents(p, n - 1) + [ComponentEvent(p, n - 1)]
  }

  function Expanded(p: Payload): (es: seq<Event>)
    ensures |es| == |p.components| + 1
  {
    ComponentEvents(p, |p.components|) + [OutputEvent(p)]
  }

  /** `expand_wo_complete_payload` on a parsed payload; None is the parse error. */
  method Expand(p: Payload) returns (es: Option<seq<Event>>)
    ensures es == if WellFormed(p) then Some(Expanded(p)) else None
  {
    if p.components == [] || p.output.qty <= 0 {
      return None;
    }
    var events := [];
    for i := 0 to |p.components|
      invariant events == ComponentEvents(p, i)
      invariant forall j :: 0 <= j < i ==> p.components[j].qty > 0
    {
      if p.components[i].qty <= 0 {
        return None;
      }
      events := events + [ComponentEvent(p, i)];
    }
    es := Some(events + [OutputEvent(p)]);
  }

  lemma {:induction false} ComponentAt(p: Payload, n: nat, i: nat)
    requires i < n <= |p.components|
    ensures ComponentEvents(p, n)[i] == ComponentEvent(p, i)
  {
    if i < n - 1 {
      ComponentAt(p, n - 1, i);
    }
  }

  lemma ExpandedAt(p: Payload, i: nat)
    requires i <= |p.components|
    ensures Expanded(p)[i] == if i < |p.components| then ComponentEvent(p, i) else OutputEvent(p)
  {
    if i < |p.components| {
      ComponentAt(p, |p.components|, i);
    }
  }

  /** The event carries the payload's document and the line's pool and quantity. */
  ghost predicate Carries(p: Payload, e: Event, l: Line, qty: int, offset: int) {
    && e.kind == WoComplete && e.sku == l.sku && e.loc == l.loc && e.qty == qty
    && e.corr == p.corr && e.date == p.date && e.chrono == p.chrono && e.doc == p.doc && e.at == p.at
    && e.wo == p.wo && e.op == p.op
    && (InI64(p.doc * 100_000) && InI64(p.doc * 100_000 + offset) ==> e.issueId == p.doc * 100_000 + offset)
  }

  /** Component i is consumed under the issue id doc * 100 000 + i, and the output comes
      last, under the last id of the document's range. */
  lemma ExpandedByField(p: Payload, i: nat)
    requires i < |p.components|
    ensures Carries(p, Expanded(p)[i], p.components[i], -p.components[i].qty, i)
    ensures i < 0x8000_0000 ==> Expanded(p)[i].sub == i
    ensures var e := Expanded(p)[|p.components|];
            Carries(p, e, p.output, p.output.qty, 99_999) && e.sub == 1_000_000
  {
    ExpandedAt(p, i);
    ExpandedAt(p, |p.components|);
    hide Expanded;
  }

  /** Two events of documents with up to 99 999 components share an issue id only if they
      are the same line of the same document. */
  lemma IssueIdsAreUnique(p: Payload, q: Payload, i: nat, j: nat)
    requires i <= |p.components| <= 99_999 && j <= |q.components| <= 99_999
    requires 0 <= p.doc <= I64_MAX / 100_000 - 1 && 0 <= q.doc <= I64_MAX / 100_000 - 1
    ensures Expanded(p)[i].issueId == Expanded(q)[j].issueId ==>
              p.doc == q.doc && (i < |p.components| && j < |q.components| ==> i == j)
              && (i == |p.components| <==> j == |q.components|)
  {
    ExpandedAt(p, i);
    ExpandedAt(q, j);
    var a, b := if i < |p.components| then i else STRIDE - 1, if j < |q.components| then j else STRIDE - 1;
    assert 0 <= p.doc * STRIDE + a <= I64_MAX && 0 <= q.doc * STRIDE + b <= I64_MAX;
    assert Expanded(p)[i].issueId == p.doc * STRIDE + a && Expanded(q)[j].issueId == q.doc * STRIDE + b;
    hide Expanded;
    if p.doc * STRIDE + a == q.doc * STRIDE + b {
      SameDocument(p.doc, q.doc, a, b);
    }
  }

  /** The output's issue id differs from every component's exactly up to 99 999
      components: the next one gets the last id of the range as well. */
  lemma OutputIdIsOwnIff(p: Payload)
    requires 0 <= p.doc && p.doc * 100_000 + 100_000 + |p.components| <= I64_MAX
    ensures (forall i :: 0 <= i < |p.components| ==> Expanded(p)[i].issueId != Expanded(p)[|p.components|].issueId)
       <==> |p.components| <= 99_999
  {
    forall i | 0 <= i < |p.components|
      ensures Expanded(p)[i].issueId == p.doc * 100_000 + i
      ensures Expanded(p)[|p.components|].issueId == p.doc * 100_000 + 99_999
    {
      ExpandedByField(p, i);
      hide Expanded;
    }
    hide Expanded;
    if |p.components| > 99_999 {
      assert Expanded(p)[99_999].issueId == p.doc * 100_000 + 99_999;
    }
  }

  lemma SameDocument(d: int, e: int, a: int, b: int)
    requires 0 <= a < STRIDE && 0 <= b < STRIDE && d * STRIDE + a == e * STRIDE + b
    ensures d == e && a == b
  {
    assert (d - e) * STRIDE == b - a;
  }

  // ---- Components before the output -----------------------------------------

  lemma SmallI32(i: int)
    requires 0 <= i <= OUTPUT_SUB_PRIORITY + 1
    ensures AsI32(i) == i
  {
  }

  lemma FewComponentsInOrder(p: Payload)
    requires |p.components| <= OUTPUT_SUB_PRIORITY + 1
    ensures Sort(Expanded(p), InOrder) == Expanded(p)
  {
    var es := Expanded(p);
    forall i, j | 0 <= i < j < |es|
      ensures InOrder(es[i], es[j])
    {
      hide Expanded, AsI32;
      ExpandedAt(p, i);
      ExpandedAt(p, j);
      SmallI32(i);
      if j < |p.components| {
        SmallI32(j);
      }
    }
    hide InOrder, Expanded;
    SortedIsFixed(es, InOrder);
  }

  /** The dispatch order puts every component before the output exactly when there are
      at most 1 000 001 components: the output's sort key is a constant. */
  lemma OutputIsLastIff(p: Payload)
    requires WellFormed(p)
    ensures var es := Sort(Expanded(p), InOrder);
            es[|es| - 1] == OutputEvent(p) <==> |p.components| <= OUTPUT_SUB_PRIORITY + 1
  {
    var es := Expanded(p);
    if |p.components| <= OUTPUT_SUB_PRIORITY + 1 {
      FewComponentsInOrder(p);
    } else {
      var i := OUTPUT_SUB_PRIORITY + 1;
      var late := ComponentEvent(p, i);
      ExpandedAt(p, i);
      SmallI32(i);
      assert late == es[i];
      SortPermutes(es, InOrder);
      OrderIsTotal();
      SortSorts(es, InOrder);
      var sorted := Sort(es, InOrder);
      assert late in multiset(sorted);
      var j :| 0 <= j < |sorted| && sorted[j] == late;
      hide Sort, AsI32, TotalPreorder;
      if j < |sorted| - 1 {
        assert InOrder(sorted[j], sorted[|sorted| - 1]);
      }
    }
  }

  // ---- The work-in-progress account -----------------------------------------

  /** Debits less credits that one posting line puts on an account. */
  function Effect(p: PostingRow, account: int): int {
    (if p.debit == Some(account) then p.amount else 0) - (if p.credit == Some(account) then p.amount else 0)
  }

  function AccountNet(postings: seq<PostingRow>, account: int): int {
    if postings == [] then 0
    else AccountNet(postings[..|postings| - 1], account) + Effect(postings[|postings| - 1], account)
  }

  /** One posting line was added: this amount between these accounts. */
  ghost predicate Posted(r: Rows, t: Rows, amount: int, debit: int, credit: int) {
    && |t.postings| == |r.postings| + 1 && t.postings[..|r.postings|] == r.postings
    && t.postings[|r.postings|].amount == amount
    && t.postings[|r.postings|].debit == Some(debit) && t.postings[|r.postings|].credit == Some(credit)
  }

  lemma PostIsPosted(r: Rows, t: Rows, e: Event, amount: int, debit: int, credit: int, q: int)
    requires t.postings == r.postings
    ensures Posted(r, Post(t, e, amount, debit, credit, q), amount, debit, credit)
  {
  }

  lemma PostedNets(r: Rows, t: Rows, amount: int, debit: int, credit: int, account: int)
    requires Posted(r, t, amount, debit, credit)
    ensures AccountNet(t.postings, account)
         == AccountNet(r.postings, account) + (if debit == account then amount else 0)
            - (if credit == account then amount else 0)
  {
  }

  // ---- What a component costs -----------------------------------------------

  /** The cost of a FIFO walk is the cost of its rows. */
  lemma {:induction false} WalkCost(views: seq<LayerView>, remaining: int, cost: int, e: Event)
    ensures var t := TakeLayers(views, remaining, cost, e);
            !t.overflow ==> DepletionCost(t.rows, cost) == Some(t.cost)
    decreases |views|
  {
    if views != [] && remaining != 0 {
      hide InI64;
      if views[0].qty <= 0 {
        WalkCost(views[1..], remaining, cost, e);
      } else {
        var take := Min(remaining, views[0].qty);
        var p := take * views[0].unitCost;
        if InI64(p) && InI64(cost + p) {
          WalkCost(views[1..], remaining - take, cost + p, e);
          var u := TakeLayers(views[1..], remaining - take, cost + p, e);
          assert ([Depletion(views[0], e, take)] + u.rows)[1..] == u.rows;
        }
      }
    }
  }

  /** A successful component debits work in progress with exactly its component cost. */
  ghost predicate ComponentPosted(s: Sim, a: Applied, e: Event) {
    a.verdict.Fine? && ComponentCost(s.rows, a.sim.rows).Some? ==>
      Posted(s.rows, a.sim.rows, ComponentCost(s.rows, a.sim.rows).value, AccountWip(e.wo, e.op),
             AccountInventory(KeyOf(e)))
  }

  lemma FifoComponent(s: Sim, e: Event)
    requires e.kind.WoComplete? && e.qty < 0
    ensures ComponentPosted(s, Deplete(s, e), e)
  {
    if KeyOf(e) in s.pools {
      var t := TakeLayers(s.pools[KeyOf(e)].layers, Abs(e.qty), 0, e);
      WalkCost(s.pools[KeyOf(e)].layers, Abs(e.qty), 0, e);
      hide TakeLayers, DepletionCost, Post, InI64, AccountWip, AccountInventory;
      if !t.overflow && t.remaining <= 0 {
        var rows := s.rows.(depletions := s.rows.depletions + t.rows);
        var a := Deplete(s, e);
        PostIsPosted(s.rows, rows, e, t.cost, AccountWip(e.wo, e.op), AccountInventory(KeyOf(e)), -Abs(e.qty));
        PostKeepsRest(rows, e, t.cost, AccountWip(e.wo, e.op), AccountInventory(KeyOf(e)), -Abs(e.qty));
        assert a.sim.rows.depletions[|s.rows.depletions|..] == t.rows;
        assert a.sim.rows.consumptions[|s.rows.consumptions|..] == [];
      }
    }
  }

  lemma PostKeepsRest(r: Rows, e: Event, amount: int, debit: int, credit: int, q: int)
    ensures var t := Post(r, e, amount, debit, credit, q);
            t.depletions == r.depletions && t.consumptions == r.consumptions
  {
  }

  lemma OneConsumption(before: Rows, after: Rows, c: ConsumptionRow)
    requires after.depletions == before.depletions && after.consumptions == before.consumptions + [c]
    ensures ComponentCost(before, after) == if InI64(c.qty * c.unitCost) then Some(c.qty * c.unitCost) else None
  {
    assert after.depletions[|before.depletions|..] == [];
    assert after.consumptions[|before.consumptions|..] == [c];
    assert [c][1..] == [];
    assert DepletionCost([], 0) == Some(0);
    assert CheckedAdd(0, c.qty, c.unitCost) == if InI64(c.qty * c.unitCost) then Some(c.qty * c.unitCost) else None;
    assert ConsumptionCost([], c.qty * c.unitCost) == Some(c.qty * c.unitCost);
    hide CheckedAdd;
    assert ConsumptionCost([c], 0) == CheckedAdd(0, c.qty, c.unitCost);
  }

  lemma AvgComponent(s: Sim, e: Event)
    requires e.kind.WoComplete? && e.qty < 0
    ensures ComponentPosted(s, AvgConsume(s, e), e)
  {
    var k := KeyOf(e);
    var a := AvgConsume(s, e);
    if a.verdict.Fine? {
      var c := Consumed(e, s.pools[k].avgUnitCost, Avg);
      var rows := s.rows.(consumptions := s.rows.consumptions + [c]);
      var amount := Abs(e.qty) * s.pools[k].avgUnitCost;
      hide Post, InI64, ComponentCost, AccountWip, AccountInventory;
      PostIsPosted(s.rows, rows, e, amount, AccountWip(e.wo, e.op), AccountInventory(k), -Abs(e.qty));
      PostKeepsRest(rows, e, amount, AccountWip(e.wo, e.op), AccountInventory(k), -Abs(e.qty));
      OneConsumption(s.rows, a.sim.rows, c);
    }
  }

  lemma StdComponent(s: Sim, e: Event, unitCost: int)
    requires e.kind.WoComplete? && e.qty < 0
    ensures ComponentPosted(s, StdConsume(s, e, unitCost), e)
  {
    var k := KeyOf(e);
    var a := StdConsume(s, e, unitCost);
    var c := Consumed(e, unitCost, Std);
    var rows := s.rows.(consumptions := s.rows.consumptions + [c]);
    var amount := Wrap(Abs(e.qty) * unitCost);
    assert InI64(c.qty * c.unitCost) ==> amount == c.qty * c.unitCost;
    hide Post, InI64, ComponentCost, Wrap, AccountWip, AccountInventory;
    PostIsPosted(s.rows, rows, e, amount, AccountWip(e.wo, e.op), AccountInventory(k), -Abs(e.qty));
    PostKeepsRest(rows, e, amount, AccountWip(e.wo, e.op), AccountInventory(k), -Abs(e.qty));
    OneConsumption(s.rows, a.sim.rows, c);
  }

  lemma AnyComponent(cfg: Config, s: Sim, e: Event)
    requires e.kind.WoComplete? && e.qty < 0
    ensures ComponentPosted(s, ApplyOne(cfg, s, e), e)
  {
    FifoComponent(s, e);
    AvgComponent(s, e);
    if KeyOf(e) in cfg.standards {
      StdComponent(s, e, cfg.standards[KeyOf(e)]);
    }
    hide Deplete, AvgConsume, StdConsume, ComponentCost, Posted;
  }

  // ---- The whole envelope ---------------------------------------------------

  function Wip(p: Payload): int {
    AccountWip(p.wo, p.op)
  }

  /** The inventory account of the line is the work order's own account. */
  predicate Collides(p: Payload, l: Line) {
    AccountInventory((l.sku, l.loc)) == Wip(p)
  }

  /** No line of the payload collides. */
  ghost predicate Apart(p: Payload) {
    !Collides(p, p.output) && forall i :: 0 <= i < |p.components| ==> !Collides(p, p.components[i])
  }

  /** The cost of the first `n` components. */
  function Spent(cfg: Config, s: Sim, p: Payload, n: nat): int
    requires n <= |p.components|
  {
    RunEvents(cfg, s, ComponentEvents(p, n)).woCost
  }

  /** The cost of those among the first `n` components that collide, or that do not. */
  function SpentBy(cfg: Config, s: Sim, p: Payload, n: nat, colliding: bool): int
    requires n <= |p.components|
  {
    if n == 0 then 0
    else
      SpentBy(cfg, s, p, n - 1, colliding)
      + if Collides(p, p.components[n - 1]) == colliding then Spent(cfg, s, p, n) - Spent(cfg, s, p, n - 1) else 0
  }

  lemma {:induction false} SpentSplits(cfg: Config, s: Sim, p: Payload, n: nat)
    requires n <= |p.components|
    ensures SpentBy(cfg, s, p, n, true) + SpentBy(cfg, s, p, n, false) == Spent(cfg, s, p, n)
  {
    hide Collides;
    if n > 0 {
      hide Spent;
      SpentSplits(cfg, s, p, n - 1);
    }
  }

  lemma {:induction false} NoneCollide(cfg: Config, s: Sim, p: Payload, n: nat)
    requires n <= |p.components| && forall i :: 0 <= i < n ==> !Collides(p, p.components[i])
    ensures SpentBy(cfg, s, p, n, true) == 0
  {
    hide Collides, Spent;
    if n > 0 {
      NoneCollide(cfg, s, p, n - 1);
    }
  }

  lemma StepComponent(cfg: Config, p: Progress, e: Event)
    requires e.kind.WoComplete? && e.qty < 0 && !p.failed
    ensures var q := StepEvent(cfg, p, e);
            !q.failed ==>
              Posted(p.sim.rows, q.sim.rows, q.woCost - p.woCost, AccountWip(e.wo, e.op), AccountInventory(KeyOf(e)))
  {
    AnyComponent(cfg, p.sim, e);
    assert Injected(e, p.woCost) == e;
    hide ApplyOne, ComponentCost, Posted, InI64, AccountWip, AccountInventory;
  }

  /** What `n` components have put on an account. */
  ghost predicate Accumulated(s: Sim, q: Progress, account: int, sum: int) {
    && InI64(q.woCost)
    && AccountNet(q.sim.rows.postings, account) == AccountNet(s.rows.postings, account) + sum
  }

  lemma {:induction false} ComponentsAccumulate(cfg: Config, s: Sim, p: Payload, n: nat)
    requires WellFormed(p) && n <= |p.components|
    ensures var q := RunEvents(cfg, s, ComponentEvents(p, n));
            !q.failed ==> Accumulated(s, q, Wip(p), SpentBy(cfg, s, p, n, false))
  {
    hide RunEvents, AccountNet, StepEvent, Accumulated, AsI32, IssueId, Collides, AccountWip, AccountInventory;
    if n == 0 {
      NothingAccumulated(cfg, s, Wip(p));
    } else {
      ComponentsAccumulate(cfg, s, p, n - 1);
      var es, e := ComponentEvents(p, n - 1), ComponentEvent(p, n - 1);
      var q := RunEvents(cfg, s, es);
      RunSnoc(cfg, s, es, e);
      if !q.failed {
        StepAccumulates(cfg, s, q, e, SpentBy(cfg, s, p, n - 1, false));
        CollidesIs(p, p.components[n - 1]);
      }
    }
  }

  lemma CollidesIs(p: Payload, l: Line)
    ensures Collides(p, l) <==> AccountInventory((l.sku, l.loc)) == AccountWip(p.wo, p.op)
  {
  }

  lemma NothingAccumulated(cfg: Config, s: Sim, account: int)
    ensures Accumulated(s, RunEvents(cfg, s, []), account, 0)
  {
  }

  lemma StepAccumulates(cfg: Config, s: Sim, p: Progress, e: Event, sum: int)
    requires Accumulated(s, p, AccountWip(e.wo, e.op), sum) && e.kind.WoComplete? && e.qty < 0 && !p.failed
    ensures var q, wip := StepEvent(cfg, p, e), AccountWip(e.wo, e.op);
            !q.failed ==>
              Accumulated(s, q, wip, sum + if AccountInventory(KeyOf(e)) == wip then 0 else q.woCost - p.woCost)
  {
    hide AccountNet, StepEvent, Posted, AccountWip, AccountInventory;
    StepComponent(cfg, p, e);
    StepInRange(cfg, p, e);
    var q, wip := StepEvent(cfg, p, e), AccountWip(e.wo, e.op);
    if !q.failed {
      PostedNets(p.sim.rows, q.sim.rows, q.woCost - p.woCost, wip, AccountInventory(KeyOf(e)), wip);
    }
  }

  lemma RunSnoc(cfg: Config, s: Sim, es: seq<Event>, e: Event)
    ensures var p := RunEvents(cfg, s, es);
            RunEvents(cfg, s, es + [e]) == if p.failed then p else StepEvent(cfg, p, e)
  {
    assert (es + [e])[..|es|] == es;
  }

  lemma StepInRange(cfg: Config, p: Progress, e: Event)
    requires InI64(p.woCost)
    ensures InI64(StepEvent(cfg, p, e).woCost)
  {
    hide ApplyOne, ComponentCost;
  }

  /** The output's amount is the truncated unit cost times the quantity, in range for
      every method because it is no larger than the accumulated cost. */
  lemma AmountIsClose(cost: int, qty: int)
    requires qty > 0 && InI64(cost)
    ensures var amount := qty * TruncDiv(cost, qty);
            && InI64(amount) && Abs(cost - amount) < qty
            && (cost >= 0 ==> cost - amount == cost % qty)
  {
    if cost >= 0 {
      Quotient(cost, qty);
    } else {
      Quotient(-cost, qty);
      NegatedProduct(qty, (-cost) / qty);
    }
    TruncDivIs(cost, qty);
    hide TruncDiv;
  }

  lemma TruncDivIs(cost: int, qty: int)
    requires qty > 0
    ensures TruncDiv(cost, qty) == if cost >= 0 then cost / qty else -((-cost) / qty)
  {
  }

  lemma Quotient(c: int, q: int)
    requires c >= 0 && q > 0
    ensures q * (c / q) == c - c % q && 0 <= c % q < q && 0 <= q * (c / q)
  {
  }

  lemma NegatedProduct(a: int, b: int)
    ensures a * -b == -(a * b)
  {
  }

  lemma OutputPosted(cfg: Config, s: Sim, e: Event)
    requires e.kind.WoComplete? && e.qty > 0 && InI64(e.qty * e.unitCost)
    ensures var a := ApplyOne(cfg, s, e);
            && a.verdict.Fine?
            && Posted(s.rows, a.sim.rows, e.qty * e.unitCost, AccountInventory(KeyOf(e)), AccountWip(e.wo, e.op))
  {
    var k, amount := KeyOf(e), e.qty * e.unitCost;
    assert Wrap(amount) == amount && Abs(e.qty) == e.qty;
    hide Post, InI64, Wrap, RolledAverage, Posted, AccountWip, AccountInventory;
    var plain := AddLayer(s, e, e.unitCost);
    PostIsPosted(s.rows, plain.rows, e, amount, AccountInventory(k), AccountWip(e.wo, e.op), e.qty);
    var q := PoolAt(s.pools, k);
    var rolled := q.(avgUnitCost := RolledAverage(q, e.qty, e.unitCost),
                     avgTotalQty := Wrap(q.avgTotalQty + e.qty), avgDirty := true);
    var averaged := AddLayer(SetPool(s, k, rolled), e, e.unitCost);
    PostIsPosted(s.rows, averaged.rows, e, amount, AccountInventory(k), AccountWip(e.wo, e.op), e.qty);
  }

  /** The amount of the output: its quantity at the truncated unit cost. */
  function OutputAmount(p: Payload, total: int): int
    requires p.output.qty > 0
  {
    p.output.qty * TruncDiv(total, p.output.qty)
  }

  /** What a total leaves after paying `qty` units at the truncated unit cost: less than
      one unit of currency per unit of output, and for a non-negative total the total
      modulo the quantity. */
  predicate Residual(total: int, qty: int, net: int)
    requires qty > 0
  {
    && net == total - qty * TruncDiv(total, qty) && Abs(net) < qty
    && (total >= 0 ==> net == total % qty)
  }

  /** What a work order leaves on its own account, by the debit and credit accounts of
      its posting lines. A line whose inventory account is that account debits and
      credits it alike, so it drops out. The residue of the division is left exactly
      when the components that drop out cost what the output amounts to if it drops out,
      and nothing otherwise; in particular when no line collides. */
  ghost predicate WipLeft(cfg: Config, s: Sim, p: Payload, net: int)
    requires WellFormed(p)
  {
    var n, q := |p.components|, p.output.qty;
    var total := Spent(cfg, s, p, n);
    && net == SpentBy(cfg, s, p, n, false) - (if Collides(p, p.output) then 0 else OutputAmount(p, total))
    && (Residual(total, q, net)
        <==> SpentBy(cfg, s, p, n, true) == if Collides(p, p.output) then OutputAmount(p, total) else 0)
    && (Apart(p) ==> Residual(total, q, net))
  }

  function WipNet(s: Sim, t: Sim, p: Payload): int {
    AccountNet(t.rows.postings, Wip(p)) - AccountNet(s.rows.postings, Wip(p))
  }

  /** A work-order envelope that succeeds, with any mix of methods. */
  lemma ResidueIsRemainder(cfg: Config, s: Sim, p: Payload)
    requires WellFormed(p)
    ensures var before := RunEvents(cfg, s, ComponentEvents(p, |p.components|));
            var after := RunEvents(cfg, s, Expanded(p));
            !after.failed ==> !before.failed && WipLeft(cfg, s, p, WipNet(s, after.sim, p))
  {
    hide RunEvents, StepEvent, WipLeft, WipNet, Accumulated, ComponentEvents, OutputEvent, SpentBy;
    var es, e := ComponentEvents(p, |p.components|), OutputEvent(p);
    var before := RunEvents(cfg, s, es);
    RunSnoc(cfg, s, es, e);
    ComponentsAccumulate(cfg, s, p, |p.components|);
    OutputEventIs(p);
    if !before.failed {
      OutputLeaves(cfg, s, before, e, SpentBy(cfg, s, p, |p.components|, false));
      NetIsLeft(cfg, s, p, WipNet(s, StepEvent(cfg, before, e).sim, p)) by {
        assert Spent(cfg, s, p, |p.components|) == before.woCost;
        AccumulatedInRange(s, before, Wip(p), SpentBy(cfg, s, p, |p.components|, false));
        CollidesIs(p, p.output);
        WipNetIs(s, StepEvent(cfg, before, e).sim, p);
      }
    }
  }

  lemma AccumulatedInRange(s: Sim, q: Progress, account: int, sum: int)
    requires Accumulated(s, q, account, sum)
    ensures InI64(q.woCost)
  {
  }

  lemma WipNetIs(s: Sim, t: Sim, p: Payload)
    ensures WipNet(s, t, p)
         == AccountNet(t.rows.postings, AccountWip(p.wo, p.op)) - AccountNet(s.rows.postings, AccountWip(p.wo, p.op))
  {
  }

  /** The formula for the net decides when it is the residue. */
  lemma NetIsLeft(cfg: Config, s: Sim, p: Payload, net: int)
    requires WellFormed(p) && InI64(Spent(cfg, s, p, |p.components|))
    requires net == SpentBy(cfg, s, p, |p.components|, false)
                    - if Collides(p, p.output) then 0 else OutputAmount(p, Spent(cfg, s, p, |p.components|))
    ensures WipLeft(cfg, s, p, net)
  {
    hide Spent, SpentBy, Collides, TruncDiv;
    var n := |p.components|;
    SpentSplits(cfg, s, p, n);
    AmountIsClose(Spent(cfg, s, p, n), p.output.qty);
    if Apart(p) {
      NoneCollide(cfg, s, p, n);
    }
  }

  lemma OutputEventIs(p: Payload)
    requires WellFormed(p)
    ensures var e := OutputEvent(p);
            && e.kind.WoComplete? && e.qty == p.output.qty > 0
            && KeyOf(e) == (p.output.sku, p.output.loc) && e.wo == p.wo && e.op == p.op
  {
  }

  lemma OutputLeaves(cfg: Config, s: Sim, p: Progress, e: Event, sum: int)
    requires Accumulated(s, p, AccountWip(e.wo, e.op), sum) && e.kind.WoComplete? && e.qty > 0 && !p.failed
    ensures var q, wip := StepEvent(cfg, p, e), AccountWip(e.wo, e.op);
            AccountNet(q.sim.rows.postings, wip) - AccountNet(s.rows.postings, wip)
            == sum - if AccountInventory(KeyOf(e)) == wip then 0 else e.qty * TruncDiv(p.woCost, e.qty)
  {
    hide AccountNet, ApplyOne, InI64, TruncDiv, Posted, AccountWip, AccountInventory;
    AmountIsClose(p.woCost, e.qty);
    var f, wip := Injected(e, p.woCost), AccountWip(e.wo, e.op);
    OutputPosted(cfg, p.sim, f);
    PostedNets(p.sim.rows, ApplyOne(cfg, p.sim, f).sim.rows, f.qty * f.unitCost, AccountInventory(KeyOf(e)), wip, wip);
  }

  /** In dispatch order too, up to the component bound. */
  lemma EnvelopeResidue(cfg: Config, s: Sim, p: Payload)
    requires WellFormed(p) && |p.components| <= OUTPUT_SUB_PRIORITY + 1
    ensures var r := RunEnvelope(cfg, s, Sort(Expanded(p), InOrder));
            r.1 ==> WipLeft(cfg, s, p, WipNet(s, r.0, p))
  {
    hide RunEvents, Sort, Rollback, Expanded, ComponentEvents, WipLeft, WipNet;
    FewComponentsInOrder(p);
    ResidueIsRemainder(cfg, s, p);
  }

  /** The same inside a SuperBatch: when the SuperBatch holds the envelope's events as
      expanded and the envelope succeeds, its own group leaves exactly that. */
  lemma SuperBatchResidue(cfg: Config, pools: map<PoolKey, Pool>, events: seq<Event>, p: Payload, i: nat)
    requires WellFormed(p) && |p.components| <= OUTPUT_SUB_PRIORITY + 1
    requires Filter(events, CorrIs(p.corr)) == Expanded(p)
    requires i < |Groups(events)| && Groups(events)[i].corr == p.corr
    ensures var start := Sim(pools, NO_ROWS);
            var s, t := RunGroups(cfg, start, Groups(events)[..i]).sim, RunGroups(cfg, start, Groups(events)[..i + 1]);
            t.oks[i] ==> WipLeft(cfg, s, p, WipNet(s, t.sim, p))
  {
    hide RunGroups, Groups, RunEnvelope, RunEvents, Sort, Filter, Expanded, WipLeft, WipNet;
    var gs := Groups(events);
    var start := Sim(pools, NO_ROWS);
    GroupsHoldTheirEvents(events, i);
    RunGroupsNext(cfg, start, gs[..i], gs[i]);
    assert gs[..i] + [gs[i]] == gs[..i + 1];
    EnvelopeResidue(cfg, RunGroups(cfg, start, gs[..i]).sim, p);
  }

  // ---- A work order whose accounts coincide -----------------------------------

  /** SKU wo + 6000 at location `op` has the account number of work order `wo`, `op`. */
  function CollidingPayload(wo: int, op: int): Payload {
    Payload(wo, op, [Line(wo + 6000, op, 1)], Line(wo + 6001, op, 3), 0, 0, 0, 0, 0)
  }

  function CollidingConfig(wo: int, op: int): Config {
    Config(map[wo + 6000 := Std], map[(wo + 6000, op) := 10])
  }

  lemma NextAccountDiffers(x: int)
    ensures Wrap(x + 1000) != Wrap(x)
  {
    WrapAdd(x, 1000);
  }

  lemma CollidingLines(wo: int, op: int)
    ensures var p := CollidingPayload(wo, op); Collides(p, p.components[0]) && !Collides(p, p.output)
  {
    NextAccountDiffers(7_000_000 + wo * 1000 + op);
  }

  lemma CollidingRun(cfg: Config, s: Sim, p: Payload)
    requires |p.components| == 1 && WellFormed(p) && p.components[0].qty == 1
    requires MethodOf(cfg, p.components[0].sku) == Std
    requires var k := (p.components[0].sku, p.components[0].loc); k in cfg.standards && cfg.standards[k] == 10
    requires MethodOf(cfg, p.output.sku) == Fifo && p.output.qty == 3
    ensures var q := RunEvents(cfg, s, ComponentEvents(p, 1)); !q.failed && q.woCost == 10
    ensures !RunEvents(cfg, s, Expanded(p)).failed
  {
    var c, e := ComponentEvent(p, 0), OutputEvent(p);
    assert ComponentEvents(p, 0) == [] && ComponentEvents(p, 1) == [] + [c];
    RunSnoc(cfg, s, [], c);
    RunSnoc(cfg, s, ComponentEvents(p, 1), e);
    var start := Progress(s, 0, false);
    var a := StdConsume(s, c, 10);
    OneConsumption(s.rows, a.sim.rows, Consumed(c, 10, Std));
    assert StepEvent(cfg, start, c) == Progress(a.sim, 10, false);
    hide ComponentCost;
    assert Injected(e, 10).unitCost == 3;
  }

  /** Every work order has a component it cannot tell from itself: one unit at standard
      cost 10, three units of output, and its account ends nine below where it was
      instead of one above. */
  lemma CollisionLosesResidue(wo: int, op: int)
    ensures var cfg, p, s := CollidingConfig(wo, op), CollidingPayload(wo, op), Sim(map[], NO_ROWS);
            var r := RunEnvelope(cfg, s, Sort(Expanded(p), InOrder));
            r.1 && Spent(cfg, s, p, 1) == 10 && WipNet(s, r.0, p) == -9 && !Residual(10, 3, -9)
  {
    hide RunEvents, Sort, Rollback, Expanded, ComponentEvents, WipNet, Collides, WipLeft, SpentBy;
    var cfg, p, s := CollidingConfig(wo, op), CollidingPayload(wo, op), Sim(map[], NO_ROWS);
    CollidingLines(wo, op);
    CollidingRun(cfg, s, p);
    FewComponentsInOrder(p);
    EnvelopeResidue(cfg, s, p);
    CollidedNet(cfg, s, p, WipNet(s, RunEnvelope(cfg, s, Sort(Expanded(p), InOrder)).0, p));
  }

  lemma CollidedNet(cfg: Config, s: Sim, p: Payload, net: int)
    requires WellFormed(p) && |p.components| == 1 && p.output.qty == 3 && Spent(cfg, s, p, 1) == 10
    requires Collides(p, p.components[0]) && !Collides(p, p.output) && WipLeft(cfg, s, p, net)
    ensures net == -9
  {
    hide Spent, Collides;
    assert SpentBy(cfg, s, p, 0, false) == 0;
    assert TruncDiv(10, 3) == 3;
  }
}

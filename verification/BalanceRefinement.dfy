/**
  How the two models of the balance arena fit together: BalanceDrain splits the writers'
  and drains' accesses to one cell into atomic steps, BalanceTransaction takes a landing
  delta and a drained row as one step each. Every atomic step of the former is, seen in
  the shared table of the latter, nothing, one such drain or one such landing.
*/
module BalanceRefinement {
  import opened BalancePair
  import D = BalanceDrain
  import T = BalanceTransaction

  /** The table with the cell and its row put in their place. */
  function Placed(m: T.Shared, k: T.Key, s: D.State): T.Shared {
    T.Shared(m.cells[k := s.bal],
             if s.row.Row? then m.rows[k := T.Stored(s.row.bal, s.row.lastSeq)] else m.rows - {k})
  }

  /** The delta a step adds to the cell, if it is a swap that takes effect. */
  predicate Adds(s: D.State, e: D.Event) {
    e.Swap? && D.Writer(s, e.w).Loaded? && s.bal == D.Writer(s, e.w).cur
  }

  /** The row a step writes, if it is an upsert that takes effect. */
  predicate Writes(s: D.State, e: D.Event) {
    && e.DrainUpsert? && e.ok && D.Drain(s, e.d).Queued?
    && (s.row.NoRow? || s.row.lastSeq < D.Drain(s, e.d).last)
  }

  lemma StepEffect(s: D.State, e: D.Event)
    ensures var t := D.Next(s, e);
            && t.bal == (if Adds(s, e) then AddPair(s.bal, D.Writer(s, e.w).delta) else s.bal)
            && t.row == (if Writes(s, e) then var q := D.Drain(s, e.d); D.Row(q.bal, q.last, q.upTo) else s.row)
  {
    hide AddPair;
  }

  /** An upsert that takes effect is the drain step of BalanceTransaction, a swap that
      takes effect is its landing of a delta, and no other step changes the table. */
  lemma StepRefines(t: T.State, m: T.Shared, k: T.Key, s: D.State, e: D.Event)
    requires t.shared == Placed(m, k, s)
    ensures var after := Placed(m, k, D.Next(s, e));
            if Writes(s, e) then
              var q := D.Drain(s, e.d); T.Next(t, T.DrainUpsert(k, T.Stored(q.bal, q.last))).shared == after
            else if Adds(s, e) then T.ApplyTo(t.shared, k, D.Writer(s, e.w).delta) == after
            else t.shared == after
  {
    StepEffect(s, e);
    hide D.Next, AddPair, T.LocalStep, T.StepFits;
    var after := Placed(m, k, D.Next(s, e));
    if Writes(s, e) {
      var q := D.Drain(s, e.d);
      assert after.rows == t.shared.rows[k := T.Stored(q.bal, q.last)];
    } else if Adds(s, e) {
      assert after.cells == t.shared.cells[k := AddPair(s.bal, D.Writer(s, e.w).delta)];
    }
  }

  /** So a drain made of its atomic steps, interleaved with anything but swaps, changes
      nothing a reader sees, for any key; and a swap adds its delta at its key. */
  lemma StepKeepsView(m: T.Shared, k: T.Key, s: D.State, e: D.Event, j: T.Key)
    ensures var before, after := T.View(Placed(m, k, s), j), T.View(Placed(m, k, D.Next(s, e)), j);
            after == if j == k && Adds(s, e) then AddPair(before, D.Writer(s, e.w).delta) else before
  {
    StepEffect(s, e);
    hide D.Next, AddPair;
  }

  /** The deltas that landed in a run. */
  function Landed(s: D.State, es: seq<D.Event>): seq<Pair> {
    if es == [] then []
    else
      var front, e := es[..|es| - 1], es[|es| - 1];
      var t := D.Run(s, front);
      Landed(s, front) + if Adds(t, e) then [D.Writer(t, e.w).delta] else []
  }

  function AddAll(b: Pair, ds: seq<Pair>): Pair {
    if ds == [] then b else AddPair(AddAll(b, ds[..|ds| - 1]), ds[|ds| - 1])
  }

  lemma {:induction false} RunKeepsView(m: T.Shared, k: T.Key, s: D.State, es: seq<D.Event>, j: T.Key)
    ensures var before, after := T.View(Placed(m, k, s), j), T.View(Placed(m, k, D.Run(s, es)), j);
            after == if j == k then AddAll(before, Landed(s, es)) else before
  {
    hide D.Next, T.View, Placed, Adds, AddPair;
    if es != [] {
      var n := |es| - 1;
      RunKeepsView(m, k, s, es[..n], j);
      var t := D.Run(s, es[..n]);
      StepKeepsView(m, k, t, es[n], j);
      var ds := Landed(s, es[..n]);
      if Adds(t, es[n]) {
        AddsIs(t, es[n]);
        var d := D.Writer(t, es[n].w).delta;
        assert (ds + [d])[..|ds|] == ds;
      } else {
        assert ds + [] == ds;
      }
    }
  }

  lemma AddsIs(s: D.State, e: D.Event)
    requires Adds(s, e)
    ensures e.Swap? && D.Writer(s, e.w).Loaded?
  {
  }
}

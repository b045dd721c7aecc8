/**
  Rounding of the weighted-average method (avg.rs) over any run of receipts and issues of
  one pool, starting empty and with non-negative costs.
*/
module AvgRounding {
  import opened CostMethods
  import opened Int64

  /** A unit cost as the source has it, a 64-bit value, and not negative. */
  type Cost = c: int | 0 <= c <= I64_MAX

  datatype Move = In(qty: nat, unitCost: Cost) | Out(qty: nat)

  /** The pool's running state, and as history: the stock without the 64-bit cut, the
      value received and issued, the rounding allowance, the least and greatest receipt
      cost, whether there was a receipt, and whether the last one was of nothing into an
      empty pool. */
  datatype Ledger = Ledger(
    avg: int, qty: int, stock: int, received: int, issued: int, slack: int,
    lo: int, hi: int, any: bool, emptied: bool)

  const START := Ledger(0, 0, 0, 0, 0, 0, 0, 0, false, false)

  function PoolOf(l: Ledger): Pool {
    Pool([], 0, l.avg, l.qty, false)
  }

  /** A move the method refuses changes nothing. */
  predicate Accepts(l: Ledger, m: Move) {
    match m
    case In(q, c) => InI64(q * c)
    case Out(q) => 0 < l.qty && q <= l.qty && InI64(q * l.avg)
  }

  function Step(l: Ledger, m: Move): Ledger {
    if !Accepts(l, m) then l
    else
      match m
      case In(q, c) =>
        Ledger(RolledAverage(PoolOf(l), q, c), Wrap(l.qty + q), l.stock + q, l.received + q * c, l.issued,
               l.slack + Max(l.qty + q - 1, 0),
               if l.any then Min(l.lo, c) else c, if l.any then Max(l.hi, c) else c,
               true, l.qty + q == 0)
      case Out(q) => l.(qty := l.qty - q, stock := l.stock - q, issued := l.issued + q * l.avg)
  }

  function Run(ms: seq<Move>): Ledger {
    if ms == [] then START else Step(Run(ms[..|ms| - 1]), ms[|ms| - 1])
  }

  /** The quantity received fits beside the stock: what a caller can look up first. */
  predicate FitsNext(l: Ledger, m: Move) {
    m.In? && Accepts(l, m) ==> l.qty + m.qty <= I64_MAX
  }

  predicate Fits(ms: seq<Move>) {
    ms == [] || (Fits(ms[..|ms| - 1]) && FitsNext(Run(ms[..|ms| - 1]), ms[|ms| - 1]))
  }

  function UnitsIn(ms: seq<Move>): nat {
    if ms == [] then 0 else UnitsIn(ms[..|ms| - 1]) + if ms[|ms| - 1].In? then ms[|ms| - 1].qty else 0
  }

  // ---- Arithmetic of one receipt --------------------------------------------

  /** The value before the receipt plus the receipt. */
  function Value(avg: int, have: int, q: int, c: int): int {
    avg * have + q * c
  }

  lemma Product(a: int, b: int, n: int)
    requires a <= b && n >= 0
    ensures a * n <= b * n
  {
  }

  lemma Distributes(a: int, m: int, n: int)
    ensures a * (m + n) == a * m + n * a
  {
  }

  lemma ValueBounds(avg: int, have: int, q: int, c: int, lo: int, hi: int)
    requires have >= 0 && q >= 0 && lo <= c <= hi && (have > 0 ==> lo <= avg <= hi)
    ensures lo * (have + q) <= Value(avg, have, q, c) <= hi * (have + q)
  {
    Distributes(lo, have, q);
    Distributes(hi, have, q);
    Product(lo, c, q);
    Product(c, hi, q);
    if have > 0 {
      Product(lo, avg, have);
      Product(avg, hi, have);
    }
  }

  lemma QuotientBounds(v: int, n: int, lo: int, hi: int)
    requires n > 0 && 0 <= lo && lo * n <= v <= hi * n
    ensures lo <= v / n <= hi && 0 <= v && v == (v / n) * n + v % n
  {
    var d := v / n;
    assert v == d * n + v % n;
    if d < lo {
      Product(d + 1, lo, n);
    }
    if d > hi {
      Product(hi + 1, d, n);
    }
    Product(0, lo, n);
  }

  lemma RolledFacts(l: Ledger, q: nat, c: nat, lo: int, hi: int)
    requires l.qty >= 0 && l.qty + q > 0 && 0 <= lo <= c <= hi && InI64(hi) && (l.qty > 0 ==> lo <= l.avg <= hi)
    ensures var avg := RolledAverage(PoolOf(l), q, c);
            var v := Value(l.avg, l.qty, q, c);
            lo <= avg <= hi && avg * (l.qty + q) == v - v % (l.qty + q) && 0 <= v % (l.qty + q) < l.qty + q
  {
    var n, v := l.qty + q, Value(l.avg, l.qty, q, c);
    ValueBounds(l.avg, l.qty, q, c, lo, hi);
    QuotientBounds(v, n, lo, hi);
    assert TruncDiv(v, n) == v / n;
    assert Wrap(v / n) == v / n;
  }

  // ---- The invariant --------------------------------------------------------

  predicate Between(l: Ledger) {
    l.lo <= l.avg <= l.hi
  }

  /** Value received, less issued, less what the pool still carries. */
  function Residue(l: Ledger): int {
    l.received - l.issued - l.avg * l.qty
  }

  ghost predicate Inv(l: Ledger) {
    && 0 <= l.qty == l.stock <= I64_MAX && 0 <= l.avg <= I64_MAX
    && (l.any ==> 0 <= l.lo <= l.hi <= I64_MAX)
    && (!l.any ==> l.qty == 0 && l.avg == 0 && !l.emptied)
    && (l.emptied ==> l.qty == 0 && l.avg == 0)
    && (l.any && !l.emptied ==> Between(l))
    && 0 <= Residue(l) <= l.slack
  }

  lemma InKeeps(l: Ledger, q: nat, c: Cost)
    requires Inv(l) && Accepts(l, In(q, c)) && FitsNext(l, In(q, c))
    ensures Inv(Step(l, In(q, c)))
  {
    var t := Step(l, In(q, c));
    var v := Value(l.avg, l.qty, q, c);
    if l.qty + q > 0 {
      RolledFacts(l, q, c, t.lo, t.hi);
      assert Residue(t) == Residue(l) + v % (l.qty + q) by {
        hide RolledAverage;
      }
      hide RolledAverage, Residue;
    } else {
      assert q * c == 0;
    }
  }

  lemma OutKeeps(l: Ledger, q: nat)
    requires Inv(l) && Accepts(l, Out(q))
    ensures Inv(Step(l, Out(q)))
  {
    var t := Step(l, Out(q));
    assert l.avg * (l.qty - q) == l.avg * l.qty - q * l.avg;
    assert Residue(t) == Residue(l);
    hide Residue;
  }

  lemma {:induction false} RunKeepsInv(ms: seq<Move>)
    requires Fits(ms)
    ensures Inv(Run(ms))
  {
    if ms != [] {
      var l, m := Run(ms[..|ms| - 1]), ms[|ms| - 1];
      RunKeepsInv(ms[..|ms| - 1]);
      hide Inv, Run, Step, Fits;
      if Accepts(l, m) {
        match m {
          case In(q, c) => InKeeps(l, q, c);
          case Out(q) => OutKeeps(l, q);
        }
      } else {
        Refused(l, m);
      }
      RunNext(ms);
    }
  }

  lemma Refused(l: Ledger, m: Move)
    requires !Accepts(l, m)
    ensures Step(l, m) == l
  {
  }

  lemma RunNext(ms: seq<Move>)
    requires ms != []
    ensures Run(ms) == Step(Run(ms[..|ms| - 1]), ms[|ms| - 1])
  {
  }

  // ---- What the method promises ---------------------------------------------

  /** The stored quantity is the stock throughout exactly when every receipt fits. */
  lemma {:induction false} StockIsRightIff(ms: seq<Move>)
    ensures Fits(ms) <==> forall k :: 0 <= k <= |ms| ==> Run(ms[..k]).qty == Run(ms[..k]).stock
  {
    if Fits(ms) {
      forall k | 0 <= k <= |ms|
        ensures Run(ms[..k]).qty == Run(ms[..k]).stock
      {
        PrefixFits(ms, k);
        RunKeepsInv(ms[..k]);
        hide Run;
      }
    } else {
      FirstMisfit(ms);
    }
  }

  lemma {:induction false} PrefixFits(ms: seq<Move>, k: nat)
    requires Fits(ms) && k <= |ms|
    ensures Fits(ms[..k])
  {
    hide Run, FitsNext;
    if k == |ms| {
      assert ms[..k] == ms;
    } else {
      PrefixFits(ms[..|ms| - 1], k);
      assert ms[..|ms| - 1][..k] == ms[..k];
    }
  }

  lemma {:induction false} FirstMisfit(ms: seq<Move>)
    requires !Fits(ms)
    ensures exists k :: 0 <= k <= |ms| && Run(ms[..k]).qty != Run(ms[..k]).stock
  {
    var n := |ms| - 1;
    if Fits(ms[..n]) {
      RunKeepsInv(ms[..n]);
      RunNext(ms);
      assert ms[..|ms|] == ms;
      hide Run, Fits, RolledAverage;
      MisfitWraps(Run(ms[..n]), ms[n]);
    } else {
      FirstMisfit(ms[..n]);
      hide Run;
      var k :| 0 <= k <= n && Run(ms[..n][..k]).qty != Run(ms[..n][..k]).stock;
      assert ms[..n][..k] == ms[..k];
    }
  }

  lemma MisfitWraps(l: Ledger, m: Move)
    requires Inv(l) && !FitsNext(l, m)
    ensures Step(l, m).qty != Step(l, m).stock
  {
    hide RolledAverage, Residue;
  }

  /** In particular while the units received add up to less than 2^63. */
  lemma {:induction false} FewUnitsFit(ms: seq<Move>)
    requires UnitsIn(ms) <= I64_MAX
    ensures Fits(ms)
  {
    if ms != [] {
      FewUnitsFit(ms[..|ms| - 1]);
      RunKeepsInv(ms[..|ms| - 1]);
      StockIsReceived(ms[..|ms| - 1]);
      hide Run, Residue;
    }
  }

  lemma {:induction false} StockIsReceived(ms: seq<Move>)
    ensures Run(ms).stock <= UnitsIn(ms)
  {
    hide RolledAverage, Wrap, InI64;
    if ms != [] {
      StockIsReceived(ms[..|ms| - 1]);
      RunNext(ms);
      hide Run;
    }
  }

  /** The average lies between the least and greatest receipt cost exactly when the last
      receipt was not one of nothing into an empty pool, or a receipt had cost zero. */
  lemma AverageIsBetweenIff(ms: seq<Move>)
    ensures var l := Run(ms); Fits(ms) && l.any ==> (Between(l) <==> !l.emptied || l.lo == 0)
  {
    hide Run, Fits, Residue;
    if Fits(ms) {
      RunKeepsInv(ms);
    }
  }

  /** So while there is stock it always does. */
  lemma AverageIsBetweenWithStock(ms: seq<Move>)
    ensures var l := Run(ms); Fits(ms) && l.qty > 0 ==> l.any && Between(l)
  {
    hide Run, Fits, Residue;
    if Fits(ms) {
      RunKeepsInv(ms);
    }
  }

  /** Value received less issued less carried is never negative, and at most the sum over
      receipts of the new total quantity less one. */
  lemma RoundingIsBounded(ms: seq<Move>)
    ensures var l := Run(ms); Fits(ms) ==> 0 <= Residue(l) <= l.slack
  {
    hide Run, Fits, Residue;
    if Fits(ms) {
      RunKeepsInv(ms);
    }
  }

  /** A receipt past the limit, and two more that bring the stored quantity round to one. */
  function OverflowMoves(n: nat): (ms: seq<Move>)
    requires n <= 4
    ensures |ms| == n
  {
    [In(I64_MAX, 1), In(1, 1), In(I64_MAX, 1), In(2, 5)][..n]
  }

  function OverflowLedger(n: nat): Ledger
    requires n <= 4
  {
    match n
    case 0 => START
    case 1 => Ledger(1, I64_MAX, I64_MAX, I64_MAX, 0, I64_MAX - 1, 1, 1, true, false)
    case 2 => Ledger(1, I64_MIN, I64_MAX + 1, I64_MAX + 1, 0, TWO_64 - 3, 1, 1, true, false)
    case 3 => Ledger(1, -1, TWO_64 - 1, TWO_64 - 1, 0, TWO_64 - 3, 1, 1, true, false)
    case _ => Ledger(9, 1, TWO_64 + 1, TWO_64 + 9, 0, TWO_64 - 3, 1, 5, true, false)
  }

  lemma {:induction false} OverflowReaches(n: nat)
    requires n <= 4
    ensures Run(OverflowMoves(n)) == OverflowLedger(n)
  {
    if n > 0 {
      OverflowReaches(n - 1);
      var ms := OverflowMoves(n);
      assert ms[..n - 1] == OverflowMoves(n - 1);
      RunNext(ms);
      hide Run;
      OverflowStep(n - 1);
    }
  }

  lemma OverflowStep(n: nat)
    requires n < 4
    ensures Step(OverflowLedger(n), OverflowMoves(4)[n]) == OverflowLedger(n + 1)
  {
    var l, t, m := OverflowLedger(n), OverflowLedger(n + 1), OverflowMoves(4)[n];
    OverflowRolls(n);
    assert m.In? && Accepts(l, m) && Wrap(l.qty + m.qty) == t.qty;
    hide RolledAverage, Wrap, Accepts;
  }

  lemma OverflowRolls(n: nat)
    requires n < 4
    ensures var m := OverflowMoves(4)[n];
            m.In? && RolledAverage(PoolOf(OverflowLedger(n)), m.qty, m.unitCost) == OverflowLedger(n + 1).avg
  {
    var m := OverflowMoves(4)[n];
    var p := PoolOf(OverflowLedger(n));
    match n
    case 0 => RolledTo(p, m.qty, m.unitCost, 1);
    case 1 => RolledTo(p, m.qty, m.unitCost, 1);
    case 2 => RolledBelow(p, m.qty, m.unitCost);
    case 3 => RolledTo(p, m.qty, m.unitCost, 9);
  }

  lemma RolledTo(p: Pool, q: nat, c: Cost, d: nat)
    requires p.avgTotalQty + q > 0 && d <= I64_MAX
    requires p.avgUnitCost * p.avgTotalQty + q * c == d * (p.avgTotalQty + q)
    ensures RolledAverage(p, q, c) == d
  {
    hide Wrap;
    QuotientBounds(p.avgUnitCost * p.avgTotalQty + q * c, p.avgTotalQty + q, d, d);
  }

  lemma RolledBelow(p: Pool, q: nat, c: Cost)
    requires p.avgTotalQty + q == -1 && p.avgUnitCost * p.avgTotalQty + q * c == -1
    ensures RolledAverage(p, q, c) == 1
  {
    hide Wrap;
  }

  /** One unit over the limit breaks the bound on the residue; two receipts later the
      average is above every receipt cost although the pool shows stock. */
  lemma OverflowBreaksRounding()
    ensures UnitsIn(OverflowMoves(2)) == I64_MAX + 1
    ensures var l := Run(OverflowMoves(2)); Residue(l) > l.slack
    ensures var l := Run(OverflowMoves(4));
            l.qty > 0 && !l.emptied && l.avg > l.hi && !Between(l) && Residue(l) > l.slack
  {
    OverflowReaches(2);
    OverflowReaches(4);
    hide Run;
    assert OverflowMoves(2)[..1] == [In(I64_MAX, 1)] && [In(I64_MAX, 1)][..0] == [];
    assert UnitsIn([In(I64_MAX, 1)]) == I64_MAX;
  }

  /** A receipt of nothing into an empty pool resets the average to zero, below every
      receipt cost: after any run that leaves no stock, the empty run included. */
  lemma EmptyReceiptResets(ms: seq<Move>, c: Cost)
    requires Run(ms).qty == 0 && 0 < c && (Run(ms).any ==> 0 < Run(ms).lo)
    ensures var l := Run(ms + [In(0, c)]); l.any && l.avg == 0 < l.lo && !Between(l)
  {
    RunNext(ms + [In(0, c)]);
    assert (ms + [In(0, c)])[..|ms|] == ms;
    hide Run;
    ReceiveNothing(Run(ms), c);
    hide Step;
  }

  lemma ReceiveNothing(l: Ledger, c: Cost)
    requires l.qty == 0
    ensures var t := Step(l, In(0, c)); t.any && t.avg == 0 && t.lo == if l.any then Min(l.lo, c) else c
  {
    assert 0 * c == 0;
    hide Wrap, TruncDiv;
  }

  // ---- The moves are the method's events ------------------------------------

  /** What the event does to the pool and to the posted amounts is the move. */
  lemma EventIsMove(s: Sim, e: Event, l: Ledger, m: Move)
    requires PoolAt(s.pools, KeyOf(e)).avgUnitCost == l.avg && PoolAt(s.pools, KeyOf(e)).avgTotalQty == l.qty
    requires if IsReceipt(e) then 0 <= e.unitCost <= I64_MAX && m == In(Abs(e.qty), e.unitCost)
             else IsConsumption(e) && m == Out(Abs(e.qty))
    ensures var a, t := AvgApply(s, e), Step(l, m);
            && (a.verdict.Fine? <==> Accepts(l, m))
            && PoolAt(a.sim.pools, KeyOf(e)).avgUnitCost == t.avg && PoolAt(a.sim.pools, KeyOf(e)).avgTotalQty == t.qty
            && (a.verdict.Fine? ==>
                  && |a.sim.rows.postings| == |s.rows.postings| + 1
                  && a.sim.rows.postings[|s.rows.postings|].amount
                     == if IsReceipt(e) then t.received - l.received else t.issued - l.issued)
  {
    hide Wrap, InI64, TruncDiv;
  }
}

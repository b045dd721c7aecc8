/** The packed (balance, qty) pair of a balance cell. */
module BalancePair {
  import opened Int64

  /** Amount and quantity, both i64. */
  datatype Pair = Pair(amount: int, qty: int)

  const ZERO := Pair(0, 0)

  function Plus(a: Pair, b: Pair): Pair {
    Pair(a.amount + b.amount, a.qty + b.qty)
  }

  lemma PlusAssoc(a: Pair, b: Pair, c: Pair)
    ensures Plus(Plus(a, b), c) == Plus(a, Plus(b, c))
  {
  }

  lemma PlusZero(a: Pair)
    ensures Plus(a, ZERO) == a == Plus(ZERO, a)
  {
  }

  predicate Fits(a: Pair) {
    InI64(a.amount) && InI64(a.qty)
  }

  function SatPair(a: Pair): (r: Pair)
    ensures Fits(r) && (Fits(a) ==> r == a)
  {
    Pair(Sat(a.amount), Sat(a.qty))
  }

  function WrapPair(a: Pair): (r: Pair)
    ensures Fits(r) && (Fits(a) ==> r == a)
  {
    Pair(Wrap(a.amount), Wrap(a.qty))
  }

  /** `balance_qty_fetch_add` adds both halves with wrap-around. */
  function AddPair(a: Pair, d: Pair): Pair {
    WrapPair(Plus(a, d))
  }

  lemma WrapPlus(a: Pair, b: Pair)
    ensures WrapPair(Plus(WrapPair(a), b)) == WrapPair(Plus(a, b))
  {
    hide Wrap;
    WrapAdd(a.amount, b.amount);
    WrapAdd(a.qty, b.qty);
  }
}

/** Signed 64-bit arithmetic as the ledger uses it: saturating in the FIFO
    paths, wrapping in the packed balance cells, checked in the committer. */
module Int64 {

  const I64_MIN: int := -0x8000_0000_0000_0000
  const I64_MAX: int := 0x7FFF_FFFF_FFFF_FFFF
  const TWO_64: int := 0x1_0000_0000_0000_0000

  predicate InI64(x: int) {
    I64_MIN <= x <= I64_MAX
  }

  function Min(x: int, y: int): int {
    if x < y then x else y
  }

  function Max(x: int, y: int): int {
    if x < y then y else x
  }

  function Abs(x: int): int {
    if x < 0 then -x else x
  }

  /** The nearest representable value (`saturating_add`, `saturating_mul`). */
  function Sat(x: int): (r: int)
    ensures InI64(r)
    ensures InI64(x) ==> r == x
  {
    if x < I64_MIN then I64_MIN else if x > I64_MAX then I64_MAX else x
  }

  /** Two's complement truncation (`wrapping_add`, `as i64`). */
  function Wrap(x: int): (r: int)
    ensures InI64(r)
    ensures InI64(x) ==> r == x
    ensures (r - x) % TWO_64 == 0
  {
    (x - I64_MIN) % TWO_64 + I64_MIN
  }

  lemma WrapAdd(a: int, b: int)
    ensures Wrap(Wrap(a) + b) == Wrap(a + b)
  {
  }

  /** Division as Rust computes it: truncated toward zero. */
  function TruncDiv(a: int, b: int): (q: int)
    requires b > 0
  {
    if a >= 0 then a / b else -((-a) / b)
  }
}

/** Integer helpers that reproduce Rust's signed arithmetic where it differs from Dafny's. */
module Arith {

  /** `a / 2` on a Rust signed integer: the quotient is rounded toward zero
      (Dafny's own `/` is Euclidean and rounds negative odd numbers down). */
  function HalfTowardZero(a: int): (h: int)
    ensures a >= 0 ==> 0 <= a - 2 * h <= 1
    ensures a < 0 ==> -1 <= a - 2 * h <= 0
  {
    if a >= 0 then a / 2 else -((-a) / 2)
  }

  /** `i32::midpoint`: the mean of a and b, rounded toward zero, without overflow. */
  function Midpoint(a: int, b: int): (m: int)
    ensures a <= b ==> a <= m <= b
    ensures a + b >= 0 ==> 0 <= (a + b) - 2 * m <= 1
    ensures a + b < 0 ==> -1 <= (a + b) - 2 * m <= 0
  {
    HalfTowardZero(a + b)
  }

  /** `Ord::clamp`, which panics unless lo <= hi. */
  function Clamp(x: int, lo: int, hi: int): (r: int)
    requires lo <= hi
    ensures lo <= r <= hi
    ensures lo <= x <= hi ==> r == x
    ensures x < lo ==> r == lo
    ensures x > hi ==> r == hi
  {
    if x < lo then lo else if x > hi then hi else x
  }

  function Max(a: int, b: int): int { if a >= b then a else b }

  function Min(a: int, b: int): int { if a <= b then a else b }
}

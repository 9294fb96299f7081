/** Unsigned 256-bit arithmetic as the client's `u256` does it: results are reduced modulo 2^256. */
module Words {

  const TWO_256: nat := 0x1_0000_0000_0000_0000_0000_0000_0000_0000_0000_0000_0000_0000_0000_0000_0000_0000

  type u256 = x: int | 0 <= x < TWO_256

  /** `a + b` on u256. */
  function Add(a: u256, b: u256): (r: u256)
    ensures a + b < TWO_256 ==> r == a + b
    ensures a + b >= TWO_256 ==> r == a + b - TWO_256
  {
    (a + b) % TWO_256
  }

  /** `a - b` on u256. */
  function Sub(a: u256, b: u256): (r: u256)
    ensures b <= a ==> r == a - b
    ensures a < b ==> r == a - b + TWO_256
  {
    (a - b) % TWO_256
  }

  function Neg(v: u256): u256 { Sub(0, v) }

  /** Adding the two's complement takes an addition back, wrap-around or not. */
  lemma AddNeg(a: u256, v: u256)
    ensures Add(Add(a, v), Neg(v)) == a
  {
  }

  function Min(a: int, b: int): int { if a <= b then a else b }

  function Max(a: int, b: int): int { if a <= b then b else a }
}

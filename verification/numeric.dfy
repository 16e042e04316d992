/**
 * Integer arithmetic as the JVM does it: 64-bit `long` wrap-around and
 * integer division that truncates toward zero. Dafny's own integers are
 * unbounded and its `/` is Euclidean, so both are written out here.
 */
module Numeric {

  /** 2^64, the modulus of `long` arithmetic. */
  const LongModulus: int := 0x1_0000_0000_0000_0000
  /** Long.MIN_VALUE and Long.MAX_VALUE. */
  const LongMin: int := -0x8000_0000_0000_0000
  const LongMax: int := 0x7fff_ffff_ffff_ffff

  function Min(a: int, b: int): int { if a < b then a else b }
  function Max(a: int, b: int): int { if a < b then b else a }

  predicate InLong(x: int) {
    LongMin <= x <= LongMax
  }

  /** x and y are the same `long`: they agree modulo 2^64. */
  predicate SameLong(x: int, y: int) {
    (x - y) % LongModulus == 0
  }

  /** The `long` that the mathematical value x wraps to: the representative of x modulo 2^64 in [LongMin, LongMax]. */
  function Long(x: int): (r: int)
    ensures InLong(r)
    ensures InLong(x) ==> r == x
    ensures SameLong(x, r) && SameLong(r, x)
  {
    (x - LongMin) % LongModulus + LongMin
  }

  /** Sums and differences of congruent values are congruent. */
  lemma SameLongAdd(a: int, b: int, c: int, d: int)
    requires SameLong(a, b) && SameLong(c, d)
    ensures SameLong(a + c, b + d) && SameLong(a - c, b - d)
  {
  }

  lemma SameLongTrans(a: int, b: int, c: int)
    requires SameLong(a, b) && SameLong(b, c)
    ensures SameLong(a, c)
  {
  }

  function Abs(a: int): (r: nat)
    ensures a >= 0 ==> r == a
    ensures a < 0 ==> r == -a
  {
    if a < 0 then -a else a
  }

  /**
   * Java's `/` on integers: the quotient truncated toward zero, that is, the
   * magnitude of the Euclidean quotient of the magnitudes with the sign of
   * a times b. Division by zero throws, so the divisor is nonzero.
   */
  function JavaDiv(a: int, b: int): (q: int)
    requires b != 0
    ensures Abs(q) == Abs(a) / Abs(b)
    ensures (a < 0) == (b < 0) ==> q >= 0
    ensures (a < 0) != (b < 0) ==> q <= 0
    ensures 0 <= a && 0 < b ==> q == a / b
  {
    var x := Abs(a);
    var y := Abs(b);
    var m := x / y;
    assert m >= 0;
    if (a < 0) == (b < 0) then m else -m
  }
}

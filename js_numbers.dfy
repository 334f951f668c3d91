/**
 * JavaScript number operations on integral and real values: `Math.round`, the
 * truncating remainder `%`, and the ToInt32 conversion that the bitwise operators
 * (`<<`, `>>`, `|`) apply to their operands and results.
 */
module JsNumbers {

  /** JavaScript `Math.round`: the nearest integer, a half rounded towards +infinity. */
  function Round(x: real): (r: int)
    ensures x - 1.0 / 2.0 < r as real <= x + 1.0 / 2.0
  {
    (x + 1.0 / 2.0).Floor
  }

  /** `Math.round` gives back an integer unchanged. */
  lemma RoundInteger(n: int)
    ensures Round(n as real) == n
  {
  }

  /** `Math.round` is monotone. */
  lemma RoundMonotone(x: real, y: real)
    requires x <= y
    ensures Round(x) <= Round(y)
  {
  }

  /**
   * The quotient and remainder of Euclidean division (Dafny's `/` and `%`) are the only
   * pair that satisfies the defining equation with a remainder in range.
   */
  lemma DivModUnique(a: int, b: int, q: int, r: int)
    requires b > 0 && a == q * b + r && 0 <= r < b
    ensures a / b == q && a % b == r
  {
    var k := a / b - q;
    assert b * k == r - a % b;
  }

  /** JavaScript `%` on integers, for a positive divisor: the remainder has the sign of the dividend. */
  function Rem(a: int, b: int): (r: int)
    requires b > 0
    ensures a >= 0 ==> r == a % b
    ensures a < 0 ==> r == (if a % b == 0 then 0 else a % b - b)
  {
    if a >= 0 then a % b
    else
      var q := (-a) / b;
      var m := (-a) % b;
      if m == 0 then
        DivModUnique(a, b, -q, 0);
        0
      else
        DivModUnique(a, b, -q - 1, b - m);
        -m
  }

  const TwoTo31: int := 0x8000_0000
  const TwoTo32: int := 0x1_0000_0000

  /** A value in the signed 32-bit range. */
  predicate IsInt32(x: int) {
    -TwoTo31 <= x < TwoTo31
  }

  /** ECMAScript ToInt32 of an integral number: wrap modulo 2^32 into the signed range. */
  function ToInt32(x: int): (r: int)
    ensures IsInt32(r)
    ensures x == r + (x / TwoTo32 + (if r < 0 then 1 else 0)) * TwoTo32
  {
    var m := x % TwoTo32;
    if m < TwoTo31 then m else m - TwoTo32
  }

  /** ToInt32 depends only on its argument modulo 2^32. */
  lemma ToInt32Congruent(x: int, y: int, k: int)
    requires x == y + k * TwoTo32
    ensures ToInt32(x) == ToInt32(y)
  {
    DivModUnique(x, TwoTo32, y / TwoTo32 + k, y % TwoTo32);
  }

  /** ToInt32 is the identity on the signed 32-bit range. */
  lemma ToInt32OfInt32(x: int)
    requires IsInt32(x)
    ensures ToInt32(x) == x
  {
  }
}

// Exact arithmetic shared by the model: the C library's rounding
// functions and C's truncating remainder, stated over int and real, plus
// the clamp that every stage applies to its outputs, and the byte and
// option types the other modules share.
module Arith {

  /** The value of an 8-bit unsigned channel. */
  type byte = x: int | 0 <= x < 256

  /** An optional value; None stands for a null pointer or an absent result. */
  datatype Option<T> = None | Some(value: T)

  /** std::clamp(v, lo, hi) for lo <= hi. */
  function Clamp(v: real, lo: real, hi: real): (r: real)
    requires lo <= hi
    ensures lo <= r <= hi
    ensures lo <= v <= hi ==> r == v
    ensures v < lo ==> r == lo
    ensures hi < v ==> r == hi
  {
    if v < lo then lo else if hi < v then hi else v
  }

  /** Clamp to the unit interval, the range every stage promises for its output. */
  function Clamp01(v: real): (r: real)
    ensures 0.0 <= r <= 1.0
    ensures 0.0 <= v <= 1.0 ==> r == v
  {
    Clamp(v, 0.0, 1.0)
  }

  /** std::round / std::llround: nearest integer, halves away from zero. */
  function RoundHalfAway(x: real): (r: int)
    ensures x - 0.5 <= r as real <= x + 0.5
    ensures 0.0 <= x ==> 0 <= r
  {
    if x >= 0.0 then (x + 0.5).Floor else -((-x + 0.5).Floor)
  }

  /** std::nearbyint under the default rounding mode: nearest, ties to even. */
  function RoundHalfEven(x: real): (r: int)
    ensures x - 0.5 <= r as real <= x + 0.5
  {
    var f := x.Floor;
    var d := x - f as real;
    if d < 0.5 then f
    else if d > 0.5 then f + 1
    else if f % 2 == 0 then f else f + 1
  }

  /** The remainder of C++'s `%` on signed integers: it truncates toward
      zero, so its sign follows the dividend (Dafny's `%` never is negative). */
  function CRem(a: int, b: int): (r: int)
    requires b > 0
    ensures -b < r < b
    ensures a >= 0 ==> r >= 0
    ensures a < 0 ==> r <= 0
  {
    if a >= 0 then a % b else -((-a) % b)
  }

  /** After the fix-up `if (r < 0) r += b`, the truncating remainder is the
      Euclidean one. */
  lemma CRemFixup(a: int, b: int)
    requires b > 0
    ensures (if CRem(a, b) < 0 then CRem(a, b) + b else CRem(a, b)) == a % b
  {
    if a < 0 {
      var m := (-a) % b;
      var q := (-a) / b;
      assert -a == q * b + m;
      if m == 0 {
        assert a == (-q) * b;
        DivModUnique(a, b, -q, 0);
      } else {
        assert a == (-q - 1) * b + (b - m);
        DivModUnique(a, b, -q - 1, b - m);
      }
    }
  }

  /** Quotient and remainder are determined by the division identity. */
  lemma DivModUnique(k: int, d: int, q: int, r: int)
    requires d > 0 && 0 <= r < d && k == q * d + r
    ensures k / d == q && k % d == r
  {
    var q', r' := k / d, k % d;
    assert k == q' * d + r';
    assert (q' - q) * d == r - r' by {
      assert q' * d - q * d == (q' - q) * d;
    }
    if q' > q {
      MulAtLeast(q' - q, d);
    } else if q' < q {
      MulAtLeast(q - q', d);
    }
  }

  lemma MulAtLeast(a: int, d: int)
    requires a >= 1 && d > 0
    ensures a * d >= d
  {
    assert a * d == (a - 1) * d + d;
  }

  /** Ceiling division of a natural number by a positive one, as the C
      expression (a + d - 1) / d computes it. */
  function CeilDiv(a: nat, d: nat): (r: nat)
    requires d > 0
    ensures r * d >= a
    ensures a > 0 ==> (r - 1) * d < a
  {
    var r := (a + d - 1) / d;
    assert (a + d - 1) == r * d + (a + d - 1) % d;
    r
  }
}

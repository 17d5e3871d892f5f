/**
 The numeric vocabulary of the program: java.lang.Math and the primitive conversions it relies
 on, over mathematical reals and integers. The transcendental functions are not computed; they are
 handed in as a `Trig` value carrying only the facts any correct implementation satisfies.
 */
module JavaMath {

  /** `Math.PI`, the double closest to pi, written out as its decimal expansion. */
  const PI: real := 3.141592653589793

  /** `Maths.TWO_PI`. */
  const TWO_PI: real := 2.0 * PI

  const INT_MIN: int := -0x8000_0000
  const INT_MAX: int := 0x7fff_ffff

  /** A square root never returns a negative value. */
  type SqrtFn = f: real -> real | forall x :: 0.0 <= f(x) witness (x: real) => 0.0

  /** `Math.atan2` lies between -pi and pi. */
  type Atan2Fn = f: (real, real) -> real | forall y, x :: -PI <= f(y, x) <= PI witness (y: real, x: real) => 0.0

  /**
   The transcendental functions of java.lang.Math that the program calls. Only the two facts the
   logic depends on are recorded: `sqrt` is never negative and `atan2` lies in -pi..pi.
   */
  datatype Trig = Trig(
    sin: real -> real, cos: real -> real, tan: real -> real,
    asin: real -> real, atan: real -> real, atan2: Atan2Fn,
    sqrt: SqrtFn)

  /** `Math.abs`. */
  function Abs(x: real): (r: real)
    ensures 0.0 <= r && (r == x || r == -x)
    ensures x >= 0.0 ==> r == x
  {
    if x < 0.0 then -x else x
  }

  /**
   Floating-point division `a / b`. The infinities and NaN Java produces for a zero divisor
   have no counterpart among the reals; they are represented by 0.
   */
  function Quot(a: real, b: real): (r: real)
    ensures b != 0.0 ==> r * b == a
    ensures b == 0.0 ==> r == 0.0
  {
    if b == 0.0 then 0.0 else a / b
  }

  /** `Math.round(x)`: the nearest integer, halves rounded upwards. */
  function JavaRound(x: real): (r: int)
    ensures r as real - 0.5 <= x < r as real + 0.5
  {
    (x + 0.5).Floor
  }

  /** Rounding commutes with a shift by a whole number. */
  lemma JavaRoundShift(x: real, k: int)
    ensures JavaRound(x + k as real) == JavaRound(x) + k
  {
    var r, s := JavaRound(x), JavaRound(x + k as real);
    assert s as real - 0.5 <= x + k as real < s as real + 0.5;
    assert (s - k) as real - 0.5 <= x < (s - k) as real + 0.5;
  }

  /** Truncation toward zero, what a `(long)` or `(int)` cast does before it saturates. */
  function Trunc(x: real): (r: int)
    ensures x >= 0.0 ==> 0 <= r && r as real <= x < r as real + 1.0
    ensures x < 0.0 ==> r <= 0 && r as real - 1.0 < x <= r as real
  {
    if x >= 0.0 then x.Floor else -((-x).Floor)
  }

  /** A `(int)` cast of a double: truncated toward zero and clamped to the 32-bit range. */
  function IntCast(x: real): (r: int)
    ensures INT_MIN <= r <= INT_MAX
    ensures INT_MIN <= Trunc(x) <= INT_MAX ==> r == Trunc(x)
    ensures Trunc(x) > INT_MAX ==> r == INT_MAX
    ensures Trunc(x) < INT_MIN ==> r == INT_MIN
  {
    var t := Trunc(x);
    if t > INT_MAX then INT_MAX else if t < INT_MIN then INT_MIN else t
  }

  /** `Math.floor`, as a real. */
  function Floor(x: real): (r: real)
    ensures r <= x < r + 1.0
    ensures r == r.Floor as real
  {
    x.Floor as real
  }

  /** Scaling by a factor of magnitude below one shrinks a non-zero value strictly. */
  lemma ShrinkingProduct(f: real, b: real)
    requires -1.0 < f < 1.0 && b != 0.0
    ensures Abs(f * b) < Abs(b)
  {
    var p := f * b;
    if b > 0.0 {
      assert -b < p < b;
      assert Abs(b) == b;
    } else {
      assert b < p < -b;
      assert Abs(b) == -b;
    }
  }

  /**
   The `%` operator on doubles: the remainder of truncating division, which takes the sign of the
   dividend (unlike Dafny's Euclidean `%`). The NaN of a zero divisor is represented by 0.
   */
  function DoubleRem(a: real, b: real): (r: real)
    ensures b != 0.0 ==> Abs(r) < Abs(b) && a - r == Trunc(a / b) as real * b
    ensures b != 0.0 && a >= 0.0 ==> r >= 0.0
    ensures b != 0.0 && a <= 0.0 ==> r <= 0.0
  {
    if b == 0.0 then 0.0
    else
      var q := a / b;
      var f := q - Trunc(q) as real;
      assert a == q * b;
      assert a - Trunc(q) as real * b == f * b;
      ShrinkingProduct(f, b);
      assert q >= 0.0 ==> f >= 0.0;
      assert q <= 0.0 ==> f <= 0.0;
      a - Trunc(q) as real * b
  }

  /** Integer division `a / b` on `long`s, truncating toward zero (unlike Dafny's Euclidean `/`). */
  function LongDiv(a: int, b: int): (r: int)
    requires b > 0
    ensures a >= 0 ==> r * b <= a < r * b + b
    ensures a < 0 ==> r * b - b < a <= r * b
  {
    if a >= 0 then a / b else -((-a) / b)
  }

  /** Integer remainder `a % b` on `long`s: the sign follows the dividend. */
  function LongRem(a: int, b: int): (r: int)
    requires b > 0
    ensures a == LongDiv(a, b) * b + r
    ensures a >= 0 ==> 0 <= r < b
    ensures a < 0 ==> -b < r <= 0
  {
    a - LongDiv(a, b) * b
  }
}

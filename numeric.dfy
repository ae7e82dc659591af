/** C++ arithmetic the vehicle code relies on, stated over Dafny's unbounded `int`
    and exact `real`: float-to-int conversion, `int / int`, `int % int` and
    Unreal's FMath::Clamp. Floating-point rounding is not modelled. */
module Numeric {

  datatype Option<T> = None | Some(value: T)

  function Abs(x: real): (r: real)
    ensures 0.0 <= r
  {
    if x < 0.0 then -x else x
  }

  function IntAbs(n: int): (r: nat)
    ensures r == n || r == -n
  {
    if n < 0 then -n else n
  }

  /** A C++ float-to-int conversion: the fractional part is dropped,
      i.e. the value is rounded toward zero. */
  function Trunc(x: real): (n: int)
    ensures Abs(n as real) <= Abs(x) < Abs(n as real) + 1.0
    ensures 0.0 <= x ==> 0 <= n
    ensures x <= 0.0 ==> n <= 0
  {
    if x >= 0.0 then x.Floor else -((-x).Floor)
  }

  /** Truncation commutes with taking the magnitude. */
  lemma TruncAbs(x: real)
    ensures IntAbs(Trunc(x)) == Trunc(Abs(x))
  {
  }

  /** For non-negative operands, the floor of the exact quotient is Dafny's `/`. */
  lemma {:induction false} FloorOfQuotient(a: nat, b: nat)
    requires b > 0
    ensures (a as real / b as real).Floor == a / b
  {
    var q, r := a / b, a % b;
    assert a == q * b + r;
    assert a as real / b as real == q as real + r as real / b as real;
    assert 0.0 <= r as real / b as real < 1.0;
  }

  /** Negating either operand of a division negates the quotient. */
  lemma DivNegation(x: real, y: real)
    requires y != 0.0
    ensures (-x) / y == -(x / y)
    ensures x / (-y) == -(x / y)
    ensures (-x) / (-y) == x / y
  {
    var q := x / y;
    assert q * y == x;
    assert (-q) * y == -x;
    assert (-q) * (-y) == x;
    assert q * (-y) == -x;
  }

  /** A quotient of non-negative over positive is non-negative. */
  lemma DivNonNegative(x: real, y: real)
    requires 0.0 <= x && 0.0 < y
    ensures 0.0 <= x / y
  {
    var q := x / y;
    assert q * y == x;
  }

  /** A product of non-negatives is non-negative. */
  lemma NonNegProduct(x: real, y: real)
    requires 0.0 <= x && 0.0 <= y
    ensures 0.0 <= x * y
  {
  }

  /** A product of positives is positive. */
  lemma PosProduct(x: real, y: real)
    requires 0.0 < x && 0.0 < y
    ensures 0.0 < x * y
  {
  }

  /** Scaling by a positive keeps the sign. */
  lemma PositiveScaleSign(p: real, y: real)
    requires y > 0.0
    ensures p < 0.0 <==> p * y < 0.0
  {
    if p < 0.0 {
      PosProduct(-p, y);
    } else {
      NonNegProduct(p, y);
    }
  }

  /** A fraction of a positive whole lies in the unit interval. */
  lemma DivUnit(x: real, y: real)
    requires 0.0 <= x <= y && 0.0 < y
    ensures 0.0 <= x / y <= 1.0
  {
    var q := x / y;
    assert q * y == x;
    DivNonNegative(x, y);
  }

  /** Scaling a quotient by a constant scales its dividend. */
  lemma DivScale(x: real, y: real, c: real)
    requires y != 0.0
    ensures x / y * c == x * c / y
  {
    var q := x / y;
    assert q * y == x;
    assert (q * c) * y == x * c;
  }

  /** A positive divided by a smaller positive exceeds one. */
  lemma DivAboveUnit(x: real, y: real)
    requires 0.0 < y < x
    ensures x / y > 1.0
  {
    var q := x / y;
    assert q * y == x;
    if q <= 1.0 {
      NonNegProduct(1.0 - q, y);
    }
  }

  /** A quotient whose dividend is at least the divisor and less than twice
      it lies in [1, 2). */
  lemma QuotientOneToTwo(x: real, y: real)
    requires 0.0 < y <= x < 2.0 * y
    ensures 1.0 <= x / y < 2.0
  {
    var q := x / y;
    assert q * y == x;
    var above, below := q - 1.0, q - 2.0;
    assert above * y == x - y;
    PositiveScaleSign(above, y);
    assert below * y == x - 2.0 * y;
    PositiveScaleSign(below, y);
  }

  /** The magnitude of an exact quotient of integers. */
  lemma QuotientMagnitude(a: int, b: int)
    requires b != 0
    ensures Abs(a as real / b as real) == IntAbs(a) as real / IntAbs(b) as real
    ensures (a < 0) == (b < 0) || a == 0 ==> 0.0 <= a as real / b as real
    ensures (a < 0) != (b < 0) ==> a as real / b as real <= 0.0
  {
    var x, y := a as real, b as real;
    var ax, ay := IntAbs(a) as real, IntAbs(b) as real;
    DivNonNegative(ax, ay);
    DivNegation(ax, ay);
    if a < 0 && b < 0 {
      assert x / y == (-ax) / (-ay);
    } else if a < 0 {
      assert x / y == (-ax) / ay;
    } else if b < 0 {
      assert x / y == ax / (-ay);
    } else {
      assert x / y == ax / ay;
    }
  }

  /** C++ `int / int`: the exact quotient, truncated toward zero. */
  function Quot(a: int, b: int): (q: int)
    requires b != 0
    ensures q == Trunc(a as real / b as real)
    ensures 0 <= a < b ==> q == 0
  {
    var m := IntAbs(a) / IntAbs(b);
    FloorOfQuotient(IntAbs(a), IntAbs(b));
    QuotientMagnitude(a, b);
    if (a < 0) == (b < 0) then m else -m
  }

  /** C++ `int % 360`: the remainder keeps the sign of the dividend. */
  function Rem360(a: int): (r: int)
    ensures -360 < r < 360
    ensures 0 <= a ==> 0 <= r
    ensures a <= 0 ==> r <= 0
    ensures (a - r) % 360 == 0
  {
    if a >= 0 then a % 360 else -((-a) % 360)
  }

  /** Unreal's FMath::Clamp(x, lo, hi): `x < lo ? lo : x < hi ? x : hi`. */
  function Clamp(x: real, lo: real, hi: real): (r: real)
    ensures lo <= hi ==> lo <= r <= hi
    ensures lo <= x <= hi ==> r == x
    ensures r == x || r == lo || r == hi
  {
    if x < lo then lo else if x < hi then x else hi
  }

  /** Clamp is monotone in its first argument for a well-formed range. */
  lemma ClampMonotone(x: real, y: real, lo: real, hi: real)
    ensures lo <= hi && x <= y ==> Clamp(x, lo, hi) <= Clamp(y, lo, hi)
  {
  }
}

/**
 * The parts of C arithmetic that the experience curves rely on:
 * `pow` on integer-valued doubles, `floor`, and the implicit narrowing
 * of a `double` return value to `int`, which truncates toward zero
 * (ISO C, section 6.3.1.4, paragraph 1).
 *
 * Doubles are modelled as exact `real`s. For the integer levels the
 * curves are used with, `pow(n, 2)` and `pow(n, 3)` are exact in a double,
 * so what is abstracted away is the rounding of every double operation
 * from the first inexact division on.
 */
module CNumeric {

  /** `pow(n, (double)2)` for an integer-valued `n`. */
  function Square(n: int): real {
    (n * n) as real
  }

  /** `pow(n, (double)3)` for an integer-valued `n`. */
  function Cube(n: int): real {
    (n * n * n) as real
  }

  /** Conversion of a `double` to `int`: the fractional part is discarded. */
  function Trunc(x: real): int {
    if x >= 0.0 then x.Floor else -((-x).Floor)
  }

  /**
   * `r` is `x` rounded toward zero: it lies between zero and `x` and is
   * less than one away from `x`: not rounded to nearest and not floored.
   */
  predicate TowardZero(r: int, x: real) {
    if x >= 0.0 then 0 <= r && r as real <= x < r as real + 1.0
    else r <= 0 && r as real - 1.0 < x <= r as real
  }

  /** Narrowing a `double` to `int` rounds toward zero. */
  lemma TruncTowardZero(x: real)
    ensures TowardZero(Trunc(x), x)
  {
  }

  /**
   * Integer division rounding toward zero, as C's `/` on `int`: the
   * reference against which the curves' narrowed results are stated.
   */
  function DivTowardZero(a: int, d: int): (q: int)
    requires d > 0
    ensures a >= 0 ==> 0 <= d * q <= a < d * q + d
    ensures a < 0 ==> d * q - d < a <= d * q <= 0
  {
    if a >= 0 then EuclideanBounds(a, d); a / d
    else EuclideanBounds(-a, d); -((-a) / d)
  }

  /** Integer division rounding down: what `floor(a / d)` yields. */
  function FloorDiv(a: int, d: int): (q: int)
    requires d > 0
    ensures d * q <= a < d * q + d
  {
    var r := a % d;
    assert a == d * (a / d) + r && 0 <= r < d;
    a / d
  }

  lemma EuclideanBounds(a: int, d: int)
    requires a >= 0 && d > 0
    ensures 0 <= d * (a / d) <= a < d * (a / d) + d
  {
    var q, r := a / d, a % d;
    assert a == d * q + r;
    assert 0 <= r < d;
    assert q >= 0;
  }

  /** Converting an integer product to `real` multiplies the converted factors. */
  lemma RealProduct(a: int, b: int)
    ensures (a * b) as real == a as real * b as real
  {
  }

  lemma NegativeFactor(y: real, m: real)
    requires m > 0.0 && y * m < 0.0
    ensures y < 0.0
  {
  }

  /** If `x * d == a` and `d * q <= a < d * q + d`, then `q` is the floor of `x`. */
  lemma {:induction false} UnitInterval(x: real, q: int, d: int, a: int)
    requires d > 0 && x * d as real == a as real
    requires d * q <= a < d * q + d
    ensures q as real <= x < q as real + 1.0
  {
    var m := d as real;
    assert (d * q) as real == m * q as real;
    NegativeFactor(x - (q as real + 1.0), m);
  }

  /** Narrowing the exact quotient `a / d` to `int` is C integer division. */
  lemma {:induction false} TruncQuotient(a: int, d: int)
    requires d > 0
    ensures Trunc(a as real / d as real) == DivTowardZero(a, d)
  {
    var x := a as real / d as real;
    var q := DivTowardZero(a, d);
    assert x * d as real == a as real;
    if a >= 0 {
      UnitInterval(x, q, d, a);
    } else {
      UnitInterval(-x, -q, d, -a);
    }
    TruncTowardZero(x);
  }

  /** `floor` of the exact quotient `a / d` is integer division rounding down. */
  lemma {:induction false} FloorQuotient(a: int, d: int)
    requires d > 0
    ensures (a as real / d as real).Floor == FloorDiv(a, d)
  {
    var x := a as real / d as real;
    assert x * d as real == a as real;
    UnitInterval(x, FloorDiv(a, d), d, a);
  }

  lemma LessByFactor(u: int, v: int, d: int)
    requires d > 0 && d * u < d * v + d
    ensures u <= v
  {
    assert d * (v + 1 - u) == d * v + d - d * u;
    PositiveFactor(v + 1 - u, d);
  }

  lemma PositiveFactor(y: int, m: int)
    requires m > 0 && m * y > 0
    ensures y > 0
  {
  }

  /** C integer division by a positive divisor never decreases as the dividend grows. */
  lemma {:induction false} DivTowardZeroMonotone(a: int, b: int, d: int)
    requires d > 0 && a <= b
    ensures DivTowardZero(a, d) <= DivTowardZero(b, d)
  {
    var qa, qb := DivTowardZero(a, d), DivTowardZero(b, d);
    if a >= 0 {
      LessByFactor(qa, qb, d);
    } else if b < 0 {
      LessByFactor(qa - 1, qb, d);
    }
  }

  /** C's integer division rounds the exact quotient toward zero. */
  lemma {:induction false} QuotientTowardZero(a: int, d: int)
    requires d > 0
    ensures TowardZero(DivTowardZero(a, d), a as real / d as real)
  {
    TruncQuotient(a, d);
    TruncTowardZero(a as real / d as real);
  }

  /** Truncation and flooring part ways exactly on negative non-integers. */
  lemma {:induction false} TruncAboveFloor(a: int, d: int)
    requires d > 0 && a < 0 && a % d != 0
    ensures DivTowardZero(a, d) == FloorDiv(a, d) + 1
  {
    var q, f := DivTowardZero(a, d), FloorDiv(a, d);
    assert d * q != a by {
      if d * q == a {
        assert a == d * (a / d) + a % d;
        LessByFactor(q, a / d, d);
        LessByFactor(a / d, q, d);
      }
    }
    LessByFactor(f, q - 1, d);
    LessByFactor(q - 1, f, d);
  }
}

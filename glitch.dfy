/**
 * The fifteen glitch experience groups of the first-generation games,
 * each named by the one-byte hexadecimal tag the game data uses for it.
 * Like the regular curves, each evaluates its polynomial in `double`
 * (here `real`) and narrows once, toward zero, on return. Each
 * postcondition gives the exact value over one common denominator, divided
 * with C's integer division; the four curves with integer coefficients
 * lose nothing to narrowing.
 *
 * Groups 0x95 and 0xFF exist in the game data but have no curve: their
 * formulas divide by zero. They appear only in `Catalog`, as unsupported.
 */
module Glitch {
  import opened CNumeric

  /** Glitch group 0xD1: 4n^3/7 + 14n^2 + n - 205. */
  function HexD1(n: int): (r: int)
    ensures r == DivTowardZero(4 * (n * n * n) + 98 * (n * n) + 7 * n - 1435, 7)
  {
    var x := 4.0 * Cube(n) / 7.0 + 14.0 * Square(n) + n as real - 205.0;
    assert x == (4 * (n * n * n) + 98 * (n * n) + 7 * n - 1435) as real / 7.0;
    TruncQuotient(4 * (n * n * n) + 98 * (n * n) + 7 * n - 1435, 7);
    Trunc(x)
  }

  /** Glitch group 0x7B: 3n^3/2 - 55n^2 + 79n - 208. */
  function Hex7B(n: int): (r: int)
    ensures r == DivTowardZero(3 * (n * n * n) - 110 * (n * n) + 158 * n - 416, 2)
  {
    var x := 3.0 * Cube(n) / 2.0 - 55.0 * Square(n) + 79.0 * n as real - 208.0;
    assert x == (3 * (n * n * n) - 110 * (n * n) + 158 * n - 416) as real / 2.0;
    TruncQuotient(3 * (n * n * n) - 110 * (n * n) + 158 * n - 416, 2);
    Trunc(x)
  }

  /** Glitch group 0x81: 3n^3/4 + (10n^2 - 30). */
  function Hex81(n: int): (r: int)
    ensures r == DivTowardZero(3 * (n * n * n) + 40 * (n * n) - 120, 4)
  {
    var x := 3.0 * Cube(n) / 4.0 + (10.0 * Square(n) - 30.0);
    assert x == (3 * (n * n * n) + 40 * (n * n) - 120) as real / 4.0;
    TruncQuotient(3 * (n * n * n) + 40 * (n * n) - 120, 4);
    Trunc(x)
  }

  /** Glitch group 0x0D: 4n^3/7 - 112n^2 + 219n - 184. */
  function Hex0D(n: int): (r: int)
    ensures r == DivTowardZero(4 * (n * n * n) - 784 * (n * n) + 1533 * n - 1288, 7)
  {
    var x := 4.0 * Cube(n) / 7.0 - 112.0 * Square(n) + 219.0 * n as real - 184.0;
    assert x == (4 * (n * n * n) - 784 * (n * n) + 1533 * n - 1288) as real / 7.0;
    TruncQuotient(4 * (n * n * n) - 784 * (n * n) + 1533 * n - 1288, 7);
    Trunc(x)
  }

  /** Glitch group 0x1A: 33n^2 + 155n - 80, integral at every level. */
  function Hex1A(n: int): (r: int)
    ensures r == 33 * (n * n) + 155 * n - 80
  {
    Trunc(33.0 * Square(n) + 155.0 * n as real - 80.0)
  }

  /** Glitch group 0x06: n^3/10 - 75n^2 + 95n - 32. */
  function Hex06(n: int): (r: int)
    ensures r == DivTowardZero((n * n * n) - 750 * (n * n) + 950 * n - 320, 10)
  {
    var x := Cube(n) / 10.0 - 75.0 * Square(n) + 95.0 * n as real - 32.0;
    assert x == ((n * n * n) - 750 * (n * n) + 950 * n - 320) as real / 10.0;
    TruncQuotient((n * n * n) - 750 * (n * n) + 950 * n - 320, 10);
    Trunc(x)
  }

  /** Glitch group 0x1D: n^3/7 + 67n^2 + 65n - 32. */
  function Hex1D(n: int): (r: int)
    ensures r == DivTowardZero((n * n * n) + 469 * (n * n) + 455 * n - 224, 7)
  {
    var x := Cube(n) / 7.0 + 67.0 * Square(n) + 65.0 * n as real - 32.0;
    assert x == ((n * n * n) + 469 * (n * n) + 455 * n - 224) as real / 7.0;
    TruncQuotient((n * n * n) + 469 * (n * n) + 455 * n - 224, 7);
    Trunc(x)
  }

  /** Glitch group 0x37: 5n^3/12 + 81n^2 + 4n - 48. */
  function Hex37(n: int): (r: int)
    ensures r == DivTowardZero(5 * (n * n * n) + 972 * (n * n) + 48 * n - 576, 12)
  {
    var x := 5.0 * Cube(n) / 12.0 + 81.0 * Square(n) + 4.0 * n as real - 48.0;
    assert x == (5 * (n * n * n) + 972 * (n * n) + 48 * n - 576) as real / 12.0;
    TruncQuotient(5 * (n * n * n) + 972 * (n * n) + 48 * n - 576, 12);
    Trunc(x)
  }

  /** Glitch group 0x4B: 12n^3/13 + 127n^2 + 43n - 250. */
  function Hex4B(n: int): (r: int)
    ensures r == DivTowardZero(12 * (n * n * n) + 1651 * (n * n) + 559 * n - 3250, 13)
  {
    var x := 12.0 * Cube(n) / 13.0 + 127.0 * Square(n) + 43.0 * n as real - 250.0;
    assert x == (12 * (n * n * n) + 1651 * (n * n) + 559 * n - 3250) as real / 13.0;
    TruncQuotient(12 * (n * n * n) + 1651 * (n * n) + 559 * n - 3250, 13);
    Trunc(x)
  }

  /** Glitch group 0x57: 2n^3/3 + 24n^2 + 18n - 33. */
  function Hex57(n: int): (r: int)
    ensures r == DivTowardZero(2 * (n * n * n) + 72 * (n * n) + 54 * n - 99, 3)
  {
    var x := 2.0 * Cube(n) / 3.0 + 24.0 * Square(n) + 18.0 * n as real - 33.0;
    assert x == (2 * (n * n * n) + 72 * (n * n) + 54 * n - 99) as real / 3.0;
    TruncQuotient(2 * (n * n * n) + 72 * (n * n) + 54 * n - 99, 3);
    Trunc(x)
  }

  /** Glitch group 0x64: 2n^3 + 32n^2 + 80n - 205, integral at every level. */
  function Hex64(n: int): (r: int)
    ensures r == 2 * (n * n * n) + 32 * (n * n) + 80 * n - 205
  {
    Trunc(2.0 * Cube(n) + 32.0 * Square(n) + 80.0 * n as real - 205.0)
  }

  /** Glitch group 0x88: 3n^3/5 - 122n^2 + 38n - 204. */
  function Hex88(n: int): (r: int)
    ensures r == DivTowardZero(3 * (n * n * n) - 610 * (n * n) + 190 * n - 1020, 5)
  {
    var x := 3.0 * Cube(n) / 5.0 - 122.0 * Square(n) + 38.0 * n as real - 204.0;
    assert x == (3 * (n * n * n) - 610 * (n * n) + 190 * n - 1020) as real / 5.0;
    TruncQuotient(3 * (n * n * n) - 610 * (n * n) + 190 * n - 1020, 5);
    Trunc(x)
  }

  /** Glitch group 0xA5: n^3/4 + 60n^2 + 33n - 215. */
  function HexA5(n: int): (r: int)
    ensures r == DivTowardZero((n * n * n) + 240 * (n * n) + 132 * n - 860, 4)
  {
    var x := Cube(n) / 4.0 + 60.0 * Square(n) + 33.0 * n as real - 215.0;
    assert x == ((n * n * n) + 240 * (n * n) + 132 * n - 860) as real / 4.0;
    TruncQuotient((n * n * n) + 240 * (n * n) + 132 * n - 860, 4);
    Trunc(x)
  }

  /** Glitch group 0x23: 80n^2 + 23n - 236, integral at every level. */
  function Hex23(n: int): (r: int)
    ensures r == 80 * (n * n) + 23 * n - 236
  {
    Trunc(80.0 * Square(n) + 23.0 * n as real - 236.0)
  }

  /** Glitch group 0x10: n^3 + 62n^2 + 145n - 34, integral at every level. */
  function Hex10(n: int): (r: int)
    ensures r == (n * n * n) + 62 * (n * n) + 145 * n - 34
  {
    Trunc(Cube(n) + 62.0 * Square(n) + 145.0 * n as real - 34.0)
  }

  /**
   * Every glitch curve with a fractional coefficient is its exact rational
   * value rounded toward zero: within one of it and never larger in magnitude.
   */
  lemma {:induction false} ExactValuesTowardZero(n: int)
    ensures TowardZero(HexD1(n), (4 * (n * n * n) + 98 * (n * n) + 7 * n - 1435) as real / 7.0)
    ensures TowardZero(Hex7B(n), (3 * (n * n * n) - 110 * (n * n) + 158 * n - 416) as real / 2.0)
    ensures TowardZero(Hex81(n), (3 * (n * n * n) + 40 * (n * n) - 120) as real / 4.0)
    ensures TowardZero(Hex0D(n), (4 * (n * n * n) - 784 * (n * n) + 1533 * n - 1288) as real / 7.0)
    ensures TowardZero(Hex06(n), ((n * n * n) - 750 * (n * n) + 950 * n - 320) as real / 10.0)
    ensures TowardZero(Hex1D(n), ((n * n * n) + 469 * (n * n) + 455 * n - 224) as real / 7.0)
    ensures TowardZero(Hex37(n), (5 * (n * n * n) + 972 * (n * n) + 48 * n - 576) as real / 12.0)
    ensures TowardZero(Hex4B(n), (12 * (n * n * n) + 1651 * (n * n) + 559 * n - 3250) as real / 13.0)
    ensures TowardZero(Hex57(n), (2 * (n * n * n) + 72 * (n * n) + 54 * n - 99) as real / 3.0)
    ensures TowardZero(Hex88(n), (3 * (n * n * n) - 610 * (n * n) + 190 * n - 1020) as real / 5.0)
    ensures TowardZero(HexA5(n), ((n * n * n) + 240 * (n * n) + 132 * n - 860) as real / 4.0)
  {
    QuotientTowardZero(4 * (n * n * n) + 98 * (n * n) + 7 * n - 1435, 7);
    QuotientTowardZero(3 * (n * n * n) - 110 * (n * n) + 158 * n - 416, 2);
    QuotientTowardZero(3 * (n * n * n) + 40 * (n * n) - 120, 4);
    QuotientTowardZero(4 * (n * n * n) - 784 * (n * n) + 1533 * n - 1288, 7);
    QuotientTowardZero((n * n * n) - 750 * (n * n) + 950 * n - 320, 10);
    QuotientTowardZero((n * n * n) + 469 * (n * n) + 455 * n - 224, 7);
    QuotientTowardZero(5 * (n * n * n) + 972 * (n * n) + 48 * n - 576, 12);
    QuotientTowardZero(12 * (n * n * n) + 1651 * (n * n) + 559 * n - 3250, 13);
    QuotientTowardZero(2 * (n * n * n) + 72 * (n * n) + 54 * n - 99, 3);
    QuotientTowardZero(3 * (n * n * n) - 610 * (n * n) + 190 * n - 1020, 5);
    QuotientTowardZero((n * n * n) + 240 * (n * n) + 132 * n - 860, 4);
  }

  /**
   * At level 1 most glitch curves are negative, and narrowing rounds them
   * toward zero: each result is one above the floor of its exact value.
   */
  lemma LevelOneTowardZero()
    ensures HexD1(1) == -189 && FloorDiv(4 + 98 + 7 - 1435, 7) == -190
    ensures Hex7B(1) == -182 && FloorDiv(3 - 110 + 158 - 416, 2) == -183
    ensures Hex81(1) == -19 && FloorDiv(3 + 40 - 120, 4) == -20
    ensures Hex0D(1) == -76 && FloorDiv(4 - 784 + 1533 - 1288, 7) == -77
    ensures Hex06(1) == -11 && FloorDiv(1 - 750 + 950 - 320, 10) == -12
    ensures Hex88(1) == -287 && FloorDiv(3 - 610 + 190 - 1020, 5) == -288
    ensures Hex64(1) == -91
  {
    TruncAboveFloor(4 + 98 + 7 - 1435, 7);
    TruncAboveFloor(3 - 110 + 158 - 416, 2);
    TruncAboveFloor(3 + 40 - 120, 4);
    TruncAboveFloor(4 - 784 + 1533 - 1288, 7);
    TruncAboveFloor(1 - 750 + 950 - 320, 10);
    TruncAboveFloor(3 - 610 + 190 - 1020, 5);
  }
}

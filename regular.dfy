/**
 * The eight regular experience groups. Each curve takes a level `n` and
 * returns the total experience a creature of that group has at level `n`.
 * The C code evaluates every expression in `double` and narrows the result
 * to `int` once, on return; the model evaluates the same expression, with
 * the same grouping, in `real` and narrows it with `Trunc`.
 *
 * Each curve's postcondition restates its result with integers only. For
 * Fast, Medium Slow, Slow, Erratic and Fluctuating it is the exact value
 * written over one common denominator and divided by C's integer division,
 * which truncates toward zero in the same way. For Medium Fast it is the
 * exact cube. For the two Slightly groups it is flooring division of the
 * cubic term plus the integer terms.
 */
module Regular {
  import opened CNumeric

  /** Fast: four fifths of n cubed. */
  function Fast(n: int): (r: int)
    ensures r == DivTowardZero(4 * (n * n * n), 5)
  {
    TruncQuotient(4 * (n * n * n), 5);
    Trunc(4.0 * Cube(n) / 5.0)
  }

  /** Medium Fast: exactly n cubed; nothing is lost to narrowing. */
  function MediumFast(n: int): (r: int)
    ensures r == n * n * n
  {
    Trunc(Cube(n))
  }

  /** Five times the exact Medium Slow value, as an integer polynomial. */
  function MediumSlowTimesFive(n: int): int {
    6 * (n * n * n) - 75 * (n * n) + 500 * n - 700
  }

  /** Medium Slow: 6n^3/5 - 15n^2 + 100n - 140, negative at level 1. */
  function MediumSlow(n: int): (r: int)
    ensures r == DivTowardZero(MediumSlowTimesFive(n), 5)
  {
    var x := 6.0 * Cube(n) / 5.0 - 15.0 * Square(n) + 100.0 * n as real - 140.0;
    assert x == MediumSlowTimesFive(n) as real / 5.0;
    TruncQuotient(MediumSlowTimesFive(n), 5);
    Trunc(x)
  }

  /** Slow: five quarters of n cubed. */
  function Slow(n: int): (r: int)
    ensures r == DivTowardZero(5 * (n * n * n), 4)
  {
    TruncQuotient(5 * (n * n * n), 4);
    Trunc(5.0 * Cube(n) / 4.0)
  }

  /**
   * Erratic: four pieces split at levels 50, 68 and 98. The inner division
   * by 3 of the third piece is a `double` division, so that piece is
   * n^3 (1911 - 10n) / 1500 with a single truncation at the end.
   */
  function Erratic(n: int): (r: int)
    ensures n < 50 ==> r == DivTowardZero(n * n * n * (100 - n), 50)
    ensures 50 <= n < 68 ==> r == DivTowardZero(n * n * n * (150 - n), 100)
    ensures 68 <= n < 98 ==> r == DivTowardZero(n * n * n * (1911 - 10 * n), 1500)
    ensures 98 <= n ==> r == DivTowardZero(n * n * n * (160 - n), 100)
  {
    if n < 50 then
      var x := Cube(n) * (100.0 - n as real) / 50.0;
      assert x == (n * n * n * (100 - n)) as real / 50.0 by {
        RealProduct(n * n * n, 100 - n);
      }
      TruncQuotient(n * n * n * (100 - n), 50);
      Trunc(x)
    else if n >= 50 && n < 68 then
      var x := Cube(n) * (150.0 - n as real) / 100.0;
      assert x == (n * n * n * (150 - n)) as real / 100.0 by {
        RealProduct(n * n * n, 150 - n);
      }
      TruncQuotient(n * n * n * (150 - n), 100);
      Trunc(x)
    else if n >= 68 && n < 98 then
      var x := Cube(n) * ((1911.0 - 10.0 * n as real) / 3.0) / 500.0;
      assert x == (n * n * n * (1911 - 10 * n)) as real / 1500.0 by {
        RealProduct(n * n * n, 1911 - 10 * n);
      }
      TruncQuotient(n * n * n * (1911 - 10 * n), 1500);
      Trunc(x)
    else
      var x := Cube(n) * (160.0 - n as real) / 100.0;
      assert x == (n * n * n * (160 - n)) as real / 100.0 by {
        RealProduct(n * n * n, 160 - n);
      }
      TruncQuotient(n * n * n * (160 - n), 100);
      Trunc(x)
  }

  /**
   * Fluctuating: three pieces split at levels 15 and 36. The inner
   * divisions (n + 1) / 3 and n / 2 are `double` divisions, so the pieces
   * are n^3 (n + 73) / 150, n^3 (n + 14) / 50 and n^3 (n + 64) / 100.
   */
  function Fluctuating(n: int): (r: int)
    ensures n < 15 ==> r == DivTowardZero(n * n * n * (n + 73), 150)
    ensures 15 <= n < 36 ==> r == DivTowardZero(n * n * n * (n + 14), 50)
    ensures 36 <= n ==> r == DivTowardZero(n * n * n * (n + 64), 100)
  {
    if n < 15 then
      var x := Cube(n) * ((n as real + 1.0) / 3.0 + 24.0) / 50.0;
      assert x == (n * n * n * (n + 73)) as real / 150.0 by {
        RealProduct(n * n * n, n + 73);
      }
      TruncQuotient(n * n * n * (n + 73), 150);
      Trunc(x)
    else if n >= 15 && n < 36 then
      var x := Cube(n) * (n as real + 14.0) / 50.0;
      assert x == (n * n * n * (n + 14)) as real / 50.0 by {
        RealProduct(n * n * n, n + 14);
      }
      TruncQuotient(n * n * n * (n + 14), 50);
      Trunc(x)
    else
      var x := Cube(n) * (n as real / 2.0 + 32.0) / 50.0;
      assert x == (n * n * n * (n + 64)) as real / 100.0 by {
        RealProduct(n * n * n, n + 64);
      }
      TruncQuotient(n * n * n * (n + 64), 100);
      Trunc(x)
  }

  /**
   * Slightly Fast: only 3n^3/4 is floored, then the integer terms
   * 10n^2 + 30 are added; the sum is already integral when narrowed.
   */
  function SlightlyFast(n: int): (r: int)
    ensures r == FloorDiv(3 * (n * n * n), 4) + 10 * (n * n) + 30
  {
    var f := ((3.0 * Cube(n)) / 4.0).Floor;
    assert f == FloorDiv(3 * (n * n * n), 4) by {
      FloorQuotient(3 * (n * n * n), 4);
    }
    Trunc(f as real + 10.0 * Square(n) + 30.0)
  }

  /** Slightly Slow: the floored 3n^3/4 plus 20n^2 + 70. */
  function SlightlySlow(n: int): (r: int)
    ensures r == FloorDiv(3 * (n * n * n), 4) + 20 * (n * n) + 70
  {
    var f := ((3.0 * Cube(n)) / 4.0).Floor;
    assert f == FloorDiv(3 * (n * n * n), 4) by {
      FloorQuotient(3 * (n * n * n), 4);
    }
    Trunc(f as real + 20.0 * Square(n) + 70.0)
  }

  /** Over the levels 1..100 the cube stays within 0..1,000,000. */
  lemma {:induction false} CubeWithinLevels(n: int)
    requires 0 <= n <= 100
    ensures 0 <= n * n * n <= 1_000_000
  {
    ProductWithin(n, n, 100, 100);
    ProductWithin(n * n, n, 10_000, 100);
  }

  lemma ProductWithin(a: int, b: int, aMax: int, bMax: int)
    requires 0 <= a <= aMax && 0 <= b <= bMax
    ensures 0 <= a * b <= aMax * bMax
  {
  }

  /** Fast reaches its documented maximum of 800,000 at level 100. */
  lemma {:induction false} FastMaximum(n: int)
    requires 1 <= n <= 100
    ensures Fast(n) <= Fast(100) == 800_000
  {
    CubeWithinLevels(n);
    DivTowardZeroMonotone(4 * (n * n * n), 4 * (100 * 100 * 100), 5);
  }

  /** Medium Fast reaches its documented maximum of 1,000,000 at level 100. */
  lemma {:induction false} MediumFastMaximum(n: int)
    requires 1 <= n <= 100
    ensures MediumFast(n) <= MediumFast(100) == 1_000_000
  {
    CubeWithinLevels(n);
  }

  /** Slow reaches its documented maximum of 1,250,000 at level 100. */
  lemma {:induction false} SlowMaximum(n: int)
    requires 1 <= n <= 100
    ensures Slow(n) <= Slow(100) == 1_250_000
  {
    CubeWithinLevels(n);
    DivTowardZeroMonotone(5 * (n * n * n), 5 * (100 * 100 * 100), 4);
  }

  /**
   * The exact Medium Slow value strictly increases from each integer level
   * to the next: the step 18n^2 - 132n + 431 is positive for every n.
   */
  lemma {:induction false} MediumSlowRises(n: int)
    ensures MediumSlowTimesFive(n) < MediumSlowTimesFive(n + 1)
  {
    assert (n + 1) * (n + 1) == n * n + 2 * n + 1;
    assert (n + 1) * (n + 1) * (n + 1) == n * n * n + 3 * (n * n) + 3 * n + 1;
    if n >= 8 {
      assert n * n >= 8 * n;
    } else if n >= 4 {
      assert n * n >= 4 * n;
    } else if n < 0 {
      assert n * n >= 0;
    }
  }

  /** Medium Slow reaches its documented maximum of 1,059,860 at level 100. */
  lemma {:induction false} MediumSlowMaximum(n: int)
    requires 1 <= n <= 100
    ensures MediumSlow(n) <= MediumSlow(100) == 1_059_860
    decreases 100 - n
  {
    if n < 100 {
      MediumSlowMaximum(n + 1);
      MediumSlowRises(n);
      DivTowardZeroMonotone(MediumSlowTimesFive(n), MediumSlowTimesFive(n + 1), 5);
    }
  }

  /**
   * The experience underflow: at level 1 Medium Slow is -53.8, which
   * narrows toward zero to -53, not down to -54.
   */
  lemma MediumSlowUnderflow()
    ensures MediumSlow(1) == -53 < 0
    ensures FloorDiv(MediumSlowTimesFive(1), 5) == -54
  {
    TruncAboveFloor(MediumSlowTimesFive(1), 5);
  }

  /**
   * Erratic takes the piece its thresholds name on both sides of each
   * boundary. At 49, 67, 68, 97 and 98 the neighbouring piece would give a
   * different value; at 50 the first two pieces agree (125,000), so that
   * level does not tell them apart.
   */
  lemma ErraticBoundaries()
    ensures Erratic(49) == DivTowardZero(49 * 49 * 49 * (100 - 49), 50) == 120_001
    ensures Erratic(50) == DivTowardZero(50 * 50 * 50 * (150 - 50), 100) == 125_000
    ensures Erratic(67) == DivTowardZero(67 * 67 * 67 * (150 - 67), 100) == 249_633
    ensures Erratic(68) == DivTowardZero(68 * 68 * 68 * (1911 - 680), 1500) == 258_043
    ensures Erratic(97) == DivTowardZero(97 * 97 * 97 * (1911 - 970), 1500) == 572_550
    ensures Erratic(98) == DivTowardZero(98 * 98 * 98 * (160 - 98), 100) == 583_539
    ensures Erratic(100) == 600_000
  {
  }

  /**
   * The inner division of Erratic's third piece is not floored: flooring
   * (1911 - 10n) / 3 first would give 257,834 at level 68.
   */
  lemma ErraticInnerDivisionExact()
    ensures Erratic(68) == 258_043
    ensures DivTowardZero(68 * 68 * 68 * ((1911 - 680) / 3), 500) == 257_834
  {
  }

  /**
   * Fluctuating splits at 15 and 36 in the same way as Erratic. At 36 the
   * second and third pieces agree (46,656); the other levels tell the
   * neighbouring pieces apart.
   */
  lemma FluctuatingBoundaries()
    ensures Fluctuating(14) == DivTowardZero(14 * 14 * 14 * (14 + 73), 150) == 1_591
    ensures Fluctuating(15) == DivTowardZero(15 * 15 * 15 * (15 + 14), 50) == 1_957
    ensures Fluctuating(35) == DivTowardZero(35 * 35 * 35 * (35 + 14), 50) == 42_017
    ensures Fluctuating(36) == DivTowardZero(36 * 36 * 36 * (36 + 64), 100) == 46_656
    ensures Fluctuating(100) == 1_640_000
  {
  }

  /** The two unused groups differ by exactly 10n^2 + 40 at every level. */
  lemma SlightlySlowMinusFast(n: int)
    ensures SlightlySlow(n) - SlightlyFast(n) == 10 * (n * n) + 40
  {
  }

  /**
   * Only the cubic term is floored: 3 * 27 / 4 = 20.25 floors to 20 at
   * level 3.
   */
  lemma SlightlyAtLevelThree()
    ensures SlightlyFast(3) == 20 + 90 + 30
    ensures SlightlySlow(3) == 20 + 180 + 70
  {
    assert FloorDiv(81, 4) == 20;
  }

  /**
   * Flooring only the cubic term is not the same as truncating the whole
   * sum: at level -15 the floored sum is -252, where narrowing the exact
   * -251.25 toward zero would give -251.
   */
  lemma SlightlyFloorBeforeSum()
    ensures SlightlyFast(-15) == -252
    ensures Trunc(3.0 * Cube(-15) / 4.0 + 10.0 * Square(-15) + 30.0) == -251
  {
    assert FloorDiv(-10125, 4) == -2532;
  }

  /** At level 1 the six regular curves the program prints are at most 1, and Medium Slow is negative. */
  lemma LevelOne()
    ensures Erratic(1) == 1 && Fast(1) == 0 && MediumFast(1) == 1
    ensures MediumSlow(1) == -53 && Slow(1) == 1 && Fluctuating(1) == 0
  {
  }

  /** At level 100 the regular curves reach their documented totals. */
  lemma LevelHundred()
    ensures Erratic(100) == 600_000 && Fast(100) == 800_000 && MediumFast(100) == 1_000_000
    ensures MediumSlow(100) == 1_059_860 && Slow(100) == 1_250_000 && Fluctuating(100) == 1_640_000
  {
  }

  /** Checkpoints at level 5 and at level 50. */
  lemma Checkpoints()
    ensures Fast(5) == 100 && MediumFast(5) == 125 && MediumSlow(5) == 135 && Slow(5) == 156
    ensures MediumFast(50) == 125_000
  {
  }
}

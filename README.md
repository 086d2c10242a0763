# expcalc experience curves in Dafny

A model of the experience-point calculator `expcalc`. The model covers:

- the eight regular growth groups of `lib/regular.c`;
- the fifteen first-generation glitch groups of `lib/glitch.c`, named by their one-byte tag;
- the stand-alone program `expcalc.c`, which repeats eighteen of those curves and asks for a level between 1 and 100.

Each C function takes a `double` level, evaluates an expression in `double`, and returns an `int`. Most expressions are polynomials in n of degree at most three. Erratic and Fluctuating are piecewise quartics, and the two Slightly groups floor their cubic term before adding a quadratic. Returning an `int` narrows the value, and that narrowing truncates toward zero (ISO C, section 6.3.1.4, paragraph 1). In the model:

- levels are integers;
- `pow(n, 2)` and `pow(n, 3)` are the exact products;
- every double operation is exact `real` arithmetic;
- the final narrowing is `CNumeric.Trunc`.

Each curve's postcondition restates its result with integers only, as an integer reference for the same value:

- Fast, Medium Slow, Slow, Erratic, Fluctuating and the eleven glitch curves with a fractional coefficient (0xD1, 0x7B, 0x81, 0x0D, 0x06, 0x1D, 0x37, 0x4B, 0x57, 0x88, 0xA5): C integer division (`CNumeric.DivTowardZero`) of an integer polynomial by one common denominator, per piece for Erratic and Fluctuating.
- Medium Fast and the glitch curves 0x1A, 0x64, 0x23 and 0x10: the exact integer polynomial, since narrowing loses nothing.
- Slightly Fast and Slightly Slow: flooring integer division (`CNumeric.FloorDiv`) of the cubic term, plus the integer terms.

`CNumeric.TruncQuotient` and `CNumeric.FloorQuotient` are the bridges: truncating an exact quotient equals C integer division, and `floor` of an exact quotient equals flooring division.

Modules:

- `CNumeric`: narrowing, C integer division, flooring, and the lemmas that relate them.
- `Regular`: the curves of `lib/regular.c`, their documented maxima, branch boundaries and the level-1 underflow.
- `Glitch`: the curves of `lib/glitch.c` and their rounding toward zero.
- `Catalog`: the 23 entry points of `include/libexp.h` as one enumeration, with a dispatch, the tag of each glitch group, and lookup by tag. Lookup rejects the unsupported tags 0x95 and 0xFF.
- `Expcalc`: the range test in `main` of `expcalc.c` and the list of values it prints once it accepts a level.

The curve functions in `expcalc.c` (lines 27-246) have the same bodies as the ones in `lib/`. One Dafny definition per curve therefore stands for both copies.

The games' published Erratic and Fluctuating formulas floor the inner divisions `(1911 - 10n) / 3` of Erratic and `(n + 1) / 3` and `n / 2` of Fluctuating. The code divides doubles there instead, and the model follows the code, so only the final narrowing truncates. `Regular.ErraticInnerDivisionExact` exhibits a level where the two readings differ.

Why exact rationals are expected to give the same narrowed results as the doubles for levels 1..100 (an argument, not something proved here):

- Every intermediate value is an integer or a quotient below 2^53 in magnitude, so each double operation is off by at most a relative 2^-53. A handful of operations leaves an absolute error far below 10^-6.
- Each exact result is a rational whose denominator is at most 1500. So a result that is not an integer lies at least 1/1500 from the nearest integer, much further than the error, and truncation is unaffected.
- An exact result is an integer only where every division in the expression is itself exact: an integer quotient, `n / 2`, or `3n^3 / 4`. The double computation is then exact as well.

## Model

| member | source | states |
|---|---|---|
| CNumeric.Square | lib/regular.c:52 | `pow(n, (double)2)` on an integer-valued level is the exact product n*n |
| CNumeric.Cube | lib/regular.c:40 | `pow(n, (double)3)` on an integer-valued level is the exact product n*n*n |
| CNumeric.Trunc | lib/regular.c:26-30 | the narrowing of a returned double to `int`; its contract is `CNumeric.TruncTowardZero` |
| CNumeric.TruncTowardZero | lib/regular.c:26-30 | narrowing a double to `int` gives a value between zero and the double, less than one away from it |
| CNumeric.DivTowardZero | lib/regular.c:29 | C integer division: for a non-negative dividend `d*q <= a < d*q + d`; for a negative one `d*q - d < a <= d*q <= 0` |
| CNumeric.FloorDiv | lib/regular.c:106 | flooring division: `d*q <= a < d*q + d` for every dividend |
| CNumeric.TruncQuotient | lib/regular.c:29 | narrowing the exact quotient `a / d` equals C integer division of `a` by `d` |
| CNumeric.FloorQuotient | lib/regular.c:106 | `floor` of the exact quotient `a / d` equals flooring integer division |
| CNumeric.QuotientTowardZero | lib/glitch.c:37-41 | C integer division is the exact quotient rounded toward zero |
| CNumeric.DivTowardZeroMonotone | lib/regular.c:26-30 | C integer division by a positive divisor is monotone in the dividend |
| CNumeric.TruncAboveFloor | lib/regular.c:49-53 | for a negative dividend that the divisor does not divide, truncation is exactly one above flooring |
| Regular.Fast | lib/regular.c:26-30 | Fast is 4n^3 divided by 5, truncated toward zero |
| Regular.MediumFast | lib/regular.c:37-41 | Medium Fast is exactly n^3, and narrowing loses nothing |
| Regular.MediumSlow | lib/regular.c:49-53 | Medium Slow is (6n^3 - 75n^2 + 500n - 700) divided by 5, truncated toward zero |
| Regular.Slow | lib/regular.c:60-64 | Slow is 5n^3 divided by 4, truncated toward zero |
| Regular.Erratic | lib/regular.c:69-80 | each of the four pieces (below 50, 50-67, 68-97, from 98) is its own exact rational truncated toward zero; 68-97 is n^3(1911 - 10n)/1500 with no inner flooring |
| Regular.Fluctuating | lib/regular.c:85-94 | each of the three pieces (below 15, 15-35, from 36) is its own exact rational truncated toward zero: n^3(n+73)/150, n^3(n+14)/50, n^3(n+64)/100 |
| Regular.SlightlyFast | lib/regular.c:103-107 | the floor of 3n^3/4, plus 10n^2 + 30; only the cubic term is floored |
| Regular.SlightlySlow | lib/regular.c:112-116 | the floor of 3n^3/4, plus 20n^2 + 70; only the cubic term is floored |
| Regular.FastMaximum | lib/regular.c:21-30 | over levels 1..100 Fast never exceeds Fast(100) = 800,000, the documented maximum |
| Regular.MediumFastMaximum | lib/regular.c:32-41 | over levels 1..100 Medium Fast never exceeds MediumFast(100) = 1,000,000 |
| Regular.SlowMaximum | lib/regular.c:55-64 | over levels 1..100 Slow never exceeds Slow(100) = 1,250,000 |
| Regular.MediumSlowRises | lib/regular.c:52 | the exact Medium Slow value strictly increases from every integer level to the next |
| Regular.MediumSlowMaximum | lib/regular.c:43-53 | over levels 1..100 Medium Slow never exceeds MediumSlow(100) = 1,059,860 |
| Regular.MediumSlowUnderflow | lib/regular.c:45-52 | MediumSlow(1) is negative, -53; flooring -53.8 would give -54 |
| Regular.ErraticBoundaries | lib/regular.c:72-79 | levels 49, 50, 67, 68, 97 and 98 each take the piece their thresholds name, with the values that piece gives; Erratic(100) = 600,000 |
| Regular.ErraticInnerDivisionExact | lib/regular.c:77 | Erratic(68) = 258,043, while flooring (1911 - 680)/3 first would give 257,834 |
| Regular.FluctuatingBoundaries | lib/regular.c:88-93 | levels 14, 15, 35 and 36 take the piece their thresholds name; Fluctuating(15) = 1,957 and Fluctuating(100) = 1,640,000 |
| Regular.SlightlySlowMinusFast | lib/regular.c:103-116 | at every integer level Slightly Slow exceeds Slightly Fast by exactly 10n^2 + 40 |
| Regular.SlightlyAtLevelThree | lib/regular.c:106-115 | SlightlyFast(3) = 20 + 90 + 30 = 200 and SlightlySlow(3) = 270, with 20.25 floored to 20 |
| Regular.SlightlyFloorBeforeSum | lib/regular.c:106 | at level -15 flooring the cubic term first gives -252, while truncating the whole sum would give -251 |
| Regular.LevelOne | lib/regular.c:26-94 | the six reported regular curves at level 1: 1, 0, 1, -53, 1, 0 (Erratic, Fast, Medium Fast, Medium Slow, Slow, Fluctuating) |
| Regular.LevelHundred | lib/regular.c:21-94 | the six reported regular curves at level 100: 600,000, 800,000, 1,000,000, 1,059,860, 1,250,000, 1,640,000 |
| Regular.Checkpoints | lib/regular.c:26-64 | values at level 5 (Fast 100, Medium Fast 125, Medium Slow 135, Slow 156) and MediumFast(50) = 125,000 |
| Glitch.HexD1 | lib/glitch.c:37-41 | 0xD1 is (4n^3 + 98n^2 + 7n - 1435)/7, truncated toward zero |
| Glitch.Hex7B | lib/glitch.c:49-53 | 0x7B is (3n^3 - 110n^2 + 158n - 416)/2, truncated toward zero |
| Glitch.Hex81 | lib/glitch.c:64-68 | 0x81, grouped as 3n^3/4 + (10n^2 - 30), is (3n^3 + 40n^2 - 120)/4, truncated toward zero |
| Glitch.Hex0D | lib/glitch.c:76-80 | 0x0D is (4n^3 - 784n^2 + 1533n - 1288)/7, truncated toward zero |
| Glitch.Hex1A | lib/glitch.c:89-93 | 0x1A is exactly 33n^2 + 155n - 80 |
| Glitch.Hex06 | lib/glitch.c:103-107 | 0x06 is (n^3 - 750n^2 + 950n - 320)/10, truncated toward zero |
| Glitch.Hex1D | lib/glitch.c:119-123 | 0x1D is (n^3 + 469n^2 + 455n - 224)/7, truncated toward zero |
| Glitch.Hex37 | lib/glitch.c:136-140 | 0x37 is (5n^3 + 972n^2 + 48n - 576)/12, truncated toward zero |
| Glitch.Hex4B | lib/glitch.c:150-154 | 0x4B is (12n^3 + 1651n^2 + 559n - 3250)/13, truncated toward zero |
| Glitch.Hex57 | lib/glitch.c:159-163 | 0x57 is (2n^3 + 72n^2 + 54n - 99)/3, truncated toward zero |
| Glitch.Hex64 | lib/glitch.c:172-176 | 0x64 is exactly 2n^3 + 32n^2 + 80n - 205 |
| Glitch.Hex88 | lib/glitch.c:181-185 | 0x88 is (3n^3 - 610n^2 + 190n - 1020)/5, truncated toward zero |
| Glitch.HexA5 | lib/glitch.c:195-199 | 0xA5 is (n^3 + 240n^2 + 132n - 860)/4, truncated toward zero |
| Glitch.Hex23 | lib/glitch.c:204-208 | 0x23 is exactly 80n^2 + 23n - 236 |
| Glitch.Hex10 | lib/glitch.c:219-223 | 0x10 is exactly n^3 + 62n^2 + 145n - 34 |
| Glitch.ExactValuesTowardZero | lib/glitch.c:37-199 | each of the eleven glitch curves with a fractional coefficient lies within one of its exact rational value and is never larger in magnitude |
| Glitch.LevelOneTowardZero | lib/glitch.c:40-184 | at level 1: 0xD1 -189, 0x7B -182, 0x81 -19, 0x0D -76, 0x06 -11, 0x88 -287, one above the floors -190, -183, -20, -77, -12, -288; 0x64 is -91 |
| Catalog.Position | include/libexp.h:9-37 | every group has a place in the list of the 23 declared entry points |
| Catalog.Unsupported | lib/glitch.c:22-23 | the tags 0x95 and 0xFF, which have no curve because their formulas divide by zero |
| Catalog.Evaluate | include/libexp.h:9-37 | the dispatch from each of the 23 declared entry points to its curve |
| Catalog.Tag | lib/glitch.c:30-223 | a glitch group's tag is one byte and is never one of the unsupported tags |
| Catalog.Lookup | lib/glitch.c:19-25 | a tag that is found names a glitch group carrying that tag; 0x95 and 0xFF are never found |
| Catalog.EvaluateTag | lib/glitch.c:19-25 | evaluation by tag gives no number exactly when the tag has no curve, in particular for 0x95 and 0xFF, and otherwise the curve's value |
| Catalog.LookupTag | lib/glitch.c:30-223 | every glitch group is found again under its own tag |
| Catalog.GroupsListedOnce | include/libexp.h:9-37 | the catalog has 23 entries, each group exactly once, the eight regular groups before the fifteen glitch groups |
| Catalog.TagsDistinct | lib/glitch.c:30-223 | no two glitch groups share a tag |
| Expcalc.LevelAccepted | expcalc.c:256 | the test `!(n < 1 \|\| n > 100)` accepts a level exactly when 1 <= n <= 100 |
| Expcalc.ReportOrder | expcalc.c:263-282 | the eighteen groups in the order `main` prints them: six regular, then twelve glitch groups |
| Expcalc.Report | expcalc.c:253-282 | a report exists exactly for levels 1..100; it has 18 values, each the curve of the group printed in that place |
| Expcalc.RegularCurvesReported | expcalc.c:262-268 | an accepted level prints Erratic, Fast, Medium Fast, Medium Slow, Slow and Fluctuating first, in that order |
| Expcalc.AcceptanceBoundaries | expcalc.c:256 | levels 1 and 100 are accepted, 0 and 101 rejected |
| Expcalc.ReportRejects | expcalc.c:256-257 | levels 0 and 101 produce no report |
| Expcalc.RegularReportAtLevelOne | expcalc.c:262-268 | at level 1 the regular lines print 1, 0, 1, -53, 1, 0 |
| Expcalc.RegularReportAtLevelHundred | expcalc.c:262-268 | at level 100 the regular lines print the documented maxima, Erratic 600,000 and Fluctuating 1,640,000 |

## Left out

- The prompt loop and the printing in `main` (expcalc.c:248-283) are console I/O. The model keeps the range test and the list of values printed after a level is accepted, without labels or formatting.
- src/expcalc.c is not part of this model. It is a separate front end to the library.
- Fractional levels. The C functions and the range test take a `double`, so the program also accepts a level such as 2.5. The model takes integer levels only.
- IEEE-754 rounding of `pow` and of the `double` arithmetic. The model uses exact rationals. For integer levels 1..100, n^2 and n^3 are exact in a double, so what is abstracted away is the rounding of every double operation from the first inexact division on; the argument above says why that is expected not to change a narrowed result.
- The range of `int`. Narrowing a double outside the range of `int` is undefined behaviour in C, and the model makes no claim about it: results are unbounded integers. The only range claims are the maxima over levels 1..100.
- Groups 0x95 and 0xFF. The code computes no formula for them, so the model has none either; lookup reports them as unsupported.
- The official floor-based Erratic and Fluctuating formulas, which the code does not compute.
- The lists of glitch Pokémon in the comments of `lib/glitch.c`, which are informational only.
- Expcalc.Report: the twelve printed glitch values are tied to their curves only through `Catalog.Evaluate` at each position. No lemma restates them per curve or at fixed levels; `Glitch.LevelOneTowardZero` gives those values for the curves themselves.

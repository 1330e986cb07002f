# Vectors and 2D lines, modelled in Dafny

A model of the exact-arithmetic core of a small Python linear-algebra library:

- `vector.py`: coordinate vectors with sum, difference, scaling, division,
  dot and cross product, the zero, orthogonality and parallelism tests, and the
  projection of a vector on a basis.
- `line.py`: the 2D line `n . p = c` with its derived basepoint, the
  coincidence test `__eq__` and `intersection_with` by Cramer's rule.

`vector.py` takes ints, floats or decimals as coordinates (vector.py:10) and
sets no precision. `line.py` sets the decimal precision to 30 significant
digits (line.py:1-2) and converts the constant, and a normal given as a plain
list, to decimals (line.py:21-27). The model computes with
exact `real`s, so every law proved here is exact; the library approximates it.

Modules:

- `Wrappers` (`wrappers.dfy`): `Option` and `Result`, which stand in for the
  library's `None` returns and exceptions.
- `Vectors` (`vector.dfy`): a vector is a `seq<real>`. Binary operations pair
  coordinates the way `zip` does, so the result is as long as the shorter
  operand. Each operation is a function, and its laws are lemmas.
- `Lines` (`line.dfy`): `Line` is a class, because its constructor assigns
  the fields and then `SetBasepoint` updates the basepoint in place.
  - `FirstNonzeroIndex` is the scanning loop with early return. It is proved
    equal to the recursive specification `FirstNonzero`.
  - Comparison and intersection are functions that read the fields.
  - The angle-based parallel test needs `acos`, which is not modelled. Every
    member that uses it takes the angle comparison as a parameter `angleTest`.
    The zero-vector branch of the test is modelled exactly.
  - The magnitude is a square root. Members that need it take it as a
    parameter constrained by `IsMagnitude(v, m)`: `m >= 0` and `m * m == v . v`.

## Model

| member | source | states |
|---|---|---|
| Vectors.Add | vector.py:33-35 | the sum is as long as the shorter operand and holds the pairwise sums |
| Vectors.Sub | vector.py:37-39 | the difference is as long as the shorter operand and holds the pairwise differences |
| Vectors.Scale | vector.py:46 | scaling keeps the length and multiplies every coordinate by the number |
| Vectors.Mul | vector.py:41-48 | `v * m` succeeds exactly when `m` is a number, scaling every coordinate; a vector or other operand is an error |
| Vectors.RMul | vector.py:49 | `m * v` succeeds exactly when `m` is a number and multiplies every coordinate from the left; any other operand is the non-number error |
| Vectors.Div | vector.py:51-52 | division fails exactly when the divisor is zero and there is a coordinate to divide; otherwise each result coordinate times the divisor gives back the original coordinate |
| Vectors.Dot | vector.py:54-56 | the sum of the products of the `zip` pairs; its laws are the `Dot...` lemmas below |
| Vectors.IsZero | vector.py:82-83 | a vector of zeros passes the zero test, and a vector that passes has every coordinate within the tolerance of zero |
| Vectors.IsOrthogonalTo | vector.py:79-80 | two vectors are orthogonal exactly when their dot product, in either order, is within the tolerance of zero; every vector is orthogonal to a zero vector |
| Vectors.IsParallelTo | vector.py:85-90 | a vector that passes the zero test is parallel to everything; two vectors that fail it are parallel exactly when the angle test says so |
| Vectors.Normalize | vector.py:61-66 | a zero magnitude gives the zero vector; any other gives a vector of unit length that, times the magnitude, is the input |
| Vectors.ComponentParallelTo | vector.py:92-95 | the projection is as long as the basis and is the zero vector for a zero basis |
| Vectors.ComponentOrthogonalTo | vector.py:97-99 | the orthogonal component is as long as the shorter of vector and basis |
| Vectors.Cross | vector.py:101-107 | the cross product exists exactly when both operands have at least three coordinates, of which it reads the first three; it has three coordinates and is orthogonal to both operands; a shorter operand is an index error |
| Vectors.AddCommutative | vector.py:33-35 | `a + b == b + a` |
| Vectors.SubSelfIsZero | vector.py:121 | `a - a` is the zero vector of the same length |
| Vectors.SubThenAdd | vector.py:33-39 | `(a - b) + b == a` when `b` is at least as long as `a` |
| Vectors.ScaleDivRoundTrip | vector.py:41-52 | dividing by a nonzero number undoes scaling by it, and scaling undoes dividing |
| Vectors.ArithmeticExamples | vector.py:120-124 | `[1,2,3] * 2 == [2,4,6]`, `[1,2,3] / 2 == [0.5,1,1.5]`, `[1,2,3] + [1,2,3] == [2,4,6]` |
| Vectors.DotExample | vector.py:129 | `[1,2,-1] . [3,1,0] == 5` |
| Vectors.OrthogonalityExamples | vector.py:144-167 | of the self-test pairs, exactly the third and the one with a zero vector are orthogonal |
| Vectors.DotCommutative | vector.py:54-56 | the dot product commutes |
| Vectors.DotScaleBoth | vector.py:54-56 | scaling either operand by a number scales the dot product by that number |
| Vectors.DotScaleLeft | vector.py:54-56 | `(t a) . b == t (a . b)` |
| Vectors.DotScaleRight | vector.py:54-56 | `a . (t b) == t (a . b)` |
| Vectors.DotSubRight | vector.py:54-56 | `a . (b - c) == a . b - a . c` when `b` and `c` have equal length or `a` is no longer than either |
| Vectors.DotZeros | vector.py:54-56 | the dot product with a zero vector is zero, on either side |
| Vectors.DotSelfZero | vector.py:82-83 | only the all-zero vector has zero squared magnitude |
| Vectors.IsZeroByMagnitude | vector.py:82-83 | the squared zero test holds exactly when the magnitude is below the tolerance |
| Vectors.IsZeroCoordinates | vector.py:82-83 | a vector that passes the zero test has every coordinate within the tolerance of zero |
| Vectors.ZeroVectorPolicy | vector.py:79-90 | a zero vector is orthogonal and parallel to every vector, in either order |
| Vectors.ComponentParallelByNormalize | vector.py:92-95 | the square-root-free projection equals `(v . normalize(b)) * normalize(b)` for every basis, zero or not |
| Vectors.ProjectionDecomposition | vector.py:92-99 | the parallel and orthogonal components add up to `v` |
| Vectors.DotWithParallelComponent | vector.py:92-95 | the projection has the same dot product with the basis as `v` has |
| Vectors.OrthogonalComponentIsOrthogonal | vector.py:97-99 | the orthogonal component is exactly orthogonal to a basis no longer than the vector |
| Vectors.CrossAntiSymmetric | vector.py:101-107 | `a x b == -(b x a)` |
| Vectors.CrossSelfIsZero | vector.py:101-107 | `a x a` is the zero vector |
| Vectors.CrossLagrange | vector.py:101-110 | the squared length of `a x b` is `(a . a)(b . b) - (a . b)^2`, the squared area that `area_of_parallelogram` takes the root of |
| Vectors.CrossUnitVectors | vector.py:101-107 | `x x y == z`, `y x z == x` and `z x x == y`: the product is right-handed |
| Lines.IsNearZero | line.py:8-9 | a number is near zero exactly when it lies strictly between minus and plus the tolerance |
| Lines.FirstNonzeroFrom | line.py:140-145 | the index found is the first, at or after the start, whose element is not near zero; none is found exactly when every element is near zero |
| Lines.Line.FirstNonzeroIndex | line.py:140-145 | the scan with early return finds the first element that is not near zero, or none |
| Lines.Basepoint | line.py:33-49 | there is no basepoint exactly when every coefficient is near zero; otherwise the basepoint has two coordinates, is zero except at the first coefficient that is not near zero, and lies on the line |
| Lines.Line.constructor | line.py:14-30 | a missing normal is the zero vector, a missing constant is 0, and the basepoint is derived; the default line has no basepoint |
| Lines.Line.SetBasepoint | line.py:33-49 | keeps the coefficients and stores the basepoint they determine |
| Lines.Line.IsParallelTo | line.py:52-53 | two lines are parallel when either normal is zero; when neither is, exactly when the angle test accepts the two normals |
| Lines.Line.Equals | line.py:56-74 | two zero-normal lines are equal when their constants differ by less than the tolerance; a zero-normal line never equals another line; lines that are not parallel are unequal; parallel lines fail exactly when a basepoint is missing, and otherwise are equal when the other basepoint satisfies this line's equation within the tolerance |
| Lines.Line.EqualsAsWritten | line.py:59-63 | comparing two zero-normal lines raises; every other comparison agrees with `Equals` |
| Lines.SolveByCramer | line.py:85-91 | the system fails exactly on a zero determinant; otherwise the point lies on both lines and is the only such point |
| Lines.CramerSolves | line.py:88-90 | Cramer's formulas satisfy both equations |
| Lines.CramerUnique | line.py:88-90 | every solution of the system is Cramer's solution |
| Lines.CramerOnBothLines | line.py:85-91 | the Cramer point satisfies both line equations |
| Lines.CramerOnlySolution | line.py:85-91 | no other point satisfies both line equations |
| Lines.Line.IntersectionWith | line.py:77-91 | built on the corrected comparison `Equals`: equal lines give the line itself; parallel unequal lines give nothing; lines that are neither give exactly Cramer's solution, a point on both lines when the determinant is nonzero and the zero-denominator error otherwise; a failed comparison is passed on |
| Lines.Line.IntersectionWithAsWritten | line.py:77-78 | starting from the comparison as written, intersecting two zero-normal lines raises; every other intersection agrees with `IntersectionWith` |
| Lines.ZeroNormalHasNoBasepoint | line.py:33-49 | a normal that passes the zero test has no basepoint |
| Lines.BasepointOnLine | line.py:37-43 | the basepoint of a line, when there is one, satisfies the line's equation |
| Lines.NearZeroNormalThatIsNotZero | line.py:68-73 | a normal with both coefficients just under the tolerance fails the zero test and still has no basepoint |
| Lines.NearZeroNormalComparisonFails | line.py:68-73 | comparing or intersecting a line with that normal and a line with a nonzero normal that the angle test calls parallel fails for want of a basepoint |
| Lines.EqualsReflexive | line.py:56-74 | a line with a basepoint, or with a zero normal, equals itself |
| Lines.ScaledLinesEqual | line.py:68-74 | for a line with a basepoint, multiplying its equation by a nonzero number gives an equal line |
| Lines.DotScaledNormal | line.py:68-74 | a point on `(k n) . p == k c`, with `k` nonzero, lies on `n . p == c` |
| Lines.IntersectionPointUnique | line.py:77-91 | the point returned is the only point on both lines |
| Lines.DefaultLinesExample | line.py:59-63 | comparing or intersecting two default lines raises as written; as intended they are equal and their intersection is the whole line |
| Lines.CoincidentLinesExample | test/test_line.py:10-12 | `4.046x + 2.836y = 1.21` equals `10.115x + 7.09y = 3.025` |
| Lines.IntersectingLinesExample | test/test_line.py:14-16 | `7.204x + 3.182y = 8.68` and `8.172x + 4.114y = 9.883` meet in a point that rounds to `(1.173, 0.073)` |
| Lines.ParallelLinesExample | test/test_line.py:18-19 | `1.182x + 5.562y = 6.744` and `1.773x + 8.343y = 9.525` do not intersect |

## Left out

- Decimal precision: the 30-digit context (line.py:1-2) and its rounding are not modelled. Arithmetic is exact.
- Tolerance: the `1e-10` tolerance is a float literal in the source. The model uses the exact decimal 1e-10, not its binary rounding.
- Tolerance parameters: every tolerance is fixed at its default, because no caller in the core passes another.
- `magnitude` (vector.py:58-59) is a square root and is not computed. Members that need it take the magnitude as a parameter satisfying `IsMagnitude`.
- Mixing floats and decimals: Python raises TypeError on any arithmetic between a float and a `Decimal`. The model has one number type, `real`, and captures none of these raises:
  - `magnitude` (vector.py:59) raises on a float coordinate, because a float cannot be raised to a `Decimal` power. So `is_zero`, `normalize`, `is_parallel_to` and `component_parallel_to` raise on vectors built from floats. The self-test loop (vector.py:165-166) therefore raises at its first parallelism check.
  - `*`, `/`, `@`, `+` and `-` (vector.py:33-56) raise when one side is a float and the other a `Decimal`, as in `Vector([0.5]) * Decimal('2')`.
  - A `Line` built from a `Vector` with float coordinates keeps them, because line.py:21-23 converts only a normal that is not a `Vector`. `set_basepoint` then raises at `c / initial_coefficient` (line.py:42) and re-raises at line.py:49. So the constructor raises whenever the first coordinate that is not near zero is a float, and the model's constructor accepts that input. When every coordinate is near zero, the basepoint is None, as in the model.
  - Converting a float to a `Decimal` (line.py:22, line.py:27) keeps its binary value. The model reads the literal as the exact decimal it spells.
- `angle` (vector.py:68-77) and the nonzero branch of `is_parallel_to` (vector.py:89-90) rely on `acos`, `copysign` and floats. They are the `angleTest` parameter.
- Vectors.IsParallelTo: only its zero-vector branch is exact; the verdict on two nonzero vectors is whatever `angleTest` says.
- `area_of_parallelogram` and `area_of_triangle` (vector.py:109-113) are left out because they need the square-root magnitude.
- `radToDeg` and `degToRad` (vector.py:13-17) are left out as float conversions by pi.
- Display methods are left out: `Vector.__str__` (vector.py:27-28) and `Line.__repr__` (line.py:94-137).
- `Vector.__init__`, `__getitem__` and `__eq__` (vector.py:20-31) are not separate members. A vector is its coordinate sequence, with Dafny's indexing and equality.
- Converting a string or number argument to a decimal (line.py:21-27) is left out. The constructor receives reals.
- Lines.Line.constructor: requires a normal of exactly two coefficients. The source stores a normal of any length, but it supports only two dimensions.
- Exceptions are `Failure` values:
  - a non-numeric multiplier (`raise NotImplemented()` raises a TypeError);
  - division by zero;
  - indexing past the end in `cross`;
  - a missing basepoint zipped in `__eq__`;
  - a zero denominator in `intersection_with`.

  The message-string sentinel of `first_nonzero_index` is an `Option`.
- Lines.SolveByCramer: a zero determinant is the error case, not a precondition. The source divides by the determinant without a guard (line.py:88-90). With its own `acos` test, a zero determinant occurs only for normals that test calls parallel, so line.py:82 returns first. The model keeps the error because `angleTest` is a parameter, which may call such normals not parallel.
- Vectors.ComponentOrthogonalTo: its own contract states only the length. Its meaning is proved in `ProjectionDecomposition` and `OrthogonalComponentIsOrthogonal`.
- Vectors.ComponentParallelTo: its own contract states the length and the zero-basis case. Its equality with the source's normalize-based formula is `ComponentParallelByNormalize`.
- Lines.IntersectingLinesExample: rounding to three places is stated as open bounds half a unit around the rounded value. The half-even tie is not modelled.
- The self-test and unit tests are not modelled beyond the cases cited in the table; their `print` calls are left out.
- The plane class used by test/test_plane.py is not part of this model.

## Findings

| source | as written | input that shows it | evidently intended | confidence | as-written member | corrected member |
|---|---|---|---|---|---|---|
| line.py:62-63 | Subtracting two constants of the `Decimal` subclass yields a plain `decimal.Decimal`, which has no `is_near_zero`. Comparing two lines with zero normals therefore raises AttributeError, and so does `intersection_with` (line.py:78), which compares first. | `Line() == Line()` or `Line().intersection_with(Line())`, both lines `0 = 0` | Two zero-normal lines are equal when their constants differ by less than the tolerance. | not executed | Lines.Line.EqualsAsWritten, Lines.Line.IntersectionWithAsWritten | Lines.Line.Equals, Lines.Line.IntersectionWith |

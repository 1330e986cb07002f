/**
 * The 2D line of line.py: the points `p` with `normal . p == constant`.
 *
 * A `Line` is built once: the constructor stores the normal vector and the
 * constant term and then derives a basepoint, a point on the line, from the
 * first coefficient that is not near zero. Equality is coincidence of the two
 * lines within the tolerance, and the intersection of two lines is solved by
 * Cramer's rule.
 *
 * The vector-level parallelism test depends on `acos`; every member that needs
 * it receives the angle comparison as the parameter `angleTest`.
 */
module Lines {
  import opened Wrappers
  import opened Vectors

  /** Only two-dimensional lines are supported. */
  const Dims: nat := 2

  /** Why a comparison or intersection of two lines raises. */
  datatype LineError =
    | MissingBasepoint   // zipping a basepoint that is None
    | MissingAttribute   // `is_near_zero` called on a plain decimal
    | ZeroDenominator    // Cramer's rule dividing by a zero determinant

  /** What `intersection_with` returns: the line itself, nothing, or one point. */
  datatype Intersection = AllPoints(line: Line) | NoPoint | Point(x: real, y: real)

  /** `Decimal.is_near_zero` with its default `eps`: strictly inside the open tolerance band around 0. */
  function IsNearZero(x: real): (r: bool)
    ensures r <==> -Tolerance < x < Tolerance
  {
    Abs(x) < Tolerance
  }

  /** Every coordinate of `v` is near zero. */
  predicate AllNearZero(v: Vector)
  {
    forall j :: 0 <= j < |v| ==> IsNearZero(v[j])
  }

  /**
   * The index of the first element of `s` at or after `k` that is not near
   * zero, or None when every such element is near zero.
   */
  function FirstNonzeroFrom(s: Vector, k: nat): (r: Option<nat>)
    requires k <= |s|
    ensures r.Some? ==> k <= r.value < |s| && !IsNearZero(s[r.value])
    ensures r.Some? ==> forall j :: k <= j < r.value ==> IsNearZero(s[j])
    ensures r.None? <==> forall j :: k <= j < |s| ==> IsNearZero(s[j])
    decreases |s| - k
  {
    if k == |s| then None
    else if !IsNearZero(s[k]) then Some(k)
    else FirstNonzeroFrom(s, k + 1)
  }

  function FirstNonzero(s: Vector): Option<nat>
  {
    FirstNonzeroFrom(s, 0)
  }

  /**
   * The basepoint that `set_basepoint` derives: zero everywhere except at the
   * first coefficient that is not near zero, where it solves the line equation.
   */
  function Basepoint(n: Vector, c: real): (r: Option<Vector>)
    requires |n| == Dims
    ensures r.None? <==> AllNearZero(n)
    ensures r.Some? ==> |r.value| == Dims && Dot(n, r.value) == c
    ensures r.Some? ==> forall j :: 0 <= j < Dims ==>
      r.value[j] == if Some(j) == FirstNonzero(n) then c / n[j] else 0.0
  {
    match FirstNonzero(n)
    case None => None
    case Some(i) =>
      var p := Zeros(Dims)[i := c / n[i]];
      DotOfPair(n, p);
      Some(p)
  }

  /** The determinant `A*D - B*C` of the system formed by two normals. */
  function Determinant(n1: Vector, n2: Vector): real
    requires |n1| == Dims && |n2| == Dims
  {
    n1[0] * n2[1] - n1[1] * n2[0]
  }

  /**
   * Cramer's rule solves the system `a x + b y == k1`, `c x + d y == k2`,
   * stated without division: `x * det` and `y * det` are Cramer's numerators.
   */
  lemma CramerSolves(a: real, b: real, c: real, d: real, k1: real, k2: real, det: real, x: real, y: real)
    requires det == a * d - b * c && det != 0.0
    requires x * det == d * k1 - b * k2 && y * det == -c * k1 + a * k2
    ensures a * x + b * y == k1 && c * x + d * y == k2
  {
    calc {
      det * (a * x + b * y);
    ==
      a * (x * det) + b * (y * det);
    ==
      a * (d * k1 - b * k2) + b * (-c * k1 + a * k2);
    ==
      det * k1;
    }
    MulCancel(a * x + b * y, k1, det);
    calc {
      det * (c * x + d * y);
    ==
      c * (x * det) + d * (y * det);
    ==
      c * (d * k1 - b * k2) + d * (-c * k1 + a * k2);
    ==
      det * k2;
    }
    MulCancel(c * x + d * y, k2, det);
  }

  /**
   * A solution of the system is the one that Cramer's rule gives, stated
   * without division: `px * det` and `py * det` are Cramer's numerators.
   */
  lemma CramerUnique(a: real, b: real, c: real, d: real, k1: real, k2: real, det: real, x: real, y: real, px: real, py: real)
    requires det == a * d - b * c && det != 0.0
    requires px * det == d * k1 - b * k2 && py * det == -c * k1 + a * k2
    requires a * x + b * y == k1 && c * x + d * y == k2
    ensures x == px && y == py
  {
    calc {
      det * x;
    ==
      d * (a * x + b * y) - b * (c * x + d * y);
    ==
      d * k1 - b * k2;
    ==
      det * px;
    }
    MulCancel(x, px, det);
    calc {
      det * y;
    ==
      a * (c * x + d * y) - c * (a * x + b * y);
    ==
      -c * k1 + a * k2;
    ==
      det * py;
    }
    MulCancel(y, py, det);
  }

  /** The point that Cramer's rule gives for two lines lies on both of them. */
  lemma CramerOnBothLines(n1: Vector, k1: real, n2: Vector, k2: real, x: real, y: real)
    requires |n1| == Dims && |n2| == Dims && Determinant(n1, n2) != 0.0
    requires x == (n2[1] * k1 - n1[1] * k2) / Determinant(n1, n2)
    requires y == (-n2[0] * k1 + n1[0] * k2) / Determinant(n1, n2)
    ensures LineValue(n1, x, y) == k1 && LineValue(n2, x, y) == k2
  {
    var det := Determinant(n1, n2);
    DivTimes(n2[1] * k1 - n1[1] * k2, det, x);
    DivTimes(-n2[0] * k1 + n1[0] * k2, det, y);
    CramerSolves(n1[0], n1[1], n2[0], n2[1], k1, k2, det, x, y);
  }

  /** A quotient times its divisor is the dividend. */
  lemma DivTimes(num: real, den: real, q: real)
    requires den != 0.0 && q == num / den
    ensures q * den == num
  {
  }

  /**
   * The last step of `intersection_with`: the system `n1 . p == k1`,
   * `n2 . p == k2` solved by Cramer's rule; a zero determinant makes the
   * division raise.
   */
  function SolveByCramer(n1: Vector, k1: real, n2: Vector, k2: real): (r: Result<Intersection, LineError>)
    requires |n1| == Dims && |n2| == Dims
    ensures r.Failure? <==> Determinant(n1, n2) == 0.0
    ensures r.Failure? ==> r.error == ZeroDenominator
    ensures r.Success? ==> r.value.Point? && LineValue(n1, r.value.x, r.value.y) == k1 && LineValue(n2, r.value.x, r.value.y) == k2
    ensures r.Success? ==> forall x, y :: LineValue(n1, x, y) == k1 && LineValue(n2, x, y) == k2 ==> r.value == Point(x, y)
  {
    var a, b := n1[0], n1[1];
    var c, d := n2[0], n2[1];
    var denom := a * d - b * c;
    if denom == 0.0 then Failure(ZeroDenominator)
    else
      var x := (d * k1 - b * k2) / denom;
      var y := (-c * k1 + a * k2) / denom;
      CramerOnBothLines(n1, k1, n2, k2, x, y);
      CramerOnlySolution(n1, k1, n2, k2, x, y);
      Success(Point(x, y))
  }

  /** No other point than the one Cramer's rule gives lies on both lines. */
  lemma CramerOnlySolution(n1: Vector, k1: real, n2: Vector, k2: real, px: real, py: real)
    requires |n1| == Dims && |n2| == Dims && Determinant(n1, n2) != 0.0
    requires px == (n2[1] * k1 - n1[1] * k2) / Determinant(n1, n2)
    requires py == (-n2[0] * k1 + n1[0] * k2) / Determinant(n1, n2)
    ensures forall x, y :: LineValue(n1, x, y) == k1 && LineValue(n2, x, y) == k2 ==> x == px && y == py
  {
    var det := Determinant(n1, n2);
    DivTimes(n2[1] * k1 - n1[1] * k2, det, px);
    DivTimes(-n2[0] * k1 + n1[0] * k2, det, py);
    forall x, y | LineValue(n1, x, y) == k1 && LineValue(n2, x, y) == k2 ensures x == px && y == py {
      CramerUnique(n1[0], n1[1], n2[0], n2[1], k1, k2, det, x, y, px, py);
    }
  }

  /** The left-hand side `A x + B y` of a line equation at the point `(x, y)`. */
  function LineValue(n: Vector, x: real, y: real): real
    requires |n| == Dims
  {
    n[0] * x + n[1] * y
  }

  /** The left-hand side of a line equation is the dot product of the normal with the point. */
  lemma DotWithPoint(n: Vector, x: real, y: real)
    requires |n| == Dims
    ensures Dot(n, [x, y]) == LineValue(n, x, y)
  {
    DotOfPair(n, [x, y]);
  }

  class Line {
    var normalVector: Vector
    var constantTerm: real
    var basepoint: Option<Vector>

    /** A constructed line: two coefficients, and the basepoint derived from them. */
    ghost predicate Valid()
      reads this
    {
      |normalVector| == Dims && basepoint == Basepoint(normalVector, constantTerm)
    }

    /** The point `(x, y)` satisfies the line's equation. */
    ghost predicate Contains(x: real, y: real)
      reads this
      requires |normalVector| == Dims
    {
      LineValue(normalVector, x, y) == constantTerm
    }

    /**
     * `__init__`: a missing normal vector stands for the zero vector and a
     * missing constant term for 0; the basepoint is then derived.
     */
    constructor (normal: Option<Vector>, constant: Option<real>)
      requires normal.Some? ==> |normal.value| == Dims
      ensures Valid()
      ensures normalVector == if normal.Some? then normal.value else Zeros(Dims)
      ensures constantTerm == if constant.Some? then constant.value else 0.0
      ensures normal.None? ==> basepoint.None?
    {
      normalVector := if normal.Some? then normal.value else Zeros(Dims);
      constantTerm := if constant.Some? then constant.value else 0.0;
      basepoint := None;
      new;
      SetBasepoint();
    }

    /** `set_basepoint`: stores the basepoint derived from the current coefficients. */
    method SetBasepoint()
      requires |normalVector| == Dims
      modifies this
      ensures normalVector == old(normalVector) && constantTerm == old(constantTerm)
      ensures Valid()
    {
      var n := normalVector;
      var c := constantTerm;
      var coords := Zeros(Dims);
      var initialIndex := FirstNonzeroIndex(n);
      match initialIndex {
        case None =>
          basepoint := None;
        case Some(i) =>
          coords := coords[i := c / n[i]];
          basepoint := Some(coords);
      }
    }

    /** `first_nonzero_index`: a scan that stops at the first element not near zero. */
    static method FirstNonzeroIndex(s: Vector) returns (r: Option<nat>)
      ensures r == FirstNonzero(s)
    {
      var k := 0;
      while k < |s|
        invariant k <= |s|
        invariant FirstNonzeroFrom(s, k) == FirstNonzero(s)
      {
        if !IsNearZero(s[k]) {
          return Some(k);
        }
        k := k + 1;
      }
      return None;
    }

    /** `is_parallel_to`: the test of the two normal vectors. */
    function IsParallelTo(other: Line, angleTest: (Vector, Vector) -> bool): (r: bool)
      reads this, other
      ensures IsZero(normalVector) || IsZero(other.normalVector) ==> r
      ensures !IsZero(normalVector) && !IsZero(other.normalVector) ==>
        (r <==> angleTest(normalVector, other.normalVector))
    {
      Vectors.IsParallelTo(normalVector, other.normalVector, angleTest)
    }

    /**
     * `__eq__` as it is meant: two lines are equal when they coincide within
     * the tolerance. Two degenerate lines `0 = c` are compared by their
     * constants. A line with a normal that is not zero, but whose coefficients
     * are each near zero, has no basepoint, so comparing it with a parallel
     * line whose normal is not zero raises.
     */
    function Equals(other: Line, angleTest: (Vector, Vector) -> bool): (r: Result<bool, LineError>)
      reads this, other
      requires Valid() && other.Valid()
      ensures IsZero(normalVector) && IsZero(other.normalVector) ==>
        r == Success(Abs(constantTerm - other.constantTerm) < Tolerance)
      ensures IsZero(normalVector) != IsZero(other.normalVector) ==> r == Success(false)
      ensures !IsZero(normalVector) && !IsZero(other.normalVector) && !IsParallelTo(other, angleTest) ==>
        r == Success(false)
      ensures !IsZero(normalVector) && !IsZero(other.normalVector) && IsParallelTo(other, angleTest) ==>
        (r.Failure? <==> AllNearZero(normalVector) || AllNearZero(other.normalVector))
      ensures r.Failure? ==> r.error == MissingBasepoint
      ensures r.Success? && !IsZero(normalVector) && !IsZero(other.normalVector) && IsParallelTo(other, angleTest) ==>
        r.value == (Abs(constantTerm - Dot(normalVector, other.basepoint.value)) < Tolerance)
    {
      if IsZero(normalVector) then
        if !IsZero(other.normalVector) then Success(false)
        else Success(IsNearZero(constantTerm - other.constantTerm))
      else if IsZero(other.normalVector) then Success(false)
      else if !IsParallelTo(other, angleTest) then Success(false)
      else if basepoint.None? || other.basepoint.None? then Failure(MissingBasepoint)
      else
        var p := basepoint.value;
        var q := other.basepoint.value;
        DotSubRight(normalVector, p, q);
        Success(IsOrthogonalTo(normalVector, Sub(p, q)))
    }

    /**
     * `__eq__` as written: in the degenerate case the difference of the two
     * constants is a plain decimal, which has no `is_near_zero`, so comparing
     * two lines with zero normals raises instead of answering.
     */
    function EqualsAsWritten(other: Line, angleTest: (Vector, Vector) -> bool): (r: Result<bool, LineError>)
      reads this, other
      requires Valid() && other.Valid()
      ensures IsZero(normalVector) && IsZero(other.normalVector) ==> r == Failure(MissingAttribute)
      ensures !(IsZero(normalVector) && IsZero(other.normalVector)) ==> r == Equals(other, angleTest)
    {
      if IsZero(normalVector) && IsZero(other.normalVector) then Failure(MissingAttribute)
      else Equals(other, angleTest)
    }

    /**
     * `intersection_with`: the line itself when the lines coincide, nothing when
     * they are parallel and distinct, and otherwise the point given by Cramer's
     * rule, which lies on both lines.
     */
    function IntersectionWith(other: Line, angleTest: (Vector, Vector) -> bool): (r: Result<Intersection, LineError>)
      reads this, other
      requires Valid() && other.Valid()
      ensures Equals(other, angleTest).Failure? ==> r == Failure(Equals(other, angleTest).error)
      ensures Equals(other, angleTest) == Success(true) ==> r == Success(AllPoints(this))
      ensures Equals(other, angleTest) == Success(false) && IsParallelTo(other, angleTest) ==> r == Success(NoPoint)
      ensures Equals(other, angleTest) == Success(false) && !IsParallelTo(other, angleTest) ==>
        r == SolveByCramer(normalVector, constantTerm, other.normalVector, other.constantTerm)
      ensures Equals(other, angleTest) == Success(false) && !IsParallelTo(other, angleTest) ==>
        (r.Success? <==> Determinant(normalVector, other.normalVector) != 0.0)
      ensures r.Failure? ==> r.error in {MissingBasepoint, ZeroDenominator}
      ensures r.Success? && r.value.Point? ==>
        Contains(r.value.x, r.value.y) && other.Contains(r.value.x, r.value.y)
    {
      match Equals(other, angleTest)
      case Failure(e) => Failure(e)
      case Success(same) =>
        if same then Success(AllPoints(this))
        else if IsParallelTo(other, angleTest) then Success(NoPoint)
        else SolveByCramer(normalVector, constantTerm, other.normalVector, other.constantTerm)
    }

    /**
     * `intersection_with` as written: it begins with the comparison as
     * written, so intersecting two lines with zero normals raises too.
     */
    function IntersectionWithAsWritten(other: Line, angleTest: (Vector, Vector) -> bool): (r: Result<Intersection, LineError>)
      reads this, other
      requires Valid() && other.Valid()
      ensures IsZero(normalVector) && IsZero(other.normalVector) ==> r == Failure(MissingAttribute)
      ensures !(IsZero(normalVector) && IsZero(other.normalVector)) ==> r == IntersectionWith(other, angleTest)
    {
      match EqualsAsWritten(other, angleTest)
      case Failure(e) => Failure(e)
      case Success(same) =>
        if same then Success(AllPoints(this))
        else if IsParallelTo(other, angleTest) then Success(NoPoint)
        else SolveByCramer(normalVector, constantTerm, other.normalVector, other.constantTerm)
    }
  }

  // ---------------------------------------------------------------------------
  // Properties of lines

  /** A normal that passes the zero test has no basepoint. */
  lemma ZeroNormalHasNoBasepoint(n: Vector, c: real)
    requires |n| == Dims && IsZero(n)
    ensures Basepoint(n, c).None?
  {
    IsZeroCoordinates(n);
  }

  /** The basepoint of a line, when there is one, lies on the line. */
  lemma BasepointOnLine(l: Line)
    requires l.Valid() && l.basepoint.Some?
    ensures l.Contains(l.basepoint.value[0], l.basepoint.value[1])
  {
    var p := l.basepoint.value;
    assert p == [p[0], p[1]];
    DotWithPoint(l.normalVector, p[0], p[1]);
  }

  /**
   * The converse fails: a normal whose coefficients are each near zero can
   * still fail the zero test, and such a line has no basepoint to compare.
   */
  lemma NearZeroNormalThatIsNotZero()
    ensures var n := [0.00000000009, 0.00000000009];
      !IsZero(n) && Basepoint(n, 1.0).None?
  {
    var n := [0.00000000009, 0.00000000009];
    DotOfPair(n, n);
  }

  /**
   * Comparing, or intersecting, a line with that near-zero normal and a line
   * with a nonzero normal that the angle test calls parallel fails for want of
   * a basepoint.
   */
  lemma NearZeroNormalComparisonFails(l: Line, m: Line, angleTest: (Vector, Vector) -> bool)
    requires l.Valid() && m.Valid()
    requires l.normalVector == [0.00000000009, 0.00000000009]
    requires !IsZero(m.normalVector) && angleTest(l.normalVector, m.normalVector)
    ensures l.Equals(m, angleTest) == Failure(MissingBasepoint)
    ensures l.IntersectionWith(m, angleTest) == Failure(MissingBasepoint)
  {
    NearZeroNormalThatIsNotZero();
  }

  /** A line with a basepoint, or a degenerate one, equals itself. */
  lemma EqualsReflexive(l: Line, angleTest: (Vector, Vector) -> bool)
    requires l.Valid()
    requires IsZero(l.normalVector) || !AllNearZero(l.normalVector)
    requires IsZero(l.normalVector) || angleTest(l.normalVector, l.normalVector)
    ensures l.Equals(l, angleTest) == Success(true)
  {
  }

  /**
   * Scaling a line's equation by a nonzero factor gives the same line: with
   * normal `k * n` and constant `k * c`, the two lines compare equal.
   */
  lemma ScaledLinesEqual(l: Line, m: Line, k: real, angleTest: (Vector, Vector) -> bool)
    requires l.Valid() && m.Valid()
    requires k != 0.0 && m.normalVector == Scale(l.normalVector, k) && m.constantTerm == k * l.constantTerm
    requires l.basepoint.Some? && m.basepoint.Some?
    requires angleTest(l.normalVector, m.normalVector)
    ensures l.Equals(m, angleTest) == Success(true)
  {
    var n, q := l.normalVector, m.basepoint.value;
    if IsZero(n) {
      ZeroNormalHasNoBasepoint(n, l.constantTerm);
    }
    if IsZero(m.normalVector) {
      ZeroNormalHasNoBasepoint(m.normalVector, m.constantTerm);
    }
    DotScaledNormal(n, q, k, l.constantTerm);
  }

  /** A point on the line `(k n) . p == k c`, with `k` nonzero, is on `n . p == c`. */
  lemma DotScaledNormal(n: Vector, q: Vector, k: real, c: real)
    requires k != 0.0 && Dot(Scale(n, k), q) == k * c
    ensures Dot(n, q) == c
  {
    calc {
      k * Dot(n, q);
    == { DotScaleRight(q, n, k); DotCommutative(q, n); DotCommutative(q, Scale(n, k)); }
      Dot(Scale(n, k), q);
    ==
      k * c;
    }
    MulCancel(Dot(n, q), c, k);
  }

  /** Multiplication by a nonzero factor can be cancelled. */
  lemma MulCancel(x: real, y: real, k: real)
    requires k != 0.0 && k * x == k * y
    ensures x == y
  {
    DivUnique(x, k, k * y);
    DivUnique(y, k, k * y);
  }

  /** The point that `intersection_with` returns is the only point on both lines. */
  lemma IntersectionPointUnique(l: Line, m: Line, angleTest: (Vector, Vector) -> bool, x: real, y: real)
    requires l.Valid() && m.Valid()
    requires l.IntersectionWith(m, angleTest).Success? && l.IntersectionWith(m, angleTest).value.Point?
    requires l.Contains(x, y) && m.Contains(x, y)
    ensures l.IntersectionWith(m, angleTest) == Success(Point(x, y))
  {
    var n1, k1, n2, k2 := l.normalVector, l.constantTerm, m.normalVector, m.constantTerm;
    assert l.IntersectionWith(m, angleTest) == SolveByCramer(n1, k1, n2, k2);
  }

  // ---------------------------------------------------------------------------
  // Worked scenarios

  /**
   * Two lines built without arguments, both `0 = 0`: comparing or
   * intersecting them raises as the source is written; as it is meant they
   * are equal, and their intersection is the whole line.
   */
  method DefaultLinesExample(angleTest: (Vector, Vector) -> bool)
    returns (asWritten: Result<bool, LineError>, intended: Result<bool, LineError>,
             meetAsWritten: Result<Intersection, LineError>, meetIntended: Result<Intersection, LineError>)
    ensures asWritten == Failure(MissingAttribute)
    ensures intended == Success(true)
    ensures meetAsWritten == Failure(MissingAttribute)
    ensures meetIntended.Success? && meetIntended.value.AllPoints?
  {
    var l := new Line(None, None);
    var m := new Line(None, None);
    DotZeros(Zeros(Dims), Dims);
    asWritten := l.EqualsAsWritten(m, angleTest);
    intended := l.Equals(m, angleTest);
    meetAsWritten := l.IntersectionWithAsWritten(m, angleTest);
    meetIntended := l.IntersectionWith(m, angleTest);
  }

  /** `4.046x + 2.836y = 1.21` and `10.115x + 7.09y = 3.025` are the same line. */
  method CoincidentLinesExample(angleTest: (Vector, Vector) -> bool) returns (r: Result<bool, LineError>)
    requires angleTest([4.046, 2.836], [10.115, 7.09])
    ensures r == Success(true)
  {
    var a := new Line(Some([4.046, 2.836]), Some(1.21));
    var b := new Line(Some([10.115, 7.09]), Some(3.025));
    DotOfPair(a.normalVector, a.normalVector);
    DotOfPair(b.normalVector, b.normalVector);
    assert b.normalVector == Scale(a.normalVector, 2.5);
    assert !IsNearZero(a.normalVector[0]) && !IsNearZero(b.normalVector[0]);
    ScaledLinesEqual(a, b, 2.5, angleTest);
    r := a.Equals(b, angleTest);
  }

  /**
   * `7.204x + 3.182y = 8.68` and `8.172x + 4.114y = 9.883` meet in one point,
   * which rounds to `(1.173, 0.073)` at three decimal places.
   */
  method IntersectingLinesExample(angleTest: (Vector, Vector) -> bool) returns (r: Result<Intersection, LineError>)
    requires !angleTest([7.204, 3.182], [8.172, 4.114])
    ensures r.Success? && r.value.Point?
    ensures 1.1725 < r.value.x < 1.1735 && 0.0725 < r.value.y < 0.0735
  {
    var c := new Line(Some([7.204, 3.182]), Some(8.68));
    var d := new Line(Some([8.172, 4.114]), Some(9.883));
    DotOfPair(c.normalVector, c.normalVector);
    DotOfPair(d.normalVector, d.normalVector);
    assert Determinant(c.normalVector, d.normalVector) == 3.633952;
    r := c.IntersectionWith(d, angleTest);
    assert r == SolveByCramer(c.normalVector, 8.68, d.normalVector, 9.883);
    assert r.value.x == 4.261814 / 3.633952 && r.value.y == 0.264172 / 3.633952;
  }

  /** `1.182x + 5.562y = 6.744` and `1.773x + 8.343y = 9.525` are parallel and distinct. */
  method ParallelLinesExample(angleTest: (Vector, Vector) -> bool) returns (r: Result<Intersection, LineError>)
    requires angleTest([1.182, 5.562], [1.773, 8.343])
    ensures r == Success(NoPoint)
  {
    var e := new Line(Some([1.182, 5.562]), Some(6.744));
    var f := new Line(Some([1.773, 8.343]), Some(9.525));
    DotOfPair(e.normalVector, e.normalVector);
    DotOfPair(f.normalVector, f.normalVector);
    assert !IsNearZero(e.normalVector[0]) && !IsNearZero(f.normalVector[0]);
    var q := f.basepoint.value;
    assert q == [9.525 / 1.773, 0.0];
    DotOfPair(e.normalVector, q);
    assert Dot(e.normalVector, q) == 6.35;
    r := e.IntersectionWith(f, angleTest);
  }
}

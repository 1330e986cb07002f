/**
 * Vector algebra of vector.py.
 *
 * A vector is the tuple of its coordinates, which may be ints, floats or
 * decimals; decimals carry 30 significant digits once line.py has set the
 * precision. Every coordinate is modelled as an exact real, so every identity
 * below holds exactly, where the library only approximates it.
 * Binary operations pair coordinates the way Python's `zip` does: the result
 * is as long as the shorter operand.
 */
module Vectors {
  import opened Wrappers

  type Vector = seq<real>

  /** The default `tolerance` (1e-10) of the near-zero, orthogonality and parallelism tests. */
  const Tolerance: real := 0.0000000001

  /** Why an operation raises instead of returning a vector. */
  datatype VectorError =
    | OperandNotNumber  // `__mul__` given a Vector or another non-numeric operand
    | DivisionByZero    // a coordinate divided by a zero scalar
    | IndexOutOfRange   // `cross` indexing past the end of a short vector

  /** The right-hand operand of `*`: a number, another vector, or anything else. */
  datatype Operand = Number(k: real) | VectorOperand(v: Vector) | NonNumeric

  function Abs(x: real): real { if x < 0.0 then -x else x }

  function Min(m: nat, n: nat): nat { if m <= n then m else n }

  /** The vector of `n` zero coordinates. */
  function Zeros(n: nat): (r: Vector)
    ensures |r| == n
    ensures forall i :: 0 <= i < n ==> r[i] == 0.0
  {
    seq(n, _ => 0.0)
  }

  // ---------------------------------------------------------------------------
  // Arithmetic operators

  /** `__add__`: coordinate-wise sum over the pairs that `zip` produces. */
  function Add(a: Vector, b: Vector): (r: Vector)
    ensures |r| == Min(|a|, |b|)
    ensures forall i :: 0 <= i < |r| ==> r[i] == a[i] + b[i]
  {
    seq(Min(|a|, |b|), i requires 0 <= i < Min(|a|, |b|) => a[i] + b[i])
  }

  /** `__sub__`: coordinate-wise difference over the pairs that `zip` produces. */
  function Sub(a: Vector, b: Vector): (r: Vector)
    ensures |r| == Min(|a|, |b|)
    ensures forall i :: 0 <= i < |r| ==> r[i] == a[i] - b[i]
  {
    seq(Min(|a|, |b|), i requires 0 <= i < Min(|a|, |b|) => a[i] - b[i])
  }

  /** Multiplication of every coordinate by a number (the numeric branch of `__mul__`). */
  function Scale(v: Vector, k: real): (r: Vector)
    ensures |r| == |v|
    ensures forall i :: 0 <= i < |v| ==> r[i] == v[i] * k
  {
    seq(|v|, i requires 0 <= i < |v| => v[i] * k)
  }

  /** `__mul__`: scaling by a number; a vector or non-numeric operand is refused. */
  function Mul(v: Vector, m: Operand): (r: Result<Vector, VectorError>)
    ensures r.Success? <==> m.Number?
    ensures r.Failure? ==> r.error == OperandNotNumber
    ensures m.Number? ==> |r.value| == |v| && forall i :: 0 <= i < |v| ==> r.value[i] == v[i] * m.k
  {
    match m
    case Number(k) => Success(Scale(v, k))
    case _ => Failure(OperandNotNumber)
  }

  /** `__rmul__`, which the source binds to `__mul__`: `k * v` scales every coordinate by `k`. */
  function RMul(m: Operand, v: Vector): (r: Result<Vector, VectorError>)
    ensures r.Success? <==> m.Number?
    ensures r.Failure? ==> r.error == OperandNotNumber
    ensures m.Number? ==> |r.value| == |v| && forall i :: 0 <= i < |v| ==> r.value[i] == m.k * v[i]
  {
    Mul(v, m)
  }

  /**
   * `__truediv__`: every coordinate divided by `k`. Dividing by zero raises, but
   * only when there is a coordinate to divide.
   */
  function Div(v: Vector, k: real): (r: Result<Vector, VectorError>)
    ensures r.Failure? <==> (k == 0.0 && |v| > 0)
    ensures r.Failure? ==> r.error == DivisionByZero
    ensures r.Success? ==> |r.value| == |v| && forall i :: 0 <= i < |v| ==> r.value[i] * k == v[i]
  {
    if k == 0.0 && |v| > 0 then Failure(DivisionByZero)
    else Success(seq(|v|, i requires 0 <= i < |v| => v[i] / k))
  }

  /** `__matmul__`: the dot product, the sum of the products of the `zip` pairs. */
  function Dot(a: Vector, b: Vector): real
    decreases |a|
  {
    if |a| == 0 || |b| == 0 then 0.0 else a[0] * b[0] + Dot(a[1..], b[1..])
  }

  // ---------------------------------------------------------------------------
  // Predicates and derived vectors

  /** `m` is the magnitude of `v`: the non-negative square root of `v @ v`. */
  ghost predicate IsMagnitude(v: Vector, m: real)
  {
    m >= 0.0 && m * m == Dot(v, v)
  }

  /**
   * `is_zero`: the magnitude is below the tolerance, stated on its square.
   * A vector of zeros passes, and a vector that passes has every coordinate
   * within the tolerance of zero.
   */
  function IsZero(v: Vector): (r: bool)
    ensures v == Zeros(|v|) ==> r
    ensures r ==> forall i :: 0 <= i < |v| ==> Abs(v[i]) < Tolerance
  {
    if Dot(v, v) < Tolerance * Tolerance then
      IsZeroCoordinates(v);
      true
    else
      DotZeros(v, |v|);
      false
  }

  /**
   * `is_orthogonal_to`: the dot product is within the tolerance of zero.
   * Orthogonality is symmetric, and every vector is orthogonal to a vector of zeros.
   */
  function IsOrthogonalTo(a: Vector, b: Vector): (r: bool)
    ensures r <==> Abs(Dot(b, a)) < Tolerance
    ensures b == Zeros(|b|) ==> r
  {
    DotCommutative(a, b);
    DotZeros(a, |b|);
    Abs(Dot(a, b)) < Tolerance
  }

  /**
   * `is_parallel_to`. A zero vector is parallel to everything; otherwise the
   * source compares `acos` of the normalized dot product with 0 and pi, which
   * `angleTest` stands for.
   */
  function IsParallelTo(a: Vector, b: Vector, angleTest: (Vector, Vector) -> bool): (r: bool)
    ensures IsZero(a) || IsZero(b) ==> r
    ensures !IsZero(a) && !IsZero(b) ==> (r <==> angleTest(a, b))
  {
    IsZero(a) || IsZero(b) || angleTest(a, b)
  }

  /**
   * `normalize`, given the magnitude `mag` of `v`: the zero vector when the
   * magnitude is zero, otherwise the vector of unit length in the direction of `v`.
   */
  function Normalize(v: Vector, mag: real): (r: Vector)
    requires IsMagnitude(v, mag)
    ensures |r| == |v|
    ensures mag == 0.0 ==> r == Zeros(|v|)
    ensures mag != 0.0 ==> Dot(r, r) == 1.0 && forall i :: 0 <= i < |v| ==> r[i] * mag == v[i]
  {
    if mag == 0.0 then Scale(v, 0.0)
    else
      var r := Scale(v, 1.0 / mag);
      DotScaleBoth(v, v, 1.0 / mag, 1.0 / mag);
      assert Dot(r, r) == (1.0 / mag) * (1.0 / mag) * (mag * mag);
      r
  }

  /**
   * `component_parallel_to`: the projection of `v` on `basis`, written without
   * the square root as `(v @ basis) / (basis @ basis) * basis`; when `basis`
   * is zero, `normalize` yields `basis * 0` and so does this.
   */
  function ComponentParallelTo(v: Vector, basis: Vector): (r: Vector)
    ensures |r| == |basis|
    ensures Dot(basis, basis) == 0.0 ==> r == Zeros(|basis|)
  {
    var bb := Dot(basis, basis);
    if bb == 0.0 then Scale(basis, 0.0) else Scale(basis, Dot(v, basis) / bb)
  }

  /** `component_orthogonal_to`: what is left of `v` after its projection on `basis`. */
  function ComponentOrthogonalTo(v: Vector, basis: Vector): (r: Vector)
    ensures |r| == Min(|v|, |basis|)
  {
    Sub(v, ComponentParallelTo(v, basis))
  }

  /**
   * `cross`: the 3D cross product, read from the first three coordinates of
   * each operand; a shorter operand makes the indexing raise.
   */
  function Cross(a: Vector, b: Vector): (r: Result<Vector, VectorError>)
    ensures r.Success? <==> |a| >= 3 && |b| >= 3
    ensures r.Failure? ==> r.error == IndexOutOfRange
    ensures r.Success? ==> |r.value| == 3 && Dot(r.value, a) == 0.0 && Dot(r.value, b) == 0.0
  {
    if |a| < 3 || |b| < 3 then Failure(IndexOutOfRange)
    else
      var c := [a[1] * b[2] - b[1] * a[2],
                -(a[0] * b[2] - b[0] * a[2]),
                a[0] * b[1] - b[0] * a[1]];
      DotOfTriple(c, a);
      DotOfTriple(c, b);
      Success(c)
  }

  // ---------------------------------------------------------------------------
  // Laws of the operators

  /** Addition commutes. */
  lemma AddCommutative(a: Vector, b: Vector)
    ensures Add(a, b) == Add(b, a)
  {
  }

  /** `a - a` is the zero vector of the same length (vector.py:121). */
  lemma SubSelfIsZero(a: Vector)
    ensures Sub(a, a) == Zeros(|a|)
  {
  }

  /** Subtracting and adding back `b` returns `a` when `b` is at least as long. */
  lemma SubThenAdd(a: Vector, b: Vector)
    requires |a| <= |b|
    ensures Add(Sub(a, b), b) == a
  {
  }

  /** Scaling by a nonzero number is undone by dividing by it, and the other way round. */
  lemma ScaleDivRoundTrip(v: Vector, k: real)
    requires k != 0.0
    ensures Div(Scale(v, k), k) == Success(v)
    ensures Scale(Div(v, k).value, k) == v
  {
    var d := Div(Scale(v, k), k).value;
    forall i | 0 <= i < |v| ensures d[i] == v[i] {
      assert d[i] == (v[i] * k) / k;
    }
    assert d == v;
    var e := Scale(Div(v, k).value, k);
    forall i | 0 <= i < |v| ensures e[i] == v[i] {
      assert e[i] == (v[i] / k) * k;
    }
    assert e == v;
  }

  /** Worked examples of the self-test: `[1,2,3] * 2`, `[1,2,3] / 2` and `[1,2,3] + [1,2,3]`. */
  lemma ArithmeticExamples()
    ensures Mul([1.0, 2.0, 3.0], Number(2.0)) == Success([2.0, 4.0, 6.0])
    ensures Div([1.0, 2.0, 3.0], 2.0) == Success([0.5, 1.0, 1.5])
    ensures Add([1.0, 2.0, 3.0], [1.0, 2.0, 3.0]) == [2.0, 4.0, 6.0]
  {
    assert Scale([1.0, 2.0, 3.0], 2.0) == [2.0, 4.0, 6.0];
    assert Div([1.0, 2.0, 3.0], 2.0).value == [0.5, 1.0, 1.5];
  }

  /** The dot product of `[1,2,-1]` and `[3,1,0]` is 5 (vector.py:129). */
  lemma DotExample()
    ensures Dot([1.0, 2.0, -1.0], [3.0, 1.0, 0.0]) == 5.0
  {
    assert [1.0, 2.0, -1.0][1..] == [2.0, -1.0];
    assert [3.0, 1.0, 0.0][1..] == [1.0, 0.0];
    assert [2.0, -1.0][1..] == [-1.0];
    assert [1.0, 0.0][1..] == [0.0];
  }

  /**
   * The orthogonality answers of the self-test (vector.py:158-167): only the
   * third pair, and the pair with a zero vector, are orthogonal. The dot product
   * works on the float coordinates of these pairs, unlike the magnitude.
   */
  lemma OrthogonalityExamples()
    ensures !IsOrthogonalTo([-7.579, -7.88], [22.737, 23.64])
    ensures !IsOrthogonalTo([-2.029, 9.97, 4.172], [-9.231, -6.639, -7.245])
    ensures IsOrthogonalTo([-2.328, -7.284, -1.214], [-1.821, 1.072, -2.94])
    ensures IsOrthogonalTo([2.118, 4.827], [0.0, 0.0])
  {
    DotOfPair([-7.579, -7.88], [22.737, 23.64]);
    DotOfTriple([-2.029, 9.97, 4.172], [-9.231, -6.639, -7.245]);
    DotOfTriple([-2.328, -7.284, -1.214], [-1.821, 1.072, -2.94]);
    DotOfPair([2.118, 4.827], [0.0, 0.0]);
  }

  /** The dot product commutes. */
  lemma {:induction false} DotCommutative(a: Vector, b: Vector)
    ensures Dot(a, b) == Dot(b, a)
    decreases |a|
  {
    if |a| > 0 && |b| > 0 {
      DotCommutative(a[1..], b[1..]);
    }
  }

  /** Dot product with an explicitly three-coordinate vector. */
  lemma DotOfTriple(c: Vector, a: Vector)
    requires |c| == 3 && |a| >= 3
    ensures Dot(c, a) == c[0] * a[0] + c[1] * a[1] + c[2] * a[2]
  {
    assert Dot(c[2..], a[2..]) == c[2] * a[2] + Dot(c[3..], a[3..]);
    assert Dot(c[1..], a[1..]) == c[1] * a[1] + Dot(c[2..], a[2..]);
  }

  /** Dot product of two coordinate pairs. */
  lemma DotOfPair(a: Vector, b: Vector)
    ensures |a| == 2 && |b| == 2 ==> Dot(a, b) == a[0] * b[0] + a[1] * b[1]
  {
    if |a| == 2 && |b| == 2 {
      assert Dot(a[1..][1..], b[1..][1..]) == 0.0;
    }
  }

  /** Scaling either operand scales the dot product. */
  lemma DotScaleBoth(a: Vector, b: Vector, s: real, t: real)
    ensures Dot(Scale(a, s), Scale(b, t)) == s * t * Dot(a, b)
    ensures Dot(a, Scale(b, t)) == t * Dot(a, b)
    ensures Dot(Scale(a, s), b) == s * Dot(a, b)
  {
    var d := Dot(a, b);
    DotScaleRight(a, b, t);
    DotScaleLeft(a, b, s);
    calc {
      Dot(Scale(a, s), Scale(b, t));
    == { DotScaleRight(Scale(a, s), b, t); }
      t * Dot(Scale(a, s), b);
    ==
      t * (s * d);
    ==
      s * t * d;
    }
  }

  /** Scaling the first operand scales the dot product. */
  lemma DotScaleLeft(a: Vector, b: Vector, s: real)
    ensures Dot(Scale(a, s), b) == s * Dot(a, b)
  {
    calc {
      Dot(Scale(a, s), b);
    == { DotCommutative(Scale(a, s), b); }
      Dot(b, Scale(a, s));
    == { DotScaleRight(b, a, s); }
      s * Dot(b, a);
    == { DotCommutative(a, b); }
      s * Dot(a, b);
    }
  }

  /** Scaling the second operand scales the dot product. */
  lemma {:induction false} DotScaleRight(a: Vector, b: Vector, t: real)
    ensures Dot(a, Scale(b, t)) == t * Dot(a, b)
    decreases |a|
  {
    if |a| > 0 && |b| > 0 {
      DotScaleRight(a[1..], b[1..], t);
      ScaleTail(b, t);
      var rest := Dot(a[1..], b[1..]);
      assert Dot(a, Scale(b, t)) == a[0] * (b[0] * t) + t * rest;
      assert a[0] * (b[0] * t) + t * rest == t * (a[0] * b[0] + rest);
      assert Dot(a, b) == a[0] * b[0] + rest;
    } else {
      assert Dot(a, Scale(b, t)) == 0.0 == Dot(a, b);
    }
  }

  /** Dropping the first coordinate commutes with scaling. */
  lemma ScaleTail(a: Vector, s: real)
    requires |a| > 0
    ensures Scale(a, s)[1..] == Scale(a[1..], s)
  {
    assert forall i :: 0 <= i < |a| - 1 ==> Scale(a, s)[1..][i] == a[i + 1] * s == Scale(a[1..], s)[i];
  }

  /** The dot product distributes over a difference in its second operand. */
  lemma {:induction false} DotSubRight(a: Vector, b: Vector, c: Vector)
    requires |b| == |c| || (|a| <= |b| && |a| <= |c|)
    ensures Dot(a, Sub(b, c)) == Dot(a, b) - Dot(a, c)
    decreases |a|
  {
    if |a| > 0 && |b| > 0 {
      assert Sub(b, c)[1..] == Sub(b[1..], c[1..]);
      calc {
        Dot(a, Sub(b, c));
      ==
        a[0] * (b[0] - c[0]) + Dot(a[1..], Sub(b[1..], c[1..]));
      == { DotSubRight(a[1..], b[1..], c[1..]); }
        a[0] * (b[0] - c[0]) + (Dot(a[1..], b[1..]) - Dot(a[1..], c[1..]));
      ==
        (a[0] * b[0] + Dot(a[1..], b[1..])) - (a[0] * c[0] + Dot(a[1..], c[1..]));
      ==
        Dot(a, b) - Dot(a, c);
      }
    } else {
      assert Dot(a, Sub(b, c)) == 0.0 == Dot(a, b) == Dot(a, c);
    }
  }

  /** The dot product with a zero vector is zero. */
  lemma {:induction false} DotZeros(v: Vector, n: nat)
    ensures Dot(v, Zeros(n)) == 0.0 && Dot(Zeros(n), v) == 0.0
    decreases n
  {
    if n > 0 && |v| > 0 {
      DotZeros(v[1..], n - 1);
      assert Zeros(n)[1..] == Zeros(n - 1);
    }
  }

  /** Every squared coordinate is bounded by the squared magnitude. */
  lemma {:induction false} SquareBelowDotSelf(v: Vector, i: nat)
    requires i < |v|
    ensures 0.0 <= v[i] * v[i] <= Dot(v, v)
    ensures 0.0 <= Dot(v, v)
    decreases |v|
  {
    if i == 0 {
      if |v| > 1 {
        SquareBelowDotSelf(v[1..], 0);
      }
    } else {
      SquareBelowDotSelf(v[1..], i - 1);
    }
    assert v[0] * v[0] >= 0.0;
  }

  // ---------------------------------------------------------------------------
  // Facts of real arithmetic that the solver does not find unaided

  lemma MulPositive(a: real, b: real)
    requires a > 0.0 && b > 0.0
    ensures a * b > 0.0
  {
  }

  /** Only zero squares to zero. */
  lemma SquarePositive(x: real)
    requires x != 0.0
    ensures x * x > 0.0
  {
    if x > 0.0 {
      MulPositive(x, x);
    } else {
      MulPositive(-x, -x);
      assert x * x == (-x) * (-x);
    }
  }

  lemma SquareZero(x: real)
    requires x * x <= 0.0
    ensures x == 0.0
  {
    if x != 0.0 {
      SquarePositive(x);
      calc {
        0.0;
      < x * x;
      <= 0.0;
      }
    }
  }

  /** Squaring preserves the order of non-negative numbers. */
  lemma SquareMonotone(x: real, y: real)
    requires 0.0 <= x && 0.0 <= y
    ensures x < y ==> x * x < y * y
    ensures y <= x ==> y * y <= x * x
  {
    if x < y {
      calc {
        x * x;
      <= x * y;
      < y * y;
      }
    } else {
      calc {
        y * y;
      <= y * x;
      <= x * x;
      }
    }
  }

  /** Dividing by `y` is the unique solution of multiplying by it. */
  lemma DivUnique(x: real, y: real, z: real)
    requires y != 0.0 && x * y == z
    ensures x == z / y
  {
  }

  /** The zero test through the magnitude: `magnitude < tolerance` iff the squared form holds. */
  lemma IsZeroByMagnitude(v: Vector, m: real)
    requires IsMagnitude(v, m)
    ensures IsZero(v) <==> m < Tolerance
  {
    SquareMonotone(m, Tolerance);
  }

  /** A vector that passes the zero test has every coordinate within the tolerance of zero. */
  lemma IsZeroCoordinates(v: Vector)
    requires Dot(v, v) < Tolerance * Tolerance
    ensures forall i :: 0 <= i < |v| ==> Abs(v[i]) < Tolerance
  {
    forall i | 0 <= i < |v| ensures Abs(v[i]) < Tolerance {
      SquareBelowDotSelf(v, i);
      var x := Abs(v[i]);
      assert x * x == v[i] * v[i];
      SquareMonotone(x, Tolerance);
    }
  }

  /**
   * The zero vector is orthogonal and parallel to every vector, in either order.
   * This is the answer the self-test expects for its pair with `[0, 0]`
   * (vector.py:162); there the float coordinates of `[2.118, 4.827]` make the
   * magnitude, and so the parallelism test, raise before the answer is compared.
   */
  lemma ZeroVectorPolicy(v: Vector, n: nat, angleTest: (Vector, Vector) -> bool)
    ensures IsOrthogonalTo(v, Zeros(n)) && IsOrthogonalTo(Zeros(n), v)
    ensures IsParallelTo(v, Zeros(n), angleTest) && IsParallelTo(Zeros(n), v, angleTest)
  {
    DotZeros(v, n);
    DotZeros(Zeros(n), n);
  }

  /**
   * The square-root-free `ComponentParallelTo` is the source's
   * `(v @ normalize(basis)) * normalize(basis)`, whatever the magnitude.
   */
  lemma ComponentParallelByNormalize(v: Vector, basis: Vector, m: real)
    requires IsMagnitude(basis, m)
    ensures ComponentParallelTo(v, basis) == Scale(Normalize(basis, m), Dot(v, Normalize(basis, m)))
  {
    var n := Normalize(basis, m);
    var bb := Dot(basis, basis);
    var lhs := ComponentParallelTo(v, basis);
    var rhs := Scale(n, Dot(v, n));
    if m == 0.0 {
      DotZeros(v, |basis|);
    } else {
      var q := 1.0 / m;
      var d := Dot(v, basis);
      assert n == Scale(basis, q);
      DotScaleRight(v, basis, q);
      assert Dot(v, n) == q * d;
      assert q * m == 1.0;
      assert (d * (q * q)) * bb == d * ((q * m) * (q * m));
      SquarePositive(m);
      DivUnique(d * (q * q), bb, d);
      forall i | 0 <= i < |basis| ensures lhs[i] == rhs[i] {
        assert rhs[i] == (basis[i] * q) * (q * d);
      }
    }
  }

  /** The parallel and orthogonal components add back up to `v` (when `basis` is not shorter). */
  lemma ProjectionDecomposition(v: Vector, basis: Vector)
    requires |v| <= |basis|
    ensures Add(ComponentParallelTo(v, basis), ComponentOrthogonalTo(v, basis)) == v
  {
    var p := ComponentParallelTo(v, basis);
    var s := Add(p, ComponentOrthogonalTo(v, basis));
    assert forall i :: 0 <= i < |v| ==> s[i] == v[i];
  }

  /** The orthogonal component is exactly orthogonal to the basis. */
  lemma OrthogonalComponentIsOrthogonal(v: Vector, basis: Vector)
    requires |basis| <= |v|
    ensures Dot(basis, ComponentOrthogonalTo(v, basis)) == 0.0
    ensures IsOrthogonalTo(basis, ComponentOrthogonalTo(v, basis))
  {
    var p := ComponentParallelTo(v, basis);
    calc {
      Dot(basis, ComponentOrthogonalTo(v, basis));
    == { DotSubRight(basis, v, p); }
      Dot(basis, v) - Dot(basis, p);
    == { DotWithParallelComponent(v, basis); }
      0.0;
    }
  }

  /** The projection of `v` on `basis` has the same dot product with `basis` as `v` has. */
  lemma DotWithParallelComponent(v: Vector, basis: Vector)
    ensures Dot(basis, ComponentParallelTo(v, basis)) == Dot(basis, v)
  {
    var bb := Dot(basis, basis);
    var d := Dot(v, basis);
    DotCommutative(basis, v);
    if bb == 0.0 {
      DotSelfZero(basis);
      DotZeros(v, |basis|);
      DotZeros(basis, |basis|);
    } else {
      calc {
        Dot(basis, ComponentParallelTo(v, basis));
      == { DotScaleRight(basis, basis, d / bb); }
        (d / bb) * bb;
      ==
        d;
      }
    }
  }

  /** Only the all-zero vector has a zero squared magnitude. */
  lemma DotSelfZero(v: Vector)
    requires Dot(v, v) == 0.0
    ensures v == Zeros(|v|)
  {
    forall i | 0 <= i < |v| ensures v[i] == 0.0 {
      SquareBelowDotSelf(v, i);
      SquareZero(v[i]);
    }
  }

  /** The cross product is anti-symmetric. */
  lemma CrossAntiSymmetric(a: Vector, b: Vector)
    requires |a| >= 3 && |b| >= 3
    ensures Cross(a, b).value == Scale(Cross(b, a).value, -1.0)
  {
  }

  /**
   * The Lagrange identity: the squared length of `a x b` is
   * `|a|^2 |b|^2 - (a . b)^2`, the squared area of the parallelogram that
   * `a` and `b` span.
   */
  lemma CrossLagrange(a: Vector, b: Vector)
    requires |a| == 3 && |b| == 3
    ensures Dot(Cross(a, b).value, Cross(a, b).value) == Dot(a, a) * Dot(b, b) - Dot(a, b) * Dot(a, b)
  {
    var c := Cross(a, b).value;
    assert c[0] == a[1] * b[2] - b[1] * a[2];
    assert c[1] == -(a[0] * b[2] - b[0] * a[2]);
    assert c[2] == a[0] * b[1] - b[0] * a[1];
    CrossLagrangeCoordinates(a, b, c);
    DotOfTriple(c, c);
  }

  /** `CrossLagrange` with the squared length of the product written out by coordinates. */
  lemma CrossLagrangeCoordinates(a: Vector, b: Vector, c: Vector)
    requires |a| == 3 && |b| == 3 && |c| == 3
    requires c[0] == a[1] * b[2] - b[1] * a[2]
    requires c[1] == -(a[0] * b[2] - b[0] * a[2])
    requires c[2] == a[0] * b[1] - b[0] * a[1]
    ensures c[0] * c[0] + c[1] * c[1] + c[2] * c[2] == Dot(a, a) * Dot(b, b) - Dot(a, b) * Dot(a, b)
  {
    DotOfTriple(a, a);
    DotOfTriple(b, b);
    DotOfTriple(a, b);
    LagrangeIdentity(a[0], a[1], a[2], b[0], b[1], b[2], c[0], c[1], c[2], Dot(a, a), Dot(b, b), Dot(a, b));
  }

  /**
   * The Lagrange identity on coordinates: `u` is the cross product of `x` and
   * `y`, and `sx`, `sy`, `sxy` are their squared lengths and dot product.
   */
  lemma LagrangeIdentity(x0: real, x1: real, x2: real, y0: real, y1: real, y2: real,
                         u0: real, u1: real, u2: real, sx: real, sy: real, sxy: real)
    requires u0 == x1 * y2 - y1 * x2 && u1 == -(x0 * y2 - y0 * x2) && u2 == x0 * y1 - y0 * x1
    requires sx == x0 * x0 + x1 * x1 + x2 * x2 && sy == y0 * y0 + y1 * y1 + y2 * y2
    requires sxy == x0 * y0 + x1 * y1 + x2 * y2
    ensures u0 * u0 + u1 * u1 + u2 * u2 == sx * sy - sxy * sxy
  {
  }

  /** The product is right-handed: the first unit vector crossed with the second is the third. */
  lemma CrossUnitVectors()
    ensures Cross([1.0, 0.0, 0.0], [0.0, 1.0, 0.0]) == Success([0.0, 0.0, 1.0])
    ensures Cross([0.0, 1.0, 0.0], [0.0, 0.0, 1.0]) == Success([1.0, 0.0, 0.0])
    ensures Cross([0.0, 0.0, 1.0], [1.0, 0.0, 0.0]) == Success([0.0, 1.0, 0.0])
  {
  }

  /** A vector crossed with itself is the zero vector. */
  lemma CrossSelfIsZero(a: Vector)
    requires |a| >= 3
    ensures Cross(a, a) == Success(Zeros(3))
  {
    assert Zeros(3) == [0.0, 0.0, 0.0];
  }
}

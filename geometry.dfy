/** The three-dimensional part of vector.go: the cross product, rotation
    about a coordinate axis and the angle between two vectors. */
module Geometry {
  import opened Numerics
  import opened Vectors

  // ---------------------------------------------------------------------
  // Cross

  /** Cross(v1, v2): ErrNot3Dimensional unless both have exactly three
      components, otherwise the right-handed cross product. */
  function Cross(v: seq<real>, w: seq<real>): Result<seq<real>>
  {
    if |v| != 3 || |w| != 3 then Failure(Not3Dimensional)
    else Success([
      v[YAxis.Index()] * w[ZAxis.Index()] - w[YAxis.Index()] * v[ZAxis.Index()],
      v[ZAxis.Index()] * w[XAxis.Index()] - w[ZAxis.Index()] * v[XAxis.Index()],
      v[XAxis.Index()] * w[YAxis.Index()] - w[XAxis.Index()] * v[YAxis.Index()]])
  }

  /** Cross fails, with ErrNot3Dimensional, exactly when an argument is not
      3-dimensional; when it succeeds the result is 3-dimensional. */
  lemma CrossDefinedOnlyInThreeDimensions(v: seq<real>, w: seq<real>)
    ensures Cross(v, w).Failure? <==> |v| != 3 || |w| != 3
    ensures Cross(v, w).Failure? ==> Cross(v, w).error == Not3Dimensional
    ensures Cross(v, w).Success? ==> |Cross(v, w).value| == 3
  {
  }

  /** Swapping the arguments negates the cross product. */
  lemma CrossAntisymmetric(v: seq<real>, w: seq<real>)
    requires |v| == 3 && |w| == 3
    ensures Cross(w, v).value == Scale(Cross(v, w).value, -1.0)
  {
  }

  /** Dot of two 3-dimensional vectors, written out. */
  lemma DotOfThreeDimensions(a: seq<real>, b: seq<real>)
    requires |a| == 3 && |b| == 3
    ensures Dot(a, b) == a[0] * b[0] + a[1] * b[1] + a[2] * b[2]
  {
    assert Padded(a, 3) == a;
    assert Padded(b, 3) == b;
    assert a[..2][..1] == a[..1] && b[..2][..1] == b[..1];
    assert a[..1][..0] == [] && b[..1][..0] == [];
    assert SumProducts(a[..1], b[..1]) == a[0] * b[0];
    assert SumProducts(a[..2], b[..2]) == a[0] * b[0] + a[1] * b[1];
  }

  /** The cross product is perpendicular to both of its arguments. */
  lemma CrossPerpendicular(v: seq<real>, w: seq<real>)
    requires |v| == 3 && |w| == 3
    ensures Dot(Cross(v, w).value, v) == 0.0
    ensures Dot(Cross(v, w).value, w) == 0.0
  {
    var c := Cross(v, w).value;
    DotOfThreeDimensions(c, v);
    DotOfThreeDimensions(c, w);
  }

  lemma CrossExample()
    ensures Cross([1.0, 0.0, 0.0], [0.0, 1.0, 0.0]) == Success([0.0, 0.0, 1.0])
    ensures Cross([1.0, 0.0], [0.0, 1.0]) == Failure(Not3Dimensional)
  {
  }

  // ---------------------------------------------------------------------
  // Rotate

  /** The axis Rotate uses: the first one passed, Z when none is. */
  function FirstAxis(axes: seq<Axis>): Axis
  {
    if |axes| > 0 then axes[0] else ZAxis
  }

  /** The zero extension Rotate applies before turning: a 1-dimensional
      vector turned about X or Y gains two zeros, one shorter than 2 turned
      about Z or a 2-dimensional one turned about X or Y gains one. */
  function Extend(v: seq<real>, axis: Axis): (e: seq<real>)
    requires |v| > 0
    ensures |e| == Max(|v|, if axis == ZAxis then 2 else 3)
    ensures e == Padded(v, |e|)
  {
    var dim := |v|;
    var e1 := if dim == 1 && axis != ZAxis then v + [0.0, 0.0] else v;
    if (dim < 2 && axis == ZAxis) || (dim == 2 && axis != ZAxis) then e1 + [0.0] else e1
  }

  /** The plane rotation of the two coordinates other than `axis`. */
  function Turn(e: seq<real>, axis: Axis, cos: real, sin: real): (t: seq<real>)
    requires 2 <= |e| && (axis != ZAxis ==> 3 <= |e|)
    ensures |t| == |e|
    ensures axis.Index() < |e| ==> t[axis.Index()] == e[axis.Index()]
    ensures forall i :: 3 <= i < |e| ==> t[i] == e[i]
  {
    var x, y := e[XAxis.Index()], e[YAxis.Index()];
    match axis
    case XAxis =>
      var z := e[ZAxis.Index()];
      e[YAxis.Index() := y * cos - z * sin][ZAxis.Index() := y * sin + z * cos]
    case YAxis =>
      var z := e[ZAxis.Index()];
      e[XAxis.Index() := x * cos + z * sin][ZAxis.Index() := -x * sin + z * cos]
    case ZAxis =>
      e[XAxis.Index() := x * cos - y * sin][YAxis.Index() := x * sin + y * cos]
  }

  /** Rotate(v, angle, axes...): an empty vector is returned unchanged;
      otherwise v is zero-extended as the axis needs, turned by `angle` about
      the axis, and cut to three components. */
  function Rotate(v: seq<real>, angle: real, axes: seq<Axis>, m: Math): seq<real>
  {
    if |v| == 0 then v
    else
      var axis := FirstAxis(axes);
      var t := Turn(Extend(v, axis), axis, m.cos(angle), m.sin(angle));
      if |v| > 3 then t[..3] else t
  }

  /** The shape of Rotate's result: the empty vector stays empty; otherwise
      the length is min(3, max(len, 2)) about Z and min(3, max(len, 3))
      about X or Y. */
  lemma RotateShape(v: seq<real>, angle: real, axes: seq<Axis>, m: Math)
    ensures v == [] ==> Rotate(v, angle, axes, m) == []
    ensures v != [] && FirstAxis(axes) == ZAxis ==>
      |Rotate(v, angle, axes, m)| == Min(3, Max(|v|, 2))
    ensures v != [] && FirstAxis(axes) != ZAxis ==>
      |Rotate(v, angle, axes, m)| == Min(3, Max(|v|, 3))
  {
  }

  /** Only the first axis passed counts, and passing none means Z. */
  lemma RotateUsesFirstAxis(v: seq<real>, angle: real, axes: seq<Axis>, m: Math)
    ensures Rotate(v, angle, axes, m) == Rotate(v, angle, [FirstAxis(axes)], m)
    ensures Rotate(v, angle, [], m) == Rotate(v, angle, [ZAxis], m)
  {
  }

  /** The coordinate on the rotation axis is not modified (a missing one
      reads as the zero the extension put there). */
  lemma RotateKeepsAxisCoordinate(v: seq<real>, angle: real, axes: seq<Axis>, m: Math)
    requires v != []
    ensures var i := FirstAxis(axes).Index();
      var r := Rotate(v, angle, axes, m);
      i < |r| ==> r[i] == At(v, i)
  {
  }

  /** The components that survive are exactly the first three, zero-padded. */
  function Kept(v: seq<real>, n: nat): (k: seq<real>)
    requires n <= 3
  {
    if |v| >= n then v[..n] else Padded(v, n)
  }

  /** Turning by an angle whose cosine is 1 and sine is 0 only extends and
      cuts the vector. */
  lemma RotateByZero(v: seq<real>, angle: real, axes: seq<Axis>, m: Math)
    requires m.cos(angle) == 1.0 && m.sin(angle) == 0.0
    ensures var r := Rotate(v, angle, axes, m);
      |r| <= 3 && r == Kept(v, |r|)
  {
  }

  /** A rotation whose cosine and sine lie on the unit circle keeps the sum
      of squares of the components that survive it. */
  lemma RotatePreservesSumOfSquares(v: seq<real>, angle: real, axes: seq<Axis>, m: Math)
    requires m.OnUnitCircle(angle)
    ensures var r := Rotate(v, angle, axes, m);
      var k := v[..Min(|v|, 3)];
      Dot(r, r) == Dot(k, k)
  {
    var k := v[..Min(|v|, 3)];
    if v != [] {
      var axis := FirstAxis(axes);
      var c, s := m.cos(angle), m.sin(angle);
      var e := Extend(v, axis);
      if |v| > 3 {
        assert e == v;
        var t, tk := Turn(e, axis, c, s), Turn(k, axis, c, s);
        assert |tk| == 3;
        forall i | 0 <= i < 3 ensures t[i] == tk[i] {
          assert e[0] == k[0] && e[1] == k[1] && e[2] == k[2];
        }
        assert t[..3] == tk;
        TurnKeepsSumOfSquares(k, axis, c, s);
      } else {
        assert k == v;
        TurnKeepsSumOfSquares(e, axis, c, s);
        DotWithZeroTail(v, |e|);
      }
    } else {
      assert k == [];
    }
  }

  lemma TurnKeepsSumOfSquares(e: seq<real>, axis: Axis, c: real, s: real)
    requires |e| == (if axis == ZAxis then 2 else 3) || |e| == 3
    requires c * c + s * s == 1.0
    ensures var t := Turn(e, axis, c, s); Dot(t, t) == Dot(e, e)
  {
    if |e| == 2 {
      TurnInThePlane(e, c, s);
    } else {
      match axis
      case XAxis => TurnAboutXKeepsSumOfSquares(e, c, s);
      case YAxis => TurnAboutYKeepsSumOfSquares(e, c, s);
      case ZAxis => TurnAboutZKeepsSumOfSquares(e, c, s);
    }
  }

  lemma TurnInThePlane(e: seq<real>, c: real, s: real)
    requires |e| == 2 && c * c + s * s == 1.0
    ensures var t := Turn(e, ZAxis, c, s); Dot(t, t) == Dot(e, e)
  {
    var t := Turn(e, ZAxis, c, s);
    var x, y := e[0], e[1];
    assert t[0] == x * c - y * s && t[1] == x * s + y * c;
    SumOfSquaresOfTwo(t);
    SumOfSquaresOfTwo(e);
    PlaneRotationKeepsSquares(x, y, c, s);
  }

  lemma TurnAboutXKeepsSumOfSquares(e: seq<real>, c: real, s: real)
    requires |e| == 3 && c * c + s * s == 1.0
    ensures var t := Turn(e, XAxis, c, s); Dot(t, t) == Dot(e, e)
  {
    var t := Turn(e, XAxis, c, s);
    var x, y, z := e[0], e[1], e[2];
    assert t[0] == x && t[1] == y * c - z * s && t[2] == y * s + z * c;
    SumOfSquaresOfThree(t);
    SumOfSquaresOfThree(e);
    PlaneRotationKeepsSquares(y, z, c, s);
  }

  lemma TurnAboutYKeepsSumOfSquares(e: seq<real>, c: real, s: real)
    requires |e| == 3 && c * c + s * s == 1.0
    ensures var t := Turn(e, YAxis, c, s); Dot(t, t) == Dot(e, e)
  {
    var t := Turn(e, YAxis, c, s);
    var x, y, z := e[0], e[1], e[2];
    assert t[0] == x * c + z * s && t[1] == y && t[2] == -x * s + z * c;
    SumOfSquaresOfThree(t);
    SumOfSquaresOfThree(e);
    assert c * c + -s * -s == 1.0;
    PlaneRotationKeepsSquares(x, z, c, -s);
    assert x * c - z * -s == x * c + z * s && x * -s + z * c == -x * s + z * c;
  }

  lemma TurnAboutZKeepsSumOfSquares(e: seq<real>, c: real, s: real)
    requires |e| == 3 && c * c + s * s == 1.0
    ensures var t := Turn(e, ZAxis, c, s); Dot(t, t) == Dot(e, e)
  {
    var t := Turn(e, ZAxis, c, s);
    var x, y, z := e[0], e[1], e[2];
    assert t[0] == x * c - y * s && t[1] == x * s + y * c && t[2] == z;
    SumOfSquaresOfThree(t);
    SumOfSquaresOfThree(e);
    PlaneRotationKeepsSquares(x, y, c, s);
  }

  lemma DotWithZeroTail(k: seq<real>, n: nat)
    requires |k| <= n
    ensures Dot(Padded(k, n), Padded(k, n)) == Dot(k, k)
  {
    DotIsCommonPrefixSum(Padded(k, n), Padded(k, n));
    SumProductsZeroTail(k, Padded(k, n), n - |k|);
    assert Padded(k, n)[..|k|] == k;
    assert Padded(Padded(k, n), n) == Padded(k, n);
    assert Padded(k, |k|) == k;
  }

  lemma SumOfSquaresOfTwo(a: seq<real>)
    requires |a| == 2
    ensures Dot(a, a) == a[0] * a[0] + a[1] * a[1]
  {
    assert Padded(a, 2) == a;
    assert a[..1][..0] == [];
    assert SumProducts(a[..1], a[..1]) == a[0] * a[0];
  }

  lemma SumOfSquaresOfThree(a: seq<real>)
    requires |a| == 3
    ensures Dot(a, a) == a[0] * a[0] + a[1] * a[1] + a[2] * a[2]
  {
    DotOfThreeDimensions(a, a);
  }

  lemma PlaneRotationKeepsSquares(a: real, b: real, c: real, s: real)
    requires c * c + s * s == 1.0
    ensures (a * c - b * s) * (a * c - b * s) + (a * s + b * c) * (a * s + b * c) == a * a + b * b
  {
    calc {
      (a * c - b * s) * (a * c - b * s) + (a * s + b * c) * (a * s + b * c);
      a * a * (c * c + s * s) + b * b * (c * c + s * s);
    }
  }

  /** A quarter turn about Z takes [1, 0] to [0, 1]. */
  lemma RotateQuarterTurnExample(m: Math)
    requires m.cos(Pi / 2.0) == 0.0 && m.sin(Pi / 2.0) == 1.0
    ensures Rotate([1.0, 0.0], Pi / 2.0, [], m) == [0.0, 1.0]
  {
  }

  // ---------------------------------------------------------------------
  // Angle

  /** Angle's three results: the angle in radians, the rotation axis (None
      is a nil vector) and the error (None is nil). */
  datatype AngleResult = AngleResult(angle: real, axis: Option<seq<real>>, err: Option<VectorError>)

  /** Angle(v1, v2): ErrNotSameDimensions when the lengths differ; fixed
      results in 0 and 1 dimensions; the difference of the polar angles and
      the Z axis in 2; otherwise the arc cosine of the dot product of the unit
      vectors and the unit cross product, which is nil above 3 dimensions
      because the ignored Cross call fails there. */
  function Angle(v: seq<real>, w: seq<real>, m: Math): AngleResult
  {
    var empty: seq<real> := [];
    if |v| != |w| then AngleResult(0.0, Some(empty), Some(NotSameDimensions))
    else if |v| == 0 then AngleResult(0.0, Some(empty), None)
    else if |v| == 1 then
      if (v[0] > 0.0 && w[0] < 0.0) || (v[0] < 0.0 && w[0] > 0.0)
      then AngleResult(Pi, Some(empty), None)
      else AngleResult(0.0, Some(empty), None)
    else if |v| == 2 then
      AngleResult(m.atan2(Y(w), X(w)) - m.atan2(Y(v), X(v)), Some([0.0, 0.0, 1.0]), None)
    else
      var angle := m.acos(Dot(Unit(v, m), Unit(w, m)));
      var axis := match Cross(v, w)
        case Success(c) => Some(Unit(c, m))
        case Failure(_) => None;
      AngleResult(angle, axis, None)
  }

  /** The only error is ErrNotSameDimensions, returned exactly when the
      lengths differ, together with angle 0 and an empty axis. */
  lemma AngleFailsOnlyOnDifferentDimensions(v: seq<real>, w: seq<real>, m: Math)
    ensures Angle(v, w, m).err.Some? <==> |v| != |w|
    ensures |v| != |w| ==> Angle(v, w, m) == AngleResult(0.0, Some([]), Some(NotSameDimensions))
  {
  }

  /** In 0 and 1 dimensions the axis is empty; in 1 dimension the angle is
      pi exactly when the two signs are strictly opposite, and 0 otherwise. */
  lemma AngleInLowDimensions(v: seq<real>, w: seq<real>, m: Math)
    requires |v| == |w| <= 1
    ensures Angle(v, w, m).axis == Some([]) && Angle(v, w, m).err == None
    ensures |v| == 0 ==> Angle(v, w, m).angle == 0.0
    ensures |v| == 1 ==>
      (Angle(v, w, m).angle == Pi <==> (v[0] > 0.0 && w[0] < 0.0) || (v[0] < 0.0 && w[0] > 0.0))
    ensures |v| == 1 && Angle(v, w, m).angle != Pi ==> Angle(v, w, m).angle == 0.0
  {
  }

  /** In 2 dimensions the axis is the unit Z vector and swapping the
      arguments negates the angle. */
  lemma AngleInTwoDimensions(v: seq<real>, w: seq<real>, m: Math)
    requires |v| == |w| == 2
    ensures Angle(v, w, m).axis == Some([0.0, 0.0, 1.0]) && Angle(v, w, m).err == None
    ensures Angle(w, v, m).angle == -Angle(v, w, m).angle
  {
  }

  /** In 3 dimensions the axis is a 3-dimensional vector perpendicular to
      both arguments; swapping the arguments keeps the angle and negates the
      axis. */
  lemma AngleInThreeDimensions(v: seq<real>, w: seq<real>, m: Math)
    requires |v| == |w| == 3
    ensures Angle(v, w, m).err == None && Angle(v, w, m).axis.Some?
    ensures var u := Angle(v, w, m).axis.value;
      |u| == 3 && Dot(u, v) == 0.0 && Dot(u, w) == 0.0
    ensures Angle(w, v, m).angle == Angle(v, w, m).angle
    ensures Angle(w, v, m).axis.value == Scale(Angle(v, w, m).axis.value, -1.0)
  {
    var c := Cross(v, w).value;
    var l := Magnitude(c, m);
    CrossPerpendicular(v, w);
    UnitIsScale(c, m);
    if l >= Tolerance {
      DotScale(c, v, 1.0 / l);
      DotScale(c, w, 1.0 / l);
    }
    DotSymmetric(Unit(v, m), Unit(w, m));
    CrossAntisymmetric(v, w);
    UnitOfNegation(c, m);
  }

  /** Above 3 dimensions the axis is nil, because Cross fails there. */
  lemma AngleAboveThreeDimensions(v: seq<real>, w: seq<real>, m: Math)
    requires |v| == |w| > 3
    ensures Angle(v, w, m).axis == None && Angle(v, w, m).err == None
  {
  }

  lemma AngleExamples(m: Math)
    requires m.atan2(1.0, 0.0) == Pi / 2.0 && m.atan2(0.0, 1.0) == 0.0
    ensures Angle([1.0, 0.0], [0.0, 1.0], m) == AngleResult(Pi / 2.0, Some([0.0, 0.0, 1.0]), None)
    ensures Angle([1.0, 2.0], [1.0, 2.0, 3.0], m) == AngleResult(0.0, Some([]), Some(NotSameDimensions))
  {
  }
}

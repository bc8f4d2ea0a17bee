/** The value semantics of vector.go: a Vector is a sequence of reals whose
    length is its dimension. The functions here compute the value each
    operation produces, which the free functions return and the in-place
    methods of module Receivers are proved against. */
module Vectors {
  import opened Numerics

  /** The component selector; Index is the Go constant's value (iota). */
  datatype Axis = XAxis | YAxis | ZAxis
  {
    function Index(): (i: nat)
      ensures i < 3
    {
      match this
      case XAxis => 0
      case YAxis => 1
      case ZAxis => 2
    }
  }

  /** ErrNot3Dimensional and ErrNotSameDimensions. */
  datatype VectorError = Not3Dimensional | NotSameDimensions

  /** None stands for Go's nil slice where nil and empty differ. */
  datatype Option<+T> = None | Some(value: T)

  /** A (Vector, error) pair: Failure(e) is (nil, e), Success(v) is (v, nil). */
  datatype Result<+T> = Success(value: T) | Failure(error: VectorError)

  // ---------------------------------------------------------------------
  // Reading components

  /** Component i, or 0 when the vector is too short to have it. */
  function At(v: seq<real>, i: nat): real
  {
    if i < |v| then v[i] else 0.0
  }

  function X(v: seq<real>): real
  {
    if |v| < 1 then 0.0 else v[XAxis.Index()]
  }

  function Y(v: seq<real>): real
  {
    if |v| < 2 then 0.0 else v[YAxis.Index()]
  }

  function Z(v: seq<real>): real
  {
    if |v| < 3 then 0.0 else v[ZAxis.Index()]
  }

  function Zeros(n: nat): (r: seq<real>)
    ensures |r| == n
    ensures forall i :: 0 <= i < n ==> r[i] == 0.0
  {
    seq(n, _ => 0.0)
  }

  /** v extended with zeros up to length n. */
  function Padded(v: seq<real>, n: nat): (r: seq<real>)
    requires |v| <= n
  {
    v + Zeros(n - |v|)
  }

  /** The accessors read a missing component as the zero that padding the
      vector to three or more dimensions would put there. */
  lemma AccessorsReadPaddedComponents(v: seq<real>, n: nat)
    requires |v| <= n && 3 <= n
    ensures X(v) == Padded(v, n)[0]
    ensures Y(v) == Padded(v, n)[1]
    ensures Z(v) == Padded(v, n)[2]
  {
  }

  /** A 3-dimensional vector is exactly its three accessors. */
  lemma AccessorsOfThreeDimensions(v: seq<real>)
    requires |v| == 3
    ensures v == [X(v), Y(v), Z(v)]
  {
  }

  // ---------------------------------------------------------------------
  // Clone and Equal

  /** Clone: a new vector with the same length and entries. */
  function Clone(v: seq<real>): (c: seq<real>)
    ensures |c| == |v| && forall i :: 0 <= i < |v| ==> c[i] == v[i]
  {
    v[..]
  }

  /** Equal: false when the lengths differ, otherwise every component pair
      differs by at most the tolerance. */
  predicate Equal(v: seq<real>, w: seq<real>)
  {
    |v| == |w| && forall i :: 0 <= i < |v| ==> Abs(v[i] - w[i]) <= Tolerance
  }

  lemma EqualReflexive(v: seq<real>)
    ensures Equal(v, v)
    ensures Equal(Clone(v), v)
  {
    assert Clone(v) == v;
    assert Abs(0.0) == 0.0;
  }

  lemma EqualSymmetric(v: seq<real>, w: seq<real>)
    ensures Equal(v, w) <==> Equal(w, v)
  {
  }

  /** The tolerance is absolute and inclusive: one component off by more
      than 1e-8 is enough to make two vectors of the same length unequal. */
  lemma EqualExactlyWithinTolerance(v: seq<real>, w: seq<real>, i: nat)
    requires |v| == |w| && i < |v|
    ensures Abs(v[i] - w[i]) > Tolerance ==> !Equal(v, w)
    ensures Equal(v, w) ==> -Tolerance <= v[i] - w[i] <= Tolerance
  {
  }

  // ---------------------------------------------------------------------
  // Add, Sub, Scale

  /** One step of Add: an addend longer than the receiver is cut to the
      receiver's length; a shorter one touches only its own components. */
  function AddOne(v: seq<real>, w: seq<real>): seq<real>
  {
    var u := if |w| > |v| then w[..|v|] else w;
    seq(|v|, i requires 0 <= i < |v| => if i < |u| then v[i] + u[i] else v[i])
  }

  function SubOne(v: seq<real>, w: seq<real>): seq<real>
  {
    var u := if |w| > |v| then w[..|v|] else w;
    seq(|v|, i requires 0 <= i < |v| => if i < |u| then v[i] - u[i] else v[i])
  }

  /** Sum of component i over all addends, a missing component reading as 0. */
  function ColumnSum(vs: seq<seq<real>>, i: nat): real
  {
    if vs == [] then 0.0 else ColumnSum(vs[..|vs| - 1], i) + At(vs[|vs| - 1], i)
  }

  /** Add(v, vs...): the addends applied to v one after another. The result
      keeps v's length, and its component i is v's plus what the addends
      have at index i. */
  function Add(v: seq<real>, vs: seq<seq<real>>): (r: seq<real>)
    ensures |r| == |v|
    ensures forall i :: 0 <= i < |v| ==> r[i] == v[i] + ColumnSum(vs, i)
  {
    if vs == [] then v else AddOne(Add(v, vs[..|vs| - 1]), vs[|vs| - 1])
  }

  /** Sub(v, vs...): the mirror image of Add. */
  function Sub(v: seq<real>, vs: seq<seq<real>>): (r: seq<real>)
    ensures |r| == |v|
    ensures forall i :: 0 <= i < |v| ==> r[i] == v[i] - ColumnSum(vs, i)
  {
    if vs == [] then v else SubOne(Sub(v, vs[..|vs| - 1]), vs[|vs| - 1])
  }

  /** Scale(v, k): every component multiplied by k. */
  function Scale(v: seq<real>, k: real): seq<real>
  {
    seq(|v|, i requires 0 <= i < |v| => k * v[i])
  }

  /** Every addend cut to its first n components. */
  function Truncated(vs: seq<seq<real>>, n: nat): (ts: seq<seq<real>>)
    ensures |ts| == |vs|
  {
    seq(|vs|, k requires 0 <= k < |vs| => if |vs[k]| > n then vs[k][..n] else vs[k])
  }

  lemma {:induction false} ColumnSumTruncated(vs: seq<seq<real>>, n: nat, i: nat)
    requires i < n
    ensures ColumnSum(Truncated(vs, n), i) == ColumnSum(vs, i)
  {
    if vs != [] {
      var init := vs[..|vs| - 1];
      assert Truncated(vs, n)[..|vs| - 1] == Truncated(init, n);
      ColumnSumTruncated(init, n, i);
    }
  }

  /** Components of an addend beyond the receiver's length never matter. */
  lemma AddDropsExtraComponents(v: seq<real>, vs: seq<seq<real>>)
    ensures Add(v, vs) == Add(v, Truncated(vs, |v|))
    ensures Sub(v, vs) == Sub(v, Truncated(vs, |v|))
  {
    var ts := Truncated(vs, |v|);
    forall i | 0 <= i < |v| ensures Add(v, vs)[i] == Add(v, ts)[i] && Sub(v, vs)[i] == Sub(v, ts)[i] {
      ColumnSumTruncated(vs, |v|, i);
    }
  }

  /** The addends are applied in argument order: adding vs then ws is adding
      vs and then adding ws to the result. */
  lemma {:induction false} AddInArgumentOrder(v: seq<real>, vs: seq<seq<real>>, ws: seq<seq<real>>)
    ensures Add(v, vs + ws) == Add(Add(v, vs), ws)
  {
    if ws != [] {
      var init := ws[..|ws| - 1];
      assert (vs + ws)[..|vs + ws| - 1] == vs + init;
      AddInArgumentOrder(v, vs, init);
    } else {
      assert vs + ws == vs;
    }
  }

  /** Sub undoes Add with the same operands. */
  lemma AddThenSubIsIdentity(v: seq<real>, vs: seq<seq<real>>)
    ensures Sub(Add(v, vs), vs) == v
  {
  }

  /** Adding the receiver scaled by -1 gives the zero vector of its length. */
  lemma AddNegationIsZero(v: seq<real>)
    ensures Add(v, [Scale(v, -1.0)]) == Zeros(|v|)
  {
    var r := Add(v, [Scale(v, -1.0)]);
    forall i | 0 <= i < |v| ensures r[i] == 0.0 {
      assert [Scale(v, -1.0)][..0] == [];
    }
  }

  /** Subtracting w is adding w scaled by -1. */
  lemma SubIsAddOfNegation(v: seq<real>, w: seq<real>)
    ensures Sub(v, [w]) == Add(v, [Scale(w, -1.0)])
  {
  }

  /** Add truncates a longer addend instead of padding the receiver. */
  lemma AddTruncatesExample()
    ensures Add([1.0, 2.0, 3.0], [[1.0, 2.0, 3.0, 4.0, 5.0]]) == [2.0, 4.0, 6.0]
  {
  }

  lemma ScaleComposes(v: seq<real>, a: real, b: real)
    ensures Scale(Scale(v, a), b) == Scale(v, b * a)
    ensures Scale(v, 1.0) == v
  {
    forall i | 0 <= i < |v| ensures Scale(Scale(v, a), b)[i] == Scale(v, b * a)[i] {
      assert b * (a * v[i]) == (b * a) * v[i];
    }
  }

  // ---------------------------------------------------------------------
  // Dot and Magnitude

  /** Sum of a[i] * b[i], accumulated from index 0 upwards. */
  function SumProducts(a: seq<real>, b: seq<real>): real
    requires |a| == |b|
  {
    if a == [] then 0.0 else SumProducts(a[..|a| - 1], b[..|b| - 1]) + a[|a| - 1] * b[|b| - 1]
  }

  /** Dot(v1, v2): the shorter argument is padded with zeros to the longer
      one's length before the products are summed. */
  function Dot(v: seq<real>, w: seq<real>): real
  {
    var n := Max(|v|, |w|);
    SumProducts(Padded(v, n), Padded(w, n))
  }

  lemma {:induction false} SumProductsZeroTail(a: seq<real>, b: seq<real>, m: nat)
    requires |b| == |a| + m
    ensures SumProducts(a + Zeros(m), b) == SumProducts(a, b[..|a|])
  {
    if m > 0 {
      var a' := a + Zeros(m);
      assert a'[..|a'| - 1] == a + Zeros(m - 1);
      SumProductsZeroTail(a, b[..|b| - 1], m - 1);
      assert b[..|b| - 1][..|a|] == b[..|a|];
    } else {
      assert a + Zeros(0) == a;
      assert b[..|a|] == b;
    }
  }

  lemma {:induction false} SumProductsSymmetric(a: seq<real>, b: seq<real>)
    requires |a| == |b|
    ensures SumProducts(a, b) == SumProducts(b, a)
  {
    if a != [] {
      SumProductsSymmetric(a[..|a| - 1], b[..|b| - 1]);
    }
  }

  lemma {:induction false} SumProductsScale(a: seq<real>, b: seq<real>, k: real)
    requires |a| == |b|
    ensures SumProducts(Scale(a, k), b) == k * SumProducts(a, b)
  {
    if a != [] {
      var a' := a[..|a| - 1];
      forall i | 0 <= i < |a'| ensures Scale(a, k)[i] == Scale(a', k)[i] {
        assert a[i] == a'[i];
      }
      assert Scale(a, k)[..|a| - 1] == Scale(a', k);
      SumProductsScale(a[..|a| - 1], b[..|b| - 1], k);
    }
  }

  lemma {:induction false} SumSquaresNonNegative(a: seq<real>)
    ensures 0.0 <= SumProducts(a, a)
  {
    if a != [] {
      SumSquaresNonNegative(a[..|a| - 1]);
    }
  }

  /** Padding with zeros makes Dot the sum of products over the common
      prefix of the two arguments. */
  lemma DotIsCommonPrefixSum(v: seq<real>, w: seq<real>)
    ensures var k := Min(|v|, |w|); Dot(v, w) == SumProducts(v[..k], w[..k])
  {
    var n := Max(|v|, |w|);
    if |v| <= |w| {
      SumProductsZeroTail(v, Padded(w, n), n - |v|);
      assert Padded(w, n) == w;
      assert v[..|v|] == v;
    } else {
      SumProductsZeroTail(w, Padded(v, n), n - |w|);
      SumProductsSymmetric(Padded(v, n), Padded(w, n));
      SumProductsSymmetric(v[..|w|], w);
      assert Padded(v, n) == v;
      assert w[..|w|] == w;
    }
  }

  lemma DotSymmetric(v: seq<real>, w: seq<real>)
    ensures Dot(v, w) == Dot(w, v)
  {
    var n := Max(|v|, |w|);
    SumProductsSymmetric(Padded(v, n), Padded(w, n));
  }

  lemma DotWithEmpty(v: seq<real>)
    ensures Dot(v, []) == 0.0 && Dot([], v) == 0.0
  {
    DotIsCommonPrefixSum(v, []);
    DotIsCommonPrefixSum([], v);
  }

  /** The shorter argument is padded: 1*1 + 2*2 + 0*3. */
  lemma DotPadsExample()
    ensures Dot([1.0, 2.0], [1.0, 2.0, 3.0]) == 5.0
  {
    DotIsCommonPrefixSum([1.0, 2.0], [1.0, 2.0, 3.0]);
    assert [1.0, 2.0, 3.0][..2] == [1.0, 2.0];
    assert [1.0, 2.0][..2] == [1.0, 2.0];
  }

  /** Scaling one argument scales the dot product. */
  lemma DotScale(v: seq<real>, w: seq<real>, k: real)
    ensures Dot(Scale(v, k), w) == k * Dot(v, w)
  {
    var n := Max(|v|, |w|);
    forall i | 0 <= i < n ensures Padded(Scale(v, k), n)[i] == Scale(Padded(v, n), k)[i] {
      if i >= |v| {
        assert k * 0.0 == 0.0;
      }
    }
    assert Padded(Scale(v, k), n) == Scale(Padded(v, n), k);
    SumProductsScale(Padded(v, n), Padded(w, n), k);
  }

  /** Magnitude: the square root of the sum of squares. */
  function Magnitude(v: seq<real>, m: Math): real
  {
    m.sqrt(SumProducts(v, v))
  }

  /** The magnitude is the square root of the vector's dot product with
      itself; with an exact square root it is non-negative, squares to that
      dot product, and is 0 for the empty vector. */
  lemma MagnitudeIsSqrtOfDot(v: seq<real>, m: Math)
    ensures Magnitude(v, m) == m.sqrt(Dot(v, v))
    ensures m.ExactSqrt() ==> 0.0 <= Magnitude(v, m)
    ensures m.ExactSqrt() ==> Magnitude(v, m) * Magnitude(v, m) == Dot(v, v)
    ensures m.ExactSqrt() && v == [] ==> Magnitude(v, m) == 0.0
  {
    assert Padded(v, |v|) == v;
    SumSquaresNonNegative(v);
    if m.ExactSqrt() && v == [] {
      assert SumProducts(v, v) == 0.0;
    }
  }

  // ---------------------------------------------------------------------
  // Unit

  /** Unit: a vector of magnitude below the tolerance is returned unchanged;
      otherwise every component is divided by the magnitude. */
  function Unit(v: seq<real>, m: Math): (r: seq<real>)
    ensures |r| == |v|
  {
    var l := Magnitude(v, m);
    if l < Tolerance then v else seq(|v|, i requires 0 <= i < |v| => v[i] / l)
  }

  /** Unit either leaves v alone or scales it by 1 / Magnitude(v). */
  lemma UnitIsScale(v: seq<real>, m: Math)
    ensures Magnitude(v, m) < Tolerance ==> Unit(v, m) == v
    ensures Magnitude(v, m) >= Tolerance ==> Unit(v, m) == Scale(v, 1.0 / Magnitude(v, m))
  {
    var l := Magnitude(v, m);
    if l >= Tolerance {
      forall i | 0 <= i < |v| ensures Unit(v, m)[i] == Scale(v, 1.0 / l)[i] {
        assert v[i] / l == (1.0 / l) * v[i];
      }
    }
  }

  /** The sum of squares of k * v is k squared times that of v. */
  lemma ScaledSumOfSquares(v: seq<real>, k: real)
    ensures SumProducts(Scale(v, k), Scale(v, k)) == k * (k * SumProducts(v, v))
  {
    var u := Scale(v, k);
    SumProductsScale(v, u, k);
    SumProductsSymmetric(v, u);
    SumProductsScale(v, v, k);
  }

  lemma InverseSquare(l: real, s: real)
    requires l > 0.0 && l * l == s
    ensures (1.0 / l) * ((1.0 / l) * s) == 1.0
  {
    var k := 1.0 / l;
    assert k * l == 1.0;
    calc {
      k * (k * s);
      k * (k * (l * l));
      (k * l) * (k * l);
    }
  }

  /** With an exact square root, Unit of a vector whose magnitude is at least
      the tolerance has magnitude 1. */
  lemma UnitHasMagnitudeOne(v: seq<real>, m: Math)
    requires m.ExactSqrt()
    requires Magnitude(v, m) >= Tolerance
    ensures Magnitude(Unit(v, m), m) == 1.0
  {
    var l := Magnitude(v, m);
    var s := SumProducts(v, v);
    SumSquaresNonNegative(v);
    assert l * l == s;
    UnitIsScale(v, m);
    ScaledSumOfSquares(v, 1.0 / l);
    InverseSquare(l, s);
    assert SumProducts(Unit(v, m), Unit(v, m)) == 1.0;
    assert 0.0 <= m.sqrt(1.0) && m.sqrt(1.0) * m.sqrt(1.0) == 1.0;
    SquareRootOfOne(m.sqrt(1.0));
  }

  /** Unit of the negated vector is the negated Unit. */
  lemma UnitOfNegation(v: seq<real>, m: Math)
    ensures Unit(Scale(v, -1.0), m) == Scale(Unit(v, m), -1.0)
  {
    var n := Scale(v, -1.0);
    SumProductsScale(v, n, -1.0);
    SumProductsSymmetric(v, n);
    SumProductsScale(v, v, -1.0);
    assert SumProducts(n, n) == SumProducts(v, v);
    var l := Magnitude(v, m);
    assert Magnitude(n, m) == l;
    if l >= Tolerance {
      forall i | 0 <= i < |v| ensures Unit(n, m)[i] == Scale(Unit(v, m), -1.0)[i] {
        assert (-1.0 * v[i]) / l == -1.0 * (v[i] / l);
      }
    }
  }
}

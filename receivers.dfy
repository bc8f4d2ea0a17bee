/** The methods of vector.go's Vector type. Those that change the receiver
    (Add, Sub, Scale, Unit, Rotate) work in place on an array and return it,
    so that calls can be chained; each is proved to leave the array holding
    the value the matching function of Vectors or Geometry computes. */
module Receivers {
  import opened Numerics
  import V = Vectors
  import G = Geometry
  import T = Text

  // ---------------------------------------------------------------------
  // The two unexported helpers. Their bodies are not part of this model;
  // they are given the meaning their call sites rely on.

  /** axpyUnitaryTo(dst, alpha, x, y): dst[i] = alpha * x[i] + y[i] for every
      i below the shorter of x and y; the rest of dst is left alone. */
  function Axpy(alpha: real, x: seq<real>, y: seq<real>, dst: seq<real>): seq<real>
    requires Min(|x|, |y|) <= |dst|
  {
    seq(|dst|, i requires 0 <= i < |dst| => if i < |x| && i < |y| then alpha * x[i] + y[i] else dst[i])
  }

  method AxpyUnitaryTo(dst: array<real>, alpha: real, x: seq<real>, y: seq<real>)
    requires Min(|x|, |y|) <= dst.Length
    modifies dst
    ensures dst[..] == Axpy(alpha, x, y, old(dst[..]))
  {
    ghost var before := dst[..];
    for i := 0 to Min(|x|, |y|)
      invariant forall j :: 0 <= j < i ==> dst[j] == alpha * x[j] + y[j]
      invariant forall j :: i <= j < dst.Length ==> dst[j] == before[j]
    {
      dst[i] := alpha * x[i] + y[i];
    }
    assert forall j :: 0 <= j < dst.Length ==> dst[j] == Axpy(alpha, x, y, before)[j];
  }

  /** scalUnitaryTo(dst, alpha, x): dst[i] = alpha * x[i] for every i of x. */
  function Scal(alpha: real, x: seq<real>, dst: seq<real>): seq<real>
    requires |x| <= |dst|
  {
    seq(|dst|, i requires 0 <= i < |dst| => if i < |x| then alpha * x[i] else dst[i])
  }

  method ScalUnitaryTo(dst: array<real>, alpha: real, x: seq<real>)
    requires |x| <= dst.Length
    modifies dst
    ensures dst[..] == Scal(alpha, x, old(dst[..]))
  {
    ghost var before := dst[..];
    for i := 0 to |x|
      invariant forall j :: 0 <= j < i ==> dst[j] == alpha * x[j]
      invariant forall j :: i <= j < dst.Length ==> dst[j] == before[j]
    {
      dst[i] := alpha * x[i];
    }
    assert forall j :: 0 <= j < dst.Length ==> dst[j] == Scal(alpha, x, before)[j];
  }

  // ---------------------------------------------------------------------
  // Clone

  /** v.Clone(): a new array of the same length holding the same entries. */
  method Clone(v: array<real>) returns (c: array<real>)
    ensures fresh(c) && c[..] == v[..]
  {
    c := new real[v.Length];
    for i := 0 to v.Length
      invariant c[..i] == v[..i]
    {
      c[i] := v[i];
    }
    assert c[..] == c[..v.Length];
  }

  // ---------------------------------------------------------------------
  // Add, Sub, Scale

  /** v.Add(vs...): each addend, cut to v's length, added into v in turn. */
  method Add(v: array<real>, vs: seq<seq<real>>) returns (r: array<real>)
    modifies v
    ensures r == v && v[..] == V.Add(old(v[..]), vs)
  {
    var dim := v.Length;
    for i := 0 to |vs|
      invariant v[..] == V.Add(old(v[..]), vs[..i])
    {
      ghost var before := v[..];
      if |vs[i]| > dim {
        AxpyUnitaryTo(v, 1.0, v[..], vs[i][..dim]);
      } else {
        AxpyUnitaryTo(v, 1.0, v[..], vs[i]);
      }
      assert vs[..i + 1][..i] == vs[..i];
      assert v[..] == V.AddOne(before, vs[i]);
    }
    assert vs[..|vs|] == vs;
    r := v;
  }

  /** v.Sub(vs...): each addend, cut to v's length, subtracted from v in turn. */
  method Sub(v: array<real>, vs: seq<seq<real>>) returns (r: array<real>)
    modifies v
    ensures r == v && v[..] == V.Sub(old(v[..]), vs)
  {
    var dim := v.Length;
    for i := 0 to |vs|
      invariant v[..] == V.Sub(old(v[..]), vs[..i])
    {
      ghost var before := v[..];
      if |vs[i]| > dim {
        AxpyUnitaryTo(v, -1.0, vs[i][..dim], v[..]);
      } else {
        AxpyUnitaryTo(v, -1.0, vs[i], v[..]);
      }
      assert vs[..i + 1][..i] == vs[..i];
      assert v[..] == V.SubOne(before, vs[i]);
    }
    assert vs[..|vs|] == vs;
    r := v;
  }

  /** v.Scale(size): every entry of v multiplied by size. */
  method Scale(v: array<real>, size: real) returns (r: array<real>)
    modifies v
    ensures r == v && v[..] == V.Scale(old(v[..]), size)
  {
    ScalUnitaryTo(v, size, v[..]);
    r := v;
  }

  // ---------------------------------------------------------------------
  // Equal, Magnitude, Unit

  /** v.Equal(v2): false as soon as the lengths or one pair of entries
      differ by more than the tolerance. */
  method Equal(v: seq<real>, w: seq<real>) returns (eq: bool)
    ensures eq == V.Equal(v, w)
  {
    if |v| != |w| {
      return false;
    }
    for i := 0 to |v|
      invariant forall j :: 0 <= j < i ==> Abs(v[j] - w[j]) <= Tolerance
    {
      if Abs(v[i] - w[i]) > Tolerance {
        return false;
      }
    }
    return true;
  }

  /** v.Magnitude(): the square root of the accumulated sum of squares. */
  method Magnitude(v: seq<real>, m: Math) returns (l: real)
    ensures l == V.Magnitude(v, m)
  {
    var result := 0.0;
    for i := 0 to |v|
      invariant result == V.SumProducts(v[..i], v[..i])
    {
      assert v[..i + 1][..i] == v[..i];
      result := result + v[i] * v[i];
    }
    assert v[..|v|] == v;
    l := m.sqrt(result);
  }

  /** v.Unit(): v unchanged when its magnitude is below the tolerance,
      otherwise every entry divided by the magnitude. */
  method Unit(v: array<real>, m: Math) returns (r: array<real>)
    modifies v
    ensures r == v && v[..] == V.Unit(old(v[..]), m)
  {
    var l := Magnitude(v[..], m);
    if l < Tolerance {
      return v;
    }
    for i := 0 to v.Length
      invariant forall j :: 0 <= j < i ==> v[j] == old(v[j]) / l
      invariant forall j :: i <= j < v.Length ==> v[j] == old(v[j])
    {
      v[i] := v[i] / l;
    }
    r := v;
  }

  // ---------------------------------------------------------------------
  // Rotate

  /** append(a, tail...) when a has no spare capacity: a new array. */
  method Append(a: array<real>, tail: seq<real>) returns (b: array<real>)
    ensures fresh(b) && b[..] == a[..] + tail
  {
    b := new real[a.Length + |tail|];
    forall i | 0 <= i < b.Length {
      b[i] := if i < a.Length then a[i] else tail[i - a.Length];
    }
  }

  /** The appends at the start of Rotate: v itself when no extension is
      needed, otherwise a new, zero-extended array. */
  method ExtendForAxis(v: array<real>, axis: V.Axis) returns (w: array<real>)
    requires v.Length > 0
    ensures w[..] == G.Extend(v[..], axis)
    ensures w == v || (fresh(w) && w.Length > v.Length)
  {
    var dim := v.Length;
    w := v;
    if dim == 1 && axis != V.ZAxis {
      w := Append(w, [0.0, 0.0]);
    }
    if (dim < 2 && axis == V.ZAxis) || (dim == 2 && axis != V.ZAxis) {
      w := Append(w, [0.0]);
    }
  }

  /** The switch of Rotate: the two coordinates other than `axis` turned in
      place. */
  method TurnInPlace(w: array<real>, axis: V.Axis, cos: real, sin: real)
    requires 2 <= w.Length && (axis != V.ZAxis ==> 3 <= w.Length)
    modifies w
    ensures w[..] == G.Turn(old(w[..]), axis, cos, sin)
  {
    match axis {
      case XAxis => TurnAboutX(w, cos, sin);
      case YAxis => TurnAboutY(w, cos, sin);
      case ZAxis => TurnAboutZ(w, cos, sin);
    }
  }

  method TurnAboutX(w: array<real>, cos: real, sin: real)
    requires 3 <= w.Length
    modifies w
    ensures w[..] == G.Turn(old(w[..]), V.XAxis, cos, sin)
  {
    ghost var t := G.Turn(w[..], V.XAxis, cos, sin);
    var y, z := w[(V.YAxis).Index()], w[(V.ZAxis).Index()];
    w[(V.YAxis).Index()] := y * cos - z * sin;
    w[(V.ZAxis).Index()] := y * sin + z * cos;
    assert t[1] == y * cos - z * sin && t[2] == y * sin + z * cos;
    assert forall i :: 0 <= i < w.Length && i != 1 && i != 2 ==> t[i] == old(w[i]) == w[i];
    assert w[..] == t;
  }

  method TurnAboutY(w: array<real>, cos: real, sin: real)
    requires 3 <= w.Length
    modifies w
    ensures w[..] == G.Turn(old(w[..]), V.YAxis, cos, sin)
  {
    ghost var t := G.Turn(w[..], V.YAxis, cos, sin);
    var x, z := w[(V.XAxis).Index()], w[(V.ZAxis).Index()];
    w[(V.XAxis).Index()] := x * cos + z * sin;
    w[(V.ZAxis).Index()] := -x * sin + z * cos;
    assert t[0] == x * cos + z * sin && t[2] == -x * sin + z * cos;
    assert forall i :: 0 <= i < w.Length && i != 0 && i != 2 ==> t[i] == old(w[i]) == w[i];
    assert w[..] == t;
  }

  method TurnAboutZ(w: array<real>, cos: real, sin: real)
    requires 2 <= w.Length
    modifies w
    ensures w[..] == G.Turn(old(w[..]), V.ZAxis, cos, sin)
  {
    ghost var t := G.Turn(w[..], V.ZAxis, cos, sin);
    var x, y := w[(V.XAxis).Index()], w[(V.YAxis).Index()];
    w[(V.XAxis).Index()] := x * cos - y * sin;
    w[(V.YAxis).Index()] := x * sin + y * cos;
    assert t[0] == x * cos - y * sin && t[1] == x * sin + y * cos;
    assert forall i :: 0 <= i < w.Length && i != 0 && i != 1 ==> t[i] == old(w[i]) == w[i];
    assert w[..] == t;
  }

  /** v.Rotate(angle, as...): turns v about the first axis given (Z when
      none is). A vector that must be extended is copied into a new array
      first; one longer than 3 is turned in place and its first three
      entries are returned in a new array. */
  method Rotate(v: array<real>, angle: real, axes: seq<V.Axis>, m: Math) returns (r: array<real>)
    modifies v
    ensures r[..] == G.Rotate(old(v[..]), angle, axes, m)
    ensures v.Length <= 3 && r.Length == v.Length ==> r == v
    ensures v.Length < r.Length ==> fresh(r) && v[..] == old(v[..])
    ensures v.Length > 3 ==> fresh(r) && v[..3] == r[..] && v[3..] == old(v[3..])
  {
    var axis, dim := V.ZAxis, v.Length;
    if dim == 0 {
      return v;
    }
    if |axes| > 0 {
      axis := axes[0];
    }
    var w := ExtendForAxis(v, axis);
    var cos, sin := m.cos(angle), m.sin(angle);
    TurnInPlace(w, axis, cos, sin);
    if dim > 3 {
      r := new real[3];
      forall i | 0 <= i < 3 {
        r[i] := w[i];
      }
    } else {
      r := w;
    }
  }

  // ---------------------------------------------------------------------
  // String

  /** v.String(): "[]" for nil (and, corrected, for empty), otherwise every
      component's token followed by a space, the last space dropped, in
      brackets. */
  method String(v: V.Option<seq<real>>, sprint: real -> string) returns (str: string)
    ensures str == T.Render(v, sprint)
  {
    if v.None? || v.value == [] {
      return "[]";
    }
    var s := v.value;
    str := "";
    for i := 0 to |s|
      invariant str == T.Terms(s[..i], sprint)
    {
      assert s[..i + 1][..i] == s[..i];
      ghost var next := T.Terms(s[..i + 1], sprint);
      if s[i] < Tolerance && s[i] > 0.0 {
        assert next == str + "0" + " ";
        str := str + "0 ";
      } else {
        assert next == str + sprint(s[i]) + " ";
        str := str + sprint(s[i]) + " ";
      }
    }
    assert s[..|s|] == s;
    T.TermsAreJoinedThenSpace(s, sprint);
    ghost var joined := T.Joined(s, sprint);
    assert str[..|str| - 1] == joined;
    str := "[" + str[..|str| - 1] + "]";
  }
}

/** The package-level functions of vector.go. Most clone their first
    argument and run the matching method on the clone, so the argument is
    never changed; Dot is the one with its own loop, and the receiver
    method v.Dot(v2) calls it. */
module FreeFunctions {
  import opened Numerics
  import V = Vectors
  import G = Geometry
  import R = Receivers

  /** Clone(v) */
  method Clone(v: array<real>) returns (c: array<real>)
    ensures fresh(c) && c[..] == v[..]
  {
    c := R.Clone(v);
  }

  /** Add(v1, vs...): the sum in a new array; v1 keeps its value. */
  method Add(v1: array<real>, vs: seq<seq<real>>) returns (r: array<real>)
    ensures fresh(r) && r[..] == V.Add(v1[..], vs)
  {
    var c := R.Clone(v1);
    r := R.Add(c, vs);
  }

  /** Sub(v1, vs...): the difference in a new array; v1 keeps its value. */
  method Sub(v1: array<real>, vs: seq<seq<real>>) returns (r: array<real>)
    ensures fresh(r) && r[..] == V.Sub(v1[..], vs)
  {
    var c := R.Clone(v1);
    r := R.Sub(c, vs);
  }

  /** Scale(v, size): the scaled vector in a new array. */
  method Scale(v: array<real>, size: real) returns (r: array<real>)
    ensures fresh(r) && r[..] == V.Scale(v[..], size)
  {
    var c := R.Clone(v);
    r := R.Scale(c, size);
  }

  /** Unit(v): the unit vector in a new array. */
  method Unit(v: array<real>, m: Math) returns (r: array<real>)
    ensures fresh(r) && r[..] == V.Unit(v[..], m)
  {
    var c := R.Clone(v);
    r := R.Unit(c, m);
  }

  /** Rotate(v, angle, as...): the rotated vector in a new array. */
  method Rotate(v: array<real>, angle: real, axes: seq<V.Axis>, m: Math) returns (r: array<real>)
    ensures fresh(r) && r[..] == G.Rotate(v[..], angle, axes, m)
  {
    var c := R.Clone(v);
    r := R.Rotate(c, angle, axes, m);
  }

  /** Dot(v1, v2): the shorter argument is extended with zeros, then the
      products of matching components are summed from index 0 upwards. */
  method Dot(v1: seq<real>, v2: seq<real>) returns (result: real)
    ensures result == V.Dot(v1, v2)
  {
    var a, b := v1, v2;
    if |a| > |b| {
      b := b + V.Zeros(|a| - |b|);
    }
    if |a| < |b| {
      a := a + V.Zeros(|b| - |a|);
    }
    ghost var n := Max(|v1|, |v2|);
    assert a == V.Padded(v1, n) && b == V.Padded(v2, n);
    result := 0.0;
    for i := 0 to |a|
      invariant result == V.SumProducts(a[..i], b[..i])
    {
      assert a[..i + 1][..i] == a[..i] && b[..i + 1][..i] == b[..i];
      result := result + a[i] * b[i];
    }
    assert a[..|a|] == a && b[..|b|] == b;
  }
}

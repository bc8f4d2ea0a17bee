/** Scalars of the vector package: the exact-real stand-ins for float64, the
    package's fixed tolerance, and the elementary functions it calls from Go's
    math library, which this model keeps abstract. */
module Numerics {

  /** The absolute tolerance 1e-8 used by Equal, Unit and String. */
  const Tolerance: real := 0.00000001

  /** Go's math.Pi, as the exact decimal literal the library declares. */
  const Pi: real := 3.14159265358979323846264338327950288419716939937510582097494459

  /** math.Abs */
  function Abs(x: real): (r: real)
    ensures 0.0 <= r
    ensures r == x || r == -x
  {
    if x < 0.0 then -x else x
  }

  function Min(a: int, b: int): (r: int)
    ensures r <= a && r <= b && (r == a || r == b)
  {
    if a < b then a else b
  }

  function Max(a: int, b: int): (r: int)
    ensures a <= r && b <= r && (r == a || r == b)
  {
    if a < b then b else a
  }

  /** The functions of Go's math package the vector code calls. They are
      parameters of the model: nothing is assumed about them except what a
      lemma states in its own `requires`. */
  datatype Math = Math(
    sqrt: real -> real,
    cos: real -> real,
    sin: real -> real,
    atan2: (real, real) -> real,
    acos: real -> real)
  {
    /** sqrt returns the non-negative square root of every non-negative
        real, and sqrt(0) is 0. */
    ghost predicate ExactSqrt()
    {
      && this.sqrt(0.0) == 0.0
      && forall x :: 0.0 <= x ==> 0.0 <= this.sqrt(x) && this.sqrt(x) * this.sqrt(x) == x
    }

    /** cos and sin of `angle` lie on the unit circle. */
    ghost predicate OnUnitCircle(angle: real)
    {
      this.cos(angle) * this.cos(angle) + this.sin(angle) * this.sin(angle) == 1.0
    }
  }

  /** The only non-negative real whose square is 1 is 1. */
  lemma SquareRootOfOne(s: real)
    requires 0.0 <= s && s * s == 1.0
    ensures s == 1.0
  {
    assert (s - 1.0) * (s + 1.0) == s * s - 1.0 == 0.0;
    assert s + 1.0 > 0.0;
  }
}

# vector — a verified Dafny model

The Go package `vector` (one file, `vector.go`) is a small library over
variable-length vectors of `float64`. This project models it in Dafny. It
covers:

- the component accessors X/Y/Z;
- the methods of `Vector`: Clone, Add, Sub, Scale, Equal, Magnitude, Unit,
  Rotate and String as methods (module `Receivers`), and Cross and Angle as
  functions (module `Geometry`);
- the package-level functions that do their own work: Clone, Add, Sub,
  Scale, Unit and Rotate (clone, then call the method) and Dot (its own
  padding loop), in module `FreeFunctions`.

The remaining forms only delegate to one of these and have no member of
their own: the free Equal, Magnitude, Cross and Angle, and the method Dot.
The package has no free String.

## Model structure

- A vector value is a `seq<real>`. The methods that change their receiver
  work in place on an `array<real>`.
- `float64` arithmetic is exact `real` arithmetic. The tolerance `1e-8` and
  `math.Pi` are exact constants.
- Go's nil slice is `None` of an `Option` wherever nil and empty differ
  (Angle's axis, String's receiver). Cross's `(Vector, error)` pair is a
  `Result`.

## Modules

| module | file | contents |
|---|---|---|
| `Numerics` | `numerics.dfy` | The tolerance and Pi. `Abs`, `Min`, `Max`. The record `Math` that carries the abstract `sqrt`, `cos`, `sin`, `atan2` and `acos`. |
| `Vectors` | `vectors.dfy` | The value semantics of Clone, Equal, Add, Sub, Scale, Dot, Magnitude, Unit and X/Y/Z, with their lemmas. |
| `Geometry` | `geometry.dfy` | Cross, Rotate (zero extension, the plane turn, the cut to three components) and Angle, with their lemmas. |
| `Text` | `text.dfy` | The structure of String. The printing of one float is a parameter `sprint`. |
| `Receivers` | `receivers.dfy` | The methods of `Vector`: in-place methods on arrays, and loop methods proved equal to the functions above. |
| `FreeFunctions` | `free_functions.dfy` | The package-level functions. They clone their argument and call the method on the clone, so the argument never changes. Dot is the exception: it has its own padding loop. |

## Assumptions

- **`axpyUnitaryTo` and `scalUnitaryTo`.** These are unexported helpers whose
  bodies are not part of this model. They are given the meaning their call
  sites rely on:
  - `axpyUnitaryTo(dst, alpha, x, y)` sets `dst[i] = alpha * x[i] + y[i]` for
    every `i` below the shorter of `x` and `y`, and leaves the rest of `dst`
    alone;
  - `scalUnitaryTo(dst, alpha, x)` sets `dst[i] = alpha * x[i]` for every `i`
    of `x`.

  Both are written as loop methods (`Receivers.AxpyUnitaryTo`,
  `Receivers.ScalUnitaryTo`) against the functions `Axpy` and `Scal`.
- **The math functions are parameters.** The record `Math` holds total
  functions. Nothing is known about them in any operation. A lemma that needs
  a fact states it in its own `requires`:
  - `ExactSqrt`: `sqrt` is the exact non-negative square root on
    non-negative reals;
  - `OnUnitCircle`: cos² + sin² = 1;
  - the values of `atan2` or `cos`/`sin` that an example needs.

## Model

| member | source | states |
|---|---|---|
| `Vectors.X` | vector.go:324-330 | No contract of its own; component 0, or 0 for an empty vector. Stated by `AccessorsReadPaddedComponents` and `AccessorsOfThreeDimensions`. |
| `Vectors.Y` | vector.go:334-340 | No contract of its own; component 1, or 0 for a vector shorter than 2. Stated by the same two lemmas. |
| `Vectors.Z` | vector.go:344-350 | No contract of its own; component 2, or 0 for a vector shorter than 3. Stated by the same two lemmas. |
| `Vectors.AccessorsReadPaddedComponents` | vector.go:324-350 | X, Y and Z read components 0, 1 and 2, and a component the vector is too short to have reads as 0. |
| `Vectors.AccessorsOfThreeDimensions` | vector.go:324-350 | A 3-dimensional vector is exactly `[X(v), Y(v), Z(v)]`. |
| `Vectors.Clone` | vector.go:39-43 | The clone has the same length and the same entries. |
| `Vectors.Equal` | vector.go:102-114 | No contract of its own; the definition the loop method `Receivers.Equal` is proved equal to. Stated by `EqualReflexive`, `EqualSymmetric` and `EqualExactlyWithinTolerance`. |
| `Vectors.EqualReflexive` | vector.go:102-114 | Every vector equals itself and its clone. |
| `Vectors.EqualSymmetric` | vector.go:102-114 | Equal does not depend on argument order. |
| `Vectors.EqualExactlyWithinTolerance` | vector.go:107-111 | With equal lengths, one component pair more than 1e-8 apart makes the vectors unequal, and equal vectors differ by at most 1e-8 in every component. |
| `Vectors.Add` | vector.go:51-63 | The sum keeps the receiver's length. Its component i is the receiver's plus the sum of the addends' components at i, where a missing component counts as 0. |
| `Vectors.Sub` | vector.go:71-83 | The difference keeps the receiver's length. Its component i is the receiver's minus the sum of the addends' components at i. |
| `Vectors.AddOne` | vector.go:55-59 | No contract of its own; one pass of Add's loop, with the addend cut to the receiver's length. Its effect is stated by the closed form of `Vectors.Add` and by `AddDropsExtraComponents`. |
| `Vectors.SubOne` | vector.go:75-79 | No contract of its own; one pass of Sub's loop. Its effect is stated by the closed form of `Vectors.Sub`. |
| `Vectors.AddDropsExtraComponents` | vector.go:55-59 | Cutting every addend to the receiver's length changes neither Add nor Sub. |
| `Vectors.AddInArgumentOrder` | vector.go:54-60 | Adding `vs + ws` is adding `vs`, then adding `ws` to that result. |
| `Vectors.AddThenSubIsIdentity` | vector.go:46-83 | Sub with the same addends undoes Add. |
| `Vectors.AddNegationIsZero` | vector.go:51-94 | Adding the receiver scaled by -1 gives the zero vector of its length. |
| `Vectors.SubIsAddOfNegation` | vector.go:51-94 | Subtracting w is the same as adding w scaled by -1. |
| `Vectors.AddTruncatesExample` | vector.go:55-56 | `[1,2,3] + [1,2,3,4,5]` is `[2,4,6]`. |
| `Vectors.Scale` | vector.go:91-94 | No contract of its own; every component multiplied by the factor. Stated by `ScaleComposes`, `DotScale` and `UnitIsScale`. |
| `Vectors.ScaleComposes` | vector.go:91-94 | Scaling by a and then by b is scaling by b·a. Scaling by 1 is the identity. |
| `Vectors.Dot` | vector.go:153-169 | No contract of its own; both arguments zero-padded to the longer length, then the products summed. Stated by `DotIsCommonPrefixSum`, `DotSymmetric`, `DotWithEmpty`, `DotPadsExample` and `DotScale`. |
| `Vectors.DotIsCommonPrefixSum` | vector.go:153-169 | Because of the zero padding, Dot is the sum of products over the common prefix of the two arguments. |
| `Vectors.DotSymmetric` | vector.go:153-169 | Dot is symmetric. |
| `Vectors.DotWithEmpty` | vector.go:153-169 | Dot with an empty argument is 0. |
| `Vectors.DotPadsExample` | vector.go:156-162 | `Dot([1,2],[1,2,3])` is 5: the shorter argument is padded, not the longer one cut. |
| `Vectors.DotScale` | vector.go:153-169 | Scaling one argument by k scales the dot product by k. |
| `Vectors.Magnitude` | vector.go:122-130 | No contract of its own; sqrt of the sum of squares. Stated by `MagnitudeIsSqrtOfDot`. |
| `Vectors.MagnitudeIsSqrtOfDot` | vector.go:122-130 | Magnitude is sqrt of the dot product of the vector with itself. With an exact sqrt it is non-negative, it squares to that dot product, and it is 0 for the empty vector. |
| `Vectors.Unit` | vector.go:138-150 | The result has the length of its argument. Its values are stated by `UnitIsScale`, `UnitHasMagnitudeOne` and `UnitOfNegation`. |
| `Vectors.UnitIsScale` | vector.go:138-150 | Below the 1e-8 magnitude threshold Unit returns the vector unchanged. Otherwise it returns the vector scaled by 1/magnitude. |
| `Vectors.UnitHasMagnitudeOne` | vector.go:138-150 | With an exact sqrt, Unit of a vector whose magnitude is at least 1e-8 has magnitude exactly 1. |
| `Vectors.UnitOfNegation` | vector.go:138-150 | Unit of the negated vector is the negated Unit. |
| `Geometry.Cross` | vector.go:182-191 | No contract of its own; ErrNot3Dimensional or the three component formulas. Stated by `CrossDefinedOnlyInThreeDimensions`, `CrossAntisymmetric`, `CrossPerpendicular` and `CrossExample`. |
| `Geometry.CrossDefinedOnlyInThreeDimensions` | vector.go:182-191 | Cross fails exactly when an argument's length is not 3, and the error is ErrNot3Dimensional. On success the result has length 3. |
| `Geometry.CrossAntisymmetric` | vector.go:187-191 | Swapping the arguments negates the cross product. |
| `Geometry.CrossPerpendicular` | vector.go:187-191 | The cross product has dot product 0 with both arguments. |
| `Geometry.CrossExample` | vector.go:182-191 | x × y = z, and two 2-dimensional vectors give ErrNot3Dimensional. |
| `Geometry.Extend` | vector.go:227-233 | The appends give length max(len, 2) for Z and max(len, 3) for X and Y, and the new entries are zeros. |
| `Geometry.FirstAxis` | vector.go:223-225 | No contract of its own; the first axis passed, Z when none is. Stated by `RotateUsesFirstAxis`. |
| `Geometry.Turn` | vector.go:239-251 | The switch of Rotate keeps the length, the coordinate on the axis and every entry past index 2. `TurnKeepsSumOfSquares` states that it keeps the sum of squares. |
| `Geometry.Rotate` | vector.go:216-258 | No contract of its own; an empty vector is returned as it is, otherwise the vector is extended, turned and cut to three entries. Stated by `RotateShape`, `RotateUsesFirstAxis`, `RotateKeepsAxisCoordinate`, `RotateByZero`, `RotatePreservesSumOfSquares` and `RotateQuarterTurnExample`. |
| `Geometry.RotateShape` | vector.go:216-258 | An empty vector stays empty. Otherwise the result has length min(3, max(len, 2)) about Z and min(3, max(len, 3)) about X or Y. |
| `Geometry.RotateUsesFirstAxis` | vector.go:217-225 | Only the first axis passed counts, and passing none means Z. |
| `Geometry.RotateKeepsAxisCoordinate` | vector.go:239-251 | The coordinate on the rotation axis keeps the receiver's value, or 0 if the receiver had no such component. |
| `Geometry.RotateByZero` | vector.go:216-258 | A turn with cos 1 and sin 0 only zero-extends the vector and cuts it to three components. |
| `Geometry.RotatePreservesSumOfSquares` | vector.go:235-257 | When cos² + sin² = 1, the result's sum of squares equals that of the components kept (the first three). |
| `Geometry.TurnKeepsSumOfSquares` | vector.go:239-251 | Each case of the switch is a plane rotation: it keeps the sum of squares when cos² + sin² = 1. |
| `Geometry.RotateQuarterTurnExample` | vector.go:248-250 | A quarter turn about Z takes [1, 0] to [0, 1]. |
| `Geometry.Angle` | vector.go:274-301 | No contract of its own; the dimension dispatch. Its cases are stated by `AngleFailsOnlyOnDifferentDimensions`, `AngleInLowDimensions`, `AngleInTwoDimensions`, `AngleInThreeDimensions`, `AngleAboveThreeDimensions` and `AngleExamples`. |
| `Geometry.AngleFailsOnlyOnDifferentDimensions` | vector.go:280-282 | There is an error exactly when the lengths differ. It is ErrNotSameDimensions, with angle 0 and an empty, non-nil axis. |
| `Geometry.AngleInLowDimensions` | vector.go:284-291 | In 0 and 1 dimensions the axis is empty and there is no error. In 0 dimensions the angle is 0. In 1 dimension it is π exactly when the signs are strictly opposite, and 0 otherwise. |
| `Geometry.AngleInTwoDimensions` | vector.go:292-293 | In 2 dimensions the axis is [0, 0, 1], and swapping the arguments negates the angle. |
| `Geometry.AngleInThreeDimensions` | vector.go:296-300 | In 3 dimensions the axis is a 3-dimensional vector perpendicular to both arguments. Swapping the arguments keeps the angle and negates the axis. |
| `Geometry.AngleAboveThreeDimensions` | vector.go:296-300 | Above 3 dimensions the axis is nil and there is no error, because the ignored Cross call fails. |
| `Geometry.AngleExamples` | vector.go:265-302 | The angle from x to y in 2 dimensions is π/2 about [0, 0, 1]. Lengths 2 and 3 give ErrNotSameDimensions. |
| `Text.Token` | vector.go:311-315 | No contract of its own; how one component prints. Stated by `TokenSuppressesOnlyTinyPositives`. |
| `Text.StringAsWritten` | vector.go:305-320 | No contract of its own; String as written, with None standing for the panic. Stated by `StringAsWrittenPanicsOnlyOnEmpty`. |
| `Text.Render` | vector.go:305-320 | No contract of its own; String with the empty vector printed as "[]". Stated by `RenderIsBracketed`, `StringAsWrittenPanicsOnlyOnEmpty` and `RenderExample`. |
| `Text.Terms` | vector.go:310-317 | The loop's output has at least one character per component and ends in a space. |
| `Text.TermsAreJoinedThenSpace` | vector.go:310-319 | The loop's output is the tokens joined by single spaces, plus one trailing space, which the final slice drops. |
| `Text.StringAsWrittenPanicsOnlyOnEmpty` | vector.go:305-320 | As written, String panics exactly on the non-nil empty vector, and on every other input it agrees with `Text.Render`. |
| `Text.RenderIsBracketed` | vector.go:305-320 | The text is bracketed. Nil and empty vectors give "[]". |
| `Text.TokenSuppressesOnlyTinyPositives` | vector.go:311-315 | A component strictly between 0 and 1e-8 prints as "0". Every other component prints as `fmt.Sprint` prints it. |
| `Text.JoinedSeparatesBySingleSpaces` | vector.go:310-319 | When no printed number holds a space, n components give exactly n - 1 spaces. |
| `Text.RenderExample` | vector.go:305-320 | `[1e-9, -1e-9, 1]` prints as `[0 <-1e-9> <1>]`: only the tiny positive entry is suppressed. |
| `Receivers.Axpy` | vector.go:56-58 | No contract of its own; the meaning assumed for `axpyUnitaryTo` (see Assumptions). It is the specification of `Receivers.AxpyUnitaryTo`. |
| `Receivers.Scal` | vector.go:92 | No contract of its own; the meaning assumed for `scalUnitaryTo`. It is the specification of `Receivers.ScalUnitaryTo`. |
| `Receivers.AxpyUnitaryTo` | vector.go:56-58 | The array becomes `Axpy` of its old contents: `alpha*x[i] + y[i]` below the shorter length, unchanged beyond it. |
| `Receivers.ScalUnitaryTo` | vector.go:92 | The array becomes `Scal` of its old contents: `alpha*x[i]` for every index of x. |
| `Receivers.Clone` | vector.go:39-43 | A fresh array holding the receiver's entries. |
| `Receivers.Add` | vector.go:51-63 | The receiver is updated in place to `Vectors.Add` of its old value, and the receiver itself is returned. |
| `Receivers.Sub` | vector.go:71-83 | The receiver is updated in place to `Vectors.Sub` of its old value, and the receiver itself is returned. |
| `Receivers.Scale` | vector.go:91-94 | The receiver is updated in place to its old value scaled by `size`, and the receiver itself is returned. |
| `Receivers.Equal` | vector.go:102-114 | The early-return loop returns exactly `Vectors.Equal`. |
| `Receivers.Magnitude` | vector.go:122-130 | The accumulating loop returns sqrt of the sum of squares. |
| `Receivers.Unit` | vector.go:138-150 | The receiver is updated in place to `Vectors.Unit` of its old value, and the receiver itself is returned. |
| `Receivers.Append` | vector.go:228-232 | `append` without spare capacity: a fresh array holding the old entries followed by the new ones. |
| `Receivers.ExtendForAxis` | vector.go:227-233 | Returns the receiver itself when no extension is needed, otherwise a fresh longer array. Either way it holds `Geometry.Extend` of the receiver. |
| `Receivers.TurnInPlace` | vector.go:235-251 | The two coordinates other than the axis are turned in place, giving `Geometry.Turn` of the old contents. |
| `Receivers.TurnAboutX` | vector.go:240-243 | The X case of the switch: the Y and Z entries are turned in place, giving `Geometry.Turn` about X of the old contents. |
| `Receivers.TurnAboutY` | vector.go:244-247 | The Y case: the X and Z entries are turned in place, giving `Geometry.Turn` about Y. |
| `Receivers.TurnAboutZ` | vector.go:248-250 | The Z case: the X and Y entries are turned in place, giving `Geometry.Turn` about Z. |
| `Receivers.Rotate` | vector.go:216-258 | The result holds `Geometry.Rotate` of the old receiver. If the receiver had to be extended, it is untouched and the result is a fresh array. If it is longer than 3, its first three entries are turned in place and returned in a fresh array, and its remaining entries are untouched. Otherwise the receiver itself is returned. |
| `Receivers.String` | vector.go:305-320 | The loop's text is `Text.Render`, the corrected rendering described under Findings. |
| `FreeFunctions.Clone` | vector.go:34-36 | A fresh array with the argument's entries. |
| `FreeFunctions.Add` | vector.go:46-48 | A fresh array holding `Vectors.Add` of the argument. The argument is not in any modifies clause, so it is unchanged. |
| `FreeFunctions.Sub` | vector.go:66-68 | A fresh array holding `Vectors.Sub` of the argument. The argument is unchanged. |
| `FreeFunctions.Scale` | vector.go:86-88 | A fresh array holding the scaled argument. The argument is unchanged. |
| `FreeFunctions.Unit` | vector.go:133-135 | A fresh array holding `Vectors.Unit` of the argument. The argument is unchanged. |
| `FreeFunctions.Rotate` | vector.go:203-205 | A fresh array holding `Geometry.Rotate` of the argument. The argument is unchanged. |
| `FreeFunctions.Dot` | vector.go:153-169 | The padding loop returns exactly `Vectors.Dot`, the zero-padded sum of products. |

## Left out

- Floating point. Rounding, overflow, NaN and infinities are not modelled: arithmetic is exact on `real`.
- The accuracy of `math.Sqrt`, `math.Cos`, `math.Sin`, `math.Atan2` and `math.Acos`. They are abstract parameters, and facts about them appear only in lemma preconditions.
- The digits `fmt.Sprint` prints for one float. It is the parameter `sprint`; only the structure around the numbers is modelled.
- Receivers.Add and Receivers.Sub: the addends are passed as values (`seq<seq<real>>`), so an addend that shares storage with the receiver is not modelled. In Go such an addend is read after earlier addends have already written into the receiver: `v := Vector{1}; v.Add(v, v)` gives [4], where the model gives [3]. The free Add and Sub are unaffected, because they clone the receiver first.
- Receivers.Sub: for the same reason, `v.Sub(w, v)` with v = [5] and w = [1] gives [0] in Go, where the model gives [-1].
- Slice aliasing and capacity. Whether `append` writes into a shared backing array (Dot's padding, Rotate's extension) depends on capacity at run time. The model always allocates a new array for an extension and never changes Dot's arguments.
- Rotate's `v[:3]` result. Go returns a view that shares storage with the receiver; the model returns a fresh 3-entry copy and states that the receiver's first three entries equal it.
- Axis values other than X, Y and Z. The Go switch does nothing for them, and the model's `Axis` type has only the three constants.
- `axpyUnitaryTo` and `scalUnitaryTo`. Their bodies are not part of this model; the meaning given under Assumptions is an assumption.
- The free `Equal`, `Magnitude`, `Cross` and `Angle`, and the method `Dot`. Each only calls its counterpart. The modelled operations are `Receivers.Equal`, `Receivers.Magnitude`, `Geometry.Cross`, `Geometry.Angle` and `FreeFunctions.Dot`.
- The method forms of Cross and Angle. They build new values without changing the receiver, so they are modelled as the functions `Geometry.Cross` and `Geometry.Angle`.
- Receivers.String: for a non-nil empty vector it returns the corrected "[]", where the Go code panics (see Findings). `Text.StringAsWritten` models the panic.

## Findings

| source | as written | input that shows it | evidently intended | confidence | as-written member | corrected member |
|---|---|---|---|---|---|---|
| vector.go:319 | `str[:len(str)-1]` cuts the trailing space without checking that the loop printed anything | a non-nil empty vector, `Vector{}.String()`: `str` is "" and the slice bound is -1, a run-time panic | print "[]", as for the nil vector | high (not executed) | `Text.StringAsWrittenPanicsOnlyOnEmpty` | `Text.RenderIsBracketed` |

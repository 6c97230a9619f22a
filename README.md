# Ball2: the Euclidean-ball constraint of opengen

This project models `Ball2`, the Euclidean-ball constraint of the opengen
code generator, in Dafny, and proves properties of the model. A `Ball2` is
the set of points `u` with `||u - center|| <= radius`. A missing center
means the origin. The constructor checks its arguments and stores a fresh
array of floats for the center, and no method of the class writes the
stored fields again. It offers two operations:

- `distance_squared(u)` classifies `u` as a CasADi symbol, a list of
  numbers or an ndarray, and rejects anything else. It forms the offset
  `v` (`u` itself, or `u - center`) and returns `max(0, sign(t) * t**2)`
  for `t = ||v|| - radius`.
- `project(u)` always raises `NotImplementedError`.

Files:

- `wrappers.dfy`, module `Wrappers`: `Option` and `Result`.
- `kernel.dfy`, module `Kernel`: sign, max, square, sum of squares, the
  Euclidean-norm relation and elementwise subtraction. These are the
  real-valued operations behind `cs.sign`/`np.sign`, `cs.fmax`/`np.fmax`
  and `cs.norm_2`/`np.linalg.norm`.
- `ball2.dfy`, module `Ball2`: the constructor, the type dispatch, the
  offset, the distance formula, `project`, and the lemmas about them.
- `scenarios.dfy`, module `Ball2Scenarios`: concrete balls and points.

Modelling choices:

- Every operation is a pure function. The ball is a datatype because its
  two fields are written only by the constructor. The `center` property
  hands out the stored array itself, so a caller can still change the
  center in place; see "Left out".
- Raised exceptions become `Err` values of type `Error`. The code raises
  a plain `Exception` for both constructor errors and for a bad input
  type, so the model gives each case its own `Error` constructor. Each
  constructor carries the code's message (`Error.Message`).
- The Euclidean norm is a call into CasADi or numpy. Dafny's `real` has no
  square root, so `DistanceSquared` takes the norm as a parameter
  `norm: seq<real> -> real`. The lemmas that need the true norm require
  `IsEuclideanNorm(norm(v), v)` for the one offset `v` they use, that is
  `norm(v) >= 0` and `norm(v)^2 == SumSq(v)`. `NormUnique` shows that this
  fixes the value, so no lemma depends on which such norm is passed.
- A CasADi symbol is modelled by the vector of reals it stands for. Its
  result is a `Scalar` tagged `SymbolicDomain`.
- `Square(x)` is written as `x * Id(x)`. This is the same value as `x * x`,
  but the solver treats it as an ordinary product of two terms.
- Python's `bool` is a subclass of `int`, so `isinstance(True, int)` holds.
  `IntElem` therefore covers booleans too.
- Calling `float(i)` on a list element that is not a number raises an
  exception. This is a constructor error the code has but does not name;
  the model calls it `CenterElementNotFloat`.

## Model

| member | source | states |
|---|---|---|
| `Kernel.Sign` | open-codegen/opengen/constraints/ball2.py:59-66 | the sign is -1, 0 or 1 and is positive or negative exactly when its argument is |
| `Kernel.FMax` | open-codegen/opengen/constraints/ball2.py:60-68 | the result is at least both arguments and equals one of them |
| `Kernel.SumSq` | open-codegen/opengen/constraints/ball2.py:61-67 | the squared norm is never negative |
| `Kernel.Subtract` | open-codegen/opengen/constraints/ball2.py:73-75 | `u - center` has the dimension of `u` and coordinate `i` is `u[i] - center[i]` |
| `Kernel.NormUnique` | open-codegen/opengen/constraints/ball2.py:61-67 | two values that are both a Euclidean norm of one vector are equal |
| `Kernel.SumSqZeroIff` | open-codegen/opengen/constraints/ball2.py:61-67 | the squared norm is zero exactly when every coordinate is zero |
| `Kernel.NormZeroIff` | open-codegen/opengen/constraints/ball2.py:61-67 | the norm is zero exactly for the zero vector |
| `Kernel.NormWithinIff` | open-codegen/opengen/constraints/ball2.py:90 | for a positive radius, `norm(v) <= r` exactly when `SumSq(v) <= r^2` |
| `Ball2.Error.Message` | open-codegen/opengen/constraints/ball2.py:27-97 | every error carries a non-empty message except `NotImplemented`, which `project` raises without one |
| `Ball2.Numbers` | open-codegen/opengen/constraints/ball2.py:33 | `[float(i) for i in items]` succeeds exactly when every element is an int or a float; it then has the same length and coordinate `i` is the value of element `i` |
| `Ball2.NewBall` | open-codegen/opengen/constraints/ball2.py:26-44 | succeeds exactly when radius > 0 and the center is None, an ndarray or a list of numbers; a non-positive radius is reported first, then a center of another type, then a list element `float` rejects; on success the ball is valid, keeps the given radius, has no center exactly when none was given, and stores a given center elementwise with the same length |
| `Ball2.Classify` | open-codegen/opengen/constraints/ball2.py:57-77 | accepts exactly a symbol, an ndarray, or a list whose every element is an int or float; anything else is `InvalidInputType`; the domain is symbolic only for a symbol; the coordinates are the input's own values |
| `Ball2.Offset` | open-codegen/opengen/constraints/ball2.py:62-75 | without a center the offset is the point itself (no zero vector is built); with one it is `x - center` elementwise, of the same length |
| `Ball2.Penalty` | open-codegen/opengen/constraints/ball2.py:80-91 | `max(0, sign(t) * t^2)` is non-negative and equals `(max(0, t))^2` for every real `t` |
| `Ball2.DistanceSquared` | open-codegen/opengen/constraints/ball2.py:46-91 | returns a value exactly for accepted inputs, otherwise `InvalidInputType`; the value is in the input's domain, is non-negative, and is the square of the positive part of `norm(offset) - radius` |
| `Ball2.Project` | open-codegen/opengen/constraints/ball2.py:93-97 | fails with `NotImplemented` for every ball and input; it never returns a point |
| `Ball2.PenaltyMonotone` | open-codegen/opengen/constraints/ball2.py:82-83 | a larger excess never gives a smaller squared distance |
| `Ball2.PenaltyNearBoundary` | open-codegen/opengen/constraints/ball2.py:82-83 | an excess within `eps` of the boundary gives at most `eps^2`, so the value is continuous across the boundary |
| `Ball2.ZeroIffWithin` | open-codegen/opengen/constraints/ball2.py:80-91 | with the Euclidean norm, the squared distance is 0 exactly when `norm(offset) <= radius`, and equally when the squared offset is at most `radius^2`, boundary included |
| `Ball2.BeyondBoundary` | open-codegen/opengen/constraints/ball2.py:80-91 | when `norm(offset) = radius + d` with `d > 0`, the squared distance is `d^2` |
| `Ball2.AtCenterIsZero` | open-codegen/opengen/constraints/ball2.py:69-91 | a point equal to the center has squared distance 0 in its own domain |
| `Ball2.NormChoiceIrrelevant` | open-codegen/opengen/constraints/ball2.py:57-68 | any two Euclidean norms give the same result for the same input |
| `Ball2.CrossDomainConsistent` | open-codegen/opengen/constraints/ball2.py:57-91 | a symbol and an ndarray with the same coordinates get the same squared distance, one tagged symbolic and the other numeric |
| `Ball2.NoCenterIsOrigin` | open-codegen/opengen/constraints/ball2.py:18-19 | a ball without a center gives the same result as the ball centered at the zero vector of the input's dimension |
| `Ball2Scenarios.OriginInUnitBall` | open-codegen/opengen/constraints/ball2.py:46-91 | `Ball2(None, 1.0)` is built, and `[0, 0]` has squared distance `0.0` |
| `Ball2Scenarios.OneBeyondUnitBall` | open-codegen/opengen/constraints/ball2.py:46-91 | `[2, 0]` has squared distance `1.0` to `Ball2(None, 1.0)` |
| `Ball2Scenarios.CenterOfShiftedBall` | open-codegen/opengen/constraints/ball2.py:26-91 | `Ball2([1, 1], 2.0)` stores center `[1.0, 1.0]`, and `[1, 1]` has squared distance `0.0` |
| `Ball2Scenarios.InsideCenteredUnitBall` | open-codegen/opengen/constraints/ball2.py:46-91 | `Ball2([0, 0], 1.0)` stores center `[0.0, 0.0]`, and `[0.5, 0]` has squared distance `0.0` to it |
| `Ball2Scenarios.Rejections` | open-codegen/opengen/constraints/ball2.py:26-97 | radius `-1.0`, a center of another type, a center list with a non-number, a point list with a non-number, and any `project` call are each rejected with their own error |

## Left out

- Floating point: the model computes over exact reals. IEEE rounding, NaN,
  infinities and how `np.fmax` treats NaN are not modelled. Nor is the
  range of `float`: `float(i)` at `ball2.py:33` raises `OverflowError` for
  an int beyond the float range (such as `10**400`), while the model's
  `NewBall` accepts such a center element and stores its exact value.
- The norm functions `cs.norm_2` and `np.linalg.norm` are foreign calls.
  `DistanceSquared` takes the norm as a parameter, and the lemmas require
  it to be the Euclidean norm only at the offset they use.
- The symbolic expression graph: a CasADi result is modelled by the value
  it denotes. How the graph and its Jacobian are shaped is not modelled;
  the comment at `ball2.py:85-89` is about exactly that.
- Inputs whose dimension differs from the center's: the model requires
  equal dimensions (`DimensionsMatch`). What the code does otherwise is not
  modelled, neither numpy's failing `reshape` nor CasADi broadcasting a
  scalar symbol against the whole center.
- The column-vector reshape at `ball2.py:73-74` is not modelled. The norm
  of an `n x 1` matrix is the Euclidean norm of its entries, so it does
  not change the value.
- The ndarray is modelled as one-dimensional with real entries.
  Multi-dimensional arrays and arrays of non-numeric dtype are not modelled.
- `float(x)` also accepts numeric strings such as `"1.5"`. The model
  treats every element that is not an int or a float (`OtherElem`) as one
  that `float` rejects.
- `float` reports its failure with a message that depends on the value.
  `Error.Message` gives a fixed text for `CenterElementNotFloat`.
- The exception classes: the code raises a plain `Exception` and
  `NotImplementedError`. The model distinguishes errors only by its
  `Error` constructors.
- `Ball2.DistanceSquared`: the model does not prove that the value
  outside the ball is the squared distance to the nearest point of the
  ball. It proves only that the value is `(||v|| - radius)^2`, which is
  that distance by the geometry of the ball.
- Aliasing of the center: the `center` property at `ball2.py:36-39`
  returns the stored ndarray, not a copy. Writing into it (say
  `b.center[0] = 5.0`) changes the center that later `distance_squared`
  calls use at `ball2.py:73`. The model's `Ball` is an immutable value and
  does not capture this in-place update.
- The `Constraint` base class (`opengen/constraints/constraint.py`) is
  not part of this model.
- `opengen/definitions.py` only locates template directories on disk, and
  is not part of this model.

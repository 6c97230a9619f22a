/**
  The Euclidean ball constraint `Ball2`: the set of points `u` with
  `||u - center|| <= radius`, where an absent center means the origin.
  A ball is built once by a validating constructor and never changes;
  its operations are the squared distance of a point to the ball and the
  (unimplemented) projection onto it.
 */
module Ball2 {
  import opened Wrappers
  import opened Kernel

  /**
    One element of a Python list as the type checks see it: an `int`
    (a `bool` is one too), a `float`, or a value of any other type.
   */
  datatype Elem = IntElem(i: int) | FloatElem(f: real) | OtherElem
  {
    /** `isinstance(x, (int, float))`, which is also what `float(x)` accepts here. */
    predicate IsNumber()
    {
      !OtherElem?
    }

    /** The value `float(x)` of a number. */
    function Value(): real
      requires IsNumber()
    {
      match this
      case IntElem(i) => i as real
      case FloatElem(f) => f
    }
  }

  /** The `center` argument of the constructor. */
  datatype CenterArg =
    | NoCenter                      // None
    | ListCenter(items: seq<Elem>)  // a list
    | ArrayCenter(data: seq<real>)  // a one-dimensional np.ndarray
    | OtherCenter                   // anything else

  /** The point `u` given to distance_squared. */
  datatype Input =
    | Symbolic(sx: seq<real>)       // a CasADi SX vector, by the values it stands for
    | NumList(items: seq<Elem>)     // a list
    | NdArray(data: seq<real>)      // a one-dimensional np.ndarray
    | Other                         // anything else

  /** The evaluation domain whose sign, max and norm are used. */
  datatype Domain = SymbolicDomain | NumericDomain

  /** A point classified by domain, with its coordinates. */
  datatype Point = Point(domain: Domain, coords: seq<real>)

  /** A scalar result: a float, or a CasADi expression standing for `value`. */
  datatype Scalar = Scalar(domain: Domain, value: real)

  /** The exceptions the constraint raises. */
  datatype Error =
    | RadiusNotPositive
    | CenterInvalidType
    | CenterElementNotFloat
    | InvalidInputType
    | NotImplemented
  {
    /**
      The message the raised exception carries; only `project`'s
      `NotImplementedError` is raised without one.
     */
    function Message(): (m: string)
      ensures |m| == 0 <==> this == NotImplemented
    {
      match this
      case RadiusNotPositive => "The radius must be a positive number"
      case CenterInvalidType => "center is neither None nor a list nor np.ndarray"
      case CenterElementNotFloat => "could not convert an element of center to float"
      case InvalidInputType => "u is of invalid type"
      case NotImplemented => ""
    }
  }

  /** A constructed ball: its `center` and `radius` properties. */
  datatype Ball = Ball(center: Option<seq<real>>, radius: real)
  {
    /** The invariant every constructed ball keeps. */
    predicate Valid()
    {
      radius > 0.0
    }
  }

  // ---------------------------------------------------------------------
  // Construction

  /** The list comprehension `[float(i) for i in items]`: None when some element is not a number. */
  function Numbers(items: seq<Elem>): (r: Option<seq<real>>)
    ensures r.Some? <==> forall i :: 0 <= i < |items| ==> items[i].IsNumber()
    ensures r.Some? ==> |r.value| == |items|
    ensures r.Some? ==> forall i :: 0 <= i < |items| ==> r.value[i] == items[i].Value()
  {
    if items == [] then Some([])
    else if !items[0].IsNumber() then None
    else
      match Numbers(items[1..])
      case None => None
      case Some(rest) => Some([items[0].Value()] + rest)
  }

  /** The centers the constructor accepts. */
  predicate CenterAccepted(center: CenterArg)
  {
    match center
    case NoCenter => true
    case ListCenter(items) => forall i :: 0 <= i < |items| ==> items[i].IsNumber()
    case ArrayCenter(_) => true
    case OtherCenter => false
  }

  /** `Ball2(center, radius)`: validates the arguments and stores them. */
  function NewBall(center: CenterArg, radius: real): (r: Result<Ball, Error>)
    ensures r.Ok? <==> radius > 0.0 && CenterAccepted(center)
    ensures radius <= 0.0 ==> r == Err(RadiusNotPositive)
    ensures radius > 0.0 && center.OtherCenter? ==> r == Err(CenterInvalidType)
    ensures radius > 0.0 && center.ListCenter? && !CenterAccepted(center) ==> r == Err(CenterElementNotFloat)
    ensures r.Ok? ==> r.value.Valid() && r.value.radius == radius
    ensures r.Ok? ==> (r.value.center.None? <==> center.NoCenter?)
    ensures r.Ok? && center.ArrayCenter? ==> r.value.center == Some(center.data)
    ensures r.Ok? && center.ListCenter? ==>
              && r.value.center.Some?
              && |r.value.center.value| == |center.items|
              && forall i :: 0 <= i < |center.items| ==> r.value.center.value[i] == center.items[i].Value()
  {
    if radius <= 0.0 then Err(RadiusNotPositive)
    else
      match center
      case NoCenter => Ok(Ball(None, radius))
      case OtherCenter => Err(CenterInvalidType)
      case ArrayCenter(data) => Ok(Ball(Some(data), radius))
      case ListCenter(items) =>
        (match Numbers(items)
         case None => Err(CenterElementNotFloat)
         case Some(c) => Ok(Ball(Some(c), radius)))
  }

  // ---------------------------------------------------------------------
  // Squared distance

  /** The inputs distance_squared accepts: a symbol, a list of numbers, or an ndarray. */
  predicate Accepted(u: Input)
  {
    || u.Symbolic?
    || u.NdArray?
    || (u.NumList? && forall i :: 0 <= i < |u.items| ==> u.items[i].IsNumber())
  }

  /** The domain an input is evaluated in. */
  function DomainOf(u: Input): Domain
  {
    if u.Symbolic? then SymbolicDomain else NumericDomain
  }

  /** The type dispatch of distance_squared: the domain and coordinates of `u`, or the type error. */
  function Classify(u: Input): (r: Result<Point, Error>)
    ensures r.Ok? <==> Accepted(u)
    ensures r.Err? ==> r.error == InvalidInputType
    ensures r.Ok? ==> r.value.domain == DomainOf(u)
    ensures u.Symbolic? ==> r.value.coords == u.sx
    ensures u.NdArray? ==> r.value.coords == u.data
    ensures r.Ok? && u.NumList? ==>
              && |r.value.coords| == |u.items|
              && forall i :: 0 <= i < |u.items| ==> r.value.coords[i] == u.items[i].Value()
  {
    match u
    case Symbolic(sx) => Ok(Point(SymbolicDomain, sx))
    case NumList(items) =>
      (match Numbers(items)
       case Some(x) => Ok(Point(NumericDomain, x))
       case None => Err(InvalidInputType))
    case NdArray(data) => Ok(Point(NumericDomain, data))
    case Other => Err(InvalidInputType)
  }

  /**
    The caller's obligation that an accepted point has the dimension of
    the center, when there is one.
   */
  predicate DimensionsMatch(b: Ball, u: Input)
  {
    match Classify(u)
    case Ok(p) => b.center.None? || |p.coords| == |b.center.value|
    case Err(_) => true
  }

  /** The offset `v`: the point itself without a center, `x - center` with one. */
  function Offset(center: Option<seq<real>>, x: seq<real>): (v: seq<real>)
    requires center.Some? ==> |x| == |center.value|
    ensures center.None? ==> v == x
    ensures center.Some? ==> |v| == |x|
    ensures center.Some? ==> forall i :: 0 <= i < |x| ==> v[i] == x[i] - center.value[i]
  {
    if center.None? then x else Subtract(x, center.value)
  }

  /** The offset of an accepted point from the center of `b`. */
  function OffsetOf(b: Ball, u: Input): seq<real>
    requires Accepted(u) && DimensionsMatch(b, u)
  {
    Offset(b.center, Classify(u).value.coords)
  }

  /**
    The formula `max(0, sign(t) * t ** 2)` of the excess `t`: it is the
    square of the positive part of `t`.
   */
  function Penalty(t: real): (d: real)
    ensures d >= 0.0
    ensures d == Square(FMax(0.0, t))
  {
    SquareNonNegative(t);
    FMax(0.0, Sign(t) * Square(t))
  }

  /**
    `distance_squared(u)`: classify `u`, form the offset `v`, and apply
    Penalty to `t = norm(v) - radius`. The norm (`cs.norm_2` or
    `np.linalg.norm`) is the parameter `norm`.
   */
  function DistanceSquared(b: Ball, u: Input, norm: seq<real> -> real): (r: Result<Scalar, Error>)
    requires DimensionsMatch(b, u)
    ensures r.Ok? <==> Accepted(u)
    ensures r.Err? ==> r.error == InvalidInputType
    ensures r.Ok? ==> r.value.domain == DomainOf(u)
    ensures r.Ok? ==> r.value.value >= 0.0
    ensures r.Ok? ==> r.value.value == Square(FMax(0.0, norm(OffsetOf(b, u)) - b.radius))
  {
    match Classify(u)
    case Err(e) => Err(e)
    case Ok(p) =>
      var v := Offset(b.center, p.coords);
      var t := norm(v) - b.radius;
      Ok(Scalar(p.domain, Penalty(t)))
  }

  // ---------------------------------------------------------------------
  // Projection

  /** `project(u)`: not implemented for the ball; it always raises. */
  function Project(b: Ball, u: Input): (r: Result<seq<real>, Error>)
    ensures r.Err? && r.error == NotImplemented
  {
    Err(NotImplemented)
  }

  // ---------------------------------------------------------------------
  // Properties of the squared distance

  /** The penalty never decreases as the excess grows. */
  lemma PenaltyMonotone(s: real, t: real)
    requires s <= t
    ensures Penalty(s) <= Penalty(t)
  {
    if 0.0 < s < t {
      SquareGap(s, t);
    }
  }

  /**
    Continuity across the boundary `t = 0`: an excess within `eps` of the
    boundary costs at most `eps ** 2`.
   */
  lemma PenaltyNearBoundary(t: real, eps: real)
    requires -eps <= t <= eps
    ensures Penalty(t) <= Square(eps)
  {
    SquareNonNegative(eps);
    if t <= 0.0 {
      assert FMax(0.0, t) == 0.0;
    } else {
      assert FMax(0.0, t) == t;
      if t < eps {
        SquareGap(t, eps);
      }
    }
  }

  /**
    With the true Euclidean norm, the squared distance is zero exactly
    when `||u - center|| <= radius`, equivalently `||u - center||^2 <= radius^2`:
    inside the ball or on its boundary.
   */
  lemma ZeroIffWithin(b: Ball, u: Input, norm: seq<real> -> real)
    requires b.Valid() && Accepted(u) && DimensionsMatch(b, u)
    requires IsEuclideanNorm(norm(OffsetOf(b, u)), OffsetOf(b, u))
    ensures DistanceSquared(b, u, norm).value.value == 0.0 <==> SumSq(OffsetOf(b, u)) <= Square(b.radius)
    ensures DistanceSquared(b, u, norm).value.value == 0.0 <==> norm(OffsetOf(b, u)) <= b.radius
  {
    var v := OffsetOf(b, u);
    NormWithinIff(norm(v), v, b.radius);
    var t := norm(v) - b.radius;
    if t > 0.0 {
      SquarePositive(t);
    }
  }

  /** At distance `radius + d` from the center, `d > 0`, the squared distance is `d ** 2`. */
  lemma BeyondBoundary(b: Ball, u: Input, norm: seq<real> -> real, d: real)
    requires Accepted(u) && DimensionsMatch(b, u)
    requires d > 0.0 && norm(OffsetOf(b, u)) == b.radius + d
    ensures DistanceSquared(b, u, norm).value.value == Square(d)
  {
  }

  /** The center itself is in the ball: its squared distance is zero. */
  lemma AtCenterIsZero(b: Ball, u: Input, norm: seq<real> -> real)
    requires b.Valid() && b.center.Some? && Accepted(u) && DimensionsMatch(b, u)
    requires Classify(u).value.coords == b.center.value
    requires IsEuclideanNorm(norm(OffsetOf(b, u)), OffsetOf(b, u))
    ensures DistanceSquared(b, u, norm) == Ok(Scalar(DomainOf(u), 0.0))
  {
    var v := OffsetOf(b, u);
    NormZeroIff(norm(v), v);
    assert norm(v) == 0.0;
    assert Square(FMax(0.0, 0.0 - b.radius)) == 0.0;
  }

  /**
    Any two correct implementations of the Euclidean norm give the same
    squared distance: the result does not depend on which library's norm
    is used.
   */
  lemma NormChoiceIrrelevant(b: Ball, u: Input, norm1: seq<real> -> real, norm2: seq<real> -> real)
    requires Accepted(u) && DimensionsMatch(b, u)
    requires IsEuclideanNorm(norm1(OffsetOf(b, u)), OffsetOf(b, u))
    requires IsEuclideanNorm(norm2(OffsetOf(b, u)), OffsetOf(b, u))
    ensures DistanceSquared(b, u, norm1) == DistanceSquared(b, u, norm2)
  {
    var v := OffsetOf(b, u);
    NormUnique(norm1(v), norm2(v), v);
  }

  /**
    Cross-domain consistency: a CasADi symbol and an ndarray with the
    same coordinates have the same squared distance, each in its own
    domain, when both norms are Euclidean.
   */
  lemma CrossDomainConsistent(b: Ball, x: seq<real>, symNorm: seq<real> -> real, numNorm: seq<real> -> real)
    requires b.center.Some? ==> |x| == |b.center.value|
    requires IsEuclideanNorm(symNorm(Offset(b.center, x)), Offset(b.center, x))
    requires IsEuclideanNorm(numNorm(Offset(b.center, x)), Offset(b.center, x))
    ensures DistanceSquared(b, Symbolic(x), symNorm).value.domain == SymbolicDomain
    ensures DistanceSquared(b, NdArray(x), numNorm).value.domain == NumericDomain
    ensures DistanceSquared(b, Symbolic(x), symNorm).value.value == DistanceSquared(b, NdArray(x), numNorm).value.value
  {
    var v := Offset(b.center, x);
    NormUnique(symNorm(v), numNorm(v), v);
  }

  /** An absent center behaves as the origin, although no zero vector is stored. */
  lemma NoCenterIsOrigin(radius: real, u: Input, norm: seq<real> -> real)
    requires Accepted(u)
    ensures DimensionsMatch(Ball(Some(Zeros(|Classify(u).value.coords|)), radius), u)
    ensures DistanceSquared(Ball(None, radius), u, norm)
         == DistanceSquared(Ball(Some(Zeros(|Classify(u).value.coords|)), radius), u, norm)
  {
    var x := Classify(u).value.coords;
    assert Subtract(x, Zeros(|x|)) == x;
  }
}


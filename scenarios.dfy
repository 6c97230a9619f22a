/**
  Concrete uses of the Ball2 constraint: small balls and points whose
  squared distances are worked out by hand. Each lemma takes the norm as
  a parameter and asks only that it be the Euclidean norm of the one
  offset vector the call forms.
 */
module Ball2Scenarios {
  import opened Wrappers
  import opened Kernel
  import opened Ball2

  /** `Ball2(None, 1.0)` holds `[0, 0]`: squared distance `0.0`. */
  lemma OriginInUnitBall(norm: seq<real> -> real)
    requires IsEuclideanNorm(norm([0.0, 0.0]), [0.0, 0.0])
    ensures NewBall(NoCenter, 1.0) == Ok(Ball(None, 1.0))
    ensures DistanceSquared(Ball(None, 1.0), NumList([IntElem(0), IntElem(0)]), norm)
         == Ok(Scalar(NumericDomain, 0.0))
  {
    var items := [IntElem(0), IntElem(0)];
    assert items[0].IsNumber() && items[1].IsNumber();
    assert Numbers(items).value == [0.0, 0.0];
    RootUnique(norm([0.0, 0.0]), 0.0, SumSq([0.0, 0.0]));
  }

  /** `[2, 0]` is 1 beyond the boundary of `Ball2(None, 1.0)`: squared distance `1.0`. */
  lemma OneBeyondUnitBall(norm: seq<real> -> real)
    requires IsEuclideanNorm(norm([2.0, 0.0]), [2.0, 0.0])
    ensures DistanceSquared(Ball(None, 1.0), NumList([IntElem(2), IntElem(0)]), norm)
         == Ok(Scalar(NumericDomain, 1.0))
  {
    var items := [IntElem(2), IntElem(0)];
    assert items[0].IsNumber() && items[1].IsNumber();
    assert Numbers(items).value == [2.0, 0.0];
    assert SumSq([2.0, 0.0]) == 4.0;
    RootUnique(norm([2.0, 0.0]), 2.0, 4.0);
  }

  /** `Ball2([1, 1], 2.0)` holds its own center: squared distance `0.0`. */
  lemma CenterOfShiftedBall(norm: seq<real> -> real)
    requires IsEuclideanNorm(norm([0.0, 0.0]), [0.0, 0.0])
    ensures NewBall(ListCenter([IntElem(1), IntElem(1)]), 2.0) == Ok(Ball(Some([1.0, 1.0]), 2.0))
    ensures DistanceSquared(Ball(Some([1.0, 1.0]), 2.0), NumList([IntElem(1), IntElem(1)]), norm)
         == Ok(Scalar(NumericDomain, 0.0))
  {
    var items := [IntElem(1), IntElem(1)];
    assert items[0].IsNumber() && items[1].IsNumber();
    assert Numbers(items).value == [1.0, 1.0];
    assert Subtract([1.0, 1.0], [1.0, 1.0]) == [0.0, 0.0];
    RootUnique(norm([0.0, 0.0]), 0.0, SumSq([0.0, 0.0]));
  }

  /** `[0.5, 0]` lies inside `Ball2([0, 0], 1.0)`: squared distance `0.0`. */
  lemma InsideCenteredUnitBall(norm: seq<real> -> real)
    requires IsEuclideanNorm(norm([0.5, 0.0]), [0.5, 0.0])
    ensures NewBall(ListCenter([IntElem(0), IntElem(0)]), 1.0) == Ok(Ball(Some([0.0, 0.0]), 1.0))
    ensures DistanceSquared(Ball(Some([0.0, 0.0]), 1.0), NumList([FloatElem(0.5), IntElem(0)]), norm)
         == Ok(Scalar(NumericDomain, 0.0))
  {
    var center := [IntElem(0), IntElem(0)];
    assert center[0].IsNumber() && center[1].IsNumber();
    assert Numbers(center).value == [0.0, 0.0];
    var items := [FloatElem(0.5), IntElem(0)];
    assert items[0].IsNumber() && items[1].IsNumber();
    assert Numbers(items).value == [0.5, 0.0];
    assert Subtract([0.5, 0.0], [0.0, 0.0]) == [0.5, 0.0];
    assert SumSq([0.5, 0.0]) == 0.25;
    RootUnique(norm([0.5, 0.0]), 0.5, 0.25);
  }

  /** A negative radius, an unsupported center and an unsupported point are rejected. */
  lemma Rejections()
    ensures NewBall(NoCenter, -1.0) == Err(RadiusNotPositive)
    ensures NewBall(OtherCenter, 1.0) == Err(CenterInvalidType)
    ensures NewBall(OtherCenter, 0.0) == Err(RadiusNotPositive)
    ensures NewBall(ListCenter([FloatElem(1.0), OtherElem]), 1.0) == Err(CenterElementNotFloat)
    ensures forall norm: seq<real> -> real ::
              DistanceSquared(Ball(None, 1.0), NumList([FloatElem(1.0), OtherElem]), norm) == Err(InvalidInputType)
    ensures Project(Ball(None, 1.0), NumList([IntElem(2), IntElem(0)])) == Err(NotImplemented)
  {
    assert !([FloatElem(1.0), OtherElem][1].IsNumber());
  }
}

/**
  The numeric kernel shared by the symbolic and the numeric evaluation
  domains: sign, max, square and the Euclidean norm, each as the
  real-valued operation that `cs.sign`/`np.sign`, `cs.fmax`/`np.fmax`,
  `** 2` and `cs.norm_2`/`np.linalg.norm` stand for.
 */
module Kernel {

  /** Sign of a real: -1, 0 or 1. */
  function Sign(t: real): (s: real)
    ensures s == -1.0 || s == 0.0 || s == 1.0
    ensures s > 0.0 <==> t > 0.0
    ensures s < 0.0 <==> t < 0.0
  {
    if t > 0.0 then 1.0 else if t < 0.0 then -1.0 else 0.0
  }

  /** The larger of two reals. */
  function FMax(a: real, b: real): (m: real)
    ensures m >= a && m >= b
    ensures m == a || m == b
  {
    if a >= b then a else b
  }

  /** The identity on reals; see Square. */
  function Id(x: real): real
  {
    x
  }

  /**
    The square `x ** 2`. It is written as the product of `x` and `Id(x)`,
    two distinct terms of equal value, so that the solver treats it as an
    ordinary product; its facts are the lemmas below.
   */
  function Square(x: real): real
  {
    x * Id(x)
  }

  /** A product of two positive reals is positive. */
  lemma MulPositive(a: real, b: real)
    requires a > 0.0 && b > 0.0
    ensures a * b > 0.0
  {
  }

  /** A non-zero real has a positive square. */
  lemma SquarePositive(x: real)
    requires x != 0.0
    ensures Square(x) > 0.0
  {
    if x > 0.0 {
      MulPositive(x, Id(x));
    } else {
      MulPositive(-x, -Id(x));
    }
  }

  /** Every square is non-negative. */
  lemma SquareNonNegative(x: real)
    ensures Square(x) >= 0.0
  {
    if x != 0.0 {
      SquarePositive(x);
    }
  }

  /** Squares strictly increase on the non-negative reals. */
  lemma SquareGap(a: real, b: real)
    requires 0.0 <= a < b
    ensures Square(b) - Square(a) > 0.0
  {
    MulPositive(b - a, b + a);
    assert Square(b) - Square(a) == (b - a) * (b + a);
  }

  /** Sum of the squares of the coordinates: the squared Euclidean norm. */
  function SumSq(v: seq<real>): (s: real)
    ensures s >= 0.0
  {
    if v == [] then 0.0
    else
      SquareNonNegative(v[0]);
      Square(v[0]) + SumSq(v[1..])
  }

  /** `n` is the Euclidean norm of `v`: the non-negative root of its sum of squares. */
  predicate IsEuclideanNorm(n: real, v: seq<real>)
  {
    n >= 0.0 && Square(n) == SumSq(v)
  }

  /** The zero vector of dimension `n`. */
  function Zeros(n: nat): (z: seq<real>)
    ensures |z| == n
    ensures forall i :: 0 <= i < n ==> z[i] == 0.0
  {
    seq(n, _ => 0.0)
  }

  /** Elementwise difference `u - c` of two vectors of one dimension. */
  function Subtract(u: seq<real>, c: seq<real>): (d: seq<real>)
    requires |u| == |c|
    ensures |d| == |u|
    ensures forall i :: 0 <= i < |u| ==> d[i] == u[i] - c[i]
  {
    if u == [] then [] else [u[0] - c[0]] + Subtract(u[1..], c[1..])
  }

  /** Two non-negative roots of one value are equal. */
  lemma RootUnique(n: real, m: real, s: real)
    requires n >= 0.0 && m >= 0.0 && Square(n) == s && Square(m) == s
    ensures n == m
  {
    if n < m {
      SquareGap(n, m);
    } else if m < n {
      SquareGap(m, n);
    }
  }

  /** The norm is determined by the vector: two candidate norms of one vector agree. */
  lemma NormUnique(n: real, m: real, v: seq<real>)
    requires IsEuclideanNorm(n, v) && IsEuclideanNorm(m, v)
    ensures n == m
  {
    RootUnique(n, m, SumSq(v));
  }

  /** The squared norm vanishes exactly at the zero vector. */
  lemma {:induction false} SumSqZeroIff(v: seq<real>)
    ensures SumSq(v) == 0.0 <==> forall i :: 0 <= i < |v| ==> v[i] == 0.0
  {
    if v != [] {
      SumSqZeroIff(v[1..]);
      assert forall i :: 1 <= i < |v| ==> v[i] == v[1..][i - 1];
      if v[0] != 0.0 {
        SquarePositive(v[0]);
      }
    }
  }

  /** The norm of a vector is zero exactly when the vector is the zero vector. */
  lemma NormZeroIff(n: real, v: seq<real>)
    requires IsEuclideanNorm(n, v)
    ensures n == 0.0 <==> forall i :: 0 <= i < |v| ==> v[i] == 0.0
  {
    SumSqZeroIff(v);
    if n != 0.0 {
      SquarePositive(n);
    }
  }

  /** With a positive bound, comparing norms and comparing squared norms agree. */
  lemma NormWithinIff(n: real, v: seq<real>, r: real)
    requires IsEuclideanNorm(n, v) && r > 0.0
    ensures n <= r <==> SumSq(v) <= Square(r)
  {
    if n < r {
      SquareGap(n, r);
    } else if r < n {
      SquareGap(r, n);
    }
  }
}

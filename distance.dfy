/**
 The distance model of the range-data generator: the true Euclidean distance
 between a tag and an anchor, and the noise-corrupted reading of it.

 Coordinates are reals. The square root is not computed here: every operation
 takes it as a parameter `sqrt`, and the properties that depend on it assume
 only `IsSqrt(sqrt)`, that is, that it returns the non-negative root.
 */
module Distance {

  /** A position in 3-space (the source's `[x, y, z]` lists). */
  datatype Point = Point(x: real, y: real, z: real)

  function Abs(v: real): (r: real)
    ensures r >= 0.0 && (r == v || r == -v)
  {
    if v < 0.0 then -v else v
  }

  /**
   The square of `v`, together with its sign: never negative, and positive
   unless `v` is zero. The body chooses the product with those facts attached,
   so that they travel with every use of the square.
   */
  function Square(v: real): (r: real)
    ensures r == v * v
    ensures r >= 0.0
    ensures v != 0.0 ==> r > 0.0
  {
    assert v != 0.0 ==> v * v > 0.0;
    var s :| s == v * v && s >= 0.0 && (v != 0.0 ==> s > 0.0);
    s
  }

  /** `sqrt` returns, for every non-negative argument, its non-negative square root. */
  ghost predicate IsSqrt(sqrt: real -> real)
  {
    forall v :: 0.0 <= v ==> 0.0 <= sqrt(v) && sqrt(v) * sqrt(v) == v
  }

  /**
   The radicand of the distance: the sum of the squared coordinate differences
   (anchor minus tag). It is never negative, and it is zero exactly when the
   two points coincide.
   */
  function SquaredDistance(t: Point, a: Point): (r: real)
    ensures r >= 0.0
    ensures r == 0.0 <==> t == a
  {
    Square(a.x - t.x) + Square(a.y - t.y) + Square(a.z - t.z)
  }

  /**
   The true distance from tag `t` to anchor `a`. With a true square root it is
   the non-negative number whose square is the radicand, and it is zero
   exactly when the tag sits on the anchor.
   */
  function CalcDistance(sqrt: real -> real, t: Point, a: Point): (r: real)
    ensures IsSqrt(sqrt) ==> r >= 0.0 && Square(r) == SquaredDistance(t, a)
    ensures IsSqrt(sqrt) ==> (r == 0.0 <==> t == a)
  {
    sqrt(SquaredDistance(t, a))
  }

  lemma AbsTriangle(u: real, v: real)
    ensures Abs(u + v) <= Abs(u) + Abs(v)
  {
  }

  lemma SquaredDistanceSymmetric(t: Point, a: Point)
    ensures SquaredDistance(t, a) == SquaredDistance(a, t)
  {
  }

  lemma CalcDistanceSymmetric(sqrt: real -> real, t: Point, a: Point)
    ensures CalcDistance(sqrt, t, a) == CalcDistance(sqrt, a, t)
  {
    SquaredDistanceSymmetric(t, a);
  }

  /**
   The random numbers one noisy reading consumes, in the order they are drawn:
   two uniform samples in [0, 1) that choose the two signs, one sample of the
   normal distribution N(0, ERR_STDEV), and one uniform sample in [0, 1).
   */
  datatype Draw = Draw(signRand1: real, signRand2: real, normal: real, uniform: real)

  /**
   Multiplies `v` by a random sign: by `+1` when the uniform sample `u` lies
   below one half, by `-1` otherwise.
   */
  function Signed(u: real, v: real): (r: real)
    ensures Abs(r) == Abs(v)
  {
    if u < 0.5 then v else -v
  }

  lemma ScaledBoundNonNegative(m: real, u: real)
    requires m >= 0.0 && 0.0 <= u < 1.0
    ensures Abs(m * u) <= m
  {
  }

  lemma ScaledBoundNegative(m: real, u: real)
    requires m < 0.0 && 0.0 <= u < 1.0
    ensures Abs(m * u) <= -m
  {
  }

  /** Scaling by a sample of [0, 1) never increases a magnitude. */
  lemma ScaledBound(m: real, u: real)
    requires 0.0 <= u < 1.0
    ensures Abs(m * u) <= Abs(m)
  {
    if m >= 0.0 {
      ScaledBoundNonNegative(m, u);
    } else {
      ScaledBoundNegative(m, u);
    }
  }

  /**
   The noise added to the true distance: the normal sample with a random sign,
   plus the mean error scaled by the uniform sample, with a second random sign.
   Whenever the uniform sample lies in [0, 1) it is at most the magnitude of
   the normal sample plus the magnitude of the mean error.
   */
  function Perturbation(errMean: real, d: Draw): (r: real)
    ensures 0.0 <= d.uniform < 1.0 ==> Abs(r) <= Abs(d.normal) + Abs(errMean)
  {
    var n := Signed(d.signRand1, d.normal);
    var m := Signed(d.signRand2, errMean * d.uniform);
    AbsTriangle(n, m);
    assert 0.0 <= d.uniform < 1.0 ==> Abs(m) <= Abs(errMean) by {
      if 0.0 <= d.uniform < 1.0 {
        ScaledBound(errMean, d.uniform);
      }
    }
    n + m
  }

  /**
   The noisy reading of the distance from tag `t` to anchor `a` under draw `d`:
   it departs from the true distance by exactly the draw's perturbation, so by
   no more than the perturbation's bound.
   */
  function NoisedDistance(sqrt: real -> real, errMean: real, t: Point, a: Point, d: Draw): (r: real)
    ensures r - CalcDistance(sqrt, t, a) == Perturbation(errMean, d)
    ensures 0.0 <= d.uniform < 1.0 ==> Abs(r - CalcDistance(sqrt, t, a)) <= Abs(d.normal) + Abs(errMean)
  {
    CalcDistance(sqrt, t, a) + Perturbation(errMean, d)
  }
}

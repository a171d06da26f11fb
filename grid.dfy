/**
 The grid enumeration of the generator: the tag positions run over the
 Cartesian product of three axes, x outermost and z innermost, and each
 position is repeated for every trial before the next one starts. Row `k` of
 the output therefore stands for one (x, y, z, trial) index tuple, written in
 mixed radix with digits of sizes |xs|, |ys|, |zs| and the trial count.
 */
module Grid {
  import opened Distance

  /**
   The values the generator reads from its configuration: the anchor
   positions, the three tag axes (already expanded into their points), the
   trial count and the mean error of the noise model.
   */
  datatype Config = Config(anchors: seq<Point>, xs: seq<real>, ys: seq<real>, zs: seq<real>,
                           trialNum: int, errMean: real)
  {
    /** Rows emitted per tag position: `range(trialNum)` is empty when `trialNum` is not positive. */
    function Trials(): nat
    {
      if trialNum > 0 then trialNum else 0
    }

    /** Rows emitted for one value of z (that is, for one tag position). */
    function RowsPerZ(): nat
    {
      Trials()
    }

    /** Rows emitted for one value of y. */
    function RowsPerY(): nat
    {
      |zs| * RowsPerZ()
    }

    /** Rows emitted for one value of x. */
    function RowsPerX(): nat
    {
      |ys| * RowsPerY()
    }

    /** Rows emitted in all. */
    function RowCount(): nat
    {
      |xs| * RowsPerX()
    }

    /**
     The tag position of row `k`: x advances every RowsPerX() rows, y every
     RowsPerY() rows, z every RowsPerZ() rows, each wrapping round its axis.
     */
    function TagAt(k: int): (p: Point)
      requires 0 <= k < RowCount()
      ensures p.x in xs && p.y in ys && p.z in zs
    {
      RowDigitsInRange(this, k);
      Point(xs[k / RowsPerX()], ys[(k / RowsPerY()) % |ys|], zs[(k / RowsPerZ()) % |zs|])
    }

    /** Distinct tag positions on the grid. */
    function PositionCount(): nat
    {
      |xs| * (|ys| * |zs|)
    }

    /** The tag position with number `p`, x outermost and z innermost. */
    function PositionAt(p: int): (q: Point)
      requires 0 <= p < PositionCount()
      ensures q.x in xs && q.y in ys && q.z in zs
    {
      PositionDigitsInRange(this, p);
      Point(xs[p / (|ys| * |zs|)], ys[(p / |zs|) % |ys|], zs[p % |zs|])
    }

    /**
     The row number the loops give to the index tuple (ix, iy, iz, trial): the
     tuple's digits in mixed radix, so an in-range tuple gets a row below
     RowCount().
     */
    function RowOf(ix: int, iy: int, iz: int, trial: int): (k: int)
      ensures 0 <= ix < |xs| && 0 <= iy < |ys| && 0 <= iz < |zs| && 0 <= trial < Trials() ==>
                0 <= k < RowCount()
    {
      var x, y, z, t := |xs|, |ys|, |zs|, Trials();
      var k := ((ix * y + iy) * z + iz) * t + trial;
      assert 0 <= ix < x && 0 <= iy < y && 0 <= iz < z && 0 <= trial < t ==> 0 <= k < RowCount() by {
        if 0 <= ix < x && 0 <= iy < y && 0 <= iz < z && 0 <= trial < t {
          MixedRadixBound(iz, trial, z, t);
          var r1 := iz * t + trial;
          MixedRadixBound(iy, r1, y, z * t);
          var r2 := iy * (z * t) + r1;
          MixedRadixBound(ix, r2, x, y * (z * t));
          assert k == ix * (y * (z * t)) + r2;
        }
      }
      k
    }
  }

  /** Whole-number division facts: quotient and remainder are determined by any exact decomposition. */
  lemma DivModUnique(a: int, d: int, q: int, r: int)
    requires d > 0 && 0 <= r < d && a == q * d + r
    ensures a / d == q && a % d == r
  {
    var q', r' := a / d, a % d;
    assert a == q' * d + r';
    if q' < q {
      MulMonotone(q' + 1, q, d);
      assert false;
    } else if q' > q {
      MulMonotone(q + 1, q', d);
      assert false;
    }
  }

  lemma MulMonotone(a: int, b: int, d: int)
    requires a <= b && d > 0
    ensures a * d <= b * d
  {
    assert b * d - a * d == (b - a) * d;
  }

  /** A digit `lo` below `l` after a digit `hi` below `h` stays below h * l. */
  lemma MixedRadixBound(hi: int, lo: int, h: int, l: int)
    requires 0 <= hi < h && 0 <= lo < l
    ensures 0 <= hi * l + lo < h * l
  {
    MulMonotone(hi + 1, h, l);
    MulMonotone(0, hi, l);
  }

  /** Every row below RowCount() has all of its digits inside their axes. */
  lemma RowDigitsInRange(c: Config, k: int)
    requires 0 <= k < c.RowCount()
    ensures c.RowsPerX() > 0 && c.RowsPerY() > 0 && c.RowsPerZ() > 0
    ensures |c.ys| > 0 && |c.zs| > 0
    ensures 0 <= k / c.RowsPerX() < |c.xs|
  {
    assert c.RowCount() == |c.xs| * c.RowsPerX();
    if c.RowsPerX() == 0 {
      assert false;
    }
    if c.RowsPerY() == 0 || |c.ys| == 0 {
      assert false;
    }
    if c.RowsPerZ() == 0 || |c.zs| == 0 {
      assert false;
    }
    var q := k / c.RowsPerX();
    if q >= |c.xs| {
      MulMonotone(|c.xs|, q, c.RowsPerX());
      assert false;
    }
  }

  lemma PositionDigitsInRange(c: Config, p: int)
    requires 0 <= p < c.PositionCount()
    ensures |c.ys| > 0 && |c.zs| > 0
    ensures 0 <= p / (|c.ys| * |c.zs|) < |c.xs|
  {
    var plane := |c.ys| * |c.zs|;
    if plane == 0 {
      assert false;
    }
    if |c.ys| == 0 || |c.zs| == 0 {
      assert false;
    }
    var q := p / plane;
    if q >= |c.xs| {
      MulMonotone(|c.xs|, q, plane);
      assert false;
    }
  }

  /** Dividing by `b` and then by `d` is dividing by b * d. */
  lemma DivDiv(a: int, b: int, d: int)
    requires a >= 0 && b > 0 && d > 0
    ensures (a / b) / d == a / (b * d)
  {
    var q1, r1 := a / b, a % b;
    var q2, r2 := q1 / d, q1 % d;
    MixedRadixBound(r2, r1, d, b);
    assert a == q2 * (b * d) + (r2 * b + r1);
    assert b * d == d * b;
    DivModUnique(a, b * d, q2, r2 * b + r1);
  }

  /**
   The loops give the index tuple (ix, iy, iz, trial) a row below RowCount(),
   and TagAt reads the tuple's own grid point back from that row: the row
   numbering follows the x-outermost, z-innermost, trials-innermost order.
   */
  lemma RowOfDecodes(c: Config, ix: int, iy: int, iz: int, trial: int)
    requires 0 <= ix < |c.xs| && 0 <= iy < |c.ys| && 0 <= iz < |c.zs| && 0 <= trial < c.Trials()
    ensures 0 <= c.RowOf(ix, iy, iz, trial) < c.RowCount()
    ensures c.RowOf(ix, iy, iz, trial) / c.RowsPerX() == ix
    ensures (c.RowOf(ix, iy, iz, trial) / c.RowsPerY()) % |c.ys| == iy
    ensures (c.RowOf(ix, iy, iz, trial) / c.RowsPerZ()) % |c.zs| == iz
    ensures c.RowOf(ix, iy, iz, trial) % c.Trials() == trial
    ensures c.TagAt(c.RowOf(ix, iy, iz, trial)) == Point(c.xs[ix], c.ys[iy], c.zs[iz])
  {
    var x, y, z, t := |c.xs|, |c.ys|, |c.zs|, c.Trials();
    var p1 := ix * y + iy;
    var p2 := p1 * z + iz;
    var k := p2 * t + trial;
    assert k == c.RowOf(ix, iy, iz, trial);
    // the trial digit and the z digit
    DivModUnique(k, t, p2, trial);
    DivModUnique(p2, z, p1, iz);
    // the y digit
    MixedRadixBound(iz, trial, z, t);
    var r1 := iz * t + trial;
    assert k == p1 * (z * t) + r1;
    DivModUnique(k, z * t, p1, r1);
    DivModUnique(p1, y, ix, iy);
    // the x digit
    MixedRadixBound(iy, r1, y, z * t);
    var r2 := iy * (z * t) + r1;
    assert k == ix * (y * (z * t)) + r2;
    DivModUnique(k, y * (z * t), ix, r2);
    MixedRadixBound(ix, r2, x, y * (z * t));
  }

  /**
   Every row below RowCount() is the row the loops give to its own digits, so
   RowOf, restricted to in-range tuples, is onto the rows as well as one to one.
   */
  lemma RowOfDigits(c: Config, k: int)
    requires 0 <= k < c.RowCount()
    ensures c.RowOf(k / c.RowsPerX(), (k / c.RowsPerY()) % |c.ys|, (k / c.RowsPerZ()) % |c.zs|, k % c.Trials()) == k
  {
    RowDigitsInRange(c, k);
    var y, z, t := |c.ys|, |c.zs|, c.Trials();
    var q1 := k / t;
    assert k == q1 * t + k % t;
    var q2 := q1 / z;
    assert q1 == q2 * z + q1 % z;
    DivDiv(k, t, z);
    assert q2 == k / (t * z);
    assert t * z == z * t;
    assert c.RowsPerY() == z * t;
    assert q2 == k / c.RowsPerY();
    var q3 := q2 / y;
    assert q2 == q3 * y + q2 % y;
    DivDiv(k, z * t, y);
    assert (z * t) * y == y * (z * t);
    assert q3 == k / c.RowsPerX();
  }

  /**
   The tag of row `k` is the position numbered k / Trials(): all trial rows of
   one position carry the same tag, and the positions themselves do not depend
   on the trial count.
   */
  lemma TagAtPosition(c: Config, k: int)
    requires 0 <= k < c.RowCount()
    ensures c.RowCount() == c.PositionCount() * c.Trials()
    ensures 0 <= k / c.Trials() < c.PositionCount()
    ensures c.TagAt(k) == c.PositionAt(k / c.Trials())
  {
    RowDigitsInRange(c, k);
    var x, y, z, t := |c.xs|, |c.ys|, |c.zs|, c.Trials();
    var p := k / t;
    assert c.RowCount() == x * (y * (z * t));
    assert x * (y * (z * t)) == (x * (y * z)) * t;
    if p >= c.PositionCount() {
      assert p * t <= k;
      MulMonotone(c.PositionCount(), p, t);
      assert false;
    }
    // the z digit is the same division
    assert c.RowsPerZ() == t;
    // the y digit
    DivDiv(k, t, z);
    assert t * z == c.RowsPerY();
    // the x digit
    DivDiv(k, t, y * z);
    assert t * (y * z) == c.RowsPerX();
  }

  /** No rows at all exactly when an axis is empty or there are no trials. */
  lemma EmptyGrid(c: Config)
    ensures c.RowCount() == 0 <==> |c.xs| == 0 || |c.ys| == 0 || |c.zs| == 0 || c.Trials() == 0
  {
    var x, y, z, t := |c.xs|, |c.ys|, |c.zs|, c.Trials();
    if x > 0 && y > 0 && z > 0 && t > 0 {
      MixedRadixBound(0, 0, z, t);
      MixedRadixBound(0, 0, y, z * t);
      MixedRadixBound(0, 0, x, y * (z * t));
    }
  }

  /** Finishing the trials of one position starts the next z value. */
  lemma RowOfCarryTrial(c: Config, ix: int, iy: int, iz: int)
    ensures c.RowOf(ix, iy, iz, c.Trials()) == c.RowOf(ix, iy, iz + 1, 0)
  {
  }

  /** Finishing the z axis starts the next y value. */
  lemma RowOfCarryZ(c: Config, ix: int, iy: int)
    ensures c.RowOf(ix, iy, |c.zs|, 0) == c.RowOf(ix, iy + 1, 0, 0)
  {
  }

  /** Finishing the y axis starts the next x value. */
  lemma RowOfCarryY(c: Config, ix: int)
    ensures c.RowOf(ix, |c.ys|, 0, 0) == c.RowOf(ix + 1, 0, 0, 0)
  {
  }

  /** Finishing the x axis has emitted every row. */
  lemma RowOfEnd(c: Config)
    ensures c.RowOf(|c.xs|, 0, 0, 0) == c.RowCount()
  {
  }
}

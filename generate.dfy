/**
 The generator proper: it builds the actual and the noised range tables and
 fills them by walking the tag grid, x outermost, z innermost, one row per
 trial, and one range per anchor in each row.

 The random numbers are a parameter `draws`: `draws(k, ai)` is what the noisy
 reading of anchor `ai` in row `k` consumes.
 */
module Generator {
  import opened Distance
  import opened Grid
  import opened ColumnNames
  import opened Tables

  /** The range the table stores for row `k` and anchor `j`: the true distance, or its noisy reading. */
  function Cell(c: Config, sqrt: real -> real, draws: (nat, nat) -> Draw, noisy: bool, k: nat, j: nat): real
    requires k < c.RowCount() && j < |c.anchors|
  {
    if noisy then NoisedDistance(sqrt, c.errMean, c.TagAt(k), c.anchors[j], draws(k, j))
    else CalcDistance(sqrt, c.TagAt(k), c.anchors[j])
  }

  /** The key columns hold the first `n` rows: row `k` is numbered `k` and carries the tag of grid row `k`. */
  ghost predicate KeysHold(c: Config, no: seq<int>, tagX: seq<real>, tagY: seq<real>, tagZ: seq<real>, n: nat)
  {
    n <= c.RowCount()
    && |no| == n && |tagX| == n && |tagY| == n && |tagZ| == n
    && (forall k :: 0 <= k < n ==> no[k] == k)
    && (forall k :: 0 <= k < n ==> tagX[k] == c.TagAt(k).x && tagY[k] == c.TagAt(k).y && tagZ[k] == c.TagAt(k).z)
  }

  /**
   The anchor columns hold the ranges of the first `rows` rows, and the
   columns of the first `done` anchors also that of row `rows`.
   */
  ghost predicate ColumnsHold(c: Config, sqrt: real -> real, draws: (nat, nat) -> Draw, noisy: bool,
                              cols: seq<seq<real>>, rows: nat, done: nat)
  {
    done <= |c.anchors| && |cols| == |c.anchors|
    && (forall j :: 0 <= j < |cols| ==> |cols[j]| == if j < done then rows + 1 else rows)
    && (forall j, k :: 0 <= j < |cols| && 0 <= k < |cols[j]| ==>
          k < c.RowCount() && cols[j][k] == Cell(c, sqrt, draws, noisy, k, j))
  }

  /** Appending row `n`'s number and tag keeps the key columns correct for one row more. */
  lemma KeysAppend(c: Config, no: seq<int>, tagX: seq<real>, tagY: seq<real>, tagZ: seq<real>, n: nat)
    requires KeysHold(c, no, tagX, tagY, tagZ, n)
    requires n < c.RowCount()
    ensures KeysHold(c, no + [n], tagX + [c.TagAt(n).x], tagY + [c.TagAt(n).y], tagZ + [c.TagAt(n).z], n + 1)
  {
  }

  /** Appending anchor `done`'s range for row `rows` keeps the anchor columns correct for one anchor more. */
  lemma ColumnsAppend(c: Config, sqrt: real -> real, draws: (nat, nat) -> Draw, noisy: bool,
                      cols: seq<seq<real>>, rows: nat, done: nat)
    requires ColumnsHold(c, sqrt, draws, noisy, cols, rows, done)
    requires done < |c.anchors| && rows < c.RowCount()
    ensures ColumnsHold(c, sqrt, draws, noisy, cols[done := cols[done] + [Cell(c, sqrt, draws, noisy, rows, done)]],
                        rows, done + 1)
  {
    var d := Cell(c, sqrt, draws, noisy, rows, done);
    var cols' := cols[done := cols[done] + [d]];
    forall j, k | 0 <= j < |cols'| && 0 <= k < |cols'[j]|
      ensures k < c.RowCount() && cols'[j][k] == Cell(c, sqrt, draws, noisy, k, j)
    {
      if j == done && k == |cols[done]| {
        assert cols'[j][k] == d;
      } else {
        assert cols'[j][k] == cols[j][k];
      }
    }
  }

  /** Both tables hold their first `n` rows completely. */
  ghost predicate Progress(c: Config, sqrt: real -> real, draws: (nat, nat) -> Draw,
                           actual: RangeTable, noised: RangeTable, n: nat)
    reads actual, noised
  {
    actual.Valid() && noised.Valid()
    && actual.names == Header(|c.anchors|) && noised.names == Header(|c.anchors|)
    && KeysHold(c, actual.no, actual.tagX, actual.tagY, actual.tagZ, n)
    && KeysHold(c, noised.no, noised.tagX, noised.tagY, noised.tagZ, n)
    && ColumnsHold(c, sqrt, draws, false, actual.anchorCols, n, 0)
    && ColumnsHold(c, sqrt, draws, true, noised.anchorCols, n, 0)
  }

  /** Both tables with their four key columns, then one empty column per anchor added in index order. */
  method NewTables(c: Config, ghost sqrt: real -> real, ghost draws: (nat, nat) -> Draw)
    returns (actual: RangeTable, noised: RangeTable)
    ensures fresh(actual) && fresh(noised) && actual != noised
    ensures Progress(c, sqrt, draws, actual, noised, 0)
    ensures actual.anchorCols == seq(|c.anchors|, _ => []) && noised.anchorCols == seq(|c.anchors|, _ => [])
  {
    actual := new RangeTable();
    noised := new RangeTable();
    var idx := 0;
    while idx < |c.anchors|
      invariant 0 <= idx <= |c.anchors|
      invariant actual.Valid() && noised.Valid()
      invariant actual.names == Header(idx) && noised.names == Header(idx)
      invariant actual.anchorCols == seq(idx, _ => []) && noised.anchorCols == seq(idx, _ => [])
      invariant actual.no == [] && actual.tagX == [] && actual.tagY == [] && actual.tagZ == []
      invariant noised.no == [] && noised.tagX == [] && noised.tagY == [] && noised.tagZ == []
    {
      actual.AddAnchorColumn();
      noised.AddAnchorColumn();
      idx := idx + 1;
    }
  }

  /** The true and the noisy range of every anchor, in anchor order, for row `row`, whose tag is `tag`. */
  method EmitRanges(c: Config, sqrt: real -> real, draws: (nat, nat) -> Draw,
                    actual: RangeTable, noised: RangeTable, row: nat, tag: Point)
    requires actual != noised
    requires row < c.RowCount() && c.TagAt(row) == tag
    requires actual.Valid() && noised.Valid()
    requires ColumnsHold(c, sqrt, draws, false, actual.anchorCols, row, 0)
    requires ColumnsHold(c, sqrt, draws, true, noised.anchorCols, row, 0)
    modifies actual, noised
    ensures actual.Valid() && noised.Valid()
    ensures ColumnsHold(c, sqrt, draws, false, actual.anchorCols, row + 1, 0)
    ensures ColumnsHold(c, sqrt, draws, true, noised.anchorCols, row + 1, 0)
    ensures actual.names == old(actual.names) && noised.names == old(noised.names)
    ensures actual.no == old(actual.no) && actual.tagX == old(actual.tagX)
    ensures actual.tagY == old(actual.tagY) && actual.tagZ == old(actual.tagZ)
    ensures noised.no == old(noised.no) && noised.tagX == old(noised.tagX)
    ensures noised.tagY == old(noised.tagY) && noised.tagZ == old(noised.tagZ)
  {
    var ai := 0;
    while ai < |c.anchors|
      invariant 0 <= ai <= |c.anchors|
      invariant actual.Valid() && noised.Valid()
      invariant ColumnsHold(c, sqrt, draws, false, actual.anchorCols, row, ai)
      invariant ColumnsHold(c, sqrt, draws, true, noised.anchorCols, row, ai)
      invariant actual.names == old(actual.names) && noised.names == old(noised.names)
      invariant actual.no == old(actual.no) && actual.tagX == old(actual.tagX)
      invariant actual.tagY == old(actual.tagY) && actual.tagZ == old(actual.tagZ)
      invariant noised.no == old(noised.no) && noised.tagX == old(noised.tagX)
      invariant noised.tagY == old(noised.tagY) && noised.tagZ == old(noised.tagZ)
    {
      var anchor := c.anchors[ai];
      ColumnsAppend(c, sqrt, draws, false, actual.anchorCols, row, ai);
      ColumnsAppend(c, sqrt, draws, true, noised.anchorCols, row, ai);
      actual.AppendRange(ai, CalcDistance(sqrt, tag, anchor));
      noised.AppendRange(ai, NoisedDistance(sqrt, c.errMean, tag, anchor, draws(row, ai)));
      ai := ai + 1;
    }
  }

  /**
   One trial: row `dataCnt` gets its number and tag in both tables, the
   counter moves on, and the row's ranges follow.
   */
  method EmitRow(c: Config, sqrt: real -> real, draws: (nat, nat) -> Draw,
                 actual: RangeTable, noised: RangeTable, dataCnt: nat, tag: Point)
    returns (next: nat)
    requires actual != noised
    requires dataCnt < c.RowCount() && c.TagAt(dataCnt) == tag
    requires Progress(c, sqrt, draws, actual, noised, dataCnt)
    modifies actual, noised
    ensures next == dataCnt + 1
    ensures Progress(c, sqrt, draws, actual, noised, next)
  {
    KeysAppend(c, actual.no, actual.tagX, actual.tagY, actual.tagZ, dataCnt);
    KeysAppend(c, noised.no, noised.tagX, noised.tagY, noised.tagZ, dataCnt);
    actual.AppendKeys(dataCnt, tag.x, tag.y, tag.z);
    noised.AppendKeys(dataCnt, tag.x, tag.y, tag.z);
    next := dataCnt + 1;
    EmitRanges(c, sqrt, draws, actual, noised, next - 1, tag);
  }

  /**
   All trials of the tag position (xs[ix], ys[iy], zs[iz]): one row each, so
   the counter ends where the next z value starts.
   */
  method EmitTrials(c: Config, sqrt: real -> real, draws: (nat, nat) -> Draw,
                    actual: RangeTable, noised: RangeTable, ix: nat, iy: nat, iz: nat, dataCnt: nat)
    returns (next: nat)
    requires actual != noised
    requires ix < |c.xs| && iy < |c.ys| && iz < |c.zs|
    requires dataCnt == c.RowOf(ix, iy, iz, 0)
    requires Progress(c, sqrt, draws, actual, noised, dataCnt)
    modifies actual, noised
    ensures next == c.RowOf(ix, iy, iz + 1, 0)
    ensures Progress(c, sqrt, draws, actual, noised, next)
  {
    var tag := Point(c.xs[ix], c.ys[iy], c.zs[iz]);
    next := dataCnt;
    var i := 0;
    while i < c.Trials()
      invariant 0 <= i <= c.Trials()
      invariant next == c.RowOf(ix, iy, iz, i)
      invariant Progress(c, sqrt, draws, actual, noised, next)
    {
      RowOfDecodes(c, ix, iy, iz, i);
      next := EmitRow(c, sqrt, draws, actual, noised, next, tag);
      i := i + 1;
    }
    RowOfCarryTrial(c, ix, iy, iz);
  }

  /** Once every row is in, the tables are what Generate promises. */
  lemma ProgressComplete(c: Config, sqrt: real -> real, draws: (nat, nat) -> Draw,
                         actual: RangeTable, noised: RangeTable, n: nat)
    requires Progress(c, sqrt, draws, actual, noised, n)
    ensures noised.no == actual.no && noised.tagX == actual.tagX && noised.tagY == actual.tagY && noised.tagZ == actual.tagZ
    ensures forall j :: 0 <= j < |c.anchors| ==> |actual.anchorCols[j]| == n && |noised.anchorCols[j]| == n
  {
    assert noised.no == actual.no;
    assert noised.tagX == actual.tagX;
    assert noised.tagY == actual.tagY;
    assert noised.tagZ == actual.tagZ;
  }

  /**
   Builds the actual and the noised tables and fills them. Afterwards both
   have the columns no, tag_x, tag_y, tag_z, anchor0, ..., one row per grid
   point and trial, numbered from 0, with equal key columns; the actual table
   holds the true distances and the noised one the noisy readings, and the
   row counter equals the number of rows.
   */
  method Generate(c: Config, sqrt: real -> real, draws: (nat, nat) -> Draw)
    returns (actual: RangeTable, noised: RangeTable, dataCnt: nat)
    ensures fresh(actual) && fresh(noised) && actual != noised
    ensures dataCnt == c.RowCount() == |c.xs| * |c.ys| * |c.zs| * c.Trials()
    ensures actual.names == Header(|c.anchors|) && noised.names == Header(|c.anchors|)
    ensures |actual.no| == dataCnt && |actual.tagX| == dataCnt && |actual.tagY| == dataCnt && |actual.tagZ| == dataCnt
    ensures noised.no == actual.no && noised.tagX == actual.tagX && noised.tagY == actual.tagY && noised.tagZ == actual.tagZ
    ensures forall k :: 0 <= k < dataCnt ==> actual.no[k] == k
    ensures forall k :: 0 <= k < dataCnt ==>
              actual.tagX[k] == c.TagAt(k).x && actual.tagY[k] == c.TagAt(k).y && actual.tagZ[k] == c.TagAt(k).z
    ensures |actual.anchorCols| == |c.anchors| && |noised.anchorCols| == |c.anchors|
    ensures forall j :: 0 <= j < |c.anchors| ==> |actual.anchorCols[j]| == dataCnt && |noised.anchorCols[j]| == dataCnt
    ensures forall j, k :: 0 <= j < |c.anchors| && 0 <= k < dataCnt ==>
              actual.anchorCols[j][k] == CalcDistance(sqrt, c.TagAt(k), c.anchors[j])
    ensures forall j, k :: 0 <= j < |c.anchors| && 0 <= k < dataCnt ==>
              noised.anchorCols[j][k] == NoisedDistance(sqrt, c.errMean, c.TagAt(k), c.anchors[j], draws(k, j))
  {
    actual, noised := NewTables(c, sqrt, draws);
    dataCnt := 0;
    var ix := 0;
    while ix < |c.xs|
      invariant 0 <= ix <= |c.xs|
      invariant dataCnt == c.RowOf(ix, 0, 0, 0)
      invariant Progress(c, sqrt, draws, actual, noised, dataCnt)
    {
      var iy := 0;
      while iy < |c.ys|
        invariant 0 <= iy <= |c.ys|
        invariant dataCnt == c.RowOf(ix, iy, 0, 0)
        invariant Progress(c, sqrt, draws, actual, noised, dataCnt)
      {
        var iz := 0;
        while iz < |c.zs|
          invariant 0 <= iz <= |c.zs|
          invariant dataCnt == c.RowOf(ix, iy, iz, 0)
          invariant Progress(c, sqrt, draws, actual, noised, dataCnt)
        {
          dataCnt := EmitTrials(c, sqrt, draws, actual, noised, ix, iy, iz, dataCnt);
          iz := iz + 1;
        }
        RowOfCarryZ(c, ix, iy);
        iy := iy + 1;
      }
      RowOfCarryY(c, ix);
      ix := ix + 1;
    }
    RowOfEnd(c);
    ProgressComplete(c, sqrt, draws, actual, noised, dataCnt);
  }

  /**
   The rows of one tag position, one per trial, carry the same tag and the
   same true range to every anchor.
   */
  lemma TrialRowsAgree(c: Config, sqrt: real -> real, draws: (nat, nat) -> Draw, k1: nat, k2: nat, j: nat)
    requires k1 < c.RowCount() && k2 < c.RowCount() && j < |c.anchors|
    requires k1 / c.Trials() == k2 / c.Trials()
    ensures c.TagAt(k1) == c.TagAt(k2)
    ensures Cell(c, sqrt, draws, false, k1, j) == Cell(c, sqrt, draws, false, k2, j)
  {
    TagAtPosition(c, k1);
    TagAtPosition(c, k2);
  }

  /**
   Each noisy range is the true range of the same row and anchor plus the
   perturbation of its own draw, bounded as that perturbation is; the true
   range is the non-negative root of the squared distance, zero exactly when
   the tag sits on the anchor.
   */
  lemma CellsRelated(c: Config, sqrt: real -> real, draws: (nat, nat) -> Draw, k: nat, j: nat)
    requires IsSqrt(sqrt)
    requires k < c.RowCount() && j < |c.anchors|
    requires 0.0 <= draws(k, j).uniform < 1.0
    ensures Cell(c, sqrt, draws, true, k, j) - Cell(c, sqrt, draws, false, k, j) == Perturbation(c.errMean, draws(k, j))
    ensures Abs(Cell(c, sqrt, draws, true, k, j) - Cell(c, sqrt, draws, false, k, j)) <= Abs(draws(k, j).normal) + Abs(c.errMean)
    ensures Cell(c, sqrt, draws, false, k, j) >= 0.0
    ensures Cell(c, sqrt, draws, false, k, j) == 0.0 <==> c.TagAt(k) == c.anchors[j]
  {
  }
}

/**
 The two range tables the generator fills: a dictionary from column name to
 a growing list, holding the key columns `no`, `tag_x`, `tag_y`, `tag_z` and
 one range column per anchor. The columns are fields of the class, and
 `names` keeps the dictionary's keys in insertion order.
 */
module Tables {
  import opened ColumnNames

  class RangeTable {
    var names: seq<string>
    var no: seq<int>
    var tagX: seq<real>
    var tagY: seq<real>
    var tagZ: seq<real>
    var anchorCols: seq<seq<real>>

    /** The keys are the four key columns followed by one name per anchor column, and the key columns have equal length. */
    ghost predicate Valid()
      reads this
    {
      names == Header(|anchorCols|)
      && |tagX| == |no| && |tagY| == |no| && |tagZ| == |no|
    }

    /** A table holding the four empty key columns and no anchor column. */
    constructor ()
      ensures Valid()
      ensures names == KeyNames
      ensures no == [] && tagX == [] && tagY == [] && tagZ == []
      ensures anchorCols == []
    {
      names := KeyNames;
      no, tagX, tagY, tagZ := [], [], [], [];
      anchorCols := [];
    }

    /** Adds the next anchor's column, empty, named after its index. */
    method AddAnchorColumn()
      requires Valid()
      modifies this
      ensures Valid()
      ensures names == old(names) + [AnchorName(|old(anchorCols)|)]
      ensures anchorCols == old(anchorCols) + [[]]
      ensures no == old(no) && tagX == old(tagX) && tagY == old(tagY) && tagZ == old(tagZ)
    {
      names := names + [AnchorName(|anchorCols|)];
      anchorCols := anchorCols + [[]];
    }

    /** Appends one row's number and tag coordinates to the key columns. */
    method AppendKeys(n: int, x: real, y: real, z: real)
      requires Valid()
      modifies this
      ensures Valid()
      ensures no == old(no) + [n]
      ensures tagX == old(tagX) + [x] && tagY == old(tagY) + [y] && tagZ == old(tagZ) + [z]
      ensures names == old(names) && anchorCols == old(anchorCols)
    {
      no := no + [n];
      tagX := tagX + [x];
      tagY := tagY + [y];
      tagZ := tagZ + [z];
    }

    /** Appends range `d` to the column of anchor `ai`; the other columns are untouched. */
    method AppendRange(ai: int, d: real)
      requires Valid()
      requires 0 <= ai < |anchorCols|
      modifies this
      ensures Valid()
      ensures anchorCols == old(anchorCols)[ai := old(anchorCols)[ai] + [d]]
      ensures names == old(names)
      ensures no == old(no) && tagX == old(tagX) && tagY == old(tagY) && tagZ == old(tagZ)
    {
      anchorCols := anchorCols[ai := anchorCols[ai] + [d]];
    }
  }
}

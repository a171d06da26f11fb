/**
 The column names of the two range tables: the four key columns followed by
 one column per anchor, named "anchor" and the anchor's index in decimal.
 */
module ColumnNames {

  /** The decimal digit character for `d`; reading it back gives `d`. */
  function DigitChar(d: nat): (ch: char)
    requires d < 10
    ensures '0' <= ch <= '9' && DigitValue(ch) == d
  {
    ('0' as int + d) as char
  }

  /** The value of a decimal digit character. */
  function DigitValue(ch: char): (d: nat)
    requires '0' <= ch <= '9'
    ensures d < 10
  {
    (ch as int - '0' as int) as nat
  }

  predicate IsDigits(s: string)
  {
    |s| > 0 && forall i :: 0 <= i < |s| ==> '0' <= s[i] <= '9'
  }

  /** The value of a non-empty string of decimal digits. */
  function ParseNat(s: string): nat
    requires IsDigits(s)
    decreases |s|
  {
    if |s| == 1 then DigitValue(s[0])
    else ParseNat(s[..|s| - 1]) * 10 + DigitValue(s[|s| - 1])
  }

  /**
   The decimal rendering of `n` (Python's `f'{n}'`): a non-empty digit string
   that reads back to `n` and has no leading zero, so "0" is the only
   rendering that starts with the digit zero.
   */
  function NatToString(n: nat): (s: string)
    ensures IsDigits(s) && ParseNat(s) == n
    ensures s[0] == '0' <==> n == 0
    decreases n
  {
    if n < 10 then [DigitChar(n)]
    else
      var prefix := NatToString(n / 10);
      var s := prefix + [DigitChar(n % 10)];
      assert s[..|s| - 1] == prefix;
      s
  }

  /** Different numbers are rendered differently. */
  lemma NatToStringInjective(i: nat, j: nat)
    requires NatToString(i) == NatToString(j)
    ensures i == j
  {
  }

  /** The name of the column that holds anchor `i`'s ranges. */
  function AnchorName(i: nat): (name: string)
    ensures |name| > 6 && name[..6] == "anchor"
  {
    "anchor" + NatToString(i)
  }

  /** Different anchors get different columns. */
  lemma AnchorNameInjective(i: nat, j: nat)
    ensures AnchorName(i) == AnchorName(j) <==> i == j
  {
    assert AnchorName(i)[6..] == NatToString(i);
    assert AnchorName(j)[6..] == NatToString(j);
    if AnchorName(i) == AnchorName(j) {
      NatToStringInjective(i, j);
    }
  }

  /** The key columns every table starts with, in order. */
  const KeyNames: seq<string> := ["no", "tag_x", "tag_y", "tag_z"]

  /** The column names of a table over `anchorNum` anchors, in insertion order. */
  function Header(anchorNum: nat): seq<string>
  {
    KeyNames + seq(anchorNum, i requires 0 <= i => AnchorName(i))
  }

  /**
   A table over `anchorNum` anchors has exactly 4 + anchorNum columns: the
   four key columns, then anchor0 up to anchor{anchorNum-1}, all named apart.
   */
  lemma HeaderShape(anchorNum: nat)
    ensures |Header(anchorNum)| == 4 + anchorNum
    ensures Header(anchorNum)[..4] == ["no", "tag_x", "tag_y", "tag_z"]
    ensures forall i :: 0 <= i < anchorNum ==> Header(anchorNum)[4 + i] == AnchorName(i)
    ensures forall i, j :: 0 <= i < j < |Header(anchorNum)| ==> Header(anchorNum)[i] != Header(anchorNum)[j]
  {
    var h := Header(anchorNum);
    forall i, j | 0 <= i < j < |h|
      ensures h[i] != h[j]
    {
      if j < 4 {
      } else if i < 4 {
        assert h[j][..6] == "anchor";
      } else {
        assert h[i] == AnchorName(i - 4) && h[j] == AnchorName(j - 4);
        AnchorNameInjective(i - 4, j - 4);
      }
    }
  }
}

/** The row builder of src/lib.rs (`as_rows` and `build_rows`): the masks of
    the padded digits are unpacked and dealt out, digit by digit, into the cap
    row, the upper row and the lower row. */
module RowBuilder {
  import opened Decimal
  import opened Segments

  /** The three structural rows: one cap bit per digit, and three bits per
      digit (left, middle, right stroke) for each of the two bands. */
  datatype Rows = Rows(cap: seq<bool>, upper: seq<bool>, lower: seq<bool>)

  /** The rows of a `k`-digit number have lengths `k`, `3k` and `3k`. */
  predicate Shaped(r: Rows, k: nat) {
    |r.cap| == k && |r.upper| == 3 * k && |r.lower| == 3 * k &&
    |r.upper| % 3 == 0 && |r.lower| % 3 == 0
  }

  /** The seven bits digit `j` contributed, gathered back from the rows in
      unpacking order. */
  function Column(r: Rows, j: nat): (col: seq<bool>)
    requires Shaped(r, |r.cap|) && j < |r.cap|
    ensures |col| == 7
  {
    [r.cap[j]] + r.upper[3 * j..3 * j + 3] + r.lower[3 * j..3 * j + 3]
  }

  /** `build_rows`: appends one digit's unpacked bits. The digits already
      placed keep their columns and the new digit becomes the last column;
      its eighth bit is dropped. */
  function BuildRows(lines: Rows, bits: seq<bool>): (r: Rows)
    requires |bits| == 8
    ensures Shaped(lines, |lines.cap|) ==> Shaped(r, |lines.cap| + 1)
    ensures Shaped(lines, |lines.cap|) ==>
      forall j :: 0 <= j < |lines.cap| ==> Column(r, j) == Column(lines, j)
    ensures Shaped(lines, |lines.cap|) ==> Column(r, |lines.cap|) == bits[..7]
  {
    Rows(lines.cap + [bits[0]], lines.upper + bits[1..4], lines.lower + bits[4..7])
  }

  predicate AllBytes(digits: seq<seq<bool>>) {
    forall j :: 0 <= j < |digits| ==> |digits[j]| == 8
  }

  /** The fold of `build_rows` over the unpacked digits, from empty rows and
      left to right: digit `j` owns cap index `j` and band indices `3j` to
      `3j + 2`. */
  function FoldRows(digits: seq<seq<bool>>): (r: Rows)
    requires AllBytes(digits)
    ensures Shaped(r, |digits|)
  {
    if |digits| == 0 then Rows([], [], [])
    else BuildRows(FoldRows(digits[..|digits| - 1]), digits[|digits| - 1])
  }

  lemma {:induction false} FoldRowsColumns(digits: seq<seq<bool>>)
    requires AllBytes(digits)
    ensures forall j :: 0 <= j < |digits| ==> Column(FoldRows(digits), j) == digits[j][..7]
    decreases |digits|
  {
    if |digits| != 0 {
      var k := |digits| - 1;
      var front := digits[..k];
      assert AllBytes(front);
      FoldRowsColumns(front);
      var r := FoldRows(front);
      var r2 := FoldRows(digits);
      assert r2 == BuildRows(r, digits[k]);
      forall j | 0 <= j < |digits|
        ensures Column(r2, j) == digits[j][..7]
      {
        if j < k {
          assert Column(r2, j) == Column(r, j) == front[j][..7];
        }
      }
    }
  }

  /** `as_rows`: pads the number, looks every character up in the segment
      table, unpacks the masks and builds the rows. The lookup cannot fail:
      every padded character is a digit. */
  function AsRows(n: nat, padding: nat): (r: Rows)
    ensures Shaped(r, |PadInput(n, padding)|)
    ensures forall j :: 0 <= j < |r.cap| ==>
      Column(r, j) == BitsToVec(Lookup(PadInput(n, padding)[j]))[..7]
  {
    var s := PadInput(n, padding);
    var digits := seq(|s|, j requires 0 <= j < |s| => BitsToVec(Lookup(s[j])));
    FoldRowsColumns(digits);
    FoldRows(digits)
  }

  /** Index-wise reading of the rows: digit `j`'s cap bit is `cap[j]`, its
      upper strokes are `upper[3j..3j+3]` and its lower strokes
      `lower[3j..3j+3]`, each in unpacking order. */
  lemma {:induction false} RowIndices(n: nat, padding: nat, j: nat, t: nat)
    requires j < |PadInput(n, padding)| && t < 3
    ensures var r := AsRows(n, padding);
            var bits := BitsToVec(Lookup(PadInput(n, padding)[j]));
            && r.cap[j] == bits[0]
            && r.upper[3 * j + t] == bits[1 + t]
            && r.lower[3 * j + t] == bits[4 + t]
  {
    var r := AsRows(n, padding);
    var bits := BitsToVec(Lookup(PadInput(n, padding)[j]));
    ColumnIndices(r, j, t);
    assert Column(r, j) == bits[..7];
  }

  lemma ColumnIndices(r: Rows, j: nat, t: nat)
    requires Shaped(r, |r.cap|) && j < |r.cap| && t < 3
    ensures Column(r, j)[0] == r.cap[j]
    ensures Column(r, j)[1 + t] == r.upper[3 * j + t]
    ensures Column(r, j)[4 + t] == r.lower[3 * j + t]
  {
  }

  /** The rows lose nothing: two numbers drawn with the same rows are the same
      number, whatever their padding. */
  lemma {:induction false} AsRowsInjective(n1: nat, p1: nat, n2: nat, p2: nat)
    requires AsRows(n1, p1) == AsRows(n2, p2)
    ensures n1 == n2
  {
    var r := AsRows(n1, p1);
    SameColumnsSameDigits(r, PadInput(n1, p1), PadInput(n2, p2));
  }

  lemma SameColumnsSameDigits(r: Rows, s1: string, s2: string)
    requires AllDigits(s1) && AllDigits(s2)
    requires Shaped(r, |s1|) && Shaped(r, |s2|)
    requires forall j :: 0 <= j < |s1| ==> Column(r, j) == BitsToVec(Lookup(s1[j]))[..7]
    requires forall j :: 0 <= j < |s2| ==> Column(r, j) == BitsToVec(Lookup(s2[j]))[..7]
    ensures s1 == s2
  {
    forall j | 0 <= j < |s1|
      ensures s1[j] == s2[j]
    {
      ColumnDeterminesDigit(s1[j], s2[j]);
    }
  }

  /** The seven used bits of a mask identify its digit. */
  lemma ColumnDeterminesDigit(c1: char, c2: char)
    requires IsDigit(c1) && IsDigit(c2)
    requires BitsToVec(Lookup(c1))[..7] == BitsToVec(Lookup(c2))[..7]
    ensures c1 == c2
  {
    var b1 := BitsToVec(Lookup(c1));
    var b2 := BitsToVec(Lookup(c2));
    PaddingBitUnused(c1);
    PaddingBitUnused(c2);
    assert b1 == b1[..7] + [b1[7]] && b2 == b2[..7] + [b2[7]];
    PackUnpack(Lookup(c1));
    PackUnpack(Lookup(c2));
    MaskInjective(c1, c2);
  }
}

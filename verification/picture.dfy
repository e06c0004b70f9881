/** The drawing described digit by digit, independently of masks and rows:
    every line is a run of cells, one per digit, each showing the strokes
    of that digit's conventional seven-segment shape. */
module Picture {
  import opened Text
  import opened Decimal
  import opened Segments
  import opened RowBuilder
  import opened Render

  /** The horizontal slices of a digit: its cap (the top stroke), its upper
      band and its lower band. */
  datatype Part = CapPart | UpperPart | LowerPart

  /** Which of its left, middle and right strokes digit `c` lights in
      `part`; a cap has no vertical strokes. */
  function Strokes(c: char, part: Part): (t: seq<bool>)
    requires IsDigit(c)
    ensures |t| == 3
    ensures part == CapPart ==> !t[0] && !t[2]
  {
    var lit := LitSegments(DigitValue(c));
    match part
    case CapPart => [false, Top in lit, false]
    case UpperPart => [UpperLeft in lit, Middle in lit, UpperRight in lit]
    case LowerPart => [LowerLeft in lit, Bottom in lit, LowerRight in lit]
  }

  /** The strokes of `part` for every digit of `s`, left to right. */
  function StrokesOf(s: string, part: Part): (bits: seq<bool>)
    requires AllDigits(s)
    ensures |bits| == 3 * |s|
  {
    if |s| == 0 then [] else StrokesOf(s[..|s| - 1], part) + Strokes(s[|s| - 1], part)
  }

  /** The cell digit `c` draws for `part`. */
  function DigitCell(c: char, part: Part, width: nat, sep: bool): string
    requires IsDigit(c)
  {
    var t := Strokes(c, part);
    Cell(t[0], t[1], t[2], width, sep)
  }

  /** One cell per digit of `s`, showing its strokes of `part`. */
  function Pieces(s: string, part: Part, width: nat, sep: bool): string
    requires AllDigits(s)
  {
    if |s| == 0 then [] else Pieces(s[..|s| - 1], part, width, sep) + DigitCell(s[|s| - 1], part, width, sep)
  }

  /** The `height` lines of a band of `part`: the middle strokes only appear
      on its last line. */
  function BandDrawing(s: string, part: Part, width: nat, height: nat): (ls: seq<string>)
    requires AllDigits(s) && height >= 1
    ensures |ls| == height
  {
    seq(height - 1, _ => TrimEnd(Pieces(s, part, width, false))) + [TrimEnd(Pieces(s, part, width, true))]
  }

  /** The lines of the drawing of the digit string `s`, without trailing
      blanks: the cap line, then the upper band, then the lower band. */
  function Drawing(s: string, width: nat, height: nat): (ls: seq<string>)
    requires AllDigits(s) && height >= 1
    ensures |ls| == 1 + 2 * height
  {
    [TrimEnd(Pieces(s, CapPart, width, true))]
      + BandDrawing(s, UpperPart, width, height)
      + BandDrawing(s, LowerPart, width, height)
  }

  /** Drawing the strokes triple by triple gives the digit cells. */
  lemma {:induction false} CellsOfStrokes(s: string, part: Part, width: nat, sep: bool)
    requires AllDigits(s)
    ensures Cells(StrokesOf(s, part), width, sep) == Pieces(s, part, width, sep)
    decreases |s|
  {
    if |s| != 0 {
      var front := s[..|s| - 1];
      var t := Strokes(s[|s| - 1], part);
      CellsOfStrokes(front, part, width, sep);
      assert |StrokesOf(front, part)| % 3 == 0;
      CellsAppend(StrokesOf(front, part), t, width, sep);
      assert t[3..] == [];
    }
  }

  /** A digit's mask, unpacked, lists the strokes of its shape: the cap bit
      first, then the upper band, then the lower band. */
  lemma MaskStrokes(c: char)
    requires IsDigit(c)
    ensures [false, BitsToVec(Lookup(c))[0], false] == Strokes(c, CapPart)
    ensures BitsToVec(Lookup(c))[1..4] == Strokes(c, UpperPart)
    ensures BitsToVec(Lookup(c))[4..7] == Strokes(c, LowerPart)
  {
    SegmentBit(c, Top);
    MaskBand(c, UpperPart, UpperLeft, Middle, UpperRight, 1);
    MaskBand(c, LowerPart, LowerLeft, Bottom, LowerRight, 4);
  }

  /** The three bits of a band, read from the mask at `i`, are the strokes
      `left`, `middle` and `right` of that band. */
  lemma MaskBand(c: char, part: Part, left: Segment, middle: Segment, right: Segment, i: nat)
    requires IsDigit(c) && part != CapPart
    requires part == UpperPart ==> left == UpperLeft && middle == Middle && right == UpperRight && i == 1
    requires part == LowerPart ==> left == LowerLeft && middle == Bottom && right == LowerRight && i == 4
    ensures BitsToVec(Lookup(c))[i..i + 3] == Strokes(c, part)
  {
    var b := BitsToVec(Lookup(c));
    SegmentBit(c, left);
    SegmentBit(c, middle);
    SegmentBit(c, right);
    Triple(b, i);
  }

  lemma Triple(b: seq<bool>, i: nat)
    requires i + 3 <= |b|
    ensures b[i..i + 3] == [b[i], b[i + 1], b[i + 2]]
  {
  }

  lemma SegmentBit(c: char, seg: Segment)
    requires IsDigit(c)
    ensures BitsToVec(Lookup(c))[Position(seg)] == (seg in LitSegments(DigitValue(c)))
  {
    MaskMatchesShape(c);
  }

  /** The unpacked mask `bits` carries the strokes of digit `c`. */
  predicate CarriesStrokes(bits: seq<bool>, c: char)
    requires IsDigit(c)
  {
    && |bits| == 8
    && [false, bits[0], false] == Strokes(c, CapPart)
    && bits[1..4] == Strokes(c, UpperPart)
    && bits[4..7] == Strokes(c, LowerPart)
  }

  /** Building the rows from bits that carry the strokes of the digits of
      `s` lays out exactly those strokes. */
  lemma {:induction false} FoldRowsStrokes(digits: seq<seq<bool>>, s: string)
    requires AllDigits(s) && |digits| == |s|
    requires forall j {:trigger CarriesStrokes(digits[j], s[j])} :: 0 <= j < |s| ==> CarriesStrokes(digits[j], s[j])
    ensures AllBytes(digits)
    ensures Expand(FoldRows(digits).cap) == StrokesOf(s, CapPart)
    ensures FoldRows(digits).upper == StrokesOf(s, UpperPart)
    ensures FoldRows(digits).lower == StrokesOf(s, LowerPart)
    decreases |s|
  {
    forall j | 0 <= j < |s|
      ensures |digits[j]| == 8
    {
      assert CarriesStrokes(digits[j], s[j]);
    }
    if |s| != 0 {
      var k := |s| - 1;
      assert CarriesStrokes(digits[k], s[k]);
      var front := digits[..k];
      assert forall j :: 0 <= j < k ==> front[j] == digits[j] && s[..k][j] == s[j];
      FoldRowsStrokes(front, s[..k]);
      FoldRowsStrokesStep(digits, s);
    }
  }

  /** One digit more: the rows and the strokes both grow by that digit's
      triple. */
  lemma FoldRowsStrokesStep(digits: seq<seq<bool>>, s: string)
    requires AllDigits(s) && |digits| == |s| > 0 && AllBytes(digits)
    requires CarriesStrokes(digits[|s| - 1], s[|s| - 1])
    requires var r := FoldRows(digits[..|s| - 1]);
             && Expand(r.cap) == StrokesOf(s[..|s| - 1], CapPart)
             && r.upper == StrokesOf(s[..|s| - 1], UpperPart)
             && r.lower == StrokesOf(s[..|s| - 1], LowerPart)
    ensures Expand(FoldRows(digits).cap) == StrokesOf(s, CapPart)
    ensures FoldRows(digits).upper == StrokesOf(s, UpperPart)
    ensures FoldRows(digits).lower == StrokesOf(s, LowerPart)
  {
    var k := |s| - 1;
    var bits := digits[k];
    AllBytesPrefix(digits, k);
    var r := FoldRows(digits[..k]);
    var r2 := FoldRows(digits);
    assert r2 == BuildRows(r, bits);
    StrokesOfSnoc(s, CapPart);
    StrokesOfSnoc(s, UpperPart);
    StrokesOfSnoc(s, LowerPart);
    ExpandSnoc(r.cap, bits[0]);
    assert r2.cap == r.cap + [bits[0]];
  }

  lemma AllBytesPrefix(digits: seq<seq<bool>>, k: nat)
    requires AllBytes(digits) && k <= |digits|
    ensures AllBytes(digits[..k])
  {
  }

  lemma StrokesOfSnoc(s: string, part: Part)
    requires AllDigits(s) && |s| > 0
    ensures StrokesOf(s, part) == StrokesOf(s[..|s| - 1], part) + Strokes(s[|s| - 1], part)
  {
  }

  /** Expanding one more cap bit appends its triple. */
  lemma ExpandSnoc(cap: seq<bool>, x: bool)
    ensures Expand(cap + [x]) == Expand(cap) + [false, x, false]
  {
    assert (cap + [x])[..|cap|] == cap;
  }

  /** The rows of `n` are the strokes of its padded digits. */
  lemma {:induction false} RowsAreStrokes(n: nat, padding: nat)
    ensures var r := AsRows(n, padding);
            var s := PadInput(n, padding);
            && Expand(r.cap) == StrokesOf(s, CapPart)
            && r.upper == StrokesOf(s, UpperPart)
            && r.lower == StrokesOf(s, LowerPart)
  {
    var s := PadInput(n, padding);
    var digits := seq(|s|, j requires 0 <= j < |s| => BitsToVec(Lookup(s[j])));
    forall j | 0 <= j < |s|
      ensures CarriesStrokes(digits[j], s[j])
    {
      MaskStrokes(s[j]);
    }
    FoldRowsStrokes(digits, s);
  }
}

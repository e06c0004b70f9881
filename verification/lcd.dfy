/** The pipeline driver of src/lib.rs: `run` and `variable_height_row`. */
module Lcd {
  import opened Text
  import opened Decimal
  import opened Segments
  import opened RowBuilder
  import opened Render
  import opened Picture

  /** The lines of a band `height` lines tall: `height - 1` lines drawn
      without separators, then one drawn with them. */
  function Band(bits: seq<bool>, width: nat, height: nat): (ls: seq<string>)
    requires |bits| % 3 == 0 && height >= 1
    ensures |ls| == height && AllLines(ls)
  {
    var ls := Repeated(Line(bits, width, false), height - 1) + [Line(bits, width, true)];
    AllLinesAppend(Repeated(Line(bits, width, false), height - 1), [Line(bits, width, true)]);
    ls
  }

  /** `k` copies of the line `l`. */
  function Repeated(l: string, k: nat): (ls: seq<string>)
    requires IsLine(l)
    ensures |ls| == k && AllLines(ls)
    ensures forall i :: 0 <= i < k ==> ls[i] == l
  {
    seq(k, _ => l)
  }

  /** The lines drawn from the rows `r`, top to bottom: the cap line, the
      upper band and the lower band. */
  function Lines(r: Rows, width: nat, height: nat): (ls: seq<string>)
    requires Shaped(r, |r.cap|) && height >= 1
    ensures |ls| == 1 + 2 * height && AllLines(ls)
  {
    var top := [Line(Expand(r.cap), width, true)];
    var upper := Band(r.upper, width, height);
    var lower := Band(r.lower, width, height);
    AllLinesAppend(top, upper);
    AllLinesAppend(top + upper, lower);
    top + upper + lower
  }

  /** The lines of the drawing of `n`. */
  function Display(n: nat, padding: nat, width: nat, height: nat): (ls: seq<string>)
    requires height >= 1
    ensures |ls| == 1 + 2 * height && AllLines(ls)
  {
    Lines(AsRows(n, padding), width, height)
  }

  /** No line of a band ends in a space. */
  lemma BandTrimmed(bits: seq<bool>, width: nat, height: nat)
    requires |bits| % 3 == 0 && height >= 1
    ensures forall k :: 0 <= k < height ==> NoTrailingSpace(Band(bits, width, height)[k])
  {
    var ls := Band(bits, width, height);
    forall k | 0 <= k < height
      ensures NoTrailingSpace(ls[k])
    {
      if k < height - 1 {
        assert ls[k] == Line(bits, width, false);
      } else {
        assert ls[k] == Line(bits, width, true);
      }
    }
  }

  /** `variable_height_row`: appends the band of `row` to `result`, one line
      per loop iteration and the separator line last. `height` is at least
      one because `variable_height_row` computes `height - 1` as a `usize`. */
  method VariableHeightRow(result: string, row: seq<bool>, width: nat, height: nat) returns (r: string)
    requires |row| % 3 == 0 && height >= 1
    ensures r == result + JoinLines(Band(row, width, height))
  {
    var middle := Line(row, width, false);
    var bottom := Line(row, width, true);
    r := result;
    var i := 0;
    while i < height - 1
      invariant 0 <= i <= height - 1
      invariant r == result + JoinLines(Repeated(middle, i))
    {
      r := r + MiddleRow(row, width);
      JoinLinesSnoc(Repeated(middle, i), middle);
      ConcatAssoc(result, JoinLines(Repeated(middle, i)), middle + "\n");
      assert Repeated(middle, i) + [middle] == Repeated(middle, i + 1);
      i := i + 1;
    }
    r := r + BottomRow(row, width);
    JoinLinesSnoc(Repeated(middle, height - 1), bottom);
    ConcatAssoc(result, JoinLines(Repeated(middle, height - 1)), bottom + "\n");
  }

  /** A line drawn from the strokes of the digits of `s` is the trimmed run
      of their cells. */
  lemma {:induction false} LineIsPieces(s: string, part: Part, width: nat, sep: bool)
    requires AllDigits(s)
    ensures |StrokesOf(s, part)| % 3 == 0
    ensures Line(StrokesOf(s, part), width, sep) == TrimEnd(Pieces(s, part, width, sep))
  {
    var bits := StrokesOf(s, part);
    assert |bits| % 3 == 0;
    UntrimmedIsCells(bits, width, sep);
    CellsOfStrokes(s, part, width, sep);
  }

  /** A band drawn from the strokes of the digits of `s` is their band
      picture. */
  lemma {:induction false} BandIsDrawing(s: string, part: Part, width: nat, height: nat)
    requires AllDigits(s) && height >= 1
    ensures |StrokesOf(s, part)| % 3 == 0
    ensures Band(StrokesOf(s, part), width, height) == BandDrawing(s, part, width, height)
  {
    LineIsPieces(s, part, width, false);
    LineIsPieces(s, part, width, true);
  }

  /** The pipeline of `run` draws the reference picture of the padded
      number: each digit appears as the cells of its seven-segment shape. */
  lemma {:induction false} DrawsDigits(n: nat, padding: nat, width: nat, height: nat)
    requires height >= 1
    ensures Display(n, padding, width, height) == Drawing(PadInput(n, padding), width, height)
  {
    var s := PadInput(n, padding);
    var r := AsRows(n, padding);
    RowsAreStrokes(n, padding);
    LineIsPieces(s, CapPart, width, true);
    BandIsDrawing(s, UpperPart, width, height);
    BandIsDrawing(s, LowerPart, width, height);
  }

  /** Every line drawn from the rows ends in a visible stroke or is empty,
      and the cap line holds no vertical stroke. */
  lemma {:induction false} LinesTrimmed(r: Rows, width: nat, height: nat)
    requires Shaped(r, |r.cap|) && height >= 1
    ensures forall k :: 0 <= k < |Lines(r, width, height)| ==> NoTrailingSpace(Lines(r, width, height)[k])
    ensures '|' !in Lines(r, width, height)[0]
  {
    var ls := Lines(r, width, height);
    var upper := Band(r.upper, width, height);
    var lower := Band(r.lower, width, height);
    ExpandLightsMiddlesOnly(r.cap);
    BandTrimmed(r.upper, width, height);
    BandTrimmed(r.lower, width, height);
    forall k | 0 <= k < |ls|
      ensures NoTrailingSpace(ls[k])
    {
      if k == 0 {
      } else if k <= height {
        assert ls[k] == upper[k - 1];
      } else {
        assert ls[k] == lower[k - 1 - height];
      }
    }
  }

  /** `run`: the full drawing of `n`, at least `padding` digits wide, with
      horizontal strokes `width` characters long and bands `height` lines
      tall. It has `1 + 2 * height` lines, each newline-terminated and free of
      trailing spaces, and the cap line never holds a vertical stroke. */
  method Run(n: nat, padding: nat, width: nat, height: nat) returns (result: string)
    requires height >= 1
    ensures |SplitLines(result)| == 1 + 2 * height
    ensures forall k :: 0 <= k < |SplitLines(result)| ==> NoTrailingSpace(SplitLines(result)[k])
    ensures '|' !in SplitLines(result)[0]
    ensures result == JoinLines(Drawing(PadInput(n, padding), width, height))
  {
    var rows := AsRows(n, padding);
    assert Display(n, padding, width, height) == Lines(rows, width, height);
    // `run` appends the top row to an empty `String`.
    result := TopRow(rows.cap, width);
    ghost var top := [Line(Expand(rows.cap), width, true)];
    JoinLinesOne(top[0]);
    result := VariableHeightRow(result, rows.upper, width, height);
    ghost var upper := Band(rows.upper, width, height);
    JoinLinesAppend(top, upper);
    result := VariableHeightRow(result, rows.lower, width, height);
    ghost var lower := Band(rows.lower, width, height);
    JoinLinesAppend(top + upper, lower);
    SplitJoin(Lines(rows, width, height));
    LinesTrimmed(rows, width, height);
    DrawsDigits(n, padding, width, height);
  }
}

/** The glyph renderer of src/lib.rs: `row_with_separator`, its wrappers
    `top_row`, `middle_row` and `bottom_row`, and the glyph builders
    `vertical` and `horizontal`. */
module Render {
  import opened Text

  /** `vertical`: one character, a pipe for a lit stroke, else a space. */
  function Vertical(yes: bool): (s: string)
    ensures |s| == 1
    ensures s[0] == '|' <==> yes
    ensures s[0] == ' ' <==> !yes
  {
    if yes then "|" else " "
  }

  /** `horizontal`: `width` underscores for a lit stroke, else `width` spaces. */
  function Horizontal(yes: bool, width: nat): (s: string)
    ensures |s| == width
    ensures forall i :: 0 <= i < width ==> s[i] == (if yes then '_' else ' ')
  {
    Repeat(if yes then '_' else ' ', width)
  }

  /** The position in its triple of the index after one at position `p`
      (positions are 0, 1 and 2: the index modulo three). */
  function NextPhase(p: nat): nat {
    if p >= 2 then 0 else p + 1
  }

  /** The glyph of one bit, by its position in the triple: the first and last
      positions are vertical strokes, the middle one is horizontal and shows
      underscores only when separators are on. */
  function Glyph(bit: bool, phase: nat, width: nat, sep: bool): (g: string)
    ensures phase == 0 || phase == 2 ==> |g| == 1 && (g[0] == '|' <==> bit) && (g[0] == ' ' <==> !bit)
    ensures phase == 1 ==> |g| == width
    ensures phase == 1 ==> forall i :: 0 <= i < width ==> g[i] == (if sep && bit then '_' else ' ')
  {
    if phase == 0 || phase == 2 then Vertical(bit) else Horizontal(sep && bit, width)
  }

  /** The glyphs of `bits`, left to right, the first bit being at `phase`.
      They are drawn from strokes and blanks only, and underscores need the
      separator flag. */
  function Glyphs(bits: seq<bool>, phase: nat, width: nat, sep: bool): (g: string)
    ensures forall k :: 0 <= k < |g| ==> IsGlyphChar(g[k])
    ensures !sep ==> '_' !in g
  {
    if |bits| == 0 then []
    else Glyph(bits[0], phase, width, sep) + Glyphs(bits[1..], NextPhase(phase), width, sep)
  }

  /** The line `row_with_separator` builds before trimming: the loop over all
      indices of the row, each pushing its glyph. A row of `3k` bits takes
      `k * (2 + width)` characters. */
  function Untrimmed(bits: seq<bool>, width: nat, sep: bool): (u: string)
    ensures forall k :: 0 <= k < |u| ==> IsGlyphChar(u[k])
    ensures !sep ==> '_' !in u
    ensures |bits| % 3 == 0 ==> |u| == (|bits| / 3) * (2 + width)
  {
    GlyphsLength(bits, width, sep);
    Glyphs(bits, 0, width, sep)
  }

  /** Whole triples drawn from the first phase take `2 + width` characters
      each. */
  lemma {:induction false} GlyphsLength(bits: seq<bool>, width: nat, sep: bool)
    ensures |bits| % 3 == 0 ==> |Glyphs(bits, 0, width, sep)| == (|bits| / 3) * (2 + width)
    decreases |bits|
  {
    if |bits| % 3 == 0 && |bits| != 0 {
      GlyphsTriple(bits, width, sep);
      GlyphsLength(bits[3..], width, sep);
    }
  }

  /** Appending one bit appends its glyph, at the phase reached after the
      bits before it. */
  lemma {:induction false} GlyphsSnoc(bits: seq<bool>, b: bool, phase: nat, width: nat, sep: bool)
    requires phase < 3
    ensures Glyphs(bits + [b], phase, width, sep)
         == Glyphs(bits, phase, width, sep) + Glyph(b, (phase + |bits|) % 3, width, sep)
    decreases |bits|
  {
    if |bits| == 0 {
      GlyphsSingle(b, phase, width, sep);
      assert bits + [b] == [b];
    } else {
      var x, tail := bits[0], bits[1..];
      assert bits == [x] + tail;
      calc {
        Glyphs(bits + [b], phase, width, sep);
        Glyphs([x] + tail + [b], phase, width, sep);
        { GlyphsSnoc(tail, b, NextPhase(phase), width, sep);
          GlyphsSnocStep(x, tail, b, phase, width, sep); }
        Glyphs([x] + tail, phase, width, sep) + Glyph(b, (phase + |[x] + tail|) % 3, width, sep);
        Glyphs(bits, phase, width, sep) + Glyph(b, (phase + |bits|) % 3, width, sep);
      }
    }
  }

  lemma GlyphsSingle(b: bool, phase: nat, width: nat, sep: bool)
    requires phase < 3
    ensures Glyphs([b], phase, width, sep) == Glyph(b, phase % 3, width, sep)
  {
    GlyphsCons(b, [], phase, width, sep);
    assert [b] + [] == [b];
  }

  lemma GlyphsSnocStep(x: bool, tail: seq<bool>, b: bool, phase: nat, width: nat, sep: bool)
    requires phase < 3
    requires Glyphs(tail + [b], NextPhase(phase), width, sep)
          == Glyphs(tail, NextPhase(phase), width, sep) + Glyph(b, (NextPhase(phase) + |tail|) % 3, width, sep)
    ensures Glyphs([x] + tail + [b], phase, width, sep)
         == Glyphs([x] + tail, phase, width, sep) + Glyph(b, (phase + |[x] + tail|) % 3, width, sep)
  {
    var g0 := Glyph(x, phase, width, sep);
    var rest := Glyphs(tail, NextPhase(phase), width, sep);
    var last := Glyph(b, (NextPhase(phase) + |tail|) % 3, width, sep);
    calc {
      Glyphs([x] + tail + [b], phase, width, sep);
      { assert [x] + tail + [b] == [x] + (tail + [b]); }
      Glyphs([x] + (tail + [b]), phase, width, sep);
      { GlyphsCons(x, tail + [b], phase, width, sep); }
      g0 + (rest + last);
      { ConcatAssoc(g0, rest, last); }
      (g0 + rest) + last;
      { GlyphsCons(x, tail, phase, width, sep); }
      Glyphs([x] + tail, phase, width, sep) + last;
      { PhaseShift(phase, x, tail); }
      Glyphs([x] + tail, phase, width, sep) + Glyph(b, (phase + |[x] + tail|) % 3, width, sep);
    }
  }

  /** A row starting with bit `x` starts with its glyph. */
  lemma GlyphsCons(x: bool, rest: seq<bool>, phase: nat, width: nat, sep: bool)
    ensures Glyphs([x] + rest, phase, width, sep)
         == Glyph(x, phase, width, sep) + Glyphs(rest, NextPhase(phase), width, sep)
  {
    assert ([x] + rest)[1..] == rest;
  }

  /** One step of the phase is one more index, modulo three. */
  lemma PhaseShift(phase: nat, x: bool, tail: seq<bool>)
    requires phase < 3
    ensures (NextPhase(phase) + |tail|) % 3 == (phase + |[x] + tail|) % 3
  {
  }

  /** The loop of `row_with_separator` step by step: iteration `i` pushes the
      glyph chosen by `i % 3` for bit `i`. */
  lemma UntrimmedLoopStep(bits: seq<bool>, i: nat, width: nat, sep: bool)
    requires i < |bits|
    ensures Untrimmed(bits[..i + 1], width, sep)
         == Untrimmed(bits[..i], width, sep) + Glyph(bits[i], i % 3, width, sep)
  {
    assert bits[..i + 1] == bits[..i] + [bits[i]];
    GlyphsSnoc(bits[..i], bits[i], 0, width, sep);
  }

  /** The three glyphs of one digit: left stroke, middle stroke, right stroke. */
  function Cell(a: bool, b: bool, c: bool, width: nat, sep: bool): (s: string)
    ensures |s| == 2 + width
  {
    Vertical(a) + Horizontal(sep && b, width) + Vertical(c)
  }

  /** The row drawn triple by triple, one cell per digit (an incomplete
      last triple draws nothing). */
  function Cells(bits: seq<bool>, width: nat, sep: bool): string {
    if |bits| < 3 then []
    else Cell(bits[0], bits[1], bits[2], width, sep) + Cells(bits[3..], width, sep)
  }

  /** A row of `3k` bits is drawn on `k * (2 + width)` characters. */
  lemma {:induction false} CellsLength(bits: seq<bool>, width: nat, sep: bool)
    requires |bits| % 3 == 0
    ensures |Cells(bits, width, sep)| == (|bits| / 3) * (2 + width)
    decreases |bits|
  {
    if |bits| != 0 {
      CellsLength(bits[3..], width, sep);
    }
  }

  /** The index-by-index loop and the triple-by-triple reading draw the same
      line; a row of `3k` bits thus gives `k * (2 + width)` characters. */
  lemma {:induction false} UntrimmedIsCells(bits: seq<bool>, width: nat, sep: bool)
    requires |bits| % 3 == 0
    ensures Untrimmed(bits, width, sep) == Cells(bits, width, sep)
    decreases |bits|
  {
    if |bits| != 0 {
      GlyphsTriple(bits, width, sep);
      UntrimmedIsCells(bits[3..], width, sep);
    }
  }

  /** Three steps of the loop from the start of a triple draw one cell. */
  lemma GlyphsTriple(bits: seq<bool>, width: nat, sep: bool)
    requires |bits| >= 3
    ensures Glyphs(bits, 0, width, sep)
         == Cell(bits[0], bits[1], bits[2], width, sep) + Glyphs(bits[3..], 0, width, sep)
  {
    var rest := bits[3..];
    assert bits == [bits[0]] + ([bits[1]] + ([bits[2]] + rest));
    GlyphsOfTriple(bits[0], bits[1], bits[2], rest, width, sep);
  }

  lemma GlyphsOfTriple(a: bool, b: bool, c: bool, rest: seq<bool>, width: nat, sep: bool)
    ensures Glyphs([a] + ([b] + ([c] + rest)), 0, width, sep)
         == Cell(a, b, c, width, sep) + Glyphs(rest, 0, width, sep)
  {
    var v0, h, v2 := Vertical(a), Horizontal(sep && b, width), Vertical(c);
    var tail := Glyphs(rest, 0, width, sep);
    calc {
      Glyphs([a] + ([b] + ([c] + rest)), 0, width, sep);
      { GlyphsCons(a, [b] + ([c] + rest), 0, width, sep); }
      v0 + Glyphs([b] + ([c] + rest), 1, width, sep);
      { GlyphsCons(b, [c] + rest, 1, width, sep); }
      v0 + (h + Glyphs([c] + rest, 2, width, sep));
      { GlyphsCons(c, rest, 2, width, sep); }
      v0 + (h + (v2 + tail));
      { ConcatAssoc(h, v2, tail); ConcatAssoc(v0, h + v2, tail); }
      v0 + h + v2 + tail;
    }
  }

  /** Drawing a row triple by triple splits at any whole triple. */
  lemma {:induction false} CellsAppend(a: seq<bool>, b: seq<bool>, width: nat, sep: bool)
    requires |a| % 3 == 0
    ensures Cells(a + b, width, sep) == Cells(a, width, sep) + Cells(b, width, sep)
    decreases |a|
  {
    if |a| == 0 {
      assert a + b == b;
    } else {
      var t, rest := a[..3], a[3..];
      assert a == t + rest;
      CellsAppend(rest, b, width, sep);
      CellsAppendStep(t, rest, b, width, sep);
    }
  }

  lemma CellsAppendStep(t: seq<bool>, rest: seq<bool>, b: seq<bool>, width: nat, sep: bool)
    requires |t| == 3
    requires Cells(rest + b, width, sep) == Cells(rest, width, sep) + Cells(b, width, sep)
    ensures Cells(t + rest + b, width, sep) == Cells(t + rest, width, sep) + Cells(b, width, sep)
  {
    var c := Cell(t[0], t[1], t[2], width, sep);
    assert t + rest + b == t + (rest + b);
    CellsPrepend(t, rest + b, width, sep);
    CellsPrepend(t, rest, width, sep);
    ConcatAssoc(c, Cells(rest, width, sep), Cells(b, width, sep));
  }

  /** A row that starts with the triple `t` starts with its cell. */
  lemma CellsPrepend(t: seq<bool>, rest: seq<bool>, width: nat, sep: bool)
    requires |t| == 3
    ensures Cells(t + rest, width, sep) == Cell(t[0], t[1], t[2], width, sep) + Cells(rest, width, sep)
  {
    assert (t + rest)[3..] == rest;
  }

  /** Digit `t` of a row is drawn as its own cell, after the cells of the
      digits before it (which take `t * (2 + width)` characters) and before
      the cells of the digits after it. */
  lemma CellAt(bits: seq<bool>, width: nat, sep: bool, t: nat)
    requires |bits| % 3 == 0 && t < |bits| / 3
    ensures Cells(bits, width, sep)
         == Cells(bits[..3 * t], width, sep)
          + Cell(bits[3 * t], bits[3 * t + 1], bits[3 * t + 2], width, sep)
          + Cells(bits[3 * t + 3..], width, sep)
  {
    var pre := bits[..3 * t];
    var mid := bits[3 * t..3 * t + 3];
    var post := bits[3 * t + 3..];
    assert bits == pre + (mid + post);
    CellsAppend(pre, mid + post, width, sep);
    CellsAppend(mid, post, width, sep);
    assert mid[3..] == [];
    assert Cells(mid, width, sep) == Cell(bits[3 * t], bits[3 * t + 1], bits[3 * t + 2], width, sep);
  }

  predicate IsGlyphChar(c: char) {
    c == ' ' || c == '_' || c == '|'
  }

  predicate NoneSet(bits: seq<bool>) {
    forall i :: 0 <= i < |bits| ==> !bits[i]
  }

  /** Only the middle index of a triple may be set: no vertical stroke. */
  predicate OnlyMiddles(bits: seq<bool>) {
    forall i :: 0 <= i < |bits| && i % 3 != 1 ==> !bits[i]
  }

  /** No middle index of a triple is set: no horizontal stroke. */
  predicate NoMiddles(bits: seq<bool>) {
    forall i :: 0 <= i < |bits| && i % 3 == 1 ==> !bits[i]
  }

  /** Dropping a leading triple keeps the triple structure of the rest. */
  lemma DropTriple(bits: seq<bool>)
    requires |bits| >= 3
    ensures NoneSet(bits) ==> NoneSet(bits[3..])
    ensures OnlyMiddles(bits) ==> OnlyMiddles(bits[3..])
    ensures NoMiddles(bits) ==> NoMiddles(bits[3..])
  {
    forall i | 0 <= i < |bits| - 3
      ensures bits[3..][i] == bits[i + 3] && (i + 3) % 3 == i % 3
    {
    }
  }

  /** A line is drawn from space, underscore and pipe only; it has no
      underscore without separators, is blank for an unlit row and has no
      pipe when only middle strokes can be lit. */
  lemma {:induction false} CellsCharacters(bits: seq<bool>, width: nat, sep: bool)
    requires |bits| % 3 == 0
    ensures forall k :: 0 <= k < |Cells(bits, width, sep)| ==> IsGlyphChar(Cells(bits, width, sep)[k])
    ensures !sep ==> '_' !in Cells(bits, width, sep)
    ensures NoneSet(bits) ==>
      forall k :: 0 <= k < |Cells(bits, width, sep)| ==> Cells(bits, width, sep)[k] == ' '
    ensures OnlyMiddles(bits) ==> '|' !in Cells(bits, width, sep)
    decreases |bits|
  {
    if |bits| != 0 {
      DropTriple(bits);
      CellsCharacters(bits[3..], width, sep);
      var c := Cell(bits[0], bits[1], bits[2], width, sep);
      var r := Cells(bits[3..], width, sep);
      assert Cells(bits, width, sep) == c + r;
      assert forall k :: 0 <= k < |c| ==> IsGlyphChar(c[k]);
      assert !sep ==> '_' !in c;
      assert NoneSet(bits) ==> forall k :: 0 <= k < |c| ==> c[k] == ' ';
      assert OnlyMiddles(bits) ==> '|' !in c by {
        if OnlyMiddles(bits) {
          assert !bits[0] && !bits[2];
        }
      }
    }
  }

  /** The character facts of `CellsCharacters`, for the loop's line. */
  lemma UntrimmedCharacters(bits: seq<bool>, width: nat, sep: bool)
    requires |bits| % 3 == 0
    ensures forall k :: 0 <= k < |Untrimmed(bits, width, sep)| ==> IsGlyphChar(Untrimmed(bits, width, sep)[k])
    ensures !sep ==> '_' !in Untrimmed(bits, width, sep)
    ensures NoneSet(bits) ==>
      forall k :: 0 <= k < |Untrimmed(bits, width, sep)| ==> Untrimmed(bits, width, sep)[k] == ' '
    ensures OnlyMiddles(bits) ==> '|' !in Untrimmed(bits, width, sep)
  {
    UntrimmedIsCells(bits, width, sep);
    CellsCharacters(bits, width, sep);
  }

  /** The untrimmed line with its trailing whitespace removed. */
  function Line(bits: seq<bool>, width: nat, sep: bool): (l: string)
    requires |bits| % 3 == 0
    ensures IsLine(l)
    ensures l <= Untrimmed(bits, width, sep)
    ensures forall k :: |l| <= k < |Untrimmed(bits, width, sep)| ==> Untrimmed(bits, width, sep)[k] == ' '
    ensures l == [] || l[|l| - 1] != ' '
    ensures !sep ==> '_' !in l
    ensures OnlyMiddles(bits) ==> '|' !in l
    ensures NoneSet(bits) ==> l == []
  {
    var u := Untrimmed(bits, width, sep);
    UntrimmedCharacters(bits, width, sep);
    var l := TrimEnd(u);
    assert forall k :: 0 <= k < |l| ==> l[k] == u[k];
    l
  }

  /** `row_with_separator`: the row must hold whole triples, as its
      `assert_eq!` demands. The result is the untrimmed line with its trailing spaces
      removed and exactly one newline appended; an unlit row is just the
      newline. */
  function RowWithSeparator(bits: seq<bool>, width: nat, sep: bool): (r: string)
    requires |bits| % 3 == 0
    ensures |r| >= 1 && r[|r| - 1] == '\n'
    ensures IsLine(r[..|r| - 1])
    ensures r[..|r| - 1] <= Untrimmed(bits, width, sep)
    ensures forall k :: |r| - 1 <= k < |Untrimmed(bits, width, sep)| ==> Untrimmed(bits, width, sep)[k] == ' '
    ensures |r| == 1 || r[|r| - 2] != ' '
    ensures NoneSet(bits) ==> r == "\n"
  {
    var l := Line(bits, width, sep);
    assert (l + "\n")[..|l|] == l;
    l + "\n"
  }

  /** The cap row spread into triples: each cap bit `b` becomes
      `[false, b, false]`. */
  function Expand(cap: seq<bool>): (e: seq<bool>)
    ensures |e| == 3 * |cap| && |e| % 3 == 0
    ensures forall j :: 0 <= j < |cap| ==> !e[3 * j] && e[3 * j + 1] == cap[j] && !e[3 * j + 2]
  {
    if |cap| == 0 then []
    else
      var n := |cap| - 1;
      var front := Expand(cap[..n]);
      var e := front + [false, cap[n], false];
      assert forall j :: 0 <= j < n ==> e[3 * j] == front[3 * j] && e[3 * j + 1] == front[3 * j + 1] && e[3 * j + 2] == front[3 * j + 2];
      e
  }

  /** An expanded cap row lights only middle strokes, and lights nothing when
      the cap row is unlit. */
  lemma ExpandLightsMiddlesOnly(cap: seq<bool>)
    ensures OnlyMiddles(Expand(cap))
    ensures NoneSet(cap) ==> NoneSet(Expand(cap))
  {
    var e := Expand(cap);
    forall i | 0 <= i < |e|
      ensures i % 3 != 1 ==> !e[i]
      ensures NoneSet(cap) ==> !e[i]
    {
      var j := i / 3;
      assert i == 3 * j || i == 3 * j + 1 || i == 3 * j + 2;
    }
  }

  /** `top_row`: the cap row drawn with separators. It never holds a vertical
      stroke, and an unlit cap row is just the newline. */
  function TopRow(cap: seq<bool>, width: nat): (r: string)
    ensures |r| >= 1 && r[|r| - 1] == '\n' && IsLine(r[..|r| - 1])
    ensures '|' !in r
    ensures NoneSet(cap) ==> r == "\n"
  {
    var e := Expand(cap);
    ExpandLightsMiddlesOnly(cap);
    Line(e, width, true) + "\n"
  }

  /** `middle_row`: a band row drawn without separators, so it never holds an
      underscore. */
  function MiddleRow(bits: seq<bool>, width: nat): (r: string)
    requires |bits| % 3 == 0
    ensures |r| >= 1 && r[|r| - 1] == '\n' && IsLine(r[..|r| - 1])
    ensures '_' !in r
  {
    Line(bits, width, false) + "\n"
  }

  /** `bottom_row`: a band row drawn with separators; with no middle stroke
      lit it is the same as the middle row. */
  function BottomRow(bits: seq<bool>, width: nat): (r: string)
    requires |bits| % 3 == 0
    ensures |r| >= 1 && r[|r| - 1] == '\n' && IsLine(r[..|r| - 1])
    ensures NoMiddles(bits) ==> r == MiddleRow(bits, width)
  {
    SeparatorOnlyWhenLit(bits, width);
    Line(bits, width, true) + "\n"
  }

  /** Turning separators on changes only lit middle strokes, from spaces to
      underscores; every other character is the same. */
  lemma {:induction false} SeparatorOnlyUnderscores(bits: seq<bool>, width: nat)
    requires |bits| % 3 == 0
    ensures |Cells(bits, width, true)| == |Cells(bits, width, false)|
    ensures forall k :: 0 <= k < |Cells(bits, width, true)| ==>
      Cells(bits, width, false)[k]
        == (if Cells(bits, width, true)[k] == '_' then ' ' else Cells(bits, width, true)[k])
    decreases |bits|
  {
    if |bits| != 0 {
      SeparatorOnlyUnderscores(bits[3..], width);
      var ct := Cell(bits[0], bits[1], bits[2], width, true);
      var cf := Cell(bits[0], bits[1], bits[2], width, false);
      assert forall k :: 0 <= k < |ct| ==> cf[k] == (if ct[k] == '_' then ' ' else ct[k]);
      var rt := Cells(bits[3..], width, true);
      var rf := Cells(bits[3..], width, false);
      assert Cells(bits, width, true) == ct + rt;
      assert Cells(bits, width, false) == cf + rf;
    }
  }

  /** With no middle stroke lit, separators make no difference. */
  lemma {:induction false} SeparatorOnlyWhenLit(bits: seq<bool>, width: nat)
    requires |bits| % 3 == 0
    ensures NoMiddles(bits) ==> Line(bits, width, true) == Line(bits, width, false)
  {
    if NoMiddles(bits) {
      UntrimmedIsCells(bits, width, true);
      UntrimmedIsCells(bits, width, false);
      CellsIgnoreSeparator(bits, width);
    }
  }

  lemma {:induction false} CellsIgnoreSeparator(bits: seq<bool>, width: nat)
    requires |bits| % 3 == 0 && NoMiddles(bits)
    ensures Cells(bits, width, true) == Cells(bits, width, false)
    decreases |bits|
  {
    if |bits| != 0 {
      DropTriple(bits);
      CellsIgnoreSeparator(bits[3..], width);
      assert !bits[1];
    }
  }

  /** The unit tests of `vertical` and `horizontal`. */
  lemma GlyphExamples()
    ensures Vertical(true) == "|" && Vertical(false) == " "
    ensures Horizontal(true, 2) == "__" && Horizontal(false, 3) == "   "
  {
  }

  /** The unit test of `row_with_separator` on an unlit triple. */
  lemma BlankRowExample()
    ensures RowWithSeparator([false, false, false], 1, true) == "\n"
  {
    assert NoneSet([false, false, false]);
  }

  /** The unit test of `row_with_separator`: outer indices are vertical. */
  lemma VerticalRowExample()
    ensures RowWithSeparator([true, false, true, true, false, true], 1, true) == "| || |\n"
  {
    var bits := [true, false, true, true, false, true];
    UntrimmedIsCells(bits, 1, true);
    assert bits[3..] == [true, false, true];
    assert Cells(bits, 1, true) == "| || |";
  }

  /** The unit test of `row_with_separator`: middle indices are horizontal. */
  lemma HorizontalRowExample()
    ensures RowWithSeparator([false, true, false, false, true, false], 1, true) == " _  _\n"
  {
    var bits := [false, true, false, false, true, false];
    UntrimmedIsCells(bits, 1, true);
    assert bits[3..] == [false, true, false];
    assert Cells(bits, 1, true) == " _  _ ";
    assert TrimEnd(" _  _ ") == " _  _";
  }

  /** The unit test of `row_with_separator`: separators can be turned off. */
  lemma NoSeparatorExample()
    ensures RowWithSeparator([true, true, true], 1, false) == "| |\n"
  {
    var bits := [true, true, true];
    UntrimmedIsCells(bits, 1, false);
    assert Cells(bits, 1, false) == "| |";
  }
}

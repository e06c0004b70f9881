/** The two end-to-end cases of tests/integration_test.rs: `run(123456789,
    10, 1, 1)` and `run(123456789, 10, 2, 2)` produce the drawings the tests
    expect, character for character. */
module Integration {
  import opened Text
  import opened Decimal
  import opened Picture
  import opened Lcd

  /** The expected text of `test_simple_size`, line by line: each line of
      the raw string followed by its newline. */
  const Simple: string := JoinLines([
      " _     _  _     _  _  _  _  _",
      "| |  | _| _||_||_ |_   ||_||_|",
      "|_|  ||_  _|  | _||_|  ||_| _|"])

  /** The expected text of `test_double_size`, line by line. */
  const Double: string := JoinLines([
      " __      __  __      __  __  __  __  __",
      "|  |   |   |   ||  ||   |      ||  ||  |",
      "|  |   | __| __||__||__ |__    ||__||__|",
      "|  |   ||      |   |   ||  |   ||  |   |",
      "|__|   ||__  __|   | __||__|   ||__| __|"])

  /** The decimal text of `123456789`. */
  lemma NineDigits()
    ensures ToDecimal(123456789) == "123456789"
  {
    assert ToDecimal(12) == "12";
    assert ToDecimal(123) == "123";
    assert ToDecimal(1234) == "1234";
    assert ToDecimal(12345) == "12345";
    assert ToDecimal(123456) == "123456";
    assert ToDecimal(1234567) == "1234567";
    assert ToDecimal(12345678) == "12345678";
  }

  /** `123456789` padded to ten digits gains one leading zero. */
  lemma PadTen()
    ensures PadInput(123456789, 10) == "0123456789"
  {
    NineDigits();
    var s := PadInput(123456789, 10);
    assert |s| == 10 && s[0] == '0' && s[1..] == "123456789";
    assert s == [s[0]] + s[1..];
  }

  /** One digit more draws one cell more. */
  lemma PiecesSnoc(s: string, c: char, part: Part, width: nat, sep: bool)
    requires AllDigits(s) && IsDigit(c)
    ensures AllDigits(s + [c])
    ensures Pieces(s + [c], part, width, sep) == Pieces(s, part, width, sep) + DigitCell(c, part, width, sep)
  {
    assert (s + [c])[..|s|] == s;
  }

  /** Ten digits draw their ten cells in order. */
  lemma TenCells(c0: char, c1: char, c2: char, c3: char, c4: char, c5: char, c6: char, c7: char, c8: char, c9: char, part: Part, width: nat, sep: bool)
    requires IsDigit(c0) && IsDigit(c1) && IsDigit(c2) && IsDigit(c3) && IsDigit(c4)
    requires IsDigit(c5) && IsDigit(c6) && IsDigit(c7) && IsDigit(c8) && IsDigit(c9)
    ensures Pieces([c0, c1, c2, c3, c4, c5, c6, c7, c8, c9], part, width, sep)
         == DigitCell(c0, part, width, sep) + DigitCell(c1, part, width, sep)
         + DigitCell(c2, part, width, sep) + DigitCell(c3, part, width, sep)
         + DigitCell(c4, part, width, sep) + DigitCell(c5, part, width, sep)
         + DigitCell(c6, part, width, sep) + DigitCell(c7, part, width, sep)
         + DigitCell(c8, part, width, sep) + DigitCell(c9, part, width, sep)
  {
    var s1 := [c0];
    var s2 := s1 + [c1];
    var s3 := s2 + [c2];
    var s4 := s3 + [c3];
    var s5 := s4 + [c4];
    var s6 := s5 + [c5];
    var s7 := s6 + [c6];
    var s8 := s7 + [c7];
    var s9 := s8 + [c8];
    var s10 := s9 + [c9];
    assert s10 == [c0, c1, c2, c3, c4, c5, c6, c7, c8, c9];
    assert Pieces(s1, part, width, sep) == DigitCell(c0, part, width, sep);
    PiecesSnoc(s1, c1, part, width, sep);
    PiecesSnoc(s2, c2, part, width, sep);
    PiecesSnoc(s3, c3, part, width, sep);
    PiecesSnoc(s4, c4, part, width, sep);
    PiecesSnoc(s5, c5, part, width, sep);
    PiecesSnoc(s6, c6, part, width, sep);
    PiecesSnoc(s7, c7, part, width, sep);
    PiecesSnoc(s8, c8, part, width, sep);
    PiecesSnoc(s9, c9, part, width, sep);
  }

  /** The digits 0 to 9 draw their ten cells in order, whatever the part,
      width and separator. */
  lemma TenDigits(part: Part, width: nat, sep: bool)
    ensures Pieces("0123456789", part, width, sep)
         == DigitCell('0', part, width, sep) + DigitCell('1', part, width, sep)
         + DigitCell('2', part, width, sep) + DigitCell('3', part, width, sep)
         + DigitCell('4', part, width, sep) + DigitCell('5', part, width, sep)
         + DigitCell('6', part, width, sep) + DigitCell('7', part, width, sep)
         + DigitCell('8', part, width, sep) + DigitCell('9', part, width, sep)
  {
    TenCells('0', '1', '2', '3', '4', '5', '6', '7', '8', '9', part, width, sep);
    assert ['0', '1', '2', '3', '4', '5', '6', '7', '8', '9'] == "0123456789";
  }

  lemma SimpleCapLowCells()
    ensures DigitCell('0', CapPart, 1, true) == " _ "
    ensures DigitCell('1', CapPart, 1, true) == "   "
    ensures DigitCell('2', CapPart, 1, true) == " _ "
    ensures DigitCell('3', CapPart, 1, true) == " _ "
    ensures DigitCell('4', CapPart, 1, true) == "   "
  {
  }

  lemma SimpleCapHighCells()
    ensures DigitCell('5', CapPart, 1, true) == " _ "
    ensures DigitCell('6', CapPart, 1, true) == " _ "
    ensures DigitCell('7', CapPart, 1, true) == " _ "
    ensures DigitCell('8', CapPart, 1, true) == " _ "
    ensures DigitCell('9', CapPart, 1, true) == " _ "
  {
  }

  lemma SimpleCapJoin()
    ensures " _ " + "   " + " _ " + " _ " + "   "
         + " _ " + " _ " + " _ " + " _ " + " _ "
         == " _     _  _     _  _  _  _  _ "
  {
  }

  lemma SimpleCapLine()
    ensures TrimEnd(Pieces("0123456789", CapPart, 1, true)) == " _     _  _     _  _  _  _  _"
  {
    TenDigits(CapPart, 1, true);
    SimpleCapLowCells();
    SimpleCapHighCells();
    SimpleCapJoin();
  }

  lemma SimpleUpperLowCells()
    ensures DigitCell('0', UpperPart, 1, true) == "| |"
    ensures DigitCell('1', UpperPart, 1, true) == "  |"
    ensures DigitCell('2', UpperPart, 1, true) == " _|"
    ensures DigitCell('3', UpperPart, 1, true) == " _|"
    ensures DigitCell('4', UpperPart, 1, true) == "|_|"
  {
  }

  lemma SimpleUpperHighCells()
    ensures DigitCell('5', UpperPart, 1, true) == "|_ "
    ensures DigitCell('6', UpperPart, 1, true) == "|_ "
    ensures DigitCell('7', UpperPart, 1, true) == "  |"
    ensures DigitCell('8', UpperPart, 1, true) == "|_|"
    ensures DigitCell('9', UpperPart, 1, true) == "|_|"
  {
  }

  lemma SimpleUpperJoin()
    ensures "| |" + "  |" + " _|" + " _|" + "|_|"
         + "|_ " + "|_ " + "  |" + "|_|" + "|_|"
         == "| |  | _| _||_||_ |_   ||_||_|"
  {
  }

  lemma SimpleUpperLine()
    ensures TrimEnd(Pieces("0123456789", UpperPart, 1, true)) == "| |  | _| _||_||_ |_   ||_||_|"
  {
    TenDigits(UpperPart, 1, true);
    SimpleUpperLowCells();
    SimpleUpperHighCells();
    SimpleUpperJoin();
  }

  lemma SimpleLowerLowCells()
    ensures DigitCell('0', LowerPart, 1, true) == "|_|"
    ensures DigitCell('1', LowerPart, 1, true) == "  |"
    ensures DigitCell('2', LowerPart, 1, true) == "|_ "
    ensures DigitCell('3', LowerPart, 1, true) == " _|"
    ensures DigitCell('4', LowerPart, 1, true) == "  |"
  {
  }

  lemma SimpleLowerHighCells()
    ensures DigitCell('5', LowerPart, 1, true) == " _|"
    ensures DigitCell('6', LowerPart, 1, true) == "|_|"
    ensures DigitCell('7', LowerPart, 1, true) == "  |"
    ensures DigitCell('8', LowerPart, 1, true) == "|_|"
    ensures DigitCell('9', LowerPart, 1, true) == " _|"
  {
  }

  lemma SimpleLowerJoin()
    ensures "|_|" + "  |" + "|_ " + " _|" + "  |"
         + " _|" + "|_|" + "  |" + "|_|" + " _|"
         == "|_|  ||_  _|  | _||_|  ||_| _|"
  {
  }

  lemma SimpleLowerLine()
    ensures TrimEnd(Pieces("0123456789", LowerPart, 1, true)) == "|_|  ||_  _|  | _||_|  ||_| _|"
  {
    TenDigits(LowerPart, 1, true);
    SimpleLowerLowCells();
    SimpleLowerHighCells();
    SimpleLowerJoin();
  }

  lemma DoubleCapLowCells()
    ensures DigitCell('0', CapPart, 2, true) == " __ "
    ensures DigitCell('1', CapPart, 2, true) == "    "
    ensures DigitCell('2', CapPart, 2, true) == " __ "
    ensures DigitCell('3', CapPart, 2, true) == " __ "
    ensures DigitCell('4', CapPart, 2, true) == "    "
  {
  }

  lemma DoubleCapHighCells()
    ensures DigitCell('5', CapPart, 2, true) == " __ "
    ensures DigitCell('6', CapPart, 2, true) == " __ "
    ensures DigitCell('7', CapPart, 2, true) == " __ "
    ensures DigitCell('8', CapPart, 2, true) == " __ "
    ensures DigitCell('9', CapPart, 2, true) == " __ "
  {
  }

  lemma DoubleCapJoin()
    ensures " __ " + "    " + " __ " + " __ " + "    "
         + " __ " + " __ " + " __ " + " __ " + " __ "
         == " __      __  __      __  __  __  __  __ "
  {
  }

  lemma DoubleCapLine()
    ensures TrimEnd(Pieces("0123456789", CapPart, 2, true)) == " __      __  __      __  __  __  __  __"
  {
    TenDigits(CapPart, 2, true);
    DoubleCapLowCells();
    DoubleCapHighCells();
    DoubleCapJoin();
  }

  lemma DoubleUpperOpenLowCells()
    ensures DigitCell('0', UpperPart, 2, false) == "|  |"
    ensures DigitCell('1', UpperPart, 2, false) == "   |"
    ensures DigitCell('2', UpperPart, 2, false) == "   |"
    ensures DigitCell('3', UpperPart, 2, false) == "   |"
    ensures DigitCell('4', UpperPart, 2, false) == "|  |"
  {
  }

  lemma DoubleUpperOpenHighCells()
    ensures DigitCell('5', UpperPart, 2, false) == "|   "
    ensures DigitCell('6', UpperPart, 2, false) == "|   "
    ensures DigitCell('7', UpperPart, 2, false) == "   |"
    ensures DigitCell('8', UpperPart, 2, false) == "|  |"
    ensures DigitCell('9', UpperPart, 2, false) == "|  |"
  {
  }

  lemma DoubleUpperOpenJoin()
    ensures "|  |" + "   |" + "   |" + "   |" + "|  |"
         + "|   " + "|   " + "   |" + "|  |" + "|  |"
         == "|  |   |   |   ||  ||   |      ||  ||  |"
  {
  }

  lemma DoubleUpperOpenLine()
    ensures TrimEnd(Pieces("0123456789", UpperPart, 2, false)) == "|  |   |   |   ||  ||   |      ||  ||  |"
  {
    TenDigits(UpperPart, 2, false);
    DoubleUpperOpenLowCells();
    DoubleUpperOpenHighCells();
    DoubleUpperOpenJoin();
  }

  lemma DoubleUpperLowCells()
    ensures DigitCell('0', UpperPart, 2, true) == "|  |"
    ensures DigitCell('1', UpperPart, 2, true) == "   |"
    ensures DigitCell('2', UpperPart, 2, true) == " __|"
    ensures DigitCell('3', UpperPart, 2, true) == " __|"
    ensures DigitCell('4', UpperPart, 2, true) == "|__|"
  {
  }

  lemma DoubleUpperHighCells()
    ensures DigitCell('5', UpperPart, 2, true) == "|__ "
    ensures DigitCell('6', UpperPart, 2, true) == "|__ "
    ensures DigitCell('7', UpperPart, 2, true) == "   |"
    ensures DigitCell('8', UpperPart, 2, true) == "|__|"
    ensures DigitCell('9', UpperPart, 2, true) == "|__|"
  {
  }

  lemma DoubleUpperJoin()
    ensures "|  |" + "   |" + " __|" + " __|" + "|__|"
         + "|__ " + "|__ " + "   |" + "|__|" + "|__|"
         == "|  |   | __| __||__||__ |__    ||__||__|"
  {
  }

  lemma DoubleUpperLine()
    ensures TrimEnd(Pieces("0123456789", UpperPart, 2, true)) == "|  |   | __| __||__||__ |__    ||__||__|"
  {
    TenDigits(UpperPart, 2, true);
    DoubleUpperLowCells();
    DoubleUpperHighCells();
    DoubleUpperJoin();
  }

  lemma DoubleLowerOpenLowCells()
    ensures DigitCell('0', LowerPart, 2, false) == "|  |"
    ensures DigitCell('1', LowerPart, 2, false) == "   |"
    ensures DigitCell('2', LowerPart, 2, false) == "|   "
    ensures DigitCell('3', LowerPart, 2, false) == "   |"
    ensures DigitCell('4', LowerPart, 2, false) == "   |"
  {
  }

  lemma DoubleLowerOpenHighCells()
    ensures DigitCell('5', LowerPart, 2, false) == "   |"
    ensures DigitCell('6', LowerPart, 2, false) == "|  |"
    ensures DigitCell('7', LowerPart, 2, false) == "   |"
    ensures DigitCell('8', LowerPart, 2, false) == "|  |"
    ensures DigitCell('9', LowerPart, 2, false) == "   |"
  {
  }

  lemma DoubleLowerOpenJoin()
    ensures "|  |" + "   |" + "|   " + "   |" + "   |"
         + "   |" + "|  |" + "   |" + "|  |" + "   |"
         == "|  |   ||      |   |   ||  |   ||  |   |"
  {
  }

  lemma DoubleLowerOpenLine()
    ensures TrimEnd(Pieces("0123456789", LowerPart, 2, false)) == "|  |   ||      |   |   ||  |   ||  |   |"
  {
    TenDigits(LowerPart, 2, false);
    DoubleLowerOpenLowCells();
    DoubleLowerOpenHighCells();
    DoubleLowerOpenJoin();
  }

  lemma DoubleLowerLowCells()
    ensures DigitCell('0', LowerPart, 2, true) == "|__|"
    ensures DigitCell('1', LowerPart, 2, true) == "   |"
    ensures DigitCell('2', LowerPart, 2, true) == "|__ "
    ensures DigitCell('3', LowerPart, 2, true) == " __|"
    ensures DigitCell('4', LowerPart, 2, true) == "   |"
  {
  }

  lemma DoubleLowerHighCells()
    ensures DigitCell('5', LowerPart, 2, true) == " __|"
    ensures DigitCell('6', LowerPart, 2, true) == "|__|"
    ensures DigitCell('7', LowerPart, 2, true) == "   |"
    ensures DigitCell('8', LowerPart, 2, true) == "|__|"
    ensures DigitCell('9', LowerPart, 2, true) == " __|"
  {
  }

  lemma DoubleLowerJoin()
    ensures "|__|" + "   |" + "|__ " + " __|" + "   |"
         + " __|" + "|__|" + "   |" + "|__|" + " __|"
         == "|__|   ||__  __|   | __||__|   ||__| __|"
  {
  }

  lemma DoubleLowerLine()
    ensures TrimEnd(Pieces("0123456789", LowerPart, 2, true)) == "|__|   ||__  __|   | __||__|   ||__| __|"
  {
    TenDigits(LowerPart, 2, true);
    DoubleLowerLowCells();
    DoubleLowerHighCells();
    DoubleLowerJoin();
  }

  /** At height 1 the drawing is the cap line and the closing lines of
      the two bands. */
  lemma DrawingOfOne(s: string, width: nat)
    requires AllDigits(s)
    ensures Drawing(s, width, 1)
         == [TrimEnd(Pieces(s, CapPart, width, true)),
             TrimEnd(Pieces(s, UpperPart, width, true)),
             TrimEnd(Pieces(s, LowerPart, width, true))]
  {
  }

  /** At height 2 each band has one open line before its closing line. */
  lemma DrawingOfTwo(s: string, width: nat)
    requires AllDigits(s)
    ensures Drawing(s, width, 2)
         == [TrimEnd(Pieces(s, CapPart, width, true)),
             TrimEnd(Pieces(s, UpperPart, width, false)),
             TrimEnd(Pieces(s, UpperPart, width, true)),
             TrimEnd(Pieces(s, LowerPart, width, false)),
             TrimEnd(Pieces(s, LowerPart, width, true))]
  {
  }

  /** The picture of the ten digits at width 1 and height 1. */
  lemma SimpleDrawing()
    ensures JoinLines(Drawing(PadInput(123456789, 10), 1, 1)) == Simple
  {
    PadTen();
    SimpleCapLine();
    SimpleUpperLine();
    SimpleLowerLine();
    DrawingOfOne("0123456789", 1);
  }

  /** The picture of the ten digits at width 2 and height 2. */
  lemma DoubleDrawing()
    ensures JoinLines(Drawing(PadInput(123456789, 10), 2, 2)) == Double
  {
    PadTen();
    DoubleCapLine();
    DoubleUpperOpenLine();
    DoubleUpperLine();
    DoubleLowerOpenLine();
    DoubleLowerLine();
    DrawingOfTwo("0123456789", 2);
  }

  /** `test_simple_size`. */
  method SimpleSize() returns (out: string)
    ensures out == Simple
  {
    out := Run(123456789, 10, 1, 1);
    SimpleDrawing();
  }

  /** `test_double_size`. */
  method DoubleSize() returns (out: string)
    ensures out == Double
  {
    out := Run(123456789, 10, 2, 2);
    DoubleDrawing();
  }
}

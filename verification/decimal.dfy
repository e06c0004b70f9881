/** Decimal rendering of a number and the zero-padding applied before it is
    drawn (`format!("{}", n)` and `pad_input` in src/lib.rs). */
module Decimal {
  import opened Text

  predicate IsDigit(c: char) {
    '0' <= c <= '9'
  }

  predicate AllDigits(s: string) {
    forall i :: 0 <= i < |s| ==> IsDigit(s[i])
  }

  /** Canonical decimal text: digits only, non-empty, no leading zero unless
      the number itself is zero. */
  predicate IsCanonical(s: string) {
    |s| >= 1 && AllDigits(s) && (s[0] == '0' ==> |s| == 1)
  }

  function DigitChar(d: nat): (c: char)
    requires d < 10
    ensures IsDigit(c)
  {
    ('0' as int + d) as char
  }

  function DigitValue(c: char): (d: nat)
    requires IsDigit(c)
    ensures d < 10
    ensures DigitChar(d) == c
  {
    c as int - '0' as int
  }

  /** The base-10 text of `n`, most significant digit first. */
  function ToDecimal(n: nat): (s: string)
    ensures IsCanonical(s)
    decreases n
  {
    if n < 10 then [DigitChar(n)] else ToDecimal(n / 10) + [DigitChar(n % 10)]
  }

  /** The number a digit string denotes, leading zeros included. */
  function ValueOf(s: string): nat
    requires AllDigits(s)
  {
    if |s| == 0 then 0 else 10 * ValueOf(s[..|s| - 1]) + DigitValue(s[|s| - 1])
  }

  /** Reading back the decimal text of `n` gives `n`. */
  lemma {:induction false} ValueOfToDecimal(n: nat)
    ensures ValueOf(ToDecimal(n)) == n
    decreases n
  {
    if n >= 10 {
      var t := ToDecimal(n / 10);
      var s := ToDecimal(n);
      assert s[..|s| - 1] == t;
      ValueOfToDecimal(n / 10);
    }
  }

  /** Every canonical digit string is the decimal text of its value, so
      `ToDecimal` and `ValueOf` are inverse bijections. */
  lemma {:induction false} ToDecimalValueOf(s: string)
    requires IsCanonical(s)
    ensures ToDecimal(ValueOf(s)) == s
    decreases |s|
  {
    if |s| > 1 {
      var p := s[..|s| - 1];
      assert p[0] == s[0];
      LeadingDigitPositive(p);
      ToDecimalValueOf(p);
      var v := ValueOf(s);
      assert v / 10 == ValueOf(p) && v % 10 == DigitValue(s[|s| - 1]);
      assert s == p + [s[|s| - 1]];
    }
  }

  lemma {:induction false} LeadingDigitPositive(s: string)
    requires |s| >= 1 && AllDigits(s) && s[0] != '0'
    ensures ValueOf(s) >= 1
    decreases |s|
  {
    if |s| > 1 {
      var p := s[..|s| - 1];
      assert p[0] == s[0];
      LeadingDigitPositive(p);
    }
  }

  /** Leading zeros do not change the value of a digit string. */
  lemma {:induction false} ValueOfLeadingZeros(k: nat, s: string)
    requires AllDigits(s)
    ensures AllDigits(Repeat('0', k) + s)
    ensures ValueOf(Repeat('0', k) + s) == ValueOf(s)
    decreases |s|
  {
    var z := Repeat('0', k);
    if |s| == 0 {
      assert z + s == z;
      ValueOfZeros(k);
    } else {
      var p := s[..|s| - 1];
      assert (z + s)[..|z + s| - 1] == z + p;
      ValueOfLeadingZeros(k, p);
    }
  }

  lemma {:induction false} ValueOfZeros(k: nat)
    ensures AllDigits(Repeat('0', k))
    ensures ValueOf(Repeat('0', k)) == 0
    decreases k
  {
    if k > 0 {
      assert Repeat('0', k)[..k - 1] == Repeat('0', k - 1);
      ValueOfZeros(k - 1);
    }
  }

  function Max(a: nat, b: nat): nat {
    if a >= b then a else b
  }

  /** `pad_input`: the decimal text of `n`, left-padded with `'0'` up to
      `padding` characters; padding is a minimum width and never truncates. */
  function PadInput(n: nat, padding: nat): (s: string)
    ensures |s| == Max(|ToDecimal(n)|, padding)
    ensures AllDigits(s)
    ensures s[|s| - |ToDecimal(n)|..] == ToDecimal(n)
    ensures forall i :: 0 <= i < |s| - |ToDecimal(n)| ==> s[i] == '0'
    ensures ValueOf(s) == n
  {
    var input := ToDecimal(n);
    ValueOfToDecimal(n);
    if |input| >= padding then
      input
    else
      ValueOfLeadingZeros(padding - |input|, input);
      Repeat('0', padding - |input|) + input
  }

  /** When the number is at least `padding` digits long nothing is added, so
      the result is the same as without padding. */
  lemma NoExcessPadding(n: nat, padding: nat)
    requires padding <= |ToDecimal(n)|
    ensures PadInput(n, padding) == PadInput(n, 0)
  {
  }

  /** The unit tests of `pad_input`. */
  lemma PadExamples()
    ensures PadInput(1234, 5) == "01234"
    ensures PadInput(1234, 4) == "1234"
    ensures PadInput(1234, 3) == "1234"
  {
    assert ToDecimal(1234) == "1234";
  }
}

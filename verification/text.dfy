/** Character-level text utilities shared by the renderer: repetition,
    trailing-whitespace trimming and newline-terminated lines. */
module Text {

  /** `c` repeated `k` times. */
  function Repeat(c: char, k: nat): (s: string)
    ensures |s| == k
    ensures forall i :: 0 <= i < k ==> s[i] == c
  {
    seq(k, _ => c)
  }

  /** Characters with the Unicode White_Space property, the set that Rust's
      `char::is_whitespace` (and hence `str::trim_end`) recognises. */
  predicate IsWhitespace(c: char) {
    || ('\t' <= c <= '\r')
    || c == ' '
    || c == '\U{0085}'
    || c == '\U{00A0}'
    || c == '\U{1680}'
    || ('\U{2000}' <= c <= '\U{200A}')
    || c == '\U{2028}'
    || c == '\U{2029}'
    || c == '\U{202F}'
    || c == '\U{205F}'
    || c == '\U{3000}'
  }

  /** `s` without its trailing whitespace: the longest prefix of `s` that does
      not end in whitespace, everything dropped being whitespace. */
  function TrimEnd(s: string): (r: string)
    ensures r <= s
    ensures forall i :: |r| <= i < |s| ==> IsWhitespace(s[i])
    ensures r == [] || !IsWhitespace(r[|r| - 1])
  {
    if |s| == 0 || !IsWhitespace(s[|s| - 1]) then s else TrimEnd(s[..|s| - 1])
  }

  /** A single line of text: it holds no line terminator. */
  predicate IsLine(l: string) {
    '\n' !in l
  }

  /** A line that does not end in a space. */
  predicate NoTrailingSpace(l: string) {
    l == [] || l[|l| - 1] != ' '
  }

  predicate AllLines(ls: seq<string>) {
    forall i :: 0 <= i < |ls| ==> IsLine(ls[i])
  }

  /** The text made of the lines `ls`, each followed by one `'\n'`. */
  function JoinLines(ls: seq<string>): (s: string)
    ensures |s| >= |ls|
    ensures ls != [] ==> s[|s| - 1] == '\n'
  {
    if |ls| == 0 then [] else ls[0] + "\n" + JoinLines(ls[1..])
  }

  /** Index of the first `c` in `s`, or `|s|` when there is none. */
  function IndexOf(s: string, c: char): (k: nat)
    ensures k <= |s|
    ensures forall i :: 0 <= i < k ==> s[i] != c
    ensures k < |s| ==> s[k] == c
  {
    if |s| == 0 then 0 else if s[0] == c then 0 else 1 + IndexOf(s[1..], c)
  }

  /** The lines of `s`, split at each `'\n'`; a final terminator does not open
      an empty last line (the convention of Rust's `str::lines` for `'\n'`). */
  function SplitLines(s: string): (ls: seq<string>)
    ensures AllLines(ls)
    decreases |s|
  {
    if |s| == 0 then []
    else
      var k := IndexOf(s, '\n');
      if k == |s| then [s] else [s[..k]] + SplitLines(s[k + 1..])
  }

  /** A sequence of lines stays one when another is appended. */
  lemma AllLinesAppend(a: seq<string>, b: seq<string>)
    requires AllLines(a) && AllLines(b)
    ensures AllLines(a + b)
  {
    forall i | 0 <= i < |a + b|
      ensures IsLine((a + b)[i])
    {
      if i < |a| { assert (a + b)[i] == a[i]; } else { assert (a + b)[i] == b[i - |a|]; }
    }
  }

  lemma ConcatAssoc<T>(a: seq<T>, b: seq<T>, c: seq<T>)
    ensures a + (b + c) == (a + b) + c
  {
  }

  /** Joining concatenates: the lines of `a + b` are laid out as those of `a`
      followed by those of `b`. */
  lemma {:induction false} JoinLinesAppend(a: seq<string>, b: seq<string>)
    ensures JoinLines(a + b) == JoinLines(a) + JoinLines(b)
    decreases |a|
  {
    if |a| != 0 {
      assert (a + b)[1..] == a[1..] + b;
      JoinLinesAppend(a[1..], b);
    } else {
      assert a + b == b;
    }
  }

  /** A single line joins to itself and its newline. */
  lemma JoinLinesOne(l: string)
    ensures JoinLines([l]) == l + "\n"
  {
    assert [l][1..] == [];
  }

  /** Joining one more line appends it and its newline. */
  lemma JoinLinesSnoc(ls: seq<string>, l: string)
    ensures JoinLines(ls + [l]) == JoinLines(ls) + (l + "\n")
  {
    JoinLinesAppend(ls, [l]);
    assert [l][1..] == [];
  }

  /** Splitting undoes joining, so the lines of a joined text are exactly the
      lines that were joined. */
  lemma {:induction false} SplitJoin(ls: seq<string>)
    requires AllLines(ls)
    ensures SplitLines(JoinLines(ls)) == ls
    decreases |ls|
  {
    if |ls| != 0 {
      var l, tail := ls[0], ls[1..];
      assert ls == [l] + tail;
      AllLinesTail(ls);
      SplitJoin(tail);
      SplitJoinStep(l, tail);
    }
  }

  lemma AllLinesTail(ls: seq<string>)
    requires AllLines(ls) && |ls| > 0
    ensures AllLines(ls[1..])
  {
    forall i | 0 <= i < |ls| - 1 ensures IsLine(ls[1..][i]) {
      assert ls[1..][i] == ls[i + 1];
    }
  }

  lemma SplitJoinStep(l: string, tail: seq<string>)
    requires IsLine(l) && SplitLines(JoinLines(tail)) == tail
    ensures SplitLines(JoinLines([l] + tail)) == [l] + tail
  {
    assert ([l] + tail)[1..] == tail;
    assert JoinLines([l] + tail) == l + "\n" + JoinLines(tail);
    SplitLinesAfterLine(l, JoinLines(tail));
  }

  /** A line and its newline split off as the first line. */
  lemma SplitLinesAfterLine(l: string, rest: string)
    requires IsLine(l)
    ensures SplitLines(l + "\n" + rest) == [l] + SplitLines(rest)
  {
    var s := l + "\n" + rest;
    IndexOfAfterLine(l, rest);
    assert s[..|l|] == l;
    assert s[|l| + 1..] == rest;
  }

  lemma {:induction false} IndexOfAfterLine(l: string, rest: string)
    requires IsLine(l)
    ensures IndexOf(l + "\n" + rest, '\n') == |l|
    decreases |l|
  {
    var s := l + "\n" + rest;
    if |l| != 0 {
      assert s[0] == l[0];
      assert s[1..] == l[1..] + "\n" + rest;
      IndexOfAfterLine(l[1..], rest);
    }
  }

  /** A joined text has as many lines as were joined. */
  lemma {:induction false} LineCount(ls: seq<string>)
    requires AllLines(ls)
    ensures |SplitLines(JoinLines(ls))| == |ls|
  {
    SplitJoin(ls);
  }
}

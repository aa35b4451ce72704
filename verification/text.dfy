/** The pieces of Go's `strings` and `fmt` packages the annotate command
    relies on: `strings.TrimSpace`, `strings.Split(s, "\n")` and the `%d`
    verb; `JoinLines` gives the newline-separated text `git log` prints.
    Strings are sequences of Unicode code points. */
module Text {
  import opened Results

  /** White space as Go's `unicode.IsSpace` defines it (the Latin-1 spaces
      plus Unicode's White_Space property). */
  predicate IsSpace(c: char) {
    || c == ' ' || c == '\t' || c == '\n' || c == '\r'
    || c == '\U{000B}' || c == '\U{000C}' || c == '\U{0085}' || c == '\U{00A0}'
    || c == '\U{1680}' || ('\U{2000}' <= c <= '\U{200A}')
    || c == '\U{2028}' || c == '\U{2029}' || c == '\U{202F}' || c == '\U{205F}'
    || c == '\U{3000}'
  }

  /** The index of the first character at or after `i` that is not white
      space, or `|s|`. */
  function SkipSpaces(s: string, i: nat): (j: nat)
    requires i <= |s|
    ensures i <= j <= |s|
    ensures forall k :: i <= k < j ==> IsSpace(s[k])
    ensures j == |s| || !IsSpace(s[j])
    decreases |s| - i
  {
    if i < |s| && IsSpace(s[i]) then SkipSpaces(s, i + 1) else i
  }

  /** The index just past the last character of `s[lo..j]` that is not
      white space, or `lo`. */
  function BackSpaces(s: string, lo: nat, j: nat): (e: nat)
    requires lo <= j <= |s|
    ensures lo <= e <= j
    ensures forall k :: e <= k < j ==> IsSpace(s[k])
    ensures e == lo || !IsSpace(s[e - 1])
    decreases j
  {
    if j > lo && IsSpace(s[j - 1]) then BackSpaces(s, lo, j - 1) else j
  }

  /** `strings.TrimSpace`: the longest infix of `s` that neither starts nor
      ends with white space, with only white space cut on either side. */
  function TrimSpace(s: string): (r: string)
    ensures |r| <= |s|
    ensures var i := SkipSpaces(s, 0);
            && i + |r| <= |s| && r == s[i..i + |r|]
            && (forall k :: 0 <= k < i ==> IsSpace(s[k]))
            && (forall k :: i + |r| <= k < |s| ==> IsSpace(s[k]))
    ensures r == [] || (!IsSpace(r[0]) && !IsSpace(r[|r| - 1]))
  {
    var i := SkipSpaces(s, 0);
    s[i..BackSpaces(s, i, |s|)]
  }

  /** A string needs no trimming exactly when neither end is white space. */
  lemma TrimSpaceFixedPoint(s: string)
    ensures TrimSpace(s) == s <==> (s == [] || (!IsSpace(s[0]) && !IsSpace(s[|s| - 1])))
  {
    if s != [] && !IsSpace(s[0]) && !IsSpace(s[|s| - 1]) {
      assert SkipSpaces(s, 0) == 0;
      assert BackSpaces(s, 0, |s|) == |s|;
      assert s[0..|s|] == s;
    }
  }

  /** Trimming twice is trimming once. */
  lemma TrimSpaceIdempotent(s: string)
    ensures TrimSpace(TrimSpace(s)) == TrimSpace(s)
  {
    TrimSpaceFixedPoint(TrimSpace(s));
  }

  /** The trailing scan only reads the characters below `j`. */
  lemma {:induction false} BackSpacesPrefix(s: string, t: string, lo: nat, j: nat)
    requires lo <= j <= |s| <= |t|
    requires forall k :: 0 <= k < |s| ==> t[k] == s[k]
    ensures BackSpaces(t, lo, j) == BackSpaces(s, lo, j)
    decreases j
  {
    if j > lo {
      assert t[j - 1] == s[j - 1];
      BackSpacesPrefix(s, t, lo, j - 1);
    }
  }

  /** The leading scan of an extension stops where the scan of `s` stops
      inside `s`, and otherwise carries on from the end of `s`. */
  lemma {:induction false} SkipSpacesPrefix(s: string, t: string, i: nat)
    requires i <= |s| <= |t|
    requires forall k :: 0 <= k < |s| ==> t[k] == s[k]
    ensures SkipSpaces(s, i) < |s| ==> SkipSpaces(t, i) == SkipSpaces(s, i)
    ensures SkipSpaces(s, i) == |s| ==> SkipSpaces(t, i) == SkipSpaces(t, |s|)
    decreases |s| - i
  {
    if i < |s| {
      assert t[i] == s[i];
      SkipSpacesPrefix(s, t, i + 1);
    }
  }

  /** Appending white space does not change the trimmed text. */
  lemma TrimSpaceTrailingSpace(s: string, c: char)
    requires IsSpace(c)
    ensures TrimSpace(s + [c]) == TrimSpace(s)
  {
    SkipSpacesPrefix(s, s + [c], 0);
    if SkipSpaces(s, 0) == |s| {
      BlankTrailingSpace(s, c);
    } else {
      TextTrailingSpace(s, c);
    }
  }

  /** White space plus white space trims to nothing, as white space does. */
  lemma BlankTrailingSpace(s: string, c: char)
    requires IsSpace(c) && SkipSpaces(s, 0) == |s|
    requires SkipSpaces(s + [c], 0) == SkipSpaces(s + [c], |s|)
    ensures TrimSpace(s + [c]) == [] == TrimSpace(s)
  {
    var t := s + [c];
    assert SkipSpaces(t, |s|) == SkipSpaces(t, |t|) == |t|;
  }

  /** A trailing white-space character is stepped over by the trailing
      scan. */
  lemma BackSpacesPastSpace(t: string, lo: nat, j: nat)
    requires lo < j <= |t| && IsSpace(t[j - 1])
    ensures BackSpaces(t, lo, j) == BackSpaces(t, lo, j - 1)
  {
  }

  lemma SliceOfPrefix(s: string, t: string, i: nat, e: nat)
    requires i <= e <= |s| <= |t|
    requires forall k :: 0 <= k < |s| ==> t[k] == s[k]
    ensures t[i..e] == s[i..e]
  {
  }

  /** Past text that is not all white space, the trailing scan of `s + [c]`
      steps over `c` and then ends where the scan of `s` ends. */
  lemma TextTrailingSpace(s: string, c: char)
    requires IsSpace(c) && SkipSpaces(s, 0) < |s|
    requires SkipSpaces(s + [c], 0) == SkipSpaces(s, 0)
    ensures TrimSpace(s + [c]) == TrimSpace(s)
  {
    var t := s + [c];
    var i := SkipSpaces(s, 0);
    var e := BackSpaces(s, i, |s|);
    calc {
      TrimSpace(t);
      t[i..BackSpaces(t, i, |t|)];
      { BackSpacesPastSpace(t, i, |t|); }
      t[i..BackSpaces(t, i, |s|)];
      { BackSpacesPrefix(s, t, i, |s|); }
      t[i..e];
      { SliceOfPrefix(s, t, i, e); }
      s[i..e];
    }
  }

  /** Two trailing newlines after untrimmed text are all that trimming
      removes. */
  lemma TrimSpaceTrailingNewlines(s: string)
    requires s != [] && !IsSpace(s[0]) && !IsSpace(s[|s| - 1])
    ensures TrimSpace(s + "\n" + "\n") == s
  {
    TrimSpaceTrailingSpace(s + "\n", '\n');
    TrimSpaceTrailingSpace(s, '\n');
    TrimSpaceFixedPoint(s);
  }

  /** The lines separated by newlines, as `git log` prints them. */
  function JoinLines(lines: seq<string>): string
    requires |lines| >= 1
  {
    if |lines| == 1 then lines[0] else lines[0] + "\n" + JoinLines(lines[1..])
  }

  /** `strings.Split(s, "\n")`: the pieces between newlines, at least one,
      so the empty string splits into `[""]`. */
  function SplitLines(s: string): (r: seq<string>)
    ensures |r| >= 1
    ensures forall k :: 0 <= k < |r| ==> '\n' !in r[k]
    decreases |s|
  {
    if |s| == 0 then [""]
    else
      var rest := SplitLines(s[1..]);
      if s[0] == '\n' then [""] + rest
      else [[s[0]] + rest[0]] + rest[1..]
  }

  /** Joining the pieces gives back the split string. */
  lemma {:induction false} JoinSplitLines(s: string)
    ensures JoinLines(SplitLines(s)) == s
    decreases |s|
  {
    if |s| > 0 {
      var rest := SplitLines(s[1..]);
      JoinSplitLines(s[1..]);
      if s[0] == '\n' {
        assert s == [s[0]] + s[1..];
      } else {
        var r := [[s[0]] + rest[0]] + rest[1..];
        assert r[1..] == rest[1..];
        if |rest| == 1 {
          assert JoinLines(r) == [s[0]] + rest[0];
        } else {
          assert JoinLines(rest) == rest[0] + "\n" + JoinLines(rest[1..]);
          assert JoinLines(r) == ([s[0]] + rest[0]) + "\n" + JoinLines(rest[1..]);
        }
        assert s == [s[0]] + s[1..];
      }
    }
  }

  /** Splitting a line without newlines in front of a newline. */
  lemma {:induction false} SplitLinesCons(x: string, y: string)
    requires '\n' !in x
    ensures SplitLines(x + "\n" + y) == [x] + SplitLines(y)
    decreases |x|
  {
    if |x| == 0 {
      assert x + "\n" + y == "\n" + y;
      assert ("\n" + y)[1..] == y;
    } else {
      var s := x + "\n" + y;
      assert s[0] == x[0] && s[1..] == x[1..] + "\n" + y;
      SplitLinesCons(x[1..], y);
      assert [x[0]] + x[1..] == x;
    }
  }

  /** A string without newlines splits into itself. */
  lemma {:induction false} SplitLinesSingle(x: string)
    requires '\n' !in x
    ensures SplitLines(x) == [x]
    decreases |x|
  {
    if |x| > 0 {
      SplitLinesSingle(x[1..]);
      assert [x[0]] + x[1..] == x;
    }
  }

  /** Splitting the join of newline-free lines gives back the lines. */
  lemma {:induction false} SplitJoinLines(lines: seq<string>)
    requires |lines| >= 1
    requires forall k :: 0 <= k < |lines| ==> '\n' !in lines[k]
    ensures SplitLines(JoinLines(lines)) == lines
    decreases |lines|
  {
    if |lines| == 1 {
      SplitLinesSingle(lines[0]);
    } else {
      SplitLinesCons(lines[0], JoinLines(lines[1..]));
      SplitJoinLines(lines[1..]);
      assert [lines[0]] + lines[1..] == lines;
    }
  }

  /** Joining one more line at the end. */
  lemma {:induction false} JoinLinesSnoc(lines: seq<string>, x: string)
    requires |lines| >= 1
    ensures JoinLines(lines + [x]) == JoinLines(lines) + "\n" + x
    decreases |lines|
  {
    if |lines| == 1 {
      assert (lines + [x])[1..] == [x];
    } else {
      assert (lines + [x])[1..] == lines[1..] + [x];
      JoinLinesSnoc(lines[1..], x);
    }
  }

  /** The joined text starts with the first line and ends with the last. */
  lemma {:induction false} JoinLinesEnds(lines: seq<string>)
    requires |lines| >= 1
    ensures |JoinLines(lines)| >= |lines[0]|
    ensures JoinLines(lines)[..|lines[0]|] == lines[0]
    ensures |JoinLines(lines)| >= |lines[|lines| - 1]|
    ensures JoinLines(lines)[|JoinLines(lines)| - |lines[|lines| - 1]|..] == lines[|lines| - 1]
    decreases |lines|
  {
    if |lines| > 1 {
      JoinLinesEnds(lines[1..]);
      var j := JoinLines(lines[1..]);
      assert JoinLines(lines) == lines[0] + "\n" + j;
      assert JoinLines(lines)[|JoinLines(lines)| - |j|..] == j;
    }
  }

  predicate IsDigit(c: char) {
    '0' <= c <= '9'
  }

  predicate AllDigits(s: string) {
    forall k :: 0 <= k < |s| ==> IsDigit(s[k])
  }

  function DigitChar(d: nat): (c: char)
    requires d < 10
  {
    "0123456789"[d]
  }

  function DigitValue(c: char): nat
    requires IsDigit(c)
  {
    c as int - '0' as int
  }

  /** Base-10 digits of `n`, without leading zeros. */
  function NatToDecimal(n: nat): (r: string)
    ensures |r| >= 1 && AllDigits(r)
    ensures |r| == 1 || r[0] != '0'
  {
    if n < 10 then [DigitChar(n)] else NatToDecimal(n / 10) + [DigitChar(n % 10)]
  }

  /** The `%d` verb of Go's `fmt`: a minus sign for negative values. */
  function IntToDecimal(i: int): (r: string)
    ensures |r| >= 1 && (r[0] == '-' <==> i < 0)
  {
    if i < 0 then "-" + NatToDecimal(-i) else NatToDecimal(i)
  }

  /** Reads a string of decimal digits. */
  function DecimalValue(s: string): nat
    requires AllDigits(s)
  {
    if |s| == 0 then 0 else DecimalValue(s[..|s| - 1]) * 10 + DigitValue(s[|s| - 1])
  }

  /** A reference reader for the `%d` text: an optional minus sign and
      decimal digits. */
  function ParseDecimal(s: string): (r: Option<int>)
  {
    if |s| > 1 && s[0] == '-' && AllDigits(s[1..]) then
      var magnitude: int := DecimalValue(s[1..]);
      Some(-magnitude)
    else if |s| > 0 && AllDigits(s) then
      Some(DecimalValue(s))
    else
      None
  }

  lemma {:induction false} NatDecimalRoundTrip(n: nat)
    ensures DecimalValue(NatToDecimal(n)) == n
  {
    if n >= 10 {
      NatDecimalRoundTrip(n / 10);
      var r := NatToDecimal(n);
      assert r[..|r| - 1] == NatToDecimal(n / 10);
    }
  }

  /** Digits without a sign read as their value. */
  lemma ReadUnsigned(digits: string)
    requires |digits| >= 1 && AllDigits(digits)
    ensures ParseDecimal(digits) == Some(DecimalValue(digits) as int)
  {
    assert IsDigit(digits[0]);
  }

  /** A minus sign before digits reads as the negated value. */
  lemma ReadNegative(digits: string)
    requires |digits| >= 1 && AllDigits(digits)
    ensures ParseDecimal("-" + digits) == Some(-(DecimalValue(digits) as int))
  {
    assert ("-" + digits)[1..] == digits;
  }

  /** A non-negative number is formatted without a sign and reads back. */
  lemma NonNegativeDecimalRoundTrip(i: int)
    requires i >= 0
    ensures ParseDecimal(IntToDecimal(i)) == Some(i)
  {
    var digits := NatToDecimal(i);
    calc {
      ParseDecimal(IntToDecimal(i));
      ParseDecimal(digits);
      { ReadUnsigned(digits); }
      Some(DecimalValue(digits) as int);
      { NatDecimalRoundTrip(i); }
      Some(i);
    }
  }

  /** A negative number is formatted as a minus sign before the digits of
      its magnitude, and reads back. */
  lemma NegativeDecimalRoundTrip(i: int)
    requires i < 0
    ensures ParseDecimal(IntToDecimal(i)) == Some(i)
  {
    var digits := NatToDecimal(-i);
    calc {
      ParseDecimal(IntToDecimal(i));
      ParseDecimal("-" + digits);
      { ReadNegative(digits); }
      Some(-(DecimalValue(digits) as int));
      { NatDecimalRoundTrip(-i); }
      Some(i);
    }
  }

  /** Formatting with `%d` and reading back gives the same integer. */
  lemma DecimalRoundTrip(i: int)
    ensures ParseDecimal(IntToDecimal(i)) == Some(i)
  {
    if i < 0 {
      NegativeDecimalRoundTrip(i);
    } else {
      NonNegativeDecimalRoundTrip(i);
    }
  }
}

/** The few pieces of .NET string handling the library relies on: the
    platform line terminator, StringBuilder.AppendLine, null strings and the
    decimal rendering of an unsigned integer. */
module Text {
  import opened Wrappers

  /** Environment.NewLine on Windows, the only platform Windows Forms runs on. */
  const NewLine: string := "\r\n"

  /** The builder text after `sb.AppendLine(s)`: `s` followed by the line terminator. */
  function AppendLine(sb: string, s: string): string
  {
    sb + s + NewLine
  }

  /** What a null-able string contributes when appended or written: a null adds nothing. */
  function OrEmpty(s: Option<string>): string
  {
    match s
    case None => ""
    case Some(v) => v
  }

  /** A string written as a whole line: followed by the line terminator. */
  function Terminated(s: string): string
  {
    s + NewLine
  }

  /** string.IsNullOrEmpty */
  predicate IsNullOrEmpty(s: Option<string>)
  {
    s.None? || s.value == ""
  }

  predicate IsDigit(c: char)
  {
    '0' <= c <= '9'
  }

  predicate AllDigits(s: string)
  {
    forall k :: 0 <= k < |s| ==> IsDigit(s[k])
  }

  function DigitChar(d: nat): (c: char)
    requires d < 10
  {
    ['0', '1', '2', '3', '4', '5', '6', '7', '8', '9'][d]
  }

  /** The number a string of decimal digits denotes, most significant digit first. */
  function DigitsValue(s: string): nat
    requires AllDigits(s)
  {
    if |s| == 0 then 0
    else DigitsValue(s[..|s| - 1]) * 10 + (s[|s| - 1] as int - '0' as int)
  }

  /** ToString() of an unsigned integer: its shortest decimal representation. */
  function DecimalDigits(n: nat): (s: string)
    ensures |s| >= 1 && AllDigits(s)
    ensures DigitsValue(s) == n
    ensures s[0] == '0' ==> n == 0
    ensures |s| > 1 ==> s[0] != '0'
    decreases n
  {
    if n < 10 then [DigitChar(n)]
    else
      var prefix := DecimalDigits(n / 10);
      var s := prefix + [DigitChar(n % 10)];
      assert s[..|s| - 1] == prefix;
      s
  }

  predicate StartsWith(s: string, prefix: string)
  {
    |prefix| <= |s| && s[..|prefix|] == prefix
  }

  predicate EndsWith(s: string, suffix: string)
  {
    |suffix| <= |s| && s[|s| - |suffix|..] == suffix
  }

  lemma EndsWithAppend(s: string, suffix: string, more: string)
    requires EndsWith(s, suffix)
    ensures EndsWith(s + more, suffix + more)
  {
    assert (s + more)[|s + more| - |suffix + more|..] == s[|s| - |suffix|..] + more;
  }

  lemma EndsWithShorter(s: string, suffix: string, shorter: string)
    requires EndsWith(s, suffix) && EndsWith(suffix, shorter)
    ensures EndsWith(s, shorter)
  {
    assert s[|s| - |shorter|..] == suffix[|suffix| - |shorter|..];
  }

  lemma ConcatAssoc(a: string, b: string, c: string)
    ensures a + b + c == a + (b + c)
  {
  }

  /** The concatenation of piece(x) for every x of xs, in order. */
  function ConcatMap(xs: seq<string>, piece: string -> string): string
  {
    if |xs| == 0 then "" else piece(xs[0]) + ConcatMap(xs[1..], piece)
  }

  lemma {:induction false} ConcatMapSnoc(xs: seq<string>, x: string, piece: string -> string)
    ensures ConcatMap(xs + [x], piece) == ConcatMap(xs, piece) + piece(x)
  {
    if |xs| > 0 {
      assert (xs + [x])[1..] == xs[1..] + [x];
      ConcatMapSnoc(xs[1..], x, piece);
    }
  }
}

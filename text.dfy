/**
 * Python string and list primitives that the core relies on: `str.split` with
 * an explicit one-character separator, `str.join`, `str.strip`, `str(int)`,
 * `int(str)`, `list.count` and `list.index`.
 */
module Text {
  import opened Wrappers

  /** The smaller of two lengths, as `zip` and slicing past the end use. */
  function Min(a: nat, b: nat): nat { if a < b then a else b }

  /** Strictly increasing positions, as a filter over a list produces them. */
  predicate Increasing(s: seq<nat>) {
    forall i, j :: 0 <= i < j < |s| ==> s[i] < s[j]
  }

  /** Number of occurrences of `x` in `s` (Python's `list.count`). */
  function Count<T(==)>(s: seq<T>, x: T): (n: nat)
    ensures n <= |s|
    ensures n == 0 <==> x !in s
  {
    if s == [] then 0 else (if s[0] == x then 1 else 0) + Count(s[1..], x)
  }

  lemma CountAppend<T>(s: seq<T>, t: seq<T>, x: T)
    ensures Count(s + t, x) == Count(s, x) + Count(t, x)
  {
    if s == [] {
      assert s + t == t;
    } else {
      assert (s + t)[1..] == s[1..] + t;
      CountAppend(s[1..], t, x);
    }
  }

  /** Position of the first occurrence of `x` in `s` (Python's `list.index`). */
  function FirstIndex<T(==)>(s: seq<T>, x: T): (i: nat)
    requires x in s
    ensures i < |s| && s[i] == x
    ensures forall j :: 0 <= j < i ==> s[j] != x
  {
    if s[0] == x then 0 else 1 + FirstIndex(s[1..], x)
  }

  /** A prefix of a prefix is a prefix. */
  lemma PrefixOfPrefix<T>(s: seq<T>, n: nat, m: nat)
    requires m <= n <= |s|
    ensures s[..n][..m] == s[..m]
  {
  }

  /** `sep.join(parts)`. */
  function Join(sep: string, parts: seq<string>): string {
    if |parts| == 0 then ""
    else if |parts| == 1 then parts[0]
    else parts[0] + sep + Join(sep, parts[1..])
  }

  /**
   * `s.split(sep)` for a one-character separator: the pieces between the
   * separators, empty ones included, so there is always at least one piece.
   */
  function Split(s: string, sep: char): (r: seq<string>)
    ensures |r| >= 1
    ensures forall k :: 0 <= k < |r| ==> sep !in r[k]
  {
    if s == [] then [""]
    else
      var rest := Split(s[1..], sep);
      if s[0] == sep then [""] + rest
      else [[s[0]] + rest[0]] + rest[1..]
  }

  /** Splitting and joining back with the same separator gives the string again. */
  lemma {:induction false} JoinSplit(s: string, sep: char)
    ensures Join([sep], Split(s, sep)) == s
  {
    if s != [] {
      var rest := Split(s[1..], sep);
      JoinSplit(s[1..], sep);
      if s[0] == sep {
        assert Join([sep], [""] + rest) == "" + [sep] + Join([sep], rest) by {
          assert ([""] + rest)[1..] == rest;
        }
      } else {
        var r := [[s[0]] + rest[0]] + rest[1..];
        assert r[1..] == rest[1..];
        if |rest| == 1 {
          assert Join([sep], rest) == rest[0];
        } else {
          assert Join([sep], rest) == rest[0] + [sep] + Join([sep], rest[1..]);
        }
      }
    }
  }

  /** A string without the separator splits into itself alone. */
  lemma {:induction false} SplitWithoutSeparator(s: string, sep: char)
    requires sep !in s
    ensures Split(s, sep) == [s]
  {
    if s != [] {
      SplitWithoutSeparator(s[1..], sep);
      assert [s[0]] + s[1..] == s;
    }
  }

  /** Characters Python's `str.isspace` accepts, so `str.strip()` removes them. */
  predicate IsWhitespace(c: char) {
    ('\t' <= c <= '\r') || ('\U{1C}' <= c <= ' ') || c == '\U{85}' || c == '\U{A0}'
    || c == '\U{1680}' || ('\U{2000}' <= c <= '\U{200A}') || c == '\U{2028}' || c == '\U{2029}'
    || c == '\U{202F}' || c == '\U{205F}' || c == '\U{3000}'
  }

  function StripLeft(s: string): (r: string)
    ensures |r| <= |s| && r == s[|s| - |r|..]
    ensures r == [] || !IsWhitespace(r[0])
  {
    if s != [] && IsWhitespace(s[0]) then StripLeft(s[1..]) else s
  }

  function StripRight(s: string): (r: string)
    ensures |r| <= |s| && r == s[..|r|]
    ensures r == [] || !IsWhitespace(r[|r| - 1])
  {
    if s != [] && IsWhitespace(s[|s| - 1]) then StripRight(s[..|s| - 1]) else s
  }

  /** `s.strip()`: leading and trailing whitespace removed. */
  function Strip(s: string): string {
    StripRight(StripLeft(s))
  }

  predicate IsDigit(c: char) { 48 <= c as int <= 57 }

  function DigitChar(d: nat): char
    requires d < 10
  {
    "0123456789"[d]
  }

  /** Decimal digits of a natural number, most significant first, no leading zeros. */
  function NatToString(n: nat): (s: string)
    ensures |s| >= 1 && forall k :: 0 <= k < |s| ==> IsDigit(s[k])
  {
    if n < 10 then [DigitChar(n)] else NatToString(n / 10) + [DigitChar(n % 10)]
  }

  /** `str(n)` / `'{:d}'.format(n)` for an integer. */
  function IntToString(n: int): string {
    if n < 0 then "-" + NatToString(-n) else NatToString(n)
  }

  /** Value of a string of decimal digits. */
  function DigitsValue(s: string): nat
    requires forall k :: 0 <= k < |s| ==> IsDigit(s[k])
  {
    if s == [] then 0
    else
      assert IsDigit(s[|s| - 1]);
      10 * DigitsValue(s[..|s| - 1]) + (s[|s| - 1] as int - 48) as nat
  }

  lemma {:induction false} DigitsValueOfNatToString(n: nat)
    ensures DigitsValue(NatToString(n)) == n
  {
    var s := NatToString(n);
    if n >= 10 {
      DigitsValueOfNatToString(n / 10);
      assert s[..|s| - 1] == NatToString(n / 10);
    }
  }

  predicate AllDigits(s: string) {
    forall k :: 0 <= k < |s| ==> IsDigit(s[k])
  }

  /**
   * `int(s)` for a decimal string: surrounding whitespace is ignored, one
   * optional sign, then at least one digit; anything else is a ValueError (None).
   */
  function ParseInt(s: string): (r: Option<int>)
  {
    var t := Strip(s);
    if t == [] then None
    else if t[0] == '-' || t[0] == '+' then
      var d := t[1..];
      if d != [] && AllDigits(d) then
        var v: int := DigitsValue(d);
        Some(if t[0] == '-' then -v else v)
      else None
    else if AllDigits(t) then Some(DigitsValue(t))
    else None
  }

  lemma StripOfPrintedInt(s: string)
    requires s != [] && !IsWhitespace(s[0]) && !IsWhitespace(s[|s| - 1])
    ensures Strip(s + "\n") == s
  {
    var u := s + "\n";
    assert u[0] == s[0];
    assert StripLeft(u) == u;
    assert u[..|u| - 1] == s;
    assert StripRight(u) == StripRight(s);
  }

  lemma PrintedNatShape(m: nat)
    ensures var d := NatToString(m); !IsWhitespace(d[0]) && !IsWhitespace(d[|d| - 1])
    ensures AllDigits(NatToString(m)) && DigitsValue(NatToString(m)) == m
  {
    DigitsValueOfNatToString(m);
  }

  /** What `'{:d}'.format(n)` writes followed by a newline, `int` reads back. */
  lemma ParseIntOfIntToString(n: int)
    ensures ParseInt(IntToString(n) + "\n") == Some(n)
  {
    if n < 0 {
      ParseNegative(n);
    } else {
      ParseNonNegative(n);
    }
  }

  lemma ParseNegative(n: int)
    requires n < 0
    ensures ParseInt(IntToString(n) + "\n") == Some(n)
  {
    ParseMinusDigits(IntToString(n), -n);
  }

  /** `-` and the digits of `v`, then a newline, read as `-v`. */
  lemma ParseMinusDigits(s: string, v: nat)
    requires s == "-" + NatToString(v)
    ensures ParseInt(s + "\n") == Some(-(v as int))
  {
    var d := NatToString(v);
    PrintedNatShape(v);
    assert s[0] == '-' && s[|s| - 1] == d[|d| - 1];
    StripOfPrintedInt(s);
    ParseMinus(s + "\n", d, v);
  }

  /** A stripped `-` followed by the digits of `v` reads as `-v`. */
  lemma ParseMinus(u: string, d: string, v: nat)
    requires Strip(u) == "-" + d && d != [] && AllDigits(d) && DigitsValue(d) == v
    ensures ParseInt(u) == Some(-(v as int))
  {
    var t := Strip(u);
    assert t[0] == '-' && t[1..] == d;
  }

  lemma ParseNonNegative(n: nat)
    ensures ParseInt(IntToString(n) + "\n") == Some(n)
  {
    var s := NatToString(n);
    assert IntToString(n) == s;
    PrintedNatShape(n);
    StripOfPrintedInt(s);
    var t := Strip(s + "\n");
    assert t == s && t[0] != '-' && t[0] != '+';
  }

  /** Different integers print differently. */
  lemma IntToStringInjective(a: int, b: int)
    requires IntToString(a) == IntToString(b)
    ensures a == b
  {
    ParseIntOfIntToString(a);
    ParseIntOfIntToString(b);
  }

  // ---------------------------------------------------------------------
  // Text files
  // ---------------------------------------------------------------------

  /** Universal newlines on reading: `\r\n` and a lone `\r` both become `\n`. */
  function Translated(s: string): (r: string)
    ensures '\r' !in r
    decreases |s|
  {
    if s == [] then []
    else if s[0] == '\r' then "\n" + Translated(if |s| > 1 && s[1] == '\n' then s[2..] else s[1..])
    else [s[0]] + Translated(s[1..])
  }

  /** Iterating over text: each piece up to and including a `\n`, then an unterminated tail if any. */
  function CutLines(s: string): (lines: seq<string>)
    ensures forall k :: 0 <= k < |lines| ==> lines[k] != []
    decreases |s|
  {
    if '\n' !in s then (if s == [] then [] else [s])
    else
      var i := FirstIndex(s, '\n');
      [s[..i + 1]] + CutLines(s[i + 1..])
  }

  /** The lines `for ln in open(path, 'r')` yields for a file holding `text`. */
  function FileLines(text: string): seq<string> {
    CutLines(Translated(text))
  }

  /** The text a file holds after the strings in `lines` were written one after another. */
  function Concat(lines: seq<string>): string {
    if lines == [] then "" else lines[0] + Concat(lines[1..])
  }

  /** A line as written: ends in its only `\n` and holds no `\r`. */
  predicate IsLine(l: string) {
    l != [] && l[|l| - 1] == '\n' && '\n' !in l[..|l| - 1] && '\r' !in l
  }

  lemma {:induction false} ConcatSnoc(lines: seq<string>, l: string)
    ensures Concat(lines + [l]) == Concat(lines) + l
  {
    if lines != [] {
      assert (lines + [l])[1..] == lines[1..] + [l];
      ConcatSnoc(lines[1..], l);
    }
  }

  /** Cutting text into lines loses nothing: the lines put together are the text. */
  lemma {:induction false} ConcatCutLines(s: string)
    ensures Concat(CutLines(s)) == s
    decreases |s|
  {
    if '\n' in s {
      var i := FirstIndex(s, '\n');
      var rest := CutLines(s[i + 1..]);
      assert CutLines(s) == [s[..i + 1]] + rest;
      ConcatCons(s[..i + 1], rest);
      ConcatCutLines(s[i + 1..]);
      assert s[..i + 1] + s[i + 1..] == s;
    }
  }

  lemma ConcatCons(l: string, lines: seq<string>)
    ensures Concat([l] + lines) == l + Concat(lines)
  {
    assert ([l] + lines)[1..] == lines;
  }

  /** Text without `\r` reads back unchanged. */
  lemma {:induction false} TranslatedPlain(s: string)
    requires '\r' !in s
    ensures Translated(s) == s
  {
    if s != [] {
      assert s[0] in s;
      assert forall c :: c in s[1..] ==> c in s;
      TranslatedPlain(s[1..]);
      assert [s[0]] + s[1..] == s;
    }
  }

  lemma {:induction false} ConcatNoReturn(lines: seq<string>)
    requires forall k :: 0 <= k < |lines| ==> '\r' !in lines[k]
    ensures '\r' !in Concat(lines)
  {
    if lines != [] {
      ConcatNoReturn(lines[1..]);
    }
  }

  /** Written lines are cut back at exactly their own ends. */
  lemma {:induction false} CutConcat(lines: seq<string>)
    requires forall k :: 0 <= k < |lines| ==> IsLine(lines[k])
    ensures CutLines(Concat(lines)) == lines
  {
    if lines != [] {
      var l := lines[0];
      var a := l[..|l| - 1];
      var rest := Concat(lines[1..]);
      assert l == a + ['\n'] + [];
      assert Concat(lines) == a + ['\n'] + rest;
      FirstIndexAfterPrefix(a, '\n', rest);
      var s := Concat(lines);
      assert s[..|a| + 1] == l;
      assert s[|a| + 1..] == rest;
      CutConcat(lines[1..]);
    }
  }

  /** A file written line by line is read back as the same lines. */
  lemma {:induction false} FileLinesOfWritten(lines: seq<string>)
    requires forall k :: 0 <= k < |lines| ==> IsLine(lines[k])
    ensures FileLines(Concat(lines)) == lines
  {
    ConcatNoReturn(lines);
    TranslatedPlain(Concat(lines));
    CutConcat(lines);
  }

  lemma FirstIndexAfterPrefix<T>(a: seq<T>, c: T, b: seq<T>)
    requires c !in a
    ensures c in a + [c] + b && FirstIndex(a + [c] + b, c) == |a|
  {
    var s := a + [c] + b;
    assert s[|a|] == c;
    assert forall j :: 0 <= j < |a| ==> s[j] == a[j];
  }
}

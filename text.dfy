/** String helpers the cashier screens rely on: case mapping (`toLowerCase`,
    `toUpperCase`), substring search (`includes`), `trim()` emptiness, decimal
    printing of integers (`String(n)`, `padStart`) and joining lines. */
module Text {

  predicate IsUpperAscii(c: char) { 'A' <= c <= 'Z' }
  predicate IsLowerAscii(c: char) { 'a' <= c <= 'z' }

  /** `toLowerCase` on one character (ASCII letters only). */
  function Lower(c: char): (r: char)
    ensures IsUpperAscii(c) ==> IsLowerAscii(r) && r as int == c as int + 32
    ensures !IsUpperAscii(c) ==> r == c
  {
    if IsUpperAscii(c) then (c as int + 32) as char else c
  }

  /** `toUpperCase` on one character (ASCII letters only). */
  function Upper(c: char): (r: char)
    ensures IsLowerAscii(c) ==> IsUpperAscii(r) && r as int == c as int - 32
    ensures !IsLowerAscii(c) ==> r == c
  {
    if IsLowerAscii(c) then (c as int - 32) as char else c
  }

  function ToLower(s: string): (r: string)
    ensures |r| == |s| && forall i :: 0 <= i < |s| ==> r[i] == Lower(s[i])
  {
    seq(|s|, i requires 0 <= i < |s| => Lower(s[i]))
  }

  function ToUpper(s: string): (r: string)
    ensures |r| == |s| && forall i :: 0 <= i < |s| ==> r[i] == Upper(s[i])
  {
    seq(|s|, i requires 0 <= i < |s| => Upper(s[i]))
  }

  predicate IsPrefix(p: string, s: string)
  {
    |p| <= |s| && s[..|p|] == p
  }

  /** True iff `needle` occurs in `hay` at some position (`hay.includes(needle)`). */
  predicate OccursAt(hay: string, needle: string, i: int)
  {
    0 <= i && i + |needle| <= |hay| && hay[i..i + |needle|] == needle
  }

  /** `hay.includes(needle)`, computed by scanning every start position. */
  function Contains(hay: string, needle: string): (r: bool)
    ensures r <==> exists i :: OccursAt(hay, needle, i)
    decreases |hay|
  {
    if IsPrefix(needle, hay) then
      assert OccursAt(hay, needle, 0);
      true
    else if |hay| == 0 then
      assert forall i :: !OccursAt(hay, needle, i);
      false
    else
      var r := Contains(hay[1..], needle);
      assert forall i :: OccursAt(hay[1..], needle, i) ==> OccursAt(hay, needle, i + 1) by {
        forall i | OccursAt(hay[1..], needle, i) ensures OccursAt(hay, needle, i + 1) {
          assert hay[i + 1..i + 1 + |needle|] == hay[1..][i..i + |needle|];
        }
      }
      assert forall i :: OccursAt(hay, needle, i) && i > 0 ==> OccursAt(hay[1..], needle, i - 1) by {
        forall i | OccursAt(hay, needle, i) && i > 0 ensures OccursAt(hay[1..], needle, i - 1) {
          assert hay[i..i + |needle|] == hay[1..][i - 1..i - 1 + |needle|];
        }
      }
      r
  }

  /** The empty string occurs in every string: an empty search matches all. */
  lemma ContainsEmpty(hay: string)
    ensures Contains(hay, "")
  {
    assert OccursAt(hay, "", 0);
  }

  /** The characters `String.prototype.trim` strips: white space and line
      terminators of ECMAScript. */
  predicate IsJsWhitespace(c: char)
  {
    c == ' ' || c == '\t' || c == '\n' || c == '\r' || c == '\U{000B}' || c == '\U{000C}'
    || c == '\U{00A0}' || c == '\U{1680}' || ('\U{2000}' <= c <= '\U{200A}')
    || c == '\U{2028}' || c == '\U{2029}' || c == '\U{202F}' || c == '\U{205F}'
    || c == '\U{3000}' || c == '\U{FEFF}'
  }

  /** `s.trim()` is the empty string (so it is falsy in a condition). */
  predicate IsBlank(s: string)
  {
    forall i :: 0 <= i < |s| ==> IsJsWhitespace(s[i])
  }

  function DigitChar(d: nat): (c: char)
    requires d < 10
    ensures '0' <= c <= '9' && c as int - '0' as int == d
  {
    ('0' as int + d) as char
  }

  predicate IsDigits(s: string)
  {
    forall i :: 0 <= i < |s| ==> '0' <= s[i] <= '9'
  }

  /** `String(n)` for a non-negative integer: its decimal digits, no leading zero. */
  function Decimal(n: nat): (r: string)
    ensures |r| >= 1 && IsDigits(r)
    ensures n < 10 <==> |r| == 1
    ensures r[0] == '0' ==> n == 0
    decreases n
  {
    if n < 10 then [DigitChar(n)] else Decimal(n / 10) + [DigitChar(n % 10)]
  }

  /** The value of a string of decimal digits (its inverse). */
  function ParseDecimal(s: string): nat
    requires IsDigits(s)
  {
    if s == [] then 0
    else ParseDecimal(s[..|s| - 1]) * 10 + (s[|s| - 1] as int - '0' as int)
  }

  lemma {:induction false} ParseDecimalOfDecimal(n: nat)
    ensures ParseDecimal(Decimal(n)) == n
    decreases n
  {
    if n >= 10 {
      var d := Decimal(n);
      assert d[..|d| - 1] == Decimal(n / 10);
      ParseDecimalOfDecimal(n / 10);
    }
  }

  /** A leading zero does not change the value read back. */
  lemma {:induction false} ParseDecimalLeadingZero(s: string)
    requires IsDigits(s)
    ensures IsDigits("0" + s) && ParseDecimal("0" + s) == ParseDecimal(s)
    decreases |s|
  {
    if s != [] {
      assert ("0" + s)[..|"0" + s| - 1] == "0" + s[..|s| - 1];
      ParseDecimalLeadingZero(s[..|s| - 1]);
    }
  }

  /** `String(i)` for any integer: a minus sign before negative values. */
  function IntToString(i: int): (r: string)
    ensures |r| >= 1
    ensures i < 0 <==> r[0] == '-'
  {
    if i < 0 then "-" + Decimal(-i) else Decimal(i)
  }

  /** `lines.join(sep)`. */
  function Join(lines: seq<string>, sep: char): string
  {
    if lines == [] then ""
    else if |lines| == 1 then lines[0]
    else lines[0] + [sep] + Join(lines[1..], sep)
  }

  /** Cuts `s` at every `sep`, the inverse of `Join` (`s.split(sep)`). */
  function Split(s: string, sep: char): (r: seq<string>)
    ensures |r| >= 1
    decreases |s|
  {
    if s == [] then [""]
    else
      var rest := Split(s[1..], sep);
      if s[0] == sep then [""] + rest
      else [[s[0]] + rest[0]] + rest[1..]
  }

  lemma {:induction false} SplitNoSep(line: string, sep: char, tail: string)
    requires sep !in line
    ensures Split(line + [sep] + tail, sep) == [line] + Split(tail, sep)
    ensures Split(line, sep) == [line]
    decreases |line|
  {
    if line == [] {
      assert line + [sep] + tail == [sep] + tail;
      assert ([sep] + tail)[1..] == tail;
    } else {
      assert (line + [sep] + tail)[1..] == line[1..] + [sep] + tail;
      SplitNoSep(line[1..], sep, tail);
      assert [line[0]] + line[1..] == line;
    }
  }

  /** Joining lines that contain no separator can be undone by splitting:
      the lines stay distinguishable in the joined text. */
  lemma {:induction false} SplitJoin(lines: seq<string>, sep: char)
    requires |lines| >= 1
    requires forall k :: 0 <= k < |lines| ==> sep !in lines[k]
    ensures Split(Join(lines, sep), sep) == lines
    decreases |lines|
  {
    if |lines| == 1 {
      SplitNoSep(lines[0], sep, "");
    } else {
      SplitJoin(lines[1..], sep);
      SplitNoSep(lines[0], sep, Join(lines[1..], sep));
      assert [lines[0]] + lines[1..] == lines;
    }
  }
}

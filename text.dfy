/** Python's string primitives as the import scripts use them: whitespace,
    `strip`, `upper`/`lower`, `in` on strings, `replace(',', '.')`,
    `int(digits)` and `str(int)`. */
module Text {

  /** The characters Python's `str.isspace` (and regex `\s`) accept. */
  predicate IsSpace(c: char) {
    c == ' ' || ('\t' <= c <= '\r') || ('\U{1C}' <= c <= '\U{1F}')
    || c == '\U{85}' || c == '\U{A0}' || c == '\U{1680}'
    || ('\U{2000}' <= c <= '\U{200A}') || c == '\U{2028}' || c == '\U{2029}'
    || c == '\U{202F}' || c == '\U{205F}' || c == '\U{3000}'
  }

  predicate IsDigit(c: char) { '0' <= c <= '9' }

  predicate AllDigits(s: string) { forall i :: 0 <= i < |s| ==> IsDigit(s[i]) }

  predicate AllSpace(s: string) { forall i :: 0 <= i < |s| ==> IsSpace(s[i]) }

  /** Upper-case letters of the Latin-1 range that have a one-character lower case. */
  predicate IsUpperChar(c: char) {
    ('A' <= c <= 'Z') || ('\U{C0}' <= c <= '\U{DE}' && c != '\U{D7}')
  }

  predicate IsLowerChar(c: char) {
    ('a' <= c <= 'z') || ('\U{DF}' <= c <= '\U{FF}' && c != '\U{F7}') || c == '\U{B5}'
  }

  function LowerChar(c: char): (r: char)
    ensures IsUpperChar(c) ==> IsLowerChar(r) && r as int == c as int + 32
    ensures !IsUpperChar(c) ==> r == c
  {
    if IsUpperChar(c) then (c as int + 32) as char else c
  }

  /** `ß`, `ÿ` and `µ` upper-case outside Latin-1 (or to two letters); they are kept. */
  function UpperChar(c: char): (r: char)
    ensures ('a' <= c <= 'z') || ('\U{E0}' <= c <= '\U{FE}' && c != '\U{F7}') ==> IsUpperChar(r) && LowerChar(r) == c
    ensures !(('a' <= c <= 'z') || ('\U{E0}' <= c <= '\U{FE}' && c != '\U{F7}')) ==> r == c
  {
    if ('a' <= c <= 'z') || ('\U{E0}' <= c <= '\U{FE}' && c != '\U{F7}') then (c as int - 32) as char else c
  }

  /** `s.lower()`, character by character. */
  function Lower(s: string): (r: string)
    ensures |r| == |s|
  {
    if s == [] then [] else Lower(s[..|s| - 1]) + [LowerChar(s[|s| - 1])]
  }

  /** `s.upper()`, character by character. */
  function Upper(s: string): (r: string)
    ensures |r| == |s|
  {
    if s == [] then [] else Upper(s[..|s| - 1]) + [UpperChar(s[|s| - 1])]
  }

  lemma {:induction false} LowerAt(s: string, i: nat)
    requires i < |s|
    ensures Lower(s)[i] == LowerChar(s[i])
  {
    if i < |s| - 1 {
      LowerAt(s[..|s| - 1], i);
    }
  }

  lemma {:induction false} UpperAt(s: string, i: nat)
    requires i < |s|
    ensures Upper(s)[i] == UpperChar(s[i])
  {
    if i < |s| - 1 {
      UpperAt(s[..|s| - 1], i);
    }
  }

  /** Python's `str.isupper`: some cased character, and no lower-case one. */
  predicate IsUpperText(s: string) {
    (exists i :: 0 <= i < |s| && IsUpperChar(s[i])) && forall i :: 0 <= i < |s| ==> !IsLowerChar(s[i])
  }

  /** `sub in s` for Python strings: `sub` starts at some position of `s`. */
  predicate Contains(s: string, sub: string)
    decreases |s|
  {
    sub <= s || (s != [] && Contains(s[1..], sub))
  }

  /** `Contains` holds exactly when `sub` is a prefix of some suffix of `s`. */
  lemma {:induction false} ContainsAt(s: string, sub: string)
    ensures Contains(s, sub) <==> exists i :: 0 <= i <= |s| && sub <= s[i..]
    decreases |s|
  {
    if s != [] {
      ContainsAt(s[1..], sub);
      if exists i :: 0 <= i <= |s| && sub <= s[i..] {
        var i :| 0 <= i <= |s| && sub <= s[i..];
        if i > 0 {
          assert s[1..][i - 1..] == s[i..];
        }
      }
      if exists i :: 0 <= i <= |s[1..]| && sub <= s[1..][i..] {
        var i :| 0 <= i <= |s[1..]| && sub <= s[1..][i..];
        assert s[1..][i..] == s[i + 1..];
      }
    }
  }

  /** Some word of `words` occurs in `text`. */
  predicate MentionsAny(text: string, words: seq<string>)
    decreases |words|
  {
    words != [] && (Contains(text, words[0]) || MentionsAny(text, words[1..]))
  }

  /** `any(w in text for w in words)`, spelled out. */
  lemma {:induction false} MentionsAnyAt(text: string, words: seq<string>)
    ensures MentionsAny(text, words) <==> exists i :: 0 <= i < |words| && Contains(text, words[i])
    decreases |words|
  {
    if words != [] {
      MentionsAnyAt(text, words[1..]);
      if MentionsAny(text, words[1..]) {
        var i :| 0 <= i < |words[1..]| && Contains(text, words[1..][i]);
        assert Contains(text, words[i + 1]);
      }
      if exists i :: 0 <= i < |words| && Contains(text, words[i]) {
        var i :| 0 <= i < |words| && Contains(text, words[i]);
        if i > 0 {
          assert words[1..][i - 1] == words[i];
        }
      }
    }
  }

  /** Index of the first non-space character at or after `i`. */
  function SkipSpaces(s: string, i: nat): (j: nat)
    requires i <= |s|
    ensures i <= j <= |s|
    decreases |s| - i
  {
    if i < |s| && IsSpace(s[i]) then SkipSpaces(s, i + 1) else i
  }

  /** `SkipSpaces` passes over whitespace only and stops at the first other
      character. */
  lemma {:induction false} SkipSpacesShape(s: string, i: nat)
    requires i <= |s|
    ensures AllSpace(s[i..SkipSpaces(s, i)])
    ensures SkipSpaces(s, i) < |s| ==> !IsSpace(s[SkipSpaces(s, i)])
    decreases |s| - i
  {
    if i < |s| && IsSpace(s[i]) {
      SkipSpacesShape(s, i + 1);
      var j := SkipSpaces(s, i);
      assert forall k :: i <= k < j ==> s[k] == (if k == i then s[i] else s[i + 1..j][k - i - 1]);
    }
  }

  /** Index where the run of spaces that ends just before `j` starts. */
  function SpaceRunStart(s: string, j: nat): (i: nat)
    requires j <= |s|
    ensures i <= j
  {
    if j > 0 && IsSpace(s[j - 1]) then SpaceRunStart(s, j - 1) else j
  }

  /** `SpaceRunStart` passes back over whitespace only and stops after the
      last other character. */
  lemma {:induction false} SpaceRunStartShape(s: string, j: nat)
    requires j <= |s|
    ensures AllSpace(s[SpaceRunStart(s, j)..j])
    ensures SpaceRunStart(s, j) > 0 ==> !IsSpace(s[SpaceRunStart(s, j) - 1])
  {
    if j > 0 && IsSpace(s[j - 1]) {
      SpaceRunStartShape(s, j - 1);
      var i := SpaceRunStart(s, j);
      assert forall k :: i <= k < j ==> s[k] == (if k < j - 1 then s[i..j - 1][k - i] else s[j - 1]);
    }
  }

  /** Python's `str.strip()`. */
  function Strip(s: string): (r: string)
    ensures |r| <= |s|
  {
    var i := SkipSpaces(s, 0);
    var j := SpaceRunStart(s, |s|);
    if i < j then s[i..j] else []
  }

  /** `s` is `r` surrounded by whitespace only, `r` starting at index `i`. */
  predicate StrippedAt(s: string, i: nat, r: string)
    requires i + |r| <= |s|
  {
    AllSpace(s[..i]) && s[i..i + |r|] == r && AllSpace(s[i + |r|..])
  }

  /** The strip of `s` starts and ends with a non-space character and is `s`
      without the whitespace around it. */
  lemma StripShape(s: string)
    ensures Strip(s) == [] || (!IsSpace(Strip(s)[0]) && !IsSpace(Strip(s)[|Strip(s)| - 1]))
    ensures exists i :: 0 <= i <= |s| - |Strip(s)| && StrippedAt(s, i, Strip(s))
  {
    var i := SkipSpaces(s, 0);
    var j := SpaceRunStart(s, |s|);
    SkipSpacesShape(s, 0);
    SpaceRunStartShape(s, |s|);
    if i < j {
      assert !IsSpace(s[i]) && !IsSpace(s[j - 1]);
      assert StrippedAt(s, i, s[i..j]);
    } else {
      assert AllSpace(s) by {
        forall k | 0 <= k < |s|
          ensures IsSpace(s[k])
        {
          if k < i { assert s[0..i][k] == s[k]; } else { assert s[j..|s|][k - j] == s[k]; }
        }
      }
      assert StrippedAt(s, |s|, []);
    }
  }

  /** Text that starts with a non-space character keeps it first after stripping. */
  lemma StripKeepsFirst(s: string)
    requires s != [] && !IsSpace(s[0])
    ensures Strip(s) != [] && Strip(s)[0] == s[0]
  {
    SpaceRunStartShape(s, |s|);
    assert SkipSpaces(s, 0) == 0;
  }

  /** A text without surrounding whitespace is its own strip. */
  lemma {:induction false} StripOfStripped(s: string)
    requires s == [] || (!IsSpace(s[0]) && !IsSpace(s[|s| - 1]))
    ensures Strip(s) == s
  {
    if s != [] {
      assert SkipSpaces(s, 0) == 0;
      assert SpaceRunStart(s, |s|) == |s|;
    }
  }

  /** `s.replace(',', '.')`. */
  function ReplaceComma(s: string): (r: string)
    ensures |r| == |s| && ',' !in r
    ensures forall i :: 0 <= i < |s| ==> r[i] == (if s[i] == ',' then '.' else s[i])
  {
    seq(|s|, i requires 0 <= i < |s| => if s[i] == ',' then '.' else s[i])
  }

  /** Replacing commas is idempotent: text already using a decimal point
      normalises to itself (the step behind `TextAmountCommaInsensitive`). */
  lemma ReplaceCommaIdempotent(s: string)
    ensures ReplaceComma(ReplaceComma(s)) == ReplaceComma(s)
  {
  }

  function DigitValue(c: char): (d: nat)
    requires IsDigit(c)
    ensures d < 10
  {
    c as int - '0' as int
  }

  /** `int(s)` for a string of ASCII digits. */
  function DigitsValue(s: string): (n: nat)
    requires AllDigits(s)
    ensures n < Pow10(|s|)
  {
    if s == [] then 0 else DigitsValue(s[..|s| - 1]) * 10 + DigitValue(s[|s| - 1])
  }

  function Pow10(n: nat): (p: nat)
    ensures p >= 1
  {
    if n == 0 then 1 else 10 * Pow10(n - 1)
  }

  function DigitChar(d: nat): (c: char)
    requires d < 10
    ensures IsDigit(c) && DigitValue(c) == d
  {
    ('0' as int + d) as char
  }

  /** `str(n)` for a natural number. */
  function NatText(n: nat): (s: string)
    ensures |s| >= 1 && AllDigits(s)
    ensures |s| > 1 ==> s[0] != '0'
  {
    if n < 10 then [DigitChar(n)] else NatText(n / 10) + [DigitChar(n % 10)]
  }

  /** `str(i)` for any integer. */
  function IntText(i: int): (s: string)
    ensures |s| >= 1 && '.' !in s && IsDigit(s[|s| - 1])
  {
    if i < 0 then "-" + NatText(-i) else NatText(i)
  }

  /** Reading back the decimal text of a number gives the number. */
  lemma {:induction false} NatTextRoundTrip(n: nat)
    ensures DigitsValue(NatText(n)) == n
  {
    if n >= 10 {
      NatTextRoundTrip(n / 10);
      var s := NatText(n / 10) + [DigitChar(n % 10)];
      assert s[..|s| - 1] == NatText(n / 10);
    }
  }

  /** Python's `a < b` on strings: code-point lexicographic order. */
  predicate StrLess(a: string, b: string)
    decreases |a|
  {
    if a == [] then b != []
    else if b == [] then false
    else if a[0] != b[0] then a[0] < b[0]
    else StrLess(a[1..], b[1..])
  }

  lemma {:induction false} StrLessIrreflexive(a: string)
    ensures !StrLess(a, a)
    decreases |a|
  {
    if a != [] { StrLessIrreflexive(a[1..]); }
  }

  lemma {:induction false} StrLessTransitive(a: string, b: string, c: string)
    requires StrLess(a, b) && StrLess(b, c)
    ensures StrLess(a, c)
    decreases |a|
  {
    if a != [] && b != [] && c != [] && a[0] == b[0] && b[0] == c[0] {
      StrLessTransitive(a[1..], b[1..], c[1..]);
    }
  }

  lemma {:induction false} StrLessTotal(a: string, b: string)
    ensures a == b || StrLess(a, b) || StrLess(b, a)
    decreases |a|
  {
    if a != [] && b != [] && a[0] == b[0] {
      StrLessTotal(a[1..], b[1..]);
      if a[1..] == b[1..] {
        assert a == [a[0]] + a[1..] && b == [b[0]] + b[1..];
      }
    }
  }
}

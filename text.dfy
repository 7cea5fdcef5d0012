/**
 * Text helpers used by the Python parts of the system: decimal rendering and
 * parsing (`str(n)`, `int(s)`, `str.isdigit`), whitespace splitting
 * (`str.split()`), line splitting (`str.split('\n')`, `str.splitlines()`),
 * ASCII lower-casing (`str.lower()`) and substring tests (`x in s`).
 * Only ASCII behaviour is modelled.
 */
module Text {

  // ---------------------------------------------------------------------------
  // Decimal numbers
  // ---------------------------------------------------------------------------

  predicate IsDigit(c: char) { '0' <= c <= '9' }

  /** Python's `s.isdigit()` restricted to ASCII: non-empty and all digits. */
  predicate IsDigits(s: string) {
    |s| > 0 && forall k :: 0 <= k < |s| ==> IsDigit(s[k])
  }

  function DigitChar(d: nat): (c: char)
    requires d < 10
    ensures IsDigit(c) && c as int - '0' as int == d
  {
    ('0' as int + d) as char
  }

  function DigitValue(c: char): (d: nat)
    requires IsDigit(c)
    ensures d < 10
  {
    c as int - '0' as int
  }

  /** Python's `int(s)` on a digit string. */
  function ParseNat(s: string): nat
    requires forall k :: 0 <= k < |s| ==> IsDigit(s[k])
  {
    if s == [] then 0 else ParseNat(s[..|s| - 1]) * 10 + DigitValue(s[|s| - 1])
  }

  /** Python's `str(n)` for a non-negative integer. */
  function NatToString(n: nat): (s: string)
    ensures IsDigits(s)
    ensures |s| > 1 ==> s[0] != '0'
  {
    if n < 10 then [DigitChar(n)] else NatToString(n / 10) + [DigitChar(n % 10)]
  }

  /** Python's `str(i)` for any integer. */
  function IntToString(i: int): (s: string)
    ensures |s| > 0 && (s[0] == '-' || IsDigit(s[0]))
    ensures forall k :: 0 < k < |s| ==> IsDigit(s[k])
    ensures i >= 0 ==> IsDigits(s)
  {
    if i < 0 then "-" + NatToString(-i) else NatToString(i)
  }

  /** Python's `int(s)` on the text `str(i)` produces. */
  function ParseInt(s: string): (i: int)
    requires |s| > 0
    requires forall k :: 0 < k < |s| ==> IsDigit(s[k])
    requires s[0] == '-' || IsDigit(s[0])
  {
    if s[0] == '-' then 0 - ParseNat(s[1..]) else ParseNat(s)
  }

  /** Rendering a natural number in decimal and reading it back gives the number. */
  lemma {:induction false} ParseNatOfNatToString(n: nat)
    ensures ParseNat(NatToString(n)) == n
  {
    if n >= 10 {
      var s := NatToString(n);
      assert s[..|s| - 1] == NatToString(n / 10);
      ParseNatOfNatToString(n / 10);
    }
  }

  /** `int(str(i)) == i` for every integer. */
  lemma IntToStringRoundTrip(i: int)
    ensures ParseInt(IntToString(i)) == i
  {
    if i < 0 {
      assert IntToString(i)[1..] == NatToString(-i);
      ParseNatOfNatToString(-i);
    } else {
      ParseNatOfNatToString(i);
    }
  }

  // ---------------------------------------------------------------------------
  // Whitespace splitting
  // ---------------------------------------------------------------------------

  /** Which `split()` is meant: they differ in what counts as whitespace. */
  datatype Splitter = StrSplit | BytesSplit

  /**
   * The characters `split()` separates on. `bytes.split()` takes the six
   * ASCII whitespace bytes; `str.split()` takes every character for which
   * `str.isspace()` holds, which adds the separators U+001C..U+001F and
   * the Unicode spaces.
   */
  predicate IsSpace(sp: Splitter, c: char) {
    || c == ' ' || c == '\t' || c == '\n' || c == '\r' || c == '\U{000b}' || c == '\U{000c}'
    || (sp == StrSplit && IsOtherStrSpace(c))
  }

  /** The whitespace of `str.isspace()` beyond the six ASCII bytes. */
  predicate IsOtherStrSpace(c: char) {
    || '\U{001c}' <= c <= '\U{001f}'
    || c == '\U{0085}' || c == '\U{00a0}' || c == '\U{1680}'
    || '\U{2000}' <= c <= '\U{200a}'
    || c == '\U{2028}' || c == '\U{2029}' || c == '\U{202f}' || c == '\U{205f}' || c == '\U{3000}'
  }

  predicate NoSpace(sp: Splitter, s: string) {
    forall k :: 0 <= k < |s| ==> !IsSpace(sp, s[k])
  }

  /** Length of the maximal run of non-space characters that starts `s`. */
  function TokenLength(sp: Splitter, s: string): (n: nat)
    requires s != [] && !IsSpace(sp, s[0])
    ensures 1 <= n <= |s|
    ensures NoSpace(sp, s[..n])
    ensures n == |s| || IsSpace(sp, s[n])
  {
    if |s| == 1 || IsSpace(sp, s[1]) then 1 else 1 + TokenLength(sp, s[1..])
  }

  /** Python's `s.split()` with no argument: the maximal runs of non-space characters, in order. */
  function Words(sp: Splitter, s: string): (ws: seq<string>)
    ensures forall k :: 0 <= k < |ws| ==> ws[k] != [] && NoSpace(sp, ws[k])
    decreases |s|
  {
    if s == [] then []
    else if IsSpace(sp, s[0]) then Words(sp, s[1..])
    else
      var n := TokenLength(sp, s);
      [s[..n]] + Words(sp, s[n..])
  }

  /** A blank string has no words. */
  lemma {:induction false} WordsOfBlank(sp: Splitter, s: string)
    requires forall k :: 0 <= k < |s| ==> IsSpace(sp, s[k])
    ensures Words(sp, s) == []
    decreases |s|
  {
    if s != [] {
      WordsOfBlank(sp, s[1..]);
    }
  }

  /** A non-empty string without spaces is one word. */
  lemma WordsOfToken(sp: Splitter, w: string)
    requires w != [] && NoSpace(sp, w)
    ensures Words(sp, w) == [w]
  {
    var n := TokenLength(sp, w);
    assert n == |w|;
    assert w[..n] == w && w[n..] == [];
    assert Words(sp, w) == [w[..n]] + Words(sp, w[n..]);
  }

  /** The token that starts `s` ends at the first space, whatever follows it. */
  lemma {:induction false} TokenLengthAppend(sp: Splitter, s: string, t: string)
    requires s != [] && !IsSpace(sp, s[0]) && t != [] && IsSpace(sp, t[0])
    ensures TokenLength(sp, s + t) == TokenLength(sp, s)
    decreases |s|
  {
    if |s| > 1 && !IsSpace(sp, s[1]) {
      assert (s + t)[1..] == s[1..] + t;
      TokenLengthAppend(sp, s[1..], t);
    }
  }

  /**
   * Splitting at a space splits the words. With `WordsOfBlank` and
   * `WordsOfToken` this determines `Words` on every string, since every
   * string is its non-space runs with spaces between them.
   */
  lemma {:induction false} WordsAtSpace(sp: Splitter, s1: string, c: char, s2: string)
    requires IsSpace(sp, c)
    ensures Words(sp, s1 + [c] + s2) == Words(sp, s1) + Words(sp, s2)
    decreases |s1|
  {
    var s := s1 + [c] + s2;
    if s1 == [] {
      assert s[1..] == s2;
    } else if IsSpace(sp, s1[0]) {
      assert s[1..] == s1[1..] + [c] + s2;
      WordsAtSpace(sp, s1[1..], c, s2);
    } else {
      TokenLengthAppend(sp, s1, [c] + s2);
      assert s == s1 + ([c] + s2);
      var n := TokenLength(sp, s1);
      assert s[..n] == s1[..n];
      assert s[n..] == s1[n..] + [c] + s2;
      WordsAtSpace(sp, s1[n..], c, s2);
    }
  }

  /** The two splits differ: U+001C separates words of a `str` but is part of a `bytes` token. */
  lemma SplittersDiffer()
    ensures Words(StrSplit, "a\U{001c}b") == ["a", "b"]
    ensures Words(BytesSplit, "a\U{001c}b") == ["a\U{001c}b"]
  {
    WordsAtSpace(StrSplit, "a", '\U{001c}', "b");
    assert "a" + ['\U{001c}'] + "b" == "a\U{001c}b";
    WordsOfToken(StrSplit, "a");
    WordsOfToken(StrSplit, "b");
    WordsOfToken(BytesSplit, "a\U{001c}b");
  }

  // ---------------------------------------------------------------------------
  // Line splitting
  // ---------------------------------------------------------------------------

  /** Python's `sep.join(parts)` for a one-character separator. */
  function Join(parts: seq<string>, sep: char): string
    decreases |parts|
  {
    if parts == [] then []
    else if |parts| == 1 then parts[0]
    else parts[0] + [sep] + Join(parts[1..], sep)
  }

  /** Joining one more part adds the separator and the part at the end. */
  lemma {:induction false} JoinSnoc(parts: seq<string>, x: string, sep: char)
    requires parts != []
    ensures Join(parts + [x], sep) == Join(parts, sep) + [sep] + x
    decreases |parts|
  {
    if |parts| > 1 {
      assert (parts + [x])[1..] == parts[1..] + [x];
      JoinSnoc(parts[1..], x, sep);
    }
  }

  /** Python's `s.split(sep)` for a one-character separator: joining the parts back gives `s`. */
  function SplitOn(s: string, sep: char): (parts: seq<string>)
    ensures |parts| >= 1
    ensures forall k :: 0 <= k < |parts| ==> sep !in parts[k]
    ensures Join(parts, sep) == s
  {
    if s == [] then [[]]
    else if s[0] == sep then
      var rest := SplitOn(s[1..], sep);
      assert ([[]] + rest)[1..] == rest;
      [[]] + rest
    else
      var rest := SplitOn(s[1..], sep);
      var parts := [[s[0]] + rest[0]] + rest[1..];
      assert |rest| > 1 ==> Join(rest, sep) == rest[0] + [sep] + Join(rest[1..], sep);
      assert parts[1..] == rest[1..];
      parts
  }

  /** The last part of a split is empty exactly when the text is empty or ends with the separator. */
  lemma SplitOnLastEmpty(s: string, sep: char)
    ensures var parts := SplitOn(s, sep);
      parts[|parts| - 1] == [] <==> s == [] || s[|s| - 1] == sep
  {
    var parts := SplitOn(s, sep);
    if |parts| > 1 {
      JoinSnoc(parts[..|parts| - 1], parts[|parts| - 1], sep);
      assert parts[..|parts| - 1] + [parts[|parts| - 1]] == parts;
    } else {
      assert s == parts[0];
    }
  }

  /**
   * Python's `s.splitlines()` for text whose only line break is `'\n'`:
   * joining the lines with line breaks gives `s`, less its final line
   * break when it has one.
   */
  function SplitLines(s: string): (lines: seq<string>)
    ensures forall k :: 0 <= k < |lines| ==> '\n' !in lines[k]
    ensures if s != [] && s[|s| - 1] == '\n' then Join(lines, '\n') + "\n" == s else Join(lines, '\n') == s
  {
    var parts := SplitOn(s, '\n');
    SplitOnLastEmpty(s, '\n');
    if parts[|parts| - 1] == [] then
      var lines := parts[..|parts| - 1];
      if lines == [] then lines
      else
        JoinSnoc(lines, [], '\n');
        assert lines + [[]] == parts;
        lines
    else parts
  }

  // ---------------------------------------------------------------------------
  // Case and substrings
  // ---------------------------------------------------------------------------

  /** ASCII `lower()` of one character. */
  function LowerChar(c: char): char {
    if 'A' <= c <= 'Z' then (c as int + 32) as char else c
  }

  /** ASCII `upper()` of one character. */
  function UpperChar(c: char): char {
    if 'a' <= c <= 'z' then (c as int - 32) as char else c
  }

  /** Python's `s.lower()` restricted to ASCII letters. */
  function Lower(s: string): (r: string)
    ensures |r| == |s|
    ensures forall k :: 0 <= k < |s| ==>
      if 'A' <= s[k] <= 'Z' then r[k] as int == s[k] as int + 32 else r[k] == s[k]
    ensures forall k :: 0 <= k < |r| ==> !('A' <= r[k] <= 'Z')
  {
    seq(|s|, k requires 0 <= k < |s| => LowerChar(s[k]))
  }

  /** All of `w` is lower-case ASCII letters. */
  predicate IsLowerWord(w: string) {
    forall k :: 0 <= k < |w| ==> 'a' <= w[k] <= 'z'
  }

  /** `a` spells `w` with any of its letters in upper case. */
  predicate CaseVariant(a: string, w: string) {
    |a| == |w| && forall k :: 0 <= k < |a| ==> a[k] == w[k] || a[k] as int == w[k] as int - 32
  }

  /** `a.lower() == w` for a lower-case word exactly when `a` is `w` in some mix of cases. */
  lemma LowerMatches(a: string, w: string)
    requires IsLowerWord(w)
    ensures Lower(a) == w <==> CaseVariant(a, w)
  {
    if CaseVariant(a, w) {
      assert forall k :: 0 <= k < |a| ==> Lower(a)[k] == w[k];
    }
  }

  /** `sub` occurs in `s` starting at index `i`. */
  predicate OccursAt(s: string, sub: string, i: int) {
    0 <= i <= |s| - |sub| && s[i..i + |sub|] == sub
  }

  /** Python's `s.capitalize()` restricted to ASCII letters: first letter upper, the rest lower. */
  function Capitalize(s: string): (r: string)
    ensures |r| == |s|
  {
    if s == [] then [] else [UpperChar(s[0])] + Lower(s[1..])
  }

  /** Python's `sub in s` on strings. */
  predicate Contains(s: string, sub: string) {
    exists i | 0 <= i <= |s| - |sub| :: OccursAt(s, sub, i)
  }
}

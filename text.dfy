/**
 * The few pieces of Python's `str` the pipeline relies on: whitespace,
 * `strip`, `lower` (as far as a comparison with an ASCII word can see it)
 * and the substring test behind `k in s`.
 */
module Text {

  /**
   * Python's whitespace (`str.isspace`, which is also what `str.strip()` and
   * the `\s` class of a `re` pattern over `str` use): the characters U+0009 to
   * U+000D, U+001C to U+001F, the space, U+0085, U+00A0, U+1680, U+2000 to
   * U+200A, U+2028, U+2029, U+202F, U+205F and U+3000.
   */
  predicate IsSpace(c: char) {
    || ('\t' <= c <= '\r')
    || ('\U{1C}' <= c <= '\U{1F}')
    || c == ' '
    || c == '\U{85}'
    || c == '\U{A0}'
    || c == '\U{1680}'
    || ('\U{2000}' <= c <= '\U{200A}')
    || c == '\U{2028}'
    || c == '\U{2029}'
    || c == '\U{202F}'
    || c == '\U{205F}'
    || c == '\U{3000}'
  }

  /** Every character of `s` is whitespace (the empty string included). */
  predicate IsBlank(s: string) {
    forall i :: 0 <= i < |s| ==> IsSpace(s[i])
  }

  predicate StartsWith(s: string, prefix: string) {
    |prefix| <= |s| && s[..|prefix|] == prefix
  }

  predicate EndsWith(s: string, suffix: string) {
    |suffix| <= |s| && s[|s| - |suffix|..] == suffix
  }

  /** `s.lstrip()`: the suffix of `s` left after its leading whitespace. */
  function LStrip(s: string): (r: string)
    ensures |r| <= |s| && r == s[|s| - |r|..]
    ensures r == [] || !IsSpace(r[0])
    ensures IsBlank(s[..|s| - |r|])
  {
    if |s| > 0 && IsSpace(s[0]) then LStrip(s[1..]) else s
  }

  /** `s.rstrip()`: the prefix of `s` left after its trailing whitespace. */
  function RStrip(s: string): (r: string)
    ensures |r| <= |s| && r == s[..|r|]
    ensures r == [] || !IsSpace(r[|r| - 1])
    ensures IsBlank(s[|r|..])
  {
    if |s| > 0 && IsSpace(s[|s| - 1]) then
      var r := RStrip(s[..|s| - 1]);
      assert s[|r|..] == s[..|s| - 1][|r|..] + [s[|s| - 1]];
      r
    else
      s
  }

  /** No whitespace at either end. */
  predicate Trimmed(s: string) {
    s == [] || (!IsSpace(s[0]) && !IsSpace(s[|s| - 1]))
  }

  /**
   * `s.strip()`: no whitespace is left at either end, and nothing at all is
   * left exactly when `s` is all whitespace (`not s.strip()`).
   */
  function Strip(s: string): (r: string)
    ensures |r| <= |s|
    ensures Trimmed(r)
    ensures r == [] <==> IsBlank(s)
  {
    var l := LStrip(s);
    var r := RStrip(l);
    assert r != [] ==> r[0] == l[0];
    assert l[0..] == l;
    assert s == s[..|s| - |l|] + l;
    assert l != [] ==> l[0] == s[|s| - |l|];
    r
  }

  /**
   * What `strip` keeps is the whole middle of `s`: the text between a blank
   * prefix and a blank suffix, nothing of it dropped.
   */
  lemma StripSlices(s: string)
    ensures exists i :: 0 <= i && i + |Strip(s)| <= |s| && Strip(s) == s[i..i + |Strip(s)|]
                        && IsBlank(s[..i]) && IsBlank(s[i + |Strip(s)|..])
  {
    var l := LStrip(s);
    var r := Strip(s);
    var i := |s| - |l|;
    assert l == s[i..];
    assert r == l[..|r|];
    assert s[i..i + |r|] == l[..|r|];
    assert s[i + |r|..] == l[|r|..];
  }

  /** Leading whitespace followed by a non-space character is exactly what `lstrip` removes. */
  lemma {:induction false} LStripAfterBlank(blank: string, rest: string)
    requires IsBlank(blank)
    requires rest == [] || !IsSpace(rest[0])
    ensures LStrip(blank + rest) == rest
  {
    if blank != [] {
      assert (blank + rest)[1..] == blank[1..] + rest;
      LStripAfterBlank(blank[1..], rest);
    }
  }

  /** Trailing whitespace after a non-space character is exactly what `rstrip` removes. */
  lemma {:induction false} RStripBeforeBlank(rest: string, blank: string)
    requires IsBlank(blank)
    requires rest == [] || !IsSpace(rest[|rest| - 1])
    ensures RStrip(rest + blank) == rest
  {
    if blank != [] {
      var shorter := blank[..|blank| - 1];
      assert (rest + blank)[..|rest + blank| - 1] == rest + shorter;
      RStripBeforeBlank(rest, shorter);
    }
  }

  /** A string with whitespace at neither end is left alone by `strip`. */
  lemma StripTrimmedIsIdentity(s: string)
    requires Trimmed(s)
    ensures Strip(s) == s
  {
  }

  /** Python's `c.lower()` on the ASCII letters; every other character is kept. */
  function LowerChar(c: char): char {
    if 'A' <= c <= 'Z' then (c as int + 32) as char else c
  }

  /** `s.lower()`, character by character. */
  function Lower(s: string): string {
    seq(|s|, i requires 0 <= i < |s| => LowerChar(s[i]))
  }

  /** Python's `needle in haystack` on two strings. */
  predicate IsSubstring(needle: string, haystack: string) {
    exists i :: 0 <= i <= |haystack| && StartsWith(haystack[i..], needle)
  }
}

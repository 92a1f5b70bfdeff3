/**
 * Character classes used by the clean-up regular expressions, and the subsequences
 * (digits, non-whitespace characters) that the properties of the clean-up talk about.
 *
 * Assumption: a JavaScript string is modelled as a sequence of `char`s, each a Unicode scalar
 * value. For text with no character outside the Basic Multilingual Plane, which the model
 * assumes, this is one `char` per UTF-16 code unit, so lengths agree with JavaScript's. The
 * clean-up patterns only ever test for ASCII characters and the whitespace set below, all of
 * which lie in the Basic Multilingual Plane.
 */
module Text {

  /**
   * `\s` in an ECMAScript regular expression, and the set `String.prototype.trim` removes:
   * WhiteSpace (TAB, VT, FF, SP, NBSP, ZWNBSP and every Zs code point) plus
   * LineTerminator (LF, CR, LS, PS). The Zs list is that of Unicode 15.
   */
  predicate IsSpace(c: char) {
    c in {'\t', '\n', '\U{000B}', '\U{000C}', '\r', ' ', '\U{00A0}', '\U{1680}',
          '\U{2028}', '\U{2029}', '\U{202F}', '\U{205F}', '\U{3000}', '\U{FEFF}'}
    || ('\U{2000}' <= c <= '\U{200A}')
  }

  /** LineTerminator: where `^` and `$` match in multiline mode. */
  predicate IsLineTerminator(c: char) {
    c in {'\n', '\r', '\U{2028}', '\U{2029}'}
  }

  /** `\n` in a pattern. */
  predicate IsLineFeed(c: char) {
    c == '\n'
  }

  /** Not whitespace. */
  predicate IsVisible(c: char) {
    !IsSpace(c)
  }

  /** `\d`: the ASCII decimal digits only. */
  predicate IsDigit(c: char) {
    '0' <= c <= '9'
  }

  /** The characters `[\.,-]` in the stray-punctuation rule. */
  predicate IsStrayPunctuation(c: char) {
    c in {'.', ',', '-'}
  }

  /**
   * Case folding under the regular-expression `i` flag without `u`: Canonicalize upper-cases,
   * but never maps a character outside ASCII onto one inside it, so for the ASCII letters of
   * the unit patterns folding ASCII letters is all that matters.
   */
  function Fold(c: char): (f: char)
    ensures IsDigit(c) || IsSpace(c) || c in {'%', '/', '.', ',', '-'} ==> f == c
    ensures 'a' <= f <= 'z' ==> ('a' <= c <= 'z' || 'A' <= c <= 'Z')
  {
    if 'A' <= c <= 'Z' then (c as int + 32) as char else c
  }

  /** Every character of `s` satisfies `p`. */
  predicate All(s: string, p: char -> bool) {
    forall k :: 0 <= k < |s| ==> p(s[k])
  }

  /** The subsequence of characters of `s` that satisfy `p`, in order. */
  function Keep(s: string, p: char -> bool): (r: string)
    ensures |r| <= |s|
    ensures forall k :: 0 <= k < |r| ==> p(r[k])
  {
    if s == [] then [] else (if p(s[0]) then [s[0]] else []) + Keep(s[1..], p)
  }

  /** The digits of `s`, in order. */
  function Digits(s: string): string {
    Keep(s, IsDigit)
  }

  /** The characters of `s` that are not whitespace, in order. */
  function NonSpace(s: string): string {
    Keep(s, IsVisible)
  }

  lemma {:induction false} KeepConcat(a: string, b: string, p: char -> bool)
    ensures Keep(a + b, p) == Keep(a, p) + Keep(b, p)
  {
    if a == [] {
      assert a + b == b;
    } else {
      assert (a + b)[0] == a[0];
      assert (a + b)[1..] == a[1..] + b;
      KeepConcat(a[1..], b, p);
    }
  }

  /** `Keep` drops exactly the characters that fail `p`: none is kept from a string of them. */
  lemma {:induction false} KeepNone(s: string, p: char -> bool)
    requires forall k :: 0 <= k < |s| ==> !p(s[k])
    ensures Keep(s, p) == []
  {
    if s != [] {
      KeepNone(s[1..], p);
    }
  }

  /** `Keep` changes nothing in a string all of whose characters satisfy `p`. */
  lemma {:induction false} KeepAll(s: string, p: char -> bool)
    requires All(s, p)
    ensures Keep(s, p) == s
  {
    if s != [] {
      KeepAll(s[1..], p);
      assert s == [s[0]] + s[1..];
    }
  }
}

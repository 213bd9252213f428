/** The filter applied to the route planner's narration before it is sent:
    every character outside the allow-list of the character class
    [a-zA-Zа-яА-ЯёЁ0-9\s.,:"«»] is deleted, the rest are kept in order.
    `\s` in a Python `str` pattern is Unicode whitespace (exactly the
    characters for which `str.isspace()` holds). */
module Sanitizer {

  /** Python's `\s` on `str`: bidirectional class WS, B or S, or category Zs. */
  predicate IsUnicodeSpace(c: char) {
    ('\U{0009}' <= c <= '\U{000D}') || ('\U{001C}' <= c <= '\U{001F}') || c == ' '
    || c == '\U{0085}' || c == '\U{00A0}' || c == '\U{1680}'
    || ('\U{2000}' <= c <= '\U{200A}') || c == '\U{2028}' || c == '\U{2029}'
    || c == '\U{202F}' || c == '\U{205F}' || c == '\U{3000}'
  }

  /** Cyrillic letters the class names: а-я (U+0430..U+044F), А-Я (U+0410..U+042F), ё, Ё. */
  predicate IsCyrillicLetter(c: char) {
    ('\U{0430}' <= c <= '\U{044F}') || ('\U{0410}' <= c <= '\U{042F}') || c == '\U{0451}' || c == '\U{0401}'
  }

  /** The allow-list of the narration filter. */
  predicate Allowed(c: char) {
    ('a' <= c <= 'z') || ('A' <= c <= 'Z') || IsCyrillicLetter(c) || ('0' <= c <= '9')
    || IsUnicodeSpace(c)
    || c == '.' || c == ',' || c == ':' || c == '"' || c == '\U{00AB}' || c == '\U{00BB}'
  }

  predicate AllAllowed(s: string) {
    forall i :: 0 <= i < |s| ==> Allowed(s[i])
  }

  /** The regex substitution that deletes every disallowed character. */
  function Sanitize(s: string): (r: string)
    ensures |r| <= |s|
    ensures AllAllowed(r)
  {
    if s == [] then []
    else (if Allowed(s[0]) then [s[0]] else []) + Sanitize(s[1..])
  }

  /** The filter works character by character: it distributes over concatenation,
      so the kept characters stay in their original order. */
  lemma {:induction false} SanitizeAppend(a: string, b: string)
    ensures Sanitize(a + b) == Sanitize(a) + Sanitize(b)
  {
    if a == [] {
      assert a + b == b;
    } else {
      assert (a + b)[1..] == a[1..] + b;
      SanitizeAppend(a[1..], b);
    }
  }

  /** On one character the filter keeps it exactly when it is allowed. */
  lemma SanitizeChar(c: char)
    ensures Sanitize([c]) == (if Allowed(c) then [c] else [])
  {
  }

  /** A string is left untouched exactly when all of its characters are allowed. */
  lemma {:induction false} SanitizeFixedPoint(s: string)
    ensures Sanitize(s) == s <==> AllAllowed(s)
  {
    if s != [] {
      SanitizeFixedPoint(s[1..]);
      if !Allowed(s[0]) {
        assert |Sanitize(s)| < |s| by { assert |Sanitize(s[1..])| <= |s[1..]|; }
      }
    }
  }

  /** Filtering twice gives the same result as filtering once. */
  lemma SanitizeIdempotent(s: string)
    ensures Sanitize(Sanitize(s)) == Sanitize(s)
  {
    SanitizeFixedPoint(Sanitize(s));
  }

  /** Every allowed character survives as often as it occurs; every other character disappears. */
  lemma {:induction false} SanitizeCounts(s: string, c: char)
    ensures multiset(Sanitize(s))[c] == if Allowed(c) then multiset(s)[c] else 0
  {
    if s != [] {
      SanitizeCounts(s[1..], c);
      assert s == [s[0]] + s[1..];
      assert multiset(s) == multiset([s[0]]) + multiset(s[1..]);
    }
  }
}

/** Character classes used by the grammar: the ASCII identifier alphabet of
    `text::ident`, the whitespace skipped by `.padded()` and the line breaks
    recognised by `newline()`. */
module Chars {

  predicate IsAsciiLetter(c: char) {
    ('a' <= c <= 'z') || ('A' <= c <= 'Z')
  }

  predicate IsAsciiDigit(c: char) {
    '0' <= c <= '9'
  }

  /** A character that may start an identifier. */
  predicate IsIdentStart(c: char) {
    IsAsciiLetter(c) || c == '_'
  }

  /** A character that may continue an identifier. */
  predicate IsIdentChar(c: char) {
    IsAsciiLetter(c) || IsAsciiDigit(c) || c == '_'
  }

  /** The Unicode White_Space set, which is what `char::is_whitespace` tests. */
  predicate IsWhitespace(c: char) {
    c == ' ' || ('\t' <= c <= '\r')
    || c == '\U{85}' || c == '\U{A0}' || c == '\U{1680}'
    || ('\U{2000}' <= c <= '\U{200A}')
    || c == '\U{2028}' || c == '\U{2029}' || c == '\U{202F}' || c == '\U{205F}'
    || c == '\U{3000}'
  }

  /** The single characters that `newline()` accepts as a line break
      (the two-character "\r\n" is accepted as well). */
  predicate IsNewlineChar(c: char) {
    c == '\n' || c == '\r' || c == '\U{0B}' || c == '\U{0C}'
    || c == '\U{85}' || c == '\U{2028}' || c == '\U{2029}'
  }

  /** A non-empty identifier: a letter or `_`, then letters, digits or `_`. */
  predicate IsIdentifier(s: string) {
    |s| > 0 && IsIdentStart(s[0]) && forall i :: 0 < i < |s| ==> IsIdentChar(s[i])
  }

  predicate AllWhitespace(s: string) {
    forall i :: 0 <= i < |s| ==> IsWhitespace(s[i])
  }

  /** Every line break is whitespace, so padding can swallow line breaks;
      no whitespace character can appear in an identifier. */
  lemma CharClassRelations(c: char)
    ensures IsNewlineChar(c) ==> IsWhitespace(c)
    ensures IsWhitespace(c) ==> !IsIdentChar(c)
    ensures IsIdentStart(c) ==> IsIdentChar(c)
  {
  }
}

/**
 * Character classes used by the five lexers, on ASCII.
 *
 * Java's Character.isLetter / isLetterOrDigit / isDigit / isWhitespace and
 * Python's str.isalpha / isalnum / isdigit / isspace agree with these
 * predicates on every character below U+0080; characters above that are out
 * of the model (see README).
 */
module Chars {

  predicate IsUpper(c: char) { 'A' <= c <= 'Z' }

  predicate IsLower(c: char) { 'a' <= c <= 'z' }

  predicate IsLetter(c: char) { IsUpper(c) || IsLower(c) }

  predicate IsDigit(c: char) { '0' <= c <= '9' }

  predicate IsLetterOrDigit(c: char) { IsLetter(c) || IsDigit(c) }

  /** Java Character.isWhitespace and Python str.isspace on ASCII: TAB, LF, VT,
      FF, CR, the four information separators U+001C..U+001F, and SPACE.
      Python's regex class `\s` on str patterns is the same set. */
  predicate IsWhitespace(c: char) {
    '\t' <= c <= '\r' || '\U{1C}' <= c <= '\U{1F}' || c == ' '
  }

  /** Java regex class `\s`: [ \t\n\x0B\f\r], without the information separators. */
  predicate IsJavaRegexSpace(c: char) {
    '\t' <= c <= '\r' || c == ' '
  }

  /** Every whitespace character is at most SPACE, so Java's String.trim removes it. */
  lemma WhitespaceIsTrimmed(c: char)
    requires IsWhitespace(c)
    ensures c <= ' '
  {}

  function UpperChar(c: char): (u: char)
    ensures IsLower(c) ==> IsUpper(u)
    ensures !IsLower(c) ==> u == c
  {
    if IsLower(c) then (c as int - 32) as char else c
  }

  /** str.upper on ASCII, and Java's String.toUpperCase under a non-Turkic default
      locale: lower-case letters are mapped, everything else kept. */
  function ToUpper(s: string): (r: string)
    ensures |r| == |s|
    ensures forall k :: 0 <= k < |s| ==> r[k] == UpperChar(s[k])
  {
    if s == [] then [] else [UpperChar(s[0])] + ToUpper(s[1..])
  }

  predicate AllDigits(s: string) {
    forall k :: 0 <= k < |s| ==> IsDigit(s[k])
  }

  /** The value of a decimal numeral, read left to right (Integer.parseInt and
      int() on a digit string, before any range check). */
  function NumeralValue(s: string): (n: nat)
    requires AllDigits(s)
  {
    if s == [] then 0 else 10 * NumeralValue(s[..|s| - 1]) + (s[|s| - 1] as int - '0' as int)
  }

  /** The largest value Java's Integer.parseInt accepts. */
  const MaxJavaInt: nat := 0x7FFF_FFFF
}

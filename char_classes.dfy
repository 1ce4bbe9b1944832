/**
 * The character classes that the form's regular expressions and the
 * JavaScript string built-ins (trim, parseInt) are made of.
 * Characters are Unicode scalar values; see README for UTF-16.
 */
module CharClasses {
  /** `[a-zA-Z]` */
  predicate IsAsciiLetter(c: char) {
    'a' <= c <= 'z' || 'A' <= c <= 'Z'
  }

  /** `\d` and `[0-9]` (without the `u` flag `\d` is ASCII only) */
  predicate IsDecimalDigit(c: char) {
    '0' <= c <= '9'
  }

  /** `[a-zA-Z0-9]` */
  predicate IsAsciiAlnum(c: char) {
    IsAsciiLetter(c) || IsDecimalDigit(c)
  }

  /** The special characters the password rule asks for: `[@$!%*?&]` */
  predicate IsPasswordSymbol(c: char) {
    c == '@' || c == '$' || c == '!' || c == '%' || c == '*' || c == '?' || c == '&'
  }

  /** `[A-Za-z\d@$!%*?&]`, the only characters a password may contain */
  predicate IsPasswordChar(c: char) {
    IsAsciiLetter(c) || IsDecimalDigit(c) || IsPasswordSymbol(c)
  }

  /** `[가-힣]`: the precomposed Hangul syllables U+AC00..U+D7A3 */
  predicate IsHangulSyllable(c: char) {
    '\U{AC00}' <= c <= '\U{D7A3}'
  }

  /** `[가-힣a-zA-Z]`, the characters of a name */
  predicate IsNameChar(c: char) {
    IsHangulSyllable(c) || IsAsciiLetter(c)
  }

  /** `[a-zA-Z0-9._-]`, the characters before the `@` of an email address */
  predicate IsEmailLocalChar(c: char) {
    IsAsciiAlnum(c) || c == '.' || c == '_' || c == '-'
  }

  /** `[a-zA-Z0-9.-]`, the characters of the domain of an email address */
  predicate IsEmailDomainChar(c: char) {
    IsAsciiAlnum(c) || c == '.' || c == '-'
  }

  /** The characters the regular-expression `.` does not match (ECMAScript LineTerminator). */
  predicate IsLineTerminator(c: char) {
    c == '\n' || c == '\r' || c == '\U{2028}' || c == '\U{2029}'
  }

  /**
   * ECMAScript WhiteSpace and LineTerminator: what String.prototype.trim
   * removes and what parseInt skips. U+0009..U+000D are TAB, LF, VT, FF
   * and CR; U+2028..U+2029 the line and paragraph separators; U+FEFF is
   * ZWNBSP; the rest are the space separators of category Zs.
   */
  predicate IsJsWhitespace(c: char) {
    ('\t' <= c <= '\r') || c == ' ' || c == '\U{00A0}' || c == '\U{1680}'
    || ('\U{2000}' <= c <= '\U{200A}') || ('\U{2028}' <= c <= '\U{2029}')
    || c == '\U{202F}' || c == '\U{205F}' || c == '\U{3000}' || c == '\U{FEFF}'
  }

  /** The value of a decimal digit. */
  function DigitValue(c: char): (d: nat)
    requires IsDecimalDigit(c)
    ensures d < 10
  {
    c as int - '0' as int
  }

  /** The decimal digit whose value is `d`; the inverse of DigitValue. */
  function DigitChar(d: nat): (c: char)
    requires d < 10
    ensures IsDecimalDigit(c) && DigitValue(c) == d
  {
    (d + '0' as int) as char
  }
}

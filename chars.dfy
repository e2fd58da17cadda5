/** Character classes of src/Lox/Extensions/CharExtensions.cs. */
module Chars {

  /** ASCII letters and the underscore. */
  predicate IsAlpha(c: char)
  {
    ('a' <= c <= 'z') || ('A' <= c <= 'Z') || c == '_'
  }

  predicate IsDigit(c: char)
  {
    '0' <= c <= '9'
  }

  predicate IsAlphaNumeric(c: char)
  {
    IsAlpha(c) || IsDigit(c)
  }

  /** The classes are disjoint and the NUL sentinel returned past the end of
      the source belongs to none of them, so it ends every digit run and
      every identifier. */
  lemma ClassesDisjoint(c: char)
    ensures !(IsAlpha(c) && IsDigit(c))
    ensures !IsAlphaNumeric('\0') && !IsDigit('\0') && !IsAlpha('\0')
  {
  }

  /** Neither the quote nor the newline nor the dot belongs to a class. */
  lemma PunctuationNotAlphaNumeric()
    ensures !IsAlphaNumeric('"') && !IsAlphaNumeric('\n') && !IsAlphaNumeric('.')
  {
  }
}

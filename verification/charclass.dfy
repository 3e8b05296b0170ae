/** The two character classes the scanner branches on (modules/helper.ts). The source tests
    a regular expression against a string; the scanner only ever passes one character, so the
    classes are modelled as predicates on a single character. */
module CharClass {

  /** `[0-9]`. */
  predicate IsDigit(c: char) {
    '0' <= c <= '9'
  }

  /** `[A-Za-z_]`. */
  predicate IsAlpha(c: char) {
    'A' <= c <= 'Z' || 'a' <= c <= 'z' || c == '_'
  }

  /** No character is in both classes, so a word never starts with a digit. */
  lemma DigitNotAlpha(c: char)
    ensures !(IsDigit(c) && IsAlpha(c))
  {
  }

  /** The end-of-input sentinel is in neither class, so every peek-driven scan stops there. */
  lemma SentinelInNeither()
    ensures !IsDigit('\0') && !IsAlpha('\0')
  {
  }
}

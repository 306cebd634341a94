/**
 * Character-level comparisons on keys. Prefix tests are ordinal; the one
 * case-insensitive comparison folds the ASCII letters 'A'..'Z' onto 'a'..'z',
 * which is what an ordinal ignore-case comparison does on ASCII text.
 */
module Ascii {

  /** Lower-cases an ASCII upper-case letter and leaves every other character alone. */
  function Fold(c: char): char {
    if 'A' <= c <= 'Z' then (c as int - 'A' as int + 'a' as int) as char else c
  }

  /** Equality of two strings up to ASCII letter case. */
  predicate EqualsIgnoreCase(a: string, b: string) {
    |a| == |b| && forall i :: 0 <= i < |a| ==> Fold(a[i]) == Fold(b[i])
  }

  /** Ordinal (character-by-character, case-sensitive) prefix test. */
  predicate StartsWith(s: string, prefix: string) {
    |prefix| <= |s| && s[..|prefix|] == prefix
  }
}

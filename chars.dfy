/**
 * Character classes used by Python's `re` module on `str` patterns and by
 * `str.strip()`.
 *
 * The Unicode tables behind `\d` (category Nd) and `\w` (alphanumerics and
 * `_`) are not reproduced in full: `IsDigit` and `IsWord` cover ASCII and the
 * scripts a Chinese-language chat actually meets (CJK ideographs in all
 * their blocks, kana with its iteration and length marks, halfwidth forms,
 * Hangul syllables, fullwidth forms, a few other decimal-digit blocks), as
 * Unicode 15.0 assigns them. What the extractor's proofs rely on is only that
 * every digit is a word character (`DigitIsWord`), and that CJK ideographs
 * and kana are word characters while CJK punctuation such as `、`, `。` and
 * `：` is not (`々`, `〆` and `〇`, which sit among that punctuation, are
 * word characters).
 */
module Chars {

  /** `\d`: a Unicode decimal digit. */
  predicate IsDigit(c: char) {
    || ('0' <= c <= '9')
    || ('\U{0660}' <= c <= '\U{0669}')   // Arabic-Indic
    || ('\U{06F0}' <= c <= '\U{06F9}')   // Extended Arabic-Indic
    || ('\U{0966}' <= c <= '\U{096F}')   // Devanagari
    || ('\U{09E6}' <= c <= '\U{09EF}')   // Bengali
    || ('\U{0E50}' <= c <= '\U{0E59}')   // Thai
    || ('\U{FF10}' <= c <= '\U{FF19}')   // fullwidth
  }

  /** A word character other than a decimal digit and `_`: alphanumeric in
      the sense of `str.isalnum()`, for the scripts covered. */
  predicate IsLetter(c: char) {
    || ('a' <= c <= 'z') || ('A' <= c <= 'Z')
    || c == '\U{00AA}' || c == '\U{00B5}' || c == '\U{00BA}'
    || ('\U{00C0}' <= c <= '\U{00FF}' && c != '\U{00D7}' && c != '\U{00F7}')
    || ('\U{0391}' <= c <= '\U{03A1}') || ('\U{03A3}' <= c <= '\U{03C9}')   // Greek (U+03A2 is unassigned)
    || ('\U{0410}' <= c <= '\U{044F}')   // Cyrillic
    || ('\U{3005}' <= c <= '\U{3007}')   // 々 〆 〇
    || ('\U{3021}' <= c <= '\U{3029}') || ('\U{3031}' <= c <= '\U{3035}') || ('\U{3038}' <= c <= '\U{303C}')
    || ('\U{3041}' <= c <= '\U{3096}') || ('\U{309D}' <= c <= '\U{309F}')   // Hiragana
    || ('\U{30A1}' <= c <= '\U{30FA}') || ('\U{30FC}' <= c <= '\U{30FF}')   // Katakana, ー
    || ('\U{3400}' <= c <= '\U{4DBF}')   // CJK extension A
    || ('\U{4E00}' <= c <= '\U{9FFF}')   // CJK unified ideographs
    || ('\U{AC00}' <= c <= '\U{D7A3}')   // Hangul syllables
    || ('\U{F900}' <= c <= '\U{FA6D}') || ('\U{FA70}' <= c <= '\U{FAD9}')   // CJK compatibility ideographs
    || ('\U{FF21}' <= c <= '\U{FF3A}') || ('\U{FF41}' <= c <= '\U{FF5A}')   // fullwidth Latin
    || ('\U{FF66}' <= c <= '\U{FFBE}') || ('\U{FFC2}' <= c <= '\U{FFC7}')   // halfwidth katakana and Hangul
    || ('\U{FFCA}' <= c <= '\U{FFCF}') || ('\U{FFD2}' <= c <= '\U{FFD7}') || ('\U{FFDA}' <= c <= '\U{FFDC}')
    || ('\U{20000}' <= c <= '\U{2A6DF}') || ('\U{2A700}' <= c <= '\U{2B739}')   // CJK extensions B onwards
    || ('\U{2B740}' <= c <= '\U{2B81D}') || ('\U{2B820}' <= c <= '\U{2CEA1}')
    || ('\U{2CEB0}' <= c <= '\U{2EBE0}') || ('\U{2F800}' <= c <= '\U{2FA1D}')
    || ('\U{30000}' <= c <= '\U{3134A}') || ('\U{31350}' <= c <= '\U{323AF}')
  }

  /** `\w`: letters, digits and the underscore. */
  predicate IsWord(c: char) {
    IsDigit(c) || IsLetter(c) || c == '_'
  }

  lemma DigitIsWord(c: char)
    ensures IsDigit(c) ==> IsWord(c)
  {
  }

  /** `str.isspace()`: the characters `str.strip()` removes by default. */
  predicate IsSpace(c: char) {
    || ('\t' <= c <= '\r')                 // \t \n \v \f \r
    || ('\U{001C}' <= c <= '\U{001F}')
    || c == ' ' || c == '\U{0085}' || c == '\U{00A0}' || c == '\U{1680}'
    || ('\U{2000}' <= c <= '\U{200A}')
    || c == '\U{2028}' || c == '\U{2029}' || c == '\U{202F}' || c == '\U{205F}'
    || c == '\U{3000}'                     // ideographic space
  }

  predicate IsAsciiUpper(c: char) {
    'A' <= c <= 'Z'
  }

  /** `a` and `b` are the same character, or the same ASCII letter in the
      two cases. */
  predicate SameUpToCase(a: char, b: char) {
    || a == b
    || (IsAsciiUpper(a) && b as int == a as int + 32)
    || (IsAsciiUpper(b) && a as int == b as int + 32)
  }

  /** `str.lower()` on one character, restricted to ASCII (see `Text.Lower`). */
  function LowerChar(c: char): (r: char)
    ensures IsAsciiUpper(c) ==> r as int == c as int + 32
    ensures !IsAsciiUpper(c) ==> r == c
    ensures !IsAsciiUpper(r)
  {
    if IsAsciiUpper(c) then (c as int + 32) as char else c
  }

  /** Two characters lower alike exactly when they differ at most in case. */
  lemma LowerCharEqual(a: char, b: char)
    ensures LowerChar(a) == LowerChar(b) <==> SameUpToCase(a, b)
  {
  }
}

/** The optional value used for "no match" and "nothing parsed". */
module Options {
  datatype Option<+T> = None | Some(value: T)
}

/**
 * Character classes used by the utterance pattern: Python's `\w` (word
 * characters), `str.isspace` (what `str.strip()` removes), and the
 * case-insensitive comparison `re.IGNORECASE` applies to the letters of
 * the two keywords.
 */
module Chars {

  /** Python's `str.isspace`: the complete list of Unicode whitespace code points. */
  predicate IsSpace(c: char) {
    || ('\U{9}' <= c <= '\U{D}')
    || ('\U{1C}' <= c <= '\U{20}')
    || c == '\U{85}' || c == '\U{A0}' || c == '\U{1680}'
    || ('\U{2000}' <= c <= '\U{200A}')
    || c == '\U{2028}' || c == '\U{2029}' || c == '\U{202F}' || c == '\U{205F}'
    || c == '\U{3000}'
  }

  /**
   * Python's `\w` (a letter, a digit or the underscore, as `str.isalnum`
   * decides). Exact below U+0100, which covers Portuguese written with
   * precomposed letters. Above it, a character is a word character unless
   * it is whitespace or lies in one of the blocks of `IsNonWordBlock`.
   */
  predicate IsWordChar(c: char) {
    if c < '\U{100}' then
      || ('0' <= c <= '9') || ('A' <= c <= 'Z') || ('a' <= c <= 'z') || c == '_'
      || c == '\U{AA}' || c == '\U{B2}' || c == '\U{B3}' || c == '\U{B5}'
      || c == '\U{B9}' || c == '\U{BA}' || ('\U{BC}' <= c <= '\U{BE}')
      || ('\U{C0}' <= c <= '\U{D6}') || ('\U{D8}' <= c <= '\U{F6}')
      || ('\U{F8}' <= c <= '\U{FF}')
    else
      !IsSpace(c) && !IsNonWordBlock(c)
  }

  /**
   * Blocks with no letter or digit in them (Unicode 15.0): the combining
   * diacritical marks (U+0300..U+036F, the accents of decomposed text, and
   * their extended, supplement, for-symbols and half-mark blocks), general
   * punctuation, currency signs, arrows, mathematical operators and
   * technical symbols, box drawing, geometric shapes, miscellaneous
   * symbols and dingbats (without the circled digits U+2776..U+2793),
   * variation selectors, the mahjong, domino and playing-card symbols,
   * and the emoji from U+1F10D on: the enclosed letters and ideographs,
   * the regional indicators that make up flags, and the pictographs
   * (without the digits with a full stop or comma, U+1F100..U+1F10C).
   */
  predicate IsNonWordBlock(c: char) {
    || ('\U{300}' <= c <= '\U{36F}')
    || ('\U{1AB0}' <= c <= '\U{1AFF}')
    || ('\U{1DC0}' <= c <= '\U{1DFF}')
    || ('\U{2000}' <= c <= '\U{206F}')
    || ('\U{20A0}' <= c <= '\U{20FF}')
    || ('\U{2190}' <= c <= '\U{23FF}')
    || ('\U{2500}' <= c <= '\U{2775}')
    || ('\U{2794}' <= c <= '\U{2BFF}')
    || ('\U{FE00}' <= c <= '\U{FE0F}')
    || ('\U{FE20}' <= c <= '\U{FE2F}')
    || ('\U{1F000}' <= c <= '\U{1F0FF}')
    || ('\U{1F10D}' <= c <= '\U{1FAFF}')
  }

  /** Every character is below U+0100, where `IsWordChar` is exactly Python's `\w`. */
  predicate Latin1(s: string) {
    forall i :: 0 <= i < |s| ==> s[i] < '\U{100}'
  }

  lemma SpaceIsNotWord(c: char)
    ensures IsSpace(c) ==> !IsWordChar(c)
  {
  }

  /**
   * Does `c` match the lower-case pattern letter `k` under `re.IGNORECASE`?
   * Its simple lower-case form must be `k`; for `i` Python also accepts the
   * dotless `ı` (U+0131), and `İ` (U+0130) lower-cases to `i`.
   */
  predicate CaseEq(c: char, k: char) {
    || c == k
    || ('a' <= k <= 'z' && c as int == k as int - 32)
    || (k == 'i' && (c == '\U{130}' || c == '\U{131}'))
  }

  /** A character that matches a lower-case ASCII letter is itself a word character. */
  lemma CaseEqLetterIsWord(c: char, k: char)
    requires 'a' <= k <= 'z' && CaseEq(c, k)
    ensures IsWordChar(c)
  {
  }

  /** `s` equals the lower-case word `kw` letter by letter, ignoring case. */
  predicate SameIgnoringCase(s: string, kw: string) {
    |s| == |kw| && forall i :: 0 <= i < |s| ==> CaseEq(s[i], kw[i])
  }

  /** No whitespace at either end: what `str.strip()` guarantees. */
  predicate Trimmed(s: string) {
    s == [] || (!IsSpace(s[0]) && !IsSpace(s[|s| - 1]))
  }

  predicate AllSpace(s: string) {
    forall i :: 0 <= i < |s| ==> IsSpace(s[i])
  }

  /** `str.lstrip()`: drops the leading whitespace. */
  function StripLeft(s: string): (r: string)
    ensures |r| <= |s| && r == s[|s| - |r|..]
    ensures AllSpace(s[..|s| - |r|])
    ensures r == [] || !IsSpace(r[0])
  {
    if s != [] && IsSpace(s[0]) then
      var r := StripLeft(s[1..]);
      assert s[..|s| - |r|] == [s[0]] + s[1..][..|s[1..]| - |r|];
      r
    else s
  }

  /** `str.rstrip()`: drops the trailing whitespace. */
  function StripRight(s: string): (r: string)
    ensures |r| <= |s| && r == s[..|r|]
    ensures AllSpace(s[|r|..])
    ensures r == [] || !IsSpace(r[|r| - 1])
  {
    if s != [] && IsSpace(s[|s| - 1]) then
      var r := StripRight(s[..|s| - 1]);
      assert s[|r|..] == s[..|s| - 1][|r|..] + [s[|s| - 1]];
      r
    else s
  }

  /** `str.strip()`: drops the whitespace at both ends. */
  function Strip(s: string): (r: string)
    ensures Trimmed(r)
  {
    StripRight(StripLeft(s))
  }

  /** Stripping leaves nothing exactly when the text is all whitespace. */
  lemma StripEmpty(s: string)
    ensures Strip(s) == [] <==> AllSpace(s)
  {
    var l := StripLeft(s);
    var r := StripRight(l);
    var i := |s| - |l|;
    if r == [] {
      assert s[..i] == s;
    } else {
      assert s[i] == r[0];
    }
  }

  /** Stripping text that already has no whitespace at its ends changes nothing. */
  lemma StripTrimmed(s: string)
    requires Trimmed(s)
    ensures Strip(s) == s
  {
  }
}

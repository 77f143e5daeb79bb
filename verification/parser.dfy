/**
 * The utterance parser `extrair_dados`: one case-insensitive, newline-spanning
 * search for `cliente\W+(.*?)\W+info\W+(.*)`, followed by stripping both
 * groups and rejecting an empty name or an empty info.
 *
 * A candidate match is described by a `Span`: where `cliente` starts and how
 * long the three separator runs and the name are. `IsMatch` says when a span
 * fits the pattern; `IsRegexMatch` picks the one a backtracking engine reports
 * first. The scanner `Search` is proved to find exactly that span.
 */
module Parser {
  import opened Options
  import opened Chars

  const ClientKeyword := "cliente"
  const InfoKeyword := "info"

  /** A client name and an info payload, both already stripped. */
  datatype Record = Record(name: string, info: string)

  /**
   * A candidate match: `cliente` at `start`, then `sep1` non-word characters,
   * the name (`nameLen` characters), `sep2` non-word characters, `info`,
   * `sep3` non-word characters, and the info payload up to the end of the text.
   */
  datatype Span = Span(start: nat, sep1: nat, nameLen: nat, sep2: nat, sep3: nat) {
    function NameStart(): nat { start + 7 + sep1 }
    function NameEnd(): nat { NameStart() + nameLen }
    function InfoAt(): nat { NameEnd() + sep2 }
    function InfoStart(): nat { InfoAt() + 4 + sep3 }
  }

  /** The lower-case word `kw` occurs at `p`, ignoring case. */
  predicate KeywordAt(t: string, p: nat, kw: string) {
    p + |kw| <= |t| && forall i :: 0 <= i < |kw| ==> CaseEq(t[p + i], kw[i])
  }

  /** `t[a..b]` is a run of non-word characters (`\W`). */
  predicate NonWord(t: string, a: nat, b: nat) {
    a <= b <= |t| && forall i :: a <= i < b ==> !IsWordChar(t[i])
  }

  /** `m` is a way of matching `cliente\W+(.*?)\W+info\W+(.*)` against `t`. */
  predicate IsMatch(t: string, m: Span) {
    && m.InfoStart() <= |t|
    && KeywordAt(t, m.start, ClientKeyword)
    && 1 <= m.sep1 && NonWord(t, m.start + 7, m.NameStart())
    && 1 <= m.sep2 && NonWord(t, m.NameEnd(), m.InfoAt())
    && KeywordAt(t, m.InfoAt(), InfoKeyword)
    && 1 <= m.sep3 && NonWord(t, m.InfoAt() + 4, m.InfoStart())
  }

  /**
   * The order in which a backtracking engine tries candidates: earlier start
   * first, then the greedy first `\W+` longest first, the lazy name shortest
   * first, and the two other greedy `\W+` longest first.
   */
  predicate Before(m: Span, n: Span) {
    || m.start < n.start
    || (m.start == n.start && m.sep1 > n.sep1)
    || (m.start == n.start && m.sep1 == n.sep1 && m.nameLen < n.nameLen)
    || (m.start == n.start && m.sep1 == n.sep1 && m.nameLen == n.nameLen && m.sep2 > n.sep2)
    || (m.start == n.start && m.sep1 == n.sep1 && m.nameLen == n.nameLen && m.sep2 == n.sep2
        && m.sep3 > n.sep3)
  }

  /** The match `re.search` reports: a match with no match tried before it. */
  ghost predicate IsRegexMatch(t: string, m: Span) {
    IsMatch(t, m) && forall n :: IsMatch(t, n) ==> !Before(n, m)
  }

  function NameGroup(t: string, m: Span): string
    requires IsMatch(t, m)
  {
    t[m.NameStart()..m.NameEnd()]
  }

  function InfoGroup(t: string, m: Span): string
    requires IsMatch(t, m)
  {
    t[m.InfoStart()..]
  }

  /** Two distinct spans are always ordered one way or the other. */
  lemma BeforeTotal(m: Span, n: Span)
    requires m != n
    ensures Before(m, n) || Before(n, m)
  {
  }

  /** There is at most one match `re.search` can report. */
  lemma RegexMatchUnique(t: string, m: Span, n: Span)
    requires IsRegexMatch(t, m) && IsRegexMatch(t, n)
    ensures m == n
  {
    if m != n {
      BeforeTotal(m, n);
    }
  }

  // ---------------------------------------------------------------------
  // The scanner

  /** Length of the longest run of non-word characters starting at `p`. */
  function RunLen(t: string, p: nat): (r: nat)
    requires p <= |t|
    ensures NonWord(t, p, p + r)
    ensures p + r == |t| || IsWordChar(t[p + r])
    decreases |t| - p
  {
    if p == |t| || IsWordChar(t[p]) then 0 else 1 + RunLen(t, p + 1)
  }

  /** Every non-word run starting at `p` fits inside the longest one. */
  lemma RunLenBound(t: string, p: nat, j: nat)
    requires NonWord(t, p, p + j)
    ensures j <= RunLen(t, p)
  {
  }

  /** A non-word run that ends at a word character or the end is the longest one. */
  lemma RunLenExact(t: string, p: nat, j: nat)
    requires NonWord(t, p, p + j)
    requires p + j == |t| || IsWordChar(t[p + j])
    ensures RunLen(t, p) == j
  {
    RunLenBound(t, p, j);
  }

  /** The letters of `cliente` or `info`, in any case, are word characters. */
  lemma KeywordIsWord(t: string, p: nat, kw: string, i: nat)
    requires kw == ClientKeyword || kw == InfoKeyword
    requires KeywordAt(t, p, kw) && i < |kw|
    ensures IsWordChar(t[p + i])
  {
    assert CaseEq(t[p + i], kw[i]);
    CaseEqLetterIsWord(t[p + i], kw[i]);
  }

  /**
   * `p` starts the tail `\W+info\W` of a match: a non-word run, `info`
   * right after the longest such run, and a non-word character after it.
   */
  predicate MarkerAt(t: string, p: nat) {
    p < |t| && !IsWordChar(t[p]) && TailAt(t, p + RunLen(t, p))
  }

  /** `info` at `p`, followed by a non-word character. */
  predicate TailAt(t: string, p: nat) {
    KeywordAt(t, p, InfoKeyword) && p + 4 < |t| && !IsWordChar(t[p + 4])
  }

  /** What the scanner needs to know about a match, read off its span. */
  lemma MatchFacts(t: string, n: Span)
    requires IsMatch(t, n)
    ensures KeywordAt(t, n.start, ClientKeyword)
    ensures 1 <= n.sep1 <= RunLen(t, n.start + 7)
    ensures MarkerAt(t, n.NameEnd())
    ensures RunLen(t, n.NameEnd()) == n.sep2
    ensures n.sep3 <= RunLen(t, n.InfoAt() + 4)
  {
    RunLenBound(t, n.start + 7, n.sep1);
    TailFacts(t, n.NameEnd(), n.sep2, n.sep3);
  }

  /** A separator run, `info` and a further separator run make a tail marker. */
  lemma TailFacts(t: string, e: nat, sep2: nat, sep3: nat)
    requires 1 <= sep2 && NonWord(t, e, e + sep2)
    requires KeywordAt(t, e + sep2, InfoKeyword)
    requires 1 <= sep3 && NonWord(t, e + sep2 + 4, e + sep2 + 4 + sep3)
    ensures MarkerAt(t, e) && RunLen(t, e) == sep2
    ensures sep3 <= RunLen(t, e + sep2 + 4)
  {
    KeywordIsWord(t, e + sep2, InfoKeyword, 0);
    RunLenExact(t, e, sep2);
    RunLenBound(t, e + sep2 + 4, sep3);
    assert !IsWordChar(t[e + sep2 + 4]);
  }

  /** The first tail marker at or after `p`, if any. */
  function FirstMarker(t: string, p: nat): (r: Option<nat>)
    ensures r.Some? ==> p <= r.value && MarkerAt(t, r.value)
    ensures r.Some? ==> forall y :: p <= y < r.value ==> !MarkerAt(t, y)
    ensures r.None? ==> forall y :: p <= y ==> !MarkerAt(t, y)
    decreases |t| - p
  {
    if p >= |t| then None
    else if MarkerAt(t, p) then Some(p)
    else FirstMarker(t, p + 1)
  }

  /**
   * The match a tail marker at `p` gives, when `cliente` is at `s` and the
   * name starts at `q`.
   */
  function SpanTo(t: string, s: nat, q: nat, p: nat): Span
    requires s + 7 <= q <= p && MarkerAt(t, p)
  {
    var j := RunLen(t, p);
    Span(s, q - s - 7, p - q, j, RunLen(t, p + j + 4))
  }

  /** A tail marker after a separator run that follows `cliente` completes a match. */
  lemma SpanToMatches(t: string, s: nat, q: nat, p: nat)
    requires KeywordAt(t, s, ClientKeyword)
    requires s + 7 < q <= p && NonWord(t, s + 7, q) && MarkerAt(t, p)
    ensures IsMatch(t, SpanTo(t, s, q, p))
  {
  }

  /**
   * With the longest first separator (ending at `q`), the first marker `p`
   * after it beats every other match `n` at `s`, given `n`'s facts.
   */
  lemma MarkerSpanFirst(t: string, s: nat, q: nat, p: nat, n: Span)
    requires s + 7 <= |t| && q == s + 7 + RunLen(t, s + 7) && s + 7 < q
    requires FirstMarker(t, q) == Some(p)
    requires n.start == s && 1 <= n.sep1 <= q - s - 7
    requires MarkerAt(t, n.NameEnd()) && RunLen(t, n.NameEnd()) == n.sep2
    requires n.sep3 <= RunLen(t, n.InfoAt() + 4)
    ensures !Before(n, SpanTo(t, s, q, p))
  {
  }

  /**
   * With no marker after the longest first separator, the fallback span
   * (one separator character given back, empty name, tail at `q`) beats
   * every other match `n` at `s`, given `n`'s facts.
   */
  lemma FallbackSpanFirst(t: string, s: nat, q: nat, n: Span)
    requires s + 7 <= |t| && q == s + 6 + RunLen(t, s + 7) && s + 8 <= q
    requires FirstMarker(t, q + 1).None? && MarkerAt(t, q) && RunLen(t, q) == 1
    requires n.start == s && 1 <= n.sep1 <= q + 1 - s - 7
    requires MarkerAt(t, n.NameEnd()) && RunLen(t, n.NameEnd()) == n.sep2
    requires n.sep3 <= RunLen(t, n.InfoAt() + 4)
    ensures !Before(n, SpanTo(t, s, q, q))
  {
  }

  /** A run starting inside the longest run from `p` ends where that one ends. */
  lemma RunFromInside(t: string, p: nat, e: nat)
    requires p <= |t| && p <= e <= p + RunLen(t, p)
    ensures RunLen(t, e) == p + RunLen(t, p) - e
  {
    var q := p + RunLen(t, p);
    assert NonWord(t, e, q);
    RunLenExact(t, e, q - e);
  }

  /** A tail marker inside the longest run from `p` (ending at `q`) has its `info` at `q`. */
  lemma MarkerInsideRun(t: string, p: nat, q: nat, e: nat)
    requires p <= |t| && q == p + RunLen(t, p) && p <= e < q && MarkerAt(t, e)
    ensures TailAt(t, q)
  {
    RunFromInside(t, p, e);
  }

  /** The last character of a run of at least two that ends at a tail (at `q`) is a marker. */
  lemma MarkerAtRunEnd(t: string, p: nat, q: nat)
    requires p <= |t| && q == p + RunLen(t, p) && 2 <= RunLen(t, p) && TailAt(t, q)
    ensures MarkerAt(t, q - 1)
  {
    RunFromInside(t, p, q - 1);
    assert !IsWordChar(t[q - 1]) && q - 1 + RunLen(t, q - 1) == q;
  }

  /**
   * A match whose tail starts inside the first separator run (which ends at
   * `q`) means `info` follows that run directly, so the fallback applies.
   */
  lemma EarlyMarkerForcesFallback(t: string, s: nat, q: nat, e: nat)
    requires s + 7 <= |t| && q == s + 7 + RunLen(t, s + 7)
    requires s + 8 <= e < q && MarkerAt(t, e)
    ensures 2 <= RunLen(t, s + 7) && MarkerAt(t, q - 1)
  {
    MarkerInsideRun(t, s + 7, q, e);
    MarkerAtRunEnd(t, s + 7, q);
  }

  /** When a tail marker follows the longest first separator, the first one gives the match. */
  lemma MatchAtMarker(t: string, s: nat, q: nat, p: nat)
    requires KeywordAt(t, s, ClientKeyword)
    requires q == s + 7 + RunLen(t, s + 7) && s + 7 < q
    requires FirstMarker(t, q) == Some(p)
    ensures IsMatch(t, SpanTo(t, s, q, p))
    ensures forall n :: IsMatch(t, n) && n.start == s ==> !Before(n, SpanTo(t, s, q, p))
  {
    SpanToMatches(t, s, q, p);
    forall n | IsMatch(t, n) && n.start == s
      ensures !Before(n, SpanTo(t, s, q, p))
    {
      MatchFacts(t, n);
      MarkerSpanFirst(t, s, q, p, n);
    }
  }

  /**
   * When no tail marker follows the longest first separator (which ends at
   * `q + 1`) but `info` directly follows it, the engine gives back one
   * separator character and matches an empty name.
   */
  lemma MatchAtFallback(t: string, s: nat, q: nat)
    requires KeywordAt(t, s, ClientKeyword)
    requires q == s + 6 + RunLen(t, s + 7) && s + 8 <= q
    requires FirstMarker(t, q + 1).None?
    requires MarkerAt(t, q)
    ensures IsMatch(t, SpanTo(t, s, q, q))
    ensures forall n :: IsMatch(t, n) && n.start == s ==> !Before(n, SpanTo(t, s, q, q))
  {
    RunLenExact(t, q, 1);
    SpanToMatches(t, s, q, q);
    forall n | IsMatch(t, n) && n.start == s
      ensures !Before(n, SpanTo(t, s, q, q))
    {
      MatchFacts(t, n);
      FallbackSpanFirst(t, s, q, n);
    }
  }

  /**
   * A match `n` at `s` (given its facts) rules out that no tail marker
   * follows the longest first separator while the fallback does not apply.
   */
  lemma MatchAtSomeMarker(t: string, s: nat, q: nat, n: Span)
    requires s + 7 <= |t| && q == s + 7 + RunLen(t, s + 7)
    requires n.start == s && 1 <= n.sep1 <= RunLen(t, s + 7)
    requires MarkerAt(t, n.NameEnd())
    ensures FirstMarker(t, q).Some? || (2 <= RunLen(t, s + 7) && MarkerAt(t, q - 1))
  {
    if n.NameEnd() < q {
      EarlyMarkerForcesFallback(t, s, q, n.NameEnd());
    }
  }

  /** No match starts at `s` when `cliente` is missing there or no non-word character follows it. */
  lemma NoClientAt(t: string, s: nat)
    requires KeywordAt(t, s, ClientKeyword) ==> RunLen(t, s + 7) == 0
    ensures forall n :: IsMatch(t, n) ==> n.start != s
  {
    forall n | IsMatch(t, n) && n.start == s
      ensures false
    {
      MatchFacts(t, n);
    }
  }

  /**
   * No match starts at `s` when no tail marker follows the longest first
   * separator (ending at `q`) and the fallback does not apply either.
   */
  lemma NoTailAfter(t: string, s: nat, q: nat)
    requires s + 7 <= |t| && q == s + 7 + RunLen(t, s + 7)
    requires FirstMarker(t, q).None? && !(2 <= RunLen(t, s + 7) && MarkerAt(t, q - 1))
    ensures forall n :: IsMatch(t, n) ==> n.start != s
  {
    forall n | IsMatch(t, n) && n.start == s
      ensures false
    {
      MatchFacts(t, n);
      MatchAtSomeMarker(t, s, q, n);
    }
  }

  /**
   * The match a backtracking engine finds starting at `s`: the first one in
   * backtracking order among the matches starting there, and none exactly
   * when no match starts there.
   */
  function MatchAt(t: string, s: nat): (r: Option<Span>)
    ensures r.Some? ==> r.value.start == s && IsMatch(t, r.value)
    ensures r.Some? ==> forall n :: IsMatch(t, n) && n.start == s ==> !Before(n, r.value)
    ensures r.None? ==> forall n :: IsMatch(t, n) ==> n.start != s
  {
    if !KeywordAt(t, s, ClientKeyword) || RunLen(t, s + 7) == 0 then
      NoClientAt(t, s);
      None
    else
      MatchAfterSeparator(t, s, s + 7 + RunLen(t, s + 7))
  }

  /**
   * `MatchAt` once `cliente` and the longest first separator (ending at `q`)
   * are in place: the first tail marker from `q` on, or else the fallback.
   */
  function MatchAfterSeparator(t: string, s: nat, q: nat): (r: Option<Span>)
    requires KeywordAt(t, s, ClientKeyword) && q == s + 7 + RunLen(t, s + 7) && s + 7 < q
    ensures r.Some? ==> r.value.start == s && IsMatch(t, r.value)
    ensures r.Some? ==> forall n :: IsMatch(t, n) && n.start == s ==> !Before(n, r.value)
    ensures r.None? ==> forall n :: IsMatch(t, n) ==> n.start != s
  {
    match FirstMarker(t, q)
    case Some(p) =>
      MatchAtMarker(t, s, q, p);
      Some(SpanTo(t, s, q, p))
    case None =>
      MatchWithoutMarker(t, s, q)
  }

  /**
   * No tail marker follows the longest first separator: backtracking it by
   * one character leaves an empty name followed by the one-character
   * separator in front of `info`, or else no match starts at `s`.
   */
  function MatchWithoutMarker(t: string, s: nat, q: nat): (r: Option<Span>)
    requires KeywordAt(t, s, ClientKeyword) && q == s + 7 + RunLen(t, s + 7) && s + 7 < q
    requires FirstMarker(t, q).None?
    ensures r.Some? ==> r.value.start == s && IsMatch(t, r.value)
    ensures r.Some? ==> forall n :: IsMatch(t, n) && n.start == s ==> !Before(n, r.value)
    ensures r.None? ==> forall n :: IsMatch(t, n) ==> n.start != s
  {
    var f := q - 1;
    if 2 <= RunLen(t, s + 7) && MarkerAt(t, f) then
      MatchAtFallback(t, s, f);
      Some(SpanTo(t, s, f, f))
    else
      NoTailAfter(t, s, q);
      None
  }

  /** The first match starting at `s` or later, in backtracking order. */
  function SearchFrom(t: string, s: nat): (r: Option<Span>)
    ensures r.Some? ==> IsMatch(t, r.value) && s <= r.value.start
    ensures r.Some? ==> forall n :: IsMatch(t, n) && s <= n.start ==> !Before(n, r.value)
    ensures r.None? ==> forall n :: IsMatch(t, n) ==> n.start < s
    decreases |t| - s
  {
    if |t| < s + 7 then None
    else
      match MatchAt(t, s)
      case Some(m) => Some(m)
      case None => SearchFrom(t, s + 1)
  }

  /** `re.search`: the match it reports, or none when the pattern occurs nowhere. */
  function Search(t: string): (r: Option<Span>)
    ensures r.Some? ==> IsRegexMatch(t, r.value)
    ensures r.None? ==> forall n :: !IsMatch(t, n)
  {
    SearchFrom(t, 0)
  }

  /**
   * The reported match starts at the leftmost `cliente` any match can
   * start from, and, for that start and first separator, its name is the
   * shortest any match has: a later `info` stays in the payload.
   */
  lemma LeftmostShortest(t: string, n: Span)
    requires IsMatch(t, n)
    ensures Search(t).Some?
    ensures Search(t).value.start <= n.start
    ensures Search(t).value.start == n.start && Search(t).value.sep1 == n.sep1 ==>
              Search(t).value.nameLen <= n.nameLen
  {
  }

  // ---------------------------------------------------------------------
  // extrair_dados

  /**
   * `extrair_dados`: the stripped name and info of the match `re.search`
   * reports, or nothing (`(None, None)`) when there is no match or either
   * stripped group is empty.
   */
  function Extract(t: string): (r: Option<Record>)
    ensures r.Some? ==> r.value.name != [] && r.value.info != []
    ensures r.Some? ==> Trimmed(r.value.name) && Trimmed(r.value.info)
    ensures r.Some? ==> exists m :: IsRegexMatch(t, m)
    ensures (forall m :: !IsMatch(t, m)) ==> r.None?
    ensures forall m :: IsRegexMatch(t, m) ==>
              var name := Strip(NameGroup(t, m));
              var info := Strip(InfoGroup(t, m));
              r == if name == [] || info == [] then None else Some(Record(name, info))
  {
    match Search(t)
    case None => None
    case Some(m) =>
      var name := Strip(NameGroup(t, m));
      var info := Strip(InfoGroup(t, m));
      assert forall m' :: IsRegexMatch(t, m') ==> m' == m by {
        forall m' | IsRegexMatch(t, m') ensures m' == m {
          RegexMatchUnique(t, m, m');
        }
      }
      if name == [] || info == [] then None else Some(Record(name, info))
  }
}

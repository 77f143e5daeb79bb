/**
 * Which worksheet a parsed client name goes to: the worksheet titles minus
 * the default `Página1`, the closest existing title by fuzzy score
 * (`extractOne`: the first title with the highest score), and the
 * confidence threshold that decides between reusing that title and
 * creating a worksheet named after the client.
 */
module Resolver {
  import opened Options

  /** A fuzzy similarity score, a percentage. */
  type Score = x: int | 0 <= x <= 100

  /** The similarity measure: how well a choice matches a query. */
  type Scorer = (string, string) -> Score

  /** The worksheet a new spreadsheet starts with, never a client's. */
  const DefaultSheet := "Página1"

  /** Scores at or above this reuse an existing worksheet. */
  const ConfidenceThreshold := 85

  /** No title occurs twice. */
  predicate Distinct(s: seq<string>) {
    forall i, j :: 0 <= i < j < |s| ==> s[i] != s[j]
  }

  /** Where `x` first occurs in `s`. */
  function FirstIndex(s: seq<string>, x: string): (i: nat)
    requires x in s
    ensures i < |s| && s[i] == x && x !in s[..i]
  {
    if s[0] == x then 0
    else
      var i := FirstIndex(s[1..], x);
      assert s[..i + 1] == [s[0]] + s[1..][..i];
      i + 1
  }

  /** Python's `list.remove` guarded by `in`: drops the first occurrence of `x`, if any. */
  function RemoveFirst(s: seq<string>, x: string): (r: seq<string>)
    ensures x !in s ==> r == s
    ensures x in s ==> |r| == |s| - 1
  {
    if x in s then
      var i := FirstIndex(s, x);
      s[..i] + s[i + 1..]
    else s
  }

  /** The titles fuzzy matching chooses from. */
  function Candidates(titles: seq<string>): (r: seq<string>)
    ensures DefaultSheet !in titles ==> r == titles
    ensures DefaultSheet in titles ==> |r| == |titles| - 1
  {
    RemoveFirst(titles, DefaultSheet)
  }

  /**
   * Removing the first `x` at `i` shifts the titles after it down by one
   * and leaves the ones before it in place.
   */
  lemma RemoveFirstShape(s: seq<string>, x: string)
    requires x in s
    ensures var i := FirstIndex(s, x);
            var r := RemoveFirst(s, x);
            && |r| == |s| - 1
            && (forall k :: 0 <= k < i ==> r[k] == s[k])
            && (forall k :: i <= k < |r| ==> r[k] == s[k + 1])
  {
  }

  /**
   * With distinct titles, the candidates are exactly the titles other than
   * the default worksheet.
   */
  lemma CandidatesAreClientSheets(titles: seq<string>)
    requires Distinct(titles)
    ensures DefaultSheet !in Candidates(titles)
    ensures forall c :: c in Candidates(titles) <==> c in titles && c != DefaultSheet
  {
    var cs := Candidates(titles);
    if DefaultSheet in titles {
      var i := FirstIndex(titles, DefaultSheet);
      RemoveFirstShape(titles, DefaultSheet);
      forall c | c in titles && c != DefaultSheet ensures c in cs {
        var k :| 0 <= k < |titles| && titles[k] == c;
        if k < i { assert cs[k] == c; } else { assert cs[k - 1] == c; }
      }
      forall k | 0 <= k < |cs| ensures cs[k] in titles && cs[k] != DefaultSheet {
        if k < i { assert cs[k] == titles[k]; } else { assert cs[k] == titles[k + 1]; }
      }
    }
  }

  /** `choices[b]` scores highest for `query`, and no earlier choice scores as high. */
  predicate IsFirstBest(query: string, choices: seq<string>, scorer: Scorer, b: nat) {
    && b < |choices|
    && (forall j :: 0 <= j < b ==> scorer(query, choices[j]) < scorer(query, choices[b]))
    && (forall j :: b < j < |choices| ==> scorer(query, choices[j]) <= scorer(query, choices[b]))
  }

  /** How choice `j` compares with the first best `b`. */
  lemma CompareWithBest(query: string, choices: seq<string>, scorer: Scorer, b: nat, j: nat)
    requires IsFirstBest(query, choices, scorer, b) && j < |choices|
    ensures j < b ==> scorer(query, choices[j]) < scorer(query, choices[b])
    ensures b < j ==> scorer(query, choices[j]) <= scorer(query, choices[b])
  {
  }

  /** At most one choice is the first best. */
  lemma FirstBestUnique(query: string, choices: seq<string>, scorer: Scorer, b: nat, c: nat)
    requires IsFirstBest(query, choices, scorer, b) && IsFirstBest(query, choices, scorer, c)
    ensures b == c
  {
    CompareWithBest(query, choices, scorer, b, c);
    CompareWithBest(query, choices, scorer, c, b);
  }

  /**
   * Python's `max` over the scored choices, from index `i` on, when `best`
   * is the first best of `choices[..i]`: a later choice replaces the best
   * only when it scores strictly higher.
   */
  function BestFrom(query: string, choices: seq<string>, scorer: Scorer, i: nat, best: nat): (b: nat)
    requires best < i <= |choices|
    requires forall j :: 0 <= j < best ==> scorer(query, choices[j]) < scorer(query, choices[best])
    requires forall j :: best < j < i ==> scorer(query, choices[j]) <= scorer(query, choices[best])
    ensures IsFirstBest(query, choices, scorer, b)
    decreases |choices| - i
  {
    if i == |choices| then best
    else if scorer(query, choices[i]) > scorer(query, choices[best]) then
      BestFrom(query, choices, scorer, i + 1, i)
    else
      BestFrom(query, choices, scorer, i + 1, best)
  }

  /** The index of the first choice with the highest score. */
  function BestIndex(query: string, choices: seq<string>, scorer: Scorer): (b: nat)
    requires choices != []
    ensures IsFirstBest(query, choices, scorer, b)
  {
    BestFrom(query, choices, scorer, 1, 0)
  }

  /** A choice and its score, as `extractOne` returns them. */
  datatype Match = Match(choice: string, score: Score)

  /**
   * `extractOne(query, choices)`: nothing for no choices, otherwise the
   * first choice with the highest score, with that score.
   */
  function ExtractOne(query: string, choices: seq<string>, scorer: Scorer): (r: Option<Match>)
    ensures r.None? <==> choices == []
    ensures r.Some? ==> exists b: nat :: IsFirstBest(query, choices, scorer, b)
                                    && r.value == Match(choices[b], scorer(query, choices[b]))
  {
    if choices == [] then None
    else
      var b := BestIndex(query, choices, scorer);
      Some(Match(choices[b], scorer(query, choices[b])))
  }

  /** Where a client's record goes: an existing title, or a new worksheet. */
  datatype Resolution = Resolution(title: string, isNew: bool)

  /** Every candidate scores below the threshold. */
  predicate AllBelow(name: string, candidates: seq<string>, scorer: Scorer, threshold: int) {
    forall j :: 0 <= j < |candidates| ==> scorer(name, candidates[j]) < threshold
  }

  /**
   * The decision in `salvar_na_planilha`, over the candidate titles: no
   * candidates means a new worksheet named after the client; otherwise the
   * best candidate is reused when its score reaches the threshold.
   */
  function Resolve(name: string, candidates: seq<string>, scorer: Scorer, threshold: int): (r: Resolution)
    ensures r.isNew <==> AllBelow(name, candidates, scorer, threshold)
    ensures r.isNew ==> r.title == name
    ensures !r.isNew ==> exists b: nat :: IsFirstBest(name, candidates, scorer, b)
                                          && r.title == candidates[b]
                                          && scorer(name, r.title) >= threshold
  {
    match ExtractOne(name, candidates, scorer)
    case None => Resolution(name, true)
    case Some(m) =>
      var b := BestIndex(name, candidates, scorer);
      assert m.choice == candidates[b];
      if m.score >= threshold then Resolution(m.choice, false) else Resolution(name, true)
  }

  /**
   * Raising the threshold never turns a new worksheet into a reused one,
   * and where both thresholds reuse, they reuse the same worksheet.
   */
  lemma ThresholdMonotone(name: string, candidates: seq<string>, scorer: Scorer, low: int, high: int)
    requires low <= high
    ensures Resolve(name, candidates, scorer, low).isNew ==> Resolve(name, candidates, scorer, high).isNew
    ensures !Resolve(name, candidates, scorer, high).isNew ==>
              Resolve(name, candidates, scorer, low) == Resolve(name, candidates, scorer, high)
  {
    var rl := Resolve(name, candidates, scorer, low);
    var rh := Resolve(name, candidates, scorer, high);
    if !rh.isNew {
      var bh: nat :| IsFirstBest(name, candidates, scorer, bh) && rh.title == candidates[bh];
      assert !rl.isNew;
      var bl: nat :| IsFirstBest(name, candidates, scorer, bl) && rl.title == candidates[bl];
      FirstBestUnique(name, candidates, scorer, bl, bh);
    }
  }

  /** The threshold is inclusive: a candidate scoring exactly at it means reuse. */
  lemma ThresholdInclusive(name: string, candidates: seq<string>, scorer: Scorer, k: nat)
    requires k < |candidates| && scorer(name, candidates[k]) == ConfidenceThreshold
    ensures !Resolve(name, candidates, scorer, ConfidenceThreshold).isNew
  {
  }

  /** With nothing but the default worksheet, the client name is used as given for a new one. */
  lemma OnlyDefaultSheet(name: string, titles: seq<string>, scorer: Scorer, threshold: int)
    requires titles == [] || titles == [DefaultSheet]
    ensures Resolve(name, Candidates(titles), scorer, threshold) == Resolution(name, true)
  {
    assert Candidates(titles) == [];
  }

  /**
   * A client whose name is already a candidate and scores 100 against
   * itself reuses a worksheet scoring 100: the first such candidate, which
   * need not be that very title.
   */
  lemma ExactNameReused(name: string, candidates: seq<string>, scorer: Scorer, k: nat)
    requires k < |candidates| && candidates[k] == name && scorer(name, name) == 100
    ensures var r := Resolve(name, candidates, scorer, ConfidenceThreshold);
            !r.isNew && r.title in candidates && scorer(name, r.title) == 100
  {
    var r := Resolve(name, candidates, scorer, ConfidenceThreshold);
    assert !r.isNew;
    var b: nat :| IsFirstBest(name, candidates, scorer, b) && r.title == candidates[b];
    assert k <= b || scorer(name, candidates[k]) <= scorer(name, candidates[b]);
  }
}

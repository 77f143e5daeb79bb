/**
 * What the two message conventions promise: a typed `Cliente: X, Info: Y`
 * and a spoken `cliente X info Y`, in any letter case, give back exactly
 * `X` and `Y`, as long as the name does not itself contain a non-word
 * run followed by `info` and a non-word character (or its end), and the
 * name and the first character of the info are below U+0100, where the
 * model's character classes are exactly Python's.
 */
module ParserProperties {
  import opened Options
  import opened Chars
  import opened Parser

  /**
   * `x[i..j]` is a non-word run followed by `info` and then either a
   * non-word character or the end of `x`: inside a name this would end the
   * name early.
   */
  predicate InfoMarkerIn(x: string, i: nat, j: nat) {
    && i < j && j + 4 <= |x|
    && NonWord(x, i, j)
    && KeywordAt(x, j, InfoKeyword)
    && (j + 4 == |x| || !IsWordChar(x[j + 4]))
  }

  /**
   * `x` holds no non-word run followed by `info` and then a non-word
   * character or the end of `x`.
   */
  ghost predicate MarkerFree(x: string) {
    forall i, j :: !InfoMarkerIn(x, i, j)
  }

  /** A whole string of non-word characters. */
  predicate Separator(sep: string) {
    sep != [] && NonWord(sep, 0, |sep|)
  }

  /**
   * A tail marker that starts inside a name ending in a word character
   * and followed by a non-word character lies wholly inside that name, as
   * an `info` sequence.
   */
  lemma InsideMarkerIsInfoSequence(t: string, q: nat, x: string, p: nat)
    requires x != [] && q + |x| < |t| && t[q..q + |x|] == x
    requires IsWordChar(x[|x| - 1]) && !IsWordChar(t[q + |x|])
    requires q <= p < q + |x| && MarkerAt(t, p)
    ensures InfoMarkerIn(x, p - q, p - q + RunLen(t, p))
  {
    var e := q + |x|;
    var j := RunLen(t, p);
    assert t[e - 1] == x[|x| - 1];
    // the run stops inside the name, which ends in a word character
    assert p + j < e;
    if e < p + j + 4 {
      KeywordIsWord(t, p + j, InfoKeyword, e - (p + j));
      assert false;
    }
    var i := p - q;
    assert NonWord(x, i, i + j) by {
      forall k | i <= k < i + j ensures !IsWordChar(x[k]) {
        assert x[k] == t[q + k];
      }
    }
    assert KeywordAt(x, i + j, InfoKeyword) by {
      forall k | 0 <= k < 4 ensures CaseEq(x[i + j + k], InfoKeyword[k]) {
        assert x[i + j + k] == t[p + j + k];
      }
    }
    assert i + j + 4 < |x| ==> x[i + j + 4] == t[p + j + 4];
  }

  /** So a name holding no `info` sequence holds no tail marker. */
  lemma NoMarkerInside(t: string, q: nat, x: string)
    requires x != [] && q + |x| < |t| && t[q..q + |x|] == x
    requires IsWordChar(x[|x| - 1]) && !IsWordChar(t[q + |x|])
    requires MarkerFree(x)
    ensures forall p :: q <= p < q + |x| ==> !MarkerAt(t, p)
  {
    forall p | q <= p < q + |x| && MarkerAt(t, p)
      ensures false
    {
      InsideMarkerIsInfoSequence(t, q, x, p);
    }
  }

  /** A marker at `e` and none from `q` up to it: `e` is the first marker. */
  lemma FirstMarkerIs(t: string, q: nat, e: nat)
    requires q <= e && MarkerAt(t, e)
    requires forall p :: q <= p < e ==> !MarkerAt(t, p)
    ensures FirstMarker(t, q) == Some(e)
  {
  }

  /**
   * A message laid out as `cliente`, a separator ending at `q`, a name
   * `t[q..e]` that starts with a word character and holds no tail marker,
   * a separator, `info` at `k2`, a separator and a payload at `c` starting
   * with a word character: the scanner stops the name at `e`.
   */
  lemma LaidOutScan(t: string, q: nat, e: nat, k2: nat, c: nat)
    requires 7 < q < e < k2 && k2 + 4 < c < |t|
    requires NonWord(t, 7, q) && IsWordChar(t[q])
    requires forall p :: q <= p < e ==> !MarkerAt(t, p)
    requires NonWord(t, e, k2) && KeywordAt(t, k2, InfoKeyword)
    requires NonWord(t, k2 + 4, c)
    ensures q == 7 + RunLen(t, 7) && FirstMarker(t, q) == Some(e)
  {
    RunLenExact(t, 7, q - 7);
    TailFacts(t, e, k2 - e, c - (k2 + 4));
    FirstMarkerIs(t, q, e);
  }

  /** ... and the marker at `e` gives the span of those pieces. */
  lemma LaidOutSpan(t: string, q: nat, e: nat, k2: nat, c: nat)
    requires 7 < q < e < k2 && k2 + 4 < c < |t|
    requires NonWord(t, e, k2) && KeywordAt(t, k2, InfoKeyword)
    requires NonWord(t, k2 + 4, c) && IsWordChar(t[c])
    ensures MarkerAt(t, e) && SpanTo(t, 0, q, e) == Span(0, q - 7, e - q, k2 - e, c - (k2 + 4))
  {
    TailFacts(t, e, k2 - e, c - (k2 + 4));
    RunLenExact(t, k2 + 4, c - (k2 + 4));
    assert RunLen(t, e) == k2 - e;
    assert RunLen(t, e + (k2 - e) + 4) == c - (k2 + 4);
  }

  /** ... and so the reported match covers exactly those pieces. */
  lemma LaidOutMatch(t: string, q: nat, e: nat, k2: nat, c: nat)
    requires KeywordAt(t, 0, ClientKeyword) && 7 < q < e < k2 && k2 + 4 < c < |t|
    requires NonWord(t, 7, q) && IsWordChar(t[q])
    requires forall p :: q <= p < e ==> !MarkerAt(t, p)
    requires NonWord(t, e, k2) && KeywordAt(t, k2, InfoKeyword)
    requires NonWord(t, k2 + 4, c) && IsWordChar(t[c])
    ensures IsRegexMatch(t, Span(0, q - 7, e - q, k2 - e, c - (k2 + 4)))
  {
    LaidOutScan(t, q, e, k2, c);
    LaidOutSpan(t, q, e, k2, c);
    MatchAtMarker(t, 0, q, e);
  }

  /** The stripped groups of the reported match are what `Extract` returns. */
  lemma ExtractOfMatch(t: string, m: Span)
    requires IsRegexMatch(t, m)
    requires Strip(NameGroup(t, m)) != [] && Strip(InfoGroup(t, m)) != []
    ensures Extract(t) == Some(Record(Strip(NameGroup(t, m)), Strip(InfoGroup(t, m))))
  {
  }

  /** The piece `w` sits at `|u|` in `u + w + v`. */
  lemma PieceAt(u: string, w: string, v: string)
    ensures (u + w + v)[|u|..|u| + |w|] == w
  {
  }

  lemma SeparatorAt(u: string, sep: string, v: string)
    requires Separator(sep)
    ensures NonWord(u + sep + v, |u|, |u| + |sep|)
  {
    var t := u + sep + v;
    forall i | |u| <= i < |u| + |sep| ensures !IsWordChar(t[i]) {
      assert t[i] == sep[i - |u|];
    }
  }

  lemma KeywordIn(u: string, kw: string, v: string, word: string)
    requires SameIgnoringCase(kw, word)
    ensures KeywordAt(u + kw + v, |u|, word)
  {
    var t := u + kw + v;
    forall i | 0 <= i < |word| ensures CaseEq(t[|u| + i], word[i]) {
      assert t[|u| + i] == kw[i];
    }
  }

  /** The message with its seven pieces in order. */
  function Message(kw1: string, sep1: string, x: string, sep2: string,
                   kw2: string, sep3: string, y: string): string
  {
    kw1 + sep1 + x + sep2 + kw2 + sep3 + y
  }

  /** Where `cliente` and the first separator sit in the message. */
  lemma MessageFront(kw1: string, sep1: string, x: string, sep2: string,
                     kw2: string, sep3: string, y: string)
    requires SameIgnoringCase(kw1, ClientKeyword) && Separator(sep1)
    ensures var t := Message(kw1, sep1, x, sep2, kw2, sep3, y);
            KeywordAt(t, 0, ClientKeyword) && NonWord(t, 7, 7 + |sep1|)
  {
    var rest := x + sep2 + kw2 + sep3 + y;
    assert Message(kw1, sep1, x, sep2, kw2, sep3, y) == [] + kw1 + (sep1 + rest) == kw1 + sep1 + rest;
    KeywordIn([], kw1, sep1 + rest, ClientKeyword);
    SeparatorAt(kw1, sep1, rest);
  }

  /** Where the name and the second separator sit in the message. */
  lemma MessageMiddle(kw1: string, sep1: string, x: string, sep2: string,
                      kw2: string, sep3: string, y: string)
    requires Separator(sep2)
    ensures var t := Message(kw1, sep1, x, sep2, kw2, sep3, y);
            var q := |kw1| + |sep1|;
            t[q..q + |x|] == x && NonWord(t, q + |x|, q + |x| + |sep2|)
  {
    var rest := kw2 + sep3 + y;
    assert Message(kw1, sep1, x, sep2, kw2, sep3, y) == (kw1 + sep1) + x + (sep2 + rest)
                                                    == (kw1 + sep1 + x) + sep2 + rest;
    PieceAt(kw1 + sep1, x, sep2 + rest);
    SeparatorAt(kw1 + sep1 + x, sep2, rest);
  }

  /** Where `info`, the third separator and the payload sit in the message. */
  lemma MessageBack(kw1: string, sep1: string, x: string, sep2: string,
                    kw2: string, sep3: string, y: string)
    requires SameIgnoringCase(kw2, InfoKeyword) && Separator(sep3)
    ensures var t := Message(kw1, sep1, x, sep2, kw2, sep3, y);
            var k2 := |kw1| + |sep1| + |x| + |sep2|;
            KeywordAt(t, k2, InfoKeyword) && NonWord(t, k2 + 4, k2 + 4 + |sep3|)
            && t[k2 + 4 + |sep3|..] == y
  {
    var front := kw1 + sep1 + x + sep2;
    assert Message(kw1, sep1, x, sep2, kw2, sep3, y) == front + kw2 + (sep3 + y)
                                                    == (front + kw2) + sep3 + y;
    KeywordIn(front, kw2, sep3 + y, InfoKeyword);
    SeparatorAt(front + kw2, sep3, y);
  }

  /** The reported match of the message covers exactly its seven pieces. */
  lemma MessageMatch(kw1: string, sep1: string, x: string, sep2: string,
                     kw2: string, sep3: string, y: string)
    requires SameIgnoringCase(kw1, ClientKeyword) && SameIgnoringCase(kw2, InfoKeyword)
    requires Separator(sep1) && Separator(sep2) && Separator(sep3)
    requires x != [] && IsWordChar(x[0]) && IsWordChar(x[|x| - 1]) && MarkerFree(x) && Latin1(x)
    requires y != [] && IsWordChar(y[0]) && y[0] < '\U{100}'
    ensures var t := Message(kw1, sep1, x, sep2, kw2, sep3, y);
            var m := Span(0, |sep1|, |x|, |sep2|, |sep3|);
            IsRegexMatch(t, m) && NameGroup(t, m) == x && InfoGroup(t, m) == y
  {
    var t := Message(kw1, sep1, x, sep2, kw2, sep3, y);
    var q := 7 + |sep1|;
    var e := q + |x|;
    var k2 := e + |sep2|;
    var c := k2 + 4 + |sep3|;
    MessageFront(kw1, sep1, x, sep2, kw2, sep3, y);
    MessageMiddle(kw1, sep1, x, sep2, kw2, sep3, y);
    MessageBack(kw1, sep1, x, sep2, kw2, sep3, y);
    assert t[q] == x[0] && t[e] == sep2[0] && t[c] == y[0];
    NoMarkerInside(t, q, x);
    LaidOutMatch(t, q, e, k2, c);
  }

  /**
   * Round trip: `kw1 sep1 x sep2 kw2 sep3 y`, with `kw1` any capitalisation
   * of `cliente`, `kw2` any capitalisation of `info` and non-word
   * separators, parses to exactly `(x, y)`, when `x` starts and ends with a
   * word character and holds no `info` sequence, and `y` starts with a word
   * character and has no trailing whitespace; `x` and the first character
   * of `y` are below U+0100, where the character classes are exact. `y` may contain further
   * `info` words: they stay inside the payload.
   */
  lemma RoundTrip(kw1: string, sep1: string, x: string, sep2: string,
                  kw2: string, sep3: string, y: string)
    requires SameIgnoringCase(kw1, ClientKeyword) && SameIgnoringCase(kw2, InfoKeyword)
    requires Separator(sep1) && Separator(sep2) && Separator(sep3)
    requires x != [] && IsWordChar(x[0]) && IsWordChar(x[|x| - 1]) && MarkerFree(x) && Latin1(x)
    requires y != [] && IsWordChar(y[0]) && y[0] < '\U{100}' && !IsSpace(y[|y| - 1])
    ensures Extract(Message(kw1, sep1, x, sep2, kw2, sep3, y)) == Some(Record(x, y))
  {
    MessageMatch(kw1, sep1, x, sep2, kw2, sep3, y);
    SpaceIsNotWord(x[0]);
    SpaceIsNotWord(x[|x| - 1]);
    SpaceIsNotWord(y[0]);
    StripTrimmed(x);
    StripTrimmed(y);
    ExtractOfMatch(Message(kw1, sep1, x, sep2, kw2, sep3, y), Span(0, |sep1|, |x|, |sep2|, |sep3|));
  }

  /** The keywords and separators of the two conventions. */
  lemma ConventionPieces()
    ensures SameIgnoringCase("Cliente", ClientKeyword) && SameIgnoringCase("Info", InfoKeyword)
    ensures SameIgnoringCase("cliente", ClientKeyword) && SameIgnoringCase("info", InfoKeyword)
    ensures Separator(": ") && Separator(", ") && Separator(" ")
  {
  }

  lemma TypedLayout(x: string, y: string)
    ensures Message("Cliente", ": ", x, ", ", "Info", ": ", y) == "Cliente: " + x + ", Info: " + y
  {
  }

  lemma SpokenLayout(x: string, y: string)
    ensures Message("cliente", " ", x, " ", "info", " ", y) == "cliente " + x + " info " + y
  {
  }

  /** The typed convention `Cliente: X, Info: Y` gives back `X` and `Y`. */
  lemma TypedMessage(x: string, y: string)
    requires x != [] && IsWordChar(x[0]) && IsWordChar(x[|x| - 1]) && MarkerFree(x) && Latin1(x)
    requires y != [] && IsWordChar(y[0]) && y[0] < '\U{100}' && !IsSpace(y[|y| - 1])
    ensures Extract("Cliente: " + x + ", Info: " + y) == Some(Record(x, y))
  {
    ConventionPieces();
    RoundTrip("Cliente", ": ", x, ", ", "Info", ": ", y);
    TypedLayout(x, y);
  }

  /** The spoken convention `cliente X info Y` gives back `X` and `Y`. */
  lemma SpokenMessage(x: string, y: string)
    requires x != [] && IsWordChar(x[0]) && IsWordChar(x[|x| - 1]) && MarkerFree(x) && Latin1(x)
    requires y != [] && IsWordChar(y[0]) && y[0] < '\U{100}' && !IsSpace(y[|y| - 1])
    ensures Extract("cliente " + x + " info " + y) == Some(Record(x, y))
  {
    ConventionPieces();
    RoundTrip("cliente", " ", x, " ", "info", " ", y);
    SpokenLayout(x, y);
  }

  /** A name made of word characters only holds no `info` sequence. */
  lemma WordsAreMarkerFree(x: string)
    requires forall k :: 0 <= k < |x| ==> IsWordChar(x[k])
    ensures MarkerFree(x)
  {
    forall i: nat, j: nat ensures !InfoMarkerIn(x, i, j) {
      if i < j <= |x| {
        assert IsWordChar(x[i]);
      }
    }
  }

  /** The pieces of `Cliente: João ✅, Info: pago`. */
  lemma SymbolPieces()
    ensures var x := "João";
            && x != [] && IsWordChar(x[0]) && IsWordChar(x[|x| - 1]) && Latin1(x)
            && (forall k :: 0 <= k < |x| ==> IsWordChar(x[k]))
    ensures Separator(" ✅, ")
    ensures var y := "pago"; IsWordChar(y[0]) && y[0] < '\U{100}' && !IsSpace(y[|y| - 1])
  {
    assert !IsWordChar('✅');
  }

  lemma SymbolLayout()
    ensures Message("Cliente", ": ", "João", " ✅, ", "Info", ": ", "pago") == "Cliente: João ✅, Info: pago"
  {
  }

  /**
   * A symbol such as `✅` (U+2705) next to the name belongs to the
   * separator, as it does for Python's `\W`: the name stays `João`.
   */
  lemma SymbolSeparatedMessage()
    ensures Extract("Cliente: João ✅, Info: pago") == Some(Record("João", "pago"))
  {
    SymbolPieces();
    WordsAreMarkerFree("João");
    ConventionPieces();
    RoundTrip("Cliente", ": ", "João", " ✅, ", "Info", ": ", "pago");
    SymbolLayout();
  }

  lemma FlagPieces()
    ensures Separator(" \U{1F1E7}\U{1F1F7}, ")
  {
    assert !IsWordChar('\U{1F1E7}') && !IsWordChar('\U{1F1F7}');
  }

  lemma FlagLayout()
    ensures Message("Cliente", ": ", "João", " \U{1F1E7}\U{1F1F7}, ", "Info", ": ", "pago")
            == "Cliente: João \U{1F1E7}\U{1F1F7}, Info: pago"
  {
  }

  /**
   * A flag emoji such as the Brazilian flag, two regional indicators
   * U+1F1E7 U+1F1F7, belongs to the separator, as it does for Python's
   * `\W`: the name stays `João`.
   */
  lemma FlagSeparatedMessage()
    ensures Extract("Cliente: João \U{1F1E7}\U{1F1F7}, Info: pago") == Some(Record("João", "pago"))
  {
    SymbolPieces();
    FlagPieces();
    WordsAreMarkerFree("João");
    ConventionPieces();
    RoundTrip("Cliente", ": ", "João", " \U{1F1E7}\U{1F1F7}, ", "Info", ": ", "pago");
    FlagLayout();
  }

  lemma AccentPieces()
    ensures var x := "Jose";
            && x != [] && IsWordChar(x[0]) && IsWordChar(x[|x| - 1]) && Latin1(x)
            && (forall k :: 0 <= k < |x| ==> IsWordChar(x[k]))
    ensures Separator("\U{301} ")
    ensures var y := "pago"; IsWordChar(y[0]) && y[0] < '\U{100}' && !IsSpace(y[|y| - 1])
  {
    assert !IsWordChar('\U{301}');
  }

  lemma AccentLayout()
    ensures Message("cliente", " ", "Jose", "\U{301} ", "info", " ", "pago") == "cliente Jose\U{301} info pago"
  {
  }

  /**
   * In decomposed text the combining acute accent U+0301 is a non-word
   * character, as it is for Python's `\W`: the name `José` written as `e`
   * plus the accent is cut before the accent.
   */
  lemma DecomposedAccentMessage()
    ensures Extract("cliente Jose\U{301} info pago") == Some(Record("Jose", "pago"))
  {
    AccentPieces();
    WordsAreMarkerFree("Jose");
    ConventionPieces();
    RoundTrip("cliente", " ", "Jose", "\U{301} ", "info", " ", "pago");
    AccentLayout();
  }

  /** Text that does not contain `cliente` in any letter case is never parsed. */
  lemma NoClientKeyword(t: string)
    requires forall p :: !KeywordAt(t, p, ClientKeyword)
    ensures Extract(t) == None
  {
    forall m ensures !IsMatch(t, m) {
      assert !KeywordAt(t, m.start, ClientKeyword);
    }
  }
}

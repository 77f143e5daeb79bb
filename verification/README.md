# Client-notes Telegram bot: parser, worksheet routing and dispatch

This project models the core of `bot_telegram.py`, a Telegram bot that
records notes about clients in a Google spreadsheet. It has one worksheet
per client. A typed or spoken message such as `Cliente: João, Info: pagou`
is turned into a record. The record is then appended to the client's
worksheet, which is found by fuzzy matching or created on first use.

The model has six modules:

- `Options` holds the `Option` datatype.
- `Chars` models Python's `\w`, `str.isspace`, `str.strip` and the letter
  comparison that `re.IGNORECASE` applies to the two keywords.
- `Parser` models `extrair_dados`:
  - A candidate match of `cliente\W+(.*?)\W+info\W+(.*)` is a `Span`: where
    `cliente` starts and the lengths of the three separator runs and the name.
  - `IsMatch` says when a span fits the pattern.
  - `Before` is the order in which a backtracking engine tries spans:
    leftmost start first, the greedy `\W+` longest first, the lazy name
    shortest first.
  - `IsRegexMatch` is the span `re.search` reports: a match with no match
    before it.
  - The scanner `Search` (built from `MatchAt` and `SearchFrom`) is proved
    to return exactly that span.
  - `Extract` strips both groups and rejects an empty one.
- `ParserProperties` proves the round trips of the two message conventions.
- `Resolver` models the worksheet choice:
  - the titles minus `Página1`;
  - `extractOne` as the first title with the highest score;
  - the inclusive threshold of 85.
- `Ledger` models `salvar_na_planilha`:
  - `Spreadsheet` is a class holding the worksheet titles and a map from
    title to rows, with one method per remote call.
  - `SaveRecord` is the routine itself.
  - It is specified by `SavePlan`, the routine's decisions as a function,
    and `AfterSave`, the rows after the save.
  - Each remote call may return, raise `APIError` or raise another
    exception. A `Faults` record says which.
- `Bot` models `handle_message`: which text is processed, with which media
  label, and which replies are sent.

The comment on line 26 of `bot_telegram.py` says a score *greater than* 85
reuses a worksheet. The code on line 72 compares with `>=`, and the model
follows the code (`Resolver.ThresholdInclusive`).

## Model

| member | source | states |
|---|---|---|
| Chars.IsSpace | bot_telegram.py:170-171 | the characters `str.strip()` removes: exactly the Unicode whitespace code points for which `str.isspace` holds |
| Chars.IsWordChar | bot_telegram.py:167 | Python's `\w`: exactly the letters, digits and `_` below U+0100; above it, every character that is not whitespace and not in a block without letters or digits (combining marks, punctuation, currency, arrows, technical symbols, box drawing, shapes, dingbats, variation selectors, mahjong, domino and card symbols, and the emoji from U+1F10D on, flags included). Weaker than `\w`: other non-alphanumeric characters above U+00FF count as word characters (see "## Left out") |
| Chars.CaseEq | bot_telegram.py:167 | `re.IGNORECASE` for one letter of `cliente` or `info`: the letter itself, its ASCII upper case, and for `i` also `İ` and `ı` |
| Chars.StripLeft | bot_telegram.py:170-171 | the result is a suffix of the text, everything removed is whitespace, and it does not start with whitespace |
| Chars.StripRight | bot_telegram.py:170-171 | the result is a prefix of the text, everything removed is whitespace, and it does not end with whitespace |
| Chars.Strip | bot_telegram.py:170-171 | the stripped text has no whitespace at either end |
| Chars.StripEmpty | bot_telegram.py:170-174 | stripping leaves nothing exactly when the text is all whitespace, so the emptiness check rejects exactly the blank groups |
| Chars.StripTrimmed | bot_telegram.py:170-171 | stripping text without whitespace at its ends leaves it unchanged |
| Parser.IsMatch | bot_telegram.py:167 | a span fits the pattern: `cliente` in any letter case, a non-empty `\W` run, the name, a non-empty `\W` run, `info`, a non-empty `\W` run, and the payload to the end of the text (DOTALL: any character) |
| Parser.Before | bot_telegram.py:167 | the order a backtracking engine tries spans in: earlier start, then longer first separator, then shorter name, then longer second and third separators |
| Parser.IsRegexMatch | bot_telegram.py:167 | the span `re.search` reports: a match that no other match precedes in that order |
| Parser.NameGroup | bot_telegram.py:170 | `match.group(1)`: the text between the first and the second separator run of a match |
| Parser.InfoGroup | bot_telegram.py:171 | `match.group(2)`: the text from after the third separator run to the end |
| Parser.RegexMatchUnique | bot_telegram.py:167 | at most one span is the one `re.search` reports |
| Parser.RunLen | bot_telegram.py:167 | the greedy `\W+` run from a position: all non-word, and stopped by a word character or the end |
| Parser.FirstMarker | bot_telegram.py:167 | the first position at or after `p` where a separator, `info` and a non-word character follow, and none before it |
| Parser.MatchAtMarker | bot_telegram.py:167 | with the longest first separator, the first tail marker gives a match that no other match at that start precedes |
| Parser.MatchAtFallback | bot_telegram.py:167 | when no marker follows the longest first separator but `info` directly follows it, giving back one separator character yields the first match, with an empty name |
| Parser.MatchAt | bot_telegram.py:167 | the first match in backtracking order among those starting at `s`, and none exactly when no match starts there |
| Parser.MatchAfterSeparator | bot_telegram.py:167 | the same, once `cliente` and its separator are in place |
| Parser.MatchWithoutMarker | bot_telegram.py:167 | when no tail marker follows the longest first separator: the fallback match with an empty name when it applies, and otherwise none, because no match starts there |
| Parser.SearchFrom | bot_telegram.py:167 | the first match in backtracking order among those starting at `s` or later, and none exactly when there is none |
| Parser.Search | bot_telegram.py:167 | `re.search`: returns the reported match, and nothing only when the pattern matches nowhere |
| Parser.LeftmostShortest | bot_telegram.py:167 | whenever any match exists, the reported one starts at the leftmost possible `cliente`, and with the same start and first separator it has the shortest name |
| Parser.Extract | bot_telegram.py:158-182 | a result has a non-empty, whitespace-free-at-the-ends name and info; with no match the result is none; otherwise the result is the stripped groups of the reported match, or none when either is empty |
| ParserProperties.ExtractOfMatch | bot_telegram.py:169-179 | a corollary of `Parser.Extract`'s last clause for one reported match: when both stripped groups are non-empty, they are exactly what is returned |
| ParserProperties.MessageMatch | bot_telegram.py:167 | in `kw1 sep1 x sep2 kw2 sep3 y` the reported match covers exactly the seven pieces, with groups `x` and `y`, for a Latin-1, word-bounded, marker-free `x` and a `y` whose first character is a Latin-1 word character |
| ParserProperties.RoundTrip | bot_telegram.py:161-167 | any capitalisation of `cliente` and `info`, with non-word separators, gives back exactly `(x, y)` when `x` is Latin-1 and word-bounded and holds no non-word run followed by `info` and then a non-word character or the end of `x`, and `y` starts with a Latin-1 word character and has no trailing whitespace |
| ParserProperties.TypedMessage | bot_telegram.py:162 | `Cliente: X, Info: Y` parses to `(X, Y)` for a Latin-1 word-bounded marker-free `X` and a `Y` starting with a Latin-1 word character and not ending in whitespace |
| ParserProperties.SpokenMessage | bot_telegram.py:163 | `cliente X info Y` parses to `(X, Y)` under the same conditions on `X` and `Y` |
| ParserProperties.NoClientKeyword | bot_telegram.py:167-182 | text without `cliente` in any letter case is never parsed |
| ParserProperties.SymbolSeparatedMessage | bot_telegram.py:167 | `Cliente: João ✅, Info: pago` parses to `(João, pago)`: the emoji belongs to the separator, as it does for Python's `\W` |
| ParserProperties.FlagSeparatedMessage | bot_telegram.py:167 | `Cliente: João 🇧🇷, Info: pago` parses to `(João, pago)`: the two regional indicators of the flag are `\W` in Python and belong to the separator |
| ParserProperties.DecomposedAccentMessage | bot_telegram.py:167 | `cliente Jose` followed by the combining acute accent U+0301 and ` info pago` parses to `(Jose, pago)`: the accent is `\W` in Python, so it ends the name |
| Resolver.RemoveFirst | bot_telegram.py:59-60 | the guarded `list.remove`: without the title the list is unchanged, with it the list is one shorter (and `RemoveFirstShape` says which element goes) |
| Resolver.Candidates | bot_telegram.py:57-60 | the titles with the first `Página1` removed: unchanged without `Página1`, one shorter with it |
| Resolver.FirstIndex | bot_telegram.py:59-60 | the first occurrence of the removed title, with none before it |
| Resolver.RemoveFirstShape | bot_telegram.py:60 | `list.remove` drops one element: the titles before it stay in place and those after it shift down by one |
| Resolver.CandidatesAreClientSheets | bot_telegram.py:57-60 | `Página1` is never a candidate, and the candidates are exactly the other titles |
| Resolver.BestFrom | bot_telegram.py:67 | the scan of `max` keeps the earlier choice on ties, so it ends at the first choice with the highest score |
| Resolver.FirstBestUnique | bot_telegram.py:67 | the first choice with the highest score is unique |
| Resolver.ExtractOne | bot_telegram.py:66-68 | nothing for no choices; otherwise the first highest-scoring choice with its score |
| Resolver.Resolve | bot_telegram.py:62-79 | a new worksheet named exactly as the client exactly when every candidate scores below the threshold; otherwise the first best candidate, which reaches the threshold |
| Resolver.ThresholdMonotone | bot_telegram.py:72 | raising the threshold never turns a new worksheet into a reused one, and thresholds that both reuse pick the same worksheet |
| Resolver.ThresholdInclusive | bot_telegram.py:72 | a candidate scoring exactly 85 means reuse |
| Resolver.OnlyDefaultSheet | bot_telegram.py:78-79 | with no titles, or only `Página1`, the client name is used as given for a new worksheet |
| Resolver.ExactNameReused | bot_telegram.py:67-74 | a client whose name is a candidate and scores 100 against itself reuses a worksheet that scores 100 |
| Ledger.DataRow | bot_telegram.py:122-123 | `linha`: the timestamp, the info and the media label, in that order |
| Ledger.CreationSteps | bot_telegram.py:93-112 | the calls after creation run in order (format the columns, append the header, format the header): the outcome of the first that does not return, or `Returned` |
| Ledger.SavePlan | bot_telegram.py:50-131 | defines the routine's decisions: no connection or a failed listing writes nothing; a confident match is written to only if opening and appending return; otherwise `NewSheetPlan` |
| Ledger.NewSheetPlan | bot_telegram.py:82-124 | defines the new-client path: another exception from creation writes nothing; `APIError` from creation (or a taken title) falls back to opening; after creation, the header is in place when formatting and appending it returned, an `APIError` in those steps falls back to opening, and the data row is appended when its call returns |
| Ledger.AfterSave | bot_telegram.py:122-124 | a save that neither creates nor appends leaves every worksheet as it was; every other worksheet keeps its rows; the target keeps its rows (or, when created, starts with the header) and gains the data row exactly once, as its last row, when the save appends |
| Ledger.CandidatesInTitles | bot_telegram.py:57-60 | every candidate is a worksheet title |
| Ledger.ResolvedTitleExists | bot_telegram.py:72-75 | a reused worksheet is always an existing one |
| Ledger.SaveNeedsConnection | bot_telegram.py:50-53 | without a connection, or when listing fails, nothing is created or appended |
| Ledger.CreatesOnlyUnknownNames | bot_telegram.py:82-85 | a worksheet is created only for a client below the threshold whose name is not a title yet, under that very name |
| Ledger.HeaderOnlyOnCreation | bot_telegram.py:97-99 | the header is written only into a worksheet the save created |
| Ledger.AppendsToExistingOrCreated | bot_telegram.py:116-118 | a save that appends without creating writes into an existing worksheet |
| Ledger.CleanSaveStores | bot_telegram.py:55-127 | when every call returns, the record is stored in the resolved worksheet, and a worksheet is created (with the header) exactly for a new client name |
| Ledger.TakenNameFallsBack | bot_telegram.py:116-118 | a new client whose name is already a title gets no second worksheet: the record goes to the existing one when opening and appending return |
| Ledger.Spreadsheet.ListTitles | bot_telegram.py:57 | the listed titles are the worksheet titles when the call returns |
| Ledger.Spreadsheet.OpenWorksheet | bot_telegram.py:75 | opening returns exactly for an existing title; a missing title raises an error that is not an `APIError` |
| Ledger.Spreadsheet.AddWorksheet | bot_telegram.py:85 | a new title is added with no rows; a taken title raises `APIError` and changes nothing |
| Ledger.Spreadsheet.Format | bot_telegram.py:94-112 | a `format` call only returns or raises; nothing else changes |
| Ledger.Spreadsheet.AppendRow | bot_telegram.py:124 | the row goes after the last row of that worksheet only |
| Ledger.Spreadsheet.CreateOrOpen | bot_telegram.py:82-118 | creates and prepares the worksheet, or on `APIError` opens it by title; states the titles, rows and outcome after each path |
| Ledger.Spreadsheet.WriteExisting | bot_telegram.py:72-124 | opens the reused worksheet and appends the data row to it; nothing else changes |
| Ledger.Spreadsheet.WriteNew | bot_telegram.py:82-124 | the creation block and the data row, as `NewSheetPlan` and `AfterSave` describe |
| Ledger.Spreadsheet.SaveRecord | bot_telegram.py:43-131 | returns whether the data row was appended; the titles gain the client's worksheet only when it is created; the rows are `AfterSave` of the plan |
| Bot.TextOf | bot_telegram.py:191-213 | defines the text to process: a non-empty transcript of a voice or audio message, or a non-empty text, and nothing otherwise |
| Bot.MediaOf | bot_telegram.py:199-210 | defines the media label: `Áudio` for a voice or audio message, `Texto` otherwise |
| Bot.Parse | bot_telegram.py:216-224 | defines the dispatch on the parse: a record to store when `extrair_dados` returns both fields, the format reply otherwise |
| Bot.Interpret | bot_telegram.py:187-224 | text to process exactly for a non-empty transcript or text; a format reply exactly when that text does not parse; a stored record is the parse of the text, labelled `Áudio` or `Texto`; voice messages get the transcribing reply and then the transcript or the failure reply |
| Bot.HandleMessage | bot_telegram.py:187-224 | without text or with an unparsed text the spreadsheet is unchanged; a parsed record is saved, and the reply names the client as parsed on success or reports the failure |
| Bot.ParsedTextIsStored | bot_telegram.py:207-219 | a non-empty text that parses is stored with the `Texto` label |
| Bot.TypedTextIsStored | bot_telegram.py:207-220 | a typed `Cliente: X, Info: Y` message (with `X` and `Y` as in `RoundTrip`) is stored as `(X, Y)`, and with every call returning the save succeeds |

## Left out

- Telegram transport, file download, `main` and polling: not modelled. A message arrives as a value, and replies are constructors rather than the texts sent.
- Audio transcription (`transcrever_audio`) is a foreign call. Its result is a field of the voice message: a transcript or nothing.
- `get_planilha_obj` (authentication and opening the spreadsheet): reduced to the boolean `connected`.
- The fuzzywuzzy scorer is a parameter with results in 0..100. The model does not assume that identical names score 100.
- Cell formatting: the styles are not modelled, and each `format` call is only a step that may raise. The grid size of a new worksheet (100 rows, 10 columns) is not modelled.
- `datetime.now().strftime` is a timestamp parameter.
- `print` logging and the hard-coded configuration are not modelled.
- Concurrent messages and races between creators are not modelled. Only the sequential "already exists" fallback is.
- The service is modelled as raising `APIError` on its own only for a taken title. Every other failure of a call comes from the `Faults` parameter.
- Chars.IsWordChar: exact for code points below U+0100, so for Portuguese written with precomposed letters. Above that, a character is a word character unless it is whitespace or in one of the blocks of `Chars.IsNonWordBlock`. Those blocks are the combining marks (U+0300..U+036F and the related blocks), punctuation, currency, arrows, mathematical and technical symbols, box drawing, shapes, dingbats, variation selectors, the mahjong, domino and playing-card symbols, and everything from U+1F10D to U+1FAFF: the enclosed letters and ideographs, the regional indicators that make up flags, and the pictographs and emoji. Every character in them is `\W` in Python, so an accent in decomposed text ends a name in the model as it does in Python. Other non-alphanumeric characters above U+00FF count as word characters in the model although Python's `\w` rejects them: the letterlike `™`, CJK punctuation, and combining marks of other scripts. A name or payload next to such a character parses differently in the model.
- `Chars.CaseEq` follows `re.IGNORECASE` only for the letters of `cliente` and `info`: ASCII case, plus U+0130 and U+0131 for `i`.
- ParserProperties.RoundTrip: requires the name to contain no non-word run followed by `info` and then a non-word character or the end of the name. Such a name is cut short by the lazy group, which is the behaviour `Parser.Extract` states. It also requires the name and the first payload character to be below U+0100, where the character classes are exactly Python's. Separators may use any character the model calls non-word, and every such character is `\W` in Python.
- ParserProperties.MessageMatch: the same character requirements as `RoundTrip`.
- ParserProperties.TypedMessage: the same requirements as `RoundTrip`.
- ParserProperties.SpokenMessage: the same requirements as `RoundTrip`.
- Bot.TypedTextIsStored: the same requirements as `RoundTrip`.
- Resolver.CandidatesAreClientSheets: requires distinct titles, as worksheet titles are unique. For a list with repeated titles, `Resolver.RemoveFirstShape` states what the removal of the first `Página1` does.

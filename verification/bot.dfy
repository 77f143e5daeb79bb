/**
 * `handle_message`: what the bot does with one incoming message. A voice
 * or audio message is transcribed first; a text message is taken as it
 * is; anything else, or an empty text, is ignored. The text is parsed, and
 * a parsed record is saved with the kind of message it came from.
 */
module Bot {
  import opened Options
  import opened Chars
  import opened Parser
  import opened Resolver
  import opened Ledger
  import opened ParserProperties

  /**
   * A message as the handler sees it: a voice or audio message with the
   * transcription's result (`None` when transcribing failed), a text
   * message, or anything else.
   */
  datatype Incoming = Voice(transcript: Option<string>) | Text(text: string) | Other

  /** The replies the bot sends back. */
  datatype Reply =
    | Transcribing                 // "Recebi seu áudio. Transcrevendo..."
    | TranscriptEcho(text: string) // "Texto transcrito: ..."
    | AudioNotUnderstood           // "não consegui entender o áudio"
    | SavedFor(name: string)       // "Dados do cliente '...' salvos!"
    | SaveFailed                   // "Erro ao salvar na planilha"
    | FormatHelp                   // "Formato não reconhecido. Use: ..."

  /** The media column for each kind of message. */
  const AudioMedia := "Áudio"
  const TextMedia := "Texto"

  /** What is left to do once the text is known: nothing, reject the format, or save a record. */
  datatype Job = Nothing | Reject | Store(record: Record, media: string)

  /** The replies sent before the text is handled, and the job that remains. */
  datatype Step = Step(early: seq<Reply>, job: Job)

  /** The text to process, when there is one: a non-empty transcript or a non-empty text. */
  function TextOf(msg: Incoming): Option<string> {
    match msg
    case Voice(t) => if t.Some? && t.value != [] then t else None
    case Text(t) => if t != [] then Some(t) else None
    case Other => None
  }

  /** The media label a stored record of this message gets. */
  function MediaOf(msg: Incoming): string {
    if msg.Voice? then AudioMedia else TextMedia
  }

  /**
   * The dispatch of `handle_message`: the early replies, and what to do
   * with the text, if any.
   */
  function Interpret(msg: Incoming): (s: Step)
    ensures s.job.Nothing? <==> TextOf(msg).None?
    ensures s.job.Reject? <==> TextOf(msg).Some? && Extract(TextOf(msg).value).None?
    ensures s.job.Store? ==> TextOf(msg).Some? && Extract(TextOf(msg).value) == Some(s.job.record)
                             && s.job.media == MediaOf(msg)
    ensures msg.Voice? ==> |s.early| == 2 && s.early[0] == Transcribing
                           && s.early[1] == if s.job.Nothing? then AudioNotUnderstood
                                            else TranscriptEcho(TextOf(msg).value)
    ensures !msg.Voice? ==> s.early == []
  {
    match msg
    case Voice(t) =>
      if t.Some? && t.value != [] then Step([Transcribing, TranscriptEcho(t.value)], Parse(t.value, AudioMedia))
      else Step([Transcribing, AudioNotUnderstood], Nothing)
    case Text(t) =>
      if t != [] then Step([], Parse(t, TextMedia)) else Step([], Nothing)
    case Other => Step([], Nothing)
  }

  /** `extrair_dados` and its check: a record to store, or a format reply. */
  function Parse(text: string, media: string): Job {
    match Extract(text)
    case Some(r) => Store(r, media)
    case None => Reject
  }

  /**
   * `handle_message`: sends the early replies, then saves a parsed record
   * (under the name as the message gave it) and reports the outcome, or
   * asks for the expected format. Only a stored record changes the
   * spreadsheet.
   */
  method HandleMessage(sheet: Spreadsheet, msg: Incoming, timestamp: string, connected: bool,
                       scorer: Scorer, env: Faults) returns (replies: seq<Reply>)
    requires sheet.Valid()
    modifies sheet
    ensures sheet.Valid()
    ensures var s := Interpret(msg);
            match s.job
            case Nothing => replies == s.early && unchanged(sheet)
            case Reject => replies == s.early + [FormatHelp] && unchanged(sheet)
            case Store(r, media) =>
              var p := SavePlan(r.name, old(sheet.titles), scorer, connected, env);
              && replies == s.early + [if p.appends then SavedFor(r.name) else SaveFailed]
              && sheet.titles == old(sheet.titles) + (if p.creates then [p.title] else [])
              && sheet.rows == AfterSave(old(sheet.rows), p, DataRow(timestamp, r.info, media))
  {
    var s := Interpret(msg);
    replies := s.early;
    match s.job
    case Nothing =>
    case Reject =>
      replies := replies + [FormatHelp];
    case Store(r, media) =>
      var ok := sheet.SaveRecord(r.name, r.info, media, timestamp, connected, scorer, env);
      replies := replies + [if ok then SavedFor(r.name) else SaveFailed];
  }

  /** A non-empty text message that parses becomes a record to store, labelled as text. */
  lemma ParsedTextIsStored(t: string, r: Record)
    requires t != [] && Extract(t) == Some(r)
    ensures Interpret(Text(t)).job == Store(r, TextMedia)
  {
  }

  /**
   * A text message in the typed convention, saved with every remote call
   * returning, stores its info under the text media label and reports the
   * client by the name as typed.
   */
  lemma TypedTextIsStored(x: string, y: string, titles: seq<string>, scorer: Scorer)
    requires x != [] && IsWordChar(x[0]) && IsWordChar(x[|x| - 1]) && MarkerFree(x) && Latin1(x)
    requires y != [] && IsWordChar(y[0]) && y[0] < '\U{100}' && !IsSpace(y[|y| - 1])
    ensures Interpret(Text("Cliente: " + x + ", Info: " + y)).job == Store(Record(x, y), TextMedia)
    ensures SavePlan(x, titles, scorer, true, NoFaults).appends
  {
    TypedMessage(x, y);
    ParsedTextIsStored("Cliente: " + x + ", Info: " + y, Record(x, y));
    CleanSaveStores(x, titles, scorer);
  }
}

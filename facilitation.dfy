/** The facilitation service: which persona prompt is in force, how the
    requests to the chat backend are built, and how failures are absorbed. */
module Facilitation {
  import opened Values

  const OtokomaeMode := "OTOKO☆MAEくんモード"
  /** The persona prompt file names as the repository spells them (two of
      the letters in the first are Cyrillic). */
  const OtokomaePromptPath := "prompts/otok\U{043E}\U{043C}ae_prompt.txt"
  const YurufuwaPromptPath := "prompts/tsukkomi_prompt.txt"
  const SummaryPromptPath := "prompts/summary_prompt.txt"
  const TranscriptHeading := "\n\n文字起こし:\n"
  const SummaryErrorPrefix := "要約生成エラー: "

  /** Reading a prompt file: its contents, or FileNotFoundError. */
  datatype PromptFile = Found(contents: string) | NotFound

  /** `_load_prompt`: a missing file reads as the empty prompt. */
  function LoadPrompt(file: PromptFile): (r: string)
    ensures file.NotFound? ==> r == ""
    ensures file.Found? ==> r == file.contents
  {
    match file
    case Found(contents) => contents
    case NotFound => ""
  }

  /** The persona prompt a mode selects: the assertive one for exactly the
      OTOKO☆MAE mode name, the gentle one for every other name. */
  function PromptFor(mode: string, otokomae: string, yurufuwa: string): (r: string)
    ensures mode == OtokomaeMode ==> r == otokomae
    ensures mode != OtokomaeMode ==> r == yurufuwa
  {
    if mode == OtokomaeMode then otokomae else yurufuwa
  }

  /** The single user message sent to the backend: the prompt, then the
      heading, then the transcript, each recoverable from the result. */
  function Request(prompt: string, transcript: string): (r: string)
    ensures |r| == |prompt| + |TranscriptHeading| + |transcript|
    ensures r[..|prompt|] == prompt
    ensures r[|prompt|..|prompt| + |TranscriptHeading|] == TranscriptHeading
    ensures r[|prompt| + |TranscriptHeading|..] == transcript
  {
    prompt + TranscriptHeading + transcript
  }

  /** The value `generate_tsukkomi` returns for one backend outcome: the
      decoded reply, or None when the call failed, the content does not
      decode, or it decodes to JSON null (which is Python's None). */
  function TsukkomiResult(reply: ChatOutcome, parse: string -> Option<Json>): (r: Option<Json>)
    ensures reply.ChatFailed? ==> r == None
    ensures reply.Replied? && parse(reply.content) == None ==> r == None
    ensures r.Some? ==> reply.Replied? && parse(reply.content) == r && r.value != JNull
    ensures reply.Replied? && parse(reply.content).Some? && parse(reply.content).value != JNull ==>
              r == parse(reply.content)
  {
    match reply
    case ChatFailed(_) => None
    case Replied(content) =>
      match parse(content)
      case None => None
      case Some(v) => if v == JNull then None else Some(v)
  }

  /** The value `generate_summary` returns: the content on success, a visible
      error string on failure; it never raises. */
  function SummaryText(reply: ChatOutcome): (r: string)
    ensures reply.Replied? ==> r == reply.content
    ensures reply.ChatFailed? ==> r == SummaryErrorPrefix + reply.message
    ensures reply.ChatFailed? ==> r[..|SummaryErrorPrefix|] == SummaryErrorPrefix
  {
    match reply
    case Replied(content) => content
    case ChatFailed(message) => SummaryErrorPrefix + message
  }

  class FacilitationService {
    var mode: string
    var otokomaePrompt: string
    var yurufuwaPrompt: string
    var summaryPrompt: string
    var tsukkomiPrompt: string

    /** The prompt used for interjections always reflects the mode. */
    ghost predicate Valid()
      reads this
    {
      tsukkomiPrompt == PromptFor(mode, otokomaePrompt, yurufuwaPrompt)
    }

    /** `read` stands for opening a file by path. */
    constructor (mode: string, read: string -> PromptFile)
      ensures Valid()
      ensures this.mode == mode
      ensures otokomaePrompt == LoadPrompt(read(OtokomaePromptPath))
      ensures yurufuwaPrompt == LoadPrompt(read(YurufuwaPromptPath))
      ensures summaryPrompt == LoadPrompt(read(SummaryPromptPath))
    {
      this.mode := mode;
      var otokomae := LoadPrompt(read(OtokomaePromptPath));
      var yurufuwa := LoadPrompt(read(YurufuwaPromptPath));
      otokomaePrompt := otokomae;
      yurufuwaPrompt := yurufuwa;
      summaryPrompt := LoadPrompt(read(SummaryPromptPath));
      tsukkomiPrompt := PromptFor(mode, otokomae, yurufuwa);
    }

    /** Changes the mode and the prompt in force, nothing else; the new state
      depends only on the argument, so a repeated call changes nothing. */
    method SetMode(mode: string)
      modifies this
      ensures Valid()
      ensures this.mode == mode
      ensures tsukkomiPrompt == PromptFor(mode, otokomaePrompt, yurufuwaPrompt)
      ensures otokomaePrompt == old(otokomaePrompt)
      ensures yurufuwaPrompt == old(yurufuwaPrompt)
      ensures summaryPrompt == old(summaryPrompt)
    {
      this.mode := mode;
      tsukkomiPrompt := PromptFor(mode, otokomaePrompt, yurufuwaPrompt);
    }

    /** `complete` is the backend; the request it receives is the prompt in
      force followed by the transcript, and the prompt in force is the
      persona the mode selects. */
    method GenerateTsukkomi(transcript: string, complete: string -> ChatOutcome, parse: string -> Option<Json>)
      returns (r: Option<Json>)
      requires Valid()
      ensures r == TsukkomiResult(complete(Request(PromptFor(mode, otokomaePrompt, yurufuwaPrompt), transcript)), parse)
      ensures r == TsukkomiResult(complete(Request(tsukkomiPrompt, transcript)), parse)
    {
      var fullPrompt := Request(tsukkomiPrompt, transcript);
      var reply := complete(fullPrompt);
      r := TsukkomiResult(reply, parse);
    }

    method GenerateSummary(transcript: string, complete: string -> ChatOutcome) returns (r: string)
      ensures r == SummaryText(complete(Request(summaryPrompt, transcript)))
    {
      var fullPrompt := Request(summaryPrompt, transcript);
      var reply := complete(fullPrompt);
      r := SummaryText(reply);
    }
  }
}

/** The batch application: each recorded chunk is transcribed, the whole
    transcript so far is sent for an interjection, and the reply is read
    out of a fenced JSON block. */
module BatchApp {
  import opened Values
  import opened Text
  import Facilitation

  const OpenFence := "```json"
  const CloseFence := "```"

  // ------------------------------------------------- the fence pattern

  /** `pat` occurs in `s` at position `i`. */
  predicate At(s: string, i: nat, pat: string) {
    i + |pat| <= |s| && s[i..i + |pat|] == pat
  }

  /** Every character of `s[i..j]` is whitespace in the sense of `\s`. */
  predicate AllSpace(s: string, i: nat, j: nat) {
    i <= j <= |s| && forall k :: i <= k < j ==> IsSpace(s[k])
  }

  /** The first occurrence of `pat` at or after `i`. */
  function FindFrom(s: string, pat: string, i: nat): (r: Option<nat>)
    requires pat != []
    ensures r.Some? ==> i <= r.value && At(s, r.value, pat)
    ensures r.Some? ==> forall j :: i <= j < r.value ==> !At(s, j, pat)
    ensures r.None? ==> forall j :: i <= j ==> !At(s, j, pat)
    decreases |s| - i
  {
    if i + |pat| > |s| then None
    else if s[i..i + |pat|] == pat then Some(i)
    else FindFrom(s, pat, i + 1)
  }

  /** The end of the run of whitespace starting at `i` (greedy `\s*`). */
  function SkipSpace(s: string, i: nat): (r: nat)
    requires i <= |s|
    ensures i <= r <= |s| && AllSpace(s, i, r)
    ensures r < |s| ==> !IsSpace(s[r])
    decreases |s| - i
  {
    if i < |s| && IsSpace(s[i]) then SkipSpace(s, i + 1) else i
  }

  /** The start of the run of whitespace ending at `hi`, not below `lo`. */
  function TrimBack(s: string, lo: nat, hi: nat): (r: nat)
    requires lo <= hi <= |s|
    ensures lo <= r <= hi && AllSpace(s, r, hi)
    ensures lo < r ==> !IsSpace(s[r - 1])
    decreases hi
  {
    if lo < hi && IsSpace(s[hi - 1]) then TrimBack(s, lo, hi - 1) else hi
  }

  /** Where a match of the fence pattern sits: the opening fence, the group
      `s[start..stop]`, and the closing fence. */
  datatype Span = Span(open: nat, start: nat, stop: nat, close: nat)

  /** `m` is a match of `` ```json\s*(.*?)\s*``` `` with dot matching newlines. */
  predicate MatchesAt(s: string, m: Span) {
    At(s, m.open, OpenFence) && At(s, m.close, CloseFence) &&
    m.open + |OpenFence| <= m.start <= m.stop <= m.close &&
    AllSpace(s, m.open + |OpenFence|, m.start) && AllSpace(s, m.stop, m.close)
  }

  /** `re.search` with the fence pattern. */
  function FenceMatch(s: string): (r: Option<Span>)
    ensures r.Some? ==> MatchesAt(s, r.value)
    ensures r.Some? && r.value.start < |s| ==> !IsSpace(s[r.value.start])
    ensures r.Some? && r.value.start < r.value.stop ==> !IsSpace(s[r.value.stop - 1])
    ensures r.Some? ==> forall j :: r.value.start <= j < r.value.close ==> !At(s, j, CloseFence)
  {
    match FindFrom(s, OpenFence, 0)
    case None => None
    case Some(p) =>
      var a := SkipSpace(s, p + |OpenFence|);
      match FindFrom(s, CloseFence, a)
      case None => None
      case Some(q) => Some(Span(p, a, TrimBack(s, a, q), q))
  }

  /** Two opening fences never overlap. */
  lemma OpenFencesApart(s: string, p: nat, o: nat)
    requires At(s, p, OpenFence) && At(s, o, OpenFence) && p < o
    ensures p + |OpenFence| <= o
  {
    assert s[p + 3] == 'j' && s[o] == '`';
  }

  /** A fence begins with a backtick, which is not whitespace. */
  lemma FenceNotSpace(s: string, i: nat, pat: string)
    requires At(s, i, pat) && pat != [] && pat[0] == '`'
    ensures i < |s| && !IsSpace(s[i])
  {
    assert s[i] == s[i..i + |pat|][0];
  }

  /** The match `FenceMatch` picks is the one Python's backtracking engine
      picks: there is none exactly when no match exists; otherwise it is the
      leftmost, its leading `\s*` is the longest possible, and its lazy group
      is the shortest possible for that start. */
  lemma FenceMatchIsRegexMatch(s: string)
    ensures FenceMatch(s).None? ==> forall m :: !MatchesAt(s, m)
    ensures FenceMatch(s).Some? ==> forall m :: MatchesAt(s, m) ==>
      FenceMatch(s).value.open <= m.open &&
      (m.open == FenceMatch(s).value.open ==> m.start <= FenceMatch(s).value.start) &&
      (m.open == FenceMatch(s).value.open && m.start == FenceMatch(s).value.start ==>
         FenceMatch(s).value.stop <= m.stop)
  {
    forall m | MatchesAt(s, m)
      ensures FenceMatch(s).Some? && FenceMatch(s).value.open <= m.open
      ensures m.open == FenceMatch(s).value.open ==> m.start <= FenceMatch(s).value.start
      ensures m.open == FenceMatch(s).value.open && m.start == FenceMatch(s).value.start ==>
                FenceMatch(s).value.stop <= m.stop
    {
      LeftmostLongest(s, m);
      var f := FenceMatch(s).value;
      if m.open == f.open && m.start == f.start {
        ShortestGroup(s, f, m);
      }
    }
  }

  /** Any match forces a found one that opens no later, and if it opens at
      the same fence, skips no less whitespace. */
  lemma LeftmostLongest(s: string, m: Span)
    requires MatchesAt(s, m)
    ensures FindFrom(s, OpenFence, 0).Some?
    ensures var p := FindFrom(s, OpenFence, 0).value;
            var a := SkipSpace(s, p + |OpenFence|);
            p <= m.open && FindFrom(s, CloseFence, a).Some? &&
            (m.open == p ==> m.start <= a)
  {
    var p := FindFrom(s, OpenFence, 0).value;
    var a := SkipSpace(s, p + |OpenFence|);
    FenceNotSpace(s, m.close, CloseFence);
    if m.open == p {
      assert a <= m.close;
    } else {
      OpenFencesApart(s, p, m.open);
      FenceNotSpace(s, m.open, OpenFence);
      assert a <= m.open;
    }
  }

  /** A match sharing the found one's start has a group no shorter. */
  lemma ShortestGroup(s: string, f: Span, m: Span)
    requires FenceMatch(s) == Some(f)
    requires MatchesAt(s, m) && m.open == f.open && m.start == f.start
    ensures f.stop <= m.stop
  {
    FenceNotSpace(s, f.close, CloseFence);
    FenceNotSpace(s, m.close, CloseFence);
  }

  /** The text handed to the JSON decoder: the fenced group when there is a
      fence, the whole response otherwise. */
  function JsonText(response: string): (r: string)
    ensures FenceMatch(response).None? ==> r == response
    ensures FenceMatch(response).Some? ==>
      r == response[FenceMatch(response).value.start..FenceMatch(response).value.stop]
    ensures FenceMatch(response).Some? ==> r == [] || (!IsSpace(r[0]) && !IsSpace(r[|r| - 1]))
    ensures FenceMatch(response).Some? ==> forall j :: !At(r, j, CloseFence)
  {
    match FenceMatch(response)
    case None => response
    case Some(m) =>
      GroupTrimmed(response, m);
      response[m.start..m.stop]
  }

  /** The group of a match found by FenceMatch is trimmed and holds no
      closing fence. */
  lemma GroupTrimmed(s: string, m: Span)
    requires FenceMatch(s) == Some(m)
    ensures var r := s[m.start..m.stop];
      (r == [] || (!IsSpace(r[0]) && !IsSpace(r[|r| - 1]))) && forall j :: !At(r, j, CloseFence)
  {
    var r := s[m.start..m.stop];
    if r != [] {
      assert r[0] == s[m.start] && r[|r| - 1] == s[m.stop - 1];
    }
    assert MatchesAt(s, m) && |CloseFence| == 3;
    forall j: nat ensures !At(r, j, CloseFence) {
      if j + 3 <= |r| {
        SliceOfSlice(s, m.start, m.stop, j, j + 3);
        assert !At(s, m.start + j, CloseFence);
      }
    }
  }

  lemma SliceOfSlice(s: string, lo: nat, hi: nat, i: nat, j: nat)
    requires lo <= hi <= |s| && i <= j <= hi - lo
    ensures s[lo..hi][i..j] == s[lo + i..lo + j]
  {
    assert forall k :: 0 <= k < j - i ==> s[lo..hi][i..j][k] == s[lo + i + k];
  }

  lemma SkipSpaceTo(s: string, i: nat, j: nat)
    requires i <= j <= |s| && AllSpace(s, i, j) && (j < |s| ==> !IsSpace(s[j]))
    ensures SkipSpace(s, i) == j
  {
  }

  lemma FindFromAt(s: string, pat: string, i: nat, q: nat)
    requires pat != [] && i <= q && At(s, q, pat)
    requires forall j :: i <= j < q ==> !At(s, j, pat)
    ensures FindFrom(s, pat, i) == Some(q)
  {
  }

  lemma TrimBackTo(s: string, lo: nat, hi: nat, k: nat)
    requires lo <= k <= hi <= |s| && AllSpace(s, k, hi) && (lo < k ==> !IsSpace(s[k - 1]))
    ensures TrimBack(s, lo, hi) == k
  {
  }

  /** In the assembled block there is no closing fence between the start of
      the group and the closing fence itself. */
  lemma NoEarlyClose(s: string, body: string, b0: nat, q: nat)
    requires b0 + |body| <= q <= |s|
    requires s[b0..b0 + |body|] == body
    requires AllSpace(s, b0 + |body|, q)
    requires q + 3 <= |s| && s[q..q + 3] == CloseFence
    requires body != [] ==> body[|body| - 1] != '`'
    requires forall j :: !At(body, j, CloseFence)
    ensures forall j :: b0 <= j < q ==> !At(s, j, CloseFence)
  {
    var b1 := b0 + |body|;
    forall j | b0 <= j < q ensures !At(s, j, CloseFence) {
      if j + 3 <= b1 {
        assert s[j..j + 3] == s[b0..b1][j - b0..j - b0 + 3];
        assert !At(body, j - b0, CloseFence);
      } else if j < b1 {
        assert s[b1 - 1] == body[|body| - 1];
        assert s[j..j + 3][b1 - 1 - j] == s[b1 - 1];
      } else {
        assert s[j..j + 3][0] == s[j];
      }
    }
  }

  /** Where the parts of an assembled fenced block sit. */
  lemma FencedLayout(ws1: string, body: string, ws2: string, rest: string)
    requires AllSpace(ws1, 0, |ws1|) && AllSpace(ws2, 0, |ws2|)
    ensures var s := OpenFence + ws1 + body + ws2 + CloseFence + rest;
      var b0 := |OpenFence| + |ws1|;
      var b1 := b0 + |body|;
      var q := b1 + |ws2|;
      && q + 3 <= |s| && At(s, 0, OpenFence)
      && s[b0..b1] == body && s[q..q + 3] == CloseFence
      && AllSpace(s, |OpenFence|, b0) && AllSpace(s, b1, q)
  {
    var s := OpenFence + ws1 + body + ws2 + CloseFence + rest;
    var b0 := |OpenFence| + |ws1|;
    var b1 := b0 + |body|;
    var q := b1 + |ws2|;
    assert s[..|OpenFence|] == OpenFence;
    var upTo := OpenFence + ws1 + body + ws2;
    assert s == upTo + (CloseFence + rest);
    assert s[..q] == upTo;
    assert upTo[b0..b1] == body;
    SliceOfSlice(s, 0, q, b0, b1);
    assert s[q..q + 3] == CloseFence;
    forall k | |OpenFence| <= k < b0 ensures IsSpace(s[k]) {
      assert s[k] == ws1[k - |OpenFence|];
    }
    forall k | b1 <= k < q ensures IsSpace(s[k]) {
      assert s[k] == ws2[k - b1];
    }
  }

  /** A block written as an opening fence, whitespace, a body trimmed of
      whitespace, whitespace and a closing fence comes back out as that body,
      whatever follows it. */
  lemma FencedBodyRoundTrip(ws1: string, body: string, ws2: string, rest: string)
    requires AllSpace(ws1, 0, |ws1|) && AllSpace(ws2, 0, |ws2|)
    requires body != [] ==> !IsSpace(body[0]) && !IsSpace(body[|body| - 1]) && body[|body| - 1] != '`'
    requires forall j :: !At(body, j, CloseFence)
    ensures JsonText(OpenFence + ws1 + body + ws2 + CloseFence + rest) == body
  {
    FencedLayout(ws1, body, ws2, rest);
    BlockParses(OpenFence + ws1 + body + ws2 + CloseFence + rest, body,
                |OpenFence| + |ws1|, |OpenFence| + |ws1| + |body| + |ws2|);
  }

  /** A string laid out as an opening fence, whitespace, a trimmed body with
      no closing fence, whitespace and a closing fence hands the body to the
      decoder. */
  lemma BlockParses(s: string, body: string, b0: nat, q: nat)
    requires |OpenFence| <= b0 && b0 + |body| <= q && q + 3 <= |s|
    requires At(s, 0, OpenFence) && s[q..q + 3] == CloseFence
    requires s[b0..b0 + |body|] == body
    requires AllSpace(s, |OpenFence|, b0) && AllSpace(s, b0 + |body|, q)
    requires body != [] ==> !IsSpace(body[0]) && !IsSpace(body[|body| - 1]) && body[|body| - 1] != '`'
    requires forall j :: !At(body, j, CloseFence)
    ensures JsonText(s) == body
  {
    var b1 := b0 + |body|;
    FindFromAt(s, OpenFence, 0, 0);
    FenceNotSpace(s, q, CloseFence);
    NoEarlyClose(s, body, b0, q);
    if body != [] {
      assert s[b0] == body[0] && s[b1 - 1] == body[|body| - 1];
      MatchTrimmed(s, b0, b1, q);
    } else {
      MatchEmpty(s, q);
    }
  }

  /** The match FenceMatch finds around a group that has no whitespace at
      either end. */
  lemma MatchTrimmed(s: string, b0: nat, b1: nat, q: nat)
    requires FindFrom(s, OpenFence, 0) == Some(0)
    requires |OpenFence| <= b0 < b1 <= q
    requires AllSpace(s, |OpenFence|, b0) && AllSpace(s, b1, q) && At(s, q, CloseFence)
    requires !IsSpace(s[b0]) && !IsSpace(s[b1 - 1])
    requires forall j :: b0 <= j < q ==> !At(s, j, CloseFence)
    ensures FenceMatch(s) == Some(Span(0, b0, b1, q))
  {
    SkipSpaceTo(s, |OpenFence|, b0);
    FindFromAt(s, CloseFence, b0, q);
    TrimBackTo(s, b0, q, b1);
  }

  /** The match FenceMatch finds when only whitespace separates the fences. */
  lemma MatchEmpty(s: string, q: nat)
    requires FindFrom(s, OpenFence, 0) == Some(0)
    requires |OpenFence| <= q && AllSpace(s, |OpenFence|, q) && At(s, q, CloseFence)
    requires !IsSpace(s[q])
    ensures FenceMatch(s) == Some(Span(0, q, q, q))
  {
    SkipSpaceTo(s, |OpenFence|, q);
    FindFromAt(s, CloseFence, q, q);
    TrimBackTo(s, q, q, q);
  }

  // --------------------------------------------- reading the reply

  /** The interjection in a model reply (the inner `try` of
      `generate_tsukkomi`): the raw text when the JSON cannot be decoded or is
      not shaped as objects, nothing when the reply opts out or carries an
      empty interjection, and the interjection otherwise. */
  function InterpretResponse(response: string, parse: string -> Option<Json>): (r: Option<Json>)
    ensures parse(JsonText(response)).None? ==> r == Some(JStr(response))
    ensures parse(JsonText(response)).Some? && !parse(JsonText(response)).value.JObj? ==>
      r == Some(JStr(response))
    ensures r.Some? ==> r.value == JStr(response) || Truthy(r.value)
    // an object that speaks: a reply that is not an object gives the raw
    // text back, and a non-empty interjection under the reply is returned
    ensures var j := parse(JsonText(response));
      j.Some? && j.value.JObj? && Truthy(Get(j.value.fields, "should_speak", JBool(true))) ==>
        var reply := Get(j.value.fields, "reply", JObj(map[]));
        (!reply.JObj? ==> r == Some(JStr(response)))
        && (reply.JObj? && Truthy(Get(reply.fields, "tsukkomi", JStr(""))) ==>
              r == Some(Get(reply.fields, "tsukkomi", JStr(""))))
    ensures r.None? <==>
      parse(JsonText(response)).Some? && parse(JsonText(response)).value.JObj? &&
      var d := parse(JsonText(response)).value.fields;
      (!Truthy(Get(d, "should_speak", JBool(true))) ||
       (Get(d, "reply", JObj(map[])).JObj? &&
        !Truthy(Get(Get(d, "reply", JObj(map[])).fields, "tsukkomi", JStr("")))))
  {
    match parse(JsonText(response))
    case None => Some(JStr(response))
    case Some(data) =>
      if !data.JObj? then Some(JStr(response))
      else if !Truthy(Get(data.fields, "should_speak", JBool(true))) then None
      else
        var reply := Get(data.fields, "reply", JObj(map[]));
        if !reply.JObj? then Some(JStr(response))
        else
          var tsukkomi := Get(reply.fields, "tsukkomi", JStr(""));
          if Truthy(tsukkomi) then Some(tsukkomi) else None
  }

  /** An object without `should_speak` speaks: its truthy interjection is
      returned as is. */
  lemma SpeaksByDefault(response: string, parse: string -> Option<Json>, replyFields: map<string, Json>)
    requires parse(JsonText(response)).Some? && parse(JsonText(response)).value.JObj?
    requires "should_speak" !in parse(JsonText(response)).value.fields
    requires Get(parse(JsonText(response)).value.fields, "reply", JObj(map[])) == JObj(replyFields)
    requires "tsukkomi" in replyFields && Truthy(replyFields["tsukkomi"])
    ensures InterpretResponse(response, parse) == Some(replyFields["tsukkomi"])
  {
    assert Get(parse(JsonText(response)).value.fields, "should_speak", JBool(true)) == JBool(true);
  }

  const OtokomaeFile := "otok\U{043E}\U{043C}ae_prompt.txt"
  const TsukkomiFile := "tsukkomi_prompt.txt"
  const SummaryFile := "summary_prompt.txt"
  const PromptDir := "prompts/"
  const NoPromptText := "プロンプトが読み込めませんでした。"
  const NoSummaryPromptText := "要約プロンプトが読み込めませんでした。"
  const MeetingHeading := "会議テキスト:\n"
  const NoTsukkomiText := "ツッコミは不要みたい！"

  /** The prompt file for a character: the bold one for `"otokomae"`, the
      gentle one for anything else. */
  function PromptFileFor(promptType: string): (f: string)
    ensures promptType == "otokomae" <==> f == OtokomaeFile
    ensures f == OtokomaeFile || f == TsukkomiFile
  {
    if promptType == "otokomae" then OtokomaeFile else TsukkomiFile
  }

  /** `generate_tsukkomi` of the batch application: a missing prompt gives a
      fixed notice, a failed call gives nothing, a delivered reply is read by
      InterpretResponse. `read` stands for the file system (any read failure
      is `NotFound`), `chat` for the completion backend taking the system and
      the user message. */
  function GenerateTsukkomi(transcript: string, promptType: string,
                            read: string -> Facilitation.PromptFile,
                            chat: (string, string) -> ChatOutcome,
                            parse: string -> Option<Json>): (r: Option<Json>)
    ensures var prompt := Facilitation.LoadPrompt(read(PromptDir + PromptFileFor(promptType)));
      && (prompt == "" ==> r == Some(JStr(NoPromptText)))
      && (prompt != "" && chat(prompt, MeetingHeading + transcript).ChatFailed? ==> r == None)
      && (prompt != "" && chat(prompt, MeetingHeading + transcript).Replied? ==>
            r == InterpretResponse(chat(prompt, MeetingHeading + transcript).content, parse))
  {
    var prompt := Facilitation.LoadPrompt(read(PromptDir + PromptFileFor(promptType)));
    if prompt == "" then Some(JStr(NoPromptText))
    else
      match chat(prompt, MeetingHeading + transcript)
      case ChatFailed(_) => None
      case Replied(content) => InterpretResponse(content, parse)
  }

  /** `generate_summary` of the batch application. */
  function GenerateSummary(transcript: string, read: string -> Facilitation.PromptFile,
                           chat: (string, string) -> ChatOutcome): (r: Option<string>)
    ensures var prompt := Facilitation.LoadPrompt(read(PromptDir + SummaryFile));
      && (prompt == "" ==> r == Some(NoSummaryPromptText))
      && (prompt != "" ==> (r.None? <==> chat(prompt, transcript).ChatFailed?))
      && (prompt != "" && r.Some? ==> r.value == chat(prompt, transcript).content)
  {
    var prompt := Facilitation.LoadPrompt(read(PromptDir + SummaryFile));
    if prompt == "" then Some(NoSummaryPromptText)
    else
      match chat(prompt, transcript)
      case ChatFailed(_) => None
      case Replied(content) => Some(content)
  }

  // ------------------------------------------------ chunk admission

  const MaxChunkMb := 24
  const BytesPerMb := 1024 * 1024
  const MaxChunkBytes := MaxChunkMb * BytesPerMb

  /** Whether a recorded chunk is processed: it must be non-empty, its size
      in mebibytes (a float division) must not exceed 24, and its digest must
      differ from the last processed one. */
  function Admit(audio: seq<bv8>, digest: string, lastDigest: Option<string>): (r: bool)
    ensures r <==> 0 < |audio| <= MaxChunkBytes && lastDigest != Some(digest)
  {
    var sizeMb := |audio| as real / BytesPerMb as real;
    assert sizeMb * BytesPerMb as real == |audio| as real;
    |audio| > 0 && !(sizeMb > MaxChunkMb as real) && lastDigest != Some(digest)
  }

  // ------------------------------------------------- session state

  datatype ChunkTranscript = ChunkTranscript(chunk: nat, time: string, text: string)
  datatype HistoryEntry = HistoryEntry(chunk: nat, time: string, text: Json, noTsukkomi: bool)

  /** One line of the downloadable transcript. */
  function Line(t: ChunkTranscript): string {
    "\n[" + t.time + "] " + t.text
  }

  /** The downloadable transcript: one line per chunk, oldest first. */
  function FullTranscript(ts: seq<ChunkTranscript>): string {
    if ts == [] then "" else FullTranscript(ts[..|ts| - 1]) + Line(ts[|ts| - 1])
  }

  /** The transcript grows only at its end. */
  lemma {:induction false} FullTranscriptAppend(ts: seq<ChunkTranscript>, us: seq<ChunkTranscript>)
    ensures FullTranscript(ts + us) == FullTranscript(ts) + FullTranscript(us)
    decreases |us|
  {
    if us == [] {
      assert ts + us == ts;
    } else {
      var init, last := us[..|us| - 1], us[|us| - 1];
      assert (ts + us)[..|ts + us| - 1] == ts + init;
      assert (ts + us)[|ts + us| - 1] == last;
      FullTranscriptAppend(ts, init);
      assert FullTranscript(ts + us) == FullTranscript(ts + init) + Line(last);
      Regroup(FullTranscript(ts), FullTranscript(init), Line(last));
    }
  }

  /** The transcript opens with the first chunk's line, so it always starts
      with a newline. */
  lemma FullTranscriptFirstLine(ts: seq<ChunkTranscript>)
    requires ts != []
    ensures |Line(ts[0])| <= |FullTranscript(ts)|
    ensures FullTranscript(ts)[..|Line(ts[0])|] == Line(ts[0])
    ensures FullTranscript(ts)[0] == '\n'
  {
    FullTranscriptAppend([ts[0]], ts[1..]);
    assert [ts[0]] + ts[1..] == ts;
    assert [ts[0]][..0] == [];
    assert FullTranscript([ts[0]]) == Line(ts[0]);
  }

  /** The history entry recorded for a transcribed chunk. */
  function HistoryFor(chunk: nat, time: string, tsukkomi: Option<Json>): (e: HistoryEntry)
    ensures e.chunk == chunk && e.time == time
    ensures e.noTsukkomi <==> !(tsukkomi.Some? && Truthy(tsukkomi.value))
    ensures !e.noTsukkomi ==> e.text == tsukkomi.value
    ensures e.noTsukkomi ==> e.text == JStr(NoTsukkomiText)
  {
    if tsukkomi.Some? && Truthy(tsukkomi.value) then HistoryEntry(chunk, time, tsukkomi.value, false)
    else HistoryEntry(chunk, time, JStr(NoTsukkomiText), true)
  }

  /** Transcripts and history entries pair up chunk by chunk. */
  ghost predicate Paired(ts: seq<ChunkTranscript>, hs: seq<HistoryEntry>) {
    |ts| == |hs| &&
    forall i :: 0 <= i < |ts| ==> ts[i].chunk == hs[i].chunk && ts[i].time == hs[i].time
  }

  /** Chunk numbers rise strictly, lie in 1..`counter`, and every kept
      transcript is non-empty. */
  ghost predicate Numbered(ts: seq<ChunkTranscript>, counter: nat) {
    && (forall i :: 0 <= i < |ts| ==> ts[i].text != "" && 1 <= ts[i].chunk <= counter)
    && (forall i, j :: 0 <= i < j < |ts| ==> ts[i].chunk < ts[j].chunk)
  }

  lemma NumberedRaise(ts: seq<ChunkTranscript>, counter: nat, higher: nat)
    requires Numbered(ts, counter) && counter <= higher
    ensures Numbered(ts, higher)
  {
  }

  /** A transcript numbered above every earlier one keeps the numbering. */
  lemma NumberedSnoc(ts: seq<ChunkTranscript>, counter: nat, e: ChunkTranscript)
    requires Numbered(ts, counter) && e.chunk == counter + 1 && e.text != ""
    ensures Numbered(ts + [e], counter + 1)
  {
    var ts' := ts + [e];
    forall i, j | 0 <= i < j < |ts'| ensures ts'[i].chunk < ts'[j].chunk {
      if j == |ts| {
        assert ts'[i] == ts[i];
      } else {
        assert ts'[i] == ts[i] && ts'[j] == ts[j];
      }
    }
  }

  lemma PairedSnoc(ts: seq<ChunkTranscript>, hs: seq<HistoryEntry>, e: ChunkTranscript, h: HistoryEntry)
    requires Paired(ts, hs) && e.chunk == h.chunk && e.time == h.time
    ensures Paired(ts + [e], hs + [h])
  {
  }

  /** The batch page's session state. */
  class BatchSession {
    var transcripts: seq<ChunkTranscript>
    var tsukkomiHistory: seq<HistoryEntry>
    var fullTranscript: string
    var chunkCounter: nat
    var lastAudioHash: Option<string>
    var meetingStartTime: Option<real>
    var meetingEndTime: Option<real>
    var summaryResult: Option<string>

    /** Transcripts and history entries pair up, chunk numbers rise and never
      pass the counter, and the downloadable text is built from the
      transcripts. */
    ghost predicate Valid()
      reads this
    {
      && Paired(transcripts, tsukkomiHistory)
      && Numbered(transcripts, chunkCounter)
      && fullTranscript == FullTranscript(transcripts)
      && (transcripts != [] ==> meetingStartTime.Some?)
      && (chunkCounter > 0 ==> lastAudioHash.Some?)
    }

    constructor ()
      ensures Valid()
      ensures transcripts == [] && tsukkomiHistory == [] && fullTranscript == ""
      ensures chunkCounter == 0 && lastAudioHash == None
      ensures meetingStartTime == None && meetingEndTime == None && summaryResult == None
    {
      transcripts, tsukkomiHistory, fullTranscript := [], [], "";
      chunkCounter, lastAudioHash := 0, None;
      meetingStartTime, meetingEndTime, summaryResult := None, None, None;
    }

    /** A chunk from the recorder. `digest` is its MD5 digest, `transcript`
      what transcription gave (`None` on an error), `stamp` the clock string
      and `now` the time. An admitted chunk always takes the next number; a
      non-empty transcript adds one transcript and one history entry. */
    method ReceiveAudio(audio: seq<bv8>, digest: string, transcript: Option<string>,
                        stamp: string, now: real, promptType: string,
                        read: string -> Facilitation.PromptFile,
                        chat: (string, string) -> ChatOutcome,
                        parse: string -> Option<Json>)
      requires Valid()
      modifies this
      ensures Valid()
      ensures !Admit(audio, digest, old(lastAudioHash)) ==> unchanged(this)
      ensures Admit(audio, digest, old(lastAudioHash)) ==>
        lastAudioHash == Some(digest) && chunkCounter == old(chunkCounter) + 1
      ensures !(Admit(audio, digest, old(lastAudioHash)) && transcript.Some? && transcript.value != "") ==>
        transcripts == old(transcripts) && tsukkomiHistory == old(tsukkomiHistory) &&
        fullTranscript == old(fullTranscript) && meetingStartTime == old(meetingStartTime)
      ensures Admit(audio, digest, old(lastAudioHash)) && transcript.Some? && transcript.value != "" ==>
        var entry := ChunkTranscript(chunkCounter, stamp, transcript.value);
        && transcripts == old(transcripts) + [entry]
        && fullTranscript == old(fullTranscript) + Line(entry)
        && meetingStartTime == (if old(meetingStartTime).None? then Some(now) else old(meetingStartTime))
        && tsukkomiHistory == old(tsukkomiHistory) +
             [HistoryFor(chunkCounter, stamp, GenerateTsukkomi(fullTranscript, promptType, read, chat, parse))]
      ensures meetingEndTime == old(meetingEndTime) && summaryResult == old(summaryResult)
    {
      if Admit(audio, digest, lastAudioHash) {
        NumberedRaise(transcripts, chunkCounter, chunkCounter + 1);
        lastAudioHash := Some(digest);
        chunkCounter := chunkCounter + 1;
        if transcript.Some? && transcript.value != "" {
          Record(ChunkTranscript(chunkCounter, stamp, transcript.value), now, promptType, read, chat, parse);
        }
      }
    }

    /** Keeps one transcribed chunk: its transcript, its line of the full
      text, the meeting start if this is the first, and its history entry. */
    method Record(entry: ChunkTranscript, now: real, promptType: string,
                  read: string -> Facilitation.PromptFile,
                  chat: (string, string) -> ChatOutcome,
                  parse: string -> Option<Json>)
      requires Paired(transcripts, tsukkomiHistory) && fullTranscript == FullTranscript(transcripts)
      requires 0 < chunkCounter && Numbered(transcripts, chunkCounter - 1) && lastAudioHash.Some?
      requires entry.chunk == chunkCounter && entry.text != ""
      modifies this`transcripts, this`fullTranscript, this`meetingStartTime, this`tsukkomiHistory
      ensures Valid()
      ensures transcripts == old(transcripts) + [entry]
      ensures fullTranscript == old(fullTranscript) + Line(entry)
      ensures meetingStartTime == (if old(meetingStartTime).None? then Some(now) else old(meetingStartTime))
      ensures tsukkomiHistory == old(tsukkomiHistory) +
        [HistoryFor(entry.chunk, entry.time, GenerateTsukkomi(fullTranscript, promptType, read, chat, parse))]
      ensures chunkCounter == old(chunkCounter) && lastAudioHash == old(lastAudioHash)
      ensures meetingEndTime == old(meetingEndTime) && summaryResult == old(summaryResult)
    {
      var grown := transcripts + [entry];
      var text := fullTranscript + Line(entry);
      FullTranscriptAppend(transcripts, [entry]);
      assert [entry][..0] == [];
      assert text == FullTranscript(grown);
      NumberedSnoc(transcripts, chunkCounter - 1, entry);
      var tsukkomi := GenerateTsukkomi(text, promptType, read, chat, parse);
      var h := HistoryFor(entry.chunk, entry.time, tsukkomi);
      PairedSnoc(transcripts, tsukkomiHistory, entry, h);
      transcripts, fullTranscript, tsukkomiHistory := grown, text, tsukkomiHistory + [h];
      if meetingStartTime.None? {
        meetingStartTime := Some(now);
      }
    }

    /** The summary button, disabled while the transcript is empty. */
    method Summarize(read: string -> Facilitation.PromptFile, chat: (string, string) -> ChatOutcome)
      modifies this`summaryResult
      ensures fullTranscript == "" ==> summaryResult == old(summaryResult)
      ensures fullTranscript != "" ==> summaryResult == GenerateSummary(fullTranscript, read, chat)
    {
      if fullTranscript != "" {
        summaryResult := GenerateSummary(fullTranscript, read, chat);
      }
    }

    /** The clear button resets the lists, the counter, the digest, the times
      and the summary. */
    method Clear()
      modifies this
      ensures Valid()
      ensures transcripts == [] && tsukkomiHistory == [] && fullTranscript == ""
      ensures chunkCounter == 0 && lastAudioHash == None
      ensures meetingStartTime == None && meetingEndTime == None && summaryResult == None
    {
      transcripts, tsukkomiHistory, fullTranscript := [], [], "";
      chunkCounter, lastAudioHash := 0, None;
      meetingStartTime, meetingEndTime, summaryResult := None, None, None;
    }
  }
}

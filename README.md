# OTOKO★MAE meeting assistant — a Dafny model of its decision core

The application records a meeting, transcribes it and, from time to time, asks
a language model whether a character ("OTOKO☆MAEくん", or the gentler
"OTO♡MEちゃん") should interject a *tsukkomi*. It can also summarize the
meeting on demand. There are two front ends:

* the **realtime** page (`app_realtime.py`). A worker thread streams
  microphone audio over a socket to a transcription backend
  (`services/realtime_transcription.py`). Each finished utterance goes into a
  buffer. Once per interval the whole buffer goes to the facilitation service
  (`services/facilitation.py`). Transcript lines and interjections reach the
  page through a result queue, which the page drains at every refresh.
* the **batch** page (`app.py`). Each recorded chunk is admitted by size and
  digest, transcribed, and appended to the transcript. The whole transcript is
  then sent for an interjection, which is read out of a fenced JSON block in
  the reply.

This project models the deterministic rules inside that plumbing:

* the worker loop as a state machine over poll outcomes;
* the page's session state, with its start/stop/clear/summary actions and its
  queue drain;
* the meeting clock;
* the socket's receive demultiplexer, its send loop and its recording
  lifecycle;
* the facilitation service's mode/prompt invariant, request texts and failure
  fallbacks;
* the batch page's reply interpreter (including the fence regular
  expression), chunk admission and session-state accumulators.

Everything the code gets from outside is a parameter of the model:

* the JSON decoder: `parse: string -> Option<Json>`, with `None` for a decode
  error;
* the chat backend: `ChatOutcome`, either a reply text or the text of the
  exception raised;
* prompt files: `PromptFile`;
* the socket: `ConnectOutcome`, inbound messages, and `AudioStep`s for the send
  loop;
* the audio device, the MD5 digest and transcription results;
* clocks: `now: real`, together with the stamp strings `strftime` would give.

Modules, one per source file, plus two shared ones:

| module | file | models |
|---|---|---|
| `Values` | values.dfy | Python values as decoded JSON, their truthiness, `dict.get`, the chat outcome |
| `Text` | text.dfy | the `"\n\n"` accumulator and its join form; the `\s` character class |
| `Facilitation` | facilitation.dfy | `services/facilitation.py` |
| `RealtimeTranscription` | realtime_transcription.dfy | `services/realtime_transcription.py` |
| `RealtimeWorker` | realtime_worker.dfy | `realtime_worker` in `app_realtime.py`, with its result queue and event flag |
| `RealtimeApp` | realtime_app.dfy | the page state, buttons, drain and clock of `app_realtime.py` |
| `BatchApp` | batch_app.dfy | `app.py` |

Three behaviours of the code are easy to miss, and the model keeps them:

* The worker forwards an interjection when the reply's `should_speak` is
  truthy. It does not look at the reply text (app_realtime.py:135), and a
  missing `should_speak` counts as false.
* `start_recording` sets `is_recording` before it opens the audio device, and
  the `try`/`finally` that resets the flag begins only after that. If opening
  the device fails, the flag therefore stays true
  (services/realtime_transcription.py:63-86). `StartRecording` states this.
* A reply that is truthy but not an object (a JSON list, say) makes `.get`
  raise inside the worker loop, which then ends. Such replies are the `Abort`
  verdict of `RealtimeWorker.Decide`.

## Model

| member | source | states |
|---|---|---|
| Text.JoinSnoc | app_realtime.py:115 | appending an entry to a non-empty list adds exactly one `"\n\n"` separator before it in the join |
| Text.AccumulateIsJoin | app_realtime.py:115 | for non-empty entries, the `+= ("\n\n" if acc else "") + entry` fold equals `"\n\n".join(entries)`, with no leading separator, and is empty exactly when there are no entries |
| Text.Accumulate | app_realtime.py:115 | the worker's `buffer += ("\n\n" if buffer else "") + entry`, folded over the entries from the first; its properties are AccumulateIsJoin and AccumulateSnoc |
| Text.Join | app_realtime.py:115 | the reference form `"\n\n".join(entries)` that AccumulateIsJoin and RunBufferIsJoin compare the buffer against |
| Text.AccumulateSnoc | app_realtime.py:278 | the accumulation of `entries + [e]` is one more fold step on the accumulation of `entries` |
| Facilitation.LoadPrompt | services/facilitation.py:21-28 | a missing prompt file reads as `""`, a present one as its contents |
| Facilitation.PromptFor | services/facilitation.py:19 | the OTOKO☆MAE prompt for exactly the mode name `"OTOKO☆MAEくんモード"`, the gentle prompt for every other name; the same choice `set_mode` makes (services/facilitation.py:33) |
| Facilitation.Request | services/facilitation.py:40 | the request is the prompt, then the heading `"\n\n文字起こし:\n"`, then the transcript: its length and all three slices are pinned down |
| Facilitation.TsukkomiResult | services/facilitation.py:37-53 | a failed call or an undecodable reply gives `None`; otherwise the decoded value is returned, except that JSON `null` is `None` |
| Facilitation.SummaryText | services/facilitation.py:55-68 | a reply gives its content; a failure gives `"要約生成エラー: "` followed by the error text |
| Facilitation.FacilitationService.constructor | services/facilitation.py:13-19 | loads the three prompts from their fixed paths and establishes `Valid`: the tsukkomi prompt is the OTOKO☆MAE prompt in OTOKO☆MAE mode and the gentle one otherwise |
| Facilitation.FacilitationService.SetMode | services/facilitation.py:30-33 | sets the mode and keeps `Valid`; the three loaded prompts are unchanged, so a repeated call changes nothing |
| Facilitation.FacilitationService.GenerateTsukkomi | services/facilitation.py:37-53 | for a service whose prompt in force matches its mode, returns TsukkomiResult of the backend's answer to the request built from the persona prompt the mode selects (which is the current tsukkomi prompt) |
| Facilitation.FacilitationService.GenerateSummary | services/facilitation.py:55-68 | returns SummaryText of the backend's answer to the request built from the summary prompt |
| RealtimeTranscription.Classify | services/realtime_transcription.py:112-135 | an undecodable message or any type other than the completed-transcription type gives nothing; a completed event gives `{text, item_id}` exactly when its transcript is truthy, with `item_id` `None` when missing |
| RealtimeTranscription.Demux | services/realtime_transcription.py:112-125 | the receive loop over the inbound messages: each is classified and queued when it yields an item; its properties are DemuxAppend, DemuxMembers, DemuxLength and DemuxMalformedAfterCompleted |
| RealtimeTranscription.DemuxAppend | services/realtime_transcription.py:112-125 | the queue produced by two message streams in a row is the first one's followed by the second one's: arrival order is kept |
| RealtimeTranscription.DemuxMembers | services/realtime_transcription.py:118-125 | an item is queued if and only if some message classifies to it |
| RealtimeTranscription.DemuxLength | services/realtime_transcription.py:118-125 | each message queues at most one item |
| RealtimeTranscription.DemuxMalformedAfterCompleted | services/realtime_transcription.py:132-135 | an undecodable message after a completed event is skipped and the completed item still gets queued |
| RealtimeTranscription.DeliveredPrefix | services/realtime_transcription.py:91-108 | measures the longest run of leading steps that are frames read and sent successfully |
| RealtimeTranscription.SendRun | services/realtime_transcription.py:89-108 | the send loop over the audio steps: the messages it sends and whether recording is still on afterwards; its property is SendRunSendsDeliveredPrefix, and SendAudio is proved equal to it |
| RealtimeTranscription.SendRunSendsDeliveredPrefix | services/realtime_transcription.py:89-108 | while recording on an open socket, the send loop sends one append message per frame, exactly for the successful leading run; it stops at the first failure, and otherwise only when recording ends |
| RealtimeTranscription.RealtimeTranscriptionService.constructor | services/realtime_transcription.py:24-28 | no socket, not recording, empty queue |
| RealtimeTranscription.RealtimeTranscriptionService.Connect | services/realtime_transcription.py:30-59 | the link is up exactly when the socket opened and the session update was sent; the update is the first thing sent |
| RealtimeTranscription.RealtimeTranscriptionService.SendAudio | services/realtime_transcription.py:89-108 | the loop's messages and its final recording state are those of SendRun |
| RealtimeTranscription.RealtimeTranscriptionService.ReceiveTranscription | services/realtime_transcription.py:110-135 | the queue grows by exactly Demux of the inbound messages |
| RealtimeTranscription.RealtimeTranscriptionService.StartRecording | services/realtime_transcription.py:61-87 | sets recording, runs both loops, and ends with recording false, unless the device failed to open, in which case nothing is sent and recording stays true |
| RealtimeTranscription.RealtimeTranscriptionService.GetTranscription | services/realtime_transcription.py:137-139 | items come out first in, first out |
| RealtimeTranscription.RealtimeTranscriptionService.Stop | services/realtime_transcription.py:141-146 | recording is cleared; the socket is closed once, and only if there is one |
| RealtimeWorker.Entry | app_realtime.py:111-113 | the entry is `"[stamp] text"`: it begins with `"[stamp] "`, its length is the stamp's plus three plus the text's, the stamp sits after the `[`, and the text follows the `"] "` unchanged |
| RealtimeWorker.Gate | app_realtime.py:128 | the time gate: strictly more than the interval since the last attempt, and a non-empty buffer; StepSpec states that generation is called exactly when it is open |
| RealtimeWorker.Decide | app_realtime.py:135-143 | a reply is forwarded exactly when it is an object whose `should_speak` is truthy (missing counts as false); a truthy non-object ends the loop |
| RealtimeWorker.Step | app_realtime.py:104-149 | one turn of the loop for one poll outcome; what it does is stated by StepSpec and StepPublishes, and RealtimeWorkerThread's loop is proved to take these steps |
| RealtimeWorker.StepSpec | app_realtime.py:104-149 | for one poll: a timeout changes nothing; a cleared flag or another error ends the loop; a transcription extends the buffer and enqueues its line before any interjection; generation is called exactly when the strict time gate is open and the buffer is non-empty, on the whole buffer; after an attempt the clock is the attempt's time whatever the reply was; an interjection is enqueued exactly when the reply says to speak |
| RealtimeWorker.StepPublishes | app_realtime.py:111-143 | the messages one poll enqueues, and the buffer after it |
| RealtimeWorker.Run | app_realtime.py:104-149 | the loop: Step over the polls until the worker stops or the polls run out; its properties are the Run lemmas below |
| RealtimeWorker.TranscriptsAppend | app_realtime.py:120-123 | the transcript lines of a queue are those of its parts, in order |
| RealtimeWorker.Consumed | app_realtime.py:104-149 | the number of polls the loop takes is at most the number offered |
| RealtimeWorker.RunExtendsQueue | app_realtime.py:104-149 | the loop only appends to the queue; it never removes or reorders messages |
| RealtimeWorker.RunTakesAllUnlessStopped | app_realtime.py:104-149 | the loop leaves polls untaken only after it has stopped, and a stopped worker takes none |
| RealtimeWorker.RunPublishesEveryTranscript | app_realtime.py:111-123 | one transcript line is enqueued per transcription taken, in arrival order |
| RealtimeWorker.PublishedTranscripts | app_realtime.py:111-143 | one poll enqueues its own stamped line and no other transcript |
| RealtimeWorker.RunKeepsTranscriptFirst | app_realtime.py:120-140 | every interjection in the queue comes right after a transcript line, and that line begins with `"[stamp] "` for the interjection's own stamp |
| RealtimeWorker.RunBufferIsJoin | app_realtime.py:115 | the buffer is always the `"\n\n"`-join of the transcript lines enqueued so far |
| RealtimeWorker.WorkerRunFromStart | app_realtime.py:100-149 | from the initial state: the buffer is the join of the queued lines, those lines are the stamped texts of the polls taken, and every interjection comes right after a line with its own stamp |
| RealtimeWorker.ScenarioSpeak | app_realtime.py:125-141 | with a 60 s interval and the last attempt 120 s ago, a speaking reply enqueues exactly the line and then the interjection, and the clock moves to now |
| RealtimeWorker.ScenarioSilent | app_realtime.py:125-143 | the same with `should_speak` false: only the line is enqueued, but the clock still moves to now |
| RealtimeWorker.ResultQueue.Put | app_realtime.py:120-140 | appends one message at the back |
| RealtimeWorker.ResultQueue.GetNowait | app_realtime.py:269-271 | takes the front message, or reports the queue empty |
| RealtimeWorker.RecordingFlag.Set | app_realtime.py:210 | sets the event |
| RealtimeWorker.RecordingFlag.Clear | app_realtime.py:160-161 | clears the event |
| RealtimeWorker.RealtimeWorkerThread | app_realtime.py:84-161 | on a good connection the loop's final state is Run over the polls, the result queue grows by exactly its messages, and the link is closed once; on a failed connection nothing is enqueued; either way the flag ends cleared |
| RealtimeApp.Decimal | app_realtime.py:306-313 | the decimal numeral `str(n)`: digits only, one digit exactly for values below 10, at most two below 100, and no leading zero unless it is `"0"` |
| RealtimeApp.DecimalRoundTrip | app_realtime.py:310-313 | reading the numeral back digit by digit gives the number |
| RealtimeApp.Pad2 | app_realtime.py:310-313 | `{n:02d}` is digits only, at least two of them and exactly two below 100, begins with `0` exactly when `n < 10`, and reads back as `n` |
| RealtimeApp.Truncate | app_realtime.py:305 | `int()` of a float truncates toward zero |
| RealtimeApp.ClockFields | app_realtime.py:306-308 | `hours*3600 + minutes*60 + seconds` equals the elapsed seconds; minutes and seconds lie in 0..59 |
| RealtimeApp.Clock | app_realtime.py:306-313 | `MM:SS`, or `HH:MM:SS` when hours are shown: five characters or at least eight, a colon three from the end, another six from the end when at least eight long, and digits everywhere else; the last two digits read back as the seconds, the two before the colon as the minutes, and the leading field, when shown, as the hours, being exactly the two-digit zero-padded numeral of the hours (so an hour is `01`, never `001`) |
| RealtimeApp.ClockRoundTrip | app_realtime.py:306-326 | the clock string reads back as the elapsed seconds; the hours field is shown exactly when at least an hour has passed |
| RealtimeApp.Banner | app_realtime.py:311-326 | the line is the prefix `"⏱️ **会議時間: "`, then the clock string unchanged, then `**`, and its length is exactly that plus the ` (終了)` mark, which it carries exactly when the meeting has ended |
| RealtimeApp.ElapsedDisplay | app_realtime.py:302-328 | a clock is shown exactly when the start is set and truthy and either recording is on or the end is set too; while recording it is the live duration without the mark, otherwise the frozen one with the mark |
| RealtimeApp.TsukkomiItemsAppend | app_realtime.py:281-285 | the interjections of a queue are those of its parts, in order |
| RealtimeApp.RealtimeSession.constructor | app_realtime.py:34-61 | the session defaults: OTOKO☆MAE mode, a 60 s interval, not recording, all lists empty, no times, an empty queue and a cleared flag |
| RealtimeApp.RealtimeSession.Start | app_realtime.py:207-214 | outside a recording it sets `recording` and the flag and notes the start time; during one it changes nothing |
| RealtimeApp.RealtimeSession.Stop | app_realtime.py:225-232 | during a recording it clears `recording` and the flag and notes the end time; outside one it changes nothing |
| RealtimeApp.RealtimeSession.Clear | app_realtime.py:253-260 | resets transcripts, full text, interjections, summary and both times together; keeps the recording state and the last-interjection time |
| RealtimeApp.RealtimeSession.Summarize | app_realtime.py:245-248 | with text present the summary becomes the service's summary or error text; with no text the button does nothing |
| RealtimeApp.RealtimeSession.Absorb | app_realtime.py:276-287 | one message: a transcript extends the list and the full text; an interjection extends its list and moves the clock |
| RealtimeApp.RealtimeSession.Drain | app_realtime.py:268-291 | empties the queue in order, appending its transcript lines and its interjections, keeping the full text as the accumulation of the list, and moving the last-interjection time to now when an interjection was taken |
| RealtimeApp.DrainedTextIsJoin | app_realtime.py:276-278 | for any run of the worker from its initial state, the accumulation of its published transcript lines equals their `"\n\n"`-join; the accumulation is what Drain keeps as the page's full text (through `Valid`) |
| BatchApp.FindFrom | app.py:69 | the first occurrence of a pattern at or after a position, or none at all |
| BatchApp.SkipSpace | app.py:69 | greedy `\s*`: the longest run of whitespace from a position |
| BatchApp.TrimBack | app.py:69 | the shortest lazy group before a closing fence: the start of the whitespace run that ends there |
| BatchApp.FenceMatch | app.py:69 | a found match is a match of `` ```json\s*(.*?)\s*``` `` whose group neither starts nor ends with whitespace and holds no closing fence |
| BatchApp.OpenFencesApart | app.py:69 | two occurrences of the opening fence never overlap |
| BatchApp.FenceMatchIsRegexMatch | app.py:69-74 | there is no match exactly when FenceMatch finds none; otherwise its match is the leftmost one, with the longest leading whitespace and then the shortest group, which is the match the regex engine takes |
| BatchApp.GroupTrimmed | app.py:69-71 | the extracted group is trimmed of whitespace at both ends and holds no closing fence |
| BatchApp.JsonText | app.py:69-74 | with a fence, the decoder gets the trimmed group; without one, the whole response |
| BatchApp.FencedBodyRoundTrip | app.py:69-71 | a body wrapped in a fence with any surrounding whitespace, followed by any text, is extracted back unchanged |
| BatchApp.InterpretResponse | app.py:67-94 | an undecodable or non-object payload returns the raw response; for an object whose `should_speak` (missing counts as true) is truthy, a non-object `reply` returns the raw response and a truthy `reply.tsukkomi` is returned as is; the result is empty exactly when `should_speak` is falsy or the interjection is falsy; any other result is the raw response or a truthy value |
| BatchApp.SpeaksByDefault | app.py:79-88 | without a `should_speak` key the truthy interjection is returned |
| BatchApp.PromptFileFor | app.py:48 | the OTOKO☆MAE prompt exactly for `"otokomae"`, the other prompt for anything else |
| BatchApp.GenerateTsukkomi | app.py:44-98 | an empty or missing prompt gives the fixed notice; a failed call gives nothing; a reply is read by InterpretResponse; the user message is `"会議テキスト:\n"` and the transcript |
| BatchApp.GenerateSummary | app.py:100-122 | an empty or missing prompt gives the fixed notice; a failed call gives nothing; a reply gives its content |
| BatchApp.Admit | app.py:315-325 | a chunk is processed exactly when it is non-empty, at most 24 MiB by the float test, and its digest differs from the last processed one |
| BatchApp.FullTranscript | app.py:342 | the transcript as the `"\n[time] text"` lines of the kept chunks, in order; its properties are FullTranscriptAppend and FullTranscriptFirstLine |
| BatchApp.FullTranscriptAppend | app.py:342 | the transcript grows only at its end, one `"\n[time] text"` line per chunk |
| BatchApp.FullTranscriptFirstLine | app.py:342 | the transcript opens with the first chunk's line, so it always starts with a newline |
| BatchApp.HistoryFor | app.py:353-367 | a truthy interjection becomes the entry text with `no_tsukkomi` false; otherwise `"ツッコミは不要みたい！"` with `no_tsukkomi` true |
| BatchApp.NumberedSnoc | app.py:327-341 | a transcript numbered one above the counter keeps chunk numbers strictly rising and within the counter |
| BatchApp.BatchSession.constructor | app.py:154-173 | empty lists and transcript, counter 0, no digest, no times, no summary |
| BatchApp.BatchSession.ReceiveAudio | app.py:314-370 | a refused chunk changes nothing. An admitted one stores its digest and takes the next chunk number even if transcription then fails. A non-empty transcript adds one transcript entry, one `"\n[time] text"` line and one history entry, and sets the meeting start only the first time. `Valid` is kept |
| BatchApp.BatchSession.Record | app.py:334-367 | keeps one transcribed chunk, with its history entry for the interjection on the grown transcript |
| BatchApp.BatchSession.Summarize | app.py:191-194 | with text present the summary becomes GenerateSummary of the transcript; otherwise nothing changes |
| BatchApp.BatchSession.Clear | app.py:199-209 | resets the lists, the transcript, the counter, the digest, both times and the summary |

## Left out

- Rendering is not modelled: Streamlit widgets, CSS/HTML, images, download buttons, `st.rerun`, spinners and console prints. The transcript history shown newest first (app.py:373-383) is display only.
- Decoding is an oracle parameter and is not modelled: JSON decoding, MD5 hashing, base64 encoding, and how a request body is serialized.
- The audio device, the transcription calls (`transcribe_audio`, services/transcription.py), the WebSocket and the OpenAI client appear only as their abstract outcomes. services/transcription.py and components/audio_recorder/__init__.py are not part of this model.
- Concurrency is not modelled. The worker thread, the asyncio tasks and the `threading.Event` are sequential: the poll outcomes carry the interleaving (flag cleared, timeout, transcript, error), and the sender and receiver of `start_recording` run one after the other. Task cancellation is not modelled.
- Times are exact reals, not IEEE doubles. `strftime` stamps are arbitrary strings.
- RealtimeApp.RealtimeSession.Drain: one `now` stands for every `time.time()` call within one drain.
- RealtimeWorker.Poll: the text of a delivered transcription is a string. `str()` of a non-string `text` value is not modelled.
- Facilitation.LoadPrompt: only a missing file is modelled. Other read errors propagate in the source and are not modelled.
- BatchApp.GenerateTsukkomi: a reply whose content is `None` (a `TypeError` in the regex search, which would give `None`) is not modelled, because the chat outcome always carries a string.
- The session configuration payload (services/realtime_transcription.py:42-59) is a single `SessionUpdate` message. The sidebar's interval choices and mode radio are not modelled beyond FacilitationService.SetMode and the interval parameter.
- BatchApp.Admit: the float test `len / (1024*1024) > 24` is computed as an exact real. This matches the double result for any realistic length, since the divisor is a power of two.

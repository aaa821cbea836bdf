/** The background realtime worker: for each outcome of polling the
    transcription queue it extends its buffer, publishes the transcript,
    applies the time gate, asks for an interjection and forwards it when the
    reply says to speak. */
module RealtimeWorker {
  import opened Values
  import opened Text
  import opened Facilitation
  import opened RealtimeTranscription

  /** What one turn of the `while is_recording_flag.is_set()` loop meets: the
      flag already cleared; the one-second wait timing out; a transcription
      (its text as the f-string renders it, the clock reading `HH:MM:SS`, the
      value of `time.time()`, and the backend as it would answer this turn);
      or any other exception. */
  datatype Poll =
    | FlagCleared
    | TimedOut
    | Delivered(text: string, stamp: string, now: real, complete: string -> ChatOutcome)
    | PollFailed(message: string)

  /** Messages put on the result queue. */
  datatype Message = TranscriptMsg(entry: string) | TsukkomiMsg(stamp: string, data: Json)

  /** The worker's state: its two locals, what it has put on the result queue,
      the texts it has handed to the generation call, and whether the loop is
      still going. */
  datatype Worker = Worker(lastTsukkomiTime: real, buffer: string, emitted: seq<Message>,
                           requests: seq<string>, running: bool)

  /** What the worker is started with. */
  datatype Config = Config(prompt: string, interval: int, parse: string -> Option<Json>)

  const Initial := Worker(0.0, "", [], [], true)

  /** The transcript line `"[ts] text"`. */
  function Entry(stamp: string, text: string): (e: string)
    ensures e != "" && e[0] == '['
    ensures "[" + stamp + "] " <= e
    ensures |e| == |stamp| + 3 + |text| && e[1..|stamp| + 1] == stamp && e[|stamp| + 3..] == text
  {
    "[" + stamp + "] " + text
  }

  /** The time gate: strictly more than the interval since the last attempt,
      and something to talk about. */
  predicate Gate(lastTsukkomiTime: real, now: real, interval: int, buffer: string) {
    now - lastTsukkomiTime > interval as real && buffer != ""
  }

  datatype Verdict = Forward | Skip | Abort

  /** `if tsukkomi_result and tsukkomi_result.get('should_speak', False)`: a
      missing key counts as false and the reply text is not looked at; a
      truthy result that is not an object makes `.get` raise, and the loop's
      generic handler then leaves the loop. */
  function Decide(result: Option<Json>): (v: Verdict)
    ensures v == Forward <==>
              result.Some? && result.value.JObj? && Truthy(Get(result.value.fields, "should_speak", JBool(false)))
    ensures v == Abort <==> result.Some? && !result.value.JObj? && Truthy(result.value)
    ensures result.None? ==> v == Skip
  {
    match result
    case None => Skip
    case Some(value) =>
      if !Truthy(value) then Skip
      else if value.JObj? then
        (if Truthy(Get(value.fields, "should_speak", JBool(false))) then Forward else Skip)
      else Abort
  }

  /** The text a delivered turn hands to the generation call: the buffer
      after this turn's line is added. */
  function BufferAfter(w: Worker, p: Poll): string
    requires p.Delivered?
  {
    AppendEntry(w.buffer, Entry(p.stamp, p.text))
  }

  /** Whether a turn calls the generation backend. */
  predicate Attempted(cfg: Config, w: Worker, p: Poll) {
    p.Delivered? && Gate(w.lastTsukkomiTime, p.now, cfg.interval, BufferAfter(w, p))
  }

  /** The value `generate_tsukkomi` returns on an attempting turn. */
  function Reply(cfg: Config, w: Worker, p: Poll): Option<Json>
    requires p.Delivered?
  {
    TsukkomiResult(p.complete(Request(cfg.prompt, BufferAfter(w, p))), cfg.parse)
  }

  /** Whether a turn publishes an interjection. */
  predicate Spoken(cfg: Config, w: Worker, p: Poll) {
    Attempted(cfg, w, p) && Decide(Reply(cfg, w, p)) == Forward
  }

  /** The messages one turn puts on the result queue. */
  function Published(cfg: Config, w: Worker, p: Poll): seq<Message> {
    if p.Delivered? then
      [TranscriptMsg(Entry(p.stamp, p.text))]
      + (if Spoken(cfg, w, p) then [TsukkomiMsg(p.stamp, Reply(cfg, w, p).value)] else [])
    else []
  }

  /** One turn of the worker loop. */
  function Step(cfg: Config, w: Worker, p: Poll): Worker {
    match p
    case FlagCleared => w.(running := false)
    case TimedOut => w
    case PollFailed(_) => w.(running := false)
    case Delivered(text, stamp, now, complete) =>
      var entry := Entry(stamp, text);
      var buffer := AppendEntry(w.buffer, entry);
      var emitted := w.emitted + [TranscriptMsg(entry)];
      if Gate(w.lastTsukkomiTime, now, cfg.interval, buffer) then
        var result := TsukkomiResult(complete(Request(cfg.prompt, buffer)), cfg.parse);
        var attempted := Worker(now, buffer, emitted, w.requests + [buffer], w.running);
        match Decide(result)
        case Forward => attempted.(emitted := emitted + [TsukkomiMsg(stamp, result.value)])
        case Skip => attempted
        case Abort => attempted.(running := false)
      else
        w.(buffer := buffer, emitted := emitted)
  }

  /** What one turn does: the state it leaves after each kind of poll, the
      messages it publishes, and when it calls the backend. */
  lemma StepSpec(cfg: Config, w: Worker, p: Poll)
    ensures var r := Step(cfg, w, p);
      // a timeout changes nothing; the cleared flag and any other exception end the loop
      && (p.TimedOut? ==> r == w)
      && (p.FlagCleared? || p.PollFailed? ==> r == w.(running := false))
      // a transcription extends the buffer; its line is published before any interjection
      && r.emitted == w.emitted + Published(cfg, w, p)
      && (p.Delivered? ==> r.buffer == AppendEntry(w.buffer, Entry(p.stamp, p.text)))
      // the generation call happens exactly when the gate is open, on the whole buffer
      && r.requests == w.requests + (if Attempted(cfg, w, p) then [r.buffer] else [])
      // after an attempt the clock is the attempt's time, whatever the reply; otherwise untouched
      && r.lastTsukkomiTime == (if Attempted(cfg, w, p) then p.now else w.lastTsukkomiTime)
      // an interjection is published exactly when the reply says to speak, with the reply as data
      && (Spoken(cfg, w, p) <==> Attempted(cfg, w, p) && Reply(cfg, w, p).Some? && Reply(cfg, w, p).value.JObj?
                                 && Truthy(Get(Reply(cfg, w, p).value.fields, "should_speak", JBool(false))))
      // the loop goes on unless the reply was a truthy non-object
      && (p.Delivered? ==> (r.running <==> w.running && !(Attempted(cfg, w, p) && Decide(Reply(cfg, w, p)) == Abort)))
  {
  }

  /** The part of StepSpec the run lemmas use. */
  lemma StepPublishes(cfg: Config, w: Worker, p: Poll)
    ensures Step(cfg, w, p).emitted == w.emitted + Published(cfg, w, p)
    ensures p.Delivered? ==> Step(cfg, w, p).buffer == AppendEntry(w.buffer, Entry(p.stamp, p.text))
    ensures !p.Delivered? ==> Step(cfg, w, p).buffer == w.buffer
  {
  }

  /** The loop over the polls, up to the turn that ends it. */
  function Run(cfg: Config, w: Worker, polls: seq<Poll>): Worker
    decreases |polls|
  {
    if polls == [] || !w.running then w else Run(cfg, Step(cfg, w, polls[0]), polls[1..])
  }

  /** The transcript entries among some queue messages, in order. */
  function Transcripts(msgs: seq<Message>): seq<string> {
    if msgs == [] then []
    else
      var last := msgs[|msgs| - 1];
      Transcripts(msgs[..|msgs| - 1]) + (if last.TranscriptMsg? then [last.entry] else [])
  }

  lemma TranscriptsAppend(a: seq<Message>, b: seq<Message>)
    ensures Transcripts(a + b) == Transcripts(a) + Transcripts(b)
    decreases |b|
  {
    if b == [] {
      assert a + b == a;
    } else {
      assert (a + b)[..|a + b| - 1] == a + b[..|b| - 1];
      TranscriptsAppend(a, b[..|b| - 1]);
    }
  }

  /** The number of polls the loop takes before it stops. */
  function Consumed(cfg: Config, w: Worker, polls: seq<Poll>): (n: nat)
    ensures n <= |polls|
    decreases |polls|
  {
    if polls == [] || !w.running then 0 else 1 + Consumed(cfg, Step(cfg, w, polls[0]), polls[1..])
  }

  /** The transcript lines of the delivered polls, in order. */
  function Entries(polls: seq<Poll>): seq<string> {
    if polls == [] then []
    else (if polls[0].Delivered? then [Entry(polls[0].stamp, polls[0].text)] else []) + Entries(polls[1..])
  }

  /** The worker only ever adds to the result queue. */
  lemma {:induction false} RunExtendsQueue(cfg: Config, w: Worker, polls: seq<Poll>)
    ensures var r := Run(cfg, w, polls);
            |w.emitted| <= |r.emitted| && r.emitted[..|w.emitted|] == w.emitted
    decreases |polls|
  {
    if polls != [] && w.running {
      StepPublishes(cfg, w, polls[0]);
      RunExtendsQueue(cfg, Step(cfg, w, polls[0]), polls[1..]);
    }
  }

  /** Only a turn that ends the loop leaves polls untaken. */
  lemma {:induction false} RunTakesAllUnlessStopped(cfg: Config, w: Worker, polls: seq<Poll>)
    ensures Consumed(cfg, w, polls) < |polls| ==> !Run(cfg, w, polls).running
    ensures !w.running ==> Run(cfg, w, polls) == w && Consumed(cfg, w, polls) == 0
    decreases |polls|
  {
    if polls != [] && w.running {
      RunTakesAllUnlessStopped(cfg, Step(cfg, w, polls[0]), polls[1..]);
    }
  }

  /** Queue order is arrival order: the transcript messages the worker
      publishes are the lines of the transcriptions it took, one each, none
      dropped and none repeated. */
  lemma {:induction false} RunPublishesEveryTranscript(cfg: Config, w: Worker, polls: seq<Poll>)
    ensures Transcripts(Run(cfg, w, polls).emitted)
            == Transcripts(w.emitted) + Entries(polls[..Consumed(cfg, w, polls)])
    decreases |polls|
  {
    if polls != [] && w.running {
      var p := polls[0];
      var s := Step(cfg, w, p);
      RunPublishesEveryTranscript(cfg, s, polls[1..]);
      var n := Consumed(cfg, w, polls);
      assert n == 1 + Consumed(cfg, s, polls[1..]);
      var later := Entries(polls[1..][..n - 1]);
      var own := if p.Delivered? then [Entry(p.stamp, p.text)] else [];
      assert polls[..n] == [p] + polls[1..][..n - 1];
      EntriesCons(p, polls[1..][..n - 1]);
      StepTranscripts(cfg, w, p);
      assert Run(cfg, w, polls) == Run(cfg, s, polls[1..]);
      Regroup(Transcripts(w.emitted), own, later);
    } else {
      assert polls[..Consumed(cfg, w, polls)] == [];
    }
  }

  /** One turn adds its own line, if any, to the transcript lines. */
  lemma StepTranscripts(cfg: Config, w: Worker, p: Poll)
    ensures Transcripts(Step(cfg, w, p).emitted)
            == Transcripts(w.emitted) + (if p.Delivered? then [Entry(p.stamp, p.text)] else [])
  {
    StepPublishes(cfg, w, p);
    TranscriptsAppend(w.emitted, Published(cfg, w, p));
    PublishedTranscripts(cfg, w, p);
  }

  lemma EntriesCons(p: Poll, rest: seq<Poll>)
    ensures Entries([p] + rest) == (if p.Delivered? then [Entry(p.stamp, p.text)] else []) + Entries(rest)
  {
    assert ([p] + rest)[1..] == rest;
  }

  /** A turn publishes the line of its transcription and no other line. */
  lemma PublishedTranscripts(cfg: Config, w: Worker, p: Poll)
    ensures Transcripts(Published(cfg, w, p)) == if p.Delivered? then [Entry(p.stamp, p.text)] else []
  {
    var m := Published(cfg, w, p);
    if p.Delivered? {
      var t := [TranscriptMsg(Entry(p.stamp, p.text))];
      assert t[..0] == [];
      assert Transcripts(t) == [Entry(p.stamp, p.text)];
      if Spoken(cfg, w, p) {
        assert |m| == 2 && m[..|m| - 1] == t && m[|m| - 1].TsukkomiMsg?;
      } else {
        assert m == t;
      }
    }
  }

  /** Every interjection on the queue comes straight after the transcript of
      the same turn: the line just before it carries its timestamp. */
  ghost predicate TranscriptFirst(msgs: seq<Message>) {
    forall i :: 0 <= i < |msgs| && msgs[i].TsukkomiMsg? ==>
      i > 0 && msgs[i - 1].TranscriptMsg? && "[" + msgs[i].stamp + "] " <= msgs[i - 1].entry
  }

  lemma {:induction false} RunKeepsTranscriptFirst(cfg: Config, w: Worker, polls: seq<Poll>)
    requires TranscriptFirst(w.emitted)
    ensures TranscriptFirst(Run(cfg, w, polls).emitted)
    decreases |polls|
  {
    if polls != [] && w.running {
      var p := polls[0];
      var s := Step(cfg, w, p);
      StepPublishes(cfg, w, p);
      assert TranscriptFirst(s.emitted) by {
        var m := Published(cfg, w, p);
        forall i | |w.emitted| <= i < |s.emitted| && s.emitted[i].TsukkomiMsg?
          ensures i > 0 && s.emitted[i - 1].TranscriptMsg?
          ensures "[" + s.emitted[i].stamp + "] " <= s.emitted[i - 1].entry
        {
          assert s.emitted[i] == m[i - |w.emitted|];
          assert i == |w.emitted| + 1;
          assert s.emitted[i - 1] == TranscriptMsg(Entry(p.stamp, p.text));
          assert s.emitted[i].stamp == p.stamp;
        }
        forall i | 0 <= i < |w.emitted| && s.emitted[i].TsukkomiMsg?
          ensures i > 0 && s.emitted[i - 1].TranscriptMsg?
          ensures "[" + s.emitted[i].stamp + "] " <= s.emitted[i - 1].entry
        {
          assert s.emitted[i] == w.emitted[i];
        }
      }
      RunKeepsTranscriptFirst(cfg, s, polls[1..]);
    }
  }

  /** The buffer is always the accumulation of the published transcript
      lines, hence their `"\n\n"`-join with no leading separator. */
  lemma {:induction false} RunBufferIsJoin(cfg: Config, w: Worker, polls: seq<Poll>)
    requires w.buffer == Accumulate(Transcripts(w.emitted))
    requires NonEmptyEntries(Transcripts(w.emitted))
    ensures var r := Run(cfg, w, polls);
            r.buffer == Accumulate(Transcripts(r.emitted))
            && NonEmptyEntries(Transcripts(r.emitted))
            && r.buffer == Join(Transcripts(r.emitted))
    decreases |polls|
  {
    var r := Run(cfg, w, polls);
    if polls != [] && w.running {
      var p := polls[0];
      var s := Step(cfg, w, p);
      StepPublishes(cfg, w, p);
      TranscriptsAppend(w.emitted, Published(cfg, w, p));
      PublishedTranscripts(cfg, w, p);
      if p.Delivered? {
        AccumulateSnoc(Transcripts(w.emitted), Entry(p.stamp, p.text));
      }
      RunBufferIsJoin(cfg, s, polls[1..]);
    } else {
      AccumulateIsJoin(Transcripts(r.emitted));
    }
  }

  /** From the worker's initial state: the buffer is the join of everything
      published, and every interjection follows its transcript. */
  lemma WorkerRunFromStart(cfg: Config, polls: seq<Poll>)
    ensures var r := Run(cfg, Initial, polls);
            r.buffer == Join(Transcripts(r.emitted))
            && Transcripts(r.emitted) == Entries(polls[..Consumed(cfg, Initial, polls)])
            && TranscriptFirst(r.emitted)
  {
    RunBufferIsJoin(cfg, Initial, polls);
    RunPublishesEveryTranscript(cfg, Initial, polls);
    RunKeepsTranscriptFirst(cfg, Initial, polls);
    assert Transcripts(Initial.emitted) == [];
  }

  /** A transcription two minutes after the last attempt, with a one-minute
      interval, and a reply that says to speak: one transcript line then one
      interjection carrying the reply, and the clock moves to this turn. */
  lemma ScenarioSpeak(prompt: string, text: string, stamp: string, now: real,
                      complete: string -> ChatOutcome, parse: string -> Option<Json>, content: string)
    requires complete(Request(prompt, Entry(stamp, text))) == Replied(content)
    requires parse(content) == Some(JObj(map["should_speak" := JBool(true),
                                             "reply" := JObj(map["tsukkomi" := JStr("本当に大丈夫？")]),
                                             "severity" := JNum(3.0)]))
    ensures var r := Step(Config(prompt, 60, parse), Worker(now - 120.0, "", [], [], true), Delivered(text, stamp, now, complete));
            r.emitted == [TranscriptMsg(Entry(stamp, text)), TsukkomiMsg(stamp, parse(content).value)]
            && r.lastTsukkomiTime == now && r.running
  {
    var cfg := Config(prompt, 60, parse);
    var w := Worker(now - 120.0, "", [], [], true);
    var p := Delivered(text, stamp, now, complete);
    var v := parse(content).value;
    assert BufferAfter(w, p) == Entry(stamp, text);
    assert Attempted(cfg, w, p);
    assert Reply(cfg, w, p) == Some(v);
    assert Get(v.fields, "should_speak", JBool(false)) == JBool(true);
    assert Decide(Some(v)) == Forward;
  }

  /** The same turn with a reply that declines: only the transcript line is
      published, and the clock still moves to this turn. */
  lemma ScenarioSilent(prompt: string, text: string, stamp: string, now: real,
                       complete: string -> ChatOutcome, parse: string -> Option<Json>, content: string)
    requires complete(Request(prompt, Entry(stamp, text))) == Replied(content)
    requires parse(content) == Some(JObj(map["should_speak" := JBool(false),
                                             "reply" := JObj(map["tsukkomi" := JStr("")])]))
    ensures var r := Step(Config(prompt, 60, parse), Worker(now - 120.0, "", [], [], true), Delivered(text, stamp, now, complete));
            r.emitted == [TranscriptMsg(Entry(stamp, text))] && r.lastTsukkomiTime == now && r.running
  {
    var cfg := Config(prompt, 60, parse);
    var w := Worker(now - 120.0, "", [], [], true);
    var p := Delivered(text, stamp, now, complete);
    var v := parse(content).value;
    assert BufferAfter(w, p) == Entry(stamp, text);
    assert Attempted(cfg, w, p);
    assert Reply(cfg, w, p) == Some(v);
    assert Get(v.fields, "should_speak", JBool(false)) == JBool(false);
    assert Decide(Some(v)) == Skip;
  }

  /** The result queue shared with the foreground (a `queue.Queue`). */
  class ResultQueue {
    var items: seq<Message>

    constructor ()
      ensures items == []
    {
      items := [];
    }

    method Put(m: Message)
      modifies this
      ensures items == old(items) + [m]
    {
      items := items + [m];
    }

    /** `get_nowait`: None stands for `queue.Empty`. */
    method GetNowait() returns (r: Option<Message>)
      modifies this
      ensures old(items) == [] ==> r == None && items == []
      ensures old(items) != [] ==> r == Some(old(items)[0]) && items == old(items)[1..]
    {
      if items == [] {
        r := None;
      } else {
        r := Some(items[0]);
        items := items[1..];
      }
    }
  }

  /** The `threading.Event` that tells the worker to keep going. */
  class RecordingFlag {
    var isSet: bool

    constructor ()
      ensures !isSet
    {
      isSet := false;
    }

    method Set()
      modifies this
      ensures isSet
    {
      isSet := true;
    }

    method Clear()
      modifies this
      ensures !isSet
    {
      isSet := false;
    }
  }

  /** The body of `realtime_worker`: connect, run the loop over the polls,
      then stop the link; whatever happens, the flag ends cleared. */
  method RealtimeWorkerThread(service: FacilitationService, interval: int, parse: string -> Option<Json>,
                              connect: ConnectOutcome, polls: seq<Poll>, out: ResultQueue, flag: RecordingFlag)
    returns (link: RealtimeTranscriptionService, w: Worker)
    requires service.Valid()
    modifies out, flag
    ensures fresh(link)
    ensures !flag.isSet
    ensures connect == Opened(true) ==>
              w == Run(Config(service.tsukkomiPrompt, interval, parse), Initial, polls)
              && out.items == old(out.items) + w.emitted
              && !link.isRecording && link.closeCalls == 1
    ensures connect != Opened(true) ==> w == Initial && out.items == old(out.items) && link.closeCalls == 0
  {
    link := new RealtimeTranscriptionService();
    w := Initial;
    var connected := link.Connect(connect);
    if connected {
      ghost var cfg := Config(service.tsukkomiPrompt, interval, parse);
      var lastTsukkomiTime: real := 0.0;
      var fullTextBuffer: string := "";
      var emitted: seq<Message> := [];
      var requests: seq<string> := [];
      var running := true;
      var i := 0;
      while i < |polls| && running
        invariant 0 <= i <= |polls|
        invariant out.items == old(out.items) + emitted
        invariant Run(cfg, Initial, polls)
                  == Run(cfg, Worker(lastTsukkomiTime, fullTextBuffer, emitted, requests, running), polls[i..])
        invariant link.hasSocket && !link.isRecording && link.closeCalls == 0
        decreases |polls| - i
      {
        ghost var before := Worker(lastTsukkomiTime, fullTextBuffer, emitted, requests, running);
        match polls[i] {
          case FlagCleared =>
            running := false;
          case TimedOut =>
          case PollFailed(_) =>
            running := false;
          case Delivered(text, stamp, now, complete) =>
            var entry := Entry(stamp, text);
            fullTextBuffer := AppendEntry(fullTextBuffer, entry);
            out.Put(TranscriptMsg(entry));
            emitted := emitted + [TranscriptMsg(entry)];
            if now - lastTsukkomiTime > interval as real && fullTextBuffer != "" {
              var result := service.GenerateTsukkomi(fullTextBuffer, complete, parse);
              requests := requests + [fullTextBuffer];
              lastTsukkomiTime := now;
              var verdict := Decide(result);
              if verdict == Forward {
                out.Put(TsukkomiMsg(stamp, result.value));
                emitted := emitted + [TsukkomiMsg(stamp, result.value)];
              } else if verdict == Abort {
                running := false;   // `.get` raised: caught by the generic handler, which breaks
              }
            }
        }
        assert Worker(lastTsukkomiTime, fullTextBuffer, emitted, requests, running) == Step(cfg, before, polls[i]);
        i := i + 1;
      }
      w := Worker(lastTsukkomiTime, fullTextBuffer, emitted, requests, running);
      link.isRecording := false;
      link.Stop();
    }
    flag.Clear();
  }
}

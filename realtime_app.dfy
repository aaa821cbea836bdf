/** The foreground of the realtime application: the session state the page
    keeps, its start / stop / clear / summary actions, the drain of the result
    queue, and the meeting clock shown above the transcript. */
module RealtimeApp {
  import opened Values
  import opened Text
  import opened Facilitation
  import opened RealtimeWorker

  const DefaultInterval := 60
  const BannerPrefix := "⏱️ **会議時間: "
  const BannerEnd := "**"
  const EndedSuffix := " (終了)"

  // ---------------------------------------------------------------- clock

  function Digit(d: nat): char
    requires d < 10
  {
    "0123456789"[d]
  }

  predicate IsDigit(c: char) {
    '0' <= c <= '9'
  }

  predicate AllDigits(s: string) {
    forall k :: 0 <= k < |s| ==> IsDigit(s[k])
  }

  /** The value of a decimal digit; only ever applied to digits below, since
      every numeral here is made of digits only. */
  function DigitValue(c: char): nat {
    if IsDigit(c) then (c as int) - ('0' as int) else 0
  }

  /** The decimal numeral of a natural number: digits only, and no leading
      zero unless the number is zero. */
  function Decimal(n: nat): (s: string)
    ensures 1 <= |s| && (n < 10 <==> |s| == 1)
    ensures n < 100 ==> |s| <= 2
    ensures AllDigits(s)
    ensures n >= 10 ==> s[0] != '0'
    decreases n
  {
    if n < 10 then [Digit(n)] else Decimal(n / 10) + [Digit(n % 10)]
  }

  /** Reads a numeral back, most significant digit first. */
  function ReadDecimal(s: string): nat {
    if s == [] then 0 else 10 * ReadDecimal(s[..|s| - 1]) + DigitValue(s[|s| - 1])
  }

  lemma {:induction false} DecimalRoundTrip(n: nat)
    ensures ReadDecimal(Decimal(n)) == n
    decreases n
  {
    if n >= 10 {
      var s := Decimal(n);
      assert s[..|s| - 1] == Decimal(n / 10);
      DecimalRoundTrip(n / 10);
    }
  }

  /** `f"{n:02d}"` for a non-negative n: at least two digits, all digits,
      with a leading zero exactly when n has a single digit. */
  function Pad2(n: nat): (s: string)
    ensures |s| >= 2 && (n < 100 ==> |s| == 2)
    ensures AllDigits(s)
    ensures s[0] == '0' <==> n < 10
    ensures ReadDecimal(s) == n
  {
    DecimalRoundTrip(n);
    if n < 10 then
      var s := ['0'] + Decimal(n);
      assert s[..1] == ['0'];
      s
    else Decimal(n)
  }

  /** Python's `int()` of a float: truncation toward zero. */
  function Truncate(x: real): (r: int)
    ensures 0.0 <= x ==> 0 <= r && r as real <= x < r as real + 1.0
    ensures x < 0.0 ==> r <= 0 && r as real - 1.0 < x <= r as real
  {
    if x >= 0.0 then x.Floor else -((-x).Floor)
  }

  function Hours(elapsed: int): int { elapsed / 3600 }
  function Minutes(elapsed: int): int { (elapsed % 3600) / 60 }
  function Seconds(elapsed: int): int { elapsed % 60 }

  /** The three fields the page shows add back up to the elapsed seconds,
      with minutes and seconds within a clock face (Python's `//` and `%`
      agree with these for the positive divisors used). */
  lemma ClockFields(elapsed: int)
    ensures Hours(elapsed) * 3600 + Minutes(elapsed) * 60 + Seconds(elapsed) == elapsed
    ensures 0 <= Minutes(elapsed) < 60 && 0 <= Seconds(elapsed) < 60
    ensures elapsed >= 0 ==> Hours(elapsed) >= 0
  {
    var q, r := elapsed / 3600, elapsed % 3600;
    var m, s := r / 60, r % 60;
    assert elapsed == 3600 * q + r && 0 <= r < 3600;
    assert r == 60 * m + s && 0 <= s < 60;
    assert elapsed == 60 * (60 * q + m) + s;
    assert elapsed % 60 == s;
  }

  /** The layout of a clock string: `MM:SS` or `HH:MM:SS` (the hours as wide
      as they need), that is a colon three places from the end, another six
      from the end when the hours are shown, and digits everywhere else. */
  predicate ClockShape(c: string) {
    && (|c| == 5 || |c| >= 8)
    && c[|c| - 3] == ':'
    && (|c| >= 8 ==> c[|c| - 6] == ':')
    && (forall k :: 0 <= k < |c| && k != |c| - 3 && k != |c| - 6 ==> IsDigit(c[k]))
  }

  /** The fields of a clock string read back as the given seconds, minutes
      and, when shown, hours. */
  predicate ShowsFields(c: string, h: int, m: int, s: int) {
    && |c| >= 5
    && ReadDecimal(c[|c| - 2..]) == s
    && ReadDecimal(c[|c| - 5..|c| - 3]) == m
    && (|c| >= 8 ==> ReadDecimal(c[..|c| - 6]) == h)
  }

  /** `MM:SS`, or `HH:MM:SS` when at least an hour has passed, each field
      showing its part of the elapsed seconds; the hours field is the
      two-digit zero-padded numeral, no wider than it needs. */
  function Clock(elapsed: int): (c: string)
    ensures ClockShape(c)
    ensures ShowsFields(c, Hours(elapsed), Minutes(elapsed), Seconds(elapsed))
    ensures |c| >= 8 ==> Hours(elapsed) > 0 && c[..|c| - 6] == Pad2(Hours(elapsed))
  {
    ClockFields(elapsed);
    var h, m, s := Hours(elapsed), Minutes(elapsed), Seconds(elapsed);
    if h > 0 then
      LongLayout(Pad2(h), Pad2(m), Pad2(s), h, m, s);
      Pad2(h) + ":" + Pad2(m) + ":" + Pad2(s)
    else
      ShortLayout(Pad2(m), Pad2(s), m, s);
      Pad2(m) + ":" + Pad2(s)
  }

  lemma ShortLayout(pm: string, ps: string, m: nat, s: nat)
    requires |pm| == 2 && |ps| == 2 && AllDigits(pm) && AllDigits(ps)
    requires ReadDecimal(pm) == m && ReadDecimal(ps) == s
    ensures |pm + ":" + ps| == 5
    ensures ClockShape(pm + ":" + ps) && ShowsFields(pm + ":" + ps, 0, m, s)
  {
    var c := pm + ":" + ps;
    assert c[..2] == pm;
    assert c[3..] == ps;
    forall k | 0 <= k < |c| && k != 2 ensures IsDigit(c[k]) {
      if k < 2 { assert c[k] == pm[k]; } else { assert c[k] == ps[k - 3]; }
    }
  }

  lemma LongLayout(ph: string, pm: string, ps: string, h: nat, m: nat, s: nat)
    requires |ph| >= 2 && |pm| == 2 && |ps| == 2 && AllDigits(ph) && AllDigits(pm) && AllDigits(ps)
    requires ReadDecimal(ph) == h && ReadDecimal(pm) == m && ReadDecimal(ps) == s
    ensures |ph + ":" + pm + ":" + ps| == |ph| + 6 && (ph + ":" + pm + ":" + ps)[..|ph|] == ph
    ensures ClockShape(ph + ":" + pm + ":" + ps) && ShowsFields(ph + ":" + pm + ":" + ps, h, m, s)
  {
    var c := ph + ":" + pm + ":" + ps;
    var n := |ph|;
    assert c[..n] == ph;
    assert c[n + 1..n + 3] == pm;
    assert c[n + 4..] == ps;
    forall k | 0 <= k < |c| && k != n + 3 && k != n ensures IsDigit(c[k]) {
      if k < n { assert c[k] == ph[k]; }
      else if k < n + 3 { assert c[k] == pm[k - n - 1]; }
      else { assert c[k] == ps[k - n - 4]; }
    }
  }

  /** Reads a clock string back into seconds. */
  function ReadClock(s: string): int {
    if |s| == 5 then 60 * ReadDecimal(s[..2]) + ReadDecimal(s[3..])
    else if |s| >= 8 then
      3600 * ReadDecimal(s[..|s| - 6]) + 60 * ReadDecimal(s[|s| - 5..|s| - 3]) + ReadDecimal(s[|s| - 2..])
    else 0
  }

  /** The clock loses nothing for a non-negative duration, and shows the
      hours field exactly when at least an hour has passed. */
  lemma ClockRoundTrip(elapsed: int)
    ensures elapsed >= 0 ==> ReadClock(Clock(elapsed)) == elapsed
    ensures |Clock(elapsed)| == 5 <==> Hours(elapsed) <= 0
    ensures elapsed >= 0 ==> (|Clock(elapsed)| > 5 <==> elapsed >= 3600)
  {
    ClockFields(elapsed);
    var c := Clock(elapsed);
    if Hours(elapsed) > 0 {
      assert |c| >= 8 by {
        assert c == Pad2(Hours(elapsed)) + ":" + Pad2(Minutes(elapsed)) + ":" + Pad2(Seconds(elapsed));
      }
    } else {
      assert |c| == 5 by {
        assert c == Pad2(Minutes(elapsed)) + ":" + Pad2(Seconds(elapsed));
      }
    }
  }

  /** The banner line: the prefix, the clock, the closing `**`, and for a
      finished meeting the closing mark. */
  function Banner(clock: string, ended: bool): (b: string)
    ensures |b| == |BannerPrefix| + |clock| + |BannerEnd| + (if ended then |EndedSuffix| else 0)
    ensures b[..|BannerPrefix|] == BannerPrefix
    ensures b[|BannerPrefix|..|BannerPrefix| + |clock|] == clock
    ensures b[|BannerPrefix| + |clock|..|BannerPrefix| + |clock| + |BannerEnd|] == BannerEnd
    ensures Ended(b) <==> ended
  {
    var open := BannerPrefix + clock + BannerEnd;
    var b := open + (if ended then EndedSuffix else "");
    assert ended ==> b[|b| - |EndedSuffix|..] == EndedSuffix;
    assert !ended ==> b[|b| - 1] == '*' != EndedSuffix[|EndedSuffix| - 1];
    b
  }

  predicate Ended(b: string) {
    |b| >= |EndedSuffix| && b[|b| - |EndedSuffix|..] == EndedSuffix
  }

  /** A recorded time is shown only when it is set and truthy as a float. */
  predicate IsSet(t: Option<real>) {
    t.Some? && t.value != 0.0
  }

  /** The meeting clock line: the live duration while recording, the frozen
      duration with the closing mark once stopped, nothing otherwise. */
  function ElapsedDisplay(recording: bool, start: Option<real>, end: Option<real>, now: real): (r: Option<string>)
    ensures r.Some? <==> IsSet(start) && (recording || IsSet(end))
    ensures r.Some? ==> (Ended(r.value) <==> !recording)
    ensures r.Some? && recording ==> r == Some(Banner(Clock(Truncate(now - start.value)), false))
    ensures r.Some? && !recording ==> r == Some(Banner(Clock(Truncate(end.value - start.value)), true))
  {
    if recording && IsSet(start) then Some(Banner(Clock(Truncate(now - start.value)), false))
    else if IsSet(start) && IsSet(end) then Some(Banner(Clock(Truncate(end.value - start.value)), true))
    else None
  }

  // --------------------------------------------------------------- session

  datatype TsukkomiItem = TsukkomiItem(timestamp: string, data: Json)

  /** The interjections among some queue messages, as the page lists them. */
  function TsukkomiItems(msgs: seq<Message>): seq<TsukkomiItem> {
    if msgs == [] then []
    else
      var last := msgs[|msgs| - 1];
      TsukkomiItems(msgs[..|msgs| - 1]) + (if last.TsukkomiMsg? then [TsukkomiItem(last.stamp, last.data)] else [])
  }

  lemma {:induction false} TsukkomiItemsAppend(a: seq<Message>, b: seq<Message>)
    ensures TsukkomiItems(a + b) == TsukkomiItems(a) + TsukkomiItems(b)
    decreases |b|
  {
    if b != [] {
      assert (a + b)[..|a + b| - 1] == a + b[..|b| - 1];
      TsukkomiItemsAppend(a, b[..|b| - 1]);
    } else {
      assert a + b == a;
    }
  }

  /** What a single message contributes to each list. */
  lemma OneMessage(m: Message)
    ensures Transcripts([m]) == if m.TranscriptMsg? then [m.entry] else []
    ensures TsukkomiItems([m]) == if m.TsukkomiMsg? then [TsukkomiItem(m.stamp, m.data)] else []
  {
    assert [m][..0] == [];
  }

  /** Taking the front of what is left moves it to the end of what is done. */
  lemma MoveFront(done: seq<Message>, rest: seq<Message>)
    requires rest != []
    ensures done + rest == (done + [rest[0]]) + rest[1..]
  {
    assert rest == [rest[0]] + rest[1..];
  }

  /** The page's session state for the realtime application. */
  class RealtimeSession {
    var tsukkomiMode: string
    var tsukkomiInterval: int
    var recording: bool
    var transcripts: seq<string>
    var fullText: string
    var tsukkomiList: seq<TsukkomiItem>
    var summaryResult: string
    var lastTsukkomiTime: real
    var recordingStartTime: Option<real>
    var recordingEndTime: Option<real>
    const resultQueue: ResultQueue
    const recordingFlag: RecordingFlag

    /** The full text is always the accumulation of the transcript list. */
    ghost predicate Valid()
      reads this
    {
      fullText == Accumulate(transcripts)
    }

    constructor ()
      ensures Valid()
      ensures tsukkomiMode == OtokomaeMode && tsukkomiInterval == DefaultInterval && !recording
      ensures transcripts == [] && fullText == "" && tsukkomiList == [] && summaryResult == ""
      ensures lastTsukkomiTime == 0.0 && recordingStartTime == None && recordingEndTime == None
      ensures fresh(resultQueue) && resultQueue.items == []
      ensures fresh(recordingFlag) && !recordingFlag.isSet
    {
      tsukkomiMode, tsukkomiInterval, recording := OtokomaeMode, DefaultInterval, false;
      transcripts, fullText, tsukkomiList, summaryResult := [], "", [], "";
      lastTsukkomiTime, recordingStartTime, recordingEndTime := 0.0, None, None;
      resultQueue := new ResultQueue();
      recordingFlag := new RecordingFlag();
    }

    /** The start button, shown only while not recording, sets both the page
      flag and the worker's event and notes the start time. The source also
      starts the worker thread here; that thread is modelled separately by
      RealtimeWorker.RealtimeWorkerThread. */
    method Start(now: real)
      modifies this, recordingFlag
      ensures old(recording) ==> unchanged(this) && unchanged(recordingFlag)
      ensures !old(recording) ==> recording && recordingFlag.isSet && recordingStartTime == Some(now)
      ensures transcripts == old(transcripts) && fullText == old(fullText) && tsukkomiList == old(tsukkomiList)
      ensures summaryResult == old(summaryResult) && lastTsukkomiTime == old(lastTsukkomiTime)
      ensures recordingEndTime == old(recordingEndTime)
      ensures tsukkomiMode == old(tsukkomiMode) && tsukkomiInterval == old(tsukkomiInterval)
    {
      if !recording {
        recording := true;
        recordingFlag.Set();
        recordingStartTime := Some(now);
      }
    }

    /** The stop button, shown only while recording, clears both and notes the
      end time. */
    method Stop(now: real)
      modifies this, recordingFlag
      ensures !old(recording) ==> unchanged(this) && unchanged(recordingFlag)
      ensures old(recording) ==> !recording && !recordingFlag.isSet && recordingEndTime == Some(now)
      ensures transcripts == old(transcripts) && fullText == old(fullText) && tsukkomiList == old(tsukkomiList)
      ensures summaryResult == old(summaryResult) && lastTsukkomiTime == old(lastTsukkomiTime)
      ensures recordingStartTime == old(recordingStartTime)
      ensures tsukkomiMode == old(tsukkomiMode) && tsukkomiInterval == old(tsukkomiInterval)
    {
      if recording {
        recording := false;
        recordingFlag.Clear();
        recordingEndTime := Some(now);
      }
    }

    /** The clear button empties everything shown, but leaves the recording
      state, the last interjection time and the queue alone. */
    method Clear()
      modifies this
      ensures Valid()
      ensures transcripts == [] && fullText == "" && tsukkomiList == [] && summaryResult == ""
      ensures recordingStartTime == None && recordingEndTime == None
      ensures recording == old(recording) && lastTsukkomiTime == old(lastTsukkomiTime)
      ensures tsukkomiMode == old(tsukkomiMode) && tsukkomiInterval == old(tsukkomiInterval)
    {
      transcripts, fullText, tsukkomiList, summaryResult := [], "", [], "";
      recordingStartTime, recordingEndTime := None, None;
    }

    /** The summary button, disabled while the full text is empty, stores the
      service's summary (or its error string). */
    method Summarize(service: FacilitationService, complete: string -> ChatOutcome)
      modifies this`summaryResult
      ensures fullText == "" ==> summaryResult == old(summaryResult)
      ensures fullText != "" ==> summaryResult == SummaryText(complete(Request(service.summaryPrompt, fullText)))
    {
      if fullText != "" {
        summaryResult := service.GenerateSummary(fullText, complete);
      }
    }

    /** Takes one queued message into the page state. */
    method Absorb(m: Message, now: real)
      requires Valid()
      modifies this`transcripts, this`fullText, this`tsukkomiList, this`lastTsukkomiTime
      ensures Valid()
      ensures transcripts == old(transcripts) + (if m.TranscriptMsg? then [m.entry] else [])
      ensures tsukkomiList == old(tsukkomiList) + (if m.TsukkomiMsg? then [TsukkomiItem(m.stamp, m.data)] else [])
      ensures lastTsukkomiTime == if m.TsukkomiMsg? then now else old(lastTsukkomiTime)
    {
      match m {
        case TranscriptMsg(entry) =>
          AccumulateSnoc(transcripts, entry);
          transcripts := transcripts + [entry];
          fullText := AppendEntry(fullText, entry);
        case TsukkomiMsg(stamp, data) =>
          tsukkomiList := tsukkomiList + [TsukkomiItem(stamp, data)];
          lastTsukkomiTime := now;
      }
    }

    /** The drain at each page refresh: every queued message is taken in
      order; transcripts extend the list and the full text, interjections
      extend their list and move the last interjection time to now. */
    method Drain(now: real)
      requires Valid()
      modifies this`transcripts, this`fullText, this`tsukkomiList, this`lastTsukkomiTime, resultQueue
      ensures Valid()
      ensures resultQueue.items == []
      ensures transcripts == old(transcripts) + Transcripts(old(resultQueue.items))
      ensures tsukkomiList == old(tsukkomiList) + TsukkomiItems(old(resultQueue.items))
      ensures lastTsukkomiTime == if TsukkomiItems(old(resultQueue.items)) != [] then now else old(lastTsukkomiTime)
      ensures recording == old(recording) && summaryResult == old(summaryResult)
      ensures recordingStartTime == old(recordingStartTime) && recordingEndTime == old(recordingEndTime)
      ensures tsukkomiMode == old(tsukkomiMode) && tsukkomiInterval == old(tsukkomiInterval)
    {
      ghost var consumed: seq<Message> := [];
      while resultQueue.items != []
        invariant old(resultQueue.items) == consumed + resultQueue.items
        invariant Valid()
        invariant transcripts == old(transcripts) + Transcripts(consumed)
        invariant tsukkomiList == old(tsukkomiList) + TsukkomiItems(consumed)
        invariant lastTsukkomiTime == if TsukkomiItems(consumed) != [] then now else old(lastTsukkomiTime)
        decreases |resultQueue.items|
      {
        ghost var rest := resultQueue.items;
        var got := resultQueue.GetNowait();
        var m := got.value;
        MoveFront(consumed, rest);
        ghost var shown, items := transcripts, tsukkomiList;
        Absorb(m, now);
        OneMessage(m);
        assert transcripts == shown + Transcripts([m]);
        assert tsukkomiList == items + TsukkomiItems([m]);
        TranscriptsAppend(consumed, [m]);
        TsukkomiItemsAppend(consumed, [m]);
        Regroup(old(transcripts), Transcripts(consumed), Transcripts([m]));
        Regroup(old(tsukkomiList), TsukkomiItems(consumed), TsukkomiItems([m]));
        consumed := consumed + [m];
      }
      assert consumed == old(resultQueue.items);
    }
  }

  /** Whatever the worker publishes, the page's full text, once drained
      from the start, is the `"\n\n"`-join of its transcript list. */
  lemma DrainedTextIsJoin(cfg: Config, polls: seq<Poll>)
    ensures var shown := Transcripts(Run(cfg, Initial, polls).emitted);
            Accumulate(shown) == Join(shown)
  {
    RunBufferIsJoin(cfg, Initial, polls);
    assert Transcripts(Initial.emitted) == [];
    AccumulateIsJoin(Transcripts(Run(cfg, Initial, polls).emitted));
  }
}

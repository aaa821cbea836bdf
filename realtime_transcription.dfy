/** The realtime transcription link: the socket's outbound audio stream, the
    demultiplexing of inbound events into the transcription queue, and the
    `is_recording` / socket lifecycle. */
module RealtimeTranscription {
  import opened Values

  const CompletedEventType := "conversation.item.input_audio_transcription.completed"
  const ErrorEventType := "error"

  /** An item of the transcription queue: `{'text': ..., 'timestamp': ...}`,
      the timestamp being the event's `item_id` (Python's None when absent). */
  datatype Transcription = Transcription(text: Json, timestamp: Json)

  /** Messages written to the socket. The configuration payload is fixed and
      the audio travels base64-encoded; both encodings are outside the model. */
  datatype Outbound = SessionUpdate | AppendAudio(audio: seq<bv8>)

  /** How opening the socket went: refused, or opened with the configuration
      message then sent successfully or not. */
  datatype ConnectOutcome = Refused(reason: string) | Opened(configured: bool)

  /** What one turn of the send loop meets at its `while self.is_recording`
      check and after it: another task has cleared `is_recording`; reading the
      microphone raised; or a frame was read and its send succeeded or raised. */
  datatype AudioStep = StopSeen | ReadFailed | Captured(pcm: seq<bv8>, delivered: bool)

  /** The `type` of an inbound message, as `data.get("type")` gives it; None
      when the message did not decode to an object (so `.get` would raise). */
  function TypeOf(message: Option<Json>): Option<Json> {
    if message.Some? && message.value.JObj? then Some(Get(message.value.fields, "type", JNull)) else None
  }

  /** The handling of one inbound message: a completed transcription with
      non-empty text yields one queue item; everything else is skipped. */
  function Classify(message: Option<Json>): (r: Option<Transcription>)
    ensures message.None? ==> r.None?
    ensures TypeOf(message) != Some(JStr(CompletedEventType)) ==> r.None?
    ensures r.Some? ==> Truthy(r.value.text)
    ensures TypeOf(message) == Some(JStr(CompletedEventType)) ==>
              var fields := message.value.fields;
              var text := Get(fields, "transcript", JStr(""));
              r == if Truthy(text) then Some(Transcription(text, Get(fields, "item_id", JNull))) else None
  {
    match message
    case None => None   // JSONDecodeError: logged and skipped
    case Some(data) =>
      match data
      case JObj(fields) =>
        var eventType := Get(fields, "type", JNull);
        if eventType == JStr(CompletedEventType) then
          var transcript := Get(fields, "transcript", JStr(""));
          if Truthy(transcript) then Some(Transcription(transcript, Get(fields, "item_id", JNull))) else None
        else
          None   // "error" events are only logged; other events are ignored
      case _ => None   // `.get` on a non-object raises; the exception is logged and skipped
  }

  /** The queue items a sequence of inbound messages yields, in arrival order. */
  function Demux(messages: seq<Option<Json>>): seq<Transcription> {
    if messages == [] then []
    else
      var last := Classify(messages[|messages| - 1]);
      Demux(messages[..|messages| - 1]) + (if last.Some? then [last.value] else [])
  }

  /** Demultiplexing distributes over concatenation of message streams. */
  lemma {:induction false} DemuxAppend(a: seq<Option<Json>>, b: seq<Option<Json>>)
    ensures Demux(a + b) == Demux(a) + Demux(b)
  {
    if b == [] {
      assert a + b == a;
    } else {
      var init := b[..|b| - 1];
      assert (a + b)[..|a + b| - 1] == a + init;
      assert (a + b)[|a + b| - 1] == b[|b| - 1];
      DemuxAppend(a, init);
    }
  }

  /** Nothing is invented and nothing is lost: an item is in the queue exactly
      when some message classifies to it. */
  lemma {:induction false} DemuxMembers(messages: seq<Option<Json>>, t: Transcription)
    ensures t in Demux(messages) <==> exists i :: 0 <= i < |messages| && Classify(messages[i]) == Some(t)
  {
    if messages != [] {
      var init := messages[..|messages| - 1];
      DemuxMembers(init, t);
      if exists i :: 0 <= i < |messages| && Classify(messages[i]) == Some(t) {
        var i :| 0 <= i < |messages| && Classify(messages[i]) == Some(t);
        if i < |init| {
          assert Classify(init[i]) == Some(t);
        }
      }
      if t in Demux(init) {
        var i :| 0 <= i < |init| && Classify(init[i]) == Some(t);
        assert messages[i] == init[i];
      }
    }
  }

  /** Each message yields at most one item, so the queue never grows faster
      than the stream. */
  lemma {:induction false} DemuxLength(messages: seq<Option<Json>>)
    ensures |Demux(messages)| <= |messages|
  {
    if messages != [] {
      DemuxLength(messages[..|messages| - 1]);
    }
  }

  /** One well-formed completed event followed by one undecodable message
      yields exactly that one item. */
  lemma DemuxMalformedAfterCompleted(text: string, itemId: string)
    requires text != ""
    ensures Demux([Some(JObj(map["type" := JStr(CompletedEventType), "transcript" := JStr(text), "item_id" := JStr(itemId)])), None])
            == [Transcription(JStr(text), JStr(itemId))]
  {
    var m := Some(JObj(map["type" := JStr(CompletedEventType), "transcript" := JStr(text), "item_id" := JStr(itemId)]));
    var t := Transcription(JStr(text), JStr(itemId));
    assert Get(m.value.fields, "type", JNull) == JStr(CompletedEventType);
    assert Get(m.value.fields, "transcript", JStr("")) == JStr(text);
    assert Classify(m) == Some(t);
    assert [m, None][..1] == [m];
    assert [m][..0] == [];
    assert Demux([m]) == [t];
  }

  /** `_send_audio` run over the steps it meets: the messages it sends, and
      whether `is_recording` is still set when it leaves. The loop sends one
      append message per frame while `is_recording` holds and leaves at the
      first exception, including the one a missing socket causes. */
  function SendRun(recording: bool, socket: bool, steps: seq<AudioStep>): (seq<Outbound>, bool) {
    if !recording || steps == [] then ([], recording)
    else
      match steps[0]
      case StopSeen => ([], false)
      case ReadFailed => ([], true)
      case Captured(pcm, delivered) =>
        if !socket || !delivered then ([], true)
        else
          var rest := SendRun(true, socket, steps[1..]);
          ([AppendAudio(pcm)] + rest.0, rest.1)
  }

  /** The number of leading steps that are frames read and sent successfully. */
  function DeliveredPrefix(steps: seq<AudioStep>): (k: nat)
    ensures k <= |steps|
    ensures forall i :: 0 <= i < k ==> steps[i].Captured? && steps[i].delivered
    ensures k < |steps| ==> !(steps[k].Captured? && steps[k].delivered)
  {
    if steps != [] && steps[0].Captured? && steps[0].delivered then 1 + DeliveredPrefix(steps[1..]) else 0
  }

  /** The append messages for the frames of a run of successful steps. */
  function Frames(steps: seq<AudioStep>): seq<Outbound>
    requires forall i :: 0 <= i < |steps| ==> steps[i].Captured?
  {
    if steps == [] then [] else [AppendAudio(steps[0].pcm)] + Frames(steps[1..])
  }

  /** While recording on an open socket, the loop sends exactly the frames
      before the first step that is not a successful send, in order, and
      nothing at all otherwise; it clears `is_recording` only when it stopped
      because another task had cleared it. */
  lemma {:induction false} SendRunSendsDeliveredPrefix(recording: bool, socket: bool, steps: seq<AudioStep>)
    ensures !recording || !socket ==> SendRun(recording, socket, steps).0 == []
    ensures recording && socket ==>
              SendRun(recording, socket, steps).0 == Frames(steps[..DeliveredPrefix(steps)])
    ensures !SendRun(recording, socket, steps).1 <==>
              !recording || (socket && DeliveredPrefix(steps) < |steps| && steps[DeliveredPrefix(steps)].StopSeen?)
              || (!socket && steps != [] && steps[0].StopSeen?)
  {
    if recording && steps != [] && steps[0].Captured? && steps[0].delivered && socket {
      SendRunSendsDeliveredPrefix(true, socket, steps[1..]);
      var k := DeliveredPrefix(steps);
      assert steps[..k][1..] == steps[1..][..k - 1];
    }
  }

  class RealtimeTranscriptionService {
    /** `self.websocket is not None`. */
    var hasSocket: bool
    var isRecording: bool
    /** The asyncio queue the receive loop fills, oldest item first. */
    var queue: seq<Transcription>
    /** Every message written to the socket, in order. */
    var sent: seq<Outbound>
    /** How many times `websocket.close()` has been awaited. */
    var closeCalls: nat

    constructor ()
      ensures !hasSocket && !isRecording && queue == [] && sent == [] && closeCalls == 0
    {
      hasSocket, isRecording, queue, sent, closeCalls := false, false, [], [], 0;
    }

    /** Opens the socket and sends the configuration once; `ok` is false when
      either raised. A refused connection leaves the old socket reference. */
    method Connect(outcome: ConnectOutcome) returns (ok: bool)
      modifies this`hasSocket, this`sent
      ensures ok <==> outcome == Opened(true)
      ensures hasSocket == (old(hasSocket) || outcome.Opened?)
      ensures sent == old(sent) + (if ok then [SessionUpdate] else [])
    {
      match outcome
      case Refused(_) =>
        ok := false;
      case Opened(configured) =>
        hasSocket := true;
        if configured {
          sent := sent + [SessionUpdate];
        }
        ok := configured;
    }

    /** `_send_audio` over the steps observed. */
    method SendAudio(steps: seq<AudioStep>)
      modifies this`sent, this`isRecording
      ensures sent == old(sent) + SendRun(old(isRecording), hasSocket, steps).0
      ensures isRecording == SendRun(old(isRecording), hasSocket, steps).1
    {
      var i := 0;
      while i < |steps| && isRecording
        invariant 0 <= i <= |steps|
        invariant |old(sent)| <= |sent| && sent[..|old(sent)|] == old(sent)
        invariant var run := SendRun(isRecording, hasSocket, steps[i..]);
                  var total := SendRun(old(isRecording), hasSocket, steps);
                  total.0 == sent[|old(sent)|..] + run.0 && total.1 == run.1
        decreases |steps| - i
      {
        match steps[i] {
          case StopSeen =>
            isRecording := false;   // stop() ran in another task
          case ReadFailed =>
            break;
          case Captured(pcm, delivered) =>
            if !hasSocket || !delivered {
              break;
            }
            sent := sent + [AppendAudio(pcm)];
        }
        i := i + 1;
      }
    }

    /** `_receive_transcription` over the messages the socket delivers until it
      closes; iterating a missing socket raises at once (`ok` false). */
    method ReceiveTranscription(messages: seq<Option<Json>>) returns (ok: bool)
      modifies this`queue
      ensures ok == hasSocket
      ensures queue == old(queue) + (if hasSocket then Demux(messages) else [])
    {
      if !hasSocket {
        return false;
      }
      var i := 0;
      while i < |messages|
        invariant 0 <= i <= |messages|
        invariant queue == old(queue) + Demux(messages[..i])
      {
        var item := Classify(messages[i]);
        if item.Some? {
          queue := queue + [item.value];
        }
        assert messages[..i + 1][..i] == messages[..i];
        i := i + 1;
      }
      assert messages[..i] == messages;
      ok := true;
    }

    /** `start_recording`: sets `is_recording`, opens the microphone, runs the
      send and receive loops (their interleaving is not modelled: each is run
      over its own input) and clears `is_recording` in the `finally`. The
      flag is set before the `try`, so when the device fails to open it stays
      set. */
    method StartRecording(deviceOpened: bool, steps: seq<AudioStep>, messages: seq<Option<Json>>)
      modifies this`isRecording, this`sent, this`queue
      ensures deviceOpened ==> !isRecording
      ensures deviceOpened ==> sent == old(sent) + SendRun(true, hasSocket, steps).0
      ensures deviceOpened ==> queue == old(queue) + (if hasSocket then Demux(messages) else [])
      ensures !deviceOpened ==> isRecording && sent == old(sent) && queue == old(queue)
    {
      isRecording := true;
      if !deviceOpened {
        return;   // p.open raised before the try block
      }
      SendAudio(steps);
      var _ := ReceiveTranscription(messages);
      isRecording := false;
    }

    /** `get_transcription`: the oldest item, or None while the queue is empty
      (the awaiting caller then times out). */
    method GetTranscription() returns (r: Option<Transcription>)
      modifies this`queue
      ensures old(queue) == [] ==> r == None && queue == []
      ensures old(queue) != [] ==> r == Some(old(queue)[0]) && queue == old(queue)[1..]
    {
      if queue == [] {
        r := None;
      } else {
        r := Some(queue[0]);
        queue := queue[1..];
      }
    }

    /** `stop`: clears `is_recording` and closes the socket if there is one. */
    method Stop()
      modifies this`isRecording, this`closeCalls
      ensures !isRecording
      ensures closeCalls == old(closeCalls) + (if hasSocket then 1 else 0)
    {
      isRecording := false;
      if hasSocket {
        closeCalls := closeCalls + 1;
      }
    }
  }
}

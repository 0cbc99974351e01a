/** The upstream realtime-voice protocol as the relay sees it: parsed
    messages, the client events it emits, the frames it sends, and the
    translation of one upstream message into (new audio buffer, optional
    client event).  The translation is the specification of the relay's
    message handler; the lemmas below are what it promises over a stream. */
module VoiceLive {
  import opened Bytes
  import opened Wrappers
  import Base64
  import opened WavEncoder
  import Seqs

  /** A JSON value as far as the relay inspects it.  JOther stands for numbers,
      booleans and arrays, with their raw text. */
  datatype Json = JNull | JString(str: string) | JObject(props: map<string, Json>) | JOther(text: string)

  /** One complete upstream text message: either the parser rejected it, or
      it produced a document. */
  datatype Inbound = Unparseable | Document(root: Json)

  /** The events written to the browser's event stream. */
  datatype ClientEvent =
    | SessionCreated
    | SessionUpdated
    | ResponseStarted
    | AudioResponse(audioData: Option<string>)
    | TextDelta(text: string)
    | ResponseCompleted
    | UpstreamError(error: Json)
    | ProcessingError
  {
    /** The `type` field of the serialised event. */
    function Type(): string
    {
      match this
      case SessionCreated => "session_created"
      case SessionUpdated => "session_updated"
      case ResponseStarted => "response_started"
      case AudioResponse(_) => "audio_response"
      case TextDelta(_) => "text_delta"
      case ResponseCompleted => "response_completed"
      case UpstreamError(_) => "error"
      case ProcessingError => "error"
    }
  }

  /** The frames the relay sends upstream for one typed user message. */
  datatype Frame =
    | ConversationItemCreate(role: string, text: string)
    | ResponseCreate(modalities: seq<string>, instructions: string)

  const ResponseInstructions := "Respond naturally and conversationally to the user's message."

  /** A user text turn: the message as a conversation item, then a request for
      a response in both text and audio. */
  function TextTurn(text: string): seq<Frame>
  {
    [ConversationItemCreate("user", text), ResponseCreate(["text", "audio"], ResponseInstructions)]
  }

  const SessionCreatedTag := "session.created"
  const SessionUpdatedTag := "session.updated"
  const ResponseCreatedTag := "response.created"
  const AudioDeltaTag := "response.audio.delta"
  const AudioDoneTag := "response.audio.done"
  const TextDeltaTag := "response.text.delta"
  const ResponseDoneTag := "response.done"
  const ErrorTag := "error"

  /** The relay always wraps its audio as 24 kHz, mono, 16-bit PCM. */
  const OutputSampleRate: Int32 := 24000
  const OutputChannels: Int32 := 1
  const OutputBitsPerSample: Int32 := 16

  /** What reading the `type` property yields: an exception (the message did
      not parse, its root is not an object, or `type` is missing or not a
      string), a JSON null (which matches no case of the switch), or a tag. */
  datatype Dispatch = Fault | NoType | Tag(name: string)

  function Classify(m: Inbound): (d: Dispatch)
    ensures d.Tag? || d.NoType? ==> m.Document? && m.root.JObject? && "type" in m.root.props
    ensures d.Tag? ==> m.root.props["type"] == JString(d.name)
    ensures m.Document? && m.root.JObject? && "type" in m.root.props && m.root.props["type"].JString?
            ==> d == Tag(m.root.props["type"].str)
    ensures d.NoType? <==> m.Document? && m.root.JObject? && "type" in m.root.props && m.root.props["type"].JNull?
  {
    match m
    case Unparseable => Fault
    case Document(root) =>
      if !root.JObject? || "type" !in root.props then Fault
      else match root.props["type"]
        case JString(t) => Tag(t)
        case JNull => NoType
        case _ => Fault
  }

  predicate IsTag(m: Inbound, tag: string)
  {
    Classify(m) == Tag(tag)
  }

  /** The bytes an audio delta contributes: its `delta` string decoded as
      base64, or nothing when the property is missing, null, not a string,
      empty, or not valid base64 (the decoding exception is caught). */
  function DeltaAudio(root: Json): (b: seq<Byte>)
    ensures root.JObject? && "delta" in root.props && root.props["delta"].JString?
            && Base64.Decode(root.props["delta"].str).Some?
            ==> b == Base64.Decode(root.props["delta"].str).value
    ensures root.JObject? && "delta" in root.props && root.props["delta"].JString?
            && Base64.Decode(root.props["delta"].str).None?
            ==> b == []
    ensures !(root.JObject? && "delta" in root.props && root.props["delta"].JString?) ==> b == []
  {
    if root.JObject? && "delta" in root.props && root.props["delta"].JString? && root.props["delta"].str != "" then
      match Base64.Decode(root.props["delta"].str)
      case Some(bytes) => bytes
      case None => []
    else []
  }

  /** The audio a message adds to the buffer: only audio deltas add any. */
  function AudioOf(m: Inbound): (b: seq<Byte>)
    ensures !IsTag(m, AudioDeltaTag) ==> b == []
  {
    if IsTag(m, AudioDeltaTag) then DeltaAudio(m.root) else []
  }

  /** `delta.text` of a text delta; None when `delta` or `text` is missing or
      null, when `delta` is not an object, or when `text` is not a string. */
  function TextOf(root: Json): (t: Option<string>)
    ensures t.Some? <==> root.JObject? && "delta" in root.props && root.props["delta"].JObject?
                         && "text" in root.props["delta"].props && root.props["delta"].props["text"].JString?
    ensures t.Some? ==> t.value == root.props["delta"].props["text"].str
  {
    if root.JObject? && "delta" in root.props && root.props["delta"].JObject? && "text" in root.props["delta"].props then
      match root.props["delta"].props["text"]
      case JString(s) => Some(s)
      case _ => None
    else None
  }

  /** The `audioData` of an audio_response event: null for an empty buffer,
      otherwise the base64 of the whole buffer wrapped as a WAV container. */
  function AudioPayload(buffer: seq<Byte>): (p: Option<string>)
    ensures p.None? <==> buffer == []
  {
    if |buffer| == 0 then None
    else Some(Base64.Encode(WavFile(buffer, OutputSampleRate, OutputChannels, OutputBitsPerSample)))
  }

  /** What one message does: the new audio buffer and what it outputs, if anything. */
  datatype Outcome<E> = Outcome(buffer: seq<Byte>, event: Option<E>)

  /** The controller's translation of one upstream message. */
  function Step(buffer: seq<Byte>, m: Inbound): (r: Outcome<ClientEvent>)
    ensures r.buffer == if IsTag(m, ResponseCreatedTag) then [] else buffer + AudioOf(m)
  {
    match Classify(m)
    case Fault => Outcome(buffer, Some(ProcessingError))
    case NoType => Outcome(buffer, None)
    case Tag(t) =>
      if t == SessionCreatedTag then Outcome(buffer, Some(SessionCreated))
      else if t == SessionUpdatedTag then Outcome(buffer, Some(SessionUpdated))
      else if t == ResponseCreatedTag then Outcome([], Some(ResponseStarted))
      else if t == AudioDeltaTag then Outcome(buffer + DeltaAudio(m.root), None)
      else if t == AudioDoneTag then Outcome(buffer, Some(AudioResponse(AudioPayload(buffer))))
      else if t == TextDeltaTag then
        match TextOf(m.root)
        case Some(text) => if text != "" then Outcome(buffer, Some(TextDelta(text))) else Outcome(buffer, None)
        case None => Outcome(buffer, None)
      else if t == ResponseDoneTag then Outcome(buffer, Some(ResponseCompleted))
      else if t == ErrorTag then
        if "error" in m.root.props then Outcome(buffer, Some(UpstreamError(m.root.props["error"])))
        else Outcome(buffer, Some(ProcessingError))
      else Outcome(buffer, None)
  }

  /** The tags the translator's switch names. */
  const KnownTags: set<string> := {SessionCreatedTag, SessionUpdatedTag, ResponseCreatedTag, AudioDeltaTag,
                                   AudioDoneTag, TextDeltaTag, ResponseDoneTag, ErrorTag}

  /** Exactly one error event for a message whose `type` cannot be read;
      nothing for a null `type`, an audio delta, or a tag the switch does
      not name. */
  lemma EventOfUnhandled(buffer: seq<Byte>, m: Inbound)
    ensures Classify(m).Fault? ==> Step(buffer, m).event == Some(ProcessingError)
    ensures Classify(m).NoType? ==> Step(buffer, m).event == None
    ensures IsTag(m, AudioDeltaTag) ==> Step(buffer, m).event == None
    ensures Classify(m).Tag? && Classify(m).name !in KnownTags ==> Step(buffer, m).event == None
  {
  }

  /** The fixed tags produce their fixed events (of types session_created,
      session_updated, response_started, response_completed and error). */
  lemma EventOfFixedTag(buffer: seq<Byte>, m: Inbound)
    ensures IsTag(m, SessionCreatedTag) ==> Step(buffer, m).event == Some(SessionCreated)
    ensures IsTag(m, SessionUpdatedTag) ==> Step(buffer, m).event == Some(SessionUpdated)
    ensures IsTag(m, ResponseCreatedTag) ==> Step(buffer, m).event == Some(ResponseStarted)
    ensures IsTag(m, ResponseDoneTag) ==> Step(buffer, m).event == Some(ResponseCompleted)
    ensures IsTag(m, ErrorTag) ==> Step(buffer, m).event.Some? && Step(buffer, m).event.value.Type() == "error"
  {
  }

  /** A text delta produces a text event exactly when it carries non-empty text. */
  lemma EventOfTextDelta(buffer: seq<Byte>, m: Inbound)
    requires IsTag(m, TextDeltaTag)
    ensures Step(buffer, m).event.Some? <==> TextOf(m.root).Some? && TextOf(m.root).value != ""
    ensures Step(buffer, m).event.Some? ==> Step(buffer, m).event == Some(TextDelta(TextOf(m.root).value))
  {
  }

  function Emitted<E>(e: Option<E>): seq<E>
  {
    if e.Some? then [e.value] else []
  }

  /** The buffer and the outputs after a sequence of messages, in arrival order. */
  datatype Trace<E> = Trace(buffer: seq<Byte>, events: seq<E>)

  /** Feeds the messages, in order, to a per-message handler. */
  function RunWith<E>(step: (seq<Byte>, Inbound) -> Outcome<E>, buffer: seq<Byte>, ms: seq<Inbound>): Trace<E>
    decreases |ms|
  {
    if ms == [] then Trace(buffer, [])
    else
      var o := step(buffer, ms[0]);
      var rest := RunWith(step, o.buffer, ms[1..]);
      Trace(rest.buffer, Emitted(o.event) + rest.events)
  }

  /** The controller over a message stream. */
  function Run(buffer: seq<Byte>, ms: seq<Inbound>): Trace<ClientEvent>
  {
    RunWith(Step, buffer, ms)
  }

  /** The concatenation of the audio the messages carry, in order. */
  function Audio(ms: seq<Inbound>): seq<Byte>
    decreases |ms|
  {
    if ms == [] then [] else AudioOf(ms[0]) + Audio(ms[1..])
  }

  predicate NoResponseCreated(ms: seq<Inbound>)
  {
    forall i :: 0 <= i < |ms| ==> !IsTag(ms[i], ResponseCreatedTag)
  }

  /** A handler that treats the audio buffer as the relay does: response.created
      empties it, an audio delta appends its audio, nothing else touches it. */
  ghost predicate KeepsTurnAudio<E>(step: (seq<Byte>, Inbound) -> Outcome<E>)
  {
    forall buffer, m :: step(buffer, m).buffer == if IsTag(m, ResponseCreatedTag) then [] else buffer + AudioOf(m)
  }

  lemma ControllerKeepsTurnAudio()
    ensures KeepsTurnAudio(Step)
  {
  }

  /** Running two stretches one after the other is running their concatenation. */
  lemma {:induction false} RunAppend<E>(step: (seq<Byte>, Inbound) -> Outcome<E>, buffer: seq<Byte>, xs: seq<Inbound>, ys: seq<Inbound>)
    ensures var mid := RunWith(step, buffer, xs);
      RunWith(step, buffer, xs + ys) == Trace(RunWith(step, mid.buffer, ys).buffer, mid.events + RunWith(step, mid.buffer, ys).events)
    decreases |xs|
  {
    if xs == [] {
      assert xs + ys == ys;
    } else {
      Seqs.AppendCons(xs, ys);
      RunAppend(step, step(buffer, xs[0]).buffer, xs[1..], ys);
    }
  }

  /** response.created empties the buffer and starts a response. */
  lemma CreatedStartsTurn(buffer: seq<Byte>, m: Inbound)
    requires IsTag(m, ResponseCreatedTag)
    ensures Step(buffer, m) == Outcome([], Some(ResponseStarted))
  {
  }

  /** An audio delta appends its decoded audio and emits nothing. */
  lemma DeltaAppendsAudio(buffer: seq<Byte>, m: Inbound)
    requires IsTag(m, AudioDeltaTag)
    ensures Step(buffer, m) == Outcome(buffer + DeltaAudio(m.root), None)
  {
  }

  /** response.audio.done sends the whole buffer and keeps it. */
  lemma AudioDoneDeliversBuffer(buffer: seq<Byte>, m: Inbound)
    requires IsTag(m, AudioDoneTag)
    ensures Step(buffer, m) == Outcome(buffer, Some(AudioResponse(AudioPayload(buffer))))
  {
  }

  /** Within a turn the buffer is what it was plus every delta's audio, in
      arrival order. */
  lemma {:induction false} AccumulateWithinTurn<E>(step: (seq<Byte>, Inbound) -> Outcome<E>, buffer: seq<Byte>, ms: seq<Inbound>)
    requires KeepsTurnAudio(step)
    requires NoResponseCreated(ms)
    ensures RunWith(step, buffer, ms).buffer == buffer + Audio(ms)
    decreases |ms|
  {
    if ms != [] {
      assert !IsTag(ms[0], ResponseCreatedTag);
      assert step(buffer, ms[0]).buffer == buffer + AudioOf(ms[0]);
      AccumulateWithinTurn(step, buffer + AudioOf(ms[0]), ms[1..]);
      assert Audio(ms) == AudioOf(ms[0]) + Audio(ms[1..]);
      Seqs.AppendAssoc(buffer, AudioOf(ms[0]), Audio(ms[1..]));
    } else {
      assert buffer + [] == buffer;
    }
  }

  /** No audio crosses a turn boundary: whatever came before, after a
      response.created the buffer holds exactly the audio of the deltas that
      followed it. */
  lemma NoCrossTurnAudio<E>(step: (seq<Byte>, Inbound) -> Outcome<E>, buffer: seq<Byte>, before: seq<Inbound>, created: Inbound, ms: seq<Inbound>)
    requires KeepsTurnAudio(step)
    requires IsTag(created, ResponseCreatedTag)
    requires NoResponseCreated(ms)
    ensures RunWith(step, buffer, before + [created] + ms).buffer == Audio(ms)
  {
    var mid := RunWith(step, buffer, before).buffer;
    RunAppend(step, buffer, before, [created] + ms);
    assert before + [created] + ms == before + ([created] + ms);
    RunAppend(step, mid, [created], ms);
    assert step(mid, created).buffer == [];
    AccumulateWithinTurn(step, [], ms);
  }

  /** A run over a single message is that message's outcome. */
  lemma RunOne<E>(step: (seq<Byte>, Inbound) -> Outcome<E>, buffer: seq<Byte>, m: Inbound)
    ensures RunWith(step, buffer, [m]) == Trace(step(buffer, m).buffer, Emitted(step(buffer, m).event))
  {
    assert [m][1..] == [];
  }

  /** A whole turn: response.created, then any messages other than a new
      response.created, then response.audio.done.  The client sees
      response_started, the events of the middle messages, and one
      audio_response whose payload is built from exactly the concatenated
      delta audio; the buffer is left holding that audio. */
  lemma TurnDeliversAudio(buffer: seq<Byte>, created: Inbound, ms: seq<Inbound>, done: Inbound)
    requires IsTag(created, ResponseCreatedTag) && IsTag(done, AudioDoneTag)
    requires NoResponseCreated(ms)
    ensures Run(buffer, [created] + ms + [done])
         == Trace(Audio(ms), [ResponseStarted] + Run([], ms).events + [AudioResponse(AudioPayload(Audio(ms)))])
  {
    var middle := Run([], ms);
    ControllerKeepsTurnAudio();
    AccumulateWithinTurn(Step, [], ms);
    assert middle.buffer == Audio(ms);
    CreatedStartsTurn(buffer, created);
    RunOne(Step, buffer, created);
    AudioDoneDeliversBuffer(Audio(ms), done);
    RunOne(Step, Audio(ms), done);
    RunAppend(Step, buffer, [created], ms);
    RunAppend(Step, buffer, [created] + ms, [done]);
  }

  /** Audio deltas are silent: a stretch of them emits no event. */
  lemma {:induction false} DeltasAreSilent(buffer: seq<Byte>, ms: seq<Inbound>)
    requires forall i :: 0 <= i < |ms| ==> IsTag(ms[i], AudioDeltaTag)
    ensures Run(buffer, ms).events == []
    decreases |ms|
  {
    if ms != [] {
      assert Step(buffer, ms[0]).event == None;
      DeltasAreSilent(Step(buffer, ms[0]).buffer, ms[1..]);
    }
  }

  /** The payload of an audio_response decodes, as base64 and then as a WAV
      container, to a 24 kHz mono 16-bit PCM header (byte rate 48000, block
      align 2) and exactly the buffered bytes. */
  lemma AudioPayloadRoundTrip(buffer: seq<Byte>)
    requires 0 < |buffer| < 0x8000_0000
    ensures AudioPayload(buffer).Some?
    ensures Base64.Decode(AudioPayload(buffer).value).Some?
    ensures ParseWav(Base64.Decode(AudioPayload(buffer).value).value)
         == Some(WavInfo(FormatPcm, 1, 24000, 48000, 2, 16, buffer))
  {
    var wav := WavFile(buffer, OutputSampleRate, OutputChannels, OutputBitsPerSample);
    Base64.DecodeEncode(wav);
    VoiceFormatHeader(buffer, OutputSampleRate, OutputChannels, OutputBitsPerSample);
  }
}

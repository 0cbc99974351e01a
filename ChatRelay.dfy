/** The chat controller's single-user relay state: the upstream socket, the
    audio buffer, the speech recognizer and the recording flag, all static
    fields shared by every request, and the handlers that change them. */
module ChatRelay {
  import opened Bytes
  import opened Wrappers
  import Base64
  import opened WavEncoder
  import opened VoiceLive
  import Seqs

  /** What the relay knows of the upstream socket: whether it is open. */
  datatype Socket = Socket(isOpen: bool)

  /** The HTTP result of an endpoint. */
  datatype Reply = Ok | BadRequest

  /** WebSocket message types. */
  datatype FrameKind = TextFrame | BinaryFrame | CloseFrame

  /** One received WebSocket fragment: its message type, its text and whether
      it ends the message. */
  datatype Fragment = Fragment(kind: FrameKind, text: string, endOfMessage: bool)

  /** One reassembled message: the type reported with its last fragment and the
      concatenated text of its fragments. */
  datatype Message = Message(kind: FrameKind, text: string)

  /** Reassembles fragments into whole messages; `pending` is the text of the
      fragments of the current message received so far.  A message that never
      ends is never delivered. */
  function Reassemble(frags: seq<Fragment>, pending: string): seq<Message>
    decreases |frags|
  {
    if frags == [] then []
    else if frags[0].endOfMessage then [Message(frags[0].kind, pending + frags[0].text)] + Reassemble(frags[1..], "")
    else Reassemble(frags[1..], pending + frags[0].text)
  }

  /** The texts of the fragments, concatenated in arrival order. */
  function Texts(frags: seq<Fragment>): string
    decreases |frags|
  {
    if frags == [] then "" else frags[0].text + Texts(frags[1..])
  }

  /** Fragments of which only the last ends a message make exactly one
      message: the type of the last fragment and all their texts in order. */
  lemma {:induction false} ReassembleOneMessage(frags: seq<Fragment>, pending: string)
    requires frags != [] && frags[|frags| - 1].endOfMessage
    requires forall i :: 0 <= i < |frags| - 1 ==> !frags[i].endOfMessage
    ensures Reassemble(frags, pending) == [Message(frags[|frags| - 1].kind, pending + Texts(frags))]
    decreases |frags|
  {
    if |frags| == 1 {
      assert frags[1..] == [];
      assert Reassemble(frags[1..], "") == [] && Texts(frags[1..]) == "";
      assert Texts(frags) == frags[0].text;
    } else {
      var rest := frags[1..];
      assert rest[|rest| - 1] == frags[|frags| - 1];
      ReassembleOneMessage(rest, pending + frags[0].text);
      Seqs.AppendAssoc(pending, frags[0].text, Texts(rest));
    }
  }

  /** The texts of the text messages, up to the first close message. */
  function Forwarded(msgs: seq<Message>): seq<string>
    decreases |msgs|
  {
    if msgs == [] || msgs[0].kind == CloseFrame then []
    else if msgs[0].kind == TextFrame then [msgs[0].text] + Forwarded(msgs[1..])
    else Forwarded(msgs[1..])
  }

  function ParseAll(parse: string -> Inbound, texts: seq<string>): (ms: seq<Inbound>)
    ensures |ms| == |texts|
    ensures forall i :: 0 <= i < |texts| ==> ms[i] == parse(texts[i])
    decreases |texts|
  {
    if texts == [] then [] else [parse(texts[0])] + ParseAll(parse, texts[1..])
  }

  /** The upstream messages the event stream hands to the translator. */
  function Inbox(parse: string -> Inbound, frags: seq<Fragment>): seq<Inbound>
  {
    ParseAll(parse, Forwarded(Reassemble(frags, "")))
  }

  /** One fragment's worth of reassembly. */
  lemma ReassembleStep(frags: seq<Fragment>, i: nat, pending: string)
    requires i < |frags|
    ensures Reassemble(frags[i..], pending)
         == if frags[i].endOfMessage then [Message(frags[i].kind, pending + frags[i].text)] + Reassemble(frags[i + 1..], "")
            else Reassemble(frags[i + 1..], pending + frags[i].text)
  {
    assert frags[i..][0] == frags[i] && frags[i..][1..] == frags[i + 1..];
  }

  /** A text message at the front of the stream is handed on, then the rest. */
  lemma InboxText(parse: string -> Inbound, rest: seq<Message>, text: string)
    ensures ParseAll(parse, Forwarded([Message(TextFrame, text)] + rest))
         == [parse(text)] + ParseAll(parse, Forwarded(rest))
  {
    assert ([Message(TextFrame, text)] + rest)[1..] == rest;
    var texts := [text] + Forwarded(rest);
    assert texts[1..] == Forwarded(rest);
  }

  /** A binary message at the front of the stream is skipped. */
  lemma InboxBinary(rest: seq<Message>, text: string)
    ensures Forwarded([Message(BinaryFrame, text)] + rest) == Forwarded(rest)
  {
    assert ([Message(BinaryFrame, text)] + rest)[1..] == rest;
  }

  /** A close message at the front of the stream ends it. */
  lemma InboxClose(rest: seq<Message>, text: string)
    ensures Forwarded([Message(CloseFrame, text)] + rest) == []
  {
  }

  /** A run over `m` and then `ms` is m's step followed by a run over `ms`. */
  lemma RunCons(buffer: seq<Byte>, m: Inbound, ms: seq<Inbound>)
    ensures var o := Step(buffer, m);
      Run(buffer, [m] + ms) == Trace(Run(o.buffer, ms).buffer, Emitted(o.event) + Run(o.buffer, ms).events)
  {
    assert ([m] + ms)[0] == m && ([m] + ms)[1..] == ms;
  }

  /** The do-while receive loop of the event stream: appends the text of each
      fragment from `from` on until one ends the message.  Returns the type
      reported with the last fragment, the whole text, whether the message
      ended, and where the next message starts; when the fragments run out
      first, `endOfMessage` is false and nothing is left. */
  method ReceiveMessage(frags: seq<Fragment>, from: nat) returns (kind: FrameKind, wholeMessage: string, endOfMessage: bool, next: nat)
    requires from < |frags|
    ensures from < next <= |frags|
    ensures endOfMessage ==> Reassemble(frags[from..], "") == [Message(kind, wholeMessage)] + Reassemble(frags[next..], "")
    ensures !endOfMessage ==> next == |frags| && Reassemble(frags[from..], "") == []
  {
    wholeMessage := "";
    kind := TextFrame;
    endOfMessage := false;
    next := from;
    while !endOfMessage && next < |frags|
      invariant from <= next <= |frags|
      invariant endOfMessage ==> from < next
      invariant Reassemble(frags[from..], "")
             == if endOfMessage then [Message(kind, wholeMessage)] + Reassemble(frags[next..], "")
                else Reassemble(frags[next..], wholeMessage)
    {
      ReassembleStep(frags, next, wholeMessage);
      var result := frags[next];
      wholeMessage := wholeMessage + result.text;
      kind := result.kind;
      endOfMessage := result.endOfMessage;
      next := next + 1;
    }
    if !endOfMessage {
      assert frags[next..] == [];
    }
  }

  /** `total` is what is already out (`events`, leaving `buffer`) followed by a
      run over the messages still `pending`. */
  predicate Continues(total: Trace<ClientEvent>, buffer: seq<Byte>, events: seq<ClientEvent>, pending: seq<Inbound>)
  {
    var r := Run(buffer, pending);
    total == Trace(r.buffer, events + r.events)
  }

  /** Handling the next pending message keeps the account. */
  lemma Advance(total: Trace<ClientEvent>, buffer: seq<Byte>, events: seq<ClientEvent>, m: Inbound, pending: seq<Inbound>)
    requires Continues(total, buffer, events, [m] + pending)
    ensures var o := Step(buffer, m);
      Continues(total, o.buffer, events + Emitted(o.event), pending)
  {
    var o := Step(buffer, m);
    RunCons(buffer, m, pending);
    Seqs.AppendAssoc(events, Emitted(o.event), Run(o.buffer, pending).events);
  }

  class Relay {
    /** `_currentWebSocket`: None when null. */
    var socket: Option<Socket>
    /** `_audioBuffer`. */
    var audioBuffer: seq<Byte>
    /** `_speechRecognizer != null`. */
    var hasRecognizer: bool
    /** `_isRecording`. */
    var isRecording: bool
    /** Every frame sent upstream so far, in order. */
    var sent: seq<Frame>

    /** Recording is only ever on while a recognizer exists. */
    predicate Valid()
      reads this
    {
      isRecording ==> hasRecognizer
    }

    /** The static initialisers: no socket, an empty buffer, no recognizer. */
    constructor ()
      ensures Valid()
      ensures socket == None && audioBuffer == [] && !hasRecognizer && !isRecording && sent == []
    {
      socket := None;
      audioBuffer := [];
      hasRecognizer := false;
      isRecording := false;
      sent := [];
    }

    /** Appends the decoded `delta` of an audio delta; a missing, null, empty,
        non-string or undecodable delta appends nothing (the exception is
        caught). */
    method HandleAudioDelta(root: Json)
      modifies this`audioBuffer
      ensures audioBuffer == old(audioBuffer) + DeltaAudio(root)
    {
      if root.JObject? && "delta" in root.props {
        var delta := root.props["delta"];
        if delta.JString? && delta.str != "" {
          var decoded := Base64.Decode(delta.str);
          if decoded.Some? {
            audioBuffer := audioBuffer + decoded.value;
          }
        }
      }
    }

    /** The `audioData` of an audio_response: null for an empty buffer,
        otherwise the base64 text of the buffer wrapped as 24 kHz mono 16-bit
        WAV. */
    method ProcessAggregatedAudio() returns (audioData: Option<string>)
      ensures audioData == AudioPayload(audioBuffer)
      ensures audioData.None? <==> audioBuffer == []
      ensures audioData.Some? ==> Base64.Decode(audioData.value) == Some(WavFile(audioBuffer, 24000, 1, 16))
    {
      if |audioBuffer| == 0 {
        return None;
      }
      var wavData := CreateWavFile(audioBuffer, OutputSampleRate, OutputChannels, OutputBitsPerSample);
      audioData := Some(Base64.Encode(wavData));
      Base64.DecodeEncode(wavData);
    }

    /** Translates one upstream message into the event for the browser, if
        any, updating the audio buffer on the way. */
    method ProcessVoiceLiveMessage(m: Inbound) returns (event: Option<ClientEvent>)
      modifies this`audioBuffer
      ensures Outcome(audioBuffer, event) == Step(old(audioBuffer), m)
    {
      var d := Classify(m);
      if d.Fault? {
        return Some(ProcessingError);
      } else if d.NoType? {
        return None;
      }
      var messageType := d.name;
      if messageType == SessionCreatedTag {
        event := Some(SessionCreated);
      } else if messageType == SessionUpdatedTag {
        event := Some(SessionUpdated);
      } else if messageType == ResponseCreatedTag {
        audioBuffer := [];
        event := Some(ResponseStarted);
      } else if messageType == AudioDeltaTag {
        HandleAudioDelta(m.root);
        event := None;
      } else if messageType == AudioDoneTag {
        var audioData := ProcessAggregatedAudio();
        event := Some(AudioResponse(audioData));
      } else if messageType == TextDeltaTag {
        var textDelta := TextOf(m.root);
        if textDelta.Some? && textDelta.value != "" {
          event := Some(TextDelta(textDelta.value));
        } else {
          event := None;
        }
      } else if messageType == ResponseDoneTag {
        event := Some(ResponseCompleted);
      } else if messageType == ErrorTag {
        if "error" in m.root.props {
          event := Some(UpstreamError(m.root.props["error"]));
        } else {
          event := Some(ProcessingError);
        }
      } else {
        event := None;
      }
    }

    /** `SendTextMessage`: the user's text as a conversation item, then a
        request for a text-and-audio response.  A send that throws ends the
        method (the exception is caught), so later frames are not sent. */
    method SendTextMessage(text: string, firstSends: bool, secondSends: bool)
      modifies this`sent
      ensures firstSends && secondSends ==> sent == old(sent) + TextTurn(text)
      ensures firstSends && !secondSends ==> sent == old(sent) + TextTurn(text)[..1]
      ensures !firstSends ==> sent == old(sent)
    {
      if !firstSends {
        return;
      }
      sent := sent + [ConversationItemCreate("user", text)];
      if !secondSends {
        return;
      }
      sent := sent + [ResponseCreate(["text", "audio"], ResponseInstructions)];
    }

    /** The send-message endpoint: refused unless the socket is open. */
    method SendMessage(text: string, firstSends: bool, secondSends: bool) returns (reply: Reply)
      modifies this`sent
      ensures reply == Ok <==> socket.Some? && socket.value.isOpen
      ensures reply == BadRequest ==> sent == old(sent)
      ensures reply == Ok && firstSends && secondSends ==> sent == old(sent) + TextTurn(text)
      ensures reply == Ok && firstSends && !secondSends ==> sent == old(sent) + TextTurn(text)[..1]
      ensures reply == Ok && !firstSends ==> sent == old(sent)
    {
      if socket.None? || !socket.value.isOpen {
        return BadRequest;
      }
      SendTextMessage(text, firstSends, secondSends);
      reply := Ok;
    }

    /** The toggle-voice endpoint.  `callSucceeds` is whether the recognizer's
        start or stop call returns normally. */
    method ToggleVoiceRecording(callSucceeds: bool) returns (reply: Reply)
      requires Valid()
      modifies this`isRecording
      ensures Valid()
      ensures !hasRecognizer ==> reply == BadRequest && isRecording == old(isRecording)
      ensures hasRecognizer ==> isRecording == (!old(isRecording) && callSucceeds)
      ensures hasRecognizer ==> (reply == Ok <==> callSucceeds)
    {
      if !hasRecognizer {
        return BadRequest;
      }
      if !isRecording {
        if callSucceeds {
          isRecording := true;
          reply := Ok;
        } else {
          isRecording := false;
          reply := BadRequest;
        }
      } else {
        if callSucceeds {
          isRecording := false;
          reply := Ok;
        } else {
          isRecording := false;
          reply := BadRequest;
        }
      }
    }

    /** Stops recording and drops the recognizer, closes and drops the socket,
        and empties the buffer.  `stopSucceeds` and `closeSucceeds` say whether
        the recognizer's stop call and the socket's close call return normally;
        a call that throws ends the cleanup there (the exception propagates),
        so `completed` is false and the later steps do not happen. */
    method CleanupResources(stopSucceeds: bool, closeSucceeds: bool) returns (completed: bool)
      requires Valid()
      modifies this`socket, this`audioBuffer, this`hasRecognizer, this`isRecording
      ensures Valid()
      ensures var stopFails := old(hasRecognizer) && old(isRecording) && !stopSucceeds;
              var closeFails := old(socket) == Some(Socket(true)) && !closeSucceeds;
              completed <==> !stopFails && !closeFails
      ensures completed ==> socket == None && audioBuffer == [] && !isRecording && !hasRecognizer
      ensures old(hasRecognizer) && old(isRecording) && !stopSucceeds ==>
                socket == old(socket) && audioBuffer == old(audioBuffer) && hasRecognizer && isRecording
      ensures !completed ==> audioBuffer == old(audioBuffer) && socket == old(socket)
      ensures !(old(hasRecognizer) && old(isRecording) && !stopSucceeds) ==> !hasRecognizer && !isRecording
    {
      if hasRecognizer {
        if isRecording {
          if !stopSucceeds {
            return false;
          }
          isRecording := false;
        }
        hasRecognizer := false;
      }
      if socket.Some? {
        if socket.value.isOpen && !closeSucceeds {
          return false;
        }
        socket := None;
      }
      audioBuffer := [];
      completed := true;
    }

    /** The disconnect endpoint: Ok exactly when the cleanup completes. */
    method DisconnectFromVoiceLive(stopSucceeds: bool, closeSucceeds: bool) returns (reply: Reply)
      requires Valid()
      modifies this`socket, this`audioBuffer, this`hasRecognizer, this`isRecording
      ensures Valid()
      ensures reply == Ok <==>
                (!(old(hasRecognizer) && old(isRecording) && !stopSucceeds)
                 && !(old(socket) == Some(Socket(true)) && !closeSucceeds))
      ensures reply == Ok ==> socket == None && audioBuffer == [] && !isRecording && !hasRecognizer
      ensures reply == BadRequest ==> audioBuffer == old(audioBuffer) && socket == old(socket)
      ensures !(old(hasRecognizer) && old(isRecording) && !stopSucceeds) ==> !hasRecognizer && !isRecording
    {
      var completed := CleanupResources(stopSucceeds, closeSucceeds);
      reply := if completed then Ok else BadRequest;
    }

    /** The event-stream endpoint, over the fragments the upstream socket
        delivers.  Each message is received fragment by fragment until one
        ends it; a text message is translated and its event, if any, written
        to the stream; a close message ends the stream; a binary message is
        skipped.  When the fragments run out the pending receive is cancelled
        and the stream ends.  `parse` stands for JsonDocument.Parse. */
    method StreamMessages(frags: seq<Fragment>, parse: string -> Inbound) returns (events: seq<ClientEvent>)
      modifies this`audioBuffer
      ensures old(socket) == Some(Socket(true)) ==>
                var r := Run(old(audioBuffer), Inbox(parse, frags));
                events == r.events && audioBuffer == r.buffer
      ensures old(socket) != Some(Socket(true)) ==> events == [] && audioBuffer == old(audioBuffer)
    {
      if socket != Some(Socket(true)) {
        return [];
      }
      ghost var total := Run(audioBuffer, Inbox(parse, frags));
      ghost var pending := Inbox(parse, frags);
      events := [];
      var i := 0;
      var closed := false;
      assert frags[0..] == frags;
      while i < |frags| && !closed
        invariant 0 <= i <= |frags|
        invariant Continues(total, audioBuffer, events, pending)
        invariant !closed ==> pending == Inbox(parse, frags[i..])
        invariant closed ==> pending == []
        decreases |frags| - i, if closed then 0 else 1
      {
        ghost var start := i;
        var kind, wholeMessage, endOfMessage;
        kind, wholeMessage, endOfMessage, i := ReceiveMessage(frags, i);
        ghost var rest := Reassemble(frags[i..], "");
        if !endOfMessage {
          // The fragments ran out inside a message: nothing more is delivered.
          assert frags[i..] == [];
        } else if kind == TextFrame {
          InboxText(parse, rest, wholeMessage);
          assert pending == [parse(wholeMessage)] + Inbox(parse, frags[i..]);
          Advance(total, audioBuffer, events, parse(wholeMessage), Inbox(parse, frags[i..]));
          var event := ProcessVoiceLiveMessage(parse(wholeMessage));
          events := events + Emitted(event);
          pending := Inbox(parse, frags[i..]);
        } else if kind == CloseFrame {
          InboxClose(rest, wholeMessage);
          assert pending == [];
          closed := true;
        } else {
          InboxBinary(rest, wholeMessage);
          assert pending == Inbox(parse, frags[i..]);
        }
      }
      assert pending == [];
    }
  }
}

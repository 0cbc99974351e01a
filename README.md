# VoiceLiveApi.Web relay core, modelled in Dafny

VoiceLiveApi.Web relays a chat between a browser (or a console) and a
realtime voice service that speaks JSON over a WebSocket. This project
models the parts of it that hold state or compute bytes. It proves what
each operation promises, and it proves properties across streams of
messages.

- **Bytes** (`Bytes.dfy`). C# `int` wrap-around, the `(short)` cast,
  truncating division, and the little-endian layout in which
  `BinaryWriter` writes `int` and `short`.
- **Base64** (`Base64.dfy`). The alphabet and padding of section 4 of
  RFC 4648, as used by `Convert.ToBase64String` and
  `Convert.FromBase64String`. The decoder is proved to undo the encoder for
  every byte sequence.
- **WAV encoder** (`WavEncoder.dfy`). `CreateWavFile` writes the 44-byte
  RIFF/WAVE header of the Microsoft/IBM *Multimedia Programming Interface
  and Data Specifications 1.0*: a `fmt ` chunk with format tag 1 (PCM),
  then a `data` chunk, then the samples.
  - The method builds the file step by step, as the `BinaryWriter` calls
    do. It is proved equal to the specification function `WavFile`.
  - An independent reader, `ParseWav`, recovers every header field and the
    samples from `WavFile`'s output.
- **Upstream-message translator** (`VoiceLive.dfy`). `Step` is the
  controller's translation of one upstream message into a new audio buffer
  and at most one browser event.
  - `RunWith` folds any such per-message handler over a stream.
  - The key property is that the audio delivered at `response.audio.done`
    is exactly the concatenation of the decoded deltas since the last
    `response.created`. It is proved for every handler that treats the
    buffer the way the relay does.
- **Chat relay** (`ChatRelay.dfy`). The controller's static state
  (socket, audio buffer, recognizer, recording flag) is a class.
  - Its handlers are methods proved against `Step`.
  - The event-stream loop reassembles WebSocket fragments into messages.
    It is proved to emit exactly the events of running `Step` over the
    text messages it receives, up to the first close message.
- **Console client** (`ConsoleClient.dfy`). The console program handles
  the same messages. Instead of forwarding events, it writes out a WAV clip.
  - Its buffer is proved to evolve exactly as the relay's does.
  - Its endpoint URI is proved to determine the resource, API version and
    model it was built from.
- **Session registry** (`ChatSessions.dfy`). Sessions with activity
  timestamps, kept in a map keyed by id.
  - Operations: create (the `TryAdd` semantics), lookup with activity
    refresh, remove, the sweep of idle sessions, count, list and dispose.
  - Time is an integer count of 100 ns ticks, passed in by the caller.
    The new session id is passed in as well, in place of `Guid.NewGuid`.
- **Conversation history** (`ConversationHistory.dfy`). A map from session
  id to the list of its messages. Each method is proved against a pure map
  function, and the lemmas state what each one leaves alone.

What the code does, and so what the model does:

- The controller keeps one set of static fields for a single user
  (`Controllers/ChatController.cs:18-22`), not one relay per session.
- `SendTextMessage` sends two frames and records no history.
- `response.done` only reports completion.
- Tags such as `conversation.item.created` fall to the default case and
  produce no event.
- `CleanupResources` lets a failing stop or close propagate: the cleanup
  stops before the buffer is cleared, and the disconnect endpoint answers
  with a bad request.

## Model

| member | source | states |
|---|---|---|
| Bytes.WrapInt32 | Controllers/ChatController.cs:410 | `36 + pcmData.Length` in unchecked C# `int` arithmetic: congruent to the exact sum modulo 2^32, and equal to it when it fits |
| Bytes.ToInt16 | Controllers/ChatController.cs:416-421 | the `(short)` casts keep the low 16 bits: congruent modulo 2^16, unchanged when in range |
| Bytes.TruncDiv | Controllers/ChatController.cs:419-420 | C# integer division rounds toward zero: the remainder `a − q·d` lies in [0, d) for a non-negative dividend and in (−d, 0] for a negative one |
| Bytes.Le32RoundTrip | Controllers/ChatController.cs:410 | the four bytes `BinaryWriter.Write(int)` emits read back, little-endian, as the value modulo 2^32 |
| Bytes.Le16RoundTrip | Controllers/ChatController.cs:416 | the two bytes `BinaryWriter.Write(short)` emits read back as the value modulo 2^16 |
| Bytes.Le32Congruent | Controllers/ChatController.cs:410 | values congruent modulo 2^32 are written as the same bytes, so wrap-around does not change the output |
| Bytes.AsciiRoundTrip | Controllers/ChatController.cs:409 | reading the written bytes back one character per byte gives the original text |
| Bytes.Ascii | Controllers/ChatController.cs:409 | a `char[]` of ASCII characters is written as one byte below 0x80 per character |
| Base64.Value | Controllers/ChatController.cs:359 | only the 64 alphabet characters have a value, and each maps back to its own character |
| Base64.Encode | Controllers/ChatController.cs:394 | the encoding of n bytes is 4·⌈n/3⌉ characters long |
| Base64.DecodeFullGroup | Controllers/ChatController.cs:359 | four characters encoding three bytes decode to those bytes |
| Base64.DecodeTwoGroup | Controllers/ChatController.cs:359 | a final group padded with one `=` decodes to its two bytes |
| Base64.DecodeOneGroup | Controllers/ChatController.cs:359 | a final group padded with `==` decodes to its one byte |
| Base64.Decode | Controllers/ChatController.cs:359 | only a string whose length is a multiple of four decodes, and n groups give between 3n-2 and 3n bytes |
| Base64.DecodeEncode | Controllers/ChatController.cs:359-394 | `FromBase64String(ToBase64String(b)) == b` for every byte sequence |
| WavEncoder.WavFile | Controllers/ChatController.cs:403-429 | the file is 44 + \|pcm\| bytes, and bytes 44.. are exactly the PCM data |
| WavEncoder.HeaderAsWritten | Controllers/ChatController.cs:409-425 | the header written field by field (wrapped `int`s, `short` casts, truncating divisions) is byte for byte the header the file specification lays out |
| WavEncoder.CreateWavFile | Controllers/ChatController.cs:403-429 | the writer's output equals `WavFile`: length 44 + \|pcm\|, the PCM data at offset 44 |
| WavEncoder.RiffChunkOk | Controllers/ChatController.cs:409-411 | "RIFF", the RIFF size (file length − 8), "WAVE" at offsets 0, 4 and 8 |
| WavEncoder.FmtChunkOk | Controllers/ChatController.cs:414-415 | "fmt " at offset 12, with chunk size 16 |
| WavEncoder.HeaderOfFields | Controllers/ChatController.cs:416-421 | format tag 1, channels, sample rate, byte rate, block align and bits per sample at offsets 20–34, each as its low 16 or 32 bits |
| WavEncoder.DataChunkOk | Controllers/ChatController.cs:424-425 | "data" at offset 36, with the PCM length at offset 40 |
| WavEncoder.HeaderOfWellFormed | Controllers/ChatController.cs:403-429 | the written file passes the reader's structural checks |
| WavEncoder.ParseWavFile | Controllers/ChatController.cs:403-429 | the reader recovers format 1, every header field and the PCM data from the written file |
| WavEncoder.DerivedFieldsInRange | Controllers/ChatController.cs:419-420 | when no product overflows, byte rate and block align are rate·channels·bits/8 and channels·bits/8 |
| WavEncoder.VoiceFormatFields | OtherProgram.cs:398 | at 24000 Hz, 1 channel and 16 bits, the byte rate is 48000 and the block align 2 |
| WavEncoder.VoiceFormatHeader | Controllers/ChatController.cs:393 | the relay's clip reads back as PCM, 1 channel, 24000 Hz, 48000 bytes/s, align 2, 16 bits, with the buffer as its data |
| VoiceLive.Classify | Controllers/ChatController.cs:301-304 | a string `type` dispatches on its value; the result is "no case" exactly when `type` is JSON null; anything else (no parse, a root that is not an object, no `type`, a number, boolean, array or object `type`) throws |
| VoiceLive.DeltaAudio | Controllers/ChatController.cs:350-368 | a string `delta` that decodes contributes its bytes; a missing, null, non-string, empty or undecodable delta contributes nothing |
| VoiceLive.AudioOf | Controllers/ChatController.cs:316-318 | only audio deltas add audio |
| VoiceLive.TextOf | Controllers/ChatController.cs:370-385 | `delta.text` exactly when `delta` is an object holding a string `text`; no value otherwise |
| VoiceLive.AudioPayload | Controllers/ChatController.cs:387-401 | `audioData` is null exactly when the buffer is empty |
| VoiceLive.Step | Controllers/ChatController.cs:297-348 | `response.created` empties the buffer, an audio delta appends its audio, and every other message leaves the buffer as it was |
| VoiceLive.EventOfUnhandled | Controllers/ChatController.cs:339-347 | one error event when `type` cannot be read; no event for a null `type`, an audio delta, or a tag the switch does not name |
| VoiceLive.EventOfFixedTag | Controllers/ChatController.cs:306-337 | session.created, session.updated, response.created, response.done and error produce session_created, session_updated, response_started, response_completed and an error event |
| VoiceLive.EventOfTextDelta | Controllers/ChatController.cs:324-330 | a text delta emits `text_delta` carrying `delta.text` exactly when that text is present and non-empty |
| VoiceLive.CreatedStartsTurn | Controllers/ChatController.cs:312-314 | response.created empties the buffer and emits exactly response_started |
| VoiceLive.DeltaAppendsAudio | Controllers/ChatController.cs:316-318 | an audio delta appends its decoded bytes at the end and emits nothing |
| VoiceLive.AudioDoneDeliversBuffer | Controllers/ChatController.cs:320-322 | response.audio.done sends the payload of the whole buffer and does not clear it |
| VoiceLive.ControllerKeepsTurnAudio | Controllers/ChatController.cs:312-318 | the controller's buffer handling is the turn discipline the stream lemmas assume |
| VoiceLive.RunAppend | Controllers/ChatController.cs:166-191 | processing a stream in two stretches is processing it whole: the events concatenate, the buffer carries over |
| VoiceLive.AccumulateWithinTurn | Controllers/ChatController.cs:316-318 | with no response.created, the buffer becomes its old contents followed by every delta's audio, in order |
| VoiceLive.NoCrossTurnAudio | Controllers/ChatController.cs:312-318 | after a response.created, the buffer holds exactly the audio of the messages since, whatever came before |
| VoiceLive.RunOne | Controllers/ChatController.cs:183-190 | a stream of one message yields that message's outcome |
| VoiceLive.TurnDeliversAudio | Controllers/ChatController.cs:312-322 | response.created, then messages without another response.created, then response.audio.done: response_started, the middle messages' events, then one audio_response whose payload is that of exactly the turn's decoded deltas (null when they hold no audio); the buffer ends holding that audio |
| VoiceLive.DeltasAreSilent | Controllers/ChatController.cs:316-318 | a stretch of audio deltas emits no event |
| VoiceLive.AudioPayloadRoundTrip | Controllers/ChatController.cs:387-401 | a non-empty buffer's payload decodes as base64 and then as a 24 kHz mono 16-bit WAV holding exactly the buffer |
| ChatRelay.ParseAll | Controllers/ChatController.cs:185 | every received text message is parsed, one for one, in order |
| ChatRelay.ReassembleOneMessage | Controllers/ChatController.cs:170-181 | fragments of which only the last ends the message make one message: the last fragment's type and all the texts concatenated in order |
| ChatRelay.ReceiveMessage | Controllers/ChatController.cs:170-181 | the do-while loop consumes fragments up to and including the next end of message and yields that reassembled message; a stream that ends first yields none |
| ChatRelay.Relay.constructor | Controllers/ChatController.cs:18-22 | no socket, an empty buffer, no recognizer, not recording |
| ChatRelay.Relay.HandleAudioDelta | Controllers/ChatController.cs:350-368 | the buffer grows by exactly the delta's audio |
| ChatRelay.Relay.ProcessAggregatedAudio | Controllers/ChatController.cs:387-401 | null for an empty buffer; otherwise a base64 string that decodes to the WAV file of the whole buffer at 24000 Hz, 1 channel, 16 bits |
| ChatRelay.Relay.ProcessVoiceLiveMessage | Controllers/ChatController.cs:297-348 | the new buffer and the returned event are exactly `Step` of the old buffer and the message |
| ChatRelay.Relay.SendTextMessage | Controllers/ChatController.cs:431-471 | the conversation item with role "user" and the text, then response.create with modalities ["text","audio"], in that order; a failing send stops the rest |
| ChatRelay.Relay.SendMessage | Controllers/ChatController.cs:87-105 | refused, with nothing sent, unless the socket is open; otherwise the two frames of the turn, only the user message when the second send fails, and nothing when the first fails |
| ChatRelay.Relay.ToggleVoiceRecording | Controllers/ChatController.cs:107-136 | no recognizer: refused, flag unchanged; otherwise a successful start or stop flips the flag and answers Ok, and a failure clears it and answers a bad request |
| ChatRelay.Relay.CleanupResources | Controllers/ChatController.cs:485-509 | a completed cleanup leaves no socket, no recognizer, an empty buffer and recording off; a failing stop or close ends it early with the buffer and socket untouched; unless the stop fails, the recognizer is gone and recording is off, even when the close then fails |
| ChatRelay.Relay.DisconnectFromVoiceLive | Controllers/ChatController.cs:72-85 | Ok exactly when neither the stop of an active recording nor the close of an open socket fails, and then the state is reset; a bad request leaves buffer and socket as they were; unless the stop fails, the recognizer is released and recording is off |
| ChatRelay.Relay.StreamMessages | Controllers/ChatController.cs:149-212 | with an open socket, the events written and the final buffer are those of `Step` run over the text messages reassembled from the fragments, binary ones skipped, stopping at the first close; with no open socket, nothing |
| ConsoleClient.Clip | OtherProgram.cs:391-414 | no clip for an empty buffer; otherwise 44 + \|buffer\| bytes ending in the buffer |
| ConsoleClient.ConsoleStep | OtherProgram.cs:275-348 | response.created empties the buffer, an audio delta appends its audio, every other message (malformed ones included) leaves it; a clip is played only on response.audio.done |
| ConsoleClient.ConsoleKeepsTurnAudio | OtherProgram.cs:297-311 | the console's buffer handling is the same turn discipline |
| ConsoleClient.ConsoleAgreesWithRelay | OtherProgram.cs:275-348 | after every message the console's buffer equals the relay's, and the clip it plays is the one whose base64 the relay sends |
| ConsoleClient.TurnPlaysTurnAudio | OtherProgram.cs:297-316 | the clip played at the end of a turn is built from exactly the turn's decoded deltas |
| ConsoleClient.ClipRoundTrip | OtherProgram.cs:395-398 | the clip reads back as PCM, 1 channel, 24000 Hz, byte rate 48000, block align 2, 16 bits, with the buffer as its data |
| ConsoleClient.BuildVoiceLiveWebSocketUri | OtherProgram.cs:170-175 | the URI starts with `wss://` followed by the resource name, and ends with the model name |
| ConsoleClient.ParseBuildUri | OtherProgram.cs:170-175 | the endpoint `wss://{resource}.cognitiveservices.azure.com/voice-live/realtime?api-version={version}&model={model}` parses back into its resource, version and model when the resource has no '.' and the version no '&' |
| ConsoleClient.Console.constructor | OtherProgram.cs:21-30 | an empty buffer, no recognizer, not recording |
| ConsoleClient.Console.HandleAudioDelta | OtherProgram.cs:350-369 | the buffer grows by exactly the delta's audio; bad deltas change nothing |
| ConsoleClient.Console.PlayAggregatedAudio | OtherProgram.cs:391-414 | nothing for an empty buffer; otherwise the WAV clip of the whole buffer, which reads back as 24 kHz mono 16-bit PCM |
| ConsoleClient.Console.HandleVoiceLiveMessage | OtherProgram.cs:275-348 | the new buffer and the clip played are exactly `ConsoleStep` of the old buffer and the message |
| ConsoleClient.Console.ToggleVoiceRecording | OtherProgram.cs:468-496 | no recognizer: flag unchanged; otherwise a successful call flips it and a failing one clears it |
| ChatSessions.ExpiryIsStrict | Models/ChatSession.cs:20-23 | a session idle for exactly the timeout is not expired; one tick more and it is |
| ChatSessions.ActivityResetsExpiry | Models/ChatSession.cs:15-23 | right after an activity update, no non-negative timeout has run out |
| ChatSessions.ExpiryPersists | Models/ChatSession.cs:20-23 | without a new activity, an expired session stays expired as time advances |
| ChatSessions.ChatSession.IsExpired | Models/ChatSession.cs:20-23 | a session is never expired within the timeout of its last activity, and an expired one (for a non-negative timeout) was last active strictly before now |
| ChatSessions.ChatSession.constructor | Models/ChatSession.cs:7-12 | a new session has an empty audio buffer, is not recording, and was created and last active at the current time |
| ChatSessions.ChatSession.UpdateActivity | Models/ChatSession.cs:15-18 | the last activity becomes now, no other field changes, and the session is not expired for any non-negative timeout |
| ChatSessions.SessionManager.ExpiredIds | Services/SessionManager.cs:79 | the snapshot holds exactly the registered ids whose sessions have been idle for more than 30 minutes |
| ChatSessions.SessionManager.constructor | Services/SessionManager.cs:9-22 | the registry starts empty |
| ChatSessions.SessionManager.CreateSession | Services/SessionManager.cs:24-33 | the returned id is registered; for a fresh id, a new session stored under its own id, with the count one higher and every other entry unchanged; a taken id leaves the registry unchanged |
| ChatSessions.SessionManager.GetSession | Services/SessionManager.cs:35-43 | a present id yields its session with the last activity refreshed and nothing else changed; an absent id yields null and changes nothing |
| ChatSessions.SessionManager.RemoveSession | Services/SessionManager.cs:45-70 | true and the key removed when present; false and the registry unchanged when absent, so a second removal answers false |
| ChatSessions.SessionManager.CleanupExpiredSessions | Services/SessionManager.cs:77-91 | exactly the sessions expired at the snapshot are removed: none left is expired, and every session not expired is still there |
| ChatSessions.SessionManager.GetActiveSessionCount | Services/SessionManager.cs:93-96 | the number of registered sessions |
| ChatSessions.SessionManager.GetActiveSessions | Services/SessionManager.cs:98-101 | every registered id exactly once, and nothing else |
| ChatSessions.SessionManager.Dispose | Services/SessionManager.cs:127 | the registry is empty afterwards |
| ChatSessions.CountMatchesSessions | Services/SessionManager.cs:93-101 | the count equals the number of ids listed |
| ConversationHistory.Appended | Services/ConversationHistoryService.cs:11-19 | the message is at the end of that session's history, the entry created if missing; no other history changes |
| ConversationHistory.Cleared | Services/ConversationHistoryService.cs:21-30 | the session's history is empty and the key set, and so the count, is unchanged; an unknown id creates no entry |
| ConversationHistory.Removed | Services/ConversationHistoryService.cs:45-48 | the key is gone, a later lookup is empty, other histories are unchanged |
| ConversationHistory.HistoryKeepsOrder | Services/ConversationHistoryService.cs:11-19 | messages added one after another appear in the history in insertion order, after what it held before |
| ConversationHistory.RemoveIdempotent | Services/ConversationHistoryService.cs:45-48 | removing an id twice is the same as removing it once |
| ConversationHistory.ClearUnknownIsNoOp | Services/ConversationHistoryService.cs:23 | clearing an unknown id leaves the store as it was |
| ConversationHistory.ConversationHistoryService.constructor | Services/ConversationHistoryService.cs:8 | the store starts empty |
| ConversationHistory.ConversationHistoryService.AddMessage | Services/ConversationHistoryService.cs:11-19 | the store becomes `Appended` of the old store |
| ConversationHistory.ConversationHistoryService.ClearHistory | Services/ConversationHistoryService.cs:21-30 | the store becomes `Cleared` of the old store |
| ConversationHistory.ConversationHistoryService.GetHistory | Services/ConversationHistoryService.cs:32-43 | the session's messages, oldest first; empty for an unknown id |
| ConversationHistory.ConversationHistoryService.RemoveSession | Services/ConversationHistoryService.cs:45-48 | the store becomes `Removed` of the old store |
| ConversationHistory.ConversationHistoryService.GetActiveSessionCount | Services/ConversationHistoryService.cs:50-53 | the number of ids with an entry, cleared ones included |

## Left out

- WebSocket I/O is not modelled: connecting, sending, receiving and closing. A received stream is a sequence of fragments; the frames sent are a log of values; the success of a send, stop or close call is a boolean parameter.
- `ConnectToVoiceLive`, `ConfigureVoiceLiveSession`, `InitializeSpeechRecognition` and `GetStatus` are not modelled. They read configuration, call the speech SDK and send constant `session.update` payloads full of floating-point settings. The URI they build is the one `BuildVoiceLiveWebSocketUri` models.
- JSON parsing and serialisation are not modelled. An upstream message is a parsed `Json` value or `Unparseable`, and the parser is a parameter of `StreamMessages`. Browser events are datatype values, not their serialised text. The exception message of an error event is not modelled.
- UTF-8 decoding of each fragment is not modelled: fragments are strings.
- The event-stream loop has no model of cancellation by the HTTP client or of receive exceptions (both end the loop). Writing the server-sent-events response is not modelled either.
- Base64.Decode accepts exactly the canonical, unbroken output of the encoder plus any padded group. It rejects whitespace, which `Convert.FromBase64String` skips. It does not check the unused bits of a padded group.
- `System.Uri` canonicalisation is not modelled: `BuildVoiceLiveWebSocketUri` returns the interpolated string. The controller builds the same string inline (`Controllers/ChatController.cs:44`).
- The console's `SendTextMessage` and `ReceiveVoiceLiveMessages` are not modelled separately. They send the same two frames and run the same reassembly loop as the controller's.
- Console output is not modelled: text deltas, status lines and error messages. The temporary WAV file is not modelled either: `PlayAggregatedAudio` returns the bytes it would write.
- Concurrency is not modelled: the locks, `ConcurrentDictionary`'s guarantees and the five-minute cleanup timer. Every operation is atomic and sequential.
- `DateTime.UtcNow` and `Guid.NewGuid()` are parameters. `ChatSession.constructor` takes one time for both `CreatedAt` and `LastActivity`, which the source reads from the clock separately.
- `ChatSession.WebSocket` and closing sockets in `RemoveSession` and `Dispose` are not modelled: the shown code never assigns a session's socket.
- ConversationHistory.ConversationHistoryService.GetHistory: returns a copy of the history, where the source returns a read-only view that later additions show through.
- Capacity limits of `List<T>` and arrays are not modelled. The WAV round-trip lemmas require fewer than 2^31 PCM bytes, the length a C# array can index.

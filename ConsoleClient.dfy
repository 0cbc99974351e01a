/** The console client: its static audio buffer and recording flag, its
    handling of upstream messages (which plays audio instead of forwarding
    events), and the endpoint it connects to. */
module ConsoleClient {
  import opened Bytes
  import opened Wrappers
  import opened WavEncoder
  import opened VoiceLive
  import Base64
  import Seqs

  /** The clip PlayAggregatedAudio plays: nothing for an empty buffer,
      otherwise the whole buffer wrapped as 24 kHz mono 16-bit WAV. */
  function Clip(buffer: seq<Byte>): (clip: Option<seq<Byte>>)
    ensures clip.None? <==> buffer == []
    ensures clip.Some? ==> |clip.value| == HeaderSize + |buffer| && clip.value[HeaderSize..] == buffer
  {
    if |buffer| == 0 then None
    else Some(WavFile(buffer, OutputSampleRate, OutputChannels, OutputBitsPerSample))
  }

  /** The console's handling of one upstream message: the new buffer and the
      clip played, if any.  Printing is not modelled; every case other than
      the three below, malformed messages included, leaves the buffer alone. */
  function ConsoleStep(buffer: seq<Byte>, m: Inbound): (r: Outcome<seq<Byte>>)
    ensures r.buffer == if IsTag(m, ResponseCreatedTag) then [] else buffer + AudioOf(m)
    ensures r.event.Some? ==> IsTag(m, AudioDoneTag)
  {
    match Classify(m)
    case Tag(t) =>
      if t == ResponseCreatedTag then Outcome([], None)
      else if t == AudioDeltaTag then Outcome(buffer + DeltaAudio(m.root), None)
      else if t == AudioDoneTag then Outcome(buffer, Clip(buffer))
      else Outcome(buffer, None)
    case _ => Outcome(buffer, None)
  }

  lemma ConsoleKeepsTurnAudio()
    ensures KeepsTurnAudio(ConsoleStep)
  {
  }

  /** The console and the relay agree on the buffer after every message, and
      whenever the console plays a clip the relay sends that clip's base64. */
  lemma ConsoleAgreesWithRelay(buffer: seq<Byte>, m: Inbound)
    ensures ConsoleStep(buffer, m).buffer == Step(buffer, m).buffer
    ensures ConsoleStep(buffer, m).event.Some? ==>
              Step(buffer, m).event == Some(AudioResponse(Some(Base64.Encode(ConsoleStep(buffer, m).event.value))))
  {
  }

  /** What the console plays at the end of a turn is built from exactly the
      audio of the deltas since response.created. */
  lemma TurnPlaysTurnAudio(buffer: seq<Byte>, before: seq<Inbound>, created: Inbound, ms: seq<Inbound>, done: Inbound)
    requires IsTag(created, ResponseCreatedTag) && IsTag(done, AudioDoneTag)
    requires NoResponseCreated(ms)
    ensures var b := RunWith(ConsoleStep, buffer, before + [created] + ms).buffer;
      b == Audio(ms) && ConsoleStep(b, done).event == Clip(Audio(ms))
  {
    ConsoleKeepsTurnAudio();
    NoCrossTurnAudio(ConsoleStep, buffer, before, created, ms);
  }

  /** The played clip reads back as 24 kHz mono 16-bit PCM holding the buffer. */
  lemma ClipRoundTrip(buffer: seq<Byte>)
    requires 0 < |buffer| < 0x8000_0000
    ensures Clip(buffer).Some?
    ensures ParseWav(Clip(buffer).value) == Some(WavInfo(FormatPcm, 1, 24000, 48000, 2, 16, buffer))
  {
    VoiceFormatHeader(buffer, OutputSampleRate, OutputChannels, OutputBitsPerSample);
  }

  const Scheme := "wss://"
  /** The rest of the host name and the path, starting at the '.' that ends the resource. */
  const EndpointPath: string := ['.'] + "cognitiveservices.azure.com/voice-live/realtime?api-version="
  const ModelQuery := "&model="

  /** The realtime endpoint of a resource, for an API version and a model. */
  function BuildVoiceLiveWebSocketUri(resource: string, apiVersion: string, model: string): (uri: string)
    ensures |Scheme| + |resource| + |model| < |uri| && uri[..|Scheme|] == Scheme
    ensures uri[|Scheme|..|Scheme| + |resource|] == resource
    ensures uri[|uri| - |model|..] == model
  {
    Scheme + (resource + (EndpointPath + (apiVersion + (ModelQuery + model))))
  }

  /** The position of the first `c` in `s`, or |s| when there is none. */
  function IndexOf(s: string, c: char): (k: nat)
    ensures k <= |s|
    ensures k < |s| ==> s[k] == c
    ensures forall j :: 0 <= j < k ==> s[j] != c
    decreases |s|
  {
    if s == [] then 0
    else if s[0] == c then 0
    else 1 + IndexOf(s[1..], c)
  }

  /** Recovers resource, API version and model from an endpoint: the
      resource ends at the first '.', the version at the first '&'. */
  function ParseVoiceLiveWebSocketUri(uri: string): Option<(string, string, string)>
  {
    if |uri| < |Scheme| || uri[..|Scheme|] != Scheme then None
    else
      var host := uri[|Scheme|..];
      var k := IndexOf(host, '.');
      var path := host[k..];
      if |path| < |EndpointPath| || path[..|EndpointPath|] != EndpointPath then None
      else
        var query := path[|EndpointPath|..];
        var j := IndexOf(query, '&');
        var tail := query[j..];
        if |tail| < |ModelQuery| || tail[..|ModelQuery|] != ModelQuery then None
        else Some((host[..k], query[..j], tail[|ModelQuery|..]))
  }

  /** The first `c` in `a + b` is at |a| when `a` holds none and `b` starts with one. */
  lemma IndexOfAfter(a: string, b: string, c: char)
    requires forall j :: 0 <= j < |a| ==> a[j] != c
    requires |b| > 0 && b[0] == c
    ensures IndexOf(a + b, c) == |a|
  {
    assert (a + b)[|a|] == c;
    assert forall j :: 0 <= j < |a| ==> (a + b)[j] == a[j];
  }

  /** Parsing a host part that starts with the resource and then the path. */
  lemma ParseHost(resource: string, path: string)
    requires forall j :: 0 <= j < |resource| ==> resource[j] != '.'
    requires |path| > 0 && path[0] == '.'
    ensures IndexOf(resource + path, '.') == |resource|
    ensures (resource + path)[..|resource|] == resource && (resource + path)[|resource|..] == path
  {
    IndexOfAfter(resource, path, '.');
    Seqs.SplitAppend(resource, path);
  }

  /** The endpoint determines its resource, version and model, provided the
      resource has no '.' and the version no '&'. */
  lemma ParseBuildUri(resource: string, apiVersion: string, model: string)
    requires forall j :: 0 <= j < |resource| ==> resource[j] != '.'
    requires forall j :: 0 <= j < |apiVersion| ==> apiVersion[j] != '&'
    ensures ParseVoiceLiveWebSocketUri(BuildVoiceLiveWebSocketUri(resource, apiVersion, model))
         == Some((resource, apiVersion, model))
  {
    var tail := ModelQuery + model;
    var query := apiVersion + tail;
    var path := EndpointPath + query;
    var host := resource + path;
    Seqs.SplitAppend(Scheme, host);
    assert EndpointPath[0] == '.';
    Seqs.AppendCons(EndpointPath, query);
    ParseHost(resource, path);
    Seqs.SplitAppend(EndpointPath, query);
    IndexOfAfter(apiVersion, tail, '&');
    Seqs.SplitAppend(apiVersion, tail);
    Seqs.SplitAppend(ModelQuery, model);
  }

  /** The console's static state. */
  class Console {
    /** `audioBuffer`. */
    var audioBuffer: seq<Byte>
    /** `speechRecognizer != null`. */
    var hasRecognizer: bool
    /** `isRecording`. */
    var isRecording: bool

    /** The static initialisers. */
    constructor ()
      ensures audioBuffer == [] && !hasRecognizer && !isRecording
    {
      audioBuffer := [];
      hasRecognizer := false;
      isRecording := false;
    }

    /** Appends the decoded `delta`; a missing, null, empty, non-string or
        undecodable delta appends nothing (the exception is caught). */
    method HandleAudioDelta(root: Json)
      modifies this`audioBuffer
      ensures audioBuffer == old(audioBuffer) + DeltaAudio(root)
    {
      if root.JObject? && "delta" in root.props {
        var delta := root.props["delta"];
        if delta.JString? && delta.str != "" {
          var decoded := Base64.Decode(delta.str);
          if decoded.Some? {
            audioBuffer := audioBuffer + decoded.value;
          }
        }
      }
    }

    /** Returns without playing when the buffer is empty; otherwise builds the
        WAV clip of the whole buffer (which the program then writes to a
        temporary file). */
    method PlayAggregatedAudio() returns (clip: Option<seq<Byte>>)
      ensures clip == Clip(audioBuffer)
      ensures clip.None? <==> audioBuffer == []
      ensures clip.Some? && |audioBuffer| < 0x8000_0000 ==>
                ParseWav(clip.value) == Some(WavInfo(FormatPcm, 1, 24000, 48000, 2, 16, audioBuffer))
    {
      if |audioBuffer| == 0 {
        return None;
      }
      var wavData := CreateWavFile(audioBuffer, OutputSampleRate, OutputChannels, OutputBitsPerSample);
      clip := Some(wavData);
      if |audioBuffer| < 0x8000_0000 {
        ClipRoundTrip(audioBuffer);
      }
    }

    /** Handles one upstream message; returns the clip played, if any. */
    method HandleVoiceLiveMessage(m: Inbound) returns (played: Option<seq<Byte>>)
      modifies this`audioBuffer
      ensures Outcome(audioBuffer, played) == ConsoleStep(old(audioBuffer), m)
    {
      played := None;
      var d := Classify(m);
      if !d.Tag? {
        return;
      }
      var messageType := d.name;
      if messageType == ResponseCreatedTag {
        audioBuffer := [];
      } else if messageType == AudioDeltaTag {
        HandleAudioDelta(m.root);
      } else if messageType == AudioDoneTag {
        played := PlayAggregatedAudio();
      }
    }

    /** The 's' command.  With no recognizer nothing changes; otherwise a
        start or stop call that returns normally flips the flag and one that
        throws leaves it false. */
    method ToggleVoiceRecording(callSucceeds: bool)
      modifies this`isRecording
      ensures !hasRecognizer ==> isRecording == old(isRecording)
      ensures hasRecognizer ==> isRecording == (!old(isRecording) && callSucceeds)
    {
      if !hasRecognizer {
        return;
      }
      if !isRecording {
        isRecording := callSucceeds;
      } else {
        isRecording := false;
      }
    }
  }
}

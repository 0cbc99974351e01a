/** The canonical 44-byte RIFF/WAVE container (a `fmt ` chunk for linear PCM
    followed by one `data` chunk) that the relay wraps around raw PCM audio,
    written field by field through a BinaryWriter. */
module WavEncoder {
  import opened Bytes
  import opened Wrappers

  const HeaderSize: nat := 44
  /** WAVE_FORMAT_PCM. */
  const FormatPcm: nat := 1
  const FmtChunkSize: nat := 16

  /** The four-character chunk identifiers, as the bytes BinaryWriter writes for them. */
  const RiffId: seq<Byte> := [0x52, 0x49, 0x46, 0x46]
  const WaveId: seq<Byte> := [0x57, 0x41, 0x56, 0x45]
  const FmtId: seq<Byte> := [0x66, 0x6d, 0x74, 0x20]
  const DataId: seq<Byte> := [0x64, 0x61, 0x74, 0x61]

  /** Each identifier is the ASCII spelling of its chunk's name. */
  lemma ChunkIdsAreAscii()
    ensures RiffId == Ascii("RIFF") && WaveId == Ascii("WAVE")
    ensures FmtId == Ascii("fmt ") && DataId == Ascii("data")
  {
  }

  /** `sampleRate * channels * bitsPerSample / 8`, evaluated in C# `int` arithmetic. */
  function ByteRate(sampleRate: Int32, channels: Int32, bitsPerSample: Int32): Int32
  {
    TruncDiv(WrapInt32(sampleRate * channels * bitsPerSample), 8)
  }

  /** `channels * bitsPerSample / 8`, evaluated in C# `int` arithmetic (before the cast to `short`). */
  function BlockAlign(channels: Int32, bitsPerSample: Int32): Int32
  {
    TruncDiv(WrapInt32(channels * bitsPerSample), 8)
  }

  /** The 44 header bytes, given the values of its fields. */
  function HeaderOf(dataLength: nat, sampleRate: int, channels: int, byteRate: int, blockAlign: int, bitsPerSample: int): (h: seq<Byte>)
    ensures |h| == HeaderSize
  {
    RiffId + Le32(36 + dataLength) + WaveId
    + FmtId + Le32(FmtChunkSize) + Le16(FormatPcm) + Le16(channels)
    + Le32(sampleRate) + Le32(byteRate) + Le16(blockAlign) + Le16(bitsPerSample)
    + DataId + Le32(dataLength)
  }

  /** The 44 header bytes that precede `dataLength` bytes of PCM. */
  function Header(dataLength: nat, sampleRate: Int32, channels: Int32, bitsPerSample: Int32): (h: seq<Byte>)
    ensures |h| == HeaderSize
  {
    HeaderOf(dataLength, sampleRate, channels, ByteRate(sampleRate, channels, bitsPerSample),
             BlockAlign(channels, bitsPerSample), bitsPerSample)
  }

  /** The container for `pcm`: the header, then the samples unchanged. */
  function WavFile(pcm: seq<Byte>, sampleRate: Int32, channels: Int32, bitsPerSample: Int32): (w: seq<Byte>)
    ensures |w| == HeaderSize + |pcm|
    ensures w[HeaderSize..] == pcm
  {
    Header(|pcm|, sampleRate, channels, bitsPerSample) + pcm
  }

  /** The header fields a reader recovers from a container. */
  datatype WavInfo = WavInfo(
    formatTag: nat,
    channels: nat,
    sampleRate: nat,
    byteRate: nat,
    blockAlign: nat,
    bitsPerSample: nat,
    data: seq<Byte>)

  /** The chunk identifiers are in place and both size fields agree with the length of `w`. */
  predicate WellFormed(w: seq<Byte>)
  {
    && |w| >= HeaderSize
    && w[0..4] == RiffId && ReadU32(w, 4) == |w| - 8 && w[8..12] == WaveId
    && w[12..16] == FmtId && ReadU32(w, 16) == FmtChunkSize
    && w[36..40] == DataId && ReadU32(w, 40) == |w| - HeaderSize
  }

  /** A reader for exactly the layout above. */
  function ParseWav(w: seq<Byte>): Option<WavInfo>
  {
    if !WellFormed(w) then None
    else Some(WavInfo(ReadU16(w, 20), ReadU16(w, 22), ReadU32(w, 24), ReadU32(w, 28),
                      ReadU16(w, 32), ReadU16(w, 34), w[HeaderSize..]))
  }

  /** A 32-bit field written with Le32 reads back as its value modulo 2^32. */
  lemma ReadLe32At(w: seq<Byte>, at: nat, v: int)
    requires at + 4 <= |w| && w[at..at + 4] == Le32(v)
    ensures ReadU32(w, at) == v % TwoTo32
  {
    var field := Le32(v);
    assert w[at] == field[0] && w[at + 1] == field[1] && w[at + 2] == field[2] && w[at + 3] == field[3];
    Le32RoundTrip(v);
  }

  /** A 16-bit field written with Le16 reads back as its value modulo 2^16. */
  lemma ReadLe16At(w: seq<Byte>, at: nat, v: int)
    requires at + 2 <= |w| && w[at..at + 2] == Le16(v)
    ensures ReadU16(w, at) == v % TwoTo16
  {
    var field := Le16(v);
    assert w[at] == field[0] && w[at + 1] == field[1];
    Le16RoundTrip(v);
  }

  /** Where each field sits in the header. */
  lemma HeaderSlices(n: nat, sampleRate: int, channels: int, byteRate: int, blockAlign: int, bitsPerSample: int)
    ensures var h := HeaderOf(n, sampleRate, channels, byteRate, blockAlign, bitsPerSample);
      && h[0..4] == RiffId && h[4..8] == Le32(36 + n) && h[8..12] == WaveId
      && h[12..16] == FmtId && h[16..20] == Le32(FmtChunkSize) && h[20..22] == Le16(FormatPcm)
      && h[22..24] == Le16(channels) && h[24..28] == Le32(sampleRate) && h[28..32] == Le32(byteRate)
      && h[32..34] == Le16(blockAlign) && h[34..36] == Le16(bitsPerSample)
      && h[36..40] == DataId && h[40..44] == Le32(n)
  {
  }

  lemma SliceOfPrefix(w: seq<Byte>, p: seq<Byte>, i: nat, j: nat)
    requires i <= j <= |p| <= |w| && w[..|p|] == p
    ensures w[i..j] == p[i..j]
  {
    forall k | 0 <= k < j - i
      ensures w[i..j][k] == p[i..j][k]
    {
      assert w[..|p|][i + k] == w[i + k];
    }
  }

  lemma RiffChunkOk(w: seq<Byte>, sampleRate: int, channels: int, byteRate: int, blockAlign: int, bitsPerSample: int)
    requires HeaderSize <= |w| < 0x8000_0000 + HeaderSize
    requires w[..HeaderSize] == HeaderOf(|w| - HeaderSize, sampleRate, channels, byteRate, blockAlign, bitsPerSample)
    ensures w[0..4] == RiffId && ReadU32(w, 4) == |w| - 8 && w[8..12] == WaveId
  {
    var n := |w| - HeaderSize;
    var h := HeaderOf(n, sampleRate, channels, byteRate, blockAlign, bitsPerSample);
    HeaderSlices(n, sampleRate, channels, byteRate, blockAlign, bitsPerSample);
    SliceOfPrefix(w, h, 0, 4);
    SliceOfPrefix(w, h, 4, 8);
    SliceOfPrefix(w, h, 8, 12);
    ReadLe32At(w, 4, 36 + n);
    SmallMod32(36 + n);
  }

  lemma FmtChunkOk(w: seq<Byte>, sampleRate: int, channels: int, byteRate: int, blockAlign: int, bitsPerSample: int)
    requires HeaderSize <= |w|
    requires w[..HeaderSize] == HeaderOf(|w| - HeaderSize, sampleRate, channels, byteRate, blockAlign, bitsPerSample)
    ensures w[12..16] == FmtId && ReadU32(w, 16) == FmtChunkSize
  {
    var n := |w| - HeaderSize;
    var h := HeaderOf(n, sampleRate, channels, byteRate, blockAlign, bitsPerSample);
    HeaderSlices(n, sampleRate, channels, byteRate, blockAlign, bitsPerSample);
    SliceOfPrefix(w, h, 12, 16);
    SliceOfPrefix(w, h, 16, 20);
    ReadLe32At(w, 16, FmtChunkSize);
  }

  lemma DataChunkOk(w: seq<Byte>, sampleRate: int, channels: int, byteRate: int, blockAlign: int, bitsPerSample: int)
    requires HeaderSize <= |w| < 0x8000_0000 + HeaderSize
    requires w[..HeaderSize] == HeaderOf(|w| - HeaderSize, sampleRate, channels, byteRate, blockAlign, bitsPerSample)
    ensures w[36..40] == DataId && ReadU32(w, 40) == |w| - HeaderSize
  {
    var n := |w| - HeaderSize;
    var h := HeaderOf(n, sampleRate, channels, byteRate, blockAlign, bitsPerSample);
    HeaderSlices(n, sampleRate, channels, byteRate, blockAlign, bitsPerSample);
    SliceOfPrefix(w, h, 36, 40);
    SliceOfPrefix(w, h, 40, 44);
    ReadLe32At(w, 40, n);
    SmallMod32(n);
  }

  lemma HeaderOfWellFormed(pcm: seq<Byte>, sampleRate: int, channels: int, byteRate: int, blockAlign: int, bitsPerSample: int)
    requires |pcm| < 0x8000_0000
    ensures WellFormed(HeaderOf(|pcm|, sampleRate, channels, byteRate, blockAlign, bitsPerSample) + pcm)
  {
    var w := HeaderOf(|pcm|, sampleRate, channels, byteRate, blockAlign, bitsPerSample) + pcm;
    assert w[..HeaderSize] == HeaderOf(|pcm|, sampleRate, channels, byteRate, blockAlign, bitsPerSample);
    RiffChunkOk(w, sampleRate, channels, byteRate, blockAlign, bitsPerSample);
    FmtChunkOk(w, sampleRate, channels, byteRate, blockAlign, bitsPerSample);
    DataChunkOk(w, sampleRate, channels, byteRate, blockAlign, bitsPerSample);
  }

  lemma {:induction false} HeaderOfFields(w: seq<Byte>, n: nat, sampleRate: int, channels: int, byteRate: int, blockAlign: int, bitsPerSample: int)
    requires |w| >= HeaderSize && w[..HeaderSize] == HeaderOf(n, sampleRate, channels, byteRate, blockAlign, bitsPerSample)
    ensures ReadU16(w, 20) == FormatPcm && ReadU16(w, 22) == channels % TwoTo16
    ensures ReadU32(w, 24) == sampleRate % TwoTo32 && ReadU32(w, 28) == byteRate % TwoTo32
    ensures ReadU16(w, 32) == blockAlign % TwoTo16 && ReadU16(w, 34) == bitsPerSample % TwoTo16
  {
    var h := HeaderOf(n, sampleRate, channels, byteRate, blockAlign, bitsPerSample);
    HeaderSlices(n, sampleRate, channels, byteRate, blockAlign, bitsPerSample);
    SliceOfPrefix(w, h, 20, 22);
    SliceOfPrefix(w, h, 22, 24);
    SliceOfPrefix(w, h, 24, 28);
    SliceOfPrefix(w, h, 28, 32);
    SliceOfPrefix(w, h, 32, 34);
    SliceOfPrefix(w, h, 34, 36);
    ReadLe16At(w, 20, FormatPcm);
    ReadLe16At(w, 22, channels);
    ReadLe32At(w, 24, sampleRate);
    ReadLe32At(w, 28, byteRate);
    ReadLe16At(w, 32, blockAlign);
    ReadLe16At(w, 34, bitsPerSample);
  }

  /** Reading back a header followed by its data gives each field modulo its width. */
  lemma ParseHeaderOf(pcm: seq<Byte>, sampleRate: int, channels: int, byteRate: int, blockAlign: int, bitsPerSample: int)
    requires |pcm| < 0x8000_0000
    ensures ParseWav(HeaderOf(|pcm|, sampleRate, channels, byteRate, blockAlign, bitsPerSample) + pcm) == Some(WavInfo(
      FormatPcm, channels % TwoTo16, sampleRate % TwoTo32, byteRate % TwoTo32,
      blockAlign % TwoTo16, bitsPerSample % TwoTo16, pcm))
  {
    var w := HeaderOf(|pcm|, sampleRate, channels, byteRate, blockAlign, bitsPerSample) + pcm;
    HeaderOfWellFormed(pcm, sampleRate, channels, byteRate, blockAlign, bitsPerSample);
    assert w[..HeaderSize] == HeaderOf(|pcm|, sampleRate, channels, byteRate, blockAlign, bitsPerSample);
    HeaderOfFields(w, |pcm|, sampleRate, channels, byteRate, blockAlign, bitsPerSample);
    assert w[HeaderSize..] == pcm;
  }

  /** Reading a container back gives every header field modulo its width and
      the PCM bytes unchanged.  A .NET byte array is at most 2^31 - 1 long. */
  lemma ParseWavFile(pcm: seq<Byte>, sampleRate: Int32, channels: Int32, bitsPerSample: Int32)
    requires |pcm| < 0x8000_0000
    ensures ParseWav(WavFile(pcm, sampleRate, channels, bitsPerSample)) == Some(WavInfo(
      FormatPcm,
      channels % TwoTo16,
      sampleRate % TwoTo32,
      ByteRate(sampleRate, channels, bitsPerSample) % TwoTo32,
      BlockAlign(channels, bitsPerSample) % TwoTo16,
      bitsPerSample % TwoTo16,
      pcm))
  {
    ParseHeaderOf(pcm, sampleRate, channels, ByteRate(sampleRate, channels, bitsPerSample),
                  BlockAlign(channels, bitsPerSample), bitsPerSample);
  }

  /** Without overflow the two derived fields are the textbook ones:
      byte rate = sampleRate * channels * bitsPerSample / 8 and
      block align = channels * bitsPerSample / 8. */
  lemma DerivedFieldsInRange(sampleRate: Int32, channels: Int32, bitsPerSample: Int32)
    requires 0 <= sampleRate * channels * bitsPerSample < 0x8000_0000
    requires 0 <= channels * bitsPerSample < 0x8000_0000
    ensures ByteRate(sampleRate, channels, bitsPerSample) == sampleRate * channels * bitsPerSample / 8
    ensures BlockAlign(channels, bitsPerSample) == channels * bitsPerSample / 8
  {
  }

  lemma VoiceFormatFields(sampleRate: Int32, channels: Int32, bitsPerSample: Int32)
    requires sampleRate == 24000 && channels == 1 && bitsPerSample == 16
    ensures ByteRate(sampleRate, channels, bitsPerSample) == 48000 && BlockAlign(channels, bitsPerSample) == 2
  {
  }

  /** For the format the relay always uses (24 kHz, mono, 16-bit) the reader
      sees byte rate 48000 and block align 2. */
  lemma VoiceFormatHeader(pcm: seq<Byte>, sampleRate: Int32, channels: Int32, bitsPerSample: Int32)
    requires |pcm| < 0x8000_0000
    requires sampleRate == 24000 && channels == 1 && bitsPerSample == 16
    ensures ParseWav(WavFile(pcm, sampleRate, channels, bitsPerSample)) == Some(WavInfo(FormatPcm, 1, 24000, 48000, 2, 16, pcm))
  {
    VoiceFormatFields(sampleRate, channels, bitsPerSample);
    ParseWavFile(pcm, sampleRate, channels, bitsPerSample);
    SmallMod32(sampleRate);
    SmallMod32(ByteRate(sampleRate, channels, bitsPerSample));
    SmallMod16(channels);
    SmallMod16(BlockAlign(channels, bitsPerSample));
    SmallMod16(bitsPerSample);
  }

  /** The header as CreateWavFile writes it, with its C# casts, is Header. */
  lemma HeaderAsWritten(n: nat, sampleRate: Int32, channels: Int32, bitsPerSample: Int32)
    ensures RiffId + Le32(WrapInt32(36 + n)) + WaveId
      + FmtId + Le32(16) + Le16(1) + Le16(ToInt16(channels))
      + Le32(sampleRate) + Le32(ByteRate(sampleRate, channels, bitsPerSample))
      + Le16(ToInt16(BlockAlign(channels, bitsPerSample))) + Le16(ToInt16(bitsPerSample))
      + DataId + Le32(n)
      == Header(n, sampleRate, channels, bitsPerSample)
  {
    Le32Congruent(WrapInt32(36 + n), 36 + n);
    Le16Congruent(ToInt16(channels), channels);
    Le16Congruent(ToInt16(BlockAlign(channels, bitsPerSample)), BlockAlign(channels, bitsPerSample));
    Le16Congruent(ToInt16(bitsPerSample), bitsPerSample);
  }

  /** Writes the header fields one after another, then the samples.  The
      `short` casts keep the low 16 bits, which is what a reader sees. */
  method CreateWavFile(pcmData: seq<Byte>, sampleRate: Int32, channels: Int32, bitsPerSample: Int32)
    returns (wav: seq<Byte>)
    ensures wav == WavFile(pcmData, sampleRate, channels, bitsPerSample)
    ensures |wav| == HeaderSize + |pcmData| && wav[HeaderSize..] == pcmData
  {
    HeaderAsWritten(|pcmData|, sampleRate, channels, bitsPerSample);
    // The MemoryStream behind the BinaryWriter: every Write appends the
    // value's little-endian bytes.
    var stream: seq<Byte> := [];

    stream := stream + RiffId;
    assert stream == RiffId;
    stream := stream + Le32(WrapInt32(36 + |pcmData|));
    stream := stream + WaveId;

    stream := stream + FmtId;
    stream := stream + Le32(16);
    stream := stream + Le16(1);
    stream := stream + Le16(ToInt16(channels));
    stream := stream + Le32(sampleRate);
    stream := stream + Le32(ByteRate(sampleRate, channels, bitsPerSample));
    stream := stream + Le16(ToInt16(BlockAlign(channels, bitsPerSample)));
    stream := stream + Le16(ToInt16(bitsPerSample));

    stream := stream + DataId;
    stream := stream + Le32(|pcmData|);
    assert stream == Header(|pcmData|, sampleRate, channels, bitsPerSample);
    stream := stream + pcmData;

    wav := stream;
  }
}

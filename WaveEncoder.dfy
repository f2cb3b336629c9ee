/**
 The Voice Lab's `audioBufferToWav`: a decoded audio buffer becomes a
 RIFF/WAVE file of 16-bit little-endian PCM, a 44-byte header followed by
 the samples interleaved frame by frame.

 Samples are modelled as mathematical reals, not IEEE doubles, and bytes as
 integers in [0, 256). `DataView.setUint16`, `setUint32` and `setInt16`
 store their argument modulo 2^16 or 2^32 in little-endian order; the
 model writes that reduction out.
 */
module WaveEncoder {
  import opened JsRuntime

  type Byte = b: int | 0 <= b < 256

  const TWO16: int := 0x1_0000
  const TWO32: int := 0x1_0000_0000

  /** The part of a Web Audio `AudioBuffer` the encoder reads:
      `sampleRate`, `length` (frames per channel) and one sample sequence
      per channel (`getChannelData(i)`); `numberOfChannels` is the number
      of sequences. */
  datatype AudioBuffer = AudioBuffer(sampleRate: nat, length: nat, channelData: seq<seq<real>>)
  {
    function NumberOfChannels(): nat {
      |channelData|
    }

    /** Every channel holds `length` samples, as the Web Audio API guarantees. */
    predicate Valid() {
      forall c :: 0 <= c < |channelData| ==> |channelData[c]| == length
    }
  }

  // ---------------------------------------------------------------------
  // Little-endian integers

  /** `setUint16(pos, v, true)` / `setInt16(pos, v, true)`: the low 16 bits
      of v, low byte first (a negative v is stored in two's complement). */
  function LE16(v: int): (r: seq<Byte>)
    ensures |r| == 2
  {
    var u := v % TWO16;
    [u % 256, u / 256]
  }

  /** `setUint32(pos, v, true)`: the low 32 bits of v, low byte first. */
  function LE32(v: int): (r: seq<Byte>)
    ensures |r| == 4
  {
    var u := v % TWO32;
    [u % 256, u / 256 % 256, u / TWO16 % 256, u / 0x100_0000]
  }

  /** `getUint16(pos, true)`. */
  function ReadU16(bs: seq<Byte>, at: nat): int
    requires at + 2 <= |bs|
  {
    bs[at] as int + 256 * bs[at + 1] as int
  }

  /** `getInt16(pos, true)`. */
  function ReadI16(bs: seq<Byte>, at: nat): int
    requires at + 2 <= |bs|
  {
    var u := ReadU16(bs, at);
    if u < 0x8000 then u else u - TWO16
  }

  /** `getUint32(pos, true)`. */
  function ReadU32(bs: seq<Byte>, at: nat): int
    requires at + 4 <= |bs|
  {
    bs[at] as int + 256 * bs[at + 1] as int + TWO16 * bs[at + 2] as int + 0x100_0000 * bs[at + 3] as int
  }

  /** Reading back a 16-bit field gives the value stored, modulo 2^16. */
  lemma LE16RoundTrip(v: int)
    ensures ReadU16(LE16(v), 0) == v % TWO16
  {
    var u := v % TWO16;
    assert u == u % 256 + 256 * (u / 256);
  }

  /** A sample in the 16-bit signed range reads back unchanged. */
  lemma LE16SignedRoundTrip(q: int)
    requires -0x8000 <= q < 0x8000
    ensures ReadI16(LE16(q), 0) == q
  {
    LE16RoundTrip(q);
  }

  /** Reading back a 32-bit field gives the value stored, modulo 2^32. */
  lemma LE32RoundTrip(v: int)
    ensures ReadU32(LE32(v), 0) == v % TWO32
  {
    var u := v % TWO32;
    var b := LE32(v);
    assert u / 256 == u / 256 % 256 + 256 * (u / TWO16);
    assert u / TWO16 == u / TWO16 % 256 + 256 * (u / 0x100_0000);
    assert u == u % 256 + 256 * (u / 256);
  }

  // ---------------------------------------------------------------------
  // Samples

  /** `Math.max(-1, Math.min(1, x))`. */
  function Clamp(x: real): (r: real)
    ensures -1.0 <= r <= 1.0
    ensures -1.0 <= x <= 1.0 ==> r == x
  {
    if x < -1.0 then -1.0 else if x > 1.0 then 1.0 else x
  }

  /** `v | 0` on a value within the 32-bit range: truncation toward zero. */
  function Truncate(x: real): (r: int)
    ensures x >= 0.0 ==> r as real <= x < r as real + 1.0
    ensures x <= 0.0 ==> r as real - 1.0 < x <= r as real
  {
    if x >= 0.0 then x.Floor else -((-x).Floor)
  }

  /** The 16-bit sample the encoder stores for the input sample x: clamp to
      [-1, 1], scale negatives below -0.5 by 32768 and everything else by
      32767, truncate toward zero. */
  function Quantize(x: real): (q: int)
    ensures -0x8000 <= q < 0x8000
    ensures x <= -1.0 ==> q == -0x8000
    ensures x >= 1.0 ==> q == 0x7FFF
    ensures (x >= 0.0 ==> q >= 0) && (x <= 0.0 ==> q <= 0)
  {
    var s := Clamp(x);
    if 0.5 + s < 0.0 then Truncate(s * 32768.0) else Truncate(s * 32767.0)
  }

  /** Inside [-1, 1] the stored sample is the input scaled to the 16-bit
      range, less than one step off and never farther from zero. */
  lemma QuantizeAccuracy(x: real)
    requires -1.0 <= x <= 1.0
    ensures var scaled := if x < -0.5 then x * 32768.0 else x * 32767.0;
      var q := Quantize(x) as real;
      && scaled - 1.0 < q < scaled + 1.0
      && (x >= 0.0 ==> q <= scaled) && (x <= 0.0 ==> scaled <= q)
  {
  }

  /** A louder input never gives a quieter sample. */
  lemma QuantizeMonotonic(x: real, y: real)
    requires x <= y
    ensures Quantize(x) <= Quantize(y)
  {
    var sx, sy := Clamp(x), Clamp(y);
    assert sx <= sy;
    if 0.5 + sx < 0.0 && 0.5 + sy >= 0.0 {
      // the two scalings meet at -16383.5 / -16384: truncation puts the
      // lower branch at or below -16384 and the upper at or above -16383
      assert Quantize(x) <= -0x4000;
      assert Quantize(y) >= -0x3FFF;
    }
  }

  // ---------------------------------------------------------------------
  // The file

  /** `buffer.length * numOfChan * 2 + 44`. */
  function FileLength(b: AudioBuffer): nat {
    b.length * b.NumberOfChannels() * 2 + 44
  }

  /** The 44-byte header, field by field, in the order the encoder writes
      it: the RIFF chunk head, the `fmt ` chunk (PCM, 16 bits per sample)
      and the `data` chunk head. The size written last is computed while
      the cursor is at 40: `length - 40 - 4`. */
  function WaveHeader(channels: int, sampleRate: int, byteRate: int, blockAlign: int, length: int): (r: seq<Byte>)
    ensures |r| == 44
  {
    LE32(0x46464952) + LE32(length - 8) + LE32(0x45564157) + LE32(0x20746d66)
    + LE32(16) + LE16(1) + LE16(channels) + LE32(sampleRate) + LE32(byteRate)
    + LE16(blockAlign) + LE16(16) + LE32(0x61746164) + LE32(length - 40 - 4)
  }

  /** The header of the file for buffer b. */
  function Header(b: AudioBuffer): (r: seq<Byte>)
    ensures |r| == 44
  {
    var ch := b.NumberOfChannels();
    WaveHeader(ch, b.sampleRate, b.sampleRate * 2 * ch, ch * 2, FileLength(b))
  }

  /** The samples of channels 0 .. n-1 of frame f, each as two bytes. */
  function FrameBytes(b: AudioBuffer, f: nat, n: nat): (r: seq<Byte>)
    requires b.Valid() && f < b.length && n <= b.NumberOfChannels()
    ensures |r| == 2 * n
  {
    if n == 0 then [] else FrameBytes(b, f, n - 1) + LE16(Quantize(b.channelData[n - 1][f]))
  }

  /** Frames 0 .. frames-1, interleaved. */
  function Samples(b: AudioBuffer, frames: nat): seq<Byte>
    requires b.Valid() && frames <= b.length
  {
    if frames == 0 then []
    else Samples(b, frames - 1) + FrameBytes(b, frames - 1, b.NumberOfChannels())
  }

  /** Each frame takes two bytes per channel. */
  lemma {:induction false} SamplesLength(b: AudioBuffer, frames: nat)
    requires b.Valid() && frames <= b.length
    ensures |Samples(b, frames)| == frames * b.NumberOfChannels() * 2
  {
    if frames > 0 {
      SamplesLength(b, frames - 1);
      MulSucc(frames - 1, b.NumberOfChannels());
    }
  }

  lemma MulSucc(a: nat, c: nat)
    ensures (a + 1) * c == a * c + c
  {
  }

  lemma MulLe(a: nat, b: nat, c: nat)
    requires a <= b
    ensures a * c <= b * c
  {
  }

  /** The complete file the encoder produces. */
  function WavFile(b: AudioBuffer): seq<Byte>
    requires b.Valid()
  {
    Header(b) + Samples(b, b.length)
  }

  /** The file is `frames * channels * 2 + 44` bytes long. */
  lemma WavFileLength(b: AudioBuffer)
    requires b.Valid()
    ensures |WavFile(b)| == FileLength(b) == b.length * b.NumberOfChannels() * 2 + 44
  {
    SamplesLength(b, b.length);
  }

  /** The byte sequence of an ASCII tag. */
  function Ascii(s: string): (r: seq<Byte>)
    requires forall i :: 0 <= i < |s| ==> s[i] as int < 256
    ensures |r| == |s|
  {
    seq(|s|, i requires 0 <= i < |s| => s[i] as int)
  }

  lemma TagConstants()
    ensures LE32(0x46464952) == Ascii("RIFF") && LE32(0x45564157) == Ascii("WAVE")
    ensures LE32(0x20746d66) == Ascii("fmt ") && LE32(0x61746164) == Ascii("data")
  {
    assert LE32(0x46464952) == [0x52, 0x49, 0x46, 0x46] == Ascii("RIFF");
    assert LE32(0x45564157) == [0x57, 0x41, 0x56, 0x45] == Ascii("WAVE");
    assert LE32(0x20746d66) == [0x66, 0x6d, 0x74, 0x20] == Ascii("fmt ");
    assert LE32(0x61746164) == [0x64, 0x61, 0x74, 0x61] == Ascii("data");
  }

  /** The numeric constants the encoder writes spell the chunk tags
      "RIFF", "WAVE", "fmt " and "data". */
  lemma HeaderTags(channels: int, sampleRate: int, byteRate: int, blockAlign: int, length: int)
    ensures var h := WaveHeader(channels, sampleRate, byteRate, blockAlign, length);
      && h[0..4] == Ascii("RIFF") && h[8..12] == Ascii("WAVE")
      && h[12..16] == Ascii("fmt ") && h[36..40] == Ascii("data")
  {
    var h := WaveHeader(channels, sampleRate, byteRate, blockAlign, length);
    TagConstants();
    assert h[0..4] == LE32(0x46464952);
    assert h[8..12] == LE32(0x45564157);
    assert h[12..16] == LE32(0x20746d66);
    assert h[36..40] == LE32(0x61746164);
  }

  /** Each field reads back, at its offset, as the value written, reduced
      to its width. */
  lemma HeaderFieldsReadBack(channels: int, sampleRate: int, byteRate: int, blockAlign: int, length: int)
    ensures var h := WaveHeader(channels, sampleRate, byteRate, blockAlign, length);
      && ReadU32(h, 4) == (length - 8) % TWO32
      && ReadU32(h, 16) == 16
      && ReadU16(h, 20) == 1
      && ReadU16(h, 22) == channels % TWO16
      && ReadU32(h, 24) == sampleRate % TWO32
      && ReadU32(h, 28) == byteRate % TWO32
      && ReadU16(h, 32) == blockAlign % TWO16
      && ReadU16(h, 34) == 16
      && ReadU32(h, 40) == (length - 44) % TWO32
  {
    var h := WaveHeader(channels, sampleRate, byteRate, blockAlign, length);
    assert h[4..8] == LE32(length - 8);
    LE32RoundTrip(length - 8);
    assert ReadU32(h, 4) == ReadU32(h[4..8], 0);
    assert h[16..20] == LE32(16);
    LE32RoundTrip(16);
    assert ReadU32(h, 16) == ReadU32(h[16..20], 0);
    assert h[20..22] == LE16(1);
    LE16RoundTrip(1);
    assert ReadU16(h, 20) == ReadU16(h[20..22], 0);
    assert h[22..24] == LE16(channels);
    LE16RoundTrip(channels);
    assert ReadU16(h, 22) == ReadU16(h[22..24], 0);
    assert h[24..28] == LE32(sampleRate);
    LE32RoundTrip(sampleRate);
    assert ReadU32(h, 24) == ReadU32(h[24..28], 0);
    assert h[28..32] == LE32(byteRate);
    LE32RoundTrip(byteRate);
    assert ReadU32(h, 28) == ReadU32(h[28..32], 0);
    assert h[32..34] == LE16(blockAlign);
    LE16RoundTrip(blockAlign);
    assert ReadU16(h, 32) == ReadU16(h[32..34], 0);
    assert h[34..36] == LE16(16);
    LE16RoundTrip(16);
    assert ReadU16(h, 34) == ReadU16(h[34..36], 0);
    assert h[40..44] == LE32(length - 40 - 4);
    LE32RoundTrip(length - 40 - 4);
    assert ReadU32(h, 40) == ReadU32(h[40..44], 0);
  }

  /** The sizes a reader of the file's header finds: the RIFF size is the
      file length less 8 and the data size is the number of sample bytes
      (the file length less 44), each reduced to 32 bits. */
  lemma HeaderSizes(b: AudioBuffer)
    requires b.Valid()
    ensures ReadU32(Header(b), 4) == (|WavFile(b)| - 8) % TWO32
    ensures ReadU32(Header(b), 40) == |Samples(b, b.length)| % TWO32
  {
    var ch := b.NumberOfChannels();
    WavFileLength(b);
    HeaderFieldsReadBack(ch, b.sampleRate, b.sampleRate * 2 * ch, ch * 2, FileLength(b));
  }

  /** The format a reader of the file's header finds: the channel count,
      the sample rate, a block alignment of two bytes per channel and a
      byte rate of the sample rate times the block alignment, each reduced
      to its field's width. */
  lemma HeaderFormat(b: AudioBuffer)
    ensures var h, ch := Header(b), b.NumberOfChannels();
      && ReadU16(h, 22) == ch % TWO16
      && ReadU32(h, 24) == b.sampleRate % TWO32
      && ReadU16(h, 32) == (ch * 2) % TWO16
      && ReadU32(h, 28) == (b.sampleRate * 2 * ch) % TWO32
  {
    var ch := b.NumberOfChannels();
    HeaderFieldsReadBack(ch, b.sampleRate, b.sampleRate * 2 * ch, ch * 2, FileLength(b));
  }

  /** The bytes of frame f up to channel n lie inside the frame. */
  lemma {:induction false} FrameBytesAt(b: AudioBuffer, f: nat, n: nat, c: nat)
    requires b.Valid() && f < b.length && n <= b.NumberOfChannels() && c < n
    ensures FrameBytes(b, f, n)[2 * c..2 * c + 2] == LE16(Quantize(b.channelData[c][f]))
  {
    if c < n - 1 {
      FrameBytesAt(b, f, n - 1, c);
      assert FrameBytes(b, f, n)[2 * c..2 * c + 2] == FrameBytes(b, f, n - 1)[2 * c..2 * c + 2];
    }
  }

  /** The samples of the first f frames are a prefix of those of any
      longer run of frames. */
  lemma {:induction false} SamplesPrefix(b: AudioBuffer, f: nat, frames: nat)
    requires b.Valid() && f <= frames <= b.length
    ensures Samples(b, f) <= Samples(b, frames)
  {
    if f < frames {
      SamplesPrefix(b, f, frames - 1);
      assert Samples(b, frames - 1) <= Samples(b, frames);
    }
  }

  /** The byte offset of channel c of frame f in a file with ch channels. */
  function SampleOffset(ch: nat, f: nat, c: nat): nat {
    44 + 2 * (f * ch + c)
  }

  /** The sample of channel c at frame f is stored at byte
      44 + 2·(f·channels + c), and reads back as its quantized value. */
  lemma SampleLocation(b: AudioBuffer, f: nat, c: nat)
    requires b.Valid() && f < b.length && c < b.NumberOfChannels()
    ensures var at := SampleOffset(b.NumberOfChannels(), f, c);
      && at + 2 <= |WavFile(b)|
      && WavFile(b)[at..at + 2] == LE16(Quantize(b.channelData[c][f]))
      && ReadI16(WavFile(b), at) == Quantize(b.channelData[c][f])
  {
    var ch := b.NumberOfChannels();
    var w := WavFile(b);
    var frame := FrameBytes(b, f, ch);
    var at := SampleOffset(ch, f, c);
    FrameInSamples(b, f);
    SamplesLength(b, f);
    assert at == |Header(b)| + |Samples(b, f)| + 2 * c;
    SliceWithin(Header(b), Samples(b, b.length), Samples(b, f), frame, 2 * c);
    FrameBytesAt(b, f, ch, c);
    LE16SignedRoundTrip(Quantize(b.channelData[c][f]));
    assert ReadI16(w, at) == ReadI16(w[at..at + 2], 0);
  }

  /** Frame f follows the frames before it in the sample data. */
  lemma FrameInSamples(b: AudioBuffer, f: nat)
    requires b.Valid() && f < b.length
    ensures Samples(b, f) + FrameBytes(b, f, b.NumberOfChannels()) <= Samples(b, b.length)
  {
    SamplesPrefix(b, f + 1, b.length);
    assert Samples(b, f + 1) == Samples(b, f) + FrameBytes(b, f, b.NumberOfChannels());
  }

  /** Two bytes of a part q of s, found at their offset in h + s. */
  lemma SliceWithin(h: seq<Byte>, s: seq<Byte>, p: seq<Byte>, q: seq<Byte>, i: nat)
    requires p + q <= s && i + 2 <= |q|
    ensures |h| + |p| + i + 2 <= |h + s|
    ensures (h + s)[|h| + |p| + i..|h| + |p| + i + 2] == q[i..i + 2]
  {
    var k := |h| + |p| + i;
    assert (h + s)[k] == s[|p| + i] == (p + q)[|p| + i] == q[i];
    assert (h + s)[k + 1] == s[|p| + i + 1] == (p + q)[|p| + i + 1] == q[i + 1];
  }

  /** A buffer without channels gives the bare header. */
  lemma NoChannelsNoSamples(b: AudioBuffer)
    requires b.Valid() && b.NumberOfChannels() == 0
    ensures WavFile(b) == Header(b)
  {
    SamplesLength(b, b.length);
  }

  // ---------------------------------------------------------------------
  // The encoder

  /** `setUint16` / `setInt16` followed by `pos += 2`. */
  method Put16(view: array<Byte>, pos: nat, v: int) returns (next: nat)
    requires pos + 2 <= view.Length
    modifies view
    ensures next == pos + 2
    ensures view[..next] == old(view[..pos]) + LE16(v)
  {
    var u := v % TWO16;
    view[pos] := u % 256;
    view[pos + 1] := u / 256;
    next := pos + 2;
  }

  /** `setUint32` followed by `pos += 4`. */
  method Put32(view: array<Byte>, pos: nat, v: int) returns (next: nat)
    requires pos + 4 <= view.Length
    modifies view
    ensures next == pos + 4
    ensures view[..next] == old(view[..pos]) + LE32(v)
  {
    var u := v % TWO32;
    view[pos] := u % 256;
    view[pos + 1] := u / 256 % 256;
    view[pos + 2] := u / TWO16 % 256;
    view[pos + 3] := u / 0x100_0000;
    next := pos + 4;
  }

  /** The header writes of `audioBufferToWav` (VoiceLab.tsx:58-71), into a
      view whose cursor starts at 0. */
  method WriteHeader(view: array<Byte>, numOfChan: nat, sampleRate: nat, byteRate: int, blockAlign: int, length: int)
    returns (pos: nat)
    requires view.Length == length >= 44
    modifies view
    ensures pos == 44
    ensures view[..pos] == WaveHeader(numOfChan, sampleRate, byteRate, blockAlign, length)
  {
    pos := 0;
    pos := Put32(view, pos, 0x46464952);
    ghost var written := LE32(0x46464952);
    assert view[..pos] == written;
    pos := Put32(view, pos, length - 8);
    written := written + LE32(length - 8);
    assert view[..pos] == written;
    pos := Put32(view, pos, 0x45564157);
    written := written + LE32(0x45564157);
    assert view[..pos] == written;
    pos := Put32(view, pos, 0x20746d66);
    written := written + LE32(0x20746d66);
    assert view[..pos] == written;
    pos := Put32(view, pos, 16);
    written := written + LE32(16);
    assert view[..pos] == written;
    pos := Put16(view, pos, 1);
    written := written + LE16(1);
    assert view[..pos] == written;
    pos := Put16(view, pos, numOfChan);
    written := written + LE16(numOfChan);
    assert view[..pos] == written;
    pos := Put32(view, pos, sampleRate);
    written := written + LE32(sampleRate);
    assert view[..pos] == written;
    pos := Put32(view, pos, byteRate);
    written := written + LE32(byteRate);
    assert view[..pos] == written;
    pos := Put16(view, pos, blockAlign);
    written := written + LE16(blockAlign);
    assert view[..pos] == written;
    pos := Put16(view, pos, 16);
    written := written + LE16(16);
    assert view[..pos] == written;
    pos := Put32(view, pos, 0x61746164);
    written := written + LE32(0x61746164);
    assert view[..pos] == written;
    // the argument is computed while pos is still 40
    pos := Put32(view, pos, length - pos - 4);
    written := written + LE32(length - 40 - 4);
    assert view[..pos] == written;
  }

  /** The cursor arithmetic of the sample loop: with `ch` channels, frame
      `offset` of `frames` starts at byte 44 + offset·ch·2. */
  lemma FrameArithmetic(offset: nat, frames: nat, ch: nat)
    requires offset <= frames
    ensures (offset + 1) * ch * 2 == offset * ch * 2 + 2 * ch
    ensures offset * ch * 2 < frames * ch * 2 ==> 0 < ch && offset < frames && (offset + 1) * ch * 2 <= frames * ch * 2
    ensures offset * ch * 2 == frames * ch * 2 ==> ch == 0 || offset == frames
  {
    MulSucc(offset, ch);
    if offset < frames {
      MulLe(offset + 1, frames, ch);
    }
  }

  /** One pass of the inner loop of `audioBufferToWav` (VoiceLab.tsx:87-92):
      the samples of frame `offset`, channel by channel. */
  method WriteFrame(view: array<Byte>, pos: nat, buffer: AudioBuffer, channels: seq<seq<real>>, offset: nat)
    returns (next: nat)
    requires buffer.Valid() && channels == buffer.channelData && offset < buffer.length
    requires pos + 2 * |channels| <= view.Length
    modifies view
    ensures next == pos + 2 * |channels|
    ensures view[..next] == old(view[..pos]) + FrameBytes(buffer, offset, |channels|)
  {
    next := pos;
    for i := 0 to |channels|
      invariant next == pos + 2 * i
      invariant view[..next] == old(view[..pos]) + FrameBytes(buffer, offset, i)
    {
      var sample := Clamp(channels[i][offset]);
      var q := if 0.5 + sample < 0.0 then Truncate(sample * 32768.0) else Truncate(sample * 32767.0);
      next := Put16(view, next, q);
    }
  }

  /** The sample loop of `audioBufferToWav` (VoiceLab.tsx:86-94): from
      byte 44 to the end of the view, frame after frame. */
  method WriteSamples(view: array<Byte>, buffer: AudioBuffer, channels: seq<seq<real>>) returns (pos: nat)
    requires buffer.Valid() && channels == buffer.channelData
    requires view.Length == buffer.length * |channels| * 2 + 44
    modifies view
    ensures pos == view.Length
    ensures view[..] == old(view[..44]) + Samples(buffer, buffer.length)
  {
    var length := view.Length;
    var numOfChan := |channels|;
    pos := 44;
    var offset := 0;
    while pos < length
      invariant 44 <= pos <= length && offset <= buffer.length
      invariant view[..pos] == old(view[..44]) + Samples(buffer, offset)
      decreases length - pos
    {
      assert 0 < numOfChan && offset < buffer.length && pos + 2 * numOfChan <= length by {
        SamplesLength(buffer, offset);
        FrameArithmetic(offset, buffer.length, numOfChan);
      }
      pos := WriteFrame(view, pos, buffer, channels, offset);
      AppendAssoc(old(view[..44]), Samples(buffer, offset), FrameBytes(buffer, offset, numOfChan));
      offset := offset + 1;
    }
    assert Samples(buffer, offset) == Samples(buffer, buffer.length) by {
      SamplesLength(buffer, offset);
      SamplesLength(buffer, buffer.length);
      FrameArithmetic(offset, buffer.length, numOfChan);
    }
    assert view[..] == view[..pos];
  }

  /** `audioBufferToWav` (VoiceLab.tsx:49-96): the bytes of the returned
      buffer are exactly `WavFile(buffer)`. */
  method AudioBufferToWav(buffer: AudioBuffer) returns (view: array<Byte>)
    requires buffer.Valid()
    ensures fresh(view)
    ensures view[..] == WavFile(buffer)
  {
    var numOfChan := buffer.NumberOfChannels();
    var length := buffer.length * numOfChan * 2 + 44;
    view := new Byte[length];
    var pos := WriteHeader(view, numOfChan, buffer.sampleRate, buffer.sampleRate * 2 * numOfChan, numOfChan * 2, length);

    var channels: seq<seq<real>> := [];
    for i := 0 to numOfChan
      invariant channels == buffer.channelData[..i]
    {
      channels := channels + [buffer.channelData[i]];
    }
    assert channels == buffer.channelData;

    pos := WriteSamples(view, buffer, channels);
  }
}

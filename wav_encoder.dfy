/** The WAV encoder of the front end (App.js, encodeWAV and writeString):
    the canonical 44-byte RIFF/WAVE header of the Microsoft/IBM Multimedia
    Programming Interface and Data Specifications 1.0 (a `fmt ` chunk with
    WAVE_FORMAT_PCM = 1), then the samples as interleaved 16-bit
    little-endian PCM. */
module WavEncoder {

  /** One byte of the ArrayBuffer. */
  type Octet = b: int | 0 <= b < 256

  /** A sample already quantised to 16 bits. */
  type Int16 = x: int | -0x8000 <= x < 0x8000

  const HeaderSize: nat := 44
  const FmtChunkSize: nat := 16
  const WaveFormatPcm: nat := 1
  const BitsPerSample: nat := 16

  /** The decoded recording: numberOfChannels, sampleRate, length (frames)
      and getChannelData(ch)[i], the samples taken as already quantised. */
  datatype AudioBuffer = AudioBuffer(numberOfChannels: nat, sampleRate: nat, length: nat,
                                     channelData: seq<seq<Int16>>)

  /** `audioBuffer.length * numChannels` */
  function Samples(a: AudioBuffer): nat {
    a.length * a.numberOfChannels
  }

  /** `sampleRate * numChannels * 2`: bytes per second. */
  function ByteRate(a: AudioBuffer): nat {
    a.sampleRate * a.numberOfChannels * 2
  }

  /** `numChannels * 2`: bytes per frame. */
  function BlockAlign(a: AudioBuffer): nat {
    a.numberOfChannels * 2
  }

  /** `audioBuffer.length * numChannels * 2`: bytes of sample data. */
  function DataSize(a: AudioBuffer): nat {
    2 * Samples(a)
  }

  /** One channel of data per channel, each `length` frames long, as Web
      Audio guarantees. */
  predicate WellFormed(a: AudioBuffer) {
    && |a.channelData| == a.numberOfChannels
    && (forall ch :: 0 <= ch < |a.channelData| ==> |a.channelData[ch]| == a.length)
  }

  /** Header values that fit their fields, so that DataView's ToUint16 and
      ToUint32 never wrap. */
  predicate FitsHeader(a: AudioBuffer) {
    && BlockAlign(a) < 0x1_0000
    && a.sampleRate < 0x1_0000_0000
    && ByteRate(a) < 0x1_0000_0000
    && 36 + DataSize(a) < 0x1_0000_0000
  }

  predicate Valid(a: AudioBuffer) {
    WellFormed(a) && FitsHeader(a)
  }

  /** `setUint16(offset, v, true)`: low byte first. */
  function LE16(v: nat): (r: seq<Octet>)
    requires v < 0x1_0000
    ensures |r| == 2
  {
    [v % 0x100, v / 0x100]
  }

  /** `setUint32(offset, v, true)`: least significant byte first. */
  function LE32(v: nat): (r: seq<Octet>)
    requires v < 0x1_0000_0000
    ensures |r| == 4
  {
    LE16(v % 0x1_0000) + LE16(v / 0x1_0000)
  }

  /** `setInt16(offset, x, true)`: the two's complement of x, low byte first. */
  function Int16LE(x: Int16): (r: seq<Octet>)
    ensures |r| == 2
  {
    LE16(if x < 0 then x + 0x1_0000 else x)
  }

  /** The bytes writeString stores: `charCodeAt(i)` cut to 8 bits by setUint8. */
  function Tag(s: string): (r: seq<Octet>)
    ensures |r| == |s|
  {
    seq(|s|, i requires 0 <= i < |s| => (s[i] as int) % 0x100)
  }

  /** Reading fields back out of a byte sequence, little-endian. */
  function U16At(b: seq<Octet>, o: nat): nat
    requires o + 2 <= |b|
  {
    (b[o] as int) + 0x100 * (b[o + 1] as int)
  }

  function U32At(b: seq<Octet>, o: nat): nat
    requires o + 4 <= |b|
  {
    U16At(b, o) + 0x1_0000 * U16At(b, o + 2)
  }

  function S16At(b: seq<Octet>, o: nat): int
    requires o + 2 <= |b|
  {
    var u := U16At(b, o);
    if u >= 0x8000 then u - 0x1_0000 else u
  }

  lemma LE16RoundTrip(v: nat)
    requires v < 0x1_0000
    ensures U16At(LE16(v), 0) == v
  {
  }

  /** A 32-bit field reads back as the value written. */
  lemma LE32RoundTrip(v: nat)
    requires v < 0x1_0000_0000
    ensures U32At(LE32(v), 0) == v
  {
    var b := LE32(v);
    LE16RoundTrip(v % 0x1_0000);
    LE16RoundTrip(v / 0x1_0000);
    assert U16At(b, 0) == U16At(LE16(v % 0x1_0000), 0);
    assert U16At(b, 2) == U16At(LE16(v / 0x1_0000), 0);
  }

  /** A sample reads back as the value written. */
  lemma Int16RoundTrip(x: Int16)
    ensures S16At(Int16LE(x), 0) == x
  {
    LE16RoundTrip(if x < 0 then x + 0x1_0000 else x);
  }

  /** The RIFF chunk descriptor: "RIFF", the chunk size, "WAVE". */
  function RiffDescriptor(dataSize: nat): (r: seq<Octet>)
    requires 36 + dataSize < 0x1_0000_0000
    ensures |r| == 12
  {
    Tag("RIFF") + LE32(36 + dataSize) + Tag("WAVE")
  }

  /** The `fmt ` sub-chunk: its identifier and size, then the PCM format
      fields. */
  function FmtChunk(numChannels: nat, sampleRate: nat, byteRate: nat, blockAlign: nat): (r: seq<Octet>)
    requires numChannels < 0x1_0000 && blockAlign < 0x1_0000
    requires sampleRate < 0x1_0000_0000 && byteRate < 0x1_0000_0000
    ensures |r| == 24
  {
    FmtFormat(numChannels) + FmtRates(sampleRate, byteRate, blockAlign)
  }

  /** The first half of the `fmt ` sub-chunk: identifier, size, format tag
      and channel count. */
  function FmtFormat(numChannels: nat): (r: seq<Octet>)
    requires numChannels < 0x1_0000
    ensures |r| == 12
  {
    Tag("fmt ") + LE32(FmtChunkSize) + LE16(WaveFormatPcm) + LE16(numChannels)
  }

  /** The second half of the `fmt ` sub-chunk: sample rate, byte rate, block
      align and bits per sample. */
  function FmtRates(sampleRate: nat, byteRate: nat, blockAlign: nat): (r: seq<Octet>)
    requires blockAlign < 0x1_0000
    requires sampleRate < 0x1_0000_0000 && byteRate < 0x1_0000_0000
    ensures |r| == 12
  {
    LE32(sampleRate) + LE32(byteRate) + LE16(blockAlign) + LE16(BitsPerSample)
  }

  /** The head of the `data` sub-chunk: its identifier and size. */
  function DataChunkHead(dataSize: nat): (r: seq<Octet>)
    requires dataSize < 0x1_0000_0000
    ensures |r| == 8
  {
    Tag("data") + LE32(dataSize)
  }

  /** The 44 header bytes in the order encodeWAV writes them: the RIFF
      descriptor (bytes 0-11), the `fmt ` sub-chunk (12-35) and the head of
      the `data` sub-chunk (36-43). */
  function HeaderBytes(numChannels: nat, sampleRate: nat, byteRate: nat, blockAlign: nat, dataSize: nat): (h: seq<Octet>)
    requires numChannels < 0x1_0000 && blockAlign < 0x1_0000
    requires sampleRate < 0x1_0000_0000 && byteRate < 0x1_0000_0000 && 36 + dataSize < 0x1_0000_0000
    ensures |h| == HeaderSize
  {
    RiffDescriptor(dataSize) + FmtChunk(numChannels, sampleRate, byteRate, blockAlign) + DataChunkHead(dataSize)
  }

  /** The header of a recording: byte rate sampleRate * numChannels * 2,
      block align numChannels * 2, data size two bytes per sample. */
  function Header(a: AudioBuffer): (h: seq<Octet>)
    requires Valid(a)
    ensures |h| == HeaderSize
  {
    HeaderBytes(a.numberOfChannels, a.sampleRate, ByteRate(a), BlockAlign(a), DataSize(a))
  }

  /** Frame i: the i-th sample of every channel, in channel order. */
  function Frame(a: AudioBuffer, i: nat): (f: seq<Int16>)
    requires WellFormed(a) && i < a.length
    ensures |f| == a.numberOfChannels
  {
    seq(a.numberOfChannels, ch requires 0 <= ch < a.numberOfChannels => a.channelData[ch][i])
  }

  /** The samples of the first `frames` frames, interleaved frame by frame. */
  function Interleaved(a: AudioBuffer, frames: nat): seq<Int16>
    requires WellFormed(a) && frames <= a.length
  {
    if frames == 0 then [] else Interleaved(a, frames - 1) + Frame(a, frames - 1)
  }

  /** The bytes of a run of samples, two per sample. */
  function PcmBytes(xs: seq<Int16>): seq<Octet>
  {
    if xs == [] then [] else PcmBytes(xs[..|xs| - 1]) + Int16LE(xs[|xs| - 1])
  }

  /** The whole file encodeWAV produces. */
  function WavBytes(a: AudioBuffer): seq<Octet>
    requires Valid(a)
  {
    Header(a) + PcmBytes(Interleaved(a, a.length))
  }

  /** Each frame adds numberOfChannels samples. */
  lemma {:induction false} InterleavedLength(a: AudioBuffer, frames: nat)
    requires WellFormed(a) && frames <= a.length
    ensures |Interleaved(a, frames)| == frames * a.numberOfChannels
  {
    if frames > 0 {
      InterleavedLength(a, frames - 1);
      assert frames * a.numberOfChannels == (frames - 1) * a.numberOfChannels + a.numberOfChannels;
    }
  }

  /** Channel ch of frame i sits at index i * numberOfChannels + ch of the
      interleaved run. */
  lemma {:induction false} InterleavedAt(a: AudioBuffer, frames: nat, i: nat, ch: nat)
    requires WellFormed(a) && i < frames <= a.length && ch < a.numberOfChannels
    ensures i * a.numberOfChannels + ch < |Interleaved(a, frames)|
    ensures Interleaved(a, frames)[i * a.numberOfChannels + ch] == a.channelData[ch][i]
  {
    var nc := a.numberOfChannels;
    var prev := Interleaved(a, frames - 1);
    InterleavedLength(a, frames - 1);
    InterleavedLength(a, frames);
    MulLess(i, frames, nc, ch);
    if i < frames - 1 {
      InterleavedAt(a, frames - 1, i, ch);
    } else {
      assert i * nc + ch == |prev| + ch;
    }
  }

  /** i * n + c stays below j * n when i < j and c < n. */
  lemma MulLess(i: nat, j: nat, n: nat, c: nat)
    requires i < j && c < n
    ensures i * n + c < j * n
  {
    assert (i + 1) * n <= j * n by {
      MulMono(i + 1, j, n);
    }
  }

  lemma MulMono(i: nat, j: nat, n: nat)
    requires i <= j
    ensures i * n <= j * n
  {
  }

  /** Sample k of a run occupies bytes 2k and 2k + 1. */
  lemma {:induction false} PcmBytesAt(xs: seq<Int16>)
    ensures |PcmBytes(xs)| == 2 * |xs|
    ensures forall k :: 0 <= k < |xs| ==> PcmBytes(xs)[2 * k..2 * k + 2] == Int16LE(xs[k])
  {
    if xs != [] {
      var init := xs[..|xs| - 1];
      PcmBytesAt(init);
      forall k | 0 <= k < |xs|
        ensures PcmBytes(xs)[2 * k..2 * k + 2] == Int16LE(xs[k])
      {
        if k < |xs| - 1 {
          assert PcmBytes(xs)[2 * k..2 * k + 2] == PcmBytes(init)[2 * k..2 * k + 2];
        }
      }
    }
  }

  /** The buffer is 44 bytes of header plus two bytes per sample. */
  lemma WavLength(a: AudioBuffer)
    requires Valid(a)
    ensures |WavBytes(a)| == HeaderSize + DataSize(a)
    ensures WavBytes(a)[..HeaderSize] == Header(a)
  {
    InterleavedLength(a, a.length);
    PcmBytesAt(Interleaved(a, a.length));
  }

  /** Reading a field depends only on its bytes. */
  lemma FieldAt(w: seq<Octet>, o: nat, bytes: seq<Octet>)
    requires o + |bytes| <= |w| && w[o..o + |bytes|] == bytes
    ensures |bytes| >= 2 ==> U16At(w, o) == U16At(bytes, 0) && S16At(w, o) == S16At(bytes, 0)
    ensures |bytes| >= 4 ==> U32At(w, o) == U32At(bytes, 0)
  {
    if |bytes| >= 2 {
      assert w[o] == bytes[0] && w[o + 1] == bytes[1];
    }
    if |bytes| >= 4 {
      assert w[o + 2] == bytes[2] && w[o + 3] == bytes[3];
    }
  }

  /** The parts of a concatenation are its slices. */
  lemma Parts3(a: seq<Octet>, b: seq<Octet>, c: seq<Octet>)
    ensures var w := a + b + c;
      && w[0..|a|] == a
      && w[|a|..|a| + |b|] == b
      && w[|a| + |b|..|a| + |b| + |c|] == c
  {
    var w := a + b + c;
    assert forall k :: 0 <= k < |b| ==> w[|a| + k] == b[k];
    assert forall k :: 0 <= k < |c| ==> w[|a| + |b| + k] == c[k];
  }

  lemma Parts4(a: seq<Octet>, b: seq<Octet>, c: seq<Octet>, d: seq<Octet>)
    ensures var w := a + b + c + d;
      && w[|a|..|a| + |b|] == b
      && w[|a| + |b|..|a| + |b| + |c|] == c
      && w[|a| + |b| + |c|..|a| + |b| + |c| + |d|] == d
  {
    var w := a + b + c + d;
    assert forall k :: 0 <= k < |b| ==> w[|a| + k] == b[k];
    assert forall k :: 0 <= k < |c| ==> w[|a| + |b| + k] == c[k];
    assert forall k :: 0 <= k < |d| ==> w[|a| + |b| + |c| + k] == d[k];
  }

  lemma RiffLayout(dataSize: nat)
    requires 36 + dataSize < 0x1_0000_0000
    ensures var r := RiffDescriptor(dataSize);
      r[0..4] == [0x52, 0x49, 0x46, 0x46] && U32At(r, 4) == 36 + dataSize && r[8..12] == [0x57, 0x41, 0x56, 0x45]
  {
    var r := RiffDescriptor(dataSize);
    Parts3(Tag("RIFF"), LE32(36 + dataSize), Tag("WAVE"));
    assert r[0..4] == Tag("RIFF");
    assert r[8..12] == Tag("WAVE");
    FieldAt(r, 4, LE32(36 + dataSize));
    LE32RoundTrip(36 + dataSize);
  }

  lemma FmtLayout(numChannels: nat, sampleRate: nat, byteRate: nat, blockAlign: nat)
    requires numChannels < 0x1_0000 && blockAlign < 0x1_0000
    requires sampleRate < 0x1_0000_0000 && byteRate < 0x1_0000_0000
    ensures var f := FmtChunk(numChannels, sampleRate, byteRate, blockAlign);
      && f[0..4] == [0x66, 0x6d, 0x74, 0x20]
      && U32At(f, 4) == 16 && U16At(f, 8) == 1 && U16At(f, 10) == numChannels
      && U32At(f, 12) == sampleRate && U32At(f, 16) == byteRate
      && U16At(f, 20) == blockAlign && U16At(f, 22) == 16
  {
    var f := FmtChunk(numChannels, sampleRate, byteRate, blockAlign);
    var g := FmtFormat(numChannels);
    var r := FmtRates(sampleRate, byteRate, blockAlign);
    FmtFormatLayout(numChannels);
    FmtRatesLayout(sampleRate, byteRate, blockAlign);
    assert f[0..12] == g;
    assert f[12..24] == r;
    ShiftedFields(f, 0, g);
    ShiftedFields(f, 12, r);
    assert f[0..4] == g[0..4];
  }

  lemma FmtFormatLayout(numChannels: nat)
    requires numChannels < 0x1_0000
    ensures var g := FmtFormat(numChannels);
      && g[0..4] == [0x66, 0x6d, 0x74, 0x20]
      && U32At(g, 4) == 16 && U16At(g, 8) == 1 && U16At(g, 10) == numChannels
  {
    var g := FmtFormat(numChannels);
    Parts4(Tag("fmt "), LE32(FmtChunkSize), LE16(WaveFormatPcm), LE16(numChannels));
    assert g[0..4] == Tag("fmt ");
    FieldAt(g, 4, LE32(FmtChunkSize));
    FieldAt(g, 8, LE16(WaveFormatPcm));
    FieldAt(g, 10, LE16(numChannels));
    LE32RoundTrip(FmtChunkSize);
    LE16RoundTrip(WaveFormatPcm);
    LE16RoundTrip(numChannels);
  }

  lemma FmtRatesLayout(sampleRate: nat, byteRate: nat, blockAlign: nat)
    requires blockAlign < 0x1_0000
    requires sampleRate < 0x1_0000_0000 && byteRate < 0x1_0000_0000
    ensures var r := FmtRates(sampleRate, byteRate, blockAlign);
      U32At(r, 0) == sampleRate && U32At(r, 4) == byteRate && U16At(r, 8) == blockAlign && U16At(r, 10) == 16
  {
    var r := FmtRates(sampleRate, byteRate, blockAlign);
    Parts4(LE32(sampleRate), LE32(byteRate), LE16(blockAlign), LE16(BitsPerSample));
    FieldAt(r, 0, LE32(sampleRate));
    FieldAt(r, 4, LE32(byteRate));
    FieldAt(r, 8, LE16(blockAlign));
    FieldAt(r, 10, LE16(BitsPerSample));
    LE32RoundTrip(sampleRate);
    LE32RoundTrip(byteRate);
    LE16RoundTrip(blockAlign);
    LE16RoundTrip(BitsPerSample);
  }

  lemma DataLayout(dataSize: nat)
    requires dataSize < 0x1_0000_0000
    ensures var d := DataChunkHead(dataSize);
      d[0..4] == [0x64, 0x61, 0x74, 0x61] && U32At(d, 4) == dataSize
  {
    var d := DataChunkHead(dataSize);
    assert d[0..4] == Tag("data") && d[4..8] == LE32(dataSize);
    FieldAt(d, 4, LE32(dataSize));
    LE32RoundTrip(dataSize);
  }

  /** Fields of a part read the same at their shifted offsets in the whole. */
  lemma ShiftedFields(w: seq<Octet>, o: nat, part: seq<Octet>)
    requires o + |part| <= |w| && w[o..o + |part|] == part
    ensures forall x: nat :: x + 2 <= |part| ==> U16At(w, o + x) == U16At(part, x)
    ensures forall x: nat :: x + 4 <= |part| ==> U32At(w, o + x) == U32At(part, x)
  {
    assert forall k :: 0 <= k < |part| ==> w[o + k] == part[k];
  }

  /** The first 44 bytes of h read as a canonical PCM WAVE header with the
      given fields: the four chunk identifiers as ASCII bytes, the RIFF
      chunk size 36 + dataSize, a 16-byte `fmt ` chunk of format 1 (PCM) and
      16 bits per sample, and the data chunk size. */
  predicate HasHeaderFields(h: seq<Octet>, numChannels: nat, sampleRate: nat, byteRate: nat, blockAlign: nat, dataSize: nat)
    requires |h| >= HeaderSize
  {
      && h[0..4] == [0x52, 0x49, 0x46, 0x46]    // "RIFF"
      && U32At(h, 4) == 36 + dataSize
      && h[8..12] == [0x57, 0x41, 0x56, 0x45]   // "WAVE"
      && h[12..16] == [0x66, 0x6d, 0x74, 0x20]  // "fmt "
      && U32At(h, 16) == 16
      && U16At(h, 20) == 1
      && U16At(h, 22) == numChannels
      && U32At(h, 24) == sampleRate
      && U32At(h, 28) == byteRate
      && U16At(h, 32) == blockAlign
      && U16At(h, 34) == 16
      && h[36..40] == [0x64, 0x61, 0x74, 0x61]  // "data"
      && U32At(h, 40) == dataSize
  }

  /** The header read field by field: the chunk identifiers as ASCII bytes
      and every numeric field back as the value given. */
  lemma HeaderLayout(numChannels: nat, sampleRate: nat, byteRate: nat, blockAlign: nat, dataSize: nat)
    requires numChannels < 0x1_0000 && blockAlign < 0x1_0000
    requires sampleRate < 0x1_0000_0000 && byteRate < 0x1_0000_0000 && 36 + dataSize < 0x1_0000_0000
    ensures HasHeaderFields(HeaderBytes(numChannels, sampleRate, byteRate, blockAlign, dataSize),
                            numChannels, sampleRate, byteRate, blockAlign, dataSize)
  {
    var r := RiffDescriptor(dataSize);
    var f := FmtChunk(numChannels, sampleRate, byteRate, blockAlign);
    var d := DataChunkHead(dataSize);
    var h := HeaderBytes(numChannels, sampleRate, byteRate, blockAlign, dataSize);
    RiffLayout(dataSize);
    FmtLayout(numChannels, sampleRate, byteRate, blockAlign);
    DataLayout(dataSize);
    assert h[0..12] == r;
    assert h[12..36] == f;
    assert h[36..44] == d;
    ShiftedFields(h, 0, r);
    ShiftedFields(h, 12, f);
    ShiftedFields(h, 36, d);
    assert h[0..4] == r[0..4];
    assert h[8..12] == r[8..12];
    assert h[12..16] == f[0..4];
    assert h[36..40] == d[0..4];
  }

  /** A slice of the second part of a concatenation. */
  lemma ConcatSlice(h: seq<Octet>, p: seq<Octet>, o: nat, n: nat)
    requires o + n <= |p|
    ensures (h + p)[|h| + o..|h| + o + n] == p[o..o + n]
  {
  }

  /** The header fields of the whole file: "RIFF", "WAVE", "fmt " and "data"
      at 0, 8, 12 and 36; the RIFF size (file length minus 8) at 4; the fmt
      chunk (size 16, PCM, channels, sample rate, byte rate
      sampleRate * numChannels * 2, block align numChannels * 2, 16 bits) at
      16 to 34; the data size (two bytes per sample) at 40. */
  lemma WavHeaderFields(a: AudioBuffer, w: seq<Octet>)
    requires Valid(a) && w == WavBytes(a)
    ensures |w| == HeaderSize + DataSize(a)
    ensures HasHeaderFields(w, a.numberOfChannels, a.sampleRate, ByteRate(a), BlockAlign(a), DataSize(a))
  {
    WavLength(a);
    PrefixHeader(w, a.numberOfChannels, a.sampleRate, ByteRate(a), BlockAlign(a), DataSize(a));
  }

  /** A byte sequence that starts with a header has that header's fields. */
  lemma PrefixHeader(w: seq<Octet>, numChannels: nat, sampleRate: nat, byteRate: nat, blockAlign: nat, dataSize: nat)
    requires numChannels < 0x1_0000 && blockAlign < 0x1_0000
    requires sampleRate < 0x1_0000_0000 && byteRate < 0x1_0000_0000 && 36 + dataSize < 0x1_0000_0000
    requires |w| >= HeaderSize && w[..HeaderSize] == HeaderBytes(numChannels, sampleRate, byteRate, blockAlign, dataSize)
    ensures HasHeaderFields(w, numChannels, sampleRate, byteRate, blockAlign, dataSize)
  {
    var h := HeaderBytes(numChannels, sampleRate, byteRate, blockAlign, dataSize);
    HeaderLayout(numChannels, sampleRate, byteRate, blockAlign, dataSize);
    ShiftedFields(w, 0, h);
    assert w[0..4] == h[0..4];
    assert w[8..12] == h[8..12];
    assert w[12..16] == h[12..16];
    assert w[36..40] == h[36..40];
  }

  /** Where encodeWAV puts channel ch of frame i: after the header, two
      bytes per sample, frame after frame. */
  function SampleOffset(a: AudioBuffer, i: nat, ch: nat): nat {
    HeaderSize + 2 * (i * a.numberOfChannels + ch)
  }

  /** Channel ch of frame i of the file (w, the bytes of WavBytes(a)) is the
      little-endian int16 at SampleOffset(a, i, ch). */
  lemma WavSampleAt(a: AudioBuffer, w: seq<Octet>, i: nat, ch: nat)
    requires Valid(a) && w == WavBytes(a) && i < a.length && ch < a.numberOfChannels
    ensures SampleOffset(a, i, ch) + 2 <= |w|
    ensures S16At(w, SampleOffset(a, i, ch)) == a.channelData[ch][i]
  {
    var xs := Interleaved(a, a.length);
    var k := i * a.numberOfChannels + ch;
    InterleavedAt(a, a.length, i, ch);
    PcmBytesAt(xs);
    var o := HeaderSize + 2 * k;
    ConcatSlice(Header(a), PcmBytes(xs), 2 * k, 2);
    assert w[o..o + 2] == Int16LE(xs[k]);
    FieldAt(w, o, Int16LE(xs[k]));
    Int16RoundTrip(xs[k]);
  }

  /* The writes into the ArrayBuffer, through its DataView. Each one stores
     exactly the bytes of its field and leaves every other byte as it was. */

  /** writeString: character i of s, cut to 8 bits by setUint8, at
      offset + i. */
  method WriteString(view: array<Octet>, offset: nat, s: string)
    requires offset + |s| <= view.Length
    modifies view
    ensures view[..offset + |s|] == old(view[..offset]) + Tag(s)
    ensures forall p :: offset + |s| <= p <= view.Length ==> view[p..] == old(view[p..])
  {
    for i := 0 to |s|
      invariant view[..offset + i] == old(view[..offset]) + Tag(s)[..i]
      invariant view[offset + i..] == old(view[offset + i..])
    {
      view[offset + i] := (s[i] as int) % 0x100;
      assert Tag(s)[..i + 1] == Tag(s)[..i] + [(s[i] as int) % 0x100];
    }
    assert Tag(s)[..|s|] == Tag(s);
  }

  /** DataView.setUint16(o, v, true). */
  method SetUint16(view: array<Octet>, o: nat, v: nat)
    requires o + 2 <= view.Length && v < 0x1_0000
    modifies view
    ensures view[..o + 2] == old(view[..o]) + LE16(v)
    ensures forall p :: o + 2 <= p <= view.Length ==> view[p..] == old(view[p..])
  {
    var b := LE16(v);
    view[o] := b[0];
    view[o + 1] := b[1];
  }

  /** DataView.setUint32(o, v, true). */
  method SetUint32(view: array<Octet>, o: nat, v: nat)
    requires o + 4 <= view.Length && v < 0x1_0000_0000
    modifies view
    ensures view[..o + 4] == old(view[..o]) + LE32(v)
    ensures forall p :: o + 4 <= p <= view.Length ==> view[p..] == old(view[p..])
  {
    var b := LE32(v);
    view[o] := b[0];
    view[o + 1] := b[1];
    view[o + 2] := b[2];
    view[o + 3] := b[3];
  }

  /** DataView.setInt16(o, x, true). */
  method SetInt16(view: array<Octet>, o: nat, x: Int16)
    requires o + 2 <= view.Length
    modifies view
    ensures view[..o + 2] == old(view[..o]) + Int16LE(x)
    ensures forall p :: o + 2 <= p <= view.Length ==> view[p..] == old(view[p..])
  {
    var b := Int16LE(x);
    view[o] := b[0];
    view[o + 1] := b[1];
  }

  /** One more sample appended to an interleaved run adds its two bytes
      after everything written before. */
  lemma PcmBytesSnoc(header: seq<Octet>, xs: seq<Int16>, x: Int16)
    ensures header + PcmBytes(xs + [x]) == (header + PcmBytes(xs)) + Int16LE(x)
  {
    assert (xs + [x])[..|xs|] == xs;
    assert PcmBytes(xs + [x]) == PcmBytes(xs) + Int16LE(x);
  }

  /** App.js lines 64-66: the RIFF descriptor at bytes 0-11. */
  method WriteRiffDescriptor(view: array<Octet>, dataSize: nat)
    requires HeaderSize <= view.Length && 36 + dataSize < 0x1_0000_0000
    modifies view
    ensures view[..12] == RiffDescriptor(dataSize)
    ensures view[12..] == old(view[12..])
  {
    WriteString(view, 0, "RIFF");
    SetUint32(view, 4, 36 + dataSize);
    WriteString(view, 8, "WAVE");
  }

  /** App.js lines 67-74: the `fmt ` sub-chunk at bytes 12-35. */
  method WriteFmtChunk(view: array<Octet>, numChannels: nat, sampleRate: nat, byteRate: nat, blockAlign: nat)
    requires HeaderSize <= view.Length
    requires numChannels < 0x1_0000 && blockAlign < 0x1_0000
    requires sampleRate < 0x1_0000_0000 && byteRate < 0x1_0000_0000
    modifies view
    ensures view[..36] == old(view[..12]) + FmtChunk(numChannels, sampleRate, byteRate, blockAlign)
    ensures view[36..] == old(view[36..])
  {
    WriteString(view, 12, "fmt ");
    SetUint32(view, 16, FmtChunkSize);
    SetUint16(view, 20, WaveFormatPcm);
    SetUint16(view, 22, numChannels);
    assert view[..24] == old(view[..12]) + FmtFormat(numChannels);
    SetUint32(view, 24, sampleRate);
    SetUint32(view, 28, byteRate);
    SetUint16(view, 32, blockAlign);
    SetUint16(view, 34, BitsPerSample);
  }

  /** App.js lines 75-76: the head of the `data` sub-chunk at bytes
      36-43. */
  method WriteDataChunkHead(view: array<Octet>, dataSize: nat)
    requires HeaderSize <= view.Length && dataSize < 0x1_0000_0000
    modifies view
    ensures view[..HeaderSize] == old(view[..36]) + DataChunkHead(dataSize)
    ensures view[HeaderSize..] == old(view[HeaderSize..])
  {
    WriteString(view, 36, "data");
    SetUint32(view, 40, dataSize);
  }

  /** The header writes of encodeWAV, in source order: they fill bytes 0-43
      with the header and leave the rest of the buffer alone. */
  method WriteHeader(view: array<Octet>, a: AudioBuffer)
    requires Valid(a) && HeaderSize <= view.Length
    modifies view
    ensures view[..HeaderSize] == Header(a)
    ensures view[HeaderSize..] == old(view[HeaderSize..])
  {
    WriteRiffDescriptor(view, DataSize(a));
    WriteFmtChunk(view, a.numberOfChannels, a.sampleRate, ByteRate(a), BlockAlign(a));
    WriteDataChunkHead(view, DataSize(a));
  }

  /** Before channel ch of frame i is written, fewer than Samples(a) samples
      have been. */
  lemma RoomForSample(a: AudioBuffer, i: nat, ch: nat)
    requires WellFormed(a) && i < a.length && ch < a.numberOfChannels
    ensures |Interleaved(a, i)| + ch < Samples(a)
  {
    InterleavedLength(a, i);
    MulLess(i, a.length, a.numberOfChannels, ch);
  }

  /** All frames make Samples(a) samples. */
  lemma RunLength(a: AudioBuffer)
    requires WellFormed(a)
    ensures |Interleaved(a, a.length)| == Samples(a)
  {
    InterleavedLength(a, a.length);
  }

  /** App.js lines 78-86: the samples of every frame, channel by
      channel, as little-endian int16 values from byte 44 on, the offset
      advancing by 2 per sample until it reaches the end of the buffer. */
  method WriteSamples(view: array<Octet>, a: AudioBuffer) returns (offset: nat)
    requires WellFormed(a) && view.Length == HeaderSize + DataSize(a)
    modifies view
    ensures offset == view.Length
    ensures view[..HeaderSize] == old(view[..HeaderSize])
    ensures view[HeaderSize..] == PcmBytes(Interleaved(a, a.length))
  {
    ghost var header := view[..HeaderSize];
    var numChannels := a.numberOfChannels;
    offset := HeaderSize;
    ghost var written: seq<Int16> := [];
    for i := 0 to a.length
      invariant written == Interleaved(a, i)
      invariant offset == HeaderSize + 2 * |written| <= view.Length
      invariant view[..offset] == header + PcmBytes(written)
    {
      for ch := 0 to numChannels
        invariant written == Interleaved(a, i) + Frame(a, i)[..ch]
        invariant offset == HeaderSize + 2 * |written| <= view.Length
        invariant view[..offset] == header + PcmBytes(written)
      {
        RoomForSample(a, i, ch);
        var sample := a.channelData[ch][i];
        SetInt16(view, offset, sample);
        PcmBytesSnoc(header, written, sample);
        assert Frame(a, i)[..ch + 1] == Frame(a, i)[..ch] + [sample];
        written := written + [sample];
        offset := offset + 2;
      }
      assert Frame(a, i)[..numChannels] == Frame(a, i);
    }
    RunLength(a);
    assert view[..] == view[..offset];
  }

  /** encodeWAV: a fresh buffer of 44 + 2 * samples bytes holding the header
      and then every sample, frame by frame and channel by channel. */
  method EncodeWav(a: AudioBuffer) returns (buffer: array<Octet>)
    requires Valid(a)
    ensures fresh(buffer)
    ensures buffer.Length == HeaderSize + DataSize(a)
    ensures buffer[..] == WavBytes(a)
  {
    var samples := Samples(a);
    buffer := new Octet[HeaderSize + samples * 2](_ => 0);
    WriteHeader(buffer, a);
    var end := WriteSamples(buffer, a);
    assert buffer[..] == buffer[..HeaderSize] + buffer[HeaderSize..];
  }
}

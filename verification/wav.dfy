/** The example app's WAV writer (example/src/utils/wav.ts): the canonical
    44-byte RIFF/WAVE header of a mono 16-bit PCM stream followed by the
    samples, written in place through a little-endian view of a fresh
    buffer. */
module Wav {
  import opened Jsi

  /** An element of an `Int16Array`. */
  newtype int16 = x: int | -0x8000 <= x < 0x8000

  const Two16: int := 0x1_0000
  const Two32: int := 0x1_0000_0000

  const NumChannels: int := 1
  const BytesPerSample: int := 2
  const BlockAlign: int := NumChannels * BytesPerSample
  const BitsPerSample: int := 16
  const PcmFormat: int := 1
  const FmtChunkSize: int := 16
  const HeaderSize: nat := 44

  // ---------------------------------------------------------------------
  // Little-endian encodings, as `DataView` writes them

  /** `setUint8` of a character code: the code modulo 2^8. */
  function CharByte(c: char): byte {
    (c as int % 256) as byte
  }

  /** The bytes `writeString` stores for `s`, one per character. */
  function Ascii(s: string): (r: seq<byte>)
    ensures |r| == |s|
  {
    seq(|s|, i requires 0 <= i < |s| => CharByte(s[i]))
  }

  /** `setUint16` / `setInt16` with `littleEndian`: the value modulo 2^16,
      low byte first. */
  function LE16(v: int): (r: seq<byte>)
    ensures |r| == 2
  {
    var u := v % Two16;
    [(u % 256) as byte, (u / 256) as byte]
  }

  /** `setUint32` with `littleEndian`: the value modulo 2^32, low byte first. */
  function LE32(v: int): (r: seq<byte>)
    ensures |r| == 4
  {
    var u := v % Two32;
    [(u % 256) as byte, (u / 256 % 256) as byte, (u / 256 / 256 % 256) as byte, (u / 256 / 256 / 256) as byte]
  }

  /** `getUint16(off, true)`. */
  function ReadUint16(b: seq<byte>, off: nat): int
    requires off + 2 <= |b|
  {
    b[off] as int + 256 * b[off + 1] as int
  }

  /** `getUint32(off, true)`. */
  function ReadUint32(b: seq<byte>, off: nat): int
    requires off + 4 <= |b|
  {
    b[off] as int + 256 * (b[off + 1] as int + 256 * (b[off + 2] as int + 256 * b[off + 3] as int))
  }

  /** `getInt16(off, true)`: two's complement. */
  function ReadInt16(b: seq<byte>, off: nat): int16
    requires off + 2 <= |b|
  {
    var u := ReadUint16(b, off);
    (if u >= 0x8000 then u - Two16 else u) as int16
  }

  lemma LE16RoundTrip(v: int)
    ensures ReadUint16(LE16(v), 0) == v % Two16
  {
  }

  /** A sample written with `setInt16` reads back unchanged. */
  lemma LE16Int16RoundTrip(v: int16)
    ensures ReadInt16(LE16(v as int), 0) == v
  {
  }

  /** A field written with `setUint32` reads back as its value modulo 2^32. */
  lemma LE32RoundTrip(v: int)
    ensures ReadUint32(LE32(v), 0) == v % Two32
  {
    var u := v % Two32;
    var q1 := u / 256;
    var q2 := q1 / 256;
    assert u == q1 * 256 + u % 256;
    assert q1 == q2 * 256 + q1 % 256;
    assert q2 == (q2 / 256) * 256 + q2 % 256;
  }

  /** Reading at an offset reads only the bytes there. */
  lemma ReadUint32At(b: seq<byte>, off: nat)
    requires off + 4 <= |b|
    ensures ReadUint32(b, off) == ReadUint32(b[off..off + 4], 0)
  {
  }

  lemma ReadUint16At(b: seq<byte>, off: nat)
    requires off + 2 <= |b|
    ensures ReadUint16(b, off) == ReadUint16(b[off..off + 2], 0)
    ensures ReadInt16(b, off) == ReadInt16(b[off..off + 2], 0)
  {
  }

  /** A field of a part reads the same at its offset in the whole. */
  lemma Read32InPart(w: seq<byte>, k: nat, p: seq<byte>, off: nat)
    requires k + |p| <= |w| && w[k..k + |p|] == p
    requires off + 4 <= |p|
    ensures ReadUint32(w, k + off) == ReadUint32(p, off)
  {
    assert w[k + off] == p[off] && w[k + off + 1] == p[off + 1];
    assert w[k + off + 2] == p[off + 2] && w[k + off + 3] == p[off + 3];
  }

  lemma Read16InPart(w: seq<byte>, k: nat, p: seq<byte>, off: nat)
    requires k + |p| <= |w| && w[k..k + |p|] == p
    requires off + 2 <= |p|
    ensures ReadUint16(w, k + off) == ReadUint16(p, off)
    ensures ReadInt16(w, k + off) == ReadInt16(p, off)
  {
    assert w[k + off] == p[off] && w[k + off + 1] == p[off + 1];
  }

  lemma DivMod256(x: int, lo: int, hi: int)
    requires 0 <= lo < 256 && x == lo + 256 * hi
    ensures x % 256 == lo && x / 256 == hi
  {
  }

  /** The bytes of a 32-bit field are the encoding of the value read from
      them. */
  lemma LE32OfRead(b: seq<byte>, off: nat)
    requires off + 4 <= |b|
    ensures LE32(ReadUint32(b, off)) == b[off..off + 4]
  {
    var b0, b1, b2, b3 := b[off] as int, b[off + 1] as int, b[off + 2] as int, b[off + 3] as int;
    var r2 := b2 + 256 * b3;
    var r1 := b1 + 256 * r2;
    var v := b0 + 256 * r1;
    assert ReadUint32(b, off) == v;
    assert 0 <= r2 < 0x1_0000 && 0 <= r1 < 0x100_0000 && 0 <= v < Two32;
    DivMod256(v, b0, r1);
    DivMod256(r1, b1, r2);
    DivMod256(r2, b2, b3);
    assert v % Two32 == v;
  }

  /** The bytes of a 16-bit field are the encoding of the value read from
      them, whether read unsigned or as a two's-complement sample. */
  lemma LE16OfRead(b: seq<byte>, off: nat)
    requires off + 2 <= |b|
    ensures LE16(ReadUint16(b, off)) == b[off..off + 2]
    ensures LE16(ReadInt16(b, off) as int) == b[off..off + 2]
  {
    var lo, hi := b[off] as int, b[off + 1] as int;
    var u := ReadUint16(b, off);
    assert u == lo + 256 * hi;
    DivMod256(u, lo, hi);
    assert u % Two16 == u;
    if u >= 0x8000 {
      assert ReadInt16(b, off) as int == u - Two16;
      assert (u - Two16) % Two16 == u;
    }
  }

  lemma LE32ModInvariant(v: int)
    ensures LE32(v % Two32) == LE32(v)
  {
  }

  // ---------------------------------------------------------------------
  // The file layout

  /** The RIFF header: the tag, the size of the rest of the file, the form
      type. */
  function RiffHeader(riffSize: int): (r: seq<byte>)
    ensures |r| == 12
  {
    Ascii("RIFF") + LE32(riffSize) + Ascii("WAVE")
  }

  /** The `fmt ` chunk of mono 16-bit PCM: chunk size, format, channels,
      sample rate, byte rate, block align, bits per sample. */
  function FmtChunk(sampleRate: int, byteRate: int): (r: seq<byte>)
    ensures |r| == 24
  {
    Ascii("fmt ") + LE32(FmtChunkSize) + LE16(PcmFormat) + LE16(NumChannels)
    + LE32(sampleRate) + LE32(byteRate) + LE16(BlockAlign) + LE16(BitsPerSample)
  }

  /** The header of the `data` chunk: the tag and the size of the samples. */
  function DataChunkHeader(dataSize: int): (r: seq<byte>)
    ensures |r| == 8
  {
    Ascii("data") + LE32(dataSize)
  }

  /** The 44 header bytes for `n` samples at `sampleRate`. */
  function Header(n: nat, sampleRate: int): (h: seq<byte>)
    ensures |h| == HeaderSize
  {
    var dataSize := n * BytesPerSample;
    RiffHeader(36 + dataSize) + FmtChunk(sampleRate, sampleRate * BlockAlign) + DataChunkHeader(dataSize)
  }

  /** The samples, each as two little-endian bytes, in order. */
  function SampleBytes(pcm: seq<int16>): seq<byte> {
    if pcm == [] then [] else SampleBytes(pcm[..|pcm| - 1]) + LE16(pcm[|pcm| - 1] as int)
  }

  /** The whole buffer `encodeWavPCM16Mono` returns. */
  function WavBytes(pcm: seq<int16>, sampleRate: int): seq<byte> {
    Header(|pcm|, sampleRate) + SampleBytes(pcm)
  }

  lemma {:induction false} SampleBytesLength(pcm: seq<int16>)
    ensures |SampleBytes(pcm)| == 2 * |pcm|
  {
    if pcm != [] {
      SampleBytesLength(pcm[..|pcm| - 1]);
    }
  }

  /** Sample `i` occupies bytes 2i and 2i + 1. */
  lemma {:induction false} SampleBytesAt(pcm: seq<int16>, i: nat)
    requires i < |pcm|
    ensures |SampleBytes(pcm)| == 2 * |pcm|
    ensures SampleBytes(pcm)[2 * i..2 * i + 2] == LE16(pcm[i] as int)
  {
    SampleBytesLength(pcm);
    var init := pcm[..|pcm| - 1];
    SampleBytesLength(init);
    if i < |pcm| - 1 {
      SampleBytesAt(init, i);
      assert SampleBytes(pcm)[2 * i..2 * i + 2] == SampleBytes(init)[2 * i..2 * i + 2];
    } else {
      assert SampleBytes(pcm)[2 * i..2 * i + 2] == LE16(pcm[|pcm| - 1] as int);
    }
  }

  /** Where the three parts lie in the header. */
  lemma HeaderLayout(n: nat, sampleRate: int)
    ensures var h := Header(n, sampleRate);
            && h[0..12] == RiffHeader(36 + 2 * n)
            && h[12..36] == FmtChunk(sampleRate, 2 * sampleRate)
            && h[36..44] == DataChunkHeader(2 * n)
  {
    var r, f, d := RiffHeader(36 + 2 * n), FmtChunk(sampleRate, 2 * sampleRate), DataChunkHeader(2 * n);
    assert Header(n, sampleRate) == r + f + d;
  }

  /** Where the three parts of the header lie in the buffer, and where the
      samples start. */
  lemma WavLayout(pcm: seq<int16>, sampleRate: int)
    ensures var w := WavBytes(pcm, sampleRate);
            var dataSize := 2 * |pcm|;
            && |w| == HeaderSize + dataSize
            && w[0..12] == RiffHeader(36 + dataSize)
            && w[12..36] == FmtChunk(sampleRate, 2 * sampleRate)
            && w[36..44] == DataChunkHeader(dataSize)
            && w[HeaderSize..] == SampleBytes(pcm)
  {
    var h, s := Header(|pcm|, sampleRate), SampleBytes(pcm);
    var w := h + s;
    SampleBytesLength(pcm);
    HeaderLayout(|pcm|, sampleRate);
    assert w[0..12] == h[0..12] && w[12..36] == h[12..36] && w[36..44] == h[36..44];
    assert w[HeaderSize..] == s;
  }

  /** The tags and fields of the RIFF header read back, modulo 2^32. */
  lemma RiffHeaderFields(riffSize: int)
    ensures var r := RiffHeader(riffSize);
            && r[0..4] == Ascii("RIFF") && r[8..12] == Ascii("WAVE")
            && ReadUint32(r, 4) == riffSize % Two32
  {
    var r := RiffHeader(riffSize);
    ReadUint32At(r, 4);
    assert r[4..8] == LE32(riffSize);
    LE32RoundTrip(riffSize);
  }

  /** The fields of the `fmt ` chunk read back, modulo their widths. */
  lemma FmtChunkFields(sampleRate: int, byteRate: int)
    ensures var f := FmtChunk(sampleRate, byteRate);
            && f[0..4] == Ascii("fmt ")
            && ReadUint32(f, 4) == 16
            && ReadUint16(f, 8) == 1
            && ReadUint16(f, 10) == 1
            && ReadUint32(f, 12) == sampleRate % Two32
            && ReadUint32(f, 16) == byteRate % Two32
            && ReadUint16(f, 20) == 2
            && ReadUint16(f, 22) == 16
  {
    var f := FmtChunk(sampleRate, byteRate);
    ReadUint32At(f, 4); assert f[4..8] == LE32(FmtChunkSize); LE32RoundTrip(FmtChunkSize);
    ReadUint16At(f, 8); assert f[8..10] == LE16(PcmFormat); LE16RoundTrip(PcmFormat);
    ReadUint16At(f, 10); assert f[10..12] == LE16(NumChannels); LE16RoundTrip(NumChannels);
    ReadUint32At(f, 12); assert f[12..16] == LE32(sampleRate); LE32RoundTrip(sampleRate);
    ReadUint32At(f, 16); assert f[16..20] == LE32(byteRate); LE32RoundTrip(byteRate);
    ReadUint16At(f, 20); assert f[20..22] == LE16(BlockAlign); LE16RoundTrip(BlockAlign);
    ReadUint16At(f, 22); assert f[22..24] == LE16(BitsPerSample); LE16RoundTrip(BitsPerSample);
  }

  /** The tag and the size of the `data` chunk header read back. */
  lemma DataChunkHeaderFields(dataSize: int)
    ensures var d := DataChunkHeader(dataSize);
            && d[0..4] == Ascii("data")
            && ReadUint32(d, 4) == dataSize % Two32
  {
    var d := DataChunkHeader(dataSize);
    ReadUint32At(d, 4);
    assert d[4..8] == LE32(dataSize);
    LE32RoundTrip(dataSize);
  }

  /** The buffer is 44 + 2n bytes, carries the four tags at 0, 8, 12 and
      36, and every header field reads back as the value written (modulo
      its width). */
  lemma WavHeaderFields(pcm: seq<int16>, sampleRate: int)
    ensures var w := WavBytes(pcm, sampleRate);
            var n := |pcm|;
            && |w| == HeaderSize + 2 * n
            && w[0..4] == Ascii("RIFF") && w[8..12] == Ascii("WAVE")
            && w[12..16] == Ascii("fmt ") && w[36..40] == Ascii("data")
            && ReadUint32(w, 4) == (36 + 2 * n) % Two32
            && ReadUint32(w, 16) == 16
            && ReadUint16(w, 20) == 1
            && ReadUint16(w, 22) == 1
            && ReadUint32(w, 24) == sampleRate % Two32
            && ReadUint32(w, 28) == (2 * sampleRate) % Two32
            && ReadUint16(w, 32) == 2
            && ReadUint16(w, 34) == 16
            && ReadUint32(w, 40) == (2 * n) % Two32
  {
    var n := |pcm|;
    var w := WavBytes(pcm, sampleRate);
    var r, f, d := RiffHeader(36 + 2 * n), FmtChunk(sampleRate, 2 * sampleRate), DataChunkHeader(2 * n);
    WavLayout(pcm, sampleRate);
    RiffHeaderFields(36 + 2 * n);
    FmtChunkFields(sampleRate, 2 * sampleRate);
    DataChunkHeaderFields(2 * n);
    assert w[0..4] == r[0..4] && w[8..12] == r[8..12];
    assert w[12..16] == f[0..4];
    assert w[36..40] == d[0..4];
    Read32InPart(w, 0, r, 4);
    Read32InPart(w, 12, f, 4);
    Read16InPart(w, 12, f, 8);
    Read16InPart(w, 12, f, 10);
    Read32InPart(w, 12, f, 12);
    Read32InPart(w, 12, f, 16);
    Read16InPart(w, 12, f, 20);
    Read16InPart(w, 12, f, 22);
    Read32InPart(w, 36, d, 4);
  }

  /** The size fields and the rate fields are exact when they fit in 32 bits. */
  lemma WavHeaderFieldsExact(pcm: seq<int16>, sampleRate: int)
    ensures var w := WavBytes(pcm, sampleRate);
            var n := |pcm|;
            && |w| == HeaderSize + 2 * n
            && (36 + 2 * n < Two32 ==> ReadUint32(w, 4) == 36 + 2 * n && ReadUint32(w, 40) == 2 * n)
            && (0 <= sampleRate && 2 * sampleRate < Two32 ==>
                  ReadUint32(w, 24) == sampleRate && ReadUint32(w, 28) == 2 * sampleRate)
  {
    WavHeaderFields(pcm, sampleRate);
    var n := |pcm|;
    var riffSize, dataSize, rate, byteRate := 36 + 2 * n, 2 * n, sampleRate, 2 * sampleRate;
    if riffSize < Two32 {
      SmallMod(riffSize);
      SmallMod(dataSize);
    }
    if 0 <= rate && byteRate < Two32 {
      SmallMod(rate);
      SmallMod(byteRate);
    }
  }

  lemma SmallMod(x: int)
    requires 0 <= x < Two32
    ensures x % Two32 == x
  {
  }

  /** Sample i reads back, as a two's-complement int16, at offset 44 + 2i. */
  lemma WavSamples(pcm: seq<int16>, sampleRate: int)
    ensures var w := WavBytes(pcm, sampleRate);
            && |w| == HeaderSize + 2 * |pcm|
            && forall i :: 0 <= i < |pcm| ==> ReadInt16(w, HeaderSize + 2 * i) == pcm[i]
  {
    var w := WavBytes(pcm, sampleRate);
    var s := SampleBytes(pcm);
    WavLayout(pcm, sampleRate);
    SampleBytesLength(pcm);
    forall i | 0 <= i < |pcm|
      ensures ReadInt16(w, HeaderSize + 2 * i) == pcm[i]
    {
      SampleBytesAt(pcm, i);
      Read16InPart(w, HeaderSize, s, 2 * i);
      ReadUint16At(s, 2 * i);
      LE16Int16RoundTrip(pcm[i]);
    }
  }

  // ---------------------------------------------------------------------
  // A reader, the inverse of the writer

  /** What a mono 16-bit PCM file holds. */
  datatype WavInfo = WavInfo(sampleRate: nat, samples: seq<int16>)

  /** The samples of a data chunk of even length, two bytes each. */
  function DecodeSamples(b: seq<byte>): (s: seq<int16>)
    requires |b| % 2 == 0
    ensures |s| == |b| / 2
  {
    if b == [] then [] else DecodeSamples(b[..|b| - 2]) + [ReadInt16(b, |b| - 2)]
  }

  /** Sample `i` is read from bytes 2i and 2i + 1. */
  lemma {:induction false} DecodeSamplesAt(b: seq<byte>, i: nat)
    requires |b| % 2 == 0 && i < |b| / 2
    ensures DecodeSamples(b)[i] == ReadInt16(b, 2 * i)
  {
    if 2 * i < |b| - 2 {
      var init := b[..|b| - 2];
      DecodeSamplesAt(init, i);
      assert init[2 * i] == b[2 * i] && init[2 * i + 1] == b[2 * i + 1];
    }
  }

  /** Reads a buffer laid out as the writer lays it out: the tags, the
      fixed `fmt ` fields of mono 16-bit PCM, sizes that agree with the
      buffer's length, and the samples. */
  function DecodeWavPcm16Mono(b: seq<byte>): Option<WavInfo> {
    if |b| < HeaderSize then None
    else if b[0..4] != Ascii("RIFF") || b[8..12] != Ascii("WAVE") || b[12..16] != Ascii("fmt ")
         || b[36..40] != Ascii("data") then None
    else
      var dataSize := ReadUint32(b, 40);
      var rate := ReadUint32(b, 24);
      if || ReadUint32(b, 4) != 36 + dataSize
         || |b| != HeaderSize + dataSize
         || dataSize % 2 != 0
         || ReadUint32(b, 16) != FmtChunkSize
         || ReadUint16(b, 20) != PcmFormat
         || ReadUint16(b, 22) != NumChannels
         || ReadUint32(b, 28) != (rate * BlockAlign) % Two32
         || ReadUint16(b, 32) != BlockAlign
         || ReadUint16(b, 34) != BitsPerSample
      then None
      else Some(WavInfo(rate, DecodeSamples(b[HeaderSize..])))
  }

  /** Reading back what the writer wrote gives the samples and the sample
      rate (modulo 2^32), as long as the RIFF size field does not wrap. */
  lemma RoundTrip(pcm: seq<int16>, sampleRate: int)
    requires 36 + 2 * |pcm| < Two32
    ensures DecodeWavPcm16Mono(WavBytes(pcm, sampleRate)) == Some(WavInfo(sampleRate % Two32, pcm))
  {
    var n := |pcm|;
    WavHeaderFields(pcm, sampleRate);
    SmallMod(36 + 2 * n);
    SmallMod(2 * n);
    DoubleMod(sampleRate);
    WavLayout(pcm, sampleRate);
    DecodeSampleBytes(pcm);
  }

  lemma DoubleMod(x: int)
    ensures (x % Two32) * BlockAlign % Two32 == (2 * x) % Two32
  {
    var q := x / Two32;
    assert 2 * x == (x % Two32) * 2 + 2 * q * Two32;
  }

  /** Decoding the encoded samples gives them back. */
  lemma {:induction false} DecodeSampleBytes(pcm: seq<int16>)
    ensures |SampleBytes(pcm)| % 2 == 0
    ensures DecodeSamples(SampleBytes(pcm)) == pcm
  {
    SampleBytesLength(pcm);
    if pcm != [] {
      var init := pcm[..|pcm| - 1];
      var x := SampleBytes(init);
      var b := SampleBytes(pcm);
      DecodeSampleBytes(init);
      SampleBytesLength(init);
      assert b == x + LE16(pcm[|pcm| - 1] as int);
      assert b[..|b| - 2] == x;
      Read16InPart(b, |x|, LE16(pcm[|pcm| - 1] as int), 0);
      LE16Int16RoundTrip(pcm[|pcm| - 1]);
      assert pcm == init + [pcm[|pcm| - 1]];
    }
  }

  /** Re-encoding decoded samples gives back the data chunk. */
  lemma {:induction false} SampleBytesOfDecoded(d: seq<byte>)
    requires |d| % 2 == 0
    ensures SampleBytes(DecodeSamples(d)) == d
  {
    if d != [] {
      var init := d[..|d| - 2];
      var s := DecodeSamples(d);
      SampleBytesOfDecoded(init);
      assert s[..|s| - 1] == DecodeSamples(init);
      LE16OfRead(d, |d| - 2);
      assert d == init + d[|d| - 2..];
    }
  }

  /** The RIFF header of a buffer is the encoding of its size field. */
  lemma RiffHeaderOfRead(b: seq<byte>)
    requires |b| >= 12 && b[0..4] == Ascii("RIFF") && b[8..12] == Ascii("WAVE")
    ensures b[0..12] == RiffHeader(ReadUint32(b, 4))
  {
    LE32OfRead(b, 4);
    assert b[0..12] == b[0..4] + b[4..8] + b[8..12];
  }

  /** A `fmt ` chunk with the fixed fields of mono 16-bit PCM is the
      encoding of its two rate fields. */
  lemma FmtChunkOfRead(b: seq<byte>)
    requires |b| >= 36 && b[12..16] == Ascii("fmt ")
    requires ReadUint32(b, 16) == FmtChunkSize && ReadUint16(b, 20) == PcmFormat
    requires ReadUint16(b, 22) == NumChannels && ReadUint16(b, 32) == BlockAlign
    requires ReadUint16(b, 34) == BitsPerSample
    ensures b[12..36] == FmtChunk(ReadUint32(b, 24), ReadUint32(b, 28))
  {
    LE32OfRead(b, 16);
    LE16OfRead(b, 20);
    LE16OfRead(b, 22);
    LE32OfRead(b, 24);
    LE32OfRead(b, 28);
    LE16OfRead(b, 32);
    LE16OfRead(b, 34);
    assert b[12..36] == b[12..16] + b[16..20] + b[20..22] + b[22..24]
                        + b[24..28] + b[28..32] + b[32..34] + b[34..36];
  }

  /** The `data` chunk header of a buffer is the encoding of its size field. */
  lemma DataChunkHeaderOfRead(b: seq<byte>)
    requires |b| >= 44 && b[36..40] == Ascii("data")
    ensures b[36..44] == DataChunkHeader(ReadUint32(b, 40))
  {
    LE32OfRead(b, 40);
    assert b[36..44] == b[36..40] + b[40..44];
  }

  /** The reader accepts nothing but what the writer writes: every buffer it
      reads is exactly the writer's output for what it read. */
  lemma DecodeIsCanonical(b: seq<byte>)
    requires DecodeWavPcm16Mono(b).Some?
    ensures var info := DecodeWavPcm16Mono(b).value;
            b == WavBytes(info.samples, info.sampleRate)
  {
    var info := DecodeWavPcm16Mono(b).value;
    var rate := info.sampleRate;
    var dataSize := ReadUint32(b, 40);
    var n := |info.samples|;
    assert n * 2 == dataSize;
    RiffHeaderOfRead(b);
    FmtChunkOfRead(b);
    DataChunkHeaderOfRead(b);
    LE32ModInvariant(rate * BlockAlign);
    assert FmtChunk(rate, (rate * BlockAlign) % Two32) == FmtChunk(rate, rate * BlockAlign);
    assert b[..HeaderSize] == Header(n, rate) by {
      assert b[..HeaderSize] == b[0..12] + b[12..36] + b[36..44];
    }
    SampleBytesOfDecoded(b[HeaderSize..]);
    assert b == b[..HeaderSize] + b[HeaderSize..];
  }

  // ---------------------------------------------------------------------
  // The writer, in place

  /** `writeString`: one byte per character from `offset` on; bytes before
      and after are left as they were. */
  method WriteString(view: array<byte>, offset: nat, str: string)
    requires offset + |str| <= view.Length
    modifies view
    ensures view[..offset + |str|] == old(view[..offset]) + Ascii(str)
    ensures view[offset + |str|..] == old(view[offset + |str|..])
  {
    for i := 0 to |str|
      invariant view[..offset + i] == old(view[..offset]) + Ascii(str)[..i]
      invariant view[offset + i..] == old(view[offset + i..])
    {
      view[offset + i] := CharByte(str[i]);
      assert Ascii(str)[..i + 1] == Ascii(str)[..i] + [CharByte(str[i])];
    }
    assert Ascii(str)[..|str|] == Ascii(str);
  }

  /** `DataView.setUint16(offset, value, true)` (also `setInt16`, which
      stores the same two bytes). */
  method SetUint16(view: array<byte>, offset: nat, value: int)
    requires offset + 2 <= view.Length
    modifies view
    ensures view[..offset + 2] == old(view[..offset]) + LE16(value)
    ensures view[offset + 2..] == old(view[offset + 2..])
  {
    var bytes := LE16(value);
    view[offset] := bytes[0];
    view[offset + 1] := bytes[1];
  }

  /** `DataView.setUint32(offset, value, true)`. */
  method SetUint32(view: array<byte>, offset: nat, value: int)
    requires offset + 4 <= view.Length
    modifies view
    ensures view[..offset + 4] == old(view[..offset]) + LE32(value)
    ensures view[offset + 4..] == old(view[offset + 4..])
  {
    var bytes := LE32(value);
    view[offset] := bytes[0];
    view[offset + 1] := bytes[1];
    view[offset + 2] := bytes[2];
    view[offset + 3] := bytes[3];
  }

  /** The "RIFF header" writes. */
  method WriteRiffHeader(view: array<byte>, riffSize: int)
    requires view.Length >= 12
    modifies view
    ensures view[..12] == RiffHeader(riffSize)
    ensures view[12..] == old(view[12..])
  {
    WriteString(view, 0, "RIFF");
    ghost var written := Ascii("RIFF");
    assert view[..4] == written;
    SetUint32(view, 4, riffSize);
    written := written + LE32(riffSize);
    assert view[..8] == written;
    WriteString(view, 8, "WAVE");
  }

  /** The "fmt chunk" writes, after the RIFF header. */
  method WriteFmtChunk(view: array<byte>, sampleRate: int, byteRate: int)
    requires view.Length >= 36
    modifies view
    ensures view[..36] == old(view[..12]) + FmtChunk(sampleRate, byteRate)
    ensures view[36..] == old(view[36..])
  {
    ghost var before, after := view[..12], view[36..];
    WriteString(view, 12, "fmt ");
    ghost var written := Ascii("fmt ");
    assert view[..16] == before + written;
    assert view[36..] == after;
    SetUint32(view, 16, FmtChunkSize);
    written := written + LE32(FmtChunkSize);
    assert view[..20] == before + written;
    assert view[36..] == after;
    SetUint16(view, 20, PcmFormat);
    written := written + LE16(PcmFormat);
    assert view[..22] == before + written;
    assert view[36..] == after;
    SetUint16(view, 22, NumChannels);
    written := written + LE16(NumChannels);
    assert view[..24] == before + written;
    assert view[36..] == after;
    SetUint32(view, 24, sampleRate);
    written := written + LE32(sampleRate);
    assert view[..28] == before + written;
    assert view[36..] == after;
    SetUint32(view, 28, byteRate);
    written := written + LE32(byteRate);
    assert view[..32] == before + written;
    assert view[36..] == after;
    SetUint16(view, 32, BlockAlign);
    written := written + LE16(BlockAlign);
    assert view[..34] == before + written;
    assert view[36..] == after;
    SetUint16(view, 34, BitsPerSample);
    written := written + LE16(BitsPerSample);
    assert written == FmtChunk(sampleRate, byteRate);
  }

  /** The "data chunk" writes, after the `fmt ` chunk. */
  method WriteDataChunkHeader(view: array<byte>, dataSize: int)
    requires view.Length >= HeaderSize
    modifies view
    ensures view[..HeaderSize] == old(view[..36]) + DataChunkHeader(dataSize)
    ensures view[HeaderSize..] == old(view[HeaderSize..])
  {
    ghost var before := view[..36];
    WriteString(view, 36, "data");
    assert view[..40] == before + Ascii("data");
    SetUint32(view, 40, dataSize);
  }

  /** The header writes of `encodeWavPCM16Mono`, in the source's order. */
  method WriteHeader(view: array<byte>, n: nat, sampleRate: int)
    requires view.Length >= HeaderSize
    modifies view
    ensures view[..HeaderSize] == Header(n, sampleRate)
    ensures view[HeaderSize..] == old(view[HeaderSize..])
  {
    var numChannels := NumChannels;
    var bytesPerSample := BytesPerSample;
    var blockAlign := numChannels * bytesPerSample;
    var byteRate := sampleRate * blockAlign;
    var dataSize := n * bytesPerSample;
    WriteRiffHeader(view, 36 + dataSize);
    WriteFmtChunk(view, sampleRate, byteRate);
    WriteDataChunkHeader(view, dataSize);
  }

  /** `encodeWavPCM16Mono` on samples already converted to 16-bit PCM: a
      fresh buffer holding exactly the header and the samples. */
  method EncodeWavPcm16Mono(pcm16: seq<int16>, sampleRate: int) returns (buffer: array<byte>)
    ensures fresh(buffer)
    ensures buffer[..] == WavBytes(pcm16, sampleRate)
  {
    var dataSize := |pcm16| * BytesPerSample;
    buffer := new byte[HeaderSize + dataSize](_ => 0);

    WriteHeader(buffer, |pcm16|, sampleRate);

    var offset := HeaderSize;
    for i := 0 to |pcm16|
      invariant offset == HeaderSize + 2 * i
      invariant buffer[..offset] == Header(|pcm16|, sampleRate) + SampleBytes(pcm16[..i])
    {
      SetUint16(buffer, offset, pcm16[i] as int);
      assert pcm16[..i + 1][..i] == pcm16[..i];
      offset := offset + 2;
    }
    assert pcm16[..|pcm16|] == pcm16;
    assert buffer[..] == buffer[..offset];
  }
}

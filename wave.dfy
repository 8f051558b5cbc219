/**
 * The `Wave` object (a sample buffer with its sample rate and duration)
 * and its export to a mono 16-bit PCM WAV byte stream: the 44-byte
 * header followed by the samples, each scaled by 2^14 and truncated to
 * a little-endian `int16_t`.
 */
module WaveFile {
  import opened WavFormat
  import opened MathUtil

  /** Conversion of an integer to `uint32_t`: reduction modulo 2^32. */
  function ToU32(n: int): (r: u32)
    ensures 0 <= n < 0x1_0000_0000 ==> r as int == n
  {
    (n % 0x1_0000_0000) as u32
  }

  /** `pow(2, n)` for a natural exponent. */
  function Pow2(n: nat): (r: nat)
    ensures r >= 1
  {
    if n == 0 then 1 else 2 * Pow2(n - 1)
  }

  /** The sample scale `pow(2, bitsPerSample - 2)` of the fixed 16-bit format is 2^14. */
  lemma {:induction false} SampleScaleIs16384()
    ensures Pow2(Blank().bitsPerSample as int - 2) == 16384
  {
    assert Pow2(4) == 16;
    assert Pow2(8) == 256 by { assert Pow2(6) == 64; }
    assert Pow2(12) == 4096 by { assert Pow2(10) == 1024; }
    assert Pow2(14) == 16384;
  }

  /** `pow(2, header.bitsPerSample - 2)`: the factor each sample is multiplied by. */
  function SampleScale(): (r: real)
    ensures r == 16384.0
  {
    SampleScaleIs16384();
    Pow2(Blank().bitsPerSample as int - 2) as real
  }

  const INT16_MIN: int := -0x8000
  const INT16_MAX: int := 0x7FFF

  /** A double converts to `int16_t` with defined behaviour when its truncation fits. */
  predicate FitsInt16(v: real)
  {
    -32769.0 < v < 32768.0
  }

  /** The conversion of a double to `int16_t`: truncation toward zero. */
  function ToInt16(v: real): (r: int)
    requires FitsInt16(v)
    ensures INT16_MIN <= r <= INT16_MAX
    ensures r == Trunc(v)
  {
    Trunc(v)
  }

  predicate IsInt16(x: int)
  {
    INT16_MIN <= x <= INT16_MAX
  }

  /** Reading two bytes as a little-endian two's-complement `int16_t`. */
  function DecodeI16(b: seq<byte>): (x: int)
    requires |b| == 2
    ensures IsInt16(x)
  {
    var u := FromLE16(b) as int;
    if u >= 0x8000 then u - 0x1_0000 else u
  }

  /** How an `int16_t` lies in memory: two's complement, least significant byte first. */
  function EncodeI16(x: int): (b: seq<byte>)
    requires IsInt16(x)
    ensures |b| == 2 && DecodeI16(b) == x
  {
    LE16((x % 0x1_0000) as u16)
  }

  /** The memory image of a `std::vector<int16_t>`. */
  function PcmBytes(data: seq<int>): (b: seq<byte>)
    requires forall i :: 0 <= i < |data| ==> IsInt16(data[i])
    ensures |b| == 2 * |data|
  {
    if data == [] then [] else EncodeI16(data[0]) + PcmBytes(data[1..])
  }

  /** Sample i occupies bytes 2i and 2i+1 of the PCM data. */
  lemma {:induction false} PcmBytesAt(data: seq<int>, i: int)
    requires forall k :: 0 <= k < |data| ==> IsInt16(data[k])
    requires 0 <= i < |data|
    ensures PcmBytes(data)[2 * i..2 * i + 2] == EncodeI16(data[i])
  {
    if i > 0 {
      PcmBytesAt(data[1..], i - 1);
      var rest := PcmBytes(data[1..]);
      assert PcmBytes(data) == EncodeI16(data[0]) + rest;
      assert PcmBytes(data)[2 * i..2 * i + 2] == rest[2 * (i - 1)..2 * (i - 1) + 2];
    }
  }

  /** `rate * header.blockSize` is a product of two `int`s: it must not overflow. */
  predicate RateInRange(rate: int)
  {
    -0x4000_0000 <= rate < 0x4000_0000
  }

  /** The header `toWav` fills in for `count` samples at `rate`. */
  function ExportHeader(rate: int, count: nat): (h: Header)
    requires RateInRange(rate)
    ensures HasFixedFields(h)
    ensures rate >= 0 ==> h.sampleRate as int == rate
  {
    var h := Blank();
    var h := h.(sampleRate := ToU32(rate));
    var h := h.(bytesPerSec := ToU32(rate * h.blockSize as int));
    var h := h.(dataSize := ToU32(count * h.blockSize as int));
    h.(fileSize := ToU32(h.dataSize as int + HEADER_SIZE - 2))
  }

  /**
   * For a non-negative rate and a size that does not wrap, the header holds
   * the rate, twice the rate as byte rate, twice the sample count as data
   * size and the data size plus 42 as file size; the fixed fields keep
   * their defaults and the byte rate is the rate times the block size.
   */
  lemma ExportHeaderFields(rate: int, count: nat)
    requires 0 <= rate < 0x4000_0000 && 2 * count + 42 < 0x1_0000_0000
    ensures HasFixedFields(ExportHeader(rate, count))
    ensures ExportHeader(rate, count).sampleRate as int == rate
    ensures ExportHeader(rate, count).bytesPerSec as int == 2 * rate
    ensures ExportHeader(rate, count).dataSize as int == 2 * count
    ensures ExportHeader(rate, count).fileSize as int == 2 * count + 42
    ensures ExportHeader(rate, count).bytesPerSec as int
            == ExportHeader(rate, count).sampleRate as int * ExportHeader(rate, count).blockSize as int
  {
  }

  /** The data size field never exceeds the bytes of PCM data: wrap-around only shortens it. */
  lemma DataSizeAtMost(rate: int, count: nat)
    requires RateInRange(rate)
    ensures ExportHeader(rate, count).dataSize as int <= 2 * count
  {
    var n := count * Blank().blockSize as int;
    assert n == 2 * count;
    assert ToU32(n) as int == n % 0x1_0000_0000;
  }

  /** Every sample, once scaled by 2^14, converts to `int16_t` with defined behaviour. */
  predicate Encodable(ys: seq<real>)
  {
    forall i :: 0 <= i < |ys| ==> FitsInt16(ys[i] * 16384.0)
  }

  /** `ys *= pow(2, bitsPerSample - 2)`. */
  function Scaled(ys: seq<real>): (r: seq<real>)
    ensures |r| == |ys|
    ensures forall i :: 0 <= i < |ys| ==> r[i] == ys[i] * 16384.0
  {
    var k := SampleScale();
    seq(|ys|, i requires 0 <= i < |ys| => ys[i] * k)
  }

  /** `std::vector<int16_t> data(begin(ys), end(ys))`: each sample truncated to `int16_t`. */
  function Int16Vector(s: seq<real>): (data: seq<int>)
    requires forall i :: 0 <= i < |s| ==> FitsInt16(s[i])
    ensures |data| == |s|
    ensures forall i :: 0 <= i < |s| ==> IsInt16(data[i]) && data[i] == Trunc(s[i])
  {
    seq(|s|, i requires 0 <= i < |s| => ToInt16(s[i]))
  }

  /** The PCM samples `toWav` writes: the scaled samples, truncated. */
  function Pcm(ys: seq<real>): (data: seq<int>)
    requires Encodable(ys)
    ensures |data| == |ys|
    ensures forall i :: 0 <= i < |ys| ==> IsInt16(data[i]) && data[i] == Trunc(ys[i] * 16384.0)
  {
    Int16Vector(Scaled(ys))
  }

  /**
   * The bytes `toWav` writes: the header, then `header.dataSize` bytes of
   * the PCM data (all of it unless the size wrapped around 2^32).
   */
  function WavBytes(ys: seq<real>, rate: int): (b: seq<byte>)
    requires RateInRange(rate) && Encodable(ys)
    ensures HEADER_SIZE <= |b| <= HEADER_SIZE + 2 * |ys|
  {
    var h := ExportHeader(rate, |ys|);
    Serialize(h) + PcmBytes(Pcm(ys))[..h.dataSize]
  }

  /** With no wrap-around the whole PCM data follows the header. */
  lemma WavBytesSplit(ys: seq<real>, rate: int)
    requires 0 <= rate < 0x4000_0000 && 2 * |ys| + 42 < 0x1_0000_0000
    requires Encodable(ys)
    ensures WavBytes(ys, rate) == Serialize(ExportHeader(rate, |ys|)) + PcmBytes(Pcm(ys))
  {
    ExportHeaderFields(rate, |ys|);
    var data := PcmBytes(Pcm(ys));
    assert data[..ExportHeader(rate, |ys|).dataSize] == data;
  }

  /** The exported stream is the 44-byte header, then two bytes per sample. */
  lemma WavBytesPrefix(ys: seq<real>, rate: int)
    requires 0 <= rate < 0x4000_0000 && 2 * |ys| + 42 < 0x1_0000_0000
    requires Encodable(ys)
    ensures |WavBytes(ys, rate)| == HEADER_SIZE + 2 * |ys|
    ensures WavBytes(ys, rate)[..HEADER_SIZE] == Serialize(ExportHeader(rate, |ys|))
  {
    WavBytesSplit(ys, rate);
  }

  /**
   * The serialised export header reads back with the rate, the sizes and
   * the fixed fields, and its chunk tags read as RIFF, WAVE, "fmt " and data.
   */
  lemma ExportHeaderBytes(rate: int, count: nat)
    requires 0 <= rate < 0x4000_0000 && 2 * count + 42 < 0x1_0000_0000
    ensures Parse(Serialize(ExportHeader(rate, count)))
            == Header(RIFF_TAG, (2 * count + 42) as u32, WAVE_TAG, FMT_TAG, 16, 1, 1,
                      rate as u32, (2 * rate) as u32, 2, 16, DATA_TAG, (2 * count) as u32)
    ensures var hb := Serialize(ExportHeader(rate, count));
            hb[0..4] == RIFF_WORD && hb[8..12] == WAVE_WORD &&
            hb[12..16] == FMT_WORD && hb[36..40] == DATA_WORD &&
            FromLE32(hb[24..28]) as int == rate && FromLE32(hb[40..44]) as int == 2 * count
  {
    var h := ExportHeader(rate, count);
    ExportHeaderFields(rate, count);
    ParseSerialize(h);
    SerializeLayout(h);
    FixedFieldBytes(h);
  }

  /** The first 44 bytes of the exported stream parse back as the export header. */
  lemma WavBytesHeader(ys: seq<real>, rate: int)
    requires 0 <= rate < 0x4000_0000 && 2 * |ys| + 42 < 0x1_0000_0000
    requires Encodable(ys)
    ensures Parse(WavBytes(ys, rate)[..HEADER_SIZE])
            == Header(RIFF_TAG, (2 * |ys| + 42) as u32, WAVE_TAG, FMT_TAG, 16, 1, 1,
                      rate as u32, (2 * rate) as u32, 2, 16, DATA_TAG, (2 * |ys|) as u32)
  {
    WavBytesPrefix(ys, rate);
    ExportHeaderBytes(rate, |ys|);
  }

  /** The chunk tags of the exported stream read as RIFF, WAVE, "fmt " and data; the rate and data size sit at bytes 24 and 40. */
  lemma WavBytesTags(ys: seq<real>, rate: int)
    requires 0 <= rate < 0x4000_0000 && 2 * |ys| + 42 < 0x1_0000_0000
    requires Encodable(ys)
    ensures var b := WavBytes(ys, rate);
            b[0..4] == RIFF_WORD && b[8..12] == WAVE_WORD &&
            b[12..16] == FMT_WORD && b[36..40] == DATA_WORD &&
            FromLE32(b[24..28]) as int == rate && FromLE32(b[40..44]) as int == 2 * |ys|
  {
    WavBytesPrefix(ys, rate);
    ExportHeaderBytes(rate, |ys|);
    HeaderSlices(WavBytes(ys, rate), Serialize(ExportHeader(rate, |ys|)));
  }

  /** A stream that starts with a serialised header has that header's fields at their offsets. */
  lemma HeaderSlices(b: seq<byte>, hb: seq<byte>)
    requires |hb| == HEADER_SIZE && |b| >= HEADER_SIZE && b[..HEADER_SIZE] == hb
    ensures b[0..4] == hb[0..4] && b[4..8] == hb[4..8] && b[8..12] == hb[8..12] && b[12..16] == hb[12..16]
    ensures b[24..28] == hb[24..28] && b[36..40] == hb[36..40] && b[40..44] == hb[40..44]
  {
    assert b[0..4] == hb[0..4] && b[4..8] == hb[4..8] && b[8..12] == hb[8..12] && b[12..16] == hb[12..16];
    assert b[24..28] == hb[24..28] && b[36..40] == hb[36..40] && b[40..44] == hb[40..44];
  }

  /** Sample i reads back from bytes 44+2i and 45+2i as the truncation of ys[i] * 2^14. */
  lemma WavBytesSamples(ys: seq<real>, rate: int)
    requires 0 <= rate < 0x4000_0000 && 2 * |ys| + 42 < 0x1_0000_0000
    requires Encodable(ys)
    ensures |WavBytes(ys, rate)| == HEADER_SIZE + 2 * |ys|
    ensures forall i :: 0 <= i < |ys| ==>
              DecodeI16(WavBytes(ys, rate)[HEADER_SIZE + 2 * i..HEADER_SIZE + 2 * i + 2]) == Trunc(ys[i] * 16384.0)
  {
    WavBytesSplit(ys, rate);
    var data := Pcm(ys);
    forall i | 0 <= i < |ys|
      ensures DecodeI16(WavBytes(ys, rate)[HEADER_SIZE + 2 * i..HEADER_SIZE + 2 * i + 2]) == Trunc(ys[i] * 16384.0)
    {
      StreamSample(Serialize(ExportHeader(rate, |ys|)), data, i);
    }
  }

  /** After a 44-byte header, sample i of the PCM data occupies bytes 44+2i and 45+2i. */
  lemma StreamSample(hb: seq<byte>, data: seq<int>, i: int)
    requires |hb| == HEADER_SIZE && 0 <= i < |data|
    requires forall k :: 0 <= k < |data| ==> IsInt16(data[k])
    ensures |hb + PcmBytes(data)| == HEADER_SIZE + 2 * |data|
    ensures DecodeI16((hb + PcmBytes(data))[HEADER_SIZE + 2 * i..HEADER_SIZE + 2 * i + 2]) == data[i]
  {
    PcmBytesAt(data, i);
    SliceAfterHeader(hb, PcmBytes(data), i);
  }

  lemma SliceAfterHeader(hb: seq<byte>, p: seq<byte>, i: int)
    requires |hb| == HEADER_SIZE && 0 <= i && 2 * i + 2 <= |p|
    ensures (hb + p)[HEADER_SIZE + 2 * i..HEADER_SIZE + 2 * i + 2] == p[2 * i..2 * i + 2]
  {
  }

  /**
   * The file size field holds the stream length minus 2 (`dataSize +
   * sizeof(wavHeader) - 2`), six more than the RIFF chunk size, which is
   * the stream length minus the 8 bytes of the chunk's tag and size.
   */
  lemma FileSizeFieldIsLengthMinusTwo(ys: seq<real>, rate: int)
    requires 0 <= rate < 0x4000_0000 && 2 * |ys| + 42 < 0x1_0000_0000
    requires Encodable(ys)
    ensures FromLE32(WavBytes(ys, rate)[4..8]) as int == |WavBytes(ys, rate)| - 2
    ensures FromLE32(WavBytes(ys, rate)[4..8]) as int == (|WavBytes(ys, rate)| - 8) + 6
  {
    WavBytesPrefix(ys, rate);
    WavBytesHeader(ys, rate);
    var b := WavBytes(ys, rate);
    assert b[4..8] == b[..HEADER_SIZE][4..8];
  }

  /** A wave without samples is written as the 44 header bytes alone (the source takes `&data[0]` of an empty vector). */
  lemma WavBytesEmpty(rate: int)
    requires RateInRange(rate)
    ensures WavBytes([], rate) == Serialize(ExportHeader(rate, 0))
  {
    assert ExportHeader(rate, 0).dataSize == 0;
  }

  datatype Export = Written(bytes: seq<byte>) | CannotOpen

  /** A sampled wave: `ys` at `rate` samples per second, lasting `dur` seconds. */
  class Wave {
    var ys: seq<real>
    var rate: int
    var dur: real

    constructor (samples: seq<real>, sampleRate: int, duration: real)
      ensures ys == samples && rate == sampleRate && dur == duration
    {
      ys := samples;
      rate := sampleRate;
      dur := duration;
    }

    /**
     * `toWav(filename)`: `canOpen` says whether the output file could be
     * opened. If not, nothing changes and the export fails; otherwise the
     * header and the samples are produced and the samples stay scaled by 2^14.
     */
    method ToWav(canOpen: bool) returns (r: Export)
      requires canOpen ==> RateInRange(rate) && Encodable(ys)
      modifies this`ys
      ensures !canOpen ==> r == CannotOpen && ys == old(ys)
      ensures canOpen ==> r == Written(WavBytes(old(ys), rate)) && ys == Scaled(old(ys))
    {
      if !canOpen {
        return CannotOpen;
      }
      var header := Blank();
      header := header.(sampleRate := ToU32(rate));
      header := header.(bytesPerSec := ToU32(rate * header.blockSize as int));
      header := header.(dataSize := ToU32(|ys| * header.blockSize as int));
      header := header.(fileSize := ToU32(header.dataSize as int + HEADER_SIZE - 2));
      var out := Serialize(header);
      var scale := Pow2(header.bitsPerSample as int - 2) as real;
      var samples := ys;
      samples := seq(|samples|, i requires 0 <= i < |samples| => samples[i] * scale);
      ys := samples;
      assert samples == Scaled(old(ys));
      var data := Int16Vector(samples);
      assert header == ExportHeader(rate, |samples|);
      DataSizeAtMost(rate, |samples|);
      out := out + PcmBytes(data)[..header.dataSize];
      r := Written(out);
    }
  }
}

/**
 * The packed `wavHeader` record: the 44-byte RIFF/WAVE header of a mono
 * 16-bit PCM file (the `fmt ` and `data` chunks of the RIFF WAVE form of
 * the Multimedia Programming Interface and Data Specifications 1.0), and
 * how its thirteen fields are written as little-endian bytes.
 */
module WavFormat {

  newtype byte = x: int | 0 <= x < 0x100
  newtype u16 = x: int | 0 <= x < 0x1_0000
  newtype u32 = x: int | 0 <= x < 0x1_0000_0000

  /** Reading two bytes as a little-endian `uint16_t`. */
  function FromLE16(b: seq<byte>): u16
    requires |b| == 2
  {
    (b[0] as int + 0x100 * b[1] as int) as u16
  }

  /** How a `uint16_t` lies in memory on a little-endian machine. */
  function LE16(x: u16): (b: seq<byte>)
    ensures |b| == 2 && FromLE16(b) == x
  {
    var n := x as int;
    [(n % 0x100) as byte, (n / 0x100) as byte]
  }

  /** Reading four bytes as a little-endian `uint32_t`. */
  function FromLE32(b: seq<byte>): u32
    requires |b| == 4
  {
    (b[0] as int + 0x100 * (b[1] as int + 0x100 * (b[2] as int + 0x100 * b[3] as int))) as u32
  }

  /** How a `uint32_t` lies in memory on a little-endian machine. */
  function LE32(x: u32): (b: seq<byte>)
    ensures |b| == 4 && FromLE32(b) == x
  {
    var n := x as int;
    var q1 := n / 0x100;
    var q2 := q1 / 0x100;
    [(n % 0x100) as byte, (q1 % 0x100) as byte, (q2 % 0x100) as byte, (q2 / 0x100) as byte]
  }

  /** The other direction of the round trip: every 2-byte string is some encoding. */
  lemma LE16OfFromLE16(b: seq<byte>)
    requires |b| == 2
    ensures LE16(FromLE16(b)) == b
  {
  }

  /** The other direction of the round trip: every 4-byte string is some encoding. */
  lemma LE32OfFromLE32(b: seq<byte>)
    requires |b| == 4
    ensures LE32(FromLE32(b)) == b
  {
    var n := FromLE32(b) as int;
    var hi := b[1] as int + 0x100 * (b[2] as int + 0x100 * b[3] as int);
    assert n == b[0] as int + 0x100 * hi;
    assert n % 0x100 == b[0] as int && n / 0x100 == hi;
    var hi2 := b[2] as int + 0x100 * b[3] as int;
    assert hi % 0x100 == b[1] as int && hi / 0x100 == hi2;
    assert n / 0x1_0000 == hi2 by {
      assert n / 0x1_0000 == (n / 0x100) / 0x100;
    }
    assert n / 0x100_0000 == b[3] as int by {
      assert n / 0x100_0000 == (n / 0x1_0000) / 0x100;
    }
  }

  predicate IsLatin1(s: string)
  {
    forall i :: 0 <= i < |s| ==> s[i] as int < 0x100
  }

  /** The bytes of a string of 8-bit characters. */
  function Ascii(s: string): (b: seq<byte>)
    requires IsLatin1(s)
    ensures |b| == |s|
  {
    seq(|s|, i requires 0 <= i < |s| => s[i] as int as byte)
  }

  /**
   * The value GCC gives a four-character literal such as 'FFIR': the first
   * character is the most significant byte.
   */
  function MultiChar(s: string): (r: u32)
    requires |s| == 4 && IsLatin1(s)
    ensures r as int / 0x100_0000 == s[0] as int && r as int % 0x100 == s[3] as int
  {
    (((s[0] as int * 0x100 + s[1] as int) * 0x100 + s[2] as int) * 0x100 + s[3] as int) as u32
  }

  /** Stored little-endian, a four-character literal shows its characters in reverse. */
  lemma MultiCharBytes(s: string)
    requires |s| == 4 && IsLatin1(s)
    ensures LE32(MultiChar(s)) == Ascii([s[3], s[2], s[1], s[0]])
  {
    var b := Ascii([s[3], s[2], s[1], s[0]]);
    assert FromLE32(b) == MultiChar(s);
    LE32OfFromLE32(b);
  }

  /** The values of the literals 'FFIR', 'EVAW', ' tmf' and 'atad'. */
  const RIFF_TAG: u32 := 0x4646_4952
  const WAVE_TAG: u32 := 0x4556_4157
  const FMT_TAG: u32 := 0x2074_6D66
  const DATA_TAG: u32 := 0x6174_6164

  /** The chunk tags as they read in the file. */
  const RIFF_WORD: seq<byte> := Ascii("RIFF")
  const WAVE_WORD: seq<byte> := Ascii("WAVE")
  const FMT_WORD: seq<byte> := Ascii("fmt ")
  const DATA_WORD: seq<byte> := Ascii("data")

  /**
   * The tag constants are the four-character literals of the header, and
   * they appear in the file as the ASCII words RIFF, WAVE, "fmt " and data.
   */
  lemma TagsReadForwards()
    ensures RIFF_TAG == MultiChar("FFIR") && LE32(RIFF_TAG) == RIFF_WORD
    ensures WAVE_TAG == MultiChar("EVAW") && LE32(WAVE_TAG) == WAVE_WORD
    ensures FMT_TAG == MultiChar(" tmf") && LE32(FMT_TAG) == FMT_WORD
    ensures DATA_TAG == MultiChar("atad") && LE32(DATA_TAG) == DATA_WORD
  {
    MultiCharBytes("FFIR");
    MultiCharBytes("EVAW");
    MultiCharBytes(" tmf");
    MultiCharBytes("atad");
  }

  /** The `wavHeader` struct, field by field in declaration order. */
  datatype Header = Header(
    fileId: u32, fileSize: u32, formatId: u32,
    fmtId: u32, fmtSize: u32, audioFmt: u16, numChannels: u16,
    sampleRate: u32, bytesPerSec: u32, blockSize: u16, bitsPerSample: u16,
    dataId: u32, dataSize: u32)

  /** `sizeof(wavHeader)`: the struct is packed, so there is no padding. */
  const HEADER_SIZE: nat := 44

  /**
   * A freshly declared `wavHeader`: the fields with default initialisers
   * hold them; the other four are indeterminate in the source and are
   * zero here (every use assigns them before the header is written).
   */
  function Blank(): (h: Header)
    ensures HasFixedFields(h)
  {
    Header(RIFF_TAG, 0, WAVE_TAG, FMT_TAG, 16, 1, 1, 0, 0, 2, 16, DATA_TAG, 0)
  }

  /** The fields whose values never change: the tags and the PCM format description. */
  predicate HasFixedFields(h: Header)
  {
    && h.fileId == RIFF_TAG && h.formatId == WAVE_TAG
    && h.fmtId == FMT_TAG && h.fmtSize == 16 && h.audioFmt == 1 && h.numChannels == 1
    && h.blockSize == 2 && h.bitsPerSample == 16 && h.dataId == DATA_TAG
  }

  /**
   * In a header with the fixed fields the block size is the channel count
   * times the bytes per sample, as the format requires.
   */
  lemma BlockSizeIsFrameBytes(h: Header)
    requires HasFixedFields(h)
    ensures h.blockSize as int == h.numChannels as int * h.bitsPerSample as int / 8
  {
  }

  /** The header as it lies in memory, written with `outFile.write(&header, sizeof(wavHeader))`. */
  function Serialize(h: Header): (b: seq<byte>)
    ensures |b| == HEADER_SIZE
  {
    LE32(h.fileId) + LE32(h.fileSize) + LE32(h.formatId)
    + LE32(h.fmtId) + LE32(h.fmtSize) + LE16(h.audioFmt) + LE16(h.numChannels)
    + LE32(h.sampleRate) + LE32(h.bytesPerSec) + LE16(h.blockSize) + LE16(h.bitsPerSample)
    + LE32(h.dataId) + LE32(h.dataSize)
  }

  /** Reading 44 bytes back as a header. */
  function Parse(b: seq<byte>): Header
    requires |b| == HEADER_SIZE
  {
    Header(FromLE32(b[0..4]), FromLE32(b[4..8]), FromLE32(b[8..12]),
           FromLE32(b[12..16]), FromLE32(b[16..20]), FromLE16(b[20..22]), FromLE16(b[22..24]),
           FromLE32(b[24..28]), FromLE32(b[28..32]), FromLE16(b[32..34]), FromLE16(b[34..36]),
           FromLE32(b[36..40]), FromLE32(b[40..44]))
  }

  /** Bytes 0..20: the RIFF chunk's tag and size, the form type, the `fmt ` chunk's tag and size. */
  function FrontBytes(h: Header): (b: seq<byte>)
    ensures |b| == 20
  {
    LE32(h.fileId) + LE32(h.fileSize) + LE32(h.formatId) + LE32(h.fmtId) + LE32(h.fmtSize)
  }

  /** Bytes 20..32: format tag, channels, sample rate, byte rate. */
  function FormatBytes(h: Header): (b: seq<byte>)
    ensures |b| == 12
  {
    LE16(h.audioFmt) + LE16(h.numChannels) + LE32(h.sampleRate) + LE32(h.bytesPerSec)
  }

  /** Bytes 32..44: block size, bits per sample, the `data` chunk's tag and size. */
  function TailBytes(h: Header): (b: seq<byte>)
    ensures |b| == 12
  {
    LE16(h.blockSize) + LE16(h.bitsPerSample) + LE32(h.dataId) + LE32(h.dataSize)
  }

  lemma SerializeParts(h: Header)
    ensures Serialize(h)[0..20] == FrontBytes(h)
    ensures Serialize(h)[20..32] == FormatBytes(h)
    ensures Serialize(h)[32..44] == TailBytes(h)
  {
    assert Serialize(h) == FrontBytes(h) + FormatBytes(h) + TailBytes(h);
  }

  lemma FrontLayout(h: Header)
    ensures Serialize(h)[0..4] == LE32(h.fileId)
    ensures Serialize(h)[4..8] == LE32(h.fileSize)
    ensures Serialize(h)[8..12] == LE32(h.formatId)
    ensures Serialize(h)[12..16] == LE32(h.fmtId)
    ensures Serialize(h)[16..20] == LE32(h.fmtSize)
  {
    SerializeParts(h);
    var b, p := Serialize(h), FrontBytes(h);
    assert p[0..4] == LE32(h.fileId) && p[4..8] == LE32(h.fileSize) && p[8..12] == LE32(h.formatId);
    assert p[12..16] == LE32(h.fmtId) && p[16..20] == LE32(h.fmtSize);
    assert b[0..4] == b[0..20][0..4] && b[4..8] == b[0..20][4..8] && b[8..12] == b[0..20][8..12];
    assert b[12..16] == b[0..20][12..16] && b[16..20] == b[0..20][16..20];
  }

  lemma FormatLayout(h: Header)
    ensures Serialize(h)[20..22] == LE16(h.audioFmt)
    ensures Serialize(h)[22..24] == LE16(h.numChannels)
    ensures Serialize(h)[24..28] == LE32(h.sampleRate)
    ensures Serialize(h)[28..32] == LE32(h.bytesPerSec)
  {
    SerializeParts(h);
    var b, p := Serialize(h), FormatBytes(h);
    assert p[0..2] == LE16(h.audioFmt) && p[2..4] == LE16(h.numChannels);
    assert p[4..8] == LE32(h.sampleRate) && p[8..12] == LE32(h.bytesPerSec);
    assert b[20..22] == b[20..32][0..2] && b[22..24] == b[20..32][2..4];
    assert b[24..28] == b[20..32][4..8] && b[28..32] == b[20..32][8..12];
  }

  lemma TailLayout(h: Header)
    ensures Serialize(h)[32..34] == LE16(h.blockSize)
    ensures Serialize(h)[34..36] == LE16(h.bitsPerSample)
    ensures Serialize(h)[36..40] == LE32(h.dataId)
    ensures Serialize(h)[40..44] == LE32(h.dataSize)
  {
    SerializeParts(h);
    var b, p := Serialize(h), TailBytes(h);
    assert p[0..2] == LE16(h.blockSize) && p[2..4] == LE16(h.bitsPerSample);
    assert p[4..8] == LE32(h.dataId) && p[8..12] == LE32(h.dataSize);
    assert b[32..34] == b[32..44][0..2] && b[34..36] == b[32..44][2..4];
    assert b[36..40] == b[32..44][4..8] && b[40..44] == b[32..44][8..12];
  }

  /**
   * The packed layout: widths 4,4,4,4,4,2,2,4,4,2,2,4,4 at offsets
   * 0,4,8,12,16,20,22,24,28,32,34,36,40.
   */
  lemma SerializeLayout(h: Header)
    ensures Serialize(h)[0..4] == LE32(h.fileId)
    ensures Serialize(h)[4..8] == LE32(h.fileSize)
    ensures Serialize(h)[8..12] == LE32(h.formatId)
    ensures Serialize(h)[12..16] == LE32(h.fmtId)
    ensures Serialize(h)[16..20] == LE32(h.fmtSize)
    ensures Serialize(h)[20..22] == LE16(h.audioFmt)
    ensures Serialize(h)[22..24] == LE16(h.numChannels)
    ensures Serialize(h)[24..28] == LE32(h.sampleRate)
    ensures Serialize(h)[28..32] == LE32(h.bytesPerSec)
    ensures Serialize(h)[32..34] == LE16(h.blockSize)
    ensures Serialize(h)[34..36] == LE16(h.bitsPerSample)
    ensures Serialize(h)[36..40] == LE32(h.dataId)
    ensures Serialize(h)[40..44] == LE32(h.dataSize)
  {
    FrontLayout(h);
    FormatLayout(h);
    TailLayout(h);
  }

  /** Decoding the written header gives back every field. */
  lemma ParseSerialize(h: Header)
    ensures Parse(Serialize(h)) == h
  {
    SerializeLayout(h);
  }

  /** Every 44-byte string is the image of exactly one header. */
  lemma SerializeParse(b: seq<byte>)
    requires |b| == HEADER_SIZE
    ensures Serialize(Parse(b)) == b
  {
    var h := Parse(b);
    SerializeLayout(h);
    var s := Serialize(h);
    LE32OfFromLE32(b[0..4]); LE32OfFromLE32(b[4..8]); LE32OfFromLE32(b[8..12]);
    LE32OfFromLE32(b[12..16]); LE32OfFromLE32(b[16..20]);
    LE16OfFromLE16(b[20..22]); LE16OfFromLE16(b[22..24]);
    LE32OfFromLE32(b[24..28]); LE32OfFromLE32(b[28..32]);
    LE16OfFromLE16(b[32..34]); LE16OfFromLE16(b[34..36]);
    LE32OfFromLE32(b[36..40]); LE32OfFromLE32(b[40..44]);
    forall i | 0 <= i < HEADER_SIZE ensures s[i] == b[i] {
      if i < 4 { assert s[i] == s[0..4][i]; }
      else if i < 8 { assert s[i] == s[4..8][i - 4]; }
      else if i < 12 { assert s[i] == s[8..12][i - 8]; }
      else if i < 16 { assert s[i] == s[12..16][i - 12]; }
      else if i < 20 { assert s[i] == s[16..20][i - 16]; }
      else if i < 22 { assert s[i] == s[20..22][i - 20]; }
      else if i < 24 { assert s[i] == s[22..24][i - 22]; }
      else if i < 28 { assert s[i] == s[24..28][i - 24]; }
      else if i < 32 { assert s[i] == s[28..32][i - 28]; }
      else if i < 34 { assert s[i] == s[32..34][i - 32]; }
      else if i < 36 { assert s[i] == s[34..36][i - 34]; }
      else if i < 40 { assert s[i] == s[36..40][i - 36]; }
      else { assert s[i] == s[40..44][i - 40]; }
    }
  }

  /**
   * A header with the fixed fields starts with "RIFF", has "WAVE" at 8,
   * "fmt " at 12 and "data" at 36, and the PCM description 16, 1, 1, 2, 16
   * at offsets 16, 20, 22, 32 and 34.
   */
  lemma FixedFieldBytes(h: Header)
    requires HasFixedFields(h)
    ensures Serialize(h)[0..4] == RIFF_WORD && Serialize(h)[8..12] == WAVE_WORD
    ensures Serialize(h)[12..16] == FMT_WORD && Serialize(h)[36..40] == DATA_WORD
    ensures FromLE32(Serialize(h)[16..20]) == 16
    ensures FromLE16(Serialize(h)[20..22]) == 1 && FromLE16(Serialize(h)[22..24]) == 1
    ensures FromLE16(Serialize(h)[32..34]) == 2 && FromLE16(Serialize(h)[34..36]) == 16
  {
    SerializeLayout(h);
    TagsReadForwards();
  }
}

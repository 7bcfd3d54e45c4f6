/** The size of a frame, as the encoder computes it and as a reader finds it in the frame header
    (getframebits of bitstream.c and the rate tables of tables.c; section 2.4.3.1 of ISO/IEC 11172-3). */
module FrameSizes {
  import opened Bits
  import opened SideInfo

  /** bitrate_table, in kbit/s; row 0 is for MPEG-2 and 2.5, row 1 for MPEG-1. */
  function BitrateTable(version: nat, index: nat): int {
    if version == 0 then
      match index
      case 0 => 0 case 1 => 8 case 2 => 16 case 3 => 24 case 4 => 32 case 5 => 40 case 6 => 48 case 7 => 56
      case 8 => 64 case 9 => 80 case 10 => 96 case 11 => 112 case 12 => 128 case 13 => 144 case 14 => 160
      case _ => -1
    else
      match index
      case 0 => 0 case 1 => 32 case 2 => 40 case 3 => 48 case 4 => 56 case 5 => 64 case 6 => 80 case 7 => 96
      case 8 => 112 case 9 => 128 case 10 => 160 case 11 => 192 case 12 => 224 case 13 => 256 case 14 => 320
      case _ => -1
  }

  /** samplerate_table */
  function SamplerateTable(version: nat, mpeg25: bool, index: nat): int {
    if mpeg25 then match index { case 0 => 11025 case 1 => 12000 case 2 => 8000 case _ => -1 }
    else if version == 0 then match index { case 0 => 22050 case 1 => 24000 case 2 => 16000 case _ => -1 }
    else match index { case 0 => 44100 case 1 => 48000 case 2 => 32000 case _ => -1 }
  }

  /** The bits of a frame: one slot is a byte. */
  function BitsPerFrame(version: nat, bitRate: nat, samplerate: nat, padding: nat): (r: nat)
    requires samplerate > 0
    ensures r % 8 == 0
  {
    8 * ((version + 1) * 72000 * bitRate / samplerate + padding)
  }

  /** A header with a bit rate and a sampling rate of the tables; index 0 is free format. */
  predicate Rated(h: Head) {
    && h.version < 2 && (h.mpeg25 ==> h.version == 0)
    && 1 <= h.bitrateIndex <= 14 && h.samplerateIndex <= 2 && h.padding <= 1
  }

  function SizeOfHead(h: Head): nat
    requires Rated(h)
  {
    BitsPerFrame(h.version, BitrateTable(h.version, h.bitrateIndex),
                 SamplerateTable(h.version, h.mpeg25, h.samplerateIndex), h.padding)
  }

  /** What a reader takes for the size of the frame that begins with `header`; 0 if it cannot tell. */
  function SizeOf(header: seq<bool>): nat {
    var h := ReadHead(header);
    if Rated(h) then SizeOfHead(h) else 0
  }

  /** Bytes of a frame that are left for main data. */
  function RoomOf(h: Head): int
    requires Rated(h)
  {
    SizeOfHead(h) / 8 - SideinfoLen(h)
  }

  /** The one setting whose smallest frame has room for a single byte. */
  predicate OneByteRoom(h: Head) {
    && h.version == 0 && !h.mpeg25 && h.bitrateIndex == 1 && h.samplerateIndex == 1
    && h.padding == 0 && h.mode != 3 && h.errorProtection
  }

  lemma QuotientAtLeast(a: nat, m: nat, n: nat)
    requires m > 0 && n * m <= a
    ensures a / m >= n
  {
    if a / m < n { MulMonotone(a / m + 1, n, m); }
  }

  lemma QuotientAtMost(a: nat, m: nat, n: nat)
    requires m > 0 && a < (n + 1) * m
    ensures a / m <= n
  {
    if a / m > n { MulMonotone(n + 1, a / m, m); }
  }

  /** The tables in formulas: four rates between any two powers of two in MPEG-1, steps of eight and then sixteen in
      MPEG-2, and sampling rates that are halved from each version to the next. */
  lemma TablesFollow(index: nat)
    requires 1 <= index <= 14
    ensures BitrateTable(1, index) == Pow2(3 + (index - 1) / 4) * (4 + (index - 1) % 4)
    ensures BitrateTable(0, index) == if index <= 8 then 8 * index else 64 + 16 * (index - 8)
    ensures forall i | 0 <= i < 3 ::
      SamplerateTable(1, false, i) == 2 * SamplerateTable(0, false, i) == 4 * SamplerateTable(0, true, i)
      == [44100, 48000, 32000][i]
  {
    Pow2Small();
    hide Pow2;
  }

  lemma Rates(h: Head)
    requires Rated(h)
    ensures var b := BitrateTable(h.version, h.bitrateIndex);
      if h.version == 1 then 32 <= b <= 320 else 8 <= b <= 160 && (b == 8 <==> h.bitrateIndex == 1) && b % 8 == 0
    ensures var s := SamplerateTable(h.version, h.mpeg25, h.samplerateIndex);
      if h.version == 1 then 32000 <= s <= 48000
      else if h.mpeg25 then 8000 <= s <= 12000
      else 16000 <= s <= 24000 && (s == 24000 <==> h.samplerateIndex == 1) && s <= 24000
           && (h.samplerateIndex != 1 ==> s <= 22050)
  {
  }

  /** Every frame has room for main data: in MPEG-1 at least 58 bytes, in MPEG-2 at least one, and just one
      in a single setting. */
  lemma SmallestRoom(h: Head)
    requires Rated(h)
    ensures h.version == 1 ==> RoomOf(h) >= 58
    ensures RoomOf(h) >= 1
    ensures RoomOf(h) == 1 <==> OneByteRoom(h)
    ensures SizeOfHead(h) % 8 == 0 && SizeOfHead(h) <= 8 * 1441
  {
    Rates(h);
    var b := BitrateTable(h.version, h.bitrateIndex);
    var s := SamplerateTable(h.version, h.mpeg25, h.samplerateIndex);
    hide BitrateTable, SamplerateTable;
    if h.version == 1 {
      QuotientAtLeast(144000 * b, s, 96);
      QuotientAtMost(144000 * b, s, 1440);
    } else {
      QuotientAtMost(72000 * b, s, 1440);
      if h.mpeg25 {
        QuotientAtLeast(72000 * b, s, 48);
      } else if b == 8 && s == 24000 {
        assert 72000 * b / s == 24;
      } else if b == 8 {
        QuotientAtLeast(72000 * b, s, 26);
      } else {
        QuotientAtLeast(72000 * b, s, 48);
      }
    }
  }
}

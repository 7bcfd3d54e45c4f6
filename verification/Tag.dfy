/** The tag frame that precedes the audio (setLameTagFrameHeader, PutLameVBR and lame_get_lametag_frame of VbrTag.c)
    and its reader (GetVbrTag): everything a player needs to know about the stream is read back from the bytes
    written. */
module Tag {
  import opened Bits
  import opened FrameSizes
  import opened Buffers
  import Huffman
  import Crc
  import MusicCrc
  import SeekTable
  import Gapless

  const MAXFRAMESIZE := 2880
  const VBRHEADERSIZE := 120
  const LAMEHEADERSIZE := VBRHEADERSIZE + 36

  // ----- the settings

  /** The settings that the tag depends on; sampling rates below 16 kHz are MPEG-2.5. */
  datatype Settings = Settings(version: nat, samplerateIndex: nat, outSamplerate: nat, errorProtection: bool,
                               bitrateIndex: nat, extension: nat, mode: nat, modeExt: nat, copyright: nat,
                                   original: nat,
                               emphasis: nat, vbr: bool, freeFormat: bool, brate: nat, writeVbrTag: bool)

  /** As lame_init_params leaves them. */
  ghost predicate Initialized(p: Settings) {
    && p.version < 2 && p.samplerateIndex <= 2 && (p.version == 1 ==> p.outSamplerate >= 16000)
    && p.outSamplerate == SamplerateTable(p.version, p.outSamplerate < 16000, p.samplerateIndex)
    && p.bitrateIndex < 16 && p.extension < 2 && p.mode < 4 && p.modeExt < 4 && p.copyright < 2 && p.original < 2
    && p.emphasis < 4
    && (!p.freeFormat && !p.vbr ==> exists i: nat :: RateIs(p, i, p.brate))
  }

  /** bitrate_table with its third row. */
  function BitrateRow(p: Settings, i: nat): int {
    if p.outSamplerate < 16000 then if i <= 8 then BitrateTable(0, i) else -1
    else BitrateTable(p.version, i)
  }

  predicate RateIs(p: Settings, i: nat, rate: nat) { 1 <= i <= 14 && BitrateRow(p, i) == rate }

  /** BitrateIndex */
  method BitrateIndex(rate: nat, p: Settings) returns (index: int)
    ensures index == -1 || (0 <= index <= 14 && RateIs(p, index, rate))
    ensures index == -1 ==> forall i: nat :: rate > 0 ==> !RateIs(p, i, rate)
  {
    hide BitrateTable;
    RowStarts(p);
    for i := 0 to 15
      invariant forall k: nat :: k < i && rate > 0 ==> !RateIs(p, k, rate)
    {
      if BitrateRow(p, i) > 0 && BitrateRow(p, i) == rate {
        return i;
      }
    }
    return -1;
  }

  lemma RowStarts(p: Settings)
    ensures BitrateRow(p, 0) == 0
  {
  }

  /** The bit rate of the tag frame, in kbit/s. */
  function HeaderRate(p: Settings): nat {
    if !p.vbr then p.brate else if p.version == 1 then 128 else if p.outSamplerate < 16000 then 32 else 64
  }

  function TagOffset(version: nat, mode: nat): nat {
    if version == 1 then (if mode != 3 then 32 + 4 else 17 + 4) else if mode != 3 then 17 + 4 else 9 + 4
  }

  function SideLen(p: Settings): nat { TagOffset(p.version, p.mode) + if p.errorProtection then 2 else 0 }

  /** C's division. */
  function Quot(n: int, d: int): int
    requires d != 0
  {
    if d < 0 then -TruncDiv(n, -d) else TruncDiv(n, d)
  }

  /** The bytes of a frame without padding. */
  function FrameBytes(version: nat, bitrate: int, samplerate: int): int
    requires samplerate != 0
  {
    Quot((version + 1) * 72000 * bitrate, samplerate)
  }

  /** TotalFrameSize, as InitVbrTag computes it. */
  function TotalFrameSize(p: Settings): int
    requires p.outSamplerate > 0
  {
    FrameBytes(p.version, HeaderRate(p), p.outSamplerate)
  }

  /** InitVbrTag keeps the tag only if it fits. */
  predicate TagFits(p: Settings)
    requires p.outSamplerate > 0
  {
    SideLen(p) + LAMEHEADERSIZE <= TotalFrameSize(p) <= MAXFRAMESIZE
  }

  // ----- setLameTagFrameHeader

  /** C's `&` on non-negative operands. */
  function And(a: nat, b: nat): nat {
    if a == 0 || b == 0 then 0 else 2 * And(a / 2, b / 2) + if a % 2 == 1 && b % 2 == 1 then 1 else 0
  }

  /** SHIFT_IN_BITS_VALUE on a byte. */
  function ShiftedIn(x: byte, n: nat, v: nat): byte {
    Or(ShiftLeft(x, n), v % Pow2(n)) % 256
  }

  lemma ShiftedInAdds(x: byte, n: nat, v: nat)
    requires n <= 8 && v < Pow2(n) && x < Pow2(8 - n)
    ensures ShiftedIn(x, n, v) == ShiftLeft(x, n) + v
  {
    hide Or, Pow2, ShiftLeft;
    Pow2Small();
    ShiftIn(x, 8 - n, v, n);
    DivUnique(v, Pow2(n), 0, v);
  }

  function SecondOf(p: Settings): nat {
    0xe2 + 16 * (if p.outSamplerate < 16000 then 0 else 1) + 8 * p.version + if p.errorProtection then 0 else 1
  }

  /** The header's rates: index 0 is free format. */
  predicate ThirdSays(p: Settings, i: nat, x: byte) {
    && x as int == 16 * i + 4 * p.samplerateIndex + p.extension
    && if p.freeFormat then i == 0 else RateIs(p, i, HeaderRate(p))
  }

  /** The four bytes of the tag frame's header. */
  ghost predicate HeaderSays(p: Settings, b: seq<byte>) {
    && |b| == 4 && b[0] == 0xff
    && b[1] as int == SecondOf(p)
    && (exists i: nat :: ThirdSays(p, i, b[2]))
    && b[3] == 64 * p.mode + 16 * p.modeExt + 8 * p.copyright + 4 * p.original + p.emphasis
  }

  lemma SecondByte(m: nat, v: nat, q: nat)
    requires m <= 1 && v <= 1 && q <= 1
    ensures Or(And(0xe2 + 16 * m + 8 * v + q, 0xf1), if v == 1 then 0x0a else 0x02) == 0xe2 + 16 * m + 8 * v + q
  {
    hide Or, And;
    AndDouble(113 + 8 * m + 4 * v, 0x78, q, 1);
    AndDouble(56 + 4 * m + 2 * v, 0x3c, 1, 0);
    AndDouble(28 + 2 * m + v, 0x1e, 0, 0);
    AndDouble(14 + m, 0x0f, v, 0);
    AndDouble(7, 7, m, 1);
    Sevens();
    var w := if v == 1 then 1 else 0;
    OrDouble(112 + 8 * m, 4 * w + 1, q, 0);
    OrDouble(56 + 4 * m, 2 * w, 0, 1);
    OrDouble(28 + 2 * m, w, 0, 0);
    OrDouble(14 + m, 0, 0, w);
  }

  lemma Sevens()
    ensures And(7, 7) == 7
  {
    assert And(3, 3) == 3;
  }

  lemma OrDouble(a: nat, b: nat, x: nat, y: nat)
    requires x <= 1 && y <= 1
    ensures Or(2 * a + x, 2 * b + y) == 2 * Or(a, b) + if x == 1 || y == 1 then 1 else 0
    ensures Or(a, 0) == a
  {
  }

  lemma ThirdByte(i: nat, r: nat, x: nat, index: nat)
    requires i < 16 && r <= 3 && x <= 1 && index < 16
    ensures Or(16 * index, And(16 * i + 4 * r + x, 0x0d)) == 16 * index + 4 * r + x
  {
    hide Or, And, Pow2;
    LowAnd(i, r, x);
    Pow2Small();
    DivUnique(16 * index, 16, index, 0);
    OrDisjoint(16 * index, 4 * r + x, 4);
  }

  lemma LowAnd(i: nat, r: nat, x: nat)
    requires r <= 3 && x <= 1
    ensures And(16 * i + 4 * r + x, 0x0d) == 4 * r + x
  {
    hide And;
    AndDouble(8 * i + 2 * r, 6, x, 1);
    AndDouble(4 * i + r, 3, 0, 0);
    AndDouble(2 * i + r / 2, 1, r % 2, 1);
    AndDouble(i, 0, r / 2, 1);
    AndNothing(i);
  }

  lemma AndNothing(a: nat)
    ensures And(a, 0) == 0
  {
  }

  lemma AndDouble(a: nat, b: nat, x: nat, y: nat)
    requires x <= 1 && y <= 1
    ensures And(2 * a + x, 2 * b + y) == 2 * And(a, b) + if x == 1 && y == 1 then 1 else 0
  {
  }

  method ShiftInBits(buffer: array<byte>, i: nat, n: nat, v: nat)
    requires i < buffer.Length && n <= 4 && v < Pow2(n) && buffer[i] < Pow2(8 - n)
    modifies buffer
    ensures 0 <= Shifted(old(buffer[i]), n, v) < 256
    ensures buffer[..] == old(buffer[..])[i := Shifted(old(buffer[i]), n, v)]
  {
    hide ShiftedIn, Pow2;
    ShiftedInAdds(buffer[i], n, v);
    ShiftSmall(buffer[i], n);
    buffer[i] := ShiftedIn(buffer[i], n, v);
  }

  function Shifted(x: nat, n: nat, v: nat): nat {
    v + if n == 1 then 2 * x else if n == 2 then 4 * x else if n == 3 then 8 * x else if n == 4 then 16 * x else x
  }

  lemma ShiftSmall(x: nat, n: nat)
    requires n <= 4
    ensures ShiftLeft(x, n) + 0 == Shifted(x, n, 0)
  {
    Pow2Small();
  }

  /** The settings of the stream, shifted in as every frame's header has them. */
  method ShiftInSettings(p: Settings, buffer: array<byte>)
    requires Initialized(p) && buffer.Length >= 4 && buffer[0] == buffer[1] == buffer[2] == buffer[3] == 0
    modifies buffer
    ensures buffer[4..] == old(buffer[4..])
    ensures buffer[0] == 0xff && buffer[1] == SecondOf(p)
    ensures buffer[2] == 16 * p.bitrateIndex + 4 * p.samplerateIndex + p.extension
    ensures buffer[3] == 64 * p.mode + 16 * p.modeExt + 8 * p.copyright + 4 * p.original + p.emphasis
  {
    hide Initialized, Pow2;
    Widths(p);
    buffer[0] := 0xff;
    ShiftInBits(buffer, 1, 3, 7);
    ShiftInBits(buffer, 1, 1, if p.outSamplerate < 16000 then 0 else 1);
    ShiftInBits(buffer, 1, 1, p.version);
    ShiftInBits(buffer, 1, 2, 4 - 3);
    ShiftInBits(buffer, 1, 1, if !p.errorProtection then 1 else 0);
    ShiftInSettings2(p, buffer);
  }

  method ShiftInSettings2(p: Settings, buffer: array<byte>)
    requires Initialized(p) && buffer.Length >= 4 && buffer[2] == buffer[3] == 0
    modifies buffer
    ensures buffer[..2] == old(buffer[..2]) && buffer[4..] == old(buffer[4..])
    ensures buffer[2] == 16 * p.bitrateIndex + 4 * p.samplerateIndex + p.extension
    ensures buffer[3] == 64 * p.mode + 16 * p.modeExt + 8 * p.copyright + 4 * p.original + p.emphasis
  {
    hide Initialized, Pow2;
    Widths(p);
    ShiftInBits(buffer, 2, 4, p.bitrateIndex);
    ShiftInBits(buffer, 2, 2, p.samplerateIndex);
    ShiftInBits(buffer, 2, 1, 0);
    ShiftInBits(buffer, 2, 1, p.extension);
    ShiftInBits(buffer, 3, 2, p.mode);
    ShiftInBits(buffer, 3, 2, p.modeExt);
    ShiftInBits(buffer, 3, 1, p.copyright);
    ShiftInBits(buffer, 3, 1, p.original);
    ShiftInBits(buffer, 3, 2, p.emphasis);
  }

  lemma Widths(p: Settings)
    requires Initialized(p)
    ensures p.version < Pow2(1) && p.samplerateIndex < Pow2(2) && p.bitrateIndex < Pow2(4) && p.extension < Pow2(1)
    ensures p.mode < Pow2(2) && p.modeExt < Pow2(2) && p.copyright < Pow2(1) && p.original < Pow2(1)
        && p.emphasis < Pow2(2)
    ensures Pow2(0) == 1 && Pow2(1) == 2 && Pow2(2) == 4 && Pow2(3) == 8 && Pow2(4) == 16
    ensures Pow2(5) == 32 && Pow2(6) == 64 && Pow2(7) == 128 && Pow2(8) == 256
  {
    Pow2Small();
    hide Pow2;
  }

  /** setLameTagFrameHeader, for a buffer that begins with zeros. */
  method SetLameTagFrameHeader(p: Settings, buffer: array<byte>)
    requires Initialized(p) && buffer.Length >= 4 && buffer[0] == buffer[1] == buffer[2] == buffer[3] == 0
    modifies buffer
    ensures HeaderSays(p, buffer[..4]) && buffer[4..] == old(buffer[4..])
  {
    hide Or, And, RateIs, SamplerateTable;
    ShiftInSettings(p, buffer);
    var bitrate := if p.version == 1 then 128 else if p.outSamplerate < 16000 then 32 else 64;
    if !p.vbr { bitrate := p.brate; }
    var index := 0;
    if !p.freeFormat {
      index := BitrateIndex(bitrate, p);
      RateFound(p);
    }
    SecondByte(if p.outSamplerate < 16000 then 0 else 1, p.version, if p.errorProtection then 0 else 1);
    ThirdByte(p.bitrateIndex, p.samplerateIndex, p.extension, index);
    buffer[1] := Or(And(buffer[1], 0xf1), if p.version == 1 then 0x0a else 0x02);
    buffer[2] := Or(16 * index, And(buffer[2], 0x0d));
    assert ThirdSays(p, index, buffer[2]);
  }

  /** The bit rate of the tag frame is in the tables. */
  lemma RateFound(p: Settings)
    requires Initialized(p) && !p.freeFormat
    ensures exists i: nat :: RateIs(p, i, HeaderRate(p)) && HeaderRate(p) > 0
  {
    if !p.vbr {
      var i: nat :| RateIs(p, i, p.brate);
      assert RateIs(p, i, HeaderRate(p));
    } else {
      assert RateIs(p, if p.version == 1 then 9 else if p.outSamplerate < 16000 then 4 else 8, HeaderRate(p));
    }
  }

  // ----- what the tag frame holds

  /** The settings and findings that PutLameVBR packs into bytes, as far as they do not come from the stream. */
  datatype Lame = Lame(quality: nat, versionText: seq<byte>, revMethod: byte, lowpass: byte, peak: nat, radioGain: nat,
                       flags: byte, abrBitrate: nat, delay: nat, padding: nat, misc: byte, preset: nat, musicCrc: bv16)

  predicate Packable(l: Lame) {
    |l.versionText| == 9 && l.delay < 0x1000 && l.padding < 0x1000
  }

  function Number(c: bv16): nat { c as int }

  function DelayBytes(delay: nat, padding: nat): (b: seq<byte>)
    ensures |b| == 3
  {
    [delay / 16 % 256, (delay * 16 + padding / 256) % 256, padding % 256]
  }

  /** What PutLameVBR writes before its checksum. */
  function LameBytes(l: Lame, musicLength: nat): (b: seq<byte>)
    requires Packable(l)
    ensures |b| == 38
    ensures b[..4] == I4(l.quality) && b[25..28] == DelayBytes(l.delay, l.padding)
  {
    LameFirst(l) + LameRest(l, musicLength)
  }

  function LameFirst(l: Lame): (b: seq<byte>)
    requires Packable(l)
    ensures |b| == 23 && b[..4] == I4(l.quality)
  {
    I4(l.quality) + l.versionText + [l.revMethod, l.lowpass] + I4(l.peak) + I2(l.radioGain) + I2(0)
  }

  function LameRest(l: Lame, musicLength: nat): (b: seq<byte>)
    requires Packable(l)
    ensures |b| == 15 && b[2..5] == DelayBytes(l.delay, l.padding)
  {
    var start := [l.flags, if l.abrBitrate >= 255 then 0xff else l.abrBitrate] + DelayBytes(l.delay, l.padding);
    assert start[2..5] == DelayBytes(l.delay, l.padding);
    var all := start + [l.misc, 0] + I2(l.preset) + I4(musicLength) + I2(Number(l.musicCrc));
    assert all[2..5] == start[2..5];
    all
  }

  /** "Info" for constant bit rate and "Xing" otherwise. */
  function Magic(vbr: bool): (b: seq<byte>)
    ensures |b| == 4
  {
    if vbr then [88, 105, 110, 103] else [73, 110, 102, 111]
  }

  /** Header, silence and tag before any checksum. */
  function Unstamped(p: Settings, head: seq<byte>, frames: nat, streamSize: nat, toc: seq<byte>): (b: seq<byte>)
    requires |head| == 4 && |toc| == SeekTable.NUMTOCENTRIES
    ensures |b| == TagOffset(p.version, p.mode) + 116
  {
    head + Zeros(TagOffset(p.version, p.mode) - 4) + TagFields(p, frames, streamSize, toc)
  }

  /** The tag up to the seek table; all fields are there, as the flags say. */
  function TagFields(p: Settings, frames: nat, streamSize: nat, toc: seq<byte>): (b: seq<byte>)
    requires |toc| == SeekTable.NUMTOCENTRIES
    ensures |b| == 116
  {
    Magic(p.vbr) + I4(0x0f) + I4(frames) + I4(streamSize) + toc
  }

  /** CRC_writeheader, if the frames are protected. */
  function Stamped(p: Settings, b: seq<byte>): (r: seq<byte>)
    requires SideLen(p) <= |b|
    ensures |r| == |b|
  {
    if !p.errorProtection then b
    else
      var crc := Crc.CrcAll(Crc.Protected(b[..SideLen(p)]), 0xffff);
      b[4 := crc / 256 % 256][5 := crc % 256]
  }

  /** The frame: what is left after the tag's own checksum stays zero. */
  ghost predicate IsTagFrame(p: Settings, frames: nat, streamSize: nat, toc: seq<byte>, l: Lame, f: seq<byte>) {
    && Packable(l) && |toc| == SeekTable.NUMTOCENTRIES && SideLen(p) + LAMEHEADERSIZE <= |f| && HeaderSays(p, f[..4])
    && var body := Stamped(p, Unstamped(p, f[..4], frames, streamSize, toc)) + LameBytes(l, streamSize);
       f == body + I2(Number(MusicCrc.MusicAll(body, 0))) + Zeros(|f| - |body| - 2)
  }

  // ----- GetVbrTag

  datatype VbrTagData = VbrTagData(hId: nat, samprate: int, flags: int, frames: int, bytes: int, vbrScale: int,
                                   headersize: int, toc: seq<byte>, encDelay: int, encPadding: int)

  /** Only delays up to 3000 are believed. */
  function Believed(x: int): int { if x < 0 || x > 3000 then -1 else x }

  /** The buffer holds whatever the flags may announce. */
  predicate Holds(buf: seq<byte>) {
    |buf| >= 4 && |buf| >= TagOffset(buf[1] / 8 % 2, buf[3] / 64 % 4) + 144
  }

  /** Fields that the tag does not have keep the values they had. */
  function GetVbrTag(was: VbrTagData, buf: seq<byte>): Huffman.Option<VbrTagData>
    requires Holds(buf)
  {
    var hId: nat, srIndex: nat, mode: nat, index: nat := buf[1] / 8 % 2, buf[2] / 4 % 4, buf[3] / 64 % 4,
        buf[2] / 16 % 16;
    var bitrate := BitrateTable(hId, index);
    var samprate := SamplerateTable(hId, buf[1] / 16 == 0x0e, srIndex);
    var at := TagOffset(hId, mode);
    if buf[at..at + 4] != Magic(true) && buf[at..at + 4] != Magic(false) then Huffman.None
    else Huffman.Some(GetFields(was, buf, at).(hId := hId, samprate := samprate,
        headersize := FrameBytes(hId, bitrate, samprate)))
  }

  /** The tag's own fields. */
  function GetFields(was: VbrTagData, buf: seq<byte>, at: nat): VbrTagData
    requires at + 144 <= |buf|
  {
    var flags := Unsigned4(buf, at + 4);
    var p0 := at + 8;
    var p1 := if flags % 2 == 1 then p0 + 4 else p0;
    var p2 := if flags / 2 % 2 == 1 then p1 + 4 else p1;
    var p3 := if flags / 4 % 2 == 1 then p2 + SeekTable.NUMTOCENTRIES else p2;
    var p4 := if flags / 8 % 2 == 1 then p3 + 4 else p3;
    VbrTagData(was.hId, was.samprate, Int32(flags),
               if flags % 2 == 1 then ExtractI4(buf, p0) else was.frames,
               if flags / 2 % 2 == 1 then ExtractI4(buf, p1) else was.bytes,
               if flags / 8 % 2 == 1 then ExtractI4(buf, p3) else -1,
               was.headersize,
               if flags / 4 % 2 == 1 then buf[p2..p2 + SeekTable.NUMTOCENTRIES] else was.toc,
               Believed(16 * (buf[p4 + 21] as int) + buf[p4 + 22] as int / 16),
               Believed(256 * (buf[p4 + 22] as int % 16) + buf[p4 + 23] as int))
  }

  // ----- the reader gets back what was written

  lemma HeaderRead(p: Settings, b: seq<byte>) returns (i: nat)
    requires Initialized(p) && HeaderSays(p, b)
    ensures b[1] / 8 % 2 == p.version && (b[1] / 16 == 0x0e <==> p.outSamplerate < 16000)
    ensures b[2] / 4 % 4 == p.samplerateIndex && b[2] / 16 % 16 == i && b[3] / 64 % 4 == p.mode
    ensures BitrateTable(p.version, i) == if p.freeFormat then 0 else HeaderRate(p)
  {
    i :| ThirdSays(p, i, b[2]);
    hide SamplerateTable, HeaderRate;
    RowZero(p, i);
    hide BitrateTable;
  }

  lemma RowZero(p: Settings, i: nat)
    requires p.version < 2 && (p.outSamplerate < 16000 ==> p.version == 0)
    ensures i <= 8 && p.outSamplerate < 16000 ==> BitrateTable(p.version, i) == BitrateRow(p, i)
    ensures i <= 14 && p.outSamplerate >= 16000 ==> BitrateTable(p.version, i) == BitrateRow(p, i)
    ensures BitrateTable(p.version, 0) == 0
  {
  }

  /** Where the parts of the unstamped frame are. */
  lemma UnstampedParts(p: Settings, head: seq<byte>, frames: nat, streamSize: nat, toc: seq<byte>)
    requires |head| == 4 && |toc| == SeekTable.NUMTOCENTRIES
    ensures
      var b, o := Unstamped(p, head, frames, streamSize, toc), TagOffset(p.version, p.mode);
      && b[..4] == head && b[o..o + 4] == Magic(p.vbr) && b[o + 4..o + 8] == I4(0x0f)
      && b[o + 8..o + 12] == I4(frames) && b[o + 12..o + 16] == I4(streamSize) && b[o + 16..o + 116] == toc
  {
    hide I4, Magic;
  }

  /** Both checksums leave the header and the tag's fields alone. */
  lemma FrameParts(p: Settings, frames: nat, streamSize: nat, toc: seq<byte>, l: Lame, f: seq<byte>)
    requires IsTagFrame(p, frames, streamSize, toc, l, f)
    ensures
      var o := TagOffset(p.version, p.mode);
      && f[o..o + 4] == Magic(p.vbr) && f[o + 4..o + 8] == I4(0x0f)
      && f[o + 8..o + 12] == I4(frames) && f[o + 12..o + 16] == I4(streamSize) && f[o + 16..o + 116] == toc
      && f[o + 116..o + 120] == I4(l.quality) && f[o + 141..o + 144] == DelayBytes(l.delay, l.padding)
  {
    hide I4, I2, Magic, DelayBytes, LameBytes, Unstamped, HeaderSays, MusicCrc.MusicAll, Crc.CrcAll;
    var o := TagOffset(p.version, p.mode);
    var u := Unstamped(p, f[..4], frames, streamSize, toc);
    UnstampedParts(p, f[..4], frames, streamSize, toc);
    StampKeeps(p, u, o, o + 4);
    StampKeeps(p, u, o + 4, o + 8);
    StampKeeps(p, u, o + 8, o + 12);
    StampKeeps(p, u, o + 12, o + 16);
    StampKeeps(p, u, o + 16, o + 116);
    var s, lame := Stamped(p, u), LameBytes(l, streamSize);
    assert f[..|u|] == s;
    assert f[|u|..|u| + 38] == lame;
    InnerSlice(f, 0, |u|, o, o + 4);
    InnerSlice(f, 0, |u|, o + 4, o + 8);
    InnerSlice(f, 0, |u|, o + 8, o + 12);
    InnerSlice(f, 0, |u|, o + 12, o + 16);
    InnerSlice(f, 0, |u|, o + 16, o + 116);
    InnerSlice(f, |u|, |u| + 38, 0, 4);
    InnerSlice(f, |u|, |u| + 38, 25, 28);
  }

  /** Where the parts of PutLameVBR's bytes are. */
  lemma LameParts(l: Lame, musicLength: nat)
    requires Packable(l)
    ensures var b := LameBytes(l, musicLength);
      && b[4..13] == l.versionText && b[13] == l.revMethod && b[14] == l.lowpass && b[15..19] == I4(l.peak)
      && b[19..21] == I2(l.radioGain) && b[21..23] == I2(0) && b[23] == l.flags
      && b[24] == (if l.abrBitrate >= 255 then 255 else l.abrBitrate)
      && b[28] == l.misc && b[29] == 0 && b[30..32] == I2(l.preset) && b[32..36] == I4(musicLength)
      && b[36..38] == I2(Number(l.musicCrc))
  {
    hide I4, I2, DelayBytes;
    var b, first, rest := LameBytes(l, musicLength), LameFirst(l), LameRest(l, musicLength);
    assert b[4..13] == first[4..13] && b[15..19] == first[15..19] && b[19..21] == first[19..21]
        && b[21..23] == first[21..23];
    assert b[30..32] == rest[7..9] && b[32..36] == rest[9..13] && b[36..38] == rest[13..15];
  }

  /** Two bytes, the higher first. */
  function Unsigned2(b: seq<byte>, at: nat): nat
    requires at + 2 <= |b|
  {
    256 * (b[at] as int) + b[at + 1] as int
  }

  lemma I2Back(v: nat, b: seq<byte>, at: nat)
    requires at + 2 <= |b| && b[at..at + 2] == I2(v)
    ensures Unsigned2(b, at) == v % 0x1_0000
  {
    var s := b[at..at + 2];
    assert v == 256 * (v / 256) + v % 256 && v / 256 == 256 * (v / 256 / 256) + v / 256 % 256;
    DivUnique(v, 0x1_0000, v / 256 / 256, 256 * (v / 256 % 256) + v % 256);
    assert s[0] == b[at] && s[1] == b[at + 1];
  }

  /** PutLameVBR's bytes where LAME's description of the tag has its fields, numbers with the higher byte first. */
  ghost predicate LameReads(l: Lame, musicLength: nat, f: seq<byte>, at: nat)
    requires at + 38 <= |f|
  {
    && LameBytesRead(l, f, at) && LameNumbersRead(l, musicLength, f, at)
  }

  ghost predicate LameBytesRead(l: Lame, f: seq<byte>, at: nat)
    requires at + 38 <= |f|
  {
    && f[at + 4..at + 13] == l.versionText && f[at + 13] == l.revMethod && f[at + 14] == l.lowpass
    && f[at + 23] == l.flags && f[at + 24] == (if l.abrBitrate >= 255 then 255 else l.abrBitrate)
    && f[at + 28] == l.misc && f[at + 29] == 0
  }

  ghost predicate LameNumbersRead(l: Lame, musicLength: nat, f: seq<byte>, at: nat)
    requires at + 38 <= |f|
  {
    && Unsigned4(f, at + 15) == l.peak % 0x1_0000_0000 && Unsigned2(f, at + 19) == l.radioGain % 0x1_0000
    && Unsigned2(f, at + 21) == 0 && Unsigned2(f, at + 30) == l.preset % 0x1_0000
    && Unsigned4(f, at + 32) == musicLength % 0x1_0000_0000 && Unsigned2(f, at + 36) == l.musicCrc as int
  }

  /** The tag byte by byte: its name, "Xing" or "Info"; LAME's part with the length and the checksum of the music; and
      the checksum of everything before it. */
  ghost predicate TagSays(p: Settings, streamSize: nat, l: Lame, f: seq<byte>) {
    var o := TagOffset(p.version, p.mode);
    && |f| >= o + 156
    && f[o..o + 4] == (if p.vbr then [88, 105, 110, 103] else [73, 110, 102, 111])
    && LameReads(l, streamSize, f, o + 116)
    && Unsigned2(f, o + 154) == MusicCrc.MusicAll(f[..o + 154], 0) as int
  }

  lemma LameBytesSay(l: Lame, musicLength: nat, f: seq<byte>, at: nat)
    requires Packable(l) && at + 38 <= |f| && f[at..at + 38] == LameBytes(l, musicLength)
    ensures LameBytesRead(l, f, at)
  {
    hide I4, I2, LameBytes;
    LameParts(l, musicLength);
    var lame := LameBytes(l, musicLength);
    InnerSlice(f, at, at + 38, 4, 13);
    assert f[at + 13] == lame[13] && f[at + 14] == lame[14] && f[at + 23] == lame[23] && f[at + 24] == lame[24];
    assert f[at + 28] == lame[28] && f[at + 29] == lame[29];
  }

  lemma LameNumbersSay(l: Lame, musicLength: nat, f: seq<byte>, at: nat)
    requires Packable(l) && at + 38 <= |f| && f[at..at + 38] == LameBytes(l, musicLength)
    ensures LameNumbersRead(l, musicLength, f, at)
  {
    hide I4, I2, LameBytes, Unsigned4, Unsigned2, ExtractI4, Int32;
    LameParts(l, musicLength);
    InnerSlice(f, at, at + 38, 15, 19);
    InnerSlice(f, at, at + 38, 19, 21);
    InnerSlice(f, at, at + 38, 21, 23);
    InnerSlice(f, at, at + 38, 30, 32);
    InnerSlice(f, at, at + 38, 32, 36);
    InnerSlice(f, at, at + 38, 36, 38);
    I4Back(l.peak, f, at + 15);
    I2Back(l.radioGain, f, at + 19);
    I2Back(0, f, at + 21);
    I2Back(l.preset, f, at + 30);
    I4Back(musicLength, f, at + 32);
    CrcBack(l.musicCrc, f, at + 36);
  }

  lemma CrcBack(crc: bv16, f: seq<byte>, at: nat)
    requires at + 2 <= |f| && f[at..at + 2] == I2(Number(crc))
    ensures Unsigned2(f, at) == crc as int
  {
    hide I2, Unsigned2;
    I2Back(Number(crc), f, at);
  }

  lemma TagFrameSays(p: Settings, frames: nat, streamSize: nat, toc: seq<byte>, l: Lame, f: seq<byte>)
    requires IsTagFrame(p, frames, streamSize, toc, l, f)
    ensures TagSays(p, streamSize, l, f)
  {
    hide I4, I2, DelayBytes, LameBytes, Unstamped, Stamped, HeaderSays, MusicCrc.MusicAll, Unsigned4, Unsigned2;
    hide LameBytesRead, LameNumbersRead, Number;
    FrameParts(p, frames, streamSize, toc, l, f);
    var o := TagOffset(p.version, p.mode);
    var body := Stamped(p, Unstamped(p, f[..4], frames, streamSize, toc)) + LameBytes(l, streamSize);
    assert f[..o + 154] == body;
    assert f[o + 116..o + 154] == LameBytes(l, streamSize);
    LameBytesSay(l, streamSize, f, o + 116);
    LameNumbersSay(l, streamSize, f, o + 116);
    assert f[o + 154..o + 156] == I2(Number(MusicCrc.MusicAll(body, 0)));
    CrcBack(MusicCrc.MusicAll(body, 0), f, o + 154);
  }

  lemma StampKeeps(p: Settings, b: seq<byte>, i: nat, j: nat)
    requires SideLen(p) <= |b| && 6 <= i <= j <= |b|
    ensures Stamped(p, b)[i..j] == b[i..j]
  {
    hide Crc.CrcAll;
  }

  lemma MiddleByte(q: nat, r: nat, t: nat)
    requires r < 16 && t < 16
    ensures (16 * (16 * q + r) + t) % 256 == 16 * r + t && (16 * r + t) / 16 == r && (16 * r + t) % 16 == t
  {
  }

  lemma DelayDigits(delay: nat, padding: nat)
    requires delay < 0x1000 && padding < 0x1000
    ensures var d := DelayBytes(delay, padding);
      16 * (d[0] as int) + d[1] as int / 16 == delay && 256 * (d[1] as int % 16) + d[2] as int == padding
  {
    var q, r, t := delay / 16, delay % 16, padding / 256;
    assert delay == 16 * q + r && q < 256 && t < 16 && padding == 256 * t + padding % 256;
    MiddleByte(q, r, t);
    var d := DelayBytes(delay, padding);
    assert d[0] == q && d[1] == 16 * r + t && d[2] == padding % 256;
  }

  lemma DelayBack(delay: nat, padding: nat, b: seq<byte>, at: nat)
    requires delay < 0x1000 && padding < 0x1000 && at + 3 <= |b| && b[at..at + 3] == DelayBytes(delay, padding)
    ensures 16 * (b[at] as int) + b[at + 1] as int / 16 == delay
    ensures 256 * (b[at + 1] as int % 16) + b[at + 2] as int == padding
  {
    DelayDigits(delay, padding);
    hide DelayBytes;
    var s := b[at..at + 3];
    assert s[0] == b[at] && s[1] == b[at + 1] && s[2] == b[at + 2];
  }

  lemma FieldsBack(frames: nat, streamSize: nat, toc: seq<byte>, l: Lame, f: seq<byte>, was: VbrTagData, o: nat)
    requires o + 144 <= |f| && Packable(l) && |toc| == SeekTable.NUMTOCENTRIES
    requires f[o + 4..o + 8] == I4(0x0f) && f[o + 8..o + 12] == I4(frames) && f[o + 12..o + 16] == I4(streamSize)
    requires f[o + 16..o + 116] == toc && f[o + 116..o + 120] == I4(l.quality)
    requires f[o + 141..o + 144] == DelayBytes(l.delay, l.padding)
    ensures GetFields(was, f, o) == VbrTagData(was.hId, was.samprate, 0x0f, Int32(frames), Int32(streamSize),
        Int32(l.quality),
                                               was.headersize, toc, Believed(l.delay), Believed(l.padding))
  {
    hide I4, DelayBytes, Believed, Int32, ExtractI4, Unsigned4;
    I4Back(0x0f, f, o + 4);
    I4Back(frames, f, o + 8);
    I4Back(streamSize, f, o + 12);
    I4Back(l.quality, f, o + 116);
    DelayBack(l.delay, l.padding, f, o + 141);
  }

  /** What the reader finds in the tag frame of a finished stream. */
  function Found(p: Settings, frames: nat, streamSize: nat, toc: seq<byte>, l: Lame): VbrTagData
    requires p.outSamplerate > 0
  {
    VbrTagData(p.version, p.outSamplerate, 0x0f, Int32(frames), Int32(streamSize), Int32(l.quality),
               if p.freeFormat then 0 else TotalFrameSize(p), toc, Believed(l.delay), Believed(l.padding))
  }

  /** GetVbrTag finds the number of frames, the size of the stream, the seek table, the quality, the delays, and the
      size of the tag frame itself unless its bit rate is free. */
  lemma TagBack(p: Settings, frames: nat, streamSize: nat, toc: seq<byte>, l: Lame, f: seq<byte>, was: VbrTagData)
    requires Initialized(p) && p.outSamplerate > 0 && IsTagFrame(p, frames, streamSize, toc, l, f)
    ensures Holds(f) && GetVbrTag(was, f) == Huffman.Some(Found(p, frames, streamSize, toc, l))
  {
    hide I4, Magic, DelayBytes, LameBytes, Unstamped, Stamped, Initialized, BitrateTable, SamplerateTable, Believed;
    hide HeaderRate;
    hide MusicCrc.MusicAll, HeaderSays, Int32, FrameBytes, GetFields;
    var o := TagOffset(p.version, p.mode);
    FrameParts(p, frames, streamSize, toc, l, f);
    var i := HeaderRead(p, f[..4]);
    assert f[..4][1] == f[1] && f[..4][2] == f[2] && f[..4][3] == f[3];
    FieldsBack(frames, streamSize, toc, l, f, was, o);
    SizeBack(p, i);
  }

  lemma SizeBack(p: Settings, i: nat)
    requires Initialized(p) && p.outSamplerate > 0
    requires BitrateTable(p.version, i) == if p.freeFormat then 0 else HeaderRate(p)
    ensures FrameBytes(p.version, BitrateTable(p.version, i), p.outSamplerate)
         == if p.freeFormat then 0 else TotalFrameSize(p)
    ensures SamplerateTable(p.version, p.outSamplerate < 16000, p.samplerateIndex) == p.outSamplerate
  {
    assert FrameBytes(p.version, 0, p.outSamplerate) == 0;
    hide BitrateTable, SamplerateTable, HeaderRate, FrameBytes;
  }

  /** A player that reads the tag can cut the decoded samples to exactly what was fed to the encoder. */
  lemma GaplessBack(p: Settings, framesize: nat, fed: nat, frames: nat, streamSize: nat, toc: seq<byte>, l: Lame,
      f: seq<byte>,
                    was: VbrTagData)
    requires Initialized(p) && p.outSamplerate > 0 && IsTagFrame(p, frames, streamSize, toc, l, f)
    requires Times(frames, framesize) == fed + Gapless.ENCDELAY + l.padding && l.delay == Gapless.ENCDELAY
    requires 576 <= l.padding < 576 + framesize && framesize <= 1152 && frames < 0x8000_0000
    ensures Holds(f) && GetVbrTag(was, f).Some?
    ensures
      var d := GetVbrTag(was, f).value;
      d.frames >= 0 && Times(d.frames, framesize) - d.encDelay - d.encPadding == fed
  {
    hide GetVbrTag, IsTagFrame, Initialized, Times;
    TagBack(p, frames, streamSize, toc, l, f, was);
  }

  /** With protection the tag frame passes a reader's check. */
  lemma TagChecks(p: Settings, frames: nat, streamSize: nat, toc: seq<byte>, l: Lame, f: seq<byte>)
    requires IsTagFrame(p, frames, streamSize, toc, l, f) && p.errorProtection
    ensures Crc.Checked(BytesToBits(f[..SideLen(p)]))
  {
    hide I4, I2, Magic, LameBytes, Unstamped, HeaderSays, MusicCrc.MusicAll, Crc.CrcAll, BytesToBits, Crc.Checked;
    var u := Unstamped(p, f[..4], frames, streamSize, toc);
    var n := SideLen(p);
    var crc := Crc.CrcAll(Crc.Protected(u[..n]), 0xffff);
    assert f[..|u|] == Stamped(p, u);
    InnerSlice(f, 0, |u|, 0, n);
    assert f[..n] == u[..n][4 := crc / 256 % 256][5 := crc % 256];
    assert Crc.Protected(f[..n]) == Crc.Protected(u[..n]);
    Crc.ChecksumChecks(f[..n], crc);
  }

  // ----- writing it

  method PutTagFields(w: Writer, p: Settings, frames: nat, streamSize: nat, toc: seq<byte>)
    requires w.Valid() && |toc| == SeekTable.NUMTOCENTRIES && w.filled + 116 <= w.buffer.Length
    modifies w, w.buffer
    ensures w.Valid() && w.written == old(w.written) + TagFields(p, frames, streamSize, toc)
  {
    hide I4, Magic;
    w.PutAll(Magic(p.vbr));
    w.PutI4(0x0f);
    w.PutI4(frames);
    w.PutI4(streamSize);
    w.PutAll(toc);
  }

  /** CRC_writeheader */
  method CrcWriteHeader(w: Writer, p: Settings)
    requires w.Valid() && SideLen(p) <= w.filled && p.errorProtection
    modifies w, w.buffer
    ensures w.Valid() && w.written == Stamped(p, old(w.written))
  {
    hide Crc.CrcAll;
    var crc := Crc.Checksum(w.buffer[..], SideLen(p));
    assert w.buffer[..][..SideLen(p)] == w.written[..SideLen(p)];
    w.buffer[4] := crc / 256 % 256;
    w.buffer[5] := crc % 256;
    w.written := w.written[4 := crc / 256 % 256][5 := crc % 256];
  }

  method PutLameFirst(w: Writer, l: Lame)
    requires w.Valid() && Packable(l) && w.filled + 23 <= w.buffer.Length
    modifies w, w.buffer
    ensures w.Valid() && w.written == old(w.written) + LameFirst(l)
  {
    hide I4, I2;
    w.PutI4(l.quality);
    w.PutAll(l.versionText);
    w.Put(l.revMethod);
    w.Put(l.lowpass);
    w.PutI4(l.peak);
    w.PutI2(l.radioGain);
    w.PutI2(0);
  }

  method PutLameRest(w: Writer, l: Lame, nMusicLength: nat)
    requires w.Valid() && Packable(l) && w.filled + 15 <= w.buffer.Length
    modifies w, w.buffer
    ensures w.Valid() && w.written == old(w.written) + LameRest(l, nMusicLength)
  {
    hide I4, I2, DelayBytes, Number;
    w.Put(l.flags);
    w.Put(if l.abrBitrate >= 255 then 0xff else l.abrBitrate);
    w.PutAll(DelayBytes(l.delay, l.padding));
    w.Put(l.misc);
    w.Put(0);
    w.PutI2(l.preset);
    w.PutI4(nMusicLength);
    w.PutI2(Number(l.musicCrc));
  }

  /** PutLameVBR; `crc` is the checksum so far. */
  method PutLameVbr(w: Writer, l: Lame, nMusicLength: nat, crc: bv16)
    requires w.Valid() && Packable(l) && w.filled + 40 <= w.buffer.Length && crc == MusicCrc.MusicAll(w.written, 0)
    modifies w, w.buffer
    ensures w.Valid()
    ensures var body := old(w.written) + LameBytes(l, nMusicLength);
      w.written == body + I2(Number(MusicCrc.MusicAll(body, 0)))
  {
    hide LameFirst, LameRest, I2, Number, MusicCrc.MusicAll;
    ghost var before := w.written;
    var start := w.filled;
    PutLameFirst(w, l);
    PutLameRest(w, l, nMusicLength);
    ghost var lame := LameBytes(l, nMusicLength);
    assert w.written == before + lame;
    assert w.buffer[start..w.filled] == lame;
    MusicCrc.MusicConcat(before, lame, 0);
    var c := MusicCrc.UpdateMusicCrc(crc, w.buffer[start..w.filled]);
    w.PutI2(Number(c));
  }

  /** The seek table that goes into the tag. */
  ghost predicate IsToc(p: Settings, bag: SeekTable.Bag, toc: seq<byte>)
    reads bag
  {
    && |toc| == SeekTable.NUMTOCENTRIES && toc[0] == 0
    && forall i: nat | 1 <= i < SeekTable.NUMTOCENTRIES ::
      if p.freeFormat then toc[i] as int == 255 * i / 100 else SeekTable.Entry(bag.rates, bag.want, bag.pos, i, toc[i])
  }

  method MakeToc(p: Settings, bag: SeekTable.Bag) returns (toc: seq<byte>)
    requires bag.Valid() && bag.pos > 0 && forall i | 0 <= i < |bag.rates| :: bag.rates[i] > 0
    ensures IsToc(p, bag, toc)
  {
    hide SeekTable.Entry;
    var btToc := new nat[SeekTable.NUMTOCENTRIES](i => 0);
    if p.freeFormat {
      for i := 1 to SeekTable.NUMTOCENTRIES
        invariant forall k | 0 <= k < i :: btToc[k] == 255 * k / 100
      {
        btToc[i] := 255 * i / 100;
      }
    } else {
      bag.XingSeekTable(btToc);
    }
    toc := [];
    for i := 0 to SeekTable.NUMTOCENTRIES
      invariant |toc| == i && forall k | 0 <= k < i :: toc[k] as int == btToc[k]
    {
      toc := toc + [btToc[i]];
    }
  }

  /** lame_get_lametag_frame: asked with too small a buffer it tells the size needed; otherwise it makes the frame
      that `TagBack` is about, and leaves the rest of the buffer alone. */
  method GetLametagFrame(p: Settings, bag: SeekTable.Bag, nBytesWritten: nat, l: Lame, buffer: array?<byte>, size: nat)
    returns (n: int, ghost toc: seq<byte>)
    requires Initialized(p) && p.outSamplerate > 0 && (p.writeVbrTag ==> TagFits(p)) && Packable(l)
    requires bag.Valid() && forall i | 0 <= i < |bag.rates| :: bag.rates[i] > 0
    requires buffer != null ==> size <= buffer.Length
    modifies if buffer == null then {} else {buffer}
    ensures !p.writeVbrTag || bag.pos == 0 ==> n == 0
    ensures p.writeVbrTag && bag.pos > 0 && (size < TotalFrameSize(p) || buffer != null) ==> n == TotalFrameSize(p)
    ensures !p.writeVbrTag || bag.pos == 0 || size < TotalFrameSize(p) || buffer == null ==>
      buffer == null || buffer[..] == old(buffer[..])
    ensures p.writeVbrTag && bag.pos > 0 && size >= TotalFrameSize(p) && buffer != null ==>
      && n == TotalFrameSize(p) && buffer[n..] == old(buffer[n..]) && IsToc(p, bag, toc)
      && IsTagFrame(p, bag.nVbrNumFrames, nBytesWritten + n, toc, l, buffer[..n])
  {
    hide Initialized, IsTagFrame, IsToc, HeaderSays, TotalFrameSize, HeaderRate;
    toc := [];
    if !p.writeVbrTag { return 0, toc; }
    if bag.pos <= 0 { return 0, toc; }
    if size < TotalFrameSize(p) { return TotalFrameSize(p), toc; }
    if buffer == null { return 0, toc; }
    var btToc := MakeToc(p, bag);
    TocLength(p, bag, btToc);
    var total: nat := TotalFrameSize(p);
    StartFrame(p, buffer, total);
    WriteTag(p, bag.nVbrNumFrames, nBytesWritten + total, btToc, l, buffer, total);
    return total, btToc;
  }

  /** The header, and silence behind it. */
  method StartFrame(p: Settings, buffer: array<byte>, total: nat)
    requires Initialized(p) && 4 <= total <= buffer.Length
    modifies buffer
    ensures HeaderSays(p, buffer[..4]) && buffer[4..total] == Zeros(total - 4)
        && buffer[total..] == old(buffer[total..])
  {
    hide Initialized, HeaderSays;
    Clear(buffer, total);
    ghost var blank := buffer[..];
    SetLameTagFrameHeader(p, buffer);
    ZerosFrom(total, 4);
    assert buffer[4..] == blank[4..];
    assert blank[4..total] == Zeros(total - 4);
    InnerSlice(blank, 4, |blank|, 0, total - 4);
    InnerSlice(buffer[..], 4, |blank|, 0, total - 4);
    InnerSlice(buffer[..], 4, |blank|, total - 4, |blank| - 4);
  }

  lemma TocLength(p: Settings, bag: SeekTable.Bag, toc: seq<byte>)
    requires IsToc(p, bag, toc)
    ensures |toc| == SeekTable.NUMTOCENTRIES
  {
  }

  /** The part of lame_get_lametag_frame that goes through the buffer. */
  method WriteTag(p: Settings, frames: nat, streamSize: nat, toc: seq<byte>, l: Lame, buffer: array<byte>, total: nat)
    requires SideLen(p) + LAMEHEADERSIZE <= total <= buffer.Length && Packable(l) && |toc| == SeekTable.NUMTOCENTRIES
    requires HeaderSays(p, buffer[..4]) && buffer[4..total] == Zeros(total - 4)
    modifies buffer
    ensures buffer[total..] == old(buffer[total..])
    ensures IsTagFrame(p, frames, streamSize, toc, l, buffer[..total])
  {
    hide HeaderSays, I4, I2, Number, LameBytes, TagFields, IsTagFrame, Stamped, MusicCrc.MusicAll, Crc.CrcAll;
    var w := new Writer(buffer);
    var nStart := SideLen(p);
    if p.errorProtection { nStart := nStart - 2; }
    w.Skip(nStart);
    PutTagFields(w, p, frames, streamSize, toc);
    ghost var u := Unstamped(p, w.blank[..4], frames, streamSize, toc);
    StartsWithZeros(w.blank, nStart, total);
    assert w.written == u;
    if p.errorProtection {
      CrcWriteHeader(w, p);
    } else {
      NoStamp(p, u);
    }
    assert buffer[..w.filled] == w.written;
    var crc := MusicCrc.UpdateMusicCrc(0, buffer[..w.filled]);
    PutLameVbr(w, l, streamSize, crc);
    WholeFrame(p, w.blank[..4], w.written, w.blank, buffer[..], frames, streamSize, toc, l, total);
  }

  lemma StartsWithZeros(blank: seq<byte>, n: nat, total: nat)
    requires 4 <= n <= total <= |blank| && blank[4..total] == Zeros(total - 4)
    ensures blank[..n] == blank[..4] + Zeros(n - 4)
  {
    ZerosFrom(total - 4, n - 4);
    assert blank[4..n] == blank[4..total][..n - 4];
  }

  lemma NoStamp(p: Settings, b: seq<byte>)
    requires SideLen(p) <= |b| && !p.errorProtection
    ensures Stamped(p, b) == b
  {
  }

  lemma WholeFrame(p: Settings, head: seq<byte>, written: seq<byte>, blank: seq<byte>, buffer: seq<byte>,
                   frames: nat, streamSize: nat, toc: seq<byte>, l: Lame, total: nat)
    requires SideLen(p) + LAMEHEADERSIZE <= total <= |blank| && Packable(l) && |toc| == SeekTable.NUMTOCENTRIES
    requires HeaderSays(p, blank[..4]) && head == blank[..4] && blank[4..total] == Zeros(total - 4)
    requires var body := Stamped(p, Unstamped(p, head, frames, streamSize, toc)) + LameBytes(l, streamSize);
      written == body + I2(Number(MusicCrc.MusicAll(body, 0)))
    requires buffer == written + blank[|written|..]
    ensures buffer[total..] == blank[total..] && IsTagFrame(p, frames, streamSize, toc, l, buffer[..total])
  {
    hide HeaderSays, I4, I2, Number, LameBytes, MusicCrc.MusicAll, Crc.CrcAll, Magic;
    var u := Unstamped(p, head, frames, streamSize, toc);
    var f := buffer[..total];
    assert u[..4] == head;
    assert Stamped(p, u)[..4] == head;
    assert written[..4] == head;
    assert f[..4] == head;
    assert blank[|written|..total] == Zeros(total - |written|);
    assert f == written + blank[|written|..total];
  }
}

/** format_bitstream and flush_bitstream: frames go into the stream one after the other, and the three
    measures of the bit reservoir agree after each of them. */
module Frames {
  import opened Bits
  import opened Framing
  import opened SideInfo
  import opened FrameSizes
  import opened Granule
  import opened Output
  import opened Bitstream
  import opened Stream
  import opened Huffman
  import opened Crc
  import opened Reservoirs

  /** The part of lame_internal_flags and III_side_info_t that format_bitstream works on. */
  class Writer {
    const out: Formatter
    const resv: Reservoir
    const brate: nat                  // gfp->brate, for free format
    const outSamplerate: nat
    var head: Head                    // the header fields kept in gfp and gfc
    var privateBits: nat
    var scfsi: seq<nat>               // channel by channel
    var tt: seq<GrInfo>               // granule by granule, channel by channel
    ghost var sources: seq<Source>    // what each frame so far was made from
    ghost const minRoom: nat          // bytes every frame has for main data

    function BitRate(): int
      reads this
    {
      if head.bitrateIndex != 0 then BitrateTable(head.version, head.bitrateIndex) else brate
    }

    /** getframebits */
    function GetFrameBits(): nat
      requires BitRate() >= 0 && outSamplerate > 0
      reads this
    {
      BitsPerFrame(head.version, BitRate(), outSamplerate, head.padding)
    }

    /** The header fields make a frame header of this stream. */
    ghost predicate HeadReady()
      reads this
    {
      && WellFormedHead(head) && head.version < 2
      && SideinfoLen(head) == out.sideinfoLen && 0 < outSamplerate
      && 8 <= BitRate() <= 640
      && (Rated(head) ==> outSamplerate == SamplerateTable(head.version, head.mpeg25, head.samplerateIndex))
      && 0 < minRoom && 8 * (out.sideinfoLen + minRoom) <= GetFrameBits() <= 0x10000
    }

    constructor (out: Formatter, resv: Reservoir, brate: nat, outSamplerate: nat, minRoom: nat, head: Head)
      ensures this.out == out && this.resv == resv && this.brate == brate && this.outSamplerate == outSamplerate
      ensures this.minRoom == minRoom && this.head == head && sources == []
    {
      this.out, this.resv, this.brate, this.outSamplerate := out, resv, brate, outSamplerate;
      this.minRoom, this.head := minRoom, head;
      privateBits, scfsi, tt, sources := 0, [], [], [];
    }

    // ----- encodeSideInfo2

    method EncodeHead(ghost slots: seq<HeaderSlot>, ghost all: seq<Field>)
      requires Piece(all, 0, HeadFields(head), 8 * out.sideinfoLen) && out.Filling(slots, all[..0])
      modifies out.header
      ensures out.Filling(slots, all[..13])
    {
      hide Piece, Formatter.Filling;
      ghost var part := HeadFields(head);
      out.WriteNext(if head.mpeg25 then 0xffe else 0xfff, 12, slots, all, 0, part, 0);
      out.WriteNext(head.version, 1, slots, all, 0, part, 1);
      out.WriteNext(4 - 3, 2, slots, all, 0, part, 2);
      out.WriteNext(Flag(!head.errorProtection), 1, slots, all, 0, part, 3);
      out.WriteNext(head.bitrateIndex, 4, slots, all, 0, part, 4);
      out.WriteNext(head.samplerateIndex, 2, slots, all, 0, part, 5);
      EncodeHeadEnd(slots, all);
    }

    method EncodeHeadEnd(ghost slots: seq<HeaderSlot>, ghost all: seq<Field>)
      requires Piece(all, 0, HeadFields(head), 8 * out.sideinfoLen) && 6 <= |all| && out.Filling(slots, all[..6])
      modifies out.header
      ensures out.Filling(slots, all[..13])
    {
      hide Piece, Formatter.Filling;
      ghost var part := HeadFields(head);
      out.WriteNext(head.padding, 1, slots, all, 0, part, 6);
      out.WriteNext(head.extension, 1, slots, all, 0, part, 7);
      out.WriteNext(head.mode, 2, slots, all, 0, part, 8);
      out.WriteNext(head.modeExt, 2, slots, all, 0, part, 9);
      out.WriteNext(head.copyright, 1, slots, all, 0, part, 10);
      out.WriteNext(head.original, 1, slots, all, 0, part, 11);
      out.WriteNext(head.emphasis, 2, slots, all, 0, part, 12);
    }

    method RenameTable(i: nat, k: nat)
      requires i < |tt| && k < |tt[i].tableSelect|
      modifies `tt
      ensures tt == old(tt)[i := old(tt[i]).(tableSelect := old(tt[i].tableSelect[k := Renamed(tt[i].tableSelect[k])]))]
    {
      if tt[i].tableSelect[k] == 14 {
        tt := tt[i := tt[i].(tableSelect := tt[i].tableSelect[k := 16])];
      } else {
        assert tt[i].tableSelect[k := tt[i].tableSelect[k]] == tt[i].tableSelect;
      }
    }

    method EncodeGrHead(gi: GrInfo, ghost slots: seq<HeaderSlot>, ghost all: seq<Field>, ghost n: nat)
      requires |gi.tableSelect| == 3 && |gi.subblockGain| >= 3 && 0 <= gi.part23Length && 0 <= gi.part2Length
      requires Piece(all, n, GrHeadFields(head.version, GrSideOf(head.version, gi)), 8 * out.sideinfoLen)
      requires out.Filling(slots, all[..n])
      modifies out.header
      ensures out.Filling(slots, all[..n + 5])
    {
      hide Piece, Formatter.Filling;
      ghost var part := GrHeadFields(head.version, GrSideOf(head.version, gi));
      out.WriteNext(gi.part23Length + gi.part2Length, 12, slots, all, n, part, 0);
      out.WriteNext(gi.bigValues / 2, 9, slots, all, n, part, 1);
      out.WriteNext(gi.globalGain, 8, slots, all, n, part, 2);
      out.WriteNext(gi.scalefacCompress, if head.version == 1 then 4 else 9, slots, all, n, part, 3);
      out.WriteNext(if gi.blockType != NORM_TYPE then 1 else 0, 1, slots, all, n, part, 4);
    }

    /** Block type, tables and gains; the tables written are renamed on the way. */
    method EncodeGrWindows(i: nat, ghost slots: seq<HeaderSlot>, ghost all: seq<Field>, ghost n: nat,
        ghost side: GrSide)
      requires i < |tt| && |tt[i].tableSelect| == 3 && |tt[i].subblockGain| >= 3
      requires 0 <= tt[i].part23Length && 0 <= tt[i].part2Length
      requires side == GrSideOf(head.version, tt[i])
      requires Piece(all, n, WindowFields(side.windows), 8 * out.sideinfoLen)
      requires out.Filling(slots, all[..n])
      modifies out.header, `tt
      ensures out.Filling(slots, all[..n + |WindowFields(side.windows)|])
      ensures tt == old(tt)[i := WithRenamed(old(tt[i]))]
    {
      hide Piece, Formatter.Filling, Renamed;
      var gi := tt[i];
      ghost var part := WindowFields(side.windows);
      if gi.blockType != NORM_TYPE {
        out.WriteNext(gi.blockType, 2, slots, all, n, part, 0);
        out.WriteNext(gi.mixedBlockFlag, 1, slots, all, n, part, 1);
        RenameTable(i, 0);
        out.WriteNext(tt[i].tableSelect[0], 5, slots, all, n, part, 2);
        RenameTable(i, 1);
        out.WriteNext(tt[i].tableSelect[1], 5, slots, all, n, part, 3);
        out.WriteNext(gi.subblockGain[0], 3, slots, all, n, part, 4);
        out.WriteNext(gi.subblockGain[1], 3, slots, all, n, part, 5);
        out.WriteNext(gi.subblockGain[2], 3, slots, all, n, part, 6);
      } else {
        RenameTable(i, 0);
        out.WriteNext(tt[i].tableSelect[0], 5, slots, all, n, part, 0);
        RenameTable(i, 1);
        out.WriteNext(tt[i].tableSelect[1], 5, slots, all, n, part, 1);
        RenameTable(i, 2);
        out.WriteNext(tt[i].tableSelect[2], 5, slots, all, n, part, 2);
        out.WriteNext(gi.region0Count, 4, slots, all, n, part, 3);
        out.WriteNext(gi.region1Count, 3, slots, all, n, part, 4);
      }
      assert tt[i].tableSelect == WithRenamed(gi).tableSelect;
      assert tt == old(tt)[i := WithRenamed(gi)];
    }

    /** The fields of one granule of one channel. */
    method EncodeGr(i: nat, ghost slots: seq<HeaderSlot>, ghost all: seq<Field>, ghost n: nat, ghost side: GrSide)
      requires i < |tt| && |tt[i].tableSelect| == 3 && |tt[i].subblockGain| >= 3
      requires 0 <= tt[i].part23Length && 0 <= tt[i].part2Length
      requires side == GrSideOf(head.version, tt[i])
      requires Piece(all, n, GrFields(head.version, side), 8 * out.sideinfoLen)
      requires out.Filling(slots, all[..n])
      modifies out.header, `tt
      ensures out.Filling(slots, all[..n + |GrFields(head.version, side)|])
      ensures tt == old(tt)[i := WithRenamed(old(tt[i]))]
    {
      hide Piece, Formatter.Filling;
      var gi := tt[i];
      ghost var a, b, c := GrHeadFields(head.version, side), WindowFields(side.windows),
          GrTailFields(head.version, side);
      SubPiece(all, n, a, b, c, 8 * out.sideinfoLen);
      EncodeGrHead(gi, slots, all, n);
      EncodeGrWindows(i, slots, all, n + 5, side);
      ghost var m := n + |a| + |b|;
      ghost var k := 0;
      if head.version == 1 {
        out.WriteNext(gi.preflag, 1, slots, all, m, c, 0);
        k := 1;
      }
      out.WriteNext(gi.scalefacScale, 1, slots, all, m, c, k);
      out.WriteNext(gi.count1TableSelect, 1, slots, all, m, c, k + 1);
    }

    /** The side information that goes with the granules in `tt`. */
    ghost predicate Ready(side: Side)
      reads this, resv
    {
      && WellFormedSide(head, side) && side.mainDataBegin == resv.mainDataBegin
      && side.privateBits == privateBits && side.scfsi == scfsi
      && |tt| == |side.grs| && forall i | 0 <= i < |tt| :: ToldBy(head.version, out.bands, tt[i], side.grs[i])
    }

    /** The fields before those of the granules. */
    method EncodeTop(ghost side: Side, ghost slots: seq<HeaderSlot>, ghost all: seq<Field>)
      requires WellFormedSide(head, side) && side.mainDataBegin == resv.mainDataBegin
      requires side.privateBits == privateBits && side.scfsi == scfsi
      requires Pieces(head, side, all, 8 * out.sideinfoLen)
      requires out.Filling(slots, all[..0])
      modifies out.header
      ensures out.Filling(slots, all[..BeforeGrs(head, side)])
    {
      hide Piece, Formatter.Filling, WellFormedGr, AllFit, HeadFields;
      EncodeHead(slots, all);
      var c := if head.errorProtection then 14 else 13;
      if head.errorProtection {
        out.WriteNext(0, 16, slots, all, 13, CrcFields(head, 0), 0);
      }
      assert resv.mainDataBegin >= 0;
      if head.version == 1 {
        out.WriteNext(resv.mainDataBegin, 9, slots, all, c, TopFields(head, side), 0);
        out.WriteNext(privateBits, if Channels(head) == 2 then 3 else 5, slots, all, c, TopFields(head, side), 1);
        for k := 0 to |scfsi|
          invariant out.Filling(slots, all[..c + 2 + k])
        {
          out.WriteNext(scfsi[k], 1, slots, all, c + 2, ScfsiFields(scfsi), k);
        }
      } else {
        out.WriteNext(resv.mainDataBegin, 8, slots, all, c, TopFields(head, side), 0);
        out.WriteNext(privateBits, Channels(head), slots, all, c, TopFields(head, side), 1);
      }
    }

    /** The granules' fields. */
    method EncodeGrs(ghost side: Side, ghost slots: seq<HeaderSlot>, ghost all: seq<Field>, ghost m: nat)
      requires Ready(side)
      requires Piece(all, m, AllGrFields(head.version, side.grs), 8 * out.sideinfoLen)
      requires out.Filling(slots, all[..m])
      modifies out.header, `tt
      ensures out.Filling(slots, all[..m + |AllGrFields(head.version, side.grs)|])
      ensures |tt| == old(|tt|) && forall i | 0 <= i < |tt| :: RenamedTo(old(tt[i]), tt[i])
    {
      hide Piece, Formatter.Filling, WellFormedGr, WellFormedSide, AllFit, HeadFields, ToldBy, AllGrFields;
      hide GrFields, WithRenamed;
      ghost var v := head.version;
      var n := |tt|;
      NoGrFields(v);
      assert n == |side.grs| && side.grs[..0] == [];
      for i := 0 to n
        invariant |tt| == n && m + |AllGrFields(v, side.grs[..i])| <= |all|
        invariant out.Filling(slots, all[..m + |AllGrFields(v, side.grs[..i])|])
        invariant forall j | 0 <= j < i :: RenamedTo(old(tt[j]), tt[j])
        invariant forall j | i <= j < |tt| :: tt[j] == old(tt[j])
      {
        GrPiece(all, m, v, side.grs, i, 8 * out.sideinfoLen);
        assert ToldBy(v, out.bands, tt[i], side.grs[i]);
        ToldParts(v, out.bands, tt[i], side.grs[i]);
        EncodeGr(i, slots, all, m + |AllGrFields(v, side.grs[..i])|, side.grs[i]);
      }
      assert side.grs[..n] == side.grs;
    }

    /** All fields, and the checksum. */
    method EncodeFields(ghost side: Side) returns (ghost slots: seq<HeaderSlot>, ghost crc: nat)
      requires out.Valid() && WellFormedHead(head) && Ready(side) && SideinfoLen(head) == out.sideinfoLen
      modifies out.header, `tt
      ensures out.Idle(slots) && out.Filling(slots, HeaderFields(head, crc, side))
      ensures head.errorProtection ==> Checked(HeaderBits(head, crc, side))
      ensures |tt| == old(|tt|) && forall i | 0 <= i < |tt| :: RenamedTo(old(tt[i]), tt[i])
    {
      hide Piece, Pieces, Formatter.Filling, Formatter.Valid, Formatter.Idle, WellFormedSide, WellFormedHead;
      hide AllFit, HeadFields, ToldBy, AllGrFields, GrFields, WithRenamed, FieldBits, Width, HeaderFields;
      hide SideinfoLen, Checked;
      ghost var all := HeaderFields(head, 0, side);
      HeaderPieces(head, side);
      slots := out.BeginHeader();
      assert all[..0] == [];
      EncodeTop(side, slots, all);
      PiecesEnd(head, side, 8 * out.sideinfoLen);
      EncodeGrs(side, slots, all, BeforeGrs(head, side));
      assert all[..|all|] == all;
      crc := 0;
      if head.errorProtection {
        ghost var pre, post := HeaderAround(head, side);
        crc := out.CrcWriteHeader(slots, pre, post);
        HeaderWith(head, side, crc, pre, post);
      }
    }

    /** encodeSideInfo2: the header of the frame whose data is `data` is written and queued. */
    method EncodeSideInfo2(bitsPerFrame: nat, ghost side: Side, ghost data: seq<bool>)
        returns (ghost f: Frame, ghost crc: nat)
      requires out.Valid() && WellFormedHead(head) && Ready(side) && SideinfoLen(head) == out.sideinfoLen
      requires out.QueueRoom(bitsPerFrame)
      modifies out.header, out`hPtr, out`frames, `tt
      ensures out.Valid() && out.Chained()
      ensures f == Frame(HeaderBits(head, crc, side), bitsPerFrame, |out.main|, data)
      ensures |f.header| == 8 * out.sideinfoLen && out.frames == old(out.frames) + [f]
      ensures head.errorProtection ==> Checked(f.header)
      ensures |tt| == old(|tt|) && forall i | 0 <= i < |tt| :: RenamedTo(old(tt[i]), tt[i])
    {
      hide Formatter.Filling, Formatter.Valid, Formatter.Idle, Formatter.Chained, Formatter.QueueRoom;
      hide WellFormedSide, WellFormedHead;
      hide ToldBy, WithRenamed, FieldBits, HeaderFields, SideinfoLen, Checked;
      ghost var slots;
      slots, crc := EncodeFields(side);
      HeaderAlone(head, crc, side);
      f := Frame(HeaderBits(head, crc, side), bitsPerFrame, |out.main|, data);
      out.QueueHeader(bitsPerFrame, slots, HeaderFields(head, crc, side), f);
    }

    /** writeMainData */
    method WriteMainData() returns (totBits: nat)
      requires out.Valid() && head.version < 2
      requires forall i | 0 <= i < |tt| :: Writable(head.version, out.bands, tt[i])
      requires |MainBits(head.version, out.bands, tt)| <= out.Free()
      modifies out.buf, out`bufByteIdx, out`bufBitIdx, out`totbit, out`wPtr, out`sent, out`stream, out`main
      ensures out.Valid()
      ensures out.main == old(out.main) + MainBits(head.version, out.bands, tt)
      ensures totBits == |MainBits(head.version, out.bands, tt)|
    {
      hide Formatter.Valid, Writable, DataOf, Capacity;
      var v := head.version;
      ghost var was := out.main;
      totBits := 0;
      assert tt[..0] == [] && was + MainBits(v, out.bands, []) == was;
      for i := 0 to |tt|
        invariant out.Valid()
        invariant out.main == was + MainBits(v, out.bands, tt[..i]) && totBits == |MainBits(v, out.bands, tt[..i])|
      {
        MainBitsStep(v, out.bands, tt, i);
        WritableParts(v, out.bands, tt[i]);
        Regroup2(was, MainBits(v, out.bands, tt[..i]), DataOf(v, out.bands, tt[i]));
        var dataBits := out.WriteGranule(v, tt[i]);
        totBits := totBits + dataBits;
      }
      assert tt[..|tt|] == tt;
    }

    // ----- format_bitstream

    /** Between frames: the stream so far is well formed, and every frame is told by its source. */
    ghost predicate Steady()
      reads `sources, out, out.buf, out.header
    {
      && out.Valid() && out.Chained() && out.bufBitIdx == 0
      && Told(out.bands, out.frames, sources, out.main)
      && Roomed(out.frames, 8 * minRoom) && 0 < minRoom
    }

    /** Between frames: what is free in the queued frames is what main_data_begin can point back over, and
        `drained` bits more. */
    ghost predicate Between(drained: int)
      reads `sources, resv, out, out.buf, out.header
    {
      Steady() && out.Free() == 8 * resv.mainDataBegin + drained
    }

    /** The frame to be written: its granules, and the reservoir's accounts, which leave enough for it. */
    ghost predicate Accounted(side: Side)
      requires BitRate() >= 0 && outSamplerate > 0
      reads this, resv
    {
      && 0 <= resv.mainDataBegin < 255 * minRoom
      && 0 <= resv.resvDrainPre && resv.resvDrainPre % 8 == 0 && 0 <= resv.resvDrainPost
      && 0 <= resv.resvSize && resv.resvSize % 8 == 0
      && resv.resvSize == 8 * resv.mainDataBegin + GetFrameBits() - 8 * out.sideinfoLen
                          - |MainBits(head.version, out.bands, tt)| - resv.resvDrainPost
      && Ready(side)
    }

    /** resvDrain_pre goes into the frames queued before. */
    method DrainPre()
      requires Between(resv.resvDrainPre) && 0 <= resv.resvDrainPre && 0 <= resv.mainDataBegin
      modifies out, out.buf
      ensures Between(0) && out.frames == old(out.frames) && out.Level() == old(out.Level())
      ensures out.taken == old(out.taken) && out.tags == old(out.tags)
    {
      hide Formatter.Valid, Formatter.Chained, Formatter.Level, Told, Roomed, Capacity, Ancillary;
      ToldMore(out.bands, out.frames, sources, out.main,
               Ancillary(resv.resvDrainPre, out.shortVersion, out.ancillaryFlag, !out.disableReservoir));
      out.DrainIntoAncillary(resv.resvDrainPre);
      out.Aligned();
    }

    /** The header is queued, and the frame has its data next. */
    method QueueFrame(ghost side: Side) returns (ghost f: Frame, ghost crc: nat)
      requires Between(0) && HeadReady() && Accounted(side)
      requires out.Level() + GetFrameBits() <= 8 * BUFFER_SIZE
      modifies out.header, out`hPtr, out`frames, `tt
      ensures out.Valid() && out.Chained()
      ensures f == Frame(HeaderBits(head, crc, side), GetFrameBits(), |out.main|,
          old(MainBits(head.version, out.bands, tt)))
      ensures |f.header| == 8 * out.sideinfoLen && out.frames == old(out.frames) + [f]
      ensures head.errorProtection ==> Checked(f.header)
      ensures |tt| == old(|tt|) && forall i | 0 <= i < |tt| :: RenamedTo(old(tt[i]), tt[i])
    {
      hide Formatter.Valid, Formatter.Chained, Formatter.Level, Told, Roomed, Capacity, BitsPerFrame, ToldBy;
      hide HeaderBits;
      hide Checked, SideinfoLen, WellFormedHead, WellFormedSide, BitrateTable, SamplerateTable, RenamedTo;
      EightTimes(255, minRoom);
      out.PendingFew(8 * minRoom, 255);
      out.Aligned();
      f, crc := EncodeSideInfo2(GetFrameBits(), side, MainBits(head.version, out.bands, tt));
    }

    /** The frame's header, its data, and resvDrain_post. */
    method WriteFrame(ghost side: Side) returns (bits: nat, ghost f: Frame, ghost crc: nat, ghost tail: seq<bool>)
      requires Between(0) && HeadReady() && Accounted(side)
      requires out.Level() + GetFrameBits() <= 8 * BUFFER_SIZE
      modifies out, out.buf, out.header, `tt
      ensures out.Valid() && out.Chained()
      ensures f == Frame(HeaderBits(head, crc, side), GetFrameBits(), old(|out.main|),
          old(MainBits(head.version, out.bands, tt)))
      ensures |f.header| == 8 * out.sideinfoLen && out.frames == old(out.frames) + [f]
      ensures head.errorProtection ==> Checked(f.header)
      ensures out.main == old(out.main) + f.data + tail && |tail| == resv.resvDrainPost
      ensures bits == 8 * out.sideinfoLen + |f.data| + resv.resvDrainPost
      ensures out.taken == old(out.taken) && out.tags == old(out.tags)
    {
      hide Formatter.Valid, Formatter.Chained, Formatter.Level, Told, Roomed, Capacity, BitsPerFrame, ToldBy;
      hide HeaderBits;
      hide Checked, SideinfoLen, WellFormedHead, WellFormedSide, BitrateTable, SamplerateTable, RenamedTo, Writable;
      hide Ancillary, MainBits;
      f, crc := QueueFrame(side);
      CapacityAppend(old(out.frames), f);
      RenamedMain(head.version, out.bands, old(tt), tt, side.grs);
      bits := 8 * out.sideinfoLen;
      var dataBits := WriteMainData();
      bits := bits + dataBits;
      tail := Ancillary(resv.resvDrainPost, out.shortVersion, out.ancillaryFlag, !out.disableReservoir);
      out.DrainIntoAncillary(resv.resvDrainPost);
      bits := bits + resv.resvDrainPost;
    }

    /** format_bitstream: after it, compute_flushbits, ResvSize and 8 * main_data_begin are the same number. */
    method FormatBitstream(ghost side: Side) returns (ghost crc: nat)
      requires Between(resv.resvDrainPre) && HeadReady() && Accounted(side)
      requires out.Level() + GetFrameBits() <= 8 * BUFFER_SIZE
      modifies out, out.buf, out.header, resv`mainDataBegin, `tt, `sources
      ensures Between(0)
      ensures resv.resvSize == 8 * resv.mainDataBegin == out.Free()
      ensures out.totbit % 8 == 0
      ensures sources == old(sources) + [Source(head, crc, side, old(tt))]
      ensures |out.frames| == old(|out.frames|) + 1 && out.frames[|out.frames| - 1].size == GetFrameBits()
      ensures out.taken == old(out.taken) && out.tags == old(out.tags)
    {
      hide Formatter.Valid, Formatter.Chained, Formatter.Level, Told, Roomed, Capacity, BitsPerFrame, ToldBy;
      hide HeaderBits, TellsAt;
      hide Checked, SideinfoLen, WellFormedHead, WellFormedSide, BitrateTable, SamplerateTable, MainBits;
      var bitsPerFrame: int := GetFrameBits();
      DrainPre();
      ghost var main0 := out.main;
      var bits: int;
      ghost var f;
      ghost var tail;
      bits, f, crc, tail := WriteFrame(side);
      ghost var src := Source(head, crc, side, old(tt));
      ToldGrows(out.bands, old(out.frames), sources, f, src, main0, out.main, tail);
      RoomedAppend(old(out.frames), f, 8 * minRoom);
      CapacityAppend(old(out.frames), f);
      WholeBytesBack(resv.mainDataBegin, bitsPerFrame - bits, resv.resvSize);
      resv.mainDataBegin := resv.mainDataBegin + (bitsPerFrame - bits) / 8;
      sources := sources + [src];
      CheckAndReset(bitsPerFrame);
    }

    /** The checks at the end of format_bitstream, which it calls fatal errors, and the reset of the counter. */
    method CheckAndReset(bitsPerFrame: nat)
      requires out.Valid() && out.Chained() && resv.resvSize % 8 == 0
      requires out.frames != [] && out.frames[|out.frames| - 1].size == bitsPerFrame
      requires out.Free() == resv.resvSize == 8 * resv.mainDataBegin
      modifies out.header, out`totbit
      ensures out.Valid() && out.Chained() && out.bufBitIdx == 0 && out.totbit % 8 == 0
    {
      hide Formatter.Valid, Formatter.Chained, Capacity;
      out.Aligned();
      var flushbits, totalBytes := out.ComputeFlushbits(bitsPerFrame);
      assert flushbits == resv.resvSize;
      assert resv.mainDataBegin * 8 == resv.resvSize;
      assert out.totbit % 8 == 0;
      out.ResetCounter();
    }

    /** flush_bitstream: every queued frame is completed. */
    method FlushBitstream()
      requires Between(0) && BitRate() >= 0 && outSamplerate > 0
      requires out.frames != [] && out.frames[|out.frames| - 1].size == GetFrameBits()
      modifies out, out.buf, resv`resvSize, resv`mainDataBegin
      ensures Between(0) && out.Free() == 0 && resv.resvSize == 0 && resv.mainDataBegin == 0
      ensures out.frames == old(out.frames) && |out.main| == Capacity(out.frames)
      ensures out.taken == old(out.taken) && out.tags == old(out.tags)
    {
      hide Formatter.Valid, Formatter.Chained, Told, Roomed, Capacity, BitsPerFrame, BitrateTable, Ancillary;
      var lastPtr: int := out.hPtr - 1;
      if lastPtr == -1 {
        lastPtr := MAX_HEADER_BUF - 1;
      }
      var flushbits, nbytes := out.ComputeFlushbits(GetFrameBits());
      out.Aligned();
      if flushbits < 0 {
        return;
      }
      ToldMore(out.bands, out.frames, sources, out.main,
               Ancillary(flushbits, out.shortVersion, out.ancillaryFlag, !out.disableReservoir));
      out.DrainIntoAncillary(flushbits);
      out.Complete();
      assert out.header[lastPtr].writeTiming + GetFrameBits() == out.totbit;
      resv.resvSize := 0;
      resv.mainDataBegin := 0;
      out.Aligned();
    }

    /** add_dummy_byte, between frames: everything measured stays as it is. */
    method AddDummyByte(val: byte, n: nat)
      requires Between(0) && out.Level() + 8 * n <= 8 * BUFFER_SIZE
      modifies out, out.buf, out.header
      ensures Between(0) && out.Free() == old(out.Free())
      ensures out.frames == old(out.frames) && out.main == old(out.main)
      ensures AudioOf(out.stream) == old(AudioOf(out.stream))
      ensures Values(out.stream) == old(Values(out.stream)) + BytesToBits(seq(n, _ => val))
    {
      hide Formatter.Valid, Formatter.Chained, Formatter.Level, Told, Roomed, Capacity, Values, AudioOf, BytesToBits;
      out.SameAudio();
      out.AddDummyByte(val, n);
      out.SameAudio();
    }

    /** copy_buffer, between frames. */
    method CopyBuffer(size: nat) returns (count: int, bytes: seq<byte>)
      requires Between(0)
      modifies out
      ensures Between(0) && out.Free() == old(out.Free())
      ensures out.frames == old(out.frames) && out.main == old(out.main) && out.stream == old(out.stream)
      ensures count >= -1 && (count == -1 <==> 0 < size <= old(out.bufByteIdx))
      ensures count >= 0 ==> count == |bytes| && out.bufByteIdx == -1 && out.taken == Values(out.stream)
      ensures out.taken == old(out.taken) + BytesToBits(bytes) && out.tags == old(out.tags)
    {
      hide Formatter.Valid, Formatter.Chained, Told, Roomed, Capacity, Values, BytesToBits;
      count, bytes := out.CopyBuffer(size);
    }

    /** Without tag bytes, what has been copied out is the audio stream. */
    lemma WholeOutput()
      requires Steady()
      ensures out.tags == 0 ==> Values(out.stream) == AudioOf(out.stream)
    {
      hide Formatter.Valid, Formatter.Chained, Told, Roomed, Values, AudioOf;
      out.SameAudio();
    }

    /** With the buffer just emptied, the next frame has room in it. */
    lemma RoomAfterCopy(size: nat)
      requires Steady() && out.bufByteIdx == -1 && out.Free() < 4096 && size <= 0x10000
      ensures out.Level() + size <= 8 * BUFFER_SIZE
    {
      hide Ring, Held, Layout, AudioOf, Capacity, Values, Told, Roomed, Placed, Times, Formatter.Chained;
      out.FewPending();
      LevelSmall(out.frames, out.sent, |out.main|, out.sideinfoLen);
    }

    /** After the flush, a reader of the output (without the tag bytes put in beside it) finds every frame's
        header and side information, and in every granule what the encoder put in. */
    lemma FlushedIsReadable(i: nat, j: nat)
      requires Between(0) && out.Free() == 0 && Edges(out.bands)
      requires AllRated(sources, 8 * out.sideinfoLen)
      requires i < |sources| && j < |sources[i].grs| && TellsShared(sources[i], j)
      requires |sources[i].grs[j].l3Enc| == |sources[i].grs[j].neg| == 576
      ensures |out.frames| == |sources|
      ensures Demux(AudioOf(out.stream), 8 * out.sideinfoLen, SizeOf) == (Headers(out.frames), out.main)
      ensures ReadHead(out.frames[i].header) == sources[i].head
      ensures ReadSide(sources[i].head, out.frames[i].header) == sources[i].side
      ensures LayerThree(out.frames[i].header, sources[i].head)
      ensures sources[i].head.errorProtection ==> Checked(out.frames[i].header)
      ensures ReadStreamGranule(out.bands, AudioOf(out.stream), 8 * out.sideinfoLen, i, j)
           == Some(Expected(sources[i].head.version, sources[i].grs[j]))
    {
      hide Ring, Held, Layout, AudioOf, Capacity, Due, Values, TellsAt, TellsShared, AllRated, Edges, Roomed;
      hide Checked, ReadHead, ReadSide, ReadStreamGranule, Expected, SizeOf, Demux, Headers, Scaled, LayerThree;
      StreamBack(out.bands, out.frames, sources, out.main, 8 * out.sideinfoLen, i, j);
    }
  }

  /** How many fields there are before those of the granules. */
  ghost function BeforeGrs(h: Head, s: Side): nat { (if h.errorProtection then 14 else 13) + 2 + |s.scfsi| }

  /** The five runs of fields of a header. */
  ghost predicate Pieces(h: Head, s: Side, all: seq<Field>, hdr: nat) {
    var c := if h.errorProtection then 14 else 13;
    && Piece(all, 0, HeadFields(h), hdr) && Piece(all, 13, CrcFields(h, 0), hdr) && Piece(all, c, TopFields(h, s), hdr)
    && Piece(all, c + 2, ScfsiFields(s.scfsi), hdr) && Piece(all, BeforeGrs(h, s), AllGrFields(h.version, s.grs), hdr)
  }

  /** What encodeSideInfo2 does to a granule. */
  ghost predicate RenamedTo(g: GrInfo, h: GrInfo) { |g.tableSelect| == 3 && h == WithRenamed(g) }

  lemma ToldParts(version: nat, b: Bands, g: GrInfo, s: GrSide)
    requires ToldBy(version, b, g, s)
    ensures |g.tableSelect| == 3 && |g.subblockGain| >= 3 && 0 <= g.part23Length && 0 <= g.part2Length
    ensures s == GrSideOf(version, g)
  {
  }

  lemma NoGrFields(v: nat)
    ensures AllGrFields(v, []) == []
  {
  }

  lemma {:induction false} AllGrSplit(v: nat, grs: seq<GrSide>, i: nat) returns (rest: seq<Field>)
    requires i < |grs|
    ensures AllGrFields(v, grs) == AllGrFields(v, grs[..i]) + GrFields(v, grs[i]) + rest
    ensures AllGrFields(v, grs[..i + 1]) == AllGrFields(v, grs[..i]) + GrFields(v, grs[i])
    decreases |grs|
  {
    hide GrFields;
    var n := |grs| - 1;
    assert grs[..i + 1][..i] == grs[..i];
    if i == n {
      rest := [];
      assert grs[..i + 1] == grs;
    } else {
      var r := AllGrSplit(v, grs[..n], i);
      assert grs[..n][..i] == grs[..i] && grs[..n][i] == grs[i];
      rest := r + GrFields(v, grs[n]);
    }
  }

  lemma GrPiece(all: seq<Field>, m: nat, v: nat, grs: seq<GrSide>, i: nat, hdr: nat)
    requires Piece(all, m, AllGrFields(v, grs), hdr) && i < |grs|
    ensures Piece(all, m + |AllGrFields(v, grs[..i])|, GrFields(v, grs[i]), hdr)
    ensures |AllGrFields(v, grs[..i + 1])| == |AllGrFields(v, grs[..i])| + |GrFields(v, grs[i])|
  {
    hide GrFields, AllGrFields, Piece;
    var rest := AllGrSplit(v, grs, i);
    SubPiece(all, m, AllGrFields(v, grs[..i]), GrFields(v, grs[i]), rest, hdr);
  }

  lemma HeaderPieces(h: Head, s: Side)
    requires WellFormedHead(h) && WellFormedSide(h, s)
    ensures Pieces(h, s, HeaderFields(h, 0, s), 8 * SideinfoLen(h))
  {
    hide WellFormedHead, WellFormedSide, AllFit, Width, FieldBits, HeadFields, AllGrFields, ScfsiFields, TopFields;
    hide SideinfoLen, Piece, HeaderFields, CrcFields, HeaderBits, Pieces;
    var a, b, c, d, e :=
      HeadFields(h), CrcFields(h, 0), TopFields(h, s), ScfsiFields(s.scfsi), AllGrFields(h.version, s.grs);
    HeaderParts(h, s);
    HeaderWidth(h, s);
    WholePiece(a + b + c + d + e, 8 * SideinfoLen(h));
    FivePieces(a, b, c, d, e, 8 * SideinfoLen(h));
    PiecesFrom(h, s, a + b + c + d + e, 8 * SideinfoLen(h));
  }

  lemma HeaderWidth(h: Head, s: Side)
    requires WellFormedHead(h) && WellFormedSide(h, s)
    ensures AllFit(HeaderFields(h, 0, s)) && Width(HeaderFields(h, 0, s)) == 8 * SideinfoLen(h)
  {
    hide WellFormedHead, WellFormedSide, AllFit, Width, FieldBits, HeaderFields, SideinfoLen;
    HeaderFits(h, 0, s);
    HeaderAlone(h, 0, s);
  }

  lemma PiecesFrom(h: Head, s: Side, all: seq<Field>, hdr: nat)
    requires var a, b, c, d, e :=
               HeadFields(h), CrcFields(h, 0), TopFields(h, s), ScfsiFields(s.scfsi), AllGrFields(h.version, s.grs);
      && Piece(all, 0, a, hdr) && Piece(all, |a|, b, hdr) && Piece(all, |a| + |b|, c, hdr)
      && Piece(all, |a| + |b| + |c|, d, hdr) && Piece(all, |a| + |b| + |c| + |d|, e, hdr)
    ensures Pieces(h, s, all, hdr)
  {
    hide Piece, AllGrFields;
    RunLengths(h, s);
    hide HeadFields, CrcFields, TopFields, ScfsiFields;
  }

  lemma HeaderParts(h: Head, s: Side)
    ensures HeaderFields(h, 0, s)
         == HeadFields(h) + CrcFields(h, 0) + TopFields(h, s) + ScfsiFields(s.scfsi) + AllGrFields(h.version, s.grs)
    ensures HeaderBits(h, 0, s) == FieldBits(HeaderFields(h, 0, s))
  {
  }

  lemma FivePieces(a: seq<Field>, b: seq<Field>, c: seq<Field>, d: seq<Field>, e: seq<Field>, hdr: nat)
    requires Piece(a + b + c + d + e, 0, a + b + c + d + e, hdr)
    ensures var all := a + b + c + d + e;
      && Piece(all, 0, a, hdr) && Piece(all, |a|, b, hdr) && Piece(all, |a| + |b|, c, hdr)
      && Piece(all, |a| + |b| + |c|, d, hdr) && Piece(all, |a| + |b| + |c| + |d|, e, hdr)
  {
    hide AllFit, Width;
  }

  lemma RunLengths(h: Head, s: Side)
    ensures |HeadFields(h)| == 13 && |CrcFields(h, 0)| == (if h.errorProtection then 1 else 0)
    ensures |TopFields(h, s)| == 2 && |ScfsiFields(s.scfsi)| == |s.scfsi|
  {
  }

  lemma WholePiece(all: seq<Field>, hdr: nat)
    requires AllFit(all) && Width(all) == hdr
    ensures Piece(all, 0, all, hdr)
  {
  }

  lemma PiecesEnd(h: Head, s: Side, hdr: nat)
    requires Pieces(h, s, HeaderFields(h, 0, s), hdr)
    ensures Piece(HeaderFields(h, 0, s), BeforeGrs(h, s), AllGrFields(h.version, s.grs), hdr)
    ensures BeforeGrs(h, s) + |AllGrFields(h.version, s.grs)| == |HeaderFields(h, 0, s)|
    ensures Width(HeaderFields(h, 0, s)) == hdr
  {
    hide AllGrFields, AllFit, Width;
  }

  lemma HeaderAround(h: Head, s: Side) returns (pre: seq<Field>, post: seq<Field>)
    requires WellFormedHead(h) && WellFormedSide(h, s) && h.errorProtection
    ensures Width(pre) == 32 && 6 <= SideinfoLen(h)
    ensures HeaderFields(h, 0, s) == pre + [Field(0, 16)] + post
    ensures pre == HeadFields(h) && post == TopFields(h, s) + ScfsiFields(s.scfsi) + AllGrFields(h.version, s.grs)
  {
    pre, post := HeadFields(h), TopFields(h, s) + ScfsiFields(s.scfsi) + AllGrFields(h.version, s.grs);
    HeadWidths(h);
    hide AllGrFields, AllFit, Width, FieldBits, HeadFields, WellFormedSide;
  }

  lemma HeaderWith(h: Head, s: Side, crc: nat, pre: seq<Field>, post: seq<Field>)
    requires h.errorProtection
    requires pre == HeadFields(h) && post == TopFields(h, s) + ScfsiFields(s.scfsi) + AllGrFields(h.version, s.grs)
    ensures HeaderFields(h, crc, s) == pre + [Field(crc, 16)] + post
  {
    hide AllGrFields, HeadFields, TopFields, ScfsiFields;
  }

  /** A granule that has been counted and whose tables have been renamed. */
  ghost predicate Writable(version: nat, b: Bands, g: GrInfo) {
    Counted(version, b, g) && NoTable14(g)
  }

  lemma WritableParts(version: nat, b: Bands, g: GrInfo)
    requires Writable(version, b, g)
    ensures |g.tableSelect| == 3 && Counted(version, b, g) && NoTable14(g)
    ensures DataOf(version, b, g) == GranuleBits(version, b, g)
  {
    hide GranuleBits;
  }

  lemma MainBitsStep(version: nat, b: Bands, grs: seq<GrInfo>, i: nat)
    requires i < |grs|
    ensures MainBits(version, b, grs[..i + 1]) == MainBits(version, b, grs[..i]) + DataOf(version, b, grs[i])
    ensures |MainBits(version, b, grs[..i + 1])| <= |MainBits(version, b, grs)|
    decreases |grs|
  {
    hide DataOf;
    assert grs[..i + 1][..i] == grs[..i];
    if i + 1 < |grs| {
      var n := |grs| - 1;
      assert grs[..n][..i + 1] == grs[..i + 1];
      MainBitsStep(version, b, grs[..n], i);
    } else {
      assert grs[..i + 1] == grs;
    }
  }

  lemma LevelSmall(fs: seq<Frame>, sent: nat, written: int, n: nat)
    requires sent <= |fs| && |fs| - sent < MAX_HEADER_BUF && n <= MAX_HEADER_LEN
    ensures Due(fs, sent, written, 8 * n, |fs|) <= Capacity(fs) - written + 81920
  {
    assert fs[..|fs|] == fs;
    MulMonotone(|fs| - sent, 256, 8 * n);
  }

  lemma WholeBytesBack(mdb: int, n: int, size: int)
    requires 8 * mdb + n == size && size % 8 == 0
    ensures 8 * (mdb + n / 8) == size
  {
  }

  lemma EightTimes(n: nat, m: nat)
    ensures Times(n, 8 * m) == 8 * (n * m)
  {
  }

  /** Renaming has not changed the main data, and left tables that can be written. */
  lemma {:induction false} RenamedMain(version: nat, b: Bands, gs: seq<GrInfo>, hs: seq<GrInfo>, sides: seq<GrSide>)
    requires |gs| == |hs| == |sides|
    requires forall i | 0 <= i < |gs| :: ToldBy(version, b, gs[i], sides[i])
    requires forall i | 0 <= i < |gs| :: RenamedTo(gs[i], hs[i])
    ensures MainBits(version, b, hs) == MainBits(version, b, gs)
    ensures forall i | 0 <= i < |hs| :: Writable(version, b, hs[i])
    decreases |gs|
  {
    hide DataOf, ToldBy, RenamedTo, Writable;
    if gs != [] {
      var n := |gs| - 1;
      RenamedMain(version, b, gs[..n], hs[..n], sides[..n]);
      RenamedOne(version, b, gs[n], hs[n], sides[n]);
      assert forall i | 0 <= i < n :: hs[..n][i] == hs[i];
    }
  }

  lemma RenamedOne(version: nat, b: Bands, g: GrInfo, h: GrInfo, s: GrSide)
    requires ToldBy(version, b, g, s) && RenamedTo(g, h)
    ensures DataOf(version, b, h) == DataOf(version, b, g) && Writable(version, b, h)
  {
    hide GranuleBits;
    RenamingIsSafe(version, b, g);
  }

  lemma RoomedAppend(fs: seq<Frame>, f: Frame, room: nat)
    requires Roomed(fs, room) && room <= Room(f)
    ensures Roomed(fs + [f], room)
  {
  }

  // ----- the setting with room for a single byte

  /** A frame without data, as long as frames with this header are. */
  ghost function EmptyFrame(h: Head): (f: Frame)
    requires Rated(h)
  {
    Frame(BytesToBits(seq(SideinfoLen(h), _ => 0)), SizeOfHead(h), 0, [])
  }

  ghost function EmptyFrames(h: Head, n: nat): (fs: seq<Frame>)
    requires Rated(h)
    ensures |fs| == n && forall i | 0 <= i < n :: fs[i] == EmptyFrame(h)
  {
    seq(n, _ => EmptyFrame(h))
  }

  /** As many frames without data as the ring has slots but one can all be pending. */
  lemma {:induction false} PendingEmpty(h: Head, n: nat) returns (slots: seq<HeaderSlot>)
    requires Rated(h) && n < MAX_HEADER_BUF && SideinfoLen(h) <= MAX_HEADER_LEN
    ensures Ring(slots, 0, EmptyFrames(h, n), 0, 0, 0, 8 * SideinfoLen(h))
  {
    hide Ring, DueAt, SizeOfHead, SideinfoLen, BytesToBits;
    var hdr, blank := 8 * SideinfoLen(h), HeaderSlot(0, 0, seq(MAX_HEADER_LEN, _ => 0));
    if n == 0 {
      slots := seq(MAX_HEADER_BUF, _ => blank);
      NothingPending(slots, h);
    } else {
      var before := PendingEmpty(h, n - 1);
      RingLength(before, EmptyFrames(h, n - 1), hdr);
      var f := EmptyFrame(h);
      slots := before[n - 1 := blank.(writeTiming := before[n - 1].writeTiming)]
                     [Wrap(n) := before[Wrap(n)].(writeTiming := before[n - 1].writeTiming + f.size)];
      assert blank.buf[..SideinfoLen(h)] == seq(SideinfoLen(h), _ => 0);
      RingPush(before, 0, EmptyFrames(h, n - 1), 0, 0, 0, hdr, slots, f);
      assert EmptyFrames(h, n - 1) + [f] == EmptyFrames(h, n);
    }
  }

  lemma NothingPending(slots: seq<HeaderSlot>, h: Head)
    requires Rated(h) && |slots| == MAX_HEADER_BUF && slots[0].writeTiming == 0
    ensures Ring(slots, 0, EmptyFrames(h, 0), 0, 0, 0, 8 * SideinfoLen(h))
  {
    TimesStep(0, 8 * SideinfoLen(h));
  }

  lemma RingLength(slots: seq<HeaderSlot>, fs: seq<Frame>, hdr: nat)
    requires Ring(slots, 0, fs, 0, 0, 0, hdr)
    ensures |slots| == MAX_HEADER_BUF
  {
  }

  lemma {:induction false} EmptyCapacity(h: Head, n: nat, room: nat)
    requires Rated(h) && SizeOfHead(h) == 8 * SideinfoLen(h) + room && 0 < room
    ensures Framed(EmptyFrames(h, n), 8 * SideinfoLen(h)) && Capacity(EmptyFrames(h, n)) == Times(n, room)
  {
    hide SizeOfHead, SideinfoLen, BytesToBits, Times;
    TimesStep(0, room);
    if n > 0 {
      EmptyCapacity(h, n - 1, room);
      TimesStep(n - 1, room);
      assert EmptyFrames(h, n)[..n - 1] == EmptyFrames(h, n - 1);
      CapacityAppend(EmptyFrames(h, n - 1), EmptyFrame(h));
      assert EmptyFrames(h, n - 1) + [EmptyFrame(h)] == EmptyFrames(h, n);
    }
  }

  /** With room for a single byte, 255 frames without data are pending when main_data_begin and the reservoir are just
      at their limit.  A frame with a byte of data keeps them there, so that nothing is drained before its header is
      queued: the time of the next header is put over that of the first one pending, which will never come due in its
      place. */
  lemma OneByteRoomOverruns(h: Head, f: Frame) returns (fs: seq<Frame>, slots: seq<HeaderSlot>)
    requires Rated(h) && OneByteRoom(h) && |f.header| == 8 * SideinfoLen(h) && f.size == SizeOfHead(h)
    ensures |fs| == 255 && Capacity(fs) == 8 * 256 * Granules(h) - 8 == 8 * 255
    ensures Ring(slots, 0, fs, 0, 0, 0, 8 * SideinfoLen(h))
    ensures forall after: seq<HeaderSlot> | |after| == MAX_HEADER_BUF
        && after[Wrap(255 + 1)].writeTiming == slots[255].writeTiming + f.size ::
      after[0].writeTiming > Due(fs + [f], 0, 0, 8 * SideinfoLen(h), 0)
  {
    SmallestRoom(h);
    hide SizeOfHead, BytesToBits, Times, Ring, Due;
    assert SizeOfHead(h) == 8 * SideinfoLen(h) + 8;
    fs := EmptyFrames(h, 255);
    slots := PendingEmpty(h, 255);
    EmptyCapacity(h, 255, 8);
    assert Framed(fs + [f], 8 * SideinfoLen(h));
    assert Times(255, 8) == 2040 by { EightTimes(8, 255); }
    forall after: seq<HeaderSlot> | |after| == MAX_HEADER_BUF
        && after[Wrap(255 + 1)].writeTiming == slots[255].writeTiming + f.size
      ensures after[0].writeTiming > Due(fs + [f], 0, 0, 8 * SideinfoLen(h), 0)
    {
      RingOverrun(slots, 0, fs, 0, 0, 0, 8 * SideinfoLen(h), after, f);
    }
  }
}

/** The formatter of bitstream.c: it writes main data and headers into the byte buffer. */
module Bitstream {
  import opened Bits
  import opened Framing
  import opened SideInfo
  import opened Granule
  import opened Huffman
  import opened CodeWords
  import opened Tables
  import opened Output
  import opened CodeWriter
  import opened Crc

  const MAX_LENGTH := 32

  /** The part of lame_internal_flags and III_side_info_t that the formatter works on. */
  class Formatter {
    const sideinfoLen: nat            // bytes of header and side information
    const bands: Bands                // scalefac_band
    const shortVersion: seq<byte>     // get_lame_short_version()
    const disableReservoir: bool
    var ancillaryFlag: bool
    const buf: array<byte>            // bs.buf
    var bufByteIdx: int               // bs.buf_byte_idx
    var bufBitIdx: int                // bs.buf_bit_idx: free bits in the current byte
    var totbit: int                   // bs.totbit
    const header: array<HeaderSlot>
    var hPtr: nat
    var wPtr: nat

    ghost var frames: seq<Frame>      // every frame queued so far
    ghost var main: seq<bool>         // the main-data stream written so far
    ghost var sent: nat               // how many of the frames have their header in the buffer
    ghost var stream: seq<Sym>        // everything ever put into the buffer
    ghost var copied: nat             // how much of it has been copied out
    ghost var taken: seq<bool>        // the part that has been copied out
    ghost var tags: nat               // how many bits of it lie outside the frames

    ghost predicate Shape()
      reads this
    {
      && buf.Length == BUFFER_SIZE && header.Length == MAX_HEADER_BUF
      && 0 < sideinfoLen <= MAX_HEADER_LEN
      && -1 <= bufByteIdx < BUFFER_SIZE && 0 <= bufBitIdx <= 8
      && (bufByteIdx == -1 ==> bufBitIdx == 0)
      && hPtr < MAX_HEADER_BUF && wPtr < MAX_HEADER_BUF
      && copied <= |stream| && Values(stream[..copied]) == taken
    }

    /** The buffer holds what was put in since the last copy. */
    ghost predicate Buffered()
      requires -1 <= bufByteIdx < buf.Length && 0 <= bufBitIdx && copied <= |stream|
      reads this, buf
    {
      Held(buf[..bufByteIdx + 1], bufBitIdx, Values(stream[copied..]))
    }

    ghost predicate Queued()
      reads this, header
    {
      && Ring(header[..], wPtr, frames, sent, |main|, totbit, 8 * sideinfoLen)
      && hPtr == Wrap(wPtr + (|frames| - sent))
    }

    /** The bits in the buffer, and those still to come before the next frame: what is written only moves
        from the latter to the former. */
    ghost function Level(): int
      reads this
    {
      8 * (bufByteIdx + 1) - bufBitIdx
      + if sent <= |frames| then Due(frames, sent, |main|, 8 * sideinfoLen, |frames|) else 0
    }

    /** Room in the buffer for everything up to the next frame. */
    ghost predicate Roomy()
      reads this
    {
      sent <= |frames| && Level() <= 8 * BUFFER_SIZE
    }

    ghost predicate Valid()
      reads this, buf, header
    {
      && Shape() && Buffered() && Queued() && Roomy()
      && Placed(frames, sent, |main|, 8 * sideinfoLen)
      && bufBitIdx < 8 && (|main| + bufBitIdx) % 8 == 0 && (totbit + bufBitIdx) % 8 == 0
      && InStep(stream, frames, main, tags)
    }

    /** Main-data bits still to be written before the next frame begins. */
    ghost function Free(): int
      reads this
    {
      Capacity(frames) - |main|
    }

    /** putheader_bits: the header goes in at the byte just begun, which moves behind it. */
    method PutHeaderBits()
      requires Shape() && Queued() && sent < |frames|
      requires 0 <= bufByteIdx && bufByteIdx + sideinfoLen < BUFFER_SIZE
      requires Held(buf[..bufByteIdx], 0, Values(stream[copied..]))
      modifies buf, `bufByteIdx, `totbit, `wPtr, `sent, `stream
      ensures Shape() && Queued()
      ensures bufByteIdx == old(bufByteIdx) + sideinfoLen
      ensures Held(buf[..bufByteIdx], 0, Values(stream[copied..]))
      ensures totbit == old(totbit) + 8 * sideinfoLen
      ensures sent == old(sent) + 1
      ensures stream == old(stream) + AudioSyms(frames[old(sent)].header)
    {
      hide Ring, Held, BytesToBits;
      RingFirst(header[..], wPtr, frames, sent, |main|, totbit, 8 * sideinfoLen);
      RingPop(header[..], wPtr, frames, sent, |main|, totbit, 8 * sideinfoLen);
      var b, h := bufByteIdx, header[wPtr].buf;
      ghost var was, added, slots := buf[..b], AudioSyms(frames[sent].header), header[..];
      forall i | 0 <= i < sideinfoLen {
        buf[b + i] := h[i];
      }
      assert buf[..b + sideinfoLen] == was + h[..sideinfoLen];
      HeldConcat(was, Values(stream[copied..]), h[..sideinfoLen]);
      ValuesGrow(stream, copied, added);
      bufByteIdx := bufByteIdx + sideinfoLen;
      totbit := totbit + sideinfoLen * 8;
      wPtr := (wPtr + 1) % MAX_HEADER_BUF;
      sent := sent + 1;
      stream := stream + added;
      assert header[..] == slots;
    }

    /** The byte `bufByteIdx` has just been begun: the next header goes in first if it is due. */
    method HeaderIfDue()
      requires Shape() && Queued() && sent <= |frames| && Placed(frames, sent, |main|, 8 * sideinfoLen) && 0 < Free()
      requires 0 <= bufByteIdx && bufBitIdx == 8 && Level() <= 8 * BUFFER_SIZE
      requires Held(buf[..bufByteIdx], 0, Values(stream[copied..]))
      modifies buf, `bufByteIdx, `totbit, `wPtr, `sent, `stream
      ensures Shape() && Queued() && sent <= |frames|
      ensures 0 <= bufByteIdx && Level() == old(Level())
      ensures Held(buf[..bufByteIdx], 0, Values(stream[copied..]))
      ensures (totbit - old(totbit)) % 8 == 0
      ensures old(Gap(frames, sent, |main|)) > 0 ==> sent == old(sent) && stream == old(stream)
      ensures old(Gap(frames, sent, |main|)) == 0 ==>
        && sent == old(sent) + 1 <= |frames|
        && stream == old(stream) + AudioSyms(frames[old(sent)].header)
    {
      hide Ring, Held, Placed, Capacity, Due, Wrap, Values, AudioSyms;
      PlacedGap(frames, sent, |main|, 8 * sideinfoLen);
      DueAtEnd(frames, sent, |main|, 8 * sideinfoLen);
      RingFirst(header[..], wPtr, frames, sent, |main|, totbit, 8 * sideinfoLen);
      assert bufByteIdx < BUFFER_SIZE;
      assert header[wPtr].writeTiming >= totbit;
      if header[wPtr].writeTiming == totbit {
        DuePop(frames, sent, |main|, 8 * sideinfoLen, |frames|);
        PutHeaderBits();
      }
    }

    /** putbits2 at a byte boundary: begin a new byte, behind the next header if that is due. */
    method BeginByte()
      requires Valid() && bufBitIdx == 0 && 0 < Free()
      modifies buf, `bufByteIdx, `bufBitIdx, `totbit, `wPtr, `sent, `stream
      ensures Shape() && Buffered() && Queued() && Roomy() && bufBitIdx == 8 && Level() == old(Level())
      ensures (totbit - old(totbit)) % 8 == 0
      ensures old(Gap(frames, sent, |main|)) > 0 ==> sent == old(sent) && stream == old(stream)
      ensures old(Gap(frames, sent, |main|)) == 0 ==>
        && sent == old(sent) + 1 <= |frames|
        && stream == old(stream) + AudioSyms(frames[old(sent)].header)
    {
      hide Ring, Held, InStep, Layout, AudioOf, Placed, Capacity, Due, Wrap, Values, AudioSyms, Gap;
      bufBitIdx := 8;
      bufByteIdx := bufByteIdx + 1;
      DueAtEnd(frames, sent, |main|, 8 * sideinfoLen);
      HeaderIfDue();
      HeldFresh(buf[..bufByteIdx], Values(stream[copied..]));
      ghost var was, slots := buf[..bufByteIdx], header[..];
      buf[bufByteIdx] := 0;
      assert buf[..bufByteIdx + 1] == was + [0];
      assert header[..] == slots;
    }

    /** The rest of a turn in putbits2: as many of the `j` low bits of `val` as the byte takes. */
    method FillByte(val: nat, j: nat) returns (rest: nat)
      requires Shape() && Buffered() && Queued() && Roomy() && 0 <= bufByteIdx
      requires 0 < bufBitIdx && 0 < j && (bufBitIdx < 8 ==> val < Pow2(j))
      modifies buf, `bufBitIdx, `totbit, `stream, `main
      ensures Shape() && Buffered() && Queued() && Roomy() && Level() == old(Level())
      ensures rest == if j < old(bufBitIdx) then 0 else j - old(bufBitIdx)
      ensures bufBitIdx == old(bufBitIdx) - (j - rest) && totbit == old(totbit) + (j - rest)
      ensures main == old(main) + BitsOf(ShiftRight(val, rest), j - rest)
      ensures stream == old(stream) + AudioSyms(BitsOf(ShiftRight(val, rest), j - rest))
    {
      hide Ring, Held, BytesToBits, BitsOf, Capacity, Due, Wrap, Values, AudioSyms;
      ghost var slots, bytes, bits := header[..], buf[..bufByteIdx + 1], Values(stream[copied..]);
      var k := if j < bufBitIdx then j else bufBitIdx;
      rest := j - k;
      bufBitIdx := bufBitIdx - k;
      buf[bufByteIdx] := OrInto(buf[bufByteIdx], val, rest, bufBitIdx);
      totbit := totbit + k;
      ghost var c := BitsOf(ShiftRight(val, rest), k);
      ShiftSmall(val, rest, k);
      HeldPut(bytes, bufBitIdx, k, bits, val, rest);
      assert buf[..bufByteIdx + 1] == bytes[|bytes| - 1 := buf[bufByteIdx]];
      ValuesGrow(stream, copied, AudioSyms(c));
      RingData(slots, wPtr, frames, sent, |main|, totbit - k, 8 * sideinfoLen, k);
      DueData(frames, sent, |main|, 8 * sideinfoLen, |frames|, k);
      main := main + c;
      stream := stream + AudioSyms(c);
      assert header[..] == slots;
    }

    /** One turn of the loop in putbits2: up to a byte's worth of the `j` low bits of `val`. */
    method PutTurn(val: nat, j: nat) returns (rest: nat)
      requires Valid()
      requires 0 < j <= Free() && (bufBitIdx > 0 ==> val < Pow2(j))
      modifies buf, `bufByteIdx, `bufBitIdx, `totbit, `wPtr, `sent, `stream, `main
      ensures Valid() && Level() == old(Level())
      ensures rest < j && (rest > 0 ==> bufBitIdx == 0)
      ensures main == old(main) + BitsOf(ShiftRight(val, rest), j - rest)
    {
      hide Ring, Held, InStep, BitsOf, Placed, Capacity, Due, Wrap, Values, AudioSyms;
      ghost var hdr := 8 * sideinfoLen;
      PlacedGap(frames, sent, |main|, hdr);
      PlacedByte(frames, sent, |main|, hdr, bufBitIdx);
      if bufBitIdx == 0 {
        BeginByte();
      }
      rest := FillByte(val, j);
      PlacedPut(frames, old(sent), old(main), hdr, old(stream), BitsOf(ShiftRight(val, rest), j - rest), tags);
    }

    /** putbits2: the `j` low bits of `val` go on the main-data stream, whatever headers come due. */
    method PutBits2(val: nat, j: nat)
      requires Valid() && j < MAX_LENGTH - 2
      requires val < Pow2(j) && j <= Free()
      modifies buf, `bufByteIdx, `bufBitIdx, `totbit, `wPtr, `sent, `stream, `main
      ensures Valid() && Level() == old(Level())
      ensures main == old(main) + BitsOf(val, j)
    {
      hide Valid, Level, BitsOf;
      var rest: nat := j;
      BitsSplitAt(val, j, j, j);
      assert BitsOf(ShiftRight(val, j), 0) == [];
      while rest > 0
        invariant rest <= j && Valid() && Level() == old(Level())
        invariant rest < j && rest > 0 ==> bufBitIdx == 0
        invariant main == old(main) + BitsOf(ShiftRight(val, rest), j - rest)
      {
        ghost var was := rest;
        rest := PutTurn(val, rest);
        BitsSplitAt(val, j, was, rest);
      }
    }

    // ----- main data

    /** Huffmancode: the pairs from `start` up to `end` with table `t`. */
    method Huffmancode(t: nat, start: nat, end: nat, g: GrInfo) returns (bits: nat)
      requires Valid()
      requires start <= end <= |g.l3Enc| == |g.neg| && (end - start) % 2 == 0
      requires start < end ==> RegionCodable(t, g.l3Enc, start, end)
      requires |RegionBits(t, g.l3Enc, g.neg, start, (end - start) / 2)| <= Free()
      modifies buf, `bufByteIdx, `bufBitIdx, `totbit, `wPtr, `sent, `stream, `main
      ensures Valid()
      ensures main == old(main) + RegionBits(t, g.l3Enc, g.neg, start, (end - start) / 2)
      ensures bits == |RegionBits(t, g.l3Enc, g.neg, start, (end - start) / 2)|
    {
      hide Valid, PairBits, Codable, Usable;
      bits := 0;
      if t == 0 { return; }
      var i := start;
      ghost var n := 0;
      while i < end
        invariant i == start + 2 * n <= end
        invariant Valid()
        invariant main == old(main) + RegionBits(t, g.l3Enc, g.neg, start, n)
        invariant bits == |RegionBits(t, g.l3Enc, g.neg, start, n)|
      {
        RegionGrows(t, g.l3Enc, g.neg, start, n, (end - start) / 2);
        assert Codable(t, g.l3Enc[i]) && Codable(t, g.l3Enc[i + 1]) && Usable(t) && t < 32;
        var k := PutPair(t, g.l3Enc[i], g.neg[i], g.l3Enc[i + 1], g.neg[i + 1]);
        bits := bits + k;
        i := i + 2;
        n := n + 1;
      }
    }

    /** One turn of the loop in Huffmancode. */
    method PutPair(t: nat, x: nat, nx: bool, y: nat, ny: bool) returns (bits: nat)
      requires Valid()
      requires Usable(t) && t < 32 && Codable(t, x) && Codable(t, y)
      requires |PairBits(t, x, nx, y, ny)| <= Free()
      modifies buf, `bufByteIdx, `bufBitIdx, `totbit, `wPtr, `sent, `stream, `main
      ensures Valid()
      ensures main == old(main) + PairBits(t, x, nx, y, ny)
      ensures bits == |PairBits(t, x, nx, y, ny)|
    {
      hide Valid, BitsOf, TailBits, CodeBits, Hlen, Word, WordLen, Codable, Usable;
      var x1, x2, ext, xbits, cbits := Escapes(t, x, nx, y, ny);
      ClipInside(t, x);
      ClipInside(t, y);
      WordFits(t, x1, x2);
      cbits := cbits + Hlen(t, x1, x2);
      assert |PairBits(t, x, nx, y, ny)| == cbits + xbits;
      assert old(main) + PairBits(t, x, nx, y, ny)
          == old(main) + CodeBits(t, x1, x2) + (TailBits(t, x, nx) + TailBits(t, y, ny));
      PutBits2(Word(t, x1, x2), cbits);
      PutBits2(ext, xbits);
      bits := cbits + xbits;
    }

    /** huffman_coder_count1 */
    method HuffmanCoderCount1(g: GrInfo) returns (bits: nat)
      requires Valid()
      requires g.bigValues <= g.count1 <= |g.l3Enc| == |g.neg| && (g.count1 - g.bigValues) % 4 == 0
      requires g.count1TableSelect < 2 && SmallValues(g.l3Enc, g.bigValues, g.count1)
      requires |QuadsBits(g.count1TableSelect, g.l3Enc, g.neg, g.bigValues, (g.count1 - g.bigValues) / 4)| <= Free()
      modifies buf, `bufByteIdx, `bufBitIdx, `totbit, `wPtr, `sent, `stream, `main
      ensures Valid()
      ensures main == old(main) + QuadsBits(g.count1TableSelect, g.l3Enc, g.neg, g.bigValues,
          (g.count1 - g.bigValues) / 4)
      ensures bits == |QuadsBits(g.count1TableSelect, g.l3Enc, g.neg, g.bigValues, (g.count1 - g.bigValues) / 4)|
    {
      hide Valid, QuadBits, BitsOf, Word, Hlen;
      var h, ix, neg := 32 + g.count1TableSelect, g.l3Enc, g.neg;
      var at := g.bigValues;
      ghost var n, all := 0, (g.count1 - g.bigValues) / 4;
      bits := 0;
      var i := (g.count1 - g.bigValues) / 4;
      while i > 0
        invariant 0 <= i && n == all - i && at == g.bigValues + 4 * n
        invariant Valid()
        invariant main == old(main) + QuadsBits(g.count1TableSelect, ix, neg, g.bigValues, n)
        invariant bits == |QuadsBits(g.count1TableSelect, ix, neg, g.bigValues, n)|
      {
        QuadsGrow(g.count1TableSelect, ix, neg, g.bigValues, n, all);
        assert SmallValues(ix, at, at + 4);
        var p, huffbits := QuadPattern(ix, neg, at);
        QuadWord(g.count1TableSelect, ix, neg, at, huffbits);
        PutBits2(huffbits + Word(h, p / 4, p % 4), Hlen(h, p / 4, p % 4));
        bits := bits + Hlen(h, p / 4, p % 4);
        at := at + 4;
        i := i - 1;
        n := n + 1;
      }
    }

    method ShortHuffmancodebits(g: GrInfo) returns (bits: nat)
      requires Valid() && Edges(bands) && Regions(g) && Codes(PlanOf(bands, g), g.l3Enc)
      requires g.blockType == SHORT_TYPE && NoTable14(g)
      requires |BigBits(PlanOf(bands, g), g.l3Enc, g.neg)| <= Free()
      modifies buf, `bufByteIdx, `bufBitIdx, `totbit, `wPtr, `sent, `stream, `main
      ensures Valid()
      ensures main == old(main) + BigBits(PlanOf(bands, g), g.l3Enc, g.neg)
      ensures bits == |BigBits(PlanOf(bands, g), g.l3Enc, g.neg)|
    {
      hide Valid, RegionBits, RegionCodable, QuadsBits;
      RegionOrder(bands, g);
      ghost var p := PlanOf(bands, g);
      RegionNone(p.t2, g.l3Enc, g.neg, 2 * p.n0 + 2 * p.n1, p.n2);
      var region1Start := 3 * bands.s[3];
      if region1Start > g.bigValues {
        region1Start := g.bigValues;
      }
      var b0 := Huffmancode(g.tableSelect[0], 0, region1Start, g);
      var b1 := Huffmancode(g.tableSelect[1], region1Start, g.bigValues, g);
      bits := b0 + b1;
    }

    method LongHuffmancodebits(g: GrInfo) returns (bits: nat)
      requires Valid() && Edges(bands) && Regions(g) && Codes(PlanOf(bands, g), g.l3Enc)
      requires g.blockType != SHORT_TYPE && NoTable14(g)
      requires |BigBits(PlanOf(bands, g), g.l3Enc, g.neg)| <= Free()
      modifies buf, `bufByteIdx, `bufBitIdx, `totbit, `wPtr, `sent, `stream, `main
      ensures Valid()
      ensures main == old(main) + BigBits(PlanOf(bands, g), g.l3Enc, g.neg)
      ensures bits == |BigBits(PlanOf(bands, g), g.l3Enc, g.neg)|
    {
      hide Valid, RegionBits, RegionCodable, QuadsBits;
      RegionOrder(bands, g);
      ghost var p := PlanOf(bands, g);
      var region1Start := bands.l[g.region0Count + 1];
      var region2Start := bands.l[g.region0Count + g.region1Count + 2];
      if region1Start > g.bigValues {
        region1Start := g.bigValues;
      }
      if region2Start > g.bigValues {
        region2Start := g.bigValues;
      }
      if g.blockType != NORM_TYPE {
        assert region2Start == g.bigValues;
        RegionNone(p.t2, g.l3Enc, g.neg, region2Start, p.n2);
        RegionNone(g.tableSelect[2], g.l3Enc, g.neg, region2Start, p.n2);
      }
      var b0 := Huffmancode(g.tableSelect[0], 0, region1Start, g);
      var b1 := Huffmancode(g.tableSelect[1], region1Start, region2Start, g);
      var b2 := Huffmancode(g.tableSelect[2], region2Start, g.bigValues, g);
      bits := b0 + b1 + b2;
    }

    /** putbits2 of the next one of the fields `all`, behind the fields `fs`. */
    method PutField(val: nat, width: nat, ghost was: seq<bool>, ghost fs: seq<Field>, ghost all: seq<Field>)
      requires Valid() && main == was + FieldBits(fs) && |was| + |FieldBits(all)| <= Capacity(frames)
      requires fs + [Field(val, width)] <= all && AllFit(all) && Narrow(all)
      modifies buf, `bufByteIdx, `bufBitIdx, `totbit, `wPtr, `sent, `stream, `main
      ensures Valid() && main == was + FieldBits(fs + [Field(val, width)])
    {
      hide Valid, FieldBits, BitsOf, AllFit, Narrow, Capacity;
      LastField(fs, Field(val, width), all);
      PutBits2(val, width);
    }

    /** writeMainData, MPEG-1: the scalefactors that are not shared. */
    method WriteScalefac(g: GrInfo) returns (bits: nat)
      requires Valid() && Scaled(1, g)
      requires AllFit(ScaleFields(1, g)) && Narrow(ScaleFields(1, g)) && |FieldBits(ScaleFields(1, g))| <= Free()
      modifies buf, `bufByteIdx, `bufBitIdx, `totbit, `wPtr, `sent, `stream, `main
      ensures Valid()
      ensures main == old(main) + FieldBits(ScaleFields(1, g)) && bits == |FieldBits(ScaleFields(1, g))|
    {
      hide Valid, FieldBits, Width, Slen1, Slen2, BitsOf, AllFit, Narrow, Capacity;
      ghost var was, all := main, ScaleFields(1, g);
      var slen1, slen2 := Slen1(g.scalefacCompress), Slen2(g.scalefacCompress);
      NoFields();
      bits := 0;
      var sfb := 0;
      while sfb < g.sfbdivide
        invariant sfb <= g.sfbdivide && Valid()
        invariant main == was + FieldBits(ScaleFields1(g, sfb)) && bits == Width(ScaleFields1(g, sfb))
      {
        if g.scalefac[sfb] != -1 {
          ScaleFields1Prefix(g, sfb + 1, g.sfbmax);
          PutField(g.scalefac[sfb], slen1, was, ScaleFields1(g, sfb), all);
          FieldBitsAppend(ScaleFields1(g, sfb), Field(g.scalefac[sfb], slen1));
          bits := bits + slen1;
        }
        sfb := sfb + 1;
      }
      while sfb < g.sfbmax
        invariant g.sfbdivide <= sfb <= g.sfbmax && Valid()
        invariant main == was + FieldBits(ScaleFields1(g, sfb)) && bits == Width(ScaleFields1(g, sfb))
      {
        if g.scalefac[sfb] != -1 {
          ScaleFields1Prefix(g, sfb + 1, g.sfbmax);
          PutField(g.scalefac[sfb], slen2, was, ScaleFields1(g, sfb), all);
          FieldBitsAppend(ScaleFields1(g, sfb), Field(g.scalefac[sfb], slen2));
          bits := bits + slen2;
        }
        sfb := sfb + 1;
      }
    }

    /** writeMainData, MPEG-2: the scalefactor `sfb`, shared ones as 0. */
    method PutScalefacLsf(g: GrInfo, sfb: nat, slen: nat, ghost was: seq<bool>)
      requires Valid() && Scaled(0, g) && sfb < PartitionTotal(g.sfbPartitionTable)
      requires AllFit(ScaleFields(0, g)) && Narrow(ScaleFields(0, g))
      requires |was| + |FieldBits(ScaleFields(0, g))| <= Capacity(frames)
      requires main == was + FieldBits(ScaleFields2(g, sfb))
      requires slen == g.slen[Partition(g.sfbPartitionTable, sfb)]
      modifies buf, `bufByteIdx, `bufBitIdx, `totbit, `wPtr, `sent, `stream, `main
      ensures Valid() && main == was + FieldBits(ScaleFields2(g, sfb + 1))
      ensures Width(ScaleFields2(g, sfb + 1)) == Width(ScaleFields2(g, sfb)) + slen
    {
      hide Valid, FieldBits, Width, BitsOf, AllFit, Narrow, Capacity;
      var val := if g.scalefac[sfb] < 0 then 0 else g.scalefac[sfb];
      ScaleFields2Prefix(g, sfb + 1, PartitionTotal(g.sfbPartitionTable));
      FieldBitsAppend(ScaleFields2(g, sfb), Field(val, slen));
      PutField(val, slen, was, ScaleFields2(g, sfb), ScaleFields(0, g));
    }

    /** writeMainData, MPEG-2: the scalefactors, partition by partition; in short blocks three windows at a time. */
    method WriteScalefacLsf(g: GrInfo) returns (bits: nat)
      requires Valid() && Scaled(0, g)
      requires AllFit(ScaleFields(0, g)) && Narrow(ScaleFields(0, g)) && |FieldBits(ScaleFields(0, g))| <= Free()
      modifies buf, `bufByteIdx, `bufBitIdx, `totbit, `wPtr, `sent, `stream, `main
      ensures Valid()
      ensures main == old(main) + FieldBits(ScaleFields(0, g)) && bits == |FieldBits(ScaleFields(0, g))|
    {
      hide Valid, FieldBits, Width, BitsOf, AllFit, Narrow, Capacity, ScaleFields2;
      ghost var was := main;
      NoFields2(g);
      bits := 0;
      var sfb := 0;
      var sfbPartition := 0;
      while sfbPartition < 4
        invariant sfbPartition <= 4 && sfb == PartitionStart(g.sfbPartitionTable, sfbPartition) && Valid()
        invariant main == was + FieldBits(ScaleFields2(g, sfb)) && bits == Width(ScaleFields2(g, sfb))
      {
        var slen := g.slen[sfbPartition];
        var sfbs := if g.blockType == SHORT_TYPE then g.sfbPartitionTable[sfbPartition] / 3
                    else g.sfbPartitionTable[sfbPartition];
        var i := 0;
        while i < sfbs
          invariant i <= sfbs && Valid()
          invariant sfb == PartitionStart(g.sfbPartitionTable, sfbPartition) + if g.blockType == SHORT_TYPE
              then 3 * i else i
          invariant main == was + FieldBits(ScaleFields2(g, sfb)) && bits == Width(ScaleFields2(g, sfb))
        {
          PutScalefacLsf(g, sfb, slen, was);
          if g.blockType == SHORT_TYPE {
            PutScalefacLsf(g, sfb + 1, slen, was);
            PutScalefacLsf(g, sfb + 2, slen, was);
            sfb := sfb + 2;
            bits := bits + 2 * slen;
          }
          bits := bits + slen;
          sfb := sfb + 1;
          i := i + 1;
        }
        sfbPartition := sfbPartition + 1;
      }
    }

    /** writeMainData for one granule of one channel: as many bits as the quantization loops have counted. */
    method WriteGranule(version: nat, g: GrInfo) returns (bits: nat)
      requires Valid() && version < 2 && Counted(version, bands, g) && NoTable14(g)
      requires |GranuleBits(version, bands, g)| <= Free()
      modifies buf, `bufByteIdx, `bufBitIdx, `totbit, `wPtr, `sent, `stream, `main
      ensures Valid()
      ensures main == old(main) + GranuleBits(version, bands, g)
      ensures bits == g.part23Length + g.part2Length == |GranuleBits(version, bands, g)|
    {
      hide Valid, FieldBits, Width, AllFit, Narrow, Codes, ScaleFields, BigBits, QuadsBits, Capacity;
      ghost var was, scale := main, FieldBits(ScaleFields(version, g));
      ghost var p := PlanOf(bands, g);
      var dataBits, big;
      if version == 1 {
        dataBits := WriteScalefac(g);
      } else {
        dataBits := WriteScalefacLsf(g);
      }
      assert dataBits == g.part2Length;
      if g.blockType == SHORT_TYPE {
        big := ShortHuffmancodebits(g);
      } else {
        big := LongHuffmancodebits(g);
      }
      CodesQuads(p, g.l3Enc);
      var count1 := HuffmanCoderCount1(g);
      bits := dataBits + big + count1;
      assert big + count1 == g.part23Length;
      Regroup2(was + scale, BigBits(p, g.l3Enc, g.neg), QuadsBits(p.select, g.l3Enc, g.neg, BigEnd(p), p.quads));
      Regroup2(was, scale, SpectrumBits(p, g.l3Enc, g.neg));
    }

    // ----- queueing a header

    /** Valid but for the slot at the end of the ring, with `slots` for the ring. */
    ghost predicate Idle(slots: seq<HeaderSlot>)
      reads this, buf
    {
      && Shape() && Buffered() && Roomy()
      && Ring(slots, wPtr, frames, sent, |main|, totbit, 8 * sideinfoLen)
      && hPtr == Wrap(wPtr + (|frames| - sent))
      && Placed(frames, sent, |main|, 8 * sideinfoLen)
      && bufBitIdx < 8 && (|main| + bufBitIdx) % 8 == 0 && (totbit + bufBitIdx) % 8 == 0
      && InStep(stream, frames, main, tags)
    }

    /** One more frame may be queued: the ring has a slot for its header, and the buffer room for its bits. */
    ghost predicate QueueRoom(bitsPerFrame: nat)
      reads this
    {
      && sent <= |frames| && |frames| - sent + 1 < MAX_HEADER_BUF
      && bitsPerFrame % 8 == 0 && 8 * sideinfoLen < bitsPerFrame
      && Level() + bitsPerFrame <= 8 * BUFFER_SIZE
    }

    /** The slot at the end of the ring `slots` holds the fields written so far. */
    ghost predicate Filling(slots: seq<HeaderSlot>, fs: seq<Field>)
      reads this, header
    {
      && |slots| == header.Length == MAX_HEADER_BUF && hPtr < MAX_HEADER_BUF
      && header[..] == slots[hPtr := header[hPtr]]
      && header[hPtr].writeTiming == slots[hPtr].writeTiming
      && SlotHeld(header[hPtr].buf, header[hPtr].ptr, sideinfoLen, FieldBits(fs))
    }

    /** The write time of the frame after the last one is that of the last one and its size. */
    ghost predicate Chained()
      reads `hPtr, `frames, header
    {
      && header.Length == MAX_HEADER_BUF && hPtr < MAX_HEADER_BUF
      && (frames != [] ==>
            header[hPtr].writeTiming == header[Wrap(hPtr + MAX_HEADER_BUF - 1)].writeTiming + frames[|frames| - 1].size)
    }

    method BeginHeader() returns (ghost slots: seq<HeaderSlot>)
      requires Valid()
      modifies header
      ensures Idle(slots) && Filling(slots, [])
    {
      hide Ring, Held, InStep, Layout, AudioOf, Placed, Capacity, Due, Wrap, Values, SlotHeld;
      slots := header[..];
      var b := header[hPtr].buf;
      var cleared := seq(MAX_HEADER_LEN, i requires 0 <= i < MAX_HEADER_LEN => if i < sideinfoLen then 0 else b[i]);
      SlotCleared(cleared, sideinfoLen);
      NoFields();
      header[hPtr] := header[hPtr].(ptr := 0, buf := cleared);
    }

    /** writeheader */
    method WriteHeader(val: nat, j: nat, ghost slots: seq<HeaderSlot>, ghost fs: seq<Field>)
      requires Filling(slots, fs) && j < MAX_LENGTH && val < Pow2(j)
      requires Width(fs) + j <= 8 * sideinfoLen
      modifies header
      ensures Filling(slots, fs + [Field(val, j)])
    {
      hide SlotHeld, FieldBits, BitsOf, OrInto, Width;
      var rest, ptr := j, header[hPtr].ptr;
      ghost var bits := FieldBits(fs);
      BitsSplitAt(val, j, j, j);
      assert BitsOf(ShiftRight(val, j), 0) == [] && bits + [] == bits;
      SlotBits(header[hPtr].buf, ptr, sideinfoLen, bits);
      while rest > 0
        invariant 0 <= rest <= j && ptr == |bits| + (j - rest)
        invariant header[..] == slots[hPtr := header[hPtr]]
        invariant header[hPtr].writeTiming == slots[hPtr].writeTiming
        invariant SlotHeld(header[hPtr].buf, ptr, sideinfoLen, bits + BitsOf(ShiftRight(val, rest), j - rest))
        invariant ptr % 8 != 0 && rest > 0 ==> val < Pow2(rest)
      {
        ghost var was := rest;
        var k := if rest < 8 - ptr % 8 then rest else 8 - ptr % 8;
        rest := rest - k;
        ShiftSmall(val, rest, k);
        SlotPut(header[hPtr].buf, ptr, sideinfoLen, bits + BitsOf(ShiftRight(val, was), j - was), val, rest, k);
        BitsSplitAt(val, j, was, rest);
        Regroup2(bits, BitsOf(ShiftRight(val, was), j - was), BitsOf(ShiftRight(val, rest), k));
        NextPtr(ptr, k);
        var b := header[hPtr].buf;
        header[hPtr] := header[hPtr].(buf := b[ptr / 8 := OrInto(b[ptr / 8], val, rest, 8 - ptr % 8 - k)]);
        ptr := ptr + k;
      }
      header[hPtr] := header[hPtr].(ptr := ptr);
      FieldBitsAppend(fs, Field(val, j));
    }

    /** writeheader of `part[k]`, where `part` begins at `n` in the fields `all` of the header. */
    method WriteNext(val: nat, j: nat, ghost slots: seq<HeaderSlot>, ghost all: seq<Field>,
                     ghost n: nat, ghost part: seq<Field>, ghost k: nat)
      requires Piece(all, n, part, 8 * sideinfoLen) && k < |part| && part[k] == Field(val, j) && j < MAX_LENGTH
      requires Filling(slots, all[..n + k])
      modifies header
      ensures Filling(slots, all[..n + k + 1])
    {
      hide Filling, Width, FieldBits, Pow2;
      assert all[n + k] == all[n..n + |part|][k];
      assert Fits(all[n + k]);
      PrefixWidth(all, n + k);
      WriteHeader(val, j, slots, all[..n + k]);
      assert all[..n + k] + [Field(val, j)] == all[..n + k + 1];
    }

    /** CRC_writeheader: the checksum goes into the fifth and the sixth byte. */
    method CrcWriteHeader(ghost slots: seq<HeaderSlot>, ghost pre: seq<Field>, ghost post: seq<Field>)
      returns (ghost crc: nat)
      requires Filling(slots, pre + [Field(0, 16)] + post) && Width(pre) == 32 && 6 <= sideinfoLen
      requires Width(pre + [Field(0, 16)] + post) == 8 * sideinfoLen
      modifies header
      ensures crc < 65536 && Filling(slots, pre + [Field(crc, 16)] + post)
      ensures Checked(FieldBits(pre + [Field(crc, 16)] + post))
    {
      hide SlotHeld, FieldBits, BytesToBits, CrcAll, Width, BitsOf, Checked;
      var b := header[hPtr].buf;
      SlotBits(b, header[hPtr].ptr, sideinfoLen, FieldBits(pre + [Field(0, 16)] + post));
      var r := Checksum(b, sideinfoLen);
      var hi, lo := r / 256 % 256, r % 256;
      crc := 256 * hi + lo;
      header[hPtr] := header[hPtr].(buf := b[4 := hi][5 := lo]);
      ghost var after := header[hPtr].buf[..sideinfoLen];
      assert Protected(after) == Protected(b[..sideinfoLen]);
      SlotPatch(b, header[hPtr].ptr, sideinfoLen, pre, post, hi, lo);
      SlotFull(header[hPtr].buf, sideinfoLen, FieldBits(pre + [Field(crc, 16)] + post));
      ChecksumChecks(after, r);
    }

    /** The end of encodeSideInfo2: the header is complete and goes into the queue. */
    method QueueHeader(bitsPerFrame: nat, ghost slots: seq<HeaderSlot>, ghost fs: seq<Field>, ghost f: Frame)
      requires Idle(slots) && Filling(slots, fs) && QueueRoom(bitsPerFrame)
      requires f.header == FieldBits(fs) && |f.header| == 8 * sideinfoLen && f.size == bitsPerFrame
      modifies header, `hPtr, `frames
      ensures Valid() && Chained() && frames == old(frames) + [f]
    {
      hide Ring, Held, Layout, AudioOf, Placed, Capacity, Due, Values, SlotHeld, FieldBits;
      SlotComplete(header[hPtr], sideinfoLen, f);
      var o := hPtr;
      hPtr := (o + 1) % MAX_HEADER_BUF;
      header[hPtr] := header[hPtr].(writeTiming := header[o].writeTiming + bitsPerFrame);
      RingPush(slots, wPtr, frames, sent, |main|, totbit, 8 * sideinfoLen, header[..], f);
      PlacedPush(frames, sent, main, 8 * sideinfoLen, f);
      DuePush(frames, f, sent, |main|, 8 * sideinfoLen, |frames| + 1);
      frames := frames + [f];
    }

    // ----- between frames

    /** With `room` bits in every frame, little enough free space keeps the ring from filling up. */
    lemma PendingFew(room: nat, n: nat)
      requires Valid() && Roomed(frames, room) && Free() < Times(n, room)
      ensures |frames| - sent < n
    {
      hide Ring, Held, InStep, Layout, AudioOf, Placed, Capacity, Due, Wrap, Values, Roomed, Times;
      Pending(frames, sent, |main|, 8 * sideinfoLen, room, n);
    }

    /** The buffer ends in a whole byte just when what is free is whole bytes. */
    lemma Aligned()
      requires Valid()
      ensures Free() % 8 == 0 <==> bufBitIdx == 0
      ensures bufBitIdx == 0 ==> totbit % 8 == 0
      ensures 0 <= Free() && sent <= |frames|
    {
      hide Ring, Held, InStep, Layout, AudioOf, Placed, Capacity, Due, Wrap, Values;
      PlacedWhole(frames, sent, |main|, 8 * sideinfoLen);
      AlignedIff(Capacity(frames), |main|, bufBitIdx, totbit);
    }

    lemma SameAudio()
      requires Valid()
      ensures AudioOf(stream) == Layout(frames, main) && copied <= |stream|
      ensures tags == 0 ==> Values(stream) == AudioOf(stream)
    {
      if tags == 0 { NoTags(stream); }
      hide Ring, Held, InStep, Layout, AudioOf, Placed, Capacity, Due, Wrap, Values;
    }

    lemma FewPending()
      requires Valid()
      ensures sent <= |frames| && |frames| - sent < MAX_HEADER_BUF && sideinfoLen <= MAX_HEADER_LEN
    {
      hide DueAt, HeaderIs, Held, Layout, AudioOf, Placed, Capacity, Due, Wrap, Values;
    }

    /** Once nothing is free, every header is in the buffer and the last frame ends here. */
    lemma Complete()
      requires Valid() && Chained() && Free() == 0 && frames != []
      ensures hPtr < MAX_HEADER_BUF == header.Length && sent == |frames| && header[hPtr].writeTiming == totbit
      ensures header[Wrap(hPtr + MAX_HEADER_BUF - 1)].writeTiming + frames[|frames| - 1].size == totbit
    {
      hide Ring, Held, InStep, Layout, AudioOf, Capacity, Due, Values, Placed, Times;
      PlacedFull(frames, sent, |main|, 8 * sideinfoLen);
      RingLast(header[..], wPtr, frames, sent, |main|, totbit, 8 * sideinfoLen);
      TimesStep(0, 8 * sideinfoLen);
    }

    /** compute_flushbits: the bits that would complete every queued frame, and the bytes that would then
        be in the buffer. */
    method ComputeFlushbits(bitsPerFrame: nat) returns (flushbits: int, totalBytesOutput: int)
      requires Valid() && Chained()
      requires frames != [] && frames[|frames| - 1].size == bitsPerFrame
      ensures flushbits == Free() && sent <= |frames|
      ensures totalBytesOutput == bufByteIdx + 1 + (Free() + Times(|frames| - sent, 8 * sideinfoLen) + 7) / 8
    {
      hide Ring, Held, InStep, Layout, AudioOf, Capacity, Due, Values, Placed, Times;
      RingLast(header[..], wPtr, frames, sent, |main|, totbit, 8 * sideinfoLen);
      TimesStep(0, 8 * sideinfoLen);
      var firstPtr: int := wPtr;
      var lastPtr: int := hPtr - 1;
      if lastPtr == -1 {
        lastPtr := MAX_HEADER_BUF - 1;
      }
      flushbits := header[lastPtr].writeTiming - totbit;
      totalBytesOutput := flushbits;
      if flushbits >= 0 {
        var remainingHeaders := 1 + lastPtr - firstPtr;
        if lastPtr < firstPtr {
          remainingHeaders := 1 + lastPtr - firstPtr + MAX_HEADER_BUF;
        }
        assert remainingHeaders == |frames| - sent;
        WholeTimes(|frames| - sent, sideinfoLen);
        flushbits := flushbits - remainingHeaders * 8 * sideinfoLen;
      }
      flushbits := flushbits + bitsPerFrame;
      totalBytesOutput := totalBytesOutput + bitsPerFrame;
      if totalBytesOutput % 8 != 0 {
        totalBytesOutput := 1 + totalBytesOutput / 8;
      } else {
        totalBytesOutput := totalBytesOutput / 8;
      }
      totalBytesOutput := totalBytesOutput + bufByteIdx + 1;
    }

    /** putbits_noheaders of a whole byte, at a byte boundary: one turn of its loop. */
    method PutByteNoHeaders(val: byte)
      requires Shape() && Buffered() && bufBitIdx == 0 && bufByteIdx + 1 < BUFFER_SIZE
      modifies buf, `bufByteIdx, `bufBitIdx, `totbit, `stream
      ensures Shape() && Buffered() && bufBitIdx == 0 && bufByteIdx == old(bufByteIdx) + 1
      ensures totbit == old(totbit) + 8 && stream == old(stream) + DummySyms(BitsOf(val, 8))
    {
      hide Held, BytesToBits, BitsOf, Values, DummySyms;
      ghost var bytes, bits := buf[..bufByteIdx + 1], Values(stream[copied..]);
      bufBitIdx := 8;
      bufByteIdx := bufByteIdx + 1;
      buf[bufByteIdx] := 0;
      bufBitIdx := bufBitIdx - 8;
      buf[bufByteIdx] := OrInto(buf[bufByteIdx], val, 0, bufBitIdx);
      totbit := totbit + 8;
      HeldFresh(bytes, bits);
      HeldPut(bytes + [0], 0, 8, bits, val, 0);
      assert buf[..bufByteIdx + 1] == (bytes + [0])[bufByteIdx := buf[bufByteIdx]];
      BitsSplitAt(val, 8, 8, 0);
      ValuesGrow(stream, copied, DummySyms(BitsOf(val, 8)));
      stream := stream + DummySyms(BitsOf(val, 8));
    }

    method DelayHeaders(n: int)
      requires header.Length == MAX_HEADER_BUF
      modifies header
      ensures forall i | 0 <= i < MAX_HEADER_BUF ::
        header[i] == old(header[i]).(writeTiming := old(header[i].writeTiming) + n)
    {
      for i := 0 to MAX_HEADER_BUF
        invariant forall k | 0 <= k < i :: header[k] == old(header[k]).(writeTiming := old(header[k].writeTiming) + n)
        invariant forall k | i <= k < MAX_HEADER_BUF :: header[k] == old(header[k])
      {
        header[i] := header[i].(writeTiming := header[i].writeTiming + n);
      }
    }

    /** add_dummy_byte, for one byte: it goes into the output beside the frames, and all headers wait for it. */
    method AddDummy(val: byte)
      requires Valid() && Chained() && bufBitIdx == 0
      requires Level() + 8 <= 8 * BUFFER_SIZE
      modifies buf, header, `bufByteIdx, `bufBitIdx, `totbit, `stream, `tags
      ensures Valid() && Chained() && bufBitIdx == 0 && bufByteIdx == old(bufByteIdx) + 1 && Level() == old(Level()) + 8
      ensures stream == old(stream) + DummySyms(BitsOf(val, 8))
    {
      hide Ring, Held, Layout, AudioOf, Placed, Capacity, Due, Values, DummySyms, BitsOf;
      DueAtEnd(frames, sent, |main|, 8 * sideinfoLen) by { NotPast(frames, sent, |main|, 8 * sideinfoLen); }
      NotPast(frames, sent, |main|, 8 * sideinfoLen);
      ghost var slots := header[..];
      PutByteNoHeaders(val);
      AudioOfDummy(old(stream), BitsOf(val, 8));
      tags := tags + 8;
      assert header[..] == slots;
      DelayHeaders(8);
      RingDelay(slots, wPtr, frames, sent, |main|, old(totbit), 8 * sideinfoLen, header[..], 8);
    }

    method AddDummyByte(val: byte, n: nat)
      requires Valid() && Chained() && bufBitIdx == 0
      requires Level() + 8 * n <= 8 * BUFFER_SIZE
      modifies buf, header, `bufByteIdx, `bufBitIdx, `totbit, `stream, `tags
      ensures Valid() && Chained() && bufBitIdx == 0 && bufByteIdx == old(bufByteIdx) + n
      ensures Values(stream) == old(Values(stream)) + BytesToBits(seq(n, _ => val))
      ensures copied == old(copied)
    {
      hide Valid, Level, Chained, Due, Values, BytesToBits, DummySyms, BitsOf;
      var left: nat := n;
      ghost var bytes: seq<byte> := [];
      NoBytes();
      assert Values(stream) == old(Values(stream)) + BytesToBits(bytes);
      while left > 0
        invariant left <= n && bytes == seq(n - left, _ => val)
        invariant Valid() && Chained() && bufBitIdx == 0 && bufByteIdx == old(bufByteIdx) + (n - left)
        invariant Level() == old(Level()) + 8 * (n - left)
        invariant Values(stream) == old(Values(stream)) + BytesToBits(bytes)
      {
        left := left - 1;
        ValuesAppend(stream, DummySyms(BitsOf(val, 8)));
        AddDummy(val);
        BytesToBitsAppend(bytes, val);
        Regroup2(old(Values(stream)), BytesToBits(bytes), BitsOf(val, 8));
        bytes := bytes + [val];
      }
      assert bytes == seq(n, _ => val);
    }

    /** The end of format_bitstream: the bit counter starts again before it overflows. */
    method ResetCounter()
      requires Valid() && Chained() && bufBitIdx == 0
      modifies header, `totbit
      ensures Valid() && Chained()
      ensures totbit == if old(totbit) > 1000000000 then 0 else old(totbit)
    {
      hide Ring, Held, InStep, Layout, AudioOf, Placed, Capacity, Due, Values;
      if totbit > 1000000000 {
        ghost var slots := header[..];
        DelayHeaders(-totbit);
        RingDelay(slots, wPtr, frames, sent, |main|, totbit, 8 * sideinfoLen, header[..], -totbit);
        totbit := 0;
      }
    }

    /** copy_buffer: hands out the bytes of the buffer if there is room for them, and empties it. */
    method CopyBuffer(size: nat) returns (count: int, out: seq<byte>)
      requires Valid() && Chained() && bufBitIdx == 0
      modifies `bufByteIdx, `bufBitIdx, `copied, `taken
      ensures Valid() && Chained() && bufBitIdx == 0
      ensures count >= -1 && (count == -1 <==> 0 < size <= old(bufByteIdx))
      ensures old(copied) <= |stream|
      ensures count == -1 ==> out == [] && bufByteIdx == old(bufByteIdx) && copied == old(copied)
      ensures count >= 0 ==>
        && count == |out| && bufByteIdx == -1 && copied == |stream|
        && BytesToBits(out) == Values(stream[old(copied)..])
        && old(taken) + BytesToBits(out) == Values(stream)
      ensures taken == old(taken) + BytesToBits(out)
    {
      hide Ring, Layout, AudioOf, Placed, Capacity, Due, BytesToBits;
      HeldFull(buf[..bufByteIdx + 1], Values(stream[copied..]));
      NoBytes();
      CutValues(stream, copied);
      var minimum := bufByteIdx + 1;
      out := [];
      if minimum <= 0 {
        copied, taken := |stream|, Values(stream);
        return 0, [];
      }
      if size != 0 && minimum > size {
        return -1, [];
      }
      out := buf[..minimum];
      count := minimum;
      bufByteIdx := -1;
      bufBitIdx := 0;
      copied, taken := |stream|, Values(stream);
    }

    /** init_bit_stream_w, on a new encoder. */
    constructor (sideinfoLen: nat, bands: Bands, shortVersion: seq<byte>, disableReservoir: bool)
      requires 0 < sideinfoLen <= MAX_HEADER_LEN
      ensures Valid() && Chained() && bufBitIdx == 0 && bufByteIdx == -1
      ensures frames == [] && main == [] && stream == [] && sent == 0 && copied == 0 && totbit == 0 && tags == 0
          && taken == []
      ensures this.sideinfoLen == sideinfoLen && this.bands == bands
      ensures this.shortVersion == shortVersion && this.disableReservoir == disableReservoir
      ensures fresh(buf) && fresh(header) && !ancillaryFlag
    {
      this.sideinfoLen := sideinfoLen;
      this.bands := bands;
      this.shortVersion := shortVersion;
      this.disableReservoir := disableReservoir;
      ancillaryFlag := false;
      buf := new byte[BUFFER_SIZE];
      header := new HeaderSlot[MAX_HEADER_BUF](_ => HeaderSlot(0, 0, seq(MAX_HEADER_LEN, _ => 0)));
      bufByteIdx, bufBitIdx, totbit := -1, 0, 0;
      hPtr, wPtr := 0, 0;
      frames, main, sent, stream, copied, taken, tags := [], [], 0, [], 0, [], 0;
      new;
      assert buf[..0] == [];
    }

    // ----- filling up

    /** drain_into_ancillary: the encoder's name, its version if there is room, then alternating bits. */
    method DrainIntoAncillary(remainingBits: nat)
      requires Valid() && remainingBits <= Free()
      modifies buf, `bufByteIdx, `bufBitIdx, `totbit, `wPtr, `sent, `stream, `main, `ancillaryFlag
      ensures Valid() && Level() == old(Level())
      ensures main == old(main) + Ancillary(remainingBits, shortVersion, old(ancillaryFlag), !disableReservoir)
    {
      hide Valid, Level, BytesToBits, BitsOf, Capacity, Flags, FlagAt, AncillaryText;
      var rest := DrainText(remainingBits);
      ghost var was, flag, n := main, ancillaryFlag, rest;
      FlagsStart(flag, !disableReservoir);
      while rest >= 1
        invariant 0 <= rest <= n && rest <= Free() && Valid() && Level() == old(Level())
        invariant main == was + Flags(n - rest, flag, !disableReservoir)
        invariant ancillaryFlag == FlagAt(n - rest, flag, !disableReservoir)
      {
        OneBit(ancillaryFlag);
        FlagsStep(n - rest, flag, !disableReservoir);
        PutBits2(if ancillaryFlag then 1 else 0, 1);
        ToggleFlag();
        rest := rest - 1;
      }
    }

    method DrainText(remainingBits: nat) returns (rest: nat)
      requires Valid() && remainingBits <= Free()
      modifies buf, `bufByteIdx, `bufBitIdx, `totbit, `wPtr, `sent, `stream, `main
      ensures Valid() && Level() == old(Level())
      ensures main == old(main) + BytesToBits(AncillaryText(remainingBits, shortVersion))
      ensures rest == remainingBits - 8 * |AncillaryText(remainingBits, shortVersion)|
    {
      hide Valid, Level, BytesToBits, Capacity;
      ghost var was := main;
      rest := remainingBits;
      var i := 0;
      NoBytes();
      while i < 4 && rest >= 8
        invariant i <= 4 && rest + 8 * i == remainingBits && Valid() && Level() == old(Level())
        invariant main == was + BytesToBits(LAME[..i])
      {
        PutByte(LAME[i], was, LAME[..i]);
        assert LAME[..i] + [LAME[i]] == LAME[..i + 1];
        rest := rest - 8;
        i := i + 1;
      }
      ghost var k := i;
      assert k == Min(remainingBits / 8, 4);
      assert LAME[..k] + shortVersion[..0] == LAME[..k];
      i := 0;
      if rest >= 32 {
        ghost var r := rest;
        while i < |shortVersion| && rest >= 8
          invariant i <= |shortVersion| && rest + 8 * i == r && Valid() && Level() == old(Level())
          invariant main == was + BytesToBits(LAME[..k] + shortVersion[..i])
        {
          PutByte(shortVersion[i], was, LAME[..k] + shortVersion[..i]);
          assert LAME[..k] + shortVersion[..i] + [shortVersion[i]] == LAME[..k] + shortVersion[..i + 1];
          rest := rest - 8;
          i := i + 1;
        }
        assert i == Min(r / 8, |shortVersion|);
      }
    }

    method ToggleFlag()
      requires Valid()
      modifies `ancillaryFlag
      ensures Valid() && Level() == old(Level()) && ancillaryFlag == (old(ancillaryFlag) != !disableReservoir)
    {
      hide Ring, Held, InStep, Layout, AudioOf, Placed, Capacity, Due, Wrap, Values;
      ancillaryFlag := ancillaryFlag != !disableReservoir;
    }

    method PutByte(b: byte, ghost was: seq<bool>, ghost text: seq<byte>)
      requires Valid() && 8 <= Free() && main == was + BytesToBits(text)
      modifies buf, `bufByteIdx, `bufBitIdx, `totbit, `wPtr, `sent, `stream, `main
      ensures Valid() && main == was + BytesToBits(text + [b]) && Level() == old(Level())
    {
      hide Valid, Level, BytesToBits, BitsOf, Capacity;
      Pow2Small();
      BytesToBitsAppend(text, b);
      PutBits2(b, 8);
    }
  }

  const LAME: seq<byte> := [0x4c, 0x41, 0x4d, 0x45]

  /** The letters that fit in `n` unused bits. */
  function AncillaryText(n: nat, version: seq<byte>): (t: seq<byte>)
    ensures 8 * |t| <= n
  {
    var k := Min(n / 8, 4);
    var rest := n - 8 * k;
    LAME[..k] + if rest >= 32 then version[..Min(rest / 8, |version|)] else []
  }

  /** What fills `n` unused bits. */
  function Ancillary(n: nat, version: seq<byte>, flag: bool, toggle: bool): (b: seq<bool>)
    ensures |b| == n
  {
    BytesToBits(AncillaryText(n, version)) + Flags(n - 8 * |AncillaryText(n, version)|, flag, toggle)
  }

  function FlagAt(i: nat, flag: bool, toggle: bool): bool { if toggle && i % 2 == 1 then !flag else flag }

  function Flags(n: nat, flag: bool, toggle: bool): (b: seq<bool>)
    ensures |b| == n
  {
    seq(n, i requires 0 <= i < n => FlagAt(i, flag, toggle))
  }

  lemma FlagsStart(flag: bool, toggle: bool)
    ensures Flags(0, flag, toggle) == [] && FlagAt(0, flag, toggle) == flag
  {
  }

  lemma FlagsStep(n: nat, flag: bool, toggle: bool)
    ensures Flags(n + 1, flag, toggle) == Flags(n, flag, toggle) + [FlagAt(n, flag, toggle)]
    ensures FlagAt(n + 1, flag, toggle) == if toggle then !FlagAt(n, flag, toggle) else FlagAt(n, flag, toggle)
  {
  }

  /** How many letters fit: the version only if 32 bits are left after the name. */
  lemma TextLength(n: nat, version: seq<byte>)
    ensures |AncillaryText(n, version)| == if n < 64 then Min(n / 8, 4) else Min(n / 8, 4 + |version|)
  {
  }

  /** The name and the version, letter by letter... */
  lemma AncillarySays(n: nat, version: seq<byte>, flag: bool, toggle: bool, i: nat)
    requires i < |AncillaryText(n, version)|
    ensures Get(Ancillary(n, version, flag, toggle), 8 * i, 8) == if i < 4 then "LAME"[i] as int
        else version[i - 4] as int
  {
    hide BytesToBits, BitsOf, ValueOf;
    var t, b := AncillaryText(n, version), Ancillary(n, version, flag, toggle);
    assert t[i] as int == if i < 4 then "LAME"[i] as int else version[i - 4] as int;
    BytesToBitsSlice(t, i, i + 1);
    NoBytes();
    BytesToBitsAppend([], t[i]);
    assert t[i..i + 1] == [] + [t[i]];
    assert b[8 * i..8 * i + 8] == BytesToBits(t)[8 * i..8 * (i + 1)] == BitsOf(t[i], 8);
    Pow2Small();
    ValueOfBitsOf(t[i], 8);
  }

  /** ... and bits that alternate unless there is no reservoir. */
  lemma AncillaryFills(n: nat, version: seq<byte>, flag: bool, toggle: bool, i: nat)
    requires 8 * |AncillaryText(n, version)| <= i < n
    ensures var b := Ancillary(n, version, flag, toggle);
      b[i] == if i == 8 * |AncillaryText(n, version)| then flag else toggle != b[i - 1]
  {
    hide BytesToBits, AncillaryText;
  }

  lemma NoBytes()
    ensures BytesToBits([]) == []
  {
  }

  /** From `n` on, the fields `all` of a header of `hdr` bits are `part`. */
  ghost predicate Piece(all: seq<Field>, n: nat, part: seq<Field>, hdr: nat)
    ensures Piece(all, n, part, hdr) ==> n + |part| <= |all|
  {
    n + |part| <= |all| && all[n..n + |part|] == part && AllFit(all) && Width(all) == hdr
  }

  lemma SubPiece(all: seq<Field>, n: nat, a: seq<Field>, b: seq<Field>, c: seq<Field>, hdr: nat)
    requires Piece(all, n, a + b + c, hdr)
    ensures Piece(all, n, a, hdr) && Piece(all, n + |a|, b, hdr) && Piece(all, n + |a| + |b|, c, hdr)
  {
    hide AllFit, Width;
    var part := all[n..n + |a + b + c|];
    assert part == a + b + c;
    forall i | 0 <= i < |part| ensures all[n..][i] == part[i] {
    }
    assert all[n..n + |a|] == a;
    assert all[n + |a|..n + |a| + |b|] == b;
    assert all[n + |a| + |b|..n + |a| + |b| + |c|] == c;
  }

  /** Two bytes of a complete header replaced. */
  lemma SlotPatch(buf: HeaderBuf, ptr: nat, len: nat, pre: seq<Field>, post: seq<Field>, hi: byte, lo: byte)
    requires 6 <= len && SlotHeld(buf, ptr, len, FieldBits(pre + [Field(0, 16)] + post))
    requires Width(pre) == 32 && Width(pre + [Field(0, 16)] + post) == 8 * len
    ensures SlotHeld(buf[4 := hi][5 := lo], ptr, len, FieldBits(pre + [Field(256 * hi + lo, 16)] + post))
  {
    hide BytesToBits, FieldBits, Width, BitsOf;
    SlotFull(buf, len, FieldBits(pre + [Field(0, 16)] + post));
    var after: HeaderBuf := buf[4 := hi][5 := lo];
    ThreeParts(pre, Field(0, 16), post);
    ThreeParts(pre, Field(256 * hi + lo, 16), post);
    BytesPatched(buf[..len]);
    BytesPatched(after[..len]);
    assert after[..len][..4] == buf[..len][..4] && after[..len][6..] == buf[..len][6..];
    TwoBytes(hi, lo);
    CutThree(FieldBits(pre), BitsOf(0, 16), FieldBits(post), BytesToBits(buf[..len][..4]),
             BitsOf(buf[4], 8) + BitsOf(buf[5], 8), BytesToBits(buf[..len][6..]));
    assert BytesToBits(after[..len]) == FieldBits(pre + [Field(256 * hi + lo, 16)] + post);
    HeldFull(after[..len], FieldBits(pre + [Field(256 * hi + lo, 16)] + post));
  }

  lemma ThreeParts(pre: seq<Field>, f: Field, post: seq<Field>)
    ensures FieldBits(pre + [f] + post) == FieldBits(pre) + BitsOf(f.val, f.width) + FieldBits(post)
    ensures Width(pre + [f] + post) == Width(pre) + f.width + Width(post)
  {
    hide FieldBits, Width;
    FieldBitsConcat(pre + [f], post);
    FieldBitsAppend(pre, f);
  }

  lemma BytesPatched(b: seq<byte>)
    requires |b| >= 6
    ensures BytesToBits(b) == BytesToBits(b[..4]) + (BitsOf(b[4], 8) + BitsOf(b[5], 8)) + BytesToBits(b[6..])
  {
    hide BytesToBits;
    BytesToBitsConcat(b[..6], b[6..]);
    BytesToBitsAppend(b[..5], b[5]);
    BytesToBitsAppend(b[..4], b[4]);
    assert b == b[..6] + b[6..] && b[..6] == b[..5] + [b[5]] && b[..5] == b[..4] + [b[4]];
    Regroup2(BytesToBits(b[..4]), BitsOf(b[4], 8), BitsOf(b[5], 8));
  }

  lemma TwoBytes(hi: byte, lo: byte)
    ensures BitsOf(256 * hi + lo, 16) == BitsOf(hi, 8) + BitsOf(lo, 8)
  {
    Pow2Small();
    BitsOfJoin(hi, lo, 8, 8);
  }

  lemma CutThree(a: seq<bool>, b: seq<bool>, c: seq<bool>, x: seq<bool>, y: seq<bool>, z: seq<bool>)
    requires a + b + c == x + y + z && |a| == |x| && |b| == |y|
    ensures a == x && b == y && c == z
  {
    assert (a + b + c)[..|a|] == a && (x + y + z)[..|a|] == x;
    assert (a + b + c)[|a|..|a| + |b|] == b && (x + y + z)[|a|..|a| + |b|] == y;
    assert (a + b + c)[|a| + |b|..] == c && (x + y + z)[|a| + |b|..] == z;
  }
}

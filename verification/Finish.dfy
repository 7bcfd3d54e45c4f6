/** iteration_finish_one of quantize.c: after the last quantization of a granule its scalefactors are stored and
    its spectrum divided as well as can be, and the reservoir is told. */
module Finish {
  import opened Bits
  import opened SideInfo
  import opened Huffman
  import opened Granule
  import opened Decoder
  import opened Takehiro
  import opened Scalefac
  import opened Reservoirs

  /** Storing the scalefactors leaves the division as it is. */
  lemma DivisionKept(b: Bands, g: GrInfo, h: GrInfo)
    requires Divided(b, g, g.part23Length) && SameButStorage(g, h)
    ensures Divided(b, h, h.part23Length)
  {
    hide QuadsCost, SpectrumCost, Codes;
    assert PlanOf(b, h) == PlanOf(b, g);
  }

  lemma {:induction false} ScaleFields1Same(g: GrInfo, h: GrInfo, n: nat)
    requires h.scalefac == g.scalefac && h.sfbdivide == g.sfbdivide && h.scalefacCompress == g.scalefacCompress
    requires n <= |g.scalefac| && NotBelow(g.scalefac)
    ensures ScaleFields1(h, n) == ScaleFields1(g, n)
  {
    if n > 0 { ScaleFields1Same(g, h, n - 1); }
  }

  lemma {:induction false} ScaleFields2Same(g: GrInfo, h: GrInfo, n: nat)
    requires h.scalefac == g.scalefac && h.sfbPartitionTable == g.sfbPartitionTable && h.slen == g.slen
    requires n <= |g.scalefac| && |g.sfbPartitionTable| == |g.slen| == 4
    ensures ScaleFields2(h, n) == ScaleFields2(g, n)
  {
    hide Partition;
    if n > 0 { ScaleFields2Same(g, h, n - 1); }
  }

  /** Dividing the spectrum leaves the scalefactors as they are. */
  lemma StorageKept(version: nat, g: GrInfo, h: GrInfo, scfsi: seq<nat>)
    requires StoredRight(version, g) && Telling(version, g, scfsi) && SameGranule(g, h)
    ensures StoredRight(version, h) && Telling(version, h, scfsi)
  {
    hide AllFit, Narrow, Width, ScaleFields1, ScaleFields2;
    if version == 1 {
      ScaleFields1Same(g, h, g.sfbmax);
    } else {
      ScaleFields2Same(g, h, PartitionTotal(g.sfbPartitionTable));
    }
  }

  /** What the two have done is all the formatter asks for: both counts equal the bits it will write. */
  lemma BothCounted(version: nat, b: Bands, g: GrInfo)
    requires Divided(b, g, g.part23Length) && StoredRight(version, g)
    ensures Counted(version, b, g)
  {
    CountIsEmission(b, g, g.part23Length);
    hide AllFit, Narrow, Width, ScaleFields, SpectrumBits, SpectrumCost, QuadsCost, Codes;
  }

  /** What outer_loop leaves: a spectrum divided and counted, scalefactors stored and counted, and settings that
      fit their fields. */
  ghost predicate Quantized(version: nat, b: Bands, g: GrInfo) {
    && Divided(b, g, g.part23Length) && Storable(version, g) && Flagged(g)
    && g.globalGain < 256 && g.blockType < 4 && g.mixedBlockFlag < 2
    && |g.subblockGain| >= 3 && g.subblockGain[0] < 8 && g.subblockGain[1] < 8 && g.subblockGain[2] < 8
  }

  /** The granule has been counted, and its side information fits its fields but for the length. */
  ghost predicate Finished(version: nat, b: Bands, g: GrInfo) {
    && |g.subblockGain| >= 3 && Counted(version, b, g)
    && WellFormedGr(version, GrSideOf(version, g).(part23Length := 0))
  }

  /** The granule `h` is coded for `g`: the values, their signs and every step that matters are the same. */
  ghost predicate Preserved(g: GrInfo, h: GrInfo, first: seq<int>) {
    && h.l3Enc == g.l3Enc && h.neg == g.neg && h.globalGain == g.globalGain && h.subblockGain == g.subblockGain
    && BandsOk(g) && BandsOk(h) && h.sfbmax == g.sfbmax && |first| == SFBMAX && StepsKept(g, h, first)
  }

  function Used(g: GrInfo): int { g.part23Length + g.part2Length }

  /** All fields of the side information fit. */
  lemma FieldsFit(version: nat, b: Bands, g: GrInfo, h: GrInfo)
    requires version < 2 && Quantized(version, b, g) && Counted(version, b, h) && TablesOk(h.tableSelect) && Flagged(h)
    requires h.scalefacCompress < (if version == 1 then 16 else 512)
    requires h.globalGain == g.globalGain && h.subblockGain == g.subblockGain && h.blockType == g.blockType
    requires h.mixedBlockFlag == g.mixedBlockFlag
    ensures Finished(version, b, h)
  {
    GranuleLength(version, b, h);
    hide Divided, Storable, Codes, Scaled, AllFit, Narrow, Width, ScaleFields, SpectrumBits, PlanOf, GranuleBits;
    SelectFits(version, b, h);
    SideFits(version, GrSideOf(version, h).(part23Length := 0));
  }

  lemma SelectFits(version: nat, b: Bands, h: GrInfo)
    requires Counted(version, b, h)
    ensures h.count1TableSelect < 2
  {
    hide Scaled, AllFit, Narrow, Width, ScaleFields, SpectrumBits, RegionCodable;
  }

  ghost predicate SmallTables(w: Windows) {
    match w
    case Switched(t, m, ts, gains) =>
      t < 4 && t != NORM_TYPE && m < 2 && ts.0 < 32 && ts.1 < 32 && gains.0 < 8 && gains.1 < 8 && gains.2 < 8
    case Normal(ts, r0, r1) => ts.0 < 32 && ts.1 < 32 && ts.2 < 32 && r0 < 16 && r1 < 8
  }

  lemma SideFits(version: nat, s: GrSide)
    requires version < 2 && s.part23Length == 0 && s.bigValues < 512 && s.globalGain < 256
    requires s.scalefacCompress < (if version == 1 then 16 else 512)
    requires SmallTables(s.windows) && s.preflag < 2 && s.scalefacScale < 2 && s.count1TableSelect < 2
    requires version != 1 ==> s.preflag == 0
    ensures WellFormedGr(version, s)
  {
    PowersNeeded();
    hide Pow2;
    forall i | 0 <= i < |GrFields(version, s)|
      ensures Fits(GrFields(version, s)[i])
    {
    }
  }

  lemma PowersNeeded()
    ensures Pow2(1) == 2 && Pow2(2) == 4 && Pow2(3) == 8 && Pow2(4) == 16 && Pow2(5) == 32
    ensures Pow2(8) == 256 && Pow2(9) == 512 && Pow2(12) == 4096
  {
    Pow2Small();
    assert Pow2(9) == 2 * Pow2(8) && Pow2(10) == 2 * Pow2(9) && Pow2(11) == 2 * Pow2(10) && Pow2(12) == 2 * Pow2(11);
  }

  /** The scalefactors of `g` are stored as simply as can be, and its spectrum is divided as well as has been sought. */
  ghost predicate Economical(b: Bands, modeGr: nat, useBestHuffman: nat, gr: nat, g0: GrInfo, scfsi: seq<nat>,
      g: GrInfo,
                             h: GrInfo)
  {
    && Edges(b) && BandsOk(g) && Simplest(g, modeGr, Sharing(modeGr, gr, g0, g), g0.scalefac, scfsi, h)
    && (useBestHuffman == 1 ==> Sought(b, modeGr, g, h.part23Length))
  }

  lemma StillEconomical(b: Bands, modeGr: nat, useBestHuffman: nat, gr: nat, g0: GrInfo, scfsi: seq<nat>, g: GrInfo,
                        h: GrInfo, f: GrInfo)
    requires Edges(b) && BandsOk(g) && SameButStorage(g, h) && SameGranule(h, f)
    requires Simplest(g, modeGr, Sharing(modeGr, gr, g0, h), g0.scalefac, scfsi, h)
    requires useBestHuffman == 1 ==> Sought(b, modeGr, h, f.part23Length)
    ensures Economical(b, modeGr, useBestHuffman, gr, g0, scfsi, g, f)
  {
    hide BandEmpty, Halvable, Emphasised, AllReduced, Changes, SharedExactly, LeastOwn, Reduced, Holds, HoldsLsf;
    hide FullLength, LsfLength, Best, NoCheaper, QuadsCost;
  }

  /** reduce_bit_usage of vbrquantize.c: the scalefactors are stored and the spectrum divided as well as can be; no
      more bits than before, nothing lost, and everything counted right. */
  method ReduceBitUsage(d: Divider, s: GrState, gr: nat, g0: GrInfo) returns (scfsi: seq<nat>)
    requires d.Ready() && gr < d.modeGr && |g0.scalefac| == SFBMAX
    requires Quantized(d.modeGr - 1, d.bands, s.gi)
    modifies s
    ensures Finished(d.modeGr - 1, d.bands, s.gi) && Telling(d.modeGr - 1, s.gi, if gr == 1 then scfsi else [])
    ensures |scfsi| == 4 && (forall i | 0 <= i < 4 :: scfsi[i] < 2) && (gr == 0 ==> scfsi == [0, 0, 0, 0])
    ensures Preserved(old(s.gi), s.gi, g0.scalefac) && Used(s.gi) <= old(Used(s.gi))
    ensures Economical(d.bands, d.modeGr, d.useBestHuffman, gr, g0, scfsi, old(s.gi), s.gi)
  {
    hide Divided, StoredRight, Telling, StepsKept, Stored1, Stored2, Counted, BandEmpty, Amp, Finished, Simplest;
    hide Sought;
    ghost var version := d.modeGr - 1;
    ghost var g := s.gi;
    scfsi := BestScalefacStore(s, d.modeGr, gr, g0);
    DivisionKept(d.bands, g, s.gi);
    ghost var h := s.gi;
    if d.useBestHuffman == 1 {
      d.BestHuffmanDivide(s);
      StorageKept(version, h, s.gi, if gr == 1 then scfsi else []);
    }
    StillEconomical(d.bands, d.modeGr, d.useBestHuffman, gr, g0, scfsi, g, h, s.gi);
    BothCounted(version, d.bands, s.gi);
    StepsCarry(g, h, s.gi, g0.scalefac);
    TablesStillOk(d.bands, s.gi);
    FieldsFit(version, d.bands, g, s.gi);
  }

  lemma TablesStillOk(b: Bands, g: GrInfo)
    requires Divided(b, g, g.part23Length)
    ensures TablesOk(g.tableSelect)
  {
  }

  /** iteration_finish_one: the same after the last quantization of a granule, and the reservoir is told. */
  method IterationFinishOne(d: Divider, r: Reservoir, s: GrState, gr: nat, g0: GrInfo) returns (scfsi: seq<nat>)
    requires d.Ready() && gr < d.modeGr && |g0.scalefac| == SFBMAX
    requires Quantized(d.modeGr - 1, d.bands, s.gi)
    modifies s, r`resvSize
    ensures Finished(d.modeGr - 1, d.bands, s.gi) && Telling(d.modeGr - 1, s.gi, if gr == 1 then scfsi else [])
    ensures |scfsi| == 4 && (forall i | 0 <= i < 4 :: scfsi[i] < 2) && (gr == 0 ==> scfsi == [0, 0, 0, 0])
    ensures Preserved(old(s.gi), s.gi, g0.scalefac) && Used(s.gi) <= old(Used(s.gi))
    ensures Economical(d.bands, d.modeGr, d.useBestHuffman, gr, g0, scfsi, old(s.gi), s.gi)
    ensures r.resvSize == old(r.resvSize) - Used(s.gi)
  {
    hide Finished, Preserved, Telling, Quantized, Economical;
    scfsi := ReduceBitUsage(d, s, gr, g0);
    r.ResvAdjust(Used(s.gi));
  }

  lemma StepsCarry(g: GrInfo, h: GrInfo, f: GrInfo, first: seq<int>)
    requires BandsOk(g) && BandsOk(h) && h.sfbmax == g.sfbmax && |first| == SFBMAX && StepsKept(g, h, first)
    requires SameGranule(h, f)
    ensures BandsOk(f) && StepsKept(g, f, first)
  {
    hide Amp, BandEmpty;
  }
}

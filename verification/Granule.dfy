/** gr_info of l3side.h as a value: what the formatter needs to know about one granule of one channel, and
    the bits it stands for. */
module Granule {
  import opened Bits
  import opened SideInfo
  import opened Huffman

  const SBMAX_l := 22
  const SBPSY_l := 21
  const SFBMAX := 39

  /** `neg[i]` is the sign of the spectrum line that was quantized to `l3Enc[i]`. */
  datatype GrInfo = GrInfo(
    l3Enc: seq<nat>, neg: seq<bool>, scalefac: seq<int>,
    part23Length: int, part2Length: int, bigValues: nat, count1: nat,
    globalGain: nat, scalefacCompress: nat, blockType: nat, mixedBlockFlag: nat,
    tableSelect: seq<nat>, subblockGain: seq<nat>, region0Count: nat, region1Count: nat,
    preflag: nat, scalefacScale: nat, count1TableSelect: nat,
    sfbmax: nat, sfbdivide: nat, sfbPartitionTable: seq<nat>, slen: seq<nat>,
    count1bits: int, maxNonzeroCoeff: int, width: seq<nat>, window: seq<nat>)

  /** scalefac_band: the edges of the long and of the short bands. */
  datatype Bands = Bands(l: seq<nat>, s: seq<nat>)

  predicate Edges(b: Bands) {
    && |b.l| == SBMAX_l + 1 && b.l[0] == 0 && b.l[22] == 576
    && (forall i | 0 <= i < 22 :: b.l[i] < b.l[i + 1])
    && (forall i | 0 <= i < 23 :: b.l[i] % 2 == 0)
    && |b.s| == 14 && b.s[3] % 2 == 0
  }

  // ----- the spectrum

  /** Pseudo-table 14 is written as table 16. */
  function Renamed(t: nat): nat { if t == 14 then 16 else t }

  /** Where the second and the third region begin. */
  function Region1Start(b: Bands, g: GrInfo): int
    requires Edges(b) && g.region0Count < 16
  {
    Min(if g.blockType == SHORT_TYPE then 3 * b.s[3] else b.l[g.region0Count + 1], g.bigValues)
  }

  function Region2Start(b: Bands, g: GrInfo): int
    requires Edges(b) && g.region0Count + g.region1Count + 2 < 23
  {
    if g.blockType == SHORT_TYPE then g.bigValues
    else Min(b.l[g.region0Count + g.region1Count + 2], g.bigValues)
  }

  predicate Regions(g: GrInfo) {
    && g.region0Count < 16 && (g.blockType == NORM_TYPE ==> g.region1Count < 8)
        && g.region0Count + g.region1Count + 2 < 23
    && g.bigValues % 2 == 0 && g.bigValues <= g.count1 <= 576 && (g.count1 - g.bigValues) % 4 == 0
    && |g.tableSelect| == 3 && |g.l3Enc| == |g.neg| == 576
    && (g.blockType != NORM_TYPE && g.blockType != SHORT_TYPE && g.bigValues > 0
        ==> g.region0Count == 7 && g.region1Count == 13)
  }

  lemma EdgesIncrease(b: Bands, i: nat, j: nat)
    requires Edges(b) && i <= j < 23
    ensures b.l[i] <= b.l[j]
  {
    if i < j { EdgesIncrease(b, i, j - 1); }
  }

  lemma RegionOrder(b: Bands, g: GrInfo)
    requires Edges(b) && Regions(g)
    ensures 0 <= Region1Start(b, g) <= Region2Start(b, g) <= g.bigValues
    ensures Region1Start(b, g) % 2 == 0 && Region2Start(b, g) % 2 == 0
  {
    EdgesIncrease(b, g.region0Count + 1, g.region0Count + g.region1Count + 2);
  }

  /** How the spectrum of a granule is coded. */
  function PlanOf(b: Bands, g: GrInfo): (p: Plan)
    requires Edges(b) && Regions(g)
    ensures BigEnd(p) == g.bigValues && End(p) == g.count1
    ensures 2 * p.n0 == Region1Start(b, g) && 2 * p.n0 + 2 * p.n1 == Region2Start(b, g)
  {
    RegionOrder(b, g);
    var r1, r2 := Region1Start(b, g), Region2Start(b, g);
    Plan(r1 / 2, (r2 - r1) / 2, (g.bigValues - r2) / 2,
         Renamed(g.tableSelect[0]), Renamed(g.tableSelect[1]), Renamed(g.tableSelect[2]),
         (g.count1 - g.bigValues) / 4, g.count1TableSelect)
  }

  // ----- the scalefactors

  function Slen1(compress: nat): nat {
    match compress
    case 0 => 0 case 1 => 0 case 2 => 0 case 3 => 0
    case 4 => 3 case 5 => 1 case 6 => 1 case 7 => 1
    case 8 => 2 case 9 => 2 case 10 => 2 case 11 => 3
    case 12 => 3 case 13 => 3 case _ => 4
  }

  function Slen2(compress: nat): nat {
    match compress
    case 0 => 0 case 1 => 1 case 2 => 2 case 3 => 3
    case 4 => 0 case 5 => 1 case 6 => 2 case 7 => 3
    case 8 => 1 case 9 => 2 case 10 => 3 case 11 => 1
    case 12 => 2 case 13 => 3 case 14 => 2 case _ => 3
  }

  /** -1 marks a scalefactor shared with the first granule. */
  predicate NotBelow(scalefac: seq<int>) { forall i | 0 <= i < |scalefac| :: -1 <= scalefac[i] }

  /** MPEG-1: the first `n` scalefactors, without those shared with the first granule. */
  function ScaleFields1(g: GrInfo, n: nat): seq<Field>
    requires n <= |g.scalefac| && NotBelow(g.scalefac)
  {
    if n == 0 then []
    else if g.scalefac[n - 1] == -1 then ScaleFields1(g, n - 1)
    else ScaleFields1(g, n - 1)
         + [Field(g.scalefac[n - 1], if n <= g.sfbdivide then Slen1(g.scalefacCompress) else Slen2(g.scalefacCompress))]
  }

  /** The partition the scalefactor `k` lies in; 4 past the end. */
  function Partition(table: seq<nat>, k: nat): nat
    requires |table| == 4
  {
    if k < table[0] then 0
    else if k < table[0] + table[1] then 1
    else if k < table[0] + table[1] + table[2] then 2
    else if k < table[0] + table[1] + table[2] + table[3] then 3
    else 4
  }

  /** MPEG-2: the first `n` scalefactors, each as wide as its partition says. */
  function ScaleFields2(g: GrInfo, n: nat): seq<Field>
    requires n <= |g.scalefac| && |g.sfbPartitionTable| == |g.slen| == 4
  {
    if n == 0 then []
    else
      var p := Partition(g.sfbPartitionTable, n - 1);
      ScaleFields2(g, n - 1)
      + [Field(if g.scalefac[n - 1] < 0 then 0 else g.scalefac[n - 1], if p < 4 then g.slen[p] else 0)]
  }

  /** Where partition `p` begins. */
  function PartitionStart(table: seq<nat>, p: nat): nat
    requires |table| == 4 && p <= 4
  {
    (if p > 0 then table[0] else 0) + (if p > 1 then table[1] else 0)
    + (if p > 2 then table[2] else 0) + (if p > 3 then table[3] else 0)
  }

  function PartitionTotal(table: seq<nat>): nat
    requires |table| == 4
  {
    table[0] + table[1] + table[2] + table[3]
  }

  predicate Scaled(version: nat, g: GrInfo) {
    && |g.scalefac| == SFBMAX && NotBelow(g.scalefac)
    && if version == 1 then g.sfbdivide <= g.sfbmax <= SFBMAX
       else |g.sfbPartitionTable| == |g.slen| == 4 && PartitionTotal(g.sfbPartitionTable) <= SFBMAX
            && (g.blockType == SHORT_TYPE ==> forall p | 0 <= p < 4 :: g.sfbPartitionTable[p] % 3 == 0)
  }

  function ScaleFields(version: nat, g: GrInfo): seq<Field>
    requires Scaled(version, g)
  {
    if version == 1 then ScaleFields1(g, g.sfbmax) else ScaleFields2(g, PartitionTotal(g.sfbPartitionTable))
  }

  // ----- the granule

  /** The main data of a granule: scalefactors, then spectrum. */
  function GranuleBits(version: nat, b: Bands, g: GrInfo): seq<bool>
    requires Edges(b) && Regions(g) && Scaled(version, g)
  {
    FieldBits(ScaleFields(version, g)) + SpectrumBits(PlanOf(b, g), g.l3Enc, g.neg)
  }

  /** What the quantization loops leave behind: a plan that codes the spectrum, scalefactors that fit
      their widths, and the two bit counts equal to the bits that will be written. */
  predicate Counted(version: nat, b: Bands, g: GrInfo) {
    && Edges(b) && Regions(g) && Scaled(version, g)
    && Codes(PlanOf(b, g), g.l3Enc)
    && AllFit(ScaleFields(version, g)) && Narrow(ScaleFields(version, g))
    && g.part2Length == Width(ScaleFields(version, g))
    && g.part23Length == |SpectrumBits(PlanOf(b, g), g.l3Enc, g.neg)|
  }

  predicate Narrow(fs: seq<Field>) { forall i | 0 <= i < |fs| :: fs[i].width < 30 }

  // ----- building up the scalefactor fields

  lemma FieldsGrow(fs: seq<Field>, f: Field)
    ensures FieldBits(fs + [f]) == FieldBits(fs) + BitsOf(f.val, f.width)
    ensures |FieldBits(fs + [f])| == |FieldBits(fs)| + f.width
  {
    FieldBitsAppend(fs, f);
  }

  lemma {:induction false} ScaleFields1Prefix(g: GrInfo, m: nat, n: nat)
    requires m <= n <= |g.scalefac| && NotBelow(g.scalefac)
    ensures ScaleFields1(g, m) <= ScaleFields1(g, n)
    decreases n
  {
    if m < n { ScaleFields1Prefix(g, m, n - 1); }
  }

  lemma {:induction false} ScaleFields2Prefix(g: GrInfo, m: nat, n: nat)
    requires m <= n <= |g.scalefac| && |g.sfbPartitionTable| == |g.slen| == 4
    ensures ScaleFields2(g, m) <= ScaleFields2(g, n)
    decreases n
  {
    if m < n { ScaleFields2Prefix(g, m, n - 1); }
  }

  lemma {:induction false} PrefixBits(fs: seq<Field>, gs: seq<Field>)
    requires fs <= gs
    ensures |FieldBits(fs)| <= |FieldBits(gs)|
  {
    FieldBitsConcat(fs, gs[|fs|..]);
    assert gs == fs + gs[|fs|..];
  }

  /** The last of the first `n + 1` fields fits, and so does what has been written so far. */
  lemma LastField(fs: seq<Field>, f: Field, all: seq<Field>)
    requires fs + [f] <= all && AllFit(all) && Narrow(all)
    ensures f.val < Pow2(f.width) && f.width < 30
    ensures FieldBits(fs + [f]) == FieldBits(fs) + BitsOf(f.val, f.width)
    ensures |FieldBits(fs)| + f.width <= |FieldBits(all)|
  {
    hide FieldBits, Width, Pow2;
    assert all[|fs|] == f;
    assert Fits(all[|fs|]) && all[|fs|].width < 30;
    PrefixBits(fs + [f], all);
    FieldsGrow(fs, f);
  }

  // ----- the side information of a granule

  /** What encodeSideInfo2 writes for a granule. */
  function GrSideOf(version: nat, g: GrInfo): GrSide
    requires |g.tableSelect| == 3 && |g.subblockGain| >= 3 && 0 <= g.part23Length && 0 <= g.part2Length
  {
    GrSide(g.part23Length + g.part2Length, g.bigValues / 2, g.globalGain, g.scalefacCompress,
           if g.blockType != NORM_TYPE then
             Switched(g.blockType, g.mixedBlockFlag, (Renamed(g.tableSelect[0]), Renamed(g.tableSelect[1])),
                      (g.subblockGain[0], g.subblockGain[1], g.subblockGain[2]))
           else
             Normal((Renamed(g.tableSelect[0]), Renamed(g.tableSelect[1]), Renamed(g.tableSelect[2])),
                    g.region0Count, g.region1Count),
           if version == 1 then g.preflag else 0, g.scalefacScale, g.count1TableSelect)
  }

  /** The granule after encodeSideInfo2 has renamed the tables it wrote. */
  function WithRenamed(g: GrInfo): GrInfo
    requires |g.tableSelect| == 3
  {
    g.(tableSelect := [Renamed(g.tableSelect[0]), Renamed(g.tableSelect[1]),
                       if g.blockType == NORM_TYPE then Renamed(g.tableSelect[2]) else g.tableSelect[2]])
  }

  /** Renaming changes nothing that is coded. */
  lemma RenamingIsSafe(version: nat, b: Bands, g: GrInfo)
    requires Counted(version, b, g)
    ensures Counted(version, b, WithRenamed(g))
    ensures GranuleBits(version, b, WithRenamed(g)) == GranuleBits(version, b, g)
    ensures NoTable14(WithRenamed(g))
  {
    hide SpectrumBits, Codes, FieldBits, AllFit, Narrow, Width;
    ScaleFieldsSame(g, WithRenamed(g), if version == 1 then g.sfbmax else PartitionTotal(g.sfbPartitionTable), version);
    assert PlanOf(b, WithRenamed(g)) == PlanOf(b, g);
  }

  lemma {:induction false} ScaleFieldsSame(g: GrInfo, h: GrInfo, n: nat, version: nat)
    requires h == g.(tableSelect := h.tableSelect) && n <= |g.scalefac| && NotBelow(g.scalefac)
    requires version != 1 ==> |g.sfbPartitionTable| == |g.slen| == 4
    ensures if version == 1 then ScaleFields1(h, n) == ScaleFields1(g, n) else ScaleFields2(h, n) == ScaleFields2(g, n)
  {
    if n > 0 { ScaleFieldsSame(g, h, n - 1, version); }
  }

  /** No table to be renamed is left. */
  predicate NoTable14(g: GrInfo)
    requires |g.tableSelect| == 3
  {
    g.tableSelect[0] != 14 && g.tableSelect[1] != 14 && (g.blockType == NORM_TYPE ==> g.tableSelect[2] != 14)
  }

  /** The main data of a granule that has been counted. */
  function DataOf(version: nat, b: Bands, g: GrInfo): seq<bool> {
    if Counted(version, b, g) then GranuleBits(version, b, g) else []
  }

  /** The main data of a frame, granule by granule and channel by channel. */
  function MainBits(version: nat, b: Bands, grs: seq<GrInfo>): seq<bool> {
    if grs == [] then [] else MainBits(version, b, grs[..|grs| - 1]) + DataOf(version, b, grs[|grs| - 1])
  }

  /** A granule's two counts are the length of its data. */
  lemma GranuleLength(version: nat, b: Bands, g: GrInfo)
    requires Counted(version, b, g)
    ensures |GranuleBits(version, b, g)| == g.part23Length + g.part2Length
    ensures 0 <= g.part2Length && 0 <= g.part23Length
  {
    hide SpectrumBits, Codes, AllFit, Narrow, Width, FieldBits;
  }

  /** gr_info, updated in place. */
  class GrState {
    var gi: GrInfo

    constructor (g: GrInfo)
      ensures gi == g
    {
      gi := g;
    }
  }
}

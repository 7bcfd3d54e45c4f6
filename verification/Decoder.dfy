/** The reader of a granule's main data, which knows no more than the side information says (sections 2.4.1.7
    and 2.4.2.7 of ISO/IEC 11172-3, section 2.4.3.2 of ISO/IEC 13818-3). */
module Decoder {
  import opened Bits
  import opened SideInfo
  import opened Huffman
  import opened Granule

  /** What a reader gets from a granule: the gain, the pre-emphasis and the scale of the steps, the scalefactors, -1 for
      those it takes from the first granule, and the quantized values with their signs. */
  datatype Decoded = Decoded(gain: nat, preflag: nat, scale: nat, scalefac: seq<int>, spectrum: seq<int>)

  function BlockTypeOf(w: Windows): nat { if w.Switched? then w.blockType else NORM_TYPE }

  function MixedOf(w: Windows): nat { if w.Switched? then w.mixed else 0 }

  // ----- the spectrum

  /** The plan of a granule as its side information tells it; the number of quadruples is not told. */
  function ToldPlan(b: Bands, s: GrSide): (p: Option<Plan>)
    requires Edges(b)
  {
    var big := 2 * s.bigValues;
    match s.windows
    case Switched(t, _, tables, _) =>
      var r1 := Min(if t == SHORT_TYPE then 3 * b.s[3] else b.l[8], big);
      Some(Plan(r1 / 2, (big - r1) / 2, 0, tables.0, tables.1, 0, 0, s.count1TableSelect))
    case Normal(tables, r0, r1) =>
      if r0 + r1 + 2 > 22 then None
      else
        EdgesIncrease(b, r0 + 1, r0 + r1 + 2);
        var e1, e2 := Min(b.l[r0 + 1], big), Min(b.l[r0 + r1 + 2], big);
        Some(Plan(e1 / 2, (e2 - e1) / 2, (big - e2) / 2, tables.0, tables.1, tables.2, 0, s.count1TableSelect))
  }

  /** The plan that is told decodes like the plan that was used. */
  lemma PlanTold(version: nat, b: Bands, g: GrInfo, size: nat, bits: seq<bool>)
    requires Edges(b) && Regions(g) && |g.subblockGain| >= 3 && 0 <= g.part23Length && 0 <= g.part2Length
    ensures var p := ToldPlan(b, GrSideOf(version, g));
      p.Some? && DecodeSpectrum(p.value, size, bits) == DecodeSpectrum(PlanOf(b, g), size, bits)
  {
    RegionOrder(b, g);
    var p, q := PlanOf(b, g), ToldPlan(b, GrSideOf(version, g));
    if g.blockType == NORM_TYPE {
      assert q == Some(p.(quads := 0));
    } else {
      assert q.Some? && q.value == p.(t2 := 0, quads := 0);
      assert p.n2 == 0;
    }
    hide DecodeQuads, PlanOf, ToldPlan;
    NothingLeft(p.t2, bits);
    EmptyRegion(p, q.value, size, bits);
  }

  lemma NothingLeft(t: nat, bits: seq<bool>)
    ensures DecodeRegion(t, 0, bits) == Some(([], bits)) == DecodeRegion(0, 0, bits)
  {
  }

  lemma EmptyRegion(p: Plan, q: Plan, size: nat, bits: seq<bool>)
    requires q == p.(quads := 0) || (q == p.(t2 := 0, quads := 0) && p.n2 == 0)
    ensures DecodeSpectrum(q, size, bits) == DecodeSpectrum(p, size, bits)
  {
    hide DecodeRegion, DecodeQuads;
    match DecodeRegion(p.t0, p.n0, bits)
    case None =>
    case Some((r0, b1)) =>
      match DecodeRegion(p.t1, p.n1, b1)
      case None =>
      case Some((r1, b2)) =>
        NothingLeft(p.t2, b2);
  }

  // ----- the scalefactors

  /** Bands with the first width, and all bands, of an MPEG-1 granule. */
  function Divide(blockType: nat, mixed: nat): (nat, nat) {
    if blockType != SHORT_TYPE then (11, 21) else if mixed == 0 then (18, 36) else (17, 35)
  }

  /** Whether the scalefactor `i` is taken from the first granule; `scfsi` is empty if none is. */
  function Shared(scfsi: seq<nat>, i: nat): bool {
    |scfsi| == 4 && i < 21 && scfsi[if i < 6 then 0 else if i < 11 then 1 else if i < 16 then 2 else 3] == 1
  }

  /** MPEG-1: the first `n` scalefactors, and how many bits they take. */
  function ReadScale1(b: seq<bool>, compress: nat, divide: nat, scfsi: seq<nat>, n: nat): (r: (seq<int>, nat))
    ensures |r.0| == n
  {
    if n == 0 then ([], 0)
    else
      var (s, at) := ReadScale1(b, compress, divide, scfsi, n - 1);
      if Shared(scfsi, n - 1) then (s + [-1], at)
      else
        var w := if n <= divide then Slen1(compress) else Slen2(compress);
        (s + [Get(b, at, w)], at + w)
  }

  /** MPEG-2: the four widths that scalefac_compress stands for. */
  function LsfSlen(c: nat): (r: seq<nat>)
    ensures |r| == 4
  {
    if c < 400 then [c / 16 / 5, c / 16 % 5, c % 16 / 4, c % 4]
    else if c < 500 then [(c - 400) / 4 / 5, (c - 400) / 4 % 5, (c - 400) % 4, 0]
    else [(c - 500) / 3, (c - 500) % 3, 0, 0]
  }

  /** MPEG-2: how many scalefactors have each width (the rows of nr_of_sfb_block without intensity stereo). */
  function LsfTable(c: nat, blockType: nat, mixed: nat): (r: seq<nat>)
    ensures |r| == 4
  {
    if c < 400 then
      if blockType != SHORT_TYPE then [6, 5, 5, 5] else if mixed == 0 then [9, 9, 9, 9] else [6, 9, 9, 9]
    else if c < 500 then
      if blockType != SHORT_TYPE then [6, 5, 7, 3] else if mixed == 0 then [9, 9, 12, 6] else [6, 9, 12, 6]
    else
      if blockType != SHORT_TYPE then [11, 10, 0, 0] else if mixed == 0 then [18, 18, 0, 0] else [15, 18, 0, 0]
  }

  function ReadScale2(b: seq<bool>, slen: seq<nat>, table: seq<nat>, n: nat): (r: (seq<int>, nat))
    requires |slen| == |table| == 4
    ensures |r.0| == n
  {
    if n == 0 then ([], 0)
    else
      var (s, at) := ReadScale2(b, slen, table, n - 1);
      var p := Partition(table, n - 1);
      var w := if p < 4 then slen[p] else 0;
      (s + [Get(b, at, w)], at + w)
  }

  function ReadScale(version: nat, s: GrSide, scfsi: seq<nat>, b: seq<bool>): (seq<int>, nat) {
    var t, m, c := BlockTypeOf(s.windows), MixedOf(s.windows), s.scalefacCompress;
    if version == 1 then ReadScale1(b, c, Divide(t, m).0, scfsi, Divide(t, m).1)
    else ReadScale2(b, LsfSlen(c), LsfTable(c, t, m), PartitionTotal(LsfTable(c, t, m)))
  }

  /** In MPEG-2 the pre-emphasis is not told by a bit of its own. */
  function ReadPreflag(version: nat, s: GrSide): nat {
    if version == 1 then s.preflag else if s.scalefacCompress >= 500 then 1 else 0
  }

  /** The side information says which scalefactors are there and how wide they are. */
  predicate Telling(version: nat, g: GrInfo, scfsi: seq<nat>)
    requires Scaled(version, g)
  {
    var m := if g.blockType != NORM_TYPE then g.mixedBlockFlag else 0;
    if version == 1 then
      && (g.sfbdivide, g.sfbmax) == Divide(g.blockType, m)
      && forall i | 0 <= i < g.sfbmax :: g.scalefac[i] == -1 <==> Shared(scfsi, i)
    else
      && g.slen == LsfSlen(g.scalefacCompress) && g.sfbPartitionTable == LsfTable(g.scalefacCompress, g.blockType, m)
      && (g.preflag != 0 <==> g.scalefacCompress >= 500)
  }

  /** The pre-emphasis a reader is to find. */
  function Preflag(version: nat, g: GrInfo): nat {
    if version == 1 then g.preflag else if g.preflag != 0 then 1 else 0
  }

  /** The scalefactors a reader is to find. */
  function Scalefactors(version: nat, g: GrInfo): seq<int>
    requires Scaled(version, g)
  {
    if version == 1 then g.scalefac[..g.sfbmax]
    else seq(PartitionTotal(g.sfbPartitionTable),
             i requires 0 <= i < PartitionTotal(g.sfbPartitionTable) => if g.scalefac[i] < 0 then 0 else g.scalefac[i])
  }

  lemma NextField(fs: seq<Field>, f: Field, all: seq<Field>, post: seq<bool>)
    requires fs + [f] <= all && AllFit(all)
    ensures Get(FieldBits(all) + post, Width(fs), f.width) == f.val
    ensures Width(fs + [f]) == Width(fs) + f.width
  {
    hide FieldBits, Get, Width;
    assert all[|fs|] == f && all[..|fs|] == fs && Fits(all[|fs|]);
    assert [] + FieldBits(all) + post == FieldBits(all) + post;
    GetField([], all, |fs|, post);
    FieldBitsAppend(fs, f);
  }

  lemma {:induction false} ReadScale1Back(g: GrInfo, scfsi: seq<nat>, n: nat, m: nat, post: seq<bool>)
    requires n <= m <= |g.scalefac| && NotBelow(g.scalefac) && AllFit(ScaleFields1(g, m))
    requires forall i | 0 <= i < n :: g.scalefac[i] == -1 <==> Shared(scfsi, i)
    ensures ReadScale1(FieldBits(ScaleFields1(g, m)) + post, g.scalefacCompress, g.sfbdivide, scfsi, n)
         == (g.scalefac[..n], Width(ScaleFields1(g, n)))
  {
    hide FieldBits, Get, AllFit, Slen1, Slen2, Shared, Width;
    NoWidth();
    if n > 0 {
      ReadScale1Back(g, scfsi, n - 1, m, post);
      assert g.scalefac[..n] == g.scalefac[..n - 1] + [g.scalefac[n - 1]];
      if g.scalefac[n - 1] != -1 {
        ScaleFields1Prefix(g, n, m);
        NextField(ScaleFields1(g, n - 1),
                  Field(g.scalefac[n - 1], if n <= g.sfbdivide then Slen1(g.scalefacCompress)
                      else Slen2(g.scalefacCompress)),
                  ScaleFields1(g, m), post);
      }
    }
  }

  lemma NoWidth()
    ensures Width([]) == 0
  {
  }

  lemma {:induction false} ReadScale2Back(g: GrInfo, n: nat, m: nat, post: seq<bool>)
    requires n <= m <= |g.scalefac| && |g.sfbPartitionTable| == |g.slen| == 4 && AllFit(ScaleFields2(g, m))
    ensures var r := ReadScale2(FieldBits(ScaleFields2(g, m)) + post, g.slen, g.sfbPartitionTable, n);
      && r.1 == Width(ScaleFields2(g, n))
      && forall i | 0 <= i < n :: r.0[i] == if g.scalefac[i] < 0 then 0 else g.scalefac[i]
  {
    hide FieldBits, Get, AllFit, Partition, Width;
    NoWidth();
    if n > 0 {
      ReadScale2Back(g, n - 1, m, post);
      ScaleFields2Prefix(g, n, m);
      var p := Partition(g.sfbPartitionTable, n - 1);
      NextField(ScaleFields2(g, n - 1),
                Field(if g.scalefac[n - 1] < 0 then 0 else g.scalefac[n - 1], if p < 4 then g.slen[p] else 0),
                ScaleFields2(g, m), post);
    }
  }

  lemma ReadScaleBack(version: nat, g: GrInfo, scfsi: seq<nat>, post: seq<bool>)
    requires Scaled(version, g) && Telling(version, g, scfsi) && AllFit(ScaleFields(version, g))
    requires |g.tableSelect| == 3 && |g.subblockGain| >= 3 && 0 <= g.part23Length && 0 <= g.part2Length
    ensures ReadScale(version, GrSideOf(version, g), scfsi, FieldBits(ScaleFields(version, g)) + post)
         == (Scalefactors(version, g), Width(ScaleFields(version, g)))
  {
    hide FieldBits, AllFit, Width, ReadScale1, ReadScale2, LsfSlen, LsfTable, ScaleFields1, ScaleFields2;
    if version == 1 {
      ReadScale1Back(g, scfsi, g.sfbmax, g.sfbmax, post);
    } else {
      var n := PartitionTotal(g.sfbPartitionTable);
      ReadScale2Back(g, n, n, post);
      assert ReadScale2(FieldBits(ScaleFields2(g, n)) + post, g.slen, g.sfbPartitionTable, n).0
          == Scalefactors(version, g);
    }
  }

  // ----- a granule

  /** Read a granule from its bits. */
  function ReadGranule(version: nat, b: Bands, s: GrSide, scfsi: seq<nat>, bits: seq<bool>): Option<Decoded>
    requires Edges(b)
  {
    var (scalefac, at) := ReadScale(version, s, scfsi, bits);
    match ToldPlan(b, s)
    case None => None
    case Some(p) =>
      if at > |bits| then None
      else
        match DecodeSpectrum(p, 576, bits[at..])
        case None => None
        case Some(v) => Some(Decoded(s.globalGain, ReadPreflag(version, s), s.scalefacScale, scalefac, v))
  }

  lemma PreflagBack(version: nat, g: GrInfo, scfsi: seq<nat>)
    requires Scaled(version, g) && Telling(version, g, scfsi)
    requires |g.tableSelect| == 3 && |g.subblockGain| >= 3 && 0 <= g.part23Length && 0 <= g.part2Length
    ensures ReadPreflag(version, GrSideOf(version, g)) == Preflag(version, g)
  {
  }

  /** Whatever has been counted is read back: what decides the steps, every scalefactor, every quantized value and every
      sign. */
  lemma ReadGranuleBack(version: nat, b: Bands, g: GrInfo, scfsi: seq<nat>)
    requires Counted(version, b, g) && Telling(version, g, scfsi) && |g.subblockGain| >= 3
    ensures 0 <= g.part23Length && 0 <= g.part2Length
    ensures ReadGranule(version, b, GrSideOf(version, g), scfsi, GranuleBits(version, b, g))
         == Some(Decoded(g.globalGain, Preflag(version, g), g.scalefacScale,
                         Scalefactors(version, g), Signeds(g.l3Enc, g.neg, 0, 576)))
  {
    PreflagBack(version, g, scfsi);
    GranuleLength(version, b, g);
    hide FieldBits, AllFit, Narrow, Width, ReadScale, SpectrumBits, DecodeSpectrum, Codes, PlanOf, ToldPlan, Signeds;
    hide Scalefactors, Telling, ScaleFields;
    var fs, spectrum := FieldBits(ScaleFields(version, g)), SpectrumBits(PlanOf(b, g), g.l3Enc, g.neg);
    ReadScaleBack(version, g, scfsi, spectrum);
    PlanTold(version, b, g, 576, spectrum);
    SpectrumBack(PlanOf(b, g), g.l3Enc, g.neg);
    assert (fs + spectrum)[|fs|..] == spectrum;
  }
}

/** How the scalefactors of a granule are stored (scale_bitcount, scale_bitcount_lsf, scfsi_calc and
    best_scalefac_store of takehiro.c): with as few bits as the search finds, counted right, and such that a
    decoder quantizes every band that matters with the step the encoder chose. */
module Scalefac {
  import opened Bits
  import opened SideInfo
  import opened Granule
  import opened Decoder

  const LARGE_BITS := 100000

  /** pretab, table B.6 of ISO/IEC 11172-3. */
  function Pretab(sfb: nat): nat {
    match sfb
    case 11 => 1 case 12 => 1 case 13 => 1 case 14 => 1 case 15 => 2 case 16 => 2 case 17 => 3 case 18 => 3
    case 19 => 3 case 20 => 2 case _ => 0
  }

  // ----- what a scalefactor means

  /** By how much a band's step is refined: the part of the step in calc_noise that the scalefactors decide. */
  function Amp(v: int, sfb: nat, preflag: nat, scale: nat): int {
    (v + if preflag != 0 then Pretab(sfb) else 0) * (if scale != 0 then 4 else 2)
  }

  function BandStart(width: seq<nat>, sfb: nat): nat
    requires sfb <= |width|
  {
    if sfb == 0 then 0 else BandStart(width, sfb - 1) + width[sfb - 1]
  }

  /** The bands cover no more than the spectrum. */
  ghost predicate BandsOk(g: GrInfo) {
    && g.sfbmax <= SFBMAX == |g.scalefac| && g.sfbmax <= |g.width| && |g.l3Enc| == 576
    && BandStart(g.width, g.sfbmax) <= 576
  }

  lemma {:induction false} BandStartMonotone(width: seq<nat>, i: nat, j: nat)
    requires i <= j <= |width|
    ensures BandStart(width, i) <= BandStart(width, j)
    decreases j
  {
    if i < j { BandStartMonotone(width, i, j - 1); }
  }

  /** Nothing in the band is coded. */
  ghost predicate BandEmpty(g: GrInfo, sfb: nat)
    requires BandsOk(g) && sfb < g.sfbmax
  {
    forall k | BandStart(g.width, sfb) <= k < BandStart(g.width, sfb + 1) && k < 576 :: g.l3Enc[k] == 0
  }

  /** The scalefactor a decoder uses: a shared one is the first granule's. */
  function Effective(own: int, first: int): int { if own == -1 then first else own }

  /** The decoder's steps in `h` are those the encoder chose in `g` for every band that has something in it;
      `first` has the first granule's scalefactors. */
  ghost predicate StepsKept(g: GrInfo, h: GrInfo, first: seq<int>)
    requires BandsOk(g) && BandsOk(h) && g.sfbmax == h.sfbmax && |first| == SFBMAX
  {
    forall sfb | 0 <= sfb < g.sfbmax && !BandEmpty(g, sfb) ::
      Amp(Effective(h.scalefac[sfb], first[sfb]), sfb, h.preflag, h.scalefacScale)
      == Amp(g.scalefac[sfb], sfb, g.preflag, g.scalefacScale)
  }

  /** Only what stores the scalefactors may differ. */
  ghost predicate SameButStorage(g: GrInfo, h: GrInfo) {
    h == g.(scalefac := h.scalefac, preflag := h.preflag, scalefacScale := h.scalefacScale,
            scalefacCompress := h.scalefacCompress, part2Length := h.part2Length,
            slen := h.slen, sfbPartitionTable := h.sfbPartitionTable)
  }

  // ----- MPEG-1: lengths

  /** slen1_n and slen2_n: one more than the largest scalefactor of a length. */
  function Range1(compress: nat): nat { Pow2(Slen1(compress)) }

  function Range2(compress: nat): nat { Pow2(Slen2(compress)) }

  /** scale_short, scale_mixed and scale_long: the bits of all scalefactors. */
  function FullLength(divide: nat, max: nat, compress: nat): nat
    requires divide <= max
  {
    divide * Slen1(compress) + (max - divide) * Slen2(compress)
  }

  /** The two widths of `compress` hold the scalefactors. */
  ghost predicate Holds(scalefac: seq<int>, divide: nat, max: nat, compress: nat)
    requires divide <= max <= |scalefac|
  {
    && (forall i | 0 <= i < divide :: scalefac[i] < Range1(compress))
    && (forall i | divide <= i < max :: scalefac[i] < Range2(compress))
  }

  ghost predicate NonNegative(scalefac: seq<int>, max: nat)
    requires max <= |scalefac|
  {
    forall i | 0 <= i < max :: 0 <= scalefac[i]
  }

  function SlenN1(k: nat): nat {
    match k
    case 4 => 8 case 5 => 2 case 6 => 2 case 7 => 2 case 8 => 4 case 9 => 4 case 10 => 4 case 11 => 8
    case 12 => 8 case 13 => 8 case 14 => 16 case 15 => 16 case _ => 1
  }

  function SlenN2(k: nat): nat {
    match k
    case 1 => 2 case 2 => 4 case 3 => 8 case 5 => 2 case 6 => 4 case 7 => 8 case 8 => 2 case 9 => 4
    case 10 => 8 case 11 => 2 case 12 => 4 case 13 => 8 case 14 => 4 case 15 => 8 case _ => 1
  }

  /** scale_short, scale_mixed and scale_long */
  function ScaleTab(short: bool, mixed: bool, k: nat): nat {
    if short && mixed then
      match k
      case 0 => 0 case 1 => 18 case 2 => 36 case 3 => 54 case 4 => 51 case 5 => 35 case 6 => 53 case 7 => 71
      case 8 => 52 case 9 => 70 case 10 => 88 case 11 => 69 case 12 => 87 case 13 => 105 case 14 => 104 case _ => 122
    else if short then
      match k
      case 0 => 0 case 1 => 18 case 2 => 36 case 3 => 54 case 4 => 54 case 5 => 36 case 6 => 54 case 7 => 72
      case 8 => 54 case 9 => 72 case 10 => 90 case 11 => 72 case 12 => 90 case 13 => 108 case 14 => 108 case _ => 126
    else
      match k
      case 0 => 0 case 1 => 10 case 2 => 20 case 3 => 30 case 4 => 33 case 5 => 21 case 6 => 31 case 7 => 41
      case 8 => 32 case 9 => 42 case 10 => 52 case 11 => 43 case 12 => 53 case 13 => 63 case 14 => 64 case _ => 74
  }

  /** The tables of scale_bitcount are what they stand for. */
  lemma ScaleTables(k: nat)
    requires k < 16
    ensures SlenN1(k) == Range1(k) && SlenN2(k) == Range2(k)
    ensures ScaleTab(false, false, k) == ScaleTab(false, true, k) == FullLength(11, 21, k)
    ensures ScaleTab(true, false, k) == FullLength(18, 36, k) && ScaleTab(true, true, k) == FullLength(17, 35, k)
  {
    Pow2Small();
    hide Pow2;
  }

  /** How the granule's bands are divided between the two widths. */
  ghost predicate DividedBands(g: GrInfo) {
    (g.sfbdivide, g.sfbmax) == Divide(g.blockType, if g.blockType == SHORT_TYPE then g.mixedBlockFlag else 0)
  }

  /** The bands of `h` have the steps of `g`, and no larger scalefactors. */
  ghost predicate AmpsKept(g: GrInfo, h: GrInfo) {
    && |g.scalefac| == |h.scalefac| == SFBMAX && g.sfbmax <= SFBMAX
    && forall sfb | 0 <= sfb < g.sfbmax ::
         && h.scalefac[sfb] <= g.scalefac[sfb]
         && Amp(h.scalefac[sfb], sfb, h.preflag, h.scalefacScale)
             == Amp(g.scalefac[sfb], sfb, g.preflag, g.scalefacScale)
  }

  /** preflag and scalefac_scale are flags. */
  ghost predicate Flagged(g: GrInfo) { g.preflag < 2 && g.scalefacScale < 2 }

  ghost predicate AllHavePretab(scalefac: seq<int>)
    requires |scalefac| == SFBMAX
  {
    forall i | 11 <= i < 21 :: scalefac[i] >= Pretab(i)
  }

  /** The part of scale_bitcount that takes the pre-emphasis off where every band has it. */
  method TakePretab(s: GrState)
    requires |s.gi.scalefac| == SFBMAX && s.gi.sfbmax == 21 && NonNegative(s.gi.scalefac, 21) && s.gi.preflag == 0
    modifies s
    ensures s.gi == old(s.gi).(scalefac := s.gi.scalefac, preflag := s.gi.preflag)
    ensures |s.gi.scalefac| == SFBMAX && NonNegative(s.gi.scalefac, 21) && AmpsKept(old(s.gi), s.gi)
    ensures s.gi.scalefac[21..] == old(s.gi.scalefac[21..]) && s.gi.preflag < 2
    ensures if AllHavePretab(old(s.gi.scalefac)) then s.gi.preflag == 1 else s.gi == old(s.gi)
  {
    var sfb := 11;
    while sfb < 21
      invariant 11 <= sfb <= 21 && forall i | 11 <= i < sfb :: s.gi.scalefac[i] >= Pretab(i)
    {
      if s.gi.scalefac[sfb] < Pretab(sfb) { break; }
      sfb := sfb + 1;
    }
    if sfb == 21 {
      ghost var g := s.gi;
      s.gi := s.gi.(preflag := 1);
      for i := 11 to 21
        invariant s.gi == g.(scalefac := s.gi.scalefac, preflag := 1) && |s.gi.scalefac| == SFBMAX
        invariant forall k | 11 <= k < i :: s.gi.scalefac[k] == g.scalefac[k] - Pretab(k)
        invariant forall k | 0 <= k < SFBMAX && !(11 <= k < i) :: s.gi.scalefac[k] == g.scalefac[k]
      {
        s.gi := s.gi.(scalefac := s.gi.scalefac[i := s.gi.scalefac[i] - Pretab(i)]);
      }
      forall k | 0 <= k < 21
        ensures Amp(s.gi.scalefac[k], k, 1, g.scalefacScale) == Amp(g.scalefac[k], k, 0, g.scalefacScale)
      {
        assert !(11 <= k) ==> Pretab(k) == 0;
      }
    }
  }

  method MaxOf(a: seq<int>, from: nat, to: nat) returns (max: nat)
    requires from <= to <= |a|
    ensures forall i | from <= i < to :: a[i] <= max
    ensures max > 0 ==> exists i | from <= i < to :: a[i] == max
  {
    max := 0;
    for i := from to to
      invariant forall k | from <= k < i :: a[k] <= max
      invariant max > 0 ==> exists k | from <= k < i :: a[k] == max
    {
      if max < a[i] { max := a[i]; }
    }
  }

  /** scale_bitcount: the cheapest widths that hold the scalefactors; true if none do. */
  method ScaleBitcount(s: GrState) returns (over: bool)
    requires |s.gi.scalefac| == SFBMAX && DividedBands(s.gi) && NonNegative(s.gi.scalefac, s.gi.sfbmax)
    modifies s
    ensures SameButStorage(old(s.gi), s.gi) && s.gi.scalefacScale == old(s.gi.scalefacScale)
    ensures s.gi.slen == old(s.gi.slen) && s.gi.sfbPartitionTable == old(s.gi.sfbPartitionTable)
    ensures AmpsKept(old(s.gi), s.gi) && NonNegative(s.gi.scalefac, s.gi.sfbmax)
    ensures s.gi.scalefac[s.gi.sfbmax..] == old(s.gi.scalefac[s.gi.sfbmax..])
    ensures if s.gi.blockType != SHORT_TYPE && old(s.gi.preflag) == 0 && AllHavePretab(old(s.gi.scalefac))
            then s.gi.preflag == 1 else s.gi.preflag == old(s.gi.preflag) && s.gi.scalefac == old(s.gi.scalefac)
    ensures Flagged(old(s.gi)) ==> Flagged(s.gi)
    ensures over <==> forall k | 0 <= k < 16 :: !Holds(s.gi.scalefac, s.gi.sfbdivide, s.gi.sfbmax, k)
    ensures !over ==>
      && s.gi.scalefacCompress < 16 && Holds(s.gi.scalefac, s.gi.sfbdivide, s.gi.sfbmax, s.gi.scalefacCompress)
      && s.gi.part2Length == FullLength(s.gi.sfbdivide, s.gi.sfbmax, s.gi.scalefacCompress)
    ensures !over ==> forall k | 0 <= k < 16 && Holds(s.gi.scalefac, s.gi.sfbdivide, s.gi.sfbmax, k) ::
      s.gi.part2Length <= FullLength(s.gi.sfbdivide, s.gi.sfbmax, k)
  {
    hide FullLength, Range1, Range2, SlenN1, SlenN2, ScaleTab, Pretab, AllHavePretab;
    var short, mixed := s.gi.blockType == SHORT_TYPE, s.gi.mixedBlockFlag != 0;
    if !short && s.gi.preflag == 0 {
      TakePretab(s);
    }
    ghost var a, d, m := s.gi.scalefac, s.gi.sfbdivide, s.gi.sfbmax;
    var maxSlen1 := MaxOf(s.gi.scalefac, 0, s.gi.sfbdivide);
    var maxSlen2 := MaxOf(s.gi.scalefac, s.gi.sfbdivide, s.gi.sfbmax);
    s.gi := s.gi.(part2Length := LARGE_BITS);
    ghost var g := s.gi;
    for k := 0 to 16
      invariant s.gi == g.(part2Length := s.gi.part2Length, scalefacCompress := s.gi.scalefacCompress)
      invariant s.gi.part2Length == LARGE_BITS ==> forall i | 0 <= i < k :: !Holds(a, d, m, i)
      invariant s.gi.part2Length != LARGE_BITS ==>
        && s.gi.scalefacCompress < k && Holds(a, d, m, s.gi.scalefacCompress)
        && s.gi.part2Length == FullLength(d, m, s.gi.scalefacCompress)
        && forall i | 0 <= i < k && Holds(a, d, m, i) :: s.gi.part2Length <= FullLength(d, m, i)
    {
      ScaleTables(k);
      TabSmall(short, mixed, k);
      HoldsByMax(a, d, m, k, maxSlen1, maxSlen2);
      if maxSlen1 < SlenN1(k) && maxSlen2 < SlenN2(k) && s.gi.part2Length > ScaleTab(short, mixed, k) {
        s.gi := s.gi.(part2Length := ScaleTab(short, mixed, k), scalefacCompress := k);
      }
    }
    over := s.gi.part2Length == LARGE_BITS;
  }

  lemma TabSmall(short: bool, mixed: bool, k: nat)
    ensures ScaleTab(short, mixed, k) < LARGE_BITS
  {
  }

  lemma HoldsByMax(a: seq<int>, d: nat, m: nat, k: nat, max1: nat, max2: nat)
    requires d <= m <= |a|
    requires (forall i | 0 <= i < d :: a[i] <= max1) && (max1 > 0 ==> exists i | 0 <= i < d :: a[i] == max1)
    requires (forall i | d <= i < m :: a[i] <= max2) && (max2 > 0 ==> exists i | d <= i < m :: a[i] == max2)
    ensures Holds(a, d, m, k) <==> max1 < Range1(k) && max2 < Range2(k)
  {
    hide Pow2;
  }

  // ----- MPEG-2

  /** max_range_sfac_tab, for the tables used without intensity stereo. */
  function MaxRange(preflag: nat, p: nat): nat {
    if preflag != 0 then match p { case 0 => 7 case 1 => 3 case _ => 0 }
    else match p { case 0 => 15 case 1 => 15 case _ => 7 }
  }

  /** log2tab */
  function Log2Tab(m: nat): nat {
    if m == 0 then 0 else if m == 1 then 1 else if m <= 3 then 2 else if m <= 7 then 3 else 4
  }

  lemma Log2Fits(m: nat)
    requires m <= 15
    ensures m < Pow2(Log2Tab(m)) && (m > 0 ==> Pow2(Log2Tab(m) - 1) <= m)
  {
    Pow2Small();
    hide Pow2;
  }

  /** The rows of nr_of_sfb_block that scale_bitcount_lsf uses. */
  function SfbBlock(preflag: nat, short: bool): (r: seq<nat>)
    ensures |r| == 4
  {
    if preflag != 0 then (if short then [18, 18, 0, 0] else [11, 10, 0, 0])
    else if short then [9, 9, 9, 9] else [6, 5, 5, 5]
  }

  lemma PartitionRange(table: seq<nat>, k: nat)
    requires |table| == 4 && k < PartitionTotal(table)
    ensures Partition(table, k) < 4
    ensures PartitionStart(table, Partition(table, k)) <= k < PartitionStart(table, Partition(table, k) + 1)
    ensures PartitionStart(table, 4) == PartitionTotal(table)
  {
  }

  /** The partitions' widths hold the scalefactors. */
  ghost predicate HoldsLsf(scalefac: seq<int>, table: seq<nat>, slen: seq<nat>)
    requires |table| == |slen| == 4 && PartitionTotal(table) <= |scalefac|
  {
    forall k | 0 <= k < PartitionTotal(table) :: PartitionFits(scalefac[k], slen, Partition(table, k))
  }

  predicate PartitionFits(v: int, slen: seq<nat>, p: nat)
    requires |slen| == 4
  {
    p < 4 && v < Pow2(slen[p])
  }

  /** No scalefactor is beyond its partition's range. */
  ghost predicate InRange(scalefac: seq<int>, preflag: nat, short: bool)
    requires PartitionTotal(SfbBlock(preflag, short)) <= |scalefac|
  {
    forall k | 0 <= k < PartitionTotal(SfbBlock(preflag, short)) ::
      scalefac[k] <= MaxRange(preflag, Partition(SfbBlock(preflag, short), k))
  }

  function LsfLength(table: seq<nat>, slen: seq<nat>): nat
    requires |table| == |slen| == 4
  {
    slen[0] * table[0] + slen[1] * table[1] + slen[2] * table[2] + slen[3] * table[3]
  }

  /** The largest scalefactor of each partition; those of a band's three windows lie side by side. */
  method PartitionMaxima(scalefac: seq<int>, table: seq<nat>) returns (max: seq<nat>)
    requires |table| == 4 && PartitionTotal(table) <= |scalefac|
    ensures |max| == 4
    ensures forall k | 0 <= k < PartitionTotal(table) ::
      Partition(table, k) < 4 && scalefac[k] <= max[Partition(table, k)]
    ensures forall p | 0 <= p < 4 :: max[p] > 0 ==> Attained(scalefac, table, p, max[p])
  {
    hide Partition;
    max := [];
    var sfb := 0;
    for p := 0 to 4
      invariant sfb == PartitionStart(table, p) && |max| == p
      invariant forall q | 0 <= q < p :: Covers(scalefac, table, q, max[q])
    {
      PartBounds(table, p);
      var m := MaxOf(scalefac, sfb, sfb + table[p]);
      max := max + [m];
      sfb := sfb + table[p];
    }
    forall k | 0 <= k < PartitionTotal(table)
      ensures Partition(table, k) < 4 && scalefac[k] <= max[Partition(table, k)]
    {
      PartitionRange(table, k);
      assert Covers(scalefac, table, Partition(table, k), max[Partition(table, k)]);
    }
    forall p | 0 <= p < 4 && max[p] > 0
      ensures Attained(scalefac, table, p, max[p])
    {
      assert Covers(scalefac, table, p, max[p]);
      PartitionAttains(scalefac, table, p, max[p]);
    }
  }

  ghost predicate Attained(scalefac: seq<int>, table: seq<nat>, p: nat, m: nat)
    requires |table| == 4 && PartitionTotal(table) <= |scalefac|
  {
    exists k | 0 <= k < PartitionTotal(table) :: Partition(table, k) == p && scalefac[k] == m
  }

  ghost predicate Covers(scalefac: seq<int>, table: seq<nat>, p: nat, m: nat)
    requires |table| == 4 && PartitionTotal(table) <= |scalefac| && p < 4
  {
    PartBounds(table, p);
    && (forall k | PartitionStart(table, p) <= k < PartitionStart(table, p + 1) :: scalefac[k] <= m)
    && (m > 0 ==> exists k | PartitionStart(table, p) <= k < PartitionStart(table, p + 1) :: scalefac[k] == m)
  }

  lemma PartBounds(table: seq<nat>, p: nat)
    requires |table| == 4 && p < 4
    ensures PartitionStart(table, p) + table[p] == PartitionStart(table, p + 1) <= PartitionTotal(table)
  {
  }

  lemma PartitionAttains(scalefac: seq<int>, table: seq<nat>, p: nat, m: nat)
    requires |table| == 4 && PartitionTotal(table) <= |scalefac| && p < 4 && m > 0 && Covers(scalefac, table, p, m)
    ensures Attained(scalefac, table, p, m)
  {
    PartBounds(table, p);
    var k :| PartitionStart(table, p) <= k < PartitionStart(table, p + 1) && scalefac[k] == m;
    PartitionOf(table, p, k);
  }

  lemma PartitionOf(table: seq<nat>, p: nat, k: nat)
    requires |table| == 4 && p < 4 && PartitionStart(table, p) <= k < PartitionStart(table, p + 1)
    ensures Partition(table, k) == p
  {
  }

  /** scale_bitcount_lsf: the number of partitions beyond their range; if there are none, the widths that
      scalefac_compress stands for. */
  method ScaleBitcountLsf(s: GrState) returns (over: nat)
    requires |s.gi.scalefac| == SFBMAX
    modifies s
    ensures s.gi == old(s.gi).(slen := s.gi.slen, sfbPartitionTable := s.gi.sfbPartitionTable,
                               scalefacCompress := s.gi.scalefacCompress, part2Length := s.gi.part2Length)
    ensures over == 0 <==> InRange(s.gi.scalefac, s.gi.preflag, s.gi.blockType == SHORT_TYPE)
    ensures over > 0 ==> s.gi == old(s.gi)
    ensures over == 0 ==>
      && s.gi.scalefacCompress < 512 && s.gi.slen == LsfSlen(s.gi.scalefacCompress)
      && s.gi.sfbPartitionTable == LsfTable(s.gi.scalefacCompress, s.gi.blockType, 0)
      && s.gi.sfbPartitionTable == SfbBlock(s.gi.preflag, s.gi.blockType == SHORT_TYPE)
      && PartitionTotal(s.gi.sfbPartitionTable) <= SFBMAX
      && HoldsLsf(s.gi.scalefac, s.gi.sfbPartitionTable, s.gi.slen)
      && s.gi.part2Length == LsfLength(s.gi.sfbPartitionTable, s.gi.slen)
    ensures over == 0 ==> forall slen | |slen| == 4 && HoldsLsf(s.gi.scalefac, s.gi.sfbPartitionTable, slen) ::
      s.gi.part2Length <= LsfLength(s.gi.sfbPartitionTable, slen)
  {
    hide Partition, Log2Tab, LsfLength;
    var table := SfbBlock(s.gi.preflag, s.gi.blockType == SHORT_TYPE);
    var maxSfac := PartitionMaxima(s.gi.scalefac, table);
    over := 0;
    for p := 0 to 4
      invariant over == 0 <==> forall q | 0 <= q < p :: maxSfac[q] <= MaxRange(s.gi.preflag, q)
    {
      if maxSfac[p] > MaxRange(s.gi.preflag, p) { over := over + 1; }
    }
    RangeByMax(s.gi.scalefac, s.gi.preflag, s.gi.blockType == SHORT_TYPE, table, maxSfac);
    if over == 0 {
      var slen := [Log2Tab(maxSfac[0]), Log2Tab(maxSfac[1]), Log2Tab(maxSfac[2]), Log2Tab(maxSfac[3])];
      var compress := if s.gi.preflag != 0 then 500 + slen[0] * 3 + slen[1]
                      else (slen[0] * 5 + slen[1]) * 16 + slen[2] * 4 + slen[3];
      CompressTells(s.gi.preflag, maxSfac, slen, compress, s.gi.blockType);
      FitsByMax(s.gi.scalefac, table, maxSfac, slen);
      forall other: seq<nat> | |other| == 4 && HoldsLsf(s.gi.scalefac, table, other)
        ensures LsfLength(table, slen) <= LsfLength(table, other)
      {
        LeastByMax(s.gi.scalefac, table, maxSfac, slen, other);
      }
      s.gi := s.gi.(sfbPartitionTable := table, slen := slen, scalefacCompress := compress,
                    part2Length := LsfLength(table, slen));
    }
  }

  lemma RangeByMax(scalefac: seq<int>, preflag: nat, short: bool, table: seq<nat>, max: seq<nat>)
    requires table == SfbBlock(preflag, short) && PartitionTotal(table) <= |scalefac| && |max| == 4
    requires forall k | 0 <= k < PartitionTotal(table) ::
      Partition(table, k) < 4 && scalefac[k] <= max[Partition(table, k)]
    requires forall p | 0 <= p < 4 :: max[p] > 0 ==> Attained(scalefac, table, p, max[p])
    ensures InRange(scalefac, preflag, short) <==> forall p | 0 <= p < 4 :: max[p] <= MaxRange(preflag, p)
  {
    hide Partition, SfbBlock;
    if InRange(scalefac, preflag, short) {
      forall p | 0 <= p < 4
        ensures max[p] <= MaxRange(preflag, p)
      {
        if max[p] > 0 {
          assert Attained(scalefac, table, p, max[p]);
        }
      }
    }
  }

  /** A reader finds the widths and the table in scalefac_compress. */
  lemma CompressTells(preflag: nat, max: seq<nat>, slen: seq<nat>, compress: nat, blockType: nat)
    requires |max| == 4 && forall p | 0 <= p < 4 :: max[p] <= MaxRange(preflag, p)
    requires slen == [Log2Tab(max[0]), Log2Tab(max[1]), Log2Tab(max[2]), Log2Tab(max[3])]
    requires compress == if preflag != 0 then 500 + slen[0] * 3 + slen[1]
                         else (slen[0] * 5 + slen[1]) * 16 + slen[2] * 4 + slen[3]
    ensures compress < 512 && LsfSlen(compress) == slen
    ensures LsfTable(compress, blockType, 0) == SfbBlock(preflag, blockType == SHORT_TYPE)
  {
    assert max[0] <= MaxRange(preflag, 0) && max[1] <= MaxRange(preflag, 1);
    assert max[2] <= MaxRange(preflag, 2) && max[3] <= MaxRange(preflag, 3);
    Log2Range(max[0]);
    Log2Range(max[1]);
    Log2Range(max[2]);
    Log2Range(max[3]);
    hide Log2Tab;
    if preflag != 0 { Digits2(slen[0], slen[1]); } else { Digits4(slen[0], slen[1], slen[2], slen[3]); }
  }

  lemma Log2Range(m: nat)
    ensures Log2Tab(m) <= 4 && (m <= 7 ==> Log2Tab(m) <= 3) && (m <= 3 ==> Log2Tab(m) <= 2)
        && (m == 0 ==> Log2Tab(m) == 0)
  {
  }

  lemma Digits2(a: nat, b: nat)
    requires a <= 3 && b <= 2
    ensures var c := 500 + a * 3 + b; c < 512 && (c - 500) / 3 == a && (c - 500) % 3 == b
  {
  }

  lemma Digits4(a: nat, b: nat, d: nat, e: nat)
    requires a <= 4 && b <= 4 && d <= 3 && e <= 3
    ensures var c := (a * 5 + b) * 16 + d * 4 + e;
      c < 400 && c / 16 / 5 == a && c / 16 % 5 == b && c % 16 / 4 == d && c % 4 == e
  {
    assert ((a * 5 + b) * 16 + d * 4 + e) / 16 == a * 5 + b;
  }

  lemma FitsByMax(scalefac: seq<int>, table: seq<nat>, max: seq<nat>, slen: seq<nat>)
    requires |table| == |max| == 4 && PartitionTotal(table) <= |scalefac|
    requires forall p | 0 <= p < 4 :: max[p] <= 15
    requires slen == [Log2Tab(max[0]), Log2Tab(max[1]), Log2Tab(max[2]), Log2Tab(max[3])]
    requires forall k | 0 <= k < PartitionTotal(table) ::
      Partition(table, k) < 4 && scalefac[k] <= max[Partition(table, k)]
    ensures HoldsLsf(scalefac, table, slen)
  {
    hide Partition, Log2Tab, Pow2;
    forall k | 0 <= k < PartitionTotal(table)
      ensures PartitionFits(scalefac[k], slen, Partition(table, k))
    {
      var p := Partition(table, k);
      assert max[p] <= 15;
      Log2Fits(max[p]);
      assert slen[p] == Log2Tab(max[p]);
    }
  }

  /** No narrower widths would hold the scalefactors. */
  lemma LeastByMax(scalefac: seq<int>, table: seq<nat>, max: seq<nat>, slen: seq<nat>, other: seq<nat>)
    requires |table| == |max| == |other| == 4 && PartitionTotal(table) <= |scalefac|
    requires slen == [Log2Tab(max[0]), Log2Tab(max[1]), Log2Tab(max[2]), Log2Tab(max[3])]
    requires forall p | 0 <= p < 4 :: max[p] > 0 ==> Attained(scalefac, table, p, max[p])
    requires HoldsLsf(scalefac, table, other) && forall p | 0 <= p < 4 :: max[p] <= 15
    ensures LsfLength(table, slen) <= LsfLength(table, other)
  {
    hide Partition, Log2Tab, Pow2;
    forall p | 0 <= p < 4
      ensures slen[p] <= other[p]
    {
      assert slen[p] == Log2Tab(max[p]) && max[p] <= 15;
      Log2Fits(max[p]);
      Log2Zero();
      if max[p] > 0 {
        var k :| 0 <= k < PartitionTotal(table) && Partition(table, k) == p && scalefac[k] == max[p];
        assert PartitionFits(scalefac[k], other, Partition(table, k));
        if other[p] < slen[p] { Pow2Monotone(other[p], slen[p] - 1); }
      }
    }
    MulMonotone(slen[0], other[0], table[0]);
    MulMonotone(slen[1], other[1], table[1]);
    MulMonotone(slen[2], other[2], table[2]);
    MulMonotone(slen[3], other[3], table[3]);
  }

  lemma Log2Zero()
    ensures Log2Tab(0) == 0
  {
  }

  // ----- scfsi_calc

  /** The bands that one sharing flag is for. */
  function ScfsiBand(i: nat): nat {
    match i
    case 0 => 0 case 1 => 6 case 2 => 11 case 3 => 16 case _ => 21
  }

  /** How many of the scalefactors from `a` up to `b` are not shared. */
  function Own(scalefac: seq<int>, a: nat, b: nat): nat
    requires a <= b && b <= |scalefac|
    decreases b
  {
    if a == b then 0 else Own(scalefac, a, b - 1) + (if scalefac[b - 1] == -1 then 0 else 1)
  }

  /** The bits of the scalefactors that are not shared. */
  function OwnLength(scalefac: seq<int>, k: nat): nat
    requires |scalefac| == SFBMAX
  {
    Slen1(k) * Own(scalefac, 0, 11) + Slen2(k) * Own(scalefac, 11, 21)
  }

  /** The scalefactors of `h` are those of `g` but for the groups marked in `scfsi`, in which each of them is the
      first granule's or was of no account. */
  ghost predicate SharedWith(first: seq<int>, g: seq<int>, h: seq<int>, scfsi: seq<nat>, groups: nat)
    requires |first| == |g| == |h| == SFBMAX && |scfsi| == 4
  {
    forall i | 0 <= i < SFBMAX ::
      if i < ScfsiBand(groups) && Shared(scfsi, i) then h[i] == -1 && (g[i] < 0 || g[i] == first[i])
      else h[i] == g[i]
  }

  lemma OwnAtMost(scalefac: seq<int>, a: nat, b: nat)
    requires a <= b && b <= |scalefac|
    ensures Own(scalefac, a, b) <= b - a
    ensures (forall i | a <= i < b :: scalefac[i] != -1) ==> Own(scalefac, a, b) == b - a
    decreases b
  {
    if a < b { OwnAtMost(scalefac, a, b - 1); }
  }

  /** The largest scalefactor that is not shared, and how many there are. */
  method CountOwn(scalefac: seq<int>, a: nat, b: nat) returns (max: nat, count: nat)
    requires a <= b && b <= |scalefac|
    ensures count == Own(scalefac, a, b)
    ensures forall i | a <= i < b :: scalefac[i] <= max
    ensures max > 0 ==> exists i | a <= i < b :: scalefac[i] == max
  {
    max, count := 0, 0;
    var sfb := a;
    while sfb < b
      invariant a <= sfb <= b && count == Own(scalefac, a, sfb)
      invariant forall i | a <= i < sfb :: scalefac[i] <= max
      invariant max > 0 ==> exists i | a <= i < sfb :: scalefac[i] == max
    {
      if scalefac[sfb] != -1 {
        count := count + 1;
        if max < scalefac[sfb] { max := scalefac[sfb]; }
      }
      sfb := sfb + 1;
    }
  }

  /** The group has a scalefactor that is not the first granule's. */
  ghost predicate Differs(a: seq<int>, first: seq<int>, i: nat)
    requires |a| == |first| == SFBMAX && i < 4
  {
    exists k | ScfsiBand(i) <= k < ScfsiBand(i + 1) :: a[k] >= 0 && a[k] != first[k]
  }

  /** No widths that hold the scalefactors which are not shared take fewer bits. */
  ghost predicate LeastOwn(scalefac: seq<int>, bits: int)
    requires |scalefac| == SFBMAX
  {
    forall k | 0 <= k < 16 && Holds(scalefac, 11, 21, k) :: bits <= OwnLength(scalefac, k)
  }

  lemma StillDiffers(first: seq<int>, g: seq<int>, a: seq<int>, scfsi: seq<nat>, i: nat)
    requires |first| == |g| == |a| == SFBMAX && |scfsi| == 4 && i < 4
    requires SharedWith(first, g, a, scfsi, i) && Differs(a, first, i)
    ensures Differs(g, first, i)
  {
    var k :| ScfsiBand(i) <= k < ScfsiBand(i + 1) && a[k] >= 0 && a[k] != first[k];
    assert g[k] == a[k];
  }

  /** One group of scfsi_calc: shared if every scalefactor is the first granule's or of no account. */
  method ShareGroup(a: seq<int>, first: seq<int>, i: nat) returns (b: seq<int>, flag: nat)
    requires |a| == |first| == SFBMAX && i < 4
    ensures |b| == SFBMAX && flag < 2
    ensures forall k | 0 <= k < SFBMAX ::
      if ScfsiBand(i) <= k < ScfsiBand(i + 1) && flag == 1 then b[k] == -1
          && (a[k] < 0 || a[k] == first[k]) else b[k] == a[k]
    ensures flag == 0 ==> Differs(a, first, i)
  {
    var from, end := ScfsiBand(i), ScfsiBand(i + 1);
    b, flag := a, 0;
    var sfb := from;
    while sfb < end
      invariant from <= sfb <= end && forall k | from <= k < sfb :: a[k] < 0 || a[k] == first[k]
    {
      if first[sfb] != a[sfb] && a[sfb] >= 0 { break; }
      sfb := sfb + 1;
    }
    if sfb == end {
      for k := from to end
        invariant |b| == SFBMAX
        invariant forall j | 0 <= j < SFBMAX :: b[j] == if from <= j < k then -1 else a[j]
      {
        b := b[k := -1];
      }
      flag := 1;
    }
  }

  lemma SharedExtend(first: seq<int>, g: seq<int>, a: seq<int>, b: seq<int>, scfsi: seq<nat>, i: nat, flag: nat)
    requires |first| == |g| == |a| == |b| == SFBMAX && |scfsi| == 4 && i < 4 && flag < 2
    requires SharedWith(first, g, a, scfsi, i)
    requires forall k | 0 <= k < SFBMAX ::
      if ScfsiBand(i) <= k < ScfsiBand(i + 1) && flag == 1 then b[k] == -1
          && (a[k] < 0 || a[k] == first[k]) else b[k] == a[k]
    ensures SharedWith(first, g, b, scfsi[i := flag], i + 1)
  {
  }

  /** scfsi_calc: groups are shared with the first granule where that changes nothing, and the widths are chosen
      for what is left. */
  method ScfsiCalc(s: GrState, first: seq<int>) returns (scfsi: seq<nat>)
    requires |s.gi.scalefac| == |first| == SFBMAX && s.gi.scalefacCompress < 16
    requires Holds(s.gi.scalefac, 11, 21, s.gi.scalefacCompress)
    requires s.gi.part2Length == FullLength(11, 21, s.gi.scalefacCompress)
    modifies s
    ensures s.gi == old(s.gi).(scalefac := s.gi.scalefac, scalefacCompress := s.gi.scalefacCompress,
        part2Length := s.gi.part2Length)
    ensures |s.gi.scalefac| == SFBMAX && |scfsi| == 4 && forall i | 0 <= i < 4 :: scfsi[i] < 2
    ensures SharedWith(first, old(s.gi.scalefac), s.gi.scalefac, scfsi, 4)
    ensures s.gi.scalefacCompress < 16 && Holds(s.gi.scalefac, 11, 21, s.gi.scalefacCompress)
    ensures s.gi.part2Length == OwnLength(s.gi.scalefac, s.gi.scalefacCompress)
    ensures s.gi.part2Length <= old(s.gi.part2Length)
    ensures forall i | 0 <= i < 4 && scfsi[i] == 0 :: Differs(old(s.gi.scalefac), first, i)
    ensures LeastOwn(s.gi.scalefac, s.gi.part2Length)
  {
    hide Slen1, Slen2, SlenN1, SlenN2, Range1, Range2, FullLength, OwnLength, ScfsiBand, Shared, SharedWith, Differs;
    ghost var g := s.gi;
    scfsi := [0, 0, 0, 0];
    NothingShared(first, g.scalefac);
    for i := 0 to 4
      invariant s.gi == g.(scalefac := s.gi.scalefac) && |s.gi.scalefac| == SFBMAX
      invariant |scfsi| == 4 && (forall k | 0 <= k < 4 :: scfsi[k] < 2) && forall k | i <= k < 4 :: scfsi[k] == 0
      invariant SharedWith(first, g.scalefac, s.gi.scalefac, scfsi, i)
      invariant forall k | 0 <= k < i && scfsi[k] == 0 :: Differs(g.scalefac, first, k)
    {
      var b, flag := ShareGroup(s.gi.scalefac, first, i);
      if flag == 0 { StillDiffers(first, g.scalefac, s.gi.scalefac, scfsi, i); }
      SharedExtend(first, g.scalefac, s.gi.scalefac, b, scfsi, i, flag);
      scfsi := scfsi[i := flag];
      s.gi := s.gi.(scalefac := b);
    }
    SharedHolds(first, g.scalefac, s.gi.scalefac, scfsi, g.scalefacCompress);
    ChooseWidths(s);
  }

  /** The last loop of scfsi_calc: the cheapest widths for what is not shared. */
  method ChooseWidths(s: GrState)
    requires |s.gi.scalefac| == SFBMAX && s.gi.scalefacCompress < 16
    requires Holds(s.gi.scalefac, 11, 21, s.gi.scalefacCompress)
    requires s.gi.part2Length == FullLength(11, 21, s.gi.scalefacCompress)
    modifies s
    ensures s.gi == old(s.gi).(scalefacCompress := s.gi.scalefacCompress, part2Length := s.gi.part2Length)
    ensures s.gi.scalefacCompress < 16 && Holds(s.gi.scalefac, 11, 21, s.gi.scalefacCompress)
    ensures s.gi.part2Length == OwnLength(s.gi.scalefac, s.gi.scalefacCompress)
    ensures s.gi.part2Length <= old(s.gi.part2Length) && LeastOwn(s.gi.scalefac, s.gi.part2Length)
  {
    hide Slen1, Slen2, SlenN1, SlenN2, Range1, Range2, FullLength, OwnLength, Holds;
    ghost var g := s.gi;
    var s1, c1 := CountOwn(s.gi.scalefac, 0, 11);
    var s2, c2 := CountOwn(s.gi.scalefac, 11, 21);
    OwnNoMore(s.gi.scalefac, g.scalefacCompress);
    ghost var a, h, k0, updated := s.gi.scalefac, s.gi, g.scalefacCompress, false;
    for k := 0 to 16
      invariant s.gi == h.(scalefacCompress := s.gi.scalefacCompress, part2Length := s.gi.part2Length)
      invariant s.gi.scalefacCompress < 16 && Holds(a, 11, 21, s.gi.scalefacCompress)
      invariant s.gi.part2Length <= g.part2Length
      invariant updated ==> s.gi.part2Length == OwnLength(a, s.gi.scalefacCompress)
      invariant !updated ==> s.gi.part2Length == g.part2Length && s.gi.scalefacCompress == k0
      invariant k > k0 ==> s.gi.part2Length <= OwnLength(a, k0)
      invariant forall i | 0 <= i < k && Holds(a, 11, 21, i) :: s.gi.part2Length <= OwnLength(a, i)
    {
      ScaleTables(k);
      HoldsByMax(a, 11, 21, k, s1, s2);
      if s1 < SlenN1(k) && s2 < SlenN2(k) {
        var c := Slen1(k) * c1 + Slen2(k) * c2;
        OwnLengthIs(a, k);
        if s.gi.part2Length > c {
          s.gi := s.gi.(part2Length := c, scalefacCompress := k);
          updated := true;
        }
      }
    }
  }

  lemma OwnLengthIs(a: seq<int>, k: nat)
    requires |a| == SFBMAX
    ensures OwnLength(a, k) == Slen1(k) * Own(a, 0, 11) + Slen2(k) * Own(a, 11, 21)
  {
    hide Slen1, Slen2, Own;
  }

  lemma OwnNoMore(a: seq<int>, k: nat)
    requires |a| == SFBMAX
    ensures OwnLength(a, k) <= FullLength(11, 21, k)
  {
    hide Slen1, Slen2, Own;
    OwnAtMost(a, 0, 11);
    OwnAtMost(a, 11, 21);
    MulMonotone(Own(a, 0, 11), 11, Slen1(k));
    MulMonotone(Own(a, 11, 21), 10, Slen2(k));
  }

  lemma NothingShared(first: seq<int>, g: seq<int>)
    requires |first| == |g| == SFBMAX
    ensures SharedWith(first, g, g, [0, 0, 0, 0], 0)
  {
  }

  lemma SharedHolds(first: seq<int>, g: seq<int>, h: seq<int>, scfsi: seq<nat>, k: nat)
    requires |first| == |g| == |h| == SFBMAX && |scfsi| == 4 && SharedWith(first, g, h, scfsi, 4)
    requires Holds(g, 11, 21, k)
    ensures Holds(h, 11, 21, k)
  {
    hide Pow2, Slen1, Slen2, Shared;
  }

  // ----- best_scalefac_store

  /** Where `h` stands on the way from `g`: -2 marks a band in which nothing is coded; every other band has its
      step, with no larger a scalefactor. */
  ghost predicate Tracks(g: GrInfo, h: GrInfo)
    requires BandsOk(g)
  {
    && SameButStorage(g, h) && |h.scalefac| == SFBMAX
    && (forall i | g.sfbmax <= i < SFBMAX :: h.scalefac[i] == g.scalefac[i])
    && forall sfb | 0 <= sfb < g.sfbmax :: TracksBand(g, h, sfb)
  }

  ghost predicate TracksBand(g: GrInfo, h: GrInfo, sfb: nat)
    requires BandsOk(g) && sfb < g.sfbmax && |h.scalefac| == SFBMAX
  {
    && h.scalefac[sfb] <= g.scalefac[sfb]
    && if BandEmpty(g, sfb) then h.scalefac[sfb] == -2
       else 0 <= h.scalefac[sfb]
            && Amp(h.scalefac[sfb], sfb, h.preflag, h.scalefacScale)
                == Amp(g.scalefac[sfb], sfb, g.preflag, g.scalefacScale)
  }

  method AllZero(ix: seq<nat>, from: nat, end: nat) returns (zero: bool)
    requires from <= end && end <= |ix|
    ensures zero <==> forall k | from <= k < end :: ix[k] == 0
  {
    var l := from;
    while l < end
      invariant from <= l <= end && forall k | from <= k < l :: ix[k] == 0
    {
      if ix[l] != 0 { return false; }
      l := l + 1;
    }
    zero := true;
  }

  /** Nothing is coded in one of the first `n` bands. */
  ghost predicate AnyEmpty(g: GrInfo, n: nat)
    requires BandsOk(g) && n <= g.sfbmax
  {
    exists sfb | 0 <= sfb < n :: BandEmpty(g, sfb)
  }

  lemma EmptyIf(g: GrInfo, sfb: nat, zero: bool)
    requires BandsOk(g) && sfb < g.sfbmax && BandStart(g.width, sfb + 1) <= 576
    requires zero <==>
      forall k | BandStart(g.width, sfb) <= k < BandStart(g.width, sfb) + g.width[sfb] :: g.l3Enc[k] == 0
    ensures zero <==> BandEmpty(g, sfb)
  {
  }

  /** Bands in which nothing is coded are marked. */
  method MarkEmpty(s: GrState) returns (any: bool)
    requires BandsOk(s.gi) && NonNegative(s.gi.scalefac, s.gi.sfbmax)
    modifies s
    ensures s.gi == old(s.gi).(scalefac := s.gi.scalefac) && Tracks(old(s.gi), s.gi)
    ensures !any ==> s.gi == old(s.gi)
    ensures any <==> AnyEmpty(old(s.gi), old(s.gi.sfbmax))
    ensures |s.gi.scalefac| == SFBMAX && forall sfb | 0 <= sfb < s.gi.sfbmax ::
      s.gi.scalefac[sfb] == if BandEmpty(old(s.gi), sfb) then -2 else old(s.gi.scalefac[sfb])
  {
    hide BandEmpty, Amp;
    ghost var g := s.gi;
    any := false;
    var j := 0;
    for sfb := 0 to s.gi.sfbmax
      invariant s.gi == g.(scalefac := s.gi.scalefac) && |s.gi.scalefac| == SFBMAX
      invariant j == BandStart(g.width, sfb)
      invariant forall k | 0 <= k < sfb :: TracksBand(g, s.gi, k)
      invariant forall k | sfb <= k < SFBMAX :: s.gi.scalefac[k] == g.scalefac[k]
      invariant !any ==> s.gi == g
      invariant any <==> AnyEmpty(g, sfb)
      invariant forall k | 0 <= k < sfb :: s.gi.scalefac[k] == if BandEmpty(g, k) then -2 else g.scalefac[k]
    {
      BandStartMonotone(g.width, sfb + 1, g.sfbmax);
      var width := s.gi.width[sfb];
      var zero := AllZero(s.gi.l3Enc, j, j + width);
      j := j + width;
      EmptyIf(g, sfb, zero);
      ghost var h := s.gi;
      if zero {
        s.gi := s.gi.(scalefac := s.gi.scalefac[sfb := -2]);
        any := true;
      }
      forall k | 0 <= k < sfb + 1 ensures TracksBand(g, s.gi, k) {
        assert k < sfb ==> TracksBand(g, h, k);
      }
    }
  }

  lemma OrBits(a: nat, b: nat)
    ensures Or(a, b) % 2 == 1 <==> a % 2 == 1 || b % 2 == 1
    ensures Or(a, b) == 0 <==> a == 0 && b == 0
  {
  }

  /** Neither flag is set, every positive scalefactor is even, and there is one. */
  ghost predicate AllEven(h: GrInfo)
    requires h.sfbmax <= |h.scalefac|
  {
    && h.scalefacScale == 0 && h.preflag == 0
    && (forall k | 0 <= k < h.sfbmax && h.scalefac[k] > 0 :: h.scalefac[k] % 2 == 0)
    && exists k | 0 <= k < h.sfbmax :: h.scalefac[k] > 0
  }

  /** If every scalefactor is even, they are halved and the scale is doubled. */
  method HalveAll(s: GrState, ghost g: GrInfo) returns (did: bool)
    requires BandsOk(g) && Tracks(g, s.gi)
    modifies s
    ensures s.gi == old(s.gi).(scalefac := s.gi.scalefac, scalefacScale := s.gi.scalefacScale) && Tracks(g, s.gi)
    ensures !did ==> s.gi == old(s.gi)
    ensures Flagged(old(s.gi)) ==> Flagged(s.gi)
    ensures |old(s.gi.scalefac)| == |s.gi.scalefac| == SFBMAX && (did <==> AllEven(old(s.gi)))
    ensures did ==> s.gi.scalefacScale == 1 && forall k | 0 <= k < SFBMAX ::
      s.gi.scalefac[k] == if k < s.gi.sfbmax && old(s.gi.scalefac[k]) > 0 then old(s.gi.scalefac[k]) / 2
                          else old(s.gi.scalefac[k])
  {
    did := false;
    if s.gi.scalefacScale != 0 || s.gi.preflag != 0 { return; }
    var bits: nat := 0;
    ghost var h := s.gi;
    for sfb := 0 to s.gi.sfbmax
      invariant s.gi == h
      invariant bits % 2 == 0 <==> forall k | 0 <= k < sfb && h.scalefac[k] > 0 :: h.scalefac[k] % 2 == 0
      invariant bits == 0 <==> forall k | 0 <= k < sfb :: h.scalefac[k] <= 0
    {
      if s.gi.scalefac[sfb] > 0 {
        OrBits(bits, s.gi.scalefac[sfb]);
        bits := Or(bits, s.gi.scalefac[sfb]);
      }
    }
    if bits % 2 == 0 && bits != 0 {
      for sfb := 0 to s.gi.sfbmax
        invariant s.gi == h.(scalefac := s.gi.scalefac) && |s.gi.scalefac| == SFBMAX
        invariant forall k | 0 <= k < sfb :: s.gi.scalefac[k] == if h.scalefac[k] > 0 then h.scalefac[k] / 2
            else h.scalefac[k]
        invariant forall k | sfb <= k < SFBMAX :: s.gi.scalefac[k] == h.scalefac[k]
      {
        if s.gi.scalefac[sfb] > 0 {
          s.gi := s.gi.(scalefac := s.gi.scalefac[sfb := s.gi.scalefac[sfb] / 2]);
        }
      }
      s.gi := s.gi.(scalefacScale := 1);
      did := true;
      forall k | 0 <= k < g.sfbmax ensures TracksBand(g, s.gi, k) {
        assert TracksBand(g, h, k);
      }
    }
  }

  /** Every band that counts has its pre-emphasis. */
  ghost predicate AllEmphasised(scalefac: seq<int>)
    requires |scalefac| == SFBMAX
  {
    forall i | 11 <= i < 21 :: scalefac[i] >= Pretab(i) || scalefac[i] == -2
  }

  /** MPEG-1 long blocks: the pre-emphasis is taken off where every band that counts has it. */
  method StorePretab(s: GrState, ghost g: GrInfo) returns (did: bool)
    requires BandsOk(g) && Tracks(g, s.gi) && s.gi.sfbmax == 21
    modifies s
    ensures s.gi == old(s.gi).(scalefac := s.gi.scalefac, preflag := s.gi.preflag) && Tracks(g, s.gi)
    ensures !did ==> s.gi == old(s.gi)
    ensures Flagged(old(s.gi)) ==> Flagged(s.gi)
    ensures |old(s.gi.scalefac)| == |s.gi.scalefac| == SFBMAX
    ensures did <==> old(s.gi.preflag) == 0 && AllEmphasised(old(s.gi.scalefac))
    ensures did ==> s.gi.preflag == 1 && forall k | 0 <= k < SFBMAX ::
      s.gi.scalefac[k] == old(s.gi.scalefac[k])
                          - if 11 <= k < 21 && old(s.gi.scalefac[k]) > 0 then Pretab(k) else 0
  {
    did := false;
    if s.gi.preflag != 0 { return; }
    var sfb := 11;
    while sfb < 21
      invariant 11 <= sfb <= 21 && forall i | 11 <= i < sfb :: s.gi.scalefac[i] >= Pretab(i) || s.gi.scalefac[i] == -2
    {
      if s.gi.scalefac[sfb] < Pretab(sfb) && s.gi.scalefac[sfb] != -2 { break; }
      sfb := sfb + 1;
    }
    if sfb == 21 {
      ghost var h := s.gi;
      for i := 11 to 21
        invariant s.gi == h.(scalefac := s.gi.scalefac) && |s.gi.scalefac| == SFBMAX
        invariant forall k | 11 <= k < i ::
          s.gi.scalefac[k] == if h.scalefac[k] > 0 then h.scalefac[k] - Pretab(k) else h.scalefac[k]
        invariant forall k | 0 <= k < SFBMAX && !(11 <= k < i) :: s.gi.scalefac[k] == h.scalefac[k]
      {
        if s.gi.scalefac[i] > 0 {
          s.gi := s.gi.(scalefac := s.gi.scalefac[i := s.gi.scalefac[i] - Pretab(i)]);
        }
      }
      s.gi := s.gi.(preflag := 1);
      did := true;
      forall k | 0 <= k < g.sfbmax ensures TracksBand(g, s.gi, k) {
        assert TracksBand(g, h, k);
      }
    }
  }

  /** What is still marked is stored as 0. */
  method StoreEmpty(s: GrState)
    requires |s.gi.scalefac| == SFBMAX && s.gi.sfbmax <= SFBMAX
    modifies s
    ensures s.gi == old(s.gi).(scalefac := s.gi.scalefac) && |s.gi.scalefac| == SFBMAX
    ensures forall k | 0 <= k < s.gi.sfbmax ::
      s.gi.scalefac[k] == if old(s.gi.scalefac[k]) == -2 then 0 else old(s.gi.scalefac[k])
    ensures forall k | s.gi.sfbmax <= k < SFBMAX :: s.gi.scalefac[k] == old(s.gi.scalefac[k])
  {
    ghost var g := s.gi;
    for sfb := 0 to s.gi.sfbmax
      invariant s.gi == g.(scalefac := s.gi.scalefac) && |s.gi.scalefac| == SFBMAX
      invariant forall k | 0 <= k < sfb :: s.gi.scalefac[k] == if g.scalefac[k] == -2 then 0 else g.scalefac[k]
      invariant forall k | sfb <= k < SFBMAX :: s.gi.scalefac[k] == g.scalefac[k]
    {
      if s.gi.scalefac[sfb] == -2 {
        s.gi := s.gi.(scalefac := s.gi.scalefac[sfb := 0]);
      }
    }
  }

  // ----- the fields that are written

  /** The scalefactors fit their fields, and part2_length is the number of bits written for them. */
  ghost predicate StoredRight(version: nat, g: GrInfo) {
    && Scaled(version, g)
    && AllFit(ScaleFields(version, g)) && Narrow(ScaleFields(version, g))
    && g.part2Length == Width(ScaleFields(version, g))
  }

  function Upto(n: nat, d: nat): nat { if n < d then n else d }

  /** The bits of the first `n` scalefactors. */
  function OwnUpto(scalefac: seq<int>, d: nat, k: nat, n: nat): nat
    requires n <= |scalefac|
  {
    Slen1(k) * Own(scalefac, 0, Upto(n, d)) + Slen2(k) * (if n < d then 0 else Own(scalefac, d, n))
  }

  lemma OwnUptoStep(scalefac: seq<int>, d: nat, k: nat, n: nat)
    requires n <= |scalefac|
    ensures n == 0 ==> OwnUpto(scalefac, d, k, n) == 0
    ensures n > 0 ==> OwnUpto(scalefac, d, k, n) == OwnUpto(scalefac, d, k, n - 1)
                      + (if scalefac[n - 1] == -1 then 0 else if n <= d then Slen1(k) else Slen2(k))
  {
    hide Slen1, Slen2;
  }

  lemma {:induction false} Fields1Right(g: GrInfo, n: nat)
    requires n <= g.sfbmax <= SFBMAX == |g.scalefac| && g.sfbdivide <= g.sfbmax && NotBelow(g.scalefac)
    requires Holds(g.scalefac, g.sfbdivide, g.sfbmax, g.scalefacCompress)
    ensures AllFit(ScaleFields1(g, n)) && Narrow(ScaleFields1(g, n))
    ensures Width(ScaleFields1(g, n)) == OwnUpto(g.scalefac, g.sfbdivide, g.scalefacCompress, n)
  {
    hide Pow2, FieldBits, Width, OwnUpto, Slen1, Slen2;
    OwnUptoStep(g.scalefac, g.sfbdivide, g.scalefacCompress, n);
    if n == 0 {
      NoWidth();
    } else {
      Fields1Right(g, n - 1);
      var w := if n <= g.sfbdivide then Slen1(g.scalefacCompress) else Slen2(g.scalefacCompress);
      SlenSmall(g.scalefacCompress);
      if g.scalefac[n - 1] != -1 {
        FieldBitsAppend(ScaleFields1(g, n - 1), Field(g.scalefac[n - 1], w));
      }
    }
  }

  lemma SlenSmall(k: nat)
    ensures Slen1(k) <= 4 && Slen2(k) <= 4
  {
  }

  /** The widths of the first `n` scalefactors, partition by partition. */
  function LsfUpto(table: seq<nat>, slen: seq<nat>, n: nat): nat
    requires |table| == |slen| == 4
  {
    slen[0] * Upto(n, table[0])
    + slen[1] * (if n < table[0] then 0 else Upto(n - table[0], table[1]))
    + slen[2] * (if n < table[0] + table[1] then 0 else Upto(n - table[0] - table[1], table[2]))
    + slen[3] * (if n < table[0] + table[1] + table[2] then 0 else Upto(n - table[0] - table[1] - table[2], table[3]))
  }

  lemma LsfStep(table: seq<nat>, slen: seq<nat>, n: nat)
    requires |table| == |slen| == 4 && n < PartitionTotal(table)
    ensures Partition(table, n) < 4
    ensures LsfUpto(table, slen, n + 1) == LsfUpto(table, slen, n) + slen[Partition(table, n)]
    ensures LsfUpto(table, slen, 0) == 0
  {
  }

  lemma LsfWhole(table: seq<nat>, slen: seq<nat>)
    requires |table| == |slen| == 4
    ensures LsfUpto(table, slen, PartitionTotal(table)) == LsfLength(table, slen)
  {
  }

  lemma {:induction false} Fields2Right(g: GrInfo, n: nat)
    requires |g.sfbPartitionTable| == |g.slen| == 4 && n <= PartitionTotal(g.sfbPartitionTable) <= |g.scalefac|
    requires HoldsLsf(g.scalefac, g.sfbPartitionTable, g.slen) && forall p | 0 <= p < 4 :: g.slen[p] < 30
    ensures AllFit(ScaleFields2(g, n)) && Narrow(ScaleFields2(g, n))
    ensures Width(ScaleFields2(g, n)) == LsfUpto(g.sfbPartitionTable, g.slen, n)
  {
    hide Pow2, FieldBits, Width, LsfUpto, Partition;
    if n == 0 {
      NoWidth();
      if PartitionTotal(g.sfbPartitionTable) > 0 {
        LsfStep(g.sfbPartitionTable, g.slen, 0);
      } else {
        NoPartitions(g.sfbPartitionTable, g.slen);
      }
    } else {
      Fields2Right(g, n - 1);
      var p := Partition(g.sfbPartitionTable, n - 1);
      LsfStep(g.sfbPartitionTable, g.slen, n - 1);
      assert PartitionFits(g.scalefac[n - 1], g.slen, p);
      FieldBitsAppend(ScaleFields2(g, n - 1), Field(if g.scalefac[n - 1] < 0 then 0 else g.scalefac[n - 1], g.slen[p]));
    }
  }

  lemma NoPartitions(table: seq<nat>, slen: seq<nat>)
    requires |table| == |slen| == 4
    ensures LsfUpto(table, slen, 0) == 0
  {
  }

  // ----- best_scalefac_store as a whole

  /** MPEG-1: what scale_bitcount has left. */
  ghost predicate Stored1(g: GrInfo) {
    && |g.scalefac| == SFBMAX && DividedBands(g) && g.scalefacCompress < 16
    && Holds(g.scalefac, g.sfbdivide, g.sfbmax, g.scalefacCompress)
    && g.part2Length == FullLength(g.sfbdivide, g.sfbmax, g.scalefacCompress)
  }

  /** MPEG-2: what scale_bitcount_lsf has left. */
  ghost predicate Stored2(g: GrInfo) {
    && |g.scalefac| == SFBMAX && g.scalefacCompress < 512
    && (g.blockType == SHORT_TYPE ==> g.mixedBlockFlag == 0)
    && g.sfbmax == (if g.blockType == SHORT_TYPE then 36 else 21)
    && InRange(g.scalefac, g.preflag, g.blockType == SHORT_TYPE)
    && g.slen == LsfSlen(g.scalefacCompress) && g.sfbPartitionTable == LsfTable(g.scalefacCompress, g.blockType, 0)
    && g.sfbPartitionTable == SfbBlock(g.preflag, g.blockType == SHORT_TYPE)
    && PartitionTotal(g.sfbPartitionTable) == g.sfbmax
    && HoldsLsf(g.scalefac, g.sfbPartitionTable, g.slen)
    && g.part2Length == LsfLength(g.sfbPartitionTable, g.slen)
  }

  // ----- what can be stored more simply

  /** With neither flag set, every positive scalefactor of a band with something in it is even, and there is one. */
  ghost predicate Halvable(g: GrInfo)
    requires BandsOk(g)
  {
    && g.scalefacScale == 0 && g.preflag == 0
    && (forall sfb | 0 <= sfb < g.sfbmax && !BandEmpty(g, sfb) && g.scalefac[sfb] > 0 :: g.scalefac[sfb] % 2 == 0)
    && exists sfb | 0 <= sfb < g.sfbmax :: !BandEmpty(g, sfb) && g.scalefac[sfb] > 0
  }

  /** The scalefactor with the scale as coarse as can be. */
  ghost function Halved(g: GrInfo, sfb: nat): int
    requires BandsOk(g) && sfb < g.sfbmax
  {
    if Halvable(g) then g.scalefac[sfb] / 2 else g.scalefac[sfb]
  }

  /** In MPEG-1 and long blocks: every band from 11 to 20 with something in it then has its pre-emphasis. */
  ghost predicate Emphasised(g: GrInfo, modeGr: nat)
    requires BandsOk(g)
  {
    && g.preflag == 0 && g.blockType != SHORT_TYPE && modeGr == 2 && g.sfbmax == 21
    && forall sfb | 11 <= sfb < 21 && !BandEmpty(g, sfb) :: Halved(g, sfb) >= Pretab(sfb)
  }

  /** The scalefactor that is left to be stored. */
  ghost function Reduced(g: GrInfo, modeGr: nat, sfb: nat): int
    requires BandsOk(g) && sfb < g.sfbmax
  {
    Halved(g, sfb) - if Emphasised(g, modeGr) then Pretab(sfb) else 0
  }

  /** Something can be stored otherwise. */
  ghost predicate Changes(g: GrInfo, modeGr: nat)
    requires BandsOk(g)
  {
    AnyEmpty(g, g.sfbmax) || Halvable(g) || Emphasised(g, modeGr)
  }

  /** Both flags are set exactly if they can be. */
  ghost predicate FlagsSet(g: GrInfo, modeGr: nat, h: GrInfo)
    requires BandsOk(g)
  {
    && h.scalefacScale == (if Halvable(g) then 1 else g.scalefacScale)
    && h.preflag == (if Emphasised(g, modeGr) then 1 else g.preflag)
  }

  /** The scalefactors are those left to be stored; `none` stands for a band in which nothing is coded. */
  ghost predicate AllReduced(g: GrInfo, modeGr: nat, scalefac: seq<int>, none: int)
    requires BandsOk(g) && |scalefac| == SFBMAX
  {
    forall sfb | 0 <= sfb < g.sfbmax ::
      scalefac[sfb] == if BandEmpty(g, sfb) then none else Reduced(g, modeGr, sfb)
  }

  /** No widths that hold the scalefactors take fewer bits. */
  ghost predicate LeastWhole(h: GrInfo)
    requires h.sfbdivide <= h.sfbmax <= |h.scalefac|
  {
    forall k | 0 <= k < 16 && Holds(h.scalefac, h.sfbdivide, h.sfbmax, k) ::
      h.part2Length <= FullLength(h.sfbdivide, h.sfbmax, k)
  }

  ghost predicate LeastLsf(h: GrInfo)
    requires |h.sfbPartitionTable| == 4 && PartitionTotal(h.sfbPartitionTable) <= |h.scalefac|
  {
    forall slen | |slen| == 4 && HoldsLsf(h.scalefac, h.sfbPartitionTable, slen) ::
      h.part2Length <= LsfLength(h.sfbPartitionTable, slen)
  }

  /** Exactly the groups are shared in which each band is empty or left with the first granule's scalefactor. */
  ghost predicate SharedExactly(g: GrInfo, modeGr: nat, first: seq<int>, scfsi: seq<nat>)
    requires BandsOk(g) && g.sfbmax == 21 && |first| == SFBMAX && |scfsi| == 4
  {
    forall i | 0 <= i < 4 ::
      scfsi[i] == 1 <==> forall k | ScfsiBand(i) <= k < ScfsiBand(i + 1) ::
        BandEmpty(g, k) || Reduced(g, modeGr, k) == first[k]
  }

  /** What is stored for `g`: with both flags set exactly if they can be, every scalefactor that is not shared is what
      is left of it, nothing if its band is empty; and if something changes, in the fewest bits. */
  ghost predicate Simplest(g: GrInfo, modeGr: nat, shared: bool, first: seq<int>, scfsi: seq<nat>, h: GrInfo)
    requires BandsOk(g)
  {
    && FlagsSet(g, modeGr, h) && |h.scalefac| == |first| == SFBMAX && |scfsi| == 4
    && if shared then
         && g.sfbmax == 21 && SharedExactly(g, modeGr, first, scfsi) && LeastOwn(h.scalefac, h.part2Length)
         && forall sfb | 0 <= sfb < 21 :: h.scalefac[sfb] ==
              if Shared(scfsi, sfb) then -1 else if BandEmpty(g, sfb) then 0 else Reduced(g, modeGr, sfb)
       else
         && AllReduced(g, modeGr, h.scalefac, 0)
         && (Changes(g, modeGr) && modeGr == 2 ==> h.sfbdivide <= h.sfbmax <= SFBMAX && LeastWhole(h))
         && (Changes(g, modeGr) && modeGr != 2 ==>
               |h.sfbPartitionTable| == 4 && PartitionTotal(h.sfbPartitionTable) <= SFBMAX && LeastLsf(h))
  }

  /** The first three steps of best_scalefac_store. */
  method Simplify(s: GrState, modeGr: nat) returns (recalc: bool)
    requires BandsOk(s.gi) && NonNegative(s.gi.scalefac, SFBMAX) && (s.gi.blockType != SHORT_TYPE ==> s.gi.sfbmax == 21)
    modifies s
    ensures Tracks(old(s.gi), s.gi)
    ensures s.gi == old(s.gi).(scalefac := s.gi.scalefac, preflag := s.gi.preflag, scalefacScale := s.gi.scalefacScale)
    ensures !recalc ==> s.gi == old(s.gi)
    ensures modeGr != 2 ==> s.gi.preflag == old(s.gi.preflag)
    ensures Flagged(old(s.gi)) ==> Flagged(s.gi)
    ensures recalc <==> Changes(old(s.gi), modeGr)
    ensures FlagsSet(old(s.gi), modeGr, s.gi) && |s.gi.scalefac| == SFBMAX
    ensures AllReduced(old(s.gi), modeGr, s.gi.scalefac, -2)
  {
    hide Tracks, Amp, Pretab, BandEmpty, AnyEmpty, AllEven, AllEmphasised, Halvable, Emphasised, AllReduced;
    ghost var g := s.gi;
    recalc := MarkEmpty(s);
    TracksSize(g, s.gi);
    ghost var marked := s.gi;
    var did := HalveAll(s, g);
    HalvableIf(g, marked);
    recalc := recalc || did;
    TracksSize(g, s.gi);
    ghost var halved := s.gi;
    HalvedIs(g, marked, halved, did);
    if s.gi.preflag == 0 && s.gi.blockType != SHORT_TYPE && modeGr == 2 {
      did := StorePretab(s, g);
      recalc := recalc || did;
      EmphasisedIf(g, modeGr, halved.scalefac);
      ReducedIs(g, modeGr, halved.scalefac, s.gi.scalefac, did);
    } else {
      NotEmphasised(g, modeGr, halved);
      ReducedIs(g, modeGr, halved.scalefac, s.gi.scalefac, false);
    }
  }

  /** The scalefactors after the first two steps. */
  ghost predicate AllHalved(g: GrInfo, scalefac: seq<int>)
    requires BandsOk(g) && |scalefac| == SFBMAX
  {
    forall sfb | 0 <= sfb < g.sfbmax :: scalefac[sfb] == if BandEmpty(g, sfb) then -2 else Halved(g, sfb)
  }

  lemma HalvableIf(g: GrInfo, m: GrInfo)
    requires BandsOk(g) && NonNegative(g.scalefac, SFBMAX) && m == g.(scalefac := m.scalefac) && |m.scalefac| == SFBMAX
    requires forall sfb | 0 <= sfb < g.sfbmax :: m.scalefac[sfb] == if BandEmpty(g, sfb) then -2 else g.scalefac[sfb]
    ensures AllEven(m) <==> Halvable(g)
  {
    hide BandEmpty;
    if exists k | 0 <= k < m.sfbmax :: m.scalefac[k] > 0 {
      var k :| 0 <= k < m.sfbmax && m.scalefac[k] > 0;
      assert !BandEmpty(g, k) && g.scalefac[k] > 0;
    }
    if exists k | 0 <= k < g.sfbmax :: !BandEmpty(g, k) && g.scalefac[k] > 0 {
      var k :| 0 <= k < g.sfbmax && !BandEmpty(g, k) && g.scalefac[k] > 0;
      assert m.scalefac[k] > 0;
    }
  }

  lemma HalvedIs(g: GrInfo, m: GrInfo, h: GrInfo, did: bool)
    requires BandsOk(g) && NonNegative(g.scalefac, SFBMAX) && |m.scalefac| == |h.scalefac| == SFBMAX
    requires forall sfb | 0 <= sfb < g.sfbmax :: m.scalefac[sfb] == if BandEmpty(g, sfb) then -2 else g.scalefac[sfb]
    requires did <==> Halvable(g)
    requires if did then forall k | 0 <= k < g.sfbmax ::
               h.scalefac[k] == if m.scalefac[k] > 0 then m.scalefac[k] / 2 else m.scalefac[k]
             else h.scalefac == m.scalefac
    ensures AllHalved(g, h.scalefac)
  {
    hide BandEmpty, Halvable;
  }

  lemma EmphasisedIf(g: GrInfo, modeGr: nat, scalefac: seq<int>)
    requires BandsOk(g) && NonNegative(g.scalefac, SFBMAX) && |scalefac| == SFBMAX && AllHalved(g, scalefac)
    requires g.preflag == 0 && g.blockType != SHORT_TYPE && modeGr == 2 && g.sfbmax == 21
    ensures AllEmphasised(scalefac) <==> Emphasised(g, modeGr)
  {
    hide BandEmpty, Halvable, Pretab;
    forall i | 11 <= i < 21
      ensures scalefac[i] >= Pretab(i) || scalefac[i] == -2 <==> BandEmpty(g, i) || Halved(g, i) >= Pretab(i)
    {
    }
  }

  lemma NotEmphasised(g: GrInfo, modeGr: nat, h: GrInfo)
    requires BandsOk(g) && h.preflag == g.preflag && h.blockType == g.blockType
    requires !(h.preflag == 0 && h.blockType != SHORT_TYPE && modeGr == 2)
    ensures !Emphasised(g, modeGr)
  {
  }

  lemma ReducedIs(g: GrInfo, modeGr: nat, h: seq<int>, r: seq<int>, did: bool)
    requires BandsOk(g) && NonNegative(g.scalefac, SFBMAX) && |h| == |r| == SFBMAX && AllHalved(g, h)
    requires did <==> Emphasised(g, modeGr)
    requires if did then forall k | 0 <= k < SFBMAX :: r[k] == h[k] - if 11 <= k < 21 && h[k] > 0 then Pretab(k) else 0
             else r == h
    ensures AllReduced(g, modeGr, r, -2)
  {
    hide BandEmpty, Halvable;
    forall sfb | 0 <= sfb < g.sfbmax
      ensures r[sfb] == if BandEmpty(g, sfb) then -2 else Reduced(g, modeGr, sfb)
    {
      assert h[sfb] == if BandEmpty(g, sfb) then -2 else Halved(g, sfb);
    }
  }

  lemma TracksSize(g: GrInfo, h: GrInfo)
    requires BandsOk(g) && Tracks(g, h)
    ensures |h.scalefac| == SFBMAX && h.sfbmax == g.sfbmax && SameButStorage(g, h)
  {
  }

  /** What StoreEmpty leaves of a granule that tracks another. */
  ghost predicate Filled(g: GrInfo, h: GrInfo)
    requires BandsOk(g)
  {
    && SameButStorage(g, h) && |h.scalefac| == SFBMAX && NonNegative(h.scalefac, SFBMAX)
    && forall sfb | 0 <= sfb < g.sfbmax ::
         && h.scalefac[sfb] <= g.scalefac[sfb]
         && (!BandEmpty(g, sfb) ==>
               Amp(h.scalefac[sfb], sfb, h.preflag, h.scalefacScale)
                   == Amp(g.scalefac[sfb], sfb, g.preflag, g.scalefacScale))
  }

  lemma FilledBy(g: GrInfo, t: GrInfo, h: GrInfo)
    requires BandsOk(g) && NonNegative(g.scalefac, SFBMAX) && Tracks(g, t)
    requires h == t.(scalefac := h.scalefac) && |h.scalefac| == SFBMAX
    requires forall k | 0 <= k < g.sfbmax :: h.scalefac[k] == if t.scalefac[k] == -2 then 0 else t.scalefac[k]
    requires forall k | g.sfbmax <= k < SFBMAX :: h.scalefac[k] == t.scalefac[k]
    ensures Filled(g, h)
  {
    hide Amp;
    forall sfb | 0 <= sfb < g.sfbmax
      ensures 0 <= h.scalefac[sfb] <= g.scalefac[sfb]
      ensures !BandEmpty(g, sfb) ==>
        Amp(h.scalefac[sfb], sfb, h.preflag, h.scalefacScale) == Amp(g.scalefac[sfb], sfb, g.preflag, g.scalefacScale)
    {
      assert TracksBand(g, t, sfb);
    }
  }

  /** No larger scalefactors fit wherever the old ones did. */
  lemma SmallerHold(g: GrInfo, h: GrInfo, k: nat)
    requires BandsOk(g) && Filled(g, h) && g.sfbdivide <= g.sfbmax && Holds(g.scalefac, g.sfbdivide, g.sfbmax, k)
    ensures Holds(h.scalefac, g.sfbdivide, g.sfbmax, k)
  {
    hide Amp, Range1, Range2, BandEmpty;
  }

  lemma TrackedHold(g: GrInfo, t: GrInfo, k: nat)
    requires BandsOk(g) && Tracks(g, t) && g.sfbdivide <= g.sfbmax && Holds(g.scalefac, g.sfbdivide, g.sfbmax, k)
    ensures Holds(t.scalefac, g.sfbdivide, g.sfbmax, k)
  {
    hide Amp, Range1, Range2, BandEmpty;
    forall i | 0 <= i < g.sfbmax ensures t.scalefac[i] <= g.scalefac[i] {
      assert TracksBand(g, t, i);
    }
  }

  lemma LessHold(a: seq<int>, b: seq<int>, d: nat, m: nat, k: nat)
    requires d <= m <= |a| == |b| && Holds(a, d, m, k) && forall i | 0 <= i < m :: b[i] <= a[i]
    ensures Holds(b, d, m, k)
  {
    hide Range1, Range2;
  }

  /** MPEG-1 without sharing: the widths are chosen anew if anything has changed. */
  method RestoreOwn(s: GrState, recalc: bool, ghost g: GrInfo)
    requires BandsOk(g) && NonNegative(g.scalefac, SFBMAX) && Stored1(g) && Filled(g, s.gi)
    requires s.gi == g.(scalefac := s.gi.scalefac, preflag := s.gi.preflag, scalefacScale := s.gi.scalefacScale)
    requires !recalc ==> s.gi.scalefac == g.scalefac
    requires recalc == Changes(g, 2) && FlagsSet(g, 2, s.gi) && AllReduced(g, 2, s.gi.scalefac, 0)
    modifies s
    ensures FlagsSet(g, 2, s.gi) && |s.gi.scalefac| == SFBMAX && AllReduced(g, 2, s.gi.scalefac, 0)
    ensures recalc ==> s.gi.sfbdivide <= s.gi.sfbmax <= SFBMAX && LeastWhole(s.gi)
    ensures SameButStorage(g, s.gi) && |s.gi.scalefac| == SFBMAX && NonNegative(s.gi.scalefac, SFBMAX)
    ensures StoredRight(1, s.gi) && Telling(1, s.gi, [0, 0, 0, 0]) && Telling(1, s.gi, [])
    ensures Filled(g, s.gi) && s.gi.part2Length <= g.part2Length
    ensures s.gi.scalefacCompress < 16 && (Flagged(old(s.gi)) ==> Flagged(s.gi))
  {
    hide Holds, FullLength, Amp, BandEmpty, FieldBits, AllFit, Narrow, Width, ScaleFields1, StoredRight, Telling;
    hide AllReduced, Changes, Halvable, Emphasised, AllHavePretab;
    ghost var h := s.gi;
    SmallerHold(g, s.gi, g.scalefacCompress);
    if recalc {
      if s.gi.blockType != SHORT_TYPE && s.gi.preflag == 0 { PretabLacks(g, s.gi); }
      var over := ScaleBitcount(s);
      LessHold(h.scalefac, s.gi.scalefac, g.sfbdivide, g.sfbmax, g.scalefacCompress);
      TailKept(h.scalefac, s.gi.scalefac, g.sfbmax);
    }
    OwnStored(s.gi);
  }

  /** What has not been taken off before is not taken off by scale_bitcount. */
  lemma PretabLacks(g: GrInfo, h: GrInfo)
    requires BandsOk(g) && NonNegative(g.scalefac, SFBMAX) && g.sfbmax == 21 && |h.scalefac| == SFBMAX
    requires FlagsSet(g, 2, h) && AllReduced(g, 2, h.scalefac, 0) && h.blockType == g.blockType != SHORT_TYPE
    requires h.preflag == 0
    ensures !AllHavePretab(h.scalefac)
  {
    hide BandEmpty, Halvable, Pretab;
    assert !Emphasised(g, 2);
    var sfb :| 11 <= sfb < 21 && !BandEmpty(g, sfb) && Halved(g, sfb) < Pretab(sfb);
    assert h.scalefac[sfb] == Reduced(g, 2, sfb) == Halved(g, sfb);
  }

  lemma TailKept(a: seq<int>, b: seq<int>, m: nat)
    requires |a| == |b| == SFBMAX && m <= SFBMAX && a[m..] == b[m..] && NonNegative(a, SFBMAX) && NonNegative(b, m)
    ensures NonNegative(b, SFBMAX)
  {
    forall i | m <= i < SFBMAX ensures b[i] == a[i] {
      assert b[m..][i - m] == a[m..][i - m];
    }
  }

  /** With no scalefactor shared, widths that hold them all store them right. */
  lemma OwnStored(g: GrInfo)
    requires |g.scalefac| == SFBMAX && NonNegative(g.scalefac, SFBMAX) && Stored1(g)
    ensures StoredRight(1, g) && Telling(1, g, [0, 0, 0, 0]) && Telling(1, g, [])
  {
    hide Holds, FieldBits, AllFit, Narrow, Width, ScaleFields1, OwnUpto, FullLength;
    Fields1Right(g, g.sfbmax);
    OwnAll(g.scalefac, g.sfbdivide, g.sfbmax, g.scalefacCompress);
  }

  lemma OwnAll(scalefac: seq<int>, d: nat, m: nat, k: nat)
    requires d <= m <= |scalefac| && NonNegative(scalefac, m)
    ensures OwnUpto(scalefac, d, k, m) == FullLength(d, m, k)
  {
    hide Slen1, Slen2;
    OwnAtMost(scalefac, 0, d);
    OwnAtMost(scalefac, d, m);
  }

  /** MPEG-1 with sharing. */
  method RestoreShared(s: GrState, first: seq<int>, ghost g: GrInfo) returns (scfsi: seq<nat>)
    requires BandsOk(g) && NonNegative(g.scalefac, SFBMAX) && Stored1(g) && g.blockType != SHORT_TYPE
    requires Tracks(g, s.gi) && |first| == SFBMAX
    requires s.gi == g.(scalefac := s.gi.scalefac, preflag := s.gi.preflag, scalefacScale := s.gi.scalefacScale)
    requires FlagsSet(g, 2, s.gi) && |s.gi.scalefac| == SFBMAX && AllReduced(g, 2, s.gi.scalefac, -2)
    modifies s
    ensures Simplest(g, 2, true, first, scfsi, s.gi)
    ensures SameButStorage(g, s.gi) && |s.gi.scalefac| == SFBMAX
    ensures |scfsi| == 4 && forall i | 0 <= i < 4 :: scfsi[i] < 2
    ensures StoredRight(1, s.gi) && Telling(1, s.gi, scfsi)
    ensures StepsKept(g, s.gi, first) && s.gi.part2Length <= g.part2Length
    ensures s.gi.scalefacCompress < 16 && (Flagged(old(s.gi)) ==> Flagged(s.gi))
  {
    hide Holds, FullLength, OwnLength, Amp, BandEmpty, StoredRight, Telling, SharedWith, Tracks, StepsKept;
    hide AllReduced, FlagsSet, Simplest, Differs, LeastOwn;
    ghost var t := s.gi;
    TracksSize(g, t);
    TrackedHold(g, t, g.scalefacCompress);
    scfsi := ScfsiCalc(s, first);
    ghost var h := s.gi;
    StoreEmpty(s);
    SharedStored(g, t, h, s.gi, first, scfsi);
    SharedSimplest(g, t, h, s.gi, first, scfsi);
  }

  lemma ReducedPositive(g: GrInfo, modeGr: nat, sfb: nat)
    requires BandsOk(g) && NonNegative(g.scalefac, SFBMAX) && sfb < g.sfbmax && !BandEmpty(g, sfb)
    ensures Reduced(g, modeGr, sfb) >= 0
  {
    hide BandEmpty, Halvable;
  }

  lemma SharedSimplest(g: GrInfo, t: GrInfo, h: GrInfo, f: GrInfo, first: seq<int>, scfsi: seq<nat>)
    requires BandsOk(g) && NonNegative(g.scalefac, SFBMAX) && g.sfbmax == 21 && |scfsi| == 4
    requires |first| == |t.scalefac| == |h.scalefac| == |f.scalefac| == SFBMAX && forall i | 0 <= i < 4 :: scfsi[i] < 2
    requires FlagsSet(g, 2, t) && AllReduced(g, 2, t.scalefac, -2)
        && SharedWith(first, t.scalefac, h.scalefac, scfsi, 4)
    requires h == t.(scalefac := h.scalefac, scalefacCompress := h.scalefacCompress, part2Length := h.part2Length)
    requires f == h.(scalefac := f.scalefac)
    requires forall k | 0 <= k < 21 :: f.scalefac[k] == if h.scalefac[k] == -2 then 0 else h.scalefac[k]
    requires forall i | 0 <= i < 4 && scfsi[i] == 0 :: Differs(t.scalefac, first, i)
    requires LeastOwn(h.scalefac, h.part2Length)
    ensures Simplest(g, 2, true, first, scfsi, f)
  {
    hide BandEmpty, Reduced, Holds, OwnLength, Halvable, Emphasised, Shared;
    forall k | 0 <= k < 21
      ensures f.scalefac[k] == if Shared(scfsi, k) then -1 else if BandEmpty(g, k) then 0 else Reduced(g, 2, k)
      ensures t.scalefac[k] == if BandEmpty(g, k) then -2 else Reduced(g, 2, k)
      ensures !BandEmpty(g, k) ==> t.scalefac[k] >= 0
      ensures Shared(scfsi, k) ==> t.scalefac[k] < 0 || t.scalefac[k] == first[k]
    {
      if !BandEmpty(g, k) { ReducedPositive(g, 2, k); }
      SharedAt(first, t.scalefac, h.scalefac, scfsi, k);
    }
    forall i | 0 <= i < 4
      ensures scfsi[i] == 1 <==> forall k | ScfsiBand(i) <= k < ScfsiBand(i + 1) ::
        BandEmpty(g, k) || Reduced(g, 2, k) == first[k]
    {
      GroupExactly(g, t.scalefac, first, scfsi, i);
    }
    FilledLeast(h.scalefac, f.scalefac, h.part2Length);
  }

  lemma GroupExactly(g: GrInfo, t: seq<int>, first: seq<int>, scfsi: seq<nat>, i: nat)
    requires BandsOk(g) && g.sfbmax == 21 && |first| == |t| == SFBMAX && |scfsi| == 4 && i < 4 && scfsi[i] < 2
    requires forall k | 0 <= k < 21 :: t[k] == if BandEmpty(g, k) then -2 else Reduced(g, 2, k)
    requires forall k | 0 <= k < 21 && !BandEmpty(g, k) :: t[k] >= 0
    requires forall k | 0 <= k < 21 && Shared(scfsi, k) :: t[k] < 0 || t[k] == first[k]
    requires scfsi[i] == 0 ==> Differs(t, first, i)
    ensures scfsi[i] == 1 <==> forall k | ScfsiBand(i) <= k < ScfsiBand(i + 1) ::
      BandEmpty(g, k) || Reduced(g, 2, k) == first[k]
  {
    hide BandEmpty, Reduced;
    if scfsi[i] == 0 {
      var k :| ScfsiBand(i) <= k < ScfsiBand(i + 1) && t[k] >= 0 && t[k] != first[k];
      assert !BandEmpty(g, k);
    } else {
      forall k | ScfsiBand(i) <= k < ScfsiBand(i + 1)
        ensures BandEmpty(g, k) || Reduced(g, 2, k) == first[k]
      {
        assert Shared(scfsi, k);
      }
    }
  }

  lemma FilledLeast(h: seq<int>, f: seq<int>, bits: int)
    requires |h| == |f| == SFBMAX && LeastOwn(h, bits)
    requires forall i | 0 <= i < 21 :: f[i] == if h[i] == -2 then 0 else h[i]
    ensures LeastOwn(f, bits)
  {
    hide OwnLength, Range1, Range2;
    forall k | 0 <= k < 16 && Holds(f, 11, 21, k)
      ensures bits <= OwnLength(f, k)
    {
      SameOwn(h, f, 0, 11);
      SameOwn(h, f, 11, 21);
      assert Holds(h, 11, 21, k);
      OwnSame(h, f, k);
    }
  }

  lemma OwnSame(h: seq<int>, f: seq<int>, k: nat)
    requires |h| == |f| == SFBMAX && Own(h, 0, 11) == Own(f, 0, 11) && Own(h, 11, 21) == Own(f, 11, 21)
    ensures OwnLength(h, k) == OwnLength(f, k)
  {
    hide Slen1, Slen2, Own;
  }

  lemma SharedStored(g: GrInfo, t: GrInfo, h: GrInfo, f: GrInfo, first: seq<int>, scfsi: seq<nat>)
    requires BandsOk(g) && NonNegative(g.scalefac, SFBMAX) && DividedBands(g) && g.blockType != SHORT_TYPE
    requires Tracks(g, t) && |first| == |h.scalefac| == |f.scalefac| == SFBMAX && |scfsi| == 4
    requires SharedWith(first, t.scalefac, h.scalefac, scfsi, 4)
    requires t == g.(scalefac := t.scalefac, preflag := t.preflag, scalefacScale := t.scalefacScale)
    requires h == t.(scalefac := h.scalefac, scalefacCompress := h.scalefacCompress, part2Length := h.part2Length)
    requires f == h.(scalefac := f.scalefac)
    requires forall k | 0 <= k < 21 :: f.scalefac[k] == if h.scalefac[k] == -2 then 0 else h.scalefac[k]
    requires forall k | 21 <= k < SFBMAX :: f.scalefac[k] == h.scalefac[k]
    requires Holds(h.scalefac, 11, 21, h.scalefacCompress) && h.part2Length == OwnLength(h.scalefac, h.scalefacCompress)
    ensures SameButStorage(g, f) && StoredRight(1, f) && Telling(1, f, scfsi) && StepsKept(g, f, first)
  {
    hide Holds, OwnLength, Amp, BandEmpty, FieldBits, AllFit, Narrow, Width, ScaleFields1, Tracks, Shared;
    TracksSize(g, t);
    forall k | 0 <= k < SFBMAX
      ensures f.scalefac[k] >= -1
      ensures k < 21 ==> (f.scalefac[k] == -1 <==> Shared(scfsi, k))
      ensures k < 21 && !BandEmpty(g, k) ==>
        Amp(Effective(f.scalefac[k], first[k]), k, f.preflag, f.scalefacScale)
            == Amp(g.scalefac[k], k, g.preflag, g.scalefacScale)
    {
      TrackedAt(g, t, k);
      SharedAt(first, t.scalefac, h.scalefac, scfsi, k);
    }
    SharedCounts(h.scalefac, f.scalefac, h.scalefacCompress);
    Fields1Right(f, 21);
  }

  lemma TrackedAt(g: GrInfo, t: GrInfo, k: nat)
    requires BandsOk(g) && Tracks(g, t) && NonNegative(g.scalefac, SFBMAX) && k < SFBMAX
    ensures k >= g.sfbmax ==> t.scalefac[k] >= 0
    ensures k < g.sfbmax && BandEmpty(g, k) ==> t.scalefac[k] == -2
    ensures k < g.sfbmax && !BandEmpty(g, k) ==>
      t.scalefac[k] >= 0 && Amp(t.scalefac[k], k, t.preflag, t.scalefacScale)
          == Amp(g.scalefac[k], k, g.preflag, g.scalefacScale)
  {
    hide Amp, BandEmpty;
    if k < g.sfbmax { assert TracksBand(g, t, k); }
  }

  lemma SharedAt(first: seq<int>, g: seq<int>, h: seq<int>, scfsi: seq<nat>, k: nat)
    requires |first| == |g| == |h| == SFBMAX && |scfsi| == 4 && SharedWith(first, g, h, scfsi, 4) && k < SFBMAX
    ensures if k < 21 && Shared(scfsi, k) then h[k] == -1 && (g[k] < 0 || g[k] == first[k]) else h[k] == g[k]
  {
    hide Shared;
  }

  /** Marks stored as 0 are counted as before. */
  lemma SharedCounts(h: seq<int>, f: seq<int>, k: nat)
    requires |h| == |f| == SFBMAX && Holds(h, 11, 21, k)
    requires forall i | 0 <= i < 21 :: f[i] == if h[i] == -2 then 0 else h[i]
    ensures Holds(f, 11, 21, k) && OwnUpto(f, 11, k, 21) == OwnLength(h, k)
  {
    hide Slen1, Slen2, Pow2;
    SameOwn(h, f, 0, 11);
    SameOwn(h, f, 11, 21);
  }

  lemma SameOwn(h: seq<int>, f: seq<int>, a: nat, b: nat)
    requires |h| == |f| && a <= b && b <= |h| && forall i | a <= i < b :: f[i] == -1 <==> h[i] == -1
    ensures Own(f, a, b) == Own(h, a, b)
    decreases b
  {
    if a < b { SameOwn(h, f, a, b - 1); }
  }

  /** MPEG-2: the widths are chosen anew if anything has changed. */
  method RestoreLsf(s: GrState, recalc: bool, ghost g: GrInfo)
    requires BandsOk(g) && NonNegative(g.scalefac, SFBMAX) && Stored2(g) && Filled(g, s.gi)
    requires s.gi == g.(scalefac := s.gi.scalefac, scalefacScale := s.gi.scalefacScale)
    requires !recalc ==> s.gi.scalefac == g.scalefac
    modifies s
    ensures s.gi.scalefac == old(s.gi.scalefac) && s.gi.preflag == old(s.gi.preflag)
    ensures s.gi.scalefacScale == old(s.gi.scalefacScale)
    ensures recalc ==>
      |s.gi.sfbPartitionTable| == 4 && PartitionTotal(s.gi.sfbPartitionTable) <= SFBMAX && LeastLsf(s.gi)
    ensures SameButStorage(g, s.gi) && |s.gi.scalefac| == SFBMAX && NonNegative(s.gi.scalefac, SFBMAX)
    ensures StoredRight(0, s.gi) && Telling(0, s.gi, [])
    ensures Filled(g, s.gi) && s.gi.part2Length <= g.part2Length
    ensures s.gi.scalefacCompress < 512 && (Flagged(old(s.gi)) ==> Flagged(s.gi))
  {
    hide HoldsLsf, LsfLength, Amp, BandEmpty, StoredRight, Telling, InRange, LsfSlen, LsfTable;
    if recalc {
      StillInRange(g, s.gi);
      ghost var h := s.gi;
      var over := ScaleBitcountLsf(s);
      LessHoldLsf(g, h);
    }
    LsfStored(s.gi);
  }

  lemma LessHoldLsf(g: GrInfo, h: GrInfo)
    requires BandsOk(g) && Stored2(g) && Filled(g, h)
    ensures |g.slen| == 4 && HoldsLsf(h.scalefac, g.sfbPartitionTable, g.slen)
  {
    hide Amp, BandEmpty, InRange, LsfSlen, LsfTable, Partition, Pow2, LsfLength;
    assert |g.slen| == 4;
    forall k | 0 <= k < PartitionTotal(g.sfbPartitionTable)
      ensures PartitionFits(h.scalefac[k], g.slen, Partition(g.sfbPartitionTable, k))
    {
      assert PartitionFits(g.scalefac[k], g.slen, Partition(g.sfbPartitionTable, k));
    }
  }

  lemma StillInRange(g: GrInfo, h: GrInfo)
    requires BandsOk(g) && Stored2(g) && Filled(g, h) && h.preflag == g.preflag
    ensures InRange(h.scalefac, h.preflag, h.blockType == SHORT_TYPE)
  {
    hide Amp, BandEmpty, HoldsLsf, LsfLength, MaxRange, Partition;
    assert PartitionTotal(SfbBlock(g.preflag, g.blockType == SHORT_TYPE)) <= g.sfbmax;
  }

  lemma LsfStored(g: GrInfo)
    requires |g.scalefac| == SFBMAX && NonNegative(g.scalefac, SFBMAX) && g.scalefacCompress < 512
    requires g.blockType == SHORT_TYPE ==> g.mixedBlockFlag == 0
    requires g.slen == LsfSlen(g.scalefacCompress)
        && g.sfbPartitionTable == LsfTable(g.scalefacCompress, g.blockType, 0)
    requires g.sfbPartitionTable == SfbBlock(g.preflag, g.blockType == SHORT_TYPE)
    requires PartitionTotal(g.sfbPartitionTable) <= SFBMAX && HoldsLsf(g.scalefac, g.sfbPartitionTable, g.slen)
    requires g.part2Length == LsfLength(g.sfbPartitionTable, g.slen)
    ensures StoredRight(0, g) && Telling(0, g, [])
  {
    hide HoldsLsf, LsfLength, FieldBits, AllFit, Narrow, Width, ScaleFields2;
    LsfSlenSmall(g.scalefacCompress);
    LsfThirds(g.scalefacCompress, g.blockType);
    hide LsfSlen, LsfTable;
    Fields2Right(g, PartitionTotal(g.sfbPartitionTable));
    LsfWhole(g.sfbPartitionTable, g.slen);
  }

  lemma LsfSlenSmall(c: nat)
    requires c < 512
    ensures forall p | 0 <= p < 4 :: LsfSlen(c)[p] < 30
  {
  }

  lemma LsfThirds(c: nat, blockType: nat)
    ensures blockType == SHORT_TYPE ==> forall p | 0 <= p < 4 :: LsfTable(c, blockType, 0)[p] % 3 == 0
    ensures blockType != SHORT_TYPE ==> forall m: nat :: LsfTable(c, blockType, m) == LsfTable(c, blockType, 0)
  {
  }

  /** The granule may be stored: it is a granule of this version that has been stored before. */
  ghost predicate Storable(version: nat, g: GrInfo) {
    && BandsOk(g) && NonNegative(g.scalefac, SFBMAX) && (g.blockType != SHORT_TYPE ==> g.sfbmax == 21)
    && if version == 1 then Stored1(g) else Stored2(g)
  }

  lemma NothingMarked(a: seq<int>, b: seq<int>, m: nat)
    requires |a| == |b| == SFBMAX && m <= SFBMAX && NonNegative(a, SFBMAX)
    requires forall k | 0 <= k < m :: b[k] == if a[k] == -2 then 0 else a[k]
    requires forall k | m <= k < SFBMAX :: b[k] == a[k]
    ensures b == a
  {
  }

  lemma FilledSteps(g: GrInfo, h: GrInfo, first: seq<int>)
    requires BandsOk(g) && BandsOk(h) && Filled(g, h) && |first| == SFBMAX
    ensures StepsKept(g, h, first)
  {
    hide Amp, BandEmpty;
  }

  /** Both granules are long, so scalefactors may be shared. */
  predicate Sharing(modeGr: nat, gr: nat, g0: GrInfo, g: GrInfo) {
    modeGr == 2 && gr == 1 && g0.blockType != SHORT_TYPE && g.blockType != SHORT_TYPE
  }

  lemma StoredReduced(g: GrInfo, modeGr: nat, t: seq<int>, f: seq<int>)
    requires BandsOk(g) && NonNegative(g.scalefac, SFBMAX) && |t| == |f| == SFBMAX && AllReduced(g, modeGr, t, -2)
    requires forall k | 0 <= k < g.sfbmax :: f[k] == if t[k] == -2 then 0 else t[k]
    ensures AllReduced(g, modeGr, f, 0)
  {
    hide BandEmpty, Reduced;
    forall sfb | 0 <= sfb < g.sfbmax
      ensures f[sfb] == if BandEmpty(g, sfb) then 0 else Reduced(g, modeGr, sfb)
    {
      if !BandEmpty(g, sfb) { ReducedPositive(g, modeGr, sfb); }
    }
  }

  /** best_scalefac_store, for granule `gr` with the first granule's `g0`.  A decoder, which takes shared scalefactors
      from the first granule, finds every band in which something is coded with the step the encoder chose; the
      stored scalefactors fit their fields; and part2_length is the number of bits that will be written. */
  method BestScalefacStore(s: GrState, modeGr: nat, gr: nat, g0: GrInfo) returns (scfsi: seq<nat>)
    requires 1 <= modeGr <= 2 && gr < modeGr && |g0.scalefac| == SFBMAX
    requires Storable(if modeGr == 2 then 1 else 0, s.gi)
    modifies s
    ensures SameButStorage(old(s.gi), s.gi) && BandsOk(s.gi)
    ensures |scfsi| == 4 && forall i | 0 <= i < 4 :: scfsi[i] < 2
    ensures gr == 0 ==> scfsi == [0, 0, 0, 0]
    ensures StepsKept(old(s.gi), s.gi, g0.scalefac) && s.gi.part2Length <= old(s.gi.part2Length)
    ensures Simplest(old(s.gi), modeGr, Sharing(modeGr, gr, g0, s.gi), g0.scalefac, scfsi, s.gi)
    ensures var version := if modeGr == 2 then 1 else 0;
      StoredRight(version, s.gi) && Telling(version, s.gi, if gr == 1 then scfsi else [])
    ensures s.gi.scalefacCompress < (if modeGr == 2 then 16 else 512) && (Flagged(old(s.gi)) ==> Flagged(s.gi))
  {
    hide Tracks, Filled, StoredRight, Telling, StepsKept, Stored1, Stored2, NonNegative, AllReduced, Changes, Halvable;
    hide Emphasised, LeastWhole, LeastLsf;
    ghost var g := s.gi;
    var recalc := Simplify(s, modeGr);
    ghost var t := s.gi;
    scfsi := [0, 0, 0, 0];
    if modeGr == 2 && gr == 1 && g0.blockType != SHORT_TYPE && s.gi.blockType != SHORT_TYPE {
      scfsi := RestoreShared(s, g0.scalefac, g);
      return;
    }
    TracksSize(g, t);
    StoreEmpty(s);
    FilledBy(g, t, s.gi);
    StoredReduced(g, modeGr, t.scalefac, s.gi.scalefac);
    if !recalc { NothingMarked(g.scalefac, s.gi.scalefac, g.sfbmax); }
    if modeGr == 2 {
      RestoreOwn(s, recalc, g);
    } else {
      RestoreLsf(s, recalc, g);
    }
    FilledSteps(g, s.gi, g0.scalefac);
  }
}

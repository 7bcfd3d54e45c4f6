/** How the spectrum of a granule is divided and counted (noquant_count_bits, best_huffman_divide and
    huffman_init of takehiro.c). */
module Takehiro {
  import opened Bits
  import opened Tables
  import opened CodeWords
  import opened SideInfo
  import opened Huffman
  import opened Granule
  import opened Counting

  // ----- quadruples

  function QuadCost(select: nat, ix: seq<nat>, i: nat): nat
    requires i + 4 <= |ix|
  {
    Hlen(32 + select, 2 * ix[i] + ix[i + 1], 2 * ix[i + 2] + ix[i + 3])
  }

  /** The bits of `n` quadruples from `from` on. */
  function QuadsCost(select: nat, ix: seq<nat>, from: nat, n: nat): nat
    requires from + 4 * n <= |ix|
    decreases n
  {
    if n == 0 then 0 else QuadCost(select, ix, from) + QuadsCost(select, ix, from + 4, n - 1)
  }

  lemma QuadBitsCost(select: nat, ix: seq<nat>, neg: seq<bool>, i: nat)
    requires select < 2 && i + 4 <= |ix| == |neg| && SmallValues(ix, i, i + 4)
    ensures |QuadBits(select, ix, neg, i)| == QuadCost(select, ix, i)
  {
    hide CodeBits, Hlen, DecodeWord;
    DecodeWordBack(32 + select, 2 * ix[i] + ix[i + 1], 2 * ix[i + 2] + ix[i + 3], []);
  }

  lemma {:induction false} QuadsBitsCost(select: nat, ix: seq<nat>, neg: seq<bool>, from: nat, n: nat)
    requires select < 2 && from + 4 * n <= |ix| == |neg| && SmallValues(ix, from, from + 4 * n)
    ensures |QuadsBits(select, ix, neg, from, n)| == QuadsCost(select, ix, from, n)
    decreases n
  {
    hide QuadBits, QuadCost, QuadsBits;
    if n > 0 {
      QuadsFirst(select, ix, neg, from, n);
      QuadBitsCost(select, ix, neg, from);
      QuadsBitsCost(select, ix, neg, from + 4, n - 1);
    } else {
      QuadsNone(select, ix, neg, from);
    }
  }

  // ----- a plan

  function BigCost(p: Plan, ix: seq<nat>): nat
    requires BigEnd(p) <= |ix|
  {
    RegionCost(p.t0, ix, 0, p.n0) + RegionCost(p.t1, ix, 2 * p.n0, p.n1)
    + RegionCost(p.t2, ix, 2 * p.n0 + 2 * p.n1, p.n2)
  }

  function SpectrumCost(p: Plan, ix: seq<nat>): nat
    requires End(p) <= |ix|
  {
    BigCost(p, ix) + QuadsCost(p.select, ix, BigEnd(p), p.quads)
  }

  /** What is counted for a plan is what will be written. */
  lemma SpectrumBitsCost(p: Plan, ix: seq<nat>, neg: seq<bool>)
    requires |ix| == |neg| && Codes(p, ix)
    ensures |SpectrumBits(p, ix, neg)| == SpectrumCost(p, ix)
  {
    hide RegionBits, RegionCost, QuadsBits, QuadsCost, RegionCodable;
    RegionBitsCost(p.t0, ix, neg, 0, p.n0);
    RegionBitsCost(p.t1, ix, neg, 2 * p.n0, p.n1);
    RegionBitsCost(p.t2, ix, neg, 2 * p.n0 + 2 * p.n1, p.n2);
    QuadsBitsCost(p.select, ix, neg, BigEnd(p), p.quads);
  }

  // ----- the parts of noquant_count_bits

  /** Where the values end, to the next pair. */
  method FindCount1(ix: seq<nat>, start: nat) returns (count1: nat)
    requires start <= |ix| && start % 2 == 0 && forall k | start <= k < |ix| :: ix[k] == 0
    ensures count1 <= start && count1 % 2 == 0 && forall k | count1 <= k < |ix| :: ix[k] == 0
    ensures count1 > 1 ==> ix[count1 - 1] != 0 || ix[count1 - 2] != 0
  {
    var i: nat := start;
    while i > 1
      invariant i <= start && i % 2 == 0 && forall k | i <= k < |ix| :: ix[k] == 0
    {
      if ix[i - 1] != 0 || ix[i - 2] != 0 { break; }
      i := i - 2;
    }
    count1 := i;
  }

  predicate SmallQuad(ix: seq<nat>, i: nat)
    requires i + 4 <= |ix|
  {
    ix[i] <= 1 && ix[i + 1] <= 1 && ix[i + 2] <= 1 && ix[i + 3] <= 1
  }

  /** Quadruples of values up to one, from the end as far as they go, counted with both tables. */
  method CountQuads(ix: seq<nat>, count1: nat) returns (big: nat, a1: int, a2: int)
    requires count1 <= |ix| && count1 % 2 == 0
    ensures big <= count1 && (count1 - big) % 4 == 0 && big % 2 == 0 && SmallValues(ix, big, count1)
    ensures a1 == QuadsCost(0, ix, big, (count1 - big) / 4) && a2 == QuadsCost(1, ix, big, (count1 - big) / 4)
    ensures big > 3 ==> !SmallQuad(ix, big - 4)
  {
    hide Hlen;
    big, a1, a2 := count1, 0, 0;
    ghost var n := 0;
    while big > 3
      invariant big + 4 * n == count1 && big % 2 == 0 && SmallValues(ix, big, count1)
      invariant a1 == QuadsCost(0, ix, big, n) && a2 == QuadsCost(1, ix, big, n)
    {
      if !SmallQuad(ix, big - 4) { break; }
      var x, y := 2 * ix[big - 4] + ix[big - 3], 2 * ix[big - 2] + ix[big - 1];
      a1 := a1 + Hlen(32, x, y);
      a2 := a2 + Hlen(33, x, y);
      big := big - 4;
      n := n + 1;
    }
  }

  /** A table that can be written, or none. */
  predicate TableOk(t: nat) { t == 0 || (Usable(Renamed(t)) && Renamed(t) < 32) }

  predicate TablesOk(ts: seq<nat>) { |ts| == 3 && TableOk(ts[0]) && TableOk(ts[1]) && TableOk(ts[2]) }

  predicate Bounded(ix: seq<nat>) { forall i | 0 <= i < |ix| :: ix[i] <= IXMAX_VAL }

  /** choose_table for a region that may be empty, whose table then stays as it was. */
  method ChooseRegion(ix: seq<nat>, from: nat, end: nat, t0: nat, s: int) returns (t: nat, s': int)
    requires from <= end <= |ix| <= 576 && (end - from) % 2 == 0 && Bounded(ix) && TableOk(t0)
    ensures TableOk(t) && RegionCodable(Renamed(t), ix, from, end)
    ensures s' == s + RegionCost(Renamed(t), ix, from, (end - from) / 2)
    ensures Cheapest(ix, from, end, s' - s)
    ensures from == end ==> t == t0
  {
    hide Linmax, Xlen, PairCost, Codable, IsMax, Candidate, Fewest, RegionCodable, RegionCost;
    if from < end {
      var u;
      u, s' := ChooseTable(ix, from, end, s);
      t := u;
      SuitsIsOk(t, ix, from, end);
    } else {
      t, s' := t0, s;
      NothingThere(ix, from, t0);
      NothingCosts(ix, from);
    }
  }

  lemma NothingCosts(ix: seq<nat>, from: nat)
    requires from <= |ix|
    ensures forall u: nat :: WrittenCost(u, ix, from, from) == 0
  {
  }

  /** No candidate codes the region in fewer bits. */
  ghost predicate Cheapest(ix: seq<nat>, from: nat, end: nat, bits: int)
    requires from <= end <= |ix|
  {
    forall t | CandidateOf(t, ix, from, end) :: bits <= WrittenCost(t, ix, from, end)
  }

  /** Whatever candidates code three regions that end at `a1`, `a2` and `big`, they take no fewer bits. */
  ghost predicate NoCheaper(ix: seq<nat>, a1: nat, a2: nat, big: nat, bits: int)
    requires a1 <= a2 <= big <= |ix|
  {
    forall t0, t1, t2 | CandidateOf(t0, ix, 0, a1) && CandidateOf(t1, ix, a1, a2) && CandidateOf(t2, ix, a2, big) ::
      bits <= WrittenCost(t0, ix, 0, a1) + WrittenCost(t1, ix, a1, a2) + WrittenCost(t2, ix, a2, big)
  }

  lemma SuitsIsOk(t: nat, ix: seq<nat>, from: nat, end: nat)
    requires from <= end <= |ix| && Suits(t, ix, from, end)
    ensures TableOk(t)
  {
  }

  /** The last part of noquant_count_bits: a table for each of the three regions that end at `a1`, `a2` and `big`. */
  method ChooseTables(ix: seq<nat>, a1: nat, a2: nat, big: nat, ts0: seq<nat>, bits0: int)
    returns (ts: seq<nat>, bits: int)
    requires a1 <= a2 <= big <= |ix| <= 576 && a1 % 2 == 0 && a2 % 2 == 0 && big % 2 == 0
    requires Bounded(ix) && TablesOk(ts0)
    ensures TablesOk(ts)
    ensures RegionCodable(Renamed(ts[0]), ix, 0, a1) && RegionCodable(Renamed(ts[1]), ix, a1, a2)
    ensures RegionCodable(Renamed(ts[2]), ix, a2, big)
    ensures bits == bits0 + RegionCost(Renamed(ts[0]), ix, 0, a1 / 2)
        + RegionCost(Renamed(ts[1]), ix, a1, (a2 - a1) / 2)
                    + RegionCost(Renamed(ts[2]), ix, a2, (big - a2) / 2)
    ensures NoCheaper(ix, a1, a2, big, bits - bits0)
  {
    hide RegionCost, RegionCodable, TableOk, CandidateOf, WrittenCost;
    ts, bits := ts0, bits0;
    var t;
    t, bits := ChooseRegion(ix, a2, big, ts[2], bits);
    ts := ts[2 := t];
    t, bits := ChooseRegion(ix, 0, a1, ts[0], bits);
    ts := ts[0 := t];
    t, bits := ChooseRegion(ix, a1, a2, ts[1], bits);
    ts := ts[1 := t];
  }

  // ----- noquant_count_bits

  /** The quadruples start and end as early as they can, and are coded with the cheaper table. */
  ghost predicate EndsTight(g: GrInfo) {
    && |g.l3Enc| == 576 && g.bigValues <= g.count1 <= 576 && g.count1TableSelect < 2
    && (g.count1 > 1 ==> g.l3Enc[g.count1 - 1] != 0 || g.l3Enc[g.count1 - 2] != 0)
    && (g.bigValues > 3 ==> !SmallQuad(g.l3Enc, g.bigValues - 4))
    && g.count1bits <= QuadsCost(1 - g.count1TableSelect, g.l3Enc, g.bigValues, (g.count1 - g.bigValues) / 4)
  }

  lemma StillTight(g: GrInfo, h: GrInfo)
    requires EndsTight(g) && h == g.(region0Count := h.region0Count, region1Count := h.region1Count,
                                     tableSelect := h.tableSelect)
    ensures EndsTight(h)
  {
    hide QuadsCost;
  }

  /** What the quantizer leaves: values in range, zero above max_nonzero_coeff; and tables and region counts, which
      may be those of an earlier division. */
  ghost predicate Countable(g: GrInfo) {
    && |g.l3Enc| == |g.neg| == 576 && Bounded(g.l3Enc)
    && -1 <= g.maxNonzeroCoeff <= 575 && (forall i | g.maxNonzeroCoeff < i < 576 :: g.l3Enc[i] == 0)
    && TablesOk(g.tableSelect) && RegionCounts(g)
  }

  /** The granule's division codes its spectrum, and is counted right. */
  ghost predicate Divided(b: Bands, g: GrInfo, bits: int) {
    && Edges(b) && Regions(g) && Codes(PlanOf(b, g), g.l3Enc) && TablesOk(g.tableSelect) && Bounded(g.l3Enc)
    && g.count1bits == QuadsCost(g.count1TableSelect, g.l3Enc, g.bigValues, (g.count1 - g.bigValues) / 4)
    && bits == SpectrumCost(PlanOf(b, g), g.l3Enc)
  }

  /** `h` is `g` but for the division of its spectrum. */
  ghost predicate SameGranule(g: GrInfo, h: GrInfo) {
    h == g.(count1 := h.count1, count1TableSelect := h.count1TableSelect, count1bits := h.count1bits,
            bigValues := h.bigValues, region0Count := h.region0Count, region1Count := h.region1Count,
            tableSelect := h.tableSelect, part23Length := h.part23Length)
  }

  /** What is kept in lame_internal_flags for the division. */
  class Divider {
    const bands: Bands
    const modeGr: nat
    const useBestHuffman: nat
    var bvScf: seq<nat>

    /** huffman_init has been called. */
    ghost predicate Ready()
      reads this
    {
      && Edges(bands) && 1 <= modeGr <= 2 && (modeGr == 2 ==> bands.l[8] == 3 * bands.s[3])
      && |bvScf| == 576 && forall i | 0 <= i < 288 :: RegionsOk(bvScf[2 * i], bvScf[2 * i + 1])
    }

    /** The two ends that noquant_count_bits divides the big values at. */
    method SetRegions(s: GrState) returns (a1: nat, a2: nat)
      requires Ready() && 0 < s.gi.bigValues <= 576 && s.gi.bigValues % 2 == 0 && RegionCounts(s.gi)
      modifies s
      ensures s.gi == old(s.gi).(region0Count := s.gi.region0Count, region1Count := s.gi.region1Count)
      ensures RegionCounts(s.gi)
      ensures s.gi.blockType != NORM_TYPE && s.gi.blockType != SHORT_TYPE ==>
        s.gi.region0Count == 7 && s.gi.region1Count == 13
      ensures s.gi.blockType == NORM_TYPE ==>
        s.gi.region0Count == bvScf[s.gi.bigValues - 2] && s.gi.region1Count == bvScf[s.gi.bigValues - 1]
      ensures a1 == Region1Start(bands, s.gi) && a2 == Region2Start(bands, s.gi)
    {
      var big := s.gi.bigValues;
      if s.gi.blockType == SHORT_TYPE {
        a1 := 3 * bands.s[3];
        if a1 > big {
          a1 := big;
        }
        a2 := big;
      } else if s.gi.blockType == NORM_TYPE {
        ghost var h := (big - 2) / 2;
        assert 2 * h == big - 2 && RegionsOk(bvScf[2 * h], bvScf[2 * h + 1]);
        s.gi := s.gi.(region0Count := bvScf[big - 2], region1Count := bvScf[big - 1]);
        a2 := bands.l[s.gi.region0Count + s.gi.region1Count + 2];
        a1 := bands.l[s.gi.region0Count + 1];
      } else {
        s.gi := s.gi.(region0Count := 7, region1Count := SBMAX_l - 1 - 7 - 1);
        a1 := bands.l[7 + 1];
        a2 := big;
        if a1 > a2 {
          a1 := a2;
        }
      }
      a1 := Min(a1, big);
      a2 := Min(a2, big);
    }

    /** Where the values end and the quadruples begin. */
    method SetCount1(s: GrState) returns (bits: int)
      requires Countable(s.gi)
      modifies s
      ensures s.gi == old(s.gi).(count1 := s.gi.count1, count1TableSelect := s.gi.count1TableSelect,
                                 count1bits := bits, bigValues := s.gi.bigValues)
      ensures s.gi.bigValues <= s.gi.count1 <= 576 && s.gi.bigValues % 2 == 0 && (s.gi.count1 - s.gi.bigValues) % 4 == 0
      ensures s.gi.count1TableSelect < 2 && SmallValues(s.gi.l3Enc, s.gi.bigValues, s.gi.count1)
      ensures forall i | s.gi.count1 <= i < 576 :: s.gi.l3Enc[i] == 0
      ensures bits == QuadsCost(s.gi.count1TableSelect, s.gi.l3Enc, s.gi.bigValues, (s.gi.count1 - s.gi.bigValues) / 4)
      ensures EndsTight(s.gi)
    {
      hide QuadsCost;
      var ix := s.gi.l3Enc;
      var count1 := FindCount1(ix, Min(576, (s.gi.maxNonzeroCoeff + 2) / 2 * 2));
      var big, a1, a2 := CountQuads(ix, count1);
      bits := a1;
      var select := 0;
      if a1 > a2 {
        bits := a2;
        select := 1;
      }
      s.gi := s.gi.(count1 := count1, count1TableSelect := select, count1bits := bits, bigValues := big);
    }

    /** noquant_count_bits, up to the call of best_huffman_divide. */
    method CountBits(s: GrState) returns (bits: int)
      requires Ready() && Countable(s.gi)
      modifies s
      ensures Divided(bands, s.gi, bits) && SameGranule(old(s.gi), s.gi) && s.gi.part23Length == old(s.gi.part23Length)
      ensures EndsTight(s.gi) && WellChosen(s.gi, bits)
    {
      hide QuadsCost, RegionCost, RegionCodable, TableOk, SmallValues, Divided, SmallQuad, NoCheaper, EndsTight;
      bits := SetCount1(s);
      ghost var g := s.gi;
      if s.gi.bigValues == 0 {
        NothingBig(bands, s.gi, bits);
        return;
      }
      var a1, a2 := SetRegions(s);
      RegionOrder(bands, s.gi);
      var ts;
      ts, bits := ChooseTables(s.gi.l3Enc, a1, a2, s.gi.bigValues, s.gi.tableSelect, bits);
      s.gi := s.gi.(tableSelect := ts);
      DividedAs(bands, s.gi, a1, a2, bits);
      StillTight(g, s.gi);
    }

    /** The regions of a normal block end as huffman_init has it, and no candidates code the regions in fewer bits. */
    ghost predicate WellChosen(g: GrInfo, bits: int)
      requires Edges(bands) && Regions(g) && |bvScf| == 576
      reads this
    {
      RegionOrder(bands, g);
      g.bigValues > 0 ==>
        && NoCheaper(g.l3Enc, Region1Start(bands, g), Region2Start(bands, g), g.bigValues, bits - g.count1bits)
        && (g.blockType == NORM_TYPE ==>
              g.region0Count == bvScf[g.bigValues - 2] && g.region1Count == bvScf[g.bigValues - 1])
    }

    /** noquant_count_bits: the count above, for `counted`, and if asked for a better division. */
    method NoquantCountBits(s: GrState) returns (bits: int, ghost counted: GrInfo, ghost first: int)
      requires Ready() && Countable(s.gi)
      modifies s
      ensures Divided(bands, s.gi, bits) && SameGranule(old(s.gi), s.gi) && SameGranule(old(s.gi), counted)
      ensures EndsTight(counted) && Divided(bands, counted, first) && WellChosen(counted, first) && bits <= first
      ensures if useBestHuffman == 2 && counted.bigValues > 0 then Sought(bands, modeGr, counted, bits)
              else s.gi == counted && bits == first
    {
      hide Divided, Countable, EndsTight, WellChosen;
      bits := CountBits(s);
      counted, first := s.gi, bits;
      if s.gi.bigValues == 0 { return; }
      if useBestHuffman == 2 {
        DividedOnly(bands, s.gi, bits);
        s.gi := s.gi.(part23Length := bits);
        BestHuffmanDivide(s);
        bits := s.gi.part23Length;
      }
    }

    /** huffman_init: for each number of big values, region counts taken from the table but for ends that lie
        behind the big values. */
    method HuffmanInit()
      requires Edges(bands) && 1 <= modeGr <= 2 && (modeGr == 2 ==> bands.l[8] == 3 * bands.s[3])
      modifies this
      ensures Ready()
      ensures forall h | 0 <= h < 288 :: EndsInside(bands, 2 * h + 2, bvScf[2 * h], bvScf[2 * h + 1])
      ensures forall h | 0 <= h < 288 :: Subdivides(bands, 2 * h + 2, bvScf[2 * h], bvScf[2 * h + 1])
    {
      hide Subdivides;
      var bv: seq<nat> := [];
      for h := 0 to 288
        invariant |bv| == 2 * h && forall k | 0 <= k < h :: RegionsOk(bv[2 * k], bv[2 * k + 1])
        invariant forall k | 0 <= k < h :: EndsInside(bands, 2 * k + 2, bv[2 * k], bv[2 * k + 1])
        invariant forall k | 0 <= k < h :: Subdivides(bands, 2 * k + 2, bv[2 * k], bv[2 * k + 1])
      {
        var r0, r1 := Subdivide(2 * h + 2);
        bv := bv + [r0, r1];
      }
      bvScf := bv;
    }

    /** One turn of the loop in huffman_init. */
    method Subdivide(i: nat) returns (r0: nat, r1: nat)
      requires Edges(bands) && 2 <= i <= 576
      ensures RegionsOk(r0, r1) && EndsInside(bands, i, r0, r1) && Subdivides(bands, i, r0, r1)
    {
      hide Subdv;
      var scfbAnz := 1;
      while bands.l[scfbAnz] < i
        invariant 1 <= scfbAnz <= 22 && bands.l[scfbAnz - 1] < i
        decreases 22 - scfbAnz
      {
        scfbAnz := scfbAnz + 1;
      }
      SubdvSmall(scfbAnz);
      r0 := LastInside(i, 1, Subdv(scfbAnz).0);
      r1 := LastInside(i, r0 + 2, Subdv(scfbAnz).1);
      assert Fitted(bands, i, 1, Subdv(scfbAnz).0, r0);
      FittedEnds(bands, i, 1, Subdv(scfbAnz).0, r0);
      FittedEnds(bands, i, r0 + 2, Subdv(scfbAnz).1, r1);
    }

    /** Either loop over bv_index: from the count in the table downwards until the region ends inside. */
    method LastInside(i: nat, at: nat, count: nat) returns (r: nat)
      requires Edges(bands) && 2 <= i <= 576 && 1 <= at && at + count <= 22
      ensures r <= count && Fitted(bands, i, at, count, r)
    {
      var bvIndex: int := count;
      while bands.l[bvIndex + at] > i
        invariant 0 <= bvIndex + at && bvIndex <= count && (bands.l[at] <= i ==> 0 <= bvIndex)
        invariant forall k: int | bvIndex + at < k <= count + at :: bands.l[k] > i
        decreases bvIndex + at
      {
        bvIndex := bvIndex - 1;
      }
      if bvIndex < 0 {
        bvIndex := count;
      } else {
        EdgesIncrease(bands, at, bvIndex + at);
      }
      r := bvIndex;
    }

    // ----- best_huffman_divide

    /** recalc_divide_init: for each end of the second region the cheapest end of the first one. */
    method RecalcDivideInit(ix: seq<nat>, bigv: nat) returns (rows: seq<Row>)
      requires Edges(bands) && |ix| == 576 && Bounded(ix) && bigv <= 576
      ensures |rows| == 23 && forall r | 0 <= r < 23 :: RowOk(bands, ix, r, rows[r])
      ensures RowsLeast(bands, ix, bigv, rows, 128)
    {
      hide RegionCost, RegionCodable, Usable, RowOk, RowLeast;
      rows := seq(23, _ => Row(LARGE_BITS, 0, 0, 0));
      EmptyRows(bands, ix, rows);
      for r0 := 0 to 16
        invariant |rows| == 23 && forall r | 0 <= r < 23 :: RowOk(bands, ix, r, rows[r])
        invariant RowsLeast(bands, ix, bigv, rows, 8 * r0)
      {
        var a1 := bands.l[r0 + 1];
        if a1 >= bigv {
          NoMoreRows(bands, ix, bigv, rows, r0);
          break;
        }
        EdgesIncrease(bands, 0, r0 + 1);
        var r0t, r0bits := ChooseRegion(ix, 0, a1, 0, 0);
        rows := RecalcRow(ix, bigv, rows, r0, r0t, r0bits);
      }
    }

    /** The inner loop of recalc_divide_init: it never looks past the last band edge. */
    method RecalcRow(ix: seq<nat>, bigv: nat, rows0: seq<Row>, r0: nat, r0t: nat, r0bits: int) returns (rows: seq<Row>)
      requires Edges(bands) && |ix| == 576 && Bounded(ix) && bigv <= 576 && r0 < 16 && bands.l[r0 + 1] < bigv
      requires |rows0| == 23 && forall r | 0 <= r < 23 :: RowOk(bands, ix, r, rows0[r])
      requires TableOk(r0t) && RegionCodable(Renamed(r0t), ix, 0, bands.l[r0 + 1])
      requires r0bits == RegionCost(Renamed(r0t), ix, 0, bands.l[r0 + 1] / 2)
      requires Cheapest(ix, 0, bands.l[r0 + 1], r0bits)
      requires RowsLeast(bands, ix, bigv, rows0, 8 * r0)
      ensures |rows| == 23 && forall r | 0 <= r < 23 :: RowOk(bands, ix, r, rows[r])
      ensures RowsLeast(bands, ix, bigv, rows, 8 * r0 + 8)
    {
      hide RegionCost, RegionCodable, Usable, Cheapest, NoCheaper, RowLeast, RowOk, RowsLeast, Bounded;
      rows := rows0;
      var a1 := bands.l[r0 + 1];
      for r1 := 0 to 8
        invariant r0 + r1 + 1 <= 22 && bands.l[r0 + r1 + 1] < bigv
        invariant |rows| == 23 && forall r | 0 <= r < 23 :: RowOk(bands, ix, r, rows[r])
        invariant RowsLeast(bands, ix, bigv, rows, 8 * r0 + r1)
      {
        EdgeInside(bands, r0 + r1 + 1, bigv);
        var a2 := bands.l[r0 + r1 + 2];
        if a2 >= bigv {
          NoMoreInRow(bands, ix, bigv, rows, r0, r1);
          break;
        }
        EdgesIncrease(bands, r0 + 1, r0 + r1 + 2);
        var r1t, bits := ChooseRegion(ix, a1, a2, 0, r0bits);
        CheapestPair(ix, a1, a2, r0bits, bits - r0bits);
        ghost var before := rows;
        if rows[r0 + r1].bits > bits {
          rows := rows[r0 + r1 := Row(bits, r0, r0t, r1t)];
          FullRow(bands, ix, r0 + r1, rows[r0 + r1]);
        }
        PairInRow(bands, ix, bigv, r0, r1, bits);
        NextRow(bands, ix, bigv, before, rows, r0, r1, bits);
      }
    }

    /** The end of a turn of recalc_divide_sub: the third region, and the division if it is cheaper. */
    method TrySplit(cod2: GrInfo, s: GrState, row: Row, r2: nat)
      requires Edges(bands) && CountedEnd(cod2) && cod2.blockType == NORM_TYPE && SameGranule(s.gi, cod2)
      requires Divided(bands, s.gi, s.gi.part23Length) && s.gi.part23Length <= LARGE_BITS
      requires 2 <= r2 <= 22 && bands.l[r2] < cod2.bigValues && |cod2.l3Enc| == 576
      requires RowOk(bands, cod2.l3Enc, r2 - 2, row) && row.bits + cod2.count1bits < s.gi.part23Length
      requires PairLeast(bands, cod2.l3Enc, row.bits, r2)
      requires SplitsLeast(bands, cod2.l3Enc, cod2.bigValues, s.gi.part23Length - cod2.count1bits, r2)
      modifies s
      ensures Divided(bands, s.gi, s.gi.part23Length) && SameGranule(old(s.gi), s.gi)
      ensures s.gi.part23Length <= old(s.gi.part23Length)
      ensures s.gi == old(s.gi) || (s.gi.bigValues == cod2.bigValues && s.gi.count1 == cod2.count1)
      ensures SplitsLeast(bands, cod2.l3Enc, cod2.bigValues, s.gi.part23Length - cod2.count1bits, r2 + 1)
    {
      hide RegionCost, RegionCodable, Usable, Divided, CountedEnd, RowOk, Cheapest, RowsLeast;
      hide SplitLeast, SplitsAt, SplitsLeast, PairLeast;
      var a2, bigv := bands.l[r2], cod2.bigValues;
      EndFacts(cod2);
      RowIsFull(bands, cod2.l3Enc, r2 - 2, row);
      var r2t, bits := ChooseRegion(cod2.l3Enc, a2, bigv, 0, row.bits + cod2.count1bits);
      SplitOfPair(bands, cod2.l3Enc, bigv, row.bits, bits - cod2.count1bits, r2);
      ghost var length := s.gi.part23Length;
      if s.gi.part23Length > bits {
        s.gi := TakeDivision(cod2, bits, row, r2 - 2, r2t);
      }
      NextSplit(bands, cod2.l3Enc, bigv, length - cod2.count1bits, bits - cod2.count1bits,
                s.gi.part23Length - cod2.count1bits, r2);
    }

    /** recalc_divide_sub: every division into three regions of the spectrum as `cod2` ends it; a cheaper one
        takes the place of the granule's. */
    method RecalcDivideSub(cod2: GrInfo, s: GrState, rows: seq<Row>, ghost rowsBig: nat)
      requires Edges(bands) && CountedEnd(cod2) && cod2.blockType == NORM_TYPE && SameGranule(s.gi, cod2)
      requires Divided(bands, s.gi, s.gi.part23Length) && s.gi.part23Length <= LARGE_BITS
      requires |rows| == 23 && forall r | 0 <= r < 23 :: RowOk(bands, cod2.l3Enc, r, rows[r])
      requires cod2.bigValues <= rowsBig <= 576 && RowsLeast(bands, cod2.l3Enc, rowsBig, rows, 128)
      modifies s
      ensures Divided(bands, s.gi, s.gi.part23Length) && SameGranule(old(s.gi), s.gi)
      ensures s.gi.part23Length <= old(s.gi.part23Length)
      ensures s.gi == old(s.gi) || (s.gi.bigValues == cod2.bigValues && s.gi.count1 == cod2.count1)
      ensures Best(bands, cod2.l3Enc, cod2.bigValues, s.gi.part23Length - cod2.count1bits)
    {
      hide RegionCost, RegionCodable, Usable, Divided, CountedEnd, RowOk, Cheapest, RowsLeast;
      hide SplitLeast, SplitsAt, SplitsLeast, Best, PairLeast;
      var bigv := cod2.bigValues;
      EndFacts(cod2);
      ghost var stop := 23;
      NoSplits(bands, cod2.l3Enc, bigv, s.gi.part23Length - cod2.count1bits);
      for r2 := 2 to 23
        invariant Divided(bands, s.gi, s.gi.part23Length) && SameGranule(old(s.gi), s.gi)
        invariant s.gi.part23Length <= old(s.gi.part23Length) && stop == 23
        invariant s.gi == old(s.gi) || (s.gi.bigValues == cod2.bigValues && s.gi.count1 == cod2.count1)
        invariant SplitsLeast(bands, cod2.l3Enc, bigv, s.gi.part23Length - cod2.count1bits, r2)
      {
        var a2 := bands.l[r2];
        if a2 >= bigv {
          NoMoreSplits(bands, cod2.l3Enc, bigv, s.gi.part23Length - cod2.count1bits, r2);
          break;
        }
        var bits := rows[r2 - 2].bits + cod2.count1bits;
        RowsPair(bands, cod2.l3Enc, rowsBig, rows, r2);
        if s.gi.part23Length <= bits {
          stop := r2;
          PairLess(bands, cod2.l3Enc, rows[r2 - 2].bits, s.gi.part23Length - cod2.count1bits, r2);
          break;
        }
        TrySplit(cod2, s, rows[r2 - 2], r2);
      }
      IsBest(bands, cod2.l3Enc, bigv, s.gi.part23Length - cod2.count1bits, stop);
    }

    /** The granule as `cod2` with the division of a row. */
    method TakeDivision(cod2: GrInfo, bits: int, row: Row, r: nat, r2t: nat) returns (g: GrInfo)
      requires Edges(bands) && CountedEnd(cod2) && cod2.blockType == NORM_TYPE
      requires r < 21 && RowFull(bands, cod2.l3Enc, r, row) && bands.l[r + 2] < cod2.bigValues
      requires TableOk(r2t) && RegionCodable(Renamed(r2t), cod2.l3Enc, bands.l[r + 2], cod2.bigValues)
      requires bits == row.bits + cod2.count1bits
                       + RegionCost(Renamed(r2t), cod2.l3Enc, bands.l[r + 2], (cod2.bigValues - bands.l[r + 2]) / 2)
      ensures Divided(bands, g, bits) && SameGranule(cod2, g) && g.part23Length == bits
      ensures g.bigValues == cod2.bigValues && g.count1 == cod2.count1
    {
      hide RegionCost, RegionCodable, TableOk, QuadsCost;
      g := cod2.(part23Length := bits, region0Count := row.div, region1Count := r - row.div,
                 tableSelect := [row.tbl0, row.tbl1, r2t]);
      DividedAs(bands, g, bands.l[row.div + 1], bands.l[r + 2], bits);
    }

    /** The loop of best_huffman_divide that counts quadruples from two values further on. */
    method CountShifted(ix: seq<nat>, end: nat, bigv: nat) returns (big: nat, a1: int, a2: int)
      requires 2 <= bigv && bigv <= end <= |ix| && (end - bigv) % 4 == 2 && bigv % 2 == 0
      requires SmallValues(ix, bigv - 2, end)
      ensures big == bigv - 2
      ensures a1 == QuadsCost(0, ix, big, (end - big) / 4) && a2 == QuadsCost(1, ix, big, (end - big) / 4)
    {
      hide Hlen;
      var i: int := end;
      a1, a2 := 0, 0;
      ghost var n := 0;
      while i > bigv
        invariant bigv - 2 <= i <= end && i + 4 * n == end && (i - bigv) % 4 == 2
        invariant a1 == QuadsCost(0, ix, i, n) && a2 == QuadsCost(1, ix, i, n)
      {
        var x, y := 2 * ix[i - 4] + ix[i - 3], 2 * ix[i - 2] + ix[i - 1];
        a1 := a1 + Hlen(32, x, y);
        a2 := a2 + Hlen(33, x, y);
        i := i - 4;
        n := n + 1;
      }
      big := i;
    }

    /** The granule with its last pair of big values among the quadruples, which end one pair later. */
    method Shifted(g: GrInfo) returns (cod2: GrInfo)
      requires CountedEnd(g) && 2 <= g.bigValues && g.count1 + 2 <= 576
      requires g.l3Enc[g.bigValues - 2] <= 1 && g.l3Enc[g.bigValues - 1] <= 1
      ensures CountedEnd(cod2) && cod2.bigValues == g.bigValues - 2 && cod2.count1 == g.count1 + 2
      ensures cod2 == g.(count1 := cod2.count1, bigValues := cod2.bigValues,
          count1TableSelect := cod2.count1TableSelect,
                         count1bits := cod2.count1bits)
      ensures (g.count1 - g.bigValues) % 4 == 0 && Movable(g) && cod2.count1bits == MovedQuads(g)
    {
      hide QuadsCost;
      var big, a1, a2 := CountShifted(g.l3Enc, g.count1 + 2, g.bigValues);
      cod2 := g.(count1 := g.count1 + 2, bigValues := big, count1TableSelect := 0);
      if a1 > a2 {
        a1 := a2;
        cod2 := cod2.(count1TableSelect := 1);
      }
      cod2 := cod2.(count1bits := a1);
    }

    /** Two regions, for block types that have no more. */
    method TwoRegions(cod2: GrInfo) returns (g: GrInfo)
      requires Edges(bands) && CountedEnd(cod2) && Regions(cod2) && TablesOk(cod2.tableSelect)
      requires cod2.blockType != NORM_TYPE && (cod2.blockType == SHORT_TYPE ==> bands.l[8] == 3 * bands.s[3])
      ensures Divided(bands, g, g.part23Length) && SameGranule(cod2, g)
      ensures NoCheaper(cod2.l3Enc, Min(bands.l[8], cod2.bigValues), cod2.bigValues, cod2.bigValues,
                        g.part23Length - cod2.count1bits)
    {
      hide RegionCost, RegionCodable, TableOk, QuadsCost, Divided, Cheapest, NoCheaper, Region1Start, Region2Start;
      hide SmallValues;
      var i := cod2.bigValues;
      var bits := cod2.count1bits;
      var a1 := bands.l[7 + 1];
      if a1 > i {
        a1 := i;
      }
      NothingThere(cod2.l3Enc, i, cod2.tableSelect[2]);
      var t0, t1;
      ghost var bits0;
      t0, bits := ChooseRegion(cod2.l3Enc, 0, a1, cod2.tableSelect[0], bits);
      bits0 := bits - cod2.count1bits;
      t1, bits := ChooseRegion(cod2.l3Enc, a1, i, cod2.tableSelect[1], bits);
      CheapestPair(cod2.l3Enc, a1, i, bits0, bits - cod2.count1bits - bits0);
      g := cod2.(part23Length := bits, tableSelect := [t0, t1, cod2.tableSelect[2]]);
      TwoRegionsEnd(bands, g, a1, i);
      DividedAs(bands, g, a1, i, bits);
    }

    /** best_huffman_divide: never more bits, still counted right, and nothing else changed. */
    method BestHuffmanDivide(s: GrState)
      requires Ready() && Divided(bands, s.gi, s.gi.part23Length)
      modifies s
      ensures Divided(bands, s.gi, s.gi.part23Length) && SameGranule(old(s.gi), s.gi)
      ensures s.gi.part23Length <= old(s.gi.part23Length) && Sought(bands, modeGr, old(s.gi), s.gi.part23Length)
    {
      hide RegionCost, RegionCodable, Usable, Divided, CountedEnd, RowOk, QuadsCost, RowsLeast, Best, NoCheaper;
      ghost var g := s.gi;
      DividedEnd(bands, s.gi);
      EndFacts(s.gi);
      if s.gi.blockType == SHORT_TYPE && modeGr == 1 { return; }
      var cod2, rows := s.gi, [];
      if s.gi.blockType == NORM_TYPE {
        rows := RecalcDivideInit(s.gi.l3Enc, s.gi.bigValues);
        RecalcDivideSub(cod2, s, rows, g.bigValues);
      }
      ghost var first := s.gi.part23Length;
      var i := cod2.bigValues;
      if i == 0 || cod2.l3Enc[i - 2] > 1 || cod2.l3Enc[i - 1] > 1 { return; }
      if s.gi.count1 + 2 > 576 { return; }
      DividedEnd(bands, s.gi);
      cod2 := Shifted(s.gi);
      assert Movable(g) && MovedQuads(g) == cod2.count1bits;
      if s.gi.blockType == NORM_TYPE {
        RecalcDivideSub(cod2, s, rows, g.bigValues);
        StillBest(bands, g.l3Enc, g.bigValues, first - g.count1bits, s.gi.part23Length - g.count1bits);
      } else {
        StillRegions(bands, s.gi, cod2);
        cod2 := TwoRegions(cod2);
        NoneDearer(g.l3Enc, Min(bands.l[8], g.bigValues - 2), g.bigValues - 2, g.bigValues - 2,
                   cod2.part23Length - MovedQuads(g), Min(g.part23Length, cod2.part23Length) - MovedQuads(g));
        if s.gi.part23Length > cod2.part23Length {
          s.gi := cod2;
        }
      }
    }
  }

  lemma TwoRegionsEnd(b: Bands, g: GrInfo, a1: nat, i: nat)
    requires Edges(b) && Regions(g) && g.blockType != NORM_TYPE && (g.blockType == SHORT_TYPE ==> b.l[8] == 3 * b.s[3])
    requires i == g.bigValues && a1 == Min(b.l[8], i)
    ensures Region1Start(b, g) == a1 && Region2Start(b, g) == i
  {
    RegionOrder(b, g);
  }

  // ----- how good a division is

  /** No candidates for the two regions that end after `r0 + 1` and `r0 + r1 + 2` bands take fewer bits. */
  ghost predicate RowLeast(b: Bands, ix: seq<nat>, bigv: nat, r0: nat, r1: nat, bits: int)
    requires Edges(b) && |ix| == 576
  {
    r0 + r1 + 2 <= 22 && b.l[r0 + r1 + 2] < bigv <= 576 ==>
      (EdgesIncrease(b, r0 + 1, r0 + r1 + 2);
       NoCheaper(ix, b.l[r0 + 1], b.l[r0 + r1 + 2], b.l[r0 + r1 + 2], bits))
  }

  /** The first `n` of the 128 pairs of counts have been looked at. */
  ghost predicate RowsLeast(b: Bands, ix: seq<nat>, bigv: nat, rows: seq<Row>, n: nat)
    requires Edges(b) && |ix| == 576 && |rows| == 23
  {
    forall r0, r1 | 0 <= r0 < 16 && 0 <= r1 < 8 && 8 * r0 + r1 < n :: LeastIn(b, ix, bigv, rows, r0, r1)
  }

  ghost predicate LeastIn(b: Bands, ix: seq<nat>, bigv: nat, rows: seq<Row>, r0: nat, r1: nat)
    requires Edges(b) && |ix| == 576 && |rows| == 23 && r0 + r1 < 23
  {
    RowLeast(b, ix, bigv, r0, r1, rows[r0 + r1].bits)
  }

  /** No candidates for the three regions that end there and at `bigv` take fewer bits. */
  ghost predicate SplitLeast(b: Bands, ix: seq<nat>, bigv: nat, r0: nat, r1: nat, bits: int)
    requires Edges(b) && |ix| == 576
  {
    r0 + r1 + 2 <= 22 && b.l[r0 + r1 + 2] < bigv <= 576 ==>
      (EdgesIncrease(b, r0 + 1, r0 + r1 + 2);
       NoCheaper(ix, b.l[r0 + 1], b.l[r0 + r1 + 2], bigv, bits))
  }

  /** For all divisions whose second region ends before the edge `r2`. */
  ghost predicate SplitsLeast(b: Bands, ix: seq<nat>, bigv: nat, bits: int, r2: nat)
    requires Edges(b) && |ix| == 576
  {
    forall r0, r1 | 0 <= r0 < 16 && 0 <= r1 < 8 && r0 + r1 + 2 < r2 :: SplitLeast(b, ix, bigv, r0, r1, bits)
  }

  /** For those whose second region ends at it. */
  ghost predicate SplitsAt(b: Bands, ix: seq<nat>, bigv: nat, bits: int, r2: nat)
    requires Edges(b) && |ix| == 576
  {
    forall r0, r1 | 0 <= r0 < 16 && 0 <= r1 < 8 && r0 + r1 + 2 == r2 :: SplitLeast(b, ix, bigv, r0, r1, bits)
  }

  /** For the first two regions of all that end it there. */
  ghost predicate PairLeast(b: Bands, ix: seq<nat>, bits: int, r2: nat)
    requires Edges(b) && |ix| == 576 && r2 <= 22
  {
    forall r0 | 0 <= r0 < 16 && 2 <= r2 - r0 <= 9 :: EndsAt(b, ix, bits, r2, r0)
  }

  ghost predicate EndsAt(b: Bands, ix: seq<nat>, bits: int, r2: nat, r0: nat)
    requires Edges(b) && |ix| == 576 && r0 + 2 <= r2 <= 22
  {
    EdgesIncrease(b, r0 + 1, r2);
    EdgesIncrease(b, r2, 22);
    NoCheaper(ix, b.l[r0 + 1], b.l[r2], b.l[r2], bits)
  }

  /** No division at two band edges takes fewer bits, up to an edge before which already two regions take as many. */
  ghost predicate BestUpTo(b: Bands, ix: seq<nat>, bigv: nat, bits: int, stop: nat)
    requires Edges(b) && |ix| == 576
  {
    2 <= stop <= 23 && SplitsLeast(b, ix, bigv, bits, stop)
    && (stop < 23 ==> b.l[stop] < bigv <= 576 && PairLeast(b, ix, bits, stop))
  }

  ghost predicate Best(b: Bands, ix: seq<nat>, bigv: nat, bits: int)
    requires Edges(b) && |ix| == 576
  {
    exists stop: nat :: BestUpTo(b, ix, bigv, bits, stop)
  }

  /** The last pair of big values can be moved to the quadruples. */
  predicate Movable(g: GrInfo)
    requires |g.l3Enc| == 576
  {
    2 <= g.bigValues <= g.count1 && g.count1 + 2 <= 576
    && g.l3Enc[g.bigValues - 2] <= 1 && g.l3Enc[g.bigValues - 1] <= 1
  }

  /** What the quadruples then take. */
  function MovedQuads(g: GrInfo): int
    requires |g.l3Enc| == 576 && Movable(g) && (g.count1 - g.bigValues) % 4 == 0
  {
    var from, n := g.bigValues - 2, (g.count1 - g.bigValues) / 4 + 1;
    Min(QuadsCost(0, g.l3Enc, from, n), QuadsCost(1, g.l3Enc, from, n))
  }

  /** What best_huffman_divide has tried for granule `g` takes no fewer bits than `length`: the divisions of a normal
      block with either end of the big values, and the two regions of any other. */
  ghost predicate Sought(b: Bands, modeGr: nat, g: GrInfo, length: int)
    requires Edges(b)
  {
    |g.l3Enc| == 576 && (g.count1 - g.bigValues) % 4 == 0
    && (g.blockType == NORM_TYPE ==> Best(b, g.l3Enc, g.bigValues, length - g.count1bits))
    && (Movable(g) ==>
          if g.blockType == NORM_TYPE then
            Best(b, g.l3Enc, g.bigValues - 2, length - MovedQuads(g))
          else if g.blockType == SHORT_TYPE && modeGr == 1 then true
          else NoCheaper(g.l3Enc, Min(b.l[8], g.bigValues - 2), g.bigValues - 2, g.bigValues - 2,
              length - MovedQuads(g)))
  }

  lemma NoneDearer(ix: seq<nat>, a1: nat, a2: nat, big: nat, bits: int, less: int)
    requires a1 <= a2 <= big <= |ix| && NoCheaper(ix, a1, a2, big, bits) && less <= bits
    ensures NoCheaper(ix, a1, a2, big, less)
  {
    hide CandidateOf, WrittenCost;
  }

  lemma EmptyRows(b: Bands, ix: seq<nat>, rows: seq<Row>)
    requires Edges(b) && |ix| == 576 && |rows| == 23 && forall r | 0 <= r < 23 :: rows[r].bits == LARGE_BITS
    ensures forall r | 0 <= r < 23 :: RowOk(b, ix, r, rows[r])
  {
  }

  lemma FullRow(b: Bands, ix: seq<nat>, r: nat, row: Row)
    requires Edges(b) && |ix| == 576 && r < 23 && RowFull(b, ix, r, row)
    ensures RowOk(b, ix, r, row)
  {
  }

  /** Past an edge that is not inside there is nothing to look at. */
  lemma Outside(b: Bands, ix: seq<nat>, bigv: nat, rows: seq<Row>, edge: nat, r0: nat, r1: nat)
    requires Edges(b) && |ix| == 576 && |rows| == 23 && edge <= 22 && b.l[edge] >= bigv
    requires r0 + r1 < 23 && edge <= r0 + r1 + 2
    ensures LeastIn(b, ix, bigv, rows, r0, r1)
  {
    hide NoCheaper;
    if r0 + r1 + 2 <= 22 { EdgesIncrease(b, edge, r0 + r1 + 2); }
  }

  lemma NoMoreInRow(b: Bands, ix: seq<nat>, bigv: nat, rows: seq<Row>, r0: nat, r1: nat)
    requires Edges(b) && |ix| == 576 && |rows| == 23 && r0 < 16 && r1 < 8
    requires RowsLeast(b, ix, bigv, rows, 8 * r0 + r1) && r0 + r1 + 2 <= 22 && b.l[r0 + r1 + 2] >= bigv
    ensures RowsLeast(b, ix, bigv, rows, 8 * r0 + 8)
  {
    hide LeastIn, Edges;
    forall k0, k1 | 0 <= k0 < 16 && 0 <= k1 < 8 && 8 * k0 + k1 < 8 * r0 + 8
      ensures LeastIn(b, ix, bigv, rows, k0, k1)
    {
      if 8 * k0 + k1 >= 8 * r0 + r1 {
        assert k0 == r0 && k1 >= r1;
        Outside(b, ix, bigv, rows, r0 + r1 + 2, k0, k1);
      }
    }
  }

  lemma NoMoreRows(b: Bands, ix: seq<nat>, bigv: nat, rows: seq<Row>, r0: nat)
    requires Edges(b) && |ix| == 576 && |rows| == 23 && r0 < 16
    requires RowsLeast(b, ix, bigv, rows, 8 * r0) && b.l[r0 + 1] >= bigv
    ensures RowsLeast(b, ix, bigv, rows, 128)
  {
    hide LeastIn, Edges;
    forall k0, k1 | 0 <= k0 < 16 && 0 <= k1 < 8
      ensures LeastIn(b, ix, bigv, rows, k0, k1)
    {
      if k0 >= r0 {
        Outside(b, ix, bigv, rows, r0 + 1, k0, k1);
      } else {
        assert 8 * k0 + k1 < 8 * r0;
      }
    }
  }

  lemma CheapestPair(ix: seq<nat>, a1: nat, a2: nat, bits0: int, bits1: int)
    requires a1 <= a2 <= |ix| && Cheapest(ix, 0, a1, bits0) && Cheapest(ix, a1, a2, bits1)
    ensures NoCheaper(ix, a1, a2, a2, bits0 + bits1)
  {
    hide CandidateOf, WrittenCost;
    NothingCosts(ix, a2);
  }

  lemma PairInRow(b: Bands, ix: seq<nat>, bigv: nat, r0: nat, r1: nat, bits: int)
    requires Edges(b) && |ix| == 576 && r0 + r1 + 2 <= 22 && b.l[r0 + 1] <= b.l[r0 + r1 + 2] <= 576
    requires NoCheaper(ix, b.l[r0 + 1], b.l[r0 + r1 + 2], b.l[r0 + r1 + 2], bits)
    ensures RowLeast(b, ix, bigv, r0, r1, bits)
  {
    hide NoCheaper;
  }

  lemma NextRow(b: Bands, ix: seq<nat>, bigv: nat, rows0: seq<Row>, rows: seq<Row>, r0: nat, r1: nat, bits: int)
    requires Edges(b) && |ix| == 576 && |rows0| == |rows| == 23 && r0 < 16 && r1 < 8 && r0 + r1 + 2 <= 22
    requires RowsLeast(b, ix, bigv, rows0, 8 * r0 + r1) && RowLeast(b, ix, bigv, r0, r1, bits)
    requires rows[r0 + r1].bits <= bits && forall r | 0 <= r < 23 :: rows[r].bits <= rows0[r].bits
    ensures RowsLeast(b, ix, bigv, rows, 8 * r0 + r1 + 1)
  {
    hide RowLeast, Edges;
    forall k0, k1 | 0 <= k0 < 16 && 0 <= k1 < 8 && 8 * k0 + k1 < 8 * r0 + r1 + 1
      ensures LeastIn(b, ix, bigv, rows, k0, k1)
    {
      if 8 * k0 + k1 == 8 * r0 + r1 {
        assert k0 == r0 && k1 == r1;
        RowWithLess(b, ix, bigv, r0, r1, bits, rows[r0 + r1].bits);
      } else {
        assert LeastIn(b, ix, bigv, rows0, k0, k1);
        RowWithLess(b, ix, bigv, k0, k1, rows0[k0 + k1].bits, rows[k0 + k1].bits);
      }
    }
  }

  lemma RowWithLess(b: Bands, ix: seq<nat>, bigv: nat, r0: nat, r1: nat, bits: int, less: int)
    requires Edges(b) && |ix| == 576 && RowLeast(b, ix, bigv, r0, r1, bits) && less <= bits
    ensures RowLeast(b, ix, bigv, r0, r1, less)
  {
    hide NoCheaper;
    if r0 + r1 + 2 <= 22 && b.l[r0 + r1 + 2] < bigv <= 576 {
      EdgesIncrease(b, r0 + 1, r0 + r1 + 2);
      NoneDearer(ix, b.l[r0 + 1], b.l[r0 + r1 + 2], b.l[r0 + r1 + 2], bits, less);
    }
  }

  lemma NoSplits(b: Bands, ix: seq<nat>, bigv: nat, bits: int)
    requires Edges(b) && |ix| == 576
    ensures SplitsLeast(b, ix, bigv, bits, 2)
  {
  }

  lemma NoMoreSplits(b: Bands, ix: seq<nat>, bigv: nat, bits: int, r2: nat)
    requires Edges(b) && |ix| == 576 && r2 <= 22 && b.l[r2] >= bigv && SplitsLeast(b, ix, bigv, bits, r2)
    ensures SplitsLeast(b, ix, bigv, bits, 23)
  {
    forall r0, r1 | 0 <= r0 < 16 && 0 <= r1 < 8 && r2 <= r0 + r1 + 2 <= 22
      ensures SplitLeast(b, ix, bigv, r0, r1, bits)
    {
      EdgesIncrease(b, r2, r0 + r1 + 2);
    }
  }

  lemma RowsPair(b: Bands, ix: seq<nat>, bigv: nat, rows: seq<Row>, r2: nat)
    requires Edges(b) && |ix| == 576 && |rows| == 23 && 2 <= r2 <= 22 && b.l[r2] < bigv <= 576
    requires RowsLeast(b, ix, bigv, rows, 128)
    ensures PairLeast(b, ix, rows[r2 - 2].bits, r2)
  {
    hide NoCheaper;
    var bits := rows[r2 - 2].bits;
    forall r0 | 0 <= r0 < 16 && 2 <= r2 - r0 <= 9
      ensures EndsAt(b, ix, bits, r2, r0)
    {
      assert LeastIn(b, ix, bigv, rows, r0, r2 - r0 - 2);
    }
  }

  lemma PairLess(b: Bands, ix: seq<nat>, bits: int, less: int, r2: nat)
    requires Edges(b) && |ix| == 576 && r2 <= 22 && PairLeast(b, ix, bits, r2) && less <= bits
    ensures PairLeast(b, ix, less, r2)
  {
    hide NoCheaper;
    forall r0 | 0 <= r0 < 16 && 2 <= r2 - r0 <= 9
      ensures EndsAt(b, ix, less, r2, r0)
    {
      EdgesIncrease(b, r0 + 1, r2);
      EdgesIncrease(b, r2, 22);
      assert EndsAt(b, ix, bits, r2, r0);
      NoneDearer(ix, b.l[r0 + 1], b.l[r2], b.l[r2], bits, less);
    }
  }

  /** A third region with its cheapest candidate. */
  lemma SplitOfPair(b: Bands, ix: seq<nat>, bigv: nat, bits0: int, bits: int, r2: nat)
    requires Edges(b) && |ix| == 576 && 2 <= r2 <= 22 && b.l[r2] < bigv <= 576 && PairLeast(b, ix, bits0, r2)
    requires Cheapest(ix, b.l[r2], bigv, bits - bits0)
    ensures SplitsAt(b, ix, bigv, bits, r2)
  {
    hide NoCheaper, Cheapest;
    EdgesIncrease(b, r2, 22);
    forall r0, r1 | 0 <= r0 < 16 && 0 <= r1 < 8 && r0 + r1 + 2 == r2
      ensures SplitLeast(b, ix, bigv, r0, r1, bits)
    {
      EdgesIncrease(b, r0 + 1, r2);
      assert EndsAt(b, ix, bits0, r2, r0);
      ThirdRegion(ix, b.l[r0 + 1], b.l[r2], bigv, bits0, bits);
    }
  }

  lemma ThirdRegion(ix: seq<nat>, a1: nat, a2: nat, big: nat, bits0: int, bits: int)
    requires a1 <= a2 <= big <= |ix| && NoCheaper(ix, a1, a2, a2, bits0)
    requires Cheapest(ix, a2, big, bits - bits0)
    ensures NoCheaper(ix, a1, a2, big, bits)
  {
    hide WrittenCost;
    assert CandidateOf(0, ix, a2, a2);
    hide CandidateOf;
    NothingCosts(ix, a2);
    forall t0, t1, t2 | CandidateOf(t0, ix, 0, a1) && CandidateOf(t1, ix, a1, a2) && CandidateOf(t2, ix, a2, big)
      ensures bits <= WrittenCost(t0, ix, 0, a1) + WrittenCost(t1, ix, a1, a2) + WrittenCost(t2, ix, a2, big)
    {
      assert bits0 <= WrittenCost(t0, ix, 0, a1) + WrittenCost(t1, ix, a1, a2) + WrittenCost(0, ix, a2, a2);
    }
  }

  lemma NextSplit(b: Bands, ix: seq<nat>, bigv: nat, before: int, bits: int, less: int, r2: nat)
    requires Edges(b) && |ix| == 576 && SplitsLeast(b, ix, bigv, before, r2) && less <= before && less <= bits
    requires SplitsAt(b, ix, bigv, bits, r2)
    ensures SplitsLeast(b, ix, bigv, less, r2 + 1)
  {
    forall r0, r1 | 0 <= r0 < 16 && 0 <= r1 < 8 && r0 + r1 + 2 < r2 + 1
      ensures SplitLeast(b, ix, bigv, r0, r1, less)
    {
      SplitWithLess(b, ix, bigv, r0, r1, if r0 + r1 + 2 == r2 then bits else before, less);
    }
  }

  lemma SplitWithLess(b: Bands, ix: seq<nat>, bigv: nat, r0: nat, r1: nat, bits: int, less: int)
    requires Edges(b) && |ix| == 576 && SplitLeast(b, ix, bigv, r0, r1, bits) && less <= bits
    ensures SplitLeast(b, ix, bigv, r0, r1, less)
  {
    hide NoCheaper;
    if r0 + r1 + 2 <= 22 && b.l[r0 + r1 + 2] < bigv <= 576 {
      EdgesIncrease(b, r0 + 1, r0 + r1 + 2);
      NoneDearer(ix, b.l[r0 + 1], b.l[r0 + r1 + 2], bigv, bits, less);
    }
  }

  lemma IsBest(b: Bands, ix: seq<nat>, bigv: nat, bits: int, stop: nat)
    requires Edges(b) && |ix| == 576 && 2 <= stop <= 23 && SplitsLeast(b, ix, bigv, bits, stop)
    requires stop < 23 ==> b.l[stop] < bigv <= 576 && PairLeast(b, ix, bits, stop)
    ensures Best(b, ix, bigv, bits)
  {
    assert BestUpTo(b, ix, bigv, bits, stop);
  }

  /** With fewer bits it is still best. */
  lemma StillBest(b: Bands, ix: seq<nat>, bigv: nat, bits: int, less: int)
    requires Edges(b) && |ix| == 576 && less <= bits && Best(b, ix, bigv, bits)
    ensures Best(b, ix, bigv, less)
  {
    hide SplitLeast, PairLeast;
    var stop: nat :| BestUpTo(b, ix, bigv, bits, stop);
    forall r0, r1 | 0 <= r0 < 16 && 0 <= r1 < 8 && r0 + r1 + 2 < stop
      ensures SplitLeast(b, ix, bigv, r0, r1, less)
    {
      SplitWithLess(b, ix, bigv, r0, r1, bits, less);
    }
    if stop < 23 { PairLess(b, ix, bits, less, stop); }
    assert BestUpTo(b, ix, bigv, less, stop);
  }

  lemma StillRegions(b: Bands, g: GrInfo, cod2: GrInfo)
    requires Divided(b, g, g.part23Length) && CountedEnd(cod2) && 2 <= g.bigValues
    requires cod2 == g.(count1 := cod2.count1, bigValues := cod2.bigValues, count1TableSelect := cod2.count1TableSelect,
                        count1bits := cod2.count1bits)
    ensures Regions(cod2) && TablesOk(cod2.tableSelect)
  {
    hide QuadsCost, SpectrumCost, Codes;
  }

  lemma NothingThere(ix: seq<nat>, i: nat, t: nat)
    requires i <= |ix| && TableOk(t)
    ensures RegionCodable(Renamed(t), ix, i, i) && RegionCost(Renamed(t), ix, i, 0) == 0
  {
  }

  /** The spectrum ends well, and its quadruples are counted right. */
  ghost predicate CountedEnd(g: GrInfo) {
    && |g.l3Enc| == |g.neg| == 576 && Bounded(g.l3Enc) && |g.tableSelect| == 3
    && g.bigValues <= g.count1 <= 576 && g.bigValues % 2 == 0 && (g.count1 - g.bigValues) % 4 == 0
    && g.count1TableSelect < 2 && SmallValues(g.l3Enc, g.bigValues, g.count1)
    && (forall i | g.count1 <= i < 576 :: g.l3Enc[i] == 0)
    && g.count1bits == QuadsCost(g.count1TableSelect, g.l3Enc, g.bigValues, (g.count1 - g.bigValues) / 4)
  }

  lemma EndFacts(g: GrInfo)
    requires CountedEnd(g)
    ensures |g.l3Enc| == 576 && Bounded(g.l3Enc) && g.bigValues <= 576 && g.bigValues % 2 == 0 && g.count1bits >= 0
    ensures (g.count1 - g.bigValues) % 4 == 0
  {
  }

  lemma RowIsFull(b: Bands, ix: seq<nat>, r: nat, row: Row)
    requires Edges(b) && |ix| == 576 && r < 23 && RowOk(b, ix, r, row) && row.bits < LARGE_BITS
    ensures RowFull(b, ix, r, row) && r + 2 <= 22
    ensures row.bits == RegionCost(Renamed(row.tbl0), ix, 0, b.l[row.div + 1] / 2)
                        + RegionCost(Renamed(row.tbl1), ix, b.l[row.div + 1], (b.l[r + 2] - b.l[row.div + 1]) / 2)
  {
  }

  /** One place in the arrays r01_bits, r01_div, r0_tbl and r1_tbl. */
  datatype Row = Row(bits: int, div: nat, tbl0: nat, tbl1: nat)

  /** The row is empty, or a division of the bands below `r + 2` into two regions, with the cost of both. */
  ghost predicate RowOk(b: Bands, ix: seq<nat>, r: nat, row: Row)
    requires Edges(b) && |ix| == 576 && r < 23
  {
    row.bits >= LARGE_BITS || RowFull(b, ix, r, row)
  }

  ghost predicate RowFull(b: Bands, ix: seq<nat>, r: nat, row: Row)
    requires Edges(b) && |ix| == 576 && r < 23
  {
    && r + 2 <= 22 && row.div < 16 && row.div <= r && r - row.div < 8
    && b.l[row.div + 1] <= b.l[r + 2] <= 576
    && TableOk(row.tbl0) && RegionCodable(Renamed(row.tbl0), ix, 0, b.l[row.div + 1])
    && TableOk(row.tbl1) && RegionCodable(Renamed(row.tbl1), ix, b.l[row.div + 1], b.l[r + 2])
    && row.bits == RegionCost(Renamed(row.tbl0), ix, 0, b.l[row.div + 1] / 2)
                   + RegionCost(Renamed(row.tbl1), ix, b.l[row.div + 1], (b.l[r + 2] - b.l[row.div + 1]) / 2)
  }

  /** Below an edge that lies inside the spectrum there is another. */
  lemma EdgeInside(b: Bands, i: nat, bigv: nat)
    requires Edges(b) && i < 23 && b.l[i] < bigv <= 576
    ensures i < 22 && b.l[i] <= b.l[i + 1] <= 576
  {
    EdgesIncrease(b, i, 22);
    if i < 22 { EdgesIncrease(b, i + 1, 22); }
  }

  /** Region counts that fit their fields and stay inside the band table. */
  predicate RegionCounts(g: GrInfo) {
    && g.region0Count < 16 && (g.blockType == NORM_TYPE ==> g.region1Count < 8)
    && g.region0Count + g.region1Count + 2 < 23
  }

  lemma NothingBig(b: Bands, g: GrInfo, bits: int)
    requires Edges(b) && Regions(g) && g.bigValues == 0 && TablesOk(g.tableSelect) && Bounded(g.l3Enc)
    requires g.count1TableSelect < 2 && SmallValues(g.l3Enc, 0, g.count1)
    requires forall i | g.count1 <= i < 576 :: g.l3Enc[i] == 0
    requires bits == g.count1bits == QuadsCost(g.count1TableSelect, g.l3Enc, 0, g.count1 / 4)
    ensures Divided(b, g, bits)
  {
    hide QuadsCost, Codable, Usable;
    var p := PlanOf(b, g);
    assert p.n0 == p.n1 == p.n2 == 0;
  }

  lemma DividedAs(b: Bands, g: GrInfo, a1: nat, a2: nat, bits: int)
    requires Edges(b) && Regions(g) && a1 == Region1Start(b, g) && a2 == Region2Start(b, g)
    requires a1 <= a2 <= g.bigValues && TablesOk(g.tableSelect) && Bounded(g.l3Enc)
    requires RegionCodable(Renamed(g.tableSelect[0]), g.l3Enc, 0, a1)
    requires RegionCodable(Renamed(g.tableSelect[1]), g.l3Enc, a1, a2)
    requires RegionCodable(Renamed(g.tableSelect[2]), g.l3Enc, a2, g.bigValues)
    requires g.count1TableSelect < 2 && SmallValues(g.l3Enc, g.bigValues, g.count1)
    requires forall i | g.count1 <= i < 576 :: g.l3Enc[i] == 0
    requires g.count1bits == QuadsCost(g.count1TableSelect, g.l3Enc, g.bigValues, (g.count1 - g.bigValues) / 4)
    requires bits == g.count1bits + RegionCost(Renamed(g.tableSelect[0]), g.l3Enc, 0, a1 / 2)
                     + RegionCost(Renamed(g.tableSelect[1]), g.l3Enc, a1, (a2 - a1) / 2)
                     + RegionCost(Renamed(g.tableSelect[2]), g.l3Enc, a2, (g.bigValues - a2) / 2)
    ensures Divided(b, g, bits)
  {
    hide QuadsCost, RegionCost, RegionCodable, TableOk, SmallValues;
    PlanAs(b, g, a1, a2);
  }

  /** The plan of a granule whose regions end at `a1` and `a2`. */
  lemma PlanAs(b: Bands, g: GrInfo, a1: nat, a2: nat)
    requires Edges(b) && Regions(g) && a1 == Region1Start(b, g) && a2 == Region2Start(b, g)
    ensures a1 <= a2 <= g.bigValues
    ensures var p := PlanOf(b, g);
      && p.n0 == a1 / 2 && p.n1 == (a2 - a1) / 2 && p.n2 == (g.bigValues - a2) / 2
      && 2 * p.n0 == a1 && 2 * p.n0 + 2 * p.n1 == a2
      && p.t0 == Renamed(g.tableSelect[0]) && p.t1 == Renamed(g.tableSelect[1]) && p.t2 == Renamed(g.tableSelect[2])
      && p.quads == (g.count1 - g.bigValues) / 4 && p.select == g.count1TableSelect
  {
    RegionOrder(b, g);
  }

  /** subdv_table */
  function Subdv(n: nat): (nat, nat) {
    match n
    case 5 => (0, 1) case 6 => (1, 1) case 7 => (1, 1) case 8 => (1, 2) case 9 => (2, 2) case 10 => (2, 3)
    case 11 => (2, 3) case 12 => (3, 4) case 13 => (3, 4) case 14 => (3, 4) case 15 => (4, 5) case 16 => (4, 5)
    case 17 => (4, 6) case 18 => (5, 6) case 19 => (5, 6) case 20 => (5, 7) case 21 => (6, 7) case 22 => (6, 7)
    case _ => (0, 0)
  }

  /** The regions end inside `i` values, unless not even their first band does. */
  predicate EndsInside(b: Bands, i: nat, r0: nat, r1: nat)
    requires Edges(b) && RegionsOk(r0, r1)
  {
    && (b.l[r0 + 1] <= i || i < b.l[1])
    && (b.l[r0 + r1 + 2] <= i || i < b.l[r0 + 2])
  }

  /** The largest count up to the table's with which a region ends inside; the table's itself if there is none. */
  ghost predicate Fitted(b: Bands, i: nat, at: nat, count: nat, r: nat)
    requires Edges(b) && at + count <= 22
  {
    r <= count
    && if b.l[at] <= i then b.l[at + r] <= i && forall k | at + r < k <= at + count :: b.l[k] > i else r == count
  }

  /** The table's counts for the number of bands that `i` values reach into, fitted. */
  ghost predicate Subdivides(b: Bands, i: nat, r0: nat, r1: nat)
    requires Edges(b)
  {
    exists n | 1 <= n <= 22 :: b.l[n - 1] < i <= b.l[n] && SubdivedAs(b, i, Subdv(n).0, Subdv(n).1, r0, r1)
  }

  ghost predicate SubdivedAs(b: Bands, i: nat, c0: nat, c1: nat, r0: nat, r1: nat)
    requires Edges(b)
  {
    c0 <= 6 && c1 <= 7 && Fitted(b, i, 1, c0, r0) && Fitted(b, i, r0 + 2, c1, r1)
  }

  lemma SubdvSmall(n: nat)
    ensures Subdv(n).0 <= 6 && Subdv(n).1 <= 7
  {
  }

  lemma FittedEnds(b: Bands, i: nat, at: nat, count: nat, r: nat)
    requires Edges(b) && at + count <= 22 && Fitted(b, i, at, count, r)
    ensures b.l[at + r] <= i || i < b.l[at]
  {
  }

  /** A bit count that is right for the granule does not depend on its part2_3_length. */
  lemma DividedOnly(b: Bands, g: GrInfo, bits: int)
    requires Divided(b, g, bits)
    ensures Divided(b, g.(part23Length := bits), bits)
  {
    hide QuadsCost, SpectrumCost, Codes;
    assert PlanOf(b, g.(part23Length := bits)) == PlanOf(b, g);
  }

  /** What noquant_count_bits and best_huffman_divide count is what the formatter writes: the length of the coded
      spectrum, for any signs. */
  lemma CountIsEmission(b: Bands, g: GrInfo, bits: int)
    requires Divided(b, g, bits)
    ensures Codes(PlanOf(b, g), g.l3Enc)
    ensures bits == |SpectrumBits(PlanOf(b, g), g.l3Enc, g.neg)|
  {
    hide SpectrumBits, SpectrumCost, QuadsCost, Codes;
    SpectrumBitsCost(PlanOf(b, g), g.l3Enc, g.neg);
  }

  /** Region counts that fit their fields and leave a band to the third region. */
  predicate RegionsOk(r0: nat, r1: nat) { r0 < 16 && r1 < 8 && r0 + r1 + 2 < SBPSY_l }

  /** A divided granule ends well, and costs less than the mark for no division. */
  lemma DividedEnd(b: Bands, g: GrInfo)
    requires Divided(b, g, g.part23Length)
    ensures CountedEnd(g) && g.part23Length < LARGE_BITS
  {
    hide QuadsCost, RegionCost, RegionCodable, TableOk;
    var p := PlanOf(b, g);
    CostBound(p, g.l3Enc);
  }

  lemma {:induction false} RegionCostBound(t: nat, ix: seq<nat>, from: nat, n: nat)
    requires from + 2 * n <= |ix| && RegionCodable(t, ix, from, from + 2 * n)
    ensures RegionCost(t, ix, from, n) <= 64 * n
  {
    hide PairCost, Codable, Usable;
    if t != 0 && n > 0 {
      RegionCostBound(t, ix, from, n - 1);
      var i := from + 2 * (n - 1);
      assert Codable(t, ix[i]) && Codable(t, ix[i + 1]);
      PairCostBound(t, ix[i], ix[i + 1]);
    }
  }

  lemma PairCostBound(t: nat, x: nat, y: nat)
    requires Usable(t) && t < 32 && Codable(t, x) && Codable(t, y)
    ensures PairCost(t, x, y) <= 64
  {
    hide Hlen, CodeWord, Cols, Usable, Codable, Lookup, Window, Xlen, Scale;
    ClipInside(t, x);
    ClipInside(t, y);
    LookupFinds(t, Clip(t, x), Clip(t, y), 0);
    if t >= 16 { LinmaxFits(t); }
  }

  lemma QuadCostBound(select: nat, ix: seq<nat>, i: nat)
    requires select < 2 && i + 4 <= |ix| && SmallValues(ix, i, i + 4)
    ensures QuadCost(select, ix, i) <= 64
  {
    hide Hlen, CodeWord, Lookup, Window, Scale;
    LookupFinds(32 + select, 2 * ix[i] + ix[i + 1], 2 * ix[i + 2] + ix[i + 3], 0);
  }

  lemma {:induction false} QuadsCostBound(select: nat, ix: seq<nat>, from: nat, n: nat)
    requires select < 2 && from + 4 * n <= |ix| && SmallValues(ix, from, from + 4 * n)
    ensures QuadsCost(select, ix, from, n) <= 64 * n
    decreases n
  {
    hide QuadCost;
    if n > 0 {
      QuadCostBound(select, ix, from);
      QuadsCostBound(select, ix, from + 4, n - 1);
    }
  }

  lemma CostBound(p: Plan, ix: seq<nat>)
    requires Codes(p, ix) && |ix| == 576
    ensures SpectrumCost(p, ix) < LARGE_BITS
  {
    hide RegionCost, RegionCodable, QuadsCost;
    RegionCostBound(p.t0, ix, 0, p.n0);
    RegionCostBound(p.t1, ix, 2 * p.n0, p.n1);
    RegionCostBound(p.t2, ix, 2 * p.n0 + 2 * p.n1, p.n2);
    QuadsCostBound(p.select, ix, BigEnd(p), p.quads);
  }
}

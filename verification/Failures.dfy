/** Frames on which what ABR_iteration_loop and VBR_encode_frame assert does not hold, for MPEG-1 and one channel. */
module Failures {
  import opened Bits
  import opened SideInfo
  import opened CodeWords
  import opened Huffman
  import opened Granule
  import opened Counting
  import opened Takehiro
  import opened Scalefac
  import opened Finish
  import opened Reservoirs
  import opened Quantizing
  import opened VbrFrame
  import opened Loops

  // ----- ABR: 44.1 kHz, 32 kbit/s as the only bit rate, an empty reservoir, and a second granule in analog silence

  const LENGTHS := [0, 832]
  const TARGETS := [[830], [332]]
  const SILENT := [[false], [true]]
  const LAST := [[474], [332]]

  /** `n` pairs of twos, and nothing after them. */
  function Twos(n: nat): (ix: seq<nat>)
    requires n <= 288
    ensures |ix| == 576 && forall i | 0 <= i < 576 :: ix[i] == if i < 2 * n then 2 else 0
  {
    seq(576, i => if i < 2 * n then 2 else 0)
  }

  function LongWidths(b: Bands): seq<nat>
    requires Edges(b)
  {
    seq(SFBMAX, i requires 0 <= i < SFBMAX => if i < SBMAX_l then b.l[i + 1] - b.l[i] else 0)
  }

  /** A long granule without scalefactors; table 2 codes each pair of twos in 8 bits. */
  function TwosGranule(b: Bands, n: nat): GrInfo
    requires Edges(b) && n <= 288
  {
    GrInfo(Twos(n), seq(576, _ => false), seq(SFBMAX, _ => 0), 8 * n, 0, 2 * n, 2 * n, 210, 0, NORM_TYPE, 0, [2, 2, 2],
           [0, 0, 0], 0, 0, 0, 0, 0, 21, 11, [0, 0, 0, 0], [0, 0, 0, 0], 0, 2 * n - 1, LongWidths(b),
           seq(SFBMAX, _ => 3))
  }

  /** 59 pairs in the first granule, 41 in the second. */
  function Spends(b: Bands): Quantizer
    requires Edges(b)
  {
    (gr, ch, t) => TwosGranule(b, if gr == 0 then 59 else 41)
  }

  // ----- it keeps to what it is asked for

  lemma TwosCost2()
    ensures PairCost(2, 2, 2) == 8
  {
  }

  lemma {:induction false} TwosRegion(n: nat, from: nat, m: nat)
    requires n <= 288 && from + 2 * m <= 2 * n
    ensures RegionCost(2, Twos(n), from, m) == 8 * m
  {
    hide PairCost;
    if m > 0 {
      TwosRegion(n, from, m - 1);
      CostStep(2, Twos(n), from, m - 1);
      TwosCost2();
    }
  }

  lemma {:induction false} LongStart(b: Bands, i: nat)
    requires Edges(b) && i <= 22
    ensures BandStart(LongWidths(b), i) == b.l[i] <= 576
  {
    if i > 0 { LongStart(b, i - 1); }
    EdgesIncrease(b, i, 22);
  }

  lemma TwosDivided(b: Bands, n: nat)
    requires Edges(b) && n <= 288
    ensures Divided(b, TwosGranule(b, n), 8 * n)
  {
    hide RegionCost;
    var g := TwosGranule(b, n);
    var p := PlanOf(b, g);
    TwosRegion(n, 0, p.n0);
    TwosRegion(n, 2 * p.n0, p.n1);
    TwosRegion(n, 2 * p.n0 + 2 * p.n1, p.n2);
  }

  lemma TwosStorable(b: Bands, n: nat)
    requires Edges(b) && n <= 288
    ensures Storable(1, TwosGranule(b, n)) && Flagged(TwosGranule(b, n))
  {
    LongStart(b, 21);
  }

  lemma TwosQuantized(b: Bands, n: nat)
    requires Edges(b) && n <= 288
    ensures Quantized(1, b, TwosGranule(b, n)) && Used(TwosGranule(b, n)) == 8 * n
  {
    hide Divided, Storable, Flagged;
    TwosDivided(b, n);
    TwosStorable(b, n);
  }

  lemma SpendsKeeps(b: Bands, gr: nat, t: int)
    requires Edges(b) && gr < 2 && t == LAST[gr][0]
    ensures Keeps(1, b, Spends(b), gr, 0, t)
  {
    hide Quantized, Used;
    TwosQuantized(b, if gr == 0 then 59 else 41);
  }

  // ----- no table codes the pairs in fewer than 7 bits

  lemma SevenAtLeast(t: nat)
    requires Usable(t) && t < 32 && Codable(t, 2)
    ensures PairCost(t, 2, 2) >= 7
  {
  }

  lemma {:induction false} RegionAtLeast(n: nat, t: nat, from: nat, m: nat)
    requires n <= 288 && from + 2 * m <= 576 && from % 2 == 0 && RegionCodable(t, Twos(n), from, from + 2 * m)
    ensures RegionCost(t, Twos(n), from, m) >= 7 * Min(m, n - from / 2)
  {
    hide PairCost, Codable, Usable;
    if m > 0 && t != 0 {
      RegionAtLeast(n, t, from, m - 1);
      CostStep(t, Twos(n), from, m - 1);
      var i := from + 2 * (m - 1);
      if i < 2 * n {
        assert Codable(t, Twos(n)[i]);
        SevenAtLeast(t);
      }
    } else if m > 0 {
      assert Twos(n)[from] == 0;
    }
  }

  /** However the pairs are divided and coded. */
  lemma PlanAtLeast(n: nat, p: Plan)
    requires n <= 288 && Codes(p, Twos(n))
    ensures SpectrumCost(p, Twos(n)) >= 7 * n
  {
    hide RegionCost, RegionCodable, QuadsCost;
    RegionAtLeast(n, p.t0, 0, p.n0);
    RegionAtLeast(n, p.t1, 2 * p.n0, p.n1);
    RegionAtLeast(n, p.t2, 2 * p.n0 + 2 * p.n1, p.n2);
    assert BigEnd(p) < 576 ==> Twos(n)[BigEnd(p)] <= 1;
  }

  lemma FinishedAtLeast(b: Bands, n: nat, g: GrInfo)
    requires n <= 288 && Finished(1, b, g) && g.l3Enc == Twos(n)
    ensures Used(g) >= 7 * n
  {
    hide Codes, SpectrumCost, SpectrumBits, AllFit, Narrow, Width, ScaleFields, PlanOf;
    PlanAtLeast(n, PlanOf(b, g));
    SpectrumBitsCost(PlanOf(b, g), g.l3Enc, g.neg);
  }

  // ----- so the frame cannot hold the granules

  lemma MadeOf(q: Quantizer, gr: nat, g: GrInfo, first: seq<int>, ix: seq<nat>)
    requires CodedFrom(q, gr, 0, g, first) && forall t :: q(gr, 0, t).l3Enc == ix
    ensures g.l3Enc == ix
  {
    hide StepsKept, BandsOk;
    var t :| UNTOUCHED <= t && CodedBy(q, gr, 0, t, g, first);
    assert q(gr, 0, t).l3Enc == ix;
  }

  /** Whatever is made of two granules with so many pairs takes 7 bits for each of them. */
  lemma TwoAtLeast(b: Bands, q: Quantizer, n0: nat, n1: nat, grs: seq<GrInfo>, scfsi: seq<nat>)
    requires n0 <= 288 && n1 <= 288 && Made(1, b, q, 1, grs, scfsi) && |grs| == 2
    requires forall t :: q(0, 0, t).l3Enc == Twos(n0) && q(1, 0, t).l3Enc == Twos(n1)
    ensures UsedBits(grs) >= 7 * (n0 + n1)
  {
    hide Finished, AllTelling, CodedFrom, Used, UsedBits;
    assert CodedFrom(q, 0 / 1, 0 % 1, grs[0], grs[0 % 1].scalefac);
    assert CodedFrom(q, 1 / 1, 1 % 1, grs[1], grs[1 % 1].scalefac);
    MadeOf(q, 0, grs[0], grs[0].scalefac, Twos(n0));
    MadeOf(q, 1, grs[1], grs[0].scalefac, Twos(n1));
    FinishedAtLeast(b, n0, grs[0]);
    FinishedAtLeast(b, n1, grs[1]);
    assert grs == [] + [grs[0]] + [grs[1]];
    UsedAppend([], grs[0]);
    UsedAppend([] + [grs[0]], grs[1]);
    NoneUsed();
  }

  lemma NoneUsed()
    ensures UsedBits([]) == 0
  {
  }

  /** Whatever is made of these granules has more bits than the largest frame and the reservoir. */
  lemma AlwaysOver(b: Bands, grs: seq<GrInfo>, scfsi: seq<nat>)
    requires Edges(b) && Made(1, b, Spends(b), 1, grs, scfsi) && |grs| == 2
    ensures UsedBits(grs) >= 700 && !Refills(0, 21, LENGTHS, 1, 1, UsedBits(grs))
  {
    hide Made, UsedBits;
    var q := Spends(b);
    assert forall t :: q(0, 0, t) == TwosGranule(b, 59) && q(1, 0, t) == TwosGranule(b, 41);
    TwoAtLeast(b, q, 59, 41, grs, scfsi);
  }

  /** The targets are cut to what the frame can hold, and then the silent granule gets more again. */
  lemma MoreAgain()
    ensures Total(TARGETS) == 1162 && CutTargets(TARGETS, 664) == [[474], [189]]
        && Total(CutTargets(TARGETS, 664)) <= 664
    ensures CutThenSilenced(TARGETS, SILENT, 664, 332) == LAST && Total(LAST) == 806
  {
    TwoRows(830, 332);
    TwoRows(474, 189);
    TwoRows(474, 332);
    assert CutTargets(TARGETS, 664)[0] == [474] && CutTargets(TARGETS, 664)[1] == [189];
    assert CutThenSilenced(TARGETS, SILENT, 664, 332)[0] == [474]
        && CutThenSilenced(TARGETS, SILENT, 664, 332)[1] == [332];
  }

  lemma TwoRows(x: int, y: int)
    ensures Total([[x], [y]]) == x + y
  {
    TotalAppend([], [x]);
    TotalAppend([[x]], [y]);
    SumAppend([], x);
    SumAppend([], y);
    assert [] + [x] == [x] && [] + [y] == [y] && [] + [[x]] == [[x]] && [[x]] + [[y]] == [[x], [y]];
  }

  /** A frame of 32 kbit/s has 664 bits for its granules. */
  lemma Limit(r: Reservoir)
    requires r.modeGr == 2 && r.sideinfoLen == 21 && r.brate <= 320 && r.outSamplerate == 44100
    ensures r.FullFrameBits(832, 0) == 664 && SilenceBits(r, LENGTHS, 1) == 332
  {
  }

  /** The run. */
  method AbrAssertionFails(r: Reservoir, d: Divider) returns (ok: bool)
    requires r.Safe() && Working(r, d) && r.resvSize == 0
    requires r.modeGr == 2 && r.sideinfoLen == 21 && r.brate <= 320 && r.outSamplerate == 44100
    modifies r
    ensures !ok
  {
    hide Made, Keeps, Reservoir.FullFrameBits, SilenceBits, CutThenSilenced, Refills, UsedBits, Total;
    Limit(r);
    MoreAgain();
    SpendsKeeps(d.bands, 0, 474);
    SpendsKeeps(d.bands, 1, 332);
    var index, tt, scfsi;
    index, ok, tt, scfsi := AbrIterationLoop(r, d, LENGTHS, 1, 1, 1, TARGETS, SILENT, Spends(d.bands));
    AlwaysOver(d.bands, tt, scfsi);
  }

  // ----- VBR: even the coarsest steps leave both granules with 472 bits, where they have 200 each

  const MAX_BITS := [[200], [200]]

  function Stubborn(b: Bands): Quantizer
    requires Edges(b)
  {
    (gr, ch, t) => TwosGranule(b, 59)
  }

  lemma StubbornMade(b: Bands)
    requires Edges(b)
    ensures Finishable(1, b, Stubborn(b))
    ensures forall gr, ch, t | 0 <= t :: MetUnlessCoarsest(Used(Stubborn(b)(gr, ch, t)), 472, t)
  {
    hide Quantized, Used;
    TwosQuantized(b, 59);
  }

  /** The run. */
  method VbrAssertionFails(r: Reservoir, d: Divider, root: real -> real) returns (ok: bool)
    requires Working(r, d) && r.modeGr == 2 && forall x | x >= 0.0 :: root(x) >= 0.0
    modifies r`resvSize
    ensures !ok
  {
    hide Made, Finishable, UsedBits, Total, Reservoirs.Sum;
    StubbornMade(d.bands);
    TwoRows(200, 200);
    SumAppend([], 200);
    SumNone();
    assert [] + [200] == [200];
    var tt, scfsi;
    ghost var first, shares, last;
    ok, tt, scfsi, first, shares, last := VbrEncodeFrame(r, d, 1, MAX_BITS, Stubborn(d.bands), root);
    if ok { TwoAtLeast(d.bands, Stubborn(d.bands), 59, 59, tt, scfsi); }
  }
}

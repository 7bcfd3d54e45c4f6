/** Single granules and distributions on which the searches find something. */
module Examples {
  import opened SideInfo
  import opened Granule
  import opened Counting
  import opened Takehiro
  import opened Scalefac
  import opened VbrSearch

  // ----- best_huffman_divide

  /** Eight pairs, of which the second two are large, and nothing after them. */
  function Pairs(): (ix: seq<nat>)
    ensures |ix| == 576 && forall i | 0 <= i < 16 :: ix[i] == if 4 <= i < 8 then 7 else if i % 2 == 1 then 2 else 0
  {
    [0, 2, 0, 2, 7, 7, 7, 7, 0, 2, 0, 2, 0, 2, 0, 2] + seq(560, _ => 0)
  }

  lemma PairCosts()
    ensures PairCost(2, 0, 2) == PairCost(3, 0, 2) == 7
    ensures PairCost(11, 0, 2) == 6 && PairCost(10, 7, 7) == 13 && PairCost(11, 7, 7) == PairCost(12, 7, 7) == 12
  {
  }

  lemma CostFour(t: nat, ix: seq<nat>, from: nat)
    requires t != 0 && from + 8 <= |ix|
    ensures WrittenCost(t, ix, from, from) == 0
    ensures Renamed(t) == t ==> WrittenCost(t, ix, from, from + 4)
                                == PairCost(t, ix[from], ix[from + 1]) + PairCost(t, ix[from + 2], ix[from + 3])
    ensures Renamed(t) == t ==> WrittenCost(t, ix, from, from + 8)
                                == PairCost(t, ix[from], ix[from + 1]) + PairCost(t, ix[from + 2], ix[from + 3])
                                   + PairCost(t, ix[from + 4], ix[from + 5]) + PairCost(t, ix[from + 6], ix[from + 7])
  {
    hide PairCost;
    if Renamed(t) == t {
      CostStep(t, ix, from, 0);
      CostStep(t, ix, from, 1);
      CostStep(t, ix, from, 2);
      CostStep(t, ix, from, 3);
    }
  }

  /** What the regions of these pairs cost with tables tried for them. */
  lemma RegionCosts()
    ensures var ix := Pairs();
      && WrittenCost(2, ix, 0, 4) == 14 && WrittenCost(11, ix, 4, 8) == 24 && WrittenCost(11, ix, 4, 12) == 36
      && WrittenCost(2, ix, 12, 16) == 14
  {
    hide PairCost, WrittenCost;
    PairCosts();
    CostFour(2, Pairs(), 0);
    CostFour(11, Pairs(), 4);
    CostFour(2, Pairs(), 12);
  }

  lemma TriedFor(t: nat, max: nat, from: nat, end: nat, at: nat)
    requires from <= at < end <= 16 && Pairs()[at] == max && forall i | from <= i < end :: Pairs()[i] <= max
    requires Candidate(t, max)
    ensures CandidateOf(t, Pairs(), from, end)
  {
    hide Candidate;
    assert IsMax(max, Pairs(), from, end);
  }

  lemma TriedThere()
    ensures CandidateOf(2, Pairs(), 0, 4) && CandidateOf(11, Pairs(), 4, 8) && CandidateOf(11, Pairs(), 4, 12)
    ensures CandidateOf(2, Pairs(), 12, 16)
  {
    hide CandidateOf;
    TriedFor(2, 2, 0, 4, 1);
    TriedFor(11, 7, 4, 8, 4);
    TriedFor(11, 7, 4, 12, 4);
    TriedFor(2, 2, 12, 16, 13);
  }

  lemma EachTried(t: nat)
    ensures Candidate(t, 2) ==> t != 0 && Renamed(t) == t && PairCost(t, 0, 2) == 7
    ensures Candidate(t, 7) ==> t != 0 && Renamed(t) == t && PairCost(t, 7, 7) >= 12
  {
    hide PairCost;
    PairCosts();
  }

  /** Divided after 4 and 8 values, as huffman_init has it, they take 66 bits whatever the candidates... */
  lemma FirstDivision(t0: nat, t1: nat, t2: nat)
    requires Candidate(t0, 2) && Candidate(t1, 7) && Candidate(t2, 2)
    ensures WrittenCost(t0, Pairs(), 0, 4) + WrittenCost(t1, Pairs(), 4, 8) + WrittenCost(t2, Pairs(), 8, 16) >= 66
  {
    hide PairCost, Candidate, WrittenCost;
    EachTried(t0);
    EachTried(t1);
    EachTried(t2);
    CostFour(t0, Pairs(), 0);
    CostFour(t1, Pairs(), 4);
    CostFour(t2, Pairs(), 8);
  }

  /** ... and best_huffman_divide leaves no more than 64. */
  lemma CheaperDivision(b: Bands, modeGr: nat, g: GrInfo, length: int)
    requires Edges(b) && b.l[1] == 4 && b.l[2] == 8 && b.l[3] == 12 && b.l[4] == 16
    requires g.blockType == NORM_TYPE && g.l3Enc == Pairs() && g.bigValues == g.count1 == 16 && g.count1bits == 0
    requires Sought(b, modeGr, g, length)
    ensures length <= 64
  {
    hide CandidateOf, WrittenCost;
    var ix := Pairs();
    RegionCosts();
    TriedThere();
    NothingCosts(ix, 8);
    NothingCosts(ix, 12);
    Empty(ix);
    var stop: nat :| BestUpTo(b, ix, 16, length, stop);
    if stop == 2 {
      assert EndsAt(b, ix, length, 2, 0);
    } else if stop == 3 {
      assert EndsAt(b, ix, length, 3, 0);
    } else {
      assert SplitLeast(b, ix, 16, 0, 1, length);
    }
  }

  lemma Empty(ix: seq<nat>)
    requires |ix| == 576
    ensures CandidateOf(0, ix, 8, 8) && CandidateOf(0, ix, 12, 12)
  {
  }

  // ----- best_scalefac_store

  /** A long granule with something in every band, scalefactors 2 in the first eleven and 0 in the others, stored in
      32 bits. */
  ghost predicate Twos(g: GrInfo) {
    && BandsOk(g) && g.blockType == NORM_TYPE && g.sfbmax == 21 && g.sfbdivide == 11
    && (forall sfb | 0 <= sfb < 21 :: !BandEmpty(g, sfb) && g.scalefac[sfb] == if sfb < 11 then 2 else 0)
    && g.preflag == g.scalefacScale == 0 && g.scalefacCompress == 8 && g.part2Length == FullLength(11, 21, 8) == 32
  }

  /** It is stored with the coarser scale, scalefactors 1, and in no more than 21 bits. */
  lemma TwosHalved(g: GrInfo, h: GrInfo, first: seq<int>, scfsi: seq<nat>)
    requires Twos(g) && SameButStorage(g, h) && Simplest(g, 2, false, first, scfsi, h)
    ensures h.scalefacScale == 1 && h.preflag == 0 && h.part2Length <= 21
    ensures forall sfb | 0 <= sfb < 21 :: h.scalefac[sfb] == if sfb < 11 then 1 else 0
  {
    hide BandEmpty, Simplest;
    assert !BandEmpty(g, 0) && g.scalefac[0] > 0;
    assert Halvable(g);
    assert !BandEmpty(g, 11) && Halved(g, 11) < Pretab(11);
    assert !Emphasised(g, 2) && Changes(g, 2);
    SimplestParts(g, first, scfsi, h);
    forall sfb | 0 <= sfb < 21
      ensures h.scalefac[sfb] == if sfb < 11 then 1 else 0
    {
      assert !BandEmpty(g, sfb) && h.scalefac[sfb] == Reduced(g, 2, sfb) == Halved(g, sfb);
    }
    ScaleTables(5);
    assert Holds(h.scalefac, 11, 21, 5) && FullLength(11, 21, 5) == 21;
  }

  lemma SimplestParts(g: GrInfo, first: seq<int>, scfsi: seq<nat>, h: GrInfo)
    requires BandsOk(g) && Simplest(g, 2, false, first, scfsi, h) && Changes(g, 2)
    ensures FlagsSet(g, 2, h) && |h.scalefac| == SFBMAX && AllReduced(g, 2, h.scalefac, 0)
    ensures h.sfbdivide <= h.sfbmax <= SFBMAX && LeastWhole(h)
  {
    hide FlagsSet, AllReduced, LeastWhole, Changes;
  }

  // ----- flattenDistribution

  /** One band is twenty steps finer than all others. */
  function OneFiner(): (d: seq<int>)
    ensures Gained(d) && d[0] == 190 && forall i | 1 <= i < SFBMAX :: d[i] == 210
  {
    [190] + seq(SFBMAX - 1, _ => 210)
  }

  lemma FinerDepth(d: seq<int>, n: nat)
    requires d == OneFiner() && 0 < n <= SFBMAX
    ensures Depth(d, n) == 65
  {
    if n > 1 { FinerDepth(d, n - 1); }
  }

  lemma FinerShare(d: seq<int>, k: nat, i: nat)
    requires d == OneFiner() && k <= 65 && i < SFBMAX
    ensures var x := Flattened(d, 65, k, 210)[i];
      65 * (x - d[i]) <= k * (210 - d[i]) < 65 * (x - d[i] + 1)
  {
    hide Flattened, OneFiner;
    FlattenedShare(d, 65, k, 210, i);
  }

  /** A quarter of the way to 210 is reached with 17 of 65 parts, and not with 16. */
  lemma QuarterWay()
    ensures Depth(OneFiner(), SFBMAX) == 65
    ensures Flattened(OneFiner(), 65, 17, 210)[0] == 195 && Flattened(OneFiner(), 65, 16, 210)[0] == 194
    ensures forall i | 1 <= i < SFBMAX :: Flattened(OneFiner(), 65, 17, 210)[i] == 210
  {
    hide Flattened, OneFiner, Depth;
    var d := OneFiner();
    FinerDepth(d, SFBMAX);
    FinerShare(d, 17, 0);
    FinerShare(d, 16, 0);
    forall i | 1 <= i < SFBMAX
      ensures Flattened(d, 65, 17, 210)[i] == 210
    {
      FinerShare(d, 17, i);
    }
  }
}

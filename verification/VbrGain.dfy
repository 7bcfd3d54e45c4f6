/** How VBR turns the gain each band asks for into gains a granule can store (set_subblock_gain, set_scalefacs,
    short_block_constrain, long_block_constrain and bitcount of vbrquantize.c). */
module VbrGain {
  import opened Bits
  import opened SideInfo
  import opened Granule
  import opened Decoder
  import opened Scalefac

  /** What decides the ranges of the scalefactors: max_range_long, max_range_long_lsf_pretab, max_range_short. */
  datatype Kind = Long | LongLsf | Short

  /** scalefac_scale and preflag. */
  datatype Way = Way(scale: nat, pre: nat)

  /** What the constrain functions are given: the gain each band asks for, the least gain that keeps its
      coefficients in range, and the largest of the gains; `mingainL` and `mingainS` are the largest of the
      least gains, over all bands and over each window, and `scalable` is noise_shaping == 2. */
  datatype Wish = Wish(kind: Kind, vbrsf: seq<int>, vbrsfmin: seq<int>, vbrmax: int,
                       mingainL: int, mingainS: seq<int>, psymax: nat, scalable: bool)

  /** What they decide. */
  datatype Gains = Gains(globalGain: nat, scalefacScale: nat, preflag: nat, subblockGain: seq<nat>, scalefac: seq<int>)

  ghost predicate WishOk(w: Wish) {
    && |w.vbrsf| == |w.vbrsfmin| == SFBMAX && |w.mingainS| == 3 && w.vbrmax <= 255 && 0 <= w.mingainL <= 255
    && (forall i | 0 <= i < 3 :: 0 <= w.mingainS[i] <= w.mingainL)
    && (forall i | 0 <= i < SFBMAX ::
         0 <= w.vbrsfmin[i] <= w.vbrsf[i] <= w.vbrmax && w.vbrsfmin[i] <= w.mingainS[i % 3])
    && (if w.kind.Short? then w.psymax == 36 || w.psymax == 39 else w.psymax == 21 || w.psymax == 22)
  }

  function Clamp(x: int): nat { if x < 0 then 0 else if x > 255 then 255 else x }

  /** `n` scalefactor steps; ifqstep is Steps(scale, 1). */
  function Steps(scale: nat, n: int): int { if scale != 0 then 4 * n else 2 * n }

  function Range(kind: Kind, pre: nat, sfb: nat): nat {
    if kind.Short? then (if sfb < 18 then 15 else if sfb < 36 then 7 else 0)
    else if kind.LongLsf? && pre != 0 then (if sfb < 6 then 7 else if sfb < 11 then 3 else 0)
    else if sfb < 11 then 15 else if sfb < 21 then 7 else 0
  }

  /** It is the most that a scalefactor can be: in MPEG-1 the widest widths hold it and nothing larger, in MPEG-2 it
      is the limit of the band's partition.  With pre-emphasis it is that of the partitions without it, which is no
      more. */
  lemma RangeIsMost(pre: nat, sfb: nat)
    requires sfb < 36
    ensures (forall k: nat | k < 16 :: Range1(k) <= Range1(15) && Range2(k) <= Range2(15))
    ensures Range(Short, pre, sfb) + 1 == if sfb < 18 then Range1(15) else Range2(15)
    ensures sfb < 21 ==> Range(Long, pre, sfb) + 1 == if sfb < 11 then Range1(15) else Range2(15)
    ensures Range(Short, pre, sfb) == MaxRange(0, Partition(SfbBlock(0, true), sfb))
    ensures sfb < 21 ==> Range(LongLsf, pre, sfb) == MaxRange(pre, Partition(SfbBlock(0, false), sfb))
                         <= MaxRange(pre, Partition(SfbBlock(pre, false), sfb))
  {
    Pow2Small();
    hide Pow2;
    assert Range1(15) == 16 && Range2(15) == 8;
  }

  function Emphasis(pre: nat, sfb: nat): nat { if pre != 0 then Pretab(sfb) else 0 }

  /** How far below the global gain a band can get. */
  function Reach(kind: Kind, y: Way, sfb: nat): nat {
    (if kind.Short? then 4 * 14 else 0) + Steps(y.scale, Range(kind, y.pre, sfb) + Emphasis(y.pre, sfb))
  }

  /** How much lower than `vbrmax` the global gain must be for all of the first `n` bands to get what they ask for. */
  function Over(w: Wish, y: Way, n: nat): (r: nat)
    requires n <= |w.vbrsf|
  {
    if n == 0 then 0 else Max(Over(w, y, n - 1), w.vbrmax - w.vbrsf[n - 1] - Reach(w.kind, y, n - 1))
  }

  /** How much lower it must be for no band to need a scalefactor. */
  function Spread(w: Wish, n: nat): (r: nat)
    requires n <= |w.vbrsf|
  {
    if n == 0 then 0 else Max(Spread(w, n - 1), w.vbrmax - w.vbrsf[n - 1])
  }

  /** Both are exactly that. */
  lemma {:induction false} OverBinds(w: Wish, y: Way, n: nat)
    requires n <= |w.vbrsf|
    ensures forall i | 0 <= i < n :: w.vbrmax - Over(w, y, n) <= w.vbrsf[i] + Reach(w.kind, y, i)
    ensures Over(w, y, n) > 0 ==> exists i | 0 <= i < n :: w.vbrmax - Over(w, y, n) == w.vbrsf[i] + Reach(w.kind, y, i)
    ensures forall i | 0 <= i < n :: w.vbrmax - Spread(w, n) <= w.vbrsf[i]
    ensures Spread(w, n) > 0 ==> exists i | 0 <= i < n :: w.vbrmax - Spread(w, n) == w.vbrsf[i]
  {
    hide Reach;
    if n > 0 { OverBinds(w, y, n - 1); }
  }

  /** The pre-emphasis alone takes no band down to its least gain. */
  predicate EmphasisFits(w: Wish, scale: nat)
    requires w.psymax <= |w.vbrsf| && w.psymax <= |w.vbrsfmin|
  {
    forall i | 0 <= i < w.psymax ::
      Max(w.vbrmax - Over(w, Way(scale, 1), w.psymax), w.mingainL) - w.vbrsfmin[i] - Steps(scale, Pretab(i)) > 0
  }

  predicate Allowed(w: Wish, y: Way)
    requires w.psymax <= |w.vbrsf| && w.psymax <= |w.vbrsfmin|
  {
    && (y.scale != 0 ==> w.scalable)
    && (y.pre != 0 ==> !w.kind.Short? && EmphasisFits(w, 0) && (y.scale != 0 ==> EmphasisFits(w, 1)))
  }

  function Prefer(w: Wish, x: Way, y: Way): Way
    requires w.psymax <= |w.vbrsf| && w.psymax <= |w.vbrsfmin|
  {
    if Allowed(w, y) && Over(w, y, w.psymax) < Over(w, x, w.psymax) then y else x
  }

  /** The way that needs the global gain lowered least; of equals the first in this order. */
  function Best(w: Wish): Way
    requires w.psymax <= |w.vbrsf| && w.psymax <= |w.vbrsfmin|
  {
    Prefer(w, Prefer(w, Prefer(w, Way(0, 0), Way(0, 1)), Way(1, 0)), Way(1, 1))
  }

  /** No allowed way needs less. */
  lemma BestIsLeast(w: Wish, y: Way)
    requires w.psymax <= |w.vbrsf| && w.psymax <= |w.vbrsfmin| && y.scale < 2 && y.pre < 2 && Allowed(w, y)
    ensures Over(w, Best(w), w.psymax) <= Over(w, y, w.psymax)
    ensures Allowed(w, Best(w))
  {
    hide Over, Allowed, Prefer;
    PlainAllowed(w);
    var a := Prefer(w, Way(0, 0), Way(0, 1));
    var b := Prefer(w, a, Way(1, 0));
    PreferLess(w, Way(0, 0), Way(0, 1));
    PreferLess(w, a, Way(1, 0));
    PreferLess(w, b, Way(1, 1));
  }

  lemma PlainAllowed(w: Wish)
    requires w.psymax <= |w.vbrsf| && w.psymax <= |w.vbrsfmin|
    ensures Allowed(w, Way(0, 0))
  {
  }

  lemma PreferLess(w: Wish, x: Way, y: Way)
    requires w.psymax <= |w.vbrsf| && w.psymax <= |w.vbrsfmin| && Allowed(w, x)
    ensures var z := Prefer(w, x, y);
      && Allowed(w, z) && Over(w, z, w.psymax) <= Over(w, x, w.psymax)
      && (Allowed(w, y) ==> Over(w, z, w.psymax) <= Over(w, y, w.psymax))
  {
    hide Over, Allowed;
  }

  /** The gain before mingain_l is looked at. */
  function Lowered(w: Wish): int
    requires w.psymax <= |w.vbrsf| && w.psymax <= |w.vbrsfmin|
  {
    w.vbrmax - Min(Spread(w, w.psymax), Over(w, Best(w), w.psymax))
  }

  /** It is the highest from which some allowed way gets every band down to what it asks for: from above it, whatever
      the way, some band stays too coarse. */
  lemma LoweredIsMost(w: Wish, y: Way, gain: int)
    requires w.psymax <= |w.vbrsf| && w.psymax <= |w.vbrsfmin| && y.scale < 2 && y.pre < 2 && Allowed(w, y)
    requires Lowered(w) < gain <= w.vbrmax
    ensures exists sfb | 0 <= sfb < w.psymax :: w.vbrsf[sfb] + Reach(w.kind, y, sfb) < gain
  {
    hide Allowed, Best, Reach;
    BestIsLeast(w, y);
    OverBinds(w, y, w.psymax);
    SpreadAtLeast(w, Best(w), w.psymax);
    var sfb :| 0 <= sfb < w.psymax && w.vbrmax - Over(w, y, w.psymax) == w.vbrsf[sfb] + Reach(w.kind, y, sfb);
    assert w.vbrsf[sfb] + Reach(w.kind, y, sfb) < gain;
  }

  lemma {:induction false} SpreadAtLeast(w: Wish, y: Way, n: nat)
    requires n <= |w.vbrsf|
    ensures Over(w, y, n) <= Spread(w, n)
  {
    hide Reach;
    if n > 0 { SpreadAtLeast(w, y, n - 1); }
  }

  // ----- subblock gains; `sf` is how far each band is to be above the global gain

  /** How much window `i` needs beyond its scalefactors, in its first `r` bands; what is not coded counts too. */
  function Lack(sf: seq<int>, scale: nat, i: nat, r: nat): (m: nat)
    requires i < 3 && |sf| == SFBMAX && r <= 13
  {
    if r == 0 then 0
    else Max(Lack(sf, scale, i, r - 1), -sf[3 * (r - 1) + i] - (if r <= 6 then Steps(scale, 15) else Steps(scale, 7)))
  }

  /** The least that any of the first `r` bands needs, or 1000. */
  function Least(sf: seq<int>, i: nat, r: nat): (m: int)
    requires i < 3 && |sf| == SFBMAX && r <= 13
  {
    if r == 0 then 1000 else Min(Least(sf, i, r - 1), -sf[3 * (r - 1) + i])
  }

  lemma LackStep(sf: seq<int>, scale: nat, i: nat, r: nat)
    requires i < 3 && |sf| == SFBMAX && r <= 13
    ensures r == 0 ==> Lack(sf, scale, i, 0) == 0 && Least(sf, i, 0) == 1000
    ensures r > 0 ==>
      && Lack(sf, scale, i, r) == Max(Lack(sf, scale, i, r - 1),
                                      -sf[3 * (r - 1) + i] - (if r <= 6 then Steps(scale, 15) else Steps(scale, 7)))
      && Least(sf, i, r) == Min(Least(sf, i, r - 1), -sf[3 * (r - 1) + i])
  {
  }

  function SubGain(sf: seq<int>, scale: nat, room: int, i: nat): (s: nat)
    requires i < 3 && |sf| == SFBMAX && 0 <= room
    ensures s <= 7 && 8 * s <= room
  {
    Min(Min(Max(Max(Least(sf, i, 13), 0) / 8, (Lack(sf, scale, i, 13) + 7) / 8), room / 8), 7)
  }

  /** How far the largest scalefactor takes a band of row `r`. */
  function Cover(scale: nat, r: nat): int { if r < 6 then Steps(scale, 15) else Steps(scale, 7) }

  /** How far below the gain window `i` is to be in its band `r`. */
  function Need(sf: seq<int>, i: nat, r: nat): int
    requires i < 3 && |sf| == SFBMAX && r < 13
  {
    -sf[3 * r + i]
  }

  /** Unless seven or the room ends it before, a subblock gain is enough for every band with its largest scalefactor,
      and no step more is wanted by all; and of what it is, either some band cannot spare a step or all bands want all
      of it. */
  lemma SubGainMeans(sf: seq<int>, scale: nat, room: nat, i: nat)
    requires i < 3 && |sf| == SFBMAX
    ensures var s := SubGain(sf, scale, room, i);
      && (s == 7 || room < 8 * (s + 1)
          || ((forall r | 0 <= r < 13 :: Need(sf, i, r) <= Cover(scale, r) + 8 * s)
              && exists r | 0 <= r < 13 :: Need(sf, i, r) < 8 * (s + 1)))
      && (s == 0 || (exists r | 0 <= r < 13 :: Cover(scale, r) + 8 * (s - 1) < Need(sf, i, r))
          || forall r | 0 <= r < 13 :: 8 * s <= Need(sf, i, r))
  {
    hide Lack, Least, Cover, Need;
    LackMeans(sf, scale, i, 13);
    var least, lack := Least(sf, i, 13), Lack(sf, scale, i, 13);
    SubGainSteps(least, lack, room);
    var s := SubGain(sf, scale, room, i);
    if s < 7 && 8 * (s + 1) <= room {
      assert least < 8 * (s + 1) && lack <= 8 * s && least < 1000;
    }
    if s > 0 && 8 * (s - 1) < lack {
      var r :| 0 <= r < 13 && Need(sf, i, r) - Cover(scale, r) == lack;
      assert Cover(scale, r) + 8 * (s - 1) < Need(sf, i, r);
    }
  }

  lemma SubGainSteps(least: int, lack: nat, room: nat)
    ensures var s := Min(Min(Max(Max(least, 0) / 8, (lack + 7) / 8), room / 8), 7);
      && (s == 7 || room < 8 * (s + 1) || (lack <= 8 * s && least < 8 * (s + 1)))
      && (s == 0 || 8 * (s - 1) < lack || 8 * s <= least)
  {
  }

  lemma {:induction false} LackMeans(sf: seq<int>, scale: nat, i: nat, n: nat)
    requires i < 3 && |sf| == SFBMAX && n <= 13
    ensures forall r | 0 <= r < n :: Need(sf, i, r) - Cover(scale, r) <= Lack(sf, scale, i, n)
    ensures Lack(sf, scale, i, n) > 0 ==>
      exists r | 0 <= r < n :: Need(sf, i, r) - Cover(scale, r) == Lack(sf, scale, i, n)
    ensures forall r | 0 <= r < n :: Least(sf, i, n) <= Need(sf, i, r)
    ensures Least(sf, i, n) < 1000 ==> exists r | 0 <= r < n :: Least(sf, i, n) == Need(sf, i, r)
  {
    hide Lack, Least, Steps;
    LackStep(sf, scale, i, n);
    if n > 0 {
      LackMeans(sf, scale, i, n - 1);
      assert Need(sf, i, n - 1) == -sf[3 * (n - 1) + i];
    }
  }

  function SubGains(sf: seq<int>, scale: nat, gain: int, mingainS: seq<int>): (s: seq<nat>)
    requires |sf| == SFBMAX && |mingainS| == 3 && forall i | 0 <= i < 3 :: mingainS[i] <= gain
    ensures |s| == 3 && forall i | 0 <= i < 3 :: s[i] <= 7 && 8 * s[i] <= gain - mingainS[i]
  {
    [SubGain(sf, scale, gain - mingainS[0], 0), SubGain(sf, scale, gain - mingainS[1], 1),
     SubGain(sf, scale, gain - mingainS[2], 2)]
  }

  /** What all three windows have in common. */
  function Common(s: seq<nat>): (m: nat)
    requires |s| == 3
    ensures m <= s[0] && m <= s[1] && m <= s[2] && m in s
  {
    Min(Min(s[0], s[1]), s[2])
  }

  /** set_subblock_gain: the windows get what their scalefactors cannot reach; what all three have in common
      goes to the global gain. */
  method SetSubblockGain(s: GrState, mingainS: seq<int>, sf: array<int>, psymax: nat)
    requires sf.Length == SFBMAX && |mingainS| == 3 && |s.gi.subblockGain| == 4 && 18 <= psymax
    requires forall i | 0 <= i < 3 :: 0 <= mingainS[i] <= s.gi.globalGain
    modifies s, sf
    ensures |s.gi.subblockGain| == 4 && s.gi.subblockGain[3] == old(s.gi.subblockGain[3])
    ensures s.gi == old(s.gi).(globalGain := s.gi.globalGain, subblockGain := s.gi.subblockGain)
    ensures var sub := SubGains(old(sf[..]), s.gi.scalefacScale, old(s.gi.globalGain), mingainS);
      && s.gi.globalGain == old(s.gi.globalGain) - 8 * Common(sub)
      && s.gi.subblockGain[..3] == [sub[0] - Common(sub), sub[1] - Common(sub), sub[2] - Common(sub)]
      && forall k | 0 <= k < SFBMAX :: sf[k] == old(sf[k]) + 8 * sub[k % 3]
  {
    hide SubGains;
    ghost var g, a := s.gi, sf[..];
    ghost var sub := SubGains(a, g.scalefacScale, g.globalGain, mingainS);
    var psydiv := if 18 > psymax then psymax else 18;
    var minSbg := WindowGains(s, mingainS, sf, psydiv);
    RaiseWindows(sf, s.gi.subblockGain[0] * 8, s.gi.subblockGain[1] * 8, s.gi.subblockGain[2] * 8);
    if minSbg > 0 {
      s.gi := s.gi.(subblockGain := [s.gi.subblockGain[0] - minSbg, s.gi.subblockGain[1] - minSbg,
                                     s.gi.subblockGain[2] - minSbg, s.gi.subblockGain[3]],
                    globalGain := s.gi.globalGain - minSbg * 8);
    }
  }

  /** The subblock gains of the three windows, and what they have in common. */
  method WindowGains(s: GrState, mingainS: seq<int>, sf: array<int>, psydiv: nat) returns (minSbg: nat)
    requires sf.Length == SFBMAX && |mingainS| == 3 && |s.gi.subblockGain| == 4 && psydiv == 18
    requires forall i | 0 <= i < 3 :: 0 <= mingainS[i] <= s.gi.globalGain
    modifies s
    ensures var sub := SubGains(sf[..], s.gi.scalefacScale, old(s.gi.globalGain), mingainS);
      && s.gi == old(s.gi).(subblockGain := sub + [old(s.gi.subblockGain[3])]) && minSbg == Common(sub)
  {
    hide Lack, Least, SubGain, SubGains, Common, Steps;
    ghost var g := s.gi;
    ghost var sub := SubGains(sf[..], g.scalefacScale, g.globalGain, mingainS);
    var step := Steps(s.gi.scalefacScale, 1);
    StepsOne(s.gi.scalefacScale);
    minSbg := 7;
    for i := 0 to 3
      invariant |s.gi.subblockGain| == 4 && s.gi == g.(subblockGain := s.gi.subblockGain)
      invariant s.gi.subblockGain[3] == g.subblockGain[3]
      invariant forall k | 0 <= k < i :: s.gi.subblockGain[k] == sub[k]
      invariant minSbg <= 7 && forall k | 0 <= k < i :: minSbg <= sub[k]
      invariant minSbg < 7 ==> exists k | 0 <= k < i :: minSbg == sub[k]
    {
      var sbg := WindowGain(sf, step, psydiv, i, g.scalefacScale);
      if sbg > 0 && mingainS[i] > s.gi.globalGain - sbg * 8 {
        sbg := (s.gi.globalGain - mingainS[i]) / 8;
      }
      if sbg > 7 { sbg := 7; }
      SubGainIs(sf[..], g.scalefacScale, g.globalGain, mingainS, i);
      if minSbg > sbg { minSbg := sbg; }
      s.gi := s.gi.(subblockGain := s.gi.subblockGain[i := sbg]);
    }
    CommonIs(sub, minSbg);
  }

  method RaiseWindows(sf: array<int>, sbg0: int, sbg1: int, sbg2: int)
    requires sf.Length == SFBMAX
    modifies sf
    ensures forall k | 0 <= k < SFBMAX :: sf[k] == old(sf[k]) + [sbg0, sbg1, sbg2][k % 3]
  {
    var sfb := 0;
    while sfb < SFBMAX
      invariant 0 <= sfb <= SFBMAX && sfb % 3 == 0
      invariant forall k | 0 <= k < sfb :: sf[k] == old(sf[k]) + [sbg0, sbg1, sbg2][k % 3]
      invariant forall k | sfb <= k < SFBMAX :: sf[k] == old(sf[k])
    {
      sf[sfb] := sf[sfb] + sbg0;
      sf[sfb + 1] := sf[sfb + 1] + sbg1;
      sf[sfb + 2] := sf[sfb + 2] + sbg2;
      sfb := sfb + 3;
    }
  }

  lemma StepsOne(scale: nat)
    ensures Steps(scale, 1) >= 0
  {
  }

  lemma CommonIs(s: seq<nat>, m: nat)
    requires |s| == 3 && (forall k | 0 <= k < 3 :: m <= s[k] <= 7) && m <= 7
    requires m < 7 ==> exists k | 0 <= k < 3 :: m == s[k]
    ensures m == Common(s)
  {
  }

  lemma SubGainIs(sf: seq<int>, scale: nat, gain: int, mingainS: seq<int>, i: nat)
    requires i < 3 && |sf| == SFBMAX && |mingainS| == 3 && forall k | 0 <= k < 3 :: mingainS[k] <= gain
    ensures SubGains(sf, scale, gain, mingainS)[i]
      == Min(Min(Max(Max(Least(sf, i, 13), 0) / 8, (Lack(sf, scale, i, 13) + 7) / 8), (gain - mingainS[i]) / 8), 7)
  {
    hide Lack, Least;
  }

  /** The part of set_subblock_gain for one window, before mingain_s and the largest subblock gain are looked at. */
  method WindowGain(sf: array<int>, step: nat, psydiv: nat, i: nat, ghost scale: nat) returns (sbg: nat)
    requires sf.Length == SFBMAX && i < 3 && psydiv == 18 && step == Steps(scale, 1)
    ensures sbg == Max(Max(Least(sf[..], i, 13), 0) / 8, (Lack(sf[..], scale, i, 13) + 7) / 8)
  {
    hide Lack, Least;
    LackStep(sf[..], scale, i, 0);
    var maxsf1, maxsf2, minsf := 0, 0, 1000;
    var sfb := i;
    ghost var r := 0;
    while sfb < psydiv
      invariant 0 <= r <= 6 && sfb == 3 * r + i
      invariant minsf == Least(sf[..], i, r) && 0 <= maxsf1
      invariant Max(0, maxsf1 - 15 * step) == Lack(sf[..], scale, i, r)
    {
      LackStep(sf[..], scale, i, r + 1);
      var v := -sf[sfb];
      if maxsf1 < v { maxsf1 := v; }
      if minsf > v { minsf := v; }
      sfb, r := sfb + 3, r + 1;
    }
    while sfb < SFBMAX
      invariant 6 <= r <= 13 && sfb == 3 * r + i
      invariant minsf == Least(sf[..], i, r) && 0 <= maxsf2
      invariant Max(0, Max(maxsf1 - 15 * step, maxsf2 - 7 * step)) == Lack(sf[..], scale, i, r)
    {
      LackStep(sf[..], scale, i, r + 1);
      var v := -sf[sfb];
      if maxsf2 < v { maxsf2 := v; }
      if minsf > v { minsf := v; }
      sfb, r := sfb + 3, r + 1;
    }
    maxsf1 := Max(maxsf1 - 15 * step, maxsf2 - 7 * step);
    sbg := if minsf > 0 then minsf / 8 else 0;
    if maxsf1 > 0 {
      sbg := Max(sbg, (maxsf1 + 7) / 8);
    }
  }

  // ----- scalefactors

  function DivSteps(scale: nat, n: int): int { if scale != 0 then n / 4 else n / 2 }

  /** The scalefactor that lowers a band by `need`, no larger than `range` and lowering it by no more than `room`. */
  function ScaleFor(need: int, room: int, range: nat, scale: nat): int {
    if need <= 0 then 0
    else
      var c := Min(DivSteps(scale, Steps(scale, 1) - 1 + need), range);
      if c > 0 && Steps(scale, c) > room then DivSteps(scale, room) else c
  }

  /** It is the smallest that is enough, unless range or room ends before; below the least gain nothing is right. */
  lemma ScaleForMeans(need: int, room: int, range: nat, scale: nat)
    ensures var v := ScaleFor(need, room, range, scale);
      && (room >= 0 ==> 0 <= v <= range && Steps(scale, v) <= room)
      && (room >= 0 ==> need <= Steps(scale, v) || v == range || room < Steps(scale, v + 1))
      && (v > 0 ==> Steps(scale, v - 1) < need)
      && (room < 0 < need && range > 0 ==> v < 0)
  {
  }

  /** The part of set_scalefacs for one band. */
  method BandScalefac(sf: int, m: int, range: nat, scale: nat) returns (v: int)
    ensures v == ScaleFor(-sf, m, range, scale)
  {
    v := 0;
    if sf < 0 {
      v := DivSteps(scale, Steps(scale, 1) - 1 - sf);
      if v > range {
        v := range;
      }
      if v > 0 && Steps(scale, v) > m {
        v := DivSteps(scale, m);
      }
    }
  }

  /** set_scalefacs */
  method SetScalefacs(s: GrState, vbrsfmin: seq<int>, sf: array<int>, kind: Kind)
    requires |s.gi.scalefac| == SFBMAX && s.gi.sfbmax <= SFBMAX && |vbrsfmin| == SFBMAX && sf.Length == SFBMAX
    requires |s.gi.subblockGain| == 4 && |s.gi.window| == SFBMAX
        && forall i | 0 <= i < s.gi.sfbmax :: s.gi.window[i] < 4
    modifies s, sf
    ensures |s.gi.scalefac| == SFBMAX && s.gi == old(s.gi).(scalefac := s.gi.scalefac)
    ensures forall i | 0 <= i < s.gi.sfbmax ::
      var base := s.gi.globalGain - 8 * s.gi.subblockGain[s.gi.window[i]]
                  - Steps(s.gi.scalefacScale, Emphasis(s.gi.preflag, i));
      s.gi.scalefac[i] == ScaleFor(-old(sf[i]) - Steps(s.gi.scalefacScale, Emphasis(s.gi.preflag, i)),
                                   base - vbrsfmin[i], Range(kind, s.gi.preflag, i), s.gi.scalefacScale)
    ensures forall i | s.gi.sfbmax <= i < SFBMAX :: s.gi.scalefac[i] == 0
  {
    hide Pretab, Range, ScaleFor, Steps, DivSteps, Emphasis;
    ghost var g := s.gi;
    var scale, preflag, sfbmax := s.gi.scalefacScale, s.gi.preflag, s.gi.sfbmax;
    if preflag != 0 {
      Emphasise(sf, sfbmax, scale);
    }
    EmphasisIs(preflag, scale);
    assert forall i | 0 <= i < sfbmax :: sf[i] == old(sf[i]) + Steps(scale, Emphasis(preflag, i));
    var sfb := 0;
    while sfb < sfbmax
      invariant sfb <= sfbmax && |s.gi.scalefac| == SFBMAX && s.gi == g.(scalefac := s.gi.scalefac)
      invariant forall i | 0 <= i < sfb ::
        s.gi.scalefac[i] == ScaleFor(-sf[i], g.globalGain - 8 * g.subblockGain[g.window[i]]
          - Steps(scale, Emphasis(preflag, i)) - vbrsfmin[i], Range(kind, preflag, i), scale)
      invariant forall i | 0 <= i < sfbmax :: sf[i] == old(sf[i]) + Steps(scale, Emphasis(preflag, i))
    {
      var gain := s.gi.globalGain - s.gi.subblockGain[s.gi.window[sfb]] * 8 - Steps(scale, Emphasis(preflag, sfb));
      var v := BandScalefac(sf[sfb], gain - vbrsfmin[sfb], Range(kind, preflag, sfb), scale);
      s.gi := s.gi.(scalefac := s.gi.scalefac[sfb := v]);
      sfb := sfb + 1;
    }
    ghost var done := s.gi.scalefac;
    while sfb < SFBMAX
      invariant sfbmax <= sfb <= SFBMAX && |s.gi.scalefac| == SFBMAX && s.gi == g.(scalefac := s.gi.scalefac)
      invariant s.gi.scalefac[..sfbmax] == done[..sfbmax]
      invariant forall i | sfbmax <= i < sfb :: s.gi.scalefac[i] == 0
    {
      s.gi := s.gi.(scalefac := s.gi.scalefac[sfb := 0]);
      sfb := sfb + 1;
    }
    assert forall i | 0 <= i < sfbmax :: s.gi.scalefac[i] == s.gi.scalefac[..sfbmax][i] == done[i];
  }

  lemma EmphasisIs(preflag: nat, scale: nat)
    ensures forall i: nat ::
      (Steps(scale, Emphasis(preflag, i)) == if preflag != 0 && 11 <= i then Steps(scale, Pretab(i)) else 0)
  {
  }

  /** What pre-emphasis gives, the scalefactors need not. */
  method Emphasise(sf: array<int>, sfbmax: nat, scale: nat)
    requires sfbmax <= sf.Length
    modifies sf
    ensures forall i | 0 <= i < sf.Length :: sf[i] == old(sf[i]) + if 11 <= i < sfbmax then Steps(scale, Pretab(i))
        else 0
  {
    hide Pretab, Steps;
    var sfb := 11;
    while sfb < sfbmax
      invariant 11 <= sfb
      invariant forall i | 0 <= i < sf.Length ::
        sf[i] == old(sf[i]) + if 11 <= i < sfb && i < sfbmax then Steps(scale, Pretab(i)) else 0
    {
      sf[sfb] := sf[sfb] + Steps(scale, Pretab(sfb));
      sfb := sfb + 1;
    }
  }

  // ----- the two constrain functions

  /** The granule is of the kind the wish is for. */
  ghost predicate Shaped(kind: Kind, g: GrInfo) {
    && |g.scalefac| == |g.window| == SFBMAX && |g.subblockGain| == 4 && g.mixedBlockFlag == 0 && DividedBands(g)
    && (kind.Short? <==> g.blockType == SHORT_TYPE)
    && (if kind.Short? then g.preflag == 0 && g.subblockGain[3] == 0
        && forall k | 0 <= k < SFBMAX :: g.window[k] == k % 3
        else g.subblockGain == [0, 0, 0, 0] && forall k | 0 <= k < SFBMAX :: g.window[k] == 3)
  }

  function GainOf(w: Wish): int
    requires w.psymax <= |w.vbrsf| && w.psymax <= |w.vbrsfmin|
  {
    Max(Lowered(w), w.mingainL)
  }

  /** How far each band is to be above the global gain. */
  function Asked(w: Wish, gain: int): (sf: seq<int>)
    requires |w.vbrsf| == SFBMAX
    ensures |sf| == SFBMAX && forall i | 0 <= i < SFBMAX :: sf[i] == w.vbrsf[i] - gain
  {
    seq(SFBMAX, i requires 0 <= i < SFBMAX => w.vbrsf[i] - gain)
  }

  /** The subblock gains before their common part is taken out. */
  function SubsOf(w: Wish): (s: seq<nat>)
    requires |w.vbrsf| == |w.vbrsfmin| == SFBMAX && w.psymax <= SFBMAX
    requires |w.mingainS| == 3 && forall i | 0 <= i < 3 :: w.mingainS[i] <= GainOf(w)
    ensures |s| == 3
  {
    if w.kind.Short? then SubGains(Asked(w, GainOf(w)), Best(w).scale, GainOf(w), w.mingainS) else [0, 0, 0]
  }

  /** The gain of a band before its scalefactor. */
  function Base(w: Wish, sfb: nat): int
    requires |w.vbrsf| == |w.vbrsfmin| == SFBMAX && w.psymax <= SFBMAX
    requires |w.mingainS| == 3 && forall i | 0 <= i < 3 :: w.mingainS[i] <= GainOf(w)
  {
    GainOf(w) - 8 * SubsOf(w)[sfb % 3] - Steps(Best(w).scale, Emphasis(Best(w).pre, sfb))
  }

  /** What a granule has become: the gains of the wish, and nothing else has changed. */
  ghost predicate Granted(w: Wish, g: GrInfo, h: GrInfo)
    requires WishOk(w)
  {
    MinGainsBelow(w);
    var s, y := SubsOf(w), Best(w);
    && h == g.(globalGain := h.globalGain, scalefacScale := y.scale, preflag := y.pre,
               subblockGain := h.subblockGain, scalefac := h.scalefac)
    && h.globalGain == GainOf(w) - 8 * Common(s)
    && h.subblockGain == [s[0] - Common(s), s[1] - Common(s), s[2] - Common(s), 0]
    && |h.scalefac| == SFBMAX && (forall i | h.sfbmax <= i < SFBMAX :: h.scalefac[i] == 0)
    && forall i | 0 <= i < h.sfbmax && i < SFBMAX ::
         h.scalefac[i] == ScaleFor(Base(w, i) - w.vbrsf[i], Base(w, i) - w.vbrsfmin[i], Range(w.kind, y.pre, i),
             y.scale)
  }

  lemma MinGainsBelow(w: Wish)
    requires WishOk(w)
    ensures forall i | 0 <= i < 3 :: 0 <= w.mingainS[i] <= GainOf(w)
    ensures 0 <= w.mingainL <= GainOf(w) <= 255
  {
    hide Best, Over, Spread;
  }

  /** The part of short_block_constrain that decides the gain and scalefac_scale. */
  method ShortRoom(w: Wish) returns (vbrmax: int, scale: nat)
    requires WishOk(w) && w.kind.Short?
    ensures vbrmax == GainOf(w) && Best(w) == Way(scale, 0)
  {
    hide Over, Spread, Range, Pretab, Reach, Steps, Best;
    vbrmax := w.vbrmax;
    var maxover0, maxover1, delta := 0, 0, 0;
    ZeroBands(w);
    for sfb := 0 to w.psymax
      invariant delta == Spread(w, sfb) && maxover0 == Over(w, Way(0, 0), sfb) && maxover1 == Over(w, Way(1, 0), sfb)
    {
      MoreBands(w, sfb);
      var v := vbrmax - w.vbrsf[sfb];
      if delta < v { delta := v; }
      var v0 := v - (4 * 14 + 2 * Range(Short, 0, sfb));
      var v1 := v - (4 * 14 + 4 * Range(Short, 0, sfb));
      if maxover0 < v0 { maxover0 := v0; }
      if maxover1 < v1 { maxover1 := v1; }
    }
    var mover := if w.scalable then Min(maxover0, maxover1) else maxover0;
    if delta > mover { delta := mover; }
    vbrmax := vbrmax - delta;
    maxover0, maxover1 := maxover0 - mover, maxover1 - mover;
    BestShort(w);
    if maxover0 == 0 {
      scale := 0;
    } else if maxover1 == 0 {
      scale := 1;
    } else {
      assert false;
    }
    if vbrmax < w.mingainL { vbrmax := w.mingainL; }
  }

  method AskFor(w: Wish, vbrmax: int) returns (sf: array<int>)
    requires |w.vbrsf| == SFBMAX
    ensures fresh(sf) && sf.Length == SFBMAX && sf[..] == Asked(w, vbrmax)
  {
    sf := new int[SFBMAX];
    for sfb := 0 to SFBMAX
      invariant forall i | 0 <= i < sfb :: sf[i] == w.vbrsf[i] - vbrmax
    {
      sf[sfb] := w.vbrsf[sfb] - vbrmax;
    }
  }

  function GainsOf(g: GrInfo): Gains {
    Gains(g.globalGain, g.scalefacScale, g.preflag, g.subblockGain, g.scalefac)
  }

  /** The gains that a wish leads to. */
  ghost function GainsFor(w: Wish): Gains
    requires WishOk(w)
  {
    MinGainsBelow(w);
    var s, y, max := SubsOf(w), Best(w), if w.kind.Short? then 36 else 21;
    GainRange(w);
    CommonBelow(w);
    Gains(GainOf(w) - 8 * Common(s), y.scale, y.pre, [s[0] - Common(s), s[1] - Common(s), s[2] - Common(s), 0],
          seq(SFBMAX, i requires 0 <= i < SFBMAX =>
            if i < max then
              ScaleFor(Base(w, i) - w.vbrsf[i], Base(w, i) - w.vbrsfmin[i], Range(w.kind, y.pre, i), y.scale)
            else 0))
  }

  /** They do not depend on what was there before. */
  lemma GrantedIs(w: Wish, g: GrInfo, h: GrInfo)
    requires WishOk(w) && Shaped(w.kind, g) && Granted(w, g, h)
    ensures GainsOf(h) == GainsFor(w)
  {
    hide Best, GainOf, SubsOf, ScaleFor, Base, Range;
    assert h.scalefac == GainsFor(w).scalefac;
  }

  lemma CommonBelow(w: Wish)
    requires WishOk(w) && forall i | 0 <= i < 3 :: w.mingainS[i] <= GainOf(w)
    ensures 8 * Common(SubsOf(w)) <= GainOf(w)
  {
    hide Best, SubGain, Lowered;
  }

  /** short_block_constrain */
  method ShortBlockConstrain(s: GrState, w: Wish)
    requires WishOk(w) && w.kind.Short? && Shaped(w.kind, s.gi)
    modifies s
    ensures Granted(w, old(s.gi), s.gi)
  {
    hide Best, GainOf, SubGains, ScaleFor, Range, Steps, Emphasis, Granted, WishOk, DividedBands;
    ghost var g := s.gi;
    var vbrmax, scale := ShortRoom(w);
    GainRange(w);
    s.gi := s.gi.(scalefacScale := scale);
    s.gi := s.gi.(globalGain := Clamp(vbrmax));
    var sf := AskFor(w, vbrmax);
    SetSubblockGain(s, w.mingainS, sf, w.psymax);
    BandsIn(g);
    SetScalefacs(s, w.vbrsfmin, sf, Short);
    GrantedShort(w, g, s.gi);
  }

  lemma GainRange(w: Wish)
    requires WishOk(w)
    ensures |w.vbrsf| == |w.vbrsfmin| == SFBMAX && w.psymax <= SFBMAX && |w.mingainS| == 3
    ensures (forall i | 0 <= i < 3 :: 0 <= w.mingainS[i] <= GainOf(w)) && 0 <= w.mingainL <= GainOf(w) <= 255
    ensures 18 <= w.psymax
  {
    MinGainsBelow(w);
  }

  lemma BandsIn(g: GrInfo)
    requires DividedBands(g)
    ensures g.sfbmax <= 36
  {
  }

  lemma ZeroBands(w: Wish)
    requires WishOk(w)
    ensures Spread(w, 0) == Over(w, Way(0, 0), 0) == Over(w, Way(1, 0), 0) == Over(w, Way(0, 1), 0)
        == Over(w, Way(1, 1), 0) == 0
  {
  }

  lemma MoreBands(w: Wish, sfb: nat)
    requires WishOk(w) && sfb < SFBMAX
    ensures var v, x := w.vbrmax - w.vbrsf[sfb], if w.kind.Short? then 4 * 14 else 0;
      && Spread(w, sfb + 1) == Max(Spread(w, sfb), v)
      && Over(w, Way(0, 0), sfb + 1) == Max(Over(w, Way(0, 0), sfb), v - (x + 2 * Range(w.kind, 0, sfb)))
      && Over(w, Way(1, 0), sfb + 1) == Max(Over(w, Way(1, 0), sfb), v - (x + 4 * Range(w.kind, 0, sfb)))
      && Over(w, Way(0, 1), sfb + 1) == Max(Over(w, Way(0, 1), sfb),
          v - (x + 2 * (Range(w.kind, 1, sfb) + Pretab(sfb))))
      && Over(w, Way(1, 1), sfb + 1) == Max(Over(w, Way(1, 1), sfb),
          v - (x + 4 * (Range(w.kind, 1, sfb) + Pretab(sfb))))
  {
    hide Range, Pretab;
  }

  lemma BestShort(w: Wish)
    requires WishOk(w) && w.kind.Short?
    ensures var a, b := Over(w, Way(0, 0), w.psymax), Over(w, Way(1, 0), w.psymax);
      Best(w) == if w.scalable && b < a then Way(1, 0) else Way(0, 0)
  {
    hide Over, EmphasisFits;
  }

  lemma GrantedShort(w: Wish, g: GrInfo, h: GrInfo)
    requires WishOk(w) && w.kind.Short? && Shaped(w.kind, g) && h.sfbmax == g.sfbmax && |h.scalefac| == SFBMAX
    requires h == g.(globalGain := h.globalGain, scalefacScale := Best(w).scale, subblockGain := h.subblockGain,
                     scalefac := h.scalefac)
    requires |h.subblockGain| == 4 && h.subblockGain[3] == g.subblockGain[3]
    requires (forall i | 0 <= i < 3 :: w.mingainS[i] <= GainOf(w))
    requires var sub := SubGains(Asked(w, GainOf(w)), Best(w).scale, GainOf(w), w.mingainS);
      && h.globalGain == GainOf(w) - 8 * Common(sub)
      && h.subblockGain[..3] == [sub[0] - Common(sub), sub[1] - Common(sub), sub[2] - Common(sub)]
      && (forall i | 0 <= i < h.sfbmax ::
            h.scalefac[i] == ScaleFor(-(Asked(w, GainOf(w))[i] + 8 * sub[i % 3]) - Steps(h.scalefacScale,
                Emphasis(0, i)),
              h.globalGain - 8 * h.subblockGain[i % 3] - Steps(h.scalefacScale, Emphasis(0, i)) - w.vbrsfmin[i],
              Range(Short, 0, i), h.scalefacScale))
    requires forall i | h.sfbmax <= i < SFBMAX :: h.scalefac[i] == 0
    ensures Granted(w, g, h)
  {
    hide Over, Spread, SubGain, SubGains, ScaleFor, Range, Pretab, Reach, Steps, Lowered;
    BestShort(w);
    var sub := SubsOf(w);
    forall i | 0 <= i < h.sfbmax && i < SFBMAX
      ensures h.scalefac[i] == ScaleFor(Base(w, i) - w.vbrsf[i], Base(w, i) - w.vbrsfmin[i], Range(Short, 0, i),
          h.scalefacScale)
    {
      assert h.subblockGain[i % 3] == h.subblockGain[..3][i % 3] == sub[i % 3] - Common(sub);
    }
  }

  /** The loop of long_block_constrain: what each of the four ways needs. */
  method LongNeeds(w: Wish) returns (delta: int, maxover0: int, maxover1: int, maxover0p: int, maxover1p: int)
    requires WishOk(w) && !w.kind.Short?
    ensures delta == Spread(w, w.psymax)
    ensures maxover0 == Over(w, Way(0, 0), w.psymax) && maxover1 == Over(w, Way(1, 0), w.psymax)
    ensures maxover0p == Over(w, Way(0, 1), w.psymax) && maxover1p == Over(w, Way(1, 1), w.psymax)
  {
    hide Over, Spread, Range, Pretab;
    delta, maxover0, maxover1, maxover0p, maxover1p := 0, 0, 0, 0, 0;
    ZeroBands(w);
    for sfb := 0 to w.psymax
      invariant delta == Spread(w, sfb)
      invariant maxover0 == Over(w, Way(0, 0), sfb) && maxover1 == Over(w, Way(1, 0), sfb)
      invariant maxover0p == Over(w, Way(0, 1), sfb) && maxover1p == Over(w, Way(1, 1), sfb)
    {
      MoreBands(w, sfb);
      var v := w.vbrmax - w.vbrsf[sfb];
      if delta < v { delta := v; }
      var v0, v1 := v - 2 * Range(Long, 0, sfb), v - 4 * Range(Long, 0, sfb);
      var v0p := v - 2 * (Range(w.kind, 1, sfb) + Pretab(sfb));
      var v1p := v - 4 * (Range(w.kind, 1, sfb) + Pretab(sfb));
      RangeLong(w.kind, sfb);
      if maxover0 < v0 { maxover0 := v0; }
      if maxover1 < v1 { maxover1 := v1; }
      if maxover0p < v0p { maxover0p := v0p; }
      if maxover1p < v1p { maxover1p := v1p; }
    }
  }

  lemma RangeLong(kind: Kind, sfb: nat)
    requires !kind.Short?
    ensures Range(kind, 0, sfb) == Range(Long, 0, sfb)
  {
  }

  /** The part of long_block_constrain that finds out whether there is room for the pre-emphasis. */
  method PretabRoom(w: Wish, maxover: int, scale: nat) returns (fits: bool)
    requires WishOk(w) && maxover == Over(w, Way(scale, 1), w.psymax)
    ensures fits <==> EmphasisFits(w, scale)
  {
    hide Over, Pretab;
    fits := true;
    var gain := w.vbrmax - maxover;
    if gain < w.mingainL { gain := w.mingainL; }
    for sfb := 0 to w.psymax
      invariant fits && forall i | 0 <= i < sfb :: gain - w.vbrsfmin[i] - Steps(scale, Pretab(i)) > 0
    {
      if gain - w.vbrsfmin[sfb] - Steps(scale, Pretab(sfb)) <= 0 { return false; }
    }
  }

  /** The part of long_block_constrain that decides the gain, scalefac_scale and preflag. */
  method LongRoom(w: Wish) returns (vbrmax: int, y: Way)
    requires WishOk(w) && !w.kind.Short?
    ensures vbrmax == GainOf(w) && y == Best(w)
  {
    hide Over, Spread, EmphasisFits, Best;
    var delta, maxover0, maxover1, maxover0p, maxover1p := LongNeeds(w);
    var vm0p := PretabRoom(w, maxover0p, 0);
    var vm1p := false;
    if vm0p { vm1p := PretabRoom(w, maxover1p, 1); }
    if !vm0p { maxover0p := maxover0; }
    if !vm1p { maxover1p := maxover1; }
    if !w.scalable { maxover1, maxover1p := maxover0, maxover0p; }
    var mover := Min(Min(Min(maxover0, maxover0p), maxover1), maxover1p);
    if delta > mover { delta := mover; }
    vbrmax := w.vbrmax - delta;
    if vbrmax < w.mingainL { vbrmax := w.mingainL; }
    maxover0, maxover0p, maxover1, maxover1p := maxover0 - mover, maxover0p - mover, maxover1 - mover,
        maxover1p - mover;
    BestLong(w);
    if maxover0 == 0 {
      y := Way(0, 0);
    } else if maxover0p == 0 {
      y := Way(0, 1);
    } else if maxover1 == 0 {
      y := Way(1, 0);
    } else if maxover1p == 0 {
      y := Way(1, 1);
    } else {
      assert false;
    }
  }

  /** The choice in terms of what each way needs. */
  lemma BestLong(w: Wish)
    requires WishOk(w) && !w.kind.Short?
    ensures var a, ap := Over(w, Way(0, 0), w.psymax), Over(w, Way(0, 1), w.psymax);
      var b, bp := Over(w, Way(1, 0), w.psymax), Over(w, Way(1, 1), w.psymax);
      var m := if EmphasisFits(w, 0) then Min(a, ap) else a;
      var n := if w.scalable then Min(m, b) else m;
      var l := if w.scalable && EmphasisFits(w, 0) && EmphasisFits(w, 1) then Min(n, bp) else n;
      Over(w, Best(w), w.psymax) == l
      && Best(w) == if a == l then Way(0, 0) else if EmphasisFits(w, 0) && ap == l then Way(0, 1)
                    else if w.scalable && b == l then Way(1, 0) else Way(1, 1)
  {
    hide Over, EmphasisFits;
  }

  /** long_block_constrain */
  method LongBlockConstrain(s: GrState, w: Wish)
    requires WishOk(w) && !w.kind.Short? && Shaped(w.kind, s.gi)
    modifies s
    ensures Granted(w, old(s.gi), s.gi)
  {
    hide Best, GainOf, SubGains, ScaleFor, Range, Steps, Emphasis, Granted, WishOk, DividedBands;
    ghost var g := s.gi;
    var vbrmax, y := LongRoom(w);
    GainRange(w);
    s.gi := s.gi.(scalefacScale := y.scale, preflag := y.pre);
    s.gi := s.gi.(globalGain := Clamp(vbrmax));
    var sf := AskFor(w, vbrmax);
    BandsIn(g);
    SetScalefacs(s, w.vbrsfmin, sf, w.kind);
    GrantedLong(w, g, s.gi);
  }

  lemma GrantedLong(w: Wish, g: GrInfo, h: GrInfo)
    requires WishOk(w) && !w.kind.Short? && Shaped(w.kind, g) && h.sfbmax == g.sfbmax && |h.scalefac| == SFBMAX
    requires h == g.(globalGain := h.globalGain, scalefacScale := Best(w).scale, preflag := Best(w).pre,
        scalefac := h.scalefac)
    requires h.globalGain == GainOf(w)
    requires forall i | 0 <= i < h.sfbmax ::
      h.scalefac[i] == ScaleFor(-Asked(w, GainOf(w))[i] - Steps(h.scalefacScale, Emphasis(h.preflag, i)),
        h.globalGain - 8 * h.subblockGain[h.window[i]] - Steps(h.scalefacScale, Emphasis(h.preflag, i)) - w.vbrsfmin[i],
        Range(w.kind, h.preflag, i), h.scalefacScale)
    requires forall i | h.sfbmax <= i < SFBMAX :: h.scalefac[i] == 0
    ensures Granted(w, g, h)
  {
    hide Over, Spread, ScaleFor, Range, Emphasis, Steps, Lowered, Best;
    MinGainsBelow(w);
    assert SubsOf(w) == [0, 0, 0];
  }

  // ----- what the gains mean

  /** The gain a band is quantized with. */
  function Eff(g: GrInfo, sfb: nat): int
    requires sfb < |g.scalefac| && sfb < |g.window| && g.window[sfb] < |g.subblockGain|
  {
    g.globalGain - Amp(g.scalefac[sfb], sfb, g.preflag, g.scalefacScale) - 8 * g.subblockGain[g.window[sfb]]
  }

  ghost predicate Windowed(g: GrInfo) {
    && |g.scalefac| == |g.window| == SFBMAX && |g.subblockGain| == 4 && g.sfbmax <= SFBMAX
    && forall i | 0 <= i < SFBMAX :: g.window[i] < 4
  }

  /** checkScalefactor */
  ghost predicate CheckScalefactor(g: GrInfo, vbrsfmin: seq<int>, psymax: nat)
    requires Windowed(g) && psymax <= SFBMAX == |vbrsfmin|
  {
    forall i | 0 <= i < psymax :: Eff(g, i) >= vbrsfmin[i]
  }

  /** Every scalefactor is one that can be stored. */
  ghost predicate Ranged(kind: Kind, g: GrInfo) {
    && |g.scalefac| == SFBMAX && g.sfbmax <= SFBMAX
    && (forall i | 0 <= i < g.sfbmax :: 0 <= g.scalefac[i] <= Range(kind, g.preflag, i))
    && (forall i | g.sfbmax <= i < SFBMAX :: g.scalefac[i] == 0)
  }

  /** The reach is how low a band can get, and it gets there only with the largest scalefactor and subblock gain. */
  lemma ReachIs(kind: Kind, g: GrInfo, sfb: nat)
    requires Windowed(g) && Ranged(kind, g) && sfb < SFBMAX && g.sfbmax == if kind.Short? then 36 else 21
    requires if kind.Short? then g.subblockGain[g.window[sfb]] <= 7 else g.subblockGain[g.window[sfb]] == 0
    ensures var low := g.globalGain - Reach(kind, Way(g.scalefacScale, g.preflag), sfb);
      && low <= Eff(g, sfb)
      && (Eff(g, sfb) == low <==>
            g.scalefac[sfb] == Range(kind, g.preflag, sfb) && (kind.Short? ==> g.subblockGain[g.window[sfb]] == 7))
  {
    hide Range, Pretab;
    NoRangePast(kind, g.preflag, sfb);
    assert g.scalefac[sfb] <= Range(kind, g.preflag, sfb);
  }

  lemma NoRangePast(kind: Kind, pre: nat, sfb: nat)
    ensures sfb >= (if kind.Short? then 36 else 21) ==> Range(kind, pre, sfb) == 0
  {
  }

  lemma GrantedShape(w: Wish, g: GrInfo, h: GrInfo)
    requires WishOk(w) && Shaped(w.kind, g) && Granted(w, g, h)
    ensures Windowed(h) && h.sfbmax <= w.psymax <= SFBMAX && h.sfbmax == (if w.kind.Short? then 36 else 21)
    ensures (forall i | 0 <= i < 3 :: w.mingainS[i] <= GainOf(w)) && |w.mingainS| == 3
    ensures forall i | 0 <= i < SFBMAX ::
      h.globalGain - 8 * h.subblockGain[h.window[i]] == GainOf(w) - 8 * SubsOf(w)[i % 3]
    ensures h.preflag == Best(w).pre && h.scalefacScale == Best(w).scale
    ensures |h.scalefac| == SFBMAX && forall i | h.sfbmax <= i < SFBMAX :: h.scalefac[i] == 0
    ensures forall i | 0 <= i < h.sfbmax ::
      h.scalefac[i]
      == ScaleFor(Base(w, i) - w.vbrsf[i], Base(w, i) - w.vbrsfmin[i], Range(w.kind, h.preflag, i), h.scalefacScale)
  {
    hide Best, GainOf, SubGains, ScaleFor, Base, Range;
    MinGainsBelow(w);
    if !w.kind.Short? { assert SubsOf(w) == [0, 0, 0]; }
  }

  /** Before its scalefactor no band is below its least gain. */
  lemma BaseRoom(w: Wish, sfb: nat)
    requires WishOk(w) && sfb < SFBMAX
    ensures (forall i | 0 <= i < 3 :: w.mingainS[i] <= GainOf(w))
    ensures Base(w, sfb) >= w.vbrsfmin[sfb]
  {
    hide Over, Spread;
    MinGainsBelow(w);
    var y := Best(w);
    if w.kind.Short? {
      assert w.vbrsfmin[sfb] <= w.mingainS[sfb % 3];
      PlainAllowed(w);
      BestIsLeast(w, Way(0, 0));
    } else if y.pre != 0 && sfb < w.psymax {
      PlainAllowed(w);
      BestIsLeast(w, Way(0, 0));
      assert y.scale < 2 && EmphasisFits(w, y.scale);
    } else {
      assert Emphasis(y.pre, sfb) == 0;
    }
  }

  lemma EffIs(w: Wish, g: GrInfo, h: GrInfo, sfb: nat)
    requires WishOk(w) && Shaped(w.kind, g) && Granted(w, g, h) && sfb < SFBMAX
    ensures Windowed(h) && (forall i | 0 <= i < 3 :: w.mingainS[i] <= GainOf(w))
    ensures Eff(h, sfb) == Base(w, sfb) - Steps(h.scalefacScale, h.scalefac[sfb])
  {
    hide Best, GainOf, SubsOf, ScaleFor, Range, Pretab, Granted, Shaped, WishOk;
    GrantedShape(w, g, h);
  }

  /** Whatever the bands ask for, what they get is storable, and leaves no band below its least gain. */
  lemma ConstrainedIsSafe(w: Wish, g: GrInfo, h: GrInfo)
    requires WishOk(w) && Shaped(w.kind, g) && Granted(w, g, h)
    ensures Windowed(h) && w.psymax <= SFBMAX && CheckScalefactor(h, w.vbrsfmin, SFBMAX)
    ensures Ranged(w.kind, h) && 0 <= h.globalGain <= 255 && forall i | 0 <= i < 4 :: 0 <= h.subblockGain[i] <= 7
  {
    hide Best, GainOf, SubsOf, ScaleFor, Range, Granted, Shaped, WishOk, Eff, Base, Steps;
    GrantedShape(w, g, h);
    GainRange(w);
    forall i | 0 <= i < SFBMAX
      ensures Eff(h, i) >= w.vbrsfmin[i]
      ensures i < h.sfbmax ==> 0 <= h.scalefac[i] <= Range(w.kind, h.preflag, i)
    {
      BaseRoom(w, i);
      EffIs(w, g, h, i);
      StepsNone(h.scalefacScale);
      ScaleForMeans(Base(w, i) - w.vbrsf[i], Base(w, i) - w.vbrsfmin[i], Range(w.kind, h.preflag, i), h.scalefacScale);
    }
    SubsSmall(w, g, h);
  }

  lemma StepsNone(scale: nat)
    ensures Steps(scale, 0) == 0
  {
  }

  lemma SubsSmall(w: Wish, g: GrInfo, h: GrInfo)
    requires WishOk(w) && Shaped(w.kind, g) && Granted(w, g, h)
    ensures 0 <= h.globalGain <= 255 && |h.subblockGain| == 4 && forall i | 0 <= i < 4 :: 0 <= h.subblockGain[i] <= 7
  {
    hide Best, GainOf, SubGain, ScaleFor, Base;
    MinGainsBelow(w);
  }

  // ----- no more is given away than must be

  /** The wanted subblock gain of a window is within its room. */
  ghost predicate WindowFree(w: Wish, i: nat)
    requires WishOk(w) && i < 3
  {
    var sf, y := Asked(w, GainOf(w)), Best(w);
    Min(Max(Max(Least(sf, i, 13), 0) / 8, (Lack(sf, y.scale, i, 13) + 7) / 8), 7) * 8 <= GainOf(w) - w.mingainS[i]
  }

  /** Unless the largest of the least gains holds the global gain up, no band is quantized more coarsely than it
      asks for, or than its least gain makes necessary, and no scalefactor is larger than that takes. Short
      blocks: where mingain_s does not cap the window's subblock gain either. */
  lemma NotCoarser(w: Wish, g: GrInfo, h: GrInfo, sfb: nat)
    requires WishOk(w) && Shaped(w.kind, g) && Granted(w, g, h)
    requires sfb < w.psymax && (w.kind.Short? ==> sfb < 36 && Lowered(w) >= w.mingainL && WindowFree(w, sfb % 3))
    ensures Windowed(h)
    ensures Eff(h, sfb) <= Max(w.vbrsf[sfb] + Max(w.mingainL - Lowered(w), 0),
        w.vbrsfmin[sfb] + Steps(h.scalefacScale, 1) - 1)
    ensures h.scalefac[sfb] > 0 ==> w.vbrsf[sfb] < Eff(h, sfb) + Steps(h.scalefacScale, 1)
  {
    hide Best, GainOf, SubsOf, ScaleFor, Range, Granted, Shaped, WishOk, Eff, Base, Lowered, WindowFree;
    GrantedShape(w, g, h);
    GainRange(w);
    BaseRoom(w, sfb);
    EffIs(w, g, h, sfb);
    BaseReach(w, sfb);
    if sfb < h.sfbmax {
      ScaleForMeans(Base(w, sfb) - w.vbrsf[sfb], Base(w, sfb) - w.vbrsfmin[sfb], Range(w.kind, h.preflag, sfb),
          h.scalefacScale);
    } else {
      NoRange(w.kind, h.preflag, sfb);
    }
  }

  lemma NoRange(kind: Kind, pre: nat, sfb: nat)
    requires sfb >= 36 || (!kind.Short? && sfb >= 21)
    ensures Range(kind, pre, sfb) == 0
  {
  }

  /** With all its scalefactor a band can get what it asks for. */
  lemma BaseReach(w: Wish, sfb: nat)
    requires WishOk(w) && sfb < w.psymax
    requires w.kind.Short? ==> sfb < 36 && Lowered(w) >= w.mingainL && WindowFree(w, sfb % 3)
    ensures (forall i | 0 <= i < 3 :: w.mingainS[i] <= GainOf(w))
    ensures Base(w, sfb) - Steps(Best(w).scale, Range(w.kind, Best(w).pre, sfb))
      <= w.vbrsf[sfb] + Max(w.mingainL - Lowered(w), 0)
  {
    hide Over, Spread, Best, SubGain, Range, Pretab;
    MinGainsBelow(w);
    OverBinds(w, Best(w), w.psymax);
    if w.kind.Short? {
      BestShort(w);
      ShortReach(w, sfb);
    }
  }

  lemma {:induction false} LackBinds(sf: seq<int>, scale: nat, i: nat, r: nat, k: nat)
    requires i < 3 && |sf| == SFBMAX && k < r <= 13
    ensures -sf[3 * k + i] - (if k < 6 then Steps(scale, 15) else Steps(scale, 7)) <= Lack(sf, scale, i, r)
  {
    if k < r - 1 { LackBinds(sf, scale, i, r - 1, k); }
  }

  lemma FreeSub(w: Wish, i: nat)
    requires WishOk(w) && w.kind.Short? && i < 3 && WindowFree(w, i)
    ensures (forall i | 0 <= i < 3 :: w.mingainS[i] <= GainOf(w))
    ensures SubsOf(w)[i] == 7 || Lack(Asked(w, GainOf(w)), Best(w).scale, i, 13) <= 8 * SubsOf(w)[i]
  {
    hide Best, Lack, Least, GainOf, SubGain, SubGains;
    MinGainsBelow(w);
    var sf, y := Asked(w, GainOf(w)), Best(w);
    SubGainIs(sf, y.scale, GainOf(w), w.mingainS, i);
    Uncapped(Max(Least(sf, i, 13), 0) / 8, Lack(sf, y.scale, i, 13), GainOf(w) - w.mingainS[i]);
  }

  lemma Uncapped(least: nat, lack: nat, room: int)
    requires Min(Max(least, (lack + 7) / 8), 7) * 8 <= room
    ensures var s := Min(Min(Max(least, (lack + 7) / 8), room / 8), 7); s == 7 || lack <= 8 * s
  {
  }

  lemma ShortReach(w: Wish, sfb: nat)
    requires WishOk(w) && w.kind.Short? && sfb < 36 && Lowered(w) >= w.mingainL && WindowFree(w, sfb % 3)
    ensures (forall i | 0 <= i < 3 :: w.mingainS[i] <= GainOf(w))
    ensures Base(w, sfb) - Steps(Best(w).scale, Range(w.kind, 0, sfb)) <= w.vbrsf[sfb]
  {
    hide Over, Spread, Best, Lack, SubsOf, Asked, WindowFree, Steps, Pretab;
    MinGainsBelow(w);
    OverBinds(w, Best(w), w.psymax);
    BestShort(w);
    FreeSub(w, sfb % 3);
    LackOf(w, sfb);
    StepsNone(Best(w).scale);
    assert Base(w, sfb) == GainOf(w) - 8 * SubsOf(w)[sfb % 3];
    assert w.vbrmax - Spread(w, w.psymax) <= w.vbrsf[sfb];
    assert w.vbrmax - Over(w, Best(w), w.psymax) <= w.vbrsf[sfb] + Reach(w.kind, Best(w), sfb);
    StepsUp(Best(w).scale, Range(w.kind, 0, sfb));
  }

  lemma StepsUp(scale: nat, n: nat)
    ensures Steps(scale, n) >= 0
  {
  }

  lemma LackOf(w: Wish, sfb: nat)
    requires WishOk(w) && w.kind.Short? && sfb < 36
    ensures GainOf(w) - w.vbrsf[sfb] - Steps(Best(w).scale, Range(w.kind, 0, sfb))
      <= Lack(Asked(w, GainOf(w)), Best(w).scale, sfb % 3, 13)
  {
    hide Best, Lack, GainOf, Steps;
    LackBinds(Asked(w, GainOf(w)), Best(w).scale, sfb % 3, 13, sfb / 3);
    assert 3 * (sfb / 3) + sfb % 3 == sfb;
  }

  // ----- bitcount

  /** The largest scalefactors there can be still have a width. */
  lemma RangedHolds(kind: Kind, g: GrInfo, h: GrInfo)
    requires Ranged(kind, g) && DividedBands(g) && g.mixedBlockFlag == 0 && !kind.LongLsf?
    requires kind.Short? <==> g.blockType == SHORT_TYPE
    requires h.sfbmax == g.sfbmax && h.sfbdivide == g.sfbdivide && AmpsKept(g, h)
    ensures Holds(h.scalefac, h.sfbdivide, h.sfbmax, 15)
  {
    hide Amp;
    Pow2Small();
    hide Pow2;
    assert Range1(15) == 16 && Range2(15) == 8;
  }

  lemma RangedInRange(kind: Kind, g: GrInfo)
    requires Ranged(kind, g) && DividedBands(g) && g.mixedBlockFlag == 0 && !kind.Long?
    requires kind.Short? <==> g.blockType == SHORT_TYPE
    requires kind.Short? ==> g.preflag == 0
    ensures InRange(g.scalefac, g.preflag, kind.Short?)
  {
    hide Amp;
  }

  lemma GainsKept(g: GrInfo, h: GrInfo)
    requires Windowed(g) && SameButStorage(g, h) && h.scalefacScale == g.scalefacScale && AmpsKept(g, h)
    requires h.sfbmax >= 21 && h.scalefac[h.sfbmax..] == g.scalefac[g.sfbmax..]
    ensures Windowed(h) && forall i | 0 <= i < SFBMAX :: Eff(h, i) == Eff(g, i)
  {
    forall i | 0 <= i < SFBMAX
      ensures Amp(h.scalefac[i], i, h.preflag, h.scalefacScale) == Amp(g.scalefac[i], i, g.preflag, g.scalefacScale)
    {
      if i >= h.sfbmax {
        assert h.scalefac[i] == h.scalefac[h.sfbmax..][i - h.sfbmax] == g.scalefac[i];
        assert Pretab(i) == 0;
      }
    }
  }

  ghost predicate WidthsHold(lsf: bool, g: GrInfo) {
    if lsf then
      && |g.slen| == |g.sfbPartitionTable| == 4 && PartitionTotal(g.sfbPartitionTable) <= |g.scalefac|
      && HoldsLsf(g.scalefac, g.sfbPartitionTable, g.slen)
    else g.sfbdivide <= g.sfbmax <= |g.scalefac| && Holds(g.scalefac, g.sfbdivide, g.sfbmax, g.scalefacCompress)
  }

  /** bitcount: the scalefactors always have a width, so that the internal error never happens; how they are
      stored may change, the gains do not. */
  method Bitcount(s: GrState, lsf: bool, kind: Kind) returns (rc: bool)
    requires Windowed(s.gi) && DividedBands(s.gi) && Ranged(kind, s.gi) && s.gi.mixedBlockFlag == 0
    requires (kind.Long? ==> !lsf) && (kind.LongLsf? ==> lsf) && (kind.Short? <==> s.gi.blockType == SHORT_TYPE)
    requires kind.Short? ==> s.gi.preflag == 0
    modifies s
    ensures !rc && Windowed(s.gi) && SameButStorage(old(s.gi), s.gi) && s.gi.scalefacScale == old(s.gi.scalefacScale)
    ensures forall i | 0 <= i < SFBMAX :: Eff(s.gi, i) == old(Eff(s.gi, i))
    ensures kind.Short? ==> s.gi.preflag == 0
    ensures WidthsHold(lsf, s.gi)
  {
    hide Holds, HoldsLsf, InRange, Amp, AmpsKept, Range, FullLength, LsfLength, SfbBlock, LsfTable, LsfSlen;
    ghost var g := s.gi;
    if !lsf {
      rc := ScaleBitcount(s);
      RangedHolds(kind, g, s.gi);
      GainsKept(g, s.gi);
    } else {
      RangedInRange(kind, s.gi);
      var over := ScaleBitcountLsf(s);
      rc := over != 0;
    }
  }

  /** In a mixed block the last of the larger ranges would fall among the narrower widths, and bitcount would end
      the program; the encoder never makes one. */
  lemma MixedBlocks(g: GrInfo)
    requires Ranged(Short, g) && g.sfbdivide == 17 && g.sfbmax == 35
    ensures (exists k: nat | k < 16 :: Holds(g.scalefac, 17, 35, k)) <==> g.scalefac[17] <= 7
  {
    Pow2Small();
    hide Pow2;
    assert Range1(15) == 16 && Range2(15) == 8;
    if g.scalefac[17] <= 7 {
      assert Holds(g.scalefac, 17, 35, 15);
    } else {
      forall k: nat | k < 16
        ensures !Holds(g.scalefac, 17, 35, k)
      {
        assert Range2(k) <= 8;
      }
    }
  }
}

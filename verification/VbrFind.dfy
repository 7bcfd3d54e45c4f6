/** How VBR finds the gain each band asks for (find_lowest_scalefac, find_scalefac_x34, block_sf of
    vbrquantize.c), and what a granule then goes through in VBR_encode_frame. Which gains keep the coefficients
    in range and which distort too much is not known here. */
module VbrFind {
  import opened Bits
  import opened Granule
  import opened Scalefac
  import opened VbrGain
  import opened VbrSearch
  import opened Decoder
  import opened Takehiro
  import opened Finish
  import VbrFrame

  const HALVES := [128, 64, 32, 16, 8, 4, 2, 1]

  /** `r` is where `fits` begins to hold, or 255 if it does not hold there. */
  ghost predicate Lowest(fits: nat -> bool, r: nat) {
    1 <= r <= 255 && if fits(r) then r > 1 ==> !fits(r - 1) else r == 255
  }

  /** find_lowest_scalefac: eight halvings; a gain of 0 is never tried. */
  method FindLowestScalefac(fits: nat -> bool) returns (sfOk: nat)
    ensures Lowest(fits, sfOk)
  {
    sfOk := 255;
    var sf, delsf := 128, 64;
    ghost var lo, hi := 0, 256;
    for i := 0 to 8
      invariant i < 8 ==> sf - lo == hi - sf == HALVES[i] && delsf == HALVES[i] / 2
      invariant i == 8 ==> hi - lo == 1
      invariant 0 <= lo < hi <= 256
      invariant lo > 0 ==> !fits(lo)
      invariant if hi == 256 then sfOk == 255 else sfOk == hi && fits(hi)
    {
      if fits(sf) {
        sfOk := sf;
        hi := sf;
        sf := sf - delsf;
      } else {
        lo := sf;
        sf := sf + delsf;
      }
      delsf := delsf / 2;
    }
  }

  /** If coarser gains keep more in range, that is the lowest of all. */
  lemma LowestIsLeast(fits: nat -> bool, r: nat, j: nat)
    requires Lowest(fits, r) && fits(255) && 1 <= j <= 255
    requires forall a, b | 1 <= a <= b <= 255 && fits(a) :: fits(b)
    ensures fits(j) <==> r <= j
  {
    var below: nat := r - 1;
    assert j <= below ==> (fits(j) ==> fits(below));
  }

  /** What find_scalefac_x34 promises: a gain above the least that does not distort, while the next one does; or
      none of those tried above the least is good, and it is the least or the one above it. */
  ghost predicate Coarsest(bad: nat -> bool, sfMin: nat, r: nat) {
    && sfMin <= r <= 255
    && if r > sfMin && !bad(r) then r < 255 ==> bad(r + 1)
       else r <= sfMin + 1 && (r < 255 ==> bad(sfMin + 1))
  }

  /** find_scalefac_x34 */
  method FindScalefacX34(bad: nat -> bool, sfMin: nat) returns (r: nat)
    requires 1 <= sfMin <= 255
    ensures Coarsest(bad, sfMin, r)
  {
    var sf, sfOk, delsf, seenGoodOne := 128, 255, 128, false;
    ghost var lo, hi := 0, 256;
    for i := 0 to 8
      invariant i < 8 ==> sf - lo == hi - sf == HALVES[i] == delsf
      invariant i == 8 ==> hi - lo == 1 && (sf == lo || sf == hi)
      invariant 0 <= lo < hi <= 256 && (i == 8 ==> sf < 256)
      invariant hi < 256 ==> hi > sfMin && bad(hi)
      invariant if seenGoodOne then sfOk == lo > sfMin && !bad(lo) else lo <= sfMin
    {
      delsf := delsf / 2;
      if sf <= sfMin {
        lo := sf;
        sf := sf + delsf;
      } else if bad(sf) {
        hi := sf;
        sf := sf - delsf;
      } else {
        lo := sf;
        sfOk := sf;
        sf := sf + delsf;
        seenGoodOne := true;
      }
    }
    if seenGoodOne { return sfOk; }
    if sf <= sfMin { return sfMin; }
    return sf;
  }

  /** What is known of a granule's bands: which gains keep band `sfb` in range, which distort it too much, and
      whether it is below the noise floor. */
  datatype Spectrum = Spectrum(fits: (nat, nat) -> bool, bad: (nat, nat) -> bool, quiet: nat -> bool)

  /** The bands cover the spectrum. */
  ghost predicate Covering(g: GrInfo) {
    |g.width| == SFBMAX && 0 <= g.maxNonzeroCoeff < 576
    && exists n: nat | n <= SFBMAX :: BandStart(g.width, n) == 576
  }

  /** What block_sf asks for in band `sfb`. */
  ghost predicate AskedRight(x: Spectrum, psymax: nat, sfb: nat, want: int, least: int) {
    && 0 <= least && Lowest((sf: nat) => x.fits(sfb, sf), least)
    && (sfb < psymax && !x.quiet(sfb) ==> 0 <= want && Coarsest((sf: nat) => x.bad(sfb, sf), least, want))
    && (sfb < psymax && x.quiet(sfb) ==> want == 255)
  }

  /** The first `n` bands have been dealt with. */
  ghost predicate FoundBands(x: Spectrum, psymax: nat, mingainS: seq<int>, a: seq<int>, low: seq<int>, n: nat)
    requires |mingainS| == 3 && |a| == |low| == SFBMAX && n <= SFBMAX
  {
    forall k | 0 <= k < n ::
      0 <= low[k] <= a[k] <= 255 && low[k] <= mingainS[k % 3] && AskedRight(x, psymax, k, a[k], low[k])
  }

  lemma FoundNone(x: Spectrum, psymax: nat, s: seq<int>, a: seq<int>, low: seq<int>)
    requires |s| == 3 && |a| == |low| == SFBMAX
    ensures FoundBands(x, psymax, s, a, low, 0)
  {
  }

  lemma FoundMore(x: Spectrum, psymax: nat, s: seq<int>, t: seq<int>, a: seq<int>, low: seq<int>,
                  b: seq<int>, m: seq<int>, n: nat)
    requires |s| == |t| == 3 && |a| == |low| == |b| == |m| == SFBMAX && n < SFBMAX
    requires FoundBands(x, psymax, s, a, low, n) && (forall k | 0 <= k < 3 :: s[k] <= t[k])
    requires b == a[n := b[n]] && m == low[n := m[n]]
    requires 0 <= m[n] <= b[n] <= 255 && m[n] <= t[n % 3] && AskedRight(x, psymax, n, b[n], m[n])
    ensures FoundBands(x, psymax, t, b, m, n + 1)
  {
    hide AskedRight;
  }

  lemma FoundAll(x: Spectrum, psymax: nat, s: seq<int>, a: seq<int>, low: seq<int>, b: seq<int>, m: seq<int>,
                 n: nat, rest: int)
    requires |s| == 3 && |a| == |low| == |b| == |m| == SFBMAX && n <= SFBMAX && 0 <= rest <= 255
    requires FoundBands(x, psymax, s, a, low, n) && forall k | 0 <= k < 3 :: 0 <= s[k]
    requires forall k | 0 <= k < SFBMAX ::
      b[k] == (if k < n then a[k] else rest) && m[k] == (if k < n then low[k] else 0)
    ensures forall k | 0 <= k < SFBMAX :: 0 <= m[k] <= b[k] <= 255 && m[k] <= s[k % 3]
    ensures forall k | 0 <= k < n :: AskedRight(x, psymax, k, b[k], m[k])
  {
    hide AskedRight;
  }

  /** The loop of block_sf for one band: its two gains, and the running maxima. */
  method BandSf(v: Solver, x: Spectrum, sfb: nat, i: nat, maxsf: int) returns (m1: nat, m2: nat, newMax: int)
    requires i < 3 == |v.mingainS| && 0 <= maxsf <= 255
    modifies v`mingainL, v`mingainS
    ensures m1 <= m2 <= 255 && newMax == Max(maxsf, m2) && AskedRight(x, v.psymax, sfb, m2, m1)
    ensures v.mingainL == Max(old(v.mingainL), m1) && v.mingainS == old(v.mingainS)[i := Max(old(v.mingainS[i]), m1)]
  {
    hide Lowest, Coarsest;
    newMax := maxsf;
    m1 := FindLowestScalefac((sf: nat) => x.fits(sfb, sf));
    LowestRange((sf: nat) => x.fits(sfb, sf), m1);
    if v.mingainL < m1 { v.mingainL := m1; }
    if v.mingainS[i] < m1 { v.mingainS := v.mingainS[i := m1]; }
    if sfb < v.psymax {
      if !x.quiet(sfb) {
        m2 := FindScalefacX34((sf: nat) => x.bad(sfb, sf), m1);
        CoarsestRange((sf: nat) => x.bad(sfb, sf), m1, m2);
        if newMax < m2 { newMax := m2; }
      } else {
        m2 := 255;
        newMax := 255;
      }
    } else {
      if newMax < m1 { newMax := m1; }
      m2 := newMax;
    }
  }

  /** block_sf: the gain each band asks for and the least it must have, and the largest of both; what lies beyond
      the last coefficient asks for the coarsest of the rest. */
  method BlockSf(v: Solver, x: Spectrum, vbrsf: array<int>, vbrsfmin: array<int>) returns (maxsf: int)
    requires vbrsf.Length == vbrsfmin.Length == SFBMAX && vbrsf != vbrsfmin && Covering(v.s.gi)
    modifies v`mingainL, v`mingainS, vbrsf, vbrsfmin
    ensures Gained(vbrsfmin[..]) && Gained(vbrsf[..]) && AtLeast(vbrsf[..], vbrsfmin[..])
    ensures maxsf == Largest(vbrsf[..], SFBMAX)
    ensures |v.mingainS| == 3 && 0 <= v.mingainL <= 255 && (forall i | 0 <= i < 3 :: 0 <= v.mingainS[i] <= v.mingainL)
    ensures forall i | 0 <= i < SFBMAX :: vbrsfmin[i] <= v.mingainS[i % 3]
    ensures forall i | 0 <= i < SFBMAX && BandStart(v.s.gi.width, i) <= v.s.gi.maxNonzeroCoeff ::
      AskedRight(x, v.psymax, i, vbrsf[i], vbrsfmin[i])
  {
    hide AskedRight, Largest, BandStart, FoundBands;
    var width, maxNonzeroCoeff := v.s.gi.width, v.s.gi.maxNonzeroCoeff;
    v.mingainL := 0;
    v.mingainS := [0, 0, 0];
    maxsf := 0;
    LargestNone(vbrsf[..]);
    var sfb: nat, j: nat, i: nat := 0, 0, 0;
    BandZero(width);
    FoundNone(x, v.psymax, v.mingainS, vbrsf[..], vbrsfmin[..]);
    while j <= maxNonzeroCoeff
      invariant 0 <= sfb <= SFBMAX && i == sfb % 3 && j == BandStart(width, sfb)
      invariant |v.mingainS| == 3 && 0 <= v.mingainL <= 255
      invariant forall k | 0 <= k < 3 :: 0 <= v.mingainS[k] <= v.mingainL
      invariant 0 <= maxsf <= 255 && maxsf == Largest(vbrsf[..], sfb)
      invariant FoundBands(x, v.psymax, v.mingainS, vbrsf[..], vbrsfmin[..], sfb)
      decreases SFBMAX - sfb
    {
      NotPast(width, sfb, maxNonzeroCoeff);
      var w := width[sfb];
      ghost var before, lowBefore, mins := vbrsf[..], vbrsfmin[..], v.mingainS;
      var m1, m2;
      m1, m2, maxsf := BandSf(v, x, sfb, i, maxsf);
      i := if i + 1 > 2 then 0 else i + 1;
      vbrsfmin[sfb] := m1;
      vbrsf[sfb] := m2;
      LargestMore(before, vbrsf[..], sfb);
      FoundMore(x, v.psymax, mins, v.mingainS, before, lowBefore, vbrsf[..], vbrsfmin[..], sfb);
      BandNext(width, sfb);
      sfb := sfb + 1;
      j := j + w;
    }
    ghost var last := sfb;
    ghost var a, low := vbrsf[..], vbrsfmin[..];
    FillRest(vbrsf, vbrsfmin, sfb, maxsf);
    FoundAll(x, v.psymax, v.mingainS, a, low, vbrsf[..], vbrsfmin[..], last, maxsf);
    forall k | 0 <= k < SFBMAX && BandStart(width, k) <= maxNonzeroCoeff
      ensures k < last
    {
      if k >= last { BandStartMonotone(width, last, k); }
    }
  }

  method FillRest(vbrsf: array<int>, vbrsfmin: array<int>, from: nat, maxsf: int)
    requires vbrsf.Length == vbrsfmin.Length == SFBMAX && vbrsf != vbrsfmin && from <= SFBMAX
    requires maxsf == Largest(vbrsf[..], from)
    modifies vbrsf, vbrsfmin
    ensures maxsf == Largest(vbrsf[..], SFBMAX)
    ensures forall k | 0 <= k < SFBMAX :: vbrsf[k] == if k < from then old(vbrsf[k]) else maxsf
    ensures forall k | 0 <= k < SFBMAX :: vbrsfmin[k] == if k < from then old(vbrsfmin[k]) else 0
  {
    hide Largest;
    var sfb := from;
    while sfb < SFBMAX
      invariant from <= sfb <= SFBMAX && maxsf == Largest(vbrsf[..], sfb)
      invariant forall k | 0 <= k < SFBMAX :: vbrsf[k] == if k < from || sfb <= k then old(vbrsf[k]) else maxsf
      invariant forall k | 0 <= k < SFBMAX :: vbrsfmin[k] == if k < from || sfb <= k then old(vbrsfmin[k]) else 0
    {
      ghost var before := vbrsf[..];
      vbrsf[sfb] := maxsf;
      LargestMore(before, vbrsf[..], sfb);
      vbrsfmin[sfb] := 0;
      sfb := sfb + 1;
    }
  }

  lemma BandZero(width: seq<nat>)
    ensures BandStart(width, 0) == 0
  {
  }

  lemma BandNext(width: seq<nat>, sfb: nat)
    requires sfb < |width|
    ensures BandStart(width, sfb + 1) == BandStart(width, sfb) + width[sfb]
  {
  }

  lemma NotPast(width: seq<nat>, sfb: nat, last: int)
    requires |width| == SFBMAX && sfb <= SFBMAX && BandStart(width, sfb) <= last < 576
    requires exists n: nat | n <= SFBMAX :: BandStart(width, n) == 576
    ensures sfb < SFBMAX
  {
    var n: nat :| n <= SFBMAX && BandStart(width, n) == 576;
    if sfb == SFBMAX { BandStartMonotone(width, n, sfb); }
  }

  lemma LowestRange(fits: nat -> bool, r: nat)
    requires Lowest(fits, r)
    ensures 1 <= r <= 255
  {
  }

  lemma CoarsestRange(bad: nat -> bool, sfMin: nat, r: nat)
    requires Coarsest(bad, sfMin, r)
    ensures sfMin <= r <= 255
  {
  }

  /** The gains cut to the global gain, and then made coarser until they fit. */
  method Refit(v: Solver, sfwork: array<int>, low: seq<int>, target: int) returns (how: Outcome, ghost p: int)
    requires sfwork.Length == SFBMAX && v.Settled(low) && Gained(sfwork[..]) && AtLeast(sfwork[..], low)
    modifies v.s, v`tried, v`gains, sfwork
    ensures v.Settled(low) && v.Limited(low)
    ensures v.Sound(sfwork[..], low, p) && v.Ended(how, sfwork[..], low, p, target)
    ensures !how.Stuck? ==> v.Fits(v.tried, low, target)
  {
    hide Solver.Settled, Solver.Ended, Solver.Fits, Gained, AtLeast, Shaped, Flattened, Depth, Level;
    v.SettledReady(low);
    ghost var d := sfwork[..];
    p := v.s.gi.globalGain;
    CutDistribution(sfwork, v.s.gi.globalGain);
    CutSound(d, sfwork[..], low, p);
    how := v.OutOfBitsStrategy(sfwork[..], low, target);
  }

  /** What VBR_encode_frame does for a granule of one channel, as far as gains go: the gains its bands ask for, and
      if they take too many bits, the first coarser ones that do not. Whatever the spectrum, no band is below its
      least gain, and everything can be stored. */
  method FitGranule(v: Solver, x: Spectrum, vbrsf: array<int>, vbrsfmin: array<int>, target: int)
    returns (how: Outcome, altered: bool, ghost p: int)
    requires vbrsf.Length == vbrsfmin.Length == SFBMAX && vbrsf != vbrsfmin && Covering(v.s.gi)
    requires v.Known() && Shaped(v.kind, v.s.gi)
    modifies v, v.s, vbrsf, vbrsfmin
    ensures v.Settled(vbrsfmin[..]) && v.Limited(vbrsfmin[..])
    ensures LeastGains(x, old(v.s.gi), vbrsfmin[..])
    ensures !altered ==> v.tried == vbrsf[..] && v.Fits(vbrsf[..], vbrsfmin[..], target)
    ensures altered ==> v.Sound(vbrsf[..], vbrsfmin[..], p) && v.Ended(how, vbrsf[..], vbrsfmin[..], p, target)
    ensures altered && !how.Stuck? ==> v.Fits(v.tried, vbrsfmin[..], target)
  {
    hide Shaped, BandStart, Lowest, Coarsest, Gained, AtLeast, Largest, Solver.Settled, Solver.Ended, Solver.Sound;
    how, altered, p := Stuck, false, 0;
    ghost var g := v.s.gi;
    var vbrmax := BlockSf(v, x, vbrsf, vbrsfmin);
    ghost var low := vbrsfmin[..];
    assert LeastGains(x, g, low);
    var nbits := v.TryThatOne(vbrsf[..], vbrsfmin[..], vbrmax);
    if nbits > target {
      altered := true;
      how, p := Refit(v, vbrsf, vbrsfmin[..], target);
    }
    assert vbrsfmin[..] == low;
  }

  /** What keeps each band's coefficients in range. */
  ghost predicate LeastGains(x: Spectrum, g: GrInfo, low: seq<int>)
    requires |g.width| == SFBMAX
  {
    |low| == SFBMAX && forall i | 0 <= i < SFBMAX && BandStart(g.width, i) <= g.maxNonzeroCoeff ::
      0 <= low[i] && Lowest((sf: nat) => x.fits(i, sf), low[i])
  }

  lemma CutSound(d: seq<int>, e: seq<int>, low: seq<int>, cut: int)
    requires Gained(d) && AtLeast(d, low) && Gained(low) && 0 <= cut <= 255
    requires forall i | 0 <= i < SFBMAX :: low[i] <= cut
    requires |e| == SFBMAX && forall i | 0 <= i < SFBMAX :: e[i] == Min(d[i], cut)
    ensures Gained(e) && AtLeast(e, low) && forall i | 0 <= i < SFBMAX :: e[i] <= cut
  {
  }

  /** The rest of VBR_encode_frame for the granule: reduce_bit_usage.  Unless even the coarsest gains take too many
      bits, the granule ends up within its target, as the source asserts; and it is counted right. */
  method EncodeGranule(v: Solver, d: Divider, x: Spectrum, vbrsf: array<int>, vbrsfmin: array<int>, target: int,
                       gr: nat, g0: GrInfo)
    returns (how: Outcome, altered: bool, g: GrInfo, scfsi: seq<nat>, ghost p: int)
    requires vbrsf.Length == vbrsfmin.Length == SFBMAX && vbrsf != vbrsfmin && Covering(v.s.gi)
    requires v.Known() && Shaped(v.kind, v.s.gi)
    requires d.Ready() && gr < d.modeGr && |g0.scalefac| == SFBMAX
    requires forall gains :: Quantized(d.modeGr - 1, d.bands, v.code(gains))
    modifies v, v.s, vbrsf, vbrsfmin
    ensures v.Settled(vbrsfmin[..]) && v.Limited(vbrsfmin[..])
    ensures altered ==> v.Sound(vbrsf[..], vbrsfmin[..], p) && v.Ended(how, vbrsf[..], vbrsfmin[..], p, target)
    ensures Finished(d.modeGr - 1, d.bands, g) && Telling(d.modeGr - 1, g, if gr == 1 then scfsi else [])
    ensures Preserved(v.code(v.gains), g, g0.scalefac)
    ensures !(altered && how.Stuck?) ==> Used(g) <= target
  {
    hide Shaped, Finished, Telling, Quantized, Preserved, Solver.Settled, Solver.Ended, Solver.Sound, Used, Covering;
    hide Solver.Limited, Solver.Fits, Divider.Ready;
    how, altered, p := FitGranule(v, x, vbrsf, vbrsfmin, target);
    Within(v, vbrsfmin[..], target);
    g, scfsi := Reduced(d, v.code(v.gains), gr, g0);
  }

  /** The first pass of VBR_encode_frame for a granule: the gains its bands ask for, whatever that takes. */
  method FirstPass(v: Solver, d: Divider, x: Spectrum, vbrsf: array<int>, vbrsfmin: array<int>, gr: nat, g0: GrInfo)
    returns (g: GrInfo, scfsi: seq<nat>)
    requires vbrsf.Length == vbrsfmin.Length == SFBMAX && vbrsf != vbrsfmin && Covering(v.s.gi)
    requires v.Known() && Shaped(v.kind, v.s.gi)
    requires d.Ready() && gr < d.modeGr && |g0.scalefac| == SFBMAX
    requires forall gains :: Quantized(d.modeGr - 1, d.bands, v.code(gains))
    modifies v, v.s, vbrsf, vbrsfmin
    ensures v.Settled(vbrsfmin[..]) && v.Limited(vbrsfmin[..]) && v.tried == vbrsf[..]
    ensures LeastGains(x, old(v.s.gi), vbrsfmin[..])
    ensures Finished(d.modeGr - 1, d.bands, g) && Telling(d.modeGr - 1, g, if gr == 1 then scfsi else [])
    ensures Preserved(v.code(v.gains), g, g0.scalefac) && Used(g) <= Used(v.code(v.gains))
  {
    hide Shaped, BandStart, Lowest, Coarsest, Gained, AtLeast, Largest, Finished, Telling, Quantized, Preserved, Used;
    hide Solver.Settled, Divider.Ready;
    ghost var was := v.s.gi;
    var vbrmax := BlockSf(v, x, vbrsf, vbrsfmin);
    assert LeastGains(x, was, vbrsfmin[..]);
    var nbits := v.TryThatOne(vbrsf[..], vbrsfmin[..], vbrmax);
    v.SettledReady(vbrsfmin[..]);
    g, scfsi := Reduced(d, v.code(v.gains), gr, g0);
  }

  /** The second pass for a granule: coarser gains until it is within its share, or all are the coarsest, and even
      those take more.  That is all that `VbrFrame.Strategic` asks of a quantizer. */
  method SecondPass(v: Solver, d: Divider, vbrsf: array<int>, low: seq<int>, share: int, gr: nat, g0: GrInfo)
    returns (how: Outcome, g: GrInfo, scfsi: seq<nat>)
    requires vbrsf.Length == SFBMAX && v.Settled(low) && Gained(vbrsf[..]) && AtLeast(vbrsf[..], low)
    requires d.Ready() && gr < d.modeGr && |g0.scalefac| == SFBMAX
    requires forall gains :: Quantized(d.modeGr - 1, d.bands, v.code(gains))
    modifies v.s, v`tried, v`gains, vbrsf
    ensures v.Settled(low) && MetUnlessCoarsest(v, low, share)
    ensures Finished(d.modeGr - 1, d.bands, g) && Telling(d.modeGr - 1, g, if gr == 1 then scfsi else [])
    ensures Preserved(v.code(v.gains), g, g0.scalefac) && Used(g) <= Used(v.code(v.gains))
  {
    hide Shaped, Finished, Telling, Quantized, Preserved, Solver.Settled, Solver.Sound, Used, Solver.Fits;
    hide Divider.Ready, Gained, AtLeast, MetUnlessCoarsest, Solver.Ended, Solver.Limited;
    ghost var p;
    how, p := Refit(v, vbrsf, low, share);
    Met(v, vbrsf[..], low, how, p, share);
    g, scfsi := Reduced(d, v.code(v.gains), gr, g0);
  }

  /** The gains used take no more bits than they should, or the coarsest gains of all would take more as well. */
  ghost predicate MetUnlessCoarsest(v: Solver, low: seq<int>, share: int)
    reads v
  {
    && v.Limited(low) && Gained(Level(255)) && AtLeast(Level(255), low)
    && VbrFrame.MetUnlessCoarsest(Used(v.code(v.gains)), v.BitsFor(Level(255), low), share)
  }

  lemma Met(v: Solver, d: seq<int>, low: seq<int>, how: Outcome, p: int, share: int)
    requires |d| == SFBMAX && v.Settled(low) && v.Limited(low) && v.Ended(how, d, low, p, share)
    requires !how.Stuck? ==> v.Fits(v.tried, low, share)
    ensures MetUnlessCoarsest(v, low, share)
  {
    hide Solver.Settled, Solver.Fits, Solver.BitsFor, Solver.Limited, Solver.Part, Gained, AtLeast, Level, Depth, Used;
    CoarsestSafe(v, low);
    Within(v, low, share);
  }

  lemma CoarsestSafe(v: Solver, low: seq<int>)
    requires v.Limited(low)
    ensures Gained(Level(255)) && AtLeast(Level(255), low)
  {
  }

  /** reduce_bit_usage on a granule of its own. */
  method Reduced(d: Divider, coded: GrInfo, gr: nat, g0: GrInfo) returns (g: GrInfo, scfsi: seq<nat>)
    requires d.Ready() && gr < d.modeGr && |g0.scalefac| == SFBMAX && Quantized(d.modeGr - 1, d.bands, coded)
    ensures Finished(d.modeGr - 1, d.bands, g) && Telling(d.modeGr - 1, g, if gr == 1 then scfsi else [])
    ensures Preserved(coded, g, g0.scalefac) && Used(g) <= Used(coded)
  {
    hide Finished, Telling, Quantized, Preserved, Used;
    var s := new GrState(coded);
    scfsi := ReduceBitUsage(d, s, gr, g0);
    g := s.gi;
  }

  lemma Within(v: Solver, low: seq<int>, target: int)
    requires v.Settled(low) && v.Limited(low)
    ensures v.Fits(v.tried, low, target) ==> Used(v.code(v.gains)) <= target
  {
  }
}

/** How VBR makes a granule fit its bits (tryThatOne, flattenDistribution, cutDistribution, sfDepth,
    outOfBitsStrategy, tryGlobalStepsize and searchGlobalStepsizeMax of vbrquantize.c). */
module VbrSearch {
  import opened Bits
  import opened Granule
  import opened Scalefac
  import opened VbrGain
  import opened Finish

  ghost predicate Gained(d: seq<int>) { |d| == SFBMAX && forall i | 0 <= i < SFBMAX :: 0 <= d[i] <= 255 }

  ghost predicate AtLeast(d: seq<int>, low: seq<int>) {
    |d| == |low| == SFBMAX && forall i | 0 <= i < SFBMAX :: low[i] <= d[i]
  }

  /** The largest of the first `n` gains, or 0. */
  function Largest(d: seq<int>, n: nat): (m: int)
    requires n <= |d|
    ensures 0 <= m && forall i | 0 <= i < n :: d[i] <= m
    ensures (forall i | 0 <= i < n :: d[i] <= 255) ==> m <= 255
  {
    if n == 0 then 0 else Max(Largest(d, n - 1), d[n - 1])
  }

  /** flattenDistribution: each gain moved `k` of `dm` parts of the way to `p`. */
  function Flattened(d: seq<int>, dm: nat, k: int, p: int): (r: seq<int>)
    requires |d| == SFBMAX
    ensures |r| == SFBMAX
  {
    seq(SFBMAX, i requires 0 <= i < SFBMAX => if dm > 0 then Clamp(d[i] + TruncDiv(k * (p - d[i]), dm)) else d[i])
  }

  /** sfDepth: how far the lowest gain is below 255. */
  function Depth(d: seq<int>, n: nat): (m: int)
    requires n <= |d|
    ensures 0 <= m && forall i | 0 <= i < n :: 255 - d[i] <= m
    ensures (forall i | 0 <= i < n :: 0 <= d[i]) ==> m <= 255
  {
    if n == 0 then 0 else Max(Depth(d, n - 1), 255 - d[n - 1])
  }

  /** `k` of `dm` parts of `x` are no more than `l` parts. */
  lemma PartLess(k: nat, l: nat, x: nat, dm: nat)
    requires k <= l && 0 < dm
    ensures 0 <= k * x && k * x / dm <= l * x / dm
    ensures 0 * x / dm == 0 && dm * x / dm == x
  {
    MulMonotone(k, l, x);
    DivMonotone(k * x, l * x, dm);
    DivUnique(dm * x, dm, x, 0);
  }

  /** Flattening towards a gain no lower than any raises every gain, by more the larger `k` is: not at all at
      first, all the way in the end. */
  lemma FlattenedRaises(d: seq<int>, dm: nat, k: nat, l: nat, p: int)
    requires Gained(d) && k <= l <= dm && p <= 255 && forall i | 0 <= i < SFBMAX :: d[i] <= p
    ensures Gained(Flattened(d, dm, k, p)) && AtLeast(Flattened(d, dm, k, p), d)
    ensures AtLeast(Flattened(d, dm, l, p), Flattened(d, dm, k, p))
    ensures Flattened(d, dm, 0, p) == d
    ensures dm > 0 ==> Flattened(d, dm, dm, p) == Level(p)
  {
    if dm > 0 {
      forall i | 0 <= i < SFBMAX
        ensures d[i] == Flattened(d, dm, 0, p)[i] <= Flattened(d, dm, k, p)[i] <= Flattened(d, dm, l, p)[i] <= p
        ensures Flattened(d, dm, dm, p)[i] == p
      {
        FlattenedAt(d, dm, k, l, p, i);
      }
    }
  }

  lemma FlattenedAt(d: seq<int>, dm: nat, k: nat, l: nat, p: int, i: nat)
    requires Gained(d) && k <= l <= dm && 0 < dm && p <= 255 && i < SFBMAX && d[i] <= p
    ensures d[i] == Flattened(d, dm, 0, p)[i] <= Flattened(d, dm, k, p)[i] <= Flattened(d, dm, l, p)[i] <= p
    ensures Flattened(d, dm, dm, p)[i] == p
  {
    var x := p - d[i];
    PartLess(0, k, x, dm);
    PartLess(k, l, x, dm);
    PartLess(l, dm, x, dm);
    var a, b, c := k * x / dm, l * x / dm, dm * x / dm;
    assert Flattened(d, dm, k, p)[i] == Clamp(d[i] + a);
    assert Flattened(d, dm, l, p)[i] == Clamp(d[i] + b);
    assert Flattened(d, dm, dm, p)[i] == Clamp(d[i] + c);
  }

  /** Each gain moves by its `k` of `dm` parts of the way to `p`, less than one step short. */
  lemma FlattenedShare(d: seq<int>, dm: nat, k: nat, p: int, i: nat)
    requires Gained(d) && k <= dm && 0 < dm && i < SFBMAX && d[i] <= p <= 255
    ensures var x := Flattened(d, dm, k, p)[i];
      dm * (x - d[i]) <= k * (p - d[i]) < dm * (x - d[i] + 1)
  {
    var y := p - d[i];
    MulMonotone(k, dm, y);
    PartLess(0, k, y, dm);
    PartLess(k, dm, y, dm);
    var q, r := DivModId(k * y, dm);
    assert Flattened(d, dm, k, p)[i] == d[i] + q;
    assert dm * q == q * dm && dm * (q + 1) == q * dm + dm;
  }

  /** The depth is that of a band, and so is the largest gain. */
  lemma {:induction false} DepthReached(d: seq<int>, n: nat)
    requires n <= |d|
    ensures Depth(d, n) == 0 || exists i | 0 <= i < n :: Depth(d, n) == 255 - d[i]
  {
    if n > 0 {
      DepthReached(d, n - 1);
      if Depth(d, n) == 255 - d[n - 1] {
      } else {
        assert Depth(d, n) == Depth(d, n - 1);
      }
    }
  }

  lemma {:induction false} LargestReached(d: seq<int>, n: nat)
    requires n <= |d|
    ensures Largest(d, n) == 0 || exists i | 0 <= i < n :: Largest(d, n) == d[i]
  {
    if n > 0 {
      LargestReached(d, n - 1);
      if Largest(d, n) == d[n - 1] {
      } else {
        assert Largest(d, n) == Largest(d, n - 1);
      }
    }
  }

  /** All bands the same. */
  function Level(p: int): (d: seq<int>)
    ensures |d| == SFBMAX && forall i | 0 <= i < SFBMAX :: d[i] == p
  {
    seq(SFBMAX, _ => p)
  }

  /** Towards a gain that all already have, or with nothing to move, everything becomes level. */
  lemma FlattenedLevel(d: seq<int>, p: int, q: int)
    requires Gained(d) && p <= q <= 255 && forall i | 0 <= i < SFBMAX :: d[i] <= p
    ensures Gained(Flattened(d, Depth(d, SFBMAX), Depth(d, SFBMAX), q))
    ensures AtLeast(Flattened(d, Depth(d, SFBMAX), Depth(d, SFBMAX), q), d)
    ensures Flattened(d, Depth(d, SFBMAX), Depth(d, SFBMAX), 255) == Level(255)
  {
    var dm := Depth(d, SFBMAX);
    FlattenedRaises(d, dm, dm, dm, q);
    FlattenedRaises(d, dm, dm, dm, 255);
    if dm == 0 {
      assert forall i | 0 <= i < SFBMAX :: d[i] == 255;
    }
  }

  /** tryGlobalStepsize: all gains moved by `delta`, within the least gains and 255. */
  function Shifted(d: seq<int>, low: seq<int>, delta: int): (r: seq<int>)
    requires |d| == |low| == SFBMAX
    ensures |r| == SFBMAX
  {
    seq(SFBMAX, i requires 0 <= i < SFBMAX => Min(Max(d[i] + delta, low[i]), 255))
  }

  /** sfDepth */
  method SfDepth(sfwork: seq<int>) returns (m: int)
    requires Gained(sfwork)
    ensures m == Depth(sfwork, SFBMAX)
  {
    m := 0;
    for i := 0 to SFBMAX
      invariant m == Depth(sfwork, i)
    {
      var di := 255 - sfwork[i];
      if m < di { m := di; }
    }
  }

  /** cutDistribution, in place */
  method CutDistribution(sf: array<int>, cut: int)
    requires sf.Length == SFBMAX
    modifies sf
    ensures forall i | 0 <= i < SFBMAX :: sf[i] == Min(old(sf[i]), cut)
  {
    for i := 0 to SFBMAX
      invariant forall k | 0 <= k < SFBMAX :: sf[k] == if k < i then Min(old(sf[k]), cut) else old(sf[k])
    {
      var x := sf[i];
      sf[i] := if x < cut then x else cut;
    }
  }

  /** flattenDistribution */
  method FlattenDistribution(sfwork: seq<int>, out: array<int>, dm: nat, k: int, p: int) returns (sfmax: int)
    requires |sfwork| == SFBMAX == out.Length
    modifies out
    ensures out[..] == Flattened(sfwork, dm, k, p) && sfmax == Largest(out[..], SFBMAX)
  {
    hide TruncDiv, Largest;
    LargestNone(out[..]);
    sfmax := 0;
    for i := 0 to SFBMAX
      invariant forall j | 0 <= j < i :: out[j] == Flattened(sfwork, dm, k, p)[j]
      invariant sfmax == Largest(out[..], i)
    {
      var x := sfwork[i];
      if dm > 0 {
        x := x + TruncDiv(k * (p - x), dm);
        if x < 0 {
          x := 0;
        } else if x > 255 {
          x := 255;
        }
      }
      ghost var before := out[..];
      out[i] := x;
      LargestMore(before, out[..], i);
      if sfmax < x { sfmax := x; }
    }
  }

  lemma LargestNone(d: seq<int>)
    ensures Largest(d, 0) == 0
  {
  }

  lemma {:induction false} LargestSame(d: seq<int>, e: seq<int>, n: nat)
    requires n <= |d| && n <= |e| && d[..n] == e[..n]
    ensures Largest(d, n) == Largest(e, n)
  {
    if n > 0 {
      assert d[n - 1] == d[..n][n - 1] == e[n - 1];
      assert d[..n - 1] == d[..n][..n - 1] == e[..n - 1];
      LargestSame(d, e, n - 1);
    }
  }

  lemma LargestMore(d: seq<int>, e: seq<int>, n: nat)
    requires n < |d| == |e| && d[..n] == e[..n]
    ensures Largest(e, n + 1) == Max(Largest(d, n), e[n])
  {
    LargestSame(d, e, n);
  }

  /** The granule remains of its kind, and its global gain is no lower than any band's least gain. */
  lemma GrantedShaped(w: Wish, g: GrInfo, h: GrInfo)
    requires WishOk(w) && Shaped(w.kind, g) && Granted(w, g, h)
    ensures Shaped(w.kind, h) && DividedBands(h) && h.mixedBlockFlag == 0 && (w.kind.Short? ==> h.preflag == 0)
    ensures forall i | 0 <= i < SFBMAX :: w.vbrsfmin[i] <= h.globalGain
  {
    hide Best, GainOf, SubGain, ScaleFor, Base, Range, Eff, Lowered;
    MinGainsBelow(w);
    if w.kind.Short? { BestShort(w); }
    ConstrainedIsSafe(w, g, h);
    forall i | 0 <= i < SFBMAX
      ensures w.vbrsfmin[i] <= h.globalGain
    {
      assert Eff(h, i) >= w.vbrsfmin[i];
      EffBelow(w.kind, h, i);
    }
  }

  lemma EffBelow(kind: Kind, g: GrInfo, i: nat)
    requires Windowed(g) && Ranged(kind, g) && i < SFBMAX
    ensures Eff(g, i) <= g.globalGain
  {
    assert g.scalefac[i] >= 0;
  }

  lemma StoredShaped(kind: Kind, g: GrInfo, h: GrInfo)
    requires Shaped(kind, g) && SameButStorage(g, h) && |h.scalefac| == SFBMAX && (kind.Short? ==> h.preflag == 0)
    ensures Shaped(kind, h)
  {
  }

  /** How outOfBitsStrategy ends: flattened by so many parts towards the gain it started from, levelled at a higher
      gain, or with every band as coarse as can be. */
  datatype Outcome = Flat(k: nat) | Levelled(q: int) | Stuck

  /** algo_t: one granule of one channel.  `code` is the granule that bitcount and quantizeAndCountBits make with
      certain gains; what it costs is not known here. */
  class Solver {
    const s: GrState
    const kind: Kind
    const lsf: bool
    const scalable: bool
    const psymax: nat
    const code: Gains -> GrInfo
    var mingainL: int
    var mingainS: seq<int>
    /** The distribution tried last. */
    ghost var tried: seq<int>
    /** The gains that it led to. */
    var gains: Gains

    constructor (s: GrState, kind: Kind, lsf: bool, scalable: bool, psymax: nat,
                 code: Gains -> GrInfo)
      ensures this.s == s && this.kind == kind && this.lsf == lsf && this.scalable == scalable && this.psymax == psymax
      ensures this.code == code
    {
      this.s, this.kind, this.lsf, this.scalable, this.psymax := s, kind, lsf, scalable, psymax;
      this.code := code;
      mingainL, mingainS, tried, gains := 0, [0, 0, 0], [], Gains(0, 0, 0, [], []);
    }

    function WishFor(d: seq<int>, low: seq<int>): Wish
      requires |d| == SFBMAX
      reads `mingainL, `mingainS
    {
      Wish(kind, d, low, Largest(d, SFBMAX), mingainL, mingainS, psymax, scalable)
    }

    /** What init_outer_loop sets up. */
    predicate Known() {
      && (if kind.Short? then psymax == 36 || psymax == 39 else psymax == 21 || psymax == 22)
      && (kind.Long? ==> !lsf) && (kind.LongLsf? ==> lsf)
    }

    /** block_sf has found the least gains. */
    ghost predicate Limited(low: seq<int>)
      reads `mingainL, `mingainS
    {
      && Known()
      && Gained(low) && |mingainS| == 3 && 0 <= mingainL <= 255
      && (forall i | 0 <= i < 3 :: 0 <= mingainS[i] <= mingainL)
      && (forall i | 0 <= i < SFBMAX :: low[i] <= mingainS[i % 3])
    }

    ghost predicate Ready(low: seq<int>)
      reads `mingainL, `mingainS, s
    {
      Limited(low) && Shaped(kind, s.gi)
    }

    lemma WishesOk(d: seq<int>, low: seq<int>)
      requires Limited(low) && Gained(d) && AtLeast(d, low)
      ensures WishOk(WishFor(d, low))
    {
    }

    /** The bits that the gains for a distribution take. */
    ghost function BitsFor(d: seq<int>, low: seq<int>): int
      requires Limited(low) && Gained(d) && AtLeast(d, low)
      reads `mingainL, `mingainS
    {
      WishesOk(d, low);
      Used(code(GainsFor(WishFor(d, low))))
    }

    /** The granule has the gains for the distribution tried last; none is too low, and all can be stored. */
    ghost predicate Settled(low: seq<int>)
      reads this, s
    {
      && Ready(low) && Gained(tried) && AtLeast(tried, low) && Windowed(s.gi) && WidthsHold(lsf, s.gi)
      && CheckScalefactor(s.gi, low, SFBMAX) && s.gi.globalGain <= 255
      && (forall i | 0 <= i < SFBMAX :: low[i] <= s.gi.globalGain)
      && WishOk(WishFor(tried, low)) && gains == GainsFor(WishFor(tried, low))
    }

    /** that->alloc and bitcount */
    method Settle(d: seq<int>, low: seq<int>, vbrmax: int)
      requires Ready(low) && Gained(d) && AtLeast(d, low) && vbrmax == Largest(d, SFBMAX)
      modifies s, this`tried, this`gains
      ensures Settled(low) && tried == d
      ensures WishOk(WishFor(d, low)) && gains == GainsFor(WishFor(d, low)) && s.gi.globalGain == gains.globalGain
    {
      hide Ranged, GainsFor, Granted, WishOk, WidthsHold, Gained, AtLeast, Eff, Largest;
      WishesOk(d, low);
      var w := Wish(kind, d, low, vbrmax, mingainL, mingainS, psymax, scalable);
      ghost var g := s.gi;
      if kind.Short? {
        ShortBlockConstrain(s, w);
      } else {
        LongBlockConstrain(s, w);
      }
      GrantedIs(w, g, s.gi);
      ConstrainedIsSafe(w, g, s.gi);
      gains := GainsOf(s.gi);
      ghost var h := s.gi;
      GrantedShaped(w, g, h);
      var rc := Bitcount(s, lsf, kind);
      assert !rc;
      tried := d;
      StoredShaped(kind, h, s.gi);
    }

    /** tryThatOne: what quantizing with these gains costs in all */
    method TryThatOne(d: seq<int>, low: seq<int>, vbrmax: int) returns (nbits: int)
      requires Ready(low) && Gained(d) && AtLeast(d, low) && vbrmax == Largest(d, SFBMAX)
      modifies s, this`tried, this`gains
      ensures Settled(low) && Ready(low) && tried == d && nbits == BitsFor(d, low)
      ensures WishOk(WishFor(d, low)) && s.gi.globalGain == GainsFor(WishFor(d, low)).globalGain
    {
      hide Settled, GainsFor, Gained, AtLeast, Ready, WishOk;
      Settle(d, low, vbrmax);
      SettledReady(low);
      nbits := Used(code(gains));
    }

    lemma SettledReady(low: seq<int>)
      requires Settled(low)
      ensures Ready(low) && Gained(tried) && AtLeast(tried, low) && Gained(low)
      ensures s.gi.globalGain <= 255 && forall i | 0 <= i < SFBMAX :: low[i] <= s.gi.globalGain
    {
    }

    // ----- outOfBitsStrategy

    /** Part 1: `k` of `Depth` parts of the way to `p`. */
    function Part(d: seq<int>, k: int, p: int): seq<int>
      requires |d| == SFBMAX
    {
      Flattened(d, Depth(d, SFBMAX), k, p)
    }

    /** Part 2: all the way to `q`. */
    function Whole(d: seq<int>, q: int): seq<int>
      requires |d| == SFBMAX
    {
      Flattened(d, Depth(d, SFBMAX), Depth(d, SFBMAX), q)
    }

    /** The distribution is no lower than the least gains, and its bits are within the target. */
    ghost predicate Fits(d: seq<int>, low: seq<int>, target: int)
      requires Limited(low)
      reads `mingainL, `mingainS
    {
      Gained(d) && AtLeast(d, low) && BitsFor(d, low) <= target
    }

    ghost predicate TooMany(d: seq<int>, low: seq<int>, target: int)
      requires Limited(low)
      reads `mingainL, `mingainS
    {
      Gained(d) && AtLeast(d, low) && BitsFor(d, low) > target
    }

    /** The distributions that may be tried: none is below the least gains. */
    ghost predicate Sound(d: seq<int>, low: seq<int>, p: int) {
      Gained(d) && AtLeast(d, low) && 0 <= p <= 255 && forall i | 0 <= i < SFBMAX :: d[i] <= p
    }

    lemma PartSound(d: seq<int>, low: seq<int>, p: int, k: nat)
      requires Sound(d, low, p) && k <= Depth(d, SFBMAX)
      ensures Gained(Part(d, k, p)) && AtLeast(Part(d, k, p), low)
    {
      FlattenedRaises(d, Depth(d, SFBMAX), k, k, p);
    }

    lemma WholeSound(d: seq<int>, low: seq<int>, p: int, q: int)
      requires Sound(d, low, p) && p <= q <= 255
      ensures Gained(Whole(d, q)) && AtLeast(Whole(d, q), low) && Whole(d, 255) == Level(255)
    {
      FlattenedLevel(d, p, q);
    }

    /** flattenDistribution and tryThatOne */
    method TryFlattened(sfwork: seq<int>, low: seq<int>, dm: nat, k: int, p: int) returns (nbits: int)
      requires Ready(low) && |sfwork| == SFBMAX
      requires Gained(Flattened(sfwork, dm, k, p)) && AtLeast(Flattened(sfwork, dm, k, p), low)
      modifies s, this`tried, this`gains
      ensures Settled(low) && Ready(low) && tried == Flattened(sfwork, dm, k, p) && nbits == BitsFor(tried, low)
      ensures WishOk(WishFor(tried, low)) && s.gi.globalGain == GainsFor(WishFor(tried, low)).globalGain
    {
      hide Settled, GainsFor, Gained, AtLeast, Limited, WishOk, Shaped, Flattened, Largest;
      var wrk := new int[SFBMAX];
      var sfmax := FlattenDistribution(sfwork, wrk, dm, k, p);
      nbits := TryThatOne(wrk[..], low, sfmax);
    }

    /** Part 1 of outOfBitsStrategy: the first flattening that fits, if the coarsest does. */
    method FlattenToFit(sfwork: seq<int>, low: seq<int>, dm: int, p: int, target: int) returns (biOk: int)
      requires |sfwork| == SFBMAX && Ready(low) && Sound(sfwork, low, p) && dm == Depth(sfwork, SFBMAX)
      modifies s, this`tried, this`gains
      ensures Settled(low) && Ready(low) && -1 <= biOk <= dm
      ensures biOk >= 0 ==>
        && tried == Part(sfwork, biOk, p) && Fits(Part(sfwork, biOk, p), low, target)
        && (biOk > 0 ==> TooMany(Part(sfwork, biOk - 1, p), low, target))
      ensures biOk < 0 ==> TooMany(Part(sfwork, dm, p), low, target)
    {
      hide Settled, GainsFor, Gained, AtLeast, Limited, WishOk, Shaped, Flattened, Depth, Sound, BitsFor;
      var bi, bu, bo := dm / 2, 0, dm;
      biOk := -1;
      while true
        invariant Ready(low)
        invariant 0 <= bu <= bi <= bo <= dm && -1 <= biOk <= dm
        invariant bu > 0 ==> TooMany(Part(sfwork, bu - 1, p), low, target)
        invariant if biOk < 0 then bo == dm else biOk == bo + 1 && Fits(Part(sfwork, biOk, p), low, target)
        decreases bo - bu
      {
        PartSound(sfwork, low, p, bi);
        var nbits := TryFlattened(sfwork, low, dm, bi, p);
        if nbits <= target {
          biOk := bi;
          bo := bi - 1;
        } else {
          bu := bi + 1;
        }
        if bu <= bo {
          bi := (bu + bo) / 2;
        } else {
          break;
        }
      }
      if biOk >= 0 && bi != biOk {
        PartSound(sfwork, low, p, biOk);
        var nbits := TryFlattened(sfwork, low, dm, biOk, p);
      }
    }

    /** Part 2: the lowest level that fits, if any does. */
    method LevelToFit(sfwork: seq<int>, low: seq<int>, dm: int, p: int, target: int) returns (biOk: int)
      requires |sfwork| == SFBMAX && Ready(low) && Sound(sfwork, low, p) && dm == Depth(sfwork, SFBMAX)
      modifies s, this`tried, this`gains
      ensures Settled(low) && Ready(low) && (biOk < 0 || p <= biOk <= 255)
      ensures biOk >= 0 ==>
        && tried == Whole(sfwork, biOk) && Fits(Whole(sfwork, biOk), low, target)
        && (biOk > p ==> TooMany(Whole(sfwork, biOk - 1), low, target))
      ensures biOk < 0 ==>
        && tried == Whole(sfwork, 255) && TooMany(Whole(sfwork, 255), low, target)
        && WishOk(WishFor(tried, low)) && s.gi.globalGain == GainsFor(WishFor(tried, low)).globalGain
    {
      hide Settled, GainsFor, Gained, AtLeast, Limited, WishOk, Shaped, Flattened, Depth, BitsFor;
      var bi, bu, bo := (255 + p) / 2, p, 255;
      biOk := -1;
      while true
        invariant Ready(low)
        invariant p <= bu <= bi <= bo <= 255 && (biOk < 0 || p <= biOk <= 255)
        invariant bu > p ==> TooMany(Whole(sfwork, bu - 1), low, target)
        invariant if biOk < 0 then bo == 255 else biOk == bo + 1 && Fits(Whole(sfwork, biOk), low, target)
        decreases bo - bu
      {
        WholeSound(sfwork, low, p, bi);
        var nbits := TryFlattened(sfwork, low, dm, dm, bi);
        if nbits <= target {
          biOk := bi;
          bo := bi - 1;
        } else {
          bu := bi + 1;
        }
        if bu <= bo {
          bi := (bu + bo) / 2;
        } else {
          break;
        }
      }
      if biOk >= 0 && bi != biOk {
        WholeSound(sfwork, low, p, biOk);
        var nbits := TryFlattened(sfwork, low, dm, dm, biOk);
      }
    }

    // ----- the old search, for when all else fails

    /** Whether searchGlobalStepsizeMax is content: it wants fewer bits than the target, or a silent spectrum. */
    ghost predicate Content(d: seq<int>, low: seq<int>, target: int)
      requires Limited(low) && Gained(d) && AtLeast(d, low)
      reads `mingainL, `mingainS
    {
      WishesOk(d, low);
      code(GainsFor(WishFor(d, low))).part23Length == 0 || BitsFor(d, low) < target
    }

    lemma ShiftedSound(d: seq<int>, low: seq<int>, delta: int)
      requires Limited(low) && |d| == SFBMAX
      ensures |low| == SFBMAX && Gained(Shifted(d, low, delta)) && AtLeast(Shifted(d, low, delta), low)
    {
    }

    /** tryGlobalStepsize, and whether the search is content with it */
    method TryGlobalStepsize(sfwork: seq<int>, low: seq<int>, delta: int, target: int) returns (content: bool)
      requires Ready(low) && |sfwork| == |low| == SFBMAX
      modifies s, this`tried, this`gains
      ensures Settled(low) && Ready(low) && tried == Shifted(sfwork, low, delta)
      ensures Gained(tried) && AtLeast(tried, low) && content == Content(tried, low, target)
    {
      hide Settled, GainsFor, AtLeast, Gained, WishOk, Shaped, Limited, Shifted, Largest;
      ShiftedSound(sfwork, low, delta);
      var sftemp := new int[SFBMAX];
      LargestNone(sftemp[..]);
      var vbrmax := 0;
      for i := 0 to SFBMAX
        invariant Ready(low) && vbrmax == Largest(sftemp[..], i)
        invariant forall j | 0 <= j < i :: sftemp[j] == Shifted(sfwork, low, delta)[j]
      {
        var gain := sfwork[i] + delta;
        if gain < low[i] { gain := low[i]; }
        if gain > 255 { gain := 255; }
        ShiftedAt(sfwork, low, delta, i);
        ghost var before := sftemp[..];
        sftemp[i] := gain;
        LargestMore(before, sftemp[..], i);
        if vbrmax < gain { vbrmax := gain; }
      }
      assert sftemp[..] == Shifted(sfwork, low, delta);
      Settle(sftemp[..], low, vbrmax);
      SettledReady(low);
      var nbits := code(gains).part23Length;
      content := nbits == 0 || nbits + code(gains).part2Length < target;
    }

    lemma ShiftedAt(d: seq<int>, low: seq<int>, delta: int, i: nat)
      requires |d| == |low| == SFBMAX && i < SFBMAX
      ensures Shifted(d, low, delta)[i] == Min(Max(d[i] + delta, low[i]), 255)
    {
    }

    /** searchGlobalStepsizeMax: it ends, at the first shift it is content with; or if it is content with none it
        tries, half-way. */
    method SearchGlobalStepsizeMax(sfwork: seq<int>, low: seq<int>, target: int) returns (gainOk: int)
      requires Ready(low) && |sfwork| == |low| == SFBMAX && s.gi.globalGain <= 255
      modifies s, this`tried, this`gains
      ensures Settled(low) && Ready(low)
      ensures var gain := old(s.gi.globalGain);
        && gain <= gainOk <= 512 && tried == Shifted(sfwork, low, gainOk - gain)
        && if ShiftContent(sfwork, low, gainOk - gain, target) then
             gainOk > gain ==> !ShiftContent(sfwork, low, gainOk - gain - 1, target)
           else gainOk == (gain + 512) / 2 && !ShiftContent(sfwork, low, 512 - gain, target)
    {
      hide Settled, AtLeast, Gained, Shaped, Limited, Shifted, Content;
      var gain := s.gi.globalGain;
      var curr, l, r := gain, gain, 512;
      gainOk := 1024;
      while l <= r
        invariant Ready(low) && gain <= l <= r + 1 && r <= 512
        invariant l > gain ==> !ShiftContent(sfwork, low, l - 1 - gain, target)
        invariant r == 512 && l == gain ==> gainOk == 1024
        invariant r == 512 && l > gain ==>
          gainOk == (gain + 512) / 2 && !ShiftContent(sfwork, low, gainOk - gain, target)
        invariant r < 512 ==> gainOk == r + 1 && ShiftContent(sfwork, low, gainOk - gain, target)
        invariant gainOk == 1024 || gain <= gainOk <= 512
        invariant gainOk != 1024 ==>
          Settled(low) && gain <= curr <= 512 && tried == Shifted(sfwork, low, curr - gain)
      {
        curr := (l + r) / 2;
        var content := TryGlobalStepsize(sfwork, low, curr - gain, target);
        if content {
          r := curr - 1;
          gainOk := curr;
        } else {
          l := curr + 1;
          if gainOk == 1024 { gainOk := curr; }
        }
      }
      assert r == 512 ==> !ShiftContent(sfwork, low, 512 - gain, target);
      if gainOk != curr {
        curr := gainOk;
        var content := TryGlobalStepsize(sfwork, low, curr - gain, target);
      }
    }

    ghost predicate ShiftContent(d: seq<int>, low: seq<int>, delta: int, target: int)
      requires Limited(low) && |d| == SFBMAX
      reads `mingainL, `mingainS
    {
      ShiftedSound(d, low, delta);
      Content(Shifted(d, low, delta), low, target)
    }

    /** With every band at 255 there is nothing left to lower: the global gain is 255, and shifting changes nothing. */
    lemma CoarsestStays(low: seq<int>, delta: nat)
      requires Limited(low)
      ensures |low| == SFBMAX && Shifted(Level(255), low, delta) == Level(255)
    {
    }

    /** outOfBitsStrategy: what it has tried in the end is the first flattening that fits, or the first level, or
        the coarsest there is; the scalefactors and gains are right in any case. */
    method OutOfBitsStrategy(sfwork: seq<int>, low: seq<int>, target: int) returns (how: Outcome)
      requires |sfwork| == SFBMAX && Ready(low) && Sound(sfwork, low, s.gi.globalGain)
      modifies s, this`tried, this`gains
      ensures Settled(low) && Ready(low)
      ensures var p, dm := old(s.gi.globalGain), Depth(sfwork, SFBMAX);
        && Ended(how, sfwork, low, p, target)
        && tried == match how case Flat(k) => Part(sfwork, k, p) case Levelled(q) => Whole(sfwork, q)
            case Stuck => Level(255)
      ensures !how.Stuck? ==> Fits(tried, low, target)
    {
      hide Settled, AtLeast, Gained, Shaped, Limited, Shifted, Flattened, Depth, Largest, BitsFor, Content, Fits;
      hide TooMany;
      hide GainsFor, WishFor, WishOk, Sound, Level, ShiftContent;
      SoundWork(sfwork, low, s.gi.globalGain);
      var dm := SfDepth(sfwork);
      var p := s.gi.globalGain;
      var k := FlattenToFit(sfwork, low, dm, p, target);
      if k >= 0 { return Flat(k); }
      var q := LevelToFit(sfwork, low, dm, p, target);
      if q >= 0 { return Levelled(q); }
      WholeSound(sfwork, low, p, 255);
      SettledReady(low);
      ghost var start := s.gi.globalGain;
      var gain := SearchGlobalStepsizeMax(Whole(sfwork, 255), low, target);
      CoarsestStays(low, gain - start);
      how := Stuck;
    }

    lemma SoundWork(d: seq<int>, low: seq<int>, p: int)
      requires Sound(d, low, p)
      ensures Gained(d) && 0 <= p <= 255 && |low| == SFBMAX
    {
    }

    ghost predicate Ended(how: Outcome, d: seq<int>, low: seq<int>, p: int, target: int)
      requires |d| == SFBMAX && Limited(low)
      reads `mingainL, `mingainS
    {
      match how
      case Flat(k) =>
        k <= Depth(d, SFBMAX) && Fits(Part(d, k, p), low, target) && (k > 0 ==> TooMany(Part(d, k - 1, p), low, target))
      case Levelled(q) =>
        && TooMany(Part(d, Depth(d, SFBMAX), p), low, target)
        && p <= q <= 255 && Fits(Whole(d, q), low, target) && (q > p ==> TooMany(Whole(d, q - 1), low, target))
      case Stuck => TooMany(Part(d, Depth(d, SFBMAX), p), low, target) && TooMany(Level(255), low, target)
    }

    // ----- when coarser steps never take more bits

    ghost predicate Antitone(low: seq<int>)
      requires Limited(low)
      reads `mingainL, `mingainS
    {
      forall d, e | Gained(d) && AtLeast(d, low) && Gained(e) && AtLeast(e, d) && AtLeast(e, low) ::
        BitsFor(e, low) <= BitsFor(d, low)
    }

    lemma NoDearer(d: seq<int>, e: seq<int>, low: seq<int>)
      requires Limited(low) && Antitone(low) && Gained(d) && AtLeast(d, low) && Gained(e) && AtLeast(e, d)
      ensures AtLeast(e, low) && BitsFor(e, low) <= BitsFor(d, low)
    {
      hide BitsFor, Limited;
    }

    /** Part 1 finds the least flattening that fits. */
    lemma LeastFlattening(d: seq<int>, low: seq<int>, p: int, k: nat, target: int, j: nat)
      requires |d| == SFBMAX && Limited(low) && Antitone(low) && Sound(d, low, p) && Ended(Flat(k), d, low, p, target)
      requires j <= Depth(d, SFBMAX)
      ensures Fits(Part(d, j, p), low, target) <==> k <= j
    {
      hide BitsFor, Limited, Flattened, Depth, Antitone, AtLeast, Gained;
      PartSound(d, low, p, j);
      if k <= j {
        PartsRise(d, low, p, k, j);
      } else {
        PartsRise(d, low, p, j, k - 1);
      }
    }

    lemma PartsRise(d: seq<int>, low: seq<int>, p: int, j: nat, k: nat)
      requires |d| == SFBMAX && Limited(low) && Antitone(low) && Sound(d, low, p) && j <= k <= Depth(d, SFBMAX)
      ensures Gained(Part(d, j, p)) && AtLeast(Part(d, j, p), low) && Gained(Part(d, k, p))
          && AtLeast(Part(d, k, p), low)
      ensures BitsFor(Part(d, k, p), low) <= BitsFor(Part(d, j, p), low)
    {
      hide BitsFor, Limited, Flattened, Depth, Antitone;
      PartSound(d, low, p, j);
      PartSound(d, low, p, k);
      FlattenedRaises(d, Depth(d, SFBMAX), j, k, p);
      NoDearer(Part(d, j, p), Part(d, k, p), low);
    }

    /** Part 2 is reached only if no flattening fits, and finds the lowest level that does. */
    lemma LeastLevel(d: seq<int>, low: seq<int>, p: int, q: int, target: int, j: nat, r: int)
      requires |d| == SFBMAX && Limited(low) && Antitone(low) && Sound(d, low, p)
          && Ended(Levelled(q), d, low, p, target)
      requires j <= Depth(d, SFBMAX) && p <= r <= 255
      ensures !Fits(Part(d, j, p), low, target)
      ensures Fits(Whole(d, r), low, target) <==> q <= r
    {
      hide BitsFor, Limited, Flattened, Depth, Antitone, AtLeast, Gained;
      PartsRise(d, low, p, j, Depth(d, SFBMAX));
      WholeSound(d, low, p, r);
      if q <= r {
        LevelsRise(d, low, p, q, r);
      } else {
        LevelsRise(d, low, p, r, q - 1);
      }
    }

    lemma LevelsRise(d: seq<int>, low: seq<int>, p: int, q: int, r: int)
      requires |d| == SFBMAX && Limited(low) && Antitone(low) && Sound(d, low, p) && p <= q <= r <= 255
      ensures Gained(Whole(d, q)) && AtLeast(Whole(d, q), low) && Gained(Whole(d, r)) && AtLeast(Whole(d, r), low)
      ensures BitsFor(Whole(d, r), low) <= BitsFor(Whole(d, q), low)
    {
      hide BitsFor, Limited, Flattened, Depth, Antitone;
      WholeSound(d, low, p, q);
      WholeSound(d, low, p, r);
      WholeRises(d, p, q, r);
      NoDearer(Whole(d, q), Whole(d, r), low);
    }

    lemma WholeRises(d: seq<int>, p: int, q: int, r: int)
      requires Gained(d) && p <= q <= r <= 255 && forall i | 0 <= i < SFBMAX :: d[i] <= p
      ensures AtLeast(Whole(d, r), Whole(d, q))
    {
      var dm := Depth(d, SFBMAX);
      if dm > 0 {
        FlattenedRaises(d, dm, dm, dm, q);
        FlattenedRaises(d, dm, dm, dm, r);
      }
    }

    /** The granule ends up within the target if and only if it does so with every band at 255: the old search,
        which comes last, has nothing left to find. */
    lemma StuckExactly(how: Outcome, d: seq<int>, low: seq<int>, p: int, target: int)
      requires |d| == SFBMAX && Limited(low) && Antitone(low) && Sound(d, low, p) && Ended(how, d, low, p, target)
      ensures Gained(Level(255)) && AtLeast(Level(255), low)
      ensures !how.Stuck? <==> BitsFor(Level(255), low) <= target
    {
      hide BitsFor, Flattened, Depth, Antitone;
      WholeSound(d, low, p, 255);
      match how
      case Flat(k) =>
        PartSound(d, low, p, k);
        NoDearer(Part(d, k, p), Level(255), low);
      case Levelled(q) =>
        WholeSound(d, low, p, q);
        NoDearer(Whole(d, q), Level(255), low);
      case Stuck =>
    }
  }
}

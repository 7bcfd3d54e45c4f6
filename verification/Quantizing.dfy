/** The granules of a frame, quantized, stored, divided and counted one after the other around a quantizer that is not
    known here (what the loops of quantize.c and VBR_encode_frame of vbrquantize.c have in common). */
module Quantizing {
  import opened Bits
  import opened Granule
  import opened Stream
  import opened Reservoirs
  import opened Decoder
  import opened Takehiro
  import opened Finish

  /** What a quantizer may be asked for in place of a number of bits: the granule as good as it asks to be, or one
      that is not quantized at all. */
  const AS_IS := -1
  const UNTOUCHED := -2

  /** A quantizer (outer_loop, or what VBR_encode_frame does for a granule): the granule it makes of granule `gr` of
      channel `ch` when it may use so many bits. */
  type Quantizer = (nat, nat, int) -> GrInfo

  function UsedBits(grs: seq<GrInfo>): int {
    if grs == [] then 0 else UsedBits(grs[..|grs| - 1]) + Used(grs[|grs| - 1])
  }

  /** The quantizer leaves what can be finished, and uses no more bits than it may. */
  ghost predicate Keeps(version: nat, b: Bands, q: Quantizer, gr: nat, ch: nat, t: int) {
    Quantized(version, b, q(gr, ch, t)) && Used(q(gr, ch, t)) <= t
  }

  ghost predicate Obedient(version: nat, b: Bands, q: Quantizer) {
    forall gr, ch, t | 0 <= t :: Keeps(version, b, q, gr, ch, t)
  }

  /** The same for one granule, or for all of a frame, with these numbers of bits. */
  ghost predicate KeepsRow(version: nat, b: Bands, q: Quantizer, gr: nat, targets: seq<int>) {
    forall ch | 0 <= ch < |targets| :: Keeps(version, b, q, gr, ch, targets[ch])
  }

  ghost predicate KeepsAll(version: nat, b: Bands, q: Quantizer, targets: seq<seq<int>>) {
    forall gr | 0 <= gr < |targets| :: KeepsRow(version, b, q, gr, targets[gr])
  }

  lemma ObedientKeeps(version: nat, b: Bands, q: Quantizer, targets: seq<seq<int>>, channels: nat)
    requires Obedient(version, b, q) && Targeted(targets, channels)
    ensures KeepsAll(version, b, q, targets)
  {
    hide Keeps;
  }

  lemma ObedientKeepsRow(version: nat, b: Bands, q: Quantizer, gr: nat, targets: seq<int>)
    requires Obedient(version, b, q) && forall ch | 0 <= ch < |targets| :: 0 <= targets[ch]
    ensures KeepsRow(version, b, q, gr, targets)
  {
    hide Keeps;
  }

  /** Whatever it is asked for, it leaves what can be finished. */
  ghost predicate Finishable(version: nat, b: Bands, q: Quantizer) {
    forall gr, ch, t | UNTOUCHED <= t :: Quantized(version, b, q(gr, ch, t))
  }

  ghost predicate AllFinished(version: nat, b: Bands, grs: seq<GrInfo>) {
    forall i | 0 <= i < |grs| :: Finished(version, b, grs[i]) && Used(grs[i]) <= MAX_BITS_PER_CHANNEL
  }

  /** The flags tell which scalefactors of each granule are the first granule's. */
  ghost predicate AllTelling(version: nat, channels: nat, grs: seq<GrInfo>, scfsi: seq<nat>)
    requires channels > 0
  {
    forall j | 0 <= j < |grs| ::
      Scaled(version, grs[j]) && Telling(version, grs[j], SharedFlags(version, channels, scfsi, j))
  }

  /** Granule `g` codes what the quantizer makes when it is asked for `t`. */
  ghost predicate CodedBy(q: Quantizer, gr: nat, ch: nat, t: int, g: GrInfo, first: seq<int>) {
    Preserved(q(gr, ch, t), g, if gr == 1 then first else q(gr, ch, t).scalefac)
  }

  /** The granules from `at` on code what it makes when it is asked for `asks`. */
  ghost predicate CodedRow(q: Quantizer, gr: nat, asks: seq<int>, grs: seq<GrInfo>, at: nat)
    requires at + |asks| <= |grs|
  {
    forall ch | 0 <= ch < |asks| :: CodedBy(q, gr, ch, asks[ch], grs[at + ch], grs[ch].scalefac)
  }

  /** The same for all granules of a frame. */
  ghost predicate CodedFor(q: Quantizer, asks: seq<seq<int>>, channels: nat, grs: seq<GrInfo>)
    requires |grs| == Times(|asks|, channels)
  {
    forall gr | 0 <= gr < |asks| ::
      Times(gr, channels) + |asks[gr]| <= |grs| && CodedRow(q, gr, asks[gr], grs, Times(gr, channels))
  }

  lemma CodedStays(q: Quantizer, gr: nat, asks: seq<int>, grs: seq<GrInfo>, more: seq<GrInfo>, at: nat)
    requires at + |asks| <= |grs| <= |more| && more[..|grs|] == grs && CodedRow(q, gr, asks, grs, at)
    ensures CodedRow(q, gr, asks, more, at)
  {
    hide CodedBy;
    forall ch | 0 <= ch < |asks|
      ensures CodedBy(q, gr, ch, asks[ch], more[at + ch], more[ch].scalefac)
    {
      assert more[at + ch] == grs[at + ch] && more[ch] == grs[ch];
    }
  }

  lemma CodedMore(q: Quantizer, asks: seq<seq<int>>, gr: nat, channels: nat, grs: seq<GrInfo>, more: seq<GrInfo>)
    requires gr < |asks| && |grs| == Times(gr, channels) && |more| == Times(gr + 1, channels) && more[..|grs|] == grs
    requires CodedFor(q, asks[..gr], channels, grs) && |asks[gr]| == channels
    requires CodedRow(q, gr, asks[gr], more, |grs|)
    ensures CodedFor(q, asks[..gr + 1], channels, more)
  {
    hide CodedRow;
    TimesStep(gr, channels);
    forall k | 0 <= k < gr + 1
      ensures Times(k, channels) + |asks[..gr + 1][k]| <= |more| && CodedRow(q, k, asks[k], more, Times(k, channels))
    {
      if k < gr {
        assert asks[..gr][k] == asks[k];
        CodedStays(q, k, asks[k], grs, more, Times(k, channels));
      }
    }
  }

  /** Granule `g` codes what the quantizer makes when it is asked for something. */
  ghost predicate CodedFrom(q: Quantizer, gr: nat, ch: nat, g: GrInfo, first: seq<int>) {
    exists t | UNTOUCHED <= t :: CodedBy(q, gr, ch, t, g, first)
  }

  /** Every granule codes what the quantizer has made of it; granules that share scalefactors share them with the
      first one of their channel. */
  ghost predicate AllCoded(q: Quantizer, channels: nat, grs: seq<GrInfo>)
    requires channels > 0
  {
    forall j | 0 <= j < |grs| :: CodedFrom(q, j / channels, j % channels, grs[j], grs[j % channels].scalefac)
  }

  /** The granules of a frame so far, and the sharing flags. */
  ghost predicate Drafted(version: nat, b: Bands, q: Quantizer, channels: nat, grs: seq<GrInfo>, scfsi: seq<nat>)
    requires channels > 0
  {
    && (forall i | 0 <= i < |grs| :: Finished(version, b, grs[i]))
    && AllTelling(version, channels, grs, scfsi) && AllCoded(q, channels, grs)
    && forall i | 0 <= i < |scfsi| :: scfsi[i] < 2
  }

  /** The same, and the lengths of all granules fit their fields. */
  ghost predicate Made(version: nat, b: Bands, q: Quantizer, channels: nat, grs: seq<GrInfo>, scfsi: seq<nat>)
    requires channels > 0
  {
    Drafted(version, b, q, channels, grs, scfsi) && AllShort(grs)
  }

  ghost predicate AllShort(grs: seq<GrInfo>) {
    forall i | 0 <= i < |grs| :: Used(grs[i]) <= MAX_BITS_PER_CHANNEL
  }

  lemma MadeFinished(version: nat, b: Bands, q: Quantizer, channels: nat, grs: seq<GrInfo>, scfsi: seq<nat>)
    requires channels > 0 && Made(version, b, q, channels, grs, scfsi)
    ensures AllFinished(version, b, grs)
  {
    hide Finished, AllTelling, AllCoded;
  }

  lemma NothingMade(version: nat, b: Bands, q: Quantizer, channels: nat)
    requires channels > 0
    ensures Made(version, b, q, channels, [], []) && UsedBits([]) == 0
  {
  }

  /** The place of a granule in the frame. */
  lemma Where(gr: nat, ch: nat, channels: nat)
    requires gr < 2 && 1 <= channels <= 2 && ch < channels
    ensures (Times(gr, channels) + ch) / channels == gr && (Times(gr, channels) + ch) % channels == ch
  {
    TimesStep(0, channels);
  }

  lemma FlagsStay(version: nat, channels: nat, scfsi: seq<nat>, more: seq<nat>, j: nat, ch: nat)
    requires 1 <= channels <= 2 && ch < channels && j < 2 * channels
    requires j < channels || (j < channels + ch && |scfsi| == 4 * ch)
    ensures SharedFlags(version, channels, scfsi + more, j) == SharedFlags(version, channels, scfsi, j)
  {
  }

  lemma FlagsHere(channels: nat, scfsi: seq<nat>, flags: seq<nat>, ch: nat)
    requires 1 <= channels <= 2 && ch < channels && |scfsi| == 4 * ch && |flags| == 4
    ensures SharedFlags(1, channels, scfsi + flags, channels + ch) == flags
  {
  }

  /** One more granule. */
  lemma DraftedNext(version: nat, b: Bands, q: Quantizer, channels: nat, grs: seq<GrInfo>, scfsi: seq<nat>,
                    gr: nat, ch: nat, t: int, g: GrInfo, flags: seq<nat>)
    requires version < 2 && gr <= version && 1 <= channels <= 2 && ch < channels && UNTOUCHED <= t
    requires |grs| == Times(gr, channels) + ch && |scfsi| == (if gr == 1 then 4 * ch else 0)
    requires Drafted(version, b, q, channels, grs, scfsi) && |flags| == 4 && forall i | 0 <= i < 4 :: flags[i] < 2
    requires Finished(version, b, g) && Scaled(version, g)
    requires Telling(version, g, if gr == 1 then flags else [])
    requires gr == 1 ==> ch < |grs|
    requires Preserved(q(gr, ch, t), g, if gr == 1 then grs[ch].scalefac else q(gr, ch, t).scalefac)
    ensures Drafted(version, b, q, channels, grs + [g], if gr == 1 then scfsi + flags else scfsi)
    ensures UsedBits(grs + [g]) == UsedBits(grs) + Used(g)
  {
    hide Finished, Telling, Scaled, Preserved, UsedBits, Used, SharedFlags, AllTelling, AllCoded;
    UsedAppend(grs, g);
    TimesStep(0, channels);
    TellingNext(version, channels, grs, scfsi, gr, ch, g, flags);
    CodedNext(q, channels, grs, gr, ch, t, g);
  }

  lemma TellingNext(version: nat, channels: nat, grs: seq<GrInfo>, scfsi: seq<nat>, gr: nat, ch: nat, g: GrInfo,
                    flags: seq<nat>)
    requires version < 2 && gr <= version && 1 <= channels <= 2 && ch < channels
    requires |grs| == Times(gr, channels) + ch && |scfsi| == (if gr == 1 then 4 * ch else 0)
    requires AllTelling(version, channels, grs, scfsi) && |flags| == 4
    requires Scaled(version, g) && Telling(version, g, if gr == 1 then flags else [])
    ensures AllTelling(version, channels, grs + [g], if gr == 1 then scfsi + flags else scfsi)
  {
    hide Telling, Scaled, SharedFlags;
    Where(gr, ch, channels);
    TimesStep(0, channels);
    var all, fs := grs + [g], if gr == 1 then scfsi + flags else scfsi;
    forall j | 0 <= j < |all|
      ensures Scaled(version, all[j]) && Telling(version, all[j], SharedFlags(version, channels, fs, j))
    {
      if j < |grs| {
        assert all[j] == grs[j];
        if gr == 1 { FlagsStay(version, channels, scfsi, flags, j, ch); }
      } else if gr == 1 {
        FlagsHere(channels, scfsi, flags, ch);
      } else {
        NoFlagsFirst(version, channels, fs, ch);
      }
    }
  }

  lemma CodedNext(q: Quantizer, channels: nat, grs: seq<GrInfo>, gr: nat, ch: nat, t: int, g: GrInfo)
    requires UNTOUCHED <= t && gr < 2 && 1 <= channels <= 2 && ch < channels && |grs| == Times(gr, channels) + ch
    requires AllCoded(q, channels, grs) && (gr == 1 ==> ch < |grs|)
    requires Preserved(q(gr, ch, t), g, if gr == 1 then grs[ch].scalefac else q(gr, ch, t).scalefac)
    ensures AllCoded(q, channels, grs + [g])
  {
    hide Preserved;
    Where(gr, ch, channels);
    TimesStep(0, channels);
    var all := grs + [g];
    assert CodedBy(q, gr, ch, t, g, all[ch].scalefac);
    assert CodedFrom(q, gr, ch, g, all[ch].scalefac);
    forall j | 0 <= j < |all|
      ensures CodedFrom(q, j / channels, j % channels, all[j], all[j % channels].scalefac)
    {
      if j < |grs| {
        assert CodedFrom(q, j / channels, j % channels, grs[j], grs[j % channels].scalefac);
        assert all[j] == grs[j] && all[j % channels] == grs[j % channels];
      }
    }
  }

  lemma NoFlagsFirst(version: nat, channels: nat, scfsi: seq<nat>, ch: nat)
    requires ch < channels
    ensures SharedFlags(version, channels, scfsi, ch) == []
  {
  }

  lemma UsedAppend(grs: seq<GrInfo>, g: GrInfo)
    ensures UsedBits(grs + [g]) == UsedBits(grs) + Used(g)
  {
    assert (grs + [g])[..|grs|] == grs;
  }

  // ----- quantizing

  /** The divider works for this reservoir's frames. */
  ghost predicate Working(r: Reservoir, d: Divider)
    reads d
  {
    d.Ready() && d.modeGr == r.modeGr && r.Setup()
  }

  /** One granule of one channel: quantized, stored, divided; `adjust` if the reservoir is told at once. */
  method DraftOne(r: Reservoir, d: Divider, gr: nat, ch: nat, channels: nat, t: int, q: Quantizer,
                  tt0: seq<GrInfo>, scfsi0: seq<nat>, adjust: bool)
    returns (tt: seq<GrInfo>, scfsi: seq<nat>)
    requires Working(r, d) && gr < r.modeGr && 1 <= channels <= 2 && ch < channels
    requires UNTOUCHED <= t && Quantized(r.modeGr - 1, d.bands, q(gr, ch, t)) && |q(gr, ch, t).scalefac| == SFBMAX
    requires Drafted(r.modeGr - 1, d.bands, q, channels, tt0, scfsi0)
    requires |tt0| == Times(gr, channels) + ch && |scfsi0| == if gr == 1 then 4 * ch else 0
    modifies r`resvSize
    ensures Drafted(r.modeGr - 1, d.bands, q, channels, tt, scfsi)
    ensures |tt| == |tt0| + 1 && tt[..|tt0|] == tt0 && |scfsi| == if gr == 1 then 4 * ch + 4 else 0
    ensures Used(tt[|tt0|]) <= Used(q(gr, ch, t)) && UsedBits(tt) == UsedBits(tt0) + Used(tt[|tt0|])
    ensures r.resvSize == old(r.resvSize) - if adjust then UsedBits(tt) - UsedBits(tt0) else 0
    ensures CodedBy(q, gr, ch, t, tt[|tt0|], tt[ch].scalefac)
  {
    hide Drafted, Finished, Telling, Quantized, Preserved, UsedBits, Used;
    ghost var version := r.modeGr - 1;
    var g := q(gr, ch, t);
    TimesStep(0, channels);
    var g0 := g;
    if gr == 1 {
      g0 := tt0[ch];
      DraftedScalefac(version, d.bands, q, channels, tt0, scfsi0, ch);
    }
    var s := new GrState(g);
    var flags;
    if adjust {
      flags := IterationFinishOne(d, r, s, gr, g0);
    } else {
      flags := ReduceBitUsage(d, s, gr, g0);
    }
    FinishedScaled(version, d.bands, s.gi);
    tt := tt0 + [s.gi];
    scfsi := if gr == 1 then scfsi0 + flags else scfsi0;
    DraftedNext(version, d.bands, q, channels, tt0, scfsi0, gr, ch, t, s.gi, flags);
  }

  /** The same within a number of bits. */
  method QuantizeOne(r: Reservoir, d: Divider, gr: nat, ch: nat, channels: nat, t: nat, q: Quantizer,
                     tt0: seq<GrInfo>, scfsi0: seq<nat>, adjust: bool)
    returns (tt: seq<GrInfo>, scfsi: seq<nat>)
    requires Working(r, d) && gr < r.modeGr && 1 <= channels <= 2 && ch < channels
    requires t <= MAX_BITS_PER_CHANNEL && Keeps(r.modeGr - 1, d.bands, q, gr, ch, t)
    requires Made(r.modeGr - 1, d.bands, q, channels, tt0, scfsi0)
    requires |tt0| == Times(gr, channels) + ch && |scfsi0| == if gr == 1 then 4 * ch else 0
    modifies r`resvSize
    ensures Made(r.modeGr - 1, d.bands, q, channels, tt, scfsi)
    ensures |tt| == |tt0| + 1 && |scfsi| == if gr == 1 then 4 * ch + 4 else 0
    ensures UsedBits(tt) <= UsedBits(tt0) + t
    ensures r.resvSize == old(r.resvSize) - if adjust then UsedBits(tt) - UsedBits(tt0) else 0
    ensures tt[..|tt0|] == tt0 && CodedBy(q, gr, ch, t, tt[|tt0|], tt[ch].scalefac)
  {
    hide CodedBy, Drafted, Quantized, UsedBits, Used;
    QuantizedScalefac(r.modeGr - 1, d.bands, q(gr, ch, t));
    tt, scfsi := DraftOne(r, d, gr, ch, channels, t, q, tt0, scfsi0, adjust);
    ShortNext(tt0, tt);
  }

  lemma ShortNext(tt0: seq<GrInfo>, tt: seq<GrInfo>)
    requires AllShort(tt0) && |tt| == |tt0| + 1 && tt[..|tt0|] == tt0 && Used(tt[|tt0|]) <= MAX_BITS_PER_CHANNEL
    ensures AllShort(tt)
  {
    forall i | 0 <= i < |tt|
      ensures Used(tt[i]) <= MAX_BITS_PER_CHANNEL
    {
      assert i < |tt0| ==> tt[i] == tt0[i];
    }
  }

  lemma QuantizedScalefac(version: nat, b: Bands, g: GrInfo)
    requires Quantized(version, b, g)
    ensures |g.scalefac| == SFBMAX
  {
    hide Divided;
  }

  lemma DraftedScalefac(version: nat, b: Bands, q: Quantizer, channels: nat, grs: seq<GrInfo>, scfsi: seq<nat>, i: nat)
    requires channels > 0 && Drafted(version, b, q, channels, grs, scfsi) && i < |grs|
    ensures |grs[i].scalefac| == SFBMAX
  {
    hide Telling, Preserved;
    assert Finished(version, b, grs[i]);
  }

  lemma FinishedScaled(version: nat, b: Bands, g: GrInfo)
    requires Finished(version, b, g)
    ensures Scaled(version, g)
  {
  }

  lemma CodedOne(q: Quantizer, gr: nat, asks: seq<int>, ch: nat, before: seq<GrInfo>, tt: seq<GrInfo>, at: nat)
    requires ch < |asks| && |before| == at + ch && |tt| == at + ch + 1 && tt[..|before|] == before
    requires CodedRow(q, gr, asks[..ch], before, at) && CodedBy(q, gr, ch, asks[ch], tt[at + ch], tt[ch].scalefac)
    ensures CodedRow(q, gr, asks[..ch + 1], tt, at) && tt[..at] == before[..at]
  {
    hide CodedBy;
    CodedStays(q, gr, asks[..ch], before, tt, at);
    assert tt[..at] == tt[..|before|][..at];
    forall c | 0 <= c < ch + 1
      ensures CodedBy(q, gr, c, asks[..ch + 1][c], tt[at + c], tt[c].scalefac)
    {
      if c < ch { assert asks[..ch][c] == asks[c]; }
    }
  }

  /** One granule, channel by channel. */
  method QuantizeGranule(r: Reservoir, d: Divider, gr: nat, targets: seq<int>, q: Quantizer,
                         tt0: seq<GrInfo>, adjust: bool)
    returns (tt: seq<GrInfo>, scfsi: seq<nat>)
    requires Working(r, d) && gr < r.modeGr && 1 <= |targets| <= 2
    requires (forall c | 0 <= c < |targets| :: 0 <= targets[c] <= MAX_BITS_PER_CHANNEL)
    requires KeepsRow(r.modeGr - 1, d.bands, q, gr, targets)
    requires Made(r.modeGr - 1, d.bands, q, |targets|, tt0, []) && |tt0| == Times(gr, |targets|)
    modifies r`resvSize
    ensures Made(r.modeGr - 1, d.bands, q, |targets|, tt, scfsi)
    ensures |tt| == |tt0| + |targets| && |scfsi| == if gr == 1 then 4 * |targets| else 0
    ensures tt[..|tt0|] == tt0 && CodedRow(q, gr, targets, tt, |tt0|)
    ensures UsedBits(tt) <= UsedBits(tt0) + Reservoirs.Sum(targets)
    ensures r.resvSize == old(r.resvSize) - if adjust then UsedBits(tt) - UsedBits(tt0) else 0
  {
    hide Made, Keeps, Reservoirs.Sum, UsedBits, Working, CodedBy;
    var channels := |targets|;
    tt, scfsi := tt0, [];
    assert targets[..0] == [];
    SumNone();
    for ch := 0 to channels
      invariant |tt| == |tt0| + ch && |scfsi| == if gr == 1 then 4 * ch else 0
      invariant Made(r.modeGr - 1, d.bands, q, channels, tt, scfsi)
      invariant tt[..|tt0|] == tt0 && CodedRow(q, gr, targets[..ch], tt, |tt0|)
      invariant UsedBits(tt) <= UsedBits(tt0) + Reservoirs.Sum(targets[..ch])
      invariant r.resvSize == old(r.resvSize) - if adjust then UsedBits(tt) - UsedBits(tt0) else 0
    {
      SumAppend(targets[..ch], targets[ch]);
      assert targets[..ch + 1] == targets[..ch] + [targets[ch]];
      ghost var before := tt;
      tt, scfsi := QuantizeOne(r, d, gr, ch, channels, targets[ch], q, tt, scfsi, adjust);
      CodedOne(q, gr, targets, ch, before, tt, |tt0|);
    }
    assert targets[..channels] == targets;
  }

  /** All granules of a frame at once, for the loops that decide on the frame afterwards. */
  method QuantizeFrame(r: Reservoir, d: Divider, channels: nat, targets: seq<seq<int>>, q: Quantizer, adjust: bool)
    returns (tt: seq<GrInfo>, scfsi: seq<nat>)
    requires Working(r, d) && 1 <= channels <= 2 && |targets| == r.modeGr && Targeted(targets, channels)
    requires KeepsAll(r.modeGr - 1, d.bands, q, targets)
    modifies r`resvSize
    ensures Made(r.modeGr - 1, d.bands, q, channels, tt, scfsi)
    ensures |tt| == Times(r.modeGr, channels) && |scfsi| == if r.modeGr == 2 then 4 * channels else 0
    ensures UsedBits(tt) <= Total(targets) && CodedFor(q, targets, channels, tt)
    ensures r.resvSize == old(r.resvSize) - if adjust then UsedBits(tt) else 0
  {
    hide Made, KeepsRow, Reservoirs.Sum, UsedBits, Divider.Ready, Times, CodedRow;
    tt, scfsi := [], [];
    NothingMade(r.modeGr - 1, d.bands, q, channels);
    TimesStep(0, channels);
    for gr := 0 to r.modeGr
      invariant |tt| == Times(gr, channels) && |scfsi| == if gr == 2 then 4 * channels else 0
      invariant Made(r.modeGr - 1, d.bands, q, channels, tt, scfsi)
      invariant UsedBits(tt) <= Total(targets[..gr]) && CodedFor(q, targets[..gr], channels, tt)
      invariant r.resvSize == old(r.resvSize) - if adjust then UsedBits(tt) else 0
    {
      TimesStep(gr, channels);
      assert targets[..gr + 1][..gr] == targets[..gr];
      assert scfsi == [];
      ghost var before := tt;
      tt, scfsi := QuantizeGranule(r, d, gr, targets[gr], q, tt, adjust);
      CodedMore(q, targets, gr, channels, before, tt);
    }
    assert targets[..r.modeGr] == targets;
  }

  /** Bits for each granule and channel. */
  ghost predicate Targeted(targets: seq<seq<int>>, channels: nat) {
    forall gr | 0 <= gr < |targets| ::
      |targets[gr]| == channels && forall c | 0 <= c < channels :: 0 <= targets[gr][c] <= MAX_BITS_PER_CHANNEL
  }

  function Total(targets: seq<seq<int>>): int {
    if targets == [] then 0 else Total(targets[..|targets| - 1]) + Reservoirs.Sum(targets[|targets| - 1])
  }

  method CountTotal(targets: seq<seq<int>>) returns (bits: int)
    ensures bits == Total(targets)
  {
    hide Reservoirs.Sum;
    bits := 0;
    for gr := 0 to |targets|
      invariant bits == Total(targets[..gr])
    {
      TotalNext(targets, gr);
      var row := 0;
      SumNone();
      assert targets[gr][..0] == [];
      for ch := 0 to |targets[gr]|
        invariant row == Reservoirs.Sum(targets[gr][..ch])
      {
        SumAppend(targets[gr][..ch], targets[gr][ch]);
        assert targets[gr][..ch + 1] == targets[gr][..ch] + [targets[gr][ch]];
        row := row + targets[gr][ch];
      }
      assert targets[gr][..|targets[gr]|] == targets[gr];
      bits := bits + row;
    }
    assert targets[..|targets|] == targets;
  }

  lemma TotalNext(targets: seq<seq<int>>, gr: nat)
    requires gr < |targets|
    ensures Total(targets[..gr + 1]) == Total(targets[..gr]) + Reservoirs.Sum(targets[gr])
  {
    assert targets[..gr + 1][..gr] == targets[..gr];
  }
}

/** The iteration loops of quantize.c around a quantizer, and the reservoir over a frame. */
module Loops {
  import opened Bits
  import opened Granule
  import opened Reservoirs
  import opened Takehiro
  import opened Finish
  import opened Quantizing
  import opened VbrFrame

  /** What the writer needs to know of the reservoir: what a frame of `size` bits with the granules `grs` leaves. */
  ghost predicate Settled(r: Reservoir, size: int, grs: seq<GrInfo>, before: int)
    reads r
  {
    && 0 <= r.mainDataBegin && 0 <= r.resvDrainPre && r.resvDrainPre % 8 == 0 && 0 <= r.resvDrainPost
    && 8 * r.mainDataBegin + r.resvDrainPre == before
    && r.resvSize == before + size - 8 * r.sideinfoLen - UsedBits(grs) - r.resvDrainPre - r.resvDrainPost
    && 0 <= r.resvSize <= r.resvMax && r.resvSize % 8 == 0
    && 0 <= r.resvMax <= r.ResvLimit() && (r.disableReservoir ==> r.resvMax == 0)
  }

  // ----- CBR

  /** What the granules of a frame are asked for by: what the psychoacoustic model says, and the reservoir. */
  datatype Means = Means(pe: seq<seq<real>>, ms: bool, ratio: seq<real>, resvMax: int, noReservoir: bool,
                         substep: bool, meanBits: int)

  /** What granule `gr` asks its quantizer for, with `held` bits in the reservoir: on_pe's targets, and for mid and side
      channel what reduce_side makes of them. */
  ghost predicate CbrAsks(m: Means, gr: nat, held: int, asks: seq<int>) {
    && gr < |m.pe| && gr < |m.ratio|
    && exists maxBits: int, even: seq<int> ::
        && OnPeGives(held + (if gr == 1 then m.meanBits else 0), m.resvMax, m.noReservoir, m.substep, m.meanBits,
            m.pe[gr],
                     maxBits, even)
        && Sided(m, gr, even, maxBits, asks)
  }

  ghost predicate Sided(m: Means, gr: nat, even: seq<int>, maxBits: int, asks: seq<int>)
    requires gr < |m.ratio|
  {
    if m.ms then SideReduced(even, m.ratio[gr], m.meanBits, maxBits, asks) else asks == even
  }

  /** `m` is what reservoir and granule `gr` have. */
  ghost predicate MeansOf(m: Means, r: Reservoir, gr: nat)
    reads r
  {
    && m.resvMax == r.resvMax && m.noReservoir == r.disableReservoir && m.substep == Odd(r.substepShaping)
    && 0 <= m.meanBits && 0 <= m.resvMax && 0 <= r.resvSize + (if gr == 1 then m.meanBits else 0)
    && gr < |m.pe| && gr < |m.ratio| && 1 <= |m.pe[gr]| <= 2 && (m.ms ==> |m.pe[gr]| == 2)
  }

  /** The targets of a granule of CBR_iteration_loop: never more bits than the granule has and the reservoir holds. */
  method CbrTargets(r: Reservoir, gr: nat, targBits: array<int>, m: Means)
    requires MeansOf(m, r, gr) && targBits.Length == |m.pe[gr]|
    modifies r`substepShaping, targBits
    ensures Odd(r.substepShaping) == m.substep && CbrAsks(m, gr, r.resvSize, targBits[..])
    ensures forall ch | 0 <= ch < targBits.Length :: 0 <= targBits[ch] <= MAX_BITS_PER_CHANNEL
    ensures Reservoirs.Sum(targBits[..]) <= r.resvSize + if gr == 1 then 2 * m.meanBits else m.meanBits
  {
    hide Reservoirs.Sum, OnPeGives, SideReduced, Odd;
    var maxBits := r.OnPe(m.pe[gr], targBits, m.meanBits, gr == 1);
    ghost var even := targBits[..];
    if m.ms {
      SumTwo(targBits[..]);
      ReduceSide(targBits, m.ratio[gr], m.meanBits, maxBits);
    }
    assert Sided(m, gr, even, maxBits, targBits[..]);
  }

  /** One granule of CBR_iteration_loop. */
  method CbrGranule(r: Reservoir, d: Divider, gr: nat, targBits: array<int>, m: Means, q: Quantizer, tt0: seq<GrInfo>)
    returns (tt: seq<GrInfo>, scfsi: seq<nat>, ghost asks: seq<int>)
    requires Working(r, d) && gr < r.modeGr && MeansOf(m, r, gr) && targBits.Length == |m.pe[gr]|
    requires Obedient(r.modeGr - 1, d.bands, q)
    requires Made(r.modeGr - 1, d.bands, q, |m.pe[gr]|, tt0, []) && |tt0| == Times(gr, |m.pe[gr]|)
    modifies r`resvSize, r`substepShaping, targBits
    ensures Made(r.modeGr - 1, d.bands, q, |m.pe[gr]|, tt, scfsi)
    ensures |tt| == |tt0| + |m.pe[gr]| && |scfsi| == if gr == 1 then 4 * |m.pe[gr]| else 0
    ensures r.resvSize + UsedBits(tt) == old(r.resvSize) + UsedBits(tt0)
    ensures r.resvSize >= if gr == 1 then -2 * m.meanBits else -m.meanBits
    ensures Odd(r.substepShaping) == m.substep && tt[..|tt0|] == tt0 && |asks| == |m.pe[gr]|
    ensures CodedRow(q, gr, asks, tt, |tt0|) && CbrAsks(m, gr, old(r.resvSize), asks)
  {
    hide Made, Obedient, Reservoirs.Sum, UsedBits, Working, Times, CodedRow, CbrAsks, Odd;
    CbrTargets(r, gr, targBits, m);
    asks := targBits[..];
    ObedientKeepsRow(r.modeGr - 1, d.bands, q, gr, targBits[..]);
    tt, scfsi := QuantizeGranule(r, d, gr, targBits[..], q, tt0, true);
  }

  /** So for each granule of a frame, when the reservoir, which held `held` before, lacks what the granules before it
      have taken. */
  ghost predicate AllAsked(m: Means, held: int, channels: nat, tt: seq<GrInfo>, asks: seq<seq<int>>) {
    forall gr | 0 <= gr < |asks| :: AskedAfter(m, held, Times(gr, channels), tt, gr, asks[gr])
  }

  ghost predicate AskedAfter(m: Means, held: int, done: nat, tt: seq<GrInfo>, gr: nat, asks: seq<int>) {
    done <= |tt| && CbrAsks(m, gr, held - UsedBits(tt[..done]), asks)
  }

  lemma NothingAsked(m: Means, held: int, channels: nat, q: Quantizer)
    ensures AllAsked(m, held, channels, [], []) && Times(0, channels) == 0 && CodedFor(q, [], channels, [])
  {
  }

  lemma AskedMore(m: Means, held: int, channels: nat, before: seq<GrInfo>, tt: seq<GrInfo>, asks: seq<seq<int>>,
                  row: seq<int>)
    requires |before| == Times(|asks|, channels) <= |tt| && tt[..|before|] == before
    requires AllAsked(m, held, channels, before, asks) && CbrAsks(m, |asks|, held - UsedBits(before), row)
    ensures AllAsked(m, held, channels, tt, asks + [row])
  {
    hide CbrAsks, UsedBits, Times;
    var all := asks + [row];
    forall gr | 0 <= gr < |all|
      ensures AskedAfter(m, held, Times(gr, channels), tt, gr, all[gr])
    {
      TimesMonotone(gr, |asks|, channels);
      assert tt[..Times(gr, channels)] == before[..Times(gr, channels)];
    }
  }

  /** The loop of CBR_iteration_loop. */
  method CbrGranules(r: Reservoir, d: Divider, channels: nat, m: Means, q: Quantizer)
    returns (tt: seq<GrInfo>, scfsi: seq<nat>, ghost asks: seq<seq<int>>)
    requires Working(r, d) && r.resvMax == m.resvMax >= 0 && r.disableReservoir == m.noReservoir
    requires 0 <= r.resvSize && 0 <= m.meanBits && m.substep == Odd(r.substepShaping)
    requires 1 <= channels <= 2 && |m.pe| == |m.ratio| == r.modeGr && (m.ms ==> channels == 2)
    requires forall gr | 0 <= gr < |m.pe| :: |m.pe[gr]| == channels
    requires Obedient(r.modeGr - 1, d.bands, q)
    modifies r`resvSize, r`substepShaping
    ensures Made(r.modeGr - 1, d.bands, q, channels, tt, scfsi)
    ensures |tt| == Times(r.modeGr, channels) && |scfsi| == if r.modeGr == 2 then 4 * channels else 0
    ensures r.resvSize + UsedBits(tt) == old(r.resvSize) && r.resvSize >= -(r.modeGr * m.meanBits)
    ensures |asks| == r.modeGr && CodedFor(q, asks, channels, tt) && AllAsked(m, old(r.resvSize), channels, tt, asks)
  {
    hide Made, Obedient, UsedBits, Times, Divider.Ready, CodedRow, CbrAsks, Odd, AllAsked, CodedFor;
    asks := [];
    ghost var held := r.resvSize;
    var targBits := new int[channels];
    tt, scfsi := [], [];
    NothingMade(r.modeGr - 1, d.bands, q, channels);
    NothingAsked(m, held, channels, q);
    for gr := 0 to r.modeGr
      modifies r`resvSize, r`substepShaping, targBits
      invariant |tt| == Times(gr, channels) && |scfsi| == if gr == 2 then 4 * channels else 0
      invariant Made(r.modeGr - 1, d.bands, q, channels, tt, scfsi)
      invariant r.resvSize + UsedBits(tt) == held && Odd(r.substepShaping) == m.substep
      invariant r.resvSize >= if gr == 0 then 0 else if gr == 1 then -m.meanBits else -2 * m.meanBits
      invariant |asks| == gr && CodedFor(q, asks, channels, tt) && AllAsked(m, held, channels, tt, asks)
    {
      TimesStep(gr, channels);
      assert scfsi == [];
      ghost var before, row := tt, [];
      tt, scfsi, row := CbrGranule(r, d, gr, targBits, m, q, tt);
      AskedMore(m, held, channels, before, tt, asks, row);
      CodedNext(q, asks, row, channels, before, tt);
      asks := asks + [row];
    }
  }

  /** CBR_iteration_loop: `pe` and `msEnerRatio` come from the psychoacoustic model. */
  method CbrIterationLoop(r: Reservoir, d: Divider, frameLength: int, channels: nat, pe: seq<seq<real>>, ms: bool,
                          msEnerRatio: seq<real>, q: Quantizer)
    returns (tt: seq<GrInfo>, scfsi: seq<nat>, ghost asks: seq<seq<int>>)
    requires r.Safe() && Working(r, d) && frameLength % 8 == 0 && 8 * r.sideinfoLen <= frameLength
    requires 1 <= channels <= 2 && |pe| == r.modeGr && (forall gr | 0 <= gr < |pe| :: |pe[gr]| == channels)
    requires |msEnerRatio| == r.modeGr && (ms ==> channels == 2)
    requires Obedient(r.modeGr - 1, d.bands, q)
    modifies r
    ensures Made(r.modeGr - 1, d.bands, q, channels, tt, scfsi)
    ensures |tt| == Times(r.modeGr, channels) && |scfsi| == if r.modeGr == 2 then 4 * channels else 0
    ensures Settled(r, frameLength, tt, old(r.resvSize))
    ensures |asks| == r.modeGr && CodedFor(q, asks, channels, tt)
    ensures AllAsked(Means(pe, ms, msEnerRatio, r.ResvMaxOf(frameLength), r.disableReservoir,
                           Odd(old(r.substepShaping)), (frameLength - 8 * r.sideinfoLen) / r.modeGr),
                     old(r.resvSize), channels, tt, asks)
  {
    hide Made, Obedient, UsedBits, Times, Divider.Ready, Reservoir.FullFrameBits, Reservoir.ResvMaxOf, CodedRow;
    hide CbrAsks;
    hide Reservoir.MaxMp3Buf, Odd, AllAsked, CodedFor;
    var meanBits, fullFrameBits := r.ResvFrameBegin(frameLength);
    var m := Means(pe, ms, msEnerRatio, r.resvMax, r.disableReservoir, Odd(r.substepShaping), meanBits);
    tt, scfsi, asks := CbrGranules(r, d, channels, m, q);
    r.ResvFrameEnd(meanBits);
  }

  lemma CodedNext(q: Quantizer, asks: seq<seq<int>>, row: seq<int>, channels: nat, grs: seq<GrInfo>, more: seq<GrInfo>)
    requires |grs| == Times(|asks|, channels) && |more| == Times(|asks| + 1, channels) && more[..|grs|] == grs
    requires CodedFor(q, asks, channels, grs) && |row| == channels && CodedRow(q, |asks|, row, more, |grs|)
    ensures CodedFor(q, asks + [row], channels, more)
  {
    hide CodedRow, CodedFor;
    var all := asks + [row];
    assert all[..|asks|] == asks && all[..|asks| + 1] == all;
    CodedMore(q, all, |asks|, channels, grs, more);
  }

  // ----- VBR and ABR

  /** What VBR_new_iteration_loop is called with; `quiet` channels have no energy. */
  ghost predicate VbrCall(r: Reservoir, lengths: seq<int>, start: nat, vbrMax: nat, channels: nat,
                          targets: seq<seq<int>>, quiet: seq<seq<bool>>)
  {
    && r.Setup() && 1 <= start <= vbrMax < |lengths|
    && (forall i | 1 <= i <= vbrMax :: lengths[i] % 8 == 0 && 8 * r.sideinfoLen <= lengths[i])
    && 1 <= channels <= 2 && |targets| == |quiet| == r.modeGr && Targeted(targets, channels)
    && (forall gr | 0 <= gr < |targets| :: Reservoirs.Sum(targets[gr]) <= MAX_BITS_PER_GRANULE)
    && forall gr | 0 <= gr < |quiet| :: |quiet[gr]| == channels
  }

  /** What each granule may use at most: its target cut to what the largest frame can hold, and nothing in channels
      without energy. */
  ghost function MostBits(r: Reservoir, size: int, lengths: seq<int>, start: nat, vbrMax: nat, channels: nat,
                          targets: seq<seq<int>>, quiet: seq<seq<bool>>): seq<seq<int>>
    requires VbrCall(r, lengths, start, vbrMax, channels, targets, quiet) && 0 <= size
  {
    EnoughForOne(r, lengths[vbrMax], size);
    CutThenSilenced(targets, quiet, r.FullFrameBits(lengths[vbrMax], size), 0)
  }

  /** VBR_new_iteration_loop: the granules as VBR_encode_frame makes them, then the lowest bit rate whose frame holds
      them, and the reservoir after that frame.  If VBR_encode_frame is content there always is one, so that the
      internal error after the search never happens; and if it is not, some granule has taken more than its share.
      `lengths[i]` is the length of a frame with bit rate index `i`. */
  method VbrNewIterationLoop(r: Reservoir, d: Divider, lengths: seq<int>, start: nat, vbrMax: nat, channels: nat,
                             targets: seq<seq<int>>, quiet: seq<seq<bool>>, q: Quantizer, root: real -> real)
    returns (ok: bool, bitrateIndex: nat, tt: seq<GrInfo>, scfsi: seq<nat>, ghost maxBits: seq<seq<int>>,
             ghost shares: seq<seq<int>>)
    requires r.Safe() && Working(r, d) && VbrCall(r, lengths, start, vbrMax, channels, targets, quiet)
    requires Finishable(r.modeGr - 1, d.bands, q) && forall x | x >= 0.0 :: root(x) >= 0.0
    modifies r
    ensures |tt| == Times(r.modeGr, channels) && |scfsi| == if r.modeGr == 2 then 4 * channels else 0
    ensures ok ==> Made(r.modeGr - 1, d.bands, q, channels, tt, scfsi)
    ensures start <= bitrateIndex <= vbrMax
    ensures ok ==> forall i | start <= i < bitrateIndex :: UsedBits(tt) > r.FullFrameBits(lengths[i], old(r.resvSize))
    ensures ok ==> Settled(r, lengths[bitrateIndex], tt, old(r.resvSize))
    ensures maxBits == MostBits(r, old(r.resvSize), lengths, start, vbrMax, channels, targets, quiet)
    ensures Shape(maxBits, r.modeGr, channels) && Shape(shares, r.modeGr, channels)
    ensures FrameFits(shares, Total(maxBits)) && Total(maxBits) <= r.FullFrameBits(lengths[vbrMax], old(r.resvSize))
    ensures !ok ==> OverShare(q, maxBits, shares)
    ensures CodedFor(q, AsIs(maxBits), channels, tt) || CodedFor(q, Asks(maxBits, shares), channels, tt)
  {
    hide CodedFor, Made, Finishable, UsedBits, Reservoir.FullFrameBits, Reservoir.ResvMaxOf, Times, Targeted, Total;
    hide Divider.Ready, RowFits, Silenced, Reservoirs.Sum, InShares, OverShare, CutTargets, Settled;
    bitrateIndex := start;
    var frameBits := GetFrameBits(r, lengths, vbrMax);
    EnoughForOne(r, lengths[vbrMax], r.resvSize);
    var scaled := ScaleTargets(targets, channels, frameBits[vbrMax]);
    CutRows(targets, frameBits[vbrMax]);
    TargetRows(scaled, channels);
    QuietFits(scaled, quiet, channels, frameBits[vbrMax]);
    var max := Silenced(scaled, quiet, 0);
    maxBits := max;
    ghost var first, last;
    ok, tt, scfsi, first, shares, last := VbrEncodeFrame(r, d, channels, max, q, root);
    if !ok { return; }
    var usedBits := CountUsed(tt);
    while bitrateIndex < vbrMax && usedBits > frameBits[bitrateIndex]
      invariant start <= bitrateIndex <= vbrMax
      invariant forall i | start <= i < bitrateIndex :: usedBits > r.FullFrameBits(lengths[i], old(r.resvSize))
      invariant r.resvSize == old(r.resvSize) && r.mainDataBegin == old(r.mainDataBegin)
    {
      assert frameBits[bitrateIndex] == r.FullFrameBits(lengths[bitrateIndex], old(r.resvSize));
      bitrateIndex := bitrateIndex + 1;
    }
    assert usedBits <= frameBits[bitrateIndex];
    var meanBits, fullFrameBits := r.ResvFrameBegin(lengths[bitrateIndex]);
    assert usedBits <= fullFrameBits;
    Affordable(r, lengths[bitrateIndex]);
    ghost var before := r.resvSize;
    AdjustAll(r, tt);
    EndFrame(r, lengths[bitrateIndex], meanBits, tt, before);
  }

  lemma TargetRows(targets: seq<seq<int>>, channels: nat)
    requires Targeted(targets, channels)
    ensures forall gr | 0 <= gr < |targets| :: |targets[gr]| == channels
  {
  }

  /** Channels without energy get nothing; the others keep what they have. */
  lemma QuietFits(targets: seq<seq<int>>, quiet: seq<seq<bool>>, channels: nat, limit: int)
    requires |quiet| == |targets| && 1 <= channels <= 2 && Targeted(targets, channels) && Total(targets) <= limit
    requires forall gr | 0 <= gr < |quiet| :: |quiet[gr]| == |targets[gr]|
    requires forall gr | 0 <= gr < |targets| :: Reservoirs.Sum(targets[gr]) <= MAX_BITS_PER_GRANULE
    ensures var max := Silenced(targets, quiet, 0);
      && Shape(max, |targets|, channels) && FrameFits(max, Total(max)) && Total(max) <= limit
  {
    hide Total, RowFits, Reservoirs.Sum;
    var max := Silenced(targets, quiet, 0);
    forall gr | 0 <= gr < |targets|
      ensures RowFits(max[gr]) && Reservoirs.Sum(max[gr]) <= Reservoirs.Sum(targets[gr])
    {
      RowIsFit(targets[gr]);
      LessRow(max[gr], targets[gr]);
    }
    LessTotal(max, targets);
  }

  lemma RowIsFit(row: seq<int>)
    requires Reservoirs.Sum(row) <= MAX_BITS_PER_GRANULE
    requires forall ch | 0 <= ch < |row| :: row[ch] <= MAX_BITS_PER_CHANNEL
    ensures RowFits(row)
  {
  }

  lemma EnoughForOne(r: Reservoir, frameLength: int, size: int)
    requires r.Setup() && 8 * r.sideinfoLen <= frameLength && 0 <= size
    ensures r.FullFrameBits(frameLength, size) >= 0
  {
  }

  /** The targets cut to what a frame can hold: each gets its share of that if they are more. */
  function CutTargets(targets: seq<seq<int>>, limit: int): (cut: seq<seq<int>>)
    requires 0 <= limit
    ensures |cut| == |targets|
  {
    var bits := Total(targets);
    if bits <= limit then targets
    else seq(|targets|, gr requires 0 <= gr < |targets| => CutRow(targets[gr], limit, bits))
  }

  function CutRow(row: seq<int>, limit: nat, bits: nat): (cut: seq<int>)
    requires 0 < bits
    ensures |cut| == |row|
  {
    seq(|row|, ch requires 0 <= ch < |row| => Share(limit, row[ch], bits))
  }

  /** What VBR_new_prepare and calc_target_bits do when the targets are more than a frame can hold. */
  method ScaleTargets(targets: seq<seq<int>>, channels: nat, limit: int) returns (scaled: seq<seq<int>>)
    requires 1 <= channels <= 2 && Targeted(targets, channels) && 0 <= limit
    ensures |scaled| == |targets| && Targeted(scaled, channels) && Total(scaled) <= limit
    ensures scaled == CutTargets(targets, limit)
    ensures forall gr | 0 <= gr < |targets| :: Reservoirs.Sum(scaled[gr]) <= Reservoirs.Sum(targets[gr])
  {
    hide Times, Total, Reservoirs.Sum;
    var bits := CountTotal(targets);
    if bits <= limit { return targets; }
    scaled := [];
    NoTotal(bits, limit);
    for gr := 0 to |targets|
      invariant |scaled| == gr && Targeted(scaled, channels)
      invariant forall k | 0 <= k < gr :: scaled[k] == CutRow(targets[k], limit, bits)
      invariant forall k | 0 <= k < gr :: Reservoirs.Sum(scaled[k]) <= Reservoirs.Sum(targets[k])
      invariant 0 <= Total(scaled) && 0 <= Total(targets[..gr])
      invariant Times(Total(scaled), bits) <= Times(limit, Total(targets[..gr]))
    {
      var row := ScaleRow(targets[gr], limit, bits);
      TotalNext(targets, gr);
      TotalAppend(scaled, row);
      Distributes(Total(scaled), Reservoirs.Sum(row), bits);
      Distributes(Total(targets[..gr]), Reservoirs.Sum(targets[gr]), limit);
      scaled := scaled + [row];
    }
    assert targets[..|targets|] == targets;
    NotMore(Total(scaled), limit, bits);
  }

  lemma NoTotal(bits: nat, limit: nat)
    ensures Total([]) == 0 && Times(0, bits) == 0 == Times(limit, 0)
  {
  }

  lemma TotalAppend(targets: seq<seq<int>>, row: seq<int>)
    ensures Total(targets + [row]) == Total(targets) + Reservoirs.Sum(row)
  {
    assert (targets + [row])[..|targets|] == targets;
  }

  lemma NotMore(x: nat, limit: nat, bits: nat)
    requires 0 < bits && Times(x, bits) <= Times(limit, bits)
    ensures x <= limit
  {
    if limit < x { MulAbove(limit, x, bits); }
  }

  lemma Distributes(x: nat, y: nat, m: nat)
    ensures Times(x + y, m) == Times(x, m) + Times(y, m) && Times(m, x + y) == Times(m, x) + Times(m, y)
  {
  }

  /** One granule's share. */
  method ScaleRow(row: seq<int>, limit: nat, whole: nat) returns (out: seq<int>)
    requires 1 <= |row| <= 2 && limit < whole && forall c | 0 <= c < |row| :: 0 <= row[c] <= MAX_BITS_PER_CHANNEL
    ensures |out| == |row| && forall c | 0 <= c < |row| :: 0 <= out[c] <= MAX_BITS_PER_CHANNEL
    ensures out == CutRow(row, limit, whole)
    ensures 0 <= Reservoirs.Sum(out) <= Reservoirs.Sum(row)
    ensures Times(Reservoirs.Sum(out), whole) <= Times(limit, Reservoirs.Sum(row))
  {
    hide Share, Reservoirs.Sum;
    out := [];
    for ch := 0 to |row|
      invariant |out| == ch && forall c | 0 <= c < ch :: 0 <= out[c] <= row[c]
      invariant forall c | 0 <= c < ch :: out[c] == Share(limit, row[c], whole)
    {
      ShareLess(limit, row[ch], whole);
      out := out + [Share(limit, row[ch], whole)];
    }
    SumTwo(row);
    SumTwo(out);
    ShareLess(limit, row[0], whole);
    if |row| == 2 {
      ShareLess(limit, row[1], whole);
      Distributes(out[0], out[1], whole);
      Distributes(row[0], row[1], limit);
    }
  }

  lemma ShareLess(limit: nat, part: nat, whole: nat)
    requires limit < whole
    ensures 0 <= Share(limit, part, whole) <= part
    ensures Times(Share(limit, part, whole), whole) <= Times(limit, part)
  {
    MulMonotone(limit, whole, part);
    QuotientBound(limit * part, part, whole);
  }

  /** get_framebits: how many bits each bit rate would provide. */
  method GetFrameBits(r: Reservoir, lengths: seq<int>, vbrMax: nat) returns (frameBits: seq<int>)
    requires r.Setup() && 1 <= vbrMax < |lengths|
    requires forall i | 1 <= i <= vbrMax :: lengths[i] % 8 == 0 && 8 * r.sideinfoLen <= lengths[i]
    modifies r`resvMax, r`resvDrainPre
    ensures |frameBits| == vbrMax + 1
    ensures forall i | 1 <= i <= vbrMax :: frameBits[i] == r.FullFrameBits(lengths[i], r.resvSize)
  {
    frameBits := [0];
    for i := 1 to vbrMax + 1
      invariant |frameBits| == i && forall k | 1 <= k < i :: frameBits[k] == r.FullFrameBits(lengths[k], r.resvSize)
    {
      var meanBits, fullFrameBits := r.ResvFrameBegin(lengths[i]);
      frameBits := frameBits + [fullFrameBits];
    }
  }

  method CountUsed(tt: seq<GrInfo>) returns (used: int)
    ensures used == UsedBits(tt)
  {
    used := 0;
    for i := 0 to |tt|
      invariant used == UsedBits(tt[..i])
    {
      assert tt[..i + 1][..i] == tt[..i];
      used := used + Used(tt[i]);
    }
    assert tt[..|tt|] == tt;
  }

  method AdjustAll(r: Reservoir, tt: seq<GrInfo>)
    modifies r`resvSize
    ensures r.resvSize == old(r.resvSize) - UsedBits(tt)
  {
    for i := 0 to |tt|
      invariant r.resvSize == old(r.resvSize) - UsedBits(tt[..i])
    {
      assert tt[..i + 1][..i] == tt[..i];
      r.ResvAdjust(Used(tt[i]));
    }
    assert tt[..|tt|] == tt;
  }

  lemma Affordable(r: Reservoir, frameLength: int)
    requires r.Setup()
    ensures r.FullFrameBits(frameLength, r.resvSize) <= frameLength - 8 * r.sideinfoLen + r.resvSize
  {
    hide Reservoir.MaxMp3Buf, Reservoir.ResvMaxOf;
  }

  /** Some bit rate's frame makes up for the bits used. */
  ghost predicate Refills(size: int, sideinfoLen: int, lengths: seq<int>, vbrMin: nat, vbrMax: nat, used: int)
    requires vbrMax < |lengths|
  {
    exists i | vbrMin <= i <= vbrMax :: used <= size + lengths[i] - 8 * sideinfoLen
  }

  lemma FullExactly(r: Reservoir, frameLength: int, size: int)
    requires r.Setup() && 8 * r.sideinfoLen <= frameLength
    ensures r.FullFrameBits(frameLength, size) >= 0 <==> size + frameLength - 8 * r.sideinfoLen >= 0
  {
  }

  /** ResvFrameEnd, when the granules have been taken from the reservoir and the frame makes up for them. */
  method EndFrame(r: Reservoir, frameLength: int, meanBits: int, ghost tt: seq<GrInfo>, ghost before: int)
    requires r.Setup() && meanBits * r.modeGr == frameLength - 8 * r.sideinfoLen
    requires r.resvSize == before - UsedBits(tt) && 0 <= before == 8 * r.mainDataBegin
    requires r.resvMax % 8 == 0 && 0 <= r.resvMax <= r.ResvLimit() && (r.disableReservoir ==> r.resvMax == 0)
    requires UsedBits(tt) <= before + frameLength - 8 * r.sideinfoLen
    requires frameLength % 8 == 0
    modifies r
    ensures Settled(r, frameLength, tt, before)
  {
    hide UsedBits, Reservoir.ResvMaxOf, Reservoir.MaxMp3Buf;
    r.ResvFrameEnd(meanBits);
  }

  /** The end of ABR_iteration_loop, when the granules have been taken from the reservoir: the lowest bit rate
      that makes up for them. */
  method AbrRefill(r: Reservoir, lengths: seq<int>, vbrMin: nat, vbrMax: nat, ghost tt: seq<GrInfo>, ghost before: int)
    returns (bitrateIndex: nat, ok: bool)
    requires r.Setup() && 1 <= vbrMin <= vbrMax < |lengths|
    requires r.resvSize == before - UsedBits(tt) && 0 <= before == 8 * r.mainDataBegin
    requires forall i | 1 <= i <= vbrMax :: lengths[i] % 8 == 0 && 8 * r.sideinfoLen <= lengths[i]
    modifies r
    ensures vbrMin <= bitrateIndex <= vbrMax + 1 && (ok <==> bitrateIndex <= vbrMax)
    ensures forall i | vbrMin <= i < bitrateIndex :: UsedBits(tt) > before + lengths[i] - 8 * r.sideinfoLen
    ensures ok <==> Refills(before, r.sideinfoLen, lengths, vbrMin, vbrMax, UsedBits(tt))
    ensures ok ==> Settled(r, lengths[bitrateIndex], tt, before)
  {
    hide UsedBits, Reservoir.FullFrameBits, Reservoir.ResvMaxOf, Reservoir.ResvLimit, Refills, Settled;
    bitrateIndex := vbrMin;
    ghost var used := UsedBits(tt);
    while bitrateIndex <= vbrMax
      invariant vbrMin <= bitrateIndex <= vbrMax + 1
      invariant r.resvSize == old(r.resvSize) && r.mainDataBegin == old(r.mainDataBegin)
      invariant forall i | vbrMin <= i < bitrateIndex :: used > before + lengths[i] - 8 * r.sideinfoLen
    {
      var meanBits, fullFrameBits := r.ResvFrameBegin(lengths[bitrateIndex]);
      FullExactly(r, lengths[bitrateIndex], r.resvSize);
      if fullFrameBits >= 0 {
        RefillsBy(before, r.sideinfoLen, lengths, vbrMin, vbrMax, used, bitrateIndex);
        EndFrame(r, lengths[bitrateIndex], meanBits, tt, before);
        return bitrateIndex, true;
      }
      bitrateIndex := bitrateIndex + 1;
    }
    RefillsNot(before, r.sideinfoLen, lengths, vbrMin, vbrMax, used);
    ok := false;
  }

  lemma RefillsBy(size: int, sideinfoLen: int, lengths: seq<int>, vbrMin: nat, vbrMax: nat, used: int, i: nat)
    requires vbrMin <= i <= vbrMax < |lengths| && used <= size + lengths[i] - 8 * sideinfoLen
    ensures Refills(size, sideinfoLen, lengths, vbrMin, vbrMax, used)
  {
  }

  lemma RefillsNot(size: int, sideinfoLen: int, lengths: seq<int>, vbrMin: nat, vbrMax: nat, used: int)
    requires vbrMax < |lengths|
    requires forall i | vbrMin <= i <= vbrMax :: used > size + lengths[i] - 8 * sideinfoLen
    ensures !Refills(size, sideinfoLen, lengths, vbrMin, vbrMax, used)
  {
  }

  /** Granules in analog silence get a fixed number of bits instead of their targets. */
  function Silenced(targets: seq<seq<int>>, silent: seq<seq<bool>>, silenceBits: int): (out: seq<seq<int>>)
    requires |silent| == |targets| && forall gr | 0 <= gr < |silent| :: |silent[gr]| == |targets[gr]|
    ensures |out| == |targets|
  {
    seq(|targets|, gr requires 0 <= gr < |targets| => SilencedRow(targets[gr], silent[gr], silenceBits))
  }

  function SilencedRow(row: seq<int>, silent: seq<bool>, silenceBits: int): (out: seq<int>)
    requires |silent| == |row|
    ensures |out| == |row|
  {
    seq(|row|, ch requires 0 <= ch < |row| => if silent[ch] then silenceBits else row[ch])
  }

  /** No granule is in analog silence. */
  predicate Loud(silent: seq<seq<bool>>) {
    forall gr, ch | 0 <= gr < |silent| && 0 <= ch < |silent[gr]| :: !silent[gr][ch]
  }

  lemma SilencedFits(targets: seq<seq<int>>, silent: seq<seq<bool>>, channels: nat, silenceBits: int)
    requires |silent| == |targets| && Targeted(targets, channels) && 0 <= silenceBits <= MAX_BITS_PER_CHANNEL
    requires forall gr | 0 <= gr < |silent| :: |silent[gr]| == channels
    ensures Targeted(Silenced(targets, silent, silenceBits), channels)
    ensures Loud(silent) ==> Silenced(targets, silent, silenceBits) == targets
  {
    var out := Silenced(targets, silent, silenceBits);
    if Loud(silent) {
      assert forall gr | 0 <= gr < |out| :: out[gr] == targets[gr];
    }
  }

  /** Targets cut to what a frame can hold, and then those of silent granules replaced. */
  function CutThenSilenced(targets: seq<seq<int>>, silent: seq<seq<bool>>, limit: int, silenceBits: int): seq<seq<int>>
    requires 0 <= limit && |silent| == |targets| && forall gr | 0 <= gr < |silent| :: |silent[gr]| == |targets[gr]|
  {
    CutRows(targets, limit);
    Silenced(CutTargets(targets, limit), silent, silenceBits)
  }

  lemma CutRows(targets: seq<seq<int>>, limit: int)
    requires 0 <= limit
    ensures forall gr | 0 <= gr < |targets| :: |CutTargets(targets, limit)[gr]| == |targets[gr]|
  {
  }

  /** analog_silence_bits of calc_target_bits. */
  function SilenceBits(r: Reservoir, lengths: seq<int>, channels: nat): int
    requires r.Setup() && 1 <= channels && 1 < |lengths|
  {
    (lengths[1] - 8 * r.sideinfoLen) / (r.modeGr * channels)
  }

  /** What the loop is called with. */
  ghost predicate AbrCall(r: Reservoir, lengths: seq<int>, vbrMin: nat, vbrMax: nat, channels: nat,
                          targets: seq<seq<int>>, silent: seq<seq<bool>>)
  {
    && r.Setup() && 1 <= vbrMin <= vbrMax < |lengths|
    && (forall i | 1 <= i <= vbrMax :: lengths[i] % 8 == 0 && 8 * r.sideinfoLen <= lengths[i])
    && lengths[1] - 8 * r.sideinfoLen <= MAX_BITS_PER_CHANNEL
    && 1 <= channels <= 2 && |targets| == |silent| == r.modeGr && Targeted(targets, channels)
    && forall gr | 0 <= gr < |silent| :: |silent[gr]| == channels
  }

  /** The targets of such a call, with `size` bits in the reservoir. */
  ghost function LastTargets(r: Reservoir, size: int, lengths: seq<int>, vbrMin: nat, vbrMax: nat, channels: nat,
                             targets: seq<seq<int>>, silent: seq<seq<bool>>): seq<seq<int>>
    requires AbrCall(r, lengths, vbrMin, vbrMax, channels, targets, silent) && 0 <= size
  {
    EnoughForOne(r, lengths[vbrMax], size);
    CutThenSilenced(targets, silent, r.FullFrameBits(lengths[vbrMax], size), SilenceBits(r, lengths, channels))
  }

  lemma LastFits(r: Reservoir, size: int, lengths: seq<int>, vbrMin: nat, vbrMax: nat, channels: nat,
                 targets: seq<seq<int>>, silent: seq<seq<bool>>)
    requires AbrCall(r, lengths, vbrMin, vbrMax, channels, targets, silent) && 0 <= size
    ensures Targeted(LastTargets(r, size, lengths, vbrMin, vbrMax, channels, targets, silent), channels)
  {
    hide Reservoir.FullFrameBits, Silenced, CutTargets, SilenceBits, Total;
    EnoughForOne(r, lengths[vbrMax], size);
    var limit := r.FullFrameBits(lengths[vbrMax], size);
    SilenceFits(r, lengths, channels);
    CutFits(targets, limit, channels);
    CutRows(targets, limit);
    SilencedFits(CutTargets(targets, limit), silent, channels, SilenceBits(r, lengths, channels));
  }

  lemma CutFits(targets: seq<seq<int>>, limit: int, channels: nat)
    requires 0 <= limit && Targeted(targets, channels)
    ensures Targeted(CutTargets(targets, limit), channels)
  {
    hide Total, Share;
    var bits := Total(targets);
    if bits > limit {
      forall gr, ch | 0 <= gr < |targets| && 0 <= ch < channels
        ensures 0 <= CutTargets(targets, limit)[gr][ch] <= MAX_BITS_PER_CHANNEL
      {
        ShareLess(limit, targets[gr][ch], bits);
      }
    }
  }

  /** ABR_iteration_loop.  `ok` is the assertion at the end of the search: it holds exactly if some frame makes up for
      the bits used, so whenever one would for all the targets together; a quantizer that uses its targets to the full
      fails beyond that. */
  method AbrIterationLoop(r: Reservoir, d: Divider, lengths: seq<int>, vbrMin: nat, vbrMax: nat, channels: nat,
                          targets: seq<seq<int>>, silent: seq<seq<bool>>, q: Quantizer)
    returns (bitrateIndex: nat, ok: bool, tt: seq<GrInfo>, scfsi: seq<nat>)
    requires r.Safe() && Working(r, d) && AbrCall(r, lengths, vbrMin, vbrMax, channels, targets, silent)
    requires KeepsAll(r.modeGr - 1, d.bands, q,
                      LastTargets(r, r.resvSize, lengths, vbrMin, vbrMax, channels, targets, silent))
    modifies r
    ensures Made(r.modeGr - 1, d.bands, q, channels, tt, scfsi)
    ensures |tt| == Times(r.modeGr, channels) && |scfsi| == if r.modeGr == 2 then 4 * channels else 0
    ensures vbrMin <= bitrateIndex <= vbrMax + 1 && (ok <==> bitrateIndex <= vbrMax)
    ensures forall i | vbrMin <= i < bitrateIndex :: UsedBits(tt) > old(r.resvSize) + lengths[i] - 8 * r.sideinfoLen
    ensures ok ==> Settled(r, lengths[bitrateIndex], tt, old(r.resvSize))
    ensures ok <==> Refills(old(r.resvSize), r.sideinfoLen, lengths, vbrMin, vbrMax, UsedBits(tt))
    ensures var all := Total(LastTargets(r, old(r.resvSize), lengths, vbrMin, vbrMax, channels, targets, silent));
      && UsedBits(tt) <= all
      && (Refills(old(r.resvSize), r.sideinfoLen, lengths, vbrMin, vbrMax, all) ==> ok)
      && (UsedBits(tt) == all ==> (ok <==> Refills(old(r.resvSize), r.sideinfoLen, lengths, vbrMin, vbrMax, all)))
    ensures UsedBits(tt) <= r.FullFrameBits(lengths[vbrMax], old(r.resvSize)) ==> ok
    ensures CodedFor(q, LastTargets(r, old(r.resvSize), lengths, vbrMin, vbrMax, channels, targets, silent),
        channels, tt)
    ensures Loud(silent) ==> ok
  {
    hide CodedFor, Loud, Made, KeepsRow, UsedBits, Reservoir.FullFrameBits, Reservoir.ResvMaxOf, Times, Total;
    hide Divider.Ready;
    hide CutTargets, Silenced, Targeted, SilenceBits;
    ghost var before := r.resvSize;
    var meanBits, maxFrameBits := r.ResvFrameBegin(lengths[vbrMax]);
    EnoughForOne(r, lengths[vbrMax], before);
    var silenceBits := SilenceBits(r, lengths, channels);
    SilenceFits(r, lengths, channels);
    var scaled := ScaleTargets(targets, channels, maxFrameBits);
    SilencedFits(scaled, silent, channels, silenceBits);
    TargetRows(scaled, channels);
    var last := Silenced(scaled, silent, silenceBits);
    assert last == LastTargets(r, before, lengths, vbrMin, vbrMax, channels, targets, silent);
    tt, scfsi := QuantizeFrame(r, d, channels, last, q, true);
    if UsedBits(tt) <= r.FullFrameBits(lengths[vbrMax], before) {
      AffordsMore(r, lengths, vbrMin, vbrMax, before, UsedBits(tt));
    }
    RefillsLess(before, r.sideinfoLen, lengths, vbrMin, vbrMax, UsedBits(tt), Total(last));
    bitrateIndex, ok := AbrRefill(r, lengths, vbrMin, vbrMax, tt, before);
  }

  lemma AffordsMore(r: Reservoir, lengths: seq<int>, vbrMin: nat, vbrMax: nat, size: int, used: int)
    requires r.Setup() && vbrMin <= vbrMax < |lengths| && used <= r.FullFrameBits(lengths[vbrMax], size)
    ensures Refills(size, r.sideinfoLen, lengths, vbrMin, vbrMax, used)
  {
    hide Reservoir.MaxMp3Buf, Reservoir.ResvMaxOf;
    assert used <= size + lengths[vbrMax] - 8 * r.sideinfoLen;
  }

  lemma RefillsLess(size: int, sideinfoLen: int, lengths: seq<int>, vbrMin: nat, vbrMax: nat, used: int, all: int)
    requires vbrMax < |lengths| && used <= all
    ensures Refills(size, sideinfoLen, lengths, vbrMin, vbrMax, all) ==>
      Refills(size, sideinfoLen, lengths, vbrMin, vbrMax, used)
  {
  }

  lemma SilenceFits(r: Reservoir, lengths: seq<int>, channels: nat)
    requires r.Setup() && 1 <= channels <= 2 && 1 < |lengths|
    requires 0 <= lengths[1] - 8 * r.sideinfoLen <= MAX_BITS_PER_CHANNEL
    ensures 0 <= SilenceBits(r, lengths, channels) <= MAX_BITS_PER_CHANNEL
  {
    var n := r.modeGr * channels;
    assert n in {1, 2, 4};
  }
}

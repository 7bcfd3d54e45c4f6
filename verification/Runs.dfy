/** Whole frames and whole streams, in any mix of constant, variable and average bit rate: what comes out is read
    back. */
module Runs {
  import opened Bits
  import opened Framing
  import opened SideInfo
  import opened FrameSizes
  import opened Granule
  import opened Output
  import opened Bitstream
  import opened Stream
  import opened Reservoirs
  import opened Frames
  import opened Huffman
  import opened Crc
  import opened Decoder
  import opened Takehiro
  import opened Finish
  import opened Loops
  import opened Quantizing
  import opened VbrFrame

  // ----- whole frames

  lemma {:induction false} MainLength(version: nat, b: Bands, grs: seq<GrInfo>)
    requires AllFinished(version, b, grs)
    ensures |MainBits(version, b, grs)| == UsedBits(grs)
  {
    hide DataOf, Finished;
    if grs != [] {
      var n := |grs| - 1;
      MainLength(version, b, grs[..n]);
      FinishedLength(version, b, grs[n]);
    }
  }

  lemma FinishedLength(version: nat, b: Bands, g: GrInfo)
    requires Finished(version, b, g)
    ensures |DataOf(version, b, g)| == Used(g)
  {
    hide GranuleBits;
    GranuleLength(version, b, g);
  }

  /** The side information of finished granules, which fits its fields. */
  lemma {:induction false} SidesFor(version: nat, b: Bands, grs: seq<GrInfo>) returns (sides: seq<GrSide>)
    requires AllFinished(version, b, grs)
    ensures |sides| == |grs|
    ensures forall i | 0 <= i < |grs| :: ToldBy(version, b, grs[i], sides[i])
    ensures forall i | 0 <= i < |grs| :: WellFormedGr(version, sides[i])
  {
    hide Finished, ToldBy, WellFormedGr, Used;
    if grs == [] {
      sides := [];
    } else {
      var n := |grs| - 1;
      var rest := SidesFor(version, b, grs[..n]);
      var s := SideForOne(version, b, grs[n]);
      sides := rest + [s];
    }
  }

  lemma SideForOne(version: nat, b: Bands, g: GrInfo) returns (s: GrSide)
    requires Finished(version, b, g) && Used(g) <= MAX_BITS_PER_CHANNEL
    ensures ToldBy(version, b, g, s) && WellFormedGr(version, s)
  {
    GranuleLength(version, b, g);
    s := GrSideOf(version, g);
    hide Counted, GranuleBits, AllFit;
    LengthFits(version, s);
  }

  lemma LengthFits(version: nat, s: GrSide)
    requires WellFormedGr(version, s.(part23Length := 0)) && s.part23Length <= MAX_BITS_PER_CHANNEL
    ensures WellFormedGr(version, s)
  {
    var fs, gs := GrFields(version, s), GrFields(version, s.(part23Length := 0));
    assert Pow2(12) == 4096 by { assert Pow2(8) == 256; }
    forall i | 0 <= i < |fs| ensures Fits(fs[i]) {
      assert i > 0 ==> fs[i] == gs[i];
    }
  }

  /** How many bits a frame gets.  `pe` and `msEnerRatio` come from the psychoacoustic model; `targets` are the bits
      for each granule and channel before they are cut to what a frame can hold; `silent` granules are in analog
      silence, `quiet` ones have no energy at all; `root` is the square root, however it is rounded. */
  datatype Budget =
    | Cbr(pe: seq<seq<real>>, ms: bool, msEnerRatio: seq<real>)
    | Vbr(targets: seq<seq<int>>, quiet: seq<seq<bool>>, start: nat, vbrMax: nat, root: real -> real)
    | Abr(targets: seq<seq<int>>, silent: seq<seq<bool>>, vbrMin: nat, vbrMax: nat)

  /** What the stages before the quantization decide about a frame; the bit rate index of the header counts only
      with a constant bit rate. */
  datatype FrameInput = FrameInput(head: Head, privateBits: nat, budget: Budget, quantizer: Quantizer)

  ghost predicate Configured(w: Writer, d: Divider, version: nat)
    reads d
  {
    && version < 2 && w.resv.modeGr == version + 1 && w.resv.sideinfoLen == w.out.sideinfoLen
    && w.minRoom == (if version == 1 then 58 else 2)
    && Working(w.resv, d) && d.bands == w.out.bands
  }

  /** The header is one of this stream's. */
  ghost predicate FitHead(w: Writer, version: nat, h: Head) {
    && WellFormedHead(h) && Rated(h) && h.version == version
    && SideinfoLen(h) == w.out.sideinfoLen && w.outSamplerate == SamplerateTable(version, h.mpeg25, h.samplerateIndex)
  }

  /** The header makes a frame of this stream.  The setting whose frames may have room for a single byte is the only
      one left out. */
  ghost predicate GoodHead(w: Writer, version: nat, h: Head) {
    FitHead(w, version, h) && !OneByteRoom(h)
  }

  ghost predicate Affords(w: Writer, version: nat, h: Head, x: Budget) {
    var channels, modeGr := Channels(h), version + 1;
    match x
    case Cbr(pe, ms, ratio) =>
      && GoodHead(w, version, h) && |pe| == |ratio| == modeGr && (forall gr | 0 <= gr < |pe| :: |pe[gr]| == channels)
      && (ms ==> channels == 2)
    case Vbr(targets, quiet, start, max, root) =>
      && GoodRates(w, version, h, start, max) && (forall x | x >= 0.0 :: root(x) >= 0.0)
      && |targets| == |quiet| == modeGr && Targeted(targets, channels)
      && (forall gr | 0 <= gr < |targets| :: Reservoirs.Sum(targets[gr]) <= MAX_BITS_PER_GRANULE)
      && forall gr | 0 <= gr < |quiet| :: |quiet[gr]| == channels
    case Abr(targets, silent, min, max) =>
      && GoodRates(w, version, h, min, max)
      && |targets| == |silent| == modeGr && Targeted(targets, channels)
      && forall gr | 0 <= gr < |silent| :: |silent[gr]| == channels
  }

  /** All bit rates up to the largest are there, and those that a frame may get make frames of this stream. */
  ghost predicate GoodRates(w: Writer, version: nat, h: Head, min: nat, max: nat) {
    && 1 <= min <= max <= 14 && (forall i | 1 <= i <= max :: FitHead(w, version, h.(bitrateIndex := i)))
    && forall i | min <= i <= max :: GoodHead(w, version, h.(bitrateIndex := i))
  }

  /** The input makes a frame of this stream. */
  ghost predicate Acceptable(w: Writer, version: nat, x: FrameInput) {
    && version < 2 && Affords(w, version, x.head, x.budget)
    && (if x.budget.Vbr? then Finishable(version, w.out.bands, x.quantizer)
        else Obedient(version, w.out.bands, x.quantizer))
    && x.privateBits < (if version == 1 then (if Channels(x.head) == 2 then 8 else 32)
                        else if Channels(x.head) == 2 then 4 else 2)
  }

  /** The lengths of the frames of each bit rate. */
  function Lengths(h: Head, samplerate: nat, max: nat): (s: seq<int>)
    requires 0 < samplerate && h.version < 2 && max <= 14
    ensures |s| == max + 1
  {
    seq(max + 1, i requires 0 <= i <= max =>
      BitsPerFrame(h.version, Max(0, BitrateTable(h.version, i)), samplerate, h.padding))
  }

  lemma LengthsAre(w: Writer, version: nat, h: Head, max: nat)
    requires version < 2 && 1 <= max <= 14 && w.resv.sideinfoLen == w.out.sideinfoLen
    requires forall i | 1 <= i <= max :: FitHead(w, version, h.(bitrateIndex := i))
    ensures h.version == version && 0 < w.outSamplerate
    ensures var ls := Lengths(h, w.outSamplerate, max);
      && (forall i | 1 <= i <= max :: Rated(h.(bitrateIndex := i)) && ls[i] == SizeOfHead(h.(bitrateIndex := i))
                                      && ls[i] % 8 == 0 && 8 * w.resv.sideinfoLen <= ls[i])
      && ls[1] - 8 * w.resv.sideinfoLen <= MAX_BITS_PER_CHANNEL
  {
    hide WellFormedHead, SideinfoLen, BitsPerFrame, BitrateTable, SamplerateTable;
    assert FitHead(w, version, h.(bitrateIndex := 1));
    Rates(h.(bitrateIndex := 1));
    forall i | 1 <= i <= max
      ensures Rated(h.(bitrateIndex := i)) && Lengths(h, w.outSamplerate, max)[i] == SizeOfHead(h.(bitrateIndex := i))
      ensures SizeOfHead(h.(bitrateIndex := i)) % 8 == 0 && 8 * w.resv.sideinfoLen <= SizeOfHead(h.(bitrateIndex := i))
    {
      var k := h.(bitrateIndex := i);
      assert FitHead(w, version, k);
      Rates(k);
      SmallestRoom(k);
    }
    SlowestFrame(h.(bitrateIndex := 1));
  }

  lemma SlowestFrame(h: Head)
    requires Rated(h) && h.bitrateIndex == 1
    ensures SizeOfHead(h) <= MAX_BITS_PER_CHANNEL
  {
    Rates(h);
    var s := SamplerateTable(h.version, h.mpeg25, h.samplerateIndex);
    if h.version == 1 {
      QuotientAtMost(144000 * 32, s, 144);
    } else {
      QuotientAtMost(72000 * 8, s, 72);
    }
  }

  lemma SideFits(w: Writer, d: Divider, version: nat, x: FrameInput, side: Side)
    requires Configured(w, d, version) && Acceptable(w, version, x)
    requires side.privateBits == x.privateBits && 0 <= side.mainDataBegin
    requires 8 * side.mainDataBegin <= 8 * 256 * w.resv.modeGr - 8
    requires |side.scfsi| == (if version == 1 then 4 * Channels(x.head) else 0)
    requires forall i | 0 <= i < |side.scfsi| :: side.scfsi[i] < 2
    requires |side.grs| == Times(w.resv.modeGr, Channels(x.head)) && x.head.version == version
    requires forall i | 0 <= i < |side.grs| :: WellFormedGr(version, side.grs[i])
    ensures forall i :: WellFormedSide(x.head.(bitrateIndex := i), side)
  {
    hide WellFormedHead, SideinfoLen, BitrateTable, SamplerateTable, OneByteRoom, Obedient, WellFormedGr, Affords;
    hide Working;
    Pow2Small();
    assert Pow2(9) == 512;
  }

  lemma HeadIsReady(w: Writer, d: Divider, version: nat, h: Head)
    requires Configured(w, d, version) && GoodHead(w, version, h) && w.head == h
    ensures w.HeadReady() && w.GetFrameBits() == SizeOfHead(h)
    ensures w.GetFrameBits() % 8 == 0 && 8 * w.resv.sideinfoLen <= w.GetFrameBits() <= 0x10000
  {
    Rates(h);
    SmallestRoom(h);
    hide WellFormedHead, SideinfoLen, BitsPerFrame, BitrateTable, SamplerateTable, OneByteRoom, Working;
  }

  /** Nothing can fail: the bit rate is constant; or variable, and the quantizer keeps to its shares; or average, and no
      granule is silent. */
  ghost predicate Certain(x: FrameInput) {
    match x.budget
    case Cbr(_, _, _) => true
    case Vbr(_, _, _, _, _) => KeepsShares(x.quantizer)
    case Abr(_, silent, _, _) => Loud(silent)
  }

  /** What the loop of the frame's mode leaves: its granules and flags, its bit rate, and the reservoir after it. */
  ghost predicate Iterated(w: Writer, version: nat, x: FrameInput, head: Head, tt: seq<GrInfo>, scfsi: seq<nat>,
                           before: int)
    reads w, w.resv
  {
    && (x.budget.Cbr? ==> head == x.head)
    && version < 2 && head == x.head.(bitrateIndex := head.bitrateIndex) && GoodHead(w, version, head)
    && Made(version, w.out.bands, x.quantizer, Channels(x.head), tt, scfsi)
    && |tt| == Times(w.resv.modeGr, Channels(x.head))
    && |scfsi| == (if version == 1 then 4 * Channels(x.head) else 0)
    && Settled(w.resv, SizeOfHead(head), tt, before)
  }

  method IterateCbr(w: Writer, d: Divider, version: nat, x: FrameInput) returns (tt: seq<GrInfo>, scfsi: seq<nat>)
    requires w.resv.Safe() && Configured(w, d, version) && Acceptable(w, version, x) && x.budget.Cbr?
    modifies w.resv
    ensures Iterated(w, version, x, x.head, tt, scfsi, old(w.resv.resvSize))
  {
    hide Made, Obedient, WellFormedHead, SideinfoLen, BitsPerFrame, BitrateTable, SamplerateTable, OneByteRoom;
    hide UsedBits, SizeOfHead, Times, Divider.Ready, Rated, Settled;
    FrameLengthOf(w, version, x.head);
    ghost var asks;
    tt, scfsi, asks := CbrIterationLoop(w.resv, d, SizeOfHead(x.head), Channels(x.head), x.budget.pe, x.budget.ms,
                                  x.budget.msEnerRatio, x.quantizer);
  }

  method IterateVbr(w: Writer, d: Divider, version: nat, x: FrameInput)
    returns (ok: bool, head: Head, tt: seq<GrInfo>, scfsi: seq<nat>)
    requires w.resv.Safe() && Configured(w, d, version) && Acceptable(w, version, x) && x.budget.Vbr?
    modifies w.resv
    ensures KeepsShares(x.quantizer) ==> ok
    ensures ok ==> Iterated(w, version, x, head, tt, scfsi, old(w.resv.resvSize))
  {
    hide Made, Finishable, WellFormedHead, SideinfoLen, BitsPerFrame, BitrateTable, SamplerateTable, OneByteRoom;
    hide UsedBits, SizeOfHead, Times, Divider.Ready, Lengths, Rated, Settled, KeepsShares, OverShare, Targeted;
    var start, max := x.budget.start, x.budget.vbrMax;
    LengthsAre(w, version, x.head, max);
    var ls := Lengths(x.head, w.outSamplerate, max);
    var i;
    ghost var maxBits, shares;
    ok, i, tt, scfsi, maxBits, shares :=
      VbrNewIterationLoop(w.resv, d, ls, start, max, Channels(x.head), x.budget.targets, x.budget.quiet, x.quantizer,
                          x.budget.root);
    if KeepsShares(x.quantizer) { NeverOver(x.quantizer, maxBits, shares, w.resv.modeGr, Channels(x.head)); }
    head := x.head.(bitrateIndex := i);
    assert GoodHead(w, version, x.head.(bitrateIndex := i));
  }

  method IterateAbr(w: Writer, d: Divider, version: nat, x: FrameInput)
    returns (ok: bool, head: Head, tt: seq<GrInfo>, scfsi: seq<nat>)
    requires w.resv.Safe() && Configured(w, d, version) && Acceptable(w, version, x) && x.budget.Abr?
    modifies w.resv
    ensures Loud(x.budget.silent) ==> ok
    ensures ok ==> Iterated(w, version, x, head, tt, scfsi, old(w.resv.resvSize))
  {
    hide Made, Obedient, WellFormedHead, SideinfoLen, BitsPerFrame, BitrateTable, SamplerateTable, OneByteRoom;
    hide UsedBits, SizeOfHead, Times, Divider.Ready, Lengths, Rated, Settled, KeepsAll, Targeted, Refills, Total;
    var min, max := x.budget.vbrMin, x.budget.vbrMax;
    LengthsAre(w, version, x.head, max);
    var ls := Lengths(x.head, w.outSamplerate, max);
    AbrKeeps(w, d, version, x, ls);
    var i;
    i, ok, tt, scfsi := AbrIterationLoop(w.resv, d, ls, min, max, Channels(x.head), x.budget.targets, x.budget.silent,
                                         x.quantizer);
    head := x.head.(bitrateIndex := i);
    assert ok ==> GoodHead(w, version, x.head.(bitrateIndex := i));
  }

  /** The loop of the frame's mode. */
  method IterationLoop(w: Writer, d: Divider, version: nat, x: FrameInput)
    returns (ok: bool, head: Head, tt: seq<GrInfo>, scfsi: seq<nat>)
    requires w.resv.Safe() && Configured(w, d, version) && Acceptable(w, version, x)
    modifies w.resv
    ensures Certain(x) ==> ok
    ensures ok ==> Iterated(w, version, x, head, tt, scfsi, old(w.resv.resvSize))
  {
    hide Acceptable, Configured, KeepsShares, Iterated, Reservoir.Safe;
    match x.budget
    case Cbr(_, _, _) =>
      ok, head := true, x.head;
      tt, scfsi := IterateCbr(w, d, version, x);
    case Vbr(_, _, _, _, _) =>
      ok, head, tt, scfsi := IterateVbr(w, d, version, x);
    case Abr(_, _, _, _) =>
      ok, head, tt, scfsi := IterateAbr(w, d, version, x);
  }

  lemma AbrKeeps(w: Writer, d: Divider, version: nat, x: FrameInput, ls: seq<int>)
    requires w.resv.Safe() && Configured(w, d, version) && Acceptable(w, version, x) && x.budget.Abr?
    requires AbrCall(w.resv, ls, x.budget.vbrMin, x.budget.vbrMax, Channels(x.head), x.budget.targets, x.budget.silent)
    ensures KeepsAll(version, w.out.bands, x.quantizer,
                     LastTargets(w.resv, w.resv.resvSize, ls, x.budget.vbrMin, x.budget.vbrMax, Channels(x.head),
                                 x.budget.targets, x.budget.silent))
  {
    hide Obedient, KeepsAll, Targeted, Affords, WellFormedHead, Working, Total, CutTargets;
    LastFits(w.resv, w.resv.resvSize, ls, x.budget.vbrMin, x.budget.vbrMax, Channels(x.head), x.budget.targets,
             x.budget.silent);
    ObedientKeeps(version, w.out.bands, x.quantizer,
                  LastTargets(w.resv, w.resv.resvSize, ls, x.budget.vbrMin, x.budget.vbrMax, Channels(x.head),
                              x.budget.targets, x.budget.silent), Channels(x.head));
  }

  lemma FrameLengthOf(w: Writer, version: nat, h: Head)
    requires GoodHead(w, version, h)
    ensures Rated(h) && SizeOfHead(h) % 8 == 0 && 8 * w.out.sideinfoLen <= SizeOfHead(h)
  {
    SmallestRoom(h);
    hide WellFormedHead, SideinfoLen, BitsPerFrame, BitrateTable, SamplerateTable;
  }

  /** The writer has the frame, and everything format_bitstream needs for it. */
  lemma ReadyToFormat(w: Writer, d: Divider, version: nat, x: FrameInput, before: int) returns (side: Side)
    requires Configured(w, d, version) && Acceptable(w, version, x) && w.out.bufByteIdx == -1
    requires Iterated(w, version, x, w.head, w.tt, w.scfsi, before) && w.privateBits == x.privateBits
    requires w.Steady() && w.out.Free() == before <= w.resv.ResvLimit()
    ensures w.Between(w.resv.resvDrainPre) && w.HeadReady() && w.Accounted(side)
    ensures w.out.Level() + w.GetFrameBits() <= 8 * BUFFER_SIZE && side.scfsi == w.scfsi
  {
    hide Writer.Steady, Made, Obedient, UsedBits, MainBits, ToldBy, WellFormedHead, WellFormedGr, SideinfoLen;
    hide BitsPerFrame, BitrateTable, SamplerateTable, Times, Formatter.Level, OneByteRoom, Capacity, SizeOfHead;
    hide Working, Affords;
    HeadIsReady(w, d, version, w.head);
    side := SideOf(w, d, version, x, w.tt, w.scfsi);
    w.RoomAfterCopy(w.GetFrameBits());
  }

  /** Stage 5 of lame_encode_mp3_frame: the frame goes to the stream. */
  method Format(w: Writer, d: Divider, version: nat, x: FrameInput, head: Head, tt: seq<GrInfo>, scfsi: seq<nat>,
                ghost before: int)
    requires Configured(w, d, version) && Acceptable(w, version, x) && w.out.bufByteIdx == -1
    requires Iterated(w, version, x, head, tt, scfsi, before)
    requires w.Steady() && w.out.Free() == before <= w.resv.ResvLimit()
    modifies w, w.resv, w.out, w.out.buf, w.out.header
    ensures w.Between(0) && w.resv.Safe()
    ensures |w.sources| == old(|w.sources|) + 1 && w.sources[..old(|w.sources|)] == old(w.sources)
    ensures MadeFrom(w, version, w.sources[old(|w.sources|)], x)
    ensures w.out.frames != [] && w.BitRate() >= 0 && w.outSamplerate > 0
    ensures w.out.frames[|w.out.frames| - 1].size == w.GetFrameBits()
    ensures w.out.taken == old(w.out.taken) && w.out.tags == old(w.out.tags)
  {
    hide Writer.Steady, Made, MainBits, UsedBits, Times, Formatter.Level, Capacity, SizeOfHead, Acceptable;
    hide Divider.Ready, FitHead, OneByteRoom, BitsPerFrame, BitrateTable;
    w.head, w.privateBits, w.scfsi, w.tt := head, x.privateBits, scfsi, tt;
    ghost var side := ReadyToFormat(w, d, version, x, before);
    ghost var crc := w.FormatBitstream(side);
    FrameMade(w, version, w.sources[|w.sources| - 1], x, tt, scfsi);
  }

  /** lame_encode_mp3_frame from the quantization on; false is the assertion of the average bit rate that some bit
      rate makes up for the bits used, or that of the variable bit rate that every granule keeps to its share. */
  method EncodeFrame(w: Writer, d: Divider, version: nat, x: FrameInput) returns (ok: bool)
    requires w.Between(0) && w.resv.Safe() && Configured(w, d, version) && Acceptable(w, version, x)
    requires w.out.bufByteIdx == -1
    modifies w, w.resv, w.out, w.out.buf, w.out.header
    ensures Certain(x) ==> ok
    ensures ok ==> w.Between(0) && w.resv.Safe()
    ensures ok ==> |w.sources| == old(|w.sources|) + 1 && w.sources[..old(|w.sources|)] == old(w.sources)
    ensures ok ==> MadeFrom(w, version, w.sources[old(|w.sources|)], x)
    ensures ok ==> w.out.frames != [] && w.BitRate() >= 0 && w.outSamplerate > 0
    ensures ok ==> w.out.frames[|w.out.frames| - 1].size == w.GetFrameBits()
    ensures ok ==> w.out.taken == old(w.out.taken) && w.out.tags == old(w.out.tags)
  {
    hide Writer.Steady, Acceptable, Configured, Iterated, MadeFrom, Certain, BitsPerFrame, BitrateTable, Capacity;
    ghost var before := w.resv.resvSize;
    var head, tt, scfsi;
    ok, head, tt, scfsi := IterationLoop(w, d, version, x);
    if ok { Format(w, d, version, x, head, tt, scfsi, before); }
  }

  /** The side information of the frame. */
  lemma SideOf(w: Writer, d: Divider, version: nat, x: FrameInput, tt: seq<GrInfo>, scfsi: seq<nat>)
      returns (side: Side)
    requires Configured(w, d, version) && Acceptable(w, version, x) && x.head.version == version
    requires Made(version, w.out.bands, x.quantizer, Channels(x.head), tt, scfsi)
    requires |tt| == Times(w.resv.modeGr, Channels(x.head))
        && |scfsi| == (if version == 1 then 4 * Channels(x.head) else 0)
    requires 0 <= w.resv.mainDataBegin && 8 * w.resv.mainDataBegin <= w.resv.ResvLimit()
    ensures side.mainDataBegin == w.resv.mainDataBegin && side.privateBits == x.privateBits && side.scfsi == scfsi
    ensures |side.grs| == |tt| && forall i | 0 <= i < |tt| :: ToldBy(version, w.out.bands, tt[i], side.grs[i])
    ensures forall i :: WellFormedSide(x.head.(bitrateIndex := i), side)
    ensures |MainBits(version, w.out.bands, tt)| == UsedBits(tt)
  {
    hide AllFinished, AllTelling, AllCoded, Obedient, UsedBits, MainBits, ToldBy, WellFormedHead, WellFormedGr;
    hide WellFormedSide;
    hide Affords, Working;
    MadeFinished(version, w.out.bands, x.quantizer, Channels(x.head), tt, scfsi);
    ghost var sides := SidesFor(version, w.out.bands, tt);
    side := Side(w.resv.mainDataBegin, x.privateBits, scfsi, sides);
    MainLength(version, w.out.bands, tt);
    SideFits(w, d, version, x, side);
  }

  lemma FrameMade(w: Writer, version: nat, src: Source, x: FrameInput, tt: seq<GrInfo>, scfsi: seq<nat>)
    requires version < 2 && GoodHead(w, version, src.head) && src.head == x.head.(bitrateIndex := src.head.bitrateIndex)
    requires x.budget.Cbr? ==> src.head == x.head
    requires Made(version, w.out.bands, x.quantizer, Channels(x.head), tt, scfsi)
    requires |tt| == Times(version + 1, Channels(x.head)) && src.grs == tt && src.side.scfsi == scfsi
    ensures MadeFrom(w, version, src, x)
  {
    hide Made, GoodHead;
  }

  // ----- whole streams

  /** A writer that has not written anything. */
  ghost predicate Blank(w: Writer)
    reads w, w.resv, w.out, w.out.buf, w.out.header
  {
    && w.Between(0) && w.resv.Safe() && w.sources == [] && w.out.bufByteIdx == -1
    && w.out.taken == [] && w.out.tags == 0
  }

  /** The frame was made from the input: its header, and granules that code what the quantizer made. */
  ghost predicate MadeFrom(w: Writer, version: nat, src: Source, x: FrameInput) {
    && version < 2 && GoodHead(w, version, src.head) && src.head == x.head.(bitrateIndex := src.head.bitrateIndex)
    && (x.budget.Cbr? ==> src.head == x.head)
    && |src.grs| == Times(version + 1, Channels(x.head))
    && Made(version, w.out.bands, x.quantizer, Channels(x.head), src.grs, src.side.scfsi)
  }

  /** A finished run: every queued frame is complete, every frame was made from its input, and the bytes are
      the stream. */
  ghost predicate Encoded(w: Writer, version: nat, inputs: seq<FrameInput>, mp3: seq<byte>)
    reads w, w.resv, w.out, w.out.buf, w.out.header
  {
    && w.Between(0) && w.out.Free() == 0 && w.resv.resvSize == 0
    && |w.sources| == |inputs| && w.resv.sideinfoLen == w.out.sideinfoLen
    && (forall i | 0 <= i < |inputs| :: MadeFrom(w, version, w.sources[i], inputs[i]))
    && BytesToBits(mp3) == AudioOf(w.out.stream)
  }

  /** Any run of frames in any mix of modes, ended by a flush, its bytes collected frame by frame. */
  method EncodeStream(w: Writer, d: Divider, version: nat, inputs: seq<FrameInput>) returns (ok: bool, mp3: seq<byte>)
    requires Blank(w) && Configured(w, d, version) && inputs != []
    requires forall i | 0 <= i < |inputs| :: Acceptable(w, version, inputs[i])
    modifies w, w.resv, w.out, w.out.buf, w.out.header
    ensures ok ==> Encoded(w, version, inputs, mp3)
    ensures (forall i | 0 <= i < |inputs| :: Certain(inputs[i])) ==> ok
  {
    hide Writer.Steady, Acceptable, MadeFrom, BytesToBits, AudioOf, Values, Capacity, Reservoir.Safe, BitsPerFrame;
    hide BitrateTable, Working;
    mp3 := [];
    NoBytes();
    for i := 0 to |inputs|
      invariant w.Between(0) && w.resv.Safe() && w.out.bufByteIdx == -1
      invariant Configured(w, d, version)
      invariant w.out.taken == BytesToBits(mp3) && w.out.tags == 0
      invariant |w.sources| == i && forall k | 0 <= k < i :: MadeFrom(w, version, w.sources[k], inputs[k])
      invariant i > 0 ==> w.out.frames != [] && w.BitRate() >= 0 && w.outSamplerate > 0
      invariant i > 0 ==> w.out.frames[|w.out.frames| - 1].size == w.GetFrameBits()
    {
      ghost var srcs := w.sources;
      ok := EncodeFrame(w, d, version, inputs[i]);
      if !ok { return; }
      forall k | 0 <= k < i ensures MadeFrom(w, version, w.sources[k], inputs[k]) {
        assert w.sources[..i][k] == srcs[k];
      }
      var count, bytes := w.CopyBuffer(0);
      BytesToBitsConcat(mp3, bytes);
      mp3 := mp3 + bytes;
    }
    w.FlushBitstream();
    var count, bytes := w.CopyBuffer(0);
    BytesToBitsConcat(mp3, bytes);
    mp3 := mp3 + bytes;
    w.WholeOutput();
    ok := true;
  }

  method NewWriter(head: Head, bands: Bands, shortVersion: seq<byte>, brate: nat, outSamplerate: nat, strictISO: bool,
                   disableReservoir: bool)
    returns (w: Writer)
    requires WellFormedHead(head) && 0 < outSamplerate
    ensures fresh(w) && fresh(w.resv) && fresh(w.out) && fresh(w.out.buf) && fresh(w.out.header)
    ensures Blank(w) && w.resv.modeGr == head.version + 1
        && w.resv.sideinfoLen == w.out.sideinfoLen == SideinfoLen(head)
    ensures w.out.bands == bands && w.outSamplerate == outSamplerate
        && w.minRoom == (if head.version == 1 then 58 else 2)
  {
    var out := new Formatter(SideinfoLen(head), bands, shortVersion, disableReservoir);
    var resv := new Reservoir(head.version + 1, SideinfoLen(head), brate, outSamplerate, strictISO, disableReservoir);
    w := new Writer(out, resv, brate, outSamplerate, if head.version == 1 then 58 else 2, head);
    NothingTold(bands);
  }

  lemma NothingTold(b: Bands)
    ensures Told(b, [], [], []) && Capacity([]) == 0
  {
  }

  /** Reading the stream gives for granule `j` of frame `i` what is in `g`. */
  ghost predicate ReadsBack(b: Bands, stream: seq<bool>, hdr: nat, i: nat, j: nat, version: nat, g: GrInfo) {
    && Edges(b) && Scaled(version, g) && |g.l3Enc| == |g.neg| == 576
    && ReadStreamGranule(b, stream, hdr, i, j) == Some(Expected(version, g))
  }

  /** The headers that a reader finds. */
  ghost function HeadersOf(stream: seq<bool>, hdr: nat): seq<seq<bool>> { Demux(stream, hdr, SizeOf).0 }

  /** The header that a reader finds is the one that was asked for; a frame's bit rate is the loop's choice unless it
      is constant. */
  ghost predicate HeaderFound(header: seq<bool>, x: FrameInput) {
    && ReadHead(header) == x.head.(bitrateIndex := ReadHead(header).bitrateIndex)
    && (x.budget.Cbr? ==> ReadHead(header) == x.head) && LayerThree(header, ReadHead(header))
    && (x.head.errorProtection ==> Checked(header))
  }

  /** Granule `j` codes what the quantizer has made of it. */
  ghost predicate CodedAt(x: FrameInput, grs: seq<GrInfo>, j: nat) {
    var channels := Channels(x.head);
    && channels > 0 && j < |grs| && j % channels < |grs|
    && CodedFrom(x.quantizer, j / channels, j % channels, grs[j], grs[j % channels].scalefac)
  }

  /** The whole way there and back: from the bytes of any run, a reader recovers every frame header and, in every
      granule, the scalefactors, the quantized values and the signs; and these are what the quantizer made. */
  lemma StreamIsReadable(w: Writer, version: nat, inputs: seq<FrameInput>, mp3: seq<byte>, i: nat, j: nat)
    requires Encoded(w, version, inputs, mp3)
    requires i < |inputs| == |w.sources| && j < |w.sources[i].grs|
    ensures |HeadersOf(BytesToBits(mp3), 8 * w.out.sideinfoLen)| == |inputs|
    ensures HeaderFound(HeadersOf(BytesToBits(mp3), 8 * w.out.sideinfoLen)[i], inputs[i])
    ensures ReadsBack(w.out.bands, BytesToBits(mp3), 8 * w.out.sideinfoLen, i, j, version, w.sources[i].grs[j])
    ensures |w.sources[i].grs| == Times(version + 1, Channels(inputs[i].head))
    ensures CodedAt(inputs[i], w.sources[i].grs, j)
  {
    hide Writer.Steady, MadeFrom, BytesToBits, AudioOf, Capacity, TellsShared, ReadStreamGranule, Demux, Expected;
    hide Checked, ReadHead, ReadSide, SizeOf, Edges, Rated, SideinfoLen, Scaled, Headers, AllRated, CodedAt, Times;
    hide LayerThree;
    MadeParts(w, version, w.sources[i], inputs[i], j);
    AllMade(w, version, inputs);
    w.FlushedIsReadable(i, j);
  }

  lemma AllMade(w: Writer, version: nat, inputs: seq<FrameInput>)
    requires |w.sources| == |inputs|
    requires forall k | 0 <= k < |inputs| :: MadeFrom(w, version, w.sources[k], inputs[k])
    ensures AllRated(w.sources, 8 * w.out.sideinfoLen)
  {
    hide Made, WellFormedHead, SideinfoLen, Rated;
    forall k | 0 <= k < |w.sources|
      ensures Rated(w.sources[k].head) && SideinfoLen(w.sources[k].head) == w.out.sideinfoLen
    {
      assert MadeFrom(w, version, w.sources[k], inputs[k]);
    }
  }

  lemma MadeParts(w: Writer, version: nat, src: Source, x: FrameInput, j: nat)
    requires MadeFrom(w, version, src, x) && j < |src.grs|
    ensures |src.grs[j].l3Enc| == |src.grs[j].neg| == 576 && Edges(w.out.bands) && Scaled(version, src.grs[j])
    ensures src.head == x.head.(bitrateIndex := src.head.bitrateIndex) && (x.budget.Cbr? ==> src.head == x.head)
    ensures src.head.version == version && TellsShared(src, j)
    ensures |src.grs| == Times(version + 1, Channels(x.head))
    ensures CodedAt(x, src.grs, j)
  {
    hide Made, CodedFrom, SharedFlags, WellFormedHead, SideinfoLen, Rated, OneByteRoom, SamplerateTable, Times;
    MadeAt(version, w.out.bands, x.quantizer, Channels(x.head), src.grs, src.side.scfsi, j);
  }

  /** What a reader of granule `j` needs, and what it finds. */
  ghost predicate GranuleMade(version: nat, b: Bands, q: Quantizer, channels: nat, grs: seq<GrInfo>, scfsi: seq<nat>,
      j: nat)
    requires channels > 0 && j < |grs|
  {
    && |grs[j].l3Enc| == |grs[j].neg| == 576 && Edges(b)
    && Scaled(version, grs[j]) && Telling(version, grs[j], SharedFlags(version, channels, scfsi, j))
    && j % channels < |grs| && CodedFrom(q, j / channels, j % channels, grs[j], grs[j % channels].scalefac)
  }

  lemma MadeAt(version: nat, b: Bands, q: Quantizer, channels: nat, grs: seq<GrInfo>, scfsi: seq<nat>, j: nat)
    requires channels > 0 && j < |grs| && Made(version, b, q, channels, grs, scfsi)
    ensures GranuleMade(version, b, q, channels, grs, scfsi, j)
  {
    hide Telling, CodedFrom, SharedFlags, WellFormedGr, Scaled, Finished;
    ModBelow(j, channels);
    FinishedParts(version, b, grs[j]);
  }

  lemma FinishedParts(version: nat, b: Bands, g: GrInfo)
    requires Finished(version, b, g)
    ensures |g.l3Enc| == |g.neg| == 576 && Edges(b) && Scaled(version, g)
  {
  }

  lemma ModBelow(j: nat, m: nat)
    requires m > 0
    ensures j % m <= j
  {
    var q, r := DivModId(j, m);
  }
}

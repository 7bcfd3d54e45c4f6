/** The bit reservoir: how many bits a frame may use, how they are split over granules and channels, and
    what has to be drained so that the reservoir stays within its limit (reservoir.c, the allocators of
    quantize_pvt.c, and the reservoir calls of the loops in quantize.c). */
module Reservoirs {
  import opened Bits

  const MAX_BITS_PER_CHANNEL := 4095
  const MAX_BITS_PER_GRANULE := 7680

  /** C's conversion of a floating-point number to an integer. */
  function Trunc(x: real): int { if x >= 0.0 then x.Floor else -((-x).Floor) }

  lemma TruncBounds(x: real, n: int)
    ensures x >= 0.0 ==> 0 <= Trunc(x)
    ensures x <= n as real ==> Trunc(x) <= Max(0, n)
  {
  }

  /** a / b, rounded to the nearest integer. */
  function Rounded(a: nat, b: nat): int
    requires b > 0
  {
    (2 * a + b) / (2 * b)
  }

  lemma RoundedNearest(a: nat, b: nat)
    requires b > 0
    ensures b * (2 * Rounded(a, b) - 1) <= 2 * a < b * (2 * Rounded(a, b) + 1)
  {
    var q, r := DivModId(2 * a + b, 2 * b);
    assert q * (2 * b) == b * (2 * q) && b * (2 * q - 1) == b * (2 * q) - b && b * (2 * q + 1) == b * (2 * q) + b;
  }

  lemma Halves(n: nat, modeGr: nat)
    requires 1 <= modeGr <= 2
    ensures (8 * n) / modeGr * modeGr == 8 * n
  {
    if modeGr == 2 { assert (8 * n) / 2 == 4 * n; }
  }

  lemma Nearest(a: nat, b: nat)
    requires b > 0 && a % 8 == 0
    ensures b * (2 * Rounded(a, 8 * b) - 1) <= 2 * (a / 8) < b * (2 * Rounded(a, 8 * b) + 1)
  {
    hide Rounded;
    RoundedNearest(a, 8 * b);
    var q, n := Rounded(a, 8 * b), a / 8;
    assert a == 8 * n;
    assert 8 * b * (2 * q - 1) == 8 * (b * (2 * q - 1)) && 8 * b * (2 * q + 1) == 8 * (b * (2 * q + 1));
  }

  // ----- substep_shaping: bit 0 is a setting, bit 7 marks a reservoir that is almost full

  function Odd(x: bv8): bool { x & 1 != 0 }

  function Marked(x: bv8): (y: bv8)
    ensures y & 0x7f == x & 0x7f && y & 0x80 == 0x80 && Odd(y) == Odd(x)
  {
    x | 0x80
  }

  function Unmarked(x: bv8): (y: bv8)
    ensures y & 0x7f == x & 0x7f && y & 0x80 == 0 && Odd(y) == Odd(x)
  {
    x & 0x7f
  }

  /** The reservoir's share of lame_internal_flags and III_side_info_t. */
  class Reservoir {
    const modeGr: nat                 // granules per frame
    const sideinfoLen: nat
    const brate: nat
    const outSamplerate: nat
    const strictISO: bool
    const disableReservoir: bool
    var resvSize: int
    var resvMax: int
    var mainDataBegin: int
    var resvDrainPre: int
    var resvDrainPost: int
    var substepShaping: bv8

    constructor (modeGr: nat, sideinfoLen: nat, brate: nat, outSamplerate: nat, strictISO: bool, disableReservoir: bool)
      requires 0 < outSamplerate && 1 <= modeGr <= 2
      ensures Safe() && resvSize == 0
      ensures this.modeGr == modeGr && this.sideinfoLen == sideinfoLen && this.outSamplerate == outSamplerate
    {
      this.modeGr, this.sideinfoLen, this.brate, this.outSamplerate := modeGr, sideinfoLen, brate, outSamplerate;
      this.strictISO, this.disableReservoir := strictISO, disableReservoir;
      resvSize, resvMax, mainDataBegin, resvDrainPre, resvDrainPost, substepShaping := 0, 0, 0, 0, 0, 0;
    }

    /** main_data_begin has 9 bits in MPEG-1 and 8 bits in MPEG-2. */
    function ResvLimit(): int { 8 * 256 * modeGr - 8 }

    function MaxMp3Buf(): int
      requires outSamplerate > 0
    {
      8 * (if brate > 320 then Rounded(brate * 1152000, 8 * outSamplerate)
           else if strictISO then Rounded(368640000, 8 * outSamplerate)
           else 1440)
    }

    /** How many bits the reservoir may hold beside a frame of the given length: main_data_begin must be able to
        point back over them, and the two together must fit in a decoder's buffer. */
    function ResvMaxOf(frameLength: int): int
      requires outSamplerate > 0
    {
      if disableReservoir then 0 else Max(0, Min(MaxMp3Buf() - frameLength, ResvLimit()))
    }

    /** The most bits a frame of the given length may use when the reservoir holds `size`. */
    function FullFrameBits(frameLength: int, size: int): int
      requires outSamplerate > 0
    {
      Min(frameLength - 8 * sideinfoLen + Min(size, ResvMaxOf(frameLength)), MaxMp3Buf())
    }

    /** The reservoir may hold `size` bits beside such a frame: main_data_begin can point back over them, and both fit
        in the decoder's buffer. */
    predicate MayHold(frameLength: int, size: int)
      requires outSamplerate > 0
    {
      0 <= size <= 8 * (Pow2(7 + modeGr) - 1) && frameLength + size <= MaxMp3Buf() && (disableReservoir ==> size == 0)
    }

    /** A frame may use `used` bits: beyond its own room they come from the reservoir, as far as that may hold them. */
    predicate MayUse(frameLength: int, size: int, resvMax: int, used: int)
      requires outSamplerate > 0
    {
      var room := frameLength - 8 * sideinfoLen;
      used <= MaxMp3Buf() && used - room <= size && used - room <= resvMax
    }

    /** The limits are as large as can be. */
    lemma MostToHold(frameLength: int, size: int)
      requires Setup()
      ensures var max := ResvMaxOf(frameLength);
        && (forall r :: MayHold(frameLength, r) ==> r <= max) && (max == 0 || MayHold(frameLength, max))
        && forall used :: MayUse(frameLength, size, max, used) <==> used <= FullFrameBits(frameLength, size)
    {
      hide MaxMp3Buf;
      Pow2Small();
      assert Pow2(9) == 2 * Pow2(8);
      hide Pow2;
      assert ResvLimit() == 8 * (Pow2(7 + modeGr) - 1);
    }

    /** What a decoder's buffer holds: 1440 bytes, or to the nearest byte what 1152 samples have at 320 kbit/s, or at
        the bit rate of free format. */
    lemma BufferIs()
      requires Setup()
      ensures var bytes := MaxMp3Buf() / 8;
        && MaxMp3Buf() == 8 * bytes
        && if brate > 320 then outSamplerate * (2 * bytes - 1) <= 2 * 144000 * brate < outSamplerate * (2 * bytes + 1)
           else if strictISO then
             outSamplerate * (2 * bytes - 1) <= 2 * 144000 * 320 < outSamplerate * (2 * bytes + 1)
           else bytes == 1440
    {
      hide Rounded;
      Nearest(1152000 * brate, outSamplerate);
      Nearest(1152000 * 320, outSamplerate);
      assert MaxMp3Buf() == 8 * (MaxMp3Buf() / 8);
    }

    ghost predicate Setup() { 0 < outSamplerate && 1 <= modeGr <= 2 }

    /** What holds between frames. */
    ghost predicate Safe()
      reads this
    {
      && Setup()
      && 0 <= resvSize == 8 * mainDataBegin <= ResvLimit()
      && (disableReservoir ==> resvSize == 0)
    }

    method ResvFrameBegin(frameLength: int) returns (meanBits: int, fullFrameBits: int)
      requires Setup() && frameLength % 8 == 0 && 8 * sideinfoLen <= frameLength
      modifies `resvMax, `resvDrainPre
      ensures meanBits * modeGr == frameLength - 8 * sideinfoLen
      ensures resvDrainPre == 0
      ensures resvMax == ResvMaxOf(frameLength)
      ensures resvMax % 8 == 0 && 0 <= resvMax <= ResvLimit() && (disableReservoir ==> resvMax == 0)
      ensures resvMax > 0 ==> frameLength + resvMax <= MaxMp3Buf()
      ensures fullFrameBits == FullFrameBits(frameLength, resvSize)
      ensures forall r :: MayHold(frameLength, r) ==> r <= resvMax
      ensures forall used :: MayUse(frameLength, resvSize, resvMax, used) <==> used <= fullFrameBits
    {
      hide Rounded;
      meanBits := (frameLength - sideinfoLen * 8) / modeGr;
      Halves((frameLength - sideinfoLen * 8) / 8, modeGr);
      var resvLimit := 8 * 256 * modeGr - 8;
      var maxmp3buf := MaxMp3Buf();
      resvMax := maxmp3buf - frameLength;
      if resvMax > resvLimit {
        resvMax := resvLimit;
      }
      if resvMax < 0 || disableReservoir {
        resvMax := 0;
      }
      fullFrameBits := meanBits * modeGr + Min(resvSize, resvMax);
      if fullFrameBits > maxmp3buf {
        fullFrameBits := maxmp3buf;
      }
      assert resvMax % 8 == 0;
      assert resvMax >= 0;
      resvDrainPre := 0;
      MostToHold(frameLength, resvSize);
    }

    /** The bits to aim at in a granule, and how many more the reservoir can lend it: together never more
        than the granule's own and what is there. */
    method ResvMaxBits(meanBits: int, cbr: bool) returns (targBits: int, extraBits: int)
      requires 0 <= meanBits && 0 <= resvMax && 0 <= resvSize + if cbr then meanBits else 0
      modifies `substepShaping
      ensures 0 <= targBits && 0 <= extraBits
      ensures targBits + extraBits <= meanBits + resvSize + if cbr then meanBits else 0
      ensures substepShaping == if targBits > meanBits then Marked(old(substepShaping))
          else Unmarked(old(substepShaping))
      ensures var held := resvSize + if cbr then meanBits else 0;
        extraBits == Max(0, Min(held, resvMax * 6 / 10) - Max(0, targBits - meanBits))
      ensures AimsAt(resvSize + (if cbr then meanBits else 0), resvMax, disableReservoir,
                     Odd(old(substepShaping)), meanBits, targBits)
    {
      hide AimsAt, NineTenths, LessATenth, Odd, Marked, Unmarked;
      ghost var odd := Odd(substepShaping);
      var size, max := resvSize, resvMax;
      if cbr {
        size := size + meanBits;
      }
      if Odd(substepShaping) {
        max := NineTenths(max);
      }
      targBits := meanBits;
      var addBits;
      if size * 10 > max * 9 {
        addBits := size - (max * 9) / 10;
        targBits := targBits + addBits;
        substepShaping := Marked(substepShaping);
      } else {
        addBits := 0;
        substepShaping := Unmarked(substepShaping);
        if !disableReservoir && !Odd(substepShaping) {
          targBits := LessATenth(meanBits);
        }
      }
      AimIs(size, resvMax, disableReservoir, odd, meanBits, targBits);
      extraBits := if size < (resvMax * 6) / 10 then size else (resvMax * 6) / 10;
      extraBits := extraBits - addBits;
      if extraBits < 0 {
        extraBits := 0;
      }
    }

    /** ResvAdjust: `used` is part2_3_length + part2_length. */
    method ResvAdjust(used: int)
      modifies `resvSize
      ensures resvSize == old(resvSize) - used
    {
      resvSize := resvSize - used;
    }

    /** The reservoir after the frame is what was left over, cut to whole bytes and to its limit; the rest
        is drained, first into the frames before this one. */
    method ResvFrameEnd(meanBits: int)
      requires Setup() && 0 <= mainDataBegin
      requires 0 <= resvMax && resvMax % 8 == 0 && 0 <= resvSize + meanBits * modeGr
      modifies `resvSize, `resvDrainPre, `resvDrainPost, `mainDataBegin
      ensures var left := old(resvSize) + meanBits * modeGr;
        && resvSize == Min(left - left % 8, resvMax)
        && resvDrainPre + resvDrainPost == left - resvSize
      ensures 0 <= resvDrainPre && 0 <= resvDrainPost && resvDrainPre % 8 == 0
      ensures 8 * mainDataBegin + resvDrainPre == 8 * old(mainDataBegin) && 0 <= mainDataBegin
      ensures resvDrainPost < 8 || mainDataBegin == 0
    {
      resvSize := resvSize + meanBits * modeGr;
      var stuffingBits := 0;
      resvDrainPost := 0;
      resvDrainPre := 0;
      var overBits := resvSize % 8;
      if overBits != 0 {
        stuffingBits := stuffingBits + overBits;
      }
      overBits := (resvSize - stuffingBits) - resvMax;
      if overBits > 0 {
        assert overBits % 8 == 0;
        stuffingBits := stuffingBits + overBits;
      }
      var mdbBytes := Min(mainDataBegin * 8, stuffingBits) / 8;
      resvDrainPre := resvDrainPre + 8 * mdbBytes;
      stuffingBits := stuffingBits - 8 * mdbBytes;
      resvSize := resvSize - 8 * mdbBytes;
      mainDataBegin := mainDataBegin - mdbBytes;
      resvDrainPost := resvDrainPost + stuffingBits;
      resvSize := resvSize - stuffingBits;
    }

    /** on_pe: `pe` is the granule's perceptual entropy for each channel. */
    method OnPe(pe: seq<real>, targBits: array<int>, meanBits: int, cbr: bool)
      returns (maxBits: int)
      requires 1 <= targBits.Length == |pe| <= 2
      requires 0 <= meanBits && 0 <= resvMax && 0 <= resvSize + if cbr then meanBits else 0
      modifies targBits, `substepShaping
      ensures Allotted(targBits[..], maxBits)
      ensures maxBits <= meanBits + resvSize + if cbr then meanBits else 0
      ensures OnPeGives(resvSize + (if cbr then meanBits else 0), resvMax, disableReservoir,
                        Odd(old(substepShaping)), meanBits, pe, maxBits, targBits[..])
      ensures Odd(substepShaping) == Odd(old(substepShaping))
    {
      hide Sum, Trunc, Wished, AimsAt, Share, OnPeGives, Within, Odd, Marked, Unmarked;
      SumNone();
      ghost var odd := Odd(substepShaping);
      var tbits, extraBits := ResvMaxBits(meanBits, cbr);
      ghost var extra := extraBits;
      maxBits := Min(tbits + extraBits, MAX_BITS_PER_GRANULE);
      var channels := targBits.Length;
      var addBits := new int[channels];
      var bits := Wishes(pe, targBits, addBits, tbits, meanBits);
      ghost var wishes := addBits[..];
      CutTo(addBits, extraBits, bits);
      ghost var base, adds := targBits[..], addBits[..];
      bits := Raise(targBits, addBits);
      SumOfSums(base, adds, targBits[..]);
      ghost var targ := targBits[..];
      assert targ == Raised(Even(tbits, |pe|), adds);
      CutTo(targBits, MAX_BITS_PER_GRANULE, bits);
      GivenWith(resvSize + (if cbr then meanBits else 0), resvMax, disableReservoir, odd, meanBits, pe, maxBits,
                targBits[..], tbits, wishes);
    }
  }

  /** What the reservoir has above nine tenths of its limit is used up; below that a tenth of the granule's bits is
      saved, unless there is no reservoir or substep shaping asks otherwise, which also lowers the limit. */
  ghost predicate AimsAt(held: int, resvMax: int, noReservoir: bool, substep: bool, meanBits: int, aim: int) {
    var limit := if substep then 9 * resvMax / 10 else resvMax;
    if 10 * held > 9 * limit then held - (aim - meanBits) == 9 * limit / 10
    else aim == if noReservoir || substep then meanBits else 9 * meanBits / 10
  }

  lemma AimIs(held: int, resvMax: int, noReservoir: bool, substep: bool, meanBits: int, aim: int)
    requires var limit := if substep then 9 * resvMax / 10 else resvMax;
      if held * 10 > limit * 9 then aim == meanBits + (held - (limit * 9) / 10)
      else aim == if noReservoir || substep then meanBits else 9 * meanBits / 10
    ensures AimsAt(held, resvMax, noReservoir, substep, meanBits, aim)
  {
  }

  /** What the reservoir may lend beyond that. */
  function Lent(held: int, resvMax: int, meanBits: int, aim: int): int {
    Max(0, Min(held, resvMax * 6 / 10) - Max(0, aim - meanBits))
  }

  /** on_pe's targets: an even share of the bits aimed at, and on top of it what each channel wishes for, scaled down to
      what may be lent and to what a granule may have. */
  ghost predicate OnPeGives(held: int, resvMax: int, noReservoir: bool, substep: bool, meanBits: int, pe: seq<real>,
                            maxBits: int, targ: seq<int>)
  {
    exists aim, wishes :: GivesWith(held, resvMax, noReservoir, substep, meanBits, pe, maxBits, targ, aim, wishes)
  }

  ghost predicate GivesWith(held: int, resvMax: int, noReservoir: bool, substep: bool, meanBits: int, pe: seq<real>,
                            maxBits: int, targ: seq<int>, aim: int, wishes: seq<int>)
  {
    var extra := Lent(held, resvMax, meanBits, aim);
    && |wishes| == |pe| > 0 && AimsAt(held, resvMax, noReservoir, substep, meanBits, aim)
    && maxBits == Min(aim + extra, MAX_BITS_PER_GRANULE)
    && (forall c | 0 <= c < |pe| :: Wished(pe[c], Even(aim, |pe|), meanBits, wishes[c]))
    && targ == Within(Raised(Even(aim, |pe|), Within(wishes, extra)), MAX_BITS_PER_GRANULE)
  }

  lemma GivenWith(held: int, resvMax: int, noReservoir: bool, substep: bool, meanBits: int, pe: seq<real>,
                  maxBits: int, targ: seq<int>, aim: int, wishes: seq<int>)
    requires GivesWith(held, resvMax, noReservoir, substep, meanBits, pe, maxBits, targ, aim, wishes)
    ensures OnPeGives(held, resvMax, noReservoir, substep, meanBits, pe, maxBits, targ)
  {
  }

  /** Each channel's even share. */
  function Even(bits: int, channels: nat): int
    requires channels > 0
  {
    Min(MAX_BITS_PER_CHANNEL, bits / channels)
  }

  lemma EvenIs(bits: nat, channels: nat)
    requires channels > 0
    ensures var e := Even(bits, channels);
      e * channels <= bits && e <= MAX_BITS_PER_CHANNEL && (e == MAX_BITS_PER_CHANNEL || bits < (e + 1) * channels)
  {
    var q, r := DivModId(bits, channels);
    if q > MAX_BITS_PER_CHANNEL { MulMonotone(MAX_BITS_PER_CHANNEL, q, channels); }
  }

  /** The most bits above `base` that a perceptual entropy of `pe` asks for, in 700ths of it, with no more than three
      quarters of the mean and no more than the field can say. */
  ghost predicate Wished(pe: real, base: int, meanBits: int, x: int) {
    && 0 <= x && base + x <= MAX_BITS_PER_CHANNEL
    && (x > 0 ==> 4 * x <= 3 * meanBits && 700.0 * (base + x) as real <= base as real * pe)
    && (4 * (x + 1) > 3 * meanBits || base + x + 1 > MAX_BITS_PER_CHANNEL
        || 700.0 * (base + x + 1) as real > base as real * pe)
  }

  /** The same, scaled down if they are more than `total` together. */
  function Within(a: seq<int>, total: int): (r: seq<int>)
    ensures |r| == |a|
  {
    var whole := Sum(a);
    if whole <= total || whole <= 0 then a
    else seq(|a|, i requires 0 <= i < |a| => Share(total, a[i], whole))
  }

  function Raised(base: int, a: seq<int>): (r: seq<int>)
    ensures |r| == |a|
  {
    seq(|a|, i requires 0 <= i < |a| => base + a[i])
  }

  lemma Tenths(x: nat)
    ensures Trunc(x as real * 0.9) == 9 * x / 10 && Trunc(x as real - 0.1 * x as real) == 9 * x / 10
  {
    var q, r := 9 * x / 10, 9 * x % 10;
    assert 9 * x == 10 * q + r;
    assert x as real * 0.9 == q as real + r as real / 10.0;
    assert x as real - 0.1 * x as real == x as real * 0.9;
  }

  /** A limit times 0.9, and a number of bits less a tenth, cut to whole numbers. */
  function NineTenths(x: nat): (r: int)
    ensures r == 9 * x / 10
  {
    Tenths(x);
    Trunc(x as real * 0.9)
  }

  function LessATenth(x: nat): (r: int)
    ensures r == 9 * x / 10
  {
    Tenths(x);
    Trunc(x as real - 0.1 * x as real)
  }

  /** What the first loop of on_pe leaves is the most that is asked for. */
  lemma WishedIs(pe: real, base: int, meanBits: int, asked: int, x: int)
    requires 0 <= base <= MAX_BITS_PER_CHANNEL && 0 <= meanBits
    requires asked == Trunc(base as real * pe / 700.0 - base as real)
    requires x == Max(0, Min(MAX_BITS_PER_CHANNEL - base, Min(meanBits * 3 / 4, asked)))
    ensures Wished(pe, base, meanBits, x)
  {
    var z := base as real * pe / 700.0 - base as real;
    assert 700.0 * z == base as real * pe - 700.0 * base as real;
    if x > 0 {
      assert x <= asked && asked as real <= z;
      assert 700.0 * (base + x) as real == 700.0 * base as real + 700.0 * x as real;
    }
    if x == asked || asked <= 0 {
      assert (x + 1) as real > z;
      assert 700.0 * (base + x + 1) as real == 700.0 * base as real + 700.0 * (x + 1) as real;
    }
  }

  /** What one channel wishes for. */
  method WishOf(pe: real, base: int, meanBits: int) returns (x: int)
    requires 0 <= base <= MAX_BITS_PER_CHANNEL && 0 <= meanBits
    ensures 0 <= x <= MAX_BITS_PER_CHANNEL - base && Wished(pe, base, meanBits, x)
  {
    hide Trunc, Wished;
    x := Trunc(base as real * pe / 700.0 - base as real);
    ghost var asked := x;
    if x > meanBits * 3 / 4 {
      x := meanBits * 3 / 4;
    }
    if x < 0 {
      x := 0;
    }
    if x + base > MAX_BITS_PER_CHANNEL {
      x := Max(0, MAX_BITS_PER_CHANNEL - base);
    }
    WishedIs(pe, base, meanBits, asked, x);
  }

  /** The first loop of on_pe: an equal share for each channel, and what it wishes to have on top. */
  method Wishes(pe: seq<real>, targBits: array<int>, addBits: array<int>, tbits: int, meanBits: int)
    returns (bits: int)
    requires 1 <= targBits.Length == addBits.Length == |pe| <= 2 && targBits != addBits
    requires 0 <= tbits && 0 <= meanBits
    modifies targBits, addBits
    ensures forall c | 0 <= c < |pe| :: 0 <= targBits[c] && 0 <= addBits[c] <= MAX_BITS_PER_CHANNEL - targBits[c]
    ensures Sum(targBits[..]) <= tbits && bits == Sum(addBits[..])
    ensures forall c | 0 <= c < |pe| ::
      targBits[c] == Even(tbits, |pe|) && Wished(pe[c], targBits[c], meanBits, addBits[c])
  {
    hide Sum, Trunc, Wished;
    var channels := targBits.Length;
    bits := 0;
    SumNone();
    for ch := 0 to channels
      invariant forall c | 0 <= c < ch :: 0 <= targBits[c] && 0 <= addBits[c] <= MAX_BITS_PER_CHANNEL - targBits[c]
      invariant bits == Sum(addBits[..ch]) && Sum(targBits[..ch]) <= ch * (tbits / channels)
      invariant forall c | 0 <= c < ch ::
        targBits[c] == Even(tbits, |pe|) && Wished(pe[c], targBits[c], meanBits, addBits[c])
    {
      targBits[ch] := Min(MAX_BITS_PER_CHANNEL, tbits / channels);
      addBits[ch] := WishOf(pe[ch], targBits[ch], meanBits);
      bits := bits + addBits[ch];
      SumAppend(addBits[..ch], addBits[ch]);
      SumAppend(targBits[..ch], targBits[ch]);
      assert addBits[..ch + 1] == addBits[..ch] + [addBits[ch]];
      assert targBits[..ch + 1] == targBits[..ch] + [targBits[ch]];
    }
    assert addBits[..channels] == addBits[..] && targBits[..channels] == targBits[..];
  }

  /** The last loops of on_pe: what is lent goes to the targets, which are added up. */
  method Raise(targBits: array<int>, addBits: array<int>) returns (bits: int)
    requires targBits.Length == addBits.Length && targBits != addBits
    modifies targBits
    ensures forall c | 0 <= c < targBits.Length :: targBits[c] == old(targBits[c]) + addBits[c]
    ensures bits == Sum(targBits[..])
  {
    hide Sum;
    var channels := targBits.Length;
    for ch := 0 to channels
      invariant forall c | 0 <= c < ch :: targBits[c] == old(targBits[c]) + addBits[c]
      invariant forall c | ch <= c < channels :: targBits[c] == old(targBits[c])
    {
      targBits[ch] := targBits[ch] + addBits[ch];
    }
    SumNone();
    bits := 0;
    ghost var targ := targBits[..];
    assert targBits[..0] == [];
    assert forall c | 0 <= c < channels :: targ[c] == old(targBits[c]) + addBits[c];
    for ch := 0 to channels
      invariant bits == Sum(targBits[..ch]) && targBits[..] == targ
    {
      bits := bits + targBits[ch];
      SumAppend(targBits[..ch], targBits[ch]);
      assert targBits[..ch + 1] == targBits[..ch] + [targBits[ch]];
    }
    assert targBits[..channels] == targBits[..];
    assert forall c | 0 <= c < channels :: targBits[c] == targ[c];
  }

  /** Bits that are more than `total` together are scaled down to it. */
  method CutTo(a: array<int>, total: int, whole: int)
    requires 1 <= a.Length <= 2 && 0 <= total && whole == Sum(a[..]) && forall c | 0 <= c < a.Length :: 0 <= a[c]
    modifies a
    ensures a[..] == Within(old(a[..]), total) && Sum(a[..]) <= total && Sum(a[..]) <= old(Sum(a[..]))
    ensures forall c | 0 <= c < a.Length :: 0 <= a[c] <= old(a[c])
    ensures old(Sum(a[..])) <= total ==> a[..] == old(a[..])
  {
    hide Sum, Share;
    ghost var was := a[..];
    if whole > total {
      ShareOut(a, total, whole);
      assert a[..] == Within(was, total);
    } else {
      assert a[..] == was == Within(was, total);
    }
  }

  /** Scale the parts of `whole` down to parts of `total`. */
  method ShareOut(a: array<int>, total: int, whole: int)
    requires 1 <= a.Length <= 2 && 0 <= total <= whole == Sum(a[..]) && 0 < whole
    requires forall c | 0 <= c < a.Length :: 0 <= a[c]
    modifies a
    ensures forall c | 0 <= c < a.Length :: 0 <= a[c] <= old(a[c])
    ensures Sum(a[..]) <= total && forall c | 0 <= c < a.Length :: a[c] == Share(total, old(a[c]), whole)
  {
    hide Sum, Share;
    ghost var was := a[..];
    for ch := 0 to a.Length
      invariant forall c | ch <= c < a.Length :: a[c] == was[c]
      invariant forall c | 0 <= c < ch :: a[c] == Share(total, was[c], whole)
    {
      a[ch] := Share(total, a[ch], whole);
    }
    Shares(was, a[..], total, whole);
  }

  /** Half of all bits, times 0.66 of what the side channel's share of the energy lacks to one half but no more than 0.5
      times, cut to a whole number and to the mid channel's room. */
  ghost predicate MostMoved(ratio: real, all: int, room: int, m: int) {
    var f := if ratio >= 0.5 then 0.0 else if 0.66 * (0.5 - ratio) > 0.5 then 0.5 else 0.66 * (0.5 - ratio);
    0 <= m <= room && 2.0 * m as real <= f * all as real && (m == room || f * all as real < 2.0 * (m + 1) as real)
  }

  lemma MovedIs(ratio: real, fac: real, all: int, room: int, m: int)
    requires 0 <= all && 0 <= room
    requires var f := 0.33 * (0.5 - ratio) / 0.5; fac == if f < 0.0 then 0.0 else if f > 0.5 then 0.5 else f
    requires m == Max(0, Min(room, Trunc(fac * 0.5 * all as real)))
    ensures MostMoved(ratio, all, room, m)
  {
    assert 0.33 * (0.5 - ratio) / 0.5 == 0.66 * (0.5 - ratio);
    var z := fac * 0.5 * all as real;
    assert 2.0 * z == fac * all as real;
    assert fac * all as real >= 0.0;
    var t := Trunc(z);
    assert t >= 0 && t as real <= z < (t + 1) as real;
  }

  /** The side channel keeps 125 bits if it has them; the mid channel gets the others unless it has the mean already. */
  function Moved(t: seq<int>, m: int, meanBits: int): (r: seq<int>)
    requires |t| == 2
    ensures |r| == 2
  {
    if t[1] < 125 then t
    else if t[1] - m > 125 then [if t[0] < meanBits then t[0] + m else t[0], t[1] - m]
    else [t[0] + t[1] - 125, 125]
  }

  /** The side channel gives up `m` bits as far as it keeps 125, and the mid channel gets what it gives up, unless it
      has the granule's mean already and the side channel has more than that to give. */
  lemma GivenUp(t: seq<int>, m: nat, meanBits: int)
    requires |t| == 2
    ensures var r := Moved(t, m, meanBits);
      && r[1] == (if t[1] < 125 then t[1] else Max(125, t[1] - m))
      && r[0] - t[0] == if t[0] >= meanBits && t[1] - m > 125 then 0 else t[1] - r[1]
  {
  }

  /** The number of bits that reduce_side moves. */
  method BitsToMove(msEnerRatio: real, all: int, room: int) returns (moveBits: int)
    requires 0 <= all && 0 <= room
    ensures MostMoved(msEnerRatio, all, room, moveBits) && 0 <= moveBits <= room
  {
    hide Trunc, MostMoved;
    var fac := 0.33 * (0.5 - msEnerRatio) / 0.5;
    if fac < 0.0 {
      fac := 0.0;
    }
    if fac > 0.5 {
      fac := 0.5;
    }
    moveBits := Trunc(fac * 0.5 * all as real);
    if moveBits > room {
      moveBits := room;
    }
    if moveBits < 0 {
      moveBits := 0;
    }
    MovedIs(msEnerRatio, fac, all, room, moveBits);
  }

  /** reduce_side's targets, scaled down to what the granule may have. */
  ghost predicate SideReduced(was: seq<int>, ratio: real, meanBits: int, maxBits: int, targ: seq<int>) {
    |was| == 2 && exists m ::
      MostMoved(ratio, was[0] + was[1], MAX_BITS_PER_CHANNEL - was[0], m)
          && targ == Within(Moved(was, m, meanBits), maxBits)
  }

  /** reduce_side: bits move from the side channel to the mid channel. */
  method ReduceSide(targBits: array<int>, msEnerRatio: real, meanBits: int, maxBits: int)
    requires targBits.Length == 2 && 0 <= maxBits <= MAX_BITS_PER_GRANULE
    requires Allotted(targBits[..], MAX_BITS_PER_GRANULE)
    modifies targBits
    ensures Allotted(targBits[..], maxBits)
    ensures targBits[1] <= old(targBits[1]) && targBits[0] + targBits[1] <= old(targBits[0] + targBits[1])
    ensures old(targBits[0] + targBits[1]) <= maxBits ==>
      && targBits[0] >= old(targBits[0])
      && targBits[1] >= Min(125, old(targBits[1]))
    ensures SideReduced(old(targBits[..]), msEnerRatio, meanBits, maxBits, targBits[..])
  {
    hide Sum, MostMoved, Within;
    ghost var was := targBits[..];
    SumTwo(targBits[..]);
    var moveBits := BitsToMove(msEnerRatio, targBits[0] + targBits[1], MAX_BITS_PER_CHANNEL - targBits[0]);
    ghost var moved := moveBits;
    if targBits[1] >= 125 {
      if targBits[1] - moveBits > 125 {
        if targBits[0] < meanBits {
          targBits[0] := targBits[0] + moveBits;
        }
        targBits[1] := targBits[1] - moveBits;
      } else {
        targBits[0] := targBits[0] + targBits[1] - 125;
        targBits[1] := 125;
      }
    }
    moveBits := targBits[0] + targBits[1];
    assert targBits[..] == Moved(was, moved, meanBits);
    SumTwo(targBits[..]);
    CutTo(targBits, maxBits, moveBits);
    SumTwo(targBits[..]);
  }

  function Sum(s: seq<int>): int { if s == [] then 0 else Sum(s[..|s| - 1]) + s[|s| - 1] }

  lemma SumAppend(s: seq<int>, x: int)
    ensures Sum(s + [x]) == Sum(s) + x
  {
    assert (s + [x])[..|s|] == s;
  }

  function Share(total: int, part: int, whole: int): int
    requires whole > 0
  {
    total * part / whole
  }

  /** What a granule's channels may use: no channel more than its side information can say, and all of
      them no more than the granule has. */
  ghost predicate Allotted(targ: seq<int>, maxBits: int) {
    && (forall ch | 0 <= ch < |targ| :: 0 <= targ[ch] <= MAX_BITS_PER_CHANNEL)
    && Sum(targ) <= maxBits <= MAX_BITS_PER_GRANULE
  }

  lemma SumNone()
    ensures Sum([]) == 0
  {
  }

  lemma SumOfSums(a: seq<int>, b: seq<int>, c: seq<int>)
    requires 1 <= |a| == |b| == |c| <= 2 && forall i | 0 <= i < |a| :: c[i] == a[i] + b[i]
    ensures Sum(c) == Sum(a) + Sum(b)
  {
    hide Sum;
    SumTwo(a);
    SumTwo(b);
    SumTwo(c);
  }

  /** The share, less than one bit short. */
  lemma ShareIs(total: nat, part: nat, whole: nat)
    requires 0 < whole
    ensures Share(total, part, whole) * whole <= total * part < (Share(total, part, whole) + 1) * whole
  {
    var q, r := DivModId(total * part, whole);
  }

  lemma ShareBound(total: int, part: int, whole: int)
    requires 0 <= total <= whole && 0 <= part <= whole && 0 < whole
    ensures 0 <= Share(total, part, whole) <= part
    ensures Share(total, part, whole) * whole <= total * part
  {
    MulMonotone(total, whole, part);
    QuotientBound(total * part, part, whole);
  }

  lemma QuotientBound(a: nat, b: nat, m: nat)
    requires 0 < m && a <= m * b
    ensures 0 <= a / m <= b && a / m * m <= a
  {
    var q := a / m;
    assert q * m <= a;
    if b < q { MulMonotone(b + 1, q, m); }
  }

  lemma Shares(was: seq<int>, now: seq<int>, total: int, whole: int)
    requires 1 <= |was| == |now| <= 2 && 0 <= total <= whole == Sum(was) && 0 < whole
    requires forall c | 0 <= c < |was| :: 0 <= was[c]
    requires forall c | 0 <= c < |was| :: now[c] == Share(total, was[c], whole)
    ensures forall c | 0 <= c < |was| :: 0 <= now[c] <= was[c]
    ensures Sum(now) <= total
  {
    hide Share;
    SumTwo(was);
    SumTwo(now);
    ShareBound(total, was[0], whole);
    if |was| == 2 {
      ShareBound(total, was[1], whole);
      ShareTwo(total, was[0], was[1], now[0], now[1]);
    }
  }

  lemma ShareTwo(total: nat, a: nat, b: nat, x: nat, y: nat)
    requires 0 < a + b && x * (a + b) <= total * a && y * (a + b) <= total * b
    ensures x + y <= total
  {
    Split(x, y, a + b);
    Split(a, b, total);
    if total < x + y { MulAbove(total, x + y, a + b); }
  }

  lemma Split(x: nat, y: nat, m: nat)
    ensures (x + y) * m == x * m + y * m
  {
  }

  lemma SumTwo(s: seq<int>)
    requires 1 <= |s| <= 2
    ensures Sum(s) == s[0] + if |s| == 2 then s[1] else 0
  {
    assert Sum(s[..0]) == 0;
    if |s| == 2 { assert s[..1][..0] == s[..0]; }
  }
}

/** A whole file: samples are fed in any portions, every frame is entered in the seek table, the stream is flushed, and
    the tag frame is written.  A player that reads the tag finds how many samples were fed. */
module TaggedFile {
  import opened Bits
  import opened Gapless
  import opened SeekTable
  import opened Tag

  function Fed(portions: seq<nat>): nat {
    if portions == [] then 0 else Fed(portions[..|portions| - 1]) + portions[|portions| - 1]
  }

  /** What lame_encode_mp3_frame does for the seek table, for the frames encoded since the last time. */
  method EnterFrames(bag: Bag, frameNum: nat, rate: nat -> nat)
    requires bag.Valid() && bag.nVbrNumFrames <= frameNum && forall k :: rate(k) > 0
    requires forall i | 0 <= i < |bag.rates| :: bag.rates[i] > 0
    modifies bag, bag.bag
    ensures bag.Valid() && bag.nVbrNumFrames == frameNum && forall i | 0 <= i < |bag.rates| :: bag.rates[i] > 0
  {
    hide Bagged, Total;
    while bag.nVbrNumFrames < frameNum
      invariant bag.Valid() && bag.nVbrNumFrames <= frameNum
      invariant forall i | 0 <= i < |bag.rates| :: bag.rates[i] > 0
      decreases frameNum - bag.nVbrNumFrames
    {
      bag.AddVbr(rate(bag.nVbrNumFrames));
    }
  }

  /** The samples, in any portions, and the flush. */
  method EncodeSamples(f: Feeder, bag: Bag, portions: seq<nat>, rate: nat -> nat)
    requires f.Feeding() && f.fed == 0 && f.frameNum == 0 && f.mfSamplesToEncode != 0
    requires bag.Valid() && bag.rates == [] && forall k :: rate(k) > 0
    modifies f, bag, bag.bag
    ensures Times(f.frameNum, f.framesize) == Fed(portions) + ENCDELAY + f.encoderPadding
    ensures 576 <= f.encoderPadding < 576 + f.framesize && (f.framesize == 576 || f.framesize == 1152)
    ensures bag.Valid() && bag.nVbrNumFrames == f.frameNum && bag.pos > 0
    ensures forall i | 0 <= i < |bag.rates| :: bag.rates[i] > 0
  {
    hide Bagged, Total, Times;
    for i := 0 to |portions|
      invariant f.Feeding() && f.fed == Fed(portions[..i])
      invariant bag.Valid() && bag.nVbrNumFrames <= f.frameNum
      invariant forall i | 0 <= i < |bag.rates| :: bag.rates[i] > 0
    {
      assert portions[..i + 1][..i] == portions[..i];
      f.EncodeBuffer(portions[i]);
      EnterFrames(bag, f.frameNum, rate);
    }
    assert portions[..|portions|] == portions;
    f.Flush();
    EnterFrames(bag, f.frameNum, rate);
    TimesStep(0, bag.want);
    TimesStep(0, f.framesize);
  }

  /** What a player cuts off the decoded samples leaves the samples that were fed. */
  predicate Recovers(was: VbrTagData, tag: seq<byte>, framesize: nat, fed: nat)
    requires Holds(tag)
  {
    var d := GetVbrTag(was, tag);
    d.Some? && d.value.frames >= 0
    && Times(d.value.frames, framesize) - d.value.encDelay - d.value.encPadding == fed
  }

  /** The whole file: encoding, flushing, and lame_get_lametag_frame with what they have counted. */
  method EncodeFile(p: Settings, f: Feeder, bag: Bag, portions: seq<nat>, rate: nat -> nat, written: nat, l0: Lame,
                    buffer: array<byte>, ghost was: VbrTagData)
    returns (n: int)
    requires f.Feeding() && f.fed == 0 && f.frameNum == 0 && bag.Valid() && bag.rates == [] && forall k :: rate(k) > 0
    requires Initialized(p) && p.outSamplerate > 0 && p.writeVbrTag && TagFits(p) && TotalFrameSize(p) <= buffer.Length
    requires |l0.versionText| == 9
    modifies f, bag, bag.bag, buffer
    ensures n == TotalFrameSize(p) && 0 <= n <= buffer.Length
    ensures f.frameNum < 0x8000_0000 ==> Holds(buffer[..n]) && Recovers(was, buffer[..n], f.framesize, Fed(portions))
  {
    hide Initialized, IsTagFrame, IsToc, TotalFrameSize, Times, GetVbrTag, Holds;
    EncodeSamples(f, bag, portions, rate);
    var l := l0.(delay := ENCDELAY, padding := f.encoderPadding);
    ghost var toc;
    n, toc := GetLametagFrame(p, bag, written, l, buffer, buffer.Length);
    if f.frameNum < 0x8000_0000 {
      GaplessBack(p, f.framesize, Fed(portions), f.frameNum, written + n, toc, l, buffer[..n], was);
    }
  }
}

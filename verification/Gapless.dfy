/** Counting samples (lame.c and encoder.c): how many frames a stream has, what is padded at its end, and how
    frames are padded by single bytes to keep a constant bit rate. */
module Gapless {
  import opened Bits

  const ENCDELAY := 576
  const POSTDELAY := 1152
  const MDCTDELAY := 48
  const FFTOFFSET := 224 + MDCTDELAY
  const BLKSIZE := 1024
  const MFSIZE := 3 * 1152 + ENCDELAY - MDCTDELAY

  /** calcNeeded: what must be buffered before a frame is encoded. */
  function Needed(framesize: nat): nat {
    Max(BLKSIZE + framesize - FFTOFFSET, 512 + framesize - 32)
  }

  /** The sample counters of lame_internal_flags, without resampling and with room for the output. */
  class Feeder {
    const framesize: nat
    var mfSize: int
    var mfSamplesToEncode: int
    var frameNum: nat
    var encoderPadding: int
    /** Samples fed so far. */
    ghost var fed: nat

    /** lame_init_old */
    constructor (framesize: nat)
      requires framesize == 576 || framesize == 1152
      ensures Feeding() && fed == 0 && frameNum == 0 && this.framesize == framesize
    {
      this.framesize := framesize;
      mfSize := ENCDELAY - MDCTDELAY;
      mfSamplesToEncode := ENCDELAY + POSTDELAY;
      frameNum, encoderPadding, fed := 0, 0, 0;
      new;
      TimesStep(0, framesize);
    }

    /** What holds between calls until the flush: the counters are what has been fed less what has been encoded. */
    ghost predicate Feeding()
      reads this
    {
      && (framesize == 576 || framesize == 1152)
      && mfSize == ENCDELAY - MDCTDELAY + fed - Times(frameNum, framesize)
      && mfSamplesToEncode == ENCDELAY + POSTDELAY + fed - Times(frameNum, framesize)
      && 0 <= mfSize < Needed(framesize)
    }

    /** lame_encode_buffer_sample_t: the buffer never overflows, and what is not yet encoded stays in it. */
    method EncodeBuffer(nsamples0: nat)
      requires Feeding()
      modifies `mfSize, `mfSamplesToEncode, `frameNum, `fed
      ensures Feeding() && fed == old(fed) + nsamples0 && frameNum >= old(frameNum)
      ensures nsamples0 <= Needed(framesize) - old(mfSize) ==>
        frameNum == old(frameNum) + if nsamples0 == Needed(framesize) - old(mfSize) then 1 else 0
    {
      hide Times;
      var nsamples := nsamples0;
      var mfNeeded := Needed(framesize);
      while nsamples > 0
        invariant 0 <= nsamples && fed + nsamples == old(fed) + nsamples0 && Feeding() && frameNum >= old(frameNum)
        invariant nsamples0 <= mfNeeded - old(mfSize) ==>
          if frameNum == old(frameNum) then mfSize + nsamples == old(mfSize) + nsamples0
          else frameNum == old(frameNum) + 1 && nsamples == 0 && nsamples0 == mfNeeded - old(mfSize)
      {
        var nOut := Min(framesize, nsamples);
        nsamples := nsamples - nOut;
        mfSize := mfSize + nOut;
        fed := fed + nOut;
        assert mfSize <= MFSIZE;
        mfSamplesToEncode := (if mfSamplesToEncode < 1 then ENCDELAY + POSTDELAY else mfSamplesToEncode) + nOut;
        if mfSize >= mfNeeded {
          TimesStep(frameNum, framesize);
          frameNum := frameNum + 1;
          mfSize := mfSize - framesize;
          mfSamplesToEncode := mfSamplesToEncode - framesize;
        }
      }
    }

    /** How lame_encode_flush completes the last frame: at least 576 samples, in whole frames. */
    method Complete(samples: nat) returns (endPadding: nat, frames: nat)
      requires framesize == 576 || framesize == 1152
      ensures 576 <= endPadding < 576 + framesize && Times(frames, framesize) == samples + endPadding
    {
      hide Times;
      endPadding := framesize - samples % framesize;
      if endPadding < 576 {
        endPadding := endPadding + framesize;
      }
      frames := (samples + endPadding) / framesize;
      WholeFrames(samples, endPadding, framesize);
    }

    /** lame_encode_flush: it ends, and afterwards the frames hold exactly the samples fed before it, the encoder's
        delay and the padding at the end, which is at least 576 and less than a frame more. */
    method Flush()
      requires Feeding() || mfSamplesToEncode == 0
      modifies this
      ensures old(mfSamplesToEncode) == 0 ==> frameNum == old(frameNum) && encoderPadding == old(encoderPadding)
      ensures old(mfSamplesToEncode) != 0 ==>
        && Times(frameNum, framesize) == old(fed) + ENCDELAY + encoderPadding
        && 576 <= encoderPadding < 576 + framesize
      ensures mfSamplesToEncode == 0 && frameNum >= old(frameNum)
    {
      hide Times;
      if mfSamplesToEncode < 1 { return; }
      var samplesToEncode := mfSamplesToEncode - POSTDELAY;
      var mfNeeded := Needed(framesize);
      var endPadding, framesLeft := Complete(samplesToEncode);
      encoderPadding := endPadding;
      ghost var total := frameNum + framesLeft;
      Distribute2(frameNum, framesLeft, framesize);
      while framesLeft > 0
        invariant 0 <= framesLeft && frameNum + framesLeft == total && Feeding() && encoderPadding == endPadding
        invariant frameNum >= old(frameNum)
        decreases framesLeft, mfNeeded - mfSize
      {
        var bunch := mfNeeded - mfSize;
        var before := frameNum;
        if bunch > 1152 { bunch := 1152; }
        if bunch < 1 { bunch := 1; }
        TimesStep(frameNum, framesize);
        EncodeBuffer(bunch);
        framesLeft := framesLeft - if before != frameNum then 1 else 0;
      }
      mfSamplesToEncode := 0;
    }
  }

  /** The padding fills up the last frame. */
  lemma WholeFrames(samples: nat, padding: nat, framesize: nat)
    requires 0 < framesize && (padding == framesize - samples % framesize
        || padding == 2 * framesize - samples % framesize)
    ensures Times((samples + padding) / framesize, framesize) == samples + padding
  {
    var q, r := DivModId(samples, framesize);
    var n := if padding == framesize - r then 1 else 2;
    Distribute2(q, n, framesize);
    DivUnique(samples + padding, framesize, q + n, 0);
  }

  lemma Distribute2(x: nat, y: nat, m: nat)
    ensures Times(x + y, m) == Times(x, m) + Times(y, m)
  {
  }

  // ----- slots

  /** The padding of constant bit rate: slot_lag and frac_SpF.  A frame has `slots` bytes and one more if padded;
      exactly it should have `bits / samplerate`, where bits is (version + 1) * 72000 * brate. */
  class Padder {
    const bits: nat
    const samplerate: nat
    const fracSpF: nat
    var slotLag: int
    var padding: nat
    ghost var frames: nat
    /** The bytes of all frames so far. */
    ghost var bytes: nat

    /** The end of lame_init_params. */
    constructor (bits: nat, samplerate: nat)
      requires 0 < samplerate
      ensures Steady() && frames == 0 && bytes == 0 && this.bits == bits && this.samplerate == samplerate
    {
      this.bits, this.samplerate, fracSpF := bits, samplerate, bits % samplerate;
      slotLag := bits % samplerate;
      padding, frames, bytes := 0, 0, 0;
      new;
      TimesStep(0, bits);
      TimesStep(0, samplerate);
    }

    /** slot_lag is how far the frames so far are ahead of the exact length, counted from its first value. */
    ghost predicate Steady()
      reads this
    {
      && 0 < samplerate && fracSpF == bits % samplerate && 0 <= slotLag < samplerate
      && Times(bytes, samplerate) == Times(frames, bits) + slotLag - fracSpF
    }

    /** The padding step of lame_encode_mp3_frame; the first frame is not padded. */
    method NextFrame()
      requires Steady()
      modifies this
      ensures Steady() && frames == old(frames) + 1 && padding <= 1
      ensures bytes == old(bytes) + bits / samplerate + padding
      ensures old(frames) == 0 && old(bytes) == 0 ==> padding == 0
    {
      hide Times;
      padding := 0;
      slotLag := slotLag - fracSpF;
      if slotLag < 0 {
        slotLag := slotLag + samplerate;
        padding := 1;
      }
      NextBytes(bytes, bits, samplerate, padding);
      TimesStep(frames, bits);
      FirstLag(bits, samplerate);
      bytes := bytes + bits / samplerate + padding;
      frames := frames + 1;
    }

    /** Whatever the number of frames, all their bytes are within one byte of the exact length. */
    lemma NoDrift()
      requires Steady()
      ensures Times(bytes, samplerate) < Times(frames, bits) + samplerate
      ensures Times(frames, bits) < Times(bytes, samplerate) + samplerate
    {
    }
  }

  lemma NextBytes(bytes: nat, bits: nat, samplerate: nat, padding: nat)
    requires 0 < samplerate && padding <= 1
    ensures Times(bytes + bits / samplerate + padding, samplerate)
         == Times(bytes, samplerate) + bits - bits % samplerate + if padding == 1 then samplerate else 0
  {
    var q, r := DivModId(bits, samplerate);
    Distribute2(bytes, q + padding, samplerate);
    Distribute2(q, padding, samplerate);
  }

  lemma FirstLag(bits: nat, samplerate: nat)
    ensures Times(0, samplerate) == Times(0, bits) == 0
  {
  }
}

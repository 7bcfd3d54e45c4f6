/** What the formatter of bitstream.c works on: a byte buffer filled bit by bit, the ring of queued headers
    with their write times, and where the writer stands in the frames. */
module Output {
  import opened Bits
  import opened Framing

  const MAX_HEADER_BUF := 256
  const MAX_HEADER_LEN := 40
  const BUFFER_SIZE := 147456

  /** One slot of the header ring. */
  datatype HeaderSlot = HeaderSlot(writeTiming: int, ptr: nat, buf: HeaderBuf)

  type HeaderBuf = b: seq<byte> | |b| == MAX_HEADER_LEN witness seq(MAX_HEADER_LEN, _ => 0)

  /** A bit of the output: part of the audio stream, or of a tag byte put in beside it. */
  datatype Sym = Audio(bit: bool) | Dummy(bit: bool)

  ghost function Values(s: seq<Sym>): seq<bool> {
    seq(|s|, i requires 0 <= i < |s| => s[i].bit)
  }

  /** The audio stream: the output without the tag bytes. */
  ghost function AudioOf(s: seq<Sym>): seq<bool> {
    if s == [] then []
    else if s[|s| - 1].Audio? then AudioOf(s[..|s| - 1]) + [s[|s| - 1].bit]
    else AudioOf(s[..|s| - 1])
  }

  ghost function AudioSyms(b: seq<bool>): (s: seq<Sym>)
    ensures |s| == |b| && Values(s) == b
  {
    seq(|b|, i requires 0 <= i < |b| => Audio(b[i]))
  }

  ghost function DummySyms(b: seq<bool>): (s: seq<Sym>)
    ensures |s| == |b| && Values(s) == b
  {
    seq(|b|, i requires 0 <= i < |b| => Dummy(b[i]))
  }

  lemma {:induction false} AudioOfAudio(s: seq<Sym>, b: seq<bool>)
    ensures AudioOf(s + AudioSyms(b)) == AudioOf(s) + b
  {
    var t := s + AudioSyms(b);
    if b == [] {
      assert t == s;
    } else {
      var n := |b| - 1;
      AudioOfAudio(s, b[..n]);
      assert t[..|t| - 1] == s + AudioSyms(b[..n]);
      assert b == b[..n] + [b[n]];
    }
  }

  lemma {:induction false} AudioOfDummy(s: seq<Sym>, b: seq<bool>)
    ensures AudioOf(s + DummySyms(b)) == AudioOf(s)
  {
    var t := s + DummySyms(b);
    if b == [] {
      assert t == s;
    } else {
      AudioOfDummy(s, b[..|b| - 1]);
      assert t[..|t| - 1] == s + DummySyms(b[..|b| - 1]);
    }
  }

  /** What was put in since the last copy, after more has been put in. */
  lemma ValuesGrow(s: seq<Sym>, from: nat, t: seq<Sym>)
    requires from <= |s|
    ensures Values((s + t)[from..]) == Values(s[from..]) + Values(t)
    ensures (s + t)[..from] == s[..from]
  {
    assert (s + t)[from..] == s[from..] + t;
  }

  lemma CutValues(s: seq<Sym>, n: nat)
    requires n <= |s|
    ensures Values(s[..n]) + Values(s[n..]) == Values(s)
    ensures s[..|s|] == s && s[|s|..] == []
  {
  }

  lemma ValuesAppend(s: seq<Sym>, t: seq<Sym>)
    ensures Values(s + t) == Values(s) + Values(t)
  {
  }

  // ----- the byte buffer

  /** The bytes hold `bits`, of which the last byte has `free` bits to come; those are zero. */
  ghost predicate Held(bytes: seq<byte>, free: nat, bits: seq<bool>) {
    if bytes == [] then free == 0 && bits == []
    else
      var last := bytes[|bytes| - 1];
      && free <= 8 && last % Pow2(free) == 0
      && BytesToBits(bytes[..|bytes| - 1]) + BitsOf(last / Pow2(free), 8 - free) == bits
  }

  lemma HeldFull(bytes: seq<byte>, bits: seq<bool>)
    ensures Held(bytes, 0, bits) <==> BytesToBits(bytes) == bits
  {
    if bytes != [] {
      assert Pow2(0) == 1;
      hide BytesToBits, BitsOf, Pow2;
      var n := |bytes| - 1;
      BytesToBitsAppend(bytes[..n], bytes[n]);
      assert bytes == bytes[..n] + [bytes[n]];
    }
  }

  lemma HeldFresh(bytes: seq<byte>, bits: seq<bool>)
    requires Held(bytes, 0, bits)
    ensures Held(bytes + [0], 8, bits)
  {
    HeldFull(bytes, bits);
    Pow2Small();
    assert (bytes + [0])[..|bytes|] == bytes;
    assert BitsOf(0, 0) == [];
  }

  lemma HeldConcat(bytes: seq<byte>, bits: seq<bool>, more: seq<byte>)
    requires Held(bytes, 0, bits)
    ensures Held(bytes + more, 0, bits + BytesToBits(more))
  {
    hide Held, BytesToBits;
    HeldFull(bytes, bits);
    BytesToBitsConcat(bytes, more);
    HeldFull(bytes + more, bits + BytesToBits(more));
  }

  lemma HeldPut(bytes: seq<byte>, idx: nat, k: nat, bits: seq<bool>, val: nat, j: nat)
    requires bytes != [] && 0 < k && idx + k <= 8 && Held(bytes, idx + k, bits)
    requires idx + k < 8 ==> ShiftRight(val, j) < Pow2(k)
    ensures var n := |bytes| - 1;
      Held(bytes[n := OrInto(bytes[n], val, j, idx)], idx, bits + BitsOf(ShiftRight(val, j), k))
  {
    var n := |bytes| - 1;
    Pow2Small();
    hide BytesToBits, BitsOf, Pow2, OrInto;
    OrIntoBits(bytes[n], val, j, k, idx);
    var after := bytes[n := OrInto(bytes[n], val, j, idx)];
    assert after[..n] == bytes[..n];
    assert 8 - idx - k == 8 - (idx + k);
  }

  // ----- a header being written

  /** The first `ptr` bits of a header of `len` bytes are `bits`; the rest of it is still zero. */
  ghost predicate SlotHeld(buf: HeaderBuf, ptr: nat, len: nat, bits: seq<bool>) {
    && len <= MAX_HEADER_LEN && |bits| == ptr <= 8 * len
    && (ptr % 8 == 0 ==> Held(buf[..ptr / 8], 0, bits))
    && (ptr % 8 != 0 ==> Held(buf[..ptr / 8 + 1], 8 - ptr % 8, bits))
    && forall i | ptr <= 8 * i < 8 * len :: buf[i] == 0
  }

  lemma SlotCleared(buf: HeaderBuf, len: nat)
    requires len <= MAX_HEADER_LEN
    requires forall i | 0 <= i < len :: buf[i] == 0
    ensures SlotHeld(buf, 0, len, [])
  {
  }

  lemma SlotFull(buf: HeaderBuf, len: nat, bits: seq<bool>)
    requires SlotHeld(buf, 8 * len, len, bits)
    ensures BytesToBits(buf[..len]) == bits
  {
    hide Held, BytesToBits;
    assert 8 * len / 8 == len;
    HeldFull(buf[..len], bits);
  }

  /** One turn of writeheader: the `k` bits of `val` above its `j` low ones. */
  lemma SlotPut(buf: HeaderBuf, ptr: nat, len: nat, bits: seq<bool>, val: nat, j: nat, k: nat)
    requires SlotHeld(buf, ptr, len, bits) && 0 < k <= 8 - ptr % 8 && ptr + k <= 8 * len
    requires ptr % 8 != 0 ==> ShiftRight(val, j) < Pow2(k)
    ensures ptr / 8 < MAX_HEADER_LEN
    ensures SlotHeld(buf[ptr / 8 := OrInto(buf[ptr / 8], val, j, 8 - ptr % 8 - k)], ptr + k, len,
                     bits + BitsOf(ShiftRight(val, j), k))
  {
    hide Held, OrInto, BitsOf, ShiftRight, Pow2;
    var p, idx := ptr / 8, 8 - ptr % 8 - k;
    var after := buf[p := OrInto(buf[p], val, j, idx)];
    if ptr % 8 == 0 {
      HeldFresh(buf[..p], bits);
      assert buf[..p] + [0] == buf[..p + 1];
    }
    HeldPut(buf[..p + 1], idx, k, bits, val, j);
    assert buf[..p + 1][p := OrInto(buf[p], val, j, idx)] == after[..p + 1];
    NextPtr(ptr, k);
  }

  lemma SlotBits(buf: HeaderBuf, ptr: nat, len: nat, bits: seq<bool>)
    requires SlotHeld(buf, ptr, len, bits)
    ensures |bits| == ptr && len <= MAX_HEADER_LEN
  {
  }

  lemma SlotComplete(slot: HeaderSlot, len: nat, f: Frame)
    requires SlotHeld(slot.buf, slot.ptr, len, f.header) && |f.header| == 8 * len
    ensures HeaderIs(slot, f, 8 * len)
  {
    SlotFull(slot.buf, len, f.header);
  }

  lemma Regroup2(a: seq<bool>, b: seq<bool>, c: seq<bool>)
    ensures a + b + c == a + (b + c)
  {
  }

  lemma NextPtr(ptr: nat, k: nat)
    requires 0 < k <= 8 - ptr % 8
    ensures if k == 8 - ptr % 8 then (ptr + k) % 8 == 0 && (ptr + k) / 8 == ptr / 8 + 1
            else (ptr + k) % 8 == ptr % 8 + k && (ptr + k) / 8 == ptr / 8
  {
  }

  // ----- the header ring

  function Wrap(i: nat): (r: nat)
    requires i < 2 * MAX_HEADER_BUF
    ensures r < MAX_HEADER_BUF && r == i % MAX_HEADER_BUF
  {
    if i < MAX_HEADER_BUF then i else i - MAX_HEADER_BUF
  }

  /** Write time of frame `k`, counted from the current position of a stream into which `written` bits
      of main data and the headers of the first `sent` frames have gone. */
  ghost function Due(fs: seq<Frame>, sent: nat, written: int, hdr: nat, k: nat): int
    requires sent <= k <= |fs|
  {
    Capacity(fs[..k]) - written + Times(k - sent, hdr)
  }

  /** From slot `w` on, the ring holds the headers of the frames from `sent` on, each with its write
      time; one slot further is the write time of the next frame.  `now` is the bit counter. */
  ghost predicate Ring(slots: seq<HeaderSlot>, w: nat, fs: seq<Frame>, sent: nat, written: int,
                       now: int, hdr: nat)
  {
    && |slots| == MAX_HEADER_BUF && w < MAX_HEADER_BUF
    && sent <= |fs| && |fs| - sent < MAX_HEADER_BUF
    && (forall k | sent <= k <= |fs| :: DueAt(slots, w, fs, sent, written, now, hdr, k))
    && (forall k | sent <= k < |fs| :: HeaderIs(slots[Wrap(w + (k - sent))], fs[k], hdr))
  }

  ghost predicate DueAt(slots: seq<HeaderSlot>, w: nat, fs: seq<Frame>, sent: nat, written: int,
                        now: int, hdr: nat, k: nat)
    requires |slots| == MAX_HEADER_BUF && w < MAX_HEADER_BUF
    requires sent <= k <= |fs| && |fs| - sent < MAX_HEADER_BUF
  {
    slots[Wrap(w + (k - sent))].writeTiming == now + Due(fs, sent, written, hdr, k)
  }

  ghost predicate HeaderIs(slot: HeaderSlot, f: Frame, hdr: nat) {
    hdr <= 8 * MAX_HEADER_LEN
    && BytesToBits(slot.buf[..hdr / 8]) == f.header
  }

  lemma RingFirst(slots: seq<HeaderSlot>, w: nat, fs: seq<Frame>, sent: nat, written: int, now: int, hdr: nat)
    requires Ring(slots, w, fs, sent, written, now, hdr)
    ensures slots[w].writeTiming == now + Capacity(fs[..sent]) - written
    ensures sent < |fs| ==> HeaderIs(slots[w], fs[sent], hdr)
  {
    assert DueAt(slots, w, fs, sent, written, now, hdr, sent);
    assert w == Wrap(w + (sent - sent));
  }

  lemma RingPop(slots: seq<HeaderSlot>, w: nat, fs: seq<Frame>, sent: nat, written: int, now: int, hdr: nat)
    requires Ring(slots, w, fs, sent, written, now, hdr) && sent < |fs|
    ensures Ring(slots, Wrap(w + 1), fs, sent + 1, written, now + hdr, hdr)
  {
    hide Due;
    var w1, sent1, now1 := Wrap(w + 1), sent + 1, now + hdr;
    forall k | sent1 <= k <= |fs|
      ensures DueAt(slots, w1, fs, sent1, written, now1, hdr, k)
    {
      assert DueAt(slots, w, fs, sent, written, now, hdr, k);
      assert Wrap(Wrap(w + 1) + (k - (sent + 1))) == Wrap(w + (k - sent));
      DuePop(fs, sent, written, hdr, k);
    }
    forall k | sent1 <= k < |fs|
      ensures HeaderIs(slots[Wrap(w1 + (k - sent1))], fs[k], hdr)
    {
      assert Wrap(Wrap(w + 1) + (k - (sent + 1))) == Wrap(w + (k - sent));
    }
  }

  lemma RingDelay(slots: seq<HeaderSlot>, w: nat, fs: seq<Frame>, sent: nat, written: int, now: int, hdr: nat,
                  after: seq<HeaderSlot>, n: int)
    requires Ring(slots, w, fs, sent, written, now, hdr) && |after| == |slots|
    requires forall i | 0 <= i < |slots| :: after[i] == slots[i].(writeTiming := slots[i].writeTiming + n)
    ensures Ring(after, w, fs, sent, written, now + n, hdr)
  {
    hide Due;
    var later := now + n;
    forall k | sent <= k <= |fs|
      ensures DueAt(after, w, fs, sent, written, later, hdr, k)
    {
      assert DueAt(slots, w, fs, sent, written, now, hdr, k);
    }
  }

  lemma RingData(slots: seq<HeaderSlot>, w: nat, fs: seq<Frame>, sent: nat, written: int, now: int, hdr: nat, n: int)
    requires Ring(slots, w, fs, sent, written, now, hdr)
    ensures Ring(slots, w, fs, sent, written + n, now + n, hdr)
  {
    var written1, now1 := written + n, now + n;
    forall k | sent <= k <= |fs|
      ensures DueAt(slots, w, fs, sent, written1, now1, hdr, k)
    {
      assert DueAt(slots, w, fs, sent, written, now, hdr, k);
      assert Due(fs, sent, written + n, hdr, k) == Due(fs, sent, written, hdr, k) - n;
    }
  }

  lemma DuePush(fs: seq<Frame>, f: Frame, sent: nat, written: int, hdr: nat, k: nat)
    requires sent <= |fs| && sent <= k <= |fs| + 1 && |f.header| == hdr
    ensures k <= |fs| ==> Due(fs + [f], sent, written, hdr, k) == Due(fs, sent, written, hdr, k)
    ensures k == |fs| + 1 ==> Due(fs + [f], sent, written, hdr, k) == Due(fs, sent, written, hdr, |fs|) + f.size
  {
    if k <= |fs| {
      assert (fs + [f])[..k] == fs[..k];
    } else {
      assert (fs + [f])[..k] == fs + [f] && fs[..|fs|] == fs;
      CapacityAppend(fs, f);
      hide Times, Capacity;
      TimesStep(|fs| - sent, hdr);
    }
  }

  /** Queueing a header: it is in the slot at the end, and the time of the next one goes into the slot behind. */
  lemma RingPush(slots: seq<HeaderSlot>, w: nat, fs: seq<Frame>, sent: nat, written: int, now: int, hdr: nat,
                 after: seq<HeaderSlot>, f: Frame)
    requires Ring(slots, w, fs, sent, written, now, hdr) && |fs| - sent + 1 < MAX_HEADER_BUF
    requires |after| == MAX_HEADER_BUF && |f.header| == hdr
    requires var h := Wrap(w + (|fs| - sent));
      && HeaderIs(after[h], f, hdr) && after[h].writeTiming == slots[h].writeTiming
      && after[Wrap(h + 1)].writeTiming == slots[h].writeTiming + f.size
      && forall i | 0 <= i < MAX_HEADER_BUF && i != h && i != Wrap(h + 1) :: after[i] == slots[i]
    ensures Ring(after, w, fs + [f], sent, written, now, hdr)
  {
    hide Due;
    var h, gs := Wrap(w + (|fs| - sent)), fs + [f];
    assert Wrap(h + 1) == Wrap(w + (|fs| + 1 - sent));
    forall k | sent <= k <= |gs|
      ensures DueAt(after, w, gs, sent, written, now, hdr, k)
    {
      DuePush(fs, f, sent, written, hdr, k);
      if k <= |fs| {
        assert DueAt(slots, w, fs, sent, written, now, hdr, k);
        assert Wrap(w + (k - sent)) != Wrap(h + 1);
      } else {
        assert DueAt(slots, w, fs, sent, written, now, hdr, |fs|);
      }
    }
    forall k | sent <= k < |gs|
      ensures HeaderIs(after[Wrap(w + (k - sent))], gs[k], hdr)
    {
      if k < |fs| {
        assert Wrap(w + (k - sent)) != Wrap(h + 1);
        assert HeaderIs(slots[Wrap(w + (k - sent))], fs[k], hdr);
      }
    }
  }

  /** With a full ring, queueing one more puts the time of the next header over that of the first one
      pending, which then never comes due in its place. */
  lemma RingOverrun(slots: seq<HeaderSlot>, w: nat, fs: seq<Frame>, sent: nat, written: int, now: int, hdr: nat,
                    after: seq<HeaderSlot>, f: Frame)
    requires Ring(slots, w, fs, sent, written, now, hdr) && |fs| - sent + 1 == MAX_HEADER_BUF
    requires |after| == MAX_HEADER_BUF && |f.header| == hdr && Framed(fs + [f], hdr)
    requires var h := Wrap(w + (|fs| - sent));
      after[Wrap(h + 1)].writeTiming == slots[h].writeTiming + f.size
    ensures after[w].writeTiming > now + Due(fs + [f], sent, written, hdr, sent)
  {
    var h := Wrap(w + (|fs| - sent));
    assert Wrap(h + 1) == w;
    assert DueAt(slots, w, fs, sent, written, now, hdr, |fs|);
    DuePush(fs, f, sent, written, hdr, sent);
    assert fs[..|fs|] == fs;
    CapacityMonotone(fs, hdr, sent, |fs|) by { assert forall i | 0 <= i < |fs| :: fs[i] == (fs + [f])[i]; }
    assert f == (fs + [f])[|fs|];
  }

  lemma BitsSplitAt(val: nat, j: nat, was: nat, rest: nat)
    requires rest <= was <= j
    ensures BitsOf(ShiftRight(val, rest), j - rest)
         == BitsOf(ShiftRight(val, was), j - was) + BitsOf(ShiftRight(val, rest), was - rest)
    ensures ShiftRight(val, 0) == val
  {
    ShiftRightTwice(val, rest, was - rest);
    BitsSplit(ShiftRight(val, rest), j - was, was - rest);
  }

  lemma ShiftSmall(val: nat, rest: nat, k: nat)
    ensures val < Pow2(rest + k) ==> ShiftRight(val, rest) < Pow2(k)
  {
    Pow2Add(k, rest);
    var q, r := DivModId(val, Pow2(rest));
    if q >= Pow2(k) { MulMonotone(Pow2(k), q, Pow2(rest)); }
  }

  // ----- where the writer stands

  /** `written` bits of main data have gone into the frames, and the first `sent` frames are those
      that have received some. */
  ghost predicate Placed(fs: seq<Frame>, sent: nat, written: int, hdr: nat) {
    && Framed(fs, hdr) && WholeBytes(fs) && hdr % 8 == 0
    && sent <= |fs|
    && 0 <= written <= Capacity(fs[..sent])
    && (sent > 0 ==> Capacity(fs[..sent - 1]) < written)
  }

  /** Room left before the next header is due. */
  ghost function Gap(fs: seq<Frame>, sent: nat, written: int): int
    requires sent <= |fs|
  {
    Capacity(fs[..sent]) - written
  }

  lemma PlacedGap(fs: seq<Frame>, sent: nat, written: int, hdr: nat)
    requires Placed(fs, sent, written, hdr)
    ensures 0 <= Gap(fs, sent, written) <= Capacity(fs) - written
    ensures Gap(fs, sent, written) > 0 ==> sent > 0
    ensures 0 == Gap(fs, sent, written) < Capacity(fs) - written ==> sent < |fs|
  {
    assert Capacity([]) == 0;
    hide Capacity;
    assert fs[..|fs|] == fs && fs[..0] == [];
    CapacityMonotone(fs, hdr, sent, |fs|);
  }

  /** A byte of which `free` bits are left lies inside the room before the next header. */
  lemma PlacedByte(fs: seq<Frame>, sent: nat, written: int, hdr: nat, free: nat)
    requires Placed(fs, sent, written, hdr)
    requires free < 8 && (written + free) % 8 == 0
    ensures free <= Gap(fs, sent, written)
    ensures Gap(fs, sent, written) > free == 0 ==> Gap(fs, sent, written) >= 8
  {
    CapacityWhole(fs[..sent], hdr);
    NextByte(Capacity(fs[..sent]), written, free);
  }

  lemma NextByte(c: int, written: int, free: nat)
    requires c % 8 == 0 && free < 8 && (written + free) % 8 == 0 && written <= c
    ensures free <= c - written
    ensures c - written > free == 0 ==> c - written >= 8
  {
    var q, p := c / 8, (written + free) / 8;
    assert c == 8 * q && written + free == 8 * p;
  }

  lemma DueAtEnd(fs: seq<Frame>, sent: nat, written: int, hdr: nat)
    requires sent <= |fs|
    ensures Due(fs, sent, written, hdr, |fs|) >= Capacity(fs) - written + if sent < |fs| then hdr else 0
  {
    hide Capacity, Times;
    assert fs[..|fs|] == fs;
    TimesStep(|fs| - sent - if sent < |fs| then 1 else 0, hdr);
  }

  lemma NotPast(fs: seq<Frame>, sent: nat, written: int, hdr: nat)
    requires Placed(fs, sent, written, hdr)
    ensures sent <= |fs| && Capacity(fs) - written >= 0
  {
    hide Capacity;
    PlacedGap(fs, sent, written, hdr);
  }

  lemma PlacedWhole(fs: seq<Frame>, sent: nat, written: int, hdr: nat)
    requires Placed(fs, sent, written, hdr)
    ensures Capacity(fs) % 8 == 0 && Capacity(fs) - written >= 0 && sent <= |fs|
  {
    NotPast(fs, sent, written, hdr);
    CapacityWhole(fs, hdr);
  }

  lemma PlacedFull(fs: seq<Frame>, sent: nat, written: int, hdr: nat)
    requires Placed(fs, sent, written, hdr) && written == Capacity(fs)
    ensures sent == |fs|
  {
    hide Capacity;
    assert fs[..|fs|] == fs;
    CapacityMonotone(fs, hdr, sent, |fs|);
  }

  lemma AlignedIff(c: int, written: int, free: int, now: int)
    requires c % 8 == 0 && 0 <= free < 8 && (written + free) % 8 == 0 && (now + free) % 8 == 0
    ensures (c - written) % 8 == 0 <==> free == 0
    ensures free == 0 ==> now % 8 == 0
  {
  }

  /** The frames whose headers are pending are empty, so few of them fit in what is free. */
  lemma Pending(fs: seq<Frame>, sent: nat, written: int, hdr: nat, room: nat, n: nat)
    requires Placed(fs, sent, written, hdr) && Roomed(fs, room)
    requires Capacity(fs) - written < Times(n, room)
    ensures |fs| - sent < n
  {
    hide Capacity, Times;
    CapacityConcat(fs[..sent], fs[sent..]);
    assert fs == fs[..sent] + fs[sent..];
    RoomedCapacity(fs[sent..], room);
    if n <= |fs| - sent { TimesMonotone(n, |fs| - sent, room); }
  }

  lemma DuePop(fs: seq<Frame>, sent: nat, written: int, hdr: nat, k: nat)
    requires sent < k <= |fs|
    ensures Due(fs, sent + 1, written, hdr, k) == Due(fs, sent, written, hdr, k) - hdr
  {
    hide Capacity, Times;
    TimesStep(k - sent - 1, hdr);
  }

  lemma DueData(fs: seq<Frame>, sent: nat, written: int, hdr: nat, k: nat, n: int)
    requires sent <= k <= |fs|
    ensures Due(fs, sent, written + n, hdr, k) == Due(fs, sent, written, hdr, k) - n
  {
  }

  /** The output is the frames as far as they are written, and `tags` bits beside them. */
  ghost predicate InStep(out: seq<Sym>, fs: seq<Frame>, main: seq<bool>, tags: nat) {
    AudioOf(out) == Layout(fs, main) && |out| == |AudioOf(out)| + tags
  }

  /** Putting data keeps the output in step with the layout: between headers it goes straight on, and
      at a boundary the next header goes in before it. */
  lemma PlacedPut(fs: seq<Frame>, sent: nat, main: seq<bool>, hdr: nat, out: seq<Sym>, c: seq<bool>, tags: nat)
    requires Placed(fs, sent, |main|, hdr) && InStep(out, fs, main, tags)
    requires 0 < |c| <= 8 && |main| + |c| <= Capacity(fs)
    ensures Gap(fs, sent, |main|) >= |c| ==>
      && Placed(fs, sent, |main + c|, hdr)
      && InStep(out + AudioSyms(c), fs, main + c, tags)
    ensures Gap(fs, sent, |main|) == 0 ==>
      && sent < |fs|
      && Placed(fs, sent + 1, |main + c|, hdr)
      && InStep(out + AudioSyms(fs[sent].header) + AudioSyms(c), fs, main + c, tags)
  {
    PlacedGap(fs, sent, |main|, hdr);
    hide AudioOf, Layout, AudioSyms;
    if Gap(fs, sent, |main|) >= |c| {
      PlacedInside(fs, sent, |main|, hdr, |c|);
      AudioOfAudio(out, c);
      LayoutInside(fs, main, c, sent, hdr);
    } else if Gap(fs, sent, |main|) == 0 {
      PlacedBoundary(fs, sent, |main|, hdr, |c|);
      AudioOfAudio(out, fs[sent].header);
      AudioOfAudio(out + AudioSyms(fs[sent].header), c);
      LayoutBoundary(fs, main, c, sent, hdr);
    }
  }

  /** Without tags, the audio stream is the whole output. */
  lemma {:induction false} NoTags(s: seq<Sym>)
    requires |AudioOf(s)| >= |s|
    ensures AudioOf(s) == Values(s)
  {
    AudioAtMost(s);
    if s != [] {
      var n := |s| - 1;
      AudioAtMost(s[..n]);
      NoTags(s[..n]);
      assert Values(s) == Values(s[..n]) + [s[n].bit];
    }
  }

  lemma {:induction false} AudioAtMost(s: seq<Sym>)
    ensures |AudioOf(s)| <= |s|
  {
    if s != [] { AudioAtMost(s[..|s| - 1]); }
  }

  /** Data inside the frame being filled. */
  lemma PlacedInside(fs: seq<Frame>, sent: nat, written: int, hdr: nat, n: nat)
    requires Placed(fs, sent, written, hdr) && n <= Gap(fs, sent, written)
    ensures Placed(fs, sent, written + n, hdr)
  {
  }

  /** Data at a frame boundary goes into the next frame, which has room for a byte. */
  lemma PlacedBoundary(fs: seq<Frame>, sent: nat, written: int, hdr: nat, n: nat)
    requires Placed(fs, sent, written, hdr) && Gap(fs, sent, written) == 0 && sent < |fs| && 0 < n <= 8
    ensures n <= Room(fs[sent])
    ensures Placed(fs, sent + 1, written + n, hdr)
  {
    CapacityStep(fs, sent);
    assert fs[..sent + 1 - 1] == fs[..sent];
  }

  /** Queueing a frame leaves everything where it is. */
  lemma PlacedPush(fs: seq<Frame>, sent: nat, main: seq<bool>, hdr: nat, f: Frame)
    requires Placed(fs, sent, |main|, hdr) && |f.header| == hdr < f.size && f.size % 8 == 0
    ensures Placed(fs + [f], sent, |main|, hdr)
    ensures Layout(fs + [f], main) == Layout(fs, main)
    ensures Capacity(fs + [f]) == Capacity(fs) + f.size - hdr
  {
    hide Capacity, Layout;
    assert (fs + [f])[..sent] == fs[..sent];
    if sent > 0 { assert (fs + [f])[..sent - 1] == fs[..sent - 1]; }
    PlacedGap(fs, sent, |main|, hdr);
    LayoutExtend(fs, f, main, hdr);
    CapacityAppend(fs, f);
  }

  /** The write time behind the last frame: all main data still to come, and the headers.  The write time
      of the last frame itself is still to come if and only if its header is. */
  lemma RingLast(slots: seq<HeaderSlot>, w: nat, fs: seq<Frame>, sent: nat, written: int, now: int, hdr: nat)
    requires Ring(slots, w, fs, sent, written, now, hdr) && Placed(fs, sent, written, hdr) && fs != []
    ensures 0 <= |fs| - sent < MAX_HEADER_BUF
    ensures var t := slots[Wrap(w + (|fs| - sent))].writeTiming - now;
      && t == Capacity(fs) - written + Times(|fs| - sent, hdr)
      && (t - fs[|fs| - 1].size >= 0 <==> sent < |fs|)
  {
    assert DueAt(slots, w, fs, sent, written, now, hdr, |fs|);
    hide Ring, DueAt, Capacity, Times, Wrap;
    var n := |fs| - 1;
    assert fs[..|fs|] == fs;
    CapacityStep(fs, n);
    if sent < |fs| {
      CapacityMonotone(fs, hdr, sent, n);
      TimesStep(n - sent, hdr);
    } else {
      assert fs[..sent - 1] == fs[..n];
      TimesStep(0, hdr);
    }
  }

  lemma WholeTimes(pending: nat, n: nat)
    ensures Times(pending, 8 * n) == 8 * Times(pending, n) == pending * 8 * n
  {
  }
}

/** A finished stream and its reader: cut the stream into frames, and for each granule go back in the main
    data as far as main_data_begin says (sections 2.4.1.7 and 2.4.2.7 of ISO/IEC 11172-3). */
module Stream {
  import opened Framing
  import opened SideInfo
  import opened FrameSizes
  import opened Huffman
  import opened Granule
  import opened Decoder
  import opened Crc

  /** What a frame was made from. */
  datatype Source = Source(head: Head, crc: nat, side: Side, grs: seq<GrInfo>)

  /** The frame's header and data are those of its source, its data lies where main_data_begin points to,
      and it is in the main data already written. */
  ghost predicate TellsAt(b: Bands, fs: seq<Frame>, src: Source, main: seq<bool>, i: nat)
    requires i < |fs|
  {
    var f := fs[i];
    && WellFormedHead(src.head) && WellFormedSide(src.head, src.side)
    && f.header == HeaderBits(src.head, src.crc, src.side) && (src.head.errorProtection ==> Checked(f.header))
    && (Rated(src.head) ==> f.size == SizeOfHead(src.head))
    && |src.grs| == |src.side.grs|
    && (forall j | 0 <= j < |src.grs| :: ToldBy(src.head.version, b, src.grs[j], src.side.grs[j]))
    && f.data == MainBits(src.head.version, b, src.grs)
    && Capacity(fs[..i]) - 8 * src.side.mainDataBegin == f.start
    && f.start + |f.data| <= |main| && main[f.start..f.start + |f.data|] == f.data
  }

  /** The granule has been counted, and `s` is its side information. */
  ghost predicate ToldBy(version: nat, b: Bands, g: GrInfo, s: GrSide) {
    && |g.subblockGain| >= 3 && Counted(version, b, g)
    && s == GrSideOf(version, g)
  }

  // ----- the reader

  /** The bits of the first `j` granules. */
  function PartLength(grs: seq<GrSide>, j: nat): nat
    requires j <= |grs|
  {
    if j == 0 then 0 else PartLength(grs, j - 1) + grs[j - 1].part23Length
  }

  /** The sharing flags that apply to granule `j`, counting channel by channel. */
  function SharedFlags(version: nat, channels: nat, scfsi: seq<nat>, j: nat): seq<nat>
    requires channels > 0
  {
    var ch := j % channels;
    if version == 1 && j / channels == 1 && 4 * ch + 4 <= |scfsi| then scfsi[4 * ch..4 * ch + 4] else []
  }

  function ScfsiOf(h: Head, s: Side, j: nat): seq<nat> { SharedFlags(h.version, Channels(h), s.scfsi, j) }

  /** Granule `j` of a frame with the given header, whose room begins at `at` in the main data. */
  function ReadFrameGranule(b: Bands, header: seq<bool>, main: seq<bool>, at: int, j: nat): Option<Decoded>
    requires Edges(b)
  {
    var h := ReadHead(header);
    var s := ReadSide(h, header);
    if j >= |s.grs| then None
    else
      var from := at - 8 * s.mainDataBegin + PartLength(s.grs, j);
      var to := from + s.grs[j].part23Length;
      if 0 <= from <= to <= |main| then ReadGranule(h.version, b, s.grs[j], ScfsiOf(h, s, j), main[from..to]) else None
  }

  /** Where the room of frame `i` begins. */
  function RoomAt(headers: seq<seq<bool>>, hdr: nat, i: nat): int
    requires i <= |headers|
  {
    if i == 0 then 0 else RoomAt(headers, hdr, i - 1) + SizeOf(headers[i - 1]) - hdr
  }

  /** Granule `j` of frame `i` of a stream. */
  ghost function ReadStreamGranule(b: Bands, stream: seq<bool>, hdr: nat, i: nat, j: nat): Option<Decoded>
    requires Edges(b)
  {
    var (headers, main) := Demux(stream, hdr, SizeOf);
    if i >= |headers| then None else ReadFrameGranule(b, headers[i], main, RoomAt(headers, hdr, i), j)
  }

  // ----- what the reader finds

  lemma {:induction false} GranuleAt(version: nat, b: Bands, grs: seq<GrInfo>, sides: seq<GrSide>, j: nat)
    requires j < |grs| == |sides|
    requires forall k | 0 <= k < |grs| :: |DataOf(version, b, grs[k])| == sides[k].part23Length
    ensures PartLength(sides, j) + sides[j].part23Length <= |MainBits(version, b, grs)| == PartLength(sides, |sides|)
    ensures MainBits(version, b, grs)[PartLength(sides, j)..PartLength(sides, j) + sides[j].part23Length]
         == DataOf(version, b, grs[j])
    decreases |grs|
  {
    hide DataOf;
    var n := |grs| - 1;
    PartPrefix(sides, n, j);
    PartPrefix(sides, n, n);
    if n > 0 {
      GranuleAt(version, b, grs[..n], sides[..n], if j < n then j else 0);
    }
    var A, G := MainBits(version, b, grs[..n]), DataOf(version, b, grs[n]);
    if j < n {
      SliceOfPrefix(A, G, PartLength(sides, j), PartLength(sides, j) + sides[j].part23Length);
    } else {
      assert (A + G)[|A|..|A| + |G|] == G;
    }
  }

  lemma SliceOfPrefix(a: seq<bool>, g: seq<bool>, p: nat, q: nat)
    requires p <= q <= |a|
    ensures (a + g)[p..q] == a[p..q]
  {
  }

  lemma CountedData(version: nat, b: Bands, g: GrInfo, s: GrSide)
    requires ToldBy(version, b, g, s)
    ensures DataOf(version, b, g) == GranuleBits(version, b, g)
    ensures |DataOf(version, b, g)| == s.part23Length
  {
    GranuleLength(version, b, g);
  }

  lemma {:induction false} PartPrefix(sides: seq<GrSide>, n: nat, j: nat)
    requires j <= n <= |sides|
    ensures PartLength(sides[..n], j) == PartLength(sides, j)
  {
    if j > 0 { PartPrefix(sides, n, j - 1); }
  }

  lemma {:induction false} RoomAtIs(fs: seq<Frame>, hdr: nat, i: nat)
    requires i <= |fs| && Framed(fs, hdr)
    requires forall k | 0 <= k < |fs| :: SizeOf(fs[k].header) == fs[k].size
    ensures RoomAt(Headers(fs), hdr, i) == Capacity(fs[..i])
  {
    hide SizeOf, Capacity;
    if i > 0 {
      RoomAtIs(fs, hdr, i - 1);
      CapacityStep(fs, i - 1);
      assert Headers(fs)[i - 1] == fs[i - 1].header;
    } else {
      NoCapacity(fs);
    }
  }

  lemma NoCapacity(fs: seq<Frame>)
    ensures Capacity(fs[..0]) == 0
  {
  }

  lemma HeaderAlone(h: Head, crc: nat, s: Side)
    requires WellFormedHead(h) && WellFormedSide(h, s)
    ensures |HeaderBits(h, crc, s)| == 8 * SideinfoLen(h)
    ensures ReadHead(HeaderBits(h, crc, s)) == h && ReadSide(h, HeaderBits(h, crc, s)) == s
    ensures LayerThree(HeaderBits(h, crc, s), h)
  {
    hide HeaderBits, WellFormedHead, WellFormedSide, ReadHead, ReadSide, LayerThree;
    HeaderBack(h, crc, s, []);
    assert HeaderBits(h, crc, s) + [] == HeaderBits(h, crc, s);
  }

  /** The data of a granule of a frame is where the reader looks for it. */
  lemma GranuleIsThere(b: Bands, fs: seq<Frame>, src: Source, main: seq<bool>, i: nat, j: nat)
    requires i < |fs| && TellsAt(b, fs, src, main, i) && j < |src.grs| == |src.side.grs|
    ensures var from := Capacity(fs[..i]) - 8 * src.side.mainDataBegin + PartLength(src.side.grs, j);
      && 0 <= from <= from + src.side.grs[j].part23Length <= |main|
      && main[from..from + src.side.grs[j].part23Length] == DataOf(src.head.version, b, src.grs[j])
  {
    hide ToldBy, HeaderBits, WellFormedHead, WellFormedSide, SizeOfHead, Capacity, DataOf, MainBits, PartLength;
    hide Checked;
    var f, v := fs[i], src.head.version;
    forall k | 0 <= k < |src.grs|
      ensures |DataOf(v, b, src.grs[k])| == src.side.grs[k].part23Length
    {
      CountedData(v, b, src.grs[k], src.side.grs[k]);
    }
    GranuleAt(v, b, src.grs, src.side.grs, j);
    var p := PartLength(src.side.grs, j);
    SliceOfSlice(main, f.start, f.start + |f.data|, p, p + src.side.grs[j].part23Length);
  }

  lemma SliceOfSlice(s: seq<bool>, a: nat, b: nat, p: nat, q: nat)
    requires a <= b <= |s| && p <= q <= b - a
    ensures s[a..b][p..q] == s[a + p..a + q]
  {
    var t, u := s[a..b][p..q], s[a + p..a + q];
    forall k | 0 <= k < q - p ensures t[k] == u[k] {
    }
  }

  lemma ReadAt(b: Bands, header: seq<bool>, main: seq<bool>, at: int, j: nat, h: Head, s: Side, from: int,
      bits: seq<bool>)
    requires Edges(b) && ReadHead(header) == h && ReadSide(h, header) == s && j < |s.grs|
    requires from == at - 8 * s.mainDataBegin + PartLength(s.grs, j)
    requires 0 <= from <= from + s.grs[j].part23Length <= |main|
    requires main[from..from + s.grs[j].part23Length] == bits
    ensures ReadFrameGranule(b, header, main, at, j) == ReadGranule(h.version, b, s.grs[j], ScfsiOf(h, s, j), bits)
  {
    hide ReadHead, ReadSide, PartLength, ReadGranule, ScfsiOf, Edges;
  }

  /** The granule's side information tells which scalefactors are shared with the first granule. */
  ghost predicate TellsShared(src: Source, j: nat)
    requires j < |src.grs|
  {
    && Scaled(src.head.version, src.grs[j])
    && Telling(src.head.version, src.grs[j], ScfsiOf(src.head, src.side, j))
  }

  /** What a reader is to find in a granule: what decides its steps, its quantized values and their signs. */
  ghost function Expected(version: nat, g: GrInfo): Decoded
    requires Scaled(version, g) && |g.l3Enc| == |g.neg| == 576
  {
    Decoded(g.globalGain, Preflag(version, g), g.scalefacScale, Scalefactors(version, g),
            Signeds(g.l3Enc, g.neg, 0, 576))
  }

  lemma ToldBack(version: nat, b: Bands, g: GrInfo, s: GrSide, scfsi: seq<nat>)
    requires ToldBy(version, b, g, s) && Scaled(version, g) && Telling(version, g, scfsi)
    ensures ReadGranule(version, b, s, scfsi, DataOf(version, b, g)) == Some(Expected(version, g))
  {
    hide GranuleBits, Scalefactors, Signeds, ReadGranule;
    CountedData(version, b, g, s);
    ReadGranuleBack(version, b, g, scfsi);
  }

  lemma HeaderTold(b: Bands, fs: seq<Frame>, src: Source, main: seq<bool>, i: nat, j: nat)
    requires i < |fs| && TellsAt(b, fs, src, main, i) && j < |src.grs|
    ensures |src.grs| == |src.side.grs| && ToldBy(src.head.version, b, src.grs[j], src.side.grs[j])
    ensures ReadHead(fs[i].header) == src.head && ReadSide(src.head, fs[i].header) == src.side
  {
    hide ToldBy, HeaderBits, WellFormedHead, WellFormedSide, SizeOfHead, Capacity, MainBits, ReadHead, ReadSide;
    hide Checked, LayerThree;
    HeaderAlone(src.head, src.crc, src.side);
  }

  /** The reader finds the granule in the frame. */
  lemma FrameGranuleBack(b: Bands, fs: seq<Frame>, src: Source, main: seq<bool>, i: nat, j: nat)
    requires i < |fs| && TellsAt(b, fs, src, main, i) && j < |src.grs| && Edges(b)
    requires TellsShared(src, j) && |src.grs[j].l3Enc| == |src.grs[j].neg| == 576
    ensures ReadFrameGranule(b, fs[i].header, main, Capacity(fs[..i]), j)
        == Some(Expected(src.head.version, src.grs[j]))
  {
    hide ToldBy, HeaderBits, WellFormedHead, WellFormedSide, SizeOfHead, Capacity, DataOf, MainBits, PartLength;
    hide Checked;
    hide ReadFrameGranule, ReadGranule, Telling, ScfsiOf, Edges, Scaled, Expected, SizeOf, TellsAt, ReadHead, ReadSide;
    var h, s, v, g := src.head, src.side, src.head.version, src.grs[j];
    HeaderTold(b, fs, src, main, i, j);
    GranuleIsThere(b, fs, src, main, i, j);
    ToldBack(v, b, g, s.grs[j], ScfsiOf(h, s, j));
    ReadAt(b, fs[i].header, main, Capacity(fs[..i]), j, h, s,
           Capacity(fs[..i]) - 8 * s.mainDataBegin + PartLength(s.grs, j), DataOf(v, b, g));
  }

  // ----- a whole stream

  /** Every frame is told by its source. */
  ghost predicate Told(b: Bands, fs: seq<Frame>, srcs: seq<Source>, main: seq<bool>) {
    && |srcs| == |fs|
    && forall i | 0 <= i < |fs| :: TellsAt(b, fs, srcs[i], main, i)
  }

  ghost predicate AllRated(srcs: seq<Source>, hdr: nat) {
    forall i | 0 <= i < |srcs| :: Rated(srcs[i].head) && 8 * SideinfoLen(srcs[i].head) == hdr
  }

  lemma SizesTold(b: Bands, fs: seq<Frame>, srcs: seq<Source>, main: seq<bool>, hdr: nat, i: nat)
    requires Told(b, fs, srcs, main) && AllRated(srcs, hdr) && i < |fs|
    ensures |fs[i].header| == hdr && SizeOf(fs[i].header) == fs[i].size
    ensures ReadHead(fs[i].header) == srcs[i].head && ReadSide(srcs[i].head, fs[i].header) == srcs[i].side
    ensures LayerThree(fs[i].header, srcs[i].head)
    ensures srcs[i].head.errorProtection ==> Checked(fs[i].header)
  {
    hide ToldBy, HeaderBits, WellFormedHead, WellFormedSide, SizeOfHead, Capacity, MainBits, ReadHead, ReadSide;
    hide SideinfoLen, Checked, LayerThree;
    assert TellsAt(b, fs, srcs[i], main, i);
    HeaderAlone(srcs[i].head, srcs[i].crc, srcs[i].side);
  }

  /** Reading a complete stream gives every frame's header and side information once and in order, and from
      every granule exactly what the encoder put in. */
  lemma StreamBack(b: Bands, fs: seq<Frame>, srcs: seq<Source>, main: seq<bool>, hdr: nat, i: nat, j: nat)
    requires Told(b, fs, srcs, main) && AllRated(srcs, hdr) && Framed(fs, hdr) && 0 < hdr && Edges(b)
    requires |main| == Capacity(fs)
    requires i < |fs| && j < |srcs[i].grs| && TellsShared(srcs[i], j)
    requires |srcs[i].grs[j].l3Enc| == |srcs[i].grs[j].neg| == 576
    ensures Demux(Layout(fs, main), hdr, SizeOf) == (Headers(fs), main)
    ensures ReadHead(fs[i].header) == srcs[i].head && ReadSide(srcs[i].head, fs[i].header) == srcs[i].side
    ensures LayerThree(fs[i].header, srcs[i].head)
    ensures srcs[i].head.errorProtection ==> Checked(fs[i].header)
    ensures ReadStreamGranule(b, Layout(fs, main), hdr, i, j) == Some(Expected(srcs[i].head.version, srcs[i].grs[j]))
  {
    hide Checked, TellsAt, TellsShared, Demux, Layout, SizeOf, Capacity, Expected, ReadFrameGranule, ReadHead;
    hide ReadSide, Edges, LayerThree;
    hide Scaled, Telling, Headers;
    forall k | 0 <= k < |fs|
      ensures SizeOf(fs[k].header) == fs[k].size
    {
      SizesTold(b, fs, srcs, main, hdr, k);
    }
    SizesTold(b, fs, srcs, main, hdr, i);
    DemuxLayout(fs, main, hdr, SizeOf);
    RoomAtIs(fs, hdr, i);
    assert TellsAt(b, fs, srcs[i], main, i);
    FrameGranuleBack(b, fs, srcs[i], main, i, j);
  }

  // ----- while the stream grows

  lemma ToldMore(b: Bands, fs: seq<Frame>, srcs: seq<Source>, main: seq<bool>, c: seq<bool>)
    requires Told(b, fs, srcs, main)
    ensures Told(b, fs, srcs, main + c)
  {
    hide ToldBy, HeaderBits, WellFormedHead, WellFormedSide, SizeOfHead, Capacity, MainBits, SideinfoLen, Checked;
    forall i | 0 <= i < |fs|
      ensures TellsAt(b, fs, srcs[i], main + c, i)
    {
      var f := fs[i];
      assert TellsAt(b, fs, srcs[i], main, i);
      SliceOfPrefix(main, c, f.start, f.start + |f.data|);
    }
  }

  /** One more frame, whose data has just been written. */
  lemma ToldNext(b: Bands, fs: seq<Frame>, srcs: seq<Source>, main: seq<bool>, f: Frame, src: Source)
    requires Told(b, fs, srcs, main)
    requires TellsAt(b, fs + [f], src, main, |fs|)
    ensures Told(b, fs + [f], srcs + [src], main)
  {
    hide ToldBy, HeaderBits, WellFormedHead, WellFormedSide, SizeOfHead, Capacity, MainBits, SideinfoLen, Checked;
    var gs, all := fs + [f], srcs + [src];
    forall i | 0 <= i < |gs|
      ensures TellsAt(b, gs, all[i], main, i)
    {
      if i < |fs| {
        assert TellsAt(b, fs, srcs[i], main, i);
        assert gs[..i] == fs[..i];
      }
    }
  }

  /** A frame queued when `main0` had been written, whose data and some filling have been written since. */
  lemma TellNew(b: Bands, fs: seq<Frame>, f: Frame, src: Source, main0: seq<bool>, main1: seq<bool>, tail: seq<bool>)
    requires WellFormedHead(src.head) && WellFormedSide(src.head, src.side)
    requires Rated(src.head) ==> f.size == SizeOfHead(src.head)
    requires |src.grs| == |src.side.grs|
    requires forall j | 0 <= j < |src.grs| :: ToldBy(src.head.version, b, src.grs[j], src.side.grs[j])
    requires f.header == HeaderBits(src.head, src.crc, src.side) && (src.head.errorProtection ==> Checked(f.header))
    requires f.start == |main0| == Capacity(fs) - 8 * src.side.mainDataBegin
    requires f.data == MainBits(src.head.version, b, src.grs) && main1 == main0 + f.data + tail
    ensures TellsAt(b, fs + [f], src, main1, |fs|)
  {
    hide ToldBy, HeaderBits, WellFormedHead, WellFormedSide, SizeOfHead, Capacity, MainBits, SideinfoLen, Checked;
    assert (fs + [f])[..|fs|] == fs;
    assert main1[|main0|..|main0| + |f.data|] == f.data;
  }

  /** A frame queued when `main0` had been written is told by its source once its data has been written. */
  lemma ToldGrows(b: Bands, fs: seq<Frame>, srcs: seq<Source>, f: Frame, src: Source,
                  main0: seq<bool>, main1: seq<bool>, tail: seq<bool>)
    requires Told(b, fs, srcs, main0)
    requires WellFormedHead(src.head) && WellFormedSide(src.head, src.side)
    requires Rated(src.head) ==> f.size == SizeOfHead(src.head)
    requires |src.grs| == |src.side.grs|
    requires forall j | 0 <= j < |src.grs| :: ToldBy(src.head.version, b, src.grs[j], src.side.grs[j])
    requires f.header == HeaderBits(src.head, src.crc, src.side) && (src.head.errorProtection ==> Checked(f.header))
    requires f.start == |main0| == Capacity(fs) - 8 * src.side.mainDataBegin
    requires f.data == MainBits(src.head.version, b, src.grs) && main1 == main0 + f.data + tail
    ensures Told(b, fs + [f], srcs + [src], main1)
  {
    hide Told, TellsAt, ToldBy, HeaderBits, WellFormedHead, WellFormedSide, SizeOfHead, Capacity, MainBits;
    hide SideinfoLen, Checked;
    TellNew(b, fs, f, src, main0, main1, tail);
    assert main0 + (f.data + tail) == main1;
    ToldMore(b, fs, srcs, main0, f.data + tail);
    ToldNext(b, fs, srcs, main1, f, src);
  }
}

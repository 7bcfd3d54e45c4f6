/** What the formatted stream is: a run of fixed headers at frame boundaries, and one continuous
    stream of main data poured into the room between them (sections 2.4.1.7 and 2.4.2.7 of
    ISO/IEC 11172-3).  `Demux` is the reader; the lemmas say that the reader gets back
    what the writer queued. */
module Framing {
  import opened Bits

  /** One frame as the writer queued it.  `size` counts the header too.  `start` is the position in
      the main-data stream of the frame's own data, which may lie inside earlier frames. */
  datatype Frame = Frame(header: seq<bool>, size: nat, start: nat, data: seq<bool>)

  /** Every header has the stream's header length, and every frame has room for main data. */
  ghost predicate Framed(fs: seq<Frame>, hdr: nat) {
    forall i | 0 <= i < |fs| :: |fs[i].header| == hdr && hdr < fs[i].size
  }

  function Room(f: Frame): int { f.size - |f.header| }

  function Capacity(fs: seq<Frame>): int {
    if fs == [] then 0 else Room(fs[0]) + Capacity(fs[1..])
  }

  /** The stream after `main` has been written: a header appears when the first bit behind it does. */
  ghost function Layout(fs: seq<Frame>, main: seq<bool>): seq<bool>
    decreases |fs|
  {
    if fs == [] || main == [] then []
    else if |main| <= Room(fs[0]) || Room(fs[0]) < 0 then fs[0].header + main
    else fs[0].header + main[..Room(fs[0])] + Layout(fs[1..], main[Room(fs[0])..])
  }

  // ----- capacity

  lemma {:induction false} CapacityConcat(fs: seq<Frame>, gs: seq<Frame>)
    ensures Capacity(fs + gs) == Capacity(fs) + Capacity(gs)
  {
    if fs == [] {
      assert fs + gs == gs;
    } else {
      CapacityConcat(fs[1..], gs);
      assert (fs + gs)[1..] == fs[1..] + gs;
    }
  }

  lemma CapacityAppend(fs: seq<Frame>, f: Frame)
    ensures Capacity(fs + [f]) == Capacity(fs) + Room(f)
  {
    CapacityConcat(fs, [f]);
    assert Capacity([f]) == Room(f) + Capacity([]);
  }

  lemma CapacityStep(fs: seq<Frame>, k: nat)
    requires k < |fs|
    ensures Capacity(fs[..k + 1]) == Capacity(fs[..k]) + Room(fs[k])
  {
    CapacityAppend(fs[..k], fs[k]);
    assert fs[..k + 1] == fs[..k] + [fs[k]];
  }

  lemma {:induction false} CapacityAtLeast(fs: seq<Frame>, hdr: nat)
    requires Framed(fs, hdr)
    ensures Capacity(fs) >= |fs|
  {
    if fs != [] { CapacityAtLeast(fs[1..], hdr); }
  }

  lemma CapacityMonotone(fs: seq<Frame>, hdr: nat, j: nat, k: nat)
    requires Framed(fs, hdr) && j <= k <= |fs|
    ensures Capacity(fs[..j]) + (k - j) <= Capacity(fs[..k])
  {
    CapacityConcat(fs[..j], fs[j..k]);
    assert fs[..k] == fs[..j] + fs[j..k];
    CapacityAtLeast(fs[j..k], hdr);
  }

  /** Every frame has at least `room` bits for main data. */
  ghost predicate Roomed(fs: seq<Frame>, room: nat) { forall i | 0 <= i < |fs| :: room <= Room(fs[i]) }

  lemma {:induction false} RoomedCapacity(fs: seq<Frame>, room: nat)
    requires Roomed(fs, room)
    ensures Times(|fs|, room) <= Capacity(fs)
  {
    hide Times;
    TimesStep(if fs == [] then 0 else |fs| - 1, room);
    if fs != [] { RoomedCapacity(fs[1..], room); }
  }

  /** Frames are whole bytes. */
  ghost predicate WholeBytes(fs: seq<Frame>) {
    forall i | 0 <= i < |fs| :: fs[i].size % 8 == 0
  }

  lemma {:induction false} CapacityWhole(fs: seq<Frame>, hdr: nat)
    requires Framed(fs, hdr) && WholeBytes(fs) && hdr % 8 == 0
    ensures Capacity(fs) % 8 == 0
  {
    if fs != [] { CapacityWhole(fs[1..], hdr); }
  }

  // ----- how the layout grows

  lemma LayoutUnfold(fs: seq<Frame>, main: seq<bool>)
    requires fs != [] && 0 < Room(fs[0]) <= |main|
    ensures Layout(fs, main)
         == fs[0].header + main[..Room(fs[0])] + Layout(fs[1..], main[Room(fs[0])..])
  {
    if |main| == Room(fs[0]) {
      assert main[..Room(fs[0])] == main && main[Room(fs[0])..] == [];
    }
  }

  /** Queueing one more frame changes nothing already laid out. */
  lemma {:induction false} LayoutExtend(fs: seq<Frame>, f: Frame, main: seq<bool>, hdr: nat)
    requires Framed(fs, hdr) && |main| <= Capacity(fs)
    ensures Layout(fs + [f], main) == Layout(fs, main)
  {
    if fs != [] && main != [] && |main| > Room(fs[0]) {
      LayoutExtend(fs[1..], f, main[Room(fs[0])..], hdr);
      assert (fs + [f])[1..] == fs[1..] + [f];
    }
  }

  /** What is appended behind the first frame is appended to the whole. */
  lemma LayoutGrow(fs: seq<Frame>, main: seq<bool>, c: seq<bool>, added: seq<bool>)
    requires fs != [] && 0 < Room(fs[0]) <= |main|
    requires Layout(fs[1..], main[Room(fs[0])..] + c) == Layout(fs[1..], main[Room(fs[0])..]) + added
    ensures Layout(fs, main + c) == Layout(fs, main) + added
  {
    var r := Room(fs[0]);
    LayoutUnfold(fs, main);
    LayoutUnfold(fs, main + c);
    assert (main + c)[r..] == main[r..] + c && (main + c)[..r] == main[..r];
  }

  /** More data inside the frame being filled is simply appended. */
  lemma {:induction false} LayoutInside(fs: seq<Frame>, main: seq<bool>, c: seq<bool>, k: nat, hdr: nat)
    requires Framed(fs, hdr) && 0 < k <= |fs|
    requires Capacity(fs[..k - 1]) < |main|
    requires |main| + |c| <= Capacity(fs[..k])
    ensures Layout(fs, main + c) == Layout(fs, main) + c
  {
    CapacityMonotone(fs, hdr, 0, k - 1);
    var r := Room(fs[0]);
    if k == 1 {
      CapacityStep(fs, 0);
      assert fs[0].header + (main + c) == fs[0].header + main + c;
    } else {
      assert fs[..k][1..] == fs[1..][..k - 1] && fs[..k - 1][1..] == fs[1..][..k - 2];
      CapacityMonotone(fs, hdr, 1, k - 1);
      CapacityStep(fs, 0);
      LayoutInside(fs[1..], main[r..], c, k - 1, hdr);
      LayoutGrow(fs, main, c, c);
    }
  }

  /** At a frame boundary the next header comes first. */
  lemma {:induction false} LayoutBoundary(fs: seq<Frame>, main: seq<bool>, c: seq<bool>, k: nat, hdr: nat)
    requires Framed(fs, hdr) && k < |fs|
    requires Capacity(fs[..k]) == |main|
    requires 0 < |c| <= Room(fs[k])
    ensures Layout(fs, main + c) == Layout(fs, main) + fs[k].header + c
  {
    if k == 0 {
      assert main == [] && main + c == c;
    } else {
      var r := Room(fs[0]);
      assert fs[..k][1..] == fs[1..][..k - 1];
      CapacityMonotone(fs, hdr, 1, k);
      CapacityStep(fs, 0);
      LayoutBoundary(fs[1..], main[r..], c, k - 1, hdr);
      assert Layout(fs[1..], main[r..]) + fs[k].header + c == Layout(fs[1..], main[r..]) + (fs[k].header + c);
      LayoutUnfold(fs, main);
      LayoutGrow(fs, main, c, fs[k].header + c);
    }
  }

  // ----- the reader

  /** Cut a stream at the frame sizes that `sizeOf` reads from the headers: the headers in order, and
      the main data with the headers taken out.  Reading stops at the first incomplete frame. */
  ghost function Demux(stream: seq<bool>, hdr: nat, sizeOf: seq<bool> -> nat): (seq<seq<bool>>, seq<bool>)
    decreases |stream|
  {
    if |stream| < hdr then ([], [])
    else
      var size := sizeOf(stream[..hdr]);
      if size <= hdr || |stream| < size then ([], [])
      else
        var (headers, main) := Demux(stream[size..], hdr, sizeOf);
        ([stream[..hdr]] + headers, stream[hdr..size] + main)
  }

  function Headers(fs: seq<Frame>): (hs: seq<seq<bool>>)
    ensures |hs| == |fs| && forall i | 0 <= i < |fs| :: hs[i] == fs[i].header
  {
    seq(|fs|, i requires 0 <= i < |fs| => fs[i].header)
  }

  lemma HeadersCons(fs: seq<Frame>)
    requires fs != []
    ensures Headers(fs) == [fs[0].header] + Headers(fs[1..])
  {
  }

  lemma DemuxStep(stream: seq<bool>, f: Frame, filling: seq<bool>, rest: seq<bool>, hdr: nat,
                  sizeOf: seq<bool> -> nat, hs: seq<seq<bool>>, main: seq<bool>)
    requires 0 < hdr == |f.header| < f.size && |filling| == Room(f) && sizeOf(f.header) == f.size
    requires stream == f.header + filling + rest
    requires Demux(rest, hdr, sizeOf) == (hs, main)
    ensures Demux(stream, hdr, sizeOf) == ([f.header] + hs, filling + main)
  {
    assert stream[..hdr] == f.header;
    assert stream[f.size..] == rest && stream[hdr..f.size] == filling;
  }

  /** Once every queued frame is full, the reader finds each header once and in order, and all the
      main data. */
  lemma {:induction false} DemuxLayout(fs: seq<Frame>, main: seq<bool>, hdr: nat, sizeOf: seq<bool> -> nat)
    requires Framed(fs, hdr) && 0 < hdr
    requires |main| == Capacity(fs)
    requires forall i | 0 <= i < |fs| :: sizeOf(fs[i].header) == fs[i].size
    ensures Demux(Layout(fs, main), hdr, sizeOf) == (Headers(fs), main)
  {
    if fs == [] {
      assert Layout(fs, main) == [] && Headers(fs) == [];
    } else {
      hide Demux, Layout, Headers, Capacity;
      var r := Room(fs[0]);
      CapacityFirst(fs);
      CapacityAtLeast(fs[1..], hdr);
      DemuxLayout(fs[1..], main[r..], hdr, sizeOf);
      LayoutUnfold(fs, main);
      DemuxStep(Layout(fs, main), fs[0], main[..r], Layout(fs[1..], main[r..]), hdr, sizeOf,
                Headers(fs[1..]), main[r..]);
      HeadersCons(fs);
      CutAt(main, r);
    }
  }

  lemma CapacityFirst(fs: seq<Frame>)
    requires fs != []
    ensures Capacity(fs) == Room(fs[0]) + Capacity(fs[1..])
  {
  }

  lemma CutAt(s: seq<bool>, n: nat)
    requires n <= |s|
    ensures s == s[..n] + s[n..]
  {
  }
}

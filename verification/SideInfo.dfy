/** The frame header and side information that encodeSideInfo2 writes, as a list of bit fields, and the
    reader that gets the fields back (sections 2.4.1.3 and 2.4.1.7 of ISO/IEC 11172-3). */
module SideInfo {
  import opened Bits

  const NORM_TYPE := 0
  const SHORT_TYPE := 2

  // ----- bit fields

  datatype Field = Field(val: nat, width: nat)

  predicate Fits(f: Field) { f.val < Pow2(f.width) }

  predicate AllFit(fs: seq<Field>) { forall i | 0 <= i < |fs| :: Fits(fs[i]) }

  function Width(fs: seq<Field>): nat {
    if fs == [] then 0 else Width(fs[..|fs| - 1]) + fs[|fs| - 1].width
  }

  function FieldBits(fs: seq<Field>): (b: seq<bool>)
    ensures |b| == Width(fs)
  {
    if fs == [] then []
    else FieldBits(fs[..|fs| - 1]) + BitsOf(fs[|fs| - 1].val, fs[|fs| - 1].width)
  }

  /** The number in the `w` bits at `pos`; 0 past the end. */
  function Get(b: seq<bool>, pos: nat, w: nat): nat {
    if pos + w <= |b| then ValueOf(b[pos..pos + w]) else 0
  }

  lemma FieldBitsAppend(fs: seq<Field>, f: Field)
    ensures FieldBits(fs + [f]) == FieldBits(fs) + BitsOf(f.val, f.width)
    ensures Width(fs + [f]) == Width(fs) + f.width
  {
    assert (fs + [f])[..|fs|] == fs;
  }

  lemma {:induction false} FieldBitsConcat(fs: seq<Field>, gs: seq<Field>)
    ensures FieldBits(fs + gs) == FieldBits(fs) + FieldBits(gs)
    ensures Width(fs + gs) == Width(fs) + Width(gs)
    decreases |gs|
  {
    if gs == [] {
      assert fs + gs == fs;
    } else {
      hide FieldBits, Width;
      var hs, g := gs[..|gs| - 1], gs[|gs| - 1];
      assert gs == hs + [g] && fs + gs == (fs + hs) + [g];
      FieldBitsConcat(fs, hs);
      FieldBitsAppend(fs + hs, g);
      FieldBitsAppend(hs, g);
    }
  }

  /** A field is read back from where it was written, whatever surrounds it. */
  lemma GetField(pre: seq<bool>, fs: seq<Field>, i: nat, post: seq<bool>)
    requires i < |fs| && Fits(fs[i])
    ensures Get(pre + FieldBits(fs) + post, |pre| + Width(fs[..i]), fs[i].width) == fs[i].val
  {
    hide FieldBits, Width, Pow2, ValueOf, BitsOf;
    var f, A, C := fs[i], FieldBits(fs[..i]), FieldBits(fs[i + 1..]);
    assert fs == (fs[..i] + [f]) + fs[i + 1..];
    FieldBitsConcat(fs[..i] + [f], fs[i + 1..]);
    FieldBitsAppend(fs[..i], f);
    MiddleOf(pre, A, BitsOf(f.val, f.width), C, post);
    ValueOfBitsOf(f.val, f.width);
    ModSmall(f.val, Pow2(f.width));
  }

  lemma MiddleOf(pre: seq<bool>, a: seq<bool>, x: seq<bool>, c: seq<bool>, post: seq<bool>)
    ensures (pre + (a + x + c) + post)[|pre| + |a|..|pre| + |a| + |x|] == x
  {
  }

  lemma ModSmall(a: nat, m: nat)
    requires a < m
    ensures a % m == a
  {
    DivUnique(a, m, 0, a);
  }

  /** The sum of the first `n`. */
  function Sum(ws: seq<nat>, n: nat): nat
    requires n <= |ws|
  {
    if n == 0 then 0 else Sum(ws, n - 1) + ws[n - 1]
  }

  function Widths(fs: seq<Field>): seq<nat> {
    seq(|fs|, i requires 0 <= i < |fs| => fs[i].width)
  }

  function Vals(fs: seq<Field>): seq<nat> {
    seq(|fs|, i requires 0 <= i < |fs| => fs[i].val)
  }

  /** The numbers in fields of the given widths, from `pos` on. */
  function ReadAll(b: seq<bool>, pos: nat, ws: seq<nat>): (r: seq<nat>)
    ensures |r| == |ws|
  {
    seq(|ws|, i requires 0 <= i < |ws| => Get(b, pos + Sum(ws, i), ws[i]))
  }

  lemma {:induction false} SumWidths(fs: seq<Field>, n: nat)
    requires n <= |fs|
    ensures Sum(Widths(fs), n) == Width(fs[..n])
  {
    if n > 0 {
      SumWidths(fs, n - 1);
      assert fs[..n][..n - 1] == fs[..n - 1];
    }
  }

  lemma ReadAllAt(pre: seq<bool>, fs: seq<Field>, post: seq<bool>, i: nat)
    requires AllFit(fs) && i < |fs|
    ensures Get(pre + FieldBits(fs) + post, |pre| + Sum(Widths(fs), i), fs[i].width) == fs[i].val
  {
    hide FieldBits, Get, Sum, Width, Fits;
    assert Fits(fs[i]);
    SumWidths(fs, i);
    GetField(pre, fs, i, post);
  }

  /** Fields are read back as they were written. */
  lemma ReadAllFields(pre: seq<bool>, fs: seq<Field>, post: seq<bool>)
    requires AllFit(fs)
    ensures ReadAll(pre + FieldBits(fs) + post, |pre|, Widths(fs)) == Vals(fs)
  {
    hide FieldBits, Get, Sum, Width, Fits;
    var b, ws := pre + FieldBits(fs) + post, Widths(fs);
    forall i | 0 <= i < |fs|
      ensures ReadAll(b, |pre|, ws)[i] == Vals(fs)[i]
    {
      ReadAllAt(pre, fs, post, i);
    }
  }

  // ----- the header and side information

  /** The 32 bits of the frame header. */
  datatype Head = Head(
    mpeg25: bool, version: nat, errorProtection: bool, bitrateIndex: nat, samplerateIndex: nat,
    padding: nat, extension: nat, mode: nat, modeExt: nat, copyright: nat, original: nat, emphasis: nat)

  /** The part of a granule's side information that depends on the block type. */
  datatype Windows =
    | Switched(blockType: nat, mixed: nat, tables: (nat, nat), gains: (nat, nat, nat))
    | Normal(tables3: (nat, nat, nat), region0Count: nat, region1Count: nat)

  /** The side information of one granule of one channel; `bigValues` counts pairs. */
  datatype GrSide = GrSide(
    part23Length: nat, bigValues: nat, globalGain: nat, scalefacCompress: nat, windows: Windows,
    preflag: nat, scalefacScale: nat, count1TableSelect: nat)

  /** The side information of a frame, granule by granule and channel by channel. */
  datatype Side = Side(mainDataBegin: nat, privateBits: nat, scfsi: seq<nat>, grs: seq<GrSide>)

  function Flag(b: bool): nat { if b then 1 else 0 }

  function Channels(h: Head): nat { if h.mode == 3 then 1 else 2 }

  function Granules(h: Head): nat { if h.version == 1 then 2 else 1 }

  function HeadFields(h: Head): seq<Field> {
    [Field(if h.mpeg25 then 0xffe else 0xfff, 12), Field(h.version, 1), Field(4 - 3, 2),
     Field(Flag(!h.errorProtection), 1), Field(h.bitrateIndex, 4), Field(h.samplerateIndex, 2),
     Field(h.padding, 1), Field(h.extension, 1), Field(h.mode, 2), Field(h.modeExt, 2),
     Field(h.copyright, 1), Field(h.original, 1), Field(h.emphasis, 2)]
  }

  function CrcFields(h: Head, crc: nat): seq<Field> {
    if h.errorProtection then [Field(crc, 16)] else []
  }

  function TopFields(h: Head, s: Side): seq<Field> {
    if h.version == 1 then [Field(s.mainDataBegin, 9), Field(s.privateBits, if Channels(h) == 2 then 3 else 5)]
    else [Field(s.mainDataBegin, 8), Field(s.privateBits, Channels(h))]
  }

  function ScfsiFields(scfsi: seq<nat>): seq<Field> {
    seq(|scfsi|, i requires 0 <= i < |scfsi| => Field(scfsi[i], 1))
  }

  function GrHeadFields(version: nat, g: GrSide): seq<Field> {
    [Field(g.part23Length, 12), Field(g.bigValues, 9), Field(g.globalGain, 8),
     Field(g.scalefacCompress, if version == 1 then 4 else 9), Field(Flag(g.windows.Switched?), 1)]
  }

  function WindowFields(w: Windows): seq<Field> {
    match w
    case Switched(b, m, t, g) =>
      [Field(b, 2), Field(m, 1), Field(t.0, 5), Field(t.1, 5), Field(g.0, 3), Field(g.1, 3), Field(g.2, 3)]
    case Normal(t, r0, r1) =>
      [Field(t.0, 5), Field(t.1, 5), Field(t.2, 5), Field(r0, 4), Field(r1, 3)]
  }

  function GrTailFields(version: nat, g: GrSide): seq<Field> {
    if version == 1 then [Field(g.preflag, 1), Field(g.scalefacScale, 1), Field(g.count1TableSelect, 1)]
    else [Field(g.scalefacScale, 1), Field(g.count1TableSelect, 1)]
  }

  function GrFields(version: nat, g: GrSide): seq<Field> {
    GrHeadFields(version, g) + WindowFields(g.windows) + GrTailFields(version, g)
  }

  function AllGrFields(version: nat, grs: seq<GrSide>): seq<Field> {
    if grs == [] then [] else AllGrFields(version, grs[..|grs| - 1]) + GrFields(version, grs[|grs| - 1])
  }

  /** Everything encodeSideInfo2 writes, in order, with `crc` in the checksum's place. */
  function HeaderFields(h: Head, crc: nat, s: Side): seq<Field> {
    HeadFields(h) + CrcFields(h, crc) + TopFields(h, s) + ScfsiFields(s.scfsi) + AllGrFields(h.version, s.grs)
  }

  function HeaderBits(h: Head, crc: nat, s: Side): seq<bool> { FieldBits(HeaderFields(h, crc, s)) }

  // ----- well-formed values

  predicate WellFormedHead(h: Head) {
    && h.version < 2 && (h.mpeg25 ==> h.version == 0) && AllFit(HeadFields(h))
  }

  predicate WellFormedGr(version: nat, g: GrSide) {
    && AllFit(GrFields(version, g))
    && (g.windows.Switched? ==> g.windows.blockType != NORM_TYPE)
    && (version != 1 ==> g.preflag == 0)
  }

  predicate WellFormedSide(h: Head, s: Side) {
    && AllFit(TopFields(h, s))
    && |s.grs| == Granules(h) * Channels(h)
    && (forall i | 0 <= i < |s.grs| :: WellFormedGr(h.version, s.grs[i]))
    && |s.scfsi| == (if h.version == 1 then 4 * Channels(h) else 0)
    && (forall i | 0 <= i < |s.scfsi| :: s.scfsi[i] < 2)
  }

  /** sideinfo_len */
  function SideinfoLen(h: Head): nat {
    (if h.version == 1 then (if Channels(h) == 1 then 4 + 17 else 4 + 32)
     else if Channels(h) == 1 then 4 + 9 else 4 + 17)
    + if h.errorProtection then 2 else 0
  }

  // ----- the reader

  const HEAD_WIDTHS: seq<nat> := [12, 1, 2, 1, 4, 2, 1, 1, 2, 2, 1, 1, 2]

  function ReadHead(b: seq<bool>): Head {
    var v := ReadAll(b, 0, HEAD_WIDTHS);
    Head(v[0] == 0xffe, v[1], v[3] == 0, v[4], v[5], v[6], v[7], v[8], v[9], v[10], v[11], v[12])
  }

  function ReadWindows(b: seq<bool>, pos: nat, switched: bool): Windows {
    if switched then
      var v := ReadAll(b, pos, [2, 1, 5, 5, 3, 3, 3]);
      Switched(v[0], v[1], (v[2], v[3]), (v[4], v[5], v[6]))
    else
      var v := ReadAll(b, pos, [5, 5, 5, 4, 3]);
      Normal((v[0], v[1], v[2]), v[3], v[4])
  }

  function GrWidth(version: nat): nat { if version == 1 then 59 else 63 }

  function ReadGr(b: seq<bool>, pos: nat, version: nat): GrSide {
    var v := ReadAll(b, pos, [12, 9, 8, if version == 1 then 4 else 9, 1]);
    var at := pos + if version == 1 then 34 else 39;
    var w := ReadWindows(b, at, v[4] == 1);
    var t := ReadAll(b, at + 22, if version == 1 then [1, 1, 1] else [1, 1]);
    if version == 1 then GrSide(v[0], v[1], v[2], v[3], w, t[0], t[1], t[2])
    else GrSide(v[0], v[1], v[2], v[3], w, 0, t[0], t[1])
  }

  function TopAt(h: Head): nat { if h.errorProtection then 48 else 32 }

  function GrAt(h: Head): nat {
    TopAt(h) + (if h.version == 1 then (if Channels(h) == 2 then 20 else 18) else 8 + Channels(h))
  }

  function ReadSide(h: Head, b: seq<bool>): Side {
    var v := ReadAll(b, TopAt(h), if h.version == 1 then [9, if Channels(h) == 2 then 3 else 5] else [8, Channels(h)]);
    var at := TopAt(h) + if h.version == 1 then (if Channels(h) == 2 then 12 else 14) else 8 + Channels(h);
    Side(v[0], v[1],
         seq<nat>(if h.version == 1 then 4 * Channels(h) else 0, i requires 0 <= i => Get(b, at + i, 1)),
         seq(Granules(h) * Channels(h), i
             requires 0 <= i => ReadGr(b, GrAt(h) + Times(i, GrWidth(h.version)), h.version)))
  }

  // ----- the reader recovers what was written

  lemma WidthOf(fs: seq<Field>, ws: seq<nat>)
    requires Widths(fs) == ws
    ensures |FieldBits(fs)| == Width(fs) == Sum(ws, |ws|)
  {
    SumWidths(fs, |fs|);
    assert fs[..|fs|] == fs;
  }

  lemma HeadWidths(h: Head)
    ensures Widths(HeadFields(h)) == HEAD_WIDTHS
    ensures |FieldBits(HeadFields(h))| == 32
  {
    WidthOf(HeadFields(h), HEAD_WIDTHS);
    assert Sum(HEAD_WIDTHS, 4) == 16 by { assert Sum(HEAD_WIDTHS, 2) == 13; }
    assert Sum(HEAD_WIDTHS, 8) == 24 by { assert Sum(HEAD_WIDTHS, 6) == 22; }
    assert Sum(HEAD_WIDTHS, 12) == 30 by { assert Sum(HEAD_WIDTHS, 10) == 28; }
  }

  /** The frame header is read back. */
  lemma ReadHeadBack(h: Head, post: seq<bool>)
    requires WellFormedHead(h)
    ensures ReadHead(FieldBits(HeadFields(h)) + post) == h
  {
    var fs := HeadFields(h);
    HeadWidths(h);
    ReadAllFields([], fs, post);
    assert [] + FieldBits(fs) + post == FieldBits(fs) + post;
    hide FieldBits, ReadAll, AllFit;
    var v := Vals(fs);
    assert v[0] == 0xffe <==> h.mpeg25;
  }

  /** The 32 bits of a frame header, in the places and with the numbers of section 2.4.1.3 and 2.4.2.3 of ISO/IEC
      11172-3: twelve ones, or eleven and a zero in MPEG-2.5; the version; the layer, 01 for Layer III; and so on. */
  predicate LayerThree(b: seq<bool>, h: Head) {
    && Get(b, 0, 12) == (if h.mpeg25 then 0xffe else 0xfff) && Get(b, 12, 1) == h.version && Get(b, 13, 2) == 1
    && Get(b, 15, 1) == (if h.errorProtection then 0 else 1) && Get(b, 16, 4) == h.bitrateIndex
    && Get(b, 20, 2) == h.samplerateIndex && Get(b, 22, 1) == h.padding && Get(b, 23, 1) == h.extension
    && Get(b, 24, 2) == h.mode && Get(b, 26, 2) == h.modeExt && Get(b, 28, 1) == h.copyright
    && Get(b, 29, 1) == h.original && Get(b, 30, 2) == h.emphasis
  }

  lemma HeadPlaces()
    ensures forall i | 0 <= i < 13 :: Sum(HEAD_WIDTHS, i) == [0, 12, 13, 15, 16, 20, 22, 23, 24, 26, 28, 29, 30][i]
  {
    assert Sum(HEAD_WIDTHS, 0) == 0 && Sum(HEAD_WIDTHS, 1) == 12 && Sum(HEAD_WIDTHS, 2) == 13;
    assert Sum(HEAD_WIDTHS, 3) == 15 && Sum(HEAD_WIDTHS, 4) == 16 && Sum(HEAD_WIDTHS, 5) == 20;
    assert Sum(HEAD_WIDTHS, 6) == 22 && Sum(HEAD_WIDTHS, 7) == 23 && Sum(HEAD_WIDTHS, 8) == 24;
    assert Sum(HEAD_WIDTHS, 9) == 26 && Sum(HEAD_WIDTHS, 10) == 28 && Sum(HEAD_WIDTHS, 11) == 29;
    assert Sum(HEAD_WIDTHS, 12) == 30;
  }

  lemma HeadIsLayerThree(h: Head, post: seq<bool>)
    requires WellFormedHead(h)
    ensures LayerThree(FieldBits(HeadFields(h)) + post, h)
  {
    var fs := HeadFields(h);
    HeadWidths(h);
    HeadPlaces();
    ReadAllFields([], fs, post);
    var b := FieldBits(fs) + post;
    assert [] + FieldBits(fs) + post == b;
    hide FieldBits, AllFit, Get, Sum;
    var r, v := ReadAll(b, 0, HEAD_WIDTHS), Vals(fs);
    assert forall i | 0 <= i < 13 :: r[i] == Get(b, Sum(HEAD_WIDTHS, i), HEAD_WIDTHS[i]) == v[i];
    assert r[0] == v[0] && r[1] == v[1] && r[2] == v[2] && r[3] == v[3] && r[4] == v[4] && r[5] == v[5];
    assert r[6] == v[6] && r[7] == v[7] && r[8] == v[8] && r[9] == v[9] && r[10] == v[10] && r[11] == v[11];
    assert r[12] == v[12];
  }

  // ----- one granule

  function GrHeadWidths(version: nat): seq<nat> { [12, 9, 8, if version == 1 then 4 else 9, 1] }

  function WindowWidths(switched: bool): seq<nat> {
    if switched then [2, 1, 5, 5, 3, 3, 3] else [5, 5, 5, 4, 3]
  }

  function GrTailWidths(version: nat): seq<nat> { if version == 1 then [1, 1, 1] else [1, 1] }

  lemma GrWidths(version: nat, g: GrSide)
    ensures Widths(GrHeadFields(version, g)) == GrHeadWidths(version)
    ensures Widths(WindowFields(g.windows)) == WindowWidths(g.windows.Switched?)
    ensures Widths(GrTailFields(version, g)) == GrTailWidths(version)
    ensures |FieldBits(GrHeadFields(version, g))| == if version == 1 then 34 else 39
    ensures |FieldBits(WindowFields(g.windows))| == 22
    ensures |FieldBits(GrTailFields(version, g))| == if version == 1 then 3 else 2
  {
    var a, b, c := GrHeadWidths(version), WindowWidths(g.windows.Switched?), GrTailWidths(version);
    WidthOf(GrHeadFields(version, g), a);
    WidthOf(WindowFields(g.windows), b);
    WidthOf(GrTailFields(version, g), c);
    SumFive(a);
    SumFive(b);
    SumThree(c);
  }

  lemma SumThree(ws: seq<nat>)
    requires |ws| >= 2
    ensures Sum(ws, 2) == ws[0] + ws[1]
    ensures |ws| >= 3 ==> Sum(ws, 3) == ws[0] + ws[1] + ws[2]
  {
    assert Sum(ws, 1) == ws[0];
  }

  lemma SumFive(ws: seq<nat>)
    requires |ws| >= 5
    ensures Sum(ws, 5) == ws[0] + ws[1] + ws[2] + ws[3] + ws[4]
    ensures |ws| >= 7 ==> Sum(ws, 7) == ws[0] + ws[1] + ws[2] + ws[3] + ws[4] + ws[5] + ws[6]
  {
    SumThree(ws);
    assert Sum(ws, 4) == ws[0] + ws[1] + ws[2] + ws[3];
    if |ws| >= 7 { assert Sum(ws, 6) == Sum(ws, 5) + ws[5]; }
  }

  lemma ReadWindowsBack(pre: seq<bool>, w: Windows, post: seq<bool>)
    requires AllFit(WindowFields(w))
    ensures ReadWindows(pre + FieldBits(WindowFields(w)) + post, |pre|, w.Switched?) == w
  {
    ReadAllFields(pre, WindowFields(w), post);
    hide FieldBits, ReadAll, AllFit;
    assert Widths(WindowFields(w)) == WindowWidths(w.Switched?);
  }

  /** Three runs of fields are read back one after the other. */
  lemma ReadThree(pre: seq<bool>, a: seq<Field>, b: seq<bool>, c: seq<Field>, post: seq<bool>)
    requires AllFit(a) && AllFit(c)
    ensures var all := pre + (FieldBits(a) + b + FieldBits(c)) + post;
      && ReadAll(all, |pre|, Widths(a)) == Vals(a)
      && all == (pre + FieldBits(a)) + b + (FieldBits(c) + post)
      && ReadAll(all, |pre| + |FieldBits(a)| + |b|, Widths(c)) == Vals(c)
  {
    hide FieldBits, ReadAll, AllFit, Widths, Vals;
    var A, C := FieldBits(a), FieldBits(c);
    var all := pre + (A + b + C) + post;
    assert all == pre + A + (b + C + post);
    ReadAllFields(pre, a, b + C + post);
    assert all == (pre + A + b) + C + post;
    ReadAllFields(pre + A + b, c, post);
  }

  /** A granule's side information is read back. */
  lemma ReadGrBack(pre: seq<bool>, version: nat, g: GrSide, post: seq<bool>)
    requires WellFormedGr(version, g)
    ensures ReadGr(pre + FieldBits(GrFields(version, g)) + post, |pre|, version) == g
    ensures |FieldBits(GrFields(version, g))| == GrWidth(version)
  {
    hide FieldBits, ReadAll, AllFit, ReadWindows, Fits;
    var a, b, c := GrHeadFields(version, g), WindowFields(g.windows), GrTailFields(version, g);
    assert FieldBits(a + b + c) == FieldBits(a) + FieldBits(b) + FieldBits(c) by {
      FieldBitsConcat(a + b, c);
      FieldBitsConcat(a, b);
    }
    GrWidths(version, g);
    AllFitParts(a, b, c);
    ReadThree(pre, a, FieldBits(b), c, post);
    ReadWindowsBack(pre + FieldBits(a), g.windows, FieldBits(c) + post);
    ValsOfGr(version, g);
  }

  lemma AllFitParts(a: seq<Field>, b: seq<Field>, c: seq<Field>)
    requires AllFit(a + b + c)
    ensures AllFit(a) && AllFit(b) && AllFit(c)
  {
    var all := a + b + c;
    assert forall i | 0 <= i < |a| :: a[i] == all[i];
    assert forall i | 0 <= i < |b| :: b[i] == all[|a| + i];
    assert forall i | 0 <= i < |c| :: c[i] == all[|a| + |b| + i];
  }

  lemma ValsOfGr(version: nat, g: GrSide)
    ensures Vals(GrHeadFields(version, g))
         == [g.part23Length, g.bigValues, g.globalGain, g.scalefacCompress, Flag(g.windows.Switched?)]
    ensures Vals(GrTailFields(version, g))
         == if version == 1 then [g.preflag, g.scalefacScale, g.count1TableSelect]
            else [g.scalefacScale, g.count1TableSelect]
  {
  }

  // ----- the whole header

  lemma {:induction false} GrsWidth(version: nat, grs: seq<GrSide>)
    requires forall i | 0 <= i < |grs| :: WellFormedGr(version, grs[i])
    ensures |FieldBits(AllGrFields(version, grs))| == Times(|grs|, GrWidth(version))
    decreases |grs|
  {
    if grs != [] {
      var n := |grs| - 1;
      hide FieldBits, WellFormedGr, GrFields, GrWidth, Times;
      TimesStep(n, GrWidth(version));
      GrsWidth(version, grs[..n]);
      FieldBitsConcat(AllGrFields(version, grs[..n]), GrFields(version, grs[n]));
      ReadGrBack([], version, grs[n], []);
    }
  }

  lemma {:induction false} ReadGrsBack(pre: seq<bool>, version: nat, grs: seq<GrSide>, post: seq<bool>, i: nat)
    requires forall j | 0 <= j < |grs| :: WellFormedGr(version, grs[j])
    requires i < |grs|
    ensures ReadGr(pre + FieldBits(AllGrFields(version, grs)) + post, |pre| + Times(i, GrWidth(version)), version)
        == grs[i]
    decreases |grs|
  {
    hide FieldBits, ReadGr, WellFormedGr, GrFields, AllGrFields, GrWidth, Times;
    var n := |grs| - 1;
    var A, G := GrsSplit(version, grs);
    Regroup3(pre, A, G, post);
    if i < n {
      ReadGrsBack(pre, version, grs[..n], G + post, i);
    } else {
      GrsWidth(version, grs[..n]);
      ReadGrBack(pre + A, version, grs[n], post);
    }
  }

  lemma GrsSplit(version: nat, grs: seq<GrSide>) returns (a: seq<bool>, g: seq<bool>)
    requires grs != []
    ensures a == FieldBits(AllGrFields(version, grs[..|grs| - 1]))
    ensures g == FieldBits(GrFields(version, grs[|grs| - 1]))
    ensures FieldBits(AllGrFields(version, grs)) == a + g
  {
    hide FieldBits, GrFields;
    var n := |grs| - 1;
    a, g := FieldBits(AllGrFields(version, grs[..n])), FieldBits(GrFields(version, grs[n]));
    FieldBitsConcat(AllGrFields(version, grs[..n]), GrFields(version, grs[n]));
  }

  lemma Regroup3(pre: seq<bool>, a: seq<bool>, b: seq<bool>, post: seq<bool>)
    ensures pre + (a + b) + post == pre + a + (b + post) == (pre + a) + b + post
  {
  }

  lemma ReadScfsiBack(pre: seq<bool>, scfsi: seq<nat>, post: seq<bool>)
    requires forall i | 0 <= i < |scfsi| :: scfsi[i] < 2
    ensures |FieldBits(ScfsiFields(scfsi))| == |scfsi|
    ensures forall i | 0 <= i < |scfsi| ::
      Get(pre + FieldBits(ScfsiFields(scfsi)) + post, |pre| + i, 1) == scfsi[i]
  {
    var fs := ScfsiFields(scfsi);
    OneBitFields(fs, |fs|);
    assert fs[..|fs|] == fs;
    forall i | 0 <= i < |scfsi|
      ensures Get(pre + FieldBits(fs) + post, |pre| + i, 1) == scfsi[i]
    {
      assert Fits(fs[i]);
      OneBitFields(fs, i);
      GetField(pre, fs, i, post);
    }
  }

  lemma {:induction false} OneBitFields(fs: seq<Field>, n: nat)
    requires n <= |fs| && forall i | 0 <= i < |fs| :: fs[i].width == 1
    ensures Width(fs[..n]) == n
  {
    if n > 0 {
      OneBitFields(fs, n - 1);
      assert fs[..n][..n - 1] == fs[..n - 1];
    }
  }

  function TopWidths(h: Head): seq<nat> {
    if h.version == 1 then [9, if Channels(h) == 2 then 3 else 5] else [8, Channels(h)]
  }

  lemma TopWidth(h: Head, s: Side)
    ensures Widths(TopFields(h, s)) == TopWidths(h)
    ensures |FieldBits(TopFields(h, s))|
         == if h.version == 1 then (if Channels(h) == 2 then 12 else 14) else 8 + Channels(h)
  {
    WidthOf(TopFields(h, s), TopWidths(h));
    SumThree(TopWidths(h));
  }

  lemma CrcWidth(h: Head, crc: nat)
    ensures 32 + |FieldBits(CrcFields(h, crc))| == TopAt(h)
  {
    if h.errorProtection {
      WidthOf(CrcFields(h, crc), [16]);
      assert Sum([16], 1) == 16;
    }
  }

  lemma HeaderParts(h: Head, crc: nat, s: Side)
    ensures HeaderBits(h, crc, s)
         == FieldBits(HeadFields(h)) + FieldBits(CrcFields(h, crc)) + FieldBits(TopFields(h, s))
            + FieldBits(ScfsiFields(s.scfsi)) + FieldBits(AllGrFields(h.version, s.grs))
  {
    hide FieldBits, HeadFields, CrcFields, TopFields, ScfsiFields, AllGrFields;
    var a, b, c, d, e := HeadFields(h), CrcFields(h, crc), TopFields(h, s), ScfsiFields(s.scfsi),
        AllGrFields(h.version, s.grs);
    FieldBitsConcat(a + b + c + d, e);
    FieldBitsConcat(a + b + c, d);
    FieldBitsConcat(a + b, c);
    FieldBitsConcat(a, b);
  }

  lemma Regroup(a: seq<bool>, b: seq<bool>, c: seq<bool>, d: seq<bool>, e: seq<bool>, post: seq<bool>)
    ensures var all := a + b + c + d + e + post;
      && all == a + (b + c + d + e + post)
      && all == (a + b) + c + (d + e + post)
      && all == (a + b + c) + d + (e + post)
      && all == (a + b + c + d) + e + post
  {
  }

  /** Writing the fields fills exactly the stream's header length, and the reader gets the frame header
      and every field of the side information back, whatever follows and whatever the checksum is. */
  lemma HeaderBack(h: Head, crc: nat, s: Side, post: seq<bool>)
    requires WellFormedHead(h) && WellFormedSide(h, s)
    ensures |HeaderBits(h, crc, s)| == 8 * SideinfoLen(h)
    ensures ReadHead(HeaderBits(h, crc, s) + post) == h
    ensures ReadSide(h, HeaderBits(h, crc, s) + post) == s
    ensures LayerThree(HeaderBits(h, crc, s) + post, h)
  {
    HeaderParts(h, crc, s);
    HeadWidths(h);
    CrcWidth(h, crc);
    TopWidth(h, s);
    hide FieldBits, ReadAll, ReadGr, Get, HeaderBits, HeadFields, CrcFields, ScfsiFields, AllGrFields, AllFit, ReadHead;
    hide WellFormedGr, WellFormedHead, Widths, LayerThree;
    var A, B, C := FieldBits(HeadFields(h)), FieldBits(CrcFields(h, crc)), FieldBits(TopFields(h, s));
    var D, E := FieldBits(ScfsiFields(s.scfsi)), FieldBits(AllGrFields(h.version, s.grs));
    var all := HeaderBits(h, crc, s) + post;
    Regroup(A, B, C, D, E, post);
    ReadHeadBack(h, B + C + D + E + post);
    HeadIsLayerThree(h, B + C + D + E + post);
    ReadAllFields(A + B, TopFields(h, s), D + E + post);
    ReadScfsiBack(A + B + C, s.scfsi, E + post);
    GrsWidth(h.version, s.grs);
    forall i | 0 <= i < |s.grs|
      ensures ReadGr(all, |A + B + C + D| + Times(i, GrWidth(h.version)), h.version) == s.grs[i]
    {
      ReadGrsBack(A + B + C + D, h.version, s.grs, post, i);
    }
    assert ReadSide(h, all).scfsi == s.scfsi;
    assert ReadSide(h, all).grs == s.grs;
  }

  // ----- every field fits

  lemma AllFitConcat(a: seq<Field>, b: seq<Field>)
    requires AllFit(a) && AllFit(b)
    ensures AllFit(a + b)
  {
    hide Fits;
    var c := a + b;
    forall i | 0 <= i < |c| ensures Fits(c[i]) {
      if i < |a| { assert Fits(a[i]); } else { assert Fits(b[i - |a|]); }
    }
  }

  lemma {:induction false} GrsFit(version: nat, grs: seq<GrSide>)
    requires forall i | 0 <= i < |grs| :: WellFormedGr(version, grs[i])
    ensures AllFit(AllGrFields(version, grs))
    decreases |grs|
  {
    hide AllFit, GrFields;
    if grs != [] {
      var n := |grs| - 1;
      assert WellFormedGr(version, grs[n]);
      GrsFit(version, grs[..n]);
      AllFitConcat(AllGrFields(version, grs[..n]), GrFields(version, grs[n]));
    } else {
      NoneUnfit();
    }
  }

  lemma NoneUnfit()
    ensures AllFit([])
  {
  }

  lemma CrcFits(h: Head, crc: nat)
    requires crc < 65536
    ensures AllFit(CrcFields(h, crc))
  {
    assert Pow2(16) == 65536 by { Pow2Small(); Pow2Add(8, 8); }
  }

  lemma ScfsiFit(scfsi: seq<nat>)
    requires forall i | 0 <= i < |scfsi| :: scfsi[i] < 2
    ensures AllFit(ScfsiFields(scfsi))
  {
    Pow2Small();
  }

  lemma HeaderFits(h: Head, crc: nat, s: Side)
    requires WellFormedHead(h) && WellFormedSide(h, s) && crc < 65536
    ensures AllFit(HeaderFields(h, crc, s))
  {
    CrcFits(h, crc);
    ScfsiFit(s.scfsi);
    GrsFit(h.version, s.grs);
    hide AllFit, HeadFields, CrcFields, TopFields, ScfsiFields, AllGrFields;
    var a, b, c, d, e := HeadFields(h), CrcFields(h, crc), TopFields(h, s), ScfsiFields(s.scfsi),
        AllGrFields(h.version, s.grs);
    AllFitConcat(a, b);
    AllFitConcat(a + b, c);
    AllFitConcat(a + b + c, d);
    AllFitConcat(a + b + c + d, e);
  }

  lemma PrefixWidth(fs: seq<Field>, k: nat)
    requires k < |fs|
    ensures Width(fs[..k + 1]) == Width(fs[..k]) + fs[k].width <= Width(fs)
  {
    hide Width, FieldBits;
    FieldBitsAppend(fs[..k], fs[k]);
    assert fs[..k] + [fs[k]] == fs[..k + 1];
    FieldBitsConcat(fs[..k + 1], fs[k + 1..]);
    assert fs == fs[..k + 1] + fs[k + 1..];
  }
}

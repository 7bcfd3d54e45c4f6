/** The ID3v2.3 tag (id3tag.c, and skipId3v2 of VbrTag.c): what is put into the list of frames is what a reader of
    sections 3.1 and 3.3 of ID3v2.3.0 finds in the bytes, and the size told in advance is the size written. */
module Id3 {
  import opened Bits
  import opened Buffers

  type ucs2 = x: int | 0 <= x < 0x10000

  /** A string with its encoding; the terminating zero is not part of it. */
  datatype Text = Latin1(chars: seq<byte>) | Ucs2(units: seq<ucs2>)

  datatype FrameDataNode = FrameDataNode(fid: nat, lng: seq<byte>, dsc: Text, txt: Text)

  const ID_COMMENT := 0x434f4d4d
  const ID_PLAYLENGTH := 0x544c454e
  const ID_APIC := 0x41504943

  // ----- what is written

  function UnitBytes(u: seq<ucs2>): (b: seq<byte>)
    ensures |b| == 2 * |u|
  {
    if u == [] then [] else UnitBytes(u[..|u| - 1]) + [u[|u| - 1] / 256, u[|u| - 1] % 256]
  }

  function TextBytes(t: Text): seq<byte> {
    match t case Latin1(c) => c case Ucs2(u) => UnitBytes(u)
  }

  /** The encoding byte. */
  function Enc(t: Text): byte { if t.Ucs2? then 1 else 0 }

  function Separator(t: Text): seq<byte> { if t.Ucs2? then [0, 0] else [0] }

  /** A frame of the tag. */
  datatype Frame = Frame(id: nat, content: seq<byte>)

  function FrameBytes(f: Frame): seq<byte> { I4(f.id) + I4(|f.content|) + [0, 0] + f.content }

  function AllFrames(fs: seq<Frame>): seq<byte> {
    if fs == [] then [] else FrameBytes(fs[0]) + AllFrames(fs[1..])
  }

  function TextContent(txt: Text): seq<byte> { [Enc(txt)] + TextBytes(txt) }

  function CommentContent(n: FrameDataNode): seq<byte> {
    [Enc(n.txt)] + n.lng + TextBytes(n.dsc) + Separator(n.dsc) + TextBytes(n.txt)
  }

  function NodeFrame(n: FrameDataNode): Frame {
    Frame(n.fid, if n.fid == ID_COMMENT then CommentContent(n) else TextContent(n.txt))
  }

  function NodeFrames(nodes: seq<FrameDataNode>): (fs: seq<Frame>)
    ensures |fs| == |nodes| && forall i | 0 <= i < |nodes| :: fs[i] == NodeFrame(nodes[i])
  {
    seq(|nodes|, i requires 0 <= i < |nodes| => NodeFrame(nodes[i]))
  }

  /** "XXXX=value" */
  predicate IsValue(v: seq<byte>) {
    |v| >= 5 && v[4] == 61 && forall i | 0 <= i < |v| :: v[i] != 0
  }

  function ValueFrame(v: seq<byte>): Frame
    requires IsValue(v)
  {
    Frame(Unsigned4(v, 0), [0] + v[5..])
  }

  function ValueFrames(values: seq<seq<byte>>): (fs: seq<Frame>)
    requires forall i | 0 <= i < |values| :: IsValue(values[i])
    ensures |fs| == |values| && forall i | 0 <= i < |values| :: fs[i] == ValueFrame(values[i])
  {
    seq(|values|, i requires 0 <= i < |values| => ValueFrame(values[i]))
  }

  function PictureFrame(mime: seq<byte>, data: seq<byte>): Frame {
    Frame(ID_APIC, [0] + mime + [0, 0, 0] + data)
  }

  /** "image/jpeg", "image/png" and "image/gif" */
  function MimeType(kind: nat): seq<byte> {
    match kind
    case 1 => [105, 109, 97, 103, 101, 47, 106, 112, 101, 103]
    case 2 => [105, 109, 97, 103, 101, 47, 112, 110, 103]
    case 3 => [105, 109, 97, 103, 101, 47, 103, 105, 102]
    case _ => []
  }

  // ----- sizes in advance

  /** sizeOfNode and sizeOfCommentNode */
  function SizeOfNode(n: FrameDataNode): (size: nat)
    requires |n.lng| == 3
    ensures size == |FrameBytes(NodeFrame(n))| && size > 10
  {
    if n.fid == ID_COMMENT then
      10 + 1 + 3 + (match n.dsc case Latin1(c) => 1 + |c| case Ucs2(u) => 2 + |u| * 2)
      + (match n.txt case Latin1(c) => |c| case Ucs2(u) => |u| * 2)
    else 10 + 1 + match n.txt case Latin1(c) => |c| case Ucs2(u) => |u| * 2
  }

  // ----- writing frames

  /** writeUcs2s and writeChars */
  method WriteText(w: Writer, t: Text)
    requires w.Valid() && w.filled + |TextBytes(t)| <= w.buffer.Length
    modifies w, w.buffer
    ensures w.Valid() && w.written == old(w.written) + TextBytes(t)
  {
    match t
    case Latin1(c) => w.PutAll(c);
    case Ucs2(u) =>
      for i := 0 to |u|
        invariant w.Valid() && w.written == old(w.written) + UnitBytes(u[..i])
      {
        assert u[..i + 1][..i] == u[..i];
        UnitBytesFit(u, i + 1);
        w.Put(u[i] / 256);
        w.Put(u[i] % 256);
      }
      assert u[..|u|] == u;
  }

  lemma UnitBytesFit(u: seq<ucs2>, i: nat)
    requires i <= |u|
    ensures |UnitBytes(u[..i])| == 2 * i <= |UnitBytes(u)|
  {
  }

  method StartFrame(w: Writer, id: nat, size: nat)
    requires w.Valid() && w.filled + 10 <= w.buffer.Length
    modifies w, w.buffer
    ensures w.Valid() && w.written == old(w.written) + (I4(id) + I4(size) + [0, 0])
  {
    hide I4;
    w.PutI4(id);
    w.PutI4(size);
    w.Put(0);
    w.Put(0);
  }

  /** set_frame_comment */
  method SetFrameComment(w: Writer, n: FrameDataNode)
    requires w.Valid() && |n.lng| == 3 && n.fid == ID_COMMENT
        && w.filled + |FrameBytes(NodeFrame(n))| <= w.buffer.Length
    modifies w, w.buffer
    ensures w.Valid() && w.written == old(w.written) + FrameBytes(NodeFrame(n))
  {
    hide I4, TextBytes;
    var size := SizeOfNode(n);
    StartFrame(w, ID_COMMENT, size - 10);
    PutComment(w, n);
  }

  method PutComment(w: Writer, n: FrameDataNode)
    requires w.Valid() && |n.lng| == 3 && w.filled + |CommentContent(n)| <= w.buffer.Length
    modifies w, w.buffer
    ensures w.Valid() && w.written == old(w.written) + CommentContent(n)
  {
    hide TextBytes;
    w.Put(Enc(n.txt));
    w.PutAll(n.lng);
    WriteText(w, n.dsc);
    w.PutAll(Separator(n.dsc));
    WriteText(w, n.txt);
  }

  /** set_frame_custom2 */
  method SetFrameCustom2(w: Writer, n: FrameDataNode)
    requires w.Valid() && |n.lng| == 3 && n.fid != ID_COMMENT
        && w.filled + |FrameBytes(NodeFrame(n))| <= w.buffer.Length
    modifies w, w.buffer
    ensures w.Valid() && w.written == old(w.written) + FrameBytes(NodeFrame(n))
  {
    hide I4, TextBytes;
    var size := SizeOfNode(n);
    StartFrame(w, n.fid, size - 10);
    w.Put(Enc(n.txt));
    WriteText(w, n.txt);
  }

  /** set_frame_custom */
  method SetFrameCustom(w: Writer, v: seq<byte>)
    requires w.Valid() && IsValue(v) && w.filled + 6 + |v| <= w.buffer.Length
    modifies w, w.buffer
    ensures w.Valid() && w.written == old(w.written) + FrameBytes(ValueFrame(v))
        && |FrameBytes(ValueFrame(v))| == 6 + |v|
  {
    hide I4;
    I4Of(v, 0);
    w.PutAll(v[..4]);
    w.PutI4(|v| - 5 + 1);
    w.Put(0);
    w.Put(0);
    w.Put(0);
    w.PutAll(v[5..]);
    assert w.written == old(w.written) + (v[..4] + I4(|v| - 4) + [0, 0] + ([0] + v[5..]));
  }

  /** set_frame_apic */
  method SetFrameApic(w: Writer, mime: seq<byte>, data: seq<byte>)
    requires w.Valid() && w.filled + 10 + 4 + |mime| + |data| <= w.buffer.Length
    modifies w, w.buffer
    ensures w.Valid() && w.written == old(w.written) + FrameBytes(PictureFrame(mime, data))
  {
    hide I4;
    StartFrame(w, ID_APIC, 4 + |mime| + |data|);
    w.Put(0);
    w.PutAll(mime);
    w.Put(0);
    w.Put(0);
    w.Put(0);
    w.PutAll(data);
    assert w.written == old(w.written)
        + (I4(ID_APIC) + I4(4 + |mime| + |data|) + [0, 0] + ([0] + mime + [0, 0, 0] + data));
  }

  lemma AllFramesFirst(fs: seq<Frame>)
    requires fs != []
    ensures AllFrames(fs) == FrameBytes(fs[0]) + AllFrames(fs[1..])
  {
  }

  lemma NoneAtAll()
    ensures AllFrames([]) == []
  {
  }

  lemma Assoc(x: seq<byte>, y: seq<byte>, z: seq<byte>)
    ensures x + y + z == x + (y + z)
  {
  }

  lemma {:induction false} AllFramesConcat(a: seq<Frame>, b: seq<Frame>)
    ensures AllFrames(a + b) == AllFrames(a) + AllFrames(b)
  {
    hide AllFrames, FrameBytes;
    if a == [] {
      NoneAtAll();
      assert a + b == b;
    } else {
      AllFramesFirst(a);
      AllFramesFirst(a + b);
      AllFramesConcat(a[1..], b);
      assert (a + b)[1..] == a[1..] + b;
      Assoc(FrameBytes(a[0]), AllFrames(a[1..]), AllFrames(b));
    }
  }

  lemma OneFrame(f: Frame)
    ensures AllFrames([f]) == FrameBytes(f)
  {
    hide FrameBytes;
    assert [f][1..] == [];
  }

  lemma FrameAdded(fs: seq<Frame>, i: nat)
    requires i < |fs|
    ensures AllFrames(fs[..i + 1]) == AllFrames(fs[..i]) + FrameBytes(fs[i])
    ensures |AllFrames(fs[..i + 1])| <= |AllFrames(fs)|
  {
    hide AllFrames, FrameBytes;
    AllFramesConcat(fs[..i], [fs[i]]);
    OneFrame(fs[i]);
    assert fs[..i + 1] == fs[..i] + [fs[i]];
    AllFramesConcat(fs[..i + 1], fs[i + 1..]);
    assert fs == fs[..i + 1] + fs[i + 1..];
  }

  // ----- the list of frames

  /** A language as setLang may read it: of a single letter it would read past the end. */
  type language = s: seq<byte> | |s| != 1 witness []

  /** setLang.  Its loop tests the first character each time, so it never comes to the blanks: what follows two
      letters is their terminating zero. */
  function SetLang(src: language): (r: seq<byte>)
    ensures |r| == 3
  {
    if src == [] then [88, 88, 88]
    else if |src| == 2 then src + [0]
    else src[..3]
  }

  /** What its loop leaves for a string in memory, whatever follows the string. */
  function LangIn(memory: seq<byte>): (r: seq<byte>)
    requires |memory| >= 3
    ensures |r| == 3
  {
    if memory[0] == 0 then [88, 88, 88] else memory[..3]
  }

  /** setLang */
  method PutLang(dst: array<byte>, memory: seq<byte>)
    requires dst.Length == 3 <= |memory|
    modifies dst
    ensures dst[..] == LangIn(memory)
  {
    if memory[0] == 0 {
      dst[0], dst[1], dst[2] := 88, 88, 88;
      assert dst[..] == [88, 88, 88];
    } else {
      var i := 0;
      while i < 3 && memory[0] != 0
        invariant i <= 3 && dst[..i] == memory[..i]
      {
        dst[i] := memory[i];
        i := i + 1;
      }
      // Here i == 3, so the loop that would put in blanks from i on is not entered.
      assert i == 3 && dst[..] == dst[..3];
    }
  }

  lemma LangInIs(src: language, after: seq<byte>)
    requires NoZeros(Latin1(src)) && |src + [0] + after| >= 3
    ensures LangIn(src + [0] + after) == SetLang(src)
  {
    var memory := src + [0] + after;
    if |src| == 2 {
      assert memory[..3] == src + [0];
    } else if src != [] {
      assert memory[..3] == src[..3];
    }
  }

  /** The three characters of a language, with blanks for those it does not have. */
  function Padded(src: seq<byte>): seq<byte> {
    if src == [] then [88, 88, 88] else (src + [32, 32, 32])[..3]
  }

  /** Languages are padded with blanks, as setLang means to, exactly if none is needed. */
  lemma PaddedExactly(src: seq<byte>, after: seq<byte>)
    requires NoZeros(Latin1(src)) && |src + [0] + after| >= 3
    ensures LangIn(src + [0] + after) == Padded(src) <==> |src| != 1 && |src| != 2
  {
    var memory := src + [0] + after;
    if |src| == 1 || |src| == 2 {
      assert memory[..3][|src|] == 0 && Padded(src)[|src|] == 32;
    } else if src != [] {
      assert memory[..3] == src[..3] == Padded(src);
    }
  }

  /** "en" becomes its two letters and a zero. */
  lemma TwoLetters()
    ensures SetLang([101, 110]) == [101, 110, 0] && Padded([101, 110]) == [101, 110, 32]
  {
  }

  /** tolower, with control characters taken for blanks. */
  function Fold(c: byte): byte {
    if c < 32 then 32 else if 65 <= c <= 90 then c + 32 else c
  }

  predicate SameLang(l1: seq<byte>, l2: language)
    requires |l1| == 3
  {
    var d := SetLang(l2);
    forall i | 0 <= i < 3 :: Fold(l1[i]) == Fold(d[i])
  }

  /** isSameDescriptor and isSameDescriptorUcs2, which compare only as far as the node's own descriptor goes. */
  predicate SameDescriptor(own: Text, dsc: Text) {
    match own
    case Latin1(c) => c == [] || (dsc.Latin1? && c <= dsc.chars)
    case Ucs2(u) => u == [] || (dsc.Ucs2? && u <= dsc.units)
  }

  /** isMultiFrame */
  predicate IsMultiFrame(fid: nat) {
    || fid == 0x54585858 || fid == 0x57585858 || fid == ID_COMMENT || fid == 0x53594c54 || fid == ID_APIC
        || fid == 0x47454f42
    || fid == 0x50434e54 || fid == 0x41454e43 || fid == 0x4c494e4b || fid == 0x454e4352 || fid == 0x47524944
    || fid == 0x50524956
  }

  predicate Listed(nodes: seq<FrameDataNode>) {
    forall i | 0 <= i < |nodes| :: |nodes[i].lng| == 3
  }

  /** A node that is overwritten rather than another added. */
  predicate Matches(n: FrameDataNode, fid: nat, lang: language, dsc: Text)
    requires |n.lng| == 3
  {
    n.fid == fid && (IsMultiFrame(fid) ==> SameLang(n.lng, lang) && SameDescriptor(n.dsc, dsc))
  }

  /** The first such node at or after `from`, or the length of the list. */
  function Match(nodes: seq<FrameDataNode>, from: nat, fid: nat, lang: language, dsc: Text): (k: nat)
    requires Listed(nodes) && from <= |nodes|
    ensures from <= k <= |nodes| && (k < |nodes| ==> Matches(nodes[k], fid, lang, dsc))
    ensures forall i | from <= i < k :: !Matches(nodes[i], fid, lang, dsc)
    decreases |nodes| - from
  {
    if from == |nodes| || Matches(nodes[from], fid, lang, dsc) then from else Match(nodes, from + 1, fid, lang, dsc)
  }

  function Added(nodes: seq<FrameDataNode>, fid: nat, lang: language, dsc: Text, txt: Text): (r: seq<FrameDataNode>)
    requires Listed(nodes)
    ensures Listed(r)
  {
    var n := FrameDataNode(fid, SetLang(lang), dsc, txt);
    var k := Match(nodes, 0, fid, lang, dsc);
    if k == |nodes| then nodes + [n] else nodes[k := n]
  }

  /** Adding the same twice is adding it once. */
  lemma AddedTwice(nodes: seq<FrameDataNode>, fid: nat, lang: language, dsc: Text, txt: Text)
    requires Listed(nodes)
    ensures var once := Added(nodes, fid, lang, dsc, txt); Added(once, fid, lang, dsc, txt) == once
  {
    var once := Added(nodes, fid, lang, dsc, txt);
    var k, j := Match(nodes, 0, fid, lang, dsc), Match(once, 0, fid, lang, dsc);
    hide IsMultiFrame;
    SameAsItself(lang, dsc);
    assert Matches(once[k], fid, lang, dsc);
    assert forall i | 0 <= i < k :: once[i] == nodes[i];
    assert j == k;
  }

  lemma SameAsItself(lang: language, dsc: Text)
    ensures SameLang(SetLang(lang), lang) && SameDescriptor(dsc, dsc)
  {
  }

  /** The descriptor is a proper beginning of the other. */
  predicate Begins(own: Text, dsc: Text) {
    own != dsc && SameDescriptor(own, dsc)
  }

  /** A node loses its descriptor to another's exactly if it is the first that matches and its own is a proper
      beginning of the other, so a comment without a descriptor is lost to any with one. */
  lemma LostExactly(nodes: seq<FrameDataNode>, i: nat, lang: language, dsc: Text, txt: Text)
    requires Listed(nodes) && i < |nodes|
    ensures Added(nodes, ID_COMMENT, lang, dsc, txt)[i].dsc != nodes[i].dsc <==>
      i == Match(nodes, 0, ID_COMMENT, lang, dsc) && Begins(nodes[i].dsc, dsc)
  {
    hide SameLang;
  }

  /** A comment "a" without a descriptor, and then one "b" of the same language with the descriptor "x". */
  lemma LostComment()
    ensures var eng := [101, 110, 103];
      Added(Added([], ID_COMMENT, eng, Latin1([]), Latin1([97])), ID_COMMENT, eng, Latin1([120]), Latin1([98]))
      == [FrameDataNode(ID_COMMENT, eng, Latin1([120]), Latin1([98]))]
  {
    var eng := [101, 110, 103];
    var once := Added([], ID_COMMENT, eng, Latin1([]), Latin1([97]));
    var n := FrameDataNode(ID_COMMENT, eng, Latin1([]), Latin1([97]));
    assert SetLang(eng) == eng;
    assert once == [n];
    assert Matches(n, ID_COMMENT, eng, Latin1([120])) && Match(once, 0, ID_COMMENT, eng, Latin1([120])) == 0;
  }

  // ----- the reader

  /** The frames before the padding: section 3.3 of ID3v2.3.0. */
  function ReadFrames(b: seq<byte>): seq<Frame> {
    if |b| < 10 || b[0] == 0 then []
    else
      var size := Unsigned4(b, 4);
      if 10 + size > |b| then [] else [Frame(Unsigned4(b, 0), b[10..10 + size])] + ReadFrames(b[10 + size..])
  }

  /** A frame that a reader does not take for padding and whose size fits. */
  predicate Readable(f: Frame) {
    0x1000000 <= f.id < 0x1_0000_0000 && |f.content| < 0x1_0000_0000
  }

  lemma FrameLayout(f: Frame, rest: seq<byte>)
    ensures var b := FrameBytes(f) + rest;
      && |b| >= 10 + |f.content| && b[0..4] == I4(f.id) && b[4..8] == I4(|f.content|)
      && b[10..10 + |f.content|] == f.content && b[10 + |f.content|..] == rest
  {
    hide I4;
  }

  lemma FrameFields(f: Frame, rest: seq<byte>)
    requires Readable(f)
    ensures var b := FrameBytes(f) + rest;
      && |b| >= 10 + |f.content| && b[0] != 0 && Unsigned4(b, 0) == f.id && Unsigned4(b, 4) == |f.content|
      && b[10..10 + |f.content|] == f.content && b[10 + |f.content|..] == rest
  {
    hide I4, Unsigned4, FrameBytes;
    FrameLayout(f, rest);
    var b := FrameBytes(f) + rest;
    FirstDigit(f.id);
    assert b[0] == b[0..4][0];
    I4Back(f.id, b, 0);
    I4Back(|f.content|, b, 4);
  }

  lemma FirstDigit(v: nat)
    requires 0x1000000 <= v < 0x1_0000_0000
    ensures I4(v)[0] != 0
  {
  }

  /** The reader finds every frame, in order, and stops at the padding. */
  lemma {:induction false} FramesBack(fs: seq<Frame>, padding: nat)
    requires forall f | f in fs :: Readable(f)
    ensures ReadFrames(AllFrames(fs) + Zeros(padding)) == fs
  {
    hide FrameBytes, Unsigned4;
    var rest := Zeros(padding);
    if fs == [] {
      assert AllFrames(fs) + rest == rest;
    } else {
      var more := AllFrames(fs[1..]) + rest;
      FramesBack(fs[1..], padding);
      FrameFields(fs[0], more);
      assert AllFrames(fs) + rest == FrameBytes(fs[0]) + more;
      assert fs == [fs[0]] + fs[1..];
    }
  }

  function ReadUnits(b: seq<byte>): seq<ucs2> {
    if |b| < 2 then [] else ReadUnits(b[..|b| - 2]) + [256 * (b[|b| - 2] as int) + b[|b| - 1] as int]
  }

  function ReadText(enc: byte, b: seq<byte>): Text {
    if enc == 1 then Ucs2(ReadUnits(b)) else Latin1(b)
  }

  lemma ReadOneMore(b: seq<byte>, x: ucs2)
    ensures ReadUnits(b + [x / 256, x % 256]) == ReadUnits(b) + [x]
  {
    var c := b + [x / 256, x % 256];
    assert c[..|c| - 2] == b;
  }

  lemma {:induction false} UnitsBack(u: seq<ucs2>)
    ensures ReadUnits(UnitBytes(u)) == u
  {
    if u == [] {
    } else {
      hide ReadUnits;
      var n := |u| - 1;
      UnitsBack(u[..n]);
      ReadOneMore(UnitBytes(u[..n]), u[n]);
    }
  }

  lemma TextBack(t: Text)
    ensures ReadText(Enc(t), TextBytes(t)) == t
  {
    if t.Ucs2? { UnitsBack(t.units); }
  }

  /** Where the terminator of `enc` begins, at a multiple of its width. */
  function Terminator(enc: byte, b: seq<byte>, at: nat): (k: nat)
    requires at <= |b|
    ensures at <= k <= |b|
    decreases |b| - at
  {
    if enc == 1 then
      if at + 2 > |b| then |b| else if b[at] == 0 && b[at + 1] == 0 then at else Terminator(enc, b, at + 2)
    else if at == |b| || b[at] == 0 then at else Terminator(enc, b, at + 1)
  }

  /** As long as the strings have no zeros inside, which the copying of strings sees to. */
  predicate NoZeros(t: Text) {
    match t
    case Latin1(c) => forall i | 0 <= i < |c| :: c[i] != 0
    case Ucs2(u) => forall i | 0 <= i < |u| :: u[i] != 0
  }

  lemma {:induction false} LatinEnds(c: seq<byte>, rest: seq<byte>, before: seq<byte>)
    requires forall i | 0 <= i < |c| :: c[i] != 0
    ensures Terminator(0, before + c + [0] + rest, |before|) == |before| + |c|
    decreases |c|
  {
    var b := before + c + [0] + rest;
    if c != [] {
      LatinEnds(c[1..], rest, before + [c[0]]);
      assert before + [c[0]] + c[1..] + [0] + rest == b;
      assert b[|before|] == c[0];
    }
  }

  lemma {:induction false} UnitsFirst(u: seq<ucs2>)
    requires u != []
    ensures UnitBytes(u) == [u[0] / 256, u[0] % 256] + UnitBytes(u[1..])
  {
    if |u| > 1 {
      var n := |u| - 1;
      UnitsFirst(u[..n]);
      assert u[..n][1..] == u[1..][..n - 1];
    } else {
      assert u[..0] == [] && u[1..] == [];
      assert UnitBytes(u[..0]) == [];
    }
  }

  lemma {:induction false} UnitsEnd(u: seq<ucs2>, rest: seq<byte>, before: seq<byte>)
    requires forall i | 0 <= i < |u| :: u[i] != 0
    ensures Terminator(1, before + UnitBytes(u) + [0, 0] + rest, |before|) == |before| + 2 * |u|
    decreases |u|
  {
    var b := before + UnitBytes(u) + [0, 0] + rest;
    if u != [] {
      var two: seq<byte> := [u[0] / 256, u[0] % 256];
      UnitsFirst(u);
      UnitsEnd(u[1..], rest, before + two);
      hide UnitBytes;
      assert before + two + UnitBytes(u[1..]) + [0, 0] + rest == b;
      assert b[|before|] == u[0] / 256 && b[|before| + 1] == u[0] % 256;
    } else {
      assert UnitBytes(u) == [];
    }
  }

  /** A comment: language, descriptor and text. */
  datatype Comment = Comment(lng: seq<byte>, dsc: Text, txt: Text)

  function ReadComment(content: seq<byte>): Comment
    requires |content| >= 4
  {
    var enc, b := content[0], content[4..];
    var k := Terminator(enc, b, 0);
    var after := Min(|b|, k + if enc == 1 then 2 else 1);
    Comment(content[1..4], ReadText(enc, b[..k]), ReadText(enc, b[after..]))
  }

  lemma TerminatorFound(dsc: Text, rest: seq<byte>)
    requires NoZeros(dsc)
    ensures Terminator(Enc(dsc), TextBytes(dsc) + Separator(dsc) + rest, 0) == |TextBytes(dsc)|
  {
    hide Terminator;
    match dsc
    case Ucs2(u) =>
      UnitsEnd(u, rest, []);
      assert [] + UnitBytes(u) == UnitBytes(u);
    case Latin1(c) =>
      LatinEnds(c, rest, []);
      assert [] + c == c;
  }

  lemma Cut(x: seq<byte>, y: seq<byte>, z: seq<byte>)
    ensures var b := x + y + z; b[..|x|] == x && b[|x| + |y|..] == z
  {
  }

  lemma CommentParts(n: FrameDataNode)
    requires |n.lng| == 3
    ensures var c := CommentContent(n);
      && |c| >= 4 && c[0] == Enc(n.txt) && c[1..4] == n.lng
      && c[4..] == TextBytes(n.dsc) + Separator(n.dsc) + TextBytes(n.txt)
  {
    hide TextBytes;
  }

  /** A comment is read back, if its two strings have one encoding; the interface gives both the same. */
  lemma CommentBack(n: FrameDataNode)
    requires |n.lng| == 3 && NoZeros(n.dsc) && (n.dsc.Ucs2? <==> n.txt.Ucs2?)
    ensures var c := CommentContent(n); |c| >= 4 && ReadComment(c) == Comment(n.lng, n.dsc, n.txt)
  {
    hide TextBytes, Terminator, ReadText, CommentContent, NoZeros;
    var d, t := TextBytes(n.dsc), TextBytes(n.txt);
    CommentParts(n);
    TerminatorFound(n.dsc, t);
    Cut(d, Separator(n.dsc), t);
    TextBack(n.dsc);
    TextBack(n.txt);
  }

  /** The text of any other frame is read back. */
  lemma TextFrameBack(n: FrameDataNode)
    requires n.fid != ID_COMMENT
    ensures var c := NodeFrame(n).content; |c| >= 1 && ReadText(c[0], c[1..]) == n.txt
  {
    TextBack(n.txt);
  }

  /** A picture: its type by name, what it shows, a description, and the picture. */
  datatype Picture = Picture(mime: seq<byte>, kind: byte, dsc: Text, data: seq<byte>)

  function ReadPicture(content: seq<byte>): Picture
    requires |content| >= 4
  {
    var enc, b := content[0], content[1..];
    var k := Terminator(0, b, 0);
    var kind := Min(|b| - 1, k + 1);
    var c := b[kind + 1..];
    var m := Terminator(enc, c, 0);
    Picture(b[..k], b[kind], ReadText(enc, c[..m]), c[Min(|c|, m + if enc == 1 then 2 else 1)..])
  }

  /** A picture is read back, without a description and of no particular kind. */
  lemma PictureBack(mime: seq<byte>, data: seq<byte>)
    requires forall i | 0 <= i < |mime| :: mime[i] != 0
    ensures var c := PictureFrame(mime, data).content;
      |c| >= 4 && ReadPicture(c) == Picture(mime, 0, Latin1([]), data)
  {
    hide Terminator;
    var c := PictureFrame(mime, data).content;
    var b := c[1..];
    assert b == [] + mime + [0] + ([0, 0] + data);
    LatinEnds(mime, [0, 0] + data, []);
    var rest := b[|mime| + 2..];
    assert rest == [] + [] + [0] + data;
    LatinEnds([], data, []);
    assert b[..|mime|] == mime && rest[..0] == [] && rest[1..] == data;
  }

  lemma MimeNames(i: nat)
    ensures |MimeType(1)| == |"image/jpeg"| && |MimeType(2)| == |"image/png"| && |MimeType(3)| == |"image/gif"|
    ensures i < |MimeType(1)| ==> MimeType(1)[i] as int == "image/jpeg"[i] as int
    ensures i < |MimeType(2)| ==> MimeType(2)[i] as int == "image/png"[i] as int
    ensures i < |MimeType(3)| ==> MimeType(3)[i] as int == "image/gif"[i] as int
  {
    if i < 10 {
      assert i == 0 || i == 1 || i == 2 || i == 3 || i == 4 || i == 5 || i == 6 || i == 7 || i == 8 || i == 9;
    }
  }

  /** A value "COMM=..." becomes a comment frame without a language: a reader takes the first three characters for one
      and the rest for the descriptor of an empty comment. */
  lemma CustomComment(v: seq<byte>)
    requires IsValue(v) && |v| >= 8
    ensures ReadComment(ValueFrame(v).content) == Comment(v[5..8], Latin1(v[8..]), Latin1([]))
  {
    var c := ValueFrame(v).content;
    var b := v[8..];
    assert c[4..] == b && c[1..4] == v[5..8];
    NoTerminator(b, 0);
    assert b[..|b|] == b && b[|b|..] == [];
  }

  /** "COMM=abcde" */
  lemma CustomCommentLost()
    ensures var v := [67, 79, 77, 77, 61, 97, 98, 99, 100, 101];
      IsValue(v) && ReadComment(ValueFrame(v).content) == Comment([97, 98, 99], Latin1([100, 101]), Latin1([]))
  {
    CustomComment([67, 79, 77, 77, 61, 97, 98, 99, 100, 101]);
  }

  lemma {:induction false} NoTerminator(b: seq<byte>, at: nat)
    requires at <= |b| && forall i | 0 <= i < |b| :: b[i] != 0
    ensures Terminator(0, b, at) == |b|
    decreases |b| - at
  {
    if at < |b| { NoTerminator(b, at + 1); }
  }

  // ----- the whole tag

  /** Twenty-eight bits in four bytes. */
  function SevenBits(v: nat): (b: seq<byte>)
    ensures |b| == 4
  {
    [v / 0x20_0000 % 128, v / 0x4000 % 128, v / 128 % 128, v % 128]
  }

  function TagHeader(size: nat): (b: seq<byte>)
    ensures |b| == 10
  {
    [73, 68, 51, 3, 0, 0] + SevenBits(size)
  }

  /** All frames, behind them the padding, and before them the header with their size. */
  function TagBytes(fs: seq<Frame>, padding: nat): seq<byte> {
    TagHeader(|AllFrames(fs)| + padding) + AllFrames(fs) + Zeros(padding)
  }

  /** What skipId3v2 makes of the first ten bytes of a file. */
  function SkipId3v2(b: seq<byte>): nat
    requires |b| == 10
  {
    if b[0] == 73 && b[1] == 68 && b[2] == 51 then
      0x20_0000 * (b[6] as int % 128) + 0x4000 * (b[7] as int % 128) + 128 * (b[8] as int % 128) + b[9] as int % 128
          + 10
    else 0
  }

  lemma SevenBitsBack(v: nat)
    ensures 0x20_0000 * (v / 0x20_0000 % 128) + 0x4000 * (v / 0x4000 % 128) + 128 * (v / 128 % 128) + v % 128
         == v % 0x1000_0000
  {
    assert v / 0x4000 == v / 128 / 128 && v / 0x20_0000 == v / 128 / 128 / 128;
  }

  lemma SkipHeader(size: nat)
    ensures SkipId3v2(TagHeader(size)) == size % 0x1000_0000 + 10
  {
    SevenBitsBack(size);
    SmallStays(size / 0x20_0000 % 128);
    SmallStays(size / 0x4000 % 128);
    SmallStays(size / 128 % 128);
    SmallStays(size % 128);
  }

  lemma SmallStays(x: nat)
    requires x < 128
    ensures x % 128 == x
  {
  }

  /** skipId3v2 skips the tag, no more and no less, exactly if its size can be told in twenty-eight bits. */
  lemma SkipExactly(fs: seq<Frame>, padding: nat)
    ensures var b := TagBytes(fs, padding);
      SkipId3v2(b[..10]) == |b| <==> |AllFrames(fs)| + padding < 0x1000_0000
  {
    hide AllFrames, TagHeader, SkipId3v2;
    SkipHeader(|AllFrames(fs)| + padding);
    assert TagBytes(fs, padding)[..10] == TagHeader(|AllFrames(fs)| + padding);
  }

  /** A reader of the tag finds every frame. */
  lemma TagRead(fs: seq<Frame>, padding: nat)
    requires forall f | f in fs :: Readable(f)
    ensures ReadFrames(TagBytes(fs, padding)[10..]) == fs
  {
    hide AllFrames, ReadFrames, TagHeader;
    FramesBack(fs, padding);
    assert TagBytes(fs, padding)[10..] == AllFrames(fs) + Zeros(padding);
  }

  /** id3tag_spec */
  class Id3TagSpec {
    /** CHANGED_FLAG, V1_ONLY_FLAG, ADD_V2_FLAG, V2_ONLY_FLAG and PAD_V2_FLAG */
    var changed: bool
    var v1Only: bool
    var addV2: bool
    var v2Only: bool
    var padV2: bool
    var title: seq<byte>
    var artist: seq<byte>
    var album: seq<byte>
    var comment: seq<byte>
    var trackId3v1: nat
    var paddingSize: nat
    var albumart: seq<byte>
    var albumartMimetype: nat
    var values: seq<seq<byte>>
    /** The list from v2_head to v2_tail. */
    var v2: seq<FrameDataNode>

    /** id3tag_init */
    constructor ()
      ensures Valid() && v2 == [] && values == []
    {
      changed, v1Only, addV2, v2Only, padV2 := false, false, false, false, false;
      title, artist, album, comment, trackId3v1 := [], [], [], [], 0;
      paddingSize, albumart, albumartMimetype, values, v2 := 128, [], 0, [], [];
    }

    predicate Valid()
      reads this
    {
      Listed(v2) && forall i | 0 <= i < |values| :: IsValue(values[i])
    }

    /** findNode, from a position on */
    method FindNode(fid: nat, from: nat) returns (k: nat)
      requires from <= |v2|
      ensures from <= k <= |v2| && (k < |v2| ==> v2[k].fid == fid) && forall i | from <= i < k :: v2[i].fid != fid
    {
      k := from;
      while k < |v2| && v2[k].fid != fid
        invariant from <= k <= |v2| && forall i | from <= i < k :: v2[i].fid != fid
      {
        k := k + 1;
      }
    }

    /** id3v2_add_latin1 and id3v2_add_ucs2 */
    method AddNode(fid: nat, lang: language, dsc: Text, txt: Text)
      requires Listed(v2)
      modifies `v2, `changed, `addV2
      ensures v2 == Added(old(v2), fid, lang, dsc, txt) && changed && addV2
    {
      hide SameLang, SameDescriptor, IsMultiFrame;
      var k := FindNode(fid, 0);
      if IsMultiFrame(fid) {
        while k < |v2| && !(SameLang(v2[k].lng, lang) && SameDescriptor(v2[k].dsc, dsc))
          invariant k <= |v2| && (k < |v2| ==> v2[k].fid == fid) && v2 == old(v2)
          invariant forall i | 0 <= i < k :: !Matches(v2[i], fid, lang, dsc)
          decreases |v2| - k
        {
          k := FindNode(fid, k + 1);
        }
      }
      var n := FrameDataNode(fid, SetLang(lang), dsc, txt);
      if k == |v2| {
        v2 := v2 + [n];
      } else {
        v2 := v2[k := n];
      }
      changed, addV2 := true, true;
    }

    /** copyV1ToV2: the frame is added, but nothing is asked for. */
    method CopyV1ToV2(fid: nat, txt: seq<byte>)
      requires Listed(v2)
      modifies `v2, `changed, `addV2
      ensures v2 == Added(old(v2), fid, [], Latin1([]), Latin1(txt)) && unchanged(`changed, `addV2)
    {
      var wasChanged, wasAdded := changed, addV2;
      AddNode(fid, [], Latin1([]), Latin1(txt));
      changed, addV2 := wasChanged, wasAdded;
    }

    function Mime(): seq<byte>
      reads this
    {
      if albumart == [] then [] else MimeType(albumartMimetype)
    }

    /** Everything the tag has, in the order it is written. */
    function Frames(): seq<Frame>
      requires Valid()
      reads this
    {
      NodeFrames(v2) + ValueFrames(values) + if Mime() == [] then [] else [PictureFrame(Mime(), albumart)]
    }

    function Padding(): nat
      reads this
    {
      if padV2 then paddingSize else 0
    }

    predicate Wanted()
      reads this
    {
      && !v1Only
      && (addV2 || v2Only || |title| > 30 || |artist| > 30 || |album| > 30 || |comment| > 30
          || (trackId3v1 != 0 && |comment| > 28))
    }

    /** The size pass of lame_get_id3v2_tag. */
    method TagSize() returns (tagSize: nat)
      requires Valid()
      ensures tagSize == |TagBytes(Frames(), Padding())|
    {
      hide AllFrames, MimeType, NodeFrame, ValueFrame, IsValue;
      tagSize := 10;
      var fs := ValueFrames(values);
      NoFrames(fs);
      for i := 0 to |values|
        invariant tagSize == 10 + |AllFrames(fs[..i])|
      {
        FrameAdded(fs, i);
        ValueSize(values[i]);
        tagSize := tagSize + 6 + |values[i]|;
      }
      assert fs[..|values|] == fs;
      var mime := Mime();
      if mime != [] {
        tagSize := tagSize + 10 + 4 + |mime| + |albumart|;
      }
      OneFrame(PictureFrame(mime, albumart));
      ghost var before := tagSize;
      var ns := NodeFrames(v2);
      NoFrames(ns);
      for i := 0 to |v2|
        invariant tagSize == before + |AllFrames(ns[..i])|
      {
        FrameAdded(ns, i);
        tagSize := tagSize + SizeOfNode(v2[i]);
      }
      assert ns[..|v2|] == ns;
      if padV2 {
        tagSize := tagSize + paddingSize;
      }
      ThreeParts(ns, fs, if mime == [] then [] else [PictureFrame(mime, albumart)]);
      NoFrames([]);
    }

    /** The frame pass of lame_get_id3v2_tag, behind the header. */
    method WriteFrames(w: Writer)
      requires Valid() && w.Valid() && w.filled + |AllFrames(Frames())| <= w.buffer.Length
      modifies w, w.buffer
      ensures w.Valid() && w.written == old(w.written) + AllFrames(Frames())
    {
      hide AllFrames, MimeType, FrameBytes, NodeFrame, ValueFrame, IsValue;
      ghost var start := w.written;
      ghost var ns, fs := NodeFrames(v2), ValueFrames(values);
      var mime := Mime();
      ghost var ps := if mime == [] then [] else [PictureFrame(mime, albumart)];
      ThreeParts(ns, fs, ps);
      NoFrames(ns);
      for i := 0 to |v2|
        invariant w.Valid() && w.written == start + AllFrames(ns[..i])
      {
        FrameAdded(ns, i);
        if v2[i].fid == ID_COMMENT { SetFrameComment(w, v2[i]); } else { SetFrameCustom2(w, v2[i]); }
      }
      assert ns[..|v2|] == ns;
      NoFrames(fs);
      for i := 0 to |values|
        invariant w.Valid() && w.written == start + AllFrames(ns) + AllFrames(fs[..i])
      {
        FrameAdded(fs, i);
        ValueSize(values[i]);
        SetFrameCustom(w, values[i]);
      }
      assert fs[..|values|] == fs;
      NoFrames([]);
      if mime != [] {
        OneFrame(PictureFrame(mime, albumart));
        PictureSize(mime, albumart);
        SetFrameApic(w, mime, albumart);
      }
    }

    /** id3v2AddAudioDuration, for the number of milliseconds in decimal, if it is known. */
    method AddAudioDuration(milliseconds: seq<byte>)
      requires Valid()
      modifies `v2, `changed, `addV2
      ensures Valid() && v2 == WithDuration(old(v2), milliseconds) && unchanged(`changed, `addV2)
    {
      if milliseconds != [] {
        CopyV1ToV2(ID_PLAYLENGTH, milliseconds);
      }
    }

    /** lame_get_id3v2_tag: the size it tells when asked with too small a buffer is the size it writes; the bytes are
        the tag. */
    method GetId3v2Tag(milliseconds: seq<byte>, buffer: array?<byte>, size: nat) returns (n: nat)
      requires Valid() && (buffer != null ==> size <= buffer.Length)
      modifies `v2, `changed, `addV2, if buffer == null then {} else {buffer}
      ensures Valid() && Wanted() == old(Wanted()) && unchanged(`changed, `addV2)
      ensures !Wanted() ==> n == 0 && v2 == old(v2) && (buffer == null || buffer[..] == old(buffer[..]))
      ensures Wanted() ==> v2 == WithDuration(old(v2), milliseconds)
      ensures Wanted() ==>
        var tag := TagBytes(Frames(), Padding());
        if size < |tag| then n == |tag| && (buffer == null || buffer[..] == old(buffer[..]))
        else if buffer == null then n == 0
        else n == |tag| && buffer[..n] == tag && buffer[n..] == old(buffer[n..])
    {
      hide WithDuration, TagBytes, Frames;
      if v1Only { return 0; }
      if !(addV2 || v2Only || |title| > 30 || |artist| > 30 || |album| > 30 || |comment| > 30
           || (trackId3v1 != 0 && |comment| > 28)) {
        return 0;
      }
      AddAudioDuration(milliseconds);
      var tagSize := TagSize();
      if size < tagSize { return tagSize; }
      if buffer == null { return 0; }
      WriteTag(buffer, tagSize);
      return tagSize;
    }

    method WriteTag(buffer: array<byte>, tagSize: nat)
      requires Valid() && tagSize == |TagBytes(Frames(), Padding())| <= buffer.Length
      modifies buffer
      ensures buffer[..tagSize] == TagBytes(Frames(), Padding()) && buffer[tagSize..] == old(buffer[tagSize..])
    {
      hide TagHeader, AllFrames, Frames, Valid, TagBytes, Writer.Valid, Zeros;
      var w := new Writer(buffer);
      ghost var fs, padding := Frames(), Padding();
      TagLength(fs, padding);
      w.Filled();
      PutHeader(w, tagSize - 10);
      w.Filled();
      ghost var head := w.written;
      assert head == TagHeader(|AllFrames(fs)| + padding);
      WriteFrames(w);
      w.Filled();
      ghost var body := w.written;
      assert body == head + AllFrames(fs);
      Pad(w, tagSize);
      w.Filled();
      WholeTag(fs, padding, w.written);
    }
  }

  lemma TagLength(fs: seq<Frame>, padding: nat)
    ensures |TagBytes(fs, padding)| == 10 + |AllFrames(fs)| + padding
  {
  }

  lemma WholeTag(fs: seq<Frame>, padding: nat, written: seq<byte>)
    requires written == TagHeader(|AllFrames(fs)| + padding) + AllFrames(fs) + Zeros(padding)
    ensures written == TagBytes(fs, padding)
  {
  }

  /** The list with its playing time. */
  function WithDuration(nodes: seq<FrameDataNode>, milliseconds: seq<byte>): (r: seq<FrameDataNode>)
    requires Listed(nodes)
    ensures Listed(r)
  {
    if milliseconds == [] then nodes else Added(nodes, ID_PLAYLENGTH, [], Latin1([]), Latin1(milliseconds))
  }

  /** Asking for the size first makes no difference to the tag that is written then. */
  lemma AskedFirst(nodes: seq<FrameDataNode>, milliseconds: seq<byte>)
    requires Listed(nodes)
    ensures var once := WithDuration(nodes, milliseconds); WithDuration(once, milliseconds) == once
  {
    if milliseconds != [] {
      AddedTwice(nodes, ID_PLAYLENGTH, [], Latin1([]), Latin1(milliseconds));
    }
  }

  method PutHeader(w: Writer, adjustedTagSize: nat)
    requires w.Valid() && w.filled + 10 <= w.buffer.Length
    modifies w, w.buffer
    ensures w.Valid() && w.written == old(w.written) + TagHeader(adjustedTagSize)
  {
    hide SevenBits;
    w.PutAll([73, 68, 51, 3, 0, 0]);
    w.PutAll(SevenBits(adjustedTagSize));
  }

  /** The padding, cleared by memset. */
  method Pad(w: Writer, tagSize: nat)
    requires w.Valid() && w.filled <= tagSize <= w.buffer.Length
    modifies w, w.buffer
    ensures w.Valid() && w.written == old(w.written) + Zeros(tagSize - old(w.filled))
  {
    var before := w.filled;
    while w.filled < tagSize
      invariant w.Valid() && before <= w.filled <= tagSize && w.written == old(w.written) + Zeros(w.filled - before)
      decreases tagSize - w.filled
    {
      w.Put(0);
    }
  }

  lemma PictureSize(mime: seq<byte>, data: seq<byte>)
    ensures |FrameBytes(PictureFrame(mime, data))| == 14 + |mime| + |data|
  {
  }

  lemma NoFrames(fs: seq<Frame>)
    ensures AllFrames(fs[..0]) == []
  {
  }

  lemma ValueSize(v: seq<byte>)
    requires IsValue(v)
    ensures |FrameBytes(ValueFrame(v))| == 6 + |v|
  {
  }

  lemma ThreeParts(a: seq<Frame>, b: seq<Frame>, c: seq<Frame>)
    ensures AllFrames(a + b + c) == AllFrames(a) + AllFrames(b) + AllFrames(c)
  {
    hide AllFrames;
    AllFramesConcat(a + b, c);
    AllFramesConcat(a, b);
  }
}

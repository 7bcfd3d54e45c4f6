/** The coded spectrum of a granule, as bits, and the decoder: pairs of values with their escape bits and
    signs, and quadruples (section 2.4.2.7 of ISO/IEC 11172-3). */
module Huffman {
  import opened Bits
  import opened Tables
  import opened CodeWords

  datatype Option<+T> = None | Some(value: T)

  // ----- one code word

  function CodeBits(t: nat, x: nat, y: nat): seq<bool> {
    var n := WordLen(t, x, y);
    if n < 0 then [] else BitsOf(CodeWord(t, x, y), n)
  }

  /** The first `w` bits as a number; zeros stand for what is missing at the end. */
  function WindowValue(b: seq<bool>, w: nat): nat {
    if w <= |b| then ValueOf(b[..w]) else ShiftLeft(ValueOf(b), w - |b|)
  }

  /** Read one code word: its symbol, and the bits behind it. */
  function DecodeWord(t: nat, b: seq<bool>): Option<((nat, nat), seq<bool>)> {
    var s := Lookup(t, WindowValue(b, Window(t)));
    var n := WordLen(t, s.0, s.1);
    if 0 <= n <= |b| then Some((s, b[n..])) else None
  }

  lemma ValueOfAppend(a: seq<bool>, x: bool)
    ensures ValueOf(a + [x]) == 2 * ValueOf(a) + if x then 1 else 0
  {
    assert (a + [x])[..|a|] == a;
  }

  lemma {:induction false} ValueOfConcat(a: seq<bool>, b: seq<bool>)
    ensures ValueOf(a + b) == ShiftLeft(ValueOf(a), |b|) + ValueOf(b)
    decreases |b|
  {
    if b == [] {
      assert a + b == a;
    } else {
      var n := |b| - 1;
      var c := b[..n];
      ShiftStep(ValueOf(a), n);
      hide ValueOf, ShiftLeft;
      ValueOfConcat(a, c);
      ValueOfAppend(a + c, b[n]);
      ValueOfAppend(c, b[n]);
      assert b == c + [b[n]] && a + b == (a + c) + [b[n]];
    }
  }

  lemma ShiftStep(v: nat, n: nat)
    ensures ShiftLeft(v, n + 1) == 2 * ShiftLeft(v, n)
    ensures ShiftLeft(v, 0) == v
  {
    var p := Pow2(n);
    assert Pow2(n + 1) == 2 * p && Pow2(0) == 1;
    hide Pow2;
    assert v * (2 * p) == 2 * (v * p);
  }

  lemma WindowInside(c: seq<bool>, rest: seq<bool>, w: nat)
    requires |c| <= w <= |c| + |rest|
    ensures ShiftLeft(ValueOf(c), w - |c|) <= WindowValue(c + rest, w) < ShiftLeft(ValueOf(c), w - |c|) + Pow2(w - |c|)
  {
    hide ValueOf, Pow2, ShiftLeft;
    var d := rest[..w - |c|];
    assert (c + rest)[..w] == c + d;
    ValueOfConcat(c, d);
    ValueOfBound(d);
  }

  lemma WindowPastEnd(c: seq<bool>, rest: seq<bool>, w: nat)
    requires |c| + |rest| < w
    ensures ShiftLeft(ValueOf(c), w - |c|) <= WindowValue(c + rest, w) < ShiftLeft(ValueOf(c) + 1, w - |c|)
  {
    hide ValueOf, Pow2, ShiftLeft;
    var r := |rest|;
    ValueOfConcat(c, rest);
    ValueOfBound(rest);
    ShortWindow(ValueOf(c), ValueOf(rest), r, w - |c| - r);
    assert r + (w - |c| - r) == w - |c|;
  }

  lemma WindowOf(c: seq<bool>, rest: seq<bool>, w: nat)
    requires |c| <= w
    ensures ShiftLeft(ValueOf(c), w - |c|) <= WindowValue(c + rest, w) < ShiftLeft(ValueOf(c) + 1, w - |c|)
  {
    hide ValueOf, Pow2, ShiftLeft, WindowValue;
    if w <= |c| + |rest| {
      ShiftSucc(ValueOf(c), w - |c|);
      WindowInside(c, rest, w);
    } else {
      WindowPastEnd(c, rest, w);
    }
  }

  lemma ShiftSucc(c: nat, k: nat)
    ensures ShiftLeft(c + 1, k) == ShiftLeft(c, k) + Pow2(k)
  {
    hide Pow2;
    MulStep1(c, Pow2(k));
  }

  lemma ShortWindow(c: nat, v: nat, r: nat, m: nat)
    requires v < Pow2(r)
    ensures ShiftLeft(c, r + m) <= ShiftLeft(ShiftLeft(c, r) + v, m) < ShiftLeft(c + 1, r + m)
  {
    hide Pow2;
    Pow2Add(r, m);
    MulStep1(c, Pow2(r + m));
    WindowShort(c, v, Pow2(r), Pow2(m));
  }

  lemma MulStep1(a: nat, m: nat)
    ensures (a + 1) * m == a * m + m
  {
  }

  lemma WindowShort(c: nat, r: nat, p: nat, q: nat)
    requires r < p && q > 0
    ensures c * (p * q) <= (c * p + r) * q < c * (p * q) + p * q
  {
    Distribute(c, p, r, q);
    MulMonotone(r + 1, p, q);
    assert p * q == q * p;
  }

  lemma CodeBitsAre(t: nat, x: nat, y: nat)
    requires 0 < WordLen(t, x, y) < 20 && CodeWord(t, x, y) < Scale(1, WordLen(t, x, y))
    ensures |CodeBits(t, x, y)| == WordLen(t, x, y)
    ensures ValueOf(CodeBits(t, x, y)) == CodeWord(t, x, y)
  {
    hide CodeWord, WordLen, BitsOf, Scale, Pow2;
    var len: nat, word := WordLen(t, x, y), CodeWord(t, x, y);
    ScaleIsShift(1, len);
    ValueOfBitsOf(word, len);
    DivUnique(word, Pow2(len), 0, word);
  }

  lemma BeginsWith(c: seq<bool>, rest: seq<bool>, w: nat, word: nat)
    requires |c| <= w < 20 && ValueOf(c) == word
    ensures Begins(w, word, |c|, WindowValue(c + rest, w))
  {
    hide Scale, WindowValue, ShiftLeft;
    ScaleIsShift(word, w - |c|);
    ScaleIsShift(word + 1, w - |c|);
    WindowOf(c, rest, w);
  }

  /** A code word is read back whatever follows it. */
  lemma DecodeWordBack(t: nat, x: nat, y: nat, rest: seq<bool>)
    requires Usable(t) && x < Cols(t) && y < Cols(t)
    ensures 0 < WordLen(t, x, y) == |CodeBits(t, x, y)|
    ensures DecodeWord(t, CodeBits(t, x, y) + rest) == Some(((x, y), rest))
  {
    hide CodeWord, WordLen, Lookup, Window, Cols, Usable, CodeBits, WindowValue, Begins, Scale;
    var w, c := Window(t), CodeBits(t, x, y);
    LookupFinds(t, x, y, WindowValue(c + rest, w));
    CodeBitsAre(t, x, y);
    BeginsWith(c, rest, w, CodeWord(t, x, y));
    assert (c + rest)[|c|..] == rest;
  }

  // ----- a pair of values

  function Signed(x: int, neg: bool): int { if neg then -x else x }

  /** Tables 16 to 31 code values above 14 as 15 and an escape. */
  function Clip(t: nat, x: nat): nat { if t > 15 && x > 14 then 15 else x }

  predicate Codable(t: nat, x: nat) {
    if t > 15 then x <= 15 + Linmax(t) else x < Xlen(t)
  }

  /** What follows the code word for one of its values: the escape bits, then the sign. */
  function TailBits(t: nat, x: nat, neg: bool): seq<bool> {
    (if t > 15 && x > 14 then BitsOf(x - 15, Xlen(t)) else []) + if x != 0 then [neg] else []
  }

  function PairBits(t: nat, x: nat, nx: bool, y: nat, ny: bool): seq<bool> {
    CodeBits(t, Clip(t, x), Clip(t, y)) + TailBits(t, x, nx) + TailBits(t, y, ny)
  }

  function DecodeSign(x: nat, b: seq<bool>): Option<(int, seq<bool>)> {
    if x == 0 then Some((0, b))
    else if b == [] then None
    else Some((Signed(x, b[0]), b[1..]))
  }

  function DecodeTail(t: nat, x: nat, b: seq<bool>): Option<(int, seq<bool>)> {
    if t > 15 && x == 15 then
      if Xlen(t) <= |b| then DecodeSign(15 + ValueOf(b[..Xlen(t)]), b[Xlen(t)..]) else None
    else DecodeSign(x, b)
  }

  function DecodePair(t: nat, b: seq<bool>): Option<((int, int), seq<bool>)> {
    match DecodeWord(t, b)
    case None => None
    case Some((s, b1)) =>
      match DecodeTail(t, s.0, b1)
      case None => None
      case Some((x, b2)) =>
        match DecodeTail(t, s.1, b2)
        case None => None
        case Some((y, b3)) => Some(((x, y), b3))
  }

  lemma LinmaxFits(t: nat)
    requires 16 <= t < 32
    ensures Linmax(t) < Pow2(Xlen(t)) && Xlen(t) <= 13
  {
    Pow2Small();
    assert Pow2(10) == 1024 && Pow2(11) == 2048;
    assert Pow2(13) == 8192;
  }

  lemma DecodeSignBack(x: nat, neg: bool, rest: seq<bool>)
    ensures DecodeSign(x, (if x != 0 then [neg] else []) + rest) == Some((Signed(x, neg), rest))
  {
    if x != 0 {
      assert ([neg] + rest)[1..] == rest;
    } else {
      assert [] + rest == rest;
    }
  }

  /** Escape bits and sign are read back. */
  lemma DecodeTailBack(t: nat, x: nat, neg: bool, rest: seq<bool>)
    requires t < 32 && Codable(t, x)
    ensures DecodeTail(t, Clip(t, x), TailBits(t, x, neg) + rest) == Some((Signed(x, neg), rest))
  {
    hide BitsOf, ValueOf, Xlen, Linmax, DecodeSign;
    DecodeSignBack(x, neg, rest);
    if t > 15 && x > 14 {
      LinmaxFits(t);
      EscapeBack(x - 15, Xlen(t), [neg] + rest);
      assert TailBits(t, x, neg) + rest == BitsOf(x - 15, Xlen(t)) + ([neg] + rest);
    } else {
      assert TailBits(t, x, neg) == if x != 0 then [neg] else [];
    }
  }

  lemma EscapeBack(v: nat, n: nat, rest: seq<bool>)
    requires v < Pow2(n)
    ensures var b := BitsOf(v, n) + rest; ValueOf(b[..n]) == v && b[n..] == rest
  {
    hide BitsOf, ValueOf, Pow2;
    ValueOfBitsOf(v, n);
    DivUnique(v, Pow2(n), 0, v);
    assert (BitsOf(v, n) + rest)[..n] == BitsOf(v, n);
  }

  lemma ClipInside(t: nat, x: nat)
    requires t < 32 && Codable(t, x)
    ensures Clip(t, x) < Cols(t)
  {
  }

  /** A pair is read back. */
  lemma DecodePairBack(t: nat, x: nat, nx: bool, y: nat, ny: bool, rest: seq<bool>)
    requires Usable(t) && t < 32 && Codable(t, x) && Codable(t, y)
    ensures DecodePair(t, PairBits(t, x, nx, y, ny) + rest) == Some(((Signed(x, nx), Signed(y, ny)), rest))
  {
    hide DecodeWord, DecodeTail, TailBits, CodeBits, Codable, Clip, Cols, WordLen;
    ClipInside(t, x);
    ClipInside(t, y);
    var c, tx, ty := CodeBits(t, Clip(t, x), Clip(t, y)), TailBits(t, x, nx), TailBits(t, y, ny);
    assert PairBits(t, x, nx, y, ny) + rest == c + (tx + (ty + rest));
    DecodeWordBack(t, Clip(t, x), Clip(t, y), tx + (ty + rest));
    DecodeTailBack(t, x, nx, ty + rest);
    DecodeTailBack(t, y, ny, rest);
  }

  // ----- a region of pairs

  function Signeds(ix: seq<nat>, neg: seq<bool>, from: nat, to: nat): (r: seq<int>)
    requires from <= to <= |ix| == |neg|
    ensures |r| == to - from
  {
    seq(to - from, i requires 0 <= i < to - from => Signed(ix[from + i], neg[from + i]))
  }

  lemma SignedsSplit(ix: seq<nat>, neg: seq<bool>, a: nat, b: nat, c: nat)
    requires a <= b <= c <= |ix| == |neg|
    ensures Signeds(ix, neg, a, c) == Signeds(ix, neg, a, b) + Signeds(ix, neg, b, c)
  {
  }

  lemma SignedsZero(ix: seq<nat>, neg: seq<bool>, a: nat, b: nat)
    requires a <= b <= |ix| == |neg| && forall i | a <= i < b :: ix[i] == 0
    ensures Signeds(ix, neg, a, b) == Zeros(b - a)
  {
    var s, z := Signeds(ix, neg, a, b), Zeros(b - a);
    forall i | 0 <= i < b - a ensures s[i] == z[i] {
      assert ix[a + i] == 0;
      assert s[i] == Signed(ix[a + i], neg[a + i]);
      assert z[i] == 0;
    }
  }

  /** `n` pairs from `from` on.  Table 0 codes nothing. */
  function RegionBits(t: nat, ix: seq<nat>, neg: seq<bool>, from: nat, n: nat): seq<bool>
    requires from + 2 * n <= |ix| == |neg|
  {
    if t == 0 || n == 0 then []
    else
      var i := from + 2 * (n - 1);
      RegionBits(t, ix, neg, from, n - 1) + PairBits(t, ix[i], neg[i], ix[i + 1], neg[i + 1])
  }

  lemma {:induction false} RegionFirst(t: nat, ix: seq<nat>, neg: seq<bool>, from: nat, n: nat)
    requires from + 2 * n <= |ix| == |neg| && t != 0 && 0 < n
    ensures RegionBits(t, ix, neg, from, n)
         == PairBits(t, ix[from], neg[from], ix[from + 1], neg[from + 1]) + RegionBits(t, ix, neg, from + 2, n - 1)
  {
    hide PairBits;
    if n > 1 {
      RegionFirst(t, ix, neg, from, n - 1);
    } else {
      assert RegionBits(t, ix, neg, from, 0) == RegionBits(t, ix, neg, from + 2, 0) == [];
    }
  }

  function Zeros(n: nat): (z: seq<int>)
    ensures |z| == n && forall i | 0 <= i < n :: z[i] == 0
  {
    if n == 0 then [] else Zeros(n - 1) + [0]
  }

  /** Read `n` pairs. */
  function DecodeRegion(t: nat, n: nat, b: seq<bool>): Option<(seq<int>, seq<bool>)>
    decreases n
  {
    if t == 0 then Some((Zeros(2 * n), b))
    else if n == 0 then Some(([], b))
    else
      match DecodePair(t, b)
      case None => None
      case Some((p, b1)) =>
        match DecodeRegion(t, n - 1, b1)
        case None => None
        case Some((r, b2)) => Some(([p.0, p.1] + r, b2))
  }

  /** The table codes every value from `from` up to `to`. */
  predicate RegionCodable(t: nat, ix: seq<nat>, from: nat, to: nat)
    requires from <= to <= |ix|
  {
    if t == 0 then forall i | from <= i < to :: ix[i] == 0
    else Usable(t) && t < 32 && forall i | from <= i < to :: Codable(t, ix[i])
  }

  /** A region is read back. */
  lemma {:induction false} DecodeRegionBack(t: nat, ix: seq<nat>, neg: seq<bool>, from: nat, n: nat, rest: seq<bool>)
    requires from + 2 * n <= |ix| == |neg| && RegionCodable(t, ix, from, from + 2 * n)
    ensures DecodeRegion(t, n, RegionBits(t, ix, neg, from, n) + rest)
         == Some((Signeds(ix, neg, from, from + 2 * n), rest))
    decreases n
  {
    hide DecodePair, PairBits, Codable, Usable, RegionBits, Signeds;
    if t == 0 || n == 0 {
      RegionNone(t, ix, neg, from, n);
      SignedsZero(ix, neg, from, from + 2 * n);
      assert [] + rest == rest;
    } else {
      RegionFirst(t, ix, neg, from, n);
      var p := PairBits(t, ix[from], neg[from], ix[from + 1], neg[from + 1]);
      var r := RegionBits(t, ix, neg, from + 2, n - 1);
      assert (p + r) + rest == p + (r + rest);
      assert Codable(t, ix[from]) && Codable(t, ix[from + 1]);
      DecodePairBack(t, ix[from], neg[from], ix[from + 1], neg[from + 1], r + rest);
      DecodeRegionBack(t, ix, neg, from + 2, n - 1, rest);
      SignedsSplit(ix, neg, from, from + 2, from + 2 * n);
      SignedsPair(ix, neg, from);
    }
  }

  lemma RegionNone(t: nat, ix: seq<nat>, neg: seq<bool>, from: nat, n: nat)
    requires from + 2 * n <= |ix| == |neg| && (t == 0 || n == 0)
    ensures RegionBits(t, ix, neg, from, n) == []
  {
  }

  lemma SignedsPair(ix: seq<nat>, neg: seq<bool>, from: nat)
    requires from + 2 <= |ix| == |neg|
    ensures Signeds(ix, neg, from, from + 2) == [Signed(ix[from], neg[from]), Signed(ix[from + 1], neg[from + 1])]
  {
  }

  // ----- quadruples

  function SignBits(x: nat, neg: bool): seq<bool> { if x != 0 then [neg] else [] }

  /** The quadruple at `i`: one code word for its pattern, then the signs. */
  function QuadBits(select: nat, ix: seq<nat>, neg: seq<bool>, i: nat): seq<bool>
    requires i + 4 <= |ix| == |neg|
  {
    CodeBits(32 + select, 2 * ix[i] + ix[i + 1], 2 * ix[i + 2] + ix[i + 3])
    + SignBits(ix[i], neg[i]) + SignBits(ix[i + 1], neg[i + 1])
    + SignBits(ix[i + 2], neg[i + 2]) + SignBits(ix[i + 3], neg[i + 3])
  }

  /** `n` quadruples from `from` on. */
  function QuadsBits(select: nat, ix: seq<nat>, neg: seq<bool>, from: nat, n: nat): seq<bool>
    requires from + 4 * n <= |ix| == |neg|
  {
    if n == 0 then []
    else QuadsBits(select, ix, neg, from, n - 1) + QuadBits(select, ix, neg, from + 4 * (n - 1))
  }

  function DecodeSigns(v: (nat, nat, nat, nat), b: seq<bool>): Option<(seq<int>, seq<bool>)> {
    match DecodeSign(v.0, b)
    case None => None
    case Some((a0, b0)) =>
      match DecodeSign(v.1, b0)
      case None => None
      case Some((a1, b1)) =>
        match DecodeSign(v.2, b1)
        case None => None
        case Some((a2, b2)) =>
          match DecodeSign(v.3, b2)
          case None => None
          case Some((a3, b3)) => Some(([a0, a1, a2, a3], b3))
  }

  function DecodeQuad(select: nat, b: seq<bool>): Option<(seq<int>, seq<bool>)> {
    match DecodeWord(32 + select, b)
    case None => None
    case Some((s, r)) => DecodeSigns((s.0 / 2, s.0 % 2, s.1 / 2, s.1 % 2), r)
  }

  /** Read quadruples to the end of the granule. */
  function DecodeQuads(select: nat, b: seq<bool>): Option<seq<int>>
    decreases |b|
  {
    if b == [] then Some([])
    else
      match DecodeQuad(select, b)
      case None => None
      case Some((q, r)) =>
        if |b| <= |r| then None
        else
          match DecodeQuads(select, r)
          case None => None
          case Some(more) => Some(q + more)
  }

  predicate SmallValues(ix: seq<nat>, from: nat, to: nat)
    requires from <= to <= |ix|
  {
    forall i | from <= i < to :: ix[i] <= 1
  }

  lemma DecodeSignsBack(ix: seq<nat>, neg: seq<bool>, i: nat, rest: seq<bool>)
    requires i + 4 <= |ix| == |neg|
    ensures DecodeSigns((ix[i], ix[i + 1], ix[i + 2], ix[i + 3]),
              SignBits(ix[i], neg[i]) + SignBits(ix[i + 1], neg[i + 1])
              + SignBits(ix[i + 2], neg[i + 2]) + SignBits(ix[i + 3], neg[i + 3]) + rest)
         == Some((Signeds(ix, neg, i, i + 4), rest))
  {
    hide DecodeSign, SignBits;
    var s0, s1, s2, s3 := SignBits(ix[i], neg[i]), SignBits(ix[i + 1], neg[i + 1]),
                          SignBits(ix[i + 2], neg[i + 2]), SignBits(ix[i + 3], neg[i + 3]);
    assert s0 + s1 + s2 + s3 + rest == s0 + (s1 + (s2 + (s3 + rest)));
    SignBack(ix[i], neg[i], s1 + (s2 + (s3 + rest)));
    SignBack(ix[i + 1], neg[i + 1], s2 + (s3 + rest));
    SignBack(ix[i + 2], neg[i + 2], s3 + rest);
    SignBack(ix[i + 3], neg[i + 3], rest);
    assert Signeds(ix, neg, i, i + 4)
        == [Signed(ix[i], neg[i]), Signed(ix[i + 1], neg[i + 1]), Signed(ix[i + 2], neg[i + 2]),
            Signed(ix[i + 3], neg[i + 3])];
  }

  lemma SignBack(x: nat, neg: bool, rest: seq<bool>)
    ensures DecodeSign(x, SignBits(x, neg) + rest) == Some((Signed(x, neg), rest))
  {
    DecodeSignBack(x, neg, rest);
  }

  /** A quadruple is read back. */
  lemma DecodeQuadBack(select: nat, ix: seq<nat>, neg: seq<bool>, i: nat, rest: seq<bool>)
    requires select < 2 && i + 4 <= |ix| == |neg| && SmallValues(ix, i, i + 4)
    ensures DecodeQuad(select, QuadBits(select, ix, neg, i) + rest) == Some((Signeds(ix, neg, i, i + 4), rest))
    ensures QuadBits(select, ix, neg, i) != []
  {
    hide DecodeWord, DecodeSigns, SignBits, CodeBits, WordLen, Signeds;
    var x, y := 2 * ix[i] + ix[i + 1], 2 * ix[i + 2] + ix[i + 3];
    var c := CodeBits(32 + select, x, y);
    var s := SignBits(ix[i], neg[i]) + SignBits(ix[i + 1], neg[i + 1])
             + SignBits(ix[i + 2], neg[i + 2]) + SignBits(ix[i + 3], neg[i + 3]);
    assert QuadBits(select, ix, neg, i) + rest == c + (s + rest);
    DecodeWordBack(32 + select, x, y, s + rest);
    DecodeSignsBack(ix, neg, i, rest);
  }

  lemma {:induction false} QuadsFirst(select: nat, ix: seq<nat>, neg: seq<bool>, from: nat, n: nat)
    requires from + 4 * n <= |ix| == |neg| && 0 < n
    ensures QuadsBits(select, ix, neg, from, n)
         == QuadBits(select, ix, neg, from) + QuadsBits(select, ix, neg, from + 4, n - 1)
  {
    hide QuadBits;
    if n > 1 {
      QuadsFirst(select, ix, neg, from, n - 1);
    } else {
      assert QuadsBits(select, ix, neg, from, 0) == QuadsBits(select, ix, neg, from + 4, 0) == [];
    }
  }

  lemma QuadsNone(select: nat, ix: seq<nat>, neg: seq<bool>, from: nat)
    requires from <= |ix| == |neg|
    ensures QuadsBits(select, ix, neg, from, 0) == [] && Signeds(ix, neg, from, from) == []
  {
  }

  /** The quadruples are read back, up to the end. */
  lemma {:induction false} DecodeQuadsBack(select: nat, ix: seq<nat>, neg: seq<bool>, from: nat, n: nat)
    requires select < 2 && from + 4 * n <= |ix| == |neg| && SmallValues(ix, from, from + 4 * n)
    ensures DecodeQuads(select, QuadsBits(select, ix, neg, from, n)) == Some(Signeds(ix, neg, from, from + 4 * n))
    decreases n
  {
    hide DecodeQuad, QuadBits, QuadsBits, Signeds;
    if n == 0 {
      QuadsNone(select, ix, neg, from);
    } else {
      QuadsFirst(select, ix, neg, from, n);
      DecodeQuadBack(select, ix, neg, from, QuadsBits(select, ix, neg, from + 4, n - 1));
      DecodeQuadsBack(select, ix, neg, from + 4, n - 1);
      SignedsSplit(ix, neg, from, from + 4, from + 4 * n);
    }
  }

  // ----- the spectrum of a granule

  /** How a spectrum is coded: the pairs in each of three regions and their tables, then quadruples. */
  datatype Plan = Plan(n0: nat, n1: nat, n2: nat, t0: nat, t1: nat, t2: nat, quads: nat, select: nat)

  function BigEnd(p: Plan): nat { 2 * p.n0 + 2 * p.n1 + 2 * p.n2 }

  function End(p: Plan): nat { BigEnd(p) + 4 * p.quads }

  function BigBits(p: Plan, ix: seq<nat>, neg: seq<bool>): seq<bool>
    requires BigEnd(p) <= |ix| == |neg|
  {
    RegionBits(p.t0, ix, neg, 0, p.n0)
    + RegionBits(p.t1, ix, neg, 2 * p.n0, p.n1)
    + RegionBits(p.t2, ix, neg, 2 * p.n0 + 2 * p.n1, p.n2)
  }

  function SpectrumBits(p: Plan, ix: seq<nat>, neg: seq<bool>): seq<bool>
    requires End(p) <= |ix| == |neg|
  {
    BigBits(p, ix, neg) + QuadsBits(p.select, ix, neg, BigEnd(p), p.quads)
  }

  /** Read a spectrum of `size` values that fills `b`: three regions, quadruples to the end of the bits,
      zeros after that.  The number of quadruples is not transmitted. */
  function DecodeSpectrum(p: Plan, size: nat, b: seq<bool>): Option<seq<int>> {
    match DecodeRegion(p.t0, p.n0, b)
    case None => None
    case Some((r0, b1)) =>
      match DecodeRegion(p.t1, p.n1, b1)
      case None => None
      case Some((r1, b2)) =>
        match DecodeRegion(p.t2, p.n2, b2)
        case None => None
        case Some((r2, b3)) =>
          match DecodeQuads(p.select, b3)
          case None => None
          case Some(q) =>
            var v := r0 + r1 + r2 + q;
            if |v| <= size then Some(v + Zeros(size - |v|)) else None
  }

  /** The plan codes every value of the spectrum. */
  predicate Codes(p: Plan, ix: seq<nat>)
  {
    && End(p) <= |ix|
    && RegionCodable(p.t0, ix, 0, 2 * p.n0)
    && RegionCodable(p.t1, ix, 2 * p.n0, 2 * p.n0 + 2 * p.n1)
    && RegionCodable(p.t2, ix, 2 * p.n0 + 2 * p.n1, BigEnd(p))
    && p.select < 2 && SmallValues(ix, BigEnd(p), End(p))
    && forall i | End(p) <= i < |ix| :: ix[i] == 0
  }

  /** The decoder recovers every quantized value and the sign of every nonzero one. */
  lemma SpectrumBack(p: Plan, ix: seq<nat>, neg: seq<bool>)
    requires |ix| == |neg| && Codes(p, ix)
    ensures DecodeSpectrum(p, |ix|, SpectrumBits(p, ix, neg)) == Some(Signeds(ix, neg, 0, |ix|))
  {
    hide DecodeRegion, DecodeQuads, RegionBits, QuadsBits, RegionCodable, Signeds, Zeros;
    var a, b, c := 2 * p.n0, 2 * p.n0 + 2 * p.n1, BigEnd(p);
    var r0, r1, r2 := RegionBits(p.t0, ix, neg, 0, p.n0), RegionBits(p.t1, ix, neg, a, p.n1),
        RegionBits(p.t2, ix, neg, b, p.n2);
    var q := QuadsBits(p.select, ix, neg, c, p.quads);
    assert SpectrumBits(p, ix, neg) == r0 + (r1 + (r2 + q));
    DecodeRegionBack(p.t0, ix, neg, 0, p.n0, r1 + (r2 + q));
    DecodeRegionBack(p.t1, ix, neg, a, p.n1, r2 + q);
    DecodeRegionBack(p.t2, ix, neg, b, p.n2, q);
    DecodeQuadsBack(p.select, ix, neg, c, p.quads);
    SignedsSplit(ix, neg, 0, a, b);
    SignedsSplit(ix, neg, 0, b, c);
    SignedsSplit(ix, neg, 0, c, End(p));
    SignedsSplit(ix, neg, 0, End(p), |ix|);
    SignedsZero(ix, neg, End(p), |ix|);
  }
}

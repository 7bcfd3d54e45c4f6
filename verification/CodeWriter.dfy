/** How one code word, with its escape bits and signs, is put together into the numbers that putbits2 takes
    (the loop bodies of Huffmancode and huffman_coder_count1). */
module CodeWriter {
  import opened Bits
  import opened SideInfo
  import opened Granule
  import opened Huffman
  import opened CodeWords
  import opened Tables

  lemma NoFields()
    ensures FieldBits([]) == []
  {
  }

  lemma NoFields2(g: GrInfo)
    requires |g.sfbPartitionTable| == |g.slen| == 4
    ensures FieldBits(ScaleFields2(g, 0)) == [] && Width(ScaleFields2(g, 0)) == 0
  {
  }

  lemma CodesQuads(p: Plan, ix: seq<nat>)
    requires Codes(p, ix)
    ensures p.select < 2 && BigEnd(p) <= End(p) <= |ix| && SmallValues(ix, BigEnd(p), End(p))
  {
  }

  lemma QuadsGrow(select: nat, ix: seq<nat>, neg: seq<bool>, from: nat, n: nat, all: nat)
    requires n < all && from + 4 * all <= |ix| == |neg|
    ensures QuadsBits(select, ix, neg, from, n + 1)
         == QuadsBits(select, ix, neg, from, n) + QuadBits(select, ix, neg, from + 4 * n)
    ensures |QuadsBits(select, ix, neg, from, n + 1)| <= |QuadsBits(select, ix, neg, from, all)|
  {
    hide QuadBits;
    if n + 1 < all { QuadsGrow(select, ix, neg, from, n, all - 1); }
  }

  /** The part of huffman_coder_count1 that collects a quadruple's pattern and signs. */
  method QuadPattern(ix: seq<nat>, neg: seq<bool>, i: nat) returns (p: nat, huffbits: nat)
    requires i + 4 <= |ix| == |neg| && SmallValues(ix, i, i + 4)
    ensures p == 8 * ix[i] + 4 * ix[i + 1] + 2 * ix[i + 2] + ix[i + 3]
    ensures huffbits < Pow2(ix[i] + ix[i + 1] + ix[i + 2] + ix[i + 3])
    ensures BitsOf(huffbits, ix[i] + ix[i + 1] + ix[i + 2] + ix[i + 3])
         == SignBits(ix[i], neg[i]) + SignBits(ix[i + 1], neg[i + 1])
            + SignBits(ix[i + 2], neg[i + 2]) + SignBits(ix[i + 3], neg[i + 3])
  {
    hide BitsOf, Pow2;
    NoBits();
    p, huffbits := 0, 0;
    ghost var s0, s1, s2 := SignBits(ix[i], neg[i]), SignBits(ix[i + 1], neg[i + 1]), SignBits(ix[i + 2], neg[i + 2]);
    if ix[i] != 0 { p := p + 8; }
    huffbits := TakeSign(huffbits, ix[i], neg[i], []);
    if ix[i + 1] != 0 { p := p + 4; }
    huffbits := TakeSign(huffbits, ix[i + 1], neg[i + 1], [] + s0);
    if ix[i + 2] != 0 { p := p + 2; }
    huffbits := TakeSign(huffbits, ix[i + 2], neg[i + 2], [] + s0 + s1);
    if ix[i + 3] != 0 { p := p + 1; }
    huffbits := TakeSign(huffbits, ix[i + 3], neg[i + 3], [] + s0 + s1 + s2);
    assert [] + s0 == s0;
  }

  /** One coefficient's turn: the signs so far move up, and its sign goes below them. */
  method TakeSign(huffbits: nat, x: nat, neg: bool, ghost s: seq<bool>) returns (h: nat)
    requires x <= 1 && huffbits < Pow2(|s|) && BitsOf(huffbits, |s|) == s
    ensures |SignBits(x, neg)| == x
    ensures h < Pow2(|s + SignBits(x, neg)|)
    ensures BitsOf(h, |s + SignBits(x, neg)|) == s + SignBits(x, neg)
  {
    hide BitsOf, Pow2;
    h := huffbits;
    if x != 0 {
      PushSign(h, |s|, s, neg);
      h := h * 2;
      if neg { h := h + 1; }
    } else {
      assert s + [] == s;
    }
  }

  lemma PushSign(h: nat, n: nat, s: seq<bool>, neg: bool)
    requires h < Pow2(n) && BitsOf(h, n) == s
    ensures var h' := 2 * h + if neg then 1 else 0; h' < Pow2(n + 1) && BitsOf(h', n + 1) == s + [neg]
  {
    assert Pow2(n + 1) == 2 * Pow2(n);
  }

  /** The table entry of a quadruple, with the signs in its low bits. */
  lemma QuadWord(select: nat, ix: seq<nat>, neg: seq<bool>, i: nat, huffbits: nat)
    requires select < 2 && i + 4 <= |ix| == |neg| && SmallValues(ix, i, i + 4)
    requires huffbits < Pow2(ix[i] + ix[i + 1] + ix[i + 2] + ix[i + 3])
    requires BitsOf(huffbits, ix[i] + ix[i + 1] + ix[i + 2] + ix[i + 3])
          == SignBits(ix[i], neg[i]) + SignBits(ix[i + 1], neg[i + 1])
             + SignBits(ix[i + 2], neg[i + 2]) + SignBits(ix[i + 3], neg[i + 3])
    ensures var h, p := 32 + select, 8 * ix[i] + 4 * ix[i + 1] + 2 * ix[i + 2] + ix[i + 3];
      && p < 16 && Hlen(h, p / 4, p % 4) < 30
      && huffbits + Word(h, p / 4, p % 4) < Pow2(Hlen(h, p / 4, p % 4))
      && BitsOf(huffbits + Word(h, p / 4, p % 4), Hlen(h, p / 4, p % 4)) == QuadBits(select, ix, neg, i)
  {
    hide BitsOf, Pow2, Word, Hlen, CodeWord, Scale, SignBits, ShiftLeft, WordLen;
    hide Signs, CodeBits;
    assert ix[i] <= 1 && ix[i + 1] <= 1 && ix[i + 2] <= 1 && ix[i + 3] <= 1;
    QuadIndex(32 + select, ix[i], ix[i + 1], ix[i + 2], ix[i + 3]);
    CountWordBits(32 + select, 2 * ix[i] + ix[i + 1], 2 * ix[i + 2] + ix[i + 3], huffbits);
    Assoc5(CodeBits(32 + select, 2 * ix[i] + ix[i + 1], 2 * ix[i + 2] + ix[i + 3]),
           SignBits(ix[i], neg[i]), SignBits(ix[i + 1], neg[i + 1]), SignBits(ix[i + 2], neg[i + 2]),
               SignBits(ix[i + 3], neg[i + 3]));
  }

  lemma Assoc5(a: seq<bool>, b: seq<bool>, c: seq<bool>, d: seq<bool>, e: seq<bool>)
    ensures a + (b + c + d + e) == a + b + c + d + e
  {
  }

  lemma QuadIndex(h: nat, a: nat, b: nat, c: nat, d: nat)
    requires a <= 1 && b <= 1 && c <= 1 && d <= 1 && h > 31
    ensures var p := 8 * a + 4 * b + 2 * c + d; p / 4 == 2 * a + b && p % 4 == 2 * c + d && p < 16
    ensures Signs(h, 2 * a + b, 2 * c + d) == a + b + c + d
  {
  }

  lemma CountWordBits(h: nat, x: nat, y: nat, signs: nat)
    requires 32 <= h < 34 && x < 4 && y < 4 && signs < Pow2(Signs(h, x, y))
    ensures Hlen(h, x, y) < 30 && signs + Word(h, x, y) < Pow2(Hlen(h, x, y))
    ensures BitsOf(signs + Word(h, x, y), Hlen(h, x, y)) == CodeBits(h, x, y) + BitsOf(signs, Signs(h, x, y))
  {
    hide BitsOf, Pow2, Word, Hlen, CodeWord, Scale, ShiftLeft, Signs;
    var n := Signs(h, x, y);
    CountEntry(h, x, y);
    var len: nat := WordLen(h, x, y);
    ScaleIsShift(CodeWord(h, x, y), n);
    ScaleIsShift(1, len);
    ShiftOne(len);
    ShiftIn(CodeWord(h, x, y), len, signs, n);
  }

  lemma ShiftOne(n: nat)
    ensures ShiftLeft(1, n) == Pow2(n)
  {
  }

  /** The part of Huffmancode that collects escape bits and signs of a pair: `ext` holds the `xbits` bits
      that follow the code word of `x1`, `x2`; `cbits` is minus the number of signs. */
  method Escapes(t: nat, x: nat, nx: bool, y: nat, ny: bool)
    returns (x1: nat, x2: nat, ext: nat, xbits: nat, cbits: int)
    requires t < 32 && Codable(t, x) && Codable(t, y)
    ensures x1 == Clip(t, x) && x2 == Clip(t, y) && cbits + Signs(t, x1, x2) == 0
    ensures xbits == |TailBits(t, x, nx) + TailBits(t, y, ny)| < 30 && ext < Pow2(xbits)
    ensures BitsOf(ext, xbits) == TailBits(t, x, nx) + TailBits(t, y, ny)
  {
    hide BitsOf, Pow2, Or, ShiftLeft, TailBits;
    ghost var tx, ty := TailBits(t, x, nx), TailBits(t, y, ny);
    var linbits := Xlen(t);
    cbits, xbits, ext := 0, 0, 0;
    x1, x2 := x, y;
    if x1 != 0 {
      if nx { ext := ext + 1; }
      cbits := cbits - 1;
    }
    FirstTail(t, x, nx);
    assert t <= 15 ==> ext < Pow2(|tx|) && BitsOf(ext, |tx|) == tx;
    if t > 15 {
      if x1 > 14 {
        var linbitsX1 := x1 - 15;
        assert linbitsX1 <= Linmax(t);
        ext := Or(ShiftLeft(linbitsX1, 1), ext);
        xbits := linbits;
        x1 := 15;
      }
      assert ext < Pow2(|tx|) && BitsOf(ext, |tx|) == tx;
      if x2 > 14 {
        var linbitsX2 := x2 - 15;
        assert linbitsX2 <= Linmax(t);
        SecondTail(t, ext, tx, y, ny);
        ext := ShiftLeft(ext, linbits);
        ext := Or(ext, linbitsX2);
        xbits := xbits + linbits;
        x2 := 15;
      }
    }
    if x2 != 0 {
      if t <= 15 || y <= 14 { SecondTail(t, ext, tx, y, ny); }
      ext := ShiftLeft(ext, 1);
      if ny { ext := ext + 1; }
      cbits := cbits - 1;
    } else {
      SecondTail(t, ext, tx, y, ny);
    }
    xbits := xbits - cbits;
  }

  /** The first value's escape bits go above its sign. */
  lemma FirstTail(t: nat, x: nat, neg: bool)
    requires t < 32 && Codable(t, x)
    ensures var s := if x != 0 && neg then 1 else 0;
      var ext := if t > 15 && x > 14 then Or(ShiftLeft(x - 15, 1), s) else s;
      && |TailBits(t, x, neg)| == (if t > 15 && x > 14 then Xlen(t) else 0) + (if x != 0 then 1 else 0) <= 14
      && ext < Pow2(|TailBits(t, x, neg)|) && BitsOf(ext, |TailBits(t, x, neg)|) == TailBits(t, x, neg)
  {
    OneBit(neg);
    NoBits();
    if t > 15 && x > 14 {
      LinmaxFits(t);
      hide BitsOf, Pow2, Or, ShiftLeft;
      ShiftIn(x - 15, Xlen(t), if neg then 1 else 0, 1);
    }
  }

  /** The second value's bits are shifted in below: escape bits, then the sign. */
  lemma SecondTail(t: nat, e: nat, b: seq<bool>, y: nat, neg: bool)
    requires t < 32 && Codable(t, y) && e < Pow2(|b|) && BitsOf(e, |b|) == b
    ensures var e1 := if t > 15 && y > 14 then Or(ShiftLeft(e, Xlen(t)), y - 15) else e;
      var e2 := if y != 0 then ShiftLeft(e1, 1) + (if neg then 1 else 0) else e1;
      && |TailBits(t, y, neg)| == (if t > 15 && y > 14 then Xlen(t) else 0) + (if y != 0 then 1 else 0) <= 14
      && e2 < Pow2(|b + TailBits(t, y, neg)|)
      && BitsOf(e2, |b + TailBits(t, y, neg)|) == b + TailBits(t, y, neg)
  {
    hide BitsOf, Pow2, Or, ShiftLeft, Linmax, Xlen;
    OneBit(neg);
    var n, e1 := |b|, e;
    if t > 15 && y > 14 {
      LinmaxFits(t);
      ShiftIn(e, n, y - 15, Xlen(t));
      e1 := Or(ShiftLeft(e, Xlen(t)), y - 15);
      n := n + Xlen(t);
    }
    if y != 0 {
      ShiftIn(e1, n, if neg then 1 else 0, 1);
    }
  }

  lemma OneBit(b: bool)
    ensures BitsOf(if b then 1 else 0, 1) == [b]
    ensures Pow2(1) == 2
  {
    assert BitsOf(if b then 1 else 0, 1) == BitsOf(0, 0) + [b];
  }

  lemma NoBits()
    ensures BitsOf(0, 0) == [] && Pow2(0) == 1
  {
  }

  lemma WordFits(t: nat, x: nat, y: nat)
    requires Usable(t) && t < 32 && x < Cols(t) && y < Cols(t)
    ensures 0 < Hlen(t, x, y) - Signs(t, x, y) < 20
    ensures Word(t, x, y) < Pow2(Hlen(t, x, y) - Signs(t, x, y))
    ensures CodeBits(t, x, y) == BitsOf(Word(t, x, y), Hlen(t, x, y) - Signs(t, x, y))
  {
    assert CodeWord(t, x, y) == Word(t, x, y);
    hide Hlen, Word, Cols, Usable, CodeWord, Window, Lookup, Scale, Pow2, BitsOf;
    LookupFinds(t, x, y, 0);
    ScaleIsShift(1, WordLen(t, x, y));
  }

  lemma RegionGrows(t: nat, ix: seq<nat>, neg: seq<bool>, from: nat, n: nat, all: nat)
    requires n < all && from + 2 * all <= |ix| == |neg| && t != 0
    ensures var i := from + 2 * n;
      && RegionBits(t, ix, neg, from, n + 1)
         == RegionBits(t, ix, neg, from, n) + PairBits(t, ix[i], neg[i], ix[i + 1], neg[i + 1])
      && |RegionBits(t, ix, neg, from, n + 1)| <= |RegionBits(t, ix, neg, from, all)|
  {
    hide PairBits;
    if n + 1 < all { RegionGrows(t, ix, neg, from, n, all - 1); }
  }
}

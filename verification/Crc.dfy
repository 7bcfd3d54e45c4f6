/** The checksum of a protected frame header (CRC_update and CRC_writeheader of bitstream.c; section 2.4.3.1
    of ISO/IEC 11172-3): the encoder's byte-wise loop is a bit-wise division, and a reader that divides on over
    the checksum itself is left with nothing. */
module Crc {
  import opened Bits

  const CRC16_POLYNOMIAL := 0x8005

  // ----- as the encoder computes it

  /** C's `^` on non-negative operands. */
  function Xor(a: nat, b: nat): nat {
    if a == 0 then b
    else if b == 0 then a
    else 2 * Xor(a / 2, b / 2) + if a % 2 != b % 2 then 1 else 0
  }

  /** The bit of `x` that has the value `2^k`. */
  function BitAt(x: nat, k: nat): bool { ShiftRight(x, k) % 2 == 1 }

  /** One turn of the loop in CRC_update. */
  function CrcTurn(value: nat, crc: nat): nat {
    var v, c := 2 * value, 2 * crc;
    if BitAt(Xor(c, v), 16) then Xor(c, CRC16_POLYNOMIAL) else c
  }

  /** `n` turns; only the lower sixteen bits of the register mean anything. */
  function CrcTurns(value: nat, crc: nat, n: nat): nat
    decreases n
  {
    if n == 0 then crc else CrcTurns(2 * value, CrcTurn(value, crc), n - 1)
  }

  method CrcUpdate(value: byte, crc: nat) returns (r: nat)
    ensures r == CrcTurns(256 * value, crc, 8)
  {
    hide Xor, BitAt;
    var v: nat := 256 * value;
    r := crc;
    for i := 0 to 8
      invariant CrcTurns(v, r, 8 - i) == CrcTurns(256 * value, crc, 8)
    {
      v := 2 * v;
      r := 2 * r;
      if BitAt(Xor(r, v), 16) {
        r := Xor(r, CRC16_POLYNOMIAL);
      }
    }
  }

  function CrcAll(bytes: seq<byte>, crc: nat): nat {
    if bytes == [] then crc
    else CrcTurns(256 * (bytes[|bytes| - 1] as int), CrcAll(bytes[..|bytes| - 1], crc), 8)
  }

  lemma CrcAllAppend(bytes: seq<byte>, x: byte, crc: nat)
    ensures CrcAll(bytes + [x], crc) == CrcTurns(256 * x, CrcAll(bytes, crc), 8)
  {
    hide CrcTurns;
    assert (bytes + [x])[..|bytes|] == bytes;
  }

  /** The bytes a header's checksum protects: all but the sync word's and its own. */
  function Protected(bytes: seq<byte>): seq<byte>
    requires |bytes| >= 6
  {
    bytes[2..4] + bytes[6..]
  }

  /** The loop of CRC_writeheader over the first `len` bytes of a header. */
  method Checksum(header: seq<byte>, len: nat) returns (crc: nat)
    requires 6 <= len <= |header|
    ensures crc == CrcAll(Protected(header[..len]), 0xffff)
  {
    hide CrcTurns, CrcAll;
    CrcNone(0xffff);
    CrcAllAppend([], header[2], 0xffff);
    CrcAllAppend([header[2]], header[3], 0xffff);
    crc := 0xffff;
    crc := CrcUpdate(header[2], crc);
    crc := CrcUpdate(header[3], crc);
    assert [] + [header[2]] == [header[2]];
    assert Protected(header[..6]) == [header[2]] + [header[3]];
    for i := 6 to len
      invariant crc == CrcAll(Protected(header[..i]), 0xffff)
    {
      CrcAllAppend(Protected(header[..i]), header[i], 0xffff);
      assert Protected(header[..i + 1]) == Protected(header[..i]) + [header[i]];
      crc := CrcUpdate(header[i], crc);
    }
  }

  lemma CrcNone(crc: nat)
    ensures CrcAll([], crc) == crc
  {
  }

  // ----- as the standard defines it

  /** The bits of the generator polynomial below its highest. */
  const GENERATOR: seq<bool> := [true, false, false, false, false, false, false, false,
                                 false, false, false, false, false, true, false, true]

  function XorAll(a: seq<bool>, b: seq<bool>): (r: seq<bool>)
    requires |a| == |b|
    ensures |r| == |a|
  {
    seq(|a|, i requires 0 <= i < |a| => a[i] != b[i])
  }

  /** Shift one bit into the sixteen-bit division register. */
  function Divide(reg: seq<bool>, bit: bool): (r: seq<bool>)
    requires |reg| == 16
    ensures |r| == 16
  {
    var shifted := reg[1..] + [false];
    if reg[0] != bit then XorAll(shifted, GENERATOR) else shifted
  }

  function DivideAll(reg: seq<bool>, bits: seq<bool>): (r: seq<bool>)
    requires |reg| == 16
    ensures |r| == 16
  {
    if bits == [] then reg else Divide(DivideAll(reg, bits[..|bits| - 1]), bits[|bits| - 1])
  }

  /** The checksum in the header agrees with what it protects: nothing is left after dividing over both. */
  ghost predicate Checked(header: seq<bool>) {
    48 <= |header| && DivideAll(BitsOf(0xffff, 16), header[16..32] + header[48..] + header[32..48]) == BitsOf(0, 16)
  }

  lemma {:induction false} DivideAllConcat(reg: seq<bool>, a: seq<bool>, b: seq<bool>)
    requires |reg| == 16
    ensures DivideAll(reg, a + b) == DivideAll(DivideAll(reg, a), b)
    decreases |b|
  {
    hide Divide;
    if b == [] {
      assert a + b == a;
    } else {
      var n := |b| - 1;
      DivideAllConcat(reg, a, b[..n]);
      assert (a + b)[..|a| + n] == a + b[..n];
    }
  }

  // ----- the bits of a shifted and of an exclusive-or'ed number

  lemma {:induction false} XorBits(a: nat, b: nat, n: nat)
    ensures BitsOf(Xor(a, b), n) == XorAll(BitsOf(a, n), BitsOf(b, n))
  {
    if n > 0 {
      XorHalf(a, b);
      XorBits(a / 2, b / 2, n - 1);
    }
  }

  lemma XorHalf(a: nat, b: nat)
    ensures Xor(a, b) / 2 == Xor(a / 2, b / 2)
    ensures Xor(a, b) % 2 == 1 <==> a % 2 != b % 2
  {
  }

  lemma DoubleBits(x: nat, n: nat)
    requires n > 0
    ensures BitsOf(2 * x, n) == BitsOf(x, n)[1..] + [false]
    ensures BitsOf(x, n)[0] == BitAt(x, n - 1)
  {
    BitsSplit(x, 1, n - 1);
    assert BitsOf(2 * x, n) == BitsOf(x, n - 1) + [false];
    assert BitsOf(ShiftRight(x, n - 1), 1) == BitsOf(ShiftRight(x, n - 1) / 2, 0) + [BitAt(x, n - 1)];
  }

  // ----- the two agree

  lemma GeneratorBits()
    ensures BitsOf(CRC16_POLYNOMIAL, 16) == GENERATOR
  {
    hide BitsOf, Pow2;
    NibbleOnto(0x800, 5, 12);
    NibbleOnto(0x80, 0, 8);
    NibbleOnto(8, 0, 4);
    FourBits(8);
    FourBits(0);
    FourBits(5);
  }

  lemma NibbleOnto(q: nat, w: nat, n: nat)
    requires w < 16
    ensures BitsOf(16 * q + w, n + 4) == BitsOf(q, n) + BitsOf(w, 4)
  {
    Pow2Small();
    BitsOfJoin(q, w, n, 4);
  }

  lemma FourBits(x: nat)
    ensures BitsOf(x, 4) == [x / 8 % 2 == 1, x / 4 % 2 == 1, x / 2 % 2 == 1, x % 2 == 1]
  {
    assert BitsOf(x / 4, 2) == [x / 8 % 2 == 1, x / 4 % 2 == 1] by {
      assert BitsOf(x / 8, 1) == BitsOf(x / 16, 0) + [x / 8 % 2 == 1];
    }
    assert BitsOf(x / 2, 3) == BitsOf(x / 4, 2) + [x / 2 % 2 == 1];
  }

  /** One turn shifts in the bit of `value` above its low fifteen. */
  lemma TurnDivides(value: nat, crc: nat)
    ensures BitsOf(CrcTurn(value, crc), 16) == Divide(BitsOf(crc, 16), BitsOf(value, 16)[0])
  {
    hide Xor, BitsOf;
    var v, c := 2 * value, 2 * crc;
    XorBits(c, v, 17);
    DoubleBits(Xor(c, v), 17);
    DoubleBits(crc, 17);
    DoubleBits(crc, 16);
    DoubleBits(value, 17);
    DoubleBits(value, 16);
    BitsSplit(crc, 1, 16);
    BitsSplit(value, 1, 16);
    GeneratorBits();
    XorBits(c, CRC16_POLYNOMIAL, 16);
  }

  lemma DivideFirst(reg: seq<bool>, bit: bool, rest: seq<bool>)
    requires |reg| == 16
    ensures DivideAll(reg, [bit] + rest) == DivideAll(Divide(reg, bit), rest)
  {
    hide Divide;
    DivideAllConcat(reg, [bit], rest);
    assert [bit][..0] == [];
    assert DivideAll(reg, []) == reg;
  }

  lemma {:induction false} TurnsDivide(value: nat, crc: nat, n: nat)
    requires n <= 16
    ensures BitsOf(CrcTurns(value, crc, n), 16) == DivideAll(BitsOf(crc, 16), BitsOf(value, 16)[..n])
    decreases n
  {
    hide CrcTurn, BitsOf, Divide;
    if n > 0 {
      var b := BitsOf(value, 16);
      TurnDivides(value, crc);
      TurnsDivide(2 * value, CrcTurn(value, crc), n - 1);
      DoubleBits(value, 16);
      assert BitsOf(2 * value, 16)[..n - 1] == b[1..n];
      DivideFirst(BitsOf(crc, 16), b[0], b[1..n]);
      assert [b[0]] + b[1..n] == b[..n];
    }
  }

  /** The lower half of the register after a byte is the division by the byte's bits. */
  lemma ByteDivides(x: byte, crc: nat)
    ensures BitsOf(CrcTurns(256 * x, crc, 8), 16) == DivideAll(BitsOf(crc, 16), BitsOf(x, 8))
  {
    hide CrcTurns, BitsOf, DivideAll;
    Pow2Small();
    BitsOfJoin(x, 0, 8, 8);
    assert BitsOf(256 * x, 16)[..8] == BitsOf(x, 8);
    TurnsDivide(256 * x, crc, 8);
  }

  /** The encoder's checksum is the standard's division of the bytes' bits. */
  lemma {:induction false} CrcDivides(bytes: seq<byte>, crc: nat)
    ensures BitsOf(CrcAll(bytes, crc), 16) == DivideAll(BitsOf(crc, 16), BytesToBits(bytes))
  {
    hide CrcTurns, BitsOf, Divide;
    if bytes != [] {
      var n := |bytes| - 1;
      CrcDivides(bytes[..n], crc);
      ByteDivides(bytes[n], CrcAll(bytes[..n], crc));
      DivideAllConcat(BitsOf(crc, 16), BytesToBits(bytes[..n]), BitsOf(bytes[n], 8));
    }
  }

  /** Dividing on over the register's own bits leaves nothing. */
  lemma {:induction false} DivideSelf(reg: seq<bool>, n: nat)
    requires |reg| == 16 && n <= 16
    ensures DivideAll(reg, reg[..n]) == reg[n..] + BitsOf(0, n)
  {
    if n > 0 {
      DivideSelf(reg, n - 1);
      assert reg[..n][..n - 1] == reg[..n - 1];
      assert BitsOf(0, n) == BitsOf(0, n - 1) + [false];
    } else {
      assert reg[..0] == [] && reg[0..] == reg && BitsOf(0, 0) == [];
    }
  }

  /** With the register's lower half in its fifth and sixth bytes, the header passes a reader's check. */
  lemma ChecksumChecks(header: seq<byte>, crc: nat)
    requires 6 <= |header| && crc == CrcAll(Protected(header), 0xffff)
    requires header[4] == crc / 256 % 256 && header[5] == crc % 256
    ensures Checked(BytesToBits(header))
  {
    hide CrcAll, BitsOf, DivideAll, BytesToBits;
    var bits, one := BytesToBits(header), BitsOf(0xffff, 16);
    BytesToBitsSlice(header, 2, 4);
    BytesToBitsSlice(header, 4, 6);
    BytesToBitsSlice(header, 6, |header|);
    assert header[2..4] + header[6..|header|] == Protected(header);
    BytesToBitsConcat(header[2..4], header[6..|header|]);
    assert bits[48..] == bits[48..8 * |header|];
    OwnBits(header[4], header[5], crc);
    assert header[4..6] == [header[4], header[5]];
    CrcDivides(Protected(header), 0xffff);
    DivideAllConcat(one, BytesToBits(Protected(header)), BitsOf(crc, 16));
    DivideSelf(BitsOf(crc, 16), 16);
    assert BitsOf(crc, 16)[..16] == BitsOf(crc, 16) && BitsOf(crc, 16)[16..] == [];
    assert bits[16..32] + bits[48..] + bits[32..48] == BytesToBits(Protected(header)) + BitsOf(crc, 16);
  }

  lemma OwnBits(hi: byte, lo: byte, crc: nat)
    requires hi == crc / 256 % 256 && lo == crc % 256
    ensures BytesToBits([hi, lo]) == BitsOf(crc, 16)
  {
    hide BitsOf, BytesToBits;
    Pow2Small();
    BytesToBitsAppend([hi], lo);
    BytesToBitsAppend([], hi);
    assert [] + [hi] == [hi] && [hi] + [lo] == [hi, lo];
    BitsSplit(crc, 8, 8);
    BitsOfMod(crc / 256, 8);
    BitsOfMod(crc, 8);
    NoBytesNoBits();
  }

  lemma NoBytesNoBits()
    ensures BytesToBits([]) == []
  {
  }
}

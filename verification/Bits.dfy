/** Bit strings, and the C operators the formatter uses on bytes.
    A bit string lists the most significant bit first, as the stream does. */
module Bits {

  type byte = x: int | 0 <= x < 256

  function Pow2(n: nat): (r: nat)
    ensures r > 0
  {
    if n == 0 then 1 else 2 * Pow2(n - 1)
  }

  /** The `n` low bits of `v`. */
  function BitsOf(v: nat, n: nat): (b: seq<bool>)
    ensures |b| == n
  {
    if n == 0 then [] else BitsOf(v / 2, n - 1) + [v % 2 == 1]
  }

  function ValueOf(b: seq<bool>): nat {
    if b == [] then 0 else 2 * ValueOf(b[..|b| - 1]) + if b[|b| - 1] then 1 else 0
  }

  /** The bits of a run of bytes. */
  function BytesToBits(s: seq<byte>): (b: seq<bool>)
    ensures |b| == 8 * |s|
  {
    if s == [] then [] else BytesToBits(s[..|s| - 1]) + BitsOf(s[|s| - 1], 8)
  }

  /** C's `|` on non-negative operands. */
  function Or(a: nat, b: nat): nat {
    if a == 0 then b
    else if b == 0 then a
    else 2 * Or(a / 2, b / 2) + if a % 2 == 1 || b % 2 == 1 then 1 else 0
  }

  function ShiftLeft(v: nat, n: nat): nat { v * Pow2(n) }

  function ShiftRight(v: nat, n: nat): nat { Quotient(v, Pow2(n)) }

  function Quotient(v: nat, d: nat): (q: nat)
    requires d > 0
  {
    v / d
  }

  // ----- arithmetic of powers of two

  /** C's division, for a positive divisor. */
  function TruncDiv(n: int, d: nat): int
    requires d > 0
  {
    if n < 0 then -(-n / d) else n / d
  }

  function Min(a: int, b: int): int { if a < b then a else b }

  function Max(a: int, b: int): int { if a < b then b else a }

  lemma MulTwice(x: nat, y: nat)
    ensures 2 * (x * y) == (2 * x) * y
  {
  }

  lemma Pow2Add(a: nat, b: nat)
    ensures Pow2(a + b) == Pow2(a) * Pow2(b)
  {
    if a > 0 {
      Pow2Add(a - 1, b);
      assert Pow2(a + b) == 2 * Pow2(a - 1 + b) && Pow2(a) == 2 * Pow2(a - 1);
      hide Pow2;
      MulTwice(Pow2(a - 1), Pow2(b));
    }
  }

  lemma Pow2Monotone(a: nat, b: nat)
    requires a <= b
    ensures Pow2(a) <= Pow2(b)
  {
    if a < b { Pow2Monotone(a, b - 1); }
  }

  lemma Pow2Small()
    ensures Pow2(0) == 1 && Pow2(1) == 2 && Pow2(2) == 4 && Pow2(3) == 8 && Pow2(4) == 16
    ensures Pow2(5) == 32 && Pow2(6) == 64 && Pow2(7) == 128 && Pow2(8) == 256
  {
    assert Pow2(4) == 16;
    assert Pow2(8) == 256;
  }

  lemma MulMonotone(a: nat, b: nat, m: nat)
    requires a <= b
    ensures a * m <= b * m
  {
  }

  lemma DivUnique(a: nat, m: nat, q: nat, r: nat)
    requires r < m && a == q * m + r
    ensures a / m == q && a % m == r
  {
    var q' := a / m;
    if q' < q { MulMonotone(q' + 1, q, m); }
    if q < q' { MulMonotone(q + 1, q', m); }
  }

  lemma DivModDouble(v: nat, p: nat)
    requires p > 0
    ensures v / (2 * p) == v / 2 / p
    ensures v % (2 * p) == 2 * (v / 2 % p) + v % 2
  {
    var q, r := v / 2 / p, v / 2 % p;
    assert v / 2 == q * p + r;
    assert q * (2 * p) == 2 * (q * p);
    DivUnique(v, 2 * p, q, 2 * r + v % 2);
  }

  lemma Distribute(q: nat, b: nat, t: nat, a: nat)
    ensures (q * b + t) * a == q * (a * b) + t * a
  {
  }

  lemma DivModId(v: nat, a: nat) returns (q: nat, r: nat)
    requires a > 0
    ensures q == v / a && r == v % a && r < a && v == q * a + r
  {
    q, r := v / a, v % a;
  }

  lemma DivMonotone(a: nat, b: nat, d: nat)
    requires a <= b && 0 < d
    ensures a / d <= b / d
  {
    var q, r := DivModId(a, d);
    var u, t := DivModId(b, d);
    if u < q { MulMonotone(u + 1, q, d); }
  }

  lemma DivDiv(v: nat, a: nat, b: nat)
    requires a > 0 && b > 0
    ensures a * b > 0 && v / (a * b) == v / a / b
  {
    var u, s := DivModId(v, a);
    var q, t := DivModId(u, b);
    Distribute(q, b, t, a);
    MulMonotone(t + 1, b, a);
    Distribute(0, 1, b, a);
    DivUnique(v, a * b, q, t * a + s);
  }

  lemma ShiftRightTwice(v: nat, a: nat, b: nat)
    ensures ShiftRight(v, a + b) == ShiftRight(ShiftRight(v, a), b)
  {
    Pow2Add(a, b);
    DivDiv(v, Pow2(a), Pow2(b));
  }

  function Times(n: nat, w: nat): nat { n * w }

  lemma TimesStep(n: nat, w: nat)
    ensures Times(n + 1, w) == Times(n, w) + w
    ensures Times(0, w) == 0
  {
  }

  lemma TimesMonotone(a: nat, b: nat, w: nat)
    requires a <= b
    ensures Times(a, w) <= Times(b, w)
  {
    MulMonotone(a, b, w);
  }

  lemma MulAbove(p: nat, q: nat, m: nat)
    requires p < q
    ensures p * m + m <= q * m
  {
    MulMonotone(p + 1, q, m);
    Distribute(p, 1, 1, m);
  }

  // ----- bit strings

  /** Reading back the `n` low bits gives the value modulo `2^n`. */
  lemma {:induction false} ValueOfBitsOf(v: nat, n: nat)
    ensures ValueOf(BitsOf(v, n)) == v % Pow2(n)
  {
    if n > 0 {
      ValueOfBitsOf(v / 2, n - 1);
      var b := BitsOf(v, n);
      assert b[..n - 1] == BitsOf(v / 2, n - 1);
      DivModDouble(v, Pow2(n - 1));
    }
  }

  lemma {:induction false} ValueOfBound(b: seq<bool>)
    ensures ValueOf(b) < Pow2(|b|)
  {
    if b != [] { ValueOfBound(b[..|b| - 1]); }
  }

  /** `a + b` bits of `v` are the `a` bits above followed by the `b` bits below. */
  lemma {:induction false} BitsSplit(v: nat, a: nat, b: nat)
    ensures BitsOf(v, a + b) == BitsOf(ShiftRight(v, b), a) + BitsOf(v, b)
  {
    if b > 0 {
      BitsSplit(v / 2, a, b - 1);
      DivDiv(v, 2, Pow2(b - 1));
      assert BitsOf(v, a + b) == BitsOf(v / 2, a + (b - 1)) + [v % 2 == 1];
    } else {
      assert BitsOf(v, 0) == [];
    }
  }

  /** Only the value modulo `2^n` matters to the `n` low bits. */
  lemma {:induction false} BitsOfMod(v: nat, n: nat)
    ensures BitsOf(v % Pow2(n), n) == BitsOf(v, n)
  {
    if n > 0 {
      DivModDouble(v, Pow2(n - 1));
      BitsOfMod(v / 2, n - 1);
    }
  }

  lemma BytesToBitsAppend(s: seq<byte>, x: byte)
    ensures BytesToBits(s + [x]) == BytesToBits(s) + BitsOf(x, 8)
  {
    assert (s + [x])[..|s|] == s;
  }

  lemma {:induction false} BytesToBitsConcat(s: seq<byte>, t: seq<byte>)
    ensures BytesToBits(s + t) == BytesToBits(s) + BytesToBits(t)
    decreases |t|
  {
    if t == [] {
      assert s + t == s;
    } else {
      hide BytesToBits;
      var u, x := t[..|t| - 1], t[|t| - 1];
      assert t == u + [x] && s + t == (s + u) + [x];
      BytesToBitsConcat(s, u);
      BytesToBitsAppend(s + u, x);
      BytesToBitsAppend(u, x);
    }
  }

  lemma MiddlePart(s: seq<bool>, x: seq<bool>, y: seq<bool>, z: seq<bool>, p: nat, q: nat)
    requires s == x + y + z && p == |x| && q == |x| + |y|
    ensures q <= |s| && s[p..q] == y
  {
  }

  lemma ThreeCuts(b: seq<byte>, i: nat, j: nat) returns (x: seq<byte>, y: seq<byte>, z: seq<byte>)
    requires i <= j <= |b|
    ensures b == x + y + z && |x| == i && |y| == j - i && y == b[i..j]
  {
    x, y, z := b[..i], b[i..j], b[j..];
  }

  lemma BytesToBitsSlice(b: seq<byte>, i: nat, j: nat)
    requires i <= j <= |b|
    ensures BytesToBits(b[i..j]) == BytesToBits(b)[8 * i..8 * j]
  {
    hide BytesToBits;
    var x, y, z := ThreeCuts(b, i, j);
    BytesToBitsConcat(x, y);
    BytesToBitsConcat(x + y, z);
    MiddlePart(BytesToBits(b), BytesToBits(x), BytesToBits(y), BytesToBits(z), 8 * i, 8 * j);
  }

  // ----- the byte update  `buf[i] |= (val >> j) << idx`

  /** Or-ing a small value below the zero low bits of `a` adds it. */
  lemma {:induction false} OrDisjoint(a: nat, b: nat, m: nat)
    requires a % Pow2(m) == 0 && b < Pow2(m)
    ensures Or(a, b) == a + b
  {
    if a != 0 && b != 0 {
      var p := Pow2(m - 1);
      var q := a / (2 * p);
      assert a == q * (2 * p) == 2 * (q * p);
      assert a % 2 == 0 && a / 2 == q * p;
      DivUnique(a / 2, p, q, 0);
      OrDisjoint(a / 2, b / 2, m - 1);
    }
  }

  lemma ModTimes(w: nat, a: nat, b: nat)
    requires a > 0 && b > 0
    ensures a * b > 0 && (w * b) % (a * b) == (w % a) * b
  {
    var q, r := w / a, w % a;
    assert w * b == (q * a + r) * b == q * (a * b) + r * b;
    MulMonotone(r + 1, a, b);
    DivUnique(w * b, a * b, q, r * b);
  }

  /** The byte after `buf |= (val >> j) << idx`, truncated to eight bits. */
  function OrInto(old8: byte, val: nat, j: nat, idx: nat): byte {
    Or(old8, ShiftLeft(ShiftRight(val, j), idx)) % 256
  }

  lemma NextMultiple(a: nat, w: nat, m: nat, n: nat)
    requires m > 0 && a % m == 0 && a < m * n && w < m
    ensures a + w < m * n
  {
    var q := a / m;
    if n <= q { MulMonotone(n, q, m); }
    MulMonotone(q + 1, n, m);
  }

  lemma PutBelow(a: nat, w: nat, k: nat, p: nat)
    requires k > 0 && p > 0 && k * p > 0 && a % (k * p) == 0 && w < k
    ensures w * p < k * p
    ensures (a + w * p) % p == 0
    ensures (a + w * p) / p == a / (k * p) * k + w
  {
    var q := a / (k * p);
    MulMonotone(w + 1, k, p);
    assert q * (k * p) == (q * k) * p;
    assert a + w * p == (q * k + w) * p;
    DivUnique(a + w * p, p, q * k + w, 0);
  }

  lemma OrIntoPartial(old8: byte, w: nat, k: nat, idx: nat)
    requires idx + k < 8 && old8 % Pow2(idx + k) == 0 && w < Pow2(k)
    ensures Or(old8, w * Pow2(idx)) == old8 + w * Pow2(idx) < 256
    ensures (old8 + w * Pow2(idx)) % Pow2(idx) == 0
    ensures (old8 + w * Pow2(idx)) / Pow2(idx) == old8 / Pow2(idx + k) * Pow2(k) + w
  {
    Pow2Add(k, idx);
    PutBelow(old8, w, Pow2(k), Pow2(idx));
    OrDisjoint(old8, w * Pow2(idx), idx + k);
    Pow2Add(idx + k, 8 - idx - k);
    Pow2Small();
    NextMultiple(old8, w * Pow2(idx), Pow2(idx + k), Pow2(8 - idx - k));
  }

  /** Shifting `w` in below `e`, with `|` or `+`, appends its bits. */
  lemma ShiftIn(e: nat, n: nat, w: nat, k: nat)
    requires e < Pow2(n) && w < Pow2(k)
    ensures Or(ShiftLeft(e, k), w) == ShiftLeft(e, k) + w < Pow2(n + k)
    ensures BitsOf(ShiftLeft(e, k) + w, n + k) == BitsOf(e, n) + BitsOf(w, k)
  {
    hide BitsOf, Or, Pow2;
    Pow2Add(n, k);
    DivUnique(e * Pow2(k), Pow2(k), e, 0);
    OrDisjoint(e * Pow2(k), w, k);
    MulMonotone(e + 1, Pow2(n), Pow2(k));
    BitsOfJoin(e, w, n, k);
  }

  lemma OrIntoFresh(w: nat, k: nat, idx: nat)
    requires idx + k == 8
    ensures (w * Pow2(idx)) % 256 % Pow2(idx) == 0
    ensures (w * Pow2(idx)) % 256 / Pow2(idx) == w % Pow2(k)
  {
    Pow2Add(k, idx);
    Pow2Small();
    ModTimes(w, Pow2(k), Pow2(idx));
    DivUnique((w % Pow2(k)) * Pow2(idx), Pow2(idx), w % Pow2(k), 0);
  }

  lemma BitsOfJoin(q: nat, w: nat, a: nat, k: nat)
    requires w < Pow2(k)
    ensures BitsOf(q * Pow2(k) + w, a + k) == BitsOf(q, a) + BitsOf(w, k)
  {
    var v := q * Pow2(k) + w;
    DivUnique(v, Pow2(k), q, w);
    BitsSplit(v, a, k);
    BitsOfMod(v, k);
  }

  lemma OrIntoPartialBits(old8: byte, w: nat, k: nat, idx: nat)
    requires idx + k < 8 && old8 % Pow2(idx + k) == 0 && w < Pow2(k)
    ensures var new8 := Or(old8, ShiftLeft(w, idx));
      && new8 < 256
      && new8 % Pow2(idx) == 0
      && BitsOf(new8 / Pow2(idx), 8 - idx) == BitsOf(old8 / Pow2(idx + k), 8 - idx - k) + BitsOf(w, k)
  {
    OrIntoPartial(old8, w, k, idx);
    BitsOfJoin(old8 / Pow2(idx + k), w, 8 - idx - k, k);
  }

  /** One step of the byte writer: below the bits already in the byte it puts the `k` bits of
      `val` that lie above its `j` low ones.  The value must fit unless the byte is fresh. */
  lemma OrIntoBits(old8: byte, val: nat, j: nat, k: nat, idx: nat)
    requires 0 < k && idx + k <= 8
    requires old8 % Pow2(idx + k) == 0
    requires idx + k < 8 ==> ShiftRight(val, j) < Pow2(k)
    requires idx + k == 8 ==> old8 == 0
    ensures var new8 := OrInto(old8, val, j, idx);
            && new8 % Pow2(idx) == 0
            && BitsOf(new8 / Pow2(idx), 8 - idx)
               == BitsOf(old8 / Pow2(idx + k), 8 - idx - k) + BitsOf(ShiftRight(val, j), k)
  {
    var w := ShiftRight(val, j);
    if idx + k < 8 {
      OrIntoPartialBits(old8, w, k, idx);
    } else {
      OrIntoFresh(w, k, idx);
      BitsOfMod(w, k);
      assert BitsOf(old8 / Pow2(idx + k), 0) == [];
    }
  }
}

/** Bytes written one after the other into a buffer that is given, as the tags are, and numbers in bytes. */
module Buffers {
  import opened Bits

  // ----- numbers in bytes

  /** CreateI4 */
  function I4(v: nat): (b: seq<byte>)
    ensures |b| == 4
  {
    [v / 0x1000000 % 256, v / 0x10000 % 256, v / 256 % 256, v % 256]
  }

  /** CreateI2 */
  function I2(v: nat): (b: seq<byte>)
    ensures |b| == 2
  {
    [v / 256 % 256, v % 256]
  }

  function Unsigned4(b: seq<byte>, at: nat): nat
    requires at + 4 <= |b|
  {
    0x1000000 * (b[at] as int) + 0x10000 * (b[at + 1] as int) + 256 * (b[at + 2] as int) + b[at + 3] as int
  }

  /** A C int with the bits of `v`. */
  function Int32(v: nat): int {
    var low := v % 0x1_0000_0000;
    if low < 0x8000_0000 then low else low - 0x1_0000_0000
  }

  /** ExtractI4 */
  function ExtractI4(b: seq<byte>, at: nat): int
    requires at + 4 <= |b|
  {
    Int32(Unsigned4(b, at))
  }

  lemma I4Back(v: nat, b: seq<byte>, at: nat)
    requires at + 4 <= |b| && b[at..at + 4] == I4(v)
    ensures Unsigned4(b, at) == v % 0x1_0000_0000
    ensures ExtractI4(b, at) == Int32(v)
    ensures ExtractI4(b, at) == v <==> v < 0x8000_0000
  {
    var s := b[at..at + 4];
    assert s[0] == b[at] && s[1] == b[at + 1] && s[2] == b[at + 2] && s[3] == b[at + 3];
    FourDigits(v);
  }

  lemma FourDigits(v: nat)
    ensures 0x1000000 * (v / 0x1000000 % 256) + 0x10000 * (v / 0x10000 % 256) + 256 * (v / 256 % 256) + v % 256
         == v % 0x1_0000_0000
  {
    assert v / 0x10000 == v / 256 / 256 && v / 0x1000000 == v / 256 / 256 / 256;
  }

  lemma I4Of(b: seq<byte>, at: nat)
    requires at + 4 <= |b|
    ensures I4(Unsigned4(b, at)) == b[at..at + 4]
  {
    var v := Unsigned4(b, at);
    var x, y, z, w := b[at], b[at + 1], b[at + 2], b[at + 3];
    assert v == 256 * (256 * (256 * (x as int) + y as int) + z as int) + w as int;
    assert v / 256 == 256 * (256 * (x as int) + y as int) + z as int;
    assert v / 0x10000 == v / 256 / 256 && v / 0x1000000 == v / 256 / 256 / 256;
  }

  // ----- bytes

  function Zeros(n: nat): (b: seq<byte>)
    ensures |b| == n && forall i :: 0 <= i < n ==> b[i] == 0
  {
    seq(n, i => 0)
  }

  lemma ZerosFrom(n: nat, k: nat)
    requires k <= n
    ensures Zeros(n)[k..] == Zeros(n - k) && Zeros(n)[..k] == Zeros(k)
  {
  }

  lemma InnerSlice(f: seq<byte>, i: nat, j: nat, a: nat, b: nat)
    requires i <= j <= |f| && a <= b <= j - i
    ensures f[i + a..i + b] == f[i..j][a..b]
  {
    var s := f[i..j][a..b];
    assert |s| == b - a && forall k :: 0 <= k < b - a ==> s[k] == f[i + a + k];
  }

  /** memset */
  method Clear(buffer: array<byte>, n: nat)
    requires n <= buffer.Length
    modifies buffer
    ensures buffer[..] == Zeros(n) + old(buffer[n..])
  {
    for i := 0 to n
      invariant buffer[..i] == Zeros(i) && buffer[i..] == old(buffer[i..])
    {
      buffer[i] := 0;
    }
    assert buffer[..] == buffer[..n] + buffer[n..];
  }

  /** A buffer and how far it is filled. */
  class Writer {
    const buffer: array<byte>
    var filled: nat
    /** What the buffer held before anything was written. */
    ghost const blank: seq<byte>
    ghost var written: seq<byte>

    constructor (buffer: array<byte>)
      ensures Valid() && written == [] && this.buffer == buffer && blank == buffer[..]
    {
      this.buffer, filled, blank, written := buffer, 0, buffer[..], [];
    }

    ghost predicate Valid()
      reads this, buffer
    {
      && filled == |written| <= |blank| == buffer.Length
      && buffer[..] == written + blank[|written|..]
    }

    lemma Filled()
      requires Valid()
      ensures filled == |written| <= |blank| == buffer.Length
      ensures buffer[..filled] == written && buffer[filled..] == blank[filled..]
    {
    }

    method Put(x: byte)
      requires Valid() && filled < buffer.Length
      modifies `filled, `written, buffer
      ensures Valid() && written == old(written) + [x]
    {
      buffer[filled] := x;
      filled := filled + 1;
      written := written + [x];
    }

    method PutAll(s: seq<byte>)
      requires Valid() && filled + |s| <= buffer.Length
      modifies `filled, `written, buffer
      ensures Valid() && written == old(written) + s
    {
      for i := 0 to |s|
        invariant Valid() && written == old(written) + s[..i]
      {
        Put(s[i]);
      }
      assert s[..|s|] == s;
    }

    /** Start behind the first `n` bytes. */
    method Skip(n: nat)
      requires Valid() && written == [] && n <= buffer.Length
      modifies `filled, `written
      ensures Valid() && written == blank[..n]
    {
      filled := n;
      written := blank[..n];
    }

    /** CreateI4 */
    method PutI4(v: nat)
      requires Valid() && filled + 4 <= buffer.Length
      modifies `filled, `written, buffer
      ensures Valid() && written == old(written) + I4(v)
    {
      PutAll([v / 0x1000000 % 256, v / 0x10000 % 256, v / 256 % 256, v % 256]);
    }

    /** CreateI2 */
    method PutI2(v: nat)
      requires Valid() && filled + 2 <= buffer.Length
      modifies `filled, `written, buffer
      ensures Valid() && written == old(written) + I2(v)
    {
      PutAll([v / 256 % 256, v % 256]);
    }
  }
}

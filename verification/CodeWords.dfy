/** Coding one symbol: the code words of the tables, and the lookup that reads them back. */
module CodeWords {
  import opened Bits
  import opened Tables
  import opened TableLookup

  /** The tables that have code words: 0 codes nothing, 4 is unused and 14 stands for 16. */
  predicate Usable(t: nat) { t < 34 && t != 0 && t != 4 && t != 14 }

  /** The code words of tables 16 to 23 are the same, and so are those of 24 to 31. */
  function Base(t: nat): nat {
    if 16 <= t < 24 then 16 else if 24 <= t < 32 then 24 else t
  }

  function Cols(t: nat): nat {
    if t > 31 then 4 else if t > 15 then 16 else Xlen(t)
  }

  /** The sign bits a length in the table includes. */
  function Signs(t: nat, x: nat, y: nat): nat {
    if t > 31 then x / 2 + x % 2 + (y / 2 + y % 2)
    else (if x != 0 then 1 else 0) + if y != 0 then 1 else 0
  }

  function WordLen(t: nat, x: nat, y: nat): int { Hlen(t, x, y) - Signs(t, x, y) }

  /** A count1 table keeps room for the sign bits below each word. */
  function CodeWord(t: nat, x: nat, y: nat): nat {
    if t > 31 then Unscale(Word(t, x, y), Signs(t, x, y)) else Word(t, x, y)
  }

  /** `v / 2^n`, for the numbers of sign bits in a quadruple. */
  function Unscale(v: nat, n: nat): nat {
    match n
    case 0 => v
    case 1 => v / 2
    case 2 => v / 4
    case 3 => v / 8
    case _ => v / 16
  }

  /** The length of a table's longest code word. */
  function Window(t: nat): nat {
    match Base(t)
    case 1 => 3
    case 2 => 6
    case 3 => 6
    case 5 => 8
    case 6 => 7
    case 7 => 10
    case 8 => 11
    case 9 => 9
    case 10 => 11
    case 11 => 11
    case 12 => 10
    case 13 => 19
    case 15 => 13
    case 16 => 17
    case 24 => 12
    case 32 => 6
    case 33 => 4
    case _ => 0
  }

  function Lookup(t: nat, v: nat): (nat, nat) {
    match Base(t)
    case 1 => Lookup1(v)
    case 2 => Lookup2(v)
    case 3 => Lookup3(v)
    case 5 => Lookup5(v)
    case 6 => Lookup6(v)
    case 7 => Lookup7(v)
    case 8 => Lookup8(v)
    case 9 => Lookup9(v)
    case 10 => Lookup10(v)
    case 11 => Lookup11(v)
    case 12 => Lookup12(v)
    case 13 => Lookup13(v)
    case 15 => Lookup15(v)
    case 16 => Lookup16(v)
    case 24 => Lookup24(v)
    case 32 => Lookup32(v)
    case 33 => Lookup33(v)
    case _ => (0, 0)
  }

  /** `v * 2^n`, for the shifts that occur here. */
  function Scale(v: nat, n: int): nat {
    match n
    case 0 => v
    case 1 => 2 * v
    case 2 => 4 * v
    case 3 => 8 * v
    case 4 => 16 * v
    case 5 => 32 * v
    case 6 => 64 * v
    case 7 => 128 * v
    case 8 => 256 * v
    case 9 => 512 * v
    case 10 => 1024 * v
    case 11 => 2048 * v
    case 12 => 4096 * v
    case 13 => 8192 * v
    case 14 => 16384 * v
    case 15 => 32768 * v
    case 16 => 65536 * v
    case 17 => 131072 * v
    case 18 => 262144 * v
    case 19 => 524288 * v
    case _ => 0
  }

  lemma ScaleStep(v: nat, n: nat)
    requires n < 20
    ensures n == 0 ==> Scale(v, n) == v && Pow2(n) == 1
    ensures n > 0 ==> Scale(v, n) == 2 * Scale(v, n - 1) && Pow2(n) == 2 * Pow2(n - 1)
  {
  }

  lemma {:induction false} ScaleIsShift(v: nat, n: nat)
    requires n < 20
    ensures Scale(v, n) == ShiftLeft(v, n)
  {
    hide Scale, Pow2;
    if n > 0 {
      ScaleIsShift(v, n - 1);
      ScaleStep(v, n);
      MulTwice(v, Pow2(n - 1));
    } else {
      ScaleStep(v, 0);
    }
  }

  /** A window of `window` bits, of value `v`, begins with the `len` bits of `word`. */
  predicate Begins(window: nat, word: nat, len: int, v: nat) {
    Scale(word, window - len) <= v < Scale(word + 1, window - len)
  }

  /** The word fits its length, and the length the window. */
  predicate Fitting(window: nat, word: nat, len: int) {
    0 < len <= window && word < Scale(1, len)
  }

  lemma Table1(x: nat, y: nat, v: nat)
    requires x < 2 && y < 2
    ensures var word, len := t1HB(x, y), t1l(x, y) - (if x != 0 then 1 else 0) - (if y != 0 then 1 else 0);
      Fitting(3, word, len) && (Begins(3, word, len, v) ==> Lookup1(v) == (x, y))
  {
  }

  lemma Table2(x: nat, y: nat, v: nat)
    requires x < 3 && y < 3
    ensures var word, len := t2HB(x, y), t2l(x, y) - (if x != 0 then 1 else 0) - (if y != 0 then 1 else 0);
      Fitting(6, word, len) && (Begins(6, word, len, v) ==> Lookup2(v) == (x, y))
  {
  }

  lemma Table3(x: nat, y: nat, v: nat)
    requires x < 3 && y < 3
    ensures var word, len := t3HB(x, y), t3l(x, y) - (if x != 0 then 1 else 0) - (if y != 0 then 1 else 0);
      Fitting(6, word, len) && (Begins(6, word, len, v) ==> Lookup3(v) == (x, y))
  {
  }

  lemma Table5(x: nat, y: nat, v: nat)
    requires x < 4 && y < 4
    ensures var word, len := t5HB(x, y), t5l(x, y) - (if x != 0 then 1 else 0) - (if y != 0 then 1 else 0);
      Fitting(8, word, len) && (Begins(8, word, len, v) ==> Lookup5(v) == (x, y))
  {
  }

  lemma Table6(x: nat, y: nat, v: nat)
    requires x < 4 && y < 4
    ensures var word, len := t6HB(x, y), t6l(x, y) - (if x != 0 then 1 else 0) - (if y != 0 then 1 else 0);
      Fitting(7, word, len) && (Begins(7, word, len, v) ==> Lookup6(v) == (x, y))
  {
  }

  lemma Table7(x: nat, y: nat, v: nat)
    requires x < 6 && y < 6
    ensures var word, len := t7HB(x, y), t7l(x, y) - (if x != 0 then 1 else 0) - (if y != 0 then 1 else 0);
      Fitting(10, word, len) && (Begins(10, word, len, v) ==> Lookup7(v) == (x, y))
  {
  }

  lemma Table8(x: nat, y: nat, v: nat)
    requires x < 6 && y < 6
    ensures var word, len := t8HB(x, y), t8l(x, y) - (if x != 0 then 1 else 0) - (if y != 0 then 1 else 0);
      Fitting(11, word, len) && (Begins(11, word, len, v) ==> Lookup8(v) == (x, y))
  {
  }

  lemma Table9(x: nat, y: nat, v: nat)
    requires x < 6 && y < 6
    ensures var word, len := t9HB(x, y), t9l(x, y) - (if x != 0 then 1 else 0) - (if y != 0 then 1 else 0);
      Fitting(9, word, len) && (Begins(9, word, len, v) ==> Lookup9(v) == (x, y))
  {
  }

  lemma Table10(x: nat, y: nat, v: nat)
    requires x < 8 && y < 8
    ensures var word, len := t10HB(x, y), t10l(x, y) - (if x != 0 then 1 else 0) - (if y != 0 then 1 else 0);
      Fitting(11, word, len) && (Begins(11, word, len, v) ==> Lookup10(v) == (x, y))
  {
  }

  lemma Table11(x: nat, y: nat, v: nat)
    requires x < 8 && y < 8
    ensures var word, len := t11HB(x, y), t11l(x, y) - (if x != 0 then 1 else 0) - (if y != 0 then 1 else 0);
      Fitting(11, word, len) && (Begins(11, word, len, v) ==> Lookup11(v) == (x, y))
  {
  }

  lemma Table12(x: nat, y: nat, v: nat)
    requires x < 8 && y < 8
    ensures var word, len := t12HB(x, y), t12l(x, y) - (if x != 0 then 1 else 0) - (if y != 0 then 1 else 0);
      Fitting(10, word, len) && (Begins(10, word, len, v) ==> Lookup12(v) == (x, y))
  {
  }

  lemma Table13Rows0(x: nat, y: nat, v: nat)
    requires x < 16 && y < 16 && 0 <= x < 4
    ensures var word, len := t13HB(x, y), t13l(x, y) - (if x != 0 then 1 else 0) - (if y != 0 then 1 else 0);
      Fitting(19, word, len) && (Begins(19, word, len, v) ==> Lookup13(v) == (x, y))
  {
  }

  lemma Table13Rows4(x: nat, y: nat, v: nat)
    requires x < 16 && y < 16 && 4 <= x < 8
    ensures var word, len := t13HB(x, y), t13l(x, y) - (if x != 0 then 1 else 0) - (if y != 0 then 1 else 0);
      Fitting(19, word, len) && (Begins(19, word, len, v) ==> Lookup13(v) == (x, y))
  {
  }

  lemma Table13Rows8(x: nat, y: nat, v: nat)
    requires x < 16 && y < 16 && 8 <= x < 12
    ensures var word, len := t13HB(x, y), t13l(x, y) - (if x != 0 then 1 else 0) - (if y != 0 then 1 else 0);
      Fitting(19, word, len) && (Begins(19, word, len, v) ==> Lookup13(v) == (x, y))
  {
  }

  lemma Table13Rows12(x: nat, y: nat, v: nat)
    requires x < 16 && y < 16 && 12 <= x < 16
    ensures var word, len := t13HB(x, y), t13l(x, y) - (if x != 0 then 1 else 0) - (if y != 0 then 1 else 0);
      Fitting(19, word, len) && (Begins(19, word, len, v) ==> Lookup13(v) == (x, y))
  {
  }

  lemma Table15Rows0(x: nat, y: nat, v: nat)
    requires x < 16 && y < 16 && 0 <= x < 4
    ensures var word, len := t15HB(x, y), t15l(x, y) - (if x != 0 then 1 else 0) - (if y != 0 then 1 else 0);
      Fitting(13, word, len) && (Begins(13, word, len, v) ==> Lookup15(v) == (x, y))
  {
  }

  lemma Table15Rows4(x: nat, y: nat, v: nat)
    requires x < 16 && y < 16 && 4 <= x < 8
    ensures var word, len := t15HB(x, y), t15l(x, y) - (if x != 0 then 1 else 0) - (if y != 0 then 1 else 0);
      Fitting(13, word, len) && (Begins(13, word, len, v) ==> Lookup15(v) == (x, y))
  {
  }

  lemma Table15Rows8(x: nat, y: nat, v: nat)
    requires x < 16 && y < 16 && 8 <= x < 12
    ensures var word, len := t15HB(x, y), t15l(x, y) - (if x != 0 then 1 else 0) - (if y != 0 then 1 else 0);
      Fitting(13, word, len) && (Begins(13, word, len, v) ==> Lookup15(v) == (x, y))
  {
  }

  lemma Table15Rows12(x: nat, y: nat, v: nat)
    requires x < 16 && y < 16 && 12 <= x < 16
    ensures var word, len := t15HB(x, y), t15l(x, y) - (if x != 0 then 1 else 0) - (if y != 0 then 1 else 0);
      Fitting(13, word, len) && (Begins(13, word, len, v) ==> Lookup15(v) == (x, y))
  {
  }

  lemma Table16Rows0(x: nat, y: nat, v: nat)
    requires x < 16 && y < 16 && 0 <= x < 4
    ensures var word, len := t16HB(x, y), t16l(x, y) - (if x != 0 then 1 else 0) - (if y != 0 then 1 else 0);
      Fitting(17, word, len) && (Begins(17, word, len, v) ==> Lookup16(v) == (x, y))
  {
  }

  lemma Table16Rows4(x: nat, y: nat, v: nat)
    requires x < 16 && y < 16 && 4 <= x < 8
    ensures var word, len := t16HB(x, y), t16l(x, y) - (if x != 0 then 1 else 0) - (if y != 0 then 1 else 0);
      Fitting(17, word, len) && (Begins(17, word, len, v) ==> Lookup16(v) == (x, y))
  {
  }

  lemma Table16Rows8(x: nat, y: nat, v: nat)
    requires x < 16 && y < 16 && 8 <= x < 12
    ensures var word, len := t16HB(x, y), t16l(x, y) - (if x != 0 then 1 else 0) - (if y != 0 then 1 else 0);
      Fitting(17, word, len) && (Begins(17, word, len, v) ==> Lookup16(v) == (x, y))
  {
  }

  lemma Table16Rows12(x: nat, y: nat, v: nat)
    requires x < 16 && y < 16 && 12 <= x < 16
    ensures var word, len := t16HB(x, y), t16l(x, y) - (if x != 0 then 1 else 0) - (if y != 0 then 1 else 0);
      Fitting(17, word, len) && (Begins(17, word, len, v) ==> Lookup16(v) == (x, y))
  {
  }

  lemma Table24Rows0(x: nat, y: nat, v: nat)
    requires x < 16 && y < 16 && 0 <= x < 4
    ensures var word, len := t24HB(x, y), t24l(x, y) - (if x != 0 then 1 else 0) - (if y != 0 then 1 else 0);
      Fitting(12, word, len) && (Begins(12, word, len, v) ==> Lookup24(v) == (x, y))
  {
  }

  lemma Table24Rows4(x: nat, y: nat, v: nat)
    requires x < 16 && y < 16 && 4 <= x < 8
    ensures var word, len := t24HB(x, y), t24l(x, y) - (if x != 0 then 1 else 0) - (if y != 0 then 1 else 0);
      Fitting(12, word, len) && (Begins(12, word, len, v) ==> Lookup24(v) == (x, y))
  {
  }

  lemma Table24Rows8(x: nat, y: nat, v: nat)
    requires x < 16 && y < 16 && 8 <= x < 12
    ensures var word, len := t24HB(x, y), t24l(x, y) - (if x != 0 then 1 else 0) - (if y != 0 then 1 else 0);
      Fitting(12, word, len) && (Begins(12, word, len, v) ==> Lookup24(v) == (x, y))
  {
  }

  lemma Table24Rows12(x: nat, y: nat, v: nat)
    requires x < 16 && y < 16 && 12 <= x < 16
    ensures var word, len := t24HB(x, y), t24l(x, y) - (if x != 0 then 1 else 0) - (if y != 0 then 1 else 0);
      Fitting(12, word, len) && (Begins(12, word, len, v) ==> Lookup24(v) == (x, y))
  {
  }

  lemma Table32(x: nat, y: nat, v: nat)
    requires x < 4 && y < 4
    ensures var word, len := CodeWord(32, x, y), WordLen(32, x, y);
      Fitting(6, word, len) && (Begins(6, word, len, v) ==> Lookup32(v) == (x, y))
  {
  }

  lemma Table33(x: nat, y: nat, v: nat)
    requires x < 4 && y < 4
    ensures var word, len := CodeWord(33, x, y), WordLen(33, x, y);
      Fitting(4, word, len) && (Begins(4, word, len, v) ==> Lookup33(v) == (x, y))
  {
  }

  lemma LookupSmall(t: nat, x: nat, y: nat, v: nat)
    requires Usable(t) && t < 7 && x < Cols(t) && y < Cols(t)
    ensures Window(t) < 20 && Fitting(Window(t), CodeWord(t, x, y), WordLen(t, x, y))
    ensures Begins(Window(t), CodeWord(t, x, y), WordLen(t, x, y), v) ==> Lookup(t, v) == (x, y)
  {
    hide Fitting, Begins, Unscale, t1HB, t1l, Lookup1, t2HB, t2l, Lookup2, t3HB, t3l, Lookup3, t5HB, t5l, Lookup5;
    hide t6HB, t6l, Lookup6;
    match Base(t)
    case 1 => Table1(x, y, v);
    case 2 => Table2(x, y, v);
    case 3 => Table3(x, y, v);
    case 5 => Table5(x, y, v);
    case 6 => Table6(x, y, v);
    case _ =>
  }

  lemma LookupSix(t: nat, x: nat, y: nat, v: nat)
    requires Usable(t) && 7 <= t < 10 && x < Cols(t) && y < Cols(t)
    ensures Window(t) < 20 && Fitting(Window(t), CodeWord(t, x, y), WordLen(t, x, y))
    ensures Begins(Window(t), CodeWord(t, x, y), WordLen(t, x, y), v) ==> Lookup(t, v) == (x, y)
  {
    hide Fitting, Begins, Unscale, t7HB, t7l, Lookup7, t8HB, t8l, Lookup8, t9HB, t9l, Lookup9;
    match Base(t)
    case 7 => Table7(x, y, v);
    case 8 => Table8(x, y, v);
    case 9 => Table9(x, y, v);
    case _ =>
  }

  lemma LookupMiddle(t: nat, x: nat, y: nat, v: nat)
    requires Usable(t) && 10 <= t < 16 && x < Cols(t) && y < Cols(t)
    ensures Window(t) < 20 && Fitting(Window(t), CodeWord(t, x, y), WordLen(t, x, y))
    ensures Begins(Window(t), CodeWord(t, x, y), WordLen(t, x, y), v) ==> Lookup(t, v) == (x, y)
  {
    hide Fitting, Begins, Unscale, t10HB, t10l, Lookup10, t11HB, t11l, Lookup11, t12HB, t12l, Lookup12, t13HB, t13l;
    hide Lookup13, t15HB, t15l, Lookup15;
    match Base(t)
    case 10 => Table10(x, y, v);
    case 11 => Table11(x, y, v);
    case 12 => Table12(x, y, v);
    case 13 =>
      if x < 4 { Table13Rows0(x, y, v); } else if x < 8 { Table13Rows4(x, y, v); }
      else if x < 12 { Table13Rows8(x, y, v); } else { Table13Rows12(x, y, v); }
    case 15 =>
      if x < 4 { Table15Rows0(x, y, v); } else if x < 8 { Table15Rows4(x, y, v); }
      else if x < 12 { Table15Rows8(x, y, v); } else { Table15Rows12(x, y, v); }
    case _ =>
  }

  lemma LookupEscape(t: nat, x: nat, y: nat, v: nat)
    requires Usable(t) && 16 <= t < 32 && x < Cols(t) && y < Cols(t)
    ensures Window(t) < 20 && Fitting(Window(t), CodeWord(t, x, y), WordLen(t, x, y))
    ensures Begins(Window(t), CodeWord(t, x, y), WordLen(t, x, y), v) ==> Lookup(t, v) == (x, y)
  {
    hide Fitting, Begins, Unscale, t16HB, t16l, Lookup16, t24HB, t24l, Lookup24;
    match Base(t)
    case 16 =>
      if x < 4 { Table16Rows0(x, y, v); } else if x < 8 { Table16Rows4(x, y, v); }
      else if x < 12 { Table16Rows8(x, y, v); } else { Table16Rows12(x, y, v); }
    case 24 =>
      if x < 4 { Table24Rows0(x, y, v); } else if x < 8 { Table24Rows4(x, y, v); }
      else if x < 12 { Table24Rows8(x, y, v); } else { Table24Rows12(x, y, v); }
    case _ =>
  }

  lemma LookupCount1(t: nat, x: nat, y: nat, v: nat)
    requires Usable(t) && 32 <= t && x < Cols(t) && y < Cols(t)
    ensures Window(t) < 20 && Fitting(Window(t), CodeWord(t, x, y), WordLen(t, x, y))
    ensures Begins(Window(t), CodeWord(t, x, y), WordLen(t, x, y), v) ==> Lookup(t, v) == (x, y)
  {
    hide Fitting, Begins, Unscale, t32HB, t32l, Lookup32, t33HB, t33l, Lookup33;
    match Base(t)
    case 32 => Table32(x, y, v);
    case 33 => Table33(x, y, v);
    case _ =>
  }

  /** A count1 entry is its code word with zeros in the place of the signs. */
  lemma CountEntry(t: nat, x: nat, y: nat)
    requires 32 <= t < 34 && x < 4 && y < 4
    ensures Word(t, x, y) == Scale(CodeWord(t, x, y), Signs(t, x, y)) && Signs(t, x, y) <= 4
    ensures 0 < WordLen(t, x, y) <= 6 && CodeWord(t, x, y) < Scale(1, WordLen(t, x, y))
  {
  }

  /** Every code word of every table fits its length, and a window that begins with it is looked up to its
      symbol: so no code word is a prefix of another. */
  lemma LookupFinds(t: nat, x: nat, y: nat, v: nat)
    requires Usable(t) && x < Cols(t) && y < Cols(t)
    ensures Window(t) < 20 && Fitting(Window(t), CodeWord(t, x, y), WordLen(t, x, y))
    ensures Begins(Window(t), CodeWord(t, x, y), WordLen(t, x, y), v) ==> Lookup(t, v) == (x, y)
  {
    hide Fitting, Begins, CodeWord, WordLen, Lookup, Window, Cols;
    if t < 7 { LookupSmall(t, x, y, v); }
    else if t < 10 { LookupSix(t, x, y, v); }
    else if t < 16 { LookupMiddle(t, x, y, v); }
    else if t < 32 { LookupEscape(t, x, y, v); }
    else { LookupCount1(t, x, y, v); }
  }
}

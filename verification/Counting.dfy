/** The cost model of takehiro.c: what coding a region with a table costs, and the choice of a table.  The costs
    are the lengths of what the formatter writes. */
module Counting {
  import opened Bits
  import opened Tables
  import opened CodeWords
  import opened Huffman
  import opened Granule

  const IXMAX_VAL := 8206
  const LARGE_BITS := 100000

  // ----- costs

  function EscapeCost(t: nat, x: nat): nat { if t > 15 && x > 14 then Xlen(t) else 0 }

  /** The bits of a pair; lengths in the tables include the signs. */
  function PairCost(t: nat, x: nat, y: nat): nat {
    Hlen(t, Clip(t, x), Clip(t, y)) + EscapeCost(t, x) + EscapeCost(t, y)
  }

  /** The bits of `n` pairs from `from` on. */
  function RegionCost(t: nat, ix: seq<nat>, from: nat, n: nat): nat
    requires from + 2 * n <= |ix|
  {
    if t == 0 || n == 0 then 0
    else RegionCost(t, ix, from, n - 1) + PairCost(t, ix[from + 2 * (n - 1)], ix[from + 2 * (n - 1) + 1])
  }

  lemma PairBitsCost(t: nat, x: nat, nx: bool, y: nat, ny: bool)
    requires Usable(t) && t < 32 && Codable(t, x) && Codable(t, y)
    ensures |PairBits(t, x, nx, y, ny)| == PairCost(t, x, y)
  {
    hide Codable, CodeBits, Cols, Hlen, Xlen, BitsOf, DecodeWord;
    ClipInside(t, x);
    ClipInside(t, y);
    DecodeWordBack(t, Clip(t, x), Clip(t, y), []);
  }

  /** What a region costs is what will be written for it, whatever the signs. */
  lemma {:induction false} RegionBitsCost(t: nat, ix: seq<nat>, neg: seq<bool>, from: nat, n: nat)
    requires from + 2 * n <= |ix| == |neg| && RegionCodable(t, ix, from, from + 2 * n)
    ensures |RegionBits(t, ix, neg, from, n)| == RegionCost(t, ix, from, n)
  {
    hide PairBits, PairCost, Codable, Usable;
    if t != 0 && n > 0 {
      RegionBitsCost(t, ix, neg, from, n - 1);
      var i := from + 2 * (n - 1);
      assert Codable(t, ix[i]) && Codable(t, ix[i + 1]);
      PairBitsCost(t, ix[i], neg[i], ix[i + 1], neg[i + 1]);
    }
  }

  // ----- the tables that are counted two at a time

  lemma LargeRows0(x: nat, y: nat)
    requires x < 4 && y < 16
    ensures largetbl(x, y) == 65536 * t16l(x, y) + t24l(x, y) && t16l(x, y) < 32 && t24l(x, y) < 32
  {
  }

  lemma LargeRows4(x: nat, y: nat)
    requires 4 <= x < 8 && y < 16
    ensures largetbl(x, y) == 65536 * t16l(x, y) + t24l(x, y) && t16l(x, y) < 32 && t24l(x, y) < 32
  {
  }

  lemma LargeRows8(x: nat, y: nat)
    requires 8 <= x < 12 && y < 16
    ensures largetbl(x, y) == 65536 * t16l(x, y) + t24l(x, y) && t16l(x, y) < 32 && t24l(x, y) < 32
  {
  }

  lemma LargeRows12(x: nat, y: nat)
    requires 12 <= x < 16 && y < 16
    ensures largetbl(x, y) == 65536 * t16l(x, y) + t24l(x, y) && t16l(x, y) < 32 && t24l(x, y) < 32
  {
  }

  /** largetbl packs the lengths of tables 16 and 24 into one word. */
  lemma LargePacks(x: nat, y: nat)
    requires x < 16 && y < 16
    ensures largetbl(x, y) == 65536 * t16l(x, y) + t24l(x, y) && t16l(x, y) < 32 && t24l(x, y) < 32
  {
    hide largetbl, t16l, t24l;
    if x < 4 { LargeRows0(x, y); } else if x < 8 { LargeRows4(x, y); }
    else if x < 12 { LargeRows8(x, y); } else { LargeRows12(x, y); }
  }

  lemma SmallPacks(x: nat, y: nat)
    ensures x < 3 && y < 3 ==> table23(x, y) == 65536 * t2l(x, y) + t3l(x, y) && t2l(x, y) < 32 && t3l(x, y) < 32
    ensures x < 4 && y < 4 ==> table56(x, y) == 65536 * t5l(x, y) + t6l(x, y) && t5l(x, y) < 32 && t6l(x, y) < 32
  {
  }

  /** The lengths of pseudo-table 14 are those of table 16 with one more bit for each escape. */
  lemma Pseudo14(x: nat, y: nat)
    requires x < 16 && y < 16
    ensures PairCost(16, x, y) == t16_5l(x, y)
  {
    assert t16_5l(x, y) == t16l(x, y) + (if x == 15 then 1 else 0) + if y == 15 then 1 else 0;
  }

  // ----- count_bit_*

  lemma CostStep(t: nat, ix: seq<nat>, from: nat, n: nat)
    requires from + 2 * n + 2 <= |ix| && t != 0
    ensures RegionCost(t, ix, from, 0) == 0
    ensures RegionCost(t, ix, from, n + 1) == RegionCost(t, ix, from, n)
        + PairCost(t, ix[from + 2 * n], ix[from + 2 * n + 1])
  {
    hide PairCost;
  }

  /** One pair in both lanes of the word that count_bit_ESC adds up. */
  lemma EscapeLanes(t1: nat, t2: nat, x: nat, y: nat)
    requires 16 <= t1 < 24 <= t2 < 32
    ensures var cx, cy := Clip(16, x), Clip(16, y);
      && cx < 16 && cy < 16
      && largetbl(cx, cy) + (65536 * Xlen(t1) + Xlen(t2)) * ((if x > 14 then 1 else 0) + (if y > 14 then 1 else 0))
         == 65536 * PairCost(t1, x, y) + PairCost(t2, x, y)
    ensures PairCost(t1, x, y) <= 64 && PairCost(t2, x, y) <= 64
  {
    hide largetbl, t16l, t24l;
    LargePacks(Clip(16, x), Clip(16, y));
  }

  /** The two lanes apart again. */
  lemma Unpack(a: nat, b: nat, n: nat)
    requires n <= 288 && b <= 64 * n
    ensures (65536 * a + b) % 65536 == b && (65536 * a + b) / 65536 == a
  {
  }

  method CountBitEsc(ix: seq<nat>, from: nat, end: nat, t1: nat, t2: nat, s: int) returns (t: nat, s': int)
    requires from < end <= |ix| && (end - from) % 2 == 0 && end - from <= 576
    requires 16 <= t1 < 24 <= t2 < 32
    ensures t == t1 || t == t2
    ensures s' == s + RegionCost(t, ix, from, (end - from) / 2)
    ensures RegionCost(t, ix, from, (end - from) / 2) <= RegionCost(t1, ix, from, (end - from) / 2)
    ensures RegionCost(t, ix, from, (end - from) / 2) <= RegionCost(t2, ix, from, (end - from) / 2)
  {
    hide PairCost, largetbl, Xlen, RegionCost;
    var linbits := Xlen(t1) * 65536 + Xlen(t2);
    var sum: int := 0;
    var i := from;
    ghost var n := 0;
    CostStep(t1, ix, from, 0);
    CostStep(t2, ix, from, 0);
    while i < end
      invariant i == from + 2 * n <= end
      invariant sum == 65536 * RegionCost(t1, ix, from, n) + RegionCost(t2, ix, from, n)
      invariant RegionCost(t1, ix, from, n) <= 64 * n && RegionCost(t2, ix, from, n) <= 64 * n
    {
      var x, y := ix[i], ix[i + 1];
      EscapeLanes(t1, t2, x, y);
      CostStep(t1, ix, from, n);
      CostStep(t2, ix, from, n);
      i := i + 2;
      n := n + 1;
      if x > 14 {
        x := 15;
        sum := sum + linbits;
      }
      if y > 14 {
        y := 15;
        sum := sum + linbits;
      }
      sum := sum + largetbl(x, y);
    }
    Unpack(RegionCost(t1, ix, from, n), RegionCost(t2, ix, from, n), n);
    var sum2 := sum % 65536;
    sum := sum / 65536;
    t := t1;
    if sum > sum2 {
      sum := sum2;
      t := t2;
    }
    s' := s + sum;
  }

  method CountBitNoEsc(ix: seq<nat>, from: nat, end: nat, s: int) returns (t: nat, s': int)
    requires from < end <= |ix| && (end - from) % 2 == 0
    requires forall i | from <= i < end :: ix[i] <= 1
    ensures t == 1 && s' == s + RegionCost(1, ix, from, (end - from) / 2)
  {
    hide t1l;
    var sum1 := 0;
    var i := from;
    ghost var n := 0;
    while i < end
      invariant i == from + 2 * n <= end && sum1 == RegionCost(1, ix, from, n)
    {
      sum1 := sum1 + Hlen(1, ix[i], ix[i + 1]);
      i := i + 2;
      n := n + 1;
    }
    return 1, s + sum1;
  }

  /** One pair in both lanes of the word that count_bit_noESC_from2 adds up. */
  lemma SmallLanes(t1: nat, x: nat, y: nat)
    requires (t1 == 2 && x < 3 && y < 3) || (t1 == 5 && x < 4 && y < 4)
    ensures (if t1 == 2 then table23(x, y) else table56(x, y)) == 65536 * PairCost(t1, x, y) + PairCost(t1 + 1, x, y)
    ensures PairCost(t1, x, y) <= 64 && PairCost(t1 + 1, x, y) <= 64
  {
    hide table23, table56, t2l, t3l, t5l, t6l;
    SmallPacks(x, y);
  }

  method CountBitNoEscFrom2(ix: seq<nat>, from: nat, end: nat, t1: nat, s: int) returns (t: nat, s': int)
    requires from < end <= |ix| && (end - from) % 2 == 0 && end - from <= 576
    requires t1 == 2 || t1 == 5
    requires forall i | from <= i < end :: ix[i] < if t1 == 2 then 3 else 4
    ensures t == t1 || t == t1 + 1
    ensures s' == s + RegionCost(t, ix, from, (end - from) / 2)
    ensures RegionCost(t, ix, from, (end - from) / 2) <= RegionCost(t1, ix, from, (end - from) / 2)
    ensures RegionCost(t, ix, from, (end - from) / 2) <= RegionCost(t1 + 1, ix, from, (end - from) / 2)
  {
    hide PairCost, table23, table56, RegionCost;
    var sum: int := 0;
    var i := from;
    ghost var n := 0;
    CostStep(t1, ix, from, 0);
    CostStep(t1 + 1, ix, from, 0);
    while i < end
      invariant i == from + 2 * n <= end
      invariant sum == 65536 * RegionCost(t1, ix, from, n) + RegionCost(t1 + 1, ix, from, n)
      invariant RegionCost(t1, ix, from, n) <= 64 * n && RegionCost(t1 + 1, ix, from, n) <= 64 * n
    {
      SmallLanes(t1, ix[i], ix[i + 1]);
      CostStep(t1, ix, from, n);
      CostStep(t1 + 1, ix, from, n);
      sum := sum + if t1 == 2 then table23(ix[i], ix[i + 1]) else table56(ix[i], ix[i + 1]);
      i := i + 2;
      n := n + 1;
    }
    Unpack(RegionCost(t1, ix, from, n), RegionCost(t1 + 1, ix, from, n), n);
    var sum2 := sum % 65536;
    sum := sum / 65536;
    t := t1;
    if sum > sum2 {
      sum := sum2;
      t := t + 1;
    }
    s' := s + sum;
  }

  method CountBitNoEscFrom3(ix: seq<nat>, from: nat, end: nat, t1: nat, s: int) returns (t: nat, s': int)
    requires from < end <= |ix| && (end - from) % 2 == 0
    requires t1 == 7 || t1 == 10 || t1 == 13
    requires forall i | from <= i < end :: ix[i] < Xlen(t1)
    ensures t1 <= t <= t1 + 2
    ensures s' == s + RegionCost(t, ix, from, (end - from) / 2)
    ensures RegionCost(t, ix, from, (end - from) / 2) <= RegionCost(t1, ix, from, (end - from) / 2)
    ensures RegionCost(t, ix, from, (end - from) / 2) <= RegionCost(t1 + 1, ix, from, (end - from) / 2)
    ensures RegionCost(t, ix, from, (end - from) / 2) <= RegionCost(t1 + 2, ix, from, (end - from) / 2)
  {
    hide Hlen, RegionCost;
    var sum1, sum2, sum3 := 0, 0, 0;
    var i := from;
    ghost var n := 0;
    CostStep(t1, ix, from, 0);
    CostStep(t1 + 1, ix, from, 0);
    CostStep(t1 + 2, ix, from, 0);
    while i < end
      invariant i == from + 2 * n <= end
      invariant sum1 == RegionCost(t1, ix, from, n)
      invariant sum2 == RegionCost(t1 + 1, ix, from, n)
      invariant sum3 == RegionCost(t1 + 2, ix, from, n)
    {
      CostStep(t1, ix, from, n);
      CostStep(t1 + 1, ix, from, n);
      CostStep(t1 + 2, ix, from, n);
      sum1 := sum1 + Hlen(t1, ix[i], ix[i + 1]);
      sum2 := sum2 + Hlen(t1 + 1, ix[i], ix[i + 1]);
      sum3 := sum3 + Hlen(t1 + 2, ix[i], ix[i + 1]);
      i := i + 2;
      n := n + 1;
    }
    t := t1;
    if sum1 > sum2 {
      sum1 := sum2;
      t := t + 1;
    }
    if sum1 > sum3 {
      sum1 := sum3;
      t := t1 + 2;
    }
    s' := s + sum1;
  }

  // ----- choose_table

  /** What a region costs with table `t`, or with the table written in its place. */
  function WrittenCost(t: nat, ix: seq<nat>, from: nat, end: nat): nat
    requires from <= end <= |ix|
  {
    RegionCost(Renamed(t), ix, from, (end - from) / 2)
  }

  /** The table that is written for `t` codes the region. */
  predicate Suits(t: nat, ix: seq<nat>, from: nat, end: nat)
    requires from <= end <= |ix|
  {
    RegionCodable(Renamed(t), ix, from, end)
  }

  /** huf_tbl_noESC */
  function FirstTable(max: nat): nat {
    match max
    case 1 => 1
    case 2 => 2
    case 3 => 5
    case 4 => 7
    case 5 => 7
    case 6 => 10
    case 7 => 10
    case _ => 13
  }

  /** The tables tried for a region whose largest value is `max`: those of the size it needs, or in each family
      of escape tables the one with the fewest escape bits that are enough. */
  predicate Candidate(t: nat, max: nat) {
    if max == 0 then t == 0
    else if max == 1 then t == 1
    else if max <= 3 then FirstTable(max) <= t <= FirstTable(max) + 1
    else if max <= 15 then FirstTable(max) <= t <= FirstTable(max) + 2
    else 16 <= t < 32 && Linmax(t) >= max - 15 && (t != 16 && t != 24 ==> Linmax(t - 1) < max - 15)
  }

  predicate IsMax(max: nat, ix: seq<nat>, from: nat, end: nat)
    requires from <= end <= |ix|
  {
    (forall i | from <= i < end :: ix[i] <= max) && exists i | from <= i < end :: ix[i] == max
  }

  lemma {:induction false} Region14(ix: seq<nat>, from: nat, n: nat)
    requires from + 2 * n <= |ix| && forall i | from <= i < from + 2 * n :: ix[i] <= 15
    ensures RegionCost(14, ix, from, n) == RegionCost(16, ix, from, n)
  {
    hide Hlen, t16_5l;
    if n > 0 {
      Region14(ix, from, n - 1);
      var i := from + 2 * (n - 1);
      Same14(ix[i], ix[i + 1]);
    }
  }

  lemma Same14(x: nat, y: nat)
    requires x <= 15 && y <= 15
    ensures PairCost(14, x, y) == PairCost(16, x, y)
  {
    hide t16_5l, t16l;
    Pseudo14(x, y);
  }

  /** ix_max */
  method IxMax(ix: seq<nat>, from: nat, end: nat) returns (max: nat)
    requires from < end <= |ix| && (end - from) % 2 == 0
    ensures IsMax(max, ix, from, end)
  {
    var max1, max2: nat := 0, 0;
    var i := from;
    ghost var n := 0;
    while i < end
      invariant i == from + 2 * n <= end
      invariant forall k | from <= k < i :: ix[k] <= max1 || ix[k] <= max2
      invariant i > from ==> (exists k | from <= k < i :: ix[k] == max1) && exists k | from <= k < i :: ix[k] == max2
      invariant i == from ==> max1 == max2 == 0
    {
      ghost var a, b := max1, max2;
      var x1, x2 := ix[i], ix[i + 1];
      if max1 < x1 { max1 := x1; }
      if max2 < x2 { max2 := x2; }
      assert ix[i] == x1 && ix[i + 1] == x2;
      i := i + 2;
      n := n + 1;
    }
    if max1 < max2 { max1 := max2; }
    max := max1;
  }

  lemma CandidateSuits(t: nat, max: nat, ix: seq<nat>, from: nat, end: nat)
    requires from <= end <= |ix| && IsMax(max, ix, from, end) && max <= IXMAX_VAL && Candidate(t, max)
    ensures Suits(t, ix, from, end)
  {
  }

  /** The two escape tables for values up to `max`. */
  method EscapeTables(max: nat) returns (choice: nat, choice2: nat)
    requires 15 < max <= IXMAX_VAL
    ensures 16 <= choice < 24 <= choice2 < 32 && Candidate(choice, max) && Candidate(choice2, max)
    ensures forall t | Candidate(t, max) :: t == choice || t == choice2
  {
    var m := max - 15;
    choice2 := 24;
    while choice2 < 32 && Linmax(choice2) < m
      invariant 24 <= choice2 <= 31
      invariant choice2 > 24 ==> Linmax(choice2 - 1) < m
    {
      choice2 := choice2 + 1;
    }
    choice := choice2 - 8;
    while choice < 24 && Linmax(choice) < m
      invariant choice2 - 8 <= choice <= 23
      invariant choice > 16 ==> Linmax(choice - 1) < m
    {
      choice := choice + 1;
    }
  }

  // ----- the cheapest of the candidates and the cheapest of all

  /** The cheapest candidate. */
  ghost predicate Chosen(t: nat, max: nat, ix: seq<nat>, from: nat, end: nat)
    requires from <= end <= |ix|
  {
    Candidate(t, max) && forall u | Candidate(u, max) :: WrittenCost(t, ix, from, end) <= WrittenCost(u, ix, from, end)
  }

  /** A table that is tried for the region; what an empty one is coded with does not matter. */
  ghost predicate CandidateOf(t: nat, ix: seq<nat>, from: nat, end: nat)
    requires from <= end <= |ix|
  {
    from == end || exists max: nat :: IsMax(max, ix, from, end) && Candidate(t, max)
  }

  /** No table that suits the region codes it in fewer bits. */
  ghost predicate Fewest(t: nat, ix: seq<nat>, from: nat, end: nat)
    requires from <= end <= |ix|
  {
    forall u: nat | u < 32 && Suits(u, ix, from, end) :: WrittenCost(t, ix, from, end) <= WrittenCost(u, ix, from, end)
  }

  predicate SameFamily(t: nat, u: nat) { (16 <= t < 24 && 16 <= u < 24) || (24 <= t < 32 && 24 <= u < 32) }

  lemma FamilyOrder(t: nat, u: nat)
    requires SameFamily(t, u) && t <= u
    ensures Xlen(t) <= Xlen(u) && Linmax(t) <= Linmax(u)
  {
  }

  lemma FamilyPair(t: nat, u: nat, x: nat, y: nat)
    requires SameFamily(t, u) && t <= u
    ensures PairCost(t, x, y) <= PairCost(u, x, y)
  {
    hide t16l, t24l, Xlen, Linmax;
    FamilyOrder(t, u);
  }

  /** With the same code words, fewer escape bits are never dearer. */
  lemma {:induction false} FamilyCost(t: nat, u: nat, ix: seq<nat>, from: nat, n: nat)
    requires SameFamily(t, u) && t <= u && from + 2 * n <= |ix|
    ensures RegionCost(t, ix, from, n) <= RegionCost(u, ix, from, n)
  {
    hide PairCost;
    if n > 0 {
      FamilyCost(t, u, ix, from, n - 1);
      FamilyPair(t, u, ix[from + 2 * (n - 1)], ix[from + 2 * (n - 1) + 1]);
    }
  }

  /** The candidate with the code words of `u`. */
  lemma {:induction false} FamilyCandidate(u: nat, max: nat) returns (c: nat)
    requires 16 <= u < 32 && 15 < max && Linmax(u) >= max - 15
    ensures SameFamily(c, u) && c <= u && Candidate(c, max)
  {
    hide Linmax;
    if u == 16 || u == 24 || Linmax(u - 1) < max - 15 {
      c := u;
    } else {
      c := FamilyCandidate(u - 1, max);
    }
  }

  lemma OnlyEscapes(u: nat, max: nat, ix: seq<nat>, from: nat, end: nat)
    requires from <= end <= |ix| && IsMax(max, ix, from, end) && 15 < max && u < 32 && Suits(u, ix, from, end)
    ensures 16 <= Renamed(u) < 32 && Linmax(Renamed(u)) >= max - 15
  {
    var i :| from <= i < end && ix[i] == max;
    assert Renamed(u) != 0 && Codable(Renamed(u), ix[i]);
  }

  /** For values above 15 the cheapest candidate is the cheapest of all tables. */
  lemma EscapesFewest(t: nat, max: nat, ix: seq<nat>, from: nat, end: nat)
    requires from <= end <= |ix| && (end - from) % 2 == 0 && IsMax(max, ix, from, end)
    requires 15 < max && Chosen(t, max, ix, from, end)
    ensures Fewest(t, ix, from, end)
  {
    hide RegionCost, Linmax, IsMax, Suits, Candidate;
    forall u: nat | u < 32 && Suits(u, ix, from, end)
      ensures WrittenCost(t, ix, from, end) <= WrittenCost(u, ix, from, end)
    {
      OnlyEscapes(u, max, ix, from, end);
      var c := FamilyCandidate(Renamed(u), max);
      FamilyCost(c, Renamed(u), ix, from, (end - from) / 2);
      assert WrittenCost(c, ix, from, end) <= WrittenCost(u, ix, from, end);
    }
  }

  /** The tables that code a region of small values more cheaply than any candidate: one region for each maximum. */
  function Counterexample(max: nat): (seq<nat>, nat) {
    match max
    case 1 => ([1, 1], 3)
    case 2 => ([0, 2], 6)
    case 3 => ([0, 3], 9)
    case 4 => ([0, 4], 15)
    case 5 => ([0, 5], 15)
    case 6 => ([0, 4, 3, 6], 15)
    case 7 => ([6, 7], 15)
    case 8 => ([8, 7], 24)
    case 9 => ([9, 6], 24)
    case 10 => ([10, 10], 24)
    case 11 => ([8, 11], 24)
    case 12 => ([12, 8], 24)
    case 13 => ([2, 13], 24)
    case 14 => ([14, 14], 24)
    case _ => ([15, 8], 24)
  }

  lemma OnePair(t: nat, x: nat, y: nat)
    requires t != 0
    ensures RegionCost(t, [x, y], 0, 1) == PairCost(t, x, y)
  {
    hide PairCost;
    CostStep(t, [x, y], 0, 0);
  }

  lemma TwoPairs(t: nat, x: nat, y: nat, z: nat, w: nat)
    requires t != 0
    ensures RegionCost(t, [x, y, z, w], 0, 2) == PairCost(t, x, y) + PairCost(t, z, w)
  {
    hide PairCost;
    CostStep(t, [x, y, z, w], 0, 0);
    CostStep(t, [x, y, z, w], 0, 1);
  }

  lemma Pairs1()
    ensures PairCost(3, 1, 1) == 4 && PairCost(1, 1, 1) == 5
  {
  }

  lemma Pairs2()
    ensures PairCost(6, 0, 2) == 6 && PairCost(2, 0, 2) == 7 && PairCost(3, 0, 2) == 7
  {
  }

  lemma Pairs3()
    ensures PairCost(9, 0, 3) == 7 && PairCost(5, 0, 3) == 8 && PairCost(6, 0, 3) == 8
  {
  }

  lemma Pairs4()
    ensures PairCost(15, 0, 4) == 8 && PairCost(7, 0, 4) == 9 && PairCost(8, 0, 4) == 9 && PairCost(9, 0, 4) == 9
  {
  }

  lemma Pairs5()
    ensures PairCost(15, 0, 5) == 9 && PairCost(7, 0, 5) == 10 && PairCost(8, 0, 5) == 10 && PairCost(9, 0, 5) == 10
  {
  }

  lemma Pairs7()
    ensures PairCost(15, 6, 7) == 11 && PairCost(10, 6, 7) == 13 && PairCost(11, 6, 7) == 12 && PairCost(12, 6, 7) == 12
  {
  }

  lemma Pairs8()
    ensures PairCost(24, 8, 7) == 11 && PairCost(13, 8, 7) == 14 && PairCost(16, 8, 7) == 14 && PairCost(15, 8, 7) == 12
  {
  }

  lemma Pairs9()
    ensures PairCost(24, 9, 6) == 11 && PairCost(13, 9, 6) == 13 && PairCost(16, 9, 6) == 14 && PairCost(15, 9, 6) == 12
  {
  }

  lemma Pairs10()
    ensures PairCost(24, 10, 10) == 12 && PairCost(13, 10, 10) == 16 && PairCost(16, 10, 10) == 16
        && PairCost(15, 10, 10) == 13
  {
  }

  lemma Pairs11()
    ensures PairCost(24, 8, 11) == 12 && PairCost(13, 8, 11) == 15 && PairCost(16, 8, 11) == 15
        && PairCost(15, 8, 11) == 13
  {
  }

  lemma Pairs12()
    ensures PairCost(24, 12, 8) == 12 && PairCost(13, 12, 8) == 16 && PairCost(16, 12, 8) == 15
        && PairCost(15, 12, 8) == 13
  {
  }

  lemma Pairs13()
    ensures PairCost(24, 2, 13) == 12 && PairCost(13, 2, 13) == 14 && PairCost(16, 2, 13) == 14
        && PairCost(15, 2, 13) == 13
  {
  }

  lemma Pairs14()
    ensures PairCost(24, 14, 14) == 13 && PairCost(13, 14, 14) == 18 && PairCost(16, 14, 14) == 16
        && PairCost(15, 14, 14) == 14
  {
  }

  lemma Pairs15()
    ensures PairCost(24, 15, 8) == 13 && PairCost(13, 15, 8) == 17 && PairCost(16, 15, 8) == 14
        && PairCost(15, 15, 8) == 14
  {
  }

  /** For 6 it takes two pairs. */
  lemma CheaperForSix(t: nat)
    requires Candidate(t, 6)
    ensures PairCost(15, 0, 4) + PairCost(15, 3, 6) < PairCost(t, 0, 4) + PairCost(t, 3, 6)
  {
  }

  lemma CheaperForOthers(max: nat, t: nat)
    requires 1 <= max <= 15 && max != 6 && Candidate(t, max)
    ensures var (ix, u) := Counterexample(max);
      |ix| == 2 && PairCost(u, ix[0], ix[1]) < PairCost(Renamed(t), ix[0], ix[1])
  {
    hide PairCost;
    if max < 7 {
      Pairs1();
      Pairs2();
      Pairs3();
      Pairs4();
      Pairs5();
    } else if max < 11 {
      Pairs7();
      Pairs8();
      Pairs9();
      Pairs10();
    } else {
      Pairs11();
      Pairs12();
      Pairs13();
      Pairs14();
      Pairs15();
    }
  }

  lemma CounterexampleFits(max: nat)
    requires 1 <= max <= 15
    ensures var (ix, u) := Counterexample(max);
      |ix| % 2 == 0 && 0 < |ix| && u in {3, 6, 9, 15, 24} && IsMax(max, ix, 0, |ix|) && Suits(u, ix, 0, |ix|)
  {
    var (ix, u) := Counterexample(max);
    assert ix[|ix| - 1] == max || ix[|ix| - 2] == max;
  }

  /** For every maximum from 1 to 15 there is a region that some table codes in fewer bits than any candidate. */
  lemma SmallNotFewest(max: nat, t: nat)
    requires 1 <= max <= 15 && Candidate(t, max)
    ensures var (ix, u) := Counterexample(max);
      && IsMax(max, ix, 0, |ix|) && Suits(u, ix, 0, |ix|) && WrittenCost(u, ix, 0, |ix|) < WrittenCost(t, ix, 0, |ix|)
  {
    hide PairCost, Suits, IsMax;
    CounterexampleFits(max);
    var (ix, u) := Counterexample(max);
    if max == 6 {
      CheaperForSix(t);
      TwoPairs(t, 0, 4, 3, 6);
      TwoPairs(u, 0, 4, 3, 6);
    } else {
      CheaperForOthers(max, t);
      OnePair(Renamed(t), ix[0], ix[1]);
      OnePair(u, ix[0], ix[1]);
    }
  }

  /** Whatever the region with this maximum, the cheapest candidate is the cheapest of all tables. */
  ghost predicate AlwaysFewest(max: nat) {
    forall t: nat, ix: seq<nat>, from: nat, end: nat |
      from < end <= |ix| && (end - from) % 2 == 0 && IsMax(max, ix, from, end) && Chosen(t, max, ix, from, end) ::
      Fewest(t, ix, from, end)
  }

  /** choose_table gives the fewest bits, as it is documented to, exactly for the maxima 0 and above 15. */
  lemma FewestExactly(max: nat)
    requires max <= IXMAX_VAL
    ensures AlwaysFewest(max) <==> max == 0 || max > 15
  {
    hide WrittenCost, Suits, IsMax, Candidate;
    if 1 <= max <= 15 {
      var (ix, u) := Counterexample(max);
      CounterexampleFits(max);
      var t := CheapestCandidate(max, ix, 0, |ix|);
      SmallNotFewest(max, t);
      assert Chosen(t, max, ix, 0, |ix|) && !Fewest(t, ix, 0, |ix|);
    } else {
      forall t: nat, ix: seq<nat>, from: nat, end: nat |
        from < end <= |ix| && (end - from) % 2 == 0 && IsMax(max, ix, from, end) && Chosen(t, max, ix, from, end)
        ensures Fewest(t, ix, from, end)
      {
        if max == 0 { NothingDearer(t, ix, from, end); } else { EscapesFewest(t, max, ix, from, end); }
      }
    }
  }

  lemma NothingDearer(t: nat, ix: seq<nat>, from: nat, end: nat)
    requires from <= end <= |ix| && Candidate(t, 0)
    ensures WrittenCost(t, ix, from, end) == 0 && Fewest(t, ix, from, end)
  {
  }

  lemma OneMax(a: nat, b: nat, ix: seq<nat>, from: nat, end: nat)
    requires from <= end <= |ix| && IsMax(a, ix, from, end) && IsMax(b, ix, from, end)
    ensures a == b
  {
  }

  lemma ChosenFewest(t: nat, max: nat, ix: seq<nat>, from: nat, end: nat)
    requires from < end <= |ix| && (end - from) % 2 == 0 && max <= IXMAX_VAL
    requires IsMax(max, ix, from, end) && Chosen(t, max, ix, from, end)
    ensures forall m | IsMax(m, ix, from, end) && (m == 0 || m > 15) :: Fewest(t, ix, from, end)
  {
    hide IsMax, Chosen, Fewest;
    forall m | IsMax(m, ix, from, end) && (m == 0 || m > 15)
      ensures Fewest(t, ix, from, end)
    {
      OneMax(m, max, ix, from, end);
      FewestExactly(max);
    }
  }

  /** There is a cheapest candidate. */
  lemma CheapestCandidate(max: nat, ix: seq<nat>, from: nat, end: nat) returns (t: nat)
    requires from <= end <= |ix| && 1 <= max <= 15
    ensures Chosen(t, max, ix, from, end)
  {
    hide WrittenCost;
    var a := FirstTable(max);
    t := a;
    if max > 1 && WrittenCost(a + 1, ix, from, end) < WrittenCost(t, ix, from, end) { t := a + 1; }
    if max > 3 && WrittenCost(a + 2, ix, from, end) < WrittenCost(t, ix, from, end) { t := a + 2; }
  }

  /** choose_table: the cost of the cheapest candidate is added to `s`; beyond the largest codable value there
      is none. */
  method ChooseTable(ix: seq<nat>, from: nat, end: nat, s: int) returns (t: int, s': int)
    requires from < end <= |ix| && (end - from) % 2 == 0 && end - from <= 576
    ensures t == -1 <==> exists i | from <= i < end :: ix[i] > IXMAX_VAL
    ensures t == -1 ==> s' == LARGE_BITS
    ensures t != -1 ==> 0 <= t < 32 && Suits(t, ix, from, end) && s' == s + WrittenCost(t, ix, from, end)
    ensures t != -1 ==> forall u, max | IsMax(max, ix, from, end) && Candidate(u, max) ::
      WrittenCost(t, ix, from, end) <= WrittenCost(u, ix, from, end)
    ensures t != -1 ==> (forall max | IsMax(max, ix, from, end) && (max == 0 || max > 15) :: Fewest(t, ix, from, end))
  {
    hide RegionCost, RegionCodable, Linmax, Xlen;
    var max := IxMax(ix, from, end);
    if max == 0 {
      ZeroCost(ix, from, end);
      ChosenFewest(0, 0, ix, from, end);
      return 0, s;
    } else if max == 1 {
      t, s' := CountBitNoEsc(ix, from, end, s);
    } else if max <= 3 {
      t, s' := CountBitNoEscFrom2(ix, from, end, FirstTable(max), s);
    } else if max <= 15 {
      XlenOf(max);
      t, s' := CountBitNoEscFrom3(ix, from, end, FirstTable(max), s);
      Region14(ix, from, (end - from) / 2);
    } else if max > IXMAX_VAL {
      return -1, LARGE_BITS;
    } else {
      var choice, choice2 := EscapeTables(max);
      t, s' := CountBitEsc(ix, from, end, choice, choice2, s);
    }
    CandidateSuits(t, max, ix, from, end);
    ChosenFewest(t, max, ix, from, end);
  }

  lemma ZeroCost(ix: seq<nat>, from: nat, end: nat)
    requires from <= end <= |ix| && IsMax(0, ix, from, end)
    ensures Suits(0, ix, from, end) && WrittenCost(0, ix, from, end) == 0
  {
  }

  lemma XlenOf(max: nat)
    requires 4 <= max <= 15
    ensures max < Xlen(FirstTable(max)) && FirstTable(max) in {7, 10, 13}
  {
  }
}

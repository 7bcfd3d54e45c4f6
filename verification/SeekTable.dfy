/** The seek table of VBR files (addVbr and Xing_seek_table of VbrTag.c): a bag of fixed size that holds running
    sums of the frames' bitrates, ever further apart. */
module SeekTable {
  import opened Bits

  const NUMTOCENTRIES := 100

  function Total(rates: seq<nat>): nat {
    if rates == [] then 0 else Total(rates[..|rates| - 1]) + rates[|rates| - 1]
  }

  lemma {:induction false} TotalGrows(rates: seq<nat>, m: nat, n: nat)
    requires m <= n <= |rates|
    ensures Total(rates[..m]) <= Total(rates[..n])
    decreases n
  {
    if m < n {
      assert rates[..n][..n - 1] == rates[..n - 1];
      TotalGrows(rates, m, n - 1);
    }
  }

  /** The sum of the first `k + 1` groups of `want` frames. */
  function GroupSum(rates: seq<nat>, want: nat, k: nat): nat
    requires Times(k + 1, want) <= |rates|
  {
    Total(rates[..Times(k + 1, want)])
  }

  /** `bag[k]` is the sum of the first `k + 1` groups. */
  ghost predicate Bagged(bag: seq<nat>, rates: seq<nat>, want: nat, pos: nat) {
    pos <= |bag| && forall k: nat | k < pos :: Grouped(rates, want, k, bag[k])
  }

  ghost predicate Grouped(rates: seq<nat>, want: nat, k: nat, sum: nat) {
    Times(k + 1, want) <= |rates| && sum == GroupSum(rates, want, k)
  }

  lemma BaggedMore(bag: seq<nat>, rates: seq<nat>, rate: nat, want: nat, pos: nat)
    requires Bagged(bag, rates, want, pos)
    ensures Bagged(bag, rates + [rate], want, pos)
  {
    hide Total, Times;
    forall k: nat | k < pos
      ensures Grouped(rates + [rate], want, k, bag[k])
    {
      assert Grouped(rates, want, k, bag[k]);
      var n := Times(k + 1, want);
      assert (rates + [rate])[..n] == rates[..n];
    }
  }

  lemma TotalMore(rates: seq<nat>, rate: nat)
    ensures Total(rates + [rate]) == Total(rates) + rate
  {
    assert (rates + [rate])[..|rates|] == rates;
  }

  lemma BaggedNext(had: seq<nat>, bag: seq<nat>, rates: seq<nat>, want: nat, pos: nat)
    requires Bagged(had, rates, want, pos) && pos < |had| && bag == had[pos := Total(rates)]
    requires Times(pos + 1, want) == |rates|
    ensures Bagged(bag, rates, want, pos + 1)
  {
    hide Total, Times;
    assert rates[..|rates|] == rates;
    assert Grouped(rates, want, pos, bag[pos]);
    assert forall k: nat | k < pos :: Grouped(rates, want, k, had[k]);
  }

  lemma TimesPair(k: nat, want: nat)
    ensures Times(2 * k, want) == Times(k, 2 * want)
  {
  }

  lemma BaggedHalf(full: seq<nat>, bag: seq<nat>, rates: seq<nat>, want: nat, size: nat)
    requires |full| == |bag| == size && size % 2 == 0 && Bagged(full, rates, want, size)
    requires forall k | 0 <= k < size / 2 :: bag[k] == full[2 * k + 1]
    ensures Bagged(bag, rates, want * 2, size / 2) && Times(size / 2, want * 2) == Times(size, want)
  {
    hide Total, Times;
    TimesPair(size / 2, want);
    forall k: nat | k < size / 2
      ensures Grouped(rates, want * 2, k, bag[k])
    {
      TimesPair(k + 1, want);
      assert Grouped(rates, want, 2 * k + 1, full[2 * k + 1]);
    }
  }

  lemma Pow2Next(n: nat)
    ensures Pow2(n + 1) == Pow2(n) * 2
  {
  }

  // ----- the table of contents

  /** The group that entry `i` of the table looks at. */
  function GroupIndex(i: nat, pos: nat): nat { i * pos / NUMTOCENTRIES }

  lemma GroupInside(i: nat, pos: nat)
    requires i < NUMTOCENTRIES && 0 < pos
    ensures GroupIndex(i, pos) < pos
  {
    MulMonotone(i, NUMTOCENTRIES - 1, pos);
  }

  lemma GroupsRise(i: nat, j: nat, pos: nat)
    requires i <= j
    ensures GroupIndex(i, pos) <= GroupIndex(j, pos)
  {
    MulMonotone(i, j, pos);
    DivMonotone(i * pos, j * pos, NUMTOCENTRIES);
  }

  function Point(act: nat, sum: nat): (p: nat)
    requires sum > 0
    ensures p <= 255
  {
    if 256 * act / sum > 255 then 255 else 256 * act / sum
  }

  lemma PointsRise(a: nat, b: nat, sum: nat)
    requires a <= b && sum > 0
    ensures Point(a, sum) <= Point(b, sum)
  {
    DivMonotone(256 * a, 256 * b, sum);
  }

  /** What entry `i` says: how far into the file, in 256ths of all bitrates, the frames up to `i` hundredths reach. */
  ghost predicate Entry(rates: seq<nat>, want: nat, pos: nat, i: nat, e: nat) {
    var k := GroupIndex(i, pos);
    Total(rates) > 0 && k < pos && Times(k + 1, want) <= |rates| && e == Point(GroupSum(rates, want, k), Total(rates))
  }

  /** In whole numbers: the group is the one that `i` hundredths of all groups reach, and the entry, of 256ths of the
      sum, is the last that the sum up to there reaches, or 255. */
  lemma EntrySays(rates: seq<nat>, want: nat, pos: nat, i: nat, e: nat)
    requires Entry(rates, want, pos, i, e)
    ensures var k, all := GroupIndex(i, pos), Total(rates);
      && 100 * k <= i * pos < 100 * (k + 1) && Times(k + 1, want) <= |rates| && e <= 255
      && e * all <= 256 * GroupSum(rates, want, k) && (e < 255 ==> 256 * GroupSum(rates, want, k) < (e + 1) * all)
  {
    hide Total, Times, GroupSum;
    GroupThere(i, pos);
    PointThere(GroupSum(rates, want, GroupIndex(i, pos)), Total(rates));
  }

  lemma GroupThere(i: nat, pos: nat)
    ensures 100 * GroupIndex(i, pos) <= i * pos < 100 * (GroupIndex(i, pos) + 1)
  {
    var x := i * pos;
    assert GroupIndex(i, pos) == x / 100;
  }

  lemma PointThere(act: nat, sum: nat)
    requires sum > 0
    ensures Point(act, sum) * sum <= 256 * act && (Point(act, sum) < 255 ==> 256 * act < (Point(act, sum) + 1) * sum)
  {
    var q, r := DivModId(256 * act, sum);
    if q > 255 { MulMonotone(255, q, sum); }
  }

  lemma EntriesRise(rates: seq<nat>, want: nat, pos: nat, i: nat, a: nat, j: nat, b: nat)
    requires i <= j && Entry(rates, want, pos, i, a) && Entry(rates, want, pos, j, b)
    ensures a <= b <= 255
  {
    hide Total, Times, Point;
    var k, l := GroupIndex(i, pos), GroupIndex(j, pos);
    GroupsRise(i, j, pos);
    TimesMonotone(k + 1, l + 1, want);
    TotalGrows(rates, Times(k + 1, want), Times(l + 1, want));
    PointsRise(GroupSum(rates, want, k), GroupSum(rates, want, l), Total(rates));
  }

  lemma {:induction false} TotalPositive(rates: seq<nat>)
    requires |rates| > 0 && forall i | 0 <= i < |rates| :: rates[i] > 0
    ensures Total(rates) > 0
  {
  }

  class Bag {
    const size: nat
    const bag: array<nat>
    var nVbrNumFrames: nat
    var sum: nat
    var seen: nat
    var want: nat
    var pos: nat
    /** The bitrate of every frame so far. */
    ghost var rates: seq<nat>
    ghost var halvings: nat

    /** What InitVbrTag sets up, with 400 entries. */
    constructor (size: nat)
      requires size > 0 && size % 2 == 0
      ensures Valid() && fresh(bag) && rates == [] && this.size == size
    {
      this.size := size;
      bag := new nat[size];
      nVbrNumFrames, sum, seen, want, pos := 0, 0, 0, 1, 0;
      rates, halvings := [], 0;
      new;
      assert Pow2(0) == 1;
    }

    /** Nothing is lost: the bag has the running sum after every `want` frames, and fewer than `want` have been
        seen since. */
    ghost predicate Valid()
      reads this, bag
    {
      pos < size && Counted()
    }

    /** The same while the bag may be full. */
    ghost predicate Counted()
      reads this, bag
    {
      && bag.Length == size > 0 && size % 2 == 0 && pos <= size
      && want == Pow2(halvings) && seen < want && (pos == 0 ==> want == 1)
      && nVbrNumFrames == |rates| == Times(pos, want) + seen && sum == Total(rates)
      && Bagged(bag[..], rates, want, pos)
    }

    /** The loop of addVbr: every second entry is kept. */
    method KeepEverySecond()
      requires bag.Length == size && size % 2 == 0
      modifies bag
      ensures forall k | 0 <= k < size / 2 :: bag[k] == old(bag[2 * k + 1])
    {
      var i := 1;
      while i < size
        invariant i % 2 == 1 && i <= size + 1
        invariant forall k | 0 <= k < i / 2 :: bag[k] == old(bag[2 * k + 1])
        invariant forall k | i / 2 <= k < size :: bag[k] == old(bag[k])
      {
        bag[i / 2] := bag[i];
        i := i + 2;
      }
    }

    /** The end of addVbr: a full bag goes on with groups twice as large. */
    method Halve()
      requires Counted() && pos == size && seen == 0
      modifies this`want, this`pos, this`halvings, bag
      ensures Valid()
    {
      hide Total, Times, Pow2, Bagged;
      ghost var full := bag[..];
      KeepEverySecond();
      BaggedHalf(full, bag[..], rates, want, pos);
      Pow2Next(halvings);
      want := want * 2;
      pos := pos / 2;
      halvings := halvings + 1;
    }

    /** addVbr */
    method AddVbr(bitrate: nat)
      requires Valid()
      modifies this, bag
      ensures Valid() && rates == old(rates) + [bitrate]
    {
      hide Total, Times, Pow2, Bagged;
      ghost var before := rates;
      rates := rates + [bitrate];
      TotalMore(before, bitrate);
      nVbrNumFrames := nVbrNumFrames + 1;
      sum := sum + bitrate;
      seen := seen + 1;
      BaggedMore(bag[..], before, bitrate, want, pos);
      if seen < want { return; }
      TimesStep(pos, want);
      if pos < size {
        ghost var had := bag[..];
        bag[pos] := sum;
        assert bag[..] == had[pos := sum];
        BaggedNext(had, bag[..], rates, want, pos);
        pos := pos + 1;
        seen := 0;
      }
      if pos == size { Halve(); }
    }

    /** Xing_seek_table, with exact quotients: entry `i` is how far into the file, in 256ths, `i` hundredths of the
        frames reach; `t` keeps its zeros if no frame has been counted. */
    method XingSeekTable(t: array<nat>)
      requires Valid() && t.Length == NUMTOCENTRIES && (forall i | 0 <= i < t.Length :: t[i] == 0)
      requires t != bag && forall i | 0 <= i < |rates| :: rates[i] > 0
      modifies t
      ensures pos == 0 ==> forall i | 0 <= i < NUMTOCENTRIES :: t[i] == 0
      ensures pos > 0 ==> t[0] == 0 && forall i | 1 <= i < NUMTOCENTRIES :: Entry(rates, want, pos, i, t[i])
      ensures forall i, j | 0 <= i <= j < NUMTOCENTRIES :: t[i] <= t[j] <= 255
    {
      hide Total, Times, GroupIndex, Pow2, Point;
      if pos <= 0 { return; }
      TimesStep(pos - 1, want);
      TotalPositive(rates);
      for i := 1 to NUMTOCENTRIES
        invariant t[0] == 0 && forall k | 1 <= k < i :: Entry(rates, want, pos, k, t[k])
        invariant bag[..] == old(bag[..])
      {
        GroupInside(i, pos);
        var indx := GroupIndex(i, pos);
        if indx > pos - 1 { indx := pos - 1; }
        var act := bag[indx];
        assert Grouped(rates, want, indx, act);
        var seekPoint := Point(act, sum);
        t[i] := seekPoint;
      }
      forall i, j | 0 <= i <= j < NUMTOCENTRIES
        ensures t[i] <= t[j] <= 255
      {
        if i > 0 {
          EntriesRise(rates, want, pos, i, t[i], j, t[j]);
        } else if j > 0 {
          EntriesRise(rates, want, pos, j, t[j], j, t[j]);
        }
      }
    }
  }
}

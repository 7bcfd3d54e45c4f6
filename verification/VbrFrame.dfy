/** VBR_encode_frame of vbrquantize.c: every granule as good as its bands ask for; if that is too much for the frame,
    each granule once more within a share of the bits. */
module VbrFrame {
  import opened Bits
  import opened Granule
  import opened Reservoirs
  import opened Takehiro
  import opened Finish
  import opened Quantizing

  // ----- numbers of bits for each granule and channel

  ghost predicate Shape(use: seq<seq<int>>, modeGr: nat, channels: nat) {
    |use| == modeGr && forall gr | 0 <= gr < |use| :: |use[gr]| == channels && NonNegative(use[gr])
  }

  ghost predicate NonNegative(row: seq<int>) { forall ch | 0 <= ch < |row| :: 0 <= row[ch] }

  ghost predicate RowFits(row: seq<int>) {
    Reservoirs.Sum(row) <= MAX_BITS_PER_GRANULE && forall ch | 0 <= ch < |row| :: row[ch] <= MAX_BITS_PER_CHANNEL
  }

  /** The bit constraints: in total, in each granule, and in each channel of a granule. */
  ghost predicate FrameFits(use: seq<seq<int>>, maxNbitsFr: int) {
    Total(use) <= maxNbitsFr && forall gr | 0 <= gr < |use| :: RowFits(use[gr])
  }

  /** Both checks of the bit constraints. */
  method CheckFrame(use: seq<seq<int>>, maxNbitsFr: int) returns (ok: bool)
    ensures ok <==> FrameFits(use, maxNbitsFr)
  {
    hide RowFits, Reservoirs.Sum;
    ok := true;
    var sumFr := 0;
    for gr := 0 to |use|
      invariant sumFr == Total(use[..gr]) && (ok <==> forall k | 0 <= k < gr :: RowFits(use[k]))
    {
      assert use[..gr + 1][..gr] == use[..gr];
      var sumGr, rowOk := CheckRow(use[gr]);
      sumFr := sumFr + sumGr;
      if !rowOk { ok := false; }
    }
    assert use[..|use|] == use;
    if sumFr > maxNbitsFr { ok := false; }
  }

  method CheckRow(row: seq<int>) returns (sumGr: int, ok: bool)
    ensures sumGr == Reservoirs.Sum(row) && (ok <==> RowFits(row))
  {
    hide Reservoirs.Sum;
    sumGr, ok := 0, true;
    SumNone();
    assert row[..0] == [];
    for ch := 0 to |row|
      invariant sumGr == Reservoirs.Sum(row[..ch])
      invariant ok <==> forall k | 0 <= k < ch :: row[k] <= MAX_BITS_PER_CHANNEL
    {
      SumAppend(row[..ch], row[ch]);
      assert row[..ch + 1] == row[..ch] + [row[ch]];
      sumGr := sumGr + row[ch];
      if row[ch] > MAX_BITS_PER_CHANNEL { ok := false; }
    }
    assert row[..|row|] == row;
    if sumGr > MAX_BITS_PER_GRANULE { ok := false; }
  }

  // ----- sharing the bits out

  function Weights(row: seq<int>, root: real -> real): (f: seq<real>)
    ensures |f| == |row|
  {
    seq(|row|, i requires 0 <= i < |row| => Weight(row[i], root))
  }

  function Weight(x: int, root: real -> real): real { if x > 0 then root(x as real) else 0.0 }

  function SumOf(f: seq<real>): real {
    if f == [] then 0.0 else SumOf(f[..|f| - 1]) + f[|f| - 1]
  }

  /** `part` is what `f` of all weights `s` get of `amount`, less than one bit short. */
  ghost predicate Portioned(part: int, amount: int, f: real, s: real) {
    if s > 0.0 then part as real * s <= amount as real * f < part as real * s + s else part == 0
  }

  /** `out` is `amount` in proportion to the roots of the numbers in `row`. */
  ghost predicate SpreadAs(row: seq<int>, amount: int, root: real -> real, out: seq<int>) {
    && |out| == |row|
    && forall i | 0 <= i < |row| :: Portioned(out[i], amount, Weights(row, root)[i], SumOf(Weights(row, root)))
  }

  /** The code of sharing out. */
  method Spread(row: seq<int>, amount: int, root: real -> real) returns (out: seq<int>)
    requires 0 <= amount && forall x | x >= 0.0 :: root(x) >= 0.0
    ensures |out| == |row| && NonNegative(out) && SpreadAs(row, amount, root, out)
  {
    hide Portioned, PartOf;
    var f: seq<real>, s := [], 0.0;
    ghost var all := Weights(row, root);
    for i := 0 to |row|
      invariant f == all[..i] && s == SumOf(f) && 0.0 <= s && forall k | 0 <= k < i :: 0.0 <= f[k]
    {
      ghost var before := f;
      if row[i] > 0 {
        f := f + [root(row[i] as real)];
        s := s + f[i];
      } else {
        f := f + [0.0];
      }
      assert f[..i] == before;
    }
    assert f == all;
    out := [];
    for i := 0 to |row|
      invariant |out| == i && NonNegative(out) && forall k | 0 <= k < i :: Portioned(out[k], amount, f[k], s)
    {
      var part := 0;
      if s > 0.0 {
        PortionIs(amount, f[i], s);
        part := PartOf(amount, f[i], s);
      } else {
        NoPortion(amount, f[i]);
      }
      out := out + [part];
    }
  }

  lemma NoPortion(amount: int, f: real)
    ensures Portioned(0, amount, f, 0.0)
  {
  }

  /** What `f` of all weights `s` get. */
  function PartOf(amount: int, f: real, s: real): int
    requires s > 0.0
  {
    Trunc(amount as real * f / s)
  }

  lemma PortionIs(amount: int, f: real, s: real)
    requires 0 <= amount && 0.0 <= f && 0.0 < s
    ensures 0 <= PartOf(amount, f, s) && Portioned(PartOf(amount, f, s), amount, f, s)
  {
    var part := PartOf(amount, f, s);
    Portion(amount as real, f, s);
    PartBetween(part, amount as real * f, s);
  }

  lemma PartBetween(part: int, y: real, s: real)
    requires 0.0 < s && 0.0 <= y / s && part == Trunc(y / s)
    ensures part as real * s <= y < part as real * s + s && 0 <= part
  {
    var x, a := y / s, part as real;
    TruncLast(x);
    TruncBounds(x, 0);
    assert a <= x < a + 1.0;
    Surrounded(a, x, s);
    Quotient(y, s);
    assert x * s == y;
    assert a * s <= x * s;
    assert x * s < a * s + s;
    assert y < a * s + s;
    assert 0 <= part;
  }

  lemma Surrounded(a: real, x: real, s: real)
    requires a <= x < a + 1.0 && 0.0 < s
    ensures a * s <= x * s < a * s + s
  {
  }

  lemma Quotient(y: real, s: real)
    requires 0.0 < s
    ensures y / s * s == y
  {
  }

  lemma TruncLast(x: real)
    requires 0.0 <= x
    ensures Trunc(x) as real <= x < (Trunc(x) + 1) as real
  {
  }

  lemma Portion(a: real, f: real, s: real)
    requires 0.0 <= a && 0.0 <= f && 0.0 < s
    ensures 0.0 <= a * f / s
  {
    assert 0.0 <= a * f;
  }

  /** Of two, the first keeps no more than its use and some slack, unless the second would get more than that of its
      own; then each is cut to `cap`. */
  function Evened(row: seq<int>, use: seq<int>, slack: int, cap: int): seq<int> {
    if |row| == |use| == 2 then
      var x := Max(Min(row[0], use[0] + slack), row[0] + row[1] - (use[1] + slack));
      [Min(x, cap), Min(row[0] + row[1] - x, cap)]
    else row
  }

  /** What one of two has beyond its use and some slack goes to the other; neither keeps more than `cap`. */
  method Even(row: seq<int>, use: seq<int>, slack: nat, cap: nat) returns (out: seq<int>)
    requires |row| == |use| && 1 <= |row| <= 2 && NonNegative(row) && NonNegative(use)
    ensures |out| == |row| && NonNegative(out) && out == Evened(row, use, slack, cap)
  {
    out := row;
    if |row| > 1 {
      if out[0] > use[0] + slack {
        out := [use[0] + slack, out[1] + out[0] - (use[0] + slack)];
      }
      if out[1] > use[1] + slack {
        out := [out[0] + out[1] - (use[1] + slack), use[1] + slack];
      }
      out := [Min(out[0], cap), Min(out[1], cap)];
    }
  }

  /** No channel beyond what its side information can say. */
  function Capped(use: seq<int>): (row: seq<int>)
    ensures |row| == |use|
  {
    seq(|use|, ch requires 0 <= ch < |use| => Min(use[ch], MAX_BITS_PER_CHANNEL))
  }

  function Twice(root: real -> real): real -> real { x => root(root(x)) }

  /** A granule that is too large is shared out between its channels, by the fourth roots of what they use. */
  ghost predicate GranuleShared(use: seq<int>, root: real -> real, row: seq<int>) {
    if RowFits(Capped(use)) then row == Capped(use)
    else SharedEvenly(Capped(use), use, MAX_BITS_PER_GRANULE, Twice(root), 32, MAX_BITS_PER_CHANNEL, row)
  }

  ghost predicate SharedEvenly(row: seq<int>, use: seq<int>, amount: int, root: real -> real, slack: nat, cap: nat,
                               out: seq<int>)
  {
    exists parts: seq<int> :: SpreadAs(row, amount, root, parts) && out == Evened(parts, use, slack, cap)
  }

  function Sums(rows: seq<seq<int>>): (sums: seq<int>)
    ensures |sums| == |rows|
  {
    seq(|rows|, gr requires 0 <= gr < |rows| => Reservoirs.Sum(rows[gr]))
  }

  /** The frame's bits are shared out between the granules by their square roots, and so each granule's between its
      channels. */
  ghost predicate FrameShared(rows: seq<seq<int>>, use: seq<seq<int>>, limit: int, root: real -> real,
                              out: seq<seq<int>>)
  {
    exists grs: seq<int> ::
      SharedEvenly(Sums(rows), Sums(use), limit, root, 125, MAX_BITS_PER_GRANULE, grs)
          && RowsShared(rows, use, grs, root, out)
  }

  ghost predicate RowsShared(rows: seq<seq<int>>, use: seq<seq<int>>, grs: seq<int>, root: real -> real,
                             out: seq<seq<int>>)
  {
    && |grs| == |rows| == |use| == |out|
    && forall gr | 0 <= gr < |rows| ::
         SharedEvenly(rows[gr], use[gr], grs[gr], root, 32, MAX_BITS_PER_CHANNEL, out[gr])
  }

  /** Both halves, when the granules use `use`. */
  ghost predicate Redistributed(use: seq<seq<int>>, limit: int, root: real -> real, shares: seq<seq<int>>) {
    exists rows: seq<seq<int>> :: RedistributedBy(use, rows, limit, root, shares)
  }

  ghost predicate RedistributedBy(use: seq<seq<int>>, rows: seq<seq<int>>, limit: int, root: real -> real,
                                  shares: seq<seq<int>>)
  {
    && |rows| == |use| && (forall gr | 0 <= gr < |use| :: GranuleShared(use[gr], root, rows[gr]))
    && if Total(rows) <= limit then shares == rows else FrameShared(rows, use, limit, root, shares)
  }

  /** And the targets, should the result be too much. */
  ghost predicate Decided(use: seq<seq<int>>, maxBits: seq<seq<int>>, root: real -> real, shares: seq<seq<int>>) {
    exists out: seq<seq<int>> ::
      && Redistributed(use, Total(maxBits), root, out)
      && shares == if FrameFits(out, Total(maxBits)) then out else maxBits
  }

  /** The first half: each granule within its own limits. */
  method ShareGranule(use: seq<int>, root: real -> real) returns (row: seq<int>)
    requires 1 <= |use| <= 2 && NonNegative(use) && forall x | x >= 0.0 :: root(x) >= 0.0
    ensures |row| == |use| && NonNegative(row) && GranuleShared(use, root, row)
  {
    hide SpreadAs;
    row := [];
    for ch := 0 to |use|
      invariant |row| == ch && NonNegative(row) && row == Capped(use)[..ch]
    {
      row := row + [if use[ch] > MAX_BITS_PER_CHANNEL then MAX_BITS_PER_CHANNEL else use[ch]];
    }
    assert row == Capped(use);
    if Reservoirs.Sum(row) > MAX_BITS_PER_GRANULE {
      row := Spread(row, MAX_BITS_PER_GRANULE, Twice(root));
      row := Even(row, use, 32, MAX_BITS_PER_CHANNEL);
    }
  }

  /** The second half: the frame within its limit. */
  method ShareFrame(rows: seq<seq<int>>, use: seq<seq<int>>, maxNbitsFr: int, channels: nat, root: real -> real)
    returns (out: seq<seq<int>>)
    requires 1 <= |rows| <= 2 && 1 <= channels <= 2 && 0 <= maxNbitsFr
    requires Shape(rows, |rows|, channels) && Shape(use, |rows|, channels) && forall x | x >= 0.0 :: root(x) >= 0.0
    ensures Shape(out, |rows|, channels) && FrameShared(rows, use, maxNbitsFr, root, out)
  {
    hide Reservoirs.Sum, SpreadAs, Evened;
    var grs, useGrs := [], [];
    for gr := 0 to |rows|
      invariant |grs| == |useGrs| == gr && NonNegative(grs) && NonNegative(useGrs)
      invariant grs == Sums(rows)[..gr] && useGrs == Sums(use)[..gr]
    {
      SumPositive(rows[gr]);
      SumPositive(use[gr]);
      grs := grs + [Reservoirs.Sum(rows[gr])];
      useGrs := useGrs + [Reservoirs.Sum(use[gr])];
    }
    assert grs == Sums(rows) && useGrs == Sums(use);
    grs := Spread(grs, maxNbitsFr, root);
    grs := Even(grs, useGrs, 125, MAX_BITS_PER_GRANULE);
    out := [];
    for gr := 0 to |rows|
      invariant |out| == gr && Shape(out, gr, channels)
      invariant forall k | 0 <= k < gr ::
        SharedEvenly(rows[k], use[k], grs[k], root, 32, MAX_BITS_PER_CHANNEL, out[k])
    {
      var row := Spread(rows[gr], grs[gr], root);
      row := Even(row, use[gr], 32, MAX_BITS_PER_CHANNEL);
      out := out + [row];
    }
    assert RowsShared(rows, use, grs, root, out);
  }

  lemma SumPositive(row: seq<int>)
    requires 1 <= |row| <= 2 && NonNegative(row)
    ensures 0 <= Reservoirs.Sum(row)
  {
    SumTwo(row);
  }

  function CappedAll(use: seq<seq<int>>): (rows: seq<seq<int>>)
    ensures |rows| == |use|
  {
    seq(|use|, gr requires 0 <= gr < |use| => Capped(use[gr]))
  }

  /** How many bits each granule is to use, when all together or one of them have used too many.  Whatever the roots
      are rounded to, the shares keep all bit constraints, if need be by falling back to the targets; and if it is
      enough that no channel uses more than its side information can say, that is all that happens. */
  method Redistribute(use: seq<seq<int>>, maxBits: seq<seq<int>>, channels: nat, root: real -> real)
    returns (shares: seq<seq<int>>)
    requires 1 <= |use| <= 2 && 1 <= channels <= 2 && Shape(use, |use|, channels) && Shape(maxBits, |use|, channels)
    requires FrameFits(maxBits, Total(maxBits)) && forall x | x >= 0.0 :: root(x) >= 0.0
    ensures Shape(shares, |use|, channels) && FrameFits(shares, Total(maxBits))
    ensures FrameFits(CappedAll(use), Total(maxBits)) ==> shares == CappedAll(use)
    ensures Decided(use, maxBits, root, shares)
  {
    hide RowFits, Total, Capped, FrameShared, GranuleShared;
    var maxNbitsFr := CountTotal(maxBits);
    TotalPositive(maxBits, channels);
    shares := [];
    for gr := 0 to |use|
      invariant |shares| == gr && Shape(shares, gr, channels)
      invariant forall k | 0 <= k < gr :: GranuleShared(use[k], root, shares[k])
    {
      var row := ShareGranule(use[gr], root);
      shares := shares + [row];
    }
    CappedShared(use, shares, root, maxNbitsFr);
    ghost var rows := shares;
    var sumFr := CountTotal(shares);
    if sumFr > maxNbitsFr {
      shares := ShareFrame(shares, use, maxNbitsFr, channels, root);
    }
    assert RedistributedBy(use, rows, maxNbitsFr, root, shares);
    var ok := CheckFrame(shares, maxNbitsFr);
    if !ok { shares := maxBits; }
  }

  lemma CappedShared(use: seq<seq<int>>, rows: seq<seq<int>>, root: real -> real, limit: int)
    requires |rows| == |use| && forall gr | 0 <= gr < |use| :: GranuleShared(use[gr], root, rows[gr])
    ensures FrameFits(CappedAll(use), limit) ==> rows == CappedAll(use)
  {
    hide RowFits, Total, Capped, SharedEvenly;
    if FrameFits(CappedAll(use), limit) {
      assert forall gr | 0 <= gr < |use| :: RowFits(CappedAll(use)[gr]);
    }
  }

  // ----- the fallback is never needed

  /** A larger number has a larger root, but not more than in proportion, as for square roots. */
  ghost predicate Rootlike(root: real -> real) {
    && (forall x | x >= 0.0 :: root(x) >= 0.0)
    && forall x, y :: 0.0 < x <= y ==> RootLess(root, x, y)
  }

  ghost predicate RootLess(root: real -> real, x: real, y: real) { root(x) <= root(y) && x * root(y) <= y * root(x) }

  lemma RootsLess(root: real -> real, a: int, b: int)
    requires Rootlike(root) && 0 < a <= b
    ensures var f, g := root(a as real), root(b as real);
      0.0 <= f <= g && a as real * g <= b as real * f
  {
    assert RootLess(root, a as real, b as real);
  }

  /** Of parts in proportion to weights, no more than the whole. */
  lemma SpreadWithin(row: seq<int>, amount: int, root: real -> real, out: seq<int>)
    requires 1 <= |row| <= 2 && 0 <= amount && SpreadAs(row, amount, root, out) && forall x | x >= 0.0 :: root(x) >= 0.0
    ensures |out| == |row| && Reservoirs.Sum(out) <= amount && NonNegative(out)
  {
    hide Reservoirs.Sum;
    SumTwo(out);
    var f, s := Weights(row, root), SumOf(Weights(row, root));
    forall i | 0 <= i < |out|
      ensures 0 <= out[i]
    {
      PartPositive(out[i], amount, f[i], s);
    }
    SumOfTwo(f);
    assert 0.0 <= f[0] && Portioned(out[0], amount, f[0], s);
    if |row| == 2 {
      assert 0.0 <= f[1] && Portioned(out[1], amount, f[1], s);
      PartsWithin(out[0], out[1], amount, f[0], f[1]);
    } else {
      assert Portioned(0, amount, 0.0, s);
      PartsWithin(out[0], 0, amount, f[0], 0.0);
    }
  }

  lemma PartPositive(part: int, amount: int, f: real, s: real)
    requires 0 <= amount && 0.0 <= f && Portioned(part, amount, f, s)
    ensures 0 <= part
  {
    if s > 0.0 {
      var p := part as real;
      assert 0.0 <= amount as real * f < p * s + s && p * s + s == (p + 1.0) * s;
      if p + 1.0 <= 0.0 { TimesLess(p + 1.0, 0.0, s); }
    }
  }

  lemma SumOfTwo(f: seq<real>)
    requires 1 <= |f| <= 2
    ensures SumOf(f) == f[0] + if |f| == 2 then f[1] else 0.0
  {
    assert f[..0] == [] && f[..1][..0] == [];
    assert SumOf(f[..0]) == 0.0 && SumOf(f[..1]) == f[0];
    assert f[..|f|] == f;
  }

  lemma PartsWithin(x: int, y: int, amount: int, f: real, g: real)
    requires 0 <= amount && 0.0 <= f && 0.0 <= g
    requires Portioned(x, amount, f, f + g) && Portioned(y, amount, g, f + g)
    ensures x + y <= amount
  {
    var s := f + g;
    if s > 0.0 {
      var a, b, m := x as real, y as real, amount as real;
      assert a * s <= m * f && b * s <= m * g;
      assert a * s + b * s == (a + b) * s && m * f + m * g == m * s;
      assert (a + b) * s <= m * s;
      Cancelled(a + b, m, s);
    }
  }

  lemma Cancelled(a: real, b: real, s: real)
    requires 0.0 < s && a * s <= b * s
    ensures a <= b
  {
    if b < a { TimesMore(b, a, s); }
  }

  lemma TimesMore(a: real, b: real, s: real)
    requires a < b && 0.0 < s
    ensures a * s < b * s
  {
  }

  /** And with less to share out than there was, no part is larger than the larger was. */
  lemma PartBelow(part: int, a: int, b: int, amount: int, root: real -> real, cap: int)
    requires Rootlike(root) && 0 <= a <= cap && 0 <= b <= cap && 0 <= amount < a + b
    requires Portioned(part, amount, Weight(a, root), Weight(a, root) + Weight(b, root))
    ensures part <= cap
  {
    var f, g := Weight(a, root), Weight(b, root);
    var s, p, m := f + g, part as real, amount as real;
    if s > 0.0 && part > 0 {
      if b == 0 {
        PartsWithin(part, 0, amount, f, 0.0);
      } else if a == 0 {
        PartOfNone(part, amount, s);
      } else if a < b {
        RootsLess(root, a, b);
        HalfAtMost(p, m, f, g);
      } else {
        RootsLess(root, b, a);
        ShareAtMost(p, m, f, g, a as real, b as real);
      }
    }
  }

  lemma PartOfNone(part: int, amount: int, s: real)
    requires s > 0.0 && Portioned(part, amount, 0.0, s)
    ensures part <= 0
  {
    Cancelled(part as real, 0.0, s);
  }

  lemma HalfAtMost(p: real, m: real, f: real, g: real)
    requires 0.0 <= f <= g && 0.0 < f + g && 0.0 <= m && p * (f + g) <= m * f
    ensures 2.0 * p <= m
  {
    var s := f + g;
    TimesLess(f, g, m);
    assert m * s == m * f + m * g;
    assert 2.0 * p * s == p * s + p * s;
    Cancelled(2.0 * p, m, s);
  }

  lemma ShareAtMost(p: real, m: real, f: real, g: real, a: real, b: real)
    requires 0.0 <= f && 0.0 <= g && 0.0 < f + g && 0.0 < b <= a && 0.0 <= m < a + b
    requires b * f <= a * g && p * (f + g) <= m * f
    ensures p <= a
  {
    var s, t := f + g, a + b;
    TimesLess(m, t, f);
    assert t * f == a * f + b * f && a * s == a * f + a * g;
    Cancelled(p, a, s);
  }

  lemma TimesLess(a: real, b: real, s: real)
    requires a <= b && 0.0 <= s
    ensures a * s <= b * s
  {
  }

  /** Moving between two makes neither larger than `cap` nor both together more. */
  lemma EvenedWithin(row: seq<int>, use: seq<int>, slack: nat, cap: nat)
    requires 1 <= |row| == |use| <= 2 && NonNegative(row) && NonNegative(use)
    ensures var out := Evened(row, use, slack, cap);
      NonNegative(out) && |out| == |row| && Reservoirs.Sum(out) <= Reservoirs.Sum(row)
          && (|row| == 2 ==> out[0] <= cap && out[1] <= cap)
  {
    hide Reservoirs.Sum;
    SumTwo(row);
    SumTwo(Evened(row, use, slack, cap));
  }

  lemma SharedWithin(row: seq<int>, use: seq<int>, amount: int, root: real -> real, slack: nat, cap: nat, out: seq<int>)
    requires 1 <= |row| == |use| <= 2 && 0 <= amount && NonNegative(use) && forall x | x >= 0.0 :: root(x) >= 0.0
    requires SharedEvenly(row, use, amount, root, slack, cap, out)
    ensures NonNegative(out) && |out| == |row| && Reservoirs.Sum(out) <= amount
        && (|row| == 2 ==> out[0] <= cap && out[1] <= cap)
  {
    hide SpreadAs, Evened, Reservoirs.Sum;
    var parts: seq<int> :| SpreadAs(row, amount, root, parts) && out == Evened(parts, use, slack, cap);
    SpreadWithin(row, amount, root, parts);
    EvenedWithin(parts, use, slack, cap);
  }

  /** Two granules of one channel, which together have less than they use, have no more than a channel can have. */
  lemma TwoGranules(rows: seq<int>, use: seq<int>, limit: int, root: real -> real, grs: seq<int>)
    requires |rows| == |use| == 2 && 0 <= limit < rows[0] + rows[1] && Rootlike(root)
    requires forall gr | 0 <= gr < 2 :: 0 <= rows[gr] <= use[gr] && rows[gr] <= MAX_BITS_PER_CHANNEL
    requires SharedEvenly(rows, use, limit, root, 125, MAX_BITS_PER_GRANULE, grs)
    ensures |grs| == 2 && grs[0] <= MAX_BITS_PER_CHANNEL && grs[1] <= MAX_BITS_PER_CHANNEL
  {
    hide Weight, Reservoirs.Sum;
    var parts: seq<int> :|
      SpreadAs(rows, limit, root, parts) && grs == Evened(parts, use, 125, MAX_BITS_PER_GRANULE);
    SpreadWithin(rows, limit, root, parts);
    SumTwo(parts);
    SumOfTwo(Weights(rows, root));
    PartBelow(parts[0], rows[0], rows[1], limit, root, MAX_BITS_PER_CHANNEL);
    PartBelow(parts[1], rows[1], rows[0], limit, root, MAX_BITS_PER_CHANNEL);
  }

  lemma OneChannel(use: seq<int>, root: real -> real, row: seq<int>)
    requires |use| == 1 && NonNegative(use) && GranuleShared(use, root, row)
    ensures |row| == 1 && 0 <= row[0] <= use[0] && row[0] <= MAX_BITS_PER_CHANNEL && Reservoirs.Sum(row) == row[0]
    ensures Reservoirs.Sum(use) == use[0]
  {
    hide SharedEvenly, Reservoirs.Sum;
    SumTwo(Capped(use));
    SumTwo(use);
  }

  lemma TwoChannels(use: seq<int>, root: real -> real, row: seq<int>)
    requires |use| == 2 && NonNegative(use) && GranuleShared(use, root, row) && Rootlike(root)
    ensures |row| == 2 && RowFits(row)
  {
    hide SpreadAs, Evened, Reservoirs.Sum;
    if !RowFits(Capped(use)) {
      Fourth(root);
      SharedWithin(Capped(use), use, MAX_BITS_PER_GRANULE, Twice(root), 32, MAX_BITS_PER_CHANNEL, row);
    }
  }

  lemma Fourth(root: real -> real)
    requires Rootlike(root)
    ensures forall x | x >= 0.0 :: Twice(root)(x) >= 0.0
  {
  }

  lemma {:induction false} TotalTwo(rows: seq<seq<int>>)
    requires 1 <= |rows| <= 2
    ensures Total(rows) == Reservoirs.Sum(Sums(rows))
    ensures Total(rows) == Reservoirs.Sum(rows[0]) + if |rows| == 2 then Reservoirs.Sum(rows[1]) else 0
  {
    hide Reservoirs.Sum;
    SumTwo(Sums(rows));
    assert rows[..0] == [] && rows[..1][..0] == [] && rows[..1][0] == rows[0] && rows[..|rows|] == rows;
    assert Total(rows[..0]) == 0 && Total(rows[..1]) == Reservoirs.Sum(rows[0]);
  }

  /** With the roots of real numbers the shares are always as described, and the targets are never fallen back to. */
  lemma NeverFallsBack(use: seq<seq<int>>, limit: int, channels: nat, root: real -> real, shares: seq<seq<int>>)
    requires 1 <= |use| <= 2 && 1 <= channels <= 2 && Shape(use, |use|, channels) && 0 <= limit && Rootlike(root)
    requires Redistributed(use, limit, root, shares)
    ensures FrameFits(shares, limit)
  {
    hide GranuleShared, FrameShared, Total, RowFits;
    var rows: seq<seq<int>> :| RedistributedBy(use, rows, limit, root, shares);
    AllRowsFit(use, rows, channels, root);
    if Total(rows) > limit {
      SharesFit(use, rows, limit, channels, root, shares);
    }
  }

  lemma AllRowsFit(use: seq<seq<int>>, rows: seq<seq<int>>, channels: nat, root: real -> real)
    requires |rows| == |use| && 1 <= channels <= 2 && Shape(use, |use|, channels) && Rootlike(root)
    requires forall gr | 0 <= gr < |use| :: GranuleShared(use[gr], root, rows[gr])
    ensures forall gr | 0 <= gr < |rows| :: |rows[gr]| == channels && RowFits(rows[gr])
  {
    hide GranuleShared, Reservoirs.Sum, Rootlike;
    forall gr | 0 <= gr < |rows|
      ensures |rows[gr]| == channels && RowFits(rows[gr])
    {
      assert |use[gr]| == channels && NonNegative(use[gr]);
      if channels == 1 {
        OneChannel(use[gr], root, rows[gr]);
      } else {
        TwoChannels(use[gr], root, rows[gr]);
      }
    }
  }

  lemma SharesFit(use: seq<seq<int>>, rows: seq<seq<int>>, limit: int, channels: nat, root: real -> real,
                  shares: seq<seq<int>>)
    requires 1 <= |rows| == |use| <= 2 && 1 <= channels <= 2 && Shape(use, |use|, channels) && Rootlike(root)
    requires forall gr | 0 <= gr < |use| :: GranuleShared(use[gr], root, rows[gr])
    requires forall gr | 0 <= gr < |rows| :: |rows[gr]| == channels && RowFits(rows[gr])
    requires 0 <= limit < Total(rows) && FrameShared(rows, use, limit, root, shares)
    ensures FrameFits(shares, limit)
  {
    hide GranuleShared, RowFits, SharedEvenly, Reservoirs.Sum, Total, RowsShared;
    var grs: seq<int> :| SharedEvenly(Sums(rows), Sums(use), limit, root, 125, MAX_BITS_PER_GRANULE, grs)
                         && RowsShared(rows, use, grs, root, shares);
    RootPositive(root);
    SumsPositive(use, channels);
    SharedWithin(Sums(rows), Sums(use), limit, root, 125, MAX_BITS_PER_GRANULE, grs);
    GranulesWithin(use, rows, limit, channels, root, grs);
    AllWithin(use, rows, limit, channels, root, grs, shares);
  }

  /** No granule gets more than it can have. */
  lemma GranulesWithin(use: seq<seq<int>>, rows: seq<seq<int>>, limit: int, channels: nat, root: real -> real,
                       grs: seq<int>)
    requires 1 <= |rows| == |use| <= 2 && 1 <= channels <= 2 && Shape(use, |use|, channels) && Rootlike(root)
    requires forall gr | 0 <= gr < |use| :: GranuleShared(use[gr], root, rows[gr])
    requires forall gr | 0 <= gr < |rows| :: |rows[gr]| == channels && RowFits(rows[gr])
    requires 0 <= limit < Total(rows)
    requires SharedEvenly(Sums(rows), Sums(use), limit, root, 125, MAX_BITS_PER_GRANULE, grs)
    ensures |grs| == |rows|
    ensures forall gr | 0 <= gr < |grs| ::
      0 <= grs[gr] <= if channels == 1 then MAX_BITS_PER_CHANNEL else MAX_BITS_PER_GRANULE
  {
    hide GranuleShared, SharedEvenly, Reservoirs.Sum, Total, Rootlike, RowFits;
    TotalTwo(rows);
    RootPositive(root);
    SumsPositive(use, channels);
    SharedWithin(Sums(rows), Sums(use), limit, root, 125, MAX_BITS_PER_GRANULE, grs);
    SumTwo(grs);
    forall gr | 0 <= gr < |rows|
      ensures channels == 1 ==> 0 <= Sums(rows)[gr] <= Sums(use)[gr] && Sums(rows)[gr] <= MAX_BITS_PER_CHANNEL
      ensures Sums(rows)[gr] <= MAX_BITS_PER_GRANULE
    {
      assert NonNegative(use[gr]);
      RowSum(rows[gr]);
      if channels == 1 { OneChannel(use[gr], root, rows[gr]); }
    }
    if |rows| == 2 && channels == 1 {
      TwoGranules(Sums(rows), Sums(use), limit, root, grs);
    } else if |rows| == 1 {
      assert grs[0] <= limit < Sums(rows)[0];
    }
  }

  lemma SumsPositive(use: seq<seq<int>>, channels: nat)
    requires 1 <= channels <= 2 && Shape(use, |use|, channels)
    ensures NonNegative(Sums(use))
  {
    forall gr | 0 <= gr < |use|
      ensures 0 <= Sums(use)[gr]
    {
      SumPositive(use[gr]);
    }
  }

  lemma RowSum(row: seq<int>)
    requires RowFits(row)
    ensures Reservoirs.Sum(row) <= MAX_BITS_PER_GRANULE
  {
  }

  lemma RootPositive(root: real -> real)
    requires Rootlike(root)
    ensures forall x | x >= 0.0 :: root(x) >= 0.0
  {
  }

  lemma AllWithin(use: seq<seq<int>>, rows: seq<seq<int>>, limit: int, channels: nat, root: real -> real,
                  grs: seq<int>, shares: seq<seq<int>>)
    requires 1 <= |rows| == |use| == |grs| <= 2 && 1 <= channels <= 2 && Shape(use, |use|, channels) && Rootlike(root)
    requires (forall gr | 0 <= gr < |rows| :: |rows[gr]| == channels) && Reservoirs.Sum(grs) <= limit
    requires forall gr | 0 <= gr < |grs| ::
      0 <= grs[gr] <= if channels == 1 then MAX_BITS_PER_CHANNEL else MAX_BITS_PER_GRANULE
    requires RowsShared(rows, use, grs, root, shares)
    ensures FrameFits(shares, limit)
  {
    hide SharedEvenly, Reservoirs.Sum, Total, Rootlike;
    RootPositive(root);
    forall gr | 0 <= gr < |shares|
      ensures RowFits(shares[gr]) && Reservoirs.Sum(shares[gr]) <= grs[gr]
    {
      SharedWithin(rows[gr], use[gr], grs[gr], root, 32, MAX_BITS_PER_CHANNEL, shares[gr]);
      SumTwo(shares[gr]);
    }
    TotalTwo(shares);
    SumTwo(grs);
  }

  lemma {:induction false} TotalPositive(use: seq<seq<int>>, channels: nat)
    requires 1 <= channels <= 2 && forall gr | 0 <= gr < |use| :: |use[gr]| == channels && NonNegative(use[gr])
    ensures 0 <= Total(use)
  {
    if use != [] {
      TotalPositive(use[..|use| - 1], channels);
      SumPositive(use[|use| - 1]);
    }
  }

  // ----- the frame

  /** What is asked of the quantizer: channels without energy are not quantized. */
  function Asks(maxBits: seq<seq<int>>, bits: seq<seq<int>>): (asks: seq<seq<int>>)
    requires |bits| == |maxBits| && forall gr | 0 <= gr < |bits| :: |bits[gr]| == |maxBits[gr]|
    ensures |asks| == |bits|
  {
    seq(|bits|, gr requires 0 <= gr < |bits| => AsksRow(maxBits[gr], bits[gr]))
  }

  function AsksRow(maxBits: seq<int>, bits: seq<int>): (asks: seq<int>)
    requires |bits| == |maxBits|
    ensures |asks| == |bits|
  {
    seq(|bits|, ch requires 0 <= ch < |bits| => if maxBits[ch] > 0 then bits[ch] else UNTOUCHED)
  }

  function AsIs(maxBits: seq<seq<int>>): (asks: seq<seq<int>>)
    ensures |asks| == |maxBits|
  {
    seq(|maxBits|, gr requires 0 <= gr < |maxBits| => AsIsRow(maxBits[gr]))
  }

  function AsIsRow(maxBits: seq<int>): (asks: seq<int>)
    ensures |asks| == |maxBits|
  {
    seq(|maxBits|, ch requires 0 <= ch < |maxBits| => if maxBits[ch] > 0 then AS_IS else UNTOUCHED)
  }

  /** `use` is how many bits the granules take that the quantizer makes when asked for `asks`: none more than it has
      left. */
  ghost predicate UsesRow(q: Quantizer, gr: nat, asks: seq<int>, use: seq<int>) {
    |use| == |asks| && forall ch | 0 <= ch < |use| :: 0 <= use[ch] <= Used(q(gr, ch, asks[ch]))
  }

  ghost predicate Asked(asks: seq<seq<int>>, channels: nat) {
    forall gr | 0 <= gr < |asks| :: AskedRow(asks[gr], channels)
  }

  ghost predicate AskedRow(asks: seq<int>, channels: nat) {
    |asks| == channels && forall ch | 0 <= ch < channels :: UNTOUCHED <= asks[ch]
  }

  /** One granule, channel by channel, and how many bits each takes. */
  method DraftGranule(r: Reservoir, d: Divider, gr: nat, asks: seq<int>, q: Quantizer, tt0: seq<GrInfo>)
    returns (tt: seq<GrInfo>, scfsi: seq<nat>, use: seq<int>)
    requires Working(r, d) && gr < r.modeGr && 1 <= |asks| <= 2 && AskedRow(asks, |asks|)
    requires Finishable(r.modeGr - 1, d.bands, q)
    requires Drafted(r.modeGr - 1, d.bands, q, |asks|, tt0, []) && |tt0| == Times(gr, |asks|)
    modifies r`resvSize
    ensures Drafted(r.modeGr - 1, d.bands, q, |asks|, tt, scfsi) && r.resvSize == old(r.resvSize)
    ensures |tt| == |tt0| + |asks| && tt[..|tt0|] == tt0 && |scfsi| == if gr == 1 then 4 * |asks| else 0
    ensures UsesRow(q, gr, asks, use) && UsedBits(tt) == UsedBits(tt0) + Reservoirs.Sum(use)
    ensures forall ch | 0 <= ch < |asks| :: use[ch] == Used(tt[|tt0| + ch])
    ensures CodedRow(q, gr, asks, tt, |tt0|)
  {
    hide CodedBy, Drafted, Finishable, Reservoirs.Sum, UsedBits, Used, Working, Quantized;
    var channels := |asks|;
    tt, scfsi, use := tt0, [], [];
    SumNone();
    for ch := 0 to channels
      invariant |tt| == |tt0| + ch && tt[..|tt0|] == tt0 && |scfsi| == if gr == 1 then 4 * ch else 0
      invariant Drafted(r.modeGr - 1, d.bands, q, channels, tt, scfsi) && r.resvSize == old(r.resvSize)
      invariant |use| == ch && UsedBits(tt) == UsedBits(tt0) + Reservoirs.Sum(use)
      invariant forall c | 0 <= c < ch :: use[c] == Used(tt[|tt0| + c]) && 0 <= use[c] <= Used(q(gr, c, asks[c]))
      invariant CodedRow(q, gr, asks[..ch], tt, |tt0|)
    {
      ghost var before := tt;
      FinishableAt(r.modeGr - 1, d.bands, q, gr, ch, asks[ch]);
      tt, scfsi := DraftOne(r, d, gr, ch, channels, asks[ch], q, tt, scfsi, false);
      assert forall c | 0 <= c < |before| :: tt[c] == before[c];
      assert tt[..|tt0|] == tt0;
      CodedOne(q, gr, asks, ch, before, tt, |tt0|);
      DraftedUsed(r.modeGr - 1, d.bands, q, channels, tt, scfsi, |tt0| + ch);
      SumAppend(use, Used(tt[|tt0| + ch]));
      use := use + [Used(tt[|tt0| + ch])];
    }
    assert asks[..channels] == asks;
  }

  lemma FinishableAt(version: nat, b: Bands, q: Quantizer, gr: nat, ch: nat, t: int)
    requires Finishable(version, b, q) && UNTOUCHED <= t
    ensures Quantized(version, b, q(gr, ch, t)) && |q(gr, ch, t).scalefac| == SFBMAX
  {
    hide Divided;
  }

  lemma DraftedUsed(version: nat, b: Bands, q: Quantizer, channels: nat, grs: seq<GrInfo>, scfsi: seq<nat>, i: nat)
    requires channels > 0 && Drafted(version, b, q, channels, grs, scfsi) && i < |grs|
    ensures 0 <= Used(grs[i])
  {
    hide Counted, AllTelling, AllCoded;
    assert Finished(version, b, grs[i]);
    GranuleLength(version, b, grs[i]);
  }

  /** All granules of a frame. */
  method DraftFrame(r: Reservoir, d: Divider, channels: nat, asks: seq<seq<int>>, q: Quantizer)
    returns (tt: seq<GrInfo>, scfsi: seq<nat>, use: seq<seq<int>>)
    requires Working(r, d) && 1 <= channels <= 2 && |asks| == r.modeGr && Asked(asks, channels)
    requires Finishable(r.modeGr - 1, d.bands, q)
    modifies r`resvSize
    ensures Drafted(r.modeGr - 1, d.bands, q, channels, tt, scfsi) && r.resvSize == old(r.resvSize)
    ensures |tt| == Times(r.modeGr, channels) && |scfsi| == if r.modeGr == 2 then 4 * channels else 0
    ensures Shape(use, r.modeGr, channels) && UsedBits(tt) == Total(use)
    ensures forall gr | 0 <= gr < |use| :: UsesRow(q, gr, asks[gr], use[gr])
    ensures (forall gr | 0 <= gr < |use| :: RowFits(use[gr])) ==> AllShort(tt)
    ensures CodedFor(q, asks, channels, tt)
  {
    hide Drafted, Finishable, Reservoirs.Sum, UsedBits, Used, Divider.Ready, Times, AskedRow, RowFits, CodedRow;
    tt, scfsi, use := [], [], [];
    NothingDrafted(r.modeGr - 1, d.bands, q, channels);
    TimesStep(0, channels);
    for gr := 0 to r.modeGr
      invariant |tt| == Times(gr, channels) && |scfsi| == if gr == 2 then 4 * channels else 0
      invariant Drafted(r.modeGr - 1, d.bands, q, channels, tt, scfsi) && r.resvSize == old(r.resvSize)
      invariant Shape(use, gr, channels) && UsedBits(tt) == Total(use)
      invariant forall k | 0 <= k < gr :: UsesRow(q, k, asks[k], use[k])
      invariant (forall k | 0 <= k < gr :: RowFits(use[k])) ==> AllShort(tt)
      invariant CodedFor(q, asks[..gr], channels, tt)
    {
      TimesStep(gr, channels);
      assert scfsi == [] && AskedRow(asks[gr], channels);
      AskedLength(asks[gr], channels);
      ghost var before := tt;
      var row;
      tt, scfsi, row := DraftGranule(r, d, gr, asks[gr], q, tt);
      ShortRow(before, tt, row);
      CodedMore(q, asks, gr, channels, before, tt);
      ghost var uses := use;
      use := use + [row];
      assert use[..gr] == uses;
      if forall k | 0 <= k < gr + 1 :: RowFits(use[k]) {
        assert forall k | 0 <= k < gr :: uses[k] == use[k];
      }
    }
    assert asks[..r.modeGr] == asks;
  }

  lemma AskedLength(asks: seq<int>, channels: nat)
    requires AskedRow(asks, channels)
    ensures |asks| == channels && AskedRow(asks, |asks|)
  {
  }

  lemma NothingDrafted(version: nat, b: Bands, q: Quantizer, channels: nat)
    requires channels > 0
    ensures Drafted(version, b, q, channels, [], []) && UsedBits([]) == 0 && Total([]) == 0 && AllShort([])
  {
  }

  lemma ShortRow(before: seq<GrInfo>, tt: seq<GrInfo>, row: seq<int>)
    requires |tt| == |before| + |row| && tt[..|before|] == before
    requires forall ch | 0 <= ch < |row| :: row[ch] == Used(tt[|before| + ch])
    ensures AllShort(before) && RowFits(row) ==> AllShort(tt)
    ensures (forall ch | 0 <= ch < |row| :: 0 <= row[ch]) ==> NonNegative(row)
  {
    hide Used;
    if AllShort(before) && RowFits(row) {
      forall i | 0 <= i < |tt|
        ensures Used(tt[i]) <= MAX_BITS_PER_CHANNEL
      {
        if i < |before| { assert tt[i] == before[i]; } else { assert row[i - |before|] == Used(tt[i]); }
      }
    }
  }

  /** Some granule takes more than its share, although the quantizer was asked to stay within it. */
  ghost predicate OverShare(q: Quantizer, maxBits: seq<seq<int>>, shares: seq<seq<int>>)
    requires |shares| == |maxBits| && forall gr | 0 <= gr < |shares| :: |shares[gr]| == |maxBits[gr]|
  {
    exists gr, ch | 0 <= gr < |shares| && 0 <= ch < |shares[gr]| ::
      Used(q(gr, ch, Asks(maxBits, shares)[gr][ch])) > shares[gr][ch]
  }

  /** Every granule within its share, as the source asserts after the second pass. */
  method CheckShares(use: seq<seq<int>>, shares: seq<seq<int>>, channels: nat) returns (ok: bool)
    requires |use| == |shares| && 1 <= channels <= 2
    requires forall gr | 0 <= gr < |use| :: |use[gr]| == |shares[gr]| == channels
    ensures ok <==> InShares(use, shares)
  {
    ok := true;
    for gr := 0 to |use|
      invariant ok <==> forall k, ch | 0 <= k < gr && 0 <= ch < |use[k]| :: use[k][ch] <= shares[k][ch]
    {
      for ch := 0 to channels
        invariant ok <==>
          && (forall k, c | 0 <= k < gr && 0 <= c < |use[k]| :: use[k][c] <= shares[k][c])
          && forall c | 0 <= c < ch :: use[gr][c] <= shares[gr][c]
      {
        if use[gr][ch] > shares[gr][ch] { ok := false; }
      }
    }
  }

  ghost predicate InShares(use: seq<seq<int>>, shares: seq<seq<int>>)
    requires |use| == |shares| && forall gr | 0 <= gr < |use| :: |use[gr]| == |shares[gr]|
  {
    forall gr, ch | 0 <= gr < |use| && 0 <= ch < |use[gr]| :: use[gr][ch] <= shares[gr][ch]
  }

  /** VBR_encode_frame.  If the granules as good as they ask to be keep the bit constraints, they are taken; if not,
      they are made again within shares that do, and `ok` is the assertion that they are.  Then they are within the
      frame's limit, so that the internal error after it never happens; and if they are not, then because the
      quantizer took more than it was asked to. */
  method VbrEncodeFrame(r: Reservoir, d: Divider, channels: nat, maxBits: seq<seq<int>>, q: Quantizer,
                        root: real -> real)
    returns (ok: bool, tt: seq<GrInfo>, scfsi: seq<nat>, ghost first: seq<seq<int>>, ghost shares: seq<seq<int>>,
             ghost last: seq<seq<int>>)
    requires Working(r, d) && 1 <= channels <= 2 && Shape(maxBits, r.modeGr, channels)
    requires FrameFits(maxBits, Total(maxBits)) && Finishable(r.modeGr - 1, d.bands, q)
    requires forall x | x >= 0.0 :: root(x) >= 0.0
    modifies r`resvSize
    ensures r.resvSize == old(r.resvSize)
    ensures |tt| == Times(r.modeGr, channels) && |scfsi| == if r.modeGr == 2 then 4 * channels else 0
    ensures Shape(first, r.modeGr, channels) && Shape(shares, r.modeGr, channels) && FrameFits(shares, Total(maxBits))
    ensures forall gr | 0 <= gr < r.modeGr :: UsesRow(q, gr, AsIs(maxBits)[gr], first[gr])
    ensures Shape(last, r.modeGr, channels) && UsedBits(tt) == Total(last)
    ensures if FrameFits(first, Total(maxBits)) then ok && last == first else ok <==> InShares(last, shares)
    ensures !FrameFits(first, Total(maxBits)) ==> Decided(first, maxBits, root, shares)
    ensures ok ==> Made(r.modeGr - 1, d.bands, q, channels, tt, scfsi) && UsedBits(tt) <= Total(maxBits)
    ensures !ok ==> OverShare(q, maxBits, shares)
    ensures CodedFor(q, if FrameFits(first, Total(maxBits)) then AsIs(maxBits) else Asks(maxBits, shares), channels, tt)
  {
    hide CodedFor, Drafted, Finishable, Reservoirs.Sum, UsedBits, Used, Divider.Ready, Times, RowFits, Total, AskedRow;
    hide UsesRow, Decided;
    AsIsAsked(maxBits, channels);
    var use;
    tt, scfsi, use := DraftFrame(r, d, channels, AsIs(maxBits), q);
    first, shares, last := use, maxBits, use;
    var maxNbitsFr := CountTotal(maxBits);
    ok := CheckFrame(use, maxNbitsFr);
    if ok { return; }
    var bits := Redistribute(use, maxBits, channels, root);
    shares := bits;
    SharesAsked(maxBits, bits, channels);
    tt, scfsi, use := DraftFrame(r, d, channels, Asks(maxBits, bits), q);
    last := use;
    ok := CheckShares(use, bits, channels);
    if ok {
      LessFits(use, bits, maxNbitsFr, channels);
    } else {
      var gr, ch :| 0 <= gr < |use| && 0 <= ch < |use[gr]| && use[gr][ch] > bits[gr][ch];
      UsesAt(q, gr, Asks(maxBits, bits)[gr], use[gr], ch);
    }
  }

  lemma UsesAt(q: Quantizer, gr: nat, asks: seq<int>, use: seq<int>, ch: nat)
    requires UsesRow(q, gr, asks, use) && ch < |use|
    ensures |asks| == |use| && use[ch] <= Used(q(gr, ch, asks[ch]))
  {
  }

  lemma AsIsAsked(maxBits: seq<seq<int>>, channels: nat)
    requires forall gr | 0 <= gr < |maxBits| :: |maxBits[gr]| == channels
    ensures Asked(AsIs(maxBits), channels)
  {
  }

  lemma SharesAsked(maxBits: seq<seq<int>>, bits: seq<seq<int>>, channels: nat)
    requires |bits| == |maxBits| && Shape(bits, |bits|, channels) && Shape(maxBits, |bits|, channels)
    ensures Asked(Asks(maxBits, bits), channels)
  {
  }

  /** Within shares that keep the constraints. */
  lemma {:induction false} LessFits(use: seq<seq<int>>, shares: seq<seq<int>>, limit: int, channels: nat)
    requires |use| == |shares| && 1 <= channels <= 2
    requires Shape(use, |use|, channels) && Shape(shares, |use|, channels)
    requires InShares(use, shares) && FrameFits(shares, limit)
    ensures FrameFits(use, limit) && Total(use) <= Total(shares)
  {
    hide Total, RowFits, Reservoirs.Sum;
    forall gr | 0 <= gr < |use|
      ensures RowFits(use[gr]) && Reservoirs.Sum(use[gr]) <= Reservoirs.Sum(shares[gr])
    {
      LessRow(use[gr], shares[gr]);
    }
    LessTotal(use, shares);
  }

  lemma LessRow(use: seq<int>, shares: seq<int>)
    requires 1 <= |use| == |shares| <= 2 && forall ch | 0 <= ch < |use| :: use[ch] <= shares[ch]
    ensures RowFits(shares) ==> RowFits(use)
    ensures Reservoirs.Sum(use) <= Reservoirs.Sum(shares)
  {
    SumTwo(use);
    SumTwo(shares);
  }

  lemma {:induction false} LessTotal(use: seq<seq<int>>, shares: seq<seq<int>>)
    requires |use| == |shares|
    requires forall gr | 0 <= gr < |use| :: Reservoirs.Sum(use[gr]) <= Reservoirs.Sum(shares[gr])
    ensures Total(use) <= Total(shares)
  {
    hide Reservoirs.Sum;
    if use != [] {
      var n := |use| - 1;
      assert forall gr | 0 <= gr < n :: use[..n][gr] == use[gr] && shares[..n][gr] == shares[gr];
      LessTotal(use[..n], shares[..n]);
    }
  }

  // ----- when it can fail

  /** The quantizer never takes more than it is asked to, and leaves nothing in channels without energy. */
  ghost predicate KeepsShares(q: Quantizer) {
    && (forall gr, ch, t | 0 <= t :: Used(q(gr, ch, t)) <= t)
    && forall gr, ch :: Used(q(gr, ch, UNTOUCHED)) <= 0
  }

  lemma NeverOver(q: Quantizer, maxBits: seq<seq<int>>, shares: seq<seq<int>>, modeGr: nat, channels: nat)
    requires Shape(maxBits, modeGr, channels) && Shape(shares, modeGr, channels) && KeepsShares(q)
    ensures !OverShare(q, maxBits, shares)
  {
    hide Used;
  }

  /** What the search for coarser gains promises a granule: it is within its target, or even with the coarsest gains it
      takes `coarsest` bits, which are more. */
  predicate MetUnlessCoarsest(used: int, coarsest: int, target: int) {
    used <= target || coarsest > target
  }

  /** The quantizer is such a search, and leaves nothing in channels without energy. */
  ghost predicate Strategic(q: Quantizer, coarsest: (nat, nat) -> int) {
    && (forall gr, ch, t | 0 <= t :: MetUnlessCoarsest(Used(q(gr, ch, t)), coarsest(gr, ch), t))
    && forall gr, ch :: Used(q(gr, ch, UNTOUCHED)) <= 0
  }

  /** Then the frame can fail only if for some granule even the coarsest gains take more than its share. */
  lemma FailsOnlyCoarsest(q: Quantizer, coarsest: (nat, nat) -> int, maxBits: seq<seq<int>>, shares: seq<seq<int>>,
                          modeGr: nat, channels: nat)
    requires Shape(maxBits, modeGr, channels) && Shape(shares, modeGr, channels)
    requires Strategic(q, coarsest) && OverShare(q, maxBits, shares)
    ensures exists gr, ch | 0 <= gr < modeGr && 0 <= ch < channels ::
      maxBits[gr][ch] > 0 && coarsest(gr, ch) > shares[gr][ch]
  {
    hide Used;
    var gr, ch :| 0 <= gr < |shares| && 0 <= ch < |shares[gr]|
                  && Used(q(gr, ch, Asks(maxBits, shares)[gr][ch])) > shares[gr][ch];
    assert Asks(maxBits, shares)[gr][ch] == if maxBits[gr][ch] > 0 then shares[gr][ch] else UNTOUCHED;
    assert MetUnlessCoarsest(Used(q(gr, ch, shares[gr][ch])), coarsest(gr, ch), shares[gr][ch]);
    assert maxBits[gr][ch] > 0 && coarsest(gr, ch) > shares[gr][ch];
  }
}

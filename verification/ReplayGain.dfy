/** ReplayGain analysis (gain_analysis.c), over exact reals: two recursive filters, and a histogram of the loudness
    of successive windows. However the samples are cut into calls, the result is that of one pass over all. */
module ReplayGain {
  import opened Bits

  const MAX_ORDER := 10
  const MAX_SAMPLES_PER_WINDOW := 2401
  /** STEPS_per_dB * MAX_dB */
  const LEVELS := 12000

  // ----- the filters

  /** The kernels of filterYule and filterButter: the input's and the output's coefficients take turns. */
  datatype Kernel = Kernel(tiny: real, order: nat, k: seq<real>)

  ghost predicate KernelOk(f: Kernel) { f.order <= MAX_ORDER && |f.k| == 2 * f.order + 1 }

  /** The terms of the `j` last samples: `x` ends with the present input, `y` with the last output. */
  function Terms(f: Kernel, x: seq<real>, y: seq<real>, j: nat): real
    requires j <= f.order <= MAX_ORDER && |f.k| == 2 * f.order + 1 && |x| == MAX_ORDER + 1 && |y| == MAX_ORDER
  {
    if j == 0 then f.tiny + x[MAX_ORDER] * f.k[0]
    else Terms(f, x, y, j - 1) - y[MAX_ORDER - j] * f.k[2 * j - 1] + x[MAX_ORDER - j] * f.k[2 * j]
  }

  function At(f: Kernel, x: seq<real>, y: seq<real>): real
    requires KernelOk(f) && |x| == MAX_ORDER + 1 && |y| == MAX_ORDER
  {
    Terms(f, x, y, f.order)
  }

  /** Silence before the first sample. */
  function Silence(): (z: seq<real>)
    ensures |z| == MAX_ORDER
  {
    [0.0, 0.0, 0.0, 0.0, 0.0, 0.0, 0.0, 0.0, 0.0, 0.0]
  }

  /** `n` outputs after the output history `y`, from the inputs `x`, which begin MAX_ORDER earlier. */
  function Continue(f: Kernel, x: seq<real>, y: seq<real>, n: nat): (r: seq<real>)
    requires KernelOk(f) && |y| == MAX_ORDER && MAX_ORDER + n <= |x|
    ensures |r| == MAX_ORDER + n
  {
    if n == 0 then y
    else
      var r := Continue(f, x, y, n - 1);
      r + [At(f, x[n - 1..n + MAX_ORDER], r[n - 1..])]
  }

  /** One pass of the filter over a whole stream. */
  function Filtered(f: Kernel, x: seq<real>): (y: seq<real>)
    requires KernelOk(f)
    ensures |y| == |x|
  {
    Continue(f, Silence() + x, Silence(), |x|)[MAX_ORDER..]
  }

  lemma {:induction false} ContinuePrefix(f: Kernel, x: seq<real>, y: seq<real>, m: nat, n: nat)
    requires KernelOk(f) && |y| == MAX_ORDER && m <= n && MAX_ORDER + n <= |x|
    ensures Continue(f, x, y, n)[..MAX_ORDER + m] == Continue(f, x, y, m)
    decreases n
  {
    hide At;
    if m < n {
      ContinuePrefix(f, x, y, m, n - 1);
      assert Continue(f, x, y, n)[..MAX_ORDER + m] == Continue(f, x, y, n - 1)[..MAX_ORDER + m];
    }
  }

  lemma {:induction false} ContinueSame(f: Kernel, x: seq<real>, z: seq<real>, y: seq<real>, n: nat)
    requires KernelOk(f) && |y| == MAX_ORDER && MAX_ORDER + n <= |x| && MAX_ORDER + n <= |z|
    requires x[..MAX_ORDER + n] == z[..MAX_ORDER + n]
    ensures Continue(f, x, y, n) == Continue(f, z, y, n)
  {
    hide At;
    if n > 0 {
      assert x[..MAX_ORDER + n - 1] == x[..MAX_ORDER + n][..MAX_ORDER + n - 1] == z[..MAX_ORDER + n - 1];
      ContinueSame(f, x, z, y, n - 1);
      assert x[n - 1..n + MAX_ORDER] == x[..MAX_ORDER + n][n - 1..] == z[n - 1..n + MAX_ORDER];
    }
  }

  /** Stopping and going on from the last outputs is the same as going on without stopping. */
  lemma {:induction false} ContinueSplit(f: Kernel, x: seq<real>, y: seq<real>, m: nat, n: nat)
    requires KernelOk(f) && |y| == MAX_ORDER && MAX_ORDER + m + n <= |x|
    ensures Continue(f, x, y, m + n)[m..] == Continue(f, x[m..], Continue(f, x, y, m)[m..], n)
  {
    hide At;
    if n > 0 {
      ContinueSplit(f, x, y, m, n - 1);
      var r, s := Continue(f, x, y, m + n - 1), Continue(f, x[m..], Continue(f, x, y, m)[m..], n - 1);
      assert r[m..] == s;
      assert r[m + n - 1..] == r[m..][n - 1..] == s[n - 1..];
      assert x[m + n - 1..m + n + MAX_ORDER] == x[m..][n - 1..n + MAX_ORDER];
    }
  }

  /** filterYule and filterButter, in place: `n` outputs from `at` on. */
  method Filter(f: Kernel, input: seq<real>, output: array<real>, at: nat, n: nat)
    requires KernelOk(f) && |input| == MAX_ORDER + n && MAX_ORDER <= at && at + n <= output.Length
    modifies output
    ensures output[at - MAX_ORDER..at + n] == Continue(f, input, old(output[at - MAX_ORDER..at]), n)
    ensures output[..at] == old(output[..at])
  {
    hide At;
    ghost var y := output[at - MAX_ORDER..at];
    for i := 0 to n
      invariant output[at - MAX_ORDER..at + i] == Continue(f, input, y, i)
      invariant output[..at] == old(output[..at])
    {
      ghost var done := output[at - MAX_ORDER..at + i];
      assert output[at + i - MAX_ORDER..at + i] == done[i..];
      output[at + i] := At(f, input[i..i + MAX_ORDER + 1], output[at + i - MAX_ORDER..at + i]);
      assert output[at - MAX_ORDER..at + i] == done;
      assert output[at - MAX_ORDER..at + i + 1] == done + [output[at + i]];
    }
  }

  // ----- the filters as difference equations

  /** A sample, and silence before the stream. */
  function Past(s: seq<real>, n: int): real { if 0 <= n < |s| then s[n] else 0.0 }

  /** The eleven inputs up to sample `n`, and the ten outputs before it. */
  function Inputs(x: seq<real>, n: int): (w: seq<real>)
    ensures |w| == MAX_ORDER + 1
  {
    seq(MAX_ORDER + 1, i requires 0 <= i <= MAX_ORDER => Past(x, n - MAX_ORDER + i))
  }

  function Outputs(y: seq<real>, n: int): (w: seq<real>)
    ensures |w| == MAX_ORDER
  {
    seq(MAX_ORDER, i requires 0 <= i < MAX_ORDER => Past(y, n - MAX_ORDER + i))
  }

  lemma OneMore(f: Kernel, x: seq<real>, y: seq<real>, n: nat)
    requires KernelOk(f) && |y| == MAX_ORDER && MAX_ORDER + n + 1 <= |x|
    ensures Continue(f, x, y, n + 1)
         == Continue(f, x, y, n) + [At(f, x[n..n + 1 + MAX_ORDER], Continue(f, x, y, n)[n..])]
  {
    hide At;
  }

  lemma SilenceIs(i: nat)
    requires i < MAX_ORDER
    ensures Silence()[i] == 0.0
  {
  }

  lemma PaddedAt(s: seq<real>, i: nat)
    requires i < MAX_ORDER + |s|
    ensures (Silence() + s)[i] == Past(s, i - MAX_ORDER)
  {
    hide Silence;
    if i < MAX_ORDER { SilenceIs(i); }
  }

  /** Every output is made of the inputs and outputs before it. */
  lemma FilteredAt(f: Kernel, x: seq<real>, n: nat)
    requires KernelOk(f) && n < |x|
    ensures Filtered(f, x)[n] == At(f, Inputs(x, n), Outputs(Filtered(f, x), n))
  {
    hide At, Silence, Past, Filtered, Continue;
    var z, y := Silence(), Filtered(f, x);
    var all := Continue(f, z + x, z, |x|);
    FilteredIs(f, x);
    ContinuePrefix(f, z + x, z, n + 1, |x|);
    ContinuePrefix(f, z + x, z, n, |x|);
    var r := Continue(f, z + x, z, n);
    OneMore(f, z + x, z, n);
    assert all[..MAX_ORDER + n + 1] == r + [At(f, (z + x)[n..n + 1 + MAX_ORDER], r[n..])];
    assert y[n] == all[MAX_ORDER + n] == all[..MAX_ORDER + n + 1][MAX_ORDER + n];
    forall i | 0 <= i <= MAX_ORDER
      ensures (z + x)[n..n + 1 + MAX_ORDER][i] == Inputs(x, n)[i]
      ensures i < MAX_ORDER ==> r[n..][i] == Outputs(y, n)[i]
    {
      PaddedAt(x, n + i);
      if i < MAX_ORDER {
        PaddedAt(y, n + i);
        assert r[n + i] == all[..MAX_ORDER + n][n + i] == (z + y)[n + i];
      }
    }
    assert (z + x)[n..n + 1 + MAX_ORDER] == Inputs(x, n);
    assert r[n..] == Outputs(y, n);
  }

  lemma TermsStep(f: Kernel, x: seq<real>, y: seq<real>, n: int, j: nat)
    requires KernelOk(f) && 0 < j <= f.order
    ensures Terms(f, Inputs(x, n), Outputs(y, n), j)
         == Terms(f, Inputs(x, n), Outputs(y, n), j - 1) - Past(y, n - j) * f.k[2 * j - 1] + Past(x, n - j) * f.k[2 * j]
    ensures Terms(f, Inputs(x, n), Outputs(y, n), 0) == f.tiny + Past(x, n) * f.k[0]
  {
  }

  /** filterButter */
  lemma ButterEquation(f: Kernel, x: seq<real>, n: nat)
    requires KernelOk(f) && f.order == 2 && n < |x|
    ensures var y, k := Filtered(f, x), f.k;
      y[n] == f.tiny + x[n] * k[0] - Past(y, n - 1) * k[1] + Past(x, n - 1) * k[2]
              - Past(y, n - 2) * k[3] + Past(x, n - 2) * k[4]
  {
    hide Terms, Filtered, Inputs, Outputs, Past;
    var y := Filtered(f, x);
    FilteredAt(f, x, n);
    TermsStep(f, x, y, n, 1);
    TermsStep(f, x, y, n, 2);
    PastInside(x, n);
  }

  lemma PastInside(s: seq<real>, n: nat)
    requires n < |s|
    ensures Past(s, n) == s[n]
  {
  }

  /** filterYule */
  lemma YuleEquation(f: Kernel, x: seq<real>, n: nat)
    requires KernelOk(f) && f.order == 10 && n < |x|
    ensures var y, k := Filtered(f, x), f.k;
      y[n] == f.tiny + x[n] * k[0]
              - Past(y, n - 1) * k[1] + Past(x, n - 1) * k[2] - Past(y, n - 2) * k[3] + Past(x, n - 2) * k[4]
              - Past(y, n - 3) * k[5] + Past(x, n - 3) * k[6] - Past(y, n - 4) * k[7] + Past(x, n - 4) * k[8]
              - Past(y, n - 5) * k[9] + Past(x, n - 5) * k[10] - Past(y, n - 6) * k[11] + Past(x, n - 6) * k[12]
              - Past(y, n - 7) * k[13] + Past(x, n - 7) * k[14] - Past(y, n - 8) * k[15] + Past(x, n - 8) * k[16]
              - Past(y, n - 9) * k[17] + Past(x, n - 9) * k[18] - Past(y, n - 10) * k[19] + Past(x, n - 10) * k[20]
  {
    hide Terms, Filtered, Inputs, Outputs, Past;
    var y := Filtered(f, x);
    FilteredAt(f, x, n);
    TermsStep(f, x, y, n, 1); TermsStep(f, x, y, n, 2); TermsStep(f, x, y, n, 3); TermsStep(f, x, y, n, 4);
    TermsStep(f, x, y, n, 5); TermsStep(f, x, y, n, 6); TermsStep(f, x, y, n, 7); TermsStep(f, x, y, n, 8);
    TermsStep(f, x, y, n, 9); TermsStep(f, x, y, n, 10);
    PastInside(x, n);
  }

  /** What an impulse becomes at first. */
  lemma Impulse(f: Kernel)
    requires KernelOk(f) && (f.order == 2 || f.order == 10)
    ensures var y, k := Filtered(f, [1.0, 0.0, 0.0]), f.k;
      && |y| == 3 && y[0] == f.tiny + k[0] && y[1] == f.tiny + k[2] - y[0] * k[1]
      && y[2] == f.tiny + k[4] - y[1] * k[1] - y[0] * k[3]
  {
    hide Filtered;
    var x := [1.0, 0.0, 0.0];
    forall n | 0 <= n < 3
      ensures var y, k := Filtered(f, x), f.k;
        y[n] == f.tiny + x[n] * k[0] - Past(y, n - 1) * k[1] + Past(x, n - 1) * k[2]
                - Past(y, n - 2) * k[3] + Past(x, n - 2) * k[4]
    {
      if f.order == 2 { ButterEquation(f, x, n); } else { YuleEquation(f, x, n); }
    }
  }

  // ----- loudness

  function SquareSum(s: seq<real>): real {
    if s == [] then 0.0 else SquareSum(s[..|s| - 1]) + s[|s| - 1] * s[|s| - 1]
  }

  lemma {:induction false} SquareSumConcat(s: seq<real>, t: seq<real>)
    ensures SquareSum(s + t) == SquareSum(s) + SquareSum(t)
  {
    if t == [] {
      assert s + t == s;
    } else {
      SquareSumConcat(s, t[..|t| - 1]);
      assert (s + t)[..|s + t| - 1] == s + t[..|t| - 1];
    }
  }

  lemma SquareSumEight(s: seq<real>)
    requires |s| == 8
    ensures SquareSum(s) == s[0] * s[0] + s[1] * s[1] + s[2] * s[2] + s[3] * s[3]
      + s[4] * s[4] + s[5] * s[5] + s[6] * s[6] + s[7] * s[7]
  {
    SquareSumNext(s, 7); SquareSumNext(s, 6); SquareSumNext(s, 5); SquareSumNext(s, 4);
    SquareSumNext(s, 3); SquareSumNext(s, 2); SquareSumNext(s, 1); SquareSumNext(s, 0);
    assert s[..8] == s;
  }

  lemma SquareSumNext(s: seq<real>, k: nat)
    requires k < |s|
    ensures SquareSum(s[..k + 1]) == SquareSum(s[..k]) + s[k] * s[k]
    ensures SquareSum(s[..0]) == 0.0
  {
    assert s[..k + 1][..k] == s[..k];
  }

  function Fsqr(d: real): real { d * d }

  /** The loops of AnalyzeSamples that add up squares, first one by one and then by eights. */
  method AddSquares(cur: seq<real>, sum0: real) returns (sum: real)
    ensures sum == sum0 + SquareSum(cur)
  {
    sum := sum0;
    var p := 0;
    var i := |cur| % 8;
    while i > 0
      invariant 0 <= i <= |cur| % 8 && p == |cur| % 8 - i
      invariant sum == sum0 + SquareSum(cur[..p])
    {
      SquareSumNext(cur, p);
      sum := sum + Fsqr(cur[p]);
      p, i := p + 1, i - 1;
    }
    i := |cur| / 8;
    while i > 0
      invariant 0 <= i <= |cur| / 8 && p + 8 * i == |cur|
      invariant sum == sum0 + SquareSum(cur[..p])
    {
      SquareSumEight(cur[p..p + 8]);
      SquareSumConcat(cur[..p], cur[p..p + 8]);
      assert cur[..p] + cur[p..p + 8] == cur[..p + 8];
      sum := sum + (Fsqr(cur[p]) + Fsqr(cur[p + 1]) + Fsqr(cur[p + 2]) + Fsqr(cur[p + 3])
                    + Fsqr(cur[p + 4]) + Fsqr(cur[p + 5]) + Fsqr(cur[p + 6]) + Fsqr(cur[p + 7]));
      p, i := p + 8, i - 1;
    }
    assert cur[..p] == cur;
  }

  // ----- one channel

  /** The last MAX_ORDER samples of a stream, silence before it included. */
  function Tail(x: seq<real>): (t: seq<real>)
    ensures |t| == MAX_ORDER
  {
    (Silence() + x)[|x|..]
  }

  /** What a buffer holds that has the history and `t` further samples. */
  function Recent(x: seq<real>, t: nat): (r: seq<real>)
    requires t <= |x|
    ensures |r| == MAX_ORDER + t
  {
    (Silence() + x)[|x| - t..]
  }

  lemma ContinueKeeps(f: Kernel, x: seq<real>, y: seq<real>, n: nat)
    requires KernelOk(f) && |y| == MAX_ORDER && MAX_ORDER + n <= |x|
    ensures Continue(f, x, y, n)[..MAX_ORDER] == y
  {
    ContinuePrefix(f, x, y, 0, n);
    assert Continue(f, x, y, 0) == y;
  }

  lemma FilteredIs(f: Kernel, x: seq<real>)
    requires KernelOk(f)
    ensures Silence() + Filtered(f, x) == Continue(f, Silence() + x, Silence(), |x|)
  {
    hide At, Continue, Silence;
    ContinueKeeps(f, Silence() + x, Silence(), |x|);
  }

  /** The filter goes on from where it stopped, given the last inputs and outputs. */
  lemma FilteredMore(f: Kernel, x: seq<real>, s: seq<real>)
    requires KernelOk(f)
    ensures Filtered(f, x + s)[..|x|] == Filtered(f, x)
    ensures Recent(Filtered(f, x + s), |s|) == Continue(f, Tail(x) + s, Tail(Filtered(f, x)), |s|)
  {
    hide At, Continue, Silence, Filtered;
    var z, in2 := Silence(), Silence() + (x + s);
    FilteredIs(f, x);
    FilteredIs(f, x + s);
    ContinueSame(f, z + x, in2, z, |x|) by { assert in2[..MAX_ORDER + |x|] == z + x; }
    ContinuePrefix(f, in2, z, |x|, |x| + |s|);
    FrontOf(z, Filtered(f, x + s), Filtered(f, x));
    ContinueSplit(f, in2, z, |x|, |s|);
    assert in2[|x|..] == Tail(x) + s;
  }

  lemma FrontOf(z: seq<real>, long: seq<real>, short: seq<real>)
    requires |short| <= |long| && (z + long)[..|z| + |short|] == z + short
    ensures long[..|short|] == short
  {
    assert long[..|short|] == (z + long)[..|z| + |short|][|z|..];
    assert short == (z + short)[|z|..];
  }

  /** A buffer that has been filtered into has the recent part of the longer stream. */
  lemma BufferGrows(f: Kernel, x: seq<real>, s: seq<real>, t: nat, before: seq<real>, after: seq<real>)
    requires KernelOk(f) && t <= |x| && before == Recent(Filtered(f, x), t)
    requires |after| == |before| + |s| && after[..|before|] == before
    requires after[t..] == Continue(f, Tail(x) + s, before[t..], |s|)
    ensures after == Recent(Filtered(f, x + s), t + |s|)
  {
    hide At, Continue, Filtered, Recent, Tail;
    FilteredMore(f, x, s);
    TailOfRecent(Filtered(f, x), t);
    RecentGrows(Filtered(f, x), Filtered(f, x + s), t, |s|, before, after);
  }

  lemma TailOfRecent(y: seq<real>, t: nat)
    requires t <= |y|
    ensures Recent(y, t)[t..] == Tail(y)
  {
  }

  lemma RecentGrows(y: seq<real>, y': seq<real>, t: nat, m: nat, before: seq<real>, after: seq<real>)
    requires t <= |y| && |y'| == |y| + m && y'[..|y|] == y && before == Recent(y, t)
    requires |after| == |before| + m && after[..|before|] == before && after[t..] == Recent(y', m)
    ensures after == Recent(y', t + m)
  {
    var all := Silence() + y';
    assert all[|y| - t..|y| + MAX_ORDER] == (Silence() + y)[|y| - t..];
    assert all[|y| - t..] == all[|y| - t..|y| + MAX_ORDER] + all[|y| + MAX_ORDER..];
    assert all[|y| + MAX_ORDER..] == Recent(y', m)[MAX_ORDER..] == after[t..][MAX_ORDER..];
    assert after == after[..|before|] + after[t..][MAX_ORDER..];
  }

  class Channel {
    const yule: Kernel
    const butter: Kernel
    const prebuf: array<real>
    const stepbuf: array<real>
    const outbuf: array<real>
    var sum: real
    /** All samples so far. */
    ghost var x: seq<real>

    constructor (yule: Kernel, butter: Kernel)
      requires KernelOk(yule) && KernelOk(butter)
      ensures Filled(0) && prebuf[..MAX_ORDER] == Tail(x) && x == []
      ensures this.yule == yule && this.butter == butter && fresh(prebuf) && fresh(stepbuf) && fresh(outbuf)
    {
      this.yule, this.butter := yule, butter;
      prebuf := new real[2 * MAX_ORDER](_ => 0.0);
      stepbuf := new real[MAX_SAMPLES_PER_WINDOW + MAX_ORDER](_ => 0.0);
      outbuf := new real[MAX_SAMPLES_PER_WINDOW + MAX_ORDER](_ => 0.0);
      sum, x := 0.0, [];
    }

    ghost function Steps(): seq<real>
      requires KernelOk(yule)
      reads `x
    {
      Filtered(yule, x)
    }

    /** What one pass of both filters makes of all samples so far. */
    ghost function Out(): (o: seq<real>)
      requires KernelOk(yule) && KernelOk(butter)
      reads `x
      ensures |o| == |x|
    {
      Filtered(butter, Steps())
    }

    ghost predicate Buffers() {
      && KernelOk(yule) && KernelOk(butter)
      && prebuf.Length == 2 * MAX_ORDER && stepbuf.Length == outbuf.Length == MAX_SAMPLES_PER_WINDOW + MAX_ORDER
      && prebuf != stepbuf && prebuf != outbuf && stepbuf != outbuf
    }

    /** The buffers have what the filters make of the last `t` samples, and before that the history. */
    ghost predicate Filled(t: nat)
      reads this, stepbuf, outbuf
    {
      && Buffers() && t <= |x| && t <= MAX_SAMPLES_PER_WINDOW
      && stepbuf[..MAX_ORDER + t] == Recent(Steps(), t)
      && outbuf[..MAX_ORDER + t] == Recent(Out(), t)
      && sum == SquareSum(Out()[|x| - t..])
    }

    /** Both filters over some samples; `input` begins with the history. */
    method Chunk(input: seq<real>, t: nat)
      requires |input| >= MAX_ORDER && Filled(t) && t + |input| - MAX_ORDER <= MAX_SAMPLES_PER_WINDOW
      requires input[..MAX_ORDER] == Tail(x)
      modifies this, stepbuf, outbuf
      ensures Filled(t + |input| - MAX_ORDER) && x == old(x) + input[MAX_ORDER..]
    {
      hide Filtered, SquareSum, Recent, Tail, KernelOk, Continue;
      var n := |input| - MAX_ORDER;
      ghost var x0, s := x, input[MAX_ORDER..];
      ghost var y, y' := Filtered(yule, x0), Filtered(yule, x0 + s);
      assert input == Tail(x) + s;
      Through(yule, input, stepbuf, t, x0, s);
      Through(butter, stepbuf[t..MAX_ORDER + t + n], outbuf, t, y, y'[|x0|..]);
      FilteredMore(yule, x0, s);
      assert y' == y + y'[|x0|..];
      x := x + s;
      ghost var o, o' := Filtered(butter, y), Filtered(butter, y');
      FilteredMore(butter, y, y'[|x0|..]);
      TailEnd(o, o'[|x0|..], outbuf[t..MAX_ORDER + t + n]);
      assert outbuf[t..MAX_ORDER + t + n][MAX_ORDER..] == outbuf[MAX_ORDER + t..MAX_ORDER + t + n];
      sum := AddSquares(outbuf[MAX_ORDER + t..MAX_ORDER + t + n], sum);
      SumMore(o, o', t);
    }

    /** The first memcpy of AnalyzeSamples: the first samples behind the history. */
    method TakeFirst(samples: seq<real>)
      requires Buffers() && prebuf[..MAX_ORDER] == Tail(x)
      modifies prebuf
      ensures prebuf[..MAX_ORDER] == Tail(x)
      ensures prebuf[MAX_ORDER..MAX_ORDER + Least(|samples|)] == samples[..Least(|samples|)]
    {
      CopyTo(prebuf, MAX_ORDER, samples[..Least(|samples|)]);
    }

    /** Where the filters read from: the buffer as long as they still need the history, then the samples. */
    function InputAt(samples: seq<real>, pos: nat, n: nat): (input: seq<real>)
      requires Buffers() && pos + n <= |samples| && (pos < MAX_ORDER ==> n <= MAX_ORDER - pos)
      reads prebuf
      ensures |input| == MAX_ORDER + n
    {
      if pos < MAX_ORDER then prebuf[pos..pos + MAX_ORDER + n] else samples[pos - MAX_ORDER..pos + n]
    }

    /** Either way they find the last samples and the next. */
    lemma InputRight(x0: seq<real>, samples: seq<real>, pos: nat, n: nat)
      requires Buffers() && prebuf[..MAX_ORDER] == Tail(x0)
      requires prebuf[MAX_ORDER..MAX_ORDER + Least(|samples|)] == samples[..Least(|samples|)]
      requires pos + n <= |samples| && (pos < MAX_ORDER ==> n <= MAX_ORDER - pos)
      ensures InputAt(samples, pos, n) == Tail(x0 + samples[..pos]) + samples[pos..pos + n]
    {
      hide Tail;
      if pos < MAX_ORDER {
        var m := Least(|samples|);
        InputFirst(prebuf[..], Tail(x0), samples, pos, n, m);
        TailShort(x0, samples[..pos], Tail(x0)[pos..] + samples[..pos]);
      } else {
        TailLong(x0, samples[..pos]);
        InputLater(samples, pos, n);
      }
    }

    /** The next `n` samples of a call go through both filters. */
    method HearSome(ghost x0: seq<real>, samples: seq<real>, pos: nat, n: nat, t: nat)
      requires Buffers() && Filled(t) && t + n <= MAX_SAMPLES_PER_WINDOW && pos + n <= |samples|
      requires (pos < MAX_ORDER ==> n <= MAX_ORDER - pos) && x == x0 + samples[..pos] && prebuf[..MAX_ORDER] == Tail(x0)
      requires prebuf[MAX_ORDER..MAX_ORDER + Least(|samples|)] == samples[..Least(|samples|)]
      modifies this, stepbuf, outbuf
      ensures Filled(t + n) && x == x0 + samples[..pos + n] && old(Out()) <= Out()
    {
      hide Filtered, Tail, InputAt, Filled, Out;
      ghost var before := x;
      InputRight(x0, samples, pos, n);
      var input := InputAt(samples, pos, n);
      InputParts(input, Tail(x), samples, pos, n);
      OutIs();
      Chunk(input, t);
      OutIs();
      OutMore(yule, butter, before, samples[pos..pos + n]);
      assert x0 + samples[..pos] + samples[pos..pos + n] == x0 + samples[..pos + n];
    }

    lemma OutIs()
      requires KernelOk(yule) && KernelOk(butter)
      ensures Out() == Filtered(butter, Filtered(yule, x))
    {
    }

    /** The memmoves and memcpys at the end of AnalyzeSamples: the last samples become the history. */
    method KeepLast(samples: seq<real>, ghost x0: seq<real>)
      requires Buffers() && prebuf[..MAX_ORDER] == Tail(x0)
      modifies prebuf
      ensures prebuf[..MAX_ORDER] == Tail(x0 + samples)
    {
      ghost var h := prebuf[..MAX_ORDER];
      var n := |samples|;
      if n < MAX_ORDER {
        MoveDown(prebuf, n, MAX_ORDER - n);
        CopyTo(prebuf, MAX_ORDER - n, samples);
        assert prebuf[..MAX_ORDER] == prebuf[..MAX_ORDER - n] + prebuf[MAX_ORDER - n..MAX_ORDER];
        TailShort(x0, samples, prebuf[..MAX_ORDER]);
      } else {
        CopyTo(prebuf, 0, samples[n - MAX_ORDER..]);
        TailLong(x0, samples);
      }
    }

    /** What GetTitleGain does to a channel. */
    method Silenced()
      requires Buffers()
      modifies this, prebuf, stepbuf, outbuf
      ensures Filled(0) && x == [] && prebuf[..MAX_ORDER] == Tail([])
    {
      hide Filtered;
      CopyTo(prebuf, 0, Silence());
      CopyTo(stepbuf, 0, Silence());
      CopyTo(outbuf, 0, Silence());
      sum, x := 0.0, [];
    }

    /** What happens to the channel at the end of a window: only the history is kept. */
    method Rewind(t: nat)
      requires Filled(t)
      modifies this`sum, stepbuf, outbuf
      ensures Filled(0)
    {
      hide Filtered;
      ghost var a, b := stepbuf[..MAX_ORDER + t], outbuf[..MAX_ORDER + t];
      MoveDown(outbuf, t, MAX_ORDER);
      assert outbuf[..MAX_ORDER] == b[t..];
      MoveDown(stepbuf, t, MAX_ORDER);
      assert stepbuf[..MAX_ORDER] == a[t..];
      sum := 0.0;
    }
  }

  function Least(n: nat): nat { if n < MAX_ORDER then n else MAX_ORDER }

  /** memmove(buf, buf + t, n) */
  method MoveDown(buf: array<real>, t: nat, n: nat)
    requires n + t <= buf.Length
    modifies buf
    ensures buf[..n] == old(buf[t..t + n])
  {
    for i := 0 to n
      invariant forall k | 0 <= k < i :: buf[k] == old(buf[t + k])
      invariant forall k | i <= k < buf.Length :: buf[k] == old(buf[k])
    {
      buf[i] := buf[t + i];
    }
  }

  /** memcpy(buf + at, src, |src|) */
  method CopyTo(buf: array<real>, at: nat, src: seq<real>)
    requires at + |src| <= buf.Length
    modifies buf
    ensures buf[at..at + |src|] == src && buf[..at] == old(buf[..at])
  {
    for i := 0 to |src|
      invariant buf[at..at + i] == src[..i] && buf[..at] == old(buf[..at])
    {
      buf[at + i] := src[i];
    }
  }

  lemma InputParts(input: seq<real>, h: seq<real>, s: seq<real>, pos: nat, n: nat)
    requires |h| == MAX_ORDER && pos + n <= |s| && input == h + s[pos..pos + n]
    ensures input[..MAX_ORDER] == h && input[MAX_ORDER..] == s[pos..pos + n] && |input| == MAX_ORDER + n
  {
  }

  lemma InputFirst(buf: seq<real>, h: seq<real>, s: seq<real>, pos: nat, n: nat, m: nat)
    requires |h| == MAX_ORDER && pos + n <= m <= |s| && pos < MAX_ORDER && MAX_ORDER + m <= |buf|
    requires buf[..MAX_ORDER] == h && buf[MAX_ORDER..MAX_ORDER + m] == s[..m]
    ensures buf[pos..pos + MAX_ORDER + n] == h[pos..] + s[..pos] + s[pos..pos + n]
  {
    assert buf[..MAX_ORDER + m] == h + s[..m];
    assert buf[pos..pos + MAX_ORDER + n] == (h + s[..m])[pos..pos + MAX_ORDER + n];
  }

  lemma InputLater(s: seq<real>, pos: nat, n: nat)
    requires MAX_ORDER <= pos && pos + n <= |s|
    ensures s[pos - MAX_ORDER..pos + n] == s[..pos][pos - MAX_ORDER..] + s[pos..pos + n]
  {
  }

  lemma TailShort(x0: seq<real>, samples: seq<real>, tail: seq<real>)
    requires |samples| <= MAX_ORDER && tail == Tail(x0)[|samples|..] + samples
    ensures tail == Tail(x0 + samples)
  {
    assert Silence() + (x0 + samples) == (Silence() + x0) + samples;
  }

  lemma TailLong(x0: seq<real>, samples: seq<real>)
    requires |samples| >= MAX_ORDER
    ensures Tail(x0 + samples) == samples[|samples| - MAX_ORDER..]
  {
  }

  lemma SumMore(o: seq<real>, o': seq<real>, t: nat)
    requires t <= |o| <= |o'| && o'[..|o|] == o
    ensures SquareSum(o'[|o| - t..]) == SquareSum(o[|o| - t..]) + SquareSum(o'[|o|..])
  {
    hide SquareSum;
    SquareSumConcat(o[|o| - t..], o'[|o|..]);
    assert o'[|o| - t..] == o[|o| - t..] + o'[|o|..];
  }

  lemma TailEnd(y: seq<real>, more: seq<real>, buf: seq<real>)
    requires buf == Tail(y) + more
    ensures buf[MAX_ORDER..] == more
  {
  }

  /** One filter over some samples `s` of the stream `x`, into a buffer with `t` samples of its output. */
  method Through(f: Kernel, input: seq<real>, buf: array<real>, t: nat, ghost x: seq<real>, ghost s: seq<real>)
    requires KernelOk(f) && t <= |x| && input == Tail(x) + s && MAX_ORDER + t + |s| <= buf.Length
    requires buf[..MAX_ORDER + t] == Recent(Filtered(f, x), t)
    modifies buf
    ensures buf[..MAX_ORDER + t + |s|] == Recent(Filtered(f, x + s), t + |s|)
    ensures buf[t..MAX_ORDER + t + |s|] == Tail(Filtered(f, x)) + Filtered(f, x + s)[|x|..]
  {
    hide Continue, Filtered, Tail, Recent;
    ghost var before := buf[..MAX_ORDER + t];
    assert buf[t..MAX_ORDER + t] == before[t..];
    Filter(f, input, buf, MAX_ORDER + t, |input| - MAX_ORDER);
    ghost var after := buf[..MAX_ORDER + t + |s|];
    assert after[t..] == buf[t..MAX_ORDER + t + |s|];
    assert after[..MAX_ORDER + t] == before;
    BufferGrows(f, x, s, t, before, after);
    FilteredMore(f, x, s);
    assert Filtered(f, x + s) == Filtered(f, x) + Filtered(f, x + s)[|x|..];
    RecentSplit(Filtered(f, x), Filtered(f, x + s)[|x|..], t, after);
  }

  lemma RecentSplit(y: seq<real>, more: seq<real>, t: nat, buf: seq<real>)
    requires t <= |y| && buf == Recent(y + more, t + |more|)
    ensures buf[t..] == Tail(y) + more && buf[MAX_ORDER + t..] == more
  {
  }

  // ----- the histogram

  /** The mean square of window `k` of both channels. */
  function Mean(ol: seq<real>, or: seq<real>, w: nat, k: nat): real
    requires 0 < w && |ol| == |or| && Times(k + 1, w) <= |ol|
  {
    TimesStep(k, w);
    (SquareSum(ol[Times(k, w)..Times(k + 1, w)]) + SquareSum(or[Times(k, w)..Times(k + 1, w)])) / (w as real) * 0.5
  }

  /** A window in which both channels stand still has the mean of their squares. */
  lemma MeanOfConstant(ol: seq<real>, or: seq<real>, w: nat, k: nat, c: real, d: real)
    requires 0 < w && |ol| == |or| && Times(k + 1, w) <= |ol|
    requires forall i | Times(k, w) <= i < Times(k + 1, w) :: ol[i] == c && or[i] == d
    ensures Mean(ol, or, w, k) == (c * c + d * d) / 2.0
  {
    hide Times;
    TimesStep(k, w);
    var l, r := ol[Times(k, w)..Times(k + 1, w)], or[Times(k, w)..Times(k + 1, w)];
    SquaresOfConstant(l, c);
    SquaresOfConstant(r, d);
    Halve(w as real, c * c, d * d);
  }

  lemma {:induction false} SquaresOfConstant(s: seq<real>, c: real)
    requires forall i | 0 <= i < |s| :: s[i] == c
    ensures SquareSum(s) == (|s| as real) * (c * c)
  {
    if s != [] { SquaresOfConstant(s[..|s| - 1], c); }
  }

  lemma Halve(w: real, a: real, b: real)
    requires w > 0.0
    ensures (w * a + w * b) / w * 0.5 == (a + b) / 2.0
  {
    assert w * a + w * b == w * (a + b);
  }

  /** Every window is counted once. */
  lemma {:induction false} AllCounted(level: real -> nat, ol: seq<real>, or: seq<real>, w: nat, n: nat)
    requires 0 < w && |ol| == |or| && Times(n, w) <= |ol|
    ensures Above(Histogram(level, ol, or, w, n), 0) == n
  {
    hide Mean, Times;
    if n == 0 {
      NoneAbove(Histogram(level, ol, or, w, 0), 0);
    } else {
      TimesStep(n - 1, w);
      AllCounted(level, ol, or, w, n - 1);
      OneAbove(Histogram(level, ol, or, w, n - 1), Bucket(level(Mean(ol, or, w, n - 1))), 0);
    }
  }

  lemma {:induction false} NoneAbove(a: seq<nat>, i: nat)
    requires i <= |a| && forall k | 0 <= k < |a| :: a[k] == 0
    ensures Above(a, i) == 0
    decreases |a| - i
  {
    if i < |a| { NoneAbove(a, i + 1); }
  }

  lemma {:induction false} OneAbove(a: seq<nat>, b: nat, i: nat)
    requires b < |a| && i <= |a|
    ensures Above(a[b := a[b] + 1], i) == Above(a, i) + if i <= b then 1 else 0
    decreases |a| - i
  {
    if i < |a| { OneAbove(a, b, i + 1); }
  }

  function Bucket(level: nat): nat { if level >= LEVELS then LEVELS - 1 else level }

  /** How many of the first `n` windows have each loudness; `level` is the loudness of a mean square. */
  function Histogram(level: real -> nat, ol: seq<real>, or: seq<real>, w: nat, n: nat): (h: seq<nat>)
    requires 0 < w && |ol| == |or| && Times(n, w) <= |ol|
    ensures |h| == LEVELS
  {
    if n == 0 then seq(LEVELS, _ => 0)
    else
      TimesStep(n - 1, w);
      var h, b := Histogram(level, ol, or, w, n - 1), Bucket(level(Mean(ol, or, w, n - 1)));
      h[b := h[b] + 1]
  }

  lemma {:induction false} HistogramMore(level: real -> nat, ol: seq<real>, or: seq<real>,
                                         ol': seq<real>, or': seq<real>, w: nat, n: nat)
    requires 0 < w && |ol| == |or| && |ol'| == |or'| && Times(n, w) <= |ol|
    requires ol <= ol' && or <= or'
    ensures Times(n, w) <= |ol'| && Histogram(level, ol', or', w, n) == Histogram(level, ol, or, w, n)
  {
    hide Times, Mean;
    if n > 0 {
      TimesStep(n - 1, w);
      HistogramMore(level, ol, or, ol', or', w, n - 1);
      MeanMore(ol, or, ol', or', w, n - 1);
    }
  }

  lemma MeanMore(ol: seq<real>, or: seq<real>, ol': seq<real>, or': seq<real>, w: nat, k: nat)
    requires 0 < w && |ol| == |or| && |ol'| == |or'| && Times(k + 1, w) <= |ol| && ol <= ol' && or <= or'
    ensures Mean(ol', or', w, k) == Mean(ol, or, w, k)
  {
    hide Times, SquareSum;
    TimesStep(k, w);
    assert ol'[Times(k, w)..Times(k + 1, w)] == ol[Times(k, w)..Times(k + 1, w)];
    assert or'[Times(k, w)..Times(k + 1, w)] == or[Times(k, w)..Times(k + 1, w)];
  }

  lemma WholeWindows(n: nat, w: nat)
    requires 0 < w
    ensures Times(n / w, w) <= n
  {
    var q, r := DivModId(n, w);
  }

  /** The histogram of all windows of a stream. */
  function LoudnessOf(level: real -> nat, ol: seq<real>, or: seq<real>, w: nat): (h: seq<nat>)
    requires 0 < w && |ol| == |or|
    ensures |h| == LEVELS
  {
    WholeWindows(|ol|, w);
    Histogram(level, ol, or, w, |ol| / w)
  }

  /** What both filters make of a longer stream begins with what they made of the shorter one. */
  lemma OutMore(yule: Kernel, butter: Kernel, x: seq<real>, s: seq<real>)
    requires KernelOk(yule) && KernelOk(butter)
    ensures Filtered(butter, Filtered(yule, x)) <= Filtered(butter, Filtered(yule, x + s))
  {
    hide Filtered;
    FilteredMore(yule, x, s);
    var y, y' := Filtered(yule, x), Filtered(yule, x + s);
    FilteredMore(butter, y, y'[|x|..]);
    assert y' == y + y'[|x|..];
  }

  /** The windows of at least loudness `i`. */
  function Above(a: seq<nat>, i: nat): nat
    requires i <= |a|
    decreases |a| - i
  {
    if i == |a| then 0 else a[i] + Above(a, i + 1)
  }

  /** The twentieth part of all windows, rounded up, is at least as loud as `i`, and no louder level will do; -1 is
      GAIN_NOT_ENOUGH_SAMPLES. */
  ghost predicate Loudest(a: seq<nat>, i: int) {
    if Above(a, 0) == 0 then i == -1
    else 0 <= i < |a| && Above(a, i) >= (Above(a, 0) + 19) / 20 > Above(a, i + 1)
  }

  lemma {:induction false} AboveFrom(a: seq<nat>, i: nat)
    requires i <= |a|
    ensures Above(a, i) <= Above(a, 0)
  {
    if i > 0 { AboveFrom(a, i - 1); }
  }

  /** analyzeResult, up to the loudness's conversion to decibels. */
  method AnalyzeResult(a: seq<nat>) returns (i: int)
    ensures Loudest(a, i)
  {
    var elems := 0;
    var j := |a|;
    for k := 0 to |a|
      invariant elems + Above(a, k) == Above(a, 0)
    {
      elems := elems + a[k];
    }
    if elems == 0 { return -1; }
    var upper := (elems + 19) / 20;
    while j > 0
      invariant 0 <= j <= |a|
      invariant upper > 0 && upper == (elems + 19) / 20 - Above(a, j)
      decreases j
    {
      j := j - 1;
      upper := upper - a[j];
      if upper <= 0 { return j; }
    }
    assert false;
  }

  // ----- the analyzer

  predicate Supported(freq: nat) { freq in [48000, 44100, 32000, 24000, 22050, 16000, 12000, 11025, 8000] }

  /** A twentieth of a second, rounded up. */
  function SampleWindow(freq: nat): (w: nat)
    ensures 20 * (w - 1) < freq <= 20 * w
  {
    (freq * 1 + 20 - 1) / 20
  }

  class Analyzer {
    const left: Channel
    const right: Channel
    const sampleWindow: nat
    const A: array<nat>
    /** The histogram of all titles that have ended. */
    const B: array<nat>
    /** 10 * STEPS_per_dB times the decimal logarithm, cut to a natural number. */
    const level: real -> nat
    var totsamp: nat
    ghost var windows: nat

    /** InitGainAnalysis, for a frequency that ResetSampleFrequency knows. */
    constructor (freq: nat, yule: Kernel, butter: Kernel, level: real -> nat)
      requires Supported(freq) && KernelOk(yule) && KernelOk(butter)
      ensures Ready() && left.x == right.x == [] && Tuned(yule, butter) && sampleWindow == SampleWindow(freq)
      ensures this.level == level && fresh(Repr())
    {
      hide Filtered;
      left := new Channel(yule, butter);
      right := new Channel(yule, butter);
      sampleWindow := SampleWindow(freq);
      A := new nat[LEVELS](_ => 0);
      B := new nat[LEVELS](_ => 0);
      this.level := level;
      totsamp, windows := 0, 0;
      new;
      TimesStep(0, sampleWindow);
    }

    ghost function Repr(): set<object> {
      {left, left.prebuf, left.stepbuf, left.outbuf, right, right.prebuf, right.stepbuf, right.outbuf, A, B}
    }

    ghost predicate Tuned(yule: Kernel, butter: Kernel) {
      left.yule == right.yule == yule && left.butter == right.butter == butter
    }

    ghost predicate Apart() {
      && left != right && left.Buffers() && right.Buffers()
      && {left.prebuf, left.stepbuf, left.outbuf} !! {right.prebuf, right.stepbuf, right.outbuf}
      && A.Length == B.Length == LEVELS && A != B && 0 < sampleWindow < MAX_SAMPLES_PER_WINDOW
    }

    /** Everything up to the `t` samples of the window that has begun is as one pass over all samples makes it. */
    ghost predicate Filled(t: nat)
      reads this, Repr()
    {
      && Apart() && left.Filled(t) && right.Filled(t)
      && |left.x| == |right.x| == Times(windows, sampleWindow) + t
      && A[..] == Histogram(level, left.Out(), right.Out(), sampleWindow, windows)
    }

    ghost predicate Ready()
      reads this, Repr()
    {
      && Filled(totsamp) && totsamp < sampleWindow
      && left.prebuf[..MAX_ORDER] == Tail(left.x) && right.prebuf[..MAX_ORDER] == Tail(right.x)
    }

    /** In the middle of a call: `pos` samples have been heard, and the first ones lie behind the history. */
    ghost predicate Hearing(xl: seq<real>, xr: seq<real>, l: seq<real>, r: seq<real>, pos: nat)
      requires pos <= |l| == |r|
      reads this, Repr()
    {
      && Filled(totsamp) && totsamp < sampleWindow
      && left.x == xl + l[..pos] && right.x == xr + r[..pos]
      && left.prebuf[..MAX_ORDER] == Tail(xl) && right.prebuf[..MAX_ORDER] == Tail(xr)
      && left.prebuf[MAX_ORDER..MAX_ORDER + Least(|l|)] == l[..Least(|l|)]
      && right.prebuf[MAX_ORDER..MAX_ORDER + Least(|r|)] == r[..Least(|r|)]
    }

    /** The part of AnalyzeSamples that filters the next `n` samples of both channels. */
    method Hear(ghost xl: seq<real>, ghost xr: seq<real>, l: seq<real>, r: seq<real>, pos: nat, n: nat)
      requires |l| == |r| && pos + n <= |l| && Hearing(xl, xr, l, r, pos) && totsamp + n <= sampleWindow
      requires pos < MAX_ORDER ==> n <= MAX_ORDER - pos
      modifies left, left.stepbuf, left.outbuf, right, right.stepbuf, right.outbuf
      ensures Filled(totsamp + n) && left.x == xl + l[..pos + n] && right.x == xr + r[..pos + n]
    {
      hide Channel.Filled, Channel.Out, Histogram, Filtered, Tail;
      ghost var ol, or := left.Out(), right.Out();
      left.HearSome(xl, l, pos, n, totsamp);
      right.HearSome(xr, r, pos, n, totsamp);
      HistogramMore(level, ol, or, left.Out(), right.Out(), sampleWindow, windows);
    }

    /** The part of AnalyzeSamples at the end of a window: it is counted, and the next begins. */
    method EndWindow()
      requires Filled(sampleWindow) && totsamp == sampleWindow
      modifies this`totsamp, this`windows, A, left`sum, right`sum,
        left.stepbuf, left.outbuf, right.stepbuf, right.outbuf
      ensures Filled(0) && totsamp == 0
    {
      hide Filtered, SquareSum, Channel.Out, Histogram;
      TimesStep(windows, sampleWindow);
      ghost var ol, or, h := left.Out(), right.Out(), A[..];
      var ival := level((left.sum + right.sum) / (totsamp as real) * 0.5);
      assert Times(windows, sampleWindow) == |left.x| - sampleWindow && ol[..|left.x|] == ol && or[..|left.x|] == or;
      assert ival == level(Mean(ol, or, sampleWindow, windows));
      if ival >= A.Length { ival := A.Length - 1; }
      A[ival] := A[ival] + 1;
      HistogramNext(level, ol, or, sampleWindow, windows);
      assert A[..] == h[ival := h[ival] + 1];
      windows := windows + 1;
      left.Rewind(totsamp);
      right.Rewind(totsamp);
      totsamp := 0;
    }

    /** AnalyzeSamples: false is GAIN_ANALYSIS_ERROR. With one channel the right one hears the left one's samples. */
    method AnalyzeSamples(l: seq<real>, right0: seq<real>, numChannels: int) returns (ok: bool)
      requires Ready() && (numChannels == 2 ==> |right0| == |l|)
      modifies this, Repr()
      ensures Ready() && ok == (l == [] || numChannels == 1 || numChannels == 2)
      ensures ok ==>
        left.x == old(left.x) + l && right.x == old(right.x) + if numChannels == 1 then l else right0[..|l|]
      ensures !ok ==> left.x == old(left.x) && right.x == old(right.x) && totsamp == old(totsamp) && A[..] == old(A[..])
    {
      hide Filled, Hearing, Tail;
      if |l| == 0 {
        assert left.x + l == left.x && right.x + l == right.x && l == right0[..0];
        return true;
      }
      var r := right0;
      if numChannels == 1 {
        r := l;
      } else if numChannels != 2 {
        return false;
      }
      ghost var xl, xr := left.x, right.x;
      Begin(l, r);
      var pos := 0;
      while |l| - pos > 0
        invariant 0 <= pos <= |l| && Hearing(xl, xr, l, r, pos)
      {
        HearingOpen(xl, xr, l, r, pos);
        var n := if |l| - pos > sampleWindow - totsamp then sampleWindow - totsamp else |l| - pos;
        if pos < MAX_ORDER && n > MAX_ORDER - pos {
          n := MAX_ORDER - pos;
        }
        Step(xl, xr, l, r, pos, n);
        pos := pos + n;
      }
      Finish(xl, xr, l, r);
      ok := true;
    }

    method Begin(l: seq<real>, r: seq<real>)
      requires Ready() && |l| == |r|
      modifies left.prebuf, right.prebuf
      ensures Hearing(left.x, right.x, l, r, 0)
    {
      hide Channel.Filled, Histogram, Tail, Channel.Out;
      left.TakeFirst(l);
      right.TakeFirst(r);
      assert left.x + l[..0] == left.x && right.x + r[..0] == right.x;
    }

    lemma HearingOpen(xl: seq<real>, xr: seq<real>, l: seq<real>, r: seq<real>, pos: nat)
      requires pos <= |l| == |r| && Hearing(xl, xr, l, r, pos)
      ensures totsamp < sampleWindow
    {
    }

    /** One turn of the loop. */
    method Step(ghost xl: seq<real>, ghost xr: seq<real>, l: seq<real>, r: seq<real>, pos: nat, n: nat)
      requires |l| == |r| && pos + n <= |l| && Hearing(xl, xr, l, r, pos) && totsamp + n <= sampleWindow
      requires pos < MAX_ORDER ==> n <= MAX_ORDER - pos
      modifies this, Repr()
      ensures Hearing(xl, xr, l, r, pos + n)
    {
      hide Channel.Filled, Histogram, Tail, Channel.Out;
      Hear(xl, xr, l, r, pos, n);
      totsamp := totsamp + n;
      if totsamp == sampleWindow {
        EndWindow();
      }
    }

    method Finish(ghost xl: seq<real>, ghost xr: seq<real>, l: seq<real>, r: seq<real>)
      requires |l| == |r| && Hearing(xl, xr, l, r, |l|)
      modifies left.prebuf, right.prebuf
      ensures Ready() && left.x == xl + l && right.x == xr + r
    {
      hide Channel.Filled, Histogram, Tail, Channel.Out;
      left.KeepLast(l, xl);
      right.KeepLast(r, xr);
      assert l[..|l|] == l && r[..|r|] == r;
    }

    /** GetTitleGain: the title's loudness; the analyzer is ready for the next title as if it were new. */
    method GetTitleGain() returns (i: int)
      requires Ready()
      modifies this, Repr()
      ensures Loudest(old(A[..]), i)
      ensures Ready() && left.x == right.x == []
      ensures forall k | 0 <= k < LEVELS :: B[k] == old(B[k]) + old(A[k])
    {
      hide Filtered, Above, Channel.Filled;
      i := AnalyzeResult(A[..]);
      AddTitle();
      left.Silenced();
      right.Silenced();
      totsamp, windows := 0, 0;
      NothingCounted();
    }

    method AddTitle()
      requires A.Length == B.Length == LEVELS && A != B
      modifies A, B
      ensures forall k | 0 <= k < LEVELS :: B[k] == old(B[k]) + old(A[k]) && A[k] == 0
    {
      for k := 0 to LEVELS
        invariant forall j | 0 <= j < LEVELS :: B[j] == if j < k then old(B[j]) + old(A[j]) else old(B[j])
        invariant forall j | 0 <= j < LEVELS :: A[j] == if j < k then 0 else old(A[j])
      {
        B[k] := B[k] + A[k];
        A[k] := 0;
      }
    }

    lemma NothingCounted()
      requires Apart() && left.x == right.x == [] && windows == 0 && forall k | 0 <= k < LEVELS :: A[k] == 0
      ensures Times(windows, sampleWindow) == 0
      ensures A[..] == Histogram(level, left.Out(), right.Out(), sampleWindow, windows)
    {
      hide Filtered;
      TimesStep(0, sampleWindow);
    }

    /** Where the samples of the present window begin is a matter of how many there are in all. */
    lemma WindowsExact()
      requires Ready()
      ensures windows == |left.x| / sampleWindow && totsamp == |left.x| % sampleWindow
    {
      DivUnique(|left.x|, sampleWindow, windows, totsamp);
    }
  }

  /** What is left of a stream does not depend on how it was cut into calls: of two analyzers that have heard the
      same samples, in whatever calls, the histogram, the window that has begun, the sums and all of the buffers that
      is still read are the same, and the histogram is that of one pass over the whole stream. */
  lemma ChunksDoNotMatter(a: Analyzer, b: Analyzer, yule: Kernel, butter: Kernel)
    requires a.Ready() && b.Ready() && a.Tuned(yule, butter) && b.Tuned(yule, butter)
    requires KernelOk(yule) && KernelOk(butter)
    requires a.sampleWindow == b.sampleWindow && a.level == b.level
    requires a.left.x == b.left.x && a.right.x == b.right.x
    ensures a.A[..] == b.A[..] && a.totsamp == b.totsamp == |a.left.x| % a.sampleWindow
    ensures |a.left.x| == |a.right.x| && 0 < a.sampleWindow
    ensures a.A[..] == LoudnessOf(a.level, Filtered(butter, Filtered(yule, a.left.x)),
                                  Filtered(butter, Filtered(yule, a.right.x)), a.sampleWindow)
    ensures SameChannel(a.left, b.left, a.totsamp) && SameChannel(a.right, b.right, a.totsamp)
  {
    hide Filtered, Histogram, Tail, Recent, SquareSum, Times;
    a.WindowsExact();
    b.WindowsExact();
  }

  /** What is still read of the channels is the same. */
  ghost predicate SameChannel(a: Channel, b: Channel, t: nat)
    reads a, a.prebuf, a.stepbuf, a.outbuf, b, b.prebuf, b.stepbuf, b.outbuf
  {
    && a.Filled(t) && b.Filled(t)
    && a.sum == b.sum && a.prebuf[..MAX_ORDER] == b.prebuf[..MAX_ORDER]
    && a.stepbuf[..MAX_ORDER + t] == b.stepbuf[..MAX_ORDER + t]
    && a.outbuf[..MAX_ORDER + t] == b.outbuf[..MAX_ORDER + t]
  }

  lemma HistogramNext(level: real -> nat, ol: seq<real>, or: seq<real>, w: nat, n: nat)
    requires 0 < w && |ol| == |or| && Times(n + 1, w) <= |ol| && Times(n, w) <= |ol|
    ensures var h, b := Histogram(level, ol, or, w, n), Bucket(level(Mean(ol, or, w, n)));
      Histogram(level, ol, or, w, n + 1) == h[b := h[b] + 1]
  {
    hide Mean, Times;
  }
}

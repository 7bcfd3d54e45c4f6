/** The searches of quantize.c that start a quantization: for a step size (bin_search_StepSize) and, in the old VBR
    mode, for the number of bits a granule needs (VBR_encode_granule).  What is counted or quantized is arbitrary. */
module Search {
  import opened Bits

  // ----- bin_search_StepSize

  datatype Direction = None | Up | Down

  ghost predicate CoarserIsCheaper(count: int -> int) {
    forall g, h :: 0 <= g <= h <= 255 ==> count(h) <= count(g)
  }

  predicate Fits(count: int -> int, desired: int, gain: int) { count(gain) <= desired }

  ghost predicate IsLeast(count: int -> int, desired: int, gain: int) {
    && (Fits(count, desired, gain) || gain == 255)
    && forall g :: 0 <= g < gain ==> !Fits(count, desired, g)
  }

  /** The gains `step` below and above have been passed: the lower does not fit, the upper does. */
  ghost predicate Between(count: int -> int, desired: int, gain: int, step: int) {
    && (0 <= gain - step ==> !Fits(count, desired, gain - step))
    && (gain + step <= 255 ==> Fits(count, desired, gain + step))
  }

  /** What the search knows on its way. */
  ghost predicate Passed(count: int -> int, desired: int, gain: int, step: int, dir: Direction, goneOver: bool) {
    if goneOver then Between(count, desired, gain, step)
    else match dir
      case None => true
      case Up => 0 <= gain - step && !Fits(count, desired, gain - step)
      case Down => gain + step <= 255 && Fits(count, desired, gain + step)
  }

  lemma HalfStep(count: int -> int, desired: int, gain: int, step: int, dir: Direction, over: bool)
    requires CoarserIsCheaper(count) && 0 <= gain <= 255 && (step == 2 || step == 4)
    requires Passed(count, desired, gain, step, dir, over)
    ensures
      var fits := Fits(count, desired, gain);
      var over' := over || (fits && dir == Up) || (!fits && dir == Down);
      var step' := if over' then step / 2 else step;
      var next := if fits then gain - step' else gain + step';
      var clamped := Max(0, Min(255, next));
      Passed(count, desired, clamped, step', if fits then Down else Up, over' || next != clamped)
  {
  }

  lemma LeastBetween(count: int -> int, desired: int, gain: int)
    requires CoarserIsCheaper(count) && 0 <= gain <= 255 && Between(count, desired, gain, 1)
    ensures Fits(count, desired, gain) || gain == 255 ==> IsLeast(count, desired, gain)
    ensures !Fits(count, desired, gain) && gain < 255 ==> IsLeast(count, desired, gain + 1)
  {
    if gain > 0 {
      forall g | 0 <= g < gain
        ensures !Fits(count, desired, g)
      {
        assert count(gain - 1) <= count(g);
      }
    }
  }

  /** The fields CurrentStep[ch] and OldValue[ch] of lame_internal_flags. */
  class StepSearch {
    var currentStep: int
    var oldValue: int

    constructor ()
      ensures Valid()
    {
      currentStep, oldValue := 4, 180;
    }

    ghost predicate Valid()
      reads this
    {
      (currentStep == 2 || currentStep == 4) && 0 <= oldValue <= 255
    }

    /** bin_search_StepSize: whatever `count` says, it ends within the target or at the coarsest gain; and if coarser
        gains are cheaper it ends on the target or at the least gain that is within it. */
    method BinSearchStepSize(count: int -> int, rate: int, part2Length: int) returns (globalGain: int, nBits: int)
      requires Valid()
      modifies this
      ensures Valid() && oldValue == globalGain && nBits == count(globalGain)
      ensures nBits <= rate - part2Length || globalGain == 255
      ensures CoarserIsCheaper(count) ==> nBits == rate - part2Length || IsLeast(count, rate - part2Length, globalGain)
    {
      hide Passed, IsLeast, CoarserIsCheaper, Between;
      var step, goneOver, start, dir := currentStep, false, oldValue, None;
      globalGain := start;
      var desired := rate - part2Length;
      PassedNone(count, desired, start, step);
      while true
        invariant 0 <= globalGain <= 255 && (step == 4 || step == 2 || (step == 1 && goneOver))
        invariant CoarserIsCheaper(count) ==> Passed(count, desired, globalGain, step, dir, goneOver)
        decreases !goneOver, if goneOver then step else match dir case None => 256 case Up => 255 - globalGain
            case Down => globalGain
      {
        nBits := count(globalGain);
        if step == 1 || nBits == desired { break; }
        if CoarserIsCheaper(count) { HalfStep(count, desired, globalGain, step, dir, goneOver); }
        var s;
        if nBits > desired {
          if dir == Down { goneOver := true; }
          if goneOver { step := step / 2; }
          dir := Up;
          s := step;
        } else {
          if dir == Up { goneOver := true; }
          if goneOver { step := step / 2; }
          dir := Down;
          s := -step;
        }
        globalGain := globalGain + s;
        if globalGain < 0 {
          globalGain := 0;
          goneOver := true;
        }
        if globalGain > 255 {
          globalGain := 255;
          goneOver := true;
        }
      }
      if CoarserIsCheaper(count) && nBits != desired {
        PassedOne(count, desired, globalGain, dir);
        LeastBetween(count, desired, globalGain);
      }
      ghost var found := globalGain;
      while nBits > desired && globalGain < 255
        invariant found <= globalGain <= 255 && nBits == count(globalGain)
        invariant CoarserIsCheaper(count) && nBits != desired ==>
          IsLeast(count, desired, globalGain) || (globalGain == found && IsLeast(count, desired, found + 1))
        decreases 255 - globalGain
      {
        if IsLeast(count, desired, globalGain) { LeastStops(count, desired, globalGain); }
        globalGain := globalGain + 1;
        nBits := count(globalGain);
      }
      currentStep := if start - globalGain >= 4 then 4 else 2;
      oldValue := globalGain;
    }
  }

  lemma LeastStops(count: int -> int, desired: int, gain: int)
    requires IsLeast(count, desired, gain) && gain != 255
    ensures count(gain) <= desired
  {
  }

  lemma PassedNone(count: int -> int, desired: int, gain: int, step: int)
    ensures Passed(count, desired, gain, step, None, false)
  {
  }

  lemma PassedOne(count: int -> int, desired: int, gain: int, dir: Direction)
    requires Passed(count, desired, gain, 1, dir, true)
    ensures Between(count, desired, gain, 1)
  {
  }

  // ----- VBR_encode_granule

  /** What outer_loop leaves: the granule, its part2_3_length, and how many bands are distorted. */
  datatype Try<G> = Try(granule: G, part23Length: nat, over: int)

  /** outer_loop, as it may depend on how often it has been called, on the target, and on sfb21_extra. */
  type OuterLoop<G> = (nat, int, bool) -> Try<G>

  /** The search so far: its targets and what outer_loop left for them, sfb21_extra being off near `high`. */
  ghost predicate Tried<G>(outer: OuterLoop<G>, extra: bool, targets: seq<int>, tries: seq<Try<G>>, low: int,
      high: int) {
    && |targets| == |tries|
    && forall i :: 0 <= i < |targets| ==>
      && low <= targets[i] <= high
      && tries[i] == outer(i, targets[i], extra && targets[i] <= high - 42)
  }

  /** `best` is the undistorted try with the fewest bits, if there is one. */
  ghost predicate Best<G>(tries: seq<Try<G>>, best: seq<Try<G>>) {
    && |best| <= 1
    && (best != [] ==> best[0] in tries && best[0].over <= 0)
    && forall i :: 0 <= i < |tries| && tries[i].over <= 0 ==>
      best != [] && best[0].part23Length <= tries[i].part23Length
  }

  lemma BestMore<G>(tries: seq<Try<G>>, best: seq<Try<G>>, t: Try<G>)
    requires Best(tries, best) && (best != [] ==> t.part23Length <= best[0].part23Length)
    ensures Best(tries + [t], if t.over <= 0 then [t] else best)
  {
    var more := tries + [t];
    assert more[|tries|] == t;
    if best != [] {
      var k :| 0 <= k < |tries| && tries[k] == best[0];
      assert more[k] == best[0];
    }
  }

  /** A target failed, unless it is the number that stands for none. */
  ghost predicate Failed<G>(targets: seq<int>, tries: seq<Try<G>>, failed: int, none: int) {
    || failed == none
    || exists i :: 0 <= i < |targets| && |tries| == |targets| && targets[i] == failed && tries[i].over > 0
  }

  lemma TriedMore<G>(outer: OuterLoop<G>, extra: bool, targets: seq<int>, tries: seq<Try<G>>, low: int, high: int,
                     failed: int, target: int, t: Try<G>)
    requires Tried(outer, extra, targets, tries, low, high) && low <= target <= high
    requires t == outer(|tries|, target, extra && target <= high - 42)
    requires Failed(targets, tries, failed, low - 32)
    ensures Tried(outer, extra, targets + [target], tries + [t], low, high)
    ensures Failed(targets + [target], tries + [t], if t.over <= 0 then failed else target, low - 32)
  {
    if t.over <= 0 && failed != low - 32 {
      var i :| 0 <= i < |targets| && targets[i] == failed && tries[i].over > 0;
      assert (targets + [target])[i] == failed && (tries + [t])[i].over > 0;
    } else if t.over > 0 {
      assert (targets + [target])[|targets|] == target && (tries + [t])[|targets|].over > 0;
    }
  }

  lemma NothingTried<G>(outer: OuterLoop<G>, extra: bool, low: int, high: int, best: seq<Try<G>>)
    requires best == []
    ensures Tried<G>(outer, extra, [], [], low, high) && Best<G>([], best) && Failed<G>([], [], low - 32, low - 32)
  {
  }

  /** outer_loop keeps to its target. */
  ghost predicate Keeping<G(!new)>(outer: OuterLoop<G>) {
    forall n, target, extra :: target >= 0 ==> outer(n, target, extra).part23Length <= target
  }

  /** The rest of the search, when outer_loop has been called `calls` times and is next called with `thisBits`: the
      granule it ends with, and the largest target that failed. */
  ghost function Rest<G(!new)>(outer: OuterLoop<G>, extra: bool, top: int, calls: nat, minBits: int, maxBits: int,
                               thisBits: int, best: seq<Try<G>>): (Try<G>, int)
    requires 0 <= minBits <= thisBits <= maxBits && Keeping(outer)
    decreases maxBits - minBits
  {
    var t := outer(calls, thisBits, extra && thisBits <= top - 42);
    var lower, upper := if t.over <= 0 then minBits else thisBits + 32,
        if t.over <= 0 then t.part23Length - 32 else maxBits;
    var more := if t.over <= 0 then [t] else best;
    if upper - lower <= 12 then (if more == [] then t else more[0], lower - 32)
    else Rest(outer, extra, top, calls + 1, lower, upper, TruncDiv(upper + lower, 2), more)
  }

  lemma RestStep<G(!new)>(outer: OuterLoop<G>, extra: bool, top: int, calls: nat, minBits: int, maxBits: int,
                          thisBits: int, best: seq<Try<G>>, t: Try<G>)
    requires 0 <= minBits <= thisBits <= maxBits && Keeping(outer)
    requires t == outer(calls, thisBits, extra && thisBits <= top - 42)
    ensures var rest := Rest(outer, extra, top, calls, minBits, maxBits, thisBits, best);
      if t.over <= 0 then
        var upper := t.part23Length - 32;
        if upper - minBits <= 12 then rest == (t, minBits - 32)
        else rest == Rest(outer, extra, top, calls + 1, minBits, upper, TruncDiv(upper + minBits, 2), [t])
      else
        var lower := thisBits + 32;
        if maxBits - lower <= 12 then rest == (if best == [] then t else best[0], thisBits)
        else rest == Rest(outer, extra, top, calls + 1, lower, maxBits, TruncDiv(maxBits + lower, 2), best)
  {
  }

  /** The whole search. */
  ghost function Searched<G(!new)>(outer: OuterLoop<G>, extra: bool, minBits: nat, maxBits: int): (Try<G>, int)
    requires minBits <= maxBits && Keeping(outer)
  {
    Rest(outer, extra, maxBits, 0, minBits, maxBits, (maxBits + minBits) / 2, [])
  }

  /** Distorted with fewer than 170 bits. */
  function From170(n: nat, target: int, extra: bool): Try<()> {
    Try((), Max(0, target), if target >= 170 then 0 else 1)
  }

  /** The bound on how far the search may stay above a target that has failed is reached: between 126 and 364 bits, it
      ends with 245 when 169 have failed; and 170 would have been enough. */
  lemma GapReached()
    ensures Keeping(From170)
    ensures Searched(From170, false, 126, 364) == (Try((), 245, 0), 169)
  {
    assert From170(0, 245, false) == Try((), 245, 0);
    assert From170(1, 169, false) == Try((), 169, 1);
    assert TruncDiv(213 + 126, 2) == 169;
    assert Rest(From170, false, 364, 1, 126, 213, 169, [Try((), 245, 0)]) == (Try((), 245, 0), 169);
  }

  class VbrGranule {
    var sfb21Extra: bool

    constructor (extra: bool)
      ensures sfb21Extra == extra
    {
      sfb21Extra := extra;
    }

    /** VBR_encode_granule.  `outer` is outer_loop; it keeps to its target. The search ends; all its targets are
        between the two bounds, as its assertions say; it keeps the undistorted granule with the fewest bits, and a
        target less than 76 bits below those has failed, or the lower bound is within 44. */
    method EncodeGranule<G(!new)>(outer: OuterLoop<G>, minBits0: nat, maxBits0: int)
      returns (cod: Try<G>, ghost targets: seq<int>, ghost tries: seq<Try<G>>, ghost failed: int)
      requires minBits0 <= maxBits0 && Keeping(outer)
      modifies this
      ensures (cod, failed) == Searched(outer, sfb21Extra, minBits0, maxBits0)
      ensures sfb21Extra == old(sfb21Extra)
      ensures Tried(outer, sfb21Extra, targets, tries, minBits0, maxBits0) && cod.part23Length <= maxBits0
          && tries != []
      ensures Best(tries, if cod.over <= 0 then [cod] else []) && (cod.over > 0 ==> cod == tries[|tries| - 1])
      ensures Failed(targets, tries, failed, minBits0 - 32)
      ensures if cod.over <= 0 then cod.part23Length <= failed + 76 else maxBits0 <= failed + 44
    {
      hide Best, Tried, Failed, Rest;
      ghost var all := Searched(outer, sfb21Extra, minBits0, maxBits0);
      var minBits, maxBits := minBits0, maxBits0;
      var realBits, thisBits := maxBits + 1, (maxBits + minBits) / 2;
      var sfb21, found, calls := sfb21Extra, 0, 0;
      var dbits := maxBits - minBits;
      var best: seq<Try<G>> := [];
      targets, tries, failed := [], [], minBits0 - 32;
      NothingTried(outer, sfb21, minBits0, maxBits0, best);
      while true
        invariant calls == |tries| && dbits == maxBits - minBits
        invariant minBits0 <= minBits <= thisBits <= maxBits <= maxBits0
        invariant Rest(outer, sfb21, maxBits0, calls, minBits, maxBits, thisBits, best) == all
        invariant minBits == failed + 32 && (found == 0 <==> best == [])
        invariant maxBits == if best == [] then maxBits0 else best[0].part23Length - 32
        invariant Tried(outer, sfb21, targets, tries, minBits0, maxBits0) && Best(tries, best)
        invariant Failed(targets, tries, failed, minBits0 - 32)
        invariant |best| <= 1 && (best != [] ==> best[0].over <= 0 && best[0].part23Length <= maxBits0)
        decreases dbits
      {
        sfb21Extra := if thisBits > maxBits0 - 42 then false else sfb21;
        cod := outer(calls, thisBits, sfb21Extra);
        RestStep(outer, sfb21, maxBits0, calls, minBits, maxBits, thisBits, best, cod);
        calls := calls + 1;
        BestMore(tries, best, cod);
        TriedMore(outer, sfb21, targets, tries, minBits0, maxBits0, failed, thisBits, cod);
        targets, tries := targets + [thisBits], tries + [cod];
        if cod.over <= 0 {
          found := 1;
          realBits := cod.part23Length;
          best := [cod];
          maxBits := realBits - 32;
          dbits := maxBits - minBits;
        } else {
          failed := thisBits;
          minBits := thisBits + 32;
          dbits := maxBits - minBits;
          if found != 0 {
            found := 2;
            cod := best[0];
          }
        }
        thisBits := TruncDiv(maxBits + minBits, 2);
        if dbits <= 12 { break; }
      }
      assert best == if cod.over <= 0 then [cod] else [];
      sfb21Extra := sfb21;
    }
  }
}

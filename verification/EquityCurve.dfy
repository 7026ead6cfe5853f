/** Equity curves built from trade results: peaks, drawdowns and runs, each computed in one pass
    and each tied to a definition that looks at the whole curve. */
module EquityCurve {
  import opened Market

  function Sum(values: seq<real>): real {
    if values == [] then 0.0 else Sum(values[..|values| - 1]) + values[|values| - 1]
  }

  /** Equity after the first `k` results. */
  function EquityAt(start: real, values: seq<real>, k: nat): real
    requires k <= |values|
  {
    start + Sum(values[..k])
  }

  ghost predicate IsPeak(start: real, values: seq<real>, peak: real) {
    && (forall k :: 0 <= k <= |values| ==> EquityAt(start, values, k) <= peak)
    && (exists k :: 0 <= k <= |values| && EquityAt(start, values, k) == peak)
  }

  /** How far equity fell from point `i` to point `j`. */
  function Fall(start: real, values: seq<real>, i: nat, j: nat): real
    requires i <= j <= |values|
  {
    EquityAt(start, values, i) - EquityAt(start, values, j)
  }

  /** The largest fall between any two points in time order. */
  ghost predicate IsMaximumDrawdown(start: real, values: seq<real>, drawdown: real) {
    && (forall i, j :: 0 <= i <= j <= |values| ==> Fall(start, values, i, j) <= drawdown)
    && (exists i, j :: 0 <= i <= j <= |values| && Fall(start, values, i, j) == drawdown)
  }

  lemma EquityOfLonger(start: real, values: seq<real>, v: real)
    ensures forall k :: 0 <= k <= |values| ==> EquityAt(start, values + [v], k) == EquityAt(start, values, k)
    ensures EquityAt(start, values + [v], |values| + 1) == EquityAt(start, values, |values|) + v
  {
    assert forall k :: 0 <= k <= |values| ==> (values + [v])[..k] == values[..k];
    assert (values + [v])[..|values| + 1] == values + [v];
    assert values[..|values|] == values && (values + [v])[..|values + [v]| - 1] == values;
  }

  lemma EmptyCurve(start: real)
    ensures IsPeak(start, [], start) && IsMaximumDrawdown(start, [], 0.0)
  {
    assert EquityAt(start, [], 0) == start;
    assert Fall(start, [], 0, 0) == 0.0;
  }

  lemma PeakStep(start: real, values: seq<real>, peak: real, v: real)
    requires IsPeak(start, values, peak)
    ensures IsPeak(start, values + [v], Max(peak, EquityAt(start, values, |values|) + v))
  {
    EquityOfLonger(start, values, v);
    var k :| 0 <= k <= |values| && EquityAt(start, values, k) == peak;
    assert EquityAt(start, values + [v], k) == peak;
  }

  /** The largest fall ending at the newest point starts from the peak. */
  lemma DrawdownStep(start: real, values: seq<real>, peak: real, drawdown: real, v: real)
    requires IsPeak(start, values, peak) && IsMaximumDrawdown(start, values, drawdown)
    ensures var equity := EquityAt(start, values, |values|) + v;
      IsMaximumDrawdown(start, values + [v], Max(drawdown, Max(peak, equity) - equity))
  {
    EquityOfLonger(start, values, v);
    PeakStep(start, values, peak, v);
    var longer, n := values + [v], |values| + 1;
    var equity := EquityAt(start, values, |values|) + v;
    var top := Max(peak, equity);
    forall i, j | 0 <= i <= j <= n
      ensures Fall(start, longer, i, j) <= Max(drawdown, top - equity)
    {
      if j < n {
        assert Fall(start, longer, i, j) == Fall(start, values, i, j);
      }
    }
    if drawdown >= top - equity {
      var i, j :| 0 <= i <= j <= |values| && Fall(start, values, i, j) == drawdown;
      assert Fall(start, longer, i, j) == drawdown;
    } else {
      var k :| 0 <= k <= n && EquityAt(start, longer, k) == top;
      assert Fall(start, longer, k, n) == top - equity;
    }
  }

  /** One iteration of the one-pass computation. */
  lemma PrefixStep(values: seq<real>, i: nat, peak: real, drawdown: real)
    requires i < |values| && IsPeak(0.0, values[..i], peak) && IsMaximumDrawdown(0.0, values[..i], drawdown)
    ensures var equity := EquityAt(0.0, values[..i], i) + values[i];
      && EquityAt(0.0, values[..i + 1], i + 1) == equity
      && IsPeak(0.0, values[..i + 1], Max(peak, equity))
      && IsMaximumDrawdown(0.0, values[..i + 1], Max(drawdown, Max(peak, equity) - equity))
  {
    assert values[..i] + [values[i]] == values[..i + 1];
    EquityOfLonger(0.0, values[..i], values[i]);
    PeakStep(0.0, values[..i], peak, values[i]);
    DrawdownStep(0.0, values[..i], peak, drawdown, values[i]);
  }

  /** One pass over the results, as every report in the repository computes it. */
  method MaximumDrawdown(values: seq<real>) returns (drawdown: real)
    ensures IsMaximumDrawdown(0.0, values, drawdown)
  {
    hide IsPeak, IsMaximumDrawdown;
    var equity, peak := 0.0, 0.0;
    drawdown := 0.0;
    EmptyCurve(0.0);
    for i := 0 to |values|
      invariant equity == EquityAt(0.0, values[..i], i)
      invariant IsPeak(0.0, values[..i], peak) && IsMaximumDrawdown(0.0, values[..i], drawdown)
    {
      hide EquityAt;
      PrefixStep(values, i, peak, drawdown);
      equity := equity + values[i];
      peak := Max(peak, equity);
      drawdown := Max(drawdown, peak - equity);
    }
    assert values[..|values|] == values;
  }

  // ----- longest runs -----

  ghost predicate RunHolds(flags: seq<bool>, from: nat, length: nat) {
    from + length <= |flags| && forall i :: from <= i < from + length ==> flags[i]
  }

  /** `length` is the length of the longest stretch of consecutive true flags. */
  ghost predicate IsLongestRun(flags: seq<bool>, length: nat) {
    && (exists from: nat :: RunHolds(flags, from, length))
    && (forall from: nat, longer: nat :: RunHolds(flags, from, longer) ==> longer <= length)
  }

  /** `length` flags at the very end are true and the one before them, if any, is false. */
  ghost predicate IsTrailingRun(flags: seq<bool>, length: nat) {
    && length <= |flags| && RunHolds(flags, |flags| - length, length)
    && (length < |flags| ==> !flags[|flags| - length - 1])
  }

  lemma LongestRunStep(flags: seq<bool>, longest: nat, current: nat, flag: bool)
    requires IsLongestRun(flags, longest) && IsTrailingRun(flags, current)
    ensures var next := if flag then current + 1 else 0;
      IsTrailingRun(flags + [flag], next) && IsLongestRun(flags + [flag], if next > longest then next else longest)
  {
    var more := flags + [flag];
    var next := if flag then current + 1 else 0;
    forall from: nat, length: nat | RunHolds(more, from, length)
      ensures length <= next || length <= longest
    {
      if from + length <= |flags| {
        assert forall i :: 0 <= i < |flags| ==> more[i] == flags[i];
        assert RunHolds(flags, from, length);
      } else {
        assert next < |more| ==> !more[|more| - next - 1];
        assert from > |more| - next - 1;
      }
    }
    var from: nat :| RunHolds(flags, from, longest);
    assert RunHolds(more, from, longest);
    assert RunHolds(more, |more| - next, next);
  }

  function Losses(values: seq<real>): (flags: seq<bool>)
    ensures |flags| == |values|
  {
    seq(|values|, i requires 0 <= i < |values| => values[i] < 0.0)
  }

  /** Result `i` leaves equity below some earlier point of the curve. */
  ghost predicate UnderWater(values: seq<real>, i: nat)
    requires i < |values|
  {
    exists k :: 0 <= k <= i && EquityAt(0.0, values, i + 1) < EquityAt(0.0, values, k)
  }

  ghost function UnderWaterFlags(values: seq<real>): (flags: seq<bool>)
    ensures |flags| == |values|
  {
    seq(|values|, i requires 0 <= i < |values| => UnderWater(values, i))
  }

  method LongestLosingStreak(values: seq<real>) returns (longest: nat)
    ensures IsLongestRun(Losses(values), longest)
  {
    longest := 0;
    var current := 0;
    assert RunHolds(Losses(values)[..0], 0, 0);
    for i := 0 to |values|
      invariant IsLongestRun(Losses(values)[..i], longest) && IsTrailingRun(Losses(values)[..i], current)
    {
      assert Losses(values)[..i] + [values[i] < 0.0] == Losses(values)[..i + 1];
      LongestRunStep(Losses(values)[..i], longest, current, values[i] < 0.0);
      if values[i] < 0.0 {
        current := current + 1;
        longest := if current > longest then current else longest;
      } else {
        current := 0;
      }
    }
    assert Losses(values)[..|values|] == Losses(values);
  }

  lemma EmptyRun(flags: seq<bool>)
    ensures IsLongestRun(flags[..0], 0) && IsTrailingRun(flags[..0], 0)
  {
    assert RunHolds(flags[..0], 0, 0);
  }

  lemma UnderWaterPrefix(values: seq<real>, i: nat)
    requires i < |values|
    ensures UnderWaterFlags(values)[..i] + [UnderWater(values, i)] == UnderWaterFlags(values)[..i + 1]
  {
  }

  /** The longest stretch of consecutive trades spent below an earlier equity peak. */
  method MaximumDrawdownDuration(values: seq<real>) returns (longest: nat)
    ensures IsLongestRun(UnderWaterFlags(values), longest)
  {
    hide IsPeak, IsLongestRun, IsTrailingRun, UnderWater, UnderWaterFlags;
    longest := 0;
    var equity, peak, current := 0.0, 0.0, 0;
    ghost var flags := UnderWaterFlags(values);
    EmptyCurve(0.0);
    EmptyRun(flags);
    for i := 0 to |values|
      invariant equity == EquityAt(0.0, values[..i], i) && IsPeak(0.0, values[..i], peak)
      invariant IsLongestRun(flags[..i], longest) && IsTrailingRun(flags[..i], current)
    {
      hide EquityAt;
      PeakPrefixStep(values, i, peak);
      UnderWaterPrefix(values, i);
      LongestRunStep(flags[..i], longest, current, UnderWater(values, i));
      equity := equity + values[i];
      if equity >= peak {
        peak := equity;
        current := 0;
      } else {
        current := current + 1;
        longest := if current > longest then current else longest;
      }
    }
    assert flags[..|values|] == flags;
  }

  lemma PeakPrefixStep(values: seq<real>, i: nat, peak: real)
    requires i < |values| && IsPeak(0.0, values[..i], peak)
    ensures var equity := EquityAt(0.0, values[..i], i) + values[i];
      && EquityAt(0.0, values[..i + 1], i + 1) == equity
      && IsPeak(0.0, values[..i + 1], Max(peak, equity))
      && (UnderWater(values, i) <==> equity < peak)
  {
    assert values[..i] + [values[i]] == values[..i + 1];
    EquityOfLonger(0.0, values[..i], values[i]);
    PeakStep(0.0, values[..i], peak, values[i]);
    PeakDecidesUnderWater(values, i, peak);
  }

  lemma PeakDecidesUnderWater(values: seq<real>, i: nat, peak: real)
    requires i < |values| && IsPeak(0.0, values[..i], peak)
    ensures UnderWater(values, i) <==> EquityAt(0.0, values[..i], i) + values[i] < peak
  {
    var head := values[..i];
    EquityOfLonger(0.0, head, values[i]);
    assert head + [values[i]] == values[..i + 1];
    assert forall k :: 0 <= k <= i ==> values[..k] == head[..k];
    assert EquityAt(0.0, values, i + 1) == EquityAt(0.0, head + [values[i]], i + 1) by {
      assert (head + [values[i]])[..i + 1] == values[..i + 1];
    }
    var top :| 0 <= top <= i && EquityAt(0.0, head, top) == peak;
    assert EquityAt(0.0, values, top) == peak;
    assert forall k :: 0 <= k <= i ==> EquityAt(0.0, values, k) == EquityAt(0.0, head, k);
  }
}

/** Bounded-horizon short trades used for research: the ATR matrix simulator, the fixed-distance
    simulator with costs, and how their results relate. */
module ShadowSimulation {
  import opened Wrappers
  import opened Market
  import opened TradeLifecycle
  import TS = TradeSafety
  import CE = CandidateEvaluation

  datatype ShadowExit = TimeExit | AmbiguousStopFirst | StoppedOut | TargetHit

  datatype ShadowResult = ShadowResult(
    observedAt: int, entryTime: int, exitTime: int, entryIndex: nat, exitIndex: nat,
    entry: real, stop: real, target: real, exit: real, reason: ShadowExit, holdingBars: int,
    resultR: real, dualTouch: bool, mfeR: real, maeR: real)

  const HORIZON_BARS: nat := 24

  const ATR_PERIOD: nat := 14

  // ----- average true range -----

  function TrueRange(previous: Bar, bar: Bar): real {
    Max(bar.high - bar.low, Max(Abs(bar.high - previous.close), Abs(bar.low - previous.close)))
  }

  function SumOfRanges(bars: seq<Bar>, lo: nat, hi: nat): real
    requires 1 <= lo <= hi <= |bars|
  {
    if lo == hi then 0.0 else SumOfRanges(bars, lo, hi - 1) + TrueRange(bars[hi - 2], bars[hi - 1])
  }

  /** The mean true range of the bars before the entry, if there are enough of them. */
  function Atr(bars: seq<Bar>, entryIndex: nat): Option<real>
    requires entryIndex <= |bars|
  {
    if entryIndex < ATR_PERIOD + 1 then None
    else Some(SumOfRanges(bars, entryIndex - ATR_PERIOD, entryIndex) / ATR_PERIOD as real)
  }

  /** The width of the stretch of prices that holds a bar and the close before it. */
  function Span(previous: Bar, bar: Bar): real {
    Max(bar.high, previous.close) - Min(bar.low, previous.close)
  }

  /** The widths for `count` bars from bar `first` on, added up. */
  function SumOfSpans(bars: seq<Bar>, first: nat, count: nat): real
    requires 1 <= first && first + count <= |bars|
    decreases count
  {
    if count == 0 then 0.0 else Span(bars[first - 1], bars[first]) + SumOfSpans(bars, first + 1, count - 1)
  }

  lemma TrueRangeIsSpan(previous: Bar, bar: Bar)
    requires bar.low <= bar.high
    ensures TrueRange(previous, bar) == Span(previous, bar)
  {
  }

  lemma {:induction false} SumOfSpansByLast(bars: seq<Bar>, first: nat, count: nat)
    requires 1 <= first && first + count < |bars|
    ensures SumOfSpans(bars, first, count + 1)
         == SumOfSpans(bars, first, count) + Span(bars[first + count - 1], bars[first + count])
    decreases count
  {
    hide Span;
    if count > 0 {
      SumOfSpansByLast(bars, first + 1, count - 1);
    }
  }

  lemma {:induction false} SumOfRangesIsSumOfSpans(bars: seq<Bar>, lo: nat, hi: nat)
    requires 1 <= lo <= hi <= |bars| && forall b <- bars :: b.low <= b.high
    ensures SumOfRanges(bars, lo, hi) == SumOfSpans(bars, lo, hi - lo)
    decreases hi - lo
  {
    hide TrueRange, Span;
    if lo < hi {
      SumOfRangesIsSumOfSpans(bars, lo, hi - 1);
      SumOfSpansByLast(bars, lo, hi - 1 - lo);
      assert bars[hi - 1] in bars;
      TrueRangeIsSpan(bars[hi - 2], bars[hi - 1]);
    }
  }

  /** The ATR is the mean span of the fourteen bars before the entry; it needs one bar more for the first close. */
  lemma AtrIsMeanSpan(bars: seq<Bar>, entryIndex: nat)
    requires entryIndex <= |bars| && forall b <- bars :: b.low <= b.high
    ensures Atr(bars, entryIndex).Some? <==> entryIndex >= 15
    ensures entryIndex >= 15 ==> Atr(bars, entryIndex).value * 14.0 == SumOfSpans(bars, entryIndex - 14, 14)
  {
    hide SumOfRanges, SumOfSpans;
    if entryIndex >= 15 {
      SumOfRangesIsSumOfSpans(bars, entryIndex - 14, entryIndex);
    }
  }

  /** The bar shows no movement at all, not even from the previous close. */
  predicate Still(bars: seq<Bar>, i: nat)
    requires 0 < i < |bars|
  {
    bars[i].low == bars[i].high == bars[i - 1].close
  }

  lemma {:induction false} SumOfRangesIsZero(bars: seq<Bar>, lo: nat, hi: nat)
    requires 1 <= lo <= hi <= |bars| && forall b <- bars :: b.low <= b.high
    ensures SumOfRanges(bars, lo, hi) >= 0.0
    ensures SumOfRanges(bars, lo, hi) == 0.0 <==> forall i :: lo <= i < hi ==> Still(bars, i)
    decreases hi - lo
  {
    if lo < hi {
      SumOfRangesIsZero(bars, lo, hi - 1);
      assert bars[hi - 1] in bars;
      assert TrueRange(bars[hi - 2], bars[hi - 1]) == 0.0 <==> Still(bars, hi - 1);
    }
  }

  /** The ATR is never negative, and it is zero, which makes the result undefined, exactly on a dead market. */
  lemma AtrIsZeroOnlyWhenStill(bars: seq<Bar>, entryIndex: nat)
    requires entryIndex <= |bars| && forall b <- bars :: b.low <= b.high
    requires Atr(bars, entryIndex).Some?
    ensures Atr(bars, entryIndex).value >= 0.0
    ensures Atr(bars, entryIndex).value == 0.0 <==>
              forall i :: entryIndex - ATR_PERIOD <= i < entryIndex ==> Still(bars, i)
  {
    SumOfRangesIsZero(bars, entryIndex - ATR_PERIOD, entryIndex);
  }

  // ----- the ATR matrix simulator -----

  predicate StopTouched(bar: Bar, stop: real) {
    bar.high >= stop
  }

  predicate TargetTouched(bar: Bar, target: real) {
    bar.low <= target
  }

  /** The first bar in the range that touches the stop or the target of a short trade, or `hi`. */
  function FirstTouch(bars: seq<Bar>, stop: real, target: real, lo: nat, hi: nat): (i: nat)
    requires lo <= hi <= |bars|
    ensures lo <= i <= hi
    ensures i < hi ==> StopTouched(bars[i], stop) || TargetTouched(bars[i], target)
    ensures forall j :: lo <= j < i ==> !StopTouched(bars[j], stop) && !TargetTouched(bars[j], target)
    decreases hi - lo
  {
    if lo == hi || StopTouched(bars[lo], stop) || TargetTouched(bars[lo], target) then lo
    else FirstTouch(bars, stop, target, lo + 1, hi)
  }

  function HighestOf(bars: seq<Bar>, start: real, lo: nat, hi: nat): real
    requires lo <= hi <= |bars|
  {
    if lo == hi then start else Max(HighestOf(bars, start, lo, hi - 1), bars[hi - 1].high)
  }

  function LowestOf(bars: seq<Bar>, start: real, lo: nat, hi: nat): real
    requires lo <= hi <= |bars|
  {
    if lo == hi then start else Min(LowestOf(bars, start, lo, hi - 1), bars[hi - 1].low)
  }

  function TouchReason(bar: Bar, stop: real, target: real): ShadowExit {
    if StopTouched(bar, stop) && TargetTouched(bar, target) then AmbiguousStopFirst
    else if StopTouched(bar, stop) then StoppedOut
    else TargetHit
  }

  predicate Stopped(reason: ShadowExit) {
    reason.StoppedOut? || reason.AmbiguousStopFirst?
  }

  /** When, where and why a short trade held for the bars `lo..hi` is closed. */
  datatype Closing = Closing(index: nat, price: real, reason: ShadowExit)

  function ClosingOf(bars: seq<Bar>, stop: real, target: real, lo: nat, hi: nat): (c: Closing)
    requires lo < hi <= |bars|
    ensures lo <= c.index < hi
  {
    var touch := FirstTouch(bars, stop, target, lo, hi);
    if touch == hi then Closing(hi - 1, bars[hi - 1].close, TimeExit)
    else
      var reason := TouchReason(bars[touch], stop, target);
      Closing(touch, if reason.TargetHit? then target else stop, reason)
  }

  /** A price distance as a multiple of the stop distance. */
  function InR(move: real, distance: real): real
    requires distance != 0.0
  {
    move / distance
  }

  /** The price `targetR` stop distances below the entry. */
  function TargetLevel(entry: real, distance: real, targetR: real): real {
    entry - distance * targetR
  }

  function SimulateShadow(bars: seq<Bar>, observedAt: int, entryIndex: nat, distance: real, targetR: real): ShadowResult
    requires entryIndex + HORIZON_BARS <= |bars| && distance != 0.0
  {
    var entry := bars[entryIndex].open;
    var stop, target := entry + distance, TargetLevel(entry, distance, targetR);
    var c := ClosingOf(bars, stop, target, entryIndex, entryIndex + HORIZON_BARS);
    ShadowResult(
      observedAt, bars[entryIndex].timestamp, bars[c.index].timestamp, entryIndex, c.index,
      entry, stop, target, c.price, c.reason, c.index - entryIndex + 1,
      InR(entry - c.price, distance), c.reason.AmbiguousStopFirst?,
      InR(Max(0.0, entry - LowestOf(bars, entry, entryIndex, c.index + 1)), distance),
      InR(Max(0.0, HighestOf(bars, entry, entryIndex, c.index + 1) - entry), distance))
  }

  method RunShadow(bars: seq<Bar>, observedAt: int, entryIndex: nat, distance: real, targetR: real) returns (r: ShadowResult)
    requires entryIndex + HORIZON_BARS <= |bars| && distance != 0.0
    ensures r == SimulateShadow(bars, observedAt, entryIndex, distance, targetR)
  {
    hide InR, FirstTouch, TargetLevel;
    var entry := bars[entryIndex].open;
    var stop, target := entry + distance, TargetLevel(entry, distance, targetR);
    var finalIndex := entryIndex + HORIZON_BARS - 1;
    var exitIndex, exit, reason, dualTouch := finalIndex, bars[finalIndex].close, TimeExit, false;
    var lowest, highest := entry, entry;
    var index := entryIndex;
    ghost var touch := FirstTouch(bars, stop, target, entryIndex, finalIndex + 1);
    while index <= finalIndex
      invariant entryIndex <= index <= finalIndex + 1 && index <= touch
      invariant exitIndex == finalIndex && exit == bars[finalIndex].close && reason == TimeExit && !dualTouch
      invariant lowest == LowestOf(bars, entry, entryIndex, index)
      invariant highest == HighestOf(bars, entry, entryIndex, index)
    {
      highest := Max(highest, bars[index].high);
      lowest := Min(lowest, bars[index].low);
      var stopHit, targetHit := StopTouched(bars[index], stop), TargetTouched(bars[index], target);
      if stopHit && targetHit {
        dualTouch, exitIndex, exit, reason := true, index, stop, AmbiguousStopFirst;
        break;
      }
      if stopHit {
        exitIndex, exit, reason := index, stop, StoppedOut;
        break;
      }
      if targetHit {
        exitIndex, exit, reason := index, target, TargetHit;
        break;
      }
      index := index + 1;
    }
    r := ShadowResult(
      observedAt, bars[entryIndex].timestamp, bars[exitIndex].timestamp, entryIndex, exitIndex,
      entry, stop, target, exit, reason, exitIndex - entryIndex + 1, InR(entry - exit, distance), dualTouch,
      InR(Max(0.0, entry - lowest), distance), InR(Max(0.0, highest - entry), distance));
  }

  // ----- a result, read off the bars -----

  /** Why bar `b` closes a short trade, if it does: the stop comes first. */
  predicate ClosesFor(b: Bar, stop: real, target: real, reason: ShadowExit) {
    match reason
    case StoppedOut => b.high >= stop && b.low > target
    case AmbiguousStopFirst => b.high >= stop && b.low <= target
    case TargetHit => b.high < stop && b.low <= target
    case TimeExit => b.high < stop && b.low > target
  }

  /** The trade is closed by the first of the bars `lo..hi` that meets a level, or at the close of the last of them. */
  predicate ClosedOn(bars: seq<Bar>, stop: real, target: real, lo: nat, hi: nat, index: nat, exit: real, reason: ShadowExit) {
    && lo <= index < hi <= |bars|
    && (forall k :: lo <= k < index ==> ClosesFor(bars[k], stop, target, TimeExit))
    && ClosesFor(bars[index], stop, target, reason) && (reason == TimeExit ==> index == hi - 1)
    && exit == if reason == TimeExit then bars[index].close else if reason == TargetHit then target else stop
  }

  /** The price distance of a multiple of the stop distance. */
  function InPrice(multiple: real, distance: real): real {
    multiple * distance
  }

  /** Result and excursions of a short trade over some bars, counted in stop distances. */
  predicate CountedInR(bars: seq<Bar>, entry: real, exit: real, distance: real, result: real, mfe: real, mae: real) {
    && InPrice(result, distance) == entry - exit
    && CE.IsExcursion(entry, false, bars, InPrice(mfe, distance)) && CE.IsExcursion(entry, true, bars, InPrice(mae, distance))
  }

  /** The short trade from the open of a bar, on a stop at a given distance, held for at most 24 bars. */
  predicate IsShadowOf(bars: seq<Bar>, r: ShadowResult, observedAt: int, entryIndex: nat, distance: real, targetR: real) {
    && ClosedOn(bars, r.stop, r.target, entryIndex, entryIndex + 24, r.exitIndex, r.exit, r.reason)
    && r.entryIndex == entryIndex && r.observedAt == observedAt && r.holdingBars == r.exitIndex - entryIndex + 1
    && r.entryTime == bars[entryIndex].timestamp && r.exitTime == bars[r.exitIndex].timestamp
    && r.entry == bars[entryIndex].open && r.stop == r.entry + distance && r.target == r.entry - distance * targetR
    && (r.dualTouch <==> r.reason == AmbiguousStopFirst)
    && CountedInR(bars[entryIndex..r.exitIndex + 1], r.entry, r.exit, distance, r.resultR, r.mfeR, r.maeR)
  }

  lemma {:induction false} HighestIsExcursion(bars: seq<Bar>, price: real, lo: nat, hi: nat)
    requires lo <= hi <= |bars|
    ensures CE.IsExcursion(price, true, bars[lo..hi], HighestOf(bars, price, lo, hi) - price)
    decreases hi - lo
  {
    if lo < hi {
      HighestIsExcursion(bars, price, lo, hi - 1);
      ExcursionGrows(price, true, bars[lo..hi - 1], bars[hi - 1], HighestOf(bars, price, lo, hi - 1) - price);
      assert bars[lo..hi] == bars[lo..hi - 1] + [bars[hi - 1]];
    }
  }

  lemma {:induction false} LowestIsExcursion(bars: seq<Bar>, price: real, lo: nat, hi: nat)
    requires lo <= hi <= |bars|
    ensures CE.IsExcursion(price, false, bars[lo..hi], price - LowestOf(bars, price, lo, hi))
    decreases hi - lo
  {
    if lo < hi {
      LowestIsExcursion(bars, price, lo, hi - 1);
      ExcursionGrows(price, false, bars[lo..hi - 1], bars[hi - 1], price - LowestOf(bars, price, lo, hi - 1));
      assert bars[lo..hi] == bars[lo..hi - 1] + [bars[hi - 1]];
    }
  }

  lemma ExcursionGrows(price: real, rise: bool, bars: seq<Bar>, bar: Bar, top: real)
    requires CE.IsExcursion(price, rise, bars, top)
    ensures CE.IsExcursion(price, rise, bars + [bar], Max(top, if rise then CE.Above(price, bar) else CE.Below(price, bar)))
  {
    var longer := bars + [bar];
    assert bar == longer[|bars|];
    assert forall b <- bars :: b in longer;
    assert forall b <- longer :: b in bars || b == bar;
    hide CE.Above, CE.Below;
  }

  lemma InRTimes(move: real, distance: real)
    requires distance != 0.0
    ensures InPrice(InR(move, distance), distance) == move
  {
  }

  /** What ends the trade, and where. */
  lemma ClosingAsTold(bars: seq<Bar>, stop: real, target: real, lo: nat, hi: nat)
    requires lo < hi <= |bars|
    ensures var c := ClosingOf(bars, stop, target, lo, hi);
      ClosedOn(bars, stop, target, lo, hi, c.index, c.price, c.reason)
  {
  }

  lemma CountingAsTold(bars: seq<Bar>, lo: nat, hi: nat, entry: real, exit: real, distance: real)
    requires lo <= hi <= |bars| && distance != 0.0
    ensures CountedInR(bars[lo..hi], entry, exit, distance, InR(entry - exit, distance),
                       InR(Max(0.0, entry - LowestOf(bars, entry, lo, hi)), distance),
                       InR(Max(0.0, HighestOf(bars, entry, lo, hi) - entry), distance))
  {
    hide CE.IsExcursion, LowestOf, HighestOf, InR, InPrice, Max;
    LowestIsExcursion(bars, entry, lo, hi);
    ExcursionInR(entry, false, bars[lo..hi], entry - LowestOf(bars, entry, lo, hi), distance);
    HighestIsExcursion(bars, entry, lo, hi);
    ExcursionInR(entry, true, bars[lo..hi], HighestOf(bars, entry, lo, hi) - entry, distance);
    InRTimes(entry - exit, distance);
  }

  /** The fields of a result, in terms of how it closes. */
  lemma ShadowFields(bars: seq<Bar>, observedAt: int, entryIndex: nat, distance: real, targetR: real)
    requires entryIndex + HORIZON_BARS <= |bars| && distance != 0.0
    ensures var entry := bars[entryIndex].open;
      var target := TargetLevel(entry, distance, targetR);
      var c := ClosingOf(bars, entry + distance, target, entryIndex, entryIndex + HORIZON_BARS);
      SimulateShadow(bars, observedAt, entryIndex, distance, targetR)
      == ShadowResult(
           observedAt, bars[entryIndex].timestamp, bars[c.index].timestamp, entryIndex, c.index,
           entry, entry + distance, target, c.price, c.reason, c.index - entryIndex + 1,
           InR(entry - c.price, distance), c.reason.AmbiguousStopFirst?,
           InR(Max(0.0, entry - LowestOf(bars, entry, entryIndex, c.index + 1)), distance),
           InR(Max(0.0, HighestOf(bars, entry, entryIndex, c.index + 1) - entry), distance))
  {
    hide HighestOf, LowestOf, InR, TargetLevel, ClosingOf, Max;
  }

  /** An excursion counted in stop distances. */
  lemma ExcursionInR(price: real, rise: bool, bars: seq<Bar>, top: real, distance: real)
    requires CE.IsExcursion(price, rise, bars, top) && distance != 0.0
    ensures CE.IsExcursion(price, rise, bars, InPrice(InR(Max(0.0, top), distance), distance))
  {
    assert Max(0.0, top) == top;
    InRTimes(top, distance);
  }

  lemma ShadowAsTold(bars: seq<Bar>, observedAt: int, entryIndex: nat, distance: real, targetR: real)
    requires entryIndex + HORIZON_BARS <= |bars| && distance != 0.0
    ensures IsShadowOf(bars, SimulateShadow(bars, observedAt, entryIndex, distance, targetR), observedAt, entryIndex, distance, targetR)
  {
    ShadowFields(bars, observedAt, entryIndex, distance, targetR);
    hide SimulateShadow, ClosingOf, ClosedOn, CountedInR, LowestOf, HighestOf, InR, Max;
    var r := SimulateShadow(bars, observedAt, entryIndex, distance, targetR);
    ClosingAsTold(bars, r.stop, r.target, entryIndex, entryIndex + HORIZON_BARS);
    CountingAsTold(bars, entryIndex, r.exitIndex + 1, r.entry, r.exit, distance);
  }

  lemma OneClosing(
    bars: seq<Bar>, stop: real, target: real, lo: nat, hi: nat, i: nat, x: real, a: ShadowExit, j: nat, y: real, b: ShadowExit)
    requires ClosedOn(bars, stop, target, lo, hi, i, x, a) && ClosedOn(bars, stop, target, lo, hi, j, y, b)
    ensures (i, x, a) == (j, y, b)
  {
  }

  lemma OneCounting(
    bars: seq<Bar>, entry: real, exit: real, distance: real, r: real, mfe: real, mae: real, s: real, mfeS: real, maeS: real)
    requires distance != 0.0
    requires CountedInR(bars, entry, exit, distance, r, mfe, mae) && CountedInR(bars, entry, exit, distance, s, mfeS, maeS)
    ensures (r, mfe, mae) == (s, mfeS, maeS)
  {
    OneMultiple(r, s, distance);
    OneMultiple(mfe, mfeS, distance);
    OneMultiple(mae, maeS, distance);
    hide InPrice, CE.Above, CE.Below;
  }

  lemma OneMultiple(x: real, y: real, distance: real)
    requires distance != 0.0
    ensures InPrice(x, distance) == InPrice(y, distance) ==> x == y
  {
    assert InPrice(x, distance) / distance == x && InPrice(y, distance) / distance == y;
  }

  /** No other result fits the description. */
  lemma OnlyOneShadow(
    bars: seq<Bar>, a: ShadowResult, b: ShadowResult, observedAt: int, entryIndex: nat, distance: real, targetR: real)
    requires distance != 0.0 && IsShadowOf(bars, a, observedAt, entryIndex, distance, targetR)
    requires IsShadowOf(bars, b, observedAt, entryIndex, distance, targetR)
    ensures a == b
  {
    assert entryIndex <= a.exitIndex < |bars|;
    hide ClosedOn, CountedInR;
    OneClosing(bars, a.stop, a.target, entryIndex, entryIndex + 24, a.exitIndex, a.exit, a.reason, b.exitIndex, b.exit, b.reason);
    OneCounting(bars[entryIndex..a.exitIndex + 1], a.entry, a.exit, distance, a.resultR, a.mfeR, a.maeR, b.resultR, b.mfeR, b.maeR);
  }

  // ----- what a result can be -----

  lemma ShadowClosing(bars: seq<Bar>, observedAt: int, entryIndex: nat, distance: real, targetR: real)
    requires entryIndex + HORIZON_BARS <= |bars| && distance != 0.0
    ensures var entry := bars[entryIndex].open;
      var c := ClosingOf(bars, entry + distance, TargetLevel(entry, distance, targetR), entryIndex, entryIndex + HORIZON_BARS);
      var a := SimulateShadow(bars, observedAt, entryIndex, distance, targetR);
      && (a.exitIndex, a.entry, a.exit, a.reason) == (c.index, entry, c.price, c.reason)
      && a.resultR == InR(entry - c.price, distance) && a.holdingBars == c.index - entryIndex + 1
      && (a.observedAt, a.entryTime, a.exitTime) == (observedAt, bars[entryIndex].timestamp, bars[c.index].timestamp)
  {
    hide HighestOf, LowestOf, InR, TargetLevel, ClosingOf;
  }

  lemma RatioCancels(x: real, d: real)
    requires d != 0.0
    ensures (d * x) / d == x && (x * d) / d == x
  {
  }

  lemma RatioBetween(x: real, top: real, d: real)
    requires d > 0.0 && -d < x < d * top
    ensures -1.0 < x / d < top
  {
    var q := x / d;
    assert q * d == x;
  }

  /** A stop closes at the stop, a target at the target, and a timeout between them if its candle holds its own close. */
  lemma ClosingPrice(bars: seq<Bar>, stop: real, target: real, lo: nat, hi: nat)
    requires lo < hi <= |bars|
    ensures var c := ClosingOf(bars, stop, target, lo, hi);
      && lo <= c.index < hi
      && (Stopped(c.reason) ==> c.price == stop) && (c.reason.TargetHit? ==> c.price == target)
      && (c.reason.TimeExit? && bars[hi - 1].low <= bars[hi - 1].close <= bars[hi - 1].high ==> target < c.price < stop)
  {
  }

  lemma MoveInR(entry: real, distance: real, targetR: real, exit: real)
    requires distance > 0.0
    ensures exit == entry + distance ==> InR(entry - exit, distance) == -1.0
    ensures exit == TargetLevel(entry, distance, targetR) ==> InR(entry - exit, distance) == targetR
    ensures TargetLevel(entry, distance, targetR) < exit < entry + distance ==> -1.0 < InR(entry - exit, distance) < targetR
  {
    RatioCancels(-1.0, distance);
    RatioCancels(targetR, distance);
    if TargetLevel(entry, distance, targetR) < exit < entry + distance {
      RatioBetween(entry - exit, targetR, distance);
    }
  }

  /** Minus one for every stop, the target multiple for every target, and strictly between on a timeout
      whose last candle holds its own close. */
  lemma ResultInR(bars: seq<Bar>, observedAt: int, entryIndex: nat, distance: real, targetR: real)
    requires entryIndex + HORIZON_BARS <= |bars| && distance > 0.0
    ensures var r := SimulateShadow(bars, observedAt, entryIndex, distance, targetR);
      var final := bars[entryIndex + HORIZON_BARS - 1];
      && 1 <= r.holdingBars <= HORIZON_BARS && entryIndex <= r.exitIndex < entryIndex + HORIZON_BARS
      && (Stopped(r.reason) ==> r.resultR == -1.0)
      && (r.reason.TargetHit? ==> r.resultR == targetR)
      && (r.reason.TimeExit? && final.low <= final.close <= final.high ==> -1.0 < r.resultR < targetR)
  {
    hide SimulateShadow, InR, TargetLevel, ClosingOf;
    var entry := bars[entryIndex].open;
    var r := SimulateShadow(bars, observedAt, entryIndex, distance, targetR);
    ShadowClosing(bars, observedAt, entryIndex, distance, targetR);
    ClosingPrice(bars, entry + distance, TargetLevel(entry, distance, targetR), entryIndex, entryIndex + HORIZON_BARS);
    MoveInR(entry, distance, targetR, r.exit);
  }

  lemma {:induction false} NearerTargetTouchesFirst(
    bars: seq<Bar>, stop: real, near: real, far: real, lo: nat, hi: nat)
    requires lo <= hi <= |bars| && far <= near
    ensures FirstTouch(bars, stop, near, lo, hi) <= FirstTouch(bars, stop, far, lo, hi)
    decreases hi - lo
  {
    if lo < hi {
      NearerTargetTouchesFirst(bars, stop, near, far, lo + 1, hi);
    }
  }

  lemma NearerTargetClosesFirst(bars: seq<Bar>, stop: real, near: real, far: real, lo: nat, hi: nat)
    requires lo < hi <= |bars| && far <= near
    ensures var a, b := ClosingOf(bars, stop, near, lo, hi), ClosingOf(bars, stop, far, lo, hi);
      && a.index <= b.index
      && (Stopped(a.reason) ==> Stopped(b.reason) && (b.index, b.price) == (a.index, a.price))
      && (a.reason.TimeExit? ==> b == a)
  {
    NearerTargetTouchesFirst(bars, stop, near, far, lo, hi);
    hide FirstTouch;
  }

  /** A larger target never exits earlier, and a stop-out at a smaller target is the same stop-out at a larger one. */
  lemma LargerTargetExitsLater(
    bars: seq<Bar>, observedAt: int, entryIndex: nat, distance: real, smaller: real, larger: real)
    requires entryIndex + HORIZON_BARS <= |bars| && distance > 0.0 && smaller <= larger
    ensures var a := SimulateShadow(bars, observedAt, entryIndex, distance, smaller);
      var b := SimulateShadow(bars, observedAt, entryIndex, distance, larger);
      && a.exitIndex <= b.exitIndex
      && (Stopped(a.reason) ==>
            Stopped(b.reason) && (b.exitIndex, b.exit, b.resultR) == (a.exitIndex, a.exit, a.resultR))
      && (a.reason.TimeExit? ==> (b.reason, b.exitIndex, b.exit, b.resultR) == (a.reason, a.exitIndex, a.exit, a.resultR))
  {
    hide HighestOf, LowestOf, InR, ClosingOf;
    var entry := bars[entryIndex].open;
    assert TargetLevel(entry, distance, larger) <= TargetLevel(entry, distance, smaller);
    hide TargetLevel;
    NearerTargetClosesFirst(bars, entry + distance, TargetLevel(entry, distance, smaller), TargetLevel(entry, distance, larger),
                            entryIndex, entryIndex + HORIZON_BARS);
  }

  // ----- the fixed-distance simulator with costs -----

  const STOP_DISTANCE := 2.5

  datatype ShadowTrade = ShadowTrade(
    targetR: real, observedAt: int, entryTime: int, exitTime: int, exitIndex: nat,
    entry: real, stop: real, target: real, exit: real, reason: ShadowExit, holdingBars: int,
    grossR: real, netR: real, gross: real, net: real, spreadCost: real, slippageCost: real, commission: real,
    mfe: real, mae: real)

  function LastHeld(bars: seq<Bar>, entryIndex: nat): nat
    requires entryIndex < |bars|
  {
    if entryIndex + HORIZON_BARS <= |bars| then entryIndex + HORIZON_BARS - 1 else |bars| - 1
  }

  /** The value of a price distance at one lot. */
  function Value(e: Economics, move: real): real {
    Money(e, move, 1.0)
  }

  function RiskCurrency(e: Economics): (risk: real)
    ensures risk > 0.0
  {
    ValueIsProportional(e, STOP_DISTANCE);
    Value(e, STOP_DISTANCE)
  }

  lemma ValueIsProportional(e: Economics, move: real)
    ensures e.tickValue / e.tickSize > 0.0
    ensures Value(e, move) == move * (e.tickValue / e.tickSize)
  {
  }

  /** One lot, sold at the bar's open less slippage; the horizon may be cut short by the end of the data. */
  function SimulateCandidate(e: Economics, bars: seq<Bar>, observedAt: int, entryIndex: nat, targetR: real): ShadowTrade
    requires entryIndex < |bars|
  {
    var reference := bars[entryIndex].open;
    var entry := reference - e.Slippage();
    var stop, target := reference + STOP_DISTANCE, TargetLevel(reference, STOP_DISTANCE, targetR);
    var end := LastHeld(bars, entryIndex) + 1;
    var touch := FirstTouch(bars, stop, target, entryIndex, end);
    var timedOut := touch == end;
    var stopped := !timedOut && StopTouched(bars[touch], stop);
    var reason := if timedOut then TimeExit else if stopped then StoppedOut else TargetHit;
    var exitReference := if timedOut then bars[end - 1].close else if stopped then stop else target;
    var exitSlippage := if reason.TargetHit? then 0.0 else e.Slippage();
    var exitIndex := if timedOut then end - 1 else touch;
    var exit := exitReference + exitSlippage;
    var gross := Value(e, entry - exit);
    var net := gross - SpreadCost(e, 1.0) - Commission(e, 1.0);
    ShadowTrade(
      targetR, observedAt, bars[entryIndex].timestamp, bars[exitIndex].timestamp, exitIndex,
      entry, stop, target, exit, reason, exitIndex - entryIndex + 1,
      InR(gross, RiskCurrency(e)), InR(net, RiskCurrency(e)), gross, net,
      SpreadCost(e, 1.0), Value(e, e.Slippage() + exitSlippage), Commission(e, 1.0),
      Max(0.0, entry - LowestOf(bars, entry, entryIndex, exitIndex + 1)),
      Max(0.0, HighestOf(bars, entry, entryIndex, exitIndex + 1) - entry))
  }

  method RunCandidate(e: Economics, bars: seq<Bar>, observedAt: int, entryIndex: nat, targetR: real) returns (r: ShadowTrade)
    requires entryIndex < |bars|
    ensures r == SimulateCandidate(e, bars, observedAt, entryIndex, targetR)
  {
    hide InR, FirstTouch, TargetLevel, Value, RiskCurrency, SpreadCost;
    var reference := bars[entryIndex].open;
    var entry := reference - e.Slippage();
    var stop, target := reference + STOP_DISTANCE, TargetLevel(reference, STOP_DISTANCE, targetR);
    var finalIndex := LastHeld(bars, entryIndex);
    var reason, exitReference, exitIndex, slips := TimeExit, bars[finalIndex].close, finalIndex, true;
    var lowest, highest := entry, entry;
    ghost var touch := FirstTouch(bars, stop, target, entryIndex, finalIndex + 1);
    var index := entryIndex;
    while index <= finalIndex
      invariant entryIndex <= index <= finalIndex + 1 && index <= touch
      invariant reason == TimeExit && exitReference == bars[finalIndex].close && exitIndex == finalIndex && slips
      invariant lowest == LowestOf(bars, entry, entryIndex, index)
      invariant highest == HighestOf(bars, entry, entryIndex, index)
    {
      highest := Max(highest, bars[index].high);
      lowest := Min(lowest, bars[index].low);
      if StopTouched(bars[index], stop) {
        reason, exitReference, exitIndex, slips := StoppedOut, stop, index, true;
        break;
      }
      if TargetTouched(bars[index], target) {
        reason, exitReference, exitIndex, slips := TargetHit, target, index, false;
        break;
      }
      index := index + 1;
    }
    var exitSlippage := if slips then e.Slippage() else 0.0;
    var exit := exitReference + exitSlippage;
    var gross := Value(e, entry - exit);
    var net := gross - SpreadCost(e, 1.0) - Commission(e, 1.0);
    r := ShadowTrade(
      targetR, observedAt, bars[entryIndex].timestamp, bars[exitIndex].timestamp, exitIndex,
      entry, stop, target, exit, reason, exitIndex - entryIndex + 1,
      InR(gross, RiskCurrency(e)), InR(net, RiskCurrency(e)), gross, net,
      SpreadCost(e, 1.0), Value(e, e.Slippage() + exitSlippage), Commission(e, 1.0),
      Max(0.0, entry - lowest), Max(0.0, highest - entry));
  }

  // ----- a trade with costs, read off the bars -----

  /** The money of a one-lot trade: slippage charged on each slipped fill, the spread and the commission, and the results
      in units of the money at risk over the fixed stop distance. */
  predicate CostsOf(e: Economics, r: ShadowTrade) {
    var slip := e.Slippage();
    && r.gross == Money(e, r.entry - r.exit, 1.0)
    && r.slippageCost == Money(e, if r.reason == TargetHit then slip else slip + slip, 1.0)
    && TS.CostsCharged(e, 1.0, r.spreadCost, r.commission) && r.net == r.gross - r.spreadCost - r.commission
    && InPrice(r.grossR, Money(e, 2.5, 1.0)) == r.gross && InPrice(r.netR, Money(e, 2.5, 1.0)) == r.net
  }

  /** The trade is held for at most 24 bars, or to the end of the data; a bar that meets both levels is a stop, and every
      exit but that at the target slips. */
  predicate ClosedWithSlippage(e: Economics, bars: seq<Bar>, r: ShadowTrade, entryIndex: nat) {
    var end := if entryIndex + 24 <= |bars| then entryIndex + 24 else |bars|;
    var trigger := if r.reason == TargetHit then r.exit else r.exit - e.Slippage();
    && r.reason != AmbiguousStopFirst
    && (|| ClosedOn(bars, r.stop, r.target, entryIndex, end, r.exitIndex, trigger, r.reason)
        || (r.reason == StoppedOut
            && ClosedOn(bars, r.stop, r.target, entryIndex, end, r.exitIndex, trigger, AmbiguousStopFirst)))
  }

  /** The short trade sold at the open of a bar less slippage, on levels measured from that open. */
  predicate IsCostedTradeOf(e: Economics, bars: seq<Bar>, r: ShadowTrade, observedAt: int, entryIndex: nat, targetR: real)
    requires entryIndex < |bars|
  {
    && entryIndex <= r.exitIndex < |bars| && ClosedWithSlippage(e, bars, r, entryIndex)
    && r.targetR == targetR && r.observedAt == observedAt && r.holdingBars == r.exitIndex - entryIndex + 1
    && r.entry == bars[entryIndex].open - e.Slippage()
    && r.stop == bars[entryIndex].open + 2.5 && r.target == bars[entryIndex].open - 2.5 * targetR
    && r.entryTime == bars[entryIndex].timestamp && r.exitTime == bars[r.exitIndex].timestamp
    && CE.IsExcursion(r.entry, false, bars[entryIndex..r.exitIndex + 1], r.mfe)
    && CE.IsExcursion(r.entry, true, bars[entryIndex..r.exitIndex + 1], r.mae)
    && CostsOf(e, r)
  }

  lemma CostsAsTold(e: Economics, r: ShadowTrade)
    requires r.gross == Value(e, r.entry - r.exit) && r.net == r.gross - r.spreadCost - r.commission
    requires r.slippageCost == Value(e, e.Slippage() + if r.reason == TargetHit then 0.0 else e.Slippage())
    requires r.spreadCost == SpreadCost(e, 1.0) && r.commission == Commission(e, 1.0)
    requires r.grossR == InR(r.gross, RiskCurrency(e)) && r.netR == InR(r.net, RiskCurrency(e))
    ensures CostsOf(e, r)
  {
    hide TS.CostsCharged, Money, InR, InPrice, SpreadCost, Commission, RawEconomics.Slippage;
    TS.CostsAreCharged(e, 1.0);
    assert RiskCurrency(e) == Money(e, 2.5, 1.0);
    InRTimes(r.gross, RiskCurrency(e));
    InRTimes(r.net, RiskCurrency(e));
  }

  /** What is recorded of a candidate: how it closed, in terms of the levels. */
  lemma CandidateCloses(e: Economics, bars: seq<Bar>, observedAt: int, entryIndex: nat, targetR: real)
    requires entryIndex < |bars|
    ensures var r := SimulateCandidate(e, bars, observedAt, entryIndex, targetR);
      var reference := bars[entryIndex].open;
      var c := ClosingOf(bars, r.stop, r.target, entryIndex, LastHeld(bars, entryIndex) + 1);
      && r.targetR == targetR && r.observedAt == observedAt && r.holdingBars == c.index - entryIndex + 1
      && r.entry == reference - e.Slippage() && r.exitIndex == c.index
      && r.stop == reference + STOP_DISTANCE && r.target == TargetLevel(reference, STOP_DISTANCE, targetR)
      && r.reason == (if c.reason == AmbiguousStopFirst then StoppedOut else c.reason)
      && r.exit == c.price + (if r.reason == TargetHit then 0.0 else e.Slippage())
      && r.entryTime == bars[entryIndex].timestamp && r.exitTime == bars[c.index].timestamp
      && r.mfe == Max(0.0, r.entry - LowestOf(bars, r.entry, entryIndex, c.index + 1))
      && r.mae == Max(0.0, HighestOf(bars, r.entry, entryIndex, c.index + 1) - r.entry)
  {
    hide InR, FirstTouch, TargetLevel, Value, RiskCurrency, SpreadCost, HighestOf, LowestOf, Max;
  }

  lemma CandidateCosts(e: Economics, bars: seq<Bar>, observedAt: int, entryIndex: nat, targetR: real)
    requires entryIndex < |bars|
    ensures CostsOf(e, SimulateCandidate(e, bars, observedAt, entryIndex, targetR))
  {
    hide InR, FirstTouch, TargetLevel, Value, RiskCurrency, SpreadCost, HighestOf, LowestOf, Max, CostsOf, Commission;
    CostsAsTold(e, SimulateCandidate(e, bars, observedAt, entryIndex, targetR));
  }

  lemma CandidateAsTold(e: Economics, bars: seq<Bar>, observedAt: int, entryIndex: nat, targetR: real)
    requires entryIndex < |bars|
    ensures IsCostedTradeOf(e, bars, SimulateCandidate(e, bars, observedAt, entryIndex, targetR), observedAt, entryIndex, targetR)
  {
    var r := SimulateCandidate(e, bars, observedAt, entryIndex, targetR);
    CandidateCloses(e, bars, observedAt, entryIndex, targetR);
    CandidateCosts(e, bars, observedAt, entryIndex, targetR);
    hide SimulateCandidate, CostsOf, ClosedOn, ClosingOf, HighestOf, LowestOf, CE.IsExcursion, Max, ClosedWithSlippage,
         RawEconomics.Slippage;
    SlippedClosing(e, bars, r, entryIndex);
    ExcursionsAsTold(bars, entryIndex, r.exitIndex + 1, r.entry);
  }

  lemma SlippedClosing(e: Economics, bars: seq<Bar>, r: ShadowTrade, entryIndex: nat)
    requires entryIndex < |bars|
    requires var c := ClosingOf(bars, r.stop, r.target, entryIndex, LastHeld(bars, entryIndex) + 1);
      && r.exitIndex == c.index && r.reason == (if c.reason == AmbiguousStopFirst then StoppedOut else c.reason)
      && r.exit == c.price + (if r.reason == TargetHit then 0.0 else e.Slippage())
    ensures ClosedWithSlippage(e, bars, r, entryIndex)
  {
    hide ClosedOn, ClosingOf, RawEconomics.Slippage;
    ClosingAsTold(bars, r.stop, r.target, entryIndex, LastHeld(bars, entryIndex) + 1);
  }

  lemma ExcursionsAsTold(bars: seq<Bar>, lo: nat, hi: nat, price: real)
    requires lo <= hi <= |bars|
    ensures CE.IsExcursion(price, false, bars[lo..hi], Max(0.0, price - LowestOf(bars, price, lo, hi)))
    ensures CE.IsExcursion(price, true, bars[lo..hi], Max(0.0, HighestOf(bars, price, lo, hi) - price))
  {
    hide LowestOf, HighestOf;
    LowestIsExcursion(bars, price, lo, hi);
    HighestIsExcursion(bars, price, lo, hi);
  }

  lemma ValueInR(e: Economics, move: real)
    ensures InR(Value(e, move), RiskCurrency(e)) == InR(move, STOP_DISTANCE)
  {
    ValueIsProportional(e, move);
    ValueIsProportional(e, STOP_DISTANCE);
    hide Value;
    var unit := e.tickValue / e.tickSize;
    assert (move * unit) / (STOP_DISTANCE * unit) == move / STOP_DISTANCE;
  }

  lemma ClosingsAgree(e: Economics, bars: seq<Bar>, observedAt: int, entryIndex: nat, targetR: real)
    requires entryIndex + HORIZON_BARS <= |bars| && e.slippagePoints == 0.0
    ensures var entry := bars[entryIndex].open;
      var c := ClosingOf(bars, entry + STOP_DISTANCE, TargetLevel(entry, STOP_DISTANCE, targetR),
                         entryIndex, entryIndex + HORIZON_BARS);
      var b := SimulateCandidate(e, bars, observedAt, entryIndex, targetR);
      && (b.exitIndex, b.entry, b.exit) == (c.index, entry, c.price)
      && b.reason == (if c.reason.AmbiguousStopFirst? then StoppedOut else c.reason)
      && b.grossR == InR(Value(e, entry - c.price), RiskCurrency(e)) && b.holdingBars == c.index - entryIndex + 1
      && (b.observedAt, b.entryTime, b.exitTime) == (observedAt, bars[entryIndex].timestamp, bars[c.index].timestamp)
  {
    hide InR, FirstTouch, TargetLevel, Value, RiskCurrency, SpreadCost, HighestOf, LowestOf;
    assert e.Slippage() == 0.0;
  }

  /** Without slippage, on the same stop distance and a complete horizon, the two simulators agree. */
  lemma SimulatorsAgree(e: Economics, bars: seq<Bar>, observedAt: int, entryIndex: nat, targetR: real)
    requires entryIndex + HORIZON_BARS <= |bars| && e.slippagePoints == 0.0
    ensures var a := SimulateShadow(bars, observedAt, entryIndex, STOP_DISTANCE, targetR);
      var b := SimulateCandidate(e, bars, observedAt, entryIndex, targetR);
      && (a.exitIndex, a.entry, a.exit, a.resultR) == (b.exitIndex, b.entry, b.exit, b.grossR)
      && (a.observedAt, a.entryTime, a.exitTime, a.holdingBars) == (b.observedAt, b.entryTime, b.exitTime, b.holdingBars)
      && b.reason == if a.reason.AmbiguousStopFirst? then StoppedOut else a.reason
  {
    hide InR, TargetLevel, SimulateShadow, SimulateCandidate, Value, RiskCurrency, ClosingOf;
    ClosingsAgree(e, bars, observedAt, entryIndex, targetR);
    ShadowClosing(bars, observedAt, entryIndex, STOP_DISTANCE, targetR);
    var a := SimulateShadow(bars, observedAt, entryIndex, STOP_DISTANCE, targetR);
    ValueInR(e, a.entry - a.exit);
  }
}

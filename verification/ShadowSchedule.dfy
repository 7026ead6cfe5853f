/** The greedy one-position-at-a-time schedule of shadow trades, for every stop and target scenario. */
module ShadowSchedule {
  import opened Wrappers
  import opened Market
  import opened ShadowSimulation
  import opened Sequences
  import opened TimeLookups

  datatype MatrixError = BarsNotIncreasing | ZeroStopDistance

  datatype Schedule = Schedule(results: seq<ShadowResult>, skipped: nat, unavailable: nat, activeUntil: Option<int>)

  /** The first bar that opens after `t`, or the number of bars. */
  function EntryIndex(bars: seq<Bar>, t: int): (at: nat)
    ensures at <= |bars|
    ensures at < |bars| ==> bars[at].timestamp > t
    ensures at > 0 ==> bars[at - 1].timestamp <= t
  {
    if bars == [] then 0
    else if bars[|bars| - 1].timestamp > t then EntryIndex(bars[..|bars| - 1], t)
    else |bars|
  }

  /** There is an ATR before the entry and a complete horizon after it. */
  predicate Available(bars: seq<Bar>, t: int) {
    var entry := EntryIndex(bars, t);
    entry < |bars| && Atr(bars, entry).Some? && entry + HORIZON_BARS <= |bars|
  }

  function StopDistanceAt(bars: seq<Bar>, t: int, stopMultiple: real): real
    requires Available(bars, t)
  {
    Atr(bars, EntryIndex(bars, t)).value * stopMultiple
  }

  /** What the schedule does with one more candidate observed at `t`. */
  function Consider(bars: seq<Bar>, s: Schedule, t: int, stopMultiple: real, targetR: real): Result<Schedule, MatrixError> {
    if s.activeUntil.Some? && t <= s.activeUntil.value then Ok(s.(skipped := s.skipped + 1))
    else if !Available(bars, t) then Ok(s.(unavailable := s.unavailable + 1))
    else if StopDistanceAt(bars, t, stopMultiple) == 0.0 then Err(ZeroStopDistance)
    else
      var r := SimulateShadow(bars, t, EntryIndex(bars, t), StopDistanceAt(bars, t, stopMultiple), targetR);
      Ok(s.(results := s.results + [r], activeUntil := Some(r.exitTime)))
  }

  function ScheduleOf(bars: seq<Bar>, candidates: seq<int>, stopMultiple: real, targetR: real): Result<Schedule, MatrixError> {
    if candidates == [] then Ok(Schedule([], 0, 0, None))
    else
      match ScheduleOf(bars, candidates[..|candidates| - 1], stopMultiple, targetR)
      case Err(e) => Err(e)
      case Ok(s) => Consider(bars, s, candidates[|candidates| - 1], stopMultiple, targetR)
  }

  // ----- what a schedule guarantees -----

  predicate NonDecreasing(times: seq<int>) {
    forall i, j :: 0 <= i < j < |times| ==> times[i] <= times[j]
  }

  /** `r` is the shadow trade of an available candidate, entered on the first bar after its observation. */
  predicate Executed(bars: seq<Bar>, r: ShadowResult, stopMultiple: real, targetR: real) {
    && Available(bars, r.observedAt) && StopDistanceAt(bars, r.observedAt, stopMultiple) != 0.0
    && r == SimulateShadow(bars, r.observedAt, EntryIndex(bars, r.observedAt),
                           StopDistanceAt(bars, r.observedAt, stopMultiple), targetR)
  }

  /** A candidate was executed, or arrived while a trade was open, or could not be simulated. */
  ghost predicate Accounted(bars: seq<Bar>, results: seq<ShadowResult>, t: int) {
    !Available(bars, t) || Held(results, t)
  }

  /** A trade observed at or before `t` had not closed before `t`. */
  predicate Held(results: seq<ShadowResult>, t: int) {
    exists r <- results :: r.observedAt <= t <= r.exitTime
  }

  /** How many of the candidates arrived when no trade was held. */
  function Idle(candidates: seq<int>, results: seq<ShadowResult>): nat {
    if candidates == [] then 0 else Idle(Front(candidates), results) + if Held(results, Last(candidates)) then 0 else 1
  }

  ghost predicate ScheduleSound(bars: seq<Bar>, candidates: seq<int>, s: Schedule, stopMultiple: real, targetR: real) {
    && |s.results| + s.skipped + s.unavailable == |candidates| && s.unavailable == Idle(candidates, s.results)
    && (forall r <- s.results :: r.observedAt in candidates && Executed(bars, r, stopMultiple, targetR))
    && Disjoint(s.results)
    && s.activeUntil == (if s.results == [] then None else Some(s.results[|s.results| - 1].exitTime))
    && forall t <- candidates :: Accounted(bars, s.results, t)
  }

  lemma LaterEntry(bars: seq<Bar>, exitIndex: nat, t: int)
    requires Chronological(bars) && exitIndex < |bars| && bars[exitIndex].timestamp < t && EntryIndex(bars, t) < |bars|
    ensures exitIndex < EntryIndex(bars, t)
  {
  }

  lemma ExecutedBounds(bars: seq<Bar>, r: ShadowResult, stopMultiple: real, targetR: real)
    requires Executed(bars, r, stopMultiple, targetR)
    ensures r.entryIndex == EntryIndex(bars, r.observedAt) <= r.exitIndex < r.entryIndex + HORIZON_BARS <= |bars|
    ensures r.exitTime == bars[r.exitIndex].timestamp && r.entryTime == bars[r.entryIndex].timestamp > r.observedAt
    ensures 1 <= r.holdingBars <= HORIZON_BARS && r.holdingBars == r.exitIndex - r.entryIndex + 1
  {
    hide HighestOf, LowestOf, Atr;
  }

  lemma ClosesAfterObserved(bars: seq<Bar>, r: ShadowResult, stopMultiple: real, targetR: real)
    requires Executed(bars, r, stopMultiple, targetR) && Chronological(bars)
    ensures r.observedAt < r.exitTime
  {
    ExecutedBounds(bars, r, stopMultiple, targetR);
    hide Executed, EntryIndex;
  }

  /** A candidate that only raises a counter. */
  lemma CountingKeepsSound(
    bars: seq<Bar>, candidates: seq<int>, s: Schedule, next: Schedule, t: int, stopMultiple: real, targetR: real)
    requires ScheduleSound(bars, candidates, s, stopMultiple, targetR)
    requires (next.results, next.activeUntil) == (s.results, s.activeUntil)
    requires if Held(s.results, t) then (next.skipped, next.unavailable) == (s.skipped + 1, s.unavailable)
             else (next.skipped, next.unavailable) == (s.skipped, s.unavailable + 1)
    requires Accounted(bars, s.results, t)
    ensures ScheduleSound(bars, candidates + [t], next, stopMultiple, targetR)
  {
    hide Executed, Accounted, Held, Disjoint;
    assert Front(candidates + [t]) == candidates;
  }

  /** Held times are those up to the last exit. */
  lemma HeldUntilLastExit(bars: seq<Bar>, candidates: seq<int>, s: Schedule, t: int, stopMultiple: real, targetR: real)
    requires ScheduleSound(bars, candidates, s, stopMultiple, targetR) && forall c <- candidates :: c <= t
    ensures Held(s.results, t) <==> s.activeUntil.Some? && t <= s.activeUntil.value
  {
    hide Executed, Available, Idle;
    if s.results != [] {
      var last := s.results[|s.results| - 1];
      assert last in s.results && last.observedAt in candidates;
      forall r <- s.results
        ensures r == last || r.exitTime < last.observedAt
      {
        var i :| 0 <= i < |s.results| && s.results[i] == r;
      }
    }
  }

  /** One more trade, observed when no trade was held, holds none of the earlier candidates that were idle. */
  lemma {:induction false} IdleStays(candidates: seq<int>, bars: seq<Bar>, results: seq<ShadowResult>, r: ShadowResult)
    requires forall c <- candidates :: c <= r.observedAt && Accounted(bars, results, c)
    requires Available(bars, r.observedAt) && !Held(results, r.observedAt)
    ensures Idle(candidates, results + [r]) == Idle(candidates, results)
    decreases |candidates|
  {
    hide Available;
    if candidates != [] {
      var c := Last(candidates);
      assert c in candidates && forall e <- Front(candidates) :: e in candidates;
      IdleStays(Front(candidates), bars, results, r);
      HeldByOneMore(results, r, c);
    }
  }

  lemma HeldByOneMore(results: seq<ShadowResult>, r: ShadowResult, t: int)
    ensures Held(results + [r], t) <==> Held(results, t) || r.observedAt <= t <= r.exitTime
  {
    assert r == (results + [r])[|results|];
    assert forall e <- results :: e in results + [r];
  }

  /** Each trade is observed after the earlier ones have closed, and entered on a later bar than theirs. */
  ghost predicate Disjoint(results: seq<ShadowResult>) {
    forall i, j :: 0 <= i < j < |results| ==>
      results[i].exitTime < results[j].observedAt && results[i].exitIndex < results[j].entryIndex
  }

  /** A trade entered after the last one has closed comes after all of them. */
  lemma DisjointGrows(bars: seq<Bar>, results: seq<ShadowResult>, r: ShadowResult, stopMultiple: real, targetR: real)
    requires Chronological(bars) && Disjoint(results)
    requires (forall e <- results :: Executed(bars, e, stopMultiple, targetR)) && Executed(bars, r, stopMultiple, targetR)
    requires results != [] ==> r.observedAt > results[|results| - 1].exitTime
    ensures Disjoint(results + [r])
  {
    hide Executed, Chronological;
    if results != [] {
      var last := results[|results| - 1];
      assert last in results;
      ExecutedBounds(bars, last, stopMultiple, targetR);
      ExecutedBounds(bars, r, stopMultiple, targetR);
      ClosesAfterObserved(bars, last, stopMultiple, targetR);
      LaterEntry(bars, last.exitIndex, r.observedAt);
      EntriesInOrder(bars, results, stopMultiple, targetR);
      hide EntryIndex, Available;
      assert forall i :: 0 <= i < |results| - 1 ==> results[i].exitTime < last.observedAt;
    }
  }

  /** A candidate that is executed after the last trade has closed. */
  lemma ExecutingKeepsSound(
    bars: seq<Bar>, candidates: seq<int>, s: Schedule, next: Schedule, r: ShadowResult, stopMultiple: real, targetR: real)
    requires Chronological(bars) && ScheduleSound(bars, candidates, s, stopMultiple, targetR)
    requires Executed(bars, r, stopMultiple, targetR) && forall c <- candidates :: c <= r.observedAt
    requires s.activeUntil.Some? ==> r.observedAt > s.activeUntil.value
    requires next == s.(results := s.results + [r], activeUntil := Some(r.exitTime))
    ensures ScheduleSound(bars, candidates + [r.observedAt], next, stopMultiple, targetR)
  {
    hide Executed, Chronological, Disjoint, Available, Idle, Held, Accounted;
    ExecutedIsAvailable(bars, r, stopMultiple, targetR);
    HeldUntilLastExit(bars, candidates, s, r.observedAt, stopMultiple, targetR);
    ClosesAfterObserved(bars, r, stopMultiple, targetR);
    IdleStays(candidates, bars, s.results, r);
    IdleByLast(candidates, r.observedAt, next.results);
    HeldByOneMore(s.results, r, r.observedAt);
    AccountedGrows(bars, candidates, s.results, next.results);
    DisjointGrows(bars, s.results, r, stopMultiple, targetR);
    HeldIsAccounted(bars, next.results, r.observedAt);
  }

  lemma HeldIsAccounted(bars: seq<Bar>, results: seq<ShadowResult>, t: int)
    requires Held(results, t)
    ensures Accounted(bars, results, t)
  {
  }

  lemma ExecutedIsAvailable(bars: seq<Bar>, r: ShadowResult, stopMultiple: real, targetR: real)
    requires Executed(bars, r, stopMultiple, targetR)
    ensures Available(bars, r.observedAt)
  {
    hide SimulateShadow, Available;
  }

  lemma IdleByLast(candidates: seq<int>, t: int, results: seq<ShadowResult>)
    ensures Idle(candidates + [t], results) == Idle(candidates, results) + if Held(results, t) then 0 else 1
  {
    assert Front(candidates + [t]) == candidates;
    hide Held;
  }

  lemma ConsiderKeepsSound(
    bars: seq<Bar>, candidates: seq<int>, s: Schedule, t: int, stopMultiple: real, targetR: real)
    requires Chronological(bars) && ScheduleSound(bars, candidates, s, stopMultiple, targetR)
    requires forall c <- candidates :: c <= t
    requires Consider(bars, s, t, stopMultiple, targetR).Ok?
    ensures ScheduleSound(bars, candidates + [t], Consider(bars, s, t, stopMultiple, targetR).value, stopMultiple, targetR)
  {
    hide SimulateShadow, Available, EntryIndex, StopDistanceAt, Chronological, ScheduleSound, Held, Executed;
    HeldUntilLastExit(bars, candidates, s, t, stopMultiple, targetR);
    var next := Consider(bars, s, t, stopMultiple, targetR).value;
    if (s.activeUntil.Some? && t <= s.activeUntil.value) || !Available(bars, t) {
      CountingKeepsSound(bars, candidates, s, next, t, stopMultiple, targetR);
    } else {
      var r := ConsideredIsExecuted(bars, s, t, stopMultiple, targetR);
      ExecutingKeepsSound(bars, candidates, s, next, r, stopMultiple, targetR);
    }
  }

  lemma ConsideredIsExecuted(bars: seq<Bar>, s: Schedule, t: int, stopMultiple: real, targetR: real) returns (r: ShadowResult)
    requires !(s.activeUntil.Some? && t <= s.activeUntil.value) && Available(bars, t)
    requires Consider(bars, s, t, stopMultiple, targetR).Ok?
    ensures r.observedAt == t && Executed(bars, r, stopMultiple, targetR)
    ensures Consider(bars, s, t, stopMultiple, targetR).value == s.(results := s.results + [r], activeUntil := Some(r.exitTime))
  {
    hide HighestOf, LowestOf, Atr;
    r := SimulateShadow(bars, t, EntryIndex(bars, t), StopDistanceAt(bars, t, stopMultiple), targetR);
  }

  lemma EntriesInOrder(bars: seq<Bar>, results: seq<ShadowResult>, stopMultiple: real, targetR: real)
    requires forall r <- results :: Executed(bars, r, stopMultiple, targetR)
    requires Disjoint(results)
    ensures forall i :: 0 <= i < |results| ==> results[i].exitIndex <= results[|results| - 1].exitIndex
  {
    forall i | 0 <= i < |results|
      ensures results[i].exitIndex <= results[|results| - 1].exitIndex
    {
      assert results[|results| - 1] in results;
      ExecutedBounds(bars, results[|results| - 1], stopMultiple, targetR);
    }
  }

  lemma AccountedGrows(bars: seq<Bar>, candidates: seq<int>, earlier: seq<ShadowResult>, later: seq<ShadowResult>)
    requires earlier <= later && forall t <- candidates :: Accounted(bars, earlier, t)
    ensures forall t <- candidates :: Accounted(bars, later, t)
  {
    forall t <- candidates
      ensures Accounted(bars, later, t)
    {
      assert forall r <- earlier :: r in later;
    }
  }

  lemma ScheduleByLast(bars: seq<Bar>, candidates: seq<int>, stopMultiple: real, targetR: real)
    requires candidates != []
    ensures var before := ScheduleOf(bars, Front(candidates), stopMultiple, targetR);
      ScheduleOf(bars, candidates, stopMultiple, targetR)
      == if before.Ok? then Consider(bars, before.value, Last(candidates), stopMultiple, targetR) else before
  {
    hide Consider;
  }

  lemma EarlierCandidates(times: seq<int>)
    requires times != [] && NonDecreasing(times)
    ensures times == Front(times) + [Last(times)]
    ensures NonDecreasing(Front(times)) && forall k :: 0 <= k < |Front(times)| ==> Front(times)[k] <= Last(times)
  {
  }

  /** Every schedule accounts for every candidate and keeps its trades apart. */
  lemma {:induction false} ScheduleIsSound(bars: seq<Bar>, candidates: seq<int>, stopMultiple: real, targetR: real)
    requires Chronological(bars) && NonDecreasing(candidates)
    requires ScheduleOf(bars, candidates, stopMultiple, targetR).Ok?
    ensures ScheduleSound(bars, candidates, ScheduleOf(bars, candidates, stopMultiple, targetR).value, stopMultiple, targetR)
    decreases |candidates|
  {
    if candidates == [] {
      NothingScheduled(bars, stopMultiple, targetR);
    } else {
      hide ScheduleOf, ScheduleSound, Consider, Chronological, NonDecreasing;
      EarlierCandidates(candidates);
      ScheduleByLast(bars, candidates, stopMultiple, targetR);
      ScheduleIsSound(bars, Front(candidates), stopMultiple, targetR);
      var before := ScheduleOf(bars, Front(candidates), stopMultiple, targetR).value;
      ConsiderKeepsSound(bars, Front(candidates), before, Last(candidates), stopMultiple, targetR);
    }
  }

  lemma NothingScheduled(bars: seq<Bar>, stopMultiple: real, targetR: real)
    ensures ScheduleSound(bars, [], Schedule([], 0, 0, None), stopMultiple, targetR)
  {
  }

  lemma {:induction false} FailureStays(
    bars: seq<Bar>, candidates: seq<int>, k: nat, stopMultiple: real, targetR: real, e: MatrixError)
    requires k <= |candidates| && ScheduleOf(bars, candidates[..k], stopMultiple, targetR) == Err(e)
    ensures ScheduleOf(bars, candidates, stopMultiple, targetR) == Err(e)
    decreases |candidates| - k
  {
    hide Consider;
    if k == |candidates| {
      assert candidates[..k] == candidates;
    } else {
      assert candidates[..k + 1][..k] == candidates[..k];
      FailureStays(bars, candidates, k + 1, stopMultiple, targetR, e);
    }
  }

  /** The candidate at `t` would be executed, on a market that did not move at all over the ATR period. */
  predicate StallsOn(bars: seq<Bar>, s: Schedule, t: int) {
    && !(s.activeUntil.Some? && t <= s.activeUntil.value) && Available(bars, t)
    && forall i :: EntryIndex(bars, t) - ATR_PERIOD <= i < EntryIndex(bars, t) ==> Still(bars, i)
  }

  lemma FailsOnStill(bars: seq<Bar>, s: Schedule, t: int, stopMultiple: real, targetR: real)
    requires (forall b <- bars :: b.low <= b.high) && stopMultiple > 0.0
    ensures Consider(bars, s, t, stopMultiple, targetR).Err? <==> StallsOn(bars, s, t)
    ensures StallsOn(bars, s, t) ==> Consider(bars, s, t, stopMultiple, targetR) == Err(ZeroStopDistance)
  {
    hide SimulateShadow, EntryIndex, Still, Atr;
    if Available(bars, t) {
      AtrIsZeroOnlyWhenStill(bars, EntryIndex(bars, t));
      var atr := Atr(bars, EntryIndex(bars, t)).value;
      assert atr * stopMultiple == 0.0 <==> atr == 0.0;
    }
  }

  /** The first `k` candidates are scheduled and the next one divides by a zero stop distance. */
  predicate StallsAt(bars: seq<Bar>, candidates: seq<int>, stopMultiple: real, targetR: real, k: nat) {
    && k < |candidates| && ScheduleOf(bars, candidates[..k], stopMultiple, targetR).Ok?
    && StallsOn(bars, ScheduleOf(bars, candidates[..k], stopMultiple, targetR).value, candidates[k])
  }

  /** A schedule fails exactly when a candidate that is not skipped follows a dead market, and only in this way. */
  lemma ScheduleFailsOnlyWhenStill(bars: seq<Bar>, candidates: seq<int>, stopMultiple: real, targetR: real)
    requires (forall b <- bars :: b.low <= b.high) && stopMultiple > 0.0
    ensures ScheduleOf(bars, candidates, stopMultiple, targetR).Err? <==>
              exists k :: 0 <= k < |candidates| && StallsAt(bars, candidates, stopMultiple, targetR, k)
    ensures ScheduleOf(bars, candidates, stopMultiple, targetR).Err? ==>
              ScheduleOf(bars, candidates, stopMultiple, targetR).error == ZeroStopDistance
  {
    if ScheduleOf(bars, candidates, stopMultiple, targetR).Err? {
      var k := FailurePoint(bars, candidates, stopMultiple, targetR);
    }
    forall k | 0 <= k < |candidates| && StallsAt(bars, candidates, stopMultiple, targetR, k)
      ensures ScheduleOf(bars, candidates, stopMultiple, targetR) == Err(ZeroStopDistance)
    {
      StallIsFatal(bars, candidates, stopMultiple, targetR, k);
    }
  }

  lemma StallIsFatal(bars: seq<Bar>, candidates: seq<int>, stopMultiple: real, targetR: real, k: nat)
    requires (forall b <- bars :: b.low <= b.high) && stopMultiple > 0.0
    requires StallsAt(bars, candidates, stopMultiple, targetR, k)
    ensures ScheduleOf(bars, candidates, stopMultiple, targetR) == Err(ZeroStopDistance)
  {
    hide StallsOn, Consider;
    FailsOnStill(bars, ScheduleOf(bars, candidates[..k], stopMultiple, targetR).value, candidates[k], stopMultiple, targetR);
    assert candidates[..k + 1][..k] == candidates[..k];
    FailureStays(bars, candidates, k + 1, stopMultiple, targetR, ZeroStopDistance);
  }

  lemma {:induction false} FailurePoint(
    bars: seq<Bar>, candidates: seq<int>, stopMultiple: real, targetR: real) returns (k: nat)
    requires (forall b <- bars :: b.low <= b.high) && stopMultiple > 0.0
    requires ScheduleOf(bars, candidates, stopMultiple, targetR).Err?
    ensures StallsAt(bars, candidates, stopMultiple, targetR, k)
    decreases |candidates|
  {
    hide StallsOn, Consider;
    var front := candidates[..|candidates| - 1];
    if ScheduleOf(bars, front, stopMultiple, targetR).Err? {
      k := FailurePoint(bars, front, stopMultiple, targetR);
      assert front[..k] == candidates[..k];
    } else {
      k := |candidates| - 1;
      FailsOnStill(bars, ScheduleOf(bars, front, stopMultiple, targetR).value, candidates[k], stopMultiple, targetR);
    }
  }

  /** Any candidate that is simulated on a tape of one single price is fatal, at every positive stop multiple. */
  lemma FlatTapeIsFatal(bars: seq<Bar>, price: real, t: int, stopMultiple: real, targetR: real)
    requires (forall b <- bars :: b.low == b.high == b.close == price) && Available(bars, t) && stopMultiple > 0.0
    ensures ScheduleOf(bars, [t], stopMultiple, targetR) == Err(ZeroStopDistance)
  {
    hide EntryIndex, Consider;
    var entry := EntryIndex(bars, t);
    forall i | entry - ATR_PERIOD <= i < entry
      ensures Still(bars, i)
    {
      assert bars[i] in bars && bars[i - 1] in bars;
    }
    assert [t][..0] == [];
    assert StallsAt(bars, [t], stopMultiple, targetR, 0);
    ScheduleFailsOnlyWhenStill(bars, [t], stopMultiple, targetR);
  }

  function FlatTape(n: nat): (bars: seq<Bar>)
    ensures |bars| == n && forall i :: 0 <= i < n ==> bars[i] == Bar(5 * i, 2.0, 2.0, 2.0, 2.0)
  {
    seq(n, i => Bar(5 * i, 2.0, 2.0, 2.0, 2.0))
  }

  /** Fifteen bars before the entry and a complete horizon after it suffice, in the scenario of one ATR and one R. */
  lemma FlatTapeExample()
    ensures Chronological(FlatTape(15 + HORIZON_BARS))
    ensures ScheduleOf(FlatTape(15 + HORIZON_BARS), [70], 1.0, 1.0) == Err(ZeroStopDistance)
  {
    var bars := FlatTape(15 + HORIZON_BARS);
    hide FlatTape, EntryIndex;
    assert EntryIndex(bars, 70) == 15;
    assert Available(bars, 70);
    forall b <- bars
      ensures b.low == b.high == b.close == 2.0
    {
    }
    FlatTapeIsFatal(bars, 2.0, 70, 1.0, 1.0);
  }

  // ----- an executed trade, read off the bars -----

  lemma MeanTimes(mean: real, total: real, factor: real, distance: real)
    requires mean * 14.0 == total && distance == mean * factor
    ensures distance * 14.0 == total * factor
  {
  }

  lemma AtrAtEntry(bars: seq<Bar>, t: int)
    requires Available(bars, t) && forall b <- bars :: b.low <= b.high
    ensures var at := EntryIndex(bars, t);
      && 15 <= at < |bars| && bars[at - 1].timestamp <= t < bars[at].timestamp
      && Atr(bars, at).Some? && Atr(bars, at).value * 14.0 == SumOfSpans(bars, at - 14, 14)
  {
    hide SumOfSpans, Atr, EntryIndex;
    AtrIsMeanSpan(bars, EntryIndex(bars, t));
  }

  lemma DistanceIsMeanSpan(bars: seq<Bar>, t: int, stopMultiple: real)
    requires Available(bars, t) && forall b <- bars :: b.low <= b.high
    ensures var at := EntryIndex(bars, t);
      && 15 <= at < |bars| && bars[at - 1].timestamp <= t < bars[at].timestamp
      && StopDistanceAt(bars, t, stopMultiple) * 14.0 == SumOfSpans(bars, at - 14, 14) * stopMultiple
  {
    hide SumOfSpans, Atr, EntryIndex, Available;
    AtrAtEntry(bars, t);
    var at := EntryIndex(bars, t);
    var mean, total := Atr(bars, at).value, SumOfSpans(bars, at - 14, 14);
    MeanTimes(mean, total, stopMultiple, StopDistanceAt(bars, t, stopMultiple));
  }

  lemma DistanceOfShadow(bars: seq<Bar>, r: ShadowResult, observedAt: int, entryIndex: nat, distance: real, targetR: real)
    requires IsShadowOf(bars, r, observedAt, entryIndex, distance, targetR)
    ensures r.stop - r.entry == distance && r.entryIndex == entryIndex
  {
    hide ClosedOn, CountedInR;
  }

  /** A trade of the schedule is entered on the first bar after its observation and closed as described, on a stop at the
      mean span of the fourteen bars before its entry, times the stop multiple. */
  lemma ExecutedAsTold(bars: seq<Bar>, r: ShadowResult, stopMultiple: real, targetR: real)
    requires Executed(bars, r, stopMultiple, targetR) && forall b <- bars :: b.low <= b.high
    ensures 15 <= r.entryIndex < |bars| && bars[r.entryIndex - 1].timestamp <= r.observedAt < bars[r.entryIndex].timestamp
    ensures IsShadowOf(bars, r, r.observedAt, r.entryIndex, r.stop - r.entry, targetR)
    ensures (r.stop - r.entry) * 14.0 == SumOfSpans(bars, r.entryIndex - 14, 14) * stopMultiple
  {
    hide SimulateShadow, SumOfSpans, Atr, EntryIndex, StopDistanceAt, IsShadowOf;
    var at, distance := EntryIndex(bars, r.observedAt), StopDistanceAt(bars, r.observedAt, stopMultiple);
    DistanceIsMeanSpan(bars, r.observedAt, stopMultiple);
    ShadowAsTold(bars, r.observedAt, at, distance, targetR);
    DistanceOfShadow(bars, r, r.observedAt, at, distance, targetR);
    hide Available, Executed;
  }

  /** A candidate can be simulated exactly when some bar after it, with fifteen bars before that one and 24 from it on,
      follows a bar that is not after it. */
  lemma AvailableExactly(bars: seq<Bar>, t: int)
    requires Chronological(bars)
    ensures Available(bars, t) <==>
              exists i :: 15 <= i && i + 24 <= |bars| && bars[i - 1].timestamp <= t < bars[i].timestamp
  {
    hide SumOfRanges;
    var at := EntryIndex(bars, t);
    if i :| 15 <= i && i + 24 <= |bars| && bars[i - 1].timestamp <= t < bars[i].timestamp {
      assert i == at;
    }
  }

  // ----- the loops -----

  const STOP_ATR_MULTIPLES := [0.5, 0.75, 1.0, 1.5]

  const TARGET_R_MULTIPLES := [1.0, 1.5, 2.0]

  method FindEntry(times: seq<int>, bars: seq<Bar>, t: int) returns (at: nat)
    requires Chronological(bars) && times == CloseTimes(bars, 0)
    ensures at == EntryIndex(bars, t)
  {
    at := BisectRight(times, t);
  }

  /** Simulates one candidate, unless there is no entry bar, no ATR or no complete horizon. */
  method TryCandidate(bars: seq<Bar>, times: seq<int>, t: int, stopMultiple: real, targetR: real)
    returns (r: Result<Option<ShadowResult>, MatrixError>)
    requires Chronological(bars) && times == CloseTimes(bars, 0)
    ensures r == if !Available(bars, t) then Ok(None)
                 else if StopDistanceAt(bars, t, stopMultiple) == 0.0 then Err(ZeroStopDistance)
                 else Ok(Some(SimulateShadow(bars, t, EntryIndex(bars, t), StopDistanceAt(bars, t, stopMultiple), targetR)))
  {
    hide SimulateShadow, EntryIndex;
    var entryIndex := FindEntry(times, bars, t);
    if entryIndex >= |bars| {
      return Ok(None);
    }
    var atr := Atr(bars, entryIndex);
    if atr.None? || entryIndex + HORIZON_BARS - 1 >= |bars| {
      return Ok(None);
    }
    var distance := atr.value * stopMultiple;
    if distance == 0.0 {
      return Err(ZeroStopDistance);
    }
    assert distance == StopDistanceAt(bars, t, stopMultiple);
    var result := RunShadow(bars, t, entryIndex, distance, targetR);
    r := Ok(Some(result));
  }

  method BuildSchedule(bars: seq<Bar>, candidates: seq<int>, stopMultiple: real, targetR: real)
    returns (r: Result<Schedule, MatrixError>)
    requires Chronological(bars)
    ensures r == ScheduleOf(bars, candidates, stopMultiple, targetR)
  {
    hide SimulateShadow, Available, StopDistanceAt;
    var times := CloseTimes(bars, 0);
    var results: seq<ShadowResult> := [];
    var skipped, unavailable, activeUntil := 0, 0, None;
    for i := 0 to |candidates|
      invariant ScheduleOf(bars, candidates[..i], stopMultiple, targetR)
             == Ok(Schedule(results, skipped, unavailable, activeUntil))
    {
      var t := candidates[i];
      assert candidates[..i + 1][..i] == candidates[..i];
      if activeUntil.Some? && t <= activeUntil.value {
        skipped := skipped + 1;
        continue;
      }
      var tried := TryCandidate(bars, times, t, stopMultiple, targetR);
      if tried.Err? {
        FailureStays(bars, candidates, i + 1, stopMultiple, targetR, tried.error);
        return Err(tried.error);
      }
      if tried.value.None? {
        unavailable := unavailable + 1;
        continue;
      }
      results := results + [tried.value.value];
      activeUntil := Some(tried.value.value.exitTime);
    }
    assert candidates[..|candidates|] == candidates;
    r := Ok(Schedule(results, skipped, unavailable, activeUntil));
  }

  /** The scenarios in the order of the two nested loops. */
  function Scenarios(): (all: seq<(real, real)>)
    ensures |all| == 12
    ensures forall i, j :: 0 <= i < 4 && 0 <= j < 3 ==> all[3 * i + j] == (STOP_ATR_MULTIPLES[i], TARGET_R_MULTIPLES[j])
  {
    [(0.5, 1.0), (0.5, 1.5), (0.5, 2.0), (0.75, 1.0), (0.75, 1.5), (0.75, 2.0),
     (1.0, 1.0), (1.0, 1.5), (1.0, 2.0), (1.5, 1.0), (1.5, 1.5), (1.5, 2.0)]
  }

  function TimeOf(bar: Bar): int {
    bar.timestamp
  }

  function Itself(t: int): int {
    t
  }

  /** The bars, and the candidate times, in the order in which the matrix works through them. */
  function TapeOf(bars: seq<Bar>): seq<Bar> {
    SortedBy(bars, TimeOf)
  }

  function QueueOf(candidates: seq<int>): seq<int> {
    SortedBy(candidates, Itself)
  }

  /** The sorted inputs are permutations in time order; the tape is usable exactly when no two bars share a time. */
  lemma InputsAreSorted(candidates: seq<int>, bars: seq<Bar>)
    ensures multiset(TapeOf(bars)) == multiset(bars) && multiset(QueueOf(candidates)) == multiset(candidates)
    ensures NonDecreasing(QueueOf(candidates))
    ensures Chronological(TapeOf(bars)) <==> forall i, j :: 0 <= i < j < |bars| ==> bars[i].timestamp != bars[j].timestamp
  {
    hide SortedBy;
    SortingKeepsElements(bars, TimeOf);
    SortingKeepsElements(candidates, Itself);
    SortingOrders(bars, TimeOf);
    SortingOrders(candidates, Itself);
    StrictIsChronological(TapeOf(bars));
    DistinctTimes(bars);
    OrderedIsNonDecreasing(QueueOf(candidates));
  }

  /** Inputs that are in order already are worked through as given. */
  lemma OrderedInputsAreKept(candidates: seq<int>, bars: seq<Bar>)
    ensures Chronological(bars) ==> TapeOf(bars) == bars
    ensures NonDecreasing(candidates) <==> QueueOf(candidates) == candidates
  {
    hide SortedBy;
    StrictIsChronological(bars);
    if Chronological(bars) {
      assert Ordered(bars, TimeOf);
      SortingKeepsOrder(bars, TimeOf);
    }
    OrderedIsNonDecreasing(candidates);
    SortingOrders(candidates, Itself);
    if NonDecreasing(candidates) {
      SortingKeepsOrder(candidates, Itself);
    }
  }

  lemma StrictIsChronological(bars: seq<Bar>)
    ensures StrictlyOrdered(bars, TimeOf) <==> Chronological(bars)
  {
    assert forall i :: 0 <= i < |bars| ==> TimeOf(bars[i]) == bars[i].timestamp;
  }

  lemma DistinctTimes(bars: seq<Bar>)
    ensures DistinctKeys(bars, TimeOf) <==> forall i, j :: 0 <= i < j < |bars| ==> bars[i].timestamp != bars[j].timestamp
  {
    assert forall i :: 0 <= i < |bars| ==> TimeOf(bars[i]) == bars[i].timestamp;
  }

  lemma OrderedIsNonDecreasing(times: seq<int>)
    ensures Ordered(times, Itself) <==> NonDecreasing(times)
  {
    assert forall i :: 0 <= i < |times| ==> Itself(times[i]) == times[i];
  }

  /** One independent schedule per scenario, over the same candidates and bars, given in any order. */
  method Calculate(candidates: seq<int>, bars: seq<Bar>) returns (r: Result<seq<Schedule>, MatrixError>)
    ensures r == Err(BarsNotIncreasing) <==> exists i, j :: 0 <= i < j < |bars| && bars[i].timestamp == bars[j].timestamp
    ensures r.Ok? ==>
              && |r.value| == |Scenarios()|
              && forall k :: 0 <= k < |Scenarios()| ==>
                   && ScheduleOf(TapeOf(bars), QueueOf(candidates), Scenarios()[k].0, Scenarios()[k].1) == Ok(r.value[k])
                   && ScheduleSound(TapeOf(bars), QueueOf(candidates), r.value[k], Scenarios()[k].0, Scenarios()[k].1)
    ensures r == Err(ZeroStopDistance) ==>
              exists k :: 0 <= k < |Scenarios()| && ScheduleOf(TapeOf(bars), QueueOf(candidates), Scenarios()[k].0, Scenarios()[k].1) == Err(ZeroStopDistance)
  {
    hide ScheduleOf, ScheduleSound, TapeOf, QueueOf;
    InputsAreSorted(candidates, bars);
    var tape, queue := TapeOf(bars), QueueOf(candidates);
    if !Chronological(tape) {
      return Err(BarsNotIncreasing);
    }
    var schedules: seq<Schedule> := [];
    for i := 0 to |STOP_ATR_MULTIPLES|
      invariant |schedules| == 3 * i
      invariant forall k :: 0 <= k < |schedules| ==>
                  ScheduleOf(tape, queue, Scenarios()[k].0, Scenarios()[k].1) == Ok(schedules[k])
    {
      for j := 0 to |TARGET_R_MULTIPLES|
        invariant |schedules| == 3 * i + j
        invariant forall k :: 0 <= k < |schedules| ==>
                    ScheduleOf(tape, queue, Scenarios()[k].0, Scenarios()[k].1) == Ok(schedules[k])
      {
        assert Scenarios()[3 * i + j] == (STOP_ATR_MULTIPLES[i], TARGET_R_MULTIPLES[j]);
        var built := BuildSchedule(tape, queue, STOP_ATR_MULTIPLES[i], TARGET_R_MULTIPLES[j]);
        if built.Err? {
          OnlyZeroDistanceFails(tape, queue, STOP_ATR_MULTIPLES[i], TARGET_R_MULTIPLES[j]);
          return Err(built.error);
        }
        schedules := schedules + [built.value];
      }
    }
    forall k | 0 <= k < |Scenarios()|
      ensures ScheduleSound(tape, queue, schedules[k], Scenarios()[k].0, Scenarios()[k].1)
    {
      ScheduleIsSound(tape, queue, Scenarios()[k].0, Scenarios()[k].1);
    }
    r := Ok(schedules);
  }

  lemma {:induction false} OnlyZeroDistanceFails(bars: seq<Bar>, candidates: seq<int>, stopMultiple: real, targetR: real)
    ensures ScheduleOf(bars, candidates, stopMultiple, targetR).Err? ==>
              ScheduleOf(bars, candidates, stopMultiple, targetR).error == ZeroStopDistance
    decreases |candidates|
  {
    hide SimulateShadow, Available, StopDistanceAt;
    if candidates != [] {
      OnlyZeroDistanceFails(bars, candidates[..|candidates| - 1], stopMultiple, targetR);
    }
  }
}

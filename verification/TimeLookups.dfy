/** Binary-search lookups over time-ordered histories, against the linear scans they replace. */
module TimeLookups {
  import opened Wrappers
  import opened Market

  predicate Ascending(times: seq<int>) {
    forall i, j :: 0 <= i < j < |times| ==> times[i] < times[j]
  }

  /** `at` splits the times into those up to `x` and those after it. */
  predicate IsRightInsertionPoint(times: seq<int>, x: int, at: nat) {
    && at <= |times|
    && (forall i :: 0 <= i < at ==> times[i] <= x)
    && (forall i :: at <= i < |times| ==> times[i] > x)
  }

  /** The bisection loop of the standard library. */
  method BisectRight(times: seq<int>, x: int) returns (at: nat)
    requires Ascending(times)
    ensures IsRightInsertionPoint(times, x, at)
  {
    var low, high := 0, |times|;
    while low < high
      invariant 0 <= low <= high <= |times|
      invariant forall i :: 0 <= i < low ==> times[i] <= x
      invariant forall i :: high <= i < |times| ==> times[i] > x
    {
      var middle := (low + high) / 2;
      if x < times[middle] {
        high := middle;
      } else {
        low := middle + 1;
      }
    }
    at := low;
  }

  // ----- the rolling window of closed bars -----

  /** The scan that the cached lookup replaces: all bars closed by `boundary`. */
  function VisibleBars(bars: seq<Bar>, boundary: int, duration: int): seq<Bar> {
    if bars == [] then []
    else
      VisibleBars(bars[..|bars| - 1], boundary, duration)
      + if bars[|bars| - 1].timestamp + duration <= boundary then [bars[|bars| - 1]] else []
  }

  lemma {:induction false} VisibleIsPrefix(bars: seq<Bar>, boundary: int, duration: int, at: nat)
    requires at <= |bars|
    requires forall i :: 0 <= i < |bars| ==> (i < at <==> bars[i].timestamp + duration <= boundary)
    ensures VisibleBars(bars, boundary, duration) == bars[..at]
    decreases |bars|
  {
    if bars != [] {
      var front := bars[..|bars| - 1];
      VisibleIsPrefix(front, boundary, duration, if at == |bars| then at - 1 else at);
    }
  }

  function CloseTimes(bars: seq<Bar>, duration: int): (times: seq<int>)
    ensures |times| == |bars|
    ensures forall i :: 0 <= i < |bars| ==> times[i] == bars[i].timestamp + duration
  {
    seq(|bars|, i requires 0 <= i < |bars| => bars[i].timestamp + duration)
  }

  /** Bisect over the cached close times, then slice: the last `count` bars of the linear scan. */
  method ClosedWindow(bars: seq<Bar>, boundary: int, duration: int, count: nat) returns (window: seq<Bar>)
    requires Chronological(bars)
    ensures var visible := VisibleBars(bars, boundary, duration);
      && |window| == (if |visible| < count then |visible| else count)
      && window == visible[|visible| - |window|..]
  {
    var end := BisectRight(CloseTimes(bars, duration), boundary);
    VisibleIsPrefix(bars, boundary, duration, end);
    var start := if end > count then end - count else 0;
    window := bars[start..end];
  }

  // ----- aligning audits with observations -----

  datatype Alignment = Alignment(audit: int, observation: int, exact: bool, lag: int)

  datatype Unmatched = NoPrior(audit: int) | LagExceeded(audit: int, observation: int, lag: int)

  datatype Report = Report(
    before: seq<int>, aligned: seq<Alignment>, unmatched: seq<Unmatched>, after: seq<int>, exactCount: nat, asOfCount: nat)

  function Larger(x: int, y: int): int {
    if x < y then y else x
  }

  function Smaller(x: int, y: int): int {
    if y < x then y else x
  }

  function CommonWindow(audits: seq<int>, observations: seq<int>, outcomes: seq<int>): Option<(int, int)> {
    if audits == [] || observations == [] || outcomes == [] then None
    else
      var start := Larger(audits[0], Larger(observations[0], outcomes[0]));
      var end := Smaller(audits[|audits| - 1], Smaller(observations[|observations| - 1], outcomes[|outcomes| - 1]));
      if start > end then None else Some((start, end))
  }

  /** The window is exactly the stretch covered by all three histories. */
  lemma CommonWindowIsIntersection(audits: seq<int>, observations: seq<int>, outcomes: seq<int>, t: int)
    requires audits != [] && observations != [] && outcomes != []
    ensures var window := CommonWindow(audits, observations, outcomes);
      (window.Some? && window.value.0 <= t <= window.value.1) <==>
        && audits[0] <= t <= audits[|audits| - 1]
        && observations[0] <= t <= observations[|observations| - 1]
        && outcomes[0] <= t <= outcomes[|outcomes| - 1]
  {
  }

  /** `o` is the latest observation that is not after `t`. */
  predicate IsLatestBy(observations: seq<int>, t: int, o: int) {
    o in observations && o <= t && forall other <- observations :: other <= t ==> other <= o
  }

  method AlignObservation(audit: int, observations: seq<int>) returns (r: Option<Alignment>)
    requires Ascending(observations)
    ensures r.None? <==> forall o <- observations :: o > audit
    ensures r.Some? ==>
              && r.value.audit == audit && IsLatestBy(observations, audit, r.value.observation)
              && r.value.lag == audit - r.value.observation >= 0
              && (r.value.exact <==> audit == r.value.observation)
  {
    var index := BisectRight(observations, audit);
    if index == 0 {
      return None;
    }
    var observation := observations[index - 1];
    assert observation in observations;
    r := Some(Alignment(audit, observation, observation == audit, audit - observation));
  }

  /** How a report places one audit of the common window: aligned with the latest observation, or too far from it. */
  ghost predicate Places(observations: seq<int>, maximumLag: int, audit: int, report: Report) {
    exists o :: IsLatestBy(observations, audit, o) &&
      if audit - o <= maximumLag
      then Alignment(audit, o, audit == o, audit - o) in report.aligned
      else LagExceeded(audit, o, audit - o) in report.unmatched
  }

  /** How many of the alignments are exact, or are not. */
  function Exact(aligned: seq<Alignment>, exact: bool): nat {
    if aligned == [] then 0
    else Exact(aligned[..|aligned| - 1], exact) + if aligned[|aligned| - 1].exact == exact then 1 else 0
  }

  lemma ExactOfMore(aligned: seq<Alignment>, more: Alignment, exact: bool)
    ensures Exact(aligned + [more], exact) == Exact(aligned, exact) + if more.exact == exact then 1 else 0
  {
    assert (aligned + [more])[..|aligned|] == aligned;
  }

  function Total(report: Report): nat {
    |report.before| + |report.aligned| + |report.unmatched| + |report.after|
  }

  function TakeWhileBefore(audits: seq<int>, start: int): seq<int> {
    if audits == [] then []
    else TakeWhileBefore(audits[..|audits| - 1], start) + if audits[|audits| - 1] < start then [audits[|audits| - 1]] else []
  }

  function TakeAfter(audits: seq<int>, end: int): seq<int> {
    if audits == [] then []
    else TakeAfter(audits[..|audits| - 1], end) + if audits[|audits| - 1] > end then [audits[|audits| - 1]] else []
  }

  lemma NothingTaken()
    ensures forall t: int :: TakeWhileBefore([], t) == [] && TakeAfter([], t) == []
    ensures forall exact: bool :: Exact([], exact) == 0
  {
  }

  lemma TakenByLast(audits: seq<int>, i: nat, start: int, end: int)
    requires i < |audits|
    ensures TakeWhileBefore(audits[..i + 1], start)
         == TakeWhileBefore(audits[..i], start) + if audits[i] < start then [audits[i]] else []
    ensures TakeAfter(audits[..i + 1], end) == TakeAfter(audits[..i], end) + if audits[i] > end then [audits[i]] else []
  {
    assert audits[..i + 1][..i] == audits[..i];
  }

  /** Sorts every audit into before, aligned, unmatched or after; inside the window an earlier observation always exists. */
  method AlignAudits(audits: seq<int>, observations: seq<int>, outcomes: seq<int>, maximumLag: int) returns (report: Report)
    requires Ascending(audits) && Ascending(observations) && Ascending(outcomes)
    ensures forall u <- report.unmatched :: u.LagExceeded?
    ensures report.exactCount == Exact(report.aligned, true) && report.asOfCount == Exact(report.aligned, false)
    ensures report.exactCount + report.asOfCount == |report.aligned|
    ensures forall a <- report.aligned :: a.audit in audits && IsLatestBy(observations, a.audit, a.observation)
    ensures var window := CommonWindow(audits, observations, outcomes);
      if window.None? then report == Report([], [], [], [], 0, 0)
      else
        && Total(report) == |audits|
        && report.before == TakeWhileBefore(audits, window.value.0) && report.after == TakeAfter(audits, window.value.1)
        && forall a <- audits :: window.value.0 <= a <= window.value.1 ==> Places(observations, maximumLag, a, report)
    ensures Total(report) == |audits| <==> CommonWindow(audits, observations, outcomes).Some? || audits == []
  {
    hide Places, TakeWhileBefore, TakeAfter, Exact;
    NothingTaken();
    var before, aligned, unmatched, after := [], [], [], [];
    var exactCount, asOfCount := 0, 0;
    report := Report([], [], [], [], 0, 0);
    var window := CommonWindow(audits, observations, outcomes);
    if window.None? {
      return;
    }
    var (start, end) := window.value;
    assert observations[0] in observations && observations[0] <= start;
    hide CommonWindow;
    for i := 0 to |audits|
      invariant report == Report(before, aligned, unmatched, after, exactCount, asOfCount)
      invariant Total(report) == i && exactCount + asOfCount == |aligned|
      invariant exactCount == Exact(aligned, true) && asOfCount == Exact(aligned, false)
      invariant forall a <- aligned :: a.audit in audits && IsLatestBy(observations, a.audit, a.observation)
      invariant before == TakeWhileBefore(audits[..i], start) && after == TakeAfter(audits[..i], end)
      invariant forall u <- unmatched :: u.LagExceeded?
      invariant forall k :: 0 <= k < i && start <= audits[k] <= end ==> Places(observations, maximumLag, audits[k], report)
    {
      var audit := audits[i];
      ghost var earlier, placed := report, audit;
      TakenByLast(audits, i, start, end);
      if audit < start {
        before := before + [audit];
      } else if audit > end {
        after := after + [audit];
      } else {
        var matched := AlignObservation(audit, observations);
        placed := matched.value.observation;
        if matched.None? {
          unmatched := unmatched + [NoPrior(audit)];
        } else if matched.value.lag > maximumLag {
          unmatched := unmatched + [LagExceeded(audit, matched.value.observation, matched.value.lag)];
        } else {
          if matched.value.exact {
            exactCount := exactCount + 1;
          } else {
            asOfCount := asOfCount + 1;
          }
          ExactOfMore(aligned, matched.value, true);
          ExactOfMore(aligned, matched.value, false);
          aligned := aligned + [matched.value];
        }
      }
      report := Report(before, aligned, unmatched, after, exactCount, asOfCount);
      PlacesGrows(observations, maximumLag, audits[..i], earlier, report);
      if start <= audit <= end {
        PlacedNow(observations, maximumLag, audit, report, placed);
      }
    }
    assert audits[..|audits|] == audits;
  }

  lemma PlacedNow(observations: seq<int>, maximumLag: int, audit: int, report: Report, o: int)
    requires IsLatestBy(observations, audit, o)
    requires if audit - o <= maximumLag
             then Alignment(audit, o, audit == o, audit - o) in report.aligned
             else LagExceeded(audit, o, audit - o) in report.unmatched
    ensures Places(observations, maximumLag, audit, report)
  {
  }

  lemma PlacesGrows(observations: seq<int>, maximumLag: int, audits: seq<int>, earlier: Report, later: Report)
    requires earlier.aligned <= later.aligned && earlier.unmatched <= later.unmatched
    ensures forall a <- audits :: Places(observations, maximumLag, a, earlier) ==> Places(observations, maximumLag, a, later)
  {
  }
}

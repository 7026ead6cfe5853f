/** Measuring what the market did after an observational candidate trade. */
module CandidateEvaluation {
  import opened Wrappers
  import opened Market

  /** A candidate as its own constructor admits it: a real risk and targets beyond the entry. */
  datatype RawCandidate = Candidate(id: nat, createdAt: int, isBuy: bool, entry: real, stop: real, targets: seq<real>) {
    predicate Valid() {
      && targets != []
      && (if isBuy then stop < entry else stop > entry)
      && forall t <- targets :: if isBuy then t > entry else t < entry
    }

    function Risk(): real {
      Abs(entry - stop)
    }
  }

  type Candidate = c: RawCandidate | c.Valid() witness Candidate(0, 0, true, 2.0, 1.0, [3.0])

  datatype Outcome = TargetReached | StopReached | AmbiguousSameBar | Unresolved

  datatype Evaluation = Evaluation(
    id: nat, createdAt: int, evaluatedThrough: int, outcome: Outcome, outcomeAt: Option<int>,
    highestTarget: Option<nat>, barsEvaluated: nat, mfe: real, mae: real, mfeR: real, maeR: real)

  datatype EvaluationError = MaximumNotPositive | BarsNotIncreasing

  // ----- which bars count -----

  /** The bars after `createdAt`, at most `room` of them; the check of the order stops with the selection. */
  function PrepareFrom(bars: seq<Bar>, previous: Option<int>, createdAt: int, room: Option<nat>): Result<seq<Bar>, EvaluationError>
    decreases |bars|
  {
    if bars == [] then Ok([])
    else if previous.Some? && bars[0].timestamp <= previous.value then Err(BarsNotIncreasing)
    else if bars[0].timestamp <= createdAt then PrepareFrom(bars[1..], Some(bars[0].timestamp), createdAt, room)
    else if room.Some? && room.value <= 1 then Ok([bars[0]])
    else
      match PrepareFrom(bars[1..], Some(bars[0].timestamp), createdAt,
                        if room.Some? then Some(room.value - 1) else None)
      case Err(e) => Err(e)
      case Ok(rest) => Ok([bars[0]] + rest)
  }

  /** `bars` can follow `previous`. */
  predicate Follows(previous: Option<int>, bars: seq<Bar>) {
    previous.Some? && bars != [] ==> previous.value < bars[0].timestamp
  }

  lemma ChronologicalTail(bars: seq<Bar>)
    requires Chronological(bars) && bars != []
    ensures Chronological(bars[1..]) && Follows(Some(bars[0].timestamp), bars[1..])
  {
  }

  function Within(n: nat, room: Option<nat>): nat {
    if room.Some? && room.value < n then room.value else n
  }

  lemma PrepareStep(bars: seq<Bar>, previous: Option<int>, createdAt: int, room: Option<nat>)
    requires bars != [] && Follows(previous, bars) && bars[0].timestamp > createdAt
    ensures PrepareFrom(bars, previous, createdAt, room) ==
              if room.Some? && room.value <= 1 then Ok([bars[0]])
              else
                var rest := PrepareFrom(bars[1..], Some(bars[0].timestamp), createdAt,
                                        if room.Some? then Some(room.value - 1) else None);
                if rest.Ok? then Ok([bars[0]] + rest.value) else rest
  {
  }

  /** Of ordered bars after the creation the first ones are taken, as many as there is room for. */
  lemma {:induction false} PreparedUpTo(bars: seq<Bar>, previous: Option<int>, createdAt: int, room: Option<nat>)
    requires Chronological(bars) && Follows(previous, bars) && forall b <- bars :: b.timestamp > createdAt
    requires room.Some? ==> room.value > 0
    ensures PrepareFrom(bars, previous, createdAt, room) == Ok(bars[..Within(|bars|, room)])
    decreases |bars|
  {
    if bars == [] {
      assert bars[..0] == [];
    } else {
      ChronologicalTail(bars);
      PrepareStep(bars, previous, createdAt, room);
      hide Chronological, PrepareFrom;
      if room == Some(1) {
        assert bars[..1] == [bars[0]];
      } else {
        var left := if room.Some? then Some(room.value - 1) else None;
        PreparedUpTo(bars[1..], Some(bars[0].timestamp), createdAt, left);
        assert [bars[0]] + bars[1..][..Within(|bars[1..]|, left)] == bars[..Within(|bars|, room)];
      }
    }
  }

  /** Ordered bars after the creation are all taken when there is room for them. */
  lemma PreparedAsGiven(bars: seq<Bar>, previous: Option<int>, createdAt: int, room: Option<nat>)
    requires Chronological(bars) && Follows(previous, bars) && forall b <- bars :: b.timestamp > createdAt
    requires room.Some? ==> room.value >= |bars| && room.value > 0
    ensures PrepareFrom(bars, previous, createdAt, room) == Ok(bars)
  {
    hide Chronological, PrepareFrom;
    PreparedUpTo(bars, previous, createdAt, room);
    assert bars[..|bars|] == bars;
  }

  /** The bars later than a time. */
  function After(createdAt: int, bars: seq<Bar>): seq<Bar> {
    if bars == [] then []
    else (if bars[0].timestamp > createdAt then [bars[0]] else []) + After(createdAt, bars[1..])
  }

  lemma {:induction false} AfterMore(createdAt: int, bars: seq<Bar>, bar: Bar)
    ensures After(createdAt, bars + [bar]) == After(createdAt, bars) + if bar.timestamp > createdAt then [bar] else []
  {
    if bars == [] {
      assert After(createdAt, []) == [];
    } else {
      assert (bars + [bar])[1..] == bars[1..] + [bar];
      AfterMore(createdAt, bars[1..], bar);
    }
  }

  lemma {:induction false} AfterSelects(createdAt: int, bars: seq<Bar>)
    ensures forall b <- After(createdAt, bars) :: b in bars
  {
    if bars != [] {
      AfterSelects(createdAt, bars[1..]);
    }
  }

  /** Bar `k` does not come after the one before it, and the selection is not full when it is looked at. */
  predicate OutOfOrderAt(bars: seq<Bar>, previous: Option<int>, createdAt: int, room: Option<nat>, k: nat) {
    && k < |bars| && !Follows(if k == 0 then previous else Some(bars[k - 1].timestamp), bars[k..])
    && (room.Some? ==> |After(createdAt, bars[..k])| < room.value)
  }

  lemma OutOfOrderLater(bars: seq<Bar>, previous: Option<int>, createdAt: int, room: Option<nat>, k: nat)
    requires 0 < k < |bars| && (room.Some? ==> room.value > 0)
    ensures var taken := bars[0].timestamp > createdAt;
      var left := if room.Some? && taken then Some(room.value - 1) else room;
      OutOfOrderAt(bars, previous, createdAt, room, k)
      <==> OutOfOrderAt(bars[1..], Some(bars[0].timestamp), createdAt, left, k - 1)
  {
    hide After;
    assert bars[k..] == bars[1..][k - 1..];
    assert bars[..k][0] == bars[0] && bars[..k][1..] == bars[1..][..k - 1];
    AfterByFirst(createdAt, bars[..k]);
  }

  lemma AfterByFirst(createdAt: int, bars: seq<Bar>)
    requires bars != []
    ensures After(createdAt, bars) == (if bars[0].timestamp > createdAt then [bars[0]] else []) + After(createdAt, bars[1..])
  {
  }

  lemma NothingAfterNothing(createdAt: int)
    ensures After(createdAt, []) == []
  {
  }

  /** The selection is the first bars later than the creation, as many as there is room for; it is refused exactly when
      a bar out of order is looked at before the selection is full. */
  lemma {:induction false} PreparedExactly(bars: seq<Bar>, previous: Option<int>, createdAt: int, room: Option<nat>)
    requires room.Some? ==> room.value > 0
    ensures PrepareFrom(bars, previous, createdAt, room).Err? <==>
              exists k: nat :: OutOfOrderAt(bars, previous, createdAt, room, k)
    ensures PrepareFrom(bars, previous, createdAt, room).Ok? ==>
              var later := After(createdAt, bars);
              PrepareFrom(bars, previous, createdAt, room).value == later[..Within(|later|, room)]
    decreases |bars|
  {
    NothingAfterNothing(createdAt);
    if bars != [] {
      AfterByFirst(createdAt, bars);
      var taken := bars[0].timestamp > createdAt;
      var left := if room.Some? && taken then Some(room.value - 1) else room;
      assert OutOfOrderAt(bars, previous, createdAt, room, 0) <==> !Follows(previous, bars) by {
        assert bars[..0] == [] && bars[0..] == bars;
      }
      OutOfOrderByFirst(bars, previous, createdAt, room);
      hide After, OutOfOrderAt;
      if left != Some(0) {
        PreparedExactly(bars[1..], Some(bars[0].timestamp), createdAt, left);
      }
    }
  }

  lemma OutOfOrderByFirst(bars: seq<Bar>, previous: Option<int>, createdAt: int, room: Option<nat>)
    requires bars != [] && (room.Some? ==> room.value > 0)
    ensures var left := if room.Some? && bars[0].timestamp > createdAt then Some(room.value - 1) else room;
      (exists k: nat :: OutOfOrderAt(bars, previous, createdAt, room, k))
      <==> OutOfOrderAt(bars, previous, createdAt, room, 0)
           || (left != Some(0) && exists k: nat :: OutOfOrderAt(bars[1..], Some(bars[0].timestamp), createdAt, left, k))
  {
    var left := if room.Some? && bars[0].timestamp > createdAt then Some(room.value - 1) else room;
    if k: nat :| k > 0 && OutOfOrderAt(bars, previous, createdAt, room, k) {
      OutOfOrderLater(bars, previous, createdAt, room, k);
      assert OutOfOrderAt(bars[1..], Some(bars[0].timestamp), createdAt, left, k - 1);
    }
    if k: nat :| OutOfOrderAt(bars[1..], Some(bars[0].timestamp), createdAt, left, k) {
      OutOfOrderLater(bars, previous, createdAt, room, k + 1);
      assert OutOfOrderAt(bars, previous, createdAt, room, k + 1);
    }
  }

  // ----- what one bar shows -----

  function Favorable(c: Candidate, bar: Bar): real {
    Max(0.0, if c.isBuy then bar.high - c.entry else c.entry - bar.low)
  }

  function Adverse(c: Candidate, bar: Bar): real {
    Max(0.0, if c.isBuy then c.entry - bar.low else bar.high - c.entry)
  }

  predicate StopTouched(c: Candidate, bar: Bar) {
    if c.isBuy then bar.low <= c.stop else bar.high >= c.stop
  }

  predicate TargetTouched(c: Candidate, bar: Bar, i: nat)
    requires i < |c.targets|
  {
    if c.isBuy then bar.high >= c.targets[i] else bar.low <= c.targets[i]
  }

  /** The largest index among the first `n` targets that the bar reached. */
  function HighestTouched(c: Candidate, bar: Bar, n: nat): (r: Option<nat>)
    requires n <= |c.targets|
    ensures match r
            case None => forall i :: 0 <= i < n ==> !TargetTouched(c, bar, i)
            case Some(top) => top < n && TargetTouched(c, bar, top) && forall i :: top < i < n ==> !TargetTouched(c, bar, i)
  {
    if n == 0 then None
    else if TargetTouched(c, bar, n - 1) then Some(n - 1)
    else HighestTouched(c, bar, n - 1)
  }

  predicate Terminal(c: Candidate, bar: Bar) {
    StopTouched(c, bar) || HighestTouched(c, bar, |c.targets|).Some?
  }

  function Verdict(c: Candidate, bar: Bar): Outcome {
    var target := HighestTouched(c, bar, |c.targets|).Some?;
    if StopTouched(c, bar) && target then AmbiguousSameBar
    else if StopTouched(c, bar) then StopReached
    else if target then TargetReached
    else Unresolved
  }

  // ----- scanning the bars -----

  datatype Progress = Progress(mfe: real, mae: real, highest: Option<nat>, outcome: Outcome, at: Option<int>)

  function Nothing(): Progress {
    Progress(0.0, 0.0, None, Unresolved, None)
  }

  function Observe(c: Candidate, p: Progress, bar: Bar): Progress {
    var touched := HighestTouched(c, bar, |c.targets|);
    var highest :=
      if touched.None? then p.highest
      else if p.highest.Some? && p.highest.value > touched.value then p.highest
      else touched;
    Progress(Max(p.mfe, Favorable(c, bar)), Max(p.mae, Adverse(c, bar)), highest,
             Verdict(c, bar), if Verdict(c, bar).Unresolved? then None else Some(bar.timestamp))
  }

  /** Stops at the first bar that touches the stop or a target. */
  function Scan(c: Candidate, p: Progress, bars: seq<Bar>): Progress
    decreases |bars|
  {
    if bars == [] || !p.outcome.Unresolved? then p else Scan(c, Observe(c, p, bars[0]), bars[1..])
  }

  function Report(c: Candidate, p: Progress, bars: seq<Bar>): Evaluation {
    Evaluation(c.id, c.createdAt, if bars == [] then c.createdAt else bars[|bars| - 1].timestamp,
               p.outcome, p.at, p.highest, |bars|, p.mfe, p.mae, p.mfe / c.Risk(), p.mae / c.Risk())
  }

  function Measure(c: Candidate, bars: seq<Bar>): Evaluation {
    Report(c, Scan(c, Nothing(), bars), bars)
  }

  function Evaluate(c: Candidate, bars: seq<Bar>, maximum: Option<int>): Result<Evaluation, EvaluationError> {
    if maximum.Some? && maximum.value <= 0 then Err(MaximumNotPositive)
    else
      match PrepareFrom(bars, None, c.createdAt, if maximum.Some? then Some(maximum.value) else None)
      case Err(e) => Err(e)
      case Ok(prepared) => Ok(Measure(c, prepared))
  }

  // ----- the loops -----

  method PrepareBars(bars: seq<Bar>, createdAt: int, maximum: Option<nat>) returns (r: Result<seq<Bar>, EvaluationError>)
    requires maximum.Some? ==> maximum.value > 0
    ensures r == PrepareFrom(bars, None, createdAt, maximum)
  {
    var selected: seq<Bar> := [];
    var previous: Option<int> := None;
    ghost var room := maximum;
    assert bars[0..] == bars && forall rest: seq<Bar> :: selected + rest == rest;
    for i := 0 to |bars|
      invariant maximum.Some? <==> room.Some?
      invariant maximum.Some? ==> room.value == maximum.value - |selected| && room.value > 0
      invariant PrepareFrom(bars, None, createdAt, maximum)
             == match PrepareFrom(bars[i..], previous, createdAt, room) {
                  case Err(e) => Err(e)
                  case Ok(rest) => Ok(selected + rest) }
    {
      assert bars[i..][0] == bars[i] && bars[i..][1..] == bars[i + 1..];
      if previous.Some? && bars[i].timestamp <= previous.value {
        return Err(BarsNotIncreasing);
      }
      previous := Some(bars[i].timestamp);
      if bars[i].timestamp > createdAt {
        ghost var before := selected;
        selected := selected + [bars[i]];
        if maximum.Some? && |selected| >= maximum.value {
          return Ok(selected);
        }
        room := if room.Some? then Some(room.value - 1) else None;
        assert forall rest: seq<Bar> :: before + ([bars[i]] + rest) == selected + rest;
      }
    }
    assert bars[|bars|..] == [] && selected + [] == selected;
    r := Ok(selected);
  }

  method EvaluateCandidate(c: Candidate, bars: seq<Bar>, maximum: Option<int>) returns (r: Result<Evaluation, EvaluationError>)
    ensures r == Evaluate(c, bars, maximum)
  {
    if maximum.Some? && maximum.value <= 0 {
      return Err(MaximumNotPositive);
    }
    var prepared := PrepareBars(bars, c.createdAt, if maximum.Some? then Some(maximum.value) else None);
    if prepared.Err? {
      return Err(prepared.error);
    }
    var chosen := prepared.value;
    var mfe, mae, highest := 0.0, 0.0, None;
    var outcome, at := Unresolved, None;
    var i := 0;
    while i < |chosen| && outcome.Unresolved?
      invariant 0 <= i <= |chosen|
      invariant Scan(c, Nothing(), chosen) == Scan(c, Progress(mfe, mae, highest, outcome, at), chosen[i..])
    {
      var bar := chosen[i];
      assert chosen[i..][0] == bar && chosen[i..][1..] == chosen[i + 1..];
      mfe := Max(mfe, Favorable(c, bar));
      mae := Max(mae, Adverse(c, bar));
      var touched := HighestTouched(c, bar, |c.targets|);
      if touched.Some? && !(highest.Some? && highest.value > touched.value) {
        highest := touched;
      }
      outcome := Verdict(c, bar);
      at := if outcome.Unresolved? then None else Some(bar.timestamp);
      i := i + 1;
    }
    r := Ok(Report(c, Progress(mfe, mae, highest, outcome, at), chosen));
  }

  // ----- what an evaluation means -----

  /** The index of the first bar that touches the stop or a target, or the number of bars. */
  function FirstTerminal(c: Candidate, bars: seq<Bar>): (n: nat)
    ensures n <= |bars| && (n < |bars| ==> Terminal(c, bars[n]))
    ensures forall j :: 0 <= j < n ==> !Terminal(c, bars[j])
    decreases |bars|
  {
    if bars == [] then 0
    else if Terminal(c, bars[0]) then 0
    else
      var n := FirstTerminal(c, bars[1..]);
      assert forall j :: 0 < j < n + 1 ==> bars[j] == bars[1..][j - 1];
      n + 1
  }

  function Excursion(c: Candidate, favorable: bool, bar: Bar): real {
    if favorable then Favorable(c, bar) else Adverse(c, bar)
  }

  /** `top` is the largest of `start` and the excursions of the bars. */
  predicate IsLargest(c: Candidate, favorable: bool, start: real, bars: seq<Bar>, top: real) {
    && start <= top && (forall b <- bars :: Excursion(c, favorable, b) <= top)
    && (top == start || exists b <- bars :: Excursion(c, favorable, b) == top)
  }

  lemma LargestOfMore(c: Candidate, favorable: bool, start: real, bar: Bar, bars: seq<Bar>, top: real)
    requires IsLargest(c, favorable, Max(start, Excursion(c, favorable, bar)), bars, top)
    ensures IsLargest(c, favorable, start, [bar] + bars, top)
  {
    assert bar in [bar] + bars;
    assert forall b <- bars :: b in [bar] + bars;
  }

  lemma NothingIsLarger(c: Candidate, favorable: bool, start: real)
    ensures IsLargest(c, favorable, start, [], start)
  {
  }

  /** The bars up to and including the first terminal one. */
  function LivedThrough(c: Candidate, bars: seq<Bar>): seq<Bar> {
    var n := FirstTerminal(c, bars);
    if n < |bars| then bars[..n + 1] else bars
  }

  lemma {:induction false} ScanMeaning(c: Candidate, p: Progress, bars: seq<Bar>)
    requires p.outcome.Unresolved? && p.highest.None? && p.at.None?
    ensures var n := FirstTerminal(c, bars);
      var end := Scan(c, p, bars);
      && (if n == |bars| then end.outcome.Unresolved? && end.at.None? && end.highest.None?
          else && end.outcome == Verdict(c, bars[n]) && end.at == Some(bars[n].timestamp)
               && end.highest == HighestTouched(c, bars[n], |c.targets|))
      && IsLargest(c, true, p.mfe, LivedThrough(c, bars), end.mfe)
      && IsLargest(c, false, p.mae, LivedThrough(c, bars), end.mae)
    decreases |bars|
  {
    if bars != [] {
      hide IsLargest, Favorable, Adverse, HighestTouched, StopTouched;
      var q := Observe(c, p, bars[0]);
      if Terminal(c, bars[0]) {
        assert Scan(c, q, bars[1..]) == q;
        assert LivedThrough(c, bars) == [bars[0]] == [bars[0]] + [];
        NothingIsLarger(c, true, q.mfe);
        NothingIsLarger(c, false, q.mae);
        LargestOfMore(c, true, p.mfe, bars[0], [], q.mfe);
        LargestOfMore(c, false, p.mae, bars[0], [], q.mae);
      } else {
        ScanMeaning(c, q, bars[1..]);
        var rest := LivedThrough(c, bars[1..]);
        assert LivedThrough(c, bars) == [bars[0]] + rest;
        LargestOfMore(c, true, p.mfe, bars[0], rest, Scan(c, q, bars[1..]).mfe);
        LargestOfMore(c, false, p.mae, bars[0], rest, Scan(c, q, bars[1..]).mae);
      }
    }
  }

  /** What the prices of one bar decide: the stop alone, a target alone, both or neither. */
  predicate Decides(c: Candidate, b: Bar, outcome: Outcome) {
    var stopped := if c.isBuy then b.low <= c.stop else b.high >= c.stop;
    var reached := exists t <- c.targets :: if c.isBuy then b.high >= t else b.low <= t;
    match outcome
    case StopReached => stopped && !reached
    case TargetReached => reached && !stopped
    case AmbiguousSameBar => stopped && reached
    case Unresolved => !stopped && !reached
  }

  /** The index of the farthest target in the list that the bar reached, if it reached any. */
  predicate IsHighestTarget(c: Candidate, b: Bar, highest: Option<nat>) {
    if highest.Some? then
      && highest.value < |c.targets| && (if c.isBuy then b.high >= c.targets[highest.value] else b.low <= c.targets[highest.value])
      && forall i :: highest.value < i < |c.targets| ==> if c.isBuy then b.high < c.targets[i] else b.low > c.targets[i]
    else forall t <- c.targets :: if c.isBuy then b.high < t else b.low > t
  }

  /** How far one bar goes above and below a price. */
  function Above(price: real, b: Bar): real {
    b.high - price
  }

  function Below(price: real, b: Bar): real {
    price - b.low
  }

  /** `top` is the largest rise above the price, or fall below it, of any of the bars, and at least zero. */
  predicate IsExcursion(price: real, rise: bool, bars: seq<Bar>, top: real) {
    && top >= 0.0 && (forall b <- bars :: (if rise then Above(price, b) else Below(price, b)) <= top)
    && (top == 0.0 || exists b <- bars :: (if rise then Above(price, b) else Below(price, b)) == top)
  }

  lemma VerdictDecides(c: Candidate, b: Bar)
    ensures Decides(c, b, Verdict(c, b)) && (Terminal(c, b) <==> !Decides(c, b, Unresolved))
    ensures IsHighestTarget(c, b, HighestTouched(c, b, |c.targets|))
  {
    var touched := HighestTouched(c, b, |c.targets|);
    if touched.None? {
      forall t <- c.targets
        ensures if c.isBuy then b.high < t else b.low > t
      {
        var i :| 0 <= i < |c.targets| && c.targets[i] == t;
        assert !TargetTouched(c, b, i);
      }
    } else {
      assert c.targets[touched.value] in c.targets;
      forall i | touched.value < i < |c.targets|
        ensures if c.isBuy then b.high < c.targets[i] else b.low > c.targets[i]
      {
        assert !TargetTouched(c, b, i);
      }
    }
  }

  lemma LargestIsExcursion(c: Candidate, favorable: bool, bars: seq<Bar>, top: real)
    requires IsLargest(c, favorable, 0.0, bars, top)
    ensures IsExcursion(c.entry, favorable == c.isBuy, bars, top)
  {
  }

  lemma RatioTimes(x: real, risk: real)
    requires risk != 0.0
    ensures x / risk * risk == x
  {
  }

  lemma MeasureByScan(c: Candidate, bars: seq<Bar>)
    ensures var e := Measure(c, bars);
      var n := FirstTerminal(c, bars);
      && (e.outcome == Unresolved <==> n == |bars|)
      && (n < |bars| ==> e.outcome == Verdict(c, bars[n]) && e.outcomeAt == Some(bars[n].timestamp)
                         && e.highestTarget == HighestTouched(c, bars[n], |c.targets|))
      && (n == |bars| ==> e.outcomeAt == None && e.highestTarget == None)
      && IsLargest(c, true, 0.0, LivedThrough(c, bars), e.mfe)
      && IsLargest(c, false, 0.0, LivedThrough(c, bars), e.mae)
  {
    ScanMeaning(c, Nothing(), bars);
  }

  /** Bar `n` is the first that meets the stop or a target, and its prices decide the outcome; without such a bar, where
      `n` is the number of bars, the outcome is open. */
  predicate OutcomeDecided(c: Candidate, bars: seq<Bar>, n: nat, e: Evaluation)
    requires n <= |bars|
  {
    && (forall k :: 0 <= k < n ==> Decides(c, bars[k], Unresolved))
    && if n < |bars| then
         && Decides(c, bars[n], e.outcome) && e.outcome != Unresolved
         && e.outcomeAt == Some(bars[n].timestamp) && IsHighestTarget(c, bars[n], e.highestTarget)
       else e.outcome == Unresolved && e.outcomeAt == None && e.highestTarget == None
  }

  /** The excursions are the largest of the bars, and the R multiples count them in risks. */
  predicate ExcursionsMeasured(c: Candidate, bars: seq<Bar>, e: Evaluation) {
    && IsExcursion(c.entry, c.isBuy, bars, e.mfe) && IsExcursion(c.entry, !c.isBuy, bars, e.mae)
    && e.mfeR * Abs(c.entry - c.stop) == e.mfe && e.maeR * Abs(c.entry - c.stop) == e.mae
  }

  lemma OutcomeIsDecided(c: Candidate, bars: seq<Bar>)
    ensures OutcomeDecided(c, bars, FirstTerminal(c, bars), Measure(c, bars))
  {
    MeasureByScan(c, bars);
    var n := FirstTerminal(c, bars);
    hide Scan, Measure, Verdict, Decides, IsHighestTarget, IsLargest, Terminal, HighestTouched, LivedThrough;
    forall k | 0 <= k < n
      ensures Decides(c, bars[k], Unresolved)
    {
      VerdictDecides(c, bars[k]);
    }
    if n < |bars| {
      VerdictDecides(c, bars[n]);
    }
  }

  lemma ExcursionsAreMeasured(c: Candidate, bars: seq<Bar>)
    ensures ExcursionsMeasured(c, LivedThrough(c, bars), Measure(c, bars))
  {
    MeasureByScan(c, bars);
    var e, lived := Measure(c, bars), LivedThrough(c, bars);
    hide Scan, IsLargest, IsExcursion, LivedThrough, FirstTerminal;
    LargestIsExcursion(c, true, lived, e.mfe);
    LargestIsExcursion(c, false, lived, e.mae);
    RatioTimes(e.mfe, c.Risk());
    RatioTimes(e.mae, c.Risk());
  }

  /** The outcome, its time and the highest target are decided by the prices of the first bar that meets the stop or a
      target; the excursions are the largest up to and including that bar. */
  lemma EvaluationMeaning(c: Candidate, bars: seq<Bar>)
    ensures exists n: nat :: n <= |bars| && OutcomeDecided(c, bars, n, Measure(c, bars))
                             && ExcursionsMeasured(c, if n < |bars| then bars[..n + 1] else bars, Measure(c, bars))
    ensures var e := Measure(c, bars);
      && e.id == c.id && e.createdAt == c.createdAt && e.barsEvaluated == |bars|
      && e.evaluatedThrough == (if bars == [] then c.createdAt else bars[|bars| - 1].timestamp)
  {
    OutcomeIsDecided(c, bars);
    ExcursionsAreMeasured(c, bars);
    hide Scan, OutcomeDecided, ExcursionsMeasured, FirstTerminal;
    assert FirstTerminal(c, bars) <= |bars|;
  }

  /** An evaluation measures the first bars later than the candidate, up to the maximum, which must be positive. */
  lemma EvaluatesFirstLaterBars(c: Candidate, bars: seq<Bar>, maximum: Option<int>)
    ensures Evaluate(c, bars, maximum) == Err(MaximumNotPositive) <==> maximum.Some? && maximum.value <= 0
    ensures Evaluate(c, bars, maximum).Ok? ==>
              var later := After(c.createdAt, bars);
              var n := if maximum.Some? && maximum.value < |later| then maximum.value else |later|;
              0 <= n && Evaluate(c, bars, maximum).value == Measure(c, later[..n])
  {
    hide Measure, PrepareFrom, After;
    if !(maximum.Some? && maximum.value <= 0) {
      var room := if maximum.Some? then Some(maximum.value as nat) else None;
      PreparedExactly(bars, None, c.createdAt, room);
      PreparingNeverBlamesTheMaximum(bars, None, c.createdAt, room);
    }
  }

  lemma {:induction false} PreparingNeverBlamesTheMaximum(bars: seq<Bar>, previous: Option<int>, createdAt: int, room: Option<nat>)
    ensures PrepareFrom(bars, previous, createdAt, room) != Err(MaximumNotPositive)
    decreases |bars|
  {
    if bars != [] {
      PreparingNeverBlamesTheMaximum(bars[1..], Some(bars[0].timestamp), createdAt, room);
      PreparingNeverBlamesTheMaximum(bars[1..], Some(bars[0].timestamp), createdAt,
                                     if room.Some? && room.value > 0 then Some(room.value - 1) else None);
    }
  }

  lemma {:induction false} ScanStops(c: Candidate, p: Progress, bars: seq<Bar>)
    ensures Scan(c, p, bars) == Scan(c, p, LivedThrough(c, bars))
    decreases |bars|
  {
    if bars != [] && p.outcome.Unresolved? {
      var q := Observe(c, p, bars[0]);
      if Terminal(c, bars[0]) {
        assert LivedThrough(c, bars) == [bars[0]];
        assert Scan(c, q, bars[1..]) == q == Scan(c, q, []);
      } else {
        ScanStops(c, q, bars[1..]);
        assert LivedThrough(c, bars) == [bars[0]] + LivedThrough(c, bars[1..]);
        assert LivedThrough(c, bars)[1..] == LivedThrough(c, bars[1..]);
      }
    }
  }
}

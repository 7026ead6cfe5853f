/** Watching setups after they have expired: for a late trigger first, then for the outcome it would have had. */
module PostExpiryTracker {
  import opened Wrappers
  import opened Market
  import CE = CandidateEvaluation

  datatype Setup = Setup(id: nat, isBuy: bool, targets: seq<real>)

  /** What the strategy says about a setup on the current bar; a trigger may or may not yield a candidate. */
  datatype Diagnosis = NoTrigger | Trigger(price: Option<real>, candidate: Option<CE.Candidate>)

  /** What is noted about the targets when a trigger appears. */
  datatype TriggerFacts = TriggerFacts(
    price: Option<real>, nearest: Option<real>, beyondEntry: bool, distance: Option<real>)

  datatype Limits = Limits(maximumBars: nat, outcomeMaximumBars: nat) {
    predicate Valid() {
      maximumBars > 0 && outcomeMaximumBars > 0
    }
  }

  datatype Tracked = Tracked(
    setup: Setup, expiredAt: int, barsObserved: nat, triggerFound: bool, firstTriggerAt: Option<int>,
    barsAfterExpiry: Option<nat>, windowComplete: bool, geometryValid: Option<bool>,
    crossedAt: Option<int>, crossBar: Option<nat>, barsSinceCross: Option<int>,
    candidate: Option<CE.Candidate>, outcomeBars: seq<Bar>, outcome: Option<CE.Outcome>, outcomeAt: Option<int>,
    outcomeBarsEvaluated: nat, mfeR: Option<real>, maeR: Option<real>, outcomeWindowComplete: bool,
    firstDistance: Option<real>, facts: Option<TriggerFacts>)

  datatype State = State(pending: seq<Tracked>, completed: seq<Tracked>)

  function Fresh(setup: Setup, expiredAt: int): Tracked {
    Tracked(setup, expiredAt, 0, false, None, None, false, None, None, None, None, None, [], None, None, 0,
            None, None, false, None, None)
  }

  predicate Known(st: State, id: nat) {
    || (exists i :: 0 <= i < |st.pending| && st.pending[i].setup.id == id)
    || (exists i :: 0 <= i < |st.completed| && st.completed[i].setup.id == id)
  }

  /** A setup that is already known is ignored. */
  function RegisterIn(st: State, setup: Setup, expiredAt: int): State {
    if Known(st, setup.id) then st else st.(pending := st.pending + [Fresh(setup, expiredAt)])
  }

  // ----- one bar for one setup -----

  predicate CrossesTarget(setup: Setup, bar: Bar) {
    exists i :: 0 <= i < |setup.targets| && if setup.isBuy then bar.high >= setup.targets[i] else bar.low <= setup.targets[i]
  }

  /** The first of the targets closest to a price. */
  function Nearest(targets: seq<real>, price: real): (nearest: real)
    requires targets != []
    ensures nearest in targets && forall t <- targets :: Abs(nearest - price) <= Abs(t - price)
  {
    var last := targets[|targets| - 1];
    if |targets| == 1 then last
    else
      var best := Nearest(targets[..|targets| - 1], price);
      assert targets == targets[..|targets| - 1] + [last];
      if Abs(last - price) < Abs(best - price) then last else best
  }

  /** Of targets equally close the first one counts. */
  lemma {:induction false} NearestIsFirst(targets: seq<real>, price: real) returns (k: nat)
    requires targets != []
    ensures k < |targets| && targets[k] == Nearest(targets, price)
    ensures forall j :: 0 <= j < k ==> Abs(targets[j] - price) > Abs(targets[k] - price)
    decreases |targets|
  {
    hide Abs;
    var n := |targets| - 1;
    if n == 0 {
      k := 0;
    } else {
      k := NearestIsFirst(targets[..n], price);
      FartherOnes(targets, n, price);
      if Nearest(targets, price) != targets[k] {
        k := n;
      }
    }
  }

  /** None of the first `n` targets is closer than the closest of them. */
  lemma FartherOnes(targets: seq<real>, n: nat, price: real)
    requires 0 < n < |targets|
    ensures forall j :: 0 <= j < n ==> Abs(targets[j] - price) >= Abs(Nearest(targets[..n], price) - price)
  {
    hide Nearest, Abs;
    forall j | 0 <= j < n
      ensures Abs(targets[j] - price) >= Abs(Nearest(targets[..n], price) - price)
    {
      assert targets[..n][j] in targets[..n];
    }
  }

  /** How far the nearest target was at the close of the first bar after the expiry. */
  function FirstDistance(t: Tracked, bar: Bar): Option<real> {
    if t.firstDistance.None? && t.setup.targets != [] then Some(Abs(Nearest(t.setup.targets, bar.close) - bar.close))
    else t.firstDistance
  }

  function FactsOf(setup: Setup, price: Option<real>): (facts: TriggerFacts)
    ensures facts.price == price && (facts.nearest.Some? <==> price.Some? && setup.targets != [])
    ensures facts.distance.Some? <==> facts.nearest.Some?
    ensures facts.nearest.Some? ==>
              && facts.nearest.value in setup.targets && facts.distance.value == Abs(facts.nearest.value - price.value)
              && forall t <- setup.targets :: facts.distance.value <= Abs(t - price.value)
    ensures facts.beyondEntry <==>
              facts.nearest.Some? && (if setup.isBuy then facts.nearest.value > price.value else facts.nearest.value < price.value)
  {
    var nearest := if price.Some? && setup.targets != [] then Some(Nearest(setup.targets, price.value)) else None;
    TriggerFacts(
      price, nearest,
      nearest.Some? && if setup.isBuy then nearest.value > price.value else nearest.value < price.value,
      if nearest.Some? then Some(Abs(nearest.value - price.value)) else None)
  }

  /** Counts the bar and notes the first one that reaches a target. */
  function Freshness(t: Tracked, bar: Bar): Tracked {
    var counted := t.(barsObserved := t.barsObserved + 1, firstDistance := FirstDistance(t, bar));
    if t.crossedAt.None? && CrossesTarget(t.setup, bar)
    then counted.(crossedAt := Some(bar.timestamp), crossBar := Some(counted.barsObserved))
    else counted
  }

  function CrossBarNumber(t: Tracked): nat {
    if t.crossBar.Some? then t.crossBar.value else t.barsObserved
  }

  function Triggered(t: Tracked, bar: Bar, price: Option<real>, candidate: Option<CE.Candidate>): Tracked {
    t.(triggerFound := true, firstTriggerAt := Some(bar.timestamp), barsAfterExpiry := Some(t.barsObserved),
       windowComplete := true, geometryValid := Some(candidate.Some?), candidate := candidate, outcomeBars := [],
       barsSinceCross := if t.crossedAt.Some? then Some(t.barsObserved - CrossBarNumber(t)) else t.barsSinceCross,
       facts := Some(FactsOf(t.setup, price)),
       outcomeWindowComplete := t.outcomeWindowComplete || candidate.None?)
  }

  function Watch(limits: Limits, t: Tracked, bar: Bar, d: Diagnosis): Tracked {
    var seen := Freshness(t, bar);
    match d
    case Trigger(price, candidate) => Triggered(seen, bar, price, candidate)
    case NoTrigger =>
      if seen.barsObserved >= limits.maximumBars then seen.(windowComplete := true, outcomeWindowComplete := true) else seen
  }

  /** The evaluator refuses bars that are not in order. */
  function Follow(limits: Limits, t: Tracked, bar: Bar): Result<Tracked, CE.EvaluationError>
    requires t.candidate.Some?
  {
    var grown := t.(outcomeBars := t.outcomeBars + [bar]);
    match CE.Evaluate(t.candidate.value, grown.outcomeBars, Some(limits.outcomeMaximumBars))
    case Err(e) => Err(e)
    case Ok(e) =>
      Ok(grown.(outcome := Some(e.outcome), outcomeAt := e.outcomeAt, outcomeBarsEvaluated := e.barsEvaluated,
                mfeR := Some(e.mfeR), maeR := Some(e.maeR),
                outcomeWindowComplete := !e.outcome.Unresolved? || e.barsEvaluated >= limits.outcomeMaximumBars))
  }

  /** The bar's range reaches one of the targets. */
  predicate Reaches(isBuy: bool, targets: seq<real>, bar: Bar) {
    if isBuy then exists target <- targets :: target <= bar.high else exists target <- targets :: target >= bar.low
  }

  lemma CrossingReaches(setup: Setup, bar: Bar)
    ensures CrossesTarget(setup, bar) <==> Reaches(setup.isBuy, setup.targets, bar)
  {
    if target :| target in setup.targets && if setup.isBuy then target <= bar.high else target >= bar.low {
      var i :| 0 <= i < |setup.targets| && setup.targets[i] == target;
    }
    if CrossesTarget(setup, bar) {
      var i :| 0 <= i < |setup.targets| && if setup.isBuy then bar.high >= setup.targets[i] else bar.low <= setup.targets[i];
      assert setup.targets[i] in setup.targets;
    }
  }

  /** `d` is the distance from a price to the closest of the targets. */
  predicate IsDistance(targets: seq<real>, price: real, d: real) {
    && (exists target <- targets :: d == target - price || d == price - target)
    && forall target <- targets :: d <= if target >= price then target - price else price - target
  }

  /** The bar is counted, the distance of the first one to the targets is noted, and so is the first that reaches one. */
  predicate Seen(t: Tracked, bar: Bar, next: Tracked) {
    && next.barsObserved == t.barsObserved + 1
    && (if t.firstDistance.Some? || t.setup.targets == [] then next.firstDistance == t.firstDistance
        else next.firstDistance.Some? && IsDistance(t.setup.targets, bar.close, next.firstDistance.value))
    && (next.crossedAt, next.crossBar) ==
         if t.crossedAt.None? && Reaches(t.setup.isBuy, t.setup.targets, bar) then (Some(bar.timestamp), Some(next.barsObserved))
         else (t.crossedAt, t.crossBar)
  }

  lemma FreshnessIsSeen(t: Tracked, bar: Bar)
    ensures Seen(t, bar, Freshness(t, bar))
    ensures Freshness(t, bar) == t.(barsObserved := t.barsObserved + 1, firstDistance := Freshness(t, bar).firstDistance,
                                    crossedAt := Freshness(t, bar).crossedAt, crossBar := Freshness(t, bar).crossBar)
  {
    CrossingReaches(t.setup, bar);
    hide CrossesTarget, Reaches;
  }

  /** What a bar of the trigger window leaves behind: without a trigger, the window ends when the maximum is used up;
      with one, it ends at once, and its candidate, if any, is to be followed. */
  lemma WatchMeaning(limits: Limits, t: Tracked, bar: Bar, d: Diagnosis)
    ensures var next := Watch(limits, t, bar, d);
      && Seen(t, bar, next) && next.setup == t.setup && next.expiredAt == t.expiredAt
      && (next.outcome, next.outcomeAt, next.outcomeBarsEvaluated) == (t.outcome, t.outcomeAt, t.outcomeBarsEvaluated)
      && (next.mfeR, next.maeR) == (t.mfeR, t.maeR)
      && if d.NoTrigger? then
           var full := next.barsObserved >= limits.maximumBars;
           && (next.triggerFound, next.firstTriggerAt, next.barsAfterExpiry) == (t.triggerFound, t.firstTriggerAt, t.barsAfterExpiry)
           && (next.candidate, next.outcomeBars, next.geometryValid) == (t.candidate, t.outcomeBars, t.geometryValid)
           && (next.barsSinceCross, next.facts) == (t.barsSinceCross, t.facts)
           && (next.windowComplete <==> t.windowComplete || full)
           && (next.outcomeWindowComplete <==> t.outcomeWindowComplete || full)
         else
           && next.triggerFound && next.firstTriggerAt == Some(bar.timestamp) && next.barsAfterExpiry == Some(next.barsObserved)
           && next.candidate == d.candidate && next.outcomeBars == [] && next.geometryValid == Some(d.candidate.Some?)
           && next.windowComplete && (next.outcomeWindowComplete <==> t.outcomeWindowComplete || d.candidate.None?)
           && next.facts == Some(FactsOf(t.setup, d.price))
           && (next.crossedAt.Some? && next.crossBar.Some? ==>
                 next.barsSinceCross == Some(next.barsObserved - next.crossBar.value))
           && (next.crossedAt.None? ==> next.barsSinceCross == t.barsSinceCross)
  {
    FreshnessIsSeen(t, bar);
    hide Freshness, IsDistance, Reaches, FactsOf;
  }

  /** A setup watched over some bars without a trigger. */
  function Watched(limits: Limits, t: Tracked, bars: seq<Bar>): Tracked
    decreases |bars|
  {
    if bars == [] then t else Watch(limits, Watched(limits, t, bars[..|bars| - 1]), bars[|bars| - 1], NoTrigger)
  }

  /** Bar `k` is the first to reach a target, or `k` is the number of bars. */
  predicate FirstToReach(setup: Setup, bars: seq<Bar>, k: nat) {
    && k <= |bars| && (k < |bars| ==> Reaches(setup.isBuy, setup.targets, bars[k]))
    && forall j :: 0 <= j < k ==> !Reaches(setup.isBuy, setup.targets, bars[j])
  }

  /** After a window of bars without a trigger the entry knows how many there were, which was the first to reach a
      target, and how far the targets were from the first close. */
  lemma {:induction false} WindowMeaning(limits: Limits, setup: Setup, expiredAt: int, bars: seq<Bar>) returns (k: nat)
    ensures var t := Watched(limits, Fresh(setup, expiredAt), bars);
      && t.setup == setup && t.expiredAt == expiredAt && t.barsObserved == |bars| && !t.triggerFound && t.candidate == None
      && FirstToReach(setup, bars, k)
      && (if k < |bars| then (t.crossedAt, t.crossBar) == (Some(bars[k].timestamp), Some(k + 1))
          else (t.crossedAt, t.crossBar) == (None, None))
      && (if bars != [] && setup.targets != []
          then t.firstDistance.Some? && IsDistance(setup.targets, bars[0].close, t.firstDistance.value)
          else t.firstDistance == None)
    decreases |bars|
  {
    hide Watch, Reaches, IsDistance;
    if bars == [] {
      k := 0;
    } else {
      var front, last := bars[..|bars| - 1], bars[|bars| - 1];
      k := WindowMeaning(limits, setup, expiredAt, front);
      WatchMeaning(limits, Watched(limits, Fresh(setup, expiredAt), front), last, NoTrigger);
      assert forall j :: 0 <= j < |front| ==> bars[j] == front[j];
      if k == |front| && !Reaches(setup.isBuy, setup.targets, last) {
        k := |bars|;
      }
    }
  }

  function ObserveOne(limits: Limits, t: Tracked, bar: Bar, d: Diagnosis): Result<Tracked, CE.EvaluationError> {
    if t.candidate.Some? then Follow(limits, t, bar) else Ok(Watch(limits, t, bar, d))
  }

  /** Whether the bar that turned `t` into `next` finished the entry. */
  predicate Completes(limits: Limits, t: Tracked, next: Tracked, d: Diagnosis) {
    if t.candidate.Some? then next.outcomeWindowComplete
    else
      match d
      case Trigger(_, candidate) => candidate.None?
      case NoTrigger => next.barsObserved >= limits.maximumBars
  }

  // ----- one bar for all setups -----

  /** An entry that has stored an outcome bar. */
  function Keeping(t: Tracked, bar: Bar): Tracked {
    t.(outcomeBars := t.outcomeBars + [bar])
  }

  /** The entries after a bar; a refused entry has recorded the bar but nothing else, and the rest is untouched. */
  function ObserveEach(limits: Limits, pending: seq<Tracked>, bar: Bar, strategy: Setup -> Diagnosis): (r: (seq<Tracked>, bool))
    ensures |r.0| == |pending|
    decreases |pending|
  {
    if pending == [] then ([], false)
    else
      var t := pending[0];
      match ObserveOne(limits, t, bar, strategy(t.setup))
      case Err(_) => ([Keeping(t, bar)] + pending[1..], true)
      case Ok(next) =>
        var (rest, refused) := ObserveEach(limits, pending[1..], bar, strategy);
        ([next] + rest, refused)
  }

  /** A refused bar has been taken by the entries before the one whose evaluation refused it, is kept among the outcome
      bars of that one, and has not reached the others; a bar that is not refused has been taken by all. */
  lemma {:induction false} RefusalLeaves(limits: Limits, pending: seq<Tracked>, bar: Bar, strategy: Setup -> Diagnosis)
    returns (k: nat)
    ensures var (entries, refused) := ObserveEach(limits, pending, bar, strategy);
      && k <= |pending| && (refused <==> k < |pending|)
      && (forall i :: 0 <= i < k ==> ObserveOne(limits, pending[i], bar, strategy(pending[i].setup)) == Ok(entries[i]))
      && (k < |pending| ==>
            && ObserveOne(limits, pending[k], bar, strategy(pending[k].setup)).Err?
            && entries[k] == pending[k].(outcomeBars := pending[k].outcomeBars + [bar]))
      && forall i :: k < i < |pending| ==> entries[i] == pending[i]
    decreases |pending|
  {
    hide ObserveOne;
    if pending == [] || ObserveOne(limits, pending[0], bar, strategy(pending[0].setup)).Err? {
      k := 0;
    } else {
      k := RefusalLeaves(limits, pending[1..], bar, strategy);
      k := k + 1;
    }
  }

  /** Which of the entries the bar finishes. */
  function Completions(limits: Limits, pending: seq<Tracked>, bar: Bar, strategy: Setup -> Diagnosis): (flags: seq<bool>)
    ensures |flags| == |pending|
    ensures forall i :: 0 <= i < |pending| ==> flags[i] == CompletedBy(limits, pending[i], bar, strategy)
  {
    seq(|pending|, i requires 0 <= i < |pending| => CompletedBy(limits, pending[i], bar, strategy))
  }

  predicate CompletedBy(limits: Limits, t: Tracked, bar: Bar, strategy: Setup -> Diagnosis) {
    match ObserveOne(limits, t, bar, strategy(t.setup))
    case Err(_) => false
    case Ok(next) => Completes(limits, t, next, strategy(t.setup))
  }

  /** The flags of the first entries. */
  predicate FlagsUpTo(
    limits: Limits, pending: seq<Tracked>, bar: Bar, strategy: Setup -> Diagnosis, flags: seq<bool>, i: nat)
  {
    && |flags| == i <= |pending|
    && forall k :: 0 <= k < i ==> flags[k] == CompletedBy(limits, pending[k], bar, strategy)
  }

  lemma FlagsGrow(
    limits: Limits, pending: seq<Tracked>, bar: Bar, strategy: Setup -> Diagnosis, flags: seq<bool>, i: nat, next: Tracked)
    requires FlagsUpTo(limits, pending, bar, strategy, flags, i) && i < |pending|
    requires ObserveOne(limits, pending[i], bar, strategy(pending[i].setup)) == Ok(next)
    ensures FlagsUpTo(limits, pending, bar, strategy,
                      flags + [Completes(limits, pending[i], next, strategy(pending[i].setup))], i + 1)
  {
    hide ObserveOne, Completes;
  }

  lemma AllFlags(limits: Limits, pending: seq<Tracked>, bar: Bar, strategy: Setup -> Diagnosis, flags: seq<bool>)
    requires FlagsUpTo(limits, pending, bar, strategy, flags, |pending|)
    ensures flags == Completions(limits, pending, bar, strategy)
  {
    hide CompletedBy;
  }

  lemma NoFlags(limits: Limits, pending: seq<Tracked>, bar: Bar, strategy: Setup -> Diagnosis)
    ensures FlagsUpTo(limits, pending, bar, strategy, [], 0)
  {
  }

  /** The entries with the wanted flag, in order. */
  function Picked(entries: seq<Tracked>, flags: seq<bool>, wanted: bool): (picked: seq<Tracked>)
    requires |entries| == |flags|
    ensures forall t <- picked :: t in entries
  {
    if entries == [] then []
    else (if flags[0] == wanted then [entries[0]] else []) + Picked(entries[1..], flags[1..], wanted)
  }

  /** The state after a bar, and whether the evaluator refused it; only a bar that was not refused moves entries. */
  function Observe(limits: Limits, st: State, bar: Bar, strategy: Setup -> Diagnosis): (State, bool) {
    var (entries, refused) := ObserveEach(limits, st.pending, bar, strategy);
    var flags := Completions(limits, st.pending, bar, strategy);
    if refused then (State(entries, st.completed), true)
    else (State(Picked(entries, flags, false), st.completed + Picked(entries, flags, true)), false)
  }

  lemma EachByFirst(limits: Limits, pending: seq<Tracked>, i: nat, bar: Bar, strategy: Setup -> Diagnosis)
    requires i < |pending|
    ensures var here := ObserveEach(limits, pending[i..], bar, strategy);
      var rest := ObserveEach(limits, pending[i + 1..], bar, strategy);
      var t := pending[i];
      match ObserveOne(limits, t, bar, strategy(t.setup))
      case Err(_) => here == ([Keeping(t, bar)] + pending[i + 1..], true)
      case Ok(next) => here == ([next] + rest.0, rest.1)
  {
    hide ObserveOne;
    assert pending[i..][0] == pending[i] && pending[i..][1..] == pending[i + 1..];
  }

  lemma NothingToObserve(limits: Limits, bar: Bar, strategy: Setup -> Diagnosis)
    ensures ObserveEach(limits, [], bar, strategy) == ([], false)
  {
  }

  /** The first `i` entries have been updated to `done` and none of them was refused. */
  predicate Reached(
    limits: Limits, before: seq<Tracked>, bar: Bar, strategy: Setup -> Diagnosis, done: seq<Tracked>, i: nat)
  {
    && |done| == i <= |before|
    && var rest := ObserveEach(limits, before[i..], bar, strategy);
    var whole := ObserveEach(limits, before, bar, strategy);
    whole.0 == done + rest.0 && whole.1 == rest.1
  }

  lemma ReachedStart(limits: Limits, before: seq<Tracked>, bar: Bar, strategy: Setup -> Diagnosis)
    ensures Reached(limits, before, bar, strategy, [], 0) && [] + before[0..] == before
  {
    hide ObserveEach;
    assert before[0..] == before;
    var whole := ObserveEach(limits, before, bar, strategy);
    assert [] + whole.0 == whole.0;
  }

  /** One more entry: it is replaced, or it is refused and the rest stays as it was. */
  lemma ReachedNext(
    limits: Limits, before: seq<Tracked>, bar: Bar, strategy: Setup -> Diagnosis, done: seq<Tracked>, i: nat)
    requires Reached(limits, before, bar, strategy, done, i) && i < |before|
    ensures (done + before[i..])[i] == before[i]
    ensures match ObserveOne(limits, before[i], bar, strategy(before[i].setup))
            case Ok(next) =>
              && Reached(limits, before, bar, strategy, done + [next], i + 1)
              && (done + before[i..])[i := next] == (done + [next]) + before[i + 1..]
            case Err(_) =>
              var whole := ObserveEach(limits, before, bar, strategy);
              whole.1 && whole.0 == (done + before[i..])[i := Keeping(before[i], bar)]
  {
    hide ObserveEach, ObserveOne;
    EachByFirst(limits, before, i, bar, strategy);
    var rest := ObserveEach(limits, before[i + 1..], bar, strategy);
    match ObserveOne(limits, before[i], bar, strategy(before[i].setup))
    case Ok(next) =>
      assert done + ([next] + rest.0) == (done + [next]) + rest.0;
      assert (done + before[i..])[i := next] == (done + [next]) + before[i + 1..];
    case Err(_) =>
      var kept := Keeping(before[i], bar);
      assert done + ([kept] + before[i + 1..]) == (done + before[i..])[i := kept];
  }

  lemma ReachedEnd(limits: Limits, before: seq<Tracked>, bar: Bar, strategy: Setup -> Diagnosis, done: seq<Tracked>)
    requires Reached(limits, before, bar, strategy, done, |before|)
    ensures ObserveEach(limits, before, bar, strategy) == (done, false) && done + before[|before|..] == done
  {
    hide ObserveOne, ObserveEach;
    NothingToObserve(limits, bar, strategy);
    assert before[|before|..] == [] && done + [] == done;
  }

  // ----- the tracker object -----

  class PostExpiryTriggerTracker {
    const limits: Limits
    var pending: seq<Tracked>
    var completed: seq<Tracked>

    constructor (limits: Limits)
      requires limits.Valid()
      ensures this.limits == limits && Value() == State([], [])
    {
      this.limits := limits;
      pending, completed := [], [];
    }

    function Value(): State
      reads this
    {
      State(pending, completed)
    }

    method Register(setup: Setup, expiredAt: int)
      modifies this
      ensures Value() == RegisterIn(old(Value()), setup, expiredAt)
    {
      if !Known(Value(), setup.id) {
        pending := pending + [Fresh(setup, expiredAt)];
      }
    }

    /** Evaluates the candidate on all outcome bars so far; `None` when the evaluator raised. */
    method ObserveOutcomeBar(t: Tracked, bar: Bar) returns (r: Result<Tracked, CE.EvaluationError>)
      requires t.candidate.Some?
      ensures r == Follow(limits, t, bar)
    {
      var bars := t.outcomeBars + [bar];
      var evaluation := CE.EvaluateCandidate(t.candidate.value, bars, Some(limits.outcomeMaximumBars));
      if evaluation.Err? {
        return Err(evaluation.error);
      }
      var e := evaluation.value;
      r := Ok(t.(outcomeBars := bars, outcome := Some(e.outcome), outcomeAt := e.outcomeAt,
                 outcomeBarsEvaluated := e.barsEvaluated,
                 mfeR := Some(e.mfeR), maeR := Some(e.maeR),
                 outcomeWindowComplete := !e.outcome.Unresolved? || e.barsEvaluated >= limits.outcomeMaximumBars));
    }

    /** Notes how far the nearest target was on the first bar, and the first bar that reaches a target. */
    method ObserveTargetFreshness(t: Tracked, bar: Bar) returns (next: Tracked)
      ensures next == t.(firstDistance := next.firstDistance, crossedAt := next.crossedAt, crossBar := next.crossBar)
      ensures next.firstDistance == FirstDistance(t, bar)
      ensures (next.crossedAt, next.crossBar) ==
                if t.crossedAt.None? && CrossesTarget(t.setup, bar) then (Some(bar.timestamp), Some(t.barsObserved))
                else (t.crossedAt, t.crossBar)
    {
      next := t;
      if t.setup.targets == [] {
        return;
      }
      if next.firstDistance.None? {
        var nearest := Nearest(t.setup.targets, bar.close);
        next := next.(firstDistance := Some(Abs(nearest - bar.close)));
      }
      if next.crossedAt.Some? {
        return;
      }
      if CrossesTarget(t.setup, bar) {
        next := next.(crossedAt := Some(bar.timestamp));
        next := next.(crossBar := Some(next.barsObserved));
      }
    }

    /** Ends the trigger window with what was found; without a candidate there is nothing more to follow. */
    method RecordTrigger(t: Tracked, bar: Bar, price: Option<real>, candidate: Option<CE.Candidate>) returns (next: Tracked)
      ensures next == Triggered(t, bar, price, candidate)
    {
      hide FactsOf;
      next := t.(triggerFound := true, firstTriggerAt := Some(bar.timestamp), barsAfterExpiry := Some(t.barsObserved),
                 windowComplete := true, facts := Some(FactsOf(t.setup, price)));
      if next.crossedAt.Some? {
        next := next.(barsSinceCross := Some(next.barsObserved - CrossBarNumber(next)));
      }
      next := next.(geometryValid := Some(candidate.Some?), candidate := candidate, outcomeBars := []);
      if candidate.None? {
        next := next.(outcomeWindowComplete := true);
      }
    }

    /** One bar of the trigger window: it is counted, a first touch of a target is noted, and the window ends by the
        trigger or by the maximum. */
    method WatchEntry(t: Tracked, bar: Bar, d: Diagnosis) returns (next: Tracked)
      ensures next == Watch(limits, t, bar, d)
    {
      hide CrossesTarget, Triggered;
      next := t.(barsObserved := t.barsObserved + 1);
      next := ObserveTargetFreshness(next, bar);
      assert next == Freshness(t, bar);
      match d
      case NoTrigger =>
        if next.barsObserved >= limits.maximumBars {
          next := next.(windowComplete := true, outcomeWindowComplete := true);
        }
      case Trigger(price, candidate) =>
        next := RecordTrigger(next, bar, price, candidate);
    }

    method ObserveEntry(t: Tracked, bar: Bar, d: Diagnosis) returns (r: Result<Tracked, CE.EvaluationError>)
      ensures r == ObserveOne(limits, t, bar, d)
    {
      hide Watch, Follow;
      if t.candidate.Some? {
        r := ObserveOutcomeBar(t, bar);
      } else {
        var next := WatchEntry(t, bar, d);
        r := Ok(next);
      }
    }

    /** Updates the entries one by one, up to the first that the evaluator refuses, and notes which are finished. */
    method UpdateEntries(bar: Bar, strategy: Setup -> Diagnosis) returns (refused: bool, completedNow: seq<bool>)
      modifies this`pending
      ensures (pending, refused) == ObserveEach(limits, old(pending), bar, strategy)
      ensures !refused ==> completedNow == Completions(limits, old(pending), bar, strategy)
    {
      hide ObserveOne, ObserveEach, Completions, Completes, Reached, FlagsUpTo, Keeping;
      var before := pending;
      ghost var done: seq<Tracked> := [];
      completedNow := [];
      ReachedStart(limits, before, bar, strategy);
      NoFlags(limits, before, bar, strategy);
      for i := 0 to |before|
        invariant |done| == i && pending == done + before[i..] && Reached(limits, before, bar, strategy, done, i)
        invariant FlagsUpTo(limits, before, bar, strategy, completedNow, i)
      {
        ReachedNext(limits, before, bar, strategy, done, i);
        var t := pending[i];
        var next := ObserveEntry(t, bar, strategy(t.setup));
        if next.Err? {
          pending := pending[i := Keeping(t, bar)];
          return true, completedNow;
        }
        FlagsGrow(limits, before, bar, strategy, completedNow, i, next.value);
        pending := pending[i := next.value];
        done := done + [next.value];
        completedNow := completedNow + [Completes(limits, t, next.value, strategy(t.setup))];
      }
      ReachedEnd(limits, before, bar, strategy, done);
      AllFlags(limits, before, bar, strategy, completedNow);
      refused := false;
    }

    method ObserveBar(bar: Bar, strategy: Setup -> Diagnosis) returns (refused: bool)
      modifies this
      ensures (Value(), refused) == Observe(limits, old(Value()), bar, strategy)
    {
      var completedNow;
      refused, completedNow := UpdateEntries(bar, strategy);
      if !refused {
        completed := completed + Picked(pending, completedNow, true);
        pending := Picked(pending, completedNow, false);
      }
    }
  }
}

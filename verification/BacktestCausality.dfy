/** No look-ahead: what a backtest has earned by a decision depends only on the bars closed by then. */
module BacktestCausality {
  import opened Wrappers
  import opened Market
  import opened TradeLifecycle
  import opened BacktestRun
  import opened BacktestPlans

  /** Two tapes that hold the same closed bars at `boundary`; what comes later may differ freely. */
  predicate SamePast(cfg: EngineConfig, one: seq<Bar>, two: seq<Bar>, boundary: int) {
    && (forall j :: 0 <= j < |one| && ClosedBy(cfg, one[j], boundary) ==> j < |two| && two[j] == one[j])
    && (forall j :: 0 <= j < |two| && ClosedBy(cfg, two[j], boundary) ==> j < |one| && one[j] == two[j])
  }

  ghost predicate SameAnswers(one: Strategy, two: Strategy, decisions: nat) {
    forall i: nat, a: Account :: i < decisions ==> one(i, a) == two(i, a)
  }

  lemma {:induction false} ConsumeLooksBack(
    cfg: EngineConfig, one: seq<Bar>, two: seq<Bar>, boundary: int, last: int, es: EngineState)
    requires boundary <= last && SamePast(cfg, one, two, last)
    ensures Consume(cfg, one, boundary, es) == Consume(cfg, two, boundary, es)
    decreases |one| - es.simIndex
  {
    hide AdvanceTrade;
    var n := es.simIndex;
    if n < |one| && ClosedBy(cfg, one[n], boundary) {
      assert ClosedBy(cfg, one[n], last);
      match AdvanceTrade(cfg, es, one[n])
      case Err(e) =>
      case Ok(next) => ConsumeLooksBack(cfg, one, two, boundary, last, next.(simIndex := n + 1));
    } else {
      assert n < |two| && ClosedBy(cfg, two[n], boundary) ==> ClosedBy(cfg, two[n], last);
    }
  }

  // ----- the one question about the future -----

  /** One decision looks at the future exactly when it would begin a trade: then it asks whether a bar is left. */
  lemma DecisionsAskOnlyForABar(
    cfg: EngineConfig, one: seq<Bar>, two: seq<Bar>, es: EngineState, bar: Bar, seen: Observation)
    ensures Decide(cfg, one, es, bar, seen) == Decide(cfg, two, es, bar, seen) <==>
              HasFuture(cfg, one, bar.timestamp) == HasFuture(cfg, two, bar.timestamp) || !WouldBegin(cfg, es, bar, seen)
    ensures Decide(cfg, one, es, bar, seen).Err? != Decide(cfg, two, es, bar, seen).Err? <==>
              && HasFuture(cfg, one, bar.timestamp) != HasFuture(cfg, two, bar.timestamp)
              && WouldBegin(cfg, es, bar, seen) && Begin(seen.plan.value, bar).Err?
  {
    hide HasFuture, Begin;
  }

  /** The state itself does depend on the future: on the history cut at the decision the plan is not even begun,
      and with one more bar it waits, or the run fails if the plan is malformed. */
  lemma CutHistoryDropsThePlan(cfg: EngineConfig, bar: Bar, next: Bar, strategy: Strategy)
    requires cfg.model.M5CompletedV2? && next.timestamp >= Boundary(bar)
    requires cfg.maximumTrades != Some(0)
    requires WouldBegin(cfg, Initial(cfg), bar, strategy(0, AccountOf(Initial(cfg))))
    ensures var short := RunFrom(cfg, [bar], [bar], strategy, 0, Initial(cfg));
      var long := RunFrom(cfg, [bar], [bar, next], strategy, 0, Initial(cfg));
      var plan := strategy(0, AccountOf(Initial(cfg))).plan.value;
      && short.Ok? && short.value.active.None?
      && match Begin(plan, bar)
         case Ok(sim) => long == Ok(short.value.(active := Some(sim)))
         case Err(e) => long == Err(e)
  {
    hide Begin;
    var waited := Initial(cfg).(simIndex := 1);
    assert Consume(cfg, [bar], Boundary(bar), Initial(cfg)) == Ok(waited);
    assert Consume(cfg, [bar, next], Boundary(bar), Initial(cfg)) == Ok(waited);
    assert !HasFuture(cfg, [bar], bar.timestamp);
    assert HasFuture(cfg, [bar, next], bar.timestamp) by {
      assert Eligible(cfg.model, bar.timestamp, [bar, next][1].timestamp);
    }
  }

  predicate WaitsOnceMoreIsKnown(cfg: EngineConfig, strategy: Strategy) {
    var short := RunFrom(cfg, [FlatBar(0)], [FlatBar(0)], strategy, 0, Initial(cfg));
    var long := RunFrom(cfg, [FlatBar(0)], [FlatBar(0), FlatBar(5)], strategy, 0, Initial(cfg));
    short.Ok? && long.Ok? && short.value.active.None? && long.value.active.Some?
  }

  predicate FailsOnceMoreIsKnown(cfg: EngineConfig, strategy: Strategy) {
    && RunFrom(cfg, [FlatBar(0)], [FlatBar(0)], strategy, 0, Initial(cfg)).Ok?
    && RunFrom(cfg, [FlatBar(0)], [FlatBar(0), FlatBar(5)], strategy, 0, Initial(cfg)) == Err(WrongExitSide)
  }

  /** A plain configuration, a strategy that always buys, and a tape on which one more bar changes the state. */
  lemma StateDependsOnTheFuture()
    ensures exists cfg: EngineConfig, strategy: Strategy :: WaitsOnceMoreIsKnown(cfg, strategy)
    ensures exists cfg: EngineConfig, strategy: Strategy :: FailsOnceMoreIsKnown(cfg, strategy)
  {
    hide RunFrom;
    var cfg := EngineConfig(
      M5CompletedV2, Config(Conservative, Economics(1.0, 1.0, 0.0, 0.0, 0.0, 0.0), false, true),
      100.0, None, true, true, 0, None, None, None);
    var good := TradePlan(Buy, true, 2.0, 1.0, 3.0, 1.0);
    var bad := good.(stop := 4.0);
    var buys: Strategy := (i, account) => Processed(Some(good));
    var errs: Strategy := (i, account) => Processed(Some(bad));
    CutHistoryDropsThePlan(cfg, FlatBar(0), FlatBar(5), buys);
    CutHistoryDropsThePlan(cfg, FlatBar(0), FlatBar(5), errs);
    assert Begin(good, FlatBar(0)).Ok? && Begin(bad, FlatBar(0)) == Err(WrongExitSide);
    assert WaitsOnceMoreIsKnown(cfg, buys) && FailsOnceMoreIsKnown(cfg, errs);
  }

  // ----- runs on two tapes with the same past -----

  /** A plan that waits for a bar which `other` does not have; it can neither be filled nor replaced in time. */
  predicate Stranded(cfg: EngineConfig, other: seq<Bar>, now: int, es: EngineState) {
    && es.active.Some? && es.active.value.Pending? && es.active.value.observation.timestamp <= now
    && !HasFuture(cfg, other, es.active.value.observation.timestamp)
    && !MaximumReached(cfg, es)
  }

  /** The states differ in nothing but a stranded plan on one side. */
  predicate Alike(cfg: EngineConfig, one: seq<Bar>, two: seq<Bar>, now: int, a: EngineState, b: EngineState) {
    && a.(active := None) == b.(active := None)
    && (|| a.active == b.active
        || (b.active.None? && Stranded(cfg, two, now, a))
        || (a.active.None? && Stranded(cfg, one, now, b)))
  }

  predicate AlikeResults(
    cfg: EngineConfig, one: seq<Bar>, two: seq<Bar>, now: int, a: Result<EngineState, Error>, b: Result<EngineState, Error>)
  {
    if a.Ok? then b.Ok? && Alike(cfg, one, two, now, a.value, b.value) else a == b
  }

  /** A bar both tapes hold leaves a stranded plan waiting. */
  lemma AdvanceAlike(cfg: EngineConfig, one: seq<Bar>, two: seq<Bar>, now: int, a: EngineState, b: EngineState, j: nat)
    requires Alike(cfg, one, two, now, a, b) && j < |one| && j < |two| && one[j] == two[j]
    ensures AlikeResults(cfg, one, two, now, AdvanceTrade(cfg, a, one[j]), AdvanceTrade(cfg, b, two[j]))
  {
    hide HasFuture, ProcessBar, Eligible;
    if a.active != b.active {
      if b.active.None? {
        NotEligible(cfg, two, a.active.value.observation.timestamp, j);
      } else {
        NotEligible(cfg, one, b.active.value.observation.timestamp, j);
      }
    } else {
      assert a == b;
    }
  }

  lemma {:induction false} ConsumeAlike(
    cfg: EngineConfig, one: seq<Bar>, two: seq<Bar>, boundary: int, last: int, now: int, a: EngineState, b: EngineState)
    requires boundary <= last && SamePast(cfg, one, two, last) && Alike(cfg, one, two, now, a, b)
    ensures AlikeResults(cfg, one, two, now, Consume(cfg, one, boundary, a), Consume(cfg, two, boundary, b))
    decreases |one| - a.simIndex
  {
    hide AdvanceTrade, HasFuture, Stranded;
    var n := a.simIndex;
    if n < |one| && ClosedBy(cfg, one[n], boundary) {
      assert ClosedBy(cfg, one[n], last);
      AdvanceAlike(cfg, one, two, now, a, b, n);
      var x, y := AdvanceTrade(cfg, a, one[n]), AdvanceTrade(cfg, b, two[n]);
      if x.Ok? {
        CountingAlike(cfg, one, two, now, x.value, y.value, n + 1);
        ConsumeAlike(cfg, one, two, boundary, last, now, x.value.(simIndex := n + 1), y.value.(simIndex := n + 1));
      }
    } else {
      assert n < |two| && ClosedBy(cfg, two[n], boundary) ==> ClosedBy(cfg, two[n], last);
    }
  }

  lemma CountingAlike(cfg: EngineConfig, one: seq<Bar>, two: seq<Bar>, now: int, a: EngineState, b: EngineState, n: nat)
    requires Alike(cfg, one, two, now, a, b)
    ensures Alike(cfg, one, two, now, a.(simIndex := n), b.(simIndex := n))
    ensures Alike(cfg, one, two, now, a.(processed := a.processed + 1), b.(processed := b.processed + 1))
  {
    hide HasFuture;
  }

  /** The strategy approved a plan that the simulator refuses, where only one tape still has a bar to fill it. */
  predicate BadPlan(cfg: EngineConfig, one: seq<Bar>, two: seq<Bar>, bar: Bar, seen: Observation) {
    && HasFuture(cfg, one, bar.timestamp) != HasFuture(cfg, two, bar.timestamp)
    && seen.Processed? && seen.plan.Some? && seen.plan.value.approved && Begin(seen.plan.value, bar).Err?
  }

  lemma DecideAlike(
    cfg: EngineConfig, one: seq<Bar>, two: seq<Bar>, before: int, a: EngineState, b: EngineState, bar: Bar, seen: Observation)
    requires Alike(cfg, one, two, before, a, b) && before <= bar.timestamp
    requires !(MaximumReached(cfg, a) && a.active.None?) && !(MaximumReached(cfg, b) && b.active.None?)
    ensures AlikeResults(cfg, one, two, bar.timestamp, Decide(cfg, one, a, bar, seen), Decide(cfg, two, b, bar, seen))
            || (BadPlan(cfg, one, two, bar, seen) && (Decide(cfg, one, a, bar, seen).Err? || Decide(cfg, two, b, bar, seen).Err?))
  {
    hide HasFuture, Begin;
    if a.active != b.active {
      if b.active.None? {
        NoLaterFuture(cfg, two, a.active.value.observation.timestamp, bar.timestamp);
      } else {
        NoLaterFuture(cfg, one, b.active.value.observation.timestamp, bar.timestamp);
      }
    } else {
      assert a == b;
      BegunPlanWaits(seen, bar);
    }
  }

  lemma BegunPlanWaits(seen: Observation, bar: Bar)
    ensures seen.Processed? && seen.plan.Some? && Begin(seen.plan.value, bar).Ok? ==>
              Begin(seen.plan.value, bar).value == Pending(seen.plan.value, bar)
  {
  }

  ghost predicate BadPlanAt(
    cfg: EngineConfig, decisions: seq<Bar>, one: seq<Bar>, two: seq<Bar>, strategy: Strategy, k: nat, account: Account)
  {
    k < |decisions| && BadPlan(cfg, one, two, decisions[k], strategy(k, account))
  }

  /** The time of the last decision before `index`; before the first one there is no plan. */
  function LastDecision(decisions: seq<Bar>, index: nat): int
    requires index <= |decisions|
  {
    if decisions == [] then 0 else if index == 0 then decisions[0].timestamp else decisions[index - 1].timestamp
  }

  lemma {:induction false} RunsAlike(
    cfg: EngineConfig, decisions: seq<Bar>, one: seq<Bar>, two: seq<Bar>, s1: Strategy, s2: Strategy,
    index: nat, a: EngineState, b: EngineState)
    requires Chronological(decisions) && index <= |decisions| && SameAnswers(s1, s2, |decisions|)
    requires decisions != [] ==> SamePast(cfg, one, two, Boundary(decisions[|decisions| - 1]))
    requires Alike(cfg, one, two, LastDecision(decisions, index), a, b)
    ensures var x := RunFrom(cfg, decisions, one, s1, index, a);
      var y := RunFrom(cfg, decisions, two, s2, index, b);
      || AlikeResults(cfg, one, two, LastDecision(decisions, |decisions|), x, y)
      || ((x.Err? || y.Err?) && exists k: nat, account: Account :: BadPlanAt(cfg, decisions, one, two, s1, k, account))
    decreases |decisions| - index
  {
    hide Consume, Decide, SamePast, HasFuture, Stranded, BadPlan;
    if index < |decisions| {
      var bar := decisions[index];
      var before := LastDecision(decisions, index);
      assert before <= bar.timestamp <= decisions[|decisions| - 1].timestamp;
      ConsumeAlike(cfg, one, two, Boundary(bar), Boundary(decisions[|decisions| - 1]), before, a, b);
      var x, y := Consume(cfg, one, Boundary(bar), a), Consume(cfg, two, Boundary(bar), b);
      if x.Ok? {
        CountingAlike(cfg, one, two, before, x.value, y.value, 0);
        var c, d := x.value.(processed := x.value.processed + 1), y.value.(processed := y.value.processed + 1);
        StoppingAlike(cfg, one, two, before, LastDecision(decisions, |decisions|), c, d);
        if !(MaximumReached(cfg, c) && c.active.None?) {
          assert s1(index, AccountOf(c)) == s2(index, AccountOf(d));
          DecideAlike(cfg, one, two, before, c, d, bar, s1(index, AccountOf(c)));
          var u := Decide(cfg, one, c, bar, s1(index, AccountOf(c)));
          var v := Decide(cfg, two, d, bar, s1(index, AccountOf(c)));
          if u.Ok? && v.Ok? {
            RunsAlike(cfg, decisions, one, two, s1, s2, index + 1, u.value, v.value);
          } else {
            assert BadPlan(cfg, one, two, bar, s1(index, AccountOf(c))) ==>
                BadPlanAt(cfg, decisions, one, two, s1, index, AccountOf(c));
          }
        }
      }
    }
  }

  lemma StoppingAlike(
    cfg: EngineConfig, one: seq<Bar>, two: seq<Bar>, now: int, later: int, a: EngineState, b: EngineState)
    requires Alike(cfg, one, two, now, a, b) && now <= later
    ensures AccountOf(a) == AccountOf(b)
    ensures MaximumReached(cfg, a) && a.active.None? <==> MaximumReached(cfg, b) && b.active.None?
    ensures Alike(cfg, one, two, later, a, b) && Finish(cfg, a) == Finish(cfg, b)
  {
    hide HasFuture, Settle, Finalize;
    assert a.active == b.active ==> a == b;
  }

  /** What a backtest reports: a stranded plan is dropped and an open trade closed, or the run has failed. */
  function Outcome(cfg: EngineConfig, r: Result<EngineState, Error>): Result<EngineState, Error> {
    if r.Ok? then Ok(Finish(cfg, r.value)) else r
  }

  /** Both runs arrive at decision `k` in the same state and the strategy approves a plan that the simulator refuses,
      where only one tape still has a bar to fill it. */
  predicate LeaksAt(
    cfg: EngineConfig, decisions: seq<Bar>, one: seq<Bar>, two: seq<Bar>, s1: Strategy, s2: Strategy,
    index: nat, es: EngineState, k: nat)
  {
    && index <= k < |decisions|
    && var c := ArrivesAt(cfg, decisions, one, s1, index, es, k);
    && c.Some? && c == ArrivesAt(cfg, decisions, two, s2, index, es, k)
    && HasFuture(cfg, one, decisions[k].timestamp) != HasFuture(cfg, two, decisions[k].timestamp)
    && var seen := s1(k, AccountOf(c.value));
    && WouldBegin(cfg, c.value, decisions[k], seen) && Begin(seen.plan.value, decisions[k]).Err?
  }

  ghost predicate Leaks(
    cfg: EngineConfig, decisions: seq<Bar>, one: seq<Bar>, two: seq<Bar>, s1: Strategy, s2: Strategy, index: nat, es: EngineState)
  {
    exists k: nat :: LeaksAt(cfg, decisions, one, two, s1, s2, index, es, k)
  }

  lemma StrandedPlanWaits(cfg: EngineConfig, mine: seq<Bar>, other: seq<Bar>, boundary: int, now: int, es: EngineState)
    requires SamePast(cfg, mine, other, boundary) && Stranded(cfg, other, now, es)
    ensures Waits(cfg, mine, boundary, es)
  {
    hide HasFuture, Eligible;
    forall j | 0 <= j < |mine| && ClosedBy(cfg, mine[j], boundary)
      ensures !Eligible(cfg.model, es.active.value.observation.timestamp, mine[j].timestamp)
    {
      NotEligible(cfg, other, es.active.value.observation.timestamp, j);
    }
  }

  /** From their states the two runs come to no decision in the same state. */
  predicate NeverMeet(
    cfg: EngineConfig, decisions: seq<Bar>, mine: seq<Bar>, other: seq<Bar>, s1: Strategy, s2: Strategy,
    index: nat, a: EngineState, b: EngineState)
  {
    forall k :: index <= k < |decisions| ==>
      ArrivesAt(cfg, decisions, mine, s1, index, a, k) != ArrivesAt(cfg, decisions, other, s2, index, b, k)
  }

  /** Once a plan is stranded on one tape the two runs neither fail nor meet again, and report the same. */
  lemma StrandedRunsAgree(
    cfg: EngineConfig, decisions: seq<Bar>, mine: seq<Bar>, other: seq<Bar>, s1: Strategy, s2: Strategy,
    index: nat, a: EngineState, b: EngineState)
    requires Chronological(decisions) && 0 < index <= |decisions| && SameAnswers(s1, s2, |decisions|)
    requires SamePast(cfg, mine, other, Boundary(decisions[|decisions| - 1]))
    requires a.(active := None) == b && Stranded(cfg, other, decisions[index - 1].timestamp, a)
    requires a.active.value.observation.timestamp == decisions[index - 1].timestamp
    ensures var x := RunFrom(cfg, decisions, mine, s1, index, a);
      var y := RunFrom(cfg, decisions, other, s2, index, b);
      x.Ok? && y.Ok? && Finish(cfg, x.value) == Finish(cfg, y.value)
    ensures NeverMeet(cfg, decisions, mine, other, s1, s2, index, a, b)
  {
    hide RunFrom, ArrivesAt, HasFuture, SamePast, Finish, BadPlanAt, NothingInTime;
    var last := decisions[|decisions| - 1];
    StrandedPlanWaits(cfg, mine, other, Boundary(last), decisions[index - 1].timestamp, a);
    WaitingRunStandsStill(cfg, decisions, mine, s1, index, a);
    BarrenRunStandsStill(cfg, decisions, other, s2, index, b, decisions[index - 1].timestamp);
    RunsAlike(cfg, decisions, mine, other, s1, s2, index, a, b);
    var x, y := RunFrom(cfg, decisions, mine, s1, index, a), RunFrom(cfg, decisions, other, s2, index, b);
    StoppingAlike(cfg, mine, other, last.timestamp, last.timestamp, x.value, y.value);
  }

  lemma PastIsMutual(cfg: EngineConfig, one: seq<Bar>, two: seq<Bar>, boundary: int)
    requires SamePast(cfg, one, two, boundary)
    ensures SamePast(cfg, two, one, boundary)
  {
  }

  /** What the runs report when they part at a decision. */
  lemma PartingRuns(
    cfg: EngineConfig, decisions: seq<Bar>, mine: seq<Bar>, other: seq<Bar>, s1: Strategy, s2: Strategy,
    index: nat, c: EngineState, seen: Observation)
    requires Chronological(decisions) && index < |decisions| && SameAnswers(s1, s2, |decisions|)
    requires SamePast(cfg, mine, other, Boundary(decisions[|decisions| - 1]))
    requires HasFuture(cfg, mine, decisions[index].timestamp) && !HasFuture(cfg, other, decisions[index].timestamp)
    requires WouldBegin(cfg, c, decisions[index], seen) && !(MaximumReached(cfg, c) && c.active.None?)
    ensures var u := Decide(cfg, mine, c, decisions[index], seen);
      var v := Decide(cfg, other, c, decisions[index], seen);
      && v.Ok? && RunFrom(cfg, decisions, other, s2, index + 1, v.value).Ok?
      && (u.Err? <==> Begin(seen.plan.value, decisions[index]).Err?)
      && (u.Ok? ==>
            var x := RunFrom(cfg, decisions, mine, s1, index + 1, u.value);
            && x.Ok? && Finish(cfg, x.value) == Finish(cfg, RunFrom(cfg, decisions, other, s2, index + 1, v.value).value)
            && NeverMeet(cfg, decisions, mine, other, s1, s2, index + 1, u.value, v.value))
  {
    hide HasFuture, RunFrom, ArrivesAt, SamePast, Finish, Begin, Warm;
    var bar := decisions[index];
    var v := Decide(cfg, other, c, bar, seen).value;
    BarrenRunStandsStill(cfg, decisions, other, s2, index + 1, v, bar.timestamp);
    var u := Decide(cfg, mine, c, bar, seen);
    if u.Ok? {
      BegunPlanWaits(seen, bar);
      StrandedRunsAgree(cfg, decisions, mine, other, s1, s2, index + 1, u.value, v);
    }
  }

  /** The run has fed the bars up to decision `index` and goes on to decide in state `c`. */
  predicate ComesTo(
    cfg: EngineConfig, decisions: seq<Bar>, bars: seq<Bar>, index: nat, es: EngineState, c: EngineState)
  {
    && index < |decisions| && !(MaximumReached(cfg, c) && c.active.None?)
    && var consumed := Consume(cfg, bars, Boundary(decisions[index]), es);
    && consumed.Ok? && c == consumed.value.(processed := consumed.value.processed + 1)
  }

  lemma RunByStep(
    cfg: EngineConfig, decisions: seq<Bar>, bars: seq<Bar>, strategy: Strategy, index: nat, es: EngineState, c: EngineState)
    requires ComesTo(cfg, decisions, bars, index, es, c)
    ensures var u := Decide(cfg, bars, c, decisions[index], strategy(index, AccountOf(c)));
      && RunFrom(cfg, decisions, bars, strategy, index, es)
         == (if u.Ok? then RunFrom(cfg, decisions, bars, strategy, index + 1, u.value) else u)
      && forall k :: index <= k < |decisions| ==>
           ArrivesAt(cfg, decisions, bars, strategy, index, es, k)
           == if k == index then Some(c)
              else if u.Ok? then ArrivesAt(cfg, decisions, bars, strategy, index + 1, u.value, k) else None
  {
    hide Consume, Decide;
  }

  lemma NoArrival(
    cfg: EngineConfig, decisions: seq<Bar>, bars: seq<Bar>, strategy: Strategy, index: nat, es: EngineState, c: EngineState)
    requires index < |decisions|
    requires var consumed := Consume(cfg, bars, Boundary(decisions[index]), es);
      consumed.Ok? ==>
        c == consumed.value.(processed := consumed.value.processed + 1) && MaximumReached(cfg, c) && c.active.None?
    ensures forall k :: index <= k < |decisions| ==> ArrivesAt(cfg, decisions, bars, strategy, index, es, k).None?
    ensures var consumed := Consume(cfg, bars, Boundary(decisions[index]), es);
      RunFrom(cfg, decisions, bars, strategy, index, es) == if consumed.Ok? then Ok(c) else consumed
  {
    hide Consume, Decide;
  }

  /** Runs that take the same decision leak exactly if they do so later. */
  lemma CommonDecision(
    cfg: EngineConfig, decisions: seq<Bar>, one: seq<Bar>, two: seq<Bar>, s1: Strategy, s2: Strategy,
    index: nat, es: EngineState, c: EngineState)
    requires ComesTo(cfg, decisions, one, index, es, c) && ComesTo(cfg, decisions, two, index, es, c)
    requires s1(index, AccountOf(c)) == s2(index, AccountOf(c))
    requires var seen := s1(index, AccountOf(c));
      Decide(cfg, one, c, decisions[index], seen) == Decide(cfg, two, c, decisions[index], seen)
    ensures var u := Decide(cfg, one, c, decisions[index], s1(index, AccountOf(c)));
      && (u.Err? ==> !Leaks(cfg, decisions, one, two, s1, s2, index, es))
      && (u.Ok? ==> (Leaks(cfg, decisions, one, two, s1, s2, index, es) <==>
                       Leaks(cfg, decisions, one, two, s1, s2, index + 1, u.value)))
  {
    var seen := s1(index, AccountOf(c));
    RunByStep(cfg, decisions, one, s1, index, es, c);
    RunByStep(cfg, decisions, two, s2, index, es, c);
    DecisionsAskOnlyForABar(cfg, one, two, c, decisions[index], seen);
    hide ComesTo, ArrivesAt, RunFrom, HasFuture, WouldBegin, Decide, Begin;
    assert !LeaksAt(cfg, decisions, one, two, s1, s2, index, es, index);
    var u := Decide(cfg, one, c, decisions[index], seen);
    if u.Ok? {
      if Leaks(cfg, decisions, one, two, s1, s2, index, es) {
        var k: nat :| LeaksAt(cfg, decisions, one, two, s1, s2, index, es, k);
        assert LeaksAt(cfg, decisions, one, two, s1, s2, index + 1, u.value, k);
      }
      if Leaks(cfg, decisions, one, two, s1, s2, index + 1, u.value) {
        var k: nat :| LeaksAt(cfg, decisions, one, two, s1, s2, index + 1, u.value, k);
        assert LeaksAt(cfg, decisions, one, two, s1, s2, index, es, k);
      }
    }
  }

  /** Runs that part at a decision leak exactly if the plan is refused. */
  lemma PartingDecision(
    cfg: EngineConfig, decisions: seq<Bar>, one: seq<Bar>, two: seq<Bar>, s1: Strategy, s2: Strategy,
    index: nat, es: EngineState, c: EngineState)
    requires ComesTo(cfg, decisions, one, index, es, c) && ComesTo(cfg, decisions, two, index, es, c)
    requires Chronological(decisions) && SameAnswers(s1, s2, |decisions|) && s1(index, AccountOf(c)) == s2(index, AccountOf(c))
    requires SamePast(cfg, one, two, Boundary(decisions[|decisions| - 1]))
    requires HasFuture(cfg, one, decisions[index].timestamp) != HasFuture(cfg, two, decisions[index].timestamp)
    requires WouldBegin(cfg, c, decisions[index], s1(index, AccountOf(c)))
    ensures var a := RunFrom(cfg, decisions, one, s1, index, es);
      var b := RunFrom(cfg, decisions, two, s2, index, es);
      && (Outcome(cfg, a) == Outcome(cfg, b) <==> !Leaks(cfg, decisions, one, two, s1, s2, index, es))
      && (Leaks(cfg, decisions, one, two, s1, s2, index, es) ==> a.Err? != b.Err?)
  {
    var seen, bar := s1(index, AccountOf(c)), decisions[index];
    RunByStep(cfg, decisions, one, s1, index, es, c);
    RunByStep(cfg, decisions, two, s2, index, es, c);
    hide RunFrom, ArrivesAt, HasFuture, SamePast, Finish, Begin, Decide, Consume, WouldBegin;
    if HasFuture(cfg, one, bar.timestamp) {
      PartingRuns(cfg, decisions, one, two, s1, s2, index, c, seen);
    } else {
      PastIsMutual(cfg, one, two, Boundary(decisions[|decisions| - 1]));
      PartingRuns(cfg, decisions, two, one, s2, s1, index, c, seen);
    }
    if Begin(seen.plan.value, bar).Err? {
      assert LeaksAt(cfg, decisions, one, two, s1, s2, index, es, index);
    } else {
      forall k: nat
        ensures !LeaksAt(cfg, decisions, one, two, s1, s2, index, es, k)
      {
      }
    }
  }

  /** No look-ahead, exactly. Two tapes agree on everything closed by the last decision, and two strategies answer
      alike up to then. The backtests report the same, whatever bars follow or do not follow on either tape, unless
      they arrive together at a plan that the simulator refuses while only one tape has a bar to fill it; then, and
      only then, they do not, and just one of them fails. */
  lemma {:induction false} NoLookahead(
    cfg: EngineConfig, decisions: seq<Bar>, one: seq<Bar>, two: seq<Bar>, s1: Strategy, s2: Strategy,
    index: nat, es: EngineState)
    requires Chronological(decisions) && index <= |decisions| && SameAnswers(s1, s2, |decisions|)
    requires decisions != [] ==> SamePast(cfg, one, two, Boundary(decisions[|decisions| - 1]))
    ensures var a := RunFrom(cfg, decisions, one, s1, index, es);
      var b := RunFrom(cfg, decisions, two, s2, index, es);
      && (Outcome(cfg, a) == Outcome(cfg, b) <==> !Leaks(cfg, decisions, one, two, s1, s2, index, es))
      && (Leaks(cfg, decisions, one, two, s1, s2, index, es) ==> a.Err? != b.Err?)
    decreases |decisions| - index
  {
    hide Consume, Decide, SamePast, HasFuture, Finish, Begin, WouldBegin, SameAnswers, ArrivesAt;
    if index == |decisions| {
      assert forall k: nat :: !LeaksAt(cfg, decisions, one, two, s1, s2, index, es, k);
    } else {
      var bar, last := decisions[index], Boundary(decisions[|decisions| - 1]);
      ConsumeLooksBack(cfg, one, two, Boundary(bar), last, es);
      var consumed := Consume(cfg, one, Boundary(bar), es);
      var c := if consumed.Ok? then consumed.value.(processed := consumed.value.processed + 1) else es;
      if consumed.Err? || (MaximumReached(cfg, c) && c.active.None?) {
        NoArrival(cfg, decisions, one, s1, index, es, c);
        NoArrival(cfg, decisions, two, s2, index, es, c);
        hide RunFrom;
        assert forall k: nat :: !LeaksAt(cfg, decisions, one, two, s1, s2, index, es, k);
      } else {
        SameAnswer(s1, s2, |decisions|, index, AccountOf(c));
        var seen := s1(index, AccountOf(c));
        var u := Decide(cfg, one, c, bar, seen);
        RunByStep(cfg, decisions, one, s1, index, es, c);
        RunByStep(cfg, decisions, two, s2, index, es, c);
        hide RunFrom, Leaks, Outcome;
        if u == Decide(cfg, two, c, bar, seen) {
          CommonDecision(cfg, decisions, one, two, s1, s2, index, es, c);
          if u.Ok? {
            NoLookahead(cfg, decisions, one, two, s1, s2, index + 1, u.value);
          }
        } else {
          DecisionsAskOnlyForABar(cfg, one, two, c, bar, seen);
          PartingDecision(cfg, decisions, one, two, s1, s2, index, es, c);
        }
      }
    }
  }

  lemma SameAnswer(s1: Strategy, s2: Strategy, decisions: nat, index: nat, account: Account)
    requires SameAnswers(s1, s2, decisions) && index < decisions
    ensures s1(index, account) == s2(index, account)
  {
  }

  /** In particular when the strategy approves no plan, in any state of the account, that the simulator refuses. */
  lemma NoLookaheadWithGoodPlans(
    cfg: EngineConfig, decisions: seq<Bar>, one: seq<Bar>, two: seq<Bar>, s1: Strategy, s2: Strategy,
    index: nat, es: EngineState)
    requires Chronological(decisions) && index <= |decisions| && SameAnswers(s1, s2, |decisions|)
    requires decisions != [] ==> SamePast(cfg, one, two, Boundary(decisions[|decisions| - 1]))
    requires forall k: nat, account: Account :: !BadPlanAt(cfg, decisions, one, two, s1, k, account)
    ensures Outcome(cfg, RunFrom(cfg, decisions, one, s1, index, es)) == Outcome(cfg, RunFrom(cfg, decisions, two, s2, index, es))
  {
    hide RunFrom, SamePast, HasFuture, Outcome, Begin, ArrivesAt, Warm;
    NoLookahead(cfg, decisions, one, two, s1, s2, index, es);
    forall k: nat
      ensures !LeaksAt(cfg, decisions, one, two, s1, s2, index, es, k)
    {
      if index <= k < |decisions| && ArrivesAt(cfg, decisions, one, s1, index, es, k).Some? {
        assert !BadPlanAt(cfg, decisions, one, two, s1, k, AccountOf(ArrivesAt(cfg, decisions, one, s1, index, es, k).value));
      }
    }
  }

  /** At each decision either both tapes have a bar left that could fill a plan, or neither. */
  predicate SameFutureExists(cfg: EngineConfig, one: seq<Bar>, two: seq<Bar>, decisions: seq<Bar>) {
    forall d <- decisions :: HasFuture(cfg, one, d.timestamp) == HasFuture(cfg, two, d.timestamp)
  }

  /** When the tapes also answer that one question alike at each decision, even the states are the same, pending
      plan included. */
  lemma {:induction false} SameFutureSameState(
    cfg: EngineConfig, decisions: seq<Bar>, one: seq<Bar>, two: seq<Bar>, s1: Strategy, s2: Strategy,
    index: nat, es: EngineState)
    requires Chronological(decisions) && SameAnswers(s1, s2, |decisions|)
    requires decisions != [] ==> SamePast(cfg, one, two, Boundary(decisions[|decisions| - 1]))
    requires SameFutureExists(cfg, one, two, decisions)
    ensures RunFrom(cfg, decisions, one, s1, index, es) == RunFrom(cfg, decisions, two, s2, index, es)
    decreases |decisions| - index
  {
    hide Consume, SamePast, HasFuture;
    if index < |decisions| {
      var boundary := Boundary(decisions[index]);
      ConsumeLooksBack(cfg, one, two, boundary, Boundary(decisions[|decisions| - 1]), es);
      match Consume(cfg, one, boundary, es)
      case Err(e) =>
      case Ok(consumed) =>
        var counted := consumed.(processed := consumed.processed + 1);
        var account := AccountOf(counted);
        assert s1(index, account) == s2(index, account);
        assert decisions[index] in decisions;
        var decided := Decide(cfg, one, counted, decisions[index], s1(index, account));
        assert decided == Decide(cfg, two, counted, decisions[index], s2(index, account));
        if decided.Ok? {
          SameFutureSameState(cfg, decisions, one, two, s1, s2, index + 1, decided.value);
        }
    }
  }

  /** A longer backtest passes through the state of its first decisions, unless it had stopped by then. */
  lemma {:induction false} LongerRunContinues(
    cfg: EngineConfig, front: seq<Bar>, back: seq<Bar>, bars: seq<Bar>, strategy: Strategy, index: nat, es: EngineState)
    requires index <= |front|
    ensures match RunFrom(cfg, front, bars, strategy, index, es)
            case Err(e) => RunFrom(cfg, front + back, bars, strategy, index, es) == Err(e)
            case Ok(mid) =>
              || RunFrom(cfg, front + back, bars, strategy, index, es) == RunFrom(cfg, front + back, bars, strategy, |front|, mid)
              || (RunFrom(cfg, front + back, bars, strategy, index, es) == Ok(mid) && MaximumReached(cfg, mid) && mid.active.None?)
    decreases |front| - index
  {
    hide Consume, Decide;
    if index < |front| {
      assert (front + back)[index] == front[index];
      match Consume(cfg, bars, Boundary(front[index]), es)
      case Err(e) =>
      case Ok(consumed) =>
        var counted := consumed.(processed := consumed.processed + 1);
        if !(MaximumReached(cfg, counted) && counted.active.None?) {
          var decided := Decide(cfg, bars, counted, front[index], strategy(index, AccountOf(counted)));
          if decided.Ok? {
            LongerRunContinues(cfg, front, back, bars, strategy, index + 1, decided.value);
          }
        }
    }
  }
}

/** What becomes of the plan of one decision: begun or not, filled, or dropped at the end of the run. */
module BacktestPlans {
  import opened Wrappers
  import opened Market
  import opened TradeLifecycle
  import opened TradeSafety
  import opened BacktestRun
  import opened BacktestSafety

  predicate ClosedBy(cfg: EngineConfig, bar: Bar, boundary: int) {
    bar.timestamp + LifecycleMinutes(cfg.model) <= boundary
  }

  /** The decision starts a simulation if only some bar is left that could fill the plan. */
  predicate WouldBegin(cfg: EngineConfig, es: EngineState, bar: Bar, seen: Observation) {
    && seen.Processed? && es.active.None? && DirectionEnabled(cfg, seen.plan) && seen.plan.value.approved
    && Warm(cfg, es, bar.timestamp)
  }

  lemma NotEligible(cfg: EngineConfig, bars: seq<Bar>, observed: int, j: nat)
    requires !HasFuture(cfg, bars, observed) && j < |bars|
    ensures !Eligible(cfg.model, observed, bars[j].timestamp)
  {
  }

  /** A tape without a bar for one decision has none for a later one. */
  lemma NoLaterFuture(cfg: EngineConfig, bars: seq<Bar>, observed: int, later: int)
    requires !HasFuture(cfg, bars, observed) && observed <= later
    ensures !HasFuture(cfg, bars, later)
  {
    forall j | 0 <= j < |bars|
      ensures !Eligible(cfg.model, later, bars[j].timestamp)
    {
      NotEligible(cfg, bars, observed, j);
    }
  }

  // ----- the state in which a decision finds the run -----

  /** The state in which a run makes decision `k`, after the bars closed by then; none if it has failed or stopped. */
  function ArrivesAt(
    cfg: EngineConfig, decisions: seq<Bar>, bars: seq<Bar>, strategy: Strategy, index: nat, es: EngineState, k: nat)
    : Option<EngineState>
    requires index <= k < |decisions|
    decreases k - index
  {
    match Consume(cfg, bars, Boundary(decisions[index]), es)
    case Err(_) => None
    case Ok(consumed) =>
      var counted := consumed.(processed := consumed.processed + 1);
      if MaximumReached(cfg, counted) && counted.active.None? then None
      else if k == index then Some(counted)
      else
        match Decide(cfg, bars, counted, decisions[index], strategy(index, AccountOf(counted)))
        case Err(_) => None
        case Ok(decided) => ArrivesAt(cfg, decisions, bars, strategy, index + 1, decided, k)
  }

  /** From there the run goes on with the decision. */
  lemma {:induction false} RunGoesOn(
    cfg: EngineConfig, decisions: seq<Bar>, bars: seq<Bar>, strategy: Strategy, index: nat, es: EngineState, k: nat)
    requires index <= k < |decisions| && ArrivesAt(cfg, decisions, bars, strategy, index, es, k).Some?
    ensures var c := ArrivesAt(cfg, decisions, bars, strategy, index, es, k).value;
      var decided := Decide(cfg, bars, c, decisions[k], strategy(k, AccountOf(c)));
      RunFrom(cfg, decisions, bars, strategy, index, es)
      == if decided.Ok? then RunFrom(cfg, decisions, bars, strategy, k + 1, decided.value) else decided
    decreases k - index
  {
    hide Consume, Decide;
    if index < k {
      var counted := Consume(cfg, bars, Boundary(decisions[index]), es).value;
      counted := counted.(processed := counted.processed + 1);
      var decided := Decide(cfg, bars, counted, decisions[index], strategy(index, AccountOf(counted)));
      RunGoesOn(cfg, decisions, bars, strategy, index + 1, decided.value, k);
    }
  }

  // ----- a plan that is never filled -----

  /** No bar that closes by `boundary` may fill a plan observed at `observed`. */
  predicate NothingInTime(cfg: EngineConfig, bars: seq<Bar>, observed: int, boundary: int) {
    forall j :: 0 <= j < |bars| && ClosedBy(cfg, bars[j], boundary) ==> !Eligible(cfg.model, observed, bars[j].timestamp)
  }

  /** `later` is `es` but for its place on the tape and its counters. */
  predicate StandsStill(es: EngineState, later: EngineState) {
    later == es.(simIndex := later.simIndex, snapshots := later.snapshots, processed := later.processed)
  }

  predicate Waits(cfg: EngineConfig, bars: seq<Bar>, boundary: int, es: EngineState) {
    && es.active.Some? && es.active.value.Pending?
    && NothingInTime(cfg, bars, es.active.value.observation.timestamp, boundary)
  }

  /** Without an open trade, and without a bar to fill a plan, feeding bars changes nothing. */
  lemma {:induction false} ConsumeStandsStill(cfg: EngineConfig, bars: seq<Bar>, boundary: int, last: int, es: EngineState)
    requires boundary <= last && (es.active.None? || Waits(cfg, bars, last, es))
    ensures var later := Consume(cfg, bars, boundary, es);
      later.Ok? && StandsStill(es, later.value)
    decreases |bars| - es.simIndex
  {
    hide ProcessBar, Eligible;
    if es.simIndex < |bars| && ClosedBy(cfg, bars[es.simIndex], boundary) {
      assert ClosedBy(cfg, bars[es.simIndex], last);
      assert AdvanceTrade(cfg, es, bars[es.simIndex]) == Ok(es);
      ConsumeStandsStill(cfg, bars, boundary, last, es.(simIndex := es.simIndex + 1));
    }
  }

  /** A plan no bar can fill in time waits to the end of the run; the run does not fail. */
  lemma {:induction false} WaitingRunStandsStill(
    cfg: EngineConfig, decisions: seq<Bar>, bars: seq<Bar>, strategy: Strategy, index: nat, es: EngineState)
    requires Chronological(decisions) && decisions != [] && Waits(cfg, bars, Boundary(decisions[|decisions| - 1]), es)
    ensures var end := RunFrom(cfg, decisions, bars, strategy, index, es);
      end.Ok? && StandsStill(es, end.value)
    ensures forall k :: index <= k < |decisions| ==>
              var c := ArrivesAt(cfg, decisions, bars, strategy, index, es, k);
              c.Some? && StandsStill(es, c.value)
    decreases |decisions| - index
  {
    hide Consume, HasFuture, Begin, NothingInTime, DirectionEnabled, Warm;
    if index < |decisions| {
      var last := Boundary(decisions[|decisions| - 1]);
      assert Boundary(decisions[index]) <= last;
      ConsumeStandsStill(cfg, bars, Boundary(decisions[index]), last, es);
      var counted := Consume(cfg, bars, Boundary(decisions[index]), es).value;
      counted := counted.(processed := counted.processed + 1);
      var decided := Decide(cfg, bars, counted, decisions[index], strategy(index, AccountOf(counted))).value;
      WaitingRunStandsStill(cfg, decisions, bars, strategy, index + 1, decided);
    }
  }

  /** A run without a trade, and without a bar to fill any plan, stays so and does not fail. */
  lemma {:induction false} BarrenRunStandsStill(
    cfg: EngineConfig, decisions: seq<Bar>, bars: seq<Bar>, strategy: Strategy, index: nat, es: EngineState, observed: int)
    requires Chronological(decisions) && es.active.None? && !HasFuture(cfg, bars, observed)
    requires forall k :: index <= k < |decisions| ==> observed <= decisions[k].timestamp
    ensures var end := RunFrom(cfg, decisions, bars, strategy, index, es);
      end.Ok? && StandsStill(es, end.value)
    ensures forall k :: index <= k < |decisions| ==>
              var c := ArrivesAt(cfg, decisions, bars, strategy, index, es, k);
              c.Some? ==> StandsStill(es, c.value)
    decreases |decisions| - index
  {
    hide Consume, HasFuture, Begin, DirectionEnabled, Warm, Chronological;
    if index < |decisions| {
      var boundary := Boundary(decisions[index]);
      ConsumeStandsStill(cfg, bars, boundary, boundary, es);
      var counted := Consume(cfg, bars, boundary, es).value;
      counted := counted.(processed := counted.processed + 1);
      if !(MaximumReached(cfg, counted) && counted.active.None?) {
        NoLaterFuture(cfg, bars, observed, decisions[index].timestamp);
        var decided := Decide(cfg, bars, counted, decisions[index], strategy(index, AccountOf(counted))).value;
        BarrenRunStandsStill(cfg, decisions, bars, strategy, index + 1, decided, observed);
      }
    }
  }

  /** Whatever the strategy does, a plan begun by a run that does not fail is still waiting at its end, and is then
      dropped, exactly when every bar that could fill it closes after the last decision. */
  lemma PlanIsDroppedExactlyWhenTooLate(
    cfg: EngineConfig, decisions: seq<Bar>, bars: seq<Bar>, strategy: Strategy, k: nat)
    requires Chronological(decisions) && Chronological(bars) && k < |decisions|
    requires ArrivesAt(cfg, decisions, bars, strategy, 0, Initial(cfg), k).Some?
    requires var c := ArrivesAt(cfg, decisions, bars, strategy, 0, Initial(cfg), k).value;
      var seen := strategy(k, AccountOf(c));
      WouldBegin(cfg, c, decisions[k], seen) && HasFuture(cfg, bars, decisions[k].timestamp)
    requires RunFrom(cfg, decisions, bars, strategy, 0, Initial(cfg)).Ok?
    ensures var end := RunFrom(cfg, decisions, bars, strategy, 0, Initial(cfg)).value;
      Waiting(end) == 1 && end.active.value.observation == decisions[k] <==>
        NothingInTime(cfg, bars, decisions[k].timestamp, Boundary(decisions[|decisions| - 1]))
  {
    var start := Initial(cfg);
    var end := RunFrom(cfg, decisions, bars, strategy, 0, start).value;
    var c := ArrivesAt(cfg, decisions, bars, strategy, 0, start, k).value;
    hide ArrivesAt;
    RunGoesOn(cfg, decisions, bars, strategy, 0, start, k);
    var last := Boundary(decisions[|decisions| - 1]);
    if Waiting(end) == 1 && end.active.value.observation == decisions[k] {
      DroppedPlansHadNoClosedBar(cfg, decisions, bars, strategy);
    }
    hide RunFrom;
    if NothingInTime(cfg, bars, decisions[k].timestamp, last) {
      var decided := Decide(cfg, bars, c, decisions[k], strategy(k, AccountOf(c))).value;
      hide HasFuture;
      WaitingRunStandsStill(cfg, decisions, bars, strategy, k + 1, decided);
    }
  }

  function FlatBar(t: int): Bar {
    Bar(t, 2.0, 2.0, 2.0, 2.0)
  }

  function BuyPlan(): TradePlan {
    TradePlan(Buy, true, 2.0, 1.0, 3.0, 1.0)
  }

  function PlainConfig(model: ExecutionModel): EngineConfig {
    EngineConfig(
      model, Config(Conservative, Economics(1.0, 1.0, 0.0, 0.0, 0.0, 0.0), false, true),
      100.0, None, true, true, 0, None, None, None)
  }

  /** Under the M15 model there may be a later bar that has not closed by the last decision: a decision at minute 10,
      a lifecycle bar opening at 15, and a plan that is begun and dropped. */
  lemma M15PlanMayBeDropped()
    ensures var cfg := PlainConfig(M15CompletedV1);
      var buys: Strategy := (i, account) => Processed(Some(BuyPlan()));
      var end := RunFrom(cfg, [FlatBar(10)], [FlatBar(15)], buys, 0, Initial(cfg));
      && end.Ok? && end.value.active == Some(Pending(BuyPlan(), FlatBar(10)))
      && Eligible(cfg.model, 10, 15) && Finish(cfg, end.value).trades == []
  {
    var cfg := PlainConfig(M15CompletedV1);
    var buys: Strategy := (i, account) => Processed(Some(BuyPlan()));
    assert Begin(BuyPlan(), FlatBar(10)) == Ok(Pending(BuyPlan(), FlatBar(10)));
    assert HasFuture(cfg, [FlatBar(15)], 10) by {
      assert Eligible(cfg.model, 10, [FlatBar(15)][0].timestamp);
    }
    hide HasFuture, Begin;
    assert Consume(cfg, [FlatBar(15)], 15, Initial(cfg)) == Ok(Initial(cfg));
  }
}

/** Every trade of a backtest is the trade the batch simulator finds on the same stretch of the tape. */
module BacktestBatch {
  import opened Wrappers
  import opened Market
  import opened TradeLifecycle
  import opened TradeSafety
  import opened TradeRuns
  import opened BacktestRun
  import opened BacktestSafety
  import opened BacktestPlans

  // ----- a simulation fed bar by bar -----

  /** The time of the last bar of a list that follows an observation. */
  function LastTime(observation: Bar, fed: seq<Bar>): int {
    if fed == [] then observation.timestamp else fed[|fed| - 1].timestamp
  }

  /** `sim` is what the plan has become on the bars `fed`, all of which the batch interface would accept. */
  predicate Fed(cfg: Config, plan: TradePlan, observation: Bar, fed: seq<Bar>, sim: Simulation) {
    && PlanError(plan).None? && ValidBar(observation) && BarsError(observation.timestamp, fed).None?
    && Run(cfg, Pending(plan, observation), fed) == Ok(sim)
    && (sim.Pending? <==> fed == []) && (!sim.Closed? ==> LastSeen(sim) == LastTime(observation, fed))
  }

  lemma {:induction false} CheckedBarsJoin(previous: int, front: seq<Bar>, bar: Bar)
    requires BarsError(previous, front).None? && ValidBar(bar)
    requires bar.timestamp > if front == [] then previous else front[|front| - 1].timestamp
    ensures BarsError(previous, front + [bar]).None?
    decreases |front|
  {
    if front == [] {
      assert front + [bar] == [bar] && [bar][1..] == [];
    } else {
      assert (front + [bar])[1..] == front[1..] + [bar];
      CheckedBarsJoin(front[0].timestamp, front[1..], bar);
    }
  }

  lemma StepIsOpenOrClosed(cfg: Config, sim: Simulation, bar: Bar)
    requires ProcessBar(cfg, sim, bar).Ok?
    ensures var next := ProcessBar(cfg, sim, bar).value;
      !next.Pending? && next.last == bar && ValidBar(bar) && bar.timestamp > LastSeen(sim) && !sim.Closed?
  {
    hide Complete, ResolveBarExit, UpdateExcursions, ArmBreakeven, ActivateBreakeven, ValidBar, OpenState;
  }

  lemma FeedOne(cfg: Config, plan: TradePlan, observation: Bar, fed: seq<Bar>, sim: Simulation, bar: Bar)
    requires Fed(cfg, plan, observation, fed, sim) && ProcessBar(cfg, sim, bar).Ok?
    ensures Fed(cfg, plan, observation, fed + [bar], ProcessBar(cfg, sim, bar).value)
  {
    hide ValidBar, PlanError, ProcessBar;
    StepIsOpenOrClosed(cfg, sim, bar);
    CheckedBarsJoin(observation.timestamp, fed, bar);
    RunSplits(cfg, Pending(plan, observation), fed, [bar]);
    var next := ProcessBar(cfg, sim, bar).value;
    assert [bar][1..] == [];
    assert Run(cfg, sim, [bar]) == Run(cfg, next, []) == Ok(next);
  }

  /** What the batch interface returns for the bars a simulation has been fed. */
  lemma BatchOfFed(cfg: Config, plan: TradePlan, observation: Bar, fed: seq<Bar>, sim: Simulation)
    requires Fed(cfg, plan, observation, fed, sim) && fed != []
    ensures Simulate(cfg, plan, observation, fed) == Finalize(cfg, sim)
  {
    hide ValidBar, PlanError, Run, Finalize, BarsError;
  }

  // ----- the invariant -----

  /** Where the plans of a backtest come from. */
  datatype Source = Source(decisions: seq<Bar>, strategy: Strategy)

  /** The strategy answered the plan on that decision bar, in some state of the account. */
  ghost predicate Answered(src: Source, plan: TradePlan, observation: Bar) {
    exists k: nat, account: Account ::
      k < |src.decisions| && src.decisions[k] == observation && src.strategy(k, account) == Processed(Some(plan))
  }

  /** The batch simulator, given the plan, its observation and the bars from the first eligible one to the last bar
      of the trade, returns the trade. */
  ghost predicate IsBatch(
    cfg: EngineConfig, src: Source, bars: seq<Bar>, consumed: nat, t: Trade, plan: TradePlan, observation: Bar, i: nat, j: nat)
  {
    && Answered(src, plan, observation)
    && i < j <= consumed <= |bars| && FirstEligible(cfg, bars, observation.timestamp, i)
    && observation.timestamp == t.observedAt && bars[i].timestamp == t.entryTime && bars[j - 1].timestamp == t.exitTime
    && var batch := Simulate(cfg.simulation, plan, observation, bars[i..j]);
    && batch.Ok? && batch.value.Closed? && batch.value.trade == t
  }

  ghost predicate IsBatchTrade(cfg: EngineConfig, src: Source, bars: seq<Bar>, consumed: nat, t: Trade) {
    exists plan: TradePlan, observation: Bar, i: nat, j: nat :: IsBatch(cfg, src, bars, consumed, t, plan, observation, i, j)
  }

  ghost predicate ActiveIsFed(cfg: EngineConfig, src: Source, bars: seq<Bar>, n: nat, sim: Simulation) {
    && Answered(src, sim.plan, sim.observation)
    && match sim
    case Pending(plan, observation) =>
      && Fed(cfg.simulation, plan, observation, [], sim)
      && forall j :: 0 <= j < n <= |bars| ==> !Eligible(cfg.model, observation.timestamp, bars[j].timestamp)
    case Open(plan, observation, _, _, _) => exists i: nat :: OpenIsFed(cfg, src, bars, n, sim, i)
    case Closed(_, _, _, _, _, _) => false
  }

  ghost predicate OpenIsFed(cfg: EngineConfig, src: Source, bars: seq<Bar>, n: nat, sim: Simulation, i: nat) {
    && sim.Open? && i < n <= |bars| && FirstEligible(cfg, bars, sim.observation.timestamp, i)
    && bars[i] == sim.fill && Fed(cfg.simulation, sim.plan, sim.observation, bars[i..n], sim)
  }

  ghost predicate AllBatch(cfg: EngineConfig, src: Source, bars: seq<Bar>, es: EngineState) {
    && es.simIndex <= |bars|
    && (forall t <- es.trades :: IsBatchTrade(cfg, src, bars, es.simIndex, t))
    && (es.active.Some? ==> ActiveIsFed(cfg, src, bars, es.simIndex, es.active.value))
  }

  // ----- one lifecycle bar -----

  lemma LaterIsBatch(cfg: EngineConfig, src: Source, bars: seq<Bar>, n: nat, m: nat, t: Trade)
    requires IsBatchTrade(cfg, src, bars, n, t) && n <= m <= |bars|
    ensures IsBatchTrade(cfg, src, bars, m, t)
  {
    hide Simulate, FirstEligible, Answered;
    var plan: TradePlan, observation: Bar, i: nat, j: nat :| IsBatch(cfg, src, bars, n, t, plan, observation, i, j);
    assert IsBatch(cfg, src, bars, m, t, plan, observation, i, j);
  }

  /** Where a closed simulation's record says it came from. */
  predicate RecordsItself(sim: Simulation) {
    sim.Closed? ==> (sim.trade.observedAt, sim.trade.entryTime, sim.trade.exitTime)
                    == (sim.observation.timestamp, sim.fill.timestamp, sim.last.timestamp)
  }

  lemma StepKeepsOrigin(cfg: Config, sim: Simulation, bar: Bar)
    requires ProcessBar(cfg, sim, bar).Ok?
    ensures var next := ProcessBar(cfg, sim, bar).value;
      && RecordsItself(next) && next.plan == sim.plan && next.observation == sim.observation
      && !next.Pending? && next.last == bar && next.fill == if sim.Pending? then bar else sim.fill
  {
    hide ResolveBarExit, UpdateExcursions, ArmBreakeven, ActivateBreakeven, ValidBar, OpenState,
         Money, Classify, SlippageCost, RMultiple;
  }

  /** One bar fed to the active simulation: it stays fed, or its trade is the batch trade. */
  lemma StepIsBatch(cfg: EngineConfig, src: Source, bars: seq<Bar>, n: nat, sim: Simulation)
    requires n < |bars| && ActiveIsFed(cfg, src, bars, n, sim) && ProcessBar(cfg.simulation, sim, bars[n]).Ok?
    requires sim.Pending? ==> Eligible(cfg.model, sim.observation.timestamp, bars[n].timestamp)
    ensures var next := ProcessBar(cfg.simulation, sim, bars[n]).value;
      if next.Closed? then IsBatchTrade(cfg, src, bars, n + 1, next.trade) else ActiveIsFed(cfg, src, bars, n + 1, next)
  {
    hide ProcessBar, Fed, Simulate, Eligible, Finalize, Answered;
    var next := ProcessBar(cfg.simulation, sim, bars[n]).value;
    StepKeepsOrigin(cfg.simulation, sim, bars[n]);
    var i: nat := n;
    var fed: seq<Bar> := [];
    if sim.Open? {
      i :| OpenIsFed(cfg, src, bars, n, sim, i);
      fed := bars[i..n];
    }
    assert FirstEligible(cfg, bars, sim.observation.timestamp, i);
    FeedOne(cfg.simulation, sim.plan, sim.observation, fed, sim, bars[n]);
    assert fed + [bars[n]] == bars[i..n + 1];
    if next.Closed? {
      BatchOfFed(cfg.simulation, sim.plan, sim.observation, bars[i..n + 1], next);
      ClosedIsFinal(cfg.simulation, next);
      assert IsBatch(cfg, src, bars, n + 1, next.trade, sim.plan, sim.observation, i, n + 1);
    } else {
      assert OpenIsFed(cfg, src, bars, n + 1, next, i);
    }
  }

  lemma ClosedIsFinal(cfg: Config, sim: Simulation)
    requires sim.Closed?
    ensures Finalize(cfg, sim) == Ok(sim)
  {
  }

  lemma AdvanceIsBatch(cfg: EngineConfig, src: Source, bars: seq<Bar>, es: EngineState)
    requires AllBatch(cfg, src, bars, es) && es.simIndex < |bars| && AdvanceTrade(cfg, es, bars[es.simIndex]).Ok?
    ensures AllBatch(cfg, src, bars, AdvanceTrade(cfg, es, bars[es.simIndex]).value.(simIndex := es.simIndex + 1))
  {
    hide ProcessBar, Fed, Eligible, IsBatchTrade, OpenIsFed, Answered;
    var n := es.simIndex;
    forall t <- es.trades
      ensures IsBatchTrade(cfg, src, bars, n + 1, t)
    {
      LaterIsBatch(cfg, src, bars, n, n + 1, t);
    }
    if es.active.Some? {
      var sim := es.active.value;
      if sim.Pending? && !Eligible(cfg.model, sim.observation.timestamp, bars[n].timestamp) {
      } else {
        StepIsBatch(cfg, src, bars, n, sim);
        StepKeepsOrigin(cfg.simulation, sim, bars[n]);
        hide ActiveIsFed;
      }
    }
  }

  lemma {:induction false} ConsumeIsBatch(cfg: EngineConfig, src: Source, bars: seq<Bar>, boundary: int, es: EngineState)
    requires AllBatch(cfg, src, bars, es) && Consume(cfg, bars, boundary, es).Ok?
    ensures AllBatch(cfg, src, bars, Consume(cfg, bars, boundary, es).value)
    decreases |bars| - es.simIndex
  {
    hide AllBatch, AdvanceTrade;
    if es.simIndex < |bars| && bars[es.simIndex].timestamp + LifecycleMinutes(cfg.model) <= boundary {
      AdvanceIsBatch(cfg, src, bars, es);
      ConsumeIsBatch(cfg, src, bars, boundary, AdvanceTrade(cfg, es, bars[es.simIndex]).value.(simIndex := es.simIndex + 1));
    }
  }

  // ----- one decision -----

  lemma BegunIsFed(cfg: Config, plan: TradePlan, bar: Bar)
    requires Begin(plan, bar).Ok?
    ensures Begin(plan, bar).value == Pending(plan, bar) && Fed(cfg, plan, bar, [], Pending(plan, bar))
  {
    hide ValidBar, PlanError;
  }

  /** `decision` has just closed, so no bar that could fill its plan has been consumed. */
  lemma DecideIsBatch(cfg: EngineConfig, src: Source, bars: seq<Bar>, es: EngineState, bar: Bar, seen: Observation)
    requires seen.Processed? && seen.plan.Some? ==> Answered(src, seen.plan.value, bar)
    requires AllBatch(cfg, src, bars, es) && Decide(cfg, bars, es, bar, seen).Ok?
    requires forall j :: 0 <= j < es.simIndex <= |bars| ==> ClosedBy(cfg, bars[j], Boundary(bar))
    ensures AllBatch(cfg, src, bars, Decide(cfg, bars, es, bar, seen).value)
  {
    hide Fed, IsBatchTrade, OpenIsFed, Begin, HasFuture, Warm, Eligible, Answered;
    if Decide(cfg, bars, es, bar, seen).value.active != es.active {
      BegunIsFed(cfg.simulation, seen.plan.value, bar);
      forall j | 0 <= j < es.simIndex <= |bars|
        ensures !Eligible(cfg.model, bar.timestamp, bars[j].timestamp)
      {
        ClosedIsNotEligible(cfg, bars[j], bar);
      }
    }
  }

  lemma ClosedIsNotEligible(cfg: EngineConfig, bar: Bar, decision: Bar)
    requires ClosedBy(cfg, bar, Boundary(decision))
    ensures !Eligible(cfg.model, decision.timestamp, bar.timestamp)
  {
  }

  // ----- the run -----

  lemma ConsumedHaveClosed(cfg: EngineConfig, decisions: seq<Bar>, bars: seq<Bar>, index: nat, es: EngineState)
    requires Chronological(decisions) && Chronological(bars) && index < |decisions|
    requires AtDecision(cfg, decisions, bars, index, es) && Consume(cfg, bars, Boundary(decisions[index]), es).Ok?
    ensures var c := Consume(cfg, bars, Boundary(decisions[index]), es).value;
      forall j :: 0 <= j < c.simIndex <= |bars| ==> ClosedBy(cfg, bars[j], Boundary(decisions[index]))
  {
    hide Consume, Books, Timeline;
    ConsumeKeepsSound(cfg, bars, Boundary(decisions[index]), es);
  }

  lemma {:induction false} RunIsBatch(
    cfg: EngineConfig, decisions: seq<Bar>, bars: seq<Bar>, strategy: Strategy, index: nat, es: EngineState)
    requires Chronological(decisions) && Chronological(bars) && AtDecision(cfg, decisions, bars, index, es)
    requires AllBatch(cfg, Source(decisions, strategy), bars, es) && RunFrom(cfg, decisions, bars, strategy, index, es).Ok?
    ensures AllBatch(cfg, Source(decisions, strategy), bars, RunFrom(cfg, decisions, bars, strategy, index, es).value)
    decreases |decisions| - index
  {
    hide Consume, Decide, Books, Timeline, ActiveIsFed, IsBatchTrade;
    var src := Source(decisions, strategy);
    if index < |decisions| {
      var boundary := Boundary(decisions[index]);
      ConsumeIsBatch(cfg, src, bars, boundary, es);
      ConsumedHaveClosed(cfg, decisions, bars, index, es);
      ConsumeKeepsSound(cfg, bars, boundary, es);
      var consumed := Consume(cfg, bars, boundary, es).value;
      var counted := consumed.(processed := consumed.processed + 1);
      CountingKeepsSound(cfg, bars, consumed);
      if !(MaximumReached(cfg, counted) && counted.active.None?) {
        var seen := strategy(index, AccountOf(counted));
        DecideKeepsSound(cfg, bars, counted, decisions[index], seen);
        DecideIsBatch(cfg, src, bars, counted, decisions[index], seen);
        RunIsBatch(cfg, decisions, bars, strategy, index + 1, Decide(cfg, bars, counted, decisions[index], seen).value);
      }
    }
  }

  lemma FinalizedOrigin(cfg: Config, sim: Simulation)
    requires sim.Open?
    ensures Finalize(cfg, sim).Ok? && Finalize(cfg, sim).value.Closed?
    ensures var t := Finalize(cfg, sim).value.trade;
      (t.observedAt, t.entryTime, t.exitTime) == (sim.observation.timestamp, sim.fill.timestamp, sim.last.timestamp)
  {
    hide Money, Classify, SlippageCost, RMultiple;
  }

  lemma FinishIsBatch(cfg: EngineConfig, src: Source, bars: seq<Bar>, es: EngineState)
    requires AllBatch(cfg, src, bars, es)
    ensures AllBatch(cfg, src, bars, Finish(cfg, es))
  {
    hide Finalize, Fed, Simulate, FirstEligible, Eligible, Answered;
    if es.active.Some? && es.active.value.Open? {
      var sim, n := es.active.value, es.simIndex;
      var i: nat :| OpenIsFed(cfg, src, bars, n, sim, i);
      FinalizedOrigin(cfg.simulation, sim);
      FedToLast(cfg.simulation, sim.plan, sim.observation, bars[i..n], sim);
      BatchOfFed(cfg.simulation, sim.plan, sim.observation, bars[i..n], sim);
      assert IsBatch(cfg, src, bars, n, Finalize(cfg.simulation, sim).value.trade, sim.plan, sim.observation, i, n);
    }
    hide IsBatchTrade;
  }

  lemma FedToLast(cfg: Config, plan: TradePlan, observation: Bar, fed: seq<Bar>, sim: Simulation)
    requires Fed(cfg, plan, observation, fed, sim) && sim.Open? && fed != []
    ensures sim.last.timestamp == fed[|fed| - 1].timestamp
  {
    hide Run, ValidBar, PlanError, BarsError;
  }

  /** For every strategy, each trade of a finished backtest is what the batch simulator returns for a plan that the
      strategy answered, on the bars of the tape from the first eligible one to the trade's last. */
  lemma EveryTradeIsABatchTrade(cfg: EngineConfig, m5: seq<Bar>, m15: seq<Bar>, strategy: Strategy)
    requires RunBacktest(cfg, m5, m15, strategy).Ok?
    ensures var end := RunBacktest(cfg, m5, m15, strategy).value;
      && end.simIndex <= |Tape(cfg, m5, m15)|
      && forall t <- end.trades :: IsBatchTrade(cfg, Source(KeepInDates(cfg, m5), strategy), Tape(cfg, m5, m15), end.simIndex, t)
  {
    var decisions, bars, start := KeepInDates(cfg, m5), Tape(cfg, m5, m15), Initial(cfg);
    InitialIsSound(cfg, bars);
    hide RunFrom, Finish, IsBatchTrade, Books, Timeline;
    RunIsBatch(cfg, decisions, bars, strategy, 0, start);
    FinishIsBatch(cfg, Source(decisions, strategy), bars, RunFrom(cfg, decisions, bars, strategy, 0, start).value);
  }

  /** So what is proved of the batch simulator holds in backtests, for instance the bound on the loss. */
  lemma BacktestLossesAreBounded(cfg: EngineConfig, m5: seq<Bar>, m15: seq<Bar>, strategy: Strategy, t: Trade)
    requires RunBacktest(cfg, m5, m15, strategy).Ok? && t in RunBacktest(cfg, m5, m15, strategy).value.trades
    requires GapExit !in t.events
    ensures var e := cfg.simulation.economics;
      var risk := if t.breakevenTriggered then 0.0 else Directed(t.isBuy, t.stop, t.entry);
      t.gross >= -Money(e, risk + e.Slippage(), t.size) && t.net == t.gross - t.spreadCost - t.commission
  {
    hide RunBacktest, Simulate, Money, FirstEligible;
    var src := Source(KeepInDates(cfg, m5), strategy);
    var bars, n := Tape(cfg, m5, m15), RunBacktest(cfg, m5, m15, strategy).value.simIndex;
    EveryTradeIsABatchTrade(cfg, m5, m15, strategy);
    var plan: TradePlan, observation: Bar, i: nat, j: nat :| IsBatch(cfg, src, bars, n, t, plan, observation, i, j);
    LossIsBounded(cfg.simulation, plan, observation, bars[i..j]);
  }
}

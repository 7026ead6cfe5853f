/** What a backtest does at each decision, read off the configuration's flags and the times of the bars, and the trades
    that come of it. */
module BacktestDecisions {
  import opened Wrappers
  import opened Market
  import opened TradeLifecycle
  import opened TradeSafety
  import opened TradeAccount
  import opened EquityCurve
  import opened BacktestRun
  import opened BacktestSafety
  import opened BacktestPlans
  import opened BacktestBatch

  // ----- one decision -----

  /** Minutes from the opening of a decision bar to the earliest opening of a bar that may fill its plan. */
  function FillDelay(model: ExecutionModel): int {
    match model
    case M15CompletedV1 => 1
    case M5CompletedV2 => 5
  }

  /** Minutes from the opening of a lifecycle bar to its close. */
  function BarMinutes(model: ExecutionModel): int {
    match model
    case M15CompletedV1 => 15
    case M5CompletedV2 => 5
  }

  /** The engine is idle and past its warm-up, the plan is approved and in a direction that is switched on, and the tape
      has a bar late enough to fill it. */
  predicate TakesUp(cfg: EngineConfig, bars: seq<Bar>, es: EngineState, bar: Bar, plan: TradePlan) {
    && es.active == None && plan.approved
    && ((plan.direction == Buy && cfg.allowLong) || (plan.direction == Sell && cfg.allowShort))
    && (match cfg.replayStart
        case None => es.snapshots >= cfg.warmupBars
        case Some(start) => bar.timestamp >= start)
    && exists b <- bars :: b.timestamp - bar.timestamp >= FillDelay(cfg.model)
  }

  /** A decision takes up the plan, fails on it if it is malformed, or passes it by; every snapshot is counted. */
  lemma DecisionMeaning(cfg: EngineConfig, bars: seq<Bar>, es: EngineState, bar: Bar, seen: Observation)
    ensures var counted := es.(snapshots := es.snapshots + 1);
      var next := Decide(cfg, bars, es, bar, seen);
      if seen == NoSnapshot then next == Ok(es)
      else if seen.plan.Some? && TakesUp(cfg, bars, es, bar, seen.plan.value) then
        if WellFormed(seen.plan.value) && WellShaped(bar)
        then next == Ok(counted.(active := Some(Pending(seen.plan.value, bar)))) else next.Err?
      else next == Ok(counted)
  {
    if seen.Processed? && seen.plan.Some? {
      PlanComplaint(seen.plan.value);
      ValidIsWellShaped(bar);
      FutureMeaning(cfg, bars, bar.timestamp);
      hide PlanError, ValidBar, WellFormed, WellShaped, HasFuture;
    }
  }

  lemma FutureMeaning(cfg: EngineConfig, bars: seq<Bar>, observed: int)
    ensures HasFuture(cfg, bars, observed) <==> exists b <- bars :: b.timestamp - observed >= FillDelay(cfg.model)
  {
    if b :| b in bars && b.timestamp - observed >= FillDelay(cfg.model) {
      var j :| 0 <= j < |bars| && bars[j] == b;
      assert Eligible(cfg.model, observed, bars[j].timestamp);
    }
  }

  // ----- the state a decision is made in -----

  /** Decision `k` is made after exactly the bars closed by then, on the account that the settled trades have left; the
      strategy is told that account, and the trade limit has not been used up unless a trade is in hand. */
  lemma {:induction false} ArrivalMeaning(
    cfg: EngineConfig, decisions: seq<Bar>, bars: seq<Bar>, strategy: Strategy, index: nat, es: EngineState, k: nat)
    requires Chronological(decisions) && Chronological(bars) && AtDecision(cfg, decisions, bars, index, es)
    requires es.processed == index <= k < |decisions|
    requires ArrivesAt(cfg, decisions, bars, strategy, index, es, k).Some?
    ensures var c := ArrivesAt(cfg, decisions, bars, strategy, index, es, k).value;
      && EngineSound(cfg, bars, c) && c.processed == k + 1
      && (forall j :: 0 <= j < |bars| ==>
            (j < c.simIndex <==> bars[j].timestamp + BarMinutes(cfg.model) <= decisions[k].timestamp + 5))
      && AccountOf(c) == Account(cfg.initialBalance + Sum(Nets(c.trades)), c.trades, |c.trades| + Held(c))
      && (cfg.maximumTrades.Some? && c.active == None ==> |c.trades| < cfg.maximumTrades.value)
    decreases k - index
  {
    hide Consume, Decide, Books, Timeline;
    ConsumeKeepsSound(cfg, bars, Boundary(decisions[index]), es);
    ConsumeCountsNothing(cfg, bars, Boundary(decisions[index]), es);
    var consumed := Consume(cfg, bars, Boundary(decisions[index]), es).value;
    var counted := consumed.(processed := consumed.processed + 1);
    CountingKeepsSound(cfg, bars, consumed);
    if index < k {
      var seen := strategy(index, AccountOf(counted));
      DecideKeepsSound(cfg, bars, counted, decisions[index], seen);
      DecisionMeaning(cfg, bars, counted, decisions[index], seen);
      ArrivalMeaning(cfg, decisions, bars, strategy, index + 1, Decide(cfg, bars, counted, decisions[index], seen).value, k);
    } else {
      AccountFromBooks(cfg, counted);
    }
  }

  /** How many snapshots the strategy has given before decision `k`. */
  function SnapshotsBefore(cfg: EngineConfig, decisions: seq<Bar>, bars: seq<Bar>, strategy: Strategy, k: nat): nat
    requires k <= |decisions|
  {
    if k == 0 then 0
    else
      var c := ArrivesAt(cfg, decisions, bars, strategy, 0, Initial(cfg), k - 1);
      SnapshotsBefore(cfg, decisions, bars, strategy, k - 1)
      + if c.Some? && strategy(k - 1, AccountOf(c.value)).Processed? then 1 else 0
  }

  lemma {:induction false} ArrivesOneLater(
    cfg: EngineConfig, decisions: seq<Bar>, bars: seq<Bar>, strategy: Strategy, index: nat, es: EngineState, k: nat)
    requires index <= k < |decisions| - 1 && ArrivesAt(cfg, decisions, bars, strategy, index, es, k + 1).Some?
    ensures var c := ArrivesAt(cfg, decisions, bars, strategy, index, es, k);
      && c.Some?
      && var decided := Decide(cfg, bars, c.value, decisions[k], strategy(k, AccountOf(c.value)));
      && decided.Ok?
      && ArrivesAt(cfg, decisions, bars, strategy, index, es, k + 1)
         == ArrivesAt(cfg, decisions, bars, strategy, k + 1, decided.value, k + 1)
    decreases k - index
  {
    hide Consume, Decide;
    if index < k {
      var counted := Consume(cfg, bars, Boundary(decisions[index]), es).value;
      counted := counted.(processed := counted.processed + 1);
      var decided := Decide(cfg, bars, counted, decisions[index], strategy(index, AccountOf(counted))).value;
      ArrivesOneLater(cfg, decisions, bars, strategy, index + 1, decided, k);
    }
  }

  /** The warm-up counts exactly the snapshots given before a decision. */
  lemma {:induction false} SnapshotsAreCounted(
    cfg: EngineConfig, decisions: seq<Bar>, bars: seq<Bar>, strategy: Strategy, k: nat)
    requires k < |decisions| && ArrivesAt(cfg, decisions, bars, strategy, 0, Initial(cfg), k).Some?
    ensures ArrivesAt(cfg, decisions, bars, strategy, 0, Initial(cfg), k).value.snapshots
         == SnapshotsBefore(cfg, decisions, bars, strategy, k)
  {
    hide Consume, Decide;
    if k == 0 {
      ConsumeCountsNothing(cfg, bars, Boundary(decisions[0]), Initial(cfg));
    } else {
      ArrivesOneLater(cfg, decisions, bars, strategy, 0, Initial(cfg), k - 1);
      SnapshotsAreCounted(cfg, decisions, bars, strategy, k - 1);
      var c := ArrivesAt(cfg, decisions, bars, strategy, 0, Initial(cfg), k - 1).value;
      var seen := strategy(k - 1, AccountOf(c));
      DecisionMeaning(cfg, bars, c, decisions[k - 1], seen);
      ConsumeCountsNothing(cfg, bars, Boundary(decisions[k]), Decide(cfg, bars, c, decisions[k - 1], seen).value);
    }
  }

  lemma AccountFromBooks(cfg: EngineConfig, es: EngineState)
    requires Books(cfg, es)
    ensures AccountOf(es) == Account(cfg.initialBalance + Sum(Nets(es.trades)), es.trades, |es.trades| + Held(es))
    ensures cfg.maximumTrades.Some? && es.active == None && !MaximumReached(cfg, es) ==> |es.trades| < cfg.maximumTrades.value
  {
    hide IsPeak, IsMaximumDrawdown;
    var nets := Nets(es.trades);
    assert nets[..|nets|] == nets;
  }

  lemma {:induction false} ConsumeCountsNothing(cfg: EngineConfig, bars: seq<Bar>, boundary: int, es: EngineState)
    requires Consume(cfg, bars, boundary, es).Ok?
    ensures Consume(cfg, bars, boundary, es).value.processed == es.processed
    ensures Consume(cfg, bars, boundary, es).value.snapshots == es.snapshots
    decreases |bars| - es.simIndex
  {
    hide ProcessBar;
    if es.simIndex < |bars| && bars[es.simIndex].timestamp + LifecycleMinutes(cfg.model) <= boundary {
      var next := AdvanceTrade(cfg, es, bars[es.simIndex]).value;
      ConsumeCountsNothing(cfg, bars, boundary, next.(simIndex := es.simIndex + 1));
    }
  }

  /** A run that does not fail makes every decision, or stops when its limit of trades is used up and none is in hand. */
  lemma {:induction false} RunEndsWhenFull(
    cfg: EngineConfig, decisions: seq<Bar>, bars: seq<Bar>, strategy: Strategy, index: nat, es: EngineState)
    requires Chronological(decisions) && Chronological(bars) && AtDecision(cfg, decisions, bars, index, es)
    requires es.processed == index && RunFrom(cfg, decisions, bars, strategy, index, es).Ok?
    ensures var end := RunFrom(cfg, decisions, bars, strategy, index, es).value;
      || end.processed == |decisions|
      || (end.processed < |decisions| && end.active == None && cfg.maximumTrades == Some(|end.trades|))
    decreases |decisions| - index
  {
    hide Consume, Decide, Books, Timeline;
    if index < |decisions| {
      ConsumeKeepsSound(cfg, bars, Boundary(decisions[index]), es);
      ConsumeCountsNothing(cfg, bars, Boundary(decisions[index]), es);
      var consumed := Consume(cfg, bars, Boundary(decisions[index]), es).value;
      var counted := consumed.(processed := consumed.processed + 1);
      CountingKeepsSound(cfg, bars, consumed);
      if MaximumReached(cfg, counted) && counted.active.None? {
        LimitFromBooks(cfg, counted);
      } else {
        var seen := strategy(index, AccountOf(counted));
        DecideKeepsSound(cfg, bars, counted, decisions[index], seen);
        DecisionMeaning(cfg, bars, counted, decisions[index], seen);
        RunEndsWhenFull(cfg, decisions, bars, strategy, index + 1, Decide(cfg, bars, counted, decisions[index], seen).value);
      }
    }
  }

  lemma LimitFromBooks(cfg: EngineConfig, es: EngineState)
    requires Books(cfg, es) && es.active == None
    ensures MaximumReached(cfg, es) <==> cfg.maximumTrades == Some(|es.trades|)
  {
    hide IsPeak, IsMaximumDrawdown, EquityAt;
  }

  // ----- the trades of a backtest -----

  /** The plan was answered at the observation in a direction that is switched on, bar `i` is the first late enough to
      fill it, and the trade is what the plan makes of the bars from there to bar `j - 1`. */
  ghost predicate ComesFrom(
    cfg: EngineConfig, src: Source, bars: seq<Bar>, t: Trade, plan: TradePlan, observation: Bar, i: nat, j: nat)
  {
    && Answered(src, plan, observation) && i < j <= |bars|
    && ((plan.direction == Buy && cfg.allowLong) || (plan.direction == Sell && cfg.allowShort))
    && bars[i].timestamp - observation.timestamp >= FillDelay(cfg.model)
    && (forall k :: 0 <= k < i ==> bars[k].timestamp - observation.timestamp < FillDelay(cfg.model))
    && IsTradeOf(cfg.simulation, plan, observation, bars[i..j], t)
  }

  ghost predicate IsAsTold(cfg: EngineConfig, src: Source, bars: seq<Bar>, t: Trade) {
    exists plan: TradePlan, observation: Bar, i: nat, j: nat :: ComesFrom(cfg, src, bars, t, plan, observation, i, j)
  }

  /** Every trade of a finished backtest is the trade that the account describes, of a plan the strategy answered in a
      permitted direction; each was decided on after the last bar of its predecessor had closed. */
  lemma EveryBacktestIsAsTold(cfg: EngineConfig, m5: seq<Bar>, m15: seq<Bar>, strategy: Strategy)
    requires RunBacktest(cfg, m5, m15, strategy).Ok?
    ensures var trades := RunBacktest(cfg, m5, m15, strategy).value.trades;
      && (forall t <- trades :: IsAsTold(cfg, Source(KeepInDates(cfg, m5), strategy), Tape(cfg, m5, m15), t))
      && forall k :: 0 < k < |trades| ==> trades[k - 1].exitTime + BarMinutes(cfg.model) <= trades[k].observedAt + 5
  {
    hide RunBacktest, IsAsTold, IsBatchTrade, Books, TradeSound;
    EveryBacktestIsSound(cfg, m5, m15, strategy);
    EveryTradeIsABatchTrade(cfg, m5, m15, strategy);
    var src, bars, end := Source(KeepInDates(cfg, m5), strategy), Tape(cfg, m5, m15), RunBacktest(cfg, m5, m15, strategy).value;
    forall t <- end.trades
      ensures IsAsTold(cfg, src, bars, t)
    {
      assert Permitted(cfg, t.isBuy) by {
        var k :| 0 <= k < |end.trades| && end.trades[k] == t;
        assert TradeOnTape(cfg, bars, end.simIndex, end.trades[k]);
      }
      BatchTradeIsAsTold(cfg, src, bars, end.simIndex, t);
    }
  }

  lemma BatchTradeIsAsTold(cfg: EngineConfig, src: Source, bars: seq<Bar>, consumed: nat, t: Trade)
    requires IsBatchTrade(cfg, src, bars, consumed, t) && Permitted(cfg, t.isBuy)
    ensures IsAsTold(cfg, src, bars, t)
  {
    hide Simulate, Answered, PricesOf, MoneyAccounted, Measured, Classified;
    var plan: TradePlan, observation: Bar, i: nat, j: nat :| IsBatch(cfg, src, bars, consumed, t, plan, observation, i, j);
    SimulationSucceedsExactly(cfg.simulation, plan, observation, bars[i..j]);
    EveryTradeIsAsTold(cfg.simulation, plan, observation, bars[i..j]);
    DirectionOfTrade(cfg.simulation, plan, observation, bars[i..j], t);
    hide IsTradeOf, WellOrdered, WellShaped, WellPlaced;
    assert ComesFrom(cfg, src, bars, t, plan, observation, i, j);
  }

  lemma DirectionOfTrade(cfg: Config, plan: TradePlan, observation: Bar, bars: seq<Bar>, t: Trade)
    requires IsTradeOf(cfg, plan, observation, bars, t)
    ensures t.isBuy == plan.direction.Buy?
  {
    hide MeetsNothing, EndsBy, Protected, ExtremesOf, EventsOf, MeetsStop, MeetsTarget, Trigger;
  }
}

/** The engine that performs a backtest in place, holding one trade object at a time.

    Its methods are tied to the functions of module BacktestRun, so everything proved
    about those holds of the engine's fields. */
module BacktestingEngine {
  import opened Wrappers
  import opened Market
  import opened TradeLifecycle
  import opened TradeSimulator
  import opened BacktestRun

  class BacktestingEngine {
    const config: EngineConfig
    const simulator: TradeSimulator
    var currentEquity: real
    var peakEquity: real
    var maxDrawdown: real
    var processedBarCount: nat
    var executedTradeCount: nat
    var positionsOpened: nat
    var positionsClosed: nat
    var trades: seq<Trade>
    var active: IncrementalTradeSimulation?

    constructor (config: EngineConfig)
      ensures Valid() && this.config == config && active == null && fresh(simulator)
    {
      this.config := config;
      simulator := new TradeSimulator(config.simulation);
      active, trades := null, [];
    }

    ghost predicate Valid()
      reads this, active
    {
      simulator.config == config.simulation && (active != null ==> active.Valid())
    }

    /** The objects of the trade in hand. */
    ghost function TradeObjects(): set<object>
      reads this, active
    {
      if active == null then {} else {active} + if active.state == null then {} else {active.state}
    }

    /** The fields hold `es`, apart from the two counters that are local to the run. */
    ghost predicate Represents(es: EngineState)
      reads this, active, TradeObjects()
    {
      && Valid()
      && (es.equity, es.peak, es.maxDrawdown) == (currentEquity, peakEquity, maxDrawdown)
      && (es.processed, es.executed) == (processedBarCount, executedTradeCount)
      && (es.positionsOpened, es.positionsClosed, es.trades) == (positionsOpened, positionsClosed, trades)
      && (es.active == if active == null then None else Some(active.Value()))
    }

    method Initialize()
      modifies this
      ensures active == null && TradeObjects() == {}
      ensures simulator.config == config.simulation ==> Valid() && Represents(Initial(config))
    {
      currentEquity, peakEquity, maxDrawdown := config.initialBalance, config.initialBalance, 0.0;
      processedBarCount, executedTradeCount, positionsOpened, positionsClosed := 0, 0, 0, 0;
      trades, active := [], null;
    }

    method SettleTrade(trade: Trade, ghost es: EngineState)
      requires active == null && Represents(es)
      modifies this
      ensures active == null && Represents(Settle(es, trade))
    {
      var updated := currentEquity + trade.net;
      positionsClosed := positionsClosed + 1;
      currentEquity := updated;
      peakEquity := Max(peakEquity, currentEquity);
      maxDrawdown := Max(maxDrawdown, peakEquity - currentEquity);
      trades := trades + [trade];
    }

    /** One lifecycle bar for the trade in hand, if there is one; a refused bar changes nothing. */
    method AdvanceIncrementalTrade(bar: Bar, ghost es: EngineState) returns (r: Option<Error>)
      requires Represents(es)
      modifies this, TradeObjects()
      ensures Valid() && fresh(TradeObjects() - old(TradeObjects()))
      ensures match AdvanceTrade(config, es, bar)
              case Err(e) => r == Some(e)
              case Ok(next) => r == None && Represents(next) && next.snapshots == es.snapshots
    {
      hide TradeLifecycle.ProcessBar, Finalize;
      if active == null {
        return None;
      }
      if active.phase.PendingEntry? && !Eligible(config.model, active.observation.timestamp, bar.timestamp) {
        return None;
      }
      var wasPending := active.phase.PendingEntry?;
      var step := simulator.ProcessBar(active, bar);
      if step.Err? {
        return Some(step.error);
      }
      ghost var filled := es;
      if wasPending {
        positionsOpened := positionsOpened + 1;
        executedTradeCount := executedTradeCount + 1;
        filled := es.(positionsOpened := es.positionsOpened + 1, executed := es.executed + 1);
      }
      if step.value.Some? {
        active := null;
        SettleTrade(step.value.value, filled.(active := None));
      }
      r := None;
    }

    method BeginIncrementalTrade(plan: TradePlan, observation: Bar, ghost es: EngineState) returns (r: Option<Error>)
      requires Represents(es) && active == null
      modifies this
      ensures Valid() && fresh(TradeObjects())
      ensures if !plan.approved then r == None && Represents(es)
              else match Begin(plan, observation)
                   case Err(e) => r == Some(e)
                   case Ok(sim) => r == None && Represents(es.(active := Some(sim)))
    {
      if !plan.approved {
        return None;
      }
      var begun := simulator.Begin(plan, observation);
      if begun.Err? {
        return Some(begun.error);
      }
      active := begun.value;
      r := None;
    }

    method PrepareHistory(bars: seq<Bar>) returns (r: Result<seq<Bar>, RunError>)
      ensures r == PrepareBars(config, bars)
    {
      var previous: Option<int> := None;
      for i := 0 to |bars|
        invariant previous == if i == 0 then None else Some(bars[i - 1].timestamp)
        invariant forall j, k :: 0 <= j < k < i ==> bars[j].timestamp < bars[k].timestamp
      {
        if previous.Some? && bars[i].timestamp <= previous.value {
          return Err(HistoryNotIncreasing);
        }
        previous := Some(bars[i].timestamp);
      }
      if config.startDate.Some? && config.endDate.Some? && config.startDate.value > config.endDate.value {
        return Err(DatesReversed);
      }
      r := Ok(KeepInDates(config, bars));
    }

    /** Feeds the lifecycle bars that have closed by `boundary` and returns the new position on the tape. */
    method ConsumeClosedBars(bars: seq<Bar>, boundary: int, start: nat, ghost es: EngineState)
      returns (r: Result<nat, Error>, ghost next: EngineState)
      requires Represents(es) && es.simIndex == start
      modifies this, TradeObjects()
      ensures Valid() && fresh(TradeObjects() - old(TradeObjects()))
      ensures match Consume(config, bars, boundary, es)
              case Err(e) => r == Err(e)
              case Ok(end) => r == Ok(end.simIndex) && next == end && Represents(end) && end.snapshots == es.snapshots
    {
      hide AdvanceTrade;
      var index := start;
      next := es;
      while index < |bars| && bars[index].timestamp + LifecycleMinutes(config.model) <= boundary
        invariant Represents(next) && next.simIndex == index && next.snapshots == es.snapshots
        invariant fresh(TradeObjects() - old(TradeObjects()))
        invariant Consume(config, bars, boundary, es) == Consume(config, bars, boundary, next)
        decreases |bars| - index
      {
        var refused := AdvanceIncrementalTrade(bars[index], next);
        if refused.Some? {
          r := Err(refused.value);
          return;
        }
        next := AdvanceTrade(config, next, bars[index]).value.(simIndex := index + 1);
        index := index + 1;
      }
      r := Ok(index);
    }

    /** Acts on what the pipeline said about one completed bar. */
    method ActOn(seen: Observation, bars: seq<Bar>, bar: Bar, snapshots: nat, ghost es: EngineState)
      returns (r: Result<nat, Error>, ghost next: EngineState)
      requires Represents(es) && es.snapshots == snapshots
      modifies this
      ensures Valid() && fresh(TradeObjects() - old(TradeObjects()))
      ensures match Decide(config, bars, es, bar, seen)
              case Err(e) => r == Err(e)
              case Ok(decided) => r == Ok(decided.snapshots) && next == decided && Represents(decided) && decided.simIndex == es.simIndex
    {
      hide HasFuture, Begin, Finalize;
      next := es;
      if seen.NoSnapshot? {
        return Ok(snapshots), next;
      }
      var eligible := if config.replayStart.Some? then bar.timestamp >= config.replayStart.value
                      else snapshots >= config.warmupBars;
      next := es.(snapshots := snapshots + 1);
      if !eligible || active != null || !DirectionEnabled(config, seen.plan) || !HasFuture(config, bars, bar.timestamp) {
        return Ok(snapshots + 1), next;
      }
      var refused := BeginIncrementalTrade(seen.plan.value, bar, next);
      if refused.Some? {
        return Err(refused.value), next;
      }
      next := Decide(config, bars, es, bar, seen).value;
      r := Ok(snapshots + 1);
    }

    /** Closes what is still open at the end of the data and drops what was never filled. */
    method FinalizeRun(ghost es: EngineState)
      requires Represents(es)
      modifies this, TradeObjects()
      ensures active == null && Represents(Finish(config, es))
    {
      hide Complete;
      if active != null {
        if active.phase.PendingEntry? {
          active := null;
        } else {
          var completed := simulator.FinalizeAtEndOfData(active);
          active := null;
          SettleTrade(completed.value, es.(active := None));
        }
      }
    }

    /** One decision: the lifecycle bars closed by then, the trade cap, and the pipeline's answer. */
    method DecisionStep(
      decisions: seq<Bar>, bars: seq<Bar>, strategy: Strategy, index: nat, position: nat, snapshots: nat, ghost es: EngineState)
      returns (more: Result<bool, Error>, nextPosition: nat, nextSnapshots: nat, ghost next: EngineState)
      requires Represents(es) && index < |decisions| && es.simIndex == position && es.snapshots == snapshots
      modifies this, TradeObjects()
      ensures Valid() && fresh(TradeObjects() - old(TradeObjects()))
      ensures var rest := RunFrom(config, decisions, bars, strategy, index, es);
        match more
        case Err(e) => rest == Err(e)
        case Ok(false) => rest == Ok(next) && Represents(next)
        case Ok(true) =>
          && rest == RunFrom(config, decisions, bars, strategy, index + 1, next) && Represents(next)
          && next.simIndex == nextPosition && next.snapshots == nextSnapshots
    {
      hide Consume, Decide, Represents, Valid, MaximumReached;
      nextPosition, nextSnapshots := position, snapshots;
      var step;
      step, next := ConsumeClosedBars(bars, Boundary(decisions[index]), position, es);
      if step.Err? {
        more := Err(step.error);
        return;
      }
      nextPosition := step.value;
      next := CountBar(next);
      if MaximumTradesReached(next) && active == null {
        more := Ok(false);
        return;
      }
      var seen := strategy(index, Report(next));
      step, next := ActOn(seen, bars, decisions[index], snapshots, next);
      if step.Err? {
        more := Err(step.error);
        return;
      }
      nextSnapshots := step.value;
      more := Ok(true);
    }

    /** The decision loop, up to the end of the data or the trade cap. */
    method RunDecisions(decisions: seq<Bar>, bars: seq<Bar>, strategy: Strategy)
      returns (r: Option<Error>, ghost es: EngineState)
      requires simulator.config == config.simulation
      modifies this
      ensures Valid() && fresh(TradeObjects())
      ensures match RunFrom(config, decisions, bars, strategy, 0, Initial(config))
              case Err(e) => r == Some(e)
              case Ok(end) => r == None && es == end && Represents(end)
    {
      hide Represents, Valid;
      Initialize();
      var position, snapshots := 0, 0;
      es := Initial(config);
      for index := 0 to |decisions|
        invariant Represents(es) && Valid() && fresh(TradeObjects())
        invariant es.simIndex == position && es.snapshots == snapshots
        invariant RunFrom(config, decisions, bars, strategy, 0, Initial(config))
               == RunFrom(config, decisions, bars, strategy, index, es)
      {
        hide RunFrom;
        var more;
        more, position, snapshots, es := DecisionStep(decisions, bars, strategy, index, position, snapshots, es);
        if more.Err? {
          r := Some(more.error);
          return;
        }
        if !more.value {
          r := None;
          return;
        }
      }
      r := None;
    }

    method CountBar(ghost es: EngineState) returns (ghost next: EngineState)
      requires Represents(es)
      modifies this`processedBarCount
      ensures next == es.(processed := es.processed + 1) && Represents(next)
    {
      processedBarCount := processedBarCount + 1;
      next := es.(processed := es.processed + 1);
    }

    predicate MaximumTradesReached(ghost es: EngineState)
      requires Represents(es)
      reads this, active, TradeObjects()
      ensures MaximumTradesReached(es) == MaximumReached(config, es)
      ensures active == null <==> es.active.None?
    {
      config.maximumTrades.Some? && executedTradeCount >= config.maximumTrades.value
    }

    function Report(ghost es: EngineState): (account: Account)
      requires Represents(es)
      reads this, active, TradeObjects()
      ensures account == AccountOf(es)
    {
      Account(currentEquity, trades, positionsOpened)
    }

    method Run(m5: seq<Bar>, m15: seq<Bar>, strategy: Strategy) returns (r: Result<seq<Trade>, RunError>)
      requires simulator.config == config.simulation
      modifies this
      ensures match RunBacktest(config, m5, m15, strategy)
              case Err(e) => r == Err(e)
              case Ok(es) => r == Ok(es.trades) && active == null && Represents(es)
    {
      hide RunFrom, Finish, PrepareBars;
      var prepared := PrepareHistory(m5);
      if prepared.Err? {
        return Err(prepared.error);
      }
      var decisions := prepared.value;
      prepared := PrepareHistory(if config.model.M15CompletedV1? then m15 else m5);
      if prepared.Err? {
        return Err(prepared.error);
      }
      ghost var es;
      var failed;
      failed, es := RunDecisions(decisions, prepared.value, strategy);
      if failed.Some? {
        return Err(InTrade(failed.value));
      }
      FinalizeRun(es);
      r := Ok(trades);
    }
  }
}

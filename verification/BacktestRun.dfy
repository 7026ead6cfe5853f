/** A whole backtest as a function: decisions on M5 closes, lifecycle bars on their own clock,
    one position at a time, and an arbitrary strategy in place of the analytical pipeline. */
module BacktestRun {
  import opened Wrappers
  import opened Market
  import opened TradeLifecycle

  datatype ExecutionModel = M15CompletedV1 | M5CompletedV2

  /** What the pipeline says about one completed M5 bar. */
  datatype Observation = NoSnapshot | Processed(plan: Option<TradePlan>)

  /** What the pipeline is told about the account before it answers. */
  datatype Account = Account(equity: real, settled: seq<Trade>, positionsOpened: nat)

  /** Any strategy: it may use the bar's index and everything the engine reports to it. */
  type Strategy = (nat, Account) -> Observation

  datatype EngineConfig = EngineConfig(
    model: ExecutionModel, simulation: Config, initialBalance: real, maximumTrades: Option<nat>,
    allowLong: bool, allowShort: bool, warmupBars: nat, replayStart: Option<int>,
    startDate: Option<int>, endDate: Option<int>)

  datatype RunError = HistoryNotIncreasing | DatesReversed | InTrade(error: Error)

  datatype EngineState = EngineState(
    equity: real, peak: real, maxDrawdown: real, executed: nat, positionsOpened: nat, positionsClosed: nat,
    trades: seq<Trade>, active: Option<Simulation>, simIndex: nat, snapshots: nat, processed: nat)

  const DECISION_MINUTES := 5

  function LifecycleMinutes(model: ExecutionModel): int {
    if model.M15CompletedV1? then 15 else 5
  }

  function Initial(cfg: EngineConfig): EngineState {
    EngineState(cfg.initialBalance, cfg.initialBalance, 0.0, 0, 0, 0, [], None, 0, 0, 0)
  }

  /** Whether a bar opening at `opens` may fill a plan observed on the bar opening at `observed`. */
  predicate Eligible(model: ExecutionModel, observed: int, opens: int) {
    if model.M5CompletedV2? then opens >= observed + DECISION_MINUTES else opens > observed
  }

  function AccountOf(es: EngineState): Account {
    Account(es.equity, es.trades, es.positionsOpened)
  }

  // ----- one lifecycle bar -----

  function Settle(es: EngineState, trade: Trade): EngineState {
    var equity := es.equity + trade.net;
    var peak := Max(es.peak, equity);
    es.(positionsClosed := es.positionsClosed + 1, equity := equity, peak := peak,
        maxDrawdown := Max(es.maxDrawdown, peak - equity), trades := es.trades + [trade])
  }

  function AdvanceTrade(cfg: EngineConfig, es: EngineState, bar: Bar): Result<EngineState, Error> {
    if es.active.None? then Ok(es)
    else
      var sim := es.active.value;
      if sim.Pending? && !Eligible(cfg.model, sim.observation.timestamp, bar.timestamp) then Ok(es)
      else
        match ProcessBar(cfg.simulation, sim, bar)
        case Err(e) => Err(e)
        case Ok(next) =>
          var filled := if sim.Pending? then es.(positionsOpened := es.positionsOpened + 1, executed := es.executed + 1) else es;
          Ok(if next.Closed? then Settle(filled.(active := None), next.trade) else filled.(active := Some(next)))
  }

  /** Feeds every lifecycle bar that has closed by `boundary`. */
  function Consume(cfg: EngineConfig, bars: seq<Bar>, boundary: int, es: EngineState): Result<EngineState, Error>
    decreases |bars| - es.simIndex
  {
    if es.simIndex >= |bars| || bars[es.simIndex].timestamp + LifecycleMinutes(cfg.model) > boundary then Ok(es)
    else
      match AdvanceTrade(cfg, es, bars[es.simIndex])
      case Err(e) => Err(e)
      case Ok(next) => Consume(cfg, bars, boundary, next.(simIndex := es.simIndex + 1))
  }

  // ----- one decision -----

  predicate MaximumReached(cfg: EngineConfig, es: EngineState) {
    cfg.maximumTrades.Some? && es.executed >= cfg.maximumTrades.value
  }

  predicate DirectionEnabled(cfg: EngineConfig, plan: Option<TradePlan>) {
    && plan.Some?
    && (plan.value.direction.Buy? ==> cfg.allowLong)
    && (plan.value.direction.Sell? ==> cfg.allowShort)
    && !plan.value.direction.Hold?
  }

  predicate HasFuture(cfg: EngineConfig, bars: seq<Bar>, observed: int) {
    exists j :: 0 <= j < |bars| && Eligible(cfg.model, observed, bars[j].timestamp)
  }

  predicate Warm(cfg: EngineConfig, es: EngineState, observed: int) {
    if cfg.replayStart.Some? then observed >= cfg.replayStart.value else es.snapshots >= cfg.warmupBars
  }

  function Decide(cfg: EngineConfig, bars: seq<Bar>, es: EngineState, bar: Bar, seen: Observation): Result<EngineState, Error> {
    if seen.NoSnapshot? then Ok(es)
    else
      var counted := es.(snapshots := es.snapshots + 1);
      if !Warm(cfg, es, bar.timestamp) || es.active.Some? || !DirectionEnabled(cfg, seen.plan)
         || !HasFuture(cfg, bars, bar.timestamp) || !seen.plan.value.approved
      then Ok(counted)
      else
        match Begin(seen.plan.value, bar)
        case Err(e) => Err(e)
        case Ok(sim) => Ok(counted.(active := Some(sim)))
  }

  // ----- the run -----

  function Boundary(decision: Bar): int {
    decision.timestamp + DECISION_MINUTES
  }

  function RunFrom(
    cfg: EngineConfig, decisions: seq<Bar>, bars: seq<Bar>, strategy: Strategy, index: nat, es: EngineState)
    : Result<EngineState, Error>
    decreases |decisions| - index
  {
    if index >= |decisions| then Ok(es)
    else
      match Consume(cfg, bars, Boundary(decisions[index]), es)
      case Err(e) => Err(e)
      case Ok(consumed) =>
        var counted := consumed.(processed := consumed.processed + 1);
        if MaximumReached(cfg, counted) && counted.active.None? then Ok(counted)
        else
          match Decide(cfg, bars, counted, decisions[index], strategy(index, AccountOf(counted)))
          case Err(e) => Err(e)
          case Ok(decided) => RunFrom(cfg, decisions, bars, strategy, index + 1, decided)
  }

  /** A trade still open is closed at its last bar; a plan still waiting for a fill is dropped. */
  function Finish(cfg: EngineConfig, es: EngineState): EngineState {
    if es.active.None? || es.active.value.Pending? then es.(active := None)
    else Settle(es.(active := None), Finalize(cfg.simulation, es.active.value).value.trade)
  }

  predicate InDates(cfg: EngineConfig, bar: Bar) {
    && (cfg.startDate.Some? ==> bar.timestamp >= cfg.startDate.value)
    && (cfg.endDate.Some? ==> bar.timestamp <= cfg.endDate.value)
  }

  function KeepInDates(cfg: EngineConfig, bars: seq<Bar>): (kept: seq<Bar>)
    ensures forall b <- kept :: b in bars && InDates(cfg, b)
    ensures forall b <- bars :: InDates(cfg, b) ==> b in kept
    ensures Chronological(bars) ==> Chronological(kept)
  {
    if bars == [] then []
    else
      var front := KeepInDates(cfg, bars[..|bars| - 1]);
      assert Chronological(bars) ==> Chronological(bars[..|bars| - 1]);
      assert Chronological(bars) ==> forall b <- bars[..|bars| - 1] :: b.timestamp < bars[|bars| - 1].timestamp;
      assert Chronological(bars) ==> forall i :: 0 <= i < |front| ==> front[i].timestamp < bars[|bars| - 1].timestamp;
      if InDates(cfg, bars[|bars| - 1]) then front + [bars[|bars| - 1]] else front
  }

  /** A bar is dropped exactly when it opens before the first date or after the last. */
  lemma KeptByDate(cfg: EngineConfig, bars: seq<Bar>, b: Bar)
    requires b in bars
    ensures b !in KeepInDates(cfg, bars) <==>
              || (cfg.startDate.Some? && b.timestamp < cfg.startDate.value)
              || (cfg.endDate.Some? && b.timestamp > cfg.endDate.value)
  {
  }

  function PrepareBars(cfg: EngineConfig, bars: seq<Bar>): Result<seq<Bar>, RunError> {
    if !Chronological(bars) then Err(HistoryNotIncreasing)
    else if cfg.startDate.Some? && cfg.endDate.Some? && cfg.startDate.value > cfg.endDate.value then Err(DatesReversed)
    else Ok(KeepInDates(cfg, bars))
  }

  function RunBacktest(cfg: EngineConfig, m5: seq<Bar>, m15: seq<Bar>, strategy: Strategy): Result<EngineState, RunError> {
    match PrepareBars(cfg, m5)
    case Err(e) => Err(e)
    case Ok(decisions) =>
      match PrepareBars(cfg, if cfg.model.M15CompletedV1? then m15 else m5)
      case Err(e) => Err(e)
      case Ok(bars) =>
        match RunFrom(cfg, decisions, bars, strategy, 0, Initial(cfg))
        case Err(e) => Err(InTrade(e))
        case Ok(es) => Ok(Finish(cfg, es))
  }
}

/** The incremental simulator itself: mutable trade objects advanced one completed bar at a time.

    Every method is tied to the function of the same name in TradeLifecycle. */
module TradeSimulator {
  import opened Wrappers
  import opened Market
  import opened TradeLifecycle

  datatype Phase = PendingEntry | OpenPosition | ClosedPosition

  class SimulationState {
    const isBuy: bool
    const entryPrice: real
    const originalStop: real
    const takeProfit: real
    var currentStop: real
    var holdingBars: nat
    var highestPrice: real
    var lowestPrice: real
    var maxFavorableExcursion: real
    var maxAdverseExcursion: real
    var breakevenTriggered: bool
    var breakevenPending: bool
    var lifecycleEvents: seq<Event>

    constructor (s: PriceState)
      ensures Value() == s
    {
      isBuy, entryPrice, originalStop, takeProfit := s.isBuy, s.entry, s.originalStop, s.takeProfit;
      currentStop, holdingBars := s.currentStop, s.holdingBars;
      highestPrice, lowestPrice := s.highest, s.lowest;
      maxFavorableExcursion, maxAdverseExcursion := s.mfe, s.mae;
      breakevenTriggered, breakevenPending := s.breakevenTriggered, s.breakevenPending;
      lifecycleEvents := s.events;
    }

    function Value(): PriceState
      reads this
    {
      PriceState(isBuy, entryPrice, originalStop, takeProfit, currentStop, holdingBars, highestPrice, lowestPrice,
                 maxFavorableExcursion, maxAdverseExcursion, breakevenTriggered, breakevenPending, lifecycleEvents)
    }
  }

  class IncrementalTradeSimulation {
    const plan: TradePlan
    const observation: Bar
    var phase: Phase
    var fillBar: Option<Bar>
    var lastBar: Option<Bar>
    var state: SimulationState?
    var completedTrade: Option<Trade>

    constructor (plan: TradePlan, observation: Bar)
      ensures Valid() && Value() == Pending(plan, observation) && state == null
    {
      this.plan, this.observation := plan, observation;
      phase, fillBar, lastBar, state, completedTrade := PendingEntry, None, None, null, None;
    }

    ghost predicate Valid()
      reads this
    {
      && (phase.PendingEntry? <==> state == null)
      && (!phase.PendingEntry? ==> fillBar.Some? && lastBar.Some?)
      && (phase.ClosedPosition? ==> completedTrade.Some?)
      && (phase.PendingEntry? ==> lastBar.None?)
    }

    ghost function Value(): Simulation
      requires Valid()
      reads this, state
    {
      match phase
      case PendingEntry => Pending(plan, observation)
      case OpenPosition => Open(plan, observation, fillBar.value, lastBar.value, state.Value())
      case ClosedPosition =>
        Closed(plan, observation, fillBar.value, lastBar.value, state.Value(), completedTrade.value)
    }
  }

  class TradeSimulator {
    const config: Config

    constructor (config: Config)
      ensures this.config == config
    {
      this.config := config;
    }

    method Begin(plan: TradePlan, observation: Bar) returns (r: Result<IncrementalTradeSimulation, Error>)
      ensures r.Ok? ==> fresh(r.value) && r.value.Valid() && r.value.state == null
      ensures match TradeLifecycle.Begin(plan, observation)
              case Err(e) => r == Err(e)
              case Ok(sim) => r.Ok? && r.value.Value() == sim
    {
      match PlanError(plan)
      case Some(e) => r := Err(e);
      case None =>
        if ValidBar(observation) {
          var sim := new IncrementalTradeSimulation(plan, observation);
          r := Ok(sim);
        } else {
          r := Err(InvalidBar);
        }
    }

    /** Fills the trade at the bar's open, or refuses it before anything has changed. */
    method OpenOnBar(sim: IncrementalTradeSimulation, bar: Bar) returns (r: Option<Error>)
      requires sim.Valid() && sim.phase.PendingEntry?
      modifies sim
      ensures var s := OpenState(config, sim.plan, bar);
        if ExitSideHolds(s.isBuy, s.entry, s.originalStop, s.takeProfit) then
          && r == None && sim.phase.OpenPosition? && sim.fillBar == Some(bar) && sim.lastBar == None
          && sim.state != null && fresh(sim.state) && sim.state.Value() == s
        else
          r == Some(WrongExitSide) && unchanged(sim)
    {
      var isBuy := sim.plan.direction.Buy?;
      var entry := if isBuy then bar.open + config.economics.Slippage() else bar.open - config.economics.Slippage();
      var (stop, target) := ExitLevels(config, sim.plan, bar.open);
      if !ExitSideHolds(isBuy, entry, stop, target) {
        return Some(WrongExitSide);
      }
      sim.fillBar := Some(bar);
      sim.state := new SimulationState(
        PriceState(isBuy, entry, stop, target, stop, 0, entry, entry, 0.0, 0.0, false, false, [EntryNextBarOpen]));
      sim.phase := OpenPosition;
      r := None;
    }

    method UpdateExcursions(state: SimulationState, bar: Bar, decision: Option<ExitDecision>)
      modifies state
      ensures state.Value() == TradeLifecycle.UpdateExcursions(old(state.Value()), bar, decision)
    {
      var (high, low) := ObservedRange(state.Value(), bar, decision);
      state.highestPrice := Max(state.highestPrice, high);
      state.lowestPrice := Min(state.lowestPrice, low);
      if state.isBuy {
        state.maxFavorableExcursion := Max(state.maxFavorableExcursion, state.highestPrice - state.entryPrice);
        state.maxAdverseExcursion := Max(state.maxAdverseExcursion, state.entryPrice - state.lowestPrice);
      } else {
        state.maxFavorableExcursion := Max(state.maxFavorableExcursion, state.entryPrice - state.lowestPrice);
        state.maxAdverseExcursion := Max(state.maxAdverseExcursion, state.highestPrice - state.entryPrice);
      }
    }

    /** Records the trade and closes the simulation; its state must already hold the exit events. */
    method CompleteSimulation(sim: IncrementalTradeSimulation, exitBar: Bar, decision: ExitDecision) returns (trade: Trade)
      requires sim.state != null && sim.fillBar.Some? && sim.lastBar == Some(exitBar)
      modifies sim`completedTrade, sim`phase
      ensures trade == Complete(config.economics, sim.plan, sim.observation, sim.fillBar.value, exitBar, sim.state.Value(), decision)
      ensures sim.phase.ClosedPosition? && sim.completedTrade == Some(trade)
    {
      hide Money, Directed, ExitPrice, SpreadCost, Commission, SlippageCost, RMultiple, Classify;
      var economics, state, size := config.economics, sim.state, sim.plan.size;
      var exitPrice := ExitPrice(economics, state.isBuy, decision);
      var movement := Directed(state.isBuy, state.entryPrice, exitPrice);
      var grossProfit := Money(economics, movement, size);
      var spreadCost, commission := SpreadCost(economics, size), Commission(economics, size);
      var netProfit := grossProfit - spreadCost - commission;
      var riskDistance := Abs(state.entryPrice - state.originalStop);
      var monetaryRisk := Money(economics, riskDistance, size);
      var entryAdverse := Directed(state.isBuy, sim.fillBar.value.open, state.entryPrice);
      var exitAdverse := Directed(state.isBuy, exitPrice, decision.price);
      trade := Trade(
        sim.observation.timestamp, sim.fillBar.value.timestamp, exitBar.timestamp, state.isBuy,
        state.entryPrice, state.originalStop, state.takeProfit, exitPrice, decision.reason, size,
        grossProfit, spreadCost, commission, netProfit, SlippageCost(economics, entryAdverse + exitAdverse, size),
        RMultiple(movement, riskDistance), RMultiple(netProfit, monetaryRisk), monetaryRisk,
        Classify(economics, netProfit, size), state.holdingBars,
        state.maxFavorableExcursion, state.maxAdverseExcursion, state.highestPrice, state.lowestPrice,
        state.breakevenTriggered, state.lifecycleEvents);
      sim.completedTrade := Some(trade);
      sim.phase := ClosedPosition;
    }

    /** Applies a breakeven move armed by an earlier bar, after counting the new bar. */
    method BeginBar(state: SimulationState)
      modifies state
      ensures state.Value() == ActivateBreakeven(old(state.Value()).(holdingBars := old(state.holdingBars) + 1))
    {
      state.holdingBars := state.holdingBars + 1;
      if state.breakevenPending {
        state.currentStop := state.entryPrice;
        state.breakevenTriggered := true;
        state.breakevenPending := false;
        state.lifecycleEvents := state.lifecycleEvents + [BreakevenActive];
      }
    }

    /** The part of ProcessBar that follows the fill: exit, excursions and breakeven for one bar. */
    method AdvanceOnBar(sim: IncrementalTradeSimulation, bar: Bar) returns (completed: Option<Trade>)
      requires sim.phase.OpenPosition? && sim.state != null && sim.fillBar.Some?
      modifies sim, sim.state
      ensures sim.Valid() && sim.state == old(sim.state)
      ensures var next := Advance(config, sim.plan, sim.observation, old(sim.fillBar.value), old(sim.state.Value()), bar);
        sim.Value() == next && completed == if next.Closed? then Some(next.trade) else None
    {
      hide Complete, ResolveBarExit, TradeLifecycle.UpdateExcursions, ReachesBreakeven, ActivateBreakeven;
      var state := sim.state;
      BeginBar(state);
      var decision := ResolveBarExit(config.policy, state.Value(), bar);
      UpdateExcursions(state, bar, decision);
      sim.lastBar := Some(bar);
      ghost var seen := state.Value();
      if decision.Some? {
        if decision.value.gap {
          state.lifecycleEvents := state.lifecycleEvents + [GapExit];
        }
        state.lifecycleEvents := state.lifecycleEvents + [Exit(decision.value.reason)];
        assert state.Value() == RecordExit(seen, decision.value);
        var trade := CompleteSimulation(sim, bar, decision.value);
        return Some(trade);
      }
      if config.breakevenEnabled && !state.breakevenTriggered && !state.breakevenPending
         && ReachesBreakeven(state.Value(), bar) {
        state.breakevenPending := true;
        state.lifecycleEvents := state.lifecycleEvents + [BreakevenPending];
      }
      assert state.Value() == ArmBreakeven(config, seen, bar);
      return None;
    }

    /** Advances a pending or open simulation by one bar; a refused bar changes nothing. */
    method ProcessBar(sim: IncrementalTradeSimulation, bar: Bar) returns (r: Result<Option<Trade>, Error>)
      requires sim.Valid()
      modifies sim, sim.state
      ensures sim.Valid() && (sim.state == old(sim.state) || fresh(sim.state))
      ensures match TradeLifecycle.ProcessBar(config, old(sim.Value()), bar)
              case Err(e) => r == Err(e) && sim.Value() == old(sim.Value())
              case Ok(next) => sim.Value() == next && r == Ok(if next.Closed? then Some(next.trade) else None)
    {
      hide Advance, OpenState, ValidBar;
      if sim.phase.ClosedPosition? {
        return Err(AlreadyClosed);
      }
      if !ValidBar(bar) {
        return Err(InvalidBar);
      }
      var previous := if sim.lastBar.Some? then sim.lastBar.value.timestamp else sim.observation.timestamp;
      if bar.timestamp <= previous {
        return Err(NotChronological);
      }
      if sim.phase.PendingEntry? {
        var refused := OpenOnBar(sim, bar);
        if refused.Some? {
          return Err(refused.value);
        }
      }
      var completed := AdvanceOnBar(sim, bar);
      r := Ok(completed);
    }

    /** Closes an open simulation at the close of its last bar. */
    method FinalizeAtEndOfData(sim: IncrementalTradeSimulation) returns (r: Result<Trade, Error>)
      requires sim.Valid()
      modifies sim, sim.state
      ensures sim.Valid() && sim.state == old(sim.state)
      ensures match Finalize(config, old(sim.Value()))
              case Err(e) => r == Err(e) && sim.Value() == old(sim.Value())
              case Ok(next) => sim.Value() == next && next.Closed? && r == Ok(next.trade)
    {
      if sim.phase.ClosedPosition? {
        return Ok(sim.completedTrade.value);
      }
      if sim.phase.PendingEntry? {
        return Err(NeverFilled);
      }
      var decision := EndOfDataDecision(sim.lastBar.value);
      sim.state.lifecycleEvents := sim.state.lifecycleEvents + [Exit(EndOfData)];
      assert sim.state.Value() == RecordExit(old(sim.state.Value()), decision);
      var trade := CompleteSimulation(sim, sim.lastBar.value, decision);
      r := Ok(trade);
    }

    method ValidateInputs(plan: TradePlan, entryBar: Bar, bars: seq<Bar>) returns (e: Option<Error>)
      ensures e == InputsError(plan, entryBar, bars)
    {
      e := PlanError(plan);
      if e.Some? {
        return;
      }
      if bars == [] {
        return Some(NoFutureBars);
      }
      if !ValidBar(entryBar) {
        return Some(InvalidBar);
      }
      var previous := entryBar.timestamp;
      for i := 0 to |bars|
        invariant BarsError(entryBar.timestamp, bars) == BarsError(previous, bars[i..])
      {
        assert bars[i..][0] == bars[i] && bars[i..][1..] == bars[i + 1..];
        if !ValidBar(bars[i]) {
          return Some(InvalidBar);
        }
        if bars[i].timestamp <= previous {
          return Some(NotChronological);
        }
        previous := bars[i].timestamp;
      }
      e := None;
    }

    /** The batch interface: the incremental lifecycle run over a whole list of bars. */
    method Simulate(plan: TradePlan, entryBar: Bar, bars: seq<Bar>) returns (r: Result<Trade, Error>)
      ensures match TradeLifecycle.Simulate(config, plan, entryBar, bars)
              case Err(e) => r == Err(e)
              case Ok(final) => final.Closed? && r == Ok(final.trade)
    {
      var invalid := ValidateInputs(plan, entryBar, bars);
      if invalid.Some? {
        return Err(invalid.value);
      }
      var begun := Begin(plan, entryBar);
      var sim := begun.value;
      for i := 0 to |bars|
        invariant sim.Valid() && fresh(sim) && (sim.state == null || fresh(sim.state))
        invariant !sim.phase.ClosedPosition?
        invariant Run(config, Pending(plan, entryBar), bars) == Run(config, sim.Value(), bars[i..])
      {
        assert bars[i..][0] == bars[i] && bars[i..][1..] == bars[i + 1..];
        var step := ProcessBar(sim, bars[i]);
        if step.Err? {
          return Err(step.error);
        }
        if step.value.Some? {
          return Ok(step.value.value);
        }
      }
      assert bars[|bars|..] == [];
      r := FinalizeAtEndOfData(sim);
    }
  }
}

/** The life of one simulated trade, as a function of the bars it is fed.

    Each function is the meaning of one step of the incremental simulator; the
    class that performs those steps in place is in module TradeSimulator. */
module TradeLifecycle {
  import opened Wrappers
  import opened Market

  datatype Policy = Conservative | Optimistic

  datatype Direction = Buy | Sell | Hold

  datatype ExitReason = TakeProfit | StopLoss | EndOfData

  datatype Event = EntryNextBarOpen | BreakevenPending | BreakevenActive | GapExit | Exit(reason: ExitReason)

  datatype Outcome = Win | Loss | Breakeven

  datatype Error =
    | PlanNotApproved
    | PlanNotPositive
    | PlanWithoutDirection
    | WrongExitSide
    | InvalidBar
    | NotChronological
    | NoFutureBars
    | AlreadyClosed
    | NeverFilled

  /** Costs in account currency; only values that pass the constructor's checks. */
  datatype RawEconomics = Economics(
    tickSize: real, tickValue: real, spreadPoints: real, slippagePoints: real,
    commissionPerTrade: real, commissionPerLot: real)
  {
    predicate Valid() {
      && tickSize > 0.0 && tickValue > 0.0
      && spreadPoints >= 0.0 && slippagePoints >= 0.0
      && commissionPerTrade >= 0.0 && commissionPerLot >= 0.0
    }

    /** The adverse price move charged to every market fill. */
    function Slippage(): real {
      slippagePoints * tickSize
    }
  }

  type Economics = e: RawEconomics | e.Valid() witness Economics(1.0, 1.0, 0.0, 0.0, 0.0, 0.0)

  datatype Config = Config(policy: Policy, economics: Economics, breakevenEnabled: bool, recenter: bool)

  datatype TradePlan = TradePlan(
    direction: Direction, approved: bool, entry: real, stop: real, target: real, size: real)

  datatype PriceState = PriceState(
    isBuy: bool, entry: real, originalStop: real, takeProfit: real, currentStop: real,
    holdingBars: nat, highest: real, lowest: real, mfe: real, mae: real,
    breakevenTriggered: bool, breakevenPending: bool, events: seq<Event>)

  datatype ExitDecision = ExitDecision(price: real, reason: ExitReason, slips: bool, gap: bool)

  datatype Trade = Trade(
    observedAt: int, entryTime: int, exitTime: int, isBuy: bool,
    entry: real, stop: real, target: real, exit: real, reason: ExitReason, size: real,
    gross: real, spreadCost: real, commission: real, net: real, slippageCost: real,
    grossR: real, netR: real, monetaryRisk: real, outcome: Outcome, holdingBars: nat, mfe: real, mae: real,
    highest: real, lowest: real, breakevenTriggered: bool, events: seq<Event>)

  datatype Simulation =
    | Pending(plan: TradePlan, observation: Bar)
    | Open(plan: TradePlan, observation: Bar, fill: Bar, last: Bar, state: PriceState)
    | Closed(plan: TradePlan, observation: Bar, fill: Bar, last: Bar, state: PriceState, trade: Trade)

  // ----- entry -----

  predicate ExitSideHolds(isBuy: bool, entry: real, stop: real, target: real) {
    if isBuy then stop < entry < target else target < entry < stop
  }

  function PlanError(plan: TradePlan): Option<Error> {
    if !plan.approved then Some(PlanNotApproved)
    else if plan.size <= 0.0 || plan.entry <= 0.0 || plan.stop <= 0.0 || plan.target <= 0.0 then Some(PlanNotPositive)
    else if plan.direction.Hold? then Some(PlanWithoutDirection)
    else if !ExitSideHolds(plan.direction.Buy?, plan.entry, plan.stop, plan.target) then Some(WrongExitSide)
    else None
  }

  function Begin(plan: TradePlan, observation: Bar): Result<Simulation, Error> {
    match PlanError(plan)
    case Some(e) => Err(e)
    case None => if ValidBar(observation) then Ok(Pending(plan, observation)) else Err(InvalidBar)
  }

  /** Stop and target: moved with the fill so that the approved distances are kept, or left as planned. */
  function ExitLevels(cfg: Config, plan: TradePlan, reference: real): (real, real) {
    if !cfg.recenter then (plan.stop, plan.target)
    else if plan.direction.Buy? then
      (reference - (plan.entry - plan.stop), reference + (plan.target - plan.entry))
    else
      (reference + (plan.stop - plan.entry), reference - (plan.entry - plan.target))
  }

  function EntryPrice(cfg: Config, plan: TradePlan, fill: Bar): real {
    if plan.direction.Buy? then fill.open + cfg.economics.Slippage() else fill.open - cfg.economics.Slippage()
  }

  function OpenState(cfg: Config, plan: TradePlan, fill: Bar): PriceState {
    var entry := EntryPrice(cfg, plan, fill);
    var (stop, target) := ExitLevels(cfg, plan, fill.open);
    PriceState(plan.direction.Buy?, entry, stop, target, stop, 0, entry, entry, 0.0, 0.0, false, false, [EntryNextBarOpen])
  }

  // ----- one bar of an open trade -----

  /** A breakeven move armed by an earlier bar takes effect before the bar is examined. */
  function ActivateBreakeven(s: PriceState): PriceState {
    if s.breakevenPending then
      s.(currentStop := s.entry, breakevenTriggered := true, breakevenPending := false,
         events := s.events + [BreakevenActive])
    else s
  }

  /** Gaps at the open come first; a bar that touches both levels is settled by the policy. */
  function ResolveBarExit(policy: Policy, s: PriceState, bar: Bar): Option<ExitDecision> {
    var gapStop := if s.isBuy then bar.open <= s.currentStop else bar.open >= s.currentStop;
    var gapTarget := if s.isBuy then bar.open >= s.takeProfit else bar.open <= s.takeProfit;
    var stopHit := if s.isBuy then bar.low <= s.currentStop else bar.high >= s.currentStop;
    var targetHit := if s.isBuy then bar.high >= s.takeProfit else bar.low <= s.takeProfit;
    if gapStop then Some(ExitDecision(bar.open, StopLoss, true, true))
    else if gapTarget then Some(ExitDecision(s.takeProfit, TakeProfit, false, true))
    else if stopHit && (!targetHit || policy.Conservative?) then Some(ExitDecision(s.currentStop, StopLoss, true, false))
    else if targetHit then Some(ExitDecision(s.takeProfit, TakeProfit, false, false))
    else None
  }

  /** The part of the bar's range, as (high, low), that the trade lived through. */
  function ObservedRange(s: PriceState, bar: Bar, d: Option<ExitDecision>): (real, real) {
    match d
    case None => (bar.high, bar.low)
    case Some(e) =>
      if e.gap then (bar.open, bar.open)
      else if e.reason.StopLoss? == s.isBuy then
        (Max(bar.open, s.entry), e.price)
      else (e.price, Min(bar.open, s.entry))
  }

  function UpdateExcursions(s: PriceState, bar: Bar, d: Option<ExitDecision>): PriceState {
    var (high, low) := ObservedRange(s, bar, d);
    var highest := Max(s.highest, high);
    var lowest := Min(s.lowest, low);
    s.(highest := highest, lowest := lowest,
       mfe := Max(s.mfe, if s.isBuy then highest - s.entry else s.entry - lowest),
       mae := Max(s.mae, if s.isBuy then s.entry - lowest else highest - s.entry))
  }

  predicate ReachesBreakeven(s: PriceState, bar: Bar) {
    var risk := Abs(s.entry - s.originalStop);
    risk > 0.0 && if s.isBuy then bar.high >= s.entry + risk else bar.low <= s.entry - risk
  }

  function ArmBreakeven(cfg: Config, s: PriceState, bar: Bar): PriceState {
    if cfg.breakevenEnabled && !s.breakevenTriggered && !s.breakevenPending && ReachesBreakeven(s, bar) then
      s.(breakevenPending := true, events := s.events + [BreakevenPending])
    else s
  }

  function RecordExit(s: PriceState, d: ExitDecision): PriceState {
    s.(events := s.events + (if d.gap then [GapExit] else []) + [Exit(d.reason)])
  }

  /** What one more bar does to a filled trade; `plan`, `observation` and `fill` are carried along. */
  function Advance(cfg: Config, plan: TradePlan, observation: Bar, fill: Bar, s: PriceState, bar: Bar): Simulation {
    var active := ActivateBreakeven(s.(holdingBars := s.holdingBars + 1));
    var decision := ResolveBarExit(cfg.policy, active, bar);
    var seen := UpdateExcursions(active, bar, decision);
    match decision
    case None => Open(plan, observation, fill, bar, ArmBreakeven(cfg, seen, bar))
    case Some(d) =>
      var final := RecordExit(seen, d);
      Closed(plan, observation, fill, bar, final, Complete(cfg.economics, plan, observation, fill, bar, final, d))
  }

  // ----- profit and loss -----

  function Money(e: Economics, distance: real, size: real): real {
    distance / e.tickSize * e.tickValue * size
  }

  function Directed(isBuy: bool, from: real, to: real): real {
    if isBuy then to - from else from - to
  }

  function ExitPrice(e: Economics, isBuy: bool, d: ExitDecision): real {
    if !d.slips then d.price
    else if isBuy then d.price - e.Slippage()
    else d.price + e.Slippage()
  }

  function SpreadCost(e: Economics, size: real): real {
    e.spreadPoints * e.tickValue * size
  }

  function Commission(e: Economics, size: real): real {
    e.commissionPerTrade + e.commissionPerLot * size
  }

  /** What the adverse part of the fills cost; a favourable total costs nothing. */
  function SlippageCost(e: Economics, adverse: real, size: real): real {
    Max(0.0, adverse / e.tickSize) * e.tickValue * size
  }

  function RMultiple(move: real, risk: real): real {
    if risk > 0.0 then move / risk else 0.0
  }

  function Classify(e: Economics, net: real, size: real): Outcome {
    var tolerance := Max(0.000000000001, e.tickValue * size * 0.000000001);
    if Abs(net) <= tolerance then Breakeven
    else if net > 0.0 then Win
    else Loss
  }

  function Complete(
    e: Economics, plan: TradePlan, observation: Bar, fill: Bar, last: Bar, s: PriceState, d: ExitDecision): Trade
  {
    var exit := ExitPrice(e, s.isBuy, d);
    var move := Directed(s.isBuy, s.entry, exit);
    var gross := Money(e, move, plan.size);
    var spreadCost, commission := SpreadCost(e, plan.size), Commission(e, plan.size);
    var net := gross - spreadCost - commission;
    var risk := Abs(s.entry - s.originalStop);
    var monetaryRisk := Money(e, risk, plan.size);
    var adverse := Directed(s.isBuy, fill.open, s.entry) + Directed(s.isBuy, exit, d.price);
    Trade(observation.timestamp, fill.timestamp, last.timestamp, s.isBuy,
          s.entry, s.originalStop, s.takeProfit, exit, d.reason, plan.size,
          gross, spreadCost, commission, net, SlippageCost(e, adverse, plan.size),
          RMultiple(move, risk), RMultiple(net, monetaryRisk), monetaryRisk,
          Classify(e, net, plan.size), s.holdingBars, s.mfe, s.mae,
          s.highest, s.lowest, s.breakevenTriggered, s.events)
  }

  // ----- whole runs -----

  function LastSeen(sim: Simulation): int {
    if sim.Pending? then sim.observation.timestamp else sim.last.timestamp
  }

  function ProcessBar(cfg: Config, sim: Simulation, bar: Bar): Result<Simulation, Error> {
    if sim.Closed? then Err(AlreadyClosed)
    else if !ValidBar(bar) then Err(InvalidBar)
    else if bar.timestamp <= LastSeen(sim) then Err(NotChronological)
    else if sim.Open? then Ok(Advance(cfg, sim.plan, sim.observation, sim.fill, sim.state, bar))
    else
      var s := OpenState(cfg, sim.plan, bar);
      if ExitSideHolds(s.isBuy, s.entry, s.originalStop, s.takeProfit)
      then Ok(Advance(cfg, sim.plan, sim.observation, bar, s, bar))
      else Err(WrongExitSide)
  }

  function EndOfDataDecision(last: Bar): ExitDecision {
    ExitDecision(last.close, EndOfData, true, false)
  }

  function Finalize(cfg: Config, sim: Simulation): Result<Simulation, Error> {
    match sim
    case Pending(_, _) => Err(NeverFilled)
    case Closed(_, _, _, _, _, _) => Ok(sim)
    case Open(plan, observation, fill, last, s) =>
      var final := RecordExit(s, EndOfDataDecision(last));
      Ok(Closed(plan, observation, fill, last, final,
                Complete(cfg.economics, plan, observation, fill, last, final, EndOfDataDecision(last))))
  }

  /** Feeds bars until the trade closes or a bar is refused. */
  function Run(cfg: Config, sim: Simulation, bars: seq<Bar>): Result<Simulation, Error>
    decreases |bars|
  {
    if bars == [] || sim.Closed? then Ok(sim)
    else
      match ProcessBar(cfg, sim, bars[0])
      case Err(e) => Err(e)
      case Ok(next) => Run(cfg, next, bars[1..])
  }

  /** The first complaint about a bar list that must follow `previous`. */
  function BarsError(previous: int, bars: seq<Bar>): Option<Error>
    decreases |bars|
  {
    if bars == [] then None
    else if !ValidBar(bars[0]) then Some(InvalidBar)
    else if bars[0].timestamp <= previous then Some(NotChronological)
    else BarsError(bars[0].timestamp, bars[1..])
  }

  function InputsError(plan: TradePlan, entryBar: Bar, bars: seq<Bar>): Option<Error> {
    if PlanError(plan).Some? then PlanError(plan)
    else if bars == [] then Some(NoFutureBars)
    else if !ValidBar(entryBar) then Some(InvalidBar)
    else BarsError(entryBar.timestamp, bars)
  }

  /** The whole batch: check every input, open, feed the bars, close at the end of the data. */
  function Simulate(cfg: Config, plan: TradePlan, entryBar: Bar, bars: seq<Bar>): Result<Simulation, Error> {
    match InputsError(plan, entryBar, bars)
    case Some(e) => Err(e)
    case None =>
      match Run(cfg, Pending(plan, entryBar), bars)
      case Err(e) => Err(e)
      case Ok(sim) => Finalize(cfg, sim)
  }
}

/** Turning the price axis upside down turns every run into its mirror image. */
module TradeReflection {
  import opened Wrappers
  import opened Market
  import opened TradeLifecycle

  /** The reflection of a price about `axis / 2`. */
  function Flip(axis: real, price: real): real {
    axis - price
  }

  function FlipBar(axis: real, b: Bar): Bar {
    Bar(b.timestamp, Flip(axis, b.open), Flip(axis, b.low), Flip(axis, b.high), Flip(axis, b.close))
  }

  function FlipBars(axis: real, bars: seq<Bar>): seq<Bar> {
    seq(|bars|, i requires 0 <= i < |bars| => FlipBar(axis, bars[i]))
  }

  function FlipDirection(d: Direction): Direction {
    match d
    case Buy => Sell
    case Sell => Buy
    case Hold => Hold
  }

  function FlipPlan(axis: real, p: TradePlan): TradePlan {
    TradePlan(FlipDirection(p.direction), p.approved, Flip(axis, p.entry), Flip(axis, p.stop), Flip(axis, p.target), p.size)
  }

  function FlipState(axis: real, s: PriceState): PriceState {
    s.(isBuy := !s.isBuy, entry := Flip(axis, s.entry), originalStop := Flip(axis, s.originalStop),
       takeProfit := Flip(axis, s.takeProfit), currentStop := Flip(axis, s.currentStop),
       highest := Flip(axis, s.lowest), lowest := Flip(axis, s.highest))
  }

  function FlipDecision(axis: real, d: ExitDecision): ExitDecision {
    d.(price := Flip(axis, d.price))
  }

  function FlipMaybe(axis: real, d: Option<ExitDecision>): Option<ExitDecision> {
    if d.None? then None else Some(FlipDecision(axis, d.value))
  }

  /** Only the direction and the price levels change: times, money, ratios, excursions and events stay. */
  function FlipTrade(axis: real, t: Trade): Trade {
    t.(isBuy := !t.isBuy, entry := Flip(axis, t.entry), stop := Flip(axis, t.stop), target := Flip(axis, t.target),
       exit := Flip(axis, t.exit), highest := Flip(axis, t.lowest), lowest := Flip(axis, t.highest))
  }

  function FlipSimulation(axis: real, sim: Simulation): Simulation {
    match sim
    case Pending(p, o) => Pending(FlipPlan(axis, p), FlipBar(axis, o))
    case Open(p, o, f, l, s) => Open(FlipPlan(axis, p), FlipBar(axis, o), FlipBar(axis, f), FlipBar(axis, l), FlipState(axis, s))
    case Closed(p, o, f, l, s, t) =>
      Closed(FlipPlan(axis, p), FlipBar(axis, o), FlipBar(axis, f), FlipBar(axis, l), FlipState(axis, s), FlipTrade(axis, t))
  }

  function FlipResult(axis: real, r: Result<Simulation, Error>): Result<Simulation, Error> {
    match r
    case Ok(sim) => Ok(FlipSimulation(axis, sim))
    case Err(e) => Err(e)
  }

  // ----- the pieces of one step commute with the reflection -----

  lemma ResolveCommutes(axis: real, policy: Policy, s: PriceState, bar: Bar)
    ensures ResolveBarExit(policy, FlipState(axis, s), FlipBar(axis, bar)) == FlipMaybe(axis, ResolveBarExit(policy, s, bar))
  {
  }

  lemma ExcursionsCommute(axis: real, s: PriceState, bar: Bar, d: Option<ExitDecision>)
    requires d.Some? ==> !d.value.reason.EndOfData?
    ensures UpdateExcursions(FlipState(axis, s), FlipBar(axis, bar), FlipMaybe(axis, d))
         == FlipState(axis, UpdateExcursions(s, bar, d))
  {
  }

  lemma BreakevenCommutes(axis: real, cfg: Config, s: PriceState, bar: Bar)
    ensures ActivateBreakeven(FlipState(axis, s)) == FlipState(axis, ActivateBreakeven(s))
    ensures ArmBreakeven(cfg, FlipState(axis, s), FlipBar(axis, bar)) == FlipState(axis, ArmBreakeven(cfg, s, bar))
  {
  }

  lemma CompleteCommutes(
    axis: real, cfg: Config, plan: TradePlan, observation: Bar, fill: Bar, last: Bar, s: PriceState, d: ExitDecision)
    ensures Complete(cfg.economics, FlipPlan(axis, plan), FlipBar(axis, observation), FlipBar(axis, fill), FlipBar(axis, last),
                     FlipState(axis, s), FlipDecision(axis, d))
         == FlipTrade(axis, Complete(cfg.economics, plan, observation, fill, last, s, d))
  {
    hide Money, Classify, SpreadCost, Commission, SlippageCost, RMultiple;
    var flipped := ExitPrice(cfg.economics, !s.isBuy, FlipDecision(axis, d));
    var exit := ExitPrice(cfg.economics, s.isBuy, d);
    assert flipped == Flip(axis, exit);
    assert Directed(!s.isBuy, Flip(axis, s.entry), flipped) == Directed(s.isBuy, s.entry, exit);
    assert Directed(!s.isBuy, Flip(axis, fill.open), Flip(axis, s.entry)) == Directed(s.isBuy, fill.open, s.entry);
    assert Directed(!s.isBuy, flipped, Flip(axis, d.price)) == Directed(s.isBuy, exit, d.price);
    assert Abs(Flip(axis, s.entry) - Flip(axis, s.originalStop)) == Abs(s.entry - s.originalStop);
  }

  lemma AdvanceCommutes(
    axis: real, cfg: Config, plan: TradePlan, observation: Bar, fill: Bar, s: PriceState, bar: Bar)
    ensures Advance(cfg, FlipPlan(axis, plan), FlipBar(axis, observation), FlipBar(axis, fill), FlipState(axis, s), FlipBar(axis, bar))
         == FlipSimulation(axis, Advance(cfg, plan, observation, fill, s, bar))
  {
    hide Complete, FlipTrade, FlipPlan, FlipBar, ObservedRange, ReachesBreakeven;
    var stepped := s.(holdingBars := s.holdingBars + 1);
    var active := ActivateBreakeven(stepped);
    var decision := ResolveBarExit(cfg.policy, active, bar);
    var seen := UpdateExcursions(active, bar, decision);
    assert FlipState(axis, s).(holdingBars := s.holdingBars + 1) == FlipState(axis, stepped);
    BreakevenCommutes(axis, cfg, stepped, bar);
    ResolveCommutes(axis, cfg.policy, active, bar);
    ExcursionsCommute(axis, active, bar, decision);
    BreakevenCommutes(axis, cfg, seen, bar);
    if decision.Some? {
      assert RecordExit(FlipState(axis, seen), FlipDecision(axis, decision.value)) == FlipState(axis, RecordExit(seen, decision.value));
      CompleteCommutes(axis, cfg, plan, observation, fill, bar, RecordExit(seen, decision.value), decision.value);
    }
    hide ResolveBarExit, UpdateExcursions, ActivateBreakeven, ArmBreakeven, RecordExit, FlipState;
  }

  // ----- whole runs -----

  /** Positive prices that stay positive when reflected; every finite set of positive prices has such an axis. */
  predicate Fits(axis: real, b: Bar) {
    && 0.0 < b.open < axis && 0.0 < b.high < axis && 0.0 < b.low < axis && 0.0 < b.close < axis
  }

  predicate PlanFits(axis: real, p: TradePlan) {
    0.0 < p.entry < axis && 0.0 < p.stop < axis && 0.0 < p.target < axis
  }

  lemma ValidationCommutes(axis: real, plan: TradePlan, bar: Bar)
    requires Fits(axis, bar) && PlanFits(axis, plan)
    ensures ValidBar(FlipBar(axis, bar)) == ValidBar(bar)
    ensures PlanError(FlipPlan(axis, plan)) == PlanError(plan)
  {
  }

  lemma OpenCommutes(axis: real, cfg: Config, plan: TradePlan, fill: Bar)
    requires !plan.direction.Hold?
    ensures OpenState(cfg, FlipPlan(axis, plan), FlipBar(axis, fill)) == FlipState(axis, OpenState(cfg, plan, fill))
  {
  }

  lemma ProcessBarCommutes(axis: real, cfg: Config, sim: Simulation, bar: Bar)
    requires Fits(axis, bar) && PlanFits(axis, sim.plan) && !sim.plan.direction.Hold?
    ensures ProcessBar(cfg, FlipSimulation(axis, sim), FlipBar(axis, bar)) == FlipResult(axis, ProcessBar(cfg, sim, bar))
    ensures ProcessBar(cfg, sim, bar).Ok? ==> ProcessBar(cfg, sim, bar).value.plan == sim.plan
  {
    ValidationCommutes(axis, sim.plan, bar);
    OpenCommutes(axis, cfg, sim.plan, bar);
    if sim.Open? {
      AdvanceCommutes(axis, cfg, sim.plan, sim.observation, sim.fill, sim.state, bar);
    } else if sim.Pending? {
      AdvanceCommutes(axis, cfg, sim.plan, sim.observation, bar, OpenState(cfg, sim.plan, bar), bar);
    }
    assert sim.Open? ==> Advance(cfg, sim.plan, sim.observation, sim.fill, sim.state, bar).plan == sim.plan;
    assert sim.Pending? ==> Advance(cfg, sim.plan, sim.observation, bar, OpenState(cfg, sim.plan, bar), bar).plan == sim.plan;
    hide Advance, ValidBar, OpenState, FlipPlan;
  }

  lemma {:induction false} RunCommutes(axis: real, cfg: Config, sim: Simulation, bars: seq<Bar>)
    requires forall b <- bars :: Fits(axis, b)
    requires PlanFits(axis, sim.plan) && !sim.plan.direction.Hold?
    ensures Run(cfg, FlipSimulation(axis, sim), FlipBars(axis, bars)) == FlipResult(axis, Run(cfg, sim, bars))
    decreases |bars|
  {
    hide ProcessBar, FlipPlan, FlipBar, FlipState, FlipTrade, Fits, PlanFits;
    if bars != [] && !sim.Closed? {
      ProcessBarCommutes(axis, cfg, sim, bars[0]);
      assert FlipBars(axis, bars)[1..] == FlipBars(axis, bars[1..]);
      match ProcessBar(cfg, sim, bars[0])
      case Err(e) =>
      case Ok(next) => RunCommutes(axis, cfg, next, bars[1..]);
    }
  }

  lemma {:induction false} BarsErrorCommutes(axis: real, previous: int, bars: seq<Bar>, plan: TradePlan)
    requires PlanFits(axis, plan) && forall b <- bars :: Fits(axis, b)
    ensures BarsError(previous, FlipBars(axis, bars)) == BarsError(previous, bars)
    decreases |bars|
  {
    if bars != [] {
      ValidationCommutes(axis, plan, bars[0]);
      assert FlipBars(axis, bars)[1..] == FlipBars(axis, bars[1..]);
      BarsErrorCommutes(axis, bars[0].timestamp, bars[1..], plan);
    }
  }

  lemma FinalizeCommutes(axis: real, cfg: Config, sim: Simulation)
    ensures Finalize(cfg, FlipSimulation(axis, sim)) == FlipResult(axis, Finalize(cfg, sim))
  {
    if sim.Open? {
      var d := EndOfDataDecision(sim.last);
      assert EndOfDataDecision(FlipBar(axis, sim.last)) == FlipDecision(axis, d);
      assert RecordExit(FlipState(axis, sim.state), FlipDecision(axis, d)) == FlipState(axis, RecordExit(sim.state, d));
      CompleteCommutes(axis, cfg, sim.plan, sim.observation, sim.fill, sim.last, RecordExit(sim.state, d), d);
    }
    hide Complete, FlipTrade, FlipPlan, FlipBar, FlipState, RecordExit, EndOfDataDecision;
  }

  /** A buy on the data is a sell on the reflected data: same exit bar, reason, events, excursions and money. */
  lemma ReflectionSymmetry(axis: real, cfg: Config, plan: TradePlan, entryBar: Bar, bars: seq<Bar>)
    requires PlanFits(axis, plan) && Fits(axis, entryBar) && forall b <- bars :: Fits(axis, b)
    ensures Simulate(cfg, FlipPlan(axis, plan), FlipBar(axis, entryBar), FlipBars(axis, bars))
         == FlipResult(axis, Simulate(cfg, plan, entryBar, bars))
  {
    ValidationCommutes(axis, plan, entryBar);
    BarsErrorCommutes(axis, entryBar.timestamp, bars, plan);
    if InputsError(plan, entryBar, bars).None? {
      RunCommutes(axis, cfg, Pending(plan, entryBar), bars);
      var result := Run(cfg, Pending(plan, entryBar), bars);
      if result.Ok? {
        FinalizeCommutes(axis, cfg, result.value);
      }
    }
    hide Run, Finalize, ValidBar, FlipPlan;
  }
}

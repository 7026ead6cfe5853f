/** What every simulated trade keeps, from its fill to its exit. */
module TradeSafety {
  import opened Wrappers
  import opened Market
  import opened TradeLifecycle

  // ----- invariants -----

  /** The events recorded before the exit. */
  function Prelude(s: PriceState): seq<Event> {
    [EntryNextBarOpen]
    + (if s.breakevenTriggered then [BreakevenPending, BreakevenActive]
       else if s.breakevenPending then [BreakevenPending]
       else [])
  }

  /** True from the moment of the fill: the stop is the original one or the entry price. */
  predicate Sound(cfg: Config, s: PriceState) {
    && ExitSideHolds(s.isBuy, s.entry, s.originalStop, s.takeProfit)
    && s.currentStop == (if s.breakevenTriggered then s.entry else s.originalStop)
    && !(s.breakevenPending && s.breakevenTriggered)
    && (s.breakevenPending || s.breakevenTriggered ==> cfg.breakevenEnabled)
    && s.lowest <= s.entry <= s.highest
    && s.mfe == (if s.isBuy then s.highest - s.entry else s.entry - s.lowest)
    && s.mae == (if s.isBuy then s.entry - s.lowest else s.highest - s.entry)
    && s.events == Prelude(s)
  }

  /** The stop and target levels as (lower, upper). */
  function Levels(s: PriceState, stop: real): (real, real) {
    if s.isBuy then (stop, s.takeProfit) else (s.takeProfit, stop)
  }

  /** Everything seen so far lies strictly between the original stop and the target. */
  predicate Contained(s: PriceState) {
    var (lower, upper) := Levels(s, s.originalStop);
    lower < s.lowest && s.highest < upper
  }

  /** The whole of a bar lies strictly between the levels in force, and its range has been recorded. */
  predicate Survived(s: PriceState, bar: Bar) {
    var (lower, upper) := Levels(s, s.currentStop);
    && lower < bar.low && bar.high < upper
    && s.lowest <= bar.low && bar.high <= s.highest
  }

  /** The exit price against the two levels; `stop` is the stop in force at the exit. */
  predicate ExitBounded(cfg: Config, t: Trade) {
    var slip := cfg.economics.Slippage();
    var stop := if t.breakevenTriggered then t.entry else t.stop;
    && Directed(t.isBuy, t.exit, t.target) >= 0.0
    && (t.exit == t.target <==> t.reason.TakeProfit?)
    && (GapExit !in t.events ==> Directed(t.isBuy, stop, t.exit) >= -slip)
  }

  function Tail(reason: ExitReason, gap: bool): seq<Event> {
    (if gap then [GapExit] else []) + [Exit(reason)]
  }

  /** ENTRY (PENDING ACTIVE)? GAP? (STOP | TARGET), or ENTRY (PENDING ACTIVE?)? END_OF_DATA. */
  predicate InLifecycleLanguage(t: Trade) {
    var entry := [EntryNextBarOpen];
    var armed := [EntryNextBarOpen, BreakevenPending];
    var moved := [EntryNextBarOpen, BreakevenPending, BreakevenActive];
    && (t.breakevenTriggered <==> moved <= t.events)
    && if t.reason.EndOfData? then
         || t.events == entry + Tail(EndOfData, false)
         || t.events == armed + Tail(EndOfData, false)
         || t.events == moved + Tail(EndOfData, false)
       else
         || t.events == entry + Tail(t.reason, false)
         || t.events == entry + Tail(t.reason, true)
         || t.events == moved + Tail(t.reason, false)
         || t.events == moved + Tail(t.reason, true)
  }

  /** The price at which the exit was triggered, before slippage. */
  function ExitReference(cfg: Config, t: Trade): real {
    if t.reason.TakeProfit? then t.exit
    else if t.isBuy then t.exit + cfg.economics.Slippage()
    else t.exit - cfg.economics.Slippage()
  }

  /** MFE and MAE are distances to the recorded extremes; no extreme beyond the exit is recorded. */
  predicate ExcursionsExact(cfg: Config, t: Trade) {
    && t.lowest <= t.entry <= t.highest
    && t.mfe == (if t.isBuy then t.highest - t.entry else t.entry - t.lowest)
    && t.mae == (if t.isBuy then t.entry - t.lowest else t.highest - t.entry)
    && t.lowest <= ExitReference(cfg, t) <= t.highest
    && (GapExit !in t.events ==> t.mfe <= Directed(t.isBuy, t.entry, t.target) && t.mae <= Directed(t.isBuy, t.stop, t.entry))
  }

  /** The spread costs what a price move of its width is worth; the commission is a fixed part and one for every lot. */
  predicate CostsCharged(e: Economics, size: real, spreadCost: real, commission: real) {
    && spreadCost == Money(e, e.spreadPoints * e.tickSize, size)
    && commission == e.commissionPerTrade + e.commissionPerLot * size
  }

  /** The gross result is what the reference prices would have earned, less the slippage charged. */
  predicate MoneyAccounted(cfg: Config, fillOpen: real, t: Trade) {
    var e := cfg.economics;
    && t.gross == Money(e, Directed(t.isBuy, t.entry, t.exit), t.size)
    && t.gross == Money(e, Directed(t.isBuy, fillOpen, ExitReference(cfg, t)), t.size) - t.slippageCost
    && t.slippageCost == (if t.reason.TakeProfit? then 1.0 else 2.0) * e.slippagePoints * e.tickValue * t.size
    && CostsCharged(e, t.size, t.spreadCost, t.commission) && t.net == t.gross - t.spreadCost - t.commission
  }

  /** The result is a breakeven up to a tolerance of a billionth of a tick's value, and otherwise has its sign. */
  predicate Classified(cfg: Config, t: Trade) {
    var unit := cfg.economics.tickValue * t.size;
    && (t.outcome == Win <==> t.net > 0.000000000001 && t.net > unit * 0.000000001)
    && (t.outcome == Loss <==> t.net < -0.000000000001 && t.net < -(unit * 0.000000001))
  }

  /** An exit at the stop is priced by the stop in force, or by the open of a bar that opened beyond it; the end of
      the data by the close of the last bar. */
  predicate ExitPriced(cfg: Config, last: Bar, t: Trade) {
    && (t.reason.StopLoss? && GapExit !in t.events ==>
          ExitReference(cfg, t) == if t.breakevenTriggered then t.entry else t.stop)
    && (t.reason.StopLoss? && GapExit in t.events ==> ExitReference(cfg, t) == last.open)
    && (t.reason.EndOfData? ==> ExitReference(cfg, t) == last.close)
  }

  /** `fill` is the bar of the entry and `last` that of the exit. */
  predicate TradeSound(cfg: Config, fill: Bar, last: Bar, t: Trade) {
    && ExitSideHolds(t.isBuy, t.entry, t.stop, t.target)
    && ExitBounded(cfg, t) && ExitPriced(cfg, last, t)
    && InLifecycleLanguage(t)
    && ExcursionsExact(cfg, t)
    && MoneyAccounted(cfg, fill.open, t) && Classified(cfg, t)
  }

  predicate SimulationSound(cfg: Config, sim: Simulation) {
    match sim
    case Pending(plan, observation) => PlanError(plan).None?
    case Open(plan, observation, fill, last, s) =>
      && PlanError(plan).None? && Sound(cfg, s) && Contained(s) && Survived(s, last) && ValidBar(last)
      && s.isBuy == plan.direction.Buy? && s.entry == EntryPrice(cfg, plan, fill)
      && (s.originalStop, s.takeProfit) == ExitLevels(cfg, plan, fill.open)
      && observation.timestamp < fill.timestamp <= last.timestamp
    case Closed(plan, observation, fill, last, s, t) =>
      && PlanError(plan).None? && TradeSound(cfg, fill, last, t)
      && t.isBuy == plan.direction.Buy? && t.entry == EntryPrice(cfg, plan, fill) && t.size == plan.size
      && (t.stop, t.target) == ExitLevels(cfg, plan, fill.open)
      && observation.timestamp < fill.timestamp <= last.timestamp
      && t.observedAt == observation.timestamp && t.entryTime == fill.timestamp && t.exitTime == last.timestamp
  }

  // ----- one step -----

  lemma MoneyCancels(e: Economics, points: real, size: real)
    ensures Money(e, points * e.tickSize, size) == points * e.tickValue * size
  {
    assert points * e.tickSize / e.tickSize == points;
  }

  lemma MoneyAdds(e: Economics, x: real, y: real, size: real)
    ensures Money(e, x + y, size) == Money(e, x, size) + Money(e, y, size)
  {
    assert (x + y) / e.tickSize == x / e.tickSize + y / e.tickSize;
  }

  lemma MoneyMonotone(e: Economics, x: real, y: real, size: real)
    requires size > 0.0
    ensures x <= y <==> Money(e, x, size) <= Money(e, y, size)
    ensures x < y <==> Money(e, x, size) < Money(e, y, size)
  {
    var v := e.tickValue * size;
    assert forall d: real :: Money(e, d, size) == d / e.tickSize * v;
    if x < y {
      assert x / e.tickSize < y / e.tickSize;
    } else {
      assert y / e.tickSize <= x / e.tickSize;
    }
  }

  /** The R multiples are the results measured in units of the money at risk. */
  lemma MultiplesMeasureRisk(
    e: Economics, plan: TradePlan, observation: Bar, fill: Bar, last: Bar, s: PriceState, d: ExitDecision)
    requires plan.size > 0.0 && s.entry != s.originalStop
    ensures var t := Complete(e, plan, observation, fill, last, s, d);
      && t.monetaryRisk > 0.0
      && t.grossR * t.monetaryRisk == t.gross && t.netR * t.monetaryRisk == t.net
  {
    hide Money, Directed, ExitPrice, Classify, SlippageCost, SpreadCost, Commission;
    var t := Complete(e, plan, observation, fill, last, s, d);
    var risk, move := Abs(s.entry - s.originalStop), Directed(s.isBuy, s.entry, t.exit);
    MoneyOfRisk(e, risk, plan.size);
    QuotientTimes(t.net, t.monetaryRisk);
    GrossInMultiples(e, move, risk, plan.size);
  }

  lemma MoneyOfRisk(e: Economics, risk: real, size: real)
    requires risk > 0.0 && size > 0.0
    ensures Money(e, risk, size) > 0.0
  {
    MoneyMonotone(e, 0.0, risk, size);
  }

  lemma GrossInMultiples(e: Economics, move: real, risk: real, size: real)
    requires risk != 0.0
    ensures move / risk * Money(e, risk, size) == Money(e, move, size)
  {
    MoneyScales(e, move / risk, risk, size);
    QuotientTimes(move, risk);
    hide Money;
    assert move / risk * risk == move;
  }

  lemma QuotientTimes(x: real, y: real)
    requires y != 0.0
    ensures x / y * y == x
  {
  }

  lemma MoneyScales(e: Economics, factor: real, distance: real, size: real)
    ensures Money(e, factor * distance, size) == factor * Money(e, distance, size)
  {
    var unit := e.tickValue * size / e.tickSize;
    assert Money(e, factor * distance, size) == (factor * distance) * unit;
    assert Money(e, distance, size) == distance * unit;
  }

  lemma ActivationKeepsSound(cfg: Config, s: PriceState)
    requires Sound(cfg, s) && Contained(s)
    ensures Sound(cfg, ActivateBreakeven(s)) && Contained(ActivateBreakeven(s)) && !ActivateBreakeven(s).breakevenPending
  {
  }

  /** A bar that does not exit leaves the trade unresolved and within its levels. */
  lemma SurvivalKeepsSound(cfg: Config, s: PriceState, bar: Bar)
    requires Sound(cfg, s) && Contained(s) && ValidBar(bar)
    requires ResolveBarExit(cfg.policy, s, bar).None?
    ensures var next := ArmBreakeven(cfg, UpdateExcursions(s, bar, None), bar);
      Sound(cfg, next) && Contained(next) && Survived(next, bar)
  {
  }

  /** The exit is appended to the prelude, which holds no gap and tells whether the stop was moved. */
  lemma ExitWord(cfg: Config, s: PriceState, d: ExitDecision)
    requires Sound(cfg, s)
    requires if d.reason.EndOfData? then !d.gap else !s.breakevenPending
    ensures var word := RecordExit(s, d).events;
      && word == Prelude(s) + Tail(d.reason, d.gap)
      && (GapExit in word <==> d.gap)
      && (s.breakevenTriggered <==> [EntryNextBarOpen, BreakevenPending, BreakevenActive] <= word)
  {
    var word := RecordExit(s, d).events;
    assert word == Prelude(s) + Tail(d.reason, d.gap);
    assert d.gap ==> Tail(d.reason, d.gap)[0] == GapExit;
    assert d.gap ==> word[|Prelude(s)|] == GapExit;
    assert !s.breakevenTriggered && !s.breakevenPending ==> word[1] != BreakevenPending;
    assert s.breakevenPending && |word| > 2 ==> word[2] != BreakevenActive;
    assert s.breakevenTriggered ==> word[..3] == [EntryNextBarOpen, BreakevenPending, BreakevenActive];
  }

  /** The trade record repeats the price fields of the final state and of the exit decision. */
  predicate Reports(cfg: Config, t: Trade, final: PriceState, d: ExitDecision) {
    && t.isBuy == final.isBuy && t.entry == final.entry && t.stop == final.originalStop
    && t.target == final.takeProfit && t.exit == ExitPrice(cfg.economics, final.isBuy, d) && t.reason == d.reason
    && t.mfe == final.mfe && t.mae == final.mae && t.highest == final.highest && t.lowest == final.lowest
    && t.breakevenTriggered == final.breakevenTriggered && t.events == final.events
  }

  /** `s` is the state in which a bar is examined and `d` the exit it calls for. */
  predicate BarExit(cfg: Config, s: PriceState, bar: Bar, d: ExitDecision) {
    && Sound(cfg, s) && Contained(s) && ValidBar(bar) && !s.breakevenPending
    && ResolveBarExit(cfg.policy, s, bar) == Some(d)
  }

  function AtExit(s: PriceState, bar: Bar, d: ExitDecision): PriceState {
    RecordExit(UpdateExcursions(s, bar, Some(d)), d)
  }

  lemma BarExitBounded(cfg: Config, s: PriceState, bar: Bar, d: ExitDecision, t: Trade)
    requires BarExit(cfg, s, bar, d) && Reports(cfg, t, AtExit(s, bar, d), d)
    ensures ExitBounded(cfg, t) && ExitPriced(cfg, bar, t)
  {
    ExitWord(cfg, UpdateExcursions(s, bar, Some(d)), d);
    assert cfg.economics.Slippage() >= 0.0;
  }

  lemma BarExitInLanguage(cfg: Config, s: PriceState, bar: Bar, d: ExitDecision, t: Trade)
    requires BarExit(cfg, s, bar, d) && Reports(cfg, t, AtExit(s, bar, d), d)
    ensures InLifecycleLanguage(t)
  {
    ExitWord(cfg, UpdateExcursions(s, bar, Some(d)), d);
  }

  lemma BarExitExcursions(cfg: Config, s: PriceState, bar: Bar, d: ExitDecision, t: Trade)
    requires BarExit(cfg, s, bar, d) && Reports(cfg, t, AtExit(s, bar, d), d)
    ensures ExcursionsExact(cfg, t)
  {
    ExitWord(cfg, UpdateExcursions(s, bar, Some(d)), d);
  }

  lemma EndOfDataSound(cfg: Config, s: PriceState, last: Bar, t: Trade)
    requires Sound(cfg, s) && Contained(s) && Survived(s, last) && ValidBar(last)
    requires Reports(cfg, t, RecordExit(s, EndOfDataDecision(last)), EndOfDataDecision(last))
    ensures ExitBounded(cfg, t) && ExitPriced(cfg, last, t) && InLifecycleLanguage(t) && ExcursionsExact(cfg, t)
  {
    ExitWord(cfg, s, EndOfDataDecision(last));
    assert cfg.economics.Slippage() >= 0.0;
  }

  lemma ExitAccountsForMoney(
    cfg: Config, plan: TradePlan, observation: Bar, fill: Bar, last: Bar, s: PriceState, d: ExitDecision)
    requires PlanError(plan).None? && s.isBuy == plan.direction.Buy? && s.entry == EntryPrice(cfg, plan, fill)
    requires d.slips == !d.reason.TakeProfit?
    ensures MoneyAccounted(cfg, fill.open, Complete(cfg.economics, plan, observation, fill, last, s, d))
  {
    CostsAreCharged(cfg.economics, plan.size);
    hide Money, RMultiple, Classify, SpreadCost, Commission, SlippageCost, PlanError, CostsCharged;
    var e := cfg.economics;
    var t := Complete(cfg.economics, plan, observation, fill, last, s, d);
    var reference, move := Directed(s.isBuy, fill.open, d.price), Directed(s.isBuy, s.entry, t.exit);
    var adverse := Directed(s.isBuy, fill.open, s.entry) + Directed(s.isBuy, t.exit, d.price);
    assert move + adverse == reference;
    MoneyAdds(e, move, adverse, plan.size);
    if d.slips {
      assert adverse == 2.0 * e.Slippage();
      SlippageMoney(e, 2.0, plan.size);
    } else {
      assert adverse == 1.0 * e.Slippage();
      SlippageMoney(e, 1.0, plan.size);
    }
  }

  lemma CostsAreCharged(e: Economics, size: real)
    ensures CostsCharged(e, size, SpreadCost(e, size), Commission(e, size))
  {
    MoneyCancels(e, e.spreadPoints, size);
  }

  lemma SlippageMoney(e: Economics, fills: real, size: real)
    requires fills >= 0.0
    ensures SlippageCost(e, fills * e.Slippage(), size) == Money(e, fills * e.Slippage(), size)
    ensures Money(e, fills * e.Slippage(), size) == fills * e.slippagePoints * e.tickValue * size
  {
    assert fills * e.Slippage() == (fills * e.slippagePoints) * e.tickSize;
    MoneyCancels(e, fills * e.slippagePoints, size);
    assert fills * e.Slippage() / e.tickSize == fills * e.slippagePoints;
  }

  predicate Carries(cfg: Config, plan: TradePlan, observation: Bar, fill: Bar, s: PriceState) {
    && PlanError(plan).None? && s.isBuy == plan.direction.Buy? && s.entry == EntryPrice(cfg, plan, fill)
    && (s.originalStop, s.takeProfit) == ExitLevels(cfg, plan, fill.open)
    && observation.timestamp < fill.timestamp
  }

  lemma CompletedKeepsSound(
    cfg: Config, plan: TradePlan, observation: Bar, fill: Bar, last: Bar, final: PriceState, d: ExitDecision, t: Trade)
    requires Carries(cfg, plan, observation, fill, final) && fill.timestamp <= last.timestamp
    requires d.slips == !d.reason.TakeProfit?
    requires t == Complete(cfg.economics, plan, observation, fill, last, final, d)
    requires ExitSideHolds(t.isBuy, t.entry, t.stop, t.target)
    requires ExitBounded(cfg, t) && ExitPriced(cfg, last, t) && InLifecycleLanguage(t) && ExcursionsExact(cfg, t)
    ensures SimulationSound(cfg, Closed(plan, observation, fill, last, final, t))
  {
    ExitAccountsForMoney(cfg, plan, observation, fill, last, final, d);
    ExitIsClassified(cfg, plan, observation, fill, last, final, d);
    hide MoneyAccounted, Classified, ExitPriced, Complete;
  }

  lemma ExitIsClassified(
    cfg: Config, plan: TradePlan, observation: Bar, fill: Bar, last: Bar, s: PriceState, d: ExitDecision)
    requires PlanError(plan).None?
    ensures Classified(cfg, Complete(cfg.economics, plan, observation, fill, last, s, d))
  {
    hide Money, Directed, ExitPrice, SlippageCost, SpreadCost, Commission, RMultiple;
    var t := Complete(cfg.economics, plan, observation, fill, last, s, d);
    assert t.outcome == Classify(cfg.economics, t.net, t.size) && t.size > 0.0;
    hide Complete, PlanError;
    assert cfg.economics.tickValue * t.size > 0.0;
  }

  lemma ExitKeepsSound(
    cfg: Config, plan: TradePlan, observation: Bar, fill: Bar, s: PriceState, bar: Bar, d: ExitDecision)
    requires Carries(cfg, plan, observation, fill, s) && fill.timestamp <= bar.timestamp && BarExit(cfg, s, bar, d)
    ensures var final := AtExit(s, bar, d);
      SimulationSound(cfg, Closed(plan, observation, fill, bar, final,
                                  Complete(cfg.economics, plan, observation, fill, bar, final, d)))
  {
    var final := AtExit(s, bar, d);
    var t := Complete(cfg.economics, plan, observation, fill, bar, final, d);
    BarExitBounded(cfg, s, bar, d, t);
    BarExitInLanguage(cfg, s, bar, d, t);
    BarExitExcursions(cfg, s, bar, d, t);
    CompletedKeepsSound(cfg, plan, observation, fill, bar, final, d, t);
  }

  lemma SurvivingKeepsSound(cfg: Config, plan: TradePlan, observation: Bar, fill: Bar, s: PriceState, bar: Bar)
    requires Carries(cfg, plan, observation, fill, s) && fill.timestamp <= bar.timestamp
    requires Sound(cfg, s) && Contained(s) && ValidBar(bar) && ResolveBarExit(cfg.policy, s, bar).None?
    ensures SimulationSound(cfg, Open(plan, observation, fill, bar, ArmBreakeven(cfg, UpdateExcursions(s, bar, None), bar)))
  {
    SurvivalKeepsSound(cfg, s, bar);
  }

  lemma SteppingKeepsSound(cfg: Config, plan: TradePlan, observation: Bar, fill: Bar, s: PriceState)
    requires Carries(cfg, plan, observation, fill, s) && Sound(cfg, s) && Contained(s)
    ensures var active := ActivateBreakeven(s.(holdingBars := s.holdingBars + 1));
      Carries(cfg, plan, observation, fill, active) && Sound(cfg, active) && Contained(active) && !active.breakevenPending
  {
    var stepped := s.(holdingBars := s.holdingBars + 1);
    assert Prelude(stepped) == Prelude(s);
    ActivationKeepsSound(cfg, stepped);
  }

  lemma AdvanceKeepsSound(cfg: Config, plan: TradePlan, observation: Bar, fill: Bar, s: PriceState, bar: Bar)
    requires Carries(cfg, plan, observation, fill, s) && Sound(cfg, s) && Contained(s)
    requires ValidBar(bar) && fill.timestamp <= bar.timestamp
    ensures SimulationSound(cfg, Advance(cfg, plan, observation, fill, s, bar))
  {
    hide SimulationSound, Complete, ArmBreakeven, UpdateExcursions, Sound, Contained, Carries, ResolveBarExit, ActivateBreakeven, ValidBar;
    SteppingKeepsSound(cfg, plan, observation, fill, s);
    var active := ActivateBreakeven(s.(holdingBars := s.holdingBars + 1));
    match ResolveBarExit(cfg.policy, active, bar)
    case None =>
      SurvivingKeepsSound(cfg, plan, observation, fill, active, bar);
      assert Advance(cfg, plan, observation, fill, s, bar)
          == Open(plan, observation, fill, bar, ArmBreakeven(cfg, UpdateExcursions(active, bar, None), bar));
    case Some(d) =>
      ExitKeepsSound(cfg, plan, observation, fill, active, bar, d);
      var final := AtExit(active, bar, d);
      assert Advance(cfg, plan, observation, fill, s, bar)
          == Closed(plan, observation, fill, bar, final, Complete(cfg.economics, plan, observation, fill, bar, final, d));
  }

  // ----- whole runs -----

  lemma ProcessBarKeepsSound(cfg: Config, sim: Simulation, bar: Bar)
    requires SimulationSound(cfg, sim) && ProcessBar(cfg, sim, bar).Ok?
    ensures SimulationSound(cfg, ProcessBar(cfg, sim, bar).value)
  {
    if sim.Open? {
      AdvanceKeepsSound(cfg, sim.plan, sim.observation, sim.fill, sim.state, bar);
    } else {
      AdvanceKeepsSound(cfg, sim.plan, sim.observation, bar, OpenState(cfg, sim.plan, bar), bar);
    }
  }

  lemma FinalizeKeepsSound(cfg: Config, sim: Simulation)
    requires SimulationSound(cfg, sim) && Finalize(cfg, sim).Ok?
    ensures Finalize(cfg, sim).value.Closed? && SimulationSound(cfg, Finalize(cfg, sim).value)
  {
    if sim.Open? {
      var d := EndOfDataDecision(sim.last);
      var final := RecordExit(sim.state, d);
      EndOfDataSound(cfg, sim.state, sim.last, Complete(cfg.economics, sim.plan, sim.observation, sim.fill, sim.last, final, d));
      CompletedKeepsSound(cfg, sim.plan, sim.observation, sim.fill, sim.last, final, d,
                          Complete(cfg.economics, sim.plan, sim.observation, sim.fill, sim.last, final, d));
    }
  }

  lemma {:induction false} RunKeepsSound(cfg: Config, sim: Simulation, bars: seq<Bar>)
    requires SimulationSound(cfg, sim) && Run(cfg, sim, bars).Ok?
    ensures SimulationSound(cfg, Run(cfg, sim, bars).value)
    decreases |bars|
  {
    if bars != [] && !sim.Closed? {
      ProcessBarKeepsSound(cfg, sim, bars[0]);
      RunKeepsSound(cfg, ProcessBar(cfg, sim, bars[0]).value, bars[1..]);
    }
  }

  lemma {:induction false} RunKeepsPlan(cfg: Config, sim: Simulation, bars: seq<Bar>)
    requires Run(cfg, sim, bars).Ok?
    ensures Run(cfg, sim, bars).value.plan == sim.plan && Run(cfg, sim, bars).value.observation == sim.observation
    decreases |bars|
  {
    if bars != [] && !sim.Closed? {
      RunKeepsPlan(cfg, ProcessBar(cfg, sim, bars[0]).value, bars[1..]);
    }
  }

  /** Every simulated trade, whatever the plan, the bars and the policy, is sound. */
  lemma EveryTradeIsSound(cfg: Config, plan: TradePlan, entryBar: Bar, bars: seq<Bar>)
    requires Simulate(cfg, plan, entryBar, bars).Ok?
    ensures var sim := Simulate(cfg, plan, entryBar, bars).value;
      sim.Closed? && SimulationSound(cfg, sim) && sim.plan == plan && sim.observation == entryBar
  {
    var start := Pending(plan, entryBar);
    RunKeepsPlan(cfg, start, bars);
    RunKeepsSound(cfg, start, bars);
    FinalizeKeepsSound(cfg, Run(cfg, start, bars).value);
  }

  lemma LossOfMove(e: Economics, move: real, bound: real, size: real)
    requires size > 0.0 && move >= -bound
    ensures Money(e, move, size) >= -Money(e, bound, size)
  {
    MoneyMonotone(e, -bound, move, size);
    MoneyAdds(e, bound, -bound, size);
  }

  /** Without a gap the money lost is at most the risk taken plus one slippage,
      and at most the slippage once the stop has moved to the entry price. */
  lemma LossIsBounded(cfg: Config, plan: TradePlan, entryBar: Bar, bars: seq<Bar>)
    requires Simulate(cfg, plan, entryBar, bars).Ok?
    requires GapExit !in Simulate(cfg, plan, entryBar, bars).value.trade.events
    ensures var t := Simulate(cfg, plan, entryBar, bars).value.trade;
      var risk := if t.breakevenTriggered then 0.0 else Directed(t.isBuy, t.stop, t.entry);
      && t.gross >= -Money(cfg.economics, risk + cfg.economics.Slippage(), t.size)
      && t.net == t.gross - t.spreadCost - t.commission
      && (cfg.recenter ==>
            Directed(t.isBuy, t.stop, t.entry) == Abs(plan.entry - plan.stop) + cfg.economics.Slippage())
  {
    EveryTradeIsSound(cfg, plan, entryBar, bars);
    SoundLossIsBounded(cfg, Simulate(cfg, plan, entryBar, bars).value);
  }

  lemma SoundLossIsBounded(cfg: Config, sim: Simulation)
    requires sim.Closed? && SimulationSound(cfg, sim) && GapExit !in sim.trade.events
    ensures var t := sim.trade;
      var risk := if t.breakevenTriggered then 0.0 else Directed(t.isBuy, t.stop, t.entry);
      && t.gross >= -Money(cfg.economics, risk + cfg.economics.Slippage(), t.size)
      && t.net == t.gross - t.spreadCost - t.commission
      && (cfg.recenter ==>
            Directed(t.isBuy, t.stop, t.entry) == Abs(sim.plan.entry - sim.plan.stop) + cfg.economics.Slippage())
  {
    var t := sim.trade;
    var risk := if t.breakevenTriggered then 0.0 else Directed(t.isBuy, t.stop, t.entry);
    LossOfMove(cfg.economics, Directed(t.isBuy, t.entry, t.exit), risk + cfg.economics.Slippage(), t.size);
  }
}

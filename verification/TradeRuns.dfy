/** Theorems that compare whole simulated runs: a run with its extensions, the two
    policies with each other, and a run with its mirror image. */
module TradeRuns {
  import opened Wrappers
  import opened Market
  import opened TradeLifecycle
  import opened TradeSafety

  // ----- one run, read bar by bar -----

  lemma {:induction false} RunSplits(cfg: Config, sim: Simulation, front: seq<Bar>, back: seq<Bar>)
    ensures Run(cfg, sim, front + back) ==
            match Run(cfg, sim, front) { case Err(e) => Err(e) case Ok(next) => Run(cfg, next, back) }
    decreases |front|
  {
    hide ProcessBar;
    if front == [] || sim.Closed? {
      assert front == [] ==> front + back == back;
    } else {
      assert (front + back)[1..] == front[1..] + back;
      match ProcessBar(cfg, sim, front[0])
      case Err(e) =>
      case Ok(next) => RunSplits(cfg, next, front[1..], back);
    }
  }

  /** How a later state of the same open trade relates to an earlier one. */
  predicate Tightens(earlier: PriceState, later: PriceState) {
    && (later.isBuy, later.entry, later.originalStop, later.takeProfit)
       == (earlier.isBuy, earlier.entry, earlier.originalStop, earlier.takeProfit)
    && Directed(earlier.isBuy, earlier.currentStop, later.currentStop) >= 0.0
    && (earlier.breakevenTriggered ==> later.breakevenTriggered && later.currentStop == earlier.currentStop)
    && earlier.highest <= later.highest && later.lowest <= earlier.lowest
    && earlier.holdingBars <= later.holdingBars
    && earlier.events <= later.events
  }

  lemma AdvanceTightens(cfg: Config, plan: TradePlan, observation: Bar, fill: Bar, s: PriceState, bar: Bar)
    requires Sound(cfg, s)
    ensures Tightens(s, Advance(cfg, plan, observation, fill, s, bar).state)
    ensures Advance(cfg, plan, observation, fill, s, bar).state.holdingBars == s.holdingBars + 1
  {
    hide Complete, ResolveBarExit, ObservedRange;
  }

  /** Along every run the stop only ever moves towards the target, and at most once. */
  lemma {:induction false} StopNeverLoosens(cfg: Config, sim: Simulation, bars: seq<Bar>)
    requires sim.Open? && SimulationSound(cfg, sim) && Run(cfg, sim, bars).Ok?
    ensures var later := Run(cfg, sim, bars).value;
      && !later.Pending? && Tightens(sim.state, later.state)
      && later.state.currentStop in {sim.state.currentStop, sim.state.entry}
      && later.state.holdingBars <= sim.state.holdingBars + |bars|
      && (later.Open? ==> later.state.holdingBars == sim.state.holdingBars + |bars|)
    decreases |bars|
  {
    if bars != [] {
      var next := ProcessBar(cfg, sim, bars[0]).value;
      ProcessBarKeepsSound(cfg, sim, bars[0]);
      AdvanceTightens(cfg, sim.plan, sim.observation, sim.fill, sim.state, bars[0]);
      NextStop(cfg, sim, bars[0]);
      if next.Open? {
        StopNeverLoosens(cfg, next, bars[1..]);
      }
    }
  }

  lemma NextStop(cfg: Config, sim: Simulation, bar: Bar)
    requires sim.Open? && ProcessBar(cfg, sim, bar).Ok?
    ensures var next := ProcessBar(cfg, sim, bar).value;
      !next.Pending? && next.state.currentStop in {sim.state.currentStop, sim.state.entry}
  {
    hide Complete, ResolveBarExit, ObservedRange;
  }

  // ----- which runs succeed -----

  lemma {:induction false} CheckedBarsSplit(previous: int, front: seq<Bar>, back: seq<Bar>)
    requires BarsError(previous, front + back).None?
    ensures BarsError(previous, front).None?
    ensures BarsError(if front == [] then previous else front[|front| - 1].timestamp, back).None?
    decreases |front|
  {
    if front == [] {
      assert front + back == back;
    } else {
      assert (front + back)[1..] == front[1..] + back;
      CheckedBarsSplit(front[0].timestamp, front[1..], back);
    }
  }

  /** An open trade accepts every checked bar; a run ends open exactly when it has used them all. */
  lemma {:induction false} OpenTradeAcceptsCheckedBars(cfg: Config, sim: Simulation, bars: seq<Bar>)
    requires sim.Open? && BarsError(LastSeen(sim), bars).None?
    ensures Run(cfg, sim, bars).Ok?
    ensures var later := Run(cfg, sim, bars).value;
      && !later.Pending? && later.fill == sim.fill
      && (later.Open? ==> LastSeen(later) == if bars == [] then LastSeen(sim) else bars[|bars| - 1].timestamp)
      && (later.Closed? ==> later.trade.reason != EndOfData)
      && (bars != [] ==> LastSeen(later) > LastSeen(sim))
    decreases |bars|
  {
    if bars != [] {
      AdvanceMovesOn(cfg, sim.plan, sim.observation, sim.fill, sim.state, bars[0]);
      var next := ProcessBar(cfg, sim, bars[0]).value;
      if next.Open? {
        OpenTradeAcceptsCheckedBars(cfg, next, bars[1..]);
      }
    }
  }

  lemma AdvanceMovesOn(cfg: Config, plan: TradePlan, observation: Bar, fill: Bar, s: PriceState, bar: Bar)
    ensures var next := Advance(cfg, plan, observation, fill, s, bar);
      !next.Pending? && next.fill == fill && next.last == bar && (next.Closed? ==> next.trade.reason != EndOfData)
  {
    hide ObservedRange, Money, Classify;
  }

  predicate FillAccepted(cfg: Config, plan: TradePlan, fill: Bar) {
    var s := OpenState(cfg, plan, fill);
    ExitSideHolds(s.isBuy, s.entry, s.originalStop, s.takeProfit)
  }

  /** Once the inputs have been checked, only the fill itself can be refused. */
  lemma SimulationFailsOnlyAtTheFill(cfg: Config, plan: TradePlan, entryBar: Bar, bars: seq<Bar>)
    requires InputsError(plan, entryBar, bars).None?
    ensures Simulate(cfg, plan, entryBar, bars).Ok? <==> FillAccepted(cfg, plan, bars[0])
    ensures Simulate(cfg, plan, entryBar, bars).Err? ==> Simulate(cfg, plan, entryBar, bars).error == WrongExitSide
    ensures FillAccepted(cfg, plan, bars[0]) ==>
              var later := Run(cfg, Pending(plan, entryBar), bars);
              && later.Ok? && !later.value.Pending? && later.value.fill == bars[0]
              && (later.value.Closed? ==> later.value.trade.reason != EndOfData)
              && (later.value.Open? ==> LastSeen(later.value) == bars[|bars| - 1].timestamp)
  {
    if FillAccepted(cfg, plan, bars[0]) {
      var s := OpenState(cfg, plan, bars[0]);
      AdvanceMovesOn(cfg, plan, entryBar, bars[0], s, bars[0]);
      var next := Advance(cfg, plan, entryBar, bars[0], s, bars[0]);
      if next.Open? {
        OpenTradeAcceptsCheckedBars(cfg, next, bars[1..]);
      }
      hide Advance;
      assert Run(cfg, Pending(plan, entryBar), bars) == Run(cfg, next, bars[1..]);
    }
  }

  /** With recentred levels a fill is refused exactly when entry slippage reaches the target distance. */
  lemma RecentredFillAccepted(cfg: Config, plan: TradePlan, fill: Bar)
    requires cfg.recenter && PlanError(plan).None?
    ensures FillAccepted(cfg, plan, fill) <==> cfg.economics.Slippage() < Abs(plan.target - plan.entry)
  {
    assert cfg.economics.Slippage() >= 0.0;
  }

  /** More data never changes a trade that met its stop or target, and always prolongs one that did not. */
  lemma LongerDataChangesOnlyUnfinishedTrades(cfg: Config, plan: TradePlan, entryBar: Bar, bars: seq<Bar>, more: seq<Bar>)
    requires Simulate(cfg, plan, entryBar, bars).Ok? && more != []
    requires InputsError(plan, entryBar, bars + more).None?
    ensures Simulate(cfg, plan, entryBar, bars + more).Ok?
    ensures var t := Simulate(cfg, plan, entryBar, bars).value.trade;
      var longer := Simulate(cfg, plan, entryBar, bars + more).value.trade;
      && (t.reason != EndOfData <==> longer == t)
      && (t.reason == EndOfData ==> longer.exitTime > t.exitTime && longer.entryTime == t.entryTime)
  {
    hide Advance, Complete, TradeSound;
    var start := Pending(plan, entryBar);
    assert (bars + more)[0] == bars[0];
    SimulationFailsOnlyAtTheFill(cfg, plan, entryBar, bars);
    SimulationFailsOnlyAtTheFill(cfg, plan, entryBar, bars + more);
    RunSplits(cfg, start, bars, more);
    CheckedBarsSplit(entryBar.timestamp, bars, more);
    var sim := Run(cfg, start, bars).value;
    EveryTradeIsSound(cfg, plan, entryBar, bars);
    EveryTradeIsSound(cfg, plan, entryBar, bars + more);
    FinalizeRecords(cfg, sim);
    if sim.Open? {
      OpenTradeAcceptsCheckedBars(cfg, sim, more);
      FinalizeRecords(cfg, Run(cfg, sim, more).value);
    }
  }

  lemma FinalizeRecords(cfg: Config, sim: Simulation)
    requires !sim.Pending?
    ensures Finalize(cfg, sim).Ok?
    ensures var final := Finalize(cfg, sim).value;
      && final.Closed? && final.last == sim.last && final.fill == sim.fill
      && (sim.Closed? ==> final == sim)
      && (sim.Open? ==> final.trade.reason == EndOfData)
  {
    hide Money, Classify;
  }

  // ----- the two policies -----

  /** The bar opens between the levels in force and its range reaches both. */
  predicate Ambiguous(s: PriceState, bar: Bar) {
    var (lower, upper) := Levels(s, s.currentStop);
    lower < bar.open < upper && bar.low <= lower && bar.high >= upper
  }

  /** The same trade up to its last bar, stopped out in one record and on target in the other. */
  predicate SplitByPolicy(c: Trade, o: Trade) {
    && c.reason == StopLoss && o.reason == TakeProfit
    && (c.observedAt, c.entryTime, c.exitTime) == (o.observedAt, o.entryTime, o.exitTime)
    && (c.isBuy, c.entry, c.stop, c.target, c.size) == (o.isBuy, o.entry, o.stop, o.target, o.size)
    && (c.spreadCost, c.commission, c.holdingBars, c.breakevenTriggered)
       == (o.spreadCost, o.commission, o.holdingBars, o.breakevenTriggered)
    && c.net < o.net
  }

  predicate Coupled(c: Simulation, o: Simulation) {
    if c.Closed? && !c.trade.reason.EndOfData? && Ambiguous(c.state, c.last) then
      && o.Closed? && (c.plan, c.observation, c.fill, c.last) == (o.plan, o.observation, o.fill, o.last)
      && SplitByPolicy(c.trade, o.trade)
    else c == o
  }

  predicate CoupledResults(c: Result<Simulation, Error>, o: Result<Simulation, Error>) {
    if c.Ok? then o.Ok? && Coupled(c.value, o.value) else c == o
  }

  function Under(cfg: Config, policy: Policy): Config {
    cfg.(policy := policy)
  }

  /** On a bar that touches both levels the conservative record earns strictly less. */
  lemma AmbiguousExitsSplit(
    cfg: Config, plan: TradePlan, observation: Bar, fill: Bar, bar: Bar, c: PriceState, o: PriceState,
    stop: ExitDecision, target: ExitDecision)
    requires plan.size > 0.0 && ExitSideHolds(c.isBuy, c.entry, c.originalStop, c.takeProfit)
    requires c.currentStop in {c.originalStop, c.entry}
    requires (c.isBuy, c.entry, c.originalStop, c.takeProfit) == (o.isBuy, o.entry, o.originalStop, o.takeProfit)
    requires (c.holdingBars, c.breakevenTriggered) == (o.holdingBars, o.breakevenTriggered)
    requires stop == ExitDecision(c.currentStop, StopLoss, true, false)
    requires target == ExitDecision(c.takeProfit, TakeProfit, false, false)
    ensures SplitByPolicy(Complete(cfg.economics, plan, observation, fill, bar, c, stop),
                          Complete(cfg.economics, plan, observation, fill, bar, o, target))
  {
    var x := Directed(c.isBuy, c.entry, ExitPrice(cfg.economics, c.isBuy, stop));
    var y := Directed(c.isBuy, c.entry, c.takeProfit);
    assert cfg.economics.Slippage() >= 0.0;
    assert x < y;
    MoneyMonotone(cfg.economics, x, y, plan.size);
    hide Money, Classify;
    var tc := Complete(cfg.economics, plan, observation, fill, bar, c, stop);
    var to := Complete(cfg.economics, plan, observation, fill, bar, o, target);
    assert tc.gross == Money(cfg.economics, x, plan.size);
    assert to.gross == Money(cfg.economics, y, plan.size);
    assert tc.spreadCost == to.spreadCost;
    assert tc.commission == to.commission;
    assert tc.net < to.net;
  }

  lemma PoliciesDisagreeOnlyWhenAmbiguous(s: PriceState, bar: Bar)
    requires ExitSideHolds(s.isBuy, s.entry, s.originalStop, s.takeProfit) && s.currentStop in {s.originalStop, s.entry}
    ensures if Ambiguous(s, bar) then
              && ResolveBarExit(Conservative, s, bar) == Some(ExitDecision(s.currentStop, StopLoss, true, false))
              && ResolveBarExit(Optimistic, s, bar) == Some(ExitDecision(s.takeProfit, TakeProfit, false, false))
            else ResolveBarExit(Conservative, s, bar) == ResolveBarExit(Optimistic, s, bar)
  {
  }

  lemma SameDecisionSameStep(cfg: Config, plan: TradePlan, observation: Bar, fill: Bar, s: PriceState, bar: Bar)
    requires var active := ActivateBreakeven(s.(holdingBars := s.holdingBars + 1));
      ResolveBarExit(Conservative, active, bar) == ResolveBarExit(Optimistic, active, bar)
    ensures Advance(Under(cfg, Conservative), plan, observation, fill, s, bar)
         == Advance(Under(cfg, Optimistic), plan, observation, fill, s, bar)
  {
    hide Complete, ActivateBreakeven, UpdateExcursions, ReachesBreakeven, RecordExit, ResolveBarExit;
  }

  lemma ExitKeepsAmbiguity(s: PriceState, bar: Bar, d: ExitDecision)
    ensures Ambiguous(AtExit(s, bar, d), bar) == Ambiguous(s, bar)
  {
    hide ObservedRange;
  }

  lemma AdvanceExits(
    cfg: Config, plan: TradePlan, observation: Bar, fill: Bar, s: PriceState, active: PriceState, bar: Bar, d: ExitDecision)
    requires active == ActivateBreakeven(s.(holdingBars := s.holdingBars + 1))
    requires ResolveBarExit(cfg.policy, active, bar) == Some(d)
    ensures Advance(cfg, plan, observation, fill, s, bar)
         == Closed(plan, observation, fill, bar, AtExit(active, bar, d),
                   Complete(cfg.economics, plan, observation, fill, bar, AtExit(active, bar, d), d))
  {
    hide Complete, ActivateBreakeven, UpdateExcursions, RecordExit, ResolveBarExit;
  }

  lemma AdvanceSplits(cfg: Config, plan: TradePlan, observation: Bar, fill: Bar, s: PriceState, active: PriceState, bar: Bar)
    requires ExitSideHolds(active.isBuy, active.entry, active.originalStop, active.takeProfit) && plan.size > 0.0
    requires active == ActivateBreakeven(s.(holdingBars := s.holdingBars + 1))
    requires active.currentStop in {active.originalStop, active.entry} && Ambiguous(active, bar)
    ensures Coupled(Advance(Under(cfg, Conservative), plan, observation, fill, s, bar),
                    Advance(Under(cfg, Optimistic), plan, observation, fill, s, bar))
  {
    var stop := ExitDecision(active.currentStop, StopLoss, true, false);
    var target := ExitDecision(active.takeProfit, TakeProfit, false, false);
    PoliciesDisagreeOnlyWhenAmbiguous(active, bar);
    hide Complete, ObservedRange, Ambiguous, SplitByPolicy, ResolveBarExit, Advance, ActivateBreakeven;
    AdvanceExits(Under(cfg, Conservative), plan, observation, fill, s, active, bar, stop);
    AdvanceExits(Under(cfg, Optimistic), plan, observation, fill, s, active, bar, target);
    AmbiguousExitsSplit(cfg, plan, observation, fill, bar, AtExit(active, bar, stop), AtExit(active, bar, target),
                        stop, target);
    ExitKeepsAmbiguity(active, bar, stop);
  }

  /** One bar fed to the same state under both policies: the same step, or a split exit. */
  lemma AdvanceCoupled(cfg: Config, plan: TradePlan, observation: Bar, fill: Bar, s: PriceState, bar: Bar)
    requires Sound(cfg, s) && plan.size > 0.0
    ensures Coupled(Advance(Under(cfg, Conservative), plan, observation, fill, s, bar),
                    Advance(Under(cfg, Optimistic), plan, observation, fill, s, bar))
  {
    var active := ActivateBreakeven(s.(holdingBars := s.holdingBars + 1));
    PoliciesDisagreeOnlyWhenAmbiguous(active, bar);
    if Ambiguous(active, bar) {
      AdvanceSplits(cfg, plan, observation, fill, s, active, bar);
      hide Advance, Coupled;
    } else {
      SameDecisionSameStep(cfg, plan, observation, fill, s, bar);
      var decision := ResolveBarExit(Conservative, active, bar);
      hide ResolveBarExit, Ambiguous, Complete, SplitByPolicy;
      if decision.Some? {
        AdvanceExits(Under(cfg, Conservative), plan, observation, fill, s, active, bar, decision.value);
        ExitKeepsAmbiguity(active, bar, decision.value);
        hide Advance, AtExit, Sound;
      } else {
        hide Sound, UpdateExcursions, ReachesBreakeven;
      }
    }
  }

  lemma ProcessBarCoupled(cfg: Config, sim: Simulation, bar: Bar)
    requires SimulationSound(Under(cfg, Conservative), sim)
    ensures CoupledResults(ProcessBar(Under(cfg, Conservative), sim, bar), ProcessBar(Under(cfg, Optimistic), sim, bar))
  {
    hide Advance, Coupled;
    if sim.Open? {
      AdvanceCoupled(cfg, sim.plan, sim.observation, sim.fill, sim.state, bar);
    } else if sim.Pending? && FillAccepted(cfg, sim.plan, bar) {
      AdvanceCoupled(cfg, sim.plan, sim.observation, bar, OpenState(cfg, sim.plan, bar), bar);
    }
  }

  lemma {:induction false} RunCoupled(cfg: Config, sim: Simulation, bars: seq<Bar>)
    requires SimulationSound(Under(cfg, Conservative), sim) && !sim.Closed?
    ensures CoupledResults(Run(Under(cfg, Conservative), sim, bars), Run(Under(cfg, Optimistic), sim, bars))
    decreases |bars|
  {
    if bars != [] {
      ProcessBarCoupled(cfg, sim, bars[0]);
      var c := ProcessBar(Under(cfg, Conservative), sim, bars[0]);
      if c.Ok? {
        ProcessBarKeepsSound(Under(cfg, Conservative), sim, bars[0]);
        if !c.value.Closed? {
          RunCoupled(cfg, c.value, bars[1..]);
        }
      }
      hide ProcessBar, SimulationSound, Ambiguous, SplitByPolicy;
    }
  }

  lemma FinalizeCoupled(cfg: Config, c: Simulation, o: Simulation)
    requires Coupled(c, o) && !c.Pending?
    ensures CoupledResults(Finalize(Under(cfg, Conservative), c), Finalize(Under(cfg, Optimistic), o))
  {
    hide Money, Classify, Ambiguous, SplitByPolicy;
  }

  /** The two policies fail together, fill together and exit on the same bar. They differ exactly
      when that bar touches both levels without a gap, and then the conservative result is lower. */
  lemma PolicyCoupling(cfg: Config, plan: TradePlan, entryBar: Bar, bars: seq<Bar>)
    ensures CoupledResults(Simulate(Under(cfg, Conservative), plan, entryBar, bars),
                           Simulate(Under(cfg, Optimistic), plan, entryBar, bars))
    ensures Simulate(Under(cfg, Conservative), plan, entryBar, bars).Ok? ==>
              var c := Simulate(Under(cfg, Conservative), plan, entryBar, bars).value.trade;
              var o := Simulate(Under(cfg, Optimistic), plan, entryBar, bars).value.trade;
              c.net <= o.net && (c.net < o.net <==> c.reason == StopLoss && o.reason == TakeProfit)
  {
    if InputsError(plan, entryBar, bars).None? {
      var start := Pending(plan, entryBar);
      RunCoupled(cfg, start, bars);
      var c := Run(Under(cfg, Conservative), start, bars);
      if c.Ok? {
        SimulationFailsOnlyAtTheFill(Under(cfg, Conservative), plan, entryBar, bars);
        FinalizeCoupled(cfg, c.value, Run(Under(cfg, Optimistic), start, bars).value);
      }
      hide Run, Finalize, Coupled;
    }
  }
}

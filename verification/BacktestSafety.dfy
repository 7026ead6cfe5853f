/** What holds after every step of every backtest, whatever the strategy does. */
module BacktestSafety {
  import opened Wrappers
  import opened Market
  import opened TradeLifecycle
  import opened TradeSafety
  import opened EquityCurve
  import opened BacktestRun

  // ----- the invariants -----

  function Nets(trades: seq<Trade>): (nets: seq<real>)
    ensures |nets| == |trades|
  {
    seq(|trades|, i requires 0 <= i < |trades| => trades[i].net)
  }

  function Held(es: EngineState): nat {
    if es.active.Some? && es.active.value.Open? then 1 else 0
  }

  function Waiting(es: EngineState): nat {
    if es.active.Some? && es.active.value.Pending? then 1 else 0
  }

  /** The account follows from the settled trades, and the position counters from the active one. */
  ghost predicate Books(cfg: EngineConfig, es: EngineState) {
    var nets := Nets(es.trades);
    && es.equity == EquityAt(cfg.initialBalance, nets, |nets|)
    && IsPeak(cfg.initialBalance, nets, es.peak)
    && IsMaximumDrawdown(cfg.initialBalance, nets, es.maxDrawdown)
    && es.positionsOpened == es.executed && es.positionsClosed == |es.trades|
    && es.executed == |es.trades| + Held(es)
    && (es.active.Some? ==> !es.active.value.Closed?)
    && (cfg.maximumTrades.Some? ==> es.executed + Waiting(es) <= cfg.maximumTrades.value)
  }

  /** Bar `i` is the first of the tape that may fill a plan observed at `observed`. */
  ghost predicate FirstEligible(cfg: EngineConfig, bars: seq<Bar>, observed: int, i: nat) {
    && i < |bars| && Eligible(cfg.model, observed, bars[i].timestamp)
    && forall j :: 0 <= j < i ==> !Eligible(cfg.model, observed, bars[j].timestamp)
  }

  predicate Permitted(cfg: EngineConfig, isBuy: bool) {
    (isBuy ==> cfg.allowLong) && (!isBuy ==> cfg.allowShort)
  }

  /** In a permitted direction, filled on the first eligible bar and closed on a bar already consumed, soundly in
      between. */
  ghost predicate OnTape(cfg: EngineConfig, bars: seq<Bar>, consumed: nat, t: Trade, i: nat, j: nat) {
    && i <= j < consumed <= |bars|
    && Permitted(cfg, t.isBuy) && FirstEligible(cfg, bars, t.observedAt, i)
    && bars[i].timestamp == t.entryTime && bars[j].timestamp == t.exitTime
    && TradeSound(cfg.simulation, bars[i], bars[j], t)
  }

  ghost predicate TradeOnTape(cfg: EngineConfig, bars: seq<Bar>, consumed: nat, t: Trade) {
    exists i: nat, j: nat :: OnTape(cfg, bars, consumed, t, i, j)
  }

  ghost predicate ActiveOnTape(cfg: EngineConfig, bars: seq<Bar>, consumed: nat, sim: Simulation) {
    && SimulationSound(cfg.simulation, sim) && Permitted(cfg, sim.plan.direction.Buy?)
    && match sim
       case Pending(_, observation) =>
         && HasFuture(cfg, bars, observation.timestamp)
         && forall j :: 0 <= j < consumed <= |bars| ==> !Eligible(cfg.model, observation.timestamp, bars[j].timestamp)
       case Open(_, observation, fill, last, _) =>
         exists i: nat, j: nat ::
           && i <= j < consumed <= |bars| && bars[i] == fill && bars[j] == last
           && FirstEligible(cfg, bars, observation.timestamp, i)
       case Closed(_, _, _, _, _, _) => false
  }

  /** A trade's last bar had closed when the next plan became available. */
  predicate KnownBefore(cfg: EngineConfig, exitTime: int, observed: int) {
    exitTime + LifecycleMinutes(cfg.model) <= observed + DECISION_MINUTES
  }

  ghost predicate Timeline(cfg: EngineConfig, bars: seq<Bar>, es: EngineState) {
    && es.simIndex <= |bars|
    && (forall k :: 0 <= k < |es.trades| ==> TradeOnTape(cfg, bars, es.simIndex, es.trades[k]))
    && (forall k :: 0 < k < |es.trades| ==> KnownBefore(cfg, es.trades[k - 1].exitTime, es.trades[k].observedAt))
    && (es.active.Some? ==>
          && ActiveOnTape(cfg, bars, es.simIndex, es.active.value)
          && (es.trades != [] ==>
                KnownBefore(cfg, es.trades[|es.trades| - 1].exitTime, es.active.value.observation.timestamp)))
  }

  ghost predicate EngineSound(cfg: EngineConfig, bars: seq<Bar>, es: EngineState) {
    Books(cfg, es) && Timeline(cfg, bars, es)
  }

  // ----- settling -----

  lemma SettleKeepsBooks(cfg: EngineConfig, es: EngineState, trade: Trade)
    requires es.active.None? && es.positionsOpened == es.executed && es.executed == |es.trades| + 1
    requires var nets := Nets(es.trades);
      && es.equity == EquityAt(cfg.initialBalance, nets, |nets|)
      && IsPeak(cfg.initialBalance, nets, es.peak) && IsMaximumDrawdown(cfg.initialBalance, nets, es.maxDrawdown)
      && es.positionsClosed == |es.trades|
      && (cfg.maximumTrades.Some? ==> es.executed <= cfg.maximumTrades.value)
    ensures Books(cfg, Settle(es, trade))
  {
    hide IsPeak, IsMaximumDrawdown, EquityAt;
    var nets := Nets(es.trades);
    assert Nets(es.trades + [trade]) == nets + [trade.net];
    EquityOfLonger(cfg.initialBalance, nets, trade.net);
    PeakStep(cfg.initialBalance, nets, es.peak, trade.net);
    DrawdownStep(cfg.initialBalance, nets, es.peak, es.maxDrawdown, trade.net);
  }

  /** What one accepted bar does to a sound simulation. */
  lemma ProcessBarOutcome(cfg: Config, sim: Simulation, bar: Bar)
    requires SimulationSound(cfg, sim) && !sim.Closed? && bar.timestamp > LastSeen(sim)
    ensures match ProcessBar(cfg, sim, bar)
            case Err(e) => e == InvalidBar || e == WrongExitSide
            case Ok(next) =>
              && SimulationSound(cfg, next) && !next.Pending? && next.last == bar
              && next.plan == sim.plan && next.observation == sim.observation && next.fill == if sim.Pending? then bar else sim.fill
  {
    if ProcessBar(cfg, sim, bar).Ok? {
      ProcessBarKeepsSound(cfg, sim, bar);
    }
    hide SimulationSound, Complete, ResolveBarExit, UpdateExcursions, ArmBreakeven, ActivateBreakeven, ValidBar;
  }

  lemma AdvanceKeepsBooks(cfg: EngineConfig, es: EngineState, bar: Bar)
    requires Books(cfg, es) && AdvanceTrade(cfg, es, bar).Ok?
    ensures Books(cfg, AdvanceTrade(cfg, es, bar).value)
  {
    hide IsPeak, IsMaximumDrawdown, EquityAt;
    var next := AdvanceTrade(cfg, es, bar).value;
    if next.trades != es.trades {
      var filled := if es.active.value.Pending? then es.(positionsOpened := es.positionsOpened + 1, executed := es.executed + 1) else es;
      SettleKeepsBooks(cfg, filled.(active := None), ProcessBar(cfg.simulation, es.active.value, bar).value.trade);
    }
    hide ProcessBar;
  }

  // ----- one lifecycle bar on the timeline -----

  lemma TradesStayOnTape(cfg: EngineConfig, bars: seq<Bar>, es: EngineState, consumed: nat)
    requires Timeline(cfg, bars, es) && es.simIndex <= consumed <= |bars|
    ensures forall k :: 0 <= k < |es.trades| ==> TradeOnTape(cfg, bars, consumed, es.trades[k])
  {
    forall k | 0 <= k < |es.trades|
      ensures TradeOnTape(cfg, bars, consumed, es.trades[k])
    {
      var i: nat, j: nat :| OnTape(cfg, bars, es.simIndex, es.trades[k], i, j);
      assert OnTape(cfg, bars, consumed, es.trades[k], i, j);
    }
  }

  lemma ActiveBarIsLate(cfg: EngineConfig, bars: seq<Bar>, n: nat, sim: Simulation)
    requires n < |bars| && Chronological(bars) && ActiveOnTape(cfg, bars, n, sim)
    requires sim.Pending? ==> Eligible(cfg.model, sim.observation.timestamp, bars[n].timestamp)
    ensures bars[n].timestamp > LastSeen(sim)
  {
  }

  /** The fill of a trade that has just processed bar `n` is on the tape. */
  lemma FillOnTape(cfg: EngineConfig, bars: seq<Bar>, n: nat, sim: Simulation, fill: Bar) returns (i: nat)
    requires n < |bars| && ActiveOnTape(cfg, bars, n, sim)
    requires sim.Pending? ==> Eligible(cfg.model, sim.observation.timestamp, bars[n].timestamp)
    requires fill == if sim.Pending? then bars[n] else sim.fill
    ensures i <= n && bars[i] == fill && FirstEligible(cfg, bars, sim.observation.timestamp, i)
  {
    if sim.Pending? {
      i := n;
    } else {
      var k: nat, j: nat :|
        && k <= j < n <= |bars| && bars[k] == sim.fill && bars[j] == sim.last
        && FirstEligible(cfg, bars, sim.observation.timestamp, k);
      i := k;
    }
  }

  lemma TimelineAfterExit(cfg: EngineConfig, bars: seq<Bar>, es: EngineState, after: EngineState, trade: Trade)
    requires Timeline(cfg, bars, es) && es.active.Some? && es.simIndex <= after.simIndex <= |bars|
    requires TradeOnTape(cfg, bars, after.simIndex, trade)
    requires trade.observedAt == es.active.value.observation.timestamp
    requires after.trades == es.trades + [trade] && after.active.None?
    ensures Timeline(cfg, bars, after)
  {
    hide OnTape, ActiveOnTape;
    TradesStayOnTape(cfg, bars, es, after.simIndex);
    forall k | 0 <= k < |after.trades|
      ensures TradeOnTape(cfg, bars, after.simIndex, after.trades[k])
    {
      assert k < |es.trades| ==> after.trades[k] == es.trades[k];
    }
  }

  lemma TimelineWhileActive(cfg: EngineConfig, bars: seq<Bar>, es: EngineState, after: EngineState)
    requires Timeline(cfg, bars, es) && es.active.Some? && es.simIndex <= after.simIndex <= |bars|
    requires after.active.Some? && ActiveOnTape(cfg, bars, after.simIndex, after.active.value)
    requires after.active.value.observation == es.active.value.observation && after.trades == es.trades
    ensures Timeline(cfg, bars, after)
  {
    TradesStayOnTape(cfg, bars, es, after.simIndex);
    hide OnTape, ActiveOnTape;
  }

  /** One lifecycle bar, the next one on the tape: the timeline holds, or the bar or the fill was refused. */
  lemma AdvanceKeepsTimeline(cfg: EngineConfig, bars: seq<Bar>, es: EngineState)
    requires Chronological(bars) && Timeline(cfg, bars, es) && es.simIndex < |bars|
    ensures match AdvanceTrade(cfg, es, bars[es.simIndex])
            case Err(e) => e == InvalidBar || e == WrongExitSide
            case Ok(next) => Timeline(cfg, bars, next.(simIndex := es.simIndex + 1))
  {
    hide SimulationSound, TradeSound, ProcessBar, OnTape;
    var n := es.simIndex;
    if es.active.None? {
      TradesStayOnTape(cfg, bars, es, n + 1);
    } else {
      var sim := es.active.value;
      if sim.Pending? && !Eligible(cfg.model, sim.observation.timestamp, bars[n].timestamp) {
        TimelineWhileActive(cfg, bars, es, es.(simIndex := n + 1));
      } else {
        ActiveBarIsLate(cfg, bars, n, sim);
        ProcessBarOutcome(cfg.simulation, sim, bars[n]);
        if ProcessBar(cfg.simulation, sim, bars[n]).Ok? {
          var next := ProcessBar(cfg.simulation, sim, bars[n]).value;
          var after := AdvanceTrade(cfg, es, bars[n]).value.(simIndex := n + 1);
          var i := FillOnTape(cfg, bars, n, sim, next.fill);
          if next.Closed? {
            ClosedOnTape(cfg, bars, n, next, i);
            TimelineAfterExit(cfg, bars, es, after, next.trade);
          } else {
            assert ActiveOnTape(cfg, bars, n + 1, next);
            TimelineWhileActive(cfg, bars, es, after);
          }
        }
      }
    }
  }

  lemma ClosedOnTape(cfg: EngineConfig, bars: seq<Bar>, n: nat, sim: Simulation, i: nat)
    requires sim.Closed? && SimulationSound(cfg.simulation, sim) && Permitted(cfg, sim.plan.direction.Buy?)
    requires i <= n < |bars| && bars[i] == sim.fill && bars[n] == sim.last
    requires FirstEligible(cfg, bars, sim.observation.timestamp, i)
    ensures TradeOnTape(cfg, bars, n + 1, sim.trade) && sim.trade.observedAt == sim.observation.timestamp
  {
    hide TradeSound;
    assert OnTape(cfg, bars, n + 1, sim.trade, i, n);
  }

  // ----- one decision -----

  /** Exactly the bars that have closed by `boundary` have been consumed. */
  ghost predicate Clock(cfg: EngineConfig, bars: seq<Bar>, boundary: int, consumed: nat) {
    forall j :: 0 <= j < |bars| ==> (j < consumed <==> bars[j].timestamp + LifecycleMinutes(cfg.model) <= boundary)
  }

  lemma {:induction false} ConsumeKeepsSound(cfg: EngineConfig, bars: seq<Bar>, boundary: int, es: EngineState)
    requires Chronological(bars) && EngineSound(cfg, bars, es)
    requires forall j :: 0 <= j < es.simIndex ==> bars[j].timestamp + LifecycleMinutes(cfg.model) <= boundary
    ensures match Consume(cfg, bars, boundary, es)
            case Err(e) => e == InvalidBar || e == WrongExitSide
            case Ok(next) => EngineSound(cfg, bars, next) && next.simIndex <= |bars| && Clock(cfg, bars, boundary, next.simIndex)
    decreases |bars| - es.simIndex
  {
    hide AdvanceTrade, OnTape, ActiveOnTape, TradeOnTape, IsPeak, IsMaximumDrawdown, EquityAt;
    if es.simIndex < |bars| && bars[es.simIndex].timestamp + LifecycleMinutes(cfg.model) <= boundary {
      AdvanceKeepsTimeline(cfg, bars, es);
      var step := AdvanceTrade(cfg, es, bars[es.simIndex]);
      if step.Ok? {
        AdvanceKeepsBooks(cfg, es, bars[es.simIndex]);
        ConsumeKeepsSound(cfg, bars, boundary, step.value.(simIndex := es.simIndex + 1));
      }
    }
  }

  lemma SettledBeforeDecision(cfg: EngineConfig, bars: seq<Bar>, es: EngineState, bar: Bar)
    requires Timeline(cfg, bars, es) && Clock(cfg, bars, Boundary(bar), es.simIndex)
    ensures forall k :: 0 <= k < |es.trades| ==> KnownBefore(cfg, es.trades[k].exitTime, bar.timestamp)
  {
    hide TradeSound;
    forall k | 0 <= k < |es.trades|
      ensures KnownBefore(cfg, es.trades[k].exitTime, bar.timestamp)
    {
      var i: nat, j: nat :| OnTape(cfg, bars, es.simIndex, es.trades[k], i, j);
    }
  }

  lemma DecideKeepsSound(cfg: EngineConfig, bars: seq<Bar>, es: EngineState, bar: Bar, seen: Observation)
    requires EngineSound(cfg, bars, es) && Clock(cfg, bars, Boundary(bar), es.simIndex)
    requires !(MaximumReached(cfg, es) && es.active.None?)
    ensures Decide(cfg, bars, es, bar, seen).Ok? ==>
              var next := Decide(cfg, bars, es, bar, seen).value;
              EngineSound(cfg, bars, next) && next.simIndex == es.simIndex
  {
    hide OnTape, TradeOnTape, IsPeak, IsMaximumDrawdown, EquityAt;
    SettledBeforeDecision(cfg, bars, es, bar);
    if Decide(cfg, bars, es, bar, seen).Ok? {
      var next := Decide(cfg, bars, es, bar, seen).value;
      if next.active != es.active {
        assert next.active == Some(Pending(seen.plan.value, bar));
        assert ActiveOnTape(cfg, bars, next.simIndex, next.active.value);
      }
      hide SimulationSound, HasFuture;
    }
  }

  // ----- the run -----

  ghost predicate AtDecision(cfg: EngineConfig, decisions: seq<Bar>, bars: seq<Bar>, index: nat, es: EngineState) {
    && index <= |decisions| && EngineSound(cfg, bars, es) && es.simIndex <= |bars|
    && if index == 0 then es.simIndex == 0 && es.active.None?
       else Clock(cfg, bars, Boundary(decisions[index - 1]), es.simIndex)
  }

  lemma {:induction false} EveryStepIsSound(
    cfg: EngineConfig, decisions: seq<Bar>, bars: seq<Bar>, strategy: Strategy, index: nat, es: EngineState)
    requires Chronological(decisions) && Chronological(bars) && AtDecision(cfg, decisions, bars, index, es)
    ensures RunFrom(cfg, decisions, bars, strategy, index, es).Ok? ==>
              var end := RunFrom(cfg, decisions, bars, strategy, index, es).value;
              && EngineSound(cfg, bars, end)
              && (end.active.Some? ==>
                    |decisions| > 0 && Clock(cfg, bars, Boundary(decisions[|decisions| - 1]), end.simIndex))
    decreases |decisions| - index
  {
    hide Consume, Decide, Books, Timeline;
    if index < |decisions| {
      ConsumeKeepsSound(cfg, bars, Boundary(decisions[index]), es);
      var consumed := Consume(cfg, bars, Boundary(decisions[index]), es);
      if consumed.Ok? {
        var counted := consumed.value.(processed := consumed.value.processed + 1);
        CountingKeepsSound(cfg, bars, consumed.value);
        if !(MaximumReached(cfg, counted) && counted.active.None?) {
          var seen := strategy(index, AccountOf(counted));
          DecideKeepsSound(cfg, bars, counted, decisions[index], seen);
          var decided := Decide(cfg, bars, counted, decisions[index], seen);
          if decided.Ok? {
            EveryStepIsSound(cfg, decisions, bars, strategy, index + 1, decided.value);
          }
        }
      }
    }
  }

  lemma CountingKeepsSound(cfg: EngineConfig, bars: seq<Bar>, es: EngineState)
    requires EngineSound(cfg, bars, es)
    ensures EngineSound(cfg, bars, es.(processed := es.processed + 1))
  {
    hide TradeOnTape, ActiveOnTape, IsPeak, IsMaximumDrawdown, EquityAt;
  }

  lemma FinishKeepsSound(cfg: EngineConfig, bars: seq<Bar>, es: EngineState)
    requires EngineSound(cfg, bars, es)
    ensures EngineSound(cfg, bars, Finish(cfg, es)) && Finish(cfg, es).active.None?
  {
    hide IsPeak, IsMaximumDrawdown, EquityAt, SimulationSound, TradeSound, Complete;
    if es.active.Some? && es.active.value.Open? {
      var sim := es.active.value;
      FinalizeKeepsSound(cfg.simulation, sim);
      var final := Finalize(cfg.simulation, sim).value;
      var i: nat, j: nat :|
        && i <= j < es.simIndex <= |bars| && bars[i] == sim.fill && bars[j] == sim.last
        && FirstEligible(cfg, bars, sim.observation.timestamp, i);
      SettleKeepsBooks(cfg, es.(active := None), final.trade);
      ClosedOnTape(cfg, bars, j, final, i);
      LaterOnTape(cfg, bars, j + 1, es.simIndex, final.trade);
      TimelineAfterExit(cfg, bars, es, Settle(es.(active := None), final.trade), final.trade);
    }
    hide TradeOnTape, ActiveOnTape;
  }

  lemma LaterOnTape(cfg: EngineConfig, bars: seq<Bar>, n: nat, m: nat, t: Trade)
    requires TradeOnTape(cfg, bars, n, t) && n <= m <= |bars|
    ensures TradeOnTape(cfg, bars, m, t)
  {
    var i: nat, j: nat :| OnTape(cfg, bars, n, t, i, j);
    assert OnTape(cfg, bars, m, t, i, j);
  }

  function Tape(cfg: EngineConfig, m5: seq<Bar>, m15: seq<Bar>): seq<Bar> {
    KeepInDates(cfg, if cfg.model.M15CompletedV1? then m15 else m5)
  }

  /** Every finished backtest: the books balance, every trade was filled on the first eligible bar and closed
      on the tape, no trade was decided on before its predecessor's last bar had closed, nothing is left open. */
  lemma EveryBacktestIsSound(cfg: EngineConfig, m5: seq<Bar>, m15: seq<Bar>, strategy: Strategy)
    requires RunBacktest(cfg, m5, m15, strategy).Ok?
    ensures var end := RunBacktest(cfg, m5, m15, strategy).value;
      && EngineSound(cfg, Tape(cfg, m5, m15), end) && end.active.None?
      && end.executed == end.positionsClosed == |end.trades|
      && (cfg.maximumTrades.Some? ==> |end.trades| <= cfg.maximumTrades.value)
  {
    var decisions, bars := KeepInDates(cfg, m5), Tape(cfg, m5, m15);
    var start := Initial(cfg);
    InitialIsSound(cfg, bars);
    hide EngineSound, RunFrom, Finish;
    EveryStepIsSound(cfg, decisions, bars, strategy, 0, start);
    FinishKeepsSound(cfg, bars, RunFrom(cfg, decisions, bars, strategy, 0, start).value);
    BooksAtRest(cfg, bars, RunBacktest(cfg, m5, m15, strategy).value);
  }

  lemma InitialIsSound(cfg: EngineConfig, bars: seq<Bar>)
    ensures EngineSound(cfg, bars, Initial(cfg))
  {
    EmptyCurve(cfg.initialBalance);
    assert Nets([]) == [];
  }

  lemma BooksAtRest(cfg: EngineConfig, bars: seq<Bar>, es: EngineState)
    requires EngineSound(cfg, bars, es) && es.active.None?
    ensures es.executed == es.positionsClosed == |es.trades|
    ensures cfg.maximumTrades.Some? ==> |es.trades| <= cfg.maximumTrades.value
  {
  }

  /** Completed trades never overlap: each exit bar opens before the next entry bar. */
  lemma TradesAreDisjoint(cfg: EngineConfig, bars: seq<Bar>, es: EngineState, k: nat, l: nat)
    requires EngineSound(cfg, bars, es) && Chronological(bars) && k < l < |es.trades|
    ensures es.trades[k].entryTime <= es.trades[k].exitTime < es.trades[l].entryTime
    decreases l - k
  {
    hide TradeSound;
    assert TradeOnTape(cfg, bars, es.simIndex, es.trades[k]) && TradeOnTape(cfg, bars, es.simIndex, es.trades[k + 1]);
    if k + 1 < l {
      TradesAreDisjoint(cfg, bars, es, k + 1, l);
    }
  }

  /** A plan is dropped unfilled only when every bar that could fill it closes after the last decision. */
  lemma DroppedPlansHadNoClosedBar(cfg: EngineConfig, decisions: seq<Bar>, bars: seq<Bar>, strategy: Strategy)
    requires Chronological(decisions) && Chronological(bars)
    requires RunFrom(cfg, decisions, bars, strategy, 0, Initial(cfg)).Ok?
    requires Waiting(RunFrom(cfg, decisions, bars, strategy, 0, Initial(cfg)).value) == 1
    ensures var observed := RunFrom(cfg, decisions, bars, strategy, 0, Initial(cfg)).value.active.value.observation.timestamp;
      && |decisions| > 0 && HasFuture(cfg, bars, observed)
      && forall j :: 0 <= j < |bars| && Eligible(cfg.model, observed, bars[j].timestamp) ==>
           bars[j].timestamp + LifecycleMinutes(cfg.model) > Boundary(decisions[|decisions| - 1])
  {
    InitialIsSound(cfg, bars);
    EveryStepIsSound(cfg, decisions, bars, strategy, 0, Initial(cfg));
    hide RunFrom, SimulationSound, Books;
  }

  /** On the M5 clock lifecycle bars and decisions are the same bars, so a plan is always filled. */
  lemma M5PlansAreAlwaysFilled(cfg: EngineConfig, bars: seq<Bar>, strategy: Strategy)
    requires cfg.model.M5CompletedV2? && Chronological(bars)
    requires RunFrom(cfg, bars, bars, strategy, 0, Initial(cfg)).Ok?
    ensures Waiting(RunFrom(cfg, bars, bars, strategy, 0, Initial(cfg)).value) == 0
  {
    var end := RunFrom(cfg, bars, bars, strategy, 0, Initial(cfg)).value;
    hide RunFrom;
    if Waiting(end) == 1 {
      DroppedPlansHadNoClosedBar(cfg, bars, bars, strategy);
    }
  }

  /** On the M5 clock the lifecycle index is always one ahead of the decision just reached. */
  lemma M5ClockInStep(cfg: EngineConfig, bars: seq<Bar>, index: nat, es: EngineState)
    requires cfg.model.M5CompletedV2? && Chronological(bars) && AtDecision(cfg, bars, bars, index, es) && index < |bars|
    requires Consume(cfg, bars, Boundary(bars[index]), es).Ok?
    ensures es.simIndex == index
    ensures Consume(cfg, bars, Boundary(bars[index]), es).value.simIndex == index + 1
  {
    hide Consume, Books;
    ConsumeKeepsSound(cfg, bars, Boundary(bars[index]), es);
    var n := Consume(cfg, bars, Boundary(bars[index]), es).value.simIndex;
    assert index < n;
    if index + 1 < |bars| {
      assert bars[index].timestamp < bars[index + 1].timestamp;
      assert !(index + 1 < n);
    }
    if index > 0 {
      assert index - 1 < es.simIndex && !(index < es.simIndex);
    }
  }
}

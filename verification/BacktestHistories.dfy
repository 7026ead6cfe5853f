/** A backtest on a history and the same backtest on any continuation of that history. */
module BacktestHistories {
  import opened Wrappers
  import opened Market
  import opened TradeLifecycle
  import opened BacktestRun
  import opened BacktestSafety
  import opened BacktestPlans
  import opened BacktestCausality

  // ----- a trade keeps its entry, and the list of trades only grows -----

  datatype Entry = Entry(
    observedAt: int, entryTime: int, isBuy: bool, entry: real, stop: real, target: real, size: real)

  function EntryOfTrade(t: Trade): Entry {
    Entry(t.observedAt, t.entryTime, t.isBuy, t.entry, t.stop, t.target, t.size)
  }

  function EntryOfOpen(sim: Simulation): Entry
    requires sim.Open?
  {
    Entry(sim.observation.timestamp, sim.fill.timestamp, sim.state.isBuy, sim.state.entry,
          sim.state.originalStop, sim.state.takeProfit, sim.plan.size)
  }

  /** After `n` trades comes one with the given entry, still open or already recorded. */
  predicate Carries(es: EngineState, n: nat, e: Entry) {
    if es.active.Some? && es.active.value.Open? && |es.trades| == n then EntryOfOpen(es.active.value) == e
    else n < |es.trades| && EntryOfTrade(es.trades[n]) == e
  }

  /** `later` was reached from `es`: no trade is forgotten, and an open one keeps its entry. */
  predicate Grows(es: EngineState, later: EngineState) {
    && es.trades <= later.trades
    && (es.active.Some? && es.active.value.Open? ==> Carries(later, |es.trades|, EntryOfOpen(es.active.value)))
  }

  lemma GrowsTwice(a: EngineState, b: EngineState, c: EngineState)
    requires Grows(a, b) && Grows(b, c)
    ensures Grows(a, c)
  {
    hide EntryOfOpen, EntryOfTrade;
  }

  lemma AdvanceKeepsEntry(cfg: Config, sim: Simulation, bar: Bar)
    requires sim.Open? && ProcessBar(cfg, sim, bar).Ok?
    ensures var next := ProcessBar(cfg, sim, bar).value;
      && !next.Pending?
      && (next.Open? ==> EntryOfOpen(next) == EntryOfOpen(sim))
      && (next.Closed? ==> EntryOfTrade(next.trade) == EntryOfOpen(sim))
  {
    hide ResolveBarExit, ObservedRange, ReachesBreakeven, Money, Classify, SlippageCost, RMultiple;
  }

  lemma AdvanceGrows(cfg: EngineConfig, es: EngineState, bar: Bar)
    requires AdvanceTrade(cfg, es, bar).Ok?
    ensures Grows(es, AdvanceTrade(cfg, es, bar).value)
  {
    hide ProcessBar, EntryOfOpen, EntryOfTrade;
    if es.active.Some? && es.active.value.Open? {
      AdvanceKeepsEntry(cfg.simulation, es.active.value, bar);
    }
  }

  lemma {:induction false} ConsumeGrows(cfg: EngineConfig, bars: seq<Bar>, boundary: int, es: EngineState)
    requires Consume(cfg, bars, boundary, es).Ok?
    ensures Grows(es, Consume(cfg, bars, boundary, es).value)
    decreases |bars| - es.simIndex
  {
    hide AdvanceTrade, EntryOfOpen, EntryOfTrade;
    if es.simIndex < |bars| && bars[es.simIndex].timestamp + LifecycleMinutes(cfg.model) <= boundary {
      AdvanceGrows(cfg, es, bars[es.simIndex]);
      var next := AdvanceTrade(cfg, es, bars[es.simIndex]).value.(simIndex := es.simIndex + 1);
      ConsumeGrows(cfg, bars, boundary, next);
      GrowsTwice(es, next, Consume(cfg, bars, boundary, es).value);
    }
  }

  lemma {:induction false} RunGrows(
    cfg: EngineConfig, decisions: seq<Bar>, bars: seq<Bar>, strategy: Strategy, index: nat, es: EngineState)
    requires RunFrom(cfg, decisions, bars, strategy, index, es).Ok?
    ensures Grows(es, RunFrom(cfg, decisions, bars, strategy, index, es).value)
    decreases |decisions| - index
  {
    hide Consume, HasFuture, Warm, DirectionEnabled, EntryOfOpen, EntryOfTrade;
    if index < |decisions| {
      ConsumeGrows(cfg, bars, Boundary(decisions[index]), es);
      var consumed := Consume(cfg, bars, Boundary(decisions[index]), es).value;
      var counted := consumed.(processed := consumed.processed + 1);
      assert Grows(es, counted);
      if !(MaximumReached(cfg, counted) && counted.active.None?) {
        var decided := Decide(cfg, bars, counted, decisions[index], strategy(index, AccountOf(counted))).value;
        assert Grows(counted, decided);
        GrowsTwice(es, counted, decided);
        RunGrows(cfg, decisions, bars, strategy, index + 1, decided);
        GrowsTwice(es, decided, RunFrom(cfg, decisions, bars, strategy, index, es).value);
      }
    }
  }

  lemma FinishGrows(cfg: EngineConfig, es: EngineState)
    ensures var end := Finish(cfg, es);
      && Grows(es, end) && end.active.None?
      && if es.active.Some? && es.active.value.Closed? then true
         else if es.active.Some? && es.active.value.Open? then
           |end.trades| == |es.trades| + 1 && end.trades[|es.trades|].reason.EndOfData?
         else end.trades == es.trades
  {
    hide Money, Classify, SlippageCost, RMultiple;
  }

  // ----- histories -----

  lemma {:induction false} KeptOfLonger(cfg: EngineConfig, shorter: seq<Bar>, longer: seq<Bar>)
    requires shorter <= longer
    ensures KeepInDates(cfg, shorter) <= KeepInDates(cfg, longer)
    decreases |longer|
  {
    if shorter == longer {
    } else {
      KeptOfLonger(cfg, shorter, longer[..|longer| - 1]);
    }
  }

  /** On the M5 clock every continuation of a history holds the same bars closed by its last decision. */
  lemma M5HistoriesShareThePast(cfg: EngineConfig, m5: seq<Bar>, longer: seq<Bar>)
    requires cfg.model.M5CompletedV2? && m5 <= longer && Chronological(longer) && KeepInDates(cfg, m5) != []
    ensures var kept := KeepInDates(cfg, m5);
      SamePast(cfg, kept, KeepInDates(cfg, longer), Boundary(kept[|kept| - 1]))
  {
    KeptOfLonger(cfg, m5, longer);
    var kept, more := KeepInDates(cfg, m5), KeepInDates(cfg, longer);
    assert Chronological(more);
    hide KeepInDates;
    forall j | 0 <= j < |more| && ClosedBy(cfg, more[j], Boundary(kept[|kept| - 1]))
      ensures j < |kept|
    {
      assert more[|kept| - 1] == kept[|kept| - 1];
    }
  }

  /** The shorter backtest's trades are the longer one's first trades. Only its very last trade, if the end of the
      data closed it, may fare differently, and then it is the same trade up to its exit. */
  predicate Continued(shorter: seq<Trade>, longer: seq<Trade>) {
    || shorter <= longer
    || (&& shorter != [] && |shorter| <= |longer| && shorter[..|shorter| - 1] == longer[..|shorter| - 1]
        && shorter[|shorter| - 1].reason.EndOfData?
        && EntryOfTrade(shorter[|shorter| - 1]) == EntryOfTrade(longer[|shorter| - 1]))
  }

  lemma FinishedContinues(cfg: EngineConfig, mid: EngineState, end: EngineState)
    requires Grows(mid, end) && end.active.None? && (mid.active.Some? ==> !mid.active.value.Closed?)
    ensures Continued(Finish(cfg, mid).trades, end.trades)
  {
    hide EntryOfOpen, EntryOfTrade, Finish;
    FinishGrows(cfg, mid);
    var short := Finish(cfg, mid).trades;
    if mid.active.Some? && mid.active.value.Open? {
      var n := |mid.trades|;
      assert short[..n] == mid.trades == end.trades[..n];
      assert EntryOfTrade(short[n]) == EntryOfOpen(mid.active.value) == EntryOfTrade(end.trades[n]);
    }
  }

  /** The state in which a run over more decisions passes the last of the first ones, or has stopped before. */
  lemma LongerRunGrows(
    cfg: EngineConfig, front: seq<Bar>, back: seq<Bar>, bars: seq<Bar>, strategy: Strategy, es: EngineState)
    requires RunFrom(cfg, front + back, bars, strategy, 0, es).Ok?
    ensures var mid := RunFrom(cfg, front, bars, strategy, 0, es);
      mid.Ok? && Grows(mid.value, RunFrom(cfg, front + back, bars, strategy, 0, es).value)
  {
    hide RunFrom, Grows;
    LongerRunContinues(cfg, front, back, bars, strategy, 0, es);
    var mid := RunFrom(cfg, front, bars, strategy, 0, es).value;
    if RunFrom(cfg, front + back, bars, strategy, 0, es) == Ok(mid) {
      GrowsFromItself(mid);
    } else {
      RunGrows(cfg, front + back, bars, strategy, |front|, mid);
    }
  }

  lemma GrowsFromItself(es: EngineState)
    ensures Grows(es, es)
  {
    hide EntryOfOpen, EntryOfTrade;
  }

  lemma LaterBarsContinue(
    cfg: EngineConfig, decisions: seq<Bar>, back: seq<Bar>, one: seq<Bar>, two: seq<Bar>, s1: Strategy, s2: Strategy)
    requires Chronological(decisions) && Chronological(one) && Chronological(two) && SameAnswers(s1, s2, |decisions|)
    requires decisions != [] ==> SamePast(cfg, one, two, Boundary(decisions[|decisions| - 1]))
    requires RunFrom(cfg, decisions, one, s1, 0, Initial(cfg)).Ok?
    requires RunFrom(cfg, decisions + back, two, s2, 0, Initial(cfg)).Ok?
    ensures Continued(Finish(cfg, RunFrom(cfg, decisions, one, s1, 0, Initial(cfg)).value).trades,
                      Finish(cfg, RunFrom(cfg, decisions + back, two, s2, 0, Initial(cfg)).value).trades)
  {
    hide RunFrom, SamePast, Finish, Grows, Continued, Leaks, Timeline;
    var start := Initial(cfg);
    LongerRunGrows(cfg, decisions, back, two, s2, start);
    NoLookahead(cfg, decisions, one, two, s1, s2, 0, start);
    var mid := RunFrom(cfg, decisions, two, s2, 0, start).value;
    var late := RunFrom(cfg, decisions + back, two, s2, 0, start).value;
    InitialIsSound(cfg, two);
    EveryStepIsSound(cfg, decisions, two, s2, 0, start);
    FinishGrows(cfg, late);
    GrowsTwice(mid, late, Finish(cfg, late));
    FinishedContinues(cfg, mid, Finish(cfg, late));
  }

  /** A run that fails on the first decisions fails alike on more of them, and a leak makes one of the two fail. */
  lemma FailureContinues(
    cfg: EngineConfig, decisions: seq<Bar>, back: seq<Bar>, one: seq<Bar>, two: seq<Bar>, s1: Strategy, s2: Strategy)
    requires Chronological(decisions) && SameAnswers(s1, s2, |decisions|)
    requires decisions != [] ==> SamePast(cfg, one, two, Boundary(decisions[|decisions| - 1]))
    ensures var short := RunFrom(cfg, decisions, one, s1, 0, Initial(cfg));
      var long := RunFrom(cfg, decisions + back, two, s2, 0, Initial(cfg));
      if Leaks(cfg, decisions, one, two, s1, s2, 0, Initial(cfg)) then short.Err? || long.Err?
      else short.Err? ==> long == short
  {
    hide RunFrom, SamePast, Finish, Leaks;
    NoLookahead(cfg, decisions, one, two, s1, s2, 0, Initial(cfg));
    LongerRunContinues(cfg, decisions, back, two, s2, 0, Initial(cfg));
  }

  /** The backtest got past the preparation of its histories. */
  predicate Ran(r: Result<EngineState, RunError>) {
    r.Ok? || r.error.InTrade?
  }

  /** Whatever history follows, it changes no trade that a backtest has finished, and a trade still open at the end
      is continued from the same entry; a backtest that fails, fails alike on every continuation. Only a leak, a
      refused plan that one tape alone has a bar for, makes one of the two fail and the other not. The strategies
      need only agree on the decisions of the shorter history. */
  lemma LaterHistoryChangesNoFinishedTrade(
    cfg: EngineConfig, m5: seq<Bar>, m15: seq<Bar>, longer5: seq<Bar>, longer15: seq<Bar>, s1: Strategy, s2: Strategy)
    requires m5 <= longer5 && SameAnswers(s1, s2, |KeepInDates(cfg, m5)|)
    requires Ran(RunBacktest(cfg, m5, m15, s1)) && Ran(RunBacktest(cfg, longer5, longer15, s2))
    requires cfg.model.M15CompletedV1? && KeepInDates(cfg, m5) != [] ==>
               SamePast(cfg, KeepInDates(cfg, m15), KeepInDates(cfg, longer15),
                        Boundary(KeepInDates(cfg, m5)[|KeepInDates(cfg, m5)| - 1]))
    ensures var short, long := RunBacktest(cfg, m5, m15, s1), RunBacktest(cfg, longer5, longer15, s2);
      && (short.Ok? && long.Ok? ==> Continued(short.value.trades, long.value.trades))
      && if Leaks(cfg, KeepInDates(cfg, m5), Tape(cfg, m5, m15), Tape(cfg, longer5, longer15), s1, s2, 0, Initial(cfg))
         then short.Err? || long.Err?
         else short.Err? ==> long == short
  {
    hide RunFrom, SamePast, Finish, Continued, KeepInDates, SameAnswers, Leaks;
    var decisions, more := KeepInDates(cfg, m5), KeepInDates(cfg, longer5);
    var one, two := Tape(cfg, m5, m15), Tape(cfg, longer5, longer15);
    KeptOfLonger(cfg, m5, longer5);
    if cfg.model.M5CompletedV2? && decisions != [] {
      M5HistoriesShareThePast(cfg, m5, longer5);
    }
    var back := more[|decisions|..];
    assert more == decisions + back;
    FailureContinues(cfg, decisions, back, one, two, s1, s2);
    if RunBacktest(cfg, m5, m15, s1).Ok? && RunBacktest(cfg, longer5, longer15, s2).Ok? {
      LaterBarsContinue(cfg, decisions, back, one, two, s1, s2);
    }
  }
}

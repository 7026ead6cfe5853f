/** What a simulated trade is, read off its plan and its bars. The account fixes every field of the trade without
    following the simulator from bar to bar. */
module TradeAccount {
  import opened Wrappers
  import opened Market
  import opened TradeLifecycle
  import opened TradeSafety
  import opened TradeRuns

  // ----- the account -----

  /** `x` is at least as good as `y` for the holder of the trade. */
  predicate AtLeast(isBuy: bool, x: real, y: real) {
    if isBuy then x >= y else x <= y
  }

  function Best(isBuy: bool, bar: Bar): real {
    if isBuy then bar.high else bar.low
  }

  function Worst(isBuy: bool, bar: Bar): real {
    if isBuy then bar.low else bar.high
  }

  /** What a market order gets at a reference price: one slippage less than it. */
  function Filled(e: Economics, buying: bool, reference: real): real {
    if buying then reference + e.slippagePoints * e.tickSize else reference - e.slippagePoints * e.tickSize
  }

  datatype Terms = Terms(isBuy: bool, entry: real, stop: real, target: real)

  /** The terms of a plan filled at the open of a bar: recentred levels move as far as the open is from the planned entry. */
  function TermsOf(cfg: Config, plan: TradePlan, fill: Bar): Terms {
    var shift := if cfg.recenter then fill.open - plan.entry else 0.0;
    Terms(plan.direction.Buy?, Filled(cfg.economics, plan.direction.Buy?, fill.open), plan.stop + shift, plan.target + shift)
  }

  /** The bar carried the trade as far past its entry as the stop is behind it. */
  predicate EarnsRisk(m: Terms, bar: Bar) {
    AtLeast(m.isBuy, Best(m.isBuy, bar), m.entry + (m.entry - m.stop))
  }

  /** One of the first `k` bars earned the risk, and the breakeven rule is on. */
  predicate Protected(cfg: Config, m: Terms, bars: seq<Bar>, k: nat)
    requires k <= |bars|
  {
    cfg.breakevenEnabled && exists j :: 0 <= j < k && EarnsRisk(m, bars[j])
  }

  /** The stop in force while bar `k` is traded. */
  function StopAt(cfg: Config, m: Terms, bars: seq<Bar>, k: nat): real
    requires k <= |bars|
  {
    if Protected(cfg, m, bars, k) then m.entry else m.stop
  }

  predicate MeetsStop(cfg: Config, m: Terms, bars: seq<Bar>, k: nat)
    requires k < |bars|
  {
    AtLeast(m.isBuy, StopAt(cfg, m, bars, k), Worst(m.isBuy, bars[k]))
  }

  predicate MeetsTarget(m: Terms, bar: Bar) {
    AtLeast(m.isBuy, Best(m.isBuy, bar), m.target)
  }

  /** None of the first `n` bars meets a level. */
  predicate MeetsNothing(cfg: Config, m: Terms, bars: seq<Bar>, n: nat)
    requires n <= |bars|
  {
    forall k :: 0 <= k < n ==> !MeetsStop(cfg, m, bars, k) && !MeetsTarget(m, bars[k])
  }

  /** How bar `n` ends the trade: at a gap by the level it opened beyond, otherwise by the level it meets, and if it
      meets both by the one the policy prefers. */
  predicate EndsBy(cfg: Config, m: Terms, bars: seq<Bar>, n: nat, reason: ExitReason, gap: bool)
    requires n < |bars|
  {
    var opensBelow := AtLeast(m.isBuy, StopAt(cfg, m, bars, n), bars[n].open);
    var opensAbove := AtLeast(m.isBuy, bars[n].open, m.target);
    && (gap <==> opensBelow || opensAbove)
    && (reason.TakeProfit? <==>
          opensAbove
          || (!opensBelow && MeetsTarget(m, bars[n]) && (MeetsStop(cfg, m, bars, n) ==> cfg.policy.Optimistic?)))
    && (reason.StopLoss? <==> !reason.TakeProfit?)
  }

  /** The price that triggers the exit. */
  function Trigger(cfg: Config, m: Terms, bars: seq<Bar>, n: nat, reason: ExitReason, gap: bool): real
    requires n < |bars|
  {
    match reason
    case TakeProfit => m.target
    case StopLoss => if gap then bars[n].open else StopAt(cfg, m, bars, n)
    case EndOfData => bars[n].close
  }

  /** The largest of the marks and of the highs of the first `n` bars. */
  predicate IsHighest(top: real, marks: seq<real>, bars: seq<Bar>, n: nat)
    requires n <= |bars|
  {
    && (forall x <- marks :: x <= top) && (forall k :: 0 <= k < n ==> bars[k].high <= top)
    && (top in marks || exists k :: 0 <= k < n && bars[k].high == top)
  }

  predicate IsLowest(bottom: real, marks: seq<real>, bars: seq<Bar>, n: nat)
    requires n <= |bars|
  {
    && (forall x <- marks :: x >= bottom) && (forall k :: 0 <= k < n ==> bars[k].low >= bottom)
    && (bottom in marks || exists k :: 0 <= k < n && bars[k].low == bottom)
  }

  /** The extremes are those of the whole bars and, on a bar that exits, of its open and the price of the exit. */
  predicate ExtremesOf(m: Terms, bars: seq<Bar>, n: nat, trigger: real, t: Trade)
    requires n < |bars|
  {
    var whole := if t.reason.EndOfData? then n + 1 else n;
    var marks := if t.reason.EndOfData? then [m.entry] else [m.entry, bars[n].open, trigger];
    && IsHighest(t.highest, marks, bars, whole) && IsLowest(t.lowest, marks, bars, whole)
    && t.mfe == (if m.isBuy then t.highest - m.entry else m.entry - t.lowest)
    && t.mae == (if m.isBuy then m.entry - t.lowest else t.highest - m.entry)
  }

  function EventsOf(cfg: Config, m: Terms, bars: seq<Bar>, n: nat, reason: ExitReason, gap: bool): seq<Event>
    requires n < |bars|
  {
    [EntryNextBarOpen]
    + (if Protected(cfg, m, bars, n) then [BreakevenPending, BreakevenActive]
       else if reason.EndOfData? && Protected(cfg, m, bars, n + 1) then [BreakevenPending]
       else [])
    + (if gap then [GapExit] else []) + [Exit(reason)]
  }

  /** The R multiples are the results in units of the money at risk between entry and stop. */
  predicate Measured(e: Economics, t: Trade) {
    && t.monetaryRisk == Money(e, if t.isBuy then t.entry - t.stop else t.stop - t.entry, t.size)
    && t.monetaryRisk > 0.0
    && t.grossR * t.monetaryRisk == t.gross && t.netR * t.monetaryRisk == t.net
  }

  /** The prices of the trade: where, when and why it was closed, and what it lived through. */
  predicate PricesOf(cfg: Config, m: Terms, bars: seq<Bar>, t: Trade, n: nat, gap: bool)
    requires n < |bars|
  {
    var trigger := Trigger(cfg, m, bars, n, t.reason, gap);
    && Terms(t.isBuy, t.entry, t.stop, t.target) == m
    && MeetsNothing(cfg, m, bars, n)
    && (if MeetsStop(cfg, m, bars, n) || MeetsTarget(m, bars[n]) then EndsBy(cfg, m, bars, n, t.reason, gap)
        else n + 1 == |bars| && t.reason.EndOfData? && !gap)
    && t.exit == (if t.reason.TakeProfit? then trigger else Filled(cfg.economics, !m.isBuy, trigger))
    && t.breakevenTriggered == Protected(cfg, m, bars, n)
    && t.events == EventsOf(cfg, m, bars, n, t.reason, gap)
    && ExtremesOf(m, bars, n, trigger, t)
  }

  /** The trade that a plan observed on one bar makes of the bars after it. */
  predicate IsTradeOf(cfg: Config, plan: TradePlan, observation: Bar, bars: seq<Bar>, t: Trade) {
    && 1 <= t.holdingBars <= |bars|
    && t.observedAt == observation.timestamp && t.entryTime == bars[0].timestamp
    && t.exitTime == bars[t.holdingBars - 1].timestamp && t.size == plan.size
    && PricesOf(cfg, TermsOf(cfg, plan, bars[0]), bars, t, t.holdingBars - 1, GapExit in t.events)
    && MoneyAccounted(cfg, bars[0].open, t) && Measured(cfg.economics, t) && Classified(cfg, t)
  }

  // ----- an open trade and the bars it has lived through -----

  /** The state of a trade that is still open after the first `n` bars. */
  predicate Follows(cfg: Config, m: Terms, bars: seq<Bar>, n: nat, s: PriceState)
    requires n <= |bars|
  {
    && Terms(s.isBuy, s.entry, s.originalStop, s.takeProfit) == m && s.holdingBars == n
    && MeetsNothing(cfg, m, bars, n)
    && (s.breakevenTriggered <==> n > 0 && Protected(cfg, m, bars, n - 1))
    && (s.breakevenTriggered || s.breakevenPending <==> Protected(cfg, m, bars, n))
    && IsHighest(s.highest, [m.entry], bars, n) && IsLowest(s.lowest, [m.entry], bars, n)
  }

  lemma ProtectedGrows(cfg: Config, m: Terms, bars: seq<Bar>, n: nat)
    requires n < |bars|
    ensures Protected(cfg, m, bars, n + 1) <==>
              Protected(cfg, m, bars, n) || (cfg.breakevenEnabled && EarnsRisk(m, bars[n]))
  {
  }

  /** Before bar `n` is examined the stop stands where the account says. */
  lemma StopInForce(cfg: Config, m: Terms, bars: seq<Bar>, n: nat, s: PriceState)
    requires n < |bars| && Follows(cfg, m, bars, n, s) && Sound(cfg, s)
    ensures var active := ActivateBreakeven(s.(holdingBars := n + 1));
      && (active.breakevenTriggered <==> Protected(cfg, m, bars, n)) && !active.breakevenPending
      && active.currentStop == StopAt(cfg, m, bars, n)
      && active == s.(holdingBars := n + 1, currentStop := active.currentStop, breakevenTriggered := active.breakevenTriggered,
                      breakevenPending := false, events := active.events)
  {
    hide EarnsRisk;
    if n > 0 {
      ProtectedGrows(cfg, m, bars, n - 1);
    }
  }

  /** A bar closes the trade exactly when it meets a level, in the way and at the price of the account. */
  lemma ExitsAsTold(cfg: Config, m: Terms, bars: seq<Bar>, n: nat, active: PriceState)
    requires n < |bars| && ValidBar(bars[n]) && Terms(active.isBuy, active.entry, active.originalStop, active.takeProfit) == m
    requires Sound(cfg, active) && active.currentStop == StopAt(cfg, m, bars, n)
    ensures match ResolveBarExit(cfg.policy, active, bars[n])
            case None => !MeetsStop(cfg, m, bars, n) && !MeetsTarget(m, bars[n])
            case Some(d) =>
              && (MeetsStop(cfg, m, bars, n) || MeetsTarget(m, bars[n]))
              && EndsBy(cfg, m, bars, n, d.reason, d.gap) && d.price == Trigger(cfg, m, bars, n, d.reason, d.gap)
              && d.slips == !d.reason.TakeProfit?
  {
    hide Protected, StopAt;
  }

  lemma HighestGrows(top: real, marks: seq<real>, bars: seq<Bar>, n: nat)
    requires n < |bars| && IsHighest(top, marks, bars, n)
    ensures IsHighest(Max(top, bars[n].high), marks, bars, n + 1)
  {
  }

  lemma LowestGrows(bottom: real, marks: seq<real>, bars: seq<Bar>, n: nat)
    requires n < |bars| && IsLowest(bottom, marks, bars, n)
    ensures IsLowest(Min(bottom, bars[n].low), marks, bars, n + 1)
  {
  }

  /** A bar that meets no level leaves the trade open, and its whole range has been lived through. */
  lemma SurvivesAsTold(cfg: Config, m: Terms, bars: seq<Bar>, n: nat, s: PriceState, active: PriceState)
    requires n < |bars| && ValidBar(bars[n]) && Follows(cfg, m, bars, n, s) && Sound(cfg, s)
    requires active == ActivateBreakeven(s.(holdingBars := n + 1))
    requires !MeetsStop(cfg, m, bars, n) && !MeetsTarget(m, bars[n])
    ensures Follows(cfg, m, bars, n + 1, ArmBreakeven(cfg, UpdateExcursions(active, bars[n], None), bars[n]))
  {
    hide IsHighest, IsLowest, Protected, MeetsStop, MeetsTarget, ValidBar, ActivateBreakeven;
    StopInForce(cfg, m, bars, n, s);
    ProtectedGrows(cfg, m, bars, n);
    HighestGrows(s.highest, [m.entry], bars, n);
    LowestGrows(s.lowest, [m.entry], bars, n);
    assert ReachesBreakeven(active, bars[n]) == EarnsRisk(m, bars[n]);
    hide ReachesBreakeven, EarnsRisk;
  }

  lemma HighestAtExit(top: real, entry: real, open: real, trigger: real, bars: seq<Bar>, n: nat)
    requires n <= |bars| && IsHighest(top, [entry], bars, n)
    ensures IsHighest(Max(top, Max(open, trigger)), [entry, open, trigger], bars, n)
  {
    assert [entry, open, trigger][0] == entry && [entry, open, trigger][1] == open && [entry, open, trigger][2] == trigger;
    assert [entry][0] == entry;
  }

  lemma LowestAtExit(bottom: real, entry: real, open: real, trigger: real, bars: seq<Bar>, n: nat)
    requires n <= |bars| && IsLowest(bottom, [entry], bars, n)
    ensures IsLowest(Min(bottom, Min(open, trigger)), [entry, open, trigger], bars, n)
  {
    assert [entry, open, trigger][0] == entry && [entry, open, trigger][1] == open && [entry, open, trigger][2] == trigger;
    assert [entry][0] == entry;
  }

  /** On the exit bar the trade lives from the open to the price of the exit. */
  lemma SeenAtExit(policy: Policy, s: PriceState, bar: Bar, d: ExitDecision)
    requires ResolveBarExit(policy, s, bar) == Some(d) && ValidBar(bar)
    requires ExitSideHolds(s.isBuy, s.entry, s.originalStop, s.takeProfit) && s.currentStop in {s.originalStop, s.entry}
    requires s.lowest <= s.entry <= s.highest
    ensures var seen := UpdateExcursions(s, bar, Some(d));
      && seen.highest == Max(s.highest, Max(bar.open, d.price)) && seen.lowest == Min(s.lowest, Min(bar.open, d.price))
  {
  }

  lemma ExtremesAsTold(cfg: Config, m: Terms, bars: seq<Bar>, n: nat, active: PriceState, d: ExitDecision, t: Trade)
    requires n < |bars| && ValidBar(bars[n]) && Sound(cfg, active) && active.entry == m.entry && active.isBuy == m.isBuy
    requires IsHighest(active.highest, [m.entry], bars, n) && IsLowest(active.lowest, [m.entry], bars, n)
    requires ResolveBarExit(cfg.policy, active, bars[n]) == Some(d) && Reports(cfg, t, AtExit(active, bars[n], d), d)
    ensures ExtremesOf(m, bars, n, d.price, t)
  {
    SeenAtExit(cfg.policy, active, bars[n], d);
    HighestAtExit(active.highest, m.entry, bars[n].open, d.price, bars, n);
    LowestAtExit(active.lowest, m.entry, bars[n].open, d.price, bars, n);
    ReasonIsNotEndOfData(cfg.policy, active, bars[n], d);
    hide IsHighest, IsLowest, ValidBar, ResolveBarExit, ObservedRange;
  }

  lemma ReasonIsNotEndOfData(policy: Policy, s: PriceState, bar: Bar, d: ExitDecision)
    requires ResolveBarExit(policy, s, bar) == Some(d)
    ensures !d.reason.EndOfData?
  {
  }

  lemma EventsAsTold(cfg: Config, m: Terms, bars: seq<Bar>, n: nat, active: PriceState, d: ExitDecision)
    requires n < |bars| && Sound(cfg, active) && !active.breakevenPending && !d.reason.EndOfData?
    requires active.breakevenTriggered <==> Protected(cfg, m, bars, n)
    ensures AtExit(active, bars[n], d).events == EventsOf(cfg, m, bars, n, d.reason, d.gap)
    ensures GapExit in AtExit(active, bars[n], d).events <==> d.gap
  {
    hide Protected, ObservedRange;
    ExitWord(cfg, UpdateExcursions(active, bars[n], Some(d)), d);
  }

  /** What the account says of the exit on bar `n`. */
  lemma ClosesAsTold(cfg: Config, m: Terms, bars: seq<Bar>, n: nat, s: PriceState, active: PriceState, d: ExitDecision, t: Trade)
    requires n < |bars| && ValidBar(bars[n]) && Follows(cfg, m, bars, n, s) && Sound(cfg, s) && Contained(s)
    requires active == ActivateBreakeven(s.(holdingBars := n + 1)) && ResolveBarExit(cfg.policy, active, bars[n]) == Some(d)
    requires Reports(cfg, t, AtExit(active, bars[n], d), d)
    ensures PricesOf(cfg, m, bars, t, n, d.gap) && (GapExit in t.events <==> d.gap)
  {
    SteppedIsSound(cfg, s, n + 1);
    StopInForce(cfg, m, bars, n, s);
    ExitsAsTold(cfg, m, bars, n, active);
    ReasonIsNotEndOfData(cfg.policy, active, bars[n], d);
    EventsAsTold(cfg, m, bars, n, active, d);
    ExtremesAsTold(cfg, m, bars, n, active, d, t);
    hide IsHighest, IsLowest, Protected, MeetsStop, MeetsTarget, ValidBar, ActivateBreakeven, ResolveBarExit, ObservedRange,
         EndsBy, MeetsNothing, Contained, ExtremesOf, EventsOf, Sound;
  }

  lemma SteppedIsSound(cfg: Config, s: PriceState, bars: nat)
    requires Sound(cfg, s) && Contained(s)
    ensures var active := ActivateBreakeven(s.(holdingBars := bars));
      Sound(cfg, active) && Contained(active) && !active.breakevenPending
  {
    var stepped := s.(holdingBars := bars);
    assert Prelude(stepped) == Prelude(s);
    ActivationKeepsSound(cfg, stepped);
  }

  /** A trade that is still open when the data ends. */
  lemma EndsAsTold(cfg: Config, m: Terms, bars: seq<Bar>, s: PriceState, last: Bar, t: Trade)
    requires bars != [] && last == bars[|bars| - 1] && Follows(cfg, m, bars, |bars|, s) && Sound(cfg, s)
    requires Reports(cfg, t, RecordExit(s, EndOfDataDecision(last)), EndOfDataDecision(last))
    ensures PricesOf(cfg, m, bars, t, |bars| - 1, false) && GapExit !in t.events
  {
    ExitWord(cfg, s, EndOfDataDecision(last));
    hide IsHighest, IsLowest, Protected, MeetsStop, MeetsTarget;
  }

  // ----- whole runs -----

  lemma TermsAreLevels(cfg: Config, plan: TradePlan, fill: Bar)
    requires PlanError(plan).None?
    ensures var s := OpenState(cfg, plan, fill);
      && Terms(s.isBuy, s.entry, s.originalStop, s.takeProfit) == TermsOf(cfg, plan, fill)
      && (EntryPrice(cfg, plan, fill), ExitLevels(cfg, plan, fill.open)) == (s.entry, (s.originalStop, s.takeProfit))
  {
  }

  lemma RiskIsMeasured(
    e: Economics, plan: TradePlan, observation: Bar, fill: Bar, last: Bar, s: PriceState, d: ExitDecision)
    requires plan.size > 0.0 && ExitSideHolds(s.isBuy, s.entry, s.originalStop, s.takeProfit)
    ensures Measured(e, Complete(e, plan, observation, fill, last, s, d))
  {
    MultiplesMeasureRisk(e, plan, observation, fill, last, s, d);
    hide Money, Directed, ExitPrice, Classify, SlippageCost, SpreadCost, Commission, RMultiple;
    assert Abs(s.entry - s.originalStop) == if s.isBuy then s.entry - s.originalStop else s.originalStop - s.entry;
    hide Abs;
  }

  /** The record of a trade whose prices are as told. */
  lemma RecordIsTold(
    cfg: Config, plan: TradePlan, observation: Bar, bars: seq<Bar>, n: nat, final: PriceState, d: ExitDecision, t: Trade)
    requires n < |bars| && Carries(cfg, plan, observation, bars[0], final) && final.holdingBars == n + 1
    requires ExitSideHolds(final.isBuy, final.entry, final.originalStop, final.takeProfit)
    requires t == Complete(cfg.economics, plan, observation, bars[0], bars[n], final, d) && d.slips == !d.reason.TakeProfit?
    requires PricesOf(cfg, TermsOf(cfg, plan, bars[0]), bars, t, n, d.gap) && (GapExit in t.events <==> d.gap)
    ensures IsTradeOf(cfg, plan, observation, bars, t)
  {
    ExitAccountsForMoney(cfg, plan, observation, bars[0], bars[n], final, d);
    ExitIsClassified(cfg, plan, observation, bars[0], bars[n], final, d);
    RiskIsMeasured(cfg.economics, plan, observation, bars[0], bars[n], final, d);
    hide PricesOf, MoneyAccounted, Measured, Classified, TermsOf, Classify, Money, RMultiple, SlippageCost;
  }

  /** One more bar: the trade follows the account, or it has become the trade of the account. */
  lemma StepIsTold(cfg: Config, plan: TradePlan, observation: Bar, bars: seq<Bar>, n: nat, s: PriceState)
    requires n < |bars| && Carries(cfg, plan, observation, bars[0], s) && Sound(cfg, s) && Contained(s) && ValidBar(bars[n])
    requires Follows(cfg, TermsOf(cfg, plan, bars[0]), bars, n, s)
    ensures var next := Advance(cfg, plan, observation, bars[0], s, bars[n]);
      if next.Closed? then IsTradeOf(cfg, plan, observation, bars, next.trade)
      else next.Open? && Follows(cfg, TermsOf(cfg, plan, bars[0]), bars, n + 1, next.state)
  {
    var m := TermsOf(cfg, plan, bars[0]);
    var active := ActivateBreakeven(s.(holdingBars := s.holdingBars + 1));
    SteppedIsSound(cfg, s, n + 1);
    StopInForce(cfg, m, bars, n, s);
    ExitsAsTold(cfg, m, bars, n, active);
    hide Complete, ArmBreakeven, ObservedRange, Sound, Contained, ResolveBarExit, ActivateBreakeven, ValidBar, PricesOf,
         IsTradeOf, TermsOf, ExitLevels, EntryPrice, PlanError, StopAt, MeetsStop, MeetsTarget, EndsBy, Trigger;
    match ResolveBarExit(cfg.policy, active, bars[n])
    case None =>
      SurvivesAsTold(cfg, m, bars, n, s, active);
    case Some(d) =>
      var final := AtExit(active, bars[n], d);
      var t := Complete(cfg.economics, plan, observation, bars[0], bars[n], final, d);
      ExitIsReported(cfg, plan, observation, bars[0], bars[n], final, d);
      ClosesAsTold(cfg, m, bars, n, s, active, d, t);
      RecordIsTold(cfg, plan, observation, bars, n, final, d, t);
  }

  lemma ExitIsReported(
    cfg: Config, plan: TradePlan, observation: Bar, fill: Bar, last: Bar, final: PriceState, d: ExitDecision)
    ensures Reports(cfg, Complete(cfg.economics, plan, observation, fill, last, final, d), final, d)
  {
    hide Money, Directed, ExitPrice, Classify, SlippageCost, SpreadCost, Commission, RMultiple;
  }

  /** `sim` is a trade of the plan that is still open after the first `n` bars. */
  predicate OpenAfter(cfg: Config, plan: TradePlan, observation: Bar, bars: seq<Bar>, n: nat, sim: Simulation)
    requires n <= |bars|
  {
    && sim.Open? && n > 0 && SimulationSound(cfg, sim)
    && sim.plan == plan && sim.observation == observation && sim.fill == bars[0] && sim.last == bars[n - 1]
    && Follows(cfg, TermsOf(cfg, plan, bars[0]), bars, n, sim.state)
  }

  lemma NextIsTold(cfg: Config, plan: TradePlan, observation: Bar, bars: seq<Bar>, n: nat, sim: Simulation)
    requires n < |bars| && ProcessBar(cfg, sim, bars[n]).Ok?
    requires if n == 0 then sim == Pending(plan, observation) && PlanError(plan).None?
             else OpenAfter(cfg, plan, observation, bars, n, sim)
    ensures var next := ProcessBar(cfg, sim, bars[n]).value;
      if next.Closed? then IsTradeOf(cfg, plan, observation, bars, next.trade)
      else OpenAfter(cfg, plan, observation, bars, n + 1, next)
  {
    var s := StateBefore(cfg, plan, observation, bars, n, sim);
    ProcessBarKeepsSound(cfg, sim, bars[n]);
    hide Follows, TermsOf, Carries, Sound, Contained, ValidBar, Advance, IsTradeOf, SimulationSound, ProcessBar, PlanError;
    StepIsTold(cfg, plan, observation, bars, n, s);
    AdvanceCarries(cfg, plan, observation, bars[0], s, bars[n]);
  }

  /** The state in which bar `n` is examined: that of the open trade, or of the trade filled at its open. */
  lemma StateBefore(cfg: Config, plan: TradePlan, observation: Bar, bars: seq<Bar>, n: nat, sim: Simulation)
    returns (s: PriceState)
    requires n < |bars| && ProcessBar(cfg, sim, bars[n]).Ok?
    requires if n == 0 then sim == Pending(plan, observation) && PlanError(plan).None?
             else OpenAfter(cfg, plan, observation, bars, n, sim)
    ensures Carries(cfg, plan, observation, bars[0], s) && Sound(cfg, s) && Contained(s) && ValidBar(bars[n])
    ensures Follows(cfg, TermsOf(cfg, plan, bars[0]), bars, n, s) && SimulationSound(cfg, sim)
    ensures ProcessBar(cfg, sim, bars[n]) == Ok(Advance(cfg, plan, observation, bars[0], s, bars[n]))
  {
    hide Advance, ValidBar, TermsOf;
    if n == 0 {
      s := OpenState(cfg, plan, bars[0]);
      TermsAreLevels(cfg, plan, bars[0]);
    } else {
      s := sim.state;
    }
  }

  lemma AdvanceCarries(cfg: Config, plan: TradePlan, observation: Bar, fill: Bar, s: PriceState, bar: Bar)
    ensures var next := Advance(cfg, plan, observation, fill, s, bar);
      && next.plan == plan && next.observation == observation
      && !next.Pending? && next.fill == fill && next.last == bar
  {
    hide Complete, ObservedRange, ResolveBarExit;
  }

  lemma {:induction false} RunIsTold(cfg: Config, plan: TradePlan, observation: Bar, bars: seq<Bar>, n: nat, sim: Simulation)
    requires n <= |bars| && Run(cfg, sim, bars[n..]).Ok?
    requires if n == 0 then sim == Pending(plan, observation) && PlanError(plan).None?
             else OpenAfter(cfg, plan, observation, bars, n, sim)
    ensures var end := Run(cfg, sim, bars[n..]).value;
      if end.Closed? then IsTradeOf(cfg, plan, observation, bars, end.trade)
      else bars == [] || OpenAfter(cfg, plan, observation, bars, |bars|, end)
    decreases |bars| - n
  {
    hide OpenAfter, IsTradeOf, ProcessBar, PlanError;
    StartsOpenOrPending(cfg, plan, observation, bars, n, sim);
    if n < |bars| {
      assert bars[n..][0] == bars[n] && bars[n..][1..] == bars[n + 1..];
      var next := ProcessBar(cfg, sim, bars[n]).value;
      NextIsTold(cfg, plan, observation, bars, n, sim);
      if next.Closed? {
        assert Run(cfg, next, bars[n + 1..]) == Ok(next);
      } else {
        RunIsTold(cfg, plan, observation, bars, n + 1, next);
      }
    }
  }

  lemma StartsOpenOrPending(cfg: Config, plan: TradePlan, observation: Bar, bars: seq<Bar>, n: nat, sim: Simulation)
    requires n <= |bars|
    requires if n == 0 then sim == Pending(plan, observation) else OpenAfter(cfg, plan, observation, bars, n, sim)
    ensures !sim.Closed?
  {
  }

  lemma SimulatedAsTold(cfg: Config, plan: TradePlan, observation: Bar, bars: seq<Bar>)
    requires Simulate(cfg, plan, observation, bars).Ok?
    ensures var sim := Simulate(cfg, plan, observation, bars).value;
      sim.Closed? && IsTradeOf(cfg, plan, observation, bars, sim.trade)
  {
    assert bars[0..] == bars;
    RunIsTold(cfg, plan, observation, bars, 0, Pending(plan, observation));
    var end := Run(cfg, Pending(plan, observation), bars).value;
    if end.Open? {
      LastIsTold(cfg, plan, observation, bars, end);
    }
    hide IsTradeOf, Run, OpenAfter, ValidBar;
  }

  lemma LastIsTold(cfg: Config, plan: TradePlan, observation: Bar, bars: seq<Bar>, sim: Simulation)
    requires bars != [] && OpenAfter(cfg, plan, observation, bars, |bars|, sim)
    ensures var final := Finalize(cfg, sim);
      final.Ok? && final.value.Closed? && IsTradeOf(cfg, plan, observation, bars, final.value.trade)
  {
    var m, n, d := TermsOf(cfg, plan, bars[0]), |bars| - 1, EndOfDataDecision(sim.last);
    var final := RecordExit(sim.state, d);
    var t := Complete(cfg.economics, plan, observation, bars[0], bars[n], final, d);
    assert Carries(cfg, plan, observation, bars[0], final);
    ExitIsReported(cfg, plan, observation, bars[0], bars[n], final, d);
    EndsAsTold(cfg, m, bars, sim.state, sim.last, t);
    hide IsHighest, IsLowest, TermsOf, PlanError, ValidBar, ExitLevels, EntryPrice, PricesOf, Complete, MeetsNothing,
         Contained, Survived;
    RecordIsTold(cfg, plan, observation, bars, n, final, d, t);
  }

  // ----- the account leaves nothing open -----

  lemma OneHighest(x: real, y: real, marks: seq<real>, bars: seq<Bar>, n: nat)
    requires n <= |bars| && IsHighest(x, marks, bars, n) && IsHighest(y, marks, bars, n)
    ensures x == y
  {
  }

  lemma OneLowest(x: real, y: real, marks: seq<real>, bars: seq<Bar>, n: nat)
    requires n <= |bars| && IsLowest(x, marks, bars, n) && IsLowest(y, marks, bars, n)
    ensures x == y
  {
  }

  lemma OneEnding(cfg: Config, m: Terms, bars: seq<Bar>, a: Trade, i: nat, gapA: bool, b: Trade, j: nat, gapB: bool)
    requires i < |bars| && j < |bars| && PricesOf(cfg, m, bars, a, i, gapA) && PricesOf(cfg, m, bars, b, j, gapB)
    ensures i == j && gapA == gapB && a.reason == b.reason
  {
    hide MeetsStop, MeetsTarget, StopAt, AtLeast, IsHighest, IsLowest, ExtremesOf, EventsOf, Trigger, Filled;
  }

  lemma OnePrices(cfg: Config, m: Terms, bars: seq<Bar>, a: Trade, b: Trade, n: nat, gap: bool)
    requires n < |bars| && PricesOf(cfg, m, bars, a, n, gap) && PricesOf(cfg, m, bars, b, n, gap) && a.reason == b.reason
    ensures (a.isBuy, a.entry, a.stop, a.target) == (b.isBuy, b.entry, b.stop, b.target)
    ensures (a.exit, a.breakevenTriggered, a.events) == (b.exit, b.breakevenTriggered, b.events)
    ensures (a.highest, a.lowest, a.mfe, a.mae) == (b.highest, b.lowest, b.mfe, b.mae)
  {
    var whole := if a.reason.EndOfData? then n + 1 else n;
    var trigger := Trigger(cfg, m, bars, n, a.reason, gap);
    var marks := if a.reason.EndOfData? then [m.entry] else [m.entry, bars[n].open, trigger];
    hide MeetsStop, MeetsTarget, MeetsNothing, StopAt, AtLeast, EventsOf, EndsBy, Trigger, Filled, IsHighest, IsLowest;
    OneHighest(a.highest, b.highest, marks, bars, whole);
    OneLowest(a.lowest, b.lowest, marks, bars, whole);
  }

  lemma SameQuotient(x: real, y: real, unit: real)
    requires unit != 0.0 && x * unit == y * unit
    ensures x == y
  {
    assert (x - y) * unit == 0.0;
  }

  /** The prices, the size and the economics fix the money. */
  lemma OneMoney(cfg: Config, open: real, a: Trade, b: Trade)
    requires MoneyAccounted(cfg, open, a) && Measured(cfg.economics, a) && Classified(cfg, a)
    requires MoneyAccounted(cfg, open, b) && Measured(cfg.economics, b) && Classified(cfg, b)
    requires (a.isBuy, a.entry, a.stop, a.exit, a.reason, a.size) == (b.isBuy, b.entry, b.stop, b.exit, b.reason, b.size)
    ensures (a.gross, a.spreadCost, a.commission, a.net) == (b.gross, b.spreadCost, b.commission, b.net)
    ensures (a.slippageCost, a.monetaryRisk, a.grossR, a.netR, a.outcome)
         == (b.slippageCost, b.monetaryRisk, b.grossR, b.netR, b.outcome)
  {
    hide Money;
    SameQuotient(a.grossR, b.grossR, a.monetaryRisk);
    SameQuotient(a.netR, b.netR, a.monetaryRisk);
  }

  lemma OnlyOneTrade(cfg: Config, plan: TradePlan, observation: Bar, bars: seq<Bar>, a: Trade, b: Trade)
    requires IsTradeOf(cfg, plan, observation, bars, a) && IsTradeOf(cfg, plan, observation, bars, b)
    ensures a == b
  {
    hide PricesOf, MoneyAccounted, Measured, Classified;
    var m := TermsOf(cfg, plan, bars[0]);
    OneEnding(cfg, m, bars, a, a.holdingBars - 1, GapExit in a.events, b, b.holdingBars - 1, GapExit in b.events);
    OnePrices(cfg, m, bars, a, b, a.holdingBars - 1, GapExit in a.events);
    OneMoney(cfg, bars[0].open, a, b);
  }

  /** A simulation that succeeds records the trade the account describes, and no other trade fits the account. */
  lemma EveryTradeIsAsTold(cfg: Config, plan: TradePlan, observation: Bar, bars: seq<Bar>)
    requires Simulate(cfg, plan, observation, bars).Ok?
    ensures Simulate(cfg, plan, observation, bars).value.Closed?
    ensures forall t :: IsTradeOf(cfg, plan, observation, bars, t) <==> t == Simulate(cfg, plan, observation, bars).value.trade
  {
    SimulatedAsTold(cfg, plan, observation, bars);
    hide IsTradeOf, Simulate;
    var trade := Simulate(cfg, plan, observation, bars).value.trade;
    forall t | IsTradeOf(cfg, plan, observation, bars, t)
      ensures t == trade
    {
      OnlyOneTrade(cfg, plan, observation, bars, t, trade);
    }
  }

  // ----- what the simulator accepts -----

  /** Positive prices, the open and the close within the range. */
  predicate WellShaped(b: Bar) {
    0.0 < b.low && b.low <= b.open <= b.high && b.low <= b.close <= b.high
  }

  predicate PositivePlan(plan: TradePlan) {
    plan.size > 0.0 && plan.entry > 0.0 && plan.stop > 0.0 && plan.target > 0.0
  }

  /** The entry lies strictly between the levels, the stop on the losing side. */
  predicate WellPlaced(m: Terms) {
    if m.isBuy then m.stop < m.entry && m.entry < m.target else m.target < m.entry && m.entry < m.stop
  }

  predicate WellFormed(plan: TradePlan) {
    && plan.approved && PositivePlan(plan) && plan.direction != Hold
    && WellPlaced(Terms(plan.direction == Buy, plan.entry, plan.stop, plan.target))
  }

  /** Well-shaped bars in time order, all of them later than a given time. */
  predicate WellOrdered(previous: int, bars: seq<Bar>) {
    Chronological(bars) && forall b <- bars :: WellShaped(b) && b.timestamp > previous
  }

  lemma ValidIsWellShaped(b: Bar)
    ensures ValidBar(b) <==> WellShaped(b)
  {
  }

  /** What is said first about a plan: it is not approved, not positive, has no direction, or misplaces its levels. */
  lemma PlanComplaint(plan: TradePlan)
    ensures PlanError(plan).None? <==> WellFormed(plan)
    ensures PlanError(plan) == Some(PlanNotApproved) <==> !plan.approved
    ensures PlanError(plan) == Some(PlanNotPositive) <==> plan.approved && !PositivePlan(plan)
    ensures PlanError(plan) == Some(PlanWithoutDirection) <==> plan.approved && PositivePlan(plan) && plan.direction == Hold
  {
  }

  lemma WellOrderedByFirst(previous: int, bars: seq<Bar>)
    requires bars != []
    ensures WellOrdered(previous, bars) <==>
              WellShaped(bars[0]) && bars[0].timestamp > previous && WellOrdered(bars[0].timestamp, bars[1..])
  {
    hide WellShaped;
    if WellShaped(bars[0]) && bars[0].timestamp > previous && WellOrdered(bars[0].timestamp, bars[1..]) {
      forall i, j | 0 <= i < j < |bars|
        ensures bars[i].timestamp < bars[j].timestamp
      {
        assert bars[j] == bars[1..][j - 1] && bars[1..][j - 1] in bars[1..];
        assert i > 0 ==> bars[i] == bars[1..][i - 1];
      }
    }
  }

  /** Bars are accepted exactly when all are well shaped and in order; the complaint is about the first that is not. */
  lemma {:induction false} BarsComplaint(previous: int, bars: seq<Bar>)
    ensures BarsError(previous, bars).None? <==> WellOrdered(previous, bars)
    ensures BarsError(previous, bars).Some? ==>
              exists k :: 0 <= k < |bars| && WellOrdered(previous, bars[..k]) && !WellOrdered(previous, bars[..k + 1])
                          && BarsError(previous, bars) == Some(if WellShaped(bars[k]) then NotChronological else InvalidBar)
    decreases |bars|
  {
    hide WellShaped, ValidBar, WellOrdered;
    if bars == [] {
      NoBarsAreOrdered(previous);
    } else {
      ValidIsWellShaped(bars[0]);
      WellOrderedByFirst(previous, bars);
      BarsComplaint(bars[0].timestamp, bars[1..]);
      if BarsError(previous, bars).Some? {
        var k := 0;
        if WellShaped(bars[0]) && bars[0].timestamp > previous {
          k :| 0 <= k < |bars[1..]| && WellOrdered(bars[0].timestamp, bars[1..][..k])
               && !WellOrdered(bars[0].timestamp, bars[1..][..k + 1])
               && BarsError(bars[0].timestamp, bars[1..]) == Some(if WellShaped(bars[1..][k]) then NotChronological else InvalidBar);
          assert bars[..k + 1][1..] == bars[1..][..k] && bars[..k + 2][1..] == bars[1..][..k + 1];
          WellOrderedByFirst(previous, bars[..k + 1]);
          WellOrderedByFirst(previous, bars[..k + 2]);
          k := k + 1;
        } else {
          NoBarsAreOrdered(previous);
          WellOrderedByFirst(previous, bars[..1]);
          assert bars[..0] == [];
        }
        assert bars[..k + 1] != [];
      }
    }
  }

  lemma NoBarsAreOrdered(previous: int)
    ensures WellOrdered(previous, [])
  {
  }

  /** A simulation succeeds exactly on a well-formed plan, well-shaped bars in order, at least one of them after the
      observation, and a fill that leaves the entry between the levels. */
  lemma SimulationSucceedsExactly(cfg: Config, plan: TradePlan, observation: Bar, bars: seq<Bar>)
    ensures Simulate(cfg, plan, observation, bars).Ok? <==>
              && WellFormed(plan) && WellShaped(observation) && bars != [] && WellOrdered(observation.timestamp, bars)
              && WellPlaced(TermsOf(cfg, plan, bars[0]))
  {
    PlanComplaint(plan);
    ValidIsWellShaped(observation);
    BarsComplaint(observation.timestamp, bars);
    if InputsError(plan, observation, bars).None? {
      SimulationFailsOnlyAtTheFill(cfg, plan, observation, bars);
      TermsAreLevels(cfg, plan, bars[0]);
    }
    hide Run, Finalize, TermsOf, WellFormed, WellShaped, WellOrdered, OpenState, ValidBar, PlanError;
  }

  /** What is said first about one more bar: the trade is closed, the bar is misshapen, it is not later than the last one,
      or it fills the plan outside its levels. */
  lemma BarComplaint(cfg: Config, sim: Simulation, bar: Bar)
    requires sim.Pending? ==> PlanError(sim.plan).None?
    ensures var r := ProcessBar(cfg, sim, bar);
      var last := if sim.Pending? then sim.observation else sim.last;
      if sim.Closed? then r == Err(AlreadyClosed)
      else if !WellShaped(bar) then r == Err(InvalidBar)
      else if bar.timestamp <= last.timestamp then r == Err(NotChronological)
      else if sim.Pending? && !WellPlaced(TermsOf(cfg, sim.plan, bar)) then r == Err(WrongExitSide)
      else r.Ok?
  {
    ValidIsWellShaped(bar);
    if sim.Pending? {
      TermsAreLevels(cfg, sim.plan, bar);
    }
    hide ValidBar, WellShaped, Advance, TermsOf, PlanError;
  }
}

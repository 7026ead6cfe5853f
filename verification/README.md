# A verified model of the backtesting kernel

The project models the historical-execution kernel of the repository and the
streaming research algorithms around it, and proves what they keep over whole
runs. Prices and money are exact reals; timestamps are whole minutes.

- **One trade** (`TradeLifecycle`, `TradeSafety`, `TradeRuns`, `TradeReflection`,
  `TradeAccount`, `TradeSimulator`). A plan waits for its fill, is open from the next bar's open
  with slippage and recentred levels, may move its stop to breakeven one bar
  after a bar earned its risk, and ends by a gap, a stop, a target or the end of
  the data. `TradeLifecycle` specifies the steps; the classes of
  `TradeSimulator` perform them on mutable state and are proved to refine it;
  `TradeAccount` says of a whole run which trade it is, from the prices alone, and
  that there is only one.
- **One backtest** (`EquityCurve`, `BacktestRun`, `BacktestSafety`,
  `BacktestBatch`, `BacktestDecisions`, `BacktestPlans`, `BacktestCausality`, `BacktestHistories`,
  `BacktestingEngine`). Decisions on closed M5 bars and lifecycle bars on an M5
  or M15 clock are interleaved; the analytical pipeline
  is an arbitrary function of the bar index and of the account it is shown, so
  every theorem holds for every strategy.
- **Candidate outcomes** (`CandidateEvaluation`, `CandidateTracker`,
  `StreamingAgreement`, `PostExpiryTracker`, `PostExpiryLifetime`,
  `PostExpiryAgreement`). Both streaming trackers agree with a single evaluation
  of the bars they saw, lose no candidate and finish.
- **Selection rules** (`CandidateSelection`, `ConfirmationRules`). Clusters,
  cooldown, quiet confirmation and persistence, what they select and what they
  may know at the time.
- **Shadow trades** (`ShadowSimulation`, `ShadowSchedule`). The bounded-horizon
  short simulators and the greedy one-position-at-a-time schedule.
- **Supporting algorithms** (`BalancedFolds`, `TimeLookups`, `JsonExport`,
  `MetadataFlattening`, and `Sequences` for sorting).

A plain function such as `TradeLifecycle.Run` is the specification of one step
or one run; a method of a class is the imperative code proved equal to it; the
lemmas state what follows for every input.

Where the code differs from what its names suggest, the code is followed:

- The persistence rule with a requirement of one does not select the first
  member of every streak: it never considers the very first candidate
  (`ConfirmationRules.PersistenceSelectsMembers` gives the exact condition).
- A gap through the target is filled at the target, not at the better open.
- The alignment report has a reason for an audit without a prior observation;
  inside the common window it is never given (`TimeLookups.AlignAudits`).
- Under the M5 model the branch that drops an unfilled plan is never taken
  (`BacktestSafety.M5PlansAreAlwaysFilled`).
- The engine asks one question about the future, whether any bar is left that
  could fill a plan. So its state after a decision does depend on later bars;
  what a backtest reports depends on them exactly when it arrives at a plan that
  the simulator refuses (`BacktestCausality.NoLookahead`).
- A comment at the end of a run says that a pending plan had no later completed
  bar; under the M15 model there may be one that has not closed by the last
  decision (`BacktestPlans.M15PlanMayBeDropped` is such a run, and
  `PlanIsDroppedExactlyWhenTooLate` the exact condition).
- Taking the last member of a cluster is causal only between clusters
  (`ConfirmationRules.LastInClusterIsCausalBetweenClusters`).
- A zero ATR is not guarded: one simulated candidate on a motionless market
  fails the whole matrix (`ShadowSchedule.ScheduleFailsOnlyWhenStill`).
- Nested metadata with dotted keys can overwrite each other's cells
  (`MetadataFlattening.CompleteWhenLeavesAgree`).

## Model

| member | source | states |
|---|---|---|
| TradeAccount.EveryTradeIsAsTold | core/backtesting/simulator.py:323-341 | a successful simulation records the one trade that fits an account read off the plan and the bars, and no other: entry at the open plus or minus one slippage, levels moved with it when recentred; the exit bar is the first whose range meets the stop in force (the entry once an earlier bar has earned the risk, with breakeven on, otherwise the stop) or the target; a bar opening beyond a level exits by it, one meeting both by the policy; a stop costs its level, or the open at a gap, a target exactly its price, the end of the data the last close, less slippage except at the target; extremes, excursions, events, bar count, times, costs, results, R multiples and outcome class are all fixed |
| TradeAccount.OnlyOneTrade | core/backtesting/simulator.py:323-341 | that account leaves no field of a trade open |
| TradeAccount.ExitsAsTold | core/backtesting/simulator.py:701-772 | an open trade exits on a bar if and only if the range of the bar meets the stop in force or the target, for the reason, with the gap flag and at the price that open, high and low decide |
| TradeAccount.StopInForce | core/backtesting/simulator.py:826-837 | when a bar is examined the stop stands at the entry if and only if breakeven is on and an earlier bar reached the price as far past the entry as the stop is behind it |
| TradeAccount.ExtremesAsTold | core/backtesting/simulator.py:774-824 | on the exit bar the trade lives from the open to the price of the exit: the recorded extremes are the largest and smallest of the entry, the earlier highs and lows, that open and that price |
| TradeAccount.StepIsTold | core/backtesting/simulator.py:261-291 | one bar takes a trade that follows the account to one that still follows it, or to the trade of the account |
| TradeAccount.SimulationSucceedsExactly | core/backtesting/simulator.py:925-987 | a simulation succeeds if and only if the plan is approved, positive, directed and has its entry strictly between its levels, the bars are well shaped, in order, after the observation and at least one, and the fill leaves the entry between the levels |
| TradeAccount.PlanComplaint | core/backtesting/simulator.py:658-690 | a plan is refused for the first of: not approved, a value not positive, no direction, levels misplaced; and only for these |
| TradeAccount.BarComplaint | core/backtesting/simulator.py:224-260 | one more bar is refused for the first of: trade closed, bar misshapen, not later than the last one, fill outside the levels; and only for these |
| TradeAccount.BarsComplaint | core/backtesting/simulator.py:939-987 | bars are accepted if and only if all are well shaped and in order; otherwise the complaint is about the first bar that is not, and about its shape before its time |
| TradeSafety.EveryTradeIsSound | core/backtesting/simulator.py:323-341 | every successful simulation ends closed, with: the exit never beyond the target and equal to it exactly for TAKE_PROFIT; without GAP_EXIT no worse than the stop in force less one slippage; an event word of the form ENTRY (PENDING ACTIVE)? GAP? (STOP or TARGET), or ENTRY (PENDING ACTIVE?)? END_OF_DATA; MFE and MAE equal to the distances to the recorded extremes; an ungapped stop-out priced by the stop in force, a gapped one by the open of the exit bar, the end of the data by the close of the last bar; slippage cost equal to the points charged on the slipped sides, spread cost to the money value of the spread as a price move, commission to its fixed part and one for each lot; WIN, LOSS and BREAKEVEN by the sign of the net result beyond the tolerance |
| TradeSafety.LossIsBounded | core/backtesting/simulator.py:701-772 | without a gap the gross loss is at most risk plus one slippage, and at most the slippage once breakeven is active; with recentred levels that risk is the planned distance plus the entry slippage |
| TradeSafety.RunKeepsSound | core/backtesting/simulator.py:224-291 | the invariant of an open trade (levels ordered, stop is the original one or the entry exactly as breakeven_triggered says, everything seen strictly between the levels, last bar survived) is kept by every run over bars |
| TradeSafety.AdvanceKeepsSound | core/backtesting/simulator.py:261-291 | one bar either keeps that invariant or produces a sound completed trade |
| TradeSafety.ExitWord | core/backtesting/simulator.py:392-402 | the exit events are appended to a prelude that holds no gap and that tells whether the stop was moved |
| TradeSafety.BarExitExcursions | core/backtesting/simulator.py:774-824 | the exit bar contributes only the part of its range the trade lived through: extremes include the exit and, without a gap, stay within the two levels |
| TradeSafety.ExitAccountsForMoney | core/backtesting/simulator.py:1007-1058 | gross result equals the move between the unslipped reference prices less the slippage cost, which is one or two slippages; the spread costs what a price move of its width is worth, the commission is its fixed part plus one for each lot; net is gross less both |
| TradeSafety.MultiplesMeasureRisk | core/backtesting/simulator.py:456-478 | gross and net R times the money at risk give back the gross and the net result |
| TradeSafety.ExitIsClassified | core/backtesting/simulator.py:1061-1075 | a net result is a WIN if and only if it exceeds the tolerance, a LOSS if and only if it falls short of its negative |
| TradeSafety.FinalizeKeepsSound | core/backtesting/simulator.py:293-321 | closing at the close of the last bar gives a sound trade: that close as exit price, END_OF_DATA word, exact excursions and money |
| TradeRuns.StopNeverLoosens | core/backtesting/simulator.py:826-837 | along every run the stop only moves towards the target, is only ever the original stop or the entry price, and each bar is counted once |
| TradeRuns.SimulationFailsOnlyAtTheFill | core/backtesting/simulator.py:955-970 | after validation a simulation succeeds if and only if the fill keeps stop and target on the right sides; the only error is the wrong exit side |
| TradeRuns.RecentredFillAccepted | core/execution_economics/pricing.py:95-125 | with recentred levels a fill is refused exactly when entry slippage reaches the target distance |
| TradeRuns.RunSplits | core/backtesting/simulator.py:323-341 | running a concatenation is running its parts in turn |
| TradeRuns.LongerDataChangesOnlyUnfinishedTrades | core/backtesting/simulator.py:323-341 | appending valid bars leaves a trade unchanged if and only if it did not end at the end of the data; otherwise its exit moves later |
| TradeRuns.PolicyCoupling | core/backtesting/simulator.py:224-341 | under the conservative and the optimistic policy the same plan fails alike, or exits on the same bar from the same state, with net(conservative) <= net(optimistic), strictly only when one is stopped and the other on target |
| TradeRuns.PoliciesDisagreeOnlyWhenAmbiguous | core/backtesting/simulator.py:701-772 | the two policies decide differently exactly on a bar that opens between the levels and touches both |
| TradeRuns.AdvanceCoupled | core/backtesting/simulator.py:261-291 | one bar on the same state under the two policies: the same step, or a stop-out against a target hit with strictly less money |
| TradeReflection.ReflectionSymmetry | core/backtesting/simulator.py:323-341 | reflecting every price about a constant and swapping BUY and SELL maps each run to its mirror image: same exit bar, reason, events, excursions, ratios and money |
| TradeReflection.ResolveCommutes | core/backtesting/simulator.py:701-772 | the exit decision of the mirrored state on the mirrored bar is the mirrored decision |
| TradeReflection.CompleteCommutes | core/backtesting/simulator.py:404-656 | the mirrored exit yields the same money, ratios and outcome class |
| TradeSimulator.TradeSimulator.Begin | core/backtesting/simulator.py:206-222 | a plan and an observation bar are accepted or refused as specified, and the new simulation is pending |
| TradeSimulator.TradeSimulator.OpenOnBar | core/backtesting/simulator.py:343-402 | fills at the open with adverse slippage and levels recentred on the reference, or refuses before anything changes |
| TradeSimulator.TradeSimulator.BeginBar | core/backtesting/simulator.py:261-266 | counts the bar and applies a breakeven move armed earlier before the bar is examined |
| TradeSimulator.TradeSimulator.UpdateExcursions | core/backtesting/simulator.py:774-824 | extremes and excursions after the bar, for each kind of exit |
| TradeSimulator.TradeSimulator.CompleteSimulation | core/backtesting/simulator.py:404-656 | computes exit price, results, costs and R multiples step by step, records the trade and closes the simulation |
| TradeSimulator.TradeSimulator.AdvanceOnBar | core/backtesting/simulator.py:261-291 | refines one step of the lifecycle on the mutable state, including the events |
| TradeSimulator.TradeSimulator.ProcessBar | core/backtesting/simulator.py:224-291 | refines one bar of the lifecycle; a refused bar leaves the simulation as it was |
| TradeSimulator.TradeSimulator.FinalizeAtEndOfData | core/backtesting/simulator.py:293-321 | refines the end-of-data exit, returns the recorded trade when already closed, refuses an unfilled one |
| TradeSimulator.TradeSimulator.ValidateInputs | core/backtesting/simulator.py:925-987 | returns the first complaint about plan, entry bar and bar list, in the order of the source |
| TradeSimulator.TradeSimulator.Simulate | core/backtesting/simulator.py:323-341 | the batch loop over the incremental interface computes the specified whole run |
| BacktestSafety.EveryBacktestIsSound | core/backtesting/engine.py:322-425 | for every strategy: equity is the initial balance plus all settled net results, peak and maximum drawdown equal their definitions over all prefixes and pairs, position counters match, every trade was filled on the first eligible bar and closed on a later or the same bar of the tape, no trade was decided on before its predecessor had closed, every long is allowed by the long flag and every short by the short flag, the trade limit holds, nothing stays open |
| BacktestDecisions.DecisionMeaning | core/backtesting/engine.py:370-413 | a decision takes up a plan if and only if the engine is idle, the bar is past the replay start or the warm-up count, the plan is approved, it is a long with longs allowed or a short with shorts allowed, and some bar opens at least five minutes later (M5) or later at all (M15); it then holds the plan pending if plan and bar are well formed and fails otherwise; in every other case it only counts the snapshot |
| BacktestDecisions.ArrivalMeaning | core/backtesting/engine.py:340-369 | decision k is made after exactly the bars whose close, 5 or 15 minutes after their opening, is no later than that of the decision bar, on an equity of the initial balance plus all settled net results, which is what the strategy is told, and with the trade limit not used up unless a trade is in hand |
| BacktestDecisions.SnapshotsAreCounted | core/backtesting/engine.py:386-388 | the count that the warm-up is compared with is the number of snapshots given before the decision |
| BacktestDecisions.RunEndsWhenFull | core/backtesting/engine.py:358-369 | a run that does not fail makes every decision, or stops when exactly the maximum number of trades has been settled |
| BacktestDecisions.EveryBacktestIsAsTold | core/backtesting/engine.py:322-425 | every trade of a finished backtest is the one trade that the account of a simulation describes, for a plan the strategy answered in an allowed direction, on the bars from the first late enough to the exit; each plan became available only after the last bar of the trade before had closed |
| BacktestSafety.EveryStepIsSound | core/backtesting/engine.py:340-413 | the same invariant after every decision of every run, with opened minus closed and executed minus settled equal to one exactly while a position is open |
| BacktestSafety.AdvanceKeepsBooks | core/backtesting/engine.py:936-978 | one lifecycle bar keeps the account and the counters consistent with the settled trades and the active simulation |
| BacktestSafety.AdvanceKeepsTimeline | core/backtesting/engine.py:936-956 | one lifecycle bar keeps every fill on the first eligible bar and every trade on the consumed part of the tape |
| BacktestSafety.ConsumeKeepsSound | core/backtesting/engine.py:345-357 | feeding all bars closed by a boundary keeps the invariant and consumes exactly those bars |
| BacktestSafety.DecideKeepsSound | core/backtesting/engine.py:370-413 | whatever the strategy answers, a decision keeps the invariant and starts at most one simulation, after its predecessor has closed |
| BacktestSafety.SettleKeepsBooks | core/backtesting/engine.py:1350-1377 | settling a trade keeps equity, peak and maximum drawdown equal to their definitions |
| BacktestSafety.FinishKeepsSound | core/backtesting/engine.py:1711-1734 | closing an open trade, or dropping an unfilled plan, keeps the invariant and leaves nothing active |
| BacktestSafety.TradesAreDisjoint | core/backtesting/engine.py:340-413 | for any two completed trades the earlier exit bar opens strictly before the later entry bar |
| BacktestPlans.PlanIsDroppedExactlyWhenTooLate | core/backtesting/engine.py:1714-1724 | a plan begun by a run that does not fail is dropped unfilled if and only if every bar that could fill it closes after the last decision |
| BacktestPlans.M15PlanMayBeDropped | core/backtesting/engine.py:1714-1724 | a concrete M15 run that drops a plan although a later bar exists |
| BacktestPlans.WaitingRunStandsStill | core/backtesting/engine.py:936-946 | a plan no bar can fill in time waits to the end of the run, which neither fails nor trades |
| BacktestPlans.RunGoesOn | core/backtesting/engine.py:340-413 | a run that arrives at a decision continues from the state it arrives in |
| BacktestSafety.DroppedPlansHadNoClosedBar | core/backtesting/engine.py:1714-1724 | whatever plan waits at the end of a run had a later bar, and only such as close after the last decision |
| BacktestBatch.EveryTradeIsABatchTrade | core/backtesting/simulator.py:130-137 | for every strategy each trade of a finished backtest, field by field, is what the batch simulator returns for a plan the strategy answered, on the bars of the tape from the first eligible one to the last of the trade |
| BacktestBatch.FeedOne | core/backtesting/simulator.py:224-291 | a simulation fed one bar more is the batch run on one bar more, and the batch validation accepts those bars |
| BacktestBatch.BacktestLossesAreBounded | core/backtesting/engine.py:322-425 | so every ungapped trade of a backtest loses at most its risk and one slippage |
| BacktestRun.KeepInDates | core/backtesting/engine.py:1453-1490 | the bars within the dates are kept, and order is kept |
| BacktestRun.KeptByDate | core/backtesting/engine.py:1453-1490 | a bar is dropped if and only if it opens before the start date or after the end date |
| BacktestSafety.M5PlansAreAlwaysFilled | core/backtesting/engine.py:1492-1533 | on the M5 clock the branch that drops a pending plan is never taken |
| BacktestSafety.M5ClockInStep | core/backtesting/engine.py:340-354 | on the M5 clock the lifecycle index equals the decision index before, and the decision index plus one after, the inner loop |
| BacktestCausality.NoLookahead | core/backtesting/engine.py:340-413 | two runs whose tapes agree on the bars closed by the last decision, and whose strategies answer alike, report the same trades, equity, drawdown and counters, whatever bars follow on either tape, if and only if they do not arrive together at an approved plan that the simulator refuses while one tape alone has a bar to fill it; if they do, exactly one of them fails |
| BacktestCausality.NoLookaheadWithGoodPlans | core/backtesting/engine.py:340-413 | so they report the same whenever the strategy approves no such plan at any decision and account |
| BacktestCausality.StrandedRunsAgree | core/backtesting/engine.py:398-413 | a plan begun on one tape only, which the other tape has no bar for, changes nothing that is reported |
| BacktestHistories.LaterHistoryChangesNoFinishedTrade | core/backtesting/engine.py:322-425 | for a history and any continuation of it: the finished trades of the shorter backtest are the first trades of the longer one, and a trade that only the end of the data closed is continued from the same entry; a shorter backtest that fails, fails alike on the continuation, unless a refused plan that one tape alone has a bar for makes one of the two fail |
| BacktestHistories.M5HistoriesShareThePast | core/backtesting/engine.py:1453-1490 | on the M5 clock every continuation of a history holds the same bars closed by its last decision |
| BacktestHistories.RunGrows | core/backtesting/engine.py:340-413 | along every run no trade is forgotten and an open position keeps its entry, levels and size |
| BacktestCausality.DecisionsAskOnlyForABar | core/backtesting/engine.py:389-407 | one decision is the same on two tapes if and only if both have, or both lack, a bar that could fill the plan, or nothing would be begun anyway; only one of them fails if and only if the plan that would be begun is malformed |
| BacktestCausality.CutHistoryDropsThePlan | core/backtesting/engine.py:398-407 | on a history cut at a decision the plan is not begun; with one eligible bar more it is pending, or the run fails if the simulator refuses it |
| BacktestCausality.StateDependsOnTheFuture | core/backtesting/engine.py:398-407 | a concrete strategy and tape where one more bar changes the state, and one where it makes the run fail |
| BacktestCausality.SameFutureSameState | core/backtesting/engine.py:340-413 | when both tapes also have, or lack, a bar to fill a plan at each decision, even the states after the decisions are equal |
| BacktestCausality.ConsumeLooksBack | core/backtesting/engine.py:345-357 | feeding bars up to a boundary depends only on the bars closed by it |
| BacktestCausality.LongerRunContinues | core/backtesting/engine.py:340-413 | a run over more decisions passes through the state of the shorter run, unless that had failed or stopped at the trade limit |
| BacktestingEngine.BacktestingEngine.Initialize | core/backtesting/engine.py:1379-1393 | resets account, counters, trades and the active simulation |
| BacktestingEngine.BacktestingEngine.SettleTrade | core/backtesting/engine.py:1350-1377 | adds the net result and updates peak and maximum drawdown as specified |
| BacktestingEngine.BacktestingEngine.AdvanceIncrementalTrade | core/backtesting/engine.py:936-978 | refines one lifecycle bar: eligibility, fill counters, settlement, error |
| BacktestingEngine.BacktestingEngine.BeginIncrementalTrade | core/backtesting/engine.py:916-934 | starts a simulation exactly when the simulator accepts plan and bar |
| BacktestingEngine.BacktestingEngine.PrepareHistory | core/backtesting/engine.py:1453-1490 | accepts exactly strictly increasing histories with ordered dates and returns the bars within the dates |
| BacktestingEngine.BacktestingEngine.ConsumeClosedBars | core/backtesting/engine.py:345-357 | the inner loop feeds exactly the bars closed by the boundary, and stops at the first error |
| BacktestingEngine.BacktestingEngine.ActOn | core/backtesting/engine.py:370-413 | what one processed observation does: snapshot count, warm-up, direction and future checks, begin |
| BacktestingEngine.BacktestingEngine.DecisionStep | core/backtesting/engine.py:340-413 | one iteration of the decision loop refines the specified step and tells whether the run stops |
| BacktestingEngine.BacktestingEngine.RunDecisions | core/backtesting/engine.py:340-413 | the whole decision loop computes the specified run for every strategy |
| BacktestingEngine.BacktestingEngine.FinalizeRun | core/backtesting/engine.py:1711-1734 | an open trade is closed at its last bar, a pending plan dropped |
| BacktestingEngine.BacktestingEngine.Run | core/backtesting/engine.py:322-425 | preparation, loop and finalisation together compute the specified backtest, with the same errors |
| EquityCurve.DrawdownStep | core/backtesting/engine.py:1350-1377 | the running peak and drawdown updated by one result equal the maximum prefix and the maximum fall over all ordered pairs of points of the longer curve |
| EquityCurve.PeakStep | core/backtesting/engine.py:1350-1377 | the running peak updated by one result is the maximum over all prefixes of the longer curve |
| EquityCurve.MaximumDrawdown | core/backtesting/methodology_variant_b_statistical_stability.py:418-429 | the one-pass result is the largest fall between any two points in time order |
| EquityCurve.LongestLosingStreak | core/backtesting/methodology_variant_b_statistical_stability.py:342-351 | the result is the length of the longest stretch of consecutive losses |
| EquityCurve.MaximumDrawdownDuration | core/backtesting/methodology_variant_b_statistical_stability.py:354-370 | the result is the longest stretch of consecutive results that leave equity below some earlier point |
| CandidateEvaluation.PrepareBars | core/backtesting/candidate_outcome_evaluator.py:138-172 | selects the bars after the creation up to the maximum, and refuses unordered bars seen before the selection is full |
| CandidateEvaluation.EvaluateCandidate | core/backtesting/candidate_outcome_evaluator.py:25-135 | the loop computes the specified evaluation, with the same errors |
| CandidateEvaluation.EvaluationMeaning | core/backtesting/candidate_outcome_evaluator.py:48-135 | there is a first bar whose low and high meet the stop or a target, or none; its prices decide the outcome: STOP_REACHED for the stop without any target, TARGET_REACHED for a target without the stop, AMBIGUOUS_SAME_BAR for both, UNRESOLVED if no bar meets either; its time and the farthest target it met are recorded; MFE and MAE are the largest rise and fall from the entry up to and including it, and the R multiples times the risk give them back |
| CandidateEvaluation.PreparedExactly | core/backtesting/candidate_outcome_evaluator.py:138-172 | for bars in any order: the selection is the first bars later than the creation, as many as the maximum allows, and it is refused if and only if a bar not after its predecessor is looked at before the selection is full |
| CandidateEvaluation.EvaluatesFirstLaterBars | core/backtesting/candidate_outcome_evaluator.py:25-59 | an evaluation measures exactly those bars; it blames the maximum if and only if that is not positive |
| CandidateEvaluation.ScanStops | core/backtesting/candidate_outcome_evaluator.py:60-110 | bars after the first terminal one have no influence |
| CandidateEvaluation.HighestTouched | core/backtesting/candidate_outcome_evaluator.py:203-219 | the largest index of a reached target, or none |
| CandidateEvaluation.PreparedUpTo | core/backtesting/candidate_outcome_evaluator.py:138-172 | of ordered bars after the creation exactly the first ones are selected, as many as the maximum allows |
| CandidateEvaluation.PreparedAsGiven | core/backtesting/candidate_outcome_evaluator.py:138-172 | ordered later bars are all selected when there is room for them |
| CandidateTracker.CandidateOutcomeTracker.Register | core/backtesting/candidate_outcome_tracker.py:46-54 | refuses a known id and changes nothing, otherwise appends a pending candidate |
| CandidateTracker.CandidateOutcomeTracker.Offer | core/backtesting/candidate_outcome_tracker.py:56-76 | adds the bar to one entry that accepts it and finds an outcome exactly when the bar settles it |
| CandidateTracker.CandidateOutcomeTracker.ProcessBar | core/backtesting/candidate_outcome_tracker.py:56-79 | offers the bar to every pending entry in order; the tracker stays usable after a refusal, which changes nothing |
| CandidateTracker.CandidateOutcomeTracker.Finalize | core/backtesting/candidate_outcome_tracker.py:81-89 | evaluates everything still pending on the bars it has seen and empties the pending collection |
| StreamingAgreement.EveryHistoryIsTracked | core/backtesting/candidate_outcome_tracker.py:46-79 | after any sequence of registrations and bars the pending entries are exactly the unresolved candidates in order, the evaluations exactly those the resolved ones deserve, and ids are distinct |
| StreamingAgreement.NoCandidateIsLost | core/backtesting/candidate_outcome_tracker.py:81-89 | after finalisation every registered candidate has exactly its deserved evaluation, once, and nothing else is there |
| StreamingAgreement.PendingOrEvaluated | core/backtesting/candidate_outcome_tracker.py:46-79 | a registered id is in exactly one of the two collections, according to whether its bars have touched a level |
| StreamingAgreement.StreamingAgreesWithOneShot | core/backtesting/candidate_outcome_tracker.py:46-89 | for a candidate registered at any point, the streamed evaluation agrees with one evaluation of all bars fed since on outcome, time, excursions and highest target; its bar count is the position of the first terminal bar, or all bars |
| CandidateTracker.RefusedExactly | core/backtesting/candidate_outcome_tracker.py:60-69 | a bar is refused if and only if it is later than the creation of some pending candidate but not later than the last bar that candidate has seen |
| CandidateTracker.RefusalChangesNothing | core/backtesting/candidate_outcome_tracker.py:60-69 | if any entry refuses a bar, no entry before it has taken it: the exception leaves the tracker as it was |
| StreamingAgreement.RefusedOperationsChangeNothing | core/backtesting/candidate_outcome_tracker.py:46-79 | after any history, refused registrations and bars included, the tracker is as after the accepted operations alone |
| StreamingAgreement.OrderedHistoriesAreAccepted | core/backtesting/candidate_outcome_tracker.py:46-79 | with bars in order a history raises no exception if and only if no id is registered twice |
| StreamingAgreement.OrderedHistoriesAgree | core/backtesting/candidate_outcome_tracker.py:46-89 | so with ordered bars and new ids the streamed evaluation agrees with the one-shot evaluation for every candidate |
| StreamingAgreement.DeservedAgrees | core/backtesting/candidate_outcome_evaluator.py:48-135 | the evaluation up to the first terminal bar and the evaluation of all bars agree on everything but the bar count |
| StreamingAgreement.ExtendOne | core/backtesting/candidate_outcome_tracker.py:63-79 | one more bar leaves a settled candidate settled alike, and settles an open one exactly when it touches a level |
| CandidateSelection.ClustersPartition | core/backtesting/methodology_variant_b_cluster_selection.py:225-239 | the clusters concatenate to the candidates, have gaps of at most g inside and larger gaps between them |
| CandidateSelection.ClusteringIsUnique | core/backtesting/methodology_variant_b_cluster_selection.py:225-239 | there is no other such partition |
| CandidateSelection.BuildClusters | core/backtesting/methodology_variant_b_cluster_selection.py:225-239 | the loop builds that partition |
| CandidateSelection.FirstInClusterIsStart | core/backtesting/methodology_variant_b_cluster_selection.py:211-216 | the first members are the candidates preceded by a gap larger than g, or by nothing |
| CandidateSelection.LastInClusterIsEnd | core/backtesting/methodology_variant_b_cluster_selection.py:218-223 | the last members are the candidates followed by a gap larger than g, or by nothing |
| CandidateSelection.CooldownIsSpaced | core/backtesting/methodology_variant_b_cluster_selection.py:242-254 | the selection is a subsequence whose consecutive members are at least the cooldown apart |
| CandidateSelection.GreedyStaysAhead | core/backtesting/methodology_variant_b_cluster_selection.py:242-254 | for every spaced subsequence, the greedy one is at least as long and ends no later |
| CandidateSelection.CooldownIsLongest | core/backtesting/methodology_variant_b_cluster_selection.py:242-254 | no spaced subsequence of the sorted candidates is longer |
| CandidateSelection.CooldownCoversClusters | core/backtesting/methodology_variant_b_cluster_selection.py:118-140 | the cooldown keeps at least as many candidates as there are clusters of the same width |
| CandidateSelection.SelectWithCooldown | core/backtesting/methodology_variant_b_cluster_selection.py:242-254 | the loop computes the greedy selection |
| ConfirmationRules.QuietConfirmation | core/backtesting/methodology_variant_b_confirmation_delay.py:222-254 | confirms exactly the last member of each cluster of the wait, re-timed by the wait, which is recorded as its delay |
| ConfirmationRules.FirstAfterQuietPeriod | core/backtesting/methodology_variant_b_confirmation_delay.py:256-275 | selects exactly the first members of the clusters of the quiet period less one minute |
| ConfirmationRules.Persistence | core/backtesting/methodology_variant_b_confirmation_delay.py:277-308 | the loop selects, for a requirement of at least two, exactly the r-th member of every maximal run of exact five-minute steps |
| ConfirmationRules.PersistenceSelectsMembers | core/backtesting/methodology_variant_b_confirmation_delay.py:277-308 | that description holds for r >= 2; for r = 1 it holds if and only if there are no candidates |
| ConfirmationRules.StreakMeaning | core/backtesting/methodology_variant_b_confirmation_delay.py:287-297 | the streak counter covers a run of five-minute steps that cannot be extended backwards |
| ConfirmationRules.QuietConfirmationIsCausal | core/backtesting/methodology_variant_b_confirmation_delay.py:206-209 | confirmations due by a time depend only on the candidates seen by then |
| ConfirmationRules.PersistenceIsCausal | core/backtesting/methodology_variant_b_confirmation_delay.py:277-308 | more candidates only append to the selection |
| ConfirmationRules.CooldownIsCausal | core/backtesting/methodology_variant_b_cluster_selection.py:188-198 | more candidates only append to the cooldown selection |
| ConfirmationRules.FirstInClusterIsCausal | core/backtesting/methodology_variant_b_cluster_selection.py:188-198 | more candidates only append to the first members |
| ConfirmationRules.LastInClusterIsCausalBetweenClusters | core/backtesting/methodology_variant_b_cluster_selection.py:188-198 | for every gap and every list of distinct candidates, the selection on the first k is a prefix of the whole selection if and only if k is 0 or all, or a gap larger than the cluster gap follows the k-th |
| ConfirmationRules.LastInClusterIsNotCausal | core/backtesting/methodology_variant_b_cluster_selection.py:188-198 | at every gap there is a history where one more candidate replaces an earlier selection |
| BalancedFolds.BuildFolds | core/backtesting/methodology_outcome_stability.py:174-191 | the folds concatenate to the input in order and each has floor(n/k) or ceil(n/k) elements |
| BalancedFolds.FoldsAreBalanced | core/backtesting/methodology_outcome_stability.py:174-191 | stretches between the rounded edges lose nothing and are balanced |
| BalancedFolds.ClampIsIdle | core/backtesting/methodology_outcome_stability.py:184-189 | the clamp to the last fold never changes an index |
| BalancedFolds.FoldBetweenEdges | core/backtesting/methodology_outcome_stability.py:184-189 | an index goes to fold j if and only if it lies between the edges of j |
| TimeLookups.BisectRight | core/backtesting/engine.py:772-774 | the position after the last element not greater than the key, for every ascending list |
| TimeLookups.ClosedWindow | core/backtesting/engine.py:772-789 | the bisected slice is the last W bars of the filter that keeps the bars closed by the boundary |
| TimeLookups.VisibleIsPrefix | core/backtesting/engine.py:772-789 | the bars closed by a boundary are a prefix of the history |
| TimeLookups.CommonWindowIsIntersection | core/backtesting/methodology_shadow_decision_comparison.py:516-542 | a time is inside the common window if and only if all three histories cover it |
| TimeLookups.AlignObservation | core/backtesting/methodology_shadow_decision_comparison.py:554-584 | returns the latest observation not after the audit, with its lag, or none exactly when all are later |
| TimeLookups.AlignAudits | core/backtesting/methodology_shadow_decision_comparison.py:208-266 | the two counts are those of the exact and the other alignments; before + aligned + unmatched + after equals the number of audits exactly when a window exists or there are none; each audit inside the window is placed by its latest observation; the missing-prior reason is never given |
| Sequences.SortingOrders | core/backtesting/methodology_variant_b_atr_shadow_matrix.py:136-146 | sorting by a key orders the keys, strictly if and only if no key occurs twice |
| Sequences.SortingKeepsElements | core/backtesting/methodology_variant_b_atr_shadow_matrix.py:136-146 | sorting loses and invents nothing |
| Sequences.SortingIsStable | core/backtesting/methodology_variant_b_atr_shadow_matrix.py:136-146 | elements with equal keys keep their order |
| ShadowSimulation.RunShadow | core/backtesting/methodology_variant_b_atr_shadow_matrix.py:231-305 | the bar loop computes the first touch, stop before target on a shared bar, and the excursions |
| ShadowSimulation.ShadowAsTold | core/backtesting/methodology_variant_b_atr_shadow_matrix.py:231-305 | the result is the trade read off the bars: sold at the open of the entry bar, stop one distance above and target R distances below, closed on the first of 24 bars whose high reaches the stop or whose low reaches the target, at the stop if it reaches both, or at the close of the last; the result and the excursions, times the distance, are the entry less the exit and the largest fall and rise |
| ShadowSimulation.OnlyOneShadow | core/backtesting/methodology_variant_b_atr_shadow_matrix.py:231-305 | no other result fits that description |
| ShadowSimulation.AtrIsMeanSpan | core/backtesting/methodology_variant_b_atr_shadow_matrix.py:445-468 | fourteen times the ATR is the sum, over exactly the fourteen bars before the entry, of the width of the stretch that holds the bar and the close before it; it exists if and only if there are fifteen bars before the entry |
| ShadowSimulation.CandidateAsTold | core/backtesting/methodology_variant_b_shadow_trades.py:256-372 | the record of the fixed-distance simulator is the trade read off the bars: levels from the open of the entry bar, sold one slippage below it, every exit but that at the target slipped, spread charged as the value of a price move, commission, and R multiples over the money value of the 2.5 stop distance |
| ShadowSimulation.ResultInR | core/backtesting/methodology_variant_b_atr_shadow_matrix.py:241-305 | the result is -1 for every stop, the target multiple for TAKE_PROFIT, strictly between for TIME_EXIT, after 1 to 24 bars |
| ShadowSimulation.LargerTargetExitsLater | core/backtesting/methodology_variant_b_atr_shadow_matrix.py:241-281 | a larger target never exits earlier, and a stop-out or timeout at a smaller target is the same at a larger one |
| ShadowSimulation.AtrIsZeroOnlyWhenStill | core/backtesting/methodology_variant_b_atr_shadow_matrix.py:445-468 | the ATR is never negative, and zero if and only if the market did not move at all over the period |
| ShadowSimulation.RunCandidate | core/backtesting/methodology_variant_b_shadow_trades.py:256-372 | the loop computes exit, holding time, excursions, slippage, costs and R multiples of the fixed-distance simulator |
| ShadowSimulation.SimulatorsAgree | core/backtesting/methodology_variant_b_shadow_trades.py:256-348 | without slippage, on equal stop distance and a complete horizon, both simulators give the same times, exit bar, prices, holding bars and gross R |
| ShadowSchedule.ScheduleIsSound | core/backtesting/methodology_variant_b_atr_shadow_matrix.py:151-201 | in each scenario executed + skipped + unavailable equals the candidates; each result is the simulation of an available candidate entered on the first later bar; results occupy disjoint bar intervals; each is observed after its predecessor has closed; the unavailable are exactly the candidates that came while no trade was held and were not executed |
| ShadowSchedule.ExecutedAsTold | core/backtesting/methodology_variant_b_atr_shadow_matrix.py:151-305 | an executed trade is entered on the first bar after its observation and is the trade read off the bars, on a stop distance of the multiple times the mean span of the fourteen bars before its entry |
| ShadowSchedule.AvailableExactly | core/backtesting/methodology_variant_b_atr_shadow_matrix.py:168-201 | a candidate can be simulated if and only if the first bar after it has fifteen bars before it and 24 from it on |
| ShadowSchedule.ExecutedBounds | core/backtesting/methodology_variant_b_atr_shadow_matrix.py:231-305 | an executed trade starts strictly after its observation and lasts 1 to 24 bars within the data |
| ShadowSchedule.ScheduleFailsOnlyWhenStill | core/backtesting/methodology_variant_b_atr_shadow_matrix.py:151-201 | a schedule fails if and only if a candidate that is neither skipped nor unavailable follows a market that did not move at all, and then by the division by a zero stop distance |
| ShadowSchedule.FlatTapeIsFatal | core/backtesting/methodology_variant_b_atr_shadow_matrix.py:241-305 | on a tape of one single price every candidate that is simulated fails the scenario |
| ShadowSchedule.FlatTapeExample | core/backtesting/methodology_variant_b_atr_shadow_matrix.py:241-305 | a concrete such tape of 39 bars and a candidate |
| ShadowSchedule.InputsAreSorted | core/backtesting/methodology_variant_b_atr_shadow_matrix.py:136-146 | candidates and bars are put in time order without loss; the tape is usable if and only if no two bars share a time |
| ShadowSchedule.OrderedInputsAreKept | core/backtesting/methodology_variant_b_atr_shadow_matrix.py:136-146 | bars and candidates that are in order already are worked through as given |
| ShadowSchedule.TryCandidate | core/backtesting/methodology_variant_b_atr_shadow_matrix.py:168-201 | entry lookup, ATR and horizon checks in the order of the source |
| ShadowSchedule.BuildSchedule | core/backtesting/methodology_variant_b_atr_shadow_matrix.py:151-201 | the loop over the candidates computes the specified schedule or the first failure |
| ShadowSchedule.Calculate | core/backtesting/methodology_variant_b_atr_shadow_matrix.py:129-229 | for inputs in any order: refused if and only if two bars share a time; otherwise one sound schedule for each of the twelve scenarios over the sorted inputs, or the zero stop distance of one of them |
| PostExpiryLifetime.EveryHistoryIsSound | core/backtesting/post_expiry_trigger_tracker.py:139-268 | with ordered bars and candidates not created in the future: no id is tracked twice or in both collections, bars_observed never exceeds the maximum, the cross-to-trigger distance lies in 0 to maximum_bars - 1, recorded setups have both windows complete and record the evaluation of their outcome bars, final or at the horizon |
| PostExpiryLifetime.SetupsAreFollowedToTheEnd | core/backtesting/post_expiry_trigger_tracker.py:150-268 | a pending setup is recorded, exactly once, after at most maximum_bars + outcome_maximum_bars observations |
| PostExpiryAgreement.RecordsAgreeWithOneShot | core/backtesting/post_expiry_trigger_tracker.py:477-507 | outcome, time and both R multiples of a recorded candidate are those of one evaluation, under the maximum, of all the bars of the history later than its trigger bar, whatever was seen after it was complete |
| PostExpiryAgreement.HistoryStaysMatched | core/backtesting/post_expiry_trigger_tracker.py:150-268 | after any history the outcome bars of an open entry are all the bars after its trigger bar, and those of a complete one the first of them |
| PostExpiryAgreement.FinalAgrees | core/backtesting/candidate_outcome_evaluator.py:48-135 | an evaluation that has met a level or used up the maximum is not changed by later bars |
| PostExpiryLifetime.ObserveKeepsSound | core/backtesting/post_expiry_trigger_tracker.py:150-268 | one bar moves entries from pending to completed, keeps the multiset of ids, and the evaluator never refuses |
| PostExpiryLifetime.RegisteredIds | core/backtesting/post_expiry_trigger_tracker.py:139-148 | registration adds an unknown id once and ignores a known one |
| PostExpiryLifetime.WatchKeepsSound | core/backtesting/post_expiry_trigger_tracker.py:158-268 | one bar in the trigger window ages the entry by one and keeps its counters in range |
| PostExpiryLifetime.FollowKeepsSound | core/backtesting/post_expiry_trigger_tracker.py:477-507 | one outcome bar ages the entry by one; what is recorded is the evaluation of exactly its outcome bars; the entry is complete exactly at an outcome or at the horizon, and unresolved as long as it is open |
| PostExpiryTracker.Nearest | core/backtesting/post_expiry_trigger_tracker.py:352-365 | the result is a target and no target is closer to the price |
| PostExpiryTracker.NearestIsFirst | core/backtesting/post_expiry_trigger_tracker.py:352-365 | of targets equally close to the price the first in the list counts |
| PostExpiryTracker.RefusalLeaves | core/backtesting/post_expiry_trigger_tracker.py:150-268 | when the evaluator refuses a bar, the entries before the refused one have taken it, that one has kept it among its outcome bars and nothing else, and those behind it are untouched; without a refusal all have taken it |
| PostExpiryTracker.FactsOf | core/backtesting/post_expiry_trigger_tracker.py:185-225 | the noted target is one of the targets, none is closer, the distance is the one to it, and it counts as valid if and only if it lies beyond the trigger price |
| PostExpiryTracker.WatchMeaning | core/backtesting/post_expiry_trigger_tracker.py:158-262 | a bar of the trigger window is counted; the first bar whose high (for a buy; low for a sell) reaches a target is noted with its number and never overwritten; the distance from the first close to the closest target is noted; the window ends exactly by a trigger or by the maximum; a trigger records its time, its distance from the expiry and from the touch, and its candidate |
| PostExpiryTracker.WindowMeaning | core/backtesting/post_expiry_trigger_tracker.py:158-342 | after any window of bars without a trigger the entry holds their number, the time and number of the first that reaches a target, and the distance of the first close to the closest target |
| PostExpiryTracker.PostExpiryTriggerTracker.Register | core/backtesting/post_expiry_trigger_tracker.py:139-148 | refines registration |
| PostExpiryTracker.PostExpiryTriggerTracker.ObserveOutcomeBar | core/backtesting/post_expiry_trigger_tracker.py:477-507 | refines the evaluation of a followed candidate on all its bars |
| PostExpiryTracker.PostExpiryTriggerTracker.WatchEntry | core/backtesting/post_expiry_trigger_tracker.py:166-262 | updates the fields of one entry for one bar of the trigger window |
| PostExpiryTracker.PostExpiryTriggerTracker.RecordTrigger | core/backtesting/post_expiry_trigger_tracker.py:178-259 | updates the fields that a trigger sets, in the order of the source |
| PostExpiryTracker.PostExpiryTriggerTracker.ObserveTargetFreshness | core/backtesting/post_expiry_trigger_tracker.py:284-342 | notes the first distance, and the first bar that reaches a target with its number |
| PostExpiryTracker.PostExpiryTriggerTracker.UpdateEntries | core/backtesting/post_expiry_trigger_tracker.py:158-262 | updates the entries one by one, up to the first the evaluator refuses |
| PostExpiryTracker.PostExpiryTriggerTracker.ObserveBar | core/backtesting/post_expiry_trigger_tracker.py:150-268 | refines one bar for all entries, with those the bar has finished moved in order |
| JsonExport.JsonConverter.Convert | core/backtesting/exporter.py:995-1056 | terminates on every object graph, restores the active set, also on failure, and computes the specified document |
| JsonExport.MarkMeansOwnAncestor | core/backtesting/exporter.py:995-1056 | at every path of the document the recursion mark stands exactly for a container that is its own ancestor; everything else mirrors what the graph holds where the document took it from |
| JsonExport.KeptAreLast | core/backtesting/exporter.py:1027-1037 | of the entries of a mapping whose keys print alike the document keeps exactly the last, in order |
| JsonExport.EachKeyIsKeptOnce | core/backtesting/exporter.py:1027-1037 | of sorted keys the document holds each once, with the item of its last entry |
| JsonExport.ChildConverted | core/backtesting/exporter.py:1027-1056 | each child of a document is the document of the child of the graph it was taken from |
| JsonExport.SharingIsNotMarked | core/backtesting/exporter.py:995-1056 | an acyclic graph yields no mark, however much is shared |
| JsonExport.DepthIsBounded | core/backtesting/exporter.py:995-1056 | the document is no deeper than the number of containers |
| JsonExport.FailsExactlyOnAReachedNaN | core/backtesting/exporter.py:995-1056 | a conversion fails if and only if some path that passes through no recursion mark leads to a NaN |
| MetadataFlattening.MetadataFlattener.FlattenMapping | core/backtesting/exporter.py:911-942 | terminates on every graph, restores the active set and writes exactly the specified cells in order |
| MetadataFlattening.FlattenHoldsLeaves | core/backtesting/exporter.py:911-942 | for every graph, cyclic or shared: a cell is written for a path if and only if following its keys leads to a value that is not a mapping, or to a mapping inside itself, which gets the mark; only a mark without a name is left out |
| MetadataFlattening.FlattenIsDistinct | core/backtesting/exporter.py:911-942 | with non-empty dot-free distinct keys no key path is written twice, and all lie below the prefix |
| MetadataFlattening.JoinIsInjective | core/backtesting/exporter.py:911-942 | with non-empty dot-free keys a dotted name determines its key path |
| MetadataFlattening.FlatteningIsLossless | core/backtesting/exporter.py:911-942 | with such keys the table holds a leaf under a name if and only if some key path of the graph with that dotted name leads to the leaf, and no other path has the name |
| MetadataFlattening.DottedKeysCollide | core/backtesting/exporter.py:911-942 | both conditions on keys are needed: concrete keys whose names coincide |
| MetadataFlattening.LastCellWins | core/backtesting/exporter.py:911-942 | under every name the table holds the leaf of the last cell written with that name |
| MetadataFlattening.CompleteWhenLeavesAgree | core/backtesting/exporter.py:911-942 | for every graph the table holds every leaf under its name if and only if no two leaf paths of the graph with one dotted name lead to different leaves |
| MetadataFlattening.DottedKeyLosesALeaf | core/backtesting/exporter.py:911-942 | a concrete nested mapping with a dotted key: two leaves of the graph, one of them lost from the table |

## Left out

- TradingPipeline, strategies, the methodology evaluators, the regime detector and multi-timeframe analysis: an arbitrary strategy stands for all of them.
- MetaTrader, history loading, the command line, CSV and JSON files, progress output: input and output only.
- Validation of types, finiteness and time zones, and floating-point rounding: prices are reals and timestamps integers.
- Resolution of costs: the execution profile's costs are one set per simulator; the legacy fallback to plan metadata is not modelled.
- The scheduling loop around the fixed-distance shadow simulator: it is the greedy rule of the ATR matrix without the ATR and horizon checks.
- Summaries and counts of the trackers, scenarios and comparisons: sums over modelled fields.
- Derived H1, H4, D1 and W1 windows and their cache: they rest on aggregation helpers outside the kernel.
- The batch path of the engine without incremental simulator, provenance, metadata, evidence and trace dictionaries: compatibility and labels only.
- The engine's statistics, observation audits, strategy observations and candidate tracking inside a run: the trackers are modelled on their own.
- Bootstrap, means, ratios, profit factors, rolling blocks, monthly tables and report rows: randomness or plain aggregation.
- Non-positive price checks of the research simulators: the bars they get have been validated before.
- Pending entries of both trackers are values in a sequence that the tracker object replaces in place, so aliasing between an entry and its readers is not captured; a dictionary with insertion order is a sequence with distinct ids.
- JsonExport.JsonConverter.Convert: takes the entries of a mapping in the order of their printed keys; sorting them is not part of the model.
- TradeSimulator.TradeSimulator.CompleteSimulation: the execution trace, provenance and metadata of the record are not modelled, only its times, prices, results and events.
- ShadowSimulation.RunCandidate: session and regime labels of the record are not modelled.
- PostExpiryTracker.PostExpiryTriggerTracker.WatchEntry: the trigger's type, the invalidation and stop reference prices, the text of a geometry rejection and the setup's age at the crossing are labels nothing reads; prices are always numbers.
- PostExpiryTracker.PostExpiryTriggerTracker.RecordTrigger: leaves out the same labels.
- BacktestHistories.LaterHistoryChangesNoFinishedTrade: is about backtests whose histories pass the preparation; a longer backtest that fails after the shorter history's end reports no trades to compare.
- TradeReflection.ReflectionSymmetry: asks for an axis above all prices, because reflected prices must be positive to pass validation.
- ShadowSimulation.ResultInR: the strict bounds of a timeout need a final candle that contains its own close, which the research code does not check.
- PostExpiryLifetime.SetupsAreFollowedToTheEnd: for ordered bars and candidates created no later than their trigger bar; without these the evaluator may refuse a bar.

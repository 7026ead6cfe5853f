/** How long an expired setup is followed, and what its record says when it is done. */
module PostExpiryLifetime {
  import opened Wrappers
  import opened Market
  import CE = CandidateEvaluation
  import opened PostExpiryTracker

  // ----- the invariants of one entry -----

  /** The counters of the trigger window. */
  predicate WindowSound(limits: Limits, t: Tracked) {
    && t.barsObserved <= limits.maximumBars
    && (t.crossedAt.Some? <==> t.crossBar.Some?)
    && (t.crossBar.Some? ==> 1 <= t.crossBar.value <= t.barsObserved)
    && (t.triggerFound ==> t.windowComplete && t.barsAfterExpiry == Some(t.barsObserved) && t.barsObserved >= 1)
    && (t.barsSinceCross.Some? <==> t.triggerFound && t.crossedAt.Some?)
    && (t.barsSinceCross.Some? ==>
          && t.barsSinceCross.value == t.barsObserved - t.crossBar.value
          && 0 <= t.barsSinceCross.value <= limits.maximumBars - 1)
    && (t.candidate.Some? ==> t.triggerFound)
  }

  /** The outcome on record is the evaluation of the candidate on exactly the outcome bars. */
  predicate Recorded(t: Tracked)
    requires t.candidate.Some?
  {
    var e := CE.Measure(t.candidate.value, t.outcomeBars);
    && (t.outcome, t.outcomeAt, t.outcomeBarsEvaluated) == (Some(e.outcome), e.outcomeAt, e.barsEvaluated)
    && (t.mfeR, t.maeR) == (Some(e.mfeR), Some(e.maeR))
  }

  /** An entry that is still followed at time `now`. */
  predicate OpenSound(limits: Limits, now: int, t: Tracked) {
    && WindowSound(limits, t) && !t.outcomeWindowComplete
    && match t.candidate
       case None => t.barsObserved < limits.maximumBars && !t.windowComplete && t.outcomeBars == [] && t.outcomeBarsEvaluated == 0
                   && t.outcome == None
       case Some(c) =>
         && |t.outcomeBars| < limits.outcomeMaximumBars && t.outcomeBarsEvaluated == |t.outcomeBars|
         && Chronological(t.outcomeBars) && c.createdAt <= now
         && (forall b <- t.outcomeBars :: c.createdAt < b.timestamp <= now)
         && if t.outcomeBars == [] then t.outcome == None else Recorded(t) && t.outcome == Some(CE.Unresolved)
  }

  /** A finished entry: both windows are complete, and a candidate has an outcome or has used up its horizon. */
  predicate DoneSound(limits: Limits, t: Tracked) {
    && WindowSound(limits, t) && t.windowComplete && t.outcomeWindowComplete
    && |t.outcomeBars| <= limits.outcomeMaximumBars && t.outcomeBarsEvaluated <= limits.outcomeMaximumBars
    && (t.candidate.None? && !t.triggerFound ==> t.barsObserved == limits.maximumBars)
    && (t.candidate.Some? ==>
          Recorded(t) && (t.outcome != Some(CE.Unresolved) || t.outcomeBarsEvaluated == limits.outcomeMaximumBars))
  }

  /** Bars spent on the entry so far. */
  function Age(t: Tracked): nat {
    t.barsObserved + |t.outcomeBars|
  }

  /** A candidate found on a bar was not created after it. */
  predicate Timely(bar: Bar, d: Diagnosis) {
    d.Trigger? && d.candidate.Some? ==> d.candidate.value.createdAt <= bar.timestamp
  }

  // ----- one bar for one entry -----

  lemma FollowKeepsSound(limits: Limits, now: int, t: Tracked, bar: Bar)
    requires limits.Valid() && OpenSound(limits, now, t) && t.candidate.Some? && bar.timestamp > now
    ensures Follow(limits, t, bar).Ok?
    ensures var next := Follow(limits, t, bar).value;
      && next.setup == t.setup && Age(next) == Age(t) + 1
      && if next.outcomeWindowComplete then DoneSound(limits, next) else OpenSound(limits, bar.timestamp, next)
  {
    hide CE.Measure, CE.PrepareFrom, CE.Evaluate;
    GrownBars(limits, now, t, bar);
    hide Chronological;
  }

  /** The bars of a followed entry are in order and within its horizon, so the evaluator takes them all. */
  lemma GrownBars(limits: Limits, now: int, t: Tracked, bar: Bar)
    requires limits.Valid() && OpenSound(limits, now, t) && t.candidate.Some? && bar.timestamp > now
    ensures var bars := t.outcomeBars + [bar];
      && Chronological(bars) && (forall b <- bars :: t.candidate.value.createdAt < b.timestamp <= bar.timestamp)
      && CE.Evaluate(t.candidate.value, bars, Some(limits.outcomeMaximumBars)) == Ok(CE.Measure(t.candidate.value, bars))
      && CE.Measure(t.candidate.value, bars).barsEvaluated == |bars|
  {
    hide CE.Scan, WindowSound;
    CE.PreparedAsGiven(t.outcomeBars + [bar], None, t.candidate.value.createdAt, Some(limits.outcomeMaximumBars));
  }

  lemma WatchKeepsSound(limits: Limits, now: int, t: Tracked, bar: Bar, d: Diagnosis)
    requires limits.Valid() && OpenSound(limits, now, t) && t.candidate.None? && Timely(bar, d)
    ensures var next := Watch(limits, t, bar, d);
      && next.setup == t.setup && Age(next) == Age(t) + 1
      && Completes(limits, t, next, d) == next.outcomeWindowComplete
      && if next.outcomeWindowComplete then DoneSound(limits, next) else OpenSound(limits, bar.timestamp, next)
  {
    hide CrossesTarget;
  }

  /** With ordered bars and timely candidates the evaluator never refuses. */
  lemma ObserveOneKeepsSound(limits: Limits, now: int, t: Tracked, bar: Bar, d: Diagnosis)
    requires limits.Valid() && OpenSound(limits, now, t) && bar.timestamp > now && Timely(bar, d)
    ensures ObserveOne(limits, t, bar, d).Ok?
    ensures var next := ObserveOne(limits, t, bar, d).value;
      && next.setup == t.setup && Age(next) == Age(t) + 1
      && Completes(limits, t, next, d) == next.outcomeWindowComplete
      && if next.outcomeWindowComplete then DoneSound(limits, next) else OpenSound(limits, bar.timestamp, next)
  {
    if t.candidate.Some? {
      FollowKeepsSound(limits, now, t, bar);
    } else {
      WatchKeepsSound(limits, now, t, bar, d);
    }
    hide Follow, Watch, OpenSound, DoneSound, Age;
  }

  lemma AgeIsBounded(limits: Limits, now: int, t: Tracked)
    requires OpenSound(limits, now, t)
    ensures Age(t) < limits.maximumBars + limits.outcomeMaximumBars
  {
  }

  // ----- one bar for all entries -----

  predicate AllOpen(limits: Limits, now: int, pending: seq<Tracked>) {
    forall t <- pending :: OpenSound(limits, now, t)
  }

  predicate AllDone(limits: Limits, completed: seq<Tracked>) {
    forall t <- completed :: DoneSound(limits, t)
  }

  /** The strategy's answers for all the pending setups are timely. */
  predicate AllTimely(pending: seq<Tracked>, bar: Bar, strategy: Setup -> Diagnosis) {
    forall t <- pending :: Timely(bar, strategy(t.setup))
  }

  function Ids(entries: seq<Tracked>): multiset<nat> {
    if entries == [] then multiset{} else multiset{entries[0].setup.id} + Ids(entries[1..])
  }

  function AllIds(st: State): multiset<nat> {
    Ids(st.pending) + Ids(st.completed)
  }

  ghost predicate StateSound(limits: Limits, now: int, st: State) {
    && AllOpen(limits, now, st.pending) && AllDone(limits, st.completed)
    && forall id :: AllIds(st)[id] <= 1
  }

  lemma {:induction false} EachKeepsSound(
    limits: Limits, now: int, pending: seq<Tracked>, bar: Bar, strategy: Setup -> Diagnosis)
    requires limits.Valid() && AllOpen(limits, now, pending) && bar.timestamp > now && AllTimely(pending, bar, strategy)
    ensures var (entries, refused) := ObserveEach(limits, pending, bar, strategy);
      && !refused && |entries| == |pending|
      && forall i :: 0 <= i < |pending| ==>
           && entries[i].setup == pending[i].setup && Age(entries[i]) == Age(pending[i]) + 1
           && CompletedBy(limits, pending[i], bar, strategy) == entries[i].outcomeWindowComplete
           && if entries[i].outcomeWindowComplete then DoneSound(limits, entries[i])
              else OpenSound(limits, bar.timestamp, entries[i])
    decreases |pending|
  {
    hide ObserveOne, OpenSound, DoneSound, Completes, Age;
    if pending != [] {
      var t := pending[0];
      assert OpenSound(limits, now, t) && Timely(bar, strategy(t.setup));
      ObserveOneKeepsSound(limits, now, t, bar, strategy(t.setup));
      EachKeepsSound(limits, now, pending[1..], bar, strategy);
    }
  }

  function Finished(entries: seq<Tracked>): (done: seq<Tracked>)
    ensures forall t <- done :: t.outcomeWindowComplete && t in entries
  {
    if entries == [] then []
    else (if entries[0].outcomeWindowComplete then [entries[0]] else []) + Finished(entries[1..])
  }

  function Unfinished(entries: seq<Tracked>): (open: seq<Tracked>)
    ensures forall t <- open :: !t.outcomeWindowComplete && t in entries
  {
    if entries == [] then []
    else (if entries[0].outcomeWindowComplete then [] else [entries[0]]) + Unfinished(entries[1..])
  }

  lemma {:induction false} PickedByFlag(entries: seq<Tracked>, flags: seq<bool>)
    requires |entries| == |flags| && forall i :: 0 <= i < |entries| ==> flags[i] == entries[i].outcomeWindowComplete
    ensures Picked(entries, flags, true) == Finished(entries) && Picked(entries, flags, false) == Unfinished(entries)
  {
    if entries != [] {
      PickedByFlag(entries[1..], flags[1..]);
    }
  }

  /** On sound entries the bar moves exactly those whose outcome window is complete. */
  lemma ObserveSplits(limits: Limits, now: int, st: State, bar: Bar, strategy: Setup -> Diagnosis)
    requires limits.Valid() && AllOpen(limits, now, st.pending) && bar.timestamp > now && AllTimely(st.pending, bar, strategy)
    ensures var entries := ObserveEach(limits, st.pending, bar, strategy).0;
      Observe(limits, st, bar, strategy) == (State(Unfinished(entries), st.completed + Finished(entries)), false)
  {
    hide ObserveEach, OpenSound, DoneSound, Age, CompletedBy, AllOpen, AllTimely, Picked, Finished, Unfinished;
    EachKeepsSound(limits, now, st.pending, bar, strategy);
    PickedByFlag(ObserveEach(limits, st.pending, bar, strategy).0, Completions(limits, st.pending, bar, strategy));
  }

  lemma {:induction false} IdsByIndex(one: seq<Tracked>, two: seq<Tracked>)
    requires |one| == |two| && forall i :: 0 <= i < |one| ==> one[i].setup == two[i].setup
    ensures Ids(one) == Ids(two)
  {
    if one != [] {
      IdsByIndex(one[1..], two[1..]);
    }
  }

  lemma {:induction false} IdsOfBoth(one: seq<Tracked>, two: seq<Tracked>)
    ensures Ids(one + two) == Ids(one) + Ids(two)
  {
    if one == [] {
      assert one + two == two;
    } else {
      assert (one + two)[1..] == one[1..] + two;
      IdsOfBoth(one[1..], two);
    }
  }

  lemma {:induction false} IdsSplit(entries: seq<Tracked>)
    ensures Ids(entries) == Ids(Unfinished(entries)) + Ids(Finished(entries))
    decreases |entries|
  {
    if entries != [] {
      IdsSplit(entries[1..]);
      if entries[0].outcomeWindowComplete {
        assert Finished(entries)[1..] == Finished(entries[1..]) && Unfinished(entries) == Unfinished(entries[1..]);
      } else {
        assert Unfinished(entries)[1..] == Unfinished(entries[1..]) && Finished(entries) == Finished(entries[1..]);
      }
    }
  }

  lemma SplitKeepsSound(limits: Limits, now: int, entries: seq<Tracked>, completed: seq<Tracked>)
    requires AllDone(limits, completed)
    requires forall i :: 0 <= i < |entries| ==>
               if entries[i].outcomeWindowComplete then DoneSound(limits, entries[i]) else OpenSound(limits, now, entries[i])
    ensures AllOpen(limits, now, Unfinished(entries)) && AllDone(limits, completed + Finished(entries))
  {
    hide OpenSound, DoneSound;
  }

  /** Observing moves entries from pending to completed and neither loses nor repeats an id. */
  lemma ObserveKeepsSound(limits: Limits, now: int, st: State, bar: Bar, strategy: Setup -> Diagnosis)
    requires limits.Valid() && StateSound(limits, now, st) && bar.timestamp > now && AllTimely(st.pending, bar, strategy)
    ensures var (next, refused) := Observe(limits, st, bar, strategy);
      !refused && StateSound(limits, bar.timestamp, next) && AllIds(next) == AllIds(st)
  {
    hide OpenSound, DoneSound, ObserveEach, Finished, Unfinished, Ids, Observe, CompletedBy;
    ObserveSplits(limits, now, st, bar, strategy);
    EachKeepsSound(limits, now, st.pending, bar, strategy);
    var entries := ObserveEach(limits, st.pending, bar, strategy).0;
    SplitKeepsSound(limits, bar.timestamp, entries, st.completed);
    hide AllOpen, AllDone;
    IdsByIndex(entries, st.pending);
    IdsSplit(entries);
    IdsOfBoth(st.completed, Finished(entries));
    assert AllIds(Observe(limits, st, bar, strategy).0) == AllIds(st);
  }

  predicate Holds(entries: seq<Tracked>, id: nat) {
    exists i :: 0 <= i < |entries| && entries[i].setup.id == id
  }

  lemma HoldsByFirst(entries: seq<Tracked>, id: nat)
    requires entries != []
    ensures Holds(entries, id) <==> entries[0].setup.id == id || Holds(entries[1..], id)
  {
    if Holds(entries[1..], id) {
      var j :| 0 <= j < |entries[1..]| && entries[1..][j].setup.id == id;
      assert entries[j + 1].setup.id == id;
    }
    if i :| 0 < i < |entries| && entries[i].setup.id == id {
      assert entries[1..][i - 1].setup.id == id;
    }
  }

  lemma {:induction false} KnownIds(entries: seq<Tracked>, id: nat)
    ensures id in Ids(entries) <==> Holds(entries, id)
  {
    if entries != [] {
      HoldsByFirst(entries, id);
      KnownIds(entries[1..], id);
      hide Holds;
    }
  }

  lemma RegisteredIds(limits: Limits, st: State, setup: Setup, expiredAt: int)
    ensures AllIds(RegisterIn(st, setup, expiredAt)) == if Known(st, setup.id) then AllIds(st) else AllIds(st) + multiset{setup.id}
    ensures Known(st, setup.id) <==> setup.id in AllIds(st)
  {
    assert Known(st, setup.id) <==> setup.id in AllIds(st) by {
      hide Ids;
      KnownIds(st.pending, setup.id);
      KnownIds(st.completed, setup.id);
    }
    hide Known;
    assert [Fresh(setup, expiredAt)][1..] == [];
    IdsOfBoth(st.pending, [Fresh(setup, expiredAt)]);
  }

  lemma RegisterKeepsSound(limits: Limits, now: int, st: State, setup: Setup, expiredAt: int)
    requires limits.Valid() && StateSound(limits, now, st)
    ensures StateSound(limits, now, RegisterIn(st, setup, expiredAt))
  {
    FreshIsOpen(limits, now, setup, expiredAt);
    RegisteredIds(limits, st, setup, expiredAt);
    hide OpenSound, DoneSound, Fresh, Ids, Known, AllIds;
  }

  lemma FreshIsOpen(limits: Limits, now: int, setup: Setup, expiredAt: int)
    requires limits.Valid()
    ensures OpenSound(limits, now, Fresh(setup, expiredAt))
  {
  }

  // ----- histories -----

  datatype Operation = Register(setup: Setup, expiredAt: int) | See(bar: Bar, strategy: Setup -> Diagnosis)

  function Apply(limits: Limits, st: State, op: Operation): State {
    match op
    case Register(setup, expiredAt) => RegisterIn(st, setup, expiredAt)
    case See(bar, strategy) => Observe(limits, st, bar, strategy).0
  }

  function RunAll(limits: Limits, st: State, ops: seq<Operation>): State
    decreases |ops|
  {
    if ops == [] then st else RunAll(limits, Apply(limits, st, ops[0]), ops[1..])
  }

  function After(now: int, op: Operation): int {
    if op.See? then op.bar.timestamp else now
  }

  /** Bars arrive in order and the strategy's candidates are timely, whatever is pending. */
  ghost predicate Orderly(limits: Limits, now: int, st: State, ops: seq<Operation>)
    decreases |ops|
  {
    ops != [] ==>
      && (ops[0].See? ==> ops[0].bar.timestamp > now && AllTimely(st.pending, ops[0].bar, ops[0].strategy))
      && Orderly(limits, After(now, ops[0]), Apply(limits, st, ops[0]), ops[1..])
  }

  function Sightings(ops: seq<Operation>): nat {
    if ops == [] then 0 else (if ops[0].See? then 1 else 0) + Sightings(ops[1..])
  }

  /** The id is finished, or still pending with at least the given age. */
  ghost predicate Progressed(st: State, id: nat, age: nat) {
    || id in Ids(st.completed)
    || exists t <- st.pending :: t.setup.id == id && Age(t) >= age
  }

  lemma RegisterProgresses(st: State, setup: Setup, expiredAt: int, id: nat, age: nat)
    requires Progressed(st, id, age)
    ensures Progressed(RegisterIn(st, setup, expiredAt), id, age)
  {
    hide Known, Ids, Fresh, Age;
    if id !in Ids(st.completed) {
      var t :| t in st.pending && t.setup.id == id && Age(t) >= age;
      assert t in RegisterIn(st, setup, expiredAt).pending;
    }
  }

  lemma SeeProgresses(limits: Limits, now: int, st: State, bar: Bar, strategy: Setup -> Diagnosis, id: nat, age: nat)
    requires limits.Valid() && AllOpen(limits, now, st.pending) && Progressed(st, id, age)
    requires bar.timestamp > now && AllTimely(st.pending, bar, strategy)
    ensures Progressed(Observe(limits, st, bar, strategy).0, id, age + 1)
  {
    hide ObserveEach, OpenSound, DoneSound, Ids, Age, Timely, Observe, CompletedBy;
    ObserveSplits(limits, now, st, bar, strategy);
    EachKeepsSound(limits, now, st.pending, bar, strategy);
    hide AllOpen, AllTimely;
    var entries := ObserveEach(limits, st.pending, bar, strategy).0;
    IdsOfBoth(st.completed, Finished(entries));
    if id !in Ids(st.completed) {
      var t :| t in st.pending && t.setup.id == id && Age(t) >= age;
      var i :| 0 <= i < |st.pending| && st.pending[i] == t;
      EntryGoesSomewhere(entries, i);
    }
  }

  lemma StepKeepsSound(limits: Limits, now: int, st: State, op: Operation)
    requires limits.Valid() && StateSound(limits, now, st)
    requires op.See? ==> op.bar.timestamp > now && AllTimely(st.pending, op.bar, op.strategy)
    ensures StateSound(limits, After(now, op), Apply(limits, st, op))
  {
    hide StateSound, Observe, RegisterIn, AllOpen, AllTimely;
    match op
    case Register(setup, expiredAt) => RegisterKeepsSound(limits, now, st, setup, expiredAt);
    case See(bar, strategy) => ObserveKeepsSound(limits, now, st, bar, strategy);
  }

  lemma StepProgresses(limits: Limits, now: int, st: State, op: Operation, id: nat, age: nat)
    requires limits.Valid() && StateSound(limits, now, st) && Progressed(st, id, age)
    requires op.See? ==> op.bar.timestamp > now && AllTimely(st.pending, op.bar, op.strategy)
    ensures Progressed(Apply(limits, st, op), id, if op.See? then age + 1 else age)
  {
    hide Progressed, Observe, RegisterIn, AllOpen, AllTimely;
    match op
    case Register(setup, expiredAt) => RegisterProgresses(st, setup, expiredAt, id, age);
    case See(bar, strategy) => SeeProgresses(limits, now, st, bar, strategy, id, age);
  }

  lemma {:induction false} EntryGoesSomewhere(entries: seq<Tracked>, i: nat)
    requires i < |entries|
    ensures if entries[i].outcomeWindowComplete then entries[i].setup.id in Ids(Finished(entries))
            else entries[i] in Unfinished(entries)
    decreases |entries|
  {
    if i > 0 {
      EntryGoesSomewhere(entries[1..], i - 1);
      if entries[0].outcomeWindowComplete {
        assert Finished(entries)[1..] == Finished(entries[1..]);
      } else {
        assert Finished(entries) == Finished(entries[1..]);
      }
    } else if entries[0].outcomeWindowComplete {
      assert Finished(entries)[0] == entries[0];
    }
  }

  /** The time of the last bar of a history. */
  function LastSeen(now: int, ops: seq<Operation>): int
    decreases |ops|
  {
    if ops == [] then now else LastSeen(After(now, ops[0]), ops[1..])
  }

  lemma {:induction false} HistoryProgresses(limits: Limits, now: int, st: State, ops: seq<Operation>, id: nat, age: nat)
    requires limits.Valid() && StateSound(limits, now, st) && Orderly(limits, now, st, ops) && Progressed(st, id, age)
    ensures Progressed(RunAll(limits, st, ops), id, age + Sightings(ops))
    decreases |ops|
  {
    hide StateSound, Progressed, Apply;
    if ops != [] {
      StepKeepsSound(limits, now, st, ops[0]);
      StepProgresses(limits, now, st, ops[0], id, age);
      HistoryProgresses(limits, After(now, ops[0]), Apply(limits, st, ops[0]), ops[1..], id,
                        if ops[0].See? then age + 1 else age);
    }
  }

  lemma {:induction false} HistoryKeepsSound(limits: Limits, now: int, st: State, ops: seq<Operation>)
    requires limits.Valid() && StateSound(limits, now, st) && Orderly(limits, now, st, ops)
    ensures StateSound(limits, LastSeen(now, ops), RunAll(limits, st, ops))
    decreases |ops|
  {
    hide StateSound, Apply, AllTimely;
    if ops != [] {
      StepKeepsSound(limits, now, st, ops[0]);
      HistoryKeepsSound(limits, After(now, ops[0]), Apply(limits, st, ops[0]), ops[1..]);
    }
  }

  /** Whatever is registered and seen, no id is tracked twice or is both pending and completed, counters and the
      cross-to-trigger distance stay in range, and only entries with both windows complete are recorded. */
  lemma EveryHistoryIsSound(limits: Limits, start: int, ops: seq<Operation>)
    requires limits.Valid() && Orderly(limits, start, State([], []), ops)
    ensures StateSound(limits, LastSeen(start, ops), RunAll(limits, State([], []), ops))
  {
    HistoryKeepsSound(limits, start, State([], []), ops);
  }

  /** However bars and registrations are interleaved, a pending setup is finished after at most
      `maximumBars + outcomeMaximumBars` bars, is then recorded exactly once, and is pending no more. */
  lemma SetupsAreFollowedToTheEnd(limits: Limits, now: int, st: State, ops: seq<Operation>, id: nat)
    requires limits.Valid() && StateSound(limits, now, st) && Orderly(limits, now, st, ops)
    requires exists t <- st.pending :: t.setup.id == id
    requires Sightings(ops) >= limits.maximumBars + limits.outcomeMaximumBars
    ensures var end := RunAll(limits, st, ops);
      && AllDone(limits, end.completed)
      && Ids(end.completed)[id] == 1 && Ids(end.pending)[id] == 0
  {
    hide RunAll, Orderly, Ids, AllOpen, AllDone, Age, Sightings;
    assert Progressed(st, id, 0) by {
      hide StateSound;
    }
    hide Progressed;
    HistoryProgresses(limits, now, st, ops, id, 0);
    HistoryKeepsSound(limits, now, st, ops);
    var end := RunAll(limits, st, ops);
    OldEntriesAreFinished(limits, LastSeen(now, ops), end, id, 0 + Sightings(ops));
    assert AllIds(end)[id] <= 1;
  }

  /** No entry stays open long enough to reach the sum of the two limits. */
  lemma OldEntriesAreFinished(limits: Limits, now: int, st: State, id: nat, age: nat)
    requires AllOpen(limits, now, st.pending) && Progressed(st, id, age)
    requires age >= limits.maximumBars + limits.outcomeMaximumBars
    ensures id in Ids(st.completed)
  {
    hide Ids;
    forall t <- st.pending
      ensures Age(t) < age
    {
      AgeIsBounded(limits, now, t);
    }
  }
}

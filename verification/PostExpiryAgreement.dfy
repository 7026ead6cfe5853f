/** What the post-expiry tracker records about a candidate is what one evaluation of all the bars after its trigger
    finds. */
module PostExpiryAgreement {
  import opened Wrappers
  import opened Market
  import CE = CandidateEvaluation
  import opened PostExpiryTracker
  import opened PostExpiryLifetime

  // ----- one evaluation of more bars than were needed -----

  /** The evaluation of `bars` is final: more bars, within the same maximum, would not change it. */
  predicate Final(c: CE.Candidate, bars: seq<Bar>, maximum: nat) {
    |bars| <= maximum && (|bars| == maximum || CE.FirstTerminal(c, bars) < |bars|)
  }

  lemma TerminalOfLonger(c: CE.Candidate, bars: seq<Bar>, later: seq<Bar>)
    requires bars <= later && CE.FirstTerminal(c, bars) < |bars|
    ensures CE.FirstTerminal(c, later) == CE.FirstTerminal(c, bars) && CE.LivedThrough(c, later) == CE.LivedThrough(c, bars)
  {
    var n, m := CE.FirstTerminal(c, bars), CE.FirstTerminal(c, later);
    assert forall j :: 0 <= j < |bars| ==> later[j] == bars[j];
    assert n == m;
    assert later[..n + 1] == bars[..n + 1];
  }

  /** A final evaluation is that of all the later bars, up to the number of bars looked at. */
  lemma FinalAgrees(c: CE.Candidate, bars: seq<Bar>, later: seq<Bar>, maximum: nat)
    requires maximum > 0 && bars <= later && Final(c, bars, maximum)
    requires Chronological(later) && forall b <- later :: b.timestamp > c.createdAt
    ensures CE.Evaluate(c, later, Some(maximum)).Ok?
    ensures var e := CE.Evaluate(c, later, Some(maximum)).value;
      var m := CE.Measure(c, bars);
      && (e.outcome, e.outcomeAt, e.highestTarget) == (m.outcome, m.outcomeAt, m.highestTarget)
      && (e.mfe, e.mae, e.mfeR, e.maeR) == (m.mfe, m.mae, m.mfeR, m.maeR)
  {
    hide CE.Scan, CE.PrepareFrom, Chronological;
    CE.PreparedUpTo(later, None, c.createdAt, Some(maximum));
    var prepared := later[..CE.Within(|later|, Some(maximum))];
    if |bars| == maximum {
      assert prepared == bars;
    } else {
      TerminalOfLonger(c, bars, prepared);
      CE.ScanStops(c, CE.Nothing(), bars);
      CE.ScanStops(c, CE.Nothing(), prepared);
    }
  }

  // ----- entries and the bars seen so far -----

  predicate SeenBy(now: int, seen: seq<Bar>) {
    Chronological(seen) && forall b <- seen :: b.timestamp <= now
  }

  /** An entry with a candidate was triggered on a bar that was seen, and its outcome bars are the bars after that
      one: all of them while it is open, the first of them once it is complete. */
  predicate Matches(now: int, seen: seq<Bar>, t: Tracked) {
    t.candidate.Some? ==>
      && t.firstTriggerAt.Some? && (exists i :: 0 <= i < |seen| && seen[i].timestamp == t.firstTriggerAt.value)
      && t.candidate.value.createdAt <= t.firstTriggerAt.value <= now
      && t.outcomeBars <= CE.After(t.firstTriggerAt.value, seen)
      && (!t.outcomeWindowComplete ==> t.outcomeBars == CE.After(t.firstTriggerAt.value, seen))
  }

  lemma {:induction false} NothingAfter(time: int, bars: seq<Bar>)
    requires forall b <- bars :: b.timestamp <= time
    ensures CE.After(time, bars) == []
  {
    if bars != [] {
      NothingAfter(time, bars[1..]);
    }
  }

  lemma SeenByMore(now: int, seen: seq<Bar>, bar: Bar)
    requires SeenBy(now, seen) && bar.timestamp > now
    ensures SeenBy(bar.timestamp, seen + [bar])
  {
  }

  /** What was matched before a bar, open or complete, and has not taken the bar. */
  lemma CompleteStaysMatched(now: int, seen: seq<Bar>, t: Tracked, bar: Bar)
    requires Matches(now, seen, t) && bar.timestamp > now && t.outcomeWindowComplete
    ensures Matches(bar.timestamp, seen + [bar], t)
  {
    hide CE.After;
    if t.candidate.Some? {
      CE.AfterMore(t.firstTriggerAt.value, seen, bar);
      var i :| 0 <= i < |seen| && seen[i].timestamp == t.firstTriggerAt.value;
      assert (seen + [bar])[i].timestamp == t.firstTriggerAt.value;
    }
  }

  lemma FollowStaysMatched(limits: Limits, now: int, seen: seq<Bar>, t: Tracked, bar: Bar)
    requires Matches(now, seen, t) && bar.timestamp > now && t.candidate.Some? && !t.outcomeWindowComplete
    requires Follow(limits, t, bar).Ok?
    ensures Matches(bar.timestamp, seen + [bar], Follow(limits, t, bar).value)
  {
    hide CE.After, CE.Evaluate;
    CE.AfterMore(t.firstTriggerAt.value, seen, bar);
    var i :| 0 <= i < |seen| && seen[i].timestamp == t.firstTriggerAt.value;
    assert (seen + [bar])[i].timestamp == t.firstTriggerAt.value;
  }

  lemma WatchStaysMatched(limits: Limits, now: int, seen: seq<Bar>, t: Tracked, bar: Bar, d: Diagnosis)
    requires SeenBy(now, seen) && bar.timestamp > now && t.candidate.None? && Timely(bar, d)
    ensures Matches(bar.timestamp, seen + [bar], Watch(limits, t, bar, d))
  {
    hide CE.After, CrossesTarget, FirstDistance, FactsOf;
    NothingAfter(bar.timestamp, seen + [bar]);
    assert (seen + [bar])[|seen|].timestamp == bar.timestamp;
  }

  lemma OneStaysMatched(limits: Limits, now: int, seen: seq<Bar>, t: Tracked, bar: Bar, d: Diagnosis)
    requires limits.Valid() && OpenSound(limits, now, t) && bar.timestamp > now && Timely(bar, d)
    requires SeenBy(now, seen) && Matches(now, seen, t)
    ensures ObserveOne(limits, t, bar, d).Ok? && Matches(bar.timestamp, seen + [bar], ObserveOne(limits, t, bar, d).value)
  {
    ObserveOneKeepsSound(limits, now, t, bar, d);
    hide Matches, SeenBy, Follow, Watch, WindowSound;
    if t.candidate.Some? {
      FollowStaysMatched(limits, now, seen, t, bar);
    } else {
      WatchStaysMatched(limits, now, seen, t, bar, d);
    }
  }

  ghost predicate AllMatch(now: int, seen: seq<Bar>, entries: seq<Tracked>) {
    forall t <- entries :: Matches(now, seen, t)
  }

  lemma {:induction false} EachStaysMatched(
    limits: Limits, now: int, seen: seq<Bar>, pending: seq<Tracked>, bar: Bar, strategy: Setup -> Diagnosis)
    requires limits.Valid() && AllOpen(limits, now, pending) && bar.timestamp > now && AllTimely(pending, bar, strategy)
    requires SeenBy(now, seen) && AllMatch(now, seen, pending)
    ensures AllMatch(bar.timestamp, seen + [bar], ObserveEach(limits, pending, bar, strategy).0)
    decreases |pending|
  {
    hide ObserveOne, OpenSound, SeenBy, Matches, Timely;
    if pending != [] {
      var t := pending[0];
      assert OpenSound(limits, now, t) && Timely(bar, strategy(t.setup)) && Matches(now, seen, t);
      OneStaysMatched(limits, now, seen, t, bar, strategy(t.setup));
      EachStaysMatched(limits, now, seen, pending[1..], bar, strategy);
    }
  }

  // ----- histories -----

  function BarsSeen(ops: seq<Operation>): seq<Bar> {
    if ops == [] then [] else (if ops[0].See? then [ops[0].bar] else []) + BarsSeen(ops[1..])
  }

  ghost predicate StateMatches(now: int, seen: seq<Bar>, st: State) {
    SeenBy(now, seen) && AllMatch(now, seen, st.pending) && AllMatch(now, seen, st.completed)
  }

  lemma SeeStaysMatched(limits: Limits, now: int, seen: seq<Bar>, st: State, bar: Bar, strategy: Setup -> Diagnosis)
    requires limits.Valid() && StateSound(limits, now, st) && StateMatches(now, seen, st)
    requires bar.timestamp > now && AllTimely(st.pending, bar, strategy)
    ensures StateMatches(bar.timestamp, seen + [bar], Observe(limits, st, bar, strategy).0)
  {
    hide ObserveEach, Observe, SeenBy, Matches, OpenSound, AllTimely, Finished, Unfinished;
    ObserveSplits(limits, now, st, bar, strategy);
    EachStaysMatched(limits, now, seen, st.pending, bar, strategy);
    SeenByMore(now, seen, bar);
    forall t <- st.completed
      ensures Matches(bar.timestamp, seen + [bar], t)
    {
      assert DoneSound(limits, t);
      CompleteStaysMatched(now, seen, t, bar);
    }
  }

  lemma RegisterStaysMatched(now: int, seen: seq<Bar>, st: State, setup: Setup, expiredAt: int)
    requires StateMatches(now, seen, st)
    ensures StateMatches(now, seen, RegisterIn(st, setup, expiredAt))
  {
    hide Known, SeenBy;
  }

  lemma {:induction false} HistoryStaysMatched(limits: Limits, now: int, seen: seq<Bar>, st: State, ops: seq<Operation>)
    requires limits.Valid() && StateSound(limits, now, st) && StateMatches(now, seen, st) && Orderly(limits, now, st, ops)
    ensures StateMatches(LastSeen(now, ops), seen + BarsSeen(ops), RunAll(limits, st, ops))
    decreases |ops|
  {
    hide StateSound, StateMatches, Observe, RegisterIn, AllTimely;
    if ops == [] {
      assert seen + BarsSeen(ops) == seen;
    } else {
      var op := ops[0];
      StepKeepsSound(limits, now, st, op);
      var more := seen + if op.See? then [op.bar] else [];
      assert seen + BarsSeen(ops) == more + BarsSeen(ops[1..]);
      if op.See? {
        SeeStaysMatched(limits, now, seen, st, op.bar, op.strategy);
      } else {
        assert more == seen;
        RegisterStaysMatched(now, seen, st, op.setup, op.expiredAt);
      }
      HistoryStaysMatched(limits, After(now, op), more, Apply(limits, st, op), ops[1..]);
    }
  }

  lemma {:induction false} AfterIsOrdered(time: int, bars: seq<Bar>)
    requires Chronological(bars)
    ensures Chronological(CE.After(time, bars)) && forall b <- CE.After(time, bars) :: b.timestamp > time && b in bars
  {
    if bars != [] {
      TailIsLater(bars);
      hide Chronological;
      AfterIsOrdered(time, bars[1..]);
      OrderedBehind(bars[0], CE.After(time, bars[1..]));
    }
  }

  lemma TailIsLater(bars: seq<Bar>)
    requires Chronological(bars) && bars != []
    ensures Chronological(bars[1..]) && forall b <- bars[1..] :: bars[0].timestamp < b.timestamp
  {
  }

  lemma OrderedBehind(bar: Bar, bars: seq<Bar>)
    ensures Chronological(bars) && (forall b <- bars :: bar.timestamp < b.timestamp) ==> Chronological([bar] + bars)
  {
  }

  /** The recorded outcome, its time and both R multiples are those of one evaluation of all the bars of the history
      that are later than the trigger bar, under the tracker's maximum, whatever was seen after the entry was complete. */
  lemma RecordsAgreeWithOneShot(limits: Limits, start: int, ops: seq<Operation>, t: Tracked)
    requires limits.Valid() && Orderly(limits, start, State([], []), ops)
    requires t in RunAll(limits, State([], []), ops).completed && t.candidate.Some?
    ensures t.firstTriggerAt.Some? && exists b <- BarsSeen(ops) :: b.timestamp == t.firstTriggerAt.value
    ensures var e := CE.Evaluate(t.candidate.value, CE.After(t.firstTriggerAt.value, BarsSeen(ops)), Some(limits.outcomeMaximumBars));
      && e.Ok?
      && (t.outcome, t.outcomeAt) == (Some(e.value.outcome), e.value.outcomeAt)
      && (t.mfeR, t.maeR) == (Some(e.value.mfeR), Some(e.value.maeR))
  {
    var none, end := State([], []), RunAll(limits, State([], []), ops);
    EveryHistoryIsSound(limits, start, ops);
    HistoryStaysMatched(limits, start, [], none, ops);
    hide RunAll, Orderly, WindowSound, CE.Evaluate, CE.Measure, CE.After, CE.FirstTerminal;
    var seen := BarsSeen(ops);
    assert [] + seen == seen;
    assert DoneSound(limits, t) && Matches(LastSeen(start, ops), seen, t);
    var c, trigger := t.candidate.value, t.firstTriggerAt.value;
    AfterIsOrdered(trigger, seen);
    DoneIsFinal(limits, t);
    FinalAgrees(c, t.outcomeBars, CE.After(trigger, seen), limits.outcomeMaximumBars);
  }

  lemma DoneIsFinal(limits: Limits, t: Tracked)
    requires DoneSound(limits, t) && t.candidate.Some?
    ensures Final(t.candidate.value, t.outcomeBars, limits.outcomeMaximumBars)
  {
    CE.MeasureByScan(t.candidate.value, t.outcomeBars);
    hide CE.Scan, WindowSound;
  }
}

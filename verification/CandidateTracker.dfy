/** The streaming tracker of candidate outcomes, and its agreement with one evaluation of all the bars. */
module CandidateTracker {
  import opened Wrappers
  import opened Market
  import opened CandidateEvaluation

  /** A candidate still waiting for its outcome; entries keep their order of registration. */
  datatype Pending = Pending(candidate: Candidate, bars: seq<Bar>)

  datatype TrackerError = AlreadyRegistered | OutOfOrder

  datatype State = State(pending: seq<Pending>, evaluations: seq<Evaluation>)

  // ----- one operation -----

  predicate IsPending(st: State, id: nat) {
    exists i :: 0 <= i < |st.pending| && st.pending[i].candidate.id == id
  }

  predicate IsEvaluated(st: State, id: nat) {
    exists i :: 0 <= i < |st.evaluations| && st.evaluations[i].id == id
  }

  function RegisterIn(st: State, c: Candidate): Result<State, TrackerError> {
    if IsPending(st, c.id) || IsEvaluated(st, c.id) then Err(AlreadyRegistered)
    else Ok(st.(pending := st.pending + [Pending(c, [])]))
  }

  predicate Resolved(p: Pending) {
    !Measure(p.candidate, p.bars).outcome.Unresolved?
  }

  predicate Refuses(p: Pending, bar: Bar) {
    bar.timestamp > p.candidate.createdAt && p.bars != [] && bar.timestamp <= p.bars[|p.bars| - 1].timestamp
  }

  function Extend(p: Pending, bar: Bar): Pending {
    if bar.timestamp <= p.candidate.createdAt then p else p.(bars := p.bars + [bar])
  }

  /** The outcome, if any, that a bar brings to an entry. */
  function Outcomes(p: Pending, bar: Bar): seq<Evaluation> {
    var next := Extend(p, bar);
    if bar.timestamp > p.candidate.createdAt && Resolved(next) then [Measure(next.candidate, next.bars)] else []
  }

  /** The entries after a bar, in order, up to the first that refuses it; `done` are the outcomes found. */
  datatype Swept = Swept(entries: seq<Pending>, done: seq<Evaluation>, refused: bool)

  function Sweep(pending: seq<Pending>, bar: Bar): Swept
    decreases |pending|
  {
    if pending == [] then Swept([], [], false)
    else if Refuses(pending[0], bar) then Swept(pending, [], true)
    else
      var rest := Sweep(pending[1..], bar);
      Swept([Extend(pending[0], bar)] + rest.entries, Outcomes(pending[0], bar) + rest.done, rest.refused)
  }

  function StillOpen(pending: seq<Pending>): (open: seq<Pending>)
    ensures forall p <- open :: p in pending && !Resolved(p)
    decreases |pending|
  {
    if pending == [] then []
    else (if Resolved(pending[0]) then [] else [pending[0]]) + StillOpen(pending[1..])
  }

  /** The state after a bar, and whether some entry refused it; a refusal leaves the sweep half done. */
  function Feed(st: State, bar: Bar): (State, bool) {
    var swept := Sweep(st.pending, bar);
    (State(if swept.refused then swept.entries else StillOpen(swept.entries), st.evaluations + swept.done), swept.refused)
  }

  function MeasureAll(pending: seq<Pending>): seq<Evaluation> {
    seq(|pending|, i requires 0 <= i < |pending| => Measure(pending[i].candidate, pending[i].bars))
  }

  function FinalizeIn(st: State): State {
    State([], st.evaluations + MeasureAll(st.pending))
  }

  // ----- the tracker object -----

  /** What the tracker relies on about an entry: its bars are in order, after its creation, and touch no level. */
  ghost predicate Sound(p: Pending) {
    && Chronological(p.bars)
    && (forall b <- p.bars :: b.timestamp > p.candidate.createdAt)
    && FirstTerminal(p.candidate, p.bars) == |p.bars|
  }

  lemma UnresolvedIffNoTerminal(c: Candidate, bars: seq<Bar>)
    ensures Resolved(Pending(c, bars)) <==> FirstTerminal(c, bars) < |bars|
  {
    MeasureByScan(c, bars);
  }

  lemma ExtendedIsOrdered(p: Pending, bar: Bar)
    requires Sound(p) && !Refuses(p, bar)
    ensures Chronological(Extend(p, bar).bars) && forall b <- Extend(p, bar).bars :: b.timestamp > p.candidate.createdAt
    ensures PrepareFrom(Extend(p, bar).bars, None, p.candidate.createdAt, None) == Ok(Extend(p, bar).bars)
  {
    PreparedAsGiven(Extend(p, bar).bars, None, p.candidate.createdAt, None);
  }

  // ----- a refused bar changes nothing -----

  function LastTime(p: Pending): int
    requires p.bars != []
  {
    p.bars[|p.bars| - 1].timestamp
  }

  /** Of two entries the one registered earlier has seen at least the bars of the other that are late enough for it. */
  predicate Leads(earlier: Pending, later: Pending) {
    later.bars != [] && LastTime(later) > earlier.candidate.createdAt ==>
      earlier.bars != [] && LastTime(earlier) >= LastTime(later)
  }

  predicate Ranked(pending: seq<Pending>) {
    forall i, j :: 0 <= i < j < |pending| ==> Leads(pending[i], pending[j])
  }

  lemma {:induction false} SomeoneRefuses(pending: seq<Pending>, bar: Bar) returns (j: nat)
    requires Sweep(pending, bar).refused
    ensures j < |pending| && Refuses(pending[j], bar)
  {
    if Refuses(pending[0], bar) {
      j := 0;
    } else {
      j := SomeoneRefuses(pending[1..], bar);
      j := j + 1;
    }
  }

  /** Were a later entry to refuse the bar, an earlier one that could take it would have refused it before. */
  lemma {:induction false} RefusalChangesNothing(pending: seq<Pending>, bar: Bar)
    requires Ranked(pending) && Sweep(pending, bar).refused
    ensures Sweep(pending, bar).entries == pending && Sweep(pending, bar).done == []
    decreases |pending|
  {
    var first := pending[0];
    if !Refuses(first, bar) {
      RefusalChangesNothing(pending[1..], bar);
      var j := SomeoneRefuses(pending, bar);
      assert Leads(first, pending[j]);
      assert bar.timestamp <= first.candidate.createdAt;
      assert [first] + pending[1..] == pending;
      hide Resolved, Measure;
    }
  }

  /** A bar is refused exactly when it is late enough for some pending entry but not later than the last bar of that
      entry. */
  lemma {:induction false} RefusedExactly(pending: seq<Pending>, bar: Bar)
    ensures Sweep(pending, bar).refused <==>
              exists p <- pending :: p.bars != [] && p.candidate.createdAt < bar.timestamp <= p.bars[|p.bars| - 1].timestamp
    decreases |pending|
  {
    hide Resolved, Measure;
    if pending != [] {
      RefusedExactly(pending[1..], bar);
      assert pending == [pending[0]] + pending[1..];
    }
  }

  lemma {:induction false} SweepExtends(pending: seq<Pending>, bar: Bar)
    requires !Sweep(pending, bar).refused
    ensures var entries := Sweep(pending, bar).entries;
      |entries| == |pending| && forall i :: 0 <= i < |pending| ==> entries[i] == Extend(pending[i], bar) && !Refuses(pending[i], bar)
  {
    hide Extend, Refuses, Outcomes;
    if pending != [] {
      SweepExtends(pending[1..], bar);
    }
  }

  lemma {:induction false} OpenStaysRanked(pending: seq<Pending>)
    requires Ranked(pending)
    ensures Ranked(StillOpen(pending))
    decreases |pending|
  {
    hide Resolved, Leads;
    if pending != [] {
      OpenStaysRanked(pending[1..]);
      var rest := StillOpen(pending[1..]);
      forall q <- rest
        ensures Leads(pending[0], q)
      {
        assert q in pending[1..];
      }
    }
  }

  lemma FeedKeepsRanked(pending: seq<Pending>, bar: Bar)
    requires Ranked(pending) && !Sweep(pending, bar).refused
    ensures Ranked(StillOpen(Sweep(pending, bar).entries))
  {
    hide StillOpen, Sweep;
    SweepExtends(pending, bar);
    var entries := Sweep(pending, bar).entries;
    forall i, j | 0 <= i < j < |entries|
      ensures Leads(entries[i], entries[j])
    {
      assert Leads(pending[i], pending[j]);
    }
    OpenStaysRanked(entries);
  }

  // ----- the sweep, one entry at a time -----

  /** A sweep that has already dealt with some entries. */
  function Prefixed(grown: seq<Pending>, done: seq<Evaluation>, rest: Swept): Swept {
    Swept(grown + rest.entries, done + rest.done, rest.refused)
  }

  lemma NothingSwept(rest: Swept)
    ensures Prefixed([], [], rest) == rest
  {
    assert [] + rest.entries == rest.entries && [] + rest.done == rest.done;
  }

  lemma SweepOfNone(bar: Bar)
    ensures Sweep([], bar) == Swept([], [], false)
  {
  }

  lemma SweepByFirst(before: seq<Pending>, i: nat, bar: Bar)
    requires i < |before|
    ensures Sweep(before[i..], bar) ==
              if Refuses(before[i], bar) then Swept(before[i..], [], true)
              else Prefixed([Extend(before[i], bar)], Outcomes(before[i], bar), Sweep(before[i + 1..], bar))
  {
    hide Refuses, Extend, Outcomes;
    assert before[i..][0] == before[i] && before[i..][1..] == before[i + 1..];
  }

  lemma EntriesInTurn(grown: seq<Pending>, before: seq<Pending>, i: nat, next: Pending)
    requires |grown| == i < |before|
    ensures (grown + before[i..])[i := next] == (grown + [next]) + before[i + 1..]
  {
  }

  lemma SweptInTurn(grown: seq<Pending>, done: seq<Evaluation>, next: Pending, found: seq<Evaluation>, rest: Swept)
    ensures Prefixed(grown, done, Prefixed([next], found, rest)) == Prefixed(grown + [next], done + found, rest)
  {
    assert grown + ([next] + rest.entries) == (grown + [next]) + rest.entries;
    assert done + (found + rest.done) == (done + found) + rest.done;
  }

  class CandidateOutcomeTracker {
    var pending: seq<Pending>
    var evaluations: seq<Evaluation>

    constructor ()
      ensures pending == [] && evaluations == [] && Valid()
    {
      pending, evaluations := [], [];
    }

    ghost predicate Valid()
      reads this
    {
      Ranked(pending) && forall p <- pending :: Sound(p)
    }

    function Value(): State
      reads this
    {
      State(pending, evaluations)
    }

    method Register(c: Candidate) returns (r: Option<TrackerError>)
      requires Valid()
      modifies this
      ensures Valid()
      ensures match RegisterIn(old(Value()), c)
              case Err(e) => r == Some(e) && Value() == old(Value())
              case Ok(next) => r == None && Value() == next
    {
      if IsPending(Value(), c.id) || IsEvaluated(Value(), c.id) {
        return Some(AlreadyRegistered);
      }
      pending := pending + [Pending(c, [])];
      r := None;
    }

    /** Adds the bar to one entry that accepts it, if it is late enough, and evaluates the entry afresh. */
    method Offer(entry: Pending, bar: Bar) returns (next: Pending, found: seq<Evaluation>)
      requires Sound(entry) && !Refuses(entry, bar)
      ensures next == Extend(entry, bar) && (Resolved(next) || Sound(next))
      ensures found == Outcomes(entry, bar)
    {
      if bar.timestamp <= entry.candidate.createdAt {
        UnresolvedIffNoTerminal(entry.candidate, entry.bars);
        return entry, [];
      }
      next := entry.(bars := entry.bars + [bar]);
      ExtendedIsOrdered(entry, bar);
      UnresolvedIffNoTerminal(next.candidate, next.bars);
      var evaluation := EvaluateCandidate(next.candidate, next.bars, None);
      found := if evaluation.value.outcome.Unresolved? then [] else [evaluation.value];
    }

    /** Offers one completed bar to every pending candidate; a refused bar leaves the tracker as it was. */
    method ProcessBar(bar: Bar) returns (r: Option<TrackerError>)
      requires Valid()
      modifies this
      ensures Value() == Feed(old(Value()), bar).0
      ensures r == if Feed(old(Value()), bar).1 then Some(OutOfOrder) else None
      ensures Valid() && (r.Some? ==> Value() == old(Value()))
    {
      hide Ranked, Sound, Resolved, Refuses, Extend, Outcomes, Sweep, StillOpen;
      var before := pending;
      ghost var grown: seq<Pending>, done: seq<Evaluation> := [], [];
      assert before[0..] == before;
      NothingSwept(Sweep(before, bar));
      for i := 0 to |before|
        invariant |grown| == i && pending == grown + before[i..]
        invariant evaluations == old(evaluations) + done
        invariant forall p <- grown :: Resolved(p) || Sound(p)
        invariant Sweep(before, bar) == Prefixed(grown, done, Sweep(before[i..], bar))
      {
        SweepByFirst(before, i, bar);
        assert pending[i] == before[i];
        if Refuses(pending[i], bar) {
          RefusalChangesNothing(before, bar);
          return Some(OutOfOrder);
        }
        var next, found := Offer(pending[i], bar);
        EntriesInTurn(grown, before, i, next);
        SweptInTurn(grown, done, next, found, Sweep(before[i + 1..], bar));
        pending := pending[i := next];
        evaluations := evaluations + found;
        grown, done := grown + [next], done + found;
      }
      SweepOfNone(bar);
      FeedKeepsRanked(before, bar);
      pending := StillOpen(pending);
      r := None;
    }

    /** Evaluates everything still pending on the bars it has seen. */
    method Finalize() returns (all: seq<Evaluation>)
      requires Valid()
      modifies this
      ensures Value() == FinalizeIn(old(Value())) && all == evaluations
    {
      hide Measure, Chronological, FirstTerminal;
      var before := pending;
      for i := 0 to |before|
        invariant pending == before[i..] && Valid()
        invariant evaluations == old(evaluations) + MeasureAll(before[..i])
      {
        var entry := before[i];
        assert entry == pending[0] && entry in pending;
        PreparedAsGiven(entry.bars, None, entry.candidate.createdAt, None);
        var evaluation := EvaluateCandidate(entry.candidate, entry.bars, None);
        assert MeasureAll(before[..i + 1]) == MeasureAll(before[..i]) + [evaluation.value];
        evaluations := evaluations + [evaluation.value];
        pending := pending[1..];
      }
      assert before[..|before|] == before;
      all := evaluations;
    }
  }
}

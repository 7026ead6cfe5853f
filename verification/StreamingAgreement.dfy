/** The tracker fed bar by bar finds what one evaluation of all the bars would find, for every candidate
    and every order of registrations and bars. */
module StreamingAgreement {
  import opened Wrappers
  import opened Market
  import opened CandidateEvaluation
  import opened CandidateTracker

  datatype Operation = Registered(candidate: Candidate) | Fed(bar: Bar)

  function Apply(st: State, op: Operation): Result<State, TrackerError> {
    match op
    case Registered(c) => RegisterIn(st, c)
    case Fed(bar) => if Feed(st, bar).1 then Err(OutOfOrder) else Ok(Feed(st, bar).0)
  }

  /** The tracker after a history of operations, or the first exception. */
  function RunOperations(ops: seq<Operation>): Result<State, TrackerError> {
    if ops == [] then Ok(State([], []))
    else
      match RunOperations(ops[..|ops| - 1])
      case Err(e) => Err(e)
      case Ok(st) => Apply(st, ops[|ops| - 1])
  }

  // ----- what the history says about each candidate -----

  function BarsOf(ops: seq<Operation>): seq<Bar> {
    if ops == [] then []
    else (if ops[0].Fed? then [ops[0].bar] else []) + BarsOf(ops[1..])
  }

  /** Every registered candidate with the bars fed since its registration that are later than its creation. */
  function Log(ops: seq<Operation>): seq<Pending> {
    if ops == [] then []
    else
      (match ops[0]
       case Fed(_) => []
       case Registered(c) => [Pending(c, After(c.createdAt, BarsOf(ops[1..])))])
      + Log(ops[1..])
  }

  /** The evaluation a candidate deserves: of its bars up to the first that touches a level. */
  function Deserved(p: Pending): Evaluation {
    Measure(p.candidate, LivedThrough(p.candidate, p.bars))
  }

  function DeservedBy(log: seq<Pending>): seq<Evaluation> {
    seq(|log|, i requires 0 <= i < |log| => Deserved(log[i]))
  }

  function Settled(log: seq<Pending>): seq<Evaluation> {
    if log == [] then []
    else (if Resolved(log[0]) then [Deserved(log[0])] else []) + Settled(log[1..])
  }

  function ExtendAll(log: seq<Pending>, bar: Bar): seq<Pending> {
    if log == [] then [] else [Extend(log[0], bar)] + ExtendAll(log[1..], bar)
  }

  // ----- the log of a longer history -----

  lemma {:induction false} BarsOfMore(ops: seq<Operation>, op: Operation)
    ensures BarsOf(ops + [op]) == BarsOf(ops) + if op.Fed? then [op.bar] else []
  {
    if ops == [] {
      assert (ops + [op])[1..] == [] && BarsOf([]) == [];
    } else {
      assert (ops + [op])[0] == ops[0] && (ops + [op])[1..] == ops[1..] + [op];
      BarsOfMore(ops[1..], op);
    }
  }

  lemma {:induction false} LogOfMore(ops: seq<Operation>, op: Operation)
    ensures Log(ops + [op]) == if op.Fed? then ExtendAll(Log(ops), op.bar) else Log(ops) + [Pending(op.candidate, [])]
  {
    if ops == [] {
      assert Log([]) == [] && BarsOf([]) == [];
    } else {
      assert (ops + [op])[1..] == ops[1..] + [op];
      LogOfMore(ops[1..], op);
      if ops[0].Registered? {
        BarsOfMore(ops[1..], op);
        var c := ops[0].candidate;
        if op.Fed? {
          AfterMore(c.createdAt, BarsOf(ops[1..]), op.bar);
          var head := Pending(c, After(c.createdAt, BarsOf(ops[1..])));
          assert Log(ops) == [head] + Log(ops[1..]);
          assert Log(ops)[0] == head && Log(ops)[1..] == Log(ops[1..]);
          assert Extend(head, op.bar) == Pending(c, After(c.createdAt, BarsOf(ops[1..]) + [op.bar])) by {
            assert head.bars + [] == head.bars;
          }
        } else {
          assert BarsOf(ops[1..]) + [] == BarsOf(ops[1..]);
        }
      } else {
        assert Log(ops) == Log(ops[1..]);
      }
    }
  }

  // ----- one bar -----

  lemma LivedThroughMore(c: Candidate, bars: seq<Bar>, bar: Bar)
    ensures FirstTerminal(c, bars) < |bars| ==>
              FirstTerminal(c, bars + [bar]) == FirstTerminal(c, bars) && LivedThrough(c, bars + [bar]) == LivedThrough(c, bars)
    ensures FirstTerminal(c, bars) == |bars| ==>
              FirstTerminal(c, bars + [bar]) >= |bars| && LivedThrough(c, bars + [bar]) == bars + [bar]
  {
    var n, m := FirstTerminal(c, bars), FirstTerminal(c, bars + [bar]);
    assert forall j :: 0 <= j < |bars| ==> (bars + [bar])[j] == bars[j];
  }

  /** One bar on one entry: a settled one stays as it is, an open one is settled exactly by its first touching bar. */
  lemma ExtendOne(p: Pending, bar: Bar)
    ensures Resolved(p) ==> Resolved(Extend(p, bar)) && Deserved(Extend(p, bar)) == Deserved(p)
    ensures !Resolved(p) ==> Outcomes(p, bar) == if Resolved(Extend(p, bar)) then [Deserved(Extend(p, bar))] else []
  {
    UnresolvedIffNoTerminal(p.candidate, p.bars);
    UnresolvedIffNoTerminal(p.candidate, p.bars + [bar]);
    LivedThroughMore(p.candidate, p.bars, bar);
    assert p == Pending(p.candidate, p.bars);
  }

  lemma SettledFirst(log: seq<Pending>)
    requires log != []
    ensures Settled(log) == (if Resolved(log[0]) then [Deserved(log[0])] else []) + Settled(log[1..])
  {
    hide Resolved, Deserved;
  }

  lemma OpenFirst(log: seq<Pending>)
    requires log != []
    ensures StillOpen(log) == if Resolved(log[0]) then StillOpen(log[1..]) else [log[0]] + StillOpen(log[1..])
  {
    hide Resolved;
  }

  lemma ExtendFirst(log: seq<Pending>, bar: Bar)
    requires log != []
    ensures var more := ExtendAll(log, bar);
      more != [] && more[0] == Extend(log[0], bar) && more[1..] == ExtendAll(log[1..], bar)
  {
    hide Extend;
  }

  lemma SweepFirst(p: Pending, rest: seq<Pending>, bar: Bar)
    requires !Sweep([p] + rest, bar).refused
    ensures !Sweep(rest, bar).refused
    ensures Sweep([p] + rest, bar).entries == [Extend(p, bar)] + Sweep(rest, bar).entries
    ensures Sweep([p] + rest, bar).done == Outcomes(p, bar) + Sweep(rest, bar).done
  {
    hide Refuses, Extend, Outcomes;
    assert ([p] + rest)[0] == p && ([p] + rest)[1..] == rest;
  }

  lemma {:induction false} OpenFollowsLog(log: seq<Pending>, bar: Bar)
    requires !Sweep(StillOpen(log), bar).refused
    ensures StillOpen(Sweep(StillOpen(log), bar).entries) == StillOpen(ExtendAll(log, bar))
  {
    if log == [] {
      assert StillOpen([]) == [];
    } else {
      hide StillOpen, Sweep, ExtendAll, Resolved, Deserved, Extend, Outcomes;
      ExtendOne(log[0], bar);
      ExtendFirst(log, bar);
      OpenFirst(log);
      OpenFirst(ExtendAll(log, bar));
      if !Resolved(log[0]) {
        SweepFirst(log[0], StillOpen(log[1..]), bar);
        var entries := Sweep(StillOpen(log), bar).entries;
        OpenFirst(entries);
        assert entries[0] == Extend(log[0], bar) && entries[1..] == Sweep(StillOpen(log[1..]), bar).entries;
      }
      OpenFollowsLog(log[1..], bar);
    }
  }

  lemma {:induction false} SettledFollowsLog(log: seq<Pending>, bar: Bar)
    requires !Sweep(StillOpen(log), bar).refused
    ensures multiset(Settled(ExtendAll(log, bar))) == multiset(Settled(log)) + multiset(Sweep(StillOpen(log), bar).done)
  {
    if log == [] {
      assert StillOpen([]) == [] && Settled([]) == [];
    } else {
      hide Settled, StillOpen, Sweep, ExtendAll, Resolved, Deserved, Extend, Outcomes;
      ExtendOne(log[0], bar);
      ExtendFirst(log, bar);
      OpenFirst(log);
      SettledFirst(log);
      SettledFirst(ExtendAll(log, bar));
      if !Resolved(log[0]) {
        SweepFirst(log[0], StillOpen(log[1..]), bar);
      }
      SettledFollowsLog(log[1..], bar);
    }
  }

  // ----- one registration -----

  lemma NothingLogged()
    ensures StillOpen([]) == [] && Settled([]) == []
  {
  }

  lemma {:induction false} OpenOfMore(log: seq<Pending>, p: Pending)
    ensures StillOpen(log + [p]) == StillOpen(log) + if Resolved(p) then [] else [p]
  {
    hide Resolved, StillOpen, Settled;
    var more := log + [p];
    OpenFirst(more);
    if log == [] {
      NothingLogged();
      assert more[1..] == [];
    } else {
      assert more[0] == log[0] && more[1..] == log[1..] + [p];
      OpenFirst(log);
      OpenOfMore(log[1..], p);
    }
  }

  lemma {:induction false} SettledOfMore(log: seq<Pending>, p: Pending)
    ensures Settled(log + [p]) == Settled(log) + if Resolved(p) then [Deserved(p)] else []
  {
    hide Resolved, Deserved, StillOpen, Settled;
    var more := log + [p];
    SettledFirst(more);
    if log == [] {
      NothingLogged();
      assert more[1..] == [];
    } else {
      assert more[0] == log[0] && more[1..] == log[1..] + [p];
      SettledFirst(log);
      SettledOfMore(log[1..], p);
    }
  }

  /** A logged candidate is either still open or settled. */
  lemma {:induction false} LoggedSomewhere(log: seq<Pending>, i: nat)
    requires i < |log|
    ensures Deserved(log[i]).id == log[i].candidate.id
    ensures if Resolved(log[i]) then Deserved(log[i]) in Settled(log) else log[i] in StillOpen(log)
  {
    hide Resolved;
    if i > 0 {
      LoggedSomewhere(log[1..], i - 1);
    }
  }

  predicate DistinctIds(log: seq<Pending>) {
    forall i, j :: 0 <= i < j < |log| ==> log[i].candidate.id != log[j].candidate.id
  }

  // ----- the invariant over every history -----

  /** The tracker holds exactly the open candidates, in order, and exactly the deserved evaluations of the others. */
  ghost predicate Tracks(st: State, log: seq<Pending>) {
    && st.pending == StillOpen(log)
    && multiset(st.evaluations) == multiset(Settled(log))
    && DistinctIds(log)
  }

  lemma RegisterKeepsTracks(st: State, log: seq<Pending>, c: Candidate)
    requires Tracks(st, log) && RegisterIn(st, c).Ok?
    ensures Tracks(RegisterIn(st, c).value, log + [Pending(c, [])])
  {
    hide StillOpen, Settled, Deserved, Resolved;
    var p := Pending(c, []);
    NewIsUnresolved(c);
    OpenOfMore(log, p);
    SettledOfMore(log, p);
    assert Settled(log) + [] == Settled(log);
    forall i | 0 <= i < |log|
      ensures log[i].candidate.id != c.id
    {
      LoggedSomewhere(log, i);
      if Resolved(log[i]) {
        assert Deserved(log[i]) in multiset(st.evaluations);
      }
    }
  }

  lemma NewIsUnresolved(c: Candidate)
    ensures !Resolved(Pending(c, []))
  {
    UnresolvedIffNoTerminal(c, []);
  }

  lemma {:induction false} ExtendAllKeepsIds(log: seq<Pending>, bar: Bar)
    ensures |ExtendAll(log, bar)| == |log|
    ensures forall i :: 0 <= i < |log| ==> ExtendAll(log, bar)[i].candidate == log[i].candidate
  {
    if log != [] {
      ExtendAllKeepsIds(log[1..], bar);
    }
  }

  lemma FeedKeepsTracks(st: State, log: seq<Pending>, bar: Bar)
    requires Tracks(st, log) && !Feed(st, bar).1
    ensures Tracks(Feed(st, bar).0, ExtendAll(log, bar))
  {
    hide Sweep, StillOpen, Settled, ExtendAll, Resolved;
    OpenFollowsLog(log, bar);
    SettledFollowsLog(log, bar);
    ExtendAllKeepsIds(log, bar);
  }

  lemma {:induction false} EveryHistoryIsTracked(ops: seq<Operation>)
    requires RunOperations(ops).Ok?
    ensures Tracks(RunOperations(ops).value, Log(ops))
    decreases |ops|
  {
    hide Tracks, ExtendAll, RegisterIn, Feed;
    if ops == [] {
      EmptyIsTracked();
    } else {
      var front, op := ops[..|ops| - 1], ops[|ops| - 1];
      EveryHistoryIsTracked(front);
      assert front + [op] == ops;
      LogOfMore(front, op);
      var st := RunOperations(front).value;
      match op
      case Registered(c) => RegisterKeepsTracks(st, Log(front), c);
      case Fed(bar) => FeedKeepsTracks(st, Log(front), bar);
    }
  }

  lemma EmptyIsTracked()
    ensures Tracks(State([], []), Log([]))
  {
    assert Log([]) == [] && StillOpen([]) == [] && Settled([]) == [];
  }

  // ----- the theorems -----

  lemma {:induction false} FinalFollowsLog(log: seq<Pending>)
    ensures multiset(Settled(log)) + multiset(MeasureAll(StillOpen(log))) == multiset(DeservedBy(log))
  {
    hide Resolved, Deserved, Measure, MeasureAll, DeservedBy;
    if log == [] {
      assert DeservedBy([]) == [] && MeasureAll([]) == [] by { NothingToMeasure(); }
    } else {
      var p, rest := log[0], log[1..];
      FinalFollowsLog(rest);
      DeservedByFirst(log);
      if Resolved(p) {
        assert StillOpen(log) == StillOpen(rest);
        assert Settled(log) == [Deserved(p)] + Settled(rest);
      } else {
        OpenDeservesAll(p);
        assert Settled(log) == Settled(rest);
        MeasureAllFirst(p, StillOpen(rest));
        assert MeasureAll(StillOpen(log)) == [Deserved(p)] + MeasureAll(StillOpen(rest));
      }
    }
  }

  lemma NothingToMeasure()
    ensures DeservedBy([]) == [] && MeasureAll([]) == []
  {
  }

  lemma DeservedByFirst(log: seq<Pending>)
    requires log != []
    ensures DeservedBy(log) == [Deserved(log[0])] + DeservedBy(log[1..])
  {
    hide Deserved;
  }

  lemma MeasureAllFirst(p: Pending, rest: seq<Pending>)
    ensures MeasureAll([p] + rest) == [Measure(p.candidate, p.bars)] + MeasureAll(rest)
  {
    hide Measure;
  }

  lemma OpenDeservesAll(p: Pending)
    requires !Resolved(p)
    ensures Deserved(p) == Measure(p.candidate, p.bars)
  {
    UnresolvedIffNoTerminal(p.candidate, p.bars);
    assert p == Pending(p.candidate, p.bars);
  }

  /** After finalisation each registered candidate has its deserved evaluation, once, and nothing else is there. */
  lemma NoCandidateIsLost(ops: seq<Operation>)
    requires RunOperations(ops).Ok?
    ensures multiset(FinalizeIn(RunOperations(ops).value).evaluations) == multiset(DeservedBy(Log(ops)))
    ensures DistinctIds(Log(ops))
  {
    EveryHistoryIsTracked(ops);
    FinalFollowsLog(Log(ops));
  }

  /** An entry with the id of a logged candidate is that candidate. */
  lemma OnlyLogged(st: State, log: seq<Pending>, i: nat)
    requires Tracks(st, log) && i < |log|
    ensures IsPending(st, log[i].candidate.id) ==> !Resolved(log[i])
    ensures IsEvaluated(st, log[i].candidate.id) ==> Resolved(log[i])
  {
    hide Resolved, StillOpen, Settled;
    forall k | 0 <= k < |st.pending| && st.pending[k].candidate.id == log[i].candidate.id
      ensures !Resolved(log[i])
    {
      var j := OpenIsLogged(log, st.pending[k]);
    }
    forall k | 0 <= k < |st.evaluations| && st.evaluations[k].id == log[i].candidate.id
      ensures Resolved(log[i])
    {
      assert st.evaluations[k] in multiset(Settled(log));
      var j := SettledIsLogged(log, st.evaluations[k]);
    }
  }

  /** At every moment a registered candidate is in exactly one of the two collections. */
  lemma PendingOrEvaluated(ops: seq<Operation>, i: nat)
    requires RunOperations(ops).Ok? && i < |Log(ops)|
    ensures var st := RunOperations(ops).value;
      var id := Log(ops)[i].candidate.id;
      && (IsPending(st, id) <==> !Resolved(Log(ops)[i]))
      && (IsEvaluated(st, id) <==> Resolved(Log(ops)[i]))
  {
    hide Resolved, Deserved, RunOperations, Log, StillOpen, Settled, DistinctIds, Apply;
    var st, log := RunOperations(ops).value, Log(ops);
    EveryHistoryIsTracked(ops);
    LoggedSomewhere(log, i);
    OnlyLogged(st, log, i);
    if Resolved(log[i]) {
      assert Deserved(log[i]) in multiset(st.evaluations);
    }
  }

  lemma {:induction false} OpenIsLogged(log: seq<Pending>, p: Pending) returns (j: nat)
    requires p in StillOpen(log)
    ensures j < |log| && log[j] == p && !Resolved(p)
  {
    hide Resolved;
    if !Resolved(log[0]) && p == log[0] {
      j := 0;
    } else {
      j := OpenIsLogged(log[1..], p);
      j := j + 1;
    }
  }

  lemma {:induction false} SettledIsLogged(log: seq<Pending>, e: Evaluation) returns (j: nat)
    requires e in Settled(log)
    ensures j < |log| && Resolved(log[j]) && e.id == log[j].candidate.id
  {
    hide Resolved, Scan, LivedThrough;
    if Resolved(log[0]) && e == Deserved(log[0]) {
      j := 0;
    } else {
      j := SettledIsLogged(log[1..], e);
      j := j + 1;
    }
  }

  // ----- which histories succeed -----

  function Registrations(ops: seq<Operation>): seq<nat> {
    if ops == [] then []
    else (if ops[0].Registered? then [ops[0].candidate.id] else []) + Registrations(ops[1..])
  }

  /** No id is registered twice. */
  predicate NewIds(ops: seq<Operation>) {
    var ids := Registrations(ops);
    forall i, j :: 0 <= i < j < |ids| ==> ids[i] != ids[j]
  }

  lemma {:induction false} RegistrationsOfMore(ops: seq<Operation>, op: Operation)
    ensures Registrations(ops + [op]) == Registrations(ops) + if op.Registered? then [op.candidate.id] else []
  {
    if ops == [] {
      assert (ops + [op])[1..] == [] && Registrations([]) == [];
    } else {
      assert (ops + [op])[0] == ops[0] && (ops + [op])[1..] == ops[1..] + [op];
      RegistrationsOfMore(ops[1..], op);
    }
  }

  lemma {:induction false} LogHoldsRegistrations(ops: seq<Operation>)
    ensures |Log(ops)| == |Registrations(ops)|
    ensures forall i :: 0 <= i < |Log(ops)| ==> Log(ops)[i].candidate.id == Registrations(ops)[i]
  {
    if ops != [] {
      LogHoldsRegistrations(ops[1..]);
    }
  }

  lemma {:induction false} LoggedBarsWereFed(ops: seq<Operation>, p: Pending)
    requires p in Log(ops)
    ensures forall b <- p.bars :: b in BarsOf(ops)
  {
    var head := if ops[0].Registered? then [Pending(ops[0].candidate, After(ops[0].candidate.createdAt, BarsOf(ops[1..])))] else [];
    assert Log(ops) == head + Log(ops[1..]);
    if p in head {
      AfterSelects(p.candidate.createdAt, BarsOf(ops[1..]));
    } else {
      LoggedBarsWereFed(ops[1..], p);
    }
  }

  /** A tracked id has been registered. */
  lemma KnownWasLogged(st: State, log: seq<Pending>, id: nat) returns (j: nat)
    requires Tracks(st, log) && (IsPending(st, id) || IsEvaluated(st, id))
    ensures j < |log| && log[j].candidate.id == id
  {
    hide Resolved, StillOpen, Settled;
    if IsPending(st, id) {
      var k :| 0 <= k < |st.pending| && st.pending[k].candidate.id == id;
      j := OpenIsLogged(log, st.pending[k]);
    } else {
      var k :| 0 <= k < |st.evaluations| && st.evaluations[k].id == id;
      assert st.evaluations[k] in multiset(Settled(log));
      j := SettledIsLogged(log, st.evaluations[k]);
    }
  }

  lemma LoggedAccepts(ops: seq<Operation>, p: Pending, bar: Bar)
    requires p in Log(ops) && Chronological(BarsOf(ops) + [bar])
    ensures !Refuses(p, bar)
  {
    hide Log, BarsOf;
    LoggedBarsWereFed(ops, p);
    if p.bars != [] {
      var last := p.bars[|p.bars| - 1];
      assert last in p.bars && last in BarsOf(ops);
      var i :| 0 <= i < |BarsOf(ops)| && BarsOf(ops)[i] == last;
      assert (BarsOf(ops) + [bar])[i] == last && (BarsOf(ops) + [bar])[|BarsOf(ops)|] == bar;
    }
  }

  lemma NextBarIsTaken(st: State, ops: seq<Operation>, bar: Bar)
    requires Tracks(st, Log(ops)) && Chronological(BarsOf(ops) + [bar])
    ensures !Feed(st, bar).1
  {
    hide StillOpen, Sweep, Log, BarsOf, Chronological, Refuses, Resolved;
    forall p <- st.pending
      ensures !Refuses(p, bar)
    {
      var k := OpenIsLogged(Log(ops), p);
      LoggedAccepts(ops, p, bar);
    }
    if Sweep(st.pending, bar).refused {
      var j := SomeoneRefuses(st.pending, bar);
    }
  }

  lemma NewIdIsTaken(st: State, ops: seq<Operation>, c: Candidate)
    requires Tracks(st, Log(ops)) && c.id !in Registrations(ops)
    ensures RegisterIn(st, c).Ok?
  {
    hide Tracks, Log, Registrations;
    if IsPending(st, c.id) || IsEvaluated(st, c.id) {
      var j := KnownWasLogged(st, Log(ops), c.id);
      LogHoldsRegistrations(ops);
    }
  }

  /** With bars in order a history is accepted exactly when no id is registered twice. */
  lemma {:induction false} OrderedHistoriesAreAccepted(ops: seq<Operation>)
    requires Chronological(BarsOf(ops))
    ensures RunOperations(ops).Ok? <==> NewIds(ops)
    decreases |ops|
  {
    hide Tracks, RegisterIn, Feed, Log, BarsOf, Registrations;
    if RunOperations(ops).Ok? {
      EveryHistoryIsTracked(ops);
      TrackedIdsAreNew(RunOperations(ops).value, ops);
    }
    if NewIds(ops) {
      if ops != [] {
        var front, op := ops[..|ops| - 1], ops[|ops| - 1];
        assert front + [op] == ops;
        BarsOfMore(front, op);
        RegistrationsOfMore(front, op);
        FrontIsOrdered(BarsOf(front), BarsOf(ops));
        NewIdsOfFront(front, op);
        OrderedHistoriesAreAccepted(front);
        EveryHistoryIsTracked(front);
        match op
        case Registered(c) => NewIdIsTaken(RunOperations(front).value, front, c);
        case Fed(bar) => NextBarIsTaken(RunOperations(front).value, front, bar);
      }
    }
  }

  lemma FrontIsOrdered(front: seq<Bar>, bars: seq<Bar>)
    requires front <= bars && Chronological(bars)
    ensures Chronological(front)
  {
  }

  lemma NewIdsOfFront(front: seq<Operation>, op: Operation)
    requires NewIds(front + [op])
    ensures NewIds(front) && (op.Registered? ==> op.candidate.id !in Registrations(front))
  {
    hide Registrations;
    RegistrationsOfMore(front, op);
    var ids, more := Registrations(front), Registrations(front + [op]);
    assert forall i :: 0 <= i < |ids| ==> more[i] == ids[i];
    if op.Registered? {
      assert more[|ids|] == op.candidate.id;
      forall i | 0 <= i < |ids|
        ensures ids[i] != op.candidate.id
      {
        assert more[i] != more[|ids|];
      }
    }
  }

  lemma TrackedIdsAreNew(st: State, ops: seq<Operation>)
    requires Tracks(st, Log(ops))
    ensures NewIds(ops)
  {
    hide StillOpen, Settled, Log, Registrations;
    LogHoldsRegistrations(ops);
  }

  // ----- histories with refused operations -----

  /** The tracker after one operation, which may have raised. */
  function Step(st: State, op: Operation): State {
    match op
    case Registered(c) => if RegisterIn(st, c).Ok? then RegisterIn(st, c).value else st
    case Fed(bar) => Feed(st, bar).0
  }

  function RunThrough(ops: seq<Operation>): State {
    if ops == [] then State([], []) else Step(RunThrough(ops[..|ops| - 1]), ops[|ops| - 1])
  }

  /** The operations that did not raise. */
  function Accepted(ops: seq<Operation>): seq<Operation> {
    if ops == [] then []
    else
      var front, op := ops[..|ops| - 1], ops[|ops| - 1];
      Accepted(front) + if Apply(RunThrough(front), op).Ok? then [op] else []
  }

  lemma StepKeepsRanked(st: State, op: Operation)
    requires Ranked(st.pending)
    ensures Ranked(Step(st, op).pending)
    ensures Step(st, op) == if Apply(st, op).Ok? then Apply(st, op).value else st
  {
    hide Sweep, StillOpen;
    if op.Fed? {
      if Sweep(st.pending, op.bar).refused {
        RefusalChangesNothing(st.pending, op.bar);
        assert st.evaluations + [] == st.evaluations;
      } else {
        FeedKeepsRanked(st.pending, op.bar);
      }
    }
  }

  /** An operation that raises changes nothing: after any history, whatever was refused in it, the tracker is as
      after the accepted operations alone. */
  lemma {:induction false} RefusedOperationsChangeNothing(ops: seq<Operation>)
    ensures RunOperations(Accepted(ops)) == Ok(RunThrough(ops)) && Ranked(RunThrough(ops).pending)
    decreases |ops|
  {
    hide Step, Apply, Ranked;
    if ops == [] {
      assert Ranked([]) by { NothingIsRanked(); }
    } else {
      var front, op := ops[..|ops| - 1], ops[|ops| - 1];
      RefusedOperationsChangeNothing(front);
      StepKeepsRanked(RunThrough(front), op);
      var accepted := Accepted(front);
      if Apply(RunThrough(front), op).Ok? {
        assert (accepted + [op])[..|accepted + [op]| - 1] == accepted;
      } else {
        assert accepted + [] == accepted;
      }
    }
  }

  lemma NothingIsRanked()
    ensures Ranked([])
  {
  }

  // ----- agreement with the one-shot evaluator -----

  /** What the streamed evaluation `e` shares with the evaluation `o` of all the bars. */
  predicate Agrees(c: Candidate, relevant: seq<Bar>, e: Evaluation, o: Evaluation) {
    && (e.id, e.createdAt, e.outcome, e.outcomeAt, e.highestTarget) == (o.id, o.createdAt, o.outcome, o.outcomeAt, o.highestTarget)
    && (e.mfe, e.mae, e.mfeR, e.maeR) == (o.mfe, o.mae, o.mfeR, o.maeR)
    && o.barsEvaluated == |relevant|
    && if e.outcome.Unresolved? then e == o
       else e.barsEvaluated == FirstTerminal(c, relevant) + 1 && Some(e.evaluatedThrough) == e.outcomeAt
  }

  lemma {:induction false} OneShotPrepares(bars: seq<Bar>, previous: Option<int>, createdAt: int)
    requires Chronological(bars) && (previous.Some? && bars != [] ==> previous.value < bars[0].timestamp)
    ensures PrepareFrom(bars, previous, createdAt, None) == Ok(After(createdAt, bars))
    decreases |bars|
  {
    if bars != [] {
      OneShotPrepares(bars[1..], Some(bars[0].timestamp), createdAt);
      assert [] + After(createdAt, bars[1..]) == After(createdAt, bars[1..]);
    }
  }

  lemma DeservedAgrees(c: Candidate, bars: seq<Bar>)
    requires Chronological(bars)
    ensures Evaluate(c, bars, None).Ok?
    ensures Agrees(c, After(c.createdAt, bars), Deserved(Pending(c, After(c.createdAt, bars))), Evaluate(c, bars, None).value)
  {
    var relevant := After(c.createdAt, bars);
    hide Scan, IsLargest, PrepareFrom, After, Chronological;
    OneShotPrepares(bars, None, c.createdAt);
    ScanStops(c, Nothing(), relevant);
    MeasureByScan(c, relevant);
  }

  lemma {:induction false} RegistrationIsLogged(ops: seq<Operation>, k: nat) returns (i: nat)
    requires k < |ops| && ops[k].Registered?
    ensures var c := ops[k].candidate;
      i < |Log(ops)| && Log(ops)[i] == Pending(c, After(c.createdAt, BarsOf(ops[k + 1..])))
  {
    if k == 0 {
      i := 0;
    } else {
      var j := RegistrationIsLogged(ops[1..], k - 1);
      assert ops[1..][k..] == ops[k + 1..];
      i := if ops[0].Registered? then j + 1 else j;
    }
  }

  /** For a candidate registered at any point of a history, the finalised tracker holds an evaluation that
      agrees with a single evaluation of all the bars fed since. */
  lemma StreamingAgreesWithOneShot(ops: seq<Operation>, k: nat)
    requires RunOperations(ops).Ok? && k < |ops| && ops[k].Registered?
    requires Chronological(BarsOf(ops[k + 1..]))
    ensures var c, bars := ops[k].candidate, BarsOf(ops[k + 1..]);
      && Evaluate(c, bars, None).Ok?
      && exists e <- FinalizeIn(RunOperations(ops).value).evaluations ::
           Agrees(c, After(c.createdAt, bars), e, Evaluate(c, bars, None).value)
  {
    var c, bars := ops[k].candidate, BarsOf(ops[k + 1..]);
    var i := RegistrationIsLogged(ops, k);
    DeservedAgrees(c, bars);
    NoCandidateIsLost(ops);
    var e := Deserved(Log(ops)[i]);
    assert DeservedBy(Log(ops))[i] == e;
    assert e in multiset(DeservedBy(Log(ops)));
    assert e in FinalizeIn(RunOperations(ops).value).evaluations;
    hide Agrees, RunOperations, Log, Deserved;
  }

  /** In particular whenever the bars are in order and no id is registered twice. */
  lemma OrderedHistoriesAgree(ops: seq<Operation>, k: nat)
    requires Chronological(BarsOf(ops)) && NewIds(ops) && k < |ops| && ops[k].Registered?
    ensures var c, bars := ops[k].candidate, BarsOf(ops[k + 1..]);
      && RunOperations(ops).Ok? && Evaluate(c, bars, None).Ok?
      && exists e <- FinalizeIn(RunOperations(ops).value).evaluations ::
           Agrees(c, After(c.createdAt, bars), e, Evaluate(c, bars, None).value)
  {
    hide Agrees, RunOperations, NewIds, Evaluate;
    OrderedHistoriesAreAccepted(ops);
    LaterBarsAreOrdered(ops, k + 1);
    StreamingAgreesWithOneShot(ops, k);
  }

  lemma {:induction false} LaterBarsAreOrdered(ops: seq<Operation>, k: nat)
    requires k <= |ops| && Chronological(BarsOf(ops))
    ensures Chronological(BarsOf(ops[k..]))
    decreases k
  {
    if k == 0 {
      assert ops[0..] == ops;
    } else {
      assert ops[1..][k - 1..] == ops[k..];
      var head := if ops[0].Fed? then [ops[0].bar] else [];
      assert BarsOf(ops) == head + BarsOf(ops[1..]);
      assert forall i :: 0 <= i < |BarsOf(ops[1..])| ==> BarsOf(ops[1..])[i] == BarsOf(ops)[|head| + i];
      LaterBarsAreOrdered(ops[1..], k - 1);
    }
  }
}

/** Rules that confirm a candidate after a wait, a quiet period or a streak, and what they may know. */
module ConfirmationRules {
  import opened Sequences
  import opened CandidateSelection

  /** A selected observation, re-timed to its confirmation, and how long it had to wait. */
  datatype Confirmed = Confirmed(observation: Observed, delay: int)

  function Shifted(c: seq<Observed>, wait: int): (shifted: seq<Confirmed>)
    ensures |shifted| == |c|
  {
    seq(|c|, i requires 0 <= i < |c| => Confirmed(c[i].(timestamp := c[i].timestamp + wait), wait))
  }

  function Delayed(c: seq<Observed>, delay: int): (delayed: seq<Confirmed>)
    ensures |delayed| == |c|
  {
    seq(|c|, i requires 0 <= i < |c| => Confirmed(c[i], delay))
  }

  // ----- streaks of observations exactly five minutes apart -----

  function StreakAt(c: seq<Observed>, i: nat): (length: nat)
    requires i < |c|
    ensures 1 <= length <= i + 1
  {
    if i > 0 && c[i].timestamp - c[i - 1].timestamp == 5 then StreakAt(c, i - 1) + 1 else 1
  }

  /** The streak at `i` covers the `StreakAt` latest candidates and cannot be extended backwards. */
  lemma {:induction false} StreakMeaning(c: seq<Observed>, i: nat)
    requires i < |c|
    ensures var first := i + 1 - StreakAt(c, i);
      && (forall j :: first < j <= i ==> c[j].timestamp - c[j - 1].timestamp == 5)
      && (first > 0 ==> c[first].timestamp - c[first - 1].timestamp != 5)
  {
    if i > 0 && c[i].timestamp - c[i - 1].timestamp == 5 {
      StreakMeaning(c, i - 1);
    }
  }

  function MemberFlags(c: seq<Observed>, r: int): (flags: seq<bool>)
    ensures |flags| == |c| && forall i :: 0 <= i < |c| ==> flags[i] == (StreakAt(c, i) == r)
  {
    seq(|c|, i requires 0 <= i < |c| => StreakAt(c, i) == r)
  }

  /** The `r`-th member of every maximal streak that has one. */
  function MembersOfStreaks(c: seq<Observed>, r: int): seq<Observed> {
    Filter(c, MemberFlags(c, r))
  }

  /** What the persistence loop selects: it never looks at the first candidate as a possible selection. */
  function PersistenceFlags(c: seq<Observed>, r: int): (flags: seq<bool>)
    ensures |flags| == |c|
    ensures forall i :: 0 <= i < |c| ==>
              flags[i] == (i > 0 && if r >= 2 then StreakAt(c, i) == r else StreakAt(c, i) == 1 || i == 1)
  {
    seq(|c|, i requires 0 <= i < |c| => i > 0 && if r >= 2 then StreakAt(c, i) == r else StreakAt(c, i) == 1 || i == 1)
  }

  // ----- the loops -----

  lemma FilterGrows(c: seq<Observed>, flags: seq<bool>, i: nat)
    requires |flags| == |c| && i < |c|
    ensures Filter(c[..i + 1], flags[..i + 1]) == Filter(c[..i], flags[..i]) + if flags[i] then [c[i]] else []
  {
    assert Front(c[..i + 1]) == c[..i] && Front(flags[..i + 1]) == flags[..i];
  }

  lemma EmptyFilter()
    ensures Filter([], []) == []
  {
  }

  /** Confirms a candidate after `wait` minutes unless another one arrives during the wait. */
  method QuietConfirmation(c: seq<Observed>, wait: int) returns (confirmed: seq<Confirmed>)
    ensures confirmed == Shifted(LastInCluster(c, wait), wait) && |confirmed| == |LastInCluster(c, wait)|
    ensures forall i :: 0 <= i < |confirmed| ==>
              && confirmed[i].observation.id == LastInCluster(c, wait)[i].id && confirmed[i].delay == wait
              && confirmed[i].observation.timestamp == LastInCluster(c, wait)[i].timestamp + wait
  {
    hide Filter, LastInCluster, EndFlags;
    confirmed := [];
    LastInClusterIsEnd(c, wait);
    EmptyFilter();
    for i := 0 to |c|
      invariant confirmed == Shifted(Filter(c[..i], EndFlags(c, wait)[..i]), wait)
    {
      ghost var flags := EndFlags(c, wait);
      FilterGrows(c, flags, i);
      ghost var before := Filter(c[..i], flags[..i]);
      var confirmationTime := c[i].timestamp + wait;
      if !(i + 1 < |c| && c[i + 1].timestamp <= confirmationTime) {
        confirmed := confirmed + [Confirmed(c[i].(timestamp := confirmationTime), wait)];
        assert confirmed == Shifted(before + [c[i]], wait);
      } else {
        assert before + [] == before;
      }
    }
    assert c[..|c|] == c && EndFlags(c, wait)[..|c|] == EndFlags(c, wait);
  }

  /** The first candidate, and every one that follows at least `quiet` minutes without any. */
  method FirstAfterQuietPeriod(c: seq<Observed>, quiet: int) returns (selected: seq<Confirmed>)
    ensures selected == Delayed(FirstInCluster(c, quiet - 1), 0) && |selected| == |FirstInCluster(c, quiet - 1)|
    ensures forall i :: 0 <= i < |selected| ==>
              selected[i].observation == FirstInCluster(c, quiet - 1)[i] && selected[i].delay == 0
  {
    hide Filter, FirstInCluster, StartFlags;
    FirstInClusterIsStart(c, quiet - 1);
    EmptyFilter();
    if c == [] {
      return [];
    }
    selected := [Confirmed(c[0], 0)];
    ghost var flags := StartFlags(c, quiet - 1);
    FilterGrows(c, flags, 0);
    for i := 1 to |c|
      invariant selected == Delayed(Filter(c[..i], flags[..i]), 0)
    {
      FilterGrows(c, flags, i);
      if c[i].timestamp - c[i - 1].timestamp >= quiet {
        selected := selected + [Confirmed(c[i], 0)];
        assert selected == Delayed(Filter(c[..i], flags[..i]) + [c[i]], 0);
      }
    }
    assert c[..|c|] == c && flags[..|c|] == flags;
  }

  /** Confirms once per streak, when it reaches `required` candidates. */
  method Persistence(c: seq<Observed>, required: int) returns (selected: seq<Confirmed>)
    ensures selected == Delayed(Filter(c, PersistenceFlags(c, required)), (required - 1) * 5)
    ensures required >= 2 ==>
              && |selected| == |MembersOfStreaks(c, required)|
              && forall i :: 0 <= i < |selected| ==>
                   selected[i].observation == MembersOfStreaks(c, required)[i] && selected[i].delay == 5 * required - 5
  {
    hide Filter, MembersOfStreaks, PersistenceFlags;
    PersistenceSelectsMembers(c, required);
    selected := [];
    if c == [] {
      NoneKept(c, PersistenceFlags(c, required));
      return;
    }
    var streak, confirmedInStreak := 1, false;
    ghost var flags := PersistenceFlags(c, required);
    assert Filter(c[..1], flags[..1]) == [] by {
      NoneKept(c[..1], flags[..1]);
    }
    for i := 1 to |c|
      invariant streak == StreakAt(c, i - 1)
      invariant confirmedInStreak == (streak >= required && i > 1)
      invariant selected == Delayed(Filter(c[..i], flags[..i]), (required - 1) * 5)
    {
      FilterGrows(c, flags, i);
      if c[i].timestamp - c[i - 1].timestamp == 5 {
        streak := streak + 1;
      } else {
        streak := 1;
        confirmedInStreak := false;
      }
      if streak >= required && !confirmedInStreak {
        selected := selected + [Confirmed(c[i], (required - 1) * 5)];
        assert selected == Delayed(Filter(c[..i], flags[..i]) + [c[i]], (required - 1) * 5);
        confirmedInStreak := true;
      }
    }
    assert c[..|c|] == c && flags[..|c|] == flags;
  }

  /** The loop selects the `r`-th member of every streak exactly when `r` is at least two or there is nothing to select. */
  lemma PersistenceSelectsMembers(c: seq<Observed>, r: int)
    ensures r >= 2 ==> Filter(c, PersistenceFlags(c, r)) == MembersOfStreaks(c, r)
    ensures r == 1 ==> (Filter(c, PersistenceFlags(c, r)) == MembersOfStreaks(c, r) <==> c == [])
  {
    if r >= 2 {
      assert PersistenceFlags(c, r) == MemberFlags(c, r);
    } else if r == 1 && c != [] {
      var loop, members := PersistenceFlags(c, 1), MemberFlags(c, 1);
      FirstKept(c, members, 0);
      if |c| > 1 && StreakAt(c, 1) == 2 {
        FirstKept(c, loop, 1);
      } else {
        assert forall i :: 0 < i < |c| ==> loop[i] == members[i];
        DroppingTheFirst(c, members, loop);
      }
    }
  }

  /** The first kept element is the first flagged one. */
  lemma {:induction false} FirstKept(c: seq<Observed>, flags: seq<bool>, i: nat)
    requires |flags| == |c| && i < |c| && flags[i] && forall j :: 0 <= j < i ==> !flags[j]
    ensures Filter(c, flags) != [] && Filter(c, flags)[0] == c[i]
    decreases |c|
  {
    if i + 1 < |c| {
      FirstKept(Front(c), Front(flags), i);
    } else {
      NoneKept(Front(c), Front(flags));
    }
  }

  lemma {:induction false} NoneKept(c: seq<Observed>, flags: seq<bool>)
    requires |flags| == |c| && forall j :: 0 <= j < |c| ==> !flags[j]
    ensures Filter(c, flags) == []
    decreases |c|
  {
    if c != [] {
      NoneKept(Front(c), Front(flags));
    }
  }

  lemma {:induction false} DroppingTheFirst(c: seq<Observed>, more: seq<bool>, less: seq<bool>)
    requires |more| == |less| == |c| > 0 && more[0] && !less[0]
    requires forall i :: 0 < i < |c| ==> more[i] == less[i]
    ensures |Filter(c, more)| == |Filter(c, less)| + 1
    decreases |c|
  {
    if |c| > 1 {
      DroppingTheFirst(Front(c), Front(more), Front(less));
    } else {
      assert Front(c) == [] && Front(more) == [] && Front(less) == [];
    }
  }

  // ----- causality -----

  /** A rule that never takes anything back: on a shorter history it selects a prefix of its later selection. */
  lemma {:induction false} CooldownIsCausal(c: seq<Observed>, minutes: int, k: nat)
    requires k <= |c|
    ensures Cooldown(c[..k], minutes) <= Cooldown(c, minutes)
    decreases |c| - k
  {
    if k == |c| {
      assert c[..k] == c;
    } else {
      PrefixGrows(c, k);
      CooldownIsCausal(c, minutes, k + 1);
    }
  }

  lemma FirstInClusterIsCausal(c: seq<Observed>, gap: int, k: nat)
    requires k <= |c|
    ensures FirstInCluster(c[..k], gap) <= FirstInCluster(c, gap)
  {
    FirstInClusterIsStart(c, gap);
    FirstInClusterIsStart(c[..k], gap);
    assert StartFlags(c[..k], gap) == StartFlags(c, gap)[..k];
    FilterOfFront(c, StartFlags(c, gap), k);
  }

  lemma {:induction false} StreakOfPrefix(c: seq<Observed>, k: nat, i: nat)
    requires i < k <= |c|
    ensures StreakAt(c[..k], i) == StreakAt(c, i)
  {
    if i > 0 {
      StreakOfPrefix(c, k, i - 1);
    }
  }

  lemma PersistenceIsCausal(c: seq<Observed>, r: int, k: nat)
    requires k <= |c|
    ensures MembersOfStreaks(c[..k], r) <= MembersOfStreaks(c, r)
  {
    forall i | 0 <= i < k
      ensures StreakAt(c[..k], i) == StreakAt(c, i)
    {
      StreakOfPrefix(c, k, i);
    }
    assert MemberFlags(c[..k], r) == MemberFlags(c, r)[..k];
    FilterOfFront(c, MemberFlags(c, r), k);
  }

  predicate NoRepeats(c: seq<Observed>) {
    forall i, j :: 0 <= i < j < |c| ==> c[i] != c[j]
  }

  lemma {:induction false} FilterSplits(c: seq<Observed>, flags: seq<bool>, k: nat)
    requires |flags| == |c| && k <= |c|
    ensures Filter(c, flags) == Filter(c[..k], flags[..k]) + Filter(c[k..], flags[k..])
    decreases |c|
  {
    if k == |c| {
      assert c[..k] == c && flags[..k] == flags && c[k..] == [] && flags[k..] == [];
      EmptyFilter();
    } else {
      FilterSplits(Front(c), Front(flags), k);
      assert Front(c[k..]) == Front(c)[k..] && Last(c[k..]) == Last(c) && Last(flags[k..]) == Last(flags);
      assert Front(c)[..k] == c[..k] && Front(flags)[..k] == flags[..k];
      assert Front(c[k..]) == Front(c)[k..] && Front(flags[k..]) == Front(flags)[k..];
    }
  }

  /** Before the cut the short history has the same cluster ends, but it always ends a cluster at the cut. */
  lemma EndsAtTheCut(c: seq<Observed>, gap: int, k: nat)
    requires 0 < k <= |c|
    ensures Last(EndFlags(c[..k], gap)) && Front(EndFlags(c[..k], gap)) == EndFlags(c, gap)[..k - 1]
  {
  }

  lemma NotAPrefix(before: seq<Observed>, x: Observed, rest: seq<Observed>)
    requires x !in rest
    ensures !(before + [x] <= before + rest)
  {
    assert (before + [x])[|before|] == x;
    assert rest != [] ==> (before + rest)[|before|] == rest[0] != x;
  }

  /** Taking the last of a cluster is causal exactly when the history is not cut inside a cluster. */
  lemma LastInClusterIsCausalBetweenClusters(c: seq<Observed>, gap: int, k: nat)
    requires NoRepeats(c) && k <= |c|
    ensures LastInCluster(c[..k], gap) <= LastInCluster(c, gap) <==>
              k == 0 || k == |c| || c[k].timestamp - c[k - 1].timestamp > gap
  {
    hide Filter, LastInCluster;
    LastInClusterIsEnd(c, gap);
    LastInClusterIsEnd(c[..k], gap);
    var flags, short := EndFlags(c, gap), EndFlags(c[..k], gap);
    FilterSplits(c, flags, k);
    if k == 0 {
      assert c[..k] == [] && short == [] == flags[..k];
    } else {
      EndsAtTheCut(c, gap, k);
      assert Front(c[..k]) == c[..k - 1] && flags[..k - 1] + [flags[k - 1]] == flags[..k];
      FilterGrows(c, flags, k - 1);
      FilterGrows(c[..k], short, k - 1);
      assert c[..k][..k - 1] == c[..k - 1] && short[..k - 1] == flags[..k - 1] && c[..k][..k] == c[..k] && short[..k] == short;
      var before := Filter(c[..k - 1], flags[..k - 1]);
      assert Ends(c[..k], gap) == before + [c[k - 1]];
      if flags[k - 1] {
        assert Ends(c, gap) == (before + [c[k - 1]]) + Filter(c[k..], flags[k..]);
      } else {
        assert before + [] == before;
        assert Ends(c, gap) == before + Filter(c[k..], flags[k..]);
        NotAPrefix(before, c[k - 1], Filter(c[k..], flags[k..]));
      }
    }
  }

  /** In particular one more candidate within the gap replaces an earlier selection, at every gap. */
  lemma LastInClusterIsNotCausal(gap: int)
    requires gap >= 0
    ensures exists c: seq<Observed>, k: nat :: NoRepeats(c) && k <= |c| && !(LastInCluster(c[..k], gap) <= LastInCluster(c, gap))
  {
    var c := [Observed(0, 0), Observed(gap, 1)];
    LastInClusterIsCausalBetweenClusters(c, gap, 1);
    assert NoRepeats(c) && !(LastInCluster(c[..1], gap) <= LastInCluster(c, gap));
  }

  /** The part of a selection that is known by time `now`. */
  function KnownBy(now: int, c: seq<Observed>): seq<Observed> {
    Filter(c, KnownFlags(now, c))
  }

  function KnownFlags(now: int, c: seq<Observed>): (flags: seq<bool>)
    ensures |flags| == |c| && forall i :: 0 <= i < |c| ==> flags[i] == (c[i].timestamp <= now)
  {
    seq(|c|, i requires 0 <= i < |c| => c[i].timestamp <= now)
  }

  function Both(one: seq<bool>, two: seq<bool>): (both: seq<bool>)
    requires |one| == |two|
    ensures |both| == |one| && forall i :: 0 <= i < |one| ==> both[i] == (one[i] && two[i])
  {
    seq(|one|, i requires 0 <= i < |one| => one[i] && two[i])
  }

  /** Selecting and then keeping what is known is one selection. */
  lemma {:induction false} KnownOfFiltered(now: int, c: seq<Observed>, flags: seq<bool>)
    requires |flags| == |c|
    ensures KnownBy(now, Filter(c, flags)) == Filter(c, Both(flags, KnownFlags(now, c)))
    decreases |c|
  {
    if c == [] {
      assert KnownBy(now, []) == [];
    } else {
      var kept := Filter(Front(c), Front(flags));
      KnownOfFiltered(now, Front(c), Front(flags));
      assert Front(Both(flags, KnownFlags(now, c))) == Both(Front(flags), KnownFlags(now, Front(c)));
      if Last(flags) {
        assert Front(kept + [Last(c)]) == kept && Front(KnownFlags(now, kept + [Last(c)])) == KnownFlags(now, kept);
      } else {
        assert Filter(c, flags) == kept;
      }
    }
  }

  lemma {:induction false} TrailingFlagsOff(c: seq<Observed>, flags: seq<bool>, k: nat)
    requires |flags| == |c| && k <= |c| && forall i :: k <= i < |c| ==> !flags[i]
    ensures Filter(c, flags) == Filter(c[..k], flags[..k])
    decreases |c|
  {
    if k == |c| {
      assert c[..k] == c && flags[..k] == flags;
    } else {
      TrailingFlagsOff(Front(c), Front(flags), k);
      assert Front(c)[..k] == c[..k] && Front(flags)[..k] == flags[..k];
    }
  }

  /** Whether a due candidate ends its cluster shows by `now`. */
  lemma DueFlagsAgree(c: seq<Observed>, wait: int, now: int, k: nat)
    requires wait >= 0 && k <= |c|
    requires forall i :: 0 <= i < |c| ==> (i < k <==> c[i].timestamp <= now)
    ensures var whole := Both(EndFlags(c, wait), KnownFlags(now - wait, c));
      && (forall i :: k <= i < |c| ==> !whole[i])
      && Both(EndFlags(c[..k], wait), KnownFlags(now - wait, c[..k])) == whole[..k]
  {
    forall i | 0 <= i < k && c[i].timestamp <= now - wait
      ensures EndFlags(c[..k], wait)[i] == EndFlags(c, wait)[i]
    {
      hide EndFlags;
    }
    hide EndFlags, KnownFlags, Both, EndsCluster;
  }

  /** A quiet confirmation due by `now` is decided by the candidates seen by `now`, the first `k`: the candidates
      whose wait has ended are confirmed alike on the short history and on the whole one. */
  lemma QuietConfirmationIsCausal(c: seq<Observed>, wait: int, now: int, k: nat)
    requires wait >= 0 && k <= |c|
    requires forall i :: 0 <= i < |c| ==> (i < k <==> c[i].timestamp <= now)
    ensures KnownBy(now - wait, LastInCluster(c[..k], wait)) == KnownBy(now - wait, LastInCluster(c, wait))
  {
    hide Filter, LastInCluster, KnownBy, Both, KnownFlags, EndFlags;
    var due := now - wait;
    DueFlagsAgree(c, wait, now, k);
    LastInClusterIsEnd(c, wait);
    LastInClusterIsEnd(c[..k], wait);
    KnownOfFiltered(due, c, EndFlags(c, wait));
    KnownOfFiltered(due, c[..k], EndFlags(c[..k], wait));
    TrailingFlagsOff(c, Both(EndFlags(c, wait), KnownFlags(due, c)), k);
  }
}

/** Rules that thin out a time-ordered list of candidates: clusters, cooldowns, confirmations, persistence. */
module CandidateSelection {
  import opened Sequences

  /** A methodology observation, reduced to its time and an identity. */
  datatype Observed = Observed(timestamp: int, id: nat)

  predicate Sorted(c: seq<Observed>) {
    forall i, j :: 0 <= i < j < |c| ==> c[i].timestamp <= c[j].timestamp
  }

  // ----- selections by position -----

  /** The elements whose flag is set, in order. */
  function Filter(c: seq<Observed>, flags: seq<bool>): (kept: seq<Observed>)
    requires |flags| == |c|
    ensures forall x <- kept :: x in c
  {
    if c == [] then [] else Filter(Front(c), Front(flags)) + if Last(flags) then [Last(c)] else []
  }

  predicate Subsequence(s: seq<Observed>, c: seq<Observed>)
    decreases |c|
  {
    if s == [] then true
    else if c == [] then false
    else (Last(s) == Last(c) && Subsequence(Front(s), Front(c))) || Subsequence(s, Front(c))
  }

  lemma {:induction false} FilterIsSubsequence(c: seq<Observed>, flags: seq<bool>)
    requires |flags| == |c|
    ensures Subsequence(Filter(c, flags), c)
    decreases |c|
  {
    if c != [] {
      FilterIsSubsequence(Front(c), Front(flags));
      if Last(flags) {
        assert Front(Filter(c, flags)) == Filter(Front(c), Front(flags));
      } else {
        assert Filter(c, flags) == Filter(Front(c), Front(flags));
      }
    }
  }

  lemma {:induction false} FilterOfFront(c: seq<Observed>, flags: seq<bool>, k: nat)
    requires |flags| == |c| && k <= |c|
    ensures Filter(c[..k], flags[..k]) <= Filter(c, flags)
    decreases |c| - k
  {
    if k == |c| {
      assert c[..k] == c && flags[..k] == flags;
    } else {
      assert Front(c[..k + 1]) == c[..k] && Front(flags[..k + 1]) == flags[..k];
      FilterOfFront(c, flags, k + 1);
    }
  }

  /** The candidate comes first, or more than `gap` minutes after its predecessor. */
  predicate StartsCluster(c: seq<Observed>, gap: int, i: nat)
    requires i < |c|
  {
    i == 0 || c[i].timestamp - c[i - 1].timestamp > gap
  }

  predicate EndsCluster(c: seq<Observed>, gap: int, i: nat)
    requires i < |c|
  {
    i + 1 == |c| || c[i + 1].timestamp - c[i].timestamp > gap
  }

  function StartFlags(c: seq<Observed>, gap: int): (flags: seq<bool>)
    ensures |flags| == |c| && forall i :: 0 <= i < |c| ==> flags[i] == StartsCluster(c, gap, i)
  {
    seq(|c|, i requires 0 <= i < |c| => StartsCluster(c, gap, i))
  }

  function EndFlags(c: seq<Observed>, gap: int): (flags: seq<bool>)
    ensures |flags| == |c| && forall i :: 0 <= i < |c| ==> flags[i] == EndsCluster(c, gap, i)
  {
    seq(|c|, i requires 0 <= i < |c| => EndsCluster(c, gap, i))
  }

  function Starts(c: seq<Observed>, gap: int): seq<Observed> {
    Filter(c, StartFlags(c, gap))
  }

  function Ends(c: seq<Observed>, gap: int): seq<Observed> {
    Filter(c, EndFlags(c, gap))
  }

  // ----- clusters -----

  function Clusters(c: seq<Observed>, gap: int): (clusters: seq<seq<Observed>>)
    ensures c != [] ==> clusters != [] && Last(clusters) != []
  {
    if c == [] then []
    else
      var before := Clusters(Front(c), gap);
      if |c| > 1 && Last(c).timestamp - Last(Last(before)).timestamp <= gap
      then Front(before) + [Last(before) + [Last(c)]]
      else before + [[Last(c)]]
  }

  predicate Tight(cluster: seq<Observed>, gap: int) {
    cluster != [] && forall i :: 0 < i < |cluster| ==> cluster[i].timestamp - cluster[i - 1].timestamp <= gap
  }

  /** Cluster `i` starts more than `gap` minutes after its predecessor ends. */
  predicate Apart(clusters: seq<seq<Observed>>, i: nat, gap: int)
    requires 0 < i < |clusters|
  {
    && clusters[i - 1] != [] && clusters[i] != []
    && clusters[i][0].timestamp - Last(clusters[i - 1]).timestamp > gap
  }

  predicate WellClustered(clusters: seq<seq<Observed>>, gap: int) {
    && (forall i :: 0 <= i < |clusters| ==> Tight(clusters[i], gap))
    && (forall i :: 0 < i < |clusters| ==> Apart(clusters, i, gap))
  }

  /** An order-preserving partition with gaps of at most `gap` inside clusters and larger ones between them. */
  predicate IsClustering(c: seq<Observed>, gap: int, clusters: seq<seq<Observed>>) {
    Concat(clusters) == c && WellClustered(clusters, gap)
  }

  /** Well-clustered lists are built one cluster at a time. */
  lemma WellClusteredByLast(clusters: seq<seq<Observed>>, gap: int)
    requires clusters != []
    ensures WellClustered(clusters, gap) <==>
              && WellClustered(Front(clusters), gap) && Tight(Last(clusters), gap)
              && (|clusters| > 1 ==> Apart(clusters, |clusters| - 1, gap))
  {
    var front := Front(clusters);
    assert forall i :: 0 < i < |front| ==> Apart(front, i, gap) == Apart(clusters, i, gap);
    assert forall i :: 0 <= i < |front| ==> Tight(front[i], gap) == Tight(clusters[i], gap);
  }

  lemma TightByLast(cluster: seq<Observed>, gap: int)
    requires |cluster| > 1
    ensures Tight(cluster, gap) <==>
              Tight(Front(cluster), gap) && Last(cluster).timestamp - Last(Front(cluster)).timestamp <= gap
  {
  }

  lemma ConcatByLast(clusters: seq<seq<Observed>>)
    requires clusters != [] && Last(clusters) != []
    ensures Concat(clusters) != [] && Last(Concat(clusters)) == Last(Last(clusters))
    ensures |Last(clusters)| > 1 ==> Front(Concat(clusters)) == Concat(Front(clusters) + [Front(Last(clusters))])
    ensures |Last(clusters)| == 1 ==> Front(Concat(clusters)) == Concat(Front(clusters))
  {
    var shorter := Front(clusters) + [Front(Last(clusters))];
    assert Front(shorter) == Front(clusters);
  }

  /** Adding or removing the last candidate of the last cluster. */
  lemma GrowLastCluster(clusters: seq<seq<Observed>>, gap: int)
    requires clusters != [] && |Last(clusters)| > 1
    ensures var shorter := Front(clusters) + [Front(Last(clusters))];
      WellClustered(clusters, gap) <==>
        WellClustered(shorter, gap) && Last(Last(clusters)).timestamp - Last(Last(shorter)).timestamp <= gap
  {
    var shorter := Front(clusters) + [Front(Last(clusters))];
    assert Front(shorter) == Front(clusters);
    WellClusteredByLast(clusters, gap);
    WellClusteredByLast(shorter, gap);
    TightByLast(Last(clusters), gap);
    hide WellClustered, Tight;
  }

  /** The last candidate joins the last cluster or opens one of its own. */
  lemma ClustersByLast(c: seq<Observed>, gap: int)
    requires c != []
    ensures var before, clusters := Clusters(Front(c), gap), Clusters(c, gap);
      if |c| > 1 && Last(c).timestamp - Last(Last(before)).timestamp <= gap
      then clusters == Front(before) + [Last(before) + [Last(c)]]
      else clusters == before + [[Last(c)]]
  {
  }

  lemma {:induction false} ClustersPartition(c: seq<Observed>, gap: int)
    ensures IsClustering(c, gap, Clusters(c, gap))
    decreases |c|
  {
    hide WellClustered;
    if c == [] {
      NoClusters(gap);
    } else {
      hide Clusters, Concat;
      var before, clusters := Clusters(Front(c), gap), Clusters(c, gap);
      ClustersPartition(Front(c), gap);
      ClustersByLast(c, gap);
      ConcatByLast(clusters);
      if |c| > 1 && Last(c).timestamp - Last(Last(before)).timestamp <= gap {
        assert Front(clusters) == Front(before) && Front(Last(clusters)) == Last(before);
        assert Front(clusters) + [Front(Last(clusters))] == before;
        GrowLastCluster(clusters, gap);
      } else {
        assert Front(clusters) == before;
        WellClusteredByLast(clusters, gap);
      }
      SameFrontAndLast(Concat(clusters), c);
    }
  }

  lemma NoClusters(gap: int)
    ensures WellClustered([], gap) && Clusters([], gap) == [] && Concat<Observed>([]) == []
  {
  }

  /** There is only one such partition. */
  lemma {:induction false} ClusteringIsUnique(c: seq<Observed>, gap: int, clusters: seq<seq<Observed>>)
    requires IsClustering(c, gap, clusters)
    ensures clusters == Clusters(c, gap)
    decreases |c|
  {
    if clusters != [] {
      hide WellClustered, Tight, Concat;
      var front, last := Front(clusters), Last(clusters);
      assert clusters == front + [last];
      WellClusteredByLast(clusters, gap);
      ConcatByLast(clusters);
      if |last| > 1 {
        var shorter := front + [Front(last)];
        GrowLastCluster(clusters, gap);
        ClusteringIsUnique(Front(c), gap, shorter);
        assert Front(shorter) == front && last == Front(last) + [Last(last)];
      } else {
        ClusteringIsUnique(Front(c), gap, front);
        assert last == [Last(last)];
      }
    }
  }

  /** The first, or the last, member of every cluster. */
  function Heads(clusters: seq<seq<Observed>>): seq<Observed>
    requires forall i :: 0 <= i < |clusters| ==> clusters[i] != []
  {
    seq(|clusters|, i requires 0 <= i < |clusters| => clusters[i][0])
  }

  function Tails(clusters: seq<seq<Observed>>): seq<Observed>
    requires forall i :: 0 <= i < |clusters| ==> clusters[i] != []
  {
    seq(|clusters|, i requires 0 <= i < |clusters| => Last(clusters[i]))
  }

  lemma ClustersNotEmpty(c: seq<Observed>, gap: int)
    ensures forall i :: 0 <= i < |Clusters(c, gap)| ==> Clusters(c, gap)[i] != []
  {
    ClustersPartition(c, gap);
  }

  function FirstInCluster(c: seq<Observed>, gap: int): seq<Observed> {
    ClustersNotEmpty(c, gap);
    Heads(Clusters(c, gap))
  }

  function LastInCluster(c: seq<Observed>, gap: int): seq<Observed> {
    ClustersNotEmpty(c, gap);
    Tails(Clusters(c, gap))
  }

  lemma {:induction false} FirstInClusterIsStart(c: seq<Observed>, gap: int)
    ensures FirstInCluster(c, gap) == Starts(c, gap)
    decreases |c|
  {
    if c != [] {
      FirstInClusterIsStart(Front(c), gap);
      StartsByLast(c, gap);
      ClustersNotEmpty(c, gap);
      ClustersNotEmpty(Front(c), gap);
      var before, clusters := Clusters(Front(c), gap), Clusters(c, gap);
      ClustersLastIsLast(Front(c), gap);
      if |c| > 1 && Last(c).timestamp - Last(Last(before)).timestamp <= gap {
        assert Heads(clusters) == Heads(before);
      } else {
        assert Heads(clusters) == Heads(before) + [Last(c)];
      }
      hide Starts, Clusters;
    }
  }

  lemma ClustersLastIsLast(c: seq<Observed>, gap: int)
    ensures c != [] ==> Last(Last(Clusters(c, gap))) == Last(c)
  {
    if c != [] {
      ClustersPartition(c, gap);
      ConcatByLast(Clusters(c, gap));
    }
  }

  lemma StartsByLast(c: seq<Observed>, gap: int)
    requires c != []
    ensures Starts(c, gap) == Starts(Front(c), gap) + if StartsCluster(c, gap, |c| - 1) then [Last(c)] else []
  {
    assert Front(StartFlags(c, gap)) == StartFlags(Front(c), gap);
  }

  /** Only the last candidate of the shorter list can lose its place when one more arrives. */
  lemma EndsByLast(c: seq<Observed>, gap: int)
    requires |c| > 1
    ensures Ends(Front(c), gap) != [] && Last(Ends(Front(c), gap)) == Last(Front(c))
    ensures Ends(c, gap) == (if EndsCluster(c, gap, |c| - 2) then Ends(Front(c), gap) else Front(Ends(Front(c), gap))) + [Last(c)]
  {
    var front := Front(c);
    var flags, shorter := EndFlags(c, gap), EndFlags(front, gap);
    assert Front(Front(flags)) == Front(shorter);
    assert Ends(front, gap) == Filter(Front(front), Front(shorter)) + [Last(front)];
    assert Filter(front, Front(flags)) == Filter(Front(front), Front(shorter)) + if EndsCluster(c, gap, |c| - 2) then [Last(front)] else [];
  }

  lemma SingleCandidate(c: seq<Observed>, gap: int)
    requires |c| == 1
    ensures Clusters(c, gap) == [c] && Ends(c, gap) == c
  {
    assert c == [c[0]] && Front(c) == [] && Last(c) == c[0];
    assert Clusters([], gap) == [];
    assert [] + [[Last(c)]] == [[Last(c)]];
    assert Filter(Front(c), Front(EndFlags(c, gap))) == [];
    assert Last(EndFlags(c, gap));
  }

  /** The last members after one more candidate. */
  lemma TailsByLast(c: seq<Observed>, gap: int)
    requires |c| > 1
    ensures var before := LastInCluster(Front(c), gap);
      && before != []
      && LastInCluster(c, gap) == (if EndsCluster(c, gap, |c| - 2) then before else Front(before)) + [Last(c)]
  {
    ClustersNotEmpty(c, gap);
    ClustersNotEmpty(Front(c), gap);
    ClustersLastIsLast(Front(c), gap);
    var before, clusters := Clusters(Front(c), gap), Clusters(c, gap);
    if Last(c).timestamp - Last(Last(before)).timestamp <= gap {
      assert clusters == Front(before) + [Last(before) + [Last(c)]];
      hide Clusters;
      assert Tails(clusters) == Front(Tails(before)) + [Last(c)];
    } else {
      assert clusters == before + [[Last(c)]];
      hide Clusters;
      assert Tails(clusters) == Tails(before) + [Last(c)];
    }
  }

  lemma {:induction false} LastInClusterIsEnd(c: seq<Observed>, gap: int)
    ensures LastInCluster(c, gap) == Ends(c, gap)
    decreases |c|
  {
    if |c| == 0 {
      assert Clusters(c, gap) == [];
    } else if |c| == 1 {
      SingleCandidate(c, gap);
      hide Ends, Clusters;
    } else {
      LastInClusterIsEnd(Front(c), gap);
      hide Ends, LastInCluster, EndsCluster;
      EndsByLast(c, gap);
      TailsByLast(c, gap);
    }
  }

  // ----- cooldown -----

  /** Greedy: take a candidate whenever `minutes` have passed since the last one taken. */
  function Cooldown(c: seq<Observed>, minutes: int): (selected: seq<Observed>)
    ensures c != [] ==> selected != []
    ensures forall x <- selected :: x in c
  {
    if c == [] then []
    else
      var before := Cooldown(Front(c), minutes);
      if before == [] || Last(c).timestamp - Last(before).timestamp >= minutes then before + [Last(c)] else before
  }

  predicate Spaced(s: seq<Observed>, minutes: int) {
    forall i :: 0 < i < |s| ==> s[i].timestamp - s[i - 1].timestamp >= minutes
  }

  lemma {:induction false} CooldownIsSpaced(c: seq<Observed>, minutes: int)
    ensures Subsequence(Cooldown(c, minutes), c) && Spaced(Cooldown(c, minutes), minutes)
    decreases |c|
  {
    if c != [] {
      CooldownIsSpaced(Front(c), minutes);
      var before, selected := Cooldown(Front(c), minutes), Cooldown(c, minutes);
      if selected != before {
        assert Front(selected) == before;
      }
    }
  }

  /** Greedy stays ahead: no spaced choice is longer, and none of equal length ends earlier. */
  lemma {:induction false} GreedyStaysAhead(c: seq<Observed>, minutes: int, s: seq<Observed>)
    requires Sorted(c) && Subsequence(s, c) && Spaced(s, minutes)
    ensures |s| <= |Cooldown(c, minutes)|
    ensures s != [] && |s| == |Cooldown(c, minutes)| ==> Last(s).timestamp >= Last(Cooldown(c, minutes)).timestamp
    decreases |c|
  {
    if s != [] {
      var before := Cooldown(Front(c), minutes);
      assert before != [] ==> Last(before) in before && Last(before) in Front(c);
      assert before != [] ==> Last(before).timestamp <= Last(c).timestamp;
      if Subsequence(s, Front(c)) {
        GreedyStaysAhead(Front(c), minutes, s);
      } else {
        assert Spaced(Front(s), minutes);
        GreedyStaysAhead(Front(c), minutes, Front(s));
        if Front(s) != [] {
          assert s[|s| - 1].timestamp - s[|s| - 2].timestamp >= minutes;
        }
      }
    }
  }

  /** Cooldown selection is optimal among all selections that keep the candidates apart. */
  lemma CooldownIsLongest(c: seq<Observed>, minutes: int, s: seq<Observed>)
    requires Sorted(c) && Subsequence(s, c) && Spaced(s, minutes)
    ensures Spaced(Cooldown(c, minutes), minutes) && Subsequence(Cooldown(c, minutes), c)
    ensures |s| <= |Cooldown(c, minutes)|
  {
    CooldownIsSpaced(c, minutes);
    GreedyStaysAhead(c, minutes, s);
  }

  lemma {:induction false} StartsAreSpaced(c: seq<Observed>, gap: int)
    requires Sorted(c)
    ensures Spaced(Starts(c, gap), gap + 1)
    decreases |c|
  {
    if c != [] {
      StartsAreSpaced(Front(c), gap);
      StartsByLast(c, gap);
      var before := Starts(Front(c), gap);
      if before != [] {
        assert Last(before) in Front(c);
      }
      hide Starts;
    }
  }

  /** A cooldown of `minutes` keeps at least one candidate for every cluster with that gap. */
  lemma CooldownCoversClusters(c: seq<Observed>, minutes: int)
    requires Sorted(c)
    ensures |Clusters(c, minutes)| <= |Cooldown(c, minutes)|
  {
    FirstInClusterIsStart(c, minutes);
    StartsAreSpaced(c, minutes);
    FilterIsSubsequence(c, StartFlags(c, minutes));
    GreedyStaysAhead(c, minutes, Starts(c, minutes));
  }

  // ----- the loops -----

  lemma PrefixGrows(c: seq<Observed>, i: nat)
    requires i < |c|
    ensures Front(c[..i + 1]) == c[..i] && Last(c[..i + 1]) == c[i]
  {
  }

  /** Grows the last cluster or opens a new one, candidate by candidate. */
  method BuildClusters(c: seq<Observed>, gap: int) returns (clusters: seq<seq<Observed>>)
    ensures IsClustering(c, gap, clusters) && clusters == Clusters(c, gap)
  {
    ClustersPartition(c, gap);
    if c == [] {
      return [];
    }
    clusters := [[c[0]]];
    SingleCandidate(c[..1], gap);
    assert c[..1] == [c[0]];
    hide Clusters, IsClustering;
    for i := 1 to |c|
      invariant clusters == Clusters(c[..i], gap)
    {
      PrefixGrows(c, i);
      ClustersByLast(c[..i + 1], gap);
      ClustersLastIsLast(c[..i], gap);
      var current := clusters[|clusters| - 1];
      if c[i].timestamp - current[|current| - 1].timestamp <= gap {
        clusters := clusters[..|clusters| - 1] + [current + [c[i]]];
      } else {
        clusters := clusters + [[c[i]]];
      }
    }
    assert c[..|c|] == c;
  }

  method SelectWithCooldown(c: seq<Observed>, minutes: int) returns (selected: seq<Observed>)
    ensures selected == Cooldown(c, minutes)
  {
    selected := [];
    for i := 0 to |c|
      invariant selected == Cooldown(c[..i], minutes)
    {
      PrefixGrows(c, i);
      if selected == [] || c[i].timestamp - selected[|selected| - 1].timestamp >= minutes {
        selected := selected + [c[i]];
      }
    }
    assert c[..|c|] == c;
  }
}

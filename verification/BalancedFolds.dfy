/** Splitting a chronological history into a fixed number of contiguous folds of nearly equal size. */
module BalancedFolds {
  import opened Sequences

  /** The fold that timestamp `i` of `n` is put into, with the clamp of the source. */
  function FoldOf(i: nat, n: nat, k: nat): nat
    requires n > 0 && k > 0
  {
    var fold := i * k / n;
    if fold < k - 1 then fold else k - 1
  }

  /** The first index of fold `j`: `j * n / k`, rounded up. */
  function Edge(j: nat, n: nat, k: nat): nat
    requires k > 0
  {
    (j * n + k - 1) / k
  }

  // ----- products and quotients -----

  lemma NextMultiple(a: int, b: int, k: int)
    requires k > 0 && a < b
    ensures a * k + k <= b * k
  {
    assert (b - a - 1) * k >= 0;
    assert (b - a - 1) * k == b * k - a * k - k;
  }

  lemma Quotient(x: nat, k: nat)
    requires k > 0
    ensures (x / k) * k <= x < (x / k) * k + k
  {
    assert x == (x / k) * k + x % k;
  }

  /** The only multiple of `k` in a half-open stretch of length `k` that starts at a multiple. */
  lemma SameMultiple(a: int, b: int, k: int)
    requires k > 0 && a * k < b * k + k && b * k < a * k + k
    ensures a == b
  {
    if a < b {
      NextMultiple(a, b, k);
    } else if b < a {
      NextMultiple(b, a, k);
    }
  }

  lemma QuotientIs(total: nat, j: int, n: nat)
    requires n > 0
    ensures total / n == j <==> j * n <= total < j * n + n
  {
    Quotient(total, n);
    if j * n <= total < j * n + n {
      SameMultiple(total / n, j, n);
    }
  }

  // ----- edges -----

  lemma EdgeBounds(j: nat, n: nat, k: nat)
    requires k > 0
    ensures j * n <= Edge(j, n, k) * k < j * n + k
  {
    Quotient(j * n + k - 1, k);
  }

  lemma EdgeEnds(n: nat, k: nat)
    requires k > 0
    ensures Edge(0, n, k) == 0 && Edge(k, n, k) == n
  {
    EdgeBounds(0, n, k);
    SameMultiple(Edge(0, n, k), 0, k);
    EdgeBounds(k, n, k);
    assert k * n == n * k;
    SameMultiple(Edge(k, n, k), n, k);
  }

  lemma QuotientBounds(d: int, n: nat, k: nat)
    requires k > 0 && n - k < d * k < n + k
    ensures n / k <= d <= (n + k - 1) / k
  {
    Quotient(n, k);
    Quotient(n + k - 1, k);
    if d < n / k {
      NextMultiple(d, n / k, k);
    } else if d > (n + k - 1) / k {
      NextMultiple((n + k - 1) / k, d, k);
    }
  }

  lemma EdgeStep(j: nat, n: nat, k: nat)
    requires k > 0
    ensures n / k <= Edge(j + 1, n, k) - Edge(j, n, k) <= (n + k - 1) / k
  {
    EdgeBounds(j, n, k);
    EdgeBounds(j + 1, n, k);
    var a, b := Edge(j, n, k), Edge(j + 1, n, k);
    assert (j + 1) * n == j * n + n;
    assert (b - a) * k == b * k - a * k;
    QuotientBounds(b - a, n, k);
  }

  lemma EdgesRise(i: nat, j: nat, n: nat, k: nat)
    requires k > 0 && i <= j
    ensures Edge(i, n, k) <= Edge(j, n, k)
    decreases j - i
  {
    hide Edge;
    if i < j {
      EdgeStep(j - 1, n, k);
      assert n / k >= 0;
      EdgesRise(i, j - 1, n, k);
    }
  }

  lemma EdgeInOrder(j: nat, n: nat, k: nat)
    requires j < k
    ensures Edge(j, n, k) <= Edge(j + 1, n, k) <= n
  {
    EdgesRise(j, j + 1, n, k);
    EdgesRise(j + 1, k, n, k);
    EdgeEnds(n, k);
    hide Edge;
  }

  lemma AtOrAfterEdge(i: nat, j: nat, n: nat, k: nat)
    requires k > 0
    ensures Edge(j, n, k) <= i <==> j * n <= i * k
  {
    EdgeBounds(j, n, k);
    var e := Edge(j, n, k);
    if e < i {
      NextMultiple(e, i, k);
    } else if i < e {
      NextMultiple(i, e, k);
    }
  }

  /** The clamp to the last fold never changes an index. */
  lemma ClampIsIdle(i: nat, n: nat, k: nat)
    requires i < n && k > 0
    ensures i * k / n < k && FoldOf(i, n, k) == i * k / n
  {
    NextMultiple(i, n, k);
    Quotient(i * k, n);
    var f := i * k / n;
    assert k * n == n * k;
    if f > k {
      NextMultiple(k, f, n);
    }
  }

  /** Index `i` belongs to the fold whose edges enclose it. */
  lemma FoldBetweenEdges(i: nat, j: nat, n: nat, k: nat)
    requires i < n && k > 0 && j < k
    ensures FoldOf(i, n, k) == j <==> Edge(j, n, k) <= i < Edge(j + 1, n, k)
  {
    ClampIsIdle(i, n, k);
    AtOrAfterEdge(i, j, n, k);
    AtOrAfterEdge(i, j + 1, n, k);
    QuotientIs(i * k, j, n);
    assert (j + 1) * n == j * n + n;
    hide Edge, FoldOf;
  }

  /** Fold `j` is the stretch between its edges. */
  predicate IsFold(timestamps: seq<int>, k: nat, j: nat, fold: seq<int>)
    requires k > 0
  {
    && Edge(j, |timestamps|, k) <= Edge(j + 1, |timestamps|, k) <= |timestamps|
    && fold == timestamps[Edge(j, |timestamps|, k)..Edge(j + 1, |timestamps|, k)]
  }

  predicate AreFolds(timestamps: seq<int>, k: nat, folds: seq<seq<int>>)
    requires k > 0
  {
    |folds| == k && forall j :: 0 <= j < k ==> IsFold(timestamps, k, j, folds[j])
  }

  lemma {:induction false} FoldsConcatenate(timestamps: seq<int>, k: nat, folds: seq<seq<int>>, m: nat)
    requires k > 0 && AreFolds(timestamps, k, folds) && m <= k
    ensures Edge(m, |timestamps|, k) <= |timestamps|
    ensures Concat(folds[..m]) == timestamps[..Edge(m, |timestamps|, k)]
    decreases m
  {
    hide Edge;
    EdgeEnds(|timestamps|, k);
    if m > 0 {
      FoldsConcatenate(timestamps, k, folds, m - 1);
      assert folds[..m][..m - 1] == folds[..m - 1];
      assert IsFold(timestamps, k, m - 1, folds[m - 1]);
    }
  }

  /** Nothing is lost or reordered, and every fold has the size `n / k` rounded down or up. */
  lemma FoldsAreBalanced(timestamps: seq<int>, k: nat, folds: seq<seq<int>>)
    requires k > 0 && AreFolds(timestamps, k, folds)
    ensures Concat(folds) == timestamps
    ensures forall j :: 0 <= j < k ==> |timestamps| / k <= |folds[j]| <= (|timestamps| + k - 1) / k
  {
    hide Edge;
    FoldsConcatenate(timestamps, k, folds, k);
    EdgeEnds(|timestamps|, k);
    assert folds[..k] == folds && timestamps[..|timestamps|] == timestamps;
    forall j | 0 <= j < k
      ensures |timestamps| / k <= |folds[j]| <= (|timestamps| + k - 1) / k
    {
      assert IsFold(timestamps, k, j, folds[j]);
      EdgeStep(j, |timestamps|, k);
    }
  }

  function Cap(x: nat, limit: nat): (r: nat)
    ensures r <= limit && r <= x && (r == x || r == limit)
  {
    if x < limit then x else limit
  }

  /** What fold `j` holds once the first `i` timestamps have been placed. */
  function Placed(timestamps: seq<int>, k: nat, i: nat, j: nat): seq<int>
    requires j < k && i <= |timestamps|
  {
    EdgeInOrder(j, |timestamps|, k);
    timestamps[Cap(Edge(j, |timestamps|, k), i)..Cap(Edge(j + 1, |timestamps|, k), i)]
  }

  lemma PlaceOne(timestamps: seq<int>, k: nat, i: nat, j: nat)
    requires i < |timestamps| && j < k
    ensures Placed(timestamps, k, i + 1, j)
         == Placed(timestamps, k, i, j) + if FoldOf(i, |timestamps|, k) == j then [timestamps[i]] else []
  {
    hide Edge, FoldOf;
    EdgeInOrder(j, |timestamps|, k);
    FoldBetweenEdges(i, j, |timestamps|, k);
  }

  lemma AllPlaced(timestamps: seq<int>, k: nat, j: nat)
    requires j < k
    ensures IsFold(timestamps, k, j, Placed(timestamps, k, |timestamps|, j))
  {
    hide Edge;
    EdgeInOrder(j, |timestamps|, k);
  }

  /** Appends each timestamp to its fold. */
  method BuildFolds(timestamps: seq<int>, k: nat) returns (folds: seq<seq<int>>)
    requires k > 0
    ensures AreFolds(timestamps, k, folds)
    ensures Concat(folds) == timestamps
    ensures forall j :: 0 <= j < k ==> |timestamps| / k <= |folds[j]| <= (|timestamps| + k - 1) / k
  {
    hide Edge, FoldOf, Concat, IsFold;
    var n := |timestamps|;
    folds := seq(k, _ => []);
    for i := 0 to n
      invariant |folds| == k
      invariant forall j :: 0 <= j < k ==> folds[j] == Placed(timestamps, k, i, j)
    {
      ClampIsIdle(i, n, k);
      var fold := FoldOf(i, n, k);
      ghost var before := folds;
      folds := folds[fold := folds[fold] + [timestamps[i]]];
      forall j | 0 <= j < k
        ensures folds[j] == Placed(timestamps, k, i + 1, j)
      {
        PlaceOne(timestamps, k, i, j);
        assert before[j] + [] == before[j];
      }
    }
    forall j | 0 <= j < k
      ensures IsFold(timestamps, k, j, folds[j])
    {
      AllPlaced(timestamps, k, j);
    }
    FoldsAreBalanced(timestamps, k, folds);
  }
}

/** Sequences by their last element, lists of lists, and stable sorting by a key. */
module Sequences {

  function Last<T>(s: seq<T>): T
    requires s != []
  {
    s[|s| - 1]
  }

  function Front<T>(s: seq<T>): (front: seq<T>)
    requires s != []
    ensures |front| == |s| - 1
  {
    s[..|s| - 1]
  }

  function Concat<T>(lists: seq<seq<T>>): seq<T> {
    if lists == [] then [] else Concat(Front(lists)) + Last(lists)
  }

  lemma SameFrontAndLast<T>(one: seq<T>, two: seq<T>)
    requires one != [] && two != [] && Front(one) == Front(two) && Last(one) == Last(two)
    ensures one == two
  {
    assert one == Front(one) + [Last(one)] && two == Front(two) + [Last(two)];
  }

  // ----- sorting by a key -----

  predicate Ordered<T(!new)>(s: seq<T>, key: T -> int) {
    forall i, j :: 0 <= i < j < |s| ==> key(s[i]) <= key(s[j])
  }

  predicate StrictlyOrdered<T(!new)>(s: seq<T>, key: T -> int) {
    forall i, j :: 0 <= i < j < |s| ==> key(s[i]) < key(s[j])
  }

  predicate DistinctKeys<T(!new)>(s: seq<T>, key: T -> int) {
    forall i, j :: 0 <= i < j < |s| ==> key(s[i]) != key(s[j])
  }

  /** Behind every element whose key is not larger. */
  function Insert<T(!new)>(s: seq<T>, x: T, key: T -> int): seq<T> {
    if s == [] || key(Last(s)) <= key(x) then s + [x] else Insert(Front(s), x, key) + [Last(s)]
  }

  function SortedBy<T(!new)>(s: seq<T>, key: T -> int): seq<T> {
    if s == [] then [] else Insert(SortedBy(Front(s), key), Last(s), key)
  }

  lemma {:induction false} InsertAdds<T(!new)>(s: seq<T>, x: T, key: T -> int)
    ensures multiset(Insert(s, x, key)) == multiset(s) + multiset{x}
    decreases |s|
  {
    if s != [] && key(Last(s)) > key(x) {
      InsertAdds(Front(s), x, key);
      assert s == Front(s) + [Last(s)];
    }
  }

  /** Sorting loses and invents nothing. */
  lemma {:induction false} SortingKeepsElements<T(!new)>(s: seq<T>, key: T -> int)
    ensures multiset(SortedBy(s, key)) == multiset(s)
    ensures forall y :: y in SortedBy(s, key) <==> y in s
    decreases |s|
  {
    if s != [] {
      SortingKeepsElements(Front(s), key);
      InsertAdds(SortedBy(Front(s), key), Last(s), key);
      assert s == Front(s) + [Last(s)];
    }
    SameMembers(SortedBy(s, key), s);
  }

  lemma SameMembers<T(!new)>(one: seq<T>, two: seq<T>)
    requires multiset(one) == multiset(two)
    ensures forall y :: y in one <==> y in two
  {
    assert forall y :: y in one <==> y in multiset(one);
    assert forall y :: y in two <==> y in multiset(two);
  }

  lemma OrderedByLast<T(!new)>(s: seq<T>, key: T -> int)
    requires s != []
    ensures Ordered(s, key) <==> Ordered(Front(s), key) && AtMost(Front(s), key(Last(s)), key)
    ensures Ordered(s, key) && |s| > 1 ==> key(Last(Front(s))) <= key(Last(s))
  {
    if Ordered(Front(s), key) && AtMost(Front(s), key(Last(s)), key) {
      assert forall i :: 0 <= i < |s| - 1 ==> s[i] == Front(s)[i] && s[i] in Front(s);
    }
  }

  lemma StrictByLast<T(!new)>(s: seq<T>, key: T -> int)
    requires s != []
    ensures StrictlyOrdered(s, key) <==> StrictlyOrdered(Front(s), key) && Under(Front(s), key(Last(s)), key)
  {
    if StrictlyOrdered(Front(s), key) && Under(Front(s), key(Last(s)), key) {
      assert forall i :: 0 <= i < |s| - 1 ==> s[i] == Front(s)[i] && s[i] in Front(s);
    }
  }

  lemma DistinctByLast<T(!new)>(s: seq<T>, key: T -> int)
    requires s != []
    ensures DistinctKeys(s, key) <==> DistinctKeys(Front(s), key) && Without(Front(s), key(Last(s)), key)
  {
    if DistinctKeys(Front(s), key) && Without(Front(s), key(Last(s)), key) {
      assert forall i :: 0 <= i < |s| - 1 ==> s[i] == Front(s)[i] && s[i] in Front(s);
    }
  }

  lemma MembersByLast<T(!new)>(s: seq<T>)
    requires s != []
    ensures forall y :: y in s <==> y in Front(s) || y == Last(s)
  {
    assert s == Front(s) + [Last(s)];
  }

  lemma AppendedLast<T(!new)>(s: seq<T>, x: T)
    ensures Front(s + [x]) == s && Last(s + [x]) == x
  {
  }

  lemma InsertedMembers<T(!new)>(s: seq<T>, x: T, key: T -> int)
    ensures forall y :: y in Insert(s, x, key) <==> y in s || y == x
  {
    InsertAdds(s, x, key);
    assert multiset(s + [x]) == multiset(Insert(s, x, key));
    SameMembers(Insert(s, x, key), s + [x]);
  }

  /** Every key of the sequence is below, or at most, `top`. */
  ghost predicate AtMost<T(!new)>(s: seq<T>, top: int, key: T -> int) {
    forall y <- s :: key(y) <= top
  }

  ghost predicate Under<T(!new)>(s: seq<T>, top: int, key: T -> int) {
    forall y <- s :: key(y) < top
  }

  ghost predicate Without<T(!new)>(s: seq<T>, k: int, key: T -> int) {
    forall y <- s :: key(y) != k
  }

  lemma InsertBounds<T(!new)>(s: seq<T>, x: T, top: int, key: T -> int)
    ensures AtMost(Insert(s, x, key), top, key) <==> AtMost(s, top, key) && key(x) <= top
    ensures Under(Insert(s, x, key), top, key) <==> Under(s, top, key) && key(x) < top
  {
    hide Insert;
    InsertedMembers(s, x, key);
  }

  lemma BoundsByLast<T(!new)>(s: seq<T>, top: int, key: T -> int)
    requires s != []
    ensures AtMost(s, top, key) <==> AtMost(Front(s), top, key) && key(Last(s)) <= top
    ensures Under(s, top, key) <==> Under(Front(s), top, key) && key(Last(s)) < top
    ensures Without(s, top, key) <==> Without(Front(s), top, key) && key(Last(s)) != top
  {
    hide Front, Last;
    MembersByLast(s);
  }

  lemma AtMostGrows<T(!new)>(s: seq<T>, low: int, top: int, key: T -> int)
    requires AtMost(s, low, key) && low <= top
    ensures AtMost(s, top, key) && (low < top ==> Under(s, top, key) && Without(s, top, key))
  {
  }

  lemma {:induction false} InsertKeepsOrder<T(!new)>(s: seq<T>, x: T, key: T -> int)
    requires Ordered(s, key)
    ensures Ordered(Insert(s, x, key), key)
    ensures StrictlyOrdered(Insert(s, x, key), key) <==> StrictlyOrdered(s, key) && Without(s, key(x), key)
    decreases |s|
  {
    hide Ordered, StrictlyOrdered, AtMost, Under, Without, Front, Last;
    if s == [] {
      AppendedLast(s, x);
      OrderedByLast(s + [x], key);
      StrictByLast(s + [x], key);
      EmptyBounds<T>(key(x), key);
    } else {
      var front, last := Front(s), Last(s);
      OrderedByLast(s, key);
      StrictByLast(s, key);
      BoundsByLast(s, key(x), key);
      if key(last) > key(x) {
        InsertKeepsOrder(front, x, key);
        InsertBounds(front, x, key(last), key);
        AppendedLast(Insert(front, x, key), last);
        OrderedByLast(Insert(front, x, key) + [last], key);
        StrictByLast(Insert(front, x, key) + [last], key);
      } else {
        AtMostGrows(front, key(last), key(x), key);
        AppendedLast(s, x);
        OrderedByLast(s + [x], key);
        StrictByLast(s + [x], key);
      }
    }
  }

  lemma EmptyBounds<T(!new)>(top: int, key: T -> int)
    ensures AtMost([], top, key) && Under([], top, key) && Without([], top, key)
    ensures Ordered([], key) && StrictlyOrdered([], key)
  {
  }

  /** Sorting puts the keys in order, strictly exactly when no key occurs twice. */
  lemma {:induction false} SortingOrders<T(!new)>(s: seq<T>, key: T -> int)
    ensures Ordered(SortedBy(s, key), key)
    ensures StrictlyOrdered(SortedBy(s, key), key) <==> DistinctKeys(s, key)
    decreases |s|
  {
    if s != [] {
      hide Insert, StrictlyOrdered, DistinctKeys, Ordered, Without, Front, Last;
      SortingOrders(Front(s), key);
      InsertKeepsOrder(SortedBy(Front(s), key), Last(s), key);
      DistinctByLast(s, key);
      SortingKeepsKeys(Front(s), key(Last(s)), key);
    }
  }

  lemma SortingKeepsKeys<T(!new)>(s: seq<T>, k: int, key: T -> int)
    ensures Without(SortedBy(s, key), k, key) <==> Without(s, k, key)
  {
    hide SortedBy;
    SortingKeepsElements(s, key);
  }

  /** What is in order already is left as it is. */
  lemma {:induction false} SortingKeepsOrder<T(!new)>(s: seq<T>, key: T -> int)
    requires Ordered(s, key)
    ensures SortedBy(s, key) == s
    decreases |s|
  {
    if s != [] {
      hide Ordered;
      OrderedByLast(s, key);
      SortingKeepsOrder(Front(s), key);
      assert s == Front(s) + [Last(s)];
    }
  }

  /** The elements with one key, in order. */
  function WithKey<T(!new)>(s: seq<T>, k: int, key: T -> int): seq<T> {
    if s == [] then [] else WithKey(Front(s), k, key) + if key(Last(s)) == k then [Last(s)] else []
  }

  lemma WithKeyOfMore<T(!new)>(s: seq<T>, x: T, k: int, key: T -> int)
    ensures WithKey(s + [x], k, key) == WithKey(s, k, key) + if key(x) == k then [x] else []
  {
    assert Front(s + [x]) == s && Last(s + [x]) == x;
  }

  lemma {:induction false} InsertIsStable<T(!new)>(s: seq<T>, x: T, k: int, key: T -> int)
    ensures WithKey(Insert(s, x, key), k, key) == WithKey(s, k, key) + if key(x) == k then [x] else []
    decreases |s|
  {
    WithKeyOfMore(s, x, k, key);
    if s != [] && key(Last(s)) > key(x) {
      InsertIsStable(Front(s), x, k, key);
      WithKeyOfMore(Insert(Front(s), x, key), Last(s), k, key);
      hide Insert;
    }
  }

  /** Elements with equal keys keep their order. */
  lemma {:induction false} SortingIsStable<T(!new)>(s: seq<T>, k: int, key: T -> int)
    ensures WithKey(SortedBy(s, key), k, key) == WithKey(s, k, key)
    decreases |s|
  {
    if s != [] {
      SortingIsStable(Front(s), k, key);
      InsertIsStable(SortedBy(Front(s), key), Last(s), k, key);
    }
  }
}

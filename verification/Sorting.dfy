/**
 Sorting by a comparison, as the rail and the spawn tree use it: `before(l, r)` stands for a comparator
 that is negative on l and r. The sort is a permutation whatever the comparison, and in order when the
 comparison is a strict weak order, which the comparators built here are.
 */
module Sorting {

  function Insert<T(!new)>(x: T, sorted: seq<T>, before: (T, T) -> bool): (r: seq<T>)
    ensures forall y :: y in r <==> y == x || y in sorted
  {
    if sorted == [] then [x]
    else if before(x, sorted[0]) then [x] + sorted
    else [sorted[0]] + Insert(x, sorted[1..], before)
  }

  function Sort<T(!new)>(xs: seq<T>, before: (T, T) -> bool): (r: seq<T>)
    ensures forall y :: y in r <==> y in xs
  {
    if xs == [] then []
    else
      var last := |xs| - 1;
      assert xs == xs[..last] + [xs[last]];
      Insert(xs[last], Sort(xs[..last], before), before)
  }

  lemma {:induction false} InsertPermutes<T(!new)>(x: T, sorted: seq<T>, before: (T, T) -> bool)
    ensures multiset(Insert(x, sorted, before)) == multiset(sorted) + multiset{x}
  {
    if sorted != [] && !before(x, sorted[0]) {
      InsertPermutes(x, sorted[1..], before);
      assert sorted == [sorted[0]] + sorted[1..];
    }
  }

  lemma {:induction false} SortPermutes<T(!new)>(xs: seq<T>, before: (T, T) -> bool)
    ensures multiset(Sort(xs, before)) == multiset(xs)
    ensures |Sort(xs, before)| == |xs|
  {
    if xs != [] {
      var last := |xs| - 1;
      SortPermutes(xs[..last], before);
      InsertPermutes(xs[last], Sort(xs[..last], before), before);
      assert xs == xs[..last] + [xs[last]];
    }
    assert |multiset(Sort(xs, before))| == |multiset(xs)|;
  }

  // ---------------------------------------------------------------- order

  /** A total order up to ties. */
  ghost predicate StrictWeakOrder<T(!new)>(before: (T, T) -> bool) {
    && (forall a, b :: before(a, b) ==> !before(b, a))
    && (forall a, b, c :: before(a, c) ==> before(a, b) || before(b, c))
  }

  predicate InOrder<T>(xs: seq<T>, before: (T, T) -> bool) {
    forall i, j :: 0 <= i < j < |xs| ==> !before(xs[j], xs[i])
  }

  lemma {:induction false} InsertInOrder<T(!new)>(x: T, sorted: seq<T>, before: (T, T) -> bool)
    requires StrictWeakOrder(before) && InOrder(sorted, before)
    ensures InOrder(Insert(x, sorted, before), before)
  {
    if sorted != [] {
      if before(x, sorted[0]) {
        forall j | 0 <= j < |sorted| ensures !before(sorted[j], x) {
          assert !before(sorted[j], sorted[0]);
          assert before(x, sorted[j]);
        }
      } else {
        InsertInOrder(x, sorted[1..], before);
        var rest := Insert(x, sorted[1..], before);
        forall j | 0 <= j < |rest| ensures !before(rest[j], sorted[0]) { assert rest[j] in rest; }
      }
    }
  }

  lemma {:induction false} SortInOrder<T(!new)>(xs: seq<T>, before: (T, T) -> bool)
    requires StrictWeakOrder(before)
    ensures InOrder(Sort(xs, before), before)
  {
    if xs != [] {
      var last := |xs| - 1;
      SortInOrder(xs[..last], before);
      InsertInOrder(xs[last], Sort(xs[..last], before), before);
    }
  }

  // ---------------------------------------------------------------- distinct keys

  predicate DistinctBy<T>(xs: seq<T>, key: T -> string) {
    forall i, j :: 0 <= i < j < |xs| ==> key(xs[i]) != key(xs[j])
  }

  lemma {:induction false} InsertDistinct<T(!new)>(x: T, sorted: seq<T>, before: (T, T) -> bool, key: T -> string)
    requires DistinctBy(sorted, key) && forall y :: y in sorted ==> key(y) != key(x)
    ensures DistinctBy(Insert(x, sorted, before), key)
  {
    if sorted != [] && !before(x, sorted[0]) {
      InsertDistinct(x, sorted[1..], before, key);
      var rest := Insert(x, sorted[1..], before);
      forall j | 0 <= j < |rest| ensures key(rest[j]) != key(sorted[0]) { assert rest[j] in rest; }
    }
  }

  lemma {:induction false} SortDistinct<T(!new)>(xs: seq<T>, before: (T, T) -> bool, key: T -> string)
    requires DistinctBy(xs, key)
    ensures DistinctBy(Sort(xs, before), key)
  {
    if xs != [] {
      var last := |xs| - 1;
      SortDistinct(xs[..last], before, key);
      InsertDistinct(xs[last], Sort(xs[..last], before), before, key);
    }
  }

  // ---------------------------------------------------------------- comparators

  /** By a string of the element; `collate` stands for a negative localeCompare. */
  function ByKey<T>(key: T -> string, collate: (string, string) -> bool): (T, T) -> bool {
    (l: T, r: T) => collate(key(l), key(r))
  }

  /** By a number first, ties by another comparison. */
  function ByRank<T>(rank: T -> int, tie: (T, T) -> bool): (T, T) -> bool {
    (l: T, r: T) => rank(l) < rank(r) || (rank(l) == rank(r) && tie(l, r))
  }

  lemma ByKeyOrders<T(!new)>(key: T -> string, collate: (string, string) -> bool)
    requires StrictWeakOrder(collate)
    ensures StrictWeakOrder(ByKey(key, collate))
  {
    var before := ByKey(key, collate);
    forall a: T, b: T, c: T | before(a, c) ensures before(a, b) || before(b, c) {
      assert collate(key(a), key(c));
      assert collate(key(a), key(b)) || collate(key(b), key(c));
    }
  }

  lemma ByRankOrders<T(!new)>(rank: T -> int, tie: (T, T) -> bool)
    requires StrictWeakOrder(tie)
    ensures StrictWeakOrder(ByRank(rank, tie))
  {
    var before := ByRank(rank, tie);
    forall a, b, c | before(a, c) ensures before(a, b) || before(b, c) {
      if rank(a) == rank(b) == rank(c) { assert tie(a, b) || tie(b, c); }
    }
  }

  /** Elements with the same keys are in the same order. */
  lemma SameKeysInOrder<T, U>(xs: seq<T>, key: T -> string, ys: seq<U>, other: U -> string, collate: (string, string) -> bool)
    requires |xs| == |ys| && forall i :: 0 <= i < |xs| ==> key(xs[i]) == other(ys[i])
    requires InOrder(xs, ByKey(key, collate))
    ensures InOrder(ys, ByKey(other, collate))
  {
    forall i, j | 0 <= i < j < |ys| ensures !collate(other(ys[j]), other(ys[i])) {
      assert !ByKey(key, collate)(xs[j], xs[i]);
    }
  }
}

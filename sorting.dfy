/**
 * The `sort_values` the kiosk applies to a column, as one insertion sort over
 * any total preorder. The kiosk sorts points by day and machines by Kod; only
 * sortedness and permutation are promised, not the order of equal keys.
 */
module Sorting {

  /** `le` relates any two elements one way or the other. */
  ghost predicate Total<T(!new)>(le: (T, T) -> bool) {
    forall a, b :: le(a, b) || le(b, a)
  }

  ghost predicate Transitive<T(!new)>(le: (T, T) -> bool) {
    forall a, b, c :: le(a, b) && le(b, c) ==> le(a, c)
  }

  predicate SortedBy<T>(xs: seq<T>, le: (T, T) -> bool) {
    forall i, j :: 0 <= i < j < |xs| ==> le(xs[i], xs[j])
  }

  /** An element at most every element of a sorted list can go in front of it. */
  lemma ConsSorted<T>(x: T, xs: seq<T>, le: (T, T) -> bool)
    requires SortedBy(xs, le)
    requires forall y :: y in xs ==> le(x, y)
    ensures SortedBy([x] + xs, le)
  {
    var r := [x] + xs;
    forall i, j | 0 <= i < j < |r| ensures le(r[i], r[j]) {
      assert r[j] == xs[j - 1];
      if i > 0 {
        assert r[i] == xs[i - 1];
      } else {
        assert xs[j - 1] in xs;
      }
    }
  }

  /** Inserting into a sorted list keeps it sorted and adds just that element. */
  function InsertBy<T(!new)>(x: T, xs: seq<T>, le: (T, T) -> bool): (r: seq<T>)
    requires Total(le) && Transitive(le)
    requires SortedBy(xs, le)
    ensures SortedBy(r, le)
    ensures multiset(r) == multiset(xs) + multiset{x}
    decreases |xs|
  {
    if xs == [] || le(x, xs[0]) then
      forall y | y in xs ensures le(x, y) {
        var m :| 0 <= m < |xs| && xs[m] == y;
        if m > 0 {
          assert le(xs[0], xs[m]);
        }
      }
      ConsSorted(x, xs, le);
      [x] + xs
    else
      var rest := InsertBy(x, xs[1..], le);
      assert xs == [xs[0]] + xs[1..];
      forall y | y in rest ensures le(xs[0], y) {
        assert y in multiset(rest);
        if y != x {
          var m :| 0 <= m < |xs[1..]| && xs[1..][m] == y;
          assert xs[m + 1] == y;
        }
      }
      ConsSorted(xs[0], rest, le);
      [xs[0]] + rest
  }

  /** The sorted permutation of `xs` under `le`. */
  function SortBy<T(!new)>(xs: seq<T>, le: (T, T) -> bool): (r: seq<T>)
    requires Total(le) && Transitive(le)
    ensures SortedBy(r, le)
    ensures multiset(r) == multiset(xs)
    decreases |xs|
  {
    if xs == [] then []
    else
      assert xs == [xs[0]] + xs[1..];
      InsertBy(xs[0], SortBy(xs[1..], le), le)
  }
}

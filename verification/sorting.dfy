/**
 * Insertion sort by a total preorder, used wherever the source calls Python's
 * `sorted` / `list.sort` / `DataFrame.sort_values`. The contracts say only
 * that the result is ordered and a permutation of the input; the order of
 * equal elements is not promised. (Python's `list.sort` is stable, while
 * `sort_values` with its default quicksort is not.)
 */
module Sorting {

  ghost predicate TotalPreorder<T(!new)>(leq: (T, T) -> bool)
  {
    && (forall a, b :: leq(a, b) || leq(b, a))
    && (forall a, b, c :: leq(a, b) && leq(b, c) ==> leq(a, c))
  }

  predicate SortedBy<T>(xs: seq<T>, leq: (T, T) -> bool)
  {
    forall i, j :: 0 <= i < j < |xs| ==> leq(xs[i], xs[j])
  }

  function Insert<T>(x: T, xs: seq<T>, leq: (T, T) -> bool): (r: seq<T>)
    ensures |r| == |xs| + 1
    ensures multiset(r) == multiset(xs) + multiset{x}
  {
    if xs == [] || leq(x, xs[0]) then [x] + xs
    else
      assert xs == [xs[0]] + xs[1..];
      [xs[0]] + Insert(x, xs[1..], leq)
  }

  function Sort<T>(xs: seq<T>, leq: (T, T) -> bool): (r: seq<T>)
    ensures |r| == |xs|
    ensures multiset(r) == multiset(xs)
  {
    if xs == [] then []
    else
      assert xs == [xs[0]] + xs[1..];
      Insert(xs[0], Sort(xs[1..], leq), leq)
  }

  lemma {:induction false} InsertSorted<T(!new)>(x: T, xs: seq<T>, leq: (T, T) -> bool)
    requires TotalPreorder(leq)
    requires SortedBy(xs, leq)
    ensures SortedBy(Insert(x, xs, leq), leq)
  {
    if xs == [] || leq(x, xs[0]) {
      var r := [x] + xs;
      forall i, j | 0 <= i < j < |r| ensures leq(r[i], r[j]) {
        if i == 0 && j > 1 {
          assert leq(xs[0], xs[j - 1]);
        }
      }
    } else {
      assert leq(xs[0], x);
      var tail := Insert(x, xs[1..], leq);
      InsertSorted(x, xs[1..], leq);
      var r := [xs[0]] + tail;
      forall j | 0 <= j < |tail| ensures leq(xs[0], tail[j]) {
        assert tail[j] in multiset(tail);
        assert tail[j] == x || tail[j] in multiset(xs[1..]);
        if tail[j] != x {
          var m :| 0 <= m < |xs[1..]| && xs[1..][m] == tail[j];
          assert xs[1..][m] == xs[m + 1];
        }
      }
      forall i, j | 0 <= i < j < |r| ensures leq(r[i], r[j]) {
        if i > 0 {
          assert r[i] == tail[i - 1] && r[j] == tail[j - 1];
        } else {
          assert r[j] == tail[j - 1];
        }
      }
    }
  }

  /** The result of `Sort` is ordered by `leq` (and, by its contract, a permutation of the input). */
  lemma {:induction false} SortSorted<T(!new)>(xs: seq<T>, leq: (T, T) -> bool)
    requires TotalPreorder(leq)
    ensures SortedBy(Sort(xs, leq), leq)
  {
    if xs != [] {
      SortSorted(xs[1..], leq);
      InsertSorted(xs[0], Sort(xs[1..], leq), leq);
    }
  }

  lemma TailMultiset<T>(a: seq<T>, b: seq<T>)
    requires a != [] && b != [] && a[0] == b[0]
    requires multiset(a) == multiset(b)
    ensures multiset(a[1..]) == multiset(b[1..])
  {
    assert a == [a[0]] + a[1..] && b == [b[0]] + b[1..];
    assert multiset(a[1..]) == multiset(a) - multiset{a[0]};
    assert multiset(b[1..]) == multiset(b) - multiset{b[0]};
  }

  /** Removing the same element from both sides of a permutation leaves a permutation. */
  lemma MultisetRemove<T>(a: seq<T>, b: seq<T>, j: nat)
    requires a != [] && j < |b| && b[j] == a[0]
    requires multiset(a) == multiset(b)
    ensures multiset(a[1..]) == multiset(b[..j] + b[j + 1..])
  {
    assert a == [a[0]] + a[1..];
    assert b == b[..j] + [b[j]] + b[j + 1..];
    assert multiset(a[1..]) == multiset(a) - multiset{a[0]};
    assert multiset(b[..j] + b[j + 1..]) == multiset(b) - multiset{b[j]};
  }

  /**
   * Two orderings of the same elements that are both sorted are the same
   * sequence, when no two distinct elements are equivalent under `leq`.
   */
  lemma {:induction false} SortedUnique<T>(a: seq<T>, b: seq<T>, leq: (T, T) -> bool)
    requires SortedBy(a, leq) && SortedBy(b, leq)
    requires multiset(a) == multiset(b)
    requires forall x, y :: x in a && y in a && leq(x, y) && leq(y, x) ==> x == y
    ensures a == b
    decreases |a|
  {
    assert |a| == |multiset(a)| == |multiset(b)| == |b|;
    if a != [] {
      assert a[0] in multiset(b);
      var j :| 0 <= j < |b| && b[j] == a[0];
      assert b[0] in multiset(a);
      var i :| 0 <= i < |a| && a[i] == b[0];
      if i != 0 && j != 0 {
        assert leq(a[0], a[i]) && leq(b[0], b[j]);
        assert a[0] in a && b[0] in a;
      }
      assert a[0] == b[0];
      TailMultiset(a, b);
      var a', b' := a[1..], b[1..];
      assert forall x :: x in a' ==> x in a;
      SortedUnique(a', b', leq);
      assert a == [a[0]] + a' && b == [b[0]] + b';
    }
  }
}

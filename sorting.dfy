/** Ascending order by an integer key, and insertion into a sorted sequence:
    the order the seat summary shows and the order trips are listed in. */
module Sorting {

  predicate SortedBy<T>(xs: seq<T>, key: T -> int) {
    forall i, j :: 0 <= i < j < |xs| ==> key(xs[i]) <= key(xs[j])
  }

  /** Inserts `x` after every element whose key is smaller than its own:
      the result is sorted and holds exactly the old elements and `x`. */
  function InsertBy<T>(x: T, xs: seq<T>, key: T -> int): (r: seq<T>)
    requires SortedBy(xs, key)
    ensures SortedBy(r, key)
    ensures multiset(r) == multiset(xs) + multiset{x}
  {
    if xs == [] || key(x) <= key(xs[0]) then
      PrependSorted(x, xs, key);
      [x] + xs
    else
      var tail := InsertBy(x, xs[1..], key);
      BoundAfterInsert(xs[0], x, xs[1..], tail, key);
      PrependSorted(xs[0], tail, key);
      assert xs == [xs[0]] + xs[1..];
      [xs[0]] + tail
  }

  /** A sorted sequence stays sorted under a head whose key is at most the
      first key. */
  lemma PrependSorted<T>(h: T, xs: seq<T>, key: T -> int)
    requires SortedBy(xs, key)
    requires xs == [] || key(h) <= key(xs[0])
    ensures SortedBy([h] + xs, key)
  {
    var r := [h] + xs;
    forall i, j | 0 <= i < j < |r|
      ensures key(r[i]) <= key(r[j])
    {
      if i == 0 {
        assert r[j] == xs[j - 1];
        assert key(xs[0]) <= key(xs[j - 1]);
      } else {
        assert r[i] == xs[i - 1] && r[j] == xs[j - 1];
      }
    }
  }

  /** Every element of a sequence holding `rest` and `x` has a key at least
      that of `h`, when `x` and every element of `rest` do. */
  lemma BoundAfterInsert<T>(h: T, x: T, rest: seq<T>, tail: seq<T>, key: T -> int)
    requires SortedBy(rest, key)
    requires multiset(tail) == multiset(rest) + multiset{x}
    requires key(h) <= key(x)
    requires rest != [] ==> key(h) <= key(rest[0])
    ensures tail == [] || key(h) <= key(tail[0])
  {
    if tail != [] {
      assert tail[0] in multiset(tail);
      if tail[0] != x {
        assert tail[0] in multiset(rest);
        var j :| 0 <= j < |rest| && rest[j] == tail[0];
        assert key(rest[0]) <= key(rest[j]);
      }
    }
  }

  /** A sorted permutation of `xs` (stable insertion sort). */
  function SortBy<T>(xs: seq<T>, key: T -> int): (r: seq<T>)
    ensures SortedBy(r, key)
    ensures multiset(r) == multiset(xs)
  {
    if xs == [] then []
    else
      assert xs == [xs[0]] + xs[1..];
      InsertBy(xs[0], SortBy(xs[1..], key), key)
  }
}

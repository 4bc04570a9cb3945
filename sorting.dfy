/** A sort by an arbitrary total preorder, standing in for pandas' `sort_values`.
    pandas' default sort is not stable, so nothing beyond "ordered" and "a
    permutation of the input" is ever claimed about its results. */
module Sorting {

  ghost predicate TotalPreorder<T(!new)>(le: (T, T) -> bool)
  {
    && (forall a, b :: le(a, b) || le(b, a))
    && (forall a, b, c :: le(a, b) && le(b, c) ==> le(a, c))
  }

  ghost predicate Sorted<T>(s: seq<T>, le: (T, T) -> bool)
  {
    forall i, j :: 0 <= i < j < |s| ==> le(s[i], s[j])
  }

  function Insert<T>(x: T, s: seq<T>, le: (T, T) -> bool): (r: seq<T>)
    ensures |r| == |s| + 1
    ensures multiset(r) == multiset(s) + multiset{x}
    decreases |s|
  {
    if s == [] then [x]
    else if le(x, s[0]) then [x] + s
    else
      assert s == [s[0]] + s[1..];
      [s[0]] + Insert(x, s[1..], le)
  }

  function Sort<T>(s: seq<T>, le: (T, T) -> bool): (r: seq<T>)
    ensures |r| == |s|
    ensures multiset(r) == multiset(s)
    decreases |s|
  {
    if s == [] then []
    else
      assert s == [s[0]] + s[1..];
      Insert(s[0], Sort(s[1..], le), le)
  }

  lemma {:induction false} InsertSorted<T(!new)>(x: T, s: seq<T>, le: (T, T) -> bool)
    requires TotalPreorder(le) && Sorted(s, le)
    ensures Sorted(Insert(x, s, le), le)
    decreases |s|
  {
    if s != [] && !le(x, s[0]) {
      var tail := Insert(x, s[1..], le);
      InsertSorted(x, s[1..], le);
      assert le(s[0], x);
      forall y | y in tail ensures le(s[0], y) {
        assert y in multiset(tail);
        if y != x {
          assert y in s[1..];
        }
      }
    }
  }

  lemma {:induction false} SortSorted<T(!new)>(s: seq<T>, le: (T, T) -> bool)
    requires TotalPreorder(le)
    ensures Sorted(Sort(s, le), le)
    decreases |s|
  {
    if s != [] {
      SortSorted(s[1..], le);
      InsertSorted(s[0], Sort(s[1..], le), le);
    }
  }

  /** A sorted permutation of `s`: the ordering and permutation facts together. */
  lemma SortSpec<T(!new)>(s: seq<T>, le: (T, T) -> bool)
    requires TotalPreorder(le)
    ensures Sorted(Sort(s, le), le) && multiset(Sort(s, le)) == multiset(s)
  {
    SortSorted(s, le);
  }

  /** In a sorted sequence every element of a prefix is ordered before every
      element left out of it. */
  lemma PrefixBeforeRest<T>(s: seq<T>, le: (T, T) -> bool, k: nat, a: T, b: T)
    requires Sorted(s, le) && k <= |s|
    requires a in s[..k] && b in multiset(s) - multiset(s[..k])
    ensures le(a, b)
  {
    assert s == s[..k] + s[k..];
    assert multiset(s) == multiset(s[..k]) + multiset(s[k..]);
    assert b in multiset(s[k..]);
    var i :| 0 <= i < k && s[i] == a;
    var j :| k <= j < |s| && s[j] == b;
  }

  /** A prefix of a sorted sequence is sorted and drawn from it. */
  lemma SortedPrefix<T>(s: seq<T>, le: (T, T) -> bool, k: nat)
    requires Sorted(s, le) && k <= |s|
    ensures Sorted(s[..k], le)
    ensures multiset(s[..k]) <= multiset(s)
  {
    assert s == s[..k] + s[k..];
    assert multiset(s) == multiset(s[..k]) + multiset(s[k..]);
  }

  /** Every element of a sorted sequence lies between its first and last. */
  lemma SortedEnds<T(!new)>(s: seq<T>, le: (T, T) -> bool, x: T)
    requires Sorted(s, le) && TotalPreorder(le) && x in s
    ensures le(s[0], x) && le(x, s[|s| - 1])
  {
    var k :| 0 <= k < |s| && s[k] == x;
  }
}

/**
 * The numeric sort `xs.sort((a, b) => a - b)` used on frequency lists.
 * The engine's own algorithm is not specified; any algorithm yields the one
 * ascending permutation of its input (SortedPermutationUnique), so an
 * insertion sort stands for it here.
 */
module Sorting {

  /** Non-decreasing order. */
  predicate Sorted(s: seq<int>)
  {
    forall i, j :: 0 <= i < j < |s| ==> s[i] <= s[j]
  }

  /** Places x before the first element it does not exceed. */
  function InsertSorted(x: int, s: seq<int>): (r: seq<int>)
    ensures |r| == |s| + 1
  {
    if s == [] || x <= s[0] then
      [x] + s
    else
      [s[0]] + InsertSorted(x, s[1..])
  }

  /** Inserting into a sorted sequence keeps it sorted and adds exactly that value. */
  lemma {:induction false} InsertSortedSpec(x: int, s: seq<int>)
    requires Sorted(s)
    ensures Sorted(InsertSorted(x, s))
    ensures multiset(InsertSorted(x, s)) == multiset(s) + multiset{x}
  {
    if s == [] || x <= s[0] {
      var w := [x] + s;
      forall i, j | 0 <= i < j < |w| ensures w[i] <= w[j] {
        assert w[j] == s[j - 1];
        if i > 0 {
          assert w[i] == s[i - 1];
        } else {
          assert s[0] <= s[j - 1];
        }
      }
    } else {
      SortedTail(s);
      InsertSortedSpec(x, s[1..]);
      assert s == [s[0]] + s[1..];
      LowerBound(s[0], s[1..], x, InsertSorted(x, s[1..]));
    }
  }

  /** A value no larger than a sorted list's elements can go in front of it. */
  lemma LowerBound(h: int, tail: seq<int>, x: int, rest: seq<int>)
    requires Sorted([h] + tail) && h <= x
    requires Sorted(rest) && multiset(rest) == multiset(tail) + multiset{x}
    ensures Sorted([h] + rest)
  {
    forall k | 0 <= k < |rest| ensures h <= rest[k] {
      var v := rest[k];
      assert v in multiset(rest);
      if v != x {
        assert v in multiset(tail);
        assert v in tail;
        var i :| 0 <= i < |tail| && tail[i] == v;
        assert ([h] + tail)[0] == h && ([h] + tail)[i + 1] == v;
      }
    }
    var w := [h] + rest;
    forall i, j | 0 <= i < j < |w| ensures w[i] <= w[j] {
      if i > 0 {
        assert w[i] == rest[i - 1] && w[j] == rest[j - 1];
      }
    }
  }

  /** Insertion sort from the back: the last element goes into the sorted rest. */
  function SortAscending(s: seq<int>): (r: seq<int>)
    ensures |r| == |s|
  {
    if s == [] then [] else InsertSorted(s[|s| - 1], SortAscending(s[..|s| - 1]))
  }

  /** The sort returns the ascending permutation of its input. */
  lemma {:induction false} SortAscendingSpec(s: seq<int>)
    ensures Sorted(SortAscending(s))
    ensures multiset(SortAscending(s)) == multiset(s)
  {
    if s != [] {
      var init := s[..|s| - 1];
      SortAscendingSpec(init);
      InsertSortedSpec(s[|s| - 1], SortAscending(init));
      assert s == init + [s[|s| - 1]];
    }
  }

  /** The first element of a sorted sequence is its least. */
  lemma HeadIsLeast(a: seq<int>, v: int)
    requires Sorted(a) && v in a
    ensures a[0] <= v
  {
    var i :| 0 <= i < |a| && a[i] == v;
  }

  /** Dropping the first element keeps a sequence sorted. */
  lemma SortedTail(a: seq<int>)
    requires Sorted(a) && a != []
    ensures Sorted(a[1..])
  {
    forall i, j | 0 <= i < j < |a| - 1 ensures a[1..][i] <= a[1..][j] {
      assert a[1..][i] == a[i + 1] && a[1..][j] == a[j + 1];
    }
  }

  /** Removing the first element removes one occurrence of it. */
  lemma TailMultiset(a: seq<int>)
    requires a != []
    ensures multiset(a[1..]) == multiset(a) - multiset{a[0]}
  {
    assert a == [a[0]] + a[1..];
  }

  /** Two sorted sequences holding the same values are equal: sorting has exactly one possible result. */
  lemma {:induction false} SortedPermutationUnique(a: seq<int>, b: seq<int>)
    requires Sorted(a) && Sorted(b)
    requires multiset(a) == multiset(b)
    ensures a == b
  {
    assert |a| == |multiset(a)| == |multiset(b)| == |b|;
    if a != [] {
      assert a[0] in multiset(b) && b[0] in multiset(a);
      HeadIsLeast(b, a[0]);
      HeadIsLeast(a, b[0]);
      assert a[0] == b[0];
      TailMultiset(a);
      TailMultiset(b);
      SortedTail(a);
      SortedTail(b);
      SortedPermutationUnique(a[1..], b[1..]);
      assert a == [a[0]] + a[1..] && b == [b[0]] + b[1..];
    }
  }
}

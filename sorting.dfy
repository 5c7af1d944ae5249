/**
 * `Array.prototype.sort(cmp)`: a stable sort by a comparator that returns a
 * negative, zero or positive number. The result is ordered by the comparator
 * and a permutation of the input. Step numbers are sorted with
 * `(a, b) => a - b`.
 */
module Sorting {
  /** Swapping the arguments negates the result, as a consistent comparator does. */
  ghost predicate Antisymmetric<T(!new)>(cmp: (T, T) -> int)
  {
    forall a, b :: cmp(a, b) == -cmp(b, a)
  }

  /** Every element compares at most equal to its successor. */
  predicate SortedBy<T>(cmp: (T, T) -> int, s: seq<T>)
  {
    forall i :: 0 <= i < |s| - 1 ==> cmp(s[i], s[i + 1]) <= 0
  }

  /** `x` placed before the first element it sorts strictly before, so after any equal ones. */
  function InsertBy<T(!new)>(cmp: (T, T) -> int, x: T, s: seq<T>): (r: seq<T>)
    ensures multiset(r) == multiset(s) + multiset{x}
    ensures |r| == |s| + 1 && (r[0] == x || (|s| > 0 && r[0] == s[0]))
  {
    if |s| == 0 || cmp(x, s[0]) < 0 then
      assert ([x] + s)[1..] == s;
      [x] + s
    else
      assert s == [s[0]] + s[1..];
      [s[0]] + InsertBy(cmp, x, s[1..])
  }

  /** Inserting into a sorted sequence by a consistent comparator keeps it sorted. */
  lemma {:induction false} InsertBySorted<T(!new)>(cmp: (T, T) -> int, x: T, s: seq<T>)
    ensures Antisymmetric(cmp) && SortedBy(cmp, s) ==> SortedBy(cmp, InsertBy(cmp, x, s))
  {
    if Antisymmetric(cmp) && SortedBy(cmp, s) && |s| > 0 && cmp(x, s[0]) >= 0 {
      var rest := InsertBy(cmp, x, s[1..]);
      assert SortedBy(cmp, s[1..]) by {
        assert forall i :: 0 <= i < |s| - 2 ==> s[1..][i] == s[i + 1];
      }
      InsertBySorted(cmp, x, s[1..]);
      assert cmp(s[0], rest[0]) <= 0 by {
        assert cmp(s[0], x) == -cmp(x, s[0]);
      }
      assert forall i :: 0 < i < |rest| ==> ([s[0]] + rest)[i] == rest[i - 1];
    }
  }

  /**
   * `s.sort(cmp)`: insertion sort, each element inserted after the equal ones
   * before it; ordered by `cmp` whenever `cmp` is consistent.
   */
  function SortBy<T(!new)>(cmp: (T, T) -> int, s: seq<T>): (r: seq<T>)
    ensures Antisymmetric(cmp) ==> SortedBy(cmp, r)
    ensures multiset(r) == multiset(s)
  {
    if |s| == 0 then []
    else
      assert s == s[..|s| - 1] + [s[|s| - 1]];
      var sorted := SortBy(cmp, s[..|s| - 1]);
      InsertBySorted(cmp, s[|s| - 1], sorted);
      InsertBy(cmp, s[|s| - 1], sorted)
  }

  /** Sorting keeps exactly the elements it was given. */
  lemma SortByMembers<T(!new)>(cmp: (T, T) -> int, s: seq<T>, x: T)
    ensures x in SortBy(cmp, s) <==> x in s
  {
    assert x in SortBy(cmp, s) <==> x in multiset(SortBy(cmp, s));
    assert x in s <==> x in multiset(s);
  }

  /** Every element is at most its successor. */
  predicate Ascending(s: seq<int>)
  {
    forall i :: 0 <= i < |s| - 1 ==> s[i] <= s[i + 1]
  }

  /** The comparator `(a, b) => a - b`. */
  function Difference(a: int, b: int): int
  {
    a - b
  }

  /** `steps.sort((a, b) => a - b)`: the ascending permutation of `s`. */
  function SortInts(s: seq<int>): (r: seq<int>)
    ensures Ascending(r)
    ensures multiset(r) == multiset(s)
  {
    var r := SortBy(Difference, s);
    assert Antisymmetric(Difference);
    assert forall i :: 0 <= i < |r| - 1 ==> Difference(r[i], r[i + 1]) <= 0;
    r
  }

  /** An ascending sequence is ordered pairwise, not just neighbour by neighbour. */
  lemma {:induction false} AscendingPairwise(s: seq<int>, i: int, j: int)
    requires Ascending(s)
    requires 0 <= i <= j < |s|
    ensures s[i] <= s[j]
    decreases j - i
  {
    if i < j {
      AscendingPairwise(s, i + 1, j);
    }
  }
}

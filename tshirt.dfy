/**
 * The comparator that orders token names by T-shirt size
 * (`src/utils/tshirtSizeSort.ts`): sizes follow their place in the size
 * list, sizes come before other names, and other names fall back to string
 * order.
 */
module TShirtSizes {
  import opened Text
  import opened Sorting

  /** `TSHIRT_SIZE_ORDER`. */
  const SizeOrder: seq<string> := ["none", "5xs", "4xs", "3xs", "2xs", "xs", "sm", "md", "lg", "xl", "2xl", "3xl", "4xl"]

  /** `list.indexOf(name)`: the first position of `name`, or -1. */
  function IndexIn(list: seq<string>, name: string): (i: int)
    ensures -1 <= i < |list|
    ensures i >= 0 ==> list[i] == name && forall k :: 0 <= k < i ==> list[k] != name
    ensures i == -1 <==> name !in list
  {
    if |list| == 0 then -1
    else if list[0] == name then 0
    else
      var j := IndexIn(list[1..], name);
      assert forall x :: x in list ==> x == list[0] || x in list[1..];
      if j == -1 then -1 else j + 1
  }

  function SizeIndex(name: string): int
  {
    IndexIn(SizeOrder, name)
  }

  /** `sortByTShirtSize(a, b)`: negative, zero or positive as `a` sorts before, with or after `b`. */
  function SortByTShirtSize(a: string, b: string): int
  {
    SortBySizes(SizeOrder, a, b)
  }

  /** The comparator's rule for a size list `order`: listed names by position, then the rest by string order. */
  function SortBySizes(order: seq<string>, a: string, b: string): int
  {
    var indexA := IndexIn(order, a);
    var indexB := IndexIn(order, b);
    if indexA != -1 && indexB != -1 then indexA - indexB
    else if indexA != -1 then -1
    else if indexB != -1 then 1
    else Compare(a, b)
  }

  /** No size appears twice in the list. */
  lemma SizesDistinct()
    ensures forall i, j :: 0 <= i < j < |SizeOrder| ==> SizeOrder[i] != SizeOrder[j]
  {
  }

  /** A listed size sits at its own position. */
  lemma SizeIndexOf(i: int)
    requires 0 <= i < |SizeOrder|
    ensures SizeIndex(SizeOrder[i]) == i
  {
    SizesDistinct();
  }

  /** Two sizes compare by their positions in the size list. */
  lemma BothSizes(i: int, j: int)
    requires 0 <= i < |SizeOrder| && 0 <= j < |SizeOrder|
    ensures SortByTShirtSize(SizeOrder[i], SizeOrder[j]) == i - j
  {
    SizeIndexOf(i);
    SizeIndexOf(j);
  }

  /** A size comes before any name that is not a size, in either argument order. */
  lemma SizeBeforeOther(size: string, other: string)
    requires size in SizeOrder && other !in SizeOrder
    ensures SortByTShirtSize(size, other) == -1
    ensures SortByTShirtSize(other, size) == 1
  {
  }

  /** Two names that are not sizes compare as strings. */
  lemma OthersByString(a: string, b: string)
    requires a !in SizeOrder && b !in SizeOrder
    ensures SortByTShirtSize(a, b) == Compare(a, b)
  {
  }

  /** The comparator is zero exactly on equal names and flips sign when its arguments swap. */
  lemma SignFlips(a: string, b: string)
    ensures SortByTShirtSize(a, b) == 0 <==> a == b
    ensures SortByTShirtSize(a, b) == -SortByTShirtSize(b, a)
  {
    SignFlipsIn(SizeOrder, a, b);
  }

  /** Over any size list, the rule is zero exactly on equal names and antisymmetric. */
  lemma SignFlipsIn(order: seq<string>, a: string, b: string)
    ensures SortBySizes(order, a, b) == 0 <==> a == b
    ensures SortBySizes(order, a, b) == -SortBySizes(order, b, a)
  {
    CompareAntisymmetric(a, b);
  }

  /** The comparator is transitive, so it is a strict total order on names. */
  lemma Transitive(a: string, b: string, c: string)
    requires SortByTShirtSize(a, b) < 0 && SortByTShirtSize(b, c) < 0
    ensures SortByTShirtSize(a, c) < 0
  {
    if a !in SizeOrder && b !in SizeOrder && c !in SizeOrder {
      CompareTransitive(a, b, c);
    }
  }

  /** `none` precedes every other size and `4xl` follows every other size. */
  lemma Extremes(size: string)
    requires size in SizeOrder
    ensures size != "none" ==> SortByTShirtSize("none", size) < 0
    ensures size != "4xl" ==> SortByTShirtSize(size, "4xl") < 0
  {
    var i :| 0 <= i < |SizeOrder| && SizeOrder[i] == size;
    BothSizes(0, i);
    BothSizes(i, |SizeOrder| - 1);
  }

  /** The comparator is consistent, so sorting by it orders names. */
  lemma ComparatorConsistent()
    ensures Antisymmetric(SortByTShirtSize)
  {
    forall a: string, b: string
      ensures SortByTShirtSize(a, b) == -SortByTShirtSize(b, a)
    {
      SignFlips(a, b);
    }
  }

  /** The documented example: `['xl', 'sm', '2xl', 'md']` sorts to `['sm', 'md', 'xl', '2xl']`. */
  lemma DocExample()
    ensures SortBy(SortByTShirtSize, ["xl", "sm", "2xl", "md"]) == ["sm", "md", "xl", "2xl"]
  {
    ExampleComparisons();
    SortFour(SortByTShirtSize, "xl", "sm", "2xl", "md");
  }

  /** Insertion sort of four elements whose comparisons fall as in the example. */
  lemma SortFour<T(!new)>(cmp: (T, T) -> int, a: T, b: T, c: T, d: T)
    requires cmp(b, a) < 0 && cmp(c, b) > 0 && cmp(c, a) > 0 && cmp(d, b) > 0 && cmp(d, a) < 0
    ensures SortBy(cmp, [a, b, c, d]) == [b, d, a, c]
  {
    SortThree(cmp, a, b, c);
    SortAppendThree(cmp, a, b, c, d);
    InsertSecond(cmp, d, b, a, c);
  }

  /** The first three elements of the example, sorted. */
  lemma SortThree<T(!new)>(cmp: (T, T) -> int, a: T, b: T, c: T)
    requires cmp(b, a) < 0 && cmp(c, b) > 0 && cmp(c, a) > 0
    ensures SortBy(cmp, [a, b, c]) == [b, a, c]
  {
    SortTwo(cmp, a, b);
    SortAppendTwo(cmp, a, b, c);
    InsertLast(cmp, c, b, a);
  }

  /** Two elements, the second sorting first. */
  lemma SortTwo<T(!new)>(cmp: (T, T) -> int, a: T, b: T)
    requires cmp(b, a) < 0
    ensures SortBy(cmp, [a, b]) == [b, a]
  {
    assert [a, b][..1] == [a] && [a][..0] == [];
  }

  /** Sorting a third element inserts it into the first two, sorted. */
  lemma SortAppendTwo<T(!new)>(cmp: (T, T) -> int, a: T, b: T, c: T)
    ensures SortBy(cmp, [a, b, c]) == InsertBy(cmp, c, SortBy(cmp, [a, b]))
  {
    assert [a, b, c][..2] == [a, b];
  }

  /** Sorting a fourth element inserts it into the first three, sorted. */
  lemma SortAppendThree<T(!new)>(cmp: (T, T) -> int, a: T, b: T, c: T, d: T)
    ensures SortBy(cmp, [a, b, c, d]) == InsertBy(cmp, d, SortBy(cmp, [a, b, c]))
  {
    assert [a, b, c, d][..3] == [a, b, c];
  }

  /** Inserting `x` into `[y, p, q]` where it goes after `y` and before `p`. */
  lemma InsertSecond<T(!new)>(cmp: (T, T) -> int, x: T, y: T, p: T, q: T)
    requires cmp(x, y) >= 0 && cmp(x, p) < 0
    ensures InsertBy(cmp, x, [y, p, q]) == [y, x, p, q]
  {
    assert [y, p, q][1..] == [p, q];
  }

  /** Inserting `x` into `[y, p]` where it goes last. */
  lemma InsertLast<T(!new)>(cmp: (T, T) -> int, x: T, y: T, p: T)
    requires cmp(x, y) >= 0 && cmp(x, p) >= 0
    ensures InsertBy(cmp, x, [y, p]) == [y, p, x]
  {
    assert [y, p][1..] == [p] && [p][1..] == [];
  }

  /** The comparisons the example's sort makes. */
  lemma ExampleComparisons()
    ensures SortByTShirtSize("sm", "xl") < 0 && SortByTShirtSize("2xl", "sm") > 0
    ensures SortByTShirtSize("2xl", "xl") > 0 && SortByTShirtSize("md", "sm") > 0
    ensures SortByTShirtSize("md", "xl") < 0
  {
    BothSizes(6, 9);
    BothSizes(10, 6);
    BothSizes(10, 9);
    BothSizes(7, 6);
    BothSizes(7, 9);
  }
}

// The sort of the debug info reader's collections: an in-place quicksort that recurses
// into the smaller part only.
module CollectionSort {

  // What a comparison function must do for a sort to mean anything.
  ghost predicate TotalPreorder<T(!new)>(compare: (T, T) -> int) {
    && (forall a, b :: compare(a, b) < 0 <==> compare(b, a) > 0)
    && (forall a, b, c :: compare(a, b) <= 0 && compare(b, c) <= 0 ==> compare(a, c) <= 0)
  }

  ghost predicate SortedRange<T(!new)>(s: seq<T>, lo: int, hi: int, compare: (T, T) -> int) {
    forall i, j :: 0 <= lo <= i < j < hi <= |s| ==> compare(s[i], s[j]) <= 0
  }

  ghost predicate Sorted<T(!new)>(s: seq<T>, compare: (T, T) -> int) {
    SortedRange(s, 0, |s|, compare)
  }

  // t is s with the elements from lo up to hi in another order.
  ghost predicate Rearranged<T(!new)>(s: seq<T>, t: seq<T>, lo: int, hi: int) {
    && 0 <= lo <= hi <= |s| == |t|
    && s[..lo] == t[..lo] && s[hi..] == t[hi..]
    && multiset(s[lo..hi]) == multiset(t[lo..hi])
  }

  function Swapped<T>(s: seq<T>, i: nat, j: nat): (t: seq<T>)
    requires i < |s| && j < |s|
  {
    s[i := s[j]][j := s[i]]
  }

  lemma SwappedRearranges<T(!new)>(s: seq<T>, i: nat, j: nat, lo: nat, hi: nat)
    requires lo <= i < hi && lo <= j < hi <= |s|
    ensures Rearranged(s, Swapped(s, i, j), lo, hi)
  {
    var t := Swapped(s, i, j);
    assert t[lo..hi] == Swapped(s[lo..hi], i - lo, j - lo);
    var u := s[lo..hi];
    assert multiset(u[i - lo := u[j - lo]][j - lo := u[i - lo]]) == multiset(u);
  }

  lemma RearrangedTwice<T(!new)>(s: seq<T>, t: seq<T>, u: seq<T>, lo: int, hi: int)
    requires Rearranged(s, t, lo, hi) && Rearranged(t, u, lo, hi)
    ensures Rearranged(s, u, lo, hi)
  {
  }

  lemma RearrangedWider<T(!new)>(s: seq<T>, t: seq<T>, lo: int, hi: int, from: int, to: int)
    requires Rearranged(s, t, lo, hi) && 0 <= from <= lo && hi <= to <= |s|
    ensures Rearranged(s, t, from, to)
  {
    assert s[from..to] == s[from..lo] + s[lo..hi] + s[hi..to];
    assert t[from..to] == t[from..lo] + t[lo..hi] + t[hi..to];
    assert s[from..lo] == s[..lo][from..] && t[from..lo] == t[..lo][from..];
    assert s[hi..to] == s[hi..][..to - hi] && t[hi..to] == t[hi..][..to - hi];
    assert s[..from] == s[..lo][..from] && t[..from] == t[..lo][..from];
    assert s[to..] == s[hi..][to - hi..] && t[to..] == t[hi..][to - hi..];
  }

  // Whatever bounds the elements of the range still does.
  lemma RearrangedFrom<T(!new)>(s: seq<T>, t: seq<T>, lo: int, hi: int, k: int) returns (j: int)
    requires Rearranged(s, t, lo, hi) && lo <= k < hi
    ensures lo <= j < hi && t[k] == s[j]
  {
    assert t[lo..hi][k - lo] in multiset(t[lo..hi]);
    assert t[k] in s[lo..hi];
    j :| lo <= j < hi && t[k] == s[j];
  }

  lemma RearrangedOutside<T(!new)>(s: seq<T>, t: seq<T>, lo: int, hi: int, k: int)
    requires Rearranged(s, t, lo, hi) && 0 <= k < |s| && !(lo <= k < hi)
    ensures t[k] == s[k]
  {
    if k < lo {
      assert s[..lo][k] == t[..lo][k];
    } else {
      assert s[hi..][k - hi] == t[hi..][k - hi];
    }
  }

  // Of the pairs of elements from lo to hi, those not within from..to are in order.
  ghost predicate Settled<T(!new)>(s: seq<T>, lo: int, hi: int, from: int, to: int, compare: (T, T) -> int) {
    forall i, j :: 0 <= lo <= i < j < hi <= |s| && !(from <= i && j < to) ==> compare(s[i], s[j]) <= 0
  }

  // The element at j is no less than those from lo up to it and less than those after it.
  ghost predicate Split<T(!new)>(s: seq<T>, lo: int, j: int, hi: int, compare: (T, T) -> int) {
    && 0 <= lo <= j < hi <= |s|
    && (forall k :: lo <= k < j ==> compare(s[k], s[j]) <= 0)
    && (forall k :: j < k < hi ==> compare(s[j], s[k]) < 0)
  }

  lemma StaysSettled<T(!new)>(s: seq<T>, t: seq<T>, lo: int, hi: int, from: int, to: int, compare: (T, T) -> int)
    requires 0 <= lo <= from <= to <= hi <= |s| && Rearranged(s, t, from, to)
    requires Settled(s, lo, hi, from, to, compare)
    ensures Settled(t, lo, hi, from, to, compare)
  {
    forall i, j | lo <= i < j < hi && !(from <= i && j < to)
      ensures compare(t[i], t[j]) <= 0
    {
      var p, q := i, j;
      if from <= i < to {
        p := RearrangedFrom(s, t, from, to, i);
      } else {
        RearrangedOutside(s, t, from, to, i);
      }
      if from <= j < to {
        q := RearrangedFrom(s, t, from, to, j);
      } else {
        RearrangedOutside(s, t, from, to, j);
      }
      assert compare(s[p], s[q]) <= 0;
    }
  }

  lemma StaysSplit<T(!new)>(s: seq<T>, t: seq<T>, lo: int, j: int, hi: int, from: int, to: int, compare: (T, T) -> int)
    requires Split(s, lo, j, hi, compare) && Rearranged(s, t, from, to)
    requires lo <= from <= to == j || j + 1 == from <= to <= hi
    ensures Split(t, lo, j, hi, compare)
  {
    RearrangedOutside(s, t, from, to, j);
    forall k | lo <= k < hi && k != j
      ensures if k < j then compare(t[k], t[j]) <= 0 else compare(t[j], t[k]) < 0
    {
      if from <= k < to {
        var p := RearrangedFrom(s, t, from, to, k);
      } else {
        RearrangedOutside(s, t, from, to, k);
      }
    }
  }

  // With one part sorted, only the other part of a split range is left to sort.
  lemma SettledByLeft<T(!new)>(s: seq<T>, lo: int, hi: int, from: int, j: int, to: int, compare: (T, T) -> int)
    requires TotalPreorder(compare) && 0 <= lo <= from <= to <= hi <= |s|
    requires Settled(s, lo, hi, from, to, compare) && Split(s, from, j, to, compare)
    requires SortedRange(s, from, j, compare)
    ensures Settled(s, lo, hi, j + 1, to, compare)
  {
    forall p, q | lo <= p < q < hi && !(j + 1 <= p && q < to)
      ensures compare(s[p], s[q]) <= 0
    {
      if from <= p && q < to {
        assert compare(s[p], s[j]) <= 0;
        assert q > j ==> compare(s[j], s[q]) <= 0;
      }
    }
  }

  lemma SettledByRight<T(!new)>(s: seq<T>, lo: int, hi: int, from: int, j: int, to: int, compare: (T, T) -> int)
    requires TotalPreorder(compare) && 0 <= lo <= from <= to <= hi <= |s|
    requires Settled(s, lo, hi, from, to, compare) && Split(s, from, j, to, compare)
    requires SortedRange(s, j + 1, to, compare)
    ensures Settled(s, lo, hi, from, j, compare)
  {
    forall p, q | lo <= p < q < hi && !(from <= p && q < j)
      ensures compare(s[p], s[q]) <= 0
    {
      if from <= p && q < to {
        assert q > j ==> compare(s[j], s[q]) <= 0;
        assert p < j ==> compare(s[p], s[j]) <= 0;
      }
    }
  }

  method Swap<T(!new)>(items: array<T>, i: nat, j: nat, ghost s: seq<T>, ghost lo: nat, ghost hi: nat)
    requires lo <= i < hi && lo <= j < hi <= items.Length && Rearranged(s, items[..], lo, hi)
    modifies items
    ensures items[i] == old(items[j]) && items[j] == old(items[i])
    ensures forall k :: 0 <= k < items.Length && k != i && k != j ==> items[k] == old(items[k])
    ensures Rearranged(s, items[..], lo, hi)
  {
    hide Rearranged;
    ghost var t := items[..];
    SwappedRearranges(t, i, j, lo, hi);
    items[i], items[j] := items[j], items[i];
    assert items[..] == Swapped(t, i, j);
    RearrangedTwice(s, t, items[..], lo, hi);
  }

  // Splits the items from lo to hi around the first of them.
  method Partition<T(!new)>(items: array<T>, lo: int, hi: int, compare: (T, T) -> int) returns (j: int)
    requires TotalPreorder(compare) && 0 <= lo < hi < items.Length
    modifies items
    ensures lo <= j <= hi && Rearranged(old(items[..]), items[..], lo, hi + 1)
    ensures Split(items[..], lo, j, hi + 1, compare)
  {
    hide Rearranged, TotalPreorder;
    ghost var s := items[..];
    RearrangedSelf(s, lo, hi + 1);
    var i := lo + 1;
    j := hi;
    while i <= j
      invariant lo + 1 <= i <= j + 1 <= hi + 1 && Rearranged(s, items[..], lo, hi + 1)
      invariant forall k :: lo < k < i ==> compare(items[lo], items[k]) >= 0
      invariant forall k :: j < k <= hi ==> compare(items[lo], items[k]) < 0
    {
      while i <= j && compare(items[lo], items[i]) >= 0
        invariant lo + 1 <= i <= j + 1
        invariant forall k :: lo < k < i ==> compare(items[lo], items[k]) >= 0
      {
        i := i + 1;
      }
      while i <= j && compare(items[lo], items[j]) < 0
        invariant i <= j + 1 <= hi + 1
        invariant forall k :: j < k <= hi ==> compare(items[lo], items[k]) < 0
      {
        j := j - 1;
      }
      if i <= j {
        Swap(items, i, j, s, lo, hi + 1);
        i, j := i + 1, j - 1;
      }
    }
    if j != lo {
      Swap(items, j, lo, s, lo, hi + 1);
    }
    Flipped(compare);
  }

  lemma RearrangedSelf<T(!new)>(s: seq<T>, lo: int, hi: int)
    requires 0 <= lo <= hi <= |s|
    ensures Rearranged(s, s, lo, hi)
  {
  }

  lemma Flipped<T(!new)>(compare: (T, T) -> int)
    requires TotalPreorder(compare)
    ensures forall a, b :: compare(a, b) >= 0 ==> compare(b, a) <= 0
    ensures forall a, b :: compare(a, b) < 0 ==> compare(b, a) > 0
    ensures forall a :: compare(a, a) <= 0
  {
  }

  function Pow2(n: nat): nat {
    if n == 0 then 1 else 2 * Pow2(n - 1)
  }

  // The part that is recursed into is at most half of what is being sorted, so calls nest
  // at most 1 + log2(n + 1) deep for n items.
  method QuickSort<T(!new)>(items: array<T>, first: int, last: int, compare: (T, T) -> int)
    returns (ghost depth: nat)
    requires TotalPreorder(compare) && 0 <= first <= last + 1 <= items.Length
    modifies items
    ensures Rearranged(old(items[..]), items[..], first, last + 1)
    ensures SortedRange(items[..], first, last + 1, compare)
    ensures 1 <= depth && Pow2(depth - 1) <= last - first + 2
    decreases last - first + 1
  {
    hide Rearranged, TotalPreorder, Settled, Split, SortedRange;
    ghost var s := items[..];
    RearrangedSelf(s, first, last + 1);
    var lo, hi := first, last;
    depth := 1;
    AllUnsettled(s, first, last + 1, compare);
    while hi > lo
      invariant first <= lo && hi <= last && lo <= hi + 1
      invariant Rearranged(s, items[..], first, last + 1)
      invariant Settled(items[..], first, last + 1, lo, hi + 1, compare)
      invariant 1 <= depth && Pow2(depth - 1) <= last - first + 2
      decreases hi - lo + 1
    {
      ghost var t := items[..];
      assert Rearranged(s, t, first, last + 1);
      var j := Partition(items, lo, hi, compare);
      ghost var u, inner := items[..], 0;
      Narrowed(s, t, u, first, last + 1, lo, hi + 1);
      StaysSettled(t, u, first, last + 1, lo, hi + 1, compare);
      if j > (hi + lo) / 2 {
        inner := QuickSort(items, j + 1, hi, compare);
        RightSorted(s, u, items[..], first, last + 1, lo, j, hi + 1, compare);
        hi := j - 1;
      } else {
        inner := QuickSort(items, lo, j - 1, compare);
        LeftSorted(s, u, items[..], first, last + 1, lo, j, hi + 1, compare);
        lo := j + 1;
      }
      depth := if inner + 1 > depth then inner + 1 else depth;
    }
    SettledIsSorted(items[..], first, last + 1, lo, hi + 1, compare);
  }

  // Sorting one part of a split range leaves the other.
  lemma RightSorted<T(!new)>(s: seq<T>, t: seq<T>, u: seq<T>, lo: int, hi: int, from: int, j: int, to: int,
                             compare: (T, T) -> int)
    requires TotalPreorder(compare) && lo <= from <= j < to <= hi
    requires Rearranged(s, t, lo, hi) && Settled(t, lo, hi, from, to, compare) && Split(t, from, j, to, compare)
    requires Rearranged(t, u, j + 1, to) && SortedRange(u, j + 1, to, compare)
    ensures Rearranged(s, u, lo, hi) && Settled(u, lo, hi, from, j, compare)
  {
    hide Settled, Split, TotalPreorder, SortedRange;
    StaysSplit(t, u, from, j, to, j + 1, to, compare);
    RearrangedWider(t, u, j + 1, to, from, to);
    Narrowed(s, t, u, lo, hi, from, to);
    StaysSettled(t, u, lo, hi, from, to, compare);
    SettledByRight(u, lo, hi, from, j, to, compare);
  }

  lemma LeftSorted<T(!new)>(s: seq<T>, t: seq<T>, u: seq<T>, lo: int, hi: int, from: int, j: int, to: int,
                            compare: (T, T) -> int)
    requires TotalPreorder(compare) && lo <= from <= j < to <= hi
    requires Rearranged(s, t, lo, hi) && Settled(t, lo, hi, from, to, compare) && Split(t, from, j, to, compare)
    requires Rearranged(t, u, from, j) && SortedRange(u, from, j, compare)
    ensures Rearranged(s, u, lo, hi) && Settled(u, lo, hi, j + 1, to, compare)
  {
    hide Settled, Split, TotalPreorder, SortedRange;
    StaysSplit(t, u, from, j, to, from, j, compare);
    RearrangedWider(t, u, from, j, from, to);
    Narrowed(s, t, u, lo, hi, from, to);
    StaysSettled(t, u, lo, hi, from, to, compare);
    SettledByLeft(u, lo, hi, from, j, to, compare);
  }

  lemma AllUnsettled<T(!new)>(s: seq<T>, lo: int, hi: int, compare: (T, T) -> int)
    ensures Settled(s, lo, hi, lo, hi, compare)
  {
  }

  lemma SettledIsSorted<T(!new)>(s: seq<T>, lo: int, hi: int, from: int, to: int, compare: (T, T) -> int)
    requires Settled(s, lo, hi, from, to, compare) && to <= from + 1
    ensures SortedRange(s, lo, hi, compare)
  {
  }

  lemma Narrowed<T(!new)>(s: seq<T>, t: seq<T>, u: seq<T>, lo: int, hi: int, from: int, to: int)
    requires Rearranged(s, t, lo, hi) && Rearranged(t, u, from, to) && lo <= from && to <= hi
    ensures Rearranged(s, u, lo, hi)
  {
    RearrangedWider(t, u, from, to, lo, hi);
    RearrangedTwice(s, t, u, lo, hi);
  }

  method Sort<T(!new)>(items: array<T>, compare: (T, T) -> int)
    requires TotalPreorder(compare)
    modifies items
    ensures multiset(items[..]) == multiset(old(items[..]))
    ensures Sorted(items[..], compare)
  {
    if items.Length > 1 {
      ghost var s := items[..];
      var _ := QuickSort(items, 0, items.Length - 1, compare);
      assert s[0..|s|] == s && items[..][0..|s|] == items[..];
    }
  }

  // The items that have a property, in their order.
  function Select<T>(s: seq<T>, p: T -> bool): seq<T> {
    if s == [] then [] else Select(s[..|s| - 1], p) + if p(s[|s| - 1]) then [s[|s| - 1]] else []
  }

  lemma {:induction false} SelectCounts<T(!new)>(s: seq<T>, p: T -> bool, x: T)
    ensures multiset(Select(s, p))[x] == if p(x) then multiset(s)[x] else 0
  {
    if s != [] {
      var n := |s| - 1;
      SelectCounts(s[..n], p, x);
      assert s == s[..n] + [s[n]];
    }
  }

  lemma {:induction false} SelectIsSorted<T(!new)>(s: seq<T>, p: T -> bool, compare: (T, T) -> int)
    requires Sorted(s, compare)
    ensures Sorted(Select(s, p), compare)
    ensures forall x :: x in Select(s, p) ==> x in s
  {
    if s != [] {
      var n := |s| - 1;
      SelectIsSorted(s[..n], p, compare);
      var before := Select(s[..n], p);
      assert forall k :: 0 <= k < |before| ==> before[k] in before;
    }
  }

  // What is selected from sorted items is sorted, and is the same whatever order the items
  // were in before.
  lemma SelectIsExact<T(!new)>(s: seq<T>, sorted: seq<T>, p: T -> bool, compare: (T, T) -> int)
    requires multiset(s) == multiset(sorted) && Sorted(sorted, compare)
    ensures multiset(Select(sorted, p)) == multiset(Select(s, p))
    ensures Sorted(Select(sorted, p), compare)
  {
    forall x
      ensures multiset(Select(sorted, p))[x] == multiset(Select(s, p))[x]
    {
      SelectCounts(s, p, x);
      SelectCounts(sorted, p, x);
    }
    SelectIsSorted(sorted, p, compare);
  }

  lemma {:induction false} SelectNone<T(!new)>(s: seq<T>, p: T -> bool)
    ensures Select(s, p) == [] <==> forall i :: 0 <= i < |s| ==> !p(s[i])
  {
    if s != [] {
      SelectNone(s[..|s| - 1], p);
    }
  }

  // If the items with the property stand together, they are a slice.
  lemma {:induction false} SelectSlice<T(!new)>(s: seq<T>, p: T -> bool, lo: nat, hi: nat)
    requires lo <= hi <= |s| && forall i :: 0 <= i < |s| ==> (p(s[i]) <==> lo <= i < hi)
    ensures Select(s, p) == s[lo..hi]
  {
    if s != [] {
      var n := |s| - 1;
      var from, to := if lo > n then n else lo, if hi > n then n else hi;
      SelectSlice(s[..n], p, from, to);
      assert s[..n][from..to] == s[from..to];
      assert p(s[n]) ==> s[lo..hi] == s[from..to] + [s[n]];
      assert !p(s[n]) ==> s[lo..hi] == s[from..to];
    }
  }

  lemma SameSize<T>(s: seq<T>, t: seq<T>)
    requires multiset(s) == multiset(t)
    ensures |s| == |t|
  {
    assert |multiset(s)| == |s| && |multiset(t)| == |t|;
  }
}

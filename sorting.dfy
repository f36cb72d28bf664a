/**
 * The C library `qsort` as fsm_ultrasound.c calls it on the five-slot
 * sample buffer, together with the comparison function it is given, and
 * what "the median of the window" means.
 */
module Sorting {
  import opened Word

  /** Ascending order. */
  ghost predicate Sorted(s: seq<u32>)
  {
    forall i, j :: 0 <= i < j < |s| ==> s[i] <= s[j]
  }

  /** Every element is below 2^31, where the comparator below is exact. */
  ghost predicate BelowHalf(s: seq<u32>)
  {
    forall i :: 0 <= i < |s| ==> s[i] < HALF
  }

  /**
   * The comparison function handed to qsort: the uint32_t difference a - b,
   * returned as an int. It wraps, so it orders only values that are less
   * than 2^31 apart.
   */
  function Compare(a: u32, b: u32): int
  {
    AsInt32(Sub(a, b))
  }

  /** On values below 2^31 the comparator agrees with the numeric order. */
  lemma CompareAgrees(a: u32, b: u32)
    requires a < HALF && b < HALF
    ensures Compare(a, b) > 0 <==> a > b
    ensures Compare(a, b) == 0 <==> a == b
    ensures Compare(a, b) < 0 <==> a < b
  {
  }

  /**
   * Beyond that it does not: whenever a exceeds b by 2^31 or more, a is
   * reported smaller than b.
   */
  lemma CompareWrapsOnLargeValues(a: u32, b: u32)
    requires b <= a && a - b >= HALF
    ensures Compare(a, b) < 0
  {
  }

  /** Insert x into a sorted sequence. */
  function Insert(x: u32, s: seq<u32>): (r: seq<u32>)
    requires Sorted(s)
    ensures Sorted(r)
    ensures multiset(r) == multiset(s) + multiset{x}
    ensures |r| == |s| + 1
    ensures r[0] == if s != [] && s[0] < x then s[0] else x
  {
    if s == [] then [x]
    else if x <= s[0] then [x] + s
    else
      assert s == [s[0]] + s[1..];
      [s[0]] + Insert(x, s[1..])
  }

  /** The sorted permutation of s: the reference result of any correct sort. */
  function SortSeq(s: seq<u32>): (r: seq<u32>)
    ensures Sorted(r)
    ensures multiset(r) == multiset(s)
    ensures |r| == |s|
  {
    if s == [] then []
    else
      assert s == [s[0]] + s[1..];
      Insert(s[0], SortSeq(s[1..]))
  }

  lemma SplitHead(s: seq<u32>)
    requires s != []
    ensures multiset(s) == multiset{s[0]} + multiset(s[1..])
  {
    assert s == [s[0]] + s[1..];
  }

  /** The head of a sorted sequence is at most each of its elements. */
  lemma SortedHeadIsLeast(s: seq<u32>, x: u32)
    requires Sorted(s) && x in multiset(s)
    ensures s != [] && s[0] <= x
  {
    assert x in s;
    var k :| 0 <= k < |s| && s[k] == x;
  }

  /** The tail of a sequence holds its elements but the head. */
  lemma TailMultiset(s: seq<u32>)
    requires s != []
    ensures multiset(s[1..]) == multiset(s) - multiset{s[0]}
  {
    SplitHead(s);
  }

  /** Two sorted sequences with the same elements start with the same element. */
  lemma SameHead(s: seq<u32>, t: seq<u32>)
    requires Sorted(s) && Sorted(t) && multiset(s) == multiset(t) && s != []
    ensures t != [] && s[0] == t[0]
  {
    assert s[0] in multiset(s);
    SortedHeadIsLeast(t, s[0]);
    assert t[0] in multiset(t);
    SortedHeadIsLeast(s, t[0]);
  }

  /** A sequence is its head followed by its tail. */
  lemma HeadTail(s: seq<u32>)
    requires s != []
    ensures s == [s[0]] + s[1..]
  {
  }

  /** Two sorted sequences with the same elements are equal, so a sort has exactly one correct result. */
  lemma {:induction false} SortedUnique(s: seq<u32>, t: seq<u32>)
    requires Sorted(s) && Sorted(t)
    requires multiset(s) == multiset(t)
    ensures s == t
    decreases |s|
  {
    if s == [] {
      assert |t| == |multiset(t)| == 0;
    } else {
      SameHead(s, t);
      TailMultiset(s);
      TailMultiset(t);
      SortedUnique(s[1..], t[1..]);
      HeadTail(s);
      HeadTail(t);
    }
  }

  /** Which side of a pivot an element is counted on. */
  datatype Side = Below | Above

  predicate OnSide(side: Side, x: u32, m: u32)
  {
    match side
    case Below => x < m
    case Above => x > m
  }

  /** Number of elements of s strictly on the given side of m. */
  function Count(s: seq<u32>, side: Side, m: u32): (n: nat)
    ensures n <= |s|
  {
    if s == [] then 0 else (if OnSide(side, s[0], m) then 1 else 0) + Count(s[1..], side, m)
  }

  lemma {:induction false} CountAppend(a: seq<u32>, b: seq<u32>, side: Side, m: u32)
    ensures Count(a + b, side, m) == Count(a, side, m) + Count(b, side, m)
    decreases |a|
  {
    if a == [] {
      assert a + b == b;
    } else {
      assert (a + b)[0] == a[0];
      assert (a + b)[1..] == a[1..] + b;
      CountAppend(a[1..], b, side, m);
    }
  }

  /** Counting does not depend on the order of the elements. */
  lemma {:induction false} CountPermutation(s: seq<u32>, t: seq<u32>, side: Side, m: u32)
    requires multiset(s) == multiset(t)
    ensures Count(s, side, m) == Count(t, side, m)
    decreases |s|
  {
    assert |s| == |multiset(s)| == |multiset(t)| == |t|;
    if s != [] {
      var x := s[0];
      var k := IndexOf(t, x);
      var rest := t[..k] + t[k + 1..];
      RemoveAt(t, k);
      SplitHead(s);
      assert multiset(s[1..]) == multiset(rest);
      CountPermutation(s[1..], rest, side, m);
      CountRemoveAt(t, k, side, m);
    }
  }

  /** Where x occurs in a sequence whose multiset holds it. */
  function IndexOf(t: seq<u32>, x: u32): (k: nat)
    requires x in multiset(t)
    ensures k < |t| && t[k] == x
  {
    if t[0] == x then 0 else IndexOf(t[1..], x) + 1
  }

  lemma RemoveAt(t: seq<u32>, k: nat)
    requires k < |t|
    ensures multiset(t[..k] + t[k + 1..]) == multiset(t) - multiset{t[k]}
  {
    assert t == t[..k] + [t[k]] + t[k + 1..];
  }

  lemma CountRemoveAt(t: seq<u32>, k: nat, side: Side, m: u32)
    requires k < |t|
    ensures Count(t, side, m) == Count(t[..k] + t[k + 1..], side, m) + (if OnSide(side, t[k], m) then 1 else 0)
  {
    assert t == t[..k] + [t[k]] + t[k + 1..];
    CountAppend(t[..k] + [t[k]], t[k + 1..], side, m);
    CountAppend(t[..k], [t[k]], side, m);
    CountAppend(t[..k], t[k + 1..], side, m);
    assert [t[k]][1..] == [];
  }

  /** Elements below m sit only in the first k slots, so at most k of them exist. */
  lemma {:induction false} CountBelowBound(s: seq<u32>, m: u32, k: nat)
    requires forall j :: k <= j < |s| ==> s[j] >= m
    ensures Count(s, Below, m) <= k
    decreases |s|
  {
    if s != [] {
      CountBelowBound(s[1..], m, if k == 0 then 0 else k - 1);
    }
  }

  /** Elements above m sit only after slot k, so at most |s| - 1 - k of them exist. */
  lemma {:induction false} CountAboveBound(s: seq<u32>, m: u32, k: nat)
    requires k < |s|
    requires forall j :: 0 <= j <= k ==> s[j] <= m
    ensures Count(s, Above, m) <= |s| - 1 - k
    decreases |s|
  {
    if k > 0 {
      CountAboveBound(s[1..], m, k - 1);
    }
  }

  /** m is a median of s: it occurs in s, and at most half of s lies strictly on either side of it. */
  ghost predicate IsMedian(m: u32, s: seq<u32>)
  {
    m in s && Count(s, Below, m) <= |s| / 2 && Count(s, Above, m) <= |s| / 2
  }

  /** In a sorted sequence at most k elements lie below slot k and at most |t| - 1 - k above it. */
  lemma SortedSlotBounds(t: seq<u32>, k: nat)
    requires Sorted(t) && k < |t|
    ensures Count(t, Below, t[k]) <= k
    ensures Count(t, Above, t[k]) <= |t| - 1 - k
  {
    CountBelowBound(t, t[k], k);
    CountAboveBound(t, t[k], k);
  }

  /** An element of a permutation of s is an element of s. */
  lemma PermutationMember(t: seq<u32>, s: seq<u32>, k: nat)
    requires multiset(t) == multiset(s) && k < |t|
    ensures t[k] in s
  {
    assert t[k] in multiset(t);
  }

  /** The middle slot of the sorted sequence is a median of the unsorted one. */
  lemma MiddleOfSortedIsMedian(s: seq<u32>)
    requires |s| % 2 == 1
    ensures IsMedian(SortSeq(s)[|s| / 2], s)
  {
    var t := SortSeq(s);
    var k := |s| / 2;
    PermutationMember(t, s, k);
    SortedSlotBounds(t, k);
    CountPermutation(t, s, Below, t[k]);
    CountPermutation(t, s, Above, t[k]);
  }

  /**
   * The state of an insertion step that moves the element at j leftwards:
   * slots 0..i other than j are in order, and the element at j is at most
   * every element to its right up to i.
   */
  ghost predicate Sifting(s: seq<u32>, j: nat, i: nat)
    requires j <= i < |s|
  {
    (forall p, q :: 0 <= p < q <= i && p != j && q != j ==> s[p] <= s[q]) &&
    (forall q :: j < q <= i ==> s[j] <= s[q])
  }

  /** Exchanging two slots permutes the sequence. */
  lemma SwapPermutes(s: seq<u32>, p: nat, q: nat)
    requires p < q < |s|
    ensures multiset(s[p := s[q]][q := s[p]]) == multiset(s)
  {
    var t := s[p := s[q]][q := s[p]];
    assert s == s[..p] + [s[p]] + s[p + 1..q] + [s[q]] + s[q + 1..];
    assert t == s[..p] + [s[q]] + s[p + 1..q] + [s[p]] + s[q + 1..];
  }

  /** Swapping the moving element with a larger left neighbour moves the step one slot left. */
  lemma SiftingSwap(s: seq<u32>, j: nat, i: nat)
    requires 0 < j <= i < |s| && Sifting(s, j, i) && s[j - 1] > s[j]
    ensures Sifting(s[j - 1 := s[j]][j := s[j - 1]], j - 1, i)
  {
  }

  /** Swapping two slots keeps every element below 2^31. */
  lemma SwapBelowHalf(s: seq<u32>, p: nat, q: nat)
    requires p < q < |s| && BelowHalf(s)
    ensures BelowHalf(s[p := s[q]][q := s[p]])
  {
  }

  /** The step ends when the moving element reaches slot 0 or a neighbour no larger than it. */
  lemma SiftingDone(s: seq<u32>, j: nat, i: nat)
    requires j <= i < |s| && Sifting(s, j, i) && (j == 0 || s[j - 1] <= s[j])
    ensures Sorted(s[..i + 1])
  {
  }

  /** One exchange of the insertion step: a[j - 1] and a[j] trade places. */
  method SwapLeft(a: array<u32>, j: nat, ghost i: nat)
    requires 0 < j <= i < a.Length
    requires BelowHalf(a[..]) && Sifting(a[..], j, i) && a[j - 1] > a[j]
    modifies a
    ensures BelowHalf(a[..]) && Sifting(a[..], j - 1, i)
    ensures multiset(a[..]) == multiset(old(a[..]))
  {
    ghost var s := a[..];
    SiftingSwap(s, j, i);
    SwapPermutes(s, j - 1, j);
    SwapBelowHalf(s, j - 1, j);
    a[j - 1], a[j] := a[j], a[j - 1];
    assert a[..] == s[j - 1 := s[j]][j := s[j - 1]];
  }

  /** Move a[i] left past every larger element, so that a[..i+1] becomes sorted. */
  method SiftDown(a: array<u32>, i: nat)
    requires 0 < i < a.Length
    requires BelowHalf(a[..]) && Sorted(a[..i])
    modifies a
    ensures BelowHalf(a[..]) && Sorted(a[..i + 1])
    ensures multiset(a[..]) == multiset(old(a[..]))
  {
    var j := i;
    assert Sifting(a[..], j, i);
    while j > 0 && Compare(a[j - 1], a[j]) > 0
      invariant 0 <= j <= i
      invariant BelowHalf(a[..]) && Sifting(a[..], j, i)
      invariant multiset(a[..]) == multiset(old(a[..]))
    {
      CompareAgrees(a[j - 1], a[j]);
      SwapLeft(a, j, i);
      j := j - 1;
    }
    if j > 0 {
      CompareAgrees(a[j - 1], a[j]);
    }
    SiftingDone(a[..], j, i);
  }

  /**
   * qsort(a, n, sizeof(uint32_t), _compare): sorts the array in place. The
   * library's algorithm is not specified, so an insertion sort driven by the
   * same comparator stands for it; any correct sort has this one result.
   */
  method SortInPlace(a: array<u32>)
    requires BelowHalf(a[..])
    modifies a
    ensures a[..] == SortSeq(old(a[..]))
  {
    if a.Length > 0 {
      var i := 1;
      while i < a.Length
        invariant 1 <= i <= a.Length
        invariant BelowHalf(a[..]) && Sorted(a[..i])
        invariant multiset(a[..]) == multiset(old(a[..]))
      {
        SiftDown(a, i);
        i := i + 1;
      }
      assert a[..i] == a[..];
    }
    IsSortSeq(a[..], old(a[..]));
  }

  /** A sorted permutation of t is SortSeq(t). */
  lemma IsSortSeq(s: seq<u32>, t: seq<u32>)
    requires Sorted(s) && multiset(s) == multiset(t)
    ensures s == SortSeq(t)
  {
    SortedUnique(s, SortSeq(t));
  }
}

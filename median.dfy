/**
 * The warped image scale: the median of the camera focals after sorting
 * (odd count: the middle element; even count: the mean of the two middle
 * elements; empty list: the source indexes `focals[0]` and fails).
 */
module Median {
  import opened Common

  predicate IsSorted(s: seq<real>) {
    forall i, j :: 0 <= i < j < |s| ==> s[i] <= s[j]
  }

  /** Inserts `x` before the first element it does not exceed. */
  function Insert(x: real, s: seq<real>): (r: seq<real>)
    ensures multiset(r) == multiset(s) + multiset{x}
    ensures |r| == |s| + 1
  {
    if s == [] || x <= s[0] then [x] + s
    else
      assert s == [s[0]] + s[1..];
      [s[0]] + Insert(x, s[1..])
  }

  lemma {:induction false} InsertKeepsSorted(x: real, s: seq<real>)
    requires IsSorted(s)
    ensures IsSorted(Insert(x, s))
  {
    if s != [] && x > s[0] {
      InsertKeepsSorted(x, s[1..]);
      var rest := Insert(x, s[1..]);
      forall k | 0 <= k < |rest| ensures s[0] <= rest[k] {
        assert rest[k] in multiset(s[1..]) + multiset{x};
      }
    }
  }

  /**
   * Stands for Python's `list.sort()`. Any sort gives the same list here,
   * because a sorted permutation is unique (SortedPermutationUnique).
   * SortSorts states what it computes.
   */
  function Sort(s: seq<real>): (r: seq<real>)
    ensures |r| == |s|
  {
    if s == [] then [] else Insert(s[0], Sort(s[1..]))
  }

  /** Sorting keeps the elements. */
  lemma {:induction false} SortPermutes(s: seq<real>)
    ensures multiset(Sort(s)) == multiset(s)
  {
    if s != [] {
      SortPermutes(s[1..]);
      assert s == [s[0]] + s[1..];
    }
  }

  /** Sorting puts them in order. */
  lemma {:induction false} SortOrders(s: seq<real>)
    ensures IsSorted(Sort(s))
  {
    if s != [] {
      SortOrders(s[1..]);
      InsertKeepsSorted(s[0], Sort(s[1..]));
    }
  }

  /** Sorting yields a sorted permutation of its input. */
  lemma SortSorts(s: seq<real>)
    ensures IsSorted(Sort(s))
    ensures multiset(Sort(s)) == multiset(s)
  {
    SortPermutes(s);
    SortOrders(s);
  }

  lemma SortedHeadIsLeast(s: seq<real>, x: real)
    requires IsSorted(s) && x in multiset(s)
    ensures s[0] <= x
  {
    var k :| 0 <= k < |s| && s[k] == x;
  }

  lemma TailMultiset(s: seq<real>)
    requires s != []
    ensures multiset(s[1..]) == multiset(s) - multiset{s[0]}
  {
    assert s == [s[0]] + s[1..];
  }

  lemma SortedTail(s: seq<real>)
    requires IsSorted(s) && s != []
    ensures IsSorted(s[1..])
  {
  }

  /** Two sorted lists with the same elements start with the same, least, element. */
  lemma SortedSameHead(s: seq<real>, t: seq<real>)
    requires IsSorted(s) && IsSorted(t) && s != [] && t != []
    requires multiset(s) == multiset(t)
    ensures s[0] == t[0]
  {
    assert s[0] in multiset(s);
    SortedHeadIsLeast(t, s[0]);
    assert t[0] in multiset(t);
    SortedHeadIsLeast(s, t[0]);
  }

  /** Two sorted lists with the same elements are the same list. */
  lemma {:induction false} SortedPermutationUnique(s: seq<real>, t: seq<real>)
    requires IsSorted(s) && IsSorted(t)
    requires multiset(s) == multiset(t)
    ensures s == t
  {
    assert |t| == |multiset(t)| == |multiset(s)| == |s|;
    if s != [] {
      SortedSameHead(s, t);
      TailMultiset(s);
      TailMultiset(t);
      SortedTail(s);
      SortedTail(t);
      SortedPermutationUnique(s[1..], t[1..]);
      assert s == [s[0]] + s[1..];
      assert t == [t[0]] + t[1..];
    }
  }

  /** `focals.sort()` followed by the odd/even middle-element rule. */
  function MedianFocal(focals: seq<real>): (r: Result<real>)
    ensures r.Err? <==> focals == []
    ensures r.Err? ==> r.failure == IndexError
  {
    if focals == [] then Err(IndexError) else Ok(Middle(Sort(focals)))
  }

  /** What the source computes is a median in the order-free sense of IsMedian. */
  lemma MedianFocalIsMedian(focals: seq<real>)
    requires focals != []
    ensures MedianFocal(focals).Ok? && IsMedian(focals, MedianFocal(focals).value)
  {
    MedianOfSortedIsMedian(focals, Sort(focals), Middle(Sort(focals)));
  }

  /**
   * The source's middle-element rule on an already sorted, non-empty list:
   * the mean of the lower and the upper middle element, which are one element
   * when the count is odd. On a sorted list it lies between the two.
   */
  function Middle(s: seq<real>): (m: real)
    requires s != []
    ensures m == (s[(|s| - 1) / 2] + s[|s| / 2]) / 2.0
    ensures IsSorted(s) ==> s[(|s| - 1) / 2] <= m <= s[|s| / 2]
  {
    var n := |s|;
    if n % 2 == 1 then s[n / 2] else (s[n / 2] + s[n / 2 - 1]) / 2.0
  }

  /** Number of elements of `s` strictly below `m`. */
  function CountBelow(s: seq<real>, m: real): (c: nat)
    ensures c <= |s|
  {
    if s == [] then 0 else (if s[0] < m then 1 else 0) + CountBelow(s[1..], m)
  }

  /** Number of elements of `s` strictly above `m`. */
  function CountAbove(s: seq<real>, m: real): (c: nat)
    ensures c <= |s|
  {
    if s == [] then 0 else (if s[0] > m then 1 else 0) + CountAbove(s[1..], m)
  }

  /**
   * `m` is a median of `s`: at most half of the values lie below it, at most
   * half above it, and it lies between the smallest and the largest value.
   */
  ghost predicate IsMedian(s: seq<real>, m: real) {
    && CountBelow(s, m) <= |s| / 2
    && CountAbove(s, m) <= |s| / 2
    && (exists i :: 0 <= i < |s| && s[i] <= m)
    && (exists i :: 0 <= i < |s| && m <= s[i])
  }

  lemma {:induction false} CountsOfInsert(x: real, s: seq<real>, m: real)
    ensures CountBelow(Insert(x, s), m) == CountBelow([x] + s, m)
    ensures CountAbove(Insert(x, s), m) == CountAbove([x] + s, m)
  {
    if s == [] || x <= s[0] {
    } else {
      CountsOfInsert(x, s[1..], m);
      assert ([x] + s)[1..] == s;
      assert ([x] + s[1..])[1..] == s[1..];
      assert s == [s[0]] + s[1..];
    }
  }

  /** Sorting does not change how many values lie below or above `m`. */
  lemma {:induction false} CountsOfSort(s: seq<real>, m: real)
    ensures CountBelow(Sort(s), m) == CountBelow(s, m)
    ensures CountAbove(Sort(s), m) == CountAbove(s, m)
  {
    if s != [] {
      CountsOfSort(s[1..], m);
      CountsOfInsert(s[0], Sort(s[1..]), m);
      assert ([s[0]] + Sort(s[1..]))[1..] == Sort(s[1..]);
    }
  }

  lemma {:induction false} NoneBelow(s: seq<real>, m: real)
    requires forall k :: 0 <= k < |s| ==> m <= s[k]
    ensures CountBelow(s, m) == 0
  {
    if s != [] {
      NoneBelow(s[1..], m);
    }
  }

  /** In a sorted list whose entries from `j` on are at least `m`, at most `j` lie below `m`. */
  lemma {:induction false} CountBelowSorted(s: seq<real>, m: real, j: nat)
    requires IsSorted(s) && j <= |s|
    requires j < |s| ==> m <= s[j]
    ensures CountBelow(s, m) <= j
  {
    if j == 0 {
      NoneBelow(s, m);
    } else {
      CountBelowSorted(s[1..], m, j - 1);
    }
  }

  /** In a sorted list whose entries up to `j` are at most `m`, at most `|s| - 1 - j` lie above `m`. */
  lemma {:induction false} CountAboveSorted(s: seq<real>, m: real, j: nat)
    requires IsSorted(s) && j < |s|
    requires s[j] <= m
    ensures CountAbove(s, m) <= |s| - 1 - j
  {
    if j > 0 {
      CountAboveSorted(s[1..], m, j - 1);
    }
  }

  lemma MedianOfSortedIsMedian(focals: seq<real>, s: seq<real>, m: real)
    requires focals != [] && s == Sort(focals)
    requires m == Middle(s)
    ensures IsMedian(focals, m)
  {
    var n := |s|;
    SortSorts(focals);
    CountsOfSort(focals, m);
    CountBelowSorted(s, m, n / 2);
    CountAboveSorted(s, m, (n - 1) / 2);
    assert s[0] <= m <= s[n - 1];
    assert s[0] in multiset(focals) && s[n - 1] in multiset(focals);
    var lo :| 0 <= lo < n && focals[lo] == s[0];
    var hi :| 0 <= hi < n && focals[hi] == s[n - 1];
    assert focals[lo] <= m <= focals[hi];
  }

  /** Sorting three focals, as the odd-count example needs. */
  lemma SortOfThree()
    ensures Sort([30.0, 10.0, 20.0]) == [10.0, 20.0, 30.0]
  {
    assert [10.0, 20.0][1..] == [20.0];
  }

  /** The odd rule: three focals give the middle one. */
  lemma MedianOfThree()
    ensures MedianFocal([30.0, 10.0, 20.0]) == Ok(20.0)
  {
    SortOfThree();
  }

  /** Inserting the largest focal appends it. */
  lemma InsertAtEnd()
    ensures Insert(40.0, [10.0, 20.0, 30.0]) == [10.0, 20.0, 30.0, 40.0]
  {
    assert [10.0, 20.0, 30.0][1..] == [20.0, 30.0];
  }

  /** Sorting four focals, as the even-count example needs. */
  lemma SortOfFour()
    ensures Sort([40.0, 30.0, 10.0, 20.0]) == [10.0, 20.0, 30.0, 40.0]
  {
    var s4 := [40.0, 30.0, 10.0, 20.0];
    assert s4[1..] == [30.0, 10.0, 20.0];
    SortOfThree();
    InsertAtEnd();
  }

  /** The even rule: four focals give the mean of the two middle ones. */
  lemma MedianOfFour()
    ensures MedianFocal([40.0, 30.0, 10.0, 20.0]) == Ok(25.0)
  {
    SortOfFour();
  }

  /** Two equal focals give that focal. */
  lemma MedianOfEqualPair(x: real)
    ensures MedianFocal([x, x]) == Ok(x)
  {
    assert [x, x][1..] == [x];
    assert Sort([x, x]) == Insert(x, [x]) == [x, x];
  }

  /** The median does not depend on the order in which the cameras are listed. */
  lemma MedianIgnoresOrder(a: seq<real>, b: seq<real>)
    requires multiset(a) == multiset(b)
    ensures MedianFocal(a) == MedianFocal(b)
  {
    SortSorts(a);
    SortSorts(b);
    SortedPermutationUnique(Sort(a), Sort(b));
    assert |a| == |multiset(a)| == |multiset(b)| == |b|;
  }

  /** `f` applied to every element. */
  function MapReals(s: seq<real>, f: real -> real): (r: seq<real>)
    ensures |r| == |s|
    ensures forall k :: 0 <= k < |s| ==> r[k] == f(s[k])
  {
    if s == [] then [] else [f(s[0])] + MapReals(s[1..], f)
  }

  ghost predicate StrictlyIncreasing(f: real -> real) {
    forall x, y :: x < y ==> f(x) < f(y)
  }

  lemma MapCons(x: real, s: seq<real>, f: real -> real)
    ensures MapReals([x] + s, f) == [f(x)] + MapReals(s, f)
  {
    assert ([x] + s)[1..] == s;
  }

  lemma MapKeepsSorted(s: seq<real>, f: real -> real)
    requires IsSorted(s) && StrictlyIncreasing(f)
    ensures IsSorted(MapReals(s, f))
  {
    forall i, j | 0 <= i < j < |s| ensures f(s[i]) <= f(s[j]) {
      assert s[i] < s[j] || s[i] == s[j];
    }
  }

  lemma {:induction false} MapInsert(x: real, s: seq<real>, f: real -> real)
    requires StrictlyIncreasing(f)
    ensures MapReals(Insert(x, s), f) == Insert(f(x), MapReals(s, f))
  {
    if s == [] || x <= s[0] {
      assert s != [] ==> x < s[0] || x == s[0];
      assert Insert(x, s) == [x] + s;
      MapCons(x, s, f);
    } else {
      assert f(s[0]) < f(x);
      MapInsert(x, s[1..], f);
      var rest := Insert(x, s[1..]);
      assert Insert(x, s) == [s[0]] + rest;
      MapCons(s[0], rest, f);
      MapCons(s[0], s[1..], f);
      assert s == [s[0]] + s[1..];
    }
  }

  /** Sorting commutes with a strictly increasing map. */
  lemma {:induction false} MapSort(s: seq<real>, f: real -> real)
    requires StrictlyIncreasing(f)
    ensures MapReals(Sort(s), f) == Sort(MapReals(s, f))
  {
    if s != [] {
      var m := MapReals(s, f);
      MapSort(s[1..], f);
      MapInsert(s[0], Sort(s[1..]), f);
      assert m[1..] == MapReals(s[1..], f);
      calc {
        MapReals(Sort(s), f);
        MapReals(Insert(s[0], Sort(s[1..])), f);
        Insert(f(s[0]), MapReals(Sort(s[1..]), f));
        Insert(m[0], Sort(m[1..]));
        Sort(m);
      }
    }
  }
}

/**
 * Rescaling every camera focal by a positive factor, as composition does,
 * and what it does to the median: any strictly increasing map that keeps the
 * mean of the two middle focals carries the median along, and multiplying by
 * a positive factor is such a map (TimesIncreasing, TimesKeepsMean).
 */
module MedianScaling {
  import opened Common
  import opened Median
  import opened Cameras

  /** The map `x => x * a`. */
  function Times(a: real): real -> real {
    x => x * a
  }

  lemma TimesIncreasing(a: real)
    requires a > 0.0
    ensures StrictlyIncreasing(Times(a))
  {
    forall x: real, y: real | x < y ensures Times(a)(x) < Times(a)(y) {
      assert x * a < y * a;
    }
  }

  /** `f` carries the mean of the two middle elements of `s` to the mean of their images. */
  ghost predicate KeepsMiddleMean(s: seq<real>, f: real -> real)
    requires s != []
  {
    var n := |s|;
    n % 2 == 0 ==> f((s[n / 2] + s[n / 2 - 1]) / 2.0) == (f(s[n / 2]) + f(s[n / 2 - 1])) / 2.0
  }

  lemma MiddleOfMapped(s: seq<real>, f: real -> real)
    requires s != [] && KeepsMiddleMean(s, f)
    ensures Middle(MapReals(s, f)) == f(Middle(s))
  {
  }

  lemma MedianFocalOfNonEmpty(focals: seq<real>)
    requires focals != []
    ensures MedianFocal(focals) == Ok(Middle(Sort(focals)))
  {
  }

  /** A strictly increasing map that keeps the middle mean moves the median with it. */
  lemma MedianOfMapped(focals: seq<real>, f: real -> real)
    requires focals != [] && StrictlyIncreasing(f) && KeepsMiddleMean(Sort(focals), f)
    ensures MedianFocal(MapReals(focals, f)) == Ok(f(Middle(Sort(focals))))
  {
    MedianFocalOfNonEmpty(MapReals(focals, f));
    MapSort(focals, f);
    MiddleOfMapped(Sort(focals), f);
  }

  lemma TimesKeepsMean(p: real, q: real, a: real)
    ensures Times(a)((p + q) / 2.0) == (Times(a)(p) + Times(a)(q)) / 2.0
  {
    assert (p + q) / 2.0 * a == (p * a + q * a) / 2.0;
  }

  /**
   * Composition multiplies every camera focal and the warped image scale by
   * the same positive factor, so the scale stays the median of the focals.
   */
  lemma RescaledMedianFocal(cams: seq<CameraParams>, a: real)
    requires cams != [] && a > 0.0
    ensures WarpedImageScale(RescalePrefix(cams, |cams|, a)) == Ok(Mul(WarpedImageScale(cams).value, a))
  {
    MedianFocalOfNonEmpty(Focals(cams));
    FocalsOfRescaled(cams, a);
    MedianTimes(Focals(cams), a);
  }

  /** Multiplying by a positive factor moves the median with it. */
  lemma MedianTimes(fs: seq<real>, a: real)
    requires fs != [] && a > 0.0
    ensures MedianFocal(MapReals(fs, Times(a))) == Ok(Mul(Middle(Sort(fs)), a))
  {
    var m := Middle(Sort(fs));
    TimesApplied(a, m);
    TimesIncreasing(a);
    TimesKeepsMiddleMean(Sort(fs), a);
    MedianOfMapped(fs, Times(a));
  }

  lemma TimesApplied(a: real, x: real)
    ensures Times(a)(x) == Mul(x, a)
  {
  }

  lemma FocalsOfRescaled(cams: seq<CameraParams>, a: real)
    ensures Focals(RescalePrefix(cams, |cams|, a)) == MapReals(Focals(cams), Times(a))
  {
    var scaled := RescalePrefix(cams, |cams|, a);
    forall k | 0 <= k < |cams|
      ensures Focals(scaled)[k] == MapReals(Focals(cams), Times(a))[k]
    {
      assert scaled[k] == Rescaled(cams[k], a);
    }
  }

  lemma TimesKeepsMiddleMean(s: seq<real>, a: real)
    requires s != []
    ensures KeepsMiddleMean(s, Times(a))
  {
    var n := |s|;
    if n % 2 == 0 {
      TimesKeepsMean(s[n / 2], s[n / 2 - 1], a);
    }
  }
}

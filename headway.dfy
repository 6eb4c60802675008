/** The median headway estimator of app/main.py:118-129: sort a route's
    vehicle timestamps, take the gaps between neighbours, and return the
    median gap (0 for fewer than two timestamps). */
module Headway {
  import opened Sorting

  /** Gaps between neighbouring elements, keeping a gap only when the later
      element is not smaller than the earlier one. */
  function ForwardGaps(s: seq<int>): (d: seq<int>)
    ensures forall k :: 0 <= k < |d| ==> d[k] >= 0
    ensures |s| > 0 ==> |d| <= |s| - 1
  {
    if |s| < 2 then []
    else (if s[0] <= s[1] then [s[1] - s[0]] else []) + ForwardGaps(s[1..])
  }

  /** Every one of the n-1 neighbour differences, unfiltered. */
  ghost function AdjacentDifferences(s: seq<int>): seq<int>
    requires |s| > 0
  {
    seq(|s| - 1, i requires 0 <= i < |s| - 1 => s[i + 1] - s[i])
  }

  /** Odd/even median of an already sorted, non-empty list. */
  function Median(d: seq<int>): real
    requires |d| > 0
  {
    var mid := |d| / 2;
    if |d| % 2 == 1 then d[mid] as real
    else (d[mid - 1] + d[mid]) as real / 2.0
  }

  /** Estimated headway in seconds for one route's timestamps. */
  function EstimateHeadway(timestamps: seq<int>): (h: real)
    ensures |timestamps| < 2 ==> h == 0.0
    ensures h >= 0.0
  {
    if |timestamps| < 2 then 0.0
    else
      var diffs := ForwardGaps(SortAsc(timestamps));
      if diffs == [] then 0.0
      else
        MedianOfGapsNonNegative(diffs);
        Median(SortAsc(diffs))
  }

  /** The median of a list of non-negative gaps is non-negative. */
  lemma MedianOfGapsNonNegative(d: seq<int>)
    requires |d| > 0 && forall k :: 0 <= k < |d| ==> d[k] >= 0
    ensures Median(SortAsc(d)) >= 0.0
  {
    var sd := SortAsc(d);
    var mid := |sd| / 2;
    assert sd[mid] in multiset(d);
    if |sd| % 2 == 0 {
      assert sd[mid - 1] in multiset(d);
    }
  }

  /** On a sorted list the `b >= a` filter discards nothing: the gaps are
      exactly the n-1 neighbour differences. */
  lemma {:induction false} ForwardGapsOfSorted(s: seq<int>)
    requires Sorted(s) && |s| > 0
    ensures ForwardGaps(s) == AdjacentDifferences(s)
  {
    if |s| >= 2 {
      assert Sorted(s[1..]) by {
        forall i, j | 0 <= i < j < |s| - 1 ensures s[1..][i] <= s[1..][j] {
          assert s[1..][i] == s[i + 1] && s[1..][j] == s[j + 1];
        }
      }
      ForwardGapsOfSorted(s[1..]);
      assert s[0] <= s[1];
      var d := AdjacentDifferences(s);
      assert d == [s[1] - s[0]] + AdjacentDifferences(s[1..]);
    }
  }

  /** The estimate depends only on the multiset of timestamps, never on the
      order in which the vehicles were seen. */
  lemma HeadwayPermutationInvariant(a: seq<int>, b: seq<int>)
    requires multiset(a) == multiset(b)
    ensures EstimateHeadway(a) == EstimateHeadway(b)
  {
    assert |a| == |multiset(a)| == |multiset(b)| == |b|;
    SortAscPermutationInvariant(a, b);
  }

  /** Number of elements of `d` that are at most `x`. */
  function CountAtMost(d: seq<int>, x: real): (n: nat)
    ensures n <= |d|
  {
    if d == [] then 0 else (if d[0] as real <= x then 1 else 0) + CountAtMost(d[1..], x)
  }

  /** Number of elements of `d` that are at least `x`. */
  function CountAtLeast(d: seq<int>, x: real): (n: nat)
    ensures n <= |d|
  {
    if d == [] then 0 else (if d[0] as real >= x then 1 else 0) + CountAtLeast(d[1..], x)
  }

  /** `v` is the median of an odd-length list: more than half of the
      elements are at most `v` and more than half are at least `v`. */
  ghost predicate IsOddMedian(d: seq<int>, v: real) {
    2 * CountAtMost(d, v) >= |d| + 1 && 2 * CountAtLeast(d, v) >= |d| + 1
  }

  /** `v` is the lower of the two middle elements of an even-length list. */
  ghost predicate IsLowerMedian(d: seq<int>, v: real) {
    2 * CountAtMost(d, v) >= |d| && 2 * CountAtLeast(d, v) >= |d| + 2
  }

  /** `v` is the upper of the two middle elements of an even-length list. */
  ghost predicate IsUpperMedian(d: seq<int>, v: real) {
    2 * CountAtMost(d, v) >= |d| + 2 && 2 * CountAtLeast(d, v) >= |d|
  }

  lemma {:induction false} CountAtMostInsert(y: int, s: seq<int>, x: real)
    requires Sorted(s)
    ensures CountAtMost(Insert(y, s), x) == CountAtMost(s, x) + (if y as real <= x then 1 else 0)
  {
    if s != [] && y > s[0] {
      assert Sorted(s[1..]) by {
        forall i, j | 0 <= i < j < |s| - 1 ensures s[1..][i] <= s[1..][j] {
          assert s[1..][i] == s[i + 1] && s[1..][j] == s[j + 1];
        }
      }
      CountAtMostInsert(y, s[1..], x);
      assert ([s[0]] + Insert(y, s[1..]))[1..] == Insert(y, s[1..]);
    } else if s != [] {
      assert ([y] + s)[1..] == s;
    }
  }

  lemma {:induction false} CountAtLeastInsert(y: int, s: seq<int>, x: real)
    requires Sorted(s)
    ensures CountAtLeast(Insert(y, s), x) == CountAtLeast(s, x) + (if y as real >= x then 1 else 0)
  {
    if s != [] && y > s[0] {
      assert Sorted(s[1..]) by {
        forall i, j | 0 <= i < j < |s| - 1 ensures s[1..][i] <= s[1..][j] {
          assert s[1..][i] == s[i + 1] && s[1..][j] == s[j + 1];
        }
      }
      CountAtLeastInsert(y, s[1..], x);
      assert ([s[0]] + Insert(y, s[1..]))[1..] == Insert(y, s[1..]);
    } else if s != [] {
      assert ([y] + s)[1..] == s;
    }
  }

  /** Sorting does not change how many elements lie on either side of `x`. */
  lemma {:induction false} CountsOfSortAsc(s: seq<int>, x: real)
    ensures CountAtMost(SortAsc(s), x) == CountAtMost(s, x)
    ensures CountAtLeast(SortAsc(s), x) == CountAtLeast(s, x)
  {
    if s != [] {
      var t := SortAsc(s[1..]);
      assert SortAsc(s) == Insert(s[0], t);
      CountsOfSortAsc(s[1..], x);
      CountAtMostInsert(s[0], t, x);
      CountAtLeastInsert(s[0], t, x);
    }
  }

  lemma {:induction false} CountAtMostPrefix(s: seq<int>, x: real, j: nat)
    requires j <= |s|
    requires forall i :: 0 <= i < j ==> s[i] as real <= x
    ensures CountAtMost(s, x) >= j
  {
    if j > 0 {
      CountAtMostPrefix(s[1..], x, j - 1);
    }
  }

  lemma {:induction false} CountAtLeastSuffix(s: seq<int>, x: real, j: nat)
    requires j <= |s|
    requires forall i :: j <= i < |s| ==> s[i] as real >= x
    ensures CountAtLeast(s, x) >= |s| - j
  {
    if s != [] {
      CountAtLeastSuffix(s[1..], x, if j == 0 then 0 else j - 1);
    }
  }

  /** The median of a sorted list satisfies the counting characterisation. */
  lemma MedianOfSorted(d: seq<int>)
    requires Sorted(d) && |d| > 0
    ensures |d| % 2 == 1 ==> IsOddMedian(d, Median(d))
    ensures |d| % 2 == 0 ==>
      IsLowerMedian(d, d[|d| / 2 - 1] as real) && IsUpperMedian(d, d[|d| / 2] as real)
      && Median(d) == (d[|d| / 2 - 1] as real + d[|d| / 2] as real) / 2.0
  {
    var mid := |d| / 2;
    if |d| % 2 == 1 {
      CountAtMostPrefix(d, d[mid] as real, mid + 1);
      CountAtLeastSuffix(d, d[mid] as real, mid);
    } else {
      CountAtMostPrefix(d, d[mid - 1] as real, mid);
      CountAtLeastSuffix(d, d[mid - 1] as real, mid - 1);
      CountAtMostPrefix(d, d[mid] as real, mid + 1);
      CountAtLeastSuffix(d, d[mid] as real, mid);
    }
  }

  /** For two or more timestamps the estimate is the median of the n-1
      neighbour differences of the sorted timestamps: the middle one for an
      odd count, the mean of the two middle ones for an even count. */
  lemma HeadwayIsMedianOfGaps(timestamps: seq<int>)
    requires |timestamps| >= 2
    ensures |AdjacentDifferences(SortAsc(timestamps))| == |timestamps| - 1
    ensures var gaps := AdjacentDifferences(SortAsc(timestamps));
      |gaps| % 2 == 1 ==> IsOddMedian(gaps, EstimateHeadway(timestamps))
    ensures var gaps := AdjacentDifferences(SortAsc(timestamps));
      |gaps| % 2 == 0 ==> exists lo, hi ::
        IsLowerMedian(gaps, lo) && IsUpperMedian(gaps, hi)
        && EstimateHeadway(timestamps) == (lo + hi) / 2.0
  {
    EstimateIsMedianOfSortedGaps(timestamps);
    MedianOfSortedCopy(AdjacentDifferences(SortAsc(timestamps)));
  }

  /** The median of the sorted copy of `d`, by the counting conditions. */
  lemma MedianOfSortedCopy(d: seq<int>)
    requires |d| > 0
    ensures |d| % 2 == 1 ==> IsOddMedian(d, Median(SortAsc(d)))
    ensures |d| % 2 == 0 ==> exists lo, hi ::
      IsLowerMedian(d, lo) && IsUpperMedian(d, hi) && Median(SortAsc(d)) == (lo + hi) / 2.0
  {
    if |d| % 2 == 1 {
      OddMedianOfUnsorted(d);
    } else {
      EvenMedianOfUnsorted(d);
    }
  }

  /** The middle element of the sorted copy is the odd median of `d`. */
  lemma OddMedianOfUnsorted(d: seq<int>)
    requires |d| % 2 == 1
    ensures IsOddMedian(d, Median(SortAsc(d)))
  {
    var sd := SortAsc(d);
    forall x: real ensures SameCounts(sd, d, x) {
      CountsOfSortAsc(d, x);
    }
    OddMedianOfRearranged(d, sd);
  }

  /** The two middle elements of the sorted copy are the lower and upper
      medians of `d`, and their mean is the median. */
  lemma EvenMedianOfUnsorted(d: seq<int>)
    requires |d| % 2 == 0 && |d| > 0
    ensures exists lo, hi :: IsLowerMedian(d, lo) && IsUpperMedian(d, hi) && Median(SortAsc(d)) == (lo + hi) / 2.0
  {
    var sd := SortAsc(d);
    forall x: real ensures SameCounts(sd, d, x) {
      CountsOfSortAsc(d, x);
    }
    EvenMedianOfRearranged(d, sd);
  }

  /** `a` and `b` have as many elements at most `x`, and at least `x`. */
  ghost predicate SameCounts(a: seq<int>, b: seq<int>, x: real) {
    CountAtMost(a, x) == CountAtMost(b, x) && CountAtLeast(a, x) == CountAtLeast(b, x)
  }

  lemma OddMedianOfRearranged(d: seq<int>, sd: seq<int>)
    requires Sorted(sd) && |sd| == |d| && |d| % 2 == 1
    requires forall x: real :: SameCounts(sd, d, x)
    ensures IsOddMedian(d, Median(sd))
  {
    MedianOfSorted(sd);
    assert SameCounts(sd, d, Median(sd));
  }

  lemma EvenMedianOfRearranged(d: seq<int>, sd: seq<int>)
    requires Sorted(sd) && |sd| == |d| && |d| % 2 == 0 && |d| > 0
    requires forall x: real :: SameCounts(sd, d, x)
    ensures exists lo, hi :: IsLowerMedian(d, lo) && IsUpperMedian(d, hi) && Median(sd) == (lo + hi) / 2.0
  {
    MedianOfSorted(sd);
    var mid := |sd| / 2;
    var lo, hi := sd[mid - 1] as real, sd[mid] as real;
    assert SameCounts(sd, d, lo) && SameCounts(sd, d, hi);
    assert IsLowerMedian(d, lo) && IsUpperMedian(d, hi);
  }

  lemma EstimateIsMedianOfSortedGaps(timestamps: seq<int>)
    requires |timestamps| >= 2
    ensures |AdjacentDifferences(SortAsc(timestamps))| == |timestamps| - 1
    ensures EstimateHeadway(timestamps) == Median(SortAsc(AdjacentDifferences(SortAsc(timestamps))))
  {
    var sorted := SortAsc(timestamps);
    ForwardGapsOfSorted(sorted);
  }

  lemma {:induction false} CountsDisjoint(d: seq<int>, v: real, w: real)
    requires v < w
    ensures CountAtMost(d, v) + CountAtLeast(d, w) <= |d|
  {
    if d != [] {
      CountsDisjoint(d[1..], v, w);
    }
  }

  /** The counting conditions pin the median down: at most one value is
      the odd median, the lower middle or the upper middle of a list. */
  lemma MedianConditionsUnique(d: seq<int>, v: real, w: real)
    ensures IsOddMedian(d, v) && IsOddMedian(d, w) ==> v == w
    ensures IsLowerMedian(d, v) && IsLowerMedian(d, w) ==> v == w
    ensures IsUpperMedian(d, v) && IsUpperMedian(d, w) ==> v == w
  {
    if v < w {
      CountsDisjoint(d, v, w);
    } else if w < v {
      CountsDisjoint(d, w, v);
    }
  }
}

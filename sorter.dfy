/** Recursive three-way quicksort by location, first element as pivot
    (`quick_sort` of src/merchants.py). */
module Sorter {
  import opened Partitioner

  /** Non-decreasing by location. */
  predicate SortedByLocation(s: seq<Merchant>) {
    forall i, j :: 0 <= i < j < |s| ==> s[i].location <= s[j].location
  }

  /** Sorts `lst` by location: `QuickSort(less) + equal + QuickSort(greater)`
      around the first element's location. The result is a permutation of
      the input and non-decreasing. */
  function QuickSort(lst: seq<Merchant>): (r: seq<Merchant>)
    ensures |r| == |lst|
    ensures multiset(r) == multiset(lst)
    ensures SortedByLocation(r)
    decreases |lst|
  {
    if |lst| == 0 then []
    else
      var p := lst[0].location;
      PartitionShrinks(lst);
      var less, equal, greater := Bucket(lst, p, Below), Bucket(lst, p, Level), Bucket(lst, p, Above);
      var left, right := QuickSort(less), QuickSort(greater);
      SameSide(left, lst, p, Below);
      SameSide(right, lst, p, Above);
      SortedJoin(left, equal, right, p);
      BucketsPreserveMultiset(lst, p);
      left + equal + right
  }

  /** A permutation of a bucket lies entirely on that bucket's side. */
  lemma SameSide(part: seq<Merchant>, data: seq<Merchant>, pivot: int, side: Side)
    requires multiset(part) == multiset(Bucket(data, pivot, side))
    ensures forall x :: x in part ==> SideOf(x.location, pivot) == side
  {
    forall x | x in part ensures SideOf(x.location, pivot) == side {
      assert x in multiset(Bucket(data, pivot, side));
      assert x in Bucket(data, pivot, side);
    }
  }

  /** Sorted pieces lying strictly below, at, and strictly above `p` join into
      a sorted sequence. */
  lemma SortedJoin(left: seq<Merchant>, equal: seq<Merchant>, right: seq<Merchant>, p: int)
    requires SortedByLocation(left) && SortedByLocation(right)
    requires forall x :: x in left ==> x.location < p
    requires forall x :: x in equal ==> x.location == p
    requires forall x :: x in right ==> x.location > p
    ensures SortedByLocation(left + equal + right)
  {
  }

  /** Stability: for every location `v`, the merchants at `v` appear in the
      sorted result in exactly their input order. */
  lemma {:induction false} QuickSortStable(lst: seq<Merchant>, v: int)
    ensures Bucket(QuickSort(lst), v, Level) == Bucket(lst, v, Level)
    decreases |lst|
  {
    if lst != [] {
      var p := lst[0].location;
      PartitionShrinks(lst);
      var less, equal, greater := Bucket(lst, p, Below), Bucket(lst, p, Level), Bucket(lst, p, Above);
      QuickSortStable(less, v);
      QuickSortStable(greater, v);
      BucketAppend(QuickSort(less) + equal, QuickSort(greater), v, Level);
      BucketAppend(QuickSort(less), equal, v, Level);
      LevelOfBucket(lst, p, Below, v);
      LevelOfBucket(lst, p, Level, v);
      LevelOfBucket(lst, p, Above, v);
    }
  }

  /** Every bucket of a sorted sequence is sorted. */
  lemma {:induction false} SortedBucket(s: seq<Merchant>, pivot: int, side: Side)
    requires SortedByLocation(s)
    ensures SortedByLocation(Bucket(s, pivot, side))
    decreases |s|
  {
    if s != [] {
      var init, last := s[..|s| - 1], s[|s| - 1];
      SortedBucket(init, pivot, side);
      var rest := Bucket(init, pivot, side);
      forall i | 0 <= i < |rest| ensures rest[i].location <= last.location {
        assert rest[i] in rest;
      }
    }
  }

  /** A sorted sequence is already the concatenation of its three buckets
      around any pivot location. */
  lemma {:induction false} SortedSplit(s: seq<Merchant>, pivot: int)
    requires SortedByLocation(s)
    ensures s == Bucket(s, pivot, Below) + Bucket(s, pivot, Level) + Bucket(s, pivot, Above)
    decreases |s|
  {
    if s != [] {
      var init, last := s[..|s| - 1], s[|s| - 1];
      assert s == init + [last];
      assert SortedByLocation(init) by {
        forall i, j | 0 <= i < j < |init| ensures init[i].location <= init[j].location {
          assert init[i] == s[i] && init[j] == s[j];
        }
      }
      assert forall i :: 0 <= i < |init| ==> init[i].location <= last.location by {
        forall i | 0 <= i < |init| ensures init[i].location <= last.location {
          assert init[i] == s[i];
        }
      }
      SortedSplit(init, pivot);
      SplitAppendLargest(init, last, pivot);
    }
  }

  /** Appending an element no smaller than any other keeps a sequence equal
      to the concatenation of its buckets: the new element closes the last
      non-empty bucket. */
  lemma SplitAppendLargest(init: seq<Merchant>, last: Merchant, pivot: int)
    requires forall i :: 0 <= i < |init| ==> init[i].location <= last.location
    requires init == Bucket(init, pivot, Below) + Bucket(init, pivot, Level) + Bucket(init, pivot, Above)
    ensures init + [last] == Bucket(init + [last], pivot, Below) + Bucket(init + [last], pivot, Level)
                             + Bucket(init + [last], pivot, Above)
  {
    var s := init + [last];
    assert s[..|s| - 1] == init;
    var below, level, above := Bucket(init, pivot, Below), Bucket(init, pivot, Level), Bucket(init, pivot, Above);
    match SideOf(last.location, pivot)
    case Below =>
      EmptyBucket(init, pivot, Level);
      EmptyBucket(init, pivot, Above);
      assert s == below + [last] + [] + [];
    case Level =>
      EmptyBucket(init, pivot, Above);
      assert s == below + (level + [last]) + [];
    case Above =>
      assert s == below + level + (above + [last]);
  }

  /** Sorting a sorted sequence changes nothing. */
  lemma {:induction false} QuickSortOfSorted(s: seq<Merchant>)
    requires SortedByLocation(s)
    ensures QuickSort(s) == s
    decreases |s|
  {
    if s != [] {
      var p := s[0].location;
      PartitionShrinks(s);
      SortedBucket(s, p, Below);
      SortedBucket(s, p, Above);
      QuickSortOfSorted(Bucket(s, p, Below));
      QuickSortOfSorted(Bucket(s, p, Above));
      SortedSplit(s, p);
    }
  }

  /** Sorting twice is sorting once. */
  lemma QuickSortIdempotent(lst: seq<Merchant>)
    ensures QuickSort(QuickSort(lst)) == QuickSort(lst)
  {
    QuickSortOfSorted(QuickSort(lst));
  }
}

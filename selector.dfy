/** Recursive three-way selection of the group of merchants at a given rank
    (`quick_select` of src/merchants.py). */
module Selector {
  import opened Partitioner
  import opened Sorter

  /** The whole equal bucket that rank `k` (zero-based, in location order)
      falls in, narrowing into `less` or `greater` otherwise. Any rank outside
      `0 <= k < |lst|`, negative ones included, ends in an empty list. */
  function QuickSelect(lst: seq<Merchant>, k: int): (r: seq<Merchant>)
    ensures r == [] <==> !(0 <= k < |lst|)
    decreases |lst|
  {
    if |lst| == 0 then []
    else
      var p := lst[0].location;
      PartitionShrinks(lst);
      var less, equal, greater := Bucket(lst, p, Below), Bucket(lst, p, Level), Bucket(lst, p, Above);
      BucketsPreserveMultiset(lst, p);
      var count, m := |equal|, |less|;
      if k >= m && k < m + count then equal
      else if m > k then QuickSelect(less, k)
      else QuickSelect(greater, k - m - count)
  }

  /** For a rank inside the list, the selection is exactly the in-order
      subsequence of the input at the location the sorted list has at that
      rank: every tie is kept and nothing else is. */
  lemma {:induction false} QuickSelectIsTieGroup(lst: seq<Merchant>, k: int)
    requires 0 <= k < |lst|
    ensures QuickSelect(lst, k) == Bucket(lst, QuickSort(lst)[k].location, Level)
    decreases |lst|
  {
    var p := lst[0].location;
    PartitionShrinks(lst);
    var less, equal, greater := Bucket(lst, p, Below), Bucket(lst, p, Level), Bucket(lst, p, Above);
    BucketsPreserveMultiset(lst, p);
    var left, right := QuickSort(less), QuickSort(greater);
    var sorted := left + equal + right;
    var m, count := |less|, |equal|;
    if k < m {
      assert sorted[k] == left[k];
      SameSide(left, lst, p, Below);
      assert left[k] in left;
      QuickSelectIsTieGroup(less, k);
      LevelOfBucket(lst, p, Below, left[k].location);
    } else if k < m + count {
      assert sorted[k] == equal[k - m];
      assert equal[k - m] in equal;
      assert equal == Bucket(lst, equal[k - m].location, Level);
    } else {
      var j := k - m - count;
      assert sorted[k] == right[j];
      SameSide(right, lst, p, Above);
      assert right[j] in right;
      QuickSelectIsTieGroup(greater, j);
      LevelOfBucket(lst, p, Above, right[j].location);
    }
  }

  /** What the caller relies on: for a rank inside the list the selection is
      non-empty, and every merchant in it sits at the sorted list's location
      at that rank. */
  lemma QuickSelectAgreesWithSort(lst: seq<Merchant>, k: int)
    requires 0 <= k < |lst|
    ensures QuickSelect(lst, k) != []
    ensures forall x :: x in QuickSelect(lst, k) ==> x.location == QuickSort(lst)[k].location
  {
    QuickSelectIsTieGroup(lst, k);
  }
}

# Median store location for merchants on a line

A Dafny model of the selection core of `src/merchants.py`. Merchants have a
name and an integer location. The program finds a median merchant and adds up
every merchant's absolute distance to it. It has two ways to do this:

- the "slow" path sorts with a three-way quicksort and takes the element at
  index `n // 2`;
- the "fast" path uses a three-way quickselect at rank `n // 2` and takes the
  first merchant of the group it returns.

Both paths partition around the first element's location. The partition keeps
input order inside each of its three buckets.

The model has four modules, one per component:

- `Partitioner` (`partitioner.dfy`): the `Merchant` record and `_partition`.
  The partition loop is a method. It is proved to compute `Bucket`, a pure
  in-order filter that the recursive functions use.
- `Sorter` (`sorter.dfy`): `quick_sort` as a recursive function. Its contract
  says the result is a permutation of the input and is sorted by location. The
  lemmas beside it prove stability and idempotence.
- `Selector` (`selector.dfy`): `quick_select` as a recursive function, with
  lemmas tying it to the sort.
- `Median` (`median.dfy`): the distance sum and the two branches of `main`,
  with the accumulator loop as a method. It also proves that both paths pick
  the same median location, and that this location minimises the total
  distance.

In partition terms, `Below`, `Level` and `Above` are the source's `less`,
`equal` and `greater`. The partition tests `<` first, then `>`; every other
element is equal.

The pivot is a parameter of `_partition` and need not be an element of the
list. The `equal` bucket holds exactly the elements of the list whose location
equals the pivot's; the pivot itself is never added on its own. So `equal` is
empty when no element has the pivot's location. The sort and the selection
always pass the list's first element, so there `equal` is never empty. Both
recurse as the source does, without an explicit work stack.

`quick_select` takes any integer rank. The model proves what the code does:
the result is empty exactly when the rank lies outside `0 <= k < n`, negative
ranks included. For a rank inside the list, the result is the whole group of
tied merchants, in input order. The two paths agree on the median's location.
Their merchant can differ when several merchants share that location.

## Model

| member | source | states |
|---|---|---|
| `Partitioner.Bucket` | src/merchants.py:35-41 | a merchant is in a bucket exactly when it is in the input and its location is on that bucket's side of the pivot (below, equal, above); a bucket is no longer than the input |
| `Partitioner.Partition` | src/merchants.py:25-42 | the loop's three lists are the in-order buckets of the input; every element of `less` is below the pivot's location, every element of `equal` is at it, every element of `greater` is above it; together the three are a permutation of the input |
| `Partitioner.BucketsPreserveMultiset` | src/merchants.py:34-42 | the three buckets together hold the input's elements with their multiplicities (nothing created, dropped or duplicated), and their lengths add up to the input's |
| `Partitioner.PartitionShrinks` | src/merchants.py:53-54 | with the first element as pivot, that element lands in `equal`, so `less` and `greater` are each strictly shorter than the input (the recursion terminates) |
| `Partitioner.BucketAppend` | src/merchants.py:35-41 | the partition is stable: the bucket of a concatenation is the concatenation of the buckets, so each bucket keeps input order |
| `Partitioner.LevelOfBucket` | src/merchants.py:35-41 | the merchants at a location `v` inside one bucket are all of the input's merchants at `v`, in input order, if `v` is on that bucket's side, and none otherwise |
| `Sorter.QuickSort` | src/merchants.py:44-55 | the result has the input's length, is a permutation of the input (same multiset) and is non-decreasing by location; the empty list sorts to the empty list |
| `Sorter.QuickSortStable` | src/merchants.py:53-55 | stability: for every location, the merchants at that location appear in the sorted result in exactly their input order |
| `Sorter.QuickSortOfSorted` | src/merchants.py:50-55 | a list already sorted by location is returned unchanged |
| `Sorter.QuickSortIdempotent` | src/merchants.py:44-55 | sorting twice gives the same list as sorting once |
| `Selector.QuickSelect` | src/merchants.py:57-73 | the result is empty if and only if the rank is outside `0 <= k < len(lst)`; this includes the empty input for any rank |
| `Selector.QuickSelectIsTieGroup` | src/merchants.py:63-73 | for a rank inside the list, the result is exactly the in-order subsequence of the input at the sorted list's location at that rank |
| `Selector.QuickSelectAgreesWithSort` | src/merchants.py:65-73 | for a rank inside the list, the result is non-empty and every merchant in it has the location of the sorted list's element at that rank |
| `Median.DistanceSumPermutation` | src/merchants.py:91-92 | the distance sum depends only on the multiset of merchants, not on their order |
| `Median.SortedMedianOptimal` | src/merchants.py:89-92 | in a sorted non-empty list, the location at index `n // 2` gives a distance sum no larger than that of any other location |
| `Median.MedianIsOptimal` | src/merchants.py:89-92 | for any non-empty input, the location of the sorted list's element at `n // 2` minimises the total distance over all integer locations |
| `Median.FastMatchesSlow` | src/merchants.py:88-96 | for non-empty input, the fast path's median exists, is one of the input's merchants, and has the slow path's median location, so both distance sums are equal |
| `Median.SumOfDistances` | src/merchants.py:91-92 | the accumulator loop computes the sum of every merchant's absolute distance to the given location, as given by the recursive reference fold `Median.DistanceSum` (this row stands for both) |
| `Median.SlowMedian` | src/merchants.py:88-92 | the slow branch picks the sorted list's element at `n // 2`, which is one of the input's merchants; the sum it computes is that median's distance sum and is no larger than any location's |
| `Median.FastMedian` | src/merchants.py:93-96 | the fast branch picks `QuickSelect(lst, n // 2)[0]`, which is the first merchant, in input order, at the sorted median location; its sum is that location's distance sum and is no larger than any location's |
| `Median.Dispatch` | src/merchants.py:88-96 | the modes "slow" and "fast" produce a report and every other mode produces none; "slow" reports the sorted list's element at `n // 2`, "fast" the first merchant, in input order, at that element's location; either report names one of the input's merchants at the median location, with the optimal distance sum |
| `Median.WorkedExample` | src/merchants.py:88-96 | for merchants at locations 1, 3, 5 and 2, selection at rank 2 returns the merchant at 3, the sorted list has location 3 at index 2, and the distance sum to 3 is 5 |

## Left out

- `read_people` (src/merchants.py:10-23) is not part of this model. It reads a file, splits the lines into fields and parses integers. The model takes the list of merchants as a parameter.
- The command-line arguments, the timing with `time.clock()` and all printing in `main` are not modelled. This includes the second file read that only reports the count of merchants. The mode and the list of merchants are parameters of `Median.Dispatch`, and the report is its result.
- Median.SlowMedian: requires a non-empty list. On an empty list the source's summing loop does nothing and `sum` stays 0, but printing `slow_sort[slow_median]` at src/merchants.py:103 fails; the fast path fails earlier, at `[...][0]` on line 94. `Median.FastMedian` and `Median.Dispatch` (for "slow" and "fast") take the same precondition. A mode other than "slow" or "fast" accepts an empty list and computes nothing.
- Running time and recursion depth are not modelled: the expected O(n log n) and O(n) costs, and the quadratic worst case with the first element as pivot. They are not functional properties.
- Python lists are modelled as immutable sequences. The partition builds new lists by appending, and the model appends to sequence variables. No list is shared or updated after it is built, so aliasing plays no part.

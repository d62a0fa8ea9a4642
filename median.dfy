/** The median ("optimal store location") and the sum of distances to it, by
    the "slow" path (sort, then take the middle) and the "fast" path (select
    the middle rank, then take the first of its group), as `main` of
    src/merchants.py computes them. */
module Median {
  import opened Partitioner
  import opened Sorter
  import opened Selector

  /** The integer absolute value. */
  function Abs(x: int): (r: nat)
    ensures r == x || r == -x
  {
    if x < 0 then -x else x
  }

  /** The total distance from every merchant of `s` to location `c`,
      accumulated from the first merchant to the last. */
  function DistanceSum(s: seq<Merchant>, c: int): (r: nat)
    decreases |s|
  {
    if s == [] then 0 else DistanceSum(s[..|s| - 1], c) + Abs(s[|s| - 1].location - c)
  }

  /** The distance sum of one merchant is its own distance. */
  lemma DistanceSumOne(x: Merchant, c: int)
    ensures DistanceSum([x], c) == Abs(x.location - c)
  {
  }

  /** Distances add up over a concatenation. */
  lemma {:induction false} DistanceSumAppend(a: seq<Merchant>, b: seq<Merchant>, c: int)
    ensures DistanceSum(a + b, c) == DistanceSum(a, c) + DistanceSum(b, c)
    decreases |b|
  {
    if b == [] {
      assert a + b == a;
    } else {
      assert (a + b)[..|a + b| - 1] == a + b[..|b| - 1];
      DistanceSumAppend(a, b[..|b| - 1], c);
    }
  }

  /** Taking one merchant out of a sequence takes its distance off the sum. */
  lemma DistanceSumRemove(t: seq<Merchant>, i: int, c: int)
    requires 0 <= i < |t|
    ensures DistanceSum(t, c) == DistanceSum(t[..i] + t[i + 1..], c) + Abs(t[i].location - c)
  {
    var before, after := t[..i], t[i + 1..];
    assert t == before + [t[i]] + after;
    DistanceSumAppend(before, after, c);
    DistanceSumAppend(before + [t[i]], after, c);
    DistanceSumAppend(before, [t[i]], c);
    DistanceSumOne(t[i], c);
  }

  /** Removing the same merchant from two permutations of each other leaves
      permutations of each other. */
  lemma RemoveFromBoth(s: seq<Merchant>, t: seq<Merchant>, i: int)
    requires multiset(s) == multiset(t) && s != [] && 0 <= i < |t| && t[i] == s[|s| - 1]
    ensures multiset(t[..i] + t[i + 1..]) == multiset(s[..|s| - 1])
  {
    var x, init, rest := t[i], s[..|s| - 1], t[..i] + t[i + 1..];
    assert s == init + [x];
    assert t == t[..i] + [x] + t[i + 1..];
    assert multiset(t) == multiset(rest) + multiset{x};
    assert multiset(t) - multiset{x} == multiset(rest);
    assert multiset(s) == multiset(init) + multiset{x};
    assert multiset(s) - multiset{x} == multiset(init);
  }

  /** The distance sum depends only on which merchants there are, not on
      their order. */
  lemma {:induction false} DistanceSumPermutation(s: seq<Merchant>, t: seq<Merchant>, c: int)
    requires multiset(s) == multiset(t)
    ensures DistanceSum(s, c) == DistanceSum(t, c)
    decreases |s|
  {
    if s == [] {
      assert |t| == |multiset(t)| == 0;
    } else {
      var init, x := s[..|s| - 1], s[|s| - 1];
      assert s == init + [x];
      assert x in multiset(t);
      var i :| 0 <= i < |t| && t[i] == x;
      var rest := t[..i] + t[i + 1..];
      RemoveFromBoth(s, t, i);
      DistanceSumPermutation(init, rest, c);
      DistanceSumRemove(t, i, c);
    }
  }

  /** The distance sum split into the first merchant, the last one, and
      everything between. */
  lemma DistanceSumEnds(t: seq<Merchant>, x: int)
    requires |t| >= 2
    ensures DistanceSum(t, x)
            == Abs(t[0].location - x) + DistanceSum(t[1..|t| - 1], x) + Abs(t[|t| - 1].location - x)
  {
    var a, u, b := t[0], t[1..|t| - 1], t[|t| - 1];
    assert t == [a] + u + [b];
    DistanceSumAppend([a] + u, [b], x);
    DistanceSumAppend([a], u, x);
    DistanceSumOne(a, x);
    DistanceSumOne(b, x);
  }

  /** In a sorted sequence, the element at index `|t| / 2` is a location that
      minimises the total distance: pair the first with the last element and
      recurse on what lies between. */
  lemma {:induction false} SortedMedianOptimal(t: seq<Merchant>, c: int)
    requires t != [] && SortedByLocation(t)
    ensures DistanceSum(t, t[|t| / 2].location) <= DistanceSum(t, c)
    decreases |t|
  {
    var m := t[|t| / 2].location;
    if |t| == 1 {
      DistanceSumOne(t[0], m);
      assert t == [t[0]];
    } else {
      var u := t[1..|t| - 1];
      assert t[0].location <= m <= t[|t| - 1].location;
      DistanceSumEnds(t, m);
      DistanceSumEnds(t, c);
      if u != [] {
        assert u[|u| / 2] == t[|t| / 2];
        assert SortedByLocation(u) by {
          forall i, j | 0 <= i < j < |u| ensures u[i].location <= u[j].location {
            assert u[i] == t[i + 1] && u[j] == t[j + 1];
          }
        }
        SortedMedianOptimal(u, c);
      }
    }
  }

  /** The sorted list's middle location minimises the total distance over
      every location on the line. */
  lemma MedianIsOptimal(lst: seq<Merchant>, c: int)
    requires lst != []
    ensures DistanceSum(lst, QuickSort(lst)[|lst| / 2].location) <= DistanceSum(lst, c)
  {
    var sorted := QuickSort(lst);
    SortedMedianOptimal(sorted, c);
    DistanceSumPermutation(lst, sorted, c);
    DistanceSumPermutation(lst, sorted, sorted[|lst| / 2].location);
  }

  /** The fast path's median has the slow path's median location, so the two
      distance sums agree. */
  lemma FastMatchesSlow(lst: seq<Merchant>)
    requires lst != []
    ensures QuickSelect(lst, |lst| / 2) != []
    ensures QuickSelect(lst, |lst| / 2)[0] in lst
    ensures QuickSelect(lst, |lst| / 2)[0].location == QuickSort(lst)[|lst| / 2].location
    ensures DistanceSum(lst, QuickSelect(lst, |lst| / 2)[0].location)
            == DistanceSum(lst, QuickSort(lst)[|lst| / 2].location)
  {
    QuickSelectIsTieGroup(lst, |lst| / 2);
    assert QuickSelect(lst, |lst| / 2)[0] in QuickSelect(lst, |lst| / 2);
  }

  /** The accumulator loop of both branches of `main`: add up every
      merchant's distance to location `c`, first to last. */
  method SumOfDistances(lst: seq<Merchant>, c: int) returns (sum: int)
    ensures sum == DistanceSum(lst, c)
  {
    sum := 0;
    for i := 0 to |lst|
      invariant sum == DistanceSum(lst[..i], c)
    {
      assert lst[..i + 1][..i] == lst[..i];
      sum := sum + Abs(lst[i].location - c);
    }
    assert lst[..|lst|] == lst;
  }

  /** The "slow" branch of `main`: sort, take the middle merchant, and add up
      every merchant's distance to it. */
  method SlowMedian(lst: seq<Merchant>) returns (median: Merchant, sum: int)
    requires lst != []
    ensures median == QuickSort(lst)[|lst| / 2]
    ensures median in lst
    ensures sum == DistanceSum(lst, median.location)
    ensures forall c :: sum <= DistanceSum(lst, c)
  {
    var slowSort := QuickSort(lst);
    var slowMedian := |slowSort| / 2;
    median := slowSort[slowMedian];
    assert median in multiset(lst) by { assert median in slowSort; }
    sum := SumOfDistances(lst, median.location);
    forall c ensures sum <= DistanceSum(lst, c) {
      MedianIsOptimal(lst, c);
    }
  }

  /** The "fast" branch of `main`: select the group at rank `|lst| / 2`, take
      its first merchant, and add up every merchant's distance to it. That
      merchant is the first one, in input order, at the median location. */
  method FastMedian(lst: seq<Merchant>) returns (median: Merchant, sum: int)
    requires lst != []
    ensures median == QuickSelect(lst, |lst| / 2)[0]
    ensures Bucket(lst, QuickSort(lst)[|lst| / 2].location, Level) != []
    ensures median == Bucket(lst, QuickSort(lst)[|lst| / 2].location, Level)[0]
    ensures median in lst
    ensures median.location == QuickSort(lst)[|lst| / 2].location
    ensures sum == DistanceSum(lst, median.location)
    ensures forall c :: sum <= DistanceSum(lst, c)
  {
    FastMatchesSlow(lst);
    QuickSelectIsTieGroup(lst, |lst| / 2);
    median := QuickSelect(lst, |lst| / 2)[0];
    sum := SumOfDistances(lst, median.location);
    forall c ensures sum <= DistanceSum(lst, c) {
      MedianIsOptimal(lst, c);
    }
  }

  datatype Option<T> = None | Some(value: T)

  /** What `main` reports: the chosen store location and the distance sum. */
  datatype Report = Report(store: Merchant, sum: int)

  /** `main`'s choice between the two paths: "slow" and "fast" each compute a
      report, and any other mode computes nothing. */
  method Dispatch(mode: string, lst: seq<Merchant>) returns (report: Option<Report>)
    requires mode == "slow" || mode == "fast" ==> lst != []
    ensures report.Some? <==> mode == "slow" || mode == "fast"
    ensures mode == "slow" ==> report.Some? && report.value.store == QuickSort(lst)[|lst| / 2]
    ensures mode == "fast" ==> report.Some? && Bucket(lst, QuickSort(lst)[|lst| / 2].location, Level) != []
    ensures mode == "fast" ==>
              report.Some? && report.value.store == Bucket(lst, QuickSort(lst)[|lst| / 2].location, Level)[0]
    ensures report.Some? ==> report.value.store in lst
    ensures report.Some? ==> report.value.store.location == QuickSort(lst)[|lst| / 2].location
    ensures report.Some? ==> report.value.sum == DistanceSum(lst, report.value.store.location)
    ensures report.Some? ==> forall c :: report.value.sum <= DistanceSum(lst, c)
  {
    if mode == "slow" {
      var median, sum := SlowMedian(lst);
      report := Some(Report(median, sum));
    } else if mode == "fast" {
      var median, sum := FastMedian(lst);
      report := Some(Report(median, sum));
    } else {
      report := None;
    }
  }

  /** The first partition of the worked case below, around location 1. */
  lemma ExampleFirstPartition(a: Merchant, b: Merchant, c: Merchant, d: Merchant)
    requires a.location == 1 && b.location == 3 && c.location == 5 && d.location == 2
    ensures Bucket([a, b, c, d], 1, Below) == []
    ensures Bucket([a, b, c, d], 1, Level) == [a]
    ensures Bucket([a, b, c, d], 1, Above) == [b, c, d]
  {
    assert [a, b, c, d][..3] == [a, b, c] && [a, b, c][..2] == [a, b] && [a, b][..1] == [a] && [a][..0] == [];
    assert Bucket([a], 1, Below) == [] && Bucket([a], 1, Level) == [a] && Bucket([a], 1, Above) == [];
    assert Bucket([a, b], 1, Below) == [] && Bucket([a, b], 1, Level) == [a] && Bucket([a, b], 1, Above) == [b];
    assert Bucket([a, b, c], 1, Below) == [] && Bucket([a, b, c], 1, Level) == [a]
      && Bucket([a, b, c], 1, Above) == [b, c];
  }

  /** The second partition of the worked case below, around location 3. */
  lemma ExampleSecondPartition(b: Merchant, c: Merchant, d: Merchant)
    requires b.location == 3 && c.location == 5 && d.location == 2
    ensures Bucket([b, c, d], 3, Below) == [d]
    ensures Bucket([b, c, d], 3, Level) == [b]
  {
    assert [b, c, d][..2] == [b, c] && [b, c][..1] == [b] && [b][..0] == [];
    assert Bucket([b], 3, Below) == [] && Bucket([b], 3, Level) == [b];
    assert Bucket([b, c], 3, Below) == [] && Bucket([b, c], 3, Level) == [b];
  }

  /** The distance sum of the worked case below. */
  lemma ExampleDistance(a: Merchant, b: Merchant, c: Merchant, d: Merchant)
    requires a.location == 1 && b.location == 3 && c.location == 5 && d.location == 2
    ensures DistanceSum([a, b, c, d], 3) == 5
  {
    assert [a, b, c, d][..3] == [a, b, c] && [a, b, c][..2] == [a, b] && [a, b][..1] == [a] && [a][..0] == [];
    assert DistanceSum([a], 3) == 2;
    assert DistanceSum([a, b], 3) == 2;
    assert DistanceSum([a, b, c], 3) == 4;
  }

  /** A worked case: merchants at locations 1, 3, 5, 2 have median 3 at rank
      2 on both paths, and a total distance of 5 to it. */
  lemma WorkedExample(a: Merchant, b: Merchant, c: Merchant, d: Merchant)
    requires a.location == 1 && b.location == 3 && c.location == 5 && d.location == 2
    ensures QuickSelect([a, b, c, d], 2) == [b]
    ensures QuickSort([a, b, c, d])[2].location == 3
    ensures DistanceSum([a, b, c, d], 3) == 5
  {
    ExampleDistance(a, b, c, d);
    ExampleFirstPartition(a, b, c, d);
    ExampleSecondPartition(b, c, d);
    assert QuickSelect([a, b, c, d], 2) == QuickSelect([b, c, d], 1) == [b];
    FastMatchesSlow([a, b, c, d]);
  }
}

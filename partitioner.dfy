/** Merchants on a line and the three-way partition around a pivot's location
    (the `Merchant` record and `_partition` of src/merchants.py). */
module Partitioner {

  /** A merchant: a name (not necessarily unique) and an integer position. */
  datatype Merchant = Merchant(name: string, location: int)

  /** The three buckets of a partition. */
  datatype Side = Below | Level | Above

  /** The bucket a location falls in relative to a pivot location; strictly
      below is checked first, then strictly above, and everything else is level. */
  function SideOf(loc: int, pivot: int): (s: Side)
    ensures s == Below <==> loc < pivot
    ensures s == Above <==> loc > pivot
    ensures s == Level <==> loc == pivot
  {
    if loc < pivot then Below else if loc > pivot then Above else Level
  }

  /** The elements of `data` on `side` of `pivot`, in their input order.
      Defined on the last element, the way the partition loop appends. */
  function Bucket(data: seq<Merchant>, pivot: int, side: Side): (r: seq<Merchant>)
    ensures |r| <= |data|
    ensures forall x {:trigger x in r} :: x in r <==> x in data && SideOf(x.location, pivot) == side
    decreases |data|
  {
    if data == [] then []
    else
      var init, last := data[..|data| - 1], data[|data| - 1];
      assert data == init + [last];
      var rest := Bucket(init, pivot, side);
      if SideOf(last.location, pivot) == side then rest + [last] else rest
  }

  /** The partition loop: each element goes, in input order, to exactly one of
      `less`, `equal` and `greater`. */
  method Partition(data: seq<Merchant>, pivot: Merchant)
    returns (less: seq<Merchant>, equal: seq<Merchant>, greater: seq<Merchant>)
    ensures less == Bucket(data, pivot.location, Below)
    ensures equal == Bucket(data, pivot.location, Level)
    ensures greater == Bucket(data, pivot.location, Above)
    ensures forall x :: x in less ==> x.location < pivot.location
    ensures forall x :: x in equal ==> x.location == pivot.location
    ensures forall x :: x in greater ==> x.location > pivot.location
    ensures multiset(less) + multiset(equal) + multiset(greater) == multiset(data)
  {
    less, equal, greater := [], [], [];
    for i := 0 to |data|
      invariant less == Bucket(data[..i], pivot.location, Below)
      invariant equal == Bucket(data[..i], pivot.location, Level)
      invariant greater == Bucket(data[..i], pivot.location, Above)
    {
      assert data[..i + 1][..i] == data[..i];
      var element := data[i];
      if element.location < pivot.location {
        less := less + [element];
      } else if element.location > pivot.location {
        greater := greater + [element];
      } else {
        equal := equal + [element];
      }
    }
    assert data[..|data|] == data;
    BucketsPreserveMultiset(data, pivot.location);
  }

  /** No element is created, dropped or duplicated by a partition. */
  lemma {:induction false} BucketsPreserveMultiset(data: seq<Merchant>, pivot: int)
    ensures multiset(Bucket(data, pivot, Below)) + multiset(Bucket(data, pivot, Level))
            + multiset(Bucket(data, pivot, Above)) == multiset(data)
    ensures |Bucket(data, pivot, Below)| + |Bucket(data, pivot, Level)| + |Bucket(data, pivot, Above)| == |data|
    decreases |data|
  {
    if data != [] {
      var init, last := data[..|data| - 1], data[|data| - 1];
      assert data == init + [last];
      BucketsPreserveMultiset(init, pivot);
    }
  }

  /** When the pivot is the first element, it lands in the equal bucket, so
      both other buckets are strictly shorter than the input. */
  lemma PartitionShrinks(data: seq<Merchant>)
    requires data != []
    ensures data[0] in Bucket(data, data[0].location, Level)
    ensures |Bucket(data, data[0].location, Below)| < |data|
    ensures |Bucket(data, data[0].location, Above)| < |data|
  {
  }

  /** Buckets are order-preserving: the bucket of a concatenation is the
      concatenation of the buckets. Together with the one-element case this
      pins a bucket down as the in-order subsequence of its elements. */
  lemma {:induction false} BucketAppend(a: seq<Merchant>, b: seq<Merchant>, pivot: int, side: Side)
    ensures Bucket(a + b, pivot, side) == Bucket(a, pivot, side) + Bucket(b, pivot, side)
    decreases |b|
  {
    if b == [] {
      assert a + b == a;
    } else {
      var init, last := b[..|b| - 1], b[|b| - 1];
      assert (a + b)[..|a + b| - 1] == a + init;
      BucketAppend(a, init, pivot, side);
    }
  }

  /** The merchants at location `v` among one bucket of a partition around
      `pivot` are all the merchants at `v`, when `v` lies on that side of the
      pivot, and none otherwise. */
  lemma {:induction false} LevelOfBucket(data: seq<Merchant>, pivot: int, side: Side, v: int)
    ensures Bucket(Bucket(data, pivot, side), v, Level)
            == if SideOf(v, pivot) == side then Bucket(data, v, Level) else []
    decreases |data|
  {
    if data != [] {
      var init, last := data[..|data| - 1], data[|data| - 1];
      LevelOfBucket(init, pivot, side, v);
      var inner := Bucket(init, pivot, side);
      if SideOf(last.location, pivot) == side {
        assert (inner + [last])[..|inner + [last]| - 1] == inner;
      }
    }
  }

  /** A bucket with no candidate elements is empty. */
  lemma EmptyBucket(data: seq<Merchant>, pivot: int, side: Side)
    requires forall i :: 0 <= i < |data| ==> SideOf(data[i].location, pivot) != side
    ensures Bucket(data, pivot, side) == []
  {
  }
}

/**
 * `useBuckets` and `useCreateBucket`: the bucket query's empty-list fallback, the
 * derived `bucketTypes` and `getBucketsByType`, and the unkeyed create mutation that
 * invalidates `['buckets']` on success only.
 */
module UseBuckets {
  import opened Wrappers
  import opened SeqUtil
  import opened Entities
  import opened QueryCache

  /** The query function's `data || []`: a null list from the API becomes `[]`; any list (even an empty one) is kept. */
  function QueryFn(fetched: Option<seq<Bucket>>): (r: seq<Bucket>)
    ensures fetched.None? ==> r == []
    ensures fetched.Some? ==> r == fetched.value
    ensures r == [] <==> fetched.None? || fetched.value == []
  {
    fetched.GetOr([])
  }

  /** `getBucketsByType(t)`: the buckets of type `t`, and `[]` while the data is undefined. */
  function BucketsOfType(data: Option<seq<Bucket>>, t: BucketType): (r: seq<Bucket>)
    ensures data.None? ==> r == []
    ensures forall b :: b in r <==> data.Some? && b in data.value && b.kind == t
  {
    if data.None? then [] else Filter(data.value, (b: Bucket) => b.kind == t)
  }

  /** The buckets of type `t` appear in their original order, each exactly as often as in the data. */
  lemma BucketsOfTypeExact(data: seq<Bucket>, t: BucketType)
    ensures IsSubsequence(BucketsOfType(Some(data), t), data)
    ensures forall b :: multiset(BucketsOfType(Some(data), t))[b] == if b.kind == t then multiset(data)[b] else 0
  {
    FilterSubsequence(data, (b: Bucket) => b.kind == t);
    FilterMultiset(data, (b: Bucket) => b.kind == t);
  }

  /** `Array.from(new Set(data?.map(b => b.type) || []))`: every type present, once, in order of first appearance. */
  function BucketTypes(data: Option<seq<Bucket>>): (r: seq<BucketType>)
    ensures NoDuplicates(r)
    ensures data.None? ==> r == []
    ensures forall t :: t in r <==> data.Some? && exists b :: b in data.value && b.kind == t
  {
    if data.None? then []
    else
      var kinds := Map(data.value, (b: Bucket) => b.kind);
      assert forall t :: t in kinds <==> exists b :: b in data.value && b.kind == t by {
        forall t
          ensures t in kinds <==> exists b :: b in data.value && b.kind == t
        {
          if t in kinds {
            var i :| 0 <= i < |kinds| && kinds[i] == t;
            assert data.value[i] in data.value && data.value[i].kind == t;
          }
          if exists b :: b in data.value && b.kind == t {
            var b :| b in data.value && b.kind == t;
            var i :| 0 <= i < |data.value| && data.value[i] == b;
            assert kinds[i] == t;
          }
        }
      }
      Distinct(kinds)
  }

  /** The groups `getBucketsByType(t)` for `t` in `types`, one after the other. */
  function Grouped(data: seq<Bucket>, types: seq<BucketType>): seq<Bucket>
  {
    if types == [] then [] else BucketsOfType(Some(data), types[0]) + Grouped(data, types[1..])
  }

  /** Over distinct types, each bucket lands in the groups exactly as often as in the data if its type is listed, and never otherwise. */
  lemma {:induction false} GroupedCount(data: seq<Bucket>, types: seq<BucketType>)
    requires NoDuplicates(types)
    ensures forall b :: multiset(Grouped(data, types))[b] == if b.kind in types then multiset(data)[b] else 0
  {
    if types != [] {
      var rest := types[1..];
      assert NoDuplicates(rest) by {
        forall i, j | 0 <= i < j < |rest| ensures rest[i] != rest[j] {
          assert rest[i] == types[i + 1] && rest[j] == types[j + 1];
        }
      }
      assert types[0] !in rest by {
        forall j | 0 <= j < |rest| ensures rest[j] != types[0] {
          assert rest[j] == types[j + 1];
        }
      }
      GroupedCount(data, rest);
      BucketsOfTypeExact(data, types[0]);
      assert forall k :: k in types <==> k == types[0] || k in rest by {
        assert types == [types[0]] + rest;
      }
    }
  }

  /** The groups over `bucketTypes` together hold every bucket exactly once: they partition the data. */
  lemma GroupsPartitionBuckets(data: seq<Bucket>)
    ensures multiset(Grouped(data, BucketTypes(Some(data)))) == multiset(data)
  {
    var types := BucketTypes(Some(data));
    GroupedCount(data, types);
    forall b ensures multiset(Grouped(data, types))[b] == multiset(data)[b] {
      if b in data {
        assert b.kind in types;
      }
    }
  }

  /** `useCreateBucket`'s `onSuccess`. */
  method CreateBucketOnSuccess(c: Cache)
    modifies c
    ensures c.invalidated == old(c.invalidated) + {Buckets}
    ensures c.slots == old(c.slots)
  {
    c.InvalidateQueries(Buckets);
  }

  /** `useCreateBucket` run to completion: no optimistic change; only `['buckets']`, and only on success. */
  method CreateBucket(c: Cache, succeeds: bool)
    modifies c
    ensures c.slots == old(c.slots)
    ensures c.invalidated == old(c.invalidated) + (if succeeds then {Buckets} else {})
  {
    if succeeds {
      CreateBucketOnSuccess(c);
    }
  }
}

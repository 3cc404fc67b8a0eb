/**
 * The bucket edit hooks: `updateBucketMutation` has no optimistic step and
 * invalidates on success only; `deleteBucket` optimistically filters `['buckets']`,
 * rolls back on error, and invalidates both slots when settled.
 */
module UseEditBucket {
  import opened Wrappers
  import opened Rows
  import opened QueryCache

  /** `updateBucketMutation` run to completion: the slots are untouched; success invalidates both slots. */
  method UpdateBucket(c: Cache, succeeds: bool)
    modifies c
    ensures c.slots == old(c.slots)
    ensures c.invalidated == old(c.invalidated) + (if succeeds then {Buckets, Transactions} else {})
  {
    if succeeds {
      c.InvalidateQueries(Buckets);
      c.InvalidateQueries(Transactions);
    }
  }

  /** What `deleteBucket`'s `mutationFn` resolves to: `{ id }` with the requested id, `None` when the remote delete failed. */
  function DeleteBucketResult(id: string, succeeds: bool): (r: Option<string>)
    ensures r.Some? <==> succeeds
    ensures r.Some? ==> r.value == id
  {
    if succeeds then Some(id) else None
  }

  /** `deleteBucket`'s `onMutate`: filter the bucket out of `['buckets']`; no other slot is touched. */
  method DeleteOnMutate(c: Cache, id: string) returns (previousBuckets: Option<seq<Row>>)
    modifies c
    ensures previousBuckets == Lookup(old(c.slots), Buckets)
    ensures c.slots == Optimistic(old(c.slots), Buckets, RemoveWhere(id))
    ensures Lookup(c.slots, Transactions) == Lookup(old(c.slots), Transactions)
    ensures c.invalidated == old(c.invalidated)
  {
    previousBuckets := c.SnapshotAndPatch(Buckets, RemoveWhere(id));
  }

  /** `deleteBucket`'s `onError`. */
  method DeleteOnError(c: Cache, previousBuckets: Option<seq<Row>>)
    modifies c
    ensures c.slots == Rollback(old(c.slots), Buckets, previousBuckets)
    ensures c.invalidated == old(c.invalidated)
  {
    c.RestoreSnapshot(Buckets, previousBuckets);
  }

  /** `deleteBucket`'s `onSettled`. */
  method DeleteOnSettled(c: Cache)
    modifies c
    ensures c.invalidated == old(c.invalidated) + {Buckets, Transactions}
    ensures c.slots == old(c.slots)
  {
    c.InvalidateQueries(Buckets);
    c.InvalidateQueries(Transactions);
  }

  /**
   * `deleteBucket` run to completion. The bucket's transactions stay in
   * `['transactions']`; a failure restores `['buckets']` verbatim.
   */
  method DeleteBucket(c: Cache, id: string, succeeds: bool) returns (result: Option<string>)
    modifies c
    ensures result == DeleteBucketResult(id, succeeds)
    ensures c.slots == if succeeds then Optimistic(old(c.slots), Buckets, RemoveWhere(id)) else old(c.slots)
    ensures Lookup(c.slots, Transactions) == Lookup(old(c.slots), Transactions)
    ensures c.invalidated == old(c.invalidated) + {Buckets, Transactions}
  {
    var previousBuckets := DeleteOnMutate(c, id);
    result := DeleteBucketResult(id, succeeds);
    if !succeeds {
      DeleteOnError(c, previousBuckets);
      RollbackIsVerbatim(old(c.slots), Buckets, RemoveWhere(id));
    }
    DeleteOnSettled(c);
  }
}

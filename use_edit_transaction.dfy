/**
 * The transaction edit and delete hooks: optimistic merge or filter of the
 * `['transactions']` slot, rollback on error, and invalidation of both
 * `['transactions']` and `['buckets']` when settled.
 */
module UseEditTransaction {
  import opened Wrappers
  import opened Rows
  import opened QueryCache

  /** `editMutation`'s `onMutate`: merge `updates` into the row with this id. */
  method EditOnMutate(c: Cache, id: string, updates: Row) returns (previousTransactions: Option<seq<Row>>)
    modifies c
    ensures previousTransactions == Lookup(old(c.slots), Transactions)
    ensures c.slots == Optimistic(old(c.slots), Transactions, MergeWhere(id, updates))
    ensures c.invalidated == old(c.invalidated)
  {
    previousTransactions := c.SnapshotAndPatch(Transactions, MergeWhere(id, updates));
  }

  /** `deleteMutation`'s `onMutate`: drop every row with this id. */
  method DeleteOnMutate(c: Cache, id: string) returns (previousTransactions: Option<seq<Row>>)
    modifies c
    ensures previousTransactions == Lookup(old(c.slots), Transactions)
    ensures c.slots == Optimistic(old(c.slots), Transactions, RemoveWhere(id))
    ensures c.invalidated == old(c.invalidated)
  {
    previousTransactions := c.SnapshotAndPatch(Transactions, RemoveWhere(id));
  }

  /** The `onError` both mutations share. */
  method OnError(c: Cache, previousTransactions: Option<seq<Row>>)
    modifies c
    ensures c.slots == Rollback(old(c.slots), Transactions, previousTransactions)
    ensures c.invalidated == old(c.invalidated)
  {
    c.RestoreSnapshot(Transactions, previousTransactions);
  }

  /** The `onSettled` both mutations share: balances derive from transactions, so both slots go stale. */
  method OnSettled(c: Cache)
    modifies c
    ensures c.invalidated == old(c.invalidated) + {Transactions, Buckets}
    ensures c.slots == old(c.slots)
  {
    c.InvalidateQueries(Transactions);
    c.InvalidateQueries(Buckets);
  }

  /** `editMutation` run to completion; a failure restores the slots verbatim. */
  method EditTransaction(c: Cache, id: string, updates: Row, succeeds: bool)
    modifies c
    ensures c.slots == if succeeds then Optimistic(old(c.slots), Transactions, MergeWhere(id, updates)) else old(c.slots)
    ensures c.invalidated == old(c.invalidated) + {Transactions, Buckets}
  {
    var previousTransactions := EditOnMutate(c, id, updates);
    if !succeeds {
      OnError(c, previousTransactions);
      RollbackIsVerbatim(old(c.slots), Transactions, MergeWhere(id, updates));
    }
    OnSettled(c);
  }

  /** `deleteMutation` run to completion; a failure restores the slots verbatim. */
  method DeleteTransaction(c: Cache, id: string, succeeds: bool)
    modifies c
    ensures c.slots == if succeeds then Optimistic(old(c.slots), Transactions, RemoveWhere(id)) else old(c.slots)
    ensures c.invalidated == old(c.invalidated) + {Transactions, Buckets}
  {
    var previousTransactions := DeleteOnMutate(c, id);
    if !succeeds {
      OnError(c, previousTransactions);
      RollbackIsVerbatim(old(c.slots), Transactions, RemoveWhere(id));
    }
    OnSettled(c);
  }
}

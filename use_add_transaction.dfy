/** `useAddTransaction`: keyed `addTransaction`, no optimistic step, success-only invalidation of `['transactions']`. */
module UseAddTransaction {
  import opened QueryCache

  /** `onSuccess`: only the transactions list goes stale. */
  method OnSuccess(c: Cache)
    modifies c
    ensures c.invalidated == old(c.invalidated) + {Transactions}
    ensures c.slots == old(c.slots)
  {
    c.InvalidateQueries(Transactions);
  }

  /**
   * The mutation run to completion: no slot is ever patched or restored; on success
   * exactly `['transactions']` is invalidated (not `['buckets']`), on failure nothing is.
   */
  method AddTransaction(c: Cache, succeeds: bool)
    modifies c
    ensures c.slots == old(c.slots)
    ensures c.invalidated == old(c.invalidated) + (if succeeds then {Transactions} else {})
  {
    if succeeds {
      OnSuccess(c);
    }
  }
}

/** `useTransfer`: keyed `transferFunds`, no optimistic step, success-only invalidation of two slots. */
module UseTransfer {
  import opened QueryCache

  /** `onSuccess`: transactions and buckets both go stale. */
  method OnSuccess(c: Cache)
    modifies c
    ensures c.invalidated == old(c.invalidated) + {Transactions, Buckets}
    ensures c.slots == old(c.slots)
  {
    c.InvalidateQueries(Transactions);
    c.InvalidateQueries(Buckets);
  }

  /** The mutation run to completion: the slots are never touched; only success invalidates. */
  method Transfer(c: Cache, succeeds: bool)
    modifies c
    ensures c.slots == old(c.slots)
    ensures c.invalidated == old(c.invalidated) + (if succeeds then {Transactions, Buckets} else {})
  {
    if succeeds {
      OnSuccess(c);
    }
  }
}

/**
 * The write hooks side by side: which `mutationKey` each one sets and which API
 * function its `mutationFn` calls, checked against the registry of defaults that
 * resumption depends on.
 */
module Mutations {
  import opened Wrappers
  import opened QueryClientConfig

  /** Every mutation the application issues. */
  datatype Write =
    | CreateSubscription | UpdateSubscription | DeleteSubscription   // useSubscriptions
    | EditTransaction | DeleteTransaction                           // useEditTransaction
    | UpdateBucket | DeleteBucket                                   // useEditBucket
    | CreateBucket                                                  // useCreateBucket
    | AddTransaction                                                // useAddTransaction
    | Transfer                                                      // useTransfer
    | PayBill                                                       // SubscriptionManager's payBill

  /** The `mutationKey` a write is created with; `useCreateBucket` and `payBill` set none. */
  function KeyOf(w: Write): (k: Option<MutationKey>)
    ensures k.None? <==> w == CreateBucket || w == PayBill
  {
    match w
    case CreateSubscription => Some(CreateSubscriptionKey)
    case UpdateSubscription => Some(UpdateSubscriptionKey)
    case DeleteSubscription => Some(DeleteSubscriptionKey)
    case EditTransaction => Some(UpdateTransactionKey)
    case DeleteTransaction => Some(DeleteTransactionKey)
    case UpdateBucket => Some(UpdateBucketKey)
    case DeleteBucket => Some(DeleteBucketKey)
    case CreateBucket => None
    case AddTransaction => Some(AddTransactionKey)
    case Transfer => Some(TransferFundsKey)
    case PayBill => None
  }

  /** The API call the hook's own `mutationFn` makes (payBill builds a bill payload, then adds it); the hook's callbacks are not part of it. */
  function HookOperation(w: Write): Operation {
    match w
    case CreateSubscription => Operation(CreateSubscriptionFn, false)
    case UpdateSubscription => Operation(UpdateSubscriptionFn, true)
    case DeleteSubscription => Operation(DeleteSubscriptionFn, false)
    case EditTransaction => Operation(UpdateTransactionFn, true)
    case DeleteTransaction => Operation(DeleteTransactionFn, false)
    case UpdateBucket => Operation(UpdateBucketFn, true)
    case DeleteBucket => Operation(DeleteBucketFn, false)
    case CreateBucket => Operation(CreateBucketFn, false)
    case AddTransaction => Operation(AddTransactionFn, false)
    case Transfer => Operation(TransferFundsFn, false)
    case PayBill => Operation(AddTransactionFn, false)
  }

  /** A keyed write resumes through the registry with the same API call its hook's `mutationFn` makes, and with nothing of its callbacks. */
  lemma KeyedWritesResume(w: Write)
    requires KeyOf(w).Some?
    ensures Resolve(StandardRegistry(), KeyOf(w)) == Some(HookOperation(w))
  {
  }

  /** An unkeyed write (`useCreateBucket`, `payBill`) finds no registered operation to resume with. */
  lemma UnkeyedWritesCannotResume(w: Write)
    requires w == CreateBucket || w == PayBill
    ensures Resolve(StandardRegistry(), KeyOf(w)).None?
  {
  }

  /** No two writes share a key, and the registered `createBucket` entry is used by no write. */
  lemma KeysDistinctAndCreateBucketUnused()
    ensures forall w1, w2 :: KeyOf(w1).Some? && KeyOf(w1) == KeyOf(w2) ==> w1 == w2
    ensures forall w :: KeyOf(w) != Some(CreateBucketKey)
  {
  }
}

/**
 * The shared query client's configuration: the query retry rule, the freshness
 * windows, the mutation retry count, and the registry of default mutation
 * functions that lets a paused write be resumed by its key after a reload.
 */
module QueryClientConfig {
  import opened Wrappers
  import opened Rows

  const MinuteMs: int := 1000 * 60
  /** Queries are fresh for 5 minutes after they were fetched. */
  const StaleTimeMs: int := 5 * MinuteMs
  /** Unused query data is kept for 24 hours. */
  const GcTimeMs: int := 24 * 60 * MinuteMs
  /** Mutations are retried a fixed number of times. */
  const MutationRetries: nat := 3
  /** Other query errors are retried while fewer than this many failures have occurred. */
  const QueryRetryLimit: nat := 3

  /** An error as the retry rule sees it: only its `status` property is read. */
  datatype QueryError = QueryError(status: Option<int>)

  /** The `retry` option for queries: never after a 404, otherwise while `failureCount < 3`. */
  function ShouldRetryQuery(failureCount: nat, error: QueryError): (retry: bool)
    ensures error.status == Some(404) ==> !retry
    ensures error.status != Some(404) ==> (retry <==> failureCount < QueryRetryLimit)
  {
    if error.status == Some(404) then false else failureCount < QueryRetryLimit
  }

  /** `retry: 3` for mutations: another attempt while fewer than three have failed, whatever the error. */
  function ShouldRetryMutation(failureCount: nat, error: QueryError): (retry: bool)
    ensures retry <==> failureCount < MutationRetries
  {
    failureCount < MutationRetries
  }

  /** Unlike a query, a mutation is retried after a 404 too, and neither is retried once three attempts have failed. */
  lemma RetryPoliciesCompared(failureCount: nat, error: QueryError)
    ensures error.status == Some(404) && failureCount < 3 ==> ShouldRetryMutation(failureCount, error) && !ShouldRetryQuery(failureCount, error)
    ensures failureCount >= 3 ==> !ShouldRetryMutation(failureCount, error) && !ShouldRetryQuery(failureCount, error)
    ensures error.status != Some(404) ==> ShouldRetryMutation(failureCount, error) == ShouldRetryQuery(failureCount, error)
  {
  }

  /**
   * How the API wrappers report a failed request: `throw new Error(error.message)`.
   * The new Error has no `status` property, whatever the server answered.
   */
  function WrapperError(serverStatus: Option<int>): (e: QueryError)
    ensures e.status.None?
  {
    QueryError(None)
  }

  /** As written, a not-found answer from the server is still retried: the 404 test cannot fire. */
  lemma NotFoundRetriedAsWritten()
    ensures ShouldRetryQuery(0, WrapperError(Some(404)))
    ensures forall s: Option<int>, n: nat :: ShouldRetryQuery(n, WrapperError(s)) <==> n < QueryRetryLimit
  {
  }

  /** The wrapper error the retry rule was written for: it keeps the server's status. */
  function WrapperErrorWithStatus(serverStatus: Option<int>): (e: QueryError)
    ensures e.status == serverStatus
  {
    QueryError(serverStatus)
  }

  /** With the status kept, a not-found answer is never retried and any other is retried at most three times. */
  lemma NotFoundNeverRetried(serverStatus: Option<int>, failureCount: nat)
    ensures serverStatus == Some(404) ==> !ShouldRetryQuery(failureCount, WrapperErrorWithStatus(serverStatus))
    ensures ShouldRetryQuery(failureCount, WrapperErrorWithStatus(serverStatus)) ==> failureCount < QueryRetryLimit
  {
  }

  /** A slot is stale once the stale window has elapsed since its data was fetched. */
  predicate IsStale(dataUpdatedAt: int, now: int) {
    now - dataUpdatedAt >= StaleTimeMs
  }

  /** Unused query data may be discarded once the retention window has elapsed. */
  predicate IsCollectable(unusedSince: int, now: int) {
    now - unusedSince >= GcTimeMs
  }

  /** Freshness: stale exactly from five minutes after the fetch on, and staying stale. */
  lemma StalenessWindow(dataUpdatedAt: int, now: int, later: int)
    ensures IsStale(dataUpdatedAt, now) <==> now >= dataUpdatedAt + 300000
    ensures IsStale(dataUpdatedAt, now) && now <= later ==> IsStale(dataUpdatedAt, later)
    ensures IsCollectable(dataUpdatedAt, now) <==> now >= dataUpdatedAt + 86400000
  {
  }

  /** The remote operations available for resumption (the API modules' write functions). */
  datatype ApiFunction =
    | CreateBucketFn | UpdateBucketFn | DeleteBucketFn
    | AddTransactionFn | UpdateTransactionFn | DeleteTransactionFn | TransferFundsFn
    | CreateSubscriptionFn | UpdateSubscriptionFn | DeleteSubscriptionFn

  /** A mutation's variables, in the three shapes the hooks pass. */
  datatype Variables =
    | IdOnly(id: string)                       // a delete: the id string
    | IdAndUpdates(id: string, updates: Row)   // an update: `{ id, updates }`
    | Payload(row: Row)                        // a create, add or transfer: the object to insert

  /** A registered `mutationFn`: an API function, either passed directly or behind `({id, updates}) => fn(id, updates)`. */
  datatype Operation = Operation(fn: ApiFunction, unpacksIdAndUpdates: bool)

  /** The remote call a mutation function makes. */
  datatype RemoteCall =
    | Call(fn: ApiFunction, argument: Variables)
    | CallWith(fn: ApiFunction, id: string, updates: Row)

  /**
   * Run a registered operation on a mutation's variables. An unpacking entry given
   * variables of another shape is outside what its parameter type admits; the model
   * gives `None` there rather than JavaScript's call with `undefined` fields.
   */
  function Invoke(op: Operation, vars: Variables): (call: Option<RemoteCall>)
    ensures !op.unpacksIdAndUpdates ==> call == Some(Call(op.fn, vars))
    ensures op.unpacksIdAndUpdates && vars.IdAndUpdates? ==> call == Some(CallWith(op.fn, vars.id, vars.updates))
    ensures op.unpacksIdAndUpdates && !vars.IdAndUpdates? ==> call.None?
  {
    if !op.unpacksIdAndUpdates then Some(Call(op.fn, vars))
    else match vars
      case IdAndUpdates(id, updates) => Some(CallWith(op.fn, id, updates))
      case _ => None
  }

  /** The mutation keys that appear in `setMutationDefaults` calls; `Name` is the key's text. */
  datatype MutationKey =
    | CreateBucketKey | UpdateBucketKey | DeleteBucketKey
    | AddTransactionKey | UpdateTransactionKey | DeleteTransactionKey | TransferFundsKey
    | CreateSubscriptionKey | UpdateSubscriptionKey | DeleteSubscriptionKey
  {
    function Name(): string {
      match this
      case CreateBucketKey => "createBucket"
      case UpdateBucketKey => "updateBucket"
      case DeleteBucketKey => "deleteBucket"
      case AddTransactionKey => "addTransaction"
      case UpdateTransactionKey => "updateTransaction"
      case DeleteTransactionKey => "deleteTransaction"
      case TransferFundsKey => "transferFunds"
      case CreateSubscriptionKey => "createSubscription"
      case UpdateSubscriptionKey => "updateSubscription"
      case DeleteSubscriptionKey => "deleteSubscription"
    }
  }

  /** The ten `setMutationDefaults` registrations. */
  function StandardRegistry(): map<MutationKey, Operation> {
    map[
      CreateBucketKey := Operation(CreateBucketFn, false),
      UpdateBucketKey := Operation(UpdateBucketFn, true),
      DeleteBucketKey := Operation(DeleteBucketFn, false),
      AddTransactionKey := Operation(AddTransactionFn, false),
      UpdateTransactionKey := Operation(UpdateTransactionFn, true),
      DeleteTransactionKey := Operation(DeleteTransactionFn, false),
      TransferFundsKey := Operation(TransferFundsFn, false),
      CreateSubscriptionKey := Operation(CreateSubscriptionFn, false),
      UpdateSubscriptionKey := Operation(UpdateSubscriptionFn, true),
      DeleteSubscriptionKey := Operation(DeleteSubscriptionFn, false)
    ]
  }

  /** Looking up a mutation's defaults by its key; a mutation without a key, or with an unregistered one, gets none. */
  function Resolve(registry: map<MutationKey, Operation>, key: Option<MutationKey>): (op: Option<Operation>)
    ensures op.Some? <==> key.Some? && key.value in registry
    ensures op.Some? ==> op.value == registry[key.value]
  {
    if key.Some? && key.value in registry then Some(registry[key.value]) else None
  }

  predicate IsUpdateKey(k: MutationKey) {
    k == UpdateBucketKey || k == UpdateTransactionKey || k == UpdateSubscriptionKey
  }

  /** The registry: every key registered, each bound to a different API function, exactly the three updates unpacking `{id, updates}`. */
  lemma RegistryShape()
    ensures forall k: MutationKey :: k in StandardRegistry()
    ensures forall k1, k2 :: k1 in StandardRegistry() && k2 in StandardRegistry() && k1 != k2 ==>
              StandardRegistry()[k1].fn != StandardRegistry()[k2].fn
    ensures forall k :: k in StandardRegistry() ==> (StandardRegistry()[k].unpacksIdAndUpdates <==> IsUpdateKey(k))
  {
    forall k: MutationKey ensures k in StandardRegistry() {
      match k
      case CreateBucketKey =>
      case UpdateBucketKey =>
      case DeleteBucketKey =>
      case AddTransactionKey =>
      case UpdateTransactionKey =>
      case DeleteTransactionKey =>
      case TransferFundsKey =>
      case CreateSubscriptionKey =>
      case UpdateSubscriptionKey =>
      case DeleteSubscriptionKey =>
    }
  }

  /** The registry holds exactly ten keys. */
  lemma RegistrySize()
    ensures |StandardRegistry().Keys| == 10
  {
    var bucketKeys := {CreateBucketKey, UpdateBucketKey, DeleteBucketKey};
    var transactionKeys := {AddTransactionKey, UpdateTransactionKey, DeleteTransactionKey, TransferFundsKey};
    var subscriptionKeys := {CreateSubscriptionKey, UpdateSubscriptionKey, DeleteSubscriptionKey};
    assert |bucketKeys + transactionKeys| == 7;
    assert StandardRegistry().Keys == (bucketKeys + transactionKeys) + subscriptionKeys;
  }

  /** An update entry calls its API function with exactly the `id` and `updates` it was given. */
  lemma UpdateEntriesUnpack(key: MutationKey, id: string, updates: Row)
    requires IsUpdateKey(key)
    ensures Invoke(StandardRegistry()[key], IdAndUpdates(id, updates)) == Some(CallWith(StandardRegistry()[key].fn, id, updates))
  {
  }

  /** Ten successive registrations over any table give the table overridden by the registry. */
  lemma RegistrationsAddRegistry(before: map<MutationKey, Operation>, after: map<MutationKey, Operation>)
    requires after == before[CreateBucketKey := Operation(CreateBucketFn, false)]
                            [UpdateBucketKey := Operation(UpdateBucketFn, true)]
                            [DeleteBucketKey := Operation(DeleteBucketFn, false)]
                            [AddTransactionKey := Operation(AddTransactionFn, false)]
                            [UpdateTransactionKey := Operation(UpdateTransactionFn, true)]
                            [DeleteTransactionKey := Operation(DeleteTransactionFn, false)]
                            [TransferFundsKey := Operation(TransferFundsFn, false)]
                            [CreateSubscriptionKey := Operation(CreateSubscriptionFn, false)]
                            [UpdateSubscriptionKey := Operation(UpdateSubscriptionFn, true)]
                            [DeleteSubscriptionKey := Operation(DeleteSubscriptionFn, false)]
    ensures after == before + StandardRegistry()
  {
    RegistryShape();
    assert after.Keys == (before + StandardRegistry()).Keys;
  }

  /** The client's table of mutation defaults, filled by `setMutationDefaults`. */
  class MutationDefaults {
    var defaults: map<MutationKey, Operation>

    constructor ()
      ensures defaults == map[]
    {
      defaults := map[];
    }

    /** `queryClient.setMutationDefaults([key], { mutationFn })`: a later registration replaces an earlier one. */
    method SetMutationDefaults(key: MutationKey, op: Operation)
      modifies this
      ensures defaults == old(defaults)[key := op]
    {
      defaults := defaults[key := op];
    }

    /** The defaults a mutation with this key picks up. */
    function GetMutationDefaults(key: Option<MutationKey>): Option<Operation>
      reads this
    {
      Resolve(defaults, key)
    }

    /** The ten registrations made when the client module loads. */
    method RegisterAll()
      modifies this
      ensures defaults == old(defaults) + StandardRegistry()
    {
      ghost var before := defaults;
      SetMutationDefaults(CreateBucketKey, Operation(CreateBucketFn, false));
      SetMutationDefaults(UpdateBucketKey, Operation(UpdateBucketFn, true));
      SetMutationDefaults(DeleteBucketKey, Operation(DeleteBucketFn, false));
      SetMutationDefaults(AddTransactionKey, Operation(AddTransactionFn, false));
      SetMutationDefaults(UpdateTransactionKey, Operation(UpdateTransactionFn, true));
      SetMutationDefaults(DeleteTransactionKey, Operation(DeleteTransactionFn, false));
      SetMutationDefaults(TransferFundsKey, Operation(TransferFundsFn, false));
      SetMutationDefaults(CreateSubscriptionKey, Operation(CreateSubscriptionFn, false));
      SetMutationDefaults(UpdateSubscriptionKey, Operation(UpdateSubscriptionFn, true));
      SetMutationDefaults(DeleteSubscriptionKey, Operation(DeleteSubscriptionFn, false));
      RegistrationsAddRegistry(before, defaults);
    }
  }
}

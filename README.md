# Guardian Tracker: a Dafny model of the offline-first cache and budget logic

Guardian Tracker is a personal-budget web app. Money sits in *buckets*: income, envelope, goal and income source. It moves through *transactions*: signed amounts, some flagged as transfers. Recurring bills are *subscriptions*. The app reads and writes through a query client that keeps one cached list per query key (`['subs']`, `['transactions']`, `['buckets']`). Its mutations are retried and persisted, and paused writes are resumed after a reload.

This project models the parts of the app that are logic rather than layout:

* **Optimistic cache protocol** (`QueryCache`, `UseSubscriptions`, `UseEditTransaction`, `UseEditBucket`).
  * Each optimistic hook snapshots the slot in `onMutate`, patches it only when it holds data, restores the snapshot verbatim in `onError` and invalidates in `onSettled`.
  * The cache is a `Cache` class whose hook callbacks are methods. They are proved against the pure slot functions `Optimistic` and `Rollback`.
  * The end-to-end methods show that a failed write leaves the cache exactly as it was. A successful write leaves the patched list. Both outcomes invalidate the same keys.
* **Invalidation-only writes** (`UseAddTransaction`, `UseTransfer`, `UseBuckets`, `UseEditBucket.UpdateBucket`, `SubscriptionManager.PayBill`). The cached lists are never touched, and the listed keys are invalidated only on success.
* **Client policy** (`QueryClientConfig`, `Mutations`, `Persistence`):
  * the 5-minute stale and 24-hour garbage-collection windows;
  * the query and mutation retry rules;
  * the ten-entry registry of default mutation functions, and which hook writes can be resumed through it;
  * the 7-day persistence of successful queries and paused mutations;
  * the restore-then-resume start-up sequence.
* **Transfer pair** (`TransactionsApi`). One transfer inserts two rows that cancel out, so balances move between exactly the two buckets and the total is unchanged.
* **Derived metrics** (`Dashboard`, `SpendingChart`):
  * dashboard sections;
  * balances;
  * envelope and goal percentages, clamped to 0–100 with the JavaScript behaviour of division by zero;
  * the three envelope colours;
  * the five most recent transactions;
  * the spending chart, which groups non-transfer spending per bucket, drops income buckets and applies the fallback name and colour.
* **Dialog payloads** (`AddTransactionDrawer`, `PaydayDialog`, `TransferDialog`, `EditTransactionDialog`, `SubscriptionManager`, `CreateBucketDialog`).
  * The guard of each submit handler, and the exact variables it sends.
  * The form state afterwards: it is reset only when the awaited mutation resolves.

Cached rows are property maps (`Rows.Row = map<string, Value>`), so the JavaScript spread `{...a, ...b}` is map union `a + b`. Metrics use typed records (`Entities`). Form number fields are `Forms.NumField`: an empty string, which `Number` reads as 0, or an entered integer.

Parameters stand in for everything outside the app's own code:

* the clock: `now`, `nowIso`, `startOfMonth`;
* the signed-in user: `Option<string>`;
* the server: a `succeeds` flag, or fetched data;
* local storage: `Persistence.Stored`.

## Model

| member | source | states |
|---|---|---|
| SeqUtil.Filter | src/App.tsx:26-28 | `Array.filter`: the result keeps exactly the elements satisfying the predicate and is no longer than the input |
| SeqUtil.FilterMultiset | src/App.tsx:26-28 | filtering keeps every satisfying element with its full multiplicity and drops the others entirely |
| SeqUtil.FilterSubsequence | src/hooks/useSubscriptions.ts:94-96 | filtering preserves the relative order of the kept elements |
| SeqUtil.SubsequenceOfTail | src/hooks/useSubscriptions.ts:94-96 | a subsequence of a list's tail is a subsequence of the list |
| SeqUtil.FilterConcat | src/App.tsx:34-36 | filtering distributes over concatenation |
| SeqUtil.FilterIdempotent | src/main.tsx:17-24 | filtering twice by the same predicate is filtering once |
| SeqUtil.FilterAll | src/main.tsx:17-24 | a list whose every element satisfies the predicate is unchanged by filtering |
| SeqUtil.Map | src/hooks/useBuckets.ts:30 | `Array.map`: same length, the function applied at each position |
| SeqUtil.MapSnoc | src/hooks/useBuckets.ts:30 | mapping a list extended by one element extends the mapped list by its image |
| SeqUtil.Distinct | src/hooks/useBuckets.ts:30 | `Array.from(new Set(s))`: duplicate-free, the same members as the input, no longer, first element kept first |
| SeqUtil.DistinctSnoc | src/hooks/useBuckets.ts:30 | the insertion-ordered set of a list extended by one element gains that element at the end only if it was new |
| Rows.Spread | src/hooks/useSubscriptions.ts:66 | `{...a, ...b}`: the keys of both, the value from `b` wherever `b` has the key and from `a` otherwise |
| Rows.MergeById | src/hooks/useSubscriptions.ts:65-67 | same length; rows with another id untouched; each row with the id becomes the row spread with the updates |
| Rows.RemoveById | src/hooks/useSubscriptions.ts:94-96 | no row with the id remains, every other row remains, and nothing new appears |
| Rows.RemoveKeepsOrder | src/hooks/useEditTransaction.ts:46-48 | the filtered list is a subsequence of the original, so order is kept |
| Rows.RemoveAbsentId | src/hooks/useEditBucket.ts:37-41 | removing an id no row has leaves the list unchanged |
| Rows.MergeKeepsIds | src/hooks/useEditTransaction.ts:21-23 | updates without an `id` key keep every row's id, so unique ids stay unique |
| Rows.RemoveKeepsUniqueIds | src/hooks/useEditTransaction.ts:46-48 | removing rows keeps ids unique |
| Rows.AppendKeepsUniqueIds | src/hooks/useSubscriptions.ts:36 | appending a row whose id is fresh keeps ids unique |
| QueryCache.Optimistic | src/hooks/useSubscriptions.ts:27-38 | other slots unchanged; an empty slot left as it is; a filled slot replaced by the patched list |
| QueryCache.Rollback | src/hooks/useSubscriptions.ts:41-45 | other slots unchanged; a snapshot holding data written back; an empty snapshot leaves the cache alone |
| QueryCache.RollbackIsVerbatim | src/hooks/useSubscriptions.ts:25-45 | restoring the snapshot taken before any optimistic patch gives back exactly the original cache |
| QueryCache.Cache.constructor | src/lib/queryClient.ts:17-34 | a fresh client has no cached lists and nothing invalidated |
| QueryCache.Cache.GetQueryData | src/hooks/useSubscriptions.ts:27 | `getQueryData`: what the slot holds, `undefined` for a slot never filled; this is the snapshot `SnapshotAndPatch` returns |
| QueryCache.Cache.SetQueryData | src/hooks/useSubscriptions.ts:43 | `setQueryData` overwrites exactly one slot and invalidates nothing |
| QueryCache.Cache.InvalidateQueries | src/hooks/useSubscriptions.ts:47 | `invalidateQueries` marks one key and leaves every cached list as it was |
| QueryCache.Cache.SnapshotAndPatch | src/hooks/useSubscriptions.ts:27-38 | returns the slot's previous contents and leaves the cache as `Optimistic` on the old cache |
| QueryCache.Cache.RestoreSnapshot | src/hooks/useSubscriptions.ts:41-45 | leaves the cache as `Rollback` of the old cache with the snapshot |
| UseSubscriptions.DecimalString | src/hooks/useSubscriptions.ts:32 | a timestamp's decimal form is non-empty and has at least two digits from 10 on |
| UseSubscriptions.DecimalStringInjective | src/hooks/useSubscriptions.ts:32 | distinct timestamps never print the same |
| UseSubscriptions.TempId | src/hooks/useSubscriptions.ts:32 | `temp-${Date.now()}`: every temp id starts with `temp-`; distinct milliseconds give distinct ids (TempIdsDiffer) |
| UseSubscriptions.TempIdsDiffer | src/hooks/useSubscriptions.ts:32 | `temp-${Date.now()}` ids created at different milliseconds differ |
| UseSubscriptions.OptimisticSub | src/hooks/useSubscriptions.ts:31-35 | the optimistic row has the insert's keys plus `id` and `created_at`; the insert's own fields win; the temp id and timestamp fill the rest |
| UseSubscriptions.OptimisticCreateAppends | src/hooks/useSubscriptions.ts:36 | the optimistic list is the old list with the new row last, one longer |
| UseSubscriptions.OptimisticCreateKeepsUniqueIds | src/hooks/useSubscriptions.ts:30-37 | the optimistic append keeps the list's ids unique when no cached subscription already holds the temp id |
| UseSubscriptions.SameMillisecondCreatesCollide | src/hooks/useSubscriptions.ts:32-36 | two creates in the same millisecond leave two rows with the same temp id |
| UseSubscriptions.CreateOnMutate | src/hooks/useSubscriptions.ts:25-40 | returns the `['subs']` snapshot and appends the optimistic row only to a filled slot, invalidating nothing |
| UseSubscriptions.UpdateOnMutate | src/hooks/useSubscriptions.ts:60-70 | returns the snapshot and merges the updates into the matching subscription |
| UseSubscriptions.DeleteOnMutate | src/hooks/useSubscriptions.ts:89-99 | returns the snapshot and filters the subscription out |
| UseSubscriptions.OnError | src/hooks/useSubscriptions.ts:41-45 | writes a data-holding snapshot back into `['subs']` |
| UseSubscriptions.OnSettled | src/hooks/useSubscriptions.ts:46-48 | invalidates `['subs']` without touching any list |
| UseSubscriptions.CreateSubscription | src/hooks/useSubscriptions.ts:22-49 | success leaves the appended list; failure leaves the whole cache exactly as before; both invalidate `['subs']` |
| UseSubscriptions.UpdateSubscription | src/hooks/useSubscriptions.ts:56-79 | success leaves the merged list; failure restores the cache verbatim; both invalidate `['subs']` |
| UseSubscriptions.DeleteSubscription | src/hooks/useSubscriptions.ts:86-108 | success leaves the filtered list; failure restores the cache verbatim; both invalidate `['subs']` |
| UseEditTransaction.EditOnMutate | src/hooks/useEditTransaction.ts:16-26 | returns the `['transactions']` snapshot and merges the updates into the matching transaction |
| UseEditTransaction.DeleteOnMutate | src/hooks/useEditTransaction.ts:41-51 | returns the snapshot and filters the transaction out |
| UseEditTransaction.OnError | src/hooks/useEditTransaction.ts:27-31 | writes a data-holding snapshot back |
| UseEditTransaction.OnSettled | src/hooks/useEditTransaction.ts:32-35 | invalidates transactions and buckets, lists untouched |
| UseEditTransaction.EditTransaction | src/hooks/useEditTransaction.ts:12-36 | success leaves the merged list; failure restores the cache verbatim; both invalidate transactions and buckets |
| UseEditTransaction.DeleteTransaction | src/hooks/useEditTransaction.ts:38-61 | success leaves the filtered list; failure restores the cache verbatim; both invalidate transactions and buckets |
| UseEditBucket.UpdateBucket | src/hooks/useEditBucket.ts:13-21 | no optimistic change; buckets and transactions are invalidated only on success |
| UseEditBucket.DeleteBucketResult | src/hooks/useEditBucket.ts:25-28 | the mutation resolves to `{ id }` exactly when the delete succeeds |
| UseEditBucket.DeleteOnMutate | src/hooks/useEditBucket.ts:29-44 | returns the `['buckets']` snapshot, filters the bucket out, and leaves the transactions slot alone |
| UseEditBucket.DeleteOnError | src/hooks/useEditBucket.ts:45-52 | writes a data-holding snapshot back |
| UseEditBucket.DeleteOnSettled | src/hooks/useEditBucket.ts:53-57 | invalidates buckets and transactions, lists untouched |
| UseEditBucket.DeleteBucket | src/hooks/useEditBucket.ts:23-58 | resolves to the id on success; success leaves the filtered bucket list; failure restores the cache verbatim; transactions are never patched |
| UseAddTransaction.OnSuccess | src/hooks/useAddTransaction.ts:11-15 | invalidates transactions only |
| UseAddTransaction.AddTransaction | src/hooks/useAddTransaction.ts:8-16 | no optimistic change; transactions are invalidated only on success |
| UseTransfer.OnSuccess | src/hooks/useTransfer.ts:11-15 | invalidates transactions and buckets |
| UseTransfer.Transfer | src/hooks/useTransfer.ts:8-16 | no optimistic change; both keys are invalidated only on success |
| UseBuckets.QueryFn | src/hooks/useBuckets.ts:21-24 | a missing result becomes the empty list; otherwise the data is passed through |
| UseBuckets.BucketsOfType | src/hooks/useBuckets.ts:36 | exactly the loaded buckets of that type; nothing before the data loads |
| UseBuckets.BucketsOfTypeExact | src/hooks/useBuckets.ts:36 | the selection keeps order and every matching bucket with its multiplicity |
| UseBuckets.BucketTypes | src/hooks/useBuckets.ts:30 | the distinct types occurring among the loaded buckets, no more and no fewer |
| UseBuckets.GroupedCount | src/hooks/useBuckets.ts:30-36 | grouping by distinct types counts each bucket once when its type is listed |
| UseBuckets.GroupsPartitionBuckets | src/hooks/useBuckets.ts:30-36 | querying every type from `bucketTypes` yields each bucket exactly once |
| UseBuckets.CreateBucketOnSuccess | src/hooks/useBuckets.ts:46-49 | invalidates buckets only |
| UseBuckets.CreateBucket | src/hooks/useBuckets.ts:44-50 | no optimistic change; buckets are invalidated only on success |
| QueryClientConfig.ShouldRetryQuery | src/lib/queryClient.ts:23-27 | an error with status 404 is never retried; otherwise a query is retried while fewer than three attempts have failed |
| QueryClientConfig.ShouldRetryMutation | src/lib/queryClient.ts:31 | a mutation is retried while fewer than three attempts have failed, whatever the error |
| QueryClientConfig.RetryPoliciesCompared | src/lib/queryClient.ts:23-31 | the policies differ only on a 404, which mutations retry and queries do not |
| QueryClientConfig.WrapperError | src/api/transactions.ts:13 | as written: the error the API wrappers throw carries no status |
| QueryClientConfig.NotFoundRetriedAsWritten | src/lib/queryClient.ts:25 | as written: a not-found query failure is still retried, since its status never reaches the retry rule |
| QueryClientConfig.WrapperErrorWithStatus | src/api/transactions.ts:13 | corrected: the thrown error keeps the server's status |
| QueryClientConfig.NotFoundNeverRetried | src/lib/queryClient.ts:23-27 | corrected: a not-found failure is never retried, and no failure is retried after three attempts |
| QueryClientConfig.IsStale | src/lib/queryClient.ts:21 | `staleTime`: data is stale once 5 minutes have passed since its fetch (stated by StalenessWindow) |
| QueryClientConfig.IsCollectable | src/lib/queryClient.ts:20 | `gcTime`: unused data may be dropped once 24 hours have passed (stated by StalenessWindow) |
| QueryClientConfig.StalenessWindow | src/lib/queryClient.ts:20-21 | data is stale from 5 minutes after its update and stays stale; it is collectable from 24 hours |
| QueryClientConfig.Invoke | src/lib/queryClient.ts:39-70 | a plain default receives the variables whole; an update default given `{ id, updates }` calls its API function with the two separately; variables of another shape are outside the model, since the parameter type excludes them, and give `None` |
| QueryClientConfig.Resolve | src/lib/queryClient.ts:39-70 | a mutation finds a default exactly when it has a key that is registered, and gets that key's entry |
| QueryClientConfig.RegistryShape | src/lib/queryClient.ts:39-70 | every key is registered, distinct keys call distinct API functions, and only the three update keys unpack their variables |
| QueryClientConfig.RegistrySize | src/lib/queryClient.ts:39-70 | exactly ten defaults are registered |
| QueryClientConfig.UpdateEntriesUnpack | src/lib/queryClient.ts:42-67 | every update default calls its API function with the id and the updates separately |
| QueryClientConfig.RegistrationsAddRegistry | src/lib/queryClient.ts:39-70 | the ten `setMutationDefaults` calls, in source order, add exactly the registry |
| QueryClientConfig.MutationDefaults.constructor | src/lib/queryClient.ts:17 | a new client has no mutation defaults |
| QueryClientConfig.MutationDefaults.SetMutationDefaults | src/lib/queryClient.ts:39-41 | registers or replaces one key's default |
| QueryClientConfig.MutationDefaults.GetMutationDefaults | src/lib/queryClient.ts:36-38 | the default a mutation with this key picks up: `Resolve` over the registered defaults |
| QueryClientConfig.MutationDefaults.RegisterAll | src/lib/queryClient.ts:39-70 | after the module's registrations the defaults are the old ones overlaid with the registry |
| Mutations.KeyOf | src/hooks/useBuckets.ts:44-45 | only bucket creation and paying a bill run without a mutation key |
| Mutations.KeyedWritesResume | src/lib/queryClient.ts:36-70 | every keyed hook write resolves, after a reload, to the same API call its hook's `mutationFn` makes; the hook's callbacks do not come with it |
| Mutations.UnkeyedWritesCannotResume | src/hooks/useBuckets.ts:44-50 | the unkeyed writes find no default to resume with |
| Mutations.KeysDistinctAndCreateBucketUnused | src/lib/queryClient.ts:39-41 | no two hook writes share a key, and no hook uses the `createBucket` key |
| Persistence.ShouldDehydrateMutation | src/main.tsx:17-20 | `shouldDehydrateMutation`: exactly the paused mutations are persisted (stated by DehydratedState) |
| Persistence.ShouldDehydrateQuery | src/main.tsx:21-24 | `shouldDehydrateQuery`: exactly the queries with status `success` are persisted (stated by DehydratedState) |
| Persistence.DehydratedState | src/main.tsx:17-24 | exactly the successful queries and the paused mutations are persisted |
| Persistence.DehydrateExact | src/main.tsx:17-24 | they are persisted in order and with their multiplicities |
| Persistence.DehydrateIdempotent | src/main.tsx:17-24 | dehydrating a dehydrated state changes nothing |
| Persistence.Persist | src/main.tsx:11-26 | the persisted client: the dehydrated state with the time it was written (PersistRestoreRoundTrip gives it back) |
| Persistence.Expired | src/main.tsx:15 | `maxAge`: a persisted client is discarded once more than 7 days have passed since it was written (ExpiredClientDropped) |
| Persistence.Restore | src/main.tsx:13-15 | corrupt storage fails the restore; an unexpired saved client is restored; a missing, expired or corrupt one leaves an empty client |
| Persistence.PersistRestoreRoundTrip | src/main.tsx:13-24 | restoring within 7 days gives back exactly the dehydrated state |
| Persistence.ExpiredClientDropped | src/main.tsx:15 | a client saved more than 7 days ago restores nothing and resumes nothing |
| Persistence.ResumeOne | src/main.tsx:27-30 | a paused mutation is dispatched exactly when its key resolves and its variables have the shape the registered function's parameter type admits; an unkeyed one is a no-op |
| Persistence.ResumePaused | src/main.tsx:27-30 | one outcome per paused mutation, listed in persisted order |
| Persistence.Startup | src/main.tsx:11-30 | the restored state is installed, and paused mutations are resumed only after a successful restore |
| Persistence.CorruptStoreResumesNothing | src/main.tsx:27-30 | a failed restore starts empty and resumes nothing |
| Persistence.RestartResumesPersistedPaused | src/main.tsx:11-30 | after a save and a restart within 7 days, exactly the paused mutations are resumed, in order |
| Persistence.UnkeyedPausedMutationNotReplayed | src/main.tsx:27-30 | a paused mutation without a key is not replayed |
| Persistence.PausedUpdateReplaysItsPayload | src/lib/queryClient.ts:42-67 | a paused keyed update is replayed with its own id and updates |
| Entities.Abs | src/components/dashboard/SpendingChart.tsx:24 | `Math.abs`: non-negative and equal to the value or its negation |
| Entities.FindBucket | src/components/dashboard/SpendingChart.tsx:34 | `Array.find` by id: a found bucket is the first with that id; none is found exactly when no bucket has it |
| Entities.SumAmountsConcat | src/App.tsx:34-36 | summing amounts distributes over concatenation |
| Dashboard.SectionsPartitionByType | src/App.tsx:26-28 | the three sections hold exactly the buckets of their type, never overlap, and omit income sources |
| Dashboard.Balance | src/App.tsx:31-38 | `getBalance`: 0 while transactions are undefined; otherwise the bucket's movements, additive over the list and moved by each transaction on its own bucket only (BalanceOfOne, BalanceOfConcat) |
| Dashboard.BalanceOfOne | src/App.tsx:31-38 | a single transaction contributes its amount to its own bucket only |
| Dashboard.BalanceOfConcat | src/App.tsx:31-38 | a balance is additive over the transaction list |
| Dashboard.BalanceWithoutOwnTransactions | src/App.tsx:31-38 | a bucket with no transactions, or no loaded list, has balance 0 |
| Dashboard.ClampedPercent | src/App.tsx:53-67 | with a non-zero base the percentage lies in 0–100 and is exact inside the range; over 0 it is `Infinity`/`-Infinity`/`NaN` clamped to 100/0/NaN |
| Dashboard.ClampedPercentMonotone | src/App.tsx:53-67 | over a positive base, more money never gives a lower percentage |
| Dashboard.MonthSpent | src/App.tsx:44-50 | the signed sum over the bucket's transactions dated on or after the start of the month (EnvelopeIgnoresOthers, EnvelopeCountsThisMonth) |
| Dashboard.GetEnvelopeMetrics | src/App.tsx:41-56 | without data: the full limit at 100%; otherwise the balance is the limit plus this month's signed amounts, and the percentage is that over the limit, clamped |
| Dashboard.EnvelopeIgnoresOthers | src/App.tsx:48-50 | a transaction for another bucket or from before the month does not change the envelope |
| Dashboard.EnvelopeCountsThisMonth | src/App.tsx:48-52 | a transaction this month for the envelope moves its balance by exactly its amount |
| Dashboard.GetGoalMetrics | src/App.tsx:59-70 | the amount saved is the all-time balance; the percentage is that over the target, clamped |
| Dashboard.EnvelopeColour | src/App.tsx:135 | green above 50%, yellow above 20% up to 50%, red otherwise (including `NaN`) |
| Dashboard.RecentActivity | src/App.tsx:191 | the first `min(5, n)` transactions in list order |
| TransactionsApi.AddMovesBalance | src/api/transactions.ts:17-32 | an inserted transaction moves its own bucket's balance by its amount and no other |
| TransactionsApi.TransferRows | src/api/transactions.ts:69-87 | two transfer-flagged rows for the user, `-amount` from the source and `+amount` to the destination, with the two notes |
| TransactionsApi.TransferPreservesTotal | src/api/transactions.ts:69-87 | a stored transfer leaves the sum over all transactions unchanged |
| TransactionsApi.TransferMovesBalances | src/api/transactions.ts:69-87 | the source falls and the destination rises by the amount; a self-transfer changes nothing; other buckets are untouched |
| SpendingChart.IsSpending | src/components/dashboard/SpendingChart.tsx:16-18 | a negative amount that is not a transfer |
| SpendingChart.Spending | src/components/dashboard/SpendingChart.tsx:16-18 | exactly the transactions with a negative amount that are not transfers |
| SpendingChart.SpentIn | src/components/dashboard/SpendingChart.tsx:22-30 | the reference per-bucket sum of absolute amounts that the loop's totals are proved equal to (TotalsAreSums) |
| SpendingChart.BucketIds | src/components/dashboard/SpendingChart.tsx:33 | `Object.keys(totals)`: the loop's first-seen key order (BucketIdsAreDistinct, BucketIdsMembers) |
| SpendingChart.Totals | src/components/dashboard/SpendingChart.tsx:21-30 | the `totals` record after the `forEach` (TotalsAreSums, GroupSpending) |
| SpendingChart.TotalsSnoc | src/components/dashboard/SpendingChart.tsx:22-30 | one more spending row adds its absolute amount to its bucket's total, creating the entry if needed |
| SpendingChart.BucketIdsSnoc | src/components/dashboard/SpendingChart.tsx:33 | the first-seen order of bucket keys grows only by a new bucket |
| SpendingChart.BucketIdsAreDistinct | src/components/dashboard/SpendingChart.tsx:21-33 | the key order the loop records equals the insertion order of the set of the spending rows' bucket ids |
| SpendingChart.BucketIdsMembers | src/components/dashboard/SpendingChart.tsx:21-33 | each key appears once, and the keys are exactly the buckets some spending row names |
| SpendingChart.KeysStep | src/components/dashboard/SpendingChart.tsx:25-28 | a loop step appends a bucket id to the key order exactly when the record has no entry for it |
| SpendingChart.TotalsStep | src/components/dashboard/SpendingChart.tsx:25-28 | a loop step in the shape of the truthiness test: a missing or zero entry is overwritten with the amount, any other is added to |
| SpendingChart.SpentInSnoc | src/components/dashboard/SpendingChart.tsx:22-30 | the reference per-bucket sum grows by the new row's absolute amount for its own bucket |
| SpendingChart.TotalsAreSums | src/components/dashboard/SpendingChart.tsx:21-30 | the totals record has exactly the spending buckets as keys, each mapped to the sum of its absolute amounts |
| SpendingChart.SpentInPositive | src/components/dashboard/SpendingChart.tsx:16-30 | since spending amounts are negative, every recorded bucket's total is positive |
| SpendingChart.TotalsHasKey | src/components/dashboard/SpendingChart.tsx:25 | a bucket has a total exactly when some spending row names it |
| SpendingChart.GroupSpending | src/components/dashboard/SpendingChart.tsx:21-30 | the `forEach` loop builds exactly the totals record and its key order |
| SpendingChart.EntryFor | src/components/dashboard/SpendingChart.tsx:33-43 | a bucket is dropped when its total is not positive or it is an income bucket; otherwise the entry has the total, and the bucket's name and colour or the fallbacks |
| SpendingChart.Entries | src/components/dashboard/SpendingChart.tsx:33-43 | as many entries as there are surviving keys, and never more than there are keys |
| SpendingChart.EntriesInKeyOrder | src/components/dashboard/SpendingChart.tsx:33-43 | exactly one entry per surviving key, in key order: the i-th entry is the entry of the i-th surviving key |
| SpendingChart.EntryKeys | src/components/dashboard/SpendingChart.tsx:33-43 | the keys that yield an entry, in key order; distinct keys stay distinct |
| SpendingChart.EntriesFromKeys | src/components/dashboard/SpendingChart.tsx:33-43 | every entry is positive and comes from a key, and every key that yields an entry has it in the list |
| SpendingChart.ChartedBuckets | src/components/dashboard/SpendingChart.tsx:12-45 | the charted buckets are exactly the spending buckets that are not income buckets, each once |
| SpendingChart.Chart | src/components/dashboard/SpendingChart.tsx:12-45 | one entry per charted bucket, each bucket once, in key order, each with the bucket's whole spend and its name and colour or the fallbacks |
| SpendingChart.ChartData | src/components/dashboard/SpendingChart.tsx:12-45 | empty until both lists load; otherwise the chart of the loaded lists |
| SpendingChart.ChartIgnoresNonSpending | src/components/dashboard/SpendingChart.tsx:16-18 | a deposit or a transfer row never changes the chart |
| SpendingChart.TransferInvisibleToChart | src/components/dashboard/SpendingChart.tsx:16-18 | a stored transfer pair never changes the chart |
| AddTransactionDrawer.ExpensePayload | src/components/dashboard/AddTransactionDrawer.tsx:36-44 | sent only with a user, an amount and a bucket; the amount is never positive; an empty note becomes "Cash Expense" |
| AddTransactionDrawer.AfterSubmit | src/components/dashboard/AddTransactionDrawer.tsx:46-50 | the drawer resets and closes only after a sent expense succeeds |
| AddTransactionDrawer.ExpenseLowersBalance | src/components/dashboard/AddTransactionDrawer.tsx:36-44 | a recorded expense never raises its bucket's balance |
| PaydayDialog.DepositPayload | src/components/dashboard/PaydayDialog.tsx:35-51 | sent only with a user, an amount and a bucket; the amount is never negative; the note is fixed |
| PaydayDialog.AfterDeposit | src/components/dashboard/PaydayDialog.tsx:53-56 | the dialog resets only after a sent deposit succeeds |
| PaydayDialog.DepositRaisesBalance | src/components/dashboard/PaydayDialog.tsx:46-51 | a recorded deposit never lowers its bucket's balance |
| TransferDialog.Options | src/components/dashboard/TransferDialog.tsx:80-84 | one option per bucket, disabled exactly when it is the other side's bucket |
| TransferDialog.ChooseFrom | src/components/dashboard/TransferDialog.tsx:75-84 | only the source changes, and only to an enabled bucket |
| TransferDialog.ChooseTo | src/components/dashboard/TransferDialog.tsx:92-101 | only the destination changes, and only to an enabled bucket |
| TransferDialog.SelectorsKeepSidesApart | src/components/dashboard/TransferDialog.tsx:80-101 | starting apart, no choice through the selectors makes the two sides equal |
| TransferDialog.TransferNote | src/components/dashboard/TransferDialog.tsx:40 | the destination's name when it has one, otherwise "Goal"; never empty |
| TransferDialog.TransferPayload | src/components/dashboard/TransferDialog.tsx:37-48 | sent only with a user, both sides and an amount; carries them unchanged with the note |
| TransferDialog.AfterTransfer | src/components/dashboard/TransferDialog.tsx:50-54 | the dialog resets only after a sent transfer succeeds |
| TransferDialog.SubmittedTransferMovesMoney | src/components/dashboard/TransferDialog.tsx:35-54 | a transfer chosen through the selectors lowers the source and raises the destination by the amount |
| EditTransactionDialog.InitialForm | src/components/dashboard/EditTransactionDialog.tsx:18-19 | the form opens on the absolute amount and the note, or "" without a note |
| EditTransactionDialog.FinalAmount | src/components/dashboard/EditTransactionDialog.tsx:24-25 | the typed number is negated exactly when the original amount was negative; so, for a non-negative typed number, an expense stays non-positive and a deposit non-negative (typing `-5` on an expense saves `+5`) |
| EditTransactionDialog.SaveVariables | src/components/dashboard/EditTransactionDialog.tsx:27-30 | the update names the transaction and sends exactly the amount and the note |
| EditTransactionDialog.SaveUnchangedKeepsAmount | src/components/dashboard/EditTransactionDialog.tsx:18-30 | saving an untouched form sends back the original signed amount |
| EditTransactionDialog.SaveKeepsIds | src/components/dashboard/EditTransactionDialog.tsx:27-30 | the update has no `id`, so merging it keeps the cache's ids unique |
| EditTransactionDialog.DeleteVariables | src/components/dashboard/EditTransactionDialog.tsx:34-35 | `handleDelete` sends the transaction's id (DialogTargetsItsTransaction) |
| EditTransactionDialog.DialogTargetsItsTransaction | src/components/dashboard/EditTransactionDialog.tsx:27-35 | save and delete both address the dialog's transaction |
| SubscriptionManager.BillPayload | src/components/dashboard/SubscriptionManager.tsx:45-51 | with a user: an expense of `-abs(amount)` to the subscription's bucket, noted "Bill: " and the name |
| SubscriptionManager.PayingLowersBalance | src/components/dashboard/SubscriptionManager.tsx:45-51 | paying a bill never raises its bucket's balance |
| SubscriptionManager.PayBillOnSuccess | src/components/dashboard/SubscriptionManager.tsx:53-56 | invalidates transactions only |
| SubscriptionManager.PayBill | src/components/dashboard/SubscriptionManager.tsx:44-57 | no optimistic change; transactions are invalidated only after a successful payment |
| SubscriptionManager.AddPayload | src/components/dashboard/SubscriptionManager.tsx:59-68 | sent only with a user, a name, an amount and a bucket; exactly five fields |
| SubscriptionManager.DefaultDayIsFirst | src/components/dashboard/SubscriptionManager.tsx:31-66 | an untouched day field bills on the 1st |
| SubscriptionManager.AfterAdd | src/components/dashboard/SubscriptionManager.tsx:70-74 | the add form resets, with the day back at 1, only after a sent create succeeds |
| SubscriptionManager.AddedBillGetsTempId | src/components/dashboard/SubscriptionManager.tsx:62-68 | the new bill appears in the cache under its temp id and timestamp with all five fields |
| SubscriptionManager.BeginEdit | src/components/dashboard/SubscriptionManager.tsx:77-83 | the edit form copies name, amount, day and bucket, an empty bucket becoming unset |
| SubscriptionManager.SaveEditVariables | src/components/dashboard/SubscriptionManager.tsx:85-96 | sent only while editing; exactly four fields; an unset bucket is sent as `undefined` |
| SubscriptionManager.UnchangedEditResendsFields | src/components/dashboard/SubscriptionManager.tsx:77-96 | saving an untouched edit resends the subscription's own name, amount and day |
| SubscriptionManager.AfterSaveEdit | src/components/dashboard/SubscriptionManager.tsx:97 | editing ends only after a sent save succeeds |
| SubscriptionManager.ConfirmDeleteVariables | src/components/dashboard/SubscriptionManager.tsx:104-108 | a delete is sent only for a chosen subscription, by its id |
| SubscriptionManager.EnvelopeBuckets | src/components/dashboard/SubscriptionManager.tsx:111 | exactly the envelope buckets, in order |
| CreateBucketDialog.HandleSubmit | src/components/dashboard/CreateBucketDialog.tsx:31-53 | sent only with a user; gold for goals, blue for income, green otherwise; the form resets only after success |
| CreateBucketDialog.ColourFor | src/components/dashboard/CreateBucketDialog.tsx:36-38 | gold for goals, blue for income, green otherwise; HandleSubmit's successive `if`s are proved to choose it |
| CreateBucketDialog.CreatedBucketChartedInItsColour | src/components/dashboard/CreateBucketDialog.tsx:36-46 | a created non-income bucket with spending is charted in its type's colour |

## Left out

- Query-client internals are not modelled: `cancelQueries`, fetching, offline pause detection, the retry timer and the localStorage persister's serialisation. The model covers the cache's observable effects, the registration and the app's options.
- Mutations.KeyedWritesResume: a write resumed after a reload runs only the registered API function. Its hook's `onMutate`, `onError`, `onSettled` and `onSuccess` do not run, so a failure rolls nothing back and a success invalidates nothing. The registered `deleteBucket` default also resolves to the API's `true` rather than the hook's `{ id }`. The model states the shared API call and no more.
- QueryClientConfig.Invoke: variables of a shape other than `{ id, updates }` given to an update default are outside the model. The parameter type excludes them; JavaScript would call the API with `undefined` fields.
- UseSubscriptions.CreateSubscription: the temp id is not proved fresh. Two creates in the same millisecond get the same `temp-${Date.now()}` id, so unique ids in `['subs']` are kept only under the freshness premise of UseSubscriptions.OptimisticCreateKeepsUniqueIds (UseSubscriptions.SameMillisecondCreatesCollide shows the collision).
- Persistence.ResumePaused: states one outcome per paused mutation in persisted order. The library's own dispatch order and concurrency are not claimed.
- API wrappers and Supabase are a `succeeds` flag or fetched data. Row ids, server defaults and database constraints are not part of this model.
- Concurrency between overlapping mutations and refetches is not modelled. Each end-to-end method runs one mutation to completion.
- Floating point is not modelled. Amounts are integers, and `Number(s)` of a form field is the entered integer or 0 for `""`. NaN input, `-0`, decimal amounts and `toFixed` display are not modelled.
- Dashboard.GetEnvelopeMetrics: the limit and Dashboard.GetGoalMetrics' target are integers. A `null` `target_amount`, which JavaScript reads as 0, is the case of a zero limit.
- `Object.keys` lists integer-like keys first. SpendingChart.GroupSpending keeps first-seen order, which is the JavaScript order for the non-numeric ids buckets have.
- `is_transfer` is a boolean. `null` and `false` behave alike in the chart filter, and that is all the model needs.
- Rendering, JSX layout, toasts, confetti, the login screen, `AuthProvider`, `ManageBucketsDrawer` and `BurnRateAlert` are not part of this model.
- Transfers are not optimistic, and temp ids are never swapped for server ids. The code does neither, so the model does not either.
- Persistence.Restore: a library-reported `MutationExpired` is not modelled, only the expiry of the whole client.

## Findings

| source | as written | input that shows it | evidently intended | confidence | as-written member | corrected member |
|---|---|---|---|---|---|---|
| src/lib/queryClient.ts:25 with src/api/transactions.ts:13 | the query retry rule tests `error.status === 404`, but the API wrappers rethrow `new Error(error.message)`, which has no `status` | a fetch answered 404 on the first attempt (`failureCount` 0): the thrown error has no status and is retried | a not-found failure is not retried | medium, not executed | QueryClientConfig.NotFoundRetriedAsWritten | QueryClientConfig.NotFoundNeverRetried |

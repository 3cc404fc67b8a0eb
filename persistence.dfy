/**
 * The persistence options of the client provider: what is written to storage
 * (successful queries, paused mutations), how old a stored client may be when it
 * is restored (7 days), and the resumption of paused mutations once the restore
 * has succeeded. Storage itself, (de)serialisation and the library's resume
 * scheduling are represented only by their outcomes.
 */
module Persistence {
  import opened Wrappers
  import opened SeqUtil
  import opened Rows
  import opened QueryCache
  import opened QueryClientConfig

  datatype QueryStatus = Pending | Failed | Success

  /** A cached query as the dehydrate filter sees it. */
  datatype QueryRecord = QueryRecord(key: SlotKey, status: QueryStatus, data: Option<seq<Row>>)

  /** A mutation held by the client: its key (if any), its variables and whether it is paused. */
  datatype MutationRecord = MutationRecord(key: Option<MutationKey>, variables: Variables, isPaused: bool)

  datatype ClientState = ClientState(queries: seq<QueryRecord>, mutations: seq<MutationRecord>)

  /** `shouldDehydrateMutation`: persist exactly the paused mutations. */
  predicate ShouldDehydrateMutation(m: MutationRecord) {
    m.isPaused
  }

  /** `shouldDehydrateQuery`: persist exactly the queries whose status is `success`. */
  predicate ShouldDehydrateQuery(q: QueryRecord) {
    q.status == Success
  }

  /** `maxAge`: seven days in milliseconds. */
  const MaxAgeMs: int := 1000 * 60 * 60 * 24 * 7

  /** A persisted client: the dehydrated state and when it was written. */
  datatype PersistedClient = PersistedClient(state: ClientState, timestamp: int)

  /** What dehydration keeps of a client state, in its original order. */
  function DehydratedState(state: ClientState): (r: ClientState)
    ensures forall q :: q in r.queries <==> q in state.queries && q.status == Success
    ensures forall m :: m in r.mutations <==> m in state.mutations && m.isPaused
  {
    ClientState(Filter(state.queries, ShouldDehydrateQuery), Filter(state.mutations, ShouldDehydrateMutation))
  }

  /** Persisting the client at time `now`. */
  function Persist(state: ClientState, now: int): PersistedClient {
    PersistedClient(DehydratedState(state), now)
  }

  /** Dehydration keeps each successful query and paused mutation as often as the state holds it, in order. */
  lemma DehydrateExact(state: ClientState)
    ensures IsSubsequence(DehydratedState(state).queries, state.queries)
    ensures IsSubsequence(DehydratedState(state).mutations, state.mutations)
    ensures forall q :: multiset(DehydratedState(state).queries)[q] == if q.status == Success then multiset(state.queries)[q] else 0
    ensures forall m :: multiset(DehydratedState(state).mutations)[m] == if m.isPaused then multiset(state.mutations)[m] else 0
  {
    FilterSubsequence(state.queries, ShouldDehydrateQuery);
    FilterSubsequence(state.mutations, ShouldDehydrateMutation);
    FilterMultiset(state.queries, ShouldDehydrateQuery);
    FilterMultiset(state.mutations, ShouldDehydrateMutation);
  }

  /** Persisting is idempotent: dehydrating an already dehydrated state keeps all of it. */
  lemma DehydrateIdempotent(state: ClientState)
    ensures DehydratedState(DehydratedState(state)) == DehydratedState(state)
  {
    FilterIdempotent(state.queries, ShouldDehydrateQuery);
    FilterIdempotent(state.mutations, ShouldDehydrateMutation);
  }

  /** What the persister hands back at startup. A blob that fails to deserialise is `Corrupt`. */
  datatype Stored = Missing | Corrupt | Saved(client: PersistedClient)

  /** A stored client is too old once more than `maxAge` has elapsed since it was written. */
  predicate Expired(client: PersistedClient, now: int) {
    now - client.timestamp > MaxAgeMs
  }

  /** The result of restoring: the client state after hydration, and whether the restore succeeded. */
  datatype RestoreResult = RestoreResult(state: ClientState, succeeded: bool)

  const EmptyClient := ClientState([], [])

  /**
   * Restoring into a fresh client: nothing stored and an expired client are both a
   * successful restore of nothing; an unreadable blob is a failed restore; otherwise
   * the stored state is hydrated.
   */
  function Restore(stored: Stored, now: int): (r: RestoreResult)
    ensures r.succeeded <==> !stored.Corrupt?
    ensures stored.Saved? && !Expired(stored.client, now) ==> r.state == stored.client.state
    ensures !(stored.Saved? && !Expired(stored.client, now)) ==> r.state == EmptyClient
  {
    match stored
    case Missing => RestoreResult(EmptyClient, true)
    case Corrupt => RestoreResult(EmptyClient, false)
    case Saved(client) =>
      if Expired(client, now) then RestoreResult(EmptyClient, true) else RestoreResult(client.state, true)
  }

  /** Within seven days, restoring a persisted client gives back exactly its successful queries and paused mutations. */
  lemma PersistRestoreRoundTrip(state: ClientState, writtenAt: int, now: int)
    requires now - writtenAt <= MaxAgeMs
    ensures Restore(Saved(Persist(state, writtenAt)), now) == RestoreResult(DehydratedState(state), true)
    ensures forall q :: q in Restore(Saved(Persist(state, writtenAt)), now).state.queries <==> q in state.queries && q.status == Success
    ensures forall m :: m in Restore(Saved(Persist(state, writtenAt)), now).state.mutations <==> m in state.mutations && m.isPaused
  {
  }

  /** A persisted client older than seven days restores nothing, so none of its paused mutations is ever replayed. */
  lemma ExpiredClientDropped(state: ClientState, writtenAt: int, now: int)
    requires now - writtenAt > MaxAgeMs
    ensures Restore(Saved(Persist(state, writtenAt)), now).state == EmptyClient
    ensures Startup(Saved(Persist(state, writtenAt)), now).resumed == []
  {
  }

  /** What resuming one paused mutation does: either the remote call its registered operation makes, or nothing to run. */
  datatype ResumeOutcome = Dispatched(call: RemoteCall) | NoOperation

  /** Resuming one paused mutation through the registry. */
  function ResumeOne(m: MutationRecord): (r: ResumeOutcome)
    ensures r.Dispatched? <==> (Resolve(StandardRegistry(), m.key).Some?
      && Invoke(Resolve(StandardRegistry(), m.key).value, m.variables).Some?)
    ensures m.key.None? ==> r == NoOperation
  {
    match Resolve(StandardRegistry(), m.key)
    case None => NoOperation
    case Some(op) =>
      match Invoke(op, m.variables)
      case Some(call) => Dispatched(call)
      case None => NoOperation
  }

  /** `resumePausedMutations()`: each paused mutation of the client, resolved through the registry. */
  function ResumePaused(state: ClientState): (r: seq<ResumeOutcome>)
    ensures |r| == |Filter(state.mutations, ShouldDehydrateMutation)|
    ensures forall i :: 0 <= i < |r| ==> r[i] == ResumeOne(Filter(state.mutations, ShouldDehydrateMutation)[i])
  {
    Map(Filter(state.mutations, ShouldDehydrateMutation), ResumeOne)
  }

  /** Startup: restore, then (from `onSuccess`, so only if the restore succeeded) resume the paused mutations. */
  datatype StartupResult = StartupResult(state: ClientState, resumed: seq<ResumeOutcome>)

  function Startup(stored: Stored, now: int): (r: StartupResult)
    ensures r.state == Restore(stored, now).state
    ensures !Restore(stored, now).succeeded ==> r.resumed == []
    ensures Restore(stored, now).succeeded ==> r.resumed == ResumePaused(r.state)
  {
    var restored := Restore(stored, now);
    StartupResult(restored.state, if restored.succeeded then ResumePaused(restored.state) else [])
  }

  /** An unreadable store resumes nothing. */
  lemma CorruptStoreResumesNothing(now: int)
    ensures Startup(Corrupt, now) == StartupResult(EmptyClient, [])
  {
  }

  /** After a timely restart, the resume outcomes are those of exactly the persisted paused mutations, listed in persisted order. */
  lemma {:induction false} RestartResumesPersistedPaused(state: ClientState, writtenAt: int, now: int)
    requires now - writtenAt <= MaxAgeMs
    ensures Startup(Saved(Persist(state, writtenAt)), now).resumed == Map(Filter(state.mutations, ShouldDehydrateMutation), ResumeOne)
  {
    PersistRestoreRoundTrip(state, writtenAt, now);
    FilterIdempotent(state.mutations, ShouldDehydrateMutation);
  }

  /** A paused mutation without a key (a bucket creation or a bill payment) cannot be replayed. */
  lemma UnkeyedPausedMutationNotReplayed(m: MutationRecord)
    requires m.key.None?
    ensures ResumeOne(m) == NoOperation
  {
  }

  /** A paused update with `{ id, updates }` variables replays as the API update call on that id with those updates. */
  lemma PausedUpdateReplaysItsPayload(key: MutationKey, id: string, updates: Row, isPaused: bool)
    requires IsUpdateKey(key)
    ensures ResumeOne(MutationRecord(Some(key), IdAndUpdates(id, updates), isPaused))
         == Dispatched(CallWith(StandardRegistry()[key].fn, id, updates))
  {
    RegistryShape();
    UpdateEntriesUnpack(key, id, updates);
  }
}

/**
 * The query client's data cache, as far as the hooks use it: one slot per query key,
 * read with `getQueryData`, overwritten with `setQueryData`, and marked for refetch
 * with `invalidateQueries`. The slot functions below are the specification the
 * `Cache` methods and the hook callbacks are proved against.
 */
module QueryCache {
  import opened Wrappers
  import opened Rows

  /** The three query keys: `['subs']`, `['transactions']`, `['buckets']`. */
  datatype SlotKey = Subs | Transactions | Buckets

  /** A slot is absent or holds `undefined` (None) or a list of rows. */
  type Slots = map<SlotKey, Option<seq<Row>>>

  /** `getQueryData(k)`: what the slot holds, `undefined` when it was never filled. */
  function Lookup(s: Slots, k: SlotKey): Option<seq<Row>> {
    if k in s then s[k] else None
  }

  /** The list transformations the hooks' `onMutate` callbacks apply. */
  datatype Patch =
    | Append(row: Row)                        // `[...old, row]`
    | MergeWhere(id: string, updates: Row)    // `old.map(r => r.id === id ? {...r, ...updates} : r)`
    | RemoveWhere(id: string)                 // `old.filter(r => r.id !== id)`

  function ApplyPatch(p: Patch, rows: seq<Row>): seq<Row> {
    match p
    case Append(row) => rows + [row]
    case MergeWhere(id, updates) => MergeById(rows, id, updates)
    case RemoveWhere(id) => RemoveById(rows, id)
  }

  /**
   * The slots after an `onMutate` that snapshots slot `k` and, only when it holds data,
   * overwrites it with the patched list.
   */
  function Optimistic(s: Slots, k: SlotKey, p: Patch): (r: Slots)
    ensures forall j :: j != k ==> Lookup(r, j) == Lookup(s, j)
    ensures Lookup(s, k).None? ==> r == s
    ensures Lookup(s, k).Some? ==> Lookup(r, k) == Some(ApplyPatch(p, Lookup(s, k).value))
  {
    match Lookup(s, k)
    case None => s
    case Some(previous) => s[k := Some(ApplyPatch(p, previous))]
  }

  /** The slots after an `onError` that writes a defined snapshot back into slot `k`. */
  function Rollback(s: Slots, k: SlotKey, snapshot: Option<seq<Row>>): (r: Slots)
    ensures forall j :: j != k ==> Lookup(r, j) == Lookup(s, j)
    ensures snapshot.Some? ==> Lookup(r, k) == snapshot
    ensures snapshot.None? ==> r == s
  {
    if snapshot.Some? then s[k := snapshot] else s
  }

  /** Rolling back with the snapshot taken by `onMutate` restores every slot verbatim. */
  lemma RollbackIsVerbatim(s: Slots, k: SlotKey, p: Patch)
    ensures Rollback(Optimistic(s, k, p), k, Lookup(s, k)) == s
  {
    if Lookup(s, k).Some? {
      assert k in s;
      var r := Rollback(Optimistic(s, k, p), k, Lookup(s, k));
      assert r.Keys == s.Keys;
    }
  }

  class Cache {
    var slots: Slots
    var invalidated: set<SlotKey>

    /** An empty cache: no slot filled, none invalidated. */
    constructor ()
      ensures slots == map[] && invalidated == {}
    {
      slots := map[];
      invalidated := {};
    }

    /** `queryClient.getQueryData(k)`. */
    function GetQueryData(k: SlotKey): Option<seq<Row>>
      reads this
    {
      Lookup(slots, k)
    }

    /** `queryClient.setQueryData(k, rows)`: overwrite one slot, nothing else. */
    method SetQueryData(k: SlotKey, rows: seq<Row>)
      modifies this
      ensures slots == old(slots)[k := Some(rows)]
      ensures invalidated == old(invalidated)
    {
      slots := slots[k := Some(rows)];
    }

    /** `queryClient.invalidateQueries({ queryKey: k })`: mark one slot stale; its data stays. */
    method InvalidateQueries(k: SlotKey)
      modifies this
      ensures invalidated == old(invalidated) + {k}
      ensures slots == old(slots)
    {
      invalidated := invalidated + {k};
    }

    /**
     * The shape shared by every `onMutate`: snapshot slot `k`; if it holds data,
     * write the patched list back. Returns the snapshot (the context's `previous...`).
     */
    method SnapshotAndPatch(k: SlotKey, p: Patch) returns (snapshot: Option<seq<Row>>)
      modifies this
      ensures snapshot == Lookup(old(slots), k)
      ensures slots == Optimistic(old(slots), k, p)
      ensures invalidated == old(invalidated)
    {
      snapshot := GetQueryData(k);
      if snapshot.Some? {
        SetQueryData(k, ApplyPatch(p, snapshot.value));
      }
    }

    /** The shape shared by every `onError`: if the context holds a snapshot, write it back. */
    method RestoreSnapshot(k: SlotKey, snapshot: Option<seq<Row>>)
      modifies this
      ensures slots == Rollback(old(slots), k, snapshot)
      ensures invalidated == old(invalidated)
    {
      if snapshot.Some? {
        SetQueryData(k, snapshot.value);
      }
    }
  }
}

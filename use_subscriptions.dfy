/**
 * The subscription write hooks. Each `onMutate` snapshots the `['subs']` slot and,
 * when it holds data, patches it; `onError` writes the snapshot back; `onSettled`
 * invalidates `['subs']` whatever the outcome.
 */
module UseSubscriptions {
  import opened Wrappers
  import opened Rows
  import opened QueryCache

  /** The decimal digit character for `d`. */
  function DigitChar(d: nat): char
    requires d < 10
  {
    ('0' as int + d) as char
  }

  /** A non-negative integer in decimal, as a template literal prints it. */
  function DecimalString(n: nat): (s: string)
    ensures |s| >= 1
    ensures n >= 10 ==> |s| >= 2
  {
    if n < 10 then [DigitChar(n)] else DecimalString(n / 10) + [DigitChar(n % 10)]
  }

  /** Different numbers print differently. */
  lemma {:induction false} DecimalStringInjective(a: nat, b: nat)
    requires DecimalString(a) == DecimalString(b)
    ensures a == b
  {
    if a >= 10 && b >= 10 {
      var sa, sb := DecimalString(a), DecimalString(b);
      assert sa[|sa| - 1] == DigitChar(a % 10) && sb[|sb| - 1] == DigitChar(b % 10);
      assert sa[..|sa| - 1] == DecimalString(a / 10) && sb[..|sb| - 1] == DecimalString(b / 10);
      DecimalStringInjective(a / 10, b / 10);
    } else if a < 10 && b < 10 {
      assert DecimalString(a)[0] == DigitChar(a) && DecimalString(b)[0] == DigitChar(b);
    }
  }

  /** The temporary id of an optimistic subscription: `` `temp-${Date.now()}` ``. */
  function TempId(now: nat): (id: string)
    ensures |id| > 5 && id[..5] == "temp-"
  {
    "temp-" + DecimalString(now)
  }

  /** Creates issued at different milliseconds get different temporary ids. */
  lemma TempIdsDiffer(a: nat, b: nat)
    requires a != b
    ensures TempId(a) != TempId(b)
  {
    if TempId(a) == TempId(b) {
      assert TempId(a)[5..] == DecimalString(a) && TempId(b)[5..] == DecimalString(b);
      DecimalStringInjective(a, b);
    }
  }

  /**
   * The optimistic row: `{ id: temp-now, created_at: nowIso, ...newSub }`. The input is
   * spread last, so an `id` or `created_at` it carries wins.
   */
  function OptimisticSub(newSub: Row, now: nat, nowIso: string): (r: Row)
    ensures r.Keys == newSub.Keys + {"id", "created_at"}
    ensures forall k :: k in newSub ==> r[k] == newSub[k]
    ensures "id" !in newSub ==> r["id"] == Str(TempId(now))
    ensures "created_at" !in newSub ==> r["created_at"] == Str(nowIso)
  {
    Spread(map["id" := Str(TempId(now)), "created_at" := Str(nowIso)], newSub)
  }

  /** The optimistic create appends one row at the end and leaves every earlier row in place. */
  lemma OptimisticCreateAppends(rows: seq<Row>, newSub: Row, now: nat, nowIso: string)
    ensures var r := ApplyPatch(Append(OptimisticSub(newSub, now, nowIso)), rows);
      |r| == |rows| + 1 && r[..|rows|] == rows && r[|rows|] == OptimisticSub(newSub, now, nowIso)
  {
    var r := ApplyPatch(Append(OptimisticSub(newSub, now, nowIso)), rows);
    assert r[..|rows|] == rows;
  }

  /** The optimistic append keeps ids unique when no cached subscription already holds the temp id. */
  lemma OptimisticCreateKeepsUniqueIds(rows: seq<Row>, newSub: Row, now: nat, nowIso: string)
    requires UniqueIds(rows)
    requires "id" !in newSub
    requires forall i :: 0 <= i < |rows| ==> IdOf(rows[i]) != Some(Str(TempId(now)))
    ensures UniqueIds(ApplyPatch(Append(OptimisticSub(newSub, now, nowIso)), rows))
  {
    AppendKeepsUniqueIds(rows, OptimisticSub(newSub, now, nowIso));
  }

  /** Two creates in the same millisecond put two rows with the same temp id into the list. */
  lemma SameMillisecondCreatesCollide(rows: seq<Row>, first: Row, second: Row, now: nat, iso1: string, iso2: string)
    requires "id" !in first && "id" !in second
    ensures !UniqueIds(ApplyPatch(Append(OptimisticSub(second, now, iso2)), ApplyPatch(Append(OptimisticSub(first, now, iso1)), rows)))
  {
    var r := ApplyPatch(Append(OptimisticSub(second, now, iso2)), ApplyPatch(Append(OptimisticSub(first, now, iso1)), rows));
    assert r[|rows|] == OptimisticSub(first, now, iso1) && r[|rows| + 1] == OptimisticSub(second, now, iso2);
  }

  /** `useCreateSubscription`'s `onMutate`. */
  method CreateOnMutate(c: Cache, newSub: Row, now: nat, nowIso: string) returns (previousSubs: Option<seq<Row>>)
    modifies c
    ensures previousSubs == Lookup(old(c.slots), Subs)
    ensures c.slots == Optimistic(old(c.slots), Subs, Append(OptimisticSub(newSub, now, nowIso)))
    ensures c.invalidated == old(c.invalidated)
  {
    previousSubs := c.SnapshotAndPatch(Subs, Append(OptimisticSub(newSub, now, nowIso)));
  }

  /** `useUpdateSubscription`'s `onMutate`. */
  method UpdateOnMutate(c: Cache, id: string, updates: Row) returns (previousSubs: Option<seq<Row>>)
    modifies c
    ensures previousSubs == Lookup(old(c.slots), Subs)
    ensures c.slots == Optimistic(old(c.slots), Subs, MergeWhere(id, updates))
    ensures c.invalidated == old(c.invalidated)
  {
    previousSubs := c.SnapshotAndPatch(Subs, MergeWhere(id, updates));
  }

  /** `useDeleteSubscription`'s `onMutate`. */
  method DeleteOnMutate(c: Cache, id: string) returns (previousSubs: Option<seq<Row>>)
    modifies c
    ensures previousSubs == Lookup(old(c.slots), Subs)
    ensures c.slots == Optimistic(old(c.slots), Subs, RemoveWhere(id))
    ensures c.invalidated == old(c.invalidated)
  {
    previousSubs := c.SnapshotAndPatch(Subs, RemoveWhere(id));
  }

  /** The `onError` all three hooks share: write `previousSubs` back when it is defined. */
  method OnError(c: Cache, previousSubs: Option<seq<Row>>)
    modifies c
    ensures c.slots == Rollback(old(c.slots), Subs, previousSubs)
    ensures c.invalidated == old(c.invalidated)
  {
    c.RestoreSnapshot(Subs, previousSubs);
  }

  /** The `onSettled` all three hooks share: invalidate `['subs']` and nothing else. */
  method OnSettled(c: Cache)
    modifies c
    ensures c.invalidated == old(c.invalidated) + {Subs}
    ensures c.slots == old(c.slots)
  {
    c.InvalidateQueries(Subs);
  }

  /**
   * `useCreateSubscription` run to completion: `onMutate`, the remote call (its outcome
   * is `succeeds`), `onError` on failure, then `onSettled`. A failed create leaves the
   * slots exactly as they were; either way only `['subs']` is invalidated.
   */
  method CreateSubscription(c: Cache, newSub: Row, now: nat, nowIso: string, succeeds: bool)
    modifies c
    ensures c.slots == if succeeds then Optimistic(old(c.slots), Subs, Append(OptimisticSub(newSub, now, nowIso))) else old(c.slots)
    ensures c.invalidated == old(c.invalidated) + {Subs}
  {
    var previousSubs := CreateOnMutate(c, newSub, now, nowIso);
    if !succeeds {
      OnError(c, previousSubs);
      RollbackIsVerbatim(old(c.slots), Subs, Append(OptimisticSub(newSub, now, nowIso)));
    }
    OnSettled(c);
  }

  /** `useUpdateSubscription` run to completion. */
  method UpdateSubscription(c: Cache, id: string, updates: Row, succeeds: bool)
    modifies c
    ensures c.slots == if succeeds then Optimistic(old(c.slots), Subs, MergeWhere(id, updates)) else old(c.slots)
    ensures c.invalidated == old(c.invalidated) + {Subs}
  {
    var previousSubs := UpdateOnMutate(c, id, updates);
    if !succeeds {
      OnError(c, previousSubs);
      RollbackIsVerbatim(old(c.slots), Subs, MergeWhere(id, updates));
    }
    OnSettled(c);
  }

  /** `useDeleteSubscription` run to completion. */
  method DeleteSubscription(c: Cache, id: string, succeeds: bool)
    modifies c
    ensures c.slots == if succeeds then Optimistic(old(c.slots), Subs, RemoveWhere(id)) else old(c.slots)
    ensures c.invalidated == old(c.invalidated) + {Subs}
  {
    var previousSubs := DeleteOnMutate(c, id);
    if !succeeds {
      OnError(c, previousSubs);
      RollbackIsVerbatim(old(c.slots), Subs, RemoveWhere(id));
    }
    OnSettled(c);
  }
}

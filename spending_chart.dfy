/**
 * The spending chart's data: spending transactions (negative, not a transfer) grouped
 * by bucket with a `forEach` that accumulates `|amount|` into a record, then one
 * chart entry per recorded bucket, skipping income buckets and non-positive totals,
 * with fallback name and colour for buckets that cannot be found.
 */
module SpendingChart {
  import opened Wrappers
  import opened SeqUtil
  import opened Entities
  import opened TransactionsApi

  /** The filter `t.amount < 0 && t.is_transfer !== true`. */
  predicate IsSpending(t: Transaction) {
    t.amount < 0 && !t.isTransfer
  }

  function Spending(txs: seq<Transaction>): (r: seq<Transaction>)
    ensures forall t :: t in r <==> t in txs && t.amount < 0 && !t.isTransfer
  {
    Filter(txs, IsSpending)
  }

  /** The sum of `|amount|` over the transactions of `sp` booked on bucket `k`. */
  function SpentIn(sp: seq<Transaction>, k: string): nat {
    if sp == [] then 0
    else
      var last := sp[|sp| - 1];
      SpentIn(sp[..|sp| - 1], k) + (if last.bucketId == k then Abs(last.amount) else 0)
  }

  /** `Object.keys(totals)`: each bucket id of `sp` once, in the order it was first recorded. */
  function BucketIds(sp: seq<Transaction>): seq<string> {
    if sp == [] then []
    else
      var ids, k := BucketIds(sp[..|sp| - 1]), sp[|sp| - 1].bucketId;
      if k in ids then ids else ids + [k]
  }

  /**
   * The `totals` record once the `forEach` has visited all of `sp`: each transaction
   * adds its `|amount|` to its bucket's entry, creating the entry when missing.
   */
  function Totals(sp: seq<Transaction>): map<string, int> {
    if sp == [] then map[]
    else
      var m, last := Totals(sp[..|sp| - 1]), sp[|sp| - 1];
      m[last.bucketId := (if last.bucketId in m then m[last.bucketId] else 0) + Abs(last.amount)]
  }

  /** One more transaction adds its `|amount|` to its bucket's entry, creating it when missing. */
  lemma TotalsSnoc(sp: seq<Transaction>, t: Transaction)
    ensures Totals(sp + [t]) == Totals(sp)[t.bucketId := (if t.bucketId in Totals(sp) then Totals(sp)[t.bucketId] else 0) + Abs(t.amount)]
  {
    assert (sp + [t])[..|sp + [t]| - 1] == sp;
  }

  /** One more transaction puts its bucket id at the end of the key order, unless already recorded. */
  lemma BucketIdsSnoc(sp: seq<Transaction>, t: Transaction)
    ensures BucketIds(sp + [t]) == if t.bucketId in BucketIds(sp) then BucketIds(sp) else BucketIds(sp) + [t.bucketId]
  {
    assert (sp + [t])[..|sp + [t]| - 1] == sp;
  }

  /** The bucket a transaction is booked on. */
  function BucketOf(t: Transaction): string {
    t.bucketId
  }

  /** The key order is the insertion order of `new Set(sp.map(t => t.bucketId))`: each bucket once, first-seen first. */
  lemma {:induction false} BucketIdsAreDistinct(sp: seq<Transaction>)
    ensures BucketIds(sp) == Distinct(Map(sp, BucketOf))
  {
    if sp != [] {
      var init, last := sp[..|sp| - 1], sp[|sp| - 1];
      assert sp == init + [last];
      BucketIdsAreDistinct(init);
      BucketIdsSnoc(init, last);
      MapSnoc(init, last, BucketOf);
      DistinctSnoc(Map(init, BucketOf), last.bucketId);
    }
  }

  /** Each recorded key is recorded once, and the keys are exactly the buckets some transaction is booked on. */
  lemma BucketIdsMembers(sp: seq<Transaction>)
    ensures NoDuplicates(BucketIds(sp))
    ensures forall k :: k in BucketIds(sp) <==> exists t :: t in sp && t.bucketId == k
  {
    BucketIdsAreDistinct(sp);
    var ids := Map(sp, BucketOf);
    forall k ensures k in BucketIds(sp) <==> exists t :: t in sp && t.bucketId == k {
      if k in BucketIds(sp) {
        var i :| 0 <= i < |ids| && ids[i] == k;
        assert sp[i] in sp && sp[i].bucketId == k;
      }
      if exists t :: t in sp && t.bucketId == k {
        var t :| t in sp && t.bucketId == k;
        var i :| 0 <= i < |sp| && sp[i] == t;
        assert ids[i] == k;
      }
    }
  }

  /** One more transaction adds its `|amount|` to its own bucket's sum only. */
  lemma SpentInSnoc(sp: seq<Transaction>, t: Transaction, k: string)
    ensures SpentIn(sp + [t], k) == SpentIn(sp, k) + (if t.bucketId == k then Abs(t.amount) else 0)
  {
    assert (sp + [t])[..|sp + [t]| - 1] == sp;
  }

  /** The record holds exactly the recorded bucket ids, each mapped to the sum of `|amount|` spent in it. */
  lemma {:induction false} TotalsAreSums(sp: seq<Transaction>)
    ensures forall k :: k in Totals(sp) <==> k in BucketIds(sp)
    ensures forall k :: k in Totals(sp) ==> Totals(sp)[k] == SpentIn(sp, k)
    ensures forall k :: k !in Totals(sp) ==> SpentIn(sp, k) == 0
  {
    if sp != [] {
      var init, last := sp[..|sp| - 1], sp[|sp| - 1];
      assert sp == init + [last];
      TotalsAreSums(init);
      BucketIdsSnoc(init, last);
      forall k ensures SpentIn(sp, k) == SpentIn(init, k) + (if last.bucketId == k then Abs(last.amount) else 0) {
        SpentInSnoc(init, last, k);
      }
    }
  }

  /** Every recorded bucket of a list of negative amounts has a positive total, so none is dropped for its value. */
  lemma {:induction false} SpentInPositive(sp: seq<Transaction>)
    requires forall t :: t in sp ==> t.amount < 0
    ensures forall k :: k in BucketIds(sp) ==> SpentIn(sp, k) > 0
  {
    if sp != [] {
      var init, last := sp[..|sp| - 1], sp[|sp| - 1];
      assert sp == init + [last];
      assert forall t :: t in init ==> t in sp;
      SpentInPositive(init);
      BucketIdsSnoc(init, last);
      forall k | k in BucketIds(sp) ensures SpentIn(sp, k) > 0 {
        SpentInSnoc(init, last, k);
      }
    }
  }

  /** `totals[k]` is set exactly when `k` is among the recorded keys. */
  lemma TotalsHasKey(sp: seq<Transaction>, k: string)
    ensures k in Totals(sp) <==> k in BucketIds(sp)
  {
    TotalsAreSums(sp);
  }

  /** A step of the `forEach` puts a bucket id last exactly when the record has no entry for it yet. */
  lemma KeysStep(sp: seq<Transaction>, t: Transaction)
    ensures BucketIds(sp + [t]) == if t.bucketId !in Totals(sp) then BucketIds(sp) + [t.bucketId] else BucketIds(sp)
  {
    BucketIdsSnoc(sp, t);
    TotalsHasKey(sp, t.bucketId);
  }

  /** A step of the `forEach` in the shape of its truthiness test: a missing or zero entry is overwritten, any other is added to. */
  lemma TotalsStep(sp: seq<Transaction>, t: Transaction)
    ensures Totals(sp + [t]) == Totals(sp)[t.bucketId :=
      if t.bucketId in Totals(sp) && Totals(sp)[t.bucketId] != 0 then Totals(sp)[t.bucketId] + Abs(t.amount) else Abs(t.amount)]
  {
    TotalsSnoc(sp, t);
    var m, k := Totals(sp), t.bucketId;
    if !(k in m && m[k] != 0) {
      assert (if k in m then m[k] else 0) + Abs(t.amount) == Abs(t.amount);
    }
  }

  /**
   * The `forEach` over `spending`. The record is modelled as its map of values plus
   * the insertion order of its keys, which is what `Object.keys` later returns.
   * The source's truthiness test sends a recorded total of 0 to the assignment branch;
   * since that total is 0, assigning and adding agree.
   */
  method GroupSpending(spending: seq<Transaction>) returns (keys: seq<string>, totals: map<string, int>)
    ensures keys == BucketIds(spending)
    ensures totals == Totals(spending)
  {
    keys := [];
    totals := map[];
    var i := 0;
    while i < |spending|
      invariant 0 <= i <= |spending|
      invariant keys == BucketIds(spending[..i])
      invariant totals == Totals(spending[..i])
    {
      var t := spending[i];
      var val := Abs(t.amount);
      assert spending[..i + 1] == spending[..i] + [t];
      KeysStep(spending[..i], t);
      TotalsStep(spending[..i], t);
      if t.bucketId !in totals {
        keys := keys + [t.bucketId];
      }
      if t.bucketId in totals && totals[t.bucketId] != 0 {
        totals := totals[t.bucketId := totals[t.bucketId] + val];
      } else {
        totals := totals[t.bucketId := val];
      }
      i := i + 1;
    }
    assert spending[..i] == spending;
  }

  /** One object of `chartData`. */
  datatype ChartEntry = ChartEntry(name: string, value: int, color: string)

  const UnknownName := "Unknown"
  const FallbackColour := "#94a3b8"

  /**
   * The `map` callback and the final `filter` for one recorded bucket id: no entry for
   * an income bucket or a non-positive total; otherwise the bucket's name and colour,
   * each replaced by its fallback when the bucket is missing or the field is empty.
   */
  function EntryFor(k: string, total: int, buckets: seq<Bucket>): (r: Option<ChartEntry>)
    ensures r.None? <==> total <= 0 || (FindBucket(buckets, k).Some? && FindBucket(buckets, k).value.kind == Income)
    ensures r.Some? ==> r.value.value == total && total > 0
    ensures r.Some? && FindBucket(buckets, k).None? ==> r.value.name == UnknownName && r.value.color == FallbackColour
    ensures r.Some? && FindBucket(buckets, k).Some? ==>
      var b := FindBucket(buckets, k).value;
      && r.value.name == (if b.name != "" then b.name else UnknownName)
      && r.value.color == (if b.color.Some? && b.color.value != "" then b.color.value else FallbackColour)
  {
    var bucket := FindBucket(buckets, k);
    if bucket.Some? && bucket.value.kind == Income then None
    else
      var name := if bucket.Some? && bucket.value.name != "" then bucket.value.name else UnknownName;
      var color := if bucket.Some? && bucket.value.color.Some? && bucket.value.color.value != "" then bucket.value.color.value else FallbackColour;
      if total > 0 then Some(ChartEntry(name, total, color)) else None
  }

  /** The recorded ids that survive the `map` and the `filter`, in key order. */
  function EntryKeys(keys: seq<string>, totals: map<string, int>, buckets: seq<Bucket>): (r: seq<string>)
    requires forall k :: k in keys ==> k in totals
    ensures forall k :: k in r <==> k in keys && EntryFor(k, totals[k], buckets).Some?
    ensures NoDuplicates(keys) ==> NoDuplicates(r)
  {
    if keys == [] then []
    else
      assert keys == [keys[0]] + keys[1..];
      var rest := EntryKeys(keys[1..], totals, buckets);
      if EntryFor(keys[0], totals[keys[0]], buckets).Some? then
        assert NoDuplicates(keys) ==> keys[0] !in keys[1..];
        [keys[0]] + rest
      else rest
  }

  /** `Object.keys(totals).map(...).filter(...)`: one entry per surviving id, in key order. */
  function Entries(keys: seq<string>, totals: map<string, int>, buckets: seq<Bucket>): (r: seq<ChartEntry>)
    requires forall k :: k in keys ==> k in totals
    ensures |r| == |EntryKeys(keys, totals, buckets)| <= |keys|
  {
    if keys == [] then []
    else
      assert forall k :: k in keys[1..] ==> k in keys;
      var rest := Entries(keys[1..], totals, buckets);
      match EntryFor(keys[0], totals[keys[0]], buckets)
      case Some(e) => [e] + rest
      case None => rest
  }

  /** The i-th entry is the entry of the i-th surviving id. */
  lemma {:induction false} EntriesInKeyOrder(keys: seq<string>, totals: map<string, int>, buckets: seq<Bucket>)
    requires forall k :: k in keys ==> k in totals
    ensures forall i :: 0 <= i < |Entries(keys, totals, buckets)| ==>
      var k := EntryKeys(keys, totals, buckets)[i];
      k in totals && Some(Entries(keys, totals, buckets)[i]) == EntryFor(k, totals[k], buckets)
  {
    if keys != [] {
      assert forall k :: k in keys[1..] ==> k in keys;
      EntriesInKeyOrder(keys[1..], totals, buckets);
    }
  }

  /** Every entry is positive and comes from a key; every key that yields an entry has it in the list. */
  lemma EntriesFromKeys(keys: seq<string>, totals: map<string, int>, buckets: seq<Bucket>)
    requires forall k :: k in keys ==> k in totals
    ensures forall e :: e in Entries(keys, totals, buckets) ==> e.value > 0
    ensures forall e :: e in Entries(keys, totals, buckets) ==> exists k :: k in keys && EntryFor(k, totals[k], buckets) == Some(e)
    ensures forall k :: k in keys && EntryFor(k, totals[k], buckets).Some? ==> EntryFor(k, totals[k], buckets).value in Entries(keys, totals, buckets)
  {
    var r, ks := Entries(keys, totals, buckets), EntryKeys(keys, totals, buckets);
    EntriesInKeyOrder(keys, totals, buckets);
    forall e | e in r ensures e.value > 0 && exists k :: k in keys && EntryFor(k, totals[k], buckets) == Some(e) {
      var i :| 0 <= i < |r| && r[i] == e;
      assert ks[i] in ks;
    }
    forall k | k in keys && EntryFor(k, totals[k], buckets).Some? ensures EntryFor(k, totals[k], buckets).value in r {
      var i :| 0 <= i < |ks| && ks[i] == k;
      assert Some(r[i]) == EntryFor(k, totals[k], buckets);
    }
  }

  /** The buckets the chart shows: the recorded spending buckets that are not income buckets, in key order. */
  function ChartedBuckets(txs: seq<Transaction>, buckets: seq<Bucket>): (r: seq<string>)
    ensures NoDuplicates(r)
    ensures forall k :: k in r <==> (k in BucketIds(Spending(txs)) &&
                                     (FindBucket(buckets, k).None? || FindBucket(buckets, k).value.kind != Income))
  {
    var sp := Spending(txs);
    TotalsAreSums(sp);
    SpentInPositive(sp);
    BucketIdsMembers(sp);
    EntryKeys(BucketIds(sp), Totals(sp), buckets)
  }

  /**
   * The chart computed from defined lists of transactions and buckets: one entry per
   * charted bucket, each bucket once, in key order, carrying the bucket's whole spend
   * with its name and colour or their fallbacks.
   */
  function Chart(txs: seq<Transaction>, buckets: seq<Bucket>): (r: seq<ChartEntry>)
    ensures |r| == |ChartedBuckets(txs, buckets)|
    ensures forall i :: 0 <= i < |r| ==>
      Some(r[i]) == EntryFor(ChartedBuckets(txs, buckets)[i], SpentIn(Spending(txs), ChartedBuckets(txs, buckets)[i]), buckets)
  {
    var sp := Spending(txs);
    TotalsAreSums(sp);
    EntriesInKeyOrder(BucketIds(sp), Totals(sp), buckets);
    Entries(BucketIds(sp), Totals(sp), buckets)
  }

  /** `chartData`: empty while either list is undefined. */
  method ChartData(transactions: Option<seq<Transaction>>, buckets: Option<seq<Bucket>>) returns (chart: seq<ChartEntry>)
    ensures transactions.None? || buckets.None? ==> chart == []
    ensures transactions.Some? && buckets.Some? ==> chart == Chart(transactions.value, buckets.value)
  {
    if transactions.None? || buckets.None? {
      return [];
    }
    var spending := Spending(transactions.value);
    var keys, totals := GroupSpending(spending);
    TotalsAreSums(spending);
    chart := Entries(keys, totals, buckets.value);
  }

  /** A transaction that is not spending (a deposit, a zero amount or a transfer) leaves the chart as it was. */
  lemma ChartIgnoresNonSpending(txs: seq<Transaction>, t: Transaction, buckets: seq<Bucket>)
    requires !IsSpending(t)
    ensures Chart(txs + [t], buckets) == Chart(txs, buckets)
  {
    FilterConcat(txs, [t], IsSpending);
    assert Filter([t], IsSpending) == [];
    assert Spending(txs + [t]) == Spending(txs);
  }

  /** A stored transfer pair is invisible to the spending chart. */
  lemma TransferInvisibleToChart(txs: seq<Transaction>, req: TransferRequest, fromId: string, toId: string, date: int, buckets: seq<Bucket>)
    ensures Chart(txs + StoredTransfer(req, fromId, toId, date), buckets) == Chart(txs, buckets)
  {
    var pair := StoredTransfer(req, fromId, toId, date);
    assert txs + pair == (txs + [pair[0]]) + [pair[1]];
    ChartIgnoresNonSpending(txs + [pair[0]], pair[1], buckets);
    ChartIgnoresNonSpending(txs, pair[0], buckets);
  }
}

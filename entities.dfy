/**
 * The typed records the dashboard reads: buckets and transactions as the
 * Supabase tables return them, and the lookup `buckets.find(b => b.id === id)`.
 */
module Entities {
  import opened Wrappers

  /** `Bucket['type']`. */
  datatype BucketType = Income | Envelope | Goal | IncomeSource

  /** A bucket row. `target_amount` and `color` are nullable columns. */
  datatype Bucket = Bucket(
    id: string,
    name: string,
    kind: BucketType,
    targetAmount: Option<int>,
    color: Option<string>,
    userId: string)

  /**
   * A transaction row. `is_transfer` is nullable; `isTransfer` records whether it is
   * exactly `true`, which is the only test the code applies to it.
   */
  datatype Transaction = Transaction(
    id: string,
    userId: string,
    bucketId: string,
    amount: int,
    note: Option<string>,
    date: int,
    isTransfer: bool)

  /** A subscription (a fixed monthly bill) row. */
  datatype Subscription = Subscription(
    id: string,
    userId: string,
    name: string,
    amount: int,
    dayOfMonth: int,
    bucketId: string)

  /** `Math.abs`. */
  function Abs(n: int): (r: int)
    ensures r >= 0 && (r == n || r == -n)
  {
    if n < 0 then -n else n
  }

  /** `buckets.find(b => b.id === id)`: the first bucket with this id, if any. */
  function FindBucket(buckets: seq<Bucket>, id: string): (r: Option<Bucket>)
    ensures r.Some? ==> r.value in buckets && r.value.id == id
    ensures r.None? <==> forall b :: b in buckets ==> b.id != id
    ensures r.Some? ==> exists i :: (0 <= i < |buckets| && buckets[i] == r.value &&
                                      forall j :: 0 <= j < i ==> buckets[j].id != id)
  {
    if buckets == [] then None
    else if buckets[0].id == id then Some(buckets[0])
    else
      var r := FindBucket(buckets[1..], id);
      assert buckets == [buckets[0]] + buckets[1..];
      if r.Some? then
        var i :| (0 <= i < |buckets[1..]| && buckets[1..][i] == r.value &&
                  forall j :: 0 <= j < i ==> buckets[1..][j].id != id);
        assert buckets[i + 1] == r.value;
        r
      else r
  }

  /** `t.amount` summed over `txs` (the `reduce((sum, t) => sum + Number(t.amount), 0)` of the dashboard). */
  function SumAmounts(txs: seq<Transaction>): int
  {
    if txs == [] then 0 else txs[0].amount + SumAmounts(txs[1..])
  }

  /** Summing distributes over concatenation. */
  lemma {:induction false} SumAmountsConcat(a: seq<Transaction>, b: seq<Transaction>)
    ensures SumAmounts(a + b) == SumAmounts(a) + SumAmounts(b)
  {
    if a == [] {
      assert a + b == b;
    } else {
      assert (a + b)[1..] == a[1..] + b;
      SumAmountsConcat(a[1..], b);
    }
  }
}

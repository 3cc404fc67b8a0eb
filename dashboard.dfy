/**
 * The dashboard's derived metrics: bucket categories, balances, envelope and goal
 * progress with clamped percentages, the envelope bar colour and the recent-activity
 * slice. Everything here is computed from the two cached lists, which may still be
 * undefined (`None`).
 */
module Dashboard {
  import opened Wrappers
  import opened SeqUtil
  import opened Entities
  import opened UseBuckets

  /**
   * A JavaScript percentage after `Math.max(0, Math.min(100, x))`. Dividing by a zero
   * limit gives an infinity (clamped to 0 or 100) or, for `0 / 0`, NaN, which the
   * clamps pass through.
   */
  datatype Percent = Percent(value: real) | NotANumber

  /** The dashboard's three bucket sections. */
  function IncomeBuckets(buckets: Option<seq<Bucket>>): seq<Bucket> { BucketsOfType(buckets, Income) }
  function Envelopes(buckets: Option<seq<Bucket>>): seq<Bucket> { BucketsOfType(buckets, Envelope) }
  function Goals(buckets: Option<seq<Bucket>>): seq<Bucket> { BucketsOfType(buckets, Goal) }

  /** The sections are disjoint, each holds exactly its type, and an `income_source` bucket is in none of them. */
  lemma SectionsPartitionByType(buckets: Option<seq<Bucket>>, b: Bucket)
    ensures b in IncomeBuckets(buckets) <==> buckets.Some? && b in buckets.value && b.kind == Income
    ensures b in Envelopes(buckets) <==> buckets.Some? && b in buckets.value && b.kind == Envelope
    ensures b in Goals(buckets) <==> buckets.Some? && b in buckets.value && b.kind == Goal
    ensures !(b in IncomeBuckets(buckets) && b in Envelopes(buckets))
    ensures !(b in IncomeBuckets(buckets) && b in Goals(buckets))
    ensures !(b in Envelopes(buckets) && b in Goals(buckets))
    ensures b.kind == IncomeSource ==> b !in IncomeBuckets(buckets) && b !in Envelopes(buckets) && b !in Goals(buckets)
  {
  }

  /** The transactions booked on `bucketId`. */
  function InBucket(txs: seq<Transaction>, bucketId: string): seq<Transaction> {
    Filter(txs, (t: Transaction) => t.bucketId == bucketId)
  }

  /** `getBalance(bucketId)`: 0 while transactions are undefined. */
  function Balance(transactions: Option<seq<Transaction>>, bucketId: string): (r: int)
    ensures transactions.None? ==> r == 0
  {
    if transactions.None? then 0 else SumAmounts(InBucket(transactions.value, bucketId))
  }

  /** A single transaction moves exactly its own bucket's balance, by its amount. */
  lemma BalanceOfOne(t: Transaction, bucketId: string)
    ensures Balance(Some([t]), bucketId) == if t.bucketId == bucketId then t.amount else 0
  {
    assert [t][1..] == [];
    assert InBucket([t], bucketId) == if t.bucketId == bucketId then [t] else [];
    assert SumAmounts([t]) == t.amount + SumAmounts([]);
  }

  /** Balances are additive: the balance over two lists is the sum of their balances. */
  lemma BalanceOfConcat(a: seq<Transaction>, b: seq<Transaction>, bucketId: string)
    ensures Balance(Some(a + b), bucketId) == Balance(Some(a), bucketId) + Balance(Some(b), bucketId)
  {
    FilterConcat(a, b, (t: Transaction) => t.bucketId == bucketId);
    SumAmountsConcat(InBucket(a, bucketId), InBucket(b, bucketId));
  }

  /** A bucket with no transactions of its own has balance 0, as does every bucket while the data is undefined. */
  lemma {:induction false} BalanceWithoutOwnTransactions(txs: seq<Transaction>, bucketId: string)
    requires forall i :: 0 <= i < |txs| ==> txs[i].bucketId != bucketId
    ensures Balance(Some(txs), bucketId) == 0
    ensures Balance(None, bucketId) == 0
  {
    if txs != [] {
      BalanceWithoutOwnTransactions(txs[1..], bucketId);
    }
  }

  function Min(a: real, b: real): real { if a <= b then a else b }
  function Max(a: real, b: real): real { if a >= b then a else b }

  /** `Math.max(0, Math.min(100, (num / den) * 100))`. */
  function ClampedPercent(num: int, den: int): (p: Percent)
    ensures den != 0 ==> p.Percent? && 0.0 <= p.value <= 100.0
    ensures den != 0 && 0.0 <= (num as real / den as real) * 100.0 <= 100.0 ==>
      p == Percent((num as real / den as real) * 100.0)
    ensures den != 0 && (num as real / den as real) >= 1.0 ==> p == Percent(100.0)
    ensures den != 0 && (num as real / den as real) <= 0.0 ==> p == Percent(0.0)
    ensures den == 0 ==> p == if num > 0 then Percent(100.0) else if num < 0 then Percent(0.0) else NotANumber
  {
    if den == 0 then
      if num > 0 then Percent(100.0) else if num < 0 then Percent(0.0) else NotANumber
    else
      Percent(Max(0.0, Min(100.0, (num as real / den as real) * 100.0)))
  }

  /** Over a positive denominator the clamped percentage never decreases as the numerator grows. */
  lemma ClampedPercentMonotone(n1: int, n2: int, den: int)
    requires den > 0 && n1 <= n2
    ensures ClampedPercent(n1, den).value <= ClampedPercent(n2, den).value
  {
    var d := den as real;
    assert n1 as real / d <= n2 as real / d by {
      assert n1 as real / d * d == n1 as real;
      assert n2 as real / d * d == n2 as real;
    }
  }

  /** The return value of `getEnvelopeMetrics`. */
  datatype EnvelopeMetrics = EnvelopeMetrics(balance: int, percentage: Percent)

  /** The sum over `bucketId`'s transactions dated on or after the start of the month (spending is negative). */
  function MonthSpent(txs: seq<Transaction>, bucketId: string, startOfMonth: int): int {
    SumAmounts(Filter(txs, (t: Transaction) => t.bucketId == bucketId && t.date >= startOfMonth))
  }

  /**
   * `getEnvelopeMetrics(bucketId, limit)`: the limit plus this month's movements on the
   * envelope, and how much of the limit that leaves. Undefined data reads as untouched.
   */
  function GetEnvelopeMetrics(transactions: Option<seq<Transaction>>, bucketId: string, limit: int, startOfMonth: int): (r: EnvelopeMetrics)
    ensures transactions.None? ==> r == EnvelopeMetrics(limit, Percent(100.0))
    ensures transactions.Some? ==> r.balance == limit + MonthSpent(transactions.value, bucketId, startOfMonth)
    ensures transactions.Some? ==> r.percentage == ClampedPercent(r.balance, limit)
    ensures limit != 0 ==> r.percentage.Percent? && 0.0 <= r.percentage.value <= 100.0
  {
    if transactions.None? then EnvelopeMetrics(limit, Percent(100.0))
    else
      var balance := limit + MonthSpent(transactions.value, bucketId, startOfMonth);
      EnvelopeMetrics(balance, ClampedPercent(balance, limit))
  }

  /** A transaction dated before the start of the month, or on another bucket, does not move the envelope. */
  lemma EnvelopeIgnoresOthers(txs: seq<Transaction>, t: Transaction, bucketId: string, limit: int, startOfMonth: int)
    requires t.date < startOfMonth || t.bucketId != bucketId
    ensures GetEnvelopeMetrics(Some(txs + [t]), bucketId, limit, startOfMonth)
         == GetEnvelopeMetrics(Some(txs), bucketId, limit, startOfMonth)
  {
    var p := (u: Transaction) => u.bucketId == bucketId && u.date >= startOfMonth;
    FilterConcat(txs, [t], p);
    assert Filter([t], p) == [];
    assert txs + [t] == txs + [t];
    assert Filter(txs, p) + [] == Filter(txs, p);
  }

  /** A transaction of this month on the envelope moves its balance by exactly its amount. */
  lemma EnvelopeCountsThisMonth(txs: seq<Transaction>, t: Transaction, bucketId: string, limit: int, startOfMonth: int)
    requires t.date >= startOfMonth && t.bucketId == bucketId
    ensures GetEnvelopeMetrics(Some(txs + [t]), bucketId, limit, startOfMonth).balance
         == GetEnvelopeMetrics(Some(txs), bucketId, limit, startOfMonth).balance + t.amount
  {
    var p := (u: Transaction) => u.bucketId == bucketId && u.date >= startOfMonth;
    FilterConcat(txs, [t], p);
    assert Filter([t], p) == [t];
    SumAmountsConcat(Filter(txs, p), [t]);
    assert [t][1..] == [];
  }

  /** The return value of `getGoalMetrics`. */
  datatype GoalMetrics = GoalMetrics(saved: int, percentage: Percent)

  /** `getGoalMetrics(bucketId, target)`: the all-time balance and how much of the target it reaches. */
  function GetGoalMetrics(transactions: Option<seq<Transaction>>, bucketId: string, target: int): (r: GoalMetrics)
    ensures transactions.None? ==> r == GoalMetrics(0, Percent(0.0))
    ensures r.saved == Balance(transactions, bucketId)
    ensures transactions.Some? ==> r.percentage == ClampedPercent(r.saved, target)
    ensures target != 0 ==> r.percentage.Percent? && 0.0 <= r.percentage.value <= 100.0
  {
    if transactions.None? then GoalMetrics(0, Percent(0.0))
    else
      var saved := SumAmounts(InBucket(transactions.value, bucketId));
      GoalMetrics(saved, ClampedPercent(saved, target))
  }

  /** The envelope bar's class: green above 50%, yellow above 20%, red otherwise (including NaN). */
  function EnvelopeColour(percentage: Percent): (c: string)
    ensures c == "bg-green-500" <==> percentage.Percent? && percentage.value > 50.0
    ensures c == "bg-yellow-500" <==> percentage.Percent? && 20.0 < percentage.value <= 50.0
    ensures c == "bg-red-600" <==> percentage.NotANumber? || percentage.value <= 20.0
  {
    if percentage.Percent? && percentage.value > 50.0 then "bg-green-500"
    else if percentage.Percent? && percentage.value > 20.0 then "bg-yellow-500"
    else "bg-red-600"
  }

  /** `transactions?.slice(0, 5)`: the first five transactions in slot order, nothing while undefined. */
  function RecentActivity(transactions: Option<seq<Transaction>>): (r: seq<Transaction>)
    ensures |r| <= 5
    ensures transactions.None? ==> r == []
    ensures transactions.Some? ==> |r| == if |transactions.value| < 5 then |transactions.value| else 5
    ensures transactions.Some? ==> r == transactions.value[..|r|]
  {
    if transactions.None? then []
    else if |transactions.value| <= 5 then transactions.value
    else transactions.value[..5]
  }
}

/**
 * `transferFunds`: one insert of two rows, a withdrawal on the source bucket and a
 * deposit on the destination, both flagged as a transfer. The other functions of
 * the transactions API are remote calls that either succeed or fail, and appear in
 * the hook models only through that outcome.
 */
module TransactionsApi {
  import opened Wrappers
  import opened Entities
  import opened Dashboard

  /** The argument object of `addTransaction` (no `date`, no `is_transfer`: the database fills them in). */
  datatype NewTransaction = NewTransaction(userId: string, bucketId: string, amount: int, note: string)

  /** An added transaction as it is read back. */
  function Added(n: NewTransaction, id: string, date: int): Transaction {
    Transaction(id, n.userId, n.bucketId, n.amount, Some(n.note), date, false)
  }

  /** Adding a transaction moves its own bucket's balance by its amount and no other balance. */
  lemma AddMovesBalance(txs: seq<Transaction>, n: NewTransaction, id: string, date: int, bucketId: string)
    ensures Balance(Some(txs + [Added(n, id, date)]), bucketId)
         == Balance(Some(txs), bucketId) + (if n.bucketId == bucketId then n.amount else 0)
  {
    BalanceOfConcat(txs, [Added(n, id, date)], bucketId);
    BalanceOfOne(Added(n, id, date), bucketId);
  }

  /** The argument object of `transferFunds`. */
  datatype TransferRequest = TransferRequest(
    userId: string,
    fromBucketId: string,
    toBucketId: string,
    amount: int,
    note: string)

  /** One object of an insert into `transactions`, before the database assigns id and date. */
  datatype InsertRow = InsertRow(userId: string, bucketId: string, amount: int, note: string, isTransfer: bool)

  /** The array `transferFunds` inserts. */
  function TransferRows(req: TransferRequest): (rows: seq<InsertRow>)
    ensures |rows| == 2
    ensures rows[0].bucketId == req.fromBucketId && rows[0].amount == -req.amount
    ensures rows[1].bucketId == req.toBucketId && rows[1].amount == req.amount
    ensures rows[0].amount + rows[1].amount == 0
    ensures rows[0].isTransfer && rows[1].isTransfer
    ensures rows[0].userId == req.userId && rows[1].userId == req.userId
    ensures rows[0].note == "Transfer to " + req.note && rows[1].note == "Transfer from " + req.note
  {
    [ InsertRow(req.userId, req.fromBucketId, -req.amount, "Transfer to " + req.note, true),
      InsertRow(req.userId, req.toBucketId, req.amount, "Transfer from " + req.note, true) ]
  }

  /** An inserted row as it is read back, with the id and date the database gave it. */
  function Stored(row: InsertRow, id: string, date: int): Transaction {
    Transaction(id, row.userId, row.bucketId, row.amount, Some(row.note), date, row.isTransfer)
  }

  /** The two rows of a transfer as they come back from the database. */
  function StoredTransfer(req: TransferRequest, fromId: string, toId: string, date: int): seq<Transaction> {
    var rows := TransferRows(req);
    [Stored(rows[0], fromId, date), Stored(rows[1], toId, date)]
  }

  /** A transfer leaves the total over all buckets unchanged. */
  lemma TransferPreservesTotal(txs: seq<Transaction>, req: TransferRequest, fromId: string, toId: string, date: int)
    ensures SumAmounts(txs + StoredTransfer(req, fromId, toId, date)) == SumAmounts(txs)
  {
    var pair := StoredTransfer(req, fromId, toId, date);
    SumAmountsConcat(txs, pair);
    assert pair[1..][1..] == [];
    assert SumAmounts(pair) == pair[0].amount + (pair[1].amount + SumAmounts([]));
  }

  /**
   * Between two different buckets, a transfer lowers the source balance and raises the
   * destination balance by exactly the amount, and leaves every other balance alone.
   * Between a bucket and itself it changes nothing.
   */
  lemma TransferMovesBalances(txs: seq<Transaction>, req: TransferRequest, fromId: string, toId: string, date: int, other: string)
    ensures req.fromBucketId != req.toBucketId ==>
      Balance(Some(txs + StoredTransfer(req, fromId, toId, date)), req.fromBucketId) == Balance(Some(txs), req.fromBucketId) - req.amount
    ensures req.fromBucketId != req.toBucketId ==>
      Balance(Some(txs + StoredTransfer(req, fromId, toId, date)), req.toBucketId) == Balance(Some(txs), req.toBucketId) + req.amount
    ensures req.fromBucketId == req.toBucketId ==>
      Balance(Some(txs + StoredTransfer(req, fromId, toId, date)), req.fromBucketId) == Balance(Some(txs), req.fromBucketId)
    ensures other != req.fromBucketId && other != req.toBucketId ==>
      Balance(Some(txs + StoredTransfer(req, fromId, toId, date)), other) == Balance(Some(txs), other)
  {
    var pair := StoredTransfer(req, fromId, toId, date);
    assert pair == [pair[0]] + [pair[1]];
    forall b
      ensures Balance(Some(txs + pair), b) == Balance(Some(txs), b)
        + (if pair[0].bucketId == b then pair[0].amount else 0)
        + (if pair[1].bucketId == b then pair[1].amount else 0)
    {
      BalanceOfConcat(txs, pair, b);
      BalanceOfConcat([pair[0]], [pair[1]], b);
      BalanceOfOne(pair[0], b);
      BalanceOfOne(pair[1], b);
    }
  }
}

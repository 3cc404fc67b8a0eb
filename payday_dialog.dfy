/** The payday dialog: `handleDeposit`'s guard, its always-positive payload with a fixed note, and the reset. */
module PaydayDialog {
  import opened Wrappers
  import opened Entities
  import opened Forms
  import opened TransactionsApi
  import opened Dashboard

  datatype PaydayForm = PaydayForm(amount: NumField, bucketId: string, open: bool)

  const DepositNote := "Payday Deposit \U{1F4B0}"
  const ClosedEmpty := PaydayForm(Empty, "", false)

  /** The object `handleDeposit` passes to `addTransaction`, or `None` when the guard returns early. */
  function DepositPayload(user: Option<string>, form: PaydayForm): (r: Option<NewTransaction>)
    ensures r.Some? <==> user.Some? && form.amount.Entered? && form.bucketId != ""
    ensures r.Some? ==> r.value.amount == Abs(NumberOf(form.amount)) && r.value.amount >= 0
    ensures r.Some? ==> r.value.note == DepositNote
    ensures r.Some? ==> r.value.bucketId == form.bucketId && r.value.userId == user.value
  {
    if user.None? || form.amount.Empty? || form.bucketId == "" then None
    else Some(NewTransaction(user.value, form.bucketId, Abs(NumberOf(form.amount)), DepositNote))
  }

  /** The dialog after `handleDeposit`: emptied and closed once the deposit has succeeded, otherwise as it was. */
  function AfterDeposit(user: Option<string>, form: PaydayForm, succeeds: bool): (r: PaydayForm)
    ensures DepositPayload(user, form).Some? && succeeds ==> r == ClosedEmpty
    ensures DepositPayload(user, form).None? || !succeeds ==> r == form
  {
    if DepositPayload(user, form).Some? && succeeds then ClosedEmpty else form
  }

  /** A deposit never lowers a balance: its bucket's balance rises by exactly the amount typed, without sign. */
  lemma DepositRaisesBalance(txs: seq<Transaction>, user: Option<string>, form: PaydayForm, id: string, date: int)
    requires DepositPayload(user, form).Some?
    ensures Balance(Some(txs + [Added(DepositPayload(user, form).value, id, date)]), form.bucketId)
         == Balance(Some(txs), form.bucketId) + Abs(NumberOf(form.amount))
  {
    AddMovesBalance(txs, DepositPayload(user, form).value, id, date, form.bucketId);
  }
}

/** The expense drawer: `handleSubmit`'s guard, its always-negative payload and the reset after a successful add. */
module AddTransactionDrawer {
  import opened Wrappers
  import opened Entities
  import opened Forms
  import opened TransactionsApi
  import opened Dashboard

  datatype DrawerForm = DrawerForm(amount: NumField, note: string, bucketId: string, open: bool)

  const DefaultNote := "Cash Expense"
  const ClosedEmpty := DrawerForm(Empty, "", "", false)

  /** The object `handleSubmit` passes to `addTransaction`, or `None` when the guard returns early. */
  function ExpensePayload(user: Option<string>, form: DrawerForm): (r: Option<NewTransaction>)
    ensures r.Some? <==> user.Some? && form.amount.Entered? && form.bucketId != ""
    ensures r.Some? ==> r.value.amount == -Abs(NumberOf(form.amount)) && r.value.amount <= 0
    ensures r.Some? ==> r.value.note == if form.note != "" then form.note else DefaultNote
    ensures r.Some? ==> r.value.note != ""
    ensures r.Some? ==> r.value.bucketId == form.bucketId && r.value.userId == user.value
  {
    if user.None? || form.amount.Empty? || form.bucketId == "" then None
    else Some(NewTransaction(user.value, form.bucketId, -Abs(NumberOf(form.amount)),
                             if form.note != "" then form.note else DefaultNote))
  }

  /** The drawer after `handleSubmit`: emptied and closed once the add has succeeded, otherwise as it was. */
  function AfterSubmit(user: Option<string>, form: DrawerForm, succeeds: bool): (r: DrawerForm)
    ensures ExpensePayload(user, form).Some? && succeeds ==> r == ClosedEmpty
    ensures ExpensePayload(user, form).None? || !succeeds ==> r == form
  {
    if ExpensePayload(user, form).Some? && succeeds then ClosedEmpty else form
  }

  /** An expense never raises a balance: its bucket's balance drops by exactly the amount typed, without sign. */
  lemma ExpenseLowersBalance(txs: seq<Transaction>, user: Option<string>, form: DrawerForm, id: string, date: int)
    requires ExpensePayload(user, form).Some?
    ensures Balance(Some(txs + [Added(ExpensePayload(user, form).value, id, date)]), form.bucketId)
         == Balance(Some(txs), form.bucketId) - Abs(NumberOf(form.amount))
  {
    AddMovesBalance(txs, ExpensePayload(user, form).value, id, date, form.bucketId);
  }
}

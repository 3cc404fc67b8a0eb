/**
 * The transaction edit dialog: the form starts from the transaction's unsigned
 * amount and its note; saving puts the original sign back and sends only `amount`
 * and `note`; deleting targets the transaction's id.
 */
module EditTransactionDialog {
  import opened Wrappers
  import opened Rows
  import opened Entities
  import opened Forms
  import opened QueryClientConfig

  datatype EditForm = EditForm(amount: NumField, note: string)

  /** The initial state: `String(Math.abs(amount || 0))` and `note || ""`. */
  function InitialForm(t: Transaction): (f: EditForm)
    ensures f.amount.Entered? && NumberOf(f.amount) == Abs(t.amount) && NumberOf(f.amount) >= 0
    ensures t.note.Some? ==> f.note == t.note.value
    ensures t.note.None? ==> f.note == ""
  {
    EditForm(Shown(Abs(t.amount)), t.note.GetOr(""))
  }

  /** The saved amount: the typed number, negated exactly when the original amount was negative. */
  function FinalAmount(t: Transaction, form: EditForm): (a: int)
    ensures t.amount < 0 ==> a == -NumberOf(form.amount)
    ensures t.amount >= 0 ==> a == NumberOf(form.amount)
    ensures NumberOf(form.amount) >= 0 ==> (a < 0 ==> t.amount < 0) && (t.amount > 0 ==> a >= 0)
  {
    NumberOf(form.amount) * (if t.amount < 0 then -1 else 1)
  }

  /** The variables `handleSave` passes to `editMutation`: the transaction's id and an `{ amount, note }` update. */
  function SaveVariables(t: Transaction, form: EditForm): (v: Variables)
    ensures v.IdAndUpdates? && v.id == t.id
    ensures v.updates.Keys == {"amount", "note"}
    ensures v.updates["amount"] == Num(FinalAmount(t, form)) && v.updates["note"] == Str(form.note)
  {
    IdAndUpdates(t.id, map["amount" := Num(FinalAmount(t, form)), "note" := Str(form.note)])
  }

  /** Saving without touching the form writes back exactly the original amount: `|a| * sign(a) = a`. */
  lemma SaveUnchangedKeepsAmount(t: Transaction)
    ensures FinalAmount(t, InitialForm(t)) == t.amount
    ensures SaveVariables(t, InitialForm(t)).updates["amount"] == Num(t.amount)
  {
  }

  /** The update never carries an `id`, so the optimistic merge keeps every row's id. */
  lemma SaveKeepsIds(t: Transaction, form: EditForm, rows: seq<Row>)
    ensures "id" !in SaveVariables(t, form).updates
    ensures UniqueIds(rows) ==> UniqueIds(MergeById(rows, t.id, SaveVariables(t, form).updates))
  {
    MergeKeepsIds(rows, t.id, SaveVariables(t, form).updates);
  }

  /** The variable `handleDelete` passes to `deleteMutation`. */
  function DeleteVariables(t: Transaction): Variables {
    IdOnly(t.id)
  }

  /** Saving and deleting both address the transaction the dialog was opened on. */
  lemma DialogTargetsItsTransaction(t: Transaction, form: EditForm)
    ensures DeleteVariables(t).IdOnly? && DeleteVariables(t).id == t.id
    ensures SaveVariables(t, form).id == DeleteVariables(t).id
  {
  }
}

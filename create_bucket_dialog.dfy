/**
 * The bucket creation dialog: `handleSubmit` picks a colour by type (a default
 * overwritten by successive `if`s), builds the payload and resets the form after a
 * successful create.
 */
module CreateBucketDialog {
  import opened Wrappers
  import opened Entities
  import opened Forms
  import opened SpendingChart

  datatype CreateForm = CreateForm(name: string, amount: NumField, kind: BucketType, open: bool)

  /** The initial and reset state: empty fields, type `envelope`, closed. */
  const Initial := CreateForm("", Empty, Envelope, false)

  /** The object passed to `createBucket`. */
  datatype NewBucket = NewBucket(userId: string, name: string, kind: BucketType, targetAmount: int, color: string)

  const Green := "#10b981"
  const Gold := "#fbbf24"
  const Blue := "#3b82f6"

  /** The colour a new bucket of this type is given: gold for goals, blue for income, green otherwise. */
  function ColourFor(kind: BucketType): string {
    if kind == Goal then Gold else if kind == Income then Blue else Green
  }

  /** `handleSubmit`: the payload (none without a user) and the form afterwards. */
  method HandleSubmit(user: Option<string>, form: CreateForm, succeeds: bool) returns (payload: Option<NewBucket>, next: CreateForm)
    ensures payload.Some? <==> user.Some?
    ensures payload.Some? ==> payload.value.color == ColourFor(form.kind)
    ensures payload.Some? ==> payload.value.color == (if form.kind == Goal then Gold else if form.kind == Income then Blue else Green)
    ensures payload.Some? ==> payload.value.userId == user.value && payload.value.name == form.name
    ensures payload.Some? ==> payload.value.kind == form.kind && payload.value.targetAmount == NumberOf(form.amount)
    ensures payload.Some? && succeeds ==> next == Initial
    ensures payload.None? || !succeeds ==> next == form
  {
    next := form;
    if user.None? {
      return None, next;
    }
    var color := Green;
    if form.kind == Goal {
      color := Gold;
    }
    if form.kind == Income {
      color := Blue;
    }
    payload := Some(NewBucket(user.value, form.name, form.kind, NumberOf(form.amount), color));
    if succeeds {
      next := Initial;
    }
  }

  /** A created bucket as it is read back. */
  function Created(nb: NewBucket, id: string): Bucket {
    Bucket(id, nb.name, nb.kind, Some(nb.targetAmount), Some(nb.color), nb.userId)
  }

  /** A bucket made by the dialog is charted in its own colour, never the fallback one (income buckets are not charted). */
  lemma CreatedBucketChartedInItsColour(nb: NewBucket, id: string, total: int, others: seq<Bucket>)
    requires nb.color == ColourFor(nb.kind)
    requires nb.kind != Income && total > 0
    ensures EntryFor(id, total, [Created(nb, id)] + others).Some?
    ensures EntryFor(id, total, [Created(nb, id)] + others).value.color == ColourFor(nb.kind)
  {
    assert ColourFor(nb.kind)[0] == '#';
    assert FindBucket([Created(nb, id)] + others, id) == Some(Created(nb, id));
  }
}

/**
 * The subscription manager: paying a bill (an unkeyed mutation that adds a
 * negative transaction and invalidates `['transactions']` on success), the add
 * and edit payloads, and the funding choices.
 */
module SubscriptionManager {
  import opened Wrappers
  import opened Rows
  import opened Entities
  import opened Forms
  import opened QueryCache
  import opened QueryClientConfig
  import opened TransactionsApi
  import opened Dashboard
  import opened UseBuckets
  import opened UseSubscriptions

  /**
   * What `payBill`'s `mutationFn` passes to `addTransaction`. Without a user the
   * `user!.id` read throws before any call, which is modelled as `None`.
   */
  function BillPayload(user: Option<string>, sub: Subscription): (r: Option<NewTransaction>)
    ensures r.Some? <==> user.Some?
    ensures r.Some? ==> r.value.amount == -Abs(sub.amount) && r.value.amount <= 0
    ensures r.Some? ==> r.value.bucketId == sub.bucketId && r.value.userId == user.value
    ensures r.Some? ==> r.value.note == "Bill: " + sub.name
  {
    if user.None? then None else Some(NewTransaction(user.value, sub.bucketId, -Abs(sub.amount), "Bill: " + sub.name))
  }

  /** Paying a bill lowers the funding bucket's balance by the bill's amount, whatever its sign. */
  lemma PayingLowersBalance(txs: seq<Transaction>, user: Option<string>, sub: Subscription, id: string, date: int)
    requires user.Some?
    ensures Balance(Some(txs + [Added(BillPayload(user, sub).value, id, date)]), sub.bucketId)
         == Balance(Some(txs), sub.bucketId) - Abs(sub.amount)
  {
    AddMovesBalance(txs, BillPayload(user, sub).value, id, date, sub.bucketId);
  }

  /** `payBill`'s `onSuccess`. */
  method PayBillOnSuccess(c: Cache)
    modifies c
    ensures c.invalidated == old(c.invalidated) + {Transactions}
    ensures c.slots == old(c.slots)
  {
    c.InvalidateQueries(Transactions);
  }

  /** `payBill` run to completion: no optimistic step; only `['transactions']`, and only when the add succeeded. */
  method PayBill(c: Cache, user: Option<string>, sub: Subscription, succeeds: bool)
    modifies c
    ensures c.slots == old(c.slots)
    ensures c.invalidated == old(c.invalidated) + (if user.Some? && succeeds then {Transactions} else {})
  {
    var payload := BillPayload(user, sub);
    if payload.Some? && succeeds {
      PayBillOnSuccess(c);
    }
  }

  /** The add dialog's fields; the bucket select starts undefined. */
  datatype AddForm = AddForm(name: string, amount: NumField, bucketId: Option<string>, day: NumField, open: bool)

  /** The add dialog's initial and reset state: the day shows "1". */
  const AddInitial := AddForm("", Empty, None, Entered(1), false)

  /** The object `handleAdd` passes to `createSub`, or `None` when the guard returns early. */
  function AddPayload(user: Option<string>, form: AddForm): (r: Option<Row>)
    ensures r.Some? <==> user.Some? && form.name != "" && form.amount.Entered? && form.bucketId.Some? && form.bucketId.value != ""
    ensures r.Some? ==> r.value.Keys == {"user_id", "name", "amount", "day_of_month", "bucket_id"}
    ensures r.Some? ==> r.value["user_id"] == Str(user.value) && r.value["name"] == Str(form.name)
    ensures r.Some? ==> r.value["amount"] == Num(NumberOf(form.amount)) && r.value["day_of_month"] == Num(NumberOf(form.day))
    ensures r.Some? ==> r.value["bucket_id"] == Str(form.bucketId.value)
  {
    if user.None? || form.name == "" || form.amount.Empty? || form.bucketId.None? || form.bucketId.value == "" then None
    else Some(map[
      "user_id" := Str(user.value),
      "name" := Str(form.name),
      "amount" := Num(NumberOf(form.amount)),
      "day_of_month" := Num(NumberOf(form.day)),
      "bucket_id" := Str(form.bucketId.value)])
  }

  /** Untouched, the day field gives day 1. */
  lemma DefaultDayIsFirst(user: Option<string>, name: string, amount: int, bucketId: string)
    requires user.Some? && name != "" && bucketId != ""
    ensures AddPayload(user, AddInitial.(name := name, amount := Entered(amount), bucketId := Some(bucketId))).value["day_of_month"] == Num(1)
  {
  }

  /** The add dialog after `handleAdd`: reset (day back to "1") and closed once the create succeeded. */
  function AfterAdd(user: Option<string>, form: AddForm, succeeds: bool): (r: AddForm)
    ensures AddPayload(user, form).Some? && succeeds ==> r == AddInitial && NumberOf(r.day) == 1
    ensures AddPayload(user, form).None? || !succeeds ==> r == form
  {
    if AddPayload(user, form).Some? && succeeds then AddInitial else form
  }

  /** The add payload carries no `id` or `created_at`, so the optimistic row gets the temporary id and the creation time. */
  lemma AddedBillGetsTempId(user: Option<string>, form: AddForm, now: nat, nowIso: string)
    requires AddPayload(user, form).Some?
    ensures OptimisticSub(AddPayload(user, form).value, now, nowIso)["id"] == Str(TempId(now))
    ensures OptimisticSub(AddPayload(user, form).value, now, nowIso)["created_at"] == Str(nowIso)
    ensures forall k :: k in AddPayload(user, form).value ==>
      OptimisticSub(AddPayload(user, form).value, now, nowIso)[k] == AddPayload(user, form).value[k]
  {
  }

  /** The edit dialog's fields and the subscription being edited (`null` when closed). */
  datatype EditForm = EditForm(editing: Option<Subscription>, name: string, amount: NumField, bucketId: Option<string>, day: NumField)

  /** `handleEditClick(sub)`: the form is filled from the subscription; an empty bucket id becomes undefined. */
  function BeginEdit(sub: Subscription): (f: EditForm)
    ensures f.editing == Some(sub) && f.name == sub.name
    ensures NumberOf(f.amount) == sub.amount && NumberOf(f.day) == sub.dayOfMonth
    ensures f.bucketId == if sub.bucketId == "" then None else Some(sub.bucketId)
  {
    EditForm(Some(sub), sub.name, Shown(sub.amount), if sub.bucketId == "" then None else Some(sub.bucketId), Shown(sub.dayOfMonth))
  }

  /**
   * The variables `handleSaveEdit` passes to `updateSub`. An undefined bucket is sent
   * as an `undefined` property, which the optimistic spread copies over the row.
   */
  function SaveEditVariables(form: EditForm): (r: Option<Variables>)
    ensures r.Some? <==> form.editing.Some?
    ensures r.Some? ==> r.value.IdAndUpdates? && r.value.id == form.editing.value.id
    ensures r.Some? ==> r.value.updates.Keys == {"name", "amount", "bucket_id", "day_of_month"}
    ensures r.Some? ==> r.value.updates["name"] == Str(form.name) && r.value.updates["amount"] == Num(NumberOf(form.amount))
    ensures r.Some? ==> r.value.updates["day_of_month"] == Num(NumberOf(form.day))
    ensures r.Some? ==> r.value.updates["bucket_id"] == (if form.bucketId.Some? then Str(form.bucketId.value) else Undefined)
  {
    if form.editing.None? then None
    else Some(IdAndUpdates(form.editing.value.id, map[
      "name" := Str(form.name),
      "amount" := Num(NumberOf(form.amount)),
      "bucket_id" := if form.bucketId.Some? then Str(form.bucketId.value) else Undefined,
      "day_of_month" := Num(NumberOf(form.day))]))
  }

  /** Saving an edit begun and not changed sends back the subscription's own name, amount, bucket and day. */
  lemma UnchangedEditResendsFields(sub: Subscription)
    requires sub.bucketId != ""
    ensures var v := SaveEditVariables(BeginEdit(sub)).value;
      && v.id == sub.id
      && v.updates == map["name" := Str(sub.name), "amount" := Num(sub.amount),
                          "bucket_id" := Str(sub.bucketId), "day_of_month" := Num(sub.dayOfMonth)]
  {
  }

  /** The edit form after `handleSaveEdit`: closed (`editingSub` cleared) once the update succeeded. */
  function AfterSaveEdit(form: EditForm, succeeds: bool): (r: EditForm)
    ensures form.editing.Some? && succeeds ==> r == form.(editing := None)
    ensures form.editing.None? || !succeeds ==> r == form
  {
    if form.editing.Some? && succeeds then form.(editing := None) else form
  }

  /** `handleConfirmDelete`: the id of the subscription awaiting confirmation, if any. */
  function ConfirmDeleteVariables(deleting: Option<Subscription>): (r: Option<Variables>)
    ensures r.Some? <==> deleting.Some?
    ensures r.Some? ==> r.value == IdOnly(deleting.value.id)
  {
    if deleting.None? then None else Some(IdOnly(deleting.value.id))
  }

  /** `envelopeBuckets`: the funding choices are exactly the envelope buckets, in order. */
  function EnvelopeBuckets(buckets: Option<seq<Bucket>>): (r: seq<Bucket>)
    ensures forall b :: b in r <==> buckets.Some? && b in buckets.value && b.kind == Envelope
    ensures buckets.Some? ==> SeqUtil.IsSubsequence(r, buckets.value)
  {
    if buckets.None? then BucketsOfType(buckets, Envelope)
    else
      BucketsOfTypeExact(buckets.value, Envelope);
      BucketsOfType(buckets, Envelope)
  }
}

/**
 * The transfer dialog: the two bucket selectors, each disabling the bucket chosen
 * on the other side; `handleTransfer`'s guard, note and payload; and the reset
 * after a successful transfer.
 */
module TransferDialog {
  import opened Wrappers
  import opened SeqUtil
  import opened Entities
  import opened Forms
  import opened TransactionsApi
  import opened Dashboard

  datatype TransferForm = TransferForm(fromId: string, toId: string, amount: NumField, open: bool)

  const Initial := TransferForm("", "", Empty, false)
  const DefaultNote := "Goal"

  /** One `SelectItem`: a bucket offered by a selector and whether it is disabled. */
  datatype SelectOption = SelectOption(id: string, name: string, disabled: bool)

  /** A selector's items: every bucket, in order, disabled exactly when it is the other side's choice. */
  function Options(buckets: Option<seq<Bucket>>, otherSide: string): (r: seq<SelectOption>)
    ensures buckets.None? ==> r == []
    ensures buckets.Some? ==> |r| == |buckets.value|
    ensures buckets.Some? ==> forall i :: 0 <= i < |r| ==>
      r[i].id == buckets.value[i].id && r[i].name == buckets.value[i].name && (r[i].disabled <==> r[i].id == otherSide)
  {
    if buckets.None? then []
    else Map(buckets.value, (b: Bucket) => SelectOption(b.id, b.name, b.id == otherSide))
  }

  /** The selectors never let both sides hold the same bucket. */
  predicate SidesDiffer(form: TransferForm) {
    form.fromId == "" || form.fromId != form.toId
  }

  /** Choosing a source: only an enabled item can be chosen, so the current destination is refused. */
  function ChooseFrom(form: TransferForm, buckets: Option<seq<Bucket>>, i: nat): (r: TransferForm)
    ensures r == form.(fromId := r.fromId)
    ensures r.fromId != form.fromId ==> r.fromId != form.toId && buckets.Some? && exists b :: b in buckets.value && b.id == r.fromId
  {
    var opts := Options(buckets, form.toId);
    if i < |opts| && !opts[i].disabled then form.(fromId := opts[i].id) else form
  }

  /** Choosing a destination: the current source is refused. */
  function ChooseTo(form: TransferForm, buckets: Option<seq<Bucket>>, i: nat): (r: TransferForm)
    ensures r == form.(toId := r.toId)
    ensures r.toId != form.toId ==> r.toId != form.fromId && buckets.Some? && exists b :: b in buckets.value && b.id == r.toId
  {
    var opts := Options(buckets, form.fromId);
    if i < |opts| && !opts[i].disabled then form.(toId := opts[i].id) else form
  }

  /** Each choice through the selectors keeps two sides that differ apart. */
  lemma SelectorsKeepSidesApart(form: TransferForm, buckets: Option<seq<Bucket>>, i: nat)
    requires SidesDiffer(form)
    ensures SidesDiffer(ChooseFrom(form, buckets, i))
    ensures SidesDiffer(ChooseTo(form, buckets, i))
  {
  }

  /** The note: the destination bucket's name, or "Goal" when it is missing or unnamed. */
  function TransferNote(buckets: Option<seq<Bucket>>, toId: string): (note: string)
    ensures buckets.Some? && FindBucket(buckets.value, toId).Some? && FindBucket(buckets.value, toId).value.name != "" ==>
      note == FindBucket(buckets.value, toId).value.name
    ensures buckets.None? || FindBucket(buckets.value, toId).None? || FindBucket(buckets.value, toId).value.name == "" ==>
      note == DefaultNote
    ensures note != ""
  {
    if buckets.Some? && FindBucket(buckets.value, toId).Some? && FindBucket(buckets.value, toId).value.name != "" then
      FindBucket(buckets.value, toId).value.name
    else DefaultNote
  }

  /** The object `handleTransfer` passes to `transferFunds`, or `None` when the guard returns early. */
  function TransferPayload(user: Option<string>, buckets: Option<seq<Bucket>>, form: TransferForm): (r: Option<TransferRequest>)
    ensures r.Some? <==> user.Some? && form.fromId != "" && form.toId != "" && form.amount.Entered?
    ensures r.Some? ==> r.value == TransferRequest(user.value, form.fromId, form.toId, NumberOf(form.amount), TransferNote(buckets, form.toId))
  {
    if user.None? || form.fromId == "" || form.toId == "" || form.amount.Empty? then None
    else Some(TransferRequest(user.value, form.fromId, form.toId, NumberOf(form.amount), TransferNote(buckets, form.toId)))
  }

  /** The dialog after `handleTransfer`: amount, source and destination cleared and the dialog closed once the transfer succeeded. */
  function AfterTransfer(user: Option<string>, buckets: Option<seq<Bucket>>, form: TransferForm, succeeds: bool): (r: TransferForm)
    ensures TransferPayload(user, buckets, form).Some? && succeeds ==> r == Initial
    ensures TransferPayload(user, buckets, form).None? || !succeeds ==> r == form
  {
    if TransferPayload(user, buckets, form).Some? && succeeds then Initial else form
  }

  /**
   * A transfer submitted from a form the selectors produced is between two different
   * buckets, so the source loses and the destination gains exactly the typed amount.
   */
  lemma SubmittedTransferMovesMoney(user: Option<string>, buckets: Option<seq<Bucket>>, form: TransferForm,
                                    txs: seq<Transaction>, fromId: string, toId: string, date: int)
    requires SidesDiffer(form)
    requires TransferPayload(user, buckets, form).Some?
    ensures var req := TransferPayload(user, buckets, form).value;
      req.fromBucketId != req.toBucketId
    ensures var req := TransferPayload(user, buckets, form).value;
      Balance(Some(txs + StoredTransfer(req, fromId, toId, date)), form.fromId) == Balance(Some(txs), form.fromId) - NumberOf(form.amount)
    ensures var req := TransferPayload(user, buckets, form).value;
      Balance(Some(txs + StoredTransfer(req, fromId, toId, date)), form.toId) == Balance(Some(txs), form.toId) + NumberOf(form.amount)
  {
    var req := TransferPayload(user, buckets, form).value;
    TransferMovesBalances(txs, req, fromId, toId, date, form.fromId);
  }
}

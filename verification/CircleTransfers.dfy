/** The Circle transfer requests of payments: one idempotency key for each attempt to pay. */
module CircleTransfers {
  import opened Wrappers
  import opened QueryBuilders
  import opened SetClauses

  type Key = string

  datatype TransferStatus = PENDING | COMPLETE | FAILED

  // Empty strings stand for NULL; a response body that is there may be empty.
  datatype TransferRequest = TransferRequest(
    paymentId: string, transferId: string, payoutId: string, status: Option<TransferStatus>, responseBody: Option<string>,
    sourceWalletId: string, createdAt: nat, completedAt: Option<nat>, lastSyncAttemptAt: Option<nat>, syncAttempts: int)

  datatype TransferUpdate = TransferUpdate(
    transferId: string, payoutId: string, status: Option<TransferStatus>, responseBody: Option<string>, sourceWalletId: string,
    completedAt: Option<nat>, lastSyncAttemptAt: Option<nat>, syncAttempts: int)

  datatype TransferError = MissingInput | PaymentNotFound | NoFields | NotFound | ConstraintViolated

  datatype Table = Table(requests: map<Key, TransferRequest>, payments: set<string>, now: nat)

  // ----------------------------------------------------------------------------- the update

  function StatusText(s: TransferStatus): string {
    match s
    case PENDING => "pending"
    case COMPLETE => "complete"
    case FAILED => "failed"
  }

  function Tagged(tag: string, text: string): Field {
    Field(tag, Text(text), text == "")
  }

  function Timed(tag: string, time: Option<nat>): Field {
    Field(tag, Number(if time.Some? then time.value else 0), time.None?)
  }

  // The struct of the update, field by field.
  function FieldsOf(u: TransferUpdate): seq<Field> {
    [Tagged("circle_transfer_id", u.transferId),
     Tagged("circle_payout_id", u.payoutId),
     Tagged("status", if u.status.Some? then StatusText(u.status.value) else ""),
     Field("response_body", Text(if u.responseBody.Some? then u.responseBody.value else ""), u.responseBody.None?),
     Tagged("source_wallet_id", u.sourceWalletId),
     Timed("completed_at", u.completedAt),
     Timed("last_sync_attempt_at", u.lastSyncAttemptAt),
     Field("sync_attempts", Number(u.syncAttempts), u.syncAttempts == 0)]
  }

  // The row after the update: zero fields are not set.
  function Updated(r: TransferRequest, u: TransferUpdate): TransferRequest {
    r.(transferId := if u.transferId != "" then u.transferId else r.transferId,
       payoutId := if u.payoutId != "" then u.payoutId else r.payoutId,
       status := if u.status.Some? then u.status else r.status,
       responseBody := if u.responseBody.Some? then u.responseBody else r.responseBody,
       sourceWalletId := if u.sourceWalletId != "" then u.sourceWalletId else r.sourceWalletId,
       completedAt := if u.completedAt.Some? then u.completedAt else r.completedAt,
       lastSyncAttemptAt := if u.lastSyncAttemptAt.Some? then u.lastSyncAttemptAt else r.lastSyncAttemptAt,
       syncAttempts := if u.syncAttempts != 0 then u.syncAttempts else r.syncAttempts)
  }

  predicate SetsNothing(u: TransferUpdate) {
    u == TransferUpdate("", "", None, None, "", None, None, 0)
  }

  lemma FieldsKept(u: TransferUpdate)
    ensures Kept(FieldsOf(u)) == [] <==> SetsNothing(u)
  {
    hide Kept, BeforeComma, StatusText;
    var fields := FieldsOf(u);
    TagsPlain(u);
    KeptEmpty(fields);
    StatusTextNotEmpty(u.status);
    if Kept(fields) == [] {
      assert fields[0].isZero && fields[1].isZero && fields[2].isZero && fields[3].isZero;
      assert fields[4].isZero && fields[5].isZero && fields[6].isZero && fields[7].isZero;
    }
  }

  lemma StatusTextNotEmpty(s: Option<TransferStatus>)
    ensures s.Some? ==> StatusText(s.value) != ""
  {
  }

  // What the database does with one assignment of the SET clause: the column named gets the value.
  function Assign(r: TransferRequest, column: string, v: Value): TransferRequest {
    match v
    case Text(text) =>
      if column == "circle_transfer_id" then r.(transferId := text)
      else if column == "circle_payout_id" then r.(payoutId := text)
      else if column == "status" then r.(status := if text == "pending" then Some(PENDING) else if text == "complete" then Some(COMPLETE) else Some(FAILED))
      else if column == "response_body" then r.(responseBody := Some(text))
      else if column == "source_wallet_id" then r.(sourceWalletId := text)
      else r
    case Number(n) =>
      if column == "sync_attempts" then r.(syncAttempts := n)
      else if column == "completed_at" && n >= 0 then r.(completedAt := Some(n))
      else if column == "last_sync_attempt_at" && n >= 0 then r.(lastSyncAttemptAt := Some(n))
      else r
    case _ => r
  }

  function Assigned(r: TransferRequest, kept: seq<Assignment>): TransferRequest {
    if kept == [] then r
    else Assign(Assigned(r, kept[..|kept| - 1]), kept[|kept| - 1].column, kept[|kept| - 1].value)
  }

  lemma {:induction false} AssignedMore(r: TransferRequest, fields: seq<Field>, f: Field)
    requires BeforeComma(f.tag) == f.tag != ""
    ensures Assigned(r, Kept(fields + [f])) == if f.isZero then Assigned(r, Kept(fields)) else Assign(Assigned(r, Kept(fields)), f.tag, f.value)
  {
    var more := fields + [f];
    assert more[..|fields|] == fields;
    var kept := Kept(fields);
    assert (kept + [Assignment(f.tag, f.value)])[..|kept|] == kept;
    assert kept + [] == kept;
  }

  lemma {:induction false} PlainTag(tag: string)
    requires ',' !in tag
    ensures BeforeComma(tag) == tag
  {
    if tag != "" {
      assert tag[0] in tag;
      PlainTag(tag[1..]);
    }
  }

  /** Setting the fields that are not zero, column by column, is the update of the row. */
  lemma AssignedIsUpdated(r: TransferRequest, u: TransferUpdate)
    ensures Assigned(r, Kept(FieldsOf(u))) == Updated(r, u)
  {
    hide Kept, Assigned, Assign, BeforeComma, FieldsOf, UpdatedUpTo, Updated;
    var f := FieldsOf(u);
    TagsPlain(u);
    AssignedNone(r);
    UpdatedEnds(r, u);
    assert f[..0] == [];
    for i := 0 to 8
      invariant Assigned(r, Kept(f[..i])) == UpdatedUpTo(r, u, i)
    {
      assert f[..i + 1] == f[..i] + [f[i]];
      AssignedMore(r, f[..i], f[i]);
      AssignNext(r, u, i);
    }
    assert f[..8] == f;
  }

  lemma TagsPlain(u: TransferUpdate)
    ensures |FieldsOf(u)| == 8
    ensures forall i :: 0 <= i < 8 ==> BeforeComma(FieldsOf(u)[i].tag) == FieldsOf(u)[i].tag != ""
  {
    hide BeforeComma;
    IdentifierTags();
    TimeTags();
  }

  lemma IdentifierTags()
    ensures BeforeComma("circle_transfer_id") == "circle_transfer_id" && BeforeComma("circle_payout_id") == "circle_payout_id"
    ensures BeforeComma("status") == "status" && BeforeComma("response_body") == "response_body"
  {
    hide BeforeComma;
    PlainTag("circle_transfer_id");
    PlainTag("circle_payout_id");
    PlainTag("status");
    PlainTag("response_body");
  }

  lemma TimeTags()
    ensures BeforeComma("source_wallet_id") == "source_wallet_id" && BeforeComma("completed_at") == "completed_at"
    ensures BeforeComma("last_sync_attempt_at") == "last_sync_attempt_at" && BeforeComma("sync_attempts") == "sync_attempts"
  {
    hide BeforeComma;
    PlainTag("source_wallet_id");
    PlainTag("completed_at");
    PlainTag("last_sync_attempt_at");
    PlainTag("sync_attempts");
  }

  lemma UpdatedEnds(r: TransferRequest, u: TransferUpdate)
    ensures UpdatedUpTo(r, u, 0) == r && UpdatedUpTo(r, u, 8) == Updated(r, u)
  {
  }

  lemma AssignedNone(r: TransferRequest)
    ensures Assigned(r, Kept([])) == r
  {
  }

  // The update after the first n fields.
  function UpdatedUpTo(r: TransferRequest, u: TransferUpdate, n: nat): TransferRequest {
    Updated(r, TransferUpdate(
      if n > 0 then u.transferId else "", if n > 1 then u.payoutId else "", if n > 2 then u.status else None,
      if n > 3 then u.responseBody else None, if n > 4 then u.sourceWalletId else "", if n > 5 then u.completedAt else None,
      if n > 6 then u.lastSyncAttemptAt else None, if n > 7 then u.syncAttempts else 0))
  }

  lemma AssignNext(r: TransferRequest, u: TransferUpdate, i: nat)
    requires i < |FieldsOf(u)|
    ensures var f := FieldsOf(u)[i];
            UpdatedUpTo(r, u, i + 1) == if f.isZero then UpdatedUpTo(r, u, i) else Assign(UpdatedUpTo(r, u, i), f.tag, f.value)
  {
  }

  lemma {:induction false} KeptEmpty(fields: seq<Field>)
    requires forall i :: 0 <= i < |fields| ==> BeforeComma(fields[i].tag) != ""
    ensures Kept(fields) == [] <==> forall i :: 0 <= i < |fields| ==> fields[i].isZero
  {
    if fields != [] {
      KeptEmpty(fields[..|fields| - 1]);
    }
  }

  // ------------------------------------------------------------------------ constraints and steps

  // The request is the payment's and has not failed.
  predicate Live(r: TransferRequest, paymentId: string) {
    r.paymentId == paymentId && r.status != Some(FAILED)
  }

  // At most one request of a payment has a status other than failed, and none is both a transfer and a payout.
  ghost predicate SchemaOk(requests: map<Key, TransferRequest>) {
    && (forall k, l :: k in requests && l in requests && Live(requests[k], requests[l].paymentId) && requests[l].status != Some(FAILED) ==>
          k == l)
    && (forall k :: k in requests ==> requests[k].transferId == "" || requests[k].payoutId == "")
  }

  predicate Incomplete(requests: map<Key, TransferRequest>, k: Key, paymentId: string) {
    k in requests && requests[k].paymentId == paymentId && requests[k].completedAt.None?
  }

  predicate NoneIncomplete(requests: map<Key, TransferRequest>, paymentId: string) {
    forall k :: k in requests ==> !Incomplete(requests, k, paymentId)
  }

  function NewRequest(paymentId: string, now: nat): TransferRequest {
    TransferRequest(paymentId, "", "", None, None, "", now, None, None, 0)
  }

  datatype Step = GetOrInsert(paymentId: string, key: Key) | Update(key: Key, update: TransferUpdate)

  // A successful call; `key` is what it returns.  The clock moves on with each insertion.
  ghost predicate Take(t: Table, step: Step, t': Table) {
    match step
    case GetOrInsert(p, key) =>
      && p in t.payments
      && if NoneIncomplete(t.requests, p) then
           key !in t.requests && t' == t.(requests := t.requests[key := NewRequest(p, t.now)], now := t.now + 1) && SchemaOk(t'.requests)
         else
           Incomplete(t.requests, key, p) && t' == t
    case Update(key, u) =>
      && key in t.requests && !SetsNothing(u)
      && t' == t.(requests := t.requests[key := Updated(t.requests[key], u)]) && SchemaOk(t'.requests)
  }

  // ------------------------------------------------------------------------------- invariant

  predicate Superseded(r: TransferRequest, later: TransferRequest) {
    r.paymentId == later.paymentId && r.createdAt < later.createdAt
  }

  // Of the requests of a payment only the latest may be incomplete.
  ghost predicate TableOk(t: Table) {
    && SchemaOk(t.requests)
    && (forall k :: k in t.requests ==> t.requests[k].createdAt < t.now)
    && (forall k, l :: k in t.requests && l in t.requests && k != l && t.requests[k].paymentId == t.requests[l].paymentId ==>
          t.requests[k].createdAt != t.requests[l].createdAt)
    && (forall k, l :: k in t.requests && l in t.requests && Superseded(t.requests[k], t.requests[l]) ==> t.requests[k].completedAt.Some?)
  }

  lemma TableOkStep(t: Table, step: Step, t': Table)
    requires TableOk(t) && Take(t, step, t')
    ensures TableOk(t')
  {
    hide SchemaOk, NewRequest;
    match step
    case GetOrInsert(p, key) =>
      InsertedLast(t, p, key, t');
    case Update(key, u) =>
      KeepsPlace(t.requests[key], u);
      hide Updated;
  }

  lemma KeepsPlace(r: TransferRequest, u: TransferUpdate)
    ensures Updated(r, u).paymentId == r.paymentId && Updated(r, u).createdAt == r.createdAt
    ensures r.completedAt.Some? ==> Updated(r, u).completedAt.Some?
  {
  }

  lemma InsertedLast(t: Table, p: string, key: Key, t': Table)
    requires TableOk(t) && Take(t, GetOrInsert(p, key), t')
    ensures TableOk(t')
  {
    hide SchemaOk;
    if NoneIncomplete(t.requests, p) {
      forall k | k in t.requests && t.requests[k].paymentId == p
        ensures t.requests[k].completedAt.Some?
      {
        assert !Incomplete(t.requests, k, p);
      }
    }
  }

  datatype Event = Event(step: Step, after: Table)

  ghost function At(start: Table, run: seq<Event>, i: nat): Table
    requires i <= |run|
  {
    if i == 0 then start else run[i - 1].after
  }

  ghost predicate IsRun(start: Table, run: seq<Event>) {
    TableOk(start) && forall i :: 0 <= i < |run| ==> Take(At(start, run, i), run[i].step, run[i].after)
  }

  lemma {:induction false} AlwaysOk(start: Table, run: seq<Event>, i: nat)
    requires IsRun(start, run) && i <= |run|
    ensures TableOk(At(start, run, i))
  {
    hide Take, TableOk;
    if i > 0 {
      AlwaysOk(start, run, i - 1);
      TableOkStep(At(start, run, i - 1), run[i - 1].step, run[i - 1].after);
    }
  }

  /** A payment never has two incomplete requests. */
  lemma OneIncomplete(start: Table, run: seq<Event>, i: nat, p: string, k: Key, l: Key)
    requires IsRun(start, run) && i <= |run|
    requires Incomplete(At(start, run, i).requests, k, p) && Incomplete(At(start, run, i).requests, l, p)
    ensures k == l
  {
    hide Take;
    AlwaysOk(start, run, i);
  }

  lemma CompletionStep(t: Table, step: Step, t': Table, k: Key)
    requires Take(t, step, t') && k in t.requests
    ensures k in t'.requests && t'.requests[k].paymentId == t.requests[k].paymentId
    ensures t.requests[k].completedAt.Some? ==> t'.requests[k].completedAt.Some?
    ensures t'.requests[k].createdAt == t.requests[k].createdAt
  {
  }

  /** A completed request stays completed, whatever the updates leave out. */
  lemma {:induction false} CompletionForever(start: Table, run: seq<Event>, i: nat, j: nat, k: Key)
    requires IsRun(start, run) && i <= j <= |run|
    requires k in At(start, run, i).requests && At(start, run, i).requests[k].completedAt.Some?
    ensures k in At(start, run, j).requests && At(start, run, j).requests[k].completedAt.Some?
    decreases j - i
  {
    hide Take, TableOk;
    if i < j {
      CompletionStep(At(start, run, i), run[i].step, run[i].after, k);
      CompletionForever(start, run, i + 1, j, k);
    }
  }

  lemma {:induction false} StaysOf(start: Table, run: seq<Event>, i: nat, j: nat, k: Key)
    requires IsRun(start, run) && i <= j <= |run| && k in At(start, run, i).requests
    ensures k in At(start, run, j).requests && At(start, run, j).requests[k].paymentId == At(start, run, i).requests[k].paymentId
    decreases j - i
  {
    hide Take, TableOk;
    if i < j {
      CompletionStep(At(start, run, i), run[i].step, run[i].after, k);
      StaysOf(start, run, i + 1, j, k);
    }
  }

  /** Getting or inserting gives the same key again until that request is completed, whatever happens between. */
  lemma SameKeyUntilCompletion(start: Table, run: seq<Event>, i: nat, j: nat, p: string, k: Key, l: Key)
    requires IsRun(start, run) && i < j < |run|
    requires run[i].step == GetOrInsert(p, k) && run[j].step == GetOrInsert(p, l)
    requires k in At(start, run, j).requests && At(start, run, j).requests[k].completedAt.None?
    ensures l == k && run[j].after == At(start, run, j)
  {
    hide Take, TableOk;
    Returned(At(start, run, i), p, k, run[i].after);
    StaysOf(start, run, i + 1, j, k);
    AlwaysOk(start, run, j);
    OneIncompleteIn(At(start, run, j), p, k, l, run[j].after);
  }

  lemma Returned(t: Table, p: string, k: Key, t': Table)
    requires Take(t, GetOrInsert(p, k), t')
    ensures k in t'.requests && t'.requests[k].paymentId == p && t'.requests[k].completedAt.None?
  {
  }

  lemma OneIncompleteIn(t: Table, p: string, k: Key, l: Key, t': Table)
    requires TableOk(t) && Incomplete(t.requests, k, p) && Take(t, GetOrInsert(p, l), t')
    ensures l == k && t' == t
  {
  }

  /** A payment that was paid gets no second request: the index refuses it. */
  lemma NothingAfterSuccess(t: Table, p: string, paid: Key, k: Key, t': Table)
    requires TableOk(t) && paid in t.requests && t.requests[paid].paymentId == p
    requires t.requests[paid].status == Some(COMPLETE) && t.requests[paid].completedAt.Some?
    requires Take(t, GetOrInsert(p, k), t')
    ensures t' == t
  {
    if NoneIncomplete(t.requests, p) {
      IndexRefuses(t.requests, p, paid, k, NewRequest(p, t.now));
      assert false;
    }
  }

  lemma IndexRefuses(requests: map<Key, TransferRequest>, p: string, paid: Key, k: Key, row: TransferRequest)
    requires paid in requests && Live(requests[paid], p) && k !in requests && row.paymentId == p && row.status != Some(FAILED)
    ensures !SchemaOk(requests[k := row])
  {
    var requests' := requests[k := row];
    assert Live(requests'[paid], requests'[k].paymentId);
  }

  // The latest request of a payment.
  ghost predicate IsCurrent(requests: map<Key, TransferRequest>, p: string, k: Key) {
    && k in requests && requests[k].paymentId == p
    && forall l :: l in requests && requests[l].paymentId == p ==> requests[l].createdAt <= requests[k].createdAt
  }

  /** The current request is the incomplete one, whenever there is one. */
  lemma CurrentIsIncomplete(start: Table, run: seq<Event>, i: nat, p: string, current: Key, k: Key)
    requires IsRun(start, run) && i <= |run|
    requires IsCurrent(At(start, run, i).requests, p, current) && Incomplete(At(start, run, i).requests, k, p)
    ensures current == k
  {
    hide Take;
    AlwaysOk(start, run, i);
  }

  // What the check and the index ask of an updated row.
  ghost predicate RowAdmitted(requests: map<Key, TransferRequest>, key: Key, row: TransferRequest) {
    && (row.transferId == "" || row.payoutId == "")
    && (row.status == Some(FAILED) || forall l :: l in requests && l != key ==> !Live(requests[l], row.paymentId))
  }

  lemma SamePayment(r: TransferRequest, u: TransferUpdate)
    ensures Updated(r, u).paymentId == r.paymentId
  {
  }

  /**
   Getting or inserting, field by field: the key of an incomplete request of the payment and no change, or
   where there is none a new row with no more than the payment and the time, if the index admits it.
   */
  lemma GetOrInsertMeans(t: Table, p: string, key: Key, t': Table)
    requires TableOk(t)
    ensures Take(t, GetOrInsert(p, key), t') <==>
              && p in t.payments
              && if exists k :: k in t.requests && t.requests[k].paymentId == p && t.requests[k].completedAt.None? then
                   key in t.requests && t.requests[key].paymentId == p && t.requests[key].completedAt.None? && t' == t
                 else
                   && key !in t.requests
                   && (forall k :: k in t.requests && t.requests[k].paymentId == p ==> t.requests[k].status == Some(FAILED))
                   && t' == Table(t.requests[key := TransferRequest(p, "", "", None, None, "", t.now, None, None, 0)], t.payments, t.now + 1)
  {
    var row := NewRequest(p, t.now);
    if NoneIncomplete(t.requests, p) {
      assert !exists k :: k in t.requests && t.requests[k].paymentId == p && t.requests[k].completedAt.None? by {
        assert forall k :: k in t.requests ==> !Incomplete(t.requests, k, p);
      }
      if key !in t.requests {
        AdmitsNew(t.requests, p, key, row);
      }
    } else {
      var k :| k in t.requests && Incomplete(t.requests, k, p);
      assert t.requests[k].paymentId == p && t.requests[k].completedAt.None?;
    }
    hide SchemaOk, TableOk;
  }

  lemma AdmitsNew(requests: map<Key, TransferRequest>, p: string, key: Key, row: TransferRequest)
    requires SchemaOk(requests) && key !in requests && row.paymentId == p && row.status.None? && row.transferId == row.payoutId == ""
    ensures SchemaOk(requests[key := row]) <==> forall k :: k in requests && requests[k].paymentId == p ==> requests[k].status == Some(FAILED)
  {
    var requests' := requests[key := row];
    if k :| k in requests && requests[k].paymentId == p && requests[k].status != Some(FAILED) {
      IndexRefuses(requests, p, k, key, row);
    }
  }

  /**
   Updating, field by field: what is given is set and what is not stays; at least one thing is given, no
   request is both a transfer and a payout, and no payment gets a second request that has not failed.
   */
  lemma UpdateMeans(t: Table, key: Key, u: TransferUpdate, t': Table)
    requires TableOk(t)
    ensures Take(t, Step.Update(key, u), t') <==>
              && key in t.requests
              && (u.transferId != "" || u.payoutId != "" || u.status.Some? || u.responseBody.Some? || u.sourceWalletId != ""
                  || u.completedAt.Some? || u.lastSyncAttemptAt.Some? || u.syncAttempts != 0)
              && var r := t.requests[key];
              && var row := TransferRequest(
                   r.paymentId, if u.transferId == "" then r.transferId else u.transferId, if u.payoutId == "" then r.payoutId else u.payoutId,
                   if u.status == None then r.status else u.status, if u.responseBody == None then r.responseBody else u.responseBody,
                   if u.sourceWalletId == "" then r.sourceWalletId else u.sourceWalletId, r.createdAt,
                   if u.completedAt == None then r.completedAt else u.completedAt,
                   if u.lastSyncAttemptAt == None then r.lastSyncAttemptAt else u.lastSyncAttemptAt,
                   if u.syncAttempts == 0 then r.syncAttempts else u.syncAttempts);
              && (row.transferId == "" || row.payoutId == "")
              && (row.status == Some(FAILED)
                  || forall l :: l in t.requests && l != key && t.requests[l].paymentId == r.paymentId ==> t.requests[l].status == Some(FAILED))
              && t' == Table(t.requests[key := row], t.payments, t.now)
  {
    if key in t.requests {
      AdmitsRow(t.requests, key, Updated(t.requests[key], u));
    }
    hide SchemaOk, TableOk;
  }

  lemma AdmitsRow(requests: map<Key, TransferRequest>, key: Key, row: TransferRequest)
    requires SchemaOk(requests) && key in requests && row.paymentId == requests[key].paymentId
    ensures SchemaOk(requests[key := row]) <==>
              && (row.transferId == "" || row.payoutId == "")
              && (row.status == Some(FAILED)
                  || forall l :: l in requests && l != key && requests[l].paymentId == row.paymentId ==> requests[l].status == Some(FAILED))
  {
    var requests' := requests[key := row];
    if l :| l in requests && l != key && requests[l].paymentId == row.paymentId && requests[l].status != Some(FAILED) {
      if row.status != Some(FAILED) {
        assert Live(requests'[l], requests'[key].paymentId);
      }
    }
    assert requests'[key] == row;
  }

  // ----------------------------------------------------------------------------------- methods

  class CircleTransferRequestModel {
    var requests: map<Key, TransferRequest>
    var payments: set<string>
    var now: nat

    function Contents(): Table
      reads this
    {
      Table(requests, payments, now)
    }

    constructor (payments: set<string>)
      ensures Contents() == Table(map[], payments, 0)
    {
      requests, this.payments, now := map[], payments, 0;
    }

    // The row that ORDER BY created_at DESC puts first.
    method Latest(keys: set<Key>) returns (k: Key)
      requires keys != {} && keys <= requests.Keys
      ensures k in keys && forall l :: l in keys ==> requests[l].createdAt <= requests[k].createdAt
    {
      k :| k in keys;
      var rest := keys - {k};
      while rest != {}
        invariant rest <= keys && k in keys
        invariant forall l :: l in keys && l !in rest ==> requests[l].createdAt <= requests[k].createdAt
        decreases |rest|
      {
        var l :| l in rest;
        if requests[l].createdAt > requests[k].createdAt {
          k := l;
        }
        rest := rest - {l};
      }
    }

    method GetIncompleteByPaymentID(paymentId: string) returns (r: Option<Key>)
      ensures r.None? ==> NoneIncomplete(requests, paymentId)
      ensures r.Some? ==>
                && Incomplete(requests, r.value, paymentId)
                && forall l :: Incomplete(requests, l, paymentId) ==> requests[l].createdAt <= requests[r.value].createdAt
    {
      var keys := set k | k in requests && requests[k].paymentId == paymentId && requests[k].completedAt.None?;
      if keys == {} {
        assert forall k :: k in requests ==> k !in keys;
        return None;
      }
      var key := Latest(keys);
      assert forall l :: Incomplete(requests, l, paymentId) ==> l in keys;
      return Some(key);
    }

    // INSERT with a new key; the partial unique index may refuse it.
    method Insert(paymentId: string, newKey: Key) returns (r: Result<Key, TransferError>)
      requires newKey !in requests
      modifies this`requests, this`now
      ensures r.Ok? <==> paymentId != "" && forall k :: k in old(requests) && old(requests)[k].paymentId == paymentId ==> old(requests)[k].status == Some(FAILED)
      ensures r.Ok? ==> r.value == newKey && requests == old(requests)[newKey := NewRequest(paymentId, old(now))] && now == old(now) + 1
      ensures r.Err? ==> requests == old(requests) && now == old(now)
      ensures r.Err? ==> r.error == if paymentId == "" then MissingInput else ConstraintViolated
    {
      if paymentId == "" {
        return Err(MissingInput);
      }
      if exists k :: k in requests && requests[k].paymentId == paymentId && requests[k].status != Some(FAILED) {
        return Err(ConstraintViolated);
      }
      requests := requests[newKey := NewRequest(paymentId, now)];
      now := now + 1;
      return Ok(newKey);
    }

    /** `newKey` is what the database would generate. */
    method GetOrInsert(paymentId: string, newKey: Key) returns (r: Result<Key, TransferError>)
      requires newKey !in requests && TableOk(Contents())
      modifies this`requests, this`now
      ensures r.Ok? ==> Take(old(Contents()), Step.GetOrInsert(paymentId, r.value), Contents())
      ensures r.Ok? <==>
                && paymentId != "" && paymentId in payments
                && (!NoneIncomplete(old(requests), paymentId)
                    || forall k :: k in old(requests) && old(requests)[k].paymentId == paymentId ==> old(requests)[k].status == Some(FAILED))
      ensures r.Err? ==> Contents() == old(Contents())
      ensures r.Err? ==>
                r.error == if paymentId == "" then MissingInput else if paymentId !in payments then PaymentNotFound else ConstraintViolated
    {
      if paymentId == "" {
        return Err(MissingInput);
      }
      if paymentId !in payments {
        return Err(PaymentNotFound);
      }
      var incomplete := GetIncompleteByPaymentID(paymentId);
      if incomplete.Some? {
        return Ok(incomplete.value);
      }
      r := Insert(paymentId, newKey);
    }

    method UpdateRequest(key: Key, u: TransferUpdate) returns (r: Result<TransferRequest, TransferError>)
      requires TableOk(Contents())
      modifies this`requests
      ensures r.Ok? ==> Take(old(Contents()), Step.Update(key, u), Contents()) && r.value == requests[key]
      ensures r.Ok? <==>
                && key != "" && !SetsNothing(u) && key in old(requests)
                && RowAdmitted(old(requests), key, Updated(old(requests)[key], u))
      ensures r.Err? ==> requests == old(requests)
      ensures r.Err? ==>
                r.error == if key == "" then MissingInput else if SetsNothing(u) then NoFields
                           else if key !in old(requests) then NotFound else ConstraintViolated
    {
      hide TableOk, Kept, Columns, ValuesOf, Join, FieldsOf, Holes, Bind;
      if key == "" {
        return Err(MissingInput);
      }
      var setClause, params := BuildSetClause(Some(FieldsOf(u)));
      FieldsKept(u);
      EmptyIffNothingKept(Kept(FieldsOf(u)));
      if setClause == "" {
        return Err(NoFields);
      }
      hide SetsNothing, Updated, Assigned;
      if key in requests {
        AssignedIsUpdated(requests[key], u);
      }
      r := SetRow(key, Kept(FieldsOf(u)), u);
    }

    // The UPDATE statement and the constraints that may refuse it.
    method SetRow(key: Key, assignments: seq<Assignment>, ghost u: TransferUpdate) returns (r: Result<TransferRequest, TransferError>)
      requires TableOk(Contents())
      requires key in requests ==> Assigned(requests[key], assignments) == Updated(requests[key], u)
      modifies this`requests
      ensures r.Ok? <==> key in old(requests) && RowAdmitted(old(requests), key, Updated(old(requests)[key], u))
      ensures r.Ok? ==>
                && r.value == Updated(old(requests)[key], u) && requests == old(requests)[key := r.value]
                && SchemaOk(requests)
      ensures r.Err? ==> requests == old(requests) && r.error == if key !in old(requests) then NotFound else ConstraintViolated
    {
      hide Updated, Assigned;
      if key !in requests {
        return Err(NotFound);
      }
      var row := Assigned(requests[key], assignments);
      SamePayment(requests[key], u);
      if row.transferId != "" && row.payoutId != "" {
        return Err(ConstraintViolated);
      }
      if row.status != Some(FAILED) && exists l :: l in requests && l != key && Live(requests[l], row.paymentId) {
        return Err(ConstraintViolated);
      }
      requests := requests[key := row];
      return Ok(row);
    }

    // DISTINCT ON (payment_id) ... ORDER BY payment_id, created_at DESC, then the loop that fills the map.
    method GetCurrentTransfersForPaymentIDs(paymentIds: seq<string>) returns (r: Result<map<string, Key>, TransferError>)
      ensures r.Ok? <==> paymentIds != []
      ensures r.Ok? ==> forall p :: p in r.value ==> p in paymentIds && IsCurrent(requests, p, r.value[p])
      ensures r.Ok? ==> forall k :: k in requests && requests[k].paymentId in paymentIds ==> requests[k].paymentId in r.value
    {
      if |paymentIds| == 0 {
        return Err(MissingInput);
      }
      var current: map<string, Key> := map[];
      for i := 0 to |paymentIds|
        invariant forall p :: p in current ==> p in paymentIds && IsCurrent(requests, p, current[p])
        invariant forall k :: k in requests && requests[k].paymentId in paymentIds[..i] ==> requests[k].paymentId in current
      {
        var p := paymentIds[i];
        var keys := set k | k in requests && requests[k].paymentId == p;
        if keys != {} {
          var key := Latest(keys);
          assert forall l :: l in requests && requests[l].paymentId == p ==> l in keys;
          current := current[p := key];
        } else {
          assert forall k :: k in requests ==> k !in keys;
        }
      }
      return Ok(current);
    }
  }
}

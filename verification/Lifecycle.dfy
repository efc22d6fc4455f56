/**
 The life of disbursements, payments and receiver wallets: every committed operation as a step on
 the tables, what all of them keep, and what follows for whole runs.
 */
module Lifecycle {
  import opened Wrappers
  import opened Tables
  import opened Uploads
  import PS = PaymentStatuses
  import DS = DisbursementStatuses
  import WS = ReceiverWalletStatuses

  datatype Config = Config(approvalRequired: bool, lib: Libraries)

  // ---------------------------------------------------------------------------------- steps

  datatype Step =
    | CreateDisbursement(userId: string, id: Id, row: Disbursement)
    | UploadInstructions(upload: Upload)
    | Approve(userId: string, d: Id)
    | Reject(userId: string, d: Id)
    | Start(userId: string, d: Id)
    | Submit(userId: string, d: Id)
    | Pause(userId: string, d: Id)
    | DeleteDisbursement(d: Id)
      // UpdateStatuses, Update, UpdateStatus and the cancellation job
    | SetStatuses(ids: set<Id>, status: PS.PaymentStatus, transactionId: Option<string>)
    | Retry(ids: set<Id>)
    | CompleteDisbursements(ids: set<Id>)
    | CompleteIfNecessary
    | CreateDirectPayment(id: Id, terms: Terms)
    | Unregister(w: Id)
    | RegisterReceiver(w: Id, address: string, memo: string, memoType: string)

  // Whether `userId` put a DRAFT or READY entry into a history.
  predicate IsCreator(h: seq<Entry>, userId: string) {
    exists k :: 0 <= k < |h| && h[k].userId == userId && (h[k].status.DRAFT? || h[k].status.READY?)
  }

  function RejectionTarget(s: DS.DisbursementStatus): Option<DS.DisbursementStatus> {
    match s
    case READY => Some(DS.DRAFT)
    case APPROVED => Some(DS.READY)
    case _ => None
  }

  // Starting, submitting and resuming are the same three updates.
  function Launched(t: Tables, userId: string, d: Id): Tables
    requires d in t.disbursements
  {
    MoveDisbursement(MoveWallets(MovePayments(t, d, PS.READY), d, WS.DRAFT, WS.READY), userId, d, DS.STARTED)
  }

  function Paused(t: Tables, userId: string, d: Id): Tables
    requires d in t.disbursements
  {
    MoveDisbursement(MovePayments(t, d, PS.PAUSED), userId, d, DS.PAUSED)
  }

  // StartDisbursement's checks that depend on the tables.
  predicate CanStart(cfg: Config, t: Tables, userId: string, d: Id) {
    && CanMoveDisbursement(t, d, DS.STARTED)
    && (cfg.approvalRequired ==>
          t.disbursements[d].status.APPROVED? && !IsCreator(t.disbursements[d].history, userId))
  }

  predicate CanSubmit(t: Tables, d: Id) {
    d in t.disbursements && t.disbursements[d].status.APPROVED?
  }

  predicate CanApprove(cfg: Config, t: Tables, userId: string, d: Id) {
    && CanMoveDisbursement(t, d, DS.APPROVED)
    && (cfg.approvalRequired ==> !IsCreator(t.disbursements[d].history, userId))
  }

  predicate CanDelete(t: Tables, d: Id) {
    && d in t.disbursements && DS.NotStarted(t.disbursements[d].status)
    && forall i :: i in WithoutDrafts(t.payments, d) ==> !OfDisbursement(t.payments[i], d)
  }

  // What the trigger on the receiver wallets checks of a row about to get an address.
  ghost predicate AddressFree(ws: map<Id, ReceiverWallet>, receiverId: Id, address: string) {
    forall w :: w in ws && ws[w].stellarAddress == address != "" ==> ws[w].receiverId == receiverId
  }

  ghost predicate Take(cfg: Config, t: Tables, step: Step, t': Tables) {
    match step
    case CreateDisbursement(u, id, row) =>
      && id !in t.disbursements
      && row.status == DS.DRAFT && row.history == [Entry(u, DS.DRAFT)]
      && t' == t.(disbursements := t.disbursements[id := row])
    case UploadInstructions(u) => Uploaded(cfg.lib, t, u, t')
    case Approve(u, d) => CanApprove(cfg, t, u, d) && t' == MoveDisbursement(t, u, d, DS.APPROVED)
    case Reject(u, d) =>
      && d in t.disbursements && RejectionTarget(t.disbursements[d].status).Some?
      && t' == MoveDisbursement(t, u, d, RejectionTarget(t.disbursements[d].status).value)
    case Start(u, d) => CanStart(cfg, t, u, d) && t' == Launched(t, u, d)
    case Submit(u, d) => CanSubmit(t, d) && t' == Launched(t, u, d)
    case Pause(u, d) => CanMoveDisbursement(t, d, DS.PAUSED) && t' == Paused(t, u, d)
    case DeleteDisbursement(d) =>
      CanDelete(t, d) && t' == t.(payments := WithoutDrafts(t.payments, d), disbursements := t.disbursements - {d})
    case SetStatuses(ids, s, transactionId) =>
      && (s.PENDING? || s.FAILED? || s.SUCCESS? || s.CANCELED?)
      && (forall i :: i in ids && i in t.payments ==> PS.Allows(t.payments[i].status, s))
      && t' == t.(payments := EnterWith(t.payments, ids, s, transactionId))
    case Retry(ids) => t' == RetryPayments(t, ids)
    case CompleteDisbursements(ids) => t' == Complete(t, Succeeded(t, ids))
    case CompleteIfNecessary => t' == Complete(t, Finished(t))
    case CreateDirectPayment(id, terms) =>
      && id !in t.payments && terms.disbursementId.None?
      && t' == t.(payments := t.payments[id := Payment(terms, PS.READY, [PS.READY], "")])
    case Unregister(w) =>
      && w in t.receiverWallets && t.receiverWallets[w].status.REGISTERED? && !HasPaymentsInProgress(t, w)
      && t' == t.(receiverWallets := t.receiverWallets[w := Unregistered(t.receiverWallets[w])])
    case RegisterReceiver(w, address, memo, memoType) =>
      && w in t.receiverWallets && WS.Allows(t.receiverWallets[w].status, WS.REGISTERED)
      && AddressFree(t.receiverWallets, t.receiverWallets[w].receiverId, address)
      && t' == t.(receiverWallets := t.receiverWallets[w :=
                    t.receiverWallets[w].(status := WS.REGISTERED, history := [WS.REGISTERED] + t.receiverWallets[w].history,
                      stellarAddress := if address != "" then address else t.receiverWallets[w].stellarAddress,
                      stellarMemo := memo, stellarMemoType := memoType)])
  }

  // ---------------------------------------------------------------------- the global invariant

  ghost predicate LegalPaymentHistory(h: seq<PS.PaymentStatus>) {
    && h != [] && (h[0].DRAFT? || h[0].READY?)
    && forall k :: 0 < k < |h| ==> PS.Legal(h[k - 1], h[k])
  }

  ghost predicate LegalDisbursementHistory(h: seq<Entry>) {
    && h != [] && h[0].status.DRAFT?
    && forall k :: 0 < k < |h| ==> DS.Allows(h[k - 1].status, h[k].status)
  }

  // How the statuses of a payment and its disbursement may combine.
  predicate StatusesAgree(p: PS.PaymentStatus, d: DS.DisbursementStatus) {
    && (p.DRAFT? <==> DS.NotStarted(d))
    && (d.STARTED? ==> !p.PAUSED?)
    && (d.COMPLETED? ==> PS.Completed(p))
  }

  predicate StatusFits(t: Tables, p: Payment) {
    match p.terms.disbursementId
    case None => !p.status.DRAFT? && !p.status.PAUSED?
    case Some(d) => d in t.disbursements && StatusesAgree(p.status, t.disbursements[d].status)
  }

  ghost predicate PaymentOk(t: Tables, p: Payment) {
    && LegalPaymentHistory(p.history)
    && p.history[|p.history| - 1] == p.status
    && StatusFits(t, p)
  }

  ghost predicate DisbursementOk(d: Disbursement) {
    LegalDisbursementHistory(d.history) && d.history[|d.history| - 1].status == d.status
  }

  ghost predicate Consistent(t: Tables) {
    && (forall i :: i in t.payments ==> PaymentOk(t, t.payments[i]))
    && (forall d :: d in t.disbursements ==> DisbursementOk(t.disbursements[d]))
  }

  lemma EnterKeepsHistory(p: Payment, s: PS.PaymentStatus)
    requires LegalPaymentHistory(p.history) && p.history[|p.history| - 1] == p.status && PS.Legal(p.status, s)
    ensures LegalPaymentHistory(Enter(p, s).history)
  {
  }

  /** Every committed operation keeps the tables consistent. */
  lemma ConsistentStep(cfg: Config, t: Tables, step: Step, t': Tables)
    requires Consistent(t) && Take(cfg, t, step, t')
    ensures Consistent(t')
  {
    forall d | d in t'.disbursements
      ensures DisbursementOk(t'.disbursements[d])
    {
      DisbursementStep(cfg, t, step, t', d);
    }
    forall i | i in t'.payments
      ensures PaymentOk(t', t'.payments[i])
    {
      PaymentStep(cfg, t, step, t', i);
    }
  }

  // A disbursement row in a step keeps what its payments are made of, and its history only grows,
  // by at most one entry.
  ghost predicate DisbursementMoves(d: Disbursement, d': Disbursement) {
    && d'.walletId == d.walletId && d'.assetId == d.assetId
    && ((d'.status == d.status && d'.history == d.history)
        || (DS.Allows(d.status, d'.status) && exists u :: d'.history == d.history + [Entry(u, d'.status)]))
  }

  lemma DisbursementOrigin(cfg: Config, t: Tables, step: Step, t': Tables, d: Id)
    requires Take(cfg, t, step, t') && d in t'.disbursements
    ensures if d in t.disbursements then DisbursementMoves(t.disbursements[d], t'.disbursements[d])
            else step.CreateDisbursement? && t'.disbursements[d].status.DRAFT? && t'.disbursements[d].history == [Entry(step.userId, DS.DRAFT)]
  {
    hide Launched, Paused, Uploaded, WithoutDrafts, EnterAll, EnterWith;
    match step
    case UploadInstructions(u) =>
      UploadDisbursement(cfg.lib, t, u, t');
      assert d == u.disbursementId ==> t'.disbursements[d].history == t.disbursements[d].history + [Entry(u.userId, DS.READY)];
    case CreateDisbursement(u, id, row) =>
    case Approve(u, d0) => assert d == d0 ==> t'.disbursements[d].history == t.disbursements[d].history + [Entry(u, DS.APPROVED)];
    case Reject(u, d0) => assert d == d0 ==> t'.disbursements[d].history == t.disbursements[d].history + [Entry(u, t'.disbursements[d].status)];
    case Start(u, d0) =>
      LaunchedDisbursements(t, u, d0);
      assert d == d0 ==> t'.disbursements[d].history == t.disbursements[d].history + [Entry(u, DS.STARTED)];
    case Submit(u, d0) =>
      LaunchedDisbursements(t, u, d0);
      assert d == d0 ==> t'.disbursements[d].history == t.disbursements[d].history + [Entry(u, DS.STARTED)];
    case Pause(u, d0) =>
      PausedDisbursements(t, u, d0);
      assert d == d0 ==> t'.disbursements[d].history == t.disbursements[d].history + [Entry(u, DS.PAUSED)];
    case DeleteDisbursement(d0) =>
    case SetStatuses(ids, s, transactionId) =>
    case Retry(ids) =>
    case CompleteDisbursements(ids) => CompletedDisbursements(t, Succeeded(t, ids), d);
    case CompleteIfNecessary => CompletedDisbursements(t, Finished(t), d);
    case CreateDirectPayment(id, terms) =>
    case Unregister(w) =>
    case RegisterReceiver(w, address, memo, memoType) =>
  }

  lemma LaunchedDisbursements(t: Tables, u: string, d: Id)
    requires d in t.disbursements
    ensures Launched(t, u, d).disbursements == t.disbursements[d := EnterDisbursement(t.disbursements[d], u, DS.STARTED)]
  {
  }

  lemma PausedDisbursements(t: Tables, u: string, d: Id)
    requires d in t.disbursements
    ensures Paused(t, u, d).disbursements == t.disbursements[d := EnterDisbursement(t.disbursements[d], u, DS.PAUSED)]
  {
  }

  lemma CompletedDisbursements(t: Tables, ids: set<Id>, d: Id)
    requires forall x :: x in ids ==> x in t.disbursements && t.disbursements[x].status.STARTED?
    requires d in t.disbursements
    ensures Complete(t, ids).disbursements.Keys == t.disbursements.Keys
    ensures DisbursementMoves(t.disbursements[d], Complete(t, ids).disbursements[d])
  {
    assert d in ids ==> Complete(t, ids).disbursements[d].history == t.disbursements[d].history + [Entry("", DS.COMPLETED)];
  }

  lemma UploadDisbursement(lib: Libraries, t: Tables, u: Upload, t': Tables)
    requires Uploaded(lib, t, u, t')
    ensures CanMoveDisbursement(t, u.disbursementId, DS.READY)
    ensures t'.disbursements ==
            t.disbursements[u.disbursementId := EnterDisbursement(t.disbursements[u.disbursementId], u.userId, DS.READY)
                                                  .(fileName := u.fileName, fileContent := u.fileContent)]
  {
    hide ReceiversReconciled, WalletsReady, VerificationsReady, PaymentsReplaced;
    var pl :| UploadedAs(lib, t, u, pl, t');
  }

  lemma DisbursementStep(cfg: Config, t: Tables, step: Step, t': Tables, d: Id)
    requires Consistent(t) && Take(cfg, t, step, t') && d in t'.disbursements
    ensures DisbursementOk(t'.disbursements[d])
  {
    hide Take, PaymentOk;
    DisbursementOrigin(cfg, t, step, t', d);
  }

  // A payment row in a step: kept as it is, moved along a legal transition, or inserted.
  ghost predicate PaymentMoves(p: Payment, p': Payment) {
    && p'.terms == p.terms
    && (p' == p || (PS.Legal(p.status, p'.status) && p'.history == p.history + [p'.status]))
  }

  ghost predicate PaymentInserted(p: Payment) {
    p.history == [p.status] && (if p.terms.disbursementId.None? then p.status.READY? else p.status.DRAFT?)
  }

  lemma LaunchedPayment(t: Tables, u: string, d: Id, i: Id)
    requires CanMoveDisbursement(t, d, DS.STARTED) && i in Launched(t, u, d).payments
    ensures i in t.payments && PaymentMoves(t.payments[i], Launched(t, u, d).payments[i])
    ensures StatusFits(t, t.payments[i]) ==> StatusFits(Launched(t, u, d), Launched(t, u, d).payments[i])
  {
  }

  lemma PausedPayment(t: Tables, u: string, d: Id, i: Id)
    requires CanMoveDisbursement(t, d, DS.PAUSED) && i in Paused(t, u, d).payments
    ensures i in t.payments && PaymentMoves(t.payments[i], Paused(t, u, d).payments[i])
    ensures StatusFits(t, t.payments[i]) ==> StatusFits(Paused(t, u, d), Paused(t, u, d).payments[i])
  {
  }

  lemma EnteredPayment(t: Tables, ids: set<Id>, s: PS.PaymentStatus, transactionId: Option<string>, i: Id)
    requires i in EnterWith(t.payments, ids, s, transactionId)
    requires i in t.payments && i in ids ==>
               || (PS.Allows(t.payments[i].status, s) && !s.READY? && !s.PAUSED?)
               || (t.payments[i].status.FAILED? && s.READY?)
    ensures i in t.payments && PaymentMoves(t.payments[i], EnterWith(t.payments, ids, s, transactionId)[i])
    ensures StatusFits(t, t.payments[i]) ==>
              StatusFits(t.(payments := EnterWith(t.payments, ids, s, transactionId)), EnterWith(t.payments, ids, s, transactionId)[i])
  {
  }

  lemma CompletedPayment(t: Tables, ids: set<Id>, i: Id)
    requires forall d :: d in ids ==> d in t.disbursements && t.disbursements[d].status.STARTED?
    requires i in t.payments
    requires forall d :: d in ids && OfDisbursement(t.payments[i], d) ==> PS.Completed(t.payments[i].status)
    ensures StatusFits(t, t.payments[i]) ==> StatusFits(Complete(t, ids), t.payments[i])
  {
  }

  lemma PaymentOrigin(cfg: Config, t: Tables, step: Step, t': Tables, i: Id)
    requires Take(cfg, t, step, t') && i in t'.payments
    ensures if i in t.payments then PaymentMoves(t.payments[i], t'.payments[i]) else PaymentInserted(t'.payments[i])
  {
    hide Uploaded, Launched, Paused, MoveWallets, EnterWith, Succeeded, Finished, Unregistered;
    match step
    case UploadInstructions(u) => UploadOrigin(cfg.lib, t, u, t', i);
    case CreateDisbursement(u, id, row) =>
    case Approve(u, d) =>
    case Reject(u, d) =>
    case Start(u, d) => LaunchedPayment(t, u, d, i);
    case Submit(u, d) => LaunchedPayment(t, u, d, i);
    case Pause(u, d) => PausedPayment(t, u, d, i);
    case DeleteDisbursement(d) =>
    case SetStatuses(ids, s, transactionId) => EnteredPayment(t, ids, s, transactionId, i);
    case Retry(ids) => EnteredPayment(t, Retryable(t.payments, ids), PS.READY, Some(""), i);
    case CompleteDisbursements(ids) =>
    case CompleteIfNecessary =>
    case CreateDirectPayment(id, terms) =>
    case Unregister(w) =>
    case RegisterReceiver(w, address, memo, memoType) =>
  }

  // A payment after an upload is an earlier one that was no draft of the disbursement, or a new draft of it.
  lemma UploadOrigin(lib: Libraries, t: Tables, u: Upload, t': Tables, i: Id)
    requires Uploaded(lib, t, u, t') && i in t'.payments
    ensures var p' := t'.payments[i];
            if i in t.payments then p' == t.payments[i] && !(OfDisbursement(p', u.disbursementId) && p'.status.DRAFT?)
            else PaymentInserted(p') && OfDisbursement(p', u.disbursementId)
  {
    var pl :| UploadedAs(lib, t, u, pl, t');
    UploadPayments(lib, t, u, pl, t');
    hide UploadedAs, PaymentsReplaced;
    ReplacedPayment(t.payments, t'.payments, t.disbursements[u.disbursementId], u.disbursementId, u.instructions, pl, i);
  }

  lemma ReplacedPayment(before: map<Id, Payment>, after: map<Id, Payment>, d: Disbursement, disbursementId: Id,
                        instructions: seq<Instruction>, pl: Placement, i: Id)
    requires |pl.receivers| == |pl.wallets| == |instructions|
    requires PaymentsReplaced(before, after, d, disbursementId, instructions, pl) && i in after
    ensures var p' := after[i];
            if i in before then p' == before[i] && !(OfDisbursement(p', disbursementId) && p'.status.DRAFT?)
            else PaymentInserted(p') && OfDisbursement(p', disbursementId)
  {
    if i in pl.payments {
      var k :| 0 <= k < |pl.payments| && pl.payments[k] == i;
    }
  }

  lemma UploadPayments(lib: Libraries, t: Tables, u: Upload, pl: Placement, t': Tables)
    requires UploadedAs(lib, t, u, pl, t')
    ensures |pl.receivers| == |pl.wallets| == |u.instructions|
    ensures PaymentsReplaced(t.payments, t'.payments, t.disbursements[u.disbursementId], u.disbursementId, u.instructions, pl)
  {
    hide VerificationsReady, PaymentsReplaced;
  }

  lemma PaymentStep(cfg: Config, t: Tables, step: Step, t': Tables, i: Id)
    requires Consistent(t) && Take(cfg, t, step, t') && i in t'.payments
    ensures PaymentOk(t', t'.payments[i])
  {
    hide Take, StatusFits;
    PaymentOrigin(cfg, t, step, t', i);
    if i in t.payments && t'.payments[i] != t.payments[i] {
      EnterKeepsHistory(t.payments[i], t'.payments[i].status);
    }
    AgreementStep(cfg, t, step, t', i);
  }

  lemma AgreementStep(cfg: Config, t: Tables, step: Step, t': Tables, i: Id)
    requires Take(cfg, t, step, t') && i in t'.payments
    requires i in t.payments ==> StatusFits(t, t.payments[i])
    ensures StatusFits(t', t'.payments[i])
  {
    hide Uploaded, Launched, Paused, MoveWallets, EnterWith;
    match step
    case UploadInstructions(u) => UploadAgreement(cfg.lib, t, u, t', i);
    case CreateDisbursement(u, id, row) =>
    case Approve(u, d) =>
    case Reject(u, d) =>
    case Start(u, d) => LaunchedPayment(t, u, d, i);
    case Submit(u, d) => LaunchedPayment(t, u, d, i);
    case Pause(u, d) => PausedPayment(t, u, d, i);
    case DeleteDisbursement(d) =>
    case SetStatuses(ids, s, transactionId) => EnteredPayment(t, ids, s, transactionId, i);
    case Retry(ids) => EnteredPayment(t, Retryable(t.payments, ids), PS.READY, Some(""), i);
    case CompleteDisbursements(ids) =>
      assert i in t.payments;
      CompletedPayment(t, Succeeded(t, ids), i);
    case CompleteIfNecessary =>
      assert i in t.payments;
      CompletedPayment(t, Finished(t), i);
    case CreateDirectPayment(id, terms) =>
    case Unregister(w) =>
    case RegisterReceiver(w, address, memo, memoType) =>
  }

  lemma UploadAgreement(lib: Libraries, t: Tables, u: Upload, t': Tables, i: Id)
    requires Uploaded(lib, t, u, t') && i in t'.payments
    requires i in t.payments ==> StatusFits(t, t.payments[i])
    ensures StatusFits(t', t'.payments[i])
  {
    UploadOrigin(lib, t, u, t', i);
    UploadDisbursement(lib, t, u, t');
    hide Uploaded;
  }
}

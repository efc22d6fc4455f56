/** The rows of the disbursement tables, and the SQL updates on them as functions on values. */
module Tables {
  import opened Wrappers
  import PS = PaymentStatuses
  import DS = DisbursementStatuses
  import WS = ReceiverWalletStatuses

  // A generated identifier.
  type Id = nat

  // The terms of a payment are fixed when it is inserted; a payment without a disbursement is a
  // direct one, as the check constraint on its type says.
  datatype Terms = Terms(
    amount: int, assetId: Id, receiverId: Id, receiverWalletId: Id, disbursementId: Option<Id>, externalPaymentId: string)

  datatype Payment = Payment(
    terms: Terms, status: PS.PaymentStatus, history: seq<PS.PaymentStatus>, stellarTransactionId: string)

  datatype ContactType = EMAIL | PHONE_NUMBER

  datatype Entry = Entry(userId: string, status: DS.DisbursementStatus)

  datatype Disbursement = Disbursement(
    walletId: Id, assetId: Id, verificationField: string, contactType: ContactType, includesWalletAddress: bool,
    status: DS.DisbursementStatus, history: seq<Entry>, fileName: string, fileContent: string)

  // Empty strings stand for NULL columns, as the column lists coalesce them.
  datatype Receiver = Receiver(
    phone: string, email: string, externalId: string, recipientName: string, currencyType: string)

  datatype ReceiverWallet = ReceiverWallet(
    receiverId: Id, walletId: Id, stellarAddress: string, stellarMemo: string, stellarMemoType: string,
    status: WS.ReceiverWalletStatus, history: seq<WS.ReceiverWalletStatus>, invitationSent: bool)

  datatype Verification = Verification(hashedValue: string, confirmed: bool)

  datatype Tables = Tables(
    disbursements: map<Id, Disbursement>,
    payments: map<Id, Payment>,
    receivers: map<Id, Receiver>,
    receiverWallets: map<Id, ReceiverWallet>,
    // By receiver and verification field, the primary key.
    verifications: map<(Id, string), Verification>)

  // ------------------------------------------------------------------------------ payments

  // SET status = s, status_history = array_append(status_history, s)
  function Enter(p: Payment, s: PS.PaymentStatus): Payment {
    p.(status := s, history := p.history + [s])
  }

  function EnterAll(ps: map<Id, Payment>, ids: set<Id>, s: PS.PaymentStatus): map<Id, Payment> {
    map i | i in ps :: if i in ids then Enter(ps[i], s) else ps[i]
  }

  // The same, and stellar_transaction_id = transactionId where one is given.
  function EnterWith(ps: map<Id, Payment>, ids: set<Id>, s: PS.PaymentStatus, transactionId: Option<string>): map<Id, Payment> {
    map i | i in ps ::
      if i !in ids then ps[i]
      else if transactionId.None? then Enter(ps[i], s)
      else Enter(ps[i], s).(stellarTransactionId := transactionId.value)
  }

  predicate OfDisbursement(p: Payment, d: Id) {
    p.terms.disbursementId == Some(d)
  }

  // The payments of a disbursement that may move to a status.
  function Movable(ps: map<Id, Payment>, d: Id, s: PS.PaymentStatus): set<Id> {
    set i | i in ps && OfDisbursement(ps[i], d) && PS.Allows(ps[i].status, s)
  }

  // PaymentModel.UpdateStatusByDisbursementID
  function MovePayments(t: Tables, d: Id, s: PS.PaymentStatus): Tables {
    t.(payments := EnterAll(t.payments, Movable(t.payments, d, s), s))
  }

  // The payments that a retry of `ids` affects.
  function Retryable(ps: map<Id, Payment>, ids: set<Id>): set<Id> {
    set i | i in ids && i in ps && ps[i].status.FAILED?
  }

  // PaymentModel.RetryFailedPayments
  function RetryPayments(t: Tables, ids: set<Id>): Tables {
    t.(payments := EnterWith(t.payments, Retryable(t.payments, ids), PS.READY, Some("")))
  }

  // PaymentModel.DeleteAllDraftForDisbursement
  function WithoutDrafts(ps: map<Id, Payment>, d: Id): map<Id, Payment> {
    map i | i in ps && !(OfDisbursement(ps[i], d) && ps[i].status.DRAFT?) :: ps[i]
  }

  // -------------------------------------------------------------------------- disbursements

  function EnterDisbursement(d: Disbursement, userId: string, s: DS.DisbursementStatus): Disbursement {
    d.(status := s, history := d.history + [Entry(userId, s)])
  }

  predicate CanMoveDisbursement(t: Tables, d: Id, s: DS.DisbursementStatus) {
    d in t.disbursements && DS.Allows(t.disbursements[d].status, s)
  }

  // DisbursementModel.UpdateStatus, where it affects its row.
  function MoveDisbursement(t: Tables, userId: string, d: Id, s: DS.DisbursementStatus): Tables
    requires d in t.disbursements
  {
    t.(disbursements := t.disbursements[d := EnterDisbursement(t.disbursements[d], userId, s)])
  }

  function Complete(t: Tables, ids: set<Id>): Tables {
    t.(disbursements := map d | d in t.disbursements ::
         if d in ids then EnterDisbursement(t.disbursements[d], "", DS.COMPLETED) else t.disbursements[d])
  }

  // The disbursements CompleteDisbursements(ids) completes: started, with no payment but SUCCESS ones.
  function Succeeded(t: Tables, ids: set<Id>): set<Id> {
    set d | d in ids && d in t.disbursements && t.disbursements[d].status.STARTED?
            && forall i :: i in t.payments && OfDisbursement(t.payments[i], d) ==> t.payments[i].status.SUCCESS?
  }

  // The disbursements CompleteIfNecessary completes: started, with every payment in a final status.
  function Finished(t: Tables): set<Id> {
    set d | d in t.disbursements && t.disbursements[d].status.STARTED?
            && forall i :: i in t.payments && OfDisbursement(t.payments[i], d) ==> PS.Completed(t.payments[i].status)
  }

  // ------------------------------------------------------------------------ receiver wallets

  function EnterWallet(w: ReceiverWallet, s: WS.ReceiverWalletStatus): ReceiverWallet {
    w.(status := s, history := w.history + [s])
  }

  // Whether the disbursement has a payment to the row.
  predicate PaidBy(ps: map<Id, Payment>, d: Id, w: Id) {
    exists i :: i in ps && OfDisbursement(ps[i], d) && ps[i].terms.receiverWalletId == w
  }

  // ReceiverWalletModel.UpdateStatusByDisbursementID, for an allowed transition.
  function MoveWallets(t: Tables, d: Id, from: WS.ReceiverWalletStatus, to: WS.ReceiverWalletStatus): Tables {
    t.(receiverWallets := map w | w in t.receiverWallets ::
         if t.receiverWallets[w].status == from && PaidBy(t.payments, d, w) then EnterWallet(t.receiverWallets[w], to) else t.receiverWallets[w])
  }

  predicate HasPaymentsInProgress(t: Tables, w: Id) {
    exists i :: i in t.payments && t.payments[i].terms.receiverWalletId == w && PS.InProgress(t.payments[i].status)
  }

  // The UPDATE of ReceiverWalletModel.UpdateStatusToReady
  function Unregistered(w: ReceiverWallet): ReceiverWallet {
    EnterWallet(w, WS.READY).(stellarAddress := "", stellarMemo := "", stellarMemoType := "", invitationSent := false)
  }
}

/** Disbursement instructions, and what a successful upload of them does to the tables. */
module Uploads {
  import opened Wrappers
  import opened Sequences
  import opened GoStrings
  import opened Tables
  import PS = PaymentStatuses
  import DS = DisbursementStatuses
  import WS = ReceiverWalletStatuses

  // The amount is in stroops; a text that is no amount counts as a non-positive one.
  datatype Instruction = Instruction(
    phone: string, email: string, externalId: string, amount: int, verificationValue: string, externalPaymentId: string,
    walletAddress: string, walletAddressMemo: string, recipientName: string, currencyType: string)

  datatype ContactError = BothProvided | NeitherProvided

  function Contact(i: Instruction): Result<string, ContactError> {
    if i.phone != "" && i.email != "" then Err(BothProvided)
    else if i.phone != "" then Ok(i.phone)
    else if i.email != "" then Ok(i.email)
    else Err(NeitherProvided)
  }

  function ContactByType(r: Receiver, contactType: ContactType): string {
    match contactType
    case EMAIL => r.email
    case PHONE_NUMBER => r.phone
  }

  predicate Owns(r: Receiver, contact: string) {
    contact == r.phone || contact == r.email
  }

  // An email has an at sign and a phone number has none, so no text is both.
  predicate WellKinded(phone: string, email: string) {
    '@' !in phone && (email == "" || '@' in email)
  }

  // The unique indexes on receivers, which ignore case.
  ghost predicate UniqueContacts(rs: map<Id, Receiver>) {
    forall q, r :: q in rs && r in rs && q != r ==>
      && (rs[q].phone != "" ==> Lower(rs[q].phone) != Lower(rs[r].phone))
      && (rs[q].email != "" ==> Lower(rs[q].email) != Lower(rs[r].email))
  }

  ghost predicate ReceiversOk(rs: map<Id, Receiver>) {
    UniqueContacts(rs) && forall r :: r in rs ==> WellKinded(rs[r].phone, rs[r].email)
  }

  // The unique index on (receiver_id, wallet_id).
  ghost predicate WalletsUnique(ws: map<Id, ReceiverWallet>) {
    forall v, w :: v in ws && w in ws && ws[v].receiverId == ws[w].receiverId && ws[v].walletId == ws[w].walletId ==> v == w
  }

  // The libraries the pipeline calls.  A hash depends on its salt; whether a value can be hashed does not.
  datatype Libraries = Libraries(
    hashable: string -> bool,
    hash: (string, nat) -> string,
    compare: (string, string) -> bool,
    parseMemo: string -> Option<string>,
    validAddress: string -> bool,
    contractAddress: string -> bool)

  ghost predicate Sound(lib: Libraries) {
    forall v: string, salt: nat :: lib.hashable(v) ==> lib.compare(lib.hash(v, salt), v)
  }

  datatype Upload = Upload(
    userId: string, instructions: seq<Instruction>, disbursementId: Id, fileName: string, fileContent: string,
    maxInstructions: nat)

  const MAX_AMOUNT: int := 0x7FFF_FFFF_FFFF_FFFF

  // utils.ValidateAmount
  predicate ValidAmount(amount: int) {
    0 < amount <= MAX_AMOUNT
  }

  // Where a successful upload put each instruction: its receiver, wallet row and payment.
  datatype Placement = Placement(receivers: seq<Id>, wallets: seq<Id>, payments: seq<Id>)

  // ------------------------------------------------------------------------------- receivers

  function NewReceiver(i: Instruction): Receiver {
    Receiver(i.phone, i.email, i.externalId, i.recipientName, i.currencyType)
  }

  // Instruction k went to receiver rs[k], the only one with its contact; the receivers that
  // did not exist were created from their instructions and nothing else changed.
  ghost predicate ReceiversReconciled(before: map<Id, Receiver>, after: map<Id, Receiver>, instructions: seq<Instruction>, rs: seq<Id>) {
    && |rs| == |instructions| && Distinct(rs)
    && (forall k :: 0 <= k < |rs| ==>
          && Contact(instructions[k]).Ok?
          && rs[k] in after && Owns(after[rs[k]], Contact(instructions[k]).value)
          && (rs[k] in before || after[rs[k]] == NewReceiver(instructions[k])))
    && (forall r :: r in before ==> r in after && after[r] == before[r])
    && (forall r :: r in after ==> r in before || r in rs)
    && (forall k, r :: 0 <= k < |rs| && r in after && Owns(after[r], Contact(instructions[k]).value) ==> r == rs[k])
  }

  // -------------------------------------------------------------------------------- wallets

  function NewWallet(receiverId: Id, walletId: Id): ReceiverWallet {
    ReceiverWallet(receiverId, walletId, "", "", "", WS.DRAFT, [WS.DRAFT], false)
  }

  // RetryInvitationMessage on an existing row
  function Reinvited(w: ReceiverWallet): ReceiverWallet {
    if w.status.READY? then w.(invitationSent := false) else w
  }

  predicate SkipsRegistration(w: ReceiverWallet) {
    w.status.REGISTERED? || w.status.FLAGGED?
  }

  // The row update that registers the supplied address; its history entry goes first.
  function Registered(lib: Libraries, w: ReceiverWallet, i: Instruction): ReceiverWallet {
    var addressed := w.(
      status := WS.REGISTERED,
      history := [WS.REGISTERED] + w.history,
      stellarAddress := if i.walletAddress != "" then i.walletAddress else w.stellarAddress);
    match lib.parseMemo(i.walletAddressMemo)
    case Some(memoType) =>
      if i.walletAddressMemo == "" then addressed
      else addressed.(stellarMemo := i.walletAddressMemo, stellarMemoType := memoType)
    case None => addressed
  }

  // The wallet row of a receiver once the upload is through with it.
  function SettledWallet(lib: Libraries, d: Disbursement, w: ReceiverWallet, i: Instruction): ReceiverWallet {
    if d.includesWalletAddress && !SkipsRegistration(w) then Registered(lib, w, i) else w
  }

  // Row w is the row of the receiver for the disbursement's wallet: an existing one, invited again,
  // or a new one; then registered if the instructions carry addresses.
  ghost predicate ReadyAt(lib: Libraries, before: map<Id, ReceiverWallet>, after: map<Id, ReceiverWallet>, d: Disbursement,
                          i: Instruction, receiverId: Id, w: Id)
  {
    && w in after
    && (w in before || forall v :: v in before ==> before[v].receiverId != receiverId || before[v].walletId != d.walletId)
    && var row := if w in before then Reinvited(before[w]) else NewWallet(receiverId, d.walletId);
    && row.receiverId == receiverId && row.walletId == d.walletId
    && after[w] == SettledWallet(lib, d, row, i)
    && (d.includesWalletAddress ==> row.stellarAddress == "" || row.stellarAddress == i.walletAddress)
  }

  // Row ws[k] is the ready row of receiver rs[k], and no other row changed.
  ghost predicate WalletsReady(lib: Libraries, before: map<Id, ReceiverWallet>, after: map<Id, ReceiverWallet>, d: Disbursement,
                               instructions: seq<Instruction>, rs: seq<Id>, ws: seq<Id>)
    requires |rs| == |instructions|
  {
    && |ws| == |rs|
    && (forall k :: 0 <= k < |ws| ==> ReadyAt(lib, before, after, d, instructions[k], rs[k], ws[k]))
    && (forall w :: w in before ==> w in after && (w in ws || after[w] == before[w]))
    && (forall w :: w in after ==> w in before || w in ws)
  }

  // The trigger on the table: an address belongs to one receiver only.
  ghost predicate AddressesUnique(ws: map<Id, ReceiverWallet>) {
    forall v, w :: v in ws && w in ws && ws[v].stellarAddress == ws[w].stellarAddress != "" ==> ws[v].receiverId == ws[w].receiverId
  }

  // --------------------------------------------------------------------------- verifications

  // The verification accepts the value; a row that already did, or that the receiver confirmed, is
  // untouched, and a new one is unconfirmed.
  predicate VerifiedAt(lib: Libraries, before: map<(Id, string), Verification>, after: map<(Id, string), Verification>,
                       key: (Id, string), value: string)
  {
    && key in after && lib.compare(after[key].hashedValue, value)
    && (key in before ==> after[key].confirmed == before[key].confirmed)
    && (key !in before ==> !after[key].confirmed)
    && (key in before && (before[key].confirmed || lib.compare(before[key].hashedValue, value)) ==> after[key] == before[key])
  }

  // Each receiver's verification accepts its instruction's value, and no other row changed.
  ghost predicate ReceiversVerified(lib: Libraries, before: map<(Id, string), Verification>, after: map<(Id, string), Verification>,
                                    field: string, instructions: seq<Instruction>, rs: seq<Id>)
    requires |rs| == |instructions|
  {
    && (forall k :: 0 <= k < |rs| ==> VerifiedAt(lib, before, after, (rs[k], field), instructions[k].verificationValue))
    && (forall key :: key in before ==> key in after && (after[key] == before[key] || (key.0 in rs && key.1 == field)))
    && (forall key :: key in after ==> key in before || (key.0 in rs && key.1 == field))
  }

  ghost predicate VerificationsReady(lib: Libraries, before: map<(Id, string), Verification>, after: map<(Id, string), Verification>,
                                     d: Disbursement, instructions: seq<Instruction>, rs: seq<Id>)
    requires |rs| == |instructions|
  {
    if d.includesWalletAddress || d.verificationField == "" then
      after == before
    else
      ReceiversVerified(lib, before, after, d.verificationField, instructions, rs)
  }

  // -------------------------------------------------------------------------------- payments

  function NewPayment(d: Disbursement, disbursementId: Id, i: Instruction, receiverId: Id, walletRow: Id): Payment {
    Payment(
      Terms(i.amount, d.assetId, receiverId, walletRow, Some(disbursementId), i.externalPaymentId),
      PS.DRAFT, [PS.DRAFT], "")
  }

  // The earlier drafts are gone, payment ids[k] is the one of instruction k, the rest is as before.
  ghost predicate PaymentsReplaced(before: map<Id, Payment>, after: map<Id, Payment>, d: Disbursement, disbursementId: Id,
                                   instructions: seq<Instruction>, pl: Placement)
    requires |pl.receivers| == |pl.wallets| == |instructions|
  {
    var kept := WithoutDrafts(before, disbursementId);
    && |pl.payments| == |instructions| && Distinct(pl.payments)
    && (forall k :: 0 <= k < |instructions| ==>
          && pl.payments[k] !in before && pl.payments[k] in after && ValidAmount(instructions[k].amount)
          && after[pl.payments[k]] == NewPayment(d, disbursementId, instructions[k], pl.receivers[k], pl.wallets[k]))
    && (forall i :: i in kept ==> i in after && after[i] == kept[i])
    && (forall i :: i in after ==> i in kept || i in pl.payments)
  }

  // ---------------------------------------------------------------------------- the whole upload

  // Everything but the disbursement itself is written.
  ghost predicate WrittenAs(lib: Libraries, t: Tables, u: Upload, pl: Placement, t': Tables)
    requires u.disbursementId in t.disbursements
  {
    var d := t.disbursements[u.disbursementId];
    && ReceiversReconciled(t.receivers, t'.receivers, u.instructions, pl.receivers)
    && WalletsReady(lib, t.receiverWallets, t'.receiverWallets, d, u.instructions, pl.receivers, pl.wallets)
    && (AddressesUnique(t.receiverWallets) ==> AddressesUnique(t'.receiverWallets))
    && VerificationsReady(lib, t.verifications, t'.verifications, d, u.instructions, pl.receivers)
    && PaymentsReplaced(t.payments, t'.payments, d, u.disbursementId, u.instructions, pl)
  }

  ghost predicate UploadedAs(lib: Libraries, t: Tables, u: Upload, pl: Placement, t': Tables) {
    && u.disbursementId in t.disbursements
    && CanMoveDisbursement(t, u.disbursementId, DS.READY)
    && |u.instructions| <= u.maxInstructions
    && var d := t.disbursements[u.disbursementId];
    && t'.disbursements ==
       t.disbursements[u.disbursementId := EnterDisbursement(d, u.userId, DS.READY).(fileName := u.fileName, fileContent := u.fileContent)]
    && WrittenAs(lib, t, u, pl, t')
  }

  ghost predicate Uploaded(lib: Libraries, t: Tables, u: Upload, t': Tables) {
    exists pl :: UploadedAs(lib, t, u, pl, t')
  }
}

/**
 The tables as mutable state, and the model methods that write them.  Each method is one SQL
 statement with the Go around it; the statement is an update of a whole map.
 */
module Stores {
  import opened Wrappers
  import opened Sequences
  import opened GoStrings
  import opened Tables
  import opened Uploads
  import PS = PaymentStatuses
  import DS = DisbursementStatuses
  import WS = ReceiverWalletStatuses

  datatype StoreError =
    | MissingInput | InvalidUpdate | CannotMove | NotUpdated | MismatchNumRowsAffected | RecordNotFound | HasPayments
    | DuplicateEmail | DuplicatePhoneNumber | InsertingRow | DuplicateWalletAddress | MemosNotSupported
    | WalletNotRegistered | UserManagedWallet | PaymentsInProgress

  class Store {
    const lib: Libraries
    var disbursements: map<Id, Disbursement>
    var payments: map<Id, Payment>
    var receivers: map<Id, Receiver>
    var receiverWallets: map<Id, ReceiverWallet>
    var verifications: map<(Id, string), Verification>

    function Snapshot(): Tables
      reads this
    {
      Tables(disbursements, payments, receivers, receiverWallets, verifications)
    }

    constructor (lib: Libraries, t: Tables)
      ensures Snapshot() == t && this.lib == lib
    {
      this.lib := lib;
      disbursements, payments, receivers := t.disbursements, t.payments, t.receivers;
      receiverWallets, verifications := t.receiverWallets, t.verifications;
    }

    method Restore(t: Tables)
      modifies this
      ensures Snapshot() == t
    {
      disbursements, payments, receivers := t.disbursements, t.payments, t.receivers;
      receiverWallets, verifications := t.receiverWallets, t.verifications;
    }

    // An identifier no row of the given keys has.  Callers know only that.
    method FreshId(keys: set<Id>) returns (id: Id)
      ensures id !in keys
    {
      id := 0;
      var rest := keys;
      while rest != {}
        invariant rest <= keys
        invariant forall k :: k in keys && k !in rest ==> k < id
        decreases |rest|
      {
        var k :| k in rest;
        if k >= id {
          id := k + 1;
        }
        rest := rest - {k};
      }
    }

    // ---------------------------------------------------------------------------- payments.go

    // Only the snapshots' statuses are checked; that each is its row's is up to the caller.
    method UpdateStatuses(snapshots: seq<(Id, PS.PaymentStatus)>, toStatus: PS.PaymentStatus) returns (r: Result<nat, StoreError>)
      modifies this`payments
      ensures r.Ok? <==> forall p :: p in snapshots ==> PS.Allows(p.1, toStatus)
      ensures var ids := set p | p in snapshots :: p.0;
              && payments == (if r.Ok? then EnterAll(old(payments), ids, toStatus) else old(payments))
              && (r.Ok? ==> r.value == |ids * old(payments).Keys|)
    {
      ghost var all := set p | p in snapshots :: p.0;
      if |snapshots| == 0 {
        assert payments == EnterAll(payments, all, toStatus);
        assert all * payments.Keys == {};
        return Ok(0);
      }
      for i := 0 to |snapshots|
        invariant forall k :: 0 <= k < i ==> PS.Allows(snapshots[k].1, toStatus)
        invariant payments == old(payments)
      {
        var checked := PS.TransitionTo(snapshots[i].1, toStatus);
        if checked.Failed? {
          assert snapshots[i] in snapshots;
          return Err(CannotMove);
        }
      }
      var paymentIds := {};
      for i := 0 to |snapshots|
        invariant paymentIds == set p | p in snapshots[..i] :: p.0
        invariant payments == old(payments)
      {
        assert snapshots[..i + 1] == snapshots[..i] + [snapshots[i]];
        paymentIds := paymentIds + {snapshots[i].0};
      }
      assert snapshots[..|snapshots|] == snapshots;
      var affected := paymentIds * payments.Keys;
      payments := map i | i in payments :: if i in paymentIds then Enter(payments[i], toStatus) else payments[i];
      return Ok(|affected|);
    }

    // PaymentModel.Update: `status` is the snapshot's.
    method UpdatePayment(id: Id, status: PS.PaymentStatus, toStatus: PS.PaymentStatus, transactionId: string)
      returns (o: Outcome<StoreError>)
      modifies this`payments
      ensures o == if IsBlank(transactionId) then Failed(InvalidUpdate)
                   else if !PS.Allows(status, toStatus) then Failed(CannotMove)
                   else if id !in old(payments) then Failed(NotUpdated) else Done
      ensures payments == if o.Done? then EnterWith(old(payments), {id}, toStatus, Some(transactionId)) else old(payments)
    {
      if IsBlank(transactionId) {
        return Failed(InvalidUpdate);
      }
      var checked := PS.TransitionTo(status, toStatus);
      if checked.Failed? {
        return Failed(CannotMove);
      }
      if id !in payments {
        return Failed(NotUpdated);
      }
      payments := payments[id := Enter(payments[id], toStatus).(stellarTransactionId := transactionId)];
      assert payments == EnterWith(old(payments), {id}, toStatus, Some(transactionId));
      return Done;
    }

    // PaymentModel.UpdateStatus has no guard: it sets any status on any payment.
    method UpdateStatus(id: Id, status: PS.PaymentStatus, transactionId: string) returns (o: Outcome<StoreError>)
      modifies this`payments
      ensures o.Done? <==> id in old(payments)
      ensures payments == EnterWith(old(payments), {id}, status, if transactionId == "" then None else Some(transactionId))
    {
      ghost var before := payments;
      if id !in payments {
        assert payments == EnterWith(before, {id}, status, if transactionId == "" then None else Some(transactionId));
        return Failed(RecordNotFound);
      }
      var row := Enter(payments[id], status);
      if transactionId != "" {
        row := row.(stellarTransactionId := transactionId);
      }
      payments := payments[id := row];
      assert payments == EnterWith(before, {id}, status, if transactionId == "" then None else Some(transactionId));
      return Done;
    }

    method UpdatePaymentsByDisbursementID(d: Id, target: PS.PaymentStatus)
      modifies this`payments
      ensures Snapshot() == MovePayments(old(Snapshot()), d, target)
    {
      hide Enter, PS.Allows;
      var sources := PS.SourceStatusesOf(target);
      payments := map i | i in payments ::
        if payments[i].terms.disbursementId == Some(d) && payments[i].status in sources then Enter(payments[i], target)
        else payments[i];
    }

    method RetryFailedPayments(email: string, ids: seq<Id>) returns (o: Outcome<StoreError>)
      modifies this`payments
      ensures ids == [] || email == "" ==> o == Failed(MissingInput) && payments == old(payments)
      ensures ids != [] && email != "" ==>
                var affected := Retryable(old(payments), set i | i in ids);
                && Snapshot() == RetryPayments(old(Snapshot()), set i | i in ids)
                && o == if |affected| == |ids| then Done else Failed(MismatchNumRowsAffected)
    {
      if |ids| == 0 || email == "" {
        return Failed(MissingInput);
      }
      var affected := set i | i in ids && i in payments && payments[i].status.FAILED?;
      assert affected == Retryable(payments, set i | i in ids);
      payments := map i | i in payments ::
        if i in affected then Enter(payments[i], PS.READY).(stellarTransactionId := "") else payments[i];
      if |affected| != |ids| {
        return Failed(MismatchNumRowsAffected);
      }
      return Done;
    }

    // `stale` are the payments whose last READY entry is older than the period.
    method CancelPaymentsWithinPeriod(stale: set<Id>)
      modifies this`payments
      ensures payments == EnterAll(old(payments), (set i | i in stale && i in old(payments) && old(payments)[i].status.READY?), PS.CANCELED)
    {
      payments := map i | i in payments ::
        if payments[i].status.READY? && i in stale then Enter(payments[i], PS.CANCELED) else payments[i];
    }

    method DeleteAllDraftForDisbursement(d: Id)
      modifies this`payments
      ensures payments == WithoutDrafts(old(payments), d)
    {
      payments := map i | i in payments && !(payments[i].terms.disbursementId == Some(d) && payments[i].status == PS.DRAFT) :: payments[i];
    }

    method CreateDirectPayment(terms: Terms) returns (r: Result<Id, StoreError>)
      requires terms.disbursementId.None?
      modifies this`payments
      ensures r.Ok? <==> ValidAmount(terms.amount)
      ensures r.Ok? ==> r.value !in old(payments) && payments == old(payments)[r.value := Payment(terms, PS.READY, [PS.READY], "")]
      ensures r.Err? ==> payments == old(payments)
    {
      if !ValidAmount(terms.amount) {
        return Err(InvalidUpdate);
      }
      var id := FreshId(payments.Keys);
      payments := payments[id := Payment(terms, PS.READY, [PS.READY], "")];
      return Ok(id);
    }

    // ------------------------------------------------------------------------ disbursements.go

    method UpdateDisbursementStatus(userId: string, d: Id, target: DS.DisbursementStatus) returns (o: Outcome<StoreError>)
      modifies this`disbursements
      ensures o.Done? <==> old(CanMoveDisbursement(Snapshot(), d, target))
      ensures Snapshot() == if o.Done? then MoveDisbursement(old(Snapshot()), userId, d, target) else old(Snapshot())
    {
      var sources := DS.SourceStatusesOf(target);
      if d in disbursements && disbursements[d].status in sources {
        disbursements := disbursements[d := EnterDisbursement(disbursements[d], userId, target)];
        return Done;
      }
      return Failed(NotUpdated);
    }

    // DisbursementModel.Update: the uploaded file.
    method UpdateDisbursementFile(d: Id, fileName: string, fileContent: string) returns (o: Outcome<StoreError>)
      modifies this`disbursements
      ensures o.Done? <==> d in old(disbursements) && fileName != "" && fileContent != ""
      ensures disbursements ==
              if o.Done? then old(disbursements)[d := old(disbursements)[d].(fileName := fileName, fileContent := fileContent)]
              else old(disbursements)
    {
      if fileName == "" || |fileContent| == 0 {
        return Failed(InvalidUpdate);
      }
      if d !in disbursements {
        return Failed(NotUpdated);
      }
      disbursements := disbursements[d := disbursements[d].(fileName := fileName, fileContent := fileContent)];
      return Done;
    }

    method CompleteDisbursements(ids: set<Id>)
      modifies this`disbursements
      ensures Snapshot() == Complete(old(Snapshot()), Succeeded(old(Snapshot()), ids))
    {
      var incompleted := set i | i in payments && payments[i].status != PS.SUCCESS
                                 && payments[i].terms.disbursementId.Some? && payments[i].terms.disbursementId.value in ids
                                 && payments[i].terms.disbursementId.value in disbursements
                                 && disbursements[payments[i].terms.disbursementId.value].status == DS.STARTED
                         :: payments[i].terms.disbursementId.value;
      ghost var succeeded := Succeeded(Snapshot(), ids);
      forall d | d in disbursements
        ensures d in succeeded <==> d in ids && disbursements[d].status == DS.STARTED && d !in incompleted
      {
        if d in ids && disbursements[d].status == DS.STARTED && d !in succeeded {
          var i :| i in payments && OfDisbursement(payments[i], d) && !payments[i].status.SUCCESS?;
          assert payments[i].terms.disbursementId.value in incompleted;
        }
      }
      disbursements := map d | d in disbursements ::
        if d in ids && disbursements[d].status == DS.STARTED && d !in incompleted
        then EnterDisbursement(disbursements[d], "", DS.COMPLETED) else disbursements[d];
    }

    method CompleteIfNecessary() returns (completed: set<Id>)
      modifies this`disbursements
      ensures completed == old(Finished(Snapshot()))
      ensures Snapshot() == Complete(old(Snapshot()), completed)
    {
      completed := set d | d in disbursements && disbursements[d].status == DS.STARTED
                           && !exists i :: i in payments && payments[i].terms.disbursementId == Some(d)
                                           && !(payments[i].status == PS.SUCCESS || payments[i].status == PS.CANCELED);
      disbursements := map d | d in disbursements ::
        if d in completed then EnterDisbursement(disbursements[d], "", DS.COMPLETED) else disbursements[d];
    }

    // DisbursementModel.Delete; the payments table references the disbursement.
    method DeleteDisbursement(d: Id) returns (o: Outcome<StoreError>)
      modifies this`disbursements
      ensures o.Done? <==>
                && d in old(disbursements) && DS.NotStarted(old(disbursements)[d].status)
                && forall i :: i in payments ==> !OfDisbursement(payments[i], d)
      ensures disbursements == if o.Done? then old(disbursements) - {d} else old(disbursements)
      ensures o.Failed? ==>
                o.error == if d in old(disbursements) && DS.NotStarted(old(disbursements)[d].status) then HasPayments else RecordNotFound
    {
      if d !in disbursements || !(disbursements[d].status in [DS.DRAFT, DS.READY, DS.APPROVED]) {
        return Failed(RecordNotFound);
      }
      if exists i :: i in payments && payments[i].terms.disbursementId == Some(d) {
        return Failed(HasPayments);
      }
      disbursements := disbursements - {d};
      return Done;
    }

    // --------------------------------------------------------------------- receivers_wallet.go

    method UpdateWalletsByDisbursementID(d: Id, from: WS.ReceiverWalletStatus, to: WS.ReceiverWalletStatus)
      returns (o: Outcome<StoreError>)
      modifies this`receiverWallets
      ensures o.Done? <==> WS.Allows(from, to)
      ensures Snapshot() == if o.Done? then MoveWallets(old(Snapshot()), d, from, to) else old(Snapshot())
    {
      hide MoveWallets, EnterWallet, WS.Allows;
      var checked := WS.TransitionTo(from, to);
      if checked.Failed? {
        return Failed(CannotMove);
      }
      var ids := set i | i in payments && payments[i].terms.disbursementId == Some(d) :: payments[i].terms.receiverWalletId;
      var moved := map w | w in receiverWallets ::
        if w in ids && receiverWallets[w].status == from then EnterWallet(receiverWallets[w], to) else receiverWallets[w];
      RowsMoved(Snapshot(), d, from, to, ids, moved);
      receiverWallets := moved;
      return Done;
    }

    // The subquery's set of rows is the condition of MoveWallets.
    static lemma RowsMoved(t: Tables, d: Id, from: WS.ReceiverWalletStatus, to: WS.ReceiverWalletStatus, ids: set<Id>, moved: map<Id, ReceiverWallet>)
      requires ids == set i | i in t.payments && t.payments[i].terms.disbursementId == Some(d) :: t.payments[i].terms.receiverWalletId
      requires moved == map w | w in t.receiverWallets ::
        if w in ids && t.receiverWallets[w].status == from then EnterWallet(t.receiverWallets[w], to) else t.receiverWallets[w]
      ensures MoveWallets(t, d, from, to) == t.(receiverWallets := moved)
    {
      hide EnterWallet;
      assert forall w :: w in ids <==> PaidBy(t.payments, d, w);
      hide PaidBy;
      assert MoveWallets(t, d, from, to).receiverWallets == moved;
    }

    method UpdateStatusToReady(w: Id, userManaged: bool) returns (o: Outcome<StoreError>)
      modifies this`receiverWallets
      ensures o.Done? <==>
                && w in old(receiverWallets) && old(receiverWallets)[w].status.REGISTERED? && !userManaged
                && !old(HasPaymentsInProgress(Snapshot(), w))
      ensures receiverWallets == if o.Done? then old(receiverWallets)[w := Unregistered(old(receiverWallets)[w])] else old(receiverWallets)
      ensures o == Failed(RecordNotFound) <==> w !in old(receiverWallets)
      ensures o == Failed(WalletNotRegistered) <==> w in old(receiverWallets) && !old(receiverWallets)[w].status.REGISTERED?
      ensures o == Failed(UserManagedWallet) <==> w in old(receiverWallets) && old(receiverWallets)[w].status.REGISTERED? && userManaged
    {
      if w !in receiverWallets {
        return Failed(RecordNotFound);
      }
      if receiverWallets[w].status != WS.REGISTERED {
        return Failed(WalletNotRegistered);
      }
      if userManaged {
        return Failed(UserManagedWallet);
      }
      if HasPaymentsInProgress(Snapshot(), w) {
        return Failed(PaymentsInProgress);
      }
      receiverWallets := receiverWallets[w := Unregistered(receiverWallets[w])];
      return Done;
    }

    // RetryInvitationMessage; a row that is not READY is ErrRecordNotFound, which the pipeline ignores.
    method RetryInvitationMessage(w: Id) returns (o: Outcome<StoreError>)
      modifies this`receiverWallets
      ensures receiverWallets == if w in old(receiverWallets) then old(receiverWallets)[w := Reinvited(old(receiverWallets)[w])] else old(receiverWallets)
      ensures o == if w in old(receiverWallets) && old(receiverWallets)[w].status.READY? then Done else Failed(RecordNotFound)
    {
      ghost var before := receiverWallets;
      if w in receiverWallets && receiverWallets[w].status == WS.READY {
        receiverWallets := receiverWallets[w := receiverWallets[w].(invitationSent := false)];
        return Done;
      }
      assert w in before ==> before[w := Reinvited(before[w])] == before;
      return Failed(RecordNotFound);
    }

    method InsertReceiverWallet(receiverId: Id, walletId: Id) returns (r: Result<Id, StoreError>)
      modifies this`receiverWallets
      ensures r.Ok? <==> forall w :: w in old(receiverWallets) ==> !(old(receiverWallets)[w].receiverId == receiverId && old(receiverWallets)[w].walletId == walletId)
      ensures r.Ok? ==> r.value !in old(receiverWallets) && receiverWallets == old(receiverWallets)[r.value := NewWallet(receiverId, walletId)]
      ensures r.Err? ==> receiverWallets == old(receiverWallets)
    {
      if exists w :: w in receiverWallets && receiverWallets[w].receiverId == receiverId && receiverWallets[w].walletId == walletId {
        return Err(InsertingRow);
      }
      var id := FreshId(receiverWallets.Keys);
      receiverWallets := receiverWallets[id := NewWallet(receiverId, walletId)];
      return Ok(id);
    }

    // The UPDATE of ReceiverWalletModel.Update as registerSuppliedWallets uses it.
    method RegisterWallet(w: Id, i: Instruction) returns (o: Outcome<StoreError>)
      requires w in receiverWallets
      modifies this`receiverWallets
      ensures o.Done? <==>
                var row := Registered(lib, old(receiverWallets)[w], i);
                && (i.walletAddress == "" || lib.validAddress(i.walletAddress))
                && (i.walletAddressMemo == "" || (lib.parseMemo(i.walletAddressMemo).Some? && !lib.contractAddress(row.stellarAddress)))
                && forall v :: v in old(receiverWallets) && old(receiverWallets)[v].stellarAddress == row.stellarAddress != "" ==>
                     old(receiverWallets)[v].receiverId == row.receiverId
      ensures o.Done? ==> receiverWallets == old(receiverWallets)[w := Registered(lib, old(receiverWallets)[w], i)]
      ensures o.Done? && old(AddressesUnique(receiverWallets)) ==> AddressesUnique(receiverWallets)
      ensures o.Failed? ==> receiverWallets == old(receiverWallets)
      ensures o == Failed(DuplicateWalletAddress) ==>
                var row := Registered(lib, old(receiverWallets)[w], i);
                exists v :: v in old(receiverWallets) && old(receiverWallets)[v].stellarAddress == row.stellarAddress != ""
                            && old(receiverWallets)[v].receiverId != row.receiverId
    {
      if i.walletAddress != "" && !lib.validAddress(i.walletAddress) {
        return Failed(InvalidUpdate);
      }
      if i.walletAddressMemo != "" {
        if lib.parseMemo(i.walletAddressMemo).None? {
          return Failed(InvalidUpdate);
        }
        var address := if i.walletAddress != "" then i.walletAddress else receiverWallets[w].stellarAddress;
        if lib.contractAddress(address) {
          return Failed(MemosNotSupported);
        }
      }
      var row := Registered(lib, receiverWallets[w], i);
      // trigger_validate_stellar_address_per_receiver
      if row.stellarAddress != ""
         && exists v :: v in receiverWallets && receiverWallets[v].stellarAddress == row.stellarAddress
                        && receiverWallets[v].receiverId != row.receiverId {
        return Failed(DuplicateWalletAddress);
      }
      receiverWallets := receiverWallets[w := row];
      return Done;
    }

    // ----------------------------------------------------- receivers.go, receiver_verification.go

    function ByContacts(contacts: seq<string>): map<Id, Receiver>
      reads this`receivers
    {
      map r | r in receivers && (receivers[r].phone in contacts || receivers[r].email in contacts) :: receivers[r]
    }

    method InsertReceiver(i: Instruction) returns (r: Result<Id, StoreError>)
      modifies this`receivers
      ensures r.Ok? ==> r.value !in old(receivers) && receivers == old(receivers)[r.value := NewReceiver(i)]
      ensures r.Ok? <==>
                && i.externalId != "" && (i.phone != "" || i.email != "")
                && forall q :: q in old(receivers) ==>
                     && (i.email != "" ==> Lower(old(receivers)[q].email) != Lower(i.email))
                     && (i.phone != "" ==> Lower(old(receivers)[q].phone) != Lower(i.phone))
      ensures r == Err(DuplicateEmail) <==> i.email != "" && exists q :: q in old(receivers) && Lower(old(receivers)[q].email) == Lower(i.email)
      ensures r == Err(DuplicatePhoneNumber) ==> i.phone != "" && exists q :: q in old(receivers) && Lower(old(receivers)[q].phone) == Lower(i.phone)
      ensures r.Err? ==> receivers == old(receivers)
    {
      if i.email != "" && exists q :: q in receivers && Lower(receivers[q].email) == Lower(i.email) {
        return Err(DuplicateEmail);
      }
      if i.phone != "" && exists q :: q in receivers && Lower(receivers[q].phone) == Lower(i.phone) {
        return Err(DuplicatePhoneNumber);
      }
      // external_id NOT NULL, and the check that there is a contact
      if i.externalId == "" || (i.phone == "" && i.email == "") {
        return Err(InsertingRow);
      }
      var id := FreshId(receivers.Keys);
      receivers := receivers[id := NewReceiver(i)];
      return Ok(id);
    }

    // A hash with any salt.
    method HashVerificationValue(value: string) returns (h: Option<string>)
      requires Sound(lib)
      ensures h.Some? <==> lib.hashable(value)
      ensures h.Some? ==> lib.compare(h.value, value)
    {
      var salt := FreshId({});
      return if lib.hashable(value) then Some(lib.hash(value, salt)) else None;
    }

    method InsertVerification(receiverId: Id, field: string, value: string) returns (o: Outcome<StoreError>)
      requires Sound(lib)
      modifies this`verifications
      ensures o.Done? <==> field != "" && !IsBlank(value) && lib.hashable(value) && (receiverId, field) !in old(verifications)
      ensures o.Done? ==>
                && (receiverId, field) in verifications
                && verifications == old(verifications)[(receiverId, field) := verifications[(receiverId, field)]]
                && !verifications[(receiverId, field)].confirmed
                && lib.compare(verifications[(receiverId, field)].hashedValue, value)
      ensures o.Failed? ==> verifications == old(verifications)
    {
      if field == "" || IsBlank(value) {
        return Failed(InvalidUpdate);
      }
      var hashed := HashVerificationValue(value);
      if hashed.None? || (receiverId, field) in verifications {
        return Failed(InsertingRow);
      }
      verifications := verifications[(receiverId, field) := Verification(hashed.value, false)];
      return Done;
    }

    method UpdateVerificationValue(receiverId: Id, field: string, value: string) returns (o: Outcome<StoreError>)
      requires Sound(lib) && (receiverId, field) in verifications
      modifies this`verifications
      ensures o.Done? <==> lib.hashable(value)
      ensures o.Done? ==>
                && (receiverId, field) in verifications
                && verifications == old(verifications)[(receiverId, field) := verifications[(receiverId, field)]]
                && verifications[(receiverId, field)].confirmed == old(verifications)[(receiverId, field)].confirmed
                && lib.compare(verifications[(receiverId, field)].hashedValue, value)
      ensures o.Failed? ==> verifications == old(verifications)
    {
      var hashed := HashVerificationValue(value);
      if hashed.None? {
        return Failed(InvalidUpdate);
      }
      var key := (receiverId, field);
      verifications := verifications[key := verifications[key].(hashedValue := hashed.value)];
      return Done;
    }

    // PaymentModel.InsertAll: every row is validated before the first is inserted.  `avoid` are
    // identifiers that are never drawn again.
    method InsertAllPayments(inserts: seq<Terms>, avoid: set<Id>) returns (o: Outcome<StoreError>, ids: seq<Id>)
      modifies this`payments
      ensures o.Done? <==> forall k :: 0 <= k < |inserts| ==> ValidAmount(inserts[k].amount)
      ensures o.Failed? ==> payments == old(payments)
      ensures o.Done? ==>
                && |ids| == |inserts| && Distinct(ids)
                && (forall k :: 0 <= k < |ids| ==>
                      && ids[k] !in old(payments) && ids[k] !in avoid && ids[k] in payments
                      && payments[ids[k]] == Payment(inserts[k], PS.DRAFT, [PS.DRAFT], ""))
                && (forall i :: i in old(payments) ==> i in payments && payments[i] == old(payments)[i])
                && (forall i :: i in payments ==> i in old(payments) || i in ids)
    {
      ids := [];
      for k := 0 to |inserts|
        invariant forall j :: 0 <= j < k ==> ValidAmount(inserts[j].amount)
        invariant payments == old(payments)
      {
        if !ValidAmount(inserts[k].amount) {
          return Failed(InvalidUpdate), [];
        }
      }
      for k := 0 to |inserts|
        invariant |ids| == k && Distinct(ids)
        invariant forall j :: 0 <= j < k ==>
                    && ids[j] !in old(payments) && ids[j] !in avoid && ids[j] in payments
                    && payments[ids[j]] == Payment(inserts[j], PS.DRAFT, [PS.DRAFT], "")
        invariant forall i :: i in old(payments) ==> i in payments && payments[i] == old(payments)[i]
        invariant forall i :: i in payments ==> i in old(payments) || i in ids
      {
        var id := FreshId(payments.Keys + avoid);
        payments := payments[id := Payment(inserts[k], PS.DRAFT, [PS.DRAFT], "")];
        ids := ids + [id];
      }
      return Done, ids;
    }
  }
}

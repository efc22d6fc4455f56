/** When the unguarded and half-guarded payment updates stay on allowed transitions. */
module PaymentUpdates {
  import opened Wrappers
  import opened Tables
  import opened Lifecycle
  import CT = CircleTransfers
  import opened Stores
  import PS = PaymentStatuses

  // ---------------------------------------------------------------------- checks on snapshots

  ghost predicate AgreeWithRows(ps: map<Id, Payment>, snapshots: seq<(Id, PS.PaymentStatus)>) {
    forall p :: p in snapshots && p.0 in ps ==> ps[p.0].status == p.1
  }

  /** Checking the snapshots is enough where they agree with the rows, as they do under the rows' locks. */
  lemma CheckedUpdateIsAStep(cfg: Config, t: Tables, snapshots: seq<(Id, PS.PaymentStatus)>, s: PS.PaymentStatus)
    requires s.PENDING? || s.FAILED? || s.SUCCESS? || s.CANCELED?
    requires AgreeWithRows(t.payments, snapshots) && forall p :: p in snapshots ==> PS.Allows(p.1, s)
    ensures var ids := set p | p in snapshots :: p.0;
            Take(cfg, t, SetStatuses(ids, s, None), t.(payments := EnterAll(t.payments, ids, s)))
  {
    var ids := set p | p in snapshots :: p.0;
    forall i | i in ids && i in t.payments
      ensures PS.Allows(t.payments[i].status, s)
    {
      var p :| p in snapshots && p.0 == i;
    }
    assert EnterWith(t.payments, ids, s, None) == EnterAll(t.payments, ids, s);
  }

  // One more entry keeps a history legal exactly if it is a legal move from the last one.
  lemma EntersLegallyIff(p: Payment, s: PS.PaymentStatus)
    requires LegalPaymentHistory(p.history) && p.history[|p.history| - 1] == p.status
    ensures LegalPaymentHistory(Enter(p, s).history) <==> PS.Legal(p.status, s)
  {
    hide PS.Legal;
    var h, h' := p.history, Enter(p, s).history;
    assert h'[|h|] == s && h'[|h| - 1] == p.status;
    assert forall k :: 0 <= k < |h| ==> h'[k] == h[k];
    if LegalPaymentHistory(h') {
      assert PS.Legal(h'[|h| - 1], h'[|h|]);
    }
  }

  /**
   What decides is the rows' own statuses: an update of several payments keeps their histories legal
   if and only if each row, not each snapshot, may move.
   */
  lemma UpdateKeepsHistoriesIff(ps: map<Id, Payment>, ids: set<Id>, s: PS.PaymentStatus)
    requires forall i :: i in ps ==> LegalPaymentHistory(ps[i].history) && ps[i].history[|ps[i].history| - 1] == ps[i].status
    ensures (forall i :: i in ps ==> LegalPaymentHistory(EnterAll(ps, ids, s)[i].history))
            <==> forall i :: i in ids && i in ps ==> PS.Legal(ps[i].status, s)
  {
    hide PS.Legal, LegalPaymentHistory, Enter;
    forall i | i in ps && i in ids
      ensures LegalPaymentHistory(EnterAll(ps, ids, s)[i].history) <==> PS.Legal(ps[i].status, s)
    {
      EntersLegallyIff(ps[i], s);
    }
  }

  /** A stale snapshot passes the check although its payment could not move, and the history breaks. */
  lemma StaleSnapshotExample()
    ensures var p := Payment(Terms(1, 0, 0, 0, None, ""), PS.SUCCESS, [PS.READY, PS.PENDING, PS.SUCCESS], "");
            var snapshots := [(0, PS.READY)];
            && LegalPaymentHistory(p.history)
            && (forall q :: q in snapshots ==> PS.Allows(q.1, PS.PENDING))
            && !LegalPaymentHistory(EnterAll(map[0 := p], {0}, PS.PENDING)[0].history)
  {
    EntersLegallyIff(Payment(Terms(1, 0, 0, 0, None, ""), PS.SUCCESS, [PS.READY, PS.PENDING, PS.SUCCESS], ""), PS.PENDING);
  }

  // --------------------------------------------------------------------------- Circle's answers

  // TransferStatus.ToPaymentStatus
  function ToPaymentStatus(answer: CT.TransferStatus): PS.PaymentStatus {
    match answer
    case PENDING => PS.PENDING
    case COMPLETE => PS.SUCCESS
    case FAILED => PS.FAILED
  }

  // updatePaymentStatusForCircleTransfer and its twin for payouts: whatever Circle answers is passed on.
  method UpdatePaymentStatusForCircle(s: Store, paymentId: Id, answer: CT.TransferStatus, transactionHash: string)
    returns (o: Outcome<StoreError>)
    modifies s`payments
    ensures o.Done? <==> paymentId in old(s.payments)
    ensures s.payments == EnterWith(old(s.payments), {paymentId}, ToPaymentStatus(answer), if transactionHash == "" then None else Some(transactionHash))
    ensures s.payments.Keys == old(s.payments).Keys
    ensures forall i :: i in s.payments && i != paymentId ==> s.payments[i] == old(s.payments)[i]
    ensures paymentId in s.payments ==>
              var p, status := old(s.payments)[paymentId],
                               (match answer case PENDING => PS.PENDING case COMPLETE => PS.SUCCESS case FAILED => PS.FAILED);
              s.payments[paymentId] ==
                Payment(p.terms, status, p.history + [status], if transactionHash == "" then p.stellarTransactionId else transactionHash)
  {
    o := s.UpdateStatus(paymentId, ToPaymentStatus(answer), transactionHash);
  }

  /**
   A payment that is dispatched is READY.  Passing on Circle's answer is a step along allowed transitions
   if and only if the answer is "pending" or "failed": READY to SUCCESS is not in the list.
   */
  lemma DispatchIsAStepIff(cfg: Config, t: Tables, id: Id, answer: CT.TransferStatus, transactionId: Option<string>)
    requires id in t.payments && t.payments[id].status.READY?
    ensures Take(cfg, t, SetStatuses({id}, ToPaymentStatus(answer), transactionId),
                 t.(payments := EnterWith(t.payments, {id}, ToPaymentStatus(answer), transactionId)))
            <==> answer.PENDING? || answer.FAILED?
  {
  }

  /** The same of its history: it stays legal if and only if the answer is "pending" or "failed". */
  lemma DispatchKeepsHistoryIff(p: Payment, answer: CT.TransferStatus)
    requires LegalPaymentHistory(p.history) && p.history[|p.history| - 1] == p.status && p.status.READY?
    ensures LegalPaymentHistory(Enter(p, ToPaymentStatus(answer)).history) <==> answer.PENDING? || answer.FAILED?
  {
    EntersLegallyIff(p, ToPaymentStatus(answer));
  }

  /** A consistent state that an answer of "complete" makes inconsistent. */
  lemma CompleteAnswerExample()
    ensures var p := Payment(Terms(1, 0, 0, 0, None, ""), PS.READY, [PS.READY], "");
            var t := Tables(map[], map[0 := p], map[], map[], map[]);
            && Consistent(t)
            && !Consistent(t.(payments := EnterWith(t.payments, {0}, ToPaymentStatus(CT.COMPLETE), None)))
  {
    var p := Payment(Terms(1, 0, 0, 0, None, ""), PS.READY, [PS.READY], "");
    var t := Tables(map[], map[0 := p], map[], map[], map[]);
    var t' := t.(payments := EnterWith(t.payments, {0}, ToPaymentStatus(CT.COMPLETE), None));
    DispatchKeepsHistoryIff(p, CT.COMPLETE);
    assert t'.payments[0].history == Enter(p, PS.SUCCESS).history;
    assert 0 in t'.payments && !PaymentOk(t', t'.payments[0]);
  }
}

/** What every operation of the lifecycle asks for and does, row by row and field by field. */
module StepMeanings {
  import opened Wrappers
  import opened Tables
  import opened Lifecycle
  import PS = PaymentStatuses
  import DS = DisbursementStatuses
  import WS = ReceiverWalletStatuses

  // The disbursement's row has the status, with the user's entry at the end of its history; no other row changed.
  ghost predicate Entered(t: Tables, u: string, d: Id, s: DS.DisbursementStatus, t': Tables) {
    && d in t.disbursements && d in t'.disbursements && t'.disbursements.Keys == t.disbursements.Keys
    && t'.disbursements[d] == t.disbursements[d].(status := s, history := t.disbursements[d].history + [Entry(u, s)])
    && forall e :: e in t.disbursements && e != d ==> t'.disbursements[e] == t.disbursements[e]
  }

  ghost predicate OnlyDisbursements(t: Tables, t': Tables) {
    t'.payments == t.payments && t'.receivers == t.receivers && t'.receiverWallets == t.receiverWallets && t'.verifications == t.verifications
  }

  ghost predicate OnlyPayments(t: Tables, t': Tables) {
    t'.disbursements == t.disbursements && t'.receivers == t.receivers && t'.receiverWallets == t.receiverWallets && t'.verifications == t.verifications
  }

  ghost predicate OnlyWallets(t: Tables, t': Tables) {
    t'.disbursements == t.disbursements && t'.payments == t.payments && t'.receivers == t.receivers && t'.verifications == t.verifications
  }

  lemma EnteredIs(t: Tables, u: string, d: Id, s: DS.DisbursementStatus, t': Tables)
    requires d in t.disbursements
    ensures t'.disbursements == MoveDisbursement(t, u, d, s).disbursements <==> Entered(t, u, d, s, t')
  {
    var moved := MoveDisbursement(t, u, d, s).disbursements;
    if Entered(t, u, d, s, t') {
      assert t'.disbursements.Keys == moved.Keys;
      assert forall e :: e in moved ==> t'.disbursements[e] == moved[e];
    }
  }

  // ------------------------------------------------------------------------------ disbursements

  /** Creating a disbursement: one more row, DRAFT by its user. */
  lemma CreateDisbursementMeans(cfg: Config, t: Tables, u: string, id: Id, row: Disbursement, t': Tables)
    ensures Take(cfg, t, CreateDisbursement(u, id, row), t') <==>
              && id !in t.disbursements && row.status.DRAFT?
              && |row.history| == 1 && row.history[0].userId == u && row.history[0].status.DRAFT?
              && t'.disbursements == t.disbursements[id := row] && OnlyDisbursements(t, t')
  {
  }

  /** Approving: from READY, with approval required only by somebody without a DRAFT or READY entry. */
  lemma ApproveMeans(cfg: Config, t: Tables, u: string, d: Id, t': Tables)
    ensures Take(cfg, t, Approve(u, d), t') <==>
              && d in t.disbursements && t.disbursements[d].status.READY?
              && (cfg.approvalRequired ==>
                    forall e :: e in t.disbursements[d].history && e.userId == u ==> !e.status.DRAFT? && !e.status.READY?)
              && Entered(t, u, d, DS.APPROVED, t') && OnlyDisbursements(t, t')
  {
    if d in t.disbursements {
      EnteredIs(t, u, d, DS.APPROVED, t');
      CreatorIs(t.disbursements[d].history, u);
    }
    hide Entered, IsCreator;
  }

  lemma CreatorIs(h: seq<Entry>, u: string)
    ensures IsCreator(h, u) <==> exists e :: e in h && e.userId == u && (e.status.DRAFT? || e.status.READY?)
  {
    if e :| e in h && e.userId == u && (e.status.DRAFT? || e.status.READY?) {
      var k :| 0 <= k < |h| && h[k] == e;
      assert h[k].userId == u;
    }
  }

  /** Rejecting: from READY back to DRAFT, from APPROVED back to READY. */
  lemma RejectMeans(cfg: Config, t: Tables, u: string, d: Id, t': Tables)
    ensures Take(cfg, t, Reject(u, d), t') <==>
              && d in t.disbursements && (t.disbursements[d].status.READY? || t.disbursements[d].status.APPROVED?)
              && Entered(t, u, d, if t.disbursements[d].status.READY? then DS.DRAFT else DS.READY, t') && OnlyDisbursements(t, t')
  {
    if d in t.disbursements {
      EnteredIs(t, u, d, if t.disbursements[d].status.READY? then DS.DRAFT else DS.READY, t');
    }
    hide Entered;
  }

  /**
   What a start does: the disbursement's DRAFT and PAUSED payments become READY, the DRAFT rows of
   receiver wallets that it pays to become READY, the disbursement STARTED, and nothing else changes.
   */
  ghost predicate StartedAs(t: Tables, u: string, d: Id, t': Tables) {
    && Entered(t, u, d, DS.STARTED, t')
    && t'.payments.Keys == t.payments.Keys
    && (forall i :: i in t.payments ==>
          var p := t.payments[i];
          t'.payments[i] == if p.terms.disbursementId == Some(d) && (p.status.DRAFT? || p.status.PAUSED?)
                            then p.(status := PS.READY, history := p.history + [PS.READY]) else p)
    && t'.receiverWallets.Keys == t.receiverWallets.Keys
    && (forall w :: w in t.receiverWallets ==>
          var row := t.receiverWallets[w];
          t'.receiverWallets[w] ==
            if row.status.DRAFT? && exists i :: i in t.payments && t.payments[i].terms.disbursementId == Some(d)
                                                && t.payments[i].terms.receiverWalletId == w
            then row.(status := WS.READY, history := row.history + [WS.READY]) else row)
    && t'.receivers == t.receivers && t'.verifications == t.verifications
  }

  lemma LaunchedIs(t: Tables, u: string, d: Id, t': Tables)
    requires d in t.disbursements
    ensures t' == Launched(t, u, d) <==> StartedAs(t, u, d, t')
  {
    var moved := MovePayments(t, d, PS.READY);
    var launched := Launched(t, u, d);
    hide MoveDisbursement;
    EnteredIs(t, u, d, DS.STARTED, t');
    LaunchedRows(t, u, d);
    MovedPayments(t, d, t'.payments);
    MovedWallets(t, d, t'.receiverWallets);
    hide Entered, Launched, MovePayments, MoveWallets;
  }

  lemma LaunchedRows(t: Tables, u: string, d: Id)
    requires d in t.disbursements
    ensures Launched(t, u, d) == Tables(
              MoveDisbursement(t, u, d, DS.STARTED).disbursements, MovePayments(t, d, PS.READY).payments, t.receivers,
              MoveWallets(t, d, WS.DRAFT, WS.READY).receiverWallets, t.verifications)
  {
    SamePayees(t, d);
    hide PaidBy;
    assert MoveWallets(MovePayments(t, d, PS.READY), d, WS.DRAFT, WS.READY).receiverWallets == MoveWallets(t, d, WS.DRAFT, WS.READY).receiverWallets;
  }

  // Moving payments does not change whom they pay.
  lemma SamePayees(t: Tables, d: Id)
    ensures forall w :: PaidBy(MovePayments(t, d, PS.READY).payments, d, w) <==> PaidBy(t.payments, d, w)
  {
    var ps, ps' := t.payments, MovePayments(t, d, PS.READY).payments;
    assert forall i :: i in ps ==> ps'[i].terms == ps[i].terms;
    forall w
      ensures PaidBy(ps', d, w) <==> PaidBy(ps, d, w)
    {
      if i :| i in ps && OfDisbursement(ps[i], d) && ps[i].terms.receiverWalletId == w {
        assert i in ps' && OfDisbursement(ps'[i], d);
      }
    }
  }

  lemma MovedPayments(t: Tables, d: Id, ps': map<Id, Payment>)
    ensures ps' == MovePayments(t, d, PS.READY).payments <==>
              && ps'.Keys == t.payments.Keys
              && forall i :: i in t.payments ==>
                   var p := t.payments[i];
                   ps'[i] == if p.terms.disbursementId == Some(d) && (p.status.DRAFT? || p.status.PAUSED?)
                             then p.(status := PS.READY, history := p.history + [PS.READY]) else p
  {
    var moved := MovePayments(t, d, PS.READY).payments;
    assert forall i :: i in moved ==>
      var p := t.payments[i];
      moved[i] == if p.terms.disbursementId == Some(d) && (p.status.DRAFT? || p.status.PAUSED?)
                  then p.(status := PS.READY, history := p.history + [PS.READY]) else p;
    assert moved.Keys == t.payments.Keys;
  }

  lemma MovedWallets(t: Tables, d: Id, ws': map<Id, ReceiverWallet>)
    ensures ws' == MoveWallets(t, d, WS.DRAFT, WS.READY).receiverWallets <==>
              && ws'.Keys == t.receiverWallets.Keys
              && forall w :: w in t.receiverWallets ==>
                   var row := t.receiverWallets[w];
                   ws'[w] == if row.status.DRAFT? && exists i :: i in t.payments && t.payments[i].terms.disbursementId == Some(d)
                                                             && t.payments[i].terms.receiverWalletId == w
                             then row.(status := WS.READY, history := row.history + [WS.READY]) else row
  {
    var moved := MoveWallets(t, d, WS.DRAFT, WS.READY).receiverWallets;
    forall w | w in moved
      ensures PaidBy(t.payments, d, w) <==>
              exists i :: i in t.payments && t.payments[i].terms.disbursementId == Some(d) && t.payments[i].terms.receiverWalletId == w
    {
    }
    hide PaidBy;
    assert moved.Keys == t.receiverWallets.Keys;
  }

  /** Starting and resuming: from READY, APPROVED or PAUSED; with approval required, from APPROVED and not by a creator. */
  lemma StartMeans(cfg: Config, t: Tables, u: string, d: Id, t': Tables)
    ensures Take(cfg, t, Start(u, d), t') <==>
              && d in t.disbursements
              && (t.disbursements[d].status.READY? || t.disbursements[d].status.APPROVED? || t.disbursements[d].status.PAUSED?)
              && (cfg.approvalRequired ==>
                    && t.disbursements[d].status.APPROVED?
                    && forall e :: e in t.disbursements[d].history && e.userId == u ==> !e.status.DRAFT? && !e.status.READY?)
              && StartedAs(t, u, d, t')
  {
    if d in t.disbursements {
      LaunchedIs(t, u, d, t');
      CreatorIs(t.disbursements[d].history, u);
    }
    hide StartedAs, IsCreator, Launched;
  }

  /** Submitting: from APPROVED, by anybody. */
  lemma SubmitMeans(cfg: Config, t: Tables, u: string, d: Id, t': Tables)
    ensures Take(cfg, t, Submit(u, d), t') <==>
              d in t.disbursements && t.disbursements[d].status.APPROVED? && StartedAs(t, u, d, t')
  {
    if d in t.disbursements {
      LaunchedIs(t, u, d, t');
    }
    hide StartedAs, Launched;
  }

  /** Pausing: from STARTED; its READY payments become PAUSED, and no others. */
  lemma PauseMeans(cfg: Config, t: Tables, u: string, d: Id, t': Tables)
    ensures Take(cfg, t, Pause(u, d), t') <==>
              && d in t.disbursements && t.disbursements[d].status.STARTED?
              && Entered(t, u, d, DS.PAUSED, t')
              && t'.payments.Keys == t.payments.Keys
              && (forall i :: i in t.payments ==>
                    var p := t.payments[i];
                    t'.payments[i] == if p.terms.disbursementId == Some(d) && p.status.READY?
                                      then p.(status := PS.PAUSED, history := p.history + [PS.PAUSED]) else p)
              && t'.receivers == t.receivers && t'.receiverWallets == t.receiverWallets && t'.verifications == t.verifications
  {
    if d in t.disbursements {
      EnteredIs(t, u, d, DS.PAUSED, t');
      PausedPayments(t, d, t'.payments);
      PausedRows(t, u, d);
      hide Entered, MovePayments, MoveDisbursement, Paused;
    }
  }

  lemma PausedPayments(t: Tables, d: Id, ps': map<Id, Payment>)
    ensures ps' == MovePayments(t, d, PS.PAUSED).payments <==>
              && ps'.Keys == t.payments.Keys
              && forall i :: i in t.payments ==>
                   var p := t.payments[i];
                   ps'[i] == if p.terms.disbursementId == Some(d) && p.status.READY?
                             then p.(status := PS.PAUSED, history := p.history + [PS.PAUSED]) else p
  {
    var moved := MovePayments(t, d, PS.PAUSED).payments;
    assert moved.Keys == t.payments.Keys;
    assert forall i :: i in moved ==>
      var p := t.payments[i];
      moved[i] == if p.terms.disbursementId == Some(d) && p.status.READY?
                  then p.(status := PS.PAUSED, history := p.history + [PS.PAUSED]) else p;
  }

  lemma PausedRows(t: Tables, u: string, d: Id)
    requires d in t.disbursements
    ensures Paused(t, u, d) == Tables(
              MoveDisbursement(t, u, d, DS.PAUSED).disbursements, MovePayments(t, d, PS.PAUSED).payments, t.receivers,
              t.receiverWallets, t.verifications)
  {
  }

  /** Deleting: before the start, with no payment but drafts, and exactly the drafts go with it. */
  lemma DeleteMeans(cfg: Config, t: Tables, d: Id, t': Tables)
    ensures Take(cfg, t, DeleteDisbursement(d), t') <==>
              && d in t.disbursements
              && (t.disbursements[d].status.DRAFT? || t.disbursements[d].status.READY? || t.disbursements[d].status.APPROVED?)
              && (forall i :: i in t.payments && t.payments[i].terms.disbursementId == Some(d) ==> t.payments[i].status.DRAFT?)
              && (forall e :: e in t'.disbursements <==> e in t.disbursements && e != d)
              && (forall e :: e in t'.disbursements ==> t'.disbursements[e] == t.disbursements[e])
              && (forall i :: i in t'.payments <==> i in t.payments && t.payments[i].terms.disbursementId != Some(d))
              && (forall i :: i in t'.payments ==> t'.payments[i] == t.payments[i])
              && t'.receivers == t.receivers && t'.receiverWallets == t.receiverWallets && t'.verifications == t.verifications
  {
    WithoutIs(t.disbursements, d, t'.disbursements);
    if forall i :: i in t.payments && t.payments[i].terms.disbursementId == Some(d) ==> t.payments[i].status.DRAFT? {
      UnpaidIs(t.payments, d, t'.payments);
    } else {
      var i :| i in t.payments && t.payments[i].terms.disbursementId == Some(d) && !t.payments[i].status.DRAFT?;
      assert i in WithoutDrafts(t.payments, d) && OfDisbursement(t.payments[i], d);
    }
    hide WithoutDrafts;
  }

  lemma WithoutIs(ds: map<Id, Disbursement>, d: Id, ds': map<Id, Disbursement>)
    ensures ds' == ds - {d} <==>
              && (forall e :: e in ds' <==> e in ds && e != d) && (forall e :: e in ds' ==> ds'[e] == ds[e])
  {
    if (forall e :: e in ds' <==> e in ds && e != d) && (forall e :: e in ds' ==> ds'[e] == ds[e]) {
      assert ds'.Keys == (ds - {d}).Keys;
    }
  }

  lemma UnpaidIs(ps: map<Id, Payment>, d: Id, ps': map<Id, Payment>)
    requires forall i :: i in ps && ps[i].terms.disbursementId == Some(d) ==> ps[i].status.DRAFT?
    ensures ps' == WithoutDrafts(ps, d) <==>
              && (forall i :: i in ps' <==> i in ps && ps[i].terms.disbursementId != Some(d)) && (forall i :: i in ps' ==> ps'[i] == ps[i])
    ensures forall i :: i in WithoutDrafts(ps, d) ==> !OfDisbursement(ps[i], d)
  {
    var kept := WithoutDrafts(ps, d);
    if (forall i :: i in ps' <==> i in ps && ps[i].terms.disbursementId != Some(d)) && (forall i :: i in ps' ==> ps'[i] == ps[i]) {
      assert ps'.Keys == kept.Keys;
    }
  }

  // The started disbursements of `done` are COMPLETED, with an entry of no user.
  ghost predicate CompletedAs(t: Tables, done: set<Id>, t': Tables) {
    && t'.disbursements.Keys == t.disbursements.Keys
    && (forall d :: d in t.disbursements ==>
          var row := t.disbursements[d];
          t'.disbursements[d] == if d in done then row.(status := DS.COMPLETED, history := row.history + [Entry("", DS.COMPLETED)]) else row)
    && OnlyDisbursements(t, t')
  }

  lemma CompleteIs(t: Tables, done: set<Id>, t': Tables)
    ensures t' == Complete(t, done) <==> CompletedAs(t, done, t')
  {
    var completed := Complete(t, done).disbursements;
    assert completed.Keys == t.disbursements.Keys;
  }

  /** CompleteDisbursements: exactly the started ones among `ids` all of whose payments are SUCCESS. */
  lemma CompleteDisbursementsMeans(cfg: Config, t: Tables, ids: set<Id>, done: set<Id>, t': Tables)
    requires forall d :: d in done <==>
               && d in ids && d in t.disbursements && t.disbursements[d].status.STARTED?
               && forall i :: i in t.payments && t.payments[i].terms.disbursementId == Some(d) ==> t.payments[i].status.SUCCESS?
    ensures Take(cfg, t, CompleteDisbursements(ids), t') <==> CompletedAs(t, done, t')
  {
    assert done == Succeeded(t, ids);
    CompleteIs(t, done, t');
    hide CompletedAs, Succeeded, Complete;
  }

  /** CompleteIfNecessary: exactly the started ones all of whose payments are SUCCESS or CANCELED. */
  lemma CompleteIfNecessaryMeans(cfg: Config, t: Tables, done: set<Id>, t': Tables)
    requires forall d :: d in done <==>
               && d in t.disbursements && t.disbursements[d].status.STARTED?
               && forall i :: i in t.payments && t.payments[i].terms.disbursementId == Some(d) ==>
                    t.payments[i].status.SUCCESS? || t.payments[i].status.CANCELED?
    ensures Take(cfg, t, CompleteIfNecessary, t') <==> CompletedAs(t, done, t')
  {
    assert done == Finished(t);
    CompleteIs(t, done, t');
    hide CompletedAs, Finished, Complete;
  }

  // ----------------------------------------------------------------------------------- payments

  // What may become of a payment, as the transition list has it.
  predicate MayBecome(from: PS.PaymentStatus, to: PS.PaymentStatus) {
    || (to.PENDING? && (from.READY? || from.FAILED?))
    || (to.FAILED? && (from.READY? || from.PENDING?))
    || (to.SUCCESS? && from.PENDING?)
    || (to.CANCELED? && from.READY?)
  }

  /** Creating a direct payment: one more row, READY and without a transaction id, belonging to no disbursement. */
  lemma CreateDirectPaymentMeans(cfg: Config, t: Tables, id: Id, terms: Terms, t': Tables)
    ensures Take(cfg, t, CreateDirectPayment(id, terms), t') <==>
              && terms.disbursementId.None? && id !in t.payments && id in t'.payments
              && t'.payments[id].terms == terms && t'.payments[id].status.READY? && t'.payments[id].history == [PS.READY]
              && t'.payments[id].stellarTransactionId == ""
              && t'.payments.Keys == t.payments.Keys + {id} && (forall i :: i in t.payments ==> t'.payments[i] == t.payments[i])
              && OnlyPayments(t, t')
  {
    var p := Payment(terms, PS.READY, [PS.READY], "");
    if t'.payments.Keys == t.payments.Keys + {id} && (forall i :: i in t.payments ==> t'.payments[i] == t.payments[i])
       && id !in t.payments && t'.payments[id] == p
    {
      assert t'.payments == t.payments[id := p];
    }
  }

  /** Setting a status: on rows that may take it, with the transaction id where one is given. */
  lemma SetStatusesMeans(cfg: Config, t: Tables, ids: set<Id>, s: PS.PaymentStatus, transactionId: Option<string>, t': Tables)
    ensures Take(cfg, t, SetStatuses(ids, s, transactionId), t') <==>
              && (s.PENDING? || s.FAILED? || s.SUCCESS? || s.CANCELED?)
              && (forall i :: i in ids && i in t.payments ==> MayBecome(t.payments[i].status, s))
              && t'.payments.Keys == t.payments.Keys
              && (forall i :: i in t.payments ==>
                    var p := t.payments[i];
                    t'.payments[i] == if i in ids then Payment(p.terms, s, p.history + [s], if transactionId.Some? then transactionId.value else p.stellarTransactionId)
                                      else p)
              && OnlyPayments(t, t')
  {
    EnterWithIs(t.payments, ids, s, transactionId, t'.payments);
    hide EnterWith;
    forall i | i in ids && i in t.payments && (s.PENDING? || s.FAILED? || s.SUCCESS? || s.CANCELED?)
      ensures PS.Allows(t.payments[i].status, s) <==> MayBecome(t.payments[i].status, s)
    {
    }
    hide PS.Allows, MayBecome;
  }

  lemma EnterWithIs(ps: map<Id, Payment>, ids: set<Id>, s: PS.PaymentStatus, transactionId: Option<string>, ps': map<Id, Payment>)
    ensures ps' == EnterWith(ps, ids, s, transactionId) <==>
              && ps'.Keys == ps.Keys
              && forall i :: i in ps ==>
                   ps'[i] == if i in ids then Payment(ps[i].terms, s, ps[i].history + [s], if transactionId.Some? then transactionId.value else ps[i].stellarTransactionId)
                             else ps[i]
  {
    var entered := EnterWith(ps, ids, s, transactionId);
    assert entered.Keys == ps.Keys;
    assert forall i :: i in entered ==>
      entered[i] == if i in ids then Payment(ps[i].terms, s, ps[i].history + [s], if transactionId.Some? then transactionId.value else ps[i].stellarTransactionId)
                    else ps[i];
  }

  /** Retrying: the FAILED ones among `ids` are READY again, without a transaction id. */
  lemma RetryMeans(cfg: Config, t: Tables, ids: set<Id>, t': Tables)
    ensures Take(cfg, t, Retry(ids), t') <==>
              && t'.payments.Keys == t.payments.Keys
              && (forall i :: i in t.payments ==>
                    var p := t.payments[i];
                    t'.payments[i] == if i in ids && p.status.FAILED? then Payment(p.terms, PS.READY, p.history + [PS.READY], "") else p)
              && OnlyPayments(t, t')
  {
    var retried := RetryPayments(t, ids).payments;
    assert retried.Keys == t.payments.Keys;
    assert forall i :: i in retried ==>
      var p := t.payments[i];
      retried[i] == if i in ids && p.status.FAILED? then Payment(p.terms, PS.READY, p.history + [PS.READY], "") else p;
  }

  // ----------------------------------------------------------------------------- receiver wallets

  /**
   Unregistering: a REGISTERED row to which no READY, PENDING or PAUSED payment goes; it becomes READY,
   without address and memo, to be invited again.
   */
  lemma UnregisterMeans(cfg: Config, t: Tables, w: Id, t': Tables)
    ensures Take(cfg, t, Unregister(w), t') <==>
              && w in t.receiverWallets && t.receiverWallets[w].status.REGISTERED?
              && (forall i :: i in t.payments && t.payments[i].terms.receiverWalletId == w ==>
                    !t.payments[i].status.READY? && !t.payments[i].status.PENDING? && !t.payments[i].status.PAUSED?)
              && t'.receiverWallets ==
                 t.receiverWallets[w := ReceiverWallet(t.receiverWallets[w].receiverId, t.receiverWallets[w].walletId, "", "", "", WS.READY,
                                                       t.receiverWallets[w].history + [WS.READY], false)]
              && OnlyWallets(t, t')
  {
    if w in t.receiverWallets {
      assert HasPaymentsInProgress(t, w) <==>
             exists i :: i in t.payments && t.payments[i].terms.receiverWalletId == w
                         && (t.payments[i].status.READY? || t.payments[i].status.PENDING? || t.payments[i].status.PAUSED?);
    }
  }

  /** Registering: from READY or FLAGGED, with an address that no other receiver has. */
  lemma RegisterMeans(cfg: Config, t: Tables, w: Id, address: string, memo: string, memoType: string, t': Tables)
    ensures Take(cfg, t, RegisterReceiver(w, address, memo, memoType), t') <==>
              && w in t.receiverWallets && (t.receiverWallets[w].status.READY? || t.receiverWallets[w].status.FLAGGED?)
              && (forall v :: v in t.receiverWallets && t.receiverWallets[v].stellarAddress == address != "" ==>
                    t.receiverWallets[v].receiverId == t.receiverWallets[w].receiverId)
              && t'.receiverWallets ==
                 t.receiverWallets[w := ReceiverWallet(t.receiverWallets[w].receiverId, t.receiverWallets[w].walletId,
                                                       if address != "" then address else t.receiverWallets[w].stellarAddress, memo, memoType,
                                                       WS.REGISTERED, [WS.REGISTERED] + t.receiverWallets[w].history, t.receiverWallets[w].invitationSent)]
              && OnlyWallets(t, t')
  {
  }
}

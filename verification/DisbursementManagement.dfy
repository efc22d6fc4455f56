/**
 The operations on disbursements, each a transaction: it either takes the lifecycle step of its name,
 exactly when that step is allowed, or leaves every table as it was.
 */
module DisbursementManagement {
  import GoStrings
  import opened Wrappers
  import opened Tables
  import opened Uploads
  import opened UploadConditions
  import opened InstructionValidation
  import opened Reconciliation
  import opened Reuploads
  import opened PostMeanings
  import opened Processing
  import opened Lifecycle
  import opened StepMeanings
  import opened Totals
  import opened Funding
  import opened Stores
  import opened Transactions
  import PS = PaymentStatuses
  import DS = DisbursementStatuses
  import WS = ReceiverWalletStatuses

  datatype ServiceError =
    | DisbursementNotFound | WalletDisabled | NotReadyToStart | RequiresApprovalStep | StartedByCreator | InsufficientBalance
    | NotReadyToPause | NotReadyToApprove | ApprovedByCreator | ReasonRequired | NotReadyToReject | NotReadyToSubmit
    | DisbursementStarted | NotDraftOrReady | InvalidColumns | InvalidInstructions | UploadRefused(uploadError: UploadError) | StoreRefused(error: StoreError)

  // --------------------------------------------------------------------------- why a call is refused

  // The user has a DRAFT or READY entry.
  ghost predicate Creator(d: Disbursement, userId: string) {
    exists e :: e in d.history && e.userId == userId && (e.status.DRAFT? || e.status.READY?)
  }

  ghost predicate StartRefused(cfg: Config, t: Tables, userId: string, d: Id, walletEnabled: bool, funded: bool, e: ServiceError) {
    if d !in t.disbursements then e == DisbursementNotFound
    else if !walletEnabled then e == WalletDisabled
    else
      var status := t.disbursements[d].status;
      if status.DRAFT? || status.STARTED? || status.COMPLETED? then e == NotReadyToStart
      else if cfg.approvalRequired && !status.APPROVED? then e == RequiresApprovalStep
      else if cfg.approvalRequired && Creator(t.disbursements[d], userId) then e == StartedByCreator
      else !funded && e == InsufficientBalance
  }

  ghost predicate SubmitRefused(t: Tables, d: Id, walletEnabled: bool, funded: bool, e: ServiceError) {
    if d !in t.disbursements then e == DisbursementNotFound
    else if !walletEnabled then e == WalletDisabled
    else if !t.disbursements[d].status.APPROVED? then e == NotReadyToSubmit
    else !funded && e == InsufficientBalance
  }

  ghost predicate PauseRefused(t: Tables, d: Id, e: ServiceError) {
    if d !in t.disbursements then e == DisbursementNotFound
    else !t.disbursements[d].status.STARTED? && e == NotReadyToPause
  }

  ghost predicate ApproveRefused(cfg: Config, t: Tables, userId: string, d: Id, e: ServiceError) {
    if d !in t.disbursements then e == DisbursementNotFound
    else if !t.disbursements[d].status.READY? then e == NotReadyToApprove
    else cfg.approvalRequired && Creator(t.disbursements[d], userId) && e == ApprovedByCreator
  }

  ghost predicate RejectRefused(t: Tables, d: Id, reason: string, e: ServiceError) {
    if GoStrings.IsBlank(reason) then e == ReasonRequired
    else if d !in t.disbursements then e == DisbursementNotFound
    else !t.disbursements[d].status.READY? && !t.disbursements[d].status.APPROVED? && e == NotReadyToReject
  }

  ghost predicate DeleteRefused(t: Tables, d: Id, e: ServiceError) {
    if d !in t.disbursements then e == StoreRefused(RecordNotFound)
    else
      var status := t.disbursements[d].status;
      if status.STARTED? || status.PAUSED? || status.COMPLETED? then e == DisbursementStarted
      else
        && (exists i :: i in t.payments && t.payments[i].terms.disbursementId == Some(d) && !t.payments[i].status.DRAFT?)
        && e == StoreRefused(HasPayments)
  }

  lemma Sources(s: DS.DisbursementStatus)
    ensures DS.Allows(s, DS.STARTED) <==> s.READY? || s.APPROVED? || s.PAUSED?
    ensures DS.Allows(s, DS.PAUSED) <==> s.STARTED?
    ensures DS.Allows(s, DS.APPROVED) <==> s.READY?
  {
  }

  // The checks of a post before its upload, which has errors of its own.
  ghost predicate PostRefused(lib: Libraries, disbursements: map<Id, Disbursement>, u: Upload, file: File, e: ServiceError) {
    if u.disbursementId !in disbursements then e == DisbursementNotFound
    else
      var d := disbursements[u.disbursementId];
      if !d.status.DRAFT? && !d.status.READY? then e == NotDraftOrReady
      else if !HeadersOk(file.headers, d, file.SkipsVerification(d)) then e == InvalidColumns
      else if !Accepted(lib, file.formats, d, u.instructions) then e == InvalidInstructions
      else e.UploadRefused?
  }

  // ---------------------------------------------------------------------------------- the service

  // The loop over the history.
  method HasCreated(history: seq<Entry>, userId: string) returns (b: bool)
    ensures b <==> IsCreator(history, userId)
  {
    for k := 0 to |history|
      invariant !exists j :: 0 <= j < k && history[j].userId == userId && (history[j].status.DRAFT? || history[j].status.READY?)
    {
      if history[k].userId == userId && (history[k].status == DS.DRAFT || history[k].status == DS.READY) {
        return true;
      }
    }
    return false;
  }

  class DisbursementManagementService {
    const store: Store
    const cfg: Config

    constructor (store: Store, cfg: Config)
      requires cfg.lib == store.lib
      ensures this.store == store && this.cfg == cfg
    {
      this.store, this.cfg := store, cfg;
    }

    // The three updates that starting, resuming and submitting share.
    method Launch(userId: string, d: Id) returns (o: Outcome<ServiceError>)
      requires d in store.disbursements && DS.Allows(store.disbursements[d].status, DS.STARTED)
      modifies store
      ensures o.Done?
      ensures store.Snapshot() == Launched(old(store.Snapshot()), userId, d)
    {
      hide MovePayments, MoveWallets, MoveDisbursement, DS.Allows;
      ghost var t := store.Snapshot();
      store.UpdatePaymentsByDisbursementID(d, PS.READY);
      assert store.Snapshot() == MovePayments(t, d, PS.READY);
      MovesOnlyItsTable(t, d, PS.READY);
      var walletsMoved := store.UpdateWalletsByDisbursementID(d, WS.DRAFT, WS.READY);
      WalletsMoveOnly(MovePayments(t, d, PS.READY), d);
      var moved := store.UpdateDisbursementStatus(userId, d, DS.STARTED);
      return Done;
    }

    static lemma MovesOnlyItsTable(t: Tables, d: Id, s: PS.PaymentStatus)
      ensures MovePayments(t, d, s).disbursements == t.disbursements
    {
    }

    static lemma WalletsMoveOnly(t: Tables, d: Id)
      ensures MoveWallets(t, d, WS.DRAFT, WS.READY).disbursements == t.disbursements
    {
    }

    method StartBody(userId: string, d: Id, walletEnabled: bool, assets: Assets, available: Option<int>) returns (o: Outcome<ServiceError>)
      modifies store
      ensures o.Done? <==> walletEnabled && Covered(assets, old(store.Snapshot()), d, available) && CanStart(cfg, old(store.Snapshot()), userId, d)
      ensures o.Done? ==> store.Snapshot() == Launched(old(store.Snapshot()), userId, d)
      ensures o.Failed? ==> StartRefused(cfg, old(store.Snapshot()), userId, d, walletEnabled, Covered(assets, old(store.Snapshot()), d, available), o.error)
    {
      hide DS.Allows, Launched, IsCreator, Covered;
      if d !in store.disbursements {
        return Failed(DisbursementNotFound);
      }
      var disbursement := store.disbursements[d];
      if !walletEnabled {
        return Failed(WalletDisabled);
      }
      Sources(disbursement.status);
      CreatorIs(disbursement.history, userId);
      var checked := DS.TransitionTo(disbursement.status, DS.STARTED);
      if checked.Failed? {
        return Failed(NotReadyToStart);
      }
      if cfg.approvalRequired {
        if disbursement.status != DS.APPROVED {
          return Failed(RequiresApprovalStep);
        }
        var created := HasCreated(disbursement.history, userId);
        if created {
          return Failed(StartedByCreator);
        }
      }
      var funded := ValidateBalanceForDisbursement(store, assets, d, available);
      if !funded {
        return Failed(InsufficientBalance);
      }
      o := Launch(userId, d);
    }

    /** Starting: done if and only if the wallet is enabled, the balance covers it and the user may start it. */
    method StartDisbursement(userId: string, d: Id, walletEnabled: bool, assets: Assets, available: Option<int>, commits: bool)
      returns (o: Outcome<TransactionError<ServiceError>>)
      modifies store
      ensures o.Done? <==> walletEnabled && commits && Covered(assets, old(store.Snapshot()), d, available) && CanStart(cfg, old(store.Snapshot()), userId, d)
      ensures o.Done? ==> Take(cfg, old(store.Snapshot()), Start(userId, d), store.Snapshot())
      ensures o.Failed? ==> store.Snapshot() == old(store.Snapshot())
      ensures o.Done? ==> StartedAs(old(store.Snapshot()), userId, d, store.Snapshot())
      ensures o.Failed? && o.error.Execution? ==> StartRefused(cfg, old(store.Snapshot()), userId, d, walletEnabled, Covered(assets, old(store.Snapshot()), d, available), o.error.error)
    {
      hide Launched, Covered, StartedAs, DS.Allows, IsCreator;
      ghost var t := store.Snapshot();
      var tx := new Transaction(store);
      var result := StartBody(userId, d, walletEnabled, assets, available);
      o := tx.Finish(result, commits);
      if o.Done? {
        LaunchedIs(t, userId, d, store.Snapshot());
      }
    }

    method SubmitBody(userId: string, d: Id, walletEnabled: bool, assets: Assets, available: Option<int>) returns (o: Outcome<ServiceError>)
      modifies store
      ensures o.Done? <==> walletEnabled && Covered(assets, old(store.Snapshot()), d, available) && CanSubmit(old(store.Snapshot()), d)
      ensures o.Done? ==> store.Snapshot() == Launched(old(store.Snapshot()), userId, d)
      ensures o.Failed? ==> SubmitRefused(old(store.Snapshot()), d, walletEnabled, Covered(assets, old(store.Snapshot()), d, available), o.error)
    {
      hide Launched, Covered;
      if d !in store.disbursements {
        return Failed(DisbursementNotFound);
      }
      var disbursement := store.disbursements[d];
      if !walletEnabled {
        return Failed(WalletDisabled);
      }
      if disbursement.status != DS.APPROVED {
        return Failed(NotReadyToSubmit);
      }
      var checked := DS.TransitionTo(disbursement.status, DS.STARTED);
      if checked.Failed? {
        return Failed(NotReadyToSubmit);
      }
      var funded := ValidateBalanceForDisbursement(store, assets, d, available);
      if !funded {
        return Failed(InsufficientBalance);
      }
      o := Launch(userId, d);
    }

    method SubmitDisbursement(userId: string, d: Id, walletEnabled: bool, assets: Assets, available: Option<int>, commits: bool)
      returns (o: Outcome<TransactionError<ServiceError>>)
      modifies store
      ensures o.Done? <==> walletEnabled && commits && Covered(assets, old(store.Snapshot()), d, available) && CanSubmit(old(store.Snapshot()), d)
      ensures o.Done? ==> Take(cfg, old(store.Snapshot()), Submit(userId, d), store.Snapshot())
      ensures o.Failed? ==> store.Snapshot() == old(store.Snapshot())
      ensures o.Done? ==> StartedAs(old(store.Snapshot()), userId, d, store.Snapshot())
      ensures o.Failed? && o.error.Execution? ==> SubmitRefused(old(store.Snapshot()), d, walletEnabled, Covered(assets, old(store.Snapshot()), d, available), o.error.error)
    {
      hide Launched, Covered, StartedAs;
      ghost var t := store.Snapshot();
      var tx := new Transaction(store);
      var result := SubmitBody(userId, d, walletEnabled, assets, available);
      o := tx.Finish(result, commits);
      if o.Done? {
        LaunchedIs(t, userId, d, store.Snapshot());
      }
    }

    method PauseBody(userId: string, d: Id) returns (o: Outcome<ServiceError>)
      modifies store
      ensures o.Done? <==> CanMoveDisbursement(old(store.Snapshot()), d, DS.PAUSED)
      ensures o.Done? ==> store.Snapshot() == Paused(old(store.Snapshot()), userId, d)
      ensures o.Failed? ==> PauseRefused(old(store.Snapshot()), d, o.error)
    {
      hide DS.Allows, MovePayments, MoveDisbursement;
      ghost var t := store.Snapshot();
      if d !in store.disbursements {
        return Failed(DisbursementNotFound);
      }
      Sources(store.disbursements[d].status);
      var checked := DS.TransitionTo(store.disbursements[d].status, DS.PAUSED);
      if checked.Failed? {
        return Failed(NotReadyToPause);
      }
      store.UpdatePaymentsByDisbursementID(d, PS.PAUSED);
      MovesOnlyItsTable(t, d, PS.PAUSED);
      var moved := store.UpdateDisbursementStatus(userId, d, DS.PAUSED);
      assert moved.Done?;
      return Done;
    }

    method PauseDisbursement(userId: string, d: Id, commits: bool) returns (o: Outcome<TransactionError<ServiceError>>)
      modifies store
      ensures o.Done? <==> commits && CanMoveDisbursement(old(store.Snapshot()), d, DS.PAUSED)
      ensures o.Done? ==> Take(cfg, old(store.Snapshot()), Pause(userId, d), store.Snapshot())
      ensures o.Failed? ==> store.Snapshot() == old(store.Snapshot())
      ensures o.Failed? && o.error.Execution? ==> PauseRefused(old(store.Snapshot()), d, o.error.error)
    {
      hide Paused, DS.Allows;
      var tx := new Transaction(store);
      var result := PauseBody(userId, d);
      o := tx.Finish(result, commits);
    }

    method ApproveBody(userId: string, d: Id) returns (o: Outcome<ServiceError>)
      modifies store
      ensures o.Done? <==> CanApprove(cfg, old(store.Snapshot()), userId, d)
      ensures o.Done? ==> store.Snapshot() == MoveDisbursement(old(store.Snapshot()), userId, d, DS.APPROVED)
      ensures o.Failed? ==> ApproveRefused(cfg, old(store.Snapshot()), userId, d, o.error)
    {
      hide DS.Allows, MoveDisbursement, IsCreator;
      if d !in store.disbursements {
        return Failed(DisbursementNotFound);
      }
      var disbursement := store.disbursements[d];
      Sources(disbursement.status);
      CreatorIs(disbursement.history, userId);
      var checked := DS.TransitionTo(disbursement.status, DS.APPROVED);
      if checked.Failed? {
        return Failed(NotReadyToApprove);
      }
      if cfg.approvalRequired {
        var created := HasCreated(disbursement.history, userId);
        if created {
          return Failed(ApprovedByCreator);
        }
      }
      var moved := store.UpdateDisbursementStatus(userId, d, DS.APPROVED);
      assert moved.Done?;
      return Done;
    }

    method ApproveDisbursement(userId: string, d: Id, commits: bool) returns (o: Outcome<TransactionError<ServiceError>>)
      modifies store
      ensures o.Done? <==> commits && CanApprove(cfg, old(store.Snapshot()), userId, d)
      ensures o.Done? ==> Take(cfg, old(store.Snapshot()), Approve(userId, d), store.Snapshot())
      ensures o.Failed? ==> store.Snapshot() == old(store.Snapshot())
      ensures o.Failed? && o.error.Execution? ==> ApproveRefused(cfg, old(store.Snapshot()), userId, d, o.error.error)
    {
      hide CanApprove, MoveDisbursement;
      var tx := new Transaction(store);
      var result := ApproveBody(userId, d);
      o := tx.Finish(result, commits);
    }

    method RejectBody(userId: string, d: Id) returns (o: Outcome<ServiceError>)
      modifies store
      ensures o.Done? <==> d in old(store.disbursements) && RejectionTarget(old(store.disbursements)[d].status).Some?
      ensures o.Done? ==> store.Snapshot() == MoveDisbursement(old(store.Snapshot()), userId, d, RejectionTarget(old(store.disbursements)[d].status).value)
      ensures o.Failed? ==>
                if d !in old(store.disbursements) then o.error == DisbursementNotFound
                else !old(store.disbursements)[d].status.READY? && !old(store.disbursements)[d].status.APPROVED? && o.error == NotReadyToReject
    {
      if d !in store.disbursements {
        return Failed(DisbursementNotFound);
      }
      var status := store.disbursements[d].status;
      var target;
      match status {
        case READY => target := DS.DRAFT;
        case APPROVED => target := DS.READY;
        case _ => return Failed(NotReadyToReject);
      }
      var checked := DS.TransitionTo(status, target);
      if checked.Failed? {
        return Failed(NotReadyToReject);
      }
      var moved := store.UpdateDisbursementStatus(userId, d, target);
      assert moved.Done?;
      return Done;
    }

    method RejectDisbursement(userId: string, d: Id, reason: string, commits: bool) returns (o: Outcome<TransactionError<ServiceError>>)
      modifies store
      ensures o.Done? <==>
                && commits && !GoStrings.IsBlank(reason)
                && d in old(store.disbursements) && RejectionTarget(old(store.disbursements)[d].status).Some?
      ensures o.Done? ==> Take(cfg, old(store.Snapshot()), Reject(userId, d), store.Snapshot())
      ensures o.Failed? ==> store.Snapshot() == old(store.Snapshot())
      ensures o.Failed? && o.error.Execution? ==> RejectRefused(old(store.Snapshot()), d, reason, o.error.error)
    {
      hide MoveDisbursement, RejectionTarget;
      if GoStrings.IsBlank(reason) {
        return Failed(Execution(ReasonRequired));
      }
      var tx := new Transaction(store);
      var result := RejectBody(userId, d);
      o := tx.Finish(result, commits);
    }

    static lemma DeletableIff(t: Tables, d: Id)
      ensures var kept := WithoutDrafts(t.payments, d);
              CanDelete(t, d) <==>
                && d in t.disbursements && DS.NotStarted(t.disbursements[d].status)
                && forall i :: i in kept ==> !OfDisbursement(kept[i], d)
    {
      var kept := WithoutDrafts(t.payments, d);
      assert forall i :: i in kept ==> kept[i] == t.payments[i];
    }

    method DeleteBody(d: Id) returns (o: Outcome<ServiceError>)
      modifies store
      ensures o.Done? <==> CanDelete(old(store.Snapshot()), d)
      ensures o.Done? ==>
                store.Snapshot() == old(store.Snapshot()).(payments := WithoutDrafts(old(store.payments), d), disbursements := old(store.disbursements) - {d})
      ensures o.Failed? ==> DeleteRefused(old(store.Snapshot()), d, o.error)
    {
      if d !in store.disbursements {
        return Failed(StoreRefused(RecordNotFound));
      }
      if !(store.disbursements[d].status in [DS.DRAFT, DS.READY, DS.APPROVED]) {
        return Failed(DisbursementStarted);
      }
      DeletableIff(store.Snapshot(), d);
      store.DeleteAllDraftForDisbursement(d);
      assert CanDelete(old(store.Snapshot()), d) <==> forall i :: i in store.payments ==> !OfDisbursement(store.payments[i], d);
      var deleted := store.DeleteDisbursement(d);
      assert deleted.Done? <==> forall i :: i in store.payments ==> !OfDisbursement(store.payments[i], d);
      return if deleted.Done? then Done else Failed(StoreRefused(deleted.error));
    }

    method DeleteDisbursement(d: Id, commits: bool) returns (o: Outcome<TransactionError<ServiceError>>)
      modifies store
      ensures o.Done? <==> commits && CanDelete(old(store.Snapshot()), d)
      ensures o.Done? ==> Take(cfg, old(store.Snapshot()), Step.DeleteDisbursement(d), store.Snapshot())
      ensures o.Failed? ==> store.Snapshot() == old(store.Snapshot())
      ensures o.Failed? && o.error.Execution? ==> DeleteRefused(old(store.Snapshot()), d, o.error.error)
    {
      hide CanDelete, WithoutDrafts;
      var tx := new Transaction(store);
      var result := DeleteBody(d);
      o := tx.Finish(result, commits);
    }

    // The retry of failed payments is all or nothing too: one identifier that is not FAILED undoes it.
    method RetryFailed(email: string, ids: seq<Id>, commits: bool) returns (o: Outcome<TransactionError<ServiceError>>)
      modifies store
      ensures o.Done? <==>
                && commits && ids != [] && email != ""
                && |Retryable(old(store.payments), set i | i in ids)| == |ids|
      ensures o.Done? ==> Take(cfg, old(store.Snapshot()), Retry(set i | i in ids), store.Snapshot())
      ensures o.Failed? ==> store.Snapshot() == old(store.Snapshot())
    {
      hide RetryPayments, Retryable;
      var tx := new Transaction(store);
      var retried := store.RetryFailedPayments(email, ids);
      var result: Outcome<ServiceError> := if retried.Done? then Done else Failed(StoreRefused(retried.error));
      o := tx.Finish(result, commits);
    }

    /**
     ProcessAll in a transaction is all or nothing.  On a disbursement that has started it fails: the
     status update refuses, after everything else has been written, and everything is undone.
     */
    method ProcessAllInTransaction(u: Upload, healthy: bool, commits: bool) returns (o: Outcome<TransactionError<ServiceError>>)
      requires Sound(store.lib) && SchemaOk(store.Snapshot()) && AllWellKinded(u.instructions) && u.disbursementId in store.disbursements
      requires cfg.lib == store.lib
      modifies store
      ensures o.Done? ==> Take(cfg, old(store.Snapshot()), UploadInstructions(u), store.Snapshot()) && SchemaOk(store.Snapshot())
      ensures o.Failed? ==> store.Snapshot() == old(store.Snapshot())
      ensures o.Done? ==> commits && Uploadable(store.lib, old(store.Snapshot()), u)
      ensures healthy && commits && Uploadable(store.lib, old(store.Snapshot()), u) ==> o.Done?
      ensures !DS.NotStarted(old(store.disbursements)[u.disbursementId].status) ==> o.Failed?
    {
      ghost var t := store.Snapshot();
      if !DS.NotStarted(t.disbursements[u.disbursementId].status) {
        StartedRefuses(store.lib, t, u);
      }
      hide Sound, SchemaOk, AllWellKinded, Uploadable, UploadedAs;
      var tx := new Transaction(store);
      ghost var pl;
      var processed;
      processed, pl := ProcessAll(store, u, healthy);
      ghost var t' := store.Snapshot();
      var result: Outcome<ServiceError> := if processed.Done? then Done else Failed(UploadRefused(processed.error));
      o := tx.Finish(result, commits);
      assert o.Done? ==> UploadedAs(cfg.lib, t, u, pl, t');
    }

    // The handler's transaction: only a DRAFT or READY disbursement, and only a file it accepts, is processed.
    method PostInstructionsBody(u: Upload, file: File, healthy: bool) returns (o: Outcome<ServiceError>, ghost pl: Placement)
      requires Sound(store.lib) && SchemaOk(store.Snapshot()) && SoundFormats(file.formats)
      modifies store
      ensures o.Done? ==> Postable(store.lib, old(store.disbursements), u, file) && Uploadable(store.lib, old(store.Snapshot()), Sanitized(u))
      ensures healthy && Postable(store.lib, old(store.disbursements), u, file) && Uploadable(store.lib, old(store.Snapshot()), Sanitized(u)) ==> o.Done?
      ensures o.Done? ==> UploadedAs(store.lib, old(store.Snapshot()), Sanitized(u), pl, store.Snapshot()) && SchemaOk(store.Snapshot())
      ensures o.Failed? ==> PostRefused(store.lib, old(store.disbursements), u, file, o.error)
    {
      hide Sound, SchemaOk, AllWellKinded, Uploadable, UploadedAs, Accepted, HeadersOk, SoundFormats;
      pl := Placement([], [], []);
      if u.disbursementId !in store.disbursements {
        return Failed(DisbursementNotFound), pl;
      }
      var d := store.disbursements[u.disbursementId];
      if !(d.status in [DS.DRAFT, DS.READY]) {
        return Failed(NotDraftOrReady), pl;
      }
      var columnsOk := ValidateCSVHeaders(file.headers, d, file.SkipsVerification(d));
      if !columnsOk {
        return Failed(InvalidColumns), pl;
      }
      var parsed := ParseInstructions(store.lib, file.formats, d, u.instructions);
      if parsed.None? {
        return Failed(InvalidInstructions), pl;
      }
      AcceptedTyped(store.lib, file.formats, d, u.instructions);
      var processed;
      processed, pl := ProcessAll(store, u.(instructions := parsed.value), healthy);
      o := if processed.Done? then Done else Failed(UploadRefused(processed.error));
    }

    static ghost predicate Postable(lib: Libraries, disbursements: map<Id, Disbursement>, u: Upload, file: File) {
      && u.disbursementId in disbursements
      && var d := disbursements[u.disbursementId];
      && (d.status.DRAFT? || d.status.READY?)
      && HeadersOk(file.headers, d, file.SkipsVerification(d)) && Accepted(lib, file.formats, d, u.instructions)
    }

    static lemma PostableIs(lib: Libraries, disbursements: map<Id, Disbursement>, u: Upload, file: File)
      requires Postable(lib, disbursements, u, file)
      ensures u.disbursementId in disbursements && Accepted(lib, file.formats, disbursements[u.disbursementId], u.instructions)
    {
    }

    /**
     Posting instructions: on a healthy database done if and only if the disbursement is DRAFT or READY,
     the handler accepts columns and lines, and the upload of the sanitised lines is possible.
     */
    method PostDisbursementInstructions(u: Upload, file: File, healthy: bool, commits: bool) returns (o: Outcome<TransactionError<ServiceError>>)
      requires Sound(store.lib) && SchemaOk(store.Snapshot()) && SoundFormats(file.formats) && cfg.lib == store.lib
      modifies store
      ensures o.Done? ==> Take(cfg, old(store.Snapshot()), UploadInstructions(Sanitized(u)), store.Snapshot()) && SchemaOk(store.Snapshot())
      ensures o.Failed? ==> store.Snapshot() == old(store.Snapshot())
      ensures o.Done? ==>
                && commits && Postable(store.lib, old(store.disbursements), u, file)
                && Uploadable(store.lib, old(store.Snapshot()), Sanitized(u))
                && exists pl :: PostedAs(store.lib, old(store.Snapshot()), u, pl, store.Snapshot())
      ensures o.Done? && old(Consistent(store.Snapshot())) ==>
                Total(store.payments, PaymentsOf(store.payments, u.disbursementId)) == Asked(u.instructions)
      ensures && healthy && commits && Postable(store.lib, old(store.disbursements), u, file)
              && Uploadable(store.lib, old(store.Snapshot()), Sanitized(u)) ==>
                o.Done?
      ensures o.Failed? && o.error.Execution? ==> PostRefused(store.lib, old(store.disbursements), u, file, o.error.error)
    {
      hide Sound, SchemaOk, Uploadable, UploadedAs, Postable, SoundFormats, PostedAs, Consistent, Asked;
      ghost var t := store.Snapshot();
      var tx := new Transaction(store);
      ghost var pl;
      var result;
      result, pl := PostInstructionsBody(u, file, healthy);
      ghost var t' := store.Snapshot();
      o := tx.Finish(result, commits);
      if o.Done? {
        assert UploadedAs(cfg.lib, t, Sanitized(u), pl, t');
        PostableIs(store.lib, t.disbursements, u, file);
        PostMeans(store.lib, file.formats, t, u, pl, t');
        if Consistent(t) {
          PostPaysWhatTheFileAsks(store.lib, t, u, pl, t');
        }
      }
    }

    /** What was posted once can be posted again: the handler sees to it that every contact is of the right kind. */
    static lemma RepostAlwaysPossible(lib: Libraries, t: Tables, u: Upload, file: File, pl: Placement, t': Tables)
      requires SchemaOk(t) && SchemaOk(t') && SoundFormats(file.formats)
      requires Postable(lib, t.disbursements, u, file) && Uploadable(lib, t, Sanitized(u)) && UploadedAs(lib, t, Sanitized(u), pl, t')
      ensures Postable(lib, t'.disbursements, u, file) && Uploadable(lib, t', Sanitized(u))
    {
      AcceptedTyped(lib, file.formats, t.disbursements[u.disbursementId], u.instructions);
      UploadDisbursement(lib, t, Sanitized(u), t');
      SameAccepted(lib, file.formats, t.disbursements[u.disbursementId], t'.disbursements[u.disbursementId], u.instructions);
      hide UploadedAs, Uploaded, SchemaOk, AllWellKinded, AllTyped, Accepted, SoundFormats;
      TypedReuploadSucceeds(lib, t, Sanitized(u), pl, t');
      hide Uploadable;
    }

    static lemma SameAccepted(lib: Libraries, formats: Formats, d: Disbursement, d': Disbursement, instructions: seq<Instruction>)
      requires d'.contactType == d.contactType && d'.includesWalletAddress == d.includesWalletAddress
      requires d'.verificationField == d.verificationField
      ensures Accepted(lib, formats, d, instructions) ==> Accepted(lib, formats, d', instructions)
    {
      hide Typed, Registrable, ValidAmount, NoDuplicateContacts, VerificationValueOk, FitsId, Sanitize;
      if Accepted(lib, formats, d, instructions) {
        forall k | 0 <= k < |instructions|
          ensures LineOk(lib, formats, d', Sanitize(instructions[k]))
        {
          assert LineOk(lib, formats, d, Sanitize(instructions[k]));
        }
      }
    }

    /** A receiver that a post created has neither a recipient name nor a currency type, whatever the file says. */
    static lemma PostsDropNames(lib: Libraries, t: Tables, u: Upload, pl: Placement, t': Tables, r: Id)
      requires UploadedAs(lib, t, Sanitized(u), pl, t') && r in t'.receivers && r !in t.receivers
      ensures t'.receivers[r].recipientName == "" && t'.receivers[r].currencyType == ""
    {
      hide Contact, Owns, WalletsReady, VerificationsReady, PaymentsReplaced;
      var k :| 0 <= k < |pl.receivers| && pl.receivers[k] == r;
      assert t'.receivers[r] == NewReceiver(Sanitized(u).instructions[k]);
    }

    static lemma StartedRefuses(lib: Libraries, t: Tables, u: Upload)
      requires u.disbursementId in t.disbursements && !DS.NotStarted(t.disbursements[u.disbursementId].status)
      ensures !Uploadable(lib, t, u)
    {
    }
  }
}

/** What holds in every run of committed operations. */
module Runs {
  import opened Wrappers
  import opened Tables
  import opened Uploads
  import opened Lifecycle
  import PS = PaymentStatuses
  import DS = DisbursementStatuses
  import WS = ReceiverWalletStatuses

  datatype Event = Event(step: Step, after: Tables)

  ghost function At(start: Tables, run: seq<Event>, i: nat): Tables
    requires i <= |run|
  {
    if i == 0 then start else run[i - 1].after
  }

  ghost predicate IsRun(cfg: Config, start: Tables, run: seq<Event>) {
    forall i :: 0 <= i < |run| ==> Take(cfg, At(start, run, i), run[i].step, run[i].after)
  }

  /** Every state of every run is consistent. */
  lemma {:induction false} AlwaysConsistent(cfg: Config, start: Tables, run: seq<Event>, i: nat)
    requires IsRun(cfg, start, run) && Consistent(start) && i <= |run|
    ensures Consistent(At(start, run, i))
  {
    hide Take, Consistent;
    if i > 0 {
      AlwaysConsistent(cfg, start, run, i - 1);
      ConsistentStep(cfg, At(start, run, i - 1), run[i - 1].step, run[i - 1].after);
    }
  }

  // ------------------------------------------------------------------------ payment histories

  function Count(h: seq<PS.PaymentStatus>, s: PS.PaymentStatus): nat {
    if h == [] then 0 else (if h[|h| - 1] == s then 1 else 0) + Count(h[..|h| - 1], s)
  }

  lemma {:induction false} PendingCount(h: seq<PS.PaymentStatus>)
    requires LegalPaymentHistory(h)
    ensures var last := h[|h| - 1];
            Count(h, PS.PENDING) <= Count(h, PS.FAILED) + if last.PENDING? || last.SUCCESS? then 1 else 0
    ensures Count(h, PS.SUCCESS) == if h[|h| - 1].SUCCESS? then 1 else 0
    decreases |h|
  {
    var front := h[..|h| - 1];
    if front != [] {
      assert PS.Legal(h[|h| - 2], h[|h| - 1]);
      PendingCount(front);
    }
  }

  /** In every reachable state, a payment was submitted at most once more often than it failed, and succeeded at most once. */
  lemma SubmittedOnceMoreThanFailed(cfg: Config, start: Tables, run: seq<Event>, i: nat, p: Id)
    requires IsRun(cfg, start, run) && Consistent(start) && i <= |run| && p in At(start, run, i).payments
    ensures var h := At(start, run, i).payments[p].history;
            Count(h, PS.PENDING) <= Count(h, PS.FAILED) + 1 && Count(h, PS.SUCCESS) <= 1
  {
    hide Take;
    AlwaysConsistent(cfg, start, run, i);
    PendingCount(At(start, run, i).payments[p].history);
  }

  // ----------------------------------------------------------- which payments exist, and why

  // The disbursement whose draft payments a step may delete.
  function Emptied(step: Step): Option<Id> {
    match step
    case UploadInstructions(u) => Some(u.disbursementId)
    case DeleteDisbursement(d) => Some(d)
    case _ => None
  }

  /** Only an upload to its disbursement, or the deletion of it, removes a payment: and only a draft. */
  lemma PaymentGone(cfg: Config, t: Tables, step: Step, t': Tables, i: Id)
    requires Take(cfg, t, step, t') && i in t.payments && i !in t'.payments
    ensures t.payments[i].status.DRAFT? && Emptied(step).Some? && OfDisbursement(t.payments[i], Emptied(step).value)
  {
    match step
    case UploadInstructions(u) =>
      hide ReceiversReconciled, WalletsReady, VerificationsReady;
      var pl :| UploadedAs(cfg.lib, t, u, pl, t');
      UploadPayments(cfg.lib, t, u, pl, t');
    case _ =>
  }

  /** Only an upload to a disbursement gives it new payments. */
  lemma PaymentNew(cfg: Config, t: Tables, step: Step, t': Tables, i: Id)
    requires Take(cfg, t, step, t') && i !in t.payments && i in t'.payments
    ensures t'.payments[i].terms.disbursementId == if step.UploadInstructions? then Some(step.upload.disbursementId) else None
  {
    hide Uploaded, Succeeded, Finished;
    match step
    case UploadInstructions(u) => UploadOrigin(cfg.lib, t, u, t', i);
    case _ =>
  }

  // What a disbursement is going to pay: amounts, assets, receivers and wallets, payment by payment.
  ghost function TermsOf(t: Tables, d: Id): map<Id, Terms> {
    map i | i in t.payments && OfDisbursement(t.payments[i], d) :: t.payments[i].terms
  }

  /** Nothing but an upload to it changes what an existing disbursement is going to pay. */
  lemma TermsStep(cfg: Config, t: Tables, step: Step, t': Tables, d: Id)
    requires Take(cfg, t, step, t') && d in t'.disbursements
    requires !(step.UploadInstructions? && step.upload.disbursementId == d)
    ensures TermsOf(t', d) == TermsOf(t, d)
  {
    assert Emptied(step) != Some(d);
    hide Take;
    forall i | i in TermsOf(t, d)
      ensures i in TermsOf(t', d) && TermsOf(t', d)[i] == TermsOf(t, d)[i]
    {
      if i !in t'.payments {
        PaymentGone(cfg, t, step, t', i);
      }
      PaymentOrigin(cfg, t, step, t', i);
    }
    forall i | i in TermsOf(t', d)
      ensures i in TermsOf(t, d)
    {
      if i in t.payments {
        PaymentOrigin(cfg, t, step, t', i);
      } else {
        PaymentNew(cfg, t, step, t', i);
      }
    }
  }

  // ------------------------------------------------------------------- completed disbursements

  /** A completed disbursement has only successful or canceled payments, in every reachable state. */
  lemma CompletedMeansFinal(cfg: Config, start: Tables, run: seq<Event>, i: nat, d: Id, p: Id)
    requires IsRun(cfg, start, run) && Consistent(start) && i <= |run|
    requires var t := At(start, run, i);
             && d in t.disbursements && t.disbursements[d].status.COMPLETED?
             && p in t.payments && OfDisbursement(t.payments[p], d)
    ensures PS.Completed(At(start, run, i).payments[p].status)
  {
    hide Take;
    AlwaysConsistent(cfg, start, run, i);
  }

  lemma CompletedStep(cfg: Config, t: Tables, step: Step, t': Tables, d: Id)
    requires Take(cfg, t, step, t') && d in t.disbursements && t.disbursements[d].status.COMPLETED?
    ensures d in t'.disbursements && t'.disbursements[d].status.COMPLETED? && TermsOf(t', d) == TermsOf(t, d)
  {
    if d !in t'.disbursements {
      SurvivesUnlessDeleted(cfg, t, step, t', d);
    }
    hide Take;
    DisbursementOrigin(cfg, t, step, t', d);
    if step.UploadInstructions? {
      UploadDisbursement(cfg.lib, t, step.upload, t');
    }
    TermsStep(cfg, t, step, t', d);
  }

  lemma SurvivesUnlessDeleted(cfg: Config, t: Tables, step: Step, t': Tables, d: Id)
    requires Take(cfg, t, step, t') && d in t.disbursements && d !in t'.disbursements
    ensures step == DeleteDisbursement(d) && DS.NotStarted(t.disbursements[d].status)
  {
    if step.UploadInstructions? {
      UploadDisbursement(cfg.lib, t, step.upload, t');
    }
  }

  /** Completion is final: status, payments and terms stay for the rest of the run. */
  lemma {:induction false} CompletedForever(cfg: Config, start: Tables, run: seq<Event>, i: nat, j: nat, d: Id)
    requires IsRun(cfg, start, run) && i <= j <= |run|
    requires d in At(start, run, i).disbursements && At(start, run, i).disbursements[d].status.COMPLETED?
    ensures var t := At(start, run, j);
            && d in t.disbursements && t.disbursements[d].status.COMPLETED?
            && TermsOf(t, d) == TermsOf(At(start, run, i), d)
    decreases j - i
  {
    hide Take, TermsOf;
    if i < j {
      CompletedStep(cfg, At(start, run, i), run[i].step, run[i].after, d);
      CompletedForever(cfg, start, run, i + 1, j, d);
    }
  }

  lemma FinalPaymentStep(cfg: Config, t: Tables, step: Step, t': Tables, p: Id)
    requires Take(cfg, t, step, t') && p in t.payments && PS.Completed(t.payments[p].status)
    ensures p in t'.payments && t'.payments[p].status == t.payments[p].status && t'.payments[p].terms == t.payments[p].terms
  {
    hide Take;
    if p !in t'.payments {
      PaymentGone(cfg, t, step, t', p);
    }
    PaymentOrigin(cfg, t, step, t', p);
  }

  /** A successful or canceled payment stays so for the rest of the run, on the same terms. */
  lemma {:induction false} FinalPaymentForever(cfg: Config, start: Tables, run: seq<Event>, i: nat, j: nat, p: Id)
    requires IsRun(cfg, start, run) && i <= j <= |run|
    requires p in At(start, run, i).payments && PS.Completed(At(start, run, i).payments[p].status)
    ensures var t, t' := At(start, run, i), At(start, run, j);
            p in t'.payments && t'.payments[p].status == t.payments[p].status && t'.payments[p].terms == t.payments[p].terms
    decreases j - i
  {
    hide Take;
    if i < j {
      FinalPaymentStep(cfg, At(start, run, i), run[i].step, run[i].after, p);
      FinalPaymentForever(cfg, start, run, i + 1, j, p);
    }
  }

  /** Whatever CompleteDisbursements completes, CompleteIfNecessary completes too. */
  lemma SucceededAreFinished(t: Tables, ids: set<Id>)
    ensures Succeeded(t, ids) <= Finished(t)
  {
  }

  /**
   The two disagree on a disbursement exactly when it is started, all its payments are successful or
   canceled, and one is canceled.
   */
  lemma CompletionsAgree(t: Tables, d: Id)
    ensures !(d in Succeeded(t, {d}) <==> d in Finished(t)) <==>
              && d in t.disbursements && t.disbursements[d].status.STARTED?
              && (forall i :: i in t.payments && OfDisbursement(t.payments[i], d) ==> t.payments[i].status.SUCCESS? || t.payments[i].status.CANCELED?)
              && exists i :: i in t.payments && OfDisbursement(t.payments[i], d) && t.payments[i].status.CANCELED?
  {
  }

  // -------------------------------------------------------------------------------- approvals

  ghost predicate StatusIs(t: Tables, d: Id, s: DS.DisbursementStatus) {
    d in t.disbursements && t.disbursements[d].status == s
  }

  /**
   What was approved is what starts: from the moment a disbursement is approved to the moment it
   starts, with nothing but APPROVED in between, its payments and their terms are the same.
   */
  lemma {:induction false} ApprovedIsWhatStarts(cfg: Config, start: Tables, run: seq<Event>, i: nat, j: nat, d: Id)
    requires IsRun(cfg, start, run) && i < j <= |run|
    requires forall k :: i <= k < j ==> StatusIs(At(start, run, k), d, DS.APPROVED)
    requires StatusIs(At(start, run, j), d, DS.STARTED)
    ensures TermsOf(At(start, run, j), d) == TermsOf(At(start, run, i), d)
    decreases j - i
  {
    hide Take, TermsOf;
    var step := run[i].step;
    assert StatusIs(At(start, run, i), d, DS.APPROVED);
    assert StatusIs(At(start, run, i + 1), d, DS.APPROVED) || StatusIs(At(start, run, i + 1), d, DS.STARTED);
    NotAnUpload(cfg, At(start, run, i), step, run[i].after, d);
    TermsStep(cfg, At(start, run, i), step, run[i].after, d);
    if i + 1 < j {
      ApprovedIsWhatStarts(cfg, start, run, i + 1, j, d);
    }
  }

  lemma NotAnUpload(cfg: Config, t: Tables, step: Step, t': Tables, d: Id)
    requires Take(cfg, t, step, t') && (StatusIs(t', d, DS.APPROVED) || StatusIs(t', d, DS.STARTED))
    ensures !(step.UploadInstructions? && step.upload.disbursementId == d)
  {
    if step.UploadInstructions? {
      UploadDisbursement(cfg.lib, t, step.upload, t');
    }
  }

  // No approver put an earlier DRAFT or READY entry into the history.
  ghost predicate FourEyes(h: seq<Entry>) {
    forall k :: 0 <= k < |h| && h[k].status.APPROVED? ==> !IsCreator(h[..k], h[k].userId)
  }

  // Where approval is required nothing starts but from APPROVED.
  ghost predicate StartsApproved(h: seq<Entry>) {
    forall k :: 0 < k < |h| && h[k].status.STARTED? ==> h[k - 1].status.APPROVED?
  }

  ghost predicate Approvals(t: Tables) {
    forall d :: d in t.disbursements ==> FourEyes(t.disbursements[d].history) && StartsApproved(t.disbursements[d].history)
  }

  lemma Appended(h: seq<Entry>, e: Entry)
    requires h != [] && FourEyes(h) && StartsApproved(h)
    requires e.status.APPROVED? ==> !IsCreator(h, e.userId)
    requires e.status.STARTED? ==> h[|h| - 1].status.APPROVED?
    ensures FourEyes(h + [e]) && StartsApproved(h + [e])
  {
    var h' := h + [e];
    forall k | 0 <= k < |h'| && h'[k].status.APPROVED?
      ensures !IsCreator(h'[..k], h'[k].userId)
    {
      assert h'[..k] == h[..k];
      assert k == |h| ==> h[..k] == h;
    }
  }

  // Who may have written the last entry of a disbursement's history, where approval is required.
  ghost predicate EntryAllowed(d: Disbursement, e: Entry) {
    && (e.status.APPROVED? ==> !IsCreator(d.history, e.userId))
    && (e.status.STARTED? ==> d.status.APPROVED?)
  }

  lemma ApprovalStep(cfg: Config, t: Tables, step: Step, t': Tables, d: Id)
    requires cfg.approvalRequired && Take(cfg, t, step, t') && d in t.disbursements && d in t'.disbursements
    ensures var h, h' := t.disbursements[d].history, t'.disbursements[d].history;
            h' == h || (exists e :: h' == h + [e] && EntryAllowed(t.disbursements[d], e))
  {
    hide Launched, Paused, Uploaded, WithoutDrafts, EnterAll, EnterWith;
    var row := t.disbursements[d];
    if t'.disbursements[d].history != row.history {
      match step
      case UploadInstructions(u) =>
        UploadDisbursement(cfg.lib, t, u, t');
        AppendedEntry(row, t'.disbursements[d], u.userId, DS.READY);
      case Start(u, d0) =>
        LaunchedDisbursements(t, u, d0);
        AppendedEntry(row, t'.disbursements[d], u, DS.STARTED);
      case Submit(u, d0) =>
        LaunchedDisbursements(t, u, d0);
        AppendedEntry(row, t'.disbursements[d], u, DS.STARTED);
      case Pause(u, d0) =>
        PausedDisbursements(t, u, d0);
        AppendedEntry(row, t'.disbursements[d], u, DS.PAUSED);
      case Approve(u, d0) => AppendedEntry(row, t'.disbursements[d], u, DS.APPROVED);
      case Reject(u, d0) => AppendedEntry(row, t'.disbursements[d], u, RejectionTarget(row.status).value);
      case CompleteDisbursements(ids) => AppendedEntry(row, t'.disbursements[d], "", DS.COMPLETED);
      case CompleteIfNecessary => AppendedEntry(row, t'.disbursements[d], "", DS.COMPLETED);
      case _ =>
    }
  }

  lemma AppendedEntry(d: Disbursement, d': Disbursement, u: string, s: DS.DisbursementStatus)
    requires d'.history == EnterDisbursement(d, u, s).history && EntryAllowed(d, Entry(u, s))
    ensures exists e :: d'.history == d.history + [e] && EntryAllowed(d, e)
  {
    assert d'.history == d.history + [Entry(u, s)];
  }

  /** Where approval is required, in every reachable state every approval was by somebody who had
      neither created nor uploaded nor rejected the disbursement, and everything that started was approved. */
  lemma {:induction false} ApprovalsHold(cfg: Config, start: Tables, run: seq<Event>, i: nat)
    requires cfg.approvalRequired && IsRun(cfg, start, run) && Consistent(start) && Approvals(start) && i <= |run|
    ensures Approvals(At(start, run, i))
  {
    hide Take, Consistent, FourEyes, StartsApproved;
    if i > 0 {
      ApprovalsHold(cfg, start, run, i - 1);
      AlwaysConsistent(cfg, start, run, i - 1);
      var t, t' := At(start, run, i - 1), run[i - 1].after;
      forall d | d in t'.disbursements
        ensures FourEyes(t'.disbursements[d].history) && StartsApproved(t'.disbursements[d].history)
      {
        ApprovalsHoldFor(cfg, t, run[i - 1].step, t', d);
      }
    }
  }

  lemma ApprovalsHoldFor(cfg: Config, t: Tables, step: Step, t': Tables, d: Id)
    requires cfg.approvalRequired && Take(cfg, t, step, t') && Consistent(t) && d in t'.disbursements
    requires d in t.disbursements ==> FourEyes(t.disbursements[d].history) && StartsApproved(t.disbursements[d].history)
    ensures FourEyes(t'.disbursements[d].history) && StartsApproved(t'.disbursements[d].history)
  {
    hide Take, FourEyes, StartsApproved, PaymentOk;
    if d in t.disbursements {
      ApprovalStep(cfg, t, step, t', d);
      var h, h' := t.disbursements[d].history, t'.disbursements[d].history;
      if h' != h {
        var e :| h' == h + [e] && EntryAllowed(t.disbursements[d], e);
        Appended(h, e);
      }
    } else {
      DisbursementOrigin(cfg, t, step, t', d);
      CreationApproved(t'.disbursements[d].history);
    }
  }

  lemma CreationApproved(h: seq<Entry>)
    requires |h| == 1 && h[0].status.DRAFT?
    ensures FourEyes(h) && StartsApproved(h)
  {
  }

  lemma HistoryGrows(cfg: Config, t: Tables, step: Step, t': Tables, d: Id)
    requires Take(cfg, t, step, t') && d in t.disbursements && d in t'.disbursements
    ensures t.disbursements[d].history <= t'.disbursements[d].history
  {
    hide Take;
    DisbursementOrigin(cfg, t, step, t', d);
  }

  /**
   Whoever rejects a disbursement can never approve it again, nor start it by StartDisbursement: the
   rejection is a DRAFT or READY entry under their name, and the check against the creator takes it for one.
   */
  lemma {:induction false} RejectingLocksOut(cfg: Config, start: Tables, run: seq<Event>, i: nat, j: nat, u: string, d: Id)
    requires cfg.approvalRequired && IsRun(cfg, start, run) && i < j <= |run|
    requires run[i].step == Reject(u, d)
    requires forall k :: i < k <= j ==> d in At(start, run, k).disbursements
    ensures !CanApprove(cfg, At(start, run, j), u, d) && !CanStart(cfg, At(start, run, j), u, d)
  {
    hide Take;
    var h := At(start, run, i + 1).disbursements[d].history;
    RejectionRecorded(cfg, At(start, run, i), u, d, run[i].after);
    HistoryGrowsAlong(cfg, start, run, i + 1, j, d);
    var h' := At(start, run, j).disbursements[d].history;
    var k :| 0 <= k < |h| && h[k].userId == u && (h[k].status.DRAFT? || h[k].status.READY?);
    assert h'[k] == h[k];
  }

  /**
   Submitting has no such check.  Whoever rejected an approved disbursement can start it all the same,
   by submitting it once somebody else has approved it again.
   */
  lemma RejecterMaySubmit(cfg: Config, t: Tables, u: string, v: string, d: Id)
    requires cfg.approvalRequired && StatusIs(t, d, DS.APPROVED) && u != v && !IsCreator(t.disbursements[d].history, v)
    ensures var rejected := MoveDisbursement(t, u, d, DS.READY);
            var approved := MoveDisbursement(rejected, v, d, DS.APPROVED);
            && Take(cfg, t, Reject(u, d), rejected) && Take(cfg, rejected, Approve(v, d), approved)
            && !CanApprove(cfg, rejected, u, d) && !CanStart(cfg, approved, u, d)
            && Take(cfg, approved, Submit(u, d), Launched(approved, u, d)) && StatusIs(Launched(approved, u, d), d, DS.STARTED)
  {
    hide MovePayments, MoveWallets;
    var rejected := MoveDisbursement(t, u, d, DS.READY);
    var approved := MoveDisbursement(rejected, v, d, DS.APPROVED);
    var h := t.disbursements[d].history;
    var h1 := rejected.disbursements[d].history;
    var h2 := approved.disbursements[d].history;
    assert h1 == h + [Entry(u, DS.READY)] && h2 == h1 + [Entry(v, DS.APPROVED)];
    assert h1[|h|] == h2[|h|] == Entry(u, DS.READY);
    assert forall k :: 0 <= k < |h| ==> h1[k] == h[k];
    LaunchedDisbursements(approved, u, d);
  }

  lemma RejectionRecorded(cfg: Config, t: Tables, u: string, d: Id, t': Tables)
    requires Take(cfg, t, Reject(u, d), t')
    ensures d in t'.disbursements && IsCreator(t'.disbursements[d].history, u)
  {
    var h' := t'.disbursements[d].history;
    assert h'[|h'| - 1].userId == u;
  }

  lemma {:induction false} HistoryGrowsAlong(cfg: Config, start: Tables, run: seq<Event>, i: nat, j: nat, d: Id)
    requires IsRun(cfg, start, run) && i <= j <= |run|
    requires forall k :: i <= k <= j ==> d in At(start, run, k).disbursements
    ensures At(start, run, i).disbursements[d].history <= At(start, run, j).disbursements[d].history
    decreases j - i
  {
    hide Take;
    if i < j {
      assert d in At(start, run, i).disbursements && d in At(start, run, i + 1).disbursements;
      HistoryGrows(cfg, At(start, run, i), run[i].step, run[i].after, d);
      HistoryGrowsAlong(cfg, start, run, i + 1, j, d);
    }
  }

  // ------------------------------------------------------------------------- pause and resume

  /** A paused disbursement can be resumed exactly where approval is not required. */
  lemma ResumableIffNoApproval(cfg: Config, t: Tables, u: string, d: Id)
    requires StatusIs(t, d, DS.PAUSED)
    ensures CanStart(cfg, t, u, d) <==> !cfg.approvalRequired
  {
  }

  /** Where approval is required, pausing is for ever: no operation leaves PAUSED. */
  lemma {:induction false} PausedForever(cfg: Config, start: Tables, run: seq<Event>, i: nat, j: nat, d: Id)
    requires cfg.approvalRequired && IsRun(cfg, start, run) && i <= j <= |run| && StatusIs(At(start, run, i), d, DS.PAUSED)
    ensures StatusIs(At(start, run, j), d, DS.PAUSED)
    decreases j - i
  {
    hide Take;
    if i < j {
      PausedStep(cfg, At(start, run, i), run[i].step, run[i].after, d);
      PausedForever(cfg, start, run, i + 1, j, d);
    }
  }

  lemma PausedStep(cfg: Config, t: Tables, step: Step, t': Tables, d: Id)
    requires cfg.approvalRequired && Take(cfg, t, step, t') && StatusIs(t, d, DS.PAUSED)
    ensures StatusIs(t', d, DS.PAUSED)
  {
    if d !in t'.disbursements {
      SurvivesUnlessDeleted(cfg, t, step, t', d);
    }
    DisbursementOrigin(cfg, t, step, t', d);
  }

  predicate NoneDraftOrPaused(t: Tables, d: Id) {
    forall i :: i in t.payments && OfDisbursement(t.payments[i], d) ==> !t.payments[i].status.DRAFT? && !t.payments[i].status.PAUSED?
  }

  /**
   Pausing and resuming restores every payment's status exactly when none was DRAFT or PAUSED;
   then it adds PAUSED, READY to the histories of the READY ones and changes nothing else.
   */
  lemma PauseThenResume(t: Tables, u: string, v: string, d: Id)
    requires d in t.disbursements
    ensures var ps, ps' := t.payments, Launched(Paused(t, u, d), v, d).payments;
            && ps'.Keys == ps.Keys
            && (NoneDraftOrPaused(t, d) <==> forall i :: i in ps ==> ps'[i].status == ps[i].status)
            && (NoneDraftOrPaused(t, d) ==>
                  forall i :: i in ps ==>
                    ps'[i] == if OfDisbursement(ps[i], d) && ps[i].status.READY?
                              then ps[i].(history := ps[i].history + [PS.PAUSED, PS.READY]) else ps[i])
  {
    var ps, ps' := t.payments, Launched(Paused(t, u, d), v, d).payments;
    forall i | i in ps
      ensures i in ps'
      ensures ps'[i].status == if OfDisbursement(ps[i], d) && (ps[i].status.DRAFT? || ps[i].status.PAUSED?) then PS.READY else ps[i].status
      ensures !(OfDisbursement(ps[i], d) && (ps[i].status.DRAFT? || ps[i].status.PAUSED?)) ==>
                ps'[i] == if OfDisbursement(ps[i], d) && ps[i].status.READY?
                          then ps[i].(history := ps[i].history + [PS.PAUSED, PS.READY]) else ps[i]
    {
      var h := ps[i].history;
      assert h + [PS.PAUSED] + [PS.READY] == h + [PS.PAUSED, PS.READY];
    }
    if !NoneDraftOrPaused(t, d) {
      var i :| i in ps && OfDisbursement(ps[i], d) && (ps[i].status.DRAFT? || ps[i].status.PAUSED?);
      assert ps'[i].status == PS.READY;
    }
  }

  /** In every reachable state, pausing a started disbursement and resuming it restores every status. */
  lemma PauseThenResumeAlwaysRestores(cfg: Config, start: Tables, run: seq<Event>, i: nat, u: string, v: string, d: Id)
    requires IsRun(cfg, start, run) && Consistent(start) && i <= |run| && StatusIs(At(start, run, i), d, DS.STARTED)
    ensures var t := At(start, run, i);
            forall p :: p in t.payments ==>
              && p in Launched(Paused(t, u, d), v, d).payments
              && Launched(Paused(t, u, d), v, d).payments[p].status == t.payments[p].status
  {
    hide Take, Launched, Paused;
    AlwaysConsistent(cfg, start, run, i);
    PauseThenResume(At(start, run, i), u, v, d);
  }

  // -------------------------------------------------------------------------------- addresses

  // A receiver registering again after having been flagged brings another address.
  predicate ReplacesAddress(t: Tables, step: Step, w: Id) {
    && step.RegisterReceiver? && step.w == w && w in t.receiverWallets && t.receiverWallets[w].status.FLAGGED?
    && step.address != "" && step.address != t.receiverWallets[w].stellarAddress
  }

  // Only a registered (or flagged) wallet has an address, and no two receivers share one.
  ghost predicate AddressesSettled(ws: map<Id, ReceiverWallet>) {
    && (forall w :: w in ws && ws[w].stellarAddress != "" ==> SkipsRegistration(ws[w]))
    && AddressesUnique(ws)
  }

  ghost predicate AddressKept(ws: map<Id, ReceiverWallet>, ws': map<Id, ReceiverWallet>, w: Id) {
    w in ws && ws[w].stellarAddress != "" ==> w in ws' && ws'[w].stellarAddress == ws[w].stellarAddress
  }

  lemma UploadWallets(lib: Libraries, t: Tables, u: Upload, t': Tables)
    requires Uploaded(lib, t, u, t') && AddressesSettled(t.receiverWallets)
    ensures AddressesSettled(t'.receiverWallets)
    ensures forall w :: AddressKept(t.receiverWallets, t'.receiverWallets, w)
  {
    hide ReceiversReconciled, VerificationsReady, PaymentsReplaced;
    var pl :| UploadedAs(lib, t, u, pl, t');
    assert ReceiversReconciled(t.receivers, t'.receivers, u.instructions, pl.receivers);
    UploadPlacement(lib, t, u, pl, t');
    var d := t.disbursements[u.disbursementId];
    forall w | w in t'.receiverWallets && t'.receiverWallets[w].stellarAddress != ""
      ensures SkipsRegistration(t'.receiverWallets[w])
    {
      if w in pl.wallets {
        var k :| 0 <= k < |pl.wallets| && pl.wallets[k] == w;
        UploadedWallet(lib, t.receiverWallets, t'.receiverWallets, d, u.instructions, pl, k);
      }
    }
    forall w | w in t.receiverWallets && t.receiverWallets[w].stellarAddress != ""
      ensures w in t'.receiverWallets && t'.receiverWallets[w].stellarAddress == t.receiverWallets[w].stellarAddress
    {
      if w in pl.wallets {
        var k :| 0 <= k < |pl.wallets| && pl.wallets[k] == w;
        UploadedWallet(lib, t.receiverWallets, t'.receiverWallets, d, u.instructions, pl, k);
      }
    }
  }

  lemma UploadPlacement(lib: Libraries, t: Tables, u: Upload, pl: Placement, t': Tables)
    requires UploadedAs(lib, t, u, pl, t')
    ensures |pl.receivers| == |pl.wallets| == |u.instructions|
    ensures WalletsReady(lib, t.receiverWallets, t'.receiverWallets, t.disbursements[u.disbursementId], u.instructions, pl.receivers, pl.wallets)
    ensures AddressesUnique(t.receiverWallets) ==> AddressesUnique(t'.receiverWallets)
  {
    hide VerificationsReady, PaymentsReplaced;
  }

  lemma UploadedWallet(lib: Libraries, before: map<Id, ReceiverWallet>, after: map<Id, ReceiverWallet>, d: Disbursement,
                       instructions: seq<Instruction>, pl: Placement, k: nat)
    requires |pl.receivers| == |pl.wallets| == |instructions| && k < |instructions|
    requires WalletsReady(lib, before, after, d, instructions, pl.receivers, pl.wallets)
    ensures pl.wallets[k] in after
    ensures pl.wallets[k] in before && (before[pl.wallets[k]].stellarAddress != "" ==> SkipsRegistration(before[pl.wallets[k]])) ==>
              (before[pl.wallets[k]].stellarAddress != "" ==> after[pl.wallets[k]].stellarAddress == before[pl.wallets[k]].stellarAddress)
              && (after[pl.wallets[k]].stellarAddress != "" ==> SkipsRegistration(after[pl.wallets[k]]))
    ensures pl.wallets[k] !in before && after[pl.wallets[k]].stellarAddress != "" ==> SkipsRegistration(after[pl.wallets[k]])
  {
  }

  lemma LaunchedWallets(t: Tables, u: string, d: Id)
    requires d in t.disbursements && AddressesSettled(t.receiverWallets)
    ensures AddressesSettled(Launched(t, u, d).receiverWallets)
    ensures forall w :: AddressKept(t.receiverWallets, Launched(t, u, d).receiverWallets, w)
  {
  }

  // One row gets a new status, and an address of its receiver's, or none.
  lemma OneWallet(ws: map<Id, ReceiverWallet>, w: Id, row: ReceiverWallet, ws': map<Id, ReceiverWallet>)
    requires AddressesSettled(ws) && w in ws && ws' == ws[w := row] && row.receiverId == ws[w].receiverId
    requires row.stellarAddress == "" || (SkipsRegistration(row) && AddressFree(ws, row.receiverId, row.stellarAddress))
    ensures AddressesSettled(ws')
    ensures forall v :: AddressKept(ws, ws', v) <==> v != w || ws[w].stellarAddress == "" || row.stellarAddress == ws[w].stellarAddress
  {
  }

  /**
   An address is lost in exactly two ways: the wallet is unregistered, or its receiver, having been
   flagged, registers again with another address.
   */
  lemma AddressStep(cfg: Config, t: Tables, step: Step, t': Tables)
    requires Take(cfg, t, step, t') && AddressesSettled(t.receiverWallets)
    ensures AddressesSettled(t'.receiverWallets)
    ensures forall w :: w in t.receiverWallets && t.receiverWallets[w].stellarAddress != "" ==>
              (AddressKept(t.receiverWallets, t'.receiverWallets, w) <==> step != Unregister(w) && !ReplacesAddress(t, step, w))
  {
    hide Launched, Uploaded, WithoutDrafts, EnterAll, EnterWith, Succeeded, Finished;
    match step
    case UploadInstructions(u) => UploadWallets(cfg.lib, t, u, t');
    case Start(u, d) => LaunchedWallets(t, u, d);
    case Submit(u, d) => LaunchedWallets(t, u, d);
    case RegisterReceiver(w, address, memo, memoType) => RegisteredWallet(cfg, t, w, address, memo, memoType, t');
    case Unregister(w) => OneWallet(t.receiverWallets, w, Unregistered(t.receiverWallets[w]), t'.receiverWallets);
    case _ => RowsUntouched(cfg, t, step, t');
  }

  lemma RowsUntouched(cfg: Config, t: Tables, step: Step, t': Tables)
    requires Take(cfg, t, step, t')
    requires !step.UploadInstructions? && !step.Start? && !step.Submit? && !step.RegisterReceiver? && !step.Unregister?
    ensures t'.receiverWallets == t.receiverWallets
  {
    hide Launched, Uploaded, WithoutDrafts, EnterAll, EnterWith, Unregistered, Succeeded, Finished;
  }

  lemma RegisteredWallet(cfg: Config, t: Tables, w: Id, address: string, memo: string, memoType: string, t': Tables)
    requires Take(cfg, t, RegisterReceiver(w, address, memo, memoType), t') && AddressesSettled(t.receiverWallets)
    ensures AddressesSettled(t'.receiverWallets)
    ensures forall v :: AddressKept(t.receiverWallets, t'.receiverWallets, v) <==>
              !ReplacesAddress(t, RegisterReceiver(w, address, memo, memoType), v) || t.receiverWallets[v].stellarAddress == ""
  {
    var ws := t.receiverWallets;
    assert !ws[w].status.FLAGGED? ==> ws[w].stellarAddress == "";
    assert ws[w].stellarAddress != "" ==> AddressFree(ws, ws[w].receiverId, ws[w].stellarAddress);
    hide AddressesSettled, AddressKept;
    OneWallet(ws, w, t'.receiverWallets[w], t'.receiverWallets);
  }

  lemma NotUnregistered(cfg: Config, t: Tables, step: Step, t': Tables, w: Id)
    requires Take(cfg, t, step, t') && HasPaymentsInProgress(t, w)
    ensures step != Unregister(w)
  {
  }

  lemma {:induction false} AlwaysSettled(cfg: Config, start: Tables, run: seq<Event>, i: nat, j: nat)
    requires IsRun(cfg, start, run) && i <= j <= |run| && AddressesSettled(At(start, run, i).receiverWallets)
    ensures AddressesSettled(At(start, run, j).receiverWallets)
  {
    hide Take, AddressesSettled;
    if i < j {
      AlwaysSettled(cfg, start, run, i, j - 1);
      AddressStep(cfg, At(start, run, j - 1), run[j - 1].step, run[j - 1].after);
    }
  }

  ghost predicate HasAddress(ws: map<Id, ReceiverWallet>, w: Id, address: string) {
    w in ws && ws[w].stellarAddress == address
  }

  lemma {:induction false} AddressUntil(cfg: Config, start: Tables, run: seq<Event>, i: nat, j: nat, w: Id, address: string)
    requires IsRun(cfg, start, run) && i <= j <= |run| && AddressesSettled(At(start, run, i).receiverWallets)
    requires address != "" && HasAddress(At(start, run, i).receiverWallets, w, address)
    requires forall k :: i <= k < j ==> HasPaymentsInProgress(At(start, run, k), w) && !ReplacesAddress(At(start, run, k), run[k].step, w)
    ensures HasAddress(At(start, run, j).receiverWallets, w, address)
  {
    hide Take, AddressesSettled, HasPaymentsInProgress, ReplacesAddress;
    if i < j {
      AddressUntil(cfg, start, run, i, j - 1, w, address);
      AlwaysSettled(cfg, start, run, i, j - 1);
      NotUnregistered(cfg, At(start, run, j - 1), run[j - 1].step, run[j - 1].after, w);
      AddressStep(cfg, At(start, run, j - 1), run[j - 1].step, run[j - 1].after);
    }
  }

  /**
   While a wallet has payments in progress its address stays, whatever is uploaded, started, claimed or
   unregistered meanwhile, if and only if its receiver, having been flagged, never registers another one.
   */
  lemma AddressStableWhileInProgress(cfg: Config, start: Tables, run: seq<Event>, i: nat, j: nat, w: Id, address: string)
    requires IsRun(cfg, start, run) && i <= j <= |run| && AddressesSettled(At(start, run, i).receiverWallets)
    requires address != "" && HasAddress(At(start, run, i).receiverWallets, w, address)
    requires forall k :: i <= k < j ==> HasPaymentsInProgress(At(start, run, k), w)
    ensures (forall m :: i <= m <= j ==> HasAddress(At(start, run, m).receiverWallets, w, address)) <==>
              forall k :: i <= k < j ==> !ReplacesAddress(At(start, run, k), run[k].step, w)
  {
    hide Take, AddressesSettled, HasPaymentsInProgress, ReplacesAddress;
    if forall m :: i <= m <= j ==> HasAddress(At(start, run, m).receiverWallets, w, address) {
      forall k | i <= k < j
        ensures !ReplacesAddress(At(start, run, k), run[k].step, w)
      {
        assert HasAddress(At(start, run, k).receiverWallets, w, address) && HasAddress(At(start, run, k + 1).receiverWallets, w, address);
        AlwaysSettled(cfg, start, run, i, k);
        AddressStep(cfg, At(start, run, k), run[k].step, run[k].after);
      }
    } else if forall k :: i <= k < j ==> !ReplacesAddress(At(start, run, k), run[k].step, w) {
      forall m | i <= m <= j
        ensures HasAddress(At(start, run, m).receiverWallets, w, address)
      {
        AddressUntil(cfg, start, run, i, m, w, address);
      }
    }
  }

  // A flagged wallet with an address, and a payment to it that is ready.
  function FlaggedExample(): Tables {
    Tables(
      map[],
      map[0 := Payment(Terms(1, 0, 0, 0, None, ""), PS.READY, [PS.READY], "")],
      map[0 := Receiver("+1", "", "r", "", "")],
      map[0 := ReceiverWallet(0, 0, "G1", "", "", WS.FLAGGED, [WS.FLAGGED], false)],
      map[])
  }

  /** An address can change under a payment in progress: the flagged receiver registers again. */
  lemma FlaggedReceiverReplacesAddress(cfg: Config)
    ensures var t := FlaggedExample();
            var row := t.receiverWallets[0].(status := WS.REGISTERED, history := [WS.REGISTERED, WS.FLAGGED], stellarAddress := "G2");
            var t' := t.(receiverWallets := map[0 := row]);
            && Take(cfg, t, RegisterReceiver(0, "G2", "", ""), t')
            && Consistent(t) && AddressesSettled(t.receiverWallets)
            && HasPaymentsInProgress(t, 0) && HasPaymentsInProgress(t', 0)
            && HasAddress(t.receiverWallets, 0, "G1") && HasAddress(t'.receiverWallets, 0, "G2")
  {
    var t := FlaggedExample();
    var row := t.receiverWallets[0].(status := WS.REGISTERED, history := [WS.REGISTERED, WS.FLAGGED], stellarAddress := "G2");
    var t' := t.(receiverWallets := map[0 := row]);
    var old' := t.receiverWallets[0];
    assert row == old'.(status := WS.REGISTERED, history := [WS.REGISTERED] + old'.history, stellarAddress := "G2", stellarMemo := "", stellarMemoType := "");
    assert t.receiverWallets[0 := row] == map[0 := row];
    assert 0 in t.payments && 0 in t'.payments;
  }
}

/** Payment statuses and their transitions. */
module PaymentStatuses {
  import opened Wrappers
  import opened StateMachines

  datatype PaymentStatus = DRAFT | READY | PENDING | PAUSED | SUCCESS | FAILED | CANCELED

  const ALL: seq<PaymentStatus> := [DRAFT, READY, PENDING, PAUSED, SUCCESS, FAILED, CANCELED]

  const TRANSITIONS: seq<Transition<PaymentStatus>> := [
    Transition(DRAFT, READY),
    Transition(READY, PENDING),
    Transition(READY, PAUSED),
    Transition(READY, CANCELED),
    Transition(READY, FAILED),
    Transition(PAUSED, READY),
    Transition(PENDING, FAILED),
    Transition(FAILED, PENDING),
    Transition(PENDING, SUCCESS)
  ]

  // What the list allows, status by status.
  predicate Allows(from: PaymentStatus, to: PaymentStatus) {
    match from
    case DRAFT => to.READY?
    case READY => to.PENDING? || to.PAUSED? || to.CANCELED? || to.FAILED?
    case PAUSED => to.READY?
    case PENDING => to.FAILED? || to.SUCCESS?
    case FAILED => to.PENDING?
    case SUCCESS => false
    case CANCELED => false
  }

  // Retrying a failed payment takes it back to READY, which the list does not contain.
  predicate Legal(from: PaymentStatus, to: PaymentStatus) {
    Allows(from, to) || (from.FAILED? && to.READY?)
  }

  predicate InProgress(s: PaymentStatus) {
    s.READY? || s.PENDING? || s.PAUSED?
  }

  predicate Completed(s: PaymentStatus) {
    s.SUCCESS? || s.CANCELED?
  }

  lemma AllowsIsTheList(from: PaymentStatus, to: PaymentStatus)
    ensures Allows(from, to) <==> Transition(from, to) in TRANSITIONS
  {
    assert TRANSITIONS[0] == Transition(DRAFT, READY);
    assert TRANSITIONS[1] == Transition(READY, PENDING);
    assert TRANSITIONS[2] == Transition(READY, PAUSED);
    assert TRANSITIONS[3] == Transition(READY, CANCELED);
    assert TRANSITIONS[4] == Transition(READY, FAILED);
    assert TRANSITIONS[5] == Transition(PAUSED, READY);
    assert TRANSITIONS[6] == Transition(PENDING, FAILED);
    assert TRANSITIONS[7] == Transition(FAILED, PENDING);
    assert TRANSITIONS[8] == Transition(PENDING, SUCCESS);
  }

  lemma EveryStatusListed(s: PaymentStatus)
    ensures s in ALL
  {
    match s
    case DRAFT => assert ALL[0] == DRAFT;
    case READY => assert ALL[1] == READY;
    case PENDING => assert ALL[2] == PENDING;
    case PAUSED => assert ALL[3] == PAUSED;
    case SUCCESS => assert ALL[4] == SUCCESS;
    case FAILED => assert ALL[5] == FAILED;
    case CANCELED => assert ALL[6] == CANCELED;
  }

  method SourceStatusesOf(target: PaymentStatus) returns (from: seq<PaymentStatus>)
    ensures forall s :: s in from <==> Allows(s, target)
  {
    hide *;
    from := SourceStatuses(TRANSITIONS, ALL, DRAFT, target);
    forall s: PaymentStatus
      ensures s in from <==> Allows(s, target)
    {
      AllowsIsTheList(s, target);
      EveryStatusListed(s);
    }
  }

  method TransitionTo(status: PaymentStatus, target: PaymentStatus) returns (o: Outcome<TransitionError<PaymentStatus>>)
    ensures o.Done? <==> Allows(status, target)
  {
    var stateMachine := new StateMachine(status, TRANSITIONS);
    AllowsIsTheList(status, target);
    o := stateMachine.TransitionTo(target);
  }
}

/** Disbursement statuses and their transitions. */
module DisbursementStatuses {
  import opened Wrappers
  import opened StateMachines

  datatype DisbursementStatus = DRAFT | READY | APPROVED | STARTED | PAUSED | COMPLETED

  const ALL: seq<DisbursementStatus> := [DRAFT, READY, APPROVED, STARTED, PAUSED, COMPLETED]

  const TRANSITIONS: seq<Transition<DisbursementStatus>> := [
    Transition(DRAFT, READY),
    Transition(READY, READY),
    Transition(READY, APPROVED),
    Transition(READY, STARTED),
    Transition(READY, DRAFT),
    Transition(APPROVED, READY),
    Transition(APPROVED, STARTED),
    Transition(STARTED, PAUSED),
    Transition(PAUSED, STARTED),
    Transition(STARTED, COMPLETED)
  ]

  predicate Allows(from: DisbursementStatus, to: DisbursementStatus) {
    match from
    case DRAFT => to.READY?
    case READY => to.READY? || to.APPROVED? || to.STARTED? || to.DRAFT?
    case APPROVED => to.READY? || to.STARTED?
    case STARTED => to.PAUSED? || to.COMPLETED?
    case PAUSED => to.STARTED?
    case COMPLETED => false
  }

  predicate NotStarted(s: DisbursementStatus) {
    s.DRAFT? || s.READY? || s.APPROVED?
  }

  lemma AllowsIsTheList(from: DisbursementStatus, to: DisbursementStatus)
    ensures Allows(from, to) <==> Transition(from, to) in TRANSITIONS
  {
    assert TRANSITIONS[0] == Transition(DRAFT, READY);
    assert TRANSITIONS[1] == Transition(READY, READY);
    assert TRANSITIONS[2] == Transition(READY, APPROVED);
    assert TRANSITIONS[3] == Transition(READY, STARTED);
    assert TRANSITIONS[4] == Transition(READY, DRAFT);
    assert TRANSITIONS[5] == Transition(APPROVED, READY);
    assert TRANSITIONS[6] == Transition(APPROVED, STARTED);
    assert TRANSITIONS[7] == Transition(STARTED, PAUSED);
    assert TRANSITIONS[8] == Transition(PAUSED, STARTED);
    assert TRANSITIONS[9] == Transition(STARTED, COMPLETED);
  }

  lemma EveryStatusListed(s: DisbursementStatus)
    ensures s in ALL
  {
    match s
    case DRAFT => assert ALL[0] == DRAFT;
    case READY => assert ALL[1] == READY;
    case APPROVED => assert ALL[2] == APPROVED;
    case STARTED => assert ALL[3] == STARTED;
    case PAUSED => assert ALL[4] == PAUSED;
    case COMPLETED => assert ALL[5] == COMPLETED;
  }

  method SourceStatusesOf(target: DisbursementStatus) returns (from: seq<DisbursementStatus>)
    ensures forall s :: s in from <==> Allows(s, target)
  {
    hide *;
    from := SourceStatuses(TRANSITIONS, ALL, DRAFT, target);
    forall s: DisbursementStatus
      ensures s in from <==> Allows(s, target)
    {
      AllowsIsTheList(s, target);
      EveryStatusListed(s);
    }
  }

  method TransitionTo(status: DisbursementStatus, target: DisbursementStatus) returns (o: Outcome<TransitionError<DisbursementStatus>>)
    ensures o.Done? <==> Allows(status, target)
  {
    var stateMachine := new StateMachine(status, TRANSITIONS);
    AllowsIsTheList(status, target);
    o := stateMachine.TransitionTo(target);
  }
}

/** Receiver wallet statuses and their transitions. */
module ReceiverWalletStatuses {
  import opened Wrappers
  import opened StateMachines

  datatype ReceiverWalletStatus = DRAFT | READY | REGISTERED | FLAGGED

  const TRANSITIONS: seq<Transition<ReceiverWalletStatus>> := [
    Transition(DRAFT, READY),
    Transition(READY, REGISTERED),
    Transition(READY, FLAGGED),
    Transition(FLAGGED, READY),
    Transition(REGISTERED, FLAGGED),
    Transition(FLAGGED, REGISTERED)
  ]

  predicate Allows(from: ReceiverWalletStatus, to: ReceiverWalletStatus) {
    match from
    case DRAFT => to.READY?
    case READY => to.REGISTERED? || to.FLAGGED?
    case REGISTERED => to.FLAGGED?
    case FLAGGED => to.READY? || to.REGISTERED?
  }

  lemma AllowsIsTheList(from: ReceiverWalletStatus, to: ReceiverWalletStatus)
    ensures Allows(from, to) <==> Transition(from, to) in TRANSITIONS
  {
    assert TRANSITIONS[0] == Transition(DRAFT, READY);
    assert TRANSITIONS[1] == Transition(READY, REGISTERED);
    assert TRANSITIONS[2] == Transition(READY, FLAGGED);
    assert TRANSITIONS[3] == Transition(FLAGGED, READY);
    assert TRANSITIONS[4] == Transition(REGISTERED, FLAGGED);
    assert TRANSITIONS[5] == Transition(FLAGGED, REGISTERED);
  }

  method TransitionTo(status: ReceiverWalletStatus, target: ReceiverWalletStatus) returns (o: Outcome<TransitionError<ReceiverWalletStatus>>)
    ensures o.Done? <==> Allows(status, target)
  {
    var stateMachine := new StateMachine(status, TRANSITIONS);
    AllowsIsTheList(status, target);
    o := stateMachine.TransitionTo(target);
  }
}

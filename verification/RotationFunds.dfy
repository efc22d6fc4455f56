/**
 Whether the tenant points to the account that holds the funds: the steps at which the two part and
 meet, exactly when they are the same, and when they never will be again.
 */
module RotationFunds {
  import opened Ledger
  import opened RotationProtocol

  ghost predicate Together(start: World, run: seq<Event>, i: nat)
    requires i <= |run|
  {
    At(start, run, i).tenant == Holder(start, run, i)
  }

  // ------------------------------------------------------------------- who can still be moved away

  // An account of ours that nobody moved away is the source of no transaction, unless it is the tenant's.
  ghost predicate OthersStay(w: World) {
    forall a :: a in w.ours && a != w.tenant && !MergedAway(w, a) ==> NeverSource(w, a)
  }

  lemma OthersStayStep(w: World, step: Step, w': World)
    requires Safe(w) && OthersStay(w) && Take(w, step, w')
    ensures OthersStay(w')
  {
    hide Run, WellFormed, ValidLedger;
    forall a | a in w'.ours && a != w'.tenant && !MergedAway(w', a)
      ensures NeverSource(w', a)
    {
      PlacedStays(w, w');
      match step
      case InsertKey(k, _) =>
        if a == k {
          UnusedIsNoSource(w, k);
        }
      case Repoint(_) =>
        if a == w.tenant {
          MovedToMerged(w, w.phase.oldAccount, w.phase.newAccount);
          assert false;
        }
      case _ =>
    }
  }

  lemma UnusedIsNoSource(w: World, k: Address)
    requires TransactionsOk(w) && k !in w.ours
    ensures NeverSource(w, k)
  {
    hide WellFormed;
  }

  lemma {:induction false} AlwaysOthersStay(start: World, run: seq<Event>, i: nat)
    requires IsRun(start, run) && i <= |run|
    ensures OthersStay(At(start, run, i))
  {
    hide Take, Safe;
    if i == 0 {
    } else {
      AlwaysSafe(start, run, i - 1);
      AlwaysOthersStay(start, run, i - 1);
      OthersStayStep(At(start, run, i - 1), run[i - 1].step, run[i - 1].after);
    }
  }

  // The funds move only from the account that the tenant points to.
  lemma HolderStays(start: World, run: seq<Event>, i: nat)
    requires IsRun(start, run) && i < |run| && !Together(start, run, i)
    ensures Holder(start, run, i + 1) == Holder(start, run, i)
  {
    hide Take, Safe, ValidLedger;
    NeverStranded(start, run, i);
    AlwaysOthersStay(start, run, i);
    assert NeverSource(At(start, run, i), Holder(start, run, i));
    if run[i].step.Apply? {
      AppliedWasSent(At(start, run, i), run[i].step.transaction, run[i].after);
    }
  }

  lemma AppliedWasSent(w: World, tx: Transaction, w': World)
    requires Take(w, Apply(tx), w')
    ensures tx in w.sent
  {
    hide Run, WellFormed;
  }

  lemma TenantMoves(w: World, step: Step, w': World)
    requires Take(w, step, w')
    ensures w'.tenant == if step.Repoint? && w.phase.Submitted? then w.phase.newAccount else w.tenant
    ensures step.Repoint? ==> w.phase.Submitted?
  {
    hide Run, WellFormed, ValidLedger;
  }

  // ---------------------------------------------------------------------------- parting and meeting

  ghost predicate FundsLeave(start: World, run: seq<Event>, i: nat)
    requires i < |run|
  {
    && Together(start, run, i)
    && run[i].step.Apply? && run[i].step.transaction.oldAccount == At(start, run, i).tenant
  }

  /** They part exactly when a transaction that moves the tenant's account away is applied. */
  lemma Parting(start: World, run: seq<Event>, i: nat)
    requires IsRun(start, run) && i < |run| && Together(start, run, i)
    ensures Together(start, run, i + 1) <==> !(run[i].step.Apply? && run[i].step.transaction.oldAccount == At(start, run, i).tenant)
  {
    hide Take, Safe;
    var w, step := At(start, run, i), run[i].step;
    TenantMoves(w, step, run[i].after);
    AlwaysSafe(start, run, i);
    if step.Apply? {
      AppliedWasSent(w, step.transaction, run[i].after);
      AppliedOurs(w, step.transaction) by { SafeTransactions(w); }
    } else if step.Repoint? {
      NeverStranded(start, run, i);
      SubmittedIsMerged(w);
      assert false;
    }
  }

  lemma SafeTransactions(w: World)
    requires Safe(w)
    ensures TransactionsOk(w)
  {
  }

  lemma SubmittedIsMerged(w: World)
    requires Safe(w) && w.phase.Submitted?
    ensures MergedAway(w, w.tenant)
  {
    hide TransactionsOk, ValidLedger;
    MovedToMerged(w, w.phase.oldAccount, w.phase.newAccount);
  }

  /** They meet again exactly when the tenant is repointed to the account that holds the funds. */
  lemma Meeting(start: World, run: seq<Event>, i: nat)
    requires IsRun(start, run) && i < |run| && !Together(start, run, i)
    ensures Together(start, run, i + 1) <==>
              run[i].step.Repoint? && At(start, run, i).phase.Submitted? && At(start, run, i).phase.newAccount == Holder(start, run, i)
  {
    hide Take, Safe;
    HolderStays(start, run, i);
    TenantMoves(At(start, run, i), run[i].step, run[i].after);
  }

  // ---------------------------------------------------------------------- exactly when they are one

  // The tenant was moved to the account that the transaction of step k made.
  ghost predicate Followed(start: World, run: seq<Event>, k: nat, j: nat)
    requires k < j <= |run|
  {
    run[k].step.Apply? && exists r :: k < r < j && run[r].step.Repoint? && run[r].after.tenant == run[k].step.transaction.newAccount
  }

  // While they are apart the funds stay where they went.
  lemma {:induction false} ApartUntil(start: World, run: seq<Event>, k: nat, j: nat)
    requires IsRun(start, run) && k < j <= |run| && FundsLeave(start, run, k)
    requires forall m :: k < m < j ==> !Together(start, run, m)
    ensures Holder(start, run, j) == run[k].step.transaction.newAccount
  {
    hide Take, Together;
    if k + 1 < j {
      ApartUntil(start, run, k, j - 1);
      HolderStays(start, run, j - 1);
    } else {
      assert Together(start, run, k) by { assert FundsLeave(start, run, k); }
      LeaveTo(start, run, k);
    }
  }

  lemma LeaveTo(start: World, run: seq<Event>, k: nat)
    requires k < |run| && FundsLeave(start, run, k)
    ensures Holder(start, run, k + 1) == run[k].step.transaction.newAccount
  {
  }

  // The first time that they meet again, it is by following the funds.
  lemma {:induction false} MeetByFollowing(start: World, run: seq<Event>, k: nat, m: nat, j: nat)
    requires IsRun(start, run) && k < m <= j <= |run| && FundsLeave(start, run, k)
    requires forall n :: k < n <= m ==> !Together(start, run, n)
    requires Together(start, run, j)
    ensures Followed(start, run, k, j)
    decreases j - m
  {
    hide Take, Together;
    if Together(start, run, m + 1) {
      ApartUntil(start, run, k, m) by { assert FundsLeave(start, run, k); }
      Meeting(start, run, m);
      TenantMoves(At(start, run, m), run[m].step, run[m].after);
      assert run[m].step.Repoint? && run[m].after.tenant == run[k].step.transaction.newAccount;
    } else {
      MeetByFollowing(start, run, k, m + 1, j);
    }
  }

  // If they are apart, the funds left at some step and nobody followed.
  lemma {:induction false} ApartSince(start: World, run: seq<Event>, j: nat) returns (k: nat)
    requires IsRun(start, run) && j <= |run| && !Together(start, run, j)
    ensures k < j && FundsLeave(start, run, k) && forall m :: k < m <= j ==> !Together(start, run, m)
  {
    hide Take, Together;
    if j == 0 {
      StartTogether(start, run);
      assert false;
    } else if Together(start, run, j - 1) {
      Parting(start, run, j - 1);
      k := j - 1;
    } else {
      k := ApartSince(start, run, j - 1);
    }
  }

  lemma StartTogether(start: World, run: seq<Event>)
    ensures Together(start, run, 0)
  {
  }

  lemma NotFollowed(start: World, run: seq<Event>, k: nat, j: nat)
    requires IsRun(start, run) && k < j <= |run| && FundsLeave(start, run, k)
    requires forall m :: k < m <= j ==> !Together(start, run, m)
    ensures !Followed(start, run, k, j)
  {
    hide Take;
    forall r | k < r < j
      ensures run[r].after.tenant != run[k].step.transaction.newAccount
    {
      ApartUntil(start, run, k, r + 1);
      assert !Together(start, run, r + 1);
    }
  }

  /**
   In every run, the tenant points to the account that holds the funds if and only if each transaction
   that moved them away from under it was followed by the tenant's move to the account it made.
   */
  lemma TogetherIffFollowed(start: World, run: seq<Event>, j: nat)
    requires IsRun(start, run) && j <= |run|
    ensures Together(start, run, j) <==> forall k :: 0 <= k < j && FundsLeave(start, run, k) ==> Followed(start, run, k, j)
  {
    hide Take, Together, FundsLeave, Followed;
    if Together(start, run, j) {
      forall k | 0 <= k < j && FundsLeave(start, run, k)
        ensures Followed(start, run, k, j)
      {
        JustParted(start, run, k);
        MeetByFollowing(start, run, k, k + 1, j);
      }
    } else {
      var k := ApartSince(start, run, j);
      NotFollowed(start, run, k, j);
    }
  }

  lemma JustParted(start: World, run: seq<Event>, k: nat)
    requires IsRun(start, run) && k < |run| && FundsLeave(start, run, k)
    ensures run[k].step.Apply? && !Together(start, run, k + 1)
  {
    hide Take;
    Parting(start, run, k);
  }

  // -------------------------------------------------------------------------- parted, and for good

  // The rotation that moved the funds is still under way.
  ghost predicate UnderWay(w: World, n: Address) {
    || (w.phase.Sent? && w.phase.transaction.newAccount == n)
    || (w.phase.Submitted? && w.phase.newAccount == n)
  }

  // Where they are apart, the funds are in an account that a transaction made.
  lemma {:induction false} HolderMade(start: World, run: seq<Event>, i: nat)
    requires IsRun(start, run) && i <= |run|
    ensures Placed(At(start, run, i), Holder(start, run, i))
  {
    hide Safe, Take, Placed;
    if i == 0 {
      assert Placed(start, start.tenant) by { FirstIsPlaced(start); }
    } else {
      HolderMade(start, run, i - 1);
      MadeStays(At(start, run, i - 1), run[i - 1].step, run[i - 1].after);
    }
  }

  lemma FirstIsPlaced(w: World)
    requires Start(w)
    ensures Placed(w, w.tenant)
  {
  }

  lemma MadeStays(w: World, step: Step, w': World)
    requires Take(w, step, w')
    ensures forall a :: Placed(w, a) ==> Placed(w', a)
    ensures step.Apply? ==> Placed(w', step.transaction.newAccount)
  {
    hide Run, WellFormed, ValidLedger;
    PlacedStays(w, w');
  }

  lemma NotUnderWayIsAbandoned(w: World, n: Address)
    requires Safe(w) && Placed(w, n) && n in w.ours && n != w.tenant && !UnderWay(w, n)
    ensures Abandoned(w, n)
  {
    hide ValidLedger, WellFormed;
  }

  // If the transaction of a rotation under way made the account, it is the one that was applied.
  lemma UnderWayIsApplied(w: World, n: Address)
    requires Safe(w) && Placed(w, n) && w.phase.Sent? && w.phase.transaction.newAccount == n
    ensures w.phase.transaction in w.applied
  {
    hide ValidLedger, WellFormed;
  }

  /**
   Apart when no rotation that moved the funds is under way, apart for ever: the funds stay where they
   are, and the tenant never points there.  In particular after every error and every crash.
   */
  lemma {:induction false} PartedForGood(start: World, run: seq<Event>, i: nat, j: nat)
    requires IsRun(start, run) && i <= j <= |run|
    requires !Together(start, run, i) && !UnderWay(At(start, run, i), Holder(start, run, i))
    ensures !Together(start, run, j) && Holder(start, run, j) == Holder(start, run, i)
  {
    hide Take, Safe, Holds, UnderWay, Abandoned;
    var n := Holder(start, run, i);
    AlwaysSafe(start, run, i);
    NeverStranded(start, run, i);
    HolderMade(start, run, i);
    assert n in At(start, run, i).ours by { HoldsOurs(At(start, run, i), n); }
    NotUnderWayIsAbandoned(At(start, run, i), n);
    if i < j {
      PartedForGood(start, run, i, j - 1);
      HolderStays(start, run, j - 1);
      AbandonedForever(start, run, i, j, n);
    }
  }

  lemma HoldsOurs(w: World, n: Address)
    requires Holds(w, n)
    ensures n in w.ours
  {
  }

  ghost predicate Rejoins(start: World, run: seq<Event>, more: seq<Event>) {
    IsRun(start, run + more) && Together(start, run + more, |run + more|)
  }

  // What was the case stays the case in a longer run.
  lemma {:induction false} Extended(start: World, run: seq<Event>, more: seq<Event>, i: nat)
    requires i <= |run|
    ensures At(start, run + more, i) == At(start, run, i) && Holder(start, run + more, i) == Holder(start, run, i)
  {
    if i > 0 {
      Extended(start, run, more, i - 1);
    }
  }

  lemma OneMoreEvent(start: World, run: seq<Event>, step: Step, w': World)
    requires IsRun(start, run) && Take(At(start, run, |run|), step, w')
    ensures IsRun(start, run + [Event(step, w')]) && At(start, run + [Event(step, w')], |run| + 1) == w'
  {
    hide Take, Start;
    var more := run + [Event(step, w')];
    forall i | 0 <= i < |run|
      ensures At(start, more, i) == At(start, run, i)
    {
    }
  }

  /** Apart, they can be brought together again if and only if the rotation that moved the funds is under way. */
  lemma RejoinIff(start: World, run: seq<Event>)
    requires IsRun(start, run) && !Together(start, run, |run|)
    ensures (exists more :: Rejoins(start, run, more)) <==> UnderWay(At(start, run, |run|), Holder(start, run, |run|))
  {
    hide Take, Safe, Together, UnderWay, Rejoins;
    if UnderWay(At(start, run, |run|), Holder(start, run, |run|)) {
      Rejoin(start, run);
    } else {
      forall more
        ensures !Rejoins(start, run, more)
      {
        NeverRejoins(start, run, more);
      }
    }
  }

  lemma NeverRejoins(start: World, run: seq<Event>, more: seq<Event>)
    requires !Together(start, run, |run|) && !UnderWay(At(start, run, |run|), Holder(start, run, |run|))
    ensures !Rejoins(start, run, more)
  {
    hide IsRun, UnderWay;
    if Rejoins(start, run, more) {
      Extended(start, run, more, |run|);
      PartedForGood(start, run + more, |run|, |run + more|);
    }
  }

  lemma Rejoin(start: World, run: seq<Event>)
    requires IsRun(start, run) && !Together(start, run, |run|) && UnderWay(At(start, run, |run|), Holder(start, run, |run|))
    ensures exists more :: Rejoins(start, run, more)
  {
    hide Take, Safe, IsRun;
    var w, n := At(start, run, |run|), Holder(start, run, |run|);
    if w.phase.Sent? {
      AlwaysSafe(start, run, |run|);
      HolderMade(start, run, |run|);
      UnderWayIsApplied(w, n);
      var w1 := w.(phase := Submitted(w.phase.transaction.oldAccount, w.phase.transaction.newAccount));
      var confirm := Event(Confirm, w1);
      assert Take(w, Confirm, w1) by { ConfirmTakes(w, w1); }
      OneMoreEvent(start, run, Confirm, w1);
      HolderStays(start, run + [confirm], |run|) by { Extended(start, run, [confirm], |run|); }
      Extended(start, run, [confirm], |run|);
      var more :| Rejoins(start, run + [confirm], more) by { FromSubmitted(start, run + [confirm]); }
      Shifted(start, run, confirm, more);
    } else {
      FromSubmitted(start, run);
    }
  }

  lemma Shifted(start: World, run: seq<Event>, event: Event, more: seq<Event>)
    requires Rejoins(start, run + [event], more)
    ensures Rejoins(start, run, [event] + more)
  {
    hide IsRun, Together;
    assert run + [event] + more == run + ([event] + more);
  }

  lemma ConfirmTakes(w: World, w1: World)
    requires w.phase.Sent? && w.phase.transaction in w.applied
    requires w1 == w.(phase := Submitted(w.phase.transaction.oldAccount, w.phase.transaction.newAccount))
    ensures Take(w, Confirm, w1)
  {
  }

  lemma FromSubmitted(start: World, run: seq<Event>)
    requires IsRun(start, run) && !Together(start, run, |run|)
    requires At(start, run, |run|).phase.Submitted? && At(start, run, |run|).phase.newAccount == Holder(start, run, |run|)
    ensures exists more :: Rejoins(start, run, more)
  {
    hide Safe, IsRun, Run, WellFormed, ValidLedger;
    var w, n := At(start, run, |run|), Holder(start, run, |run|);
    var w' := w.(tenant := n, phase := Repointed(w.phase.oldAccount, n));
    var event := Event(Repoint(true), w');
    assert Take(w, Repoint(true), w');
    hide Take;
    OneMoreEvent(start, run, Repoint(true), w');
    Extended(start, run, [event], |run|);
    assert !Together(start, run + [event], |run|);
    HolderStays(start, run + [event], |run|);
    assert Rejoins(start, run, [event]);
  }

  // ---------------------------------------------------------------------------------- one rotation

  // Only transactions from one account to another are new since state i, and none was left over then.
  ghost predicate OnlyMove(start: World, run: seq<Event>, i: nat, j: nat, a: Address, n: Address)
    requires i <= j <= |run|
  {
    && At(start, run, i).sent == {}
    && forall tx :: tx in At(start, run, j).sent + At(start, run, j).applied && tx !in At(start, run, i).applied ==>
         tx.oldAccount == a && tx.newAccount == n
  }

  lemma TransactionsGrow(w: World, step: Step, w': World)
    requires Take(w, step, w')
    ensures w.sent + w.applied <= w'.sent + w'.applied && w.applied <= w'.applied
    ensures w'.applied == if step.Apply? then w.applied + {step.transaction} else w.applied
  {
    hide Run, WellFormed, ValidLedger;
  }

  lemma {:induction false} AppliedGrow(start: World, run: seq<Event>, i: nat, j: nat)
    requires IsRun(start, run) && i <= j <= |run|
    ensures At(start, run, i).applied <= At(start, run, j).applied
  {
    hide Take;
    if i < j {
      AppliedGrow(start, run, i, j - 1);
      TransactionsGrow(At(start, run, j - 1), run[j - 1].step, run[j - 1].after);
    }
  }

  lemma NotYetMovedIn(w: World, a: Address, n: Address)
    requires Safe(w) && n !in w.ours
    ensures !MovedIn(w.applied, a, n)
  {
    hide ValidLedger, WellFormed;
    forall tx | tx in w.applied
      ensures tx.newAccount != n
    {
      assert tx in w.sent + w.applied;
    }
  }

  /**
   Nothing else being sent, the funds of the tenant's account are in the new one exactly if the
   transaction to it was applied, and else where they were.
   */
  lemma {:induction false} OneMove(start: World, run: seq<Event>, i: nat, j: nat, a: Address, n: Address)
    requires IsRun(start, run) && i <= j <= |run| && OnlyMove(start, run, i, j, a, n)
    requires Holder(start, run, i) == a && a != n && n !in At(start, run, i).ours
    ensures Holder(start, run, j) == if MovedIn(At(start, run, j).applied, a, n) then n else a
  {
    hide Take, Safe;
    if i == j {
      AlwaysSafe(start, run, i);
      NotYetMovedIn(At(start, run, i), a, n);
    } else {
      var w, step, w' := At(start, run, j - 1), run[j - 1].step, run[j - 1].after;
      TransactionsGrow(w, step, w');
      assert OnlyMove(start, run, i, j - 1, a, n);
      OneMove(start, run, i, j - 1, a, n);
      if step.Apply? {
        AppliedWasSent(w, step.transaction, w');
        AppliedGrow(start, run, i, j - 1);
        AlwaysSafe(start, run, j - 1);
        SentApart(w) by { SafeTransactions(w); }
        assert step.transaction in w'.applied;
      }
    }
  }

  /** The same of the runs before and after one rotation. */
  lemma OneRotation(start: World, before: seq<Event>, run: seq<Event>, a: Address, n: Address)
    requires IsRun(start, run) && before <= run
    requires var w := At(start, before, |before|);
             && w.sent == {} && n !in w.ours && a != n && Holder(start, before, |before|) == a
             && forall tx :: tx in At(start, run, |run|).sent + At(start, run, |run|).applied && tx !in w.sent + w.applied ==>
                  tx.oldAccount == a && tx.newAccount == n
    ensures Holder(start, run, |run|) == if MovedIn(At(start, run, |run|).applied, a, n) then n else a
  {
    hide IsRun, MovedIn;
    var more := run[|before|..];
    assert run == before + more;
    Extended(start, before, more, |before|);
    OneMove(start, run, |before|, |run|, a, n);
  }
}

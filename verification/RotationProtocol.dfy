/**
 The rotation protocol: insert a new key, submit the transaction, repoint the tenant, delete the
 old key.  Every external call may fail before or after taking effect, the process may stop after
 any step, a transaction that was sent may be applied at any later time or never, and the ledger
 may move between any two steps, addresses of ours included.
 */
module RotationProtocol {
  import opened Wrappers
  import opened Ledger
  import opened Rotation

  // What is signed and sent.
  datatype Transaction = Transaction(
    oldAccount: Address, newAccount: Address, operations: seq<Operation>, balances: Balances, bootstrapXlm: int)

  // How far the process has come; Idle is also where every error and every crash leads.
  datatype Phase =
    | Idle
    | Inserted(oldAccount: Address, newAccount: Address)
    | Sent(transaction: Transaction)
    | Submitted(oldAccount: Address, newAccount: Address)
    | Repointed(oldAccount: Address, newAccount: Address)

  // `ours` is every address a key was ever generated for, `first` the tenant's first account,
  // `sent` the transactions that were sent and not applied, `applied` those that were.
  datatype World = World(
    ledger: Accounts, vault: set<Address>, tenant: Address, ours: set<Address>, first: Address,
    sent: set<Transaction>, applied: set<Transaction>, phase: Phase)

  // No trustline is for the native asset: a credit asset is issued by an account.
  ghost predicate ValidLedger(l: Accounts) {
    forall a, x :: a in l && x in l[a].lines ==> !IsNative(x)
  }

  // What everybody else may do to the ledger: anything but remove an account of ours.  In particular
  // anybody may create any address, also one whose key is gone.
  ghost predicate EnvironmentMay(w: World, l: Accounts) {
    && ValidLedger(l)
    && forall a :: a in w.ours && a in w.ledger ==> a in l
  }

  // `reported` says whether a call that took effect also reports success.
  datatype Step =
    | InsertKey(key: Address, reported: bool)
    | Send(transaction: Transaction)
    | Apply(transaction: Transaction)
    | Confirm
    | Repoint(reported: bool)
    | DeleteKey
    | Abort
    | Environment

  // The operations are those of the balances that were read, in some order.
  ghost predicate WellFormed(tx: Transaction) {
    OneNative(tx.balances) && exists order :: InOrder(tx, order)
  }

  ghost predicate InOrder(tx: Transaction, order: seq<Asset>) {
    && Enumerates(order, tx.balances)
    && tx.operations == RotationOperations(tx.newAccount, tx.oldAccount, order, tx.balances, tx.bootstrapXlm)
  }

  ghost predicate Take(w: World, step: Step, w': World) {
    match step
    case InsertKey(k, reported) =>
      && w.phase.Idle? && k !in w.ours
      && w' == w.(vault := w.vault + {k}, ours := w.ours + {k}, phase := if reported then Inserted(w.tenant, k) else Idle)
    case Send(tx) =>
      // The transaction is signed with both keys.
      && w.phase == Inserted(tx.oldAccount, tx.newAccount) && tx.oldAccount in w.vault && tx.newAccount in w.vault
      && WellFormed(tx)
      && w' == w.(sent := w.sent + {tx}, phase := Sent(tx))
    case Apply(tx) =>
      && tx in w.sent && WellFormed(tx)
      && Run(w.ledger, tx.oldAccount, tx.operations) == Some(w'.ledger)
      && w' == w.(ledger := w'.ledger, sent := w.sent - {tx}, applied := w.applied + {tx})
    case Confirm =>
      && w.phase.Sent? && w.phase.transaction in w.applied
      && w' == w.(phase := Submitted(w.phase.transaction.oldAccount, w.phase.transaction.newAccount))
    case Repoint(reported) =>
      && w.phase.Submitted?
      && w' == w.(tenant := w.phase.newAccount, phase := if reported then Repointed(w.phase.oldAccount, w.phase.newAccount) else Idle)
    case DeleteKey =>
      && w.phase.Repointed?
      && w' == w.(vault := w.vault - {w.phase.oldAccount}, phase := Idle)
    case Abort =>
      w' == w.(phase := Idle)
    case Environment =>
      EnvironmentMay(w, w'.ledger) && w' == w.(ledger := w'.ledger)
  }

  // A tenant before its first rotation.
  ghost predicate Start(w: World) {
    && ValidLedger(w.ledger) && w.tenant in w.ledger
    && w.tenant in w.vault && w.vault == w.ours && w.first == w.tenant
    && w.sent == {} && w.applied == {} && w.phase.Idle?
  }

  // ------------------------------------------------------------------------------- invariant

  // A transaction moved the account away.
  ghost predicate MergedAway(w: World, a: Address) {
    exists tx :: tx in w.applied && tx.oldAccount == a
  }

  // The account is the first one, or a transaction made it.
  ghost predicate Placed(w: World, a: Address) {
    a == w.first || exists tx :: tx in w.applied && tx.newAccount == a
  }

  ghost predicate MovedIn(applied: set<Transaction>, o: Address, n: Address) {
    exists tx :: tx in applied && tx.oldAccount == o && tx.newAccount == n
  }

  lemma MovedInMore(applied: set<Transaction>, more: set<Transaction>, o: Address, n: Address)
    requires applied <= more
    ensures MovedIn(applied, o, n) ==> MovedIn(more, o, n)
  {
  }

  ghost predicate MovedTo(w: World, o: Address, n: Address) {
    MovedIn(w.applied, o, n)
  }

  // No transaction makes the account, and none moves it away.
  ghost predicate Untouched(w: World, a: Address) {
    forall tx :: tx in w.sent + w.applied ==> tx.oldAccount != a && tx.newAccount != a
  }

  ghost predicate NeverSource(w: World, a: Address) {
    forall tx :: tx in w.sent + w.applied ==> tx.oldAccount != a
  }

  ghost predicate PhaseOk(w: World) {
    match w.phase
    case Idle => true
    case Inserted(o, n) => o == w.tenant && n in w.vault && n != w.tenant && n != w.first && Untouched(w, n)
    case Sent(tx) => tx in w.sent + w.applied && tx.oldAccount == w.tenant && tx.newAccount != w.tenant && NeverSource(w, tx.newAccount)
    case Submitted(o, n) => o == w.tenant && n != o && MovedTo(w, o, n) && NeverSource(w, n)
    case Repointed(o, n) => n == w.tenant && n != o && MovedTo(w, o, n)
  }

  ghost predicate TransactionsOk(w: World) {
    && w.sent !! w.applied
    && (forall tx :: tx in w.sent + w.applied ==>
          tx.oldAccount in w.ours && tx.newAccount in w.ours && tx.newAccount != w.first && tx.oldAccount != tx.newAccount
          && Placed(w, tx.oldAccount) && WellFormed(tx))
    && (forall tx, other :: tx in w.sent + w.applied && other in w.sent + w.applied && tx.newAccount == other.newAccount ==> tx == other)
  }

  ghost predicate Safe(w: World) {
    && ValidLedger(w.ledger)
    && w.vault <= w.ours && w.first in w.ours && w.tenant in w.vault && Placed(w, w.tenant)
    && (forall a :: a in w.ours && a !in w.vault ==> MergedAway(w, a))
    && TransactionsOk(w)
    && PhaseOk(w)
  }

  // The account that a transaction is still to make has not been moved away, and has its key.
  lemma NewKeyKept(w: World, tx: Transaction)
    requires Safe(w) && tx in w.sent
    ensures tx.newAccount in w.vault && !MergedAway(w, tx.newAccount)
  {
  }

  lemma AppliedRotates(w: World, tx: Transaction, w': World)
    requires Take(w, Apply(tx), w')
    ensures tx.oldAccount in w.ledger && tx.newAccount !in w.ledger
    ensures w'.ledger == Rotated(w.ledger, tx.newAccount, tx.oldAccount)
  {
    var order :| InOrder(tx, order);
    RotationTransaction(w.ledger, tx.newAccount, tx.oldAccount, order, tx.balances, tx.bootstrapXlm);
  }

  /** An applied transaction moves the whole account and touches no other, whenever it is applied. */
  lemma SubmitMovesEverything(w: World, tx: Transaction, w': World)
    requires Take(w, Apply(tx), w')
    ensures tx.oldAccount in w.ledger && tx.oldAccount !in w'.ledger && tx.newAccount !in w.ledger && tx.newAccount in w'.ledger
    ensures w'.ledger[tx.newAccount].native == w.ledger[tx.oldAccount].native
    ensures w'.ledger[tx.newAccount].lines == w.ledger[tx.oldAccount].lines
    ensures forall a :: a != tx.oldAccount && a != tx.newAccount ==> (a in w'.ledger <==> a in w.ledger)
    ensures forall a :: a != tx.oldAccount && a != tx.newAccount && a in w.ledger ==> w'.ledger[a] == w.ledger[a]
  {
    AppliedRotates(w, tx, w');
    hide Run, WellFormed;
  }

  // More applied transactions, the same ones in all.
  lemma PlacedStays(w: World, w': World)
    requires w'.first == w.first && w.applied <= w'.applied
    ensures forall a :: Placed(w, a) ==> Placed(w', a)
    ensures forall a :: MergedAway(w, a) ==> MergedAway(w', a)
    ensures forall o, n :: MovedTo(w, o, n) ==> MovedTo(w', o, n)
  {
  }

  // The same transactions in all: what is said of all of them stays.
  lemma SameTransactions(w: World, w': World)
    requires w'.sent + w'.applied == w.sent + w.applied
    ensures forall a :: NeverSource(w, a) ==> NeverSource(w', a)
    ensures forall a :: Untouched(w, a) ==> Untouched(w', a)
  {
  }

  lemma TransactionsStay(w: World, w': World)
    requires TransactionsOk(w) && w'.sent + w'.applied == w.sent + w.applied && w'.sent !! w'.applied && w.applied <= w'.applied
    requires w'.first == w.first && w'.ours == w.ours
    ensures TransactionsOk(w')
  {
    PlacedStays(w, w');
    hide Placed, WellFormed;
  }

  lemma ApplySafe(w: World, tx: Transaction, w': World)
    requires Safe(w) && Take(w, Apply(tx), w') && ValidLedger(w'.ledger)
    ensures Safe(w')
  {
    hide TransactionsOk, WellFormed, Placed, MergedAway, MovedTo, NeverSource, Untouched, Run, ValidLedger;
    assert w'.sent + w'.applied == w.sent + w.applied;
    SentApart(w);
    PlacedStays(w, w');
    SameTransactions(w, w');
    TransactionsStay(w, w');
  }

  lemma SentApart(w: World)
    requires TransactionsOk(w)
    ensures w.sent !! w.applied
  {
  }

  lemma SendSafe(w: World, tx: Transaction, w': World)
    requires Safe(w) && Take(w, Send(tx), w')
    ensures Safe(w')
  {
    hide WellFormed, Placed, MergedAway, MovedIn, ValidLedger;
    PlacedStays(w, w');
    SendTransactions(w, tx, w');
    hide TransactionsOk;
    SendPhase(w, tx, w');
  }

  lemma SendTransactions(w: World, tx: Transaction, w': World)
    requires Safe(w) && Take(w, Send(tx), w')
    ensures TransactionsOk(w')
  {
    hide WellFormed, MergedAway, MovedIn, ValidLedger;
    PlacedStays(w, w');
    assert forall other :: other in w'.sent + w'.applied <==> other == tx || other in w.sent + w.applied;
    assert tx !in w.sent + w.applied;
    hide Placed;
  }

  lemma SendPhase(w: World, tx: Transaction, w': World)
    requires Safe(w) && Take(w, Send(tx), w')
    ensures PhaseOk(w')
  {
    hide WellFormed, MergedAway, MovedIn, ValidLedger, TransactionsOk, Placed;
    assert forall other :: other in w'.sent + w'.applied <==> other == tx || other in w.sent + w.applied;
  }

  lemma InsertSafe(w: World, k: Address, reported: bool, w': World)
    requires Safe(w) && Take(w, InsertKey(k, reported), w')
    ensures Safe(w')
  {
    PlacedStays(w, w');
    assert Untouched(w', k);
    assert TransactionsOk(w');
    hide TransactionsOk, Untouched, Placed, MergedAway;
  }

  lemma ValidStays(w: World, tx: Transaction, w': World)
    requires ValidLedger(w.ledger) && Take(w, Apply(tx), w')
    ensures ValidLedger(w'.ledger)
  {
    AppliedRotates(w, tx, w');
    hide Take;
  }

  lemma SafeStep(w: World, step: Step, w': World)
    requires Safe(w) && Take(w, step, w')
    ensures Safe(w')
  {
    hide WellFormed, ValidLedger;
    match step
    case InsertKey(k, reported) => InsertSafe(w, k, reported, w');
    case Send(tx) => SendSafe(w, tx, w');
    case Apply(tx) =>
      ValidStays(w, tx, w');
      ApplySafe(w, tx, w');
    case _ =>
      PlacedStays(w, w');
      RestSafe(w, step, w');
  }

  lemma RestSafe(w: World, step: Step, w': World)
    requires Safe(w) && Take(w, step, w') && !step.InsertKey? && !step.Send? && !step.Apply?
    ensures Safe(w')
  {
    hide TransactionsOk, WellFormed, Placed, MergedAway, MovedTo, NeverSource, Untouched, Run, ValidLedger;
    SentApart(w);
    PlacedStays(w, w');
    SameTransactions(w, w');
    TransactionsStay(w, w');
    match step
    case Confirm => Moved(w, w.phase.transaction);
    case Repoint(_) =>
      MovedToPlaced(w, w.phase.oldAccount, w.phase.newAccount);
      KeyKept(w, w.phase.oldAccount, w.phase.newAccount);
    case DeleteKey => MovedToMerged(w, w.phase.oldAccount, w.phase.newAccount);
    case _ =>
  }

  lemma Moved(w: World, tx: Transaction)
    requires TransactionsOk(w) && tx in w.applied
    ensures MovedTo(w, tx.oldAccount, tx.newAccount) && tx.oldAccount != tx.newAccount
  {
    assert tx in w.sent + w.applied;
  }

  // What was made and not moved away has its key.
  lemma KeyKept(w: World, o: Address, n: Address)
    requires Safe(w) && MovedTo(w, o, n) && NeverSource(w, n)
    ensures n in w.vault
  {
    var tx :| tx in w.applied && tx.oldAccount == o && tx.newAccount == n;
    assert tx in w.sent + w.applied;
  }

  lemma MovedToPlaced(w: World, o: Address, n: Address)
    requires MovedTo(w, o, n)
    ensures Placed(w, n)
  {
  }

  lemma MovedToMerged(w: World, o: Address, n: Address)
    requires MovedTo(w, o, n)
    ensures MergedAway(w, o)
  {
  }

  // --------------------------------------------------------------------------------------- runs

  // A run: the steps taken from `start`, each with the state it led to.
  datatype Event = Event(step: Step, after: World)

  ghost function At(start: World, run: seq<Event>, i: nat): World
    requires i <= |run|
  {
    if i == 0 then start else run[i - 1].after
  }

  ghost predicate IsRun(start: World, run: seq<Event>) {
    Start(start) && forall i :: 0 <= i < |run| ==> Take(At(start, run, i), run[i].step, run[i].after)
  }

  lemma StartSafe(w: World)
    requires Start(w)
    ensures Safe(w)
  {
  }

  lemma {:induction false} AlwaysSafe(start: World, run: seq<Event>, i: nat)
    requires IsRun(start, run) && i <= |run|
    ensures Safe(At(start, run, i))
  {
    hide Take, Safe;
    if i == 0 {
      StartSafe(start);
    } else {
      AlwaysSafe(start, run, i - 1);
      SafeStep(At(start, run, i - 1), run[i - 1].step, run[i - 1].after);
    }
  }

  // The account that holds the funds: the tenant's first one, and after each transaction that moves
  // it away the one it was moved to.
  ghost function Holder(start: World, run: seq<Event>, i: nat): Address
    requires i <= |run|
  {
    if i == 0 then start.tenant
    else
      var before := Holder(start, run, i - 1);
      if run[i - 1].step.Apply? && run[i - 1].step.transaction.oldAccount == before then run[i - 1].step.transaction.newAccount
      else before
  }

  ghost predicate Holds(w: World, a: Address) {
    a in w.ledger && a in w.vault && a in w.ours && !MergedAway(w, a)
  }

  lemma HoldsStep(w: World, step: Step, w': World, a: Address)
    requires Safe(w) && Take(w, step, w') && Holds(w, a)
    ensures Holds(w', if step.Apply? && step.transaction.oldAccount == a then step.transaction.newAccount else a)
  {
    hide ValidLedger, TransactionsOk, Run, WellFormed;
    match step
    case Apply(tx) =>
      AppliedRotates(w, tx, w');
      NewKeyKept(w, tx);
      AppliedOurs(w, tx);
      hide Safe;
    case DeleteKey => MovedToMerged(w, w.phase.oldAccount, w.phase.newAccount);
    case _ =>
  }

  lemma AppliedOurs(w: World, tx: Transaction)
    requires TransactionsOk(w) && tx in w.sent
    ensures tx.newAccount in w.ours && tx.oldAccount != tx.newAccount
  {
    assert tx in w.sent + w.applied;
  }

  /**
   In every state of every run, whatever fails or stops or is applied late, and whatever others do to
   the ledger: the account that holds the funds is on the ledger with its key in the vault, and so is
   the key of the account that the tenant points to.
   */
  lemma {:induction false} NeverStranded(start: World, run: seq<Event>, i: nat)
    requires IsRun(start, run) && i <= |run|
    ensures Holds(At(start, run, i), Holder(start, run, i))
    ensures At(start, run, i).tenant in At(start, run, i).vault
  {
    hide Take, Holds, PhaseOk, TransactionsOk, ValidLedger;
    AlwaysSafe(start, run, i);
    if i == 0 {
      StartHolds(start);
    } else {
      AlwaysSafe(start, run, i - 1);
      NeverStranded(start, run, i - 1);
      HoldsStep(At(start, run, i - 1), run[i - 1].step, run[i - 1].after, Holder(start, run, i - 1));
    }
  }

  lemma StartHolds(w: World)
    requires Start(w)
    ensures Holds(w, w.tenant)
  {
  }

  /**
   A transaction that was applied, reported or not: the account it made stays on the ledger with its
   key in the vault until a later transaction moves that one away.
   */
  lemma {:induction false} AppliedKeepsKey(start: World, run: seq<Event>, i: nat, j: nat, tx: Transaction)
    requires IsRun(start, run) && i < j <= |run| && run[i].step == Apply(tx)
    requires forall k :: i < k < j && run[k].step.Apply? ==> run[k].step.transaction.oldAccount != tx.newAccount
    ensures Holds(At(start, run, j), tx.newAccount)
  {
    hide Take, Holds, Safe;
    if j == i + 1 {
      AlwaysSafe(start, run, i);
      JustApplied(At(start, run, i), tx, run[i].after);
    } else {
      AlwaysSafe(start, run, j - 1);
      AppliedKeepsKey(start, run, i, j - 1, tx);
      HoldsStep(At(start, run, j - 1), run[j - 1].step, run[j - 1].after, tx.newAccount);
    }
  }

  lemma JustApplied(w: World, tx: Transaction, w': World)
    requires Safe(w) && Take(w, Apply(tx), w')
    ensures Holds(w', tx.newAccount)
  {
    hide ValidLedger, TransactionsOk, Run, WellFormed;
    AppliedRotates(w, tx, w');
    NewKeyKept(w, tx);
    AppliedOurs(w, tx);
    hide Safe;
  }

  // --------------------------------------------------------------------- the order of the steps

  // Whether a transaction from `o` to `n` was applied, and the tenant then moved from `o` to `n`.
  ghost predicate MovedThenRepointed(start: World, run: seq<Event>, o: Address, n: Address, i: nat)
    requires i <= |run|
  {
    exists m, r :: 0 <= m < r < i && Moves(run, m, o, n) && Repoints(start, run, r, o, n)
  }

  ghost predicate Moves(run: seq<Event>, m: nat, o: Address, n: Address)
    requires m < |run|
  {
    run[m].step.Apply? && run[m].step.transaction.oldAccount == o && run[m].step.transaction.newAccount == n
  }

  ghost predicate Repoints(start: World, run: seq<Event>, r: nat, o: Address, n: Address)
    requires r < |run|
  {
    run[r].step.Repoint? && At(start, run, r).tenant == o && run[r].after.tenant == n
  }

  ghost predicate MovedBefore(run: seq<Event>, o: Address, n: Address, i: nat)
    requires i <= |run|
  {
    exists m :: 0 <= m < i && Moves(run, m, o, n)
  }

  lemma OnlyApplyApplies(w: World, step: Step, w': World, tx: Transaction)
    requires Take(w, step, w') && tx in w'.applied && tx !in w.applied
    ensures step == Apply(tx)
  {
    hide Run, WellFormed, ValidLedger;
  }

  lemma {:induction false} AppliedEarlier(start: World, run: seq<Event>, i: nat, tx: Transaction)
    requires IsRun(start, run) && i <= |run| && tx in At(start, run, i).applied
    ensures MovedBefore(run, tx.oldAccount, tx.newAccount, i)
  {
    hide Take;
    if tx in At(start, run, i - 1).applied {
      AppliedEarlier(start, run, i - 1, tx);
    } else {
      OnlyApplyApplies(At(start, run, i - 1), run[i - 1].step, run[i - 1].after, tx);
      assert Moves(run, i - 1, tx.oldAccount, tx.newAccount);
    }
  }

  lemma OnlyRepointRepoints(w: World, step: Step, w': World)
    requires Safe(w) && Take(w, step, w') && w'.phase.Repointed?
    ensures w.phase == w'.phase
            || (step.Repoint? && w.tenant == w'.phase.oldAccount && w'.tenant == w'.phase.newAccount
                && MovedTo(w, w'.phase.oldAccount, w'.phase.newAccount))
  {
    hide Run, WellFormed, ValidLedger, TransactionsOk;
  }

  lemma {:induction false} RepointedEarlier(start: World, run: seq<Event>, i: nat)
    requires IsRun(start, run) && i <= |run| && At(start, run, i).phase.Repointed?
    ensures var phase := At(start, run, i).phase;
            MovedThenRepointed(start, run, phase.oldAccount, phase.newAccount, i)
  {
    hide Take, Safe;
    var w, phase := At(start, run, i - 1), At(start, run, i).phase;
    AlwaysSafe(start, run, i - 1);
    OnlyRepointRepoints(w, run[i - 1].step, run[i - 1].after);
    if w.phase == phase {
      RepointedEarlier(start, run, i - 1);
    } else {
      var tx :| tx in w.applied && tx.oldAccount == phase.oldAccount && tx.newAccount == phase.newAccount;
      AppliedEarlier(start, run, i - 1, tx);
      var m :| 0 <= m < i - 1 && Moves(run, m, tx.oldAccount, tx.newAccount);
      assert Moves(run, m, phase.oldAccount, phase.newAccount);
      assert Repoints(start, run, i - 1, phase.oldAccount, phase.newAccount);
    }
  }

  lemma OnlyDeletionDeletes(w: World, step: Step, w': World, k: Address)
    requires Safe(w) && Take(w, step, w') && k in w.vault && k !in w'.vault
    ensures step.DeleteKey? && w.phase == Repointed(k, w.tenant) && w.tenant != k && w.tenant in w'.vault
  {
    hide Run, WellFormed, ValidLedger, TransactionsOk;
  }

  /**
   A key leaves the vault in one way only: after a transaction moved its account away, and after the
   tenant then moved from it to the new account, whose key is in the vault.
   */
  lemma KeyGoesLast(start: World, run: seq<Event>, i: nat, k: Address)
    requires IsRun(start, run) && i < |run| && k in At(start, run, i).vault && k !in run[i].after.vault
    ensures At(start, run, i).tenant != k && At(start, run, i).tenant in run[i].after.vault
    ensures MovedThenRepointed(start, run, k, At(start, run, i).tenant, i)
  {
    hide Take, Safe, MovedThenRepointed;
    AlwaysSafe(start, run, i);
    OnlyDeletionDeletes(At(start, run, i), run[i].step, run[i].after, k);
    RepointedEarlier(start, run, i);
  }

  // ------------------------------------------------------------------------- accounts without keys

  ghost predicate KeyGone(w: World, k: Address) {
    k in w.ours && k !in w.vault
  }

  // An account of ours is on the ledger and its key is gone.
  ghost predicate StrandedAccount(w: World, k: Address) {
    KeyGone(w, k) && k in w.ledger
  }

  ghost predicate NoneStranded(w: World) {
    forall k :: !StrandedAccount(w, k)
  }

  /**
   Exactly when a step strands an account: when the old key is deleted while its address, which was
   merged away, is on the ledger again, or when somebody creates an address whose key is gone.
   */
  lemma StrandedExactly(w: World, step: Step, w': World)
    requires Safe(w) && Take(w, step, w') && NoneStranded(w)
    ensures NoneStranded(w') <==>
              match step
              case DeleteKey => w.phase.oldAccount !in w.ledger
              case Environment => forall k :: KeyGone(w, k) && k !in w.ledger ==> k !in w'.ledger
              case _ => true
  {
    hide ValidLedger, TransactionsOk, Run, WellFormed;
    match step
    case Apply(tx) =>
      AppliedRotates(w, tx, w');
      NewKeyKept(w, tx);
      hide Safe;
      forall k
        ensures StrandedAccount(w', k) ==> StrandedAccount(w, k)
      {
      }
    case DeleteKey =>
      OldIsOurs(w);
      hide Safe;
      assert w.phase.oldAccount in w.ledger ==> StrandedAccount(w', w.phase.oldAccount);
      forall k | w.phase.oldAccount !in w.ledger
        ensures !StrandedAccount(w', k)
      {
        assert !StrandedAccount(w, k);
      }
    case Environment =>
      hide Safe;
      forall k
        ensures StrandedAccount(w', k) <==> KeyGone(w, k) && k !in w.ledger && k in w'.ledger
      {
        assert !StrandedAccount(w, k);
      }
    case _ =>
      hide Safe;
      forall k
        ensures StrandedAccount(w', k) ==> StrandedAccount(w, k)
      {
      }
  }

  lemma OldIsOurs(w: World)
    requires Safe(w) && w.phase.Repointed?
    ensures w.phase.oldAccount in w.ours
  {
    var tx :| tx in w.applied && tx.oldAccount == w.phase.oldAccount && tx.newAccount == w.phase.newAccount;
    assert tx in w.sent + w.applied;
  }

  lemma KeyGoneStep(w: World, step: Step, w': World, k: Address)
    requires Safe(w) && Take(w, step, w') && KeyGone(w, k)
    ensures KeyGone(w', k)
    ensures k !in w.ledger && !step.Environment? ==> k !in w'.ledger
  {
    hide ValidLedger, TransactionsOk, Run, WellFormed;
    if step.Apply? {
      AppliedRotates(w, step.transaction, w');
      NewKeyKept(w, step.transaction);
    }
  }

  /** Once a key is deleted, it never comes back, and that account is never again the tenant's. */
  lemma {:induction false} DeletedKeyStaysUnused(start: World, run: seq<Event>, i: nat, j: nat, k: Address)
    requires IsRun(start, run) && i <= j <= |run| && KeyGone(At(start, run, i), k)
    ensures KeyGone(At(start, run, j), k) && k != At(start, run, j).tenant
    decreases j - i
  {
    hide Take, KeyGone;
    AlwaysSafe(start, run, i);
    GoneIsNotTenant(At(start, run, i), k);
    hide Safe;
    if i < j {
      KeyGoneStep(At(start, run, i), run[i].step, run[i].after, k);
      DeletedKeyStaysUnused(start, run, i + 1, j, k);
    }
  }

  /** It stays off the ledger for as long as nobody else creates its address, and no longer. */
  lemma {:induction false} DeletedAccountStaysOff(start: World, run: seq<Event>, i: nat, j: nat, k: Address)
    requires IsRun(start, run) && i <= j <= |run| && KeyGone(At(start, run, i), k) && k !in At(start, run, i).ledger
    ensures (forall m :: i <= m <= j ==> k !in At(start, run, m).ledger) <==>
              forall m :: i <= m < j && run[m].step.Environment? ==> k !in run[m].after.ledger
  {
    hide Take, KeyGone, Safe;
    if forall m :: i <= m <= j ==> k !in At(start, run, m).ledger {
      forall m | i <= m < j
        ensures k !in run[m].after.ledger
      {
        assert k !in At(start, run, m + 1).ledger;
      }
    } else if forall m :: i <= m < j && run[m].step.Environment? ==> k !in run[m].after.ledger {
      forall m | i <= m <= j
        ensures k !in At(start, run, m).ledger
      {
        OffUntil(start, run, i, m, k);
      }
    }
  }

  lemma {:induction false} OffUntil(start: World, run: seq<Event>, i: nat, m: nat, k: Address)
    requires IsRun(start, run) && i <= m <= |run| && KeyGone(At(start, run, i), k) && k !in At(start, run, i).ledger
    requires forall n :: i <= n < m && run[n].step.Environment? ==> k !in run[n].after.ledger
    ensures k !in At(start, run, m).ledger
  {
    hide Take, KeyGone, Safe;
    if i < m {
      OffUntil(start, run, i, m - 1, k);
      DeletedKeyStaysUnused(start, run, i, m - 1, k);
      AlwaysSafe(start, run, m - 1);
      KeyGoneStep(At(start, run, m - 1), run[m - 1].step, run[m - 1].after, k);
    }
  }

  lemma GoneIsNotTenant(w: World, k: Address)
    requires Safe(w) && KeyGone(w, k)
    ensures k != w.tenant
  {
  }

  // ------------------------------------------------------------------------ an abandoned rotation

  // A key that was made for a rotation which is over, and which never became the tenant's.
  ghost predicate Abandoned(w: World, n: Address) {
    && n in w.ours && n != w.tenant
    && match w.phase
       case Idle => true
       case Sent(tx) => tx.newAccount != n
       case Inserted(_, m) => m != n
       case Submitted(_, m) => m != n
       case Repointed(_, _) => true
  }

  lemma AbandonedStep(w: World, step: Step, w': World, n: Address)
    requires Take(w, step, w') && Abandoned(w, n)
    ensures Abandoned(w', n)
  {
    hide Run, WellFormed, ValidLedger;
  }

  /**
   A rotation that stopped before the tenant moved is never completed by a later one: the tenant will
   never point to its new account, even if its transaction was applied and that account has the funds.
   */
  lemma {:induction false} AbandonedForever(start: World, run: seq<Event>, i: nat, j: nat, n: Address)
    requires IsRun(start, run) && i <= j <= |run| && Abandoned(At(start, run, i), n)
    ensures At(start, run, j).tenant != n
    decreases j - i
  {
    hide Take;
    if i < j {
      AbandonedStep(At(start, run, i), run[i].step, run[i].after, n);
      AbandonedForever(start, run, i + 1, j, n);
    }
  }
}

/** The rotation as the service runs it, every external call of it with its faults. */
module RotationService {
  import opened Wrappers
  import opened Sequences
  import opened Ledger
  import opened Rotation
  import opened RotationProtocol
  import opened RotationFunds

  // How an external call ends: in success, or in an error before or after it took effect.
  datatype Call = Succeeds | FailsBefore | FailsAfter {
    predicate TakesEffect() { !FailsBefore? }
  }

  // The outcome of every external call of one rotation (false is an error of a call without effect).
  datatype Faults = Faults(
    insert: Call, readBalances: bool, prepare: bool, submit: Call, tenantContext: bool, repoint: Call, delete: Call)

  datatype RotationError =
    | UnsupportedAccountType | InsertingKey | GettingBalances | PreparingTransaction
    | SubmittingTransaction | NoTenantInContext | UpdatingTenant | DeletingOldKey
  {
    // Whether nothing had been sent yet.
    predicate BeforeSending() {
      UnsupportedAccountType? || InsertingKey? || GettingBalances? || PreparingTransaction?
    }

    predicate AfterSubmission() {
      NoTenantInContext? || UpdatingTenant? || DeletingOldKey?
    }
  }

  // A Stellar transaction has at most this many operations.
  const MAX_OPERATIONS: nat := 100

  function BalancesOf(a: Account): Balances {
    map[XLM := a.native] + (map x | x in a.lines && !IsNative(x) :: a.lines[x])
  }

  lemma BalancesOfAccount(a: Account)
    requires forall x :: x in a.lines ==> !IsNative(x)
    ensures OneNative(BalancesOf(a)) && CreditLines(BalancesOf(a)) == a.lines
  {
    var b := BalancesOf(a);
    assert IsNative(XLM) && XLM in b;
    assert forall x :: x in b <==> x == XLM || x in a.lines;
    assert forall x :: x in a.lines ==> b[x] == a.lines[x];
    assert CreditLines(b).Keys == a.lines.Keys;
  }

  // ------------------------------------------------------------------------ why a rotation may fail

  // At some moment since `from` the account was not on the ledger.
  ghost predicate OffLedger(start: World, run: seq<Event>, from: nat, a: Address) {
    exists i :: from <= i <= |run| && a !in At(start, run, i).ledger
  }

  // At some moment since `from` moving the account took more operations than a transaction can have.
  ghost predicate TooManyLines(start: World, run: seq<Event>, from: nat, a: Address) {
    exists i :: from <= i <= |run| && a in At(start, run, i).ledger && Operations(At(start, run, i).ledger[a]) > 100
  }

  // Create and merge, two operations for each line, and a payment for each that is not empty.
  function Operations(a: Account): nat {
    2 + 2 * |a.lines| + |set x | x in a.lines && a.lines[x] != 0|
  }

  // At some moment since `from` the ledger would not take a transaction between the accounts that was sent.
  ghost predicate NetworkRefuses(start: World, run: seq<Event>, from: nat, o: Address, n: Address) {
    exists i :: from <= i <= |run| && SomeRefused(At(start, run, i), o, n)
  }

  ghost predicate SomeRefused(w: World, o: Address, n: Address) {
    exists tx :: tx in w.sent && tx.oldAccount == o && tx.newAccount == n && Run(w.ledger, o, tx.operations).None?
  }

  // What was the case at the end of an earlier part of the run.
  lemma Saw(start: World, was: seq<Event>, run: seq<Event>, from: nat, o: Address, n: Address)
    requires was <= run && from <= |was|
    ensures var w := At(start, was, |was|);
            && (o !in w.ledger ==> OffLedger(start, run, from, o))
            && (o in w.ledger && Operations(w.ledger[o]) > 100 ==> TooManyLines(start, run, from, o))
            && (SomeRefused(w, o, n) ==> NetworkRefuses(start, run, from, o, n))
  {
    hide SomeRefused, Operations;
    assert At(start, run, |was|) == At(start, was, |was|);
  }

  // The same, seen from earlier.
  lemma Since(start: World, run: seq<Event>, from: nat, earlier: nat, o: Address, n: Address)
    requires earlier <= from
    ensures OffLedger(start, run, from, o) ==> OffLedger(start, run, earlier, o)
    ensures TooManyLines(start, run, from, o) ==> TooManyLines(start, run, earlier, o)
    ensures NetworkRefuses(start, run, from, o, n) ==> NetworkRefuses(start, run, earlier, o, n)
  {
    hide SomeRefused, Operations;
  }

  lemma {:induction false} NonZeroCount(order: seq<Asset>, b: Balances)
    requires Distinct(order) && forall a :: a in order ==> a in b
    ensures NonZero(order, b) == |set a | a in order && b[a] != 0|
    decreases |order|
  {
    var all := set a | a in order && b[a] != 0;
    if order == [] {
      assert all == {};
    } else {
      DistinctTail(order);
      NonZeroCount(order[1..], b);
      var rest := set a | a in order[1..] && b[a] != 0;
      assert all == if b[order[0]] != 0 then rest + {order[0]} else rest;
    }
  }

  lemma OperationsOf(a: Account, newAccount: Address, oldAccount: Address, order: seq<Asset>, bootstrapXlm: int)
    requires (forall x :: x in a.lines ==> !IsNative(x)) && Enumerates(order, BalancesOf(a))
    ensures |RotationOperations(newAccount, oldAccount, order, BalancesOf(a), bootstrapXlm)| == Operations(a)
  {
    var b := BalancesOf(a);
    BalancesOfAccount(a);
    CreditCount(b);
    RotationSize(newAccount, oldAccount, order, b, bootstrapXlm);
    NonZeroCount(order, b);
    assert forall x :: x in order <==> x in CreditLines(b);
    hide IsNative, RotationOperations, OneNative;
    assert (set x | x in order && b[x] != 0) == set x | x in a.lines && a.lines[x] != 0;
  }

  class DistributionAccountService {
    const nativeAssetBootstrapAmount: int
    var ledger: Accounts
    var vault: set<Address>
    var tenant: Address
    // What the network has been sent and what it has applied.
    var sent: set<Transaction>
    var applied: set<Transaction>
    ghost var ours: set<Address>
    ghost var phase: Phase
    // Every step so far, and the state it led to.
    ghost const start: World
    ghost var run: seq<Event>

    ghost function Now(): World
      reads this
    {
      World(ledger, vault, tenant, ours, start.first, sent, applied, phase)
    }

    ghost predicate Valid()
      reads this
    {
      IsRun(start, run) && At(start, run, |run|) == Now()
    }

    constructor (bootstrapXlm: int, ledger: Accounts, account: Address)
      requires ValidLedger(ledger) && account in ledger
      ensures Valid() && nativeAssetBootstrapAmount == bootstrapXlm
      ensures Now() == World(ledger, {account}, account, {account}, account, {}, {}, Idle) && run == []
    {
      nativeAssetBootstrapAmount := bootstrapXlm;
      this.ledger, vault, tenant := ledger, {account}, account;
      sent, applied, ours, phase := {}, {}, {account}, Idle;
      start, run := World(ledger, {account}, account, {account}, account, {}, {}, Idle), [];
    }

    // Appends the current state, reached by `step`, to the run.
    ghost method Record(step: Step)
      requires IsRun(start, run)
      requires Take(At(start, run, |run|), step, Now())
      modifies this`run
      ensures Valid() && run == old(run) + [Event(step, Now())]
    {
      hide Take, Start;
      run := run + [Event(step, Now())];
      assert forall i :: 0 <= i < |run| ==> At(start, run, i) == At(start, old(run), i);
    }

    lemma Always()
      requires Valid()
      ensures Safe(Now()) && tenant in vault && ValidLedger(ledger)
    {
      AlwaysSafe(start, run, |run|);
    }

    // The rest of the world acts for a while: the ledger may change in any way that the steps of the
    // environment and late applications allow.  Callers know only the contract, so all of it is covered.
    method EnvironmentActs()
      requires Valid()
      modifies this
      ensures Valid() && old(run) <= run
      ensures vault == old(vault) && tenant == old(tenant) && ours == old(ours) && phase == old(phase)
      ensures old(applied) <= applied && sent + applied == old(sent + applied)
    {
      Always();
      Record(Environment);
    }

    // Any error leads here; what took effect before stays.
    ghost method Stop()
      requires Valid()
      modifies this`phase, this`run
      ensures Valid() && old(run) <= run && phase == Idle
    {
      hide Run, WellFormed, ValidLedger;
      phase := Idle;
      Record(Abort);
    }

    // submitterEngine.BatchInsert: a freshly generated key pair goes into the vault.
    method InsertNewKey(newAccount: Address, call: Call)
      requires Valid() && phase == Idle && newAccount !in ours
      modifies this
      ensures Valid() && old(run) <= run
      ensures tenant == old(tenant) && ledger == old(ledger) && sent == old(sent) && applied == old(applied)
      ensures vault == if call.TakesEffect() then old(vault) + {newAccount} else old(vault)
      ensures phase == if call == Succeeds then Inserted(tenant, newAccount) else Idle
    {
      if call.TakesEffect() {
        vault := vault + {newAccount};
        ours := ours + {newAccount};
        phase := if call == Succeeds then Inserted(tenant, newAccount) else Idle;
        Record(InsertKey(newAccount, call == Succeeds));
      }
    }

    // tenantManager.UpdateTenantConfig
    method UpdateTenantConfig(newAccount: Address, call: Call)
      requires Valid() && phase.Submitted? && phase.newAccount == newAccount
      modifies this
      ensures Valid() && old(run) <= run
      ensures vault == old(vault) && ledger == old(ledger) && sent == old(sent) && applied == old(applied)
      ensures tenant == if call.TakesEffect() then newAccount else old(tenant)
      ensures phase == if call == Succeeds then Repointed(old(phase).oldAccount, newAccount) else Idle
    {
      hide Run, WellFormed, ValidLedger;
      ghost var was := phase;
      if call.TakesEffect() {
        tenant := newAccount;
        phase := if call == Succeeds then Repointed(was.oldAccount, newAccount) else Idle;
        Record(Repoint(call == Succeeds));
      } else {
        Stop();
      }
    }

    // submitterEngine.Delete: nothing is looked at before.
    method DeleteOldKey(oldAccount: Address, call: Call)
      requires Valid() && phase.Repointed? && phase.oldAccount == oldAccount
      modifies this
      ensures Valid() && old(run) <= run && phase == Idle
      ensures tenant == old(tenant) && ledger == old(ledger) && sent == old(sent) && applied == old(applied)
      ensures vault == if call.TakesEffect() then old(vault) - {oldAccount} else old(vault)
    {
      hide Run, WellFormed, ValidLedger;
      if call.TakesEffect() {
        vault := vault - {oldAccount};
        phase := Idle;
        Record(DeleteKey);
      } else {
        Stop();
      }
    }

    // All transactions that are new are from one account to one other, with the configured amount, and fit.
    ghost predicate OnlyFromTo(before: set<Transaction>, oldAccount: Address, newAccount: Address)
      reads this
    {
      forall tx :: tx in sent + applied && tx !in before ==>
        && tx.oldAccount == oldAccount && tx.newAccount == newAccount
        && tx.bootstrapXlm == nativeAssetBootstrapAmount && |tx.operations| <= 100
    }

    // Which outcome it is, up to the submission, since state `from` of the run.
    ghost predicate Creates(o: Outcome<RotationError>, oldAccount: Address, newAccount: Address, faults: Faults, from: nat)
      reads this
    {
      && (o == Failed(InsertingKey) <==> faults.insert != Succeeds)
      && (faults.insert == Succeeds && !faults.readBalances ==> o == Failed(GettingBalances))
      && (faults.insert == Succeeds && faults.readBalances && !faults.prepare ==>
            o == Failed(GettingBalances) || o == Failed(PreparingTransaction))
      && (o == Failed(GettingBalances) ==> !faults.readBalances || OffLedger(start, run, from, oldAccount))
      && (o == Failed(PreparingTransaction) ==> faults.readBalances && (!faults.prepare || TooManyLines(start, run, from, oldAccount)))
      && (o == Failed(SubmittingTransaction) ==>
            && faults.readBalances && faults.prepare
            && (faults.submit != Succeeds
                || (NetworkRefuses(start, run, from, oldAccount, newAccount) && !MovedIn(applied, oldAccount, newAccount))))
      && (o.Failed? ==> o.error in {InsertingKey, GettingBalances, PreparingTransaction, SubmittingTransaction})
      && (o.Done? ==> faults.readBalances && faults.prepare && faults.submit == Succeeds)
    }

    /**
     Which outcome a rotation has.  Only accounts in the database's vault are rotated; the first call that
     fails decides the error; and where no call fails, only an old account off the ledger, one with too many
     trustlines, or a transaction that the ledger does not take keeps the rotation from being done.
     */
    ghost predicate Answers(o: Outcome<RotationError>, inDbVault: bool, oldAccount: Address, newAccount: Address, faults: Faults, from: nat)
      reads this
    {
      && (o == Failed(UnsupportedAccountType) <==> !inDbVault)
      && (inDbVault ==>
            var created := if o.Failed? && !o.error.AfterSubmission() then o else Done;
            && Creates(created, oldAccount, newAccount, faults, from)
            && (created.Done? ==>
                  && (o == Failed(NoTenantInContext) <==> !faults.tenantContext)
                  && (o == Failed(UpdatingTenant) <==> faults.tenantContext && faults.repoint != Succeeds)
                  && (o == Failed(DeletingOldKey) <==> faults.tenantContext && faults.repoint == Succeeds && faults.delete != Succeeds)))
    }

    // What a rotation that ends with `o` leaves, other than the funds.
    ghost predicate Leaves(o: Outcome<RotationError>, faults: Faults, before: World, newAccount: Address)
      reads this
    {
      var moved := MovedIn(applied, before.tenant, newAccount);
      match o
      case Done =>
        moved && tenant == newAccount && vault == before.vault + {newAccount} - {before.tenant}
      case Failed(DeletingOldKey) =>
        moved && tenant == newAccount && vault == before.vault + {newAccount} - (if faults.delete.TakesEffect() then {before.tenant} else {})
      case Failed(UpdatingTenant) =>
        moved && vault == before.vault + {newAccount} && tenant == if faults.repoint.TakesEffect() then newAccount else before.tenant
      case Failed(NoTenantInContext) =>
        moved && vault == before.vault + {newAccount} && tenant == before.tenant
      case Failed(SubmittingTransaction) =>
        vault == before.vault + {newAccount} && tenant == before.tenant
      case Failed(InsertingKey) =>
        !moved && tenant == before.tenant && vault == before.vault + (if faults.insert.TakesEffect() then {newAccount} else {})
      case Failed(UnsupportedAccountType) =>
        !moved && tenant == before.tenant && vault == before.vault
      case Failed(_) =>
        !moved && tenant == before.tenant && vault == before.vault + {newAccount}
    }

    /**
     One rotation, with the world acting between any two of its calls; `newAccount` is the address of a
     freshly generated key pair.  It says what every way of ending leaves.  As to the funds: if the tenant
     pointed to them and nothing sent earlier was left over, they are in the new account exactly if the
     transaction was applied, and the tenant points to them exactly if it moved or they did not.
     */
    method RotateDistributionAccount(inDbVault: bool, newAccount: Address, faults: Faults) returns (o: Outcome<RotationError>)
      requires Valid() && phase == Idle && newAccount !in ours
      modifies this
      ensures Valid() && old(run) <= run && phase == Idle
      ensures Leaves(o, faults, old(Now()), newAccount)
      ensures OnlyFromTo(old(sent + applied), old(tenant), newAccount)
      ensures o.Failed? && o.error.BeforeSending() ==> sent + applied == old(sent + applied)
      ensures Answers(o, inDbVault, old(tenant), newAccount, faults, old(|run|))
      ensures o.Done? ==> inDbVault && faults == Faults(Succeeds, true, true, Succeeds, true, Succeeds, Succeeds)
      ensures old(sent) == {} && old(Together(start, run, |run|)) ==>
                && Holder(start, run, |run|) == (if MovedIn(applied, old(tenant), newAccount) then newAccount else old(tenant))
                && (Together(start, run, |run|) <==> tenant == newAccount || !MovedIn(applied, old(tenant), newAccount))
    {
      hide Take, IsRun, MovedIn, Safe, Holder;
      ghost var before := Now();
      TenantIsOurs();
      o := RotateBody(inDbVault, newAccount, faults);
      if before.sent == {} && Together(start, old(run), |old(run)|) {
        OneRotation(start, old(run), run, before.tenant, newAccount);
      }
    }

    method RotateBody(inDbVault: bool, newAccount: Address, faults: Faults) returns (o: Outcome<RotationError>)
      requires Valid() && phase == Idle && newAccount !in ours
      modifies this
      ensures Valid() && old(run) <= run && phase == Idle
      ensures Leaves(o, faults, old(Now()), newAccount)
      ensures OnlyFromTo(old(sent + applied), old(tenant), newAccount)
      ensures o.Failed? && o.error.BeforeSending() ==> sent + applied == old(sent + applied)
      ensures Answers(o, inDbVault, old(tenant), newAccount, faults, old(|run|))
    {
      hide Take, IsRun, MovedIn, Safe, At, ValidLedger, OffLedger, TooManyLines, NetworkRefuses;
      var oldAccount := tenant;
      Always();
      NotMovedIn(newAccount);
      if !inDbVault {
        return Failed(UnsupportedAccountType);
      }
      o := CreateNewStellarAccountFromAccount(oldAccount, newAccount, faults);
      if o.Failed? {
        return;
      }
      o := RepointAndDelete(oldAccount, newAccount, faults);
    }

    // The last two steps.
    method RepointAndDelete(oldAccount: Address, newAccount: Address, faults: Faults) returns (o: Outcome<RotationError>)
      requires Valid() && phase == Submitted(oldAccount, newAccount) && tenant == oldAccount && MovedIn(applied, oldAccount, newAccount)
      modifies this
      ensures Valid() && old(run) <= run && phase == Idle && MovedIn(applied, oldAccount, newAccount)
      ensures sent + applied == old(sent + applied)
      ensures tenant == if faults.tenantContext && faults.repoint.TakesEffect() then newAccount else oldAccount
      ensures vault == old(vault) - if faults.tenantContext && faults.repoint == Succeeds && faults.delete.TakesEffect() then {oldAccount} else {}
      ensures o.Failed? ==> o.error in {NoTenantInContext, UpdatingTenant, DeletingOldKey}
      ensures o == Failed(NoTenantInContext) <==> !faults.tenantContext
      ensures o == Failed(UpdatingTenant) <==> faults.tenantContext && faults.repoint != Succeeds
      ensures o == Failed(DeletingOldKey) <==> faults.tenantContext && faults.repoint == Succeeds && faults.delete != Succeeds
    {
      hide Take, IsRun, MovedIn, Safe, At, ValidLedger;
      if !faults.tenantContext {
        Stop();
        return Failed(NoTenantInContext);
      }
      ghost var moved := applied;
      EnvironmentActs();
      MovedInMore(moved, applied, oldAccount, newAccount);
      UpdateTenantConfig(newAccount, faults.repoint);
      if faults.repoint != Succeeds {
        return Failed(UpdatingTenant);
      }
      moved := applied;
      EnvironmentActs();
      MovedInMore(moved, applied, oldAccount, newAccount);
      DeleteOldKey(oldAccount, faults.delete);
      if faults.delete != Succeeds {
        return Failed(DeletingOldKey);
      }
      return Done;
    }

    lemma NotMovedIn(newAccount: Address)
      requires Valid() && newAccount !in ours
      ensures forall txs :: txs <= sent + applied ==> !MovedIn(txs, tenant, newAccount)
    {
      AlwaysSafe(start, run, |run|);
      hide IsRun, ValidLedger, WellFormed;
    }

    method CreateNewStellarAccountFromAccount(oldAccount: Address, newAccount: Address, faults: Faults)
      returns (o: Outcome<RotationError>)
      requires Valid() && phase == Idle && newAccount !in ours && oldAccount == tenant && oldAccount in vault
      modifies this
      ensures Valid() && old(run) <= run
      ensures tenant == old(tenant)
      ensures vault == old(vault) + (if o == Failed(InsertingKey) && !faults.insert.TakesEffect() then {} else {newAccount})
      ensures OnlyFromTo(old(sent + applied), oldAccount, newAccount)
      ensures o.Failed? ==> phase == Idle && (o.error.BeforeSending() ==> sent + applied == old(sent + applied))
      ensures Creates(o, oldAccount, newAccount, faults, old(|run|))
      ensures o.Done? ==>
                && oldAccount != newAccount && phase == Submitted(oldAccount, newAccount) && MovedIn(applied, oldAccount, newAccount)
    {
      hide Take, IsRun, MovedIn, Safe, OffLedger, TooManyLines, NetworkRefuses;
      TenantIsOurs();
      NotMovedIn(newAccount);
      InsertNewKey(newAccount, faults.insert);
      if faults.insert != Succeeds {
        return Failed(InsertingKey);
      }
      ghost var inserted := run;
      o := SubmitRotation(oldAccount, newAccount, faults);
      Since(start, run, |inserted|, |old(run)|, oldAccount, newAccount);
    }

    // The steps after the new key is in the vault.
    method SubmitRotation(oldAccount: Address, newAccount: Address, faults: Faults) returns (o: Outcome<RotationError>)
      requires Valid() && phase == Inserted(oldAccount, newAccount) && oldAccount in vault && newAccount in vault && oldAccount != newAccount
      requires faults.insert == Succeeds && !MovedIn(sent + applied, oldAccount, newAccount)
      modifies this
      ensures Valid() && old(run) <= run && tenant == old(tenant) && vault == old(vault)
      ensures OnlyFromTo(old(sent + applied), oldAccount, newAccount)
      ensures o.Failed? ==> phase == Idle && (o.error.BeforeSending() ==> sent + applied == old(sent + applied))
      ensures Creates(o, oldAccount, newAccount, faults, old(|run|))
      ensures o.Done? ==> phase == Submitted(oldAccount, newAccount) && MovedIn(applied, oldAccount, newAccount)
    {
      hide Take, IsRun, MovedIn, Safe, Run, RotationOperations, Enumerates, OneNative, OffLedger, TooManyLines, NetworkRefuses, SomeRefused, Operations;
      EnvironmentActs();
      Always();
      ghost var read := run;
      if !faults.readBalances || oldAccount !in ledger {
        Stop();
        Saw(start, read, run, |old(run)|, oldAccount, newAccount);
        return Failed(GettingBalances);
      }
      var balances := BalancesOf(ledger[oldAccount]);
      BalancesOfAccount(ledger[oldAccount]);
      var operations, order := BuildOperations(oldAccount, newAccount, balances);
      OperationsOf(ledger[oldAccount], newAccount, oldAccount, order, nativeAssetBootstrapAmount);
      var tx := Transaction(oldAccount, newAccount, operations, balances, nativeAssetBootstrapAmount);
      assert InOrder(tx, order);
      // The ledger may move after the balances were read.
      EnvironmentActs();
      if !faults.prepare || |operations| > MAX_OPERATIONS {
        Stop();
        Saw(start, read, run, |old(run)|, oldAccount, newAccount);
        return Failed(PreparingTransaction);
      }
      ghost var signed := run;
      o := SendAndAwait(tx, faults.submit);
      Since(start, run, |signed|, |old(run)|, oldAccount, newAccount);
    }

    method SendAndAwait(tx: Transaction, call: Call) returns (o: Outcome<RotationError>)
      requires Valid() && phase == Inserted(tx.oldAccount, tx.newAccount) && WellFormed(tx)
      requires tx.oldAccount in vault && tx.newAccount in vault && !MovedIn(sent + applied, tx.oldAccount, tx.newAccount)
      modifies this
      ensures Valid() && old(run) <= run && vault == old(vault) && tenant == old(tenant) && ours == old(ours)
      ensures sent + applied == old(sent + applied) + {tx}
      ensures o.Done? ==> call == Succeeds && phase == Submitted(tx.oldAccount, tx.newAccount) && MovedIn(applied, tx.oldAccount, tx.newAccount)
      ensures o.Failed? ==> phase == Idle && o.error == SubmittingTransaction
      ensures o.Failed? && call == Succeeds ==>
                NetworkRefuses(start, run, old(|run|), tx.oldAccount, tx.newAccount) && !MovedIn(applied, tx.oldAccount, tx.newAccount)
    {
      hide Take, IsRun, MovedIn, Safe, Run, WellFormed, NetworkRefuses, SomeRefused;
      ghost var before := sent + applied;
      SendTransaction(tx);
      EnvironmentActs();
      ghost var waiting := run;
      o := AwaitResult(tx, call);
      Saw(start, waiting, run, |old(run)|, tx.oldAccount, tx.newAccount);
      if tx !in applied {
        assert applied <= before;
        MovedInMore(applied, before, tx.oldAccount, tx.newAccount);
      }
    }

    lemma TenantIsOurs()
      requires Valid()
      ensures tenant in ours
    {
      AlwaysSafe(start, run, |run|);
    }

    method BuildOperations(oldAccount: Address, newAccount: Address, balances: Balances)
      returns (operations: seq<Operation>, ghost order: seq<Asset>)
      ensures Enumerates(order, balances)
      ensures operations == RotationOperations(newAccount, oldAccount, order, balances, nativeAssetBootstrapAmount)
    {
      var numberOfTrustlines := |balances| - 1;
      operations := [BuildCreateAccountOperation(newAccount, nativeAssetBootstrapAmount, numberOfTrustlines)];
      var mergeOps := BuildMergeAccountsOperations(newAccount, oldAccount, balances);
      ghost var o :| Enumerates(o, balances)
                     && mergeOps == AllLineOperations(newAccount, oldAccount, o, balances) + [AccountMerge(newAccount)];
      order := o;
      operations := operations + mergeOps;
    }

    method SendTransaction(tx: Transaction)
      requires Valid() && phase == Inserted(tx.oldAccount, tx.newAccount) && WellFormed(tx)
      requires tx.oldAccount in vault && tx.newAccount in vault
      modifies this
      ensures Valid() && old(run) <= run && phase == Sent(tx)
      ensures vault == old(vault) && tenant == old(tenant) && ours == old(ours)
      ensures sent == old(sent) + {tx} && applied == old(applied)
    {
      sent := sent + {tx};
      phase := Sent(tx);
      Record(Send(tx));
    }

    // The network applies the transaction, or does not; it reports success only of what it applied.
    method AwaitResult(tx: Transaction, call: Call) returns (o: Outcome<RotationError>)
      requires Valid() && phase == Sent(tx) && WellFormed(tx)
      modifies this
      ensures Valid() && old(run) <= run
      ensures vault == old(vault) && tenant == old(tenant) && ours == old(ours)
      ensures o.Done? ==> phase == Submitted(tx.oldAccount, tx.newAccount) && MovedIn(applied, tx.oldAccount, tx.newAccount)
      ensures sent + applied == old(sent + applied)
      ensures o.Failed? ==> phase == Idle && o.error == SubmittingTransaction
      ensures o.Done? ==> call == Succeeds
      ensures o.Failed? && call == Succeeds ==> tx !in applied && SomeRefused(old(Now()), tx.oldAccount, tx.newAccount)
    {
      hide Take, IsRun, Run, WellFormed;
      SentOrApplied(tx);
      if call.TakesEffect() && tx in sent {
        var l := Run(ledger, tx.oldAccount, tx.operations);
        if l.Some? {
          TakeApplied(tx, l.value);
        }
      }
      if call != Succeeds || tx !in applied {
        Stop();
        return Failed(SubmittingTransaction);
      }
      TakeConfirmed(tx);
      return Done;
    }

    lemma SentOrApplied(tx: Transaction)
      requires Valid() && phase == Sent(tx)
      ensures tx in sent + applied
    {
      AlwaysSafe(start, run, |run|);
    }

    method TakeApplied(tx: Transaction, l: Accounts)
      requires Valid() && phase == Sent(tx) && WellFormed(tx) && tx in sent && Run(ledger, tx.oldAccount, tx.operations) == Some(l)
      modifies this
      ensures Valid() && old(run) <= run
      ensures vault == old(vault) && tenant == old(tenant) && ours == old(ours) && phase == old(phase) && tx in applied
      ensures sent + applied == old(sent + applied)
    {
      hide IsRun, Run, WellFormed;
      ledger := l;
      sent, applied := sent - {tx}, applied + {tx};
      Record(Apply(tx));
    }

    ghost method TakeConfirmed(tx: Transaction)
      requires Valid() && phase == Sent(tx) && tx in applied
      modifies this`phase, this`run
      ensures Valid() && old(run) <= run && phase == Submitted(tx.oldAccount, tx.newAccount)
      ensures MovedIn(applied, tx.oldAccount, tx.newAccount)
    {
      hide IsRun, Run, WellFormed;
      phase := Submitted(tx.oldAccount, tx.newAccount);
      Record(Confirm);
    }
  }
}

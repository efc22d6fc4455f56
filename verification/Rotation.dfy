/**
 The transaction that rotates a tenant's distribution account: the operations that move everything an
 account holds to a new account, and exactly when the ledger accepts them.
 */
module Rotation {
  import opened Wrappers
  import opened Sequences
  import opened GoStrings
  import opened Ledger

  // ---------------------------------------------------------------- building the transaction

  predicate IsNative(a: Asset) {
    IsBlank(a.issuer) && (a.code == "XLM" || a.code == "NATIVE")
  }

  const XLM: Asset := Asset("XLM", "")

  type Balances = map<Asset, nat>

  // The credit part of a balance map: the trustlines an account with these balances has.
  function CreditLines(b: Balances): map<Asset, nat> {
    map a | a in b && !IsNative(a) :: b[a]
  }

  ghost predicate OneNative(b: Balances) {
    exists x :: x in b && IsNative(x) && forall y :: y in b && IsNative(y) ==> y == x
  }

  // The amount, in stroops, the new account starts with.
  function FundingAmount(bootstrapXlm: int, numberOfTrustlines: int): int {
    var minimum := Reserves(2) + Reserves(numberOfTrustlines);
    var bootstrap := bootstrapXlm * STROOPS_PER_XLM;
    if bootstrap < minimum then minimum else bootstrap
  }

  // The operations that move one trustline from the old account to the new one.
  function LineOperations(newAccount: Address, oldAccount: Address, asset: Asset, balance: nat): seq<Operation> {
    [ChangeTrust(newAccount, asset, false)]
    + (if balance != 0 then [Payment(newAccount, asset, balance)] else [])
    + [ChangeTrust(oldAccount, asset, true)]
  }

  // The operations that move all the trustlines of `order`, in that order.
  function AllLineOperations(newAccount: Address, oldAccount: Address, order: seq<Asset>, b: Balances): (ops: seq<Operation>)
    requires forall a :: a in order ==> a in b
  {
    if order == [] then []
    else LineOperations(newAccount, oldAccount, order[0], b[order[0]])
         + AllLineOperations(newAccount, oldAccount, order[1..], b)
  }

  lemma {:induction false} AllLineOperationsAppend(newAccount: Address, oldAccount: Address, order: seq<Asset>, a: Asset, b: Balances)
    requires forall x :: x in order + [a] ==> x in b
    ensures forall x :: x in order ==> x in order + [a]
    ensures a in order + [a]
    ensures AllLineOperations(newAccount, oldAccount, order + [a], b) ==
            AllLineOperations(newAccount, oldAccount, order, b) + LineOperations(newAccount, oldAccount, a, b[a])
  {
    assert forall i :: 0 <= i < |order| ==> order[i] == (order + [a])[i];
    assert (order + [a])[|order|] == a;
    if order == [] {
      assert [a][1..] == [];
    } else {
      assert (order + [a])[1..] == order[1..] + [a];
      AllLineOperationsAppend(newAccount, oldAccount, order[1..], a, b);
    }
  }

  // An iteration order of the balance map, with the native entry skipped.
  ghost predicate Enumerates(order: seq<Asset>, b: Balances) {
    Distinct(order) && forall a :: a in order <==> a in b && !IsNative(a)
  }

  function BuildCreateAccountOperation(newAccount: Address, bootstrapXlm: int, numberOfTrustlines: int): Operation {
    CreateAccount(newAccount, FundingAmount(bootstrapXlm, numberOfTrustlines))
  }

  method BuildMergeAccountsOperations(newAccount: Address, oldAccount: Address, balances: Balances)
    returns (mergeOps: seq<Operation>)
    ensures exists order ::
              && Enumerates(order, balances)
              && mergeOps == AllLineOperations(newAccount, oldAccount, order, balances) + [AccountMerge(newAccount)]
  {
    mergeOps := [];
    ghost var order: seq<Asset> := [];
    var remaining := balances.Keys;
    while remaining != {}
      invariant remaining <= balances.Keys
      invariant Distinct(order)
      invariant forall a :: a in order <==> a in balances.Keys - remaining && !IsNative(a)
      invariant mergeOps == AllLineOperations(newAccount, oldAccount, order, balances)
    {
      var asset :| asset in remaining;
      remaining := remaining - {asset};
      if IsNative(asset) {
        continue;
      }
      AllLineOperationsAppend(newAccount, oldAccount, order, asset, balances);
      order := order + [asset];
      var balance := balances[asset];
      ghost var before := mergeOps;
      mergeOps := mergeOps + [ChangeTrust(newAccount, asset, false)];
      if balance != 0 {
        mergeOps := mergeOps + [Payment(newAccount, asset, balance)];
      }
      mergeOps := mergeOps + [ChangeTrust(oldAccount, asset, true)];
      assert mergeOps == before + LineOperations(newAccount, oldAccount, asset, balance);
    }
    mergeOps := mergeOps + [AccountMerge(newAccount)];
  }

  // ---------------------------------------------------------------- running the transaction

  // The ledger once the trustlines of `moved` went from the old account to the new one.
  ghost function AfterMove(l: Accounts, newAccount: Address, oldAccount: Address, moved: map<Asset, nat>): Accounts
    requires newAccount in l && oldAccount in l
  {
    l[newAccount := l[newAccount].(lines := l[newAccount].lines + moved)]
     [oldAccount := l[oldAccount].(lines := l[oldAccount].lines - moved.Keys)]
  }

  lemma AfterMoveCompose(l: Accounts, newAccount: Address, oldAccount: Address, one: map<Asset, nat>, more: map<Asset, nat>)
    requires newAccount in l && oldAccount in l && newAccount != oldAccount
    ensures AfterMove(AfterMove(l, newAccount, oldAccount, one), newAccount, oldAccount, more) ==
            AfterMove(l, newAccount, oldAccount, one + more)
  {
    var l1 := AfterMove(l, newAccount, oldAccount, one);
    assert l1[newAccount].lines + more == l[newAccount].lines + (one + more);
    assert l1[oldAccount].lines - more.Keys == l[oldAccount].lines - (one + more).Keys;
  }

  // The ledger once the new account has the trustline and the whole balance is paid over.
  ghost function Paid(l: Accounts, newAccount: Address, oldAccount: Address, asset: Asset, balance: nat): Accounts
    requires newAccount in l && oldAccount in l
  {
    l[newAccount := l[newAccount].(lines := l[newAccount].lines[asset := balance])]
     [oldAccount := l[oldAccount].(lines := l[oldAccount].lines[asset := 0])]
  }

  lemma RemovePaidLine(l: Accounts, newAccount: Address, oldAccount: Address, asset: Asset, balance: nat)
    requires newAccount in l && oldAccount in l && newAccount != oldAccount && asset in l[oldAccount].lines
    ensures ApplyRemoveLine(Paid(l, newAccount, oldAccount, asset, balance), oldAccount, asset) ==
            Some(AfterMove(l, newAccount, oldAccount, map[asset := balance]))
  {
    var paid := Paid(l, newAccount, oldAccount, asset, balance);
    assert l[newAccount].lines[asset := balance] == l[newAccount].lines + map[asset := balance];
    assert paid[oldAccount].lines - {asset} == l[oldAccount].lines - map[asset := balance].Keys;
    assert paid[oldAccount := paid[oldAccount].(lines := paid[oldAccount].lines - {asset})] ==
           AfterMove(l, newAccount, oldAccount, map[asset := balance]);
  }

  lemma PayLine(l: Accounts, newAccount: Address, oldAccount: Address, asset: Asset, balance: nat)
    requires newAccount in l && oldAccount in l && newAccount != oldAccount && balance != 0
    requires asset !in l[newAccount].lines
    ensures var withLine := l[newAccount := l[newAccount].(lines := l[newAccount].lines[asset := 0])];
            ApplyPayment(withLine, oldAccount, newAccount, asset, balance) ==
            if asset in l[oldAccount].lines && l[oldAccount].lines[asset] >= balance then
              Some(l[newAccount := l[newAccount].(lines := l[newAccount].lines[asset := balance])]
                    [oldAccount := l[oldAccount].(lines := l[oldAccount].lines[asset := l[oldAccount].lines[asset] - balance])])
            else None
  {
    assert l[newAccount].lines[asset := 0][asset := balance] == l[newAccount].lines[asset := balance];
    var withLine := l[newAccount := l[newAccount].(lines := l[newAccount].lines[asset := 0])];
    if asset in l[oldAccount].lines && l[oldAccount].lines[asset] >= balance {
      assert ApplyPayment(withLine, oldAccount, newAccount, asset, balance).value ==
             l[newAccount := l[newAccount].(lines := l[newAccount].lines[asset := balance])]
              [oldAccount := l[oldAccount].(lines := l[oldAccount].lines[asset := l[oldAccount].lines[asset] - balance])];
    }
  }

  lemma RunOne(l: Accounts, source: Address, op: Operation)
    ensures Run(l, source, [op]) == Apply(l, source, op)
  {
    assert [op][1..] == [];
  }

  /** Moving one trustline succeeds exactly when the old account holds exactly that balance. */
  lemma RunLine(l: Accounts, newAccount: Address, oldAccount: Address, asset: Asset, balance: nat)
    requires newAccount in l && oldAccount in l && newAccount != oldAccount
    requires asset !in l[newAccount].lines
    requires l[newAccount].native >= l[newAccount].MinBalance() + Reserves(1)
    ensures Run(l, oldAccount, LineOperations(newAccount, oldAccount, asset, balance)) ==
            if asset in l[oldAccount].lines && l[oldAccount].lines[asset] == balance then
              Some(AfterMove(l, newAccount, oldAccount, map[asset := balance]))
            else None
  {
    var pay := if balance != 0 then [Payment(newAccount, asset, balance)] else [];
    var remove := [ChangeTrust(oldAccount, asset, true)];
    var withLine := l[newAccount := l[newAccount].(lines := l[newAccount].lines[asset := 0])];
    RunAppend(l, oldAccount, [ChangeTrust(newAccount, asset, false)] + pay, remove);
    RunAppend(l, oldAccount, [ChangeTrust(newAccount, asset, false)], pay);
    RunOne(l, oldAccount, ChangeTrust(newAccount, asset, false));
    assert Apply(l, oldAccount, ChangeTrust(newAccount, asset, false)) == Some(withLine);
    RunLineEnd(l, withLine, newAccount, oldAccount, asset, balance, pay);
  }

  lemma RunLineEnd(l: Accounts, withLine: Accounts, newAccount: Address, oldAccount: Address, asset: Asset, balance: nat, pay: seq<Operation>)
    requires newAccount in l && oldAccount in l && newAccount != oldAccount
    requires asset !in l[newAccount].lines
    requires withLine == l[newAccount := l[newAccount].(lines := l[newAccount].lines[asset := 0])]
    requires pay == if balance != 0 then [Payment(newAccount, asset, balance)] else []
    ensures (match Run(withLine, oldAccount, pay)
             case None => None
             case Some(l') => Run(l', oldAccount, [ChangeTrust(oldAccount, asset, true)])) ==
            if asset in l[oldAccount].lines && l[oldAccount].lines[asset] == balance then
              Some(AfterMove(l, newAccount, oldAccount, map[asset := balance]))
            else None
  {
    var paid := Run(withLine, oldAccount, pay);
    var held := asset in l[oldAccount].lines && l[oldAccount].lines[asset] == balance;
    if balance != 0 {
      RunOne(withLine, oldAccount, pay[0]);
      PayLine(l, newAccount, oldAccount, asset, balance);
    } else {
      assert paid == Some(withLine);
    }
    if paid.Some? {
      RunOne(paid.value, oldAccount, ChangeTrust(oldAccount, asset, true));
      if held {
        RemovePaidLine(l, newAccount, oldAccount, asset, balance);
        assert l[oldAccount].lines[asset := 0] == paid.value[oldAccount].lines;
        assert paid.value == Paid(l, newAccount, oldAccount, asset, balance);
      }
    }
  }

  // The old account holds every asset of `order` in exactly the amount the balance map says.
  ghost predicate HoldsAll(lines: map<Asset, nat>, order: seq<Asset>, b: Balances)
    requires forall a :: a in order ==> a in b
  {
    forall a :: a in order ==> a in lines && lines[a] == b[a]
  }

  ghost function Moved(order: seq<Asset>, b: Balances): map<Asset, nat>
    requires forall a :: a in order ==> a in b
  {
    map a | a in order :: b[a]
  }

  lemma MovedCons(order: seq<Asset>, b: Balances)
    requires order != [] && forall a :: a in order ==> a in b
    ensures Moved(order, b) == map[order[0] := b[order[0]]] + Moved(order[1..], b)
  {
    assert forall a :: a in order <==> a == order[0] || a in order[1..];
  }

  /** Moving all the trustlines of an order succeeds exactly when the old account holds them all. */
  lemma {:induction false} RunAllLines(l: Accounts, newAccount: Address, oldAccount: Address, order: seq<Asset>, b: Balances)
    requires newAccount in l && oldAccount in l && newAccount != oldAccount
    requires Distinct(order) && forall a :: a in order ==> a in b && a !in l[newAccount].lines
    requires l[newAccount].native >= l[newAccount].MinBalance() + Reserves(|order|)
    ensures Run(l, oldAccount, AllLineOperations(newAccount, oldAccount, order, b)) ==
            if HoldsAll(l[oldAccount].lines, order, b) then Some(AfterMove(l, newAccount, oldAccount, Moved(order, b)))
            else None
    decreases |order|
  {
    if order == [] {
      assert l[newAccount].lines + Moved(order, b) == l[newAccount].lines;
      assert l[oldAccount].lines - Moved(order, b).Keys == l[oldAccount].lines;
      assert l == AfterMove(l, newAccount, oldAccount, Moved(order, b));
    } else {
      var a, rest := order[0], order[1..];
      RunFirstLine(l, newAccount, oldAccount, order, b);
      DistinctTail(order);
      if a in l[oldAccount].lines && l[oldAccount].lines[a] == b[a] {
        HoldsRest(l, newAccount, oldAccount, order, b);
        RunAllLines(AfterMove(l, newAccount, oldAccount, map[a := b[a]]), newAccount, oldAccount, rest, b);
        AfterMoveCompose(l, newAccount, oldAccount, map[a := b[a]], Moved(rest, b));
        MovedCons(order, b);
      }
    }
  }

  lemma RunFirstLine(l: Accounts, newAccount: Address, oldAccount: Address, order: seq<Asset>, b: Balances)
    requires newAccount in l && oldAccount in l && newAccount != oldAccount
    requires order != [] && forall a :: a in order ==> a in b && a !in l[newAccount].lines
    requires l[newAccount].native >= l[newAccount].MinBalance() + Reserves(1)
    ensures Run(l, oldAccount, AllLineOperations(newAccount, oldAccount, order, b)) ==
            if order[0] in l[oldAccount].lines && l[oldAccount].lines[order[0]] == b[order[0]] then
              Run(AfterMove(l, newAccount, oldAccount, map[order[0] := b[order[0]]]), oldAccount,
                  AllLineOperations(newAccount, oldAccount, order[1..], b))
            else None
  {
    var a := order[0];
    RunAppend(l, oldAccount, LineOperations(newAccount, oldAccount, a, b[a]), AllLineOperations(newAccount, oldAccount, order[1..], b));
    RunLine(l, newAccount, oldAccount, a, b[a]);
  }

  lemma HoldsRest(l: Accounts, newAccount: Address, oldAccount: Address, order: seq<Asset>, b: Balances)
    requires newAccount in l && oldAccount in l && newAccount != oldAccount
    requires order != [] && Distinct(order) && forall a :: a in order ==> a in b && a !in l[newAccount].lines
    requires order[0] in l[oldAccount].lines && l[oldAccount].lines[order[0]] == b[order[0]]
    ensures var l' := AfterMove(l, newAccount, oldAccount, map[order[0] := b[order[0]]]);
            && newAccount in l' && oldAccount in l'
            && l'[newAccount].native == l[newAccount].native
            && l'[newAccount].MinBalance() == l[newAccount].MinBalance() + Reserves(1)
            && (forall a :: a in order[1..] ==> a in b && a !in l'[newAccount].lines)
            && (HoldsAll(l[oldAccount].lines, order, b) <==> HoldsAll(l'[oldAccount].lines, order[1..], b))
  {
    DistinctTail(order);
    hide Distinct;
    var one := map[order[0] := b[order[0]]];
    HoldsWithout(l[oldAccount].lines, order, b);
    assert (l[newAccount].lines + one).Keys == l[newAccount].lines.Keys + {order[0]};
    assert one.Keys == {order[0]};
  }

  lemma HoldsWithout(lines: map<Asset, nat>, order: seq<Asset>, b: Balances)
    requires order != [] && Distinct(order) && forall a :: a in order ==> a in b
    requires order[0] in lines && lines[order[0]] == b[order[0]]
    ensures HoldsAll(lines, order, b) <==> HoldsAll(lines - {order[0]}, order[1..], b)
  {
    DistinctTail(order);
  }

  // What createNewStellarAccountFromAccount submits for one iteration order of the balances.
  function RotationOperations(newAccount: Address, oldAccount: Address, order: seq<Asset>, b: Balances, bootstrapXlm: int): seq<Operation>
    requires forall a :: a in order ==> a in b
  {
    [BuildCreateAccountOperation(newAccount, bootstrapXlm, |b| - 1)]
    + (AllLineOperations(newAccount, oldAccount, order, b) + [AccountMerge(newAccount)])
  }

  // The condition a caller can read off the ledger before submitting.
  ghost predicate CanRotate(l: Accounts, newAccount: Address, oldAccount: Address, b: Balances, bootstrapXlm: int) {
    && newAccount !in l
    && oldAccount in l
    && l[oldAccount].lines == CreditLines(b)
    && l[oldAccount].otherEntries == 0
    && l[oldAccount].native >= FundingAmount(bootstrapXlm, |b| - 1) + Reserves(2 + |CreditLines(b)|)
  }

  // The old account is gone; the new one holds all it held; no other account changed.
  ghost function Rotated(l: Accounts, newAccount: Address, oldAccount: Address): Accounts
    requires oldAccount in l
  {
    (l - {oldAccount})[newAccount := Account(l[oldAccount].native, l[oldAccount].lines, 0)]
  }

  /** With one native entry, all the other entries are trustlines. */
  lemma CreditCount(b: Balances)
    requires OneNative(b)
    ensures |CreditLines(b)| == |b| - 1
  {
    var x :| x in b && IsNative(x) && forall y :: y in b && IsNative(y) ==> y == x;
    assert CreditLines(b).Keys == b.Keys - {x};
  }

  /**
   The rotation transaction, for any iteration order of the balance map and any ledger at the
   moment it is applied: it succeeds exactly when `CanRotate`, and then it moves everything.
   In particular a balance map that went stale before submission makes it fail as a whole.
   */
  lemma RotationTransaction(l: Accounts, newAccount: Address, oldAccount: Address, order: seq<Asset>, b: Balances, bootstrapXlm: int)
    requires OneNative(b) && Enumerates(order, b)
    ensures Run(l, oldAccount, RotationOperations(newAccount, oldAccount, order, b, bootstrapXlm)) ==
            if CanRotate(l, newAccount, oldAccount, b, bootstrapXlm) then Some(Rotated(l, newAccount, oldAccount)) else None
  {
    CreditCount(b);
    ElementsOfDistinct(order);
    assert Elements(order) == CreditLines(b).Keys;
    var create := BuildCreateAccountOperation(newAccount, bootstrapXlm, |b| - 1);
    var rest := AllLineOperations(newAccount, oldAccount, order, b) + [AccountMerge(newAccount)];
    RunAppend(l, oldAccount, [create], rest);
    RunOne(l, oldAccount, create);
    FundingCovers(bootstrapXlm, |b| - 1);
    hide Run, AllLineOperations, OneNative, IsNative, Enumerates, CreditLines, Rotated, FundingAmount;
    match Apply(l, oldAccount, create)
    case None =>
    case Some(l1) =>
      RunAfterCreate(l, l1, newAccount, oldAccount, order, b);
  }

  function Max(a: int, b: int): (m: int)
    ensures m >= a && m >= b && (m == a || m == b)
  {
    if a >= b then a else b
  }

  /**
   The condition in stroops.  For n trustlines the transaction succeeds if and only if the new address is
   free, the old account has exactly the credit lines that were read and no other entries, and its native
   balance covers the larger of the bootstrap amount and 0.5 * (2 + n) XLM, and its own 0.5 * (2 + n) XLM.
   */
  lemma RotationSucceedsIff(l: Accounts, newAccount: Address, oldAccount: Address, order: seq<Asset>, b: Balances, bootstrapXlm: int)
    requires OneNative(b) && Enumerates(order, b)
    ensures var n := |b| - 1;
            Run(l, oldAccount, RotationOperations(newAccount, oldAccount, order, b, bootstrapXlm)).Some? <==>
              && newAccount !in l && oldAccount in l
              && (forall a :: a in l[oldAccount].lines <==> a in b && !(IsBlank(a.issuer) && (a.code == "XLM" || a.code == "NATIVE")))
              && (forall a :: a in l[oldAccount].lines ==> l[oldAccount].lines[a] == b[a])
              && l[oldAccount].otherEntries == 0
              && l[oldAccount].native >= Max(10_000_000 * bootstrapXlm, 5_000_000 * (2 + n)) + 5_000_000 * (2 + n)
  {
    CreditCount(b);
    RotationTransaction(l, newAccount, oldAccount, order, b, bootstrapXlm);
    FundingIs(bootstrapXlm, |b| - 1);
    if oldAccount in l {
      CreditLinesAre(b, l[oldAccount].lines);
    }
    hide Run, RotationOperations, OneNative, Enumerates, CreditLines, FundingAmount, Rotated, IsBlank;
  }

  lemma CreditLinesAre(b: Balances, lines: map<Asset, nat>)
    ensures lines == CreditLines(b) <==>
              && (forall a :: a in lines <==> a in b && !(IsBlank(a.issuer) && (a.code == "XLM" || a.code == "NATIVE")))
              && forall a :: a in lines ==> lines[a] == b[a]
  {
    hide IsBlank;
  }

  lemma FundingCovers(bootstrapXlm: int, n: int)
    ensures FundingAmount(bootstrapXlm, n) >= Reserves(2 + n)
  {
  }

  lemma FundingIs(bootstrapXlm: int, n: int)
    ensures FundingAmount(bootstrapXlm, n) == Max(10_000_000 * bootstrapXlm, 5_000_000 * (2 + n))
  {
  }

  /**
   Where it succeeds, the account is created with exactly that maximum; in the end it holds all that the
   old account held, which is gone, and every other account is as it was.
   */
  lemma RotationLeaves(l: Accounts, newAccount: Address, oldAccount: Address, order: seq<Asset>, b: Balances, bootstrapXlm: int)
    requires OneNative(b) && Enumerates(order, b)
    requires Run(l, oldAccount, RotationOperations(newAccount, oldAccount, order, b, bootstrapXlm)).Some?
    ensures var operations := RotationOperations(newAccount, oldAccount, order, b, bootstrapXlm);
            && |operations| > 0 && Run(l, oldAccount, operations[..1]).Some?
            && newAccount in Run(l, oldAccount, operations[..1]).value
            && Run(l, oldAccount, operations[..1]).value[newAccount] ==
               Account(Max(10_000_000 * bootstrapXlm, 5_000_000 * (2 + (|b| - 1))), map[], 0)
    ensures var l' := Run(l, oldAccount, RotationOperations(newAccount, oldAccount, order, b, bootstrapXlm)).value;
            && oldAccount in l && oldAccount !in l' && newAccount !in l && newAccount in l'
            && l'[newAccount] == Account(l[oldAccount].native, l[oldAccount].lines, 0)
            && (forall a :: a in l' <==> a == newAccount || (a in l && a != oldAccount))
            && forall a :: a in l && a != oldAccount ==> l'[a] == l[a]
  {
    var operations := RotationOperations(newAccount, oldAccount, order, b, bootstrapXlm);
    FundingIs(bootstrapXlm, |b| - 1);
    CreditCount(b);
    RotationTransaction(l, newAccount, oldAccount, order, b, bootstrapXlm);
    assert operations[..1] == [BuildCreateAccountOperation(newAccount, bootstrapXlm, |b| - 1)];
    RunOne(l, oldAccount, operations[0]);
    hide Run, OneNative, Enumerates, CreditLines, FundingAmount, IsNative, AllLineOperations;
  }

  /** After the new account is funded, only the trustlines and the other entries matter. */
  lemma RunAfterCreate(l: Accounts, l1: Accounts, newAccount: Address, oldAccount: Address, order: seq<Asset>, b: Balances)
    requires Enumerates(order, b) && newAccount !in l && oldAccount in l && newAccount in l1
    requires l1[newAccount] == Account(l1[newAccount].native, map[], 0)
    requires Reserves(2 + |order|) <= l1[newAccount].native <= l[oldAccount].native
    requires l1 == l[oldAccount := l[oldAccount].(native := l[oldAccount].native - l1[newAccount].native)]
                    [newAccount := l1[newAccount]]
    ensures Run(l1, oldAccount, AllLineOperations(newAccount, oldAccount, order, b) + [AccountMerge(newAccount)]) ==
            if l[oldAccount].lines == CreditLines(b) && l[oldAccount].otherEntries == 0 then Some(Rotated(l, newAccount, oldAccount))
            else None
  {
    var lineOps := AllLineOperations(newAccount, oldAccount, order, b);
    assert Moved(order, b) == CreditLines(b);
    assert l1[oldAccount].lines == l[oldAccount].lines;
    hide Run, AllLineOperations, IsNative, Rotated, AfterMove;
    RunAppend(l1, oldAccount, lineOps, [AccountMerge(newAccount)]);
    RunAllLines(l1, newAccount, oldAccount, order, b);
    if HoldsAll(l[oldAccount].lines, order, b) {
      MergeLast(l, l1, newAccount, oldAccount, CreditLines(b));
    }
  }

  /** Merging after all lines moved: it needs the old account to have had those lines and nothing else. */
  lemma MergeLast(l: Accounts, funded: Accounts, newAccount: Address, oldAccount: Address, lines: map<Asset, nat>)
    requires oldAccount in l && newAccount !in l && newAccount in funded && funded[newAccount].native <= l[oldAccount].native
    requires funded[newAccount] == Account(funded[newAccount].native, map[], 0)
    requires funded == l[oldAccount := l[oldAccount].(native := l[oldAccount].native - funded[newAccount].native)]
                        [newAccount := funded[newAccount]]
    requires forall a :: a in lines ==> a in l[oldAccount].lines && l[oldAccount].lines[a] == lines[a]
    ensures Run(AfterMove(funded, newAccount, oldAccount, lines), oldAccount, [AccountMerge(newAccount)]) ==
            if l[oldAccount].lines == lines && l[oldAccount].otherEntries == 0 then Some(Rotated(l, newAccount, oldAccount))
            else None
  {
    var moved := AfterMove(funded, newAccount, oldAccount, lines);
    assert [AccountMerge(newAccount)][1..] == [];
    assert map[] + lines == lines;
    if moved[oldAccount].lines == map[] {
      forall a | a in l[oldAccount].lines ensures a in lines {
        assert a !in moved[oldAccount].lines;
      }
      assert l[oldAccount].lines == lines;
      if l[oldAccount].otherEntries == 0 {
        assert ApplyMerge(moved, oldAccount, newAccount).value == Rotated(l, newAccount, oldAccount);
      }
    } else {
      assert exists a :: a in moved[oldAccount].lines;
    }
  }

  // Number of trustlines of `order` with a non-zero balance.
  function NonZero(order: seq<Asset>, b: Balances): nat
    requires forall a :: a in order ==> a in b
  {
    if order == [] then 0 else (if b[order[0]] != 0 then 1 else 0) + NonZero(order[1..], b)
  }

  // Each line takes two operations, and a payment where the balance is not zero.
  lemma {:induction false} LineOperationCount(newAccount: Address, oldAccount: Address, order: seq<Asset>, b: Balances)
    requires forall a :: a in order ==> a in b
    ensures |AllLineOperations(newAccount, oldAccount, order, b)| == 2 * |order| + NonZero(order, b) <= 3 * |order|
    decreases |order|
  {
    if order != [] {
      LineOperationCount(newAccount, oldAccount, order[1..], b);
    }
  }

  /** For n trustlines: create, merge, two operations for each line and one for each non-zero balance. */
  lemma RotationSize(newAccount: Address, oldAccount: Address, order: seq<Asset>, b: Balances, bootstrapXlm: int)
    requires OneNative(b) && Enumerates(order, b)
    ensures var n := |b| - 1;
            |RotationOperations(newAccount, oldAccount, order, b, bootstrapXlm)| == 2 + 2 * n + NonZero(order, b) <= 3 * n + 2
  {
    CreditCount(b);
    ElementsOfDistinct(order);
    assert Elements(order) == CreditLines(b).Keys;
    LineOperationCount(newAccount, oldAccount, order, b);
  }
}

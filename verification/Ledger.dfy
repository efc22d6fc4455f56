/**
 The part of the Stellar ledger that a distribution account rotation touches: accounts with
 a native balance and trustlines, and the four operations of the rotation transaction with
 their failure conditions.  Amounts are in stroops (one XLM is 10,000,000 stroops).
 */
module Ledger {
  import opened Wrappers

  type Address = string

  const STROOPS_PER_XLM: nat := 10_000_000

  // n base reserves, of half an XLM each.
  function Reserves(n: int): int {
    n * 5_000_000
  }

  // A non-native asset, or the native one under one of its spellings (see Rotation.IsNative).
  datatype Asset = Asset(code: string, issuer: string)

  // otherEntries counts the subentries that are not trustlines (offers and data entries).
  datatype Account = Account(native: nat, lines: map<Asset, nat>, otherEntries: nat) {
    function MinBalance(): int {
      Reserves(2 + |lines| + otherEntries)
    }
  }

  type Accounts = map<Address, Account>

  datatype Operation =
    | CreateAccount(destination: Address, startingBalance: int)
    | ChangeTrust(source: Address, line: Asset, remove: bool)
    | Payment(destination: Address, asset: Asset, amount: int)
    | AccountMerge(destination: Address)

  // The effect of one operation of a transaction whose source is `source`; None is failure.
  function Apply(l: Accounts, source: Address, op: Operation): Option<Accounts> {
    match op
    case CreateAccount(d, amount) => ApplyCreateAccount(l, source, d, amount)
    case ChangeTrust(s, line, remove) => if remove then ApplyRemoveLine(l, s, line) else ApplyAddLine(l, s, line)
    case Payment(d, asset, amount) => ApplyPayment(l, source, d, asset, amount)
    case AccountMerge(d) => ApplyMerge(l, source, d)
  }

  function ApplyCreateAccount(l: Accounts, s: Address, d: Address, amount: int): Option<Accounts> {
    if s !in l || d in l || amount < Reserves(2) || l[s].native < amount + l[s].MinBalance() then
      None
    else
      Some(l[s := l[s].(native := l[s].native - amount)][d := Account(amount, map[], 0)])
  }

  function ApplyAddLine(l: Accounts, s: Address, line: Asset): Option<Accounts> {
    if s !in l then
      None
    else if line in l[s].lines then
      Some(l)
    else if l[s].native < l[s].MinBalance() + Reserves(1) then
      None
    else
      Some(l[s := l[s].(lines := l[s].lines[line := 0])])
  }

  function ApplyRemoveLine(l: Accounts, s: Address, line: Asset): Option<Accounts> {
    if s !in l || line !in l[s].lines || l[s].lines[line] != 0 then
      None
    else
      Some(l[s := l[s].(lines := l[s].lines - {line})])
  }

  function ApplyPayment(l: Accounts, s: Address, d: Address, asset: Asset, amount: int): Option<Accounts> {
    if amount <= 0 || s !in l || d !in l then
      None
    else if asset !in l[s].lines || asset !in l[d].lines || l[s].lines[asset] < amount then
      None
    else
      var debited := l[s := l[s].(lines := l[s].lines[asset := l[s].lines[asset] - amount])];
      var received := debited[d].lines[asset := debited[d].lines[asset] + amount];
      Some(debited[d := debited[d].(lines := received)])
  }

  function ApplyMerge(l: Accounts, s: Address, d: Address): Option<Accounts> {
    if s !in l || d !in l || s == d || l[s].lines != map[] || l[s].otherEntries != 0 then
      None
    else
      Some(l[d := l[d].(native := l[d].native + l[s].native)] - {s})
  }

  // A transaction applies all its operations in order, or none of them.
  function Run(l: Accounts, source: Address, ops: seq<Operation>): Option<Accounts>
    decreases |ops|
  {
    if ops == [] then
      Some(l)
    else
      match Apply(l, source, ops[0])
      case None => None
      case Some(l') => Run(l', source, ops[1..])
  }

  /** Running a concatenation is running the first part and then the second. */
  lemma {:induction false} RunAppend(l: Accounts, source: Address, a: seq<Operation>, b: seq<Operation>)
    ensures Run(l, source, a + b) ==
            match Run(l, source, a)
            case None => None
            case Some(l') => Run(l', source, b)
    decreases |a|
  {
    if a == [] {
      assert a + b == b;
    } else {
      assert (a + b)[0] == a[0] && (a + b)[1..] == a[1..] + b;
      match Apply(l, source, a[0])
      case None =>
      case Some(l') => RunAppend(l', source, a[1..], b);
    }
  }

}

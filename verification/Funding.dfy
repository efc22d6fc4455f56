/** The balance check before a disbursement starts, and what a start that passes it can come to owe. */
module Funding {
  import opened Wrappers
  import opened GoStrings
  import opened Tables
  import opened Totals
  import opened Lifecycle
  import opened Stores
  import L = Ledger
  import R = Rotation
  import PS = PaymentStatuses
  import DS = DisbursementStatuses

  // The rows of the assets table.
  type Assets = map<Id, L.Asset>

  // A hundredth, in stroops.
  const CENT: int := 100_000

  // Asset.Equals
  predicate SameAsset(a: L.Asset, b: L.Asset) {
    (R.IsNative(a) && R.IsNative(b)) || (a.code == b.code && Lower(a.issuer) == Lower(b.issuer))
  }

  predicate PaysIn(assets: Assets, p: Payment, asset: L.Asset) {
    p.terms.assetId in assets && SameAsset(assets[p.terms.assetId], asset)
  }

  // ROUND(x, 2) of an amount that is not negative; the statistics of a disbursement are rounded.
  function RoundToCents(x: int): int {
    (x + CENT / 2) / CENT * CENT
  }

  // --------------------------------------------------------------------------------- the check

  ghost function WithStatus(ps: map<Id, Payment>, d: Id, s: PS.PaymentStatus): set<Id> {
    set i | i in ps && OfDisbursement(ps[i], d) && ps[i].status == s
  }

  // What is in progress in the asset, outside the disbursement.
  ghost function Elsewhere(assets: Assets, ps: map<Id, Payment>, d: Id, asset: L.Asset): set<Id> {
    set i | i in ps && PS.InProgress(ps[i].status) && !OfDisbursement(ps[i], d) && PaysIn(assets, ps[i], asset)
  }

  ghost function Required(assets: Assets, ps: map<Id, Payment>, d: Id, asset: L.Asset): int {
    RoundToCents(Total(ps, PaymentsOf(ps, d))) - RoundToCents(Total(ps, WithStatus(ps, d, PS.SUCCESS)))
    + Total(ps, Elsewhere(assets, ps, d, asset))
  }

  ghost predicate Covered(assets: Assets, t: Tables, d: Id, available: Option<int>) {
    && d in t.disbursements && t.disbursements[d].assetId in assets
    && PaymentsOf(t.payments, d) != {}
    && available.Some?
    && Required(assets, t.payments, d, assets[t.disbursements[d].assetId]) <= available.value
  }

  // SELECT SUM(amount)
  method Sum(ps: map<Id, Payment>, ids: set<Id>) returns (sum: int)
    requires ids <= ps.Keys
    ensures sum == Total(ps, ids)
  {
    sum := 0;
    var rest := ids;
    while rest != {}
      invariant rest <= ids && sum + Total(ps, rest) == Total(ps, ids)
      decreases |rest|
    {
      var i :| i in rest;
      TotalWithout(ps, rest, i);
      sum := sum + ps[i].terms.amount;
      rest := rest - {i};
    }
  }

  // The loop over the payments in progress, in any order.
  method SumElsewhere(ps: map<Id, Payment>, assets: Assets, d: Id, asset: L.Asset) returns (totalPendingAmount: int)
    ensures totalPendingAmount == Total(ps, Elsewhere(assets, ps, d, asset))
  {
    hide PaysIn, OfDisbursement, PS.InProgress;
    var incompletePayments := set i | i in ps && PS.InProgress(ps[i].status);
    ghost var all := Elsewhere(assets, ps, d, asset);
    assert all * incompletePayments == all;
    totalPendingAmount := 0;
    while incompletePayments != {}
      invariant forall i :: i in incompletePayments ==> i in ps && PS.InProgress(ps[i].status)
      invariant totalPendingAmount + Total(ps, all * incompletePayments) == Total(ps, all)
      decreases |incompletePayments|
    {
      var i :| i in incompletePayments;
      ghost var rest := all * incompletePayments;
      incompletePayments := incompletePayments - {i};
      assert all * incompletePayments == rest - {i};
      if OfDisbursement(ps[i], d) || !PaysIn(assets, ps[i], asset) {
        assert rest - {i} == rest;
        continue;
      }
      TotalWithout(ps, rest, i);
      totalPendingAmount := totalPendingAmount + ps[i].terms.amount;
    }
    assert all * {} == {};
  }

  /**
   validateBalanceForDisbursement.  `available` is what the account service answers, if it does.  A
   disbursement without payments has no statistics; the source dereferences them, which counts as a failure.
   */
  method ValidateBalanceForDisbursement(s: Store, assets: Assets, d: Id, available: Option<int>) returns (ok: bool)
    requires d in s.disbursements
    ensures ok <==> Covered(assets, s.Snapshot(), d, available)
  {
    hide PaysIn, RoundToCents, SameAsset;
    if s.disbursements[d].assetId !in assets || available.None? {
      return false;
    }
    var asset := assets[s.disbursements[d].assetId];
    var rows := set i | i in s.payments && OfDisbursement(s.payments[i], d);
    assert rows == PaymentsOf(s.payments, d);
    if rows == {} {
      return false;
    }
    var totalAmount := Sum(s.payments, rows);
    var sent := set i | i in s.payments && OfDisbursement(s.payments[i], d) && s.payments[i].status == PS.SUCCESS;
    assert sent == WithStatus(s.payments, d, PS.SUCCESS);
    var amountDisbursed := Sum(s.payments, sent);
    var disbursementAmount := RoundToCents(totalAmount) - RoundToCents(amountDisbursed);
    var totalPendingAmount := SumElsewhere(s.payments, assets, d, asset);
    var requiredAmount := disbursementAmount + totalPendingAmount;
    return !(available.value < requiredAmount);
  }

  // ----------------------------------------------------------------------- what the check means

  // What the disbursement and every other payment in the asset still have to pay.
  ghost function Owed(assets: Assets, ps: map<Id, Payment>, d: Id, asset: L.Asset): set<Id> {
    set i | i in ps && PS.InProgress(ps[i].status) && (OfDisbursement(ps[i], d) || PaysIn(assets, ps[i], asset))
  }

  // Payments of the disbursement that the check counts although a start does not send them.
  ghost function Idle(ps: map<Id, Payment>, d: Id): set<Id> {
    WithStatus(ps, d, PS.FAILED) + WithStatus(ps, d, PS.CANCELED)
  }

  // How far rounding moves the disbursement's amount.
  ghost function Rounding(ps: map<Id, Payment>, d: Id): int {
    var total, sent := Total(ps, PaymentsOf(ps, d)), Total(ps, WithStatus(ps, d, PS.SUCCESS));
    (RoundToCents(total) - total) - (RoundToCents(sent) - sent)
  }

  lemma RoundsNearby(x: int)
    ensures x - (CENT / 2 - 1) <= RoundToCents(x) <= x + CENT / 2
    ensures x % CENT == 0 ==> RoundToCents(x) == x
  {
  }

  // A start moves no terms and leaves in progress what was neither successful, failed nor canceled.
  lemma LaunchedPayments(assets: Assets, t: Tables, userId: string, d: Id, asset: L.Asset)
    requires d in t.disbursements
    ensures var ps, ps' := t.payments, Launched(t, userId, d).payments;
            && ps'.Keys == ps.Keys && (forall i :: i in ps ==> ps'[i].terms == ps[i].terms)
            && Owed(assets, ps', d, asset) == PaymentsOf(ps, d) - WithStatus(ps, d, PS.SUCCESS) - Idle(ps, d) + Elsewhere(assets, ps, d, asset)
  {
    hide PaysIn, MoveWallets, MoveDisbursement;
    OnlyPaymentsMove(t, userId, d);
    var ps, ps' := t.payments, MovePayments(t, d, PS.READY).payments;
    forall i | i in ps
      ensures ps'[i].terms == ps[i].terms
      ensures OfDisbursement(ps[i], d) ==>
                (PS.InProgress(ps'[i].status) <==> !ps[i].status.SUCCESS? && !ps[i].status.FAILED? && !ps[i].status.CANCELED?)
      ensures !OfDisbursement(ps[i], d) ==> ps'[i] == ps[i]
    {
    }
    forall i | i in ps
      ensures PaysIn(assets, ps'[i], asset) <==> PaysIn(assets, ps[i], asset)
    {
      SamePaysIn(assets, ps[i], ps'[i], asset);
    }
  }

  lemma SamePaysIn(assets: Assets, p: Payment, p': Payment, asset: L.Asset)
    requires p'.terms == p.terms
    ensures PaysIn(assets, p', asset) <==> PaysIn(assets, p, asset)
  {
  }

  lemma OnlyPaymentsMove(t: Tables, userId: string, d: Id)
    requires d in t.disbursements
    ensures Launched(t, userId, d).payments == MovePayments(t, d, PS.READY).payments
  {
  }

  /**
   Exactly when the check passes, in terms of what is owed once the disbursement has started: the balance
   has to cover that, the failed and canceled payments of the disbursement, and the rounding.
   */
  lemma CoveredIff(assets: Assets, t: Tables, userId: string, d: Id, available: int)
    requires d in t.disbursements && t.disbursements[d].assetId in assets
    ensures var ps, ps' := t.payments, Launched(t, userId, d).payments;
            var owed := Owed(assets, ps', d, assets[t.disbursements[d].assetId]);
            Covered(assets, t, d, Some(available))
            <==> PaymentsOf(ps, d) != {} && Total(ps', owed) + Total(ps, Idle(ps, d)) + Rounding(ps, d) <= available
  {
    var asset := assets[t.disbursements[d].assetId];
    var ps, ps' := t.payments, Launched(t, userId, d).payments;
    var all, sent, idle, others := PaymentsOf(ps, d), WithStatus(ps, d, PS.SUCCESS), Idle(ps, d), Elsewhere(assets, ps, d, asset);
    LaunchedPayments(assets, t, userId, d, asset);
    Parts(assets, ps, d, asset);
    hide PaymentsOf, WithStatus, Idle, Elsewhere, Launched, Owed, RoundToCents;
    TotalSame(ps, ps', all - sent - idle + others);
    TotalUnion(ps, all - sent - idle, others);
    TotalUnion(ps, all - sent - idle, idle);
    assert all - sent - idle + idle == all - sent;
    TotalUnion(ps, all - sent, sent);
    assert all - sent + sent == all;
  }

  lemma Parts(assets: Assets, ps: map<Id, Payment>, d: Id, asset: L.Asset)
    ensures var all, sent, idle, others := PaymentsOf(ps, d), WithStatus(ps, d, PS.SUCCESS), Idle(ps, d), Elsewhere(assets, ps, d, asset);
            sent <= all && idle <= all - sent && all !! others
  {
    hide PaysIn;
  }

  /** A start that passes the check owes at most the balance and a little less than a cent. */
  lemma StartIsCoveredToACent(assets: Assets, t: Tables, userId: string, d: Id, available: int)
    requires Covered(assets, t, d, Some(available))
    requires forall i :: i in t.payments ==> t.payments[i].terms.amount >= 0
    ensures var ps' := Launched(t, userId, d).payments;
            Total(ps', Owed(assets, ps', d, assets[t.disbursements[d].assetId])) < available + CENT
  {
    var ps := t.payments;
    CoveredIff(assets, t, userId, d, available);
    RoundsNearby(Total(ps, PaymentsOf(ps, d)));
    RoundsNearby(Total(ps, WithStatus(ps, d, PS.SUCCESS)));
    hide Covered, Launched, Owed, RoundToCents;
    TotalNotNegative(ps, Idle(ps, d));
  }

  /**
   Exactly when no balance lets through a start that it does not cover: when the rounding is not below
   zero, or by no more than the failed and canceled payments, which are counted though not sent, make up for.
   */
  lemma SoundIff(assets: Assets, t: Tables, userId: string, d: Id)
    requires d in t.disbursements && t.disbursements[d].assetId in assets && PaymentsOf(t.payments, d) != {}
    ensures var ps, ps' := t.payments, Launched(t, userId, d).payments;
            var owed := Total(ps', Owed(assets, ps', d, assets[t.disbursements[d].assetId]));
            (forall available :: Covered(assets, t, d, Some(available)) ==> owed <= available)
            <==> Total(ps, Idle(ps, d)) + Rounding(ps, d) >= 0
  {
    var ps, ps' := t.payments, Launched(t, userId, d).payments;
    var owed := Total(ps', Owed(assets, ps', d, assets[t.disbursements[d].assetId]));
    forall available: int
      ensures Covered(assets, t, d, Some(available)) <==> owed + Total(ps, Idle(ps, d)) + Rounding(ps, d) <= available
    {
      CoveredIff(assets, t, userId, d, available);
    }
    hide Covered, Launched, Owed, Idle, Rounding, PaymentsOf;
    var least := owed + Total(ps, Idle(ps, d)) + Rounding(ps, d);
    assert Covered(assets, t, d, Some(least));
  }

  /** Where the disbursement's amounts are whole cents, the check is exact. */
  lemma WholeCentsAreExact(assets: Assets, t: Tables, userId: string, d: Id, available: int)
    requires d in t.disbursements && t.disbursements[d].assetId in assets
    requires forall i :: i in PaymentsOf(t.payments, d) ==> t.payments[i].terms.amount % CENT == 0
    ensures var ps, ps' := t.payments, Launched(t, userId, d).payments;
            var owed := Owed(assets, ps', d, assets[t.disbursements[d].assetId]);
            Covered(assets, t, d, Some(available))
            <==> PaymentsOf(ps, d) != {} && Total(ps', owed) + Total(ps, Idle(ps, d)) <= available
  {
    var ps := t.payments;
    CoveredIff(assets, t, userId, d, available);
    WholeTotal(ps, PaymentsOf(ps, d));
    WholeTotal(ps, WithStatus(ps, d, PS.SUCCESS));
    RoundsNearby(Total(ps, PaymentsOf(ps, d)));
    RoundsNearby(Total(ps, WithStatus(ps, d, PS.SUCCESS)));
    hide Covered, Launched, Owed, RoundToCents, Idle;
  }

  lemma {:induction false} WholeTotal(ps: map<Id, Payment>, ids: set<Id>)
    requires ids <= ps.Keys && forall i :: i in ids ==> ps[i].terms.amount % CENT == 0
    ensures Total(ps, ids) % CENT == 0
    decreases |ids|
  {
    if ids != {} {
      var i :| i in ids;
      TotalWithout(ps, ids, i);
      WholeTotal(ps, ids - {i});
      CentsAdd(ps[i].terms.amount, Total(ps, ids - {i}));
    }
  }

  lemma CentsAdd(a: int, b: int)
    requires a % CENT == 0 && b % CENT == 0
    ensures (a + b) % CENT == 0
  {
  }

  /**
   The bound is reached, in consistent tables: nothing is available, the paused disbursement may be
   started again, the check passes, and the start owes 99,999 stroops.
   */
  lemma RoundingExample(cfg: Config, assets: Assets)
    requires !cfg.approvalRequired && 0 in assets
    ensures var t := PausedHalfway();
            var ps' := Launched(t, "u", 0).payments;
            && Consistent(t) && CanStart(cfg, t, "u", 0)
            && Covered(assets, t, 0, Some(0))
            && Total(ps', Owed(assets, ps', 0, assets[0])) == 99_999
  {
    PausedIsConsistent();
    PausedRows();
    hide PausedHalfway, Consistent, Launched, Owed, Required, PaymentsOf, Total, OfDisbursement;
    OnePausedOneSent(assets, PausedHalfway(), "u", 0, assets[0], 0, 1);
  }

  lemma PausedRows()
    ensures var t := PausedHalfway();
            && t.disbursements[0].assetId == 0 && t.disbursements[0].status.PAUSED?
            && OfDisbursement(t.payments[0], 0) && t.payments[0].status.SUCCESS? && t.payments[0].terms.amount == 50_000
            && OfDisbursement(t.payments[1], 0) && t.payments[1].status.PAUSED? && t.payments[1].terms.amount == 99_999
  {
  }

  lemma PausedIsConsistent()
    ensures Consistent(PausedHalfway())
  {
    var t := PausedHalfway();
    forall i | i in t.payments
      ensures PaymentOk(t, t.payments[i])
    {
    }
    forall d | d in t.disbursements
      ensures DisbursementOk(t.disbursements[d])
    {
    }
  }

  // A disbursement of which 0.005 was sent and 0.0099999 was not.
  function PausedHalfway(): (t: Tables)
    ensures 0 in t.disbursements && t.payments.Keys == {0, 1}
  {
    var history := [Entry("u", DS.DRAFT), Entry("u", DS.READY), Entry("v", DS.STARTED), Entry("v", DS.PAUSED)];
    Tables(
      map[0 := Disbursement(0, 0, "", EMAIL, false, DS.PAUSED, history, "", "")],
      map[0 := Payment(Terms(50_000, 0, 0, 0, Some(0), ""), PS.SUCCESS, [PS.DRAFT, PS.READY, PS.PENDING, PS.SUCCESS], "tx"),
          1 := Payment(Terms(99_999, 0, 1, 1, Some(0), ""), PS.PAUSED, [PS.DRAFT, PS.READY, PS.PAUSED], "")],
      map[], map[], map[])
  }

  // A disbursement with one payment that was sent and one that is paused.
  lemma OnePausedOneSent(assets: Assets, t: Tables, userId: string, d: Id, asset: L.Asset, sent: Id, paused: Id)
    requires d in t.disbursements && t.payments.Keys == {sent, paused} && sent != paused
    requires OfDisbursement(t.payments[sent], d) && t.payments[sent].status.SUCCESS?
    requires OfDisbursement(t.payments[paused], d) && t.payments[paused].status.PAUSED?
    ensures var ps, ps' := t.payments, Launched(t, userId, d).payments;
            var a, b := ps[sent].terms.amount, ps[paused].terms.amount;
            && PaymentsOf(ps, d) != {}
            && Required(assets, ps, d, asset) == RoundToCents(a + b) - RoundToCents(a)
            && Total(ps', Owed(assets, ps', d, asset)) == b
  {
    var ps, ps' := t.payments, Launched(t, userId, d).payments;
    hide RoundToCents, Launched, Owed, OfDisbursement;
    TheTwo(assets, ps, d, asset, sent, paused);
    LaunchedPayments(assets, t, userId, d, asset);
    OfTwo(ps, sent, paused);
    hide PaymentsOf, WithStatus, Idle, Elsewhere, PS.InProgress;
    OnlyOne(sent, paused);
    TotalSame(ps, ps', {paused});
  }

  lemma OnlyOne(i: Id, j: Id)
    requires i != j
    ensures {i, j} - {i} - {} + {} == {j}
  {
  }

  lemma TheTwo(assets: Assets, ps: map<Id, Payment>, d: Id, asset: L.Asset, sent: Id, paused: Id)
    requires ps.Keys == {sent, paused} && sent != paused
    requires OfDisbursement(ps[sent], d) && ps[sent].status.SUCCESS?
    requires OfDisbursement(ps[paused], d) && ps[paused].status.PAUSED?
    ensures PaymentsOf(ps, d) == {sent, paused} && WithStatus(ps, d, PS.SUCCESS) == {sent}
    ensures Idle(ps, d) == {} && Elsewhere(assets, ps, d, asset) == {}
  {
    hide PaysIn;
    assert forall i :: i in ps <==> i == sent || i == paused;
    assert WithStatus(ps, d, PS.FAILED) == {} && WithStatus(ps, d, PS.CANCELED) == {};
  }

  lemma OfTwo(ps: map<Id, Payment>, i: Id, j: Id)
    requires i in ps && j in ps && i != j
    ensures Total(ps, {}) == 0 && Total(ps, {i}) == ps[i].terms.amount && Total(ps, {j}) == ps[j].terms.amount
    ensures Total(ps, {i, j}) == ps[i].terms.amount + ps[j].terms.amount
  {
    TotalWithout(ps, {i}, i);
    TotalWithout(ps, {j}, j);
    TotalWithout(ps, {i, j}, j);
    assert {i, j} - {j} == {i};
  }

  // ROUND to two decimals, halves up.
  predicate IsRounded(x: int, rounded: int) {
    rounded % 100_000 == 0 && x - 50_000 < rounded <= x + 50_000
  }

  /**
   The check in full: there are payments, and the available balance is at least the rounded sum of the
   disbursement's payments, less the rounded sum of its SUCCESS ones, and all that is READY, PENDING or
   PAUSED elsewhere in the same asset: both native, or of the same code and the same issuer in any case.
   */
  lemma CoveredMeans(assets: Assets, t: Tables, d: Id, available: Option<int>, all: set<Id>, sent: set<Id>, others: set<Id>, a: int, b: int)
    requires d in t.disbursements && t.disbursements[d].assetId in assets
    requires forall i :: i in all <==> i in t.payments && t.payments[i].terms.disbursementId == Some(d)
    requires forall i :: i in sent <==> i in all && t.payments[i].status == PS.SUCCESS
    requires forall i :: i in others <==>
               && i in t.payments && i !in all
               && (t.payments[i].status == PS.READY || t.payments[i].status == PS.PENDING || t.payments[i].status == PS.PAUSED)
               && t.payments[i].terms.assetId in assets
               && var x, y := assets[t.payments[i].terms.assetId], assets[t.disbursements[d].assetId];
               || (IsXlm(x) && IsXlm(y))
               || (x.code == y.code && Lower(x.issuer) == Lower(y.issuer))
    requires IsRounded(Total(t.payments, all), a) && IsRounded(Total(t.payments, sent), b)
    ensures Covered(assets, t, d, available) <==>
              all != {} && available.Some? && a - b + Total(t.payments, others) <= available.value
  {
    var asset := assets[t.disbursements[d].assetId];
    assert all == PaymentsOf(t.payments, d);
    assert sent == WithStatus(t.payments, d, PS.SUCCESS);
    ElsewhereIs(assets, t.payments, d, asset, all, others);
    hide PaymentsOf, WithStatus, Elsewhere, Total, RoundToCents, IsRounded, IsXlm;
    RoundedIs(Total(t.payments, all), a);
    RoundedIs(Total(t.payments, sent), b);
  }

  lemma ElsewhereIs(assets: Assets, ps: map<Id, Payment>, d: Id, asset: L.Asset, all: set<Id>, others: set<Id>)
    requires all == PaymentsOf(ps, d)
    requires forall i :: i in others <==>
               && i in ps && i !in all
               && (ps[i].status == PS.READY || ps[i].status == PS.PENDING || ps[i].status == PS.PAUSED)
               && ps[i].terms.assetId in assets
               && var x := assets[ps[i].terms.assetId];
               || (IsXlm(x) && IsXlm(asset))
               || (x.code == asset.code && Lower(x.issuer) == Lower(asset.issuer))
    ensures others == Elsewhere(assets, ps, d, asset)
  {
    hide Lower;
    forall i | i in ps
      ensures i in others <==> i in Elsewhere(assets, ps, d, asset)
    {
    }
  }

  predicate IsXlm(a: L.Asset) {
    (a.code == "XLM" || a.code == "NATIVE") && forall k :: 0 <= k < |a.issuer| ==> IsSpace(a.issuer[k])
  }

  lemma RoundedIs(x: int, rounded: int)
    requires IsRounded(x, rounded)
    ensures rounded == RoundToCents(x)
  {
  }
}

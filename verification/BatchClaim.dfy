/**
 Claiming batches of payments: workers whose transactions lock what they select and skip what others
 have locked, among all the other operations on the tables.
 */
module BatchClaim {
  import opened Wrappers
  import opened Sequences
  import opened Tables
  import opened Lifecycle
  import Runs
  import PS = PaymentStatuses
  import DS = DisbursementStatuses
  import WS = ReceiverWalletStatuses

  // ------------------------------------------------------------------------- the combined batch

  // The first n of two lists together.
  function Batch<T>(first: seq<T>, second: seq<T>, n: nat): (b: seq<T>)
    ensures |b| == if |first| + |second| <= n then |first| + |second| else n
    ensures forall k :: 0 <= k < |b| ==> b[k] == if k < |first| then first[k] else second[k - |first|]
  {
    if |first + second| > n then (first + second)[..n] else first + second
  }

  datatype PaymentType = DISBURSEMENT | DIRECT

  // The outer join gives a payment without a disbursement one with no values.
  datatype Joined = Blank | DisbursementOf(id: Id)

  class SelectedPayment {
    const id: Id
    const kind: PaymentType
    var disbursement: Option<Joined>

    constructor (id: Id, kind: PaymentType, disbursement: Option<Joined>)
      ensures this.id == id && this.kind == kind && this.disbursement == disbursement
    {
      this.id, this.kind, this.disbursement := id, kind, disbursement;
    }
  }

  method RemoveEmptyDisbursementForDirect(payments: seq<SelectedPayment>)
    modifies set p | p in payments && p.kind.DIRECT?
    ensures forall p :: p in payments ==> p.disbursement == if p.kind.DIRECT? then None else old(p.disbursement)
  {
    for i := 0 to |payments|
      invariant forall p :: p in payments ==>
                  p.disbursement == old(p.disbursement) || (p.kind.DIRECT? && p.disbursement.None?)
      invariant forall k :: 0 <= k < i && payments[k].kind.DIRECT? ==> payments[k].disbursement.None?
    {
      if payments[i].kind == DIRECT {
        payments[i].disbursement := None;
      }
    }
  }

  /** What GetBatchForUpdate makes of the results of its two queries. */
  method GetBatchForUpdate(disbursementPayments: seq<SelectedPayment>, directPayments: seq<SelectedPayment>, batchSize: int)
    returns (r: Option<seq<SelectedPayment>>)
    requires forall p :: p in disbursementPayments ==> p.kind.DISBURSEMENT?
    requires forall p :: p in directPayments ==> p.kind.DIRECT?
    modifies set p | p in directPayments
    ensures r.Some? <==> batchSize > 0
    ensures r.Some? ==> r.value == Batch(disbursementPayments, directPayments, batchSize)
    ensures r.Some? ==> forall p :: p in r.value ==> p.disbursement == if p.kind.DIRECT? then None else old(p.disbursement)
  {
    if batchSize <= 0 {
      return None;
    }
    var allPayments := [];
    allPayments := allPayments + disbursementPayments;
    allPayments := allPayments + directPayments;
    if |allPayments| > batchSize {
      allPayments := allPayments[..batchSize];
    }
    RemoveEmptyDisbursementForDirect(allPayments);
    return Some(allPayments);
  }

  // ----------------------------------------------------------------------------- rows and locks

  datatype Row = PaymentRow(id: Id) | DisbursementRow(id: Id) | AssetRow(id: Id) | ReceiverWalletRow(id: Id) | WalletRow(id: Id)

  predicate Eligible(t: Tables, p: Id) {
    && p in t.payments && t.payments[p].status.READY?
    && t.payments[p].terms.receiverWalletId in t.receiverWallets
    && t.receiverWallets[t.payments[p].terms.receiverWalletId].status.REGISTERED?
    && match t.payments[p].terms.disbursementId
       case None => true
       case Some(d) => d in t.disbursements && t.disbursements[d].status.STARTED?
  }

  // What the queries lock for a payment: the first one every joined row, the second one two of them.
  function LockedFor(t: Tables, p: Id): set<Row>
    requires Eligible(t, p)
  {
    var terms := t.payments[p].terms;
    match terms.disbursementId
    case None => {PaymentRow(p), ReceiverWalletRow(terms.receiverWalletId)}
    case Some(d) => {
      PaymentRow(p), DisbursementRow(d), AssetRow(terms.assetId), ReceiverWalletRow(terms.receiverWalletId),
      WalletRow(t.receiverWallets[terms.receiverWalletId].walletId)}
  }

  // A worker's transaction.  `found` are the disbursement payments between the two queries.
  datatype Worker =
    | Idle
    | Selecting(found: seq<Id>, locks: set<Row>)
    | Claimed(batch: seq<Id>, locks: set<Row>)
    | Marked(batch: seq<Id>, refused: set<Id>, locks: set<Row>)

  function Locks(w: Worker): set<Row> {
    if w.Idle? then {} else w.locks
  }

  // The payments a worker holds.
  function Held(w: Worker): seq<Id> {
    match w
    case Idle => []
    case Selecting(found, _) => found
    case Claimed(batch, _) => batch
    case Marked(batch, _, _) => batch
  }

  datatype System = System(t: Tables, workers: map<nat, Worker>)

  // No other worker has locked the row.
  predicate Free(sys: System, w: nat, row: Row) {
    forall v :: v in sys.workers && v != w ==> row !in Locks(sys.workers[v])
  }

  predicate AllFree(sys: System, w: nat, rows: set<Row>) {
    forall row :: row in rows ==> Free(sys, w, row)
  }

  // -------------------------------------------------------------------------------------- steps

  datatype ClaimStep =
    | SelectDisbursementPayments(w: nat, found: seq<Id>, locks: set<Row>)
    | SelectDirectPayments(w: nat, found: seq<Id>, locks: set<Row>, limit: nat)
    | Mark(w: nat, refused: set<Id>)
    | Commit(w: nat)
    | Rollback(w: nat)
    | Other(step: Step, after: Tables)

  // A query with SKIP LOCKED: what it returns is every eligible payment of its kind that it can lock
  // wholly.  It may keep locks on rows of payments that it skipped.
  ghost predicate Selects(sys: System, w: nat, direct: bool, found: seq<Id>, locks: set<Row>) {
    && Distinct(found)
    && (forall p :: p in found <==>
          && Eligible(sys.t, p) && sys.t.payments[p].terms.disbursementId.None? == direct
          && AllFree(sys, w, LockedFor(sys.t, p)))
    && (forall p :: p in found ==> LockedFor(sys.t, p) <= locks)
    && AllFree(sys, w, locks)
  }

  // What a locked row was, it still is.
  ghost predicate Kept(t: Tables, t': Tables, row: Row) {
    match row
    case PaymentRow(p) => p in t.payments ==> p in t'.payments && t'.payments[p] == t.payments[p]
    case DisbursementRow(d) => d in t.disbursements ==> d in t'.disbursements && t'.disbursements[d] == t.disbursements[d]
    case ReceiverWalletRow(w) => w in t.receiverWallets ==> w in t'.receiverWallets && t'.receiverWallets[w] == t.receiverWallets[w]
    case AssetRow(_) => true
    case WalletRow(_) => true
  }

  ghost predicate LocksRespected(sys: System, t': Tables) {
    forall v, row :: v in sys.workers && row in Locks(sys.workers[v]) ==> Kept(sys.t, t', row)
  }

  // What a marked batch writes when it commits.
  function Written(t: Tables, batch: seq<Id>, refused: set<Id>): Tables {
    var failed := t.(payments := EnterAll(t.payments, Elements(batch) * refused, PS.FAILED));
    failed.(payments := EnterAll(failed.payments, Elements(batch) - refused, PS.PENDING))
  }

  ghost predicate TakeClaim(cfg: Config, sys: System, step: ClaimStep, sys': System) {
    match step
    case SelectDisbursementPayments(w, found, locks) =>
      && w in sys.workers && sys.workers[w].Idle?
      && Selects(sys, w, false, found, locks)
      && sys' == sys.(workers := sys.workers[w := Selecting(found, locks)])
    case SelectDirectPayments(w, found, locks, limit) =>
      && w in sys.workers && sys.workers[w].Selecting?
      && Selects(sys, w, true, found, locks)
      && sys' == sys.(workers := sys.workers[w := Claimed(Batch(sys.workers[w].found, found, limit), sys.workers[w].locks + locks)])
    case Mark(w, refused) =>
      && w in sys.workers && sys.workers[w].Claimed?
      && sys' == sys.(workers := sys.workers[w := Marked(sys.workers[w].batch, refused, sys.workers[w].locks)])
    case Commit(w) =>
      && w in sys.workers && sys.workers[w].Marked?
      && sys' == System(Written(sys.t, sys.workers[w].batch, sys.workers[w].refused), sys.workers[w := Idle])
    case Rollback(w) =>
      && w in sys.workers
      && sys' == sys.(workers := sys.workers[w := Idle])
    case Other(step, after) =>
      && Take(cfg, sys.t, step, after) && LocksRespected(sys, after)
      && sys' == sys.(t := after)
  }

  // ---------------------------------------------------------------------------- the invariant

  // Whoever holds a payment holds its locks, and it is ready to be sent.
  predicate Holds(t: Tables, locks: set<Row>, p: Id) {
    Eligible(t, p) && LockedFor(t, p) <= locks
  }

  ghost predicate WorkerOk(t: Tables, w: Worker) {
    && Distinct(Held(w))
    && (forall p :: p in Held(w) ==> Holds(t, Locks(w), p))
    && (w.Selecting? ==> forall p :: p in w.found ==> p in t.payments && t.payments[p].terms.disbursementId.Some?)
  }

  ghost predicate LocksDisjoint(ws: map<nat, Worker>) {
    forall v, w :: v in ws && w in ws && v != w ==> Locks(ws[v]) !! Locks(ws[w])
  }

  ghost predicate SystemOk(sys: System) {
    && LocksDisjoint(sys.workers)
    && forall w :: w in sys.workers ==> WorkerOk(sys.t, sys.workers[w])
  }

  lemma FreeLocks(sys: System, w: nat, worker: Worker)
    requires LocksDisjoint(sys.workers) && w in sys.workers && AllFree(sys, w, Locks(worker))
    ensures LocksDisjoint(sys.workers[w := worker])
  {
    forall v | v in sys.workers && v != w
      ensures Locks(sys.workers[v]) !! Locks(worker)
    {
      forall row | row in Locks(worker)
        ensures row !in Locks(sys.workers[v])
      {
        assert Free(sys, w, row);
      }
    }
  }

  lemma OwnLocksFree(sys: System, w: nat)
    requires LocksDisjoint(sys.workers) && w in sys.workers
    ensures AllFree(sys, w, Locks(sys.workers[w]))
  {
  }

  // A change that keeps the locked rows keeps what is held.
  lemma HeldStays(t: Tables, t': Tables, locks: set<Row>, p: Id)
    requires Holds(t, locks, p) && forall row :: row in locks ==> Kept(t, t', row)
    ensures Holds(t', locks, p) && t'.payments[p].terms == t.payments[p].terms
  {
    var terms := t.payments[p].terms;
    assert PaymentRow(p) in LockedFor(t, p) && ReceiverWalletRow(terms.receiverWalletId) in LockedFor(t, p);
    assert Kept(t, t', PaymentRow(p)) && Kept(t, t', ReceiverWalletRow(terms.receiverWalletId));
    if terms.disbursementId.Some? {
      assert DisbursementRow(terms.disbursementId.value) in LockedFor(t, p);
      assert Kept(t, t', DisbursementRow(terms.disbursementId.value));
    }
  }

  lemma WorkerStays(t: Tables, t': Tables, w: Worker)
    requires WorkerOk(t, w) && forall row :: row in Locks(w) ==> Kept(t, t', row)
    ensures WorkerOk(t', w)
  {
    hide Holds, Kept;
    forall p | p in Held(w)
      ensures Holds(t', Locks(w), p) && p in t'.payments && p in t.payments && t'.payments[p].terms == t.payments[p].terms
    {
      HeldImplies(t, Locks(w), p);
      HeldStays(t, t', Locks(w), p);
      HeldImplies(t', Locks(w), p);
    }
  }

  lemma HeldImplies(t: Tables, locks: set<Row>, p: Id)
    requires Holds(t, locks, p)
    ensures p in t.payments && t.payments[p].status.READY? && PaymentRow(p) in locks
  {
  }

  lemma BatchOk(t: Tables, found: seq<Id>, direct: seq<Id>, limit: nat, locks: set<Row>, more: set<Row>)
    requires WorkerOk(t, Selecting(found, locks)) && Distinct(direct)
    requires forall p :: p in direct ==> Holds(t, more, p) && t.payments[p].terms.disbursementId.None?
    ensures WorkerOk(t, Claimed(Batch(found, direct, limit), locks + more))
  {
    var b := Batch(found, direct, limit);
    forall j, k | 0 <= j < k < |b|
      ensures b[j] != b[k]
    {
      if j < |found| <= k {
        assert b[j] in found && b[k] in direct;
      }
    }
    forall p | p in b
      ensures Holds(t, locks + more, p)
    {
      var k :| 0 <= k < |b| && b[k] == p;
      assert if k < |found| then p in found else p in direct;
    }
  }

  lemma SelectedHeld(sys: System, w: nat, direct: bool, found: seq<Id>, locks: set<Row>)
    requires Selects(sys, w, direct, found, locks)
    ensures Distinct(found) && AllFree(sys, w, locks)
    ensures forall p :: p in found ==> Holds(sys.t, locks, p) && sys.t.payments[p].terms.disbursementId.None? == direct
  {
    hide AllFree;
  }

  // A commit changes the committer's own payments only.
  lemma CommitKeeps(sys: System, w: nat, v: nat)
    requires SystemOk(sys) && w in sys.workers && v in sys.workers && v != w && sys.workers[w].Marked?
    ensures WorkerOk(Written(sys.t, sys.workers[w].batch, sys.workers[w].refused), sys.workers[v])
  {
    var batch, refused := sys.workers[w].batch, sys.workers[w].refused;
    var t' := Written(sys.t, batch, refused);
    forall row | row in Locks(sys.workers[v])
      ensures Kept(sys.t, t', row)
    {
      if row.PaymentRow? && row.id in batch {
        HeldImplies(sys.t, Locks(sys.workers[w]), row.id);
        assert false;
      }
    }
    WorkerStays(sys.t, t', sys.workers[v]);
  }

  lemma OtherKeeps(sys: System, t': Tables, v: nat)
    requires SystemOk(sys) && LocksRespected(sys, t') && v in sys.workers
    ensures WorkerOk(t', sys.workers[v])
  {
    hide Kept;
    WorkerStays(sys.t, t', sys.workers[v]);
  }

  /** Every step keeps the locks disjoint and what is held eligible. */
  lemma SystemOkStep(cfg: Config, sys: System, step: ClaimStep, sys': System)
    requires SystemOk(sys) && TakeClaim(cfg, sys, step, sys')
    ensures SystemOk(sys')
  {
    hide Selects, Take, LocksRespected, Written, WorkerOk, AllFree, Holds;
    match step
    case SelectDisbursementPayments(w, found, locks) =>
      SelectedHeld(sys, w, false, found, locks);
      FreeLocks(sys, w, Selecting(found, locks));
      forall p | p in found
        ensures p in sys.t.payments && sys.t.payments[p].terms.disbursementId.Some?
      {
        HeldImplies(sys.t, locks, p);
      }
      SelectingOk(sys.t, found, locks);
    case SelectDirectPayments(w, found, locks, limit) =>
      SelectedHeld(sys, w, true, found, locks);
      OwnLocksFree(sys, w);
      var old' := sys.workers[w];
      AllFreeUnion(sys, w, old'.locks, locks);
      FreeLocks(sys, w, Claimed(Batch(old'.found, found, limit), old'.locks + locks));
      assert WorkerOk(sys.t, Selecting(old'.found, old'.locks));
      forall p | p in found
        ensures p in sys.t.payments
      {
        HeldImplies(sys.t, locks, p);
      }
      BatchOk(sys.t, old'.found, found, limit, old'.locks, locks);
    case Mark(w, refused) =>
      OwnLocksFree(sys, w);
      FreeLocks(sys, w, sys'.workers[w]);
      MarkedOk(sys.t, sys.workers[w], sys'.workers[w]);
    case Commit(w) =>
      IdleOk(sys'.t);
      FreeLocks(sys, w, Idle) by { AllFreeEmpty(sys, w); }
      forall v | v in sys.workers && v != w
        ensures WorkerOk(sys'.t, sys.workers[v])
      {
        CommitKeeps(sys, w, v);
      }
    case Rollback(w) =>
      IdleOk(sys'.t);
      FreeLocks(sys, w, Idle) by { AllFreeEmpty(sys, w); }
    case Other(step, after) =>
      forall v | v in sys.workers
        ensures WorkerOk(after, sys.workers[v])
      {
        OtherKeeps(sys, after, v);
      }
  }

  lemma AllFreeEmpty(sys: System, w: nat)
    ensures AllFree(sys, w, Locks(Idle))
  {
  }

  lemma AllFreeUnion(sys: System, w: nat, a: set<Row>, b: set<Row>)
    requires AllFree(sys, w, a) && AllFree(sys, w, b)
    ensures AllFree(sys, w, a + b)
  {
  }

  lemma IdleOk(t: Tables)
    ensures WorkerOk(t, Idle)
  {
  }

  lemma SelectingOk(t: Tables, found: seq<Id>, locks: set<Row>)
    requires Distinct(found) && forall p :: p in found ==> Holds(t, locks, p) && t.payments[p].terms.disbursementId.Some?
    ensures WorkerOk(t, Selecting(found, locks))
  {
  }

  lemma MarkedOk(t: Tables, w: Worker, w': Worker)
    requires w.Claimed? && w'.Marked? && w'.batch == w.batch && w'.locks == w.locks && WorkerOk(t, w)
    ensures WorkerOk(t, w')
  {
  }

  // --------------------------------------------------------------------------------------- runs

  datatype ClaimEvent = ClaimEvent(step: ClaimStep, after: System)

  ghost function At(start: System, run: seq<ClaimEvent>, i: nat): System
    requires i <= |run|
  {
    if i == 0 then start else run[i - 1].after
  }

  ghost predicate IsRun(cfg: Config, start: System, run: seq<ClaimEvent>) {
    && (forall w :: w in start.workers ==> start.workers[w].Idle?)
    && forall i :: 0 <= i < |run| ==> TakeClaim(cfg, At(start, run, i), run[i].step, run[i].after)
  }

  lemma {:induction false} AlwaysOk(cfg: Config, start: System, run: seq<ClaimEvent>, i: nat)
    requires IsRun(cfg, start, run) && i <= |run|
    ensures SystemOk(At(start, run, i))
  {
    hide TakeClaim, SystemOk;
    if i == 0 {
      AllIdleOk(start);
    } else {
      AlwaysOk(cfg, start, run, i - 1);
      SystemOkStep(cfg, At(start, run, i - 1), run[i - 1].step, run[i - 1].after);
    }
  }

  lemma AllIdleOk(sys: System)
    requires forall w :: w in sys.workers ==> sys.workers[w].Idle?
    ensures SystemOk(sys)
  {
  }

  /** No payment is ever in the hands of two workers. */
  lemma NeverInTwoBatches(cfg: Config, start: System, run: seq<ClaimEvent>, i: nat, v: nat, w: nat, p: Id)
    requires IsRun(cfg, start, run) && i <= |run|
    requires v in At(start, run, i).workers && w in At(start, run, i).workers
    requires p in Held(At(start, run, i).workers[v]) && p in Held(At(start, run, i).workers[w])
    ensures v == w
  {
    hide TakeClaim, Holds;
    AlwaysOk(cfg, start, run, i);
    var sys := At(start, run, i);
    HeldImplies(sys.t, Locks(sys.workers[v]), p);
    HeldImplies(sys.t, Locks(sys.workers[w]), p);
  }

  /**
   From the query to the commit, a claimed payment is READY in the tables, its wallet is REGISTERED
   and its disbursement, if it has one, is STARTED: what the worker read is still what the rows say.
   */
  lemma ClaimedStaysEligible(cfg: Config, start: System, run: seq<ClaimEvent>, i: nat, w: nat, p: Id)
    requires IsRun(cfg, start, run) && i <= |run|
    requires w in At(start, run, i).workers && p in Held(At(start, run, i).workers[w])
    ensures var t := At(start, run, i).t;
            && p in t.payments && t.payments[p].status == PS.READY
            && t.payments[p].terms.receiverWalletId in t.receiverWallets
            && t.receiverWallets[t.payments[p].terms.receiverWalletId].status == WS.REGISTERED
            && (t.payments[p].terms.disbursementId.Some? ==>
                  && t.payments[p].terms.disbursementId.value in t.disbursements
                  && t.disbursements[t.payments[p].terms.disbursementId.value].status == DS.STARTED)
  {
    hide TakeClaim;
    AlwaysOk(cfg, start, run, i);
    assert WorkerOk(At(start, run, i).t, At(start, run, i).workers[w]);
  }

  // No other worker has the row among its locks.
  predicate NotLockedByOthers(sys: System, w: nat, row: Row) {
    forall v :: v in sys.workers && v != w && !sys.workers[v].Idle? ==> row !in sys.workers[v].locks
  }

  /**
   What the first query finds: exactly the READY payments of STARTED disbursements to REGISTERED wallets
   none of whose five rows another worker has locked.
   */
  lemma DisbursementPaymentsFound(cfg: Config, sys: System, w: nat, found: seq<Id>, locks: set<Row>, sys': System, p: Id)
    requires TakeClaim(cfg, sys, SelectDisbursementPayments(w, found, locks), sys')
    ensures p in found <==>
              && p in sys.t.payments && sys.t.payments[p].status == PS.READY
              && var terms := sys.t.payments[p].terms;
              && terms.receiverWalletId in sys.t.receiverWallets && sys.t.receiverWallets[terms.receiverWalletId].status == WS.REGISTERED
              && terms.disbursementId.Some? && terms.disbursementId.value in sys.t.disbursements
              && sys.t.disbursements[terms.disbursementId.value].status == DS.STARTED
              && NotLockedByOthers(sys, w, PaymentRow(p)) && NotLockedByOthers(sys, w, DisbursementRow(terms.disbursementId.value))
              && NotLockedByOthers(sys, w, AssetRow(terms.assetId)) && NotLockedByOthers(sys, w, ReceiverWalletRow(terms.receiverWalletId))
              && NotLockedByOthers(sys, w, WalletRow(sys.t.receiverWallets[terms.receiverWalletId].walletId))
    ensures sys'.t == sys.t && sys'.workers == sys.workers[w := Selecting(found, locks)]
  {
    FreeIs(sys, w);
    hide Free, NotLockedByOthers;
  }

  /** What the second query finds: the direct payments, by their payment and receiver wallet rows. */
  lemma DirectPaymentsFound(cfg: Config, sys: System, w: nat, found: seq<Id>, locks: set<Row>, limit: nat, sys': System, p: Id)
    requires TakeClaim(cfg, sys, SelectDirectPayments(w, found, locks, limit), sys')
    ensures p in found <==>
              && p in sys.t.payments && sys.t.payments[p].status == PS.READY
              && var terms := sys.t.payments[p].terms;
              && terms.receiverWalletId in sys.t.receiverWallets && sys.t.receiverWallets[terms.receiverWalletId].status == WS.REGISTERED
              && terms.disbursementId.None?
              && NotLockedByOthers(sys, w, PaymentRow(p)) && NotLockedByOthers(sys, w, ReceiverWalletRow(terms.receiverWalletId))
    ensures sys'.t == sys.t && w in sys.workers && sys.workers[w].Selecting?
    ensures var all := sys.workers[w].found + found;
            sys'.workers == sys.workers[w := Claimed(if |all| > limit then all[..limit] else all, sys.workers[w].locks + locks)]
  {
    FreeIs(sys, w);
    hide Free, NotLockedByOthers;
  }

  lemma FreeIs(sys: System, w: nat)
    ensures forall row :: Free(sys, w, row) <==> NotLockedByOthers(sys, w, row)
  {
  }

  /** A commit, row by row: the refused payments of the batch are FAILED, the others PENDING, and the worker is idle. */
  lemma CommitMeans(cfg: Config, sys: System, w: nat, sys': System)
    requires TakeClaim(cfg, sys, Commit(w), sys')
    ensures w in sys.workers && sys.workers[w].Marked? && sys'.workers == sys.workers[w := Idle]
    ensures sys'.t == sys.t.(payments := sys'.t.payments) && sys'.t.payments.Keys == sys.t.payments.Keys
    ensures forall i :: i in sys.t.payments ==>
              var p := sys.t.payments[i];
              sys'.t.payments[i] ==
                if i !in sys.workers[w].batch then p
                else if i in sys.workers[w].refused then p.(status := PS.FAILED, history := p.history + [PS.FAILED])
                else p.(status := PS.PENDING, history := p.history + [PS.PENDING])
  {
  }

  /**
   The first query locks every joined row, so two batches in flight never hold disbursement payments
   of the same disbursement, asset or wallet, nor any payments to the same receiver wallet.
   */
  lemma BatchesShareNothing(cfg: Config, start: System, run: seq<ClaimEvent>, i: nat, v: nat, w: nat, p: Id, q: Id)
    requires IsRun(cfg, start, run) && i <= |run| && v != w
    requires v in At(start, run, i).workers && w in At(start, run, i).workers
    requires p in Held(At(start, run, i).workers[v]) && q in Held(At(start, run, i).workers[w])
    ensures var t := At(start, run, i).t;
            && p in t.payments && q in t.payments
            && t.payments[p].terms.receiverWalletId in t.receiverWallets && t.payments[q].terms.receiverWalletId in t.receiverWallets
            && t.payments[p].terms.receiverWalletId != t.payments[q].terms.receiverWalletId
            && (t.payments[p].terms.disbursementId.Some? && t.payments[q].terms.disbursementId.Some? ==>
                  && t.payments[p].terms.disbursementId != t.payments[q].terms.disbursementId
                  && t.payments[p].terms.assetId != t.payments[q].terms.assetId
                  && t.receiverWallets[t.payments[p].terms.receiverWalletId].walletId
                     != t.receiverWallets[t.payments[q].terms.receiverWalletId].walletId)
  {
    hide TakeClaim;
    AlwaysOk(cfg, start, run, i);
    var sys := At(start, run, i);
    assert Locks(sys.workers[v]) !! Locks(sys.workers[w]);
    SharedRow(sys.t, Locks(sys.workers[v]), Locks(sys.workers[w]), p, q);
  }

  lemma SharedRow(t: Tables, a: set<Row>, b: set<Row>, p: Id, q: Id)
    requires Holds(t, a, p) && Holds(t, b, q) && a !! b
    ensures t.payments[p].terms.receiverWalletId != t.payments[q].terms.receiverWalletId
    ensures t.payments[p].terms.disbursementId.Some? && t.payments[q].terms.disbursementId.Some? ==>
              && t.payments[p].terms.disbursementId != t.payments[q].terms.disbursementId
              && t.payments[p].terms.assetId != t.payments[q].terms.assetId
              && t.receiverWallets[t.payments[p].terms.receiverWalletId].walletId
                 != t.receiverWallets[t.payments[q].terms.receiverWalletId].walletId
  {
    var x, y := t.payments[p].terms, t.payments[q].terms;
    assert ReceiverWalletRow(x.receiverWalletId) in a && ReceiverWalletRow(y.receiverWalletId) in b;
    if x.disbursementId.Some? && y.disbursementId.Some? {
      assert DisbursementRow(x.disbursementId.value) in a && DisbursementRow(y.disbursementId.value) in b;
      assert AssetRow(x.assetId) in a && AssetRow(y.assetId) in b;
      assert WalletRow(t.receiverWallets[x.receiverWalletId].walletId) in a && WalletRow(t.receiverWallets[y.receiverWalletId].walletId) in b;
    }
  }

  // ------------------------------------------------------------------ what the others see of it

  lemma EnteringIsAStep(cfg: Config, t: Tables, ids: set<Id>, s: PS.PaymentStatus)
    requires s.FAILED? || s.PENDING?
    requires forall i :: i in ids && i in t.payments ==> t.payments[i].status.READY?
    ensures Take(cfg, t, SetStatuses(ids, s, None), t.(payments := EnterAll(t.payments, ids, s)))
  {
    assert EnterWith(t.payments, ids, s, None) == EnterAll(t.payments, ids, s);
  }

  /**
   A commit is two ordinary steps on the tables: the refused payments of the batch fail, the others
   become pending, all along allowed transitions.  Every other claim step leaves the tables alone.
   */
  lemma CommitIsTwoSteps(cfg: Config, sys: System, w: nat, sys': System) returns (mid: Tables)
    requires SystemOk(sys) && TakeClaim(cfg, sys, Commit(w), sys')
    ensures var batch, refused := Elements(sys.workers[w].batch), sys.workers[w].refused;
            && Take(cfg, sys.t, SetStatuses(batch * refused, PS.FAILED, None), mid)
            && Take(cfg, mid, SetStatuses(batch - refused, PS.PENDING, None), sys'.t)
  {
    var worker := sys.workers[w];
    var batch, refused := Elements(worker.batch), worker.refused;
    forall p | p in batch
      ensures p in sys.t.payments && sys.t.payments[p].status.READY?
    {
      assert p in Held(worker) && WorkerOk(sys.t, worker);
      HeldImplies(sys.t, Locks(worker), p);
    }
    mid := sys.t.(payments := EnterAll(sys.t.payments, batch * refused, PS.FAILED));
    hide Take, SystemOk;
    EnteringIsAStep(cfg, sys.t, batch * refused, PS.FAILED);
    EnteringIsAStep(cfg, mid, batch - refused, PS.PENDING);
  }

  lemma ConsistentClaimStep(cfg: Config, sys: System, step: ClaimStep, sys': System)
    requires SystemOk(sys) && Consistent(sys.t) && TakeClaim(cfg, sys, step, sys')
    ensures Consistent(sys'.t)
  {
    hide Consistent, Take, SystemOk, Selects, LocksRespected;
    match step
    case Commit(w) =>
      var mid := CommitIsTwoSteps(cfg, sys, w, sys');
      hide TakeClaim;
      var batch, refused := Elements(sys.workers[w].batch), sys.workers[w].refused;
      ConsistentStep(cfg, sys.t, SetStatuses(batch * refused, PS.FAILED, None), mid);
      ConsistentStep(cfg, mid, SetStatuses(batch - refused, PS.PENDING, None), sys'.t);
    case Other(s, after) => ConsistentStep(cfg, sys.t, s, after);
    case _ =>
  }

  /** With any number of workers interleaved with everything else, the tables stay consistent. */
  lemma {:induction false} ConsistentUnderConcurrency(cfg: Config, start: System, run: seq<ClaimEvent>, i: nat)
    requires IsRun(cfg, start, run) && Consistent(start.t) && i <= |run|
    ensures Consistent(At(start, run, i).t)
  {
    hide TakeClaim, Consistent, SystemOk;
    if i > 0 {
      ConsistentUnderConcurrency(cfg, start, run, i - 1);
      AlwaysOk(cfg, start, run, i - 1);
      ConsistentClaimStep(cfg, At(start, run, i - 1), run[i - 1].step, run[i - 1].after);
    }
  }

  /** So a payment is submitted at most once more often than it failed, however the workers interleave. */
  lemma SubmittedOnceMoreThanFailedConcurrently(cfg: Config, start: System, run: seq<ClaimEvent>, i: nat, p: Id)
    requires IsRun(cfg, start, run) && Consistent(start.t) && i <= |run| && p in At(start, run, i).t.payments
    ensures var h := At(start, run, i).t.payments[p].history;
            Runs.Count(h, PS.PENDING) <= Runs.Count(h, PS.FAILED) + 1
  {
    hide TakeClaim;
    ConsistentUnderConcurrency(cfg, start, run, i);
    Runs.PendingCount(At(start, run, i).t.payments[p].history);
  }
}

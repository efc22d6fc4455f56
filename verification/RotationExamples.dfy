/** Runs of the rotation protocol in which what one might expect of it does not hold. */
module RotationExamples {
  import opened Wrappers
  import opened Ledger
  import opened Rotation
  import opened RotationProtocol

  function Funded(native: nat): Account {
    Account(native, map[], 0)
  }

  function ExampleStart(): World {
    World(map["A" := Funded(1_000_000_000)], {"A"}, "A", {"A"}, "A", {}, {}, Idle)
  }

  function OnlyXlm(amount: nat): Balances {
    map[XLM := amount]
  }

  function ExampleTransaction(): Transaction {
    Transaction("A", "B", RotationOperations("B", "A", [], OnlyXlm(1_000_000_000), 5), OnlyXlm(1_000_000_000), 5)
  }

  // A whole rotation, with the old address created again just before its key is deleted.
  function ExampleRun(): seq<Event> {
    var tx := ExampleTransaction();
    var w0 := ExampleStart();
    var w1 := w0.(vault := {"A"} + {"B"}, ours := {"A"} + {"B"}, phase := Inserted("A", "B"));
    var w2 := w1.(sent := {} + {tx}, phase := Sent(tx));
    var w3 := w2.(ledger := map["B" := Funded(1_000_000_000)], sent := {tx} - {tx}, applied := {} + {tx});
    var w4 := w3.(phase := Submitted("A", "B"));
    var w5 := w4.(tenant := "B", phase := Repointed("A", "B"));
    var w6 := w5.(ledger := map["B" := Funded(1_000_000_000), "A" := Funded(10_000_000)]);
    var w7 := w6.(vault := {"A"} + {"B"} - {"A"}, phase := Idle);
    [Event(InsertKey("B", true), w1), Event(Send(tx), w2), Event(Apply(tx), w3), Event(Confirm, w4),
     Event(Repoint(true), w5), Event(Environment, w6), Event(DeleteKey, w7)]
  }

  lemma OnlyXlmIsNative(amount: nat)
    ensures var b := OnlyXlm(amount); OneNative(b) && CreditLines(b) == map[] && |b| == 1 && Enumerates([], b)
  {
    var b := OnlyXlm(amount);
    assert IsNative(XLM);
    hide IsNative;
    assert XLM in b && forall a :: a in b ==> a == XLM;
  }

  lemma ExampleMoves()
    ensures WellFormed(ExampleTransaction())
    ensures Run(map["A" := Funded(1_000_000_000)], "A", ExampleTransaction().operations) == Some(map["B" := Funded(1_000_000_000)])
  {
    hide RotationOperations, Run, OneNative, Enumerates, CreditLines;
    var tx := ExampleTransaction();
    var l := map["A" := Funded(1_000_000_000)];
    OnlyXlmIsNative(1_000_000_000);
    assert InOrder(tx, []);
    RotationTransaction(l, "B", "A", [], tx.balances, 5);
    assert CanRotate(l, "B", "A", tx.balances, 5);
    assert Rotated(l, "B", "A") == map["B" := Funded(1_000_000_000)];
  }

  /** The code deletes the old key without looking: a run in which that strands an account. */
  lemma DeletionCanStrand()
    ensures IsRun(ExampleStart(), ExampleRun())
    ensures NoneStranded(At(ExampleStart(), ExampleRun(), 6)) && StrandedAccount(At(ExampleStart(), ExampleRun(), 7), "A")
  {
    ExampleMoves();
    hide Run, WellFormed;
    var start, run := ExampleStart(), ExampleRun();
    assert Start(start);
    forall i | 0 <= i < 7
      ensures Take(At(start, run, i), run[i].step, run[i].after)
    {
    }
  }

  // The transaction is applied although the call that sent it reported an error.
  function AbandonedRun(): seq<Event> {
    var tx := ExampleTransaction();
    var w0 := ExampleStart();
    var w1 := w0.(vault := {"A"} + {"B"}, ours := {"A"} + {"B"}, phase := Inserted("A", "B"));
    var w2 := w1.(sent := {} + {tx}, phase := Sent(tx));
    var w3 := w2.(phase := Idle);
    var w4 := w3.(ledger := map["B" := Funded(1_000_000_000)], sent := {tx} - {tx}, applied := {} + {tx});
    [Event(InsertKey("B", true), w1), Event(Send(tx), w2), Event(Abort, w3), Event(Apply(tx), w4)]
  }

  /** A run in which the funds are in an abandoned account, and the tenant points to one that is gone. */
  lemma FundsCanBeAbandoned()
    ensures IsRun(ExampleStart(), AbandonedRun())
    ensures var w := At(ExampleStart(), AbandonedRun(), 4);
            Abandoned(w, "B") && Holder(ExampleStart(), AbandonedRun(), 4) == "B" && Holds(w, "B") && w.tenant !in w.ledger
  {
    ExampleMoves();
    hide Run, WellFormed;
    var start, run := ExampleStart(), AbandonedRun();
    assert Start(start);
    forall i | 0 <= i < 4
      ensures Take(At(start, run, i), run[i].step, run[i].after)
    {
    }
    NeverStranded(start, run, 4);
    HolderMoves(start, run);
  }

  lemma HolderMoves(start: World, run: seq<Event>)
    requires start == ExampleStart() && run == AbandonedRun()
    ensures Holder(start, run, 4) == "B"
  {
    assert Holder(start, run, 1) == "A";
    assert Holder(start, run, 2) == "A";
    assert Holder(start, run, 3) == "A";
  }
}

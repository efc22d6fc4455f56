/** The whole upload, and why it does what UploadedAs says exactly when Uploadable says so. */
module Processing {
  import opened Wrappers
  import opened Sequences
  import opened GoStrings
  import opened Tables
  import opened Uploads
  import opened UploadConditions
  import opened Reconciliation
  import opened ReceiverWallets
  import opened Instructions
  import opened Stores
  import DS = DisbursementStatuses

  lemma ReconciledLocated(before: map<Id, Receiver>, after: map<Id, Receiver>, instructions: seq<Instruction>, rs: seq<Id>, receivers: map<Id, Receiver>)
    requires ReceiversReconciled(before, after, instructions, rs)
    requires receivers.Keys == Elements(rs) && forall q :: q in receivers ==> q in after && receivers[q] == after[q]
    ensures Located(receivers, instructions, rs)
  {
    hide Contact, Owns;
  }

  // ------------------------------------------------------------------- the rows of the contacts

  // The state after the first two steps.
  ghost predicate Found(t: Tables, receivers: map<Id, Receiver>, mid: map<Id, ReceiverWallet>, walletId: Id,
                        instructions: seq<Instruction>, rs: seq<Id>, ws: seq<Id>)
  {
    && SchemaOk(t) && ReceiversReconciled(t.receivers, receivers, instructions, rs)
    && RowsMade(t.receiverWallets, mid, Elements(rs), walletId)
    && Rowed(mid, rs, ws) && forall k :: 0 <= k < |ws| ==> mid[ws[k]].walletId == walletId
  }

  // Who had instruction k's contact before, if anybody.
  lemma OwnerIsPlaced(t: Tables, receivers: map<Id, Receiver>, instructions: seq<Instruction>, rs: seq<Id>, k: nat, q: Id)
    requires ReceiversReconciled(t.receivers, receivers, instructions, rs) && k < |rs|
    ensures q in t.receivers && Owns(t.receivers[q], ContactText(instructions[k])) <==> q in t.receivers && q == rs[k]
  {
    ContactTextOk(instructions[k]);
    hide Contact, ContactText, Owns;
  }

  lemma FoundKeys(t: Tables, receivers: map<Id, Receiver>, mid: map<Id, ReceiverWallet>, walletId: Id,
                  instructions: seq<Instruction>, rs: seq<Id>, ws: seq<Id>)
    requires Found(t, receivers, mid, walletId, instructions, rs, ws)
    ensures |ws| == |rs| == |instructions| && Rowed(mid, rs, ws) && forall w :: w in t.receiverWallets ==> w in mid
    ensures forall k :: 0 <= k < |ws| ==> ws[k] in mid && IsRow(mid[ws[k]], rs[k], walletId)
  {
  }

  lemma MidRow(t: Tables, receivers: map<Id, Receiver>, mid: map<Id, ReceiverWallet>, walletId: Id,
               instructions: seq<Instruction>, rs: seq<Id>, ws: seq<Id>, w: Id)
    requires Found(t, receivers, mid, walletId, instructions, rs, ws) && w in mid
    ensures if w in t.receiverWallets then
              && mid[w].receiverId == t.receiverWallets[w].receiverId && mid[w].walletId == t.receiverWallets[w].walletId
              && mid[w].stellarAddress == t.receiverWallets[w].stellarAddress
              && SkipsRegistration(mid[w]) == SkipsRegistration(t.receiverWallets[w])
            else mid[w].stellarAddress == "" && !SkipsRegistration(mid[w])
  {
    hide ReceiversReconciled, Rowed, SchemaOk, Elements;
  }

  lemma RowOfContact(t: Tables, receivers: map<Id, Receiver>, mid: map<Id, ReceiverWallet>, walletId: Id,
                     instructions: seq<Instruction>, rs: seq<Id>, ws: seq<Id>, k: nat, w: Id)
    requires Found(t, receivers, mid, walletId, instructions, rs, ws) && k < |rs|
    ensures IsRowOf(t, walletId, ContactText(instructions[k]), w) <==> w in t.receiverWallets && w == ws[k]
  {
    if w in t.receiverWallets {
      assert w in mid && WalletsUnique(mid) && t.receiverWallets[w].receiverId in t.receivers;
      MidRow(t, receivers, mid, walletId, instructions, rs, ws, w);
      OwnerIsPlaced(t, receivers, instructions, rs, k, t.receiverWallets[w].receiverId);
      hide Contact, ContactText, Owns, RowsMade, ReceiversReconciled, SchemaOk, SkipsRegistration, Elements;
    }
  }

  lemma RegistersRow(t: Tables, receivers: map<Id, Receiver>, mid: map<Id, ReceiverWallet>, walletId: Id,
                     instructions: seq<Instruction>, rs: seq<Id>, ws: seq<Id>, k: nat)
    requires Found(t, receivers, mid, walletId, instructions, rs, ws) && k < |rs|
    ensures Registers(t, walletId, ContactText(instructions[k])) <==> !SkipsRegistration(mid[ws[k]])
  {
    MidRow(t, receivers, mid, walletId, instructions, rs, ws, ws[k]);
    hide Found, IsRowOf, SkipsRegistration, ContactText;
    forall w
      ensures IsRowOf(t, walletId, ContactText(instructions[k]), w) <==> w in t.receiverWallets && w == ws[k]
    {
      RowOfContact(t, receivers, mid, walletId, instructions, rs, ws, k, w);
    }
  }

  // What AddressesOk says of one instruction.
  ghost predicate AddressOk(lib: Libraries, t: Tables, walletId: Id, i: Instruction) {
    && (forall w :: IsRowOf(t, walletId, ContactText(i), w) ==>
          t.receiverWallets[w].stellarAddress == "" || t.receiverWallets[w].stellarAddress == i.walletAddress)
    && (Registers(t, walletId, ContactText(i)) ==>
          && Registrable(lib, i)
          && forall w :: w in t.receiverWallets && t.receiverWallets[w].stellarAddress == i.walletAddress != "" ==>
               && t.receiverWallets[w].receiverId in t.receivers
               && Owns(t.receivers[t.receiverWallets[w].receiverId], ContactText(i)))
  }

  lemma RowAccepts(lib: Libraries, t: Tables, receivers: map<Id, Receiver>, mid: map<Id, ReceiverWallet>, walletId: Id,
                   instructions: seq<Instruction>, rs: seq<Id>, ws: seq<Id>, k: nat)
    requires Found(t, receivers, mid, walletId, instructions, rs, ws) && k < |rs|
    ensures AddressOk(lib, t, walletId, instructions[k]) <==> Acceptable(lib, mid, mid[ws[k]], instructions[k])
  {
    hide Found, Rowed, IsRowOf, SkipsRegistration, ContactText, Registers, Registrable, Owns;
    FoundKeys(t, receivers, mid, walletId, instructions, rs, ws);
    var i := instructions[k];
    RegistersRow(t, receivers, mid, walletId, instructions, rs, ws, k);
    MidRow(t, receivers, mid, walletId, instructions, rs, ws, ws[k]);
    forall w
      ensures IsRowOf(t, walletId, ContactText(i), w) <==> w in t.receiverWallets && w == ws[k]
    {
      RowOfContact(t, receivers, mid, walletId, instructions, rs, ws, k, w);
    }
    TakenElsewhere(t, receivers, mid, walletId, instructions, rs, ws, k);
  }

  // The address belongs to the instruction's receiver, if to anybody, before and after the rows were made.
  lemma TakenElsewhere(t: Tables, receivers: map<Id, Receiver>, mid: map<Id, ReceiverWallet>, walletId: Id,
                       instructions: seq<Instruction>, rs: seq<Id>, ws: seq<Id>, k: nat)
    requires Found(t, receivers, mid, walletId, instructions, rs, ws) && k < |rs|
    ensures var i := instructions[k];
            (forall w :: w in t.receiverWallets && t.receiverWallets[w].stellarAddress == i.walletAddress != "" ==>
               && t.receiverWallets[w].receiverId in t.receivers
               && Owns(t.receivers[t.receiverWallets[w].receiverId], ContactText(i)))
            <==> (forall v :: v in mid && mid[v].stellarAddress == i.walletAddress != "" ==> mid[v].receiverId == rs[k])
  {
    forall w | w in mid
      ensures mid[w].stellarAddress != "" ==>
                && w in t.receiverWallets && mid[w].receiverId == t.receiverWallets[w].receiverId
                && mid[w].stellarAddress == t.receiverWallets[w].stellarAddress
    {
      MidRow(t, receivers, mid, walletId, instructions, rs, ws, w);
    }
    forall w | w in t.receiverWallets
      ensures w in mid && mid[w].stellarAddress == t.receiverWallets[w].stellarAddress
      ensures t.receiverWallets[w].receiverId in t.receivers
      ensures Owns(t.receivers[t.receiverWallets[w].receiverId], ContactText(instructions[k])) <==> t.receiverWallets[w].receiverId == rs[k]
    {
      MidRow(t, receivers, mid, walletId, instructions, rs, ws, w);
      OwnerIsPlaced(t, receivers, instructions, rs, k, t.receiverWallets[w].receiverId);
    }
    hide Found, Owns, ContactText;
  }

  /** The addresses can be registered exactly when the tables before the upload say so. */
  lemma AddressesOkIffRegistrable(lib: Libraries, t: Tables, receivers: map<Id, Receiver>, mid: map<Id, ReceiverWallet>, walletId: Id,
                                  instructions: seq<Instruction>, rs: seq<Id>, ws: seq<Id>)
    requires Found(t, receivers, mid, walletId, instructions, rs, ws)
    ensures |rs| == |instructions|
    ensures AddressesOk(lib, t, walletId, instructions) <==> RowsRegistrable(lib, mid, instructions, rs, ws)
  {
    hide Found, AddressesOk, Acceptable, AddressOk, Registers, SkipsRegistration, ContactText, Rowed;
    FoundKeys(t, receivers, mid, walletId, instructions, rs, ws);
    forall k | 0 <= k < |rs|
      ensures AddressOk(lib, t, walletId, instructions[k]) <==> Acceptable(lib, mid, mid[ws[k]], instructions[k])
      ensures Registers(t, walletId, ContactText(instructions[k])) <==> !SkipsRegistration(mid[ws[k]])
    {
      RowAccepts(lib, t, receivers, mid, walletId, instructions, rs, ws, k);
      RegistersRow(t, receivers, mid, walletId, instructions, rs, ws, k);
    }
    EachAddressOk(lib, t, walletId, instructions);
  }

  lemma EachAddressOk(lib: Libraries, t: Tables, walletId: Id, instructions: seq<Instruction>)
    ensures AddressesOk(lib, t, walletId, instructions) <==>
              && instructions != []
              && (forall k :: 0 <= k < |instructions| ==> AddressOk(lib, t, walletId, instructions[k]))
              && (forall j, k :: 0 <= j < k < |instructions|
                                 && Registers(t, walletId, ContactText(instructions[j])) && Registers(t, walletId, ContactText(instructions[k])) ==>
                    instructions[j].walletAddress == "" || instructions[j].walletAddress != instructions[k].walletAddress)
  {
    hide IsRowOf, Registers, Registrable, ContactText, Owns;
  }

  // --------------------------------------------------------------------------- verifications

  lemma TypedContact(i: Instruction, contactType: ContactType)
    requires Contact(i).Ok?
    ensures Typed(i, contactType) <==> ContactByType(NewReceiver(i), contactType) == ContactText(i)
  {
  }

  // A contact of the disbursement's kind on a receiver is one on the instruction.
  lemma SameKind(r: Receiver, i: Instruction, contactType: ContactType)
    requires WellKinded(r.phone, r.email) && WellKinded(i.phone, i.email) && Contact(i).Ok?
    requires ContactByType(r, contactType) == ContactText(i)
    ensures Typed(i, contactType)
  {
  }

  ghost predicate VerificationOk(lib: Libraries, t: Tables, field: string, contactType: ContactType, i: Instruction) {
    && Typed(i, contactType)
    && (forall q :: q in t.receivers && Owns(t.receivers[q], ContactText(i)) ==> ValueOk(lib, t.verifications, (q, field), i.verificationValue))
    && (Unowned(t.receivers, ContactText(i)) ==> !IsBlank(i.verificationValue) && lib.hashable(i.verificationValue))
  }

  lemma VerifiedWhereOk(lib: Libraries, t: Tables, receivers: map<Id, Receiver>, after: map<Id, Receiver>, instructions: seq<Instruction>,
                        rs: seq<Id>, field: string, contactType: ContactType, k: nat)
    requires SchemaOk(t) && ReceiversReconciled(t.receivers, after, instructions, rs) && Located(receivers, instructions, rs)
    requires forall q :: q in receivers ==> q in after && receivers[q] == after[q]
    requires Reconcilable(t.receivers, instructions, contactType) && AllWellKinded(instructions) && k < |rs|
    ensures VerificationOk(lib, t, field, contactType, instructions[k]) <==>
            VerifiableAt(lib, t.verifications, receivers, instructions[k], field, contactType, rs[k])
  {
    var i, q := instructions[k], rs[k];
    forall r | r in t.receivers
      ensures Owns(t.receivers[r], ContactText(i)) <==> r == q
    {
      OwnerIsPlaced(t, after, instructions, rs, k, r);
    }
    assert Contact(i).Ok?;
    if q in t.receivers {
      assert ContactByType(t.receivers[q], contactType) == ContactText(i);
      SameKind(t.receivers[q], i, contactType);
    } else {
      TypedContact(i, contactType);
      assert (q, field) !in t.verifications;
    }
    hide SchemaOk, ReceiversReconciled, Located, Reconcilable, Contact, ContactText, ContactByType, Owns, Typed;
  }

  /** The verifications can be made exactly when the tables before the upload say so. */
  lemma VerificationsOkIffVerifiable(lib: Libraries, t: Tables, receivers: map<Id, Receiver>, after: map<Id, Receiver>,
                                     instructions: seq<Instruction>, rs: seq<Id>, field: string, contactType: ContactType)
    requires SchemaOk(t) && ReceiversReconciled(t.receivers, after, instructions, rs) && Located(receivers, instructions, rs)
    requires forall q :: q in receivers ==> q in after && receivers[q] == after[q]
    requires Reconcilable(t.receivers, instructions, contactType) && AllWellKinded(instructions)
    ensures VerificationsOk(lib, t, field, contactType, instructions) <==>
            Verifiable(lib, t.verifications, receivers, instructions, field, contactType, rs)
  {
    EachVerificationOk(lib, t, field, contactType, instructions);
    forall k | 0 <= k < |rs|
      ensures VerificationOk(lib, t, field, contactType, instructions[k]) <==>
              VerifiableAt(lib, t.verifications, receivers, instructions[k], field, contactType, rs[k])
    {
      VerifiedWhereOk(lib, t, receivers, after, instructions, rs, field, contactType, k);
    }
    hide VerificationOk, VerifiableAt, VerificationsOk, SchemaOk, ReceiversReconciled, Reconcilable, Contact, Owns;
  }

  lemma EachVerificationOk(lib: Libraries, t: Tables, field: string, contactType: ContactType, instructions: seq<Instruction>)
    ensures VerificationsOk(lib, t, field, contactType, instructions) <==>
            forall k :: 0 <= k < |instructions| ==> VerificationOk(lib, t, field, contactType, instructions[k])
  {
    hide Owns, ContactText, ValueOk, Unowned, IsBlank, Typed;
  }

  // ------------------------------------------------------------------------------ the new tables

  // The wallet rows after the registration step, if the disbursement has one.
  ghost predicate Finished(lib: Libraries, d: Disbursement, mid: map<Id, ReceiverWallet>, now: map<Id, ReceiverWallet>,
                           instructions: seq<Instruction>, rs: seq<Id>, ws: seq<Id>)
    requires |rs| == |instructions| && Rowed(mid, rs, ws)
  {
    if d.includesWalletAddress then
      RowsRegistrable(lib, mid, instructions, rs, ws) && Settled(lib, mid, now, instructions, ws, |ws|)
    else now == mid
  }

  lemma FinishedRow(lib: Libraries, d: Disbursement, mid: map<Id, ReceiverWallet>, now: map<Id, ReceiverWallet>,
                    instructions: seq<Instruction>, rs: seq<Id>, ws: seq<Id>, w: Id)
    requires |rs| == |instructions| && Rowed(mid, rs, ws) && Finished(lib, d, mid, now, instructions, rs, ws) && w in mid
    ensures w in now && now[w].receiverId == mid[w].receiverId && now[w].walletId == mid[w].walletId
    ensures w !in ws ==> now[w] == mid[w]
    ensures forall k :: 0 <= k < |ws| && ws[k] == w ==> now[w] == SettledWallet(lib, d, mid[w], instructions[k])
    ensures d.includesWalletAddress ==> forall k :: 0 <= k < |ws| && ws[k] == w ==> mid[w].stellarAddress == "" || mid[w].stellarAddress == instructions[k].walletAddress
    ensures now.Keys == mid.Keys
  {
    if d.includesWalletAddress && w in ws {
      var k :| 0 <= k < |ws| && ws[k] == w;
      OneSettled(mid, rs, ws, k, w);
      assert Acceptable(lib, mid, mid[ws[k]], instructions[k]);
    }
  }

  lemma FoundRow(t: Tables, receivers: map<Id, Receiver>, mid: map<Id, ReceiverWallet>, walletId: Id,
                 instructions: seq<Instruction>, rs: seq<Id>, ws: seq<Id>, w: Id)
    requires Found(t, receivers, mid, walletId, instructions, rs, ws) && w in mid
    ensures w in ws ==> if w in t.receiverWallets then mid[w] == Reinvited(t.receiverWallets[w])
                        else mid[w] == NewWallet(mid[w].receiverId, walletId) && NoRow(t.receiverWallets, mid[w].receiverId, walletId)
    ensures w !in ws ==> w in t.receiverWallets && mid[w] == t.receiverWallets[w]
  {
    if w in ws {
      var k :| 0 <= k < |ws| && ws[k] == w;
      assert mid[w].receiverId == rs[k] && rs[k] in Elements(rs);
      MidRow(t, receivers, mid, walletId, instructions, rs, ws, w);
    } else {
      NotPlaced(t, receivers, mid, walletId, instructions, rs, ws, w);
    }
  }

  lemma NotPlaced(t: Tables, receivers: map<Id, Receiver>, mid: map<Id, ReceiverWallet>, walletId: Id,
                  instructions: seq<Instruction>, rs: seq<Id>, ws: seq<Id>, w: Id)
    requires Found(t, receivers, mid, walletId, instructions, rs, ws) && w in mid && w !in ws
    ensures mid[w].walletId != walletId || mid[w].receiverId !in rs
  {
    forall k | 0 <= k < |rs| && mid[w].walletId == walletId
      ensures rs[k] != mid[w].receiverId
    {
      assert ws[k] in mid && ws[k] in ws && WalletsUnique(mid);
    }
  }

  /** The wallet step and the registration step together leave the rows as WalletsReady says. */
  lemma WalletsAreReady(lib: Libraries, d: Disbursement, t: Tables, receivers: map<Id, Receiver>, mid: map<Id, ReceiverWallet>,
                        now: map<Id, ReceiverWallet>, instructions: seq<Instruction>, rs: seq<Id>, ws: seq<Id>)
    requires Found(t, receivers, mid, d.walletId, instructions, rs, ws) && |rs| == |instructions|
    requires Finished(lib, d, mid, now, instructions, rs, ws)
    ensures WalletsReady(lib, t.receiverWallets, now, d, instructions, rs, ws)
    ensures WalletsUnique(now)
  {
    hide Found, Finished, ReadyAt, WalletsUnique, Rowed;
    FoundKeys(t, receivers, mid, d.walletId, instructions, rs, ws);
    SameKeys(lib, d, mid, now, instructions, rs, ws);
    KeptUnique(lib, d, t, receivers, mid, now, instructions, rs, ws);
    forall w | w in now && w !in ws
      ensures w in t.receiverWallets && now[w] == t.receiverWallets[w]
    {
      FinishedRow(lib, d, mid, now, instructions, rs, ws, w);
      FoundRow(t, receivers, mid, d.walletId, instructions, rs, ws, w);
    }
    forall k | 0 <= k < |ws|
      ensures ReadyAt(lib, t.receiverWallets, now, d, instructions[k], rs[k], ws[k])
    {
      RowReady(lib, d, t, receivers, mid, now, instructions, rs, ws, k);
    }
  }

  lemma RowReady(lib: Libraries, d: Disbursement, t: Tables, receivers: map<Id, Receiver>, mid: map<Id, ReceiverWallet>,
                 now: map<Id, ReceiverWallet>, instructions: seq<Instruction>, rs: seq<Id>, ws: seq<Id>, k: nat)
    requires Found(t, receivers, mid, d.walletId, instructions, rs, ws) && |rs| == |instructions| && k < |ws|
    requires Finished(lib, d, mid, now, instructions, rs, ws)
    ensures ReadyAt(lib, t.receiverWallets, now, d, instructions[k], rs[k], ws[k])
  {
    hide Found, Rowed, Finished, SettledWallet, Reinvited;
    FoundKeys(t, receivers, mid, d.walletId, instructions, rs, ws);
    assert ws[k] in ws;
    FinishedRow(lib, d, mid, now, instructions, rs, ws, ws[k]);
    FoundRow(t, receivers, mid, d.walletId, instructions, rs, ws, ws[k]);
  }

  lemma KeptUnique(lib: Libraries, d: Disbursement, t: Tables, receivers: map<Id, Receiver>, mid: map<Id, ReceiverWallet>,
                   now: map<Id, ReceiverWallet>, instructions: seq<Instruction>, rs: seq<Id>, ws: seq<Id>)
    requires Found(t, receivers, mid, d.walletId, instructions, rs, ws) && |rs| == |instructions|
    requires Finished(lib, d, mid, now, instructions, rs, ws)
    ensures WalletsUnique(now)
  {
    forall w | w in now
      ensures w in mid && now[w].receiverId == mid[w].receiverId && now[w].walletId == mid[w].walletId
    {
      SameKeys(lib, d, mid, now, instructions, rs, ws);
      FinishedRow(lib, d, mid, now, instructions, rs, ws, w);
    }
    assert WalletsUnique(mid);
    hide Finished, Found;
  }

  lemma SameKeys(lib: Libraries, d: Disbursement, mid: map<Id, ReceiverWallet>, now: map<Id, ReceiverWallet>,
                 instructions: seq<Instruction>, rs: seq<Id>, ws: seq<Id>)
    requires |rs| == |instructions| && Rowed(mid, rs, ws) && Finished(lib, d, mid, now, instructions, rs, ws)
    ensures now.Keys == mid.Keys
  {
  }

  lemma PaymentsAreReplaced(before: map<Id, Payment>, after: map<Id, Payment>, d: Disbursement, disbursementId: Id,
                            instructions: seq<Instruction>, pl: Placement)
    requires |pl.receivers| == |pl.wallets| == |instructions|
    requires PaymentsMade(WithoutDrafts(before, disbursementId), after, d, disbursementId, instructions,
                          pl.receivers, pl.wallets, pl.payments, before.Keys)
    requires forall k :: 0 <= k < |instructions| ==> ValidAmount(instructions[k].amount)
    ensures PaymentsReplaced(before, after, d, disbursementId, instructions, pl)
  {
    hide WithoutDrafts, ValidAmount;
  }

  lemma SchemaKept(lib: Libraries, d: Disbursement, t: Tables, t': Tables, instructions: seq<Instruction>, rs: seq<Id>, ws: seq<Id>)
    requires SchemaOk(t) && ReceiversOk(t'.receivers) && WalletsUnique(t'.receiverWallets)
    requires ReceiversReconciled(t.receivers, t'.receivers, instructions, rs)
    requires WalletsReady(lib, t.receiverWallets, t'.receiverWallets, d, instructions, rs, ws)
    requires VerificationsReady(lib, t.verifications, t'.verifications, d, instructions, rs)
    ensures SchemaOk(t')
  {
    hide ReceiversOk, WalletsUnique, VerifiedAt, Contact, Owns;
    forall w | w in t'.receiverWallets
      ensures t'.receiverWallets[w].receiverId in t'.receivers
    {
      if w in ws {
        var k :| 0 <= k < |ws| && ws[k] == w;
        assert ReadyAt(lib, t.receiverWallets, t'.receiverWallets, d, instructions[k], rs[k], ws[k]);
        assert rs[k] in t'.receivers;
      }
    }
  }

  // --------------------------------------------------------------------------------- the method

  // A statement may fail at any point on a database that is not healthy.
  method DatabaseFails(healthy: bool) returns (fails: bool)
    ensures healthy ==> !fails
  {
    var choice: bool := *;
    fails := !healthy && choice;
  }

  lemma RowsAreFound(t: Tables, receivers: map<Id, Receiver>, mid: map<Id, ReceiverWallet>, walletId: Id, instructions: seq<Instruction>,
                     rs: seq<Id>, rowOf: map<Id, Id>)
    requires SchemaOk(t) && ReceiversReconciled(t.receivers, receivers, instructions, rs)
    requires RowsMade(t.receiverWallets, mid, Elements(rs), walletId) && RowsOf(mid, Elements(rs), walletId, rowOf)
    ensures forall k :: 0 <= k < |rs| ==> rs[k] in rowOf
    ensures Found(t, receivers, mid, walletId, instructions, rs, RowSeq(rowOf, rs))
    ensures AddressesUnique(t.receiverWallets) ==> AddressesUnique(mid)
  {
    ReconciledDistinct(t.receivers, receivers, instructions, rs);
    RowSeqRowed(mid, Elements(rs), walletId, rowOf, rs);
    SameWallet(mid, Elements(rs), walletId, rowOf, rs);
    AddressesStayUnique(t.receiverWallets, mid, Elements(rs), walletId);
    hide ReceiversReconciled, SchemaOk, RowsMade, RowsOf, Rowed, AddressesUnique, Elements, Distinct;
  }

  lemma ReconciledDistinct(before: map<Id, Receiver>, after: map<Id, Receiver>, instructions: seq<Instruction>, rs: seq<Id>)
    requires ReceiversReconciled(before, after, instructions, rs)
    ensures Distinct(rs) && |rs| == |instructions|
  {
  }

  lemma SameWallet(mid: map<Id, ReceiverWallet>, receivers: set<Id>, walletId: Id, rowOf: map<Id, Id>, rs: seq<Id>)
    requires RowsOf(mid, receivers, walletId, rowOf) && forall k :: 0 <= k < |rs| ==> rs[k] in rowOf
    ensures forall k :: 0 <= k < |rs| ==> RowSeq(rowOf, rs)[k] in mid && mid[RowSeq(rowOf, rs)[k]].walletId == walletId
  {
  }

  // Making rows gives nobody an address.
  lemma AddressesStayUnique(before: map<Id, ReceiverWallet>, after: map<Id, ReceiverWallet>, receivers: set<Id>, walletId: Id)
    requires RowsMade(before, after, receivers, walletId)
    ensures AddressesUnique(before) ==> AddressesUnique(after)
  {
    forall w | w in after && after[w].stellarAddress != ""
      ensures w in before && after[w].stellarAddress == before[w].stellarAddress && after[w].receiverId == before[w].receiverId
    {
      assert w !in before ==> NewRowOk(before, after[w], receivers, walletId);
    }
    hide RowsMade;
  }

  // The first two steps: the receivers and their rows.
  method FindReceiversAndRows(s: Store, instructions: seq<Instruction>, d: Disbursement)
    returns (r: Result<(map<Id, Receiver>, map<Id, Id>), UploadError>, ghost rs: seq<Id>, ghost ws: seq<Id>)
    requires SchemaOk(s.Snapshot()) && AllWellKinded(instructions)
    modifies s`receivers, s`receiverWallets
    ensures r.Ok? <==> Reconcilable(old(s.receivers), instructions, d.contactType)
    ensures r.Ok? ==>
              && Found(old(s.Snapshot()), s.receivers, s.receiverWallets, d.walletId, instructions, rs, ws) && ReceiversOk(s.receivers)
              && Located(r.value.0, instructions, rs)
              && (forall q :: q in r.value.0 ==> q in s.receivers && r.value.0[q] == s.receivers[q])
              && r.value.1.Keys == r.value.0.Keys && |ws| == |rs| == |instructions|
              && (forall k :: 0 <= k < |rs| ==> rs[k] in r.value.1 && ws[k] == r.value.1[rs[k]])
              && (old(AddressesUnique(s.receiverWallets)) ==> AddressesUnique(s.receiverWallets))
  {
    hide Reconcilable, ReceiversReconciled, ReceiversOk, RowsMade, RowsOf, AddressesUnique, Found, Located, Elements;
    ghost var t := s.Snapshot();
    var reconciled;
    reconciled, rs := Reconcile(s, instructions, d.contactType);
    ws := [];
    if reconciled.Err? {
      return Err(reconciled.error), rs, ws;
    }
    ReconciledLocated(t.receivers, s.receivers, instructions, rs, reconciled.value);
    LocatedShape(reconciled.value, instructions, rs);
    var rowOf := ProcessReceiverWallets(s, reconciled.value.Keys, d.walletId);
    RowsAreFound(t, s.receivers, s.receiverWallets, d.walletId, instructions, rs, rowOf);
    ws := RowSeq(rowOf, rs);
    RowKeys(s.receiverWallets, reconciled.value.Keys, d.walletId, rowOf);
    return Ok((reconciled.value, rowOf)), rs, ws;
  }

  lemma RowKeys(ws: map<Id, ReceiverWallet>, receivers: set<Id>, walletId: Id, rowOf: map<Id, Id>)
    requires RowsOf(ws, receivers, walletId, rowOf)
    ensures rowOf.Keys == receivers
  {
  }

  // The third step: the supplied addresses, or the verifications, or neither.
  method RegisterOrVerify(s: Store, instructions: seq<Instruction>, d: Disbursement, receivers: map<Id, Receiver>, rowOf: map<Id, Id>,
                          ghost t: Tables, ghost rs: seq<Id>, ghost ws: seq<Id>)
    returns (o: Outcome<UploadError>)
    requires Sound(s.lib) && AllWellKinded(instructions) && Reconcilable(t.receivers, instructions, d.contactType)
    requires Found(t, s.receivers, s.receiverWallets, d.walletId, instructions, rs, ws) && s.verifications == t.verifications
    requires Located(receivers, instructions, rs) && |ws| == |rs| == |instructions|
    requires forall q :: q in receivers ==> q in s.receivers && receivers[q] == s.receivers[q]
    requires rowOf.Keys == receivers.Keys && forall k :: 0 <= k < |rs| ==> rs[k] in rowOf && ws[k] == rowOf[rs[k]]
    modifies s`receiverWallets, s`verifications
    ensures o.Done? <==>
              && (d.includesWalletAddress ==> AddressesOk(s.lib, t, d.walletId, instructions))
              && (!d.includesWalletAddress && d.verificationField != "" ==>
                    VerificationsOk(s.lib, t, d.verificationField, d.contactType, instructions))
    ensures o.Done? ==>
              && WalletsReady(s.lib, t.receiverWallets, s.receiverWallets, d, instructions, rs, ws)
              && VerificationsReady(s.lib, t.verifications, s.verifications, d, instructions, rs)
              && WalletsUnique(s.receiverWallets)
    ensures old(AddressesUnique(s.receiverWallets)) ==> AddressesUnique(s.receiverWallets)
  {
    hide Reconcilable, Found, Located, Rowed, AddressesOk, VerificationsOk, RowsRegistrable, Settled, Verifiable, ReceiversVerified,
         WalletsReady, WalletsUnique, AddressesUnique, Sound;
    ghost var mid := s.receiverWallets;
    FoundKeys(t, s.receivers, mid, d.walletId, instructions, rs, ws);
    FoundSchema(t, s.receivers, mid, d.walletId, instructions, rs, ws);
    if d.includesWalletAddress {
      AddressesOkIffRegistrable(s.lib, t, s.receivers, mid, d.walletId, instructions, rs, ws);
      o := RegisterSuppliedWallets(s, instructions, receivers, rowOf, rs, ws);
      if o.Failed? {
        return;
      }
    } else if d.verificationField != "" {
      VerificationsOkIffVerifiable(s.lib, t, receivers, s.receivers, instructions, rs, d.verificationField, d.contactType);
      o := ProcessReceiverVerifications(s, receivers, instructions, d.verificationField, d.contactType, rs);
      if o.Failed? {
        return;
      }
    }
    o := Done;
    WalletsAreReady(s.lib, d, t, s.receivers, mid, s.receiverWallets, instructions, rs, ws);
  }

  lemma FoundSchema(t: Tables, receivers: map<Id, Receiver>, mid: map<Id, ReceiverWallet>, walletId: Id,
                    instructions: seq<Instruction>, rs: seq<Id>, ws: seq<Id>)
    requires Found(t, receivers, mid, walletId, instructions, rs, ws)
    ensures SchemaOk(t) && ReceiversReconciled(t.receivers, receivers, instructions, rs)
  {
  }

  // The fourth and fifth steps: the drafts go, the new payments come.
  method ReplacePayments(s: Store, instructions: seq<Instruction>, d: Disbursement, disbursementId: Id, receivers: map<Id, Receiver>,
                         rowOf: map<Id, Id>, ghost rs: seq<Id>, ghost ws: seq<Id>)
    returns (o: Outcome<UploadError>, ids: seq<Id>)
    requires Located(receivers, instructions, rs) && |ws| == |rs| == |instructions|
    requires rowOf.Keys == receivers.Keys && forall k :: 0 <= k < |rs| ==> rs[k] in rowOf && ws[k] == rowOf[rs[k]]
    modifies s`payments
    ensures o.Done? <==> forall k :: 0 <= k < |instructions| ==> ValidAmount(instructions[k].amount)
    ensures o.Done? ==> PaymentsReplaced(old(s.payments), s.payments, d, disbursementId, instructions, Placement(rs, ws, ids))
  {
    hide Located, PaymentsMade, PaymentsReplaced, ValidAmount, WithoutDrafts;
    ghost var before := s.payments;
    var drawn := s.payments.Keys;
    s.DeleteAllDraftForDisbursement(disbursementId);
    o, ids := CreatePayments(s, receivers, rowOf, instructions, d, disbursementId, drawn, rs, ws);
    if o.Done? {
      PaymentsAreReplaced(before, s.payments, d, disbursementId, instructions, Placement(rs, ws, ids));
    }
  }

  // The last two steps: the file, then the status.
  method FinishUpload(s: Store, u: Upload) returns (o: Outcome<UploadError>)
    requires u.disbursementId in s.disbursements
    modifies s`disbursements
    ensures o.Done? <==>
              u.fileName != "" && u.fileContent != "" && DS.Allows(old(s.disbursements)[u.disbursementId].status, DS.READY)
    ensures o.Done? ==>
              s.disbursements == old(s.disbursements)[u.disbursementId :=
                EnterDisbursement(old(s.disbursements)[u.disbursementId], u.userId, DS.READY).(fileName := u.fileName, fileContent := u.fileContent)]
  {
    hide DS.Allows;
    var filed := s.UpdateDisbursementFile(u.disbursementId, u.fileName, u.fileContent);
    if filed.Failed? {
      return Failed(StoreFailed(filed.error));
    }
    var moved := s.UpdateDisbursementStatus(u.userId, u.disbursementId, DS.READY);
    if moved.Failed? {
      return Failed(StoreFailed(moved.error));
    }
    return Done;
  }

  /**
   Processes all instructions of an upload.  On a healthy database it succeeds exactly when the tables
   and the instructions meet Uploadable; whenever it succeeds, it has done what UploadedAs says.  Where
   only the file or the status is refused, all the rest has been written by then.
   */
  method ProcessAll(s: Store, u: Upload, healthy: bool) returns (o: Outcome<UploadError>, ghost pl: Placement)
    requires Sound(s.lib) && SchemaOk(s.Snapshot()) && AllWellKinded(u.instructions)
    requires u.disbursementId in s.disbursements
    modifies s
    ensures o.Done? ==> Uploadable(s.lib, old(s.Snapshot()), u)
    ensures healthy && Uploadable(s.lib, old(s.Snapshot()), u) ==> o.Done?
    ensures o.Done? ==> UploadedAs(s.lib, old(s.Snapshot()), u, pl, s.Snapshot()) && SchemaOk(s.Snapshot())
    ensures |u.instructions| > u.maxInstructions ==> o == Failed(MaxInstructionsExceeded) && s.Snapshot() == old(s.Snapshot())
    ensures healthy && Writable(s.lib, old(s.Snapshot()), u) ==> WrittenAs(s.lib, old(s.Snapshot()), u, pl, s.Snapshot())
  {
    hide Reconcilable, Found, Located, AddressesOk, VerificationsOk, WalletsReady, VerificationsReady, PaymentsReplaced, ReceiversReconciled,
         AddressesUnique, Sound, SchemaOk, DS.Allows, EnterDisbursement, ValidAmount, AllWellKinded, ReceiversOk, WalletsUnique;
    ghost var t := s.Snapshot();
    pl := Placement([], [], []);
    if |u.instructions| > u.maxInstructions {
      return Failed(MaxInstructionsExceeded), pl;
    }
    var d := s.disbursements[u.disbursementId];
    var found;
    ghost var rs, ws;
    found, rs, ws := FindReceiversAndRows(s, u.instructions, d);
    if found.Err? {
      return Failed(found.error), pl;
    }
    var (receivers, rowOf) := found.value;
    var broken := DatabaseFails(healthy);
    if broken {
      return Failed(DatabaseFailed), pl;
    }
    FoundSchema(t, s.receivers, s.receiverWallets, d.walletId, u.instructions, rs, ws);
    o := RegisterOrVerify(s, u.instructions, d, receivers, rowOf, t, rs, ws);
    if o.Failed? {
      return;
    }
    broken := DatabaseFails(healthy);
    if broken {
      return Failed(DatabaseFailed), pl;
    }
    var ids;
    o, ids := ReplacePayments(s, u.instructions, d, u.disbursementId, receivers, rowOf, rs, ws);
    if o.Failed? {
      return;
    }
    broken := DatabaseFails(healthy);
    if broken {
      return Failed(DatabaseFailed), pl;
    }
    o := FinishUpload(s, u);
    pl := Placement(rs, ws, ids);
    if o.Done? {
      SchemaKept(s.lib, d, t, s.Snapshot(), u.instructions, rs, ws);
    }
  }
}

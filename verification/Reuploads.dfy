/** What a successful upload pays, and what uploading the same instructions again does. */
module Reuploads {
  import opened Wrappers
  import opened Sequences
  import opened GoStrings
  import opened Tables
  import opened Totals
  import opened Uploads
  import opened UploadConditions
  import opened Lifecycle
  import opened Processing
  import PS = PaymentStatuses
  import DS = DisbursementStatuses
  import WS = ReceiverWalletStatuses

  // ------------------------------------------------------------------------ what is to be paid

  function Asked(instructions: seq<Instruction>): int {
    if instructions == [] then 0 else Asked(instructions[..|instructions| - 1]) + instructions[|instructions| - 1].amount
  }

  lemma {:induction false} TotalOfPayments(ps: map<Id, Payment>, ids: seq<Id>, instructions: seq<Instruction>)
    requires |ids| == |instructions| && Distinct(ids)
    requires forall k :: 0 <= k < |ids| ==> ids[k] in ps && ps[ids[k]].terms.amount == instructions[k].amount
    ensures (forall i :: i in Elements(ids) ==> i in ps) && Total(ps, Elements(ids)) == Asked(instructions)
  {
    if ids == [] {
      assert Elements(ids) == {};
    } else {
      var n := |ids| - 1;
      TotalOfPayments(ps, ids[..n], instructions[..n]);
      assert ids == ids[..n] + [ids[n]];
      assert Elements(ids) == Elements(ids[..n]) + {ids[n]};
      DistinctSnoc(ids[..n], ids[n]);
      TotalWithout(ps, Elements(ids), ids[n]);
      assert Elements(ids) - {ids[n]} == Elements(ids[..n]);
    }
  }

  /**
   In consistent tables, after an upload the disbursement's payments are exactly one for each
   instruction, to different receivers; together they come to what the instructions ask for.
   */
  lemma UploadPaysWhatIsAsked(lib: Libraries, t: Tables, u: Upload, pl: Placement, t': Tables)
    requires Consistent(t) && UploadedAs(lib, t, u, pl, t')
    ensures PaymentsOf(t'.payments, u.disbursementId) == Elements(pl.payments)
    ensures Distinct(pl.payments) && Distinct(pl.receivers) && |pl.payments| == |pl.receivers| == |u.instructions|
    ensures forall k :: 0 <= k < |u.instructions| ==>
              && pl.payments[k] in t'.payments && pl.receivers[k] in t'.receivers
              && t'.payments[pl.payments[k]].terms.amount == u.instructions[k].amount > 0
              && t'.payments[pl.payments[k]].terms.receiverId == pl.receivers[k]
              && Contact(u.instructions[k]).Ok? && Owns(t'.receivers[pl.receivers[k]], Contact(u.instructions[k]).value)
    ensures forall k :: 0 <= k < |u.instructions| ==>
              var p := t'.payments[pl.payments[k]];
              && p.terms.receiverWalletId in t'.receiverWallets
              && t'.receiverWallets[p.terms.receiverWalletId].receiverId == pl.receivers[k]
              && t'.receiverWallets[p.terms.receiverWalletId].walletId == t.disbursements[u.disbursementId].walletId
              && p.terms.assetId == t.disbursements[u.disbursementId].assetId
    ensures Total(t'.payments, PaymentsOf(t'.payments, u.disbursementId)) == Asked(u.instructions)
  {
    var d := t.disbursements[u.disbursementId];
    PlacedRows(lib, t, u, pl, t');
    UploadPayments(lib, t, u, pl, t');
    PlacedReceivers(lib, t, u, pl, t');
    hide UploadedAs, Contact, Owns;
    ExactlyThePlaced(t, t', d, u.disbursementId, u.instructions, pl);
    hide Consistent;
    TotalOfPayments(t'.payments, pl.payments, u.instructions);
  }

  lemma PlacedReceivers(lib: Libraries, t: Tables, u: Upload, pl: Placement, t': Tables)
    requires UploadedAs(lib, t, u, pl, t')
    ensures ReceiversReconciled(t.receivers, t'.receivers, u.instructions, pl.receivers)
  {
    hide WalletsReady, VerificationsReady, PaymentsReplaced;
  }

  lemma PlacedWallets(lib: Libraries, t: Tables, u: Upload, pl: Placement, t': Tables)
    requires UploadedAs(lib, t, u, pl, t')
    ensures |pl.receivers| == |u.instructions|
    ensures WalletsReady(lib, t.receiverWallets, t'.receiverWallets, t.disbursements[u.disbursementId], u.instructions, pl.receivers, pl.wallets)
    ensures VerificationsReady(lib, t.verifications, t'.verifications, t.disbursements[u.disbursementId], u.instructions, pl.receivers)
  {
    hide WalletsReady, VerificationsReady, PaymentsReplaced;
  }

  lemma PlacedRows(lib: Libraries, t: Tables, u: Upload, pl: Placement, t': Tables)
    requires UploadedAs(lib, t, u, pl, t')
    ensures |pl.receivers| == |pl.wallets| == |u.instructions|
    ensures forall k :: 0 <= k < |u.instructions| ==>
              && pl.wallets[k] in t'.receiverWallets && t'.receiverWallets[pl.wallets[k]].receiverId == pl.receivers[k]
              && t'.receiverWallets[pl.wallets[k]].walletId == t.disbursements[u.disbursementId].walletId
  {
    PlacedWallets(lib, t, u, pl, t');
    hide UploadedAs, ReadyAt, VerificationsReady;
    forall k | 0 <= k < |u.instructions|
      ensures pl.wallets[k] in t'.receiverWallets && t'.receiverWallets[pl.wallets[k]].receiverId == pl.receivers[k]
      ensures t'.receiverWallets[pl.wallets[k]].walletId == t.disbursements[u.disbursementId].walletId
    {
      RowPlaced(lib, t.receiverWallets, t'.receiverWallets, t.disbursements[u.disbursementId], u.instructions[k], pl.receivers[k], pl.wallets[k]);
    }
  }

  lemma RowPlaced(lib: Libraries, before: map<Id, ReceiverWallet>, after: map<Id, ReceiverWallet>, d: Disbursement, i: Instruction,
                  receiverId: Id, w: Id)
    requires ReadyAt(lib, before, after, d, i, receiverId, w)
    ensures w in after && after[w].receiverId == receiverId && after[w].walletId == d.walletId
  {
  }

  lemma ExactlyThePlaced(t: Tables, t': Tables, d: Disbursement, disbursementId: Id, instructions: seq<Instruction>, pl: Placement)
    requires Consistent(t) && disbursementId in t.disbursements && DS.Allows(t.disbursements[disbursementId].status, DS.READY)
    requires |pl.receivers| == |pl.wallets| == |instructions|
    requires PaymentsReplaced(t.payments, t'.payments, d, disbursementId, instructions, pl)
    ensures PaymentsOf(t'.payments, disbursementId) == Elements(pl.payments)
  {
    forall i | i in t.payments && OfDisbursement(t.payments[i], disbursementId)
      ensures t.payments[i].status.DRAFT?
    {
      assert PaymentOk(t, t.payments[i]);
    }
    forall i | i in pl.payments
      ensures i in PaymentsOf(t'.payments, disbursementId)
    {
      var k :| 0 <= k < |pl.payments| && pl.payments[k] == i;
    }
    forall i | i in PaymentsOf(t'.payments, disbursementId)
      ensures i in pl.payments
    {
    }
  }

  // ------------------------------------------------------------------------------- a second time

  // After an upload each contact's receiver is known by it exactly if the contact is of the disbursement's kind.
  lemma PlacedTyped(rs: map<Id, Receiver>, rs': map<Id, Receiver>, instructions: seq<Instruction>, contactType: ContactType, ids: seq<Id>, k: nat)
    requires ReceiversOk(rs) && AllWellKinded(instructions) && Reconcilable(rs, instructions, contactType)
    requires ReceiversReconciled(rs, rs', instructions, ids) && k < |ids|
    ensures ContactByType(rs'[ids[k]], contactType) == ContactText(instructions[k]) <==> Typed(instructions[k], contactType)
  {
    ContactTextOk(instructions[k]);
    if ids[k] in rs {
      SameKind(rs[ids[k]], instructions[k], contactType);
    } else {
      TypedContact(instructions[k], contactType);
    }
  }

  lemma ReconcilableAgain(rs: map<Id, Receiver>, rs': map<Id, Receiver>, instructions: seq<Instruction>, contactType: ContactType, ids: seq<Id>)
    requires ReceiversOk(rs) && AllWellKinded(instructions) && Reconcilable(rs, instructions, contactType)
    requires ReceiversReconciled(rs, rs', instructions, ids)
    ensures Reconcilable(rs', instructions, contactType) <==> AllTyped(instructions, contactType)
    ensures forall k :: 0 <= k < |ids| ==> !Unowned(rs', ContactText(instructions[k]))
  {
    hide Contact, ContactText, ContactByType, Owns, Typed, IndexAdmits, ReceiversOk, Lower;
    assert forall j, k :: 0 <= j < k < |instructions| ==> ContactText(instructions[j]) != ContactText(instructions[k]);
    forall k | 0 <= k < |ids|
      ensures OwnerAgain(rs', instructions[k], contactType, ids[k])
    {
      OwnedAgain(rs, rs', instructions, contactType, ids, k);
    }
    hide ReceiversReconciled;
  }

  lemma OwnedAgain(rs: map<Id, Receiver>, rs': map<Id, Receiver>, instructions: seq<Instruction>, contactType: ContactType, ids: seq<Id>, k: nat)
    requires ReceiversOk(rs) && AllWellKinded(instructions) && Reconcilable(rs, instructions, contactType)
    requires ReceiversReconciled(rs, rs', instructions, ids) && k < |ids|
    ensures OwnerAgain(rs', instructions[k], contactType, ids[k])
  {
    ContactTextOk(instructions[k]);
    PlacedTyped(rs, rs', instructions, contactType, ids, k);
    hide Reconcilable, ContactText, ContactByType, Owns, Typed, ReceiversOk;
  }

  // The receiver is the one with the contact, and known by it exactly if the contact is of the kind.
  ghost predicate OwnerAgain(rs: map<Id, Receiver>, i: Instruction, contactType: ContactType, q: Id) {
    && q in rs && Owns(rs[q], ContactText(i))
    && (forall r :: r in rs && Owns(rs[r], ContactText(i)) ==> r == q)
    && (ContactByType(rs[q], contactType) == ContactText(i) <==> Typed(i, contactType))
  }

  // The row of a contact after an upload with addresses is settled.
  lemma SettledAgain(lib: Libraries, before: map<Id, ReceiverWallet>, after: map<Id, ReceiverWallet>, d: Disbursement, i: Instruction,
                     receiverId: Id, w: Id)
    requires d.includesWalletAddress && ReadyAt(lib, before, after, d, i, receiverId, w)
    ensures SkipsRegistration(after[w]) && (after[w].stellarAddress == "" || after[w].stellarAddress == i.walletAddress)
    ensures after[w].receiverId == receiverId && after[w].walletId == d.walletId
  {
  }

  lemma AddressesOkAgain(lib: Libraries, t: Tables, t': Tables, d: Disbursement, instructions: seq<Instruction>, rs: seq<Id>, ws: seq<Id>)
    requires SchemaOk(t') && d.includesWalletAddress && instructions != []
    requires ReceiversReconciled(t.receivers, t'.receivers, instructions, rs)
    requires WalletsReady(lib, t.receiverWallets, t'.receiverWallets, d, instructions, rs, ws)
    ensures AddressesOk(lib, t', d.walletId, instructions)
  {
    hide Registers, IsRowOf, ContactText, Registrable, Owns, SchemaOk, WalletsReady, Contact, ReceiversReconciled;
    assert |rs| == |instructions| by { Counted(t.receivers, t'.receivers, instructions, rs); }
    forall k | 0 <= k < |rs|
      ensures !Registers(t', d.walletId, ContactText(instructions[k]))
      ensures forall w :: IsRowOf(t', d.walletId, ContactText(instructions[k]), w) ==>
                && w in t'.receiverWallets
                && (t'.receiverWallets[w].stellarAddress == "" || t'.receiverWallets[w].stellarAddress == instructions[k].walletAddress)
    {
      RowSettled(lib, t, t', d, instructions, rs, ws, k);
    }
  }

  lemma Counted(before: map<Id, Receiver>, after: map<Id, Receiver>, instructions: seq<Instruction>, rs: seq<Id>)
    requires ReceiversReconciled(before, after, instructions, rs)
    ensures |rs| == |instructions|
  {
  }

  lemma RowSettled(lib: Libraries, t: Tables, t': Tables, d: Disbursement, instructions: seq<Instruction>, rs: seq<Id>, ws: seq<Id>, k: nat)
    requires SchemaOk(t') && d.includesWalletAddress && k < |rs|
    requires ReceiversReconciled(t.receivers, t'.receivers, instructions, rs)
    requires WalletsReady(lib, t.receiverWallets, t'.receiverWallets, d, instructions, rs, ws)
    ensures !Registers(t', d.walletId, ContactText(instructions[k]))
    ensures forall w :: IsRowOf(t', d.walletId, ContactText(instructions[k]), w) ==>
              && w in t'.receiverWallets
              && (t'.receiverWallets[w].stellarAddress == "" || t'.receiverWallets[w].stellarAddress == instructions[k].walletAddress)
  {
    ContactTextOk(instructions[k]);
    SettledAgain(lib, t.receiverWallets, t'.receiverWallets, d, instructions[k], rs[k], ws[k]);
    hide Contact, ContactText, Owns, ReadyAt, ReceiversOk;
    assert WalletsUnique(t'.receiverWallets);
    assert ws[k] in t'.receiverWallets;
    forall w
      ensures IsRowOf(t', d.walletId, ContactText(instructions[k]), w) <==> w == ws[k]
    {
      if IsRowOf(t', d.walletId, ContactText(instructions[k]), w) {
        assert t'.receiverWallets[w].receiverId == rs[k];
      }
    }
    hide IsRowOf;
  }

  lemma VerificationsOkAgain(lib: Libraries, t: Tables, t': Tables, d: Disbursement, instructions: seq<Instruction>, rs: seq<Id>)
    requires AllTyped(instructions, d.contactType) && !d.includesWalletAddress && d.verificationField != ""
    requires ReceiversReconciled(t.receivers, t'.receivers, instructions, rs)
    requires VerificationsReady(lib, t.verifications, t'.verifications, d, instructions, rs)
    ensures VerificationsOk(lib, t', d.verificationField, d.contactType, instructions)
  {
    forall k | 0 <= k < |rs|
      ensures VerificationOk(lib, t', d.verificationField, d.contactType, instructions[k])
    {
      ContactTextOk(instructions[k]);
      assert VerifiedAt(lib, t.verifications, t'.verifications, (rs[k], d.verificationField), instructions[k].verificationValue);
      assert !Unowned(t'.receivers, ContactText(instructions[k]));
      hide Contact, ContactText, Owns, Typed;
    }
    EachVerificationOk(lib, t', d.verificationField, d.contactType, instructions);
    hide VerificationOk, VerificationsOk, VerificationsReady, ReceiversReconciled;
  }

  /**
   After an upload, the same upload succeeds again exactly when every instruction's contact is of the
   disbursement's kind: a receiver that the first one created from another kind has no typed contact.
   */
  lemma ReuploadSucceedsIff(lib: Libraries, t: Tables, u: Upload, pl: Placement, t': Tables)
    requires SchemaOk(t) && SchemaOk(t') && AllWellKinded(u.instructions)
    requires UploadedAs(lib, t, u, pl, t') && Uploadable(lib, t, u)
    ensures u.disbursementId in t'.disbursements
    ensures Uploadable(lib, t', u) <==> AllTyped(u.instructions, t.disbursements[u.disbursementId].contactType)
  {
    var d := t.disbursements[u.disbursementId];
    PlacedReceivers(lib, t, u, pl, t');
    PlacedWallets(lib, t, u, pl, t');
    UploadDisbursement(lib, t, u, t');
    var d' := t'.disbursements[u.disbursementId];
    assert DS.Allows(d'.status, DS.READY) && d'.contactType == d.contactType && d'.includesWalletAddress == d.includesWalletAddress
           && d'.walletId == d.walletId && d'.verificationField == d.verificationField;
    hide UploadedAs, SchemaOk, Uploaded;
    ReconcilableAgainFor(t, t', d.contactType, u.instructions, pl.receivers);
    if d.includesWalletAddress {
      AddressesOkAgain(lib, t, t', d, u.instructions, pl.receivers, pl.wallets);
    } else if d.verificationField != "" && AllTyped(u.instructions, d.contactType) {
      VerificationsOkAgain(lib, t, t', d, u.instructions, pl.receivers);
    }
    hide Reconcilable, ReceiversReconciled, WalletsReady, VerificationsReady, VerificationsOk, AllTyped, AllWellKinded, ValidAmount;
  }

  /** Where all contacts are of the disbursement's kind, the same upload always succeeds again. */
  lemma TypedReuploadSucceeds(lib: Libraries, t: Tables, u: Upload, pl: Placement, t': Tables)
    requires SchemaOk(t) && SchemaOk(t') && AllWellKinded(u.instructions)
    requires UploadedAs(lib, t, u, pl, t') && Uploadable(lib, t, u)
    requires AllTyped(u.instructions, t.disbursements[u.disbursementId].contactType)
    ensures u.disbursementId in t'.disbursements && Uploadable(lib, t', u)
  {
    ReuploadSucceedsIff(lib, t, u, pl, t');
    hide UploadedAs, Uploadable, SchemaOk, AllWellKinded, AllTyped;
  }

  // A disbursement by email, without verification, and an instruction by phone number.
  function MixedTables(): Tables {
    Tables(map[0 := Disbursement(0, 0, "", EMAIL, false, DS.DRAFT, [Entry("u", DS.DRAFT)], "", "")], map[], map[], map[], map[])
  }

  function MixedUpload(): Upload {
    Upload("u", [Instruction("+1", "", "r", 1, "", "", "", "", "", "")], 0, "f", "c", 1)
  }

  // What the first upload leaves: the receiver is known by phone number only.
  function MixedResult(): Tables {
    Tables(
      map[0 := Disbursement(0, 0, "", EMAIL, false, DS.READY, [Entry("u", DS.DRAFT), Entry("u", DS.READY)], "f", "c")],
      map[0 := Payment(Terms(1, 0, 0, 0, Some(0), ""), PS.DRAFT, [PS.DRAFT], "")],
      map[0 := Receiver("+1", "", "r", "", "")],
      map[0 := ReceiverWallet(0, 0, "", "", "", WS.DRAFT, [WS.DRAFT], false)],
      map[])
  }

  function MixedPlacement(): Placement {
    Placement([0], [0], [0])
  }

  /** An upload that succeeds, with the tables it leaves, and that fails when it is made again on them. */
  lemma MixedKindsExample(lib: Libraries)
    ensures SchemaOk(MixedTables()) && AllWellKinded(MixedUpload().instructions) && Uploadable(lib, MixedTables(), MixedUpload())
    ensures !AllTyped(MixedUpload().instructions, EMAIL)
    ensures UploadedAs(lib, MixedTables(), MixedUpload(), MixedPlacement(), MixedResult()) && SchemaOk(MixedResult())
    ensures !Uploadable(lib, MixedResult(), MixedUpload())
  {
    MixedUploadable(lib);
    MixedUploaded(lib);
    ReuploadSucceedsIff(lib, MixedTables(), MixedUpload(), MixedPlacement(), MixedResult());
  }

  lemma MixedUploaded(lib: Libraries)
    ensures UploadedAs(lib, MixedTables(), MixedUpload(), MixedPlacement(), MixedResult()) && SchemaOk(MixedResult())
  {
    var t, t' := MixedTables(), MixedResult();
    var d := t.disbursements[0];
    assert d.history + [Entry("u", DS.READY)] == [Entry("u", DS.DRAFT), Entry("u", DS.READY)];
    assert t'.disbursements == t.disbursements[0 := EnterDisbursement(d, "u", DS.READY).(fileName := "f", fileContent := "c")];
    MixedWritten(lib);
    hide WrittenAs, SchemaOk;
  }

  lemma MixedWritten(lib: Libraries)
    ensures WrittenAs(lib, MixedTables(), MixedUpload(), MixedPlacement(), MixedResult()) && SchemaOk(MixedResult())
  {
    MixedReceivers();
    MixedPayments();
    hide ReceiversReconciled, PaymentsReplaced, Lower;
  }

  lemma MixedReceivers()
    ensures ReceiversReconciled(MixedTables().receivers, MixedResult().receivers, MixedUpload().instructions, MixedPlacement().receivers)
  {
    var i := MixedUpload().instructions[0];
    assert i.phone == "+1" && i.email == "";
  }

  lemma MixedPayments()
    ensures PaymentsReplaced(MixedTables().payments, MixedResult().payments, MixedTables().disbursements[0], 0, MixedUpload().instructions, MixedPlacement())
  {
    assert WithoutDrafts(MixedTables().payments, 0) == map[];
  }

  lemma MixedUploadable(lib: Libraries)
    ensures SchemaOk(MixedTables()) && AllWellKinded(MixedUpload().instructions) && Uploadable(lib, MixedTables(), MixedUpload())
    ensures !AllTyped(MixedUpload().instructions, EMAIL) && MixedTables().disbursements[0].contactType == EMAIL
  {
    assert MixedUpload().instructions[0].email == "";
  }

  lemma ReconcilableAgainFor(t: Tables, t': Tables, contactType: ContactType, instructions: seq<Instruction>, ids: seq<Id>)
    requires SchemaOk(t) && AllWellKinded(instructions) && Reconcilable(t.receivers, instructions, contactType)
    requires ReceiversReconciled(t.receivers, t'.receivers, instructions, ids)
    ensures Reconcilable(t'.receivers, instructions, contactType) <==> AllTyped(instructions, contactType)
  {
    hide Reconcilable, AllTyped, ReceiversReconciled;
    ReconcilableAgain(t.receivers, t'.receivers, instructions, contactType, ids);
  }

  // ----------------------------------------------------------------------------- idempotence

  lemma SamePlacedReceivers(t0: map<Id, Receiver>, t1: map<Id, Receiver>, t2: map<Id, Receiver>, instructions: seq<Instruction>, rs: seq<Id>, rs': seq<Id>)
    requires ReceiversReconciled(t0, t1, instructions, rs) && ReceiversReconciled(t1, t2, instructions, rs')
    ensures rs' == rs && t2 == t1
  {
    hide Contact, Owns;
    forall k | 0 <= k < |rs|
      ensures rs'[k] == rs[k]
    {
      assert rs[k] in t2 && Owns(t2[rs[k]], Contact(instructions[k]).value);
    }
  }

  // The rows after a second upload: the same ones, READY ones invited again.
  ghost predicate RowsReinvited(before: map<Id, ReceiverWallet>, after: map<Id, ReceiverWallet>, ws: seq<Id>) {
    after.Keys == before.Keys && forall w :: w in before ==> after[w] == if w in ws then Reinvited(before[w]) else before[w]
  }

  lemma RowAgain(lib: Libraries, t0: map<Id, ReceiverWallet>, t1: map<Id, ReceiverWallet>, t2: map<Id, ReceiverWallet>, d: Disbursement,
                 i: Instruction, receiverId: Id, w: Id, w': Id)
    requires WalletsUnique(t1) && ReadyAt(lib, t0, t1, d, i, receiverId, w) && ReadyAt(lib, t1, t2, d, i, receiverId, w')
    ensures w' == w && t2[w] == Reinvited(t1[w])
  {
  }

  lemma RowsAgain(lib: Libraries, t0: map<Id, ReceiverWallet>, t1: map<Id, ReceiverWallet>, t2: map<Id, ReceiverWallet>, d: Disbursement,
                  instructions: seq<Instruction>, rs: seq<Id>, ws: seq<Id>, ws': seq<Id>)
    requires |rs| == |instructions| && WalletsUnique(t1)
    requires WalletsReady(lib, t0, t1, d, instructions, rs, ws) && WalletsReady(lib, t1, t2, d, instructions, rs, ws')
    ensures ws' == ws && RowsReinvited(t1, t2, ws)
  {
    forall k | 0 <= k < |rs|
      ensures ws'[k] == ws[k] && ws[k] in t1 && ws[k] in t2 && t2[ws[k]] == Reinvited(t1[ws[k]])
    {
      RowAgain(lib, t0, t1, t2, d, instructions[k], rs[k], ws[k], ws'[k]);
    }
    hide ReadyAt, Reinvited, WalletsUnique;
  }

  lemma VerificationsAgain(lib: Libraries, t0: map<(Id, string), Verification>, t1: map<(Id, string), Verification>,
                           t2: map<(Id, string), Verification>, d: Disbursement, instructions: seq<Instruction>, rs: seq<Id>)
    requires |rs| == |instructions|
    requires VerificationsReady(lib, t0, t1, d, instructions, rs) && VerificationsReady(lib, t1, t2, d, instructions, rs)
    ensures t2 == t1
  {
    if !d.includesWalletAddress && d.verificationField != "" {
      forall k | 0 <= k < |rs|
        ensures (rs[k], d.verificationField) in t1 && (rs[k], d.verificationField) in t2
        ensures t2[(rs[k], d.verificationField)] == t1[(rs[k], d.verificationField)]
      {
        assert VerifiedAt(lib, t0, t1, (rs[k], d.verificationField), instructions[k].verificationValue);
        assert VerifiedAt(lib, t1, t2, (rs[k], d.verificationField), instructions[k].verificationValue);
      }
      hide VerifiedAt;
      forall key | key in t1
        ensures key in t2 && t2[key] == t1[key]
      {
        if key.0 in rs && key.1 == d.verificationField {
          var k :| 0 <= k < |rs| && rs[k] == key.0;
          assert key == (rs[k], d.verificationField);
        }
      }
      forall key | key in t2
        ensures key in t1
      {
        if key.0 in rs && key.1 == d.verificationField {
          var k :| 0 <= k < |rs| && rs[k] == key.0;
          assert key == (rs[k], d.verificationField);
        }
      }
    }
  }

  // The same payments but for their identifiers.
  ghost predicate SamePayments(before: map<Id, Payment>, after: map<Id, Payment>, ids: seq<Id>, ids': seq<Id>) {
    && |ids'| == |ids|
    && (forall k :: 0 <= k < |ids| ==> ids[k] in before && ids'[k] in after && after[ids'[k]] == before[ids[k]])
    && (forall i :: i !in ids && i in before <==> i !in ids' && i in after)
    && (forall i :: i !in ids && i in before ==> after[i] == before[i])
  }

  lemma PaymentsAgain(t0: map<Id, Payment>, t1: map<Id, Payment>, t2: map<Id, Payment>, d: Disbursement, d': Disbursement, disbursementId: Id,
                      instructions: seq<Instruction>, pl: Placement, pl': Placement)
    requires |pl.receivers| == |pl.wallets| == |instructions| && d'.assetId == d.assetId
    requires pl'.receivers == pl.receivers && pl'.wallets == pl.wallets
    requires PaymentsReplaced(t0, t1, d, disbursementId, instructions, pl) && PaymentsReplaced(t1, t2, d', disbursementId, instructions, pl')
    ensures SamePayments(t1, t2, pl.payments, pl'.payments)
  {
    var kept := WithoutDrafts(t1, disbursementId);
    forall i
      ensures i in kept <==> i in t1 && i !in pl.payments
    {
      if i in t1 {
        ReplacedPayment(t0, t1, d, disbursementId, instructions, pl, i);
      }
    }
    assert forall i :: i in kept ==> kept[i] == t1[i];
    KeptAgain(t1, t2, kept, d', disbursementId, instructions, pl');
    PlacedAgain(t0, t1, t2, d, d', disbursementId, instructions, pl, pl');
    hide PaymentsReplaced, WithoutDrafts;
    SamePaymentsFrom(t1, t2, kept, pl.payments, pl'.payments);
  }

  lemma SamePaymentsFrom(t1: map<Id, Payment>, t2: map<Id, Payment>, kept: map<Id, Payment>, ids: seq<Id>, ids': seq<Id>)
    requires |ids'| == |ids| && forall k :: 0 <= k < |ids| ==> ids[k] in t1 && ids'[k] in t2 && t2[ids'[k]] == t1[ids[k]]
    requires forall i :: i in kept <==> i in t1 && i !in ids
    requires forall i :: i in kept <==> i !in ids' && i in t2
    requires forall i :: i in kept ==> kept[i] == t1[i]
    requires forall i :: i in kept ==> t2[i] == kept[i]
    ensures SamePayments(t1, t2, ids, ids')
  {
  }

  lemma PlacedAgain(t0: map<Id, Payment>, t1: map<Id, Payment>, t2: map<Id, Payment>, d: Disbursement, d': Disbursement, disbursementId: Id,
                    instructions: seq<Instruction>, pl: Placement, pl': Placement)
    requires |pl.receivers| == |pl.wallets| == |instructions| && d'.assetId == d.assetId
    requires pl'.receivers == pl.receivers && pl'.wallets == pl.wallets
    requires PaymentsReplaced(t0, t1, d, disbursementId, instructions, pl) && PaymentsReplaced(t1, t2, d', disbursementId, instructions, pl')
    ensures |pl'.payments| == |pl.payments|
    ensures forall k :: 0 <= k < |pl.payments| ==>
              pl.payments[k] in t1 && pl'.payments[k] in t2 && t2[pl'.payments[k]] == t1[pl.payments[k]]
  {
    hide ValidAmount, WithoutDrafts, Distinct;
  }

  lemma KeptAgain(t1: map<Id, Payment>, t2: map<Id, Payment>, kept: map<Id, Payment>, d: Disbursement, disbursementId: Id,
                  instructions: seq<Instruction>, pl: Placement)
    requires |pl.receivers| == |pl.wallets| == |instructions| && kept == WithoutDrafts(t1, disbursementId)
    requires PaymentsReplaced(t1, t2, d, disbursementId, instructions, pl)
    ensures forall i :: i in kept <==> i !in pl.payments && i in t2
    ensures forall i :: i in kept ==> t2[i] == kept[i]
  {
    hide ValidAmount;
    forall i | i in pl.payments
      ensures i !in t1
    {
      var k :| 0 <= k < |pl.payments| && pl.payments[k] == i;
    }
  }

  /**
   Uploading the same instructions a second time changes nothing but the payments' identifiers, the
   disbursement's history (one more READY) and the marks of sent invitations on READY rows.
   */
  lemma ReuploadIdempotent(lib: Libraries, t: Tables, u: Upload, pl: Placement, t': Tables, pl': Placement, t'': Tables)
    requires SchemaOk(t') && UploadedAs(lib, t, u, pl, t') && UploadedAs(lib, t', u, pl', t'')
    ensures pl'.receivers == pl.receivers && pl'.wallets == pl.wallets
    ensures t''.receivers == t'.receivers && t''.verifications == t'.verifications
    ensures RowsReinvited(t'.receiverWallets, t''.receiverWallets, pl.wallets)
    ensures SamePayments(t'.payments, t''.payments, pl.payments, pl'.payments)
    ensures t''.disbursements ==
            t'.disbursements[u.disbursementId := EnterDisbursement(t'.disbursements[u.disbursementId], u.userId, DS.READY)]
  {
    var d := t.disbursements[u.disbursementId];
    UploadDisbursement(lib, t, u, t');
    UploadDisbursement(lib, t', u, t'');
    var d' := t'.disbursements[u.disbursementId];
    SecondUpload(lib, t, u, pl, t', pl', t'');
    hide UploadedAs, Uploaded, RowsReinvited, SamePayments, SchemaOk;
    assert EnterDisbursement(d', u.userId, DS.READY).(fileName := u.fileName, fileContent := u.fileContent)
        == EnterDisbursement(d', u.userId, DS.READY);
  }

  lemma SecondUpload(lib: Libraries, t: Tables, u: Upload, pl: Placement, t': Tables, pl': Placement, t'': Tables)
    requires SchemaOk(t') && UploadedAs(lib, t, u, pl, t') && UploadedAs(lib, t', u, pl', t'')
    ensures pl'.receivers == pl.receivers && pl'.wallets == pl.wallets
    ensures t''.receivers == t'.receivers && t''.verifications == t'.verifications
    ensures RowsReinvited(t'.receiverWallets, t''.receiverWallets, pl.wallets)
    ensures SamePayments(t'.payments, t''.payments, pl.payments, pl'.payments)
  {
    var d, d' := t.disbursements[u.disbursementId], t'.disbursements[u.disbursementId];
    UploadDisbursement(lib, t, u, t');
    PlacedReceivers(lib, t, u, pl, t');
    PlacedReceivers(lib, t', u, pl', t'');
    PlacedWallets(lib, t, u, pl, t');
    PlacedWallets(lib, t', u, pl', t'');
    UploadPayments(lib, t, u, pl, t');
    UploadPayments(lib, t', u, pl', t'');
    SamePlacedReceivers(t.receivers, t'.receivers, t''.receivers, u.instructions, pl.receivers, pl'.receivers);
    SameNeeds(lib, t', t'', d, d', u.instructions, pl'.receivers, pl'.wallets);
    assert WalletsUnique(t'.receiverWallets);
    hide UploadedAs, Uploaded, ReceiversReconciled, WalletsReady, VerificationsReady, PaymentsReplaced, RowsReinvited, SamePayments,
         SchemaOk, WalletsUnique;
    RowsAgain(lib, t.receiverWallets, t'.receiverWallets, t''.receiverWallets, d, u.instructions, pl.receivers, pl.wallets, pl'.wallets);
    VerificationsAgain(lib, t.verifications, t'.verifications, t''.verifications, d, u.instructions, pl.receivers);
    PaymentsAgain(t.payments, t'.payments, t''.payments, d, d', u.disbursementId, u.instructions, pl, pl');
  }

  // What the wallet and verification steps do depends on parts of the disbursement that an upload keeps.
  lemma SameNeeds(lib: Libraries, t: Tables, t': Tables, d: Disbursement, d': Disbursement, instructions: seq<Instruction>, rs: seq<Id>, ws: seq<Id>)
    requires |rs| == |instructions|
    requires d'.walletId == d.walletId && d'.includesWalletAddress == d.includesWalletAddress && d'.verificationField == d.verificationField
    requires WalletsReady(lib, t.receiverWallets, t'.receiverWallets, d', instructions, rs, ws)
    requires VerificationsReady(lib, t.verifications, t'.verifications, d', instructions, rs)
    ensures WalletsReady(lib, t.receiverWallets, t'.receiverWallets, d, instructions, rs, ws)
    ensures VerificationsReady(lib, t.verifications, t'.verifications, d, instructions, rs)
  {
    forall k | 0 <= k < |ws|
      ensures ReadyAt(lib, t.receiverWallets, t'.receiverWallets, d, instructions[k], rs[k], ws[k])
    {
      assert ReadyAt(lib, t.receiverWallets, t'.receiverWallets, d', instructions[k], rs[k], ws[k]);
    }
    hide ReadyAt, ReceiversVerified;
  }
}

/** The upload pipeline: from a list of instructions to receivers, wallet rows, verifications and payments. */
module Instructions {
  import opened Wrappers
  import opened Sequences
  import opened Tables
  import opened Uploads
  import opened UploadConditions
  import opened Reconciliation
  import opened ReceiverWallets
  import opened Stores
  import PS = PaymentStatuses

  // --------------------------------------------------------------------------- verifications

  // What the verification step needs of a receiver, and of each.
  ghost predicate VerifiableAt(lib: Libraries, verifications: map<(Id, string), Verification>, receivers: map<Id, Receiver>, i: Instruction,
                               field: string, contactType: ContactType, q: Id)
    requires q in receivers
  {
    && ContactByType(receivers[q], contactType) == ContactText(i)
    && ValueOk(lib, verifications, (q, field), i.verificationValue)
  }

  ghost predicate Verifiable(lib: Libraries, verifications: map<(Id, string), Verification>, receivers: map<Id, Receiver>,
                             instructions: seq<Instruction>, field: string, contactType: ContactType, rs: seq<Id>)
    requires Located(receivers, instructions, rs)
  {
    VerifiableBut(lib, verifications, receivers, instructions, field, contactType, rs, {})
  }

  // The receivers outside `rest` have what the step needs.
  ghost predicate VerifiableBut(lib: Libraries, verifications: map<(Id, string), Verification>, receivers: map<Id, Receiver>,
                                instructions: seq<Instruction>, field: string, contactType: ContactType, rs: seq<Id>, rest: set<Id>)
    requires Located(receivers, instructions, rs)
  {
    forall k :: 0 <= k < |rs| && rs[k] !in rest ==>
      VerifiableAt(lib, verifications, receivers, instructions[k], field, contactType, rs[k])
  }

  // One receiver, with the row as it was read before the loop.
  method ProcessReceiverVerification(s: Store, receiverId: Id, field: string, row: Option<Verification>, value: string)
    returns (o: Outcome<UploadError>)
    requires Sound(s.lib) && field != ""
    requires row == if (receiverId, field) in s.verifications then Some(s.verifications[(receiverId, field)]) else None
    modifies s`verifications
    ensures o.Done? <==> ValueOk(s.lib, old(s.verifications), (receiverId, field), value)
    ensures o == Failed(VerificationMismatch) <==> row.Some? && row.value.confirmed && !s.lib.compare(row.value.hashedValue, value)
    ensures o.Done? ==>
              && VerifiedAt(s.lib, old(s.verifications), s.verifications, (receiverId, field), value)
              && s.verifications == old(s.verifications)[(receiverId, field) := s.verifications[(receiverId, field)]]
  {
    ghost var before := s.verifications;
    var o' := Done;
    if row.None? {
      o' := s.InsertVerification(receiverId, field, value);
    } else if !s.lib.compare(row.value.hashedValue, value) {
      if row.value.confirmed {
        return Failed(VerificationMismatch);
      }
      o' := s.UpdateVerificationValue(receiverId, field, value);
    } else {
      assert before == before[(receiverId, field) := before[(receiverId, field)]];
    }
    return if o'.Done? then Done else Failed(StoreFailed(o'.error));
  }

  ghost predicate ContactsDiffer(instructions: seq<Instruction>) {
    && AllHaveContacts(instructions)
    && forall j, k :: 0 <= j < k < |instructions| ==> ContactText(instructions[j]) != ContactText(instructions[k])
  }

  ghost predicate ContactsMapped(instructions: seq<Instruction>, byContact: map<string, Instruction>) {
    && (forall c :: c in byContact <==> exists k :: 0 <= k < |instructions| && c == ContactText(instructions[k]))
    && (forall k :: 0 <= k < |instructions| ==> ContactText(instructions[k]) in byContact && byContact[ContactText(instructions[k])] == instructions[k])
  }

  // The instruction of each contact.
  method ByContact(instructions: seq<Instruction>) returns (byContact: map<string, Instruction>)
    requires ContactsDiffer(instructions)
    ensures ContactsMapped(instructions, byContact)
  {
    hide Contact;
    byContact := map[];
    for n := 0 to |instructions|
      invariant forall c :: c in byContact <==> exists k :: 0 <= k < n && c == ContactText(instructions[k])
      invariant forall k :: 0 <= k < n ==> ContactText(instructions[k]) in byContact && byContact[ContactText(instructions[k])] == instructions[k]
    {
      ContactTextOk(instructions[n]);
      byContact := byContact[ContactText(instructions[n]) := instructions[n]];
    }
  }

  // The receivers outside `rest` are through, nothing else changed.
  ghost predicate VerifiedBut(lib: Libraries, before: map<(Id, string), Verification>, now: map<(Id, string), Verification>,
                              instructions: seq<Instruction>, field: string, rs: seq<Id>, rest: set<Id>)
    requires |rs| == |instructions|
  {
    && (forall k :: 0 <= k < |rs| && rs[k] !in rest ==>
          VerifiedAt(lib, before, now, (rs[k], field), instructions[k].verificationValue))
    && (forall key :: key in before ==>
          key in now && (now[key] == before[key] || (key.0 in rs && key.0 !in rest && key.1 == field)))
    && (forall key :: key in now ==> key in before || (key.0 in rs && key.0 !in rest && key.1 == field))
  }

  lemma NothingVerified(lib: Libraries, before: map<(Id, string), Verification>, instructions: seq<Instruction>, field: string, rs: seq<Id>)
    requires |rs| == |instructions|
    ensures VerifiedBut(lib, before, before, instructions, field, rs, Elements(rs))
  {
  }

  lemma NothingVerifiable(lib: Libraries, before: map<(Id, string), Verification>, receivers: map<Id, Receiver>,
                          instructions: seq<Instruction>, field: string, contactType: ContactType, rs: seq<Id>)
    requires Located(receivers, instructions, rs)
    ensures VerifiableBut(lib, before, receivers, instructions, field, contactType, rs, receivers.Keys)
  {
  }

  lemma AllVerified(lib: Libraries, before: map<(Id, string), Verification>, now: map<(Id, string), Verification>,
                    instructions: seq<Instruction>, field: string, rs: seq<Id>)
    requires |rs| == |instructions| && VerifiedBut(lib, before, now, instructions, field, rs, {})
    ensures ReceiversVerified(lib, before, now, field, instructions, rs)
  {
    hide VerifiedAt;
  }

  // A row not yet processed is as it was.
  lemma Unverified(lib: Libraries, before: map<(Id, string), Verification>, now: map<(Id, string), Verification>,
                   instructions: seq<Instruction>, field: string, rs: seq<Id>, rest: set<Id>, q: Id)
    requires |rs| == |instructions| && q in rest && VerifiedBut(lib, before, now, instructions, field, rs, rest)
    ensures (q, field) in now <==> (q, field) in before
    ensures (q, field) in before ==> now[(q, field)] == before[(q, field)]
  {
  }

  lemma VerifiedNext(lib: Libraries, before: map<(Id, string), Verification>, now: map<(Id, string), Verification>,
                     now': map<(Id, string), Verification>, instructions: seq<Instruction>, field: string, rs: seq<Id>, rest: set<Id>, k: nat)
    requires |rs| == |instructions| && k < |rs| && Distinct(rs) && rs[k] in rest
    requires VerifiedBut(lib, before, now, instructions, field, rs, rest)
    requires VerifiedAt(lib, now, now', (rs[k], field), instructions[k].verificationValue)
    requires now' == now[(rs[k], field) := now'[(rs[k], field)]]
    ensures VerifiedBut(lib, before, now', instructions, field, rs, rest - {rs[k]})
  {
    Unverified(lib, before, now, instructions, field, rs, rest, rs[k]);
    forall j | 0 <= j < |rs| && rs[j] !in rest - {rs[k]}
      ensures VerifiedAt(lib, before, now', (rs[j], field), instructions[j].verificationValue)
    {
      if j != k {
        assert VerifiedAt(lib, before, now, (rs[j], field), instructions[j].verificationValue);
      }
    }
  }

  lemma ContactsDistinct(receivers: map<Id, Receiver>, instructions: seq<Instruction>, rs: seq<Id>)
    requires Located(receivers, instructions, rs)
    ensures ContactsDiffer(instructions)
    ensures forall k :: 0 <= k < |rs| ==> Contact(instructions[k]).value == ContactText(instructions[k]) != ""
  {
    hide Contact, ContactText, Owns, Elements;
    forall k | 0 <= k < |rs|
      ensures Contact(instructions[k]).value == ContactText(instructions[k]) != ""
    {
      ContactTextOk(instructions[k]);
    }
  }

  // A contact of the receiver's that is some instruction's is its own instruction's.
  lemma OwnContact(receivers: map<Id, Receiver>, instructions: seq<Instruction>, rs: seq<Id>, k: nat, j: nat, contactType: ContactType)
    requires Located(receivers, instructions, rs) && k < |rs| && j < |rs|
    requires ContactByType(receivers[rs[k]], contactType) == ContactText(instructions[j])
    ensures j == k
  {
    ContactsDistinct(receivers, instructions, rs);
    assert Owns(receivers[rs[k]], ContactText(instructions[j]));
    hide Contact, ContactText, Owns, Elements;
  }

  // What the step reads before its loop.
  ghost predicate ReadBefore(before: map<(Id, string), Verification>, receivers: set<Id>, field: string, read: map<Id, Verification>) {
    forall q :: q in receivers ==>
      && (q in read <==> (q, field) in before)
      && (q in read ==> read[q] == before[(q, field)])
  }

  // The instruction that the map gives a receiver is its own, if it gives one.
  lemma MapsToOwn(receivers: map<Id, Receiver>, instructions: seq<Instruction>, rs: seq<Id>, k: nat,
                  contactType: ContactType, byContact: map<string, Instruction>)
    requires Located(receivers, instructions, rs) && k < |rs| && ContactsMapped(instructions, byContact)
    ensures var contact := ContactByType(receivers[rs[k]], contactType);
            && (contact in byContact <==> contact == ContactText(instructions[k]))
            && (contact in byContact ==> contact != "" && byContact[contact] == instructions[k])
  {
    ContactsDistinct(receivers, instructions, rs);
    var contact := ContactByType(receivers[rs[k]], contactType);
    if contact in byContact {
      var j :| 0 <= j < |instructions| && contact == ContactText(instructions[j]);
      OwnContact(receivers, instructions, rs, k, j, contactType);
    }
  }

  method ProcessNextVerification(s: Store, q: Id, receivers: map<Id, Receiver>, byContact: map<string, Instruction>, read: map<Id, Verification>,
                                 field: string, contactType: ContactType, ghost before: map<(Id, string), Verification>,
                                 ghost instructions: seq<Instruction>, ghost rs: seq<Id>, ghost rest: set<Id>, ghost k: nat)
    returns (o: Outcome<UploadError>)
    requires Sound(s.lib) && field != "" && Located(receivers, instructions, rs) && k < |rs| && rs[k] == q && q in rest
    requires ContactsMapped(instructions, byContact) && ReadBefore(before, receivers.Keys, field, read)
    requires VerifiedBut(s.lib, before, s.verifications, instructions, field, rs, rest)
    modifies s`verifications
    ensures o.Done? ==> VerifiedBut(s.lib, before, s.verifications, instructions, field, rs, rest - {q})
    ensures VerifiableBut(s.lib, before, receivers, instructions, field, contactType, rs, rest) && o.Done? ==>
              VerifiableBut(s.lib, before, receivers, instructions, field, contactType, rs, rest - {q})
    ensures o.Failed? ==> !Verifiable(s.lib, before, receivers, instructions, field, contactType, rs)
  {
    hide Sound, VerifiedBut, VerifiedAt, ValueOk, ContactText, ContactByType, Owns, ContactsMapped, Elements;
    var contact := ContactByType(receivers[q], contactType);
    MapsToOwn(receivers, instructions, rs, k, contactType, byContact);
    if contact == "" {
      return Failed(NoContactOfType(q));
    }
    if contact !in byContact {
      return Failed(InstructionNotFound);
    }
    ghost var now := s.verifications;
    Unverified(s.lib, before, now, instructions, field, rs, rest, q);
    SameValueOk(s.lib, before, now, (q, field), instructions[k].verificationValue);
    var row := if q in read then Some(read[q]) else None;
    o := ProcessReceiverVerification(s, q, field, row, byContact[contact].verificationValue);
    if o.Done? {
      VerifiedNext(s.lib, before, now, s.verifications, instructions, field, rs, rest, k);
    }
  }

  /** Each receiver's verification is made or checked; any receiver without a suitable one fails the step. */
  method ProcessReceiverVerifications(s: Store, receivers: map<Id, Receiver>, instructions: seq<Instruction>, field: string,
                                      contactType: ContactType, ghost rs: seq<Id>)
    returns (o: Outcome<UploadError>)
    requires Sound(s.lib) && field != "" && Located(receivers, instructions, rs)
    modifies s`verifications
    ensures o.Done? <==> Verifiable(s.lib, old(s.verifications), receivers, instructions, field, contactType, rs)
    ensures o.Done? ==> ReceiversVerified(s.lib, old(s.verifications), s.verifications, field, instructions, rs)
  {
    hide Located, Sound, VerifiedBut, ReceiversVerified, VerifiableBut, ContactsDiffer, ContactsMapped, ReadBefore, Distinct;
    ghost var before := s.verifications;
    var read := map q | q in receivers && (q, field) in s.verifications :: s.verifications[(q, field)];
    ReadIs(before, receivers.Keys, field, read);
    ContactsDistinct(receivers, instructions, rs);
    LocatedShape(receivers, instructions, rs);
    var byContact := ByContact(instructions);
    var rest := receivers.Keys;
    NothingVerified(s.lib, before, instructions, field, rs);
    NothingVerifiable(s.lib, before, receivers, instructions, field, contactType, rs);
    while rest != {}
      invariant rest <= receivers.Keys
      invariant VerifiedBut(s.lib, before, s.verifications, instructions, field, rs, rest)
      invariant VerifiableBut(s.lib, before, receivers, instructions, field, contactType, rs, rest)
      decreases |rest|
    {
      var q :| q in rest;
      ghost var k :| 0 <= k < |rs| && rs[k] == q;
      o := ProcessNextVerification(s, q, receivers, byContact, read, field, contactType, before, instructions, rs, rest, k);
      if o.Failed? {
        return;
      }
      rest := rest - {q};
    }
    AllVerified(s.lib, before, s.verifications, instructions, field, rs);
    return Done;
  }

  lemma ReadIs(before: map<(Id, string), Verification>, receivers: set<Id>, field: string, read: map<Id, Verification>)
    requires read == map q | q in receivers && (q, field) in before :: before[(q, field)]
    ensures ReadBefore(before, receivers, field, read)
  {
  }

  lemma LocatedShape(receivers: map<Id, Receiver>, instructions: seq<Instruction>, rs: seq<Id>)
    requires Located(receivers, instructions, rs)
    ensures |rs| == |instructions| && Distinct(rs) && receivers.Keys == Elements(rs)
  {
  }

  lemma SameValueOk(lib: Libraries, before: map<(Id, string), Verification>, now: map<(Id, string), Verification>, key: (Id, string), value: string)
    requires key in now <==> key in before
    requires key in before ==> now[key] == before[key]
    ensures ValueOk(lib, now, key, value) <==> ValueOk(lib, before, key, value)
  {
  }

  // -------------------------------------------------------------------------------- payments

  /** A payment for each instruction, to its receiver's row; `avoid` are identifiers not to be used again. */
  method CreatePayments(s: Store, receivers: map<Id, Receiver>, rowOf: map<Id, Id>, instructions: seq<Instruction>, d: Disbursement,
                        disbursementId: Id, avoid: set<Id>, ghost rs: seq<Id>, ghost ws: seq<Id>)
    returns (o: Outcome<UploadError>, ids: seq<Id>)
    requires Located(receivers, instructions, rs) && rowOf.Keys == receivers.Keys && |ws| == |rs|
    requires forall k :: 0 <= k < |rs| ==> rs[k] in rowOf && ws[k] == rowOf[rs[k]]
    modifies s`payments
    ensures o.Done? <==> forall k :: 0 <= k < |instructions| ==> ValidAmount(instructions[k].amount)
    ensures o.Done? ==> PaymentsMade(old(s.payments), s.payments, d, disbursementId, instructions, rs, ws, ids, avoid)
  {
    hide Contact, Owns, Elements;
    var inserts: seq<Terms> := [];
    for k := 0 to |instructions|
      invariant |inserts| == k && s.payments == old(s.payments)
      invariant forall j :: 0 <= j < k ==> inserts[j] == NewPayment(d, disbursementId, instructions[j], rs[j], ws[j]).terms
    {
      var receiver := FindReceiverByInstruction(receivers, instructions[k]);
      LocatedFinds(receivers, instructions, rs, k, receiver);
      inserts := inserts + [Terms(instructions[k].amount, d.assetId, receiver.value, rowOf[receiver.value], Some(disbursementId),
                                  instructions[k].externalPaymentId)];
    }
    var o', newIds := s.InsertAllPayments(inserts, avoid);
    ids := newIds;
    assert forall k :: 0 <= k < |instructions| ==> inserts[k].amount == instructions[k].amount;
    assert forall k :: 0 <= k < |instructions| ==>
      Payment(inserts[k], PS.DRAFT, [PS.DRAFT], "") == NewPayment(d, disbursementId, instructions[k], rs[k], ws[k]);
    o := if o'.Done? then Done else Failed(StoreFailed(o'.error));
  }

  ghost predicate PaymentsMade(before: map<Id, Payment>, after: map<Id, Payment>, d: Disbursement, disbursementId: Id,
                               instructions: seq<Instruction>, rs: seq<Id>, ws: seq<Id>, ids: seq<Id>, avoid: set<Id>)
    requires |rs| == |ws| == |instructions|
  {
    && |ids| == |instructions| && Distinct(ids)
    && (forall k :: 0 <= k < |ids| ==>
          && ids[k] !in before && ids[k] !in avoid && ids[k] in after
          && after[ids[k]] == NewPayment(d, disbursementId, instructions[k], rs[k], ws[k]))
    && (forall i :: i in before ==> i in after && after[i] == before[i])
    && (forall i :: i in after ==> i in before || i in ids)
  }
}

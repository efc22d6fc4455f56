/** Finding the receivers that instructions name, and creating the ones that are missing. */
module Reconciliation {
  import opened Wrappers
  import opened Sequences
  import opened GoStrings
  import opened Tables
  import opened Uploads
  import opened UploadConditions
  import opened Stores

  // That a receiver or its row is missing from the lookup maps is an error of the code's that cannot occur.
  datatype UploadError =
    | MaxInstructionsExceeded | ContactUnresolved(contactError: ContactError) | NoContactOfType(receiverId: Id)
    | ReceiverCountMismatch | NoReceiverWallets | WalletAddressMismatch
    | MemoUnparsable | InstructionNotFound | VerificationMismatch | StoreFailed(error: StoreError) | DatabaseFailed

  // Receiver rs[k] belongs to instruction k: found under its contact, or just created from it.
  ghost predicate Placed(before: map<Id, Receiver>, after: map<Id, Receiver>, instructions: seq<Instruction>,
                         contactType: ContactType, rs: seq<Id>)
  {
    && |rs| <= |instructions|
    && (forall k :: 0 <= k < |rs| ==> PlacedAt(before, after, instructions[k], contactType, rs[k]))
    && (forall q :: q in before ==> q in after && after[q] == before[q])
    && (forall q :: q in after ==> q in before || q in rs)
  }

  ghost predicate PlacedAt(before: map<Id, Receiver>, after: map<Id, Receiver>, i: Instruction, contactType: ContactType, q: Id) {
    && q in after && Owns(after[q], ContactText(i))
    && if Known(before, contactType, ContactText(i)) then
         q in before && ContactByType(before[q], contactType) == ContactText(i)
       else
         q !in before && after[q] == NewReceiver(i) && i.externalId != "" && IndexAdmits(before, ContactText(i))
  }

  // The contacts of new receivers differ beyond case.
  ghost predicate NewContactsDiffer(before: map<Id, Receiver>, instructions: seq<Instruction>, contactType: ContactType, n: nat)
    requires n <= |instructions|
  {
    forall j, k :: 0 <= j < k < n
                   && !Known(before, contactType, ContactText(instructions[j])) && !Known(before, contactType, ContactText(instructions[k])) ==>
      Lower(ContactText(instructions[j])) != Lower(ContactText(instructions[k]))
  }

  // The receivers that GetByContacts finds.
  ghost predicate FoundBy(rs: map<Id, Receiver>, instructions: seq<Instruction>, found: map<Id, Receiver>) {
    && (forall q :: q in found ==> q in rs && found[q] == rs[q]
                                   && exists k :: 0 <= k < |instructions| && Owns(rs[q], ContactText(instructions[k])))
    && (forall k, q :: 0 <= k < |instructions| && q in rs && Owns(rs[q], ContactText(instructions[k])) ==> q in found)
  }

  ghost predicate AllHaveContacts(instructions: seq<Instruction>) {
    forall k :: 0 <= k < |instructions| ==> Contact(instructions[k]).Ok?
  }

  lemma FoundAreElements(before: map<Id, Receiver>, after: map<Id, Receiver>, instructions: seq<Instruction>,
                         contactType: ContactType, rs: seq<Id>, found: map<Id, Receiver>)
    requires ReceiversOk(after) && AllHaveContacts(instructions) && |rs| == |instructions|
    requires Placed(before, after, instructions, contactType, rs) && FoundBy(after, instructions, found)
    ensures found.Keys == Elements(rs)
  {
    hide ReceiversOk, Contact, ContactText, Owns;
    forall q | q in found
      ensures q in rs
    {
      var k :| 0 <= k < |instructions| && Owns(after[q], ContactText(instructions[k]));
      assert PlacedAt(before, after, instructions[k], contactType, rs[k]);
      ContactTextOk(instructions[k]);
      OwnerUnique(after, q, rs[k], ContactText(instructions[k]));
    }
    forall q | q in rs
      ensures q in found
    {
      var k :| 0 <= k < |rs| && rs[k] == q;
      assert PlacedAt(before, after, instructions[k], contactType, rs[k]);
    }
  }

  /**
   The count of receivers decides: when as many receivers have one of the contacts as there are
   instructions, each instruction has its own receiver, and the contacts differ.
   */
  lemma CountDecides(before: map<Id, Receiver>, after: map<Id, Receiver>, instructions: seq<Instruction>,
                     contactType: ContactType, rs: seq<Id>, found: map<Id, Receiver>)
    requires ReceiversOk(before) && ReceiversOk(after) && AllHaveContacts(instructions) && |rs| == |instructions|
    requires Placed(before, after, instructions, contactType, rs) && FoundBy(after, instructions, found)
    requires NewContactsDiffer(before, instructions, contactType, |instructions|)
    ensures |found| == |instructions| <==> Reconcilable(before, instructions, contactType)
    ensures |found| == |instructions| ==> found.Keys == Elements(rs) && ReceiversReconciled(before, after, instructions, rs)
  {
    hide ReceiversOk, Reconcilable, ReceiversReconciled;
    FoundAreElements(before, after, instructions, contactType, rs, found);
    ElementsOfDistinct(rs);
    assert |found| == |found.Keys|;
    if Distinct(rs) {
      DistinctPlaced(before, after, instructions, contactType, rs);
      PlacedReconcilable(before, after, instructions, contactType, rs);
    } else {
      assert !Reconcilable(before, instructions, contactType) by {
        if Reconcilable(before, instructions, contactType) {
          ReconcilableDistinct(before, after, instructions, contactType, rs);
          assert false;
        }
      }
    }
  }

  lemma DistinctPlaced(before: map<Id, Receiver>, after: map<Id, Receiver>, instructions: seq<Instruction>, contactType: ContactType, rs: seq<Id>)
    requires ReceiversOk(after) && AllHaveContacts(instructions) && |rs| == |instructions| && Distinct(rs)
    requires Placed(before, after, instructions, contactType, rs)
    ensures ReceiversReconciled(before, after, instructions, rs)
  {
    hide ReceiversOk, Contact, ContactText, Owns, Known;
    forall k | 0 <= k < |rs|
      ensures Contact(instructions[k]).Ok? && ContactText(instructions[k]) == Contact(instructions[k]).value
      ensures rs[k] in after && Owns(after[rs[k]], ContactText(instructions[k]))
      ensures rs[k] in before || after[rs[k]] == NewReceiver(instructions[k])
    {
      ContactTextOk(instructions[k]);
      assert PlacedAt(before, after, instructions[k], contactType, rs[k]);
    }
    forall k, r | 0 <= k < |rs| && r in after && Owns(after[r], Contact(instructions[k]).value)
      ensures r == rs[k]
    {
      ContactTextOk(instructions[k]);
      OwnerUnique(after, r, rs[k], ContactText(instructions[k]));
    }
  }

  // Nobody owns what nobody is known by, once the owners are known by it.
  lemma PlacedReconcilable(before: map<Id, Receiver>, after: map<Id, Receiver>, instructions: seq<Instruction>, contactType: ContactType, rs: seq<Id>)
    requires ReceiversOk(after) && AllHaveContacts(instructions) && |rs| == |instructions| && Distinct(rs)
    requires Placed(before, after, instructions, contactType, rs)
    requires NewContactsDiffer(before, instructions, contactType, |instructions|)
    ensures Reconcilable(before, instructions, contactType)
  {
    hide ReceiversOk, Contact, ContactText, Owns, ContactByType, IndexAdmits, Known;
    forall k | 0 <= k < |instructions|
      ensures PlacedAt(before, after, instructions[k], contactType, rs[k])
      ensures ContactText(instructions[k]) != ""
    {
      ContactTextOk(instructions[k]);
    }
    forall k, q | 0 <= k < |instructions| && q in before && Owns(before[q], ContactText(instructions[k]))
      ensures ContactByType(before[q], contactType) == ContactText(instructions[k])
    {
      OwnerUnique(after, q, rs[k], ContactText(instructions[k]));
    }
    forall j, k | 0 <= j < k < |instructions|
      ensures ContactText(instructions[j]) != ContactText(instructions[k])
    {
      if ContactText(instructions[j]) == ContactText(instructions[k]) {
        OwnerUnique(after, rs[j], rs[k], ContactText(instructions[k]));
      }
    }
    forall k | 0 <= k < |instructions| && Unowned(before, ContactText(instructions[k]))
      ensures !Known(before, contactType, ContactText(instructions[k]))
    {
      UnownedUnknown(before, contactType, ContactText(instructions[k]));
    }
  }

  lemma UnownedUnknown(rs: map<Id, Receiver>, contactType: ContactType, contact: string)
    requires Unowned(rs, contact)
    ensures !Known(rs, contactType, contact)
  {
  }

  lemma ReconcilableDistinct(before: map<Id, Receiver>, after: map<Id, Receiver>, instructions: seq<Instruction>, contactType: ContactType, rs: seq<Id>)
    requires AllHaveContacts(instructions) && |rs| == |instructions|
    requires Placed(before, after, instructions, contactType, rs)
    requires Reconcilable(before, instructions, contactType)
    ensures Distinct(rs)
  {
    hide Contact, ContactText, Owns, ContactByType, IndexAdmits, Known, Unowned;
    forall j, k | 0 <= j < k < |rs|
      ensures rs[j] != rs[k]
    {
      ContactTextOk(instructions[j]);
      ContactTextOk(instructions[k]);
      assert PlacedAt(before, after, instructions[j], contactType, rs[j]);
      assert PlacedAt(before, after, instructions[k], contactType, rs[k]);
    }
  }

  // -------------------------------------------------------------------------------- methods

  method FindReceiverByInstruction(receivers: map<Id, Receiver>, i: Instruction) returns (r: Option<Id>)
    ensures r.Some? ==> Contact(i).Ok? && r.value in receivers && Owns(receivers[r.value], Contact(i).value)
    ensures r.None? ==> Contact(i).Err? || Unowned(receivers, Contact(i).value)
  {
    var contact := Contact(i);
    if contact.Err? {
      return None;
    }
    // The order of the range over the map is any.
    var rest := receivers.Keys;
    while rest != {}
      invariant rest <= receivers.Keys
      invariant forall q :: q in receivers && q !in rest ==> !Owns(receivers[q], contact.value)
      decreases |rest|
    {
      var q :| q in rest;
      if contact.value == receivers[q].phone || contact.value == receivers[q].email {
        return Some(q);
      }
      rest := rest - {q};
    }
    return None;
  }

  // The typed contacts of the receivers found, each leading to its receiver.
  method ByTypedContact(found: map<Id, Receiver>, contactType: ContactType) returns (r: Result<map<string, Id>, UploadError>)
    ensures r.Ok? <==> forall q :: q in found ==> ContactByType(found[q], contactType) != ""
    ensures r.Ok? ==> forall c :: c in r.value ==> r.value[c] in found && ContactByType(found[r.value[c]], contactType) == c
    ensures r.Ok? ==> forall q :: q in found ==> ContactByType(found[q], contactType) in r.value
  {
    var byContact: map<string, Id> := map[];
    var rest := found.Keys;
    while rest != {}
      invariant rest <= found.Keys
      invariant forall q :: q in found && q !in rest ==> ContactByType(found[q], contactType) != "" && ContactByType(found[q], contactType) in byContact
      invariant forall c :: c in byContact ==> byContact[c] in found && ContactByType(found[byContact[c]], contactType) == c
      decreases |rest|
    {
      var q :| q in rest;
      var contact := ContactByType(found[q], contactType);
      if contact == "" {
        return Err(NoContactOfType(q));
      }
      byContact := byContact[contact := q];
      rest := rest - {q};
    }
    return Ok(byContact);
  }

  method ResolveContacts(instructions: seq<Instruction>) returns (r: Result<seq<string>, UploadError>)
    ensures r.Ok? <==> AllHaveContacts(instructions)
    ensures r.Ok? ==> |r.value| == |instructions| && forall k :: 0 <= k < |instructions| ==> r.value[k] == ContactText(instructions[k])
  {
    var contacts := [];
    for k := 0 to |instructions|
      invariant |contacts| == k
      invariant forall j :: 0 <= j < k ==> Contact(instructions[j]).Ok? && contacts[j] == ContactText(instructions[j])
    {
      var contact := Contact(instructions[k]);
      if contact.Err? {
        return Err(ContactUnresolved(contact.error));
      }
      contacts := contacts + [contact.value];
    }
    return Ok(contacts);
  }

  lemma ByContactsFinds(s: Store, contacts: seq<string>, instructions: seq<Instruction>)
    requires |contacts| == |instructions| && forall k :: 0 <= k < |instructions| ==> contacts[k] == ContactText(instructions[k])
    ensures FoundBy(s.receivers, instructions, s.ByContacts(contacts))
  {
  }

  // ------------------------------------------------------------------- creating the missing ones

  // What Insert checks of a new receiver.
  ghost predicate Insertable(rs: map<Id, Receiver>, i: Instruction) {
    && i.externalId != "" && (i.phone != "" || i.email != "")
    && forall q :: q in rs ==>
         && (i.email != "" ==> Lower(rs[q].email) != Lower(i.email))
         && (i.phone != "" ==> Lower(rs[q].phone) != Lower(i.phone))
  }

  lemma LowerKeepsKind(a: string, b: string)
    requires Lower(a) == Lower(b)
    ensures |a| == |b| && ('@' in a <==> '@' in b)
  {
    assert |a| == |Lower(a)| == |Lower(b)| == |b|;
    forall k | 0 <= k < |a|
      ensures a[k] == '@' <==> b[k] == '@'
    {
      assert Lower(a)[k] == Lower(b)[k];
    }
  }

  lemma InsertableIndex(rs: map<Id, Receiver>, i: Instruction)
    requires ReceiversOk(rs) && Contact(i).Ok? && WellKinded(i.phone, i.email)
    ensures Insertable(rs, i) <==> i.externalId != "" && IndexAdmits(rs, ContactText(i))
  {
    hide Lower;
    forall q | q in rs
      ensures i.phone == "" ==> Lower(rs[q].phone) != Lower(i.email)
      ensures i.email == "" ==> Lower(rs[q].email) != Lower(i.phone)
    {
      if Lower(rs[q].phone) == Lower(i.email) {
        LowerKeepsKind(rs[q].phone, i.email);
      }
      if Lower(rs[q].email) == Lower(i.phone) {
        LowerKeepsKind(rs[q].email, i.phone);
      }
    }
  }

  lemma InsertKeepsReceiversOk(rs: map<Id, Receiver>, i: Instruction, id: Id, rs': map<Id, Receiver>)
    requires ReceiversOk(rs) && Contact(i).Ok? && WellKinded(i.phone, i.email) && Insertable(rs, i)
    requires id !in rs && rs' == rs[id := NewReceiver(i)]
    ensures ReceiversOk(rs')
  {
    hide Lower;
    forall q | q in rs'
      ensures |Lower(rs'[q].phone)| == |rs'[q].phone| && |Lower(rs'[q].email)| == |rs'[q].email|
    {
      LowerLength(rs'[q].phone);
      LowerLength(rs'[q].email);
    }
    forall q, r | q in rs' && r in rs' && q != r
      ensures rs'[q].phone != "" ==> Lower(rs'[q].phone) != Lower(rs'[r].phone)
      ensures rs'[q].email != "" ==> Lower(rs'[q].email) != Lower(rs'[r].email)
    {
    }
  }

  lemma LowerLength(a: string)
    ensures |Lower(a)| == |a|
  {
  }

  lemma PlaceNew(before: map<Id, Receiver>, mid: map<Id, Receiver>, instructions: seq<Instruction>, contactType: ContactType,
                 rs: seq<Id>, id: Id, mid': map<Id, Receiver>)
    requires ReceiversOk(mid) && AllHaveContacts(instructions) && AllWellKinded(instructions) && |rs| < |instructions|
    requires Placed(before, mid, instructions, contactType, rs) && NewContactsDiffer(before, instructions, contactType, |rs|)
    requires !Known(before, contactType, ContactText(instructions[|rs|])) && Insertable(mid, instructions[|rs|])
    requires id !in mid && mid' == mid[id := NewReceiver(instructions[|rs|])]
    ensures ReceiversOk(mid')
    ensures Placed(before, mid', instructions, contactType, rs + [id])
    ensures NewContactsDiffer(before, instructions, contactType, |rs| + 1)
  {
    var i := instructions[|rs|];
    InsertKeepsReceiversOk(mid, i, id, mid');
    InsertableIndex(mid, i);
    hide ReceiversOk, Insertable, Contact, ContactText, Known, PlacedAt, IndexAdmits, Lower, NewContactsDiffer;
    ContactsStillDiffer(before, mid, instructions, contactType, rs);
    var rs' := rs + [id];
    forall k | 0 <= k < |rs'|
      ensures PlacedAt(before, mid', instructions[k], contactType, rs'[k])
    {
      if k < |rs| {
        PlacedStays(before, mid, instructions[k], contactType, rs[k], id, NewReceiver(i));
      } else {
        PlacedNow(before, mid, i, contactType, id);
      }
    }
  }

  lemma ContactsStillDiffer(before: map<Id, Receiver>, mid: map<Id, Receiver>, instructions: seq<Instruction>, contactType: ContactType, rs: seq<Id>)
    requires AllHaveContacts(instructions) && |rs| < |instructions|
    requires Placed(before, mid, instructions, contactType, rs) && NewContactsDiffer(before, instructions, contactType, |rs|)
    requires IndexAdmits(mid, ContactText(instructions[|rs|]))
    ensures NewContactsDiffer(before, instructions, contactType, |rs| + 1)
  {
    hide Contact, ContactText, Known, PlacedAt, IndexAdmits, Lower;
    forall j | 0 <= j < |rs| && !Known(before, contactType, ContactText(instructions[j]))
      ensures Lower(ContactText(instructions[j])) != Lower(ContactText(instructions[|rs|]))
    {
      NewReceiverClashes(before, mid, instructions[j], contactType, rs[j], ContactText(instructions[|rs|]));
    }
  }

  lemma PlacedStays(before: map<Id, Receiver>, mid: map<Id, Receiver>, i: Instruction, contactType: ContactType, q: Id, id: Id, row: Receiver)
    requires PlacedAt(before, mid, i, contactType, q) && id !in mid
    ensures PlacedAt(before, mid[id := row], i, contactType, q)
  {
  }

  lemma PlacedNow(before: map<Id, Receiver>, mid: map<Id, Receiver>, i: Instruction, contactType: ContactType, id: Id)
    requires Contact(i).Ok? && !Known(before, contactType, ContactText(i)) && id !in mid
    requires forall q :: q in before ==> q in mid && mid[q] == before[q]
    requires i.externalId != "" && IndexAdmits(mid, ContactText(i))
    ensures PlacedAt(before, mid[id := NewReceiver(i)], i, contactType, id)
  {
    ContactTextOk(i);
    hide Lower, ContactText, Known;
  }

  lemma NewReceiverClashes(before: map<Id, Receiver>, mid: map<Id, Receiver>, i: Instruction, contactType: ContactType, q: Id, contact: string)
    requires Contact(i).Ok? && PlacedAt(before, mid, i, contactType, q) && !Known(before, contactType, ContactText(i))
    requires IndexAdmits(mid, contact)
    ensures Lower(ContactText(i)) != Lower(contact)
  {
    NewReceiverContact(i);
    hide ContactText, Known;
  }

  // The contact is one column of the new row.
  lemma NewReceiverContact(i: Instruction)
    requires Contact(i).Ok?
    ensures NewReceiver(i).phone == ContactText(i) || NewReceiver(i).email == ContactText(i)
  {
  }

  lemma PlaceKnown(before: map<Id, Receiver>, mid: map<Id, Receiver>, instructions: seq<Instruction>, contactType: ContactType, rs: seq<Id>, q: Id)
    requires |rs| < |instructions|
    requires Placed(before, mid, instructions, contactType, rs) && NewContactsDiffer(before, instructions, contactType, |rs|)
    requires q in before && ContactByType(before[q], contactType) == ContactText(instructions[|rs|])
    ensures Placed(before, mid, instructions, contactType, rs + [q])
    ensures NewContactsDiffer(before, instructions, contactType, |rs| + 1)
  {
    hide ContactText, IndexAdmits;
    var rs' := rs + [q];
    assert Known(before, contactType, ContactText(instructions[|rs|]));
    forall k | 0 <= k < |rs'|
      ensures PlacedAt(before, mid, instructions[k], contactType, rs'[k])
    {
      if k < |rs| {
        assert PlacedAt(before, mid, instructions[k], contactType, rs[k]);
      }
    }
  }

  // An insert that is refused means that the instructions could not be reconciled.
  lemma InsertRefused(before: map<Id, Receiver>, mid: map<Id, Receiver>, instructions: seq<Instruction>, contactType: ContactType, rs: seq<Id>)
    requires ReceiversOk(mid) && AllHaveContacts(instructions) && AllWellKinded(instructions) && |rs| < |instructions|
    requires Placed(before, mid, instructions, contactType, rs)
    requires !Known(before, contactType, ContactText(instructions[|rs|])) && !Insertable(mid, instructions[|rs|])
    ensures !Reconcilable(before, instructions, contactType)
  {
    var n := |rs|;
    var i := instructions[n];
    InsertableIndex(mid, i);
    hide ReceiversOk, Insertable, Contact, ContactText, ContactByType, Lower;
    if Reconcilable(before, instructions, contactType) {
      assert Unowned(before, ContactText(i)) by {
        forall q | q in before
          ensures !Owns(before[q], ContactText(i))
        {
        }
      }
      var q :| q in mid && !(Lower(mid[q].phone) != Lower(ContactText(i)) && Lower(mid[q].email) != Lower(ContactText(i)));
      var j :| 0 <= j < |rs| && rs[j] == q;
      ContactTextOk(i);
      NewClashes(before, mid, instructions[j], contactType, q, ContactText(i));
      assert false;
    }
  }

  lemma NewClashes(before: map<Id, Receiver>, mid: map<Id, Receiver>, i: Instruction, contactType: ContactType, q: Id, contact: string)
    requires Contact(i).Ok? && contact != "" && PlacedAt(before, mid, i, contactType, q) && q !in before
    requires Lower(mid[q].phone) == Lower(contact) || Lower(mid[q].email) == Lower(contact)
    ensures Lower(ContactText(i)) == Lower(contact)
  {
    hide ContactText, ContactByType, IndexAdmits;
    OneColumn(i, contact);
  }

  lemma OneColumn(i: Instruction, c: string)
    requires Contact(i).Ok? && c != ""
    requires Lower(NewReceiver(i).phone) == Lower(c) || Lower(NewReceiver(i).email) == Lower(c)
    ensures Lower(ContactText(i)) == Lower(c)
  {
    assert |Lower(c)| == |c| && Lower("") == "";
  }

  // What the lookup map says of the instructions' contacts.
  ghost predicate LooksUp(before: map<Id, Receiver>, instructions: seq<Instruction>, contactType: ContactType, byContact: map<string, Id>) {
    forall k :: 0 <= k < |instructions| ==>
      var c := ContactText(instructions[k]);
      && (c in byContact <==> Known(before, contactType, c))
      && (c in byContact ==> byContact[c] in before && ContactByType(before[byContact[c]], contactType) == c)
  }

  // createReceiverFromInstructionIfNeeded, for every instruction.
  method CreateMissing(s: Store, instructions: seq<Instruction>, contactType: ContactType, byContact: map<string, Id>)
    returns (o: Outcome<UploadError>, ghost rs: seq<Id>)
    requires ReceiversOk(s.receivers) && AllWellKinded(instructions) && AllHaveContacts(instructions)
    requires LooksUp(s.receivers, instructions, contactType, byContact)
    modifies s`receivers
    ensures ReceiversOk(s.receivers)
    ensures o.Failed? ==> !Reconcilable(old(s.receivers), instructions, contactType)
    ensures o.Done? ==>
              && |rs| == |instructions| && Placed(old(s.receivers), s.receivers, instructions, contactType, rs)
              && NewContactsDiffer(old(s.receivers), instructions, contactType, |instructions|)
  {
    hide ReceiversOk, Reconcilable, Known, Lower, IndexAdmits, PlacedAt, Owns;
    ghost var before := s.receivers;
    rs := [];
    for k := 0 to |instructions|
      invariant |rs| == k && ReceiversOk(s.receivers)
      invariant Placed(before, s.receivers, instructions, contactType, rs)
      invariant NewContactsDiffer(before, instructions, contactType, k)
    {
      hide Placed, NewContactsDiffer, AllWellKinded;
      var contact := Contact(instructions[k]).value;
      assert contact == ContactText(instructions[k]);
      if contact in byContact {
        PlaceKnown(before, s.receivers, instructions, contactType, rs, byContact[contact]);
        rs := rs + [byContact[contact]];
      } else {
        ghost var mid := s.receivers;
        var inserted := s.InsertReceiver(instructions[k]);
        if inserted.Err? {
          InsertRefused(before, mid, instructions, contactType, rs);
          return Failed(StoreFailed(inserted.error)), rs;
        }
        PlaceNew(before, mid, instructions, contactType, rs, inserted.value, s.receivers);
        rs := rs + [inserted.value];
      }
    }
    return Done, rs;
  }

  /**
   Finds or creates the instructions' receivers.  It succeeds exactly when they are reconcilable, and
   then each instruction has a receiver of its own.
   */
  method Reconcile(s: Store, instructions: seq<Instruction>, contactType: ContactType)
    returns (r: Result<map<Id, Receiver>, UploadError>, ghost rs: seq<Id>)
    requires ReceiversOk(s.receivers) && AllWellKinded(instructions)
    modifies s`receivers
    ensures r.Ok? <==> Reconcilable(old(s.receivers), instructions, contactType)
    ensures r.Ok? ==>
              && ReceiversReconciled(old(s.receivers), s.receivers, instructions, rs)
              && r.value.Keys == Elements(rs) && (forall q :: q in r.value ==> q in s.receivers && r.value[q] == s.receivers[q])
    ensures ReceiversOk(s.receivers)
  {
    ghost var before := s.receivers;
    rs := [];
    var resolved := ResolveContacts(instructions);
    if resolved.Err? {
      return Err(resolved.error), rs;
    }
    var contacts := resolved.value;
    var existing := if |contacts| == 0 then map[] else s.ByContacts(contacts);
    ByContactsFinds(s, contacts, instructions);
    assert FoundBy(before, instructions, existing);
    var byContact := ByTypedContact(existing, contactType);
    if byContact.Err? {
      Untyped(before, instructions, contactType, existing);
      return Err(byContact.error), rs;
    }
    KnownIffFound(before, instructions, contactType, existing, byContact.value);
    var created;
    created, rs := CreateMissing(s, instructions, contactType, byContact.value);
    if created.Failed? {
      return Err(created.error), rs;
    }
    hide ReceiversOk, Reconcilable, ReceiversReconciled, Placed, NewContactsDiffer, Known;
    var receivers := if |contacts| == 0 then map[] else s.ByContacts(contacts);
    ByContactsFinds(s, contacts, instructions);
    assert FoundBy(s.receivers, instructions, receivers);
    CountDecides(before, s.receivers, instructions, contactType, rs, receivers);
    if |receivers| != |instructions| {
      return Err(ReceiverCountMismatch), rs;
    }
    return Ok(receivers), rs;
  }

  lemma Untyped(before: map<Id, Receiver>, instructions: seq<Instruction>, contactType: ContactType, found: map<Id, Receiver>)
    requires AllHaveContacts(instructions) && FoundBy(before, instructions, found)
    requires exists q :: q in found && ContactByType(found[q], contactType) == ""
    ensures !Reconcilable(before, instructions, contactType)
  {
    hide Contact, ContactText, Owns, ContactByType;
    var q :| q in found && ContactByType(found[q], contactType) == "";
    var k :| 0 <= k < |instructions| && Owns(before[q], ContactText(instructions[k]));
    ContactTextOk(instructions[k]);
  }

  // Looking a contact up in the map finds whoever has it as a contact of the kind.
  lemma KnownIffFound(before: map<Id, Receiver>, instructions: seq<Instruction>, contactType: ContactType,
                      found: map<Id, Receiver>, byContact: map<string, Id>)
    requires FoundBy(before, instructions, found)
    requires forall c :: c in byContact ==> byContact[c] in found && ContactByType(found[byContact[c]], contactType) == c
    requires forall q :: q in found ==> ContactByType(found[q], contactType) in byContact
    ensures LooksUp(before, instructions, contactType, byContact)
  {
    hide ContactText;
    forall k | 0 <= k < |instructions| && Known(before, contactType, ContactText(instructions[k]))
      ensures ContactText(instructions[k]) in byContact
    {
      var q :| q in before && ContactByType(before[q], contactType) == ContactText(instructions[k]);
      assert Owns(before[q], ContactText(instructions[k]));
      assert q in found;
    }
  }
}

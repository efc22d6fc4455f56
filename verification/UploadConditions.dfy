/** When an upload of instructions goes through: what its caller can check on the tables beforehand. */
module UploadConditions {
  import opened Wrappers
  import opened GoStrings
  import opened Tables
  import opened Uploads
  import DS = DisbursementStatuses

  predicate AllWellKinded(instructions: seq<Instruction>) {
    forall k :: 0 <= k < |instructions| ==> WellKinded(instructions[k].phone, instructions[k].email)
  }

  // The text that Contact finds, or none.
  function ContactText(i: Instruction): string {
    match Contact(i)
    case Ok(c) => c
    case Err(_) => ""
  }

  // Whether the instruction's contact is of the given kind.
  predicate Typed(i: Instruction, contactType: ContactType) {
    match contactType
    case EMAIL => i.email != ""
    case PHONE_NUMBER => i.phone != ""
  }

  predicate AllTyped(instructions: seq<Instruction>, contactType: ContactType) {
    forall k :: 0 <= k < |instructions| ==> Typed(instructions[k], contactType)
  }

  // What the schema keeps: unique columns and references to existing rows.
  ghost predicate SchemaOk(t: Tables) {
    && ReceiversOk(t.receivers)
    && WalletsUnique(t.receiverWallets)
    && (forall w :: w in t.receiverWallets ==> t.receiverWallets[w].receiverId in t.receivers)
    && (forall key :: key in t.verifications ==> key.0 in t.receivers)
  }

  // ------------------------------------------------------------------------------- receivers

  // Nobody has the contact.
  ghost predicate Unowned(rs: map<Id, Receiver>, contact: string) {
    forall q :: q in rs ==> !Owns(rs[q], contact)
  }

  // Somebody is looked up under the contact.
  ghost predicate Known(rs: map<Id, Receiver>, contactType: ContactType, contact: string) {
    exists q :: q in rs && ContactByType(rs[q], contactType) == contact
  }

  // No other row makes the unique indexes refuse a new receiver with the contact.
  ghost predicate IndexAdmits(rs: map<Id, Receiver>, contact: string) {
    forall q :: q in rs ==> Lower(rs[q].phone) != Lower(contact) && Lower(rs[q].email) != Lower(contact)
  }

  /**
   When receivers can be found or made: every instruction has one contact, no contact occurs twice,
   whoever has one has it as a contact of the disbursement's kind, and whoever is new can be inserted.
   */
  ghost predicate Reconcilable(rs: map<Id, Receiver>, instructions: seq<Instruction>, contactType: ContactType) {
    && (forall k :: 0 <= k < |instructions| ==> Contact(instructions[k]).Ok?)
    && (forall j, k :: 0 <= j < k < |instructions| ==> ContactText(instructions[j]) != ContactText(instructions[k]))
    && (forall k, q :: 0 <= k < |instructions| && q in rs && Owns(rs[q], ContactText(instructions[k])) ==>
          ContactByType(rs[q], contactType) == ContactText(instructions[k]))
    && (forall k :: 0 <= k < |instructions| && Unowned(rs, ContactText(instructions[k])) ==>
          instructions[k].externalId != "" && IndexAdmits(rs, ContactText(instructions[k])))
    && (forall j, k :: 0 <= j < k < |instructions| && Unowned(rs, ContactText(instructions[j])) && Unowned(rs, ContactText(instructions[k])) ==>
          Lower(ContactText(instructions[j])) != Lower(ContactText(instructions[k])))
  }

  // ------------------------------------------------------------------------ supplied addresses

  // The row is the contact's one for the disbursement's wallet.
  ghost predicate IsRowOf(t: Tables, walletId: Id, contact: string, w: Id) {
    && w in t.receiverWallets && t.receiverWallets[w].walletId == walletId
    && t.receiverWallets[w].receiverId in t.receivers && Owns(t.receivers[t.receiverWallets[w].receiverId], contact)
  }

  // The contact's wallet is new, or not registered yet.
  ghost predicate Registers(t: Tables, walletId: Id, contact: string) {
    forall w :: IsRowOf(t, walletId, contact, w) ==> !SkipsRegistration(t.receiverWallets[w])
  }

  predicate Registrable(lib: Libraries, i: Instruction) {
    && (i.walletAddress == "" || lib.validAddress(i.walletAddress))
    && (i.walletAddressMemo == "" || (lib.parseMemo(i.walletAddressMemo).Some? && !lib.contractAddress(i.walletAddress)))
  }

  ghost predicate AddressesOk(lib: Libraries, t: Tables, walletId: Id, instructions: seq<Instruction>) {
    && instructions != []
    && (forall k, w :: 0 <= k < |instructions| && IsRowOf(t, walletId, ContactText(instructions[k]), w) ==>
          t.receiverWallets[w].stellarAddress == "" || t.receiverWallets[w].stellarAddress == instructions[k].walletAddress)
    && (forall k :: 0 <= k < |instructions| && Registers(t, walletId, ContactText(instructions[k])) ==> Registrable(lib, instructions[k]))
    && (forall k, w :: 0 <= k < |instructions| && w in t.receiverWallets && Registers(t, walletId, ContactText(instructions[k]))
                       && t.receiverWallets[w].stellarAddress == instructions[k].walletAddress != "" ==>
          && t.receiverWallets[w].receiverId in t.receivers
          && Owns(t.receivers[t.receiverWallets[w].receiverId], ContactText(instructions[k])))
    && (forall j, k :: 0 <= j < k < |instructions|
                       && Registers(t, walletId, ContactText(instructions[j])) && Registers(t, walletId, ContactText(instructions[k])) ==>
          instructions[j].walletAddress == "" || instructions[j].walletAddress != instructions[k].walletAddress)
  }

  // --------------------------------------------------------------------------- verifications

  // What inserting, keeping or updating one verification needs.
  predicate ValueOk(lib: Libraries, verifications: map<(Id, string), Verification>, key: (Id, string), value: string) {
    if key in verifications then
      lib.compare(verifications[key].hashedValue, value) || (!verifications[key].confirmed && lib.hashable(value))
    else
      !IsBlank(value) && lib.hashable(value)
  }

  ghost predicate VerificationsOk(lib: Libraries, t: Tables, field: string, contactType: ContactType, instructions: seq<Instruction>) {
    && (forall k :: 0 <= k < |instructions| ==> Typed(instructions[k], contactType))
    && (forall k, q :: 0 <= k < |instructions| && q in t.receivers && Owns(t.receivers[q], ContactText(instructions[k])) ==>
          ValueOk(lib, t.verifications, (q, field), instructions[k].verificationValue))
    && (forall k :: 0 <= k < |instructions| && Unowned(t.receivers, ContactText(instructions[k])) ==>
          !IsBlank(instructions[k].verificationValue) && lib.hashable(instructions[k].verificationValue))
  }

  // ---------------------------------------------------------------------------- the whole upload

  // When everything can be written that an upload writes before it turns to the disbursement itself.
  ghost predicate Writable(lib: Libraries, t: Tables, u: Upload)
    requires u.disbursementId in t.disbursements
  {
    var d := t.disbursements[u.disbursementId];
    && |u.instructions| <= u.maxInstructions
    && Reconcilable(t.receivers, u.instructions, d.contactType)
    && (d.includesWalletAddress ==> AddressesOk(lib, t, d.walletId, u.instructions))
    && (!d.includesWalletAddress && d.verificationField != "" ==>
          VerificationsOk(lib, t, d.verificationField, d.contactType, u.instructions))
    && (forall k :: 0 <= k < |u.instructions| ==> ValidAmount(u.instructions[k].amount))
  }

  /** Exactly when an upload succeeds on a healthy database. */
  ghost predicate Uploadable(lib: Libraries, t: Tables, u: Upload)
    requires u.disbursementId in t.disbursements
  {
    && Writable(lib, t, u)
    && u.fileName != "" && u.fileContent != ""
    && DS.Allows(t.disbursements[u.disbursementId].status, DS.READY)
  }

  // -------------------------------------------------------------------------- two consequences

  /** Whoever owns a contact of an instruction only as the other kind of contact makes the upload fail. */
  lemma OwnedAsOtherKind(lib: Libraries, t: Tables, u: Upload, k: nat, q: Id)
    requires u.disbursementId in t.disbursements && k < |u.instructions| && q in t.receivers
    requires Owns(t.receivers[q], ContactText(u.instructions[k]))
    requires ContactByType(t.receivers[q], t.disbursements[u.disbursementId].contactType) != ContactText(u.instructions[k])
    ensures !Uploadable(lib, t, u)
  {
    hide ContactText, ContactByType, Owns;
  }

  /** The lookup minds the case and the unique index does not: an email known in other letters makes it fail too. */
  lemma KnownInOtherLetters(lib: Libraries, t: Tables, u: Upload, k: nat, q: Id)
    requires SchemaOk(t) && AllWellKinded(u.instructions)
    requires u.disbursementId in t.disbursements && k < |u.instructions| && q in t.receivers
    requires u.instructions[k].email != "" && t.receivers[q].email != u.instructions[k].email
    requires Lower(t.receivers[q].email) == Lower(u.instructions[k].email)
    ensures !Uploadable(lib, t, u)
  {
    hide Lower;
    var i := u.instructions[k];
    if Contact(i).Ok? {
      forall r | r in t.receivers
        ensures !Owns(t.receivers[r], i.email)
      {
        assert WellKinded(t.receivers[r].phone, t.receivers[r].email) && WellKinded(i.phone, i.email);
      }
      assert Unowned(t.receivers, ContactText(i)) && !IndexAdmits(t.receivers, ContactText(i));
    }
  }

  // ------------------------------------------------------------------------------ small facts

  /** A contact has one owner at most. */
  lemma OwnerUnique(rs: map<Id, Receiver>, q: Id, r: Id, contact: string)
    requires ReceiversOk(rs) && q in rs && r in rs && contact != ""
    requires Owns(rs[q], contact) && Owns(rs[r], contact)
    ensures q == r
  {
  }

  lemma ContactTextOk(i: Instruction)
    requires Contact(i).Ok?
    ensures ContactText(i) == Contact(i).value != ""
    ensures forall c :: Owns(NewReceiver(i), c) && c != "" ==> c == ContactText(i)
    ensures Owns(NewReceiver(i), ContactText(i))
  {
  }
}

/** What the upload handler accepts and what a post leaves, said of the lines as they stand in the file. */
module PostMeanings {
  import opened Wrappers
  import opened GoStrings
  import opened Tables
  import opened Totals
  import opened Uploads
  import opened UploadConditions
  import opened InstructionValidation
  import opened Lifecycle
  import opened Reuploads
  import PS = PaymentStatuses
  import DS = DisbursementStatuses
  import WS = ReceiverWalletStatuses

  // -------------------------------------------------------------------------------- acceptance

  // A non-blank text of at most 64 characters.
  predicate IsIdentifier(s: string) {
    TrimSpace(s) != "" && |TrimSpace(s)| <= 64
  }

  predicate LineAccepted(lib: Libraries, formats: Formats, d: Disbursement, i: Instruction) {
    && IsIdentifier(i.externalId)
    && 0 < i.amount <= 9_223_372_036_854_775_807
    && (TrimSpace(i.externalPaymentId) == "" || IsIdentifier(i.externalPaymentId))
    && (match d.contactType
        case EMAIL => Lower(TrimSpace(i.email)) != "" && formats.validEmail(Lower(TrimSpace(i.email)))
        case PHONE_NUMBER => Lower(TrimSpace(i.phone)) != "" && formats.validPhone(Lower(TrimSpace(i.phone))))
    && (d.includesWalletAddress ==>
          var address, memo := Upper(TrimSpace(i.walletAddress)), TrimSpace(i.walletAddressMemo);
          && address != "" && lib.validAddress(address)
          && (memo == "" || (lib.parseMemo(memo).Some? && !lib.contractAddress(address))))
    && (!d.includesWalletAddress ==>
          var value := TrimSpace(i.verificationValue);
          && (d.verificationField == "DATE_OF_BIRTH" ==> value != "" && formats.validDateOfBirth(value))
          && (d.verificationField == "YEAR_MONTH" ==> value != "" && formats.validYearMonth(value))
          && (d.verificationField == "PIN" ==> 4 <= ByteLength(value) <= 8)
          && (d.verificationField == "NATIONAL_ID_NUMBER" ==> 1 <= ByteLength(value) <= 50))
  }

  /** Which lines the handler accepts: each one by itself, and exactly one kind of contact in each, none twice. */
  lemma AcceptedMeans(lib: Libraries, formats: Formats, d: Disbursement, lines: seq<Instruction>)
    ensures Accepted(lib, formats, d, lines) <==>
              && lines != []
              && (forall k :: 0 <= k < |lines| ==> LineAccepted(lib, formats, d, lines[k]))
              && (forall k :: 0 <= k < |lines| ==> (lines[k].phone == "" <==> lines[k].email != ""))
              && (forall j, k :: 0 <= j < k < |lines| ==> lines[j].phone + lines[j].email != lines[k].phone + lines[k].email)
  {
    forall k | 0 <= k < |lines|
      ensures LineOk(lib, formats, d, Sanitize(lines[k])) <==> LineAccepted(lib, formats, d, lines[k])
    {
      LineAcceptedIs(lib, formats, d, lines[k]);
    }
    ContactsAre(lines);
    hide LineOk, LineAccepted, Sanitize, NoDuplicateContacts;
  }

  lemma LineAcceptedIs(lib: Libraries, formats: Formats, d: Disbursement, i: Instruction)
    ensures LineOk(lib, formats, d, Sanitize(i)) <==> LineAccepted(lib, formats, d, i)
  {
    TrimmedIsBlank(i.externalId);
    TrimmedIsBlank(i.externalPaymentId);
    EmptyLength();
    hide TrimSpace, Lower, Upper, IsBlank, ByteLength;
  }

  lemma EmptyLength()
    ensures forall s: string :: ByteLength(s) == 0 <==> s == ""
  {
    forall s: string
      ensures ByteLength(s) == 0 <==> s == ""
    {
      if s != "" {
        assert CharBytes(s[0]) > 0;
      }
    }
  }

  lemma TrimmedIsBlank(s: string)
    ensures IsBlank(TrimSpace(s)) <==> TrimSpace(s) == ""
  {
    if TrimSpace(s) != "" {
      assert !IsSpace(TrimSpace(s)[|TrimSpace(s)| - 1]);
    }
  }

  lemma ContactsAre(lines: seq<Instruction>)
    ensures NoDuplicateContacts(lines) <==>
              && (forall k :: 0 <= k < |lines| ==> (lines[k].phone == "" <==> lines[k].email != ""))
              && (forall j, k :: 0 <= j < k < |lines| ==> lines[j].phone + lines[j].email != lines[k].phone + lines[k].email)
  {
    forall k | 0 <= k < |lines|
      ensures Contact(lines[k]).Ok? <==> (lines[k].phone == "" <==> lines[k].email != "")
      ensures Contact(lines[k]).Ok? ==> ContactText(lines[k]) == lines[k].phone + lines[k].email
    {
    }
    hide Contact, ContactText;
  }

  /** Which columns the handler accepts, kind by kind. */
  lemma HeadersMean(headers: seq<string>, d: Disbursement, file: File)
    ensures HeadersOk(headers, d, file.SkipsVerification(d)) <==>
              && (if d.contactType.EMAIL? then "email" in headers && "phone" !in headers else "phone" in headers && "email" !in headers)
              && (if d.includesWalletAddress then "walletAddress" in headers && "verification" !in headers
                  else
                    && "walletAddress" !in headers && "walletAddressMemo" !in headers
                    && ("verification" in headers <==> !(file.walletEmbedded && d.verificationField == "")))
  {
  }

  // -------------------------------------------------------------------------------------- a post

  // The lines' payments are the new ones, the disbursement's earlier drafts are gone, the rest is as it was.
  ghost predicate PaymentsPosted(t: Tables, u: Upload, pl: Placement, t': Tables)
    requires u.disbursementId in t.disbursements
  {
    && |pl.payments| == |pl.receivers| == |pl.wallets| == |u.instructions|
    && (forall j, k :: 0 <= j < k < |pl.payments| ==> pl.payments[j] != pl.payments[k])
    && (forall k :: 0 <= k < |u.instructions| ==>
          && pl.payments[k] !in t.payments && pl.payments[k] in t'.payments
          && t'.payments[pl.payments[k]] == Payment(
               Terms(u.instructions[k].amount, t.disbursements[u.disbursementId].assetId, pl.receivers[k], pl.wallets[k],
                     Some(u.disbursementId), TrimSpace(u.instructions[k].externalPaymentId)),
               PS.DRAFT, [PS.DRAFT], ""))
    && (forall i :: i in t.payments ==>
          if t.payments[i].terms.disbursementId == Some(u.disbursementId) && t.payments[i].status == PS.DRAFT then i !in t'.payments
          else i in t'.payments && t'.payments[i] == t.payments[i])
    && (forall i :: i in t'.payments ==> i in t.payments || i in pl.payments)
  }

  // Each line's receiver is known by its contact; a new one has the line's contact and external id and nothing more.
  ghost predicate ReceiversPosted(t: Tables, u: Upload, pl: Placement, t': Tables)
    requires u.disbursementId in t.disbursements
  {
    && |pl.receivers| == |u.instructions|
    && (forall k :: 0 <= k < |u.instructions| ==>
          var i, r := u.instructions[k], pl.receivers[k];
          && r in t'.receivers
          && (if t.disbursements[u.disbursementId].contactType.EMAIL? then t'.receivers[r].email == Lower(TrimSpace(i.email))
              else t'.receivers[r].phone == Lower(TrimSpace(i.phone)))
          && (r !in t.receivers ==>
                t'.receivers[r] == Receiver(Lower(TrimSpace(i.phone)), Lower(TrimSpace(i.email)), TrimSpace(i.externalId), "", "")))
    && (forall r :: r in t.receivers ==> r in t'.receivers && t'.receivers[r] == t.receivers[r])
    && (forall r :: r in t'.receivers ==> r in t.receivers || r in pl.receivers)
  }

  // The row before any registration: the receiver's own, READY ones to be invited again, or a new DRAFT one.
  function RowBefore(t: Tables, receiverId: Id, walletId: Id, w: Id): ReceiverWallet {
    if w !in t.receiverWallets then ReceiverWallet(receiverId, walletId, "", "", "", WS.DRAFT, [WS.DRAFT], false)
    else if t.receiverWallets[w].status == WS.READY then t.receiverWallets[w].(invitationSent := false)
    else t.receiverWallets[w]
  }

  // Where addresses are supplied, a row that is neither registered nor flagged takes the line's address and memo.
  function RowAfter(lib: Libraries, d: Disbursement, row: ReceiverWallet, i: Instruction): ReceiverWallet {
    var memo := TrimSpace(i.walletAddressMemo);
    if !d.includesWalletAddress || row.status == WS.REGISTERED || row.status == WS.FLAGGED then row
    else
      ReceiverWallet(
        row.receiverId, row.walletId, Upper(TrimSpace(i.walletAddress)),
        if memo != "" then memo else row.stellarMemo,
        if memo != "" && lib.parseMemo(memo).Some? then lib.parseMemo(memo).value else row.stellarMemoType,
        WS.REGISTERED, [WS.REGISTERED] + row.history, row.invitationSent)
  }

  ghost predicate WalletsPosted(lib: Libraries, t: Tables, u: Upload, pl: Placement, t': Tables)
    requires u.disbursementId in t.disbursements
  {
    var d := t.disbursements[u.disbursementId];
    && |pl.wallets| == |pl.receivers| == |u.instructions|
    && (forall k :: 0 <= k < |u.instructions| ==>
          var row := RowBefore(t, pl.receivers[k], d.walletId, pl.wallets[k]);
          && pl.wallets[k] in t'.receiverWallets && row.receiverId == pl.receivers[k] && row.walletId == d.walletId
          && t'.receiverWallets[pl.wallets[k]] == RowAfter(lib, d, row, u.instructions[k]))
    && (forall w :: w in t.receiverWallets ==> w in t'.receiverWallets && (w in pl.wallets || t'.receiverWallets[w] == t.receiverWallets[w]))
    && (forall w :: w in t'.receiverWallets ==> w in t.receiverWallets || w in pl.wallets)
  }

  // Each receiver's verification accepts the line's value; confirmed ones, and those that did already, are untouched.
  ghost predicate VerificationsPosted(lib: Libraries, t: Tables, u: Upload, pl: Placement, t': Tables)
    requires u.disbursementId in t.disbursements
  {
    var d := t.disbursements[u.disbursementId];
    if d.includesWalletAddress || d.verificationField == "" then t'.verifications == t.verifications
    else
      && |pl.receivers| == |u.instructions|
      && (forall k :: 0 <= k < |u.instructions| ==>
            var key, value := (pl.receivers[k], d.verificationField), TrimSpace(u.instructions[k].verificationValue);
            && key in t'.verifications && lib.compare(t'.verifications[key].hashedValue, value)
            && (key !in t.verifications ==> !t'.verifications[key].confirmed)
            && (key in t.verifications ==> t'.verifications[key].confirmed == t.verifications[key].confirmed)
            && (key in t.verifications && (t.verifications[key].confirmed || lib.compare(t.verifications[key].hashedValue, value)) ==>
                  t'.verifications[key] == t.verifications[key]))
      && (forall key :: key in t.verifications ==>
            key in t'.verifications && (t'.verifications[key] == t.verifications[key] || (key.0 in pl.receivers && key.1 == d.verificationField)))
      && (forall key :: key in t'.verifications ==> key in t.verifications || (key.0 in pl.receivers && key.1 == d.verificationField))
  }

  // The disbursement is READY, by the user, with the file; no other changed.
  ghost predicate DisbursementPosted(t: Tables, u: Upload, t': Tables)
    requires u.disbursementId in t.disbursements
  {
    var d := t.disbursements[u.disbursementId];
    t'.disbursements == t.disbursements[u.disbursementId := Disbursement(
      d.walletId, d.assetId, d.verificationField, d.contactType, d.includesWalletAddress,
      DS.READY, d.history + [Entry(u.userId, DS.READY)], u.fileName, u.fileContent)]
  }

  /** Everything that a post leaves, in terms of the lines of the file. */
  ghost predicate PostedAs(lib: Libraries, t: Tables, u: Upload, pl: Placement, t': Tables) {
    && u.disbursementId in t.disbursements
    && DisbursementPosted(t, u, t') && PaymentsPosted(t, u, pl, t') && ReceiversPosted(t, u, pl, t')
    && WalletsPosted(lib, t, u, pl, t') && VerificationsPosted(lib, t, u, pl, t')
  }

  // ------------------------------------------------------------------------------------ the proofs

  lemma PostMeans(lib: Libraries, formats: Formats, t: Tables, u: Upload, pl: Placement, t': Tables)
    requires u.disbursementId in t.disbursements && Accepted(lib, formats, t.disbursements[u.disbursementId], u.instructions)
    requires SoundFormats(formats) && SchemaOk(t) && Uploadable(lib, t, Sanitized(u)) && UploadedAs(lib, t, Sanitized(u), pl, t')
    ensures PostedAs(lib, t, u, pl, t')
  {
    var d := t.disbursements[u.disbursementId];
    AcceptedTyped(lib, formats, d, u.instructions);
    AcceptedMeans(lib, formats, d, u.instructions);
    hide Accepted, SoundFormats, LineAccepted;
    PaymentsArePosted(t, u, pl, t');
    ReceiversArePosted(lib, t, u, pl, t');
    forall k | 0 <= k < |u.instructions| && d.includesWalletAddress
      ensures Upper(TrimSpace(u.instructions[k].walletAddress)) != ""
      ensures TrimSpace(u.instructions[k].walletAddressMemo) == "" || lib.parseMemo(TrimSpace(u.instructions[k].walletAddressMemo)).Some?
    {
      AddressGiven(lib, formats, d, u.instructions[k]);
    }
    WalletsArePosted(lib, t, u, pl, t');
    VerificationsArePosted(lib, t, u, pl, t');
    hide WrittenAs, PaymentsPosted, ReceiversPosted, WalletsPosted, VerificationsPosted;
  }

  lemma AddressGiven(lib: Libraries, formats: Formats, d: Disbursement, i: Instruction)
    requires LineAccepted(lib, formats, d, i) && d.includesWalletAddress
    ensures Upper(TrimSpace(i.walletAddress)) != ""
    ensures TrimSpace(i.walletAddressMemo) == "" || lib.parseMemo(TrimSpace(i.walletAddressMemo)).Some?
  {
    hide TrimSpace, Lower, Upper, ByteLength;
  }

  lemma PaymentsArePosted(t: Tables, u: Upload, pl: Placement, t': Tables)
    requires u.disbursementId in t.disbursements && |pl.receivers| == |pl.wallets| == |u.instructions|
    requires PaymentsReplaced(t.payments, t'.payments, t.disbursements[u.disbursementId], u.disbursementId, SanitizeAll(u.instructions), pl)
    ensures PaymentsPosted(t, u, pl, t')
  {
    hide TrimSpace, Lower, Upper, ValidAmount;
    var kept := WithoutDrafts(t.payments, u.disbursementId);
    forall k | 0 <= k < |u.instructions|
      ensures SanitizeAll(u.instructions)[k] == Sanitize(u.instructions[k])
    {
    }
    forall i | i in t.payments && t.payments[i].terms.disbursementId == Some(u.disbursementId) && t.payments[i].status == PS.DRAFT
      ensures i !in t'.payments
    {
      assert i !in kept;
    }
  }

  lemma ReceiversArePosted(lib: Libraries, t: Tables, u: Upload, pl: Placement, t': Tables)
    requires u.disbursementId in t.disbursements && SchemaOk(t) && Uploadable(lib, t, Sanitized(u))
    requires AllTyped(SanitizeAll(u.instructions), t.disbursements[u.disbursementId].contactType)
    requires ReceiversReconciled(t.receivers, t'.receivers, SanitizeAll(u.instructions), pl.receivers)
    ensures ReceiversPosted(t, u, pl, t')
  {
    hide TrimSpace, Lower, Upper, SchemaOk, AddressesOk, VerificationsOk, ValidAmount;
    var d, lines := t.disbursements[u.disbursementId], SanitizeAll(u.instructions);
    forall k | 0 <= k < |lines|
      ensures ContactByType(t'.receivers[pl.receivers[k]], d.contactType) == ContactByType(NewReceiver(lines[k]), d.contactType)
    {
      assert Contact(lines[k]).Ok? && Typed(lines[k], d.contactType);
      ContactTextOk(lines[k]);
      var r := pl.receivers[k];
      if r in t.receivers {
        assert Owns(t.receivers[r], ContactText(lines[k]));
      }
    }
    hide Reconcilable, Owns, Contact, ContactText;
  }

  lemma WalletsArePosted(lib: Libraries, t: Tables, u: Upload, pl: Placement, t': Tables)
    requires u.disbursementId in t.disbursements && |pl.receivers| == |u.instructions|
    requires WalletsReady(lib, t.receiverWallets, t'.receiverWallets, t.disbursements[u.disbursementId], SanitizeAll(u.instructions), pl.receivers, pl.wallets)
    requires t.disbursements[u.disbursementId].includesWalletAddress ==>
               forall k :: 0 <= k < |u.instructions| ==>
                 && Upper(TrimSpace(u.instructions[k].walletAddress)) != ""
                 && (TrimSpace(u.instructions[k].walletAddressMemo) == "" || lib.parseMemo(TrimSpace(u.instructions[k].walletAddressMemo)).Some?)
    ensures WalletsPosted(lib, t, u, pl, t')
  {
    hide Sanitize, TrimSpace, Upper, ReadyAt, RowBefore, RowAfter;
    var d, lines := t.disbursements[u.disbursementId], SanitizeAll(u.instructions);
    forall k | 0 <= k < |lines|
      ensures var row := RowBefore(t, pl.receivers[k], d.walletId, pl.wallets[k]);
              && pl.wallets[k] in t'.receiverWallets && row.receiverId == pl.receivers[k] && row.walletId == d.walletId
              && t'.receiverWallets[pl.wallets[k]] == RowAfter(lib, d, row, u.instructions[k])
    {
      assert ReadyAt(lib, t.receiverWallets, t'.receiverWallets, d, lines[k], pl.receivers[k], pl.wallets[k]);
      assert lines[k] == Sanitize(u.instructions[k]);
      RowIsPosted(lib, t, t', d, u.instructions[k], pl.receivers[k], pl.wallets[k]);
    }
  }

  lemma RowIsPosted(lib: Libraries, t: Tables, t': Tables, d: Disbursement, i: Instruction, r: Id, w: Id)
    requires ReadyAt(lib, t.receiverWallets, t'.receiverWallets, d, Sanitize(i), r, w)
    requires d.includesWalletAddress ==>
               && Upper(TrimSpace(i.walletAddress)) != ""
               && (TrimSpace(i.walletAddressMemo) == "" || lib.parseMemo(TrimSpace(i.walletAddressMemo)).Some?)
    ensures var row := RowBefore(t, r, d.walletId, w);
            && w in t'.receiverWallets && row.receiverId == r && row.walletId == d.walletId
            && t'.receiverWallets[w] == RowAfter(lib, d, row, i)
  {
    hide TrimSpace, Lower, Upper;
  }

  lemma VerificationsArePosted(lib: Libraries, t: Tables, u: Upload, pl: Placement, t': Tables)
    requires u.disbursementId in t.disbursements && |pl.receivers| == |u.instructions|
    requires VerificationsReady(lib, t.verifications, t'.verifications, t.disbursements[u.disbursementId], SanitizeAll(u.instructions), pl.receivers)
    ensures VerificationsPosted(lib, t, u, pl, t')
  {
    hide TrimSpace, Lower, Upper;
    var d, lines := t.disbursements[u.disbursementId], SanitizeAll(u.instructions);
    if !d.includesWalletAddress && d.verificationField != "" {
      forall k | 0 <= k < |lines|
        ensures VerifiedAt(lib, t.verifications, t'.verifications, (pl.receivers[k], d.verificationField), TrimSpace(u.instructions[k].verificationValue))
      {
        assert VerifiedAt(lib, t.verifications, t'.verifications, (pl.receivers[k], d.verificationField), lines[k].verificationValue);
      }
    }
  }

  lemma {:induction false} SameAsked(lines: seq<Instruction>)
    ensures Asked(SanitizeAll(lines)) == Asked(lines)
  {
    if lines != [] {
      var front := lines[..|lines| - 1];
      SameAsked(front);
      assert SanitizeAll(lines)[..|lines| - 1] == SanitizeAll(front);
    }
  }

  /** In consistent tables, after a post the disbursement's payments come to the sum of the file's amounts. */
  lemma PostPaysWhatTheFileAsks(lib: Libraries, t: Tables, u: Upload, pl: Placement, t': Tables)
    requires Consistent(t) && UploadedAs(lib, t, Sanitized(u), pl, t')
    ensures Total(t'.payments, PaymentsOf(t'.payments, u.disbursementId)) == Asked(u.instructions)
  {
    UploadPaysWhatIsAsked(lib, t, Sanitized(u), pl, t');
    SameAsked(u.instructions);
    hide UploadedAs, Consistent, Asked;
  }
}

/** What the upload handler makes of a file: the header rules, the sanitised lines and the checks on them. */
module InstructionValidation {
  import opened Wrappers
  import opened GoStrings
  import opened Tables
  import opened Uploads
  import opened UploadConditions

  // The formats that libraries decide, as of now: dates must not be in the future.
  datatype Formats = Formats(
    validEmail: string -> bool, validPhone: string -> bool, validDateOfBirth: string -> bool, validYearMonth: string -> bool)

  // What the regular expressions of emails and phone numbers give.
  ghost predicate SoundFormats(formats: Formats) {
    forall s: string :: (formats.validEmail(s) ==> '@' in s) && (formats.validPhone(s) ==> '@' !in s)
  }

  // A file with its columns, and what else its checks depend on.
  datatype File = File(headers: seq<string>, walletEmbedded: bool, formats: Formats) {
    predicate SkipsVerification(d: Disbursement) {
      walletEmbedded && d.verificationField == ""
    }
  }

  // ------------------------------------------------------------------------------------ headers

  const PHONE: string := "phone"
  const EMAIL_ADDRESS: string := "email"
  const WALLET_ADDRESS: string := "walletAddress"
  const WALLET_ADDRESS_MEMO: string := "walletAddressMemo"
  const VERIFICATION: string := "verification"

  // The contact's column and no other contact's; addresses or verification values, never both.
  predicate HeadersOk(headers: seq<string>, d: Disbursement, skipVerification: bool) {
    && (PHONE in headers <==> d.contactType.PHONE_NUMBER?)
    && (EMAIL_ADDRESS in headers <==> d.contactType.EMAIL?)
    && (WALLET_ADDRESS in headers <==> d.includesWalletAddress)
    && (VERIFICATION in headers <==> !d.includesWalletAddress && !skipVerification)
    && (WALLET_ADDRESS_MEMO in headers ==> d.includesWalletAddress)
  }

  // The rules of each kind of disbursement, then the two loops.
  method ValidateCSVHeaders(headers: seq<string>, d: Disbursement, skipVerification: bool) returns (ok: bool)
    ensures ok <==> HeadersOk(headers, d, skipVerification)
  {
    var required, disallowed;
    if d.contactType == ContactType.EMAIL {
      if d.includesWalletAddress {
        required, disallowed := [EMAIL_ADDRESS, WALLET_ADDRESS], [PHONE, VERIFICATION];
      } else {
        required, disallowed := [EMAIL_ADDRESS, VERIFICATION], [PHONE, WALLET_ADDRESS, WALLET_ADDRESS_MEMO];
      }
    } else {
      if d.includesWalletAddress {
        required, disallowed := [PHONE, WALLET_ADDRESS], [EMAIL_ADDRESS, VERIFICATION];
      } else {
        required, disallowed := [PHONE, VERIFICATION], [EMAIL_ADDRESS, WALLET_ADDRESS, WALLET_ADDRESS_MEMO];
      }
    }
    ghost var asked, shut := required, disallowed;
    if skipVerification {
      required := Without(required, VERIFICATION);
      disallowed := disallowed + [VERIFICATION];
    }
    assert forall h :: h in required <==> h in asked && !(skipVerification && h == VERIFICATION);
    assert forall h :: h in disallowed <==> h in shut || (skipVerification && h == VERIFICATION);
    var all := AllIn(required, headers);
    var none := NoneIn(disallowed, headers);
    return all && none;
  }

  method Without(s: seq<string>, header: string) returns (filtered: seq<string>)
    ensures forall h :: h in filtered <==> h in s && h != header
  {
    filtered := [];
    for i := 0 to |s|
      invariant forall h :: h in filtered <==> h in s[..i] && h != header
    {
      if s[i] != header {
        filtered := filtered + [s[i]];
      }
    }
    assert s[..|s|] == s;
  }

  method AllIn(required: seq<string>, headers: seq<string>) returns (ok: bool)
    ensures ok <==> forall h :: h in required ==> h in headers
  {
    for i := 0 to |required|
      invariant forall k :: 0 <= k < i ==> required[k] in headers
    {
      if required[i] !in headers {
        return false;
      }
    }
    return true;
  }

  method NoneIn(disallowed: seq<string>, headers: seq<string>) returns (ok: bool)
    ensures ok <==> forall h :: h in disallowed ==> h !in headers
  {
    for i := 0 to |disallowed|
      invariant forall k :: 0 <= k < i ==> disallowed[k] !in headers
    {
      if disallowed[i] in headers {
        return false;
      }
    }
    return true;
  }

  // -------------------------------------------------------------------------------------- lines

  // SanitizeInstruction; the recipient's name and the currency type are not copied.
  function Sanitize(i: Instruction): Instruction {
    Instruction(
      Lower(TrimSpace(i.phone)), Lower(TrimSpace(i.email)), TrimSpace(i.externalId), i.amount, TrimSpace(i.verificationValue),
      TrimSpace(i.externalPaymentId), Upper(TrimSpace(i.walletAddress)), TrimSpace(i.walletAddressMemo), "", "")
  }

  function SanitizeAll(instructions: seq<Instruction>): (sanitized: seq<Instruction>)
    ensures |sanitized| == |instructions|
  {
    seq(|instructions|, k requires 0 <= k < |instructions| => Sanitize(instructions[k]))
  }

  // What is processed of an upload.
  function Sanitized(u: Upload): Upload {
    u.(instructions := SanitizeAll(u.instructions))
  }

  const MAX_ID_LENGTH: nat := 64
  const MIN_PIN_LENGTH: nat := 4
  const MAX_PIN_LENGTH: nat := 8
  const MAX_NATIONAL_ID_LENGTH: nat := 50

  // ValidateStringLength, in characters
  predicate FitsId(s: string) {
    !IsBlank(s) && |s| <= MAX_ID_LENGTH
  }

  // The verification values that each field takes.
  predicate VerificationValueOk(formats: Formats, field: string, value: string) {
    if field == "DATE_OF_BIRTH" then value != "" && formats.validDateOfBirth(value)
    else if field == "YEAR_MONTH" then value != "" && formats.validYearMonth(value)
    else if field == "PIN" then MIN_PIN_LENGTH <= ByteLength(value) <= MAX_PIN_LENGTH
    else if field == "NATIONAL_ID_NUMBER" then 0 < ByteLength(value) <= MAX_NATIONAL_ID_LENGTH
    else true
  }

  predicate LineOk(lib: Libraries, formats: Formats, d: Disbursement, i: Instruction) {
    && FitsId(i.externalId) && ValidAmount(i.amount) && (i.externalPaymentId == "" || FitsId(i.externalPaymentId))
    && Typed(i, d.contactType)
    && (if d.contactType.EMAIL? then formats.validEmail(i.email) else formats.validPhone(i.phone))
    && (if d.includesWalletAddress then i.walletAddress != "" && Registrable(lib, i)
        else VerificationValueOk(formats, d.verificationField, i.verificationValue))
  }

  method ValidateInstruction(lib: Libraries, formats: Formats, d: Disbursement, i: Instruction) returns (ok: bool)
    ensures ok <==> LineOk(lib, formats, d, i)
  {
    hide ByteLength;
    ok := i.externalId != "" && FitsId(i.externalId) && ValidAmount(i.amount);
    if i.externalPaymentId != "" && !FitsId(i.externalPaymentId) {
      ok := false;
    }
    match d.contactType {
      case EMAIL => ok := ok && i.email != "" && formats.validEmail(i.email);
      case PHONE_NUMBER => ok := ok && i.phone != "" && formats.validPhone(i.phone);
    }
    if d.includesWalletAddress {
      if i.walletAddress == "" || !lib.validAddress(i.walletAddress) {
        ok := false;
      }
      if i.walletAddressMemo != "" && (lib.contractAddress(i.walletAddress) || lib.parseMemo(i.walletAddressMemo).None?) {
        ok := false;
      }
    } else {
      ok := ok && VerificationValueOk(formats, d.verificationField, i.verificationValue);
    }
  }

  ghost predicate NoDuplicateContacts(instructions: seq<Instruction>) {
    && (forall k :: 0 <= k < |instructions| ==> Contact(instructions[k]).Ok?)
    && forall j, k :: 0 <= j < k < |instructions| ==> ContactText(instructions[j]) != ContactText(instructions[k])
  }

  // The lines are checked as they are sanitised, their contacts compared as they were before.
  ghost predicate Accepted(lib: Libraries, formats: Formats, d: Disbursement, instructions: seq<Instruction>) {
    && instructions != []
    && (forall k :: 0 <= k < |instructions| ==> LineOk(lib, formats, d, Sanitize(instructions[k])))
    && NoDuplicateContacts(instructions)
  }

  // CheckForDuplicateContacts, with the line on which each contact was first seen.
  method CheckForDuplicateContacts(instructions: seq<Instruction>) returns (ok: bool)
    ensures ok <==> NoDuplicateContacts(instructions)
  {
    ok := true;
    var seenContacts: map<string, nat> := map[];
    for i := 0 to |instructions|
      invariant forall c :: c in seenContacts ==> seenContacts[c] < i && Contact(instructions[seenContacts[c]]).Ok? && ContactText(instructions[seenContacts[c]]) == c
      invariant forall k :: 0 <= k < i && Contact(instructions[k]).Ok? ==> ContactText(instructions[k]) in seenContacts
      invariant ok <==> NoDuplicateContacts(instructions[..i])
    {
      ghost var before := instructions[..i];
      assert instructions[..i + 1] == before + [instructions[i]];
      var contact := Contact(instructions[i]);
      OneMore(before, instructions[i]);
      if contact.Err? {
        ok := false;
        continue;
      }
      ContactTextOk(instructions[i]);
      if contact.value in seenContacts {
        assert before[seenContacts[contact.value]] == instructions[seenContacts[contact.value]];
        ok := false;
      } else {
        assert forall k :: 0 <= k < i && Contact(before[k]).Ok? ==> ContactText(before[k]) == ContactText(instructions[k]);
        seenContacts := seenContacts[contact.value := i];
      }
    }
    assert instructions[..|instructions|] == instructions;
  }

  lemma OneMore(instructions: seq<Instruction>, i: Instruction)
    ensures NoDuplicateContacts(instructions + [i]) <==>
              && NoDuplicateContacts(instructions) && Contact(i).Ok?
              && forall k :: 0 <= k < |instructions| ==> ContactText(instructions[k]) != ContactText(i)
  {
    hide Contact, ContactText;
    var more := instructions + [i];
    assert forall k :: 0 <= k < |instructions| ==> more[k] == instructions[k];
    assert more[|instructions|] == i;
  }

  /** parseInstructionsFromCSV on the parsed lines: the sanitised ones, exactly if all checks pass. */
  method ParseInstructions(lib: Libraries, formats: Formats, d: Disbursement, instructions: seq<Instruction>)
    returns (r: Option<seq<Instruction>>)
    ensures r.Some? <==> Accepted(lib, formats, d, instructions)
    ensures r.Some? ==> r.value == SanitizeAll(instructions)
  {
    hide LineOk, NoDuplicateContacts, Sanitize;
    var ok := true;
    var sanitizedInstructions: seq<Instruction> := [];
    for i := 0 to |instructions|
      invariant |sanitizedInstructions| == i && forall k :: 0 <= k < i ==> sanitizedInstructions[k] == Sanitize(instructions[k])
      invariant ok <==> forall k :: 0 <= k < i ==> LineOk(lib, formats, d, Sanitize(instructions[k]))
    {
      var sanitized := Sanitize(instructions[i]);
      var valid := ValidateInstruction(lib, formats, d, sanitized);
      ok := ok && valid;
      sanitizedInstructions := sanitizedInstructions + [sanitized];
    }
    if |sanitizedInstructions| == 0 {
      ok := false;
    }
    var distinct := CheckForDuplicateContacts(instructions);
    return if ok && distinct then Some(sanitizedInstructions) else None;
  }

  /** What the handler accepts is of the disbursement's kind throughout, and no text in it is both kinds. */
  lemma AcceptedTyped(lib: Libraries, formats: Formats, d: Disbursement, instructions: seq<Instruction>)
    requires SoundFormats(formats) && Accepted(lib, formats, d, instructions)
    ensures AllTyped(SanitizeAll(instructions), d.contactType) && AllWellKinded(SanitizeAll(instructions))
  {
    hide SoundFormats, LineOk, Typed, WellKinded, Sanitize, Contact;
    forall k | 0 <= k < |instructions|
      ensures Typed(Sanitize(instructions[k]), d.contactType)
      ensures WellKinded(Sanitize(instructions[k]).phone, Sanitize(instructions[k]).email)
    {
      LineTyped(lib, formats, d, instructions[k]);
    }
  }

  lemma LineTyped(lib: Libraries, formats: Formats, d: Disbursement, i: Instruction)
    requires SoundFormats(formats) && LineOk(lib, formats, d, Sanitize(i)) && Contact(i).Ok?
    ensures Typed(Sanitize(i), d.contactType) && WellKinded(Sanitize(i).phone, Sanitize(i).email)
  {
    NothingStays();
    hide FitsId, Registrable, VerificationValueOk, ValidAmount, TrimSpace, Lower, Upper;
  }

  lemma NothingStays()
    ensures Lower(TrimSpace("")) == ""
  {
  }
}

/** The wallet rows of an upload: found or created, and registered where the instructions carry addresses. */
module ReceiverWallets {
  import opened Wrappers
  import opened Sequences
  import opened Tables
  import opened Uploads
  import opened UploadConditions
  import opened Reconciliation
  import opened Stores
  import WS = ReceiverWalletStatuses

  // ------------------------------------------------------------------- finding and creating rows

  predicate IsRow(w: ReceiverWallet, receiverId: Id, walletId: Id) {
    w.receiverId == receiverId && w.walletId == walletId
  }

  // The rows of the receivers for the wallet are there; the earlier ones were invited again.
  ghost predicate RowsMade(before: map<Id, ReceiverWallet>, after: map<Id, ReceiverWallet>, receivers: set<Id>, walletId: Id) {
    && WalletsUnique(after)
    && (forall w :: w in before ==>
          w in after
          && after[w] == if before[w].walletId == walletId && before[w].receiverId in receivers then Reinvited(before[w]) else before[w])
    && (forall w :: w in after && w !in before ==> NewRowOk(before, after[w], receivers, walletId))
  }

  ghost predicate NewRowOk(before: map<Id, ReceiverWallet>, row: ReceiverWallet, receivers: set<Id>, walletId: Id) {
    && row.receiverId in receivers && row == NewWallet(row.receiverId, walletId)
    && NoRow(before, row.receiverId, walletId)
  }

  // Each receiver's row.
  ghost predicate RowsOf(ws: map<Id, ReceiverWallet>, receivers: set<Id>, walletId: Id, rowOf: map<Id, Id>) {
    rowOf.Keys == receivers && forall q :: q in rowOf ==> rowOf[q] in ws && IsRow(ws[rowOf[q]], q, walletId)
  }

  ghost predicate NoRow(ws: map<Id, ReceiverWallet>, receiverId: Id, walletId: Id) {
    forall w :: w in ws ==> !IsRow(ws[w], receiverId, walletId)
  }

  // GetByReceiverIDsAndWalletID, as a map by receiver.
  method RowsByReceiver(s: Store, receivers: set<Id>, walletId: Id) returns (rowOf: map<Id, Id>)
    ensures rowOf.Keys <= receivers
    ensures RowsOf(s.receiverWallets, rowOf.Keys, walletId, rowOf)
    ensures forall q :: q in receivers && q !in rowOf ==> NoRow(s.receiverWallets, q, walletId)
  {
    var rows := set w | w in s.receiverWallets && s.receiverWallets[w].receiverId in receivers && s.receiverWallets[w].walletId == walletId;
    rowOf := map[];
    var rest := rows;
    while rest != {}
      invariant rest <= rows && rowOf.Keys <= receivers
      invariant forall q :: q in rowOf ==> rowOf[q] in s.receiverWallets && IsRow(s.receiverWallets[rowOf[q]], q, walletId)
      invariant forall w :: w in rows && w !in rest ==> s.receiverWallets[w].receiverId in rowOf
      decreases |rest|
    {
      var w :| w in rest;
      rowOf := rowOf[s.receiverWallets[w].receiverId := w];
      rest := rest - {w};
    }
  }

  // One receiver: its row is invited again, or made.
  method ProcessReceiver(s: Store, q: Id, walletId: Id, existing: Option<Id>, ghost before: map<Id, ReceiverWallet>, ghost made: set<Id>)
    returns (r: Id)
    requires RowsMade(before, s.receiverWallets, made, walletId) && q !in made
    requires existing.Some? ==> existing.value in s.receiverWallets && IsRow(s.receiverWallets[existing.value], q, walletId)
    requires existing.None? ==> NoRow(before, q, walletId)
    modifies s`receiverWallets
    ensures r in s.receiverWallets && IsRow(s.receiverWallets[r], q, walletId)
    ensures existing.Some? ==> r == existing.value
    ensures RowsMade(before, s.receiverWallets, made + {q}, walletId)
    ensures forall w :: w in old(s.receiverWallets) ==> w in s.receiverWallets && SameRow(s.receiverWallets[w], old(s.receiverWallets)[w])
  {
    hide RowsMade, Reinvited;
    ghost var mid := s.receiverWallets;
    if existing.None? {
      NoRowYet(before, mid, made, walletId, q);
      var inserted := s.InsertReceiverWallet(q, walletId);
      assert inserted.Ok?;
      RowInserted(before, mid, made, walletId, q, inserted.value);
      return inserted.value;
    }
    KeepsRow(mid[existing.value]);
    // Its only failure, that the row is not READY, is ignored.
    var retried := s.RetryInvitationMessage(existing.value);
    RowReinvited(before, mid, made, walletId, q, existing.value);
    return existing.value;
  }

  predicate SameRow(v: ReceiverWallet, w: ReceiverWallet) {
    v.receiverId == w.receiverId && v.walletId == w.walletId
  }

  /** Every receiver ends up with one row for the wallet; no check of the code's can fail. */
  method ProcessReceiverWallets(s: Store, receivers: set<Id>, walletId: Id) returns (rowOf: map<Id, Id>)
    requires WalletsUnique(s.receiverWallets)
    modifies s`receiverWallets
    ensures RowsMade(old(s.receiverWallets), s.receiverWallets, receivers, walletId)
    ensures RowsOf(s.receiverWallets, receivers, walletId, rowOf)
  {
    hide RowsMade, WalletsUnique, IsRow, SameRow, RowsOf, NoRow;
    ghost var before := s.receiverWallets;
    rowOf := RowsByReceiver(s, receivers, walletId);
    ghost var existing := rowOf.Keys;
    var rest := receivers;
    NothingMade(before, walletId);
    assert receivers - rest == {};
    while rest != {}
      invariant rest <= receivers && existing <= rowOf.Keys <= receivers && receivers - rest <= rowOf.Keys
      invariant RowsOf(s.receiverWallets, rowOf.Keys, walletId, rowOf)
      invariant RowsMade(before, s.receiverWallets, receivers - rest, walletId)
      decreases |rest|
    {
      var q :| q in rest;
      assert receivers - (rest - {q}) == (receivers - rest) + {q};
      rowOf := ProcessNext(s, q, walletId, rowOf, before, receivers - rest);
      rest := rest - {q};
    }
    assert receivers - rest == receivers == rowOf.Keys;
  }

  method ProcessNext(s: Store, q: Id, walletId: Id, rowOf: map<Id, Id>, ghost before: map<Id, ReceiverWallet>, ghost made: set<Id>)
    returns (rowOf': map<Id, Id>)
    requires RowsMade(before, s.receiverWallets, made, walletId) && q !in made
    requires RowsOf(s.receiverWallets, rowOf.Keys, walletId, rowOf)
    requires q !in rowOf ==> NoRow(before, q, walletId)
    modifies s`receiverWallets
    ensures rowOf'.Keys == rowOf.Keys + {q} && RowsOf(s.receiverWallets, rowOf'.Keys, walletId, rowOf')
    ensures RowsMade(before, s.receiverWallets, made + {q}, walletId)
  {
    hide RowsMade, IsRow, SameRow, RowsOf;
    ghost var mid := s.receiverWallets;
    var found := if q in rowOf then Some(rowOf[q]) else None;
    RowFound(mid, rowOf, walletId, q);
    var row := ProcessReceiver(s, q, walletId, found, before, made);
    RowPut(mid, s.receiverWallets, rowOf, walletId, q, row);
    rowOf' := rowOf[q := row];
  }

  lemma RowFound(ws: map<Id, ReceiverWallet>, rowOf: map<Id, Id>, walletId: Id, q: Id)
    requires RowsOf(ws, rowOf.Keys, walletId, rowOf)
    ensures q in rowOf ==> rowOf[q] in ws && IsRow(ws[rowOf[q]], q, walletId)
  {
  }

  lemma RowPut(ws: map<Id, ReceiverWallet>, ws': map<Id, ReceiverWallet>, rowOf: map<Id, Id>, walletId: Id, q: Id, row: Id)
    requires RowsOf(ws, rowOf.Keys, walletId, rowOf) && row in ws' && IsRow(ws'[row], q, walletId)
    requires forall w :: w in ws ==> w in ws' && SameRow(ws'[w], ws[w])
    ensures RowsOf(ws', rowOf.Keys + {q}, walletId, rowOf[q := row])
  {
  }

  lemma KeepsRow(w: ReceiverWallet)
    ensures Reinvited(w).receiverId == w.receiverId && Reinvited(w).walletId == w.walletId
    ensures Reinvited(w).stellarAddress == w.stellarAddress && SkipsRegistration(Reinvited(w)) == SkipsRegistration(w)
  {
  }

  lemma NothingMade(before: map<Id, ReceiverWallet>, walletId: Id)
    requires WalletsUnique(before)
    ensures RowsMade(before, before, {}, walletId)
  {
  }

  lemma NoRowYet(before: map<Id, ReceiverWallet>, mid: map<Id, ReceiverWallet>, made: set<Id>, walletId: Id, q: Id)
    requires RowsMade(before, mid, made, walletId) && q !in made
    requires NoRow(before, q, walletId)
    ensures NoRow(mid, q, walletId)
  {
  }

  lemma RowInserted(before: map<Id, ReceiverWallet>, mid: map<Id, ReceiverWallet>, made: set<Id>, walletId: Id, q: Id, id: Id)
    requires RowsMade(before, mid, made, walletId) && id !in mid
    requires NoRow(before, q, walletId)
    requires NoRow(mid, q, walletId)
    ensures RowsMade(before, mid[id := NewWallet(q, walletId)], made + {q}, walletId)
  {
  }

  lemma RowReinvited(before: map<Id, ReceiverWallet>, mid: map<Id, ReceiverWallet>, made: set<Id>, walletId: Id, q: Id, w: Id)
    requires RowsMade(before, mid, made, walletId) && q !in made && w in mid && IsRow(mid[w], q, walletId)
    ensures RowsMade(before, mid[w := Reinvited(mid[w])], made + {q}, walletId)
  {
  }

  // ------------------------------------------------------------------ registering the addresses

  // Receiver rs[k] is the one of instruction k among the receivers at hand.
  ghost predicate Located(receivers: map<Id, Receiver>, instructions: seq<Instruction>, rs: seq<Id>) {
    && |rs| == |instructions| && Distinct(rs) && receivers.Keys == Elements(rs)
    && forall k :: 0 <= k < |rs| ==>
         && Contact(instructions[k]).Ok? && rs[k] in receivers && Owns(receivers[rs[k]], Contact(instructions[k]).value)
         && forall q :: q in receivers && Owns(receivers[q], Contact(instructions[k]).value) ==> q == rs[k]
  }

  // Row ws[k] is the one of receiver rs[k].
  ghost predicate Rowed(mid: map<Id, ReceiverWallet>, rs: seq<Id>, ws: seq<Id>) {
    && |ws| == |rs| && Distinct(rs)
    && forall k :: 0 <= k < |ws| ==> ws[k] in mid && mid[ws[k]].receiverId == rs[k]
  }

  // What registering row k needs of the rows as they are before the loop.
  ghost predicate Acceptable(lib: Libraries, mid: map<Id, ReceiverWallet>, row: ReceiverWallet, i: Instruction) {
    && (row.stellarAddress == "" || row.stellarAddress == i.walletAddress)
    && (!SkipsRegistration(row) ==>
          && Registrable(lib, i)
          && forall v :: v in mid && mid[v].stellarAddress == i.walletAddress != "" ==> mid[v].receiverId == row.receiverId)
  }

  ghost predicate AddressesDiffer(mid: map<Id, ReceiverWallet>, instructions: seq<Instruction>, ws: seq<Id>, n: nat)
    requires n <= |ws| == |instructions| && forall k :: 0 <= k < n ==> ws[k] in mid
  {
    forall j, k :: 0 <= j < k < n && !SkipsRegistration(mid[ws[j]]) && !SkipsRegistration(mid[ws[k]]) ==>
      instructions[j].walletAddress == "" || instructions[j].walletAddress != instructions[k].walletAddress
  }

  ghost predicate RowsRegistrable(lib: Libraries, mid: map<Id, ReceiverWallet>, instructions: seq<Instruction>, rs: seq<Id>, ws: seq<Id>)
    requires |rs| == |instructions| && Rowed(mid, rs, ws)
  {
    && instructions != []
    && (forall k :: 0 <= k < |ws| ==> Acceptable(lib, mid, mid[ws[k]], instructions[k]))
    && AddressesDiffer(mid, instructions, ws, |ws|)
  }

  function SettledRow(lib: Libraries, w: ReceiverWallet, i: Instruction): ReceiverWallet {
    if SkipsRegistration(w) then w else Registered(lib, w, i)
  }

  // The first n rows are settled, the others as they were.
  ghost predicate Settled(lib: Libraries, mid: map<Id, ReceiverWallet>, now: map<Id, ReceiverWallet>, instructions: seq<Instruction>, ws: seq<Id>, n: nat)
    requires n <= |ws| == |instructions|
  {
    && now.Keys == mid.Keys
    && (forall k :: 0 <= k < n ==> ws[k] in mid && now[ws[k]] == SettledRow(lib, mid[ws[k]], instructions[k]))
    && (forall w :: w in mid && (forall k :: 0 <= k < n ==> ws[k] != w) ==> now[w] == mid[w])
  }

  // The rows of distinct receivers are distinct.
  lemma RowsDistinct(mid: map<Id, ReceiverWallet>, rs: seq<Id>, ws: seq<Id>, j: nat, k: nat)
    requires Rowed(mid, rs, ws) && j < k < |ws|
    ensures ws[j] != ws[k]
  {
  }

  // Whether the row gets its address for the n-th instruction depends on the rows as they were before the loop.
  lemma AddressTaken(lib: Libraries, mid: map<Id, ReceiverWallet>, now: map<Id, ReceiverWallet>, instructions: seq<Instruction>,
                     rs: seq<Id>, ws: seq<Id>, n: nat)
    requires |rs| == |instructions| && n < |ws| && Rowed(mid, rs, ws) && Settled(lib, mid, now, instructions, ws, n)
    requires forall k :: 0 <= k < n ==> Acceptable(lib, mid, mid[ws[k]], instructions[k])
    requires AddressesDiffer(mid, instructions, ws, n)
    requires !SkipsRegistration(mid[ws[n]])
    ensures (forall v :: v in now && now[v].stellarAddress == instructions[n].walletAddress != "" ==> now[v].receiverId == rs[n])
            <==> (&& (forall v :: v in mid && mid[v].stellarAddress == instructions[n].walletAddress != "" ==> mid[v].receiverId == rs[n])
                  && AddressesDiffer(mid, instructions, ws, n + 1))
  {
    var address := instructions[n].walletAddress;
    if address != "" {
      forall v | v in mid
        ensures now[v].receiverId == mid[v].receiverId
        ensures now[v].stellarAddress == address <==>
                  mid[v].stellarAddress == address
                  || exists k :: 0 <= k < n && ws[k] == v && !SkipsRegistration(mid[v]) && instructions[k].walletAddress == address
      {
        if k :| 0 <= k < n && ws[k] == v {
          assert Acceptable(lib, mid, mid[ws[k]], instructions[k]);
          OneSettled(mid, rs, ws, k, v);
        }
      }
      forall j | 0 <= j < n && !SkipsRegistration(mid[ws[j]]) && instructions[j].walletAddress == address
        ensures now[ws[j]].stellarAddress == address && now[ws[j]].receiverId != rs[n]
      {
      }
    }
  }

  lemma OneSettled(mid: map<Id, ReceiverWallet>, rs: seq<Id>, ws: seq<Id>, k: nat, v: Id)
    requires Rowed(mid, rs, ws) && k < |ws| && ws[k] == v
    ensures forall j :: 0 <= j < |ws| && ws[j] == v ==> j == k
  {
  }

  // One instruction: the row as it was read before the loop, which is the row as it is.
  method RegisterSuppliedWallet(s: Store, w: Id, row: ReceiverWallet, i: Instruction) returns (o: Outcome<UploadError>)
    requires w in s.receiverWallets && s.receiverWallets[w] == row
    modifies s`receiverWallets
    ensures o.Done? <==> Acceptable(s.lib, old(s.receiverWallets), row, i)
    ensures o.Done? ==> s.receiverWallets == old(s.receiverWallets)[w := SettledRow(s.lib, row, i)]
    ensures old(AddressesUnique(s.receiverWallets)) ==> AddressesUnique(s.receiverWallets)
    ensures o == Failed(WalletAddressMismatch) <==> row.stellarAddress != "" && row.stellarAddress != i.walletAddress
    ensures o == Failed(StoreFailed(DuplicateWalletAddress)) ==>
              exists v :: v in old(s.receiverWallets) && old(s.receiverWallets)[v].stellarAddress == i.walletAddress != ""
                          && old(s.receiverWallets)[v].receiverId != row.receiverId
  {
    ghost var before := s.receiverWallets;
    if row.stellarAddress != "" && row.stellarAddress != i.walletAddress {
      return Failed(WalletAddressMismatch);
    }
    if row.status in [WS.REGISTERED, WS.FLAGGED] {
      assert s.receiverWallets == before[w := row];
      return Done;
    }
    if i.walletAddressMemo != "" && s.lib.parseMemo(i.walletAddressMemo).None? {
      return Failed(MemoUnparsable);
    }
    assert Registered(s.lib, row, i).stellarAddress == i.walletAddress;
    var updated := s.RegisterWallet(w, i);
    if updated.Failed? {
      return Failed(StoreFailed(updated.error));
    }
    return Done;
  }

  // The reading of the rows: GetByIDs refuses an empty list.
  method RowsById(s: Store, rowOf: map<Id, Id>) returns (r: Result<map<Id, ReceiverWallet>, UploadError>)
    requires forall q :: q in rowOf ==> rowOf[q] in s.receiverWallets
    ensures r.Ok? <==> rowOf != map[]
    ensures r.Ok? ==> forall q :: q in rowOf ==> rowOf[q] in r.value && r.value[rowOf[q]] == s.receiverWallets[rowOf[q]]
  {
    if |rowOf| == 0 {
      return Err(NoReceiverWallets);
    }
    var ids := set q | q in rowOf :: rowOf[q];
    return Ok(map w | w in ids :: s.receiverWallets[w]);
  }

  function RowSeq(rowOf: map<Id, Id>, rs: seq<Id>): (ws: seq<Id>)
    requires forall k :: 0 <= k < |rs| ==> rs[k] in rowOf
    ensures |ws| == |rs| && forall k :: 0 <= k < |rs| ==> ws[k] == rowOf[rs[k]]
  {
    seq(|rs|, k requires 0 <= k < |rs| => rowOf[rs[k]])
  }

  lemma RowSeqRowed(ws: map<Id, ReceiverWallet>, receivers: set<Id>, walletId: Id, rowOf: map<Id, Id>, rs: seq<Id>)
    requires RowsOf(ws, receivers, walletId, rowOf) && receivers == Elements(rs) && Distinct(rs)
    ensures forall k :: 0 <= k < |rs| ==> rs[k] in rowOf
    ensures Rowed(ws, rs, RowSeq(rowOf, rs))
  {
  }

  // The first n instructions are through.
  ghost predicate Progress(lib: Libraries, mid: map<Id, ReceiverWallet>, now: map<Id, ReceiverWallet>, instructions: seq<Instruction>,
                           rs: seq<Id>, ws: seq<Id>, n: nat)
    requires n <= |ws| == |rs| == |instructions| && Rowed(mid, rs, ws)
  {
    && Settled(lib, mid, now, instructions, ws, n)
    && (forall j :: 0 <= j < n ==> Acceptable(lib, mid, mid[ws[j]], instructions[j]))
    && AddressesDiffer(mid, instructions, ws, n)
    && (AddressesUnique(mid) ==> AddressesUnique(now))
  }

  method RegisterNext(s: Store, instruction: Instruction, receivers: map<Id, Receiver>, rowOf: map<Id, Id>, rows: map<Id, ReceiverWallet>,
                      ghost mid: map<Id, ReceiverWallet>, ghost instructions: seq<Instruction>, ghost rs: seq<Id>, ghost ws: seq<Id>, ghost k: nat)
    returns (o: Outcome<UploadError>)
    requires Located(receivers, instructions, rs) && rowOf.Keys == receivers.Keys && k < |ws| == |rs| && instruction == instructions[k]
    requires Rowed(mid, rs, ws) && ws[k] == rowOf[rs[k]] && ws[k] in rows && rows[ws[k]] == mid[ws[k]]
    requires Progress(s.lib, mid, s.receiverWallets, instructions, rs, ws, k)
    modifies s`receiverWallets
    ensures o.Done? ==> Progress(s.lib, mid, s.receiverWallets, instructions, rs, ws, k + 1)
    ensures o.Failed? ==> !RowsRegistrable(s.lib, mid, instructions, rs, ws)
    ensures o.Failed? && AddressesUnique(mid) ==> AddressesUnique(s.receiverWallets)
  {
    hide AddressesUnique, Acceptable, AddressesDiffer, Settled, SettledRow, RowsRegistrable, Contact, Owns, Distinct, Elements;
    var receiver := FindReceiverByInstruction(receivers, instruction);
    LocatedFinds(receivers, instructions, rs, k, receiver);
    var w := rowOf[receiver.value];
    ghost var now := s.receiverWallets;
    StillUnsettled(s.lib, mid, now, instructions, rs, ws, k);
    AcceptedNow(s.lib, mid, now, instructions, rs, ws, k);
    o := RegisterSuppliedWallet(s, w, rows[w], instruction);
    if o.Failed? {
      NotRegistrable(s.lib, mid, instructions, rs, ws, k);
    } else {
      SettledNext(s.lib, mid, now, instructions, rs, ws, k);
    }
  }

  /**
   Registers the supplied addresses.  It succeeds exactly when every row accepts its address, as the
   rows were before the loop, and no two rows to be registered get the same one.
   */
  method RegisterSuppliedWallets(s: Store, instructions: seq<Instruction>, receivers: map<Id, Receiver>, rowOf: map<Id, Id>,
                                 ghost rs: seq<Id>, ghost ws: seq<Id>)
    returns (o: Outcome<UploadError>)
    requires Located(receivers, instructions, rs) && rowOf.Keys == receivers.Keys && |ws| == |rs|
    requires Rowed(s.receiverWallets, rs, ws) && forall k :: 0 <= k < |rs| ==> rs[k] in rowOf && ws[k] == rowOf[rs[k]]
    modifies s`receiverWallets
    ensures o.Done? <==> old(RowsRegistrable(s.lib, s.receiverWallets, instructions, rs, ws))
    ensures o.Done? ==> Settled(s.lib, old(s.receiverWallets), s.receiverWallets, instructions, ws, |ws|)
    ensures old(AddressesUnique(s.receiverWallets)) ==> AddressesUnique(s.receiverWallets)
  {
    hide Rowed, AddressesUnique, Acceptable, AddressesDiffer, Settled, SettledRow, RowsRegistrable;
    ghost var mid := s.receiverWallets;
    EveryRowFound(mid, receivers, instructions, rowOf, rs, ws);
    var rows := RowsById(s, rowOf);
    if rows.Err? {
      NoRows(s.lib, mid, instructions, rs, ws);
      return Failed(rows.error);
    }
    assert |rs| == |instructions|;
    hide Located;
    NoneSettled(s.lib, mid, instructions, ws);
    for k := 0 to |instructions|
      invariant Progress(s.lib, mid, s.receiverWallets, instructions, rs, ws, k)
    {
      hide Progress;
      o := RegisterNext(s, instructions[k], receivers, rowOf, rows.value, mid, instructions, rs, ws, k);
      if o.Failed? {
        return;
      }
    }
    AllRegistrable(s.lib, mid, instructions, rs, ws);
    return Done;
  }

  lemma LocatedFinds(receivers: map<Id, Receiver>, instructions: seq<Instruction>, rs: seq<Id>, k: nat, found: Option<Id>)
    requires Located(receivers, instructions, rs) && k < |instructions|
    requires found.Some? ==> found.value in receivers && Owns(receivers[found.value], Contact(instructions[k]).value)
    requires found.None? ==> Unowned(receivers, Contact(instructions[k]).value)
    ensures found == Some(rs[k])
  {
  }

  lemma NoRows(lib: Libraries, mid: map<Id, ReceiverWallet>, instructions: seq<Instruction>, rs: seq<Id>, ws: seq<Id>)
    requires instructions == [] && rs == [] && Rowed(mid, rs, ws)
    ensures !RowsRegistrable(lib, mid, instructions, rs, ws)
  {
  }

  lemma NoneSettled(lib: Libraries, mid: map<Id, ReceiverWallet>, instructions: seq<Instruction>, ws: seq<Id>)
    requires |ws| == |instructions|
    ensures Settled(lib, mid, mid, instructions, ws, 0) && AddressesDiffer(mid, instructions, ws, 0)
  {
  }

  lemma NotRegistrable(lib: Libraries, mid: map<Id, ReceiverWallet>, instructions: seq<Instruction>, rs: seq<Id>, ws: seq<Id>, k: nat)
    requires |rs| == |instructions| && k < |ws| && Rowed(mid, rs, ws)
    requires !Acceptable(lib, mid, mid[ws[k]], instructions[k]) || !AddressesDiffer(mid, instructions, ws, k + 1)
    ensures !RowsRegistrable(lib, mid, instructions, rs, ws)
  {
    hide Acceptable;
  }

  lemma AllRegistrable(lib: Libraries, mid: map<Id, ReceiverWallet>, instructions: seq<Instruction>, rs: seq<Id>, ws: seq<Id>)
    requires |rs| == |instructions| && instructions != [] && Rowed(mid, rs, ws)
    requires forall k :: 0 <= k < |ws| ==> Acceptable(lib, mid, mid[ws[k]], instructions[k])
    requires AddressesDiffer(mid, instructions, ws, |ws|)
    ensures RowsRegistrable(lib, mid, instructions, rs, ws)
  {
    hide Acceptable, AddressesDiffer;
  }

  lemma EveryRowFound(mid: map<Id, ReceiverWallet>, receivers: map<Id, Receiver>, instructions: seq<Instruction>, rowOf: map<Id, Id>,
                      rs: seq<Id>, ws: seq<Id>)
    requires Located(receivers, instructions, rs) && rowOf.Keys == receivers.Keys && |ws| == |rs|
    requires Rowed(mid, rs, ws) && forall k :: 0 <= k < |rs| ==> rs[k] in rowOf && ws[k] == rowOf[rs[k]]
    ensures forall q :: q in rowOf ==> rowOf[q] in mid
    ensures rowOf == map[] <==> instructions == []
  {
    forall q | q in rowOf
      ensures rowOf[q] in mid
    {
      var k :| 0 <= k < |rs| && rs[k] == q;
    }
    if instructions != [] {
      assert rs[0] in rowOf;
    }
  }

  lemma StillUnsettled(lib: Libraries, mid: map<Id, ReceiverWallet>, now: map<Id, ReceiverWallet>, instructions: seq<Instruction>,
                       rs: seq<Id>, ws: seq<Id>, k: nat)
    requires |rs| == |instructions| && k < |ws| && Rowed(mid, rs, ws) && Settled(lib, mid, now, instructions, ws, k)
    ensures ws[k] in now && now[ws[k]] == mid[ws[k]]
  {
    forall j | 0 <= j < k
      ensures ws[j] != ws[k]
    {
      RowsDistinct(mid, rs, ws, j, k);
    }
  }

  lemma SettledNext(lib: Libraries, mid: map<Id, ReceiverWallet>, now: map<Id, ReceiverWallet>, instructions: seq<Instruction>,
                    rs: seq<Id>, ws: seq<Id>, k: nat)
    requires |rs| == |instructions| && k < |ws| && Rowed(mid, rs, ws) && Settled(lib, mid, now, instructions, ws, k)
    ensures Settled(lib, mid, now[ws[k] := SettledRow(lib, mid[ws[k]], instructions[k])], instructions, ws, k + 1)
  {
    hide SettledRow;
    forall j | 0 <= j < k
      ensures ws[j] != ws[k]
    {
      RowsDistinct(mid, rs, ws, j, k);
    }
  }

  lemma AcceptedNow(lib: Libraries, mid: map<Id, ReceiverWallet>, now: map<Id, ReceiverWallet>, instructions: seq<Instruction>,
                    rs: seq<Id>, ws: seq<Id>, k: nat)
    requires |rs| == |instructions| && k < |ws| && Rowed(mid, rs, ws) && Settled(lib, mid, now, instructions, ws, k)
    requires forall j :: 0 <= j < k ==> Acceptable(lib, mid, mid[ws[j]], instructions[j])
    requires AddressesDiffer(mid, instructions, ws, k)
    ensures Acceptable(lib, now, mid[ws[k]], instructions[k])
            <==> Acceptable(lib, mid, mid[ws[k]], instructions[k]) && AddressesDiffer(mid, instructions, ws, k + 1)
  {
    if !SkipsRegistration(mid[ws[k]]) {
      AddressTaken(lib, mid, now, instructions, rs, ws, k);
    }
  }
}

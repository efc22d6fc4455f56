# Stellar Disbursement Platform: a verified model of its core

This project models, in Dafny, the parts of the Stellar Disbursement Platform backend on which money depends,
and proves what they promise for every input, every run and every interleaving.

- **Disbursement lifecycle.** The tables of disbursements, payments, receivers, receiver wallets and verifications
  (`Tables`), the model methods that write them as methods of a mutable store (`Store`), the upload pipeline as it
  runs over that store (`Reconciliation`, `ReceiverWallets`, `Instructions`, `ProcessAll`), transactions
  (`Transactions`) and the operations that staff can call (`DisbursementManagement`). `Lifecycle` gives every committed
  operation as a step on the tables; `StepMeanings` says of each, field by field, when it is possible and what it
  leaves; `Runs` proves what holds over all runs of such steps. `UploadConditions` says
  exactly when an upload succeeds; `InstructionValidation` what the upload handler accepts, and
  `PostMeanings` what a post leaves, said of the lines as they stand in the file; `Reuploads` what an upload
  pays (`Totals` sums payments) and what a second one does. `Funding` is the balance check before a start,
  `PaymentUpdates` what the updates of payments that check little or nothing do to the histories.
- **Claiming batches.** `BatchClaim` is a transition system of workers that lock rows, skip locked ones, claim, mark,
  commit or roll back, among all other lifecycle operations. Its committed states are those of serial runs.
- **Distribution account rotation.** `Ledger` interprets the four Stellar operations that the rotation uses, with
  base reserves in stroops; `Rotation` the transaction that is built from a balance map; `RotationProtocol` the steps
  around it, in which every call may fail before or after it took effect, the process may stop anywhere, a transaction
  that was sent may be applied late or never, and the ledger moves in between; `RotationService` the service as it takes
  those steps, `RotationFunds` when the tenant points to the account that holds the funds, and `RotationExamples` two runs
  that go wrong.
- **Smaller cores.** The SQL query builder and the five queries built with it (`QueryBuilder`, `Queries`, letter by letter in `QueryTexts`), the SET
  clause builder (`SetClauses`), the Circle transfer requests (`CircleTransfers`), the URL shortener (`ShortURLs`), and
  the printer and reader of the channel priority list (`ChannelPriority`).

`dafny verify dfyconfig.toml` checks everything.

## How it is modelled

Methods follow the Go code branch by branch; loops over Go maps pick any remaining key. One SQL statement is one
update of a whole map; what the statement does is a function in `Tables` or `Uploads`, and the properties are proved
about those functions. Amounts are integers in stroops. Generated identifiers are any that are not in use.

What the model takes for granted, kept by the database schema or the libraries:

- the unique indexes on receivers ignore case, phone numbers contain no `@` and emails do, so no text is both
  (`Uploads.ReceiversOk`, `UploadConditions.AllWellKinded`);
- one wallet row for each receiver and wallet, and references only to existing rows (`UploadConditions.SchemaOk`);
- a stored hash accepts the value it was made from (`Uploads.Sound`); whether a value can be hashed does not depend on the salt;
- sqlx numbers placeholders from left to right, and the driver sends the values in order.

What it takes for granted without anybody enforcing it:

- runs consist of the steps of `Lifecycle`, and those move payments along allowed transitions. `UpdateStatuses` and
  `Update` check a snapshot, not the row, and `UpdateStatus` checks nothing. For the claiming workers the row locks make up
  for it (`BatchClaim.ClaimedStaysEligible`); the Circle dispatchers may leave the transitions (see the findings);
- whether approval is required does not change during a run, although it is a setting of the organization;
- FLAGGED wallet rows are there from the start, since no code flags or unflags a row;
- transactions other than the claiming workers are serial, and respect row locks;
- one rotation runs at a time, and nothing but its transactions removes an account of the tenant from the ledger.

## Findings

- **Exactly when an upload succeeds** (`UploadConditions.Uploadable`, proved both ways in `Processing.ProcessAll`). Two
  consequences are easy to miss. Somebody who owns an instruction's contact only as the other kind of contact (an email
  in a disbursement by phone number) makes the upload fail (`UploadConditions.OwnedAsOtherKind`). And a lookup is case
  sensitive while the unique indexes are not, so the same email in other letters fails as a duplicate rather than being
  found (`UploadConditions.KnownInOtherLetters`).
- **A receiver created through the upload handler has no recipient name and no currency type**, whatever the file says:
  sanitising does not copy them (`DisbursementManagement.DisbursementManagementService.PostsDropNames`).
- **Uploading twice is idempotent where it succeeds, but `ProcessAll` called directly does not always succeed twice.** The
  second upload succeeds exactly when every instruction's contact is of the disbursement's kind
  (`Reuploads.ReuploadSucceedsIff`): the first one accepts an instruction of the other kind and creates a receiver without
  a typed contact, which the second one refuses (`Reuploads.MixedKindsExample`). The upload handler refuses such
  instructions, so what was posted through it can always be posted again
  (`DisbursementManagement.DisbursementManagementService.RepostAlwaysPossible`).
- **With approval required, a paused disbursement can never be resumed** (`Runs.ResumableIffNoApproval`,
  `Runs.PausedForever`), against the state diagram in the repository's README: starting asks for APPROVED, and nothing
  leads from PAUSED to it.
- **Whoever rejects a disbursement can never approve it, nor call `StartDisbursement` on it**, while approval is required
  (`Runs.RejectingLocksOut`): the rejection is itself a DRAFT or READY entry under their name. `SubmitDisbursement` has no
  such check and stays open to them (`Runs.RejecterMaySubmit`).
- **The two completions differ exactly on canceled payments** (`Runs.CompletionsAgree`): of a started disbursement whose
  payments are all SUCCESS or CANCELED, one of them CANCELED, `CompleteIfNecessary` completes it and `CompleteDisbursements` never does.
- **FAILED to READY** is what a retry does and is not in the transition list; the legal relation is the list and that pair.
- **A Circle dispatch keeps a payment on allowed transitions exactly if Circle answers "pending" or "failed"**
  (`PaymentUpdates.DispatchIsAStepIff`). The dispatchers pass on whatever it answers, and READY to SUCCESS is not in the
  list (`PaymentUpdates.CompleteAnswerExample`).
- **An address can change under payments in progress** in one way: a flagged receiver registers again with another one
  (`Runs.AddressStep` and `Runs.AddressStableWhileInProgress`, both exact, with `Runs.FlaggedReceiverReplacesAddress`).
- **A start can exceed the balance by almost a cent.** The check compares with totals that the statistics round to two
  decimals (`Funding.StartIsCoveredToACent`; `Funding.RoundingExample` has consistent tables in which the bound is reached).
  The check is sound for a disbursement exactly if the rounding, with its failed and canceled payments, which are counted
  too, is not below zero (`Funding.SoundIff`), so always for whole cents (`Funding.WholeCentsAreExact`).
- **The rotation deletes the old key without looking at the ledger.** The account that holds the funds never loses its key
  (`RotationProtocol.NeverStranded`, `RotationProtocol.KeyGoesLast`). But a deletion strands an account exactly if the old
  address, which was merged away, is on the ledger again, and anybody can create it later
  (`RotationProtocol.StrandedExactly`, `RotationExamples.DeletionCanStrand`).
- **The tenant may point to an account without the funds, and for good.** It points to the account that holds them exactly if
  every transaction that moved them away from under it was followed by its move to the new account
  (`RotationFunds.TogetherIffFollowed`): they part when such a transaction is applied, and meet when the tenant is repointed
  to them (`RotationFunds.Parting`, `RotationFunds.Meeting`). Once parted they can meet again exactly while the rotation that
  moved the funds is under way (`RotationFunds.RejoinIff`); after any error or crash they never do
  (`RotationFunds.PartedForGood`, `RotationExamples.FundsCanBeAbandoned`). What each way of failing leaves is in the contract of
  `RotationService.DistributionAccountService.RotateDistributionAccount`.
- **A balance map that went stale before submission** makes the rotation fail as a whole, with nothing moved
  (`Rotation.RotationTransaction`).
- **The claiming query locks every joined row**, the asset and the wallet among them, so two batches in flight never
  share a disbursement, an asset or a wallet (`BatchClaim.BatchesShareNothing`).
- **A second call of `AddPagination`** is the one thing that breaks the alignment of placeholders and values
  (`QueryBuilders.AlignedIffOnePage`).
- **The channel list reads back** exactly when it is not empty, its names are free of commas and surrounding space, the first
  does not start and the last does not end with a brace (`ChannelPriority.RoundTrip`).

## Model

| member | source | states |
|---|---|---|
| StateMachines.StateMachine.constructor | internal/data/statemachine.go:17-31 | the nested map built by the loop allows exactly the transitions of the list |
| StateMachines.StateMachine.CanTransitionTo | internal/data/statemachine.go:33-38 | true exactly where the list has the transition from the current state |
| StateMachines.StateMachine.TransitionTo | internal/data/statemachine.go:40-46 | moves exactly along listed transitions, and otherwise leaves the state alone |
| StateMachines.SourcesExact | internal/data/payments_state_machine.go:81-90 | the source states are the exact inverse image of a target, for any transition list |
| StateMachines.SourceStatuses | internal/data/dibursements_state_machine.go:32-41 | the appending loop computes that inverse image in order |
| PaymentStatuses.AllowsIsTheList | internal/data/payments_state_machine.go:44-58 | the case-by-case relation is the payment transition list |
| DisbursementStatuses.AllowsIsTheList | internal/data/dibursements_state_machine.go:44-59 | the case-by-case relation is the disbursement transition list |
| ReceiverWalletStatuses.AllowsIsTheList | internal/data/receiver_wallets_state_machine.go:23-34 | the case-by-case relation is the receiver wallet transition list |
| PaymentStatuses.SourceStatusesOf | internal/data/payments_state_machine.go:81-90 | exactly the payment statuses that may move to the target |
| DisbursementStatuses.SourceStatusesOf | internal/data/dibursements_state_machine.go:32-41 | exactly the disbursement statuses that may move to the target |
| PaymentStatuses.TransitionTo | internal/data/payments_state_machine.go:39-41 | succeeds exactly on an allowed payment transition |
| DisbursementStatuses.TransitionTo | internal/data/dibursements_state_machine.go:22-24 | succeeds exactly on an allowed disbursement transition |
| ReceiverWalletStatuses.TransitionTo | internal/data/receiver_wallets_state_machine.go:18-20 | succeeds exactly on an allowed receiver wallet transition |
| Stores.Store.UpdateStatuses | internal/data/payments.go:503-536 | all or nothing: moves every listed row, whatever its status, and appends to its history exactly when every snapshot may move, and counts the rows |
| Stores.Store.UpdatePayment | internal/data/payments.go:539-573 | moves the row, whatever its status, with its transaction id exactly when the snapshot may move and an id is given, or changes nothing |
| Stores.Store.UpdateStatus | internal/data/payments.go:731-780 | sets any status on any existing row, keeping the transaction id where none is given |
| PaymentUpdates.CheckedUpdateIsAStep | internal/data/payments.go:503-536 | checking snapshots that agree with their rows makes the update a step along allowed transitions |
| PaymentUpdates.UpdateKeepsHistoriesIff | internal/data/payments.go:503-536 | an update of several payments keeps all histories legal if and only if every row, not every snapshot, may move |
| PaymentUpdates.StaleSnapshotExample | internal/data/payments.go:503-536 | a stale snapshot passes the check and breaks the history |
| PaymentUpdates.UpdatePaymentStatusForCircle | internal/services/paymentdispatchers/circle_payment_transfer_dispatcher.go:143-157 | the payment becomes PENDING, SUCCESS or FAILED as Circle answers pending, complete or failed, with the hash where one is given, and no other payment changes |
| PaymentUpdates.DispatchIsAStepIff | internal/services/paymentdispatchers/circle_payment_payout_dispatcher.go:177-190 | dispatching a READY payment is a step along allowed transitions if and only if Circle answers pending or failed |
| PaymentUpdates.DispatchKeepsHistoryIff | internal/circle/transfer.go:33-44 | a READY payment keeps a legal history if and only if Circle answers pending or failed |
| PaymentUpdates.CompleteAnswerExample | internal/circle/transfer.go:33-44 | consistent tables that an answer of complete makes inconsistent |
| Stores.Store.UpdatePaymentsByDisbursementID | internal/data/payments.go:409-432 | moves exactly the disbursement's payments that the list lets move to the target |
| Stores.Store.RetryFailedPayments | internal/data/payments.go:575-625 | exactly the FAILED ones go to READY without transaction id; any other identifier is reported as a mismatch |
| Stores.Store.CancelPaymentsWithinPeriod | internal/data/payments.go:697-728 | exactly the stale READY payments are canceled |
| Stores.Store.DeleteAllDraftForDisbursement | internal/data/payments.go:348-368 | exactly the disbursement's drafts go |
| Stores.Store.CreateDirectPayment | internal/data/payments.go:782-820 | a new READY payment with no disbursement, exactly for a valid amount |
| Stores.Store.InsertAllPayments | internal/data/payments.go:371-406 | one new draft for each insert in order, or nothing at all if one amount is invalid |
| Stores.Store.UpdateDisbursementStatus | internal/data/disbursements.go:299-333 | moves the row and records the user exactly when the list allows it, and reports otherwise |
| Stores.Store.UpdateDisbursementFile | internal/data/disbursements.go:380-408 | sets name and content exactly when both are given and the row exists |
| Stores.Store.CompleteDisbursements | internal/data/disbursements.go:444-480 | completes exactly the started ones without a payment that is not SUCCESS |
| Stores.Store.CompleteIfNecessary | internal/data/disbursements.go:505-526 | completes and returns exactly the started ones whose payments are all final |
| Stores.Store.DeleteDisbursement | internal/data/disbursements.go:483-502 | removes the row exactly if it has not started and no payment refers to it |
| Stores.Store.UpdateWalletsByDisbursementID | internal/data/receivers_wallet.go:475-503 | moves exactly the rows in the given status that the disbursement pays to |
| Stores.Store.UpdateStatusToReady | internal/data/receivers_wallet.go:738-787 | unregisters exactly a registered, not user-managed wallet without payments in progress |
| Stores.Store.RetryInvitationMessage | internal/data/receivers_wallet.go:552-572 | clears the mark of the invitation on a READY row and on no other |
| Stores.Store.InsertReceiverWallet | internal/data/receivers_wallet.go:435-448 | a new DRAFT row exactly if the receiver has none for the wallet |
| Stores.Store.RegisterWallet | internal/data/receivers_wallet.go:633-727 | registers the address exactly when address, memo and the uniqueness of addresses admit it, and keeps addresses unique |
| Stores.Store.InsertReceiver | internal/data/receivers.go:315-348 | a new receiver exactly if it has an external id, a contact, and no clash in either index |
| Stores.Store.HashVerificationValue | internal/data/receiver_verification.go:309-315 | a hash that the comparison accepts, exactly if the value can be hashed |
| Stores.Store.InsertVerification | internal/data/receiver_verification.go:127-151 | a new unconfirmed row accepting the value, exactly for a valid value and a new key |
| Stores.Store.UpdateVerificationValue | internal/data/receiver_verification.go:154-178 | the row accepts the new value and stays as confirmed as it was |
| Reconciliation.ByTypedContact | internal/data/disbursement_instructions.go:234-242 | maps every typed contact to its receiver; fails exactly if somebody has none |
| Reconciliation.CountDecides | internal/data/disbursement_instructions.go:251-266 | the count check alone is enough: it holds exactly if the instructions are reconcilable, and then each has a receiver of its own |
| Reconciliation.CreateMissing | internal/data/disbursement_instructions.go:244-249 | every instruction gets a found or a new receiver; a refused insert means the instructions were not reconcilable |
| Reconciliation.Reconcile | internal/data/disbursement_instructions.go:218-301 | succeeds exactly on reconcilable instructions; then contacts are distinct, instructions and receivers one to one, and nothing else changed |
| Reconciliation.FindReceiverByInstruction | internal/data/disbursement_instructions.go:426-438 | an owner of the contact, or none exactly if there is none |
| ReceiverWallets.ProcessReceiverWallets | internal/data/disbursement_instructions.go:360-395 | one row for each receiver, whatever the order of the map; existing rows only invited again |
| ReceiverWallets.AddressTaken | internal/data/disbursement_instructions.go:162-200 | whether the trigger refuses the n-th address can be read off the rows as they were before the loop |
| ReceiverWallets.RegisterSuppliedWallet | internal/data/disbursement_instructions.go:172-200 | skips, registers or refuses one row, exactly by its address and status |
| ReceiverWallets.RegisterSuppliedWallets | internal/data/disbursement_instructions.go:155-203 | succeeds exactly if every row accepts its address and no two new ones share one; then every row is settled and no other changed |
| Instructions.ProcessReceiverVerification | internal/data/disbursement_instructions.go:334-354 | inserts, keeps, updates or refuses one verification, exactly by its value and confirmation |
| Instructions.ProcessReceiverVerifications | internal/data/disbursement_instructions.go:303-358 | succeeds exactly if every receiver is matched by its typed contact and has an acceptable value; confirmed rows stay untouched |
| Instructions.CreatePayments | internal/data/disbursement_instructions.go:397-424 | one payment for each instruction with its amount, receiver and row, exactly if all amounts are valid |
| Processing.AddressesOkIffRegistrable | internal/data/disbursement_instructions.go:155-203 | the registration step succeeds exactly by a condition on the tables before the upload |
| Processing.VerificationsOkIffVerifiable | internal/data/disbursement_instructions.go:303-358 | the verification step succeeds exactly by a condition on the tables before the upload |
| Processing.WalletsAreReady | internal/data/disbursement_instructions.go:110-122 | wallet and registration steps together: each receiver's row existing or new, settled, and nothing else changed |
| Processing.FinishUpload | internal/data/disbursement_instructions.go:141-149 | file and READY entry, exactly when both updates are accepted |
| Processing.ProcessAll | internal/data/disbursement_instructions.go:98-152 | on a healthy database succeeds if and only if the upload was possible before it began; success means exactly the tables of `UploadedAs` and keeps the schema; where only the file or the status is refused, everything else has been written by then |
| UploadConditions.OwnedAsOtherKind | internal/data/disbursement_instructions.go:234-242 | no upload is possible while an instruction's contact is known only as the other kind |
| UploadConditions.KnownInOtherLetters | internal/data/disbursement_instructions.go:244-301 | no upload is possible while an instruction's email is known in other letters only |
| Reuploads.UploadPaysWhatIsAsked | internal/data/disbursement_instructions.go:131-139 | afterwards the disbursement's payments are exactly one for each instruction, to different receivers at their own rows, and the amounts sum to what is asked |
| Reuploads.ReuploadSucceedsIff | internal/data/disbursement_instructions.go:234-242 | the same upload succeeds again exactly if every contact is of the disbursement's kind |
| Reuploads.TypedReuploadSucceeds | internal/data/disbursement_instructions.go:234-242 | where all contacts are of the disbursement's kind, the same upload always succeeds again |
| Reuploads.MixedKindsExample | internal/data/disbursement_instructions.go:234-242 | one instruction by phone number into a disbursement by email: the tables that its upload leaves, on which it is not possible again |
| Reuploads.ReuploadIdempotent | internal/data/disbursement_instructions.go:98-152 | a second upload creates no receiver, row or verification, and the same payments up to identifiers |
| InstructionValidation.ParseInstructions | internal/serve/httphandler/disbursement_handler.go:781-809 | exactly if every sanitised line meets the rules of the kind of disbursement, there is one, and no contact is repeated: the sanitised lines |
| InstructionValidation.ValidateInstruction | internal/serve/validators/disbursement_instructions_validator.go:33-100 | one line passes exactly with identifiers that fit, a valid amount, a contact of the kind in its format, and a valid address and memo or verification value |
| InstructionValidation.ValidateCSVHeaders | internal/serve/httphandler/disbursement_handler.go:811-900 | the required and disallowed columns come to: the contact's and no other contact's, and either addresses or verification values |
| InstructionValidation.CheckForDuplicateContacts | internal/serve/validators/disbursement_instructions_validator.go:129-146 | the loop with its map of seen contacts finds a repeated or missing contact exactly if there is one |
| InstructionValidation.AcceptedTyped | internal/serve/httphandler/disbursement_handler.go:781-809 | what is accepted has, once sanitised, only contacts of the disbursement's kind, and no text that is both kinds |
| Transactions.Transaction.Rollback | db/db.go:168-180 | the tables are as they were when the transaction began |
| Transactions.Transaction.Finish | db/db.go:96-129 | any error of the function or of the commit restores every table and is the result; success keeps what was written |
| DisbursementManagement.HasCreated | internal/services/disbursement_management_service.go:240-245 | true exactly if the user put a DRAFT or READY entry into the history |
| DisbursementManagement.DisbursementManagementService.StartDisbursement | internal/services/disbursement_management_service.go:205-273 | starts exactly when the wallet is enabled, the balance check passes and the user may start it, with the rows as `StartedAs` lists them, or changes nothing and says why |
| DisbursementManagement.DisbursementManagementService.SubmitDisbursement | internal/services/disbursement_management_service.go:479-531 | starts exactly from APPROVED with the wallet enabled and the balance check passed, with the rows as `StartedAs` lists them, or changes nothing and says why |
| Funding.ValidateBalanceForDisbursement | internal/services/disbursement_management_service.go:275-360 | passes exactly when the balance covers the disbursement's rounded total less what was sent and every other payment in progress in an equal asset, in whatever order they come |
| Funding.CoveredMeans | internal/services/disbursement_management_service.go:275-360 | the check in full: statuses, equality of assets and rounding written out |
| Funding.CoveredIff | internal/services/disbursement_management_service.go:275-360 | exactly when the check passes, in terms of what is owed after the start: that, the failed and canceled payments, and the rounding |
| Funding.StartIsCoveredToACent | internal/data/disbursements.go:196-210 | a start that passes owes less than the balance and a cent |
| Funding.SoundIff | internal/services/disbursement_management_service.go:275-360 | no balance lets through a start that it does not cover, if and only if the failed and canceled payments make up for the rounding |
| Funding.WholeCentsAreExact | internal/data/disbursements.go:196-210 | with amounts in whole cents the check passes exactly if the balance covers what is owed after the start and the failed and canceled payments |
| Funding.RoundingExample | internal/data/disbursements.go:196-210 | consistent tables in which the bound is reached: with nothing available, a paused disbursement may be started again and then owes 99,999 stroops |
| DisbursementManagement.DisbursementManagementService.PauseDisbursement | internal/services/disbursement_management_service.go:363-394 | takes the pause step exactly when allowed, or changes nothing and says why |
| DisbursementManagement.DisbursementManagementService.ApproveDisbursement | internal/services/disbursement_management_service.go:397-436 | takes the approval step exactly when allowed to this user, or changes nothing and says why |
| DisbursementManagement.DisbursementManagementService.RejectDisbursement | internal/services/disbursement_management_service.go:442-476 | with a reason, one step back from READY or APPROVED, or changes nothing and says why |
| DisbursementManagement.DisbursementManagementService.DeleteDisbursement | internal/serve/httphandler/disbursement_handler.go:219-263 | removes the disbursement with its drafts exactly if nothing else is left of it, or changes nothing and says why |
| DisbursementManagement.DisbursementManagementService.RetryFailed | internal/serve/httphandler/payments_handler.go:172-188 | retries all of the identifiers or none |
| DisbursementManagement.DisbursementManagementService.PostDisbursementInstructions | internal/serve/httphandler/disbursement_handler.go:303-337 | on a healthy database done if and only if the disbursement is DRAFT or READY, columns and lines are accepted and the upload of the sanitised lines is possible; then the tables are as `PostedAs` says of the lines of the file, and the disbursement's payments sum to the file's amounts; otherwise nothing changes |
| DisbursementManagement.DisbursementManagementService.RepostAlwaysPossible | internal/serve/httphandler/disbursement_handler.go:303-337 | what was posted once can be posted again |
| PostMeanings.AcceptedMeans | internal/serve/validators/disbursement_instructions_validator.go:33-146 | exactly which lines are accepted, in terms of their trimmed fields, with the lengths written out |
| PostMeanings.HeadersMean | internal/serve/httphandler/disbursement_handler.go:811-900 | exactly which columns are accepted for each kind of disbursement |
| PostMeanings.PostMeans | internal/serve/httphandler/disbursement_handler.go:370-417 | a post leaves, line by line: a payment of its amount and trimmed payment id, a receiver with its trimmed lower-case contact, a new one with its trimmed id, a registered row with its trimmed upper-case address and its memo, a verification that accepts its value, and nothing else |
| PostMeanings.PostPaysWhatTheFileAsks | internal/serve/httphandler/disbursement_handler.go:370-417 | the disbursement's payments sum to the amounts in the file |
| DisbursementManagement.DisbursementManagementService.PostsDropNames | internal/serve/validators/disbursement_instructions_validator.go:102-126 | no receiver that a post created has a recipient name or a currency type |
| DisbursementManagement.DisbursementManagementService.ProcessAllInTransaction | internal/data/disbursement_instructions.go:131-149 | all or nothing, and always an error once the disbursement has started |
| Lifecycle.ConsistentStep | internal/data/disbursements.go:299-333 | every committed operation keeps histories legal, last entries equal to statuses, and payments in step with their disbursements |
| Lifecycle.PaymentOrigin | internal/data/payments.go:409-432 | in any operation a payment is kept, moves one legal transition on unchanged terms, or is newly inserted |
| Lifecycle.DisbursementOrigin | internal/data/disbursements.go:299-333 | in any operation a disbursement is kept, gets one legal history entry, or is newly created |
| Lifecycle.UploadOrigin | internal/data/disbursement_instructions.go:131-139 | an upload touches no payment but drafts of its own disbursement |
| StepMeanings.ApproveMeans | internal/services/disbursement_management_service.go:397-436 | approving is possible exactly from READY, with approval required only without a DRAFT or READY entry of one's own, and changes the one row |
| StepMeanings.RejectMeans | internal/services/disbursement_management_service.go:442-476 | rejecting goes exactly from READY to DRAFT and from APPROVED to READY |
| StepMeanings.StartMeans | internal/services/disbursement_management_service.go:205-273 | starting is possible exactly from READY, APPROVED or PAUSED, with approval required from APPROVED by a non-creator; DRAFT and PAUSED payments become READY, the DRAFT wallet rows they pay to become READY, and no other row changes |
| StepMeanings.SubmitMeans | internal/services/disbursement_management_service.go:479-531 | submitting is possible exactly from APPROVED and does the same |
| StepMeanings.PauseMeans | internal/services/disbursement_management_service.go:363-394 | pausing is possible exactly from STARTED and pauses exactly the READY payments |
| StepMeanings.DeleteMeans | internal/serve/httphandler/disbursement_handler.go:219-263 | deleting is possible exactly before the start with no payment but drafts, which go with the row |
| StepMeanings.CompleteDisbursementsMeans | internal/data/disbursements.go:444-480 | completes exactly the listed started ones all of whose payments are SUCCESS |
| StepMeanings.CompleteIfNecessaryMeans | internal/data/disbursements.go:505-526 | completes exactly the started ones all of whose payments are SUCCESS or CANCELED |
| StepMeanings.CreateDirectPaymentMeans | internal/data/payments.go:782-820 | one more READY payment of no disbursement, with its terms and no transaction id |
| StepMeanings.SetStatusesMeans | internal/data/payments.go:503-573 | exactly along the list: READY or FAILED to PENDING, READY or PENDING to FAILED, PENDING to SUCCESS, READY to CANCELED; status, history and transaction id of the listed rows |
| StepMeanings.RetryMeans | internal/data/payments.go:575-625 | exactly the FAILED ones listed become READY, with READY in the history and no transaction id |
| StepMeanings.UnregisterMeans | internal/data/receivers_wallet.go:738-805 | exactly for a REGISTERED row without READY, PENDING or PAUSED payments; address and memo are cleared, the row is READY and to be invited again |
| StepMeanings.RegisterMeans | internal/serve/httphandler/verify_receiver_registration_handler.go:215-250 | exactly from READY or FLAGGED with an address no other receiver has; address, memo and memo type are set |
| Runs.AlwaysConsistent | internal/data/disbursements.go:299-333 | every state of every run is consistent |
| Runs.PendingCount | internal/data/payments_state_machine.go:44-58 | in a legal history, PENDING occurs at most once more than FAILED, and SUCCESS at most once |
| Runs.SubmittedOnceMoreThanFailed | internal/data/payments.go:503-625 | in every run a payment is submitted at most once more than it failed |
| Runs.PaymentGone | internal/data/payments.go:348-368 | only an upload to its disbursement or its deletion removes a payment, and only a draft |
| Runs.TermsStep | internal/data/disbursement_instructions.go:131-139 | nothing but an upload to it changes what a disbursement is going to pay |
| Runs.CompletedMeansFinal | internal/data/disbursements.go:444-480 | in every run a completed disbursement has only SUCCESS or CANCELED payments |
| Runs.CompletedForever | internal/data/disbursements.go:505-526 | completion, with the payments and their terms, is final |
| Runs.FinalPaymentForever | internal/data/payments_state_machine.go:44-58 | SUCCESS and CANCELED are absorbing over any run, on the same terms |
| Runs.SucceededAreFinished | internal/data/disbursements.go:444-526 | whatever CompleteDisbursements completes, CompleteIfNecessary would complete too |
| Runs.CompletionsAgree | internal/data/disbursements.go:444-526 | the two disagree on a disbursement if and only if it is started, all its payments are SUCCESS or CANCELED, and one is CANCELED |
| Runs.ApprovedIsWhatStarts | internal/data/dibursements_state_machine.go:44-59 | from approval to start, payments, receivers, wallets, assets and amounts are the same |
| Runs.ApprovalsHold | internal/services/disbursement_management_service.go:232-246 | with approval required, in every run no approver had created, uploaded or rejected it, and all that started was approved |
| Runs.RejectingLocksOut | internal/services/disbursement_management_service.go:420-427 | who rejects can never approve the disbursement again, nor start it by StartDisbursement |
| Runs.RejecterMaySubmit | internal/services/disbursement_management_service.go:479-531 | who rejected an approved disbursement can start it all the same by submitting it, once somebody else has approved it again |
| Runs.ResumableIffNoApproval | internal/services/disbursement_management_service.go:232-238 | a paused disbursement can be resumed exactly where approval is not required |
| Runs.PausedForever | internal/services/disbursement_management_service.go:232-238 | with approval required, PAUSED is never left |
| Runs.PauseThenResume | internal/data/payments.go:409-432 | restores every payment's status exactly if none was DRAFT or PAUSED, adding PAUSED, READY to the READY ones' histories and nothing else |
| Runs.PauseThenResumeAlwaysRestores | internal/services/disbursement_management_service.go:363-394 | in every reachable state, pausing and resuming a started disbursement restores every status |
| Runs.AddressStep | internal/data/receivers_wallet.go:738-805 | a step takes an address away if and only if it unregisters the row, or the row is FLAGGED and registers with another address |
| Runs.AddressStableWhileInProgress | internal/data/receivers_wallet.go:790-805 | while payments are in progress the wallet's address stays, over any run, if and only if no flagged registration replaces it |
| Runs.FlaggedReceiverReplacesAddress | internal/serve/httphandler/verify_receiver_registration_handler.go:215-250 | consistent tables in which an address changes under a payment in progress |
| BatchClaim.GetBatchForUpdate | internal/data/payments.go:252-303 | a disbursement-first prefix of at most the batch size, with the disbursement of direct payments cleared in place |
| BatchClaim.RemoveEmptyDisbursementForDirect | internal/data/payments.go:822-828 | clears exactly the direct payments' disbursements, through the pointers |
| BatchClaim.SystemOkStep | internal/data/payments.go:252-303 | every interleaved step keeps locks disjoint and held payments eligible |
| BatchClaim.NeverInTwoBatches | internal/data/payments.go:252-303 | no payment is ever in two batches in flight |
| BatchClaim.ClaimedStaysEligible | internal/data/payments.go:257-283 | from query to commit a claimed payment is READY, its wallet row REGISTERED and its disbursement, if any, STARTED, in the tables |
| BatchClaim.DisbursementPaymentsFound | internal/data/payments.go:257-266 | the first query finds exactly the READY payments of STARTED disbursements to REGISTERED wallets none of whose five rows another worker has locked |
| BatchClaim.DirectPaymentsFound | internal/data/payments.go:274-300 | the second finds exactly the READY direct payments to REGISTERED wallets none of whose two rows is locked; together they are cut to the batch size |
| BatchClaim.BatchesShareNothing | internal/data/payments.go:194-207 | batches in flight never share a receiver wallet, nor, for disbursement payments, a disbursement, asset or wallet |
| BatchClaim.CommitIsTwoSteps | internal/data/payments.go:503-536 | a commit is two ordinary steps along allowed transitions: refused payments fail, the rest become pending |
| BatchClaim.CommitMeans | internal/services/payment_to_submitter_service.go:76-121 | row by row, refused payments of the batch are FAILED, the others PENDING, the rest untouched |
| BatchClaim.ConsistentUnderConcurrency | internal/services/payment_to_submitter_service.go:76-121 | with any number of workers the tables stay consistent |
| BatchClaim.SubmittedOnceMoreThanFailedConcurrently | internal/services/payment_to_submitter_service.go:76-140 | however workers interleave, a payment is submitted at most once more than it failed |
| Rotation.BuildMergeAccountsOperations | cmd/distribution_account_cmd_service.go:130-176 | for whatever order the map is ranged over, the operations of every credit line and the merge at the end |
| Rotation.RunLine | cmd/distribution_account_cmd_service.go:141-168 | one line's operations succeed exactly if the old account holds that balance, and move exactly it |
| Rotation.RunAllLines | cmd/distribution_account_cmd_service.go:130-176 | all lines' operations succeed exactly if the old account holds them all, and conserve every balance |
| Rotation.CreditCount | cmd/distribution_account_cmd_service.go:114-128 | with one native entry, the number of trustlines funded is the number there are |
| Rotation.RotationTransaction | cmd/distribution_account_cmd_service.go:100-176 | succeeds if and only if the native balance covers funding and reserves and the ledger still matches the balances; then the old account is gone and the new one holds all it held |
| Rotation.RotationSucceedsIff | cmd/distribution_account_cmd_service.go:114-176 | in stroops: possible if and only if the new address is free, the lines are those read, there are no other entries, and the native balance is at least max(10,000,000 b, 5,000,000 (2+n)) + 5,000,000 (2+n) |
| Rotation.RotationLeaves | cmd/distribution_account_cmd_service.go:114-176 | the account is created with exactly that maximum, and in the end has everything the old one had, which is gone |
| Rotation.RotationSize | cmd/distribution_account_cmd_service.go:130-176 | at most 3n+2 operations for n trustlines, counted exactly |
| RotationProtocol.NeverStranded | cmd/distribution_account_cmd_service.go:44-112 | in every state of every run, whatever fails, stops or is applied late and whatever others do to the ledger, the account that holds the funds is on the ledger with its key in the vault, and so is the key of the tenant's account |
| RotationProtocol.AppliedKeepsKey | cmd/distribution_account_cmd_service.go:82-112 | the account that an applied transaction made keeps its key until a later one moves it away |
| RotationProtocol.KeyGoesLast | cmd/distribution_account_cmd_service.go:57-77 | a key leaves the vault only after a transaction moved its account away and the tenant then moved to the new one |
| RotationProtocol.StrandedExactly | cmd/distribution_account_cmd_service.go:74-77 | a deletion strands an account if and only if the old address is on the ledger again; otherwise only somebody who creates a deleted address does |
| RotationProtocol.SubmitMovesEverything | cmd/distribution_account_cmd_service.go:82-112 | a transaction that is applied, whenever and however it is reported, moves the whole account and touches no other |
| RotationProtocol.DeletedKeyStaysUnused | cmd/distribution_account_cmd_service.go:44-80 | a deleted key never comes back and its account is never again the tenant's |
| RotationProtocol.DeletedAccountStaysOff | cmd/distribution_account_cmd_service.go:74-77 | an account whose key is gone stays off the ledger if and only if nobody else creates it |
| RotationProtocol.AbandonedForever | cmd/distribution_account_cmd_service.go:44-80 | the new account of a rotation that stopped before the tenant moved never becomes the tenant's |
| RotationFunds.Parting | cmd/distribution_account_cmd_service.go:54-72 | the tenant and the funds part at a step exactly if it applies a transaction from the tenant's account |
| RotationFunds.Meeting | cmd/distribution_account_cmd_service.go:60-72 | they meet again at a step exactly if it repoints the tenant to the account with the funds |
| RotationFunds.TogetherIffFollowed | cmd/distribution_account_cmd_service.go:44-80 | in every run the tenant points to the funds if and only if each time they were moved away from it, it followed |
| RotationFunds.PartedForGood | cmd/distribution_account_cmd_service.go:44-80 | parted with no rotation that moved the funds under way, the funds stay where they are and the tenant never points there |
| RotationFunds.RejoinIff | cmd/distribution_account_cmd_service.go:44-80 | once parted, some continuation of the run brings them together if and only if the rotation that moved the funds is under way |
| RotationFunds.OneMove | cmd/distribution_account_cmd_service.go:82-112 | with nothing else sent, the funds are in the new account exactly if the transaction to it was applied |
| RotationExamples.DeletionCanStrand | cmd/distribution_account_cmd_service.go:74-77 | a whole run in which the deletion strands an account |
| RotationExamples.FundsCanBeAbandoned | cmd/distribution_account_cmd_service.go:54-72 | a whole run after which the funds are in an abandoned account and the tenant's is gone |
| RotationService.DistributionAccountService.RotateDistributionAccount | cmd/distribution_account_cmd_service.go:44-80 | which outcome a rotation has (`Answers`): refused exactly for accounts outside the database vault, else the error of the first call that fails, and without a failing call only for an account off the ledger, one that takes over 100 operations, or a transaction the ledger refuses; and for every outcome what it leaves: the tenant, the keys, the transaction, and whether the tenant points to the funds |
| RotationService.DistributionAccountService.CreateNewStellarAccountFromAccount | cmd/distribution_account_cmd_service.go:82-112 | whatever fails, no key is lost and the tenant stays; which of its errors it has; success means the new key is in the vault and the transaction from the old account to the new one was applied |
| RotationService.DistributionAccountService.BuildOperations | cmd/distribution_account_cmd_service.go:100-111 | the create operation, then the merge operations of the balances read |
| QueryBuilders.BindConcat | internal/data/query_builder.go:79-100 | balanced texts bind each to its own values |
| QueryBuilders.BuiltMeansAsked | internal/data/query_builder.go:79-100 | the built query has as many placeholders as values and means what was asked, clauses in SQL's order whatever the order of calls |
| QueryBuilders.AlignedIffOnePage | internal/data/query_builder.go:69-76 | with balanced conditions, aligned if and only if at most one page was asked for |
| QueryBuilders.QueryBuilder.AddCondition | internal/data/query_builder.go:32-40 | one more AND condition with its own values |
| QueryBuilders.QueryBuilder.AddOrCondition | internal/data/query_builder.go:48-57 | one more OR condition with its own values |
| QueryBuilders.QueryBuilder.AddGroupBy | internal/data/query_builder.go:42-45 | replaces the grouping and nothing else |
| QueryBuilders.QueryBuilder.AddSorting | internal/data/query_builder.go:61-66 | replaces the sorting where a column is given, and nothing else |
| QueryBuilders.QueryBuilder.AddPagination | internal/data/query_builder.go:69-76 | asks for a page where page and limit are positive, at the offset of the page |
| QueryBuilders.QueryBuilder.Build | internal/data/query_builder.go:79-100 | the text and values depend only on what was asked |
| Queries.NewPaymentQuery | internal/data/payments.go:654-694 | every combination of filters binds: each condition to its own filter's value |
| Queries.NewDisbursementQuery | internal/data/disbursements.go:336-365 | every combination of filters binds |
| Queries.NewReceiverQuery | internal/data/receivers.go:267-299 | every combination of filters binds |
| Queries.NewWalletQuery | internal/data/wallets.go:170-212 | any list of filters binds, deleted wallets excluded unless the last such filter includes them |
| Queries.BuildCircleTransferRequestQuery | internal/data/circle_transfer_requests.go:251-288 | every combination of filters binds, with pagination and locking |
| QueryTexts.QueryReads | internal/data/query_builder.go:79-100 | the text of a query with two conditions, grouping, sorting, a page and locks |
| QueryTexts.PagesFollow | internal/data/query_builder.go:69-76 | pages start at the first row and each starts where the one before it ends |
| QueryTexts.PaymentConditions | internal/data/payments.go:654-681 | exactly which conditions a payment query has, letter by letter |
| QueryTexts.DisbursementConditions | internal/data/disbursements.go:336-351 | exactly which conditions a disbursement query has |
| QueryTexts.ReceiverConditions | internal/data/receivers.go:267-299 | exactly which conditions a receiver query has |
| QueryTexts.TransferConditions | internal/data/circle_transfer_requests.go:251-288 | exactly which conditions a transfer request query has |
| QueryTexts.WalletConditions | internal/data/wallets.go:170-212 | the condition of each wallet filter |
| Queries.AddArrayOrSingleCondition | internal/data/payments.go:645-651 | a non-empty list asks for ANY, everything else for equality |
| SetClauses.BuildSetClause | internal/data/query_builder.go:118-147 | exactly the tagged fields that are not zero, in order, with their values |
| SetClauses.SetClauseBinds | internal/data/query_builder.go:118-147 | each column is assigned its own field's value |
| CircleTransfers.AssignedIsUpdated | internal/data/circle_transfer_requests.go:212-249 | assigning the kept columns one by one is the update that leaves out zero fields |
| CircleTransfers.GetOrInsertMeans | internal/data/circle_transfer_requests.go:62-112 | gives the key of an incomplete request, or exactly if every earlier one failed inserts a row with nothing but the payment and the time |
| CircleTransfers.UpdateMeans | internal/data/circle_transfer_requests.go:212-249 | field by field what an update sets, exactly if something is given and the constraints admit the row |
| CircleTransfers.CircleTransferRequestModel.GetOrInsert | internal/data/circle_transfer_requests.go:62-90 | the incomplete request or a new one; refused exactly for an unknown payment or where the index does not admit a new one |
| CircleTransfers.CircleTransferRequestModel.GetIncompleteByPaymentID | internal/data/circle_transfer_requests.go:114-124 | the latest incomplete request of the payment, or none exactly if there is none |
| CircleTransfers.CircleTransferRequestModel.Insert | internal/data/circle_transfer_requests.go:92-112 | a new request exactly if every earlier one failed |
| CircleTransfers.CircleTransferRequestModel.UpdateRequest | internal/data/circle_transfer_requests.go:212-249 | sets the non-zero fields of one row exactly if there are any and the constraints admit it |
| CircleTransfers.CircleTransferRequestModel.GetCurrentTransfersForPaymentIDs | internal/data/circle_transfer_requests.go:182-210 | the latest request of each payment that has one, and of no other |
| CircleTransfers.OneIncomplete | internal/data/circle_transfer_requests.go:62-124 | in every run a payment has at most one incomplete request |
| CircleTransfers.CompletionForever | internal/data/circle_transfer_requests.go:212-249 | completion is never undone |
| CircleTransfers.SameKeyUntilCompletion | internal/data/circle_transfer_requests.go:62-90 | the same key again until the request is completed, whatever happens between |
| CircleTransfers.NothingAfterSuccess | internal/data/circle_transfer_requests.go:92-112 | a paid payment never gets a second request |
| CircleTransfers.CurrentIsIncomplete | internal/data/circle_transfer_requests.go:182-210 | the current request is the incomplete one whenever there is one |
| ShortURLs.URLShortenerModel.GetOrCreateShortCode | internal/data/url_shortener.go:53-92 | whatever the generator and other writers do: unique both ways, no pair changes, the code resolves to the URL; undisturbed, succeeds exactly if the URL has a code or one of five codes is free |
| ShortURLs.URLShortenerModel.GetOriginalURL | internal/data/url_shortener.go:40-51 | the URL of the code, or not found exactly if there is none |
| ShortURLs.InsertsKeepUnique | internal/data/url_shortener.go:71-78 | any inserts of other transactions keep the table unique both ways and every pair |
| ShortURLs.PairsNeverChange | internal/data/url_shortener.go:53-92 | in any later table, the same URL has the same code and the same code the same URL |
| ChannelPriority.RoundTrip | internal/data/organizations.go:300-338 | printing then reading gives the list back if and only if the stated conditions on its names hold |
| ChannelPriority.PrintedExample | internal/data/organizations.go:300-338 | two channels as they are printed and read |
| ChannelPriority.JoinOfSplit | internal/data/organizations.go:314-315 | joining what was split gives the text back |
| ChannelPriority.SplitOfJoin | internal/data/organizations.go:332-337 | splitting what was joined gives the names back, where they have no commas |
| ChannelPriority.Value | internal/data/organizations.go:327-338 | the printed form, the empty list included |
| ChannelPriority.MessageChannelPriority.Scan | internal/data/organizations.go:300-323 | the list that the printed form reads as, or none for NULL |

## Left out

- Fees, issuer flags, trustline limits and ledger bounds of the rotation transaction: the host account pays the fees and the other three do not touch the balances.
- Integer widths of balances: stroops are unbounded integers here, so overflow of 64 bits on the ledger is not modelled.
- Decimal text of amounts: an amount that is no number counts as a non-positive one.
- Where the available balance comes from: Horizon's or Circle's answer for the asset, or its error, is a parameter of `ValidateBalanceForDisbursement`. A disbursement without payments fails there; the source dereferences missing statistics.
- The balance check of direct payments: it is the same comparison without rounding.
- Lower: is LOWER, and with `Upper` the letter case in sanitising and the case folding of issuers, on ASCII letters only; the database and Go change other letters too.
- ValidateInstruction: the formats of phone numbers, emails, dates and months are parameters (`InstructionValidation.Formats`), of which only is assumed that emails have an at sign and phone numbers none.
- The role checks, CSV parsing and status codes of the HTTP handlers: a file is its columns and its parsed lines.
- RegisterWallet: models `ReceiverWalletModel.Update` only as the registration of supplied addresses calls it.
- GetBatchForUpdate: takes the results of its two queries as arguments; what they select and lock is `BatchClaim.Selects`, and the order of their rows is not modelled, because under concurrent updates the database does not guarantee it.
- Free-form `ReceiverWalletModel.Update` and deletion by contact: nothing constrains their callers. `RegisterReceiver` stands for a receiver's own registration.
- Receiver wallet histories as ordered logs: the code appends in some places and prepends in others.
- Database errors between the statements of one pipeline step: `ProcessAll` has them between steps; the rollback proof does not depend on where they come.
- A commit that reports an error although the database has committed, except for the rotation's submission, which has that case.
- The statuses and messages that services write besides the tables above, audit tables, events and metrics.
- bcrypt, UUIDs, key validity, memo parsing and the code generator: parameters, of which only what is said above is assumed.
- The deferred rollback after a panic: Go panics are not modelled.
- Passing the function to run to `RunInTransaction`: a transaction object is finished with the function's result instead.

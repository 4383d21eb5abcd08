# Change control and its evidence, in Dafny

A verification model of two halves of one change-control system for network devices.

The **coordinator** keeps change sets (plans that a second person must approve) and operations
(attempts to put a plan on a device) in two maps, mirrored to one state file. Its methods release the
lock between reading a record and writing it back, device calls happen in between, writes may fail
with the old or the new file in place, and the process may stop anywhere.

The **evidence recorder** turns every step of a change into a record of a hash chain, cuts the chain
into segments, and hands them to a spool that may refuse any of them. A device commit may only be
issued once its intent is in the outbox.

Underneath lie the encodings both depend on: canonical JSON, digest preimages, the commit comment
and the log parser that reads it back, and unpadded base64url (section 5 of RFC 4648).

## How it is modelled

- Everything the environment decides is a parameter of a step: what a write does (`Durable`,
  `FailedOld`, `FailedNew`), what a device answers, the clock, what the spool says. A run is a sequence
  of steps, and the theorems quantify over all runs.
- One step is one section that holds a lock, one device call or one file operation, so every
  interleaving the code allows is a run.
- Code that changes state in place is also there as code: `CoordinatorClass.Coordinator`,
  `RecorderClass.EvidenceRecorder` and `OfflineResolution.StateFile` are classes with the source's fields
  and loops, each method proved to compute the step function the theorems are about. The lifecycle
  methods in `OperationMethods` and `ApplyMethods` are proved to take the coordinator where the protocol's
  thread goes.
- What the proofs assume: hashes are injective and never empty (`Evidence.IdealHash`, `PlanBinding.Injective`);
  a new operation's id, drawn at random, was not used before (`OperationProtocol.CanBegin`,
  `StateFileProtocol.Honest`); an operator who resolves an operation offline has reconciled the device.
- Whether a lock or stage call that fails may leave the device locked is a parameter
  (`OperationProtocol.Limits.cleanFailures`), and so is which flows are in use.

| files | what they hold |
|---|---|
| `Lifecycle`, `Records`, `WriteGate`, `ChangeSetStore` | states, records, the one check every change-set write passes, the store's sections |
| `ChangeSetProtocol`, `ChangeSetTheorems`, `SmallRuns` | every interleaving of change-set calls, failed writes and restarts |
| `Admission`, `LifecycleEdits`, `StaleCopies`, `ApplyGate`, `PlanBinding` | exactly which inserts and updates are taken; what approve, waive, status and cancel ask for; what a copy read earlier can overwrite; what an apply checks and what it then claims; whether the plan is still the one approved |
| `OperationStore`, `OperationProtocol`, `OperationInvariant`, `OperationTheorems`, `OperationLocks`, `OperationMethods`, `ApplyMethods` | stage, apply, validate, commit, discard and diff as concurrent threads, and as methods |
| `Coordinator`, `Recovery`, `OfflineResolution`, `StateFileProtocol` | the coordinator object, restart, offline repair, and any number of processes sharing the file |
| `Json`, `Canonical`, `Digests` | JSON text, canonical form, digest preimages |
| `Evidence`, `EvidenceChain`, `EvidenceProtocol`, `EvidenceInvariant`, `EvidenceTheorems`, `Recorder`, `ContextCache` | records, chain, recorder, spool, restarts |
| `DeviceLog`, `Base64Url`, `Text` | commit comments and their parser, token encoding, shared text |

`dafny verify dfyconfig.toml` checks all of it.

## Where a promise does not hold, and exactly when it does

- *A failed sweep is rolled back.* Not at capacity: a retired record is evicted in the same pass and comes
  back expired (`LifecycleEdits.SweepUndoFails`, a run from the empty store). It holds if and only if the store
  is below capacity or nothing was due (`SweepUndoneExactly`).
- *A compare-and-set notices a concurrent change.* It compares the state only. An approval written from a copy
  read before a preview was attached erases the preview and signs its absence
  (`StaleCopies.StaleCopyErasesPreview`, a run from the empty store). A preview survives every accepted
  compare-and-set if and only if an approval of version 5 or later is on record (`PreviewSurvivesIff`). Every
  change of state is noticed: while the server is up, a state seen again was never left
  (`ChangeSetTheorems.SameStateMeansNeverLeft`).
- *An apply claims what it checked.* Its second reading does not ask again who approved, so a waiver can be gone
  by the time of the claim (`ApplyGate.AWaiverCanBeGoneWhenClaimed`). The approval check still passes after
  every accepted write if and only if a second person approved (`ApprovalOutlastsWritesIff`).
- *Freezing the plan digest freezes the plan.* The gate compares the digest and never the plan under it, so the
  actions of a genuinely approved change set can be replaced before it is claimed
  (`PlanBinding.ActionsCanBeSwapped`, a run from the empty store). An accepted write keeps the plan if and only if
  its digest is that of the plan it writes (`PlanKeptIff`); while the server holds the record its plan never moves
  if and only if every accepted write of it is of that kind (`PlanNeverMovesIff`).
- *A device lock is never held without a record.* An apply drops its record without a confirmed unlock; and where
  a failed call may leave a lock, so do a stage whose lock call fails and an apply whose stage call fails. It
  holds in every run if and only if nothing can be admitted at all or every flow in use keeps its locks: with
  clean failures, every flow but an apply that takes the configuration lock; without, only stages that take none
  (`OperationLocks.LocksRecordedIff`).
- *Comments composed from texts free of `request.id=` and `Device:` read back.* The provider is put in lower
  case first, so `REQUEST.ID=0` takes the id's place (`DeviceLog.ShoutedProviderIsReadAsAnId`). A composed
  comment reads back on every commit if and only if every text in it is free of both, the provider's in lower
  case (`ComposedReadsBackIff`); the same condition is exact for whole logs (`ComposedLogsReadBackIff`).
- *The bar-joined approval digest names one pairing.* If and only if neither principal contains a bar
  (`Digests.LegacyUnambiguousIff`).

## Model

| member | source | states |
|---|---|---|
| `Lifecycle.NoStateRecurs` | crates/mecmcp-changeset/src/lifecycle.rs:71-116 | along any path through the transition table and the claim edge, a state seen again was never left: the table is acyclic apart from self-loops |
| `Lifecycle.TableIs` | crates/mecmcp-changeset/src/lifecycle.rs:71-116 | the transition table is these ten moves and staying put, and no others |
| `WriteGate.UpdateKeepsEvidence` | crates/mecmcp-changeset/src/coordinator.rs:1309-1487 | an update the gate accepts leaves a well-formed record, not self-approved, that keeps owner, device, plan digest, a genuine approval and the preview digest it binds, follows the table, and never performs the claim |
| `WriteGate.GateIsExact` | crates/mecmcp-changeset/src/coordinator.rs:1309-1487 | an update is let through if and only if it keeps owner, device and digest, does not perform the claim, stays put or moves along the table, is not approved by its owner, has no preview but one of its own text, and takes away neither a genuine approval, nor the preview an approval covers, nor the no-handle mark of an apply in flight |
| `WriteGate.BoundTextIsFrozen` | crates/mecmcp-changeset/src/coordinator.rs:1376-1430 | once an approval binds a preview, the preview's text, and not only its digest, stays the same |
| `ChangeSetProtocol.EveryReachableStoreIsOk` | crates/mecmcp-changeset/src/coordinator.rs:809-985 | in every reachable state, memory and file hold at most the allowed number of change sets, at most one pending per owner and device, and no self-approved record, through sweeps, evictions, failed persists, rollback and restarts |
| `Admission.InsertIsExact` | crates/mecmcp-changeset/src/coordinator.rs:809-985 | an insert succeeds if and only if the record is a mere plan under a new id, there is room once, at capacity, everything finished or overdue is dropped, the owner has nothing live on the device, and what has to be written is; then memory and file are the swept records and the new one, as stored |
| `Admission.NothingOverdueIsLeft` | crates/mecmcp-changeset/src/coordinator.rs:880-985 | after an insert that passes the screen, with its sweep written, no other record in memory is planned or approved past its own deadline or its waiver's; nor in the file, if it was written |
| `Admission.UpdateIsExact` | crates/mecmcp-changeset/src/coordinator.rs:1154-1228 | an update is taken if and only if the record is known, in the state the caller saw where they say so, let through by the gate and written; memory changes only then, and the file exactly if the new one is in place |
| `ChangeSetTheorems.ApprovalSpentOnce` | crates/mecmcp-changeset/src/coordinator.rs:1084-1152 | between two successful claims of one id, in any interleaving of calls from stale copies, ambiguous failures and restarts, the id was inserted afresh while the server did not hold it, and that insert put an unspent record into memory or the file where every copy left was spent |
| `ChangeSetTheorems.EvidenceIsStable` | crates/mecmcp-changeset/src/coordinator.rs:1326-1458 | for as long as a record exists its owner, device and plan digest never change, and a genuine approval with its preview digest never changes, across any number of writes and restarts |
| `ChangeSetTheorems.ApprovalVerifiesUntilEviction` | crates/mecmcp-changeset/src/coordinator.rs:1326-1458 | an approval that binds the preview and verifies when granted verifies at every later point until the record is evicted, and its approver is never the owner |
| `ChangeSetTheorems.HandlelessApplyKeepsItsSlot` | crates/mecmcp-changeset/src/coordinator.rs:1117-1136 | a change set claimed without a handle stays in flight, in memory and in the file, through restarts and failed writes until an outcome is written for it, and every insert for its owner and device is refused meanwhile |
| `ChangeSetTheorems.ClaimIsExact` | crates/mecmcp-changeset/src/coordinator.rs:1084-1152 | a claim succeeds if and only if the id is well formed, the change set is of that device and approved, and the write is durable; then only that record changes, to in flight, marked as handleless if and only if no handle is expected; a failed write keeps the claim in memory |
| `ChangeSetTheorems.UnstartedApplyFails` | crates/mecmcp-changeset/src/coordinator.rs:535-576 | a change set claimed with a handle expected, the server stopping before anything was written about it: the next load that succeeds has it failed, in memory and in the file, and nothing of its owner and device pending |
| `ChangeSetTheorems.LoadIsExact` | crates/mecmcp-changeset/src/coordinator.rs:535-596 | a load succeeds if and only if nothing is unsettled or what is settled is written; then memory and file agree, and each record is as it was, but an empty task handle is none and an apply with neither task nor marker has failed |
| `ChangeSetTheorems.SameStateMeansNeverLeft` | crates/mecmcp-changeset/src/coordinator.rs:1154-1197 | the compare in the compare-and-set, which looks at the state alone, misses no change of state while the server is up |
| `ApplyGate.ApplyClaimsWhatItChecked` | crates/mecmcp-changeset/src/apply.rs:218-372 | while the server stays up and the id does not come back after leaving the store, whatever others do between an apply's two readings of a change set and its claim: what it claims was approved all along, is the caller's, has the plan digest the caller named and is not self-approved, although the claim compares only state and device; if a second person approved it, it carries the very approval that was checked and passes that check again |
| `ApplyGate.ChecksAreExact` | crates/mecmcp-changeset/src/apply.rs:226-372 | the first reading lets an apply through if and only if the change set is the caller's, approved, in time, of the digest and fingerprint named, and approved by another than the owner or waived in lab mode; the second asks all of that but the last |
| `PlanBinding.ActionsCanBeSwapped` | crates/mecmcp-changeset/src/coordinator.rs:1326-1345 | a run from the empty store: insert, genuine version 5 approval, an update with any other actions, which is accepted; both checks of an apply pass and the claim succeeds |
| `PlanBinding.PlanKeptIff` | crates/mecmcp-changeset/src/coordinator.rs:1326-1345 | an accepted write over a record whose digest is that of its plan keeps fingerprint, actions and targets if and only if the digest is that of the plan it writes |
| `PlanBinding.PlanReadIsPlanApproved` | crates/mecmcp-changeset/src/apply.rs:331-372 | if every write of the record between two moments, accepted or not, carries the digest of its own plan, both moments have the same plan, through failed writes and restarts |
| `PlanBinding.PlanNeverMovesIff` | crates/mecmcp-changeset/src/apply.rs:331-372 | while the server holds a record whose digest is that of its plan, every reading gives the same plan if and only if every accepted write carries the digest of the plan it writes |
| `ApplyGate.ApprovalOutlastsWritesIff` | crates/mecmcp-changeset/src/apply.rs:331-372 | every accepted write that leaves an approved record approved leaves it passing the approval check, if and only if a second person approved it |
| `ApplyGate.AWaiverCanBeGoneWhenClaimed` | crates/mecmcp-changeset/src/apply.rs:226-372 | a run from the empty store in which the waiver an apply checked is removed before its second reading, which passes, and the claim succeeds on a record the first check would refuse |
| `ApplyGate.NothingApplicableIsRetired` | crates/mecmcp-changeset/src/apply.rs:226-372 | neither a status read nor the sweep retires a change set that an apply would accept at that moment |
| `LifecycleEdits.ApproveIsAccepted` | crates/mecmcp-changeset/src/changeset.rs:212-357 | an approval goes through if and only if a human other than the owner gives it, in time, on a planned record, naming its exact digest, with no bar in either name; what is written changes state, approver and approval only, and is signed over the stored preview; the gate takes it if and only if it is the first genuine one or repeats it |
| `LifecycleEdits.WaiveIsAccepted` | crates/mecmcp-changeset/src/changeset.rs:379-612 | a waiver goes through if and only if the owner asks, in time, on a planned record, naming its digest, with time left on it, and in lab mode if it is of that kind; the gate takes it if and only if there is no genuine approval; it names no approver |
| `LifecycleEdits.RetireAndCancelAreAccepted` | crates/mecmcp-changeset/src/changeset.rs:612-768 | reading a status retires a planned record past its deadline and a planned or approved one past its waiver, and nothing else; retiring and cancelling always pass the gate and change only the state; a cancel goes through if and only if the caller is the owner or the approver and the table allows the move |
| `StaleCopies.PreviewSurvivesIff` | crates/mecmcp-changeset/src/coordinator.rs:1154-1197 | a stored preview survives every accepted compare-and-set from its state if and only if the record has an approval of version 5 or later |
| `StaleCopies.StaleCopyErasesPreview` | crates/mecmcp-changeset/src/changeset.rs:212-357 | a run from the empty store: insert, attach a preview, then approve from the copy read before; the write is accepted, the preview is gone and the stored version 5 approval signs that there is none |
| `LifecycleEdits.SweepUndoneExactly` | crates/mecmcp-changeset/src/coordinator.rs:889-944 | a sweep whose persist failed is undone exactly if and only if the store was below capacity or nothing was due |
| `LifecycleEdits.SweepUndoFails` | crates/mecmcp-changeset/src/coordinator.rs:889-944 | a run from the empty store with room for one: past its deadline a planned record is swept by an insert whose write fails, and memory has it expired while the file has it planned |
| `CoordinatorClass.Coordinator.InsertOperation` | crates/mecmcp-changeset/src/coordinator.rs:700-752 | eviction at capacity, the full and busy refusals, and rollback on a failed write are the insert step; change sets are untouched |
| `CoordinatorClass.Coordinator.FindBusy` | crates/mecmcp-changeset/src/coordinator.rs:722-740 | finds a busy device or endpoint if and only if an unfinished operation has it |
| `CoordinatorClass.Coordinator.UpdateOperation` | crates/mecmcp-changeset/src/coordinator.rs:761-780 | the update step, the previous record restored when the write fails |
| `CoordinatorClass.Coordinator.RemoveOperation` | crates/mecmcp-changeset/src/coordinator.rs:786-795 | the record leaves memory whatever the write does |
| `CoordinatorClass.Coordinator.RetireDue` | crates/mecmcp-changeset/src/coordinator.rs:889-907 | the sweep loop retires exactly the change sets that are due and remembers what each was |
| `CoordinatorClass.Coordinator.DropFinished` | crates/mecmcp-changeset/src/coordinator.rs:909-925 | at capacity exactly the finished change sets are dropped, and returned |
| `CoordinatorClass.Coordinator.UndoSweepInMemory` | crates/mecmcp-changeset/src/coordinator.rs:933-944 | the undo loops restore what the sweep step's undo restores |
| `CoordinatorClass.Coordinator.InsertChangeSet` | crates/mecmcp-changeset/src/coordinator.rs:809-985 | normalise, screen, sweep, persist or undo, admit: the insert step, answer included; operations are untouched |
| `CoordinatorClass.Coordinator.ClaimChangeSetForApply` | crates/mecmcp-changeset/src/coordinator.rs:1084-1152 | check and transition in one section: an approved record becomes one in flight, marked if no handle is expected; a failed write keeps the claim in memory |
| `CoordinatorClass.Coordinator.UpdateChangeSet` | crates/mecmcp-changeset/src/coordinator.rs:1199-1228 | normalise, gate, write, roll back on failure |
| `CoordinatorClass.Coordinator.UpdateChangeSetFrom` | crates/mecmcp-changeset/src/coordinator.rs:1154-1197 | refuses an unknown record and one whose state moved, else updates |
| `CoordinatorClass.Coordinator.RecoverOperations` | crates/mecmcp-changeset/src/coordinator.rs:507-534 | the recovery loop over operations, its flag set if and only if some record changed |
| `CoordinatorClass.Coordinator.RecoverChangeSets` | crates/mecmcp-changeset/src/coordinator.rs:535-576 | the recovery loop over change sets, its flag set if and only if some record changed |
| `CoordinatorClass.Coordinator.Load` | crates/mecmcp-changeset/src/coordinator.rs:487-596 | rewrites the file if and only if something was unsettled, loads the recovered records, and loads nothing when that write fails |
| `Recovery.RecoveryIsExact` | crates/mecmcp-changeset/src/coordinator.rs:507-584 | recovery settles every record (nothing staging, validating or committing; every apply in flight has a handle or says it has none), changes a store if and only if it was unsettled, is idempotent, and keeps every id |
| `OperationTheorems.NoTwoOperationsOnOneDevice` | crates/mecmcp-changeset/src/coordinator.rs:700-752 | in every reachable state no two unfinished operations share a device or an endpoint, in memory or in the file |
| `OperationTheorems.FinishedIsFinal` | crates/mecmcp-changeset/src/operation.rs:834-866 | a committed or discarded operation is never changed by any later call, restart or offline resolution: wherever its id is found again it is the same record |
| `OperationTheorems.ServersKeepFinished` | crates/mecmcp-changeset/src/coordinator.rs:700-795 | every step a server takes from a reachable state leaves finished operations as they are or evicts them, in memory and in the file |
| `OperationTheorems.StopDuringCall` | crates/mecmcp-changeset/src/operation.rs:228-250 | a stop while a stage, commit or rollback call is out brings the operation back indeterminate, with the lock flag set for a stage |
| `OperationTheorems.StopBeforeOutcome` | crates/mecmcp-changeset/src/operation.rs:641-660 | until the outcome is durably written, a restart finds the operation indeterminate, or staged where that is retained, or with the very outcome that reached the file in a write reported as failed; unless finished it blocks its device and endpoint |
| `OperationTheorems.IndeterminateBlocks` | crates/mecmcp-changeset/src/coordinator.rs:722-740 | an indeterminate operation nobody works on stays exactly as it is, every call on it goes no further than reading it, and every reservation of its device or endpoint is refused, until an operator resolves it |
| `OperationTheorems.AttributedBeforeCommit` | crates/mecmcp-changeset/src/operation.rs:570-640 | in every reachable state in which a commit call is out, the file has the operation as committing, with who asked |
| `OperationTheorems.CommitIsRecorded` | crates/mecmcp-changeset/src/operation.rs:641-790 | whatever the others do meanwhile, a commit the device answered and whose outcome is then durably written is on record as answered, in memory and in the file: committed, failed, unknown or still committing, with job, deadline and lock flag |
| `OperationTheorems.UnknownCommitBlocks` | crates/mecmcp-changeset/src/operation.rs:641-755 | after a commit with an unknown outcome, durably written, the operation stays indeterminate, nothing more is done with it and its device and endpoint cannot be reserved, through every call, failure and restart, until an operator resolves it |
| `OperationTheorems.GuardIsExact` | crates/mecmcp-changeset/src/operation.rs:529-550 | a call gets in if and only if the server is up and nobody is at work on the device; a new operation also needs a new id |
| `OperationTheorems.CallGoesOnIff` | crates/mecmcp-changeset/src/operation.rs:834-866 | with the guard held, a diff, validate, commit or discard goes on if and only if the operation is the caller's, on that device, and in one of the states that call is for |
| `OperationTheorems.ResolutionIsExact` | crates/mecmcp-changeset/src/recovery.rs:143-252 | an offline resolution settles an unfinished operation of a stopped server as the operator says, clears its lock flag, and changes nothing else |
| `OperationLocks.LocksRecordedIff` | crates/mecmcp-changeset/src/apply.rs:504-616 | every device lock that may be held is on record, in memory and in the file, in every reachable state, if and only if nothing can be admitted or every flow in use keeps its locks: no apply that takes the configuration lock and, where failed lock or stage calls may leave a lock, no apply and no stage that takes one |
| `OperationMethods.ReservedIff` | crates/mecmcp-changeset/src/coordinator.rs:700-752 | a reservation is taken if and only if there is room once, at capacity, finished operations are dropped, no unfinished operation has the device or the endpoint, and the write is durable |
| `OperationMethods.StageOperation` | crates/mecmcp-changeset/src/operation.rs:108-345 | goes where the protocol's staging thread goes, for every answer and every write; a handle is returned if and only if the reservation, the lock, the check, both marks and the stage went well, and then the record is staged under the new fingerprint; else it is gone, or kept as unknown where the device was touched or stayed locked |
| `OperationMethods.ValidateOperation` | crates/mecmcp-changeset/src/operation.rs:436-513 | goes where the validating thread goes; goes ahead if and only if the operation is the caller's, staged and checked, and marked durably; then it is validated or failed as the device said, in memory and in the file, or still validating if that could not be written |
| `OperationMethods.CommitOperation` | crates/mecmcp-changeset/src/operation.rs:529-790 | goes where the committing thread goes; goes ahead if and only if the operation is the caller's, validated and checked, and marked durably with who asked; then state, job, deadline, details and lock flag are those of the answer, for each of the five answers, in memory and in the file; success if and only if the device reported it and it was written |
| `OperationMethods.DiscardOperation` | crates/mecmcp-changeset/src/operation.rs:807-1000 | goes where the discarding thread goes; goes ahead if and only if the operation is the caller's and neither in the middle of a step, finished nor unknown; it ends discarded if and only if reverted, unlocked, fingerprinted and written, failed if and only if the device refused, else unknown; the lock flag is cleared by a confirmed release alone |
| `ApplyMethods.ApplyChangeSet` | crates/mecmcp-changeset/src/apply.rs:424-720 | from the reservation on, goes where the applying thread goes; it goes ahead if and only if the device was reserved and the change set was approved for it, claimed and linked to this operation, durably; for every answer and every write it states the handle, the operation's record and the change set's; a refused claim leaves the change set as it was or, its write having failed, claimed in memory; no other change set moves |
| `OfflineResolution.StateFile.ResolvePersistedOperation` | crates/mecmcp-changeset/src/recovery.rs:110-252 | succeeds if and only if the id is well formed, the confirmation exact, no server running, the operation known and unfinished and the write durable; then that one record is as the operator said, unlocked, with a note of the state it was in, the report matches it, and nothing else changed; other refusals change nothing |
| `OfflineResolution.ConfirmationIsExact` | crates/mecmcp-changeset/src/recovery.rs:128-142 | a confirmation is good for one operation and one disposition |
| `OfflineResolution.ConfirmationText` | crates/mecmcp-changeset/src/recovery.rs:128-142 | the words of the confirmation |
| `OfflineResolution.ResolvedIs` | crates/mecmcp-changeset/src/recovery.rs:218-235 | the record is finished as the operator says, unlocked, and notes which state was overridden |
| `StateFileProtocol.EveryWriteIsUpToDate` | crates/mecmcp-changeset/src/state_lock.rs:46-98 | with any number of servers and resolvers, whoever is about to replace the file holds a copy nobody else has written behind, and between reading and writing holds exactly the file's contents |
| `StateFileProtocol.OnlyTheServerWrites` | crates/mecmcp-changeset/src/coordinator.rs:463-497 | while a server has the file loaded no other process changes it |
| `StateFileProtocol.ResolutionsLast` | crates/mecmcp-changeset/src/recovery.rs:143-190 | after a successful offline resolution, the file and every copy of it that still has the operation have it exactly as resolved, forever |
| `StateFileProtocol.TheCycleLockKeepsMoving` | crates/mecmcp-changeset/src/recovery.rs:143-190 | the holder of the read-modify-write lock can always move, so the blocking acquisitions cannot deadlock |
| `StateFileProtocol.ResolverSucceeds` | crates/mecmcp-changeset/src/recovery.rs:143-252 | from any state with both locks free, a resolver left alone settles an unfinished operation in the file |
| `StateFileProtocol.ServerLoads` | crates/mecmcp-changeset/src/coordinator.rs:463-596 | from any state with both locks free, a server left alone comes to serve what it recovers from the file |
| `StateFileProtocol.ServerSaves` | crates/mecmcp-changeset/src/coordinator.rs:1256-1267 | what a serving process then writes reaches the file |
| `Json.RoundTrip` | crates/mecmcp-audit/src/canonical.rs:41-77 | parsing a compact rendering gives the value back, for every value and every string |
| `Json.RenderInjective` | crates/mecmcp-audit/src/canonical.rs:41-77 | different values never render alike |
| `Json.EscapeIsExact` | crates/mecmcp-audit/src/canonical.rs:41-77 | what is written for a character, letter for letter: two characters for quote, backslash, newline, return, tab, backspace and form feed, six with lowercase hexadecimal for the other control characters, itself for every other |
| `Json.StringText` | crates/mecmcp-audit/src/canonical.rs:41-77 | a string is written as quotation marks around what is written for each of its characters |
| `Json.ObjectText` | crates/mecmcp-audit/src/canonical.rs:41-77 | an object is its members between braces, colons and commas and no space |
| `Text.LessIff` | crates/mecmcp-audit/src/canonical.rs:48-62 | keys are compared by the first character in which they differ, a prefix first |
| `Canonical.SortNormal` | crates/mecmcp-audit/src/canonical.rs:41-77 | in the canonical form the keys of every object ascend strictly |
| `Canonical.CanonicalReadsBack` | crates/mecmcp-audit/src/canonical.rs:34-77 | the canonical text parses back to the value, up to the order of object members |
| `Canonical.CanonicalFaithful` | crates/mecmcp-audit/src/canonical.rs:34-77 | two values have the same canonical text if and only if they are the same value, whatever order members were inserted in |
| `Canonical.WriteCanonical` | crates/mecmcp-audit/src/canonical.rs:41-77 | the recursive writer appends the canonical text to the shared buffer, and succeeds if and only if no node lies too deep |
| `Canonical.CanonicalJson` | crates/mecmcp-audit/src/canonical.rs:34-38 | succeeds if and only if no node lies more than 128 levels below the root |
| `Canonical.HeightIs` | crates/mecmcp-audit/src/canonical.rs:41-50 | the height that is bounded is how far below the root the lowest node lies |
| `Digests.PreimageDetermines` | crates/mecmcp-changeset/src/digest.rs:36-75 | equal tuple preimages come from the same plan, approval (v4, v5, v6) or waiver (v3), field by field, for arbitrary strings; kinds never coincide |
| `Digests.ApprovalText` | crates/mecmcp-changeset/src/digest.rs:290-400 | what is hashed for an approval of each version, to the letter, absent preview included |
| `Digests.WaiverText` | crates/mecmcp-changeset/src/digest.rs:226-262 | what is hashed for a waiver, to the letter, kind, expiry and ticket included |
| `Digests.PlanText` | crates/mecmcp-changeset/src/digest.rs:36-75 | what is hashed for a plan; without targets it is the four-element encoding unchanged |
| `Digests.OneDigestOneApproval` | crates/mecmcp-changeset/src/digest.rs:342-400 | one approval digest of version 5, or of the keyed version 6, stands for one change set, plan, preview, owner, approver and moment |
| `Digests.LegacyUnambiguousIff` | crates/mecmcp-changeset/src/digest.rs:174-193 | the bar-joined approval preimage determines its fields if and only if owner and approver are free of bars |
| `Digests.LegacyWaiverDetermines` | crates/mecmcp-changeset/src/digest.rs:206-224 | the bar-joined waiver preimage determines its fields whatever the owner contains |
| `Digests.LegacyKindsApart` | crates/mecmcp-changeset/src/digest.rs:174-224 | no bar-joined approval is a bar-joined waiver |
| `Digests.LegacyAndTupleApart` | crates/mecmcp-changeset/src/digest.rs:174-262 | no bar-joined preimage is a tuple preimage |
| `Digests.ApprovalDigestLegacy` | crates/mecmcp-changeset/src/digest.rs:174-193 | feeding the hasher field by field hashes the bar-joined preimage |
| `Digests.BytesHex` | crates/mecmcp-changeset/src/digest.rs:152-159 | the loop writes the hexadecimal form |
| `Digests.HexReadsBack` | crates/mecmcp-changeset/src/digest.rs:152-159 | two lowercase hexadecimal characters a byte, from which the bytes are recovered |
| `Evidence.HashDetermines` | crates/mecmcp-audit/src/evidence.rs:298-308 | a record is determined by its hash: kind, every field, metadata, envelope and link |
| `Evidence.HashableIff` | crates/mecmcp-audit/src/evidence.rs:298-308 | a record can be hashed if and only if its metadata nests less than 128 levels deep |
| `Evidence.RecordPairs` | crates/mecmcp-audit/src/evidence.rs:298-308 | what is hashed of a record, name by name and in order, for each of the four kinds |
| `EvidenceChain.AppendOk` | crates/mecmcp-audit/src/evidence.rs:347-438 | appending keeps a segment linked and adds exactly the record given, envelope filled in; a record is accepted if and only if what it says of its envelope is blank or right, it names no link, and its metadata is shallow |
| `EvidenceChain.SameHeadSameHistory` | crates/mecmcp-audit/src/evidence.rs:347-455 | of two linked record lists with one head, one is a suffix of the other |
| `EvidenceChain.HeadDeterminesChain` | crates/mecmcp-audit/src/recorder.rs:30-38 | two lists linked from the empty start with one head are equal, so any edit, drop, insertion or reordering changes the head |
| `EvidenceTheorems.NothingLostOrReordered` | crates/mecmcp-audit/src/recorder.rs:597-736 | over any interleaving of appends, rollovers, flushes and refusals, passed, in-flight, closed and open segments hold exactly the records appended, in order, numbered consecutively from 0, every record linked to the one before across segments |
| `EvidenceTheorems.IntentBeforeEffect` | crates/mecmcp-audit/src/recorder.rs:493-517 | a device commit is issued only once an apply intent with its request id is in the outbox, with any number of concurrent commits and a spool that may refuse any segment |
| `EvidenceTheorems.AcceptedIntentTakesEffect` | crates/mecmcp-audit/src/recorder.rs:493-517 | from any state in which nobody is flushing, an intent whose segments are all accepted leads to its commit being issued |
| `EvidenceTheorems.OutboxIsOneChain` | crates/mecmcp-audit/src/recorder.rs:100-129 | over any sequence of runs the outbox lines are segments of one chain, in order, repeats adjacent, and the head the next run resumes from is its end |
| `EvidenceTheorems.NeverForks` | crates/mecmcp-audit/src/service.rs:159-177 | two outbox lines that name the same predecessor are the same segment, across any number of runs and stops |
| `EvidenceTheorems.NoGapUnlessADrainFailed` | crates/mecmcp-audit/src/service.rs:331-361 | if no drain met a refusal, every outbox line repeats the one before or continues from its head |
| `EvidenceTheorems.AppendIsExact` | crates/mecmcp-audit/src/recorder.rs:684-736 | a record joins the open segment; the one that fills it closes it under its own hash, and the next segment starts from there |
| `RecorderClass.EvidenceRecorder.Roll` | crates/mecmcp-audit/src/recorder.rs:697-736 | closes the open segment and starts the next from its head; an empty one stays open |
| `RecorderClass.EvidenceRecorder.AppendRecord` | crates/mecmcp-audit/src/recorder.rs:684-695 | the append step, rolling a full segment, dropping a rejected record |
| `RecorderClass.EvidenceRecorder.FlushAfterAppend` | crates/mecmcp-audit/src/recorder.rs:597-635 | offers every held segment in order up to the first refusal, and puts that one and all later ones back in front; succeeds if and only if none was refused |
| `RecorderClass.EvidenceRecorder.Proposed` | crates/mecmcp-audit/src/recorder.rs:374-403 | remembers what was proposed and adds exactly that proposal to what is held |
| `RecorderClass.EvidenceRecorder.Decided` | crates/mecmcp-audit/src/recorder.rs:410-433 | adds the decision under the proposal's device and diff; a change turned down is forgotten |
| `RecorderClass.EvidenceRecorder.ApplyIntent` | crates/mecmcp-audit/src/recorder.rs:493-517 | adds this request's intent, with its change set, device, principal, time and the diff of the proposal, and flushes: on success everything held was accepted, in order; else all before the refused segment was, and that and the rest are still held |
| `RecorderClass.EvidenceRecorder.ResultReceipt` | crates/mecmcp-audit/src/recorder.rs:542-579 | adds the outcome under who executed and the diff of the proposal, forgets the change, and flushes likewise |
| `RecorderClass.IntentNamesTheProposedDiff` | crates/mecmcp-audit/src/recorder.rs:493-517 | the diff in an intent is the one proposed, unless the change was proposed again or finished meanwhile, or pushed out by others |
| `RecorderClass.EvidenceRecorder.SpoolEverything` | crates/mecmcp-audit/src/service.rs:331-361 | offers every held segment once and in order, whatever is refused, and reports the first refusal |
| `RecorderClass.EvidenceRecorder.Remember` | crates/mecmcp-audit/src/recorder.rs:638-658 | the loop that makes room and the insertion are the cache's remember |
| `RecorderClass.EvidenceRecorder.Forget` | crates/mecmcp-audit/src/recorder.rs:661-668 | removes the entry and its place in the order, and nothing else |
| `ContextCache.BoundedAndInOrder` | crates/mecmcp-audit/src/recorder.rs:638-668 | after any sequence of proposals and removals the order has no repeats and exactly the map's keys, and there are at most 1024 |
| `ContextCache.ForgetIs` | crates/mecmcp-audit/src/recorder.rs:661-668 | forgetting takes one change out of the map and the order, and leaves the others as and where they are |
| `ContextCache.ProposalStaysAvailable` | crates/mecmcp-audit/src/recorder.rs:638-676 | what a first or repeated proposal said stays available until it is forgotten, proposed again, or the changes behind it and the further new ones reach 1024; proposing again does not renew a change's place |
| `ContextCache.SurvivesIff` | crates/mecmcp-audit/src/recorder.rs:638-668 | a tracked change survives a run that does not touch it if and only if the evictions and the removals in front of it are no more than the changes that were in front of it, and then keeps its context |
| `DeviceLog.ParseDeviceLog` | crates/mecmcp-audit/src/device_log.rs:253-306 | the line loop returns what looking back from each line finds |
| `DeviceLog.ParserLooksBack` | crates/mecmcp-audit/src/device_log.rs:253-306 | each line that names a request gives one reference: its id, the last commit at or before it, and the last device named since that commit |
| `DeviceLog.IdInIs` | crates/mecmcp-audit/src/device_log.rs:284-295 | the id is the first word before any comma |
| `DeviceLog.ReadsBackIff` | crates/mecmcp-audit/src/device_log.rs:253-306 | a comment reads back on every commit, device and id if and only if what precedes its id names no id and no device |
| `DeviceLog.CommentText` | crates/mecmcp-audit/src/attribution.rs:124-135 | the composed comment, part by part |
| `DeviceLog.ComposedPlainIff` | crates/mecmcp-changeset/src/commit_metadata.rs:106-125 | a composed comment names no other id and no device if and only if none of its texts does, the provider's in lower case |
| `DeviceLog.ComposedReadsBackIff` | crates/mecmcp-changeset/src/commit_metadata.rs:106-125 | a composed comment reads back on every commit if and only if none of its texts names an id or a device, the provider's in lower case |
| `DeviceLog.ComposedLogsReadBackIff` | crates/mecmcp-audit/src/device_log.rs:253-306 | for any set of single-line wordings, every log composed with them, written as text, split into lines and parsed, gives back its devices, commits and request ids in order, if and only if none of their texts names an id or a device |
| `DeviceLog.ShoutedProviderIsReadAsAnId` | crates/mecmcp-audit/src/attribution.rs:124-135 | one agent whose provider, free of both patterns, is put in lower case and then read as the id |
| `Base64Url.Base64UrlNoPad` | crates/mecmcp-auth/src/token.rs:111-131 | the chunk loop computes the encoding |
| `Base64Url.DecodesBack` | crates/mecmcp-auth/src/token.rs:111-131 | a decoder recovers every byte string, and every character is in the alphabet |
| `Base64Url.EncodedLength` | crates/mecmcp-auth/src/token.rs:111-131 | the length is four thirds of the input's, rounded up, hence 43 for 32 bytes |

## Left out

- A coordinator without a state file; the size limit on the file; the digest checks made while a file is read,
  which refuse a file that holds a plan its digest does not match.
- Endpoint canonicalisation: endpoints are opaque strings.
- The raw update and remove of operations by vendor-specific recovery after a load.
- Requests dropped in the middle of a call: a thread runs to its end or the process stops.
- The change-set side of an apply inside the operation protocol's runs: whether its claim succeeded is an answer
  to the thread there; `ApplyMethods` makes the claim, alone on one coordinator.
- The configuration authority recorded with an operation.
- The diff call's own result; it changes no record.
- Reading the actions out of a change set, and the refusal of plans without a policy signature.
- Whether operator waivers should apply outside lab mode.
- A recorder without a spool, and the record of a waived approval.
- The Junos native log parser and format detection.
- A drain that overlaps appends or commits: in the evidence protocol a drain starts when no thread is running.
- Delivery of the outbox to its destination, the delivery ledger, forwarding, signing and checkpoints; torn
  outbox lines.
- White space, lower case and string lengths are those of ASCII characters, not of Unicode or of bytes.
- Numbers in JSON are their printed tokens.
- SHA-256 and HMAC: injective functions.
- DeviceLog.ComposedLogsReadBackIff: wordings without line breaks; a composed comment is one line of the log.

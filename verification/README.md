# UAWP verification

A Dafny 4.11 model of the UAWP workspace tool, proved with the Dafny verifier alone (`dafny verify dfyconfig.toml`).
Most of it is about one thing: the write-ahead-log transaction that every mutation goes through, and what is left on
disk when it is cut off.

**The engine.** `engine.dfy` describes the disk (workspace entries, lock, live pointer, bundles) and what each engine
call does to it, one primitive write at a time. A `Machine` has `left` more writes and then refuses the next one;
quantifying over `left` is quantifying over every point at which a call can stop, with the deferred unlock run.
`workspace.dfy` and `recovery_workspace.dfy` hold the engine as it runs: classes whose fields are updated in place,
with the loops of Apply, staging, evidence gathering and recovery, each proved to do exactly what `engine.dfy` says.
The results about runs are then lemmas over those functions: `apply_proofs.dfy` (Apply), `recovery_proofs.dfy`
(classification), `redo_undo_proofs.dfy` and `recovery_outcome.dfy` (one recovery), `runs.dfy` (any number of them),
`entries_proofs.dfy` (whole entries, permissions included), `budgets.dfy` (the same call with more or fewer writes),
`completion.dfy` and `bootstrap.dfy` (where every road ends, what goes through, and what cannot), `upgrade.dfy` (the upgrade
plan), `stale_recovery.dfy` (recoveries overtaken by other recoveries).

**Ownership.** `ownership.dfy`, `ownership_codec.dfy` and `timestamps.dfy` are the record, its document and RFC 3339
times (section 5.6); `lifecycle.dfy` builds the plans of acquire, release, handoff, stale recovery and context sync
from the files; `ownership_runs.dfy` composes them with the engine: over any run of plans and recoveries the ownership
moves forward only, its bytes never recur, and the context changes only under the claim its plan was made for.
`interleaving.dfy` runs any number of Apply calls on one shared disk, write by write, in any schedule: the disk is always
that of the calls one after the other in lock order, so the same claims hold of concurrent calls; `readiness.dfy`,
`examples.dfy`, `examples_cut.dfy`, `examples_stale.dfy` and `examples_purge.dfy` show that the workspaces and transactions
these theorems speak about exist.

**The rest.** Canonical plans (`planning.dfy`), bundle validation, classification and the two recovery lists
(`transactions.dfy`), managed blocks and the consumers that share one (`blocks.dfy`, `managed_entry.dfy`, with the checks of
entry files in `native.dfy` and `utf8.dfy`), import lines
(`imports.dfy`), the migration registry and the 1.1 to 1.2 step (`registry.dfy`, `migration_v1_2.dfy`), the generated
checkpoint identifier (`checkpoint_id.dfy`), export archives (`archive.dfy`), and purge with its abort and cleanup
(`purge.dfy`, `purge_proofs.dfy`, `purge_completion.dfy`, `purge_workspace.dfy`).

**Assumptions.** SHA-256 is a free, hence injective, constructor, and so are plan, transaction and archive identities and
the fingerprint of a listing;
each primitive write (create if absent, replace, remove, rename) is atomic; nothing but UAWP writes to the workspace; a
recovery is planned from the state it is applied to, as the command line does (`StaleRecoveries` says exactly what happens
otherwise). `Invariants.WellFormed` collects what
planners guarantee: created files have the before hash MISSING, sort keys are distinct, and the migration receipt is
neither target nor input.

**Where the code does less than its documentation.** The model follows the code; each of these is proved, with the
exact condition:

- Recovery classifies a transaction as needing a human although every path is before or after, exactly when a file to
  be backed up did not have mode 0600 or an outside input reads differently to recovery (a directory input always
  does) and not everything is published (`RecoveryProofs.ClassifiedByPlan`; one such transaction, left by a cut-off Apply,
  is `CutExamples.ManualTransactionExists`).
- A rollback that would have to remove a directory is refused with nothing changed (`RecoveryOutcomes.RecoveryKeeps`,
  at `CutExamples.RefusedRollbackExists`).
- A migration that has written its receipt and stopped before the live pointer was cleared can never be settled by attempts
  in another second: rollback is refused because everything is published, continue because the new receipt has another
  time (`Completion.ReceiptBlocksRecovery`). Every plan that writes a receipt and is otherwise in order has a write at
  which Apply leaves it so (`Completion.ApplyCanStrandReceipt`), and then it stays so (`Completion.StrandedStays`); every
  upgrade with nothing in its way is such a plan (`Upgrades.UpgradeCanStrand`, at `Upgrades.StrandedUpgradeExists`).
- A recovery loads its evidence before it takes the lock, and behind the lock checks only the paths on its own list. Of two
  recoveries in opposite directions that both got that far, the second undoes or redoes part of what the first settled, and
  with no transaction left: the workspace is on neither side exactly when something but not everything had been published
  (`StaleRecoveries.OppositeRecoveriesMix`). A recovery plan that is out of date is accepted, and reported as done, exactly
  when the transaction has not moved its way since (`StaleRecoveries.StalePlanIsAccepted`, at
  `StaleExamples.SplitTransactionExists`); the command line makes the plan anew.
- On an initialised workspace without `.uawp/recovery`, a plan that creates that directory or binds it as missing never
  completes, because staging makes it first (`Completion.ApplyGoesThroughExactly`; without `.uawp` the condition is that of
  `Bootstraps.BootstrapGoesThroughExactly`). Every upgrade of such a workspace is
  such a plan (`Upgrades.UpgradeNeedsRecoveryRoot`, at `Upgrades.StuckUpgradeExists`).
- A change that leaves a file's content as it is and only sets its mode is never redone or undone: `Completion.Agree` and
  `Completion.BackAtStart` are exact everywhere but for the permissions of such files.
- A tombstone is never cleaned up when the manifest of its export is longer than the 1 MiB that verification reads back, its
  last line feed aside, or holds a name that is not valid UTF-8 (`PurgeCompletion.CutPurgeIsCleanable`, at
  `PurgeExamples.StuckTombstoneExists`).
- An ownership acquired inside the first second of year 1 is written and then no longer reads
  (`OwnershipCodec.DecodeUndoesEncode`).
- The planners refuse to read an entry file over 1 MiB, but not to write one: when the block takes an entry over that size,
  no later add or remove looks at it, and the original never comes back through the tool (`ManagedEntries.LargeEntryIsStuck`,
  at `ManagedEntries.StuckEntryExists`; the exact condition is that of `ManagedEntries.ConsumersComeAndGo` and
  `ManagedEntries.ManagedIsReadable`).
- An entry file that was there but empty is deleted with its last consumer (`ManagedEntries.EmptyFileIsDeleted`), and a
  block put behind content that ends in a bare CR cannot be removed again (`Blocks.RemoveUndoesUpsert`).
- Upserting an import is idempotent, and removal restores the bytes, only behind balanced fences
  (`Imports.UpsertIsIdempotentIffBalanced`, `Imports.RemoveUndoesInsert`).
- A tombstone whose removal was cut off after anything but the lock was gone is refused by every later cleanup; the
  archive still holds everything (`PurgeProofs.CutRemovalBlocksCleanup`, `PurgeProofs.StateIsNeverLost`).

## Model

| member | source | states |
|---|---|---|
| Planning.Restore | internal/plan/change.go:180-229 | A persisted plan is accepted exactly when identity, every change and the recomputed ID are in order; the result is the plan of those fields, and a rejected index names a change that really is invalid. |
| Planning.CanonicalIsIdempotent | internal/plan/change.go:134-160 | Ordering a plan's changes and inputs again changes nothing, so every constructed plan is its own canonical form. |
| Planning.PlanIgnoresGivenOrder | internal/plan/change.go:134-160 | With distinct sort keys the plan and its ID do not depend on the order in which changes and inputs are given. |
| Planning.RestoreUndoesPersisted | internal/plan/change.go:168-197 | Restoring what was persisted gives back the same changes, inputs, metadata and ID. |
| Planning.TamperedPlanIsRejected | internal/plan/change.go:180-229 | A record that claims a plan's ID and restores at all restores to that plan, contents included: any altered hashed field or content is rejected. |
| Transactions.ValidateJournal | internal/transaction/types.go:128-165 | The validation loop with its seen set accepts exactly the journals whose header and actions are in order and whose paths are pairwise distinct. |
| Transactions.ValidateBundle | internal/transaction/types.go:93-126 | A bundle is valid exactly when pointer, journal, plan and receipt are and they tell the same story. |
| Transactions.Classify | internal/transaction/classify.go:59-105 | COMPLETE iff the bundle is valid, has actions and all are after; BOTH iff valid, not COMPLETE, every path on one side, backups good and outside inputs equal; MANUAL otherwise, and never anything else; the evidence is true action by action. |
| Transactions.MatchesMeansState | internal/transaction/classify.go:107-131 | For every known kind exactly one live state counts as before and exactly one as after. |
| Transactions.LabelsNeverMatter | internal/transaction/classify.go:59-105 | Changing valid action labels to other valid ones never changes a classification. |
| Transactions.RollbackChanges | internal/transaction/recovery.go:10-41 | Offered exactly for BOTH; the list undoes, last action first, every path that has left its before state and no other. |
| Transactions.ContinueChanges | internal/transaction/recovery.go:43-65 | Offered exactly for BOTH and COMPLETE; the list redoes every path that is not yet after and no other, and its neither-side error cannot occur. |
| StagingProofs.StagingIsAllOrNothing | internal/workspace/transaction_apply.go:24-173 | Staging, stopped anywhere, shows nothing but the recovery directory, or it makes the transaction live with plan, journal and every backup in its bundle and no other bundle touched. |
| StagingProofs.StagingGoesThrough | internal/workspace/transaction_apply.go:24-173 | With valid records, readable targets and enough writes staging succeeds. |
| Workspaces.Workspace.StageActions | internal/workspace/transaction_apply.go:87-116 | The backup loop stops at the first unreadable or changed target, copies every update and delete target with mode 0600, and records hash and original mode per action. |
| Workspaces.Workspace.MarkBootstrap | internal/workspace/transaction_apply.go:124-130 | Exactly the bootstrap directories' actions are marked VERIFIED from the start. |
| Workspaces.Workspace.PublishPointer | internal/workspace/transaction_apply.go:131-171 | The journal is on disk before the live pointer, and on a bootstrap the namespace appears with the live pointer in one rename. |
| Workspaces.Workspace.PrepareDurableTransaction | internal/workspace/transaction_apply.go:24-173 | The staged journal is the one the plan and the files determine, and on any fault the bundle directory is gone again. |
| Workspaces.Workspace.AcquireTransactionLock | internal/workspace/apply.go:136-167 | A refused acquisition leaves the disk as it was, lock included; a granted one changes nothing but the lock, which nobody held, with no recovery and no purge pending. |
| Workspaces.Workspace.VerifyInputsExcept | internal/workspace/apply.go:169-177 | True exactly when every input outside the skipped paths still has its bound hash, absence or kind. |
| Workspaces.Workspace.VerifyBeforeState | internal/workspace/apply.go:266-294 | True exactly when every change finds its target absent, or a file with the before hash. |
| Workspaces.Workspace.PublishChange | internal/workspace/apply.go:84-96 | A refusal changes nothing; a success moves only the path of the change and leaves it after; a create found nothing there, an update exactly the before hash, a delete something. |
| Workspaces.DurableTransaction.Transition | internal/workspace/transaction_apply.go:175-186 | A label moves only along the allowed transitions, and memory and bundle hold the same journal afterwards. |
| Workspaces.DurableTransaction.WriteReceipt | internal/workspace/transaction_apply.go:225-255 | The migration receipt lists every path and after hash; an identical one is accepted and any other existing entry is a collision. |
| Workspaces.DurableTransaction.Complete | internal/workspace/transaction_apply.go:188-223 | The live pointer goes only once the transaction receipt is in its bundle; an existing receipt is kept and refused; journal, backups and other bundles are never touched. |
| Workspaces.ApplyChanges | internal/workspace/apply.go:66-118 | The publication loop with its applied paths and journal does exactly the steps of the engine, stopping at the first refusal. |
| Workspaces.Apply | internal/workspace/apply.go:38-134 | The whole call: nothing without approval, and the lock it took is released however it ends. |
| ApplyProofs.LoopKeeps | internal/workspace/apply.go:66-118 | From any point of the loop: the evidence stays intact, the labels stay true of the files, the published changes are the first ones in order, no label move is refused, and a foreseen plan stops only for lack of writes. |
| ApplyProofs.CompletionKeeps | internal/workspace/transaction_apply.go:188-223 | Completion, stopped anywhere, leaves every path after and the evidence in place until the live pointer goes. |
| ApplyProofs.ApplyStopsSafely | internal/workspace/apply.go:38-134 | Wherever Apply stops: no pointer and no target changed; or a live transaction with intact evidence, every path before or after, true labels and an ordered prefix published; or finished with every change in place and nothing else touched. |
| RecoveryProofs.SnapshotLoads | internal/workspace/transaction_recovery.go:149-232 | For a live transaction the evidence loads exactly when every outside input path can be resolved, and it is the transaction's own. |
| RecoveryProofs.BackupsAreObserved | internal/workspace/transaction_recovery.go:199-212 | A backup passes exactly when its original had mode 0600, and its content is the before content. |
| RecoveryProofs.ClassifiedByPlan | internal/workspace/transaction_recovery.go:149-232 | The exact classification of every unfinished transaction in terms of the files before Apply: COMPLETE iff all after; otherwise BOTH iff backups' originals had mode 0600 and outside inputs read the same, MANUAL iff not. |
| RedoUndoProofs.UndoIsInverse | internal/transaction/recovery.go:16-38 | The undo of any published change but a made directory expects its after state and restores its before state. |
| RedoUndoProofs.RedoMovesForward | internal/workspace/transaction_recovery.go:76-102 | Publishing a redo list, stopped at any write, moves one more path to after per write, in plan order, touches nothing else, and ends with all after. |
| RedoUndoProofs.UndoMovesBack | internal/workspace/transaction_recovery.go:76-102 | Publishing an undo list, stopped at any write, moves one more path back per write, from the end, touches nothing else, and ends with all before. |
| RecoveryOutcomes.RecoveryIsPlanned | internal/workspace/transaction_recovery.go:36-55 | A recovery can be planned exactly when controller, reason, inputs and classification allow it, and canonical ordering leaves its list as it is. |
| RecoveryOutcomes.RollbackPassesBefore | internal/workspace/apply.go:266-294 | A rollback passes its before check exactly when no directory has been made. |
| RecoveryOutcomes.RecoveryKeeps | internal/workspace/transaction_recovery.go:57-147 | One recovery, cut off at any write: the transaction stays recoverable or is over with every path on the chosen side; the prefix moves one way; a refused one changes nothing; with enough writes it goes through iff offered and unobstructed; each write brings one path closer. |
| Runs.AttemptsKeep | internal/workspace/transaction_recovery.go:57-147 | Any number of interrupted recoveries in any mix: recoverable or wholly on one side, no other bundle touched, the published changes always a prefix of the plan, extended by continues and shrunk by rollbacks. |
| Runs.AllAfterIsFinal | internal/transaction/classify.go:93-95 | Once every change is published no sequence of recoveries ever takes one back. |
| Runs.ApplyUnlocks | internal/workspace/apply.go:47-52 | Apply never leaves a lock behind, wherever it stops. |
| Runs.NeverManual | internal/transaction/classify.go:59-105 | After any run a human is needed iff not all is published and the plan was not recovery-safe before Apply. |
| Runs.AnyRunIsSafe | internal/workspace/apply.go:38-134 | Apply cut off anywhere and then any recoveries cut off anywhere: untouched, recoverable, or wholly before or after; other bundles are never touched. |
| EntryProofs.AttemptStaysWhole | internal/workspace/transaction_recovery.go:57-147 | One recovery, cut off at any write, leaves at every path exactly one of its two entries, permissions included, and the migration receipt's path alone until everything is published. |
| EntryProofs.AttemptsStayWhole | internal/workspace/transaction_recovery.go:57-147 | The same of any number of recoveries in any mix, each cut off at any write. |
| EntryProofs.ApplyIsWhole | internal/workspace/apply.go:38-134 | The same of Apply, cut off at any write. |
| Completion.ContinueReachesApply | internal/workspace/transaction_recovery.go:76-102 | Apply cut off at any write, then any attempts cut off anywhere, the last of which continues to the end: the workspace has the entries of an uninterrupted Apply everywhere but at the dated migration receipt, permissions included but for silent changes. |
| Completion.RollbackReachesStart | internal/workspace/transaction_recovery.go:57-147 | The same run ended by a rollback: every entry is as before Apply, the receipt's path included, but for staging's directories and the permissions of silent changes. |
| Completion.RecoverySettles | internal/workspace/transaction_recovery.go:57-147 | From any unfinished disk of a recovery-safe plan one recovery with enough writes settles the transaction: a continue with everything published, a rollback with the workspace as before Apply, permissions and the receipt's path included. |
| Completion.ReceiptFitsItsSecond | internal/workspace/transaction_apply.go:247-254 | A written migration receipt is accepted again exactly within its own second. |
| Completion.ReceiptBlocksRecovery | internal/workspace/transaction_recovery.go:109-118 | After a stop between migration receipt and pointer removal no sequence of attempts in other seconds ever settles the transaction. |
| Completion.ApplyCanStrandReceipt | internal/workspace/transaction_apply.go:200-222 | For every foreseen plan in order that is due a migration receipt there is a write at which Apply stops with everything published, the receipt written and the live pointer out. |
| Completion.StrandedStays | internal/workspace/transaction_recovery.go:109-118 | From there no sequence of attempts outside the receipt's own second ever clears the live pointer. |
| Completion.ApplyGoesThroughExactly | internal/workspace/transaction_apply.go:58-70 | With everything in order on an initialised workspace Apply completes iff the plan did not count on the recovery directory being missing. |
| Completion.UnforeseenNeverCompletes | internal/workspace/apply.go:78-80 | A plan that did count on it never completes, in order or not, whatever the budget and the instant. |
| Bootstraps.BootstrapGoesThroughExactly | internal/workspace/transaction_apply.go:24-173 | With everything in order on a workspace without .uawp, Apply completes iff no input is a directory staging makes, but for those the plan's first changes make. |
| StaleRecoveries.OvertakenRecovery | internal/workspace/transaction_recovery.go:57-147 | A recovery with list and evidence from an earlier disk is refused with nothing changed iff a path on its list has moved or a made directory is on it; otherwise it moves exactly the listed paths, and the live pointer is gone. |
| StaleRecoveries.OppositeRecoveriesMix | internal/workspace/transaction_recovery.go:61-73 | Of two recoveries in opposite directions that loaded their evidence before either took the lock, the second leaves what was published before and the rest after: on one side iff nothing or everything was published. |
| StaleRecoveries.SameRecoveryIsHarmless | internal/workspace/transaction_recovery.go:61-73 | In the same direction the second fails and leaves every path where the first took it. |
| StaleRecoveries.StalePlanIsAccepted | internal/workspace/transaction_recovery.go:65-68 | A recovery plan applied after any other cut-off attempts goes through iff the transaction has not moved its way since, and leaves on the other side exactly what has moved the other way. |
| StaleExamples.SplitTransactionExists | internal/workspace/transaction_recovery.go:65-68 | A rollback planned before the first publication and applied after it is reported as done, with the workspace on neither side and no live pointer. |
| Upgrades.UpgradeNeedsRecoveryRoot | internal/workspace/upgrade.go:28-127 | An upgrade of an initialised workspace never completes without the recovery directory, and with it goes through when nothing else is in the way. |
| Upgrades.UpgradeIsReady | internal/workspace/upgrade.go:66-127 | An upgrade plan on an unhindered workspace passes every check Apply makes before it publishes. |
| Upgrades.UpgradeCanStrand | internal/workspace/transaction_apply.go:200-222 | Every unhindered upgrade with the recovery directory has a write at which it stops with the live pointer out, and no attempts in other seconds ever clear it. |
| Upgrades.StuckUpgradeExists | internal/migration/v1_0_to_v1_1.go:15-42 | A 1.0.0 workspace with a released owner and no recovery directory has an upgrade that passes all those checks and never completes. |
| Upgrades.StrandedUpgradeExists | internal/workspace/transaction_apply.go:247-254 | The same workspace with the recovery directory: its upgrade goes through, and can be stranded. |
| Budgets.LoopRepeats | internal/workspace/apply.go:66-118 | What the publication loop costs depends on the disk alone: with any budget that covers it, it does the same. |
| Budgets.BodyGrows | internal/workspace/apply.go:38-134 | Apply cut off one write later has published at least as many of the first changes. |
| RecoveryWorkspaces.ObserveActions | internal/workspace/transaction_recovery.go:199-213 | The loop's path map and backup map show every action path as it is and every recorded copy with its checks. |
| RecoveryWorkspaces.ObserveInputs | internal/workspace/transaction_recovery.go:214-230 | The loop observes exactly the inputs no action changes; a directory reads as unsafe. |
| RecoveryWorkspaces.LoadTransactionSnapshot | internal/workspace/transaction_recovery.go:149-232 | Evidence is returned only for a valid bundle of this workspace, and it is complete. |
| RecoveryWorkspaces.PlanTransactionRecovery | internal/workspace/transaction_recovery.go:36-55 | The plan comes from the loaded evidence and the list its action calls for, or the classification that forbids it. |
| RecoveryWorkspaces.PublishRecovery | internal/workspace/transaction_recovery.go:76-102 | The loop publishes and checks the list one change at a time and stops at the first refusal. |
| RecoveryWorkspaces.ApplyTransactionRecovery | internal/workspace/transaction_recovery.go:57-147 | The call refuses changed evidence before taking the lock and releases the lock however it ends. |
| RecoveryWorkspaces.RecoverTransaction | internal/cli/maintenance.go:216-244 | Planning and applying in one go: the plan is always made from the workspace it is applied to. |
| Ownerships.TransitionsClimb | internal/core/ownership_transition.go:18-50 | Acquire, release and stale recovery each move the pair of generation and status up by exactly one step, between valid records. |
| Ownerships.OldActorsAreFenced | internal/core/ownership.go:81-97 | No actor of a generation the ownership has passed is accepted. |
| Ownerships.GatesAlternate | internal/core/ownership_transition.go:18-50 | Acquire and release never both apply; what acquire grants is exactly the requester's claim, and release ends it. |
| Ownerships.ResumeAgreesWithActorCheck | internal/workspace/lifecycle.go:69-99 | Resume says "owned by caller" to exactly the actors that pass the check before shared writes. |
| Timestamps.ParseUndoesFormat | internal/core/ownership.go:99-114 | A written timestamp reads back as the same time and offset, cut to the second. |
| OwnershipCodec.DecodeOwnership | internal/core/ownership_codec.go:20-80 | The scan loop over the document fills the field map line by line, refusing unknown, duplicate, malformed, overlong and missing fields. |
| OwnershipCodec.DecodeUndoesEncode | internal/core/ownership_codec.go:20-95 | Writing and reading any valid record gives it back with fields trimmed and times cut to the second, any 64-bit generation included, except a claim of the zero second, which no longer reads. |
| OwnershipCodec.EncodeIsInjective | internal/core/ownership_codec.go:82-95 | On trimmed records with whole seconds reading is exact and no two records share a document. |
| MigrationV12.Plan | internal/migration/v1_1_to_v1_2.go:18-49 | The step plans its one change only for a 1.1 snapshot whose bound hash matches and whose ownership is RELEASED. |
| MigrationV12.DecodeLegacyOwnership | internal/migration/v1_1_to_v1_2.go:58-121 | A document is read exactly when it has the six old fields, once each and no other, and they spell a record in order (released iff it has a release time, which is not before its acquisition), and then as that record, without session and with generation 0. |
| MigrationV12.LegacyDocumentReads | internal/migration/v1_1_to_v1_2.go:58-121 | Every record of the old format has a document that reads back as the record, to the second. |
| MigrationV12.MigrationKeepsMeaning | internal/migration/v1_1_to_v1_2.go:18-121 | Whenever the step plans a change, the new decoder reads in the new document what the old one read in the old: same owner, agent, purpose and times to the second, no session, generation 0, so the next acquisition is generation 1. |
| Registries.Register | internal/migration/registry.go:41-59 | The loop accepts exactly step lists that go up and share no source, and registers every one of them. |
| Registries.NewRegistry | internal/migration/registry.go:32-77 | Same for any given order, and the cycle error is never returned. |
| Registries.FollowsToEnd | internal/migration/registry.go:60-75 | The walk from any source ends without meeting a version twice. |
| Registries.RegistryIsDetermined | internal/migration/registry.go:32-77 | The same steps in any order give the same registry. |
| Registries.Resolve | internal/migration/registry.go:79-114 | Returns a chain from source to target exactly when there is one, always ends, and never reports a cycle. |
| Registries.ChainClimbs | internal/migration/registry.go:79-114 | Every returned chain has matching ends and strictly increasing versions by numeric precedence. |
| Registries.ChainIsUnique | internal/migration/registry.go:79-114 | Between two versions there is at most one chain. |
| CheckpointIDs.Slug | internal/cli/lifecycle.go:39-52 | The loop with its flag and cut-off keeps letters and digits and joins the rest by single hyphens, up to thirty bytes. |
| CheckpointIDs.GeneratedCheckpointID | internal/cli/lifecycle.go:34-58 | For every label and time in any zone: the UTC time in front and the random bytes behind; at most 63 bytes with a four-digit UTC year; rejected as a milestone exactly when the UTC year is negative. |
| CheckpointIDs.InUTCIsSameInstant | internal/cli/lifecycle.go:57-57 | The conversion to UTC keeps the instant, across days, months and years. |
| CheckpointIDs.PlainLabelIsKept | internal/cli/lifecycle.go:39-52 | A short label of lowercase letters and digits is its own slug. |
| CheckpointIDs.HyphenatedIsPattern | internal/workspace/checkpoint.go:22-31 | The milestone pattern as runs joined by single hyphens equals its character-by-character description. |
| CheckpointIDs.RandomBytesSeparate | internal/cli/lifecycle.go:57-57 | Different random bytes give different identifiers, whatever labels and times. |
| Lifecycle.AcquireMovesOwner | internal/workspace/lifecycle.go:29-67 | An acquire plan is one transition of the record it read, bound to that record's bytes. |
| Lifecycle.ReleaseMovesOwner | internal/workspace/lifecycle.go:34-67 | The same for release. |
| Lifecycle.HandoffMovesOwner | internal/workspace/handoff.go:21-58 | A handoff publishes the ownership last, binds the bytes it read, and names the actor who holds that claim. |
| Lifecycle.StaleRecoveryMovesOwner | internal/workspace/recover.go:13-46 | A stale recovery publishes the ownership last and binds the bytes it read. |
| Lifecycle.SyncKeepsOwner | internal/workspace/context.go:15-46 | A context sync leaves the ownership alone, binds it, and names the actor who holds it. |
| OwnershipRuns.PlannersAreAllowed | internal/workspace/lifecycle.go:38-67 | Every plan of the five ownership commands is of the kind the run theorems are about. |
| OwnershipRuns.EventAdvances | internal/workspace/apply.go:38-134 | One Apply or recovery, cut off anywhere, moves the ownership by at most one transition and never back. |
| OwnershipRuns.RunAdvances | internal/workspace/handoff.go:52-55 | Over any run of plans and recoveries the generation and status never go back, and while they stand still the file does not change by a byte. |
| OwnershipRuns.BytesNeverReturn | internal/core/ownership_transition.go:18-50 | No ABA: once the ownership file has changed its old bytes never come back. |
| OwnershipRuns.StalePlanIsRefused | internal/workspace/apply.go:53-58 | A plan bound to other ownership bytes than the disk's changes nothing at all. |
| OwnershipRuns.AtMostOneApplies | internal/workspace/lifecycle.go:63-66 | Of all plans previewed on the same ownership bytes none applies after any event has moved the ownership. |
| OwnershipRuns.OldActorsStayOut | internal/core/ownership.go:81-97 | An actor whose generation has been passed is never accepted again in any later state. |
| OwnershipRuns.ContextChangesUnderClaim | internal/workspace/context.go:31-45 | Whatever event changes the context file, the ownership on disk at that moment is ACTIVE with exactly its plan's worker, session and generation. |
| Examples.GoodWorkspaceExists | internal/workspace/init.go:55-70 | An initialised workspace with a free ownership is one the run theorems start from. |
| Examples.UnfinishedTransactionExists | internal/workspace/lifecycle.go:29-67 | There is an unfinished, recovery-safe acquisition on such a workspace, so the hypotheses of the recovery theorems can all hold at once. |
| CutExamples.ApplyLeavesCutDisk | internal/workspace/apply.go:66-118 | Apply of a directory and an update, cut off at its ninth write, leaves the first published, its label IN_PROGRESS and the live pointer out. |
| CutExamples.ManualTransactionExists | internal/workspace/transaction_recovery.go:199-212 | That disk, when the file had another mode than 0600: a sound transaction that needs a human, and no attempt changes anything. |
| CutExamples.RefusedRollbackExists | internal/workspace/apply.go:285-288 | That disk, with mode 0600: both ways are offered, and still every rollback is refused with the disk unchanged, because a directory was made. |
| Interleaving.SchedulesAreSerial | internal/workspace/apply.go:136-167 | Any number of Apply calls sharing one disk, in any schedule of taking the lock, single writes and leaving: the disk is always that of the calls one after the other in lock order, each cut off where it left, and of the holder's writes so far. |
| Interleaving.OwnershipNeverGoesBack | internal/workspace/apply.go:53-58 | From any state of any such schedule to any later one the generation and status never go back, and while they stand still the ownership file does not change by a byte. |
| Interleaving.AtMostOneIsPublished | internal/workspace/lifecycle.go:63-66 | Of any number of calls whose plans bind the same ownership bytes, the writes of at most one ever change the ownership, in any such schedule. |
| Interleaving.OwnerMovesOnce | internal/workspace/apply.go:66-118 | Once the writes of a call have changed the ownership, its later ones leave it alone. |
| Blocks.UpsertInserts | internal/adapter/block.go:53-62 | Into marker-free content the block goes behind one line break, and the outside hash is the content's. |
| Blocks.UpsertIsIdempotent | internal/adapter/block.go:36-52 | Upserting the same block again keeps the bytes and reports the same outside hash. |
| Blocks.RemoveUndoesUpsert | internal/adapter/block.go:64-84 | Removing an inserted block gives the content back byte for byte exactly when it does not end in a bare CR without using CRLF; otherwise it is refused. |
| ManagedEntries.NativeEntry.Detach | internal/workspace/adapters.go:351-419 | An unreadable file is refused; otherwise the consumer list, the file, its hashes and the artifact change together, and a failed removal changes nothing. |
| ManagedEntries.NativeEntry.Add | internal/workspace/adapters.go:95-194 | The same for adding; a registered consumer only has its block checked. |
| ManagedEntries.ConsumersComeAndGo | internal/workspace/adapters.go:147-160 | Any sequence of adds and drops goes through iff every file it reads on its way is readable, and then the file is the original, a line break and one block naming the registered consumers in order, the outside hash stays the original's, and the last drop gives the original back, or no file if there was none. |
| ManagedEntries.ManagedIsReadable | internal/adapter/native.go:63-82 | A managed file is readable iff the original is text and the whole is at most 1 MiB. |
| ManagedEntries.LargeEntryIsStuck | internal/workspace/adapters.go:308-312 | An original that is readable while its managed form is not: the consumer is added, and from then on every change that looks at the file is refused. |
| ManagedEntries.StuckEntryExists | internal/adapter/native.go:15-15 | One MiB of plain text is such an original, and no changes ever bring it back. |
| ManagedEntries.EmptyFileIsDeleted | internal/workspace/adapters.go:405-408 | An empty original is the exception: add and drop delete it, if the managed form is readable. |
| Imports.ImportLines | internal/adapter/import.go:64-82 | Count and first position are those of the unfenced import lines. |
| Imports.OffsetIsUnfencedImport | internal/adapter/import.go:64-82 | An offset is counted exactly when a line starts there that reads @target behind an even number of fence lines. |
| Imports.UpsertImport | internal/adapter/import.go:9-30 | Refuses invalid targets and duplicates, keeps content that has the import, and otherwise adds one line behind one break. |
| Imports.RemoveImport | internal/adapter/import.go:32-57 | Cuts exactly the found line with its break and the break in front of it. |
| Imports.UpsertIsIdempotentIffBalanced | internal/adapter/import.go:9-30 | After an insertion a second upsert changes nothing exactly when every fence is closed. |
| Imports.RemoveUndoesInsert | internal/adapter/import.go:32-57 | Removal restores the bytes exactly when every fence is closed and the content does not end in a bare CR without CRLF. |
| Archives.VerifyExportArchive | internal/workspace/export.go:199-285 | The loop accepts exactly the archives with clean, distinct names, the manifest, and one agreeing member for every entry and no other. |
| Archives.AcceptedMeansHeld | internal/workspace/export.go:199-285 | An accepted archive holds exactly the listed entries, each once, with kind, mode and bytes. |
| Archives.ExportIsAccepted | internal/workspace/export.go:96-197 | An archive made from a snapshot passes verification exactly when its names are clean. |
| Archives.VerifyExportFile | internal/workspace/export.go:287-325 | A file verifies by itself exactly when its manifest comes first, its first MiB can be read, and the rest agrees with it. |
| Archives.ExportVerifies | internal/workspace/export.go:287-325 | A published export verifies by itself later on exactly when its manifest is at most one byte longer than what is read back and its names are valid UTF-8. |
| PurgeProofs.FingerprintDetermines | internal/workspace/export.go:43-94 | Equal fingerprints mean equal entries. |
| PurgeProofs.SnapshotIgnoresProtocol | internal/workspace/export.go:60-63 | Neither lock nor marker shows in a snapshot, so the fingerprint survives purge's own writes. |
| PurgeWorkspaces.PurgeWorkspace.ApplyPurge | internal/workspace/purge.go:66-151 | Lock, released owner, marker, verified export, completed marker, rename and removal happen in that order, each only after the checks before it, and the lock is given back however it ends. |
| PurgeWorkspaces.PurgeWorkspace.ApplyPurgeCleanup | internal/workspace/purge.go:199-230 | A tombstone changes only under the exact approval of a plan whose tombstone, marker, archive and hashes are still the ones there, with the archive verified again; the workspace and the archives never change. |
| PurgeProofs.PurgeKeeps | internal/workspace/purge.go:66-151 | A purge stopped anywhere leaves .uawp as it was but for lock and marker, or a published archive of exactly what it held. |
| PurgeProofs.CleanupKeeps | internal/workspace/purge.go:199-230 | Whatever plan a cleanup is given, it removes nothing that a published archive does not hold, byte for byte. |
| PurgeProofs.AbortKeeps | internal/workspace/purge.go:254-269 | An abort, which is an Apply and may be cut off at any of its writes, changes nothing but the marker and its own transaction, and leaves that finished, unstarted or recoverable. |
| PurgeProofs.RepairKeeps | internal/workspace/transaction_recovery.go:57-147 | So does any recovery of a cut-off abort, cut off itself at any write. |
| PurgeProofs.StateIsNeverLost | internal/workspace/purge.go:66-269 | No sequence of purges, aborts, recoveries of aborts and cleanups, each cut off at any write, loses an entry .uawp held or the records of a finished transaction: they are in .uawp, in the tombstone, or in a published archive. |
| PurgeProofs.CutRemovalBlocksCleanup | internal/workspace/purge.go:207-224 | After a cut-off removal a cleanup plan is still allowed exactly when the marker and every entry are there. |
| PurgeProofs.StartIsNotLost | internal/workspace/purge.go:77-92 | Every workspace without an unfinished transaction is one such a sequence can start from, with all it holds to be kept. |
| PurgeCompletion.PurgeGoesThroughExactly | internal/workspace/purge.go:66-151 | A purge gets past its rename iff nothing is in the way and it has five writes; then the archive holds what was there and the tombstone is that with the completed marker, as far as the removal leaves it. |
| PurgeCompletion.CutPurgeIsCleanable | internal/workspace/purge.go:153-180 | A purge cut off behind its rename can be planned and allowed for cleanup iff its manifest is at most one byte longer than what is read back and its names are valid UTF-8; otherwise no cleanup changes anything. |
| PurgeExamples.StuckTombstoneExists | internal/workspace/export.go:303-303 | A workspace with more than 2^20 empty files, whose export is accepted: its purge gets past the rename, and no cleanup ever changes anything. |

## Left out

- Real file systems: fsync, temporary files, symbolic links, permissions, parent directories and other OS errors. A step either happens whole or is refused, and the engine's own records (pointer, journal, lock) are kept apart from the workspace entries, so no action can target them.
- The path allow-list of internal/workspace/boundary.go: an open predicate `Root.resolves` of the path alone; what it says of live ancestors and symbolic links is not part of this model.
- JSON text and its size limits: records are values; the 8 MiB bound is kept on file contents, backups and change contents only. Identifier patterns of transaction IDs, backup paths and hashes are built into the datatypes.
- A killed process, which leaves the lock file: every interruption here runs the deferred unlock, and recovery needs the lock to be free.
- Runs.AnyRunIsSafe: transactions of plans outside `Invariants.WellFormed` are not covered; for the prefix it needs a plan that staging does not disturb.
- OwnershipRuns.RunAdvances: covers workspaces whose ownership document reads (1.2 and later); initialisation, upgrade, uninstall and purge are not among its events, and plans of a claim in the first second of year 1 are excluded.
- Interleaving.SchedulesAreSerial: recoveries are not among the interleaved calls, because they load their evidence before they take the lock (`StaleRecoveries` covers two of them, each whole once it has the lock); taking the lock and the checks right behind it are one move, and a holder's disk between two writes is the one it would leave if it stopped there.
- OwnershipCodec.DecodeOwnership: white space is ASCII white space; the leniency of Go's time parser beyond RFC 3339 (single-digit hours, comma fractions, 24-hour offsets) and times RFC 3339 cannot write are not modelled.
- Lifecycle.AcquireMovesOwner: the workspace status is a parameter of every planner.
- Planning.PlanIgnoresGivenOrder: the sort is stable here and Go's is not, which matters only for equal sort keys; without distinct keys nothing is claimed.
- ManagedEntries.ConsumersComeAndGo: one managed-block entry; import and direct routes, consumer facts, route selection and moves between entries are left out, and the provider's other candidate files are taken to be readable.
- Imports.OffsetIsUnfencedImport: a fence line may have ASCII white space in front, where the code also trims other Unicode white space.
- Imports.UpsertIsIdempotentIffBalanced: the same; balance counts fence lines behind ASCII white space only.
- Imports.RemoveUndoesInsert: the same; and removal with user text behind the import line, where the code joins the neighbouring lines, is not claimed.
- Archives.VerifyExportArchive: tar, gzip, manifest encoding and manifest reading are open functions; name cleaning is an open predicate.
- PurgeProofs.StateIsNeverLost: starts after the detach plan has been applied, and has one tombstone slot; how the engine's records lie under .uawp, the walk's order and the marker's encoding are open functions, and `Purges.GoodTools` says what is assumed of them and of the archive format without an instance.
- Upgrades.UpgradeNeedsRecoveryRoot: workspaces without configured adapters; the receipt's name stands for the time.
- Transactions.ValidateBundle: a receipt's completion time always parses here, its result is one of the two, and of a logical path only emptiness is checked.
- Checkpoints, repair, adapters' provider tables, identity registry, command line parsing and output, release tooling.
- Initial failures of `io` readers, clocks and randomness: they are parameters.

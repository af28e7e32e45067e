# Crash-safety proofs for the hosted-agent control plane

This project models the parts of the control plane that must end fully done or fully undone, whatever
crashes, races or lost replies happen on the way, and proves properties of every run of the model. It is
written in Dafny 4.11; `dafny verify dfyconfig.toml` checks all of it.

| files | what they model |
|---|---|
| `CheckoutTree`, `LocalJournal`, `LocalRestart`, `LocalPlan`, `LocalFeasible`, `LocalApply` | applying a patch to a local checkout through a write-ahead journal, and rolling it back |
| `PatchApplicationRow`, `PatchApplyProtocol`, `PatchApplySafety`, `PatchApplyOutcome`, `PatchApplyCompletion` | the fenced, phased application of a patch to a sandbox, with its coordinator and its reconciler |
| `Interactions`, `InteractionTracker`, `Quiescence`, `QuiescenceSafety`, `CheckpointConsistency`, `StrandedRows` | journalling commands before they are forwarded, checkpoints that refuse to run beside them, and rows that nothing can finish |
| `TrackerView`, `TrackerRuns`, `TrackerRefinement`, `ResumeNotices` | the tracker's methods, and each of their transactions, as runs of the journalling protocol; a resume from its request to the answer |
| `ChildProtocol`, `ChildSafety`, `ChildOutcome`, `ChildCompletion` | provisioning a child agent, and reconciling an abandoned provisioning |
| `ObjectReclaimer`, `RestoreLineage`, `ReferenceRetention` | publishing and reclaiming shared stored objects, restoring leases, retaining references |
| `PatchArtifact`, `ConflictReport`, `PatchPlanning`, `ConnectFraming`, `GatewayQueue` | the artifact codec, conflict reports, patch planning, message framing, the gateway's queue |

Protocols are state machines: a state is what survives a crash plus what the present lock holder is doing, and an
event is one atomic step. Transactions are atomic, but their replies can be lost; provider calls can fail with or
without effect; claims, crashes and takeovers can happen at any point. While no worker of a patch application holds
the lock on its target lease, other operations may change the sandbox, checkpoint the lease or close it. Objects that a
class of the source updates in place are classes here, and loops are loops, each proved against a function or a stated
property.

What the environment is trusted for: a session lock is held until its worker finishes or crashes, and a crashed
worker takes no more steps; a provider request whose outcome is unknown has either taken effect or been dropped by
the time another worker obtains the lock, and an archive upload that failed for its caller writes nothing after that;
the exec server reports truthfully, serves a session only for the connection that attached to it last, and answers
that connection when the session's earlier file operations are over (what happens between that answer and the moment
its tracker has worked through it is modelled); new random identifiers are new. JSON, UTF-8, hashing, manifest
canonicalisation and the manifest diff enter as functions with the laws stated in `PatchArtifact.Lawful` and
`PatchPlanning.OrderFree`, and different paths have different URIs. The lease-long code-mode process, which the
quiescence check exempts, is trusted not to change the workspace itself. One limit on listed allocations holds for all
reconcilers of a run.

Several expected properties turn out to be false of the code. Each has a concrete run and the exact condition under
which the property holds:

- Rolling back a local patch again after an interrupted rollback can report failure although everything is restored,
  exactly when a path whose removal was undone also has a construction in the journal
  (`LocalRestart.RestartCanFail`, `LocalRestart.RestartExactlyWhenDistinct`).
- The filter that should drop local changes already in place compares entries under different path prefixes, so it
  drops only changes that are absent on both sides (`LocalPlan.UnchangedFileIsMutated`,
  `LocalPlan.MutationFilterExact`).
- Recovery does not finish every abandoned operation. Both reconcilers refuse to list a ledger of more rows than
  `maxAllocationsPerOperation` (100 by default), and every stored object is a row, so an interrupted operation over a
  workspace of that many different files stays in progress for ever, a checkpointed patch application included
  (`PatchApplyOutcome.TooManyObjects`, `PatchApplyOutcome.RecoveryCompletesExactly`, `ChildOutcome.TooManyObjects`,
  `ChildOutcome.RecoveryCompletesExactly`). A limit above 1000 is accepted by the reconcilers' constructors but not
  by the object reclaimer they pass it to; the same theorems say what that stops.
- Nor does it finish a patch application whose lease has moved on. The session lock is free between a crash and a
  takeover, and no other operation looks at the unfinished one: a checkpoint by another operation leaves a swapped
  sandbox that is never rolled back, and a release leaves a committed checkpoint that is never recorded as applied.
  Over all continuations an abandoned application can be finished exactly if its ledger can be listed and reclaimed,
  and, where the reconciler has to restore or to verify, the lease is open and its latest snapshot still is the one
  the application started from or the one it published (`PatchApplyOutcome.LeaseMovesOn`,
  `PatchApplyOutcome.LeaseCloses`, `PatchApplyOutcome.RecoveryCompletesExactly`,
  `PatchApplyOutcome.FinishableExactly`).
- A failed patch application can leave stored objects behind: its coordinator records the failure without asking
  which error preparing the snapshot threw, which the child coordinator does ask
  (`PatchApplyOutcome.FailedWithObjects`, `PatchApplyOutcome.CoordinatorLeavesObjectsExactly`).
- A rolled-back sandbox holds the source snapshot, which is what it held before only if it had not drifted from
  that snapshot (`PatchApplyOutcome.FailedWithObjects`, `PatchApplyOutcome.FailureRestoresExactly`).
- A checkpoint can be taken beside a running command, in two ways: a process identifier used twice within a session
  lets a late quiesced notice of the first run finish the ledger row of the second, and a connection that attached to
  a session, was answered and then lost the session to another connection of the same generation goes on to finish
  the other one's running file operations. Every accepted command is tracked, and every committed checkpoint
  consistent, exactly if clients do neither (`CheckpointConsistency.LateNoticeLosesTrack`,
  `CheckpointConsistency.StaleResumeLosesTrack`, `CheckpointConsistency.TrackedExactly`,
  `CheckpointConsistency.ConsistentExactly`).
- A process row whose insertion succeeded while the reply was lost is never finished, and unless it is of the
  code-mode process the lease is never quiescent again. An unfinished row can still be finished exactly if it is not
  such a process row, which no connection waits for and the server never accepted
  (`StrandedRows.LostBeginStrands`, `StrandedRows.FinishableExactly`).
- A failed child provisioning can leave its last ledger entry marked allocated although the resource is gone
  (`ChildOutcome.LostRecordReply`, `ChildOutcome.CoordinatorLeavesEntryExactly`).
- Resuming the reclaim of an object row that was left deleting skips the shared-location query and can erase another
  row's bytes (`ObjectReclaimer.ResumedAllocationErasesShared`, `ObjectReclaimer.DecisionExposesExactly`).
- An available object can be without bytes: besides that reclaim, a patch export stores its bytes before it locks
  their location, and registers them although a reclaim of an equal object has erased them in between
  (`ObjectReclaimer.ExportRegistersErased`). These are the only two ways (`ObjectReclaimer.AvailableIsStored`).

## Model

| member | source | states |
|---|---|---|
| LocalJournal.ActKeepsTree | e2b/src/local-patch-apply.ts:331-338 | a file-system call that succeeds on a checked path keeps every entry inside a directory and has exactly the journalled effect |
| LocalJournal.UndoInvertsAct | e2b/src/local-patch-apply.ts:192-207 | undoing an action whose effect is in place gives back the state before it, backup area included |
| LocalJournal.RewindUndoesReplay | e2b/src/local-patch-apply.ts:188-208 | walking a carried-out journal backwards ends in the state in which apply began |
| LocalJournal.FirstBeforeIsOriginal | e2b/src/local-patch-apply.ts:209-213 | the first before-entry of a journalled path is its original entry, and paths outside the journal never change |
| LocalJournal.RollbackRestores | e2b/src/local-patch-apply.ts:182-216 | from every point at which apply can stop, also between an intent and its action, a first rollback reports true and restores the checkout at every path, provided no journalled path lay below a file or link, which apply checks before it starts |
| LocalRestart.RewindOnlyUndoes | e2b/src/local-patch-apply.ts:188-208 | a rollback whose backup area still matches the journal only moves paths from an action's after-entry to its before-entry, last action first and each at most once, whatever the checkout holds |
| LocalRestart.StoppedBackupsMatch | e2b/src/local-patch-apply.ts:325-340 | wherever apply stops, its backup area matches its journal |
| LocalRestart.BackupsKeepMatching | e2b/src/local-patch-apply.ts:188-208 | edits of the checkout and turns of interrupted or restarted rollbacks, in any number and order, keep the backup area matching |
| LocalRestart.RollbackOnlyUndoes | e2b/src/local-patch-apply.ts:182-216 | so for every journal written by apply, whatever edits, rollbacks and interruptions came in between, a rollback undoes recorded changes and nothing else |
| LocalRestart.UndoneOnlyAtJournalledPaths | e2b/src/local-patch-apply.ts:188-208 | a path that a rollback changed was journalled, held a recorded after-entry and ends with a recorded before-entry |
| LocalRestart.RestartExactlyWhenDistinct | e2b/src/local-patch-apply.ts:182-216 | wherever apply stopped and however far the first rollback came, a rollback started again reports true, and restores everything, if and only if no path with its removal undone also has a construction in the journal |
| LocalRestart.InterruptedExactly | e2b/src/local-patch-apply.ts:188-208 | the states a first rollback can leave when it is interrupted are exactly the states apply went through before it stopped, so nothing else need be considered above |
| LocalRestart.RestartAfterTurns | e2b/src/local-patch-apply.ts:182-216 | the same if-and-only-if in terms of the number of turns after which the first rollback was interrupted |
| LocalRestart.RestartCanFail | e2b/src/local-patch-apply.ts:188-191 | one modified file is enough for a restarted rollback to report false on a restored checkout |
| LocalRestart.RestoredTwiceStops | e2b/src/local-patch-apply.ts:188-207 | once a path's removal has been undone, walking over its construction again never ends in success |
| LocalPlan.MutationFilterExact | e2b/src/local-patch-apply.ts:269-289 | the filter keeps every change except one that is absent both in the checkout and in the proposal, whatever the (never empty) root prefix is |
| LocalPlan.UnchangedFileIsMutated | e2b/src/local-patch-apply.ts:285-289 | a file that already is what the patch proposes is still a mutation and is removed to be installed again |
| LocalFeasible.IntentsPaired | e2b/src/local-patch-apply.ts:320-370 | apply journals a path at most twice, first its removal and then a construction, never a directory removed to be made again |
| LocalFeasible.RemovalGoesThrough | e2b/src/local-patch-apply.ts:320-340 | with deepest-first removal a directory is empty when its turn comes and every entry is still as listed |
| LocalFeasible.ConstructionGoesThrough | e2b/src/local-patch-apply.ts:342-370 | with shallowest-first construction the parent is a directory and the path free when its turn comes |
| LocalFeasible.AppliesExactlyWhenFeasible | e2b/src/local-patch-apply.ts:320-374 | the loops go through if and only if the patch fits the checkout, and then the checkout is overlaid with the patch and nothing else has changed |
| LocalFeasible.WholeListingApplies | e2b/src/local-patch-apply.ts:320-374 | when the listing is the whole checkout and the planned entries form a tree, apply meets no non-empty directory and no missing parent and ends with the plan |
| LocalApply.JournalledCheckout.SafeAncestors | e2b/src/local-patch-apply.ts:112-124 | accepts a path exactly when no ancestor is a file or a link |
| LocalApply.JournalledCheckout.ActOn | e2b/src/local-patch-apply.ts:333-338 | the call for an intent succeeds exactly when the model's action does, with that effect on checkout, backup and stage |
| LocalApply.JournalledCheckout.Perform | e2b/src/local-patch-apply.ts:327-338 | check, intent, action, dying after any durable write: the state left is always one from which rollback is proved, and an action is refused only if it cannot be performed |
| LocalApply.JournalledCheckout.RemoveAll | e2b/src/local-patch-apply.ts:325-340 | the removal loop journals and performs exactly the planned removals, or stops in a recoverable state |
| LocalApply.JournalledCheckout.ConstructOne | e2b/src/local-patch-apply.ts:345-368 | one construction, or a skip when the directory already has its mode |
| LocalApply.JournalledCheckout.ConstructAll | e2b/src/local-patch-apply.ts:344-370 | the construction loop completes the planned journal, or stops in a recoverable state |
| LocalApply.JournalledCheckout.Apply | e2b/src/local-patch-apply.ts:320-370 | done exactly with the overlay, refused only if infeasible, crashed only if the budget of durable writes ran out; the backup area left matches the journal |
| LocalApply.JournalledCheckout.ApplyOrRestore | e2b/src/local-patch-apply.ts:308-385 | the whole application either ends with the overlay or leaves the checkout exactly as it was and says so |
| LocalApply.JournalledCheckout.UndoOne | e2b/src/local-patch-apply.ts:189-207 | one turn of the reverse walk skips, undoes or stops as recorded |
| LocalApply.JournalledCheckout.Rollback | e2b/src/local-patch-apply.ts:182-216 | reports true exactly if the walk went through and every journalled path reads as its first before-entry; restores exactly from every stopping point of apply; with a matching backup area undoes only recorded changes and keeps it matching |
| LocalApply.JournalledCheckout.CheckOriginals | e2b/src/local-patch-apply.ts:209-213 | compares every journalled path with its first before-entry |
| PatchApplicationRow.PatchApplication.constructor | e2b/src/postgres-patch-applications.ts:195-219 | a new application is planned and has no rollback identity |
| PatchApplicationRow.PatchApplication.Move | e2b/src/postgres-patch-applications.ts:337-349 | a fenced, idempotent move that the table's trigger and check constraint both allow |
| PatchApplicationRow.PatchApplication.RecordRollbackIdentity | e2b/src/postgres-patch-applications.ts:228-253 | records the rollback identity once; a repeated call must name the same one |
| PatchApplicationRow.PatchApplication.StartRollback | e2b/src/postgres-patch-applications.ts:305-321 | starts a rollback from any phase that has a rollback snapshot, and is idempotent |
| PatchApplicationRow.PatchApplication.Checkpoint | e2b/src/postgres-patch-applications.ts:267-280 | checkpoints only a swapped application whose result is published |
| PatchApplicationRow.TerminalStays | e2b/migrations/0009_patch_applications.sql:86-94 | under the trigger a terminal phase never changes |
| PatchApplicationRow.OneOutcome | e2b/migrations/0009_patch_applications.sql:86-94 | no life of a row sees two of checkpointed, rolled back and failed |
| PatchApplySafety.NextKeeps | e2b/src/postgres-patch-apply.ts:197-489 | the invariant over row, sandbox, lease, ledger, inventory, objects and the holder's knowledge is kept by every event, other operations on the lease included |
| PatchApplyOutcome.Reachable | e2b/src/postgres-patch-apply.ts:197-454 | that invariant holds in every reachable state |
| PatchApplyOutcome.RowTellsTheSandbox | e2b/src/postgres-patch-apply.ts:287-356 | while nothing else has changed the sandbox, the phase determines the contents: as found up to rollback ready and in failed, the planned workspace in swapped and checkpointed, the source snapshot in rolled back; while no other operation has published a snapshot, the latest one is the result exactly in checkpointed; whatever others do, the rollback snapshot exists while it may be needed, and the result snapshot and its objects once they are published |
| PatchApplyOutcome.FailedLeavesNothing | e2b/src/postgres-patch-apply.ts:393-404 | an operation recorded as failed is in no middle phase, has not published its result as the latest snapshot, and leaves no provider snapshot and no request that could create one, whatever other operations did meanwhile |
| PatchApplyOutcome.FailureRestoresExactly | e2b/src/postgres-patch-apply.ts:425-439 | every failure of an application planned on given contents gives the sandbox back as it was, unless something else changed it, if and only if those contents were those of the source snapshot |
| PatchApplyOutcome.FailedGivesBack | e2b/src/postgres-patch-apply.ts:408-454 | a failed operation whose sandbox nothing else changed gives it back as it found it, or with the contents of the snapshot it rolled back to |
| PatchApplyOutcome.AppliedIsPublished | e2b/src/postgres-patch-apply.ts:343-363 | an operation recorded as applied has committed its checkpoint, has kept of the two provider snapshots exactly the result, and has left the planned workspace in the sandbox unless something changed it since |
| PatchApplyOutcome.AppliedWhenLatest | e2b/src/db/queries/patches.sql:140-147 | at the moment it is recorded as applied, by whichever worker, its result is the lease's latest snapshot |
| PatchApplyOutcome.CoordinatorLeavesObjectsExactly | e2b/src/postgres-patch-apply.ts:393-404 | a failure recorded by the coordinator leaves objects if and only if preparing the snapshot had thrown, after its row was inserted, anything but the error saying that all was given up |
| PatchApplyOutcome.ReconcilerLeavesNoObjects | e2b/src/postgres-patch-apply-reconciler.ts:335-387 | a failure recorded by a reconciler leaves no object |
| PatchApplyOutcome.FailedWithObjects | e2b/src/postgres-patch-apply.ts:329-342 | from every start a run in which a failed operation keeps its objects and the sandbox holds the snapshot it was rolled back to |
| PatchApplyOutcome.SupersededIsFenced | e2b/src/db/queries/journal.sql:29-52 | a worker whose claim was superseded changes neither operation, row, latest snapshot nor ledger |
| PatchApplyOutcome.OutcomeIsFinal | e2b/src/postgres-patch-applications.ts:337-349 | over any continuation a finished operation keeps its answer and a terminal phase stays, so no run is both checkpointed and rolled back |
| PatchApplyOutcome.Finishes | e2b/src/postgres-patch-apply-reconciler.ts:222-258 | from a state that can be recovered, with no command running where one would be refused, every step of an undisturbed recovery proceeds and the last one records the outcome |
| PatchApplyOutcome.RecoveryCompletesExactly | e2b/src/postgres-patch-apply-reconciler.ts:199-387 | from every reachable unfinished state, after a crash and a takeover: if the ledger has no more rows than the limit, the limit suits the object reclaimer wherever objects are open, and the lease is open with the latest snapshot that restoring or verifying asks for, one undisturbed recovery finishes the operation, as applied exactly when the checkpoint was committed, or leaves it to a later one exactly when a rollback is due and a command is running; if not, no continuation ever finishes it |
| PatchApplyOutcome.GateRefuses | e2b/src/postgres-patch-apply-reconciler.ts:227-251 | a recovery that has to roll back while a command is running stops and leaves the operation unfinished |
| PatchApplyOutcome.FinishableExactly | e2b/src/postgres-patch-apply-source.ts:170-174 | once its coordinator has crashed, some continuation finishes the operation if and only if that condition holds, commands running or not |
| PatchApplyOutcome.NeverRecovered | e2b/src/postgres-patch-apply-reconciler.ts:469-474 | once its coordinator is gone, an operation whose ledger cannot be listed or reclaimed, or whose lease no longer fits, stays so over every continuation |
| PatchApplyOutcome.TooManyObjects | e2b/src/postgres-patch-apply-reconciler.ts:469-474 | for every limit a run that commits its checkpoint, crashes and can never be finished |
| PatchApplyOutcome.GivenUpFillsLedger | e2b/src/postgres-patch-apply-reconciler.ts:469-474 | for every limit such a run in which the preparation was given up and no object is left: its rows alone fill the ledger |
| PatchApplyOutcome.LeaseMovesOn | e2b/src/postgres-patch-apply-source.ts:170-174 | from every start a run that crashes after the swap, sees the lease checkpointed by another operation, and leaves the patched sandbox for ever without an outcome |
| PatchApplyOutcome.LeaseCloses | e2b/src/db/queries/patches.sql:140-147 | from every start a run that commits its checkpoint, crashes, sees the lease closed, and is never recorded as applied |
| PatchApplyCompletion.ReachableShielded | e2b/src/postgres-patch-apply.ts:197-363 | while the coordinator applies, nothing else has changed the sandbox, and the lease stays open and at the snapshot the plan started from until the final transaction |
| PatchApplyCompletion.UndisturbedIsApplied | e2b/src/postgres-patch-apply.ts:197-363 | for every sandbox, limit and number of objects, fifteen undisturbed steps after obtaining the lock record the operation as applied, with the planned workspace in the sandbox, the result as latest snapshot and adopted, the rollback snapshot deleted and reclaimed, and the lock free |
| PatchApplyCompletion.CoordinatorEnds | e2b/src/postgres-patch-apply.ts:197-404 | from every reachable state in which the coordinator works and owns the operation, undisturbed steps free the lock and record applied, failed or nothing, if and only if the state is one of the kinds named: applied unless the lease did not admit the plan or the provider dropped a snapshot that is waited for; failed unless a part of the handling failed or the provider's or the ledger's part is unknown |
| PatchApplyCompletion.OneFault | e2b/src/postgres-patch-apply.ts:240-404 | one step of an application on its way that ends in any way, and undisturbed steps after it: which of applied, failed and left to a reconciler results, for every step and every ending |
| PatchApplyCompletion.SecondFault | e2b/src/postgres-patch-apply.ts:408-454 | one step of the failure handling that ends in any way: the failure is recorded if and only if the handling was in order so far and the step counts as done |
| PatchApplyCompletion.NothingToApply | e2b/src/postgres-patch-apply.ts:210-236 | a conflict or a rejection completes the operation with that answer in one step, without an application row, a snapshot, an object or a change of the sandbox |
| PatchApplyCompletion.LostReplyLands | e2b/src/postgres-patch-apply.ts:343-363 | from every state, a transaction whose reply is lost leaves exactly what it leaves when the reply arrives |
| PatchApplyCompletion.LostAnswerTakesEffect | e2b/src/postgres-patch-apply.ts:325-342 | and a provider call without an answer leaves the same snapshots as one with an answer |
| InteractionTracker.InteractionLedger.Begin | e2b/src/postgres-lease-interactions.ts:144-169 | admits an interaction exactly for an active lease at its generation, unless an unfinished row already has the process; a repeated call must name the same active row |
| InteractionTracker.InteractionLedger.Transition | e2b/src/postgres-lease-interactions.ts:270-283 | a row changes state only for its exact identity, and a finished row never again |
| InteractionTracker.InteractionLedger.Reattach | e2b/src/postgres-lease-interactions.ts:185-199 | makes an unfinished interaction active again, exactly for an active lease at the caller's generation |
| InteractionTracker.InteractionLedger.List | e2b/src/postgres-lease-interactions.ts:239-262 | lists exactly the session's unfinished interactions of one kind, each once |
| InteractionTracker.ExecTracker.Journal | e2b/src/exec-interaction-tracker.ts:127-154 | a process start or file change has an active ledger row before it can be forwarded, or nothing has changed |
| InteractionTracker.ExecTracker.AskInitialize | e2b/src/exec-interaction-tracker.ts:114-125 | a connection has at most one initialize waiting, and none once it has a session |
| InteractionTracker.ExecTracker.AskRead | e2b/src/exec-interaction-tracker.ts:156-161 | a read remembers the interaction its process identifier stood for |
| InteractionTracker.ExecTracker.MarkForwarded | e2b/src/exec-interaction-tracker.ts:167-172 | marks a waiting request as forwarded |
| InteractionTracker.ExecTracker.QuiescedNotice | e2b/src/exec-interaction-tracker.ts:180-188 | finishes a followed process; an unknown one is kept for later exactly while a resume is waiting |
| InteractionTracker.ExecTracker.Reply | e2b/src/exec-interaction-tracker.ts:191-239 | accepts a reply only to a forwarded request, and finishes a row exactly on a file operation's reply, a failed start or a read that saw the end |
| InteractionTracker.ExecTracker.ReattachAll | e2b/src/exec-interaction-tracker.ts:207-216 | takes over exactly the session's unfinished processes, and refuses exactly if two share an identifier |
| InteractionTracker.ExecTracker.FinishEarly | e2b/src/exec-interaction-tracker.ts:217-220 | finishes exactly the followed processes that were reported quiesced early |
| InteractionTracker.ExecTracker.InitializeReply | e2b/src/exec-interaction-tracker.ts:200-227 | after a resumed initialize the process map is exactly the session's unfinished processes minus those reported quiesced in the meantime, whose rows are finished like the session's file operations; it fails exactly in the stated cases |
| InteractionTracker.ExecTracker.Resume | e2b/src/exec-interaction-tracker.ts:206-224 | the three loops of a resume compose to that effect |
| InteractionTracker.ResumedFollows | e2b/src/exec-interaction-tracker.ts:206-224 | removing the early ones from the followed processes leaves exactly the processes still unfinished |
| InteractionTracker.ExecTracker.Detach | e2b/src/exec-interaction-tracker.ts:242-258 | finishes exactly what was never forwarded and detaches everything else the connection follows, finished rows excepted |
| ResumeNotices.Hear | e2b/src/exec-interaction-tracker.ts:180-188 | of any sequence of quiesced notices before the answer, each is kept if and only if the waiting initialize names a session, and none changes a row |
| ResumeNotices.Reconnect | e2b/src/exec-interaction-tracker.ts:114-125 | from the request over any notices to the reply: accepted exactly in the stated cases; after a resume exactly the noticed processes of the session are finished, like its file operations, exactly the others are active and followed, and no other row has changed; without a resume no notice has any effect |
| QuiescenceSafety.DoKeeps | e2b/src/exec-interaction-tracker.ts:101-258 | without reused process identifiers and without overlapping attaches, the ledger invariant is kept by every step of every connection and of the server, steps of connections the session has moved on from included |
| QuiescenceSafety.ReportedIsFollowed | e2b/src/exec-interaction-tracker.ts:180-188 | without reuse, the process a quiesced notice finishes is the one that ended |
| QuiescenceSafety.ListFilesTracks | e2b/src/exec-interaction-tracker.ts:221-222 | the file operations a resume lists for finishing are over, and no request for them can still be forwarded |
| TrackerRefinement.Journal | e2b/src/exec-interaction-tracker.ts:127-154 | the tracker's journalling is the protocol's begin action, or no action |
| TrackerRefinement.MarkForwarded | e2b/src/exec-interaction-tracker.ts:167-172 | marking a journalled request is the forward action |
| TrackerRefinement.QuiescedNotice | e2b/src/exec-interaction-tracker.ts:180-188 | a truthful notice is the quiesced action |
| TrackerRefinement.Reply | e2b/src/exec-interaction-tracker.ts:228-239 | a truthful reply is the matching reply action, or no action |
| TrackerRefinement.TakeOver | e2b/src/exec-interaction-tracker.ts:207-216 | one turn of a resume's first loop is the reattach action, or no action and a refusal, whatever other connections have done since the listing |
| TrackerRefinement.FinishFollowed | e2b/src/exec-interaction-tracker.ts:217-220 | one turn of its second loop is the early-finish action |
| TrackerRefinement.ListFiles | e2b/src/exec-interaction-tracker.ts:221-222 | the listing of file operations is the list action, refused for a connection behind the lease's generation |
| TrackerRefinement.FinishFile | e2b/src/exec-interaction-tracker.ts:221-223 | one turn of its third loop is the file-finish action, whatever has happened to the row since |
| TrackerRefinement.Conclude | e2b/src/exec-interaction-tracker.ts:224-227 | the end of the resume is the ready action |
| TrackerRefinement.LeaveRequest | e2b/src/exec-interaction-tracker.ts:246-256 | one waiting request of a detach is the detach-request action |
| TrackerRefinement.LeaveProcess | e2b/src/exec-interaction-tracker.ts:245-257 | one followed process of a detach is the detach-process action |
| TrackerRefinement.InitializeReply | e2b/src/exec-interaction-tracker.ts:200-227 | without interruption, an accepted initialize reply is a run of take-overs, early finishes, a listing, file finishes and the ready action, whatever the session holds |
| TrackerRefinement.Detach | e2b/src/exec-interaction-tracker.ts:242-258 | without interruption, detaching is a run of detach actions for everything the connection waits for or follows |
| TrackerRefinement.RunKeeps | e2b/src/exec-interaction-tracker.ts:101-258 | so every tracker method, and every interleaving of their transactions, keeps the protocol's ledger invariant, without reuse and overlap |
| TrackerView.OthersStayCarried | e2b/src/exec-interaction-tracker.ts:89-99 | and leaves what every other connection remembers as it was |
| TrackerRuns.ResumeRun | e2b/src/exec-interaction-tracker.ts:206-224 | for every answered connection at the lease's generation, the run of a resume ends with exactly the rows and processes the tracker ends with |
| TrackerRuns.LeaveRun | e2b/src/exec-interaction-tracker.ts:242-258 | the run of a detach ends with exactly the rows the tracker leaves |
| CheckpointConsistency.RowsChangeInTransactions | e2b/src/postgres-lease-interactions.ts:264-283 | neither a row nor the lease's generation changes outside a transaction under the lease lock |
| CheckpointConsistency.MutateKeeps | e2b/src/postgres-lease-interactions.ts:210-227 | a change of the workspace by a ledgered, running command never falls between the start and the commit of a checkpoint that found the ledger quiet |
| CheckpointConsistency.CheckpointsAreConsistent | e2b/src/postgres-checkpoint.ts:86-135 | over all interleavings without reused process identifiers and overlapping attaches, archive and provider snapshot of a committed checkpoint are of one workspace version, with no change while either was taken |
| CheckpointConsistency.TrackedExactly | e2b/src/exec-interaction-tracker.ts:101-258 | every request the server has accepted and not ended has an unfinished row in every run, if and only if clients neither reuse a process identifier within a session nor attach to a session, at one generation, while the answer to the attach before is being worked through |
| CheckpointConsistency.ConsistentExactly | e2b/src/postgres-checkpoint.ts:86-135 | every committed checkpoint of every run is of one workspace version under that same condition and under no weaker one |
| CheckpointConsistency.LateNoticeLosesTrack | e2b/src/exec-interaction-tracker.ts:180-188 | with reuse, whatever the identifier, a run in which a running process has a finished row |
| CheckpointConsistency.StaleResumeLosesTrack | e2b/src/exec-interaction-tracker.ts:221-223 | with overlapping attaches, and without any reuse, a run in which a running file operation has a finished row |
| CheckpointConsistency.InconsistentCheckpoint | e2b/src/postgres-lease-interactions.ts:210-227 | from every state in which the ledger is quiet although a command is running, a run that commits a checkpoint of two workspace versions |
| CheckpointConsistency.CheckpointCommitsExactly | e2b/src/postgres-checkpoint.ts:86-135 | from every state with a free lock, an undisturbed checkpoint commits the present workspace, and changes nothing else, if and only if every row is finished or is of the process that hosts code mode at the lease's generation |
| CheckpointConsistency.HolderGetsOn | e2b/src/postgres-checkpoint.ts:86-135 | whatever commands, connections and other checkpoints do meanwhile, a checkpoint that holds the lock and found the ledger quiet gets through each of its steps, and nothing else is committed |
| CheckpointConsistency.HolderCommits | e2b/src/postgres-checkpoint.ts:119-135 | and its last step commits it |
| CheckpointConsistency.LostLockNeverCommits | e2b/src/postgres-checkpoint.ts:119-135 | a checkpoint whose lock was lost never commits, over every continuation |
| StrandedRows.LostBeginStrands | e2b/src/postgres-lease-interactions.ts:144-169 | after a process row was inserted with the reply lost, no continuation ever finds the ledger quiet, unless the process is the code-mode process of the lease's generation by then |
| StrandedRows.NeverFinishes | e2b/src/postgres-lease-interactions.ts:270-283 | an unfinished process row that no connection waits for and the server never accepted stays unfinished over every continuation |
| StrandedRows.FinishableExactly | e2b/src/exec-interaction-tracker.ts:101-258 | every other unfinished row can still be finished, by a continuation that is given for each kind of row |
| ChildSafety.RecordKeeps | e2b/src/postgres-child.ts:436-459 | recording a resource keeps the provisioning invariant: ledger and provider agree on a prefix, also when the transaction or only its reply is lost |
| ChildSafety.DiscardKeeps | e2b/src/postgres-child.ts:258-259 | discarding the capture resources keeps the invariant, whatever part of it took effect |
| ChildSafety.CommitKeeps | e2b/src/postgres-child.ts:316-349 | the final transaction keeps the invariant, also when its reply is lost, so a success always has the exact ledger and an adopted sandbox and snapshot |
| ChildSafety.DropHeldKeeps | e2b/src/postgres-child.ts:497-501 | cleaning up in reverse keeps the invariant: nothing is stored from where it has come, unless a failure was noted |
| ChildOutcome.Reachable | e2b/src/postgres-child.ts:196-369 | the provisioning invariant holds in every reachable state |
| ChildOutcome.AbandonedGraphIsAcceptedExactly | e2b/src/postgres-child-reconciler.ts:418-476 | for every validated request and wherever provisioning stops, the provider entries are a prefix of the four resources with the expected metadata and objects come only after all four; a reconciler that takes over gets past its validation if and only if entries and objects together are within the limit |
| ChildOutcome.FailedLeavesNothing | e2b/src/postgres-child.ts:350-368 | a failed provisioning leaves no provider resource, no request that could create one and no object; of its ledger at most the last entry is not reclaimed |
| ChildOutcome.CoordinatorLeavesEntryExactly | e2b/src/postgres-child.ts:436-502 | a failure recorded by the coordinator leaves a ledger entry unreclaimed if and only if the last resource it holds was recorded with the reply lost |
| ChildOutcome.ReconcilerLeavesNoEntry | e2b/src/postgres-child-reconciler.ts:247-261 | a failure recorded by a reconciler leaves every entry reclaimed |
| ChildOutcome.LostRecordReply | e2b/src/postgres-child.ts:436-483 | a run in which that last entry stays allocated |
| ChildOutcome.SucceededKeepsTheChild | e2b/src/postgres-child.ts:316-349 | a provisioned child has its ledgered sandbox and snapshot, and the capture resources are gone |
| ChildOutcome.SupersededIsFenced | e2b/src/db/queries/journal.sql:29-52 | a worker whose claim was superseded changes neither operation, lease, ledger, preparation nor objects, and deletes nothing |
| ChildCompletion.UndisturbedSucceeds | e2b/src/postgres-child.ts:196-349 | for every request and limit, and whatever new identifiers the provider gives, nineteen undisturbed steps after obtaining the lock end with the child: lease made, sandbox and snapshot stored and adopted, capture resources gone and reclaimed |
| ChildCompletion.CommitSucceeds | e2b/src/postgres-child.ts:316-349 | from every state satisfying the invariant, a final transaction that lands records success, whether or not its reply arrives |
| ChildCompletion.CoordinatorEnds | e2b/src/postgres-child.ts:196-369 | from every reachable state in which the coordinator works and owns the operation, undisturbed steps free the lock and record succeeded, failed or nothing, if and only if the state is one of the kinds named |
| ChildCompletion.SmoothExists | e2b/src/postgres-child.ts:196-369 | there always are such undisturbed steps |
| ChildCompletion.OneFault | e2b/src/postgres-child.ts:196-369 | one step of a provisioning on its way that ends in any way, and undisturbed steps after it: which of succeeded, failed and left to a reconciler results |
| ChildCompletion.SecondFault | e2b/src/postgres-child.ts:485-502 | one step of the failure handling that ends in any way: the failure is recorded if and only if the handling was in order so far and the step counts as done |
| ChildCompletion.LostReplyLands | e2b/src/postgres-child.ts:436-483 | a transaction whose reply is lost leaves exactly what it leaves when the reply arrives |
| ChildCompletion.LostAnswerTakesEffect | e2b/src/postgres-child.ts:461-483 | a provider call without an answer leaves the same resources as one with an answer |
| ChildCompletion.RecoverySparesListed | e2b/src/postgres-child-reconciler.ts:478-592 | a recovery deletes a resource the ledger still lists only in that entry's own turn, and then marks the entry |
| ChildOutcome.Finishes | e2b/src/postgres-child-reconciler.ts:478-592 | with a ledger within the limit, every step of an undisturbed recovery proceeds and the last one records the failure |
| ChildOutcome.RecoveryCompletesExactly | e2b/src/postgres-child-reconciler.ts:229-262 | for every validated request, from every reachable unfinished state, after a crash and a takeover: if entries and objects together are within the limit and the object reclaimer takes the limit, one undisturbed recovery records the failure; if not, no continuation ever finishes the operation |
| ChildOutcome.NeverRecovered | e2b/src/postgres-child-reconciler.ts:594-602 | an operation whose ledger cannot be listed, or whose limit the object reclaimer refuses, stays unfinished over every continuation |
| ChildOutcome.TooManyObjects | e2b/src/postgres-child-reconciler.ts:594-602 | for every limit a run that crashes with more entries and objects than the limit |
| ObjectReclaimer.NextKeeps | e2b/src/postgres-object-reclaimer.ts:66-318 | locks, jobs, references and swept locations agree after every event, publications and exports included |
| ObjectReclaimer.EraseIsExact | e2b/src/postgres-object-reclaimer.ts:245-263 | an erasure takes bytes another undeleted row names exactly when the location was shared when the reclaim decided |
| ObjectReclaimer.DecisionExposesExactly | e2b/src/postgres-object-reclaimer.ts:218-263 | a decision goes on to erase another row's bytes if and only if it is about an owned allocation, finds the row deleting, and the location is shared at that moment |
| ObjectReclaimer.CheckedEraseIsSafe | e2b/src/postgres-object-reclaimer.ts:281-312 | archive reclaims, recoveries and first-time allocation reclaims never erase bytes another undeleted row names |
| ObjectReclaimer.RecoveryReclaims | e2b/src/postgres-object-reclaimer.ts:281-318 | from every state in which the location is not locked, an undisturbed recovery of a row left deleting deletes the row, frees the lock, and erases the bytes if and only if no other row that is not deleted names them |
| ObjectReclaimer.RecoveryLeaves | e2b/src/postgres-object-reclaimer.ts:281-302 | a row in another state stays as it is, with its bytes |
| ObjectReclaimer.AllocationReclaims | e2b/src/postgres-object-reclaimer.ts:218-280 | the same for the allocation of an owned operation whose row is available and not referenced |
| ObjectReclaimer.AllocationResumes | e2b/src/postgres-object-reclaimer.ts:245-280 | for a row left deleting it deletes the row and erases the bytes in any case |
| ObjectReclaimer.AllocationLeaves | e2b/src/postgres-object-reclaimer.ts:230-262 | and it changes nothing when the operation is not owned, the row is deleted or the object is referenced |
| ObjectReclaimer.ArchiveReclaims | e2b/src/postgres-object-reclaimer.ts:66-118 | the same for a source archive, with or without a row |
| ObjectReclaimer.ArchiveLeaves | e2b/src/postgres-object-reclaimer.ts:75-103 | which changes nothing when the row is elsewhere, deleted or referenced |
| ObjectReclaimer.ResumedAllocationErasesShared | e2b/src/postgres-object-reclaimer.ts:245-263 | a resumed allocation reclaim that erases another row's bytes |
| ObjectReclaimer.ReferencedStays | e2b/src/postgres-state.ts:721-734 | an object with a reference is neither deleting nor deleted |
| ObjectReclaimer.PublishedIsReferenced | e2b/src/postgres-state.ts:277-300 | a new object is available with its bytes and can be referenced, and no other row changes |
| ObjectReclaimer.ReferencedSurvives | e2b/src/postgres-state.ts:721-734 | from every state satisfying the invariant, whatever is published and reclaimed, an object stays available in its place as long as its references are not dropped |
| ObjectReclaimer.UnreferencedIsReclaimed | e2b/src/postgres-object-reclaimer.ts:218-280 | and can be reclaimed once the last one is dropped, and not before |
| ObjectReclaimer.LastRowErases | e2b/src/postgres-object-reclaimer.ts:89-115 | when all rows at a location are deleted, its bytes were erased after the last of them was registered |
| ObjectReclaimer.RegisterKeeps | e2b/src/postgres-state.ts:277-300 | registration under the location lock is invisible to every reclaim under way |
| ObjectReclaimer.AvailableIsStored | e2b/src/workspace-snapshots.ts:719-729 | in every run the bytes of an available object are stored, if and only if it is not the case that a resumed allocation reclaim erased them while shared, or an export registered them after they were erased, with nothing stored there since |
| ObjectReclaimer.ErasureExposes | e2b/src/postgres-object-reclaimer.ts:245-263 | an erasure at the location of an available object is always that of a resumed allocation reclaim |
| ObjectReclaimer.ExportRegistersErased | e2b/src/postgres-patch-export.ts:190-208 | a run in which an export registers an available object whose bytes a reclaim erased after the export had stored them |
| RestoreLineage.LeaseStore.Create | e2b/src/postgres-state.ts:375-402 | a new lease is active and starts its own chain |
| RestoreLineage.LeaseStore.Restore | e2b/src/postgres-state.ts:404-425 | replaces exactly a lost or released, unreplaced lease for the same agent, owner, owner lease and template and its latest available snapshot, releasing it and revoking its tickets and nobody else's |
| RestoreLineage.LeaseStore.Checkpoint | e2b/src/postgres-state.ts:534-549 | moves the latest snapshot of an active or paused lease |
| RestoreLineage.LeaseStore.BeginRelease | e2b/src/postgres-state.ts:561-576 | revokes the tickets and prepares the release; a released lease stays released |
| RestoreLineage.LeaseStore.CompleteRelease | e2b/src/postgres-state.ts:626-639 | completes a prepared release and is idempotent |
| RestoreLineage.LeaseStore.CompleteReconnect | e2b/src/postgres-state.ts:578-592 | a new generation without any live ticket |
| RestoreLineage.LeaseStore.ReplayReconnect | e2b/src/postgres-state.ts:594-607 | likewise for a replayed reconnect |
| RestoreLineage.LeaseStore.MarkLost | e2b/src/postgres-state.ts:609-624 | a lost lease has a new generation and no live ticket |
| RestoreLineage.LeaseStore.IssueTicket | e2b/src/postgres-state.ts:641-665 | the new ticket is the lease's only live one and has its generation |
| RestoreLineage.LeaseStore.ConsumeTicket | e2b/src/postgres-state.ts:667-675 | a ticket neither consumed nor revoked admits, once, to an active lease at the ticket's generation |
| RestoreLineage.OnOneChain | e2b/migrations/0008_restore_lineage.sql:17-19 | leases with one root lie on one chain |
| RestoreLineage.OneUsableLease | e2b/src/postgres-state.ts:453-494 | of the leases of a restore chain at most one is not released, and at most one can be restored |
| RestoreLineage.ReplacedForever | e2b/src/postgres-state.ts:404-425 | a replaced lease stays released, keeps its one replacement and never has a live ticket again |
| ReferenceRetention.ReferenceSet.RetainReferences | e2b/src/postgres-reference-retention.ts:25-92 | compare-and-set on the revision; afterwards the references are exactly the wanted ones |
| ReferenceRetention.ReferenceSet.ClearReferences | e2b/src/postgres-reference-retention.ts:95-134 | a permanent, idempotent clear; afterwards there is no reference |
| ReferenceRetention.RevisionsTell | e2b/src/postgres-reference-retention.ts:42-67 | over any sequence of calls the revision rises exactly as often as the wanted set changes |
| ReferenceRetention.OneSetPerRevision | e2b/src/postgres-reference-retention.ts:54-67 | no revision is ever accepted for two wanted sets |
| ReferenceRetention.ChangeAcceptedExactly | e2b/src/postgres-reference-retention.ts:48-64 | after any sequence of calls, another set is accepted if and only if the caller is authorized, names the present revision, and the set was not cleared or the revisions exhausted |
| ReferenceRetention.FirstAcceptedExactly | e2b/src/postgres-reference-retention.ts:42-47 | the first set is accepted if and only if no revision is expected |
| ReferenceRetention.OneChangePerRevision | e2b/src/postgres-reference-retention.ts:54-67 | of two accepted changes in a sequence of calls the later one names a higher revision, so no update is lost |
| ReferenceRetention.RetryReturnsCurrent | e2b/src/postgres-reference-retention.ts:54-62 | retrying the current set, even with an older expected revision, returns the current revision and changes nothing |
| ReferenceRetention.ClearIsFinal | e2b/src/postgres-reference-retention.ts:51-53 | after an accepted clear no retain is accepted |
| PatchArtifact.CollectContents | e2b/src/patch-artifact.ts:121-128 | the content map, refused exactly for an invalid identifier or a path that comes twice |
| PatchArtifact.CollectReferences | e2b/src/patch-artifact.ts:130-144 | references and size of the changes, refused exactly if a changed file has no content, another change has some, or the size is not representable |
| PatchArtifact.SerializePatchArtifact | e2b/src/patch-artifact.ts:109-168 | the loops produce the specified artifact, bytes and checksum, and refuse exactly the inputs it has none for |
| PatchArtifact.ParseAfterSerialize | e2b/src/patch-artifact.ts:177-215 | parsing a serialized artifact under the same limits returns that same artifact |
| PatchArtifact.SerializeAfterParse | e2b/src/patch-artifact.ts:191-214 | accepted bytes are byte for byte what the serializer produces for the result |
| PatchArtifact.OneEncoding | e2b/src/patch-artifact.ts:191-214 | one artifact has one accepted encoding |
| PatchArtifact.ParsedIsConsistent | e2b/src/patch-artifact.ts:205-214 | a parsed artifact's changes are the diff of its manifests, with content for exactly the changed files |
| PatchArtifact.ParsesExactly | e2b/src/patch-artifact.ts:177-215 | the parser accepts bytes and checksum if and only if the serializer produces them for some input |
| PatchArtifact.SerializesExactly | e2b/src/patch-artifact.ts:109-168 | an input is serialized if and only if its identifiers are valid, its manifests canonical and of the named snapshots, one content object is supplied for each file that differs and for nothing else, and the limits are kept |
| PatchArtifact.SerializedNames | e2b/src/patch-artifact.ts:130-168 | the artifact names exactly the paths at which the manifests differ, each with the object supplied for it |
| PatchPlanning.MaterialById | e2b/src/patch-apply.ts:56-67 | indexes the metadata, refused exactly if over the limit, malformed or repeated |
| PatchPlanning.OnlyFit | e2b/src/patch-apply.ts:76-79 | finds an object exactly if one and only one fits the file |
| PatchPlanning.ManifestContent | e2b/src/patch-apply.ts:69-85 | accepts exactly metadata with one object per file and none unused, and then covers exactly the files |
| PatchPlanning.ArtifactContent | e2b/src/patch-apply.ts:87-108 | accepts exactly the artifact's content objects, each fitting its file |
| PatchPlanning.ApplyChanges | e2b/src/patch-apply.ts:123-146 | overlays the changes; the content of a changed file is always available |
| ConflictReport.ReportIsExact | e2b/src/workspace-manifest.ts:296-311 | the report counts the conflicting paths exactly, lists all of them or, over 256, the first 256 in the order of their URIs, each once, and says whether it is cut off |
| ConflictReport.ConflictsExactly | e2b/src/workspace-manifest.ts:292-308 | the paths reported are exactly those at which base and current differ and the target equals neither |
| ConflictReport.AtMostExactly | e2b/src/workspace-manifest.ts:309-310 | the order of the report is that of dictionaries |
| PatchPlanning.PlanPatchApplication | e2b/src/patch-apply.ts:111-156 | rejects exactly what does not fit together, reports the conflicts as above if and only if at some path base and current differ and the target equals neither, and otherwise plans, path by path, the proposed entry where the patch changes it and the target's elsewhere, with an object of the right digest and size for exactly the files, or rejects it exactly if those entries make no manifest; the two late rejections never happen |
| ConnectFraming.BigEndianRoundTrip | e2b/src/e2b-secure-data-plane.ts:60-71 | a length survives encoding and decoding |
| ConnectFraming.ConnectEnvelope | e2b/src/e2b-secure-data-plane.ts:56-63 | flag zero, length and payload, refused exactly over the limit |
| ConnectFraming.Extend | e2b/src/e2b-secure-data-plane.ts:70-87 | decoding a prefix and then the rest with what was left over is decoding the whole |
| ConnectFraming.TakeFrames | e2b/src/e2b-secure-data-plane.ts:70-77 | takes exactly the whole messages off the buffer |
| ConnectFraming.ConnectFrames | e2b/src/e2b-secure-data-plane.ts:65-94 | delivers the frames of the whole stream and its truncation verdict, or stops at a size limit exactly when a chunk or a header exceeds it, after a prefix of the frames |
| ConnectFraming.DecodeTwice | e2b/src/e2b-secure-data-plane.ts:65-94 | two chunkings of one stream that meet no size limit give the same frames and verdict |
| ConnectFraming.EnvelopesDecode | e2b/src/e2b-secure-data-plane.ts:56-94 | decoding a concatenation of envelopes gives the payloads back, with flag zero and nothing left over |
| ConnectFraming.WireDecodes | e2b/src/e2b-secure-data-plane.ts:65-94 | messages with any flags decode to themselves, with nothing left over |
| ConnectFraming.ReceiveAll | e2b/src/e2b-secure-data-plane.ts:65-94 | so a peer's messages are received exactly, however they are cut into chunks, unless a chunk or a header meets a size limit |
| GatewayQueue.GatewayProxy.ClientFrame | e2b/src/gateway.ts:169-195 | a frame is sent, queued behind all earlier ones, or closes the connection exactly when it exceeds a limit, is not admitted or has no upstream |
| GatewayQueue.GatewayProxy.Flush | e2b/src/gateway.ts:226-242 | hands the queue to the socket in order, also when the peer has begun to close; closes the connection exactly at the first frame that the socket's buffer has no room for, after the frames before it |
| GatewayQueue.GatewayProxy.PeerBeginsClosing | e2b/src/gateway.ts:256-260 | until the proxy hears of it, a peer that begins to close changes nothing but what a later frame meets |
| GatewayQueue.GatewayProxy.Cleanup | e2b/src/gateway.ts:142-154 | closing drops the queue and keeps what was sent a prefix of what was accepted |
| GatewayQueue.GatewayProxy.UpstreamClosed | e2b/src/gateway.ts:256-260 | an upstream close or error closes the connection |

## Left out

- Paths that reach the checkout through symbolic-link ancestors, ignored-addition policy and the Git projection: apply checks and projects them before the loops modelled here.
- The directories the journal owns (backup, discard, stage) are assumed to accept files, and making a directory and setting its mode are one step.
- The order of local paths of equal depth: the proofs hold for every such order.
- Edits by other programs while a local apply is running; of edits afterwards only `RollbackOnlyUndoes` and the exact meaning of the rollback's answer are claimed.
- Heartbeat timers, lock timeouts and staleness by the clock: a takeover may happen at any time instead.
- The interaction gate and outside commands in child provisioning; in patch application the gate is one bit that other operations set, not the ledger of `Quiescence`.
- In patch application a closed lease stays closed and the target keeps its sandbox.
- Validation of identifiers, byte limits of texts, Unicode rules and error messages; errors are distinguished only where a caller acts on them.
- The contents of workspace preparations and the exact comparison of a preparation's intent with the operation; the protocols count object allocations and do not list them.
- Recovery of a child lease that was committed while its operation stayed in progress: the final transaction commits both together, so the model has no such state.
- InitializeReply: says nothing of the rows after a refused resume, which may have taken over some processes; `TrackerRefinement.TakeOver` does, turn by turn.
- Ledger calls that fail while a connection detaches: `Detach` states the effect when the ledger is reachable, and the state machine of `Quiescence` covers any part of it.
- The generic `transitionLeaseState`, ticket expiry and ticket cleanup.
- Operation allocations in the object reclaimer: only rows, references, locations and bytes are modelled, and every way to add a reference is one event. A publication's lock is held for one event.
- Command line, provider client, blob store, archive encoding, SQL text and HTTP handling.

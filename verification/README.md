# D3R: a verified model of its protocols and transformations

D3R runs multi-agent workflows behind the Agent Client Protocol. This project models the parts of it where a mistake
would be hard to see in review, and proves what those parts promise:

- the workflow engine, which compiles a chain of agents, parallel groups, human checkpoints and bounded loops to a flat
  record list and drives it through interrupts, pauses, resumes and restarts;
- the orchestrated runtime around it, whose parallel roles each end in one of many ways and may leave a conversation
  behind to be continued;
- the session lock, a publish-then-scan claim protocol between processes that may crash;
- write-ahead persistence of a session: intent, effects, checkpoint;
- permission requests: canonical identities and the monitor that shares grants;
- transcript repair, plain-data admission, glob matching, JSON body extraction and the bounded role transcript.

`dafny verify dfyconfig.toml` checks everything.

## Layout

| files | subject |
|---|---|
| `Workflow`, `Records`, `Compile`, `CompileProofs`, `CompileMeaning`, `Expansion` | workflow chains, records, compilation |
| `Engine`, `EngineDraft` | the transitions as functions of states, and the same transitions as in-place edits of a copy |
| `EngineInvariant`, `EngineSteps`, `LoopClosing`, `EngineTransitions`, `EngineCheckpoints` | what every transition keeps |
| `EngineRuns`, `EngineConfluence`, `CheckpointRuns` | whole runs; order of reports; runs from any accepted checkpoint |
| `BatchOutcomes`, `Continuing` | how a batch, an answer, an interruption and a continuation end, exactly |
| `Continuations`, `WorkflowRuntime`, `RuntimeProofs`, `RuntimeSession`, `RoleEndings`, `DriveRuns` | roles, their retained conversations, and the drive |
| `LockOwner`, `SessionLock`, `ClaimCollection`, `LockRecovery` | process identity, the claim protocol, one attempt's own scan, recovery from crashes |
| `Persistence`, `PersistenceProofs`, `PersistenceSession`, `PersistenceRuns` | crash consistency; the session object and its store; what is achieved when nothing fails |
| `CanonicalJson`, `CanonicalText`, `CanonicalProofs`, `CanonicalPrinter`, `CanonicalGrammar`, `CanonicalBytes`, `PermissionIdentity`, `TraversalBudget` | canonical JSON, its grammar, bytes and limits, and exact grants |
| `PermissionMonitor`, `PermissionServices`, `PermissionGrants`, `PermissionProgress` | concurrent permission scopes; which requests a grant covers; that nobody waits for nothing |
| `Globs`, `JsonBody`, `ToolBatches`, `ToolBatchProofs`, `PlainData`, `PlainDataProofs`, `RoleTranscripts` | one algorithm each |
| `CodeUnits`, `Text`, `Wrappers` | UTF-16 text, trimming and decimals, options and results |

Concurrent code is modelled as a state machine whose events are the stretches of code between two awaits; every result
of the file system, a process probe, a backend or a client is a parameter of its event, so runs range over all of them.
Where the repository updates objects in place, a class or a loop is proved equal to a function of values, and the
properties are proved about that function.

Findings, each with its lemma:

- A checkpoint does not wait for terminal commands: a turn cancelled while `terminal/create` is unanswered leaves a
  restorable session whose command may still run (`PersistenceProofs.CancelledCreate`). Behind a restorable file nothing
  at all is in flight exactly when every command given up on has been cleaned up since
  (`PersistenceProofs.NothingInFlight`).
- The checkpoint validator lets a mode question stand over work that has started, for any command but "develop"; answering
  it begins the next batch past an unfinished record (`CheckpointRuns.ModeBypass`). For every other accepted checkpoint,
  no run ever does (`CheckpointRuns.NoBypass`, and `CheckpointRuns.RestoredTrusted` for the exact condition).
- A continued role that fails before its new prompt starts loses its retained conversation although nothing has happened
  since (`RoleEndings.SetupFailsExact`); if it was cancelled, its work cannot be continued
  (`RoleEndings.LostBeforePrompt`).
- `jsonKeys` asks room for an array's own `length` among the remaining nodes, but the title of a request is always
  visited last and gives it: no request within the limits is refused (`TraversalBudget.EnvelopeExact`).
- The two glob matchers agree on a path, for every glob, exactly when the path has no line terminator
  (`Globs.Agreement`); a given glob's matchers agree on every path exactly when it has no `**` (`Globs.GlobAgreement`).
- The ancestor check of `assertPlainData` refuses nothing that the depth limit would not refuse
  (`PlainDataProofs.WalkExact`); it only refuses sooner.

Assumptions about the world: boot, machine and namespace identifiers and start times identify what they are documented
to identify, off Linux the host name identifies the machine and its pid table, and a directory scan returns every entry
present throughout the scan (`LockOwner`, `SessionLock`); rename replaces a file atomically, and a backend acts only
inside the calls it is given (`Persistence`); the digest of a canonical text has no collisions, and a finite number
prints as a text that determines it (`PermissionIdentity`).

## Model

| member | source | states |
|---|---|---|
| CompileProofs.ExpandExact | core/engine.ts:97-161 | the budgeted traversal of a chain fails exactly on an invalid step, an exceeded depth or an exceeded record budget, and otherwise uses exactly the closed-form count |
| CompileProofs.CompileExact | core/engine.ts:89-163 | compilation fails exactly on an unknown command, an invalid chain or more than 10,000 records; otherwise the record count is the recursive closed form |
| CompileProofs.CompiledStructured | core/engine.ts:89-163 | record ids are pairwise distinct, members of a batch are contiguous agents with identical loop scopes, and two records that share a loop id share every scope enclosing it |
| CompileMeaning.CompiledCarries | core/engine.ts:106-163 | whatever compiles is the chain unrolled, record by record: each agent under its own name, parallel agents in order and in one batch, each checkpoint with its prompt, each loop body once for every pass and an end after it, with the passes it lies in |
| Expansion.CompileRecords | core/engine.ts:89-163 | the nested loops that push records compute the specified list, error for error; `CompileMeaning.CompiledCarries` says what that list is |
| EngineSteps.AdvanceKeeps | core/engine.ts:183-209 | from a settled frontier, advancing stops at the next agent batch, checkpoint, exhausted loop or end with the invariant intact and no finished record touched |
| EngineTransitions.CreateExact | core/engine.ts:212-236 | an engine can be created exactly when its command compiles; it keeps workflow, command and mode, and asks for a mode, before any work, exactly for "develop" without one |
| EngineTransitions.CreateKeeps | core/engine.ts:212-236 | a created engine satisfies the invariant, whether it starts ready or asks for a mode |
| EngineTransitions.BeginKeeps | core/engine.ts:238-262 | starting a batch keeps the invariant: exactly the frontier batch runs |
| BatchOutcomes.BeginExact | core/engine.ts:238-262 | a ready engine begins exactly the batch of its first unfinished record: all of it runs, and nothing else changes |
| BatchOutcomes.RecordExact | core/engine.ts:265-293 | a report is taken exactly from a running child and changes its record alone: trimmed outcome, and completed, waiting or blocked exactly as status, error and validity of the report say |
| BatchOutcomes.BatchEnds | core/engine.ts:265-367 | once every running child has reported, in any order, the batch pauses on a failure iff a report failed or a member had, else on a question iff one asks, naming the first such member, and else is crossed with every member completed by its report; a semi engine pauses before the next batch |
| BatchOutcomes.SkippedExactly | core/engine.ts:296-335 | a crossed barrier skips exactly the pending records inside a loop of the batch that a reviewer approved, or an implementor declared done with no review of that iteration outstanding, when nobody asked for changes |
| EngineTransitions.RecordKeeps | core/engine.ts:265-293 | a report keeps the invariant: one running member of the frontier batch changes, lawfully, and nothing is skipped |
| EngineTransitions.SettleKeeps | core/engine.ts:338-367 | crossing or pausing at the barrier keeps the invariant and every finished record |
| EngineTransitions.AnswerKeeps | core/engine.ts:370-400 | an accepted answer to a mode, human or semi pause keeps the invariant and every finished record |
| BatchOutcomes.AnswerExact | core/engine.ts:370-400 | exactly which answers each pause takes, and what an accepted one does: "semi" and "auto", up to case and outer white space, choose the mode, a checkpoint's answer is kept word for word, and otherwise only control records change |
| BatchOutcomes.AdvanceControl | core/engine.ts:183-209 | advancing changes pending control records only, and a checkpoint it stops at asks with its own prompt |
| EngineTransitions.InterruptKeeps | core/engine.ts:403-415 | interruption keeps the invariant in every state, skips nothing and keeps finished records |
| LoopClosing.CloseLoopsDecides | core/engine.ts:296-335 | folding the closing rule over a settled batch, with its re-reading of already skipped records, either skips the whole loop once or changes nothing, as one condition on the batch decides |
| LoopClosing.InsideSharesEnclosing | core/engine.ts:97-161 | being inside a loop by id is the same as sharing all its enclosing scopes, iterations included, so another outer iteration's instance is never inside |
| LoopClosing.ExactClosing | core/engine.ts:296-335 | a record changes exactly if the batch closes its loop and the record is pending inside that very loop instance, and then it is skipped; a single changes_requested prevents it |
| LoopClosing.AllDoneKeepsReview | core/engine.ts:296-335 | a pending reviewer of the current iteration is skipped only when a reviewer of the batch approved and none requested changes |
| EngineCheckpoints.ParseAccepts | core/engine.ts:429-526 | the strict validator accepts every lawful state and returns it unchanged |
| EngineCheckpoints.RestoreExact | core/engine.ts:645-648 | restoring a lawful state gives the same state, or exactly its interruption if it was running |
| EngineCheckpoints.ResumeKeeps | core/engine.ts:529-638 | a continuation that succeeds keeps the invariant and every finished record |
| Continuing.InterruptedExact | core/engine.ts:529-592 | interrupted work resumes exactly if some child was interrupted and none failed or asks; then exactly the interrupted records run again and nothing else changes |
| Continuing.ReportedExact | core/engine.ts:595-620 | a batch paused on questions always resumes, with exactly its askers running anew |
| Continuing.BlockedExact | core/engine.ts:623-638 | a failed batch restarts exactly if no final loop end is blocked, with exactly its failed records running anew |
| Continuing.ResumeUndoesInterrupt | core/engine.ts:403-592 | resuming an interruption of running work gives the very state back exactly if no sibling failed or asks, and is refused otherwise |
| Continuing.CanResumeExact | cli/src/workflow-continuations.ts:95-118 | which paused work can be continued, by pause, records and retained conversations |
| Continuing.RowsBelong | cli/src/workflow-continuations.ts:51-78 | conversations accompany a lawful state exactly if each belongs to a child that stopped, and no child has two |
| EngineRuns.ApplyKeeps | core/engine.ts:238-415 | every transition keeps the invariant, and only settling can skip a record |
| EngineRuns.ReachableLawful | core/engine.ts:212-236 | every sequence of transitions from a created engine, refused ones included, ends in a lawful state |
| EngineRuns.ReachableCheckpoints | core/engine.ts:429-526 | every reachable state is accepted by the validator and restores to itself or to its interruption |
| EngineRuns.LoopGate | core/engine.ts:183-209 | if any record has started, each final loop end before it is skipped, witnessed by an earlier completed approval or allDone inside that loop: nothing runs past an unapproved loop, through interrupt, resume and restart |
| EngineRuns.ReachableFrontier | core/engine.ts:183-262 | in every reachable state one batch separates finished records from unstarted ones |
| EngineRuns.NoReplay | core/engine.ts:338-400 | along any run, completed records keep status, outcome and answer, and skipped records stay skipped |
| CheckpointRuns.RestoredTrusted | core/engine.ts:429-526 | a restored checkpoint has only earned completions, and leaves open only what its status allows, exactly unless it asks for a mode over started work |
| CheckpointRuns.NoBypass | core/engine.ts:429-648 | from any checkpoint the validator accepts, apart from that exception, no run begins a batch past an unfinished record, and every completed record before it has its completed report or answer |
| CheckpointRuns.ModeBypass | core/engine.ts:484-490 | the exception is real: a mode question over a failed batch is accepted, and the answer "auto" lets the next batch begin |
| EngineRuns.BatchBound | core/engine.ts:238-262 | over any run the number of batches begun from ready states is at most the record count |
| EngineConfluence.RecordsCommute | core/engine.ts:265-293 | two reports commute, success or failure alike |
| EngineConfluence.CommitPermutation | core/engine.ts:265-293 | any arrival order of the same reports gives the same state or the same refusal |
| EngineConfluence.BarrierConfluence | core/engine.ts:338-367 | the same holds through the barrier |
| EngineDraft.Draft.Advance | core/engine.ts:183-209 | the loop over the copied records computes the specified advance |
| EngineDraft.Draft.CloseLoops | core/engine.ts:296-335 | the in-place closing loop computes the specified fold |
| EngineDraft.CreateEngine | core/engine.ts:212-236 | in-place creation equals the transition on values |
| EngineDraft.BeginBatch | core/engine.ts:238-262 | in-place begin equals the transition on values |
| EngineDraft.RecordOutcome | core/engine.ts:265-293 | in-place recording equals the transition on values |
| EngineDraft.SettleBatch | core/engine.ts:338-367 | in-place settling equals the transition on values |
| EngineDraft.AnswerCheckpoint | core/engine.ts:370-400 | in-place answering equals the transition on values |
| EngineDraft.InterruptEngine | core/engine.ts:403-415 | in-place interruption equals the transition on values |
| EngineDraft.Resume | core/engine.ts:579-638 | in-place resume equals the transition on values |
| RuntimeProofs.ConcludedNotCompleted | cli/src/workflow-runtime.ts:516-561 | a role that keeps a conversation is recorded, if at all, as a failure or a question that validation lets it keep |
| RuntimeProofs.FinishKeeps | cli/src/workflow-runtime.ts:516-561 | the tail of a role, on every exit path, replaces its row and updates the engine so that both stay consistent while siblings are still running |
| RuntimeProofs.SetupFailsKeeps | cli/src/workflow-runtime.ts:417-443 | a role that fails before its first prompt keeps engine and conversations consistent, with or without a child to dispose |
| RuntimeProofs.ReturnKeeps | cli/src/workflow-runtime.ts:480-500 | completion, resource stop, refusal and cancellation each leave locals that conclude consistently |
| RuntimeProofs.ThrowKeeps | cli/src/workflow-runtime.ts:501-515 | a prompt that throws, with or without a context-limit failure, does too |
| RoleEndings.ConversationKept | cli/src/workflow-runtime.ts:480-558 | once the child is gone its conversation is kept exactly if its disposal was clean, its snapshot could be taken, its work was not accomplished before cancellation, and it did not run into a limit with an error; nobody else's is touched |
| RoleEndings.RoleRecorded | cli/src/workflow-runtime.ts:480-561 | the role's record completes, asks or fails as it reported, fails if anything went wrong, asks to be continued after a limit with its conversation kept, and is left alone if the turn was cancelled first |
| RoleEndings.StartsExact | cli/src/workflow-runtime.ts:443-448 | starting a prompt drops exactly the role's old conversation and opens it to reports |
| RoleEndings.ReportExact | cli/src/workflow-runtime.ts:405-416 | a report counts exactly during the prompt, before cancellation, once and in shape; any other leaves an error |
| RoleEndings.SetupFailsExact | cli/src/workflow-runtime.ts:417-561 | a role that fails before its prompt loses its old conversation, and its record fails unless the turn was cancelled first |
| RoleEndings.LostBeforePrompt | cli/src/workflow-runtime.ts:417-561 | a continued role cancelled before its prompt starts cannot be continued again |
| DriveRuns.LaunchExact | cli/src/workflow-runtime.ts:618-629 | one call is started for each running record and for nobody else, untried, preserving limits exactly for roles that write no documents |
| DriveRuns.DriveIsBarrier | cli/src/workflow-runtime.ts:610-637 | beginning a batch, running its children to their reports and settling leaves exactly the state that the engine's own barrier gives for those reports |
| DriveRuns.ContinueExact | cli/src/workflow-runtime.ts:791-838 | continuing resumes exactly what can be resumed, answers what is asked, and keeps every conversation |
| DriveRuns.DriveFailsExact | cli/src/workflow-runtime.ts:839-856 | a failing drive interrupts what still runs and settles what does not, keeps the conversations and frees the phase |
| DriveRuns.PromptErrsExact | cli/src/workflow-runtime.ts:1081-1092 | a failing prompt never leaves a batch running, and resuming takes up exactly what it interrupted |
| DriveRuns.StartExact | cli/src/workflow-runtime.ts:767-790 | a phase starts exactly if nothing is busy or unfinished and its command compiles, and from nothing |
| DriveRuns.ReturnExact | cli/src/workflow-runtime.ts:610-655 | a drive frees the phase only when the workflow has stopped and nobody is in flight |
| DriveRuns.RoutedExact | cli/src/workflow-runtime.ts:858-861 | a new routed prompt leaves nothing of a workflow that is over, and everything of one that is not |
| RuntimeProofs.RecoveryKeeps | cli/src/workflow-runtime.ts:839-852 | the error path of a phase action, interrupting or settling, keeps both consistent |
| RuntimeProofs.ResumeLive | cli/src/workflow-runtime.ts:798-815 | continuing a task keeps every retained conversation attached to a record that may own it |
| RuntimeProofs.NextKeeps | cli/src/workflow-runtime.ts:382-861 | every stretch of code between two awaits keeps the invariant, the router's archiving of a finished workflow while its phase action is still busy included |
| RuntimeProofs.RoutedDropsNoRole | cli/src/workflow-runtime.ts:858-861 | when a routed prompt archives a workflow, no role of it is in flight, whatever phase action is still busy |
| RuntimeProofs.SnapshotRestores | cli/src/workflow-continuations.ts:51-78 | a snapshot taken in any consistent state restores: the engine is accepted and its continuations validate against it |
| RuntimeProofs.ReloadKeeps | cli/src/workflow-runtime.ts:1134-1181 | reloading always succeeds and keeps every conversation |
| RuntimeProofs.EveryAwaitPoint | cli/src/workflow-runtime.ts:610-655 | at every await point of every run the retained conversations have unique ids and validate against the engine as it would be restored |
| RuntimeSession.Session.DropRow | cli/src/workflow-runtime.ts:445-447 | the filter loop removes exactly the rows of one record |
| RuntimeSession.Session.StartPrompt | cli/src/workflow-runtime.ts:443-448 | starting a prompt drops the predecessor's conversation and opens the report callback |
| RuntimeSession.Session.Report | cli/src/workflow-runtime.ts:405-416 | a report is accepted exactly while prompting, unaborted, once and well formed |
| RuntimeSession.Session.Conclude | cli/src/workflow-runtime.ts:531-552 | disposal and resource stops are folded into outcome, error and retained conversation as specified |
| RuntimeSession.Session.FinishChild | cli/src/workflow-runtime.ts:531-561 | the closure variables after a role equal the specified tail |
| RuntimeSession.Session.RecoverDrive | cli/src/workflow-runtime.ts:842-856 | the catch block of a phase action equals the specified event |
| RuntimeSession.Session.AbandonPhase | cli/src/workflow-runtime.ts:656-673 | archiving drops engine and conversations together, and only when a phase is unfinished and idle |
| LockOwners.DeadIsGone | adapters/acp/lock-owner.ts:272-336 | `dead` is reported only for a process that is gone, whatever evidence is missing, on any platform, across reboots and pid reuse |
| LockRecovery.DeadExactly | adapters/acp/lock-owner.ts:272-336 | on any platform, some truthful observation reports an owner dead if and only if its death can be deduced: same host and platform and, off Linux, its pid free; on Linux an earlier boot of the same machine, or its pid free or reused at another tick |
| LockRecovery.DeadByConfirmation | adapters/acp/lock-owner.ts:328-335 | an owner that vanishes between the probe and the reading of its start time is found dead by the second probe |
| SessionLock.NextKeeps | adapters/acp/session-lock.ts:108-147 | each step of publishing, scanning, judging, collecting, checking and withdrawing keeps the claim invariant, crashes included |
| SessionLock.MutualExclusion | adapters/acp/session-lock.ts:168-221 | for any number of processes, interleavings and crashes, two live attempts never both hold the lease |
| SessionLock.RemovedOnlyByOwner | adapters/acp/session-lock.ts:98-147 | a claim whose owner is alive leaves the registry only by that attempt's own withdrawal or release |
| ClaimCollection.CollectClaims | adapters/acp/session-lock.ts:115-147 | the scan stops at the first entry that is one too many or not its own, vanished, or readable, proven dead and removed from the same directory; it succeeds exactly when it never stops, and removes exactly the proven-dead claims before that point |
| ClaimCollection.ScanIsRun | adapters/acp/session-lock.ts:115-147 | a successful scan made while the world stands still is a run of the protocol's steps, and removes the same claims |
| ClaimCollection.Lease.Release | adapters/acp/session-lock.ts:198-207 | a release whose directory check or unlink fails removes nothing and may be tried again; one that succeeded removes the claim once, and repeating it changes nothing |
| SessionLock.Obtainable | adapters/acp/session-lock.ts:168-221 | a sole contender does obtain the lease |
| ClaimCollection.ObtainableAgain | adapters/acp/session-lock.ts:168-221 | from any state of the invariant in which every remaining claim's owner can be proven dead, a new attempt can obtain the lease |
| ClaimCollection.ObtainableAfter | adapters/acp/session-lock.ts:168-221 | the same after any run, crashes included |
| LockRecovery.ObtainableAfterCrashes | adapters/acp/session-lock.ts:168-221 | whatever happened before, once every owner left in the registry is gone from this host, the lease can be had again |
| LockRecovery.LeaseChangesHands | adapters/acp/session-lock.ts:198-207 | a released lease can be taken by another process, if all other owners are gone |
| LockRecovery.FailedGivesWay | adapters/acp/session-lock.ts:208-213 | an attempt that fails after publishing takes its claim back |
| ClaimCollection.DeadOnSameBoot | adapters/acp/lock-owner.ts:272-336 | a dead owner of the same boot can be proven dead, unless a process that took its pid started at the very same tick |
| ClaimCollection.DeadBeforeReboot | adapters/acp/lock-owner.ts:272-336 | an owner from an earlier boot of the same machine can be proven dead |
| PersistenceProofs.CrashConsistency | adapters/acp/session.ts:62-120 | at every point of every run, with crashes and saves that report failure after their rename, a restorable file accounts for every effect ever begun, terminal commands included, with no client write in flight or unknown and no command that anybody still waits for; any other file ends in an intent and is refused |
| PersistenceProofs.NothingInFlight | adapters/acp/client.ts:284-389 | behind a restorable file the commands that may still run are exactly those given up on, by an abort, a clean-up that failed or timed out, the end of a turn or a crash, and not cleaned up since; nothing at all is in flight if and only if there are none |
| PersistenceProofs.CancelledCreate | adapters/acp/client.ts:293-317 | a turn cancelled while its terminal is being created ends in a restorable file that counts the command, which may still run |
| PersistenceProofs.IntentBeforeEffect | adapters/acp/persistence.ts:19-54 | effects begin only behind a durable intent and only by the lease holder |
| PersistenceProofs.OneWriter | adapters/acp/store.ts:306-340 | only the lease holder's rename changes the file; deletion needs the lease to be free |
| PersistenceProofs.ReleasedWhenSettled | adapters/acp/session.ts:340-357 | short of a crash the lease is given up only when the active operation and its checkpoint attempt have settled and no client write is in flight; an unfailed session then leaves a file accounting for every effect; however the run goes on, that opener never holds the lease again and none of its steps does anything |
| PersistenceProofs.FailedStops | adapters/acp/session.ts:216-239 | a failed session begins no effect and writes nothing more |
| PersistenceProofs.CleanCloseIsRestorable | adapters/acp/session.ts:187-213 | an idle session that has not failed has a restorable file with all its effects |
| PersistenceRuns.TurnKept | adapters/acp/session.ts:241-294 | from any point at which a session is idle and has not failed, a turn in which no save fails ends with a file holding its whole transcript in order, between its intent and a checkpoint of the current version |
| PersistenceRuns.DeclineLeavesNoTrace | adapters/acp/session.ts:246-259 | an operation that is declined before its intent leaves the session as it was |
| PersistenceRuns.AnsweredWriteKept | adapters/acp/client-writes.ts:19-49 | a turn whose client write is answered ends with a file that counts it |
| PersistenceRuns.LostWriteFails | adapters/acp/client-writes.ts:12-50 | a turn whose client write is lost with the connection leaves the session failed and its file refused |
| PersistenceRuns.OpensAgain | adapters/acp/lifecycle.ts:96-266 | whatever happened before, a session whose file can be restored and whose lease is free can be opened again, with everything that was in the file |
| PersistenceRuns.DeletedForGood | adapters/acp/store.ts:340-352 | a session deleted while nobody has it open stays gone: no file is ever written again and no effect begins |
| PersistenceRuns.ReleaseExact | adapters/acp/session.ts:340-357 | the lease is given up exactly when set-up was rolled back or the session is idle and closing |
| PersistenceProofs.SetupKeeps | adapters/acp/lifecycle.ts:96-266 | acquiring, reading, restoring behind an intent, undoing it and activating keep the crash invariant and never touch the file themselves; only applying a restore begins effects, and only while the file is marked by an intent |
| PersistenceProofs.AbortUndone | adapters/acp/lifecycle.ts:113-123 | an abort between the restore intent and the first runtime mutation has begun no effect, and if the undoing save took place the stored session is readable as it was found; otherwise the file is refused |
| PersistenceProofs.CommitKeeps | adapters/acp/session.ts:62-120 | the checkpoint decision keeps the crash invariant, in set-up and after a turn |
| PersistenceProofs.CommitDecides | adapters/acp/session.ts:62-120 | once writes have settled, an unknown write, a prior failure or a missing snapshot changes neither file nor effects and leaves the session failed; otherwise the transcript with a checkpoint of the current version, which counts every effect, is on its way to the file |
| PersistenceSession.Store.Get | adapters/acp/store.ts:296-305 | reading returns nothing, a completed session, or a refusal, and never an incomplete one |
| PersistenceSession.Store.Save | adapters/acp/store.ts:306-340 | a save writes only a final checkpoint or intent, and may have taken effect although it reports failure |
| PersistenceSession.Session.Admit | adapters/acp/session.ts:216-239 | an operation is admitted exactly when none is active and the session is neither closing nor failed |
| PersistenceSession.Session.BeginSessionMutation | adapters/acp/persistence.ts:33-54 | the backend may run exactly when the intent was acknowledged; otherwise the session fails |
| PersistenceSession.Session.SettleWrites | adapters/acp/session.ts:62-80 | the writes outstanding are waited for one by one; those never answered leave an unknown outcome |
| PersistenceSession.Session.CheckpointSession | adapters/acp/session.ts:62-120 | from set-up or after a turn, with any writes and commands outstanding: success means the file is the transcript plus a checkpoint of the current version; anything else marks the session failed, or rolls its set-up back |
| PersistenceSession.Session.CleanUp | adapters/acp/client.ts:383-389 | the turn's terminals are cleaned up one by one; a clean-up that is not answered leaves its command running |
| PersistenceSession.Session.SettleBackend | adapters/acp/session.ts:187-201 | terminals are cleaned up, a failed turn clean-up marks the session before any checkpoint is attempted, and a published configuration joins the transcript |
| PersistenceSession.Session.DisposeSession | adapters/acp/session.ts:340-357 | disposal, in any phase and any number of times, closes the session, and gives up the lease only once no operation is active |
| PersistenceSession.SettledIsRun | adapters/acp/session.ts:187-201 | the clean-up of a turn is a run of single steps |
| PersistenceSession.WritesSettledIsRun | adapters/acp/session.ts:62-80 | so is the settling of writes |
| PersistenceSession.BegunIsRun | adapters/acp/persistence.ts:33-54 | the method is a run of single steps, so crash consistency holds at each point inside it |
| PersistenceSession.CommittedIsRun | adapters/acp/session.ts:62-120 | so is the checkpoint, from set-up or after a turn, with writes and commands outstanding |
| PersistenceSession.DisposedIsRun | adapters/acp/session.ts:340-357 | so is disposal, in any phase |
| CanonicalText.EscapedCut | adapters/acp/permission-identity.ts:105-110 | quoted text can be cut back: escapes and surrogate pairs included, it determines its string and where it ends |
| CanonicalText.RenderCut | adapters/acp/permission-identity.ts:111-166 | the rendering of a JSON value, whatever follows it, determines the value and where it ends |
| CanonicalProofs.AscendingUnique | adapters/acp/permission-identity.ts:83-88 | a set of fields has one listing in ascending key order |
| CanonicalProofs.ArrangeKeeps | adapters/acp/permission-identity.ts:83-88 | sorting keys at every depth keeps the meaning of the value and leaves keys ascending |
| CanonicalProofs.ArrangedUnique | adapters/acp/permission-identity.ts:83-88 | sorted values with the same meaning are identical |
| CanonicalProofs.PrintStrips | adapters/acp/permission-identity.ts:123-163 | normalization does not show in the text: absent fields and the sign of zero leave no trace |
| CanonicalProofs.LossExact | adapters/acp/permission-identity.ts:123-153 | the loss flag is raised exactly when normalization changes the value |
| CanonicalProofs.CanonicalFaithful | adapters/acp/permission-identity.ts:91-169 | two inputs print the same text exactly when their normalized JSON values are equal, objects being unordered; without loss, exactly when the values themselves are equal |
| CanonicalGrammar.PrintIsJson | adapters/acp/permission-identity.ts:91-169 | canonical text is a text of the JSON grammar, and read as RFC 8259 says it means the normalized value |
| CanonicalBytes.PrintBytes | adapters/acp/permission-identity.ts:98-104 | the counted size of canonical text is the length of its UTF-8 encoding |
| CanonicalPrinter.Printer.Append | adapters/acp/permission-identity.ts:98-104 | text is appended exactly while the UTF-8 budget holds |
| CanonicalPrinter.Printer.Visit | adapters/acp/permission-identity.ts:111-166 | the recursive traversal succeeds exactly within the depth, node and byte limits and then has appended the sorted rendering, counted the nodes and raised the loss flag as specified |
| PermissionIdentities.CanonicalText | adapters/acp/permission-identity.ts:92-169 | the whole traversal gives canonical text and loss flag, or nothing |
| PermissionIdentities.WalkReviews | adapters/acp/permission-identity.ts:111-166 | whatever the traversal gets through is plain data apart from tolerated losses |
| TraversalBudget.WalkExact | adapters/acp/permission-identity.ts:63-166 | from any depth and count, the traversal gets through exactly the values with nothing refused on sight, nested within the depth limit, whose nodes fit; a total of exactly 4096 does not fit if the value ends, through last items and fields, in an array of single nodes |
| TraversalBudget.EnvelopeExact | adapters/acp/permission-identity.ts:63-193 | for the envelope of any request, canonicalization succeeds exactly within the depth, node and byte limits: the room the traversal asks for beyond them never decides |
| TraversalBudget.IdentityExact | adapters/acp/permission-identity.ts:172-216 | an identity, with the request's own call id, title, kind and scope, is given to exactly the plain-data requests with a known kind whose input is admissible, at most 31 deep, of at most 4093 nodes, and within the byte limit; it is exact exactly when normalization changes nothing |
| TraversalBudget.ScopeExact | adapters/acp/client.ts:51-65 | a scope is found for exactly the reviewed requests that carry valid metadata or lose nothing to normalization |
| PermissionIdentities.ExactGrant | adapters/acp/permission-identity.ts:172-216 | with a collision-free digest two requests share an exact identity exactly when title, kind and JSON input agree; call id and key order never matter |
| PermissionIdentities.SharedScope | adapters/acp/client.ts:51-65 | two requests fall under one scope exactly when both carry valid metadata with the same id, or neither does and they agree on title, kind and JSON input; explicit and exact scopes never alias |
| PermissionMonitor.OneDialog | adapters/acp/client.ts:171-249 | under any interleaving of requests, replies, aborts and disposal, a scope has at most one uncancelled dialog |
| PermissionMonitor.GrantsBounded | adapters/acp/client.ts:107-113 | the remembered grants are the newest 1024 of those given, and none after disposal |
| PermissionMonitor.TrueOnlyWhenAllowed | adapters/acp/client.ts:199-242 | a call returns true exactly when its own dialog was answered with an allowing choice while it was unaborted, or when its scope was still remembered, at the moment it was decided, from such an answer to an earlier call that itself returned true |
| PermissionGrants.GrantCovers | adapters/acp/client.ts:171-249 | in any run, a call that returns true was allowed in its own dialog or is covered by a thread grant selected for a request with the same explicit id, or the same title, kind and JSON input |
| PermissionMonitor.NextKeeps | adapters/acp/client.ts:171-249 | each step between awaits keeps locks, calls and grants consistent, the unconditional release in the finally block included |
| PermissionProgress.RequestExact | adapters/acp/client.ts:171-207 | a request is refused exactly if it has no scope, is aborted or comes after disposal; else it waits exactly if a dialog for its scope is up, is told yes exactly if its scope is remembered, and else has its dialog |
| PermissionProgress.WakeExact | adapters/acp/client.ts:194-207 | a call whose wait is over competes again in the same way, unless it was aborted |
| PermissionProgress.GiveUpExact | adapters/acp/client.ts:229-249 | an aborted call that gives up is refused and frees its scope |
| PermissionProgress.AbortedNeverAllowed | adapters/acp/client.ts:171-249 | a call aborted before it was told yes never is, whatever anybody answers afterwards |
| PermissionProgress.NobodyStuck | adapters/acp/client.ts:194-249 | at every point of every run a waiting call can go on now, or as soon as the dialog it waits for is answered |
| PermissionServices.ClientServices.RememberScope | adapters/acp/client.ts:107-113 | the insertion-ordered set drops its oldest entry past the limit |
| PermissionServices.ClientServices.RequestPermission | adapters/acp/client.ts:171-207 | a request waits, is answered from memory or takes the scope, as specified |
| PermissionServices.ClientServices.Resume | adapters/acp/client.ts:194-207 | a waiter competes again for the scope, or is refused if aborted |
| PermissionServices.ClientServices.Decide | adapters/acp/client.ts:233-249 | a reply allows exactly on an allowing choice of an unaborted call, and always frees the scope |
| PermissionServices.ClientServices.DisposeServices | adapters/acp/client.ts:402-408 | disposal aborts every call and clears grants and scopes |
| Globs.VaultGlob | cli/src/vault-scan.ts:33-54 | the rolling arrays accept a path exactly when the glob, read unit by unit, takes it: `**` any text, with a slash that follows it in the glob, `*` any text without a slash, `?` one unit that is none |
| Globs.TokensSay | cli/src/vault-scan.ts:33-40 | the tokens of a glob denote what the glob itself says |
| Globs.CompileGlob | tools/vault/find.ts:39-62 | the emitted pattern text reads back, by the grammar of patterns, as the intended expression, escapes included |
| Globs.MatchesImpliesDenotes | tools/vault/find.ts:39-62 | the compiled expression never accepts a path outside the language of the glob |
| Globs.Agreement | cli/src/vault-scan.ts:33-54 | the two matchers agree on a path for every glob exactly when the path has no line terminator |
| Globs.GlobAgreement | cli/src/vault-scan.ts:33-54 | a glob's two matchers agree on every path exactly when none of its tokens is `**` |
| Globs.Disagreement | tools/vault/find.ts:44-49 | on any path with a line terminator `**` tells them apart |
| JsonBodies.JsonBody | adapters/pi/embedded-errors.ts:294-328 | the scan returns exactly the text from the first brace, within 256 characters, to the first closing brace at depth zero outside strings, and nothing when there is none |
| JsonBodies.BodyStays | adapters/pi/embedded-errors.ts:299-327 | through any JSON object the scan stays above its starting depth until the object's own closing brace |
| JsonBodies.CutsOutObject | adapters/pi/embedded-errors.ts:294-328 | from any prefix without a brace of at most 256 characters, any JSON object text and any suffix, exactly the object is cut out |
| ToolBatches.CloseToolBatches | adapters/pi/embedded-checkpoint.ts:245-304 | the loop computes the specified repair, and throws exactly on an unsupported role |
| ToolBatches.Validate | adapters/pi/embedded-checkpoint.ts:134-159 | the validator reports no issue exactly when results answer open calls, batches are closed and call ids distinct |
| ToolBatchProofs.RepairSettles | adapters/pi/embedded-checkpoint.ts:245-304 | the repaired transcript passes the rules exactly when every result of the original answered an open call and call ids were distinct |
| ToolBatchProofs.RepairKeepsAll | adapters/pi/embedded-checkpoint.ts:268-303 | every original message is kept in order, users and results unchanged, assistants with content and time but without diagnostics, and only error results with the notice are added |
| ToolBatchProofs.RepairsNothing | adapters/pi/embedded-checkpoint.ts:245-304 | a transcript that passes the rules is only scrubbed |
| ToolBatchProofs.RepairIdempotent | adapters/pi/embedded-checkpoint.ts:245-304 | repairing again, at any later time, changes nothing |
| ToolBatchProofs.BatchAnswered | adapters/pi/embedded-checkpoint.ts:134-159 | in a transcript that passes the rules the results after a message are a permutation of its calls |
| PlainData.AssertPlainData | adapters/pi/embedded-checkpoint.ts:183-234 | the explicit-stack walk terminates and accepts exactly the inputs whose unfolding is admissible within 1,000,000 visits |
| PlainData.Visit | adapters/pi/embedded-checkpoint.ts:193-233 | each turn keeps the ancestor set equal to the objects with exit markers on the stack and accounts for one visit |
| PlainDataProofs.WalkExact | adapters/pi/embedded-checkpoint.ts:183-234 | apart from the visit limit, an input is accepted exactly when every path through it ends in plain, accessor-free data within depth 100; shared structure is accepted and cycles are not |
| RoleTranscripts.RoleTranscript.AppendRoleChunk | adapters/acp/role-transcripts.ts:32-56 | one chunk is taken in, cut or dropped as specified, and the result says whether the display changed |
| RoleTranscripts.Bounded | adapters/acp/role-transcripts.ts:32-56 | after any stream the blocks are the grouping, in first-seen order, of the longest prefix of its text within both limits |
| RoleTranscripts.TruncatedExactly | adapters/acp/role-transcripts.ts:32-56 | the flag is set exactly when nonempty text was omitted, which is exactly when the whole stream exceeds 65,536 characters or 128 blocks |

## Left out

- Parsing of workflows, checkpoints and protocol messages (YAML, Zod): states are structured data and only cross-field checks are modelled.
- Wording: pause messages, errors and report summaries are short fixed strings, and the trimming rules are the only text the engine's data depends on.
- Command names with lone surrogates, which make `encodeURIComponent` throw: characters of a command are Unicode scalar values here.
- Clocks, timers and abort listeners: an abort is an event that may fire at any await.
- The one-phase-per-turn flag, topics, summaries and routing conversations of the runtime: they do not touch the engine or the retained conversations.
- Role progress notifications: a rejected notification, or a refused outcome, shows as an abort and a failed drive.
- ClaimCollection.CollectClaims: what the scan finds at each entry is given beforehand, because the loop itself is sequential; scans that other processes disturb are the runs of `SessionLock`, where the limits and file checks are among the reasons an attempt may fail.
- Substitution of the lock directory, beyond the failed directory check it causes, and lock files of earlier versions.
- Reading of process metadata (`parseStat`, `parseNamespacePid`, `readMetadata`): an observation is present or absent.
- Late answers of a terminal after its session was closed: its command stays counted as one that may run.
- The character classes of the scope schema and the display of its label: the schema's judgement of a text is a parameter, its length limits are not.
- Session listing, redaction of secrets and replay of records on load.
- Redacted records replacing the transcript after a save: the model keeps the records it wrote.
- Symbol-keyed properties, which the plain-data walk does not see.
- JSON parsing of the extracted body, and the status and code patterns around it.
- The update and rendering of a role's tool card (`updateRoleTool`, `roleTranscriptUpdate`).
- Globs.Agreement: globs are not restricted to the vault schema, which would only remove inputs.
- PersistenceProofs.CrashConsistency: effects of a runtime being created are not counted, because no state is restored or saved before them.
- SessionLock.MutualExclusion: assumes a local coherent file system and the identity facts listed above, because a shared one may hide a published claim from a scan.

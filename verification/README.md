# Verified model of a local multi-agent workshop

The program lets one owner work with several coding agents in a shared room: agents write in isolated
worktrees, the owner copies their work back or merges it into main, and every process on the machine
shares a handful of SQLite stores. This project models the parts of it that must survive failures,
retries, crashes and concurrent processes, and proves what they promise.

| file | what it models |
|---|---|
| `Results.dfy`, `Collections.dfy` | options and results; small facts about prefixes and set sizes |
| `Utf8.dfy` | the fatal UTF-8 decoder that drops a leading byte order mark, and the encoder |
| `Workspace.dfy` | directory trees, and the broker that reads and writes files under a call budget |
| `DirtySnapshot.dfy` | capturing a dirty working tree and replaying it on a clean checkout |
| `ApplyBack.dfy` | the transaction that applies a worktree to its source, with trash and rollback |
| `PendingTable.dfy` | the bounded tables of prepared previews behind both |
| `ProcessRunner.dfy` | the life of one subprocess, from spawn to the promise that settles once |
| `Promotion.dfy` | the owner's grant-and-merge action over a shared registry |
| `WriterAuthority.dfy` | Writer leases and the children they delegate to |
| `DeliveryNames.dfy`, `DeliveryRaces.dfy` | open deliveries and the display names of the seats they are addressed to, with whole calls and with calls that interleave |
| `Governor.dfy` | the 24-hour call ceiling and the kill epoch |
| `AuditChain.dfy` | the MAC chain of the audit log, and paging over it |
| `HistoryBuckets.dfy`, `Composer.dfy`, `DeskGrid.dfy` | three algorithms of the room page: merge history groups, double Enter, desk layout |

How the parts are modelled:

- A working tree is a map from paths to files; a file is its bytes and its executable bit. SHA-256, the
  snapshot seal, the workspace fingerprint and HMAC are injective constructors.
- Code that updates objects in place is a class whose methods are proved equal to a step function; the
  statements about whole runs are lemmas over every finite sequence of steps. A run of a concurrent
  protocol interleaves the atomic steps of all calls, with crashes anywhere.
- Clocks, random ids, failures of single steps and what other processes do are parameters or events.

## What turned out differently

Several statements one would expect do not hold of the code. The code is modelled as it is; a concrete
case shows the failure and an if-and-only-if says when the statement holds.

- A captured file that starts with a byte order mark cannot be replayed, and once applied it cannot be
  rolled back: its text lost the mark, its recorded hash did not (`RoundTrip`, `Apply`,
  `RestorableWithoutMarks`). A source file with a mark that is overwritten cannot be restored either.
- Replacing a file by a directory is captured but not replayed (`FileBecomesDirectoryDoesNotReplay`).
- When the event that reports a failed apply-back cannot be stored, that error replaces the real one, even
  when the rollback was incomplete and the source is left changed (`Apply`, `MarkedApply`).
- A rollback whose own steps all work can still fail: when a new file was linked before its step failed, or
  a mark is involved (`EveryRollbackWorksIff`, `EverySourceRestoredIff`). The partial rollback is also
  reported of a source that is what it was, when the text that cannot be taken back was there before
  (`MarkedApply`, `SourceUnchangedIff`).
- An uncommitted change of the executable bit in the source survives an apply, so the file applied differs
  from the worktree's in its mode (`AppliedAgrees`, `ModeSurvives`).
- The owner call writes its grant before the audit entry about it, outside its `try`. When that entry, the
  read of the record or the withdrawal fails, the call ends and the approval stays approved without a
  record; so does a crash. The next history listing retires it (`OrphanIffLeftBehind`,
  `FailedAuditLeavesAnOrphan`, `ListingRetiresOrphans`).
- Two approvals of the same apply-back preview can both be committed, because the preview is not looked
  up again (`TwoApprovalsCommitTwice`): exactly when the second apply had looked it up before the first
  commit (`CommittedAgainIff`). It is committed at most once per approval (`CommitsNeedApprovals`).
- A subprocess whose consumer threw resolves when the last thrown value was falsy (`ThrownThenResolved`).
- A handover, a removal or a recovery that stops between the lease and its children leaves children
  marked active; no later recovery sweeps them, yet none of them can write (`NoOrphansIff`,
  `OrphanIffUnswept`, `RecoveryKeepsOldOrphans`, `EndedStaysEnded`).
- The delivery retry route can reopen a delivery under a name its seat no longer has
  (`StepKeepsNamesIff`, `RetryAfterRename`). Across processes an owner post that read the name before a
  rename stays open under the old one, and so does a peer send that falls between the two halves of a
  rename; a peer send that only reads too early repairs itself (`SettledIff`, `OwnerPostMisses`,
  `SplitRenameMisnames`, `PeerSendRepairs`).
- Shift-Enter with Shift released first counts as the first Enter of a pair, and so does an Enter during
  which the box lost and regained the focus (`TwoPresses`, `PlainFirstIff`,
  `ShiftEnterCanBeTheFirst`, `BlurDuringTheFirst`).
- A floor too narrow for one desk at the minimum scale shrinks below the minimum height (`GrownFits`,
  `NarrowFloorShrinks`).

## Model

| member | source | states |
|---|---|---|
| `Utf8.EncodeUndoesDecode` | src/core/dirty-snapshot-broker.ts:12 | encoding what the fatal decoder accepted gives back the same bytes |
| `Utf8.DecodeUndoesEncode` | src/mcp/workspace-server.ts:346-366 | text written as UTF-8 decodes to the same text, for every sequence of scalar values |
| `Utf8.ReencodeLosesOnlyTheBom` | src/core/dirty-snapshot-broker.ts:135-150 | writing a decoded file back gives the original bytes if and only if it had no leading byte order mark; otherwise exactly the mark is missing |
| `Utf8.DecodesIff` | src/core/dirty-snapshot-broker.ts:12 | the decoder accepts a byte sequence if and only if it is the encoding of some text |
| `Utf8.ScalarIsItsBits` | src/mcp/workspace-server.ts:346-366 | a scalar value is the joined payload bits of its one to four bytes, in the shortest form (section 3 of RFC 3629) |
| `Workspace.Broker.Read` | src/mcp/workspace-server.ts:292-316 | a read counts one call, fails past 128 calls, and otherwise returns hash and text of a regular, bounded, NUL-free UTF-8 file, or the error its state calls for |
| `Workspace.ReadMeans` | src/mcp/workspace-server.ts:292-316 | what each answer to a read says about the tree: found text, nothing there, or the one condition an error names |
| `Workspace.Broker.Write` | src/mcp/workspace-server.ts:338-386 | compare-hash-then-replace: the tree changes at one path exactly when the hash matches and nothing is in the way; 128 calls and 64 writes per broker; on refusal nothing changes |
| `Workspace.WriteMeans` | src/mcp/workspace-server.ts:338-386 | what each answer to a write says about tree, content and expected hash; on success exactly one path changes and keeps the mode it had |
| `DirtySnapshot.ListingsGiveChanges` | src/core/dirty-snapshot-broker.ts:237-252 | diff rows overridden by untracked paths give exactly the changed paths, each with its own change |
| `DirtySnapshot.ChangedPaths` | src/core/dirty-snapshot-broker.ts:226-257 | the two loops list every changed path once, with the change git reported |
| `DirtySnapshot.CaptureFiles` | src/core/dirty-snapshot-broker.ts:103-151 | one file per changed path, bytes totalled within the limit, or an error that names an entry that really is refused |
| `DirtySnapshot.Capture` | src/core/dirty-snapshot-broker.ts:79-167 | succeeds if and only if a capture of the repository within the limits exists and, where nothing changed, an empty one is allowed; success is such a capture: base, distinct files for all changed paths, total and seal; every error is justified by the repository |
| `DirtySnapshot.CapturableIff` | src/core/dirty-snapshot-broker.ts:79-167 | a capture exists and is allowed if and only if the number of changed paths and the bytes of the edited files are within the limits, no changed path is a directory of HEAD or both in HEAD and untracked, and every edited file has at most 524288 bytes, no NUL, text that decodes and exactly the executable bit of HEAD's file |
| `DirtySnapshot.CaptureHolds` | src/core/dirty-snapshot-broker.ts:103-151 | a capture has exactly one file for each edited or deleted path, and its fields are what the repository says: size, hash and text of the visible file, and whether HEAD has the path |
| `DirtySnapshot.RefusalMeans` | src/core/dirty-snapshot-broker.ts:103-151 | what each capture error says about the repository: the path that is refused, and for which of its properties |
| `DirtySnapshot.DeletedYetUntracked` | src/core/dirty-snapshot-broker.ts:107-108 | a path that is both deleted in the diff and untracked is refused: no capture of such a repository exists |
| `DirtySnapshot.ValidateSnapshot` | src/core/dirty-snapshot-broker.ts:273-314 | accepts exactly the snapshots with 1 to maxFiles distinct paths, whose files match their own sizes and hashes, and whose total is right |
| `DirtySnapshot.FileValidIff` | src/core/dirty-snapshot-broker.ts:286-310 | a file whose text does not itself start with the mark passes validation if and only if a capture of some repository holds it, of a file without a mark |
| `DirtySnapshot.ReadTarget` | src/core/dirty-snapshot-broker.ts:186-206 | passes exactly when every path is present where the base had it, absent where not, and readable; remembers each current hash; a refusal names the first path that is not, or the one after 128 reads |
| `DirtySnapshot.WriteStep` | src/core/dirty-snapshot-broker.ts:216-221 | one write of the replay succeeds exactly when no other written path lies above or below it, and then yields the next overlay |
| `DirtySnapshot.ReplayOne` | src/core/dirty-snapshot-broker.ts:207-221 | one turn of the replay, deletion or write, turns the overlay of the files before it into the overlay including it, exactly when paths do not nest and calls remain |
| `DirtySnapshot.ReplayFiles` | src/core/dirty-snapshot-broker.ts:207-222 | the whole second loop succeeds exactly on flat writes within 128 calls and 64 writes, and leaves the overlay |
| `DirtySnapshot.OverlayUntouched` | src/core/dirty-snapshot-broker.ts:207-222 | a path the snapshot does not mention keeps its file |
| `DirtySnapshot.OverlayTouched` | src/core/dirty-snapshot-broker.ts:207-222 | a mentioned path ends deleted, or with exactly the snapshot text and the mode it had |
| `DirtySnapshot.OverlayVerified` | src/core/dirty-snapshot-broker.ts:356-378 | the closing re-read of every path finds what it looks for |
| `DirtySnapshot.ApplyToWorktree` | src/core/dirty-snapshot-broker.ts:169-224 | succeeds if and only if the source is unchanged, the target is an isolated clean checkout of the base and the snapshot is replayable there; then the target is the overlay and verified; any refusal before the second loop changes nothing; which error is raised, in the order of the checks |
| `DirtySnapshot.CaptureIsFlat` | src/core/dirty-snapshot-broker.ts:99-151 | a capture of a real directory tree never writes a path below another written path |
| `DirtySnapshot.CapturedEntryFacts` | src/core/dirty-snapshot-broker.ts:132-151 | a captured file passes validation and its target check if and only if its path is reproducible: readable text at base, no file above it, no byte order mark |
| `DirtySnapshot.ReplayableIffReproducible` | src/core/dirty-snapshot-broker.ts:169-224 | a non-empty capture can be replayed on a clean checkout if and only if the repository is reproducible, which can be checked before capturing |
| `DirtySnapshot.OverlayIsVisible` | src/core/dirty-snapshot-broker.ts:132-151 | the overlay of a capture equals the captured working tree if and only if no written file had a byte order mark |
| `DirtySnapshot.RoundTrip` | src/core/dirty-snapshot-broker.ts:79-224 | diff and patch: every replayable capture, replayed on its base, gives exactly the dirty tree |
| `DirtySnapshot.MarkedFileDoesNotReplay` | src/core/dirty-snapshot-broker.ts:135-150 | a one-file repository with a byte order mark is captured, and its own hash then refuses it |
| `DirtySnapshot.FileBecomesDirectoryDoesNotReplay` | src/core/dirty-snapshot-broker.ts:186-206 | a file replaced by a directory is captured with valid files, and the target refuses to read below the file |
| `ApplyBack.Prepare` | src/core/apply-back-broker.ts:257-271 | pairs every captured file with hash and text of the source path, exactly when each path is a readable file or absent, within 128 reads; a refusal is that of the first path that is neither, or comes after 128 reads |
| `ApplyBack.WriteForward` | src/core/apply-back-broker.ts:376-391 | a write of the transaction is accepted by the broker and changes the source at that path only, in every state the write loop reaches |
| `ApplyBack.MoveForward` | src/core/apply-back-broker.ts:522-540 | a deletion finds its hash and a free place in the trash, and moves exactly that file |
| `ApplyBack.MoveBack` | src/core/apply-back-broker.ts:552-563 | in every state the rollback reaches, a moved file is still in the trash and its place in the source is free |
| `ApplyBack.WriteBack` | src/core/apply-back-broker.ts:565-573 | putting an overwritten file back succeeds if and only if the recorded hash is the hash of what was written |
| `ApplyBack.TrashBack` | src/core/apply-back-broker.ts:574-575 | a file this apply created can be moved to the trash if and only if its recorded hash is true |
| `ApplyBack.MoveToTrash` | src/core/apply-back-broker.ts:522-540 | compare hash, then rename: both trees change together or not at all |
| `ApplyBack.WriteAll` | src/core/apply-back-broker.ts:375-391 | the write loop on every fault position: it stops exactly at the first failing write or after 64, a number given as a function of the list and the faults; what is recorded is what was written, save a new file that was linked before its step failed |
| `ApplyBack.MoveAll` | src/core/apply-back-broker.ts:392-403 | the delete loop on every fault position: it stops exactly at the first failing deletion; those before it are in the trash, the rest untouched |
| `ApplyBack.UndoMoves` | src/core/apply-back-broker.ts:551-563 | moves are undone in reverse down to the first undo step that fails, a number given as a function of the list and the faults |
| `ApplyBack.UndoWrites` | src/core/apply-back-broker.ts:564-576 | writes are undone in reverse down to the first one whose recorded hash is not true or whose undo step fails |
| `ApplyBack.Rollback` | src/core/apply-back-broker.ts:542-586 | reports success if and only if no undo step fails, nothing stray was left, and no written or overwritten file carries a byte order mark; then the source is what it was; otherwise both trees are those of the step where it stopped |
| `ApplyBack.Commit` | src/core/apply-back-broker.ts:364-419 | all of the transaction before its report: it goes through exactly when no step fails and the write budget suffices; what is written, stray and moved when it ends is a function of what was prepared and of the faults |
| `ApplyBack.Apply` | src/core/apply-back-broker.ts:312-437 | all or nothing over every combination of fault positions: outcome, source and trash are functions of what was prepared and of the faults; applied if and only if nothing fails, with exactly the pending changes; a plain failure or a partial rollback exactly when the rollback of the writes reached works or does not, or the failed event is lost; where the rollback works the source is unchanged; after any failure whatever its error, the source is unchanged if and only if the steps left standing make no difference: nothing moved, what stands written is what was there, what was undone had no mark; a plain failure carries the call limit exactly when 64 writes went through and the next one got as far as its call, and otherwise the error of the step |
| `ApplyBack.FaultlessIff` | src/core/apply-back-broker.ts:371-419 | in terms of paths: nothing fails if and only if the trash session (needed only for deletions), the broker and the event work, at most 64 files have to be written, no path to write or to delete is at fault, and no new file's link is |
| `ApplyBack.UndoFaultlessIff` | src/core/apply-back-broker.ts:542-586 | in terms of paths: what the steps of a rollback need; only a file that was not there before goes to the trash, and only then a session the commit did not have |
| `ApplyBack.NothingIsLost` | src/core/apply-back-broker.ts:392-403 | at every point each original is in the source, in the trash at the same path, or was overwritten |
| `ApplyBack.TrashAfterApply` | src/core/apply-back-broker.ts:392-403 | after success the trash holds exactly the deleted originals, at the same paths |
| `ApplyBack.TrashAfterRollback` | src/core/apply-back-broker.ts:551-576 | after a rollback the trash holds only files this apply had newly created |
| `ApplyBack.AppliedAt` | src/core/apply-back-broker.ts:376-403 | after success each captured path is gone, or holds the new text with its old mode, or already had the hash |
| `ApplyBack.AppliedElsewhere` | src/core/apply-back-broker.ts:376-403 | after success every other path of the source is as before |
| `ApplyBack.CaptureIsWell` | src/core/apply-back-broker.ts:255-271 | a capture of a real tree meets what prepare and apply assume about its files |
| `ApplyBack.AppliedAgrees` | src/core/apply-back-broker.ts:248-403 | prepare then apply, on every changed path: the bytes in source and worktree agree if and only if the file did not have to be written or carries no byte order mark; the whole files agree if and only if moreover the source file was executable exactly when the worktree's is |
| `ApplyBack.ModeSurvives` | src/mcp/workspace-server.ts:353-361 | a source file made executable without a commit, over which the worktree's text is applied: it keeps its mode, and so differs from the worktree's file |
| `ApplyBack.CleanSourceBecomesWorktree` | src/core/apply-back-broker.ts:248-403 | if the source was clean at the base commit, the two whole trees are equal if and only if no written file carries a byte order mark |
| `ApplyBack.RestorableWithoutMarks` | src/core/apply-back-broker.ts:565-575 | a write can be taken back if and only if neither the new nor the overwritten file carries a byte order mark |
| `ApplyBack.MarkedFileCannotBeRestored` | src/core/apply-back-broker.ts:565-575 | one overwritten file with a mark in the worktree: prepared, and not restorable once written |
| `ApplyBack.MarkedApply` | src/core/apply-back-broker.ts:404-436 | an apply of that file over a file of one letter, whose completed event fails: it ends as a partial rollback, or with the error of the failed event when that one is lost too; the source is left changed, unless it held that very text before, and then a partial rollback is reported of an untouched source |
| `ApplyBack.RollbackWorksIff` | src/core/apply-back-broker.ts:542-586 | with a working undo and nothing stray, the rollback works if and only if the writes reached are restorable |
| `ApplyBack.EveryRollbackWorksIff` | src/core/apply-back-broker.ts:364-436 | the report: over every combination of faults of the commit a rollback whose own steps work reports success if and only if the first 64 writes are restorable and none of them creates a file |
| `ApplyBack.EverySourceRestoredIff` | src/core/apply-back-broker.ts:364-436 | the tree: over every combination of faults of the commit an undo whose own steps work leaves the source as it was if and only if none of the first 64 writes creates a file and every prefix of them is restored, which is read off the prepared changes |
| `ApplyBack.SourceUnchangedIff` | src/core/apply-back-broker.ts:364-436 | in every state the transaction and its rollback reach, the source tree is what it was if and only if nothing is moved away, every write left standing wrote what was there, and every write undone was over a file without a mark |
| `PendingTable.Service.DiscardExpired` | src/core/apply-back-broker.ts:588-593 | removes exactly the entries past their expiry |
| `PendingTable.Service.BeginPrepare` | src/core/dirty-snapshot-broker.ts:435-440 | takes a slot exactly when fewer than the capacity are pending or preparing |
| `PendingTable.Service.FinishPrepare` | src/core/dirty-snapshot-broker.ts:441-449 | stores a result with its expiry and releases the slot, also when the capture threw |
| `PendingTable.Service.TakeOut` | src/core/dirty-snapshot-broker.ts:452-465 | a take returns a live entry and removes it in one synchronous stretch |
| `PendingTable.Service.CommitApply` | src/core/apply-back-broker.ts:357-363 | consuming an approval of the right scope in time drops the pending entry; otherwise nothing is committed |
| `PendingTable.CapacityHolds` | src/core/apply-back-broker.ts:224-294 | in every interleaving pending plus preparing stays within the capacity, and the running prepares are those begun and not yet finished |
| `PendingTable.PendingIffLive` | src/core/dirty-snapshot-broker.ts:435-497 | an entry is in the table exactly while its history says so: prepared, and since then neither taken, cleared, committed nor seen expired |
| `PendingTable.TakenIffLive` | src/core/dirty-snapshot-broker.ts:452-465 | a take succeeds if and only if its entry is live and not past its expiry |
| `PendingTable.TakenOnce` | src/core/dirty-snapshot-broker.ts:461-465 | no run takes a snapshot twice |
| `PendingTable.FoundIffLive` | src/core/apply-back-broker.ts:296-322 | a lookup, a take, an approval and an apply find an entry if and only if it is live and not past its expiry |
| `PendingTable.AuthorizesIffOpen` | src/core/apply-back-broker.ts:304-363 | a token authorizes if and only if it was issued for that entry while it was live, has neither been spent by an apply of it nor discarded as expired since, and is within its lifetime |
| `PendingTable.CommitsNeedApprovals` | src/core/apply-back-broker.ts:306-363 | a preview is committed at most as often as approvals were issued for it |
| `PendingTable.TwoApprovalsCommitTwice` | src/core/apply-back-broker.ts:317-363 | from any run with a live preview, two approvals and two overlapping applies commit it twice |
| `PendingTable.CommittedAgainIff` | src/core/apply-back-broker.ts:312-363 | a committed preview is committed again if and only if the approval is an open one for it, in time, and the apply had looked the preview up before the first commit and was under way since |
| `PendingTable.ServicesHoldTheirCapacity` | src/core/apply-back-broker.ts:224-230 | the snapshot service never has more than eight entries pending or preparing, the apply-back service never more than four |
| `ProcessRunner.Runner.OnClose` | src/core/process-runner.ts:495-501 | the close of the leader settles the run, or starts probing while a terminated group is still there; `ResultReports` says what exit code follows |
| `ProcessRunner.Runner.OnError` | src/core/process-runner.ts:482-493 | a child error after termination counts as the end of the leader; any other rejects |
| `ProcessRunner.Runner.OnForce` | src/core/process-runner.ts:450-455 | the kill timer sets the cleanup deadline one second ahead, kills, and probes if no probe is pending |
| `ProcessRunner.Runner.OnProbe` | src/core/process-runner.ts:418-432 | a probe settles when the group is gone, gives up past the deadline, and otherwise comes again in 25 ms |
| `ProcessRunner.Runner.OnData` | src/core/process-runner.ts:458-473 | a chunk goes to the consumer or is kept within the limit; a throwing consumer or an exceeded limit terminates |
| `ProcessRunner.NeverStuck` | src/core/process-runner.ts:398-501 | in every reachable state, unsettled with the leader closed means a reason is set and a probe timer is live |
| `ProcessRunner.SettlesOnce` | src/core/process-runner.ts:398-416 | the outcome is never replaced, whatever callbacks follow |
| `ProcessRunner.SettlesAs` | src/core/process-runner.ts:398-432 | what the settling event can make of a run: resolved with the kept output, the byte count, the code this event or the last close gave, and no truthy thrown value; rejected for the consumer, for the cleanup only past the deadline while the group is there, or for a child error outside a termination |
| `ProcessRunner.ResolvedMeansGone` | src/core/process-runner.ts:398-400 | a run resolved with a termination reason has seen its group gone, and it is still gone |
| `ProcessRunner.BoundedWait` | src/core/process-runner.ts:418-456 | once the leader is closed the run is settled at the latest 2025 ms after the decision to terminate plus what two timers may be late, and at once without such a decision |
| `ProcessRunner.RetentionHolds` | src/core/process-runner.ts:458-470 | kept output is a chunk-prefix of each stream and within the limit, and all of it while the limit is not exceeded |
| `ProcessRunner.ResultRetains` | src/core/process-runner.ts:407-415 | a result holds those prefixes, and without a termination reason every captured byte |
| `ProcessRunner.ResultReports` | src/core/process-runner.ts:403-501 | over every run, by its events alone: the exit code of a result is the number of the last close up to settlement, or 1 for a signal or a child error; its byte count is that of all chunks, consumed ones included; its reason is the first event that asked for termination; and any child error came during a termination |
| `ProcessRunner.NotGivenUpEarly` | src/core/process-runner.ts:418-456 | a run is rejected for a group that would not go only two seconds or more after the decision to terminate, with the group still there |
| `ProcessRunner.ThrownThenResolved` | src/core/process-runner.ts:403-406 | at settlement a run resolves instead of rejecting for its consumer if and only if the last value the consumer threw was not truthy |
| `ProcessRunner.FalsyThrowResolves` | src/core/process-runner.ts:403-464 | a consumer that throws a falsy value once: the run resolves as cancelled |
| `ProcessRunner.SignalsEscalate` | src/core/process-runner.ts:446-456 | over every run: one SIGTERM if and only if a reason to terminate has come, and then one SIGKILL if and only if the kill timer has fired |
| `Promotion.InvHolds` | src/core/collaboration-service.ts:1510-1575 | the invariant of every interleaving with crashes and failing steps: who may hold the grant at which step, and what record and approval then look like |
| `Promotion.AtMostOneMerge` | src/core/collaboration-service.ts:1510-1575 | in every interleaving of processes, retries and crashes at most one merge starts, on a spent approval with its one record |
| `Promotion.RetryReplays` | src/core/collaboration-service.ts:1523-1527 | a call that starts after a record exists answers with that record or throws, and starts nothing |
| `Promotion.AnswersAgree` | src/core/collaboration-service.ts:1577-1611 | all answers that name a promotion name the same one |
| `Promotion.TerminalIsFinal` | src/core/candidate-registry.ts:8864-8878 | a consumed, rejected, expired or invalidated approval never changes, so no stale read turns one into another |
| `Promotion.NoOrphanOnExit` | src/core/collaboration-service.ts:1475-1573 | a call whose grant was written and that ended by itself left the approval approved without a record only if its audit after the grant, its read of the record, or its withdrawal failed |
| `Promotion.OrphanIffLeftBehind` | src/core/collaboration-service.ts:1475-1573 | in every run: the granting call is gone and the approval still approved without a record if and only if one of its four steps after the grant failed, or its process crashed, at such a moment, and nobody has retired the approval since |
| `Promotion.EndsOrphanedIff` | src/core/collaboration-service.ts:1475-1573 | a step that ends the granting call leaves an orphan if and only if the approval was approved without a record and the step was a crash or a failure of the audit, the record read or the withdrawal |
| `Promotion.FailedAuditLeavesAnOrphan` | src/core/collaboration-service.ts:1475-1498 | the smallest run: the grant is written, its audit entry fails, the call throws, the approval stays approved without a record |
| `Promotion.ListingRetiresOrphans` | src/core/collaboration-service.ts:1251-1271 | whatever left an orphan, crash or failed step, a history listing that runs to its end in a process with no owner call of its own leaves none, whatever other processes do |
| `Promotion.ListingAnswers` | src/core/collaboration-service.ts:1251-1271 | a listing that nothing interrupts is answered when its steps work, and withdraws an approval without a record exactly where its process has no owner call under way |
| `Promotion.ListingSparesItsOwn` | src/core/collaboration-service.ts:1256-1262 | a listing never withdraws a grant whose call is under way in its own process |
| `Promotion.OutcomesHold` | src/core/collaboration-service.ts:1536-1611 | every answer given so far stays true: promoted means one merge and that record, replayed means that record |
| `Promotion.Registry.Write` | src/core/candidate-registry.ts:8864-8878 | the compare-and-set on an approval row |
| `Promotion.Registry.InsertRecord` | src/core/candidate-registry.ts:4948-4969 | one record per approval id |
| `Promotion.Service.ApproveAndPromote` | src/core/collaboration-service.ts:1510-1575 | one uninterrupted owner call, with any of its steps failing: it replays exactly where a record exists and could be read, is answered as promoted exactly where it found a requested approval without a record and every step of the way worked, and throws otherwise; the approval, the record and the number of merges it leaves are given for every combination of failing steps; it is a run of the protocol steps and leaves its in-flight mark cleared |
| `WriterAuthority.InvHolds` | src/core/writer-lease.ts:164-332 | over every order of store transactions: a lease is active exactly when its task record names it, epochs only grow, children match their parent, at most eight active children per lease |
| `WriterAuthority.NoOrphansIff` | src/core/collaboration-service.ts:2191-2456 | over every run of grants, handovers, completions, delegations, removals, recoveries and applies: every active delegation has had an active parent throughout if and only if every call swept whatever the leases it ended had to sweep |
| `WriterAuthority.UninterruptedRunsAreSafe` | src/core/collaboration-service.ts:2191-2456 | runs in which nothing throws between a lease and its sweep leave no active delegation without an active parent |
| `WriterAuthority.CallOrphansIff` | src/core/collaboration-service.ts:2191-2456 | one call keeps that property if and only if it is safe: nothing to sweep where it threw before sweeping |
| `WriterAuthority.OrphanIffUnswept` | src/core/collaboration-service.ts:2406-2456 | over every order of single transactions, of all calls, processes and crashes: an active delegation is an orphan if and only if its lease was ended at some point and no sweep of it follows the delegation |
| `WriterAuthority.WritesAreFenced` | src/core/collaboration-service.ts:2319-2340 | a delegated write is accepted if and only if the child is an active writer with its own token under the lease in force right now |
| `WriterAuthority.EndedStaysEnded` | src/core/collaboration-service.ts:2191-2247 | once a lease has ended, in any run with crashes and races, it is never active again and no child of it is ever accepted for writing |
| `WriterAuthority.AddOrphansIff` | src/core/writer-delegation.ts:121-165 | a new delegation is orphaned from the start if and only if its parent was ended between the read and the insert |
| `WriterAuthority.OrphansIff` | src/core/collaboration-service.ts:2406-2456 | one call: from a state without orphans, the orphans are exactly the active children of leases it ended and did not sweep, child by child |
| `WriterAuthority.HandoverOrphansIff` | src/core/collaboration-service.ts:2191-2223 | a handover keeps every active child under an active parent if and only if it swept or there was nothing to sweep |
| `WriterAuthority.HandoverIs` | src/core/collaboration-service.ts:2191-2223 | a handover revokes the old lease, puts the new one in force for its writer under an epoch no earlier lease of the task had, and changes nothing else but the swept children |
| `WriterAuthority.EndedAndSweptIs` | src/core/collaboration-service.ts:2225-2247 | ending leases and sweeping leases changes exactly their state, the tasks they were in force for, and the activity of the swept children |
| `WriterAuthority.GrantableIff` | src/core/writer-lease.ts:164-332 | a task can be granted if and only if it has no active lease and is neither applied nor being applied |
| `WriterAuthority.HoldsIff` | src/core/writer-lease.ts:164-332 | an epoch is in force if and only if an active lease of the task has it |
| `WriterAuthority.RecoveryIsComplete` | src/core/collaboration-service.ts:2406-2456 | after a complete recovery a lease is active if and only if it was and, where it was listed, its writer is native and its task has a live run; the others end as revoked, and exactly their active children lose authority |
| `WriterAuthority.RecoveryKeepsOldOrphans` | src/core/collaboration-service.ts:2406-2456 | an orphan that exists before a recovery exists unchanged after it |
| `WriterAuthority.InterruptedHandoverLeavesAnOrphan` | src/core/collaboration-service.ts:2207-2213 | grant, delegate, and a handover without its sweep: an active child without an active parent |
| `WriterAuthority.Service.SwitchWriter` | src/core/collaboration-service.ts:2191-2223 | hands over exactly when the named epoch is in force and nothing runs; the stores are those of the whole call, swept or stopped before its sweep |
| `WriterAuthority.Service.CompleteWriter` | src/core/collaboration-service.ts:2225-2247 | ends the lease exactly when the named epoch is in force and nothing runs, then sweeps its children |
| `WriterAuthority.Service.DelegateChild` | src/core/collaboration-service.ts:2266-2317 | adds one active child under the lease in force, at most eight, writing only for the same provider; keeps the no-orphan property |
| `WriterAuthority.Service.RevokeIdentity` | src/core/collaboration-service.ts:2716-2733 | ends all leases of an identity at once and sweeps them one by one; a throw after n sweeps leaves exactly the others unswept |
| `WriterAuthority.Service.RevokeUnrecoverable` | src/core/collaboration-service.ts:2406-2456 | ends and sweeps one by one exactly the active leases of external writers or of tasks without a live run; a throw stops it exactly where it first comes to such a lease, with that one ended and not swept |
| `DeliveryNames.StepKeepsNamesIff` | src/core/collaboration-service.ts:664-685 | a call keeps names current if and only if it is safe; only joining over open work and retrying under another name are not |
| `DeliveryNames.NamesHoldIff` | src/core/collaboration-service.ts:664-685 | names were current throughout a run if and only if every call of it was safe |
| `DeliveryNames.PlainRunsKeepNames` | src/core/collaboration-service.ts:664-988 | over all runs of join, rename, post, peer send and removal every open delivery goes to a joined seat under its current name |
| `DeliveryNames.ReconcileFailsOnlyTheDeparted` | src/core/collaboration-service.ts:2069-2087 | while names are current, reconciliation fails exactly the open deliveries whose seat has left |
| `DeliveryNames.ReconcileRepairs` | src/core/collaboration-service.ts:2069-2087 | from any state at all, reconciliation leaves only deliveries with a joined seat of that name, or ones it may not fail |
| `DeliveryNames.RetryAfterRename` | src/core/room-inbox.ts:1185-1201 | a cancelled delivery, a rename, and a retry: open under a stale name |
| `DeliveryNames.RetriedIff` | src/core/room-inbox.ts:1185-1201 | exactly cancelled, expired and certainly failed deliveries can be retried, and are queued again |
| `DeliveryNames.SentIff` | src/core/collaboration-service.ts:938-967 | a peer send enqueues under the current name if and only if both seats are joined, they differ, and the target is on standby |
| `DeliveryNames.Rooms.RemoveExternal` | src/core/collaboration-service.ts:757-778 | refused exactly for a seat that is not joined or has taken on work; otherwise the seat leaves and its queued deliveries fail |
| `DeliveryNames.Rooms.ReconcileUnavailable` | src/core/collaboration-service.ts:2069-2087 | the reconciliation loop fails exactly the unavailable deliveries that may still fail |
| `DeliveryNames.Rooms.RenameExternal` | src/core/collaboration-service.ts:664-685 | renames exactly when the seat is joined and the name is its own, or free in the room while no delivery to the seat is queued, delivered, read or worked on; and keeps names current |
| `DeliveryNames.Rooms.PostToExternal` | src/core/collaboration-service.ts:827-865 | enqueues under the name the seat has at that moment, exactly for a joined seat on standby |
| `DeliveryRaces.SettledIff` | src/core/collaboration-service.ts:664-988 | over every interleaving of processes: no delivery that may still fail is open under a name its joined seat does not have, peer sends under way excepted, if and only if every step was safe; no step of a peer send is unsafe short of being broken off before its second look |
| `DeliveryRaces.PartSettlesIff` | src/core/collaboration-service.ts:664-988 | one step of a post, a peer send, a rename or a whole call keeps that property if and only if a condition on the state before it holds |
| `DeliveryRaces.PeerSendRepairs` | src/core/collaboration-service.ts:938-967 | a peer send that read the name before a rename looks at its target again after enqueueing, and its delivery fails |
| `DeliveryRaces.SecondLookFailsIff` | src/core/collaboration-service.ts:938-967 | the second look of a peer send fails its delivery if and only if the target has left, has another name, or is not on standby |
| `DeliveryRaces.NamesStayUnique` | src/core/collaboration-service.ts:664-685 | over every interleaving of processes no two seats of a room share a name, and none has the name of a managed agent |
| `DeliveryRaces.OwnerPostMisses` | src/core/collaboration-service.ts:835-850 | an owner post in the same race leaves its delivery open under the old name |
| `DeliveryRaces.SplitRenameMisnames` | src/core/collaboration-service.ts:674-685 | a rename that looked for open work before a whole peer send and writes after it misnames that delivery |
| `Governor.Governor.ReserveCall` | src/core/provider-call-governor.ts:183-201 | counts a call within the window or a renewed one, hands out the epoch, and rolls back when the ceiling is reached |
| `Governor.Governor.Status` | src/core/provider-call-governor.ts:95-108 | shows fewer calls than the ceiling if and only if a reservation at that moment would succeed |
| `Governor.Governor.StopAll` | src/core/provider-call-governor.ts:160-174 | aborts every call running here and raises the shared epoch by one |
| `Governor.Governor.Poll` | src/core/provider-call-governor.ts:144-150 | a poll aborts its call exactly when the epoch moved since the reservation or could not be read |
| `Governor.CountStaysWithinCap` | src/core/provider-call-governor.ts:183-201 | the stored count never exceeds the ceiling |
| `Governor.ReservesIff` | src/core/provider-call-governor.ts:183-201 | under a monotone clock a call is let through if and only if fewer calls than its ceiling succeeded since the window began, or that was 24 hours ago or more |
| `Governor.WindowBegan` | src/core/provider-call-governor.ts:187-192 | the window began at creation, or with a call that succeeded 24 hours or more after the window before |
| `Governor.SuccessesAreLocated` | src/core/provider-call-governor.ts:183-201 | where successful calls can lie relative to the current window |
| `Governor.AtMostTwicePerDay` | src/core/provider-call-governor.ts:183-201 | under a monotone clock no half-open 24-hour interval contains more than twice the ceiling |
| `Governor.TwiceIsReached` | src/core/provider-call-governor.ts:183-201 | for every ceiling some run reaches twice the ceiling, so the bound cannot be improved |
| `Governor.WindowsAreADayApart` | src/core/provider-call-governor.ts:187-192 | two different window starts are at least 24 hours apart, whatever the clock does |
| `Governor.PollAbortsIffStopped` | src/core/provider-call-governor.ts:139-150 | a poll aborts its call if and only if it cannot read the row or a stop was committed after the reservation |
| `AuditChain.AuditLog.Append` | src/core/collaboration-audit.ts:115-154 | appends one chained row exactly when the fields are valid and the store works; otherwise nothing changes; a sound log stays sound |
| `AuditChain.AuditLog.Verify` | src/core/collaboration-audit.ts:188-199 | true if and only if every row has the next sequence number, the MAC before it, and its own MAC |
| `AuditChain.EveryLogVerifies` | src/core/collaboration-audit.ts:115-199 | after every sequence of successful and rolled-back appends the log verifies, and so does each of its prefixes |
| `AuditChain.SameMacSameLog` | src/core/collaboration-audit.ts:64-70 | two verified logs with the same last MAC are identical row by row |
| `AuditChain.PageExtends` | src/core/collaboration-audit.ts:156-168 | a page of a log that may have grown extends what was read to exactly the rows up to the new cursor; a short page completes it |
| `AuditChain.PagingIsComplete` | src/core/collaboration-audit.ts:156-168 | paging by the last sequence number gives the whole log, or one room of it, without gap or repeat, for every page size |
| `AuditChain.SelectMeans` | src/core/collaboration-audit.ts:156-168 | a query gives, in order, exactly the rows after the number asked for, of the room asked for if any |
| `AuditChain.ValidContentIff` | src/core/collaboration-audit.ts:115-127 | an entry is refused exactly for a field that is empty, too long or holds one of four control characters, for an epoch below 1, or for an oversized detail |
| `HistoryBuckets.Find` | public/room.js:6415-6417 | the first unclaimed open approval of the same task id, each earlier one being claimed, or proof that there is none |
| `HistoryBuckets.Match` | public/room.js:6408-6421 | one turn of the pairing keeps it injective, same-task, spent-first and maximal |
| `HistoryBuckets.MergeHistoryBuckets` | public/room.js:6389-6453 | every group lists exactly its records, once and in order; pairing is injective, same-task, unattested-only, maximal and takes spent approvals first; the group counts add up to all records but the absorbed ones; retryable plus blocked is closed plus invalidated |
| `HistoryBuckets.EveryApprovalHasOnePlace` | public/room.js:6422-6440 | each approval is in exactly one of paired, closed, invalidated and review |
| `HistoryBuckets.CountsMean` | public/room.js:6457-6464 | the four counts are the numbers of promotions that succeeded, of records to look at, of rejected or expired approvals, and of invalidated ones, absorbed approvals left out |
| `HistoryBuckets.PairingMeans` | public/room.js:6408-6421 | an unreadable promotion without attestation absorbs a spent or pending approval of its own task id, and stays alone only where others have absorbed every such approval |
| `HistoryBuckets.PairedPromotionsAreInReview` | public/room.js:6408-6421 | a promotion that absorbed an approval is among those to look at, never among the merged |
| `Composer.Keyboard.OnKeyDown` | public/room.js:2392-2424 | submits exactly with the button enabled and no input method composing, on Command-Enter without other modifiers, or on a plain, not repeated Enter within 1600 ms of an armed release with the same text and caret |
| `Composer.Keyboard.OnKeyUp` | public/room.js:2425-2446 | the release of a plain Enter arms the pair unless a mark swallows it |
| `Composer.StateIsHistory` | public/room.js:2385-2447 | armed and suppressed are exactly what the history of events says, on every trace |
| `Composer.FiresIff` | public/room.js:2414-2422 | a press sends as the second of a pair if and only if a counted first release precedes it, with nothing reset since, box and caret unchanged, within 1600 ms |
| `Composer.TwoPresses` | public/room.js:2385-2447 | where keys other than modifiers do not overlap, a send without Command takes two presses of Enter, with nothing sent or composed since the first began and no blur since its release; no blur lies since the first press if and only if none lies within it; where modifiers change only by their own keys, the first is plain if and only if no modifier held at its start was let go during it |
| `Composer.PlainFirstIff` | public/room.js:2410-2446 | where modifiers change only by their own keys, a press of Enter released without any was plain if and only if no modifier is released during it that was not pressed during it |
| `Composer.ShiftEnterCanBeTheFirst` | public/room.js:2410-2413 | Shift-Enter with Shift released first, then one plain Enter, sends |
| `Composer.BlurDuringTheFirst` | public/room.js:2424-2447 | Enter pressed, blur, Enter released, then one plain Enter sends |
| `DeskGrid.FitMeans` | public/room.js:3850-3853 | a scale is at most the computed fit if and only if its columns fit side by side and its rows fit below the wall |
| `DeskGrid.Search` | public/room.js:3844-3858 | the chosen scale is the fit of the chosen columns and within 0.001 of every candidate |
| `DeskGrid.WiderIsTooSmall` | public/room.js:3846 | columns beyond the searched ones would need desks below the minimum |
| `DeskGrid.GrownFits` | public/room.js:3859-3866 | the recomputed height holds its rows, and is larger than before if and only if they did not fit at the minimum scale |
| `DeskGrid.Office.UpdateCapacity` | public/room.js:3820-3880 | rows fit the height, columns fit the width unless one column is forced at the minimum; no readable layout is more than 0.001 larger; a hidden floor keeps its grid |
| `DeskGrid.HomesApart` | public/room.js:2582-2598 | any two homes are one column pitch apart across or one row pitch apart down |
| `DeskGrid.HomesInside` | public/room.js:2582-2598 | every desk stands below the wall and 18 pixels above the lower edge, between the left margin and the draft room: whole where the columns fit, and with its middle otherwise |
| `DeskGrid.HomesInReadingOrder` | public/room.js:2577-2598 | residents before guests, each in their order: an earlier seat is further up, or in the same row further left |
| `DeskGrid.RowsAreNeeded` | public/room.js:3843 | a group takes as many rows as its size needs and no more |
| `DeskGrid.NarrowFloorShrinks` | public/room.js:3859-3866 | a floor 100 pixels wide with one desk ends 192 pixels high, below the minimum of 400 |

## Left out

- Real SQLite, file descriptors, symbolic and hard links, owners, permissions other than the executable bit, and Git itself: each is an atomic step on the modelled state.
- Concurrent writers to a source tree during capture, replay or apply, and with them the repeated reads and inspections that would notice one: with a single writer and an injective fingerprint they find nothing new.
- Directories as state: creating parents is part of the write that needs them, so running into the limit of 32 created directories is one of the fault positions of that write.
- The order of changed paths (sorted in the code, any order here), the textual checks of a safe path, the index beyond which paths it tracks (a staged change undone in the working tree), and git statuses other than added, modified and deleted.
- Which concrete error a refusal of the apply-back preconditions carries: approvals are one boolean in `Apply`, and their tokens are modelled in `PendingTable`.
- Telemetry, ledger wording, audit detail fields, display strings and risk texts.
- The expiry of a preview while its apply is under way: `apply` looks it up once at its start, and the approval's own expiry is what is checked later.
- Who observes a promotion after its merge, and the project-wide limit of one promotion at a time: the first is a free change of what a record says, the second one of the ways an intent fails to be recorded.
- Reuse of one approval id across rooms and paths: the scope checks of the registry would only add refusals.
- Clock skew between governor processes: the bound assumes the transactions commit in the order of their clocks; the distance of windows does not.
- Truncation of the audit log: a prefix of a sound log is sound, as `EveryLogVerifies` says, so only the last MAC kept elsewhere can show it.
- The JSON encoding of an audit row: it is taken to be injective.
- A peer send's checks of its own sender: what they cancel is one of the free changes of a delivery's progress.
- A temporary file that a failing write leaves in the source because its clean-up fails as well: the rollback would then report a changed source.
- Rounding of floating point numbers and of the published scale to three digits: the desk layout is computed over reals, and the floor is taken to have the height that was published for it.
- Agents that are not on the floor's list, which the page would place like the first guest, and the fallback grid of a floor that was never visible.
- Rendering, polling, fetching, configuration, doctor, help and command dispatch: no state the properties depend on.
- The seat removal lock of the page, session context, maintenance and the terminal bridge: they would only add easy members.

# Civ4 Turn Relay: a verified model of the handoff protocol and what hangs on it

Several Relay clients pass a play-by-email save around through one shared remote tree. There
is no server: the tree offers exclusive `mkdir`, no-replace publication, atomic replacement
and plain reads, writes and removals, and any call may fail before it takes effect or after
it did. This project models the handoff commit protocol that runs over that tree, the local
side that acts on its results, and proves what every run keeps.

How the pieces fit together:

* `Domain`, `HashClassify` - identifiers, contents, paths, the manifest and its validity, and
  the classification of an outgoing hash. A content is a byte string up to what the protocol
  observes of it: equality, SHA-256 and length (one fixed arbitrary function, nothing about
  it is assumed, so names that carry twelve digits of a digest may collide), and what it
  parses to. Canonical JSON is one spelling among several of the same manifest.
* `Storage` - one storage operation on a set of directories and a map of files, under a fault.
* `Handoff`, `Initialize`, `Evidence` - `commit_handoff`, `initialize_match` and the evidence
  part of `reconcile_match` as machines that take one storage or journal operation per step.
* `World` - any number of clients over one tree. An event is one step of one client under a
  fault, a crash, the start of a call, a change of the client's records between calls, the
  removal of a temporary object by a cleanup, or an operator repair of the lock. `chain` and
  `began` are history only.
* `Invariant`, `Stability`, `Commit`, `HandoffSafety`, `Safety`, `Runs` - the invariant of
  every run, by rely and guarantee: what one step may do to the others, and what each client's
  knowledge survives. The central fact: while `lock.json` names a request, the manifest is
  byte for byte what that request read.
* `Theorems`, `Outcomes` - what the invariant means for players: no lost update, turn
  rotation, the archive, truthful memory, truthful results, single-shot initialization.
* `NoRepair` - runs without operator repair: mutual exclusion, ownership never lost.
* `Alone`, `Obstacles`, `Answers` - exactly when an undisturbed call commits, and each of its
  other answers exactly when; `Resume`, `CrashAnywhere` - that a call cut anywhere and submitted
  again ends where the undisturbed one would have.
* `Possible`, `Windows` - runs that reach the crash theorem's starting point, and runs that
  reach each of the two windows excluded from repair and lose an update after a repair there.
* `Faults`, `FakeStorage`, `Journal`, `RemoteReads`, `HandoffCall`, `InitCall`,
  `ReconcileCall` - the storage, its fault schedule and the journal as classes whose fields
  change in place, and the protocol's functions as methods over them, each proved to do exactly
  what its machine does; `CallSafety` shows that such a call is a stretch of a run of `World`, so
  every theorem above speaks about the methods. `Recovery` - what an undisturbed
  reconciliation makes of a journal entry in the shared world.
* `Cleanup` - the removal of temporary orphans, which has no machine: its effect is specified on
  the tree, and `CallSafety` shows that it is that of a run of single removals; and operator
  repair, which is one step in `World`.
* `Filters`, `Detect`, `Scan` - stability detection with two samples per file against the full
  poll history, and one pass over the save directory.
* `Guard`, `Launch` - the guarded launch on one machine with any number of Relay instances.
* `Coordinator` - what the process coordinator of one session may ask of the supervisor.
* `Closing`, `CloseCall` - any number of clients with their coordinators over the shared world:
  no process is closed before its turn is committed, in any history; and the client's close path
  as methods, each shown to be a stretch of such a history.

Standing assumptions of `World`: at most one live process per client id; an operation id is
issued for one client, player and hash and not reused for another turn; a call that returned
has no later effect; no read of any kind returns altered bytes, neither of the manifest and the
lock nor of a staged or published object (the methods over `FakeStorage` are proved with
corrupted reads as well). Operator repair is one atomic step that may happen at
any moment except between a holder's ownership check and the operation that check licenses:
the replacement of the manifest, or the removal of `lock.json`.

## What the proofs found

* Retry is acknowledged only with two players or more. With one player the same retry is
  rejected as the incoming save (`HashClassify.SinglePlayerRetryIsRejected`,
  `Resume.LandedIsRejectedAlone`).
* The ownership checks are what makes repair safe, and each must be the last thing before what
  it licenses: in every match of two players or more a repair between the check and the
  replacement, or between the check and the removal of the lock, can lose an update
  (`Windows.RepairInWindowLosesAnUpdate`, `Windows.RepairInReleaseLosesAnUpdate`).
* A cut between the `mkdir` of the lock and the write of its document leaves a lock that
  nobody can resume (`CrashAnywhere.LockWithoutDocumentIsStuck`); one between that write and the
  journal entry leaves a lock held against its own writer (`CrashAnywhere.LockWithoutJournalIsHeld`).
* `docs/SYNC_PROTOCOL.md` lines 250 and 255 require an outgoing hash to be absent from the
  play-session baseline, also for an overwritten path. The code offers a file with a baseline
  hash exactly when the baseline recorded its path and the second read shows such a hash
  (`Scan.BaselineRuleHoldsExactlyWhen`). Two kinds of file are offered against the rule: a
  baseline save copied over another one (`Scan.CopiedBaselineSaveIsOffered`), and a baseline save
  restored between the two reads, since the second read is not compared with the hash recorded
  for the path (`Scan.RestoredBaselineSaveIsOffered`).
* `terminate_after_commit` promises at most one automatic termination per operation and
  session. Only the last operation is remembered: an operation is terminated automatically again
  if and only if a termination for another operation was sent in between
  (`Coordinator.RepeatIsSentExactlyWhen`).
* An emitted close intent is not always persisted as requested. It is stored and marked if and
  only if the manifest read succeeded and either its entitlement was stored before or its
  evidence is not about another operation than the one in progress
  (`ReconcileCall.IntentIsStoredExactlyWhen`). One read lost right after a commit is enough to
  forget the entitlement (`ReconcileCall.LostReadForgetsTheIntent`), and then no later
  reconciliation restores it (`ReconcileCall.LostEntitlementStaysLost`); or to leave a stored one
  unmarked (`ReconcileCall.LostReadLeavesTheIntentUnmarked`). Evidence about another operation is
  forgotten after a successful read too (`ReconcileCall.ForeignEvidenceIsForgotten`).

## Model

| member | source | states |
|---|---|---|
| Theorems.NoLostUpdate | src/civ4_turn_relay/protocol/handoff.py:526-561 | in every run, with faults, crashes, cleanup and repair outside the two windows, the manifest changes only when a client's replacement puts its next manifest over exactly the bytes it read, under a lock that still names it, or when an initializer installs the very first one |
| Runs.RunKeepsInv | src/civ4_turn_relay/protocol/handoff.py:332-572 | the invariant of tree, chain, locks, journals and results holds after every run |
| Runs.RepairKeeps | src/civ4_turn_relay/protocol/lock.py:976-1093 | removing the lock at any allowed moment keeps the invariant, including when the client that made the directory writes its document late |
| Windows.RepairInWindowLosesAnUpdate | src/civ4_turn_relay/protocol/handoff.py:526-561 | in every match of two players or more an ordinary run reaches a holder between its ownership check and its replacement; after a repair there another call commits the turn, and the replacement succeeds and overwrites it with one of the same sequence number |
| Windows.RepairInReleaseLosesAnUpdate | src/civ4_turn_relay/protocol/lock.py:935-973 | in every match of two players or more an ordinary run reaches a holder between its release check and the removal; after a repair there the removal takes the lock of the next player, and a turn committed meanwhile is overwritten |
| NoRepair.OwnershipIsNeverLost | src/civ4_turn_relay/protocol/lock.py:771-973 | without operator repair no call ever returns LOCK_OWNERSHIP_LOST |
| NoRepair.MutualExclusion | src/civ4_turn_relay/protocol/lock.py:771-861 | without operator repair two clients are never both between taking and releasing the lock |
| Theorems.TurnRotation | src/civ4_turn_relay/protocol/players.py:8-30 | the manifest of sequence s has the initial player list, current player s mod n and last sender s-1 mod n |
| Theorems.EachTurnAppendsANewHash | src/civ4_turn_relay/protocol/handoff.py:481-503 | each turn appends exactly its own hash to the accepted list, and the list did not hold it |
| Theorems.HashListIsHistory | src/civ4_turn_relay/protocol/handoff.py:481-503 | entry k of every later hash list is the hash accepted at turn k+1 |
| Theorems.AcceptedAtMostOnce | src/civ4_turn_relay/protocol/hash_classify.py:107-138 | however many clients, operations and retries submit the same hash, it is accepted at one turn only |
| Theorems.OperationCommitsOnce | src/civ4_turn_relay/protocol/handoff.py:365-410 | an operation id commits at most one turn |
| Theorems.ArchiveUnbroken | src/civ4_turn_relay/protocol/handoff.py:713-887 | every committed manifest's save path holds an object of the recorded size and digest, and its previous-manifest reference holds an object with the fingerprint of the preceding manifest's exact bytes |
| Theorems.ArchiveImmutable | src/civ4_turn_relay/protocol/handoff.py:713-887 | over any run no published save or history object is changed or removed |
| Theorems.TruthfulMemory | src/civ4_turn_relay/local/reconcile.py:177-236 | every hash a client holds as historically accepted or processed is in the remote accepted list |
| Theorems.UnsentTurnIsNeverDiscarded | src/civ4_turn_relay/protocol/hash_classify.py:107-138 | a hash the remote list lacks is never in the processed set and is always classified as a new candidate |
| Theorems.JournalAttributionIsExact | src/civ4_turn_relay/local/handoff_evidence.py:179-234 | journal attribution against the manifest read yields evidence if and only if this client's journalled operation installed the last manifest, and the evidence names that turn |
| Theorems.ResultAttributionIsExact | src/civ4_turn_relay/local/handoff_evidence.py:136-176 | a returned result is attributed if and only if it is COMMITTED or IDEMPOTENT_ACK and carries the manifest by which this operation committed the turn after the source sequence |
| Outcomes.ResultsAreValid | src/civ4_turn_relay/protocol/handoff.py:191-265 | every returned result passes the checks of its constructor and carries the call's hash, and a committed one carries a valid manifest |
| Outcomes.ChangedMeansOneTurn | src/civ4_turn_relay/protocol/handoff.py:191-265 | manifest_changed: this call installed exactly that manifest and no other, one turn and one hash after its predecessor, and the result passes its own checks |
| Outcomes.AcknowledgedMeansSent | src/civ4_turn_relay/protocol/handoff.py:379-394 | IDEMPOTENT_ACK: a manifest of the chain ends in this hash with the local player as last sender |
| Outcomes.RefusedMeansUntouched | src/civ4_turn_relay/protocol/handoff.py:590-646 | any outcome other than COMMITTED, IDEMPOTENT_ACK, TRANSPORT_FAILURE and LOCK_CLEANUP_AMBIGUOUS: this call installed nothing |
| Outcomes.InitializationOverwritesNothing | src/civ4_turn_relay/protocol/initialize.py:113-147 | no step of an initialization changes an existing manifest |
| Outcomes.OneSequenceZero | src/civ4_turn_relay/protocol/initialize.py:177-194 | only the first manifest ever installed has sequence zero |
| Outcomes.CreatedIsTrue | src/civ4_turn_relay/protocol/initialize.py:150-174 | CREATED is returned only to the client whose bytes became the first manifest |
| Outcomes.JoinedIsTrue | src/civ4_turn_relay/protocol/initialize.py:100-112 | in every reachable world JOINED_EXISTING comes with a manifest of the chain |
| Outcomes.OneCreator | src/civ4_turn_relay/protocol/initialize.py:66-97 | two clients never both hold CREATED |
| Outcomes.EntitlementIsCommitted | src/civ4_turn_relay/local/reconcile.py:199-226 | a stored close entitlement names a turn this client committed under that operation and hash, and the hash is in the accepted list |
| Handoff.NextManifest | src/civ4_turn_relay/domain/manifest.py:225-358 | the manifest built for any classified candidate passes every check of its constructor |
| Handoff.EveryReplyMakesProgress | src/civ4_turn_relay/protocol/handoff.py:332-572 | whatever the storage answers the call gets closer to returning, so it returns within 33 operations |
| HashClassify.NewIffUnknown | src/civ4_turn_relay/protocol/hash_classify.py:107-138 | a hash is a new candidate exactly when neither the remote list nor the local acceptance record knows it |
| HashClassify.RetryIsAcknowledged | src/civ4_turn_relay/protocol/hash_classify.py:112-121 | with two players or more an evidenced retry of the latest hash is acknowledged |
| HashClassify.SinglePlayerRetryIsRejected | src/civ4_turn_relay/protocol/hash_classify.py:107-115 | with a single player the same retry is rejected as the incoming save |
| HashClassify.IndexOf | src/civ4_turn_relay/protocol/players.py:8-30 | the position found is the first one of the player |
| Commit.InstalledChainOk | src/civ4_turn_relay/protocol/handoff.py:481-544 | replacing the last manifest with the request's next one keeps every link, the archive and the tie between manifest and chain |
| Stability.ClientKept | src/civ4_turn_relay/protocol/handoff.py:332-572 | everything a client knows survives whatever another client's step may do |
| Alone.CommitsExactlyOnTrack | src/civ4_turn_relay/protocol/handoff.py:332-572 | from any stage an undisturbed call commits if and only if the tree has room for what is left to do, and then the manifest is its own |
| Alone.CommitsFromRead | src/civ4_turn_relay/protocol/handoff.py:345-572 | under the lock an undisturbed call commits if and only if the hash is new, the turn is this player's, and save, archive and staging paths are free or hold matching objects |
| Alone.ReleaseEnds | src/civ4_turn_relay/protocol/lock.py:935-973 | undisturbed release returns the result unchanged and leaves neither lock nor journal entry |
| Answers.AnswersExactlyWhen | src/civ4_turn_relay/protocol/handoff.py:345-572 | each outcome of an undisturbed call under its lock if and only if a condition on manifest, memory, hash and tree: MISSING_MANIFEST, INVALID_MANIFEST, REJECT_INCOMING, IDEMPOTENT_ACK, JOURNAL_ONLY_ACK, STALE_REPLAY, NOT_CURRENT_OWNER, COMMITTED, HARD_INTEGRITY_FAILURE, TRANSPORT_FAILURE |
| Answers.RefusalsAnswer | src/civ4_turn_relay/protocol/handoff.py:354-410 | whatever is not the new turn of the current player ends with the stored manifest, the tree as it was without the lock, the journal entry cleared, and the memory as it was except for an acknowledged hash |
| Obstacles.ObstacleDecides | src/civ4_turn_relay/protocol/handoff.py:411-572 | from any stage of the work the first obstacle still ahead on the tree, in the order the call meets them, is its answer: a hard failure releases the lock, a missing directory keeps it |
| Obstacles.NoObstacleIsRoom | src/civ4_turn_relay/protocol/handoff.py:657-887 | there is no obstacle exactly when the tree has the room that the commit needs |
| Answers.CollisionIsHard | src/civ4_turn_relay/protocol/handoff.py:713-887 | on a tree with its directories and no directory in place of a name, a hard integrity failure is exactly a collision: the name of the save, of the staged archive or of the archive holds other bytes |
| Answers.AcquireAnswers | src/civ4_turn_relay/protocol/lock.py:771-902 | what an undisturbed call makes of the lock it finds: its own and journalled one resumed, another readable one held, anything else unreadable, a free one taken; nothing changes unless it goes on |
| Answers.OwnershipExactlyWhen | src/civ4_turn_relay/protocol/lock.py:905-932 | the check before the commit point goes on to the replacement if and only if the lock document names this request; otherwise the ownership is lost and nothing has changed |
| Answers.ReleaseAnswers | src/civ4_turn_relay/protocol/lock.py:935-973 | a release removes its own lock, leaves an absent one or another's alone and clears the entry, and answers ambiguously and keeps everything when the lock cannot be read |
| Answers.UncertainAnswers | src/civ4_turn_relay/protocol/handoff.py:890-931 | after a lost response to the replacement: acknowledged, released and recorded exactly when the stored manifest is byte for byte the intended one; otherwise a transport failure that keeps the lock |
| Answers.LossKeepsTheLock | src/civ4_turn_relay/protocol/handoff.py:332-572 | a lost request or response anywhere under the lock answers TRANSPORT_FAILURE at once, lock and entry kept, except that a lost replacement is looked at once more |
| Answers.LossAroundTheLock | src/civ4_turn_relay/protocol/lock.py:771-973 | a loss while taking the lock answers TRANSPORT_FAILURE, one while releasing it is ambiguous, one of the document write still journals the attempt |
| Resume.RerunEnds | src/civ4_turn_relay/protocol/handoff.py:268-572 | from any resumable state a fresh call ends in COMMITTED or IDEMPOTENT_ACK with the turn on the tree, lock and journal cleared |
| Resume.StepResumes | src/civ4_turn_relay/protocol/handoff.py:657-931 | no operation of an attempt, under any lost request or response, leaves the resumable states while its lock document stays |
| Resume.LandedIsRejectedAlone | src/civ4_turn_relay/protocol/hash_classify.py:107-115 | with one player the rerun of a landed turn is rejected |
| CrashAnywhere.CrashAnywhere | src/civ4_turn_relay/protocol/handoff.py:411-572 | a call that would commit, cut at any operations by crashes and lost requests and responses before its release removes the lock document, while other clients and cleanup go on, still has its lock and journal entry, and submitted again with the same operation, bytes, client and player ends acknowledged with the same manifest up to its time |
| CrashAnywhere.CommitPassesThroughRead | src/civ4_turn_relay/protocol/lock.py:771-902 | every committing call passes through the state that theorem starts from: lock taken, journal written |
| CrashAnywhere.JournalStartsTheCut | src/civ4_turn_relay/protocol/lock.py:803-861 | the theorem also starts where the response to the document write was lost and the journal entry was written |
| Possible.CommitIsPossible | src/civ4_turn_relay/protocol/handoff.py:268-329 | for every match of two players or more and every first save there is a run without repair that reaches the state the crash theorem starts from |
| CrashAnywhere.LockWithoutDocumentIsStuck | src/civ4_turn_relay/protocol/lock.py:803-852 | a lock without a document is reported unreadable to everybody and never changed |
| CrashAnywhere.LockWithoutJournalIsHeld | src/civ4_turn_relay/protocol/lock.py:864-902 | a lock document is held against every request without its journal entry, its writer's included, and never changed |
| Storage.ExecKeepsWellFormed | src/civ4_turn_relay/storage/fake.py:85-196 | after any operation under any fault files and directories are disjoint and every entry's parent is a directory |
| FakeStorage.StorageStaysSound | src/civ4_turn_relay/storage/fake.py:198-211 | after any sequence of operations, whatever capabilities the storage has, the tree is well formed and every pending fault can still fire |
| FakeStorage.FakeStorage.MakeDirectory | src/civ4_turn_relay/storage/fake.py:85-94 | does exactly the specified operation under its scheduled fault, and spends what was scheduled for the call |
| FakeStorage.FakeStorage.WriteFile | src/civ4_turn_relay/storage/fake.py:96-106 | the same for a write with or without overwriting |
| FakeStorage.FakeStorage.ReadFile | src/civ4_turn_relay/storage/fake.py:108-124 | the same for a read, corrupted when scheduled, refused without complete read-back |
| FakeStorage.FakeStorage.ListDirectory | src/civ4_turn_relay/storage/fake.py:126-136 | the same for a listing |
| FakeStorage.FakeStorage.DeleteFile | src/civ4_turn_relay/storage/fake.py:138-145 | the same for the removal of a file |
| FakeStorage.FakeStorage.DeleteDirectory | src/civ4_turn_relay/storage/fake.py:147-156 | the same for the removal of an empty directory |
| FakeStorage.FakeStorage.PublishNoReplace | src/civ4_turn_relay/storage/fake.py:158-180 | the same for a move that never replaces |
| FakeStorage.FakeStorage.ReplaceAtomically | src/civ4_turn_relay/storage/fake.py:182-196 | the same for an atomic replacement |
| Faults.FaultsFireOnce | src/civ4_turn_relay/storage/faults.py:1-23 | over any interleaving of calls the n-th call of a kind meets exactly what was scheduled for n, and what is still pending lies beyond the call counts |
| Faults.CallsAreCounted | src/civ4_turn_relay/storage/faults.py:142-159 | the call counts are the numbers of calls made |
| Faults.SpentStaysPending | src/civ4_turn_relay/storage/faults.py:146-173 | a completed call leaves only faults that have not passed |
| Faults.FaultController.Inject | src/civ4_turn_relay/storage/faults.py:96-115 | a fault is accepted exactly when its call has not begun and it is not scheduled already |
| Faults.FaultController.InjectReadCorruption | src/civ4_turn_relay/storage/faults.py:117-126 | the same for a read corruption |
| Faults.FaultController.Reset | src/civ4_turn_relay/storage/faults.py:128-132 | nothing is scheduled and every call counts from the start again |
| Faults.FaultController.TakeFault | src/civ4_turn_relay/storage/faults.py:207-221 | finds and removes the fault of this moment if there is one |
| Faults.FaultController.Begin | src/civ4_turn_relay/storage/faults.py:146-159 | counts the call, fires BEFORE and then retires the rest of the call's schedule |
| Faults.FaultController.Abort | src/civ4_turn_relay/storage/faults.py:166-173 | an ordinary error retires everything scheduled for the call |
| Faults.FaultController.CorruptReadPayload | src/civ4_turn_relay/storage/faults.py:175-182 | altered bytes exactly when scheduled for this read |
| Faults.FaultController.Finish | src/civ4_turn_relay/storage/faults.py:161-164 | fires AFTER exactly when it is the call's fault, and leaves the schedule spent |
| Journal.DurableHandoffJournal.BeginHandoff | src/civ4_turn_relay/local/journal.py:97-110 | one update: the entry, and the hash among the attempted ones, without repetition |
| Journal.DurableHandoffJournal.ClearInProgress | src/civ4_turn_relay/local/journal.py:112-120 | removes the entry and nothing else |
| Journal.DurableHandoffJournal.RecordHistoricalAcceptance | src/civ4_turn_relay/local/journal.py:138-152 | adds the hash to the accepted ones and nothing else |
| Journal.WithHashAdds | src/civ4_turn_relay/local/journal.py:164-167 | the extended list holds the hash and stays without repetition |
| RemoteReads.CompareStoredObject | src/civ4_turn_relay/storage/verification.py:50-68 | an exact match only when size and digest of the bytes read both match |
| RemoteReads.ReadAuthoritativeManifest | src/civ4_turn_relay/protocol/manifest_access.py:115-150 | the outcome of the one read it makes: missing, invalid, another game's, unreachable, or the manifest with its exact bytes |
| RemoteReads.InspectUploadLock | src/civ4_turn_relay/protocol/lock.py:656-736 | the observation of one listing, one read, and for an object of the wrong kind a second look that returns its exact bytes or entries |
| RemoteReads.InspectionInforms | src/civ4_turn_relay/protocol/lock.py:656-736 | an inspection changes no object, and each of its replies is what the tree holds, byte for byte unless a corruption was scheduled |
| HandoffCall.AcquireOrResumeUploadLock | src/civ4_turn_relay/protocol/lock.py:771-861 | acts as the machine does from its first step up to the manifest read, or to its refusal |
| HandoffCall.ResumeExistingLock | src/civ4_turn_relay/protocol/lock.py:864-902 | the same when the lock exists |
| HandoffCall.CheckLockOwnership | src/civ4_turn_relay/protocol/lock.py:905-932 | the same for the check before the commit point |
| HandoffCall.ReleaseOwnedUploadLock | src/civ4_turn_relay/protocol/lock.py:935-973 | the same for the release |
| HandoffCall.StageAndVerifyUpload | src/civ4_turn_relay/protocol/handoff.py:657-710 | the same for staging the save |
| HandoffCall.PublishOrReuseFinal | src/civ4_turn_relay/protocol/handoff.py:713-759 | the same for publishing it |
| HandoffCall.ArchiveOrReuseHistory | src/civ4_turn_relay/protocol/handoff.py:762-887 | the same for archiving the manifest |
| HandoffCall.ReconcileUncertainCommit | src/civ4_turn_relay/protocol/handoff.py:890-931 | the same after a lost replacement response |
| HandoffCall.RunOwnedHandoff | src/civ4_turn_relay/protocol/handoff.py:332-572 | the same for the whole attempt under the lock |
| HandoffCall.ApplyCleanup | src/civ4_turn_relay/protocol/handoff.py:590-646 | the same for retaining or releasing the lock afterwards |
| HandoffCall.CommitHandoff | src/civ4_turn_relay/protocol/handoff.py:268-329 | storage, fault schedule, journal and result are those of the machine's run; without full capabilities nothing is touched |
| CallSafety.CallIsARun | src/civ4_turn_relay/protocol/handoff.py:268-329 | such a call is a stretch of a run of the shared world, with the same tree, journal and result |
| CallSafety.FaultlessCallIsAlone | src/civ4_turn_relay/protocol/handoff.py:268-329 | without scheduled faults it is the undisturbed call |
| CallSafety.InitializationIsARun | src/civ4_turn_relay/protocol/initialize.py:66-97 | an initialization over the storage is a stretch of a run |
| CallSafety.ReconciliationIsARun | src/civ4_turn_relay/local/reconcile.py:314-754 | a reconciliation over the storage and the records is a stretch of a run |
| InitCall.InitializeMatch | src/civ4_turn_relay/protocol/initialize.py:66-97 | tree, schedule and result are those of the machine's run, for any capabilities; undisturbed, an existing root is classified by the stored object and left alone, and an empty tree becomes the skeleton |
| InitCall.FinishNewMatch | src/civ4_turn_relay/protocol/initialize.py:113-147 | the same from the subdirectories on |
| InitCall.FreshTreeIsInitialized | src/civ4_turn_relay/protocol/initialize.py:113-147 | on an empty tree without faults: CREATED, with the five directories and the sequence-zero manifest and nothing else |
| InitCall.ExistingAnswers | src/civ4_turn_relay/protocol/initialize.py:100-112 | on an existing root without faults the tree stays as it is, and JOINED_EXISTING with manifest m, INVALID_MANIFEST, GAME_ID_MISMATCH and INCOMPLETE_OR_CONFLICTING are each answered if and only if the object under manifest.json says so |
| InitCall.UncertainAnswers | src/civ4_turn_relay/protocol/initialize.py:150-174 | after a lost response: CREATED exactly when the stored bytes are the intended ones, JOINED_EXISTING exactly when they are another manifest of this game, TRANSPORT_FAILURE exactly when there is no object |
| InitCall.LossAnswers | src/civ4_turn_relay/protocol/initialize.py:66-147 | a loss while the manifest is staged or installed leads to a look at the stored bytes, any other loss ends in a transport failure |
| InitCall.RootFileConflicts | src/civ4_turn_relay/protocol/initialize.py:66-97 | a file in place of the root conflicts and nothing is touched |
| InitCall.NoCapabilityAnswers | src/civ4_turn_relay/protocol/initialize.py:66-97 | a storage without exclusive directory creation is refused untouched |
| InitCall.NoRootIsFresh | src/civ4_turn_relay/protocol/initialize.py:66-97 | a well-formed tree without a root is empty, so the fresh tree, the existing root and the root file are all the cases there are |
| Cleanup.CleanupTemporaryOrphans | src/civ4_turn_relay/protocol/cleanup.py:107-241 | nothing happens when a candidate escapes; otherwise the lock is inspected, an unsafe one stops everything, and a complete cleanup removes exactly the candidates that are files and not of the operation the lock names; every removal has its item, and every item is true; on the tree, unless a read was altered, the objects of the operation in `lock.json` stay and nothing goes while the lock names nobody; undisturbed it is unsafe exactly then and complete otherwise |
| Cleanup.UnsafeExactlyWhen | src/civ4_turn_relay/protocol/cleanup.py:154-177 | an answered, unaltered inspection finds the lock unsafe exactly when it is there and names nobody, and otherwise protects exactly the operation named |
| CallSafety.CleanupIsARun | src/civ4_turn_relay/protocol/cleanup.py:179-241 | the tree a cleanup leaves is that of a run of single removals of temporary objects |
| Cleanup.ResolveCandidates | src/civ4_turn_relay/protocol/cleanup.py:120-141 | splits the candidates, in order, into the temporary ones and the violations |
| Cleanup.RepairAbandonedUploadLock | src/civ4_turn_relay/protocol/lock.py:976-1196 | not confirmed and not repairable exactly when the caller says so; undisturbed, the lock is removed if and only if it still is exactly as previewed, in kind, bytes and entries, reported absent if and only if it was and is, and reported changed, untouched, in all other cases; under faults it is removed only as previewed, and nothing but the lock ever is |
| RemoteReads.CalmInspection | src/civ4_turn_relay/protocol/lock.py:656-736 | an undisturbed inspection finds the lock exactly as it stands on the tree |
| ReconcileCall.ApplyExactHandoffEvidence | src/civ4_turn_relay/local/reconcile.py:177-236 | evidence about another operation changes nothing; otherwise hash, journal and entitlement are updated as specified |
| ReconcileCall.RecoverJournal | src/civ4_turn_relay/local/reconcile.py:239-311 | acts as the machine does up to its second read; `RecoveryIsExact` says what that machine does |
| ReconcileCall.RecoveryIsExact | src/civ4_turn_relay/local/reconcile.py:239-311 | an undisturbed reconciliation without given evidence completes the operation of its own journal entry if and only if the manifest is the one that operation installed: then the hash is processed, the entry cleared, the entitlement stored field by field for the associated turn unless its process is gone, and the close intended and noted exactly for it; otherwise entry and processed hashes are as they were |
| ReconcileCall.FreshEvidenceIsExact | src/civ4_turn_relay/local/reconcile.py:353-425 | the same for the evidence of a result just returned: completed if the manifest still proves it and it is not about another entry, and nothing recorded otherwise |
| ReconcileCall.NothingReadKeeps | src/civ4_turn_relay/local/reconcile.py:353-391 | with no manifest of this game to be read the records stay as they are, and a close is intended only for an entitlement stored already or named by the given evidence |
| Recovery.RecoveryInWorld | src/civ4_turn_relay/local/reconcile.py:239-311 | in every reachable world a client with a journal entry of its own that reconciles undisturbed ends without the entry if and only if the last turn of the chain is that operation of this client, with hash, entitlement and intent as above |
| Recovery.FreshEvidenceInWorld | src/civ4_turn_relay/local/reconcile.py:353-425 | in every reachable world the evidence of the call that has just returned completes its operation if and only if its turn is still the last one of the chain |
| ReconcileCall.FinishReconcile | src/civ4_turn_relay/local/reconcile.py:353-425 | records and journal end as the machine leaves them, the stored records and the close intent being the ones decided for the manifest read, after a failed read too |
| ReconcileCall.IntentIsStoredExactlyWhen | src/civ4_turn_relay/local/reconcile.py:638-650 | for every pass, records, evidence and read that emit a close intent: it is stored and marked if and only if the read succeeded and its entitlement was stored before or its evidence is not foreign; it is stored at all if and only if it was before or that holds of a successful read |
| ReconcileCall.LostReadForgetsTheIntent | src/civ4_turn_relay/local/reconcile.py:353-391 | a manifest read lost right after a commit: the intent is emitted and its entitlement written nowhere |
| ReconcileCall.LostReadLeavesTheIntentUnmarked | src/civ4_turn_relay/local/reconcile.py:353-391 | a lost read with the entitlement stored: the intent is emitted and the record stays unmarked |
| ReconcileCall.ForeignEvidenceIsForgotten | src/civ4_turn_relay/local/reconcile.py:177-236 | proven evidence about another operation than the one in progress: the intent is emitted and nothing is stored |
| ReconcileCall.LostEntitlementStaysLost | src/civ4_turn_relay/local/reconcile.py:314-391 | with no entry in progress and no entitlement, a reconciliation without a new result's evidence leaves the records as they were and intends no close |
| ReconcileCall.ReconcileMatch | src/civ4_turn_relay/local/reconcile.py:314-754 | records and journal end as the machine leaves them, and the close intent is exactly the one it decides at its second read, only in managed mode for a process seen running; undisturbed and without given evidence, records and intent are exactly those of a completed operation if the stored manifest is the one that the client's own entry installed, else only the stored entitlement is looked at, and without a manifest to read nothing changes |
| Detect.TwoSamplesStandForHistory | src/civ4_turn_relay/local/detect.py:108-171 | after any history of polls, of any files and across sessions, the remembered samples of a file in a session are the first and last of the run that saw it unchanged since the session last began |
| Detect.MergeForPath | src/civ4_turn_relay/local/detect.py:131-171 | a merge leaves the samples of every other file of the session alone |
| Detect.UnchangedIsMaximal | src/civ4_turn_relay/local/detect.py:152-158 | that run is the end of the history, constant, and not extendable |
| Detect.RecentIsMaximal | src/civ4_turn_relay/local/detect.py:108-122 | the polls since the session last began are the longest end of the history in that session |
| Detect.StableExactly | src/civ4_turn_relay/local/detect.py:174-195 | after any history of polls, whichever way the clock went, the file polled last is stable exactly when that run has two samples and its first and last are a second apart |
| Scan.BaselineIndex | src/civ4_turn_relay/local/detect.py:73-82 | the index gives the last recorded hash of every path and the set of all hashes |
| Scan.ObserveOutgoingCandidates | src/civ4_turn_relay/local/detect.py:198-372 | the pass over the directory is the fold of its per-file decision |
| Scan.DetectionIsExact | src/civ4_turn_relay/local/detect.py:237-372 | over distinct files that can be read, the candidates are exactly those that qualify one by one, in order, and the outcome says whether any unknown file was seen |
| Scan.FirstFailureEnds | src/civ4_turn_relay/local/detect.py:258-340 | the first file that cannot be contained or read ends the pass with its own failure, nothing offered and nothing remembered |
| Scan.FailsExactlyWhen | src/civ4_turn_relay/local/detect.py:258-340 | a failure is reported if and only if some file fails by itself |
| Scan.ExcludedIsNeverOffered | src/civ4_turn_relay/local/detect.py:85-93 | no accepted, processed or downloaded hash is offered |
| Scan.OfferedExactlyWhen | src/civ4_turn_relay/local/detect.py:291-355 | a file is offered exactly when it is unknown on the first read, stable, and whole on the second, whose hash is not excluded and, at a path the baseline did not record, not in the baseline |
| Scan.BaselineRuleHoldsExactlyWhen | src/civ4_turn_relay/local/detect.py:340-348 | for every file the code follows the design's baseline rule if and only if it is not the case that the baseline recorded the path and the second read shows a baseline hash |
| Scan.OwnBaselineHashNeedsARace | src/civ4_turn_relay/local/detect.py:291-348 | a file offered with the hash recorded for its own path read differently the first time |
| Scan.CopiedBaselineSaveIsOffered | src/civ4_turn_relay/local/detect.py:291-348 | a baseline save copied over another one is offered |
| Scan.RestoredBaselineSaveIsOffered | src/civ4_turn_relay/local/detect.py:340-348 | a baseline save restored between the two reads is offered |
| Guard.ClassifyScanEntries | src/civ4_turn_relay/process/guard.py:94-137 | first exact match, else first doubtful entry, else no match |
| Guard.ClassificationIsUnique | src/civ4_turn_relay/process/guard.py:94-137 | a list has one classification |
| Guard.OneCivPerExecutable | src/civ4_turn_relay/process/guard.py:282-376 | however Relay instances interleave acquiring, scanning, spawning and releasing, crash and are joined by processes started by hand, at most one process they launched runs per executable |
| Launch.FakeMachine.Acquire | src/civ4_turn_relay/process/fake.py:148-170 | the guard is held afterwards exactly if it was free and usable |
| Launch.FakeMachine.ReleaseGuard | src/civ4_turn_relay/process/fake.py:172-182 | only the holder's own acquisition releases it |
| Launch.FakeMachine.ScanEntries | src/civ4_turn_relay/process/fake.py:128-139 | every registered process and scripted entry is listed |
| Launch.FakeProcessSupervisor.LaunchProcess | src/civ4_turn_relay/process/fake.py:241-271 | registers the returned identity, or nothing |
| Launch.RegisteredOnce | src/civ4_turn_relay/process/fake.py:241-271 | while the process table is that of a machine the moves can reach, at most one registered process runs per executable |
| Launch.ScanFinds | src/civ4_turn_relay/process/guard.py:94-137 | over the full listing of a machine, an exact match is found if and only if some listed process or entry is exactly the executable, a doubtful one if and only if none is and some entry looks like it; the pid is that of one |
| Launch.FakeProcessSupervisor.GuardedLaunch | src/civ4_turn_relay/process/guard.py:282-376 | a launch is tried if and only if the guard was free and usable, the scan did not raise, and no listed process or entry is or looks like the executable; SPAWNED if and only if moreover the launch succeeds; existing process, indeterminate scan, busy and unavailable guard and abandoned-guard recovery each exactly when they hold; an acquired guard is released exactly once, exceptions included; a failing release changes nothing else; and the launch is a sequence of moves of the machine of Relay instances |
| Coordinator.MismatchIsNeverTouched | src/civ4_turn_relay/app/process_runtime.py:183-202 | over any sequence of operations, after a probe reports a mismatch no close, terminate or focus call for that identity reaches the supervisor |
| Coordinator.AutomaticTerminationNeverRepeats | src/civ4_turn_relay/app/process_runtime.py:309-377 | no automatic termination repeats the operation of the termination before it |
| Coordinator.RepeatNeedsAnotherOperation | src/civ4_turn_relay/app/process_runtime.py:328-341 | an automatic repeat needs a termination for another operation in between |
| Coordinator.TerminationIsSentExactlyWhen | src/civ4_turn_relay/app/process_runtime.py:309-377 | after any sequence of operations a termination reaches the supervisor if and only if it names the entitled process, the probe finds exactly that process, no probe ever found its pid reused, and, unless a user asked, the last termination sent was for another operation |
| Coordinator.RepeatIsSentExactlyWhen | src/civ4_turn_relay/app/process_runtime.py:328-341 | an operation is terminated automatically again if and only if a termination for another operation was sent since |
| Coordinator.ClosedExactlyWhen | src/civ4_turn_relay/app/process_runtime.py:296-300 | a close is concluded if and only if the caller has just established it or a termination found the process not running |
| Coordinator.FocusIsSentExactlyWhen | src/civ4_turn_relay/app/process_runtime.py:379-397 | after any sequence of operations a process is brought to the front if and only if the probe finds exactly it and no probe ever found its pid reused |
| Coordinator.GracefulCloseIsSentExactlyWhen | src/civ4_turn_relay/app/process_runtime.py:266-294 | the same for a graceful close, which moreover is sent again for the operation of the last close only when the user asks; an accepted one begins a close, a refused one changes nothing about closing |
| Coordinator.LaunchIsTriedExactlyWhen | src/civ4_turn_relay/app/process_runtime.py:204-259 | a launch is tried if and only if the session's own process is not known to run: known after a probe that finds it or a launch that succeeds, no longer after a probe that finds it gone or replaced, or a concluded close |
| Coordinator.CloseIsNotRepeated | src/civ4_turn_relay/app/process_runtime.py:266-294 | right after an accepted graceful close or a termination for an operation, a graceful close for it is not sent again by itself |
| Coordinator.SentTerminationIsWatched | src/civ4_turn_relay/app/process_runtime.py:309-377 | a termination that was sent and confirmed is concluded at once if its process is found gone, and otherwise watched: the next watch probes it and concludes exactly when it is gone |
| Coordinator.WatchEndsExactlyWhen | src/civ4_turn_relay/app/process_runtime.py:302-307 | a close in progress is given up if and only if the caller says so, another process was launched, or its identity turned out to be another process's |
| CloseCall.ProcessCoordinator.Probe | src/civ4_turn_relay/app/process_runtime.py:183-202 | session and supervisor log change as specified for a probe |
| CloseCall.ProcessCoordinator.AttemptLaunch | src/civ4_turn_relay/app/process_runtime.py:204-259 | no launch without a ready plan or beside the session's own process |
| CloseCall.ProcessCoordinator.RequestClose | src/civ4_turn_relay/app/process_runtime.py:266-294 | session and log change as specified for a graceful close |
| CloseCall.ProcessCoordinator.TerminateAfterCommit | src/civ4_turn_relay/app/process_runtime.py:309-377 | session and log change as specified for a termination |
| CloseCall.ProcessCoordinator.FocusProcess | src/civ4_turn_relay/app/process_runtime.py:379-397 | session and log change as specified for focusing |
| CloseCall.RelayMatch.TerminatePendingClose | src/civ4_turn_relay/app/relay_client.py:1140-1190 | session, log and records end exactly as the termination of the stored entitlement's process and turn leaves them for the supervisor's answers: marked when it was terminated, reconciled when the process is gone; the whole call is a stretch of a history |
| CloseCall.RelayMatch.ActOnCloseIntent | src/civ4_turn_relay/app/relay_client.py:1106-1138 | in managed mode, for an intent that matches the stored entitlement, exactly that termination is served; in every other case nothing at all |
| CloseCall.RelayMatch.TrackCloseProgress | src/civ4_turn_relay/app/relay_client.py:1192-1229 | exactly that termination for a requested entitlement in managed mode, then exactly the watch over a close in progress |
| CloseCall.RelayMatch.RequestCivClose | src/civ4_turn_relay/app/relay_client.py:740-799 | exactly a probe of the entitled process, then, if it is running, the user's termination in managed mode and a graceful close in standard mode, marked when accepted; nothing without an entitlement |
| CloseCall.RelayMatch.NoteRequested | src/civ4_turn_relay/app/relay_client.py:1355-1365 | the stored entitlement is marked and nothing else changes |
| CloseCall.RelayMatch.ReconcileExited | src/civ4_turn_relay/app/relay_client.py:1181-1189 | the triggered reconciliation keeps a stored entitlement or drops it, and is a stretch of a history |
| CloseCall.ReconcileShows | src/civ4_turn_relay/local/reconcile.py:314-754 | a reconciliation over the storage and the records leads to the system that its events lead to, sessions and logs untouched |
| Closing.HistoryIsARun | src/civ4_turn_relay/app/relay_client.py:1106-1229 | the histories of clients with their coordinators are runs of the shared world, so every theorem about runs holds of them |
| Closing.EveryCallWasLicensed | src/civ4_turn_relay/app/relay_client.py:1106-1229 | in every history each termination and each graceful close was, when it was sent, licensed by the client's mode and its stored entitlement |
| Closing.NoCloseBeforeCommit | src/civ4_turn_relay/local/reconcile.py:199-226 | in every history of any number of clients, under faults, crashes, cuts and mode changes, every termination in every client's log names, in pid, creation token and normalized path, an entitlement the client had stored, and the turn it names is in the chain, installed by this client under that operation, hash and source |
| Closing.StandardModeNeverTerminates | src/civ4_turn_relay/app/relay_client.py:740-799 | a client that was never in managed mode has no termination in its log |
| Closing.NoGracefulCloseBeforeCommit | src/civ4_turn_relay/app/relay_client.py:783-799 | every graceful close in every log is of the process of a committed turn |

## Left out

- Cleanup.RepairAbandonedUploadLock: leaves out the audit record it returns beside the outcome.
- Runs.RepairKeeps: does not cover repair inside the two windows named above, where `Windows` shows it loses updates, nor a directory in place of the lock document, whose repair is modelled by `Cleanup` alone.
- ReconcileCall.ReconcileMatch: models journal recovery, the evidence check, the records they change and the close intent after a successful and after a failed read; download, promotion, detection and launch intents of the same function are separate or absent.
- Resume.RerunEnds: does not claim that the lock is always released in the end; journal recovery clears the entry without releasing the remote lock, as the code does.
- Launch.FakeProcessSupervisor.GuardedLaunch: one guard per machine, as in the in-memory machine; it is tied to `Guard`, which keeps one guard per normalized executable, for the executable being launched.
- SFTP, Win32 and file-system adapters: assumed through the storage port, the machine and a directory snapshot.
- User interface, configuration, snapshots, diagnostics and redaction: presentation.
- Sessions, tick scheduling and the launch log of the client: exactly-once launch is not claimed by the code.
- JSON text, regular-expression checks, UTC arithmetic and path strings: an injective codec, equality of identifiers and a datatype of paths.
- Partially written remote files, and corrupted reads of any object, in `World`.
- Other games' trees: every game has its own root and they never meet.
- The lock's expiry time: nothing in the modelled code decides by it.
- Local file promotion and atomic local writes: one durable update is one step.

# GophKeeper: a verified model

GophKeeper is a client/server vault for encrypted secrets. This project models the parts of it whose correctness does not
show from reading one function, and proves what they guarantee over every input, every run and every interleaving:

* **Vault engine** (`Vault`, `VaultHistory`, `EngineService`, `Interleaving`, `PoolPath`, `Solo`): versioned items with tombstones, an append-only
  revision log and the `processed_operations` table, once with every engine call as one transaction (the sync path) and once
  statement by statement (the VaultService path).
* **Sync protocol** (`Push`, `PushBatch`, `PushOutcome`, `Resend`, `Revisions`, `Client`, `SyncProtocol`, `SyncLimit`, `SyncQueue`, `PoolSync`, `Pull`, `Decimal`): offline edits, the
  pending queue, batch push, snapshot read, event replay into the cache, lost and failed syncs, restarts, and paged pulls.
* **Client storage and application** (`LocalStorage`, `App`): the SQLite tables and the operations over them.
* **Blobs** (`Blobs`, `BlobSafety`, `BlobRuns`, `BlobTheorems`, `BlobStatus`, `BlobBytes`, `BlobCoupling`, `BlobProgress`, `BlobOutcomes`, `BlobLostAck`,
  `ItemPayloads`, `UploadStore`, `Cleanup`, `Transfer`): uploads, commits, aborts, payload placement, restarts of the server and the
  reaper of expired sessions interleaving over blob rows, session rows and the object store; the items that refer to blobs; the
  streams that carry the bytes.
* **Refresh tokens** (`Auth`) and **item listing** (`ListItems`).

Tables are maps and sequences. Code that changes state is a class whose methods follow the source's statements and are proved
against functions on table values (`EngineService.Engine`, `UploadStore.Uploads`, `LocalStorage.Storage`, `App.App`,
`Auth.AuthRepositories`); the theorems about runs are proved about those functions. Handlers that interleave are machines that run
one statement per step; a statement may succeed, fail, or report a failure and have taken effect. `Base` holds shared vocabulary,
`TextOrder` the order of text keys, `Arithmetic` facts about products and remainders.

## What holds and what does not

Some properties one might expect are false of the code. Each is settled by the exact condition under which it holds.

* **A sync converges** if and only if every item of the user passes a test: the events returned name it and it is live or its
  Deleted row is among them, or they do not name it and the cache was right about it already (`SyncLimit.ReplayConvergesIff` for
  any response and any cache, `SyncLimit.SyncConvergesIff` for any sync of the protocol). The test can fail because Sync returns at
  most 500 events but always reports the newest revision. At most 500 outstanding events at every snapshot read is sufficient over
  whole runs (`SyncProtocol.Convergence`), not necessary: an item updated 501 times still comes out right, a tombstone whose Deleted
  row is cut off does not. For n items created once each the condition is n <= 500 (`SyncLimit.FirstSyncConvergesIff`).
* **A sync against calls that are under way statement by statement** converges on its snapshot if and only if for every item of the
  user the last event naming it is a deletion exactly if it is a tombstone, or no event names it and the cache was right
  (`PoolSync.PoolSyncConvergesIff`). A delete that overtakes an update on its way to the log breaks it for good
  (`PoolSync.OvertakenDiverges`).
* **A failed save of a local edit** is harmless unless the client restarts before a save or a sync succeeds. `SyncProtocol.Convergence`
  excludes exactly that; `SyncLimit.LostSaveDiverges` shows what happens then.
* **Re-sending an executed batch** changes nothing and fails nowhere if and only if its payloads can be placed again and every
  operation that was refused with a conflict still loses at the tables the crash left (`Resend.ResendIsQuietIff`,
  `Resend.ResendIsAlikeIff`). `Resend.ConflictBreaksResend` gives the failing family.
* **A committed blob has its bytes** if and only if no compensation of the run erased its object while its row was uploading or
  committed (`BlobBytes.CommittedBlobSafety`, for every reachable state of every interleaving, whatever fails or goes unacknowledged).
  That happens when the insert of a placement or the completion of an upload takes effect and reports an error
  (`BlobLostAck.LostInsertEmpties`, `BlobLostAck.LostCompletionEmpties`), and only then: if those two have no effect when they fail,
  every committed blob has its bytes in every run (`BlobBytes.HonestSafety`). Rows, statuses and the reaper's guarantees hold in every
  run.
* **Sessions and blobs stay coupled** as long as the session deletes of aborts take effect; a step breaks the coupling if and only if
  it fails a blob whose session row is still there (`BlobCoupling.CouplingBreaksIff`).
* **A cleanup pass ends by itself** if and only if fewer overdue rows refuse to be deleted than a batch holds (`Cleanup.CleanupOnce`).
* **An uninterrupted VaultService call is atomic** if and only if it is not the retry of an operation that was logged and not marked
  (`Solo.SoloIsAtomicIff`); such a retry writes its row again and answers with an error.
* **Following the tokens of ListItems** skips one row per page boundary (`ListItems.WalkIsExact`), so it is complete if and only if one
  page holds everything.
* **The nonce of a payload** is lost if and only if the payload is too large to stay inline (`BlobProgress.NonceLostIff`).

## Assumptions

* One server process, a monotone clock, revision numbers handed out in commit order. A transaction reads the clock at its atomic
  step. An engine transaction that reports an error has been rolled back (its revision numbers stay drawn); in the blob machine a
  statement that reports an error may have taken effect.
* The other writers of `SyncProtocol` are whole engine transactions; calls of the VaultService path, which can be caught between their
  row write and their log append, are the subject of `Interleaving`, `PoolPath` and `PoolSync`.
* Server-made ids are fresh, non-blank and free of surrounding space; blob ids all have the 36 characters of a UUID. Operation ids
  made by the client are fresh. A client-made item id is not a server id.
* SHA-256 and the AEAD are parameters: any hash function; any cipher that opens what it sealed and adds the 16-byte tag of section
  2.8 of RFC 8439.
* Integers are unbounded except where a width decides a branch: page tokens are 64-bit (`Decimal`, `ListItems`).
* The per-session upload lock is keyed by the pair (user, session).
* In `ListItems` key comparison is exact; the source converts nanoseconds through a floating-point timestamp.

## Model

| member | source | states |
|---|---|---|
| Vault.RunKeepsInv | internal/server/vault/engine.go:44-248 | over every sequence of engine transactions and roll-backs: replaying the log with an independent reader gives exactly every item's version and liveness, every log row joins to a row of its user, revisions increase, and `processed_operations` is exactly the index of the log |
| Vault.NextKeepsInv | internal/server/storage/postgres/vault_engine_tx.go:12-44 | one transaction, or one that is rolled back, keeps that invariant |
| VaultHistory.LogRefinesItems | internal/server/vault/engine.go:44-248 | in every reachable state the log rows of an item carry versions 1, 2, ..., k with k its version, Created exactly first, Deleted only last and exactly on a tombstone; an item without a row has no log rows |
| VaultHistory.LogDecidesOutcome | internal/server/vault/engine.go:44-248 | from the log alone: a first create succeeds iff the id has no history, a first update or delete iff the history shows a live item of the caller at the expected version; success adds exactly one row with the next version, failure changes nothing |
| VaultHistory.RefusedIff | internal/server/vault/engine.go:44-248 | why a first execution is refused, as an equivalence per error: blank arguments, an id already taken, no live item of the caller, another version |
| VaultHistory.RepeatElsewhereIsRefused | internal/server/vault/engine.go:120-139 | an operation repeated for another item than the recorded one is refused and changes nothing |
| VaultHistory.LastEntryDecides | internal/server/storage/postgres/revision_list.go:33-131 | the last log row of an item alone gives its version and whether it is a tombstone |
| VaultHistory.EveryEventJoins | internal/server/storage/postgres/revision_list.go:33-131 | the left join of log and items never yields a missing item, and the joined version is at least the logged one |
| VaultHistory.AtMostOnce | internal/server/storage/postgres/vault_repositories.go:259-283 | over every run a (user, operation) took effect at most once, and has a processed row iff it did, naming that effect's item and revision |
| VaultHistory.RetryReturnsOriginal | internal/server/vault/engine.go:48-67 | an answered call repeated after any history changes no table and returns the original item and revision and a version no smaller |
| VaultHistory.RunGrows | internal/server/storage/postgres/vault_repositories.go:234-283 | log and processed rows are only appended, rows keep their owner, versions never fall, and an item without new log rows is unchanged |
| VaultHistory.RowsHoldTheLastWrite | internal/server/vault/engine.go:71-240 | a row holds the content of the last create or update that took effect on it, the clock of the last call that did, a tombstone iff that was a delete, and owner, type and creation time of its creator |
| EngineService.Engine.UpdateItem | internal/server/storage/postgres/vault_repositories.go:173-205 | the compare-and-set UPDATE succeeds iff the live row of this user has the expected version, and writes exactly its columns |
| EngineService.Engine.DeleteItem | internal/server/storage/postgres/vault_repositories.go:207-224 | the tombstone under the same guard, with the new version returned |
| EngineService.Engine.AppendRevision | internal/server/storage/postgres/vault_repositories.go:234-250 | appends with the next revision number, refused iff (user, operation) is logged already; the number is drawn either way |
| EngineService.Engine.MarkProcessed | internal/server/storage/postgres/vault_repositories.go:259-266 | inserts unless the key is present |
| EngineService.Engine.Body | internal/server/vault/engine.go:44-248 | the statement sequence of Create, Update and Delete computes the atomic engine call |
| EngineService.Engine.WithTx | internal/server/storage/postgres/vault_engine_tx.go:12-44 | a failed call leaves every table as it was, except drawn revision numbers |
| Interleaving.RunKeepsInv | internal/server/vault/engine.go:44-248 | every interleaving of statements of any number of calls, failing statements and whole transactions keeps the statement-level invariant |
| Interleaving.NoLostUpdate | internal/server/vault/engine.go:115-248 | of two mutations of one item with the same expected version at most one takes effect, in every interleaving |
| Interleaving.VersionCountsWriters | internal/server/storage/postgres/vault_repositories.go:173-224 | an item's version is the number of calls that took effect on it, the j-th of which produced version j |
| Interleaving.RowIsItsMakers | internal/server/storage/postgres/vault_repositories.go:173-224 | the row always holds the content of the call that produced its current version, and is a tombstone iff that call was a delete |
| Interleaving.LogStaysUnique | internal/server/storage/postgres/vault_repositories.go:234-250 | at most one log row per (item, version) and per (user, operation), none ahead of its item |
| Interleaving.AnswersReportTheWrite | internal/server/vault/engine.go:115-248 | a call that took effect and answered Ok reports the item and version it produced, which its request named |
| PoolPath.AnswersAreWritesOrReplays | internal/server/vault/engine.go:48-67 | in every interleaving an Ok answer reports the call's own write or replays the processed row of its user and operation, with that row's item and revision |
| PoolPath.NeverBothAnswered | internal/server/vault/engine.go:115-248 | of two Ok answers to mutations of one item with the same expected version one is such a replay |
| PoolPath.RunSeen | internal/server/storage/postgres/revision_list.go:33-131 | in every interleaving every log row joins to an item of its user |
| Solo.SoloIsAtomicIff | internal/server/vault/engine.go:44-248 | the statements of a call that nothing interrupts leave the tables and give the answer of the atomic call iff the call is not the retry of an operation that is logged, not marked processed and able to write; such a retry writes its row again, answers with an error and logs nothing |
| Revisions.AfterSound | internal/server/storage/postgres/revision_list.go:33-131 | every row read is a log row of the user past the revision |
| Revisions.AfterComplete | internal/server/storage/postgres/revision_list.go:33-131 | every log row of the user past the revision is read |
| Revisions.AfterIncreases | internal/server/storage/postgres/revision_list.go:33-131 | rows come in increasing revision order |
| Revisions.MaxRevBounds | internal/server/storage/postgres/revision_list.go:22-29 | the reported maximum bounds every revision of the user |
| Revisions.MaxRevIsOwn | internal/server/storage/postgres/revision_list.go:22-29 | it is 0 or one of that user's own revisions |
| PushOutcome.AcceptedWrites | internal/server/grpcserver/sync_handler.go:210-352 | the first acceptance of an operation: the row it writes column by column (title and metadata of the snapshot, payload, blob and checksum as placed, type and owner, version, times, tombstone), the log and processed rows, and the item, version and revision the answer names; nothing else changes |
| PushOutcome.FreshOutcomeIff | internal/server/grpcserver/sync_handler.go:186-385 | for every operation and state, exactly when a first attempt is accepted, conflicts, or fails and with which error, from the operation, the placement and the rows |
| PushOutcome.RepeatAnswers | internal/server/grpcserver/sync_handler.go:186-352 | a repeated operation changes nothing and answers with the recorded item and revision and the present version |
| PushOutcome.EditReachesServer | internal/client/app/vault.go:97-153 | an edit made on a client with nothing else queued and pushed with no other writer is accepted, and the server row holds its title, metadata and placed payload one version up, with the type it had |
| PushOutcome.AddReachesServer | internal/client/app/vault.go:25-78 | an added item likewise, under the server's id, with its type |
| PushOutcome.RemoveReachesServer | internal/client/app/vault.go:159-186 | a removed item becomes a tombstone one version up |
| PushOutcome.ServerRowOpens | internal/client/app/vault.go:357-378 | the server row of an edit opens under the user's key to the title, metadata and payload typed in, when the payload stays inline |
| PushBatch.Apply | internal/server/grpcserver/sync_handler.go:186-208 | one pending operation over the shared tables: accepted, conflicted, or failed with nothing but revision numbers changed |
| PushBatch.RunPushOperations | internal/server/grpcserver/sync_handler.go:159-184 | the loop runs operations in order up to the first failure; on success accepted and conflicts partition the batch in order, on failure neither is reported |
| PushBatch.AnswersPartition | internal/server/grpcserver/sync_handler.go:159-184 | on success every operation has exactly one answer and the two lists are an order-preserving split of the batch |
| Resend.ResendIsQuietIff | internal/server/grpcserver/sync_handler.go:159-184 | a batch of distinct operations that ran without failure and is sent again leaves the tables as they are and fails nowhere iff every payload can be placed again and every refused operation still loses: an update because the item is live, of this user and at another version, a delete because there is no live item of this user at the expected version |
| Resend.ResendIsAlikeIff | internal/server/grpcserver/sync_handler.go:159-184 | under the same condition and no other the re-sent batch ends with the tables, up to revision numbers, and the success of the run that was answered |
| Resend.CrashWithConflicts | internal/server/grpcserver/sync_handler.go:159-184 | a batch that dies after k operations, some of them refused, and is re-sent whole ends like one uninterrupted run when that condition holds of the k |
| Resend.CrashAndResend | internal/server/grpcserver/sync_handler.go:159-184 | a batch that dies after k accepted operations and is re-sent whole reaches, when the payloads of those k can be placed again, the tables of one uninterrupted run up to revision numbers, and fails iff that run fails, with the same error |
| Resend.ConflictBreaksResend | internal/server/grpcserver/sync_handler.go:264-321 | a refused update followed by an update to the version it expects, or by a delete: the batch sent again does not end like the first run, whatever is placed |
| SyncProtocol.RunKeepsInv | internal/client/app/sync.go:18-100 | every allowed run keeps: each server item of the user is right in the cache, or has an unread log row, or has a queued edit that pushing resolves, for the state in memory and, unless an edit is unsaved, for the one on disk |
| SyncProtocol.Convergence | internal/client/app/sync.go:18-100 | after every successful sync of every run of local edits with saves that may fail, lost or failed syncs, partly applied events, restarts that reload what was stored, and other engine transactions, with at most 500 outstanding events at each snapshot and no restart on an unsaved edit, every live item has a live cache row with the server's version, type and fields, and no tombstone has one |
| SyncProtocol.ActKeepsInv | internal/server/grpcserver/sync_handler.go:31-74 | each single step of that protocol keeps its invariant |
| SyncQueue.SavedEditIsNeverLost | internal/client/app/sync.go:18-56 | from the moment its save succeeded an operation is, in every later state of every run, still in the stored queue or recorded by the server |
| SyncQueue.FinishDropsOnlyRecorded | internal/client/app/sync.go:47-55 | a sync drops an operation from the queue only if there was no conflict and the server has recorded it |
| SyncQueue.FinishClearsIff | internal/client/app/sync.go:47-55 | a completed sync empties the queue if there was no conflict and keeps all of it otherwise, and takes over the reported revision |
| SyncLimit.ReplayConvergesIff | internal/client/app/sync.go:40-100 | for any tables, cache, revision and limit: applying the first events leaves the cache right about every item of the user iff each item is named and live, or named with its Deleted row returned, or not named and right before |
| SyncLimit.SyncConvergesIff | internal/server/grpcserver/sync_handler.go:45-73 | the same for any sync carried through from any state of the client, with other writers at work |
| SyncLimit.FirstSyncConvergesIff | internal/server/grpcserver/sync_handler.go:45-73 | instance: the first sync of a user with n items created once each converges iff n <= 500 |
| SyncLimit.LostSaveDiverges | internal/client/app/vault.go:128-152 | an edit whose save failed, followed by a restart, leaves a cache row the next sync does not correct |
| PoolSync.PoolSyncConvergesIff | internal/server/app/run.go:89-96 | a response read at any moment of any interleaving of statements leaves any cache right about its snapshot iff for every item the last event naming it is a deletion exactly if it is a tombstone, or no event names it and the cache was right |
| PoolSync.OvertakenDiverges | internal/server/vault/engine.go:153-240 | a delete logged before the update whose row it deleted leaves the tombstone as a live cache row |
| PoolSync.OvertakingIsReached | internal/server/vault/engine.go:153-240 | from any state with a live item such a delete and update get there |
| Pull.PageShape | internal/server/grpcserver/sync_handler.go:85-123 | a page is everything left when it fits, and otherwise exactly the limit with the revision of its last row as token |
| Pull.PageSize | internal/server/grpcserver/sync_handler.go:403-411 | page sizes are 1 to 500; a size in that range is taken as asked, 0 means 100 and more than 500 means 500 |
| Pull.TokenLeadsBack | internal/server/grpcserver/sync_handler.go:387-401 | a token made from a revision past `since` resumes exactly after that revision |
| Pull.ResumesIff | internal/server/grpcserver/sync_handler.go:387-401 | a request is refused iff its token is no 64-bit number, and otherwise resumes at the larger of `since` and the token |
| Pull.ReportsNewest | internal/server/grpcserver/sync_handler.go:85-123 | the revision reported beside a page is the user's newest |
| Pull.PullIsComplete | internal/server/grpcserver/sync_handler.go:85-123 | following the tokens from any revision with any page sizes over a growing log yields exactly the events after it in the last page's snapshot, once each, increasing, all pages but the last full |
| Pull.PullFinishes | internal/server/grpcserver/sync_handler.go:85-123 | every full page makes progress, so one request more than there are events left ends the walk |
| Decimal.ParseFormat | internal/server/grpcserver/sync_handler.go:387-401 | parsing undoes formatting on every 64-bit revision |
| Decimal.FormatParse | internal/server/grpcserver/sync_handler.go:387-401 | formatting undoes parsing iff the text has no spare leading zero |
| Decimal.ParseRefuses | internal/server/grpcserver/sync_handler.go:387-401 | nothing but digits is read, and nothing past 64 bits |
| LocalStorage.Storage.SaveSync | internal/client/storage/sqlite_storage.go:158-246 | stores revision and queue in order, or nothing at all iff the database fails or two operation ids are equal |
| LocalStorage.Storage.LoadSync | internal/client/storage/sqlite_storage.go:252-331 | rebuilds the state from the rows, with revision 0 when none was saved |
| LocalStorage.SaveLoadIff | internal/client/storage/sqlite_storage.go:158-331 | loading what was saved gives back the same state iff every snapshot has a non-zero type and no present field is empty |
| App.EditsAreStorable | internal/client/app/vault.go:64-183 | what AddItem, UpdateItem and DeleteItem queue for concrete types meets that condition |
| App.App.AddItem | internal/client/app/vault.go:25-78 | refused without a key; otherwise one new row at version 1 whose three fields open under the key to what was given, and one queued create carrying the same fields; a durable queue stays durable, and when the save succeeds disk equals memory |
| App.App.UpdateItem | internal/client/app/vault.go:97-153 | refused without a key or row; otherwise the row one version up whose three fields open under the key to what was given, and one queued update against the old version carrying the same fields; durable and saved likewise |
| App.App.DeleteItem | internal/client/app/vault.go:159-186 | refused without a key or row; otherwise the row gone and one queued delete against its version, durable and saved likewise |
| App.EditsOpen | internal/client/app/vault.go:410-423 | what is cached and queued for an edit opens under the user's key to the title, metadata and payload, in that order |
| App.App.DecryptItem | internal/client/app/vault.go:357-378 | the three plaintexts, iff there is a key and it opens all three fields |
| App.App.AddThenRead | internal/client/app/vault.go:25-378 | what was added is what decrypting the cached row shows |
| App.App.ApplyEvent | internal/client/app/sync.go:62-100 | writes one cache row and nothing else: the item's version, type and sealed fields without a blob, or for a deletion its version with no type and no fields |
| App.App.Sync | internal/client/app/sync.go:18-56 | a failed call changes nothing; a response is applied event by event, the revision moves, the queue is emptied iff there was no conflict, and disk equals memory when the save succeeds |
| BlobBytes.CommittedBlobSafety | internal/server/grpcserver/blob_handler.go:126-361 | in every reachable state of every interleaving of uploads, commits, aborts with any step failing or unacknowledged, placements, restarts and reaper passes, a committed blob has an object of exactly its size and checksum iff no compensation of the run erased its object while its row was uploading or committed |
| BlobBytes.HonestSafety | internal/server/grpcserver/blob_handler.go:126-361 | when a failed placement insert or upload completion has no effect, every committed blob has such an object in every reachable state, whatever else fails |
| BlobBytes.HonestErasesNothing | internal/server/grpcserver/blob_handler.go:256-268 | in such runs no compensation erases the object of an uploading or committed row |
| BlobBytes.LostForever | internal/server/storage/postgres/upload_store.go:111-233 | a row whose object was erased in that way never gets bytes again: it stays without them, fails, or is removed for good |
| BlobLostAck.LostInsertEmpties | internal/server/grpcserver/vault_payload.go:165-173 | a placement whose insert commits unacknowledged and whose compensation succeeds leaves a committed row without bytes |
| BlobLostAck.LostCompletionEmpties | internal/server/grpcserver/blob_handler.go:256-268 | an upload whose completion commits unacknowledged can be committed by a concurrent request after its bytes were erased |
| BlobBytes.CommittedStays | internal/server/storage/postgres/upload_store.go:175-233 | once committed, the row is the same in every later state of every run, and bytes that are there stay the same iff no compensation erases them in between |
| BlobTheorems.CleanupNeverTouchesCommitted | internal/server/jobs/upload_session_cleanup.go:68-94 | a blob a pass has listed is never committed afterwards, and the key it erases is no committed blob's |
| BlobBytes.ItemBlobIntegrity | internal/server/grpcserver/vault_payload.go:31-177 | what an item was stored with is found in all later states: a non-empty inline payload with nonce within the inline limit, or a committed blob of its user with its checksum and acceptable size, whose bytes are there iff no compensation of the run erased them |
| BlobBytes.HonestIntegrity | internal/server/grpcserver/vault_payload.go:31-177 | the same with the bytes always there when failed inserts and completions have no effect |
| ItemPayloads.RowsFindTheirPayload | internal/server/vault/engine.go:71-166 | in every state of every run of engine transactions and blob statements in which the engine writes what was placed, every vault_items row finds its payload in that sense, bytes included under the same exact condition |
| BlobProgress.NonceLostIff | internal/server/grpcserver/vault_payload.go:139-176 | two nonces of a payload lead to the same rows, objects and items whatever happens afterwards iff the payload is too large to stay inline |
| BlobStatus.StatusMoves | internal/server/storage/postgres/blob_repositories.go:44-49 | one step, whatever fails, moves a status only Pending to Uploading, Uploading to Committed, or either to Failed, changes nothing else of the row, and never brings a removed upload row back |
| BlobStatus.StatusesOverRuns | internal/server/storage/postgres/upload_store.go:36-233 | across any stretch of any run Committed and Failed are never left and Uploading never goes back |
| BlobCoupling.SessionBlobCoupling | internal/server/storage/postgres/upload_store.go:36-233 | in every run in which the session deletes of aborts take effect, a session is open iff its blob is pending and awaiting commit iff it is uploading, then with received size equal to expected size |
| BlobCoupling.CouplingBreaksIff | internal/server/grpcserver/blob_handler.go:277-286 | from a coupled state a step breaks the coupling iff it fails an in-flight blob of its user whose session row is still there |
| BlobCoupling.CouplingNeedsDeletes | internal/server/grpcserver/blob_handler.go:277-286 | an abort whose session delete fails leaves an open session with a failed blob |
| BlobProgress.UploadCommits | internal/server/grpcserver/blob_handler.go:33-361 | from any state in which its ids, tasks and lock are unused, an undisturbed start, upload in numbered chunks and commit ends with the blob committed with exactly the bytes sent, the session gone and everything else untouched |
| BlobProgress.InlinePlacement | internal/server/grpcserver/vault_payload.go:119-141 | a payload within the inline limit is kept by the item as it came and nothing else is stored |
| BlobProgress.BlobPlacement | internal/server/grpcserver/vault_payload.go:143-176 | a larger payload becomes a committed blob with exactly its bytes, and the item refers to it by id and checksum |
| BlobProgress.ReferencePlacement | internal/server/grpcserver/vault_payload.go:73-116 | a reference to any committed blob of the user within the size limit, with or without surrounding space and beside an absent or empty payload, is accepted, since its bytes are in place |
| BlobRuns.RunKeepsInv | internal/server/grpcserver/upload_session_lock.go:5-21 | every run, restarts of the process included, keeps the invariant that ties the lock holder, open sessions, pending blobs and doomed blobs together, and the stored bytes of every blob no compensation erases |
| BlobRuns.UploadStepOk | internal/server/grpcserver/blob_handler.go:126-286 | each statement of an upload or abort keeps the stores and what every other task relies on |
| BlobRuns.CommitStepOk | internal/server/grpcserver/blob_handler.go:288-361 | each statement of a commit does |
| BlobRuns.PlaceStepOk | internal/server/grpcserver/vault_payload.go:52-177 | each statement of a payload placement does |
| BlobRuns.CleanStepOk | internal/server/jobs/upload_session_cleanup.go:58-100 | each statement of a reaper pass does |
| BlobRuns.ListedIsDoomed | internal/server/storage/postgres/upload_session_cleanup.go:17-24 | a listed blob is past the deadline its session was created with and not committed |
| BlobOutcomes.AbortEnds | internal/server/grpcserver/blob_handler.go:277-286 | an abort whose statements succeed deletes the session of this user, fails its pending or uploading blob, erases the object if asked to, releases the lock and changes nothing else |
| BlobOutcomes.UploadDecides | internal/server/grpcserver/blob_handler.go:126-254 | an upload waits while its session is locked, goes on only with an open session of its user and a pending blob, aborts keeping the object if it is late before its stream and erasing it if it is late after it or the store fails |
| BlobOutcomes.StreamDecides | internal/server/grpcserver/blob_handler.go:181-231 | what a stream leads to: on with exactly its bytes if it is in order, within the chunk limit and of the announced size and checksum; the end if a message is no chunk; the abort that erases otherwise |
| BlobOutcomes.BadStreamEndsUpload | internal/server/grpcserver/blob_handler.go:181-231 | a stream refused for order, chunk size, total size or checksum leaves no session, no pending or uploading blob and no object |
| BlobOutcomes.LateOrUnstoredEndsUpload | internal/server/grpcserver/blob_handler.go:155-254 | an upload late before its stream aborts without erasing, one late after it or not stored aborts with erasing |
| BlobOutcomes.CompletionDecides | internal/server/grpcserver/blob_handler.go:256-268 | the completion makes session and blob ready to commit, ends there if the session is not open for this size, and is compensated otherwise |
| BlobOutcomes.StartIff | internal/server/grpcserver/blob_handler.go:33-124 | an upload is started iff its size is within the limit, its checksum is not empty and uploads are configured, with exactly these two rows |
| BlobOutcomes.CommitIff | internal/server/grpcserver/blob_handler.go:288-361 | an undisturbed commit request commits the blob and removes the session iff the session is this user's, unexpired and awaiting commit, the blob is uploading and the object has its size; otherwise it changes nothing |
| BlobOutcomes.SizeLimitIs | internal/server/grpcserver/vault_payload.go:31-40 | a size is acceptable iff it is within the blob limit and, with the reserve, within the message limit |
| BlobOutcomes.PayloadDecides | internal/server/grpcserver/vault_payload.go:119-176 | a payload is refused iff ciphertext or nonce is missing or it is over either limit, kept inline up to the inline limit, and made a blob otherwise |
| BlobOutcomes.ReferenceDecides | internal/server/grpcserver/vault_payload.go:73-116 | a reference is refused beside a payload, and otherwise iff its row is no committed blob of the user, its object is missing or of another size, or it is over either limit |
| BlobOutcomes.ReapsAll | internal/server/jobs/upload_session_cleanup.go:78-97 | a listed batch is worked off: exactly the rows, sessions and objects of the listed blobs are gone, and the pass lists again iff the batch was full |
| UploadStore.Uploads.StartSession | internal/server/storage/postgres/upload_store.go:36-69 | both rows or none |
| UploadStore.Uploads.DeleteSession | internal/server/storage/postgres/upload_store.go:95-109 | removes the session of this user, or reports it missing |
| UploadStore.Uploads.FailBlob | internal/server/storage/postgres/blob_repositories.go:138-157 | fails a pending or uploading blob of this user and no other, reporting whether it did |
| UploadStore.Uploads.CompleteClientUpload | internal/server/storage/postgres/upload_store.go:111-173 | both updates or none, with the exact condition of each error |
| UploadStore.Uploads.CommitUploadedBlob | internal/server/storage/postgres/upload_store.go:175-233 | session removed and blob committed, or nothing, iff unexpired, awaiting commit and uploading |
| UploadStore.Uploads.DeleteBlobByID | internal/server/storage/postgres/upload_session_cleanup.go:53-69 | removes the row and, by cascade, its sessions, or nothing when the database fails |
| UploadStore.Uploads.ListExpired | internal/server/storage/postgres/upload_session_cleanup.go:17-51 | the first overdue blobs in the order of their ids, at most the limit, all of them when fewer come back |
| Cleanup.CleanupOnce | internal/server/jobs/upload_session_cleanup.go:58-100 | for every batch size, set of rows whose delete fails and number of rounds the context allows: a row that is gone was pending or uploading with a session expired before the pass, and they are counted; the pass ends by itself iff fewer such rows are stuck than a batch holds, and then no pending or uploading blob with such a session is left but stuck ones; at most their objects go missing |
| Transfer.ReceiveStream | internal/server/grpcserver/blob_handler.go:181-232 | the receive loop computes the outcome of a stream, and accepts only the announced size |
| Transfer.NumberedIsReceived | internal/server/grpcserver/blob_handler.go:181-232 | numbered chunks within the chunk limit that add up to the announced size pass every check and give their concatenation |
| Transfer.ReceivedIsConcat | internal/server/grpcserver/blob_handler.go:181-232 | what is accepted is exactly the concatenation of in-order chunks within the limit |
| Transfer.ReceiveOutcome | internal/server/grpcserver/blob_handler.go:181-227 | a stream is lost iff its first bad message is no chunk, and rejected iff that is a chunk out of order, too long or past the announced size, or the stream is short |
| Transfer.SendChunks | internal/client/app/vault.go:248-265 | the send loop numbers its chunks 0, 1, ..., all but the last of the full size, and they concatenate to the data |
| Transfer.ServeBlob | internal/server/grpcserver/blob_handler.go:414-443 | whatever sizes the reads return, the chunks sent are numbered and concatenate to the bytes read, and the call succeeds iff the reader ended cleanly and that is the whole blob |
| Transfer.Reassemble | internal/client/app/vault.go:319-335 | the client's receive loop gives the concatenation of the chunks |
| Transfer.SealedOpens | internal/client/app/vault.go:202-209 | the stored bytes are the nonce and a ciphertext that opens under that key and nonce to the file, and DownloadFile gives the file back |
| Transfer.FileRoundTrip | internal/client/app/vault.go:208-350 | a file sent in chunks of any size, stored, served in reads of any sizes and decrypted is the original |
| Auth.ChainsAndDevices | internal/server/storage/postgres/auth_repositories.go:69-299 | in every reachable state a token belongs to a device row of its user, a revoked device has no live token, and a rotation chain has at most one live token |
| Auth.LoginIff | internal/server/storage/postgres/auth_repositories.go:137-151 | a login succeeds iff the user exists, the device is theirs or new and the session is fresh; it stores the session as a live token of that user and device, activates the device and changes nothing else |
| Auth.RegisterIff | internal/server/storage/postgres/auth_repositories.go:118-135 | a registration likewise, iff user id and login are free |
| Auth.RotateIff | internal/server/storage/postgres/auth_repositories.go:153-204 | a rotation succeeds iff the token is live, unexpired and on its own unrevoked device, and the session is fresh |
| Auth.FreshTokenRotates | internal/server/storage/postgres/auth_repositories.go:137-204 | the token a login hands out can be rotated until it expires |
| Auth.LogoutIff | internal/server/storage/postgres/auth_repositories.go:102-116 | a logout revokes that token and no other, iff it was live |
| Auth.RevokeIff | internal/server/storage/postgres/auth_repositories.go:263-299 | a revocation succeeds iff the device is that user's, and touches no other device |
| Auth.SpentStaysSpent | internal/server/storage/postgres/auth_repositories.go:153-204 | a revoked token stays revoked in every later state and no attempt to rotate it changes anything |
| Auth.RotationSpends | internal/server/storage/postgres/auth_repositories.go:153-204 | a rotation revokes the unexpired old token, and the new one is the only live token of its chain, for the same user and device |
| Auth.RotatesAtMostOnce | internal/server/storage/postgres/auth_repositories.go:153-204 | after one successful rotation of a hash no later one succeeds, whatever happens between |
| Auth.LoginRevivesNothing | internal/server/storage/postgres/auth_repositories.go:69-92 | a login on a revoked device reactivates it with the new token as its only live one |
| Auth.RevocationIsComplete | internal/server/storage/postgres/auth_repositories.go:263-299 | revoking a device revokes exactly its tokens |
| Auth.AuthRepositories.UpsertDevice | internal/server/storage/postgres/auth_repositories.go:69-92 | inserts or reactivates the device, refused iff another user owns it or, for a new one, the user does not exist |
| Auth.AuthRepositories.RegisterWithSession | internal/server/storage/postgres/auth_repositories.go:118-135 | user, device and token, or none of them |
| Auth.AuthRepositories.LoginWithDeviceAndSession | internal/server/storage/postgres/auth_repositories.go:137-151 | device and token, or neither |
| Auth.AuthRepositories.RevokeByHash | internal/server/storage/postgres/auth_repositories.go:102-116 | revokes the live token of that hash, or changes nothing |
| Auth.AuthRepositories.RotateRefresh | internal/server/storage/postgres/auth_repositories.go:153-204 | old token revoked and new one inserted, or neither; returns the owner of the new token |
| Auth.AuthRepositories.RevokeDeviceForUser | internal/server/storage/postgres/auth_repositories.go:263-299 | revokes device and tokens, idempotent, refused iff the user has no such device |
| ListItems.List | internal/server/storage/postgres/vault_repositories.go:83-171 | the page a token asks for, with the first row left out as the next token; an unreadable token is refused |
| ListItems.Limit | internal/server/storage/postgres/vault_repositories.go:84-89 | page sizes are 1 to 500; a size in that range is taken as asked, 0 or less means 50 and more than 500 means 500 |
| ListItems.ParseSigned | internal/server/storage/postgres/vault_repositories.go:110-125 | a 64-bit number is read back with or without its sign, and one outside 64 bits is refused |
| ListItems.SignedDigits | internal/server/storage/postgres/vault_repositories.go:110-125 | the time of a readable token is digits after an optional sign |
| ListItems.TokenRoundTrip | internal/server/storage/postgres/vault_repositories.go:110-125 | a token names its row whatever characters the id holds |
| ListItems.WalkIsExact | internal/server/storage/postgres/vault_repositories.go:83-171 | the walk ends; its pages are within the limit and strictly decreasing together; row p is returned iff p % (limit + 1) != limit; the walk is complete iff one page holds everything |
| ListItems.TokensNameTheSkipped | internal/server/storage/postgres/vault_repositories.go:165-168 | the rows not returned are exactly those the tokens name, one per token, in order |

## Left out

- gRPC wiring, interceptors, TLS, JWT parsing, CLI, prompts, configuration, logging, migrations, process start and stop.
- Argon2id, XChaCha20-Poly1305, bcrypt, SHA-256 and random generation: parameters with the laws stated above.
- PostgreSQL, SQLite and MinIO internals: only tables, guards and transaction boundaries.
- Blob handlers as classes: `Blobs` models UploadBlob, CommitBlobUpload, resolveVaultPayload and the reaper as statement programs on table values, because their interleaving is the point; the transactions they call are imperative in `UploadStore`.
- Orphan objects: the expired-session abort does not erase the object and a replayed large create uploads again, so freedom from orphans is not claimed.
- Crash atomicity of the VaultService path, and two concurrent first executions of one operation id on it: each statement commits by itself there, so log completeness and exactly-once are claimed for the transactional path only.
- Cache rows under client-made ids, and BlobID in the cache: the server assigns its own ids and applyEvent does not copy BlobID, so convergence speaks of server items and of version, type, title, metadata and payload.
- `Blob` columns for file name, kind and timestamps, and MarkCommitted and MarkDeleted, which have no callers.
- The type of an edited item: the server does not take a type with an update, so `PushOutcome.EditReachesServer` states that the row keeps the one it had.
- Item timestamps other than creation, update and deletion; device names, platforms and last-seen times.
- Resend.CrashAndResend: assumes that the payloads of the executed operations can be placed again; `Resend.ResendIsQuietIff` has this in its condition.
- The collation of text keys: ids are compared character by character.
- Failing cache writes and encryption errors in `App`; `SyncProtocol` covers an interrupted application of events.

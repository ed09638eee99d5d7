# A model of iamigrate's import and job machinery

iamigrate moves users between identity providers. This project models the parts
of it where a mistake loses or duplicates users, and proves what they promise:
the resumable chunked import into Auth0, the persisted job driver and its store,
the batched pipelines that must agree with one-user-at-a-time processing, and
the password-hash formats. `dafny verify dfyconfig.toml` checks everything.

**The chunked import.** `Chunking` cuts the users of an import into bulk jobs
and shows that the result is the one greedy division of the input within the
size limits. `ChunkOutcome` computes what a finished job says of each user and
merges the reports. `ImportProtocol` is the whole of a run as a transition
system: a submitter, workers in two slots, the target's jobs, the checkpoints in
memory and on disk, saves that fail, and a restart that may strike at any point
and come back with other input. `ImportSafety` keeps the slots, the first error
and the failure signal over every interleaving, and shows that every run ends;
`ImportJobs` accounts for every job ever created. `ImportHistory`
follows the jobs over time, and shows that an interrupted import reports what an
uninterrupted one does. `ImportRunner` is the code of the stream, of submit, of a
worker and of wait, whose every effect is a step of the protocol while the
others run, whose own steps are on record, and whose waits end. `AuthImport` puts the parts together: every user read is
reported once.

**The job driver.** `JobState` holds the states and their order, `JobWorld` what
is durable (the stored job, the users file and its temporary ones, the calls to
the target's import) and the durable steps that may change it. `JobRunner` is
the driver itself, as classes over a disk that records every durable change:
each method shows that it only takes allowed steps, so a crash, which cuts a
call between two of them, is covered by lemmas about chains of steps. `JobLock`
interleaves any number of processes over one stored job.

**Batched pipelines.** `PreparedReader` (with `Metadata` and `Preparation`)
reads users that are prepared in batches, and `TargetPaths` and
`TargetDocuments` say what their fields come to in a document. `Batcher` sends a
strategy's items to a handler, and `Delegation` is a strategy whose handler
answers each item by itself; `UserPreparation` and `DelegatedPreparation` show
when the batches of an import do not matter, `Reconcile` and
`DelegatedReconcile` those of a verification. `Transforms` and `FlatFile` rewrite
columns, `FirebaseImport` groups users by hash configuration.

**Password hashes.** `BinaryText` has hex and base64 (RFC 4648, sections 4, 5
and 8), `Decimals` numbers and separated text, `PasswordHash` the structured
hash formats, `Keycloak` the translation to Keycloak's credentials and back.

A handler's answer, the target's answer, a save that may fail and a context that
may be cancelled are either parameters or nondeterministic choices.

## What the proofs found

- `Retry` promises that an empty state retries the one the job failed in. For a
  job that failed while queued (a vetoed `job.before_run` or `state.enter`) no
  state is accepted, named or not: `JobWorld.FailedInQueuedIsStuck`, and a new
  job gets there in one step, `JobWorld.NewJobsCanGetStuck`.
- `SaveChunk` leaves the checkpoint in memory when the save fails, so a later
  save may still store it. A job's ID is lost only if no save succeeds before
  the process ends; `ImportJobs` counts lost jobs that way.
- An argon2 hash comes back from Keycloak unchanged only under the exact
  condition of `Keycloak.CanonicalArgon2`: a time with leading zeros, a salt in
  the URL-safe alphabet or one with bits left over is rewritten.
- A PBKDF2 password with negative iterations, or with an empty salt or key, is
  translated to a Keycloak credential that cannot be read back:
  `Keycloak.PBKDF2RoundTrip`.
- A user_id that itself begins with `auth0|` (of a target ID that begins with it
  twice, `ChunkOutcome.OnlyTwicePrefixedIDs`) breaks two promises. Echoed without
  the prefix it may fail another user while its own is reported succeeded
  (`ChunkOutcome.AnotherUserIsFailed`; the exact condition is
  `ChunkOutcome.EchoesFailExactly`), and its recorded target ID is not the one
  Auth0 gives (`ChunkOutcome.TargetIDsAreAuth0s`) and may be another user's
  (`ChunkOutcome.TargetIDsAreDistinct`).
- A PBKDF2 string keeps its digest and iterations through Keycloak, but its salt
  and key only as the encoder writes them: `Keycloak.PBKDF2StringRoundTrip`.
- `reconcile.Run` returns `report, flush()` in one statement, and Go does not
  say whether `report` is read before the call. The model reads it after.
- A batch with the same key twice uses up its number without a call, so the
  numbers a handler sees can skip one, exactly if a batch is sent after such a
  one (`Batcher.NumbersHaveNoGap`). A caller that stops at the failure, as all of
  this program do, sees no gap (`Batcher.StoppingLeavesNoGap`); one that goes on
  does (`Batcher.GoOnAfterFailure`).
- Batches matter to a delegated strategy if two users share a source ID: a
  handler sent both in one batch fails the import
  (`DelegatedPreparation.UserReadTwiceFails`) or the verification, where one user
  at a time would not. The exact conditions are
  `DelegatedPreparation.BatchesDoNotMatterExactly` and
  `DelegatedReconcile.FailsExactlyIfRefused`. A user without metadata may even be
  given the placements of another with its source ID, which fails the batch.

## Model

| member | source | states |
|---|---|---|
| Chunking.StreamChunks | pkg/connector/auth0/bulkimport.go:94-178 | at the end of the file the submitted chunks are exactly the greedy chunks of all users read, each record in its place or what import.payload answered for it; however the stream stops earlier, what was submitted begins the chunks of any input that goes on from there; every error has its cause, a done context always being Cancelled |
| Chunking.UsersAreSubmitted | pkg/connector/auth0/bulkimport.go:116-170 | each translated user is in a submitted chunk after exactly the records of the users before it, under its own source ID and user_id, with its own record unless import.payload answered another |
| Chunking.RecordsAreTheUsers | pkg/connector/auth0/bulkimport.go:101-112 | without such answers the records submitted, in order, are those of the users |
| Chunking.UserAt | pkg/connector/auth0/bulkimport.go:125-170 | each user's record, translation failure and roles come after those of the users before it |
| Chunking.ChunksAreGreedy | pkg/connector/auth0/bulkimport.go:163-171 | concatenated, the chunks are the records in order; each holds 1 to 1000 users and counts at most 500*1024 bytes unless it is one record; each was closed because the next record did not fit |
| Chunking.GreedyIsUnique | pkg/connector/auth0/bulkimport.go:116-177 | those properties leave only one division, so every run over the same input makes the same chunks |
| Chunking.EveryChunkFits | pkg/connector/auth0/bulkimport.go:26-32 | as the JSON array actually sent, a chunk holds at most 1000 records, and one of several is under 500*1024 bytes |
| Chunking.ChunksCloseWhenFull | pkg/connector/auth0/bulkimport.go:163-167 | a chunk is closed only with 1000 records, or if the next one would take its array to 500*1024 bytes |
| Chunking.JoinLength | pkg/connector/auth0/bulkimport.go:99-171 | the running byte count is the length of the encoded array plus one |
| Chunking.ClosedChunksStay | pkg/connector/auth0/bulkimport.go:101-114 | reading on never changes a chunk already handed to submit |
| Chunking.UsersAreConserved | pkg/connector/auth0/bulkimport.go:139-170 | every user read is a record of a chunk or a translation failure, once, and both lists keep input order |
| Chunking.FinalPayloads | pkg/connector/auth0/bulkimport.go:621-652 | each record a handler answered takes the place of the chunk's own, and a chunk with any replaced must fit the byte limit |
| ChunkOutcome.ReportChunk | pkg/connector/auth0/bulkimport.go:376-410 | the loops over job errors and users compute the specified chunk report, for any status and errors |
| ChunkOutcome.ErrorsInFull | pkg/connector/auth0/bulkimport.go:376-392 | each job error is reported first and in its place, under the last user its user_id names, with its code, and its message unless it is a duplicate's |
| ChunkOutcome.OthersInFull | pkg/connector/auth0/bulkimport.go:393-410 | the users no error names follow in chunk order: succeeded, or with JOB_FAILED and the job's message if it failed |
| ChunkOutcome.EveryUserHasOneOutcome | pkg/connector/auth0/bulkimport.go:393-410 | each user of a chunk is in exactly one of succeeded and failed, and a failed job leaves none succeeded |
| ChunkOutcome.TargetIDsCoverSucceeded | pkg/connector/auth0/bulkimport.go:408-409 | with distinct source IDs, exactly the succeeded users have a target ID, made of their own user_id |
| ChunkOutcome.TargetIDsAreAuth0s | pkg/connector/auth0/payload.go:36-40 | a succeeded user is recorded under the prefix and its user_id if and only if the user_id does not begin with the prefix |
| ChunkOutcome.TargetIDsAreDistinct | pkg/connector/auth0/payload.go:36-40 | two succeeded users of different user_ids share a target ID if and only if one user_id is the other, unprefixed, with the prefix |
| ChunkOutcome.OnlyTwicePrefixedIDs | pkg/connector/auth0/payload.go:28-34 | a payload user_id begins with the prefix if and only if the target ID it was made of begins with it twice |
| ChunkOutcome.EchoesFailExactly | pkg/connector/auth0/bulkimport.go:347-392 | errors that each echo a user_id of the chunk, prefixed or not, fail exactly the users echoed, for every list of them, if and only if source IDs and user_ids are one to one and each user_id either does not begin with the prefix, or is its user's source ID and names no other user without it |
| ChunkOutcome.AnotherUserIsFailed | pkg/connector/auth0/bulkimport.go:383-386 | with two user_ids, x and x after the prefix, the second echoed as it stands fails the user of the first and leaves the one echoed succeeded |
| ChunkOutcome.MergeResults | pkg/connector/auth0/bulkimport.go:278-294 | wait's loop merges the reports of the jobs without an error, in chunk order |
| ChunkOutcome.MergedInOrder | pkg/connector/auth0/bulkimport.go:327-333 | the merged lists are the reports' own, one after the other in chunk order |
| ChunkOutcome.MergedTargetID | pkg/connector/auth0/bulkimport.go:330-332 | a merged target ID is that of the last report with one for its user |
| ChunkOutcome.MergedReport.Merge | pkg/connector/auth0/bulkimport.go:327-333 | lists are appended and target IDs added, the later report's winning |
| ImportSafety.StepKeepsSlots | pkg/connector/auth0/bulkimport.go:243-276 | every step keeps each slot free, held by the submitter or taken by one worker |
| ImportSafety.AtMostTwoJobs | pkg/connector/auth0/bulkimport.go:52-56 | in every interleaving the occupied slots are the running workers and the submitter's, two at most |
| ImportSafety.NoJobStartsAfterAFailure | pkg/connector/auth0/bulkimport.go:250-256 | submit never starts a job in a slot a failed job freed |
| ImportSafety.FirstErrorStays | pkg/connector/auth0/bulkimport.go:266-271 | the error is set once, before the failed signal, and stays; the signal names a job that ended in an error |
| ImportSafety.WaitReportsErrors | pkg/connector/auth0/bulkimport.go:280-294 | when wait returns every slot is free, and it reports an error exactly if a job ended in one |
| ImportJobs.RunsNeverDeadlock | pkg/connector/auth0/bulkimport.go:219-294 | whatever the interleaving, a run that has not returned has a step of its own to take, without a cancellation, a failing reader or a crash; and so has every worker that holds a slot, or it waits for one that has |
| ImportJobs.SelectsGetASlot | pkg/connector/auth0/bulkimport.go:243-249 | while submit waits for a slot, none free means a worker has a step to take, and after as many worker steps as were left when the wait began every slot is free |
| ImportSafety.StretchesRunOut | pkg/connector/auth0/bulkimport.go:262-294 | workers take no more steps than they had left, so waiting for a slot or for all of them ends |
| ImportSafety.RunsEnd | pkg/connector/auth0/bulkimport.go:212-294 | between two crashes a run takes at most eleven steps a chunk and five more, however its goroutines interleave; with RunsNeverDeadlock, it returns |
| ImportRunner.Import.Submit | pkg/connector/auth0/bulkimport.go:219-276 | whatever the workers do meanwhile: a chunk is refused as changed if and only if its checkpoint is of other input; a done checkpoint's report is replayed, and fails only with its event; any other chunk is started with its checkpoint's job or none, unless a job has failed or the context is done; submit's own steps are exactly those of its outcome |
| ImportRunner.Import.AwaitSlot | pkg/connector/auth0/bulkimport.go:243-256 | from any state, the two selects end with a slot taken and looked at again, or stop: with the context's error only if it is done, with the first error only if a job failed |
| ImportRunner.Import.Stream | pkg/connector/auth0/bulkimport.go:94-178 | the chunks are submitted one by one to the end of the input, or the stream stops for a done context, the reader, a changed checkpoint, an event or a failed job, each only where it is one |
| ImportRunner.Import.RunJob | pkg/connector/auth0/bulkimport.go:262-274 | a worker runs from its start to its slot's release, without an error if and only if its post, polling, saves and event succeed; its own steps are exactly those; if it fails, the first error is set and signalled before the slot is free |
| ImportRunner.Import.Create | pkg/connector/auth0/bulkimport.go:353-367 | a job is waited for if and only if its post was answered and its ID saved, and is then on disk |
| ImportRunner.Import.Raise | pkg/connector/auth0/bulkimport.go:266-272 | the Once sets the error and closes the signal in its first caller, and every other one goes on after that |
| ImportRunner.Import.Wait | pkg/connector/auth0/bulkimport.go:278-294 | however many workers still run, it ends with every slot free; the report merges the jobs without an error in chunk order, and there is an error exactly if a job ended in one |
| ImportRunner.Import.Run | pkg/connector/auth0/bulkimport.go:77-89 | with the workers waited for, the report merges the chunks' own, there is a job error if and only if a job ended in one, and no stream error means every chunk was submitted |
| ImportJobs.StepKeepsSoundness | pkg/connector/auth0/bulkimport.go:342-426 | every step, failed save and restart keeps checkpoints, workers, results and jobs consistent |
| ImportJobs.EveryJobIsInOnePlace | pkg/connector/auth0/bulkimport.go:353-425 | over any runs, crashes and resumes each job created is in exactly one place: with its worker, in memory, on disk, forgotten after it failed, or lost |
| ImportHistory.LostJobsWereNeverStored | pkg/connector/auth0/bulkimport.go:353-367 | the ID of a lost job was on disk in no earlier state |
| ImportHistory.StoredUntilForgotten | pkg/connector/auth0/bulkimport.go:412-424 | a job once on disk is on disk in every later state, until it is forgotten |
| ImportHistory.ForgottenJobsWereStored | pkg/connector/auth0/bulkimport.go:412-424 | a forgotten job was on disk before, and failed |
| ImportHistory.JobsWhenARunBegins | pkg/connector/auth0/bulkimport.go:212-241 | the jobs of a chunk are then the one its stored checkpoint has, those forgotten after they failed, and those whose ID was on disk at no time |
| ImportJobs.OneLiveJobAChunk | pkg/connector/auth0/bulkimport.go:412-424 | of two jobs of a chunk one failed and was forgotten, or was lost |
| ImportHistory.PostedAgainOnlyAfterFailureOrLoss | pkg/connector/auth0/bulkimport.go:353-367 | a chunk is posted again only if every earlier job of it failed and was forgotten, or has an ID that was on disk at no time |
| ImportJobs.ReportsFollowCheckpoints | pkg/connector/auth0/bulkimport.go:229-241 | a chunk's report, replayed or not, is that of a job of its own content: the one its stored checkpoint has if that is done, else one that failed |
| ImportHistory.EveryChunkIsSettled | pkg/connector/auth0/bulkimport.go:412-424 | in every state, each checkpoint of a chunk none of whose jobs failed has its job, in memory and on disk, and is done once the chunk's report is in |
| ImportHistory.ResumedRunsReportTheirJobs | pkg/connector/auth0/bulkimport.go:212-294 | if no job of its chunks fails, a run that gets to its end without an error reports, in chunk order, what the one stored job of each chunk does, whatever crashes came before |
| ImportHistory.ResumeEquivalence | pkg/connector/auth0/bulkimport.go:212-294 | so where a chunk's jobs answer by its content, it reports what an uninterrupted run does |
| ImportJobs.DoneRunsReportTheirJobs | pkg/connector/auth0/bulkimport.go:212-294 | the same if jobs failed before, but the chunks' checkpoints are done at the end |
| AuthImport.EveryUserIsReportedOnce | pkg/connector/auth0/bulkimport.go:76-89 | in a run that submitted every chunk and ends without an error, each user read is on exactly one side of the whole report, and has a target ID if it succeeded; whatever each of its chunk's jobs ended with, each with its own report, and however the import was interrupted |
| AuthImport.EveryUserHasItsTargetID | pkg/connector/auth0/bulkimport.go:76-89 | in such a run a user that could not be translated is failed, and one that succeeded has the target ID of its own user_id |
| AuthImport.EchoesNameNoOther | pkg/connector/auth0/bulkimport.go:376-392 | the assumption that a job's errors name no user of another chunk holds for all errors that echo user_ids of the chunk, if its users are known by them |
| JobState.FindIndex | internal/jobs/state.go:38-45 | the loop finds a state's only place in the pipeline, or -1 |
| JobState.CanTransitionIsOneForwardOrFailure | internal/jobs/state.go:60-69 | a move is one place forward, or a failure of a working state; nothing leaves a terminal one |
| JobState.PathsEnd | internal/jobs/state.go:28-69 | every sequence of moves is bounded by the pipeline and fails only at its end |
| JobWorld.EveryWorldIsOK | internal/jobs/runner.go:98-281 | in every world of every sequence of runs, retries and crashes no stored result is of a later stage than the job, and a manifest means a complete users file of that export, whatever files the job was created beside |
| JobWorld.UsersFileStaysWhole | internal/jobs/steps.go:120-161 | the users file is the one the job was created beside, or a complete export |
| JobWorld.CrashedRunsStayOK | internal/jobs/runner.go:88-97 | the same across crashes: a call cut off between any two durable steps, and the call after it |
| JobWorld.RewoundKeepsExactlyEarlierResults | internal/jobs/runner.go:260-275 | retrying the state a job failed in keeps every result, an earlier one keeps each result of the states before it and no others |
| JobWorld.StoredReportStopsImports | internal/jobs/steps.go:318-323 | once a report is stored the target is not asked to import again until a retry clears it |
| JobWorld.StoredStatesFollowTransitions | internal/jobs/runner.go:309-322 | every step is a retry of a failed job, or keeps the stored state or makes an allowed move; nothing leaves Done |
| JobWorld.WorkStepsAreForward | internal/jobs/runner.go:239-322 | of all durable steps, those of a run are exactly those that make allowed moves at most and leave a stored report and its import alone |
| JobWorld.FailedInQueuedIsStuck | internal/jobs/runner.go:250-258 | a failed job can be retried in some state if and only if it did not fail while queued |
| JobWorld.NewJobsCanGetStuck | internal/jobs/runner.go:142-151 | a new job that fails before its first move is such a job |
| JobRunner.ProgressIsForwards | internal/jobs/runner.go:88-97 | in every world a run leaves, and so at any crash, stored states made allowed moves, a stored report stayed and stopped imports, and a sound world stayed sound |
| JobRunner.Runner.Run | internal/jobs/runner.go:98-172 | takes only a run's own durable steps, so goes forwards only, and terminates; a job gets done only if nothing stood in its way from the state it was in, with the results of the steps between, and fails in the first state with an obstacle, with that as its error, or by a refused save; a done context ends the run and leaves the job to be resumed; besides that only a refused save or a refused call is an error; the caller sees state, failed-in and error as stored |
| JobRunner.Runner.NoObstacleIf | internal/jobs/steps.go:105-418 | nothing stands in a state's way exactly if its hooks allow it and its step does what it is for, for each step what that is |
| JobRunner.Runner.FirstObstacle | internal/jobs/runner.go:151-165 | what fails a job is the first of a veto on entering, the step's error and a veto on leaving |
| JobRunner.Runner.ClearIsEach | internal/jobs/runner.go:142-171 | a job's way is clear exactly if it is in each state as the job was at the start |
| JobRunner.Runner.DoneJobsHaveResults | internal/jobs/steps.go:105-418 | a job that got done has the manifest, problems, report and differences of the steps on its way, and the earlier results it had |
| JobRunner.Runner.Rounds | internal/jobs/runner.go:146-170 | the loop works on one state after the other, and says how far it got when it is interrupted, broken or fails to save |
| JobRunner.Runner.Transition | internal/jobs/runner.go:310-322 | a move is in memory and on disk, or in neither |
| JobRunner.Runner.Fail | internal/jobs/runner.go:326-334 | the failure, its state and its error are stored in one save, or rolled back together |
| JobRunner.Runner.RunStep | internal/jobs/runner.go:298-307 | the job is saved after its step, or its save failed, whatever the step returned; no error means it is saved |
| JobRunner.Runner.Retry | internal/jobs/runner.go:239-281 | a retry is refused with nothing stored changed, or stores the rewound job in one durable step that keeps the world sound; it is refused for its state exactly when it is not allowed, and an allowed one only by the lock, the load or the save |
| JobRunner.KeepHooksBefore | internal/jobs/runner.go:286-294 | the loop keeps the hook results of states before the one retried |
| JobWorld.HooksBeforeStayInOrder | internal/jobs/runner.go:286-294 | each hook result of an earlier state comes after those kept before it |
| JobRunner.Job.SaveChunk | internal/jobs/runner.go:352-360 | memory always takes the checkpoint, disk only if the save succeeds |
| JobRunner.Export | internal/jobs/steps.go:105-163 | skipped once a manifest is recorded; it succeeds exactly if its writes, its hook and its rename do, and then the users file is the complete export of the manifest; on failure both are as they were |
| JobRunner.Validate | internal/jobs/steps.go:240-316 | succeeds exactly if it could be carried out, its hook allows it and does not fail it; the problems found are on the job either way |
| JobRunner.Import | internal/jobs/steps.go:318-382 | the target is asked exactly if no report is recorded and import.before allows it, once; its report is recorded, and import.after decides the rest |
| JobRunner.Verify | internal/jobs/steps.go:384-418 | succeeds exactly if it could be carried out, its hook allows it and does not fail it; the differences are on the job either way |
| JobLock.StepKeepsInv | internal/jobs/store.go:27-39 | every step of every process keeps at most one of them past the lock, holding the stored version |
| JobLock.AtMostOneProcessAndSoundJob | internal/jobs/store.go:34-38 | however processes interleave and crash, one at most is past the lock and the stored job is whole and sound |
| JobLock.OnlyTheHolderChangesTheJob | internal/jobs/store.go:65-79 | the stored world changes only in a step of the lock's holder, from the version just before; a refused call changes nothing |
| JobLock.CrashLeavesTheJobUsable | internal/jobs/store.go:27-29 | a crash, even in the middle of a save, leaves a whole version and a job that can be locked and loaded |
| PreparedReader.Reader.ReadUser | pkg/importprep/importprep.go:284-295 | gives the next user of the whole input's prepared users, or, after all of them, the input's error, every time |
| PreparedReader.Reader.ReadBatch | pkg/importprep/importprep.go:306-322 | gives the waiting users of a batch, in order, mixed freely with ReadUser |
| PreparedReader.Reader.Next | pkg/importprep/importprep.go:330-340 | skipped batches never stall the reader, and nothing is delivered by it |
| PreparedReader.Reader.Fill | pkg/importprep/importprep.go:345-366 | the users read before an error are prepared and delivered before it |
| PreparedReader.NoUserIsLost | pkg/importprep/importprep.go:324-326 | delivered and skipped users account for the input, or for all before the batch whose preparation failed |
| PreparedReader.RefinesPlainReader | pkg/importprep/importprep.go:275-295 | a preparation that treats users one by one, keeping, changing or skipping each, but may refuse batches, delivers what the plain reader reads, each user prepared alone, up to the first batch that is refused or has a user it fails on |
| PreparedReader.BatchesDoNotMatterExactly | pkg/importprep/importprep.go:275-295 | so all users are delivered as they are prepared alone if and only if it fails on none of them and refuses no batch |
| UserPreparation.AloneFinish | pkg/importprep/strategies.go:40-69 | users prepared one after the other come to the kept ones with their fields beside the dropped ones, and fail exactly if one does |
| DelegatedPreparation.BatchComesTo | pkg/importprep/strategies.go:40-102 | with handlers that answer each user by itself and built-in transforms, a batch comes to what its users do alone, or fails if a handler is sent a source ID twice in one call, or a user is given what was placed for another |
| DelegatedPreparation.BatchesDoNotMatterExactly | pkg/importprep/importprep.go:275-295 | for any users whose equal source IDs are answered alike, every user is delivered as it is prepared alone if and only if none fails alone and no batch fails that way |
| DelegatedPreparation.BatchesDoNotMatter | pkg/importprep/importprep.go:275-295 | for users without a repeated source ID, whatever the sizes of the batches and the answers, no batch fails that way |
| DelegatedPreparation.UserReadTwiceFails | pkg/hooks/dispatcher.go:292-298 | a user read twice, with import.user delegated two or more at a time, ends the import with nothing delivered |
| Preparation.PreparationIsSound | pkg/importprep/strategies.go:40-69 | whatever the handlers answer, a preparation keeps fields with their users and loses or repeats no user |
| Preparation.Prepare | pkg/importprep/strategies.go:40-69 | the steps run in order over the users kept, in place, and give the specified batch or fail |
| Preparation.PreparedExactly | pkg/importprep/strategies.go:40-69 | a batch is prepared exactly if no handler fails, every answer can be applied and every field resolved; those skipped are the users dropped |
| Preparation.PreparedFields | pkg/importprep/strategies.go:63-67 | a user's fields are its placed keys, then its routed ones, then its target fields, and its metadata is conserved |
| Preparation.ImportUsers | pkg/importprep/strategies.go:71-102 | users are kept, replaced or skipped as answered, in order, and a replacement with another source ID fails |
| Preparation.AnsweredUser | pkg/importprep/strategies.go:82-101 | each user is kept, replaced or skipped as it was answered, after those before it |
| Preparation.ResolvedIsEachUser | pkg/importprep/importprep.go:177-228 | target fields resolved a field at a time over all users are those of each user alone, and fail exactly if one user's do |
| Preparation.TargetFieldIs | pkg/importprep/importprep.go:178-228 | a user's field of a rule is its value, or the default if that is empty, through the transforms, after the fields of the rules before; an empty one is none |
| Preparation.OnlyRulesGiveFields | pkg/importprep/importprep.go:215-226 | every target field is that of a rule, in rule order |
| Metadata.MetadataIsConserved | pkg/importprep/metadata.go:50-90 | after placements and routes each metadata key stayed on the user or was removed once with its value, never both |
| Metadata.PlacedExactly | pkg/importprep/metadata.go:62-85 | placements succeed exactly if each is allowed, its key is the user's, and none is placed twice |
| Metadata.FieldsOfMoves | pkg/importprep/metadata.go:87-89 | exactly one field for each moved key that is neither dropped nor empty, at its destination with its value, in order |
| Metadata.RouteUser | pkg/importprep/strategies.go:177-201 | the loop over the routes takes out the routed keys the user still has |
| Metadata.RoutesTakeTheirKeys | pkg/importprep/strategies.go:177-201 | the routes take exactly their keys out of a user |
| Metadata.RouteIsAMove | pkg/importprep/strategies.go:185-199 | a route of a key the user has moves it to its destination, in route order, unless an earlier route took it |
| Metadata.OnlyRoutesMove | pkg/importprep/strategies.go:185-199 | and nothing else is moved |
| TargetPaths.LastFieldWins | pkg/importprep/importprep.go:368-380 | a field no later one overlaps is what its path holds in the end |
| TargetPaths.LaterKindsWin | pkg/importprep/strategies.go:63-66 | on a shared path target fields win over routes, and routes over placements |
| TargetDocuments.DeliveredFieldsHold | pkg/importprep/strategies.go:57-69 | of the fields a prepared user is delivered with, set in any record, each holds in the end unless a later one of its own or a later kind overlaps its path |
| Transforms.ColumnIsEachValue | pkg/transform/transform.go:193-214 | built-in steps do to a column what they do to each value, and fail exactly if one value fails |
| Transforms.Apply | pkg/transform/transform.go:198-215 | the steps run one after the other over the array, in place |
| Transforms.ApplyCustom | pkg/transform/transform.go:217-252 | a handler gets the values that are not empty under their keys; of those under one key the last takes its answer, all others and empty ones stay; an ignored failure changes nothing, a missing value fails the column |
| Transforms.CustomColumnIs | pkg/transform/transform.go:217-252 | case by case what a custom step makes of a column: untouched with nothing to send or an ignored failure, failed with its handler or an answer without exactly the keys sent, else each answer on the last value sent under its key |
| Transforms.ValueIsSent | pkg/transform/transform.go:220-228 | the values that are not empty are sent in order, each under its key |
| Transforms.ColumnFromTheFirst | pkg/transform/transform.go:198-215 | the steps run from the first to the last, built-in or custom |
| FlatFile.Normalize | pkg/connector/flatfile/normalize.go:94-180 | the loops, column by column, compute the specified rows or fail |
| FlatFile.NormalizedIsEachRow | pkg/connector/flatfile/normalize.go:90-93 | column by column equals row by row: it fails exactly if a row does, and gives each row what the row alone gives |
| FlatFile.FirstRuleWins | pkg/connector/flatfile/normalize.go:73-80 | a destination gets the value of the first rule in order that gives one |
| FlatFile.RuleValueIs | pkg/connector/flatfile/normalize.go:131-146 | a value is the pattern's group, nothing if it does not match, or the cell; then what the table lists for it; then the default if it is empty |
| FlatFile.NormalizedRowHolds | pkg/connector/flatfile/normalize.go:125-180 | a normalized row holds what the first rule with a value makes of the row, in the column's canonical spelling |
| FlatFile.SettledHolds | pkg/connector/flatfile/normalize.go:163-178 | settling changes only the columns it is for, to their canonical spelling, and fails exactly if one has none |
| FlatFile.RowsAreKeyedByRecord | pkg/connector/flatfile/normalize.go:147 | a handler is asked about a row by its record number, from 1 |
| FlatFile.OthersKeepTheirs | pkg/connector/flatfile/normalize.go:82-85 | any other column keeps its unconsumed original value, and consumed columns are gone |
| FlatFile.RowsFailByARule | pkg/connector/flatfile/normalize.go:127-155 | a row fails exactly if a rule whose column is still unwritten fails on it |
| FirebaseImport.Importer.Import | pkg/connector/firebase/connector.go:179-248 | on a nil error each user is recorded exactly once, and each configuration's accounts were sent once, in order, in requests of that configuration only, of 1000 but for the last, each with the payload answered for it or its own; a failed request does not end the import; the error of the reader, of a payload or of a done context does |
| FirebaseImport.Importer.Record | pkg/connector/firebase/connector.go:270-303 | a sent batch is logged with its response and leaves the waiting users |
| FirebaseImport.IndexesAreAttributedRight | pkg/connector/firebase/connector.go:282-301 | account i is failed if and only if an entry has index i or the request failed, and else succeeded |
| FirebaseImport.AccountInFull | pkg/connector/firebase/connector.go:270-301 | each account is recorded in its place: with the message of the last entry of its index and that message's code, with the request's error, or as succeeded |
| FirebaseImport.AccountHasItsLocalID | pkg/connector/firebase/connector.go:294-295 | a succeeded account's target ID is its own local ID |
| FirebaseImport.ErrorCodeIs | pkg/connector/firebase/connector.go:305-322 | a message's code is its first word exactly if that is capitals, digits and single underscores, with one at least and a capital first |
| FirebaseImport.ReportFollowsLog | pkg/connector/firebase/connector.go:254-303 | the report's lists are put together in the order of what the import did |
| FirebaseImport.EachAccountIsSent | pkg/connector/firebase/connector.go:224-244 | each account read is in a request of its configuration, after as many of that as were read before it |
| FirebaseImport.EachIsRecordedOnce | pkg/connector/firebase/connector.go:286-301 | a response puts each account of its request on one side or the other, so nobody is recorded twice |
| Batcher.Batcher.Resolve | pkg/hooks/dispatcher.go:267-290 | consecutive batches, numbered on over the Batcher's life, up to the first not answered; an answer has exactly the items' keys, and a failure gives no part of one |
| Batcher.Batcher.Call | pkg/hooks/dispatcher.go:292-316 | a batch with a key twice fails, an answer without exactly the batch's keys counts as a failure |
| Batcher.ExpectedIs | pkg/hooks/dispatcher.go:292-316 | a key twice is a failure that is never ignored; any other batch has its handler's answer if that has exactly its keys, and else a failure as on_failure says |
| Batcher.LastAnswerCounts | pkg/hooks/dispatcher.go:278-289 | a key has the answer of the last batch that was answered for it |
| Batcher.PerItemResolves | pkg/hooks/dispatcher.go:267-290 | over a handler that answers each item by itself, Resolve fails if and only if a batch has a key twice, and else gives each key the answer of its last item |
| Batcher.NumbersHaveNoGap | pkg/hooks/dispatcher.go:274-297 | a handler sees the numbers 1, 2, 3 and so on without a gap if and only if no batch is sent after one with a key twice |
| Batcher.StoppingLeavesNoGap | pkg/hooks/dispatcher.go:283-285 | a caller that sends nothing after a failure leaves no gap |
| Batcher.GoOnAfterFailure | pkg/hooks/dispatcher.go:280-297 | a caller that goes on after a batch with a key twice: the first number the handler sees is 2 |
| Batcher.CheckKeys | pkg/hooks/dispatcher.go:321-333 | accepts an answer exactly if its keys are those sent |
| Sequences.CutIsWhole | pkg/hooks/dispatcher.go:278-279 | the batches are the items in order, at most the handler's size each, all but the last full |
| Reconcile.Run.Reconcile | pkg/reconcile/reconcile.go:89-168 | the loop computes the specified report, or stops with the report of the users checked so far: for a done context, a read error, or exactly if a lookup, check or comparison fails |
| Reconcile.BatchSizeDoesNotMatter | pkg/reconcile/reconcile.go:97-136 | where each batch is refused or its users looked up and compared one by one, the run fails if one is refused, and else its report is that of a loop over one user at a time |
| Reconcile.BatchesAreCut | pkg/reconcile/reconcile.go:151-163 | the batches flushed are the users looked up, cut into full ones but for the last |
| DelegatedReconcile.FailsExactlyIfRefused | pkg/reconcile/reconcile.go:89-238 | with handlers that answer each user by itself and take the run's batches whole, or none, any users are reported as one at a time, unless a batch is refused: then the run fails |
| DelegatedReconcile.RefusedIfRepeated | pkg/hooks/dispatcher.go:292-298 | such a batch is refused if and only if two of the users a handler is asked about share their source ID |
| DelegatedReconcile.BatchesDoNotMatter | pkg/reconcile/reconcile.go:89-238 | users without a repeated source ID are reported as one at a time, whatever the batch sizes of the run and its handlers |
| Reconcile.ReportPartitionsUsers | pkg/reconcile/reconcile.go:119-133 | each user is in exactly one of skipped, no identifier, missing and found, lists keep input order, counts add up, drift is of found users |
| Reconcile.UserIsReported | pkg/reconcile/reconcile.go:119-160 | each user read is listed after those before it: skipped, without an identifier, missing, or found with the drift seen |
| Reconcile.LookedUpByTargetID | pkg/reconcile/reconcile.go:173-183 | without a handler a user with a recorded target ID is looked up by it if the mapping says so, any other in the connector's own way |
| Reconcile.LookedUpAsAnswered | pkg/reconcile/reconcile.go:184-205 | a handler's answers are the lookups, and there must be one for every user |
| Reconcile.ComparedAsAnswered | pkg/reconcile/reconcile.go:210-238 | a comparison's answer replaces the drift of the last user found under its source ID and changes nothing else |
| BinaryText.Base64RoundTrip | pkg/hash/keycloak.go:228-253 | decodeBinary inverts standard and URL-safe base64, padded and not, for every byte sequence |
| BinaryText.EncodesInGroups | pkg/hash/keycloak.go:252-253 | each three bytes are four digits of 64, as numbers, and of a last group only the digits with bits of it (RFC 4648, section 4) |
| BinaryText.DigitsOfTheStandard | pkg/hash/keycloak.go:236-253 | the digits of both alphabets are those of RFC 4648, sections 4 and 5 |
| BinaryText.PaddedToFour | pkg/hash/keycloak.go:252 | padded text is the unpadded one and at most two signs, a multiple of four long |
| BinaryText.HexRoundTrip | pkg/hash/keycloak.go:230-235 | decodeBinary inverts hex for every byte sequence |
| BinaryText.EncodesInPairs | pkg/hash/keycloak.go:230-235 | each byte is two hex digits, the higher first (RFC 4648, section 8) |
| BinaryText.CanonicalTextsComeBack | pkg/hash/keycloak.go:236-253 | a text comes back from decoding and encoding exactly if it is standard base64 with no bits left over |
| Decimals.DecimalsComeBack | pkg/hash/keycloak.go:105-219 | digits survive Atoi and Itoa exactly if they have no leading zeros and fit an int |
| Decimals.OneMoreDigit | pkg/hash/keycloak.go:105-219 | one more digit is ten times the number and the digit |
| PasswordHash.Argon2Printed | pkg/hash/detect.go:26-110 | the argon2 expression reads back what was printed, and nothing if the salt or key is empty |
| PasswordHash.Argon2Read | pkg/hash/detect.go:26-110 | printing the groups of a matched string gives the string |
| PasswordHash.PrintedArgon2Is | pkg/hash/keycloak.go:217-218 | the argon2 string, part by part |
| PasswordHash.PrintedPBKDF2Is | pkg/hash/keycloak.go:194 | the PBKDF2 string, part by part |
| PasswordHash.NormalizesPBKDF2 | pkg/hash/detect.go:63-143 | Normalize reads a printed PBKDF2 string as itself and no other format |
| PasswordHash.PasswordHolds | pkg/hash/detect.go:84-143 | what CMF's password object holds of an argon2 and of a PBKDF2 string |
| Keycloak.CredentialSays | pkg/hash/keycloak.go:61-160 | a credential holds the password's own key and salt, byte for byte, and its parameters under Keycloak's names |
| Keycloak.TranslatesExactly | pkg/hash/keycloak.go:61-132 | which passwords Keycloak takes |
| Keycloak.Argon2RoundTrip | pkg/hash/keycloak.go:93-220 | an argon2 string comes back from Keycloak unchanged exactly if it is canonical |
| Keycloak.PBKDF2RoundTrip | pkg/hash/keycloak.go:68-200 | a PBKDF2 password Keycloak takes comes back exactly if its iterations are positive and its salt and key not empty, and then with the same digest, iterations, salt and key |
| Keycloak.PBKDF2StringRoundTrip | pkg/hash/keycloak.go:68-200 | a PBKDF2 string comes back from Keycloak as the same password, with its key length noted, exactly if its iterations are positive and its salt and key canonical |
| Keycloak.StoredCredentialsComeBack | pkg/hash/keycloak.go:165-168 | a credential as Keycloak stores it is the one it gets back |

## Left out

- The HTTP clients, tokens, multipart and JSON encoding, gzip, CSV, command line, REST server and progress bar: input, output and plumbing. JSON records enter as their text or as decoded values.
- Fingerprints and event IDs as hash functions: a chunk's fingerprint is taken to determine its content, and a handler's call is told by its number.
- Real time, backoff and retries of single requests: only the order of steps matters here. Polling a job is one step that ends or fails.
- The import without a checkpoint store, and a target that answers an empty job ID.
- The organizations and roles phase, and the follow-up lists of an import report (password reset, re-enrollment, recovery codes), which are appended beside the lists modelled.
- ImportProtocol.Apply: the report a job ends with is chosen when it is created; ChunkOutcome.ReportChunk is how the code works it out, and AuthImport puts the two together.
- The plain Reader without an Applier, which hands on the CMF reader's own reads.
- Preparation.Prepare: the strategies for the primary contact, the hash and the second factors, and the payload, are not modelled; they replace one part of each user by a handler's answer.
- TargetPaths.Set: works on values, so two keys that share one nested map are not modelled.
- JobRunner.Validate and JobRunner.Verify: how users are checked is not modelled; what a check comes to is a parameter. All that a step needs before it starts is one condition of it.
- JobRunner.Export: a failure to delete a temporary file is not modelled; neither can be read by a later step.
- FlatFile.Normalize: which columns are settled last and which spellings they take are parameters.
- FirebaseImport.Tally: the password-reset and re-enrollment flags of an account are left out.
- Transforms.ApplyCustom: what Batcher.Resolve comes to is a parameter; an answer with other keys than those sent, which Resolve never gives, fails the column here.
- Batcher.Batcher.Resolve: Notify, which cuts its items the same way, is left out; a Batcher without a hooks file or with an unknown strategy, which fails before any call, is left out.
- Reconcile.Run.Reconcile: the error's text is left out, and a handler is told by the batch it gets.
- DelegatedReconcile.FailsExactlyIfRefused: handlers of different sizes, one of which splits a batch, are covered for users without a repeated source ID only.
- DelegatedPreparation.BatchesDoNotMatterExactly: two users of one source ID whom a handler answers differently in different calls are not covered; DelegatedPreparation.BatchesDoNotMatter needs no such condition.
- DelegatedPreparation.BatchComesTo: custom transforms are left out; Transforms.ApplyCustom says what they do to a column.
- PasswordHash.Normalize: the hint is the empty one Keycloak's reader gives; raw digests, which need a hint, and Validate are left out.
- Keycloak.FromCredential: the two JSON documents are a decoded record, and no other error text than its kind is kept.
- The Firebase and Kratos hash translators, the provider field validators and the data generators: field copying and isolated checks.

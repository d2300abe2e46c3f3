# Verification of groundtruth

groundtruth turns text into notes: a language model drafts a batch of writes, a validator gates it, and one git
commit per ingest stores it. This project models the parts its guarantees rest on and proves them for every run,
with the model, the clock and every failing command arbitrary. Everything is Dafny 4.11; `dafny verify dfyconfig.toml`
checks it.

## How it is put together

**The ingest transaction.** `Git.dfy` has the repository as (commit chain, staged tree, work tree) and the operations
ingestion uses. `Job.dfy` and `JobStore.dfy` have the job records. `Ingest.dfy` is one ingest as a step machine: each
effect of `run` is a step that succeeds or raises any exception, and what a failing command leaves in the index and the
work tree is arbitrary. `IngestSafety.dfy` proves one inductive invariant of every reachable state, `IngestTheorems.dfy`
what it means for whole runs, `Contents.dfy` what the commit holds file by file, `IngestProgress.dfy` that an ingest in
which nothing raises can succeed. Git, the job store, the index and the loaders of context each keep a ghost log of what they
raised. `IngestLogs.dfy` says what each event of a run adds to those logs and that a run without a failure commits,
`Drafting.dfy` what a drafting may fail for. `Pipeline.dfy` is `run` itself, on mutable objects; every call is proved to be
a finished run of the machine whose exceptions are exactly the logged ones, so the theorems hold of it and it fails for no
reason of its own.

**Crashes, restarts, histories.** `Recovery.dfy` is startup recovery as a loop over the store, `Crash.dfy` a crash at
any step followed by it. `History.dfy` interleaves jobs of different vaults step by step with edits, foreign commits,
pulls, crashes, restarts and second runs of a job. `HistoryJobs.dfy` counts the commits of a job over such histories,
`HistoryProgress.dfy` says which of them can still grow, and `HistoryNames.dfy`, on `Provenance.dfy`, follows the
`sources` of notes. `Witnesses.dfy` gives, for each promise that is broken, runs from the start that break it.

**The queue.** `Queue.dfy` has worker threads interleaving at their critical sections, `Retry.dfy` the retry policy
around any runner, `Worker.dfy` one turn of the worker loop with both, `Services.dfy` the runner the service really uses.

**The organize loop.** `Budget.dfy`, `Agent.dfy`, `WriteTools.dfy`, `Validator.dfy` and `Organize.dfy` are the metered
agent loop, the write tools, the gate and the bounded retry around them.

**Links.** `Links.dfy` gives the extractor and the rewriter as functions, `LinkScanner.dfy` the loops of the source
proved to compute them, `LinkTheorems.dfy` that they agree about code and on ordinary texts, `LinkExact.dfy` exactly
which links a downgrade leaves, `LinkTraps.dfy` two texts on which it goes wrong.

**Forms that must agree.** `Frontmatter.dfy` and `Notes.dfy` (printer, parser, append-only sources), `Vocabulary.dfy`
(ranking, byte budget, cache), `Utf8.dfy`, `Paths.dfy`.

`Prelude.dfy`, `Text.dfy`, `Order.dfy` and `Dedupe.dfy` are shared: results and exceptions, Python's string operations,
`sorted`, first-occurrence de-duplication.

## Where the code does not do what its documentation says

Each is proved, with the condition under which the promise does hold: an exact one, except where the last section says so.

- *A failure at any stage leaves the vault as it was.* Not after the first commit: when the amend, the indexing or the
  final record update fails, the job ends FAILED and HEAD keeps the commit, because the rollback resets to the new HEAD.
  HEAD grows exactly when the commit command succeeded (`CommitIsNeverUndone`); every ingest that could succeed can also
  end this way (`FailureKeepsCommit`).
- *Rollback never runs before the clean-tree check.* It does when the status command itself raises. Unsaved edits survive
  a finished run on a dirty tree exactly when that command did not raise (`UnsavedEditsSurvive`,
  `StatusErrorCostsEdits`).
- *Any failure rolls back.* An exception that is not a `GroundtruthError` runs no handler: the tree stays as the failing
  command left it and the job stays RUNNING (`ForeignExceptionSkipsRollback`, `ForeignExceptionLeavesDirt`). At the stages
  that write, whatever was left is rolled back if and only if the exception is one (`RolledBackExactly`).
- *Recovery discards only a half-finished ingest.* The job is marked RUNNING before the tree is checked, so a crash in
  between makes recovery discard the user's edits; edits survive crash and recovery exactly when the record was not
  RUNNING and the status command had not raised (`EditsSurviveCrash`, `CrashCostsEdits`).
- *A text is ingested once.* Once it is indexed, yes (`IndexedTextIsNeverCommittedAgain`), and it is indexed exactly when
  the indexing step succeeded (`IndexedExactly`). A crash, or a failing amend or indexing, before that leaves a commit that
  no lookup finds (`ForgottenExactly`, `CrashKeepsCommit`). Where an ingest can succeed, some continuation commits the text
  once more if and only if it is not indexed (`CommittedAgainExactly`).
- *A job makes one commit.* Second runs included, as long as its id is not used again after its record was swept
  (`OneCommitPerJob`); then, with a fresh text, it can, and only then (`JobCommitsAgainExactly`).
- *A transient failure is retried.* It is re-raised with the vault as it was, but the record is RUNNING by then and no
  later run of the job touches anything (`TransientFailureIsFinal`). Where an ingest of a fresh text is possible, some run
  of the job ingests it if and only if the job has no record or a QUEUED one (`IngestsExactlyWhenQueued`). The service
  drops the request as well: of all the attempts the retry policy makes one at most ingests, and if that one raised
  what is stored in the end is a failure (`RunAttempts`, `RetryingRunJob`).
- *A failing job never blocks its queue.* A worker whose failure record cannot be stored dies, and the jobs behind it wait
  for the next submission, whatever else happens (`DeathStrandsTheQueue`, `AJobIsStranded`). Waiting jobs of a queue that
  was not stopped have a worker if and only if none died since the last submission (`WaitingJobsHaveAWorker`).
- *A parsed tag list can be written and read back.* A tag such as `true` or `2026` passes the tag parser and is written
  bare, after which the note does not parse: rendering round-trips exactly when every tag and hash reads as a string
  (`ParseAfterRender`). Such a note can never be updated, and every later listing of its vault raises
  (`UnreadableNoteIsStuck`).
- *The archive manifest names the ingest's commit.* It names the commit object that the amend replaced, which is on no
  chain (`SuccessIsOneCommit`, through `AmendedTree`).
- *The downgrade removes the dangling links.* A link inside another pair of brackets is uncovered by its own rewrite, and
  a target that is a fence marker hides the links below it (`NestedLinkSurvivesDowngrade`, `RewriteOpensAFence`). For every
  body the links left and those a new fence hides are the unwanted ones, the added ones and those a new fence reveals
  (`DowngradeBalances`); the added ones, which a scan for stray `[[` finds, are wanted links over a code span or a line end
  and links made of what stood around a rewritten one. The link check then passes if and only if the dangling links added
  and revealed are those hidden (`ClearsExactly`). Without a new fence nothing is hidden or revealed, and the downgrade is
  right, order included, if and only if it adds nothing (`ExactUnlessAdded`); where every `[[` outside code starts a link
  within its line and segment it adds nothing (`DowngradeIsExact`).
- *The cached vocabulary is that of HEAD.* A scan of a work tree with other tags is filed under HEAD too. Over any history
  the cache is right throughout if and only if that never happened (`CacheIsRightExactly`, `DirtyScanPoisons`).
- The `body_type` rule cannot fire inside the pipeline: putting such a body into the tag prompt raises first (`TagNote`).

## Model

| member | source | states |
|---|---|---|
| IngestTheorems.OneCommitOrNone | src/groundtruth/ingest/pipeline.py:94-263 | for every run, whatever raises where: past the clean-tree check HEAD is the fetched base or one commit of this job above it, an orderly end leaves a clean tree, the index gains the completed commit or nothing, no other job's record changes |
| IngestTheorems.SuccessIsOneCommit | src/groundtruth/ingest/pipeline.py:161-231 | a fresh text that succeeds is one commit over the base holding exactly its notes and archive, indexed under HEAD's id and recorded with the created and updated paths |
| IngestProgress.NothingRaisedMeansSuccess | src/groundtruth/ingest/pipeline.py:118-231 | on a clean vault whose notes parse, a fresh text with a gated batch that changes something has a run with no exception that ends SUCCEEDED, with or without pull and archive, also when an earlier commit of the text left its archive files |
| IngestProgress.StageGoesOn | src/groundtruth/ingest/pipeline.py:161-231 | each stage from the first write on moves strictly closer to success when it does not raise |
| IngestLogs.QuietRunsCommit | src/groundtruth/ingest/pipeline.py:118-231 | a finished run of a clean vault on a fresh text in which neither git nor the job store nor the index failed drafted exactly once, against HEAD or what the pull made of it, and if that gave a batch that can be written and changes something it ended SUCCEEDED with one commit of this job on top |
| IngestLogs.DraftingStaysOnTrack | src/groundtruth/ingest/pipeline.py:131-187 | a drafting against the base either starts writing or is the failure that ends the run |
| IngestLogs.PastStaysOnTrack | src/groundtruth/ingest/pipeline.py:161-231 | from the first write on, a stage of a good batch whose component does not fail keeps the run going to its success |
| Contents.CommitHoldsExactly | src/groundtruth/ingest/pipeline.py:161-187 | the committed tree is the base with each note merged over what was there, text and manifest filed unless they were there, and no other file touched |
| Contents.RecordedPathsAreTheBatch | src/groundtruth/ingest/pipeline.py:157-159 | created paths are exactly the batch's that did not exist, updated ones exactly those that did, each once |
| IngestTheorems.DuplicateChangesNothing | src/groundtruth/ingest/pipeline.py:121-126 | an already indexed text never moves the history or the index, and its success points at the earlier commit |
| IngestTheorems.CommitIsNeverUndone | src/groundtruth/ingest/pipeline.py:186-241 | the history grew if and only if the commit command succeeded, whatever failed later |
| IngestTheorems.IndexedExactly | src/groundtruth/ingest/pipeline.py:186-203 | a fresh text is in the index if and only if the indexing step succeeded at some point of the run |
| IngestTheorems.ReturnedIsStored | src/groundtruth/ingest/pipeline.py:212-263 | a returned record is terminal, of this job and the one stored |
| IngestTheorems.RunMeetsContract | src/groundtruth/ingest/pipeline.py:212-263 | a finished run on a record still to be settled returns it, terminal as stored, or raises and leaves it to be settled |
| IngestTheorems.UnsavedEditsSurvive | src/groundtruth/ingest/pipeline.py:118-119 | a dirty tree is never ingested into, and is left as it was if and only if the status command did not raise |
| IngestTheorems.ForeignExceptionSkipsRollback | src/groundtruth/ingest/pipeline.py:233-241 | an exception that is not a GroundtruthError leaves the disturbed tree and the RUNNING record |
| Witnesses.RolledBackExactly | src/groundtruth/ingest/pipeline.py:233-253 | at a stage that writes or commits, a failure leaves a clean tree whatever its command left behind if and only if its exception is a GroundtruthError |
| Witnesses.FailureKeepsCommit | src/groundtruth/ingest/pipeline.py:186-263 | every ingest that can succeed has a run that ends FAILED with its commit at HEAD and its text not indexed |
| Witnesses.StatusErrorCostsEdits | src/groundtruth/ingest/pipeline.py:233-253 | on any dirty tree a raising status command ends in a FAILED run that discarded the edits |
| Witnesses.ForeignExceptionLeavesDirt | src/groundtruth/ingest/pipeline.py:233-241 | every ingest that can succeed has a run that ends with whatever a failing write left and the record RUNNING |
| IngestTheorems.RunKeepsFrame | src/groundtruth/ingest/pipeline.py:94-263 | every reachable state keeps the invariant and differs from the start only in its own record, its completed index entry and its repository |
| IngestSafety.StepKeepsInv | src/groundtruth/ingest/pipeline.py:94-263 | each step, succeeding or raising, keeps what its stage promises about repository, records, index and batch |
| IngestSafety.Recoverable | src/groundtruth/ingest/pipeline.py:233-241 | at every stage after marking the job running, history and index are sound and the job is in flight |
| IngestSafety.AmendedIsComplete | src/groundtruth/ingest/pipeline.py:188-191 | the amend replaces the first commit, whose recorded id is then on no chain |
| IngestSafety.DraftingKeepsInv | src/groundtruth/ingest/pipeline.py:142-159 | only a batch the gate accepted reaches the writing stages |
| Pipeline.IngestPipeline.Ingest | src/groundtruth/ingest/pipeline.py:94-263 | a call of run is a finished run of the step machine on the repository, the records and the vault's index; each exception among its events is one that the component its stage calls logged, and what drafting came to has its reason in the model's answers, the meters or the vault; so on a clean vault with a fresh text, if no component logged a failure, a good batch ends SUCCEEDED with the history one commit longer |
| Pipeline.IngestPipeline.Attempt | src/groundtruth/ingest/pipeline.py:110-231 | the body of the try statement, up to where a handler or the end takes over |
| Pipeline.IngestPipeline.HandleFailure | src/groundtruth/ingest/pipeline.py:233-263 | the handlers end the run: rolled back and failed, re-raised, or left when they raise |
| Pipeline.IngestPipeline.LoadJob | src/groundtruth/ingest/pipeline.py:110-111 | loads or creates the record, or raises with nothing started |
| Pipeline.IngestPipeline.Begin | src/groundtruth/ingest/pipeline.py:112-116 | marks the job running with its hash, or raises |
| Pipeline.IngestPipeline.RequireClean | src/groundtruth/ingest/pipeline.py:278-283 | a dirty tree fails without rollback, a raising status command goes to the handlers |
| Pipeline.IngestPipeline.LookUp | src/groundtruth/ingest/dedup.py:31-35 | the dedup lookup decides between the short-circuit, the pull and drafting |
| Pipeline.IngestPipeline.FinishDuplicate | src/groundtruth/ingest/dedup.py:38-46 | the record of a duplicate points at the earlier job, commit and notes |
| Pipeline.IngestPipeline.Pull | src/groundtruth/ingest/pipeline.py:285-290 | a pull fast-forwards; a conflict fails without rollback, other errors go to the handlers |
| Pipeline.IngestPipeline.ListNotes | src/groundtruth/storage/notes.py:93-108 | lists the paths of all notes, and fails only for a note that does not parse |
| Pipeline.IngestPipeline.DraftNotes | src/groundtruth/ingest/pipeline.py:131-159 | hands a gated batch to the writing stages, or fails for a reason: the context could not be loaded, a note does not parse, or the survey, the reduce step or the organize step failed as the model's answers and the meters say |
| Drafting.DraftAgainst | src/groundtruth/ingest/pipeline.py:138-159 | a batch gated against the notes there are, out of the model's last attempt, or a failure that the model's answers and the meters account for |
| Pipeline.IngestPipeline.WriteArchiveText | src/groundtruth/ingest/archive.py:32-70 | stores the text under its hash unless it is there |
| Pipeline.IngestPipeline.WriteArchiveManifest | src/groundtruth/ingest/archive.py:32-70 | stores the manifest with the touched paths unless it is there |
| Pipeline.IngestPipeline.WriteOneNote | src/groundtruth/ingest/pipeline.py:172-174 | merges one note over what is at its path, or goes to the handlers |
| Pipeline.IngestPipeline.StageAll | src/groundtruth/storage/git.py:91-95 | stages the whole work tree |
| Pipeline.IngestPipeline.CommitBatch | src/groundtruth/storage/git.py:97-100 | one commit of the staged tree that names the job and the source; it raises only what the commit command raised |
| Pipeline.IngestPipeline.SetCommitSha | src/groundtruth/ingest/archive.py:73-78 | writes the first commit's id into the manifest, which must exist |
| Pipeline.IngestPipeline.Amend | src/groundtruth/storage/git.py:107-110 | replaces HEAD by a commit of the staged tree with the same message |
| Pipeline.IngestPipeline.IndexCommit | src/groundtruth/storage/source_index.py:66-68 | records the commit under the text's hash in this vault's index only |
| Pipeline.IngestPipeline.Push | src/groundtruth/ingest/pipeline.py:205-210 | a rejected push is carried into the success record, any other error goes to the handlers |
| Pipeline.IngestPipeline.Succeed | src/groundtruth/ingest/pipeline.py:212-231 | stores the success record, or goes to the handlers |
| Pipeline.IngestPipeline.Unwind | src/groundtruth/ingest/pipeline.py:252-253 | rolls back, then fails the job or re-raises the transient exception |
| Pipeline.IngestPipeline.RecordFailure | src/groundtruth/ingest/pipeline.py:254-263 | stores the FAILED record with stage and message, or raises |
| Drafting.GatedIsAccepted | src/groundtruth/ingest/pipeline.py:142-174 | what the validator accepted is what the transaction needs of a batch: distinct paths, new exactly where nothing was, never the schema, this source alone |
| Git.RollbackCleans | src/groundtruth/storage/git.py:112-115 | rollback gives a clean tree at the same history from any index and work tree |
| Git.FastForwardStaysClean | src/groundtruth/storage/git.py:117-129 | a fast-forward of a clean tree leaves it clean |
| Git.GitRepo.Rollback | src/groundtruth/storage/git.py:112-115 | resets, then removes untracked files; a failure, which is logged, leaves the history alone |
| Git.GitRepo.Clean | src/groundtruth/storage/git.py:84-86 | says whether staged, work and HEAD trees agree |
| Git.GitRepo.PullFfOnly | src/groundtruth/storage/git.py:117-129 | appends fetched commits, or raises a conflict or a transient error with nothing moved; either is logged |
| Job.ReachesIsClosure | src/groundtruth/models/job.py:22-27 | the closed form used for histories is the reflexive transitive closure of the legal moves |
| JobStore.RecordHistory | src/groundtruth/storage/job_store.py:90-118 | over any operations with a clock that does not go back, a kept record's states follow the legal graph, created never changes, started is set at most once |
| JobStore.StampsStayOrdered | src/groundtruth/storage/job_store.py:90-118 | created <= started <= updated <= now, always |
| JobStore.OnlySettledRecordsVanish | src/groundtruth/storage/job_store.py:137-154 | a record disappears by a sweep alone, if and only if it is terminal and older than the retention |
| JobStore.JobStore.Create | src/groundtruth/storage/job_store.py:90-96 | stores a new record, or raises, which is logged, with nothing changed |
| JobStore.JobStore.Update | src/groundtruth/storage/job_store.py:98-118 | stores a legal move with its stamps, or raises, which is logged, with nothing changed |
| JobStore.JobStore.Sweep | src/groundtruth/storage/job_store.py:137-154 | removes exactly the expired terminal records |
| Recovery.RecoverOnStartup | src/groundtruth/jobs/recovery.py:37-75 | every record is reconciled once in id order and reported on the right list; the interrupted vaults on which no git command failed are clean, and each dirty one is reported as rolled back with the first of its interrupted jobs and no other; it raises only when a failed record cannot be stored |
| Recovery.ReconcileAll | src/groundtruth/jobs/recovery.py:47-75 | the loop over the ids: what is reported as rolled back is in order, one per vault, dirty before and clean after; the vaults excused are those whose log of git failures grew |
| Recovery.TurnRolls | src/groundtruth/jobs/recovery.py:77-86 | an interrupted job's turn resets its vault, if git did not fail on it, exactly when the vault was dirty at the start and no interrupted job of it came before |
| Recovery.RecoverySettlesEverything | src/groundtruth/jobs/recovery.py:37-86 | from any state: nothing left running or unreadable, no history moved, interrupted vaults clean unless git raised there, everything else untouched |
| Recovery.RecoveringTwiceIsOnce | src/groundtruth/jobs/recovery.py:37-75 | at a fixed time a second recovery changes nothing |
| Recovery.FailInterrupted | src/groundtruth/jobs/recovery.py:61-68 | rolls the vault back, then fails the record with the restart stage; says whether a dirty vault was reset, and raises only what the store raised |
| Recovery.Rollback | src/groundtruth/jobs/recovery.py:77-85 | rolls back a dirty repository and swallows git errors; it counts as raised if and only if a git command on that repository raised |
| Recovery.RollbackVault | src/groundtruth/jobs/recovery.py:77-86 | rolls back the vault if it is registered and dirty, and no other vault changes |
| Recovery.RecoverOne | src/groundtruth/jobs/recovery.py:51-73 | quarantines, fails, requeues or skips one id, and puts it on the lists its record and its vault call for; only storing a failed record can raise |
| Crashes.CrashThenRecovery | src/groundtruth/jobs/recovery.py:3-7 | a crash at any step and the recovery after it leave, past the clean-tree check, a clean tree at the base or one commit above it and a sound index |
| Crashes.EditsSurviveCrash | src/groundtruth/ingest/pipeline.py:112-119 | unsaved edits survive a crash and the recovery if and only if the job's record was not RUNNING and the status command had not raised |
| Crashes.CrashForgetsCommit | src/groundtruth/ingest/pipeline.py:186-203 | a crash between the commit and its indexing leaves the commit at HEAD and the text not indexed |
| Crashes.ForgottenExactly | src/groundtruth/ingest/pipeline.py:186-203 | ended or killed and recovered, a fresh text has this job's commit above the base and no index entry if and only if the commit succeeded and the indexing did not |
| Witnesses.CrashKeepsCommit | src/groundtruth/ingest/pipeline.py:186-203 | every ingest that can succeed can be killed so that recovery keeps a commit of a text that is not indexed |
| Crashes.CrashCostsEdits | src/groundtruth/ingest/pipeline.py:112-119 | two steps into a run on a dirty tree a crash costs the edits |
| Histories.IndexIsAlwaysSound | src/groundtruth/ingest/pipeline.py:186-203 | over every interleaving of jobs, second runs, edits, foreign commits, crashes and restarts: each indexed hash names a commit of its vault's chain made for that text by the recorded job, and no two vaults have commits of one job |
| Histories.IndexedTextIsNeverCommittedAgain | src/groundtruth/ingest/pipeline.py:121-126 | once indexed, a text keeps its record and the number of commits made for it never changes |
| HistoryProgress.CommittedAgainExactly | src/groundtruth/ingest/pipeline.py:118-231 | where an ingest of the text is possible, some continuation of the history commits the text once more if and only if it is not indexed |
| HistoryJobs.OneCommitPerJob | src/groundtruth/ingest/pipeline.py:110-116 | over every history, second runs included, no job id makes two commits unless it is used again after its record was swept |
| HistoryJobs.NextKeepsOne | src/groundtruth/models/job.py:22-27 | every event but such a reuse keeps one commit per job, and the records of committers past QUEUED |
| HistoryProgress.JobCommitsAgainExactly | src/groundtruth/ingest/pipeline.py:110-116 | a job with a commit makes another, of a fresh text, in some run of it if and only if its record is gone |
| Histories.StepMoves | src/groundtruth/ingest/pipeline.py:94-263 | what one step can do to the history, the index and the records of others |
| Histories.NextKeepsInv | src/groundtruth/jobs/queue.py:1-8 | every event keeps every vault's invariant |
| Histories.RecoveryIsRestart | src/groundtruth/jobs/recovery.py:37-75 | whatever startup recovery does is one restart event of a history |
| HistoryNames.IndexedNotesNameTheirSource | src/groundtruth/ingest/pipeline.py:172-203 | over every history, failed and killed jobs included, each note an index record lists reads back from HEAD and names the record's source, if drafts are sound and foreign commits keep the names |
| Provenances.NotesName | src/groundtruth/storage/notes.py:63-91 | writing a batch names its source in each note and loses no name that was there |
| Queues.QueueIsSafe | src/groundtruth/jobs/queue.py:51-60 | over every interleaving: one live worker per vault at most, jobs leave in submission order and none twice, the invariant holds |
| Queues.NextKeepsInv | src/groundtruth/jobs/queue.py:111-133 | each critical section keeps order, conservation, registration and wakeups |
| Queues.ThreadsApart | src/groundtruth/jobs/queue.py:111-116 | two live workers never serve the same vault |
| Queues.DrainEnds | src/groundtruth/jobs/queue.py:98-107 | with nothing more submitted the workers come to rest within a bound fixed at the start |
| Queues.DrainedIsFinished | src/groundtruth/jobs/queue.py:98-133 | at rest, unless stopped or a worker died, nothing is pending and every job is signalled with its result |
| Queues.WaitingJobsHaveAWorker | src/groundtruth/jobs/queue.py:51-60 | in every reachable state that is not stopping, a vault with waiting jobs has a live worker if and only if none of its workers died since the last submission to it |
| Queues.DeathStrandsTheQueue | src/groundtruth/jobs/queue.py:118-143 | after a worker died, whatever happens but a submission to its vault, the vault has no worker and the jobs behind it stay pending |
| Queues.AJobIsStranded | src/groundtruth/jobs/queue.py:118-143 | two submissions, one death: the second job is pending, nobody can move and the queue was not stopped |
| Workers.WorkOnce | src/groundtruth/jobs/queue.py:118-133 | one turn of a worker: it ends exactly when there is nothing to take, dies on its job, or hands the waiters the terminal record that is in the store; the attempts are runs of the runner, and with an open record either the store failed or that record tells of them |
| Workers.RunAndSettle | src/groundtruth/jobs/queue.py:118-133 | a taken job is run and its outcome settled; with an open record, unless the store fails, the record tells of every attempt |
| Queues.JobQueue.SubmitJob | src/groundtruth/jobs/queue.py:51-60 | appends the job and ensures a worker, or raises when stopping |
| Queues.JobQueue.StartWorker | src/groundtruth/jobs/queue.py:111-116 | starts a worker unless the registered one is alive |
| Queues.JobQueue.NextJob | src/groundtruth/jobs/queue.py:120-125 | takes the first job in line, or unregisters and ends |
| Queues.JobQueue.Settle | src/groundtruth/jobs/queue.py:126-129 | a raising runner's job is failed in the store, or the worker dies, which it does only if the store failed or the record is terminal |
| Queues.JobQueue.ForceFail | src/groundtruth/jobs/queue.py:135-143 | fails an unsettled record; raises with nothing changed, and only if the store failed or the record is terminal |
| Queues.JobQueue.FinishJob | src/groundtruth/jobs/queue.py:130-132 | stores the result and frees the vault |
| Queues.JobQueue.SignalDone | src/groundtruth/jobs/queue.py:133 | sets the job's event |
| Queues.JobQueue.Wait | src/groundtruth/jobs/queue.py:69-75 | a set event means the result is there; an unknown job is an error |
| Queues.JobQueue.Shutdown | src/groundtruth/jobs/queue.py:98-107 | stops the queue unless it is to drain |
| Retries.RunWithRetry | src/groundtruth/jobs/retry.py:38-64 | the first decisive attempt ends it, at most max_retries + 1 are made and each is a run of the runner, and k retries sleep base * (2^k - 1) in all |
| Retries.RecordResult | src/groundtruth/jobs/retry.py:89-106 | stores the terminal record that names attempts and errors; it raises only if the store failed, or after failing attempts on a terminal record |
| Retries.RetryingRun | src/groundtruth/jobs/retry.py:67-106 | what is returned is the terminal record as stored, naming the attempts, which are runs of the runner, and why each failed; with a record to settle, the only other end is that the store failed to write it |
| ServiceRuns.SecondRunIsRefused | src/groundtruth/ingest/pipeline.py:110-116 | a run on a record that is not queued raises and touches nothing |
| HistoryProgress.IngestsExactlyWhenQueued | src/groundtruth/ingest/pipeline.py:110-116 | where an ingest of a fresh text is possible, some run of the job commits it if and only if the job has no record or a QUEUED one |
| Witnesses.TransientFailureIsFinal | src/groundtruth/ingest/pipeline.py:112-253 | on any clean vault a transient exception while notes are pulled or drafted is re-raised with the vault as it was and the record RUNNING, and every later run of the job touches nothing |
| ServiceRuns.Services.RunJob | src/groundtruth/api/services.py:166-191 | with a request, the ingest of it runs once to its end, its exceptions being those its components logged, and the request is dropped, unless the configuration cannot be loaded; without one the job is failed and nothing ingested; a record to settle is returned terminal as stored, or still to settle when this raises |
| ServiceRuns.Services.RunAttempts | src/groundtruth/jobs/retry.py:38-64 | the retry policy around the service's runner: one attempt at most ingests, the vault and the logs are what it left, and if it raised no attempt succeeds; with a request, none ingests only if the configuration never loads |
| ServiceRuns.Services.RetryingRunJob | src/groundtruth/jobs/retry.py:67-106 | the service's retrying runner: the terminal record stored tells of every attempt, one of which at most ingested, and none only if the configuration never loads; for a job whose ingest raised it is FAILED, and only the store can make this raise on a record to settle |
| ServiceRuns.Services.OrphanFail | src/groundtruth/api/services.py:193-203 | fails a job whose request is gone, unless the store fails or the record is terminal |
| Organizing.DraftBatch | src/groundtruth/ingest/pipeline.py:138-154 | a returned batch is gated and comes from the last of the attempts the model's answers amount to; none is returned only if the survey, the reduce step or the organize step failed as those answers and the meters say; one ingest asks for at most 5M + A + 11 completions |
| Organizing.OrganizeAndValidate | src/groundtruth/ingest/pipeline.py:354-466 | whatever is returned passed the validator as it is, is of the last attempt's calls alone, and was repaired only if that was attempt A and rejected for its links; it fails only when the budget is spent, the model refuses, stamping fails, or attempt A wrote nothing or what neither the gate nor the repair lets through, all attempts before having written nothing or been rejected; at most M + A and 2M completions |
| Organizing.AcceptedIsReturned | src/groundtruth/ingest/pipeline.py:427-464 | an attempt whose stamped batch the gate accepts is never answered by a failure |
| Organizing.RunOrganizeAgent | src/groundtruth/ingest/pipeline.py:494-516 | one attempt: the calls the model answered with are those charged, the buffer is theirs, at most one completion more than calls; it fails only if the model refuses or the budget is spent |
| Organizing.GatedBatch | src/groundtruth/ingest/pipeline.py:427-464 | a returned batch has distinct paths, new ones exactly where nothing was, no schema, text bodies and stamped frontmatter |
| Organizing.RepairKeeps | src/groundtruth/ingest/pipeline.py:468-492 | the repair changes one body and nothing else |
| Organizing.RepairClearsLinks | src/groundtruth/ingest/pipeline.py:455-463 | the repaired note has no dangling link if and only if the dangling links that the repair adds and a new fence reveals are those one hides |
| Organizing.DowngradeDanglingLinks | src/groundtruth/ingest/pipeline.py:468-492 | downgrades the dangling links of the rejected note and lists what was stripped |
| Organizing.StampNotes | src/groundtruth/ingest/pipeline.py:411-425 | every note gets the system's title, dates and source and the tags its own replies give, in order; it fails only as the replies say |
| Organizing.TagNote | src/groundtruth/ingest/pipeline.py:317-352 | the tags of the first usable of two replies; it fails if and only if a reply is a refusal, both are unusable, or the body is not text |
| Organizing.ParseTags | src/groundtruth/ingest/prompts/__init__.py:46-62 | tags exactly when some line is not empty and all such lines are normalized; each once |
| Organizing.RunSurvey | src/groundtruth/ingest/pipeline.py:292-310 | a bounded survey: its text, or a retrieval failure when the budget is spent by calls the model made or by the clock, the agent failed or did not converge; a foreign exception passes |
| Organizing.RunReduce | src/groundtruth/ingest/pipeline.py:312-315 | one completion; succeeds exactly when the reply has a line that is not empty, with those lines in order, and fails otherwise as the reply says |
| Agent.RunAgent | src/groundtruth/retrieval/agent.py:89-138 | every call of a turn is answered once in order; how it ended is what the model said last, the budget or the hard cap; with charging tools it converges within charged calls + 1 completions and what was charged is what the model asked for |
| Agent.RunCalls | src/groundtruth/retrieval/agent.py:123-129 | each call of one turn is answered in order, and charged if its tool set charges it, or the budget is spent |
| Budgets.Budget.Exhausted | src/groundtruth/retrieval/budget.py:90-98 | true from the first time a limit is reached, and never again false |
| Agent.ReadOnlyTools.Dispatch | src/groundtruth/retrieval/tools.py:105-120 | a survey call that names a tool and has its argument is charged once unless the budget is spent, and no other is |
| WriteTools.WriteTools.Dispatch | src/groundtruth/ingest/write_tools.py:199-208 | a call is charged and buffered, or refused once the budget is spent |
| WriteTools.EveryBufferIsWellBuffered | src/groundtruth/ingest/write_tools.py:156-197 | for every sequence of calls paths are distinct, new exactly where nothing exists, and created ones derive from folder and title |
| WriteTools.BufferedExactly | src/groundtruth/ingest/write_tools.py:156-197 | for every sequence of calls a path is in the buffer if and only if some call resolves to it: a create, or an update of a path that exists |
| WriteTools.BufferHoldsTheFirsts | src/groundtruth/ingest/write_tools.py:156-197 | for every sequence of calls the entries are those of the first call for each path, in the order of those calls, each with the body of its own call, cleaned |
| WriteTools.WriteTools.CreateNote | src/groundtruth/ingest/write_tools.py:156-184 | buffers a create, or an update when the path exists, or nothing |
| WriteTools.WriteTools.UpdateNote | src/groundtruth/ingest/write_tools.py:186-197 | buffers an update of an existing path, once |
| Validator.Validate | src/groundtruth/ingest/validator.py:207-233 | acceptance if and only if the batch meets the requirements as they are stated, and otherwise its first violation in order |
| Validator.CheckBatch | src/groundtruth/ingest/validator.py:55-71 | the first batch violation: empty, too many, repeated path |
| Validator.AcceptedExactly | src/groundtruth/ingest/validator.py:207-233 | acceptance if and only if the batch is neither empty nor too long, paths are distinct, and every note has a substantial text, valid frontmatter, a size within the limit, links that reach a note and an allowed, sanitized, derived path that is new exactly where nothing is; a rejection names the first violation |
| Validator.DeadRules | src/groundtruth/ingest/validator.py:55-204 | for every sequence of tool calls, stamped: empty batch, repeated path, containment, collision, missing target, underived create and frontmatter are never the rejection |
| Validator.CreatePassesShape | src/groundtruth/ingest/validator.py:121-155 | a created note is already sanitized and derived as the validator re-derives it |
| LinkTheorems.ScannersAgree | src/groundtruth/ingest/links.py:32-107 | the extractor blanks exactly the lines the rewriter copies as code |
| LinkTheorems.DowngradeIsExact | src/groundtruth/ingest/links.py:56-107 | after a downgrade the links are the original ones minus the wanted, in order, when every [[ outside code starts a link within its line and segment and no rewritten line becomes a fence |
| LinkExactness.DowngradeBalances | src/groundtruth/ingest/links.py:56-107 | for every body: the links after a downgrade and those a new fence hides are the unwanted ones, the added and the revealed ones, each as often |
| LinkExactness.RightUpToOrder | src/groundtruth/ingest/links.py:56-107 | for every body: the links left are the right ones, each as often, if and only if what is hidden is what is added and revealed |
| LinkExactness.ClearsExactly | src/groundtruth/ingest/links.py:120-131 | for every body: the re-run link check is clean if and only if the dangling links added and revealed are those hidden |
| LinkExactness.NoFenceHidesNothing | src/groundtruth/ingest/links.py:68-107 | nothing is hidden or revealed unless a rewritten line becomes a fence marker |
| LinkExactness.DowngradeConserves | src/groundtruth/ingest/links.py:56-107 | without a new fence the links after a downgrade are the unwanted ones and the added ones, and in the original order if none is added |
| LinkExactness.ExactUnlessAdded | src/groundtruth/ingest/links.py:56-107 | without a new fence the links after a downgrade are the original ones minus the wanted, in order, if and only if none is added |
| LinkExactness.ClearsUnlessAdded | src/groundtruth/ingest/links.py:120-131 | without a new fence the re-run link check is clean if and only if every added link resolves |
| LinkExactness.CrossingStays | src/groundtruth/ingest/links.py:68-107 | a link over the end of a segment or line is not rewritten, whatever is rewritten around it |
| LinkExactness.NothingAdded | src/groundtruth/ingest/links.py:56-107 | nothing is added when every [[ outside code starts a link within its line and segment |
| LinkExactness.ReportsExactly | src/groundtruth/ingest/links.py:68-107 | for every body: the targets reported are those of the wanted links found in each text segment outside code, in order, and none is reported if and only if nothing changes |
| LinkTheorems.DowngradeClearsDangling | src/groundtruth/ingest/links.py:120-131 | on such a text the re-run link check is clean |
| LinkTheorems.DowngradeShrinks | src/groundtruth/ingest/links.py:68-107 | nothing wanted is the identity, and each rewritten link makes the body at least four characters shorter |
| LinkTheorems.SpansSurvive | src/groundtruth/ingest/links.py:102-105 | code spans of a line are kept verbatim by the rewriter and dropped by the extractor |
| LinkTheorems.LoneLinkDowngrades | src/groundtruth/ingest/links.py:76-107 | a wanted link alone on its line is downgraded to its stripped alias if that is not empty, and to its stripped target otherwise |
| LinkTraps.NestedLinkSurvivesDowngrade | src/groundtruth/ingest/links.py:68-107 | a link inside another pair of brackets is still a link after its own downgrade |
| LinkTraps.RewriteOpensAFence | src/groundtruth/ingest/links.py:68-107 | a target that is a fence marker hides the links below it |
| LinkScanner.StripCodeLines | src/groundtruth/ingest/links.py:32-53 | the line loop computes the text with code removed |
| LinkScanner.ExtractLinks | src/groundtruth/ingest/links.py:56-65 | every match with a target, in order |
| LinkScanner.DowngradeLinks | src/groundtruth/ingest/links.py:68-107 | the rewritten body and the targets in first-seen order |
| LinkScanner.Index | src/groundtruth/ingest/links.py:110-117 | the strings a link may use to reach the notes |
| LinkScanner.CheckLinks | src/groundtruth/ingest/links.py:120-131 | the links that resolve to nothing, in order |
| Frontmatter.ParseAfterRender | src/groundtruth/storage/frontmatter.py:47-100 | for any body, parsing the rendering gives the note back if every tag and hash reads as a string, and fails otherwise |
| Frontmatter.HeaderRoundTrip | src/groundtruth/storage/frontmatter.py:47-100 | the five header lines read back as the frontmatter |
| Frontmatter.NumericTagIsUnreadable | src/groundtruth/storage/frontmatter.py:47-100 | a note tagged with a number is written and never parses |
| Notes.ReadAfterWrite | src/groundtruth/storage/notes.py:50-91 | what write returns is what read gives if and only if the note is readable |
| Notes.NoteRepository.Write | src/groundtruth/storage/notes.py:63-91 | stores the note merged over what is there, or raises with nothing changed: only if the path leaves the vault, what is there does not parse or the file system refuses |
| Notes.NoteRepository.Read | src/groundtruth/storage/notes.py:50-54 | the parsed note, exactly when it is contained, there and parses |
| Notes.NoteRepository.ExistingPaths | src/groundtruth/storage/notes.py:93-108 | all paths, exactly when every note parses |
| Notes.ProvenanceOverHistories | src/groundtruth/storage/notes.py:31-91 | after any writes a note's sources are the first occurrences of all hashes written to it, with its first created and last content |
| Notes.SourcesOnlyGrow | src/groundtruth/storage/notes.py:31-91 | later writes extend the sources list and keep created |
| Notes.UnreadableNoteIsStuck | src/groundtruth/storage/notes.py:63-108 | an unreadable note is never updated again and fails every later listing |
| Dedupes.DedupeList | src/groundtruth/storage/notes.py:31-38 | keeps each hash at its first occurrence |
| Dedupes.DedupeAbsorbs | src/groundtruth/storage/notes.py:31-38 | merging into a merged list is merging into the originals |
| Dedupes.DedupeIsFirstOccurrence | src/groundtruth/storage/notes.py:31-38 | each first occurrence is kept, at the position the number of first occurrences before it gives |
| Dedupes.KeptIsFirstOccurrence | src/groundtruth/storage/notes.py:31-38 | each kept element is a first occurrence, with as many before it |
| Utf8.ClampIsLongestPrefix | src/groundtruth/retrieval/budget.py:54-58 | the longest prefix whose encoding (section 3 of RFC 3629) fits, flagged exactly when it is proper |
| Utf8.DecodeEncode | src/groundtruth/retrieval/budget.py:54-58 | decoding undoes encoding |
| Paths.SanitizeIsIdempotent | src/groundtruth/storage/paths.py:56-102 | a sanitized title sanitizes to itself, through truncation and digest |
| Paths.StemFits | src/groundtruth/storage/paths.py:92-102 | every stem takes at most 200 bytes |
| Paths.StemsTellTitlesApart | src/groundtruth/storage/paths.py:56-102 | titles that fit share a stem only if they are one string in NFC, overlong ones only if their digests agree, and one of each only if the one that fits ends in the other's digest |
| Vocabularies.ScanTags | src/groundtruth/ingest/vocabulary.py:59-71 | counts every tag of every note that parses, in any order of reading |
| Vocabularies.CountedExactly | src/groundtruth/ingest/vocabulary.py:59-71 | an empty tree has no tags, and one more file adds those of its frontmatter if it is a note that parses and is not the schema, and otherwise none |
| Vocabularies.Rank | src/groundtruth/ingest/vocabulary.py:50-56 | sorted by count and tag, each tag once, every count kept |
| Vocabularies.RankingIsUnique | src/groundtruth/ingest/vocabulary.py:50-56 | one counter has one ranking and one ranking one counter |
| Vocabularies.CutToBudget | src/groundtruth/ingest/vocabulary.py:74-86 | the longest ranked prefix that fits, at least one tag; kept and omitted make the total |
| Vocabularies.VocabularyCache.Derive | src/groundtruth/ingest/vocabulary.py:93-122 | the cache is used exactly when it has an entry for HEAD; a right entry answers as a scan of HEAD would, anything else is a scan of the work tree, and the entry is right afterwards exactly when it was used or the tree has HEAD's tags; it raises only what git raised |
| Vocabularies.FreshScanIsUnique | src/groundtruth/ingest/vocabulary.py:93-122 | two such answers for a tree differ at most in where they came from |
| Vocabularies.CacheStaysRight | src/groundtruth/ingest/vocabulary.py:3-8 | commits, amends, pulls, edits and rollbacks never make a cache entry wrong |
| Vocabularies.DirtyScanPoisons | src/groundtruth/ingest/vocabulary.py:105-121 | a scan of an unclean tree spoils the cache if and only if its tags are not HEAD's |
| Vocabularies.CacheIsRightExactly | src/groundtruth/ingest/vocabulary.py:93-122 | over any sequence of repository operations and answers the cache is right throughout if and only if no answer was scanned from a tree whose tags are not HEAD's |
| Vocabularies.CleanAnswersAreFresh | src/groundtruth/ingest/vocabulary.py:3-8 | after any such history without a bad scan, every answer on a clean tree is that of a fresh scan, cached or not |

## Left out

- LinkTheorems.DowngradeIsExact: a sufficient condition on the text alone; LinkExactness.ExactUnlessAdded has the exact one.
- LinkTheorems.DowngradeClearsDangling: under the same condition; LinkExactness.ClearsUnlessAdded has the exact one.
- LinkExactness.ExactUnlessAdded: about the order of the links where no rewritten line becomes a fence marker; LinkExactness.RightUpToOrder and LinkExactness.ClearsExactly are about every body.
- Histories.IndexIsAlwaysSound: a job id belongs to one vault, the one of its first run.
- Histories.IndexedTextIsNeverCommittedAgain: while the vault stays registered. Deregistering one drops its index (`src/groundtruth/api/vaults.py:81`), after which its texts are fresh again.
- Workers.WorkOnce: one thread's turn with nobody else at the queue meanwhile; the interleavings are those of the queue's events.
- Queues.JobQueue.Wait: a look at the event; blocking and the timeout's length are not modelled.
- ServiceRuns.Services.RunJob: for one vault; loading the configuration can only raise.
- Logs of failures: a component may fail at any call, and one call adds at most one failure. Why it failed is not modelled beyond the exception's kind.
- Pipeline.IngestPipeline.DraftNotes: loading the schema and the vocabulary can only raise; their text does not matter to the batch's guarantees.
- Pipeline.IngestPipeline.ListNotes: note files with an unsafe path and symbolic links, which a listing skips, are taken not to be there.
- JobStore.JobStore.Sweep: a file's modification time is taken to be its last update.
- Validator.Validate: the body-substance heuristic is an arbitrary predicate.
- Frontmatter.ParseAfterRender: the title line's scalar syntax is a parameter that is assumed to round-trip for the title; YAML outside the five keys that are printed is not modelled.
- Paths.SanitizeIsIdempotent: Unicode tables and the digest are parameters; the laws used of them are hypotheses for the one title.
- Recovery.RecoverOnStartup: a record that cannot be read is quarantined whatever is wrong with it; an operating-system error while reading is not modelled.
- Repositories: each belongs to one vault, has a first commit, and ignores no file. A failing pull moves nothing. User edits during a job, rewritten history and `update_schema` beside a worker are outside the queue's serialization.
- Hashes: two texts with one hash are one text.
- Dates: the date while notes are written is fixed within a run. Token counts, timings and log output are not modelled.
- The prompts' text, the HTTP and MCP adapters, the web views, configuration, authentication, redaction, and the model transport with its own retry loop.
- The answer path (`recovery/grounding.py`, the query tools' output and its clamping by match count): it would only add easy members.
- `position_of` and `depth` of the queue: observability only. `position_of` counts a queued job from one even when nothing runs.

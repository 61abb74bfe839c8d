# Verified model of the Connect import service

Connect imports files from S3 into LucidLink. This project models the parts of it whose correctness
depends on more than one function: background import jobs that run beside user requests, redeliveries
and crashes; event-driven imports from SQS under a distributed lock; the remote folder tree that several
workers grow at once; sessions, roles and the last administrator; the credential cache; the S3 listing;
the notification edits; and three small pieces of the deployment tooling (the `terraform.tfvars` reader
and writer, the subprocess stream merger, and the Redis client of the queue-depth metric).

Everything is proved by Dafny 4.11: `dafny verify dfyconfig.toml`.

## How the code is modelled

* **Concurrency.** `ImportJobs` (worker, wrapper, queue, users, timeout job), `SqsSweep` (lock, sweeps,
  messages, cleanup, clock; its exact bounds are in `SqsBounds`), `Accounts` (HTTP requests) and `RunStream`
  (two drain tasks and a consumer) are state machines: a `Step` function for one action and a `Run` over any
  list of actions. One committed database session, one Redis command, one HTTP request or one queue
  operation is one step. Every action may come at any time; a crash may hit a worker between any two steps.
  What is claimed of a machine holds after every list of actions. `HandedKeys` adds to the worker which keys
  reached the importer, and `JobOutcomes` what cancels, deletions, exceptions and crashes lead to.
  `SqsRefinement` shows that a sweep of the `Poller` class is a run of one worker of `SqsSweep`.
* **In-place code.** What the source updates in place is a class (`JobRepository`, `JobQueue`,
  `Idempotency`, `Poller`, `Remote`, `AuthService`, `Bucket`, `UserSession`, `Console`) or a method with a
  loop (`RunBatches`, `ListObjects`, `Parse`, `Render`, `RespBulk`, `ReadLine`, `CreateDirectories`). Their
  contracts give the whole new state through functions, most of them the very functions the state machines
  step with, and the lemmas say what those functions mean.
* **The outside.** boto3, httpx, Redis and PostgreSQL appear as tables, a folder tree, a source of messages
  and answers of calls. Which call fails is a parameter, or a nondeterministic choice where other clients
  act at the same time.
* **Numbers.** Ids and counters are unbounded. Times are real or whole seconds. The progress percentage is
  computed over the reals.

## What was found

These are facts about the code as it stands. Each is proved, with the exact condition under which the
intended property holds.

* A notification edit writes back only truthy parts of the configuration. S3 reports enabled EventBridge
  delivery as an empty dictionary, so either edit turns it off (`EventBridgeLost`, `EventBridgeKept`).
* The check that keeps an administrator from demoting or deleting itself compares strings, while the target
  is parsed as a UUID. The service loses its last administrator exactly when the only one names itself in
  another spelling (`LastAdminLost`, `SpellingCanUnseat`).
* No event is imported twice exactly when no sweep may last longer than the lock lives, and the retention of
  the queue and the longest sweep together are at most the seven days after which events are cleaned up
  (`ImportBoundIsExact`). The worker allows a job an hour (app/services/worker.py:405) where the lock lives a
  minute, and a queue the application did not create may have any retention. The first half alone decides
  whether two workers can be inside (`LockBoundIsExact`).
* Clearing the history makes a second import possible exactly when the message of an event already taken up can
  still arrive (`ClearingBoundIsExact`).
* The worker's next write takes a user's cancel back, exactly when no check of the row comes before that write
  (`CancelHoldsExactly`): during a batch, before the folders are made, or before the job is started.
  Deleting a running job does not stop its batches: one is handed over exactly when keys are left and the row
  does not say "cancelled" (`CheckDecides`).
* A job whose worker crashed stays as the crash left it, however often it is delivered, until a user or the
  timeout job acts on its row (`CrashedJobIsStuck`).
* `ensure_structure` raises on the empty path and on no other (`EnsureStructure`, `FolderPartsFails`).
* Reading rendered tfvars gives the same map back exactly for the plain maps of `RoundTrip`.
* `run_stream` waits for ever exactly when the command prints a line over the limit of `asyncio`'s reader: the
  drain task raises and its marker never comes (`StuckMeansExited`, `LongLineHangs`).
* RESP lengths count characters and not bytes: the server receives the arguments exactly when all of them
  are ASCII (`ServerReceives`). A reply is read whole however it is split exactly when it is one line
  (`ReadWholeIffOneLine`).
* The import worker and the poller read the importer's answers alike exactly when the answer is not a 409
  without "already exists" in its text, which the worker skips and the poller records as a failure
  (`ReadAlike`).

## Model

| member | source | states |
|---|---|---|
| ImportBatches.TallyCounts | app/services/worker.py:243-263 | the three counters of a batch are the numbers of answers of each kind, each answer counted once |
| ImportBatches.TallyCovers | app/services/worker.py:265-268 | when no call was aborted, new, skipped and failed add up to the keys submitted |
| ImportBatches.TallyConcat | app/services/worker.py:265-268 | totals carried from batch to batch are the tally of everything answered so far |
| ImportBatches.AnswerCounts | app/services/worker.py:243-263 | what each kind of answer adds to the tally, by its code and text: a raised call failed, 200 and 201 are new, 409 and an existing file are skipped |
| ImportBatches.Percent | app/services/worker.py:270 | the percentage is the hundredfold quotient rounded down, stays in 0..100 and is 100 exactly when every key is handled |
| ImportBatches.PercentNeverFalls | app/services/worker.py:270-280 | the percentages reported over one run never fall |
| ImportBatches.TallyBatch | app/services/worker.py:243-263 | the classifying loop computes the tally, and fails exactly when a result is neither an exception nor an answer |
| ImportBatches.RunBatches | app/services/worker.py:225-301 | keys are handed over once and in order; a cancelled check leaves whole batches and nothing after it; an exception comes exactly from an aborted call; every progress row is true to the answers so far |
| JobStore.JobRepository.CreateJob | app/db/repositories/job.py:48-63 | inserts one pending row under an id never used before |
| JobStore.JobRepository.CancelJob | app/db/repositories/job.py:65-85 | sets "cancelled" exactly when the row exists and the owner agrees, whatever the status, and reports it |
| JobStore.JobRepository.UpdateStatus | app/db/repositories/job.py:87-91 | sets the status and the given columns of one row, keeps the others, and returns the row or nothing |
| JobStore.JobRepository.TimeoutStale | app/db/repositories/job.py:93-107 | fails exactly the running rows started before the cutoff, counts them, and leaves none |
| JobStore.JobRepository.DeleteForUser | app/db/repositories/job.py:109-124 | removes the row exactly when the owner agrees |
| JobStore.JobRepository.ClearCompletedForUser | app/db/repositories/job.py:126-141 | removes exactly the owner's rows in a terminal status and counts them |
| JobStore.JobQueue.AddJob | app/services/job_queue.py:98-134 | inserts one row and, with a pool, sends it once, after the commit: a send that raises leaves the row pending; no row is ever sent twice |
| JobStore.Idempotency.MarkProcessed | app/db/repositories/job.py:148-168 | inserts if absent and reports whether it did; an existing record is untouched |
| JobStore.Idempotency.Invoke | app/services/idempotency.py:43-83 | the body runs exactly when the id is missing, or new and its claim committed; what raises and what is recorded, with each of the claim, the body and the mark failing or not |
| ImportJobs.ClaimKeeps | app/services/idempotency.py:55-71 | the atomic claim makes a body the only one working on its row |
| ImportJobs.WriteKeeps | app/services/worker.py:76-79 | each committed write of a worker keeps the invariant tying its position and counters to its row |
| ImportJobs.ReadKeeps | app/services/worker.py:218-237 | so does each check of the status, at each of its outcomes |
| ImportJobs.AnswersKeep | app/services/worker.py:239-268 | so do the answers of a batch, one of which may abort it |
| ImportJobs.RaiseKeeps | app/services/worker.py:134-145 | so does an exception anywhere, inside or outside the try block |
| ImportJobs.InterferenceKeeps | app/db/repositories/job.py:65-141 | so do cancel, delete, clear-completed and the timeout job, between any two steps of a worker |
| ImportJobs.StepKeeps | app/services/worker.py:61-318 | every step of every party keeps the invariant |
| ImportJobs.RunKeeps | app/services/worker.py:61-318 | so does every run |
| ImportJobs.CompletedRowsBalance | app/services/worker.py:188-306 | after any run every "completed" row has completed + failed == total, early breaks included |
| ImportJobs.BodiesStartOnce | app/services/idempotency.py:43-83 | over any run the body starts at most once per ARQ id, and no row is ever worked on by two bodies |
| ImportJobs.FailedMarksAreEarned | app/services/idempotency.py:70-83 | "failed" is recorded only for an id whose body started and raised |
| ImportJobs.RedeliveryIsSkipped | app/services/idempotency.py:63-68 | delivering a claimed id again changes nothing but the delivering task itself |
| ImportJobs.UndisturbedJobCompletes | app/services/worker.py:61-318 | a job added, delivered and left alone ends "completed" with exactly the importer's counts, every key handed over in order, and nothing else differs |
| HandedKeys.BatchKeepsHanded | app/services/worker.py:232-241 | a batch begins where the last one ended, and no other body is in the way |
| HandedKeys.WriteCompletes | app/services/worker.py:188-193 | the two writes of "completed" are made when exactly the total was handed over |
| HandedKeys.StepKeepsHanded | app/services/worker.py:61-318 | every step of every party keeps the keys handed over in order, and in step with the task and the row |
| HandedKeys.NoKeyTwice | app/services/worker.py:232-241 | over any run the keys of a job go to the importer in order, none twice and none skipped, however often the job is delivered and wherever its worker crashes |
| HandedKeys.CompletedMeansAllHanded | app/services/worker.py:188-306 | after any run, a "completed" row had all of its keys handed over, each exactly once |
| JobOutcomes.OnlyABatchHandsOver | app/services/worker.py:232-241 | keys are handed over only by a check that finds keys left and no "cancelled", and then the next twenty-five or what is left |
| JobOutcomes.CheckDecides | app/services/worker.py:232-241 | and that check hands a batch over exactly then, a deleted row included |
| JobOutcomes.NoKeyWhileCancelled | app/services/worker.py:236-237 | over any run no key of a job is handed over while its row says "cancelled" |
| JobOutcomes.CancelledTaskLeaves | app/services/worker.py:218-225 | a task that checks a cancelled row leaves without a further write or key |
| JobOutcomes.CancelHoldsExactly | app/services/worker.py:184-306 | a cancel holds on all undisturbed runs of the worker if and only if a check comes before its next write |
| JobOutcomes.NewJobIsPending | app/db/repositories/job.py:48-63 | a new row is pending with zero counters |
| JobOutcomes.RequestsSay | app/db/repositories/job.py:65-141 | the requests of the machine change exactly the rows of the owner, done or running as each demands |
| JobOutcomes.WritesSay | app/services/worker.py:76-306 | the status and the columns each write of the worker leaves, and that it leaves other rows alone |
| JobOutcomes.DeletedJobIsNotStarted | app/services/worker.py:71-74 | a job deleted before it is fetched is not worked on |
| JobOutcomes.RaisedJobFails | app/services/worker.py:134-145 | an exception anywhere in the try block ends the job "failed", and the task is gone |
| JobOutcomes.AbortedJobFails | app/services/worker.py:253-263 | so does an aborted call of a batch |
| JobOutcomes.EscapedIsMarked | app/services/idempotency.py:70-83 | an exception of the body elsewhere is recorded for the ARQ id and leaves the row |
| JobOutcomes.CrashedJobIsStuck | app/services/idempotency.py:55-71 | after a crash row and keys of the job stay as they are over any run without requests on it |
| SqsSweep.LockStep | app/services/sqs_poller.py:50-69 | while sweeps end in time, every sweep owns the lock, at each step |
| SqsSweep.OneSweepAtATime | app/services/sqs_poller.py:45-69 | if every sweep ends within a limit that is at most the lock's lifetime, at most one worker is ever inside |
| SqsBounds.LockBoundIsExact | app/services/sqs_poller.py:45-69 | and that limit is exact: two workers are kept apart on all runs if and only if no sweep may outlive the lock |
| SqsSweep.OthersCannotRelease | app/services/sqs_poller.py:56-69 | no step of another worker, and no timing, takes the lock from its holder before it expires |
| SqsSweep.GoneStays | app/services/sqs_poller.py:180 | a message that no sweep has and none can receive any more never reaches one |
| SqsSweep.CoveredStays | app/db/repositories/datastore.py:424-431 | within the bounds the cleanup never uncovers an event whose message can still arrive |
| SqsSweep.InsertStep | app/services/sqs_poller.py:249-264 | committing the row before the import keeps every event covered |
| SqsSweep.ImportStep | app/services/sqs_poller.py:337-338 | an import of a recorded event is its first |
| SqsSweep.ClearStep | app/db/repositories/datastore.py:433-443 | so does a clearing of the history that only concerns events whose messages cannot arrive |
| SqsSweep.StepKeeps | app/services/sqs_poller.py:81-167 | every step of every party, with sweeps within the limit, keeps the invariant of lock, tables, sweeps and imports |
| SqsSweep.NothingLostStep | app/services/sqs_poller.py:190-222 | whatever the timing, each step keeps the events of rows, of finished loops and of deleted messages among those recorded |
| SqsSweep.RecordedHadRow | app/services/sqs_poller.py:249-264 | an event recorded had a committed row at some moment of the run |
| SqsSweep.NoEventIsLost | app/services/sqs_poller.py:183-222 | after any run, each create event of a deleted message had a committed row, across crashes, failures, cleanups, queue removals and overrunning sweeps |
| SqsSweep.AtMostOneImport | app/services/sqs_poller.py:247-338 | with sweeps within the limit and no clearing that does harm, an event is imported at most once over any redeliveries, crashes and cleanups |
| SqsSweep.CreatedQueuesImportOnce | app/services/sqs_service.py:306-330 | so it is for every message of a queue created with the four-day retention |
| SqsBounds.UnseenEventIsImported | app/services/sqs_poller.py:247-338 | an event without a row, or with expired rows only, is imported by the next undisturbed sweep |
| SqsBounds.CrashKeepsOut | app/services/sqs_poller.py:45-53 | after a crash nobody enters before the lock expires |
| SqsBounds.CleanupIsExact | app/db/repositories/datastore.py:424-431 | the cleanup removes exactly the rows more than seven days old |
| SqsBounds.RemovalTakesRows | app/db/models.py:310-312 | removing a queue removes exactly the rows of its events |
| SqsBounds.ImportBoundIsExact | app/services/sqs_poller.py:45-69 | for any retention and any limit on the sweeps, "at most once" holds on all runs within them if and only if the limit is at most the lock's lifetime and retention plus limit at most seven days |
| SqsBounds.RetentionBoundIsExact | app/db/repositories/datastore.py:424-431 | with sweeps as long as the lock lives: if and only if retention plus one lock lifetime is at most seven days |
| SqsBounds.OverrunImportsTwice | app/services/sqs_poller.py:247-264 | a run that imports an event twice once sweeps may outlive the lock, for every retention |
| SqsBounds.LongRetentionImportsTwice | app/db/repositories/datastore.py:424-431 | a run that imports an event twice, for every retention over the bound |
| SqsBounds.HarmImportsTwice | app/db/repositories/datastore.py:433-443 | after a clearing that does harm, from any reachable state, a continuation that imports an event again |
| SqsBounds.ClearingBoundIsExact | app/db/repositories/datastore.py:433-443 | in any reachable state a clearing does no harm if and only if no continuation imports an event twice |
| SqsBounds.ClearedHistoryImportsTwice | app/db/repositories/datastore.py:433-443 | from the start, a run that imports an event twice after the history was cleared, for every retention |
| SqsBounds.OverrunLetsTwoIn | app/services/sqs_poller.py:45-53 | a run with two workers inside once a sweep outlives the lock |
| SqsPoller.Poller.ExistsForMessage | app/db/repositories/datastore.py:340-355 | true exactly when a row of this message, queue and key exists |
| SqsPoller.Poller.UpdateStatus | app/db/repositories/datastore.py:357-378 | changes the status of one row and nothing else |
| SqsPoller.Poller.ImportRecorded | app/services/sqs_poller.py:266-410 | the final status of the row for every outcome, whether the importer was called, and which outcomes raise |
| SqsPoller.ReadAlike | app/services/sqs_poller.py:340-372 | the poller and the import worker read an answer alike if and only if it is no 409 without "already exists" |
| SqsPoller.CreateKinds | app/services/sqs_service.py:553-561 | the four kinds of events that create an object |
| SqsPoller.StatusMeans | app/services/sqs_poller.py:266-410 | which fates leave which status: completed and skipped are answers of the importer, unfinished rows come from exceptions |
| SqsPoller.CountsMeans | app/services/sqs_poller.py:194-198 | which fates raise, for events seen before and for new ones |
| SqsPoller.ImportIsMade | app/services/sqs_poller.py:337-338 | the importer is called, once and for this event, exactly when the event is new and the processing gets that far |
| SqsPoller.Poller.ProcessEvent | app/services/sqs_poller.py:227-410 | a new event gets one row with its final status and at most one import, an event with a row is left alone (`AfterProcessing`); raises exactly when the event does not count |
| SqsPoller.Poller.RecordFailure | app/services/sqs_poller.py:197-215 | the caller's handler adds one failed row of its own |
| SqsPoller.Poller.HandleEvent | app/services/sqs_poller.py:190-215 | with the caller's handler, leaves exactly the tables of `AfterEvent` and counts the event exactly when its processing did not raise |
| SqsPoller.EventKeeps | app/services/sqs_poller.py:190-215 | afterwards the event has a row unless recording the failure failed as well; no other event gained one, and none is imported twice or without a row |
| SqsPoller.FailureIsRecorded | app/services/sqs_poller.py:201-215 | an event whose processing raised gets a last row that says "failed" |
| SqsPoller.CountIsOfCreates | app/services/sqs_poller.py:190-196 | at most the create events are counted, and all of them when nothing raises |
| SqsPoller.Poller.ProcessMessage | app/services/sqs_poller.py:183-215 | the loop over the events does what `AfterEvents` says, up to the first failure that cannot be recorded |
| SqsPoller.EventsKeep | app/services/sqs_poller.py:183-215 | then exactly the create events of the message have joined those with a row, and the count is that of the create events whose processing did not raise, those seen before included |
| SqsPoller.Poller.PollQueue | app/services/sqs_poller.py:170-224 | the loop over the messages does what `AfterMessages` says and deletes the messages it says |
| SqsPoller.SweepKeeps | app/services/sqs_poller.py:170-224 | that is: messages are deleted in order, each only when every create event in it has a row, none after a failed recording, and all otherwise; the answer is the exact count over all messages |
| SqsPoller.SweepAccounts | app/services/sqs_poller.py:170-410 | over whole sweeps every row that says "completed" or "skipped" is that of an event handed to the importer |
| SqsPoller.AnsweredSweepImports | app/services/sqs_poller.py:170-410 | when the importer answers every call, a sweep goes through and hands over every new create event exactly once |
| SqsPoller.OnlyNewJoins | app/services/sqs_poller.py:247-252 | events recorded before are not imported again by anything later in the sweep |
| SqsRefinement.EventRefines | app/services/sqs_poller.py:190-215 | what the poller makes of an event is a run of one worker's own steps in the machine, row before import |
| SqsRefinement.EventsRefine | app/services/sqs_poller.py:183-215 | so is what it makes of the events of a message, and then the worker is done recording each create event |
| SqsRefinement.DoneMeansDelete | app/services/sqs_poller.py:217-222 | the machine lets a worker delete a message exactly where the poller does, after all of its events |
| SqsRefinement.SweepRefines | app/services/sqs_poller.py:93-224 | a whole sweep of a queue is a run of the machine: lock, receipt, events and deletions, with the same rows, imports and deleted messages |
| Paths.ComponentsJoin | app/services/lucidlink.py:340 | joining paths joins their folders, whatever slashes they carry |
| Paths.DirnameDropsLast | app/services/worker.py:205-208 | splitting the directory of a key is splitting the key and dropping the last piece |
| Paths.DirnameIs | app/services/worker.py:205 | the directory is the text before the last slashes, the slashes alone at the root, and nothing without a slash |
| Paths.FolderPartsFails | app/services/lucidlink.py:340-342 | taking off the file name fails for the empty path and no other |
| Paths.FolderOfSlash | app/services/lucidlink.py:340-342 | a key that ends in a slash is a folder itself |
| Paths.DirectoryCoversTarget | app/services/worker.py:202-214 | the folders made for a key's directory are exactly the folders above its target path, repeated and leading slashes included |
| FolderTree.ResolveStays | app/services/lucidlink.py:246-267 | what resolves keeps resolving to the same id while others add entries |
| FolderTree.PrefixesResolve | app/services/lucidlink.py:356-384 | if a path resolves, so does each of its prefixes |
| FolderTree.Remote.GetIdByPath | app/services/lucidlink.py:246-267 | an id returned is the id of exactly that path |
| FolderTree.Remote.CreateFolder | app/services/lucidlink.py:269-298 | a success or a conflict means the entry exists, and a success returns its id |
| FolderTree.Remote.EnsureFolder | app/services/lucidlink.py:360-379 | success means the folder resolves to the id carried on; failure comes after three create calls, all under the exact parent; against a reliable server it succeeds, with none for a folder that existed |
| FolderTree.Remote.EnsureFolders | app/services/lucidlink.py:352-384 | success means the whole path resolves; a failure names a folder whose parent exists |
| FolderTree.Remote.EnsureStructure | app/services/lucidlink.py:338-384 | the same for any key, in the presence of failing calls, conflicts and other clients; every create call named the id of the exact parent, and against a reliable server an existing path needs none |
| DirectoryPhase.DirsOfHasAll | app/services/worker.py:203-208 | the directories collected are the bucket's and every key's, and no others |
| DirectoryPhase.UniqueDirs | app/services/worker.py:202-210 | the collecting loop computes that set |
| DirectoryPhase.CreateDirectories | app/services/worker.py:210-216 | every directory is tried once, shortest first; the folder above the target of every listed key exists unless the call for its directory failed; against a reliable server none fails |
| Accounts.StepKeeps | app/services/auth.py:182-227 | every request keeps tokens, sessions and users consistent |
| Accounts.EmailsStayApart | app/services/auth.py:164-175 | no run gives two users one e-mail |
| Accounts.AcceptedTokensAreCurrent | app/services/auth.py:211-227 | in every reachable state an accepted token belongs to an existing user and carries the user's current role |
| Accounts.RejectionIsFinal | app/db/repositories/user_session.py:38-69 | a minted token once rejected is rejected after any further requests |
| Accounts.RejectedTokensStayRejected | app/db/repositories/user_session.py:38-69 | the same from the empty service on, over any two runs |
| Accounts.RevocationIsExact | app/services/auth.py:230-301 | a request takes away exactly the tokens of its victim, or the one that logs out, and no other |
| Accounts.LoginIsAccepted | app/routes/auth.py:119-147 | the e-mail and the password of a user yield a new token of that user, accepted exactly until it expires |
| Accounts.RegistrationIsAccepted | app/routes/auth.py:189-211 | so is the token a registration answers with |
| Accounts.LoginNeedsAccount | app/routes/auth.py:119-147 | a login does something if and only if there is an account with the e-mail and the password |
| Accounts.AccountsAfter | app/services/auth.py:136-322 | the accounts after any request, e-mail, password and role: which it adds, changes and takes away |
| Accounts.NewPasswordLogsIn | app/services/auth.py:246-269 | after a change the new password logs in and the old one does not |
| Accounts.LastAdminLost | app/routes/auth.py:351-372 | a request leaves no administrator if and only if the only one removes itself under another spelling of its id |
| Accounts.AdminAlwaysExists | app/routes/auth.py:105-113 | from the bootstrap on, any requests with canonical ids leave an administrator |
| Accounts.SpellingCanUnseat | app/routes/auth.py:351 | two requests that leave the bootstrapped service without one |
| Accounts.AuthService.DecodeToken | app/services/auth.py:211-227 | accepts exactly the minted, unexpired tokens whose session is active |
| Accounts.AuthService.FindByEmail | app/services/auth.py:136-139 | finds the one user with the e-mail, or none |
| Accounts.AuthService.CreateUser | app/services/auth.py:168-177 | adds one user under a new id |
| Accounts.AuthService.CreateAccessToken | app/services/auth.py:182-208 | adds one session and mints the token that names it, with the user's role |
| Accounts.AuthService.RevokeAllUserSessions | app/db/repositories/user_session.py:60-69 | revokes every session of the user and no other, and counts those that were active |
| Accounts.AuthService.EnsureAdminExists | app/services/auth.py:304-322 | creates an administrator exactly when there is no user |
| Accounts.AuthService.RegisterUser | app/routes/auth.py:189-211 | performs the registration request of the machine: refused when a check fails or the e-mail is taken, else one user and a token |
| Accounts.AuthService.LogIn | app/routes/auth.py:119-147 | performs the login request by e-mail and password, and answers with the token or nothing |
| Accounts.AuthService.LogOut | app/routes/auth.py:150-164 | performs the logout request: the caller's own session and no other |
| Accounts.AuthService.LogOutAll | app/services/auth.py:238-243 | performs the logout-everywhere request |
| Accounts.AuthService.InviteUser | app/routes/auth.py:293-317 | performs the invitation request, for administrators only and unless a check fails or the e-mail is taken |
| Accounts.AuthService.ChangeOwnPassword | app/services/auth.py:246-269 | performs the password request: a wrong old or weak new password changes nothing, a change revokes all sessions |
| Accounts.AuthService.ChangeUserRole | app/routes/auth.py:330-372 | performs the role request with its guards in their order |
| Accounts.AuthService.DeleteOtherUser | app/routes/auth.py:426-473 | performs the deletion request with its guards; the sessions go with the user |
| CredentialCache.OneRowChanges | app/db/repositories/datastore.py:61-122 | the upsert and the delete change the row of their datastore and user, and no other |
| CredentialCache.ClientDefaults | app/services/user_state.py:145-162 | the S3 client of a row: its keys, its region or us-east-1, its endpoint or none |
| CredentialCache.UserSession.CacheIsProjection | app/services/user_state.py:119-143 | a hydrated session holds exactly the projection of the user's rows; before, a part of it |
| CredentialCache.UserSession.Hydrate | app/services/user_state.py:88-143 | runs to its end once, in any row order, exactly when the rows can be read and a client can be made for each row with keys, and then both caches equal the projection of the rows; a failing read changes nothing; ending early leaves the caches in agreement with the table |
| CredentialCache.UserSession.Log | app/services/user_state.py:219-226 | the log always holds the newest 500 messages of all ever logged |
| CredentialCache.NewestAreLast | app/services/user_state.py:219-226 | the newest messages are the last five hundred, in order |
| CredentialCache.Console.GetSession | app/services/user_state.py:248-254 | the session of a user is created on demand, empty, and is the same ever after |
| CredentialCache.Console.Hydrate | app/services/user_state.py:88-143 | a page's hydration succeeds exactly when the rows can be read, because the routes store only rows whose client they made; then both caches equal what the table says; every session of every user stays in agreement |
| CredentialCache.WriteUsable | app/main.py:590-610 | a row stored after its client was made leaves every stored row one whose client can be made |
| CredentialCache.Console.SaveCredentials | app/main.py:570-646 | a save, which needs the client of the row to be made and the bucket to answer, writes the row and the two cache entries of its user, a failing one nothing; every session stays in agreement |
| CredentialCache.Console.WriteThrough | app/main.py:598-624 | one upsert and the cache entries, exactly, keep every session of every user in agreement |
| CredentialCache.Console.DeleteThrough | app/main.py:805-811 | one removal does too; row and cache entries go exactly when there was a row, and else nothing changes |
| CredentialCache.Console.DeleteCredentials | app/main.py:649-670 | the removal of credentials as a request |
| CredentialCache.Console.DeleteDatastore | app/main.py:735-811 | credentials go exactly when the datastore is listed, a filespace is selected, LucidLink deleted it and there is a row |
| CredentialCache.Console.FindNamed | app/main.py:936-955 | the id taken is that of the last listed datastore with the name |
| CredentialCache.LastNamedIsLast | app/main.py:936-955 | no datastore listed after it has the name |
| CredentialCache.Console.CreateDatastore | app/main.py:856-988 | a creation saves the credentials under that id, and any failure on the way, the write included, saves nothing |
| S3Listing.EntryNames | app/services/s3_service.py:115-144 | the name shown is the part of the key after the prefix, for files and for folders |
| S3Listing.OneMoreFile | app/services/s3_service.py:126-144 | an object is listed with its key and size unless it is the marker of the prefix |
| S3Listing.SortIsStable | app/services/s3_service.py:161-162 | sorting rearranges the entries, ascending by lower-cased name, equal names in the order received |
| S3Listing.StableSortIsUnique | app/services/s3_service.py:161-162 | and no other list is such a sort |
| S3Listing.ListObjects | app/services/s3_service.py:101-169 | folders before files, each sorted; exactly the entries of the pages walked but the prefix marker; truncated exactly when the cap was reached, and then by less than a page; not truncated means the last page was read; fails when a request on the way does |
| S3Listing.ResultIsUnique | app/services/s3_service.py:101-169 | these promises leave one result for a server, a prefix, a cap and an order of names |
| S3Listing.ListAllObjects | app/services/s3_service.py:171-194 | every key of every page in order, folder markers left out; fails exactly when a request does |
| S3Listing.OneMoreKey | app/services/s3_service.py:182-186 | a key counts unless it ends in a slash |
| S3Listing.PagesCover | app/main.py:1059-1066 | pages 1 to the last, joined, are the listing, for any page size asked for |
| S3Listing.PagesAreFull | app/main.py:1060-1063 | the page asked for is shown, or the nearest there is, in the size asked for between 10 and 200; all but the last are full; none is empty unless the listing is |
| Notifications.Bucket.AddSqsNotification | app/services/sqs_service.py:40-122 | the whole configuration written, or none of it when a request fails |
| Notifications.Bucket.RemoveSqsNotification | app/services/sqs_service.py:139-182 | likewise for the removal |
| Notifications.WithoutKeepsTheRest | app/services/sqs_service.py:74-78 | the entries kept are all the unrelated ones, each once and in order |
| Notifications.AddLeavesOne | app/services/sqs_service.py:70-110 | after adding, exactly one entry has the id or the queue; topics and functions are kept |
| Notifications.EntryNames | app/services/sqs_service.py:62-95 | the entry carries the id and the queue given, and every creation by default |
| Notifications.AddIsIdempotent | app/services/sqs_service.py:66-120 | adding twice is adding once |
| Notifications.RemoveAfterAdd | app/services/sqs_service.py:150-174 | removing after adding filters the original by id and queue |
| Notifications.AddAndRemoveRestores | app/services/sqs_service.py:66-174 | adding and removing restores the configuration if and only if nothing was related and EventBridge was not enabled |
| Notifications.EventBridgeKept | app/services/sqs_service.py:111-114 | the EventBridge part is kept if and only if it is not the empty dictionary |
| Notifications.EventBridgeLost | app/services/sqs_service.py:111-114 | a configuration whose EventBridge delivery is turned off by adding a queue |
| Notifications.EntryReports | app/services/sqs_service.py:80-95 | the entry reports exactly the keys with the prefix and the suffix |
| Text.DigitsRead | bootstrap/connect_bootstrap/tfvars.py:69-70 | printing a number and reading it back gives the number |
| Text.NoLeadingZero | bootstrap/connect_bootstrap/tfvars.py:69-70 | a number is printed without leading zeros |
| Text.SortedAscends | bootstrap/connect_bootstrap/tfvars.py:61 | the keys are written in ascending order |
| Text.SortedHasNoDuplicates | bootstrap/connect_bootstrap/tfvars.py:61 | each key is written once |
| Tfvars.Parse | bootstrap/connect_bootstrap/tfvars.py:13-31 | the reading loop computes the map of the lines, later assignments winning |
| Tfvars.Render | bootstrap/connect_bootstrap/tfvars.py:58-63 | the printing loop writes one line per key, keys ascending |
| Tfvars.ValueReads | bootstrap/connect_bootstrap/tfvars.py:34-73 | every plain value is read back from its printed form |
| Tfvars.LineReads | bootstrap/connect_bootstrap/tfvars.py:22-30 | every printed assignment is read back as that name and value |
| TfvarsLayout.AnyLayoutReads | bootstrap/connect_bootstrap/tfvars.py:10-30 | an assignment is read as its name and its text, with any white space around name, equals sign and text |
| TfvarsLayout.ReadLinesAreAssignments | bootstrap/connect_bootstrap/tfvars.py:10-30 | and a line that reads as anything is such an assignment |
| TfvarsLayout.CommentsSayNothing | bootstrap/connect_bootstrap/tfvars.py:23-25 | comments of both kinds and blank lines say nothing |
| TfvarsLayout.QuotedTextReads | bootstrap/connect_bootstrap/tfvars.py:36-37 | a quoted text is everything between the outer quotes |
| TfvarsLayout.NumberReads | bootstrap/connect_bootstrap/tfvars.py:46-49 | digits are the number they spell, leading zeros or not |
| TfvarsLayout.UnderscoredNumberReads | bootstrap/connect_bootstrap/tfvars.py:46-49 | an underscore between digits is left out |
| TfvarsLayout.StrayUnderscores | bootstrap/connect_bootstrap/tfvars.py:46-49 | two underscores together, or one at an end, make no number |
| TfvarsLayout.BareTextReads | bootstrap/connect_bootstrap/tfvars.py:54-55 | a text that is nothing else stands for itself |
| TfvarsLayout.AnyListReads | bootstrap/connect_bootstrap/tfvars.py:40-45 | a list of quoted texts is read with any white space at brackets and commas |
| TfvarsLayout.BreakSeparates | bootstrap/connect_bootstrap/tfvars.py:22-31 | at any line break a file says what the two parts say, the later one winning |
| TfvarsLayout.AssignmentAmongOthers | bootstrap/connect_bootstrap/tfvars.py:13-31 | an assignment between other lines, however it is spaced |
| TfvarsLayout.AlignedFileReads | bootstrap/connect_bootstrap/tfvars.py:13-31 | a file with one plain value, however it is spaced, says that value |
| TfvarsLayout.PrintedForms | bootstrap/connect_bootstrap/tfvars.py:58-73 | the printed form of lines and values, character by character |
| Tfvars.JoinedSplits | bootstrap/connect_bootstrap/tfvars.py:22 | the printed lines are the lines read |
| Tfvars.ReadIsPlain | bootstrap/connect_bootstrap/tfvars.py:13-55 | whatever the file, what is read has identifier names and plain values |
| Tfvars.RoundTrip | bootstrap/connect_bootstrap/tfvars.py:10-73 | reading what was printed gives the same map if and only if names are identifiers and values are booleans, numbers, one-line strings, or lists of one-line strings without commas and edge quotes |
| Tfvars.ReadWriteRead | bootstrap/connect_bootstrap/tfvars.py:10-73 | printing what was read from any file and reading it again gives the same map, and the same text |
| RunStream.CleanStrips | bootstrap/connect_bootstrap/shell.py:61 | what is passed on is the line without its trailing newlines |
| RunStream.StepKeeps | bootstrap/connect_bootstrap/shell.py:57-79 | every step of either task or the consumer keeps each stream whole and in order |
| RunStream.ExitedRunsYieldEverything | bootstrap/connect_bootstrap/shell.py:57-79 | for every schedule, what precedes the one exit tuple is an interleaving of both streams, each in order, nothing lost or repeated, and the tuple carries the exit code of the process |
| RunStream.RunningYieldsPrefixes | bootstrap/connect_bootstrap/shell.py:69-75 | before that, what was yielded of each stream is a prefix of it |
| RunStream.StepsShrink | bootstrap/connect_bootstrap/shell.py:57-79 | every step brings the run closer to its end |
| RunStream.ReaderRun | bootstrap/connect_bootstrap/shell.py:60-62 | over any run a reader has got past lines within its limit only, and has raised only on one that is not |
| RunStream.RunEnds | bootstrap/connect_bootstrap/shell.py:57-79 | any state can be run until nothing more can happen |
| RunStream.StuckMeansExited | bootstrap/connect_bootstrap/shell.py:57-79 | a run that cannot go on has exited if and only if every line of both outputs is within the reader's limit |
| RunStream.LongLineHangs | bootstrap/connect_bootstrap/shell.py:57-75 | a command that prints one line over the limit leaves its caller waiting |
| Resp.Utf8Length | terraform/modules/queue-metric/lambda/index.py:45-46 | ASCII text is its own encoding, any other takes more bytes than characters |
| Resp.Utf8Injective | terraform/modules/queue-metric/lambda/index.py:46 | two texts never share an encoding |
| Resp.RespBulk | terraform/modules/queue-metric/lambda/index.py:42-46 | the loop builds the command of the argument list |
| Resp.CommandText | terraform/modules/queue-metric/lambda/index.py:42-46 | the text of a command, piece by piece |
| Resp.CommandReads | terraform/modules/queue-metric/lambda/index.py:42-46 | before encoding, a command decodes to its arguments, line breaks in them included |
| Resp.EncodingIsInjective | terraform/modules/queue-metric/lambda/index.py:42-46 | two argument lists never share an encoding |
| Resp.ServerReceives | terraform/modules/queue-metric/lambda/index.py:42-46 | a server following the Arrays and Bulk strings sections of the Redis serialization protocol gets the arguments if and only if all are ASCII |
| Resp.AsciiArrives | terraform/modules/queue-metric/lambda/index.py:42-46 | ASCII arguments arrive unchanged |
| Resp.ReadLine | terraform/modules/queue-metric/lambda/index.py:49-58 | reads pieces until the buffer ends in a line end, and fails when the connection closes first |
| Resp.OneLineArrives | terraform/modules/queue-metric/lambda/index.py:49-58 | a one-line reply is returned whole however it is split |
| Resp.ReadWholeIffOneLine | terraform/modules/queue-metric/lambda/index.py:49-58 | and a reply is returned whole for every split if and only if it is one line |

## Left out

* Templates, HTML responses, server-sent events, the Textual bootstrap screens, logging, metrics, health
  probes, migrations and Terraform: presentation or input and output.
* Encryption, password hashing and JWT signing: credentials are stored as they are, and only minted tokens
  verify. Rotation of the signing secret is not modelled.
* The form of an e-mail, the allowed domain and password strength: a registration, an invitation or a password
  change carries one flag that says whether these checks passed.
* Accounts.AuthService.CreateUser: the checks before it are made by its callers, as the flag and the lookup by
  e-mail; display name and times are not columns of the model.
* Accounts.AuthService.RegisterUser: the checks of form, domain and strength are the one flag.
* Accounts.AuthService.InviteUser: the checks of form and domain are the one flag.
* SqsPoller.Poller.UpdateStatus: the error message and the job id of an event, and an event that is missing,
  which the poller never asks for, are not modelled.
* The spelling of a UUID is one flag: written as the service writes it, or not.
* Requests that overlap: each HTTP request is one step in `Accounts` and one call in `CredentialCache`.
* Deleting a user removes the user's rows in other tables by cascade; only the session rows are modelled,
  and a user's cached session object, which the code never drops, is not read again because no token of the
  user is accepted.
* The branch of the wrapper for a missing ARQ id is in `Idempotency.Invoke` and not in the `ImportJobs`
  machine, where ARQ always sets the id.
* `started_at`: nothing in the worker writes it, so the timeout statement would match no row the worker
  started; the `ImportJobs` machine lets it pick any running rows instead.
* The return values, log lines and activity records of `import_job`, and the order in which the 25 calls of
  a batch reach the importer.
* Cancellation of a worker task by the event loop is a crash of the task in `ImportJobs`.
* How a sweep picks credentials, regions and clients for its queues, `mark_polled`, `set_error`, and the
  long poll: the machine lets a sweep receive any retained message of any queue.
* `parse_s3_events`: the poller gets the parsed events; decoding of the message body is not modelled.
* Visibility timeouts of SQS: any retained message may be delivered at any time, which allows more runs.
* ImportBatches.Percent: computed over the reals and not in binary floating point.
* Sizes in megabytes and their formatting; `S3Listing` keeps the size in bytes.
* S3Listing.ListObjects: assumes that following the continuation tokens ends, on the last page, on an error or
  at the cap; where it does not, the source's loop runs for ever.
* S3Listing.PagesCover: the number of pages is the integer quotient rounded up; the source divides in
  floating point, which agrees for every listing below the cap.
* The text of the last error of `ensure_structure`: the contracts say which folder failed, not with what words.
* `str.lower` is an arbitrary function on names in `S3Listing`.
* In `Tfvars` a float is the text `str` prints for it, and `float()` is any function that reads such a text
  as that float again (`FloatsPrint`); which texts read as floats is left open. `int()` knows ASCII digits
  only and has no limit on their number. File access is left out.
* `asyncio` queues are unbounded first-in first-out lists. The reader's limit is a parameter (its default is
  65536 bytes) and is compared with the characters of a line: bytes and their decoding are not modelled.
* Lone surrogates, on which `encode()` raises: a Dafny character is a Unicode scalar value.
* `_llen` and the publication of the metric: one prefix check and one `int()` each.
* Other notification errors than a failing request: every client error raises and leaves the bucket alone.
* The LucidLink token, filespaces and `api_host` in the user session; the cache model has the two credential
  caches and the log. The list of datastores and the selected filespace are arguments of the requests.

# SOGo: proofs about the job agent, the settings merge, sharing and delivery

The project models the parts of SOGo's Python back end whose correctness is spread over several functions, and proves
what they keep over whole runs. `dafny verify dfyconfig.toml` checks everything.

**Job agent.** Celery signals, a Redis document store with three sorted-set indexes, a concurrency lock per
(job name, user) scope, a crash-recovery sweep and a single-instance guard for the scheduler.

- `Redis`, `JobPersistency`, `Agent`, `JobRecovery` and `ClientAgent` are the classes of the source, field for field and
  branch for branch. Every method is tied to a function on the store.
- `AgentProtocol` puts those functions into one state machine. Its state is the store, the deliveries the broker and the
  workers hold (each with the runs it still allows), a ledger of publications, and for each recovery sweep under way the
  records it listed and has yet to reconcile. Its events are enqueue with faults, a beat firing, every signal, loss,
  redelivery, the listing of a sweep, each of its turns, expiry of a record, lapse of a lock, and a read that rewrites a
  zombie. They interleave freely, and a sweep's turn saves what the sweep listed, whatever became of the job since.
- What the environment has to promise is the record `Rules`, with one flag for each misbehaviour these events allow. Slot
  exclusion is proved for all runs that follow the rules. `ProtocolTraces` gives for every flag a run that breaks the
  property when only that flag is dropped, and concludes for every rule set that the property holds in all its runs if and
  only if none of those flags is missing.

**Settings.** `MergePatch` compares `merge_patch` with the MergePatch function of section 2 of RFC 7386 and states exactly
when the two agree. `Provenance` compares the provenance labels with what the merge changes.

**Sharing.** `Acl` shows that the row table behaves as a map that answers from the history of grants.

**Delivery.** `Reminders` (windows tile time, each reminder once), `UndoSend` (bounded double send), `JobCanceller`
(two-phase cancel against any environment) and `BeatLock` (never two schedulers).

**Strings.** `SortScore` (the integer key is short-lexicographic order) and `ImapQuoting` (quoting round trip, joining).

## What the proofs found in the code

- `ClientAgent.enqueue` gives the lock back when the publication fails but leaves the PENDING record
  (`app/manager/agent/ClientAgent.py:82-89`): the scope can be entered beside it. `ProtocolTraces.FailedPublicationBreaks`.
- `_on_failure` and `_on_postrun` both release the lock. When a successor enters between the two signals, the second
  release frees the successor's lock. `ProtocolTraces.SplitFailureBreaks`.
- `_on_postrun` releases the lock for every state but RETRY, also for one that leaves the record STARTED
  (`app/agent/Agent.py:251-263`); its docstring (194-197) speaks of terminal hooks only. `ProtocolTraces.UndecidedPostrunBreaks`.
- Reading a zombie turns it into FAILURE without deleting its lock (`app/manager/agent/ClientAgent.py:140-150`).
  `ProtocolTraces.ZombieStrandsTheLock`.
- The recovery sweep deletes the lock key of every job it gives up, also of one that never took a lock
  (`app/agent/jobs/JobRecovery.py:97`). `ProtocolTraces.SharedScopeBreaks`, `RecoveryExact.ResumedJobKeepsItsLock`.
- The sweep resumes PENDING jobs whose message may still be queued. `ProtocolTraces.ResumeWithMessageBreaks`.
- The sweep lists all records first (`app/agent/jobs/JobRecovery.py:60`) and saves them one by one later. A job that ends
  in between is put back to PENDING and published again, beside the successor that took its slot.
  `ProtocolTraces.StaleListingBreaks`.
- A resumed job is published without its `eta`, which the record does not keep (`app/agent/jobs/JobRecovery.py:76-78`): a
  job planned for later, such as an undo-send still in its grace period, is due at once. `RecoveryExact.SweepPublishesOnce`.
- A job that is resumed but never starts is resumed by every later sweep. `RecoveryExact.NeverStartedAlwaysResumed`.
- A listing with limit 0 returns everything, since the stop rank -1 is the last one. `JobPersistency.NewestSize`.
- Two job names share lock keys for some users exactly when one is the other followed by a colon and more. No name the
  repository registers today holds a colon, so none do. `JobStates.NamesCollideWhenOneExtends`.
- `merge_patch` differs from RFC 7386 in three branches. Its docstring says it raises when a dict meets a non-dict; the
  code raises in the opposite case, a non-dict meeting a dict (`app/utils/dict.py:16`, `29-36`). The test file the
  docstring names (`tests/test_utils/test_json_merge_patch.py`) is not part of this model.
- `set_origin_from_settings` labels a null leaf of the default as "default" when the settings set it to null, though the
  merge removes it. `Provenance.LabelsMatchMerge`.
- A second grant on the same slot under another owner changes the rights and keeps the first owner. `Acl.SecondGrantKeepsOwner`.
- The reminder sweep promises exactly once "even across restarts"; once the watermark has expired, what triggered more
  than one default window ago is never mailed. `Reminders.ExpiredWatermarkLoses`.
- `quote` returns anything that starts and ends with a double quote as it is, a lone quote included, and
  `imap_join_folders` escapes a second time what comes quoted, so it is associative only where the outer paths need no
  escaping. `ImapQuoting.WrappedPassesThrough`, `ImapQuoting.JoinNoticesEscapes`, `ImapQuoting.JoinAssociative`.
- `string_to_sort_score` drops leading nulls and spills characters above 255 into their neighbours; apart from that it
  loses nothing. `SortScore.ScoreIsShortLex`.

## Model

| member | source | states |
|---|---|---|
| JobStates.LockKeySeparatesScopes | app/agent/jobs/JobState.py:91-98 | unless one name is the other followed by a colon and more, two jobs share a lock key if and only if they share name and scope |
| JobStates.NamesCollideWhenOneExtends | app/agent/jobs/JobState.py:91-98 | that condition is exact: two different names share a key for some non-empty users if and only if one is the other followed by a colon and more |
| JobStates.ExtendedNameCollides | app/agent/jobs/JobState.py:91-98 | then every user of the longer name collides with a user of the shorter one |
| JobStates.UsersAreSeparate | app/agent/jobs/JobState.py:91-98 | two different users of one job never share a key; system jobs share one key, which is that of a user called "_global" too |
| Redis.RankingMembers | app/manager/cache/ClientRedis.py:387-400 | a sorted set read in full has each member, and as many entries as members |
| Redis.RankingDistinct | app/manager/cache/ClientRedis.py:387-400 | no member is listed twice |
| Redis.RankingDescends | app/manager/cache/ClientRedis.py:387-400 | an earlier member has a higher score, or the same score and a greater name |
| Redis.ClientRedis.SetIfAbsent | app/manager/cache/ClientRedis.py:225-267 | SET NX stores exactly when the key is absent and says which |
| Redis.RevRangeIsTheTop | app/manager/cache/ClientRedis.py:387-400 | a reverse range from rank 0 returns as many members as asked for (all but -limit of them for a limit below one), none twice, highest first, and leaves out none that ranks above one returned |
| JobPersistency.JobPersistency.Save | app/agent/jobs/JobPersistency.py:30-47 | document and up to three index writes together are the store transformer that SaveKeepsConsistent is about; lock keys are not touched |
| JobPersistency.JobPersistency.Delete | app/agent/jobs/JobPersistency.py:100-114 | the document and every index entry of the job's own user and schedule are gone, all else stays |
| JobPersistency.JobPersistency.FetchMany | app/agent/jobs/JobPersistency.py:116-140 | the loop returns the documents of the live ids in order and prunes exactly the ids without document |
| JobPersistency.JobPersistency.ListPending | app/agent/jobs/JobPersistency.py:74-84 | returns the pending listing and leaves the pruned store |
| JobPersistency.JobPersistency.ListByUser | app/agent/jobs/JobPersistency.py:61-72 | the same for the index of one user |
| JobPersistency.JobPersistency.ListBySchedule | app/agent/jobs/JobPersistency.py:86-98 | the same for the index of one schedule |
| JobPersistency.SaveKeepsConsistent | app/agent/jobs/JobPersistency.py:30-47 | a save that keeps user and schedule keeps all three indexes exact: a live document is in an index if and only if it passes the index's filter, scored by its planned date |
| JobPersistency.StepKeepsConsistent | app/agent/jobs/JobPersistency.py:30-140 | so does every delete, listing and expiry |
| JobPersistency.RunKeepsConsistent | app/agent/jobs/JobPersistency.py:30-140 | so does every sequence of saves, deletes, listings and expiries in which no job changes user or schedule |
| JobPersistency.OwnerChangeLeavesAGhostEntry | app/agent/jobs/JobPersistency.py:40-41 | the restriction is needed: a save under another user leaves the job listed under the first |
| JobPersistency.DeleteUndoesSave | app/agent/jobs/JobPersistency.py:100-114 | deleting a new job right after its save restores the documents and every index |
| JobPersistency.LiveRanking | app/agent/jobs/JobPersistency.py:130-137 | dropping dead ids from a ranking gives the ranking of the live entries |
| JobPersistency.ListingIsAPrefix | app/agent/jobs/JobPersistency.py:61-98 | for every limit, negative ones included, a listing is an initial piece of the filtered and sorted documents, no longer than the ranks asked for |
| JobPersistency.CleanListingIsExact | app/agent/jobs/JobPersistency.py:61-98 | a listing that met no stale id equals filter, sort and take on the documents |
| JobPersistency.ListingAnswersOrPrunes | app/agent/jobs/JobPersistency.py:116-140 | each listing is exact and changes nothing, or strictly shrinks the stale entries |
| JobPersistency.ListingConverges | app/agent/jobs/JobPersistency.py:116-140 | after as many listings as there are stale entries every further one is exact, the documents being unchanged |
| JobPersistency.NewestSize | app/agent/jobs/JobPersistency.py:72-98 | the exact answer has min(limit, matching) jobs, and all matching ones for limit 0 |
| JobPersistency.NewestIsOrdered | app/agent/jobs/JobPersistency.py:61-98 | the exact answer holds matching jobs only, newest planned first, none twice |
| JobPersistency.NewestLeavesOutOlder | app/agent/jobs/JobPersistency.py:61-98 | no matching job left out is newer than one returned |
| Agent.Agent.RegisterJobHandler | app/agent/Agent.py:147-158 | the handler is found under its name, and max_try - 1 retries are allowed, none for a max_try below two |
| Agent.Agent.CreateJob | app/agent/Agent.py:69-101 | exactly one publication with the given name, payload, user and eta, under the given id or else the one Celery makes up, which is returned |
| Agent.LifecycleHooks.OnPrerun | app/agent/Agent.py:213-236 | the whole store after a prerun, with and without a record, an id or a task |
| Agent.LifecycleHooks.OnPostrun | app/agent/Agent.py:243-263 | the whole store after a postrun for each Celery state |
| Agent.LifecycleHooks.OnRetry | app/agent/Agent.py:270-279 | the whole store after a retry; no lock is released |
| Agent.LifecycleHooks.OnFailure | app/agent/Agent.py:286-295 | the whole store after a failure |
| Agent.LifecycleHooks.OnRevoked | app/agent/Agent.py:302-312 | the whole store after a revocation |
| Agent.LifecycleHooks.ReleaseConcurrencyLock | app/agent/Agent.py:207-210 | only a job that took a lock has one deleted |
| JobRecovery.JobRecovery.Reconcile | app/agent/jobs/JobRecovery.py:60-102 | one turn of the sweep: the new store, what is published and which counter moves |
| JobRecovery.JobRecovery.ReconcileAll | app/agent/jobs/JobRecovery.py:58-102 | the loop over any list of states, with its counts and publications |
| JobRecovery.JobRecovery.ReconcileOrphans | app/agent/jobs/JobRecovery.py:52-104 | nothing happens when the sweep lock is held, otherwise the sweep over the pending listing |
| RecoveryExact.SweepPointwise | app/agent/jobs/JobRecovery.py:60-102 | a sweep over the documents of different jobs rewrites each of them once and removes the keys of those given up |
| RecoveryExact.SelectionIsExact | app/agent/jobs/JobRecovery.py:65-102 | the states resumed are exactly the eligible orphans of the list and those failed the other orphans, each once |
| RecoveryExact.ListedIsWhole | app/agent/jobs/JobRecovery.py:60 | with at most 10,000 pending entries the sweep reads exactly the non-terminal documents, once each |
| RecoveryExact.SweepDecidesEveryOrphan | app/agent/jobs/JobRecovery.py:60-102 | after the sweep each STARTED or PENDING document has its verdict, every other document is unchanged, and none came or went |
| RecoveryExact.SweepReleasesExactly | app/agent/jobs/JobRecovery.py:52-97 | the keys afterwards are the keys before, plus the sweep's own, minus those of the jobs given up |
| RecoveryExact.SweepLeavesIndexesExact | app/agent/jobs/JobRecovery.py:75-94 | the three indexes are exact after the sweep, so the jobs given up left the pending one |
| RecoveryExact.VerdictMeaning | app/agent/jobs/JobRecovery.py:61-94 | RETRY and terminal records stay; an orphan ends PENDING without dates or FAILURE with an end and an error; attempts, limit, payload, owner and identity never change |
| RecoveryExact.SweepFollowsThePolicy | app/agent/jobs/JobRecovery.py:60-102 | a STARTED or PENDING job is published and left PENDING if and only if its handler is registered as resumable and attempts are left; any other one ends FAILURE, unpublished, out of the pending index, its key deleted; jobs in other statuses stay |
| RecoveryExact.SweepCounts | app/agent/jobs/JobRecovery.py:58-104 | resumed plus failed is the number of orphans |
| RecoveryExact.SweepPublishesOnce | app/agent/jobs/JobRecovery.py:76-78 | a job is published if and only if it is an eligible orphan, once, under its own id with the name, payload and user of its record, and without the eta it was first published with |
| RecoveryExact.SweepGoesNewestFirst | app/agent/jobs/JobRecovery.py:60-78 | the sweep takes its jobs, and publishes those it resumes, newest planned first |
| RecoveryExact.PendingDoesNotGrow | app/agent/jobs/JobRecovery.py:60-102 | a sweep adds nobody to the pending index, so the next one still reads all of it |
| RecoveryExact.NeverStartedAlwaysResumed | app/agent/jobs/JobRecovery.py:65-83 | an eligible orphan that never starts is published by each of any number of sweeps in a row, none of which counts an attempt or gives it up |
| RecoveryExact.ResumedJobKeepsItsLock | app/agent/jobs/JobRecovery.py:97 | a held lock survives the sweep if and only if no job given up shares its key, whether or not that job took a lock |
| ClientAgent.ClientAgent.AcquireConcurrencyLock | app/manager/agent/ClientAgent.py:96-109 | refuses a held key and more than one slot, takes the key otherwise, and skips the gate at zero |
| ClientAgent.ClientAgent.Enqueue | app/manager/agent/ClientAgent.py:69-94 | store, publications and answer for a refusal, a success and a failure at either step |
| ClientAgent.ClientAgent.Look | app/manager/agent/ClientAgent.py:139-151 | only a STARTED record running for over twice its timeout is rewritten, and the caller gets what the store then holds |
| ClientAgent.GateMeaning | app/manager/agent/ClientAgent.py:102-109 | a request passes if and only if it asks for no slot, or for one whose key is free; each refusal has its own error |
| ClientAgent.EnqueueSavesTheRequest | app/manager/agent/ClientAgent.py:74-82 | an admitted enqueue saves a PENDING record with the request's name, payload, limits and user, planned for now, and lists it as pending; no other record changes |
| ClientAgent.FailedEnqueueGivesTheLockBack | app/manager/agent/ClientAgent.py:84-89 | a faulty enqueue leaves all locks as they were; a failed save leaves no trace, a failed publication leaves a PENDING record |
| ClientAgent.AdmittedShutsItsScope | app/manager/agent/ClientAgent.py:96-109 | after an admitted enqueue a gated request of the same key is refused and every other request is answered as before |
| ClientAgent.LookSettles | app/manager/agent/ClientAgent.py:126-151 | a look frees no lock and touches no other record; a rewritten zombie is FAILURE, out of the pending index, and never rewritten again |
| ClientAgent.LookRewritesFrom | app/manager/agent/ClientAgent.py:139-180 | a look rewrites a record if and only if it is STARTED, has a start and a timeout, and now is later than the start plus twice the timeout; then it is FAILURE with its end, duration and error, and otherwise as it was |
| ProtocolEffects.ClosingSignalRecordsTheOutcome | app/agent/Agent.py:243-312 | success, failure and revocation leave SUCCESS, FAILURE and CANCELED with exactly the end, duration, result and error reported, and change nothing else of the record |
| ProtocolEffects.OpenSignalRecordsTheRun | app/agent/Agent.py:233-236 | a prerun writes the start and one more attempt, a retry its reason, and nothing else of the record changes |
| ProtocolEffects.RunWithoutRecordCreatesOne | app/agent/Agent.py:221-236 | a run without record creates one from the message, with its user, schedule and payload, on its first attempt, with neither lock nor limit nor timeout |
| ProtocolEffects.UndecidedPostrunOnlyEnds | app/agent/Agent.py:253-262 | a postrun in any other state writes the end and the duration only |
| ProtocolEffects.HooksLeaveUnknownJobsAlone | app/agent/Agent.py:218-306 | hooks called without id or for a job without record change nothing, except a prerun that knows the task; nor does a postrun that announces a retry |
| ProtocolEffects.ClosingSignalClosesTheJob | app/agent/Agent.py:243-312 | a closing signal takes the job out of the pending index, releases its lock exactly when it took one, and touches no other record or key |
| ProtocolEffects.SlotGoesRound | app/manager/agent/ClientAgent.py:52-55 | an admitted enqueue followed by a terminal signal of its job leaves the lock keys exactly as they were and the gate open |
| ProtocolEffects.OpenSignalKeepsTheSlot | app/agent/Agent.py:213-279 | a prerun counts one attempt, a retry none; both leave the job pending and every lock in place; a created record holds no lock and allows no resume |
| ProtocolEffects.SignalKeepsConsistent | app/agent/Agent.py:213-312 | every signal keeps the indexes exact |
| ProtocolEffects.EventEffect | app/agent/Agent.py:207-312 | every event writes at most one record and changes the lock keys exactly by those it takes and frees |
| ProtocolEffects.EventKeepsTraced | app/agent/Agent.py:91-96 | every record, every delivery and every record a sweep has listed keeps the name, user and schedule it was published with |
| ProtocolEffects.ListedRecordsAreTraced | app/agent/jobs/JobRecovery.py:60 | what a sweep lists is current when it lists it |
| ProtocolEffects.EveryRunKeepsIndexesExact | app/agent/jobs/JobPersistency.py:30-140 | in every run of the protocol, with any order of signals, faults, losses, redeliveries and expiries, the indexes stay exact |
| ProtocolEffects.FinishedJobsStay | app/agent/jobs/JobRecovery.py:60-62 | in every run with current listings, a finished job without delivery keeps its record, result included, through sweeps, listings, looks and all other jobs' events |
| ProtocolEffects.StaleTurnForgetsTheResult | app/agent/jobs/JobRecovery.py:60-94 | a turn on a stale listing puts the listed result and attempts back, with status PENDING or FAILURE |
| SlotExclusion.EventKeepsSafe | app/agent/Agent.py:207-313 | every permitted event keeps the invariant: a busy lock-taking job holds its key and has no rival |
| SlotExclusion.SlotsExclude | app/manager/agent/ClientAgent.py:52-55 | in every state reached by a run that follows the rules, each scope has at most one non-terminal lock-taking job, zombies rewritten or not |
| SlotExclusion.EventKeepsExact | app/agent/Agent.py:207-313 | with zombies left alone, every permitted event keeps each held key backed by an active job |
| SlotExclusion.LockExactness | app/agent/Agent.py:194-197 | then in every reached state a lock key exists if and only if a lock-taking job of its scope is active |
| ProtocolTraces.SplitFailureBreaks | app/agent/Agent.py:286-295 | a run that puts two active jobs in a scope because failure and postrun are two steps |
| ProtocolTraces.UndecidedPostrunBreaks | app/agent/Agent.py:256-263 | the same through a postrun that decides nothing and releases the lock |
| ProtocolTraces.FailedPublicationBreaks | app/manager/agent/ClientAgent.py:82-89 | the same through a publication that fails after the save |
| ProtocolTraces.SharedScopeBreaks | app/agent/jobs/JobRecovery.py:97 | the same through a job without gate in the scope |
| ProtocolTraces.ResumeWithMessageBreaks | app/agent/jobs/JobRecovery.py:61-78 | the same through a resume while the message is still queued |
| ProtocolTraces.StaleListingBreaks | app/agent/jobs/JobRecovery.py:60-78 | the same through a sweep that saves and publishes a record as listed after the job has ended and its successor has entered |
| ProtocolTraces.RedeliveryBreaks | app/agent/Agent.py:48-54 | the same through a redelivered message |
| ProtocolTraces.LapseBreaks | app/manager/agent/ClientAgent.py:107-108 | the same through a lock that lapses under its job |
| ProtocolTraces.ExpiryBreaks | app/agent/jobs/JobPersistency.py:38 | the same through a record that expires under its job |
| ProtocolTraces.ZombieStrandsTheLock | app/manager/agent/ClientAgent.py:140-150 | a run after which a lock exists with no active job, because a zombie was read |
| ProtocolTraces.EveryRuleIsNeeded | app/agent/Agent.py:186-313 | one rule set for each rule: that rule dropped, all others kept, and the property broken |
| ProtocolTraces.ExclusionNeedsExactly | app/agent/Agent.py:186-313 | for every rule set over the scope, some run that follows it puts two active jobs in a scope if and only if a rule other than the one on zombies is missing |
| ProtocolTraces.ExactnessNeedsExactly | app/manager/agent/ClientAgent.py:52-55 | for every rule set over the scope, some run that follows it ends with two active jobs or with a lock that does not match them if and only if any rule is missing |
| ProtocolTraces.RelaxedFollows | app/agent/Agent.py:186-313 | a rule set that promises less allows every run one that promises more allows |
| Attempts.EventConserves | app/agent/Agent.py:150-158 | every event but a redelivery keeps the runs begun plus the runs still allowed within the runs published |
| Attempts.AttemptConservation | app/agent/Agent.py:150-158 | in every run without redelivery, with stale listings and expiries, the runs begun plus the outstanding ones are at most max(1, max_try) times (1 + resumes) |
| Attempts.EveryRetryIsUsed | app/agent/Agent.py:150-158 | a job just published, by an enqueue, the scheduler or a sweep, begins exactly max(1, max_try) runs when every run asks for a retry, and then none is left to ask for |
| Attempts.AttemptsNeverExceedRuns | app/agent/Agent.py:233-236 | in any run at all, neither the record nor any listing of a job claims more attempts than runs of it began |
| Attempts.AttemptsAreRuns | app/agent/Agent.py:233-236 | where listings are current and the record does not expire, attempts are exactly the runs begun |
| Attempts.AttemptsBounded | app/agent/jobs/JobRecovery.py:65-78 | when sweeps only act on jobs without outstanding message, recorded attempts never exceed 2 * max_try - 1, however many resumes |
| Attempts.RunsBounded | app/agent/jobs/JobRecovery.py:65-78 | when listings are current too and the record does not expire, that bounds the runs themselves |
| Attempts.ResumesAreBounded | app/agent/jobs/JobRecovery.py:60-102 | a job that starts between resumes, and whose current record the sweep acts on, is resumed at most max_try - attempts more times |
| Attempts.CreatedByPrerunNeverResumed | app/agent/Agent.py:221-236 | a published job without record, or whose record the prerun hook made, is never resumed in any run whatever happens in it, and a sweep that finds it an orphan gives it up |
| Attempts.ScheduledNeverResumed | app/agent/Agent.py:221-236 | so no job the scheduler fires is ever resumed |
| Attempts.NotResumableNeverPublishedAgain | app/agent/jobs/JobRecovery.py:63-69 | in any run from any traced world, a job whose name is not registered or whose handler is not resumable is never published again |
| Attempts.TurnFollowsThePolicy | app/agent/jobs/JobRecovery.py:61-102 | a turn publishes an orphan once more, PENDING, with its own payload and user, if its handler is resumable and attempts are left; else it is FAILURE, its key deleted and nothing published; no other job is touched |
| ProtocolTraces.RedeliveryExceedsAttempts | app/agent/Agent.py:48-54 | a redelivery lets a job that may run once begin two runs without any resume |
| JobCanceller.Cancel | app/agent/jobs/JobCanceller.py:43-64 | no signal for an unknown or finished job; otherwise one SIGTERM, followed by one SIGKILL if and only if every poll before the deadline saw the job running; it terminates |
| JobCanceller.PollsAreSpaced | app/agent/jobs/JobCanceller.py:57-62 | poll n comes at least n - 1 intervals after the deadline was set, so the grace period bounds the polls |
| UndoSend.UndoSendJob.Process | app/agent/jobs/UndoSendJob.py:83-149 | outbox and status for a missing, a corrupt and a present entry and for each place an execution can stop |
| UndoSend.DoubleSendsAreBounded | app/agent/jobs/UndoSendJob.py:83-143 | sends are at most one more than the executions cut short between send and deletion, none happens once the entry is gone, and a remaining entry is unchanged |
| UndoSend.NoCrashNoDoubleSend | app/agent/jobs/UndoSendJob.py:126-143 | without such a cut any number of executions sends at most once, and one that finishes with the entry there has sent exactly once |
| UndoSend.EveryCrashCanResend | app/agent/jobs/UndoSendJob.py:142-143 | the bound is reached for every number of crashes |
| UndoSend.OnlyFinishingRemoves | app/agent/jobs/UndoSendJob.py:126-143 | a pending mail stays pending, unchanged, if and only if no execution finishes and nothing removes the entry: failed sends and crashes leave it |
| UndoSend.CorruptIsNeverSent | app/agent/jobs/UndoSendJob.py:93-100 | a corrupt entry is never sent and is gone after the first execution |
| BeatLock.RefreshLock | app/agent/run.py:45-48 | after any number of wakes the key lives a full time to live past the last one |
| BeatLock.Beat | app/agent/run.py:39-56 | alone, beat schedules if and only if the key was free, and leaves it deleted; refused, it leaves it alone |
| BeatLock.PacedHeartbeatCovers | app/agent/run.py:45-48 | writes less than the time to live apart leave no moment uncovered |
| BeatLock.EventKeepsGuarded | app/agent/run.py:40-56 | every event of a paced run keeps at most one holder, covered by its last write |
| BeatLock.SingleScheduler | app/agent/run.py:29-56 | over any interleaving of any number of paced processes no two schedule at once, crashes and late heartbeat writes included |
| BeatLock.StalledHeartbeatBreaks | app/agent/run.py:45-48 | beside any holder a newcomer schedules if and only if a full time to live has passed since the holder's last write |
| BeatLock.FirstHolderStalls | app/agent/run.py:39-48 | whatever processes and however long a stall of at least the time to live, two then schedule at once |
| BeatLock.LateDeletionBreaks | app/agent/run.py:54-56 | the pace is needed up to the deletion: a late one removes the successor's key |
| BeatLock.LateHeartbeatOnlyShutsOut | app/agent/run.py:45-48 | a write after the deletion makes no holder and refuses newcomers for the time to live |
| BeatLock.CrashedHolderIsReplaced | app/agent/run.py:34 | once a crashed holder's last write has lapsed the next process takes over |
| MergePatch.MergePatch | app/utils/dict.py:4-51 | taking the keys in any order, it raises if and only if a value meets an object, computes the recursive merge otherwise, and on raising leaves each key old, merged or partly merged |
| MergePatch.ConflictIsAClash | app/utils/dict.py:29-36 | the merge raises if and only if at some path the patch has a scalar or a list and the resource an object |
| MergePatch.ValuesArrive | app/utils/dict.py:26-51 | at every path where the patch holds a scalar or a list, so does the result |
| MergePatch.NullsRemove | app/utils/dict.py:20-51 | at every path where the patch holds a null the result holds nothing, except below a value of the resource that an object of the patch replaces, where the null stays |
| MergePatch.ObjectsReplaceValues | app/utils/dict.py:26-39 | at every path where an object of the patch meets a null, a scalar or a list, it takes its place unchanged |
| MergePatch.ObjectFollowsRfc | app/utils/dict.py:3-51 | the result is that of section 2 of RFC 7386 if and only if objects are met by objects, an object landing on a non-object holds no null, and one landing on an absent key holds no hollow object |
| MergePatch.LandedFollowsRfc | app/utils/dict.py:20-51 | the same for one key, present or absent |
| MergePatch.HollowFollowsRfc | app/utils/dict.py:42-48 | on an absent key the RFC is followed exactly when no object is empty once its nulls are removed |
| MergePatch.RfcOnNonObject | app/utils/dict.py:26-39 | on a non-object the RFC's result is the patch itself exactly when it holds no null |
| MergePatch.RfcConditionsAreNeeded | app/utils/dict.py:20-51 | each of the three conditions has a patch and a resource that differ without it |
| MergePatch.MergeIntoNothing | app/utils/dict.py:42-48 | merging into an empty object removes exactly the nulls and the objects that hold nothing |
| MergePatch.PruneIdempotent | app/utils/dict.py:42-48 | removing them twice is removing them once |
| MergePatch.MergeLandsAgain | app/utils/dict.py:19-51 | a patch that was applied never raises when applied again |
| MergePatch.MergeWithItself | app/utils/dict.py:19-51 | a patch merged into itself is itself exactly when it holds no null |
| MergePatch.PatchTwice | app/utils/dict.py:19-51 | twice equals once if and only if no null sits inside an object that lands on a non-object |
| MergePatch.UnmentionedIsKept | app/utils/dict.py:19-51 | a path the patch does not mention keeps its value or its absence |
| Provenance.SetOriginFromSettings | app/utils/dict.py:54-93 | taking the keys in any order, it raises exactly when the settings hold a non-object where they touch a default object, and computes the labels otherwise |
| Provenance.FittingSettingsMerge | app/utils/dict.py:29-36 | settings that can be labelled can be merged |
| Provenance.LabelsMatchMerge | app/utils/dict.py:70-93 | a default leaf carries the settings' name if and only if the merge changes or removes it, except a null leaf the settings also set to null |
| Provenance.DefaultLeavesAreLabelled | app/utils/dict.py:72-87 | every leaf of the default is labelled either with the settings' name or as "default" |
| Provenance.AddedLeavesAreNamed | app/utils/dict.py:88-92 | every leaf only the settings hold is labelled with their name |
| Provenance.OnlyTwoLabels | app/utils/dict.py:70-93 | there is no third label, and no label on a key neither side holds |
| Provenance.LabelsSitOnLeaves | app/utils/dict.py:80-87 | where the settings reach a section, each of its default leaves has its own label, the settings' name if and only if they hold another value there |
| Provenance.SectionsAreSpreadOut | app/utils/dict.py:73-78 | a section the settings leave out is labelled "default" key by key; one they hold too has the keys of both |
| Provenance.DefaultAgainstItself | app/utils/dict.py:70-93 | comparing the default with itself labels nothing with the settings' name |
| Acl.RepositoryAcl.FindOne | app/factory/share/RepositoryAcl.py:74-95 | the first row of the slot, or none |
| Acl.RepositoryAcl.Upsert | app/factory/share/RepositoryAcl.py:110-143 | inserts a row or changes the rights of the existing one, and never reaches the exception for zero updated rows |
| Acl.RemoveSlotRows | app/factory/share/RepositoryAcl.py:145-156 | deleting a slot leaves none of its rows, and the rows and the first row of every other slot as they were |
| Acl.Share.CheckPermissions | app/factory/share/share.py:41-58 | denies without a row and otherwise answers from its rights |
| Acl.Share.AddPermissions | app/factory/share/share.py:76-97 | refuses a grant to the owner, otherwise the table transformer TableIsHistory is about |
| Acl.Share.UpdatePermissions | app/factory/share/share.py:99-111 | refuses a slot without row, otherwise the table transformer TableIsHistory is about |
| Acl.Share.RemovePermissions | app/factory/share/share.py:113-115 | the table transformer TableIsHistory is about, with no refusal |
| Acl.Share.RemoveAllPermissionsForKey | app/factory/share/share.py:117-122 | the same for every grantee of a resource |
| Acl.Share.GetUserOrAnyone | app/factory/share/shareCalendar.py:59-76 | an own row first, else the "anyone" row for a user of the owner's domain |
| Acl.TableIsHistory | app/factory/share/RepositoryAcl.py:110-164 | after any history each slot has at most one row, which is the latest unrevoked grant under the owner of the first, and no owner is its own grantee |
| Acl.ListedForKeyAreLatest | app/factory/share/RepositoryAcl.py:61-72 | the rows listed for a resource are exactly its latest unrevoked grants |
| Acl.OtherSlotsUntouched | app/factory/share/RepositoryAcl.py:110-164 | an operation changes no slot it does not concern, other types and keys included |
| Acl.CheckAnswersHistory | app/factory/share/share.py:41-58 | a check allows if and only if there is a latest unrevoked grant and it satisfies the action |
| Acl.FlagsDecide | app/factory/share/shareCalendar.py:110-113 | after any history CREATE is allowed if and only if the latest grant sets can_create_objects, and DELETE if and only if it sets can_erase_objects |
| Acl.TextsDecide | app/factory/share/shareCalendar.py:78-85 | after any history VIEW, RESPOND and MODIFY go by the text the latest grant stores for the event's own class alone, each text permitting exactly its actions, an unknown or absent one none |
| Acl.PermissionsNest | app/factory/share/shareCalendar.py:115-121 | in any table MODIFY implies RESPOND and RESPOND implies VIEW |
| Acl.SecondGrantKeepsOwner | app/factory/share/RepositoryAcl.py:136-141 | a second grant under another owner changes the rights and keeps the owner |
| Acl.DomainIsAfterTheOnlyAt | app/utils/strings.py:50-58 | an address has a domain if and only if it holds exactly one at sign, and then it is the part after it |
| Acl.AnyoneMeansTheOwnersDomain | app/factory/share/shareCalendar.py:64-76 | an own grant always wins; without one, the latest grant to anyone is given if and only if there is one and user and owner have the same non-empty domain |
| Reminders.ReminderAgent.SendDueEmailReminders | app/interface/calendar/InterfaceAgentCalendar.py:122-165 | in each sweep every due owned reminder is attempted as often as listed, sent is the number of attempted ones whose owner's client is ready and accepts them, failed the others, and the watermark is now |
| Reminders.ReminderAgent.GroupByOwner | app/interface/calendar/InterfaceAgentCalendar.py:136-139 | each owner's group is the owner's due reminders in order, and only owners with one have a group |
| Reminders.ReminderAgent.SendAll | app/interface/calendar/InterfaceAgentCalendar.py:151-162 | one failure never aborts the rest: each message counts once, as sent or failed |
| Reminders.OneMoreOwner | app/interface/calendar/InterfaceAgentCalendar.py:136-141 | the groups of different owners never share a reminder |
| Reminders.EveryReminderOnce | app/interface/calendar/InterfaceAgentCalendar.py:113-116 | over any sweeps at increasing times, an owned reminder is attempted in exactly one completed sweep if it triggers after the first window's start and up to the last completed sweep, and in none otherwise |
| Reminders.UnownedIsNeverMailed | app/interface/calendar/InterfaceAgentCalendar.py:136-139 | a reminder without owner is never attempted in any run of sweeps |
| Reminders.ExpiredWatermarkLoses | app/interface/calendar/InterfaceAgentCalendar.py:167-175 | with the watermark expired a reminder due since then is mailed if and only if it triggered within the default window |
| SortScore.StringToSortScore | app/utils/strings.py:200-205 | the shift-or loop returns the score the lemmas below are about |
| SortScore.OrIsBitwise | app/utils/strings.py:204 | each bit of the or is set if and only if it is set on either side |
| SortScore.OrSplits | app/utils/strings.py:204 | or works bit block by bit block: high and low parts are or-ed apart |
| SortScore.OrAddsLowBits | app/utils/strings.py:204 | or-ing a value below 2^k into a multiple of 2^k adds it |
| SortScore.SpreadKeepsScore | app/utils/strings.py:200-205 | for every string the score is the base-256 value of its bytes, wide characters spread over the bytes before them |
| SortScore.ScoreIsShortLex | app/utils/strings.py:200-205 | for all strings: scores order canonical forms by length and then lexicographically, and two strings share a score if and only if they share their canonical form |
| SortScore.CanonicalForms | app/utils/strings.py:200-205 | a string is its own canonical form if and only if its code points are at most 255 and it does not start with a null, so on those the score is injective and ordered; a canonical form is canonical |
| SortScore.ScoreIsBase256 | app/utils/strings.py:200-205 | for code points up to 255 the score is the base-256 value |
| SortScore.ScoreBounds | app/utils/strings.py:200-205 | a canonical string of length n scores below 256^n and, if not empty, at least 256^(n-1) |
| SortScore.LeadingNullVanishes | app/utils/strings.py:202-205 | a leading null never changes the score of any string |
| SortScore.WideCharacterSpills | app/utils/strings.py:204 | the high part of any character is or-ed into the score of what stands before it |
| ImapQuoting.QuoteRoundTrip | app/utils/strings.py:180-186 | reading the result back as a quoted string of RFC 3501 gives the input if and only if the input was not already wrapped |
| ImapQuoting.QuoteIdempotent | app/utils/strings.py:182-183 | quoting what was quoted changes nothing |
| ImapQuoting.QuoteWellFormed | app/utils/strings.py:180-186 | the result is a well-formed quoted string unless the input was wrapped without being one |
| ImapQuoting.QuoteRefusesNewlines | app/utils/strings.py:178-186 | quoting fails if and only if the string holds a CR or an LF, and no result holds either |
| ImapQuoting.WrappedPassesThrough | app/utils/strings.py:182-183 | a lone quote and a quote between quotes come out malformed |
| ImapQuoting.UnescapeInverts | app/utils/strings.py:185 | escaping backslashes first and quotes second can be undone on every string |
| ImapQuoting.ImapJoinFolders | app/utils/strings.py:188-198 | strips prior quotes at the join, fails on an empty path, and returns what the lemmas below are about |
| ImapQuoting.JoinRefusesNewlines | app/utils/strings.py:188-198 | a join fails on an empty path or on a CR or LF in the delimiter or in what it takes of the paths, and on nothing else; no result holds either |
| ImapQuoting.JoinIgnoresQuoting | app/utils/strings.py:192-198 | bare quotes around either path or both never matter when the first path does not end and the second does not start with a quote, whatever else they hold |
| ImapQuoting.JoinNoticesQuotes | app/utils/strings.py:192-198 | beside a path without quotes at its ends that condition is exact, on either side |
| ImapQuoting.JoinAssociative | app/utils/strings.py:188-198 | for a plain non-empty delimiter and paths without quotes at their ends, joining is associative if and only if nothing in the first and the last path needs escaping, whatever the middle one holds |
| ImapQuoting.EscapingAddsBackslashes | app/utils/strings.py:185 | all that escaping adds to a string is backslashes |
| ImapQuoting.JoinNoticesEscapes | app/utils/strings.py:192-198 | for every non-empty first path without newline, quoting it beforehand goes unnoticed if and only if it was wrapped already or nothing in it needs escaping |
| ImapQuoting.JoinNoticesEscapesAfter | app/utils/strings.py:195-198 | the same for every second path |

## Left out

- Clients: Celery, the network side of Redis, the database, SMTP and IMAP. Only maps with expiry, sorted sets, a multiset of deliveries and a table of rows remain.
- Serialisation: `to_dict`, `from_dict` and ISO dates are taken as a bijection, and times, scores and durations are integers instead of floats.
- Atomicity: a save is several Redis commands and one step here. So is a hook, a read with its zombie check, a sweep's listing and a turn of a sweep; a process that dies between the save and the release of a lock, or between taking the lock and the save, is not modelled beyond the faults of the enqueue and the loss of a delivery.
- Clock: `ReconcileOrphans` uses one time for all its jobs.
- Recovery lock: `ReconcileOrphans` takes it; in `AgentProtocol` any number of sweeps may be under way, since it lapses after a minute and is never renewed.
- Time to live of the concurrency lock and the records: expiry is an event that may happen at any time, not a countdown.
- `max_concurrent` above 1: the source raises `NotImplementedError`, and so does the gate here.
- Job payloads and results are opaque strings, the text of the recovery error is a constructor, and the `eta` of a message is recorded but does not hold a delivery back.
- ExclusionNeedsExactly: its runs use one registered job that may run once and be resumed, in one scope. SlotsExclude and LockExactness hold for every registry and every split of the keys.
- JoinAssociative: stated for a delimiter that needs no escaping, as IMAP servers use, and for paths that do not start or end with a quote; how a join strips a quote at an end is JoinNoticesQuotes.
- ListingConverges: stated for limits of zero and more. For negative limits, which no caller uses, ListingIsAPrefix holds.
- ListedIsWhole: with more than 10,000 pending entries the sweep does not see the oldest ones, as in the source.
- MergePatch.MergePatch: JSON documents are values, so sharing of a sub-object between patch and resource and the order of keys are not captured.
- Provenance.SetOriginFromSettings: equality of scalars is equality of their text, whereas Python holds 1, 1.0 and True equal. A default object met by a non-object raises one of several exceptions in the source; here it is one error.
- ObjectFollowsRfc: lists are opaque, as they are to the code and to the RFC.
- AddPermissions: one writer at a time. Two concurrent grants on one slot can insert two rows, since the lookup and the insert are two statements.
- EveryReminderOnce: the reminder query itself, which expands recurring events, is a parameter that shows each due reminder once.
- DoubleSendsAreBounded: overlapping executions of one pending entry are not modelled.
- Beat: `start_beat` and the thread's start are not modelled; other processes appear only in the state machine of the same module.
- QuoteRoundTrip: the octet and literal rules of RFC 3501 beyond quoted strings.
- `shareMailFolder.py`, `shareContact.py` and `id_resolver.py`: the same table with other rights.
- `ScheduleSendJob`, `SnoozeJob`, cron parsing, Flask wiring, the API interfaces, vouchers, login and settings schemas: delegation or data.

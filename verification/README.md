# taskq: a verified model of the queue engine, the worker loops and the schedules

taskq is a durable task queue. This project models the parts of its Python side that hold state, and proves what
they keep over whole runs.

* **The queue engine** (`FakeTaskQClient`): jobs with attempt-fenced settlement, idempotency keys, workflows with a
  dependency graph, follow-up children, two-phase admissions and leased schedules. `Client.TaskQueue` is the class, its
  methods update the fields step by step as the source does. Each is proved to take the whole state where a function of
  `Lifecycle`, `Admissions` or `Schedules` says, and everything else is proved about those functions:
  `LifecycleInvariant` is what every reachable state satisfies, `LifecycleAdd`, `LifecycleMoves`, `LifecycleSettle`
  and `LifecycleComplete` prove that each call keeps it, and `LifecycleRuns`, `LifecycleHistory`, `LifecycleTheorems`,
  `LifecycleCounts`, `LifecycleOrigins`, `LifecycleStatus`, `LifecycleDivergence` and `LifecycleTerms` draw the
  conclusions. `LifecycleCalls`, `LifecycleAnswers`, `LifecycleFollowups` and `LifecycleMembers` say what callers are
  answered, now and after any run, in terms of what they sent.
* **Schedules**: `Evaluation` evaluates one claim, `Firing` interleaves any number of schedulers on one schedule,
  `Occurrences` ties what they fire to the jobs of the engine, `ScheduleCalls` says what callers are answered, and
  `Scheduler` is the process that claims, evaluates and fires.
* **The worker's timed loops**: `Heartbeat` and `Settlement`, in real time with ideal timers; the environment chooses how
  long each call takes and how it ends.
* **Continuation policies**: `Registry`, `Continuations` (compiler, validator, enforcer) and `ContinuationRuns`, which
  ties the enforcer to runs of the engine.
* **Smaller protocols**: `Execution` (checkpoints against heartbeat acknowledgements, cancellation reasons), `Hub`
  (long-poll waiters) and `Pages` (keyset pagination).

`TaskTypes` and `Ordering` hold shared values and sorting. Random identifiers are drawn from one counter, and the clock is
a parameter of each call. Instants of the engine are microseconds; the worker's are real seconds.

Where the code and an obvious expectation differ, the model follows the code and says when:

* A sealed workflow can be SUCCEEDED while a member is still queued, because a completion refreshes the workflow before it
  inserts member children. `LifecycleDivergence.StatusFallsBehindIff` gives the exact condition and
  `LifecycleDivergence.SucceededTooSoon` a run. `LifecycleDivergence.StepSyncIff` shows that nothing else ever puts a
  stored status out of step, and `LifecycleDivergence.RunSyncIff` carries it over whole runs.
* A member's own command is answered with the member only until the member is retried, snoozed or released: these
  overwrite the claim time, which the comparison includes, so the same command is then refused as a mismatch.
  `LifecycleMembers.OwnCommandReplaysIff` gives the exact condition, `LifecycleMembers.SnoozedMemberConflicts` a run.
* The heartbeat budget holds from the very start only for claims that are young enough; `Heartbeat.BudgetFromStartIff`.
* The first heartbeat of an old claim may outlive the claim's own lease, so the server may hand the job on while it still
  runs here. No run does exactly when start + first sleep + interval is at most claim time + lease:
  `Heartbeat.NoOverlapIff`, with `Heartbeat.OldClaimOverlaps` an instance.
* Past the attempt cap the number of settlement calls is bounded only if calls take time;
  `Settlement.NoBoundWithoutCallTime` and `Settlement.CallTimeBounds`.
* The advised wait for a pending admission can fall short by less than a millisecond;
  `Admissions.RetryAfterSufficesIff`, with `Admissions.RetryAfterTooShort` an instance.
* A global hub notification between a waiter's read and its subscription is missed for a queue that was never notified;
  `Hub.GlobalNotifyBeforeSubscribe`, with `Hub.MissedGlobalNotify` an instance.
* Cancelled members keep their entry in the key table, so "one live job per key" is stated for live jobs
  (`LifecycleCounts.OneLiveJobPerKey`), and `admitted` only bounds the number of steps
  (`LifecycleCounts.MembersAreBounded`) because a key collision does not give the admission back.

## Model

| member | source | states |
|---|---|---|
| LifecycleRuns.StepInv | src/taskq/testing.py:373-635 | every call of the engine, by anyone and at any clock reading, keeps the whole invariant: listing, graph, statuses, attempts, members, keys, parents, accounts |
| LifecycleRuns.ReachableInv | src/taskq/testing.py:275-325 | every state of every run from an empty engine satisfies the invariant |
| LifecycleAdd.EnqueuePlainInv | src/taskq/testing.py:373-420 | a plain enqueue, new or replayed, keeps the invariant and the references |
| LifecycleAdd.EnqueueMemberInv | src/taskq/testing.py:422-473 | a member enqueue in every branch, the key-collision rollback included, keeps the invariant |
| LifecycleMoves.CreateWorkflowInv | src/taskq/testing.py:503-568 | creating or replaying a workflow keeps the invariant |
| LifecycleMoves.SealInv | src/taskq/testing.py:570-581 | sealing keeps the invariant |
| LifecycleMoves.CancelWorkflowInv | src/taskq/testing.py:583-608 | cancelling a workflow keeps the invariant |
| LifecycleMoves.ClaimInv | src/taskq/testing.py:1105-1178 | a claim keeps the invariant; attempts stay unique |
| LifecycleSettle.FinishInv | src/taskq/testing.py:1233-1301 | settling a running job, with the unblocking or the cascade it triggers, keeps the invariant |
| LifecycleSettle.UnblockedStatus | src/taskq/testing.py:1274-1284 | after a success the incremental unblocking restores: started jobs have only succeeded parents, blocked ones wait for a live parent |
| LifecycleSettle.CascadedStatus | src/taskq/testing.py:1285-1300 | after a failure the cascade restores the same statuses |
| LifecycleComplete.CompletedInv | src/taskq/testing.py:1303-1436 | a completion with its children keeps the invariant |
| LifecycleComplete.SettleInv | src/taskq/testing.py:1303-1555 | each of the five settlement calls keeps the invariant |
| LifecycleComplete.NoChildrenYet | src/taskq/testing.py:1344-1392 | a running job has no children and no derived steps yet, so a first completion meets no existing child |
| LifecycleComplete.PlanCompletionFacts | src/taskq/testing.py:1327-1400 | an accepted plan has one fresh child per follow-up, with distinct keys, and room in the workflow |
| LifecycleTheorems.ClaimableIffReady | src/taskq/testing.py:1274-1284 | a waiting job is QUEUED exactly when all its parents have SUCCEEDED |
| LifecycleTheorems.ReachableStatuses | src/taskq/testing.py:440-452 | in every reachable state a job that was ever claimable has only succeeded parents, and a BLOCKED one has no lost parent and waits for a live one |
| LifecycleTheorems.NoDeadlock | src/taskq/testing.py:422-473 | a workflow with a BLOCKED member has an older member that is QUEUED or RUNNING |
| LifecycleTheorems.LiveParent | src/taskq/testing.py:440-452 | a BLOCKED job has a parent that is not terminal |
| LifecycleTheorems.CascadeIsExact | src/taskq/testing.py:1285-1300 | the cascade cancels exactly the transitive dependents of the lost job and keeps every other record |
| LifecycleTheorems.FailureCascade | src/taskq/testing.py:1438-1555 | the same for the calls fail and cancel_running in any reachable state |
| LifecycleTheorems.DescendantsWait | src/taskq/testing.py:1285-1300 | every descendant of a running job is blocked through waiting jobs only, or already cancelled |
| LifecycleTheorems.LonersHaveNoDescendants | src/taskq/testing.py:1263-1268 | a job outside workflows has no dependents to cascade to |
| LifecycleHistory.StepEvolves | src/taskq/testing.py:1233-1262 | one call keeps every job's identity, changes no terminal job, and never unsettles an attempt |
| LifecycleHistory.RunEvolves | src/taskq/testing.py:1233-1262 | over whole runs terminal states are absorbing and no job is lost |
| LifecycleHistory.AcceptedIsLive | src/taskq/testing.py:1215-1231 | only the live unsettled attempt can be settled; any other settlement changes nothing |
| LifecycleHistory.SettledAtMostOnce | src/taskq/testing.py:1215-1231 | after an accepted settlement, whatever is called in between, no settlement of that attempt is ever accepted again and each leaves the state alone |
| LifecycleAnswers.SettlementAnswers | src/taskq/testing.py:1215-1231 | in every reachable state a settlement is lost, already settled, in conflict or decided anew exactly by who holds the attempt and what settled it |
| LifecycleAnswers.RepeatedSettlement | src/taskq/testing.py:1215-1231 | after an accepted settlement and any run: the same worker and command are told so, another command conflicts, anybody else or an attempt handed out again has lost it; an ended job remembers its end for good |
| LifecycleAnswers.AcceptedIsDecided | src/taskq/testing.py:1438-1555 | the reply, the stored status and time and the log entry are decided by the action and by how many fail settlements the log holds of the job: retried while retryable and below the attempt limit, ten by default, dead otherwise |
| LifecycleAnswers.EndFreesKey | src/taskq/testing.py:1248-1251 | a settlement that ends a keyed job frees its key for the next enqueue |
| LifecycleAnswers.LastRunnerCancels | src/taskq/testing.py:621-635 | a workflow that was asked to cancel becomes CANCELLED exactly when its last running member ends |
| LifecycleCounts.ClaimsAreConserved | src/taskq/testing.py:1143-1147 | all claims ever made are the settlements plus the running jobs |
| LifecycleCounts.ReachableAccounts | src/taskq/testing.py:1454-1456 | in every reachable state a job's claims are its settlements plus one while it runs, and its failures are its fail settlements, within its attempts |
| LifecycleCounts.CreatedAreJobs | src/taskq/testing.py:475-501 | the created enqueue records are as many as the jobs |
| LifecycleOrigins.NewJobsComeFrom | src/taskq/testing.py:373-1436 | a job is only ever made by an enqueue, with that command, or by a completion, as one of its follow-ups |
| LifecycleCounts.OneLiveJobPerKey | src/taskq/testing.py:1248-1251 | two live jobs never hold the same queue and key |
| LifecycleCounts.StepsMatchMembers | src/taskq/testing.py:1404-1418 | the steps of a workflow are a bijection onto its member jobs |
| LifecycleCounts.MembersAreBounded | src/taskq/testing.py:436-473 | the steps are as many as the members, these are at most the admissions, which are at most the limit, and all members carry the workflow's policy |
| LifecycleStatus.CompletionDelivers | src/taskq/testing.py:1303-1436 | a completion is all or nothing: accepted, it stores one queued child per follow-up, in order, under fresh ids; refused, it changes nothing |
| LifecycleFollowups.FollowupsAsAsked | src/taskq/testing.py:1337-1436 | each child has the work, limits, time and queue of its follow-up, the parent's queue when it names none, a key derived from parent and step, and the parent's workflow, flow and policy exactly when it is a member; each is recorded |
| LifecycleFollowups.CompletionAcceptedIff | src/taskq/testing.py:1317-1400 | a completion is accepted exactly from the current running attempt, under the job's policy, with distinct steps, known queues, free keys, declared queues for members and room for them; policy errors come first |
| LifecycleStatus.StepSync | src/taskq/testing.py:621-635 | without member follow-ups each call keeps the stored workflow status equal to its recomputation from the flags and members |
| LifecycleStatus.StatusStaysInSync | src/taskq/testing.py:621-635 | the same over whole runs |
| LifecycleDivergence.StatusFallsBehindIff | src/taskq/testing.py:1401-1423 | a completion leaves the status behind exactly when the workflow was sealed, every other member had succeeded and a member follow-up is added |
| LifecycleDivergence.SucceededTooSoon | src/taskq/testing.py:1401-1423 | a run of five calls that ends with a SUCCEEDED workflow and a queued member |
| LifecycleDivergence.StepSyncIff | src/taskq/testing.py:1401-1423 | every call keeps all stored statuses equal to their recomputation exactly when it is no such completion; one that is leaves behind its own workflow and no other |
| LifecycleDivergence.RunSyncIff | src/taskq/testing.py:1401-1423 | over whole runs, member follow-ups included, the statuses stay right throughout exactly when no call of the run is such a completion |
| LifecycleTerms.RunTerms | src/taskq/testing.py:503-568 | no run loses a workflow or changes its key, kind, parameters, queues, limit or policy |
| LifecycleTerms.RunWorkflowsOk | src/taskq/testing.py:503-608 | every run keeps the stored queue lists sorted and the workflows that were asked to cancel sealed |
| LifecycleTerms.CreateIsIdempotent | src/taskq/testing.py:532-550 | for a workflow of any reachable state and at any later time: the same request, up to the order of its queues, names the workflow, any other request of its key conflicts, and neither changes anything |
| LifecycleTerms.CreatedAsAsked | src/taskq/testing.py:551-568 | a new workflow is created exactly when its queues are known, as asked, empty and running |
| LifecycleTerms.InvalidRequests | src/taskq/testing.py:503-531 | a request is invalid exactly for its number of queues, a repeated one, or its limit; a refused one changes nothing |
| LifecycleCalls.IdempotentWhileLive | src/taskq/testing.py:377-401 | as long as a keyed job lives, enqueueing its key again names it and creates nothing, whatever ran in between |
| LifecycleMembers.PlainCreatesIff | src/taskq/testing.py:373-420 | a plain enqueue stores the command as a claimable job exactly when its key is free, and names the holder otherwise |
| LifecycleMembers.MemberReplays | src/taskq/testing.py:428-435 | after any run, in open, sealed and cancelled workflows: enqueueing a stored step again names the member exactly when all fields agree, dependencies as a set, and conflicts otherwise; only the log of calls changes |
| LifecycleMembers.OwnCommandReplaysIff | src/taskq/testing.py:268-272 | the command a member was stored with is answered with it exactly until its claim time was overwritten |
| LifecycleMembers.SnoozedMemberConflicts | src/taskq/testing.py:431-434 | a run in which a snoozed member's own command is refused |
| LifecycleMembers.MemberAdmittedIff | src/taskq/testing.py:422-473 | a new step is admitted exactly with a declared queue, an open workflow with room, parents of the workflow that are not lost, and a free key; it is stored as sent and waits exactly for parents that have not succeeded |
| LifecycleMembers.MemberRefusals | src/taskq/testing.py:422-470 | every reason given for a refusal is true |
| LifecycleMembers.SealedForGood | src/taskq/testing.py:436-437 | once sealed, a workflow refuses every new step of a producer through every run |
| LifecycleCalls.ClaimIsExact | src/taskq/testing.py:1105-1178 | a claim takes eligible jobs only, oldest first, each with a new attempt; an eligible job is left only when the batch is full; nothing else changes |
| LifecycleCalls.ClaimAnswers | src/taskq/testing.py:1129-1174 | a claim hands out only due jobs of the queue, type, affinity, identity and policy asked for, all of them unless the batch is full; each receipt tells the new attempt and a lease of the seconds asked for, else the job's, else sixty |
| LifecycleCalls.ClaimRefused | src/taskq/testing.py:1117-1127 | a claim of an unknown queue, or with too many or repeated policies, hands out nothing |
| LifecycleCalls.RequeueDelays | src/taskq/testing.py:1438-1538 | retry, snooze and release put back one job alone; it is claimable again exactly from the requested time on |
| LifecycleCalls.CancelStopsWorkflow | src/taskq/testing.py:583-608 | a workflow cancel cancels exactly the waiting members, closes the workflow, and is CANCELLED at once exactly when no member runs |
| LifecycleCalls.SealAnswers | src/taskq/testing.py:570-581 | sealing closes a workflow, touches no job and says whether it was open |
| LifecycleCalls.CancelAgain | src/taskq/testing.py:583-608 | cancelling again changes nothing and tells whether the workflow has ended |
| Client.TaskQueue.Enqueue | src/taskq/testing.py:373-420 | new state and reply are those of the enqueue function; the invariant is kept |
| Client.TaskQueue.EnqueueWorkflowMember | src/taskq/testing.py:422-473 | the member branch, check by check, with the stepwise insertion and its undoing |
| Client.TaskQueue.StoreMember | src/taskq/testing.py:453-473 | the member stays stored exactly when its key is free; otherwise job, listing and step are taken out and the admission stays spent |
| Client.TaskQueue.RecordEnqueue | src/taskq/testing.py:475-501 | one record is appended |
| Client.TaskQueue.CreateWorkflow | src/taskq/testing.py:503-568 | new state and reply, on the sorted queue list |
| Client.TaskQueue.SealWorkflow | src/taskq/testing.py:570-581 | new state and reply |
| Client.TaskQueue.CancelWorkflow | src/taskq/testing.py:583-608 | new state and reply; the loop over the members cancels exactly the waiting ones |
| Client.TaskQueue.RefreshWorkflow | src/taskq/testing.py:621-635 | the stored status is the refreshed one |
| Client.TaskQueue.Claim | src/taskq/testing.py:1105-1178 | new state, and one receipt for each picked job describing it |
| Client.TaskQueue.TakeEligible | src/taskq/testing.py:1129-1174 | the loop picks the eligible prefix of the listing |
| Client.TaskQueue.ReplayOrLost | src/taskq/testing.py:1215-1231 | the fence |
| Client.TaskQueue.FinishJob | src/taskq/testing.py:1233-1268 | new state of a settlement |
| Client.TaskQueue.AdvanceWorkflow | src/taskq/testing.py:1270-1301 | new state of the workflow step |
| Client.TaskQueue.UnblockDependents | src/taskq/testing.py:1274-1284 | the in-place loop unblocks the same jobs as a test on the old statuses would |
| Client.TaskQueue.CancelDescendants | src/taskq/testing.py:1285-1300 | the frontier loop terminates and cancels exactly the waiting jobs that depend on the lost one through waiting jobs |
| Client.TaskQueue.Complete | src/taskq/testing.py:1303-1436 | new state and reply |
| Client.TaskQueue.PlanChildren | src/taskq/testing.py:1337-1391 | every follow-up is checked before anything changes; the first failing one decides |
| Client.TaskQueue.InsertChildren | src/taskq/testing.py:1409-1435 | the children are stored in order |
| Client.TaskQueue.Fail | src/taskq/testing.py:1438-1481 | new state and reply; retry until the attempts are spent |
| Client.TaskQueue.Snooze | src/taskq/testing.py:1483-1511 | new state and reply |
| Client.TaskQueue.Release | src/taskq/testing.py:1513-1538 | new state and reply |
| Client.TaskQueue.CancelRunning | src/taskq/testing.py:1540-1555 | new state and reply |
| Client.TaskQueue.ReserveAdmission | src/taskq/testing.py:951-1020 | new admissions and reply, with a fresh handle when none is given |
| Client.TaskQueue.FinishAdmission | src/taskq/testing.py:1022-1079 | new engine, admissions and reply |
| Client.TaskQueue.CancelAdmission | src/taskq/testing.py:1081-1103 | new admissions and reply |
| Client.TaskQueue.PutSchedule | src/taskq/testing.py:652-728 | create, replay, refuse or rewrite a schedule |
| Client.TaskQueue.RetireSchedule | src/taskq/testing.py:737-763 | retire, replay or refuse |
| Client.TaskQueue.ClaimSchedules | src/taskq/testing.py:774-822 | the due schedules are leased earliest first, each with a fresh token; one is left out only at the limit; nothing else changes |
| Client.TaskQueue.FireSchedule | src/taskq/testing.py:824-907 | replay, stale or accepted; an accepted fire enqueues every occurrence |
| Client.TaskQueue.ScheduleError | src/taskq/testing.py:909-942 | the lease is given back and the retry time set, or the report is stale |
| Admissions.DoOk | src/taskq/testing.py:951-1103 | every call keeps the world well formed |
| Admissions.AdmittedForever | src/taskq/testing.py:951-1103 | an admitted key keeps its job and receipt through every run |
| Admissions.CreatedExactlyOnce | src/taskq/testing.py:1022-1079 | after a finish created a job, every later finish of the key creates nothing and repeats the answer exactly to the same handle, job and receipt; a cancel comes too late, and every later reserve of the same intent returns that job and receipt |
| Admissions.ReservationIsExclusive | src/taskq/testing.py:974-1005 | until a reservation expires no other handle can change it or create its job |
| Admissions.HeldUntilExpiry | src/taskq/testing.py:974-1005 | the same over whole runs of other callers |
| Admissions.CreatesIff | src/taskq/testing.py:1037-1079 | a finish creates exactly when it comes from the current handle of a live reservation; otherwise nothing changes |
| Admissions.ReserveAnswers | src/taskq/testing.py:971-1020 | a reserve is granted exactly on a free key or to its own holder and intent, is pending for others, conflicts for another intent, and changes only a free key |
| Admissions.GrantedCanFinish | src/taskq/testing.py:951-1079 | whatever others call before it expires, a granted reservation can be finished by its holder, creating the job field by field as asked, with a receipt of the time asked for |
| Admissions.CancelsIff | src/taskq/testing.py:1081-1103 | a cancel withdraws exactly the current handle's live reservation and changes nothing else; every other answer with its condition |
| Admissions.WithdrawnForGood | src/taskq/testing.py:1081-1103 | through every run without a new reserve of the key, a withdrawn reservation creates nothing, says it was cancelled, and the next reserve of anybody is granted |
| Admissions.RetryAfterSufficesIff | src/taskq/testing.py:1016-1018 | waiting the advised seconds finds a pending reservation expired, except just after a whole second, where the advice is under a millisecond short |
| Admissions.RetryAfterTooShort | src/taskq/testing.py:1016-1018 | a caller told to wait one second waits one and finds the reservation still held |
| Admissions.QueueStaysKnown | src/taskq/testing.py:969-970 | a known queue stays known |
| Evaluation.CatchUp | src/taskq/schedules.py:222-229 | the catch-up loop computes the recursive catch-up |
| Evaluation.EvaluationIsGood | src/taskq/schedules.py:136-229 | occurrences are increasing, due, not after the cutoff, bounded and before the next firing, which is after the cutoff unless the bound was hit |
| Evaluation.SmearedCron | src/taskq/schedules.py:136-229 | a cron schedule fires exactly its calendar's instants, all later by the smear offset: the first after the cutoff, the last up to it, or the stored one and its successors without gap |
| Evaluation.CronEvaluates | src/taskq/schedules.py:182-221 | short of catching up everything, a cron evaluation succeeds exactly for a valid claim whose calendar goes on and whose last firing is not older than the stored one |
| Evaluation.IntervalEvaluates | src/taskq/schedules.py:182-229 | an interval evaluation succeeds exactly for a valid claim and interval; skip and the first one step once from the cutoff |
| Evaluation.FireOnceIsLatest | src/taskq/schedules.py:199-221 | fire_once on an interval yields the greatest lattice point up to the cutoff, and re-anchors at the cutoff |
| Evaluation.SmearIsIdentity | src/taskq/schedules.py:158-179 | on an interval a smear offset changes nothing |
| Evaluation.ChunksConcatenate | src/taskq/schedules.py:222-229 | catching up in chunks gives the one-shot catch-up |
| Evaluation.CatchIsLattice | src/taskq/schedules.py:222-229 | a catch-up on an interval is a stretch of the lattice, and the next firing is the following point |
| Schedules.FiredAreQueued | src/taskq/testing.py:857-881 | every occurrence of an accepted fire has a job under its own key, created now or before; what is created carries the schedule's command for one of them, and no other job is made or changed |
| Firing.MoveOk | src/taskq/testing.py:774-942 | any claim, fire, replay, stale token, error, rewrite or engine call keeps: live claims are current, and fired occurrences lie on the lattice |
| Firing.NoGapNoDuplicate | src/taskq/scheduler.py:520-560 | in every interleaving the occurrences fired since initialization are d0, d0+s, d0+2s, ... without gap or duplicate, and the stored next firing is the next term |
| Firing.NoGapFromCreation | src/taskq/scheduler.py:520-560 | the same for every interleaving that starts with the creation of the schedule |
| Firing.RefusedFireChangesNothing | src/taskq/testing.py:840-856 | a fire changes schedule and engine exactly when it is accepted |
| Firing.FiredTokenIsSpent | src/taskq/testing.py:840-841 | a token that fired is only replayed afterwards |
| ScheduleCalls.PutAnswers | src/taskq/testing.py:652-728 | when a write compares, conflicts, changes nothing or updates; an update counts the version, forgets every claim, and keeps the place exactly when it only pauses |
| ScheduleCalls.PutTwice | src/taskq/testing.py:652-728 | repeating a write finds nothing to change, or a conflict with the old version |
| ScheduleCalls.RetireAnswers | src/taskq/testing.py:737-763 | retiring needs the current version, closes the schedule and forgets every claim; no claim and no write follows |
| ScheduleCalls.LeaseExcludes | src/taskq/testing.py:785-798 | a claimed schedule can be claimed again exactly from the end of its lease |
| ScheduleCalls.ClaimTells | src/taskq/testing.py:796-819 | a claim tells the schedule as it stands and the token it now holds |
| ScheduleCalls.EarliestAreClaimed | src/taskq/testing.py:782-820 | claims come in the order of next firings, none is left out for a later one, nor at all below the limit |
| ScheduleCalls.NewIsClaimable | src/taskq/testing.py:676-688 | a new schedule can be claimed from its creation on, unless paused |
| ScheduleCalls.FireAnswers | src/taskq/testing.py:824-907 | replayed, stale or accepted, with the exact condition and reply of each; an accepted fire counts the jobs it added and frees the schedule from its next firing on |
| ScheduleCalls.FireAdds | src/taskq/testing.py:857-881 | what a fire adds are jobs of its occurrences, field by field as the target says |
| ScheduleCalls.ErrorBacksOff | src/taskq/testing.py:909-942 | a report of the live claim keeps the schedule from everybody exactly until the retry time; any other changes nothing |
| ScheduleCalls.RetiredForever | src/taskq/testing.py:737-763 | in every interleaving a retired schedule stays as it is, is never claimable and never fires |
| ScheduleCalls.OldClaimsAreVoid | src/taskq/testing.py:842-856 | once a rewrite or retirement moved the version on, processing an older claim changes nothing at any later time |
| Occurrences.EachCreates | src/taskq/testing.py:857-881 | an accepted fire of new occurrences creates one job for each, so the reported number is theirs |
| Occurrences.OneJobPerOccurrence | src/taskq/testing.py:824-907 | from a schedule's creation on, in every interleaving of schedulers, workers and producers that leave its keys alone, and unless a rewrite starts it over: its jobs are exactly one per fired occurrence, each with the schedule's command |
| Scheduler.SchedulerEngine.ProcessClaim | src/taskq/scheduler.py:526-559 | one claim is evaluated from its own instants, then fired or reported; the count is the jobs added |
| Scheduler.SchedulerEngine.ProcessBatch | src/taskq/scheduler.py:520-560 | each claimed schedule is processed once, the reported jobs are exactly those added, and timely claims end with the lease given back |
| Scheduler.BatchHandles | src/taskq/scheduler.py:520-560 | after a timely batch every claimed schedule stands at its evaluated next firing or waits out its error, and every other one is untouched |
| Scheduler.SchedulerEngine.RunOnce | src/taskq/scheduler.py:583-621 | the summary counts the claims of all batches, the failed ones and the jobs, each claim and job taking one identifier; a run that reports nothing left due leaves no claimable schedule, one that reports a spent budget has spent it or was stopped, and a stop seen before the loop changes nothing |
| Heartbeat.BudgetCoversTwoPaces | src/taskq/worker.py:1008-1021 | the budget is below the lease and covers two intervals |
| Heartbeat.PaceAndReserve | src/taskq/worker.py:1008-1021 | the interval fits the lease three times and is at most 30 seconds, the reserve fits it four times and is at most a minute, and both are as long as that allows |
| Heartbeat.HeartbeatLoop | src/taskq/worker.py:1530-1668 | the loop produces exactly the spans and the end of the step function |
| Heartbeat.LeaseSafety | src/taskq/worker.py:1530-1668 | at every instant of every run the last confirmed send is at most the budget old, or no heartbeat was confirmed yet and the first deadline holds |
| Heartbeat.BudgetFromStartIff | src/taskq/worker.py:1547-1564 | the budget holds from the start exactly for claims no older than the budget less two intervals |
| Heartbeat.NoOverlap | src/taskq/worker.py:1537-1541 | a server that hands a job on only after the lease of the last confirmed send never overlaps a run that is young or was confirmed once, with a quarter of the lease, up to a minute, to spare; nor a run of any age whose first call ends within the lease |
| Heartbeat.NoOverlapIff | src/taskq/worker.py:1547-1564 | no run of a claim outlives the leases the server granted exactly when its first sleep and call end within the lease of the claim |
| Heartbeat.OldClaimOverlaps | src/taskq/worker.py:1560-1564 | a claim of twelve seconds, eight old at the start, runs half a second past its lease when its first call hangs |
| Heartbeat.OutageIsShort | src/taskq/worker.py:1602-1630 | the failures in a row of a run still going took less than the budget |
| Heartbeat.OutageEnds | src/taskq/worker.py:1602-1630 | in an outage the loop ends within an explicit number of sends |
| Heartbeat.OutageEndsFromStart | src/taskq/worker.py:1602-1630 | the same from the start of any claim's loop |
| Heartbeat.NotDroppedEarly | src/taskq/worker.py:1547-1668 | unless a heartbeat was refused, a job is dropped only after the whole budget without a confirmation |
| Heartbeat.EndTells | src/taskq/worker.py:1531-1639 | the loop stops only for a settlement and fails only for a broken call |
| Heartbeat.LastWord | src/taskq/worker.py:1566-1668 | a refusal, a broken call or a settlement ends the loop at once |
| Heartbeat.HealthyRhythm | src/taskq/worker.py:1640-1668 | while every heartbeat is confirmed in time the loop never ends and sends one heartbeat every interval, however long the calls take |
| Heartbeat.BackoffDoubles | src/taskq/worker.py:1602-1630 | the waits after failures start at a quarter of a second and double |
| Heartbeat.OutageRhythm | src/taskq/worker.py:1602-1630 | when calls fail at once the retries come exactly after these waits, clipped to an interval, while the budget lasts |
| Heartbeat.RecoveryStartsOver | src/taskq/worker.py:1650-1668 | after a confirmation the next failures wait from the start again |
| Settlement.SettleWithRetry | src/taskq/worker.py:1934-2045 | the loop produces exactly the calls, back-offs and report of the step function |
| Settlement.NoCallAfterLoss | src/taskq/worker.py:1951-1952 | no call starts once ownership is lost, and every backpressure wait ends within its allowance |
| Settlement.SettledIff | src/taskq/worker.py:1983-1989 | SETTLED is reported exactly when the last call was answered with a legal outcome that accepts |
| Settlement.ReportsTell | src/taskq/worker.py:1960-1989 | LOST and CONFLICT are reported exactly for these answers of the last call, failures, rejections and permanent conflicts as such, and lost ownership only when it was |
| Settlement.WaitsAreFair | src/taskq/worker.py:1999-2045 | every wait lasts at least what the server asked for and what was drawn, at most that or the doubling back-off within its cap, and ends on time or at the stop |
| Settlement.ExponentialDoubles | src/taskq/worker.py:1999-2025 | the back-off starts at its base and doubles |
| Settlement.UnknownForCause | src/taskq/worker.py:1991-2035 | a settlement is given up only when backpressure used up its allowance, or past the cap once no outage may be outlasted |
| Settlement.CappedCalls | src/taskq/worker.py:1994-2015 | without backpressure an unowned or already stopping settlement makes at most the configured number of calls |
| Settlement.BackpressureIsBounded | src/taskq/worker.py:1991-2035 | a run of backpressure alone makes at most the cap plus one call per base back-off in the allowance |
| Settlement.CallTimeBounds | src/taskq/worker.py:1991-2035 | when calls take time, those past the cap fit the lease budget or the allowance |
| Settlement.NoBoundWithoutCallTime | src/taskq/worker.py:1999-2025 | when they take none and the random waits are zero, there is no bound |
| Settlement.IntentReports | src/taskq/worker.py:1804-1932 | no error escapes; SETTLED comes exactly from a legal accepting answer to the intent's own command, and a follow-up rejection exactly from a completion refused for good whose failure was settled, fatal exactly when worker and server disagree |
| Settlement.IntentCommands | src/taskq/worker.py:1804-1932 | a handler's outcome settles as what it is |
| Settlement.RaisedByLastCall | src/taskq/worker.py:1960-1968 | an error leaves the loop only from a refused call, or a completion's permanent conflict |
| Settlement.EngineAnswersAreLegal | src/taskq/protocol.py:1863-1893 | every settlement reply of the engine is a legal outcome of its command |
| Registry.AddAllIff | src/taskq/registry.py:224-236 | registration succeeds exactly when no name is taken, and then adds exactly the given tasks |
| Registry.TaskRegistry.RegisterMany | src/taskq/registry.py:224-236 | all tasks or none |
| Registry.TaskRegistry.ValidateFollowupGraph | src/taskq/registry.py:258-279 | accepts exactly the graphs whose targets are registered, on the right queue and canonically distinct |
| Registry.TaskRegistry.NormalizeFollowups | src/taskq/registry.py:291-342 | the normalized follow-ups, or the first refusal |
| Registry.NormalizedAreDeclared | src/taskq/registry.py:291-342 | follow-ups are normalized exactly when each is registered, on its queue, declared by the parent, as a member if it is one, and accepted by its task; the normal form names the task canonically, carries the accepted payload and keeps the rest |
| Registry.NormalizeIsStable | src/taskq/registry.py:291-342 | normalizing twice changes nothing more |
| Continuations.Explore | src/taskq/continuations.py:165-213 | the worklist ends on any graph, cyclic or not, with the least closed set, its queues and one entry per task with member targets |
| Continuations.Compile | src/taskq/continuations.py:149-238 | compiling succeeds exactly for a valid graph, distinct registered roots and at most 32 reachable queues, and yields the policy of the least closed set |
| Continuations.CompiledUnique | src/taskq/continuations.py:149-238 | the policy depends on the set of roots only |
| Continuations.Validate | src/taskq/continuations.py:241-305 | accepts exactly the canonical policies whose nodes and edges are runnable |
| Continuations.CompiledIsAccepted | src/taskq/continuations.py:241-305 | a compiled policy is accepted by its registry and by every well-formed one that keeps its tasks and member edges |
| Continuations.QueuesOfManifest | src/taskq/continuations.py:271-304 | the compiled queue list is exactly the queues the manifest names |
| Continuations.EnforcedStaysInside | src/taskq/continuations.py:308-342 | what passes the enforcer is a node of the manifest on a listed queue |
| Continuations.AllowedIffEdge | src/taskq/continuations.py:321-334 | for a task of the closure the enforcer allows exactly the compiled edges |
| Continuations.EnforcesEdges | src/taskq/continuations.py:308-342 | the enforcer passes follow-ups unchanged exactly when every member among them goes along an edge of its task |
| ContinuationRuns.StepInside | src/taskq/testing.py:1334-1376 | one call of a disciplined run keeps every job under the policy a node of its manifest |
| ContinuationRuns.RunStaysInside | src/taskq/continuations.py:308-342 | the same over whole runs, however long the chains of follow-ups |
| ContinuationRuns.RunFromEmptyStaysInside | src/taskq/continuations.py:308-342 | in every disciplined run from an empty engine each job under the policy is a node of its manifest |
| ContinuationRuns.NeverUndeclared | src/taskq/testing.py:1370-1376 | no completion under the policy is refused for an undeclared queue |
| Execution.JobContext.CheckpointNowait | src/taskq/execution.py:234-239 | stages under the next generation |
| Execution.JobContext.PendingCheckpoint | src/taskq/execution.py:290-294 | the staged progress with its generation, if any |
| Execution.JobContext.AckCheckpoint | src/taskq/execution.py:296-299 | clears the slot for the current generation only |
| Execution.NoLostCheckpoint | src/taskq/worker.py:1566-1664 | in every interleaving an empty slot means the server is known to hold the latest progress |
| Execution.RoundTrip | src/taskq/worker.py:1566-1664 | an acknowledgement clears the slot exactly when nothing was staged during the flight |
| Execution.CancellationToken.Cancel | src/taskq/execution.py:85-95 | a reason replaces only a weaker one |
| Execution.StrongestWins | src/taskq/execution.py:61-95 | the strongest requested reason wins and is never lowered |
| Execution.OrderDoesNotMatter | src/taskq/execution.py:61-95 | the outcome does not depend on the order of the requests |
| Hub.ClaimWaitHub.Subscribe | src/taskq/http/hub.py:80-91 | a new event, set at once when the observed generation is not current; refused when closed |
| Hub.ClaimWaitHub.Notify | src/taskq/http/hub.py:93-113 | bumps the generations and sets exactly the events of the topic and of global subscribers |
| Hub.ClaimWaitHub.Shutdown | src/taskq/http/hub.py:115-125 | closes the hub and sets every event |
| Hub.ClaimWaitHub.Remove | src/taskq/http/hub.py:127-129 | takes one event out of its bucket |
| Hub.NoLostWakeup | src/taskq/http/hub.py:80-129 | a waiter's event is set exactly when a noticed notification came between its read and its subscription or a waking call came after |
| Hub.QueueNotifyIsNeverMissed | src/taskq/http/hub.py:80-129 | a notification of the queue itself is never missed, in any interleaving |
| Hub.GlobalNotifyBeforeSubscribe | src/taskq/http/hub.py:104-107 | a global notification before the subscription is noticed exactly when the queue has a generation entry |
| Hub.MissedGlobalNotify | src/taskq/http/hub.py:104-107 | in a new hub a waiter reads, a global notification comes, the waiter subscribes and is not woken |
| Pages.PageAt | src/taskq/testing.py:1591-1640 | a page continues exactly at the cursor and its own cursor stands at its end |
| Pages.CollectPages | src/taskq/cli/app.py:1096-1121 | the collected items are one contiguous stretch after the cursor: all of it, or its first `limit` keys |
| Pages.ResumedListing | src/taskq/cli/app.py:1096-1121 | collecting again from the returned cursor loses and repeats nothing |
| Ordering.SortForgetsOrder | src/taskq/testing.py:532-532 | sorting forgets the order of its input, so stored queue lists and manifests do not depend on it |

## Left out

- Random identifiers: `uuid4` is a fresh counter shared by jobs, attempts, workflows, schedules and tokens. A child's
  identifier is drawn when it is stored, not when it is planned.
- Job records are values of a map, not mutable objects; aliasing between the client's tables and returned copies is not
  modelled. The members of a class method are still updated in place, field by field.
- Field validators of commands (patterns, lengths, ranges) except those the state depends on; payloads, headers and the
  other carried fields are one opaque value each.
- Idempotency keys and workflow steps are datatypes: the prefixes `chain:`, `schedule:` and `c:` are read as disjoint,
  which the producer grammar ensures.
- Hashes (policy hashes, finish hashes) are taken to be injective, so a hash stands for what it was computed from.
- The cron library and time zones: an abstract successor that lies after its argument, and a predecessor that does not.
- The smear offset of a schedule is an arbitrary number of seconds, not a hash of its identifier.
- Floating-point rounding of times; schedule times are whole microseconds, worker times are reals.
- `aclose`, `heartbeat`, worker presence writes and `enqueue_many` of the queue client; the first is a closed flag, the
  others read or repeat modelled calls.
- `tick` of the scheduler service and its polling loop with random jitter: housekeeping and pacing without state here.
- Tasks given to the policy compiler as objects are compared by value, not by identity; texts of configuration errors are
  shortened.
- Workers that appear or report between two pages of the worker listing: the listing is fixed while it is paged.
- Signals, task cancellation counts, threads and process exit in the worker: a heartbeat or settlement call ends by its
  result, an error or its timer. External cancellation of the loop is a run that stops there.
- The report fields for abandoned threads and the error code of an exhausted settlement.
- A heartbeat request that failed for the worker but reaches the server late: `Execution` speaks of the progress the
  server is known to hold.
- The SQL engine, the HTTP facade and its client, command-line rendering and settings.

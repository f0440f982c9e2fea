/** Where the jobs of a state come from: an enqueue, or a follow-up of a completion. */
module LifecycleOrigins {
  import opened TaskTypes
  import opened Lifecycle
  import opened LifecycleInvariant
  import opened LifecycleAdd
  import opened LifecycleMoves
  import opened LifecycleSettle
  import opened LifecycleComplete
  import opened LifecycleRuns
  import opened LifecycleHistory
  import opened LifecycleStatus
  import opened LifecycleTerms

  lemma JobsListed(s: State)
    requires Inv(s)
    ensures forall i :: i in s.jobs <==> i in s.order
  {
    hide GraphOk, StatusOk, AttemptsOk, MembersOk, WorkflowKeysOk, ActiveOk, ParentsOk, AccountsOk;
  }

  /** Any other settlement keeps the set of jobs. */
  lemma OtherSettleJobs(s: State, id: Id, attempt: Id, worker: string, action: Action, now: Instant)
    requires Linked(s) && !action.DoComplete?
    ensures SettleJob(s, id, attempt, worker, action, now).0.jobs.Keys == s.jobs.Keys
  {
    hide Linked, Finish;
    if ReplayOrLost(s, id, attempt, worker, SettleName(action)).None? {
      RunningWorkflow(s, id);
      match action
      case DoFail(retryable, retryAfter) =>
        var at := now + (if retryAfter.Some? then retryAfter.value else 0) * SECOND;
        FinishJobs(CountFailure(s, id), id, Fail, Queued, RetryScheduled, Some(at));
        FinishJobs(CountFailure(s, id), id, Fail, Failed, Dead, None);
      case DoSnooze(delay) => FinishJobs(s, id, Snooze, Queued, OkOutcome, Some(now + delay * SECOND));
      case DoRelease(delay) => FinishJobs(s, id, Release, Queued, OkOutcome, Some(now + delay * SECOND));
      case DoCancelRunning => FinishJobs(s, id, CancelRunning, Cancelled, OkOutcome, None);
    }
  }

  lemma FinishJobs(s: State, id: Id, command: Settle, status: Status, outcome: Outcome, at: Option<Instant>)
    requires id in s.jobs
    requires s.jobs[id].command.workflow.Some? ==> s.jobs[id].command.workflow.value in s.workflows
    ensures Finish(s, id, command, status, outcome, at).jobs.Keys == s.jobs.Keys
  {
    hide RefreshedStatus;
  }

  lemma ClaimKeeps(s: State, q: ClaimQuery, now: Instant)
    requires Linked(s)
    ensures NoNewWorkflows(s, Claim(s, q, now)) && Claim(s, q, now).jobs.Keys == s.jobs.Keys
  {
    hide Linked, Eligible;
    PickedAreJobs(s, q, now);
    ClaimTerms(s, Picked(s, q, now), q.worker);
  }

  /** The job was enqueued by this call, or is one of its follow-ups. */
  predicate ComesFrom(s: State, op: Op, j: Job) {
    || (op.OpEnqueue? && j.command == op.command)
    || (op.OpSettle? && op.action.DoComplete? && op.job in s.jobs
        && exists k :: 0 <= k < |op.action.followups| && j == FollowupJob(s, op.job, op.action.followups[k]))
  }

  lemma EnqueuedJob(s: State, c: Command, i: Id)
    requires Linked(s) && ValidCommand(c) && i in Enqueue(s, c).0.jobs && i !in s.jobs
    ensures Enqueue(s, c).0.jobs[i].command == c
  {
    hide Linked, ParentError, AllSucceeded, SameMember;
  }

  lemma InAppended(order: seq<Id>, base: Id, n: nat, i: Id)
    requires i in order + seq(n, k => base + k) && i !in order
    ensures base <= i < base + n
  {
  }

  lemma IsFollowup(s: State, op: Op, j: Job, k: nat)
    requires op.OpSettle? && op.action.DoComplete? && op.job in s.jobs && k < |op.action.followups|
    requires j == FollowupJob(s, op.job, op.action.followups[k])
    ensures ComesFrom(s, op, j)
  {
  }

  lemma CompletedJob(s: State, op: Op, i: Id)
    requires Inv(s) && Linked(s) && op.OpSettle? && op.action.DoComplete? && i in Apply(s, op).jobs && i !in s.jobs
    ensures ComesFrom(s, op, Apply(s, op).jobs[i])
  {
    hide Inv, Linked, FollowupJob, SettleJob, ComesFrom;
    var t := Apply(s, op);
    StepInv(s, op);
    CompletionDelivers(s, op.job, op.attempt, op.worker, op.action.followups, op.action.policy, op.now);
    JobsListed(s);
    JobsListed(t);
    InAppended(s.order, s.nextId, |op.action.followups|, i);
    assert StoredAs(t, s.nextId + (i - s.nextId), FollowupJob(s, op.job, op.action.followups[i - s.nextId]));
    IsFollowup(s, op, t.jobs[i], i - s.nextId);
  }

  /** No call makes jobs in any other way. */
  lemma NewJobsComeFrom(s: State, op: Op, i: Id)
    requires Inv(s) && Linked(s) && ValidOp(op) && i in Apply(s, op).jobs && i !in s.jobs
    ensures ComesFrom(s, op, Apply(s, op).jobs[i])
  {
    hide Inv, Linked, ComesFrom;
    match op
    case OpEnqueue(c) =>
      EnqueuedJob(s, c, i);
      OfCommand(s, op, Apply(s, op).jobs[i]);
    case OpClaim(q, now) => ClaimKeeps(s, q, now);
    case OpSettle(id, attempt, worker, action, now) =>
      if action.DoComplete? { CompletedJob(s, op, i); } else { OtherSettleJobs(s, id, attempt, worker, action, now); }
    case _ =>
  }

  lemma OfCommand(s: State, op: Op, j: Job)
    requires op.OpEnqueue? && j.command == op.command
    ensures ComesFrom(s, op, j)
  {
  }
}

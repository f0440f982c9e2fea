/** What settling an attempt answers, and what the answer says about the state, now and at any later time. */
module LifecycleAnswers {
  import opened TaskTypes
  import opened Lifecycle
  import opened LifecycleInvariant
  import opened LifecycleAdd
  import opened LifecycleMoves
  import opened LifecycleSettle
  import opened LifecycleComplete
  import opened LifecycleRuns
  import opened LifecycleHistory
  import opened LifecycleStatus
  import opened LifecycleTerms
  import opened LifecycleCalls

  // ---- the fence -----------------------------------------------------------------------------

  /** The attempt is the one the job was last handed out under, to this worker. */
  predicate Current(s: State, id: Id, attempt: Id, worker: string) {
    id in s.jobs && s.jobs[id].attempt == Some(attempt) && s.jobs[id].worker == Some(worker)
  }

  /** In every reachable state a settlement is lost exactly when another attempt or worker has the job, is replayed
      exactly when the attempt was settled by the same command, conflicts exactly when it was settled by another one,
      and is decided anew exactly while the attempt runs. */
  lemma SettlementAnswers(s: State, id: Id, attempt: Id, worker: string, action: Action, now: Instant)
    requires Inv(s) && Linked(s)
    ensures var (t, r) := SettleJob(s, id, attempt, worker, action, now);
            var current := Current(s, id, attempt, worker);
            && (r.Ok? && r.value.Lost? <==> !current) && (!current ==> r == Ok(Lost(None)))
            && (r.Ok? && r.value.AlreadySettled? <==> current && s.jobs[id].settled == Some(SettleName(action)))
            && (r.Ok? && r.value.SettleConflict? <==> current && s.jobs[id].settled.Some? && s.jobs[id].settled.value != SettleName(action))
            && (Accepted(r) || r.Err? <==> current && s.jobs[id].status.Running?)
            && (r.Ok? && (r.value.AlreadySettled? || r.value.SettleConflict?) ==>
                  r.value.status == s.jobs[id].status && r.value.at == s.jobs[id].command.scheduledAt)
            && (!Accepted(r) ==> t == s)
  {
    if id in s.jobs { AttemptFacts(s, id); }
    FenceDecides(s, id, attempt, worker, action, now);
    hide Inv, Linked, SettleJob;
  }

  lemma FenceDecides(s: State, id: Id, attempt: Id, worker: string, action: Action, now: Instant)
    requires Linked(s)
    ensures var (t, r) := SettleJob(s, id, attempt, worker, action, now);
            match ReplayOrLost(s, id, attempt, worker, SettleName(action))
            case Some(reply) => t == s && r == Ok(reply)
            case None => if r.Ok? then r.value.Settled? else t == s
  {
    hide Linked, Finish, PlanCompletion, Completed, CountFailure, Retries;
  }

  lemma AttemptFacts(s: State, id: Id)
    requires Inv(s) && id in s.jobs
    ensures s.jobs[id].attempt.Some? ==> (s.jobs[id].status.Running? <==> s.jobs[id].settled.None?)
    ensures s.jobs[id].status.Running? ==> s.jobs[id].worker.Some? && s.jobs[id].attempt.Some?
  {
    assert AttemptOk(s.nextId, s.jobs[id]);
    hide IdsOk, GraphOk, StatusOk, AttemptsOk, MembersOk, WorkflowKeysOk, ActiveOk, ParentsOk, AccountsOk;
  }

  // ---- what an accepted settlement did -------------------------------------------------------

  /** The status a settlement puts the job in, by what was asked and how often the job has failed before. */
  predicate Decided(action: Action, failures: nat, maxAttempts: Option<int>, now: Instant, reply: Reply)
    requires reply.Settled?
  {
    match action
    case DoComplete(_, _) => reply == Settled(OkOutcome, Succeeded, None)
    case DoCancelRunning => reply == Settled(OkOutcome, Cancelled, None)
    case DoSnooze(delay) => reply == Settled(OkOutcome, Queued, Some(now + delay * SECOND))
    case DoRelease(delay) => reply == Settled(OkOutcome, Queued, Some(now + delay * SECOND))
    case DoFail(retryable, retryAfter) =>
      var limit := if maxAttempts.Some? && maxAttempts.value != 0 then maxAttempts.value else 10;
      if retryable && failures + 1 < limit then
        reply == Settled(RetryScheduled, Queued, Some(now + (if retryAfter.Some? then retryAfter.value else 0) * SECOND))
      else reply == Settled(Dead, Failed, None)
  }

  /** An accepted settlement is decided by the action and by how many `fail` settlements the log holds of the job: a
      retryable failure is retried until the last attempt the job has, and one that is not retryable is final. The
      reply tells the stored status and time, the log gains this one entry, and the attempt is settled by it. */
  lemma AcceptedIsDecided(s: State, id: Id, attempt: Id, worker: string, action: Action, now: Instant)
    requires Inv(s) && Linked(s) && Accepted(SettleJob(s, id, attempt, worker, action, now).1)
    ensures var (t, r) := SettleJob(s, id, attempt, worker, action, now);
            && id in s.jobs && id in t.jobs
            && Decided(action, FailuresOf(s.settlements, id), s.jobs[id].command.maxAttempts, now, r.value)
            && t.jobs[id].status == r.value.status && t.jobs[id].settled == Some(SettleName(action))
            && t.jobs[id].command.scheduledAt == (if r.value.at.Some? then r.value.at else s.jobs[id].command.scheduledAt)
            && t.jobs[id].attempt == Some(attempt) && t.jobs[id].worker == Some(worker)
            && t.settlements == s.settlements + [Settlement(id, SettleName(action), r.value.outcome)]
  {
    AcceptedForm(s, id, attempt, worker, action, now);
    AcceptedReply(s, id, attempt, worker, action, now);
    FailuresLogged(s, id);
    hide Inv, Linked, SettleJob, Accepted, Decided;
  }

  lemma AcceptedReply(s: State, id: Id, attempt: Id, worker: string, action: Action, now: Instant)
    requires Inv(s) && Linked(s) && Accepted(SettleJob(s, id, attempt, worker, action, now).1)
    ensures Current(s, id, attempt, worker)
    ensures Decided(action, s.jobs[id].failures, s.jobs[id].command.maxAttempts, now, SettleJob(s, id, attempt, worker, action, now).1.value)
  {
    FenceOpen(s, id, attempt, worker, action, now);
    hide Inv, Linked, Finish, PlanCompletion, Completed, ReplayOrLost;
  }

  /** The record of the settled job, the log, and the key table, as the reply tells them. */
  predicate AsTold(s: State, id: Id, command: Settle, t: State, reply: Reply)
    requires id in s.jobs && reply.Settled?
  {
    && id in t.jobs && SettledAs(s.jobs[id], command, reply, t.jobs[id])
    && t.settlements == s.settlements + [Settlement(id, command, reply.outcome)]
    && (Terminal(reply.status) ==> KeyFreed(s.jobs[id].command, t))
  }

  lemma AcceptedForm(s: State, id: Id, attempt: Id, worker: string, action: Action, now: Instant)
    requires Inv(s) && Linked(s) && Accepted(SettleJob(s, id, attempt, worker, action, now).1)
    ensures Current(s, id, attempt, worker)
    ensures var (t, r) := SettleJob(s, id, attempt, worker, action, now); AsTold(s, id, SettleName(action), t, r.value)
  {
    FenceOpen(s, id, attempt, worker, action, now);
    RunningWorkflow(s, id);
    hide Inv, Linked, AsTold, SettleJob, ReplayOrLost, Accepted;
    match action
    case DoComplete(fs, policy) => CompletedForm(s, id, attempt, worker, fs, policy, now);
    case DoFail(retryable, retryAfter) => FailedForm(s, id, attempt, worker, retryable, retryAfter, now);
    case _ => OtherForm(s, id, attempt, worker, action, now);
  }

  lemma CompletedForm(s: State, id: Id, attempt: Id, worker: string, fs: seq<Followup>, policy: Option<string>, now: Instant)
    requires Inv(s) && Linked(s) && Accepted(SettleJob(s, id, attempt, worker, DoComplete(fs, policy), now).1)
    requires id in s.jobs && s.jobs[id].status.Running? && ReplayOrLost(s, id, attempt, worker, Complete).None?
    ensures var (t, r) := SettleJob(s, id, attempt, worker, DoComplete(fs, policy), now); AsTold(s, id, Complete, t, r.value)
  {
    hide Inv, Linked, PlanCompletion, Completed, ReplayOrLost, SettledAs, KeyFreed;
    CompletedJob(s, id, fs, policy);
  }

  lemma FailedForm(s: State, id: Id, attempt: Id, worker: string, retryable: bool, retryAfter: Option<int>, now: Instant)
    requires Linked(s) && id in s.jobs && ReplayOrLost(s, id, attempt, worker, Fail).None?
    requires s.jobs[id].command.workflow.Some? ==> s.jobs[id].command.workflow.value in s.workflows
    ensures var (t, r) := SettleJob(s, id, attempt, worker, DoFail(retryable, retryAfter), now);
            r.Ok? && r.value.Settled? && AsTold(s, id, Fail, t, r.value)
  {
    hide Linked, Finish, ReplayOrLost, KeyFreed;
    var at := now + (if retryAfter.Some? then retryAfter.value else 0) * SECOND;
    FinishedJob(CountFailure(s, id), id, Fail, Queued, RetryScheduled, Some(at));
    FinishedJob(CountFailure(s, id), id, Fail, Failed, Dead, None);
  }

  lemma OtherForm(s: State, id: Id, attempt: Id, worker: string, action: Action, now: Instant)
    requires Linked(s) && id in s.jobs && ReplayOrLost(s, id, attempt, worker, SettleName(action)).None?
    requires s.jobs[id].command.workflow.Some? ==> s.jobs[id].command.workflow.value in s.workflows
    requires !action.DoComplete? && !action.DoFail?
    ensures var (t, r) := SettleJob(s, id, attempt, worker, action, now);
            r.Ok? && r.value.Settled? && AsTold(s, id, SettleName(action), t, r.value)
  {
    hide Linked, Finish, ReplayOrLost, KeyFreed, SettledAs;
    match action
    case DoSnooze(delay) => FinishedJob(s, id, Snooze, Queued, OkOutcome, Some(now + delay * SECOND));
    case DoRelease(delay) => FinishedJob(s, id, Release, Queued, OkOutcome, Some(now + delay * SECOND));
    case DoCancelRunning => FinishedJob(s, id, CancelRunning, Cancelled, OkOutcome, None);
  }

  predicate SettledAs(j: Job, command: Settle, reply: Reply, j': Job)
    requires reply.Settled?
  {
    && j'.status == reply.status && j'.settled == Some(command) && j'.attempt == j.attempt && j'.worker == j.worker
    && j'.command == (if reply.at.Some? then j.command.(scheduledAt := reply.at) else j.command)
  }

  predicate KeyFreed(c: Command, t: State) {
    c.key.Some? ==> (c.queue, c.key.value) !in t.active
  }

  lemma FenceOpen(s: State, id: Id, attempt: Id, worker: string, action: Action, now: Instant)
    requires Inv(s) && Linked(s) && Accepted(SettleJob(s, id, attempt, worker, action, now).1)
    ensures ReplayOrLost(s, id, attempt, worker, SettleName(action)).None?
    ensures Current(s, id, attempt, worker) && s.jobs[id].status.Running?
  {
    hide Inv, Linked, Finish, PlanCompletion, Completed;
  }

  lemma FailuresLogged(s: State, id: Id)
    requires Inv(s) && id in s.jobs
    ensures s.jobs[id].failures == FailuresOf(s.settlements, id)
  {
    assert AccountOk(s.settlements, id, s.jobs[id]);
    hide IdsOk, GraphOk, StatusOk, AttemptsOk, MembersOk, WorkflowKeysOk, ActiveOk, ParentsOk, AccountsOk;
  }

  lemma FinishedJob(s: State, id: Id, command: Settle, status: Status, outcome: Outcome, at: Option<Instant>)
    requires id in s.jobs && !status.Running? && !status.Blocked?
    requires s.jobs[id].command.workflow.Some? ==> s.jobs[id].command.workflow.value in s.workflows
    ensures var t := Finish(s, id, command, status, outcome, at);
            && id in t.jobs && SettledAs(s.jobs[id], command, Settled(outcome, status, at), t.jobs[id])
            && t.settlements == s.settlements + [Settlement(id, command, outcome)]
            && (Terminal(status) ==> KeyFreed(s.jobs[id].command, t))
            && (forall k :: k in t.active ==> k in s.active)
  {
    FinishKeepsJob(s, id, command, status, outcome, at);
    hide RefreshedStatus, Unblocked, Cascaded;
  }

  /** Children are added to the job table and to the keys, and to nothing a settlement reads back. */
  lemma {:induction false} ChildrenAdded(s: State, id: Id, policy: Option<string>, cs: seq<Child>)
    requires forall i :: i in s.jobs ==> i < s.nextId
    ensures var t := AddChildren(s, id, policy, cs);
            && t.settlements == s.settlements && (forall i :: i in t.jobs ==> i < t.nextId)
            && (forall i :: i in s.jobs ==> i in t.jobs && t.jobs[i] == s.jobs[i])
            && (forall k :: k in t.active ==> k in s.active || ChildKey(cs, k))
  {
    if cs != [] {
      var n := |cs| - 1;
      ChildrenAdded(s, id, policy, cs[..n]);
      var t := AddChildren(s, id, policy, cs);
      forall k | k in t.active ensures k in s.active || ChildKey(cs, k) {
        if ChildKey(cs[..n], k) {
          var i :| 0 <= i < n && cs[..n][i].existing.None? && cs[..n][i].command.key.Some?
            && k == (cs[..n][i].command.queue, cs[..n][i].command.key.value);
          assert cs[i] == cs[..n][i];
        }
      }
    }
  }

  ghost predicate ChildKey(cs: seq<Child>, k: (string, Key)) {
    exists i :: 0 <= i < |cs| && cs[i].existing.None? && cs[i].command.key.Some? && k == (cs[i].command.queue, cs[i].command.key.value)
  }

  lemma CompletedJob(s: State, id: Id, fs: seq<Followup>, policy: Option<string>)
    requires Inv(s) && Linked(s) && id in s.jobs && s.jobs[id].status.Running? && PlanCompletion(s, id, fs, policy).Ok?
    ensures s.jobs[id].command.workflow.Some? ==> s.jobs[id].command.workflow.value in s.workflows
    ensures var t := Completed(s, id, PlanCompletion(s, id, fs, policy).value);
            && id in t.jobs && SettledAs(s.jobs[id], Complete, Settled(OkOutcome, Succeeded, None), t.jobs[id])
            && t.settlements == s.settlements + [Settlement(id, Complete, OkOutcome)]
            && KeyFreed(s.jobs[id].command, t)
  {
    hide Inv, Linked, PlanCompletion, Finish, RoomFor, PlannedChild;
    RunningWorkflow(s, id);
    FinishedInv(s, id);
    var m := Finish(s, id, Complete, Succeeded, OkOutcome, None);
    FinishedJob(s, id, Complete, Succeeded, OkOutcome, None);
    IdsBounded(m);
    PlanCompletionFacts(s, id, fs, policy);
    var cs := PlanCompletion(s, id, fs, policy).value;
    ChildrenAdded(m, id, s.jobs[id].policy, cs);
    ActiveOf(s);
    if s.jobs[id].command.key.Some? {
      LiveHolder(s.jobs, s.active, id);
      forall i | 0 <= i < |cs| ensures (cs[i].command.queue, cs[i].command.key.value) !in s.active { PlannedKey(s, id, cs[i]); }
    }
  }

  lemma PlannedKey(s: State, id: Id, c: Child)
    requires id in s.jobs && PlannedChild(s, id, c)
    ensures c.command.key.Some? && (c.command.queue, c.command.key.value) !in s.active
  {
  }

  /** A settlement that ends a keyed job frees its key: the next plain enqueue of the key creates a new job. */
  lemma EndFreesKey(s: State, id: Id, attempt: Id, worker: string, action: Action, now: Instant, c: Command)
    requires Inv(s) && Linked(s) && Accepted(SettleJob(s, id, attempt, worker, action, now).1)
    requires Terminal(SettleJob(s, id, attempt, worker, action, now).1.value.status)
    requires id in s.jobs && c.queue == s.jobs[id].command.queue && c.key == s.jobs[id].command.key
    ensures var t := SettleJob(s, id, attempt, worker, action, now).0;
            Linked(t) && EnqueuePlain(t, c).1 == Ok(Created(t.nextId, c.scheduledAt))
  {
    SettleInv(s, id, attempt, worker, action, now);
    InvLinks(SettleJob(s, id, attempt, worker, action, now).0);
    AcceptedForm(s, id, attempt, worker, action, now);
    hide Inv, Linked, SettleJob, Accepted;
  }

  // ---- the end of a cancelled workflow -------------------------------------------------------

  /** Another member of the workflow is running. */
  ghost predicate OtherRuns(s: State, w: Id, id: Id) {
    exists i :: i in s.jobs && i != id && s.jobs[i].command.workflow == Some(w) && s.jobs[i].status.Running?
  }

  /** When a member of a workflow that was asked to cancel ends, the workflow is CANCELLED exactly when that was its last
      running member; until then its status stays. */
  lemma LastRunnerCancels(s: State, id: Id, attempt: Id, worker: string, action: Action, now: Instant, w: Id)
    requires Inv(s) && Linked(s) && WorkflowsOk(s) && Accepted(SettleJob(s, id, attempt, worker, action, now).1)
    requires Terminal(SettleJob(s, id, attempt, worker, action, now).1.value.status)
    requires id in s.jobs && s.jobs[id].command.workflow == Some(w) && w in s.workflows && s.workflows[w].cancelRequested
    ensures var t := SettleJob(s, id, attempt, worker, action, now).0;
            && w in t.workflows
            && t.workflows[w].status == if OtherRuns(s, w, id) then s.workflows[w].status else WfCancelled
  {
    hide Inv, Linked, Finish, PlanCompletion, ReplayOrLost, WorkflowsOk, OtherRuns, SettleJob, CountFailure, MembersOk;
    AcceptedReply(s, id, attempt, worker, action, now);
    FenceOpen(s, id, attempt, worker, action, now);
    ClosedWorkflow(s, w);
    MembersOf(s);
    match action
    case DoComplete(fs, policy) =>
      FinishCancels(s, s, id, Complete, Succeeded, OkOutcome, w);
      CompletionAnswer(s, id, attempt, worker, fs, policy, now);
      ChildrenStatus(Finish(s, id, Complete, Succeeded, OkOutcome, None), id, s.jobs[id].policy, PlanCompletion(s, id, fs, policy).value, w);
    case DoFail(retryable, retryAfter) =>
      FailureCounts(s, id);
      FinishCancels(s, CountFailure(s, id), id, Fail, Failed, Dead, w);
      FailureAnswer(s, id, attempt, worker, retryable, retryAfter, now);
    case DoCancelRunning =>
      FinishCancels(s, s, id, CancelRunning, Cancelled, OkOutcome, w);
      CancelAnswer(s, id, attempt, worker, now);
    case _ =>
  }

  lemma CompletionAnswer(s: State, id: Id, attempt: Id, worker: string, fs: seq<Followup>, policy: Option<string>, now: Instant)
    requires Linked(s) && id in s.jobs && ReplayOrLost(s, id, attempt, worker, Complete).None?
    requires s.jobs[id].command.workflow.Some? ==> s.jobs[id].command.workflow.value in s.workflows
    requires Accepted(SettleJob(s, id, attempt, worker, DoComplete(fs, policy), now).1)
    ensures PlanCompletion(s, id, fs, policy).Ok?
    ensures SettleJob(s, id, attempt, worker, DoComplete(fs, policy), now).0
         == AddChildren(Finish(s, id, Complete, Succeeded, OkOutcome, None), id, s.jobs[id].policy, PlanCompletion(s, id, fs, policy).value)
  {
    hide Linked, Finish, PlanCompletion, ReplayOrLost;
  }

  lemma FailureAnswer(s: State, id: Id, attempt: Id, worker: string, retryable: bool, retryAfter: Option<int>, now: Instant)
    requires Linked(s) && id in s.jobs && ReplayOrLost(s, id, attempt, worker, Fail).None?
    requires s.jobs[id].command.workflow.Some? ==> s.jobs[id].command.workflow.value in s.workflows
    ensures var (t, r) := SettleJob(s, id, attempt, worker, DoFail(retryable, retryAfter), now);
            r.Ok? && r.value.Settled? && Terminal(r.value.status) ==> t == Finish(CountFailure(s, id), id, Fail, Failed, Dead, None)
  {
    hide Linked, Finish, ReplayOrLost;
  }

  lemma CancelAnswer(s: State, id: Id, attempt: Id, worker: string, now: Instant)
    requires Linked(s) && id in s.jobs && ReplayOrLost(s, id, attempt, worker, CancelRunning).None?
    requires s.jobs[id].command.workflow.Some? ==> s.jobs[id].command.workflow.value in s.workflows
    ensures SettleJob(s, id, attempt, worker, DoCancelRunning, now).0 == Finish(s, id, CancelRunning, Cancelled, OkOutcome, None)
  {
    hide Linked, Finish, ReplayOrLost;
  }

  lemma FailureCounts(s: State, id: Id)
    requires id in s.jobs
    ensures OnlyCounts(s, CountFailure(s, id), id)
  {
  }

  lemma ClosedWorkflow(s: State, w: Id)
    requires WorkflowsOk(s) && w in s.workflows && s.workflows[w].cancelRequested
    ensures s.workflows[w].sealed
  {
    assert WorkflowOk(s.workflows[w]);
  }

  lemma {:induction false} ChildrenStatus(s: State, id: Id, policy: Option<string>, cs: seq<Child>, w: Id)
    requires w in s.workflows
    ensures var t := AddChildren(s, id, policy, cs); w in t.workflows && t.workflows[w].status == s.workflows[w].status
  {
    if cs != [] { ChildrenStatus(s, id, policy, cs[..|cs| - 1], w); }
  }

  /** Unblocking and cascading start no job and stop none. */
  lemma AdvancedRuns(jobs: map<Id, Job>, id: Id, i: Id)
    requires id in jobs && i in jobs
    ensures i in Unblocked(jobs, id) && Unblocked(jobs, id)[i].command.workflow == jobs[i].command.workflow
    ensures Unblocked(jobs, id)[i].status.Running? <==> jobs[i].status.Running?
    ensures i in Cascaded(jobs, id) && Cascaded(jobs, id)[i].command.workflow == jobs[i].command.workflow
    ensures Cascaded(jobs, id)[i].status.Running? <==> jobs[i].status.Running?
  {
    if Doomed(jobs, jobs[id].command.workflow, id, i) { assert Waiting(jobs[i].status); }
  }

  lemma MembersOf(s: State)
    requires Inv(s)
    ensures MembersOk(s.nextId, s.jobs, s.workflows)
  {
    hide IdsOk, GraphOk, StatusOk, AttemptsOk, MembersOk, WorkflowKeysOk, ActiveOk, ParentsOk, AccountsOk;
  }

  /** `u` is `s`, but for what counts the failures of the job. */
  predicate OnlyCounts(s: State, u: State, id: Id) {
    && id in s.jobs && u.jobs.Keys == s.jobs.Keys && u.workflows == s.workflows && u.jobs[id].command == s.jobs[id].command
    && (forall i :: i in s.jobs && i != id ==> u.jobs[i] == s.jobs[i])
  }

  lemma FinishCancels(s: State, u: State, id: Id, command: Settle, status: Status, outcome: Outcome, w: Id)
    requires MembersOk(s.nextId, s.jobs, s.workflows) && OnlyCounts(s, u, id) && Terminal(status)
    requires s.jobs[id].command.workflow == Some(w) && w in s.workflows && s.workflows[w].cancelRequested && s.workflows[w].sealed
    ensures var t := Finish(u, id, command, status, outcome, None);
            && w in t.workflows
            && t.workflows[w].status == if OtherRuns(s, w, id) then s.workflows[w].status else WfCancelled
  {
    hide MembersOk, OtherRuns, Finish;
    FinishRuns(s, u, id, command, status, outcome, w);
    RunsIff(s, Finish(u, id, command, status, outcome, None).jobs, w, id);
  }

  /** The same jobs run, but for the one that ended. */
  predicate SameRuns(jobs: map<Id, Job>, jobs': map<Id, Job>, id: Id) {
    jobs'.Keys == jobs.Keys && forall i :: i in jobs ==> (jobs'[i].status.Running? <==> i != id && jobs[i].status.Running?)
  }

  lemma FinishRuns(s: State, u: State, id: Id, command: Settle, status: Status, outcome: Outcome, w: Id)
    requires OnlyCounts(s, u, id) && Terminal(status) && s.jobs[id].command.workflow == Some(w) && w in s.workflows
    ensures var t := Finish(u, id, command, status, outcome, None);
            && SameRuns(s.jobs, t.jobs, id) && w in t.workflows
            && t.workflows[w].status == RefreshedStatus(t.jobs, s.workflows[w])
  {
    hide Unblocked, Cascaded, RefreshedStatus;
    var c := Close(u, id, command, status, outcome, None);
    var t := Finish(u, id, command, status, outcome, None);
    assert c.jobs[id].command == s.jobs[id].command;
    assert t.jobs == if status.Succeeded? then Unblocked(c.jobs, id) else Cascaded(c.jobs, id);
    forall i | i in s.jobs ensures i in t.jobs && (t.jobs[i].status.Running? <==> i != id && s.jobs[i].status.Running?) {
      AdvancedRuns(c.jobs, id, i);
    }
    AdvancedKeys(c.jobs, id);
  }

  lemma AdvancedKeys(jobs: map<Id, Job>, id: Id)
    requires id in jobs
    ensures Unblocked(jobs, id).Keys == jobs.Keys && Cascaded(jobs, id).Keys == jobs.Keys
  {
  }

  lemma RunsIff(s: State, jobs: map<Id, Job>, w: Id, id: Id)
    requires MembersOk(s.nextId, s.jobs, s.workflows) && w in s.workflows && SameRuns(s.jobs, jobs, id)
    ensures SomeMember(jobs, s.workflows[w], Running) <==> OtherRuns(s, w, id)
  {
    assert StepsOk(s.jobs, w, s.workflows[w]);
    if i :| i in s.jobs && i != id && s.jobs[i].command.workflow == Some(w) && s.jobs[i].status.Running? {
      assert MemberOk(s.workflows, i, s.jobs[i]);
    }
  }

  // ---- repeated settlements, over runs -------------------------------------------------------

  /** After an accepted settlement, whatever is called in between: as long as the job was not handed out again, the
      same worker repeating the same command is told that it is settled already, and any other command of that worker
      conflicts, both with the job's status and time; everybody else has lost it, and so has that worker once the job
      was handed out again. A settlement that ended the job is remembered for good, with the status first told. */
  lemma RepeatedSettlement(s: State, ops: seq<Op>, id: Id, attempt: Id, w1: string, a1: Action, now1: Instant,
                           w2: string, a2: Action, now2: Instant)
    requires Inv(s) && ValidRun(ops) && Linked(s)
    requires Accepted(SettleJob(s, id, attempt, w1, a1, now1).1)
    ensures Inv(SettleJob(s, id, attempt, w1, a1, now1).0)
    ensures var first := SettleJob(s, id, attempt, w1, a1, now1).1.value;
            var t := Run(SettleJob(s, id, attempt, w1, a1, now1).0, ops);
            && Linked(t) && id in t.jobs
            && (var j := t.jobs[id];
                SettleJob(t, id, attempt, w2, a2, now2) ==
                  (t, Ok(if j.attempt != Some(attempt) || w2 != w1 then Lost(None)
                         else if SettleName(a2) == SettleName(a1) then AlreadySettled(j.status, j.command.scheduledAt)
                         else SettleConflict(j.status, j.command.scheduledAt))))
            && (Terminal(first.status) ==> t.jobs[id].attempt == Some(attempt) && t.jobs[id].status == first.status)
  {
    SettleInv(s, id, attempt, w1, a1, now1);
    AcceptedIsDecided(s, id, attempt, w1, a1, now1);
    AcceptedIsSpent(s, id, attempt, w1, a1, now1);
    hide Inv, Linked, AllEvolve, SettleJob, Spent, Accepted, Decided;
    var s1 := SettleJob(s, id, attempt, w1, a1, now1).0;
    var t := Run(s1, ops);
    InvLinks(t);
    RunEvolves(s1, ops);
    SettledStays(s1, t, id, attempt);
    SettlementAnswers(t, id, attempt, w2, a2, now2);
  }

  /** A settled attempt keeps its worker and its command until the job is handed out again. */
  lemma SettledStays(s: State, t: State, id: Id, attempt: Id)
    requires AllEvolve(s, t) && Spent(s, id, attempt) && s.jobs[id].attempt == Some(attempt)
    ensures id in t.jobs
    ensures t.jobs[id].attempt == Some(attempt) ==> t.jobs[id].settled == s.jobs[id].settled && t.jobs[id].worker == s.jobs[id].worker
    ensures Terminal(s.jobs[id].status) ==> t.jobs[id] == s.jobs[id]
  {
    assert Evolves(s.nextId, s.jobs[id], t.jobs[id]);
  }
}

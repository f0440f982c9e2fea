/** How a job may change from one state of a run to a later one. */
module LifecycleHistory {
  import opened TaskTypes
  import opened Lifecycle
  import opened LifecycleInvariant
  import opened LifecycleAdd
  import opened LifecycleMoves
  import opened LifecycleSettle
  import opened LifecycleComplete
  import opened LifecycleRuns
  import opened Ordering

  /** `n` bounds the attempts handed out before the change. */
  predicate Evolves(n: Id, j: Job, j': Job) {
    && SameIdentity(j, j')
    && (Terminal(j.status) ==> j' == j)
    && ((j'.attempt == j.attempt && (j.settled.Some? ==> j'.settled == j.settled && j'.worker == j.worker))
        || (j'.attempt.Some? && j'.attempt.value >= n))
  }

  ghost predicate AllEvolve(s: State, t: State) {
    && s.nextId <= t.nextId
    && (forall i :: i in s.jobs ==> i in t.jobs && Evolves(s.nextId, s.jobs[i], t.jobs[i]))
  }

  lemma EvolveChain(s: State, t: State, u: State)
    requires AllEvolve(s, t) && AllEvolve(t, u)
    ensures AllEvolve(s, u)
  {
    forall i | i in s.jobs ensures i in u.jobs && Evolves(s.nextId, s.jobs[i], u.jobs[i]) {
      assert Evolves(s.nextId, s.jobs[i], t.jobs[i]) && Evolves(t.nextId, t.jobs[i], u.jobs[i]);
    }
  }

  lemma SameJobs(s: State, t: State)
    requires s.nextId <= t.nextId && t.jobs == s.jobs
    ensures AllEvolve(s, t)
  {
  }

  lemma MovedEvolve(s: State, t: State)
    requires s.nextId <= t.nextId && Moved(s.jobs, t.jobs)
    ensures AllEvolve(s, t)
  {
    forall i | i in s.jobs ensures i in t.jobs && Evolves(s.nextId, s.jobs[i], t.jobs[i]) {
      assert MovedJob(s.jobs[i], t.jobs[i]);
    }
  }

  lemma AddedEvolve(s: State, job: Job)
    requires s.nextId !in s.jobs
    ensures AllEvolve(s, AddJob(s, job))
  {
  }

  lemma ReplacedEvolve(s: State, t: State, id: Id, j': Job)
    requires s.nextId <= t.nextId && id in s.jobs && t.jobs == s.jobs[id := j'] && Evolves(s.nextId, s.jobs[id], j')
    ensures AllEvolve(s, t)
  {
  }

  lemma ClaimOneEvolves(s: State, id: Id, worker: string)
    requires id in s.jobs && s.jobs[id].status.Queued?
    ensures AllEvolve(s, ClaimOne(s, id, worker))
  {
    ReplacedEvolve(s, ClaimOne(s, id, worker), id, ClaimOne(s, id, worker).jobs[id]);
  }

  lemma ClaimAllEvolves(s: State, ids: seq<Id>, worker: string)
    requires Inv(s) && Ascending(ids) && forall i :: i in ids ==> i in s.jobs && s.jobs[i].status.Queued?
    ensures AllEvolve(s, ClaimAll(s, ids, worker))
  {
    hide Inv, AllEvolve;
    if ids == [] {
      SameJobs(s, s);
    } else {
      var n := |ids| - 1;
      assert ids[n] !in ids[..n];
      ClaimAllInv(s, ids[..n], worker);
      ClaimAllEvolves(s, ids[..n], worker);
      ClaimOneEvolves(ClaimAll(s, ids[..n], worker), ids[n], worker);
      EvolveChain(s, ClaimAll(s, ids[..n], worker), ClaimAll(s, ids, worker));
    }
  }

  lemma ClaimEvolves(s: State, q: ClaimQuery, now: Instant)
    requires Inv(s) && Linked(s)
    ensures AllEvolve(s, Claim(s, q, now))
  {
    PickedFacts(s, q, now);
    SameJobs(s, s);
    hide Inv, AllEvolve, Linked;
    if q.queue in s.known && ValidHashes(q) { ClaimAllEvolves(s, Picked(s, q, now), q.worker); }
  }

  lemma StoreEvolves(s: State, job: Job)
    requires s.nextId !in s.jobs
    ensures AllEvolve(s, Store(s, job))
  {
    AddedEvolve(s, job);
    SameJobs(AddJob(s, job), Store(s, job));
    hide AllEvolve;
    EvolveChain(s, AddJob(s, job), Store(s, job));
  }

  lemma EnqueueEvolves(s: State, c: Command)
    requires Inv(s) && Linked(s) && ValidCommand(c)
    ensures AllEvolve(s, Enqueue(s, c).0)
  {
    hide Inv, Linked, AllEvolve, Store, ParentError;
    FreshId(s);
    var t := Enqueue(s, c).0;
    if t.jobs == s.jobs && t.nextId >= s.nextId { SameJobs(s, t); }
    StoreEvolves(s, NewJob(c, Queued, None, None));
    if c.workflow.Some? && c.workflow.value in s.workflows {
      StoreEvolves(s, NewJob(c, Queued, None, s.workflows[c.workflow.value].policy));
      StoreEvolves(s, NewJob(c, Blocked, None, s.workflows[c.workflow.value].policy));
    }
  }

  lemma AdvanceEvolves(jobs: map<Id, Job>, s: State, id: Id, j': Job)
    requires StatusOk(jobs) && GraphOk(jobs) && Ended(jobs, id, j') && Terminal(j'.status)
    requires s.jobs == jobs[id := j'] && j'.command.workflow.Some? && j'.command.workflow.value in s.workflows
    ensures AllEvolve(s, Advance(s, id))
  {
    hide GraphOk, StatusOk, Unblocked, Cascaded, Moved, Ended, RefreshedStatus, AllEvolve;
    if j'.status.Succeeded? { UnblockedStatus(jobs, id, j'); } else { CascadedStatus(jobs, id, j'); }
    MovedEvolve(s, Advance(s, id));
  }

  lemma CloseEvolves(s: State, id: Id, command: Settle, status: Status, outcome: Outcome, at: Option<Instant>, failures: nat)
    requires id in s.jobs && s.jobs[id].status.Running? && s.jobs[id].settled.None?
    requires Closable(s, id, command, status, failures)
    ensures AllEvolve(s, Close(Counted(s, id, failures), id, command, status, outcome, at))
  {
    CloseShape(s, id, command, status, outcome, at, failures);
    ReplacedEvolve(s, Close(Counted(s, id, failures), id, command, status, outcome, at), id,
                   ClosedJob(s, id, command, status, at, failures));
  }

  lemma RunningUnsettled(s: State, id: Id)
    requires Inv(s) && id in s.jobs && s.jobs[id].status.Running?
    ensures s.jobs[id].settled.None? && s.jobs[id].attempt.Some? && s.jobs[id].attempt.value < s.nextId
    ensures StatusOk(s.jobs) && GraphOk(s.jobs)
  {
    assert AttemptOk(s.nextId, s.jobs[id]);
    hide IdsOk, GraphOk, StatusOk, AttemptsOk, MembersOk, WorkflowKeysOk, ActiveOk, ParentsOk, AccountsOk;
  }

  /** The job and its dependents, after a settlement that is not a completion with children. */
  lemma FinishEvolves(s: State, id: Id, command: Settle, status: Status, outcome: Outcome, at: Option<Instant>, failures: nat)
    requires Inv(s) && Closable(s, id, command, status, failures)
    requires s.jobs[id].command.workflow.Some? ==> s.jobs[id].command.workflow.value in s.workflows
    ensures AllEvolve(s, Finish(Counted(s, id, failures), id, command, status, outcome, at))
  {
    var j' := ClosedJob(s, id, command, status, at, failures);
    hide Inv, StatusOk, GraphOk, AllEvolve, Advance, Close;
    RunningUnsettled(s, id);
    CloseEvolves(s, id, command, status, outcome, at, failures);
    CloseShape(s, id, command, status, outcome, at, failures);
    SameDeps(s.jobs[id], j');
    hide Closable, ClosedJob, Ended;
    var s1 := Close(Counted(s, id, failures), id, command, status, outcome, at);
    if Terminal(status) && s.jobs[id].command.workflow.Some? {
      AdvanceEvolves(s.jobs, s1, id, j');
      EvolveChain(s, s1, Advance(s1, id));
    }
  }

  lemma ChildrenEvolve(s: State, id: Id, policy: Option<string>, children: seq<Child>)
    requires forall i :: i in s.jobs ==> i < s.nextId
    ensures AllEvolve(s, AddChildren(s, id, policy, children))
    ensures forall i :: i in AddChildren(s, id, policy, children).jobs ==> i < AddChildren(s, id, policy, children).nextId
  {
    if children == [] {
      SameJobs(s, s);
    } else {
      var n := |children| - 1;
      ChildrenEvolve(s, id, policy, children[..n]);
      var u := AddChildren(s, id, policy, children[..n]);
      var t := AddChildren(s, id, policy, children);
      assert AllEvolve(u, t) by {
        if children[n].existing.Some? { SameJobs(u, t); } else { AddedEvolve(u, t.jobs[u.nextId]); }
      }
      hide AllEvolve;
      EvolveChain(s, u, t);
    }
  }

  lemma IdsBounded(s: State)
    requires Inv(s)
    ensures forall i :: i in s.jobs ==> i < s.nextId
  {
    hide GraphOk, StatusOk, AttemptsOk, MembersOk, WorkflowKeysOk, ActiveOk, ParentsOk, AccountsOk;
  }

  lemma CompletedEvolves(s: State, id: Id, children: seq<Child>)
    requires Inv(s) && id in s.jobs && s.jobs[id].status.Running?
    requires s.jobs[id].command.workflow.Some? ==> s.jobs[id].command.workflow.value in s.workflows
    ensures AllEvolve(s, Completed(s, id, children))
  {
    hide Inv, AllEvolve, Finish;
    UncountedSame(s, id);
    FinishEvolves(s, id, Complete, Succeeded, OkOutcome, None, s.jobs[id].failures);
    var t := Finish(s, id, Complete, Succeeded, OkOutcome, None);
    FinishedInv(s, id);
    IdsBounded(t);
    ChildrenEvolve(t, id, s.jobs[id].policy, children);
    EvolveChain(s, t, Completed(s, id, children));
  }

  lemma RunningWorkflow(s: State, id: Id)
    requires Linked(s) && id in s.jobs
    ensures s.jobs[id].command.workflow.Some? ==> s.jobs[id].command.workflow.value in s.workflows
  {
  }

  lemma RequeueEvolves(s: State, id: Id, command: Settle, status: Status, at: Option<Instant>)
    requires Inv(s) && Linked(s) && id in s.jobs && s.jobs[id].status.Running? && !command.Fail?
    requires status.Queued? || status.Cancelled?
    ensures s.jobs[id].command.workflow.Some? ==> s.jobs[id].command.workflow.value in s.workflows
    ensures AllEvolve(s, Finish(s, id, command, status, OkOutcome, at))
  {
    hide Inv, Finish, AllEvolve, Linked;
    RunningWorkflow(s, id);
    UncountedSame(s, id);
    FinishEvolves(s, id, command, status, OkOutcome, at, s.jobs[id].failures);
  }

  lemma FailEvolves(s: State, id: Id, retryable: bool, at: Instant)
    requires Inv(s) && Linked(s) && id in s.jobs && s.jobs[id].status.Running?
    ensures s.jobs[id].command.workflow.Some? ==> s.jobs[id].command.workflow.value in s.workflows
    ensures Retries(s.jobs[id], retryable) ==> AllEvolve(s, Finish(CountFailure(s, id), id, Fail, Queued, RetryScheduled, Some(at)))
    ensures AllEvolve(s, Finish(CountFailure(s, id), id, Fail, Failed, Dead, None))
  {
    hide Inv, Finish, AllEvolve, Linked;
    RunningWorkflow(s, id);
    assert Closable(s, id, Fail, Failed, s.jobs[id].failures + 1);
    FinishEvolves(s, id, Fail, Failed, Dead, None, s.jobs[id].failures + 1);
    if Retries(s.jobs[id], retryable) {
      FinishEvolves(s, id, Fail, Queued, RetryScheduled, Some(at), s.jobs[id].failures + 1);
    }
  }

  lemma SettleEvolves(s: State, id: Id, attempt: Id, worker: string, action: Action, now: Instant)
    requires Inv(s) && Linked(s)
    ensures AllEvolve(s, SettleJob(s, id, attempt, worker, action, now).0)
  {
    hide Inv, Finish, PlanCompletion, Completed, Linked, AllEvolve, Retries;
    SameJobs(s, s);
    if ReplayOrLost(s, id, attempt, worker, SettleName(action)).None? {
      match action
      case DoComplete(fs, policy) =>
        RunningWorkflow(s, id);
        if PlanCompletion(s, id, fs, policy).Ok? { CompletedEvolves(s, id, PlanCompletion(s, id, fs, policy).value); }
      case DoFail(retryable, retryAfter) =>
        FailEvolves(s, id, retryable, now + (if retryAfter.Some? then retryAfter.value else 0) * SECOND);
      case DoSnooze(delay) => RequeueEvolves(s, id, Snooze, Queued, Some(now + delay * SECOND));
      case DoRelease(delay) => RequeueEvolves(s, id, Release, Queued, Some(now + delay * SECOND));
      case DoCancelRunning => RequeueEvolves(s, id, CancelRunning, Cancelled, None);
    }
  }

  lemma CancelWorkflowEvolves(s: State, w: Id)
    requires Inv(s)
    ensures AllEvolve(s, CancelWorkflow(s, w).0)
  {
    hide Inv, CancelMembers, Moved, AllEvolve, RefreshedStatus, StatusOk, GraphOk;
    GraphAndStatus(s);
    CancelledStatus(s.jobs, w);
    var t := CancelWorkflow(s, w).0;
    if t.jobs == s.jobs { SameJobs(s, t); } else { MovedEvolve(s, t); }
  }

  lemma StepEvolves(s: State, op: Op)
    requires Inv(s) && Linked(s) && ValidOp(op)
    ensures AllEvolve(s, Apply(s, op))
  {
    hide Inv, AllEvolve, Linked;
    match op
    case OpEnqueue(c) => EnqueueEvolves(s, c);
    case OpCreate(r) => SameJobs(s, CreateWorkflow(s, r, Sort(r.queues, StringLe)).0);
    case OpSeal(w) => SameJobs(s, SealWorkflow(s, w).0);
    case OpCancel(w) => CancelWorkflowEvolves(s, w);
    case OpClaim(q, now) => ClaimEvolves(s, q, now);
    case OpSettle(id, attempt, worker, action, now) => SettleEvolves(s, id, attempt, worker, action, now);
  }

  /** Over a whole run: no job disappears or changes identity, a terminal job never changes again,
      and a settled attempt stays settled or is replaced by a newer one. */
  lemma {:induction false} RunEvolves(s: State, ops: seq<Op>)
    requires Inv(s) && ValidRun(ops)
    ensures AllEvolve(s, Run(s, ops))
  {
    hide Inv, AllEvolve, Apply;
    if ops == [] {
      SameJobs(s, s);
    } else {
      var mid := Run(s, ops[..|ops| - 1]);
      RunEvolves(s, ops[..|ops| - 1]);
      InvLinks(mid);
      StepEvolves(mid, ops[|ops| - 1]);
      EvolveChain(s, mid, Run(s, ops));
    }
  }

  // ---- attempt fencing ---------------------------------------------------------------------

  predicate Accepted(r: Result<Reply, Error>) {
    r.Ok? && r.value.Settled?
  }

  /** The attempt was handed out and can never be settled again. */
  predicate Spent(s: State, id: Id, attempt: Id) {
    && attempt < s.nextId
    && id in s.jobs && (s.jobs[id].attempt != Some(attempt) || s.jobs[id].settled.Some?)
  }

  lemma AcceptedIsLive(s: State, id: Id, attempt: Id, worker: string, action: Action, now: Instant)
    requires Linked(s)
    ensures Accepted(SettleJob(s, id, attempt, worker, action, now).1) ==> !Spent(s, id, attempt)
    ensures !Accepted(SettleJob(s, id, attempt, worker, action, now).1) ==> SettleJob(s, id, attempt, worker, action, now).0 == s
  {
    hide Linked, Finish, PlanCompletion, Completed;
  }

  lemma FinishKeepsJob(s: State, id: Id, command: Settle, status: Status, outcome: Outcome, at: Option<Instant>)
    requires id in s.jobs && !status.Running? && !status.Blocked?
    requires s.jobs[id].command.workflow.Some? ==> s.jobs[id].command.workflow.value in s.workflows
    ensures var t := Finish(s, id, command, status, outcome, at);
            id in t.jobs && t.jobs[id] == SettledJob(s.jobs[id], command, status, at) && t.nextId == s.nextId
  {
    hide RefreshedStatus, Unblocked, Cascaded;
    if Terminal(status) { KeepsParent(Close(s, id, command, status, outcome, at).jobs, id); }
  }

  /** Advancing a workflow does not touch the job that ended. */
  lemma KeepsParent(jobs: map<Id, Job>, id: Id)
    requires id in jobs && Terminal(jobs[id].status)
    ensures id in Unblocked(jobs, id) && Unblocked(jobs, id)[id] == jobs[id]
    ensures id in Cascaded(jobs, id) && Cascaded(jobs, id)[id] == jobs[id]
  {
  }

  lemma CompletedIsSpent(s: State, id: Id, children: seq<Child>)
    requires Inv(s) && id in s.jobs && s.jobs[id].status.Running?
    requires s.jobs[id].command.workflow.Some? ==> s.jobs[id].command.workflow.value in s.workflows
    ensures s.jobs[id].attempt.Some? && Spent(Completed(s, id, children), id, s.jobs[id].attempt.value)
  {
    hide Inv, Finish, AllEvolve, StatusOk, GraphOk;
    RunningUnsettled(s, id);
    var t := Finish(s, id, Complete, Succeeded, OkOutcome, None);
    FinishKeepsJob(s, id, Complete, Succeeded, OkOutcome, None);
    FinishedInv(s, id);
    IdsBounded(t);
    ChildrenEvolve(t, id, s.jobs[id].policy, children);
    SpentForever(t, Completed(s, id, children), id, s.jobs[id].attempt.value);
  }

  lemma FinishIsSpent(s: State, id: Id, command: Settle, status: Status, outcome: Outcome, at: Option<Instant>, attempt: Id)
    requires id in s.jobs && attempt < s.nextId && !status.Running? && !status.Blocked?
    requires s.jobs[id].command.workflow.Some? ==> s.jobs[id].command.workflow.value in s.workflows
    ensures Spent(Finish(s, id, command, status, outcome, at), id, attempt)
  {
    hide Finish;
    FinishKeepsJob(s, id, command, status, outcome, at);
  }

  lemma AcceptedIsSpent(s: State, id: Id, attempt: Id, worker: string, action: Action, now: Instant)
    requires Inv(s) && Linked(s) && Accepted(SettleJob(s, id, attempt, worker, action, now).1)
    ensures Spent(SettleJob(s, id, attempt, worker, action, now).0, id, attempt)
  {
    hide Inv, Finish, PlanCompletion, Linked, Spent, Completed, StatusOk, GraphOk;
    RunningWorkflow(s, id);
    RunningUnsettled(s, id);
    match action
    case DoComplete(fs, policy) => CompletedIsSpent(s, id, PlanCompletion(s, id, fs, policy).value);
    case DoFail(retryable, retryAfter) =>
      var at := now + (if retryAfter.Some? then retryAfter.value else 0) * SECOND;
      FinishIsSpent(CountFailure(s, id), id, Fail, Queued, RetryScheduled, Some(at), attempt);
      FinishIsSpent(CountFailure(s, id), id, Fail, Failed, Dead, None, attempt);
    case DoSnooze(delay) => FinishIsSpent(s, id, Snooze, Queued, OkOutcome, Some(now + delay * SECOND), attempt);
    case DoRelease(delay) => FinishIsSpent(s, id, Release, Queued, OkOutcome, Some(now + delay * SECOND), attempt);
    case DoCancelRunning => FinishIsSpent(s, id, CancelRunning, Cancelled, OkOutcome, None, attempt);
  }

  lemma SpentForever(s: State, t: State, id: Id, attempt: Id)
    requires AllEvolve(s, t) && Spent(s, id, attempt)
    ensures Spent(t, id, attempt)
  {
    assert Evolves(s.nextId, s.jobs[id], t.jobs[id]);
  }

  /** At most one settlement of an attempt is ever accepted: after an accepted one, whatever is called
      in between, every settlement of the same attempt changes nothing and is not accepted. */
  lemma SettledAtMostOnce(s: State, ops: seq<Op>, id: Id, attempt: Id, w1: string, a1: Action, now1: Instant,
                          w2: string, a2: Action, now2: Instant)
    requires Inv(s) && ValidRun(ops) && Linked(s)
    requires Accepted(SettleJob(s, id, attempt, w1, a1, now1).1)
    ensures Inv(SettleJob(s, id, attempt, w1, a1, now1).0)
    ensures var t := Run(SettleJob(s, id, attempt, w1, a1, now1).0, ops);
            Linked(t) && SettleJob(t, id, attempt, w2, a2, now2).0 == t && !Accepted(SettleJob(t, id, attempt, w2, a2, now2).1)
  {
    hide Inv, Linked, AllEvolve, SettleJob, Spent, Accepted;
    SettleInv(s, id, attempt, w1, a1, now1);
    var s1 := SettleJob(s, id, attempt, w1, a1, now1).0;
    var t := Run(s1, ops);
    InvLinks(t);
    AcceptedIsSpent(s, id, attempt, w1, a1, now1);
    RunEvolves(s1, ops);
    SpentForever(s1, t, id, attempt);
    AcceptedIsLive(t, id, attempt, w2, a2, now2);
  }
}

/** Settlements keep the invariant: the fence, the unblocking of dependents, the failure cascade
    and the follow-up children. */
module LifecycleSettle {
  import opened TaskTypes
  import opened Lifecycle
  import opened LifecycleInvariant
  import opened LifecycleAdd
  import opened LifecycleMoves

  // ---- dependency statuses after one job ended ---------------------------------------------

  /** `jobs'` is `jobs` with the running job `id` moved to another status. */
  ghost predicate Ended(jobs: map<Id, Job>, id: Id, j': Job) {
    id in jobs && jobs[id].status.Running? && SameIdentity(jobs[id], j')
  }

  lemma SameDeps(j: Job, j': Job)
    requires SameIdentity(j, j')
    ensures Deps(j') == Deps(j) && j'.command.workflow == j.command.workflow
  {
    assert j'.command.(scheduledAt := None).dependsOn == j.command.(scheduledAt := None).dependsOn;
    assert j'.command.(scheduledAt := None).workflow == j.command.(scheduledAt := None).workflow;
  }

  /** A running job is no parent of a started one. */
  lemma NotAParentOfStarted(jobs: map<Id, Job>, id: Id, i: Id)
    requires StatusOk(jobs) && id in jobs && jobs[id].status.Running? && i in jobs && Started(jobs[i].status)
    ensures id !in Deps(jobs[i])
  {
    assert JobStatusOk(jobs, i);
  }

  lemma RequeuedStatus(jobs: map<Id, Job>, id: Id, j': Job)
    requires StatusOk(jobs) && Ended(jobs, id, j') && j'.status.Queued?
    ensures StatusOk(jobs[id := j'])
  {
    var jobs' := jobs[id := j'];
    SameDeps(jobs[id], j');
    forall i | i in jobs' ensures JobStatusOk(jobs', i) {
      assert JobStatusOk(jobs, i);
      assert Deps(jobs'[i]) == Deps(jobs[i]);
      assert AllSucceeded(jobs, Deps(jobs[i])) <==> AllSucceeded(jobs', Deps(jobs[i]));
    }
  }

  /** Outside a workflow nothing depends on the job. */
  lemma LonerStatus(jobs: map<Id, Job>, id: Id, j': Job)
    requires StatusOk(jobs) && GraphOk(jobs) && Ended(jobs, id, j') && jobs[id].command.workflow.None?
    requires Terminal(j'.status)
    ensures StatusOk(jobs[id := j'])
  {
    var jobs' := jobs[id := j'];
    SameDeps(jobs[id], j');
    forall i | i in jobs' ensures JobStatusOk(jobs', i) {
      assert JobStatusOk(jobs, i);
      assert Deps(jobs'[i]) == Deps(jobs[i]) && id !in Deps(jobs[i]);
      assert AllSucceeded(jobs, Deps(jobs[i])) <==> AllSucceeded(jobs', Deps(jobs[i]));
    }
  }

  lemma UnblockedStatus(jobs: map<Id, Job>, id: Id, j': Job)
    requires StatusOk(jobs) && GraphOk(jobs) && Ended(jobs, id, j') && j'.status.Succeeded?
    ensures var t := Unblocked(jobs[id := j'], id); Moved(jobs[id := j'], t) && StatusOk(t)
  {
    var mid := jobs[id := j'];
    var t := Unblocked(mid, id);
    SameDeps(jobs[id], j');
    forall i | i in t ensures JobStatusOk(t, i) {
      UnblockedOne(jobs, id, j', i);
    }
  }

  lemma UnblockedAt(jobs: map<Id, Job>, id: Id, i: Id)
    requires id in jobs && i in jobs
    ensures i in Unblocked(jobs, id)
    ensures Unblocked(jobs, id)[i] ==
      if jobs[i].command.workflow == jobs[id].command.workflow && jobs[i].status.Blocked? && id in Deps(jobs[i]) && AllSucceeded(jobs, Deps(jobs[i]))
      then jobs[i].(status := Queued) else jobs[i]
  {
  }

  lemma UnblockedOne(jobs: map<Id, Job>, id: Id, j': Job, i: Id)
    requires StatusOk(jobs) && GraphOk(jobs) && Ended(jobs, id, j') && j'.status.Succeeded? && i in jobs
    ensures JobStatusOk(Unblocked(jobs[id := j'], id), i)
  {
    SameDeps(jobs[id], j');
    assert JobStatusOk(jobs, i);
    forall d | d in Deps(jobs[i]) ensures EdgeOk(jobs, i, d) {
    }
    hide SameIdentity, GraphOk, StatusOk, JobStatusOk;
    UnblockedJob(jobs, id, j', i);
  }

  /** The statuses of one job after another has succeeded. */
  lemma UnblockedJob(jobs: map<Id, Job>, id: Id, j': Job, i: Id)
    requires id in jobs && jobs[id].status.Running? && j'.status.Succeeded?
    requires Deps(j') == Deps(jobs[id]) && j'.command.workflow == jobs[id].command.workflow
    requires i in jobs && JobStatusOk(jobs, i) && forall d :: d in Deps(jobs[i]) ==> EdgeOk(jobs, i, d)
    ensures JobStatusOk(Unblocked(jobs[id := j'], id), i)
  {
    hide Unblocked;
    var mid, ids := jobs[id := j'], Deps(jobs[i]);
    UnblockedAt(mid, id, i);
    UnblockedSuccess(mid, id, ids);
    SuccessAfter(jobs, id, j', ids);
    var t := Unblocked(mid, id);
    assert Deps(t[i]) == Deps(mid[i]) == ids;
    if t[i].status.Blocked? {
      assert jobs[i].status.Blocked? && i != id;
      assert id in ids ==> jobs[id].command.workflow == jobs[i].command.workflow by {
        if id in ids { assert EdgeOk(jobs, i, id); }
      }
      hide AllSucceeded;
    }
  }

  /** One job more has succeeded. */
  lemma SuccessAfter(jobs: map<Id, Job>, id: Id, j': Job, ids: seq<Id>)
    requires id in jobs && !jobs[id].status.Succeeded? && j'.status.Succeeded?
    ensures id !in ids ==> (AllSucceeded(jobs[id := j'], ids) <==> AllSucceeded(jobs, ids))
    ensures id in ids ==> !AllSucceeded(jobs, ids)
    ensures AllSucceeded(jobs, ids) ==> AllSucceeded(jobs[id := j'], ids)
  {
  }

  lemma UnblockedSuccess(jobs: map<Id, Job>, id: Id, ids: seq<Id>)
    requires id in jobs
    ensures AllSucceeded(Unblocked(jobs, id), ids) <==> AllSucceeded(jobs, ids)
    ensures forall d :: d in ids && d in jobs ==> d in Unblocked(jobs, id)
    ensures forall d :: d in ids && d in jobs ==> (Unblocked(jobs, id)[d].status.Failed? <==> jobs[d].status.Failed?)
    ensures forall d :: d in ids && d in jobs ==> (Unblocked(jobs, id)[d].status.Cancelled? <==> jobs[d].status.Cancelled?)
  {
    var t := Unblocked(jobs, id);
    forall d | d in jobs ensures t[d].status.Succeeded? <==> jobs[d].status.Succeeded? {
    }
  }

  lemma CascadedStatus(jobs: map<Id, Job>, id: Id, j': Job)
    requires StatusOk(jobs) && GraphOk(jobs) && Ended(jobs, id, j') && (j'.status.Failed? || j'.status.Cancelled?)
    ensures var t := Cascaded(jobs[id := j'], id); Moved(jobs[id := j'], t) && StatusOk(t)
  {
    var mid := jobs[id := j'];
    var wf := mid[id].command.workflow;
    var t := Cascaded(mid, id);
    SameDeps(jobs[id], j');
    forall i | i in t ensures JobStatusOk(t, i) {
      assert JobStatusOk(jobs, i);
      assert Deps(t[i]) == Deps(jobs[i]);
      if t[i].status.Blocked? {
        BlockedSurvivor(jobs, id, j', i);
      } else if Started(t[i].status) {
        if i != id { NotAParentOfStarted(jobs, id, i); }
        assert forall d :: d in Deps(t[i]) ==> d != id && jobs[d].status.Succeeded?;
        assert forall d :: d in Deps(t[i]) ==> t[d] == jobs[d];
      }
    }
  }

  lemma BlockedSurvivor(jobs: map<Id, Job>, id: Id, j': Job, i: Id)
    requires StatusOk(jobs) && GraphOk(jobs) && Ended(jobs, id, j') && (j'.status.Failed? || j'.status.Cancelled?)
    requires i in jobs && Cascaded(jobs[id := j'], id)[i].status.Blocked?
    ensures JobStatusOk(Cascaded(jobs[id := j'], id), i)
  {
    var mid := jobs[id := j'];
    var wf := mid[id].command.workflow;
    var t := Cascaded(mid, id);
    SameDeps(jobs[id], j');
    assert JobStatusOk(jobs, i) && t[i] == jobs[i] && !Doomed(mid, wf, id, i);
    forall d | d in Deps(t[i]) ensures d in t && t[d] == mid[d] && d != id {
      assert d in jobs && d < i && jobs[d].command.workflow == jobs[i].command.workflow;
      if d == id {
        assert Doomed(mid, wf, id, i);
      } else if Doomed(mid, wf, id, d) {
        assert mid[i].command.workflow == wf;
        assert Doomed(mid, wf, id, i);
      }
    }
    assert AllSucceeded(t, Deps(t[i])) <==> AllSucceeded(jobs, Deps(t[i]));
  }

  // ---- the other parts ---------------------------------------------------------------------

  lemma EndedAttempts(nextId: Id, jobs: map<Id, Job>, id: Id, j': Job)
    requires AttemptsOk(nextId, jobs) && Ended(jobs, id, j')
    requires !j'.status.Running? && !j'.status.Blocked? && j'.settled.Some? && j'.attempt == jobs[id].attempt
    ensures AttemptsOk(nextId, jobs[id := j'])
  {
  }

  lemma EndedParents(jobs: map<Id, Job>, id: Id, j': Job)
    requires ParentsOk(jobs) && Ended(jobs, id, j')
    ensures ParentsOk(jobs[id := j'])
  {
  }

  lemma SameKey(j: Job, j': Job)
    requires SameIdentity(j, j')
    ensures j'.command.key == j.command.key && j'.command.queue == j.command.queue
    ensures j'.command.maxAttempts == j.command.maxAttempts
  {
    assert j'.command.(scheduledAt := None).key == j.command.(scheduledAt := None).key;
    assert j'.command.(scheduledAt := None).queue == j.command.(scheduledAt := None).queue;
    assert j'.command.(scheduledAt := None).maxAttempts == j.command.(scheduledAt := None).maxAttempts;
  }

  lemma EndedActive(jobs: map<Id, Job>, active: map<(string, Key), Id>, id: Id, j': Job)
    requires ActiveOk(jobs, active) && Ended(jobs, id, j')
    ensures ActiveOk(jobs[id := j'],
                     if Terminal(j'.status) && jobs[id].command.key.Some?
                     then active - {(jobs[id].command.queue, jobs[id].command.key.value)} else active)
  {
    SameKey(jobs[id], j');
  }

  lemma EndedAccounts(jobs: map<Id, Job>, log: seq<Settlement>, id: Id, j': Job, entry: Settlement)
    requires AccountsOk(jobs, log) && Ended(jobs, id, j') && !j'.status.Running?
    requires entry.job == id && j'.attempts == jobs[id].attempts
    requires j'.failures == jobs[id].failures + (if entry.command.Fail? then 1 else 0)
    requires !Terminal(j'.status) && entry.command.Fail? ==> j'.failures < AttemptLimit(jobs[id].command)
    ensures AccountsOk(jobs[id := j'], log + [entry])
  {
    var jobs', log' := jobs[id := j'], log + [entry];
    SameKey(jobs[id], j');
    assert log'[..|log'| - 1] == log;
    forall i | i in jobs' ensures AccountOk(log', i, jobs'[i]) {
      assert AccountOk(log, i, jobs[i]);
    }
  }

  /** The job as a settlement leaves it; `failures` is already counted. */
  ghost predicate Closable(s: State, id: Id, command: Settle, status: Status, failures: nat) {
    && id in s.jobs && s.jobs[id].status.Running?
    && !status.Running? && !status.Blocked?
    && failures == s.jobs[id].failures + (if command.Fail? then 1 else 0)
    && (command.Fail? && !Terminal(status) ==> failures < AttemptLimit(s.jobs[id].command))
  }

  function Counted(s: State, id: Id, failures: nat): State
    requires id in s.jobs
  {
    s.(jobs := s.jobs[id := s.jobs[id].(failures := failures)])
  }

  /** Everything but the dependency statuses, after the first part of a settlement. */
  ghost predicate InvButStatus(s: State) {
    && IdsOk(s.nextId, s.jobs, s.order)
    && GraphOk(s.jobs)
    && AttemptsOk(s.nextId, s.jobs)
    && MembersOk(s.nextId, s.jobs, s.workflows)
    && WorkflowKeysOk(s.workflows, s.workflowKeys)
    && ActiveOk(s.jobs, s.active)
    && ParentsOk(s.jobs)
    && AccountsOk(s.jobs, s.settlements)
    && CreatedIds(s.enqueues) == s.order
  }

  /** What the settlement stores for the job. */
  function ClosedJob(s: State, id: Id, command: Settle, status: Status, at: Option<Instant>, failures: nat): Job
    requires id in s.jobs
  {
    SettledJob(s.jobs[id].(failures := failures), command, status, at)
  }

  lemma CloseShape(s: State, id: Id, command: Settle, status: Status, outcome: Outcome, at: Option<Instant>, failures: nat)
    requires Closable(s, id, command, status, failures)
    ensures var t := Close(Counted(s, id, failures), id, command, status, outcome, at);
            var j' := ClosedJob(s, id, command, status, at, failures);
            && t == s.(jobs := s.jobs[id := j'],
                       active := if Terminal(j'.status) && s.jobs[id].command.key.Some?
                                 then s.active - {(s.jobs[id].command.queue, s.jobs[id].command.key.value)} else s.active,
                       settlements := s.settlements + [Settlement(id, command, outcome)])
            && Ended(s.jobs, id, j')
            && j'.status == status && j'.settled == Some(command) && j'.attempt == s.jobs[id].attempt
            && j'.attempts == s.jobs[id].attempts && j'.failures == failures
  {
    var j' := ClosedJob(s, id, command, status, at, failures);
    assert s.jobs[id := s.jobs[id].(failures := failures)][id := j'] == s.jobs[id := j'];
  }

  lemma CloseInv(s: State, id: Id, command: Settle, status: Status, outcome: Outcome, at: Option<Instant>, failures: nat)
    requires Inv(s) && Closable(s, id, command, status, failures)
    ensures InvButStatus(Close(Counted(s, id, failures), id, command, status, outcome, at))
  {
    var j' := ClosedJob(s, id, command, status, at, failures);
    CloseShape(s, id, command, status, outcome, at, failures);
    hide IdsOk, GraphOk, StatusOk, AttemptsOk, MembersOk, WorkflowKeysOk, ActiveOk, ParentsOk, AccountsOk, Ended, Close, Counted,
      ClosedJob;
    ReplacedIds(s.nextId, s.jobs, s.order, id, j');
    EndedAttempts(s.nextId, s.jobs, id, j');
    EndedParents(s.jobs, id, j');
    EndedActive(s.jobs, s.active, id, j');
    EndedAccounts(s.jobs, s.settlements, id, j', Settlement(id, command, outcome));
    EndedIdentity(s, id, j');
  }

  lemma EndedIdentity(s: State, id: Id, j': Job)
    requires GraphOk(s.jobs) && MembersOk(s.nextId, s.jobs, s.workflows) && Ended(s.jobs, id, j')
    ensures GraphOk(s.jobs[id := j']) && MembersOk(s.nextId, s.jobs[id := j'], s.workflows)
  {
    hide GraphOk, MembersOk;
    ReplacedGraph(s.jobs, id, j');
    ReplacedMembers(s.nextId, s.jobs, s.workflows, id, j');
  }

  lemma StatusCompletes(s: State)
    requires InvButStatus(s) && StatusOk(s.jobs)
    ensures Inv(s)
  {
    hide IdsOk, GraphOk, StatusOk, AttemptsOk, MembersOk, WorkflowKeysOk, ActiveOk, ParentsOk, AccountsOk;
  }

  lemma MovedButStatus(s: State, jobs': map<Id, Job>)
    requires InvButStatus(s) && Moved(s.jobs, jobs') && StatusOk(jobs')
    ensures Inv(s.(jobs := jobs'))
  {
    MovedIds(s.nextId, s.jobs, jobs', s.order);
    hide IdsOk, GraphOk, StatusOk, AttemptsOk, MembersOk, WorkflowKeysOk, ActiveOk, ParentsOk, AccountsOk, Moved;
    MovedGraph(s.jobs, jobs');
    MovedAttempts(s.nextId, s.jobs, jobs');
    MovedMembers(s.nextId, s.jobs, jobs', s.workflows);
    MovedActive(s.jobs, jobs', s.active);
    MovedParents(s.jobs, jobs');
    MovedAccounts(s.jobs, jobs', s.settlements);
  }

  lemma WorkflowOf(s: State, i: Id)
    requires Inv(s) && i in s.jobs && s.jobs[i].command.workflow.Some?
    ensures s.jobs[i].command.workflow.value in s.workflows
  {
    assert MemberOk(s.workflows, i, s.jobs[i]);
  }

  /** The second part of a settlement that ends the job. */
  lemma AdvanceInv(jobs: map<Id, Job>, s: State, id: Id, j': Job)
    requires StatusOk(jobs) && GraphOk(jobs) && Ended(jobs, id, j') && Terminal(j'.status)
    requires InvButStatus(s) && s.jobs == jobs[id := j']
    requires j'.command.workflow.Some? && j'.command.workflow.value in s.workflows
    ensures Inv(Advance(s, id))
  {
    hide InvButStatus, GraphOk, StatusOk, Unblocked, Cascaded, Moved, Ended, RefreshedStatus, Inv, Refresh;
    var jobs' := if j'.status.Succeeded? then Unblocked(s.jobs, id) else Cascaded(s.jobs, id);
    if j'.status.Succeeded? { UnblockedStatus(jobs, id, j'); } else { CascadedStatus(jobs, id, j'); }
    MovedButStatus(s, jobs');
    RefreshInv(s.(jobs := jobs'), j'.command.workflow.value);
  }

  lemma ClosedInv(s: State, id: Id, command: Settle, status: Status, outcome: Outcome, at: Option<Instant>, failures: nat)
    requires Inv(s) && Closable(s, id, command, status, failures)
    requires !Terminal(status) || s.jobs[id].command.workflow.None?
    ensures Inv(Close(Counted(s, id, failures), id, command, status, outcome, at))
  {
    var j' := ClosedJob(s, id, command, status, at, failures);
    CloseShape(s, id, command, status, outcome, at, failures);
    CloseInv(s, id, command, status, outcome, at, failures);
    if !Terminal(status) { RequeuedStatus(s.jobs, id, j'); } else { LonerStatus(s.jobs, id, j'); }
    hide InvButStatus, GraphOk, StatusOk, Ended, Close, ClosedJob, Closable, Inv, Counted;
    StatusCompletes(Close(Counted(s, id, failures), id, command, status, outcome, at));
  }

  lemma GraphAndStatus(s: State)
    requires Inv(s)
    ensures StatusOk(s.jobs) && GraphOk(s.jobs)
  {
    hide IdsOk, GraphOk, StatusOk, AttemptsOk, MembersOk, WorkflowKeysOk, ActiveOk, ParentsOk, AccountsOk;
  }

  lemma EndedDeps(jobs: map<Id, Job>, id: Id, j': Job)
    requires Ended(jobs, id, j')
    ensures Deps(j') == Deps(jobs[id]) && j'.command.workflow == jobs[id].command.workflow
  {
    SameDeps(jobs[id], j');
  }

  lemma FinishInv(s: State, id: Id, command: Settle, status: Status, outcome: Outcome, at: Option<Instant>, failures: nat)
    requires Inv(s) && Closable(s, id, command, status, failures)
    ensures s.jobs[id].command.workflow.Some? ==> s.jobs[id].command.workflow.value in s.workflows
    ensures Inv(Finish(Counted(s, id, failures), id, command, status, outcome, at))
  {
    if s.jobs[id].command.workflow.Some? { WorkflowOf(s, id); }
    hide Inv, InvButStatus, GraphOk, StatusOk, Ended, Close, Advance;
    if !Terminal(status) || s.jobs[id].command.workflow.None? {
      ClosedInv(s, id, command, status, outcome, at, failures);
    } else {
      GraphAndStatus(s);
      var j' := ClosedJob(s, id, command, status, at, failures);
      CloseShape(s, id, command, status, outcome, at, failures);
      CloseInv(s, id, command, status, outcome, at, failures);
      EndedDeps(s.jobs, id, j');
      hide ClosedJob, Closable;
      AdvanceInv(s.jobs, Close(Counted(s, id, failures), id, command, status, outcome, at), id, j');
    }
  }
}

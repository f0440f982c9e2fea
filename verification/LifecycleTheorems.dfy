/** What the invariant means for callers. */
module LifecycleTheorems {
  import opened TaskTypes
  import opened Lifecycle
  import opened LifecycleInvariant
  import opened LifecycleAdd
  import opened LifecycleMoves
  import opened LifecycleSettle
  import opened LifecycleComplete
  import opened LifecycleRuns
  import opened LifecycleHistory

  // ---- dependencies ------------------------------------------------------------------------

  /** A waiting job can be claimed exactly when all its parents have succeeded. */
  lemma ClaimableIffReady(s: State, i: Id)
    requires Inv(s) && i in s.jobs && Waiting(s.jobs[i].status)
    ensures s.jobs[i].status.Queued? <==> AllSucceeded(s.jobs, Deps(s.jobs[i]))
  {
    assert JobStatusOk(s.jobs, i);
    hide GraphOk, StatusOk, AttemptsOk, MembersOk, WorkflowKeysOk, ActiveOk, ParentsOk, AccountsOk;
  }

  /** A workflow is never stuck: below every blocked member there is a member that is queued or running. */
  lemma {:induction false} NoDeadlock(s: State, i: Id)
    requires Inv(s) && i in s.jobs && s.jobs[i].status.Blocked?
    ensures exists d :: d in s.jobs && d < i && s.jobs[d].command.workflow == s.jobs[i].command.workflow
                        && (s.jobs[d].status.Queued? || s.jobs[d].status.Running?)
    decreases i
  {
    var d := LiveParent(s.jobs, i) by { GraphAndStatus(s); }
    hide Inv;
    if s.jobs[d].status.Blocked? {
      NoDeadlock(s, d);
    }
  }

  lemma LiveParent(jobs: map<Id, Job>, i: Id) returns (d: Id)
    requires GraphOk(jobs) && StatusOk(jobs) && i in jobs && jobs[i].status.Blocked?
    ensures d in Deps(jobs[i]) && d in jobs && d < i && jobs[d].command.workflow == jobs[i].command.workflow
    ensures !Terminal(jobs[d].status)
  {
    assert JobStatusOk(jobs, i);
    d :| d in Deps(jobs[i]) && !(d in jobs && jobs[d].status.Succeeded?);
  }

  /** `i` depends on `root`, directly or through other jobs. */
  predicate Descends(jobs: map<Id, Job>, root: Id, i: Id)
    decreases i
  {
    i in jobs && (root in Deps(jobs[i]) || exists d :: d in Deps(jobs[i]) && d < i && Descends(jobs, root, d))
  }

  /** While a job runs, its descendants are blocked or cancelled, the blocked ones through blocked ones only. */
  lemma {:induction false} DescendantsWait(jobs: map<Id, Job>, id: Id, i: Id)
    requires GraphOk(jobs) && StatusOk(jobs) && id in jobs && jobs[id].status.Running? && Descends(jobs, id, i)
    ensures jobs[i].command.workflow == jobs[id].command.workflow && i != id
    ensures jobs[i].status.Cancelled? || (jobs[i].status.Blocked? && Doomed(jobs, jobs[id].command.workflow, id, i))
    decreases i
  {
    assert JobStatusOk(jobs, i);
    if id !in Deps(jobs[i]) {
      var d :| d in Deps(jobs[i]) && d < i && Descends(jobs, id, d);
      DescendantsWait(jobs, id, d);
    }
  }

  lemma {:induction false} DoomedDescends(jobs: map<Id, Job>, wf: Option<Id>, id: Id, i: Id)
    requires Doomed(jobs, wf, id, i)
    ensures Descends(jobs, id, i)
    decreases i
  {
    if id !in Deps(jobs[i]) {
      var d :| d in Deps(jobs[i]) && d < i && Doomed(jobs, wf, id, d);
      DoomedDescends(jobs, wf, id, d);
    }
  }

  /** Replacing the record of the failed job does not change who is doomed by it. */
  lemma {:induction false} DoomedAfterEnd(jobs: map<Id, Job>, id: Id, j': Job, i: Id)
    requires GraphOk(jobs) && Ended(jobs, id, j') && Terminal(j'.status) && i in jobs
    ensures var wf := jobs[id].command.workflow;
            Doomed(jobs[id := j'], wf, id, i) <==> i != id && Doomed(jobs, wf, id, i)
    decreases i
  {
    var wf, mid := jobs[id].command.workflow, jobs[id := j'];
    SameDeps(jobs[id], j');
    if i != id {
      forall d | d in Deps(jobs[i]) && d < i ensures Doomed(mid, wf, id, d) <==> Doomed(jobs, wf, id, d) {
        DoomedAfterEnd(jobs, id, j', d);
      }
    }
  }

  /** When a job fails or is cancelled for good, exactly its transitive dependents end up cancelled by it;
      every other job keeps its record. */
  lemma CascadeIsExact(jobs: map<Id, Job>, id: Id, j': Job, i: Id)
    requires GraphOk(jobs) && StatusOk(jobs) && Ended(jobs, id, j') && (j'.status.Failed? || j'.status.Cancelled?)
    requires i in jobs && i != id
    ensures var t := Cascaded(jobs[id := j'], id);
            && i in t
            && (Descends(jobs, id, i) ==> t[i] == jobs[i].(status := Cancelled))
            && (!Descends(jobs, id, i) ==> t[i] == jobs[i])
  {
    var wf := jobs[id].command.workflow;
    SameDeps(jobs[id], j');
    DoomedAfterEnd(jobs, id, j', i);
    if Descends(jobs, id, i) { DescendantsWait(jobs, id, i); }
    if Doomed(jobs, wf, id, i) { DoomedDescends(jobs, wf, id, i); }
  }

  /** What the two calls that end a job badly do to another job. */
  ghost predicate Spared(s: State, t: State, id: Id, i: Id)
    requires i in s.jobs
  {
    var bad := id in t.jobs && (t.jobs[id].status.Failed? || t.jobs[id].status.Cancelled?);
    i in t.jobs && t.jobs[i] == if bad && Descends(s.jobs, id, i) then s.jobs[i].(status := Cancelled) else s.jobs[i]
  }

  lemma EndedSpares(s: State, id: Id, command: Settle, status: Status, outcome: Outcome, at: Option<Instant>, failures: nat, i: Id)
    requires GraphOk(s.jobs) && StatusOk(s.jobs) && Closable(s, id, command, status, failures)
    requires status.Queued? || status.Failed? || status.Cancelled?
    requires s.jobs[id].command.workflow.Some? ==> s.jobs[id].command.workflow.value in s.workflows
    requires i in s.jobs && i != id
    ensures Spared(s, Finish(Counted(s, id, failures), id, command, status, outcome, at), id, i)
  {
    hide GraphOk, StatusOk, Finish, Closable, Descends;
    EndingOthers(s, id, command, status, outcome, at, failures, i);
  }

  /** The same for the two calls that end a job badly, in any reachable state. */
  lemma FailureCascade(s: State, id: Id, attempt: Id, worker: string, action: Action, now: Instant, i: Id)
    requires Inv(s) && Linked(s) && i in s.jobs && i != id
    requires action.DoFail? || action.DoCancelRunning?
    requires Accepted(SettleJob(s, id, attempt, worker, action, now).1)
    ensures var t := SettleJob(s, id, attempt, worker, action, now).0;
            var bad := id in t.jobs && (t.jobs[id].status.Failed? || t.jobs[id].status.Cancelled?);
            && i in t.jobs
            && t.jobs[i] == if bad && Descends(s.jobs, id, i) then s.jobs[i].(status := Cancelled) else s.jobs[i]
  {
    hide Inv, Linked, StatusOk, GraphOk, Finish, Descends;
    GraphAndStatus(s);
    RunningWorkflow(s, id);
    UncountedSame(s, id);
    if action.DoFail? {
      var at := now + (if action.retryAfter.Some? then action.retryAfter.value else 0) * SECOND;
      if Retries(s.jobs[id], action.retryable) {
        EndedSpares(s, id, Fail, Queued, RetryScheduled, Some(at), s.jobs[id].failures + 1, i);
      } else {
        EndedSpares(s, id, Fail, Failed, Dead, None, s.jobs[id].failures + 1, i);
      }
    } else {
      EndedSpares(s, id, CancelRunning, Cancelled, OkOutcome, None, s.jobs[id].failures, i);
    }
  }

  lemma EndingOthers(s: State, id: Id, command: Settle, status: Status, outcome: Outcome, at: Option<Instant>, failures: nat, i: Id)
    requires GraphOk(s.jobs) && StatusOk(s.jobs) && Closable(s, id, command, status, failures) && !status.Succeeded?
    requires s.jobs[id].command.workflow.Some? ==> s.jobs[id].command.workflow.value in s.workflows
    requires i in s.jobs && i != id
    ensures var t := Finish(Counted(s, id, failures), id, command, status, outcome, at);
            && i in t.jobs && id in t.jobs && t.jobs[id].status == status
            && t.jobs[i] == if Terminal(status) && Descends(s.jobs, id, i) then s.jobs[i].(status := Cancelled) else s.jobs[i]
  {
    var j' := ClosedJob(s, id, command, status, at, failures);
    CloseShape(s, id, command, status, outcome, at, failures);
    SameDeps(s.jobs[id], j');
    if Terminal(status) {
      CascadeIsExact(s.jobs, id, j', i);
      if s.jobs[id].command.workflow.None? && Descends(s.jobs, id, i) { LonersHaveNoDescendants(s.jobs, id, i); }
    }
    hide GraphOk, StatusOk, RefreshedStatus, Descends, Ended, Close, ClosedJob, Closable;
  }

  lemma {:induction false} LonersHaveNoDescendants(jobs: map<Id, Job>, id: Id, i: Id)
    requires GraphOk(jobs) && id in jobs && jobs[id].command.workflow.None?
    ensures !Descends(jobs, id, i)
    decreases i
  {
    if i in jobs {
      forall d | d in Deps(jobs[i]) && d < i ensures !Descends(jobs, id, d) {
        LonersHaveNoDescendants(jobs, id, d);
      }
    }
  }

  /** In every reachable state a job that was ever claimable has only succeeded parents, and a blocked one has no lost
      parent and waits for a live one. */
  lemma ReachableStatuses(queues: set<string>, ops: seq<Op>, i: Id)
    requires ValidRun(ops)
    ensures Inv(Init(queues))
    ensures var t := Run(Init(queues), ops);
            i in t.jobs ==>
              && (forall d :: d in Deps(t.jobs[i]) ==> d in t.jobs && d < i)
              && (Started(t.jobs[i].status) ==> forall d :: d in Deps(t.jobs[i]) ==> t.jobs[d].status.Succeeded?)
              && (t.jobs[i].status.Blocked? ==>
                    && (forall d :: d in Deps(t.jobs[i]) ==> !t.jobs[d].status.Failed? && !t.jobs[d].status.Cancelled?)
                    && exists d :: d in Deps(t.jobs[i]) && !Terminal(t.jobs[d].status))
  {
    hide Run;
    InitInv(queues);
    var t := Run(Init(queues), ops);
    hide Inv;
    GraphAndStatus(t);
    if i in t.jobs {
      assert JobStatusOk(t.jobs, i);
      forall d | d in Deps(t.jobs[i]) ensures d in t.jobs && d < i { assert EdgeOk(t.jobs, i, d); }
    }
  }
}

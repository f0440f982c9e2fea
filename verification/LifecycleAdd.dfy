/** Adding a job keeps the invariant. */
module LifecycleAdd {
  import opened TaskTypes
  import opened Lifecycle
  import opened LifecycleInvariant

  /** What must hold of a fresh job before it is stored. */
  ghost predicate Addable(s: State, job: Job) {
    var c := job.command;
    && job.attempt.None? && job.worker.None? && job.attempts == 0 && job.failures == 0 && job.settled.None?
    && Waiting(job.status)
    && (forall d :: d in Deps(job) ==> d in s.jobs && c.workflow.Some? && s.jobs[d].command.workflow == c.workflow)
    && (job.status.Queued? ==> AllSucceeded(s.jobs, Deps(job)))
    && (job.status.Blocked? ==> !AllSucceeded(s.jobs, Deps(job)))
    && (forall d :: d in Deps(job) ==> !s.jobs[d].status.Failed? && !s.jobs[d].status.Cancelled?)
    && (c.key.Some? ==> (c.queue, c.key.value) !in s.active)
    && (job.parent.Some? ==> job.parent.value in s.jobs && s.jobs[job.parent.value].status.Succeeded?)
    && (c.workflow.Some? <==> c.step.Some?)
    && (c.workflow.None? ==> job.policy.None?)
    && (c.workflow.Some? ==>
          && c.workflow.value in s.workflows
          && c.step.value !in s.workflows[c.workflow.value].steps
          && job.policy == s.workflows[c.workflow.value].policy
          && (s.workflows[c.workflow.value].limit.Some? ==>
                s.workflows[c.workflow.value].admitted < s.workflows[c.workflow.value].limit.value)
          && (c.step.value.Member? ==> job.parent == Some(c.step.value.parent)))
  }

  lemma FreshIsUnlogged(log: seq<Settlement>, i: Id)
    requires forall k :: 0 <= k < |log| ==> log[k].job != i
    ensures SettlementsOf(log, i) == 0 && FailuresOf(log, i) == 0
  {
    if log != [] { FreshIsUnlogged(log[..|log| - 1], i); }
  }

  lemma AddedIds(id: Id, jobs: map<Id, Job>, order: seq<Id>, job: Job)
    requires IdsOk(id, jobs, order)
    ensures IdsOk(id + 1, jobs[id := job], order + [id])
  {
    var order' := order + [id];
    forall i, j | 0 <= i < j < |order'| ensures order'[i] < order'[j] {
      if j == |order| { assert order'[i] == order[i] && order[i] in order; }
    }
  }

  lemma AddedGraph(id: Id, jobs: map<Id, Job>, job: Job)
    requires GraphOk(jobs) && id !in jobs && (forall i :: i in jobs ==> i < id)
    requires forall d :: d in Deps(job) ==> d in jobs && job.command.workflow.Some? && jobs[d].command.workflow == job.command.workflow
    ensures GraphOk(jobs[id := job])
  {
    var jobs' := jobs[id := job];
    forall i, d | i in jobs' && d in Deps(jobs'[i])
      ensures EdgeOk(jobs', i, d)
    {
      if i != id { assert EdgeOk(jobs, i, d); }
    }
  }

  lemma AddedStatus(id: Id, jobs: map<Id, Job>, job: Job)
    requires GraphOk(jobs) && StatusOk(jobs) && id !in jobs && Waiting(job.status)
    requires forall d :: d in Deps(job) ==> d in jobs && !jobs[d].status.Failed? && !jobs[d].status.Cancelled?
    requires job.status.Queued? <==> AllSucceeded(jobs, Deps(job))
    ensures StatusOk(jobs[id := job])
  {
    var jobs' := jobs[id := job];
    forall i | i in jobs' ensures JobStatusOk(jobs', i) {
      assert forall d :: d in Deps(jobs'[i]) ==> d in jobs && d != id;
      assert AllSucceeded(jobs', Deps(jobs'[i])) <==> AllSucceeded(jobs, Deps(jobs'[i]));
      if i != id { assert JobStatusOk(jobs, i); }
    }
  }

  lemma AddedAttempts(id: Id, jobs: map<Id, Job>, job: Job)
    requires AttemptsOk(id, jobs) && id !in jobs && job.attempt.None? && job.settled.None? && job.attempts == 0 && Waiting(job.status)
    ensures AttemptsOk(id + 1, jobs[id := job])
  {
  }

  lemma AddedAccounts(id: Id, jobs: map<Id, Job>, log: seq<Settlement>, job: Job)
    requires AccountsOk(jobs, log) && id !in jobs && job.attempts == 0 && job.failures == 0 && Waiting(job.status)
    ensures AccountsOk(jobs[id := job], log)
  {
    FreshIsUnlogged(log, id);
  }

  lemma AddedActive(id: Id, jobs: map<Id, Job>, active: map<(string, Key), Id>, job: Job)
    requires ActiveOk(jobs, active) && id !in jobs
    requires job.command.key.Some? ==> (job.command.queue, job.command.key.value) !in active
    ensures ActiveOk(jobs[id := job],
                     if job.command.key.Some? then active[(job.command.queue, job.command.key.value) := id] else active)
  {
  }

  lemma AddedParents(id: Id, jobs: map<Id, Job>, job: Job)
    requires ParentsOk(jobs) && id !in jobs && (forall i :: i in jobs ==> i < id)
    requires job.parent.Some? ==> job.parent.value in jobs && jobs[job.parent.value].status.Succeeded?
    ensures ParentsOk(jobs[id := job])
  {
  }

  /** A job outside every workflow. */
  lemma AddedLoner(id: Id, jobs: map<Id, Job>, ws: map<Id, Workflow>, job: Job)
    requires MembersOk(id, jobs, ws) && id !in jobs
    requires job.command.workflow.None? && job.command.step.None? && job.policy.None?
    ensures MembersOk(id + 1, jobs[id := job], ws)
  {
    var jobs' := jobs[id := job];
    forall w | w in ws ensures w < id + 1 && StepsOk(jobs', w, ws[w]) {
      assert StepsOk(jobs, w, ws[w]);
    }
    forall i | i in jobs' ensures MemberOk(ws, i, jobs'[i]) {
      if i != id { assert MemberOk(ws, i, jobs[i]); }
    }
  }

  function WithStep(w: Workflow, step: Step, id: Id): Workflow {
    w.(steps := w.steps[step := id], admitted := w.admitted + 1)
  }

  lemma StepsAdded(id: Id, jobs: map<Id, Job>, job: Job, w: Id, wf: Workflow, step: Step)
    requires StepsOk(jobs, w, wf) && id !in jobs && step !in wf.steps
    requires job.command.workflow == Some(w) && job.command.step == Some(step)
    requires wf.limit.Some? ==> wf.admitted < wf.limit.value
    ensures StepsOk(jobs[id := job], w, WithStep(wf, step, id))
  {
    assert WithStep(wf, step, id).steps.Keys == wf.steps.Keys + {step};
  }

  lemma MemberEntries(id: Id, jobs: map<Id, Job>, ws: map<Id, Workflow>, job: Job, w: Id, step: Step, i: Id)
    requires i in jobs && i != id && MemberOk(ws, i, jobs[i])
    requires w in ws && step !in ws[w].steps
    ensures MemberOk(ws[w := WithStep(ws[w], step, id)], i, jobs[i])
  {
  }

  /** A job that takes a free step of its workflow. */
  lemma AddedMember(id: Id, jobs: map<Id, Job>, ws: map<Id, Workflow>, job: Job, w: Id, step: Step)
    requires MembersOk(id, jobs, ws) && id !in jobs
    requires job.command.workflow == Some(w) && job.command.step == Some(step)
    requires w in ws && step !in ws[w].steps && job.policy == ws[w].policy
    requires ws[w].limit.Some? ==> ws[w].admitted < ws[w].limit.value
    requires step.Member? ==> job.parent == Some(step.parent)
    ensures MembersOk(id + 1, jobs[id := job], ws[w := WithStep(ws[w], step, id)])
  {
    var jobs' := jobs[id := job];
    var ws' := ws[w := WithStep(ws[w], step, id)];
    assert MemberOk(ws', id, job);
    hide StepsOk, MemberOk, WithStep;
    forall x | x in ws' ensures x < id + 1 && StepsOk(jobs', x, ws'[x]) {
      assert x < id && StepsOk(jobs, x, ws[x]);
      if x == w { StepsAdded(id, jobs, job, w, ws[w], step); } else { OtherSteps(jobs, id, job, x, ws[x]); }
    }
    forall i | i in jobs' ensures MemberOk(ws', i, jobs'[i]) {
      if i != id { MemberEntries(id, jobs, ws, job, w, step, i); }
    }
  }

  lemma OtherSteps(jobs: map<Id, Job>, id: Id, job: Job, x: Id, wf: Workflow)
    requires StepsOk(jobs, x, wf) && id !in jobs
    ensures StepsOk(jobs[id := job], x, wf)
  {
  }

  lemma AddedWorkflow(ws: map<Id, Workflow>, keys: map<string, Id>, w: Id, w': Workflow)
    requires WorkflowKeysOk(ws, keys) && w in ws && w'.key == ws[w].key
    ensures WorkflowKeysOk(ws[w := w'], keys)
  {
  }

  lemma AddJobInv(s: State, job: Job)
    requires Inv(s) && Addable(s, job)
    ensures Inv(Log(AddJob(s, job), s.nextId, job.command, true, job.parent))
  {
    hide GraphOk, StatusOk, AttemptsOk, MembersOk, WorkflowKeysOk, ActiveOk, ParentsOk, AccountsOk, Deps, AllSucceeded;
    var t := Log(AddJob(s, job), s.nextId, job.command, true, job.parent);
    var id, c := s.nextId, job.command;
    assert id !in s.jobs;
    AddedIds(id, s.jobs, s.order, job);
    AddedGraph(id, s.jobs, job);
    AddedStatus(id, s.jobs, job);
    AddedAttempts(id, s.jobs, job);
    AddedAccounts(id, s.jobs, s.settlements, job);
    AddedActive(id, s.jobs, s.active, job);
    AddedParents(id, s.jobs, job);
    if c.workflow.Some? {
      var w, step := c.workflow.value, c.step.value;
      AddedMember(id, s.jobs, s.workflows, job, w, step);
      AddedWorkflow(s.workflows, s.workflowKeys, w, t.workflows[w]);
    } else {
      AddedLoner(id, s.jobs, s.workflows, job);
    }
    assert t.enqueues[..|t.enqueues| - 1] == s.enqueues;
  }

  lemma StoreInv(s: State, job: Job)
    requires Inv(s) && Addable(s, job)
    ensures Inv(Store(s, job))
  {
    AddJobInv(s, job);
    hide Addable;
  }

  lemma LogExistedInv(s: State, id: Id, c: Command, parent: Option<Id>)
    requires Inv(s)
    ensures Inv(Log(s, id, c, false, parent))
  {
    var t := Log(s, id, c, false, parent);
    assert t.enqueues[..|t.enqueues| - 1] == s.enqueues;
  }

  // ---- enqueue -----------------------------------------------------------------------------

  lemma EnqueuePlainInv(s: State, c: Command)
    requires Inv(s) && ValidCommand(c) && c.workflow.None?
    ensures Linked(s) && Inv(EnqueuePlain(s, c).0)
  {
    InvLinks(s);
    if c.key.Some? && (c.queue, c.key.value) in s.active {
      var id := s.active[(c.queue, c.key.value)];
      LogExistedInv(s, id, c, s.jobs[id].parent);
    } else {
      StoreInv(s, NewJob(c, Queued, None, None));
    }
  }

  lemma NoParentError(jobs: map<Id, Job>, c: Command, parents: seq<Id>)
    requires ParentError(jobs, c, parents).None?
    ensures forall d :: d in parents ==> d in jobs && jobs[d].command.workflow == c.workflow
                                         && !jobs[d].status.Failed? && !jobs[d].status.Cancelled?
  {
    if parents != [] {
      NoParentError(jobs, c, parents[1..]);
      assert parents == [parents[0]] + parents[1..];
    }
  }

  /** `w'` differs from `w` in its flags, its status and perhaps its admission count only. */
  predicate SameMembers(w: Workflow, w': Workflow) {
    && w'.key == w.key && w'.steps == w.steps && w'.policy == w.policy && w'.limit == w.limit
    && w.admitted <= w'.admitted && (w'.limit.Some? ==> w'.admitted <= w'.limit.value)
  }

  lemma TouchedMembers(nextId: Id, jobs: map<Id, Job>, ws: map<Id, Workflow>, w: Id, w': Workflow)
    requires MembersOk(nextId, jobs, ws) && w in ws && SameMembers(ws[w], w')
    ensures MembersOk(nextId, jobs, ws[w := w'])
  {
    hide StepsOk;
    var ws' := ws[w := w'];
    forall x | x in ws' ensures x < nextId && StepsOk(jobs, x, ws'[x]) {
      assert x in ws && StepsOk(jobs, x, ws[x]);
      TouchedSteps(jobs, x, ws[x], ws'[x]);
    }
    forall i | i in jobs ensures MemberOk(ws', i, jobs[i]) {
      assert MemberOk(ws, i, jobs[i]);
    }
  }

  lemma TouchedSteps(jobs: map<Id, Job>, x: Id, wf: Workflow, wf': Workflow)
    requires StepsOk(jobs, x, wf) && (wf' == wf || SameMembers(wf, wf'))
    ensures StepsOk(jobs, x, wf')
  {
  }

  lemma TouchedInv(s: State, w: Id, w': Workflow)
    requires Inv(s) && w in s.workflows && SameMembers(s.workflows[w], w')
    ensures Inv(s.(workflows := s.workflows[w := w']))
  {
    hide IdsOk, GraphOk, StatusOk, AttemptsOk, MembersOk, WorkflowKeysOk, ActiveOk, ParentsOk, AccountsOk;
    TouchedMembers(s.nextId, s.jobs, s.workflows, w, w');
    AddedWorkflow(s.workflows, s.workflowKeys, w, w');
  }

  lemma LaterIds(nextId: Id, jobs: map<Id, Job>, order: seq<Id>, ws: map<Id, Workflow>)
    requires IdsOk(nextId, jobs, order) && AttemptsOk(nextId, jobs) && MembersOk(nextId, jobs, ws)
    ensures IdsOk(nextId + 1, jobs, order) && AttemptsOk(nextId + 1, jobs) && MembersOk(nextId + 1, jobs, ws)
  {
    hide StepsOk, MemberOk;
  }

  lemma SpendIdInv(s: State, known: set<string>)
    requires Inv(s)
    ensures Inv(s.(nextId := s.nextId + 1, known := known))
  {
    LaterIds(s.nextId, s.jobs, s.order, s.workflows);
    hide IdsOk, GraphOk, StatusOk, AttemptsOk, MembersOk, WorkflowKeysOk, ActiveOk, ParentsOk, AccountsOk;
  }

  lemma RollbackInv(s: State, w: Id, queue: string)
    requires Inv(s) && w in s.workflows
    requires s.workflows[w].limit.Some? ==> s.workflows[w].admitted < s.workflows[w].limit.value
    ensures Inv(RolledBack(s, w, queue))
  {
    hide Inv;
    TouchedInv(s, w, s.workflows[w].(admitted := s.workflows[w].admitted + 1));
    SpendIdInv(s.(workflows := s.workflows[w := s.workflows[w].(admitted := s.workflows[w].admitted + 1)]), s.known + {queue});
  }

  lemma MemberIsAddable(s: State, c: Command, parents: seq<Id>)
    requires Inv(s) && ValidCommand(c) && c.workflow.Some? && c.workflow.value in s.workflows
    requires parents == Deps(NewJob(c, Queued, None, None)) && ParentError(s.jobs, c, parents).None?
    requires c.step.value !in s.workflows[c.workflow.value].steps
    requires c.key.Some? ==> (c.queue, c.key.value) !in s.active
    requires var w := s.workflows[c.workflow.value]; w.limit.Some? ==> w.admitted < w.limit.value
    ensures Addable(s, NewJob(c, if AllSucceeded(s.jobs, parents) then Queued else Blocked, None, s.workflows[c.workflow.value].policy))
  {
    NoParentError(s.jobs, c, parents);
    hide Inv;
  }

  lemma EnqueueMemberInv(s: State, c: Command)
    requires Inv(s) && ValidCommand(c) && c.workflow.Some?
    ensures Linked(s) && Inv(EnqueueMember(s, c).0)
  {
    hide Inv, Addable, Store, RolledBack;
    InvLinks(s);
    if c.workflow.value in s.workflows {
      var w := s.workflows[c.workflow.value];
      var parents := if c.dependsOn.Some? then c.dependsOn.value else [];
      if c.step.value in w.steps {
        LogExistedInv(s, w.steps[c.step.value], c, s.jobs[w.steps[c.step.value]].parent);
      } else if ParentError(s.jobs, c, parents).None? && !(w.limit.Some? && w.admitted >= w.limit.value) {
        if c.key.Some? && (c.queue, c.key.value) in s.active {
          RollbackInv(s, c.workflow.value, c.queue);
        } else {
          MemberIsAddable(s, c, parents);
          var job := NewJob(c, if AllSucceeded(s.jobs, parents) then Queued else Blocked, None, w.policy);
          StoreInv(s, job);
        }
      }
    }
  }
}

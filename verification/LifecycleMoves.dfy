/** Status changes of waiting jobs, and claims, keep the invariant. */
module LifecycleMoves {
  import opened TaskTypes
  import opened Lifecycle
  import opened LifecycleInvariant
  import opened LifecycleAdd

  predicate MovedJob(j: Job, j': Job) {
    || j' == j
    || (Waiting(j.status) && j' == j.(status := Cancelled))
    || (j.status.Blocked? && j' == j.(status := Queued))
  }

  /** Only waiting jobs changed, to CANCELLED or from BLOCKED to QUEUED. */
  ghost predicate Moved(jobs: map<Id, Job>, jobs': map<Id, Job>) {
    && (forall i :: i in jobs <==> i in jobs')
    && (forall i :: i in jobs ==> MovedJob(jobs[i], jobs'[i]))
  }

  lemma MovedGraph(jobs: map<Id, Job>, jobs': map<Id, Job>)
    requires Moved(jobs, jobs') && GraphOk(jobs)
    ensures GraphOk(jobs')
  {
    forall i, d | i in jobs' && d in Deps(jobs'[i])
      ensures EdgeOk(jobs', i, d)
    {
      assert MovedJob(jobs[i], jobs'[i]) && d in Deps(jobs[i]) && EdgeOk(jobs, i, d);
      assert MovedJob(jobs[d], jobs'[d]);
    }
  }

  lemma MovedAttempts(nextId: Id, jobs: map<Id, Job>, jobs': map<Id, Job>)
    requires Moved(jobs, jobs') && AttemptsOk(nextId, jobs)
    ensures AttemptsOk(nextId, jobs')
  {
  }

  lemma MovedSteps(jobs: map<Id, Job>, jobs': map<Id, Job>, w: Id, wf: Workflow)
    requires Moved(jobs, jobs') && StepsOk(jobs, w, wf)
    ensures StepsOk(jobs', w, wf)
  {
  }

  lemma MovedMembers(nextId: Id, jobs: map<Id, Job>, jobs': map<Id, Job>, ws: map<Id, Workflow>)
    requires Moved(jobs, jobs') && MembersOk(nextId, jobs, ws)
    ensures MembersOk(nextId, jobs', ws)
  {
    forall w | w in ws ensures StepsOk(jobs', w, ws[w]) {
      MovedSteps(jobs, jobs', w, ws[w]);
    }
    hide StepsOk;
    forall i | i in jobs' ensures MemberOk(ws, i, jobs'[i]) {
      assert MemberOk(ws, i, jobs[i]) && MovedJob(jobs[i], jobs'[i]);
    }
  }

  lemma MovedActive(jobs: map<Id, Job>, jobs': map<Id, Job>, active: map<(string, Key), Id>)
    requires Moved(jobs, jobs') && ActiveOk(jobs, active)
    ensures ActiveOk(jobs', active)
  {
  }

  lemma MovedParents(jobs: map<Id, Job>, jobs': map<Id, Job>)
    requires Moved(jobs, jobs') && ParentsOk(jobs)
    ensures ParentsOk(jobs')
  {
  }

  lemma MovedAccounts(jobs: map<Id, Job>, jobs': map<Id, Job>, log: seq<Settlement>)
    requires Moved(jobs, jobs') && AccountsOk(jobs, log)
    ensures AccountsOk(jobs', log)
  {
  }

  /** Everything but the dependency statuses survives a move; those are the caller's to prove. */
  lemma MovedInv(s: State, jobs': map<Id, Job>)
    requires Inv(s.(jobs := s.jobs)) && Moved(s.jobs, jobs') && StatusOk(jobs')
    ensures Inv(s.(jobs := jobs'))
  {
    MovedIds(s.nextId, s.jobs, jobs', s.order);
    hide IdsOk, GraphOk, StatusOk, AttemptsOk, MembersOk, WorkflowKeysOk, ActiveOk, ParentsOk, AccountsOk, Moved;
    MovedGraph(s.jobs, jobs');
    MovedAttempts(s.nextId, s.jobs, jobs');
    MovedMembers(s.nextId, s.jobs, jobs', s.workflows);
    MovedActive(s.jobs, jobs', s.active);
    MovedParents(s.jobs, jobs');
    MovedAccounts(s.jobs, jobs', s.settlements);
  }

  lemma MovedIds(nextId: Id, jobs: map<Id, Job>, jobs': map<Id, Job>, order: seq<Id>)
    requires Moved(jobs, jobs') && IdsOk(nextId, jobs, order)
    ensures IdsOk(nextId, jobs', order)
  {
  }

  // ---- workflow cancellation ---------------------------------------------------------------

  lemma CancelledStatus(jobs: map<Id, Job>, w: Id)
    requires GraphOk(jobs) && StatusOk(jobs)
    ensures Moved(jobs, CancelMembers(jobs, w)) && StatusOk(CancelMembers(jobs, w))
  {
    var jobs' := CancelMembers(jobs, w);
    forall i | i in jobs' ensures JobStatusOk(jobs', i) {
      CancelledOne(jobs, w, i);
    }
  }

  lemma CancelledOne(jobs: map<Id, Job>, w: Id, i: Id)
    requires GraphOk(jobs) && StatusOk(jobs) && i in jobs
    ensures JobStatusOk(CancelMembers(jobs, w), i)
  {
    var jobs' := CancelMembers(jobs, w);
    assert JobStatusOk(jobs, i) && Deps(jobs'[i]) == Deps(jobs[i]);
    forall d | d in Deps(jobs[i]) ensures d in jobs && (jobs[d].status.Succeeded? ==> jobs'[d] == jobs[d]) {
    }
    if jobs'[i].status.Blocked? {
      forall d | d in Deps(jobs[i]) ensures jobs'[d] == jobs[d] {
        assert jobs[d].command.workflow == jobs[i].command.workflow;
      }
    }
  }

  lemma AdmittedWithin(s: State, w: Id)
    requires Inv(s) && w in s.workflows
    ensures SameMembers(s.workflows[w], s.workflows[w])
    ensures forall x: WorkflowStatus :: SameMembers(s.workflows[w], s.workflows[w].(status := x))
  {
    assert StepsOk(s.jobs, w, s.workflows[w]);
  }

  lemma RefreshInv(s: State, w: Id)
    requires Inv(s) && w in s.workflows
    ensures Inv(Refresh(s, w))
  {
    AdmittedWithin(s, w);
    hide Inv, RefreshedStatus;
    TouchedInv(s, w, s.workflows[w].(status := RefreshedStatus(s.jobs, s.workflows[w])));
  }

  lemma SealInv(s: State, w: Id)
    requires Inv(s)
    ensures Inv(SealWorkflow(s, w).0)
  {
    if w in s.workflows {
      AdmittedWithin(s, w);
      hide Inv, RefreshedStatus;
      var w' := s.workflows[w].(sealed := true);
      TouchedInv(s, w, w');
      RefreshInv(s.(workflows := s.workflows[w := w']), w);
    }
  }

  lemma CancelWorkflowInv(s: State, w: Id)
    requires Inv(s)
    ensures Inv(CancelWorkflow(s, w).0)
  {
    if w in s.workflows && s.workflows[w].status.WfRunning? && !s.workflows[w].cancelRequested {
      AdmittedWithin(s, w);
      CancelledStatus(s.jobs, w);
      hide Inv, RefreshedStatus, Moved, StatusOk, CancelMembers;
      MovedInv(s, CancelMembers(s.jobs, w));
      var s1 := s.(jobs := CancelMembers(s.jobs, w));
      var w' := s.workflows[w].(cancelRequested := true, sealed := true);
      TouchedInv(s1, w, w');
      RefreshInv(s1.(workflows := s1.workflows[w := w']), w);
    }
  }

  lemma NewWorkflowMembers(id: Id, jobs: map<Id, Job>, ws: map<Id, Workflow>, w: Workflow)
    requires MembersOk(id, jobs, ws) && id !in ws && w.steps == map[] && w.admitted == 0
    requires w.limit.Some? ==> 0 <= w.limit.value
    ensures MembersOk(id + 1, jobs, ws[id := w])
  {
    var ws' := ws[id := w];
    forall x | x in ws' ensures x < id + 1 && StepsOk(jobs, x, ws'[x]) {
      hide MemberOk;
      assert x != id ==> StepsOk(jobs, x, ws[x]);
    }
    hide StepsOk;
    forall i | i in jobs ensures MemberOk(ws', i, jobs[i]) {
      assert MemberOk(ws, i, jobs[i]);
    }
  }

  lemma FreshWorkflowId(id: Id, jobs: map<Id, Job>, ws: map<Id, Workflow>)
    requires MembersOk(id, jobs, ws)
    ensures id !in ws
  {
    hide StepsOk, MemberOk;
  }

  lemma NewWorkflowKey(ws: map<Id, Workflow>, keys: map<string, Id>, id: Id, w: Workflow)
    requires WorkflowKeysOk(ws, keys) && id !in ws && w.key !in keys
    ensures WorkflowKeysOk(ws[id := w], keys[w.key := id])
  {
  }

  lemma CreateWorkflowInv(s: State, r: WorkflowRequest, sorted: seq<string>)
    requires Inv(s)
    ensures Linked(s) && Inv(CreateWorkflow(s, r, sorted).0)
  {
    hide IdsOk, GraphOk, StatusOk, AttemptsOk, MembersOk, WorkflowKeysOk, ActiveOk, ParentsOk, AccountsOk, Linked;
    InvLinks(s);
    var t := CreateWorkflow(s, r, sorted).0;
    if t != s {
      FreshWorkflowId(s.nextId, s.jobs, s.workflows);
      LaterIds(s.nextId, s.jobs, s.order, s.workflows);
      NewWorkflowMembers(s.nextId, s.jobs, s.workflows, t.workflows[s.nextId]);
      NewWorkflowKey(s.workflows, s.workflowKeys, s.nextId, t.workflows[s.nextId]);
    }
  }

  // ---- claim -------------------------------------------------------------------------------

  lemma ClaimedStatus(jobs: map<Id, Job>, id: Id, j': Job)
    requires StatusOk(jobs) && id in jobs && jobs[id].status.Queued?
    requires j'.status.Running? && j'.command == jobs[id].command
    ensures StatusOk(jobs[id := j'])
  {
    var jobs' := jobs[id := j'];
    forall i | i in jobs' ensures JobStatusOk(jobs', i) {
      assert JobStatusOk(jobs, i);
      assert AllSucceeded(jobs, Deps(jobs[i])) <==> AllSucceeded(jobs', Deps(jobs[i]));
    }
  }

  /** Replacing one job's bookkeeping leaves its identity, and with it the workflow records, alone. */
  predicate SameIdentity(j: Job, j': Job) {
    && j'.command.(scheduledAt := None) == j.command.(scheduledAt := None)
    && j'.policy == j.policy && j'.parent == j.parent
  }

  /** The parts of a command that only the claim time may change are few: these stay. */
  lemma IdentityFields(j: Job, j': Job)
    requires SameIdentity(j, j')
    ensures j'.command.workflow == j.command.workflow && j'.command.step == j.command.step && j'.command.dependsOn == j.command.dependsOn
    ensures j'.policy == j.policy && j'.parent == j.parent && Deps(j') == Deps(j)
  {
    var c, c' := j.command.(scheduledAt := None), j'.command.(scheduledAt := None);
    assert c'.workflow == c.workflow && c'.step == c.step && c'.dependsOn == c.dependsOn;
  }

  lemma ReplacedSteps(jobs: map<Id, Job>, id: Id, j': Job, w: Id, wf: Workflow)
    requires StepsOk(jobs, w, wf) && id in jobs
    requires j'.command.workflow == jobs[id].command.workflow && j'.command.step == jobs[id].command.step
    ensures StepsOk(jobs[id := j'], w, wf)
  {
  }

  lemma ReplacedMember(ws: map<Id, Workflow>, i: Id, j: Job, j': Job)
    requires MemberOk(ws, i, j) && j'.command.workflow == j.command.workflow && j'.command.step == j.command.step
    requires j'.policy == j.policy && j'.parent == j.parent
    ensures MemberOk(ws, i, j')
  {
  }

  lemma ReplacedMembers(nextId: Id, jobs: map<Id, Job>, ws: map<Id, Workflow>, id: Id, j': Job)
    requires MembersOk(nextId, jobs, ws) && id in jobs && SameIdentity(jobs[id], j')
    ensures MembersOk(nextId, jobs[id := j'], ws)
  {
    var jobs' := jobs[id := j'];
    IdentityFields(jobs[id], j');
    hide SameIdentity, StepsOk, MemberOk;
    forall w | w in ws ensures StepsOk(jobs', w, ws[w]) {
      ReplacedSteps(jobs, id, j', w, ws[w]);
    }
    assert MemberOk(ws, id, jobs[id]);
    ReplacedMember(ws, id, jobs[id], j');
  }

  lemma ReplacedGraph(jobs: map<Id, Job>, id: Id, j': Job)
    requires GraphOk(jobs) && id in jobs && SameIdentity(jobs[id], j')
    ensures GraphOk(jobs[id := j'])
  {
    var jobs' := jobs[id := j'];
    IdentityFields(jobs[id], j');
    hide SameIdentity;
    forall i, d | i in jobs' && d in Deps(jobs'[i])
      ensures EdgeOk(jobs', i, d)
    {
      assert Deps(jobs'[i]) == Deps(jobs[i]);
      assert EdgeOk(jobs, i, d);
    }
  }

  lemma ReplacedIds(nextId: Id, jobs: map<Id, Job>, order: seq<Id>, id: Id, j': Job)
    requires IdsOk(nextId, jobs, order) && id in jobs
    ensures IdsOk(nextId, jobs[id := j'], order)
  {
  }

  lemma ClaimedAttempts(id: Id, a: Id, jobs: map<Id, Job>, j': Job)
    requires AttemptsOk(a, jobs) && id in jobs && j'.status.Running? && j'.attempt == Some(a) && j'.worker.Some? && j'.settled.None?
    ensures AttemptsOk(a + 1, jobs[id := j'])
  {
  }

  lemma ClaimedAccounts(id: Id, jobs: map<Id, Job>, log: seq<Settlement>, j': Job)
    requires AccountsOk(jobs, log) && id in jobs && jobs[id].status.Queued?
    requires j'.command == jobs[id].command && j'.failures == jobs[id].failures
    requires j'.status.Running? && j'.attempts == jobs[id].attempts + 1
    ensures AccountsOk(jobs[id := j'], log)
  {
    assert AccountOk(log, id, jobs[id]);
  }

  lemma ClaimedActive(id: Id, jobs: map<Id, Job>, active: map<(string, Key), Id>, j': Job)
    requires ActiveOk(jobs, active) && id in jobs && jobs[id].status.Queued? && j'.command == jobs[id].command
    ensures ActiveOk(jobs[id := j'], active)
  {
  }

  lemma ClaimedParents(id: Id, jobs: map<Id, Job>, j': Job)
    requires ParentsOk(jobs) && id in jobs && jobs[id].status.Queued? && j'.parent == jobs[id].parent
    ensures ParentsOk(jobs[id := j'])
  {
  }

  lemma ClaimOneInv(s: State, id: Id, worker: string)
    requires Inv(s) && id in s.jobs && s.jobs[id].status.Queued?
    ensures Inv(ClaimOne(s, id, worker))
  {
    hide IdsOk, GraphOk, StatusOk, AttemptsOk, MembersOk, WorkflowKeysOk, ActiveOk, ParentsOk, AccountsOk;
    var j' := ClaimOne(s, id, worker).jobs[id];
    ClaimedAttempts(id, s.nextId, s.jobs, j');
    ClaimedAccounts(id, s.jobs, s.settlements, j');
    ClaimedActive(id, s.jobs, s.active, j');
    ClaimedParents(id, s.jobs, j');
    ClaimedStatus(s.jobs, id, j');
    LaterIds(s.nextId, s.jobs, s.order, s.workflows);
    ReplacedMembers(s.nextId + 1, s.jobs, s.workflows, id, j');
    ReplacedGraph(s.jobs, id, j');
    ReplacedIds(s.nextId + 1, s.jobs, s.order, id, j');
  }

  lemma ClaimAllInv(s: State, ids: seq<Id>, worker: string)
    requires Inv(s) && Ascending(ids) && forall i :: i in ids ==> i in s.jobs && s.jobs[i].status.Queued?
    ensures Inv(ClaimAll(s, ids, worker))
    ensures forall i :: i in s.jobs && i !in ids ==> ClaimAll(s, ids, worker).jobs[i] == s.jobs[i]
  {
    if ids != [] {
      hide Inv;
      var n := |ids| - 1;
      ClaimAllInv(s, ids[..n], worker);
      assert ids[n] !in ids[..n];
      ClaimOneInv(ClaimAll(s, ids[..n], worker), ids[n], worker);
    }
  }

  lemma EligibleAscend(jobs: map<Id, Job>, ids: seq<Id>, q: ClaimQuery, now: Instant)
    requires Ascending(ids)
    ensures Ascending(EligibleJobs(jobs, ids, q, now))
  {
    if ids != [] {
      var n := |ids| - 1;
      EligibleAscend(jobs, ids[..n], q, now);
      EligibleFacts(jobs, ids[..n], q, now);
      var e := EligibleJobs(jobs, ids[..n], q, now);
      forall k | 0 <= k < |e| ensures e[k] < ids[n] {
        assert e[k] in ids[..n];
      }
    }
  }

  lemma PickedFacts(s: State, q: ClaimQuery, now: Instant)
    requires IdsOk(s.nextId, s.jobs, s.order)
    ensures Ascending(Picked(s, q, now))
    ensures forall i :: i in Picked(s, q, now) ==> i in s.jobs && Eligible(s.jobs[i], i, q, now)
  {
    EligibleAscend(s.jobs, s.order, q, now);
    PickedAreJobs(s, q, now);
  }

  lemma ClaimInv(s: State, q: ClaimQuery, now: Instant)
    requires Inv(s)
    ensures Linked(s) && Inv(Claim(s, q, now))
  {
    InvLinks(s);
    PickedFacts(s, q, now);
    hide Inv;
    if q.queue in s.known && ValidHashes(q) {
      ClaimAllInv(s, Picked(s, q, now), q.worker);
    }
  }
}

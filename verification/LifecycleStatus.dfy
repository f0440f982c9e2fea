/** Completions deliver their follow-ups, and the stored workflow status against its recomputation. */
module LifecycleStatus {
  import opened TaskTypes
  import opened Lifecycle
  import opened LifecycleInvariant
  import opened LifecycleAdd
  import opened LifecycleMoves
  import opened LifecycleSettle
  import opened LifecycleComplete
  import opened LifecycleRuns
  import opened LifecycleHistory
  import opened Ordering

  // ---- delivery of follow-ups --------------------------------------------------------------

  function ChildJob(c: Child, id: Id, policy: Option<string>): Job {
    NewJob(c.command, Queued, Some(id), if c.command.workflow.Some? then policy else None)
  }

  /** Job `i` is stored in `t` with the record `j`. */
  predicate StoredAs(t: State, i: Id, j: Job) {
    i in t.jobs && t.jobs[i] == j
  }

  lemma {:induction false} ChildrenShape(s: State, id: Id, policy: Option<string>, cs: seq<Child>)
    requires forall k :: 0 <= k < |cs| ==> cs[k].existing.None?
    requires forall i :: i in s.jobs ==> i < s.nextId
    ensures var t := AddChildren(s, id, policy, cs);
            && t.nextId == s.nextId + |cs|
            && t.order == s.order + seq(|cs|, k => s.nextId + k)
            && (forall k :: 0 <= k < |cs| ==> StoredAs(t, s.nextId + k, ChildJob(cs[k], id, policy)))
            && (forall i :: i in s.jobs ==> i in t.jobs && t.jobs[i] == s.jobs[i])
            && (forall i :: i in t.jobs ==> i < t.nextId)
  {
    hide AddChild;
    var t := AddChildren(s, id, policy, cs);
    if cs != [] {
      var n := |cs| - 1;
      ChildrenShape(s, id, policy, cs[..n]);
      var u := AddChildren(s, id, policy, cs[..n]);
      ChildShape(u, id, policy, cs[n]);
      assert seq(|cs|, k => s.nextId + k) == seq(n, k => s.nextId + k) + [s.nextId + n];
      forall k | 0 <= k < |cs| ensures StoredAs(t, s.nextId + k, ChildJob(cs[k], id, policy)) {
        if k < n { assert StoredAs(u, s.nextId + k, ChildJob(cs[..n][k], id, policy)); }
      }
    }
  }

  lemma ChildShape(u: State, id: Id, policy: Option<string>, c: Child)
    requires c.existing.None? && forall i :: i in u.jobs ==> i < u.nextId
    ensures var t := AddChild(u, id, policy, c);
            t.nextId == u.nextId + 1 && t.order == u.order + [u.nextId] && t.jobs == u.jobs[u.nextId := ChildJob(c, id, policy)]
  {
  }

  /** The record of a follow-up child. */
  function FollowupJob(s: State, id: Id, f: Followup): Job
    requires id in s.jobs
  {
    NewJob(ChildCommand(s.jobs[id].command, id, f), Queued, Some(id), if f.member then s.jobs[id].policy else None)
  }

  /** An accepted completion succeeds the parent and creates one fresh queued job per follow-up, in order,
      whatever the state; a refused one changes nothing. */
  lemma CompletionDelivers(s: State, id: Id, attempt: Id, worker: string, fs: seq<Followup>, policy: Option<string>, now: Instant)
    requires Inv(s) && Linked(s)
    ensures var (t, r) := SettleJob(s, id, attempt, worker, DoComplete(fs, policy), now);
            && (!Accepted(r) ==> t == s)
            && (Accepted(r) ==>
                  && id in s.jobs && id in t.jobs && t.jobs[id].status.Succeeded?
                  && t.order == s.order + seq(|fs|, k => s.nextId + k)
                  && (forall k :: 0 <= k < |fs| ==> StoredAs(t, s.nextId + k, FollowupJob(s, id, fs[k]))))
  {
    hide Inv, Linked, PlanCompletion, Completed;
    if Accepted(SettleJob(s, id, attempt, worker, DoComplete(fs, policy), now).1) {
      CompletedDelivers(s, id, fs, policy);
    }
  }

  lemma CompletedDelivers(s: State, id: Id, fs: seq<Followup>, policy: Option<string>)
    requires Inv(s) && Linked(s) && id in s.jobs && s.jobs[id].status.Running? && PlanCompletion(s, id, fs, policy).Ok?
    ensures s.jobs[id].command.workflow.Some? ==> s.jobs[id].command.workflow.value in s.workflows
    ensures var t := Completed(s, id, PlanCompletion(s, id, fs, policy).value);
            && id in t.jobs && t.jobs[id].status.Succeeded?
            && t.order == s.order + seq(|fs|, k => s.nextId + k)
            && (forall k :: 0 <= k < |fs| ==> StoredAs(t, s.nextId + k, FollowupJob(s, id, fs[k])))
  {
    hide Inv, Linked, PlanCompletion, Finish, RoomFor, PlannedChild, Stored;
    RunningWorkflow(s, id);
    PlanCompletionFacts(s, id, fs, policy);
    var cs := PlanCompletion(s, id, fs, policy).value;
    forall k | 0 <= k < |cs| ensures cs[k].existing.None? { AllNew(s, id, fs, cs, k); }
    var m := Finish(s, id, Complete, Succeeded, OkOutcome, None);
    FinishKeepsJob(s, id, Complete, Succeeded, OkOutcome, None);
    FinishFrame(s, id);
    FinishedInv(s, id);
    IdsBounded(m);
    ChildrenShape(m, id, s.jobs[id].policy, cs);
    MembersHaveWorkflow(s, id, fs, policy);
    var t := Completed(s, id, cs);
    forall k | 0 <= k < |fs| ensures StoredAs(t, s.nextId + k, FollowupJob(s, id, fs[k])) {
      assert StoredAs(t, m.nextId + k, ChildJob(cs[k], id, s.jobs[id].policy));
    }
  }

  lemma AllNew(s: State, id: Id, fs: seq<Followup>, cs: seq<Child>, k: nat)
    requires id in s.jobs && PlanMatches(s, id, fs, cs) && k < |cs|
    ensures cs[k].existing.None?
  {
    assert PlannedChild(s, id, cs[k]);
  }

  lemma MembersHaveWorkflow(s: State, id: Id, fs: seq<Followup>, policy: Option<string>)
    requires Linked(s) && id in s.jobs && PlanCompletion(s, id, fs, policy).Ok?
    ensures forall k :: 0 <= k < |fs| ==>
      (ChildCommand(s.jobs[id].command, id, fs[k]).workflow.Some? <==> fs[k].member)
  {
    hide Linked, Plan;
    forall k | 0 <= k < |fs| && fs[k].member ensures s.jobs[id].command.workflow.Some? {
      assert fs[k] in fs;
    }
  }

  // ---- workflow status ---------------------------------------------------------------------

  /** The status read off the sealed flag and the members, without history. */
  function Recomputed(jobs: map<Id, Job>, w: Workflow): WorkflowStatus {
    if !w.sealed then WfRunning
    else if SomeMember(jobs, w, Failed) then WfFailed
    else if SomeMember(jobs, w, Cancelled) then WfCancelled
    else if EveryMember(jobs, w, Succeeded) then WfSucceeded
    else WfRunning
  }

  predicate InSync(jobs: map<Id, Job>, w: Workflow) {
    !w.cancelRequested ==> w.status == Recomputed(jobs, w)
  }

  ghost predicate AllInSync(s: State) {
    forall w :: w in s.workflows ==> InSync(s.jobs, s.workflows[w])
  }

  ghost predicate MembersIn(jobs: map<Id, Job>, w: Workflow) {
    forall st :: st in w.steps ==> w.steps[st] in jobs
  }

  /** Both job tables give the members the same ends. */
  predicate SameEnds(j: Job, j': Job) {
    && (j.status.Failed? <==> j'.status.Failed?)
    && (j.status.Cancelled? <==> j'.status.Cancelled?)
    && (j.status.Succeeded? <==> j'.status.Succeeded?)
  }

  lemma SameVerdict(jobs: map<Id, Job>, jobs': map<Id, Job>, w: Workflow)
    requires MembersIn(jobs, w)
    requires forall st :: st in w.steps ==> w.steps[st] in jobs' && SameEnds(jobs[w.steps[st]], jobs'[w.steps[st]])
    ensures Recomputed(jobs', w) == Recomputed(jobs, w)
  {
    assert SomeMember(jobs, w, Failed) <==> SomeMember(jobs', w, Failed);
    assert SomeMember(jobs, w, Cancelled) <==> SomeMember(jobs', w, Cancelled);
    assert EveryMember(jobs, w, Succeeded) <==> EveryMember(jobs', w, Succeeded);
  }

  /** A refresh after members moved forward: what was terminal stayed, and some member had not succeeded before. */
  lemma RefreshSyncs(jobs: map<Id, Job>, jobs': map<Id, Job>, w: Workflow)
    requires MembersIn(jobs, w) && InSync(jobs, w)
    requires forall st :: st in w.steps ==> w.steps[st] in jobs' && (Terminal(jobs[w.steps[st]].status) ==> jobs'[w.steps[st]] == jobs[w.steps[st]])
    requires !EveryMember(jobs, w, Succeeded)
    ensures InSync(jobs', w.(status := RefreshedStatus(jobs', w)))
  {
    if w.sealed && !w.cancelRequested {
      if SomeMember(jobs, w, Failed) {
        var st :| st in w.steps && w.steps[st] in jobs && jobs[w.steps[st]].status == Failed;
        assert SomeMember(jobs', w, Failed);
      } else if SomeMember(jobs, w, Cancelled) {
        var st :| st in w.steps && w.steps[st] in jobs && jobs[w.steps[st]].status == Cancelled;
        assert SomeMember(jobs', w, Cancelled);
      }
    }
    var w' := w.(status := RefreshedStatus(jobs', w));
    assert SomeMember(jobs', w, Failed) <==> SomeMember(jobs', w', Failed);
    assert SomeMember(jobs', w, Cancelled) <==> SomeMember(jobs', w', Cancelled);
    assert EveryMember(jobs', w, Succeeded) <==> EveryMember(jobs', w', Succeeded);
  }

  // ---- every call keeps the statuses in step -----------------------------------------------

  lemma KeptSync(jobs: map<Id, Job>, jobs': map<Id, Job>, w: Workflow, w': Workflow)
    requires MembersIn(jobs, w) && InSync(jobs, w)
    requires w'.steps == w.steps && w'.sealed == w.sealed && w'.cancelRequested == w.cancelRequested && w'.status == w.status
    requires forall st :: st in w.steps ==> w.steps[st] in jobs' && SameEnds(jobs[w.steps[st]], jobs'[w.steps[st]])
    ensures InSync(jobs', w')
  {
    SameVerdict(jobs, jobs', w);
    assert SomeMember(jobs', w, Failed) <==> SomeMember(jobs', w', Failed);
    assert SomeMember(jobs', w, Cancelled) <==> SomeMember(jobs', w', Cancelled);
    assert EveryMember(jobs', w, Succeeded) <==> EveryMember(jobs', w', Succeeded);
  }

  lemma SealSyncs(jobs: map<Id, Job>, w: Workflow)
    requires InSync(jobs, w)
    ensures var w' := w.(sealed := true); InSync(jobs, w'.(status := RefreshedStatus(jobs, w')))
  {
    var w' := w.(sealed := true);
    var w2 := w'.(status := RefreshedStatus(jobs, w'));
    assert SomeMember(jobs, w, Failed) <==> SomeMember(jobs, w', Failed);
    assert SomeMember(jobs, w, Cancelled) <==> SomeMember(jobs, w', Cancelled);
    assert EveryMember(jobs, w, Succeeded) <==> EveryMember(jobs, w', Succeeded);
    assert SomeMember(jobs, w2, Failed) <==> SomeMember(jobs, w', Failed);
    assert SomeMember(jobs, w2, Cancelled) <==> SomeMember(jobs, w', Cancelled);
    assert EveryMember(jobs, w2, Succeeded) <==> EveryMember(jobs, w', Succeeded);
  }

  /** The members of a workflow, as its invariant records them. */
  ghost predicate OwnMembers(jobs: map<Id, Job>, ws: map<Id, Workflow>) {
    forall w, st :: w in ws && st in ws[w].steps ==> ws[w].steps[st] in jobs && jobs[ws[w].steps[st]].command.workflow == Some(w)
  }

  lemma OwnMembersIn(s: State, w: Id)
    requires OwnMembers(s.jobs, s.workflows) && w in s.workflows
    ensures MembersIn(s.jobs, s.workflows[w])
  {
  }

  lemma InvOwnMembers(s: State)
    requires Inv(s)
    ensures OwnMembers(s.jobs, s.workflows)
  {
    hide IdsOk, GraphOk, StatusOk, AttemptsOk, WorkflowKeysOk, ActiveOk, ParentsOk, AccountsOk, MemberOk;
    forall w, st | w in s.workflows && st in s.workflows[w].steps
      ensures s.workflows[w].steps[st] in s.jobs && s.jobs[s.workflows[w].steps[st]].command.workflow == Some(w)
    {
      assert StepsOk(s.jobs, w, s.workflows[w]);
    }
  }

  /** Unchanged workflows over a job table that keeps the ends of their members. */
  lemma QuietSync(s: State, t: State)
    requires OwnMembers(s.jobs, s.workflows) && AllInSync(s)
    requires forall w :: w in t.workflows ==> w in s.workflows
    requires forall w :: w in t.workflows ==> t.workflows[w] == s.workflows[w].(admitted := t.workflows[w].admitted)
    requires forall i :: i in s.jobs ==> i in t.jobs && SameEnds(s.jobs[i], t.jobs[i])
    ensures AllInSync(t)
  {
    forall w | w in t.workflows ensures InSync(t.jobs, t.workflows[w]) {
      KeptSync(s.jobs, t.jobs, s.workflows[w], t.workflows[w]);
    }
  }

  lemma StoreSync(s: State, job: Job)
    requires OwnMembers(s.jobs, s.workflows) && AllInSync(s) && s.nextId !in s.jobs
    requires job.command.workflow.Some? ==>
      job.command.workflow.value in s.workflows && !s.workflows[job.command.workflow.value].sealed
    ensures AllInSync(Store(s, job))
  {
    var t := Store(s, job);
    forall w | w in t.workflows ensures InSync(t.jobs, t.workflows[w]) {
      if job.command.workflow != Some(w) {
        KeptSync(s.jobs, t.jobs, s.workflows[w], t.workflows[w]);
      } else {
        assert InSync(s.jobs, s.workflows[w]);
      }
    }
  }

  /** Nothing but the admission count changes. */
  predicate OnlyCounted(s: State, t: State) {
    && t.jobs == s.jobs && t.workflows.Keys == s.workflows.Keys
    && (forall w :: w in s.workflows ==> t.workflows[w] == s.workflows[w].(admitted := t.workflows[w].admitted))
  }

  lemma RolledBackCounted(s: State, w: Id, queue: string)
    requires w in s.workflows
    ensures OnlyCounted(s, RolledBack(s, w, queue))
  {
  }

  lemma CountedSync(s: State, t: State)
    requires OwnMembers(s.jobs, s.workflows) && AllInSync(s) && OnlyCounted(s, t)
    ensures AllInSync(t)
  {
    hide OwnMembers, AllInSync;
    QuietSync(s, t);
  }

  lemma EnqueueSync(s: State, c: Command)
    requires Inv(s) && Linked(s) && ValidCommand(c) && AllInSync(s)
    ensures AllInSync(Enqueue(s, c).0)
  {
    hide Inv, Linked, AllInSync, OwnMembers, Store, ParentError, SameMember, AllSucceeded, OnlyCounted, RolledBack;
    FreshId(s);
    InvOwnMembers(s);
    var t := Enqueue(s, c).0;
    if t.jobs == s.jobs && t.workflows == s.workflows {
      SameCounted(s, t);
      CountedSync(s, t);
    } else if c.workflow.None? {
      StoreSync(s, NewJob(c, Queued, None, None));
    } else {
      var w := c.workflow.value;
      RolledBackCounted(s, w, c.queue);
      CountedSync(s, RolledBack(s, w, c.queue));
      if !s.workflows[w].sealed {
        StoreSync(s, NewJob(c, Queued, None, s.workflows[w].policy));
        StoreSync(s, NewJob(c, Blocked, None, s.workflows[w].policy));
      }
    }
  }

  lemma SameCounted(s: State, t: State)
    requires t.jobs == s.jobs && t.workflows == s.workflows
    ensures OnlyCounted(s, t)
  {
  }

  lemma ClaimAllEnds(s: State, ids: seq<Id>, worker: string)
    requires Ascending(ids) && forall i :: i in ids ==> i in s.jobs && s.jobs[i].status.Queued?
    ensures ClaimAll(s, ids, worker).workflows == s.workflows
    ensures forall i :: i in s.jobs ==> SameEnds(s.jobs[i], ClaimAll(s, ids, worker).jobs[i])
    ensures forall i :: i in s.jobs && i !in ids ==> ClaimAll(s, ids, worker).jobs[i] == s.jobs[i]
  {
    if ids != [] {
      var n := |ids| - 1;
      ClaimAllEnds(s, ids[..n], worker);
      assert ids[n] !in ids[..n];
      assert forall i :: i in ids[..n] ==> i in ids;
    }
  }

  lemma ClaimSync(s: State, q: ClaimQuery, now: Instant)
    requires Inv(s) && Linked(s) && AllInSync(s)
    ensures AllInSync(Claim(s, q, now))
  {
    PickedFacts(s, q, now);
    InvOwnMembers(s);
    hide Inv, Linked, AllInSync, OwnMembers;
    if q.queue in s.known && ValidHashes(q) {
      ClaimAllEnds(s, Picked(s, q, now), q.worker);
      QuietSync(s, Claim(s, q, now));
    }
  }

  lemma SealSync(s: State, w: Id)
    requires Inv(s) && AllInSync(s)
    ensures AllInSync(SealWorkflow(s, w).0)
  {
    hide Inv, RefreshedStatus, InSync;
    if w in s.workflows { SealSyncs(s.jobs, s.workflows[w]); }
  }

  lemma CreateSync(s: State, r: WorkflowRequest, sorted: seq<string>)
    requires Linked(s) && AllInSync(s)
    ensures AllInSync(CreateWorkflow(s, r, sorted).0)
  {
    hide Linked;
  }

  lemma CancelSync(s: State, w: Id)
    requires Inv(s) && AllInSync(s)
    ensures AllInSync(CancelWorkflow(s, w).0)
  {
    hide Inv, RefreshedStatus, InSync, MembersIn, OwnMembers, SomeMember, EveryMember;
    InvOwnMembers(s);
    var t := CancelWorkflow(s, w).0;
    if t != s {
      forall x | x in t.workflows ensures InSync(t.jobs, t.workflows[x]) {
        if x != w { CancelOthers(s, w, x); } else { RequestedIsInSync(t.jobs, t.workflows[w]); }
      }
    }
  }

  lemma RequestedIsInSync(jobs: map<Id, Job>, w: Workflow)
    requires w.cancelRequested
    ensures InSync(jobs, w)
  {
  }

  lemma CancelOthers(s: State, w: Id, x: Id)
    requires OwnMembers(s.jobs, s.workflows) && x in s.workflows && x != w && InSync(s.jobs, s.workflows[x])
    ensures InSync(CancelMembers(s.jobs, w), s.workflows[x])
  {
    KeptSync(s.jobs, CancelMembers(s.jobs, w), s.workflows[x], s.workflows[x]);
  }

  /** Other workflows do not notice that a job ended. */
  lemma FinishOthers(s: State, id: Id, command: Settle, status: Status, outcome: Outcome, at: Option<Instant>, failures: nat, i: Id)
    requires Closable(s, id, command, status, failures)
    requires s.jobs[id].command.workflow.Some? ==> s.jobs[id].command.workflow.value in s.workflows
    requires i in s.jobs && i != id
    requires s.jobs[i].command.workflow != s.jobs[id].command.workflow || !Terminal(status) || s.jobs[id].command.workflow.None?
    ensures var t := Finish(Counted(s, id, failures), id, command, status, outcome, at);
            i in t.jobs && t.jobs[i] == s.jobs[i]
  {
    hide RefreshedStatus;
    var j' := ClosedJob(s, id, command, status, at, failures);
    CloseShape(s, id, command, status, outcome, at, failures);
    SameDeps(s.jobs[id], j');
  }

  lemma FinishWorkflows(s: State, id: Id, command: Settle, status: Status, outcome: Outcome, at: Option<Instant>, failures: nat)
    requires Closable(s, id, command, status, failures)
    requires s.jobs[id].command.workflow.Some? ==> s.jobs[id].command.workflow.value in s.workflows
    ensures var t := Finish(Counted(s, id, failures), id, command, status, outcome, at);
            && t.workflows.Keys == s.workflows.Keys
            && (forall w :: w in s.workflows ==>
                  t.workflows[w] == if s.jobs[id].command.workflow == Some(w) && Terminal(status)
                                    then s.workflows[w].(status := RefreshedStatus(t.jobs, s.workflows[w])) else s.workflows[w])
            && id in t.jobs && t.jobs[id].status == status
  {
    var j' := ClosedJob(s, id, command, status, at, failures);
    CloseShape(s, id, command, status, outcome, at, failures);
    SameDeps(s.jobs[id], j');
    hide RefreshedStatus, Doomed;
  }

  lemma NotAllSucceeded(s: State, id: Id)
    requires Inv(s) && id in s.jobs && !s.jobs[id].status.Succeeded? && s.jobs[id].command.workflow.Some?
    ensures s.jobs[id].command.workflow.value in s.workflows
    ensures !EveryMember(s.jobs, s.workflows[s.jobs[id].command.workflow.value], Succeeded)
  {
    hide IdsOk, GraphOk, StatusOk, AttemptsOk, WorkflowKeysOk, ActiveOk, ParentsOk, AccountsOk, StepsOk;
    assert MemberOk(s.workflows, id, s.jobs[id]);
  }

  /** The workflow of the job that ended. */
  lemma FinishSyncOwn(s: State, t: State, id: Id, w: Id)
    requires AllEvolve(s, t) && OwnMembers(s.jobs, s.workflows) && w in s.workflows && InSync(s.jobs, s.workflows[w])
    requires !EveryMember(s.jobs, s.workflows[w], Succeeded)
    ensures InSync(t.jobs, s.workflows[w].(status := RefreshedStatus(t.jobs, s.workflows[w])))
  {
    OwnMembersIn(s, w);
    forall st | st in s.workflows[w].steps && Terminal(s.jobs[s.workflows[w].steps[st]].status)
      ensures t.jobs[s.workflows[w].steps[st]] == s.jobs[s.workflows[w].steps[st]]
    {
      assert Evolves(s.nextId, s.jobs[s.workflows[w].steps[st]], t.jobs[s.workflows[w].steps[st]]);
    }
    hide InSync, EveryMember, RefreshedStatus;
    RefreshSyncs(s.jobs, t.jobs, s.workflows[w]);
  }

  lemma FinishSyncOther(s: State, id: Id, command: Settle, status: Status, outcome: Outcome, at: Option<Instant>, failures: nat, w: Id)
    requires Closable(s, id, command, status, failures)
    requires s.jobs[id].command.workflow.Some? ==> s.jobs[id].command.workflow.value in s.workflows
    requires OwnMembers(s.jobs, s.workflows) && w in s.workflows && InSync(s.jobs, s.workflows[w])
    requires s.jobs[id].command.workflow != Some(w) || !Terminal(status)
    ensures InSync(Finish(Counted(s, id, failures), id, command, status, outcome, at).jobs, s.workflows[w])
  {
    hide Finish, InSync;
    OwnMembersIn(s, w);
    var t := Finish(Counted(s, id, failures), id, command, status, outcome, at);
    FinishWorkflows(s, id, command, status, outcome, at, failures);
    forall st | st in s.workflows[w].steps
      ensures s.workflows[w].steps[st] in t.jobs && SameEnds(s.jobs[s.workflows[w].steps[st]], t.jobs[s.workflows[w].steps[st]])
    {
      var i := s.workflows[w].steps[st];
      if i != id { FinishOthers(s, id, command, status, outcome, at, failures, i); }
    }
    KeptSync(s.jobs, t.jobs, s.workflows[w], s.workflows[w]);
  }

  lemma FinishSync(s: State, id: Id, command: Settle, status: Status, outcome: Outcome, at: Option<Instant>, failures: nat)
    requires Inv(s) && AllInSync(s) && Closable(s, id, command, status, failures)
    requires s.jobs[id].command.workflow.Some? ==> s.jobs[id].command.workflow.value in s.workflows
    ensures AllInSync(Finish(Counted(s, id, failures), id, command, status, outcome, at))
  {
    var wf := s.jobs[id].command.workflow;
    var t := Finish(Counted(s, id, failures), id, command, status, outcome, at);
    hide Inv, Finish, RefreshedStatus, InSync, MembersIn, OwnMembers, EveryMember, AllEvolve;
    InvOwnMembers(s);
    FinishWorkflows(s, id, command, status, outcome, at, failures);
    FinishEvolves(s, id, command, status, outcome, at, failures);
    if wf.Some? { NotAllSucceeded(s, id); }
    hide Closable;
    forall w | w in t.workflows ensures InSync(t.jobs, t.workflows[w]) {
      assert InSync(s.jobs, s.workflows[w]);
      if wf == Some(w) && Terminal(status) {
        FinishSyncOwn(s, t, id, w);
      } else {
        FinishSyncOther(s, id, command, status, outcome, at, failures, w);
      }
    }
  }

  lemma {:induction false} LonerChildren(s: State, id: Id, policy: Option<string>, cs: seq<Child>)
    requires forall k :: 0 <= k < |cs| ==> cs[k].command.workflow.None?
    requires forall i :: i in s.jobs ==> i < s.nextId
    ensures var t := AddChildren(s, id, policy, cs);
            && t.workflows == s.workflows
            && (forall i :: i in s.jobs ==> i in t.jobs && t.jobs[i] == s.jobs[i])
            && (forall i :: i in t.jobs ==> i < t.nextId)
  {
    if cs != [] { LonerChildren(s, id, policy, cs[..|cs| - 1]); }
  }

  /** No follow-up of the call becomes a workflow member. */
  predicate NoMembers(op: Op) {
    op.OpSettle? && op.action.DoComplete? ==> forall f :: f in op.action.followups ==> !f.member
  }

  lemma CompletedSync(s: State, id: Id, fs: seq<Followup>, policy: Option<string>)
    requires Inv(s) && Linked(s) && AllInSync(s) && id in s.jobs && s.jobs[id].status.Running?
    requires PlanCompletion(s, id, fs, policy).Ok? && forall f :: f in fs ==> !f.member
    ensures s.jobs[id].command.workflow.Some? ==> s.jobs[id].command.workflow.value in s.workflows
    ensures AllInSync(Completed(s, id, PlanCompletion(s, id, fs, policy).value))
  {
    hide Inv, Linked, AllInSync, Finish, PlanCompletion, RoomFor, PlannedChild, OwnMembers;
    RunningWorkflow(s, id);
    PlanCompletionFacts(s, id, fs, policy);
    var cs := PlanCompletion(s, id, fs, policy).value;
    var m := Finish(s, id, Complete, Succeeded, OkOutcome, None);
    UncountedSame(s, id);
    FinishSync(s, id, Complete, Succeeded, OkOutcome, None, s.jobs[id].failures);
    FinishedInv(s, id);
    IdsBounded(m);
    InvOwnMembers(m);
    forall k | 0 <= k < |cs| ensures cs[k].command.workflow.None? {
      assert fs[k] in fs;
    }
    LonerChildren(m, id, s.jobs[id].policy, cs);
    QuietSync(m, Completed(s, id, cs));
  }

  lemma SettleSync(s: State, id: Id, attempt: Id, worker: string, action: Action, now: Instant)
    requires Inv(s) && Linked(s) && AllInSync(s) && NoMembers(OpSettle(id, attempt, worker, action, now))
    ensures AllInSync(SettleJob(s, id, attempt, worker, action, now).0)
  {
    hide Inv, Finish, PlanCompletion, Completed, Linked, AllInSync;
    if ReplayOrLost(s, id, attempt, worker, SettleName(action)).None? {
      RunningWorkflow(s, id);
      UncountedSame(s, id);
      var f := s.jobs[id].failures;
      match action
      case DoComplete(fs, policy) => if PlanCompletion(s, id, fs, policy).Ok? { CompletedSync(s, id, fs, policy); }
      case DoFail(retryable, retryAfter) =>
        var at := now + (if retryAfter.Some? then retryAfter.value else 0) * SECOND;
        if Retries(s.jobs[id], retryable) {
          FinishSync(s, id, Fail, Queued, RetryScheduled, Some(at), f + 1);
        } else {
          FinishSync(s, id, Fail, Failed, Dead, None, f + 1);
        }
      case DoSnooze(delay) => FinishSync(s, id, Snooze, Queued, OkOutcome, Some(now + delay * SECOND), f);
      case DoRelease(delay) => FinishSync(s, id, Release, Queued, OkOutcome, Some(now + delay * SECOND), f);
      case DoCancelRunning => FinishSync(s, id, CancelRunning, Cancelled, OkOutcome, None, f);
    }
  }

  lemma StepSync(s: State, op: Op)
    requires Inv(s) && Linked(s) && ValidOp(op) && AllInSync(s) && NoMembers(op)
    ensures AllInSync(Apply(s, op))
  {
    hide Inv, AllInSync, Linked, NoMembers;
    match op
    case OpEnqueue(c) => EnqueueSync(s, c);
    case OpCreate(r) => CreateSync(s, r, Sort(r.queues, StringLe));
    case OpSeal(w) => SealSync(s, w);
    case OpCancel(w) => CancelSync(s, w);
    case OpClaim(q, now) => ClaimSync(s, q, now);
    case OpSettle(id, attempt, worker, action, now) => SettleSync(s, id, attempt, worker, action, now);
  }

  /** In runs whose completions add no members, the stored status of every workflow that was not asked to
      cancel is the one its sealed flag and members give. */
  lemma {:induction false} StatusStaysInSync(s: State, ops: seq<Op>)
    requires Inv(s) && ValidRun(ops) && AllInSync(s) && forall k :: 0 <= k < |ops| ==> NoMembers(ops[k])
    ensures AllInSync(Run(s, ops))
  {
    hide Inv, AllInSync, Apply, NoMembers;
    if ops != [] {
      var mid := Run(s, ops[..|ops| - 1]);
      StatusStaysInSync(s, ops[..|ops| - 1]);
      InvLinks(mid);
      StepSync(mid, ops[|ops| - 1]);
    }
  }
}

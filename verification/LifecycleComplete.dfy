/** A completion stores all its follow-up children or changes nothing. */
module LifecycleComplete {
  import opened TaskTypes
  import opened Lifecycle
  import opened LifecycleInvariant
  import opened LifecycleAdd
  import opened LifecycleMoves
  import opened LifecycleSettle

  /** A child of the running job `id` that is ready to be stored. */
  predicate PlannedChild(s: State, id: Id, c: Child)
    requires id in s.jobs
  {
    && c.existing.None?
    && c.command.key.Some? && c.command.key.value.Chain? && c.command.key.value.parent == id
    && c.command.dependsOn.None?
    && (c.command.queue, c.command.key.value) !in s.active
    && (c.command.workflow.Some? ==>
          && c.command.workflow == s.jobs[id].command.workflow
          && c.command.step == Some(Member(id, c.command.key.value.step)))
    && (c.command.workflow.None? ==> c.command.step.None?)
  }

  /** No job names `id` as its parent and no step is derived from it. */
  ghost predicate Childless(s: State, id: Id) {
    && (forall i :: i in s.jobs ==> s.jobs[i].parent != Some(id))
    && (forall w, local :: w in s.workflows ==> Member(id, local) !in s.workflows[w].steps)
  }

  lemma StepOwner(nextId: Id, jobs: map<Id, Job>, ws: map<Id, Workflow>, w: Id, st: Step)
    requires MembersOk(nextId, jobs, ws) && w in ws && st in ws[w].steps && st.Member?
    ensures ws[w].steps[st] in jobs && jobs[ws[w].steps[st]].parent == Some(st.parent)
  {
    assert StepsOk(jobs, w, ws[w]);
    assert MemberOk(ws, ws[w].steps[st], jobs[ws[w].steps[st]]);
  }

  /** A running job has no children yet. */
  lemma NoChildrenYet(s: State, id: Id)
    requires Inv(s) && id in s.jobs && s.jobs[id].status.Running?
    ensures Childless(s, id)
  {
    hide IdsOk, GraphOk, StatusOk, AttemptsOk, WorkflowKeysOk, ActiveOk, AccountsOk, MembersOk;
    forall w, local | w in s.workflows ensures Member(id, local) !in s.workflows[w].steps {
      if Member(id, local) in s.workflows[w].steps { StepOwner(s.nextId, s.jobs, s.workflows, w, Member(id, local)); }
    }
  }

  /** The plan of a completion, child by child. */
  ghost predicate PlanMatches(s: State, id: Id, fs: seq<Followup>, cs: seq<Child>)
    requires id in s.jobs
  {
    && |cs| == |fs|
    && (forall i :: 0 <= i < |cs| ==> PlannedChild(s, id, cs[i]))
    && (forall i :: 0 <= i < |cs| ==> cs[i].command == ChildCommand(s.jobs[id].command, id, fs[i]) && cs[i].command.queue in s.known)
    && (forall i, j :: 0 <= i < j < |cs| ==> cs[i].command.key != cs[j].command.key)
  }

  lemma PlanOneFacts(s: State, id: Id, f: Followup)
    requires Linked(s) && id in s.jobs && Childless(s, id) && (f.member ==> s.jobs[id].command.workflow.Some?)
    requires PlanOne(s, id, f).Ok?
    ensures var c := PlanOne(s, id, f).value;
            PlannedChild(s, id, c) && c.command == ChildCommand(s.jobs[id].command, id, f) && c.command.queue in s.known
  {
  }

  lemma PlanFacts(s: State, id: Id, fs: seq<Followup>)
    requires Linked(s) && id in s.jobs && Childless(s, id)
    requires forall f :: f in fs && f.member ==> s.jobs[id].command.workflow.Some?
    requires Plan(s, id, fs).Ok?
    ensures PlanMatches(s, id, fs, Plan(s, id, fs).value)
  {
    hide Linked, Childless;
    if fs != [] {
      var n := |fs| - 1;
      PlanFacts(s, id, fs[..n]);
      PlanOneFacts(s, id, fs[n]);
      PlanGrows(s, id, fs, Plan(s, id, fs[..n]).value, PlanOne(s, id, fs[n]).value);
    }
  }

  lemma PlanGrows(s: State, id: Id, fs: seq<Followup>, cs: seq<Child>, c: Child)
    requires id in s.jobs && fs != [] && PlanMatches(s, id, fs[..|fs| - 1], cs)
    requires PlannedChild(s, id, c) && c.command == ChildCommand(s.jobs[id].command, id, fs[|fs| - 1]) && c.command.queue in s.known
    requires !StepSeen(fs[..|fs| - 1], fs[|fs| - 1].step)
    ensures PlanMatches(s, id, fs, cs + [c])
  {
    hide PlannedChild;
    var n := |fs| - 1;
    forall i | 0 <= i < n ensures cs[i].command.key != c.command.key {
      assert fs[..n][i].step != fs[n].step;
    }
  }

  // ---- storing the children ----------------------------------------------------------------

  ghost predicate KeySource(s: State, k: (string, Key), children: seq<Child>) {
    k in s.active || exists i :: 0 <= i < |children| && Some(k.1) == children[i].command.key
  }

  ghost predicate StepSource(w: Workflow, st: Step, children: seq<Child>) {
    st in w.steps || exists i :: 0 <= i < |children| && Some(st) == children[i].command.step
  }

  ghost predicate StoredWorkflow(w: Workflow, w': Workflow, children: seq<Child>) {
    && w'.limit == w.limit && w'.policy == w.policy
    && (forall st :: st in w'.steps ==> StepSource(w, st, children))
    && w'.admitted <= w.admitted + NewMembers(children)
  }

  /** What storing the first children leaves for the next one. */
  ghost predicate Stored(s: State, t: State, id: Id, children: seq<Child>) {
    && id in t.jobs && t.jobs[id].status.Succeeded?
    && (forall k :: k in t.active ==> KeySource(s, k, children))
    && t.workflows.Keys == s.workflows.Keys
    && (forall w :: w in s.workflows ==> StoredWorkflow(s.workflows[w], t.workflows[w], children))
  }

  lemma UncountedSame(s: State, id: Id)
    requires id in s.jobs
    ensures Counted(s, id, s.jobs[id].failures) == s
  {
    assert s.jobs[id := s.jobs[id].(failures := s.jobs[id].failures)] == s.jobs;
  }

  lemma FinishedInv(s: State, id: Id)
    requires Inv(s) && id in s.jobs && s.jobs[id].status.Running?
    ensures s.jobs[id].command.workflow.Some? ==> s.jobs[id].command.workflow.value in s.workflows
    ensures Inv(Finish(s, id, Complete, Succeeded, OkOutcome, None))
  {
    hide Inv, Finish;
    UncountedSame(s, id);
    FinishInv(s, id, Complete, Succeeded, OkOutcome, None, s.jobs[id].failures);
  }

  /** Finishing the parent frees keys at most and touches only the status of one workflow. */
  lemma FinishFrame(s: State, id: Id)
    requires id in s.jobs
    requires s.jobs[id].command.workflow.Some? ==> s.jobs[id].command.workflow.value in s.workflows
    ensures var t := Finish(s, id, Complete, Succeeded, OkOutcome, None);
            && Stored(s, t, id, [])
            && t.nextId == s.nextId && t.known == s.known && t.order == s.order
            && (forall w :: w in s.workflows ==> t.workflows[w].queues == s.workflows[w].queues)
  {
    hide RefreshedStatus;
    var t := Finish(s, id, Complete, Succeeded, OkOutcome, None);
    forall k | k in t.active ensures KeySource(s, k, []) { }
    forall w | w in s.workflows ensures StoredWorkflow(s.workflows[w], t.workflows[w], []) { }
  }

  /** The workflow has room for the planned members and keeps the parent's policy. */
  ghost predicate RoomFor(s: State, children: seq<Child>, policy: Option<string>) {
    forall c :: c in children && c.command.workflow.Some? ==>
      && c.command.workflow.value in s.workflows
      && (var w := s.workflows[c.command.workflow.value];
          w.policy == policy && (w.limit.Some? ==> w.admitted + NewMembers(children) <= w.limit.value))
  }

  lemma NewMembersPrefix(children: seq<Child>, n: nat)
    requires n <= |children|
    ensures NewMembers(children[..n]) <= NewMembers(children)
  {
    if n < |children| {
      NewMembersPrefix(children[..|children| - 1], n);
      assert children[..|children| - 1][..n] == children[..n];
    } else {
      assert children[..n] == children;
    }
  }

  lemma KeyIsFree(s: State, t: State, id: Id, children: seq<Child>, n: nat)
    requires id in s.jobs && n < |children| && Stored(s, t, id, children[..n])
    requires PlannedChild(s, id, children[n])
    requires forall i :: 0 <= i < n ==> children[i].command.key != children[n].command.key
    ensures (children[n].command.queue, children[n].command.key.value) !in t.active
  {
    var c := children[n].command;
    assert forall i :: 0 <= i < n ==> children[..n][i] == children[i];
    assert !KeySource(s, (c.queue, c.key.value), children[..n]);
  }

  lemma StepIsFree(s: State, t: State, id: Id, children: seq<Child>, n: nat)
    requires id in s.jobs && Childless(s, id) && n < |children| && Stored(s, t, id, children[..n])
    requires forall i :: 0 <= i <= n ==> PlannedChild(s, id, children[i])
    requires forall i :: 0 <= i < n ==> children[i].command.key != children[n].command.key
    requires children[n].command.workflow.Some? && children[n].command.workflow.value in s.workflows
    ensures children[n].command.step.Some?
    ensures children[n].command.step.value !in t.workflows[children[n].command.workflow.value].steps
  {
    var c := children[n].command;
    var w := c.workflow.value;
    assert PlannedChild(s, id, children[n]);
    forall i | 0 <= i < n ensures children[..n][i].command.step != c.step {
      assert PlannedChild(s, id, children[i]) && children[i].command.key != c.key;
    }
    assert !StepSource(s.workflows[w], c.step.value, children[..n]);
    assert StoredWorkflow(s.workflows[w], t.workflows[w], children[..n]);
  }

  lemma ChildAddable(s: State, t: State, id: Id, children: seq<Child>, n: nat, policy: Option<string>)
    requires id in s.jobs && Childless(s, id) && n < |children| && RoomFor(s, children, policy)
    requires forall i :: 0 <= i < |children| ==> PlannedChild(s, id, children[i])
    requires forall i, j :: 0 <= i < j < |children| ==> children[i].command.key != children[j].command.key
    requires Stored(s, t, id, children[..n])
    ensures var c := children[n].command;
            Addable(t, NewJob(c, Queued, Some(id), if c.workflow.Some? then policy else None))
  {
    var c := children[n].command;
    assert PlannedChild(s, id, children[n]) && children[n] in children;
    KeyIsFree(s, t, id, children, n);
    if c.workflow.Some? {
      StepIsFree(s, t, id, children, n);
      NewMembersPrefix(children, n + 1);
      assert children[..n + 1][..n] == children[..n];
      assert StoredWorkflow(s.workflows[c.workflow.value], t.workflows[c.workflow.value], children[..n]);
    }
    hide RoomFor, Childless, Stored, StoredWorkflow;
  }

  lemma SourcesGrow(s: State, children: seq<Child>, c: Child)
    ensures forall k :: KeySource(s, k, children) ==> KeySource(s, k, children + [c])
    ensures forall w, st :: StepSource(w, st, children) ==> StepSource(w, st, children + [c])
    ensures c.command.key.Some? ==> forall q :: KeySource(s, (q, c.command.key.value), children + [c])
    ensures c.command.step.Some? ==> forall w :: StepSource(w, c.command.step.value, children + [c])
  {
    var all := children + [c];
    assert all[|children|] == c;
    assert forall i :: 0 <= i < |children| ==> all[i] == children[i];
  }

  lemma AddedStored(s: State, t: State, id: Id, children: seq<Child>, c: Child, policy: Option<string>)
    requires Stored(s, t, id, children) && c.existing.None? && c.command.key.Some? && t.nextId !in t.jobs
    requires c.command.workflow.Some? ==> c.command.step.Some?
    ensures Stored(s, AddChild(t, id, policy, c), id, children + [c])
  {
    var u := AddChild(t, id, policy, c);
    SourcesGrow(s, children, c);
    assert (children + [c])[..|children|] == children;
    hide KeySource, StepSource;
    forall w | w in s.workflows ensures StoredWorkflow(s.workflows[w], u.workflows[w], children + [c]) {
      assert StoredWorkflow(s.workflows[w], t.workflows[w], children);
    }
  }

  lemma FreshId(s: State)
    requires Inv(s)
    ensures s.nextId !in s.jobs
  {
    hide GraphOk, StatusOk, AttemptsOk, MembersOk, WorkflowKeysOk, ActiveOk, ParentsOk, AccountsOk;
  }

  lemma ChildrenStored(s: State, t: State, id: Id, children: seq<Child>, n: nat, policy: Option<string>)
    requires id in s.jobs && Childless(s, id) && n <= |children| && RoomFor(s, children, policy)
    requires forall i :: 0 <= i < |children| ==> PlannedChild(s, id, children[i])
    requires forall i, j :: 0 <= i < j < |children| ==> children[i].command.key != children[j].command.key
    requires Inv(t) && Stored(s, t, id, [])
    ensures Inv(AddChildren(t, id, policy, children[..n]))
    ensures Stored(s, AddChildren(t, id, policy, children[..n]), id, children[..n])
  {
    hide Inv, Stored, Addable, RoomFor, Childless;
    if n > 0 {
      ChildrenStored(s, t, id, children, n - 1, policy);
      var u := AddChildren(t, id, policy, children[..n - 1]);
      var c := children[n - 1];
      ChildAddable(s, u, id, children, n - 1, policy);
      assert children[..n][..n - 1] == children[..n - 1] && children[..n] == children[..n - 1] + [c];
      FreshId(u);
      assert PlannedChild(s, id, c);
      AddJobInv(u, NewJob(c.command, Queued, Some(id), if c.command.workflow.Some? then policy else None));
      AddedStored(s, u, id, children[..n - 1], c, policy);
    }
  }

  lemma PolicyOf(s: State, id: Id)
    requires Inv(s) && id in s.jobs && s.jobs[id].command.workflow.Some?
    ensures s.jobs[id].command.workflow.value in s.workflows
    ensures s.workflows[s.jobs[id].command.workflow.value].policy == s.jobs[id].policy
    ensures var w := s.workflows[s.jobs[id].command.workflow.value]; w.limit.Some? ==> w.admitted <= w.limit.value
  {
    hide IdsOk, GraphOk, StatusOk, AttemptsOk, WorkflowKeysOk, ActiveOk, ParentsOk, AccountsOk;
    assert MemberOk(s.workflows, id, s.jobs[id]);
    assert StepsOk(s.jobs, s.jobs[id].command.workflow.value, s.workflows[s.jobs[id].command.workflow.value]);
  }

  lemma PlanHasRoom(s: State, id: Id, fs: seq<Followup>, policy: Option<string>)
    requires Linked(s) && id in s.jobs && PlanCompletion(s, id, fs, policy).Ok?
    requires PlanMatches(s, id, fs, PlanCompletion(s, id, fs, policy).value)
    requires s.jobs[id].command.workflow.Some? ==>
      && s.jobs[id].command.workflow.value in s.workflows
      && (var w := s.workflows[s.jobs[id].command.workflow.value];
          w.policy == s.jobs[id].policy && (w.limit.Some? ==> w.admitted <= w.limit.value))
    ensures RoomFor(s, PlanCompletion(s, id, fs, policy).value, s.jobs[id].policy)
  {
    hide Linked, Plan;
    var cs := PlanCompletion(s, id, fs, policy).value;
    forall c | c in cs && c.command.workflow.Some?
      ensures c.command.workflow == s.jobs[id].command.workflow
    {
      var i :| 0 <= i < |cs| && cs[i] == c;
      assert PlannedChild(s, id, cs[i]);
    }
    hide PlanMatches;
  }

  /** An accepted completion creates every follow-up anew, with room for all the members. */
  lemma PlanCompletionFacts(s: State, id: Id, fs: seq<Followup>, policy: Option<string>)
    requires Inv(s) && Linked(s) && id in s.jobs && s.jobs[id].status.Running?
    requires PlanCompletion(s, id, fs, policy).Ok?
    ensures PlanMatches(s, id, fs, PlanCompletion(s, id, fs, policy).value)
    ensures RoomFor(s, PlanCompletion(s, id, fs, policy).value, s.jobs[id].policy)
  {
    hide Inv, Linked, Childless, PlanMatches, RoomFor;
    NoChildrenYet(s, id);
    if s.jobs[id].command.workflow.Some? { PolicyOf(s, id); }
    PlanFacts(s, id, fs);
    PlanHasRoom(s, id, fs, policy);
  }

  lemma CompletedInv(s: State, id: Id, fs: seq<Followup>, policy: Option<string>)
    requires Inv(s) && Linked(s) && id in s.jobs && s.jobs[id].status.Running?
    requires PlanCompletion(s, id, fs, policy).Ok?
    ensures s.jobs[id].command.workflow.Some? ==> s.jobs[id].command.workflow.value in s.workflows
    ensures Inv(Completed(s, id, PlanCompletion(s, id, fs, policy).value))
  {
    hide Inv, Linked, Finish, PlanCompletion, RoomFor, Stored, Childless;
    var cs := PlanCompletion(s, id, fs, policy).value;
    PlanCompletionFacts(s, id, fs, policy);
    NoChildrenYet(s, id);
    FinishedInv(s, id);
    FinishFrame(s, id);
    ChildrenStored(s, Finish(s, id, Complete, Succeeded, OkOutcome, None), id, cs, |cs|, s.jobs[id].policy);
    assert cs[..|cs|] == cs;
  }

  // ---- all settlements ---------------------------------------------------------------------

  lemma RequeueInv(s: State, id: Id, command: Settle, status: Status, at: Option<Instant>)
    requires Inv(s) && id in s.jobs && s.jobs[id].status.Running? && !command.Fail? && (status.Queued? || status.Cancelled?)
    ensures s.jobs[id].command.workflow.Some? ==> s.jobs[id].command.workflow.value in s.workflows
    ensures Inv(Finish(s, id, command, status, OkOutcome, at))
  {
    hide Inv, Finish;
    UncountedSame(s, id);
    FinishInv(s, id, command, status, OkOutcome, at, s.jobs[id].failures);
  }

  lemma FailInv(s: State, id: Id, retryable: bool, at: Instant)
    requires Inv(s) && id in s.jobs && s.jobs[id].status.Running?
    ensures s.jobs[id].command.workflow.Some? ==> s.jobs[id].command.workflow.value in s.workflows
    ensures Retries(s.jobs[id], retryable) ==> Inv(Finish(CountFailure(s, id), id, Fail, Queued, RetryScheduled, Some(at)))
    ensures Inv(Finish(CountFailure(s, id), id, Fail, Failed, Dead, None))
  {
    hide Inv, Finish;
    FinishInv(s, id, Fail, Failed, Dead, None, s.jobs[id].failures + 1);
    if Retries(s.jobs[id], retryable) {
      FinishInv(s, id, Fail, Queued, RetryScheduled, Some(at), s.jobs[id].failures + 1);
    }
  }

  lemma SettleInv(s: State, id: Id, attempt: Id, worker: string, action: Action, now: Instant)
    requires Inv(s)
    ensures Linked(s) && Inv(SettleJob(s, id, attempt, worker, action, now).0)
  {
    hide Inv, Finish, PlanCompletion, Completed, Linked;
    InvLinks(s);
    if ReplayOrLost(s, id, attempt, worker, SettleName(action)).None? {
      match action
      case DoComplete(fs, policy) => if PlanCompletion(s, id, fs, policy).Ok? { CompletedInv(s, id, fs, policy); }
      case DoFail(retryable, retryAfter) =>
        FailInv(s, id, retryable, now + (if retryAfter.Some? then retryAfter.value else 0) * SECOND);
      case DoSnooze(delay) => RequeueInv(s, id, Snooze, Queued, Some(now + delay * SECOND));
      case DoRelease(delay) => RequeueInv(s, id, Release, Queued, Some(now + delay * SECOND));
      case DoCancelRunning => RequeueInv(s, id, CancelRunning, Cancelled, None);
    }
  }
}

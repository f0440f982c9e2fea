/** Exactly when a completion leaves the stored workflow status behind its members: the parent's settlement
    refreshes the workflow before the member children are inserted. */
module LifecycleDivergence {
  import opened TaskTypes
  import opened Lifecycle
  import opened LifecycleInvariant
  import opened LifecycleAdd
  import opened LifecycleMoves
  import opened LifecycleSettle
  import opened LifecycleComplete
  import opened LifecycleRuns
  import opened LifecycleHistory
  import opened LifecycleStatus
  import opened Ordering

  /** What storing the children does to workflow `w`. */
  ghost predicate Extended(jobs: map<Id, Job>, w: Workflow, jobs': map<Id, Job>, w': Workflow, grown: bool) {
    && w' == w.(steps := w'.steps, admitted := w'.admitted)
    && (forall st :: st in w.steps ==> st in w'.steps && w'.steps[st] == w.steps[st])
    && (forall i :: i in jobs ==> i in jobs' && jobs'[i] == jobs[i])
    && (forall st :: st in w'.steps && st !in w.steps ==> w'.steps[st] in jobs' && jobs'[w'.steps[st]].status.Queued?)
    && (grown <==> exists st :: st in w'.steps && st !in w.steps)
  }

  ghost predicate SomeMemberChild(cs: seq<Child>) {
    exists k :: 0 <= k < |cs| && cs[k].command.workflow.Some?
  }

  lemma {:induction false} ChildrenExtend(s: State, id: Id, policy: Option<string>, cs: seq<Child>, w: Id)
    requires w in s.workflows && forall i :: i in s.jobs ==> i < s.nextId
    requires forall k :: 0 <= k < |cs| ==> cs[k].existing.None?
    requires forall k :: 0 <= k < |cs| && cs[k].command.workflow.Some? ==>
      cs[k].command.workflow == Some(w) && cs[k].command.step.Some? && cs[k].command.step.value !in s.workflows[w].steps
    ensures var t := AddChildren(s, id, policy, cs);
            && w in t.workflows && Extended(s.jobs, s.workflows[w], t.jobs, t.workflows[w], SomeMemberChild(cs))
            && (forall i :: i in t.jobs ==> i < t.nextId)
  {
    if cs != [] {
      var n := |cs| - 1;
      ChildrenExtend(s, id, policy, cs[..n], w);
      var u := AddChildren(s, id, policy, cs[..n]);
      var t := AddChildren(s, id, policy, cs);
      assert SomeMemberChild(cs) <==> SomeMemberChild(cs[..n]) || cs[n].command.workflow.Some?;
      if cs[n].command.workflow.Some? {
        assert cs[n].command.step.value in t.workflows[w].steps;
      } else {
        assert t.workflows[w] == u.workflows[w];
      }
    }
  }

  /** Growing by queued members changes the verdict only from "all succeeded". */
  lemma GrowthVerdict(jobs: map<Id, Job>, w: Workflow, jobs': map<Id, Job>, w': Workflow, grown: bool)
    requires MembersIn(jobs, w) && Extended(jobs, w, jobs', w', grown) && !w.cancelRequested && w.status == Recomputed(jobs, w)
    ensures InSync(jobs', w') <==> !(grown && Recomputed(jobs, w) == WfSucceeded)
  {
    assert SomeMember(jobs, w, Failed) <==> SomeMember(jobs', w', Failed) by {
      if SomeMember(jobs, w, Failed) {
        var st :| st in w.steps && w.steps[st] in jobs && jobs[w.steps[st]].status == Failed;
        assert st in w'.steps;
      }
    }
    assert SomeMember(jobs, w, Cancelled) <==> SomeMember(jobs', w', Cancelled) by {
      if SomeMember(jobs, w, Cancelled) {
        var st :| st in w.steps && w.steps[st] in jobs && jobs[w.steps[st]].status == Cancelled;
        assert st in w'.steps;
      }
    }
    assert EveryMember(jobs', w', Succeeded) <==> EveryMember(jobs, w, Succeeded) && !grown by {
      if EveryMember(jobs', w', Succeeded) {
        forall st | st in w.steps ensures w.steps[st] in jobs && jobs[w.steps[st]].status == Succeeded {
          assert st in w'.steps && w'.steps[st] in jobs';
        }
      }
    }
  }

  /** Every member but the parent has succeeded: checkable before the call. */
  predicate OthersSucceeded(s: State, w: Id, id: Id)
    requires w in s.workflows
  {
    forall st :: st in s.workflows[w].steps ==>
      s.workflows[w].steps[st] == id || (s.workflows[w].steps[st] in s.jobs && s.jobs[s.workflows[w].steps[st]].status.Succeeded?)
  }

  lemma SuccessVerdict(s: State, id: Id, w: Id)
    requires OwnMembers(s.jobs, s.workflows)
    requires id in s.jobs && s.jobs[id].status.Running? && s.jobs[id].command.workflow == Some(w) && w in s.workflows
    ensures var m := Finish(s, id, Complete, Succeeded, OkOutcome, None);
            w in m.workflows
            && (Recomputed(m.jobs, m.workflows[w]) == WfSucceeded <==> s.workflows[w].sealed && OthersSucceeded(s, w, id))
  {
    hide Finish, OwnMembers;
    OwnMembersIn(s, w);
    var m := Finish(s, id, Complete, Succeeded, OkOutcome, None);
    FinishFrameFlags(s, id, w);
    SucceededMembers(s, id);
    VerdictOfOthers(s, m, id, w);
  }

  lemma VerdictOfOthers(s: State, m: State, id: Id, w: Id)
    requires w in s.workflows && MembersIn(s.jobs, s.workflows[w]) && w in m.workflows
    requires m.workflows[w].(status := s.workflows[w].status) == s.workflows[w]
    requires forall i :: i in s.jobs ==> i in m.jobs && (m.jobs[i].status.Succeeded? <==> i == id || s.jobs[i].status.Succeeded?)
    ensures Recomputed(m.jobs, m.workflows[w]) == WfSucceeded <==> s.workflows[w].sealed && OthersSucceeded(s, w, id)
  {
    assert EveryMember(m.jobs, m.workflows[w], Succeeded) <==> OthersSucceeded(s, w, id);
    assert EveryMember(m.jobs, m.workflows[w], Succeeded) ==>
        !SomeMember(m.jobs, m.workflows[w], Failed) && !SomeMember(m.jobs, m.workflows[w], Cancelled);
  }

  /** Finishing a job makes no other job succeed. */
  lemma SucceededMembers(s: State, id: Id)
    requires id in s.jobs && s.jobs[id].status.Running?
    requires s.jobs[id].command.workflow.Some? ==> s.jobs[id].command.workflow.value in s.workflows
    ensures var m := Finish(s, id, Complete, Succeeded, OkOutcome, None);
            forall i :: i in s.jobs ==> i in m.jobs && (m.jobs[i].status.Succeeded? <==> i == id || s.jobs[i].status.Succeeded?)
  {
    hide RefreshedStatus;
  }

  /** The stored status falls behind exactly when the workflow was sealed, the parent was its last unfinished
      member and the completion adds a member: SUCCEEDED is stored, and a queued member follows. */
  lemma StatusFallsBehindIff(s: State, id: Id, attempt: Id, worker: string, fs: seq<Followup>, policy: Option<string>, now: Instant, w: Id)
    requires Inv(s) && Linked(s) && AllInSync(s) && w in s.workflows && !s.workflows[w].cancelRequested
    requires id in s.jobs && s.jobs[id].command.workflow == Some(w)
    requires Accepted(SettleJob(s, id, attempt, worker, DoComplete(fs, policy), now).1)
    ensures var t := SettleJob(s, id, attempt, worker, DoComplete(fs, policy), now).0;
            w in t.workflows
            && (!InSync(t.jobs, t.workflows[w]) <==>
                  s.workflows[w].sealed && OthersSucceeded(s, w, id) && exists f :: f in fs && f.member)
  {
    hide Inv, Linked, AllInSync, PlanCompletion, Finish, RoomFor, PlannedChild, OwnMembers, InSync, OthersSucceeded, Recomputed;
    var cs := PlanCompletion(s, id, fs, policy).value;
    var m := Finish(s, id, Complete, Succeeded, OkOutcome, None);
    PlanCompletionFacts(s, id, fs, policy);
    forall k | 0 <= k < |cs| ensures cs[k].existing.None? { AllNew(s, id, fs, cs, k); }
    MembersHaveWorkflow(s, id, fs, policy);
    InvOwnMembers(s);
    SuccessVerdict(s, id, w);
    FinishedSync(s, id, w);
    NoChildrenYet(s, id);
    FinishFrameSteps(s, id, w);
    ChildrenExtend(m, id, s.jobs[id].policy, cs, w);
    MemberChildIff(s, id, fs, cs);
    GrowthVerdict(m.jobs, m.workflows[w], AddChildren(m, id, s.jobs[id].policy, cs).jobs,
                  AddChildren(m, id, s.jobs[id].policy, cs).workflows[w], SomeMemberChild(cs));
  }

  lemma MemberChildIff(s: State, id: Id, fs: seq<Followup>, cs: seq<Child>)
    requires id in s.jobs && PlanMatches(s, id, fs, cs)
    requires forall k :: 0 <= k < |fs| ==> (ChildCommand(s.jobs[id].command, id, fs[k]).workflow.Some? <==> fs[k].member)
    ensures SomeMemberChild(cs) <==> exists f :: f in fs && f.member
  {
    hide PlannedChild;
    if f :| f in fs && f.member {
      var k :| 0 <= k < |fs| && fs[k] == f;
      assert cs[k].command.workflow.Some?;
    }
    if SomeMemberChild(cs) {
      var k :| 0 <= k < |cs| && cs[k].command.workflow.Some?;
      assert fs[k] in fs;
    }
  }

  lemma FinishedSync(s: State, id: Id, w: Id)
    requires Inv(s) && Linked(s) && AllInSync(s) && id in s.jobs && s.jobs[id].status.Running? && w in s.workflows
    requires !s.workflows[w].cancelRequested
    ensures s.jobs[id].command.workflow.Some? ==> s.jobs[id].command.workflow.value in s.workflows
    ensures var m := Finish(s, id, Complete, Succeeded, OkOutcome, None);
            && w in m.workflows && !m.workflows[w].cancelRequested
            && m.workflows[w].status == Recomputed(m.jobs, m.workflows[w])
            && MembersIn(m.jobs, m.workflows[w]) && (forall i :: i in m.jobs ==> i < m.nextId)
  {
    hide Inv, Linked, Finish, Recomputed, OwnMembers;
    RunningWorkflow(s, id);
    var m := Finish(s, id, Complete, Succeeded, OkOutcome, None);
    UncountedSame(s, id);
    FinishSync(s, id, Complete, Succeeded, OkOutcome, None, s.jobs[id].failures);
    FinishFrameFlags(s, id, w);
    FinishedInv(s, id);
    InvOwnMembers(m);
    OwnMembersIn(m, w);
    IdsBounded(m);
    assert InSync(m.jobs, m.workflows[w]);
  }

  lemma FinishFrameFlags(s: State, id: Id, w: Id)
    requires id in s.jobs && w in s.workflows
    requires s.jobs[id].command.workflow.Some? ==> s.jobs[id].command.workflow.value in s.workflows
    ensures var m := Finish(s, id, Complete, Succeeded, OkOutcome, None);
            w in m.workflows && m.workflows[w].(status := s.workflows[w].status) == s.workflows[w]
  {
    hide RefreshedStatus;
  }

  lemma FinishFrameSteps(s: State, id: Id, w: Id)
    requires Childless(s, id) && id in s.jobs && w in s.workflows
    requires s.jobs[id].command.workflow.Some? ==> s.jobs[id].command.workflow.value in s.workflows
    ensures var m := Finish(s, id, Complete, Succeeded, OkOutcome, None);
            w in m.workflows && forall local :: Member(id, local) !in m.workflows[w].steps
  {
    FinishFrameFlags(s, id, w);
    hide Finish;
  }

  // ---- whole runs ----------------------------------------------------------------------------

  /** The call is a completion that will be accepted, with a member follow-up, by the last unfinished member of a
      sealed workflow that was not asked to cancel. */
  ghost predicate FallsBehind(s: State, op: Op) {
    && Linked(s) && op.OpSettle? && op.action.DoComplete? && op.job in s.jobs
    && s.jobs[op.job].command.workflow.Some? && s.jobs[op.job].command.workflow.value in s.workflows
    && (var w := s.jobs[op.job].command.workflow.value;
        !s.workflows[w].cancelRequested && s.workflows[w].sealed && OthersSucceeded(s, w, op.job))
    && (exists f :: f in op.action.followups && f.member)
    && ReplayOrLost(s, op.job, op.attempt, op.worker, Complete).None?
    && PlanCompletion(s, op.job, op.action.followups, op.action.policy).Ok?
  }

  lemma {:induction false} ChildrenElsewhere(s: State, id: Id, policy: Option<string>, cs: seq<Child>, w: Id)
    requires forall k :: 0 <= k < |cs| ==> cs[k].command.workflow.None? || cs[k].command.workflow == Some(w)
    requires forall i :: i in s.jobs ==> i < s.nextId
    ensures var t := AddChildren(s, id, policy, cs);
            && t.workflows.Keys == s.workflows.Keys && (forall v :: v in s.workflows && v != w ==> t.workflows[v] == s.workflows[v])
            && (forall v :: v in s.workflows ==> t.workflows[v].cancelRequested == s.workflows[v].cancelRequested)
            && (forall i :: i in s.jobs ==> i in t.jobs && t.jobs[i] == s.jobs[i])
            && (forall i :: i in t.jobs ==> i < t.nextId)
  {
    if cs != [] { ChildrenElsewhere(s, id, policy, cs[..|cs| - 1], w); }
  }

  lemma InSyncOf(s: State, v: Id)
    requires AllInSync(s) && v in s.workflows
    ensures InSync(s.jobs, s.workflows[v])
  {
  }

  lemma SameEndsRefl(jobs: map<Id, Job>, jobs': map<Id, Job>, w: Workflow)
    requires MembersIn(jobs, w) && InSync(jobs, w) && forall i :: i in jobs ==> i in jobs' && jobs'[i] == jobs[i]
    ensures InSync(jobs', w)
  {
    hide InSync;
    KeptSync(jobs, jobs', w, w);
  }

  /** An accepted completion keeps every workflow but the parent's in step. */
  lemma OthersInSync(s: State, id: Id, fs: seq<Followup>, policy: Option<string>, w: Id, v: Id)
    requires Inv(s) && Linked(s) && AllInSync(s) && id in s.jobs && s.jobs[id].status.Running?
    requires s.jobs[id].command.workflow == Some(w) && w in s.workflows && PlanCompletion(s, id, fs, policy).Ok? && v in s.workflows
    ensures var t := Completed(s, id, PlanCompletion(s, id, fs, policy).value);
            && t.workflows.Keys == s.workflows.Keys
            && (v != w || s.workflows[v].cancelRequested ==> InSync(t.jobs, t.workflows[v]))
  {
    hide Inv, Linked, AllInSync, PlanCompletion, Finish, RoomFor, PlannedChild, OwnMembers, InSync, MembersIn, EveryMember, ChildCommand;
    var cs := PlanCompletion(s, id, fs, policy).value;
    var m := Finish(s, id, Complete, Succeeded, OkOutcome, None);
    PlanCompletionFacts(s, id, fs, policy);
    ChildrenStayHome(s, id, fs, cs);
    UncountedSame(s, id);
    FinishSync(s, id, Complete, Succeeded, OkOutcome, None, s.jobs[id].failures);
    FinishedInv(s, id);
    IdsBounded(m);
    InvOwnMembers(m);
    FinishKeys(s, id);
    FinishFrameFlags(s, id, v);
    ChildrenElsewhere(m, id, s.jobs[id].policy, cs, w);
    if v != w {
      InSyncOf(m, v);
      OwnMembersIn(m, v);
      SameEndsRefl(m.jobs, AddChildren(m, id, s.jobs[id].policy, cs).jobs, m.workflows[v]);
    } else if s.workflows[v].cancelRequested {
      RequestedSync(AddChildren(m, id, s.jobs[id].policy, cs), v);
    }
  }

  lemma RequestedSync(t: State, v: Id)
    requires v in t.workflows && t.workflows[v].cancelRequested
    ensures InSync(t.jobs, t.workflows[v])
  {
  }

  lemma FinishKeys(s: State, id: Id)
    requires id in s.jobs
    requires s.jobs[id].command.workflow.Some? ==> s.jobs[id].command.workflow.value in s.workflows
    ensures Finish(s, id, Complete, Succeeded, OkOutcome, None).workflows.Keys == s.workflows.Keys
  {
    hide RefreshedStatus, Unblocked, Cascaded;
  }

  lemma ChildrenStayHome(s: State, id: Id, fs: seq<Followup>, cs: seq<Child>)
    requires id in s.jobs && PlanMatches(s, id, fs, cs)
    ensures forall k :: 0 <= k < |cs| ==> cs[k].command.workflow.None? || cs[k].command.workflow == s.jobs[id].command.workflow
  {
  }

  /** A completion that is not accepted, or brings no member. */
  lemma Unaccepted(s: State, op: Op)
    requires Linked(s) && ValidOp(op) && op.OpSettle? && op.action.DoComplete?
    requires ReplayOrLost(s, op.job, op.attempt, op.worker, Complete).Some?
             || PlanCompletion(s, op.job, op.action.followups, op.action.policy).Err?
    ensures Apply(s, op) == s
  {
    hide Linked, PlanCompletion, Completed;
  }

  /** What an accepted completion with members does to the statuses of all workflows. */
  lemma CompletionSync(s: State, op: Op, v: Id)
    requires Inv(s) && Linked(s) && AllInSync(s) && ValidOp(op) && op.OpSettle? && op.action.DoComplete?
    requires ReplayOrLost(s, op.job, op.attempt, op.worker, Complete).None?
    requires PlanCompletion(s, op.job, op.action.followups, op.action.policy).Ok? && exists f :: f in op.action.followups && f.member
    ensures s.jobs[op.job].command.workflow.Some? && s.jobs[op.job].command.workflow.value in s.workflows
    ensures var t, w := Apply(s, op), s.jobs[op.job].command.workflow.value;
            && t.workflows.Keys == s.workflows.Keys
            && (v in s.workflows ==> (!InSync(t.jobs, t.workflows[v]) <==> v == w && FallsBehind(s, op)))
  {
    hide Inv, Plan, Completed, AllInSync, InSync, OthersSucceeded;
    RunningWorkflow(s, op.job);
    var w := s.jobs[op.job].command.workflow.value;
    assert AcceptedCompletion(s, op);
    hide PlanCompletion, Linked;
    OthersInSync(s, op.job, op.action.followups, op.action.policy, w, if v in s.workflows then v else w);
    if v == w && !s.workflows[w].cancelRequested {
      StatusFallsBehindIff(s, op.job, op.attempt, op.worker, op.action.followups, op.action.policy, op.now, w);
    }
  }

  predicate AcceptedCompletion(s: State, op: Op)
    requires Linked(s) && op.OpSettle? && op.action.DoComplete?
  {
    Accepted(SettleJob(s, op.job, op.attempt, op.worker, op.action, op.now).1)
  }

  /** Every call keeps all stored statuses in step, except a completion that falls behind; that one leaves behind its
      own workflow and no other. */
  lemma StepSyncIff(s: State, op: Op, v: Id)
    requires Inv(s) && Linked(s) && ValidOp(op) && AllInSync(s)
    ensures AllInSync(Apply(s, op)) <==> !FallsBehind(s, op)
    ensures FallsBehind(s, op) ==> s.jobs[op.job].command.workflow.value in Apply(s, op).workflows
    ensures var t := Apply(s, op);
            FallsBehind(s, op) && v in t.workflows ==> (InSync(t.jobs, t.workflows[v]) <==> s.jobs[op.job].command.workflow != Some(v))
  {
    hide Inv, InSync, AllInSync, OthersSucceeded, Apply, PlanCompletion;
    if !op.OpSettle? || !op.action.DoComplete? || !(exists f :: f in op.action.followups && f.member) {
      StepSync(s, op);
    } else if ReplayOrLost(s, op.job, op.attempt, op.worker, Complete).Some? || PlanCompletion(s, op.job, op.action.followups, op.action.policy).Err? {
      Unaccepted(s, op);
    } else {
      CompletionSync(s, op, v);
      forall u | u in Apply(s, op).workflows && !FallsBehind(s, op) ensures InSync(Apply(s, op).jobs, Apply(s, op).workflows[u]) {
        CompletionSync(s, op, u);
      }
      EachInSync(Apply(s, op));
      CompletionSync(s, op, s.jobs[op.job].command.workflow.value);
    }
  }

  lemma EachInSync(t: State)
    ensures AllInSync(t) <==> forall u :: u in t.workflows ==> InSync(t.jobs, t.workflows[u])
  {
  }

  /** Over whole runs, member follow-ups included: the stored statuses stay in step throughout exactly when no call
      of the run falls behind in the state it meets. */
  lemma RunSyncIff(s: State, ops: seq<Op>)
    requires Inv(s) && ValidRun(ops) && AllInSync(s)
    ensures (forall k :: 0 <= k <= |ops| ==> AllInSync(Run(s, ops[..k]))) <==> (forall k :: 0 <= k < |ops| ==> !FallsBehind(Run(s, ops[..k]), ops[k]))
  {
    hide Inv, AllInSync, FallsBehind, Run;
    if forall k :: 0 <= k < |ops| ==> !FallsBehind(Run(s, ops[..k]), ops[k]) {
      forall k | 0 <= k <= |ops| ensures AllInSync(Run(s, ops[..k])) {
        InSyncUpTo(s, ops, k);
      }
    }
    if forall k :: 0 <= k <= |ops| ==> AllInSync(Run(s, ops[..k])) {
      forall k | 0 <= k < |ops| ensures !FallsBehind(Run(s, ops[..k]), ops[k]) {
        NextState(s, ops, k);
        StepSyncIff(Run(s, ops[..k]), ops[k], 0);
      }
    }
  }

  lemma NextState(s: State, ops: seq<Op>, k: nat)
    requires Inv(s) && ValidRun(ops) && k < |ops|
    ensures Linked(Run(s, ops[..k])) && Inv(Run(s, ops[..k])) && ValidOp(ops[k])
    ensures Run(s, ops[..k + 1]) == Apply(Run(s, ops[..k]), ops[k])
  {
    hide Inv, Linked, Apply;
    assert ops[..k + 1][..k] == ops[..k];
    InvLinks(Run(s, ops[..k]));
  }

  lemma {:induction false} InSyncUpTo(s: State, ops: seq<Op>, k: nat)
    requires Inv(s) && ValidRun(ops) && AllInSync(s) && k <= |ops|
    requires forall j :: 0 <= j < |ops| ==> !FallsBehind(Run(s, ops[..j]), ops[j])
    ensures AllInSync(Run(s, ops[..k]))
  {
    hide Inv, AllInSync, FallsBehind;
    if k > 0 {
      InSyncUpTo(s, ops, k - 1);
      NextState(s, ops, k - 1);
      StepSyncIff(Run(s, ops[..k - 1]), ops[k - 1], 0);
    }
  }

  // ---- a run that falls behind ---------------------------------------------------------------

  const MEMBER: Command := Command("q", "t", "", "", None, None, None, None, None, None, Some(0), Some(Public("a")), None)
  const NEXT_STEP: Followup := Followup("n", "t", None, "", "", None, None, None, true)
  const QUERY: ClaimQuery := ClaimQuery("q", "x", 1, None, None, None, None, Some(["h"]))

  /** Create a workflow with a policy, add its only member, seal it, claim the member, and complete it with one
      member follow-up. */
  const SHORT_RUN: seq<Op> := [
    OpCreate(WorkflowRequest("w", Dag, "", ["q"], None, Some("h"))),
    OpEnqueue(MEMBER),
    OpSeal(0),
    OpClaim(QUERY, 0),
    OpSettle(1, 2, "x", DoComplete([NEXT_STEP], Some("h")), 0)]

  // The states of the run, one by one.
  const FLOW: Workflow := Workflow("w", Dag, "", ["q"], false, false, WfRunning, map[], Some(DEFAULT_MEMBER_LIMIT), 0, Some("h"))
  const JOINED: Workflow := FLOW.(steps := map[Public("a") := 1], admitted := 1)
  const WAITING_JOB: Job := NewJob(MEMBER, Queued, None, Some("h"))
  const CLAIMED_JOB: Job := WAITING_JOB.(status := Running, attempt := Some(2), worker := Some("x"), attempts := 1)
  const CREATED: State := Init({"q"}).(nextId := 1, workflows := map[0 := FLOW], workflowKeys := map["w" := 0])
  const ENQUEUED: State := CREATED.(nextId := 2, jobs := map[1 := WAITING_JOB], order := [1], workflows := map[0 := JOINED],
                                    enqueues := [Enqueued(1, MEMBER, true, None)])
  const SEALED: State := ENQUEUED.(workflows := map[0 := JOINED.(sealed := true)])
  const CLAIMED: State := SEALED.(nextId := 3, jobs := map[1 := CLAIMED_JOB])

  lemma CreateStep()
    requires Linked(Init({"q"}))
    ensures Apply(Init({"q"}), SHORT_RUN[0]) == CREATED
  {
    assert ["q"][1..] == [] && Sort(["q"], StringLe) == ["q"];
  }

  lemma EnqueueStep()
    requires Linked(CREATED)
    ensures Apply(CREATED, SHORT_RUN[1]) == ENQUEUED
  {
  }

  lemma SealStep()
    requires Linked(ENQUEUED)
    ensures Apply(ENQUEUED, SHORT_RUN[2]) == SEALED
  {
    var w := JOINED.(sealed := true);
    assert Public("a") in w.steps && !EveryMember(ENQUEUED.jobs, w, Succeeded);
    assert RefreshedStatus(ENQUEUED.jobs, w) == WfRunning;
    assert ENQUEUED.workflows[0 := w] == map[0 := w] && map[0 := w][0 := w] == map[0 := w];
  }

  lemma ClaimStep()
    requires Linked(SEALED)
    ensures Apply(SEALED, SHORT_RUN[3]) == CLAIMED
  {
    assert SEALED.order[..0] == [];
    assert EligibleJobs(SEALED.jobs, SEALED.order, QUERY, 0) == [1];
    assert Picked(SEALED, QUERY, 0) == [1];
    assert [1][..0] == [];
    assert ClaimAll(SEALED, [1], "x") == ClaimOne(SEALED, 1, "x");
    assert SEALED.jobs[1 := CLAIMED_JOB] == map[1 := CLAIMED_JOB];
  }

  lemma PlanStep()
    requires Linked(CLAIMED)
    ensures PlanOne(CLAIMED, 1, NEXT_STEP) == Ok(Child(ChildCommand(MEMBER, 1, NEXT_STEP), None))
  {
  }

  lemma OnePlan(s: State, id: Id, f: Followup, c: Child)
    requires Linked(s) && id in s.jobs && PlanOne(s, id, f) == Ok(c)
    ensures Plan(s, id, [f]) == Ok([c])
  {
    hide Linked, PlanOne;
    assert [f][..0] == [] && !StepSeen([], f.step);
    assert Plan(s, id, []) == Ok([]);
    assert [] + [c] == [c];
  }

  lemma OneNew(c: Child)
    ensures NewMembers([c]) <= 1
  {
    assert [c][..0] == [] && NewMembers([]) == 0;
  }

  lemma PlanAll()
    requires Linked(CLAIMED)
    ensures PlanCompletion(CLAIMED, 1, [NEXT_STEP], Some("h")) == Ok([Child(ChildCommand(MEMBER, 1, NEXT_STEP), None)])
  {
    hide Linked, Plan, PlanOne, NewMembers, ChildCommand;
    var child := Child(ChildCommand(MEMBER, 1, NEXT_STEP), None);
    PlanStep();
    OnePlan(CLAIMED, 1, NEXT_STEP, child);
    OneNew(child);
  }

  lemma StoreStep()
    ensures var t := Completed(CLAIMED, 1, [Child(ChildCommand(MEMBER, 1, NEXT_STEP), None)]);
            && 0 in t.workflows && t.workflows[0].status.WfSucceeded?
            && 3 in t.jobs && t.jobs[3].command.workflow == Some(0) && t.jobs[3].status.Queued?
  {
    var child := Child(ChildCommand(MEMBER, 1, NEXT_STEP), None);
    FinishShape();
    hide Finish;
    assert [child][..0] == [];
    var m := Finish(CLAIMED, 1, Complete, Succeeded, OkOutcome, None);
    assert AddChildren(m, 1, Some("h"), [child]) == AddChild(m, 1, Some("h"), child);
  }

  lemma FenceStep()
    ensures ReplayOrLost(CLAIMED, 1, 2, "x", Complete).None? && 1 in CLAIMED.jobs
  {
  }

  /** An accepted completion stores the planned children. */
  lemma SettledAs(s: State, id: Id, attempt: Id, worker: string, fs: seq<Followup>, policy: Option<string>, now: Instant, children: seq<Child>)
    requires Linked(s) && id in s.jobs && ReplayOrLost(s, id, attempt, worker, Complete).None?
    requires PlanCompletion(s, id, fs, policy) == Ok(children)
    ensures s.jobs[id].command.workflow.Some? ==> s.jobs[id].command.workflow.value in s.workflows
    ensures Apply(s, OpSettle(id, attempt, worker, DoComplete(fs, policy), now)) == Completed(s, id, children)
  {
    hide PlanCompletion, Completed;
  }

  lemma CompleteStep()
    requires Linked(CLAIMED)
    ensures var t := Apply(CLAIMED, SHORT_RUN[4]);
            && 0 in t.workflows && t.workflows[0].status.WfSucceeded?
            && 3 in t.jobs && t.jobs[3].command.workflow == Some(0) && t.jobs[3].status.Queued?
  {
    assert SHORT_RUN[4] == OpSettle(1, 2, "x", DoComplete([NEXT_STEP], Some("h")), 0);
    hide Linked, PlanCompletion, Completed, ReplayOrLost, Apply, CLAIMED, NEXT_STEP, MEMBER, SHORT_RUN, ChildCommand;
    PlanAll();
    FenceStep();
    SettledAs(CLAIMED, 1, 2, "x", [NEXT_STEP], Some("h"), 0, [Child(ChildCommand(MEMBER, 1, NEXT_STEP), None)]);
    StoreStep();
  }

  lemma FinishShape()
    ensures var m := Finish(CLAIMED, 1, Complete, Succeeded, OkOutcome, None);
            m.nextId == 3 && m.workflows == map[0 := JOINED.(sealed := true, status := WfSucceeded)]
  {
    var c := Close(CLAIMED, 1, Complete, Succeeded, OkOutcome, None);
    assert EveryMember(Unblocked(c.jobs, 1), JOINED, Succeeded);
  }

  /** After it the workflow is SUCCEEDED and its new member is still queued. */
  lemma SucceededTooSoon()
    ensures ValidRun(SHORT_RUN) && Inv(Init({"q"}))
    ensures var t := Run(Init({"q"}), SHORT_RUN);
            && 0 in t.workflows && t.workflows[0].status.WfSucceeded?
            && 3 in t.jobs && t.jobs[3].command.workflow == Some(0) && t.jobs[3].status.Queued?
  {
    hide Inv, Linked, Apply, Run, ValidRun, Init, CREATED, ENQUEUED, SEALED, CLAIMED, SHORT_RUN;
    InitInv({"q"});
    InvLinks(Init({"q"}));
    ShortRunIsValid();
    CreateStep();
    if Linked(CREATED) { EnqueueStep(); }
    if Linked(ENQUEUED) { SealStep(); }
    if Linked(SEALED) { ClaimStep(); }
    FiveCalls(Init({"q"}), SHORT_RUN, CREATED, ENQUEUED, SEALED, CLAIMED);
    CompleteStep();
  }

  lemma ShortRunIsValid()
    ensures ValidRun(SHORT_RUN) && |SHORT_RUN| == 5
  {
  }

  lemma NoCalls(s: State)
    requires Inv(s)
    ensures ValidRun([]) && Run(s, []) == s
  {
    hide Inv;
  }

  /** A run of five calls, the first four of them known. */
  lemma FiveCalls(s0: State, ops: seq<Op>, s1: State, s2: State, s3: State, s4: State)
    requires Inv(s0) && |ops| == 5 && ValidRun(ops)
    requires Linked(s0) ==> Apply(s0, ops[0]) == s1
    requires Linked(s1) ==> Apply(s1, ops[1]) == s2
    requires Linked(s2) ==> Apply(s2, ops[2]) == s3
    requires Linked(s3) ==> Apply(s3, ops[3]) == s4
    ensures Linked(s4) && Run(s0, ops) == Apply(s4, ops[4])
  {
    hide Inv, Linked, Apply, Run, ValidRun;
    assert ops[..0] == [] && ops[..5] == ops;
    NoCalls(s0);
    NextState(s0, ops, 0);
    NextState(s0, ops, 1);
    NextState(s0, ops, 2);
    NextState(s0, ops, 3);
    NextState(s0, ops, 4);
  }
}

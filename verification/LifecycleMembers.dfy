/** What enqueueing answers: new jobs, repeated members, and refusals, in terms of the command's fields. */
module LifecycleMembers {
  import opened TaskTypes
  import opened Lifecycle
  import opened LifecycleInvariant
  import opened LifecycleAdd
  import opened LifecycleMoves
  import opened LifecycleSettle
  import opened LifecycleComplete
  import opened LifecycleRuns
  import opened LifecycleHistory
  import opened LifecycleTerms
  import opened LifecycleDivergence
  import opened LifecycleStatus
  import opened LifecycleOrigins
  import opened Ordering

  // ---- repeated members ----------------------------------------------------------------------

  /** The commands agree on everything but the claim time, where the order of dependencies does not count. */
  ghost predicate SameWork(a: Command, b: Command) {
    && a.queue == b.queue && a.jobType == b.jobType && a.payload == b.payload && a.settings == b.settings
    && a.flowKey == b.flowKey && a.affinityKey == b.affinityKey && a.key == b.key
    && a.maxAttempts == b.maxAttempts && a.leaseSeconds == b.leaseSeconds && a.workflow == b.workflow && a.step == b.step
    && (match (a.dependsOn, b.dependsOn)
        case (None, None) => true
        case (Some(ds), Some(es)) => (forall d :: d in ds <==> d in es)
        case _ => false)
  }

  lemma SameMemberIff(a: Command, b: Command)
    ensures SameMember(a, b) <==> SameWork(a, b) && a.scheduledAt == b.scheduledAt
  {
    if a.dependsOn.Some? && b.dependsOn.Some? { SameElements(a.dependsOn.value, b.dependsOn.value); }
    var a', b' := a.(dependsOn := None), b.(dependsOn := None);
    assert a' == b' <==> (
      && a'.queue == b'.queue && a'.jobType == b'.jobType && a'.payload == b'.payload && a'.settings == b'.settings
      && a'.flowKey == b'.flowKey && a'.affinityKey == b'.affinityKey && a'.scheduledAt == b'.scheduledAt && a'.key == b'.key
      && a'.maxAttempts == b'.maxAttempts && a'.leaseSeconds == b'.leaseSeconds && a'.workflow == b'.workflow && a'.step == b'.step);
  }

  lemma SameElements(ds: seq<Id>, es: seq<Id>)
    ensures Elements(ds) == Elements(es) <==> forall d :: d in ds <==> d in es
  {
    if Elements(ds) == Elements(es) {
      forall d ensures d in ds <==> d in es {
        assert d in Elements(ds) <==> d in Elements(es);
      }
    }
  }

  /** At any later time, whether the workflow is open, sealed or cancelled: enqueueing the step of a stored member again
      names the member when the work and the claim time are the member's, and is refused otherwise. Either way nothing
      but the log of calls changes. */
  lemma MemberReplays(s: State, ops: seq<Op>, i: Id, c: Command)
    requires Inv(s) && ValidRun(ops) && i in s.jobs && ValidCommand(c)
    requires c.workflow.Some? && c.workflow == s.jobs[i].command.workflow && c.step == s.jobs[i].command.step
    requires c.workflow.value in s.workflows && c.queue in s.workflows[c.workflow.value].queues
    ensures var t := Run(s, ops);
            && Linked(t) && i in t.jobs
            && (var j := t.jobs[i];
                EnqueueMember(t, c) ==
                  if SameWork(j.command, c) && j.command.scheduledAt == c.scheduledAt
                  then (t.(enqueues := t.enqueues + [Enqueued(i, c, false, j.parent)]), Ok(Existed(i, j.command.scheduledAt)))
                  else (t, Err(Conflict("workflow_step_mismatch"))))
  {
    hide Inv, Linked, AllEvolve, SameMember, SameWork, ParentError, AllSucceeded, TermsKept, SameTerms;
    var t := Run(s, ops);
    RunEvolves(s, ops);
    RunTerms(s, ops);
    InvLinks(t);
    StillMember(s, t, i);
    StillDeclared(s, t, c.workflow.value);
    StepNames(t, i);
    SameMemberIff(t.jobs[i].command, c);
  }

  lemma StillMember(s: State, t: State, i: Id)
    requires AllEvolve(s, t) && i in s.jobs
    ensures i in t.jobs && SameIdentity(s.jobs[i], t.jobs[i])
    ensures t.jobs[i].command.workflow == s.jobs[i].command.workflow && t.jobs[i].command.step == s.jobs[i].command.step
  {
    assert Evolves(s.nextId, s.jobs[i], t.jobs[i]);
    IdentityFields(s.jobs[i], t.jobs[i]);
  }

  lemma StillDeclared(s: State, t: State, w: Id)
    requires TermsKept(s, t) && w in s.workflows
    ensures w in t.workflows && t.workflows[w].queues == s.workflows[w].queues
  {
    assert SameTerms(s.workflows[w], t.workflows[w]);
  }

  lemma StepNames(s: State, i: Id)
    requires Inv(s) && i in s.jobs && s.jobs[i].command.workflow.Some?
    ensures var c := s.jobs[i].command;
            && c.workflow.value in s.workflows && c.step.Some? && c.step.value in s.workflows[c.workflow.value].steps
            && s.workflows[c.workflow.value].steps[c.step.value] == i
  {
    hide IdsOk, GraphOk, StatusOk, AttemptsOk, WorkflowKeysOk, ActiveOk, ParentsOk, AccountsOk;
    assert MemberOk(s.workflows, i, s.jobs[i]);
  }

  /** So the command that a member was stored with is answered with the member exactly until the member was put back
      for another time: retries, snoozes and releases overwrite the claim time that the comparison includes. */
  lemma OwnCommandReplaysIff(s: State, ops: seq<Op>, i: Id, c: Command)
    requires Inv(s) && ValidRun(ops) && i in s.jobs && c == s.jobs[i].command && ValidCommand(c)
    requires c.workflow.Some? && c.workflow.value in s.workflows && c.queue in s.workflows[c.workflow.value].queues
    ensures var t := Run(s, ops);
            && Linked(t) && i in t.jobs
            && (EnqueueMember(t, c).1 == Ok(Existed(i, c.scheduledAt)) <==> t.jobs[i].command.scheduledAt == c.scheduledAt)
            && (EnqueueMember(t, c).1.Err? <==> t.jobs[i].command.scheduledAt != c.scheduledAt)
  {
    MemberReplays(s, ops, i, c);
    RunEvolves(s, ops);
    hide Inv, Linked, AllEvolve, EnqueueMember, SameWork, Run;
    var t := Run(s, ops);
    StillMember(s, t, i);
    OnlyTimeDiffers(s.jobs[i], t.jobs[i]);
  }

  lemma OnlyTimeDiffers(j: Job, j': Job)
    requires SameIdentity(j, j')
    ensures SameWork(j'.command, j.command)
  {
    var a, b := j'.command.(scheduledAt := None), j.command.(scheduledAt := None);
    assert a.queue == b.queue && a.jobType == b.jobType && a.payload == b.payload && a.settings == b.settings;
    assert a.flowKey == b.flowKey && a.affinityKey == b.affinityKey && a.key == b.key && a.maxAttempts == b.maxAttempts;
    assert a.leaseSeconds == b.leaseSeconds && a.workflow == b.workflow && a.step == b.step && a.dependsOn == b.dependsOn;
  }

  const SNOOZED_RUN: seq<Op> := SHORT_RUN[..4] + [OpSettle(1, 2, "x", DoSnooze(5), 0)]

  /** An instance: the only member of a workflow is claimed and snoozed; sending its command again is refused. */
  lemma SnoozedMemberConflicts()
    ensures ValidRun(SNOOZED_RUN) && Inv(Init({"q"}))
    ensures var t := Run(Init({"q"}), SNOOZED_RUN);
            && SNOOZED_RUN[1] == OpEnqueue(MEMBER) && Linked(t)
            && EnqueueMember(t, MEMBER) == (t, Err(Conflict("workflow_step_mismatch")))
  {
    hide Inv, Linked, Apply, Run, ValidRun, Init, CREATED, ENQUEUED, SEALED, CLAIMED, SHORT_RUN, EnqueueMember, MEMBER;
    InitInv({"q"});
    InvLinks(Init({"q"}));
    SnoozedRunIsValid();
    CreateStep();
    if Linked(CREATED) { EnqueueStep(); }
    if Linked(ENQUEUED) { SealStep(); }
    if Linked(SEALED) { ClaimStep(); }
    FiveCalls(Init({"q"}), SNOOZED_RUN, CREATED, ENQUEUED, SEALED, CLAIMED);
    InvLinks(Run(Init({"q"}), SNOOZED_RUN));
    SnoozeStep();
  }

  lemma SnoozedRunIsValid()
    ensures ValidRun(SNOOZED_RUN) && |SNOOZED_RUN| == 5 && SNOOZED_RUN[..4] == SHORT_RUN[..4] && |SHORT_RUN| == 5
    ensures SNOOZED_RUN[1] == OpEnqueue(MEMBER) && SNOOZED_RUN[4] == OpSettle(1, 2, "x", DoSnooze(5), 0)
    ensures forall k :: 0 <= k < 4 ==> SNOOZED_RUN[k] == SHORT_RUN[k]
  {
  }

  lemma SnoozeStep()
    requires Linked(CLAIMED) && Linked(Apply(CLAIMED, OpSettle(1, 2, "x", DoSnooze(5), 0)))
    ensures var t := Apply(CLAIMED, OpSettle(1, 2, "x", DoSnooze(5), 0)); EnqueueMember(t, MEMBER) == (t, Err(Conflict("workflow_step_mismatch")))
  {
    hide Linked;
  }

  // ---- new members ---------------------------------------------------------------------------

  /** The dependencies of the command, none when it names none. */
  function Parents(c: Command): seq<Id> {
    if c.dependsOn.Some? then c.dependsOn.value else []
  }

  predicate InWorkflow(s: State, w: Id, d: Id) {
    d in s.jobs && s.jobs[d].command.workflow == Some(w)
  }

  predicate LostParent(s: State, d: Id) {
    d in s.jobs && (s.jobs[d].status.Failed? || s.jobs[d].status.Cancelled?)
  }

  lemma {:induction false} ParentErrorIff(s: State, c: Command, parents: seq<Id>)
    requires c.workflow.Some?
    ensures var e := ParentError(s.jobs, c, parents);
            && (e.None? <==> forall d :: d in parents ==> InWorkflow(s, c.workflow.value, d) && !LostParent(s, d))
            && (e.Some? ==> e.value == NotFound || e.value == Conflict("dependency_terminal"))
            && (e == Some(NotFound) ==> exists d :: d in parents && !InWorkflow(s, c.workflow.value, d))
            && (e == Some(Conflict("dependency_terminal")) ==> exists d :: d in parents && LostParent(s, d))
  {
    if parents != [] {
      hide InWorkflow, LostParent;
      ParentErrorIff(s, c, parents[1..]);
      FirstParent(s, c, parents);
      assert forall d :: d in parents <==> d == parents[0] || d in parents[1..];
    }
  }

  lemma FirstParent(s: State, c: Command, parents: seq<Id>)
    requires c.workflow.Some? && parents != []
    ensures ParentError(s.jobs, c, parents) ==
      if !InWorkflow(s, c.workflow.value, parents[0]) then Some(NotFound)
      else if LostParent(s, parents[0]) then Some(Conflict("dependency_terminal"))
      else ParentError(s.jobs, c, parents[1..])
  {
  }

  predicate KeyTaken(s: State, c: Command) {
    c.key.Some? && (c.queue, c.key.value) in s.active
  }

  predicate Full(w: Workflow) {
    w.limit.Some? && w.admitted >= w.limit.value
  }

  /** A step that is not stored is admitted exactly when its queue is declared, the workflow is open and has room, every
      parent is a member of it that is not lost, and the key is free. It is then stored as sent, waits exactly for the
      parents that have not succeeded, and carries the policy of the workflow. A refused one stores nothing. */
  lemma MemberAdmittedIff(s: State, c: Command)
    requires Inv(s) && Linked(s) && ValidCommand(c) && c.workflow.Some? && c.workflow.value in s.workflows
    requires c.step.value !in s.workflows[c.workflow.value].steps
    ensures var (t, r) := EnqueueMember(s, c);
            var w, ds := s.workflows[c.workflow.value], Parents(c);
            && (r.Ok? <==> c.queue in w.queues && !w.sealed && !w.cancelRequested && !Full(w) && !KeyTaken(s, c)
                           && forall d :: d in ds ==> InWorkflow(s, c.workflow.value, d) && !LostParent(s, d))
            && (r.Ok? ==> r == Ok(Created(s.nextId, c.scheduledAt)) && StoredNew(s, t, c, w.policy)
                          && (t.jobs[s.nextId].status.Queued? <==> forall d :: d in ds ==> d in s.jobs && s.jobs[d].status.Succeeded?))
            && (r.Err? ==> t.jobs == s.jobs && t.order == s.order && t.active == s.active && t.enqueues == s.enqueues)
  {
    hide Inv, Linked, ParentError, SameMember;
    ParentErrorIff(s, c, Parents(c));
  }

  /** Every reason given for a refusal is true. */
  lemma MemberRefusals(s: State, c: Command)
    requires Inv(s) && Linked(s) && ValidCommand(c) && c.workflow.Some?
    ensures var r := EnqueueMember(s, c).1;
            if c.workflow.value !in s.workflows then r == Err(NotFound)
            else
              var w, ds := s.workflows[c.workflow.value], Parents(c);
              c.step.value !in w.steps ==>
                && (r == Err(Validation("workflow_queue_not_declared")) <==> c.queue !in w.queues)
                && (r == Err(Conflict("workflow_sealed")) <==> c.queue in w.queues && (w.sealed || w.cancelRequested))
                && (r == Err(Conflict("workflow_member_limit_exceeded")) <==> c.queue in w.queues && !w.sealed && !w.cancelRequested && Full(w))
                && (r == Err(NotFound) ==> exists d :: d in ds && !InWorkflow(s, c.workflow.value, d))
                && (r == Err(Conflict("dependency_terminal")) ==> exists d :: d in ds && LostParent(s, d))
                && (r == Err(Conflict("workflow_step_mismatch")) ==> KeyTaken(s, c))
  {
    hide Inv, Linked, ParentError, SameMember, Store, AllSucceeded, InWorkflow, LostParent, RolledBack;
    ParentErrorIff(s, c, Parents(c));
  }

  // ---- sealed workflows ----------------------------------------------------------------------

  /** A step that producers may name, and that the workflow does not hold. */
  predicate FreeStep(s: State, w: Id, st: Step)
    requires w in s.workflows
  {
    st.Public? && st !in s.workflows[w].steps
  }

  /** No call gives a sealed workflow a new step that producers may name. */
  lemma SealedTakesNoStep(s: State, op: Op, w: Id, st: Step)
    requires Inv(s) && Linked(s) && ValidOp(op) && w in s.workflows && s.workflows[w].sealed && FreeStep(s, w, st)
    ensures w in Apply(s, op).workflows && Apply(s, op).workflows[w].sealed && FreeStep(Apply(s, op), w, st)
  {
    hide Inv, Linked, Apply, ComesFrom, AllEvolve, TermsKept, EnqueueMember, Parents, StoredNew;
    var t := Apply(s, op);
    StepInv(s, op);
    StepTerms(s, op);
    KeptWorkflow(s, t, w);
    if st in t.workflows[w].steps {
      var i := t.workflows[w].steps[st];
      StepHolder(t, w, st);
      StepEvolves(s, op);
      if i in s.jobs {
        StillMember(s, t, i);
        StepNames(s, i);
      } else {
        NewJobsComeFrom(s, op, i);
        NewStepWasAdmitted(s, op, t.jobs[i], w, st);
        MemberAdmittedIff(s, op.command);
        EnqueuedJobs(s, op);
      }
    }
  }

  lemma StepHolder(s: State, w: Id, st: Step)
    requires Inv(s) && w in s.workflows && st in s.workflows[w].steps
    ensures var i := s.workflows[w].steps[st]; i in s.jobs && s.jobs[i].command.workflow == Some(w) && s.jobs[i].command.step == Some(st)
  {
    hide IdsOk, GraphOk, StatusOk, AttemptsOk, WorkflowKeysOk, ActiveOk, ParentsOk, AccountsOk;
    assert StepsOk(s.jobs, w, s.workflows[w]);
  }

  lemma NewStepWasAdmitted(s: State, op: Op, j: Job, w: Id, st: Step)
    requires ComesFrom(s, op, j) && j.command.workflow == Some(w) && j.command.step == Some(st) && st.Public?
    ensures op.OpEnqueue? && op.command.workflow == Some(w) && op.command.step == Some(st)
  {
  }

  lemma EnqueuedJobs(s: State, op: Op)
    requires Linked(s) && ValidOp(op) && op.OpEnqueue? && op.command.workflow.Some?
    ensures Apply(s, op) == EnqueueMember(s, op.command).0
  {
    hide EnqueueMember, Linked;
  }

  /** Once sealed, a workflow stays sealed through every run, says so when it is sealed again, and refuses every step of
      a producer that it does not hold. */
  lemma {:induction false} SealedForGood(s: State, ops: seq<Op>, w: Id, c: Command)
    requires Inv(s) && ValidRun(ops) && w in s.workflows && s.workflows[w].sealed
    requires ValidCommand(c) && c.workflow == Some(w) && c.queue in s.workflows[w].queues && FreeStep(s, w, c.step.value)
    ensures var t := Run(s, ops);
            && Linked(t) && w in t.workflows && t.workflows[w].sealed && FreeStep(t, w, c.step.value)
            && EnqueueMember(t, c) == (t, Err(Conflict("workflow_sealed")))
            && Lifecycle.SealWorkflow(t, w).1 == Ok(WorkflowReply("already_sealed", w, Lifecycle.SealWorkflow(t, w).0.workflows[w].status))
  {
    hide Inv, Linked, Apply, TermsKept, SameMember, ParentError, RefreshedStatus;
    var t := Run(s, ops);
    if ops != [] {
      var n := |ops| - 1;
      SealedForGood(s, ops[..n], w, c);
      SealedTakesNoStep(Run(s, ops[..n]), ops[n], w, c.step.value);
    }
    RunTerms(s, ops);
    StillDeclared(s, t, w);
    InvLinks(t);
  }

  /** One new job, as sent and never claimed, under the next identifier, listed last, answering for its key. */
  predicate StoredNew(s: State, t: State, c: Command, policy: Option<string>) {
    && s.nextId in t.jobs && t.jobs.Keys == s.jobs.Keys + {s.nextId} && (forall i :: i in s.jobs && i != s.nextId ==> t.jobs[i] == s.jobs[i])
    && (var j := t.jobs[s.nextId];
        && j.command == c && (j.status.Queued? || j.status.Blocked?) && j.policy == policy && j.parent.None?
        && j.attempt.None? && j.worker.None? && j.settled.None? && j.attempts == 0 && j.failures == 0)
    && t.order == s.order + [s.nextId] && t.known == s.known + {c.queue}
    && t.active == (if c.key.Some? then s.active[(c.queue, c.key.value) := s.nextId] else s.active)
    && t.enqueues == s.enqueues + [Enqueued(s.nextId, c, true, None)]
  }

  /** A plain enqueue creates a job exactly when its key is free; the job can be claimed at once, as far as its own
      claim time allows. A taken key names its holder and changes nothing but the log of calls. */
  lemma PlainCreatesIff(s: State, c: Command)
    requires Linked(s) && c.workflow.None?
    ensures var (t, r) := EnqueuePlain(s, c);
            && (r == Ok(Created(s.nextId, c.scheduledAt)) <==> !KeyTaken(s, c))
            && (!KeyTaken(s, c) ==> StoredNew(s, t, c, None) && t.jobs[s.nextId].status.Queued?)
            && (KeyTaken(s, c) ==>
                  var i := s.active[(c.queue, c.key.value)];
                  r == Ok(Existed(i, s.jobs[i].command.scheduledAt)) && t == s.(enqueues := s.enqueues + [Enqueued(i, c, false, s.jobs[i].parent)]))
  {
    hide Linked;
  }
}

/** The terms of a workflow are fixed when it is created: what its key then answers. */
module LifecycleTerms {
  import opened TaskTypes
  import opened Lifecycle
  import opened LifecycleInvariant
  import opened LifecycleAdd
  import opened LifecycleMoves
  import opened LifecycleComplete
  import opened LifecycleRuns
  import opened LifecycleHistory
  import opened Ordering

  predicate SameTerms(a: Workflow, b: Workflow) {
    && a.key == b.key && a.kind == b.kind && a.params == b.params && a.queues == b.queues && a.limit == b.limit && a.policy == b.policy
    && (a.sealed ==> b.sealed) && (a.cancelRequested ==> b.cancelRequested) && (b.cancelRequested ==> a.cancelRequested || b.sealed)
  }

  /** No workflow is lost or changes its terms. */
  ghost predicate TermsKept(s: State, t: State) {
    forall w :: w in s.workflows ==> w in t.workflows && SameTerms(s.workflows[w], t.workflows[w])
  }

  ghost predicate NoNewWorkflows(s: State, t: State) {
    s.workflows.Keys == t.workflows.Keys && TermsKept(s, t)
  }

  lemma {:induction false} ChildrenTerms(s: State, id: Id, policy: Option<string>, cs: seq<Child>)
    ensures NoNewWorkflows(s, AddChildren(s, id, policy, cs))
  {
    if cs != [] {
      ChildrenTerms(s, id, policy, cs[..|cs| - 1]);
    }
  }

  lemma {:induction false} ClaimTerms(s: State, ids: seq<Id>, worker: string)
    requires forall i :: i in ids ==> i in s.jobs
    ensures ClaimAll(s, ids, worker).workflows == s.workflows
  {
    if ids != [] { ClaimTerms(s, ids[..|ids| - 1], worker); }
  }

  lemma FinishTerms(s: State, id: Id, command: Settle, status: Status, outcome: Outcome, at: Option<Instant>)
    requires id in s.jobs
    requires s.jobs[id].command.workflow.Some? ==> s.jobs[id].command.workflow.value in s.workflows
    ensures NoNewWorkflows(s, Finish(s, id, command, status, outcome, at))
  {
    hide Refresh, Unblocked, Cascaded, NoNewWorkflows;
    var c := Close(s, id, command, status, outcome, at);
    SameWorkflows(s, c);
    if s.jobs[id].command.workflow.Some? && Terminal(status) {
      assert c.jobs[id].command.workflow == s.jobs[id].command.workflow;
      var moved := c.(jobs := if c.jobs[id].status.Succeeded? then Unblocked(c.jobs, id) else Cascaded(c.jobs, id));
      RefreshTerms(moved, s.jobs[id].command.workflow.value);
      SameWorkflows(s, moved);
      TermsChain(s, moved, Refresh(moved, s.jobs[id].command.workflow.value));
    }
  }

  lemma RefreshTerms(s: State, w: Id)
    requires w in s.workflows
    ensures NoNewWorkflows(s, Refresh(s, w))
  {
    hide RefreshedStatus;
  }

  lemma SameWorkflows(s: State, t: State)
    requires t.workflows == s.workflows
    ensures NoNewWorkflows(s, t)
  {
  }

  lemma SettleTerms(s: State, id: Id, attempt: Id, worker: string, action: Action, now: Instant)
    requires Linked(s)
    ensures NoNewWorkflows(s, SettleJob(s, id, attempt, worker, action, now).0)
  {
    hide Linked, Finish, PlanCompletion, TermsKept;
    TermsRefl(s);
    if ReplayOrLost(s, id, attempt, worker, SettleName(action)).None? {
      RunningWorkflow(s, id);
      match action
      case DoComplete(fs, policy) =>
        if PlanCompletion(s, id, fs, policy).Ok? {
          var u := Finish(s, id, Complete, Succeeded, OkOutcome, None);
          FinishTerms(s, id, Complete, Succeeded, OkOutcome, None);
          ChildrenTerms(u, id, s.jobs[id].policy, PlanCompletion(s, id, fs, policy).value);
          TermsChain(s, u, AddChildren(u, id, s.jobs[id].policy, PlanCompletion(s, id, fs, policy).value));
        }
      case DoFail(retryable, retryAfter) =>
        var at := now + (if retryAfter.Some? then retryAfter.value else 0) * SECOND;
        CountTerms(s, id);
        FinishTerms(CountFailure(s, id), id, Fail, Queued, RetryScheduled, Some(at));
        FinishTerms(CountFailure(s, id), id, Fail, Failed, Dead, None);
        TermsChain(s, CountFailure(s, id), Finish(CountFailure(s, id), id, Fail, Queued, RetryScheduled, Some(at)));
        TermsChain(s, CountFailure(s, id), Finish(CountFailure(s, id), id, Fail, Failed, Dead, None));
      case DoSnooze(delay) => FinishTerms(s, id, Snooze, Queued, OkOutcome, Some(now + delay * SECOND));
      case DoRelease(delay) => FinishTerms(s, id, Release, Queued, OkOutcome, Some(now + delay * SECOND));
      case DoCancelRunning => FinishTerms(s, id, CancelRunning, Cancelled, OkOutcome, None);
    }
  }

  lemma TermsRefl(s: State)
    ensures NoNewWorkflows(s, s)
  {
  }

  lemma CountTerms(s: State, id: Id)
    requires id in s.jobs
    ensures NoNewWorkflows(s, CountFailure(s, id))
  {
  }

  lemma TermsChain(s: State, t: State, u: State)
    requires NoNewWorkflows(s, t) && NoNewWorkflows(t, u)
    ensures NoNewWorkflows(s, u)
  {
  }

  lemma SealTerms(s: State, w: Id)
    ensures NoNewWorkflows(s, Lifecycle.SealWorkflow(s, w).0)
  {
    hide RefreshedStatus;
  }

  lemma CancelTerms(s: State, w: Id)
    ensures NoNewWorkflows(s, Lifecycle.CancelWorkflow(s, w).0)
  {
    hide RefreshedStatus, CancelMembers;
  }

  lemma StoreTerms(s: State, job: Job)
    ensures TermsKept(s, Store(s, job))
  {
  }

  lemma EnqueueTerms(s: State, c: Command)
    requires Linked(s) && ValidCommand(c)
    ensures TermsKept(s, Enqueue(s, c).0)
  {
    hide Linked, Store, ParentError, AllSucceeded, SameMember, TermsKept;
    TermsRefl(s);
    if c.workflow.None? {
      StoreTerms(s, NewJob(c, Queued, None, None));
      LogTerms(s, Enqueue(s, c).0);
    } else {
      LogTerms(s, Enqueue(s, c).0);
      if c.workflow.value in s.workflows {
        var w := s.workflows[c.workflow.value];
        RolledBackTerms(s, c.workflow.value, c.queue);
        StoreTerms(s, NewJob(c, Queued, None, w.policy));
        StoreTerms(s, NewJob(c, Blocked, None, w.policy));
      }
    }
  }

  lemma RolledBackTerms(s: State, w: Id, queue: string)
    requires w in s.workflows
    ensures TermsKept(s, RolledBack(s, w, queue))
  {
  }

  lemma LogTerms(s: State, t: State)
    ensures t.workflows == s.workflows ==> TermsKept(s, t)
  {
  }

  lemma CreateKeeps(s: State, r: WorkflowRequest, sorted: seq<string>)
    requires Inv(s) && Linked(s)
    ensures TermsKept(s, CreateWorkflow(s, r, sorted).0)
  {
    hide Inv, Linked;
    FreshWorkflow(s);
  }

  lemma FreshWorkflow(s: State)
    requires Inv(s)
    ensures s.nextId !in s.workflows
  {
    hide IdsOk, GraphOk, StatusOk, AttemptsOk, MembersOk, WorkflowKeysOk, ActiveOk, ParentsOk, AccountsOk;
    FreshWorkflowId(s.nextId, s.jobs, s.workflows);
  }

  lemma ClaimKeepsTerms(s: State, q: ClaimQuery, now: Instant)
    requires Linked(s)
    ensures TermsKept(s, Claim(s, q, now))
  {
    hide Linked, Eligible;
    PickedAreJobs(s, q, now);
    ClaimTerms(s, Picked(s, q, now), q.worker);
  }

  /** No call loses a workflow or changes its terms. */
  lemma StepTerms(s: State, op: Op)
    requires Inv(s) && Linked(s) && ValidOp(op)
    ensures TermsKept(s, Apply(s, op))
  {
    hide Inv, Linked, TermsKept;
    match op
    case OpEnqueue(c) => EnqueueTerms(s, c);
    case OpCreate(r) => CreateKeeps(s, r, Sort(r.queues, StringLe));
    case OpSeal(w) => SealTerms(s, w);
    case OpCancel(w) => CancelTerms(s, w);
    case OpClaim(q, now) => ClaimKeepsTerms(s, q, now);
    case OpSettle(id, attempt, worker, action, now) => SettleTerms(s, id, attempt, worker, action, now);
  }

  lemma {:induction false} RunTerms(s: State, ops: seq<Op>)
    requires Inv(s) && ValidRun(ops)
    ensures TermsKept(s, Run(s, ops))
  {
    hide Inv, Linked, Apply, TermsKept;
    TermsRefl(s);
    if ops != [] {
      var mid := Run(s, ops[..|ops| - 1]);
      RunTerms(s, ops[..|ops| - 1]);
      InvLinks(mid);
      StepTerms(mid, ops[|ops| - 1]);
      TermsFollow(s, mid, Run(s, ops));
    }
  }

  lemma TermsFollow(s: State, t: State, u: State)
    requires TermsKept(s, t) && TermsKept(t, u)
    ensures TermsKept(s, u)
  {
  }

  lemma KeyNamesWorkflow(s: State, w: Id)
    requires Inv(s) && w in s.workflows
    ensures s.workflows[w].key in s.workflowKeys && s.workflowKeys[s.workflows[w].key] == w
  {
    hide IdsOk, GraphOk, StatusOk, AttemptsOk, MembersOk, ActiveOk, ParentsOk, AccountsOk;
  }

  /** The request asks for the workflow as it was created, up to the order of its queues. */
  predicate SameRequest(r: WorkflowRequest, w: Workflow) {
    && w.kind == r.kind && w.params == r.params && multiset(w.queues) == multiset(r.queues) && w.policy == r.policy
    && w.limit == (if r.limit.Some? then r.limit else if r.policy.Some? then Some(10_000) else None)
  }

  /** Every stored queue list is in order, and a workflow that was asked to cancel is closed. */
  ghost predicate WorkflowsOk(s: State) {
    forall w :: w in s.workflows ==> WorkflowOk(s.workflows[w])
  }

  ghost predicate WorkflowOk(w: Workflow) {
    Sorted(w.queues, StringLe) && (w.cancelRequested ==> w.sealed)
  }

  lemma SameWorkflowsOk(s: State, t: State)
    requires WorkflowsOk(s) && TermsKept(s, t) && t.workflows.Keys <= s.workflows.Keys
    ensures WorkflowsOk(t)
  {
    hide Sorted, StringLe;
    forall w | w in t.workflows ensures WorkflowOk(t.workflows[w]) {
      assert WorkflowOk(s.workflows[w]) && SameTerms(s.workflows[w], t.workflows[w]);
    }
  }

  lemma CreateOk(s: State, r: WorkflowRequest)
    requires Linked(s) && WorkflowsOk(s)
    ensures WorkflowsOk(CreateWorkflow(s, r, Sort(r.queues, StringLe)).0)
  {
    hide Linked, Sorted, StringLe, TotalOrder, Preorder, Sort;
    StringOrder();
    TotalIsPreorder(StringLe);
    SortSorts(r.queues, StringLe);
  }

  lemma EnqueueWorkflows(s: State, c: Command)
    requires Linked(s) && ValidCommand(c)
    ensures Enqueue(s, c).0.workflows.Keys == s.workflows.Keys
  {
    hide Linked, ParentError, AllSucceeded, SameMember;
  }

  lemma ClaimWorkflows(s: State, q: ClaimQuery, now: Instant)
    requires Linked(s)
    ensures Claim(s, q, now).workflows == s.workflows
  {
    hide Linked, Eligible;
    PickedAreJobs(s, q, now);
    ClaimTerms(s, Picked(s, q, now), q.worker);
  }

  lemma StepWorkflowsOk(s: State, op: Op)
    requires Inv(s) && Linked(s) && ValidOp(op) && WorkflowsOk(s)
    ensures WorkflowsOk(Apply(s, op))
  {
    hide Inv, Linked, WorkflowsOk, TermsKept;
    StepTerms(s, op);
    match op
    case OpEnqueue(c) =>
      EnqueueWorkflows(s, c);
      SameWorkflowsOk(s, Apply(s, op));
    case OpCreate(r) => CreateOk(s, r);
    case OpSeal(w) =>
      SealTerms(s, w);
      SameWorkflowsOk(s, Apply(s, op));
    case OpCancel(w) =>
      CancelTerms(s, w);
      SameWorkflowsOk(s, Apply(s, op));
    case OpClaim(q, now) =>
      ClaimWorkflows(s, q, now);
      SameWorkflowsOk(s, Apply(s, op));
    case OpSettle(id, attempt, worker, action, now) =>
      SettleTerms(s, id, attempt, worker, action, now);
      SameWorkflowsOk(s, Apply(s, op));
  }

  /** Every run keeps the stored queue lists in order and the cancelled workflows closed. */
  lemma {:induction false} RunWorkflowsOk(s: State, ops: seq<Op>)
    requires Inv(s) && ValidRun(ops) && WorkflowsOk(s)
    ensures WorkflowsOk(Run(s, ops))
  {
    hide Inv, Linked, Apply, WorkflowsOk;
    if ops != [] {
      var mid := Run(s, ops[..|ops| - 1]);
      RunWorkflowsOk(s, ops[..|ops| - 1]);
      InvLinks(mid);
      StepWorkflowsOk(mid, ops[|ops| - 1]);
    }
  }

  /** In every reachable state, creating a workflow again at any later time answers with the one there is when the
      request is the same up to the order of its queues, and is refused otherwise; either way nothing changes. */
  lemma CreateIsIdempotent(queues: set<string>, before: seq<Op>, ops: seq<Op>, w: Id, r: WorkflowRequest)
    requires ValidRun(before) && ValidRun(ops) && ValidRequest(r)
    ensures Inv(Init(queues))
    ensures var s := Run(Init(queues), before);
            w in s.workflows && r.key == s.workflows[w].key ==>
              var t := Run(s, ops);
              && Linked(t) && w in t.workflows
              && CreateWorkflow(t, r, Sort(r.queues, StringLe)) ==
                   (t, if SameRequest(r, s.workflows[w]) then Ok(WorkflowReply("existed", w, t.workflows[w].status)) else Err(Conflict("workflow_mismatch")))
  {
    InitInv(queues);
    assert WorkflowsOk(Init(queues));
    hide Inv, Linked, WorkflowsOk, Run;
    RunWorkflowsOk(Init(queues), before);
    var s := Run(Init(queues), before);
    if w in s.workflows && r.key == s.workflows[w].key { CreateReplays(s, ops, w, r); }
  }

  lemma CreateReplays(s: State, ops: seq<Op>, w: Id, r: WorkflowRequest)
    requires Inv(s) && WorkflowsOk(s) && ValidRun(ops) && w in s.workflows && r.key == s.workflows[w].key && ValidRequest(r)
    ensures var t := Run(s, ops);
            && Linked(t) && w in t.workflows
            && CreateWorkflow(t, r, Sort(r.queues, StringLe)) ==
                 (t, if SameRequest(r, s.workflows[w]) then Ok(WorkflowReply("existed", w, t.workflows[w].status)) else Err(Conflict("workflow_mismatch")))
  {
    hide Inv, Linked, TermsKept, Sorted, StringLe, TotalOrder, Preorder, Sort;
    var t := Run(s, ops);
    RunTerms(s, ops);
    InvLinks(t);
    KeptWorkflow(s, t, w);
    KeyNamesWorkflow(t, w);
    SameQueues(s.workflows[w].queues, r.queues);
  }

  lemma KeptWorkflow(s: State, t: State, w: Id)
    requires TermsKept(s, t) && w in s.workflows
    ensures w in t.workflows && SameTerms(s.workflows[w], t.workflows[w])
  {
  }

  lemma SameQueues(stored: seq<string>, queues: seq<string>)
    requires Sorted(stored, StringLe)
    ensures stored == Sort(queues, StringLe) <==> multiset(stored) == multiset(queues)
  {
    hide Sorted, StringLe, TotalOrder, Preorder, Sort;
    StringOrder();
    TotalIsPreorder(StringLe);
    SortSorts(queues, StringLe);
    if multiset(stored) == multiset(queues) { SortedUnique(stored, Sort(queues, StringLe), StringLe); }
  }

  /** A request is invalid exactly when it names no queue, more than 32 or one twice, or a limit outside 1 to a million. */
  lemma InvalidRequests(s: State, r: WorkflowRequest)
    requires Linked(s)
    ensures var (t, reply) := CreateWorkflow(s, r, Sort(r.queues, StringLe));
            && (reply == Err(Validation("workflow")) <==>
                  || |r.queues| < 1 || |r.queues| > 32 || (exists i, j :: 0 <= i < j < |r.queues| && r.queues[i] == r.queues[j])
                  || (r.limit.Some? && (r.limit.value < 1 || r.limit.value > 1_000_000)))
            && (reply.Err? ==> t == s)
  {
    hide Linked, Sort;
  }

  /** A new workflow declares known queues only, in order, each once, and starts empty and running. */
  lemma CreatedAsAsked(s: State, r: WorkflowRequest)
    requires Inv(s) && Linked(s) && ValidRequest(r) && r.key !in s.workflowKeys
    ensures var (t, reply) := CreateWorkflow(s, r, Sort(r.queues, StringLe));
            && (reply.Ok? <==> forall q :: q in r.queues ==> q in s.known)
            && (reply.Ok? ==>
                  && reply.value.id !in s.workflows && reply.value.id in t.workflows
                  && SameRequest(r, t.workflows[reply.value.id]) && Sorted(t.workflows[reply.value.id].queues, StringLe)
                  && t.workflows[reply.value.id].steps == map[] && t.workflows[reply.value.id].status.WfRunning?)
            && (reply.Err? ==> t == s)
  {
    hide Inv, Linked, Sorted, StringLe, TotalOrder, Preorder, Sort;
    FreshWorkflow(s);
    StringOrder();
    TotalIsPreorder(StringLe);
    SortSorts(r.queues, StringLe);
    SameBagElements(r.queues, Sort(r.queues, StringLe));
  }
}

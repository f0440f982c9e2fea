/** Runs of the queue engine under one continuation policy: producers enqueue the policy's roots, workers pass
    follow-ups through the registry and the enforcer. Everything else is arbitrary. */
module ContinuationRuns {
  import opened TaskTypes
  import opened Lifecycle
  import opened LifecycleInvariant
  import opened LifecycleAdd
  import opened LifecycleMoves
  import opened LifecycleSettle
  import opened LifecycleComplete
  import opened LifecycleRuns
  import opened LifecycleHistory
  import opened LifecycleStatus
  import opened LifecycleTerms
  import opened LifecycleOrigins
  import opened Ordering
  import Registry
  import C = Continuations

  /** What a follow-up of this parent is normalized and enforced to. `d` is the worker's registry at that time. */
  function Processed(d: Registry.Catalog, accepts: Registry.Payloads, parent: Registry.Task, fs: seq<Followup>, policy: Option<C.Policy>)
    : Result<seq<Followup>, Error>
  {
    match Registry.Normalize(d, accepts, parent, fs)
    case Err(e) => Err(e)
    case Ok(ns) => C.Enforce(parent, ns, policy)
  }

  predicate UnderPolicy(j: Job, hash: string) {
    j.policy == Some(hash)
  }

  /** What one call may do: `p` is the policy with hash `hash`. A producer adds members to its workflows at the
      roots only, a workflow that carries it declares its queues, and a completion brings what the worker processed
      for the job's own task. */
  ghost predicate Disciplined(s: State, op: Op, hash: string, p: C.Policy) {
    match op
    case OpEnqueue(c) =>
      c.workflow.Some? && c.workflow.value in s.workflows && s.workflows[c.workflow.value].policy == Some(hash) ==>
        (c.queue, c.jobType) in p.manifest.roots
    case OpCreate(r) => r.policy == Some(hash) ==> forall q :: q in p.queues ==> q in r.queues
    case OpSettle(id, _, _, DoComplete(fs, policy), _) =>
      policy == Some(hash) && id in s.jobs ==> exists d, accepts, parent, raw :: FromWorker(s.jobs[id], fs, p, d, accepts, parent, raw)
    case _ => true
  }

  ghost predicate FromWorker(j: Job, fs: seq<Followup>, p: C.Policy, d: Registry.Catalog, accepts: Registry.Payloads,
                             parent: Registry.Task, raw: seq<Followup>) {
    && C.Accepted(d, p) && C.Runnable(d, (j.command.queue, j.command.jobType)) && parent == d.lookup[j.command.jobType]
    && Processed(d, accepts, parent, raw, Some(p)) == Ok(fs)
  }

  predicate JobInside(j: Job, hash: string, p: C.Policy) {
    UnderPolicy(j, hash) ==> C.InManifest(p.manifest, (j.command.queue, j.command.jobType))
  }

  predicate WorkflowDeclares(w: Workflow, hash: string, p: C.Policy) {
    w.policy == Some(hash) ==> forall q :: q in p.queues ==> q in w.queues
  }

  /** Every job under the policy is a node of its manifest, and every workflow under it declares its queues. */
  ghost predicate Inside(s: State, hash: string, p: C.Policy) {
    && (forall i :: i in s.jobs ==> JobInside(s.jobs[i], hash, p))
    && (forall w :: w in s.workflows ==> WorkflowDeclares(s.workflows[w], hash, p))
  }

  lemma CreateTerms(s: State, r: WorkflowRequest, hash: string, p: C.Policy)
    requires Inv(s) && Linked(s) && Disciplined(s, OpCreate(r), hash, p) && Inside(s, hash, p)
    ensures Inside(Lifecycle.CreateWorkflow(s, r, Sort(r.queues, StringLe)).0, hash, p)
  {
    hide Inv, Linked, JobInside, Sort, StringLe, TotalOrder, Preorder, Sorted;
    StringOrder();
    TotalIsPreorder(StringLe);
    SortSorts(r.queues, StringLe);
    SameBagElements(r.queues, Sort(r.queues, StringLe));
  }

  // ---- new jobs ------------------------------------------------------------------------------

  /** Old jobs keep their node and policy; `t` has no new ones. */
  lemma NoNewJobs(s: State, t: State, hash: string, p: C.Policy)
    requires Inside(s, hash, p) && AllEvolve(s, t) && NoNewWorkflows(s, t) && t.jobs.Keys == s.jobs.Keys
    ensures Inside(t, hash, p)
  {
    hide C.InManifest;
    forall i | i in t.jobs ensures JobInside(t.jobs[i], hash, p) {
      assert Evolves(s.nextId, s.jobs[i], t.jobs[i]) && JobInside(s.jobs[i], hash, p);
    }
    forall w | w in t.workflows ensures WorkflowDeclares(t.workflows[w], hash, p) {
      assert SameTerms(s.workflows[w], t.workflows[w]) && WorkflowDeclares(s.workflows[w], hash, p);
    }
  }

  /** Storing one more job. */
  lemma StoreInside(s: State, job: Job, hash: string, p: C.Policy)
    requires Inside(s, hash, p) && JobInside(job, hash, p)
    ensures Inside(Store(s, job), hash, p)
  {
    hide C.InManifest;
    var t := Store(s, job);
    forall w | w in t.workflows ensures WorkflowDeclares(t.workflows[w], hash, p) {
      assert WorkflowDeclares(s.workflows[w], hash, p);
    }
    forall i | i in t.jobs ensures JobInside(t.jobs[i], hash, p) {
      if i != s.nextId { assert JobInside(s.jobs[i], hash, p); }
    }
  }

  lemma RolledBackInside(s: State, w: Id, queue: string, hash: string, p: C.Policy)
    requires Inside(s, hash, p) && w in s.workflows
    ensures Inside(RolledBack(s, w, queue), hash, p)
  {
    hide JobInside;
    assert WorkflowDeclares(s.workflows[w], hash, p);
  }

  lemma SameInside(s: State, t: State, hash: string, p: C.Policy)
    requires Inside(s, hash, p) && t.jobs == s.jobs && t.workflows == s.workflows
    ensures Inside(t, hash, p)
  {
    hide JobInside, WorkflowDeclares;
  }

  lemma EnqueueInside(s: State, c: Command, hash: string, p: C.Policy)
    requires Linked(s) && ValidCommand(c) && Disciplined(s, OpEnqueue(c), hash, p) && Inside(s, hash, p)
    ensures Inside(Enqueue(s, c).0, hash, p)
  {
    hide Linked, ParentError, AllSucceeded, SameMember, Inside, Store;
    var t := Enqueue(s, c).0;
    if t.jobs == s.jobs && t.workflows == s.workflows {
      SameInside(s, t, hash, p);
    } else if c.workflow.None? {
      StoreInside(s, NewJob(c, Queued, None, None), hash, p);
    } else {
      var w := s.workflows[c.workflow.value];
      assert w.policy == Some(hash) ==> C.InManifest(p.manifest, (c.queue, c.jobType));
      RolledBackInside(s, c.workflow.value, c.queue, hash, p);
      StoreInside(s, NewJob(c, Queued, None, w.policy), hash, p);
      StoreInside(s, NewJob(c, Blocked, None, w.policy), hash, p);
    }
  }

  /** The worker resolved the job's own task, and whatever it let through lies inside the policy. */
  lemma WorkerStaysInside(s: State, id: Id, fs: seq<Followup>, hash: string, p: C.Policy, f: Followup)
    requires id in s.jobs && f in fs && f.member
    requires exists d, accepts, parent, raw :: FromWorker(s.jobs[id], fs, p, d, accepts, parent, raw)
    ensures var c := ChildCommand(s.jobs[id].command, id, f); C.InManifest(p.manifest, (c.queue, c.jobType)) && c.queue in p.queues
  {
    var d, accepts, parent, raw :| FromWorker(s.jobs[id], fs, p, d, accepts, parent, raw);
    EnforcedIsInput(d, accepts, parent, raw, p, fs);
    hide C.Accepted, C.InManifest;
    C.EnforcedStaysInside(d, p, parent, fs, f);
    assert Registry.QueueOf(f, parent) == ChildQueue(s.jobs[id].command, f);
  }

  lemma EnforcedIsInput(d: Registry.Catalog, accepts: Registry.Payloads, parent: Registry.Task, raw: seq<Followup>, p: C.Policy, fs: seq<Followup>)
    requires Processed(d, accepts, parent, raw, Some(p)) == Ok(fs)
    ensures C.Enforce(parent, fs, Some(p)) == Ok(fs)
  {
    hide Registry.Normalize;
  }

  lemma FollowupInside(s: State, op: Op, hash: string, p: C.Policy, k: nat)
    requires op.OpSettle? && op.action.DoComplete? && Disciplined(s, op, hash, p) && k < |op.action.followups|
    requires op.job in s.jobs && s.jobs[op.job].policy == op.action.policy
    ensures JobInside(FollowupJob(s, op.job, op.action.followups[k]), hash, p)
  {
    hide C.InManifest, FromWorker;
    if UnderPolicy(FollowupJob(s, op.job, op.action.followups[k]), hash) {
      WorkerStaysInside(s, op.job, op.action.followups, hash, p, op.action.followups[k]);
    }
  }

  lemma CompleteInside(s: State, id: Id, attempt: Id, worker: string, fs: seq<Followup>, policy: Option<string>, now: Instant,
                       hash: string, p: C.Policy)
    requires Inv(s) && Linked(s) && Inside(s, hash, p)
    requires Disciplined(s, OpSettle(id, attempt, worker, DoComplete(fs, policy), now), hash, p)
    ensures Inside(SettleJob(s, id, attempt, worker, DoComplete(fs, policy), now).0, hash, p)
  {
    hide Inv, Linked, AllEvolve, NoNewWorkflows, TermsKept, Disciplined, JobInside, FollowupJob, WorkflowDeclares;
    var op := OpSettle(id, attempt, worker, DoComplete(fs, policy), now);
    var (t, r) := SettleJob(s, id, attempt, worker, DoComplete(fs, policy), now);
    CompletionDelivers(s, id, attempt, worker, fs, policy, now);
    StepEvolves(s, op);
    SettleTerms(s, id, attempt, worker, DoComplete(fs, policy), now);
    WorkflowsInside(s, t, hash, p);
    if Accepted(r) {
      AcceptedPolicy(s, id, attempt, worker, fs, policy, now);
      StepInv(s, op);
      JobsListed(s);
      JobsListed(t);
      forall i | i in t.jobs ensures JobInside(t.jobs[i], hash, p) {
        if i in s.order {
          OldJobInside(s, t, i, hash, p);
        } else {
          var k :| 0 <= k < |fs| && i == s.nextId + k;
          assert StoredAs(t, s.nextId + k, FollowupJob(s, id, fs[k]));
          FollowupInside(s, op, hash, p, k);
        }
      }
    }
  }

  lemma OldJobInside(s: State, t: State, i: Id, hash: string, p: C.Policy)
    requires Inside(s, hash, p) && AllEvolve(s, t) && i in s.jobs
    ensures i in t.jobs && JobInside(t.jobs[i], hash, p)
  {
    hide C.InManifest;
    assert Evolves(s.nextId, s.jobs[i], t.jobs[i]) && JobInside(s.jobs[i], hash, p);
  }

  lemma WorkflowsInside(s: State, t: State, hash: string, p: C.Policy)
    requires Inside(s, hash, p) && NoNewWorkflows(s, t)
    ensures forall w :: w in t.workflows ==> WorkflowDeclares(t.workflows[w], hash, p)
  {
    hide C.InManifest;
    forall w | w in t.workflows ensures WorkflowDeclares(t.workflows[w], hash, p) {
      assert SameTerms(s.workflows[w], t.workflows[w]) && WorkflowDeclares(s.workflows[w], hash, p);
    }
  }

  lemma AcceptedPolicy(s: State, id: Id, attempt: Id, worker: string, fs: seq<Followup>, policy: Option<string>, now: Instant)
    requires Linked(s) && Accepted(SettleJob(s, id, attempt, worker, DoComplete(fs, policy), now).1)
    ensures id in s.jobs && s.jobs[id].policy == policy
  {
    hide Linked, Plan, Completed;
  }

  /** One call of a disciplined run stays inside the policy. */
  lemma StepInside(s: State, op: Op, hash: string, p: C.Policy)
    requires Inv(s) && Linked(s) && ValidOp(op) && Disciplined(s, op, hash, p) && Inside(s, hash, p)
    ensures Inside(Apply(s, op), hash, p)
  {
    hide Inv, Linked, AllEvolve, NoNewWorkflows, Inside, Disciplined;
    StepEvolves(s, op);
    match op
    case OpEnqueue(c) => EnqueueInside(s, c, hash, p);
    case OpCreate(r) => CreateTerms(s, r, hash, p);
    case OpSeal(w) =>
      SealTerms(s, w);
      NoNewJobs(s, Apply(s, op), hash, p);
    case OpCancel(w) =>
      CancelTerms(s, w);
      NoNewJobs(s, Apply(s, op), hash, p);
    case OpClaim(q, now) =>
      ClaimKeeps(s, q, now);
      NoNewJobs(s, Apply(s, op), hash, p);
    case OpSettle(id, attempt, worker, action, now) =>
      if action.DoComplete? {
        CompleteInside(s, id, attempt, worker, action.followups, action.policy, now, hash, p);
      } else {
        SettleTerms(s, id, attempt, worker, action, now);
        OtherSettleJobs(s, id, attempt, worker, action, now);
        NoNewJobs(s, Apply(s, op), hash, p);
      }
  }

  /** A run in which every call is disciplined in the state it meets. */
  ghost predicate DisciplinedRun(trace: seq<State>, ops: seq<Op>, hash: string, p: C.Policy) {
    && |trace| == |ops| + 1
    && (forall i :: 0 <= i < |ops| ==>
          Linked(trace[i]) && ValidOp(ops[i]) && Disciplined(trace[i], ops[i], hash, p) && trace[i + 1] == Apply(trace[i], ops[i]))
  }

  /** However long the chain of follow-ups, every job that carries the policy is a node of its manifest. */
  lemma {:induction false} RunStaysInside(trace: seq<State>, ops: seq<Op>, hash: string, p: C.Policy, n: nat)
    requires DisciplinedRun(trace, ops, hash, p) && n < |trace| && Inv(trace[0]) && Inside(trace[0], hash, p)
    ensures Inv(trace[n]) && Inside(trace[n], hash, p)
  {
    hide Inv, Inside, Disciplined, Apply, Linked;
    if n > 0 {
      RunStaysInside(trace, ops, hash, p, n - 1);
      assert trace[n - 1 + 1] == Apply(trace[n - 1], ops[n - 1]);
      StepInv(trace[n - 1], ops[n - 1]);
      StepInside(trace[n - 1], ops[n - 1], hash, p);
    }
  }

  lemma EmptyIsInside(queues: set<string>, hash: string, p: C.Policy)
    ensures Inside(Init(queues), hash, p)
  {
  }

  /** The same from an empty engine. */
  lemma RunFromEmptyStaysInside(queues: set<string>, trace: seq<State>, ops: seq<Op>, hash: string, p: C.Policy, n: nat)
    requires DisciplinedRun(trace, ops, hash, p) && n < |trace| && trace[0] == Init(queues)
    ensures forall i :: i in trace[n].jobs && trace[n].jobs[i].policy == Some(hash) ==>
      C.InManifest(p.manifest, (trace[n].jobs[i].command.queue, trace[n].jobs[i].command.jobType))
  {
    InitInv(queues);
    EmptyIsInside(queues, hash, p);
    hide Inv, C.InManifest, DisciplinedRun;
    RunStaysInside(trace, ops, hash, p, n);
    forall i | i in trace[n].jobs && trace[n].jobs[i].policy == Some(hash)
      ensures C.InManifest(p.manifest, (trace[n].jobs[i].command.queue, trace[n].jobs[i].command.jobType))
    {
      assert JobInside(trace[n].jobs[i], hash, p);
    }
  }

  // ---- the queue check never fires -----------------------------------------------------------

  const UNDECLARED := Validation("continuation_queue_undeclared")

  lemma {:induction false} PlanDeclared(s: State, id: Id, fs: seq<Followup>)
    requires Linked(s) && id in s.jobs && forall f :: f in fs ==> PlanOne(s, id, f) != Err(UNDECLARED)
    ensures Plan(s, id, fs) != Err(UNDECLARED)
  {
    hide Linked, PlanOne;
    if fs != [] { PlanDeclared(s, id, fs[..|fs| - 1]); }
  }

  /** In a disciplined run no completion under the policy is refused for an undeclared queue. */
  lemma NeverUndeclared(s: State, id: Id, attempt: Id, worker: string, fs: seq<Followup>, now: Instant, hash: string, p: C.Policy)
    requires Inv(s) && Linked(s) && Inside(s, hash, p)
    requires Disciplined(s, OpSettle(id, attempt, worker, DoComplete(fs, Some(hash)), now), hash, p)
    ensures SettleJob(s, id, attempt, worker, DoComplete(fs, Some(hash)), now).1 != Err(UNDECLARED)
  {
    hide Inv, Plan, Completed, FromWorker, PlanOne;
    if id in s.jobs && s.jobs[id].policy == Some(hash) && s.jobs[id].command.workflow.Some? {
      PolicyOf(s, id);
      var w := s.jobs[id].command.workflow.value;
      assert WorkflowDeclares(s.workflows[w], hash, p);
      forall f | f in fs ensures PlanOne(s, id, f) != Err(UNDECLARED) {
        if f.member { WorkerStaysInside(s, id, fs, hash, p, f); }
        Declared(s, id, f);
      }
      PlanDeclared(s, id, fs);
    } else if id in s.jobs {
      forall f | f in fs && !f.member ensures PlanOne(s, id, f) != Err(UNDECLARED) { Declared(s, id, f); }
      if forall f :: f in fs ==> !f.member { PlanDeclared(s, id, fs); }
    }
  }

  lemma Declared(s: State, id: Id, f: Followup)
    requires Linked(s) && id in s.jobs
    requires f.member && s.jobs[id].command.workflow.Some? ==>
      ChildQueue(s.jobs[id].command, f) in s.workflows[s.jobs[id].command.workflow.value].queues
    ensures PlanOne(s, id, f) != Err(UNDECLARED)
  {
  }
}

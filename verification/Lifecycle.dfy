/** The queue engine's operations as functions on its whole state.
    Each operation of the client class is proved equal to one of these. */
module Lifecycle {
  import opened TaskTypes

  datatype State = State(
    nextId: Id,
    known: set<string>,
    jobs: map<Id, Job>,
    order: seq<Id>,
    active: map<(string, Key), Id>,
    workflows: map<Id, Workflow>,
    workflowKeys: map<string, Id>,
    enqueues: seq<Enqueued>,
    settlements: seq<Settlement>)

  function Init(queues: set<string>): State {
    State(0, queues, map[], [], map[], map[], map[], [], [])
  }

  /** Every reference resolves. */
  ghost predicate Linked(s: State) {
    && (forall i :: i in s.order ==> i in s.jobs)
    && (forall k :: k in s.active ==> s.active[k] in s.jobs)
    && (forall i :: i in s.jobs && s.jobs[i].command.workflow.Some? ==> s.jobs[i].command.workflow.value in s.workflows)
    && (forall w, st :: w in s.workflows && st in s.workflows[w].steps ==> s.workflows[w].steps[st] in s.jobs)
    && (forall k :: k in s.workflowKeys ==> s.workflowKeys[k] in s.workflows)
  }

  // ---- enqueue -----------------------------------------------------------------------------

  function NewJob(command: Command, status: Status, parent: Option<Id>, policy: Option<string>): Job {
    Job(command, status, None, None, 0, 0, None, parent, policy)
  }

  function Log(s: State, id: Id, command: Command, created: bool, parent: Option<Id>): State {
    s.(enqueues := s.enqueues + [Enqueued(id, command, created, parent)])
  }

  /** Store a job under a fresh id, list it, claim its key and its workflow step. */
  function AddJob(s: State, job: Job): State {
    var id, c := s.nextId, job.command;
    s.(nextId := id + 1,
       jobs := s.jobs[id := job],
       order := s.order + [id],
       active := if c.key.Some? then s.active[(c.queue, c.key.value) := id] else s.active,
       workflows :=
         if c.workflow.Some? && c.step.Some? && c.workflow.value in s.workflows then
           var w := s.workflows[c.workflow.value];
           s.workflows[c.workflow.value := w.(steps := w.steps[c.step.value := id], admitted := w.admitted + 1)]
         else s.workflows)
  }

  /** A producer's new job: its queue becomes known and the enqueue is recorded. */
  function Store(s: State, job: Job): State {
    Log(AddJob(s, job).(known := s.known + {job.command.queue}), s.nextId, job.command, true, job.parent)
  }

  function EnqueuePlain(s: State, c: Command): (State, Result<EnqueueReply, Error>)
    requires Linked(s)
  {
    if c.key.Some? && (c.queue, c.key.value) in s.active then
      var id := s.active[(c.queue, c.key.value)];
      (Log(s, id, c, false, s.jobs[id].parent), Ok(Existed(id, s.jobs[id].command.scheduledAt)))
    else
      (Store(s, NewJob(c, Queued, None, None)), Ok(Created(s.nextId, c.scheduledAt)))
  }

  /** The first parent that makes a member refused, in the order the command lists them. */
  function ParentError(jobs: map<Id, Job>, c: Command, parents: seq<Id>): Option<Error> {
    if parents == [] then None
    else if parents[0] !in jobs || jobs[parents[0]].command.workflow != c.workflow then Some(NotFound)
    else if jobs[parents[0]].status.Failed? || jobs[parents[0]].status.Cancelled? then
      Some(Conflict("dependency_terminal"))
    else ParentError(jobs, c, parents[1..])
  }

  predicate AllSucceeded(jobs: map<Id, Job>, ids: seq<Id>) {
    forall d :: d in ids ==> d in jobs && jobs[d].status.Succeeded?
  }

  /** The member is stored and removed again; the id, the queue name and the admission stay spent. */
  function RolledBack(s: State, w: Id, queue: string): State
    requires w in s.workflows
  {
    s.(nextId := s.nextId + 1, known := s.known + {queue},
       workflows := s.workflows[w := s.workflows[w].(admitted := s.workflows[w].admitted + 1)])
  }

  function EnqueueMember(s: State, c: Command): (State, Result<EnqueueReply, Error>)
    requires c.workflow.Some? && c.step.Some?
    requires Linked(s)
  {
    if c.workflow.value !in s.workflows then (s, Err(NotFound))
    else
      var w := s.workflows[c.workflow.value];
      var parents := if c.dependsOn.Some? then c.dependsOn.value else [];
      if c.queue !in w.queues then (s, Err(Validation("workflow_queue_not_declared")))
      else if c.step.value in w.steps then
        var id := w.steps[c.step.value];
        if !SameMember(s.jobs[id].command, c) then (s, Err(Conflict("workflow_step_mismatch")))
        else (Log(s, id, c, false, s.jobs[id].parent), Ok(Existed(id, s.jobs[id].command.scheduledAt)))
      else if w.sealed || w.cancelRequested then (s, Err(Conflict("workflow_sealed")))
      else if w.limit.Some? && w.admitted >= w.limit.value then
        (s, Err(Conflict("workflow_member_limit_exceeded")))
      else if ParentError(s.jobs, c, parents).Some? then (s, Err(ParentError(s.jobs, c, parents).value))
      else if c.key.Some? && (c.queue, c.key.value) in s.active then
        (RolledBack(s, c.workflow.value, c.queue), Err(Conflict("workflow_step_mismatch")))
      else
        var status := if AllSucceeded(s.jobs, parents) then Queued else Blocked;
        (Store(s, NewJob(c, status, None, w.policy)), Ok(Created(s.nextId, c.scheduledAt)))
  }

  // ---- workflows ---------------------------------------------------------------------------

  predicate SomeMember(jobs: map<Id, Job>, w: Workflow, status: Status) {
    exists st :: st in w.steps && w.steps[st] in jobs && jobs[w.steps[st]].status == status
  }

  predicate EveryMember(jobs: map<Id, Job>, w: Workflow, status: Status) {
    forall st :: st in w.steps ==> w.steps[st] in jobs && jobs[w.steps[st]].status == status
  }

  /** The status a refresh stores. */
  function RefreshedStatus(jobs: map<Id, Job>, w: Workflow): WorkflowStatus {
    if !w.sealed then w.status
    else if w.cancelRequested then (if SomeMember(jobs, w, Running) then w.status else WfCancelled)
    else if SomeMember(jobs, w, Failed) then WfFailed
    else if SomeMember(jobs, w, Cancelled) then WfCancelled
    else if EveryMember(jobs, w, Succeeded) then WfSucceeded
    else w.status
  }

  function Refresh(s: State, id: Id): State
    requires id in s.workflows
  {
    s.(workflows := s.workflows[id := s.workflows[id].(status := RefreshedStatus(s.jobs, s.workflows[id]))])
  }

  datatype WorkflowReply = WorkflowReply(outcome: string, id: Id, status: WorkflowStatus)

  const DEFAULT_MEMBER_LIMIT := 10_000
  const MAX_MEMBER_LIMIT := 1_000_000
  const MAX_DECLARED_QUEUES := 32

  datatype WorkflowRequest = WorkflowRequest(
    key: string, kind: WorkflowKind, params: string, queues: seq<string>, limit: Option<int>, policy: Option<string>)

  predicate ValidRequest(r: WorkflowRequest) {
    && 1 <= |r.queues| <= MAX_DECLARED_QUEUES && Distinct(r.queues)
    && (r.limit.Some? ==> 1 <= r.limit.value <= MAX_MEMBER_LIMIT)
  }

  /** A policy without an explicit limit gets the default one. */
  function MemberLimit(r: WorkflowRequest): Option<int> {
    if r.limit.None? && r.policy.Some? then Some(DEFAULT_MEMBER_LIMIT) else r.limit
  }

  /** `sorted` is the request's queue list in order; the store keeps only that. */
  function CreateWorkflow(s: State, r: WorkflowRequest, sorted: seq<string>): (State, Result<WorkflowReply, Error>)
    requires Linked(s)
  {
    if !ValidRequest(r) then (s, Err(Validation("workflow")))
    else if r.key in s.workflowKeys then
      var w := s.workflows[s.workflowKeys[r.key]];
      if w.kind != r.kind || w.params != r.params || w.queues != sorted || w.limit != MemberLimit(r) || w.policy != r.policy
      then (s, Err(Conflict("workflow_mismatch")))
      else (s, Ok(WorkflowReply("existed", s.workflowKeys[r.key], w.status)))
    else if exists q :: q in sorted && q !in s.known then (s, Err(NotFound))
    else
      var w := Workflow(r.key, r.kind, r.params, sorted, false, false, WfRunning, map[], MemberLimit(r), 0, r.policy);
      (s.(nextId := s.nextId + 1, workflows := s.workflows[s.nextId := w], workflowKeys := s.workflowKeys[r.key := s.nextId]),
       Ok(WorkflowReply("created", s.nextId, WfRunning)))
  }

  function SealWorkflow(s: State, id: Id): (State, Result<WorkflowReply, Error>) {
    if id !in s.workflows then (s, Err(NotFound))
    else
      var w := s.workflows[id];
      var s1 := Refresh(s.(workflows := s.workflows[id := w.(sealed := true)]), id);
      (s1, Ok(WorkflowReply(if w.sealed then "already_sealed" else "sealed", id, s1.workflows[id].status)))
  }

  predicate Waiting(status: Status) {
    status.Blocked? || status.Queued?
  }

  /** Every waiting member of the workflow becomes CANCELLED. */
  function CancelMembers(jobs: map<Id, Job>, id: Id): map<Id, Job> {
    map i | i in jobs ::
      if jobs[i].command.workflow == Some(id) && Waiting(jobs[i].status) then jobs[i].(status := Cancelled) else jobs[i]
  }

  function CancelWorkflow(s: State, id: Id): (State, Result<WorkflowReply, Error>) {
    if id !in s.workflows then (s, Err(NotFound))
    else
      var w := s.workflows[id];
      if !w.status.WfRunning? then (s, Ok(WorkflowReply("already_terminal", id, w.status)))
      else if w.cancelRequested then (s, Ok(WorkflowReply("already_requested", id, w.status)))
      else
        var s1 := s.(workflows := s.workflows[id := w.(cancelRequested := true, sealed := true)],
                     jobs := CancelMembers(s.jobs, id));
        var s2 := Refresh(s1, id);
        (s2, Ok(WorkflowReply("cancel_requested", id, s2.workflows[id].status)))
  }

  // ---- claim -------------------------------------------------------------------------------

  datatype ClaimQuery = ClaimQuery(
    queue: string, worker: string, batch: int, jobTypes: Option<seq<string>>, lease: Option<int>,
    affinity: Option<string>, job: Option<Id>, hashes: Option<seq<string>>)

  datatype Claimed = Claimed(job: Id, attempt: Id, attempts: nat, failures: nat, leaseSeconds: int, leaseExpires: Instant)

  datatype ClaimReply = UnknownQueue | Empty | ClaimedJobs(jobs: seq<Claimed>)

  const MAX_POLICY_HASHES := 32

  predicate Eligible(job: Job, id: Id, q: ClaimQuery, now: Instant) {
    var c := job.command;
    && job.status.Queued? && c.queue == q.queue
    && (q.job.Some? ==> id == q.job.value)
    && (q.jobTypes.Some? ==> c.jobType in q.jobTypes.value)
    && (q.affinity.Some? ==> c.affinityKey == q.affinity)
    && (job.policy.Some? ==> q.hashes.Some? && job.policy.value in q.hashes.value)
    && (c.scheduledAt.Some? ==> c.scheduledAt.value <= now)
  }

  /** The eligible jobs among `ids`, in the same order. */
  function EligibleJobs(jobs: map<Id, Job>, ids: seq<Id>, q: ClaimQuery, now: Instant): seq<Id> {
    if ids == [] then []
    else
      var last := ids[|ids| - 1];
      EligibleJobs(jobs, ids[..|ids| - 1], q, now)
      + if last in jobs && Eligible(jobs[last], last, q, now) then [last] else []
  }

  /** At least one job is taken however small the batch, because the size is tested after taking. */
  function BatchSize(q: ClaimQuery): nat {
    if q.batch < 1 then 1 else q.batch
  }

  function Picked(s: State, q: ClaimQuery, now: Instant): seq<Id> {
    var all := EligibleJobs(s.jobs, s.order, q, now);
    if |all| <= BatchSize(q) then all else all[..BatchSize(q)]
  }

  function ClaimOne(s: State, id: Id, worker: string): State
    requires id in s.jobs
  {
    var j := s.jobs[id];
    s.(nextId := s.nextId + 1,
       jobs := s.jobs[id := j.(status := Running, attempt := Some(s.nextId), worker := Some(worker),
                               attempts := j.attempts + 1, settled := None)])
  }

  function ClaimAll(s: State, ids: seq<Id>, worker: string): (r: State)
    requires forall i :: i in ids ==> i in s.jobs
    ensures r.jobs.Keys == s.jobs.Keys
  {
    if ids == [] then s
    else ClaimOne(ClaimAll(s, ids[..|ids| - 1], worker), ids[|ids| - 1], worker)
  }

  function OrElse(a: Option<int>, b: int): int {
    if a.Some? && a.value != 0 then a.value else b
  }

  function LeaseSeconds(q: ClaimQuery, c: Command): int {
    OrElse(q.lease, OrElse(c.leaseSeconds, 60))
  }

  function ClaimReceipt(s: State, id: Id, q: ClaimQuery, now: Instant): Claimed
    requires id in s.jobs && s.jobs[id].attempt.Some?
  {
    var j := s.jobs[id];
    var d := LeaseSeconds(q, j.command);
    Claimed(id, j.attempt.value, j.attempts, j.failures, d, now + d * SECOND)
  }

  predicate ValidHashes(q: ClaimQuery) {
    q.hashes.Some? ==> |q.hashes.value| <= MAX_POLICY_HASHES && Distinct(q.hashes.value)
  }

  function Claim(s: State, q: ClaimQuery, now: Instant): State
    requires Linked(s)
  {
    if q.queue !in s.known || !ValidHashes(q) then s
    else
      PickedAreJobs(s, q, now);
      ClaimAll(s, Picked(s, q, now), q.worker)
  }

  lemma PickedAreJobs(s: State, q: ClaimQuery, now: Instant)
    ensures forall i :: i in Picked(s, q, now) ==> i in s.jobs && i in s.order && Eligible(s.jobs[i], i, q, now)
  {
    EligibleFacts(s.jobs, s.order, q, now);
  }

  lemma EligibleFacts(jobs: map<Id, Job>, ids: seq<Id>, q: ClaimQuery, now: Instant)
    ensures forall i :: i in EligibleJobs(jobs, ids, q, now) <==> i in ids && i in jobs && Eligible(jobs[i], i, q, now)
  {
    if ids != [] {
      EligibleFacts(jobs, ids[..|ids| - 1], q, now);
      assert ids == ids[..|ids| - 1] + [ids[|ids| - 1]];
    }
  }

  // ---- settlement --------------------------------------------------------------------------

  /** The answer of the fence, or None when the attempt is the live one. */
  function ReplayOrLost(s: State, id: Id, attempt: Id, worker: string, command: Settle): Option<Reply> {
    if id !in s.jobs || s.jobs[id].attempt != Some(attempt) || s.jobs[id].worker != Some(worker) then Some(Lost(None))
    else
      var j := s.jobs[id];
      if j.settled.Some? then
        Some(if j.settled.value == command then AlreadySettled(j.status, j.command.scheduledAt)
             else SettleConflict(j.status, j.command.scheduledAt))
      else if !j.status.Running? then Some(Lost(Some(j.status)))
      else None
  }

  /** A blocked member whose parents, `id` among them, have all succeeded becomes claimable. */
  function Unblocked(jobs: map<Id, Job>, id: Id): map<Id, Job>
    requires id in jobs
  {
    map i | i in jobs ::
      if jobs[i].command.workflow == jobs[id].command.workflow && jobs[i].status.Blocked? && id in Deps(jobs[i])
         && AllSucceeded(jobs, Deps(jobs[i]))
      then jobs[i].(status := Queued) else jobs[i]
  }

  /** `i` is waiting in the workflow and depends on `root` through waiting members only.
      Dependencies are older than their dependents, so the recursion descends in `i`. */
  predicate Doomed(jobs: map<Id, Job>, wf: Option<Id>, root: Id, i: Id)
    decreases i
  {
    && i in jobs && jobs[i].command.workflow == wf && Waiting(jobs[i].status)
    && (root in Deps(jobs[i]) || exists d :: d in Deps(jobs[i]) && d < i && Doomed(jobs, wf, root, d))
  }

  function Cascaded(jobs: map<Id, Job>, id: Id): map<Id, Job>
    requires id in jobs
  {
    map i | i in jobs ::
      if Doomed(jobs, jobs[id].command.workflow, id, i) then jobs[i].(status := Cancelled) else jobs[i]
  }

  function Advance(s: State, id: Id): State
    requires id in s.jobs && s.jobs[id].command.workflow.Some? && s.jobs[id].command.workflow.value in s.workflows
  {
    Refresh(s.(jobs := if s.jobs[id].status.Succeeded? then Unblocked(s.jobs, id) else Cascaded(s.jobs, id)),
            s.jobs[id].command.workflow.value)
  }

  function SettledJob(j: Job, command: Settle, status: Status, at: Option<Instant>): Job {
    j.(status := status, settled := Some(command),
       command := if at.Some? then j.command.(scheduledAt := at) else j.command)
  }

  /** The part of a settlement before the workflow is advanced. */
  function Close(s: State, id: Id, command: Settle, status: Status, outcome: Outcome, at: Option<Instant>): State
    requires id in s.jobs
  {
    var j := s.jobs[id];
    s.(jobs := s.jobs[id := SettledJob(j, command, status, at)],
       active := if Terminal(status) && j.command.key.Some? then s.active - {(j.command.queue, j.command.key.value)} else s.active,
       settlements := s.settlements + [Settlement(id, command, outcome)])
  }

  function Finish(s: State, id: Id, command: Settle, status: Status, outcome: Outcome, at: Option<Instant>): State
    requires id in s.jobs
    requires s.jobs[id].command.workflow.Some? ==> s.jobs[id].command.workflow.value in s.workflows
  {
    var s1 := Close(s, id, command, status, outcome, at);
    if s.jobs[id].command.workflow.Some? && Terminal(status) then Advance(s1, id) else s1
  }

  // ---- completion with follow-ups ----------------------------------------------------------

  datatype Child = Child(command: Command, existing: Option<Id>)

  function ChildQueue(parent: Command, f: Followup): string {
    if f.queue.Some? then f.queue.value else parent.queue
  }

  function ChildCommand(parent: Command, parentId: Id, f: Followup): Command {
    Command(ChildQueue(parent, f), f.jobType, f.payload, f.settings, if f.member then parent.flowKey else None, None,
            f.scheduledAt, Some(Chain(parentId, f.step)), f.maxAttempts, f.leaseSeconds,
            if f.member then parent.workflow else None, if f.member then Some(Member(parentId, f.step)) else None, None)
  }

  /** One follow-up, after its step was found distinct. */
  function PlanOne(s: State, id: Id, f: Followup): Result<Child, Error>
    requires id in s.jobs
    requires Linked(s)
  {
    var parent := s.jobs[id].command;
    var c := ChildCommand(parent, id, f);
    if c.queue !in s.known then Err(NotFound)
    else if f.member && parent.workflow.Some? && c.queue !in s.workflows[parent.workflow.value].queues then
      Err(Validation("continuation_queue_undeclared"))
    else if (c.queue, c.key.value) !in s.active then Ok(Child(c, None))
    else
      var e := s.active[(c.queue, c.key.value)];
      if s.jobs[e].parent != Some(id) || s.jobs[e].command != c then Err(Internal) else Ok(Child(c, Some(e)))
  }

  predicate StepSeen(fs: seq<Followup>, step: string) {
    exists i :: 0 <= i < |fs| && fs[i].step == step
  }

  function Plan(s: State, id: Id, fs: seq<Followup>): (r: Result<seq<Child>, Error>)
    requires id in s.jobs
    requires Linked(s)
  {
    if fs == [] then Ok([])
    else
      var f := fs[|fs| - 1];
      match Plan(s, id, fs[..|fs| - 1])
      case Err(e) => Err(e)
      case Ok(children) =>
        if StepSeen(fs[..|fs| - 1], f.step) then Err(Config("followup steps must be distinct"))
        else
          match PlanOne(s, id, f)
          case Err(e) => Err(e)
          case Ok(c) => Ok(children + [c])
  }

  function NewMembers(children: seq<Child>): nat {
    if children == [] then 0
    else
      var c := children[|children| - 1];
      NewMembers(children[..|children| - 1]) + if c.existing.None? && c.command.workflow.Some? then 1 else 0
  }

  function AddChild(s: State, parent: Id, policy: Option<string>, c: Child): State {
    if c.existing.Some? then Log(s, c.existing.value, c.command, false, Some(parent))
    else
      var job := NewJob(c.command, Queued, Some(parent), if c.command.workflow.Some? then policy else None);
      Log(AddJob(s, job), s.nextId, c.command, true, Some(parent))
  }

  function AddChildren(s: State, parent: Id, policy: Option<string>, children: seq<Child>): State {
    if children == [] then s
    else AddChild(AddChildren(s, parent, policy, children[..|children| - 1]), parent, policy, children[|children| - 1])
  }

  /** The children a completion will store, or the reason it is refused. */
  function PlanCompletion(s: State, id: Id, fs: seq<Followup>, policy: Option<string>): Result<seq<Child>, Error>
    requires id in s.jobs
    requires Linked(s)
  {
    var j := s.jobs[id];
    if j.policy.Some? && policy.None? then Err(Validation("continuation_policy_required"))
    else if j.policy != policy then Err(Conflict("continuation_policy_mismatch"))
    else if (exists f :: f in fs && f.member) && (j.command.workflow.None? || j.policy.None?) then
      Err(Validation("continuation_parent_not_member"))
    else
      match Plan(s, id, fs)
      case Err(e) => Err(e)
      case Ok(children) =>
        var n := NewMembers(children);
        if n > 0 && j.command.workflow.Some?
           && (var w := s.workflows[j.command.workflow.value]; w.limit.None? || w.admitted + n > w.limit.value)
        then Err(Conflict("workflow_member_limit_exceeded"))
        else Ok(children)
  }

  function Completed(s: State, id: Id, children: seq<Child>): State
    requires id in s.jobs
    requires s.jobs[id].command.workflow.Some? ==> s.jobs[id].command.workflow.value in s.workflows
  {
    AddChildren(Finish(s, id, Complete, Succeeded, OkOutcome, None), id, s.jobs[id].policy, children)
  }

  function CountFailure(s: State, id: Id): State
    requires id in s.jobs
  {
    s.(jobs := s.jobs[id := s.jobs[id].(failures := s.jobs[id].failures + 1)])
  }

  function Retries(j: Job, retryable: bool): bool {
    retryable && j.failures + 1 < AttemptLimit(j.command)
  }

  /** All five settlement calls. */
  function SettleJob(s: State, id: Id, attempt: Id, worker: string, action: Action, now: Instant): (State, Result<Reply, Error>)
    requires Linked(s)
  {
    var fence := ReplayOrLost(s, id, attempt, worker, SettleName(action));
    if fence.Some? then (s, Ok(fence.value))
    else
      match action
      case DoComplete(fs, policy) => (
        match PlanCompletion(s, id, fs, policy)
        case Err(e) => (s, Err(e))
        case Ok(children) => (Completed(s, id, children), Ok(Settled(OkOutcome, Succeeded, None))))
      case DoFail(retryable, retryAfter) =>
        var s1 := CountFailure(s, id);
        if Retries(s.jobs[id], retryable) then
          var at := now + (if retryAfter.Some? then retryAfter.value else 0) * SECOND;
          (Finish(s1, id, Fail, Queued, RetryScheduled, Some(at)), Ok(Settled(RetryScheduled, Queued, Some(at))))
        else (Finish(s1, id, Fail, Failed, Dead, None), Ok(Settled(Dead, Failed, None)))
      case DoSnooze(delay) =>
        var at := now + delay * SECOND;
        (Finish(s, id, Snooze, Queued, OkOutcome, Some(at)), Ok(Settled(OkOutcome, Queued, Some(at))))
      case DoRelease(delay) =>
        var at := now + delay * SECOND;
        (Finish(s, id, Release, Queued, OkOutcome, Some(at)), Ok(Settled(OkOutcome, Queued, Some(at))))
      case DoCancelRunning =>
        (Finish(s, id, CancelRunning, Cancelled, OkOutcome, None), Ok(Settled(OkOutcome, Cancelled, None)))
  }
}

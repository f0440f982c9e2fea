/** Whole runs of the queue engine: any sequence of calls, by any callers, with any clock readings. */
module LifecycleRuns {
  import opened TaskTypes
  import opened Lifecycle
  import opened LifecycleInvariant
  import opened LifecycleAdd
  import opened LifecycleMoves
  import opened LifecycleSettle
  import opened LifecycleComplete
  import opened Ordering

  datatype Op =
    | OpEnqueue(command: Command)
    | OpCreate(request: WorkflowRequest)
    | OpSeal(workflow: Id)
    | OpCancel(workflow: Id)
    | OpClaim(query: ClaimQuery, now: Instant)
    | OpSettle(job: Id, attempt: Id, worker: string, action: Action, now: Instant)

  predicate ValidOp(op: Op) {
    op.OpEnqueue? ==> ValidCommand(op.command)
  }

  function Enqueue(s: State, c: Command): (State, Result<EnqueueReply, Error>)
    requires Linked(s) && ValidCommand(c)
  {
    if c.workflow.Some? then EnqueueMember(s, c) else EnqueuePlain(s, c)
  }

  function Apply(s: State, op: Op): State
    requires Linked(s) && ValidOp(op)
  {
    match op
    case OpEnqueue(c) => Enqueue(s, c).0
    case OpCreate(r) => CreateWorkflow(s, r, Sort(r.queues, StringLe)).0
    case OpSeal(w) => SealWorkflow(s, w).0
    case OpCancel(w) => CancelWorkflow(s, w).0
    case OpClaim(q, now) => Claim(s, q, now)
    case OpSettle(id, attempt, worker, action, now) => SettleJob(s, id, attempt, worker, action, now).0
  }

  lemma StepInv(s: State, op: Op)
    requires Inv(s) && ValidOp(op)
    ensures Linked(s) && Inv(Apply(s, op))
  {
    hide Inv, Linked;
    InvLinks(s);
    match op
    case OpEnqueue(c) => if c.workflow.Some? { EnqueueMemberInv(s, c); } else { EnqueuePlainInv(s, c); }
    case OpCreate(r) => CreateWorkflowInv(s, r, Sort(r.queues, StringLe));
    case OpSeal(w) => SealInv(s, w);
    case OpCancel(w) => CancelWorkflowInv(s, w);
    case OpClaim(q, now) => ClaimInv(s, q, now);
    case OpSettle(id, attempt, worker, action, now) => SettleInv(s, id, attempt, worker, action, now);
  }

  ghost predicate ValidRun(ops: seq<Op>) {
    forall i :: 0 <= i < |ops| ==> ValidOp(ops[i])
  }

  /** The state after a run. Only states that satisfy the invariant are stepped. */
  ghost function Run(s: State, ops: seq<Op>): (r: State)
    requires Inv(s) && ValidRun(ops)
    ensures Inv(r)
  {
    if ops == [] then s
    else
      var mid := Run(s, ops[..|ops| - 1]);
      StepInv(mid, ops[|ops| - 1]);
      Apply(mid, ops[|ops| - 1])
  }

  /** Every state of every run from an empty engine satisfies the invariant. */
  lemma ReachableInv(queues: set<string>, ops: seq<Op>)
    requires ValidRun(ops)
    ensures Inv(Init(queues)) && Inv(Run(Init(queues), ops))
  {
    InitInv(queues);
  }
}

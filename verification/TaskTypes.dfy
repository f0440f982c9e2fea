/** Values shared by every part of the model: jobs, workflows, commands and replies. */
module TaskTypes {

  datatype Option<+T> = None | Some(value: T)

  datatype Result<+T, +E> = Ok(value: T) | Err(error: E)

  /** Generated identifiers. The source draws random UUIDs; only their freshness matters,
      so the model draws them from one counter. */
  type Id = nat

  /** Instants and durations of the queue engine, in microseconds. */
  type Instant = int

  const SECOND: int := 1_000_000

  datatype Status = Blocked | Queued | Running | Succeeded | Failed | Cancelled

  predicate Terminal(status: Status) {
    status.Succeeded? || status.Failed? || status.Cancelled?
  }

  /** A job that was claimable at some time: its dependencies were met. */
  predicate Started(status: Status) {
    status.Queued? || status.Running? || status.Succeeded? || status.Failed?
  }

  /** Idempotency keys, read by their prefix: "chain:<job>:<step>", "schedule:<id>:<micros>",
      or anything else. */
  datatype Key = Plain(text: string) | Chain(parent: Id, step: string) | Occurrence(schedule: Id, at: Instant)

  /** Workflow step keys: the producer grammar has no ':', so "c:<job>:<step>" is disjoint from it. */
  datatype Step = Public(name: string) | Member(parent: Id, local: string)

  /** `settings` stands for the fields that are only carried along (headers, priority,
      concurrency key, back-off, time to live). */
  datatype Command = Command(
    queue: string,
    jobType: string,
    payload: string,
    settings: string,
    flowKey: Option<string>,
    affinityKey: Option<string>,
    scheduledAt: Option<Instant>,
    key: Option<Key>,
    maxAttempts: Option<int>,
    leaseSeconds: Option<int>,
    workflow: Option<Id>,
    step: Option<Step>,
    dependsOn: Option<seq<Id>>)

  datatype Settle = Complete | Fail | Snooze | Release | CancelRunning

  datatype Job = Job(
    command: Command,
    status: Status,
    attempt: Option<Id>,
    worker: Option<string>,
    attempts: nat,
    failures: nat,
    settled: Option<Settle>,
    parent: Option<Id>,
    policy: Option<string>)

  datatype WorkflowStatus = WfRunning | WfSucceeded | WfFailed | WfCancelled

  datatype WorkflowKind = Dag | Batch

  datatype Workflow = Workflow(
    key: string,
    kind: WorkflowKind,
    params: string,
    queues: seq<string>,
    sealed: bool,
    cancelRequested: bool,
    status: WorkflowStatus,
    steps: map<Step, Id>,
    limit: Option<int>,
    admitted: int,
    policy: Option<string>)

  datatype Enqueued = Enqueued(job: Id, command: Command, created: bool, parent: Option<Id>)

  datatype Outcome = OkOutcome | RetryScheduled | Dead

  datatype Settlement = Settlement(job: Id, command: Settle, outcome: Outcome)

  datatype Error =
    | NotFound
    | Config(reason: string)
    | Validation(reason: string)
    | Conflict(reason: string)
    | Internal

  /** What `enqueue` answers. */
  datatype EnqueueReply = Created(job: Id, at: Option<Instant>) | Existed(job: Id, at: Option<Instant>)

  /** What a settlement answers. */
  datatype Reply =
    | Settled(outcome: Outcome, status: Status, at: Option<Instant>)
    | AlreadySettled(status: Status, at: Option<Instant>)
    | SettleConflict(status: Status, at: Option<Instant>)
    | Lost(seen: Option<Status>)

  datatype Followup = Followup(
    step: string,
    jobType: string,
    queue: Option<string>,
    payload: string,
    settings: string,
    scheduledAt: Option<Instant>,
    maxAttempts: Option<int>,
    leaseSeconds: Option<int>,
    member: bool)

  /** One settlement request, with the fields the state depends on. */
  datatype Action =
    | DoComplete(followups: seq<Followup>, policy: Option<string>)
    | DoFail(retryable: bool, retryAfter: Option<int>)
    | DoSnooze(delay: int)
    | DoRelease(delay: int)
    | DoCancelRunning

  function Deps(job: Job): seq<Id> {
    if job.command.dependsOn.Some? then job.command.dependsOn.value else []
  }

  /** `max_attempts or 10`: absent and zero both mean ten. */
  function AttemptLimit(command: Command): int {
    if command.maxAttempts.Some? && command.maxAttempts.value != 0 then command.maxAttempts.value else 10
  }

  function SettleName(action: Action): Settle {
    match action
    case DoComplete(_, _) => Complete
    case DoFail(_, _) => Fail
    case DoSnooze(_) => Snooze
    case DoRelease(_) => Release
    case DoCancelRunning => CancelRunning
  }

  predicate Distinct<T(==)>(s: seq<T>) {
    forall i, j :: 0 <= i < j < |s| ==> s[i] != s[j]
  }

  /** What the constructor of a producer command checks. */
  predicate ValidCommand(c: Command) {
    && (c.workflow.Some? <==> c.step.Some?)
    && (c.step.Some? ==> c.step.value.Public?)
    && (c.workflow.None? && c.dependsOn.Some? ==> c.dependsOn.value == [])
    && (c.dependsOn.Some? ==> Distinct(c.dependsOn.value))
  }

  function Elements<T(==)>(s: seq<T>): set<T> {
    set x | x in s
  }

  /** Two commands name the same workflow member: equal up to the order of `depends_on`. */
  predicate SameMember(a: Command, b: Command) {
    && a.(dependsOn := None) == b.(dependsOn := None)
    && (a.dependsOn.Some? <==> b.dependsOn.Some?)
    && (a.dependsOn.Some? ==> Elements(a.dependsOn.value) == Elements(b.dependsOn.value))
  }
}

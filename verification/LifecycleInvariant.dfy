/** What every reachable state of the queue engine satisfies, in parts that read only what they need. */
module LifecycleInvariant {
  import opened TaskTypes
  import opened Lifecycle

  predicate Ascending(s: seq<Id>) {
    forall i, j :: 0 <= i < j < |s| ==> s[i] < s[j]
  }

  /** The listing holds every job once, oldest first. */
  ghost predicate IdsOk(nextId: Id, jobs: map<Id, Job>, order: seq<Id>) {
    && Ascending(order)
    && (forall i :: i in jobs <==> i in order)
    && (forall i :: i in jobs ==> i < nextId)
  }

  predicate EdgeOk(jobs: map<Id, Job>, i: Id, d: Id)
    requires i in jobs
  {
    d in jobs && d < i && jobs[i].command.workflow.Some? && jobs[d].command.workflow == jobs[i].command.workflow
  }

  /** Dependencies stay inside the workflow and point to older jobs. */
  ghost predicate GraphOk(jobs: map<Id, Job>) {
    forall i, d :: i in jobs && d in Deps(jobs[i]) ==> EdgeOk(jobs, i, d)
  }

  /** A started job has only succeeded parents; a blocked one has no lost parent and waits for some parent. */
  predicate JobStatusOk(jobs: map<Id, Job>, i: Id)
    requires i in jobs
  {
    var j := jobs[i];
    && (Started(j.status) ==> AllSucceeded(jobs, Deps(j)))
    && (j.status.Blocked? ==>
          && (forall d :: d in Deps(j) ==> d in jobs && !jobs[d].status.Failed? && !jobs[d].status.Cancelled?)
          && !AllSucceeded(jobs, Deps(j)))
  }

  ghost predicate StatusOk(jobs: map<Id, Job>) {
    forall i :: i in jobs ==> JobStatusOk(jobs, i)
  }

  /** A running attempt is unsettled; every other attempt is settled. */
  predicate AttemptOk(nextId: Id, j: Job) {
    && (j.status.Running? ==> j.attempt.Some? && j.worker.Some? && j.settled.None?)
    && (j.attempt.Some? && !j.status.Running? ==> j.settled.Some?)
    && (j.attempt.Some? ==> j.attempt.value < nextId)
    && (j.attempt.None? ==> j.settled.None? && j.attempts == 0)
    && (j.status.Blocked? ==> j.attempt.None?)
    && (j.status.Succeeded? || j.status.Failed? ==> j.attempt.Some?)
  }

  ghost predicate AttemptsOk(nextId: Id, jobs: map<Id, Job>) {
    && (forall i :: i in jobs ==> AttemptOk(nextId, jobs[i]))
    && (forall i, k :: i in jobs && k in jobs && i != k && jobs[i].attempt.Some? ==> jobs[i].attempt != jobs[k].attempt)
  }

  /** Workflow and step of a member, as recorded by its workflow. */
  predicate MemberOk(workflows: map<Id, Workflow>, i: Id, j: Job) {
    match j.command.workflow
    case None => j.policy.None? && j.command.step.None?
    case Some(w) =>
      && w in workflows && j.command.step.Some? && j.command.step.value in workflows[w].steps
      && workflows[w].steps[j.command.step.value] == i
      && j.policy == workflows[w].policy
      && (j.command.step.value.Member? ==> j.parent == Some(j.command.step.value.parent))
  }

  predicate StepsOk(jobs: map<Id, Job>, id: Id, w: Workflow) {
    && (forall st :: st in w.steps ==>
          w.steps[st] in jobs && jobs[w.steps[st]].command.workflow == Some(id) && jobs[w.steps[st]].command.step == Some(st))
    && |w.steps| <= w.admitted
    && (w.limit.Some? ==> w.admitted <= w.limit.value)
  }

  /** Steps and members of a workflow correspond one to one. */
  ghost predicate MembersOk(nextId: Id, jobs: map<Id, Job>, workflows: map<Id, Workflow>) {
    && (forall i :: i in jobs ==> MemberOk(workflows, i, jobs[i]))
    && (forall w :: w in workflows ==> w < nextId && StepsOk(jobs, w, workflows[w]))
  }

  ghost predicate WorkflowKeysOk(workflows: map<Id, Workflow>, keys: map<string, Id>) {
    && (forall k :: k in keys ==> keys[k] in workflows && workflows[keys[k]].key == k)
    && (forall w :: w in workflows ==> workflows[w].key in keys && keys[workflows[w].key] == w)
  }

  predicate HoldsKey(j: Job, q: string, k: Key) {
    j.command.queue == q && j.command.key == Some(k)
  }

  /** The key table points to holders of the keys, and every live holder is the one pointed to. */
  ghost predicate ActiveOk(jobs: map<Id, Job>, active: map<(string, Key), Id>) {
    && (forall k :: k in active ==> active[k] in jobs && HoldsKey(jobs[active[k]], k.0, k.1))
    && (forall i :: i in jobs && jobs[i].command.key.Some? && !Terminal(jobs[i].status) ==>
          (jobs[i].command.queue, jobs[i].command.key.value) in active
          && active[(jobs[i].command.queue, jobs[i].command.key.value)] == i)
  }

  /** Only a succeeded job has follow-up children. */
  ghost predicate ParentsOk(jobs: map<Id, Job>) {
    forall i :: i in jobs && jobs[i].parent.Some? ==>
      jobs[i].parent.value in jobs && jobs[i].parent.value < i && jobs[jobs[i].parent.value].status.Succeeded?
  }

  function SettlementsOf(log: seq<Settlement>, i: Id): nat {
    if log == [] then 0
    else SettlementsOf(log[..|log| - 1], i) + if log[|log| - 1].job == i then 1 else 0
  }

  function FailuresOf(log: seq<Settlement>, i: Id): nat {
    if log == [] then 0
    else FailuresOf(log[..|log| - 1], i) + if log[|log| - 1].job == i && log[|log| - 1].command.Fail? then 1 else 0
  }

  function AttemptBudget(c: Command): int {
    if AttemptLimit(c) < 1 then 1 else AttemptLimit(c)
  }

  /** Every claim of the job was settled, except the running one; failures are the failed settlements. */
  predicate AccountOk(log: seq<Settlement>, i: Id, j: Job) {
    && j.attempts == SettlementsOf(log, i) + (if j.status.Running? then 1 else 0)
    && j.failures == FailuresOf(log, i)
    && j.failures <= AttemptBudget(j.command)
    && (!Terminal(j.status) ==> j.failures < AttemptBudget(j.command))
  }

  ghost predicate AccountsOk(jobs: map<Id, Job>, log: seq<Settlement>) {
    && (forall i :: i in jobs ==> AccountOk(log, i, jobs[i]))
    && (forall k :: 0 <= k < |log| ==> log[k].job in jobs)
  }

  function CreatedIds(log: seq<Enqueued>): seq<Id> {
    if log == [] then []
    else CreatedIds(log[..|log| - 1]) + if log[|log| - 1].created then [log[|log| - 1].job] else []
  }

  ghost predicate Inv(s: State) {
    && IdsOk(s.nextId, s.jobs, s.order)
    && GraphOk(s.jobs)
    && StatusOk(s.jobs)
    && AttemptsOk(s.nextId, s.jobs)
    && MembersOk(s.nextId, s.jobs, s.workflows)
    && WorkflowKeysOk(s.workflows, s.workflowKeys)
    && ActiveOk(s.jobs, s.active)
    && ParentsOk(s.jobs)
    && AccountsOk(s.jobs, s.settlements)
    && CreatedIds(s.enqueues) == s.order
  }

  lemma ActiveLinks(jobs: map<Id, Job>, active: map<(string, Key), Id>)
    requires ActiveOk(jobs, active)
    ensures forall k :: k in active ==> active[k] in jobs
  {
  }

  lemma MemberLinks(nextId: Id, jobs: map<Id, Job>, ws: map<Id, Workflow>)
    requires MembersOk(nextId, jobs, ws)
    ensures forall i :: i in jobs && jobs[i].command.workflow.Some? ==> jobs[i].command.workflow.value in ws
    ensures forall w, st :: w in ws && st in ws[w].steps ==> ws[w].steps[st] in jobs
  {
    forall i | i in jobs && jobs[i].command.workflow.Some? ensures jobs[i].command.workflow.value in ws {
      assert MemberOk(ws, i, jobs[i]);
    }
    forall w, st | w in ws && st in ws[w].steps ensures ws[w].steps[st] in jobs {
      assert StepsOk(jobs, w, ws[w]);
    }
  }

  lemma InvLinks(s: State)
    requires Inv(s)
    ensures Linked(s)
  {
    ActiveLinks(s.jobs, s.active);
    MemberLinks(s.nextId, s.jobs, s.workflows);
    hide GraphOk, StatusOk, AttemptsOk, MembersOk, ActiveOk, ParentsOk, AccountsOk;
  }

  lemma InitInv(queues: set<string>)
    ensures Inv(Init(queues))
  {
  }
}

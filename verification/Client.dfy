/** The in-memory queue client. Its methods update the fields in place, step by step; each is proved to take
    the whole state where the function of the same operation says. */
module Client {
  import opened TaskTypes
  import opened Lifecycle
  import opened LifecycleInvariant
  import opened LifecycleAdd
  import opened LifecycleMoves
  import opened LifecycleSettle
  import opened LifecycleComplete
  import LifecycleCounts
  import LifecycleRuns
  import opened LifecycleHistory
  import opened Admissions
  import opened Evaluation
  import opened Schedules
  import opened Ordering

  lemma {:induction false} EligiblePrefix(jobs: map<Id, Job>, ids: seq<Id>, n: nat, q: ClaimQuery, now: Instant)
    requires n <= |ids|
    ensures EligibleJobs(jobs, ids[..n], q, now) <= EligibleJobs(jobs, ids, q, now)
  {
    if n < |ids| {
      EligiblePrefix(jobs, ids[..|ids| - 1], n, q, now);
      assert ids[..|ids| - 1][..n] == ids[..n];
    } else {
      assert ids[..n] == ids;
    }
  }

  lemma {:induction false} PlanErrorStays(s: State, id: Id, fs: seq<Followup>, n: nat)
    requires Linked(s) && id in s.jobs && n <= |fs| && Plan(s, id, fs[..n]).Err?
    ensures Plan(s, id, fs) == Plan(s, id, fs[..n])
  {
    hide Linked;
    if n < |fs| {
      assert fs[..|fs| - 1][..n] == fs[..n];
      PlanErrorStays(s, id, fs[..|fs| - 1], n);
    } else {
      assert fs[..n] == fs;
    }
  }

  lemma Undone<K, V>(m: map<K, V>, k: K, m': map<K, V>, v: V)
    requires k !in m && m' == m[k := v] - {k}
    ensures m' == m
  {
  }

  lemma Overwritten<K, V>(m: map<K, V>, k: K, v: V, v': V)
    ensures m[k := v][k := v'] == m[k := v']
  {
  }

  lemma Unwritten<K, V>(m: map<K, V>, k: K)
    requires k in m
    ensures m[k := m[k]] == m
  {
  }

  lemma KeysResolve(s: State)
    requires Linked(s)
    ensures forall k :: k in s.active ==> s.active[k] in s.jobs
  {
  }

  lemma WorkflowKeysResolve(s: State)
    requires Linked(s)
    ensures forall k :: k in s.workflowKeys ==> s.workflowKeys[k] in s.workflows
  {
  }

  lemma StepsListMembers(s: State, w: Id)
    requires Inv(s) && w in s.workflows
    ensures forall i :: i in s.jobs && s.jobs[i].command.workflow == Some(w) <==> i in s.workflows[w].steps.Values
  {
    hide IdsOk, GraphOk, StatusOk, AttemptsOk, WorkflowKeysOk, ActiveOk, ParentsOk, AccountsOk;
    LifecycleCounts.StepsMatchMembers(s.nextId, s.jobs, s.workflows, w);
    hide MembersOk;
    forall i ensures i in s.jobs && s.jobs[i].command.workflow == Some(w) <==> i in s.workflows[w].steps.Values {
      assert i in LifecycleCounts.MembersOf(s.jobs, w) <==> i in s.workflows[w].steps.Values;
    }
  }

  /** Each answered claim describes the job picked at its place. */
  ghost predicate Receipts(s: State, picked: seq<Id>, q: ClaimQuery, now: Instant, receipts: seq<Claimed>) {
    && |receipts| == |picked|
    && (forall k :: 0 <= k < |picked| ==>
          picked[k] in s.jobs && s.jobs[picked[k]].attempt.Some? && receipts[k] == ClaimReceipt(s, picked[k], q, now))
  }

  lemma ReceiptsGrow(s: State, picked: seq<Id>, id: Id, q: ClaimQuery, now: Instant, receipts: seq<Claimed>, receipt: Claimed)
    requires (forall i :: i in picked ==> i in s.jobs) && id in s.jobs && id !in picked
    requires Receipts(ClaimAll(s, picked, q.worker), picked, q, now, receipts)
    requires var t := ClaimOne(ClaimAll(s, picked, q.worker), id, q.worker); receipt == ClaimReceipt(t, id, q, now)
    ensures forall i :: i in picked + [id] ==> i in s.jobs
    ensures ClaimAll(s, picked + [id], q.worker) == ClaimOne(ClaimAll(s, picked, q.worker), id, q.worker)
    ensures Receipts(ClaimAll(s, picked + [id], q.worker), picked + [id], q, now, receipts + [receipt])
  {
    var all := picked + [id];
    assert all[..|all| - 1] == picked;
    var u, t := ClaimAll(s, picked, q.worker), ClaimAll(s, all, q.worker);
    forall k | 0 <= k < |all|
      ensures all[k] in t.jobs && t.jobs[all[k]].attempt.Some? && (receipts + [receipt])[k] == ClaimReceipt(t, all[k], q, now)
    {
      if k < |picked| { assert picked[k] in picked && t.jobs[picked[k]] == u.jobs[picked[k]]; }
    }
  }

  lemma NothingPicked(s: State, q: ClaimQuery, now: Instant)
    ensures EligibleJobs(s.jobs, [], q, now) == [] && ClaimAll(s, [], q.worker) == s && Receipts(s, [], q, now, [])
  {
  }

  lemma ReceiptCount(s: State, picked: seq<Id>, q: ClaimQuery, now: Instant, receipts: seq<Claimed>)
    requires Receipts(s, picked, q, now, receipts)
    ensures |receipts| == |picked|
  {
  }

  lemma EligibleStep(jobs: map<Id, Job>, order: seq<Id>, k: nat, q: ClaimQuery, now: Instant)
    requires k < |order| && order[k] in jobs
    ensures EligibleJobs(jobs, order[..k + 1], q, now)
         == EligibleJobs(jobs, order[..k], q, now) + if Eligible(jobs[order[k]], order[k], q, now) then [order[k]] else []
  {
    assert order[..k + 1][..k] == order[..k];
  }

  lemma ClaimTouches(s: State, id: Id, worker: string)
    requires id in s.jobs
    ensures forall i :: i in s.jobs && i != id ==> i in ClaimOne(s, id, worker).jobs && ClaimOne(s, id, worker).jobs[i] == s.jobs[i]
  {
  }

  lemma OrderOf(s: State)
    requires Inv(s)
    ensures Ascending(s.order) && forall i :: i in s.order ==> i in s.jobs
  {
    hide GraphOk, StatusOk, AttemptsOk, MembersOk, WorkflowKeysOk, ActiveOk, ParentsOk, AccountsOk;
  }

  lemma FreshInOrder(order: seq<Id>, k: nat)
    requires Ascending(order) && k < |order|
    ensures order[k] !in order[..k] && order[k] !in order[k + 1..]
  {
  }

  // ---- facts for the settlement loops --------------------------------------------------------

  /** What the walks along the dependencies rely on. */
  ghost predicate Walkable(s: State) {
    IdsOk(s.nextId, s.jobs, s.order) && GraphOk(s.jobs)
  }

  lemma InvWalks(s: State)
    requires Inv(s)
    ensures Walkable(s)
  {
    hide IdsOk, GraphOk, StatusOk, AttemptsOk, MembersOk, WorkflowKeysOk, ActiveOk, ParentsOk, AccountsOk;
  }

  lemma WalkListing(s: State)
    requires Walkable(s)
    ensures GraphOk(s.jobs) && forall i :: i in s.jobs <==> i in s.order
  {
    hide GraphOk;
  }

  lemma CloseWalks(s: State, id: Id, command: Settle, status: Status, outcome: Outcome, at: Option<Instant>)
    requires Walkable(s) && id in s.jobs
    ensures Walkable(Close(s, id, command, status, outcome, at))
  {
    var j' := SettledJob(s.jobs[id], command, status, at);
    assert SameIdentity(s.jobs[id], j');
    hide SameIdentity, GraphOk, IdsOk;
    ReplacedGraph(s.jobs, id, j');
    ReplacedIds(s.nextId, s.jobs, s.order, id, j');
  }

  /** The listed prefix is unblocked, the rest is as it was. */
  ghost predicate PartlyUnblocked(was: map<Id, Job>, jobs: map<Id, Job>, id: Id, done: seq<Id>)
    requires id in was
  {
    && (forall i :: i in jobs <==> i in was)
    && (forall i :: i in was ==> jobs[i] == if i in done then Unblocked(was, id)[i] else was[i])
  }

  lemma UnblockedParents(was: map<Id, Job>, jobs: map<Id, Job>, id: Id, done: seq<Id>, i: Id)
    requires id in was && i in was && PartlyUnblocked(was, jobs, id, done)
    ensures AllSucceeded(jobs, Deps(was[i])) <==> AllSucceeded(was, Deps(was[i]))
    ensures jobs[id].command == was[id].command && jobs[i].command == was[i].command
  {
    forall d | d in was ensures jobs[d].status.Succeeded? <==> was[d].status.Succeeded? {
      assert d in jobs;
    }
  }

  predicate DependsDirectly(jobs: map<Id, Job>, wf: Option<Id>, failed: Id, i: Id) {
    i in jobs && jobs[i].command.workflow == wf && Waiting(jobs[i].status) && failed in Deps(jobs[i])
  }

  ghost function Dependents(jobs: map<Id, Job>, wf: Option<Id>, failed: Id): set<Id> {
    set i | i in jobs && DependsDirectly(jobs, wf, failed, i)
  }

  ghost function WithLost(jobs: map<Id, Job>, lost: set<Id>): map<Id, Job> {
    map i | i in jobs :: if i in lost then jobs[i].(status := Cancelled) else jobs[i]
  }

  ghost predicate LostAreDoomed(was: map<Id, Job>, wf: Option<Id>, root: Id, lost: set<Id>) {
    forall i :: i in lost ==> Doomed(was, wf, root, i)
  }

  /** Everything lost has been visited or waits in the frontier, and nothing else has. */
  ghost predicate Visited(seen: set<Id>, frontier: seq<Id>, lost: set<Id>, root: Id) {
    forall x :: x in seen || x in frontier <==> x in lost || x == root
  }

  /** Whatever depends directly on a visited job is lost. */
  ghost predicate VisitedClosed(was: map<Id, Job>, wf: Option<Id>, seen: set<Id>, lost: set<Id>) {
    forall f, i :: f in seen && DependsDirectly(was, wf, f, i) ==> i in lost
  }

  /** The walk over the listed prefix `done` has cancelled the dependents in it and queued them in `added`. */
  ghost predicate PartlyLost(was: map<Id, Job>, jobs: map<Id, Job>, goal: set<Id>, done: seq<Id>, added: seq<Id>) {
    && (forall i :: i in jobs <==> i in was)
    && (forall i :: i in was ==> jobs[i] == if i in goal && i in done then was[i].(status := Cancelled) else was[i])
    && (forall i :: i in added <==> i in goal && i in done)
  }

  lemma PartlyLostNext(was: map<Id, Job>, jobs: map<Id, Job>, wf: Option<Id>, failed: Id, done: seq<Id>, added: seq<Id>, i: Id)
    requires PartlyLost(was, jobs, Dependents(was, wf, failed), done, added) && i in was
    ensures i in jobs
    ensures var goal, lost := Dependents(was, wf, failed), DependsDirectly(jobs, wf, failed, i);
            PartlyLost(was, if lost then jobs[i := jobs[i].(status := Cancelled)] else jobs, goal, done + [i], if lost then added + [i] else added)
  {
    assert jobs[i].command == was[i].command;
    forall x ensures x in done + [i] <==> x in done || x == i {
    }
  }

  lemma DependentsAreJobs(was: map<Id, Job>, wf: Option<Id>, failed: Id)
    ensures Dependents(was, wf, failed) <= was.Keys
  {
  }

  lemma PartlyLostAll(was: map<Id, Job>, jobs: map<Id, Job>, goal: set<Id>, done: seq<Id>, added: seq<Id>)
    requires PartlyLost(was, jobs, goal, done, added) && goal <= was.Keys && forall i :: i in was ==> i in done
    ensures jobs == WithLost(was, goal) && Elements(added) == goal
  {
  }

  /** What storing a new child changes, field by field. */
  lemma ChildFields(s: State, parent: Id, policy: Option<string>, c: Command)
    ensures var t, id := AddChild(s, parent, policy, Child(c, None)), s.nextId;
            && t.nextId == id + 1 && t.known == s.known && t.order == s.order + [id]
            && t.jobs == s.jobs[id := NewJob(c, Queued, Some(parent), if c.workflow.Some? then policy else None)]
            && t.active == (if c.key.Some? then s.active[(c.queue, c.key.value) := id] else s.active)
            && t.enqueues == s.enqueues + [Enqueued(id, c, true, Some(parent))]
            && t.workflowKeys == s.workflowKeys && t.settlements == s.settlements
            && t.workflows == StepRecorded(s.workflows, id, c)
  {
  }

  /** The workflow of a new member lists it under its step and counts it. */
  function StepRecorded(ws: map<Id, Workflow>, id: Id, c: Command): map<Id, Workflow> {
    if c.workflow.Some? && c.step.Some? && c.workflow.value in ws then
      var w := ws[c.workflow.value];
      ws[c.workflow.value := w.(steps := w.steps[c.step.value := id], admitted := w.admitted + 1)]
    else ws
  }

  lemma NothingLost(was: map<Id, Job>, wf: Option<Id>, root: Id)
    ensures WithLost(was, {}) == was && LostAreDoomed(was, wf, root, {})
    ensures Visited({}, [root], {}, root) && VisitedClosed(was, wf, {}, {})
  {
  }

  lemma CascadeStep(was: map<Id, Job>, wf: Option<Id>, root: Id, seen: set<Id>, before: seq<Id>, rest: seq<Id>, failed: Id,
                    lost: set<Id>, longer: seq<Id>, more: set<Id>)
    requires GraphOk(was) && lost <= was.Keys && LostAreDoomed(was, wf, root, lost) && Visited(seen, before, lost, root)
    requires VisitedClosed(was, wf, seen, lost) && before == rest + [failed]
    requires more == Dependents(WithLost(was, lost), wf, failed)
    requires exists added :: longer == rest + added && Elements(added) == more
    ensures more <= was.Keys && more !! lost && LostAreDoomed(was, wf, root, lost + more)
    ensures Visited(seen + {failed}, longer, lost + more, root) && VisitedClosed(was, wf, seen + {failed}, lost + more)
  {
    assert failed in before;
    forall i | i in more ensures Doomed(was, wf, root, i) {
      assert failed in Deps(was[i]) && failed < i;
    }
    forall i | DependsDirectly(was, wf, failed, i) ensures i in lost + more {
      if i !in lost { assert DependsDirectly(WithLost(was, lost), wf, failed, i); }
    }
    ghost var added :| longer == rest + added && Elements(added) == more;
    forall x ensures x in longer <==> x in rest || x in more {
      assert x in added <==> x in Elements(added);
    }
  }

  lemma LostGrows(was: map<Id, Job>, lost: set<Id>, more: set<Id>)
    requires lost <= was.Keys && more <= was.Keys && more !! lost
    ensures WithLost(WithLost(was, lost), more) == WithLost(was, lost + more)
    ensures more != {} ==> |was.Keys - (lost + more)| < |was.Keys - lost|
    ensures more == {} ==> lost + more == lost
  {
    if more != {} {
      assert was.Keys - lost == (was.Keys - (lost + more)) + more;
    }
  }

  lemma FirstElement(s: seq<Id>)
    ensures s != [] ==> s[0] in Elements(s)
  {
  }

  lemma NoNew(rest: seq<Id>, longer: seq<Id>)
    requires exists added :: longer == rest + added && Elements(added) == {}
    ensures longer == rest
  {
    ghost var added :| longer == rest + added && Elements(added) == {};
    FirstElement(added);
  }

  lemma {:induction false} DoomedIsLost(was: map<Id, Job>, wf: Option<Id>, root: Id, seen: set<Id>, lost: set<Id>, i: Id)
    requires VisitedClosed(was, wf, seen, lost) && Visited(seen, [], lost, root) && Doomed(was, wf, root, i)
    ensures i in lost
    decreases i
  {
    if root in Deps(was[i]) {
      assert root in seen && DependsDirectly(was, wf, root, i);
    } else {
      var d :| d in Deps(was[i]) && d < i && Doomed(was, wf, root, d);
      DoomedIsLost(was, wf, root, seen, lost, d);
      assert d in seen && DependsDirectly(was, wf, d, i);
    }
  }

  lemma CascadeDone(was: map<Id, Job>, root: Id, seen: set<Id>, lost: set<Id>)
    requires root in was && LostAreDoomed(was, was[root].command.workflow, root, lost)
    requires VisitedClosed(was, was[root].command.workflow, seen, lost) && Visited(seen, [], lost, root)
    ensures WithLost(was, lost) == Cascaded(was, root)
  {
    var wf := was[root].command.workflow;
    forall i | i in was ensures Doomed(was, wf, root, i) <==> i in lost {
      if Doomed(was, wf, root, i) { DoomedIsLost(was, wf, root, seen, lost, i); }
    }
  }

  lemma CountWalks(s: State, id: Id)
    requires Walkable(s) && id in s.jobs
    ensures Walkable(CountFailure(s, id))
  {
    var j' := s.jobs[id].(failures := s.jobs[id].failures + 1);
    hide GraphOk, IdsOk;
    ReplacedGraph(s.jobs, id, j');
    ReplacedIds(s.nextId, s.jobs, s.order, id, j');
  }

  lemma StepsSeen(fs: seq<Followup>, k: nat, seen: set<string>)
    requires k < |fs| && forall step :: step in seen <==> StepSeen(fs[..k], step)
    ensures forall step :: step in seen + {fs[k].step} <==> StepSeen(fs[..k + 1], step)
  {
    forall step ensures StepSeen(fs[..k + 1], step) <==> StepSeen(fs[..k], step) || step == fs[k].step {
      if StepSeen(fs[..k], step) {
        var i :| 0 <= i < k && fs[..k][i].step == step;
        assert fs[..k + 1][i].step == step;
      }
      if StepSeen(fs[..k + 1], step) && step != fs[k].step {
        var i :| 0 <= i < k + 1 && fs[..k + 1][i].step == step;
        assert fs[..k][i].step == step;
      }
      assert fs[..k + 1][k] == fs[k];
    }
  }

  // ---- facts for the schedule claims ---------------------------------------------------------

  lemma NothingClaimed(was: map<string, Schedule>, ranked: seq<(Instant, string)>, first: Id, lease: int, now: Instant)
    ensures ClaimedPrefix(was, ranked, 0, [], now) && LeasedFor(was, was, [], first, lease, now)
  {
  }

  /** The schedule at rank `k` is still as it was. */
  lemma RankedHere(was: map<string, Schedule>, xs: map<string, Schedule>, ranked: seq<(Instant, string)>, k: nat, claims: seq<NamedClaim>,
                   first: Id, lease: int, now: Instant)
    requires Ranking(was, ranked) && k < |ranked| && ClaimedPrefix(was, ranked, k, claims, now)
    requires LeasedFor(was, xs, claims, first, lease, now)
    ensures ranked[k].1 in was && ranked[k].1 in xs && xs[ranked[k].1] == was[ranked[k].1]
  {
    hide Claimable, Sorted;
    assert ranked[k].1 in was;
    forall i | 0 <= i < |claims| ensures claims[i].0 != ranked[k].1 {
      RankedBefore(was, ranked, k, claims[i].0);
    }
  }

  lemma SortedRanking(xs: map<string, Schedule>, listed: seq<(Instant, string)>)
    requires Distinct(listed)
    requires forall k :: 0 <= k < |listed| ==> listed[k].1 in xs && listed[k] == Rank(xs, listed[k].1)
    requires forall n :: n in xs ==> Rank(xs, n) in listed
    ensures Ranking(xs, Sort(listed, TimedLe))
  {
    hide TotalOrder, Sorted, Sort, TimedLe, Distinct;
    TimedOrder();
    SortSorts(listed, TimedLe);
    RankingOf(xs, listed, Sort(listed, TimedLe));
  }

  lemma RankingOf(xs: map<string, Schedule>, listed: seq<(Instant, string)>, ranked: seq<(Instant, string)>)
    requires Distinct(listed) && Sorted(ranked, TimedLe) && multiset(ranked) == multiset(listed)
    requires forall k :: 0 <= k < |listed| ==> listed[k].1 in xs && listed[k] == Rank(xs, listed[k].1)
    requires forall n :: n in xs ==> Rank(xs, n) in listed
    ensures Ranking(xs, ranked)
  {
    hide Sorted, TimedLe, Distinct;
    SameBag(listed, ranked);
    forall k | 0 <= k < |ranked| ensures ranked[k].1 in xs && ranked[k] == Rank(xs, ranked[k].1) {
      assert ranked[k] in listed;
    }
  }

  class TaskQueue {
    var nextId: Id
    var known: set<string>
    var jobs: map<Id, Job>
    var order: seq<Id>
    var active: map<(string, Key), Id>
    var workflows: map<Id, Workflow>
    var workflowKeys: map<string, Id>
    var enqueues: seq<Enqueued>
    var settlements: seq<Settlement>
    var admissions: Reservations
    var schedules: map<string, Schedule>

    ghost function Engine(): State
      reads this
    {
      State(nextId, known, jobs, order, active, workflows, workflowKeys, enqueues, settlements)
    }

    ghost predicate SchedulesOk()
      reads this
    {
      && (forall n :: n in schedules ==> schedules[n].id < nextId && TokensOk(schedules[n], nextId))
      && (forall n, m :: n in schedules && m in schedules && schedules[n].id == schedules[m].id ==> n == m)
    }

    ghost predicate Valid()
      reads this
    {
      WorldOk(World(Engine(), admissions)) && SchedulesOk()
    }

    constructor (queues: set<string>)
      ensures Valid() && Engine() == Init(queues) && admissions == map[] && schedules == map[]
    {
      nextId, known, jobs, order, active := 0, queues, map[], [], map[];
      workflows, workflowKeys, enqueues, settlements := map[], map[], [], [];
      admissions, schedules := map[], map[];
      new;
      InitInv(queues);
    }

    lemma Links()
      requires Valid()
      ensures Linked(Engine()) && Inv(Engine())
    {
      hide Inv;
      InvLinks(Engine());
    }

    // ---- enqueue ---------------------------------------------------------------------------

    method RecordEnqueue(id: Id, c: Command, created: bool)
      requires id in jobs
      modifies this`enqueues
      ensures Engine() == Log(old(Engine()), id, c, created, jobs[id].parent)
    {
      enqueues := enqueues + [Enqueued(id, c, created, jobs[id].parent)];
    }

    method Enqueue(c: Command) returns (r: Result<EnqueueReply, Error>)
      requires Valid() && ValidCommand(c)
      modifies this
      ensures Valid() && Linked(old(Engine()))
      ensures (Engine(), r) == LifecycleRuns.Enqueue(old(Engine()), c)
      ensures admissions == old(admissions) && schedules == old(schedules) && nextId >= old(nextId)
    {
      hide Inv, Linked;
      Links();
      ghost var s := Engine();
      LifecycleRuns.StepInv(s, LifecycleRuns.OpEnqueue(c));
      if c.workflow.Some? {
        r := EnqueueWorkflowMember(c);
      } else {
        r := EnqueuePlainJob(c);
      }
    }

    method EnqueuePlainJob(c: Command) returns (r: Result<EnqueueReply, Error>)
      requires Linked(Engine()) && c.workflow.None?
      modifies this`nextId, this`jobs, this`order, this`known, this`active, this`enqueues
      ensures (Engine(), r) == EnqueuePlain(old(Engine()), c)
      ensures nextId >= old(nextId)
    {
      KeysResolve(Engine());
      hide Linked;
      if c.key.Some? && (c.queue, c.key.value) in active {
        var existing := active[(c.queue, c.key.value)];
        var job := jobs[existing];
        r := Ok(Existed(existing, job.command.scheduledAt));
        RecordEnqueue(existing, c, false);
      } else {
        var id := nextId;
        nextId := nextId + 1;
        jobs := jobs[id := NewJob(c, Queued, None, None)];
        order := order + [id];
        known := known + {c.queue};
        if c.key.Some? {
          active := active[(c.queue, c.key.value) := id];
        }
        r := Ok(Created(id, c.scheduledAt));
        RecordEnqueue(id, c, true);
      }
    }

    method EnqueueWorkflowMember(c: Command) returns (r: Result<EnqueueReply, Error>)
      requires Linked(Engine()) && Inv(Engine()) && ValidCommand(c) && c.workflow.Some?
      modifies this
      ensures (Engine(), r) == EnqueueMember(old(Engine()), c)
      ensures admissions == old(admissions) && schedules == old(schedules) && nextId >= old(nextId)
    {
      hide Inv, Store, RolledBack, ParentError, AllSucceeded, SameMember;
      LifecycleComplete.FreshId(Engine());
      var wid, step := c.workflow.value, c.step.value;
      if wid !in workflows {
        return Err(NotFound);
      }
      var w := workflows[wid];
      if c.queue !in w.queues {
        return Err(Validation("workflow_queue_not_declared"));
      }
      if step in w.steps {
        var existing := w.steps[step];
        if !SameMember(jobs[existing].command, c) {
          return Err(Conflict("workflow_step_mismatch"));
        }
        RecordEnqueue(existing, c, false);
        return Ok(Existed(existing, jobs[existing].command.scheduledAt));
      }
      if w.sealed || w.cancelRequested {
        return Err(Conflict("workflow_sealed"));
      }
      if w.limit.Some? && w.admitted >= w.limit.value {
        return Err(Conflict("workflow_member_limit_exceeded"));
      }
      r := AdmitMember(c);
    }

    /** The last checks of a new member, and its storing. */
    method AdmitMember(c: Command) returns (r: Result<EnqueueReply, Error>)
      requires Linked(Engine()) && c.workflow.Some? && c.step.Some? && nextId !in jobs
      requires c.workflow.value in workflows && c.queue in workflows[c.workflow.value].queues
      requires c.step.value !in workflows[c.workflow.value].steps
      requires !workflows[c.workflow.value].sealed && !workflows[c.workflow.value].cancelRequested
      requires workflows[c.workflow.value].limit.Some? ==> workflows[c.workflow.value].admitted < workflows[c.workflow.value].limit.value
      modifies this
      ensures (Engine(), r) == EnqueueMember(old(Engine()), c)
      ensures admissions == old(admissions) && schedules == old(schedules) && nextId >= old(nextId)
    {
      hide Linked, ParentError, SameMember, AllSucceeded;
      var refusal, ready := CheckParents(c);
      if refusal.Some? {
        return Err(refusal.value);
      }
      var id := nextId;
      var stored := StoreMember(c, if ready then Queued else Blocked);
      if !stored {
        return Err(Conflict("workflow_step_mismatch"));
      }
      RecordEnqueue(id, c, true);
      r := Ok(Created(id, c.scheduledAt));
    }

    /** Store the member, and take it out again when its key turns out to be taken. */
    method StoreMember(c: Command, status: Status) returns (stored: bool)
      requires c.workflow.Some? && c.step.Some? && c.workflow.value in workflows
      requires nextId !in jobs && c.step.value !in workflows[c.workflow.value].steps
      modifies this`nextId, this`jobs, this`order, this`workflows, this`known, this`active
      ensures stored <==> !(c.key.Some? && (c.queue, c.key.value) in old(active))
      ensures var s, job := old(Engine()), NewJob(c, status, None, old(workflows)[c.workflow.value].policy);
              && (stored ==> Engine() == AddJob(s, job).(known := s.known + {c.queue}))
              && (!stored ==> Engine() == RolledBack(s, c.workflow.value, c.queue))
    {
      ghost var s := Engine();
      var id := nextId;
      InsertMember(c, status);
      if c.key.Some? {
        var identity := (c.queue, c.key.value);
        if identity in active {
          RemoveMember(id, c, s, NewJob(c, status, None, s.workflows[c.workflow.value].policy));
          return false;
        }
        active := active[identity := id];
      }
      stored := true;
    }

    method InsertMember(c: Command, status: Status)
      requires c.workflow.Some? && c.step.Some? && c.workflow.value in workflows
      modifies this`nextId, this`jobs, this`order, this`workflows, this`known
      ensures var s, job := old(Engine()), NewJob(c, status, None, old(workflows)[c.workflow.value].policy);
              Engine() == AddJob(s, job).(known := s.known + {c.queue}, active := s.active)
    {
      var wid, step := c.workflow.value, c.step.value;
      var w := workflows[wid];
      var id := nextId;
      nextId := nextId + 1;
      jobs := jobs[id := NewJob(c, status, None, w.policy)];
      order := order + [id];
      workflows := workflows[wid := w.(steps := w.steps[step := id], admitted := w.admitted + 1)];
      known := known + {c.queue};
    }

    /** Undo the insertion into `s`: the job, its listing and its step go. */
    method RemoveMember(id: Id, c: Command, ghost s: State, ghost job: Job)
      requires c.workflow.Some? && c.step.Some? && c.workflow.value in s.workflows
      requires id == s.nextId && id !in s.jobs && c.step.value !in s.workflows[c.workflow.value].steps
      requires job.command == c && Engine() == AddJob(s, job).(known := s.known + {c.queue}, active := s.active)
      modifies this`jobs, this`order, this`workflows
      ensures Engine() == RolledBack(s, c.workflow.value, c.queue)
    {
      ghost var w := s.workflows[c.workflow.value];
      var wid, step := c.workflow.value, c.step.value;
      jobs := jobs - {id};
      order := order[..|order| - 1];
      var stepped := workflows[wid].steps - {step};
      workflows := workflows[wid := workflows[wid].(steps := stepped)];
      Undone(s.jobs, id, jobs, job);
      Undone(w.steps, step, stepped, id);
      Overwritten(s.workflows, wid, w.(steps := w.steps[step := id], admitted := w.admitted + 1), workflows[wid]);
      assert order == s.order;
    }

    /** The first refused parent, in order, and whether all of them have succeeded. */
    method CheckParents(c: Command) returns (refusal: Option<Error>, ready: bool)
      ensures var parents := if c.dependsOn.Some? then c.dependsOn.value else [];
              refusal == ParentError(jobs, c, parents) && (refusal.None? ==> (ready <==> AllSucceeded(jobs, parents)))
    {
      var parents := if c.dependsOn.Some? then c.dependsOn.value else [];
      ready := true;
      var k := 0;
      while k < |parents|
        invariant k <= |parents|
        invariant ParentError(jobs, c, parents) == ParentError(jobs, c, parents[k..])
        invariant ready <==> AllSucceeded(jobs, parents[..k])
      {
        var parent := parents[k];
        assert parents[k..][0] == parent && parents[k..][1..] == parents[k + 1..];
        if parent !in jobs || jobs[parent].command.workflow != c.workflow {
          return Some(NotFound), false;
        }
        if jobs[parent].status.Failed? || jobs[parent].status.Cancelled? {
          return Some(Conflict("dependency_terminal")), false;
        }
        if !jobs[parent].status.Succeeded? {
          ready := false;
        }
        assert parents[..k + 1] == parents[..k] + [parent];
        k := k + 1;
      }
      assert parents[..k] == parents;
      refusal := None;
    }

    // ---- workflows -------------------------------------------------------------------------

    method CreateWorkflow(r: WorkflowRequest) returns (reply: Result<WorkflowReply, Error>)
      requires Valid()
      modifies this
      ensures Valid() && Linked(old(Engine()))
      ensures (Engine(), reply) == Lifecycle.CreateWorkflow(old(Engine()), r, Sort(r.queues, StringLe))
      ensures admissions == old(admissions) && schedules == old(schedules) && nextId >= old(nextId)
    {
      hide Inv, Linked;
      Links();
      CreateWorkflowInv(Engine(), r, Sort(r.queues, StringLe));
      if !ValidRequest(r) {
        return Err(Validation("workflow"));
      }
      var queues := Sort(r.queues, StringLe);
      if r.key in workflowKeys {
        WorkflowKeysResolve(Engine());
        var id := workflowKeys[r.key];
        var w := workflows[id];
        if w.kind != r.kind || w.params != r.params || w.queues != queues || w.limit != MemberLimit(r) || w.policy != r.policy {
          return Err(Conflict("workflow_mismatch"));
        }
        return Ok(WorkflowReply("existed", id, w.status));
      }
      if exists q :: q in queues && q !in known {
        return Err(NotFound);
      }
      var id := nextId;
      nextId := nextId + 1;
      workflows := workflows[id := Workflow(r.key, r.kind, r.params, queues, false, false, WfRunning, map[], MemberLimit(r), 0, r.policy)];
      workflowKeys := workflowKeys[r.key := id];
      reply := Ok(WorkflowReply("created", id, WfRunning));
    }

    /** Store the status the flags and members call for, if the workflow is sealed. */
    method RefreshWorkflow(id: Id)
      requires id in workflows
      modifies this`workflows
      ensures Engine() == Refresh(old(Engine()), id)
    {
      var w := workflows[id];
      if !w.sealed {
        assert workflows == workflows[id := w.(status := w.status)];
        return;
      }
      if w.cancelRequested {
        if !SomeMember(jobs, w, Running) {
          workflows := workflows[id := w.(status := WfCancelled)];
        } else {
          assert workflows == workflows[id := w.(status := w.status)];
        }
        return;
      }
      if SomeMember(jobs, w, Failed) {
        workflows := workflows[id := w.(status := WfFailed)];
      } else if SomeMember(jobs, w, Cancelled) {
        workflows := workflows[id := w.(status := WfCancelled)];
      } else if EveryMember(jobs, w, Succeeded) {
        workflows := workflows[id := w.(status := WfSucceeded)];
      } else {
        assert workflows == workflows[id := w.(status := w.status)];
      }
    }

    method SealWorkflow(id: Id) returns (reply: Result<WorkflowReply, Error>)
      requires Valid()
      modifies this`workflows
      ensures Valid() && (Engine(), reply) == Lifecycle.SealWorkflow(old(Engine()), id)
    {
      hide Inv, RefreshedStatus;
      Links();
      SealInv(Engine(), id);
      if id !in workflows {
        return Err(NotFound);
      }
      var outcome := if workflows[id].sealed then "already_sealed" else "sealed";
      workflows := workflows[id := workflows[id].(sealed := true)];
      RefreshWorkflow(id);
      reply := Ok(WorkflowReply(outcome, id, workflows[id].status));
    }

    method CancelWorkflow(id: Id) returns (reply: Result<WorkflowReply, Error>)
      requires Valid()
      modifies this`workflows, this`jobs
      ensures Valid() && (Engine(), reply) == Lifecycle.CancelWorkflow(old(Engine()), id)
    {
      hide Inv, RefreshedStatus, CancelMembers;
      Links();
      CancelWorkflowInv(Engine(), id);
      if id !in workflows {
        return Err(NotFound);
      }
      if !workflows[id].status.WfRunning? {
        return Ok(WorkflowReply("already_terminal", id, workflows[id].status));
      }
      if workflows[id].cancelRequested {
        return Ok(WorkflowReply("already_requested", id, workflows[id].status));
      }
      StepsListMembers(Engine(), id);
      workflows := workflows[id := workflows[id].(cancelRequested := true, sealed := true)];
      CancelWaitingMembers(id);
      RefreshWorkflow(id);
      reply := Ok(WorkflowReply("cancel_requested", id, workflows[id].status));
    }

    method CancelWaitingMembers(id: Id)
      requires id in workflows
      requires forall i :: i in jobs && jobs[i].command.workflow == Some(id) <==> i in workflows[id].steps.Values
      modifies this`jobs
      ensures jobs == CancelMembers(old(jobs), id)
    {
      var members := workflows[id].steps.Values;
      var left := members;
      while left != {}
        invariant left <= members
        invariant forall i :: i in jobs <==> i in old(jobs)
        invariant forall i :: i in old(jobs) ==>
          jobs[i] == if i in members - left && Waiting(old(jobs)[i].status) then old(jobs)[i].(status := Cancelled) else old(jobs)[i]
        decreases left
      {
        var i :| i in left;
        if Waiting(jobs[i].status) {
          jobs := jobs[i := jobs[i].(status := Cancelled)];
        }
        left := left - {i};
      }
      assert jobs == CancelMembers(old(jobs), id);
    }

    // ---- claim -----------------------------------------------------------------------------

    method Claim(q: ClaimQuery, now: Instant) returns (r: Result<ClaimReply, Error>)
      requires Valid()
      modifies this`nextId, this`jobs
      ensures Valid() && Linked(old(Engine())) && Engine() == Lifecycle.Claim(old(Engine()), q, now)
      ensures q.queue !in known ==> r == Ok(UnknownQueue)
      ensures q.queue in known && !ValidHashes(q) ==> r.Err?
      ensures q.queue in known && ValidHashes(q) ==>
        && r.Ok?
        && (var picked := Picked(old(Engine()), q, now);
            if picked == [] then r.value.Empty?
            else r.value.ClaimedJobs? && Receipts(Engine(), picked, q, now, r.value.jobs))
    {
      hide Inv, Linked, Receipts, Picked;
      Links();
      ghost var s := Engine();
      ClaimInv(s, q, now);
      if q.queue !in known {
        return Ok(UnknownQueue);
      }
      if !ValidHashes(q) {
        return Err(Validation("supported_policy_hashes"));
      }
      OrderOf(s);
      var selected := TakeEligible(q, now);
      ReceiptCount(Engine(), Picked(s, q, now), q, now, selected);
      r := Ok(if selected == [] then Empty else ClaimedJobs(selected));
    }

    /** Walk the listing and take eligible jobs until the batch is full. */
    method TakeEligible(q: ClaimQuery, now: Instant) returns (selected: seq<Claimed>)
      requires Ascending(order) && forall i :: i in order ==> i in jobs
      modifies this`nextId, this`jobs
      ensures forall i :: i in Picked(old(Engine()), q, now) ==> i in old(jobs)
      ensures Engine() == ClaimAll(old(Engine()), Picked(old(Engine()), q, now), q.worker)
      ensures Receipts(Engine(), Picked(old(Engine()), q, now), q, now, selected) && nextId >= old(nextId)
    {
      hide Receipts, Eligible, EligibleJobs, ClaimAll, ClaimOne, ClaimReceipt, Ascending;
      ghost var s := Engine();
      selected := [];
      ghost var picked: seq<Id> := [];
      NothingPicked(s, q, now);
      var k := 0;
      while k < |order|
        invariant k <= |order| && order == s.order
        invariant picked == EligibleJobs(s.jobs, order[..k], q, now) && |selected| == |picked| < BatchSize(q)
        invariant (forall i :: i in picked ==> i in s.jobs && i in order[..k]) && Engine() == ClaimAll(s, picked, q.worker)
        invariant Receipts(Engine(), picked, q, now, selected) && nextId >= s.nextId
        invariant forall m :: k <= m < |order| ==> order[m] in jobs && jobs[order[m]] == s.jobs[order[m]]
      {
        var id := order[k];
        EligibleStep(s.jobs, order, k, q, now);
        FreshInOrder(order, k);
        assert order[..k + 1] == order[..k] + [id];
        k := k + 1;
        if Eligible(jobs[id], id, q, now) {
          var receipt := ClaimJob(id, q, now);
          ClaimTouches(ClaimAll(s, picked, q.worker), id, q.worker);
          ReceiptsGrow(s, picked, id, q, now, selected, receipt);
          picked, selected := picked + [id], selected + [receipt];
          if |selected| >= q.batch {
            break;
          }
        }
      }
      EligiblePrefix(s.jobs, order, k, q, now);
      assert order[..|order|] == order;
      assert picked == Picked(s, q, now);
    }

    method ClaimJob(id: Id, q: ClaimQuery, now: Instant) returns (receipt: Claimed)
      requires id in jobs
      modifies this`nextId, this`jobs
      ensures Engine() == ClaimOne(old(Engine()), id, q.worker) && receipt == ClaimReceipt(Engine(), id, q, now)
      ensures nextId == old(nextId) + 1
    {
      var job := jobs[id];
      var attempt := nextId;
      nextId := nextId + 1;
      jobs := jobs[id := job.(status := Running, attempt := Some(attempt), worker := Some(q.worker),
                              attempts := job.attempts + 1, settled := None)];
      var duration := LeaseSeconds(q, job.command);
      receipt := Claimed(id, attempt, job.attempts + 1, job.failures, duration, now + duration * SECOND);
    }

    // ---- settlement ------------------------------------------------------------------------

    method ReplayOrLost(id: Id, attempt: Id, worker: string, command: Settle) returns (reply: Option<Reply>)
      ensures reply == Lifecycle.ReplayOrLost(Engine(), id, attempt, worker, command)
    {
      if id !in jobs || jobs[id].attempt != Some(attempt) || jobs[id].worker != Some(worker) {
        return Some(Lost(None));
      }
      var job := jobs[id];
      if job.settled.Some? {
        if job.settled.value == command {
          return Some(AlreadySettled(job.status, job.command.scheduledAt));
        }
        return Some(SettleConflict(job.status, job.command.scheduledAt));
      }
      if !job.status.Running? {
        return Some(Lost(Some(job.status)));
      }
      reply := None;
    }

    /** Settle the running job, and let its workflow advance when it is over. */
    method FinishJob(id: Id, command: Settle, status: Status, outcome: Outcome, at: Option<Instant>)
      requires Walkable(Engine()) && id in jobs
      requires jobs[id].command.workflow.Some? ==> jobs[id].command.workflow.value in workflows
      modifies this`jobs, this`active, this`settlements, this`workflows
      ensures Engine() == Finish(old(Engine()), id, command, status, outcome, at)
    {
      hide Advance, Walkable;
      ghost var s := Engine();
      CloseJob(id, command, status, outcome, at);
      if jobs[id].command.workflow.Some? && Terminal(status) {
        CloseWalks(s, id, command, status, outcome, at);
        AdvanceWorkflow(id);
      }
    }

    /** Record the settlement, and give the key back when the job is over. */
    method CloseJob(id: Id, command: Settle, status: Status, outcome: Outcome, at: Option<Instant>)
      requires id in jobs
      modifies this`jobs, this`active, this`settlements
      ensures Engine() == Close(old(Engine()), id, command, status, outcome, at)
    {
      ghost var s := Engine();
      var job := jobs[id];
      jobs := jobs[id := job.(status := status, settled := Some(command))];
      if at.Some? {
        jobs := jobs[id := jobs[id].(command := job.command.(scheduledAt := at))];
      }
      Overwritten(s.jobs, id, job.(status := status, settled := Some(command)), jobs[id]);
      if Terminal(status) && job.command.key.Some? {
        active := active - {(job.command.queue, job.command.key.value)};
      }
      settlements := settlements + [Settlement(id, command, outcome)];
    }

    method AdvanceWorkflow(id: Id)
      requires Walkable(Engine()) && id in jobs
      requires jobs[id].command.workflow.Some? && jobs[id].command.workflow.value in workflows
      modifies this`jobs, this`workflows
      ensures Engine() == Advance(old(Engine()), id)
    {
      hide Unblocked, Cascaded, RefreshedStatus;
      var wf := jobs[id].command.workflow;
      if jobs[id].status.Succeeded? {
        UnblockDependents(id);
      } else {
        CancelDescendants(id);
      }
      RefreshWorkflow(wf.value);
    }

    method UnblockDependents(id: Id)
      requires id in jobs && forall i :: i in jobs <==> i in order
      modifies this`jobs
      ensures jobs == Unblocked(old(jobs), id)
    {
      ghost var was := jobs;
      ghost var goal := Unblocked(was, id);
      var k := 0;
      while k < |order|
        invariant k <= |order| && PartlyUnblocked(was, jobs, id, order[..k])
      {
        var i := order[k];
        UnblockedParents(was, jobs, id, order[..k], i);
        assert order[..k + 1] == order[..k] + [i];
        if jobs[i].command.workflow == jobs[id].command.workflow && jobs[i].status.Blocked? && id in Deps(jobs[i])
           && AllSucceeded(jobs, Deps(jobs[i])) {
          jobs := jobs[i := jobs[i].(status := Queued)];
        }
        k := k + 1;
      }
      assert order[..k] == order;
      assert jobs == goal;
    }

    /** Cancel along the dependency edges: a frontier of lost jobs, each visited once. */
    method CancelDescendants(id: Id)
      requires Walkable(Engine()) && id in jobs
      modifies this`jobs
      ensures jobs == Cascaded(old(jobs), id)
    {
      hide Cascaded, Doomed, IdsOk, GraphOk;
      ghost var was := jobs;
      WalkListing(Engine());
      var wf := jobs[id].command.workflow;
      var frontier, seen: set<Id> := [id], {};
      ghost var lost: set<Id> := {};
      NothingLost(was, wf, id);
      while frontier != []
        invariant forall i :: i in jobs <==> i in order
        invariant lost <= was.Keys && jobs == WithLost(was, lost)
        invariant LostAreDoomed(was, wf, id, lost) && Visited(seen, frontier, lost, id)
        invariant VisitedClosed(was, wf, seen, lost)
        decreases |was.Keys - lost|, |frontier|
      {
        var failed := frontier[|frontier| - 1];
        ghost var before := frontier;
        frontier := frontier[..|frontier| - 1];
        assert before == frontier + [failed];
        if failed in seen {
          continue;
        }
        ghost var more := Dependents(jobs, wf, failed);
        ghost var rest := frontier;
        frontier := CancelDependents(failed, wf, frontier);
        CascadeStep(was, wf, id, seen, before, rest, failed, lost, frontier, more);
        seen := seen + {failed};
        LostGrows(was, lost, more);
        if more == {} {
          NoNew(rest, frontier);
        }
        lost := lost + more;
      }
      CascadeDone(was, id, seen, lost);
    }

    /** Cancel what waits on one lost job; each cancelled job joins the frontier. */
    method CancelDependents(failed: Id, wf: Option<Id>, frontier: seq<Id>) returns (longer: seq<Id>)
      requires forall i :: i in jobs <==> i in order
      modifies this`jobs
      ensures jobs == WithLost(old(jobs), Dependents(old(jobs), wf, failed))
      ensures exists added :: longer == frontier + added && Elements(added) == Dependents(old(jobs), wf, failed)
    {
      ghost var was := jobs;
      ghost var goal := Dependents(was, wf, failed);
      longer := frontier;
      ghost var added: seq<Id> := [];
      assert PartlyLost(was, jobs, goal, [], []);
      hide PartlyLost, Dependents, WithLost;
      var k := 0;
      assert order[..0] == [];
      while k < |order|
        invariant k <= |order| && longer == frontier + added
        invariant PartlyLost(was, jobs, goal, order[..k], added)
      {
        var i := order[k];
        assert order[..k + 1] == order[..k] + [i];
        PartlyLostNext(was, jobs, wf, failed, order[..k], added, i);
        if DependsDirectly(jobs, wf, failed, i) {
          jobs := jobs[i := jobs[i].(status := Cancelled)];
          longer := longer + [i];
          added := added + [i];
        }
        k := k + 1;
      }
      assert order[..k] == order;
      DependentsAreJobs(was, wf, failed);
      PartlyLostAll(was, jobs, goal, order, added);
      assert longer == frontier + added && Elements(added) == goal;
    }

    method Complete(id: Id, attempt: Id, worker: string, followups: seq<Followup>, policy: Option<string>, now: Instant)
      returns (r: Result<Reply, Error>)
      requires Valid()
      modifies this
      ensures Valid() && Linked(old(Engine()))
      ensures (Engine(), r) == SettleJob(old(Engine()), id, attempt, worker, DoComplete(followups, policy), now)
      ensures admissions == old(admissions) && schedules == old(schedules) && nextId >= old(nextId)
    {
      hide Inv, Linked, Walkable, Plan, Finish, AddChildren, NewMembers;
      Links();
      ghost var s := Engine();
      SettleInv(s, id, attempt, worker, DoComplete(followups, policy), now);
      var fence := ReplayOrLost(id, attempt, worker, Settle.Complete);
      if fence.Some? {
        return Ok(fence.value);
      }
      RunningWorkflow(s, id);
      var job := jobs[id];
      if job.policy.Some? {
        if policy.None? {
          return Err(Validation("continuation_policy_required"));
        }
        if policy != job.policy {
          return Err(Conflict("continuation_policy_mismatch"));
        }
      } else if policy.Some? {
        return Err(Conflict("continuation_policy_mismatch"));
      }
      var wf := job.command.workflow;
      if exists f :: f in followups && f.member {
        if wf.None? || job.policy.None? {
          return Err(Validation("continuation_parent_not_member"));
        }
      }
      var planned := PlanChildren(id, followups);
      if planned.Err? {
        return Err(planned.error);
      }
      var children := planned.value;
      var members := NewMembers(children);
      if members > 0 && wf.Some? {
        var w := workflows[wf.value];
        if w.limit.None? || w.admitted + members > w.limit.value {
          return Err(Conflict("workflow_member_limit_exceeded"));
        }
      }
      InvWalks(s);
      FinishJob(id, Settle.Complete, Succeeded, OkOutcome, None);
      InsertChildren(id, job.policy, children);
      r := Ok(Settled(OkOutcome, Succeeded, None));
    }

    /** Check every follow-up before anything is changed. */
    method PlanChildren(id: Id, followups: seq<Followup>) returns (r: Result<seq<Child>, Error>)
      requires Linked(Engine()) && id in jobs
      ensures r == Plan(Engine(), id, followups)
    {
      hide Linked, PlanOne;
      ghost var s := Engine();
      var children: seq<Child> := [];
      var seen: set<string> := {};
      var k := 0;
      while k < |followups|
        invariant k <= |followups| && Plan(s, id, followups[..k]) == Ok(children)
        invariant forall step :: step in seen <==> StepSeen(followups[..k], step)
      {
        var f := followups[k];
        assert followups[..k + 1][..k] == followups[..k];
        if f.step in seen {
          PlanErrorStays(s, id, followups, k + 1);
          return Err(Config("followup steps must be distinct"));
        }
        StepsSeen(followups, k, seen);
        seen := seen + {f.step};
        var child := PlanChild(id, f);
        if child.Err? {
          PlanErrorStays(s, id, followups, k + 1);
          return Err(child.error);
        }
        children := children + [child.value];
        k := k + 1;
      }
      assert followups[..k] == followups;
      r := Ok(children);
    }

    method PlanChild(id: Id, f: Followup) returns (r: Result<Child, Error>)
      requires Linked(Engine()) && id in jobs
      ensures r == PlanOne(Engine(), id, f)
    {
      var parent := jobs[id].command;
      var queue := ChildQueue(parent, f);
      if queue !in known {
        return Err(NotFound);
      }
      var identity := (queue, Chain(id, f.step));
      var c := ChildCommand(parent, id, f);
      if f.member && parent.workflow.Some? && queue !in workflows[parent.workflow.value].queues {
        return Err(Validation("continuation_queue_undeclared"));
      }
      if identity !in active {
        return Ok(Child(c, None));
      }
      var existing := active[identity];
      if jobs[existing].parent != Some(id) || jobs[existing].command != c {
        return Err(Internal);
      }
      r := Ok(Child(c, Some(existing)));
    }

    method InsertChildren(parent: Id, policy: Option<string>, children: seq<Child>)
      modifies this`nextId, this`jobs, this`order, this`active, this`workflows, this`enqueues
      ensures Engine() == AddChildren(old(Engine()), parent, policy, children)
      ensures nextId >= old(nextId)
    {
      ghost var s := Engine();
      var k := 0;
      while k < |children|
        invariant k <= |children| && Engine() == AddChildren(s, parent, policy, children[..k]) && nextId >= s.nextId
      {
        assert children[..k + 1][..k] == children[..k];
        InsertChild(parent, policy, children[k]);
        k := k + 1;
      }
      assert children[..k] == children;
    }

    method InsertChild(parent: Id, policy: Option<string>, child: Child)
      modifies this`nextId, this`jobs, this`order, this`active, this`workflows, this`enqueues
      ensures Engine() == AddChild(old(Engine()), parent, policy, child)
      ensures nextId >= old(nextId)
    {
      var c := child.command;
      if child.existing.Some? {
        enqueues := enqueues + [Enqueued(child.existing.value, c, false, Some(parent))];
      } else {
        StoreChild(parent, policy, c);
      }
    }

    method StoreChild(parent: Id, policy: Option<string>, c: Command)
      modifies this`nextId, this`jobs, this`order, this`active, this`workflows, this`enqueues
      ensures Engine() == AddChild(old(Engine()), parent, policy, Child(c, None)) && nextId >= old(nextId)
    {
      hide AddChild, StepRecorded, NewJob;
      ChildFields(Engine(), parent, policy, c);
      var id := nextId;
      nextId := nextId + 1;
      StoreJob(id, NewJob(c, Queued, Some(parent), if c.workflow.Some? then policy else None), c);
      RecordStep(id, c);
      enqueues := enqueues + [Enqueued(id, c, true, Some(parent))];
    }

    method StoreJob(id: Id, job: Job, c: Command)
      modifies this`jobs, this`order, this`active
      ensures jobs == old(jobs)[id := job] && order == old(order) + [id]
      ensures active == if c.key.Some? then old(active)[(c.queue, c.key.value) := id] else old(active)
    {
      jobs := jobs[id := job];
      order := order + [id];
      if c.key.Some? {
        active := active[(c.queue, c.key.value) := id];
      }
    }

    method RecordStep(id: Id, c: Command)
      modifies this`workflows
      ensures workflows == StepRecorded(old(workflows), id, c)
    {
      if c.workflow.Some? && c.step.Some? && c.workflow.value in workflows {
        var w := workflows[c.workflow.value];
        workflows := workflows[c.workflow.value := w.(steps := w.steps[c.step.value := id], admitted := w.admitted + 1)];
      }
    }

    method Fail(id: Id, attempt: Id, worker: string, retryable: bool, retryAfter: Option<int>, now: Instant)
      returns (r: Result<Reply, Error>)
      requires Valid()
      modifies this
      ensures Valid() && Linked(old(Engine()))
      ensures (Engine(), r) == SettleJob(old(Engine()), id, attempt, worker, DoFail(retryable, retryAfter), now)
      ensures admissions == old(admissions) && schedules == old(schedules) && nextId >= old(nextId)
    {
      hide Inv, Linked, Walkable, Finish;
      Links();
      ghost var s := Engine();
      SettleInv(s, id, attempt, worker, DoFail(retryable, retryAfter), now);
      var fence := ReplayOrLost(id, attempt, worker, Settle.Fail);
      if fence.Some? {
        return Ok(fence.value);
      }
      RunningWorkflow(s, id);
      InvWalks(s);
      CountWalks(s, id);
      jobs := jobs[id := jobs[id].(failures := jobs[id].failures + 1)];
      if retryable && jobs[id].failures < AttemptLimit(jobs[id].command) {
        var at := now + (if retryAfter.Some? then retryAfter.value else 0) * SECOND;
        FinishJob(id, Settle.Fail, Queued, RetryScheduled, Some(at));
        return Ok(Settled(RetryScheduled, Queued, Some(at)));
      }
      FinishJob(id, Settle.Fail, Failed, Dead, None);
      r := Ok(Settled(Dead, Failed, None));
    }

    method Snooze(id: Id, attempt: Id, worker: string, delay: int, now: Instant) returns (r: Result<Reply, Error>)
      requires Valid()
      modifies this
      ensures Valid() && Linked(old(Engine()))
      ensures (Engine(), r) == SettleJob(old(Engine()), id, attempt, worker, DoSnooze(delay), now)
      ensures admissions == old(admissions) && schedules == old(schedules) && nextId >= old(nextId)
    {
      hide Inv, Linked, Walkable, Finish;
      Links();
      SettleInv(Engine(), id, attempt, worker, DoSnooze(delay), now);
      var fence := ReplayOrLost(id, attempt, worker, Settle.Snooze);
      if fence.Some? {
        return Ok(fence.value);
      }
      RunningWorkflow(Engine(), id);
      InvWalks(Engine());
      var at := now + delay * SECOND;
      FinishJob(id, Settle.Snooze, Queued, OkOutcome, Some(at));
      r := Ok(Settled(OkOutcome, Queued, Some(at)));
    }

    method Release(id: Id, attempt: Id, worker: string, delay: int, now: Instant) returns (r: Result<Reply, Error>)
      requires Valid()
      modifies this
      ensures Valid() && Linked(old(Engine()))
      ensures (Engine(), r) == SettleJob(old(Engine()), id, attempt, worker, DoRelease(delay), now)
      ensures admissions == old(admissions) && schedules == old(schedules) && nextId >= old(nextId)
    {
      hide Inv, Linked, Walkable, Finish;
      Links();
      SettleInv(Engine(), id, attempt, worker, DoRelease(delay), now);
      var fence := ReplayOrLost(id, attempt, worker, Settle.Release);
      if fence.Some? {
        return Ok(fence.value);
      }
      RunningWorkflow(Engine(), id);
      InvWalks(Engine());
      var at := now + delay * SECOND;
      FinishJob(id, Settle.Release, Queued, OkOutcome, Some(at));
      r := Ok(Settled(OkOutcome, Queued, Some(at)));
    }

    method CancelRunning(id: Id, attempt: Id, worker: string, now: Instant) returns (r: Result<Reply, Error>)
      requires Valid()
      modifies this
      ensures Valid() && Linked(old(Engine()))
      ensures (Engine(), r) == SettleJob(old(Engine()), id, attempt, worker, DoCancelRunning, now)
      ensures admissions == old(admissions) && schedules == old(schedules) && nextId >= old(nextId)
    {
      hide Inv, Linked, Walkable, Finish;
      Links();
      SettleInv(Engine(), id, attempt, worker, DoCancelRunning, now);
      var fence := ReplayOrLost(id, attempt, worker, Settle.CancelRunning);
      if fence.Some? {
        return Ok(fence.value);
      }
      RunningWorkflow(Engine(), id);
      InvWalks(Engine());
      FinishJob(id, Settle.CancelRunning, Cancelled, OkOutcome, None);
      r := Ok(Settled(OkOutcome, Cancelled, None));
    }

    // ---- admissions ------------------------------------------------------------------------

    /** `handle` is absent when the caller asks for a fresh one. */
    method ReserveAdmission(queue: string, key: string, intent: string, handle: Option<Id>, reservation: int, receiptTtl: int, now: Instant)
      returns (r: Result<ReserveReply, Error>)
      requires Valid()
      modifies this`nextId, this`admissions
      ensures Valid()
      ensures handle.Some? ==> Engine() == old(Engine())
      ensures handle.None? ==> Engine() == old(Engine()).(nextId := old(nextId) + 1)
      ensures var h := if handle.Some? then handle.value else old(nextId);
              (admissions, r) == Reserve(known, old(admissions), queue, key, intent, h, reservation, receiptTtl, now)
    {
      hide Inv;
      var h;
      if handle.Some? {
        h := handle.value;
      } else {
        h := nextId;
        SpendIdInv(Engine(), known);
        nextId := nextId + 1;
      }
      if !ValidTtls(reservation, receiptTtl) {
        return Err(Validation("admission"));
      }
      if queue !in known {
        return Err(NotFound);
      }
      var identity := (queue, key);
      if Free(admissions, identity, now) {
        var at := now + reservation * SECOND;
        admissions := admissions[identity := Admission(intent, h, at, receiptTtl, Reserved, None, None, None, None)];
        return Ok(ReserveGranted(h, at));
      }
      var admission := admissions[identity];
      if admission.intent != intent {
        return Err(Conflict("idempotency_mismatch"));
      }
      if admission.phase.Admitted? {
        return Ok(ReserveAdmitted(admission.job, admission.receipt, admission.receiptExpires));
      }
      if admission.handle == h {
        return Ok(ReserveGranted(h, admission.expires));
      }
      r := Ok(ReservePending(admission.expires, RetryAfter(admission.expires, now)));
    }

    method FinishAdmission(queue: string, key: string, handle: Id, job: AdmissionJob, receipt: string, now: Instant)
      returns (r: Result<FinishReply, Error>)
      requires Valid()
      modifies this
      ensures Valid() && Linked(old(Engine())) && schedules == old(schedules) && nextId >= old(nextId)
      ensures (Engine(), admissions, r)
           == Admissions.FinishAdmission(old(Engine()), old(admissions), queue, key, handle, job, receipt, now)
    {
      hide Inv, Linked;
      Links();
      var identity := (queue, key);
      if identity !in admissions {
        return Err(NotFound);
      }
      var admission := admissions[identity];
      if admission.handle != handle {
        return Err(Conflict("reservation_conflict"));
      }
      if admission.phase.Admitted? {
        if admission.finished != Some((job, receipt)) {
          return Err(Conflict("finish_mismatch"));
        }
        return Ok(FinishExisted(admission.job, admission.receipt, admission.receiptExpires));
      }
      if admission.phase.Withdrawn? {
        return Err(Conflict("reservation_cancelled"));
      }
      if admission.expires <= now {
        return Err(Conflict("reservation_expired"));
      }
      var enqueued := Enqueue(JobCommand(queue, job));
      var id := enqueued.value.job;
      var until := now + admission.receiptTtl * SECOND;
      admissions := admissions[identity := admission.(phase := Admitted, finished := Some((job, receipt)), job := Some(id),
                                                      receipt := Some(receipt), receiptExpires := Some(until))];
      r := Ok(FinishCreated(Some(id), Some(receipt), Some(until)));
    }

    method CancelAdmission(queue: string, key: string, handle: Id, now: Instant) returns (r: Result<CancelReply, Error>)
      requires Valid()
      modifies this`admissions
      ensures Valid() && (admissions, r) == Admissions.CancelAdmission(old(admissions), queue, key, handle, now)
    {
      hide Inv;
      var identity := (queue, key);
      if identity !in admissions {
        return Err(NotFound);
      }
      var admission := admissions[identity];
      if admission.handle != handle {
        return Err(Conflict("reservation_conflict"));
      }
      if admission.phase.Admitted? {
        return Ok(AlreadyAdmitted(admission.job, admission.receipt, admission.receiptExpires));
      }
      if admission.phase.Withdrawn? {
        return Ok(AlreadyCancelled);
      }
      if admission.expires <= now {
        return Ok(Expired);
      }
      admissions := admissions[identity := admission.(phase := Withdrawn)];
      r := Ok(CancelledNow);
    }

    // ---- schedules -------------------------------------------------------------------------

    method PutSchedule(name: string, d: Definition, expected: Option<int>, now: Instant) returns (r: Result<WriteOutcome, Error>)
      requires Valid()
      modifies this`nextId, this`schedules
      ensures Valid()
      ensures d.target.queue !in known || (name !in old(schedules) && expected.Some?) ==>
        r == Err(NotFound) && Engine() == old(Engine()) && schedules == old(schedules)
      ensures d.target.queue in known && name !in old(schedules) && expected.None? ==>
        && r == Ok(WriteCreated) && Engine() == old(Engine()).(nextId := old(nextId) + 1)
        && schedules == old(schedules)[name := NewSchedule(old(nextId), d, now)]
      ensures d.target.queue in known && name in old(schedules) ==>
        var x := Rewrite(old(schedules)[name], d, expected, now);
        Engine() == old(Engine()) && schedules == old(schedules)[name := x.0] && r == x.1
    {
      hide Inv;
      if d.target.queue !in known {
        return Err(NotFound);
      }
      if name !in schedules {
        if expected.Some? {
          return Err(NotFound);
        }
        SpendIdInv(Engine(), known);
        schedules := schedules[name := NewSchedule(nextId, d, now)];
        nextId := nextId + 1;
        return Ok(WriteCreated);
      }
      r := RewriteSchedule(name, d, expected, now);
    }

    method RewriteSchedule(name: string, d: Definition, expected: Option<int>, now: Instant) returns (r: Result<WriteOutcome, Error>)
      requires name in schedules && SchedulesOk()
      modifies this`schedules
      ensures SchedulesOk()
      ensures var x := Rewrite(old(schedules)[name], d, expected, now); schedules == old(schedules)[name := x.0] && r == x.1
    {
      var x := schedules[name];
      Unwritten(schedules, name);
      if expected.None? {
        return if x.definition != d then Err(Conflict("schedule_mismatch")) else Ok(WriteUnchanged);
      }
      if expected.value != x.version {
        return Err(Conflict("schedule_version_conflict"));
      }
      if x.state.Retired? {
        return Err(Conflict("schedule_retired"));
      }
      if x.definition == d && x.state == StateOf(d) {
        return Ok(WriteUnchanged);
      }
      var pauseOnly := PauseOnly(x, d);
      var y := x.(definition := d, state := StateOf(d), version := x.version + 1, token := None, claimAsOf := None,
                  claimExpires := None, lastToken := None, lastAction := None);
      if !pauseOnly {
        y := y.(initialized := false, next := now);
      }
      StoreSchedule(name, y);
      r := Ok(WriteUpdated);
    }

    method RetireSchedule(name: string, expected: int) returns (r: Result<WriteOutcome, Error>)
      requires Valid()
      modifies this`schedules
      ensures Valid()
      ensures name !in old(schedules) ==> r == Err(NotFound) && schedules == old(schedules)
      ensures name in old(schedules) ==>
        var x := Retire(old(schedules)[name], expected); schedules == old(schedules)[name := x.0] && r == x.1
    {
      hide Inv;
      if name !in schedules {
        return Err(NotFound);
      }
      var x := schedules[name];
      Unwritten(schedules, name);
      if expected != x.version {
        return Err(Conflict("schedule_version_conflict"));
      }
      if x.state.Retired? {
        return Ok(AlreadyRetired);
      }
      schedules := schedules[name := x.(state := Retired, version := x.version + 1, token := None, claimAsOf := None,
                                        claimExpires := None, lastToken := None, lastAction := None)];
      r := Ok(WriteRetired);
    }

    /** Replace one schedule by a later version of itself. */
    method StoreSchedule(name: string, y: Schedule)
      requires name in schedules && schedules[name].id == y.id && TokensOk(y, nextId) && SchedulesOk()
      modifies this`schedules
      ensures schedules == old(schedules)[name := y] && SchedulesOk()
    {
      schedules := schedules[name := y];
    }

    method ClaimSchedules(limit: int, lease: int, now: Instant) returns (r: Result<seq<NamedClaim>, Error>)
      requires Valid()
      modifies this`nextId, this`schedules
      ensures Valid()
      ensures !ValidClaimQuery(limit, lease) ==>
        r == Err(Validation("schedule")) && schedules == old(schedules) && Engine() == old(Engine())
      ensures ValidClaimQuery(limit, lease) ==>
        && r.Ok? && Engine() == old(Engine()).(nextId := old(nextId) + |r.value|)
        && LeasedFor(old(schedules), schedules, r.value, old(nextId), lease, now)
        && EarliestFirst(old(schedules), r.value, limit, now)
    {
      hide Inv, LeasedFor, EarliestFirst, ClaimedPrefix, Ranking, Claimable, Leased;
      if !ValidClaimQuery(limit, lease) {
        return Err(Validation("schedule"));
      }
      ghost var was := schedules;
      var ranked := RankedSchedules();
      var claims: seq<NamedClaim> := [];
      NothingClaimed(was, ranked, nextId, lease, now);
      var k := 0;
      while k < |ranked|
        invariant k <= |ranked| && Valid() && |claims| < limit
        invariant Engine() == old(Engine()).(nextId := old(nextId) + |claims|)
        invariant Ranking(was, ranked) && ClaimedPrefix(was, ranked, k, claims, now)
        invariant LeasedFor(was, schedules, claims, old(nextId), lease, now)
      {
        var n := ranked[k].1;
        RankedHere(was, schedules, ranked, k, claims, old(nextId), lease, now);
        if !Claimable(schedules[n], now) {
          PassNext(was, ranked, k, claims, now);
          k := k + 1;
          continue;
        }
        var claim := (n, ClaimOf(schedules[n], nextId, lease, now));
        ClaimNext(was, ranked, k, claims, now, claim);
        LeaseNext(was, schedules, claims, old(nextId), lease, now, n);
        LeaseSchedule(n, lease, now);
        claims := claims + [claim];
        k := k + 1;
        if |claims| == limit {
          break;
        }
      }
      ClaimsDone(was, ranked, k, claims, limit, now);
      r := Ok(claims);
    }

    method LeaseSchedule(name: string, lease: int, now: Instant)
      requires Valid() && name in schedules
      modifies this`nextId, this`schedules
      ensures Valid() && Engine() == old(Engine()).(nextId := old(nextId) + 1)
      ensures schedules == old(schedules)[name := Leased(old(schedules)[name], old(nextId), lease, now)]
    {
      hide Inv;
      SpendIdInv(Engine(), known);
      var token := nextId;
      nextId := nextId + 1;
      StoreSchedule(name, Leased(schedules[name], token, lease, now));
    }

    method RankedSchedules() returns (ranked: seq<(Instant, string)>)
      ensures Ranking(schedules, ranked)
    {
      var names := schedules.Keys;
      var listed: seq<(Instant, string)> := [];
      while names != {}
        invariant names <= schedules.Keys && Distinct(listed)
        invariant forall k :: 0 <= k < |listed| ==> listed[k].1 in schedules.Keys - names && listed[k] == Rank(schedules, listed[k].1)
        invariant forall n :: n in schedules.Keys - names ==> Rank(schedules, n) in listed
        decreases names
      {
        var n :| n in names;
        listed := listed + [Rank(schedules, n)];
        names := names - {n};
      }
      ranked := Sort(listed, TimedLe);
      SortedRanking(schedules, listed);
    }

    /** The name of the schedule with this id. */
    method ScheduleById(id: Id) returns (name: Option<string>)
      ensures name.Some? ==> name.value in schedules && schedules[name.value].id == id
      ensures name.None? ==> forall n :: n in schedules ==> schedules[n].id != id
    {
      if exists n :: n in schedules && schedules[n].id == id {
        var n :| n in schedules && schedules[n].id == id;
        return Some(n);
      }
      name := None;
    }

    method FireSchedule(id: Id, token: Id, version: int, due: seq<Instant>, next: Instant, now: Instant)
      returns (r: Result<ActionReply, Error>)
      requires Valid()
      modifies this
      ensures Valid() && Linked(old(Engine())) && admissions == old(admissions) && nextId >= old(nextId)
      ensures (forall n :: n in old(schedules) ==> old(schedules)[n].id != id) ==>
        r == Err(NotFound) && Engine() == old(Engine()) && schedules == old(schedules)
      ensures forall n :: n in old(schedules) && old(schedules)[n].id == id ==>
        var f := Fire(old(Engine()), old(schedules)[n], token, version, due, next, now);
        Engine() == f.0 && schedules == old(schedules)[n := f.1] && r == Ok(f.2)
    {
      hide Inv, Linked, LifecycleRuns.Enqueue;
      Links();
      var found := ScheduleById(id);
      if found.None? {
        return Err(NotFound);
      }
      var name := found.value;
      var x := schedules[name];
      Unwritten(schedules, name);
      if Replay(x, token) {
        return Ok(x.lastAction.value.(replayed := true));
      }
      if StaleFire(x, token, version, now) {
        return Ok(ReplyNow(x, Stale, 0));
      }
      var jobs := EnqueueOccurrences(x.id, x.definition.target, due);
      var outcome := if !x.initialized then Initialized else if x.definition.catchup.Skip? then Skipped else Fired;
      var y := x.(initialized := true, next := next);
      if due != [] {
        y := y.(last := Some(due[|due| - 1]));
      }
      y := y.(token := None, claimAsOf := None, claimExpires := None, retryNotBefore := None);
      var reply := ReplyNow(y, outcome, jobs);
      y := y.(lastToken := Some(token), lastAction := Some(reply));
      StoreSchedule(name, y);
      r := Ok(reply);
    }

    method EnqueueOccurrences(id: Id, t: Target, due: seq<Instant>) returns (created: nat)
      requires Valid()
      modifies this
      ensures Valid() && Linked(old(Engine()))
      ensures (Engine(), created) == EnqueueAll(old(Engine()), id, t, due)
      ensures admissions == old(admissions) && schedules == old(schedules) && nextId >= old(nextId)
    {
      hide Inv, Linked;
      Links();
      ghost var s := Engine();
      created := 0;
      var k := 0;
      while k < |due|
        invariant k <= |due| && Valid() && (Engine(), created) == EnqueueAll(s, id, t, due[..k])
        invariant admissions == old(admissions) && schedules == old(schedules) && nextId >= old(nextId)
      {
        assert due[..k + 1][..k] == due[..k];
        var result := Enqueue(OccurrenceCommand(id, t, due[k]));
        if result.Ok? && result.value.Created? {
          created := created + 1;
        }
        k := k + 1;
      }
      assert due[..k] == due;
    }

    method ScheduleError(id: Id, token: Id, version: int, retrySeconds: int, now: Instant) returns (r: Result<ActionReply, Error>)
      requires Valid()
      modifies this`schedules
      ensures Valid()
      ensures (forall n :: n in old(schedules) ==> old(schedules)[n].id != id) ==> r == Err(NotFound) && schedules == old(schedules)
      ensures forall n :: n in old(schedules) && old(schedules)[n].id == id ==>
        var e := RecordError(old(schedules)[n], token, version, retrySeconds, now);
        schedules == old(schedules)[n := e.0] && r == Ok(e.1)
    {
      hide Inv;
      var found := ScheduleById(id);
      if found.None? {
        return Err(NotFound);
      }
      var name := found.value;
      var x := schedules[name];
      Unwritten(schedules, name);
      if x.version != version || x.token != Some(token) || !x.state.Active? {
        return Ok(ReplyNow(x, Stale, 0));
      }
      var y := x.(token := None, claimAsOf := None, claimExpires := None, retryNotBefore := Some(now + retrySeconds * SECOND));
      StoreSchedule(name, y);
      r := Ok(ReplyNow(y, ErrorRecorded, 0));
    }
  }
}

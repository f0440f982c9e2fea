/** What callers get from enqueue, claim, requeue and cancel, across the functions involved. */
module LifecycleCalls {
  import opened TaskTypes
  import opened Lifecycle
  import opened LifecycleInvariant
  import opened LifecycleMoves
  import opened LifecycleSettle
  import opened LifecycleRuns
  import opened LifecycleHistory
  import opened Ordering

  // ---- idempotency ---------------------------------------------------------------------------

  lemma LiveHolder(jobs: map<Id, Job>, active: map<(string, Key), Id>, i: Id)
    requires ActiveOk(jobs, active) && i in jobs && jobs[i].command.key.Some? && !Terminal(jobs[i].status)
    ensures var k := (jobs[i].command.queue, jobs[i].command.key.value); k in active && active[k] == i
  {
  }

  lemma ActiveOf(s: State)
    requires Inv(s)
    ensures ActiveOk(s.jobs, s.active)
  {
    hide IdsOk, GraphOk, StatusOk, AttemptsOk, MembersOk, WorkflowKeysOk, ParentsOk, AccountsOk;
  }

  /** A keyed job answers for its key as long as it lives: whatever is called in between, enqueueing the key again
      names this job and creates nothing. */
  lemma IdempotentWhileLive(s: State, ops: seq<Op>, i: Id, c: Command)
    requires Inv(s) && ValidRun(ops) && i in s.jobs && s.jobs[i].command.key.Some? && c.workflow.None?
    requires c.queue == s.jobs[i].command.queue && c.key == s.jobs[i].command.key
    ensures var t := Run(s, ops);
            && Linked(t) && i in t.jobs
            && (!Terminal(t.jobs[i].status) ==>
                  && EnqueuePlain(t, c).1 == Ok(Existed(i, t.jobs[i].command.scheduledAt))
                  && EnqueuePlain(t, c).0.jobs == t.jobs && EnqueuePlain(t, c).0.order == t.order)
  {
    hide Inv, Linked, AllEvolve;
    var t := Run(s, ops);
    RunEvolves(s, ops);
    SurvivesWithKey(s, t, i);
    InvLinks(t);
    ActiveOf(t);
    if !Terminal(t.jobs[i].status) { LiveHolder(t.jobs, t.active, i); }
  }

  lemma SurvivesWithKey(s: State, t: State, i: Id)
    requires AllEvolve(s, t) && i in s.jobs
    ensures i in t.jobs && t.jobs[i].command.queue == s.jobs[i].command.queue && t.jobs[i].command.key == s.jobs[i].command.key
  {
    assert Evolves(s.nextId, s.jobs[i], t.jobs[i]);
    SameKey(s.jobs[i], t.jobs[i]);
  }

  // ---- claims --------------------------------------------------------------------------------

  predicate Fresh(j: Job, j': Job, worker: string, n: Id) {
    && j'.status.Running? && j'.worker == Some(worker) && j'.attempt.Some? && j'.attempt.value >= n
    && j'.attempts == j.attempts + 1 && j'.settled.None? && j'.command == j.command && j'.failures == j.failures
  }

  lemma ClaimedOne(s: State, id: Id, worker: string, n: Id)
    requires id in s.jobs && n <= s.nextId
    ensures var t := ClaimOne(s, id, worker);
            && t.nextId == s.nextId + 1 && t.jobs.Keys == s.jobs.Keys && Fresh(s.jobs[id], t.jobs[id], worker, n)
            && (forall i :: i in s.jobs && i != id ==> t.jobs[i] == s.jobs[i])
  {
  }

  lemma {:induction false} ClaimedJobs(s: State, ids: seq<Id>, worker: string)
    requires (forall i :: i in ids ==> i in s.jobs) && Ascending(ids)
    ensures var t := ClaimAll(s, ids, worker);
            && t.nextId == s.nextId + |ids|
            && (forall i :: i in s.jobs ==> i in t.jobs && if i in ids then Fresh(s.jobs[i], t.jobs[i], worker, s.nextId) else t.jobs[i] == s.jobs[i])
  {
    hide ClaimOne, Fresh;
    if ids != [] {
      var n := |ids| - 1;
      ClaimedJobs(s, ids[..n], worker);
      ClaimedOne(ClaimAll(s, ids[..n], worker), ids[n], worker, s.nextId);
      assert ids[n] !in ids[..n];
      forall i | i in s.jobs ensures i in ids <==> i in ids[..n] || i == ids[n] {
        assert ids == ids[..n] + [ids[n]];
      }
    }
  }

  /** A claim hands out eligible jobs only, each with a new attempt, oldest first: no eligible job is passed over
      for a younger one, one is left behind only when the batch is full, and nothing else changes. */
  lemma ClaimIsExact(s: State, q: ClaimQuery, now: Instant, i: Id)
    requires Inv(s) && Linked(s) && q.queue in s.known && ValidHashes(q) && i in s.jobs
    ensures var t, picked := Claim(s, q, now), Picked(s, q, now);
            && i in t.jobs
            && (i in picked ==> Eligible(s.jobs[i], i, q, now) && Fresh(s.jobs[i], t.jobs[i], q.worker, s.nextId))
            && (i !in picked ==> t.jobs[i] == s.jobs[i])
            && (Eligible(s.jobs[i], i, q, now) && i !in picked ==>
                  |picked| == BatchSize(q) && forall k :: 0 <= k < |picked| ==> picked[k] < i)
            && t.order == s.order && t.active == s.active && t.workflows == s.workflows && t.settlements == s.settlements
  {
    hide Inv, Linked, Eligible, Fresh;
    var picked := Picked(s, q, now);
    PickedAreJobs(s, q, now);
    ListedJobs(s);
    EligibleAscend(s.jobs, s.order, q, now);
    ClaimedJobs(s, picked, q.worker);
    ClaimFrame(s, picked, q.worker);
    EligibleFacts(s.jobs, s.order, q, now);
    var all := EligibleJobs(s.jobs, s.order, q, now);
    if Eligible(s.jobs[i], i, q, now) && i !in picked {
      var at :| 0 <= at < |all| && all[at] == i;
      OutsideBatch(all, BatchSize(q), at);
    }
  }

  lemma OutsideBatch(all: seq<Id>, n: nat, at: nat)
    requires Ascending(all) && at < |all| && all[at] !in (if |all| <= n then all else all[..n])
    ensures |all| > n && forall k :: 0 <= k < n ==> all[k] < all[at]
  {
    if |all| > n { InPrefix(all, n, at); }
  }

  lemma {:induction false} ClaimFrame(s: State, ids: seq<Id>, worker: string)
    requires forall i :: i in ids ==> i in s.jobs
    ensures var t := ClaimAll(s, ids, worker);
            t.order == s.order && t.active == s.active && t.workflows == s.workflows && t.settlements == s.settlements
  {
    if ids != [] { ClaimFrame(s, ids[..|ids| - 1], worker); }
  }

  lemma ListedJobs(s: State)
    requires Inv(s)
    ensures Ascending(s.order) && forall i :: i in s.jobs <==> i in s.order
  {
    hide GraphOk, StatusOk, AttemptsOk, MembersOk, WorkflowKeysOk, ActiveOk, ParentsOk, AccountsOk;
  }

  /** A claim of an unknown queue, or with more than 32 policies or one twice, hands out nothing. */
  lemma ClaimRefused(s: State, q: ClaimQuery, now: Instant)
    requires Linked(s)
    ensures ValidHashes(q) <==>
      (q.hashes.Some? ==> |q.hashes.value| <= 32 && forall i, j :: 0 <= i < j < |q.hashes.value| ==> q.hashes.value[i] != q.hashes.value[j])
    ensures q.queue !in s.known || !ValidHashes(q) ==> Claim(s, q, now) == s
  {
    hide Linked;
  }

  /** The worker asked for such a job: a due one of its queue, of a type, affinity, identity and policy that the query
      leaves open or names. */
  predicate AskedFor(i: Id, j: Job, q: ClaimQuery, now: Instant) {
    && j.command.queue == q.queue && j.status.Queued?
    && (j.command.scheduledAt == None || j.command.scheduledAt.value <= now)
    && (match q.job case None => true case Some(id) => i == id)
    && (match q.jobTypes case None => true case Some(types) => j.command.jobType in types)
    && (match q.affinity case None => true case Some(key) => j.command.affinityKey == Some(key))
    && (match j.policy case None => true case Some(hash) => q.hashes.Some? && hash in q.hashes.value)
  }

  /** What a claim answers about a job tells its new attempt, how often it was claimed and has failed, and a lease that
      runs from now for the seconds the worker asked for, else those of the job, else sixty; zero counts as not asked. */
  predicate ToldRightly(receipt: Claimed, j: Job, q: ClaimQuery, now: Instant) {
    && j.attempt == Some(receipt.attempt) && receipt.attempts == j.attempts && receipt.failures == j.failures
    && (var asked, own := q.lease, j.command.leaseSeconds;
        if asked.Some? && asked.value != 0 then receipt.leaseSeconds == asked.value
        else if own.Some? && own.value != 0 then receipt.leaseSeconds == own.value
        else receipt.leaseSeconds == 60)
    && receipt.leaseExpires == now + receipt.leaseSeconds * SECOND
  }

  /** A claim hands out only jobs that were asked for, never more than the batch asks, though always one if there is one;
      unless the batch is full it hands out all of them. Each receipt tells the job as it is now stored. */
  lemma ClaimAnswers(s: State, q: ClaimQuery, now: Instant, i: Id)
    requires Inv(s) && Linked(s) && q.queue in s.known && ValidHashes(q) && i in s.jobs
    ensures var t, picked := Claim(s, q, now), Picked(s, q, now);
            && i in t.jobs && (i in picked ==> AskedFor(i, s.jobs[i], q, now) && t.jobs[i].attempt.Some?)
            && (i in picked ==> ToldRightly(ClaimReceipt(t, i, q, now), t.jobs[i], q, now) && ClaimReceipt(t, i, q, now).job == i
                                && t.jobs[i].attempts == s.jobs[i].attempts + 1)
            && |picked| <= (if q.batch < 1 then 1 else q.batch)
            && (AskedFor(i, s.jobs[i], q, now) && |picked| < (if q.batch < 1 then 1 else q.batch) ==> i in picked)
            && (AskedFor(i, s.jobs[i], q, now) ==> picked != [])
  {
    hide Inv, Linked, Claim, EligibleJobs;
    ClaimIsExact(s, q, now, i);
  }

  // ---- requeueing ----------------------------------------------------------------------------

  /** The delay a settlement asks for, when it puts the job back. */
  function DelayOf(j: Job, action: Action): Option<int> {
    match action
    case DoFail(retryable, retryAfter) =>
      if Retries(j, retryable) then Some(if retryAfter.Some? then retryAfter.value else 0) else None
    case DoSnooze(delay) => Some(delay)
    case DoRelease(delay) => Some(delay)
    case _ => None
  }

  /** A retry, snooze or release puts back this job alone: it keeps its key, its place and its workflow, and the
      query that could have claimed it before can claim it again exactly from its new time on. Only a retry counts
      as a failure. */
  lemma RequeueDelays(s: State, id: Id, attempt: Id, worker: string, action: Action, now: Instant, q: ClaimQuery, later: Instant)
    requires Inv(s) && Linked(s) && Accepted(SettleJob(s, id, attempt, worker, action, now).1)
    requires id in s.jobs && DelayOf(s.jobs[id], action).Some?
    requires Eligible(s.jobs[id].(status := Queued, command := s.jobs[id].command.(scheduledAt := None)), id, q, later)
    ensures var t := SettleJob(s, id, attempt, worker, action, now).0;
            && t.jobs.Keys == s.jobs.Keys && (forall i :: i in s.jobs && i != id ==> t.jobs[i] == s.jobs[i])
            && t.order == s.order && t.active == s.active && t.workflows == s.workflows
            && t.jobs[id].failures == s.jobs[id].failures + (if action.DoFail? then 1 else 0)
            && (Eligible(t.jobs[id], id, q, later) <==> now + DelayOf(s.jobs[id], action).value * SECOND <= later)
  {
    hide Inv, Linked;
  }

  // ---- cancelling a workflow -----------------------------------------------------------------

  /** Cancelling a running workflow cancels exactly its waiting members, and closes it to new ones. It is CANCELLED
      at once exactly when no member is running. */
  lemma CancelStopsWorkflow(s: State, w: Id, c: Command)
    requires Inv(s) && Linked(s) && w in s.workflows && s.workflows[w].status.WfRunning? && !s.workflows[w].cancelRequested
    ensures var t := Lifecycle.CancelWorkflow(s, w).0;
            && t.jobs.Keys == s.jobs.Keys
            && (forall i :: i in s.jobs ==>
                  t.jobs[i] == if s.jobs[i].command.workflow == Some(w) && Waiting(s.jobs[i].status) then s.jobs[i].(status := Cancelled) else s.jobs[i])
            && w in t.workflows && t.workflows[w].cancelRequested && t.workflows[w].sealed
            && (t.workflows[w].status.WfCancelled? <==> forall i :: i in s.jobs && s.jobs[i].command.workflow == Some(w) ==> !s.jobs[i].status.Running?)
            && (Linked(t) && ValidCommand(c) && c.workflow == Some(w) && c.step.value !in t.workflows[w].steps ==> EnqueueMember(t, c).0 == t)
  {
    hide Inv;
    RunningMembers(s, w);
    var t := Lifecycle.CancelWorkflow(s, w).0;
    assert SomeMember(t.jobs, s.workflows[w], Running) <==> SomeMember(s.jobs, s.workflows[w], Running) by {
      assert forall i :: i in s.jobs ==> (t.jobs[i].status.Running? <==> s.jobs[i].status.Running?);
    }
  }

  /** Sealing closes a workflow and says whether it was open. */
  lemma SealAnswers(s: State, w: Id)
    ensures var (t, r) := Lifecycle.SealWorkflow(s, w);
            if w !in s.workflows then t == s && r == Err(NotFound)
            else
              && w in t.workflows && t.workflows[w].sealed && t.jobs == s.jobs && t.workflows[w].steps == s.workflows[w].steps
              && r == Ok(WorkflowReply(if s.workflows[w].sealed then "already_sealed" else "sealed", w, t.workflows[w].status))
  {
    hide RefreshedStatus;
  }

  /** Cancelling again is answered by the state of the workflow and changes nothing. */
  lemma CancelAgain(s: State, w: Id)
    ensures w !in s.workflows ==> Lifecycle.CancelWorkflow(s, w) == (s, Err(NotFound))
    ensures var t := Lifecycle.CancelWorkflow(s, w).0;
            w in s.workflows ==>
            && w in t.workflows
            && Lifecycle.CancelWorkflow(t, w) ==
                 (t, Ok(WorkflowReply(if t.workflows[w].status.WfRunning? then "already_requested" else "already_terminal", w, t.workflows[w].status)))
            && (Lifecycle.CancelWorkflow(s, w).1 == Ok(WorkflowReply("cancel_requested", w, t.workflows[w].status))
                <==> s.workflows[w].status.WfRunning? && !s.workflows[w].cancelRequested)
  {
    hide CancelMembers, RefreshedStatus;
  }

  lemma RunningMembers(s: State, w: Id)
    requires Inv(s) && w in s.workflows
    ensures SomeMember(s.jobs, s.workflows[w], Running) <==>
              exists i :: i in s.jobs && s.jobs[i].command.workflow == Some(w) && s.jobs[i].status.Running?
  {
    hide IdsOk, GraphOk, StatusOk, AttemptsOk, WorkflowKeysOk, ActiveOk, ParentsOk, AccountsOk;
    assert StepsOk(s.jobs, w, s.workflows[w]);
    if i :| i in s.jobs && s.jobs[i].command.workflow == Some(w) && s.jobs[i].status.Running? {
      assert MemberOk(s.workflows, i, s.jobs[i]);
    }
  }
}

/** Conservation laws of the queue engine. */
module LifecycleCounts {
  import opened TaskTypes
  import opened Lifecycle
  import opened LifecycleInvariant
  import opened LifecycleAdd
  import opened LifecycleComplete
  import opened LifecycleRuns

  // ---- claims against settlements ----------------------------------------------------------

  function TotalAttempts(jobs: map<Id, Job>, ids: seq<Id>): nat {
    if ids == [] then 0
    else TotalAttempts(jobs, ids[..|ids| - 1]) + if ids[|ids| - 1] in jobs then jobs[ids[|ids| - 1]].attempts else 0
  }

  function TotalRunning(jobs: map<Id, Job>, ids: seq<Id>): nat {
    if ids == [] then 0
    else TotalRunning(jobs, ids[..|ids| - 1])
         + if ids[|ids| - 1] in jobs && jobs[ids[|ids| - 1]].status.Running? then 1 else 0
  }

  function TotalSettled(log: seq<Settlement>, ids: seq<Id>): nat {
    if ids == [] then 0
    else TotalSettled(log, ids[..|ids| - 1]) + SettlementsOf(log, ids[|ids| - 1])
  }

  lemma {:induction false} AttemptsSplit(jobs: map<Id, Job>, log: seq<Settlement>, ids: seq<Id>)
    requires AccountsOk(jobs, log) && forall i :: i in ids ==> i in jobs
    ensures TotalAttempts(jobs, ids) == TotalSettled(log, ids) + TotalRunning(jobs, ids)
  {
    if ids != [] {
      var i := ids[|ids| - 1];
      AttemptsSplit(jobs, log, ids[..|ids| - 1]);
      assert AccountOk(log, i, jobs[i]);
    }
  }

  /** One more entry adds one to the total of a list that holds its job once. */
  lemma {:induction false} OneMoreSettled(log: seq<Settlement>, e: Settlement, ids: seq<Id>)
    requires Ascending(ids)
    ensures TotalSettled(log + [e], ids) == TotalSettled(log, ids) + if e.job in ids then 1 else 0
  {
    var log' := log + [e];
    assert log'[..|log'| - 1] == log;
    if ids != [] {
      var n := |ids| - 1;
      OneMoreSettled(log, e, ids[..n]);
      assert SettlementsOf(log', ids[n]) == SettlementsOf(log, ids[n]) + if e.job == ids[n] then 1 else 0;
      assert ids[n] !in ids[..n];
      assert e.job in ids <==> e.job in ids[..n] || e.job == ids[n];
    }
  }

  lemma {:induction false} SettledTotal(log: seq<Settlement>, ids: seq<Id>)
    requires Ascending(ids) && forall k :: 0 <= k < |log| ==> log[k].job in ids
    ensures TotalSettled(log, ids) == |log|
  {
    if log == [] {
      NothingSettled(ids);
    } else {
      var n := |log| - 1;
      SettledTotal(log[..n], ids);
      OneMoreSettled(log[..n], log[n], ids);
      assert log == log[..n] + [log[n]];
    }
  }

  lemma {:induction false} NothingSettled(ids: seq<Id>)
    ensures TotalSettled([], ids) == 0
  {
    if ids != [] { NothingSettled(ids[..|ids| - 1]); }
  }

  /** Every claim ever made was settled once, except those of the jobs now running. */
  lemma ClaimsAreConserved(s: State)
    requires Inv(s)
    ensures TotalAttempts(s.jobs, s.order) == |s.settlements| + TotalRunning(s.jobs, s.order)
  {
    hide GraphOk, StatusOk, AttemptsOk, MembersOk, WorkflowKeysOk, ActiveOk, ParentsOk;
    AttemptsSplit(s.jobs, s.settlements, s.order);
    SettledTotal(s.settlements, s.order);
  }

  /** In every reachable state each job's claims are its settlements, plus one while it runs; its failures are its
      `fail` settlements and stay within its attempts. */
  lemma ReachableAccounts(queues: set<string>, ops: seq<Op>, i: Id)
    requires ValidRun(ops)
    ensures Inv(Init(queues))
    ensures var t := Run(Init(queues), ops);
            i in t.jobs ==>
              && t.jobs[i].attempts == SettlementsOf(t.settlements, i) + (if t.jobs[i].status.Running? then 1 else 0)
              && t.jobs[i].failures == FailuresOf(t.settlements, i)
              && (AttemptLimit(t.jobs[i].command) >= 1 ==> t.jobs[i].failures <= AttemptLimit(t.jobs[i].command))
  {
    InitInv(queues);
    var t := Run(Init(queues), ops);
    hide IdsOk, GraphOk, StatusOk, AttemptsOk, MembersOk, WorkflowKeysOk, ActiveOk, ParentsOk, Run;
    if i in t.jobs { assert AccountOk(t.settlements, i, t.jobs[i]); }
  }

  // ---- created records against jobs --------------------------------------------------------

  function CreatedCount(log: seq<Enqueued>): nat {
    if log == [] then 0 else CreatedCount(log[..|log| - 1]) + if log[|log| - 1].created then 1 else 0
  }

  lemma {:induction false} CreatedLength(log: seq<Enqueued>)
    ensures |CreatedIds(log)| == CreatedCount(log)
  {
    if log != [] { CreatedLength(log[..|log| - 1]); }
  }

  lemma {:induction false} AscendingSet(ids: seq<Id>)
    requires Ascending(ids)
    ensures |Elements(ids)| == |ids|
  {
    if ids == [] {
      assert Elements(ids) == {};
    } else {
      var n := |ids| - 1;
      AscendingSet(ids[..n]);
      assert Elements(ids) == Elements(ids[..n]) + {ids[n]};
      assert ids[n] !in ids[..n];
    }
  }

  /** There are as many `created` enqueue records as jobs, listed in the order of creation. */
  lemma CreatedAreJobs(s: State)
    requires Inv(s)
    ensures CreatedCount(s.enqueues) == |s.jobs| && CreatedIds(s.enqueues) == s.order
  {
    hide GraphOk, StatusOk, AttemptsOk, MembersOk, WorkflowKeysOk, ActiveOk, ParentsOk, AccountsOk;
    CreatedLength(s.enqueues);
    AscendingSet(s.order);
    assert Elements(s.order) == s.jobs.Keys;
  }

  // ---- idempotency keys --------------------------------------------------------------------

  /** At most one live job holds an idempotency key, and a new enqueue of the key finds it. */
  lemma OneLiveJobPerKey(s: State, i: Id, k: Id)
    requires Inv(s) && i in s.jobs && k in s.jobs && !Terminal(s.jobs[i].status) && !Terminal(s.jobs[k].status)
    requires s.jobs[i].command.key.Some? && s.jobs[k].command.key == s.jobs[i].command.key
    requires s.jobs[k].command.queue == s.jobs[i].command.queue
    ensures i == k && s.active[(s.jobs[i].command.queue, s.jobs[i].command.key.value)] == i
  {
    hide IdsOk, GraphOk, StatusOk, AttemptsOk, MembersOk, WorkflowKeysOk, ParentsOk, AccountsOk;
  }

  // ---- members -----------------------------------------------------------------------------

  ghost function MembersOf(jobs: map<Id, Job>, w: Id): set<Id> {
    set i | i in jobs && jobs[i].command.workflow == Some(w)
  }

  lemma {:induction false} InjectiveImage(m: map<Step, Id>)
    requires forall a, b :: a in m && b in m && a != b ==> m[a] != m[b]
    ensures |m.Values| == |m|
    decreases |m|
  {
    if m == map[] {
      assert m.Values == {};
    } else {
      var a :| a in m;
      var m' := m - {a};
      InjectiveImage(m');
      assert m.Values == m'.Values + {m[a]} by {
        forall v | v in m.Values ensures v in m'.Values + {m[a]} {
          var b :| b in m && m[b] == v;
          if b != a { assert b in m' && m'[b] == v; }
        }
      }
      assert m[a] !in m'.Values;
      assert |m'| == |m| - 1 by { assert m'.Keys == m.Keys - {a}; }
    }
  }

  lemma StepsMatchMembers(nextId: Id, jobs: map<Id, Job>, ws: map<Id, Workflow>, w: Id)
    requires MembersOk(nextId, jobs, ws) && w in ws
    ensures ws[w].steps.Values == MembersOf(jobs, w)
    ensures forall a, b :: a in ws[w].steps && b in ws[w].steps && a != b ==> ws[w].steps[a] != ws[w].steps[b]
  {
    assert StepsOk(jobs, w, ws[w]);
    forall i | i in MembersOf(jobs, w) ensures i in ws[w].steps.Values {
      assert MemberOk(ws, i, jobs[i]);
      assert jobs[i].command.step.value in ws[w].steps.Keys;
    }
    hide MemberOk;
  }

  /** The steps of a workflow are in one-to-one correspondence with its member jobs, which never exceed
      the admission count nor the member limit, and all carry the workflow's policy. */
  lemma MembersAreBounded(s: State, w: Id)
    requires Inv(s) && w in s.workflows
    ensures var wf := s.workflows[w];
            && wf.steps.Values == MembersOf(s.jobs, w)
            && |MembersOf(s.jobs, w)| == |wf.steps| <= wf.admitted
            && (wf.limit.Some? ==> |MembersOf(s.jobs, w)| <= wf.admitted <= wf.limit.value)
            && (forall i :: i in MembersOf(s.jobs, w) ==> s.jobs[i].policy == wf.policy)
  {
    hide IdsOk, GraphOk, StatusOk, AttemptsOk, WorkflowKeysOk, ActiveOk, ParentsOk, AccountsOk;
    StepsMatchMembers(s.nextId, s.jobs, s.workflows, w);
    InjectiveImage(s.workflows[w].steps);
    assert StepsOk(s.jobs, w, s.workflows[w]);
    forall i | i in MembersOf(s.jobs, w) ensures s.jobs[i].policy == s.workflows[w].policy {
      assert MemberOk(s.workflows, i, s.jobs[i]);
    }
  }
}

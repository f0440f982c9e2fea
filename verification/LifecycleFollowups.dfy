/** Follow-ups: when a completion is accepted, and what its children are, in terms of the request alone. */
module LifecycleFollowups {
  import opened TaskTypes
  import opened Lifecycle
  import opened LifecycleInvariant
  import opened LifecycleComplete
  import opened LifecycleHistory
  import opened LifecycleStatus
  import opened LifecycleAnswers

  /** A child of `parent` for one follow-up, field by field: its own work and limits, under a key derived from the
      parent's identifier and its step. It shares flow, workflow and policy with the parent exactly as a member. */
  predicate DescribedBy(child: Job, id: Id, parent: Job, f: Followup) {
    var c := child.command;
    && c.jobType == f.jobType && c.payload == f.payload && c.settings == f.settings
    && c.scheduledAt == f.scheduledAt && c.maxAttempts == f.maxAttempts && c.leaseSeconds == f.leaseSeconds
    && c.queue == (match f.queue case Some(q) => q case None => parent.command.queue)
    && c.key == Some(Chain(id, f.step)) && c.affinityKey.None? && c.dependsOn.None?
    && (f.member ==> c.workflow == parent.command.workflow && c.flowKey == parent.command.flowKey
                     && c.step == Some(Member(id, f.step)) && child.policy == parent.policy)
    && (!f.member ==> c.workflow.None? && c.flowKey.None? && c.step.None? && child.policy.None?)
    && child.parent == Some(id) && child.status.Queued? && child.attempt.None? && child.attempts == 0 && child.failures == 0
  }

  /** An accepted completion stores one child per follow-up, in order, under the next identifiers, and records it. */
  lemma FollowupsAsAsked(s: State, id: Id, attempt: Id, worker: string, fs: seq<Followup>, policy: Option<string>, now: Instant, k: nat)
    requires Inv(s) && Linked(s) && Accepted(SettleJob(s, id, attempt, worker, DoComplete(fs, policy), now).1) && k < |fs|
    ensures var t := SettleJob(s, id, attempt, worker, DoComplete(fs, policy), now).0;
            && id in s.jobs && s.nextId + k in t.jobs && s.nextId + k !in s.jobs
            && DescribedBy(t.jobs[s.nextId + k], id, s.jobs[id], fs[k])
            && t.order == s.order + seq(|fs|, i => s.nextId + i)
            && |t.enqueues| == |s.enqueues| + |fs|
            && t.enqueues[|s.enqueues| + k] == Enqueued(s.nextId + k, t.jobs[s.nextId + k].command, true, Some(id))
  {
    hide Inv, Linked, SettleJob, Accepted, Completed, FollowupRecords, DescribedBy, FollowupJob, PlanCompletion;
    CompletionDelivers(s, id, attempt, worker, fs, policy, now);
    CompletionState(s, id, attempt, worker, fs, policy, now);
    CompletionRecorded(s, id, fs, policy);
    IdsBounded(s);
    var t := SettleJob(s, id, attempt, worker, DoComplete(fs, policy), now).0;
    assert StoredAs(t, s.nextId + k, FollowupJob(s, id, fs[k]));
    RecordAt(s, id, fs, k);
    assert t.enqueues[|s.enqueues| + k] == FollowupRecords(s, id, fs)[k];
    FollowupDescribed(s, id, fs[k]);
  }

  lemma FollowupDescribed(s: State, id: Id, f: Followup)
    requires id in s.jobs
    ensures DescribedBy(FollowupJob(s, id, f), id, s.jobs[id], f)
    ensures FollowupJob(s, id, f).command == ChildCommand(s.jobs[id].command, id, f)
  {
  }

  lemma CompletionState(s: State, id: Id, attempt: Id, worker: string, fs: seq<Followup>, policy: Option<string>, now: Instant)
    requires Inv(s) && Linked(s) && Accepted(SettleJob(s, id, attempt, worker, DoComplete(fs, policy), now).1)
    ensures Current(s, id, attempt, worker) && s.jobs[id].status.Running? && PlanCompletion(s, id, fs, policy).Ok?
    ensures s.jobs[id].command.workflow.Some? ==> s.jobs[id].command.workflow.value in s.workflows
    ensures SettleJob(s, id, attempt, worker, DoComplete(fs, policy), now).0 == Completed(s, id, PlanCompletion(s, id, fs, policy).value)
  {
    FenceOpen(s, id, attempt, worker, DoComplete(fs, policy), now);
    RunningWorkflow(s, id);
    hide Inv, Linked, PlanCompletion, Completed, ReplayOrLost;
  }

  function ChildRecords(first: Id, id: Id, cs: seq<Child>): seq<Enqueued> {
    seq(|cs|, k requires 0 <= k < |cs| => Enqueued(first + k, cs[k].command, true, Some(id)))
  }

  function FollowupRecords(s: State, id: Id, fs: seq<Followup>): seq<Enqueued>
    requires id in s.jobs
  {
    seq(|fs|, k requires 0 <= k < |fs| => Enqueued(s.nextId + k, ChildCommand(s.jobs[id].command, id, fs[k]), true, Some(id)))
  }

  lemma RecordAt(s: State, id: Id, fs: seq<Followup>, k: nat)
    requires id in s.jobs && k < |fs|
    ensures |FollowupRecords(s, id, fs)| == |fs|
    ensures FollowupRecords(s, id, fs)[k] == Enqueued(s.nextId + k, FollowupJob(s, id, fs[k]).command, true, Some(id))
  {
  }

  lemma CompletionRecorded(s: State, id: Id, fs: seq<Followup>, policy: Option<string>)
    requires Inv(s) && Linked(s) && id in s.jobs && s.jobs[id].status.Running? && PlanCompletion(s, id, fs, policy).Ok?
    requires s.jobs[id].command.workflow.Some? ==> s.jobs[id].command.workflow.value in s.workflows
    ensures Completed(s, id, PlanCompletion(s, id, fs, policy).value).enqueues == s.enqueues + FollowupRecords(s, id, fs)
  {
    PlanCompletionFacts(s, id, fs, policy);
    hide Inv, Linked, PlanCompletion, PlanMatches, Finish, RoomFor, ChildRecords, FollowupRecords;
    var cs := PlanCompletion(s, id, fs, policy).value;
    FinishRecords(s, id);
    SameRecords(s, id, fs, cs);
    ChildrenRecorded(Finish(s, id, Complete, Succeeded, OkOutcome, None), id, s.jobs[id].policy, cs);
  }

  lemma SameRecords(s: State, id: Id, fs: seq<Followup>, cs: seq<Child>)
    requires id in s.jobs && PlanMatches(s, id, fs, cs)
    ensures ChildRecords(s.nextId, id, cs) == FollowupRecords(s, id, fs)
    ensures forall k :: 0 <= k < |cs| ==> cs[k].existing.None?
  {
    hide ChildCommand;
    forall k | 0 <= k < |cs| ensures cs[k].existing.None? { AllNew(s, id, fs, cs, k); }
  }

  lemma FinishRecords(s: State, id: Id)
    requires id in s.jobs
    requires s.jobs[id].command.workflow.Some? ==> s.jobs[id].command.workflow.value in s.workflows
    ensures var m := Finish(s, id, Complete, Succeeded, OkOutcome, None); m.enqueues == s.enqueues && m.nextId == s.nextId
  {
    hide RefreshedStatus, Unblocked, Cascaded;
  }

  lemma {:induction false} ChildrenRecorded(s: State, id: Id, policy: Option<string>, cs: seq<Child>)
    requires forall k :: 0 <= k < |cs| ==> cs[k].existing.None?
    ensures var t := AddChildren(s, id, policy, cs); t.nextId == s.nextId + |cs| && t.enqueues == s.enqueues + ChildRecords(s.nextId, id, cs)
  {
    if cs != [] {
      var n := |cs| - 1;
      ChildrenRecorded(s, id, policy, cs[..n]);
      assert ChildRecords(s.nextId, id, cs) == ChildRecords(s.nextId, id, cs[..n]) + [Enqueued(s.nextId + n, cs[n].command, true, Some(id))];
    }
  }

  // ---- when a completion is accepted ---------------------------------------------------------

  function QueueAsked(parent: Command, f: Followup): string {
    match f.queue
    case Some(q) => q
    case None => parent.queue
  }

  function MembersAsked(fs: seq<Followup>): nat {
    if fs == [] then 0 else MembersAsked(fs[..|fs| - 1]) + if fs[|fs| - 1].member then 1 else 0
  }

  /** The k-th follow-up can be stored: a known queue, a step of its own, a key nobody holds, and for a member a
      queue the workflow declared. */
  predicate Storable(s: State, id: Id, fs: seq<Followup>, k: nat)
    requires Linked(s) && id in s.jobs && k < |fs|
  {
    var parent, f := s.jobs[id].command, fs[k];
    var q := QueueAsked(parent, f);
    && q in s.known && (forall i :: 0 <= i < k ==> fs[i].step != f.step) && (q, Chain(id, f.step)) !in s.active
    && (f.member ==> parent.workflow.Some? && q in s.workflows[parent.workflow.value].queues)
  }

  predicate AllStorable(s: State, id: Id, fs: seq<Followup>)
    requires Linked(s) && id in s.jobs
  {
    forall k :: 0 <= k < |fs| ==> Storable(s, id, fs, k)
  }

  lemma PlanOneIff(s: State, id: Id, f: Followup)
    requires Linked(s) && id in s.jobs && Childless(s, id) && (f.member ==> s.jobs[id].command.workflow.Some?)
    ensures PlanOne(s, id, f).Ok? <==> Storable(s, id, [f], 0)
    ensures PlanOne(s, id, f).Ok? ==>
              var c := PlanOne(s, id, f).value; c.existing.None? && (c.command.workflow.Some? <==> f.member)
  {
  }

  lemma StorableSplit(s: State, id: Id, fs: seq<Followup>)
    requires Linked(s) && id in s.jobs && fs != []
    ensures var n := |fs| - 1;
            AllStorable(s, id, fs) <==> AllStorable(s, id, fs[..n]) && Storable(s, id, [fs[n]], 0) && !StepSeen(fs[..n], fs[n].step)
  {
    var n := |fs| - 1;
    hide Linked;
    forall k | 0 <= k < n ensures Storable(s, id, fs, k) <==> Storable(s, id, fs[..n], k) { }
    assert Storable(s, id, fs, n) <==> Storable(s, id, [fs[n]], 0) && !StepSeen(fs[..n], fs[n].step);
  }

  lemma NoneStorable(s: State, id: Id)
    requires Linked(s) && id in s.jobs
    ensures AllStorable(s, id, [])
  {
  }

  lemma {:induction false} PlanIff(s: State, id: Id, fs: seq<Followup>)
    requires Linked(s) && id in s.jobs && Childless(s, id)
    requires forall f :: f in fs && f.member ==> s.jobs[id].command.workflow.Some?
    ensures Plan(s, id, fs).Ok? <==> AllStorable(s, id, fs)
    ensures Plan(s, id, fs).Ok? ==> NewMembers(Plan(s, id, fs).value) == MembersAsked(fs)
  {
    hide Linked, Childless, Storable, PlanOne, StepSeen, AllStorable;
    NoneStorable(s, id);
    if fs != [] {
      var n := |fs| - 1;
      PlanIff(s, id, fs[..n]);
      PlanOneIff(s, id, fs[n]);
      StorableSplit(s, id, fs);
      if Plan(s, id, fs).Ok? {
        var cs, c := Plan(s, id, fs[..n]).value, PlanOne(s, id, fs[n]).value;
        assert (cs + [c])[..n] == cs by { PlanLength(s, id, fs[..n]); }
        PlanLength(s, id, fs[..n]);
      }
    }
  }

  lemma {:induction false} PlanLength(s: State, id: Id, fs: seq<Followup>)
    requires Linked(s) && id in s.jobs && Plan(s, id, fs).Ok?
    ensures |Plan(s, id, fs).value| == |fs|
  {
    hide Linked, PlanOne, StepSeen;
    if fs != [] { PlanLength(s, id, fs[..|fs| - 1]); }
  }

  /** The workflow takes that many more members. */
  predicate Admits(s: State, id: Id, members: nat)
    requires Linked(s) && id in s.jobs
  {
    var j := s.jobs[id];
    && j.command.workflow.Some? && j.policy.Some?
    && (var w := s.workflows[j.command.workflow.value]; w.limit.Some? && w.admitted + members <= w.limit.value)
  }

  /** A completion is accepted exactly when it comes from the current attempt while it runs, under the job's own policy,
      every follow-up can be stored, and the workflow admits the members among them. The two policy errors come before
      any other. */
  lemma CompletionAcceptedIff(s: State, id: Id, attempt: Id, worker: string, fs: seq<Followup>, policy: Option<string>, now: Instant)
    requires Inv(s) && Linked(s)
    ensures var r := SettleJob(s, id, attempt, worker, DoComplete(fs, policy), now).1;
            && (Accepted(r) <==>
                  && Current(s, id, attempt, worker) && s.jobs[id].status.Running? && policy == s.jobs[id].policy
                  && AllStorable(s, id, fs)
                  && (MembersAsked(fs) > 0 ==> Admits(s, id, MembersAsked(fs))))
            && (Current(s, id, attempt, worker) && s.jobs[id].status.Running? ==>
                  && (policy.None? && s.jobs[id].policy.Some? ==> r == Err(Validation("continuation_policy_required")))
                  && (policy.Some? && s.jobs[id].policy != policy ==> r == Err(Conflict("continuation_policy_mismatch"))))
  {
    SettlementAnswers(s, id, attempt, worker, DoComplete(fs, policy), now);
    CompletionFence(s, id, attempt, worker, fs, policy, now);
    hide Inv, Linked, SettleJob, Accepted, AllStorable, Admits, PlanCompletion;
    if Current(s, id, attempt, worker) && s.jobs[id].status.Running? { PlanCompletionIff(s, id, fs, policy); }
  }

  lemma PlanCompletionIff(s: State, id: Id, fs: seq<Followup>, policy: Option<string>)
    requires Inv(s) && Linked(s) && id in s.jobs && s.jobs[id].status.Running?
    ensures var p := PlanCompletion(s, id, fs, policy);
            && (p.Ok? <==>
                  && policy == s.jobs[id].policy && AllStorable(s, id, fs)
                  && (MembersAsked(fs) > 0 ==> Admits(s, id, MembersAsked(fs))))
            && (policy.None? && s.jobs[id].policy.Some? ==> p == Err(Validation("continuation_policy_required")))
            && (policy.Some? && s.jobs[id].policy != policy ==> p == Err(Conflict("continuation_policy_mismatch")))
  {
    hide Inv, Linked, Storable, AllStorable, Plan, Childless, NewMembers, MembersAsked;
    NoChildrenYet(s, id);
    RunningWorkflow(s, id);
    SomeMemberAsked(fs);
    if (exists f :: f in fs && f.member) && s.jobs[id].command.workflow.None? {
      MemberNotStorable(s, id, fs);
    } else {
      forall f | f in fs && f.member ensures s.jobs[id].command.workflow.Some? { }
      PlanIff(s, id, fs);
    }
  }

  lemma CompletionFence(s: State, id: Id, attempt: Id, worker: string, fs: seq<Followup>, policy: Option<string>, now: Instant)
    requires Inv(s) && Linked(s)
    ensures Current(s, id, attempt, worker) && s.jobs[id].status.Running? ==>
            var r, p := SettleJob(s, id, attempt, worker, DoComplete(fs, policy), now).1, PlanCompletion(s, id, fs, policy);
            (Accepted(r) <==> p.Ok?) && (p.Err? ==> r == Err(p.error))
  {
    hide Inv, Linked, PlanCompletion, Completed;
    if id in s.jobs { AttemptFacts(s, id); }
  }

  lemma {:induction false} SomeMemberAsked(fs: seq<Followup>)
    ensures MembersAsked(fs) > 0 <==> exists f :: f in fs && f.member
  {
    if fs != [] {
      var n := |fs| - 1;
      SomeMemberAsked(fs[..n]);
      assert fs == fs[..n] + [fs[n]];
    }
  }

  lemma MemberNotStorable(s: State, id: Id, fs: seq<Followup>)
    requires Linked(s) && id in s.jobs && s.jobs[id].command.workflow.None? && exists f :: f in fs && f.member
    ensures !AllStorable(s, id, fs)
  {
    hide Linked;
    var f :| f in fs && f.member;
    var k :| 0 <= k < |fs| && fs[k] == f;
    assert !Storable(s, id, fs, k);
  }
}

/** What callers get from writing, retiring, claiming and firing a schedule, and for how long. */
module ScheduleCalls {
  import opened TaskTypes
  import opened Lifecycle
  import opened LifecycleInvariant
  import opened LifecycleAdd
  import opened Evaluation
  import opened Schedules
  import opened Firing
  import opened LifecycleRuns
  import Scheduler

  // ---- writing -------------------------------------------------------------------------------

  /** The definition asks for a paused schedule, and for nothing else that the schedule, while active, does not do. */
  predicate OnlyPauses(x: Schedule, d: Definition) {
    && x.state.Active? && d.paused && x.definition.target == d.target && x.definition.recurrence == d.recurrence
    && x.definition.catchup == d.catchup && x.definition.maxCatchup == d.maxCatchup
  }

  /** Writing a schedule that is there: without a version it only compares; with the right one, unless the schedule is
      retired or does all this already, it counts the version up, takes the definition over and forgets every claim. The
      schedule keeps its place exactly when it is only being paused, and otherwise starts over, now. */
  lemma PutAnswers(x: Schedule, d: Definition, expected: Option<int>, now: Instant)
    ensures var (y, r) := Rewrite(x, d, expected, now);
            var same := x.definition == d && x.state == (if d.paused then Paused else Active);
            && (r == Ok(WriteUpdated) <==> expected == Some(x.version) && !x.state.Retired? && !same)
            && (r != Ok(WriteUpdated) ==> y == x)
            && (r == Ok(WriteUnchanged) <==> if expected.None? then x.definition == d else expected.value == x.version && !x.state.Retired? && same)
            && (r == Err(Conflict("schedule_mismatch")) <==> expected.None? && x.definition != d)
            && (r == Err(Conflict("schedule_version_conflict")) <==> expected.Some? && expected.value != x.version)
            && (r == Err(Conflict("schedule_retired")) <==> expected == Some(x.version) && x.state.Retired?)
            && (r == Ok(WriteUpdated) ==>
                  && y.id == x.id && y.version == x.version + 1 && y.definition == d && y.state == (if d.paused then Paused else Active)
                  && y.token.None? && y.claimAsOf.None? && y.claimExpires.None? && y.lastToken.None? && y.lastAction.None?
                  && y.last == x.last && y.retryNotBefore == x.retryNotBefore
                  && (if OnlyPauses(x, d) then y.initialized == x.initialized && y.next == x.next else !y.initialized && y.next == now))
  {
  }

  /** A write is idempotent: sending it again, with the new version or without one, finds nothing to change. */
  lemma PutTwice(x: Schedule, d: Definition, expected: Option<int>, now: Instant, later: Instant)
    requires Rewrite(x, d, expected, now).1.Ok?
    ensures var y := Rewrite(x, d, expected, now).0;
            && Rewrite(y, d, None, later) == (y, Ok(WriteUnchanged))
            && (expected.Some? ==> Rewrite(y, d, Some(y.version), later) == (y, Ok(WriteUnchanged)))
            && (y != x ==> Rewrite(y, d, expected, later) == (y, Err(Conflict("schedule_version_conflict"))))
  {
  }

  /** Retiring needs the current version; it closes the schedule, counts the version up and forgets every claim. A schedule
      that is retired already says so; from then on no write changes it. */
  lemma RetireAnswers(x: Schedule, expected: int, d: Definition, seen: Option<int>, now: Instant)
    ensures var (y, r) := Retire(x, expected);
            && (r == Err(Conflict("schedule_version_conflict")) <==> expected != x.version)
            && (r == Ok(AlreadyRetired) <==> expected == x.version && x.state.Retired?)
            && (r == Ok(WriteRetired) <==> expected == x.version && !x.state.Retired?)
            && (r != Ok(WriteRetired) ==> y == x)
            && (r == Ok(WriteRetired) ==>
                  && y.version == x.version + 1 && y.id == x.id && y.definition == x.definition && y.next == x.next && y.last == x.last
                  && y.token.None? && y.claimAsOf.None? && y.claimExpires.None? && y.lastToken.None? && y.lastAction.None?)
            && (r.Ok? ==> y.state.Retired? && !Claimable(y, now) && Rewrite(y, d, seen, now).0 == y)
  {
  }

  // ---- claiming ------------------------------------------------------------------------------

  /** A claimed schedule is nobody else's until the lease is over, and anybody's from then on. */
  lemma LeaseExcludes(x: Schedule, token: Id, lease: int, now: Instant, later: Instant)
    requires Claimable(x, now) && now <= later
    ensures x.state.Active? && x.next <= now
    ensures Claimable(Leased(x, token, lease, now), later) <==> later >= now + lease * SECOND
  {
  }

  /** A claim tells the schedule as it stands. */
  lemma ClaimTells(was: map<string, Schedule>, xs: map<string, Schedule>, c: NamedClaim, token: Id, lease: int, now: Instant)
    requires ClaimedAs(was, xs, c, token, lease, now)
    ensures var x, y := was[c.0], xs[c.0];
            && c.1.schedule == x.id == y.id && c.1.version == x.version == y.version && c.1.definition == x.definition == y.definition
            && c.1.next == x.next == y.next && c.1.initialized == x.initialized == y.initialized
            && c.1.asOf == now && c.1.token == token && y.token == Some(token) && y.claimExpires == Some(now + c.1.leaseSeconds * SECOND)
            && c.1.leaseSeconds == lease && x.next <= c.1.asOf && x.state.Active?
  {
  }

  /** A batch of claims goes to the schedules that are due first: in order of their next firings, and none is left out for a
      later one, nor at all below the limit. */
  lemma EarliestAreClaimed(was: map<string, Schedule>, claims: seq<NamedClaim>, limit: int, now: Instant, n: string)
    requires EarliestFirst(was, claims, limit, now)
    ensures |claims| <= limit && forall k :: 0 <= k < |claims| ==> claims[k].0 in was
    ensures forall i, j :: 0 <= i < j < |claims| ==> was[claims[i].0].next <= was[claims[j].0].next
    ensures n in was && Claimable(was[n], now) && (forall k :: 0 <= k < |claims| ==> claims[k].0 != n) ==>
              |claims| == limit && forall k :: 0 <= k < |claims| ==> was[claims[k].0].next <= was[n].next
  {
    hide Claimable;
  }

  /** A new schedule can be claimed from its creation on, exactly if it is not paused. */
  lemma NewIsClaimable(id: Id, d: Definition, now: Instant, later: Instant)
    ensures var x := NewSchedule(id, d, now);
            && x.id == id && x.definition == d && x.version == 1 && !x.initialized && x.last.None? && x.lastAction.None?
            && (Claimable(x, later) <==> !d.paused && now <= later)
  {
  }

  // ---- firing --------------------------------------------------------------------------------

  /** The claim is still the schedule's, in the definition it was made of, and its lease is not over. */
  predicate Live(x: Schedule, token: Id, version: int, now: Instant) {
    x.state.Active? && x.version == version && x.token == Some(token) && (x.claimExpires.Some? ==> now <= x.claimExpires.value)
  }

  predicate Answered(x: Schedule, token: Id) {
    x.lastToken == Some(token) && x.lastAction.Some?
  }

  /** A fire that was answered before gets that answer again; one whose claim is not live is stale; any other one is
      accepted. It then reports what it was, how many jobs it added, and where the schedule stands now, and the schedule
      can be claimed again exactly from its next firing on. */
  lemma FireAnswers(s: State, x: Schedule, token: Id, version: int, due: seq<Instant>, next: Instant, now: Instant, later: Instant)
    requires Linked(s)
    ensures var (t, y, r) := Fire(s, x, token, version, due, next, now);
            if Answered(x, token) then t == s && y == x && r == x.lastAction.value.(replayed := true)
            else if !Live(x, token, version, now) then t == s && y == x && r == ActionReply(Stale, false, 0, x.next, x.state, x.version)
            else
              && r.outcome == (if !x.initialized then Initialized else if x.definition.catchup.Skip? then Skipped else Fired)
              && !r.replayed && |t.order| == |s.order| + r.jobs && r.next == next && r.state == x.state && r.version == x.version
              && y.initialized && y.next == next && y.id == x.id && y.definition == x.definition && y.version == x.version && y.state == x.state
              && y.last == (if due == [] then x.last else Some(due[|due| - 1])) && y.lastToken == Some(token) && y.lastAction == Some(r)
              && (Claimable(y, later) <==> next <= later)
  {
    hide Linked;
    if !Answered(x, token) { Scheduler.FireCounts(s, x, token, version, due, next, now); }
    hide EnqueueAll;
  }

  /** The job of one occurrence, field by field: the target's work under the occurrence's own key, due at its instant. */
  predicate OccurrenceJob(j: Job, x: Schedule, due: Instant) {
    var c, t := j.command, x.definition.target;
    && c.queue == t.queue && c.jobType == t.jobType && c.payload == t.payload && c.settings == t.settings && c.affinityKey == t.affinityKey
    && c.maxAttempts == t.maxAttempts && c.leaseSeconds == t.leaseSeconds && c.scheduledAt == Some(due)
    && c.key == Some(Occurrence(x.id, due)) && c.flowKey.None? && c.workflow.None? && c.step.None? && c.dependsOn.None?
    && j.status.Queued? && j.attempt.None? && j.attempts == 0 && j.failures == 0 && j.parent.None? && j.policy.None?
  }

  ghost predicate SomeOccurrence(j: Job, x: Schedule, due: seq<Instant>) {
    exists k :: 0 <= k < |due| && OccurrenceJob(j, x, due[k])
  }

  /** Whatever a fire adds to the engine are jobs of its occurrences, and every other job stays as it was. */
  lemma FireAdds(s: State, x: Schedule, token: Id, version: int, due: seq<Instant>, next: Instant, now: Instant)
    requires Inv(s) && Linked(s)
    ensures var t := Fire(s, x, token, version, due, next, now).0;
            && (forall i :: i in s.jobs ==> i in t.jobs && t.jobs[i] == s.jobs[i])
            && (forall i :: i in t.jobs && i !in s.jobs ==> SomeOccurrence(t.jobs[i], x, due))
            && (Live(x, token, version, now) && !Answered(x, token) ==>
                  forall k :: 0 <= k < |due| ==> (x.definition.target.queue, Occurrence(x.id, due[k])) in t.active)
  {
    hide Inv, Linked, EnqueueAll, FiredJob, SomeOccurrence;
    FiredAreQueued(s, x.id, x.definition.target, due);
    var u := EnqueueAll(s, x.id, x.definition.target, due).0;
    forall i | i in u.jobs && i !in s.jobs ensures SomeOccurrence(u.jobs[i], x, due) { FiredIsOccurrence(u.jobs[i], x, due); }
  }

  lemma FiredIsOccurrence(j: Job, x: Schedule, due: seq<Instant>)
    requires FiredJob(j, x.id, x.definition.target, due)
    ensures SomeOccurrence(j, x, due)
  {
    var k :| 0 <= k < |due| && j == NewJob(OccurrenceCommand(x.id, x.definition.target, due[k]), Queued, None, None);
    assert OccurrenceJob(j, x, due[k]);
  }

  /** An error report of the live claim gives the lease back and keeps the schedule from everybody until the retry time;
      any other report changes nothing. */
  lemma ErrorBacksOff(x: Schedule, token: Id, version: int, retrySeconds: int, now: Instant, later: Instant)
    ensures var (y, r) := RecordError(x, token, version, retrySeconds, now);
            if x.state.Active? && x.version == version && x.token == Some(token) then
              && r == ActionReply(ErrorRecorded, false, 0, x.next, x.state, x.version)
              && y == x.(token := None, claimAsOf := None, claimExpires := None, retryNotBefore := y.retryNotBefore)
              && (Claimable(y, later) <==> x.next <= later && now + retrySeconds * SECOND <= later)
            else y == x && r == ActionReply(Stale, false, 0, x.next, x.state, x.version)
  {
  }

  // ---- over runs -----------------------------------------------------------------------------

  /** A move never takes a version back, and changes no retired schedule. */
  lemma MoveKeeps(cal: Calendar, f: Floor, m: Move)
    requires Linked(f.engine) && ValidMove(f, m)
    ensures f.schedule.version <= MoveOn(cal, f, m).schedule.version && MoveOn(cal, f, m).schedule.id == f.schedule.id
    ensures f.schedule.state.Retired? ==> MoveOn(cal, f, m).schedule == f.schedule && MoveOn(cal, f, m).issued == f.issued
  {
    hide Linked, Apply, EnqueueAll, Evaluate;
  }

  /** Retiring is final: whatever anybody does with it afterwards, the schedule stays as it is, can never be claimed, and
      nothing is fired from it; only calls to the engine itself change the engine. */
  lemma {:induction false} RetiredForever(cal: Calendar, trace: seq<Floor>, moves: seq<Move>, m: nat, n: nat, later: Instant)
    requires Path(cal, trace, moves) && m <= n < |trace| && trace[m].schedule.state.Retired?
    ensures trace[n].schedule == trace[m].schedule && trace[n].issued == trace[m].issued && !Claimable(trace[n].schedule, later)
    ensures n < |moves| && !moves[n].EngineMove? ==> trace[n + 1].engine == trace[n].engine
  {
    hide Linked, MoveOn, ValidMove;
    if n > m {
      RetiredForever(cal, trace, moves, m, n - 1, later);
      assert trace[n - 1 + 1] == MoveOn(cal, trace[n - 1], moves[n - 1]);
      MoveKeeps(cal, trace[n - 1], moves[n - 1]);
    }
    if n < |moves| && !moves[n].EngineMove? {
      assert trace[n + 1] == MoveOn(cal, trace[n], moves[n]);
      RetiredIsIdle(cal, trace[n], moves[n]);
    }
  }

  lemma RetiredIsIdle(cal: Calendar, f: Floor, m: Move)
    requires Linked(f.engine) && ValidMove(f, m) && f.schedule.state.Retired? && !m.EngineMove?
    ensures MoveOn(cal, f, m).engine == f.engine
  {
    hide Linked, Evaluate;
  }

  lemma {:induction false} VersionsGrow(cal: Calendar, trace: seq<Floor>, moves: seq<Move>, m: nat, n: nat)
    requires Path(cal, trace, moves) && m <= n < |trace|
    ensures trace[m].schedule.version <= trace[n].schedule.version
  {
    hide Linked, MoveOn, ValidMove;
    if n > m {
      VersionsGrow(cal, trace, moves, m, n - 1);
      assert trace[n - 1 + 1] == MoveOn(cal, trace[n - 1], moves[n - 1]);
      MoveKeeps(cal, trace[n - 1], moves[n - 1]);
    }
  }

  /** A rewrite or retirement withdraws every claim made before it: once the version has moved on, processing an older
      claim, at any later time, changes nothing at all. */
  lemma OldClaimsAreVoid(cal: Calendar, trace: seq<Floor>, moves: seq<Move>, m: nat, n: nat, c: ScheduleClaim, smear: nat, retry: int, now: Instant)
    requires Path(cal, trace, moves) && m <= n < |trace| && c.version < trace[m].schedule.version && Linked(trace[n].engine)
    requires c in trace[n].issued
    ensures MoveOn(cal, trace[n], ProcessMove(c, smear, retry, now)) == trace[n]
  {
    VersionsGrow(cal, trace, moves, m, n);
    hide Linked, Evaluate, Path;
  }
}

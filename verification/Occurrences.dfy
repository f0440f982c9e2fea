/** The jobs a schedule creates: over any interleaving, one per fired occurrence and no other, as long as nobody else
    uses the schedule's keys. */
module Occurrences {
  import opened TaskTypes
  import opened Lifecycle
  import opened LifecycleInvariant
  import opened LifecycleAdd
  import opened LifecycleMoves
  import opened LifecycleSettle
  import opened LifecycleRuns
  import opened LifecycleHistory
  import opened LifecycleStatus
  import opened LifecycleOrigins
  import opened Evaluation
  import opened Schedules
  import opened Firing

  /** The job holds a key of the schedule. */
  predicate Scheduled(j: Job, id: Id) {
    j.command.key.Some? && j.command.key.value.Occurrence? && j.command.key.value.schedule == id
  }

  /** A job's command changes only in its claim time. */
  predicate SameCommand(a: Command, b: Command) {
    a.(scheduledAt := None) == b.(scheduledAt := None)
  }

  predicate JobOfFired(j: Job, id: Id, t: Target, fired: seq<Instant>) {
    Scheduled(j, id) ==> j.command.key.value.at in fired && SameCommand(j.command, OccurrenceCommand(id, t, j.command.key.value.at))
  }

  ghost predicate HasJob(jobs: map<Id, Job>, id: Id, at: Instant) {
    exists i :: i in jobs && jobs[i].command.key == Some(Occurrence(id, at))
  }

  /** Every job of the schedule carries its command for a fired occurrence, every fired occurrence has a job, and no
      two jobs share one. */
  ghost predicate OnePerOccurrence(jobs: map<Id, Job>, id: Id, t: Target, fired: seq<Instant>) {
    && (forall i :: i in jobs ==> JobOfFired(jobs[i], id, t, fired))
    && (forall k :: 0 <= k < |fired| ==> HasJob(jobs, id, fired[k]))
    && (forall i, j :: i in jobs && j in jobs && Scheduled(jobs[i], id) && jobs[j].command.key == jobs[i].command.key ==> i == j)
  }

  // ---- calls of others -----------------------------------------------------------------------

  /** The call does not enqueue under a key of the schedule. */
  predicate Foreign(op: Op, id: Id) {
    op.OpEnqueue? && op.command.key.Some? && op.command.key.value.Occurrence? ==> op.command.key.value.schedule != id
  }

  lemma SameJobCommand(j: Job, j': Job, id: Id, t: Target, fired: seq<Instant>)
    requires SameIdentity(j, j')
    ensures j'.command.key == j.command.key && (JobOfFired(j, id, t, fired) ==> JobOfFired(j', id, t, fired))
  {
    SameKey(j, j');
  }

  lemma ForeignJob(s: State, op: Op, j: Job, id: Id)
    requires ComesFrom(s, op, j) && Foreign(op, id)
    ensures !Scheduled(j, id)
  {
  }

  /** Jobs keep their commands, and the new ones are not the schedule's. */
  ghost predicate OthersOnly(jobs: map<Id, Job>, jobs': map<Id, Job>, id: Id) {
    && (forall i :: i in jobs ==> i in jobs' && SameIdentity(jobs[i], jobs'[i]))
    && (forall i :: i in jobs' && i !in jobs ==> !Scheduled(jobs'[i], id))
  }

  lemma ForeignStep(s: State, op: Op, id: Id)
    requires Inv(s) && Linked(s) && ValidOp(op) && Foreign(op, id)
    ensures OthersOnly(s.jobs, Apply(s, op).jobs, id)
  {
    hide Inv, Linked, Apply, ComesFrom, Foreign, Scheduled, SameIdentity;
    StepEvolves(s, op);
    var t := Apply(s, op);
    forall i | i in s.jobs ensures i in t.jobs && SameIdentity(s.jobs[i], t.jobs[i]) {
      assert Evolves(s.nextId, s.jobs[i], t.jobs[i]);
    }
    forall i | i in t.jobs && i !in s.jobs ensures !Scheduled(t.jobs[i], id) {
      NewJobsComeFrom(s, op, i);
      ForeignJob(s, op, t.jobs[i], id);
    }
  }

  lemma OthersKeep(jobs: map<Id, Job>, jobs': map<Id, Job>, id: Id, t: Target, fired: seq<Instant>)
    requires OnePerOccurrence(jobs, id, t, fired) && OthersOnly(jobs, jobs', id)
    ensures OnePerOccurrence(jobs', id, t, fired)
  {
    hide SameIdentity;
    forall i | i in jobs ensures jobs'[i].command.key == jobs[i].command.key && JobOfFired(jobs'[i], id, t, fired) {
      SameJobCommand(jobs[i], jobs'[i], id, t, fired);
    }
    hide JobOfFired;
    forall i | i in jobs' ensures JobOfFired(jobs'[i], id, t, fired) {
      if i !in jobs { NotOfFired(jobs'[i], id, t, fired); }
    }
    forall k | 0 <= k < |fired| ensures HasJob(jobs', id, fired[k]) {
      assert HasJob(jobs, id, fired[k]);
      var i :| i in jobs && jobs[i].command.key == Some(Occurrence(id, fired[k]));
      assert jobs'[i].command.key == Some(Occurrence(id, fired[k]));
    }
    forall i, j | i in jobs' && j in jobs' && Scheduled(jobs'[i], id) && jobs'[j].command.key == jobs'[i].command.key ensures i == j {
      assert i in jobs && j in jobs;
    }
  }

  lemma NotOfFired(j: Job, id: Id, t: Target, fired: seq<Instant>)
    requires !Scheduled(j, id)
    ensures JobOfFired(j, id, t, fired)
  {
  }

  // ---- fires ---------------------------------------------------------------------------------

  /** A key of the schedule is in use only for a fired occurrence. */
  lemma UsedKeyWasFired(s: State, id: Id, t: Target, fired: seq<Instant>, at: Instant)
    requires Inv(s) && OnePerOccurrence(s.jobs, id, t, fired)
    ensures (t.queue, Occurrence(id, at)) in s.active ==> at in fired
  {
    hide IdsOk, GraphOk, StatusOk, AttemptsOk, MembersOk, WorkflowKeysOk, ParentsOk, AccountsOk, SameCommand;
    if (t.queue, Occurrence(id, at)) in s.active {
      var i := s.active[(t.queue, Occurrence(id, at))];
      assert HoldsKey(s.jobs[i], t.queue, Occurrence(id, at)) && JobOfFired(s.jobs[i], id, t, fired);
    }
  }

  lemma OneMoreOccurrence(jobs: map<Id, Job>, n: Id, id: Id, t: Target, fired: seq<Instant>, at: Instant)
    requires OnePerOccurrence(jobs, id, t, fired) && at !in fired && n !in jobs
    ensures OnePerOccurrence(jobs[n := NewJob(OccurrenceCommand(id, t, at), Queued, None, None)], id, t, fired + [at])
  {
    var job := NewJob(OccurrenceCommand(id, t, at), Queued, None, None);
    var jobs', all := jobs[n := job], fired + [at];
    forall i | i in jobs' ensures JobOfFired(jobs'[i], id, t, all) {
      if i != n { assert JobOfFired(jobs[i], id, t, fired); } else { assert all[|fired|] == at; }
    }
    forall k | 0 <= k < |all| ensures HasJob(jobs', id, all[k]) {
      if k < |fired| {
        assert HasJob(jobs, id, fired[k]);
        var i :| i in jobs && jobs[i].command.key == Some(Occurrence(id, fired[k]));
        assert jobs'[i].command.key == Some(Occurrence(id, all[k]));
      } else {
        assert jobs'[n].command.key == Some(Occurrence(id, at));
      }
    }
    forall i | i in jobs && Scheduled(jobs[i], id) ensures jobs[i].command.key != job.command.key {
      assert JobOfFired(jobs[i], id, t, fired);
    }
  }

  /** Firing new occurrences creates a job for each. */
  lemma {:induction false} EachCreates(s: State, id: Id, t: Target, fired: seq<Instant>, due: seq<Instant>)
    requires Inv(s) && Linked(s) && OnePerOccurrence(s.jobs, id, t, fired) && Increasing(due)
    requires forall k :: 0 <= k < |due| ==> due[k] !in fired
    ensures OnePerOccurrence(EnqueueAll(s, id, t, due).0.jobs, id, t, fired + due) && EnqueueAll(s, id, t, due).1 == |due|
  {
    hide Inv, Linked, OnePerOccurrence;
    if due != [] {
      var n := |due| - 1;
      EachCreates(s, id, t, fired, due[..n]);
      EnqueueAllInv(s, id, t, due[..n]);
      var u := EnqueueAll(s, id, t, due[..n]).0;
      LastIsNew(fired, due);
      UsedKeyWasFired(u, id, t, fired + due[..n], due[n]);
      FreshIdOf(u);
      OneMoreOccurrence(u.jobs, u.nextId, id, t, fired + due[..n], due[n]);
      assert fired + due[..n] + [due[n]] == fired + due;
    } else {
      assert fired + due == fired;
    }
  }

  lemma LastIsNew(fired: seq<Instant>, due: seq<Instant>)
    requires Increasing(due) && due != [] && due[|due| - 1] !in fired
    ensures due[|due| - 1] !in fired + due[..|due| - 1]
  {
  }

  // ---- the floor -----------------------------------------------------------------------------

  /** What was fired lies before what comes next, and has its jobs. */
  ghost predicate FloorJobs(f: Floor) {
    && OnePerOccurrence(f.engine.jobs, f.schedule.id, f.schedule.definition.target, f.fired)
    && Increasing(f.fired) && (forall k :: 0 <= k < |f.fired| ==> f.fired[k] < f.schedule.next)
  }

  /** Nobody else uses the schedule's keys, and a schedule that has fired is not set back to start over. */
  ghost predicate Quiet(cal: Calendar, f: Floor, m: Move)
    requires Linked(f.engine) && ValidMove(f, m)
  {
    && (m.EngineMove? ==> Foreign(m.op, f.schedule.id))
    && (f.schedule.initialized ==> MoveOn(cal, f, m).schedule.initialized)
  }

  lemma NoneFired(jobs: map<Id, Job>, id: Id, t: Target, t': Target)
    requires OnePerOccurrence(jobs, id, t, [])
    ensures OnePerOccurrence(jobs, id, t', [])
  {
    forall i | i in jobs ensures JobOfFired(jobs[i], id, t', []) {
      assert JobOfFired(jobs[i], id, t, []);
    }
  }

  /** The engine and the list are as they were; the schedule keeps its identifier, target and place. */
  lemma StillJobs(f: Floor, g: Floor)
    requires FloorJobs(f) && g.engine.jobs == f.engine.jobs && g.fired == f.fired && g.schedule.id == f.schedule.id
    requires g.schedule.next == f.schedule.next || f.fired == []
    requires g.schedule.definition.target == f.schedule.definition.target || f.fired == []
    ensures FloorJobs(g)
  {
    hide OnePerOccurrence;
    if f.fired == [] { NoneFired(f.engine.jobs, f.schedule.id, f.schedule.definition.target, g.schedule.definition.target); }
  }

  lemma ForeignMove(cal: Calendar, f: Floor, op: Op)
    requires FloorOk(f) && FloorJobs(f) && Linked(f.engine) && ValidOp(op) && Foreign(op, f.schedule.id)
    ensures FloorJobs(MoveOn(cal, f, EngineMove(op)))
  {
    hide Inv, Linked, Apply, OnePerOccurrence, OthersOnly, OnLattice, Foreign;
    ForeignStep(f.engine, op, f.schedule.id);
    OthersKeep(f.engine.jobs, Apply(f.engine, op).jobs, f.schedule.id, f.schedule.definition.target, f.fired);
  }

  /** An accepted fire of the live claim fires only what comes after everything fired before. */
  lemma FireMove(cal: Calendar, f: Floor, c: ScheduleClaim, smear: nat, retrySeconds: int, now: Instant)
    requires Lawful(cal) && FloorOk(f) && FloorJobs(f) && Linked(f.engine) && c in f.issued
    requires EvaluateClaim(cal, c, smear).Ok? && AcceptedFire(f.schedule, c.token, c.version, now)
    ensures FloorJobs(MoveOn(cal, f, ProcessMove(c, smear, retrySeconds, now)))
  {
    hide Inv, Linked, OnePerOccurrence, OnLattice, Lawful, Evaluate;
    assert ClaimCurrent(f.schedule, c);
    var e := EvaluateClaim(cal, c, smear).value;
    EvaluationIsGood(cal, c.definition.recurrence, c.definition.catchup, c.definition.maxCatchup, c.initialized, c.next, c.asOf, smear);
    EachCreates(f.engine, f.schedule.id, f.schedule.definition.target, f.fired, e.occurrences);
    if !f.schedule.initialized { assert f.fired + e.occurrences == e.occurrences; }
  }

  lemma RewriteMoveJobs(cal: Calendar, f: Floor, d: Definition, expected: Option<int>, now: Instant)
    requires FloorOk(f) && FloorJobs(f) && Linked(f.engine) && Quiet(cal, f, RewriteMove(d, expected, now))
    ensures FloorJobs(MoveOn(cal, f, RewriteMove(d, expected, now)))
  {
    hide Inv, Linked, OnePerOccurrence, OnLattice;
    var g := MoveOn(cal, f, RewriteMove(d, expected, now));
    if g.schedule.initialized && PauseOnly(f.schedule, d) {
      assert f.schedule.definition.(paused := true).target == d.target;
    }
    StillJobs(f, g);
  }

  lemma QuietMove(cal: Calendar, f: Floor, m: Move)
    requires Lawful(cal) && FloorOk(f) && FloorJobs(f) && Linked(f.engine) && ValidMove(f, m) && Quiet(cal, f, m)
    ensures FloorJobs(MoveOn(cal, f, m))
  {
    hide Inv, Linked, FloorOk, FloorJobs, Lawful, Evaluate;
    match m
    case EngineMove(op) => ForeignMove(cal, f, op);
    case ProcessMove(c, smear, retrySeconds, now) =>
      if EvaluateClaim(cal, c, smear).Ok? && AcceptedFire(f.schedule, c.token, c.version, now) {
        FireMove(cal, f, c, smear, retrySeconds, now);
      } else {
        StillJobs(f, MoveOn(cal, f, m));
      }
    case RewriteMove(d, expected, now) => RewriteMoveJobs(cal, f, d, expected, now);
    case _ => StillJobs(f, MoveOn(cal, f, m));
  }

  ghost predicate QuietPath(cal: Calendar, trace: seq<Floor>, moves: seq<Move>)
    requires Path(cal, trace, moves)
  {
    forall i :: 0 <= i < |moves| ==> Quiet(cal, trace[i], moves[i])
  }

  lemma {:induction false} QuietPathJobs(cal: Calendar, trace: seq<Floor>, moves: seq<Move>, n: nat)
    requires Lawful(cal) && Path(cal, trace, moves) && QuietPath(cal, trace, moves) && n < |trace|
    requires FloorOk(trace[0]) && FloorJobs(trace[0])
    ensures FloorOk(trace[n]) && FloorJobs(trace[n])
  {
    hide Lawful, FloorOk, FloorJobs, MoveOn, ValidMove, Quiet;
    if n > 0 {
      QuietPathJobs(cal, trace, moves, n - 1);
      MoveOk(cal, trace[n - 1], moves[n - 1]);
      QuietMove(cal, trace[n - 1], moves[n - 1]);
      assert trace[n - 1 + 1] == MoveOn(cal, trace[n - 1], moves[n - 1]);
    }
  }

  /** From the creation of a schedule on, whatever any number of schedulers, producers and workers do, and on any
      recurrence and catch-up policy: the jobs under the schedule's keys are one per fired occurrence, and each carries
      the schedule's command for it. */
  lemma OneJobPerOccurrence(cal: Calendar, s: State, d: Definition, now: Instant, trace: seq<Floor>, moves: seq<Move>, n: nat)
    requires Lawful(cal) && Inv(s) && Path(cal, trace, moves) && QuietPath(cal, trace, moves) && n < |trace|
    requires forall i :: i in s.jobs ==> !Scheduled(s.jobs[i], s.nextId)
    requires trace[0] == Floor(s.(nextId := s.nextId + 1), NewSchedule(s.nextId, d, now), {}, [], now)
    ensures var f := trace[n];
            OnePerOccurrence(f.engine.jobs, f.schedule.id, f.schedule.definition.target, f.fired) && Increasing(f.fired)
  {
    hide Lawful, Inv, Path, QuietPath, FloorOk;
    CreatedFloor(s, d, now);
    assert FloorJobs(trace[0]);
    QuietPathJobs(cal, trace, moves, n);
  }
}

/** Any number of schedulers working one schedule: claims, fires, errors, replays, stale tokens, rewrites
    and every engine call, interleaved in any order. */
module Firing {
  import opened TaskTypes
  import opened Lifecycle
  import opened LifecycleInvariant
  import opened LifecycleAdd
  import opened LifecycleRuns
  import opened LifecycleHistory
  import opened Evaluation
  import opened Schedules

  /** `issued` are all claims ever handed out. `fired` are the occurrences of the accepted fires since the
      definition was last (re)initialized, and `start` is the first firing after that. */
  datatype Floor = Floor(engine: State, schedule: Schedule, issued: set<ScheduleClaim>, fired: seq<Instant>, start: Instant)

  datatype Move =
    | EngineMove(op: Op)
    | ClaimMove(lease: int, now: Instant)
    | ProcessMove(claim: ScheduleClaim, smear: nat, retrySeconds: int, now: Instant)
    | ForeignFire(token: Id, version: int, due: seq<Instant>, next: Instant, now: Instant)
    | ErrorMove(token: Id, version: int, retrySeconds: int, now: Instant)
    | RewriteMove(definition: Definition, expected: Option<int>, now: Instant)
    | RetireMove(seen: int)

  /** Schedulers process claims they were given; anyone may fire with a token that is not the live one. */
  ghost predicate ValidMove(f: Floor, m: Move) {
    match m
    case EngineMove(op) => ValidOp(op)
    case ProcessMove(c, _, _, _) => c in f.issued
    case ForeignFire(token, _, _, _, _) => f.schedule.token != Some(token)
    case _ => true
  }

  function EvaluateClaim(cal: Calendar, c: ScheduleClaim, smear: nat): Result<Evaluated, Error> {
    Evaluate(cal, c.definition.recurrence, c.definition.catchup, c.definition.maxCatchup, c.initialized, c.next, c.asOf, smear)
  }

  function MoveOn(cal: Calendar, f: Floor, m: Move): Floor
    requires Linked(f.engine) && ValidMove(f, m)
  {
    match m
    case EngineMove(op) => f.(engine := Apply(f.engine, op))
    case ClaimMove(lease, now) =>
      if !Claimable(f.schedule, now) then f
      else
        var token := f.engine.nextId;
        f.(engine := f.engine.(nextId := token + 1), schedule := Leased(f.schedule, token, lease, now),
           issued := f.issued + {ClaimOf(f.schedule, token, lease, now)})
    case ProcessMove(c, smear, retrySeconds, now) =>
      var r := Process(cal, f.engine, f.schedule, c, smear, retrySeconds, now);
      var e := EvaluateClaim(cal, c, smear);
      if e.Ok? && AcceptedFire(f.schedule, c.token, c.version, now) then
        if f.schedule.initialized then f.(engine := r.0, schedule := r.1, fired := f.fired + e.value.occurrences)
        else f.(engine := r.0, schedule := r.1, fired := e.value.occurrences, start := e.value.next)
      else f.(engine := r.0, schedule := r.1)
    case ForeignFire(token, version, due, next, now) =>
      var r := Fire(f.engine, f.schedule, token, version, due, next, now);
      f.(engine := r.0, schedule := r.1)
    case ErrorMove(token, version, retrySeconds, now) =>
      f.(schedule := RecordError(f.schedule, token, version, retrySeconds, now).0)
    case RewriteMove(d, expected, now) =>
      var y := Rewrite(f.schedule, d, expected, now).0;
      f.(schedule := y, fired := if y.initialized then f.fired else [])
    case RetireMove(expected) => f.(schedule := Retire(f.schedule, expected).0)
  }

  /** A claim whose token is live was taken from the schedule as it stands. */
  predicate ClaimCurrent(x: Schedule, c: ScheduleClaim) {
    x.token == Some(c.token) ==>
      && c.version == x.version && c.next == x.next && c.initialized == x.initialized && c.definition == x.definition
      && c.next <= c.asOf
  }

  /** A catch-everything schedule on an interval. */
  predicate Exhaustive(d: Definition) {
    d.recurrence.Interval? && ValidInterval(d.recurrence.seconds) && d.catchup.FireAll?
  }

  predicate OnLattice(f: Floor) {
    Exhaustive(f.schedule.definition) && f.schedule.initialized ==>
      var s := f.schedule.definition.recurrence.seconds * SECOND;
      f.fired == Lattice(f.start, s, |f.fired|) && f.schedule.next == f.start + |f.fired| * s
  }

  ghost predicate FloorOk(f: Floor) {
    && Inv(f.engine)
    && (f.schedule.token.Some? ==> f.schedule.token.value < f.engine.nextId)
    && (forall c :: c in f.issued ==> c.token < f.engine.nextId && ClaimCurrent(f.schedule, c))
    && (!f.schedule.initialized ==> f.fired == [])
    && OnLattice(f)
  }

  /** A schedule as it is created, under a fresh identifier. */
  lemma CreatedFloor(s: State, d: Definition, now: Instant)
    requires Inv(s)
    ensures FloorOk(Floor(s.(nextId := s.nextId + 1), NewSchedule(s.nextId, d, now), {}, [], now))
  {
    SpendInv(s);
    hide Inv;
  }

  lemma SpendInv(s: State)
    requires Inv(s)
    ensures Inv(s.(nextId := s.nextId + 1))
  {
    SpendIdInv(s, s.known);
  }

  lemma SameLattice(f: Floor, g: Floor)
    requires OnLattice(f) && g.fired == f.fired && g.start == f.start
    requires g.schedule.next == f.schedule.next && g.schedule.initialized == f.schedule.initialized
    requires g.schedule.definition.(paused := false) == f.schedule.definition.(paused := false)
    ensures OnLattice(g)
  {
    assert g.schedule.definition.(paused := false).recurrence == f.schedule.definition.(paused := false).recurrence;
    assert g.schedule.definition.(paused := false).catchup == f.schedule.definition.(paused := false).catchup;
  }

  /** An accepted fire of the live claim appends the next stretch of the lattice. */
  lemma FireStaysOnLattice(cal: Calendar, f: Floor, c: ScheduleClaim, smear: nat, now: Instant, jobs: nat)
    requires OnLattice(f) && ClaimCurrent(f.schedule, c) && AcceptedFire(f.schedule, c.token, c.version, now)
    requires EvaluateClaim(cal, c, smear).Ok?
    ensures var e := EvaluateClaim(cal, c, smear).value;
            var y := Advanced(f.schedule, c.token, e.occurrences, e.next, jobs);
            OnLattice(f.(schedule := y, fired := if f.schedule.initialized then f.fired + e.occurrences else e.occurrences,
                         start := if f.schedule.initialized then f.start else e.next))
  {
    hide Lattice, Catch;
    var x := f.schedule;
    if Exhaustive(x.definition) {
      var s := x.definition.recurrence.seconds;
      SmearIsIdentity(cal, s, FireAll, c.definition.maxCatchup, c.initialized, c.next, c.asOf, smear);
      var e := EvaluateClaim(cal, c, smear).value;
      if x.initialized {
        CatchIsLattice(cal, s, c.next, c.asOf, c.definition.maxCatchup);
        NextStretch(f.start, s * SECOND, f.fired, x.next, e);
      } else {
        NoLattice(e.next, s * SECOND);
      }
    }
  }

  lemma NoLattice(start: Instant, step: int)
    ensures Lattice(start, step, 0) == []
  {
  }

  /** A stretch of the lattice that starts where another ends. */
  lemma NextStretch(start: Instant, step: int, fired: seq<Instant>, next: Instant, e: Evaluated)
    requires fired == Lattice(start, step, |fired|) && next == start + |fired| * step
    requires e.occurrences == Lattice(next, step, |e.occurrences|) && e.next == next + |e.occurrences| * step
    ensures var all := fired + e.occurrences; all == Lattice(start, step, |all|) && e.next == start + |all| * step
  {
    LatticeAppends(start, step, |fired|, |e.occurrences|);
    hide Lattice;
    assert |fired| * step + |e.occurrences| * step == (|fired| + |e.occurrences|) * step;
  }

  lemma ProcessOk(cal: Calendar, f: Floor, c: ScheduleClaim, smear: nat, retrySeconds: int, now: Instant)
    requires FloorOk(f) && Linked(f.engine) && c in f.issued
    ensures FloorOk(MoveOn(cal, f, ProcessMove(c, smear, retrySeconds, now)))
  {
    hide Inv, Linked, OnLattice, Evaluate;
    assert ClaimCurrent(f.schedule, c);
    var g := MoveOn(cal, f, ProcessMove(c, smear, retrySeconds, now));
    var e := EvaluateClaim(cal, c, smear);
    if e.Ok? && AcceptedFire(f.schedule, c.token, c.version, now) {
      var all := EnqueueAll(f.engine, f.schedule.id, f.schedule.definition.target, e.value.occurrences);
      EnqueueAllInv(f.engine, f.schedule.id, f.schedule.definition.target, e.value.occurrences);
      EnqueueAllIds(f.engine, f.schedule.id, f.schedule.definition.target, e.value.occurrences);
      FireStaysOnLattice(cal, f, c, smear, now, all.1);
      LatticeParts(f.(schedule := Advanced(f.schedule, c.token, e.value.occurrences, e.value.next, all.1),
                      fired := if f.schedule.initialized then f.fired + e.value.occurrences else e.value.occurrences,
                      start := if f.schedule.initialized then f.start else e.value.next), g);
    } else {
      SameLattice(f, g);
    }
  }

  /** The lattice fact does not read the engine nor the claims. */
  lemma LatticeParts(f: Floor, g: Floor)
    requires OnLattice(f) && g.schedule == f.schedule && g.fired == f.fired && g.start == f.start
    ensures OnLattice(g)
  {
  }

  lemma {:induction false} EnqueueAllIds(s: State, id: Id, t: Target, due: seq<Instant>)
    requires Linked(s)
    ensures EnqueueAll(s, id, t, due).0.nextId >= s.nextId
  {
    hide Linked;
    if due != [] { EnqueueAllIds(s, id, t, due[..|due| - 1]); }
  }

  lemma ClaimOk(cal: Calendar, f: Floor, lease: int, now: Instant)
    requires FloorOk(f) && Linked(f.engine)
    ensures FloorOk(MoveOn(cal, f, ClaimMove(lease, now)))
  {
    hide Inv, Linked, OnLattice;
    if Claimable(f.schedule, now) {
      SpendInv(f.engine);
      SameLattice(f, MoveOn(cal, f, ClaimMove(lease, now)));
    }
  }

  lemma MoveOk(cal: Calendar, f: Floor, m: Move)
    requires FloorOk(f) && ValidMove(f, m)
    ensures Linked(f.engine) && FloorOk(MoveOn(cal, f, m))
  {
    hide Inv, Linked, OnLattice, Lattice, Evaluate;
    InvLinks(f.engine);
    match m
    case EngineMove(op) =>
      StepInv(f.engine, op);
      StepIds(f.engine, op);
      SameLattice(f, MoveOn(cal, f, m));
    case ClaimMove(lease, now) => ClaimOk(cal, f, lease, now);
    case ProcessMove(c, smear, retrySeconds, now) => ProcessOk(cal, f, c, smear, retrySeconds, now);
    case ForeignFire(token, version, due, next, now) => SameLattice(f, MoveOn(cal, f, m));
    case ErrorMove(token, version, retrySeconds, now) => SameLattice(f, MoveOn(cal, f, m));
    case RewriteMove(d, expected, now) =>
      var g := MoveOn(cal, f, m);
      if g.schedule.initialized { SameLattice(f, g); } else { UninitializedLattice(g); }
    case RetireMove(expected) => SameLattice(f, MoveOn(cal, f, m));
  }

  lemma UninitializedLattice(f: Floor)
    requires !f.schedule.initialized
    ensures OnLattice(f)
  {
  }

  lemma StepIds(s: State, op: Op)
    requires Inv(s) && Linked(s) && ValidOp(op)
    ensures s.nextId <= Apply(s, op).nextId
  {
    hide Inv, Linked, Apply;
    StepEvolves(s, op);
  }

  /** A run is valid when each move was possible in the state it met. */
  ghost predicate Path(cal: Calendar, trace: seq<Floor>, moves: seq<Move>) {
    && |trace| == |moves| + 1
    && (forall i :: 0 <= i < |moves| ==>
          Linked(trace[i].engine) && ValidMove(trace[i], moves[i]) && trace[i + 1] == MoveOn(cal, trace[i], moves[i]))
  }

  /** In every reachable state the occurrences fired since initialization are d0, d0+s, d0+2s, ... without gap
      or duplicate, and the stored next firing is the following term. */
  lemma {:induction false} NoGapNoDuplicate(cal: Calendar, trace: seq<Floor>, moves: seq<Move>, n: nat)
    requires Path(cal, trace, moves) && n < |trace| && FloorOk(trace[0])
    ensures FloorOk(trace[n])
    ensures var f := trace[n];
            Exhaustive(f.schedule.definition) && f.schedule.initialized ==>
              var s := f.schedule.definition.recurrence.seconds * SECOND;
              && f.fired == Lattice(f.start, s, |f.fired|)
              && f.schedule.next == f.start + |f.fired| * s
              && (forall i, j :: 0 <= i < j < |f.fired| ==> f.fired[i] < f.fired[j] < f.schedule.next)
  {
    hide FloorOk, MoveOn, ValidMove;
    if n > 0 {
      NoGapNoDuplicate(cal, trace, moves, n - 1);
      MoveOk(cal, trace[n - 1], moves[n - 1]);
      assert trace[n - 1 + 1] == MoveOn(cal, trace[n - 1], moves[n - 1]);
    }
    LatticeOf(trace[n]);
    if Exhaustive(trace[n].schedule.definition) {
      LatticeIncreases(trace[n].start, trace[n].schedule.definition.recurrence.seconds * SECOND, |trace[n].fired|);
    }
  }

  /** The same from the creation of a schedule: whatever any number of schedulers and callers do with it. */
  lemma NoGapFromCreation(cal: Calendar, s: State, d: Definition, now: Instant, trace: seq<Floor>, moves: seq<Move>, n: nat)
    requires Inv(s) && Path(cal, trace, moves) && n < |trace|
    requires trace[0] == Floor(s.(nextId := s.nextId + 1), NewSchedule(s.nextId, d, now), {}, [], now)
    ensures var f := trace[n];
            Exhaustive(f.schedule.definition) && f.schedule.initialized ==>
              var step := f.schedule.definition.recurrence.seconds * SECOND;
              f.fired == Lattice(f.start, step, |f.fired|) && f.schedule.next == f.start + |f.fired| * step
  {
    hide Inv, Path, FloorOk;
    CreatedFloor(s, d, now);
    NoGapNoDuplicate(cal, trace, moves, n);
  }

  lemma LatticeOf(f: Floor)
    requires FloorOk(f)
    ensures OnLattice(f)
  {
    hide Inv, OnLattice;
  }

  lemma LatticeIncreases(start: Instant, step: int, n: nat)
    requires step > 0
    ensures var l := Lattice(start, step, n); forall i, j :: 0 <= i < j < n ==> l[i] < l[j] < start + n * step
  {
    var l := Lattice(start, step, n);
    forall i, j | 0 <= i < j < n ensures l[i] < l[j] < start + n * step {
      assert i * step < j * step by { LessTimes(i, j, step); }
      assert j * step < n * step by { LessTimes(j, n, step); }
    }
  }

  lemma LessTimes(a: int, b: int, k: int)
    requires a < b && k > 0
    ensures a * k < b * k
  {
    assert (b - a) * k > 0;
  }

  /** A fire that is not accepted, stale or replayed, changes neither the schedule nor the engine. */
  lemma RefusedFireChangesNothing(s: State, x: Schedule, token: Id, version: int, due: seq<Instant>, next: Instant, now: Instant)
    requires Linked(s)
    ensures var r := Fire(s, x, token, version, due, next, now);
            && (r.0 == s && r.1 == x <==> !AcceptedFire(x, token, version, now))
            && (AcceptedFire(x, token, version, now) ==> r.1.token.None? && Replay(r.1, token) && r.1.next == next)
  {
    hide Linked;
  }

  /** A token fires at most once: after its accepted fire it is only ever replayed or stale. */
  lemma FiredTokenIsSpent(s: State, x: Schedule, token: Id, version: int, due: seq<Instant>, next: Instant, now: Instant,
                          due2: seq<Instant>, next2: Instant, now2: Instant, version2: int)
    requires Linked(s) && AcceptedFire(x, token, version, now)
    ensures var r := Fire(s, x, token, version, due, next, now);
            && Linked(r.0)
            && Fire(r.0, r.1, token, version2, due2, next2, now2) == (r.0, r.1, r.2.(replayed := true))
  {
    hide Linked;
  }
}

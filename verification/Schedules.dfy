/** Leased schedules: definition, claim, fire and error, as functions on one schedule. */
module Schedules {
  import opened TaskTypes
  import opened Lifecycle
  import opened LifecycleInvariant
  import opened LifecycleAdd
  import opened Evaluation
  import opened Ordering

  /** The job a schedule creates; `settings` also stands for its concurrency key and back-off. */
  datatype Target = Target(
    queue: string, jobType: string, payload: string, settings: string, affinityKey: Option<string>,
    maxAttempts: Option<int>, leaseSeconds: Option<int>)

  datatype Definition = Definition(target: Target, recurrence: Recurrence, catchup: Catchup, maxCatchup: int, paused: bool)

  datatype ScheduleState = Active | Paused | Retired

  datatype FireOutcome = Initialized | Fired | Skipped | ErrorRecorded | Stale

  datatype ActionReply = ActionReply(outcome: FireOutcome, replayed: bool, jobs: nat, next: Instant, state: ScheduleState, version: int)

  datatype Schedule = Schedule(
    id: Id,
    definition: Definition,
    state: ScheduleState,
    next: Instant,
    version: int,
    initialized: bool,
    last: Option<Instant>,
    token: Option<Id>,
    claimAsOf: Option<Instant>,
    claimExpires: Option<Instant>,
    retryNotBefore: Option<Instant>,
    lastToken: Option<Id>,
    lastAction: Option<ActionReply>)

  datatype ScheduleClaim = ScheduleClaim(
    schedule: Id, version: int, asOf: Instant, definition: Definition, initialized: bool, next: Instant, token: Id, leaseSeconds: int)

  datatype WriteOutcome = WriteCreated | WriteUnchanged | WriteUpdated | WriteRetired | AlreadyRetired

  /** Tokens were drawn before `n`. */
  predicate TokensOk(x: Schedule, n: Id) {
    (x.token.Some? ==> x.token.value < n) && (x.lastToken.Some? ==> x.lastToken.value < n)
  }

  function StateOf(d: Definition): ScheduleState {
    if d.paused then Paused else Active
  }

  function NewSchedule(id: Id, d: Definition, now: Instant): Schedule {
    Schedule(id, d, StateOf(d), now, 1, false, None, None, None, None, None, None, None)
  }

  /** Only an active schedule that is otherwise unchanged keeps its place in the recurrence. */
  predicate PauseOnly(x: Schedule, d: Definition) {
    x.state.Active? && StateOf(d).Paused? && x.definition.(paused := true) == d
  }

  /** Rewriting an existing schedule; `expected` is the version the caller saw. */
  function Rewrite(x: Schedule, d: Definition, expected: Option<int>, now: Instant): (Schedule, Result<WriteOutcome, Error>) {
    match expected
    case None => (x, if x.definition != d then Err(Conflict("schedule_mismatch")) else Ok(WriteUnchanged))
    case Some(v) =>
      if v != x.version then (x, Err(Conflict("schedule_version_conflict")))
      else if x.state.Retired? then (x, Err(Conflict("schedule_retired")))
      else if x.definition == d && x.state == StateOf(d) then (x, Ok(WriteUnchanged))
      else
        var y := x.(definition := d, state := StateOf(d), version := x.version + 1, token := None, claimAsOf := None,
                    claimExpires := None, lastToken := None, lastAction := None);
        (if PauseOnly(x, d) then y else y.(initialized := false, next := now), Ok(WriteUpdated))
  }

  function Retire(x: Schedule, expected: int): (Schedule, Result<WriteOutcome, Error>) {
    if expected != x.version then (x, Err(Conflict("schedule_version_conflict")))
    else if x.state.Retired? then (x, Ok(AlreadyRetired))
    else
      (x.(state := Retired, version := x.version + 1, token := None, claimAsOf := None, claimExpires := None,
          lastToken := None, lastAction := None), Ok(WriteRetired))
  }

  predicate Claimable(x: Schedule, now: Instant) {
    && x.state.Active? && x.next <= now
    && (x.retryNotBefore.Some? ==> x.retryNotBefore.value <= now)
    && !(x.token.Some? && x.claimExpires.Some? && x.claimExpires.value > now)
  }

  function Leased(x: Schedule, token: Id, lease: int, now: Instant): Schedule {
    x.(token := Some(token), claimAsOf := Some(now), claimExpires := Some(now + lease * SECOND))
  }

  function ClaimOf(x: Schedule, token: Id, lease: int, now: Instant): ScheduleClaim {
    ScheduleClaim(x.id, x.version, now, x.definition, x.initialized, x.next, token, lease)
  }

  const MAX_CLAIMS := 100
  const MIN_LEASE := 5
  const MAX_LEASE := 300

  predicate ValidClaimQuery(limit: int, lease: int) {
    1 <= limit <= MAX_CLAIMS && MIN_LEASE <= lease <= MAX_LEASE
  }

  /** A claim with the name of its schedule. */
  type NamedClaim = (string, ScheduleClaim)

  ghost predicate Named(claims: seq<NamedClaim>, n: string) {
    exists k :: 0 <= k < |claims| && claims[k].0 == n
  }

  /** The claim stands for a claimable schedule and carries the token the schedule now holds. */
  predicate ClaimedAs(was: map<string, Schedule>, xs: map<string, Schedule>, c: NamedClaim, token: Id, lease: int, now: Instant) {
    && c.0 in was && c.0 in xs && Claimable(was[c.0], now)
    && c.1 == ClaimOf(was[c.0], token, lease, now) && xs[c.0] == Leased(was[c.0], token, lease, now)
  }

  /** `xs` is `was` with one fresh lease for each claim. */
  ghost predicate LeasedFor(was: map<string, Schedule>, xs: map<string, Schedule>, claims: seq<NamedClaim>, first: Id, lease: int, now: Instant) {
    && xs.Keys == was.Keys
    && (forall k :: 0 <= k < |claims| ==> ClaimedAs(was, xs, claims[k], first + k, lease, now))
    && (forall i, j :: 0 <= i < j < |claims| ==> claims[i].0 != claims[j].0)
    && (forall n :: n in was && !Named(claims, n) ==> xs[n] == was[n])
  }

  function Rank(xs: map<string, Schedule>, n: string): (Instant, string)
    requires n in xs
  {
    (xs[n].next, n)
  }

  /** The claims go to the claimable schedules that are due first, in that order; one is left out only
      when the limit is reached. */
  ghost predicate EarliestFirst(was: map<string, Schedule>, claims: seq<NamedClaim>, limit: int, now: Instant) {
    && |claims| <= limit
    && (forall k :: 0 <= k < |claims| ==> claims[k].0 in was)
    && (forall i, j :: 0 <= i < j < |claims| ==> TimedLe(Rank(was, claims[i].0), Rank(was, claims[j].0)))
    && (forall n :: n in was && Claimable(was[n], now) && !Named(claims, n) ==>
          |claims| == limit && forall k :: 0 <= k < |claims| ==> TimedLe(Rank(was, claims[k].0), Rank(was, n)))
  }

  /** All schedules, ranked, without repetition. */
  ghost predicate Ranking(was: map<string, Schedule>, ranked: seq<(Instant, string)>) {
    && Sorted(ranked, TimedLe) && Distinct(ranked)
    && (forall k :: 0 <= k < |ranked| ==> ranked[k].1 in was && ranked[k] == Rank(was, ranked[k].1))
    && (forall n :: n in was ==> Rank(was, n) in ranked)
  }

  /** The claims made so far: those of the claimable schedules in the first `k` ranks. */
  ghost predicate ClaimedPrefix(was: map<string, Schedule>, ranked: seq<(Instant, string)>, k: nat, claims: seq<NamedClaim>, now: Instant)
    requires k <= |ranked|
  {
    && (forall i :: 0 <= i < |claims| ==> claims[i].0 in was && Rank(was, claims[i].0) in ranked[..k])
    && (forall i, j :: 0 <= i < j < |claims| ==> TimedLe(Rank(was, claims[i].0), Rank(was, claims[j].0)))
    && (forall n :: n in was && Rank(was, n) in ranked[..k] && Claimable(was[n], now) ==> Named(claims, n))
  }

  lemma RankedBefore(was: map<string, Schedule>, ranked: seq<(Instant, string)>, k: nat, n: string)
    requires Ranking(was, ranked) && k < |ranked| && n in was && Rank(was, n) in ranked[..k]
    ensures TimedLe(Rank(was, n), ranked[k]) && n != ranked[k].1
  {
    var i :| 0 <= i < k && ranked[..k][i] == Rank(was, n);
    assert ranked[i] == Rank(was, n);
  }

  lemma ClaimNext(was: map<string, Schedule>, ranked: seq<(Instant, string)>, k: nat, claims: seq<NamedClaim>, now: Instant, c: NamedClaim)
    requires Ranking(was, ranked) && k < |ranked| && ClaimedPrefix(was, ranked, k, claims, now) && c.0 == ranked[k].1
    ensures ClaimedPrefix(was, ranked, k + 1, claims + [c], now) && !Named(claims, c.0)
  {
    hide Claimable, TimedLe;
    var all := claims + [c];
    assert ranked[..k + 1] == ranked[..k] + [ranked[k]];
    forall i | 0 <= i < |claims| ensures claims[i].0 != c.0 && TimedLe(Rank(was, claims[i].0), Rank(was, c.0)) {
      RankedBefore(was, ranked, k, claims[i].0);
    }
    forall n | n in was && Rank(was, n) in ranked[..k + 1] && Claimable(was[n], now) ensures Named(all, n) {
      if Rank(was, n) in ranked[..k] {
        var i :| 0 <= i < |claims| && claims[i].0 == n;
        assert all[i].0 == n;
      } else {
        assert all[|claims|].0 == n;
      }
    }
  }

  lemma PassNext(was: map<string, Schedule>, ranked: seq<(Instant, string)>, k: nat, claims: seq<NamedClaim>, now: Instant)
    requires Ranking(was, ranked) && k < |ranked| && ClaimedPrefix(was, ranked, k, claims, now)
    requires !Claimable(was[ranked[k].1], now)
    ensures ClaimedPrefix(was, ranked, k + 1, claims, now)
  {
    hide Claimable, TimedLe;
    assert ranked[..k + 1] == ranked[..k] + [ranked[k]];
  }

  lemma ClaimsDone(was: map<string, Schedule>, ranked: seq<(Instant, string)>, k: nat, claims: seq<NamedClaim>, limit: int, now: Instant)
    requires Ranking(was, ranked) && k <= |ranked| && ClaimedPrefix(was, ranked, k, claims, now)
    requires |claims| <= limit && (k == |ranked| || |claims| == limit)
    ensures EarliestFirst(was, claims, limit, now)
  {
    hide Claimable, TimedLe;
    forall n | n in was && Claimable(was[n], now) && !Named(claims, n)
      ensures |claims| == limit && forall i :: 0 <= i < |claims| ==> TimedLe(Rank(was, claims[i].0), Rank(was, n))
    {
      var at :| 0 <= at < |ranked| && ranked[at] == Rank(was, n);
      InPrefix(ranked, k, at);
      assert k <= at;
      forall i | 0 <= i < |claims| ensures TimedLe(Rank(was, claims[i].0), Rank(was, n)) {
        assert Rank(was, claims[i].0) in ranked[..at] by {
          assert Rank(was, claims[i].0) in ranked[..k];
          var j :| 0 <= j < k && ranked[..k][j] == Rank(was, claims[i].0);
          assert ranked[..at][j] == Rank(was, claims[i].0);
        }
        RankedBefore(was, ranked, at, claims[i].0);
      }
    }
  }

  lemma LeaseNext(was: map<string, Schedule>, xs: map<string, Schedule>, claims: seq<NamedClaim>, first: Id, lease: int, now: Instant, n: string)
    requires LeasedFor(was, xs, claims, first, lease, now) && n in was && !Named(claims, n) && Claimable(was[n], now)
    ensures xs[n] == was[n]
    ensures var token := first + |claims|;
            LeasedFor(was, xs[n := Leased(xs[n], token, lease, now)], claims + [(n, ClaimOf(xs[n], token, lease, now))], first, lease, now)
  {
    hide Claimable;
    var token := first + |claims|;
    var ys, all := xs[n := Leased(xs[n], token, lease, now)], claims + [(n, ClaimOf(xs[n], token, lease, now))];
    forall k | 0 <= k < |all| ensures ClaimedAs(was, ys, all[k], first + k, lease, now) {
      if k < |claims| { assert ClaimedAs(was, xs, claims[k], first + k, lease, now) && claims[k].0 != n; }
    }
    forall m | Named(claims, m) ensures Named(all, m) {
      var k :| 0 <= k < |claims| && claims[k].0 == m;
      assert all[k].0 == m;
    }
    assert all[|claims|].0 == n;
    assert forall m :: m in was && !Named(all, m) ==> ys[m] == was[m];
  }

  function OccurrenceCommand(id: Id, t: Target, due: Instant): Command {
    Command(t.queue, t.jobType, t.payload, t.settings, None, t.affinityKey, Some(due), Some(Occurrence(id, due)),
            t.maxAttempts, t.leaseSeconds, None, None, None)
  }

  /** Enqueue every occurrence, counting the jobs that are new. */
  function EnqueueAll(s: State, id: Id, t: Target, due: seq<Instant>): (r: (State, nat))
    requires Linked(s)
    ensures Linked(r.0)
  {
    if due == [] then (s, 0)
    else
      var (u, n) := EnqueueAll(s, id, t, due[..|due| - 1]);
      var (v, reply) := EnqueuePlain(u, OccurrenceCommand(id, t, due[|due| - 1]));
      EnqueueLinked(u, OccurrenceCommand(id, t, due[|due| - 1]));
      (v, n + if reply.Ok? && reply.value.Created? then 1 else 0)
  }

  lemma EnqueueLinked(s: State, c: Command)
    requires Linked(s) && c.workflow.None?
    ensures Linked(EnqueuePlain(s, c).0)
  {
  }

  predicate Replay(x: Schedule, token: Id) {
    x.lastToken == Some(token) && x.lastAction.Some?
  }

  predicate StaleFire(x: Schedule, token: Id, version: int, now: Instant) {
    !x.state.Active? || x.version != version || x.token != Some(token)
    || (x.claimExpires.Some? && x.claimExpires.value < now)
  }

  function ReplyNow(x: Schedule, outcome: FireOutcome, jobs: nat): ActionReply {
    ActionReply(outcome, false, jobs, x.next, x.state, x.version)
  }

  /** The schedule after an accepted fire. */
  function Advanced(x: Schedule, token: Id, due: seq<Instant>, next: Instant, jobs: nat): Schedule {
    var outcome := if !x.initialized then Initialized else if x.definition.catchup.Skip? then Skipped else Fired;
    var y := x.(initialized := true, next := next, last := if due != [] then Some(due[|due| - 1]) else x.last,
                token := None, claimAsOf := None, claimExpires := None, retryNotBefore := None);
    y.(lastToken := Some(token), lastAction := Some(ReplyNow(y, outcome, jobs)))
  }

  function Fire(s: State, x: Schedule, token: Id, version: int, due: seq<Instant>, next: Instant, now: Instant)
    : (State, Schedule, ActionReply)
    requires Linked(s)
  {
    if Replay(x, token) then (s, x, x.lastAction.value.(replayed := true))
    else if StaleFire(x, token, version, now) then (s, x, ReplyNow(x, Stale, 0))
    else
      var (t, jobs) := EnqueueAll(s, x.id, x.definition.target, due);
      var y := Advanced(x, token, due, next, jobs);
      (t, y, y.lastAction.value)
  }

  predicate AcceptedFire(x: Schedule, token: Id, version: int, now: Instant) {
    !Replay(x, token) && !StaleFire(x, token, version, now)
  }

  function RecordError(x: Schedule, token: Id, version: int, retrySeconds: int, now: Instant): (Schedule, ActionReply) {
    if x.version != version || x.token != Some(token) || !x.state.Active? then (x, ReplyNow(x, Stale, 0))
    else
      var y := x.(token := None, claimAsOf := None, claimExpires := None, retryNotBefore := Some(now + retrySeconds * SECOND));
      (y, ReplyNow(y, ErrorRecorded, 0))
  }

  /** What a scheduler does with one claim: evaluate it, then fire or report the error. */
  function Process(cal: Calendar, s: State, x: Schedule, c: ScheduleClaim, smear: nat, retrySeconds: int, now: Instant): (State, Schedule)
    requires Linked(s)
  {
    match Evaluate(cal, c.definition.recurrence, c.definition.catchup, c.definition.maxCatchup, c.initialized, c.next, c.asOf, smear)
    case Err(_) => (s, RecordError(x, c.token, c.version, retrySeconds, now).0)
    case Ok(e) =>
      var r := Fire(s, x, c.token, c.version, e.occurrences, e.next, now);
      (r.0, r.1)
  }

  // ---- what an accepted fire leaves in the engine ------------------------------------------

  lemma {:induction false} EnqueueAllInv(s: State, id: Id, t: Target, due: seq<Instant>)
    requires Inv(s) && Linked(s)
    ensures Inv(EnqueueAll(s, id, t, due).0)
  {
    hide Inv, Linked;
    if due != [] {
      var n := |due| - 1;
      EnqueueAllInv(s, id, t, due[..n]);
      EnqueuePlainInv(EnqueueAll(s, id, t, due[..n]).0, OccurrenceCommand(id, t, due[n]));
    }
  }

  /** Enqueueing more keeps the keys and the jobs that are there. */
  lemma EnqueueKeeps(s: State, c: Command)
    requires Linked(s) && s.nextId !in s.jobs && c.workflow.None? && c.key.Some?
    ensures var t := EnqueuePlain(s, c).0;
            && (c.queue, c.key.value) in t.active
            && (forall k :: k in s.active ==> k in t.active && t.active[k] == s.active[k])
            && (forall i :: i in s.jobs ==> i in t.jobs && t.jobs[i] == s.jobs[i])
  {
    hide Linked;
  }

  lemma FreshIdOf(s: State)
    requires Inv(s)
    ensures s.nextId !in s.jobs
  {
    hide GraphOk, StatusOk, AttemptsOk, MembersOk, WorkflowKeysOk, ActiveOk, ParentsOk, AccountsOk;
  }

  /** A new job for one of the occurrences. */
  predicate FiredJob(j: Job, id: Id, t: Target, due: seq<Instant>) {
    exists k :: 0 <= k < |due| && j == NewJob(OccurrenceCommand(id, t, due[k]), Queued, None, None)
  }

  lemma FiredLater(j: Job, id: Id, t: Target, due: seq<Instant>, n: nat)
    requires n <= |due| && FiredJob(j, id, t, due[..n])
    ensures FiredJob(j, id, t, due)
  {
    var k :| 0 <= k < n && j == NewJob(OccurrenceCommand(id, t, due[..n][k]), Queued, None, None);
    assert due[..n][k] == due[k];
  }

  lemma FiredNow(u: State, id: Id, t: Target, due: seq<Instant>, i: Id)
    requires Linked(u) && due != [] && i in EnqueuePlain(u, OccurrenceCommand(id, t, due[|due| - 1])).0.jobs && i !in u.jobs
    ensures FiredJob(EnqueuePlain(u, OccurrenceCommand(id, t, due[|due| - 1])).0.jobs[i], id, t, due)
  {
    hide Linked;
    var k := |due| - 1;
    assert EnqueuePlain(u, OccurrenceCommand(id, t, due[k])).0.jobs[i] == NewJob(OccurrenceCommand(id, t, due[k]), Queued, None, None);
  }

  /** Every occurrence of an accepted fire has a job under its own key, created now or before; what is created now
      carries the schedule's command for its occurrence. */
  lemma {:induction false} FiredAreQueued(s: State, id: Id, t: Target, due: seq<Instant>)
    requires Inv(s) && Linked(s)
    ensures var u := EnqueueAll(s, id, t, due).0;
            && (forall i :: 0 <= i < |due| ==> (t.queue, Occurrence(id, due[i])) in u.active)
            && (forall k :: k in s.active ==> k in u.active)
            && (forall i :: i in s.jobs ==> i in u.jobs && u.jobs[i] == s.jobs[i])
            && (forall i :: i in u.jobs && i !in s.jobs ==> FiredJob(u.jobs[i], id, t, due))
  {
    hide Inv, Linked, FiredJob;
    if due != [] {
      var n := |due| - 1;
      FiredAreQueued(s, id, t, due[..n]);
      EnqueueAllInv(s, id, t, due[..n]);
      var u := EnqueueAll(s, id, t, due[..n]).0;
      FreshIdOf(u);
      EnqueueKeeps(u, OccurrenceCommand(id, t, due[n]));
      var v := EnqueueAll(s, id, t, due).0;
      forall i | 0 <= i < |due| ensures (t.queue, Occurrence(id, due[i])) in v.active {
        if i < n { assert due[..n][i] == due[i]; }
      }
      forall i | i in v.jobs && i !in s.jobs ensures FiredJob(v.jobs[i], id, t, due) {
        if i in u.jobs { FiredLater(u.jobs[i], id, t, due, n); } else { FiredNow(u, id, t, due, i); }
      }
    }
  }
}

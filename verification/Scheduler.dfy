/** The scheduler process: claim a batch of schedules, evaluate each claim, then fire it or report the error. */
module Scheduler {
  import opened TaskTypes
  import opened Lifecycle
  import opened LifecycleInvariant
  import opened Evaluation
  import opened Schedules
  import opened Client

  /** A batch as a fold: each claim is processed on the schedule it names, at its own clock reading. */
  function ProcessAll(cal: Calendar, s: State, xs: map<string, Schedule>, claims: seq<NamedClaim>, smear: Id -> nat, retry: int, clock: nat -> Instant)
    : (r: (State, map<string, Schedule>))
    requires Linked(s)
    ensures Linked(r.0) && r.1.Keys == xs.Keys
  {
    if claims == [] then (s, xs)
    else
      var k := |claims| - 1;
      var (u, ys) := ProcessAll(cal, s, xs, claims[..k], smear, retry, clock);
      var (n, c) := (claims[k].0, claims[k].1);
      if n !in ys then (u, ys)
      else
        ProcessLinked(cal, u, ys[n], c, smear(c.schedule), retry, clock(k));
        var (v, y) := Process(cal, u, ys[n], c, smear(c.schedule), retry, clock(k));
        (v, ys[n := y])
  }

  lemma ProcessLinked(cal: Calendar, s: State, x: Schedule, c: ScheduleClaim, smear: nat, retry: int, now: Instant)
    requires Linked(s)
    ensures Linked(Process(cal, s, x, c, smear, retry, now).0)
  {
    hide Linked, Evaluate;
  }

  lemma {:induction false} EnqueueAllCounts(s: State, id: Id, t: Target, due: seq<Instant>)
    requires Linked(s)
    ensures |EnqueueAll(s, id, t, due).0.order| == |s.order| + EnqueueAll(s, id, t, due).1
    ensures EnqueueAll(s, id, t, due).0.nextId == s.nextId + EnqueueAll(s, id, t, due).1
  {
    hide Linked;
    if due != [] { EnqueueAllCounts(s, id, t, due[..|due| - 1]); }
  }

  /** What a fire reports as enqueued is what it added to the listing, an identifier each, unless it only replays an earlier report. */
  lemma FireCounts(s: State, x: Schedule, token: Id, version: int, due: seq<Instant>, next: Instant, now: Instant)
    requires Linked(s) && !Replay(x, token)
    ensures var f := Fire(s, x, token, version, due, next, now);
            |f.0.order| == |s.order| + f.2.jobs && f.0.nextId == s.nextId + f.2.jobs
  {
    hide Linked;
    EnqueueAllCounts(s, x.id, x.definition.target, due);
  }

  /** What processing a live, timely claim leaves: the lease is given back, and the schedule has moved to the
      evaluated firing or waits out an error. */
  predicate Handled(cal: Calendar, x: Schedule, c: ScheduleClaim, smear: nat, retry: int, now: Instant, y: Schedule) {
    var e := Evaluate(cal, c.definition.recurrence, c.definition.catchup, c.definition.maxCatchup, c.initialized, c.next, c.asOf, smear);
    && y.token.None? && y.version == x.version && y.definition == x.definition && y.state == x.state
    && (match e
        case Ok(v) => y.next == v.next && y.initialized && y.lastToken == Some(c.token) && y.retryNotBefore.None?
        case Err(_) => y.next == x.next && y.initialized == x.initialized && y.retryNotBefore == Some(now + retry * SECOND))
  }

  lemma ProcessHandles(cal: Calendar, s: State, was: Schedule, c: ScheduleClaim, token: Id, lease: int, claimedAt: Instant, smear: nat, retry: int,
                       now: Instant)
    requires Linked(s) && Claimable(was, claimedAt) && c == ClaimOf(was, token, lease, claimedAt)
    requires was.lastToken != Some(token) && now <= claimedAt + lease * SECOND
    ensures var x := Leased(was, token, lease, claimedAt); Handled(cal, x, c, smear, retry, now, Process(cal, s, x, c, smear, retry, now).1)
  {
    hide Linked, Evaluate;
  }

  ghost predicate AllHandled(cal: Calendar, xs: map<string, Schedule>, ys: map<string, Schedule>, claims: seq<NamedClaim>, smear: Id -> nat,
                             retry: int, clock: nat -> Instant) {
    forall k :: 0 <= k < |claims| ==> HandledAt(cal, xs, ys, claims[k], smear, retry, clock(k))
  }

  ghost predicate Untouched(xs: map<string, Schedule>, ys: map<string, Schedule>, claims: seq<NamedClaim>) {
    ys.Keys == xs.Keys && forall n :: n in xs && !Named(claims, n) ==> ys[n] == xs[n]
  }

  lemma OneMoreHandled(cal: Calendar, xs: map<string, Schedule>, ys: map<string, Schedule>, claims: seq<NamedClaim>, y: Schedule, smear: Id -> nat,
                       retry: int, clock: nat -> Instant)
    requires claims != [] && forall i, j :: 0 <= i < j < |claims| ==> claims[i].0 != claims[j].0
    requires AllHandled(cal, xs, ys, claims[..|claims| - 1], smear, retry, clock) && Untouched(xs, ys, claims[..|claims| - 1])
    requires var c := claims[|claims| - 1];
             c.0 in xs && Handled(cal, xs[c.0], c.1, smear(c.1.schedule), retry, clock(|claims| - 1), y)
    ensures var zs := ys[claims[|claims| - 1].0 := y]; AllHandled(cal, xs, zs, claims, smear, retry, clock) && Untouched(xs, zs, claims)
  {
    hide Handled;
    var k := |claims| - 1;
    var zs := ys[claims[k].0 := y];
    forall j | 0 <= j < |claims| ensures HandledAt(cal, xs, zs, claims[j], smear, retry, clock(j)) {
      if j < k { assert HandledAt(cal, xs, ys, claims[..k][j], smear, retry, clock(j)); }
    }
    forall m | m in xs && !Named(claims, m) ensures zs[m] == xs[m] {
      NamedBefore(claims, k, m);
    }
  }

  /** Each claimed schedule is processed once, the others not at all. */
  lemma {:induction false} BatchHandles(cal: Calendar, was: map<string, Schedule>, s: State, xs: map<string, Schedule>, claims: seq<NamedClaim>,
                                        first: Id, lease: int, claimedAt: Instant, smear: Id -> nat, retry: int, clock: nat -> Instant)
    requires Linked(s) && LeasedPart(was, xs, claims, first, lease, claimedAt)
    requires forall k :: 0 <= k < |claims| ==> clock(k) <= claimedAt + lease * SECOND
    ensures var ys := ProcessAll(cal, s, xs, claims, smear, retry, clock).1;
            AllHandled(cal, xs, ys, claims, smear, retry, clock) && Untouched(xs, ys, claims)
  {
    hide Linked, Process, Handled, Leased, ClaimOf, Claimable, AllHandled, LeasedPart;
    if claims != [] {
      var k := |claims| - 1;
      var before := claims[..k];
      PartBefore(was, xs, claims, first, lease, claimedAt);
      BatchHandles(cal, was, s, xs, before, first, lease, claimedAt, smear, retry, clock);
      var (u, ys) := ProcessAll(cal, s, xs, before, smear, retry, clock);
      var (n, c) := (claims[k].0, claims[k].1);
      LastOfPart(was, xs, claims, first, lease, claimedAt);
      ProcessHandles(cal, u, was[n], c, first + k, lease, claimedAt, smear(c.schedule), retry, clock(k));
      OneMoreHandled(cal, xs, ys, claims, Process(cal, u, ys[n], c, smear(c.schedule), retry, clock(k)).1, smear, retry, clock);
    } else {
      NothingHandled(cal, xs, smear, retry, clock);
    }
  }

  lemma NothingHandled(cal: Calendar, xs: map<string, Schedule>, smear: Id -> nat, retry: int, clock: nat -> Instant)
    ensures AllHandled(cal, xs, xs, [], smear, retry, clock)
  {
  }

  predicate HandledAt(cal: Calendar, xs: map<string, Schedule>, ys: map<string, Schedule>, c: NamedClaim, smear: Id -> nat, retry: int, now: Instant) {
    c.0 in xs && c.0 in ys && Handled(cal, xs[c.0], c.1, smear(c.1.schedule), retry, now, ys[c.0])
  }

  /** The claims as ClaimSchedules leaves them, with tokens that no schedule had seen. */
  ghost predicate LeasedPart(was: map<string, Schedule>, xs: map<string, Schedule>, claims: seq<NamedClaim>, first: Id, lease: int, now: Instant) {
    && xs.Keys == was.Keys
    && (forall k :: 0 <= k < |claims| ==> ClaimedAs(was, xs, claims[k], first + k, lease, now) && was[claims[k].0].lastToken != Some(first + k))
    && (forall i, j :: 0 <= i < j < |claims| ==> claims[i].0 != claims[j].0)
  }

  lemma PartBefore(was: map<string, Schedule>, xs: map<string, Schedule>, claims: seq<NamedClaim>, first: Id, lease: int, now: Instant)
    requires LeasedPart(was, xs, claims, first, lease, now) && claims != []
    ensures LeasedPart(was, xs, claims[..|claims| - 1], first, lease, now)
  {
  }

  lemma LastOfPart(was: map<string, Schedule>, xs: map<string, Schedule>, claims: seq<NamedClaim>, first: Id, lease: int, now: Instant)
    requires LeasedPart(was, xs, claims, first, lease, now) && claims != []
    ensures var k := |claims| - 1;
            && ClaimedAs(was, xs, claims[k], first + k, lease, now) && was[claims[k].0].lastToken != Some(first + k)
            && !Named(claims[..k], claims[k].0)
    ensures forall i, j :: 0 <= i < j < |claims| ==> claims[i].0 != claims[j].0
  {
    NotNamedBefore(claims, |claims| - 1);
  }

  lemma NotNamedBefore(claims: seq<NamedClaim>, k: nat)
    requires k < |claims| && forall i, j :: 0 <= i < j < |claims| ==> claims[i].0 != claims[j].0
    ensures !Named(claims[..k], claims[k].0)
  {
  }

  lemma NamedBefore(claims: seq<NamedClaim>, k: nat, m: string)
    requires k < |claims| && !Named(claims, m)
    ensures !Named(claims[..k], m) && m != claims[k].0
  {
    forall i | 0 <= i < k ensures claims[..k][i].0 != m {
      assert claims[i].0 != m;
    }
  }

  // ---- the process itself --------------------------------------------------------------------

  /** Tokens from `first` on were not seen by these schedules. */
  ghost predicate Unseen(xs: map<string, Schedule>, first: Id) {
    forall n :: n in xs ==> xs[n].lastToken.Some? ==> xs[n].lastToken.value < first
  }

  function FailedClaims(cal: Calendar, claims: seq<NamedClaim>, smear: Id -> nat): nat {
    if claims == [] then 0
    else
      var c := claims[|claims| - 1].1;
      FailedClaims(cal, claims[..|claims| - 1], smear) + if ClaimFails(cal, c, smear(c.schedule)) then 1 else 0
  }

  predicate ClaimFails(cal: Calendar, c: ScheduleClaim, smear: nat) {
    Evaluate(cal, c.definition.recurrence, c.definition.catchup, c.definition.maxCatchup, c.initialized, c.next, c.asOf, smear).Err?
  }

  lemma NoClaims(cal: Calendar, s: State, xs: map<string, Schedule>, smear: Id -> nat, retry: int, clock: nat -> Instant)
    requires Linked(s)
    ensures ProcessAll(cal, s, xs, [], smear, retry, clock) == (s, xs) && FailedClaims(cal, [], smear) == 0
  {
  }

  lemma EmptyBatch(cal: Calendar, s: State, xs: map<string, Schedule>, claims: seq<NamedClaim>, smear: Id -> nat, retry: int, clock: nat -> Instant)
    requires Linked(s) && claims == []
    ensures ProcessAll(cal, s, xs, claims, smear, retry, clock) == (s, xs)
  {
  }

  lemma TokensUnseen(queue: TaskQueue)
    requires queue.Valid()
    ensures Unseen(queue.schedules, queue.nextId)
  {
    hide Inv;
  }

  lemma AreLeased(was: map<string, Schedule>, xs: map<string, Schedule>, claims: seq<NamedClaim>, first: Id, lease: int, now: Instant)
    requires LeasedFor(was, xs, claims, first, lease, now) && Unseen(was, first)
    ensures LeasedPart(was, xs, claims, first, lease, now)
  {
    hide Claimable, Leased, ClaimOf;
  }

  lemma {:induction false} ProcessAllSkips(cal: Calendar, s: State, xs: map<string, Schedule>, claims: seq<NamedClaim>, smear: Id -> nat, retry: int,
                                           clock: nat -> Instant, n: string)
    requires Linked(s) && n in xs && !Named(claims, n)
    ensures ProcessAll(cal, s, xs, claims, smear, retry, clock).1[n] == xs[n]
  {
    hide Linked, Process;
    if claims != [] {
      NamedBefore(claims, |claims| - 1, n);
      ProcessAllSkips(cal, s, xs, claims[..|claims| - 1], smear, retry, clock, n);
    }
  }

  /** The k-th claim meets its schedule as it was leased, and cannot be a replay. */
  lemma BatchStep(cal: Calendar, was: map<string, Schedule>, s: State, xs: map<string, Schedule>, claims: seq<NamedClaim>, first: Id, lease: int,
                  now: Instant, smear: Id -> nat, retry: int, clock: nat -> Instant, k: nat)
    requires Linked(s) && LeasedPart(was, xs, claims, first, lease, now) && k < |claims|
    ensures var n, c, p := claims[k].0, claims[k].1, ProcessAll(cal, s, xs, claims[..k], smear, retry, clock);
            && n in xs && n in p.1 && p.1[n] == xs[n] && xs[n].id == c.schedule && !Replay(xs[n], c.token)
            && (var step := Process(cal, p.0, xs[n], c, smear(c.schedule), retry, clock(k));
                ProcessAll(cal, s, xs, claims[..k + 1], smear, retry, clock) == (step.0, p.1[n := step.1]))
            && FailedClaims(cal, claims[..k + 1], smear)
            == FailedClaims(cal, claims[..k], smear) + (if ClaimFails(cal, c, smear(c.schedule)) then 1 else 0)
  {
    hide Linked, Process, ClaimFails;
    assert ClaimedAs(was, xs, claims[k], first + k, lease, now);
    NotNamedBefore(claims, k);
    ProcessAllSkips(cal, s, xs, claims[..k], smear, retry, clock, claims[k].0);
    assert claims[..k + 1][..k] == claims[..k];
  }

  lemma NoneFailed(cal: Calendar, smear: Id -> nat)
    ensures FailedClaims(cal, [], smear) == 0
  {
  }

  lemma {:induction false} FailuresAddUp(cal: Calendar, a: seq<NamedClaim>, b: seq<NamedClaim>, smear: Id -> nat)
    ensures FailedClaims(cal, a + b, smear) == FailedClaims(cal, a, smear) + FailedClaims(cal, b, smear)
  {
    hide ClaimFails;
    if b == [] {
      assert a + b == a;
    } else {
      FailuresAddUp(cal, a, b[..|b| - 1], smear);
      assert (a + b)[..|a + b| - 1] == a + b[..|b| - 1];
    }
  }

  /** A batch is at most the limit, and an empty one means that nothing was claimable. */
  lemma BatchIsLimited(was: map<string, Schedule>, leased: map<string, Schedule>, claims: seq<NamedClaim>, first: Id, limit: int, lease: int, now: Instant)
    requires LeasedFor(was, leased, claims, first, lease, now) && EarliestFirst(was, claims, limit, now) && ValidClaimQuery(limit, lease)
    ensures |claims| <= limit
    ensures claims == [] ==> leased == was && NothingClaimable(was, now)
  {
    hide Claimable;
    if claims == [] {
      assert forall n :: !Named(claims, n);
    }
  }

  predicate NothingClaimable(xs: map<string, Schedule>, now: Instant) {
    forall n :: n in xs ==> !Claimable(xs[n], now)
  }

  /** What one pass of the loop finds: whether the service is asked to stop by then, the seconds since it began, and
      the clock of the batch. */
  datatype Turn = Turn(stop: bool, elapsed: real, now: Instant, clock: nat -> Instant)

  datatype RunOutcome = NothingDue | FiredAll | BudgetExhausted

  datatype Summary = Summary(outcome: RunOutcome, batches: int, claimed: nat, jobs: nat, errors: nat)

  class SchedulerEngine {
    const queue: TaskQueue
    const claimLimit: int
    const leaseSeconds: int
    const retrySeconds: int

    constructor (q: TaskQueue, limit: int, lease: int, retry: int)
      ensures queue == q && claimLimit == limit && leaseSeconds == lease && retrySeconds == retry
    {
      queue, claimLimit, leaseSeconds, retrySeconds := q, limit, lease, retry;
    }

    /** One claim: evaluate it from its own instants, then fire or report. */
    method ProcessClaim(cal: Calendar, n: string, c: ScheduleClaim, smear: nat, now: Instant) returns (jobs: nat, failed: bool)
      requires queue.Valid() && n in queue.schedules && queue.schedules[n].id == c.schedule && !Replay(queue.schedules[n], c.token)
      modifies queue
      ensures queue.Valid() && Linked(old(queue.Engine())) && queue.admissions == old(queue.admissions)
      ensures var p := Process(cal, old(queue.Engine()), old(queue.schedules)[n], c, smear, retrySeconds, now);
              queue.Engine() == p.0 && queue.schedules == old(queue.schedules)[n := p.1]
      ensures |queue.order| == |old(queue.order)| + jobs && queue.nextId == old(queue.nextId) + jobs
      ensures failed <==> ClaimFails(cal, c, smear)
    {
      hide Inv, Linked, Evaluate, Fire;
      queue.Links();
      var e := Evaluate(cal, c.definition.recurrence, c.definition.catchup, c.definition.maxCatchup, c.initialized, c.next, c.asOf, smear);
      if e.Err? {
        var reply := queue.ScheduleError(c.schedule, c.token, c.version, retrySeconds, now);
        return 0, true;
      }
      FireCounts(queue.Engine(), queue.schedules[n], c.token, c.version, e.value.occurrences, e.value.next, now);
      var reply := queue.FireSchedule(c.schedule, c.token, c.version, e.value.occurrences, e.value.next, now);
      jobs, failed := reply.value.jobs, false;
    }

    /** The body of the batch loop, claim by claim. */
    method ProcessClaims(cal: Calendar, claims: seq<NamedClaim>, smear: Id -> nat, clock: nat -> Instant, ghost was: map<string, Schedule>,
                         ghost first: Id, ghost now: Instant) returns (jobs: nat, errors: nat)
      requires queue.Valid() && LeasedPart(was, queue.schedules, claims, first, leaseSeconds, now)
      modifies queue
      ensures queue.Valid() && Linked(old(queue.Engine())) && queue.admissions == old(queue.admissions) && queue.nextId == old(queue.nextId) + jobs
      ensures (queue.Engine(), queue.schedules)
           == ProcessAll(cal, old(queue.Engine()), old(queue.schedules), claims, smear, retrySeconds, clock)
      ensures |queue.order| == |old(queue.order)| + jobs && errors == FailedClaims(cal, claims, smear)
    {
      hide Inv, Linked, Process, ProcessAll, FailedClaims, LeasedPart, Replay;
      queue.Links();
      ghost var s, leased := queue.Engine(), queue.schedules;
      NoClaims(cal, s, leased, smear, retrySeconds, clock);
      jobs, errors := 0, 0;
      var k := 0;
      assert claims[..0] == [];
      while k < |claims|
        invariant k <= |claims| && queue.Valid() && queue.admissions == old(queue.admissions) && queue.nextId == s.nextId + jobs
        invariant (queue.Engine(), queue.schedules) == ProcessAll(cal, s, leased, claims[..k], smear, retrySeconds, clock)
        invariant |queue.order| == |s.order| + jobs && errors == FailedClaims(cal, claims[..k], smear)
      {
        var (n, c) := (claims[k].0, claims[k].1);
        BatchStep(cal, was, s, leased, claims, first, leaseSeconds, now, smear, retrySeconds, clock, k);
        var more, failed := ProcessClaim(cal, n, c, smear(c.schedule), clock(k));
        jobs := jobs + more;
        if failed {
          errors := errors + 1;
        }
        k := k + 1;
      }
      assert claims[..k] == claims;
    }

    /** Claim what is due first and process each claim once. `clock(k)` is the time at the k-th claim. */
    method ProcessBatch(cal: Calendar, smear: Id -> nat, now: Instant, clock: nat -> Instant)
      returns (r: Result<(nat, nat, nat), Error>, ghost claims: seq<NamedClaim>, ghost leased: map<string, Schedule>)
      requires queue.Valid()
      modifies queue
      ensures queue.Valid() && queue.admissions == old(queue.admissions)
      ensures r.Ok? <==> ValidClaimQuery(claimLimit, leaseSeconds)
      ensures r.Err? ==> queue.Engine() == old(queue.Engine()) && queue.schedules == old(queue.schedules)
      ensures r.Ok? ==>
        && r.value.0 == |claims| && r.value.2 == FailedClaims(cal, claims, smear)
        && |queue.order| == |old(queue.order)| + r.value.1 && queue.nextId == old(queue.nextId) + |claims| + r.value.1
        && LeasedFor(old(queue.schedules), leased, claims, old(queue.nextId), leaseSeconds, now)
        && EarliestFirst(old(queue.schedules), claims, claimLimit, now)
        && (var s := old(queue.Engine()).(nextId := old(queue.nextId) + |claims|);
            Linked(s) && (queue.Engine(), queue.schedules) == ProcessAll(cal, s, leased, claims, smear, retrySeconds, clock))
      ensures r.Ok? && (forall k :: 0 <= k < |claims| ==> clock(k) <= now + leaseSeconds * SECOND) ==>
        AllHandled(cal, leased, queue.schedules, claims, smear, retrySeconds, clock) && Untouched(leased, queue.schedules, claims)
    {
      hide Inv, Linked, Process, LeasedFor, EarliestFirst, ProcessAll, AllHandled, Untouched, FailedClaims, LeasedPart, Unseen;
      ghost var was, first := queue.schedules, queue.nextId;
      TokensUnseen(queue);
      var batch := queue.ClaimSchedules(claimLimit, leaseSeconds, now);
      claims, leased := [], queue.schedules;
      if batch.Err? {
        return Err(batch.error), claims, leased;
      }
      claims := batch.value;
      queue.Links();
      ghost var s := queue.Engine();
      AreLeased(was, leased, claims, first, leaseSeconds, now);
      var jobs, errors := ProcessClaims(cal, batch.value, smear, clock, was, first, now);
      if forall k :: 0 <= k < |claims| ==> clock(k) <= now + leaseSeconds * SECOND {
        BatchHandles(cal, was, s, leased, claims, first, leaseSeconds, now, smear, retrySeconds, clock);
      }
      r := Ok((|batch.value|, jobs, errors));
    }

    /** Batches until nothing is due or a budget is spent. `handled` are the claims of all batches: the summary counts them,
        the failed ones among them and the jobs they added, and each claim and each job took one identifier. A run that
        reports that nothing is left due leaves no claimable schedule; one that reports a spent budget has spent it or was
        stopped. `stopped` is the stop flag as it was before the loop. */
    method RunOnce(cal: Calendar, smear: Id -> nat, stopped: bool, maxBatches: int, maxSeconds: real, turns: nat -> Turn)
      returns (r: Result<Summary, Error>, ghost handled: seq<NamedClaim>)
      requires queue.Valid()
      modifies queue
      ensures queue.Valid() && queue.admissions == old(queue.admissions)
      ensures maxBatches < 1 || maxSeconds <= 0.0 ==> r.Err? && queue.Engine() == old(queue.Engine()) && queue.schedules == old(queue.schedules)
      ensures r.Ok? ==>
        && 0 <= r.value.batches <= maxBatches && |queue.order| == |old(queue.order)| + r.value.jobs
        && r.value.claimed == |handled| <= r.value.batches * MAX_CLAIMS && r.value.errors == FailedClaims(cal, handled, smear)
        && queue.nextId == old(queue.nextId) + r.value.claimed + r.value.jobs
        && (r.value.outcome.BudgetExhausted? ==>
              var at := turns(r.value.batches); r.value.batches >= maxBatches || at.elapsed >= maxSeconds || at.stop)
        && (r.value.outcome.NothingDue? ==> r.value.claimed == 0) && (r.value.outcome.FiredAll? ==> r.value.claimed > 0)
        && (stopped ==> r.value == Summary(NothingDue, 0, 0, 0, 0) && queue.Engine() == old(queue.Engine()) && queue.schedules == old(queue.schedules))
        && (!r.value.outcome.BudgetExhausted? && !stopped ==> NothingClaimable(queue.schedules, turns(r.value.batches).now))
    {
      hide Inv, ProcessAll, AllHandled, Untouched, LeasedFor, EarliestFirst, NothingClaimable, FailedClaims;
      handled := [];
      if maxBatches < 1 || maxSeconds <= 0.0 {
        return Err(Config("once budgets must be positive")), handled;
      }
      var batches, claimed: nat, jobs: nat, errors: nat := 0, 0, 0, 0;
      if stopped {
        NoneFailed(cal, smear);
        return Ok(Summary(NothingDue, 0, 0, 0, 0)), handled;
      }
      NoneFailed(cal, smear);
      while batches < maxBatches && turns(batches).elapsed < maxSeconds
        invariant 0 <= batches <= maxBatches && queue.Valid() && queue.admissions == old(queue.admissions)
        invariant |queue.order| == |old(queue.order)| + jobs
        invariant claimed == |handled| <= batches * MAX_CLAIMS && errors == FailedClaims(cal, handled, smear)
        invariant queue.nextId == old(queue.nextId) + claimed + jobs
      {
        if turns(batches).stop {
          break;
        }
        ghost var before, was, first := queue.Engine(), queue.schedules, queue.nextId;
        var turn := turns(batches);
        var batch, claims, leased := ProcessBatch(cal, smear, turn.now, turn.clock);
        if batch.Err? {
          return Err(batch.error), handled;
        }
        BatchIsLimited(was, leased, claims, first, claimLimit, leaseSeconds, turn.now);
        FailuresAddUp(cal, handled, claims, smear);
        if batch.value.0 == 0 {
          EmptyBatch(cal, before.(nextId := first + |claims|), leased, claims, smear, retrySeconds, turn.clock);
          return Ok(Summary(if claimed == 0 then NothingDue else FiredAll, batches, claimed, jobs, errors)), handled;
        }
        handled := handled + claims;
        claimed := claimed + batch.value.0;
        jobs := jobs + batch.value.1;
        errors := errors + batch.value.2;
        batches := batches + 1;
      }
      r := Ok(Summary(BudgetExhausted, batches, claimed, jobs, errors));
    }
  }
}

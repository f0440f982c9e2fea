/** The worker's heartbeat loop in real time. Timers are ideal; the environment chooses how long each call
    takes and how it ends, and when the settlement is over. Instants are seconds of the worker's clock. */
module Heartbeat {
  import opened TaskTypes

  function Min(a: real, b: real): real {
    if a <= b then a else b
  }

  function Max(a: real, b: real): real {
    if a <= b then b else a
  }

  function Pace(lease: nat): real {
    Min(lease as real / 3.0, 30.0)
  }

  /** The longest a job may run without a confirmed heartbeat send. */
  function Budget(lease: nat): real {
    lease as real - Min(60.0, lease as real / 4.0)
  }

  lemma BudgetCoversTwoPaces(lease: nat)
    requires lease > 0
    ensures 0.0 < Pace(lease) && 2.0 * Pace(lease) <= Budget(lease) < lease as real
  {
  }

  /** The interval is the longest of at most half a minute that fits the lease three times; the budget leaves the longest
      reserve of at most a minute that fits it four times. */
  lemma PaceAndReserve(lease: nat)
    ensures var pace, reserve := Pace(lease), lease as real - Budget(lease);
            && pace <= 30.0 && 3.0 * pace <= lease as real && (pace == 30.0 || 3.0 * pace == lease as real)
            && reserve <= 60.0 && 4.0 * reserve <= lease as real && (reserve == 60.0 || 4.0 * reserve == lease as real)
  {
  }

  function Pow2(n: nat): nat {
    if n == 0 then 1 else 2 * Pow2(n - 1)
  }

  /** The wait after the n-th failure in a row, before it is clipped. */
  function Backoff(n: nat): real
    requires n > 0
  {
    0.25 * Pow2(if n - 1 <= 10 then n - 1 else 10) as real
  }

  datatype Ending = Confirmed | Refused | Retryable | Broken

  /** One turn of the loop: the settlement was found over, the call outlived its timer, or it ended by itself. */
  datatype Event = SettledAlready | Hang | Call(took: real, ending: Ending)

  predicate ValidEvents(events: seq<Event>) {
    forall i :: 0 <= i < |events| ==> events[i].Call? ==> 0.0 <= events[i].took
  }

  /** A stretch of running time together with the last send that was known to be confirmed then. */
  datatype Span = Span(from: real, to: real, lastOk: real)

  datatype End = Dropped(at: real, runtimeFailed: bool) | Stopped(at: real)

  /** The local variables at the top of the loop. */
  datatype Beat = Beat(now: real, lastOk: real, failures: nat, attempted: bool)

  datatype Turn = Halt(spans: seq<Span>, end: End) | Go(spans: seq<Span>, next: Beat)

  function FirstSleep(lease: nat, claimed: real, start: real): real {
    Max(0.0, Min(Pace(lease), (claimed + Budget(lease) - start) / 2.0))
  }

  function Begin(lease: nat, claimed: real, start: real): Beat {
    Beat(start + FirstSleep(lease, claimed, start), claimed, 0, false)
  }

  /** How long the next call may take. */
  function Limit(lease: nat, b: Beat): real {
    var remaining := b.lastOk + Budget(lease) - b.now;
    if b.attempted then remaining else Max(remaining, Pace(lease))
  }

  function RetrySleep(lease: nat, failures: nat, lastOk: real, now: real): real
    requires failures > 0
  {
    Max(0.0, Min(Min(Backoff(failures), Pace(lease)), lastOk + Budget(lease) - now))
  }

  function Step(lease: nat, b: Beat, e: Event): Turn {
    if e.SettledAlready? then Halt([], Stopped(b.now))
    else if b.attempted && b.lastOk + Budget(lease) - b.now <= 0.0 then Halt([], Dropped(b.now, false))
    else
      var limit := Limit(lease, b);
      if e.Hang? || e.took > limit then Halt([Span(b.now, b.now + limit, b.lastOk)], Dropped(b.now + limit, false))
      else
        var t := b.now + e.took;
        var call := Span(b.now, t, b.lastOk);
        match e.ending
        case Retryable =>
          var next := t + RetrySleep(lease, b.failures + 1, b.lastOk, t);
          Go([call, Span(t, next, b.lastOk)], Beat(next, b.lastOk, b.failures + 1, true))
        case Broken => Halt([call], Dropped(t, true))
        case Refused => Halt([call], Dropped(t, false))
        case Confirmed =>
          var next := t + Max(0.0, Pace(lease) - e.took);
          Go([call, Span(t, next, b.now)], Beat(next, b.now, 0, true))
  }

  /** Everything up to the end of the loop, or to the end of the events. */
  function Run(lease: nat, b: Beat, events: seq<Event>): (r: (seq<Span>, Option<End>))
    decreases |events|
  {
    if events == [] then ([], None)
    else
      match Step(lease, b, events[0])
      case Halt(spans, end) => (spans, Some(end))
      case Go(spans, next) =>
        var rest := Run(lease, next, events[1..]);
        (spans + rest.0, rest.1)
  }

  /** The loop itself. */
  method HeartbeatLoop(lease: nat, claimedAt: Option<real>, start: real, events: seq<Event>)
    returns (spans: seq<Span>, end: Option<End>)
    requires lease > 0
    ensures var claimed := if claimedAt.Some? then claimedAt.value else start;
            var first := Begin(lease, claimed, start);
            spans == [Span(start, first.now, claimed)] + Run(lease, first, events).0 && end == Run(lease, first, events).1
  {
    hide Run, Step;
    var interval, budget := Pace(lease), Budget(lease);
    var lastOk := if claimedAt.Some? then claimedAt.value else start;
    var failures: nat, attempted := 0, false;
    var now := start + Max(0.0, Min(interval, (lastOk + budget - start) / 2.0));
    ghost var first := Begin(lease, lastOk, start);
    spans := [Span(start, now, lastOk)];
    ghost var head := spans;
    var k := 0;
    assert events[0..] == events;
    while k < |events|
      invariant k <= |events|
      invariant head + Run(lease, first, events).0 == spans + Run(lease, Beat(now, lastOk, failures, attempted), events[k..]).0
      invariant Run(lease, first, events).1 == Run(lease, Beat(now, lastOk, failures, attempted), events[k..]).1
    {
      ghost var b := Beat(now, lastOk, failures, attempted);
      RunUnfolds(lease, b, events, k, spans);
      if events[k].SettledAlready? {
        StepCases(lease, b, events[k]);
        return spans, Some(Stopped(now));
      }
      var remaining := lastOk + budget - now;
      if attempted && remaining <= 0.0 {
        StepCases(lease, b, events[k]);
        return spans, Some(Dropped(now, false));
      }
      if !attempted {
        remaining := Max(remaining, interval);
      }
      var sent, was := now, spans;
      var done: Option<End>;
      now, lastOk, failures, spans, done := CallOnce(lease, b, remaining, events[k], now, lastOk, failures, spans);
      attempted := true;
      if done.Some? {
        return spans, done;
      }
      k := k + 1;
    }
    RunNothing(lease, Beat(now, lastOk, failures, attempted), events[k..]);
    end := None;
  }

  /** One heartbeat call, bounded by its timer, and the sleep after it. */
  method CallOnce(lease: nat, ghost b: Beat, remaining: real, e: Event, sent: real, lastOk: real, failures: nat, spans: seq<Span>)
    returns (now: real, lastOk': real, failures': nat, spans': seq<Span>, done: Option<End>)
    requires b == Beat(sent, lastOk, failures, b.attempted) && remaining == Limit(lease, b)
    requires !e.SettledAlready? && !(b.attempted && lastOk + Budget(lease) - sent <= 0.0)
    ensures match Step(lease, b, e)
            case Halt(more, end) => spans' == spans + more && done == Some(end)
            case Go(more, next) => spans' == spans + more && done.None? && next == Beat(now, lastOk', failures', true)
  {
    var interval := Pace(lease);
    lastOk', failures' := lastOk, failures;
    if e.Hang? || e.took > remaining {
      now := sent + remaining;
      return now, lastOk', failures', spans + [Span(sent, now, lastOk)], Some(Dropped(now, false));
    }
    now := sent + e.took;
    var call := Span(sent, now, lastOk);
    done := None;
    match e.ending {
      case Retryable =>
        failures' := failures + 1;
        var wake := now + Max(0.0, Min(Min(Backoff(failures'), interval), lastOk + Budget(lease) - now));
        spans' := spans + [call, Span(now, wake, lastOk)];
        now := wake;
      case Broken =>
        spans', done := spans + [call], Some(Dropped(now, true));
      case Refused =>
        spans', done := spans + [call], Some(Dropped(now, false));
      case Confirmed =>
        lastOk', failures' := sent, 0;
        var wake := now + Max(0.0, interval - (now - sent));
        spans' := spans + [call, Span(now, wake, lastOk')];
        now := wake;
    }
  }

  lemma RunNothing(lease: nat, b: Beat, events: seq<Event>)
    requires events == []
    ensures Run(lease, b, events) == ([], None)
  {
  }

  lemma StepCases(lease: nat, b: Beat, e: Event)
    ensures e.SettledAlready? ==> Step(lease, b, e) == Halt([], Stopped(b.now))
    ensures !e.SettledAlready? && b.attempted && b.lastOk + Budget(lease) - b.now <= 0.0 ==>
              Step(lease, b, e) == Halt([], Dropped(b.now, false))
  {
  }

  lemma RunUnfolds(lease: nat, b: Beat, events: seq<Event>, k: nat, spans: seq<Span>)
    requires k < |events|
    ensures var step := Step(lease, b, events[k]);
            match step
            case Halt(more, end) => Run(lease, b, events[k..]) == (more, Some(end))
            case Go(more, next) =>
              && spans + Run(lease, b, events[k..]).0 == spans + more + Run(lease, next, events[k + 1..]).0
              && Run(lease, b, events[k..]).1 == Run(lease, next, events[k + 1..]).1
  {
    assert events[k..][0] == events[k] && events[k..][1..] == events[k + 1..];
  }

  // ---- safety at every instant ---------------------------------------------------------------

  /** The latest instant the job may still run before any heartbeat is confirmed. */
  function FirstDeadline(lease: nat, claimed: real, start: real): real {
    Max(claimed + Budget(lease), start + FirstSleep(lease, claimed, start) + Pace(lease))
  }

  /** Where the loop may stand: once a heartbeat was confirmed the budget holds, before that the first deadline. */
  predicate BeatOk(lease: nat, claimed: real, start: real, b: Beat) {
    && claimed <= b.lastOk <= b.now
    && (b.lastOk > claimed ==> b.attempted && b.now <= b.lastOk + Budget(lease))
    && (b.lastOk == claimed ==> b.now <= FirstDeadline(lease, claimed, start))
    && (!b.attempted ==> b == Begin(lease, claimed, start))
  }

  predicate SpanOk(lease: nat, claimed: real, start: real, s: Span) {
    && claimed <= s.lastOk <= s.from <= s.to
    && (s.lastOk > claimed ==> s.to <= s.lastOk + Budget(lease))
    && (s.lastOk == claimed ==> s.to <= FirstDeadline(lease, claimed, start))
  }

  /** The spans follow each other from `from` up to `to`, and each respects its bound. */
  predicate Timeline(lease: nat, claimed: real, start: real, spans: seq<Span>, from: real, to: real)
    decreases |spans|
  {
    if spans == [] then from == to
    else
      && SpanOk(lease, claimed, start, spans[0]) && spans[0].from == from
      && Timeline(lease, claimed, start, spans[1..], spans[0].to, to)
  }

  lemma {:induction false} TimelineJoins(lease: nat, claimed: real, start: real, a: seq<Span>, b: seq<Span>, from: real, mid: real, to: real)
    requires Timeline(lease, claimed, start, a, from, mid) && Timeline(lease, claimed, start, b, mid, to)
    ensures Timeline(lease, claimed, start, a + b, from, to)
    decreases |a|
  {
    if a == [] {
      assert a + b == b;
    } else {
      TimelineJoins(lease, claimed, start, a[1..], b, a[0].to, mid, to);
      assert (a + b)[0] == a[0] && (a + b)[1..] == a[1..] + b;
    }
  }

  lemma {:induction false} TimelineAt(lease: nat, claimed: real, start: real, spans: seq<Span>, from: real, to: real, t: real)
    requires Timeline(lease, claimed, start, spans, from, to) && from <= t <= to && spans != []
    ensures exists i :: 0 <= i < |spans| && spans[i].from <= t <= spans[i].to && SpanOk(lease, claimed, start, spans[i])
    decreases |spans|
  {
    if t <= spans[0].to {
      assert spans[0].from <= t <= spans[0].to;
    } else {
      TimelineAt(lease, claimed, start, spans[1..], spans[0].to, to, t);
      var i :| 0 <= i < |spans[1..]| && spans[1..][i].from <= t <= spans[1..][i].to && SpanOk(lease, claimed, start, spans[1..][i]);
      assert spans[i + 1].from <= t <= spans[i + 1].to;
    }
  }

  function StepEnd(step: Turn): real {
    match step
    case Halt(_, end) => end.at
    case Go(_, next) => next.now
  }

  lemma StepSafe(lease: nat, claimed: real, start: real, b: Beat, e: Event)
    requires lease > 0 && claimed <= start && BeatOk(lease, claimed, start, b)
    requires e.Call? ==> 0.0 <= e.took
    ensures var step := Step(lease, b, e);
            && |step.spans| <= 2
            && (|step.spans| == 0 ==> StepEnd(step) == b.now)
            && (|step.spans| > 0 ==> step.spans[0].from == b.now && SpanOk(lease, claimed, start, step.spans[0]))
            && (|step.spans| == 1 ==> step.spans[0].to == StepEnd(step))
            && (|step.spans| == 2 ==> step.spans[1].from == step.spans[0].to && SpanOk(lease, claimed, start, step.spans[1])
                                      && step.spans[1].to == StepEnd(step))
            && (step.Go? ==> BeatOk(lease, claimed, start, step.next))
  {
    BudgetCoversTwoPaces(lease);
  }

  lemma StepTimeline(lease: nat, claimed: real, start: real, b: Beat, e: Event)
    requires lease > 0 && claimed <= start && BeatOk(lease, claimed, start, b)
    requires e.Call? ==> 0.0 <= e.took
    ensures var step := Step(lease, b, e);
            && Timeline(lease, claimed, start, step.spans, b.now, StepEnd(step))
            && (step.Go? ==> BeatOk(lease, claimed, start, step.next))
  {
    hide Step, SpanOk, BeatOk;
    StepSafe(lease, claimed, start, b, e);
    var spans := Step(lease, b, e).spans;
    if |spans| == 2 {
      assert spans[1..] == [spans[1]] && [spans[1]][1..] == [];
      assert Timeline(lease, claimed, start, [spans[1]], spans[0].to, spans[1].to);
    }
  }

  /** When the loop ended, or where it stands after all events. */
  function RunEnd(lease: nat, b: Beat, events: seq<Event>): (t: real)
    ensures Run(lease, b, events).1.Some? ==> t == Run(lease, b, events).1.value.at
    decreases |events|
  {
    if events == [] then b.now
    else
      match Step(lease, b, events[0])
      case Halt(_, end) => end.at
      case Go(_, next) => RunEnd(lease, next, events[1..])
  }

  lemma {:induction false} RunSafe(lease: nat, claimed: real, start: real, b: Beat, events: seq<Event>)
    requires lease > 0 && claimed <= start && BeatOk(lease, claimed, start, b) && ValidEvents(events)
    ensures Timeline(lease, claimed, start, Run(lease, b, events).0, b.now, RunEnd(lease, b, events))
    decreases |events|
  {
    hide Step, SpanOk, BeatOk;
    if events != [] {
      StepTimeline(lease, claimed, start, b, events[0]);
      match Step(lease, b, events[0])
      case Halt(_, _) =>
      case Go(spans, next) =>
        RunSafe(lease, claimed, start, next, events[1..]);
        TimelineJoins(lease, claimed, start, spans, Run(lease, next, events[1..]).0, b.now, next.now, RunEnd(lease, next, events[1..]));
    }
  }

  /** What HeartbeatLoop returns. */
  function Spans(lease: nat, claimed: real, start: real, events: seq<Event>): seq<Span> {
    var first := Begin(lease, claimed, start);
    [Span(start, first.now, claimed)] + Run(lease, first, events).0
  }

  /** Lease safety at every instant of every run: once a heartbeat was confirmed, the last confirmed send is at
      most the budget old; before that the run stops by the first deadline. A claim young enough is within the
      budget from the start. */
  lemma LeaseSafety(lease: nat, claimed: real, start: real, events: seq<Event>, t: real)
    requires lease > 0 && claimed <= start && ValidEvents(events)
    requires start <= t <= RunEnd(lease, Begin(lease, claimed, start), events)
    ensures var spans := Spans(lease, claimed, start, events);
            exists i :: 0 <= i < |spans| && spans[i].from <= t <= spans[i].to
              && (spans[i].lastOk > claimed || start - claimed <= Budget(lease) - 2.0 * Pace(lease) ==> t - spans[i].lastOk <= Budget(lease))
              && (spans[i].lastOk <= claimed ==> spans[i].lastOk == claimed && t <= FirstDeadline(lease, claimed, start))
  {
    hide Run, RunEnd, BeatOk;
    var first := Begin(lease, claimed, start);
    var spans := Spans(lease, claimed, start, events);
    BeginOk(lease, claimed, start);
    RunSafe(lease, claimed, start, first, events);
    assert spans[1..] == Run(lease, first, events).0;
    TimelineAt(lease, claimed, start, spans, start, RunEnd(lease, first, events), t);
    YoungClaim(lease, claimed, start);
  }

  lemma BeginOk(lease: nat, claimed: real, start: real)
    requires lease > 0 && claimed <= start
    ensures BeatOk(lease, claimed, start, Begin(lease, claimed, start))
    ensures SpanOk(lease, claimed, start, Span(start, Begin(lease, claimed, start).now, claimed))
  {
  }

  /** The young claim's first call ends inside the budget. */
  lemma YoungClaim(lease: nat, claimed: real, start: real)
    requires lease > 0 && claimed <= start
    ensures start - claimed <= Budget(lease) - 2.0 * Pace(lease) ==>
              FirstSleep(lease, claimed, start) == Pace(lease) && FirstDeadline(lease, claimed, start) == claimed + Budget(lease)
  {
  }

  /** The budget holds from the start exactly for young claims: for any older claim a first call that hangs
      outlives it, up to the first deadline. */
  lemma BudgetFromStartIff(lease: nat, claimed: real, start: real)
    requires lease > 0 && claimed <= start
    ensures var hung := RunEnd(lease, Begin(lease, claimed, start), [Hang]);
            hung == FirstDeadline(lease, claimed, start)
            && (hung <= claimed + Budget(lease) <==> start - claimed <= Budget(lease) - 2.0 * Pace(lease))
  {
    BudgetCoversTwoPaces(lease);
    assert Step(lease, Begin(lease, claimed, start), Hang).Halt?;
  }

  /** The first call, however long it hangs, ends before the lease of the claim. */
  predicate FirstCallInLease(lease: nat, claimed: real, start: real) {
    start + FirstSleep(lease, claimed, start) + Pace(lease) <= claimed + lease as real
  }

  /** The server hands the job on only after the lease of every send that was known to be confirmed at `t`. */
  ghost predicate HandedOnAfter(lease: nat, spans: seq<Span>, t: real, handed: real) {
    forall i :: 0 <= i < |spans| && spans[i].from <= t <= spans[i].to ==> handed >= spans[i].lastOk + lease as real
  }

  /** By `t` some heartbeat was confirmed. */
  ghost predicate ConfirmedBy(claimed: real, spans: seq<Span>, t: real) {
    forall i :: 0 <= i < |spans| && spans[i].from <= t <= spans[i].to ==> spans[i].lastOk > claimed
  }

  /** Such a server never overlaps the run once a heartbeat was confirmed, nor at any time of a young claim, and leaves
      it a quarter of the lease, up to a minute, to wind down. It does not overlap a claim of any age whose first call
      ends within the lease. */
  lemma NoOverlap(lease: nat, claimed: real, start: real, events: seq<Event>, t: real, handed: real)
    requires lease > 0 && claimed <= start && ValidEvents(events)
    requires start <= t <= RunEnd(lease, Begin(lease, claimed, start), events)
    requires HandedOnAfter(lease, Spans(lease, claimed, start, events), t, handed)
    ensures start - claimed <= Budget(lease) - 2.0 * Pace(lease) || ConfirmedBy(claimed, Spans(lease, claimed, start, events), t) ==>
              t + Min(60.0, lease as real / 4.0) <= handed
    ensures FirstCallInLease(lease, claimed, start) ==> t <= handed
  {
    hide Spans, Begin, RunEnd;
    LeaseSafety(lease, claimed, start, events, t);
  }

  /** At `t` the run is covered by the lease of a send known to be confirmed. */
  ghost predicate Covered(lease: nat, claimed: real, start: real, events: seq<Event>, t: real) {
    var spans := Spans(lease, claimed, start, events);
    exists i :: 0 <= i < |spans| && spans[i].from <= t <= spans[i].to && t <= spans[i].lastOk + lease as real
  }

  /** At every instant of every run. */
  ghost predicate AlwaysCovered(lease: nat, claimed: real, start: real) {
    forall events, t :: ValidEvents(events) && start <= t <= RunEnd(lease, Begin(lease, claimed, start), events) ==>
      Covered(lease, claimed, start, events, t)
  }

  /** No run of a claim outlives the leases the server granted exactly when its first call ends within the claim's own
      lease. The one run that decides it is a first call that hangs. */
  lemma NoOverlapIff(lease: nat, claimed: real, start: real)
    requires lease > 0 && claimed <= start
    ensures AlwaysCovered(lease, claimed, start) <==> FirstCallInLease(lease, claimed, start)
  {
    hide Run, RunEnd, Begin, Covered, FirstSleep;
    if FirstCallInLease(lease, claimed, start) {
      forall events, t | ValidEvents(events) && start <= t <= RunEnd(lease, Begin(lease, claimed, start), events)
        ensures Covered(lease, claimed, start, events, t)
      {
        CoveredInLease(lease, claimed, start, events, t);
      }
    } else {
      HangUncovered(lease, claimed, start);
    }
  }

  lemma CoveredInLease(lease: nat, claimed: real, start: real, events: seq<Event>, t: real)
    requires lease > 0 && claimed <= start && ValidEvents(events) && FirstCallInLease(lease, claimed, start)
    requires start <= t <= RunEnd(lease, Begin(lease, claimed, start), events)
    ensures Covered(lease, claimed, start, events, t)
  {
    hide Spans, Begin, RunEnd;
    LeaseSafety(lease, claimed, start, events, t);
  }

  lemma HangUncovered(lease: nat, claimed: real, start: real)
    requires lease > 0 && claimed <= start && !FirstCallInLease(lease, claimed, start)
    ensures ValidEvents([Hang]) && start <= RunEnd(lease, Begin(lease, claimed, start), [Hang])
    ensures !Covered(lease, claimed, start, [Hang], RunEnd(lease, Begin(lease, claimed, start), [Hang]))
  {
    BudgetFromStartIff(lease, claimed, start);
    BeginOk(lease, claimed, start);
    var first := Begin(lease, claimed, start);
    assert Step(lease, first, Hang).Halt?;
    assert Run(lease, first, [Hang]).0 == [Span(first.now, first.now + Limit(lease, first), claimed)];
  }

  /** An instance: a claim of twelve seconds that is eight old when its loop starts may run half a second too long. */
  lemma OldClaimOverlaps()
    ensures RunEnd(12, Begin(12, 0.0, 8.0), [Hang]) == 12.5 && !FirstCallInLease(12, 0.0, 8.0) && !AlwaysCovered(12, 0.0, 8.0)
  {
    BudgetFromStartIff(12, 0.0, 8.0);
    hide Run, RunEnd, AlwaysCovered;
    NoOverlapIff(12, 0.0, 8.0);
  }

  // ---- outages -------------------------------------------------------------------------------

  /** The least time that `n` failures in a row take. */
  function Elapsed(lease: nat, n: nat): real {
    if n == 0 then 0.0 else Elapsed(lease, n - 1) + Min(Backoff(n), Pace(lease))
  }

  /** `n` times `x`. */
  function Times(n: nat, x: real): real {
    n as real * x
  }

  lemma OneMoreTime(n: nat, x: real)
    ensures Times(n + 1, x) == Times(n, x) + x && Times(0, x) == 0.0
  {
  }

  /** From the eighth failure on every wait is a full pace. */
  lemma {:induction false} ElapsedGrows(lease: nat, n: nat)
    requires lease > 0
    ensures Elapsed(lease, n) >= 0.0
    ensures n >= 7 ==> Elapsed(lease, n) >= Times(n - 7, Pace(lease))
  {
    hide Backoff, Pow2, Times;
    OneMoreTime(0, Pace(lease));
    if n > 0 {
      ElapsedGrows(lease, n - 1);
      BackoffGrows(n);
      if n > 7 { OneMoreTime(n - 8, Pace(lease)); }
    }
  }

  lemma BackoffGrows(n: nat)
    requires n > 0
    ensures Backoff(n) > 0.0 && (n >= 8 ==> Backoff(n) >= 30.0)
  {
    Pow2Grows(if n - 1 <= 10 then n - 1 else 10);
  }

  lemma Pow2Grows(n: nat)
    ensures Pow2(n) >= 1 && (n >= 7 ==> Pow2(n) >= 128)
  {
    if n > 7 {
      Pow2Grows(n - 1);
    } else {
      assert Pow2(0) == 1 && Pow2(1) == 2 && Pow2(2) == 4 && Pow2(3) == 8;
      assert Pow2(4) == 16 && Pow2(5) == 32 && Pow2(6) == 64 && Pow2(7) == 128;
    }
  }

  /** The failures since the last confirmation took their time, or the budget is spent. */
  predicate Paced(lease: nat, b: Beat) {
    && (b.now >= b.lastOk + Elapsed(lease, b.failures) || b.now >= b.lastOk + Budget(lease))
    && (!b.attempted ==> b.failures == 0)
  }

  predicate Unconfirmed(events: seq<Event>) {
    forall i :: 0 <= i < |events| ==> events[i].Call? ==> 0.0 <= events[i].took && !events[i].ending.Confirmed?
  }

  lemma StepPaced(lease: nat, b: Beat, e: Event)
    requires lease > 0 && Paced(lease, b) && Step(lease, b, e).Go?
    requires e.Call? ==> 0.0 <= e.took
    ensures b.lastOk <= b.now ==> Paced(lease, Step(lease, b, e).next)
    ensures e.Call?
    ensures !e.ending.Confirmed? ==> e.ending.Retryable? && Step(lease, b, e).next.failures == b.failures + 1
    ensures b.attempted ==> Elapsed(lease, b.failures) < Budget(lease)
    ensures Step(lease, b, e).next.attempted && (b.lastOk <= b.now ==> Step(lease, b, e).next.lastOk <= Step(lease, b, e).next.now)
  {
    BudgetCoversTwoPaces(lease);
    assert Elapsed(lease, 0) == 0.0;
    assert Elapsed(lease, b.failures + 1) == Elapsed(lease, b.failures) + Min(Backoff(b.failures + 1), Pace(lease));
  }

  /** A run that is still going after `n` sends without a confirmation has not had that many for long. */
  lemma {:induction false} OutageIsShort(lease: nat, b: Beat, events: seq<Event>)
    requires lease > 0 && b.lastOk <= b.now && Paced(lease, b) && Unconfirmed(events)
    requires Run(lease, b, events).1.None?
    ensures |events| + b.failures > 1 && events != [] ==> Elapsed(lease, b.failures + |events| - 1) < Budget(lease)
    decreases |events|
  {
    hide Step, Paced;
    if events != [] {
      var rest := events[1..];
      assert Step(lease, b, events[0]).Go?;
      StepPaced(lease, b, events[0]);
      var next := Step(lease, b, events[0]).next;
      OutageIsShort(lease, next, rest);
      PacedFirst(lease, b);
    }
  }

  lemma PacedFirst(lease: nat, b: Beat)
    requires Paced(lease, b)
    ensures !b.attempted ==> b.failures == 0
  {
  }

  /** In an outage the loop ends: at the latest with the send that exceeds this bound. */
  lemma OutageEnds(lease: nat, b: Beat, events: seq<Event>)
    requires lease > 0 && b.lastOk <= b.now && Paced(lease, b) && Unconfirmed(events)
    requires |events| >= 8 && Times(b.failures + |events| - 8, Pace(lease)) >= Budget(lease)
    ensures Run(lease, b, events).1.Some?
  {
    hide Run, Paced, Elapsed, Times, Budget, Pace, Unconfirmed;
    ElapsedGrows(lease, b.failures + |events| - 1);
    if Run(lease, b, events).1.None? {
      OutageIsShort(lease, b, events);
      assert false;
    }
  }

  lemma BeginPaced(lease: nat, claimed: real, start: real)
    requires lease > 0 && claimed <= start
    ensures Paced(lease, Begin(lease, claimed, start)) && Begin(lease, claimed, start).lastOk <= Begin(lease, claimed, start).now
    ensures Begin(lease, claimed, start).failures == 0
  {
  }

  /** The same from the start of any loop: no claim runs through an outage of this many sends. */
  lemma OutageEndsFromStart(lease: nat, claimed: real, start: real, events: seq<Event>)
    requires lease > 0 && claimed <= start && Unconfirmed(events)
    requires |events| >= 8 && Times(|events| - 8, Pace(lease)) >= Budget(lease)
    ensures Run(lease, Begin(lease, claimed, start), events).1.Some?
  {
    hide Run, Paced, Begin, Times, Unconfirmed;
    BeginPaced(lease, claimed, start);
    OutageEnds(lease, Begin(lease, claimed, start), events);
  }

  // ---- the rhythm ----------------------------------------------------------------------------

  predicate NoRefusal(events: seq<Event>) {
    forall i :: 0 <= i < |events| ==> events[i].Call? ==> !events[i].ending.Refused?
  }

  /** A job is not given up early: unless the server refused a heartbeat, a run that drops the job has gone the whole budget
      without a confirmation. */
  lemma {:induction false} NotDroppedEarly(lease: nat, b: Beat, events: seq<Event>, at: real)
    requires ValidEvents(events) && NoRefusal(events) && Run(lease, b, events).1 == Some(Dropped(at, false))
    ensures var spans := Run(lease, b, events).0;
            at >= (if spans == [] then b.lastOk else spans[|spans| - 1].lastOk) + Budget(lease)
    decreases |events|
  {
    hide Budget, Pace;
    if events != [] {
      match Step(lease, b, events[0])
      case Halt(spans, end) =>
      case Go(spans, next) =>
        NotDroppedEarly(lease, next, events[1..], at);
        assert spans != [] && spans[|spans| - 1].lastOk == next.lastOk;
    }
  }

  /** How a run ended tells how its last turn ended. */
  lemma {:induction false} EndTells(lease: nat, b: Beat, events: seq<Event>)
    requires Run(lease, b, events).1.Some?
    ensures var end := Run(lease, b, events).1.value;
            && (end.Stopped? ==> exists i :: 0 <= i < |events| && events[i].SettledAlready?)
            && (end.Dropped? && end.runtimeFailed ==> exists i :: 0 <= i < |events| && events[i].Call? && events[i].ending.Broken?)
    decreases |events|
  {
    hide Limit, RetrySleep, Budget, Pace;
    match Step(lease, b, events[0])
    case Halt(_, end) => assert events[0].SettledAlready? || events[0].Hang? || events[0].Call?;
    case Go(_, next) =>
      EndTells(lease, next, events[1..]);
      assert forall i :: 0 <= i < |events[1..]| ==> events[1..][i] == events[i + 1];
  }

  /** The server's word is final: a heartbeat that was refused, a call that broke, or a settlement that is over, end the
      loop at once. */
  lemma LastWord(lease: nat, b: Beat, e: Event, rest: seq<Event>)
    requires e.SettledAlready? || (e.Call? && (e.ending.Refused? || e.ending.Broken?))
    requires e.Call? ==> e.took <= Limit(lease, b) && !(b.attempted && b.lastOk + Budget(lease) <= b.now)
    ensures Run(lease, b, [e] + rest).1 ==
              Some(if e.SettledAlready? then Stopped(b.now) else Dropped(b.now + e.took, e.ending.Broken?))
  {
    assert ([e] + rest)[0] == e;
  }

  predicate Healthy(lease: nat, events: seq<Event>) {
    forall i :: 0 <= i < |events| ==> events[i].Call? && events[i].ending.Confirmed? && 0.0 <= events[i].took <= Pace(lease)
  }

  /** While every heartbeat is confirmed within a pace, the loop goes on for ever and sends one heartbeat every pace, however
      long each call takes, and each confirmation counts from its own send. */
  lemma {:induction false} HealthyRhythm(lease: nat, b: Beat, events: seq<Event>, k: nat)
    requires lease > 0 && Healthy(lease, events) && (b.attempted ==> b.now <= b.lastOk + Pace(lease))
    ensures var (spans, end) := Run(lease, b, events);
            && end.None? && |spans| == 2 * |events| && RunEnd(lease, b, events) == b.now + Times(|events|, Pace(lease))
            && (k < |events| ==>
                  && spans[2 * k].from == b.now + Times(k, Pace(lease)) && spans[2 * k].to == spans[2 * k].from + events[k].took
                  && spans[2 * k + 1].lastOk == spans[2 * k].from && spans[2 * k + 1].to == b.now + Times(k + 1, Pace(lease)))
    decreases |events|
  {
    hide Budget, Pace, Times;
    if events != [] {
      var step := Step(lease, b, events[0]);
      ConfirmsOnce(lease, b, events[0].took);
      HealthyRhythm(lease, step.next, events[1..], if k == 0 then 0 else k - 1);
      OneMoreTime(|events| - 1, Pace(lease));
      OneMoreTime(k, Pace(lease));
      OneMoreTime(0, Pace(lease));
      if k > 0 { OneMoreTime(k - 1, Pace(lease)); }
    } else {
      OneMoreTime(0, Pace(lease));
    }
  }

  /** The waits after failures: a quarter of a second, then twice as long each time. */
  lemma BackoffDoubles(n: nat)
    requires n > 0
    ensures Backoff(1) == 0.25 && (n <= 10 ==> Backoff(n + 1) == 2.0 * Backoff(n)) && (n > 10 ==> Backoff(n + 1) == Backoff(n))
  {
  }

  predicate AllFailAtOnce(events: seq<Event>) {
    forall i :: 0 <= i < |events| ==> events[i] == Call(0.0, Retryable)
  }

  /** When every call fails at once, the n-th retry comes exactly after the first n waits, each of them clipped to a pace,
      as long as the budget lasts. */
  lemma {:induction false} OutageRhythm(lease: nat, b: Beat, events: seq<Event>)
    requires lease > 0 && AllFailAtOnce(events) && b.lastOk <= b.now
    requires b.now + Elapsed(lease, b.failures + |events|) - Elapsed(lease, b.failures) < b.lastOk + Budget(lease)
    ensures Run(lease, b, events).1.None?
    ensures RunEnd(lease, b, events) == b.now + Elapsed(lease, b.failures + |events|) - Elapsed(lease, b.failures)
    decreases |events|
  {
    hide Budget, Step, Elapsed;
    if events != [] {
      var n := b.failures;
      ElapsedAscends(lease, n, n + 1);
      ElapsedAscends(lease, n + 1, n + |events|);
      FailsAtOnce(lease, b);
      OutageRhythm(lease, Step(lease, b, events[0]).next, events[1..]);
    }
  }

  lemma FailsAtOnce(lease: nat, b: Beat)
    requires lease > 0 && b.lastOk <= b.now
    requires b.now + Elapsed(lease, b.failures + 1) - Elapsed(lease, b.failures) < b.lastOk + Budget(lease)
    requires Elapsed(lease, b.failures) <= Elapsed(lease, b.failures + 1)
    ensures var step := Step(lease, b, Call(0.0, Retryable));
            && step.Go? && step.next.failures == b.failures + 1 && step.next.lastOk == b.lastOk
            && step.next.now == b.now + Elapsed(lease, b.failures + 1) - Elapsed(lease, b.failures)
  {
    BudgetCoversTwoPaces(lease);
    BackoffGrows(b.failures + 1);
    hide Budget, Pace, Backoff;
    assert Elapsed(lease, b.failures + 1) == Elapsed(lease, b.failures) + Min(Backoff(b.failures + 1), Pace(lease));
  }

  lemma {:induction false} ElapsedAscends(lease: nat, m: nat, n: nat)
    requires lease > 0 && m <= n
    ensures Elapsed(lease, m) <= Elapsed(lease, n)
  {
    BudgetCoversTwoPaces(lease);
    hide Budget, Pace, Backoff;
    if m < n {
      ElapsedAscends(lease, m, n - 1);
      BackoffGrows(n);
    }
  }

  /** A confirmation ends an outage: the next failures wait from the start again. */
  lemma RecoveryStartsOver(lease: nat, b: Beat, took: real, failures: seq<Event>)
    requires lease > 0 && 0.0 <= took <= Pace(lease) && (b.attempted ==> b.now <= b.lastOk + Pace(lease))
    requires AllFailAtOnce(failures) && Pace(lease) + Elapsed(lease, |failures|) < Budget(lease)
    ensures var events := [Call(took, Confirmed)] + failures;
            && Run(lease, b, events).1.None?
            && RunEnd(lease, b, events) == b.now + Pace(lease) + Elapsed(lease, |failures|)
  {
    hide Step, Elapsed, Budget, Pace;
    var events := [Call(took, Confirmed)] + failures;
    assert events[0] == Call(took, Confirmed) && events[1..] == failures;
    ConfirmsOnce(lease, b, took);
    NoneElapsed(lease);
    OutageRhythm(lease, Beat(b.now + Pace(lease), b.now, 0, true), failures);
  }

  lemma ConfirmsOnce(lease: nat, b: Beat, took: real)
    requires lease > 0 && 0.0 <= took <= Pace(lease) && (b.attempted ==> b.now <= b.lastOk + Pace(lease))
    ensures Step(lease, b, Call(took, Confirmed)).Go? && Step(lease, b, Call(took, Confirmed)).next == Beat(b.now + Pace(lease), b.now, 0, true)
    ensures Pace(lease) > 0.0
  {
    BudgetCoversTwoPaces(lease);
    hide Budget, Pace;
  }

  lemma NoneElapsed(lease: nat)
    ensures Elapsed(lease, 0) == 0.0
  {
  }
}

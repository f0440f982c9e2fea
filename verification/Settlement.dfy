/** The worker's settlement retry loop in real time. The environment chooses how each call ends and how long it
    takes, the random part of each wait, and when ownership is lost and the worker starts to stop. */
module Settlement {
  import opened TaskTypes
  import opened Heartbeat
  import Lifecycle

  datatype Options = Options(maxAttempts: nat, base: real, cap: real, maxElapsed: real)

  predicate ValidOptions(o: Options) {
    1 <= o.maxAttempts <= 100 && 0.0 < o.base <= o.cap && 0.0 < o.maxElapsed <= 3600.0
  }

  datatype Answer = AnswerOk | AnswerRetryScheduled | AnswerDead | AnswerAlreadySettled | AnswerConflict | AnswerLost

  /** The outcomes the protocol table allows for each command. */
  function Outcomes(c: Settle): set<Answer> {
    if c.Fail? then {AnswerOk, AnswerRetryScheduled, AnswerDead, AnswerAlreadySettled, AnswerConflict, AnswerLost}
    else {AnswerOk, AnswerAlreadySettled, AnswerConflict, AnswerLost}
  }

  datatype CallEnd =
    | Answered(answer: Answer)
    | Rejected(capability: bool)
    | Conflicted(reason: string)
    | Failed
    | Busy(retryAfter: Option<real>)
    | Unavailable(retryAfter: Option<real>)
    | Malformed(retryAfter: Option<real>)
    | Disconnected

  datatype Attempt = Attempt(took: real, end: CallEnd, drawn: real)

  datatype Report =
    | ReportSettled(answer: Answer)
    | ReportLost
    | ReportConflict
    | ReportRuntimeFailure
    | ReportOwnershipLost
    | ReportUnknown
    | Raised

  /** `owner` is the lease of the owned claim, absent when a claim is released without running. Ownership is
      lost and the worker stops at fixed instants, if at all. */
  datatype Case = Case(options: Options, owner: Option<nat>, command: Settle, started: real, lostAt: Option<real>, stopAt: Option<real>)

  datatype Desk = Desk(now: real, attempt: nat, failing: bool)

  /** A back-off and when it is due to end. */
  datatype Nap = Nap(from: real, until: real, backpressure: bool)

  datatype Verdict = Over(calls: seq<real>, naps: seq<Nap>, report: Report) | Again(call: real, nap: Nap, next: Desk)

  predicate Passed(at: Option<real>, now: real) {
    at.Some? && at.value <= now
  }

  predicate Lost(c: Case, now: real) {
    c.owner.Some? && Passed(c.lostAt, now)
  }

  predicate Permanent(reason: string) {
    reason == "continuation_policy_mismatch" || reason == "workflow_member_limit_exceeded"
  }

  /** What a settled call is reported as. */
  function ReportOf(command: Settle, answer: Answer): Report {
    if answer !in Outcomes(command) then ReportRuntimeFailure
    else if answer.AnswerLost? then ReportLost
    else if answer.AnswerConflict? then ReportConflict
    else ReportSettled(answer)
  }

  predicate Retryable(e: CallEnd) {
    e.Busy? || e.Unavailable? || e.Malformed? || e.Disconnected?
  }

  /** The outcome of a call that is not retried. */
  function Final(command: Settle, e: CallEnd): Report
    requires !Retryable(e)
  {
    match e
    case Answered(answer) => ReportOf(command, answer)
    case Rejected(_) => Raised
    case Conflicted(reason) => if command.Complete? && Permanent(reason) then Raised else ReportRuntimeFailure
    case Failed => ReportRuntimeFailure
  }

  function RetryAfter(e: CallEnd): real
    requires Retryable(e)
  {
    if e.Disconnected? || e.retryAfter.None? then 0.0 else e.retryAfter.value
  }

  /** Past the attempt cap an owned job of a worker that is not stopping outlasts an outage. */
  predicate Outlasts(c: Case, e: CallEnd, attempt: nat, now: real) {
    attempt >= c.options.maxAttempts && (e.Unavailable? || e.Disconnected?) && c.owner.Some? && !Passed(c.stopAt, now)
  }

  function Elapsed(c: Case, now: real): real {
    Max(0.0, now - c.started)
  }

  predicate RetryAllowed(c: Case, e: CallEnd, attempt: nat, now: real) {
    if e.Busy? then Elapsed(c, now) < c.options.maxElapsed
    else attempt < c.options.maxAttempts || (Outlasts(c, e, attempt, now) && Elapsed(c, now) < Budget(c.owner.value))
  }

  function Exponential(base: real, attempt: nat): real
    requires attempt > 0
  {
    base * Pow2(if attempt - 1 <= 30 then attempt - 1 else 30) as real
  }

  lemma ExponentialCovers(base: real, attempt: nat)
    requires attempt > 0 && base >= 0.0
    ensures Exponential(base, attempt) >= base
  {
    var k := Pow2(if attempt - 1 <= 30 then attempt - 1 else 30);
    Pow2Grows(if attempt - 1 <= 30 then attempt - 1 else 30);
    hide Pow2;
    ScaledUp(base, k as real);
  }

  lemma ScaledUp(x: real, k: real)
    requires x >= 0.0 && k >= 1.0
    ensures x * k >= x
  {
    assert x * (k - 1.0) >= 0.0;
  }

  function Upper(c: Case, attempt: nat, failing: bool): real
    requires attempt > 0
  {
    Min(Exponential(c.options.base, attempt),
        if failing && c.owner.Some? then Pace(c.owner.value) else c.options.cap)
  }

  /** `uniform(0, upper)` for some draw. */
  function Drawn(drawn: real, upper: real): real {
    Max(0.0, Min(drawn, upper))
  }

  function Delay(c: Case, e: CallEnd, attempt: nat, failing: bool, drawn: real): real
    requires attempt > 0 && Retryable(e)
  {
    var upper := Upper(c, attempt, failing);
    var delay := Max(RetryAfter(e), Drawn(drawn, upper));
    if e.Busy? && attempt >= c.options.maxAttempts then Max(delay, Min(c.options.base, upper)) else delay
  }

  /** A back-off ends when it is over, or early when ownership is lost or, for a failing owner, the worker stops. */
  function Wake(c: Case, from: real, until: real, failing: bool): real {
    if failing && !Passed(c.stopAt, from) && c.stopAt.Some? && c.stopAt.value < until then c.stopAt.value else until
  }

  function Step(c: Case, d: Desk, a: Attempt): Verdict {
    var attempt := d.attempt + 1;
    if Lost(c, d.now) then Over([], [], ReportOwnershipLost)
    else if !Retryable(a.end) then Over([d.now], [], Final(c.command, a.end))
    else
      var t := d.now + a.took;
      var failing := d.failing || Outlasts(c, a.end, attempt, t);
      if !RetryAllowed(c, a.end, attempt, t) then Over([d.now], [], if Lost(c, t) then ReportOwnershipLost else ReportUnknown)
      else
        var delay := Delay(c, a.end, attempt, failing, a.drawn);
        if a.end.Busy? && Elapsed(c, t) + delay > c.options.maxElapsed then Over([d.now], [], ReportUnknown)
        else
          var nap := Nap(t, t + delay, a.end.Busy?);
          var wake := Wake(c, t, nap.until, failing);
          if Lost(c, wake) then Over([d.now], [nap], ReportOwnershipLost)
          else Again(d.now, nap, Desk(wake, attempt, failing))
  }

  /** When each call started, every back-off, and the report once there is one. */
  datatype Trace = Trace(calls: seq<real>, naps: seq<Nap>, report: Option<Report>)

  function Run(c: Case, d: Desk, attempts: seq<Attempt>): Trace
    decreases |attempts|
  {
    if attempts == [] then Trace([], [], None)
    else
      match Step(c, d, attempts[0])
      case Over(calls, naps, report) => Trace(calls, naps, Some(report))
      case Again(call, nap, next) =>
        var rest := Run(c, next, attempts[1..]);
        Trace([call] + rest.calls, [nap] + rest.naps, rest.report)
  }

  predicate ValidCase(c: Case) {
    ValidOptions(c.options) && (c.owner.Some? ==> c.owner.value > 0)
  }

  predicate ValidAttempts(attempts: seq<Attempt>) {
    forall i :: 0 <= i < |attempts| ==> 0.0 <= attempts[i].took
  }

  function Open(c: Case): Desk {
    Desk(c.started, 0, false)
  }

  /** The loop itself. */
  method SettleWithRetry(c: Case, attempts: seq<Attempt>) returns (calls: seq<real>, naps: seq<Nap>, report: Option<Report>)
    requires ValidCase(c)
    ensures Trace(calls, naps, report) == Run(c, Open(c), attempts)
  {
    hide Run, Step, Delay, Wake, RetryAllowed, Outlasts, Upper;
    var now, attempt: nat, failing := c.started, 0, false;
    calls, naps, report := [], [], None;
    NothingBefore(Run(c, Open(c), attempts));
    assert attempts[0..] == attempts;
    var k := 0;
    while k < |attempts|
      invariant k <= |attempts|
      invariant Run(c, Open(c), attempts) == After(calls, naps, Run(c, Desk(now, attempt, failing), attempts[k..]))
    {
      var a := attempts[k];
      ghost var d := Desk(now, attempt, failing);
      RunUnfolds(c, d, attempts, k, calls, naps);
      StepUnfolds(c, d, a);
      attempt := attempt + 1;
      if Lost(c, now) {
        return calls, naps, Some(ReportOwnershipLost);
      }
      calls := calls + [now];
      if !Retryable(a.end) {
        return calls, naps, Some(Final(c.command, a.end));
      }
      now := now + a.took;
      failing := failing || Outlasts(c, a.end, attempt, now);
      if !RetryAllowed(c, a.end, attempt, now) {
        return calls, naps, Some(if Lost(c, now) then ReportOwnershipLost else ReportUnknown);
      }
      var delay := Delay(c, a.end, attempt, failing, a.drawn);
      if a.end.Busy? && Elapsed(c, now) + delay > c.options.maxElapsed {
        return calls, naps, Some(ReportUnknown);
      }
      naps := naps + [Nap(now, now + delay, a.end.Busy?)];
      now := Wake(c, now, now + delay, failing);
      if Lost(c, now) {
        return calls, naps, Some(ReportOwnershipLost);
      }
      k := k + 1;
    }
    RunNothing(c, Desk(now, attempt, failing), attempts[k..]);
  }

  function After(calls: seq<real>, naps: seq<Nap>, rest: Trace): Trace {
    Trace(calls + rest.calls, naps + rest.naps, rest.report)
  }

  lemma NothingBefore(rest: Trace)
    ensures After([], [], rest) == rest
  {
  }

  lemma RunNothing(c: Case, d: Desk, attempts: seq<Attempt>)
    requires attempts == []
    ensures Run(c, d, attempts) == Trace([], [], None)
  {
  }

  lemma RunUnfolds(c: Case, d: Desk, attempts: seq<Attempt>, k: nat, calls: seq<real>, naps: seq<Nap>)
    requires k < |attempts|
    ensures match Step(c, d, attempts[k])
            case Over(more, rests, report) => After(calls, naps, Run(c, d, attempts[k..])) == Trace(calls + more, naps + rests, Some(report))
            case Again(call, nap, next) =>
              After(calls, naps, Run(c, d, attempts[k..])) == After(calls + [call], naps + [nap], Run(c, next, attempts[k + 1..]))
  {
    assert attempts[k..][0] == attempts[k] && attempts[k..][1..] == attempts[k + 1..];
    hide Step;
    var step := Step(c, d, attempts[k]);
    if step.Again? {
      var rest := Run(c, step.next, attempts[k + 1..]);
      assert calls + ([step.call] + rest.calls) == calls + [step.call] + rest.calls;
      assert naps + ([step.nap] + rest.naps) == naps + [step.nap] + rest.naps;
    }
  }

  /** The branches of one turn. */
  lemma StepUnfolds(c: Case, d: Desk, a: Attempt)
    ensures Lost(c, d.now) ==> Step(c, d, a) == Over([], [], ReportOwnershipLost)
    ensures !Lost(c, d.now) && !Retryable(a.end) ==> Step(c, d, a) == Over([d.now], [], Final(c.command, a.end))
    ensures !Lost(c, d.now) && Retryable(a.end) ==>
      var t, attempt := d.now + a.took, d.attempt + 1;
      var failing := d.failing || Outlasts(c, a.end, attempt, t);
      var delay := Delay(c, a.end, attempt, failing, a.drawn);
      var nap, wake := Nap(t, t + delay, a.end.Busy?), Wake(c, t, t + delay, failing);
      Step(c, d, a) ==
        if !RetryAllowed(c, a.end, attempt, t) then Over([d.now], [], if Lost(c, t) then ReportOwnershipLost else ReportUnknown)
        else if a.end.Busy? && Elapsed(c, t) + delay > c.options.maxElapsed then Over([d.now], [], ReportUnknown)
        else if Lost(c, wake) then Over([d.now], [nap], ReportOwnershipLost)
        else Again(d.now, nap, Desk(wake, attempt, failing))
  {
  }

  // ---- what every run keeps ------------------------------------------------------------------

  lemma DelayIsLater(c: Case, e: CallEnd, attempt: nat, failing: bool, drawn: real)
    requires attempt > 0 && Retryable(e)
    ensures Delay(c, e, attempt, failing, drawn) >= 0.0
  {
  }

  lemma WakeIsLater(c: Case, from: real, until: real, failing: bool)
    requires from <= until
    ensures from <= Wake(c, from, until, failing) <= until && (!failing ==> Wake(c, from, until, failing) == until)
  {
  }

  /** Time does not run backwards, and a back-off for backpressure fits the allowance. */
  lemma StepKeeps(c: Case, d: Desk, a: Attempt)
    requires 0.0 <= a.took
    ensures var step := Step(c, d, a);
            && (step.Again? ==> step.call == d.now && !Lost(c, d.now) && d.now + a.took <= step.next.now && step.next.attempt == d.attempt + 1)
            && (step.Again? ==> Retryable(a.end) && RetryAllowed(c, a.end, d.attempt + 1, d.now + a.took))
            && (step.Again? && step.nap.backpressure ==> step.nap.until <= c.started + c.options.maxElapsed)
            && (step.Again? ==> step.nap.backpressure == a.end.Busy?)
            && (step.Over? ==> forall i :: 0 <= i < |step.naps| && step.naps[i].backpressure ==>
                                 step.naps[i].until <= c.started + c.options.maxElapsed)
            && (step.Over? ==> |step.calls| <= 1 && (step.calls != [] ==> step.calls[0] == d.now && !Lost(c, d.now)))
  {
    hide Delay, Wake, RetryAllowed, Outlasts;
    StepUnfolds(c, d, a);
    if Retryable(a.end) {
      var t, attempt := d.now + a.took, d.attempt + 1;
      var failing := d.failing || Outlasts(c, a.end, attempt, t);
      DelayIsLater(c, a.end, attempt, failing, a.drawn);
      WakeIsLater(c, t, t + Delay(c, a.end, attempt, failing, a.drawn), failing);
    }
  }

  predicate CallsOwned(c: Case, calls: seq<real>) {
    forall i :: 0 <= i < |calls| ==> !Lost(c, calls[i])
  }

  predicate NapsFit(c: Case, naps: seq<Nap>) {
    forall i :: 0 <= i < |naps| && naps[i].backpressure ==> naps[i].until <= c.started + c.options.maxElapsed
  }

  lemma OneMore(c: Case, call: real, calls: seq<real>, nap: Nap, naps: seq<Nap>)
    requires CallsOwned(c, calls) && NapsFit(c, naps) && !Lost(c, call)
    requires nap.backpressure ==> nap.until <= c.started + c.options.maxElapsed
    ensures CallsOwned(c, [call] + calls) && NapsFit(c, [nap] + naps)
  {
  }

  /** No call starts once ownership is lost, and every wait for backpressure ends within its allowance. */
  lemma {:induction false} NoCallAfterLoss(c: Case, d: Desk, attempts: seq<Attempt>)
    requires ValidAttempts(attempts)
    ensures CallsOwned(c, Run(c, d, attempts).calls) && NapsFit(c, Run(c, d, attempts).naps)
    decreases |attempts|
  {
    hide Step;
    if attempts != [] {
      StepKeeps(c, d, attempts[0]);
      var step := Step(c, d, attempts[0]);
      if step.Again? {
        NoCallAfterLoss(c, step.next, attempts[1..]);
        var rest := Run(c, step.next, attempts[1..]);
        OneMore(c, step.call, rest.calls, step.nap, rest.naps);
      }
    }
  }

  /** The answer of the last call made. */
  predicate LastAnswer(attempts: seq<Attempt>, calls: nat, answer: Answer) {
    0 < calls <= |attempts| && attempts[calls - 1].end == Answered(answer)
  }

  /** A settlement is reported exactly when the last call was answered with a legal outcome that accepts it. */
  lemma {:induction false} SettledIff(c: Case, d: Desk, attempts: seq<Attempt>, answer: Answer)
    requires ValidAttempts(attempts)
    ensures var r := Run(c, d, attempts);
            r.report == Some(ReportSettled(answer)) <==>
              LastAnswer(attempts, |r.calls|, answer) && answer in Outcomes(c.command) && !answer.AnswerLost? && !answer.AnswerConflict?
    decreases |attempts|
  {
    hide Delay, Wake, RetryAllowed, Outlasts;
    if attempts != [] {
      StepKeeps(c, d, attempts[0]);
      var step, rest := Step(c, d, attempts[0]), attempts[1..];
      if step.Again? {
        SettledIff(c, step.next, rest, answer);
        var n := |Run(c, step.next, rest).calls|;
        assert LastAnswer(attempts, n + 1, answer) <==> LastAnswer(rest, n, answer);
      }
    }
  }

  /** The end of the last call made. */
  predicate LastEnd(attempts: seq<Attempt>, calls: nat, e: CallEnd) {
    0 < calls <= |attempts| && attempts[calls - 1].end == e
  }

  /** The other reports name their causes as well: lost and conflict are the last call's own answers, a conflict is raised
      only when it ends a completion for good, and ownership is reported lost only when it was. */
  lemma {:induction false} ReportsTell(c: Case, d: Desk, attempts: seq<Attempt>, reason: string)
    requires ValidAttempts(attempts)
    ensures var r := Run(c, d, attempts);
            && (r.report == Some(ReportLost) <==> LastEnd(attempts, |r.calls|, Answered(AnswerLost)))
            && (r.report == Some(ReportConflict) <==> LastEnd(attempts, |r.calls|, Answered(AnswerConflict)))
            && (LastEnd(attempts, |r.calls|, CallEnd.Failed) ==> r.report == Some(ReportRuntimeFailure))
            && (LastEnd(attempts, |r.calls|, Rejected(true)) || LastEnd(attempts, |r.calls|, Rejected(false)) ==> r.report == Some(Raised))
            && (LastEnd(attempts, |r.calls|, Conflicted(reason)) ==>
                  r.report == Some(if c.command.Complete? && (reason == "continuation_policy_mismatch" || reason == "workflow_member_limit_exceeded")
                                   then Raised else ReportRuntimeFailure))
            && (r.report == Some(ReportOwnershipLost) ==> c.owner.Some? && c.lostAt.Some?)
    decreases |attempts|
  {
    hide Delay, Wake, RetryAllowed, Outlasts;
    if attempts != [] {
      StepKeeps(c, d, attempts[0]);
      var step, rest := Step(c, d, attempts[0]), attempts[1..];
      if step.Again? {
        ReportsTell(c, step.next, rest, reason);
        var n := |Run(c, step.next, rest).calls|;
        forall e ensures n > 0 ==> (LastEnd(attempts, n + 1, e) <==> LastEnd(rest, n, e)) { }
      }
    }
  }

  // ---- the waits -----------------------------------------------------------------------------

  /** The longest random wait after the k-th call: the base doubled each time, up to the cap, or up to the heartbeat's pace
      for an owner that outlasts an outage. */
  function LongestDraw(c: Case, k: nat): real
    requires k > 0
  {
    Min(Exponential(c.options.base, k), if c.owner.Some? then Max(c.options.cap, Pace(c.owner.value)) else c.options.cap)
  }

  /** A random wait drawn up to here is always waited for. */
  function SafeDraw(c: Case, k: nat): real
    requires k > 0
  {
    Min(Exponential(c.options.base, k), if c.owner.Some? then Min(c.options.cap, Pace(c.owner.value)) else c.options.cap)
  }

  /** The base, then twice as long each time. */
  lemma ExponentialDoubles(base: real, k: nat)
    requires k > 0
    ensures Exponential(base, 1) == base && (k <= 30 ==> Exponential(base, k + 1) == 2.0 * Exponential(base, k))
  {
    if k <= 30 { assert Pow2(k) as real == 2.0 * Pow2(k - 1) as real; }
  }

  /** A wait starts when the k-th call ended, lasts at least what the server asked for and what was drawn, and no longer than
      the server asked for or the longest random wait. */
  predicate NapFair(c: Case, k: nat, a: Attempt, call: real, nap: Nap)
    requires k > 0
  {
    && Retryable(a.end) && nap.from == call + a.took && nap.backpressure == a.end.Busy?
    && Max(RetryAfter(a.end), Min(a.drawn, SafeDraw(c, k))) <= nap.until - nap.from <= Max(RetryAfter(a.end), LongestDraw(c, k))
  }

  /** The next call starts when the wait is over, or at the very instant the worker is asked to stop. */
  predicate WakesOnTime(c: Case, nap: Nap, call: real) {
    call == nap.until || (call < nap.until && c.stopAt == Some(call))
  }

  ghost predicate NapsFair(c: Case, k: nat, attempts: seq<Attempt>, calls: seq<real>, naps: seq<Nap>) {
    && |naps| <= |calls| <= |attempts| && |calls| <= |naps| + 1
    && (forall i :: 0 <= i < |naps| ==> NapFair(c, k + i + 1, attempts[i], calls[i], naps[i]))
    && (forall i :: 0 <= i < |calls| - 1 ==> WakesOnTime(c, naps[i], calls[i + 1]))
  }

  lemma DrawIsPositive(c: Case, k: nat)
    requires ValidCase(c) && k > 0
    ensures LongestDraw(c, k) > 0.0
  {
    hide Exponential;
    ExponentialCovers(c.options.base, k);
  }

  lemma NapIsFair(c: Case, d: Desk, a: Attempt)
    requires ValidCase(c) && Retryable(a.end)
    ensures var t, attempt := d.now + a.took, d.attempt + 1;
            var failing := d.failing || Outlasts(c, a.end, attempt, t);
            var nap := Nap(t, t + Delay(c, a.end, attempt, failing, a.drawn), a.end.Busy?);
            NapFair(c, attempt, a, d.now, nap) && WakesOnTime(c, nap, Wake(c, t, nap.until, failing))
  {
    hide Exponential;
    ExponentialCovers(c.options.base, d.attempt + 1);
    if c.owner.Some? { BudgetCoversTwoPaces(c.owner.value); }
  }

  lemma FairGrows(c: Case, k: nat, attempts: seq<Attempt>, call: real, nap: Nap, calls: seq<real>, naps: seq<Nap>)
    requires attempts != [] && NapsFair(c, k + 1, attempts[1..], calls, naps)
    requires NapFair(c, k + 1, attempts[0], call, nap) && (calls != [] ==> WakesOnTime(c, nap, calls[0]))
    ensures NapsFair(c, k, attempts, [call] + calls, [nap] + naps)
  {
    hide NapFair, WakesOnTime;
    var allCalls, allNaps := [call] + calls, [nap] + naps;
    forall i | 0 <= i < |allNaps| ensures NapFair(c, k + i + 1, attempts[i], allCalls[i], allNaps[i]) {
      if i > 0 { assert NapFair(c, k + 1 + (i - 1) + 1, attempts[1..][i - 1], calls[i - 1], naps[i - 1]); }
    }
    forall i | 0 <= i < |allCalls| - 1 ensures WakesOnTime(c, allNaps[i], allCalls[i + 1]) {
      if i > 0 { assert WakesOnTime(c, naps[i - 1], calls[i - 1 + 1]); }
    }
  }

  /** The server's Retry-After is kept to, and the random waits grow with the calls and are bounded. */
  lemma {:induction false} WaitsAreFair(c: Case, d: Desk, attempts: seq<Attempt>)
    requires ValidCase(c) && ValidAttempts(attempts)
    ensures NapsFair(c, d.attempt, attempts, Run(c, d, attempts).calls, Run(c, d, attempts).naps)
    ensures Run(c, d, attempts).calls != [] ==> Run(c, d, attempts).calls[0] == d.now
    decreases |attempts|
  {
    hide Step, NapFair, WakesOnTime, Delay, Wake, RetryAllowed, Outlasts;
    if attempts != [] {
      StepKeeps(c, d, attempts[0]);
      StepUnfolds(c, d, attempts[0]);
      if Retryable(attempts[0].end) { NapIsFair(c, d, attempts[0]); }
      var step := Step(c, d, attempts[0]);
      if step.Again? {
        WaitsAreFair(c, step.next, attempts[1..]);
        var rest := Run(c, step.next, attempts[1..]);
        FairGrows(c, d.attempt, attempts, step.call, step.nap, rest.calls, rest.naps);
      }
    }
  }

  /** The settlement is given up only for cause: never below the cap unless backpressure has used up its allowance, and past
      the cap not while an outage of an owned job still fits the lease budget. */
  predicate GivenUpForCause(c: Case, k: nat, a: Attempt, call: real)
    requires k > 0
  {
    var t := call + a.took;
    && Retryable(a.end)
    && (a.end.Busy? ==>
          t - c.started + Max(RetryAfter(a.end), LongestDraw(c, k)) > c.options.maxElapsed)
    && (!a.end.Busy? ==>
          && k >= c.options.maxAttempts
          && (a.end.Malformed? || c.owner.None? || Passed(c.stopAt, t) || t - c.started >= Budget(c.owner.value)))
  }

  lemma {:induction false} UnknownForCause(c: Case, d: Desk, attempts: seq<Attempt>)
    requires ValidCase(c) && ValidAttempts(attempts) && c.started <= d.now
    ensures var r := Run(c, d, attempts);
            r.report == Some(ReportUnknown) ==>
              var n := |r.calls|; 0 < n <= |attempts| && GivenUpForCause(c, d.attempt + n, attempts[n - 1], r.calls[n - 1])
    decreases |attempts|
  {
    hide Step, Delay, Wake, RetryAllowed, Outlasts, GivenUpForCause;
    if attempts != [] {
      StepKeeps(c, d, attempts[0]);
      var step := Step(c, d, attempts[0]);
      if step.Again? {
        var rest := attempts[1..];
        UnknownForCause(c, step.next, rest);
        var calls := Run(c, step.next, rest).calls;
        assert Run(c, d, attempts).calls == [step.call] + calls;
        if Run(c, step.next, rest).report == Some(ReportUnknown) { assert attempts[|calls|] == rest[|calls| - 1] && ([step.call] + calls)[|calls|] == calls[|calls| - 1]; }
      } else {
        StepForCause(c, d, attempts[0]);
      }
    }
  }

  lemma StepForCause(c: Case, d: Desk, a: Attempt)
    requires ValidCase(c) && 0.0 <= a.took && c.started <= d.now
    ensures var step := Step(c, d, a);
            step.Over? && step.report == ReportUnknown ==> step.calls == [d.now] && GivenUpForCause(c, d.attempt + 1, a, d.now)
  {
    hide Delay, Wake, LongestDraw, SafeDraw;
    StepUnfolds(c, d, a);
    if Retryable(a.end) {
      NapIsFair(c, d, a);
      DrawIsPositive(c, d.attempt + 1);
    }
  }

  predicate NoBackpressure(attempts: seq<Attempt>) {
    forall i :: 0 <= i < |attempts| ==> !attempts[i].end.Busy?
  }

  /** Without backpressure an unowned settlement, or one of a worker that is already stopping, makes at most the
      configured number of calls. */
  lemma {:induction false} CappedCalls(c: Case, d: Desk, attempts: seq<Attempt>)
    requires ValidCase(c) && ValidAttempts(attempts) && NoBackpressure(attempts)
    requires (c.owner.None? || Passed(c.stopAt, c.started)) && c.started <= d.now && d.attempt < c.options.maxAttempts
    ensures d.attempt + |Run(c, d, attempts).calls| <= c.options.maxAttempts
    decreases |attempts|
  {
    hide Step;
    if attempts != [] {
      StepKeeps(c, d, attempts[0]);
      var step := Step(c, d, attempts[0]);
      if step.Again? { CappedCalls(c, step.next, attempts[1..]); }
    }
  }

  predicate OnlyBackpressure(attempts: seq<Attempt>) {
    forall i :: 0 <= i < |attempts| ==> attempts[i].end.Busy?
  }

  /** How many back-offs past the cap separate `calls` calls after the first `before`. */
  function PastCap(c: Case, before: nat, calls: nat): nat {
    var counted := before + calls - 1 - (if c.options.maxAttempts - 1 >= before then c.options.maxAttempts - 1 else before);
    if counted > 0 then counted else 0
  }

  lemma UpperCoversBase(c: Case, attempt: nat)
    requires ValidCase(c) && attempt > 0
    ensures Upper(c, attempt, false) >= c.options.base
  {
    hide Exponential;
    ExponentialCovers(c.options.base, attempt);
  }

  lemma BusyDelay(c: Case, e: CallEnd, attempt: nat, drawn: real)
    requires ValidCase(c) && e.Busy? && attempt >= c.options.maxAttempts
    ensures Delay(c, e, attempt, false, drawn) >= c.options.base
  {
    hide Upper;
    UpperCoversBase(c, attempt);
  }

  lemma BusyStep(c: Case, d: Desk, a: Attempt)
    requires ValidCase(c) && a.end.Busy? && !d.failing && 0.0 <= a.took && Step(c, d, a).Again?
    ensures var next := Step(c, d, a).next;
            && !next.failing && next.attempt == d.attempt + 1 && d.now <= next.now <= c.started + c.options.maxElapsed
            && (d.attempt + 1 >= c.options.maxAttempts ==> d.now + c.options.base <= next.now)
  {
    hide Delay, Wake, RetryAllowed;
    StepKeeps(c, d, a);
    StepUnfolds(c, d, a);
    var t := d.now + a.took;
    if d.attempt + 1 >= c.options.maxAttempts { BusyDelay(c, a.end, d.attempt + 1, a.drawn); }
    DelayIsLater(c, a.end, d.attempt + 1, false, a.drawn);
    WakeIsLater(c, t, t + Delay(c, a.end, d.attempt + 1, false, a.drawn), false);
  }

  lemma {:induction false} BusyCalls(c: Case, d: Desk, attempts: seq<Attempt>)
    requires ValidCase(c) && ValidAttempts(attempts) && OnlyBackpressure(attempts)
    requires !d.failing && d.now <= c.started + c.options.maxElapsed
    ensures d.now + PastCap(c, d.attempt, |Run(c, d, attempts).calls|) as real * c.options.base <= c.started + c.options.maxElapsed
    decreases |attempts|
  {
    hide Step;
    if attempts != [] {
      StepKeeps(c, d, attempts[0]);
      var step := Step(c, d, attempts[0]);
      if step.Again? {
        BusyStep(c, d, attempts[0]);
        BusyCalls(c, step.next, attempts[1..]);
        var n, m := PastCap(c, d.attempt, |Run(c, d, attempts).calls|), PastCap(c, d.attempt + 1, |Run(c, step.next, attempts[1..]).calls|);
        if n == m + 1 {
          assert n as real * c.options.base == m as real * c.options.base + c.options.base;
        } else {
          assert n == m;
        }
      }
    }
  }

  /** A run of nothing but backpressure makes at most as many calls as the cap, plus one for each whole base
      back-off that fits the allowance. */
  lemma BackpressureIsBounded(c: Case, attempts: seq<Attempt>)
    requires ValidCase(c) && ValidAttempts(attempts) && OnlyBackpressure(attempts)
    ensures var n := |Run(c, Open(c), attempts).calls|;
            n > c.options.maxAttempts ==> (n - c.options.maxAttempts) as real * c.options.base <= c.options.maxElapsed
  {
    hide Run;
    BusyCalls(c, Open(c), attempts);
  }

  predicate SlowCalls(attempts: seq<Attempt>, least: real) {
    forall i :: 0 <= i < |attempts| ==> least <= attempts[i].took
  }

  /** The longest time after which a call past the cap may still be followed by another. */
  function Patience(c: Case): real {
    Max(c.options.maxElapsed, if c.owner.Some? then Budget(c.owner.value) else 0.0)
  }

  /** A call is followed by another only below the cap or within the patience. */
  lemma RetryTime(c: Case, e: CallEnd, attempt: nat, t: real)
    requires RetryAllowed(c, e, attempt, t)
    ensures attempt < c.options.maxAttempts || t - c.started < Patience(c)
  {
  }

  /** When every call takes time, the calls past the cap fit the lease budget or the backpressure allowance. */
  lemma {:induction false} CallTimeBounds(c: Case, d: Desk, attempts: seq<Attempt>, least: real)
    requires ValidAttempts(attempts) && SlowCalls(attempts, least) && Times(d.attempt, least) <= d.now - c.started
    ensures var n := d.attempt + |Run(c, d, attempts).calls|;
            n <= d.attempt + 1 || n <= c.options.maxAttempts || Times(n - 1, least) < Patience(c)
    decreases |attempts|
  {
    hide Step, RetryAllowed, Patience, Times;
    if attempts != [] {
      StepKeeps(c, d, attempts[0]);
      var step := Step(c, d, attempts[0]);
      if step.Again? {
        OneMoreTime(d.attempt, least);
        RetryTime(c, attempts[0].end, d.attempt + 1, d.now + attempts[0].took);
        CallTimeBounds(c, step.next, attempts[1..], least);
      }
    }
  }

  /** Without such a call time there is no bound: an owned job whose every call fails at once, with a zero random
      back-off, is called as often as one likes. */
  lemma {:induction false} NoBoundWithoutCallTime(c: Case, d: Desk, n: nat)
    requires ValidCase(c) && c.owner.Some? && c.lostAt.None? && c.stopAt.None? && d.now == c.started
    ensures var r := Run(c, d, seq(n, _ => Attempt(0.0, Unavailable(None), 0.0))); |r.calls| == n && r.report.None?
    decreases n
  {
    if n > 0 {
      var a := Attempt(0.0, Unavailable(None), 0.0);
      var all := seq(n, _ => a);
      InstantRetry(c, d, a);
      NoBoundWithoutCallTime(c, Step(c, d, a).next, n - 1);
      assert all[1..] == seq(n - 1, _ => a);
    }
  }

  lemma InstantRetry(c: Case, d: Desk, a: Attempt)
    requires ValidCase(c) && c.owner.Some? && c.lostAt.None? && c.stopAt.None? && d.now == c.started
    requires a == Attempt(0.0, Unavailable(None), 0.0)
    ensures Step(c, d, a).Again? && Step(c, d, a).next.now == c.started
  {
    hide Exponential;
    BudgetCoversTwoPaces(c.owner.value);
    ExponentialCovers(c.options.base, d.attempt + 1);
  }

  // ---- settling what a handler asked for -----------------------------------------------------

  /** What the handler's outcome calls for. A release turns into a failure when the worker may fail jobs past its
      shutdown deadline. */
  datatype Intent = WantsComplete(followups: bool) | WantsSnooze | WantsCancel | WantsRetry | WantsFailure | WantsRelease(failAtDeadline: bool)

  function CommandOf(i: Intent): Settle {
    match i
    case WantsComplete(_) => Complete
    case WantsSnooze => Snooze
    case WantsCancel => CancelRunning
    case WantsRetry => Fail
    case WantsFailure => Fail
    case WantsRelease(failAtDeadline) => if failAtDeadline then Fail else Release
  }

  /** A handler's outcome settles as what it is: only a completion as complete, only a cancellation as cancelled. */
  lemma IntentCommands(i: Intent)
    ensures CommandOf(i) == Complete <==> i.WantsComplete?
    ensures CommandOf(i) == CancelRunning <==> i.WantsCancel?
    ensures CommandOf(i) == Snooze <==> i.WantsSnooze?
    ensures CommandOf(i) == Release <==> i == WantsRelease(false)
    ensures CommandOf(i) == Fail <==> i.WantsRetry? || i.WantsFailure? || i == WantsRelease(true)
  {
  }

  /** The report of the whole settlement. A follow-up rejection is fatal when worker and server disagree about
      capabilities or policies. */
  datatype FinalReport = Direct(report: Report) | FollowupRejected(answer: Answer, fatal: bool)

  /** The worker and the server do not agree, as opposed to a follow-up that is invalid for both. */
  predicate Skewed(e: CallEnd) {
    (e.Rejected? && e.capability) || (e.Conflicted? && e.reason == "continuation_policy_mismatch")
  }

  /** An error leaves the loop only from a call that ended in one. */
  lemma {:induction false} RaisedByLastCall(c: Case, d: Desk, attempts: seq<Attempt>)
    requires Run(c, d, attempts).report == Some(Raised)
    ensures var n := |Run(c, d, attempts).calls|;
            && 0 < n <= |attempts|
            && (var e := attempts[n - 1].end; e.Rejected? || (c.command.Complete? && e.Conflicted? && Permanent(e.reason)))
    decreases |attempts|
  {
    hide Delay, Wake, RetryAllowed, Outlasts;
    if Step(c, d, attempts[0]).Again? { RaisedByLastCall(c, Step(c, d, attempts[0]).next, attempts[1..]); }
  }

  /** The terminal failure of a completion whose follow-ups were refused, from the instant of the refusal. */
  function SettleInvalidFollowup(c: Case, at: real, fatal: bool, attempts: seq<Attempt>): Option<FinalReport> {
    var f := c.(command := Fail, started := at);
    match Run(f, Open(f), attempts).report
    case None => None
    case Some(Raised) => Some(Direct(ReportRuntimeFailure))
    case Some(ReportSettled(answer)) => Some(FollowupRejected(answer, fatal))
    case Some(report) => Some(Direct(report))
  }

  /** `second` are the calls of the terminal failure, if it comes to that. */
  function SettleIntent(c: Case, i: Intent, first: seq<Attempt>, second: seq<Attempt>): Option<FinalReport> {
    var m := c.(command := CommandOf(i));
    var r := Run(m, Open(m), first);
    match r.report
    case None => None
    case Some(Raised) =>
      RaisedByLastCall(m, Open(m), first);
      var n := |r.calls| - 1;
      if !i.WantsComplete? || !i.followups then Some(Direct(ReportRuntimeFailure))
      else SettleInvalidFollowup(c, r.calls[n] + first[n].took, Skewed(first[n].end), second)
    case Some(report) => Some(Direct(report))
  }

  /** The terminal failure that started when the last of these calls ended was settled with this answer. */
  predicate FailureSettled(c: Case, calls: seq<real>, first: seq<Attempt>, second: seq<Attempt>, answer: Answer) {
    && 0 < |calls| <= |first|
    && (var f := c.(command := Fail, started := calls[|calls| - 1] + first[|calls| - 1].took);
        LastAnswer(second, |Run(f, Open(f), second).calls|, answer) && answer in Outcomes(Fail) && !answer.AnswerLost? && !answer.AnswerConflict?)
  }

  /** No error escapes a settlement. It is reported as settled exactly when a legal accepting answer ended the calls of
      the intent's own command, and as a rejected follow-up exactly when the server refused a completion with
      follow-ups for good and the failure that replaces it was settled. */
  lemma IntentReports(c: Case, i: Intent, first: seq<Attempt>, second: seq<Attempt>, answer: Answer)
    requires ValidAttempts(first) && ValidAttempts(second)
    ensures var m := c.(command := CommandOf(i));
            var r, all := Run(m, Open(m), first), SettleIntent(c, i, first, second);
            && all != Some(Direct(Raised))
            && (all == Some(Direct(ReportSettled(answer))) <==>
                  LastAnswer(first, |r.calls|, answer) && answer in Outcomes(CommandOf(i)) && !answer.AnswerLost? && !answer.AnswerConflict?)
            && (all.Some? && all.value.FollowupRejected? && all.value.answer == answer <==>
                  i == WantsComplete(true) && r.report == Some(Raised) && FailureSettled(c, r.calls, first, second, answer))
            && (all.Some? && all.value.FollowupRejected? ==>
                  && 0 < |r.calls| <= |first|
                  && (var e := first[|r.calls| - 1].end;
                      all.value.fatal <==> e == Rejected(true) || e == Conflicted("continuation_policy_mismatch")))
  {
    hide Run, ValidAttempts;
    var m := c.(command := CommandOf(i));
    SettledIff(m, Open(m), first, answer);
    var r := Run(m, Open(m), first);
    if r.report == Some(Raised) && i == WantsComplete(true) {
      RaisedByLastCall(m, Open(m), first);
      var n := |r.calls| - 1;
      var f := c.(command := Fail, started := r.calls[n] + first[n].took);
      SettledIff(f, Open(f), second, answer);
    }
  }

  // ---- the engine's side ---------------------------------------------------------------------

  /** How a settlement reply of the queue engine reads on the wire. */
  function AnswerOf(reply: Reply): Answer {
    match reply
    case Settled(OkOutcome, _, _) => AnswerOk
    case Settled(RetryScheduled, _, _) => AnswerRetryScheduled
    case Settled(Dead, _, _) => AnswerDead
    case AlreadySettled(_, _) => AnswerAlreadySettled
    case SettleConflict(_, _) => AnswerConflict
    case Lost(_) => AnswerLost
  }

  /** Every reply of the engine is a legal outcome of its command, so none is taken for a runtime failure. A report
      of SETTLED names the job's current attempt, which was unsettled until now or settled by the same command. */
  lemma EngineAnswersAreLegal(s: Lifecycle.State, id: Id, attempt: Id, worker: string, action: Action, now: Instant)
    requires Lifecycle.Linked(s)
    ensures var (t, r) := Lifecycle.SettleJob(s, id, attempt, worker, action, now);
            r.Ok? ==>
              && AnswerOf(r.value) in Outcomes(SettleName(action))
              && (ReportOf(SettleName(action), AnswerOf(r.value)).ReportSettled? ==> id in s.jobs && s.jobs[id].attempt == Some(attempt))
              && (r.value.AlreadySettled? ==> t == s && s.jobs[id].settled == Some(SettleName(action)))
              && (r.value.Settled? ==> s.jobs[id].status.Running? && s.jobs[id].settled.None?)
  {
    hide Lifecycle.Linked, Lifecycle.Finish, Lifecycle.PlanCompletion, Lifecycle.Completed;
  }
}

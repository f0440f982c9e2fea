/** Two-phase admissions: reserve a key, then create its job exactly once. */
module Admissions {
  import opened TaskTypes
  import opened Lifecycle
  import opened LifecycleInvariant
  import opened LifecycleAdd
  import opened LifecycleRuns
  import opened LifecycleHistory

  datatype Phase = Reserved | Admitted | Withdrawn

  /** The job of a finish request; admissions carry no key and no workflow. */
  datatype AdmissionJob = AdmissionJob(
    jobType: string, payload: string, settings: string, affinityKey: Option<string>, scheduledAt: Option<Instant>,
    maxAttempts: Option<int>, leaseSeconds: Option<int>)

  /** `finished` stands for the finish hash: the job and receipt it was computed from. */
  datatype Admission = Admission(
    intent: string,
    handle: Id,
    expires: Instant,
    receiptTtl: int,
    phase: Phase,
    finished: Option<(AdmissionJob, string)>,
    job: Option<Id>,
    receipt: Option<string>,
    receiptExpires: Option<Instant>)

  type Reservations = map<(string, string), Admission>

  datatype ReserveReply =
    | ReserveGranted(handle: Id, expires: Instant)
    | ReserveAdmitted(job: Option<Id>, receipt: Option<string>, receiptExpires: Option<Instant>)
    | ReservePending(expires: Instant, retryAfter: int)

  datatype FinishReply =
    | FinishCreated(job: Option<Id>, receipt: Option<string>, receiptExpires: Option<Instant>)
    | FinishExisted(job: Option<Id>, receipt: Option<string>, receiptExpires: Option<Instant>)

  datatype CancelReply =
    | AlreadyAdmitted(job: Option<Id>, receipt: Option<string>, receiptExpires: Option<Instant>)
    | AlreadyCancelled
    | Expired
    | CancelledNow

  const MIN_RESERVATION := 15
  const MAX_RESERVATION := 3600
  const MIN_RECEIPT := 3600
  const MAX_RECEIPT := 31_536_000

  predicate ValidTtls(reservation: int, receipt: int) {
    MIN_RESERVATION <= reservation <= MAX_RESERVATION && MIN_RECEIPT <= receipt <= MAX_RECEIPT
  }

  /** The reservation can be replaced by anybody. */
  predicate Free(a: Reservations, k: (string, string), now: Instant) {
    k !in a || a[k].phase.Withdrawn? || (a[k].phase.Reserved? && a[k].expires <= now)
  }

  /** Whole seconds until the reservation expires, at least one: `int(left + 0.999)`. */
  function RetryAfter(expires: Instant, now: Instant): int {
    var s := (expires - now + 999_000) / SECOND;
    if s < 1 then 1 else s
  }

  /** Waiting as long as a pending reservation asks finds it expired, except within a millisecond after a whole
      number of seconds, where the advice is up to 999 microseconds short. */
  lemma RetryAfterSufficesIff(expires: Instant, now: Instant)
    requires now < expires
    ensures var left := expires - now;
            && (now + RetryAfter(expires, now) * SECOND >= expires <==> left < 1000 || left % SECOND == 0 || left % SECOND >= 1000)
            && now + RetryAfter(expires, now) * SECOND >= expires - 999
  {
    var left := expires - now;
    var whole, part := left / SECOND, left % SECOND;
    assert left == whole * SECOND + part;
    assert (left + 999_000) / SECOND == whole + (part + 999_000) / SECOND;
  }

  function Reserve(known: set<string>, a: Reservations, queue: string, key: string, intent: string, handle: Id,
                   reservation: int, receipt: int, now: Instant): (Reservations, Result<ReserveReply, Error>) {
    var k := (queue, key);
    if !ValidTtls(reservation, receipt) then (a, Err(Validation("admission")))
    else if queue !in known then (a, Err(NotFound))
    else if Free(a, k, now) then
      var at := now + reservation * SECOND;
      (a[k := Admission(intent, handle, at, receipt, Reserved, None, None, None, None)], Ok(ReserveGranted(handle, at)))
    else if a[k].intent != intent then (a, Err(Conflict("idempotency_mismatch")))
    else if a[k].phase.Admitted? then (a, Ok(ReserveAdmitted(a[k].job, a[k].receipt, a[k].receiptExpires)))
    else if a[k].handle == handle then (a, Ok(ReserveGranted(handle, a[k].expires)))
    else (a, Ok(ReservePending(a[k].expires, RetryAfter(a[k].expires, now))))
  }

  /** An instance: of a reservation made for fifteen seconds, a caller is told after thirteen and a bit to wait one
      second, waits one second, and finds it held still. */
  lemma RetryAfterTooShort()
    ensures var a := Reserve({"q"}, map[], "q", "k", "i", 1, 15, 3600, 0).0;
            && Reserve({"q"}, a, "q", "k", "i", 2, 15, 3600, 13_999_500) == (a, Ok(ReservePending(15_000_000, 1)))
            && Reserve({"q"}, a, "q", "k", "i", 2, 15, 3600, 13_999_500 + 1 * SECOND) == (a, Ok(ReservePending(15_000_000, 1)))
  {
  }

  function JobCommand(queue: string, j: AdmissionJob): Command {
    Command(queue, j.jobType, j.payload, j.settings, None, j.affinityKey, j.scheduledAt, None, j.maxAttempts, j.leaseSeconds,
            None, None, None)
  }

  function FinishAdmission(s: State, a: Reservations, queue: string, key: string, handle: Id, job: AdmissionJob, receipt: string,
                           now: Instant): (State, Reservations, Result<FinishReply, Error>)
    requires Linked(s)
  {
    var k := (queue, key);
    if k !in a then (s, a, Err(NotFound))
    else
      var x := a[k];
      if x.handle != handle then (s, a, Err(Conflict("reservation_conflict")))
      else if x.phase.Admitted? then
        if x.finished != Some((job, receipt)) then (s, a, Err(Conflict("finish_mismatch")))
        else (s, a, Ok(FinishExisted(x.job, x.receipt, x.receiptExpires)))
      else if x.phase.Withdrawn? then (s, a, Err(Conflict("reservation_cancelled")))
      else if x.expires <= now then (s, a, Err(Conflict("reservation_expired")))
      else
        var c := JobCommand(queue, job);
        var until := now + x.receiptTtl * SECOND;
        (EnqueuePlain(s, c).0,
         a[k := x.(phase := Admitted, finished := Some((job, receipt)), job := Some(s.nextId), receipt := Some(receipt),
                   receiptExpires := Some(until))],
         Ok(FinishCreated(Some(s.nextId), Some(receipt), Some(until))))
  }

  function CancelAdmission(a: Reservations, queue: string, key: string, handle: Id, now: Instant): (Reservations, Result<CancelReply, Error>) {
    var k := (queue, key);
    if k !in a then (a, Err(NotFound))
    else
      var x := a[k];
      if x.handle != handle then (a, Err(Conflict("reservation_conflict")))
      else if x.phase.Admitted? then (a, Ok(AlreadyAdmitted(x.job, x.receipt, x.receiptExpires)))
      else if x.phase.Withdrawn? then (a, Ok(AlreadyCancelled))
      else if x.expires <= now then (a, Ok(Expired))
      else (a[k := x.(phase := Withdrawn)], Ok(CancelledNow))
  }

  // ---- runs --------------------------------------------------------------------------------

  /** Engine and admissions together. */
  datatype World = World(engine: State, admissions: Reservations)

  datatype Call =
    | EngineCall(op: Op)
    | ReserveCall(queue: string, key: string, intent: string, handle: Id, reservation: int, receiptTtl: int, now: Instant)
    | FinishCall(queue: string, key: string, handle: Id, job: AdmissionJob, receipt: string, now: Instant)
    | WithdrawCall(queue: string, key: string, handle: Id, now: Instant)

  predicate ValidCall(c: Call) {
    c.EngineCall? ==> ValidOp(c.op)
  }

  /** An admitted key names a stored job of its queue. */
  ghost predicate AdmissionsOk(w: World) {
    forall k :: k in w.admissions && w.admissions[k].phase.Admitted? ==>
      w.admissions[k].job.Some? && w.admissions[k].finished.Some? && w.admissions[k].receipt.Some?
  }

  ghost predicate WorldOk(w: World) {
    Inv(w.engine) && AdmissionsOk(w)
  }

  function Do(w: World, c: Call): World
    requires Linked(w.engine) && ValidCall(c)
  {
    match c
    case EngineCall(op) => w.(engine := Apply(w.engine, op))
    case ReserveCall(q, key, intent, h, ttl, receiptTtl, now) =>
      w.(admissions := Reserve(w.engine.known, w.admissions, q, key, intent, h, ttl, receiptTtl, now).0)
    case FinishCall(q, key, h, job, receipt, now) =>
      var r := FinishAdmission(w.engine, w.admissions, q, key, h, job, receipt, now);
      World(r.0, r.1)
    case WithdrawCall(q, key, h, now) => w.(admissions := CancelAdmission(w.admissions, q, key, h, now).0)
  }

  lemma DoOk(w: World, c: Call)
    requires WorldOk(w) && ValidCall(c)
    ensures Linked(w.engine) && WorldOk(Do(w, c))
  {
    hide Inv, Linked;
    InvLinks(w.engine);
    match c
    case EngineCall(op) => StepInv(w.engine, op);
    case FinishCall(q, key, h, job, receipt, now) => EnqueuePlainInv(w.engine, JobCommand(q, job));
    case _ =>
  }

  ghost predicate ValidCalls(calls: seq<Call>) {
    forall i :: 0 <= i < |calls| ==> ValidCall(calls[i])
  }

  ghost function After(w: World, calls: seq<Call>): (r: World)
    requires WorldOk(w) && ValidCalls(calls)
    ensures WorldOk(r)
  {
    if calls == [] then w
    else
      var mid := After(w, calls[..|calls| - 1]);
      DoOk(mid, calls[|calls| - 1]);
      Do(mid, calls[|calls| - 1])
  }

  /** Whatever one call does, an admitted key keeps its record. */
  lemma AdmittedStays(w: World, c: Call, k: (string, string))
    requires Linked(w.engine) && ValidCall(c) && k in w.admissions && w.admissions[k].phase.Admitted?
    ensures k in Do(w, c).admissions && Do(w, c).admissions[k] == w.admissions[k]
  {
    hide Linked;
  }

  lemma {:induction false} AdmittedForever(w: World, calls: seq<Call>, k: (string, string))
    requires WorldOk(w) && ValidCalls(calls) && k in w.admissions && w.admissions[k].phase.Admitted?
    ensures k in After(w, calls).admissions && After(w, calls).admissions[k] == w.admissions[k]
  {
    hide WorldOk, Linked, Do;
    if calls != [] {
      var mid := After(w, calls[..|calls| - 1]);
      AdmittedForever(w, calls[..|calls| - 1], k);
      WorldLinks(mid);
      AdmittedStays(mid, calls[|calls| - 1], k);
    }
  }

  lemma WorldLinks(w: World)
    requires WorldOk(w)
    ensures Linked(w.engine)
  {
    hide Inv;
    InvLinks(w.engine);
  }

  lemma {:induction false} ChildrenKnown(s: State, id: Id, policy: Option<string>, cs: seq<Child>)
    ensures AddChildren(s, id, policy, cs).known == s.known
  {
    if cs != [] { ChildrenKnown(s, id, policy, cs[..|cs| - 1]); }
  }

  lemma {:induction false} ClaimKnown(s: State, ids: seq<Id>, worker: string)
    requires forall i :: i in ids ==> i in s.jobs
    ensures ClaimAll(s, ids, worker).known == s.known
  {
    if ids != [] { ClaimKnown(s, ids[..|ids| - 1], worker); }
  }

  lemma FinishKnown(s: State, id: Id, command: Settle, status: Status, outcome: Outcome, at: Option<Instant>)
    requires id in s.jobs
    requires s.jobs[id].command.workflow.Some? ==> s.jobs[id].command.workflow.value in s.workflows
    ensures Finish(s, id, command, status, outcome, at).known == s.known
  {
    hide RefreshedStatus;
  }

  lemma SettleKnown(s: State, id: Id, attempt: Id, worker: string, action: Action, now: Instant)
    requires Linked(s)
    ensures SettleJob(s, id, attempt, worker, action, now).0.known == s.known
  {
    hide Linked, Finish, PlanCompletion;
    if ReplayOrLost(s, id, attempt, worker, SettleName(action)).None? {
      RunningWorkflow(s, id);
      match action
      case DoComplete(fs, policy) =>
        if PlanCompletion(s, id, fs, policy).Ok? {
          FinishKnown(s, id, Complete, Succeeded, OkOutcome, None);
          ChildrenKnown(Finish(s, id, Complete, Succeeded, OkOutcome, None), id, s.jobs[id].policy, PlanCompletion(s, id, fs, policy).value);
        }
      case DoFail(retryable, retryAfter) =>
        var at := now + (if retryAfter.Some? then retryAfter.value else 0) * SECOND;
        FinishKnown(CountFailure(s, id), id, Fail, Queued, RetryScheduled, Some(at));
        FinishKnown(CountFailure(s, id), id, Fail, Failed, Dead, None);
      case DoSnooze(delay) => FinishKnown(s, id, Snooze, Queued, OkOutcome, Some(now + delay * SECOND));
      case DoRelease(delay) => FinishKnown(s, id, Release, Queued, OkOutcome, Some(now + delay * SECOND));
      case DoCancelRunning => FinishKnown(s, id, CancelRunning, Cancelled, OkOutcome, None);
    }
  }

  lemma KnownGrows(s: State, op: Op)
    requires Linked(s) && ValidOp(op)
    ensures s.known <= Apply(s, op).known
  {
    hide Linked, SettleJob, RefreshedStatus, ParentError;
    match op
    case OpClaim(q, now) =>
      PickedAreJobs(s, q, now);
      ClaimKnown(s, Picked(s, q, now), q.worker);
    case OpSettle(id, attempt, worker, action, now) => SettleKnown(s, id, attempt, worker, action, now);
    case _ =>
  }

  lemma {:induction false} QueueStaysKnown(w: World, calls: seq<Call>, q: string)
    requires WorldOk(w) && ValidCalls(calls) && q in w.engine.known
    ensures q in After(w, calls).engine.known
  {
    hide WorldOk, Linked, Apply;
    if calls != [] {
      var mid := After(w, calls[..|calls| - 1]);
      QueueStaysKnown(w, calls[..|calls| - 1], q);
      WorldLinks(mid);
      var c := calls[|calls| - 1];
      if c.EngineCall? { KnownGrows(mid.engine, c.op); }
    }
  }

  /** A finish that created a job is the last one to do so for its key: from then on every finish of the key
      creates nothing, and repeats the answer exactly to the same handle with the same job and receipt; a cancel comes
      too late, and every reserve of the same intent returns the created job and its receipt. */
  lemma CreatedExactlyOnce(w: World, q: string, key: string, h: Id, job: AdmissionJob, receipt: string, now: Instant,
                           calls: seq<Call>, h2: Id, job2: AdmissionJob, receipt2: string, ttl: int, receiptTtl: int, now2: Instant)
    requires WorldOk(w) && Linked(w.engine) && ValidCalls(calls) && ValidTtls(ttl, receiptTtl)
    requires var r := FinishAdmission(w.engine, w.admissions, q, key, h, job, receipt, now).2; r.Ok? && r.value.FinishCreated?
    ensures WorldOk(Do(w, FinishCall(q, key, h, job, receipt, now)))
    ensures var created := FinishAdmission(w.engine, w.admissions, q, key, h, job, receipt, now).2.value;
            var t := After(Do(w, FinishCall(q, key, h, job, receipt, now)), calls);
            && Linked(t.engine)
            && FinishAdmission(t.engine, t.admissions, q, key, h2, job2, receipt2, now2) ==
                 (t.engine, t.admissions,
                  if h2 != h then Err(Conflict("reservation_conflict"))
                  else if job2 != job || receipt2 != receipt then Err(Conflict("finish_mismatch"))
                  else Ok(FinishExisted(created.job, created.receipt, created.receiptExpires)))
            && CancelAdmission(t.admissions, q, key, h, now2)
               == (t.admissions, Ok(AlreadyAdmitted(created.job, created.receipt, created.receiptExpires)))
            && Reserve(t.engine.known, t.admissions, q, key, w.admissions[(q, key)].intent, h2, ttl, receiptTtl, now2)
               == (t.admissions, Ok(ReserveAdmitted(created.job, created.receipt, created.receiptExpires)))
  {
    hide WorldOk, Linked;
    var c := FinishCall(q, key, h, job, receipt, now);
    DoOk(w, c);
    var w1 := Do(w, c);
    AdmittedForever(w1, calls, (q, key));
    QueueStaysKnown(w1, calls, q);
    WorldLinks(After(w1, calls));
  }

  /** Calls of other handles, and of other keys, before the reservation expires. */
  predicate NotByHolder(c: Call, k: (string, string), h: Id, expires: Instant) {
    match c
    case EngineCall(_) => true
    case ReserveCall(q, key, _, h', _, _, now) => (q, key) != k || now < expires
    case FinishCall(q, key, h', _, _, _) => (q, key) != k || h' != h
    case WithdrawCall(q, key, h', _) => (q, key) != k || h' != h
  }

  /** A live reservation belongs to its handle: until it expires no other caller changes it, and no other
      handle can create the job. */
  lemma ReservationIsExclusive(w: World, c: Call, k: (string, string))
    requires Linked(w.engine) && ValidCall(c) && k in w.admissions && w.admissions[k].phase.Reserved?
    requires NotByHolder(c, k, w.admissions[k].handle, w.admissions[k].expires)
    ensures k in Do(w, c).admissions && Do(w, c).admissions[k] == w.admissions[k]
    ensures c.FinishCall? && (c.queue, c.key) == k ==> Do(w, c).engine == w.engine
  {
    hide Linked;
  }

  lemma {:induction false} HeldUntilExpiry(w: World, calls: seq<Call>, k: (string, string))
    requires WorldOk(w) && ValidCalls(calls) && k in w.admissions && w.admissions[k].phase.Reserved?
    requires forall i :: 0 <= i < |calls| ==> NotByHolder(calls[i], k, w.admissions[k].handle, w.admissions[k].expires)
    ensures k in After(w, calls).admissions && After(w, calls).admissions[k] == w.admissions[k]
  {
    hide WorldOk, Linked, Do, NotByHolder;
    if calls != [] {
      var mid := After(w, calls[..|calls| - 1]);
      HeldUntilExpiry(w, calls[..|calls| - 1], k);
      WorldLinks(mid);
      ReservationIsExclusive(mid, calls[|calls| - 1], k);
    }
  }

  /** Exactly who may create: the current handle of a live reservation. */
  lemma CreatesIff(s: State, a: Reservations, q: string, key: string, h: Id, job: AdmissionJob, receipt: string, now: Instant)
    requires Inv(s) && Linked(s)
    ensures var r := FinishAdmission(s, a, q, key, h, job, receipt, now);
            var creates := (q, key) in a && a[(q, key)].handle == h && a[(q, key)].phase.Reserved? && now < a[(q, key)].expires;
            && (r.2.Ok? && r.2.value.FinishCreated? <==> creates)
            && (creates ==> r.0.order == s.order + [s.nextId] && r.0.jobs == s.jobs[s.nextId := NewJob(JobCommand(q, job), Queued, None, None)])
            && (!creates ==> r.0 == s && r.1 == a)
  {
    hide Inv, Linked;
  }

  // ---- reservations --------------------------------------------------------------------------

  /** A reserve with seconds in range, on a known queue, is granted exactly when the key is free, or is the caller's own live
      reservation made for the same intent; a free key is taken for the seconds asked for, and nothing else ever changes.
      A live reservation of somebody else is reported as pending, and any other intent as a conflict. */
  lemma ReserveAnswers(known: set<string>, a: Reservations, q: string, key: string, intent: string, h: Id, ttl: int, receiptTtl: int, now: Instant)
    ensures var (b, r) := Reserve(known, a, q, key, intent, h, ttl, receiptTtl, now);
            var k := (q, key);
            var valid := 15 <= ttl <= 3600 && 3600 <= receiptTtl <= 365 * 24 * 3600;
            var taken := k in a && !a[k].phase.Withdrawn? && (a[k].phase.Reserved? ==> now < a[k].expires);
            && (r == Err(Validation("admission")) <==> !valid) && (r == Err(NotFound) <==> valid && q !in known)
            && (!valid || q !in known || taken ==> b == a)
            && (valid && q in known ==>
                  && (r.Ok? && r.value.ReserveGranted? <==> !taken || (a[k].intent == intent && a[k].phase.Reserved? && a[k].handle == h))
                  && (!taken ==> r == Ok(ReserveGranted(h, now + ttl * SECOND)) && Holds(b, k, intent, h, now + ttl * SECOND, receiptTtl)
                                 && b.Keys == a.Keys + {k} && (forall j :: j in a && j != k ==> b[j] == a[j]))
                  && (r == Err(Conflict("idempotency_mismatch")) <==> taken && a[k].intent != intent)
                  && (r.Ok? && r.value.ReserveAdmitted? <==> taken && a[k].intent == intent && a[k].phase.Admitted?)
                  && (r.Ok? && r.value.ReservePending? <==> taken && a[k].intent == intent && a[k].phase.Reserved? && a[k].handle != h)
                  && (r.Ok? && r.value.ReservePending? ==> r.value.expires == a[k].expires && r.value.retryAfter == RetryAfter(a[k].expires, now))
                  && (r.Ok? && r.value.ReserveGranted? && taken ==> r.value == ReserveGranted(h, a[k].expires)))
  {
  }

  /** The key is reserved under this handle until then. */
  predicate Holds(a: Reservations, k: (string, string), intent: string, h: Id, expires: Instant, receiptTtl: int) {
    && k in a && a[k].phase.Reserved? && a[k].intent == intent && a[k].handle == h && a[k].expires == expires && a[k].receiptTtl == receiptTtl
  }

  /** The job an admission asks for, field by field: it has no key, no workflow and no parent. */
  predicate AdmittedJob(j: Job, queue: string, asked: AdmissionJob) {
    var c := j.command;
    && c.queue == queue && c.jobType == asked.jobType && c.payload == asked.payload && c.settings == asked.settings
    && c.affinityKey == asked.affinityKey && c.scheduledAt == asked.scheduledAt && c.maxAttempts == asked.maxAttempts
    && c.leaseSeconds == asked.leaseSeconds && c.key.None? && c.flowKey.None? && c.workflow.None? && c.step.None? && c.dependsOn.None?
    && j.status.Queued? && j.attempt.None? && j.attempts == 0 && j.failures == 0 && j.parent.None? && j.policy.None?
  }

  /** The finish creates one job as asked and answers its receipt. */
  predicate FinishCreates(s: State, a: Reservations, q: string, key: string, h: Id, job: AdmissionJob, receipt: string, receiptTtl: int, now: Instant)
    requires Linked(s)
  {
    var (u, _, r) := FinishAdmission(s, a, q, key, h, job, receipt, now);
    && r == Ok(FinishCreated(Some(s.nextId), Some(receipt), Some(now + receiptTtl * SECOND)))
    && s.nextId in u.jobs && AdmittedJob(u.jobs[s.nextId], q, job) && u.order == s.order + [s.nextId]
  }

  /** Whoever was granted a reservation can finish it: whatever everybody else calls before it expires, the holder's
      finish creates the job as asked, and answers it with a receipt that lasts as long as the reservation asked. */
  lemma GrantedCanFinish(w: World, q: string, key: string, intent: string, h: Id, ttl: int, receiptTtl: int, now: Instant,
                         calls: seq<Call>, job: AdmissionJob, receipt: string, now2: Instant)
    requires WorldOk(w) && Linked(w.engine) && ValidCalls(calls)
    requires Reserve(w.engine.known, w.admissions, q, key, intent, h, ttl, receiptTtl, now).1.Ok?
    requires Reserve(w.engine.known, w.admissions, q, key, intent, h, ttl, receiptTtl, now).1.value.ReserveGranted?
    requires var e := Reserve(w.engine.known, w.admissions, q, key, intent, h, ttl, receiptTtl, now).1.value.expires;
             now2 < e && forall i :: 0 <= i < |calls| ==> NotByHolder(calls[i], (q, key), h, e)
    ensures var w1 := Do(w, ReserveCall(q, key, intent, h, ttl, receiptTtl, now));
            && WorldOk(w1) && (q, key) in w1.admissions
            && (var t := After(w1, calls);
                && Linked(t.engine)
                && FinishCreates(t.engine, t.admissions, q, key, h, job, receipt, w1.admissions[(q, key)].receiptTtl, now2))
  {
    hide WorldOk, Linked, NotByHolder, Do, Reserve, FinishCreates, After;
    WithReserve(w, q, key, intent, h, ttl, receiptTtl, now);
    var w1 := Do(w, ReserveCall(q, key, intent, h, ttl, receiptTtl, now));
    HeldUntilExpiry(w1, calls, (q, key));
    var t := After(w1, calls);
    WorldLinks(t);
    WorldInv(t);
    FinishHeld(t.engine, t.admissions, q, key, h, job, receipt, now2);
  }

  lemma WithReserve(w: World, q: string, key: string, intent: string, h: Id, ttl: int, receiptTtl: int, now: Instant)
    requires WorldOk(w) && Linked(w.engine)
    requires Reserve(w.engine.known, w.admissions, q, key, intent, h, ttl, receiptTtl, now).1.Ok?
    requires Reserve(w.engine.known, w.admissions, q, key, intent, h, ttl, receiptTtl, now).1.value.ReserveGranted?
    ensures var w1 := Do(w, ReserveCall(q, key, intent, h, ttl, receiptTtl, now));
            && WorldOk(w1) && (q, key) in w1.admissions
            && (var x := w1.admissions[(q, key)];
                x.phase.Reserved? && x.handle == h
                && x.expires == Reserve(w.engine.known, w.admissions, q, key, intent, h, ttl, receiptTtl, now).1.value.expires)
  {
    hide WorldOk, Linked, RetryAfter;
    DoOk(w, ReserveCall(q, key, intent, h, ttl, receiptTtl, now));
  }

  lemma FinishHeld(s: State, a: Reservations, q: string, key: string, h: Id, job: AdmissionJob, receipt: string, now: Instant)
    requires Inv(s) && Linked(s) && (q, key) in a && a[(q, key)].handle == h && a[(q, key)].phase.Reserved? && now < a[(q, key)].expires
    ensures FinishCreates(s, a, q, key, h, job, receipt, a[(q, key)].receiptTtl, now)
  {
    hide Inv, Linked;
    CreatesIff(s, a, q, key, h, job, receipt, now);
  }

  lemma WorldInv(w: World)
    requires WorldOk(w)
    ensures Inv(w.engine)
  {
    hide Inv;
  }

  // ---- withdrawals ---------------------------------------------------------------------------

  /** What a cancel answers: it withdraws exactly the current handle's live reservation, and changes nothing else. */
  lemma CancelsIff(a: Reservations, q: string, key: string, h: Id, now: Instant)
    ensures var (b, r) := CancelAdmission(a, q, key, h, now);
            var k := (q, key);
            var own := k in a && a[k].handle == h;
            && (r == Ok(CancelledNow) <==> own && a[k].phase.Reserved? && now < a[k].expires)
            && (r == Ok(CancelledNow) ==> k in b && b[k].phase.Withdrawn? && b.Keys == a.Keys && forall j :: j in a && j != k ==> b[j] == a[j])
            && (r != Ok(CancelledNow) ==> b == a)
            && (r == Ok(AlreadyCancelled) <==> own && a[k].phase.Withdrawn?)
            && (r == Ok(Expired) <==> own && a[k].phase.Reserved? && a[k].expires <= now)
            && (r.Ok? && r.value.AlreadyAdmitted? <==> own && a[k].phase.Admitted?)
            && (r == Err(NotFound) <==> k !in a) && (r == Err(Conflict("reservation_conflict")) <==> k in a && a[k].handle != h)
  {
  }

  predicate NoReserve(c: Call, k: (string, string)) {
    c.ReserveCall? ==> (c.queue, c.key) != k
  }

  /** A withdrawn key changes only by being reserved again, and creates nothing. */
  lemma WithdrawnStays(w: World, c: Call, k: (string, string))
    requires Linked(w.engine) && ValidCall(c) && NoReserve(c, k) && k in w.admissions && w.admissions[k].phase.Withdrawn?
    ensures k in Do(w, c).admissions && Do(w, c).admissions[k] == w.admissions[k]
  {
    hide Linked;
  }

  lemma {:induction false} WithdrawnUntilReserved(w: World, calls: seq<Call>, k: (string, string))
    requires WorldOk(w) && ValidCalls(calls) && k in w.admissions && w.admissions[k].phase.Withdrawn?
    requires forall i :: 0 <= i < |calls| ==> NoReserve(calls[i], k)
    ensures k in After(w, calls).admissions && After(w, calls).admissions[k] == w.admissions[k]
  {
    hide WorldOk, Linked, Do, NoReserve;
    if calls != [] {
      var mid := After(w, calls[..|calls| - 1]);
      WithdrawnUntilReserved(w, calls[..|calls| - 1], k);
      WorldLinks(mid);
      WithdrawnStays(mid, calls[|calls| - 1], k);
    }
  }

  predicate FinishRefused(s: State, a: Reservations, q: string, key: string, h: Id, h2: Id, job: AdmissionJob, receipt: string, now: Instant)
    requires Linked(s)
  {
    FinishAdmission(s, a, q, key, h2, job, receipt, now)
    == (s, a, Err(Conflict(if h2 == h then "reservation_cancelled" else "reservation_conflict")))
  }

  predicate ReserveTakes(known: set<string>, a: Reservations, q: string, key: string, intent: string, h: Id, ttl: int, receiptTtl: int, now: Instant) {
    var (b, r) := Reserve(known, a, q, key, intent, h, ttl, receiptTtl, now);
    r == Ok(ReserveGranted(h, now + ttl * SECOND)) && Holds(b, (q, key), intent, h, now + ttl * SECOND, receiptTtl)
  }

  /** A cancel that was answered as done has withdrawn the reservation: through every run in which nobody reserves the key
      again, no finish of the key creates anything, the holder's second cancel is told so, and the next reserve of
      anybody, for any intent, is granted. */
  lemma WithdrawnForGood(w: World, q: string, key: string, h: Id, now: Instant, calls: seq<Call>, h2: Id, job: AdmissionJob, receipt: string,
                         intent: string, ttl: int, receiptTtl: int, now2: Instant)
    requires WorldOk(w) && ValidCalls(calls) && (forall i :: 0 <= i < |calls| ==> NoReserve(calls[i], (q, key)))
    requires CancelAdmission(w.admissions, q, key, h, now).1 == Ok(CancelledNow) && ValidTtls(ttl, receiptTtl)
    ensures Linked(w.engine) && WorldOk(Do(w, WithdrawCall(q, key, h, now)))
    ensures var t := After(Do(w, WithdrawCall(q, key, h, now)), calls);
            && Linked(t.engine)
            && FinishRefused(t.engine, t.admissions, q, key, h, h2, job, receipt, now2)
            && CancelAdmission(t.admissions, q, key, h, now2) == (t.admissions, Ok(AlreadyCancelled))
            && (q in t.engine.known ==> ReserveTakes(t.engine.known, t.admissions, q, key, intent, h2, ttl, receiptTtl, now2))
  {
    hide WorldOk, Linked, NoReserve, Do, ReserveTakes, FinishRefused, CancelAdmission, After;
    WorldLinks(w);
    WithCancel(w, q, key, h, now);
    var w1 := Do(w, WithdrawCall(q, key, h, now));
    WithdrawnUntilReserved(w1, calls, (q, key));
    var t := After(w1, calls);
    WorldLinks(t);
    WithdrawnAnswers(t.engine, t.admissions, q, key, h, h2, job, receipt, now2);
    WithdrawnReserve(t.engine.known, t.admissions, q, key, intent, h2, ttl, receiptTtl, now2);
  }

  lemma WithCancel(w: World, q: string, key: string, h: Id, now: Instant)
    requires WorldOk(w) && Linked(w.engine) && CancelAdmission(w.admissions, q, key, h, now).1 == Ok(CancelledNow)
    ensures var w1 := Do(w, WithdrawCall(q, key, h, now));
            WorldOk(w1) && (q, key) in w1.admissions && w1.admissions[(q, key)].phase.Withdrawn? && w1.admissions[(q, key)].handle == h
  {
    hide WorldOk, Linked;
    DoOk(w, WithdrawCall(q, key, h, now));
  }

  lemma WithdrawnAnswers(s: State, a: Reservations, q: string, key: string, h: Id, h2: Id, job: AdmissionJob, receipt: string, now: Instant)
    requires Linked(s) && (q, key) in a && a[(q, key)].phase.Withdrawn? && a[(q, key)].handle == h
    ensures FinishRefused(s, a, q, key, h, h2, job, receipt, now)
    ensures CancelAdmission(a, q, key, h, now) == (a, Ok(AlreadyCancelled))
  {
    hide Linked;
  }

  lemma WithdrawnReserve(known: set<string>, a: Reservations, q: string, key: string, intent: string, h: Id, ttl: int, receiptTtl: int, now: Instant)
    requires (q, key) in a && a[(q, key)].phase.Withdrawn? && ValidTtls(ttl, receiptTtl)
    ensures q in known ==> ReserveTakes(known, a, q, key, intent, h, ttl, receiptTtl, now)
  {
  }
}

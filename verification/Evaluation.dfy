/** Evaluation of one claimed schedule, from the instants stored with the claim alone. */
module Evaluation {
  import opened TaskTypes

  datatype Recurrence = Interval(seconds: int) | Cron(expression: string, zone: string)

  datatype Catchup = Skip | FireOnce | FireAll

  datatype Evaluated = Evaluated(occurrences: seq<Instant>, next: Instant)

  /** The cron library: the first firing after an instant and the last one up to it, when there is one. */
  datatype Calendar = Calendar(
    following: (string, string, Instant) -> Option<Instant>,
    preceding: (string, string, Instant) -> Option<Instant>)

  /** The only facts used of the cron library. */
  ghost predicate Lawful(cal: Calendar) {
    && (forall e, z, t :: cal.following(e, z, t).Some? ==> cal.following(e, z, t).value > t)
    && (forall e, z, t :: cal.preceding(e, z, t).Some? ==> cal.preceding(e, z, t).value <= t)
  }

  const MIN_INTERVAL := 60
  const MAX_INTERVAL := 31_536_000
  const MAX_CATCHUP := 100

  predicate ValidInterval(seconds: int) {
    MIN_INTERVAL <= seconds <= MAX_INTERVAL
  }

  function Next(cal: Calendar, r: Recurrence, after: Instant): Result<Instant, Error> {
    match r
    case Interval(seconds) => if ValidInterval(seconds) then Ok(after + seconds * SECOND) else Err(Validation("recurrence"))
    case Cron(e, z) =>
      match cal.following(e, z, after)
      case Some(t) => Ok(t)
      case None => Err(Validation("recurrence"))
  }

  /** The firings from `cursor` up to `cutoff`, at most `n` of them, and the first one left over. */
  function Catch(cal: Calendar, r: Recurrence, cursor: Instant, cutoff: Instant, n: nat): Result<Evaluated, Error>
    decreases n
  {
    if cursor > cutoff || n == 0 then Ok(Evaluated([], cursor))
    else
      match Next(cal, r, cursor)
      case Err(e) => Err(e)
      case Ok(t) =>
        match Catch(cal, r, t, cutoff, n - 1)
        case Err(e) => Err(e)
        case Ok(rest) => Ok(Evaluated([cursor] + rest.occurrences, rest.next))
  }

  /** The last firing up to the cutoff. */
  function Latest(cal: Calendar, r: Recurrence, due: Instant, cutoff: Instant): Result<Instant, Error>
    requires due <= cutoff
  {
    match r
    case Interval(seconds) =>
      if !ValidInterval(seconds) then Err(Validation("recurrence"))
      else Ok(due + (cutoff - due) / (seconds * SECOND) * (seconds * SECOND))
    case Cron(e, z) =>
      match cal.preceding(e, z, cutoff)
      case Some(t) => Ok(t)
      case None => Err(Validation("recurrence"))
  }

  function EvaluateBase(cal: Calendar, r: Recurrence, policy: Catchup, maxCatchup: int, initialized: bool,
                        due: Instant, cutoff: Instant): Result<Evaluated, Error> {
    if due > cutoff || !(1 <= maxCatchup <= MAX_CATCHUP) then Err(Validation("schedule_claim"))
    else if !initialized || policy.Skip? then
      match Next(cal, r, cutoff)
      case Err(e) => Err(e)
      case Ok(t) => Ok(Evaluated([], t))
    else if policy.FireOnce? then
      match Latest(cal, r, due, cutoff)
      case Err(e) => Err(e)
      case Ok(latest) =>
        if latest < due then Err(Validation("schedule_claim"))
        else
          match Next(cal, r, cutoff)
          case Err(e) => Err(e)
          case Ok(t) => Ok(Evaluated([latest], t))
    else Catch(cal, r, due, cutoff, maxCatchup)
  }

  function Shift(e: Evaluated, off: int): Evaluated {
    Evaluated(seq(|e.occurrences|, i requires 0 <= i < |e.occurrences| => e.occurrences[i] + off), e.next + off)
  }

  /** With a smear offset the whole evaluation runs in a translated frame. */
  function Evaluate(cal: Calendar, r: Recurrence, policy: Catchup, maxCatchup: int, initialized: bool,
                    due: Instant, cutoff: Instant, smear: nat): Result<Evaluated, Error> {
    if smear == 0 then EvaluateBase(cal, r, policy, maxCatchup, initialized, due, cutoff)
    else
      var off := smear * SECOND;
      match EvaluateBase(cal, r, policy, maxCatchup, initialized, due - off, cutoff - off)
      case Err(e) => Err(e)
      case Ok(e) => Ok(Shift(e, off))
  }

  /** The catch-up loop. */
  method CatchUp(cal: Calendar, r: Recurrence, due: Instant, cutoff: Instant, maxCatchup: nat)
    returns (result: Result<Evaluated, Error>)
    ensures result == Catch(cal, r, due, cutoff, maxCatchup)
  {
    var occurrences: seq<Instant> := [];
    var cursor := due;
    PrependNothing(Catch(cal, r, due, cutoff, maxCatchup));
    while cursor <= cutoff && |occurrences| < maxCatchup
      invariant |occurrences| <= maxCatchup
      invariant Catch(cal, r, due, cutoff, maxCatchup)
             == Prepend(occurrences, Catch(cal, r, cursor, cutoff, maxCatchup - |occurrences|))
      decreases maxCatchup - |occurrences|
    {
      var before, at := occurrences, cursor;
      occurrences := occurrences + [cursor];
      var step := Next(cal, r, cursor);
      if step.Err? {
        return Err(step.error);
      }
      cursor := step.value;
      PrependTwice(before, at, Catch(cal, r, cursor, cutoff, maxCatchup - |occurrences|));
    }
    assert occurrences + [] == occurrences;
    result := Ok(Evaluated(occurrences, cursor));
  }

  function Prepend(first: seq<Instant>, rest: Result<Evaluated, Error>): Result<Evaluated, Error> {
    match rest
    case Err(e) => Err(e)
    case Ok(v) => Ok(Evaluated(first + v.occurrences, v.next))
  }

  lemma PrependNothing(rest: Result<Evaluated, Error>)
    ensures Prepend([], rest) == rest
  {
    if rest.Ok? { assert [] + rest.value.occurrences == rest.value.occurrences; }
  }

  lemma PrependTwice(first: seq<Instant>, at: Instant, rest: Result<Evaluated, Error>)
    ensures Prepend(first, Prepend([at], rest)) == Prepend(first + [at], rest)
  {
    if rest.Ok? { assert first + ([at] + rest.value.occurrences) == first + [at] + rest.value.occurrences; }
  }

  // ---- laws --------------------------------------------------------------------------------

  predicate Increasing(s: seq<Instant>) {
    forall i, j :: 0 <= i < j < |s| ==> s[i] < s[j]
  }

  /** What a scheduler may rely on: the firings are due, in order and bounded; the next one is later than all
      of them, and later than the cutoff unless the bound was hit. */
  ghost predicate GoodEvaluation(e: Evaluated, due: Instant, cutoff: Instant, maxCatchup: int) {
    && Increasing(e.occurrences)
    && |e.occurrences| <= maxCatchup
    && (forall i :: 0 <= i < |e.occurrences| ==> due <= e.occurrences[i] <= cutoff && e.occurrences[i] < e.next)
    && due <= e.next
    && (e.next > cutoff || |e.occurrences| == maxCatchup)
  }

  lemma {:induction false} CatchIsGood(cal: Calendar, r: Recurrence, cursor: Instant, cutoff: Instant, n: nat)
    requires Lawful(cal) && Catch(cal, r, cursor, cutoff, n).Ok?
    ensures GoodEvaluation(Catch(cal, r, cursor, cutoff, n).value, cursor, cutoff, n)
    decreases n
  {
    if cursor <= cutoff && n > 0 {
      var t := Next(cal, r, cursor).value;
      assert t > cursor;
      CatchIsGood(cal, r, t, cutoff, n - 1);
    }
  }

  lemma BaseIsGood(cal: Calendar, r: Recurrence, policy: Catchup, maxCatchup: int, initialized: bool, due: Instant, cutoff: Instant)
    requires Lawful(cal) && EvaluateBase(cal, r, policy, maxCatchup, initialized, due, cutoff).Ok?
    ensures var e := EvaluateBase(cal, r, policy, maxCatchup, initialized, due, cutoff).value;
            && GoodEvaluation(e, due, cutoff, maxCatchup)
            && (!initialized || policy.Skip? ==> e.occurrences == [] && e.next > cutoff)
            && (initialized && policy.FireOnce? ==> |e.occurrences| == 1 && e.next > cutoff)
            && (initialized && policy.FireAll? ==> |e.occurrences| >= 1 && e.occurrences[0] == due)
  {
    if initialized && policy.FireAll? {
      CatchIsGood(cal, r, due, cutoff, maxCatchup);
    } else {
      assert Next(cal, r, cutoff).Ok? && Next(cal, r, cutoff).value > cutoff;
      if initialized && policy.FireOnce? { LatestIsDue(cal, r, due, cutoff); }
    }
  }

  lemma LatestIsDue(cal: Calendar, r: Recurrence, due: Instant, cutoff: Instant)
    requires Lawful(cal) && due <= cutoff && Latest(cal, r, due, cutoff).Ok?
    ensures Latest(cal, r, due, cutoff).value <= cutoff
  {
    if r.Interval? { GreatestMultiple(cutoff - due, r.seconds * SECOND, 0); }
  }

  lemma ShiftIsGood(e: Evaluated, off: int, due: Instant, cutoff: Instant, maxCatchup: int)
    requires GoodEvaluation(e, due - off, cutoff - off, maxCatchup)
    ensures GoodEvaluation(Shift(e, off), due, cutoff, maxCatchup)
  {
    var t := Shift(e, off);
    forall i | 0 <= i < |t.occurrences| ensures t.occurrences[i] == e.occurrences[i] + off {
    }
  }

  lemma EvaluationIsGood(cal: Calendar, r: Recurrence, policy: Catchup, maxCatchup: int, initialized: bool,
                         due: Instant, cutoff: Instant, smear: nat)
    requires Lawful(cal) && Evaluate(cal, r, policy, maxCatchup, initialized, due, cutoff, smear).Ok?
    ensures var e := Evaluate(cal, r, policy, maxCatchup, initialized, due, cutoff, smear).value;
            && GoodEvaluation(e, due, cutoff, maxCatchup)
            && (!initialized || policy.Skip? ==> e.occurrences == [] && e.next > cutoff)
            && (initialized && policy.FireOnce? ==> |e.occurrences| == 1 && e.next > cutoff)
            && (initialized && policy.FireAll? ==> |e.occurrences| >= 1 && e.occurrences[0] == due)
  {
    hide EvaluateBase, GoodEvaluation, Lawful;
    var off := smear * SECOND;
    if smear == 0 {
      BaseIsGood(cal, r, policy, maxCatchup, initialized, due, cutoff);
    } else {
      BaseIsGood(cal, r, policy, maxCatchup, initialized, due - off, cutoff - off);
      ShiftIsGood(EvaluateBase(cal, r, policy, maxCatchup, initialized, due - off, cutoff - off).value, off, due, cutoff, maxCatchup);
    }
  }

  /** `fire_once` on an interval picks the greatest lattice point up to the cutoff. */
  lemma FireOnceIsLatest(cal: Calendar, seconds: int, maxCatchup: int, due: Instant, cutoff: Instant, k: nat)
    requires EvaluateBase(cal, Interval(seconds), FireOnce, maxCatchup, true, due, cutoff).Ok?
    ensures var e := EvaluateBase(cal, Interval(seconds), FireOnce, maxCatchup, true, due, cutoff).value;
            var s := seconds * SECOND;
            && |e.occurrences| == 1
            && e.occurrences[0] <= cutoff
            && (exists m: nat :: e.occurrences[0] == due + m * s)
            && (due + k * s <= cutoff ==> due + k * s <= e.occurrences[0])
            && e.next == cutoff + s
  {
    GreatestMultiple(cutoff - due, seconds * SECOND, k);
  }

  lemma GreatestMultiple(x: nat, s: int, k: nat)
    requires s > 0
    ensures x / s >= 0 && x / s * s <= x
    ensures k * s <= x ==> k * s <= x / s * s
  {
    var m := x / s;
    assert x == m * s + x % s;
    if k > m {
      assert k * s >= (m + 1) * s == m * s + s;
    } else {
      assert k * s <= m * s;
    }
  }

  function Shifted(r: Result<Evaluated, Error>, off: int): Result<Evaluated, Error> {
    match r
    case Err(e) => Err(e)
    case Ok(v) => Ok(Shift(v, off))
  }

  lemma ShiftParts(first: seq<Instant>, v: Evaluated, off: int, first': seq<Instant>)
    requires |first'| == |first| && forall i :: 0 <= i < |first| ==> first'[i] + off == first[i]
    ensures Shift(Evaluated(first' + v.occurrences, v.next), off) == Evaluated(first + Shift(v, off).occurrences, v.next + off)
  {
    var a := Shift(Evaluated(first' + v.occurrences, v.next), off).occurrences;
    var b := first + Shift(v, off).occurrences;
    assert |a| == |b|;
    forall i | 0 <= i < |a| ensures a[i] == b[i] { }
    assert a == b;
  }

  lemma {:induction false} CatchTranslates(cal: Calendar, seconds: int, cursor: Instant, cutoff: Instant, n: nat, off: int)
    ensures Catch(cal, Interval(seconds), cursor, cutoff, n)
         == Shifted(Catch(cal, Interval(seconds), cursor - off, cutoff - off, n), off)
    decreases n
  {
    ShiftParts([], Evaluated([], cursor - off), off, []);
    assert [] + Shift(Evaluated([], cursor - off), off).occurrences == [];
    if cursor <= cutoff && n > 0 && ValidInterval(seconds) {
      CatchTranslates(cal, seconds, cursor + seconds * SECOND, cutoff, n - 1, off);
      assert cursor + seconds * SECOND - off == cursor - off + seconds * SECOND;
      CatchIsLattice(cal, seconds, cursor - off + seconds * SECOND, cutoff - off, n - 1);
      ShiftParts([cursor], Catch(cal, Interval(seconds), cursor - off + seconds * SECOND, cutoff - off, n - 1).value, off, [cursor - off]);
    }
  }

  lemma LatestTranslates(seconds: int, due: Instant, cutoff: Instant, off: int, cal: Calendar)
    requires due <= cutoff
    ensures Latest(cal, Interval(seconds), due, cutoff)
         == match Latest(cal, Interval(seconds), due - off, cutoff - off) case Err(e) => Err(e) case Ok(t) => Ok(t + off)
  {
    assert cutoff - off - (due - off) == cutoff - due;
  }

  /** On intervals the smear is the identity: the lattice is translated there and back. */
  lemma SmearIsIdentity(cal: Calendar, seconds: int, policy: Catchup, maxCatchup: int, initialized: bool,
                        due: Instant, cutoff: Instant, smear: nat)
    ensures Evaluate(cal, Interval(seconds), policy, maxCatchup, initialized, due, cutoff, smear)
         == EvaluateBase(cal, Interval(seconds), policy, maxCatchup, initialized, due, cutoff)
  {
    var off := smear * SECOND;
    if smear > 0 && due <= cutoff && 1 <= maxCatchup <= MAX_CATCHUP {
      var next := cutoff - off + seconds * SECOND;
      if initialized && policy.FireAll? {
        CatchTranslates(cal, seconds, due, cutoff, maxCatchup, off);
      } else if initialized && policy.FireOnce? {
        LatestTranslates(seconds, due, cutoff, off, cal);
        if ValidInterval(seconds) {
          var latest := Latest(cal, Interval(seconds), due - off, cutoff - off).value;
          assert Shift(Evaluated([latest], next), off).occurrences == [latest + off];
        }
      } else {
        assert Shift(Evaluated([], next), off).occurrences == [];
      }
    }
  }

  /** What comes after the i-th occurrence. */
  function Then(v: Evaluated, i: nat): Instant {
    if i + 1 < |v.occurrences| then v.occurrences[i + 1] else v.next
  }

  /** Every occurrence is followed in the calendar, read `off` earlier, by the next one, and the last one by `next`. */
  ghost predicate Successors(cal: Calendar, e: string, z: string, v: Evaluated, off: int) {
    forall i :: 0 <= i < |v.occurrences| ==> FollowedAt(cal, e, z, v, i, off)
  }

  predicate FollowedAt(cal: Calendar, e: string, z: string, v: Evaluated, i: nat, off: int)
    requires i < |v.occurrences|
  {
    cal.following(e, z, v.occurrences[i] - off) == Some(Then(v, i) - off)
  }

  lemma {:induction false} CatchFollows(cal: Calendar, e: string, z: string, cursor: Instant, cutoff: Instant, n: nat)
    requires Catch(cal, Cron(e, z), cursor, cutoff, n).Ok?
    ensures var v := Catch(cal, Cron(e, z), cursor, cutoff, n).value;
            && Successors(cal, e, z, v, 0)
            && (if v.occurrences == [] then v.next == cursor else v.occurrences[0] == cursor)
    decreases n
  {
    if cursor <= cutoff && n > 0 {
      var t := cal.following(e, z, cursor).value;
      CatchFollows(cal, e, z, t, cutoff, n - 1);
      var rest, v := Catch(cal, Cron(e, z), t, cutoff, n - 1).value, Catch(cal, Cron(e, z), cursor, cutoff, n).value;
      forall i | 0 <= i < |v.occurrences| ensures FollowedAt(cal, e, z, v, i, 0) {
        if i > 0 {
          assert FollowedAt(cal, e, z, rest, i - 1, 0);
        } else {
          assert Then(v, 0) == t;
        }
      }
    }
  }

  /** A cron schedule fires at its calendar's instants, all of them later by its one smear offset: the next firing is the
      first after the cutoff; `fire_once` fires the last one up to the cutoff; `fire_all` fires the stored instant and
      its successors one by one, none left out, and stores the successor of the last. */
  lemma SmearedCron(cal: Calendar, e: string, z: string, policy: Catchup, maxCatchup: int, initialized: bool, due: Instant, cutoff: Instant, smear: nat)
    requires Evaluate(cal, Cron(e, z), policy, maxCatchup, initialized, due, cutoff, smear).Ok?
    ensures var v, off := Evaluate(cal, Cron(e, z), policy, maxCatchup, initialized, due, cutoff, smear).value, smear * SECOND;
            && (!initialized || policy.Skip? ==> v.occurrences == [] && cal.following(e, z, cutoff - off) == Some(v.next - off))
            && (initialized && policy.FireOnce? ==>
                  && |v.occurrences| == 1 && cal.preceding(e, z, cutoff - off) == Some(v.occurrences[0] - off)
                  && cal.following(e, z, cutoff - off) == Some(v.next - off))
            && (initialized && policy.FireAll? ==>
                  && v.occurrences != [] && v.occurrences[0] == due && Successors(cal, e, z, v, off)
                  && (v.next > cutoff || |v.occurrences| == maxCatchup))
  {
    var off := smear * SECOND;
    hide Successors;
    if initialized && policy.FireAll? {
      var base := EvaluateBase(cal, Cron(e, z), policy, maxCatchup, initialized, due - off, cutoff - off).value;
      if smear == 0 { ShiftNothing(base); }
      CatchFollows(cal, e, z, due - off, cutoff - off, maxCatchup);
      CatchStops(cal, Cron(e, z), due - off, cutoff - off, maxCatchup);
      ShiftFollows(cal, e, z, Catch(cal, Cron(e, z), due - off, cutoff - off, maxCatchup).value, off);
    }
  }

  lemma ShiftNothing(v: Evaluated)
    ensures Shift(v, 0) == v
  {
    assert Shift(v, 0).occurrences == v.occurrences;
  }

  lemma ShiftFollows(cal: Calendar, e: string, z: string, v: Evaluated, off: int)
    requires Successors(cal, e, z, v, 0)
    ensures Successors(cal, e, z, Shift(v, off), off)
  {
    hide FollowedAt;
    forall i | 0 <= i < |v.occurrences| ensures |Shift(v, off).occurrences| == |v.occurrences| && FollowedAt(cal, e, z, Shift(v, off), i, off) {
      ShiftAt(cal, e, z, v, off, i);
    }
  }

  lemma ShiftAt(cal: Calendar, e: string, z: string, v: Evaluated, off: int, i: nat)
    requires i < |v.occurrences| && FollowedAt(cal, e, z, v, i, 0)
    ensures |Shift(v, off).occurrences| == |v.occurrences| && FollowedAt(cal, e, z, Shift(v, off), i, off)
  {
    assert Shift(v, off).occurrences[i] - off == v.occurrences[i] - 0;
    assert Then(Shift(v, off), i) - off == Then(v, i) - 0;
  }

  lemma {:induction false} CatchStops(cal: Calendar, r: Recurrence, cursor: Instant, cutoff: Instant, n: nat)
    requires Catch(cal, r, cursor, cutoff, n).Ok?
    ensures var v := Catch(cal, r, cursor, cutoff, n).value; |v.occurrences| <= n && (v.next > cutoff || |v.occurrences| == n)
    decreases n
  {
    if cursor <= cutoff && n > 0 { CatchStops(cal, r, Next(cal, r, cursor).value, cutoff, n - 1); }
  }

  /** Unless it catches up everything, a cron schedule can be evaluated exactly when the claim is valid, the calendar goes
      on after the cutoff, and what `fire_once` would fire is not older than what was stored. */
  lemma CronEvaluates(cal: Calendar, e: string, z: string, policy: Catchup, maxCatchup: int, initialized: bool, due: Instant, cutoff: Instant, smear: nat)
    ensures var r, off := Evaluate(cal, Cron(e, z), policy, maxCatchup, initialized, due, cutoff, smear), smear * SECOND;
            && (due > cutoff || maxCatchup < 1 || maxCatchup > 100 ==> r == Err(Validation("schedule_claim")))
            && (due <= cutoff && 1 <= maxCatchup <= 100 && !(initialized && policy.FireAll?) ==>
                  (r.Ok? <==> cal.following(e, z, cutoff - off).Some?
                              && (initialized && policy.FireOnce? ==>
                                    var last := cal.preceding(e, z, cutoff - off); last.Some? && due <= last.value + off)))
  {
  }

  /** An interval schedule can be evaluated exactly when the claim and the interval are valid; `skip` and the first
      evaluation fire nothing and step once from the cutoff. */
  lemma IntervalEvaluates(cal: Calendar, seconds: int, policy: Catchup, maxCatchup: int, initialized: bool, due: Instant, cutoff: Instant, smear: nat)
    ensures var r := Evaluate(cal, Interval(seconds), policy, maxCatchup, initialized, due, cutoff, smear);
            && (r.Ok? <==> due <= cutoff && 1 <= maxCatchup <= 100 && 60 <= seconds <= 365 * 24 * 3600)
            && (r == Err(Validation("schedule_claim")) <==> due > cutoff || maxCatchup < 1 || maxCatchup > 100)
            && (r.Ok? && (!initialized || policy.Skip?) ==> r == Ok(Evaluated([], cutoff + seconds * SECOND)))
  {
    SmearIsIdentity(cal, seconds, policy, maxCatchup, initialized, due, cutoff, smear);
    if due <= cutoff && ValidInterval(seconds) && maxCatchup > 0 {
      CatchIsLattice(cal, seconds, due, cutoff, maxCatchup);
      GreatestMultiple(cutoff - due, seconds * SECOND, 0);
    }
  }

  /** Catching up in two bounded batches gives what one larger batch gives. */
  lemma {:induction false} ChunksConcatenate(cal: Calendar, r: Recurrence, due: Instant, cutoff: Instant, a: nat, b: nat)
    requires Catch(cal, r, due, cutoff, a).Ok?
    ensures Catch(cal, r, due, cutoff, a + b)
         == Prepend(Catch(cal, r, due, cutoff, a).value.occurrences,
                    Catch(cal, r, Catch(cal, r, due, cutoff, a).value.next, cutoff, b))
    decreases a
  {
    if due > cutoff || a == 0 {
      var rest := Catch(cal, r, due, cutoff, b);
      if rest.Ok? { assert [] + rest.value.occurrences == rest.value.occurrences; }
    } else {
      var t := Next(cal, r, due).value;
      ChunksConcatenate(cal, r, t, cutoff, a - 1, b);
      var first := Catch(cal, r, t, cutoff, a - 1).value;
      var rest := Catch(cal, r, first.next, cutoff, b);
      if rest.Ok? {
        assert [due] + (first.occurrences + rest.value.occurrences) == [due] + first.occurrences + rest.value.occurrences;
      }
    }
  }

  /** The first `n` points of an interval lattice. */
  function Lattice(start: Instant, step: int, n: nat): seq<Instant> {
    seq(n, i => start + i * step)
  }

  /** Catching up on an interval walks the lattice from the stored firing and stores its next point. */
  lemma {:induction false} CatchIsLattice(cal: Calendar, seconds: int, due: Instant, cutoff: Instant, n: nat)
    requires ValidInterval(seconds)
    ensures Catch(cal, Interval(seconds), due, cutoff, n).Ok?
    ensures var e := Catch(cal, Interval(seconds), due, cutoff, n).value;
            && e.occurrences == Lattice(due, seconds * SECOND, |e.occurrences|)
            && e.next == due + |e.occurrences| * (seconds * SECOND)
    decreases n
  {
    if due <= cutoff && n > 0 {
      var s := seconds * SECOND;
      CatchIsLattice(cal, seconds, due + s, cutoff, n - 1);
      var rest := Catch(cal, Interval(seconds), due + s, cutoff, n - 1).value;
      var e := Catch(cal, Interval(seconds), due, cutoff, n).value;
      forall i | 0 <= i < |e.occurrences| ensures e.occurrences[i] == due + i * s {
        if i > 0 { assert e.occurrences[i] == rest.occurrences[i - 1] == due + s + (i - 1) * s; }
      }
    }
  }

  lemma LatticeAppends(start: Instant, step: int, n: nat, m: nat)
    ensures Lattice(start, step, n) + Lattice(start + n * step, step, m) == Lattice(start, step, n + m)
  {
    var a, b := Lattice(start, step, n) + Lattice(start + n * step, step, m), Lattice(start, step, n + m);
    forall i | 0 <= i < n + m ensures a[i] == b[i] {
      if i >= n { assert start + n * step + (i - n) * step == start + i * step; }
    }
  }
}

/** Checkpoints staged by a handler against the acknowledgements of its heartbeats, and the priority of
    cancellation reasons. Each method runs under a lock, so the steps of handler and heartbeat interleave whole. */
module Execution {
  import opened TaskTypes

  // ---- checkpoints ---------------------------------------------------------------------------

  datatype Slots = Slots(progress: Option<string>, generation: nat, pending: Option<string>)

  function Start(progress: Option<string>): Slots {
    Slots(progress, 0, None)
  }

  function Stage(s: Slots, progress: string): Slots {
    Slots(Some(progress), s.generation + 1, Some(progress))
  }

  function Pending(s: Slots): Option<(nat, string)> {
    match s.pending
    case None => None
    case Some(p) => Some((s.generation, p))
  }

  function Ack(s: Slots, generation: nat): Slots {
    if generation == s.generation then s.(pending := None) else s
  }

  class JobContext {
    var progress: Option<string>
    var generation: nat
    var pending: Option<string>

    ghost function Contents(): Slots
      reads this
    {
      Slots(progress, generation, pending)
    }

    constructor (initial: Option<string>)
      ensures Contents() == Start(initial)
    {
      progress, generation, pending := initial, 0, None;
    }

    method CheckpointNowait(p: string)
      modifies this
      ensures Contents() == Stage(old(Contents()), p)
    {
      progress := Some(p);
      generation := generation + 1;
      pending := Some(p);
    }

    method PendingCheckpoint() returns (staged: Option<(nat, string)>)
      ensures staged == Pending(Contents())
    {
      if pending.None? {
        return None;
      }
      staged := Some((generation, pending.value));
    }

    method AckCheckpoint(acknowledged: nat)
      modifies this
      ensures Contents() == Ack(old(Contents()), acknowledged)
    {
      if acknowledged == generation {
        pending := None;
      }
    }
  }

  /** What happens to one job: the handler stages, the heartbeat loop sends what is pending, and the call in flight
      succeeds or fails. There is one heartbeat in flight at most. */
  datatype Move = HandlerStages(progress: string) | HeartbeatSends | HeartbeatSucceeds | HeartbeatFails

  /** `confirmed` is the progress the server is known to hold: the claim's, then that of each successful heartbeat
      that carried one. `flight` is what the heartbeat in flight carries. */
  datatype Line = Line(slots: Slots, flight: Option<Option<(nat, string)>>, confirmed: Option<string>, staged: seq<string>)

  function Claimed(progress: Option<string>): Line {
    Line(Start(progress), None, progress, [])
  }

  function Next(l: Line, m: Move): Line {
    match m
    case HandlerStages(p) => l.(slots := Stage(l.slots, p), staged := l.staged + [p])
    case HeartbeatSends => if l.flight.Some? then l else l.(flight := Some(Pending(l.slots)))
    case HeartbeatFails => l.(flight := None)
    case HeartbeatSucceeds =>
      match l.flight
      case None => l
      case Some(None) => l.(flight := None)
      case Some(Some(sent)) => l.(flight := None, slots := Ack(l.slots, sent.0), confirmed := Some(sent.1))
  }

  function After(l: Line, moves: seq<Move>): Line {
    if moves == [] then l else Next(After(l, moves[..|moves| - 1]), moves[|moves| - 1])
  }

  /** The latest progress: the last one staged, or the one the claim came with. */
  function Latest(initial: Option<string>, staged: seq<string>): Option<string> {
    if staged == [] then initial else Some(staged[|staged| - 1])
  }

  predicate LineOk(initial: Option<string>, l: Line) {
    && l.slots.generation == |l.staged| && l.slots.progress == Latest(initial, l.staged)
    && (l.slots.pending.Some? ==> l.staged != [] && l.slots.pending == l.slots.progress)
    && (l.slots.pending.None? ==> l.confirmed == l.slots.progress)
    && (match l.flight
        case Some(Some(sent)) => l.slots.pending.Some? && 0 < sent.0 <= |l.staged| && sent.1 == l.staged[sent.0 - 1]
        case _ => true)
  }

  lemma NextOk(initial: Option<string>, l: Line, m: Move)
    requires LineOk(initial, l)
    ensures LineOk(initial, Next(l, m))
  {
    if m.HandlerStages? && l.flight.Some? && l.flight.value.Some? {
      assert (l.staged + [m.progress])[l.flight.value.value.0 - 1] == l.staged[l.flight.value.value.0 - 1];
    }
  }

  /** No lost checkpoint: in every interleaving, an empty pending slot means that the server is known to hold the
      latest progress; a full one holds the latest progress itself. */
  lemma {:induction false} NoLostCheckpoint(initial: Option<string>, moves: seq<Move>)
    ensures var l := After(Claimed(initial), moves);
            && LineOk(initial, l)
            && (l.slots.pending.None? ==> l.confirmed == Latest(initial, l.staged))
            && (l.slots.pending.Some? ==> l.slots.pending == Latest(initial, l.staged))
  {
    if moves != [] {
      NoLostCheckpoint(initial, moves[..|moves| - 1]);
      NextOk(initial, After(Claimed(initial), moves[..|moves| - 1]), moves[|moves| - 1]);
    }
  }

  predicate OnlyStages(moves: seq<Move>) {
    forall i :: 0 <= i < |moves| ==> moves[i].HandlerStages?
  }

  lemma {:induction false} StagesOnly(l: Line, moves: seq<Move>)
    requires OnlyStages(moves)
    ensures var t := After(l, moves);
            && t.flight == l.flight && t.confirmed == l.confirmed && t.slots.generation == l.slots.generation + |moves|
            && (moves == [] ==> t == l) && (moves != [] ==> t.slots.pending == Some(moves[|moves| - 1].progress))
  {
    if moves != [] { StagesOnly(l, moves[..|moves| - 1]); }
  }

  /** One heartbeat's round trip, with whatever the handler stages meanwhile: its acknowledgement clears the slot
      exactly when nothing was staged during the flight, and otherwise leaves the newest checkpoint pending. */
  lemma RoundTrip(initial: Option<string>, l: Line, during: seq<Move>)
    requires LineOk(initial, l) && l.flight.None? && OnlyStages(during)
    ensures var t := Next(After(Next(l, HeartbeatSends), during), HeartbeatSucceeds);
            && t.flight.None?
            && (t.slots.pending.None? <==> during == [])
            && (during != [] ==> t.slots.pending == Some(during[|during| - 1].progress))
            && (l.slots.pending.Some? ==> t.confirmed == l.slots.pending)
            && (l.slots.pending.None? ==> t.confirmed == l.confirmed)
  {
    StagesOnly(Next(l, HeartbeatSends), during);
  }

  // ---- cancellation --------------------------------------------------------------------------

  datatype Reason = Shutdown | Operator | LeaseLost

  function Priority(r: Reason): nat {
    match r
    case Shutdown => 1
    case Operator => 2
    case LeaseLost => 3
  }

  /** A reason replaces only a weaker one. */
  function Raise(current: Option<Reason>, r: Reason): Option<Reason> {
    if current.Some? && Priority(current.value) >= Priority(r) then current else Some(r)
  }

  function RaiseAll(current: Option<Reason>, rs: seq<Reason>): Option<Reason> {
    if rs == [] then current else Raise(RaiseAll(current, rs[..|rs| - 1]), rs[|rs| - 1])
  }

  class CancellationToken {
    var reason: Option<Reason>
    var isSet: bool

    ghost predicate Valid()
      reads this
    {
      isSet <==> reason.Some?
    }

    constructor ()
      ensures Valid() && reason.None?
    {
      reason, isSet := None, false;
    }

    method Cancel(r: Reason) returns (raised: bool)
      requires Valid()
      modifies this
      ensures Valid() && reason == Raise(old(reason), r) && (raised <==> reason != old(reason))
    {
      if reason.Some? && Priority(reason.value) >= Priority(r) {
        return false;
      }
      reason := Some(r);
      isSet := true;
      raised := true;
    }
  }

  /** Whatever the order of the requests, the token ends with the strongest of them, and once set it stays set. */
  lemma {:induction false} StrongestWins(current: Option<Reason>, rs: seq<Reason>)
    ensures var last := RaiseAll(current, rs);
            && (last.Some? <==> current.Some? || rs != [])
            && (last.Some? ==> last == current || last.value in rs)
            && (forall r :: r in rs || current == Some(r) ==> last.Some? && Priority(r) <= Priority(last.value))
  {
    if rs != [] {
      StrongestWins(current, rs[..|rs| - 1]);
      assert rs == rs[..|rs| - 1] + [rs[|rs| - 1]];
    }
  }

  lemma OrderDoesNotMatter(rs: seq<Reason>, qs: seq<Reason>)
    requires multiset(rs) == multiset(qs)
    ensures RaiseAll(None, rs) == RaiseAll(None, qs)
  {
    StrongestWins(None, rs);
    StrongestWins(None, qs);
    forall r ensures r in rs <==> r in qs {
      assert r in multiset(rs) <==> r in multiset(qs);
    }
  }
}

/** The long-poll waiter hub. No method suspends while it holds the lock, so each is one step; the event objects
    of the waiters are numbered. */
module Hub {
  import opened TaskTypes

  /** Waiters subscribe to one queue, or to everything when no queue is named. */
  type Topic = Option<string>

  datatype State = State(generation: nat, queueGenerations: map<string, nat>, closed: bool, subscribers: map<Topic, set<Id>>,
                         signalled: set<Id>, nextEvent: Id)

  function Fresh(): State {
    State(0, map[], false, map[], {}, 0)
  }

  function QueueGeneration(s: State, queue: string): nat {
    if queue in s.queueGenerations then s.queueGenerations[queue] else 0
  }

  /** The generation a waiter of the topic observes. */
  function Observed(s: State, topic: Topic): nat {
    match topic
    case None => s.generation
    case Some(queue) => QueueGeneration(s, queue)
  }

  function Bucket(s: State, topic: Topic): set<Id> {
    if topic in s.subscribers then s.subscribers[topic] else {}
  }

  /** Every event of every bucket. */
  ghost function Everyone(s: State): set<Id> {
    set t, e | t in s.subscribers && e in s.subscribers[t] :: e
  }

  function Subscribed(s: State, observed: nat, topic: Topic): State {
    var e := s.nextEvent;
    s.(subscribers := s.subscribers[topic := Bucket(s, topic) + {e}], nextEvent := e + 1,
       signalled := if observed != Observed(s, topic) then s.signalled + {e} else s.signalled)
  }

  function Bumped(generations: map<string, nat>): map<string, nat> {
    map q | q in generations :: generations[q] + 1
  }

  ghost function Notified(s: State, topic: Topic): State {
    if s.closed then s
    else
      match topic
      case None => s.(generation := s.generation + 1, queueGenerations := Bumped(s.queueGenerations), signalled := s.signalled + Everyone(s))
      case Some(queue) =>
        s.(generation := s.generation + 1, queueGenerations := s.queueGenerations[queue := QueueGeneration(s, queue) + 1],
           signalled := s.signalled + Bucket(s, topic) + Bucket(s, None))
  }

  ghost function ShutDown(s: State): State {
    if s.closed then s
    else
      s.(closed := true, generation := s.generation + 1, queueGenerations := Bumped(s.queueGenerations), signalled := s.signalled + Everyone(s))
  }

  function Removed(s: State, event: Id, topic: Topic): State {
    if topic in s.subscribers then s.(subscribers := s.subscribers[topic := s.subscribers[topic] - {event}]) else s
  }

  class ClaimWaitHub {
    var generation: nat
    var queueGenerations: map<string, nat>
    var closed: bool
    var subscribers: map<Topic, set<Id>>
    var signalled: set<Id>
    var nextEvent: Id

    ghost function Contents(): State
      reads this
    {
      State(generation, queueGenerations, closed, subscribers, signalled, nextEvent)
    }

    constructor ()
      ensures Contents() == Fresh()
    {
      generation, queueGenerations, closed, subscribers, signalled, nextEvent := 0, map[], false, map[], {}, 0;
    }

    method Subscribe(observed: nat, topic: Topic) returns (event: Option<Id>)
      modifies this
      ensures old(closed) ==> event.None? && Contents() == old(Contents())
      ensures !old(closed) ==> event == Some(old(nextEvent)) && Contents() == Subscribed(old(Contents()), observed, topic)
    {
      if closed {
        return None;
      }
      var e := nextEvent;
      nextEvent := nextEvent + 1;
      subscribers := subscribers[topic := (if topic in subscribers then subscribers[topic] else {}) + {e}];
      var current := generation;
      if topic.Some? {
        current := if topic.value in queueGenerations then queueGenerations[topic.value] else 0;
      }
      if observed != current {
        signalled := signalled + {e};
      }
      event := Some(e);
    }

    method Notify(topic: Topic)
      modifies this
      ensures Contents() == Notified(old(Contents()), topic)
    {
      if closed {
        return;
      }
      generation := generation + 1;
      var targets: set<Id>;
      if topic.None? {
        BumpAll();
        targets := AllEvents();
      } else {
        queueGenerations := queueGenerations[topic.value := (if topic.value in queueGenerations then queueGenerations[topic.value] else 0) + 1];
        targets := if topic in subscribers then subscribers[topic] else {};
        targets := targets + if None in subscribers then subscribers[None] else {};
      }
      SetAll(targets);
    }

    method Shutdown()
      modifies this
      ensures Contents() == ShutDown(old(Contents()))
    {
      if closed {
        return;
      }
      closed := true;
      generation := generation + 1;
      BumpAll();
      var waiting := AllEvents();
      SetAll(waiting);
    }

    method Remove(event: Id, topic: Topic)
      modifies this
      ensures Contents() == Removed(old(Contents()), event, topic)
    {
      if topic in subscribers {
        subscribers := subscribers[topic := subscribers[topic] - {event}];
      }
    }

    method BumpAll()
      modifies this`queueGenerations
      ensures queueGenerations == Bumped(old(queueGenerations))
    {
      ghost var was := queueGenerations;
      var names := queueGenerations.Keys;
      while names != {}
        invariant names <= was.Keys && queueGenerations.Keys == was.Keys
        invariant forall q :: q in was ==> queueGenerations[q] == if q in names then was[q] else was[q] + 1
        decreases names
      {
        var q :| q in names;
        queueGenerations := queueGenerations[q := queueGenerations[q] + 1];
        names := names - {q};
      }
      assert queueGenerations == Bumped(was);
    }

    method AllEvents() returns (events: set<Id>)
      ensures events == Everyone(Contents())
    {
      events := {};
      var topics := subscribers.Keys;
      while topics != {}
        invariant topics <= subscribers.Keys
        invariant events == set t, e | t in subscribers.Keys - topics && e in subscribers[t] :: e
        decreases topics
      {
        var t :| t in topics;
        events := events + subscribers[t];
        topics := topics - {t};
      }
    }

    /** Each target's event is set; none is ever cleared. */
    method SetAll(targets: set<Id>)
      modifies this`signalled
      ensures signalled == old(signalled) + targets
    {
      var left := targets;
      while left != {}
        invariant left <= targets && signalled == old(signalled) + (targets - left)
        decreases left
      {
        var e :| e in left;
        signalled := signalled + {e};
        left := left - {e};
      }
      assert targets - left == targets;
    }
  }

  // ---- runs ----------------------------------------------------------------------------------

  datatype Op = SubscribeOp(observed: nat, topic: Topic) | NotifyOp(topic: Topic) | ShutdownOp | RemoveOp(event: Id, topic: Topic)

  ghost function Apply(s: State, op: Op): State {
    match op
    case SubscribeOp(observed, topic) => if s.closed then s else Subscribed(s, observed, topic)
    case NotifyOp(topic) => Notified(s, topic)
    case ShutdownOp => ShutDown(s)
    case RemoveOp(event, topic) => Removed(s, event, topic)
  }

  ghost function Run(s: State, ops: seq<Op>): State {
    if ops == [] then s else Apply(Run(s, ops[..|ops| - 1]), ops[|ops| - 1])
  }

  /** A notification that changes what a waiter of the topic observes: one for the topic itself, or a global one
      when the topic has a generation of its own. Anything changes the global generation. */
  predicate Noticed(s: State, op: Op, topic: Topic) {
    match topic
    case None => op.NotifyOp? || op.ShutdownOp?
    case Some(queue) => op == NotifyOp(topic) || ((op == NotifyOp(None) || op.ShutdownOp?) && queue in s.queueGenerations)
  }

  ghost predicate NoticedIn(s: State, ops: seq<Op>, topic: Topic) {
    exists i :: 0 <= i < |ops| && Noticed(Run(s, ops[..i]), ops[i], topic)
  }

  lemma StepObserved(s: State, op: Op, topic: Topic)
    ensures Observed(s, topic) <= Observed(Apply(s, op), topic)
    ensures !Apply(s, op).closed ==> !s.closed
    ensures !s.closed ==> (Observed(s, topic) < Observed(Apply(s, op), topic) <==> Noticed(s, op, topic))
  {
  }

  /** The observed generation moved exactly when something was noticed. */
  lemma {:induction false} RunObserved(s: State, ops: seq<Op>, topic: Topic)
    ensures Observed(s, topic) <= Observed(Run(s, ops), topic)
    ensures !Run(s, ops).closed ==> !s.closed && (Observed(s, topic) < Observed(Run(s, ops), topic) <==> NoticedIn(s, ops, topic))
  {
    if ops != [] {
      var n := |ops| - 1;
      RunObserved(s, ops[..n], topic);
      StepObserved(Run(s, ops[..n]), ops[n], topic);
      NoticedLast(s, ops, topic);
    }
  }

  lemma NoticedLast(s: State, ops: seq<Op>, topic: Topic)
    requires ops != []
    ensures var n := |ops| - 1; NoticedIn(s, ops, topic) <==> NoticedIn(s, ops[..n], topic) || Noticed(Run(s, ops[..n]), ops[n], topic)
  {
    hide Run, Noticed;
    var n := |ops| - 1;
    if i :| 0 <= i < n && Noticed(Run(s, ops[..n][..i]), ops[..n][i], topic) {
      assert ops[..n][..i] == ops[..i] && Noticed(Run(s, ops[..i]), ops[i], topic);
    }
    if i :| 0 <= i < n && Noticed(Run(s, ops[..i]), ops[i], topic) {
      assert ops[..n][..i] == ops[..i] && Noticed(Run(s, ops[..n][..i]), ops[..n][i], topic);
    }
  }

  // ---- a waiting subscriber ------------------------------------------------------------------

  /** A call that wakes the waiters of a topic while the hub is open. */
  predicate Wakes(op: Op, topic: Topic) {
    op.ShutdownOp? || op == NotifyOp(None) || op == NotifyOp(topic) || (topic.None? && op.NotifyOp?)
  }

  predicate Waits(s: State, event: Id, topic: Topic) {
    topic in s.subscribers && event in s.subscribers[topic] && event < s.nextEvent
  }

  predicate Keeps(ops: seq<Op>, event: Id) {
    forall i :: 0 <= i < |ops| ==> !(ops[i].RemoveOp? && ops[i].event == event)
  }

  /** Only waking calls set the event of a waiter, and every one does while the hub is open. A hub that closed
      has set it. */
  lemma StepWaits(s: State, op: Op, event: Id, topic: Topic)
    requires Waits(s, event, topic) && (s.closed ==> event in s.signalled) && !(op.RemoveOp? && op.event == event)
    requires forall t :: t in s.subscribers && event in s.subscribers[t] ==> t == topic
    ensures var t := Apply(s, op);
            && Waits(t, event, topic) && (t.closed ==> event in t.signalled)
            && (forall u :: u in t.subscribers && event in t.subscribers[u] ==> u == topic)
            && (event in t.signalled <==> event in s.signalled || Wakes(op, topic))
  {
    assert event in Everyone(s);
  }

  lemma {:induction false} RunWaits(s: State, ops: seq<Op>, event: Id, topic: Topic)
    requires Waits(s, event, topic) && !s.closed && Keeps(ops, event)
    requires forall t :: t in s.subscribers && event in s.subscribers[t] ==> t == topic
    ensures var t := Run(s, ops);
            && Waits(t, event, topic) && (t.closed ==> event in t.signalled)
            && (forall u :: u in t.subscribers && event in t.subscribers[u] ==> u == topic)
            && (event in t.signalled <==> event in s.signalled || exists i :: 0 <= i < |ops| && Wakes(ops[i], topic))
  {
    hide Wakes;
    if ops != [] {
      var n := |ops| - 1;
      RunWaits(s, ops[..n], event, topic);
      StepWaits(Run(s, ops[..n]), ops[n], event, topic);
    }
  }

  /** Event numbers in use are below the next one. */
  predicate NumbersOk(s: State) {
    && (forall t, e :: t in s.subscribers && e in s.subscribers[t] ==> e < s.nextEvent)
    && (forall e :: e in s.signalled ==> e < s.nextEvent)
  }

  lemma {:induction false} RunNumbers(s: State, ops: seq<Op>)
    requires NumbersOk(s)
    ensures NumbersOk(Run(s, ops))
  {
    if ops != [] {
      RunNumbers(s, ops[..|ops| - 1]);
      var m := Run(s, ops[..|ops| - 1]);
      forall t, e | t in m.subscribers && e in m.subscribers[t] ensures e < m.nextEvent {
      }
    }
  }

  /** No lost wakeup: a waiter reads the generation of its topic, anything happens, it subscribes with what it read,
      and anything but its own removal happens. Its event is set exactly when a noticed notification came before
      the subscription or a waking call after it. */
  lemma NoLostWakeup(s: State, topic: Topic, before: seq<Op>, after: seq<Op>)
    requires NumbersOk(s) && !Run(s, before).closed
    requires Keeps(after, Run(s, before).nextEvent)
    ensures var m := Run(s, before);
            var t := Run(Subscribed(m, Observed(s, topic), topic), after);
            m.nextEvent in t.signalled <==>
              NoticedIn(s, before, topic) || exists i :: 0 <= i < |after| && Wakes(after[i], topic)
  {
    hide Noticed, Wakes, Run, NoticedIn, Waits;
    var m := Run(s, before);
    RunObserved(s, before, topic);
    RunNumbers(s, before);
    JustSubscribed(m, Observed(s, topic), topic);
    RunWaits(Subscribed(m, Observed(s, topic), topic), after, m.nextEvent, topic);
  }

  lemma JustSubscribed(m: State, observed: nat, topic: Topic)
    requires NumbersOk(m)
    ensures var u := Subscribed(m, observed, topic);
            && Waits(u, m.nextEvent, topic) && u.closed == m.closed
            && (forall t :: t in u.subscribers && m.nextEvent in u.subscribers[t] ==> t == topic)
            && (m.nextEvent in u.signalled <==> observed != Observed(m, topic))
  {
  }

  /** A notification of the queue itself is never missed, whenever it comes. */
  lemma QueueNotifyIsNeverMissed(s: State, queue: string, before: seq<Op>, after: seq<Op>)
    requires NumbersOk(s) && !Run(s, before).closed && Keeps(after, Run(s, before).nextEvent)
    requires NotifyOp(Some(queue)) in before || NotifyOp(Some(queue)) in after
    ensures var m := Run(s, before);
            m.nextEvent in Run(Subscribed(m, QueueGeneration(s, queue), Some(queue)), after).signalled
  {
    hide Run;
    NoLostWakeup(s, Some(queue), before, after);
    if NotifyOp(Some(queue)) in before {
      var i :| 0 <= i < |before| && before[i] == NotifyOp(Some(queue));
      assert Noticed(Run(s, before[..i]), before[i], Some(queue));
    } else {
      var i :| 0 <= i < |after| && after[i] == NotifyOp(Some(queue));
      assert Wakes(after[i], Some(queue));
    }
  }

  /** A global notification between the read and the subscription is noticed exactly when the queue had a
      generation of its own: a queue that was never notified misses it. */
  lemma GlobalNotifyBeforeSubscribe(s: State, queue: string)
    requires NumbersOk(s) && !s.closed
    ensures var m := Run(s, [NotifyOp(None)]);
            m.nextEvent in Subscribed(m, QueueGeneration(s, queue), Some(queue)).signalled <==> queue in s.queueGenerations
  {
    var before := [NotifyOp(None)];
    assert before[..0] == [] && Run(s, before) == Apply(s, NotifyOp(None));
    RunNumbers(s, before);
    JustSubscribed(Run(s, before), QueueGeneration(s, queue), Some(queue));
  }

  /** An instance: in a new hub a waiter reads the generation of a queue, a global notification comes, the waiter
      subscribes, and stays asleep. */
  lemma MissedGlobalNotify()
    ensures var m := Run(Fresh(), [NotifyOp(None)]);
            m.nextEvent !in Subscribed(m, QueueGeneration(Fresh(), "q"), Some("q")).signalled
  {
    GlobalNotifyBeforeSubscribe(Fresh(), "q");
  }
}

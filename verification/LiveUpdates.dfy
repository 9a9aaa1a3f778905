/**
  Live streams (src/live_updates.py, src/api/events.py): capacity slots and subscriptions as a
  class, and the wake-up protocol of writers and streams as a state machine.
 */
module LiveUpdates {
  import opened RoomModel

  const MAX_SUBSCRIPTIONS := 100

  datatype Subscription = Subscription(id: nat, room: nat)

  class Hub {
    var reservations: set<nat>
    var subscriptions: set<Subscription>
    /** Wakes handed to the event loops, not run yet. */
    var queued: multiset<Subscription>
    var next: nat

    /** Never more streams and reserved slots together than the cap; slot numbers are used once. */
    ghost predicate Valid()
      reads this
    {
      && |reservations| + |subscriptions| <= MAX_SUBSCRIPTIONS
      && (forall r :: r in reservations ==> r < next)
        && (forall s :: s in subscriptions ==> s.id < next && s.id !in reservations)
    }

    constructor ()
      ensures Valid() && reservations == {} && subscriptions == {} && queued == multiset{}
    {
      reservations, subscriptions, queued, next := {}, {}, multiset{}, 0;
    }

    /** A slot, unless every slot is in use. */
    method Reserve() returns (r: Option<nat>)
      requires Valid()
      modifies `reservations, `next
      ensures Valid() && (r.Some? <==> |old(reservations)| + |subscriptions| < 100)
      ensures r.Some? ==> r.value !in old(reservations) && reservations == old(reservations) + {r.value}
      ensures r.None? ==> reservations == old(reservations)
    {
      if |subscriptions| + |reservations| >= MAX_SUBSCRIPTIONS { return None; }
      r := Some(next);
      reservations := reservations + {next};
      next := next + 1;
    }

    /** Gives the slot back, unless it became a subscription. */
    method Release(r: nat)
      requires Valid()
      modifies `reservations
      ensures Valid() && reservations == old(reservations) - {r}
    {
      reservations := reservations - {r};
    }

    /** A reserved slot becomes the subscription of one stream; the number in use stays. */
    method Subscribe(room: nat, r: nat) returns (s: Option<Subscription>)
      requires Valid()
      modifies `reservations, `subscriptions
      ensures Valid() && |reservations| + |subscriptions| == |old(reservations)| + |old(subscriptions)|
      ensures s.Some? <==> r in old(reservations)
      ensures s.Some? ==> s.value == Subscription(r, room) && s.value !in old(subscriptions)
      ensures s.Some? ==> reservations == old(reservations) - {r} && subscriptions == old(subscriptions) + {s.value}
      ensures s.None? ==> reservations == old(reservations) && subscriptions == old(subscriptions)
    {
      if r !in reservations { return None; }
      reservations := reservations - {r};
      subscriptions := subscriptions + {Subscription(r, room)};
      return Some(Subscription(r, room));
    }

    method Close(s: Subscription)
      requires Valid()
      modifies `subscriptions
      ensures Valid() && subscriptions == old(subscriptions) - {s}
    {
      subscriptions := subscriptions - {s};
    }

    /** One more wake is queued for each stream of the room, and for no other. */
    method WakeStreams(room: nat)
      modifies `queued
      ensures forall s :: queued[s] == old(queued)[s] + if s in subscriptions && s.room == room then 1 else 0
    {
      var targets := set s | s in subscriptions && s.room == room;
      var rest := targets;
      while rest != {}
        invariant rest <= targets
        invariant forall s :: queued[s] == old(queued)[s] + if s in targets && s !in rest then 1 else 0
        decreases |rest|
      {
        var s :| s in rest;
        rest := rest - {s};
        queued := queued[s := queued[s] + 1];
      }
    }
  }

  // The protocol, in one room

  /** A writer that committed: it has not told anybody yet, or wakes the streams one by one. */
  datatype Writer = Committed | Waking(targets: set<nat>)

  /** A stream reads the seq, sends it if it is new, and waits; after a wake it clears its event first. */
  datatype Phase = Reading | Sending(seq': nat) | Waiting | Clearing

  datatype Stream = Stream(phase: Phase, sent: Option<nat>, event: bool, queued: nat)

  datatype Sys = Sys(seq': nat, writers: map<nat, Writer>, streams: map<nat, Stream>)

  datatype Step =
    | Commit(w: nat, seq': nat)
    | Notify(w: nat)
    | WakeOne(w: nat, x: nat)
    | Finish(w: nat)
    | RunWake(x: nat)
    | Open(x: nat)
    | Read(x: nat)
    | Send(x: nat)
    | Resume(x: nat)
    | ClearEvent(x: nat)
    | Timeout(x: nat)
    | Shut(x: nat)

  predicate In(s: Sys, x: nat, phase: Phase) { x in s.streams && s.streams[x].phase == phase }

  predicate Can(s: Sys, step: Step) {
    match step
    case Commit(w, n) => w !in s.writers && s.seq' < n
    case Notify(w) => w in s.writers && s.writers[w].Committed?
    case WakeOne(w, x) => w in s.writers && s.writers[w].Waking? && x in s.writers[w].targets
    case Finish(w) => w in s.writers && s.writers[w] == Waking({})
    case RunWake(x) => x in s.streams && s.streams[x].queued > 0
    case Open(x) => x !in s.streams
    case Read(x) => In(s, x, Reading)
    case Send(x) => x in s.streams && s.streams[x].phase.Sending?
    case Resume(x) => In(s, x, Waiting) && s.streams[x].event
    case ClearEvent(x) => In(s, x, Clearing)
    case Timeout(x) => In(s, x, Waiting)
    case Shut(x) => x in s.streams
  }

  function Do(s: Sys, step: Step): Sys
    requires Can(s, step)
  {
    match step
    case Commit(w, n) => s.(seq' := n, writers := s.writers[w := Committed])
    case Notify(w) => s.(writers := s.writers[w := Waking(s.streams.Keys)])
    case WakeOne(w, x) =>
      var t := s.(writers := s.writers[w := Waking(s.writers[w].targets - {x})]);
      if x in s.streams then t.(streams := s.streams[x := s.streams[x].(queued := s.streams[x].queued + 1)]) else t
    case Finish(w) => s.(writers := s.writers - {w})
    case RunWake(x) => s.(streams := s.streams[x := s.streams[x].(queued := s.streams[x].queued - 1, event := true)])
    case Open(x) => s.(streams := s.streams[x := Stream(Reading, None, false, 0)])
    case Read(x) => s.(streams := s.streams[x := s.streams[x].(phase := Sending(s.seq'))])
    case Send(x) =>
      s.(streams := s.streams[x := s.streams[x].(phase := Waiting, sent := Some(s.streams[x].phase.seq'))])
    case Resume(x) => s.(streams := s.streams[x := s.streams[x].(phase := Clearing)])
    case ClearEvent(x) => s.(streams := s.streams[x := s.streams[x].(phase := Reading, event := false)])
    case Timeout(x) => s.(streams := s.streams[x := s.streams[x].(phase := Reading)])
    case Shut(x) => s.(streams := s.streams - {x})
  }

  /** What the stream sent, or is about to send. */
  function Told(x: Stream): Option<nat> { if x.phase.Sending? then Some(x.phase.seq') else x.sent }

  /** A writer will still wake the stream. */
  ghost predicate WakeComes(writers: map<nat, Writer>, x: nat) {
    exists w :: w in writers && (writers[w].Committed? || x in writers[w].targets)
  }

  /** A stream past its read knows the latest seq, or something will make it read again. */
  ghost predicate Informed(s: Sys, x: nat)
    requires x in s.streams
  {
    var t := s.streams[x];
    t.phase.Sending? || t.phase.Waiting? ==>
      Told(t) == Some(s.seq') || t.event || t.queued > 0 || WakeComes(s.writers, x)
  }

  ghost predicate Inv(s: Sys) { forall x :: x in s.streams ==> Informed(s, x) }

  lemma WakeStillComes(s: Sys, step: Step, x: nat)
    requires Can(s, step) && WakeComes(s.writers, x) && x in s.streams && x in Do(s, step).streams
    ensures WakeComes(Do(s, step).writers, x) || Do(s, step).streams[x].queued > 0
  {
    var t := Do(s, step);
    var w :| w in s.writers && (s.writers[w].Committed? || x in s.writers[w].targets);
    if w in t.writers && (t.writers[w].Committed? || x in t.writers[w].targets) { assert WakeComes(t.writers, x); }
  }

  lemma StepKeeps(s: Sys, step: Step)
    requires Inv(s) && Can(s, step)
    ensures Inv(Do(s, step))
  {
    var t := Do(s, step);
    forall x | x in t.streams ensures Informed(t, x) {
      if x in s.streams {
        assert Informed(s, x);
        if WakeComes(s.writers, x) { WakeStillComes(s, step, x); }
        if step.Commit? { assert t.writers[step.w].Committed?; }
      }
    }
  }

  ghost predicate Possible(s: Sys, steps: seq<Step>)
    decreases |steps|
  {
    steps == [] || (Can(s, steps[0]) && Possible(Do(s, steps[0]), steps[1..]))
  }

  ghost function After(s: Sys, steps: seq<Step>): Sys
    requires Possible(s, steps)
    decreases |steps|
  {
    if steps == [] then s else After(Do(s, steps[0]), steps[1..])
  }

  lemma {:induction false} RunKeeps(s: Sys, steps: seq<Step>)
    requires Inv(s) && Possible(s, steps)
    ensures Inv(After(s, steps))
    decreases |steps|
  {
    hide Inv, Do;
    if steps != [] {
      StepKeeps(s, steps[0]);
      RunKeeps(Do(s, steps[0]), steps[1..]);
    }
  }

  /**
    No lost wake-up: in every interleaving, a stream that sleeps with its event clear and no wake
    queued has sent the latest committed seq, unless a writer has still to wake it.
   */
  lemma NoLostWakeUp(start: nat, steps: seq<Step>, x: nat)
    requires Possible(Sys(start, map[], map[]), steps)
    ensures var s := After(Sys(start, map[], map[]), steps);
      In(s, x, Waiting) && !s.streams[x].event && s.streams[x].queued == 0 && !WakeComes(s.writers, x) ==>
        s.streams[x].sent == Some(s.seq')
  {
    RunKeeps(Sys(start, map[], map[]), steps);
    var s := After(Sys(start, map[], map[]), steps);
    assert x in s.streams ==> Informed(s, x);
  }
}

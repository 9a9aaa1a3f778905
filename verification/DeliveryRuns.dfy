/** Runs of the delivery machine, from the beginning, that show what its guarantees leave open. */
module DeliveryRuns {
  import opened RoomModel
  import opened Rebase
  import opened WriteQueues
  import opened Delivery

  lemma OneStep(s: Sys, step: Step, rest: seq<Step>)
    requires Can(s, step) && Possible(Do(s, step), rest)
    ensures Possible(s, [step] + rest) && After(s, [step] + rest) == After(Do(s, step), rest)
  {
    assert ([step] + rest)[1..] == rest;
  }

  // A run in which the answer is lost

  const SENDING := [Store, Start, Store, Transmit]

  function Losing(sent: SentOp): seq<Step> { [Arrive(sent), Lose, Start, Transmit] }

  /** The request under way arrives at time `t`, after the server pruned. */
  function Arriving(sent: SentOp, t: Time): seq<Step> { [Tick(t), Prune, Arrive(sent)] }

  /** An op is made, stored, started and executed; the answer is lost, and the request goes out again. */
  function AnswerLost(id: Uid, op: Op, rest: seq<Step>): seq<Step> {
    [Act(id, op)] + (SENDING + (Losing(SentOp(id, op)) + rest))
  }

  function MadeEntry(now: Time, id: Uid, op: Op): Entry { Entry(SentOp(id, op), Some(now), Pending, false, true) }

  /** The op is stored, and `n` requests of it went out. */
  function SentState(now: Time, id: Uid, op: Op, n: nat): Sys {
    var e := MadeEntry(now, id, op);
    Sys(now, map[id := now], Memory([e], {id}, 1, []), [e.(started := true)], Open(e),
        if n == 1 then map[] else map[id := StoredOp(op, now)], if n == 1 then []
            else [id], seq(n, _ => e.sent), false, {}, {})
  }

  lemma SendingRun(s: Sys, id: Uid, op: Op, rest: seq<Step>)
    requires Init(s) && Possible(SentState(s.now, id, op, 1), rest)
    ensures Possible(s, [Act(id, op)] + (SENDING + rest))
    ensures After(s, [Act(id, op)] + (SENDING + rest)) == After(SentState(s.now, id, op, 1), rest)
  {
    SendingSteps(s, id, op);
    hide Possible, After, Can, Do, SentState, Init;
    var s1 := Do(s, Act(id, op));
    var s2 := Do(s1, Store);
    var s3 := Do(s2, Start);
    var s4 := Do(s3, Store);
    OneStep(s4, Transmit, rest);
    OneStep(s3, Store, [Transmit] + rest);
    OneStep(s2, Start, [Store] + ([Transmit] + rest));
    OneStep(s1, Store, [Start] + ([Store] + ([Transmit] + rest)));
    assert SENDING + rest == [Store] + ([Start] + ([Store] + ([Transmit] + rest)));
    OneStep(s, Act(id, op), SENDING + rest);
  }

  lemma SendingSteps(s: Sys, id: Uid, op: Op)
    requires Init(s)
    ensures Can(s, Act(id, op)) && Can(Do(s, Act(id, op)), Store)
    ensures var s2 := Do(Do(s, Act(id, op)), Store);
      && Can(s2, Start) && Can(Do(s2, Start), Store) && Can(Do(Do(s2, Start), Store), Transmit)
      && Do(Do(Do(s2, Start), Store), Transmit) == SentState(s.now, id, op, 1)
  {
    hide Union, StateCalls, WithRewrites, WithState, Reloaded, WithoutEntry, Removed, RewriteEntries, WithOp;
    var s2 := Do(Do(s, Act(id, op)), Store);
    var s4 := Do(Do(s2, Start), Store);
    assert s4.disk == [MadeEntry(s.now, id, op).(started := true)];
  }

  lemma LosingRun(now: Time, id: Uid, op: Op, rest: seq<Step>)
    requires Possible(SentState(now, id, op, 2), rest)
    ensures Possible(SentState(now, id, op, 1), Losing(SentOp(id, op)) + rest)
    ensures After(SentState(now, id, op, 1), Losing(SentOp(id, op)) + rest) == After(SentState(now, id, op, 2), rest)
  {
    LosingSteps(now, id, op);
    hide Possible, After, Can, Do, SentState;
    var s5 := SentState(now, id, op, 1);
    var s6 := Do(s5, Arrive(SentOp(id, op)));
    var s7 := Do(s6, Lose);
    var s8 := Do(s7, Start);
    OneStep(s8, Transmit, rest);
    OneStep(s7, Start, [Transmit] + rest);
    OneStep(s6, Lose, [Start] + ([Transmit] + rest));
    OneStep(s5, Arrive(SentOp(id, op)), [Lose] + ([Start] + ([Transmit] + rest)));
    assert Losing(SentOp(id, op)) + rest == [Arrive(SentOp(id, op))] + ([Lose] + ([Start] + ([Transmit] + rest)));
  }

  lemma LosingSteps(now: Time, id: Uid, op: Op)
    ensures var s, arrive := SentState(now, id, op, 1), Arrive(SentOp(id, op));
      && Can(s, arrive) && Can(Do(s, arrive), Lose) && Can(Do(Do(s, arrive), Lose), Start)
      && Can(Do(Do(Do(s, arrive), Lose), Start), Transmit)
      && Do(Do(Do(Do(s, arrive), Lose), Start), Transmit) == SentState(now, id, op, 2)
  {
    assert SentState(now, id, op, 1).requests[0] == SentOp(id, op);
  }

  lemma NoStep(s: Sys)
    ensures Possible(s, []) && After(s, []) == s
  {
  }

  /** A request of an executed op arrives at `t`, when the server has pruned. */
  lemma LateArrives(s: Sys, sent: SentOp, t: Time)
    requires s.now <= t && sent in s.requests && sent.id in s.processed
    ensures Possible(s, Arriving(sent, t))
    ensures var u := After(s, Arriving(sent, t));
      && u.approved == s.approved && u.dropped == s.dropped
      && u.log == if t - s.processed[sent.id].at > HOLD then s.log + [sent.id] else s.log
  {
    var s1 := Do(s, Tick(t));
    var s2 := Do(s1, Prune);
    NoStep(Do(s2, Arrive(sent)));
    assert sent.id in s2.processed <==> t - s.processed[sent.id].at <= HOLD;
    hide Possible, After;
    OneStep(s2, Arrive(sent), []);
    OneStep(s1, Prune, [Arrive(sent)] + []);
    OneStep(s, Tick(t), [Prune] + ([Arrive(sent)] + []));
    assert Arriving(sent, t) == [Tick(t)] + ([Prune] + ([Arrive(sent)] + []));
  }

  /** The request of an op made and executed at `now` arrives at `t`. */
  lemma ArrivingRun(now: Time, id: Uid, op: Op, t: Time)
    requires now <= t
    ensures var s := SentState(now, id, op, 2);
      && Possible(s, Arriving(SentOp(id, op), t)) && After(s, Arriving(SentOp(id, op), t)).approved == {}
      && After(s, Arriving(SentOp(id, op), t)).log == if t - now > HOLD then [id, id] else [id]
  {
    assert SentState(now, id, op, 2).requests[0] == SentOp(id, op);
    hide Possible, After;
    LateArrives(SentState(now, id, op, 2), SentOp(id, op), t);
  }

  /**
    The bound is tight. In this run from the beginning the op is made and executed at one moment,
    the answer is lost, and the second request arrives at `t`, when the server has pruned: the op,
    not approved by anyone, runs twice if and only if that is more than the hold age later.
   */
  lemma LateRequestRunsTwice(s: Sys, id: Uid, op: Op, t: Time)
    requires Init(s) && s.now <= t
    ensures Possible(s, AnswerLost(id, op, Arriving(SentOp(id, op), t)))
    ensures After(s, AnswerLost(id, op, Arriving(SentOp(id, op), t))).approved == {}
    ensures After(s, AnswerLost(id, op, Arriving(SentOp(id, op), t))).log == if t - s.now > HOLD then [id, id] else [id]
  {
    ArrivingRun(s.now, id, op, t);
    LosingRun(s.now, id, op, Arriving(SentOp(id, op), t));
    SendingRun(s, id, op, Losing(SentOp(id, op)) + Arriving(SentOp(id, op), t));
    hide Possible, After, SentState, Arriving;
  }

  // A run in which an op is executed after a later one

  const DROPPING := [Lose, Start, Transmit, Fail, Store]

  /** The op went out twice and left the queue, executed or not; a request of it is still on its way. */
  function GoneState(now: Time, id: Uid, op: Op, ran: bool): Sys {
    Sys(now, map[id := now], Memory([], {}, 2, []), [], Idle, if ran then map[id := StoredOp(op, now)] else map[],
        if ran then [id] else [], [SentOp(id, op), SentOp(id, op)], false, {}, if ran then {} else {id})
  }

  /** After that the next op was made and went out. */
  function NextState(now: Time, id: Uid, op: Op, ran: bool, next: SentOp): Sys {
    var e := MadeEntry(now, next.id, next.op);
    GoneState(now, id, op, ran).(
      made := map[id := now, next.id := now], mem := Memory([e], {next.id}, 3, []), disk := [e.(started := true)],
      phase := Open(e), requests := [SentOp(id, op), SentOp(id, op), next])
  }

  /** Two requests went out and none arrived. */
  function OutState(now: Time, id: Uid, op: Op): Sys {
    SentState(now, id, op, 1).(requests := [SentOp(id, op), SentOp(id, op)])
  }

  lemma OutSteps(now: Time, id: Uid, op: Op)
    ensures var s := SentState(now, id, op, 1);
      && Can(s, Lose) && Can(Do(s, Lose), Start) && Can(Do(Do(s, Lose), Start), Transmit)
      && Do(Do(Do(s, Lose), Start), Transmit) == OutState(now, id, op)
  {
    hide WithoutEntry, Removed, Union, StateCalls, WithRewrites, WithState, Reloaded, RewriteEntries, WithOp;
    assert SentState(now, id, op, 1).requests == [SentOp(id, op)];
  }

  lemma DroppingSteps(now: Time, id: Uid, op: Op)
    ensures var s := OutState(now, id, op);
      Can(s, Fail) && Can(Do(s, Fail), Store) && Do(Do(s, Fail), Store) == GoneState(now, id, op, false)
  {
    var s := SentState(now, id, op, 1);
    OneLess(s.mem.entries[0], id);
    OneLess(s.disk[0], id);
    hide WithoutEntry, Union, StateCalls, WithRewrites, WithState, Reloaded, RewriteEntries, WithOp;
  }

  lemma DroppingRun(now: Time, id: Uid, op: Op, rest: seq<Step>)
    requires Possible(GoneState(now, id, op, false), rest)
    ensures Possible(SentState(now, id, op, 1), DROPPING + rest)
    ensures After(SentState(now, id, op, 1), DROPPING + rest) == After(GoneState(now, id, op, false), rest)
  {
    OutSteps(now, id, op);
    DroppingSteps(now, id, op);
    hide Possible, After, Can, Do, SentState, OutState, GoneState, DROPPING;
    var s := SentState(now, id, op, 1);
    var s1 := Do(s, Lose);
    var s2 := Do(s1, Start);
    var s3 := Do(s2, Transmit);
    OneStep(Do(s3, Fail), Store, rest);
    OneStep(s3, Fail, [Store] + rest);
    OneStep(s2, Transmit, [Fail] + ([Store] + rest));
    OneStep(s1, Start, [Transmit] + ([Fail] + ([Store] + rest)));
    OneStep(s, Lose, [Start] + ([Transmit] + ([Fail] + ([Store] + rest))));
    DroppingOneByOne(rest);
  }

  lemma DroppingOneByOne(rest: seq<Step>)
    ensures DROPPING + rest == [Lose] + ([Start] + ([Transmit] + ([Fail] + ([Store] + rest))))
  {
  }

  lemma OneLess(e: Entry, id: Uid)
    requires e.sent.id == id
    ensures WithoutEntry([e], id) == []
  {
  }

  lemma NextSteps(now: Time, id: Uid, op: Op, ran: bool, next: SentOp)
    requires id < next.id
    ensures var s := GoneState(now, id, op, ran);
      && Can(s, Act(next.id, next.op)) && Can(Do(s, Act(next.id, next.op)), Store)
      && var s2 := Do(Do(s, Act(next.id, next.op)), Store);
      && Can(s2, Start) && Can(Do(s2, Start), Store) && Can(Do(Do(s2, Start), Store), Transmit)
      && Do(Do(Do(s2, Start), Store), Transmit) == NextState(now, id, op, ran, next)
  {
    hide Union, StateCalls, WithRewrites, WithState, Reloaded, WithoutEntry, Removed, RewriteEntries, WithOp;
    var s2 := Do(Do(GoneState(now, id, op, ran), Act(next.id, next.op)), Store);
    var s4 := Do(Do(s2, Start), Store);
    assert s4.disk == [MadeEntry(now, next.id, next.op).(started := true)];
  }

  lemma NextRun(now: Time, id: Uid, op: Op, ran: bool, next: SentOp, rest: seq<Step>)
    requires id < next.id && Possible(NextState(now, id, op, ran, next), rest)
    ensures Possible(GoneState(now, id, op, ran), [Act(next.id, next.op)] + (SENDING + rest))
    ensures After(GoneState(now, id, op, ran), [Act(next.id, next.op)] + (SENDING + rest))
      == After(NextState(now, id, op, ran, next), rest)
  {
    NextSteps(now, id, op, ran, next);
    hide Possible, After, Can, Do, NextState, GoneState;
    var s := GoneState(now, id, op, ran);
    var s1 := Do(s, Act(next.id, next.op));
    var s2 := Do(s1, Store);
    var s3 := Do(s2, Start);
    var s4 := Do(s3, Store);
    OneStep(s4, Transmit, rest);
    OneStep(s3, Store, [Transmit] + rest);
    OneStep(s2, Start, [Store] + ([Transmit] + rest));
    OneStep(s1, Store, [Start] + ([Store] + ([Transmit] + rest)));
    assert SENDING + rest == [Store] + ([Start] + ([Store] + ([Transmit] + rest)));
    OneStep(s, Act(next.id, next.op), SENDING + rest);
  }

  lemma BothArrive(now: Time, id: Uid, op: Op, next: SentOp)
    requires id < next.id
    ensures var s := NextState(now, id, op, false, next);
      && Possible(s, [Arrive(next), Arrive(SentOp(id, op))])
      && After(s, [Arrive(next), Arrive(SentOp(id, op))]).log == [next.id, id]
  {
    var s := NextState(now, id, op, false, next);
    assert s.requests[0] == SentOp(id, op) && s.requests[2] == next;
    var s1 := Do(s, Arrive(next));
    NoStep(Do(s1, Arrive(SentOp(id, op))));
    hide Possible, After, Do;
    OneStep(s1, Arrive(SentOp(id, op)), []);
    OneStep(s, Arrive(next), [Arrive(SentOp(id, op))] + []);
    assert [Arrive(next), Arrive(SentOp(id, op))] == [Arrive(next)] + ([Arrive(SentOp(id, op))] + []);
  }

  function Straying(id: Uid, op: Op, next: SentOp): seq<Step> {
    DROPPING + ([Act(next.id, next.op)] + (SENDING + [Arrive(next), Arrive(SentOp(id, op))]))
  }

  /**
    Ops can be executed out of order: the page gives up on a request, the next one gets an HTTP
    error and the op is dropped, a later op is executed, and then the first request arrives.
   */
  lemma DroppedOpRunsLater(s: Sys, id: Uid, op: Op, next: SentOp)
    requires Init(s) && id < next.id
    ensures var steps := [Act(id, op)] + (SENDING + Straying(id, op, next));
      Possible(s, steps) && After(s, steps).log == [next.id, id]
  {
    BothArrive(s.now, id, op, next);
    NextRun(s.now, id, op, false, next, [Arrive(next), Arrive(SentOp(id, op))]);
    DroppingRun(s.now, id, op, [Act(next.id, next.op)] + (SENDING + [Arrive(next), Arrive(SentOp(id, op))]));
    SendingRun(s, id, op, Straying(id, op, next));
    hide Possible, After, SentState, GoneState, NextState;
  }

  // A run in which an op is executed again after a later one

  const ANSWERING := [Answer([], map[]), Store]

  lemma AnsweringRun(now: Time, id: Uid, op: Op, rest: seq<Step>)
    requires Possible(GoneState(now, id, op, true), rest)
    ensures Possible(SentState(now, id, op, 2), ANSWERING + rest)
    ensures After(SentState(now, id, op, 2), ANSWERING + rest) == After(GoneState(now, id, op, true), rest)
  {
    AnsweringSteps(now, id, op);
    hide Possible, After, Can, Do, SentState, GoneState;
    var s := SentState(now, id, op, 2);
    OneStep(Do(s, Answer([], map[])), Store, rest);
    OneStep(s, Answer([], map[]), [Store] + rest);
    assert ANSWERING + rest == [Answer([], map[])] + ([Store] + rest);
  }

  lemma AnsweringSteps(now: Time, id: Uid, op: Op)
    ensures var s := SentState(now, id, op, 2);
      && Can(s, Answer([], map[])) && Can(Do(s, Answer([], map[])), Store)
      && Do(Do(s, Answer([], map[])), Store) == GoneState(now, id, op, true)
  {
    var s := SentState(now, id, op, 2);
    OneLess(s.mem.entries[0], id);
    OneLess(s.disk[0], id);
    hide WithoutEntry, Union, StateCalls, WithState, Reloaded, RewriteEntries, WithOp;
    assert s.requests == [SentOp(id, op), SentOp(id, op)];
  }

  /** The next op arrives, and at `t`, when the server has pruned, the other request of the first. */
  function ArrivingLast(next: SentOp, sent: SentOp, t: Time): seq<Step> { [Arrive(next)] + Arriving(sent, t) }

  lemma LastArrives(now: Time, id: Uid, op: Op, next: SentOp, t: Time)
    requires id < next.id && now <= t
    ensures var s, last := NextState(now, id, op, true, next), ArrivingLast(next, SentOp(id, op), t);
      && Possible(s, last) && After(s, last).dropped == {}
      && After(s, last).log == if t - now > HOLD then [id, next.id, id] else [id, next.id]
  {
    var s := NextState(now, id, op, true, next);
    assert s.requests[0] == SentOp(id, op) && s.requests[2] == next;
    hide Possible, After;
    LateArrives(Do(s, Arrive(next)), SentOp(id, op), t);
    OneStep(s, Arrive(next), Arriving(SentOp(id, op), t));
  }

  function Repeating(id: Uid, op: Op, next: SentOp, t: Time): seq<Step> {
    ANSWERING + ([Act(next.id, next.op)] + (SENDING + ArrivingLast(next, SentOp(id, op), t)))
  }

  /**
    Without any HTTP error: an op goes out twice, is executed and answered, the next op is executed,
    and the other request arrives at `t`, when the server has pruned. It runs again, behind the later
    op, if and only if that is more than the hold age later.
   */
  lemma LateRequestRunsBehind(s: Sys, id: Uid, op: Op, next: SentOp, t: Time)
    requires Init(s) && id < next.id && s.now <= t
    ensures var steps := AnswerLost(id, op, Repeating(id, op, next, t));
      && Possible(s, steps) && After(s, steps).dropped == {}
      && After(s, steps).log == if t - s.now > HOLD then [id, next.id, id] else [id, next.id]
  {
    var last := ArrivingLast(next, SentOp(id, op), t);
    LastArrives(s.now, id, op, next, t);
    NextRun(s.now, id, op, true, next, last);
    AnsweringRun(s.now, id, op, [Act(next.id, next.op)] + (SENDING + last));
    LosingRun(s.now, id, op, Repeating(id, op, next, t));
    SendingRun(s, id, op, Losing(SentOp(id, op)) + Repeating(id, op, next, t));
    hide Possible, After, SentState, GoneState, NextState, ArrivingLast;
  }
}

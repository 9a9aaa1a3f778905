/**
  In which order, and how often, the server executes ops while requests are lost, repeated and
  late, the page crashes, and stored responses are pruned.
 */
module DeliveryOrder {
  import opened RoomModel
  import opened Rebase
  import opened WriteQueues
  import opened Delivery

  // Every request is accounted for

  /** The request of the first op in the queue, its start stored. */
  predicate HeadSent(m: Memory, r: SentOp) {
    m.entries != [] && m.entries[0].sent == r && r.id in m.started && StartedCall(r.id) !in m.chain
  }

  /** Its op was executed, or dropped before, or is still first in the queue; what is stored was executed. */
  ghost predicate Accounted(s: Sys) {
    && (forall r :: r in s.requests ==> r.id in s.log || r.id in s.dropped || HeadSent(s.mem, r))
    && (forall id :: id in s.processed ==> id in s.log)
  }

  /** The head stays where it is. */
  lemma StoreAccounted(s: Sys)
    requires Inv(s) && s.mem.chain != [] && Accounted(s)
    ensures Accounted(CallRun(s))
  {
    hide DiskOk, StartOk, ServerOk, WorldOk, Run;
    var rest := s.mem.(chain := s.mem.chain[1..]);
    assert forall r :: HeadSent(s.mem, r) ==> HeadSent(rest, r);
    if s.mem.chain[0].ReadCall? && s.phase.Reading? && s.phase.asked == s.mem.version {
      assert |s.mem.chain| == 1 && s.mem.chain == [ReadCall];
      if s.mem.entries != [] { ReadHead(s.disk, s.mem, WorldOf(s)); }
      RunRead(s.disk);
    }
    hide PhaseOk;
  }

  lemma RunRead(disk: seq<Entry>)
    ensures Run(disk, ReadCall) == disk
  {
  }

  lemma ReadHead(disk: seq<Entry>, m: Memory, w: World)
    requires DiskOk(disk, m, w) && StartOk(disk, m) && m.chain == [ReadCall] && m.entries != []
    ensures disk != [] && disk[0].sent == m.entries[0].sent
  {
    ReadFindsMemory(disk, m, w);
    hide DiskOk, StartOk;
    assert |Plain(disk)| == |Plain(m.entries)| && Plain(disk)[0].sent == Plain(m.entries)[0].sent;
  }

  lemma CrashAccounted(s: Sys)
    requires Inv(s) && Accounted(s)
    ensures Accounted(Do(s, Crash))
  {
    hide DiskOk, StartOk, PhaseOk, ServerOk, WorldOk;
    forall r | r in s.requests && HeadSent(s.mem, r) ensures HeadSent(Reloaded(s.disk), r) {
      HeadStored(s, r);
    }
  }

  /** The head's start is stored, so it is first in the storage too. */
  lemma HeadStored(s: Sys, r: SentOp)
    requires Inv(s) && HeadSent(s.mem, r)
    ensures HeadOn(s.disk, r)
  {
    hide DiskOk, StartOk, PhaseOk, ServerOk, WorldOk;
    HeadEverywhere(s.disk, s.mem, r);
    assert HeadOn(At(s.disk, s.mem.chain, 0), r);
  }

  lemma AnswerAccounted(s: Sys, order: seq<Uid>, rewritten: map<Uid, Op>)
    requires Inv(s) && Accounted(s) && Can(s, Answer(order, rewritten))
    ensures Accounted(Do(s, Answer(order, rewritten)))
  {
    hide DiskOk, StartOk, PhaseOk, ServerOk, WorldOk, Removed, WithRewrites;
    OpenHead(s.mem, s.phase.e, WorldOf(s));
  }

  lemma FailAccounted(s: Sys)
    requires Inv(s) && Accounted(s) && s.phase.Open?
    ensures Accounted(Failed(s, s.phase.e.sent.id))
  {
    hide DiskOk, StartOk, PhaseOk, ServerOk, WorldOk, Removed;
    OpenHead(s.mem, s.phase.e, WorldOf(s));
  }

  lemma SetAccounted(s: Sys, ids: set<Uid>, state: EntryState, parts: seq<set<Uid>>)
    requires Accounted(s) && ids == Union(parts)
    ensures Accounted(Do(s, SetStates(ids, state, parts)))
  {
    hide Union;
  }

  lemma QueueAccounted(s: Sys, step: Step)
    requires Inv(s) && Accounted(s) && Can(s, step) && (step.Act? || step.Read? || step.Start? || step.Transmit?)
    ensures Accounted(Do(s, step))
  {
    hide DiskOk, StartOk, PhaseOk, ServerOk, WorldOk, Classify;
    if step.Transmit? { MarkedHead(s.mem, s.phase, WorldOf(s)); }
  }

  lemma StepAccounted(s: Sys, step: Step)
    requires Inv(s) && Accounted(s) && Can(s, step)
    ensures Accounted(Do(s, step))
  {
    hide Inv, Queued, Starting, Removed, WithRewrites, Reloaded, WithState, StateCalls, Union, Classify, HeadSent,
      CallRun;
    match step
    case Store => StoreAccounted(s);
    case Crash => CrashAccounted(s);
    case Answer(order, rewritten) => AnswerAccounted(s, order, rewritten);
    case Fail => FailAccounted(s);
    case SetStates(ids, state, parts) => SetAccounted(s, ids, state, parts);
    case Act(_, _) => QueueAccounted(s, step);
    case Read => QueueAccounted(s, step);
    case Start => QueueAccounted(s, step);
    case Transmit => QueueAccounted(s, step);
    case _ =>
  }

  // Why an op is executed after a later one

  predicate LaterRan(log: seq<Uid>, id: Uid) { exists x | x in log :: x > id }

  /** A request without stored response arrives when a later op was executed. */
  ghost predicate Overtaken(s: Sys, step: Step)
    requires Can(s, step)
  {
    step.Arrive? && step.sent.id !in s.processed && LaterRan(s.log, step.sent.id)
  }

  /** A request of an executed op arrives after its stored response was pruned. */
  ghost predicate Forgotten(s: Sys, step: Step, id: Uid)
    requires Can(s, step)
  {
    step.Arrive? && step.sent.id == id && id in s.log && id !in s.processed
  }

  /** A request arrives whose op an HTTP error took from the queue, and which never was executed. */
  ghost predicate Dropped(s: Sys, step: Step)
    requires Can(s, step)
  {
    step.Arrive? && step.sent.id in s.dropped && step.sent.id !in s.log
  }

  /** One of the two happens after a later op was executed. */
  ghost predicate Late(s: Sys, step: Step)
    requires Can(s, step)
  {
    step.Arrive? && (Dropped(s, step) || Forgotten(s, step, step.sent.id)) && LaterRan(s.log, step.sent.id)
  }

  /** The page's first op is not behind any that was executed. */
  lemma HeadIsLatest(s: Sys, r: SentOp)
    requires Inv(s) && HeadSent(s.mem, r)
    ensures !LaterRan(s.log, r.id)
  {
    HeadStored(s, r);
    hide DiskOk, StartOk, PhaseOk, WorldOk, HeadSent;
    FirstDisk(s.disk, s.mem, WorldOf(s));
    forall x | x in s.log ensures x <= r.id {
      var i :| 0 <= i < |s.log| && s.log[i] == x;
      assert Executed(s, s.log[i]);
      var q :| q in s.requests && q.id == s.log[i];
      assert q.id <= s.disk[0].sent.id;
    }
  }

  /** The causes: only a dropped op, or one whose response was pruned, can be overtaken. */
  lemma OvertakenIff(s: Sys, step: Step)
    requires Inv(s) && Accounted(s) && Can(s, step)
    ensures Overtaken(s, step) <==> Late(s, step)
  {
    hide Inv, LaterRan;
    if step.Arrive? && HeadSent(s.mem, step.sent) { HeadIsLatest(s, step.sent); }
    hide HeadSent;
  }

  // What the log says

  /** An op behind a later one was dropped before it ran, or had run before. */
  ghost predicate OrderOk(log: seq<Uid>, dropped: set<Uid>) {
    forall i, j :: 0 <= i < j < |log| && log[i] > log[j] ==> log[j] in dropped || log[j] in log[..j]
  }

  /** An op that ran twice is older than the hold age. */
  ghost predicate RepeatsOld(log: seq<Uid>, made: map<Uid, Time>, now: Time) {
    forall i, j :: 0 <= i < j < |log| && log[i] == log[j] ==> log[j] in made && now - made[log[j]] > HOLD
  }

  lemma OrderSnoc(log: seq<Uid>, dropped: set<Uid>, x: Uid)
    requires OrderOk(log, dropped) && (LaterRan(log, x) ==> x in dropped || x in log)
    ensures OrderOk(log + [x], dropped)
  {
    var more := log + [x];
    forall i, j | 0 <= i < j < |more| && more[i] > more[j] ensures more[j] in dropped || more[j] in more[..j] {
      assert more[..j] == log[..j];
      if j == |log| {
        assert log[..j] == log && log[i] in log;
      } else {
        assert log[i] > log[j];
      }
    }
  }

  lemma RepeatsSnoc(log: seq<Uid>, made: map<Uid, Time>, now: Time, x: Uid)
    requires RepeatsOld(log, made, now) && (x in log ==> x in made && now - made[x] > HOLD)
    ensures RepeatsOld(log + [x], made, now)
  {
    var more := log + [x];
    forall i, j | 0 <= i < j < |more| && more[i] == more[j] ensures more[j] in made && now - made[more[j]] > HOLD {
      assert log[i] in log;
      if j < |log| { assert log[i] == log[j]; }
    }
  }

  ghost predicate LogOk(s: Sys) { OrderOk(s.log, s.dropped) && RepeatsOld(s.log, s.made, s.now) }

  lemma ArriveLog(s: Sys, sent: SentOp)
    requires Inv(s) && Accounted(s) && LogOk(s) && sent in s.requests
    ensures LogOk(Arrived(s, sent))
  {
    hide OrderOk, RepeatsOld, Accounted, DiskOk, StartOk, PhaseOk, WorldOk, LaterRan;
    if sent.id !in s.processed {
      OvertakenIff(s, Arrive(sent));
      OrderSnoc(s.log, s.dropped, sent.id);
      if sent.id in s.log {
        var i :| 0 <= i < |s.log| && s.log[i] == sent.id;
        assert Executed(s, s.log[i]);
      }
      RepeatsSnoc(s.log, s.made, s.now, sent.id);
    }
  }

  lemma StepLog(s: Sys, step: Step)
    requires Inv(s) && Accounted(s) && LogOk(s) && Can(s, step)
    ensures LogOk(Do(s, step))
  {
    hide Queued, Starting, Removed, WithRewrites, Reloaded, WithState, StateCalls, Union, Classify, Accounted, DiskOk,
      StartOk, PhaseOk, WorldOk, AfterRead;
    if step.Arrive? {
      hide LogOk;
      ArriveLog(s, step.sent);
    } else {
      forall j | 0 <= j < |s.log| ensures s.log[j] in s.made { assert Executed(s, s.log[j]); }
    }
  }

  ghost predicate Kept(s: Sys) { Inv(s) && Accounted(s) && LogOk(s) }

  lemma InitKept(s: Sys)
    requires Init(s)
    ensures Kept(s)
  {
    InitInv(s);
    hide Inv;
  }

  lemma StepKept(s: Sys, step: Step)
    requires Kept(s) && Can(s, step)
    ensures Kept(Do(s, step))
  {
    hide Inv, Accounted, LogOk, Can, Do;
    StepKeeps(s, step);
    StepAccounted(s, step);
    StepLog(s, step);
  }

  lemma {:induction false} RunKept(s: Sys, steps: seq<Step>)
    requires Kept(s) && Possible(s, steps)
    ensures Kept(After(s, steps))
    decreases |steps|
  {
    hide Kept, Can, Do;
    if steps != [] {
      StepKept(s, steps[0]);
      RunKept(Do(s, steps[0]), steps[1..]);
    }
  }

  /**
    Exactly once, in order. In every run with late storage calls, crashes, lost, repeated and late
    requests, and pruning: every request of an op_id has one body, so the server never sees an op_id
    used again for another op; an op executed after a later one was dropped before it ran or had run
    before; and an op that ran twice was made more than the hold age ago.
   */
  lemma ExactlyOnceInOrder(s: Sys, steps: seq<Step>)
    requires Init(s) && Possible(s, steps)
    ensures var t := After(s, steps);
      && !t.reused && (forall r, q :: r in t.requests && q in t.requests && r.id == q.id ==> r == q)
      && (forall i, j :: 0 <= i < j < |t.log| && t.log[i] > t.log[j] ==>
            t.log[j] in t.dropped || t.log[j] in t.log[..j])
      && (forall i, j :: 0 <= i < j < |t.log| && t.log[i] == t.log[j] ==>
            t.log[j] in t.made && t.now - t.made[t.log[j]] > HOLD)
  {
    hide Possible, After, Init, DiskOk, StartOk, PhaseOk, WorldOk, Accounted;
    InitKept(s);
    RunKept(s, steps);
  }

  predicate Twice(log: seq<Uid>, id: Uid) { exists i, j :: 0 <= i < j < |log| && log[i] == id && log[j] == id }

  /**
    Late, repeated and lost requests and crashes do no harm to the order: unless an op was dropped
    before it ran, and while each is executed at most once, ops are executed in the order made.
   */
  lemma InOrder(s: Sys, steps: seq<Step>)
    requires Init(s) && Possible(s, steps) && After(s, steps).dropped == {}
    requires forall id :: !Twice(After(s, steps).log, id)
    ensures var log := After(s, steps).log; forall i, j :: 0 <= i < j < |log| ==> log[i] < log[j]
  {
    hide Possible, After, Init;
    ExactlyOnceInOrder(s, steps);
    var log := After(s, steps).log;
    forall i, j | 0 <= i < j < |log| ensures log[i] < log[j] {
      assert log[..j][i] == log[i];
      RanBefore(log, j);
    }
  }

  lemma RanBefore(log: seq<Uid>, j: nat)
    requires j < |log|
    ensures log[j] in log[..j] ==> Twice(log, log[j])
  {
    if log[j] in log[..j] {
      var k :| 0 <= k < j && log[..j][k] == log[j];
      assert log[k] == log[j];
    }
  }

  /** While the page waits for an answer, no later op was executed, whatever was pruned. */
  lemma OpenIsLatest(s: Sys, steps: seq<Step>)
    requires Init(s) && Possible(s, steps) && After(s, steps).phase.Open?
    ensures forall x :: x in After(s, steps).log ==> x <= After(s, steps).phase.e.sent.id
  {
    hide Possible, After, Init, DiskOk, StartOk, PhaseOk, ServerOk, WorldOk;
    InitInv(s);
    RunKeeps(s, steps);
    var t := After(s, steps);
    OpenHead(t.mem, t.phase.e, WorldOf(t));
    HeadIsLatest(t, t.phase.e.sent);
  }

  // Exactly when

  predicate Ordered(log: seq<Uid>) { forall i, j :: 0 <= i < j < |log| ==> log[i] <= log[j] }

  /** Some step of the run is such an arrival. */
  ghost predicate EverLate(s: Sys, steps: seq<Step>)
    requires Possible(s, steps)
    decreases |steps|
  {
    steps != [] && (Late(s, steps[0]) || EverLate(Do(s, steps[0]), steps[1..]))
  }

  lemma OrderedSnoc(log: seq<Uid>, x: Uid)
    ensures Ordered(log + [x]) <==> Ordered(log) && forall y :: y in log ==> y <= x
  {
    var more := log + [x];
    if Ordered(more) {
      forall i, j | 0 <= i < j < |log| ensures log[i] <= log[j] { assert more[i] <= more[j]; }
      forall y | y in log ensures y <= x {
        var i :| 0 <= i < |log| && log[i] == y;
        assert more[i] <= more[|log|];
      }
    }
    if Ordered(log) && forall y :: y in log ==> y <= x {
      forall i, j | 0 <= i < j < |more| ensures more[i] <= more[j] { assert log[i] in log && more[i] == log[i]; }
    }
  }

  lemma StepOrdered(s: Sys, step: Step)
    requires Kept(s) && Can(s, step)
    ensures Ordered(Do(s, step).log) <==> Ordered(s.log) && !Late(s, step)
  {
    hide Ordered, Inv, Accounted, LogOk;
    OvertakenIff(s, step);
    hide Dropped, Forgotten;
    if step.Arrive? { OrderedSnoc(s.log, step.sent.id); }
  }

  lemma {:induction false} RunOrdered(s: Sys, steps: seq<Step>)
    requires Kept(s) && Possible(s, steps)
    ensures Ordered(After(s, steps).log) <==> Ordered(s.log) && !EverLate(s, steps)
    decreases |steps|
  {
    hide Ordered, Late, Can, Do, Kept;
    if steps != [] {
      StepKept(s, steps[0]);
      StepOrdered(s, steps[0]);
      RunOrdered(Do(s, steps[0]), steps[1..]);
    }
  }

  /**
    The order fails if and only if a request arrives, after a later op was executed, whose op was
    dropped and never executed, or executed and its response pruned.
   */
  lemma WhenOutOfOrder(s: Sys, steps: seq<Step>)
    requires Init(s) && Possible(s, steps)
    ensures !Ordered(After(s, steps).log) <==> EverLate(s, steps)
  {
    hide Possible, After, Kept, EverLate;
    InitKept(s);
    RunOrdered(s, steps);
  }

  /** Some step of the run is the arrival of a forgotten op. */
  ghost predicate EverForgotten(s: Sys, steps: seq<Step>, id: Uid)
    requires Possible(s, steps)
    decreases |steps|
  {
    steps != [] && (Forgotten(s, steps[0], id) || EverForgotten(Do(s, steps[0]), steps[1..], id))
  }

  lemma TwiceSnoc(log: seq<Uid>, x: Uid, id: Uid)
    ensures Twice(log + [x], id) <==> Twice(log, id) || (x == id && id in log)
  {
    var more := log + [x];
    if i, j :| 0 <= i < j < |log| && log[i] == id && log[j] == id {
      assert more[i] == id && more[j] == id;
    }
    if x == id && id in log {
      var i :| 0 <= i < |log| && log[i] == id;
      assert more[i] == id && more[|log|] == id;
    }
    if i, j :| 0 <= i < j < |more| && more[i] == id && more[j] == id {
      assert log[i] == id && (j < |log| ==> log[j] == id);
    }
  }

  lemma StepTwice(s: Sys, step: Step, id: Uid)
    requires Can(s, step)
    ensures Twice(Do(s, step).log, id) <==> Twice(s.log, id) || Forgotten(s, step, id)
  {
    hide Twice;
    if step.Arrive? { TwiceSnoc(s.log, step.sent.id, id); }
  }

  lemma {:induction false} RunTwice(s: Sys, steps: seq<Step>, id: Uid)
    requires Possible(s, steps)
    ensures Twice(After(s, steps).log, id) <==> Twice(s.log, id) || EverForgotten(s, steps, id)
    decreases |steps|
  {
    hide Twice, Forgotten, Can, Do;
    if steps != [] {
      StepTwice(s, steps[0], id);
      RunTwice(Do(s, steps[0]), steps[1..], id);
    }
  }

  lemma NoneTwice(id: Uid)
    ensures !Twice([], id)
  {
  }

  /** An op runs twice if and only if a request of it arrives after its stored response was pruned. */
  lemma WhenTwice(s: Sys, steps: seq<Step>, id: Uid)
    requires Init(s) && Possible(s, steps)
    ensures Twice(After(s, steps).log, id) <==> EverForgotten(s, steps, id)
  {
    hide Possible, After, Twice, EverForgotten;
    RunTwice(s, steps, id);
    NoneTwice(id);
  }

  // In time

  /** Every request of the run arrives in time. */
  ghost predicate AllInTime(s: Sys, steps: seq<Step>)
    requires Possible(s, steps)
    decreases |steps|
  {
    steps == [] || ((steps[0].Arrive? ==> InTime(s, steps[0].sent)) && AllInTime(Do(s, steps[0]), steps[1..]))
  }

  /** Pruned and in time means approved by hand. */
  lemma ForgottenIsApproved(s: Sys, step: Step, id: Uid)
    requires Inv(s) && Can(s, step) && Forgotten(s, step, id) && (step.Arrive? ==> InTime(s, step.sent))
    ensures id in s.approved
  {
    hide DiskOk, StartOk, PhaseOk, WorldOk;
    assert Executed(s, id);
  }

  lemma StaysApproved(s: Sys, step: Step)
    requires Can(s, step)
    ensures s.approved <= Do(s, step).approved
  {
  }

  /** The run from `s` on ends with at least the approvals of `s`, and with those of what it ran twice in time. */
  lemma {:induction false} InTimeApproved(s: Sys, steps: seq<Step>, id: Uid)
    requires Inv(s) && Possible(s, steps) && AllInTime(s, steps)
    ensures id in s.approved || EverForgotten(s, steps, id) ==> id in After(s, steps).approved
    decreases |steps|
  {
    hide Inv, Can, Do, Forgotten, InTime;
    if steps != [] {
      StepKeeps(s, steps[0]);
      StaysApproved(s, steps[0]);
      if Forgotten(s, steps[0], id) { ForgottenIsApproved(s, steps[0], id); }
      InTimeApproved(Do(s, steps[0]), steps[1..], id);
    }
  }

  /** While requests arrive within the hold age of their op, only an op the user sent by hand can run twice. */
  lemma InTimeRunsOnce(s: Sys, steps: seq<Step>, id: Uid)
    requires Init(s) && Possible(s, steps) && AllInTime(s, steps) && id !in After(s, steps).approved
    ensures !Twice(After(s, steps).log, id)
  {
    hide Possible, After, Inv, Twice, EverForgotten, AllInTime;
    InitInv(s);
    RunTwice(s, steps, id);
    NoneTwice(id);
    InTimeApproved(s, steps, id);
  }
}

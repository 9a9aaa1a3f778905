/**
  Runs of the page and the server in which a stronger claim fails: a queue that conflicts with
  itself, and an uncertain op shown over a newer value.
 */
module Counterexamples {
  import opened RoomModel
  import T = Texts
  import opened Tracking
  import opened Operations
  import opened RoomRules
  import opened ChangesFeed
  import opened Overlay
  import opened Simulation
  import opened Rebase
  import opened RoomStores
  import opened Sync
  import N = NoSelfConflict
  import S = SequentialServer
  import Runs = OverlayRuns

  lemma OneStep(s: Sys, step: Step, rest: seq<Step>)
    requires Shaped(s) && Can(s, step) && Possible(Do(s, step), rest)
    ensures Possible(s, [step] + rest) && AfterSteps(s, [step] + rest) == AfterSteps(Do(s, step), rest)
  {
    hide Can, Do;
    assert ([step] + rest)[1..] == rest;
  }

  lemma NoStep(s: Sys)
    ensures Possible(s, []) && AfterSteps(s, []) == s
  {
  }

  // A queue that conflicts with itself

  function Entries(ops: seq<Op>, at: Time): seq<QueueEntry> {
    seq(|ops|, i requires 0 <= i < |ops| => QueueEntry(SentOp(i, ops[i]), at, false))
  }

  /** The page just made the ops, with the IDs 0, 1, 2 and so on. */
  function Made(db: Db, ops: seq<Op>, at: Time): Sys {
    Sys([db], [], map[], Entries(ops, at), {}, Store(ViewOf(db), db.changeSeq, N.QueueOf(ops, at), [], None), Idle, {})
  }

  lemma MadeMore(db: Db, ops: seq<Op>, op: Op, at: Time)
    requires WellFormed(op) && IsProjected(op)
    ensures var s := Made(db, ops, at);
      Shaped(s) && Can(s, Act(SentOp(|ops|, op), at)) && Do(s, Act(SentOp(|ops|, op), at)) == Made(db, ops + [op], at)
  {
    hide ViewOf, WellFormed, IsProjected;
    var s := Made(db, ops, at);
    assert Fresh(s, |ops|);
    assert !Waits(s.store.pending, |ops|);
    assert Entries(ops + [op], at) == Entries(ops, at) + [QueueEntry(SentOp(|ops|, op), at, false)];
    assert N.QueueOf(ops + [op], at) == N.QueueOf(ops, at) + [PendingOp(SentOp(|ops|, op), at, None, false)];
  }

  /** The head's request is on its way. */
  function Sending(s: Sys): Sys
    requires s.queue != []
  {
    SendStarted(s).(net := s.net + {s.queue[0].sent})
  }

  lemma SendHead(s: Sys, rest: seq<Step>)
    requires Shaped(s) && s.queue != [] && s.store.sending.None? && Possible(Sending(s), rest)
    ensures Possible(s, [StartSend] + ([Transmit] + rest))
    ensures AfterSteps(s, [StartSend] + ([Transmit] + rest)) == AfterSteps(Sending(s), rest)
  {
    assert Do(Do(s, StartSend), Transmit) == Sending(s);
    hide Possible, AfterSteps;
    OneStep(Do(s, StartSend), Transmit, rest);
    OneStep(s, StartSend, [Transmit] + rest);
  }

  /**
    The queue begins with a delta and an edit of one row, the page hides the row, the edit expects
    the version the server has, and no op behind has a base.
   */
  ghost predicate StaleReady(s: Sys, l: Uid, u: Uid, name: string, env: Env) {
    && Shaped(s) && s.store.sending.None? && s.store.roomSeq <= Now(s).changeSeq && EnvOk(Now(s), env)
    && N.Renamable(Now(s), l, u, name) && u !in Shown(s.store).items
    && |s.queue| >= 2 && s.queue[0].sent.op == N.PlusOne(l, u)
    && s.queue[1].sent.op == N.Renaming(l, u, name, Now(s).items[u].changedSeq)
    && s.queue[0].sent.id != s.queue[1].sent.id
    && (forall i :: 0 <= i < |s.queue| ==> s.queue[i].sent.id !in s.done && !s.queue[i].tried)
    && (forall i :: 2 <= i < |s.queue| ==> BaseOf(s.queue[i].sent.op).None?)
  }

  /** The delta was executed and its answer is under way. */
  ghost function DeltaDone(s: Sys, env: Env): Sys
    requires s.queue != [] && s.dbs != []
  {
    Delivered(Sending(s), s.queue[0].sent, env)
  }

  /** The answer came; the row is hidden, so nothing is rewritten. */
  ghost function DeltaAnswered(s: Sys, env: Env): Sys
    requires s.queue != [] && s.dbs != []
  {
    var out := Handle(Now(s), s.queue[0].sent.op, env);
    var t := DeltaDone(s, env);
    if t.queue == [] then t else HeadAnswered(t, Response(out.answer, out.db.changeSeq), map[])
  }

  lemma DeltaStep(s: Sys, l: Uid, u: Uid, name: string, env: Env)
    requires StaleReady(s, l, u, name, env)
    ensures var t, sent := Sending(s), s.queue[0].sent;
      Shaped(t) && Can(t, Deliver(sent, env)) && Do(t, Deliver(sent, env)) == DeltaDone(s, env)
  {
    hide Handle, ViewOf, N.Renaming, Storable, Answers, Run, RunAllowed, Plans, Fresh, Silent, AfterFeed, Ruled,
      EnvOk, Shown, Shaped;
    SendingShaped(s);
  }

  lemma SendingShaped(s: Sys)
    requires Shaped(s) && s.queue != []
    ensures s.dbs != [] && Shaped(Sending(s)) && Now(Sending(s)) == Now(s)
  {
  }

  lemma DeltaState(s: Sys, l: Uid, u: Uid, name: string, env: Env)
    requires StaleReady(s, l, u, name, env)
    ensures var t, out, q := DeltaDone(s, env), Handle(Now(s), N.PlusOne(l, u), env), s.queue[0];
      && t.dbs == s.dbs + [out.db] && out.db.changeSeq > s.store.roomSeq && out.answer.Applied?
      && t.log == s.log + [Own(Execution(q.sent, env, Response(out.answer, out.db.changeSeq)))]
      && t.done == s.done[q.sent.id := |s.log|] && t.queue == s.queue[0 := q.(tried := true)]
      && t.store == s.store.(sending := Some(q.sent.id)) && Shaped(t)
  {
    hide Handle, ViewOf, N.Renaming, Rewritten, Shown, EnvOk;
    N.StaleEdit(Now(s), l, u, env, name, View("", map[], map[]));
    SendingShaped(s);
  }

  lemma NothingToRewrite(t: Sys, answer: Answer)
    requires t.queue != []
    requires forall i :: 1 <= i < |t.queue| ==>
      Rewritten(t.queue[i].sent.op, t.queue[0].sent.op, answer, Shown(t.store)) == t.queue[i].sent.op
    ensures Plans(t, map[], answer)
  {
    hide Rewritten, Shown;
  }

  lemma NoBaseStays(op: Op, l: Uid, u: Uid, answer: Answer, known: View)
    requires BaseOf(op).None?
    ensures Rewritten(op, N.PlusOne(l, u), answer, known) == op
  {
  }

  lemma NoneRewritten(s: Sys, l: Uid, u: Uid, name: string, env: Env, answer: Answer)
    requires StaleReady(s, l, u, name, env) && answer == Handle(Now(s), N.PlusOne(l, u), env).answer
    ensures forall i :: 1 <= i < |s.queue| ==>
      Rewritten(s.queue[i].sent.op, N.PlusOne(l, u), answer, Shown(s.store)) == s.queue[i].sent.op
  {
    N.StaleEdit(Now(s), l, u, env, name, Shown(s.store));
    hide Handle, Rewritten, Shown, N.Renamable, N.Renaming, N.PlusOne, EnvOk, Shaped;
    forall i | 2 <= i < |s.queue|
      ensures Rewritten(s.queue[i].sent.op, N.PlusOne(l, u), answer, Shown(s.store)) == s.queue[i].sent.op
    {
      NoBaseStays(s.queue[i].sent.op, l, u, answer, Shown(s.store));
    }
  }

  lemma SameShown(a: Store, b: Store)
    requires b == a.(sending := b.sending)
    ensures Shown(b) == Shown(a)
  {
    hide ProjectAll, ShowAnswers;
  }

  lemma AnswerPlanned(s: Sys, l: Uid, u: Uid, name: string, env: Env)
    requires StaleReady(s, l, u, name, env)
    ensures var t := DeltaDone(s, env);
      t.queue != [] && Plans(t, map[], Handle(Now(s), N.PlusOne(l, u), env).answer)
  {
    SendingShaped(s);
    hide Handle, ViewOf, Shown, DeltaDone, N.Renaming, N.Renamable, N.PlusOne, Rewritten, Plans, EnvOk, Shaped;
    var answer, t := Handle(Now(s), N.PlusOne(l, u), env).answer, DeltaDone(s, env);
    NoneRewritten(s, l, u, name, env, answer);
    DeltaState(s, l, u, name, env);
    SameShown(s.store, t.store);
    NothingToRewrite(t, answer);
  }

  lemma AnswerStep(s: Sys, l: Uid, u: Uid, name: string, env: Env)
    requires StaleReady(s, l, u, name, env)
    ensures var t := DeltaDone(s, env);
      Shaped(t) && Can(t, Answer(map[])) && Do(t, Answer(map[])) == DeltaAnswered(s, env)
  {
    hide Handle, ViewOf, ProjectAll, DeltaDone, N.Renaming, Rewritten, Shown, Plans, HeadAnswered, Storable, Answers,
      Run, RunAllowed, EnvOk, Ruled, Shaped;
    DeltaState(s, l, u, name, env);
    AnswerPlanned(s, l, u, name, env);
  }

  lemma AnsweredState(s: Sys, l: Uid, u: Uid, name: string, env: Env)
    requires StaleReady(s, l, u, name, env)
    ensures var t := DeltaAnswered(s, env);
      && t.dbs == s.dbs + [Handle(Now(s), N.PlusOne(l, u), env).db] && |t.log| == |s.log| + 1
      && t.done == s.done[s.queue[0].sent.id := |s.log|]
      && t.queue == s.queue[1..] && t.store.sending.None? && Shaped(t)
  {
    hide DeltaDone, ViewOf, ProjectAll, Handle, Shown, N.Renaming, Rewritten, EnvOk;
    DeltaState(s, l, u, name, env);
    var t := DeltaDone(s, env);
    assert RewriteQueue(t.queue[1..], map[]) == s.queue[1..];
  }

  lemma SameSurroundings(db: Db, l: Uid, u: Uid, name: string, env: Env)
    requires N.Renamable(db, l, u, name) && EnvOk(db, env)
    ensures EnvOk(Handle(db, N.PlusOne(l, u), env).db, env)
  {
    hide Handle, Rewritten;
    N.StaleEdit(db, l, u, env, name, View(db.name, map[], map[]));
  }

  /** The edit is sent, and the server refuses it. */
  lemma EditStep(s: Sys, l: Uid, u: Uid, name: string, env: Env)
    requires StaleReady(s, l, u, name, env)
    ensures var t := DeltaAnswered(s, env);
      && t.queue != [] && Shaped(t) && t.store.sending.None?
      && var s', edit := Sending(t), s.queue[1].sent;
      Shaped(s') && Can(s', Deliver(edit, env)) && !N.NoConflict(Do(s', Deliver(edit, env)).log, {u})
  {
    hide Handle, ViewOf, Storable, Answers, Run, RunAllowed, Plans, Fresh, Silent, AfterFeed, Ruled, EnvOk, Shown,
      DeltaAnswered, Rewritten, Shaped;
    AnsweredState(s, l, u, name, env);
    SendingShaped(s);
    N.StaleEdit(Now(s), l, u, env, name, View("", map[], map[]));
    SameSurroundings(Now(s), l, u, name, env);
    var t, edit := Sending(DeltaAnswered(s, env)), s.queue[1].sent;
    SendingShaped(DeltaAnswered(s, env));
    var log := Do(t, Deliver(edit, env)).log;
    assert N.Conflicted(log[|log| - 1], {u});
  }

  function StaleRun(s: Sys, env: Env): seq<Step>
    requires |s.queue| >= 2
  {
    [StartSend] + ([Transmit] + ([Deliver(s.queue[0].sent, env)] + ([Answer(map[])]
    + ([StartSend] + ([Transmit] + ([Deliver(s.queue[1].sent, env)] + []))))))
  }

  /** From every such state the edit is refused, with nobody else doing anything and every request answered. */
  lemma StaleQueueConflicts(s: Sys, l: Uid, u: Uid, name: string, env: Env)
    requires StaleReady(s, l, u, name, env)
    ensures Possible(s, StaleRun(s, env)) && !N.NoConflict(AfterSteps(s, StaleRun(s, env)).log, {u})
  {
    DeltaStep(s, l, u, name, env);
    AnswerStep(s, l, u, name, env);
    EditStep(s, l, u, name, env);
    assert Shaped(s) && s.store.sending.None?;
    hide Possible, AfterSteps, Can, Do, Shaped, N.NoConflict, DeltaDone, DeltaAnswered, Sending, StaleReady;
    var answered, edit := DeltaAnswered(s, env), Deliver(s.queue[1].sent, env);
    NoStep(Do(Sending(answered), edit));
    OneStep(Sending(answered), edit, []);
    SendHead(answered, [edit] + []);
    var tail := [StartSend] + ([Transmit] + ([edit] + []));
    OneStep(DeltaDone(s, env), Answer(map[]), tail);
    var rest := [Deliver(s.queue[0].sent, env)] + ([Answer(map[])] + tail);
    OneStep(Sending(s), Deliver(s.queue[0].sent, env), [Answer(map[])] + tail);
    SendHead(s, rest);
  }

  /** Quantity + 1, edit and delete of one row. */
  function ThreeOps(db: Db, l: Uid, u: Uid, name: string): seq<Op>
    requires u in db.items
  {
    [N.PlusOne(l, u), N.Renaming(l, u, name, db.items[u].changedSeq), ItemDelete(l, u)]
  }

  function ConflictRun(db: Db, l: Uid, u: Uid, name: string, env: Env): seq<Step>
    requires u in db.items
  {
    var ops := ThreeOps(db, l, u, name);
    [Act(SentOp(0, ops[0]), env.now)] + ([Act(SentOp(1, ops[1]), env.now)] + ([Act(SentOp(2, ops[2]), env.now)]
    + StaleRun(Made(db, ops, env.now), env)))
  }

  lemma MadeQueue(db: Db, ops: seq<Op>, at: Time)
    ensures |Made(db, ops, at).queue| == |ops|
  {
    hide ViewOf;
  }

  lemma ThreeReady(db: Db, l: Uid, u: Uid, name: string, env: Env)
    requires N.Renamable(db, l, u, name) && EnvOk(db, env)
    ensures StaleReady(Made(db, ThreeOps(db, l, u, name), env.now), l, u, name, env)
  {
    hide Handle, ViewOf, ProjectAll, Rewritten, EnvOk, N.Renamable;
    N.QueuedDeleteConflicts(db, l, u, env, name);
  }

  /**
    A page conflicts with itself, on every room with an item: quantity + 1, edit and delete are
    queued from a freshly loaded page, nobody else does anything, every request is answered, and
    the edit is refused because the row changed meanwhile.
   */
  lemma PageConflictsWithItself(db: Db, start: Sys, l: Uid, u: Uid, name: string, env: Env)
    requires Start(start, db) && N.Renamable(db, l, u, name) && EnvOk(db, env)
    ensures var steps := ConflictRun(db, l, u, name, env);
      Possible(start, steps) && !N.NoConflict(AfterSteps(start, steps).log, {u})
  {
    hide Possible, AfterSteps, Start, EnvOk, N.Renaming, N.NoConflict, Made, StaleRun, StaleReady;
    var ops := ThreeOps(db, l, u, name);
    ThreeOpsOk(db, l, u, name);
    ThreeReady(db, l, u, name, env);
    StaleQueueConflicts(Made(db, ops, env.now), l, u, name, env);
    assert |Made(db, ops, env.now).queue| == 3 by { MadeQueue(db, ops, env.now); }
    ActThree(db, start, ops, env.now, StaleRun(Made(db, ops, env.now), env));
  }

  lemma ThreeOpsOk(db: Db, l: Uid, u: Uid, name: string)
    requires u in db.items
    ensures forall op :: op in ThreeOps(db, l, u, name) ==> WellFormed(op) && IsProjected(op)
  {
  }

  lemma MadeThree(db: Db, start: Sys, ops: seq<Op>, at: Time)
    requires |ops| == 3 && Start(start, db)
    ensures var s := Made(db, ops, at); Shaped(s) && s.queue != [] && s.store.sending.None?
    ensures start == Made(db, [], at)
  {
    hide ViewOf;
    assert N.QueueOf([], at) == [] && Entries([], at) == [];
  }

  lemma ActThree(db: Db, start: Sys, ops: seq<Op>, at: Time, rest: seq<Step>)
    requires |ops| == 3 && Start(start, db) && (forall op :: op in ops ==> WellFormed(op) && IsProjected(op))
    requires Possible(Made(db, ops, at), rest)
    ensures var steps :=
      [Act(SentOp(0, ops[0]), at)] + ([Act(SentOp(1, ops[1]), at)] + ([Act(SentOp(2, ops[2]), at)] + rest));
      Possible(start, steps) && AfterSteps(start, steps) == AfterSteps(Made(db, ops, at), rest)
  {
    hide Possible, AfterSteps, Can, Do, Shaped, Start, Made, WellFormed, IsProjected;
    MadeThree(db, start, ops, at);
    MadeMore(db, [], ops[0], at);
    MadeMore(db, ops[..1], ops[1], at);
    MadeMore(db, ops[..2], ops[2], at);
    assert [] + [ops[0]] == ops[..1] && ops[..1] + [ops[1]] == ops[..2] && ops[..2] + [ops[2]] == ops;
    OneStep(Made(db, ops[..2], at), Act(SentOp(2, ops[2]), at), rest);
    OneStep(Made(db, ops[..1], at), Act(SentOp(1, ops[1]), at), [Act(SentOp(2, ops[2]), at)] + rest);
    OneStep(Made(db, [], at), Act(SentOp(0, ops[0]), at),
      [Act(SentOp(1, ops[1]), at)] + ([Act(SentOp(2, ops[2]), at)] + rest));
  }

  // An uncertain op over a newer value

  /** A room that can be renamed to `mine`, and then to `theirs`; page and server read `mine` alike. */
  ghost predicate TwoNames(db: Db, mine: string, theirs: string) {
    && Tracked(db) && Ruled(db)
    && T.JsTrim(mine) == mine && TextOk(mine, MAX_NAME_LENGTH) && TextOk(theirs, MAX_NAME_LENGTH)
    && mine != db.name && theirs != mine
  }

  function Rename(mine: string): SentOp { SentOp(0, RoomRename(mine)) }

  /** The server executed the page's rename, and the answer is under way, or lost (`lost`). */
  function Renamed(db: Db, mine: string, at: Time, env: Env, lost: bool): Sys {
    var d1 := PutName(db, mine);
    Sys([db, d1], [Own(Execution(Rename(mine), env, Response(Applied(None, None), d1.changeSeq)))], map[0 := 0],
        [QueueEntry(Rename(mine), at, true)], {Rename(mine)},
        Store(ViewOf(db), db.changeSeq, [PendingOp(Rename(mine), at, None, lost)], [], if lost then None else Some(0)),
          Idle, {})
  }

  /** Then somebody else renames the room. */
  function Overtaken(db: Db, mine: string, theirs: string, at: Time, env: Env): Sys {
    Logged(Renamed(db, mine, at, env, true), Others([PutNameS(theirs)]), PutName(PutName(db, mine), theirs))
  }

  /** And the page's data has both changes. */
  function CaughtUp(db: Db, mine: string, theirs: string, at: Time, env: Env): Sys {
    var d2 := PutName(PutName(db, mine), theirs);
    var s := Overtaken(db, mine, theirs, at, env);
    s.(store := s.store.(server := ViewOf(d2), roomSeq := d2.changeSeq))
  }

  function OvertakenRun(db: Db, mine: string, theirs: string, at: Time, env: Env, rest: seq<Step>): seq<Step> {
    [Act(Rename(mine), at)] + ([StartSend] + ([Transmit] + ([Deliver(Rename(mine), env)]
    + ([Lose(true)] + ([Other([PutNameS(theirs)])] + rest)))))
  }

  lemma RenameOutcome(db: Db, mine: string, theirs: string, env: Env)
    requires TwoNames(db, mine, theirs)
    ensures Handle(db, RoomRename(mine), env) == Outcome(PutName(db, mine), Applied(None, None))
    ensures Ruled(PutName(PutName(db, mine), theirs))
    ensures RunAllowed(PutName(db, mine), [PutNameS(theirs)])
    ensures Run(PutName(db, mine), [PutNameS(theirs)]) == PutName(PutName(db, mine), theirs)
  {
  }

  lemma RenameStep(db: Db, mine: string, theirs: string, at: Time, env: Env)
    requires TwoNames(db, mine, theirs) && EnvOk(db, env)
    ensures var s := Sending(Made(db, [RoomRename(mine)], at));
      Shaped(s) && Can(s, Deliver(Rename(mine), env))
        && Do(s, Deliver(Rename(mine), env)) == Renamed(db, mine, at, env, false)
  {
    hide Handle, Ruled, Tracked, Run, RunAllowed, ViewOf, EnvOk, TwoNames, Plans, Storable, Answers, AfterFeed, Fresh;
    RenameOutcome(db, mine, theirs, env);
    var s := Sending(Made(db, [RoomRename(mine)], at));
    assert s.queue == [QueueEntry(Rename(mine), at, true)];
    assert s.store.pending == [PendingOp(Rename(mine), at, None, false)];
  }

  lemma LoseStep(db: Db, mine: string, at: Time, env: Env)
    ensures var s := Renamed(db, mine, at, env, false);
      Shaped(s) && Can(s, Lose(true)) && Do(s, Lose(true)) == Renamed(db, mine, at, env, true)
  {
    hide Handle, Ruled, Tracked, Run, RunAllowed, ViewOf, EnvOk, Plans, Storable, Answers, AfterFeed, Fresh, PutName;
    assert MarkUncertain([PendingOp(Rename(mine), at, None, false)], 0) == [PendingOp(Rename(mine), at, None, true)];
  }

  lemma OtherStep(db: Db, mine: string, theirs: string, at: Time, env: Env)
    requires TwoNames(db, mine, theirs)
    ensures var s := Renamed(db, mine, at, env, true);
      && Shaped(s) && Can(s, Other([PutNameS(theirs)]))
      && Do(s, Other([PutNameS(theirs)])) == Overtaken(db, mine, theirs, at, env)
  {
    hide Handle, Ruled, Tracked, Run, RunAllowed, ViewOf, EnvOk, TwoNames, Plans, Storable, Answers, AfterFeed, Fresh,
      PutName;
    RenameOutcome(db, mine, theirs, env);
  }

  lemma OvertakenPossible(db: Db, start: Sys, mine: string, theirs: string, at: Time, env: Env, rest: seq<Step>)
    requires TwoNames(db, mine, theirs) && EnvOk(db, env) && Start(start, db)
    requires Possible(Overtaken(db, mine, theirs, at, env), rest)
    ensures Possible(start, OvertakenRun(db, mine, theirs, at, env, rest))
    ensures AfterSteps(start, OvertakenRun(db, mine, theirs, at, env, rest))
      == AfterSteps(Overtaken(db, mine, theirs, at, env), rest)
  {
    hide Possible, AfterSteps, Can, Do, Shaped, Start, EnvOk, TwoNames, Sending, Made, Overtaken, Renamed;
    RenameStep(db, mine, theirs, at, env);
    LoseStep(db, mine, at, env);
    OtherStep(db, mine, theirs, at, env);
    MadeOne(db, start, RoomRename(mine), at);
    var made, s1, s2 := Made(db, [RoomRename(mine)], at), Renamed(db, mine, at, env, false),
        Renamed(db, mine, at, env, true);
    OneStep(s2, Other([PutNameS(theirs)]), rest);
    OneStep(s1, Lose(true), [Other([PutNameS(theirs)])] + rest);
    OneStep(Sending(made), Deliver(Rename(mine), env), [Lose(true)] + ([Other([PutNameS(theirs)])] + rest));
    SendHead(made, [Deliver(Rename(mine), env)] + ([Lose(true)] + ([Other([PutNameS(theirs)])] + rest)));
    OneStep(start, Act(Rename(mine), at),
            [StartSend] + ([Transmit] + ([Deliver(Rename(mine),
              env)] + ([Lose(true)] + ([Other([PutNameS(theirs)])] + rest)))));
  }

  lemma MadeOne(db: Db, start: Sys, op: Op, at: Time)
    requires Start(start, db) && WellFormed(op) && IsProjected(op)
    ensures var s := Made(db, [op], at); Shaped(s) && s.queue != [] && s.store.sending.None?
    ensures Shaped(start) && Can(start, Act(SentOp(0, op), at))
      && Do(start, Act(SentOp(0, op), at)) == Made(db, [op], at)
  {
    hide ViewOf, Can, Do, WellFormed, IsProjected;
    assert N.QueueOf([], at) == [] && Entries([], at) == [];
    MadeMore(db, [], op, at);
    assert [] + [op] == [op];
  }

  /** A read of the feed while nothing is open. */
  function FeedRead(feed: Feed): seq<Step> { [Ask] + ([Compute(feed)] + ([Arrive] + ([Apply] + []))) }

  lemma CatchUp(db: Db, mine: string, theirs: string, at: Time, env: Env, feed: Feed)
    requires TwoNames(db, mine, theirs) && Answers(PutName(PutName(db, mine), theirs), db.changeSeq, feed)
    ensures var s := Overtaken(db, mine, theirs, at, env);
      && Shaped(s) && Can(s, Ask) && Shaped(Do(s, Ask)) && Can(Do(s, Ask), Compute(feed))
      && var s1 := Do(Do(s, Ask), Compute(feed));
      && Shaped(s1) && Can(s1, Arrive) && Shaped(Do(s1, Arrive)) && Can(Do(s1, Arrive), Apply)
      && Do(Do(s1, Arrive), Apply) == s.(store := AfterFeed(s.store, feed))
  {
    hide Handle, Ruled, Tracked, Run, RunAllowed, ViewOf, EnvOk, TwoNames, Plans, Storable, Answers, AfterFeed, Fresh,
      PutName;
  }

  lemma TwoRenames(db: Db, mine: string, theirs: string)
    ensures RunAllowed(db, [PutNameS(mine), PutNameS(theirs)])
    ensures Run(db, [PutNameS(mine), PutNameS(theirs)]) == PutName(PutName(db, mine), theirs)
  {
    hide Run, RunAllowed;
    RoomRules.One(PutName(db, mine), PutNameS(theirs));
    RoomRules.Then(db, PutNameS(mine), [PutNameS(theirs)]);
    assert [PutNameS(mine)] + [PutNameS(theirs)] == [PutNameS(mine), PutNameS(theirs)];
  }

  lemma CaughtUpStore(db: Db, mine: string, theirs: string, at: Time, env: Env, feed: Feed)
    requires TwoNames(db, mine, theirs) && Answers(PutName(PutName(db, mine), theirs), db.changeSeq, feed)
    ensures Overtaken(db, mine, theirs, at, env).(store := AfterFeed(Overtaken(db, mine, theirs, at, env).store, feed))
      == CaughtUp(db, mine, theirs, at, env)
  {
    hide Ruled, Merged, ViewOf, Answers, Tracked, Run, RunAllowed, NeedsFull;
    var run := [PutNameS(mine), PutNameS(theirs)];
    TwoRenames(db, mine, theirs);
    FeedConvergence(db, run, feed);
    assert DropReached([PendingOp(Rename(mine), at, None, true)], feed.roomSeq)
      == [PendingOp(Rename(mine), at, None, true)];
  }

  ghost predicate NoReload(steps: seq<Step>) { forall i :: 0 <= i < |steps| ==> !steps[i].Reload? && !steps[i].Fail? }

  lemma StepsOfRun(db: Db, mine: string, theirs: string, at: Time, env: Env, feed: Feed)
    ensures NoReload(OvertakenRun(db, mine, theirs, at, env, FeedRead(feed)))
  {
  }

  lemma {:induction false} NoReloadRecalls(s: Sys, steps: seq<Step>)
    requires Possible(s, steps) && NoReload(steps)
    ensures S.Recalls(s, steps)
    decreases |steps|
  {
    hide Can, Do, S.Remembers;
    if steps != [] {
      assert forall i :: 0 <= i < |steps[1..]| ==> steps[1..][i] == steps[i + 1];
      NoReloadRecalls(Do(s, steps[0]), steps[1..]);
    }
  }

  lemma UncertainRun(db: Db, start: Sys, mine: string, theirs: string, at: Time, env: Env, feed: Feed)
    requires TwoNames(db, mine, theirs) && EnvOk(db, env) && Start(start, db)
    requires Answers(PutName(PutName(db, mine), theirs), db.changeSeq, feed)
    ensures var steps := OvertakenRun(db, mine, theirs, at, env, FeedRead(feed));
      Possible(start, steps) && AfterSteps(start, steps) == CaughtUp(db, mine, theirs, at, env)
  {
    hide Possible, AfterSteps, Can, Do, Shaped, Start, EnvOk, TwoNames, Overtaken, CaughtUp, Answers, AfterFeed;
    CatchUp(db, mine, theirs, at, env, feed);
    CaughtUpStore(db, mine, theirs, at, env, feed);
    var s := Overtaken(db, mine, theirs, at, env);
    var s1 := Do(s, Ask);
    var s2 := Do(s1, Compute(feed));
    var s3 := Do(s2, Arrive);
    NoStep(Do(s3, Apply));
    OneStep(s3, Apply, []);
    OneStep(s2, Arrive, [Apply] + []);
    OneStep(s1, Compute(feed), [Arrive] + ([Apply] + []));
    OneStep(s, Ask, [Compute(feed)] + ([Arrive] + ([Apply] + [])));
    OvertakenPossible(db, start, mine, theirs, at, env, FeedRead(feed));
  }

  lemma CaughtUpShows(db: Db, mine: string, theirs: string, at: Time, env: Env)
    requires TwoNames(db, mine, theirs)
    ensures var s := CaughtUp(db, mine, theirs, at, env);
      && s.dbs != [] && s.store.server == ViewOf(Now(s)) && S.Alone(s) && S.FaithfullyShown(s) && S.Waiting(s, [])
      && Runs.AllApplied(Now(s), []) && Runs.Execute(Now(s), []).name == theirs && Shown(s.store).name == mine
      && !Alike(Shown(s.store), ViewOf(Runs.Execute(Now(s), []))) && !S.HeadRight(s)
  {
    hide Handle, Ruled, Tracked, Run, RunAllowed, PublishLists, PublishItems;
    var s := CaughtUp(db, mine, theirs, at, env);
    var p := PendingOp(Rename(mine), at, None, true);
    assert [p][..0] == [] && ProjectAll(s.store.server, [p]) == Project(s.store.server, p.sent.op, at);
    assert T.Strip(mine) == mine;
  }

  /**
    An open op that is not rightly shown. The page renames the room, and the answer is lost;
    somebody else renames it again, and a feed brings both changes. The data is current and
    nothing else waits, but the page still projects the op: it shows its own older name.
   */
  lemma UncertainShowsOldName(db: Db, start: Sys, mine: string, theirs: string, at: Time, env: Env, feed: Feed)
    requires TwoNames(db, mine, theirs) && EnvOk(db, env) && Start(start, db)
    requires Answers(PutName(PutName(db, mine), theirs), db.changeSeq, feed)
    ensures var steps := OvertakenRun(db, mine, theirs, at, env, FeedRead(feed));
      && Possible(start, steps) && S.Recalls(start, steps)
      && var s := AfterSteps(start, steps);
      && s.dbs != [] && s.store.server == ViewOf(Now(s)) && S.Alone(s) && S.FaithfullyShown(s) && S.Waiting(s, [])
      && Runs.AllApplied(Now(s), []) && Runs.Execute(Now(s), []).name == theirs && Shown(s.store).name == mine
      && !Alike(Shown(s.store), ViewOf(Runs.Execute(Now(s), []))) && !S.HeadRight(s)
  {
    hide *;
    UncertainRun(db, start, mine, theirs, at, env, feed);
    CaughtUpShows(db, mine, theirs, at, env);
    StepsOfRun(db, mine, theirs, at, env, feed);
    NoReloadRecalls(start, OvertakenRun(db, mine, theirs, at, env, FeedRead(feed)));
  }
}

/**
  What the sync machine guarantees: no op counts twice, none that was applied disappears, and
  the page shows what one sequential server would hold after executing the page's ops.
 */
module SequentialServer {
  import opened RoomModel
  import opened Tracking
  import opened Operations
  import opened RoomRules
  import opened ChangesFeed
  import opened Overlay
  import opened Simulation
  import opened Rebase
  import opened RoomStores
  import opened Sync
  import F = OverlayFixpoints
  import Runs = OverlayRuns

  function Changes(dbs: seq<Db>, i: nat): bool
    requires i + 1 < |dbs|
  {
    dbs[i].changeSeq != dbs[i + 1].changeSeq
  }

  // Nothing twice, nothing lost

  /** A projected op shown as certain that was executed is one the data does not have. */
  ghost predicate NothingTwice(s: Sys) {
    forall p :: p in s.store.pending && !p.uncertain && p.sent.id in s.done ==>
      DoneAs(s.log, s.done, p.sent) && DataBy(s.dbs, s.store.server, s.store.roomSeq, s.done[p.sent.id])
  }

  /** An op the page saw applied is in the data or still projected, in the form it was executed. */
  ghost predicate NothingLost(s: Sys) {
    forall id :: id in s.known ==>
      && WasApplied(s.log, s.done, id)
      && (SeqAfter(s.dbs, s.done, id) <= s.store.roomSeq || exists p ::
        p in s.store.pending && p.sent.id == id && DoneAs(s.log, s.done, p.sent))
  }

  /** No op_id is executed twice. */
  ghost predicate ExecutedOnce(log: seq<Event>) {
    forall i, k :: 0 <= i < k < |log| && log[i].Own? && log[k].Own? ==> log[i].exec.sent.id != log[k].exec.sent.id
  }

  lemma FrontIsLater(dbs: seq<Db>, log: seq<Event>, done: map<Uid, nat>, p: PendingOp, server: View, roomSeq: nat)
    requires Rising(dbs) && Outrun(dbs, log, done, p, roomSeq) && DataOk(dbs, server, roomSeq)
    ensures DataBy(dbs, server, roomSeq, done[p.sent.id])
  {
    hide ViewOf;
    var j :| DataAt(dbs, server, roomSeq, j);
    assert j <= done[p.sent.id];
  }

  lemma CertainIsNew(s: Sys, i: nat)
    requires Inv(s) && i < |s.store.pending| && !s.store.pending[i].uncertain && s.store.pending[i].sent.id in s.done
    ensures DoneAs(s.log, s.done, s.store.pending[i].sent)
    ensures DataBy(s.dbs, s.store.server, s.store.roomSeq, s.done[s.store.pending[i].sent.id])
  {
    hide History, Once, NotLost, LoadOk, SendOk, DataBy, DataOk, Rising, DoneAs, WellFormed;
    var n, p := |s.store.pending| - |s.queue|, s.store.pending[i];
    if i < n {
      assert Outrun(s.dbs, s.log, s.done, p, s.store.roomSeq);
      FrontIsLater(s.dbs, s.log, s.done, p, s.store.server, s.store.roomSeq);
    } else {
      assert MirrorsAt(s.queue, s.store.pending, i - n);
    }
  }

  lemma KnownIsShown(s: Sys, id: Uid)
    requires Inv(s) && id in s.known && SeqAfterOf(s, id) > s.store.roomSeq
    ensures exists p :: p in s.store.pending && p.sent.id == id && DoneAs(s.log, s.done, p.sent)
  {
    hide History, Once, HeadOfLine, NotTwice, LoadOk, SendOk, DataOk, Rising, MirrorsAt;
    var front := Front(s.queue, s.store.pending);
    assert Waits(front, id);
    var p :| p in front && p.sent.id == id;
    var i :| 0 <= i < |front| && front[i] == p;
    assert Outrun(s.dbs, s.log, s.done, s.store.pending[i], s.store.roomSeq);
  }

  function SeqAfterOf(s: Sys, id: Uid): nat { if id in s.done then SeqAfter(s.dbs, s.done, id) else 0 }

  /** For every run from a freshly loaded page, with lost answers, retries, late feeds and reloads. */
  lemma EveryRun(db: Db, start: Sys, steps: seq<Step>)
    requires Tracked(db) && Ruled(db) && Start(start, db) && Possible(start, steps)
    ensures NothingTwice(AfterSteps(start, steps)) && NothingLost(AfterSteps(start, steps))
      && ExecutedOnce(AfterSteps(start, steps).log)
  {
    hide Tracked, Ruled, Possible, AfterSteps, Start;
    StartInv(start, db);
    RunKeeps(start, steps);
    var s := AfterSteps(start, steps);
    forall p | p in s.store.pending && !p.uncertain && p.sent.id in s.done
      ensures DoneAs(s.log, s.done, p.sent) && DataBy(s.dbs, s.store.server, s.store.roomSeq, s.done[p.sent.id])
    {
      var i :| 0 <= i < |s.store.pending| && s.store.pending[i] == p;
      CertainIsNew(s, i);
    }
    hide DataBy, DataOk, History, HeadOfLine, Mirrors, FrontOk, NotTwice, LoadOk, SendOk, Rising;
    forall id | id in s.known && SeqAfterOf(s, id) > s.store.roomSeq
      ensures exists p :: p in s.store.pending && p.sent.id == id && DoneAs(s.log, s.done, p.sent)
    {
      KnownIsShown(s, id);
    }
  }

  // The page knows its own changes, unless it reloads with data from before them

  ghost predicate Remembers(dbs: seq<Db>, log: seq<Event>, known: set<Uid>, queue: seq<QueueEntry>, roomSeq: nat) {
    forall i ::
        0 <= i < |log| && i + 1 < |dbs| && log[i].Own? && log[i].exec.response.answer.Applied?
        && dbs[i + 1].changeSeq > roomSeq ==>
      log[i].exec.sent.id in known || IsHead(queue, log[i].exec.sent.id)
  }

  predicate IsHead(queue: seq<QueueEntry>, id: Uid) { queue != [] && queue[0].sent.id == id }

  /**
    The snapshot of a reload has all but the open op of this page, and an HTTP error does not drop
    an op that was applied and that the data lacks.
   */
  ghost predicate KeepsTrack(s: Sys, step: Step) {
    match step
    case Reload(j, stored) => j < |s.dbs| ==> Remembers(s.dbs, s.log, {}, stored, s.dbs[j].changeSeq)
    case Fail => HeadDone(s.done, s.queue) && WasApplied(s.log, s.done, s.queue[0].sent.id) ==>
      SeqAfter(s.dbs, s.done, s.queue[0].sent.id) <= s.store.roomSeq
    case _ => true
  }

  lemma StepRemembers(s: Sys, step: Step)
    requires Inv(s) && Shaped(s) && Can(s, step) && KeepsTrack(s, step)
    requires Remembers(s.dbs, s.log, s.known, s.queue, s.store.roomSeq)
    ensures var t := Do(s, step); Remembers(t.dbs, t.log, t.known, t.queue, t.store.roomSeq)
  {
    hide Plans, Answers, Handle, Run, RunAllowed, Tracked, Ruled, EnvOk, WellFormed, Fresh, Follows, Shown, AfterFeed,
      ViewOf, DataOk, Mirrors, FrontOk, NotTwice, NotLost, LoadOk, Rising;
    if step.Apply? { ApplyData(s); }
    hide DataAt;
    if step.Fail? { FailRemembers(s.dbs, s.log, s.done, s.known, s.queue, s.store.roomSeq); }
    if step.Answer? {
      AnswerRemembers(s.dbs, s.log, s.done, s.known, s.queue, s.store.roomSeq, step.rewritten);
      return;
    }
    if step.Deliver? {
      if step.sent.id !in s.done { assert IsHead(s.queue, step.sent.id); }
    }
    hide HeadOfLine, Once, History;
  }

  lemma FailRemembers(dbs: seq<Db>, log: seq<Event>, done: map<Uid, nat>, known: set<Uid>, queue: seq<QueueEntry>,
      roomSeq: nat)
    requires Remembers(dbs, log, known, queue, roomSeq) && Once(log, done) && queue != []
    requires WasApplied(log, done, queue[0].sent.id) ==> SeqAfter(dbs, done, queue[0].sent.id) <= roomSeq
    ensures Remembers(dbs, log, known, queue[1..], roomSeq)
  {
  }

  lemma AnswerRemembers(dbs: seq<Db>, log: seq<Event>, done: map<Uid, nat>, known: set<Uid>, queue: seq<QueueEntry>,
      roomSeq: nat, rewritten: map<Uid, Op>)
    requires Remembers(dbs, log, known, queue, roomSeq) && Once(log, done) && queue != [] && queue[0].sent.id in done
    ensures var applied := log[done[queue[0].sent.id]].exec.response.answer.Applied?;
      Remembers(dbs, log, if applied then known + {queue[0].sent.id}
        else known, RewriteQueue(queue[1..], rewritten), roomSeq)
  {
  }

  /** So it is with every step of the run. */
  ghost predicate Recalls(s: Sys, steps: seq<Step>)
    requires Possible(s, steps)
    decreases |steps|
  {
    steps == [] || (KeepsTrack(s, steps[0]) && Recalls(Do(s, steps[0]), steps[1..]))
  }

  lemma {:induction false} RunRemembers(s: Sys, steps: seq<Step>)
    requires Inv(s) && Possible(s, steps) && Recalls(s, steps)
    requires Remembers(s.dbs, s.log, s.known, s.queue, s.store.roomSeq)
    ensures var t := AfterSteps(s, steps); Remembers(t.dbs, t.log, t.known, t.queue, t.store.roomSeq)
    decreases |steps|
  {
    hide Inv, Can, Do, KeepsTrack, Remembers;
    if steps != [] {
      StepKeeps(s, steps[0]);
      StepRemembers(s, steps[0]);
      RunRemembers(Do(s, steps[0]), steps[1..]);
    }
  }

  // What the page shows

  /** Every change the page's data lacks was made by this page, which still knows of it. */
  ghost predicate OnlyOwn(s: Sys) {
    forall i :: 0 <= i < |s.log| && i + 1 < |s.dbs| && Changes(s.dbs, i) && s.dbs[i + 1].changeSeq > s.store.roomSeq ==>
      s.log[i].Own? && (s.log[i].exec.sent.id in s.known || IsHead(s.queue, s.log[i].exec.sent.id))
  }

  /** Nobody else changed the room past the page's data. */
  ghost predicate Alone(s: Sys) {
    forall i ::
        0 <= i < |s.log| && i + 1 < |s.dbs| && Changes(s.dbs, i) && s.dbs[i + 1].changeSeq > s.store.roomSeq ==>
        s.log[i].Own?
  }

  /** A refused op changes nothing, so the page knows of every change its data lacks. */
  lemma AloneIsOnlyOwn(s: Sys)
    requires History(s.dbs, s.log) && Alone(s) && Remembers(s.dbs, s.log, s.known, s.queue, s.store.roomSeq)
    ensures OnlyOwn(s)
  {
    hide Handle, Tracked, Ruled, EnvOk, WellFormed, Run, RunAllowed;
    forall i | 0 <= i < |s.log| && i + 1 < |s.dbs| && Changes(s.dbs, i) && s.dbs[i + 1].changeSeq > s.store.roomSeq
      ensures s.log[i].Own? && (s.log[i].exec.sent.id in s.known || IsHead(s.queue, s.log[i].exec.sent.id))
    {
      assert Follows(s.dbs[i], s.log[i], s.dbs[i + 1]);
      var x := s.log[i].exec;
      if !x.response.answer.Applied? { RefusedChangesNothing(s.dbs[i], x.sent.op, x.env); }
    }
  }

  /** The ops shown that the server applied are projected as it executed them. */
  ghost predicate FaithfullyShown(s: Sys) {
    forall p :: p in s.store.pending && WasApplied(s.log, s.done, p.sent.id) && s.done[p.sent.id] < |s.dbs| ==>
        Faithful(s.dbs[s.done[p.sent.id]], p.sent.op)
  }

  /** The head was executed and its effect is not in the data. */
  predicate HeadOutruns(s: Sys) {
    HeadDone(s.done, s.queue) && SeqAfter(s.dbs, s.done, s.queue[0].sent.id) > s.store.roomSeq
  }

  /** The head is still to take effect on what is shown before it: not executed, or applied past the data. */
  predicate Ahead(s: Sys) {
    HeadDone(s.done, s.queue) ==> HeadOutruns(s) && WasApplied(s.log, s.done, s.queue[0].sent.id)
  }

  /**
    The head of the queue is rightly shown: projected while its effect is still to come and left
    out when it came or never will, or the view before it has what it wants, so it does not matter.
   */
  ghost predicate HeadRight(s: Sys) {
    0 < |s.queue| <= |s.store.pending| ==>
      var n := |s.store.pending| - |s.queue|;
      var p := s.store.pending[n];
      (Ahead(s) <==> !Skipped(p)) || F.Finds(ProjectAll(s.store.server, s.store.pending[..n]), p.sent.op)
  }

  /** The queued ops the server has not executed, with the surroundings their execution will have. */
  ghost predicate Waiting(s: Sys, acts: seq<Runs.Act>) {
    var first := if HeadDone(s.done, s.queue) then 1 else 0;
    |acts| == |s.queue| - first
    && forall i :: 0 <= i < |acts| ==> acts[i].op == s.queue[first + i].sent.op && acts[i].at == s.queue[first + i].at
  }

  lemma SameSeq(dbs: seq<Db>, log: seq<Event>, a: nat, b: nat)
    requires History(dbs, log) && a < |dbs| && b < |dbs| && dbs[a].changeSeq == dbs[b].changeSeq
    ensures ViewOf(dbs[a]) == ViewOf(dbs[b])
  {
    hide Follows, Ruled, Run, RunAllowed, ViewOf;
    assert Tracked(dbs[a]) && Tracked(dbs[b]);
    hide Tracked;
    if a <= b {
      var run := LogRun(dbs, log, a, b);
      SameSeqSameView(dbs[a], run);
    } else {
      var run := LogRun(dbs, log, b, a);
      SameSeqSameView(dbs[b], run);
    }
  }

  lemma {:induction false} Quiet(dbs: seq<Db>, log: seq<Event>, a: nat, b: nat)
    requires History(dbs, log) && a <= b < |dbs| && forall i :: a <= i < b ==> !Changes(dbs, i)
    ensures ViewOf(dbs[a]) == ViewOf(dbs[b])
    decreases b
  {
    hide History, ViewOf;
    if a < b {
      Quiet(dbs, log, a, b - 1);
      assert !Changes(dbs, b - 1);
      SameSeq(dbs, log, b - 1, b);
    }
  }

  /** Projecting an executed op on the view from before gives the view from after. */
  lemma Executed(dbs: seq<Db>, log: seq<Event>, done: map<Uid, nat>, sent: SentOp, v: View, at: Time)
    requires History(dbs, log) && DoneAs(log, done, sent) && WasApplied(log, done, sent.id) && IsProjected(sent.op)
    requires Faithful(dbs[done[sent.id]], sent.op) && Alike(v, ViewOf(dbs[done[sent.id]]))
    ensures Alike(Project(v, sent.op, at), ViewOf(dbs[done[sent.id] + 1]))
  {
    var d := done[sent.id];
    hide Faithful, Handle, WellFormed, EnvOk, Tracked, UniqueListNames, ListsOk, ItemsOk, CountsOk, UniqueNames,
      ViewOf, Project, Alike;
    FollowsAt(dbs, log, d);
    var env := log[d].exec.env;
    Runs.PublishedNames(dbs[d]);
    Runs.AlikeNames(v, ViewOf(dbs[d]));
    Runs.ProjectRespects(v, ViewOf(dbs[d]), sent.op, at);
    OverlaySimulates(dbs[d], sent.op, env, at);
    AlikeTransitive(Project(v, sent.op, at), Project(ViewOf(dbs[d]), sent.op, at), ViewOf(dbs[d + 1]));
  }

  /** A change past the data is that of a projected op. */
  lemma WhoActed(s: Sys, i: nat)
    requires Inv(s) && OnlyOwn(s) && i < |s.log| && Changes(s.dbs, i) && s.dbs[i + 1].changeSeq > s.store.roomSeq
    ensures (exists k ::
      0 <= k < |s.store.pending| - |s.queue| && s.store.pending[k].sent.id in s.done
      && s.done[s.store.pending[k].sent.id] == i)
      || (HeadDone(s.done, s.queue) && s.done[s.queue[0].sent.id] == i)
  {
    hide HeadOfLine, MirrorsAt, FrontOk, NotTwice, LoadOk, SendOk, DataOk, Rising, Tracked, Ruled, Follows;
    var id := s.log[i].exec.sent.id;
    assert s.done[id] == i;
    if id in s.known {
      var front := Front(s.queue, s.store.pending);
      assert Waits(front, id);
      var p :| p in front && p.sent.id == id;
      var k :| 0 <= k < |front| && front[k] == p;
      assert s.store.pending[k].sent.id == id;
    }
  }

  /** Where in the log the view of the first `m` projected ops stands, and the next projected execution. */
  function Stand(s: Sys, j: nat, m: nat): nat
    requires m <= |s.store.pending|
  {
    if m == 0 || s.store.pending[m - 1].sent.id !in s.done then j else s.done[s.store.pending[m - 1].sent.id] + 1
  }

  function Next(s: Sys, m: nat): nat
    requires m <= |s.store.pending|
  {
    if m + |s.queue| < |s.store.pending| && s.store.pending[m].sent.id in s.done then s.done[s.store.pending[m].sent.id]
    else if HeadDone(s.done, s.queue) then s.done[s.queue[0].sent.id] else |s.log|
  }

  ghost predicate FrontStands(s: Sys, j: nat, m: nat) {
    && m + |s.queue| <= |s.store.pending| && DataAt(s.dbs, s.store.server, s.store.roomSeq, j)
    && j <= Stand(s, j, m) <= |s.log|
    && (m + |s.queue| < |s.store.pending| ==> s.store.pending[m].sent.id in s.done)
    && ((m + |s.queue| < |s.store.pending| || !HeadDone(s.done, s.queue) || HeadOutruns(s)) ==>
      Stand(s, j, m) <= Next(s, m) <= |s.log|)
  }

  lemma Standing(s: Sys, j: nat, m: nat)
    requires Inv(s) && m + |s.queue| <= |s.store.pending| && DataAt(s.dbs, s.store.server, s.store.roomSeq, j)
    ensures FrontStands(s, j, m)
  {
    hide MirrorsAt, NotTwice, NotLost, LoadOk, SendOk, DataOk, Tracked, Ruled, Follows, HeadOfLine, ViewOf;
    if m > 0 { assert Outrun(s.dbs, s.log, s.done, s.store.pending[m - 1], s.store.roomSeq); }
    if m + |s.queue| < |s.store.pending| { assert Outrun(s.dbs, s.log, s.done, s.store.pending[m], s.store.roomSeq); }
  }

  lemma Gap(s: Sys, j: nat, m: nat)
    requires Inv(s) && OnlyOwn(s) && FrontStands(s, j, m)
    ensures forall i :: Stand(s, j, m) <= i < Next(s, m) && i < |s.log| ==> !Changes(s.dbs, i)
  {
    hide MirrorsAt, NotTwice, NotLost, LoadOk, SendOk, DataOk, Tracked, Ruled, Follows, HeadOfLine, ViewOf, OnlyOwn,
      Once;
    forall i | Stand(s, j, m) <= i < Next(s, m) && i < |s.log| ensures !Changes(s.dbs, i) {
      if Changes(s.dbs, i) {
        assert s.dbs[j].changeSeq <= s.dbs[i].changeSeq <= s.dbs[i + 1].changeSeq;
        WhoActed(s, i);
      }
    }
  }

  /** The projected ops that outrun the data take its view to the state after the last of them. */
  lemma {:induction false} FrontShows(s: Sys, j: nat, m: nat)
    requires Inv(s) && OnlyOwn(s) && FaithfullyShown(s) && m + |s.queue| <= |s.store.pending|
    requires DataAt(s.dbs, s.store.server, s.store.roomSeq, j)
    ensures Stand(s, j, m) < |s.dbs|
      && Alike(ProjectAll(s.store.server, s.store.pending[..m]), ViewOf(s.dbs[Stand(s, j, m)]))
  {
    hide Tracked, Ruled, Follows, WasApplied, IsProjected, Mirrors, History, Once, Rising, MirrorsAt, NotTwice,
      NotLost, LoadOk, SendOk, DataOk, OnlyOwn, HeadOfLine, ViewOf, Project, Alike, Faithful;
    Standing(s, j, m);
    if m == 0 {
      SelfAlike(s.store.server);
    } else {
      var p := s.store.pending[m - 1];
      FrontShows(s, j, m - 1);
      Standing(s, j, m - 1);
      Gap(s, j, m - 1);
      assert Outrun(s.dbs, s.log, s.done, p, s.store.roomSeq);
      Quiet(s.dbs, s.log, Stand(s, j, m - 1), Next(s, m - 1));
      Executed(s.dbs, s.log, s.done, p.sent, ProjectAll(s.store.server, s.store.pending[..m - 1]), p.at);
      assert s.store.pending[..m][..m - 1] == s.store.pending[..m - 1];
    }
  }

  lemma SelfAlike(v: View)
    ensures Alike(v, v)
  {
  }

  lemma HeadShape(s: Sys)
    requires Inv(s) && s.queue != []
    ensures |s.queue| <= |s.store.pending|
    ensures var p := s.store.pending[|s.store.pending| - |s.queue|]; p.sent == s.queue[0].sent && p.at == s.queue[0].at
    ensures IsProjected(s.queue[0].sent.op) && (HeadDone(s.done, s.queue) ==> DoneAs(s.log, s.done, s.queue[0].sent))
  {
    hide History, Once, Rising, FrontOk, NotTwice, NotLost, LoadOk, SendOk, DataOk, WellFormed;
    assert MirrorsAt(s.queue, s.store.pending, 0);
  }

  lemma QuietEnd(s: Sys, a: nat)
    requires Inv(s) && OnlyOwn(s) && a < |s.dbs| && s.store.roomSeq <= s.dbs[a].changeSeq
    requires HeadDone(s.done, s.queue) ==> a == s.done[s.queue[0].sent.id] + 1
    requires !HeadDone(s.done, s.queue) ==> a == |s.log|
    ensures ViewOf(s.dbs[a]) == ViewOf(Now(s))
  {
    hide MirrorsAt, NotTwice, NotLost, LoadOk, SendOk, DataOk, Tracked, Ruled, Follows, HeadOfLine, ViewOf, OnlyOwn,
      Once;
    forall i | a <= i < |s.log| ensures !Changes(s.dbs, i) {
      if Changes(s.dbs, i) {
        assert s.dbs[a].changeSeq <= s.dbs[i].changeSeq <= s.dbs[i + 1].changeSeq;
        WhoActed(s, i);
      }
    }
    hide Rising, FrontOk;
    Quiet(s.dbs, s.log, a, |s.log|);
  }

  lemma OneMore(v: View, pending: seq<PendingOp>, n: nat)
    requires n < |pending|
    ensures ProjectAll(v, pending[..n + 1])
      == if Skipped(pending[n]) then ProjectAll(v, pending[..n])
        else Project(ProjectAll(v, pending[..n]), pending[n].sent.op, pending[n].at)
  {
    assert pending[..n + 1][..n] == pending[..n];
    hide Project;
  }

  /** What is shown before the head, when it outruns the data. */
  lemma BeforeOutrunning(s: Sys, j: nat)
    requires Inv(s) && OnlyOwn(s) && FaithfullyShown(s) && HeadOutruns(s)
      && DataAt(s.dbs, s.store.server, s.store.roomSeq, j)
    ensures |s.queue| <= |s.store.pending| && s.done[s.queue[0].sent.id] + 1 < |s.dbs|
    ensures var before := ProjectAll(s.store.server, s.store.pending[..|s.store.pending| - |s.queue|]);
      Alike(before, ViewOf(s.dbs[s.done[s.queue[0].sent.id]]))
    ensures ViewOf(s.dbs[s.done[s.queue[0].sent.id] + 1]) == ViewOf(Now(s))
  {
    hide Once, Rising, Mirrors, NotTwice, NotLost, LoadOk, SendOk, DataOk, OnlyOwn, HeadOfLine, FrontOk, ViewOf,
      Project, ProjectAll, Alike, Faithful, Tracked, Ruled, Follows, FaithfullyShown;
    HeadShape(s);
    var n, d := |s.store.pending| - |s.queue|, s.done[s.queue[0].sent.id];
    FrontShows(s, j, n);
    Standing(s, j, n);
    Gap(s, j, n);
    Quiet(s.dbs, s.log, Stand(s, j, n), d);
    QuietEnd(s, d + 1);
  }

  /** When the data has the head, nothing precedes it and nothing changed since the data. */
  lemma BeforeArrived(s: Sys, j: nat)
    requires Inv(s) && OnlyOwn(s) && HeadDone(s.done, s.queue) && !HeadOutruns(s)
      && DataAt(s.dbs, s.store.server, s.store.roomSeq, j)
    ensures |s.queue| == |s.store.pending| && Alike(s.store.server, ViewOf(Now(s)))
  {
    hide MirrorsAt, NotTwice, NotLost, LoadOk, SendOk, DataOk, Tracked, Ruled, Follows, HeadOfLine, ViewOf, OnlyOwn,
      Once, Alike, FrontOk;
    HeadShape(s);
    if |s.store.pending| > |s.queue| { FrontOutruns(s); }
    forall i | j <= i < |s.log| ensures !Changes(s.dbs, i) {
      if Changes(s.dbs, i) {
        assert s.dbs[j].changeSeq <= s.dbs[i].changeSeq <= s.dbs[i + 1].changeSeq;
        WhoActed(s, i);
      }
    }
    Quiet(s.dbs, s.log, j, |s.log|);
    SelfAlike(s.store.server);
  }

  lemma RefusedQuiet(s: Sys, d: nat)
    requires History(s.dbs, s.log) && HeadDone(s.done, s.queue) && d == s.done[s.queue[0].sent.id]
    requires DoneAs(s.log, s.done, s.queue[0].sent) && !WasApplied(s.log, s.done, s.queue[0].sent.id)
    ensures d + 1 < |s.dbs| && s.dbs[d + 1] == s.dbs[d]
  {
    hide Handle, Tracked, Ruled, EnvOk, WellFormed, Run, RunAllowed;
    assert Follows(s.dbs[d], s.log[d], s.dbs[d + 1]);
    RefusedChangesNothing(s.dbs[d], s.log[d].exec.sent.op, s.log[d].exec.env);
  }

  /** What is shown before an executed head: the room now, or the room before the head. */
  lemma BeforeHead(s: Sys, j: nat, before: View)
    requires Inv(s) && OnlyOwn(s) && FaithfullyShown(s) && HeadDone(s.done, s.queue)
      && DataAt(s.dbs, s.store.server, s.store.roomSeq, j)
    requires |s.queue| <= |s.store.pending|
      && before == ProjectAll(s.store.server, s.store.pending[..|s.store.pending| - |s.queue|])
    ensures Alike(if Ahead(s) then Project(before, s.queue[0].sent.op, s.queue[0].at) else before, ViewOf(Now(s)))
  {
    hide Once, Rising, MirrorsAt, NotTwice, NotLost, LoadOk, SendOk, DataOk, OnlyOwn, HeadOfLine, FrontOk, ViewOf,
      Project, Alike, Faithful, Tracked, Ruled, Follows;
    HeadShape(s);
    if !HeadOutruns(s) {
      BeforeArrived(s, j);
      NoneProjected(s.store.server, s.store.pending);
    } else {
      var d := s.done[s.queue[0].sent.id];
      BeforeOutrunning(s, j);
      hide ProjectAll;
      if Ahead(s) {
        assert s.store.pending[|s.store.pending| - |s.queue|] in s.store.pending;
        Executed(s.dbs, s.log, s.done, s.queue[0].sent, before, s.queue[0].at);
      } else {
        RefusedQuiet(s, d);
      }
    }
  }

  /** A projection that should not be there, or one that is missing, shows exactly if it changes something. */
  lemma RightOrNot(before: View, op: Op, at: Time, ahead: bool, left: bool, now: View)
    requires Alike(if ahead then Project(before, op, at) else before, now)
    ensures Alike(if left then before else Project(before, op, at), now) <==> (ahead <==> !left) || F.Finds(before, op)
  {
    hide Project, F.Finds;
    F.ShowsNothingNew(before, op, at);
    var after := Project(before, op, at);
    AlikeBack(after, before);
    AlikeBack(before, now);
    AlikeBack(after, now);
    if Alike(after, before) && Alike(before, now) { AlikeTransitive(after, before, now); }
    if Alike(before, after) && Alike(after, now) { AlikeTransitive(before, after, now); }
    if Alike(after, now) && Alike(now, before) { AlikeTransitive(after, now, before); }
    hide Alike;
  }

  lemma AlikeBack(v: View, w: View)
    ensures Alike(v, w) <==> Alike(w, v)
  {
  }

  lemma NoneProjected(v: View, pending: seq<PendingOp>)
    ensures ProjectAll(v, pending[..0]) == v
  {
  }

  lemma FrontOutruns(s: Sys)
    requires Inv(s) && HeadDone(s.done, s.queue) && |s.store.pending| > |s.queue|
    ensures HeadOutruns(s)
  {
    hide MirrorsAt, NotTwice, NotLost, LoadOk, SendOk, DataOk, HeadOfLine, Tracked, Ruled, Follows;
    var p := s.store.pending[0];
    assert Outrun(s.dbs, s.log, s.done, p, s.store.roomSeq) && Earlier(s.done, p.sent.id, s.queue[0].sent.id);
  }

  /** The projected op at `n + i` is the act at `i`, and it is not left out. */
  predicate ActAt(pending: seq<PendingOp>, n: nat, acts: seq<Runs.Act>, i: int)
    requires n + |acts| == |pending| && 0 <= i < |acts|
  {
    pending[n + i].sent.op == acts[i].op && pending[n + i].at == acts[i].at && !Skipped(pending[n + i])
  }

  /** Queued ops that are not left out are projected like a run of acts. */
  lemma {:induction false} ProjectedActs(v: View, pending: seq<PendingOp>, n: nat, acts: seq<Runs.Act>)
    requires n + |acts| == |pending|
    requires forall i :: 0 <= i < |acts| ==> ActAt(pending, n, acts, i)
    ensures ProjectAll(v, pending) == Runs.ShownAfter(ProjectAll(v, pending[..n]), acts)
    decreases |acts|
  {
    hide Project;
    if acts == [] {
      assert pending[..n] == pending;
    } else {
      var rest, fewer := pending[..|pending| - 1], acts[..|acts| - 1];
      assert ActAt(pending, n, acts, |acts| - 1);
      forall i | 0 <= i < |fewer| ensures ActAt(rest, n, fewer, i) { assert ActAt(pending, n, acts, i); }
      ProjectedActs(v, rest, n, fewer);
      assert rest[..n] == pending[..n];
    }
  }

  /**
    What the page shows before the ops the server has not executed: the room, if and only if the
    executed head, if any, is rightly shown.
   */
  lemma ExecutedShown(s: Sys)
    requires Inv(s) && OnlyOwn(s) && FaithfullyShown(s)
    ensures var m := |s.store.pending| - |s.queue| + if HeadDone(s.done, s.queue) then 1 else 0;
      && 0 <= m <= |s.store.pending|
      && (Alike(ProjectAll(s.store.server, s.store.pending[..m]), ViewOf(Now(s))) <==>
          (HeadDone(s.done, s.queue) ==> HeadRight(s)))
  {
    hide Once, MirrorsAt, NotTwice, NotLost, LoadOk, SendOk, OnlyOwn, HeadOfLine, FrontOk, ViewOf, ProjectAll, Alike,
      FaithfullyShown, Tracked, Ruled, Follows, DataAt, Project, F.Finds, Ahead;
    var j :| DataAt(s.dbs, s.store.server, s.store.roomSeq, j);
    DataIndex(s, j);
    var n := |s.store.pending| - |s.queue|;
    if HeadDone(s.done, s.queue) {
      HeadShape(s);
      var before, p := ProjectAll(s.store.server, s.store.pending[..n]), s.store.pending[n];
      BeforeHead(s, j, before);
      OneMore(s.store.server, s.store.pending, n);
      RightOrNot(before, p.sent.op, p.at, Ahead(s), Skipped(p), ViewOf(Now(s)));
    } else {
      FrontShows(s, j, n);
      Standing(s, j, n);
      Gap(s, j, n);
      Quiet(s.dbs, s.log, Stand(s, j, n), |s.log|);
    }
  }

  lemma DataIndex(s: Sys, j: int)
    requires DataAt(s.dbs, s.store.server, s.store.roomSeq, j)
    ensures 0 <= j < |s.dbs|
  {
  }

  lemma TailShown(s: Sys, i: nat)
    requires Inv(s) && i < |s.queue|
    ensures |s.queue| <= |s.store.pending|
    ensures var p := s.store.pending[|s.store.pending| - |s.queue| + i];
      p.sent == s.queue[i].sent && p.at == s.queue[i].at && (i > 0 ==> !Skipped(p))
  {
    hide History, Once, NotTwice, NotLost, LoadOk, SendOk, DataOk, FrontOk, HeadOfLine, Rising;
    assert MirrorsAt(s.queue, s.store.pending, i);
  }

  /** With the right view before them, projected ops that are not left out give the room after the acts. */
  lemma ActsShown(s: Sys, m: nat, db: Db, acts: seq<Runs.Act>)
    requires Tracked(db) && Ruled(db) && Runs.AllApplied(db, acts) && m + |acts| == |s.store.pending|
    requires forall i :: 0 <= i < |acts| ==> ActAt(s.store.pending, m, acts, i)
    requires Alike(ProjectAll(s.store.server, s.store.pending[..m]), ViewOf(db))
    ensures Alike(RoomStores.Shown(s.store), ViewOf(Runs.Execute(db, acts)))
  {
    hide ActAt, ProjectAll, Alike, Tracked, Ruled, Runs.AllApplied, Runs.Execute, ViewOf;
    ProjectedActs(s.store.server, s.store.pending, m, acts);
    Runs.QueueSimulates(db, ProjectAll(s.store.server, s.store.pending[..m]), acts);
    AnswersAlike(ProjectAll(s.store.server, s.store.pending), s.store.answered);
    AlikeTransitive(RoomStores.Shown(s.store), ProjectAll(s.store.server, s.store.pending),
      ViewOf(Runs.Execute(db, acts)));
  }

  /** The first act and the rest. */
  lemma {:induction false} FirstAct(db: Db, acts: seq<Runs.Act>)
    requires acts != []
    ensures Runs.Execute(db, acts) == Runs.Execute(Runs.Execute(db, acts[..1]), acts[1..])
    ensures Runs.AllApplied(db, acts) ==>
      Runs.AllApplied(db, acts[..1]) && Runs.AllApplied(Runs.Execute(db, acts[..1]), acts[1..])
    decreases |acts|
  {
    hide Handle, Runs.Applies;
    if |acts| == 1 {
      assert acts[..1] == acts && acts[1..] == [];
    } else {
      var fewer := acts[..|acts| - 1];
      FirstAct(db, fewer);
      assert fewer[..1] == acts[..1] && acts[1..][..|acts| - 2] == fewer[1..];
    }
  }

  /** The shown view is alike what the last projection gives. */
  lemma ShownIsLast(s: Sys, m: nat, now: View)
    requires m == |s.store.pending| && Alike(RoomStores.Shown(s.store), now)
    ensures Alike(ProjectAll(s.store.server, s.store.pending[..m]), now)
  {
    hide Alike, ProjectAll;
    assert s.store.pending[..m] == s.store.pending;
    var last := ProjectAll(s.store.server, s.store.pending);
    AnswersAlike(last, s.store.answered);
    AlikeBack(RoomStores.Shown(s.store), last);
    AlikeTransitive(last, RoomStores.Shown(s.store), now);
  }

  lemma WaitingAt(s: Sys, acts: seq<Runs.Act>)
    requires Waiting(s, acts)
    ensures var first := if HeadDone(s.done, s.queue) then 1 else 0;
      |acts| == |s.queue| - first && forall i :: 0 <= i < |acts| ==>
        acts[i].op == s.queue[first + i].sent.op && acts[i].at == s.queue[first + i].at
  {
  }

  /** The projected ops of the waiting part, from the act at `k` on. */
  lemma WaitingActs(s: Sys, acts: seq<Runs.Act>, k: nat, m: int)
    requires Inv(s) && Waiting(s, acts) && k <= |acts| && m == |s.store.pending| - |acts| + k
    requires k == 0 && !HeadDone(s.done, s.queue) && s.queue != [] ==>
      |s.queue| <= |s.store.pending| && !Skipped(s.store.pending[|s.store.pending| - |s.queue|])
    ensures 0 <= m && m + |acts[k..]| == |s.store.pending|
    ensures forall i :: 0 <= i < |acts[k..]| ==> ActAt(s.store.pending, m, acts[k..], i)
  {
    hide Inv, Waiting, HeadDone, Skipped, Tracked, Ruled;
    InvMirrors(s);
    WaitingAt(s, acts);
    var first, rest := if HeadDone(s.done, s.queue) then 1 else 0, acts[k..];
    forall i | 0 <= i < |rest| ensures ActAt(s.store.pending, m, rest, i) {
      TailShown(s, first + k + i);
      assert rest[i] == acts[k + i];
    }
  }

  lemma InvMirrors(s: Sys)
    requires Inv(s)
    ensures |s.queue| <= |s.store.pending|
    ensures s.dbs != [] && Tracked(Now(s)) && Ruled(Now(s))
  {
    hide Once, MirrorsAt, NotTwice, NotLost, LoadOk, SendOk, DataOk, FrontOk, HeadOfLine, Rising, Tracked, Ruled,
      Follows;
  }

  lemma ProjectedIsRight(s: Sys)
    requires |s.queue| <= |s.store.pending| && !HeadDone(s.done, s.queue)
    requires s.queue == [] || !Skipped(s.store.pending[|s.store.pending| - |s.queue|])
    ensures HeadRight(s)
  {
    hide ProjectAll, F.Finds;
  }

  lemma LeftOutIsRight(s: Sys, n: nat)
    requires s.queue != [] && n == |s.store.pending| - |s.queue| && !HeadDone(s.done, s.queue)
      && Skipped(s.store.pending[n])
    ensures HeadRight(s) <==> F.Finds(ProjectAll(s.store.server, s.store.pending[..n]), s.store.pending[n].sent.op)
  {
    hide ProjectAll, F.Finds;
  }

  /** Nothing is open, or the open op is executed or projected. */
  lemma {:induction false} ShownFromHead(s: Sys, acts: seq<Runs.Act>)
    requires Inv(s) && OnlyOwn(s) && FaithfullyShown(s) && Waiting(s, acts) && Runs.AllApplied(Now(s), acts)
    requires |s.queue| <= |s.store.pending| && (HeadDone(s.done, s.queue) || s.queue == []
      || !Skipped(s.store.pending[|s.store.pending| - |s.queue|]))
    ensures HeadRight(s) ==> Alike(RoomStores.Shown(s.store), ViewOf(Runs.Execute(Now(s), acts)))
    ensures acts == [] && Alike(RoomStores.Shown(s.store), ViewOf(Now(s))) ==> HeadRight(s)
  {
    hide *;
    var m := |s.store.pending| - |acts|;
    InvMirrors(s);
    ExecutedShown(s);
    WaitingAt(s, acts);
    if !HeadDone(s.done, s.queue) { ProjectedIsRight(s); }
    if HeadRight(s) {
      WaitingActs(s, acts, 0, m);
      assert acts[0..] == acts;
      ActsShown(s, m, Now(s), acts);
    }
    if acts == [] && Alike(RoomStores.Shown(s.store), ViewOf(Now(s))) { ShownIsLast(s, m, ViewOf(Now(s))); }
  }

  /** The open op is left out and not executed. */
  lemma {:induction false} ShownWithout(s: Sys, acts: seq<Runs.Act>)
    requires Inv(s) && OnlyOwn(s) && FaithfullyShown(s) && Waiting(s, acts) && Runs.AllApplied(Now(s), acts)
    requires !HeadDone(s.done, s.queue) && s.queue != [] && |s.queue| <= |s.store.pending|
      && Skipped(s.store.pending[|s.store.pending| - |s.queue|])
    ensures HeadRight(s) ==> Alike(RoomStores.Shown(s.store), ViewOf(Runs.Execute(Now(s), acts)))
    ensures |acts| == 1 && Alike(RoomStores.Shown(s.store), ViewOf(Runs.Execute(Now(s), acts))) ==> HeadRight(s)
  {
    hide *;
    InvMirrors(s);
    ExecutedShown(s);
    TailShown(s, 0);
    WaitingAt(s, acts);
    var n, a := |s.store.pending| - |s.queue|, acts[..1];
    var before, p, db := ProjectAll(s.store.server, s.store.pending[..n]), s.store.pending[n], Runs.Execute(Now(s), a);
    OneMore(s.store.server, s.store.pending, n);
    assert acts[0].op == p.sent.op && acts[0].at == p.at;
    WaitingActs(s, acts, 1, n + 1);
    assert a == [acts[0]];
    FirstAct(Now(s), acts);
    Runs.QueueSimulates(Now(s), before, a);
    OneShown(before, acts[0]);
    RightOrNot(before, p.sent.op, p.at, true, true, ViewOf(db));
    LeftOutIsRight(s, n);
    if HeadRight(s) { ActsShown(s, n + 1, db, acts[1..]); }
    if |acts| == 1 && Alike(RoomStores.Shown(s.store), ViewOf(Runs.Execute(Now(s), acts))) {
      assert acts == a;
      ShownIsLast(s, n + 1, ViewOf(db));
    }
  }

  lemma NoActs(db: Db)
    ensures Runs.Execute(db, []) == db
  {
  }

  lemma OneShown(v: View, act: Runs.Act)
    ensures Runs.ShownAfter(v, [act]) == Project(v, act.op, act.at)
  {
    hide Project;
    assert [act][..0] == [];
  }

  /**
    In every state that keeps the invariant the page shows the room after its queue if the open op
    is rightly shown; and only if, when no other op waits behind it.
   */
  lemma {:induction false} QueueShown(s: Sys, acts: seq<Runs.Act>)
    requires Inv(s) && OnlyOwn(s) && FaithfullyShown(s) && Waiting(s, acts) && Runs.AllApplied(Now(s), acts)
    ensures HeadRight(s) ==> Alike(RoomStores.Shown(s.store), ViewOf(Runs.Execute(Now(s), acts)))
    ensures |s.queue| <= 1 && Alike(RoomStores.Shown(s.store), ViewOf(Runs.Execute(Now(s), acts))) ==> HeadRight(s)
  {
    hide *;
    InvMirrors(s);
    WaitingAt(s, acts);
    NoActs(Now(s));
    if HeadDone(s.done, s.queue) || s.queue == [] || !Skipped(s.store.pending[|s.store.pending| - |s.queue|]) {
      ShownFromHead(s, acts);
      if !HeadDone(s.done, s.queue) { ProjectedIsRight(s); }
    } else {
      ShownWithout(s, acts);
    }
  }

  /**
    The view is that of one sequential server. In every run from a freshly loaded page, with lost
    answers, retries, late feeds and reloads: while nobody else changed the room past the page's
    data, and the ops in between are faithfully projected, the page shows the room as it will be
    after the server executes the queue, up to times, versions and the UTC due time, if the open
    op is rightly shown; and only if, when no other op waits behind it.
   */
  lemma {:induction false} ViewIsSequentialServer(db: Db, start: Sys, steps: seq<Step>, acts: seq<Runs.Act>)
    requires Tracked(db) && Ruled(db) && Start(start, db) && Possible(start, steps) && Recalls(start, steps)
    ensures AfterSteps(start, steps).dbs != []
    ensures var s := AfterSteps(start, steps);
      Alone(s) && FaithfullyShown(s) && Waiting(s, acts) && Runs.AllApplied(Now(s), acts) ==>
        var right := Alike(RoomStores.Shown(s.store), ViewOf(Runs.Execute(Now(s), acts)));
        (HeadRight(s) ==> right) && (|s.queue| <= 1 && right ==> HeadRight(s))
  {
    StartInv(start, db);
    hide Tracked, Ruled, Start, Possible, Recalls, AfterSteps, Alone, FaithfullyShown, HeadRight, Waiting,
      Runs.AllApplied, Runs.Execute, Alike, ViewOf;
    StartRemembers(start, db);
    RunKeeps(start, steps);
    RunRemembers(start, steps);
    var s := AfterSteps(start, steps);
    InvHistory(s);
    hide Inv, Remembers, OnlyOwn;
    if Alone(s) && FaithfullyShown(s) && Waiting(s, acts) && Runs.AllApplied(Now(s), acts) {
      AloneIsOnlyOwn(s);
      QueueShown(s, acts);
    }
  }

  lemma StartRemembers(start: Sys, db: Db)
    requires Start(start, db)
    ensures Remembers(start.dbs, start.log, start.known, start.queue, start.store.roomSeq)
  {
  }

  lemma InvHistory(s: Sys)
    requires Inv(s)
    ensures History(s.dbs, s.log) && s.dbs != []
  {
  }

  lemma AnswersAlike(v: View, answered: seq<AnsweredSeq>)
    ensures Alike(ShowAnswers(v, answered), v)
  {
    hide ShowAnswers;
    AnswersChangeVersions(v, answered);
    var w := ShowAnswers(v, answered);
    forall l | l in v.lists ensures EraseList(w.lists[l]) == EraseList(v.lists[l]) {}
    forall u | u in v.items ensures EraseItem(w.items[u]) == EraseItem(v.items[u]) {
      assert w.items[u].(changedSeq := 0) == v.items[u].(changedSeq := 0);
    }
  }
}

/**
  Nothing gets stuck: whatever happened before, a page that is left alone with the server can send
  its whole queue, fetch, and then shows the room exactly.
 */
module CatchUp {
  import opened RoomModel
  import opened Tracking
  import opened Operations
  import opened RoomRules
  import opened ChangesFeed
  import opened Overlay
  import opened Rebase
  import opened RoomStores
  import opened Sync

  /** A step of the page or the server: no user, no other writer, no lost answer, no reload. */
  predicate Alone(step: Step) { !step.Act? && !step.Other? && !step.Lose? && !step.Reload? }

  ghost predicate Way(s: Sys, steps: seq<Step>, t: Sys) {
    Possible(s, steps) && AfterSteps(s, steps) == t && forall i :: 0 <= i < |steps| ==> Alone(steps[i])
  }

  ghost predicate Leads(s: Sys, t: Sys) { exists steps :: Way(s, steps, t) }

  lemma LeadsNowhere(s: Sys)
    ensures Leads(s, s)
  {
    assert Way(s, [], s);
  }

  lemma LeadsStep(s: Sys, step: Step)
    requires Shaped(s) && Can(s, step) && Alone(step)
    ensures Leads(s, Do(s, step))
  {
    hide Can, Do, Shaped;
    var t := Do(s, step);
    assert [step][0] == step && [step][1..] == [];
    assert Possible(t, []) && AfterSteps(t, []) == t;
    assert Possible(s, [step]) && AfterSteps(s, [step]) == t;
    assert Way(s, [step], t);
  }

  lemma {:induction false} BothWays(s: Sys, a: seq<Step>, b: seq<Step>)
    requires Possible(s, a) && Possible(AfterSteps(s, a), b)
    ensures Possible(s, a + b) && AfterSteps(s, a + b) == AfterSteps(AfterSteps(s, a), b)
    decreases |a|
  {
    hide Can, Do, Shaped;
    if a == [] {
      assert a + b == b;
    } else {
      BothWays(Do(s, a[0]), a[1..], b);
      assert (a + b)[0] == a[0] && (a + b)[1..] == a[1..] + b;
    }
  }

  lemma LeadsOn(s: Sys, t: Sys, u: Sys)
    requires Leads(s, t) && Leads(t, u)
    ensures Leads(s, u)
  {
    var a :| Way(s, a, t);
    var b :| Way(t, b, u);
    BothWays(s, a, b);
    hide Possible, AfterSteps, Alone;
    assert Way(s, a + b, u);
  }

  lemma InvShaped(s: Sys)
    requires Inv(s)
    ensures Shaped(s) && s.dbs != [] && (s.store.sending.Some? ==> Open(s)) && (s.queue == [] ==> s.store.sending.None?)
  {
    hide HeadOfLine, FrontOk, NotTwice, NotLost, LoadOk, DataOk, Rising, MirrorsAt, Tracked, Ruled, Follows;
  }

  /** One step of the way, which keeps the invariant. */
  lemma OneStep(s: Sys, step: Step)
    requires Inv(s) && Shaped(s) && Can(s, step) && Alone(step)
    ensures Inv(Do(s, step)) && Shaped(Do(s, step)) && Leads(s, Do(s, step))
  {
    hide Inv, Shaped, Can, Do, Leads;
    StepKeeps(s, step);
    LeadsStep(s, step);
    InvShaped(Do(s, step));
  }

  // There is always an answer, an ID that is free, and a plan

  lemma {:induction false} RowsOf<T(!new)>(m: map<Uid, T>) returns (rows: seq<(Uid, T)>)
    ensures Lists(rows, m)
    decreases |m|
  {
    if m == map[] {
      rows := [];
    } else {
      var u :| u in m;
      assert m == (m - {u})[u := m[u]];
      var rest := RowsOf(m - {u});
      rows := rest + [(u, m[u])];
    }
  }

  lemma {:induction false} RecordsOf(deletions: set<Deletion>) returns (rows: seq<(Kind, Uid)>)
    ensures Records(rows, deletions)
    decreases |deletions|
  {
    if deletions == {} {
      rows := [];
    } else {
      var d :| d in deletions;
      var rest := RecordsOf(deletions - {d});
      rows := rest + [(d.kind, d.uid)];
      forall r | r in rows ensures exists x :: x in deletions && r == (x.kind, x.uid) {
        if r in rest { var x :| x in deletions - {d} && r == (x.kind, x.uid); }
      }
      forall x | x in deletions ensures (x.kind, x.uid) in rows {
        if x != d { assert x in deletions - {d}; }
      }
    }
  }

  lemma FeedOf(db: Db, since: nat) returns (feed: Feed)
    ensures Answers(db, since, feed)
  {
    hide Lists, Records, NeedsFull, ChangedLists, ChangedItems;
    var lists := RowsOf(ChangedLists(db, since));
    var items := RowsOf(ChangedItems(db, since));
    var deletions: seq<(Kind, Uid)> := [];
    if !NeedsFull(db, since) { deletions := RecordsOf(After(db.deletions, since)); }
    feed := Feed(db.changeSeq, NeedsFull(db, since), db.name, lists, items, deletions);
  }

  lemma {:induction false} SeqOf(ids: set<Uid>) returns (order: seq<Uid>)
    ensures forall u :: u in ids ==> u in order
    decreases |ids|
  {
    if ids == {} {
      order := [];
    } else {
      var u :| u in ids;
      var rest := SeqOf(ids - {u});
      order := rest + [u];
      assert forall x :: x in ids ==> x == u || x in ids - {u};
    }
  }

  lemma SomeEnv(db: Db) returns (env: Env)
    ensures EnvOk(db, env) && env.elsewhere == {}
  {
    hide MaxSeq;
    var ids := db.lists.Keys + db.items.Keys + set d | d in db.deletions :: d.uid;
    var order := SeqOf(db.items.Keys);
    env := Env(0, 0, MaxSeq(ids) + 1, {}, order);
    forall d | d in db.deletions ensures d.uid in ids {}
    assert MaxSeq(ids) + 1 !in ids;
  }

  lemma SomePlan(s: Sys, answer: Answer) returns (rewritten: map<Uid, Op>)
    requires Inv(s) && s.queue != []
    ensures Plans(s, rewritten, answer)
  {
    hide History, Rising, Once, DataOk, Mirrors, FrontOk, NotTwice, NotLost, LoadOk, SendOk, Rewritten, WellFormed;
    var q, known := s.queue, Shown(s.store);
    hide Shown;
    rewritten := map i: int | 1 <= i < |q| && !q[i].tried ::
      q[i].sent.id := Rewritten(q[i].sent.op, q[0].sent.op, answer, known);
  }

  // The first op of the queue

  /** The ID that an add or a restore brings along. */
  function BroughtId(op: Op): Option<Uid> { if op.ItemAdd? || op.ItemRestore? then op.uid else None }

  lemma KeptRange(row: Hide, op: Op)
    requires op.ListVisibility? && WellFormed(op) && VisibleRange(row)
    ensures VisibleRange(Hide(Keep(op.hideMode, row.mode), Keep(op.ageDays, row.ageDays),
      Keep(op.recentCount, row.recentCount)))
  {
  }

  lemma MostAnswer(db: Db, op: Op, env: Env)
    requires IsProjected(op) && !op.ItemAdd? && !op.ItemRestore? && !op.ListVisibility?
    ensures !Handle(db, op, env).answer.HttpError?
  {
    hide CheckedName, MergeDue, NameTaken, ListNameTaken, Unresolved, BaseOk, Retag, PutList, PutItem, DropItems,
      Edited, ToggledTags, Unchecked;
  }

  lemma VisibilityAnswers(db: Db, op: Op, env: Env)
    requires Ruled(db) && WellFormed(op) && op.ListVisibility?
    ensures !Handle(db, op, env).answer.HttpError?
  {
    assert Handle(db, op, env) == SetVisibility(db, op.list, op);
    if op.list in db.lists {
      assert ListOk(db.lists[op.list]);
      KeptRange(db.lists[op.list].hide, op);
    }
    hide Handle, PutList, Ruled;
  }

  lemma NewItemAnswers(db: Db, op: Op, env: Env)
    requires (op.ItemAdd? || op.ItemRestore?) && !NewUidTaken(db, op.uid, env)
    ensures !Handle(db, op, env).answer.HttpError?
  {
    hide CheckedName, MergeDue, NameTaken, Unresolved, ItemsOf, InUse, RestoredItem, Unchecked, PutItem, NewUidTaken,
      Named, NewUid;
  }

  /** An op the page queues is answered outside the protocol only for an ID that is in use. */
  lemma FailsOnId(db: Db, op: Op, env: Env)
    requires Ruled(db) && EnvOk(db, env) && env.elsewhere == {} && WellFormed(op) && IsProjected(op)
    requires Handle(db, op, env).answer.HttpError?
    ensures BroughtId(op).Some? && InUse(db, BroughtId(op).value)
  {
    hide Ruled, Handle, InUse, WellFormed;
    if op.ListVisibility? {
      VisibilityAnswers(db, op, env);
    } else if op.ItemAdd? || op.ItemRestore? {
      if !NewUidTaken(db, op.uid, env) { NewItemAnswers(db, op, env); }
    } else {
      MostAnswer(db, op, env);
    }
  }

  /** Nothing was forgotten on the way. */
  predicate Grows(s: Sys, t: Sys) {
    s.done.Keys <= t.done.Keys && |s.dbs| <= |t.dbs| && t.dbs[..|s.dbs|] == s.dbs
  }

  /** The op was executed, or its new ID is in use. */
  ghost predicate Settled(s: Sys, e: QueueEntry) {
    e.sent.id in s.done || (BroughtId(e.sent.op).Some? && exists k ::
      0 <= k < |s.dbs| && InUse(s.dbs[k], BroughtId(e.sent.op).value))
  }

  lemma StaysSettled(s: Sys, t: Sys, e: QueueEntry)
    requires Grows(s, t) && Settled(s, e)
    ensures Settled(t, e)
  {
    hide InUse;
    if e.sent.id !in s.done {
      var k :| 0 <= k < |s.dbs| && InUse(s.dbs[k], BroughtId(e.sent.op).value);
      assert t.dbs[k] == t.dbs[..|s.dbs|][k];
    }
  }

  /** The request of the first op goes out. */
  lemma HeadSent(s: Sys) returns (t: Sys)
    requires Inv(s) && s.queue != []
    ensures Leads(s, t) && Inv(t) && Shaped(t) && Open(t) && t.queue[0].sent in t.net
    ensures t == s.(queue := t.queue, net := t.net, store := t.store)
    ensures t.queue == s.queue[0 := t.queue[0]] && t.queue[0].sent == s.queue[0].sent
  {
    InvShaped(s);
    hide Inv, Shaped, Leads;
    var u := s;
    LeadsNowhere(s);
    if s.store.sending.None? {
      u := Do(s, StartSend);
      OneStep(s, StartSend);
    }
    t := Do(u, Transmit);
    OneStep(u, Transmit);
    LeadsOn(s, u, t);
  }

  lemma HeadSendable(s: Sys)
    requires Inv(s) && s.queue != []
    ensures WellFormed(s.queue[0].sent.op) && IsProjected(s.queue[0].sent.op) && Ruled(Now(s))
  {
    hide Rising, Once, DataOk, Mirrors, FrontOk, NotTwice, NotLost, LoadOk, SendOk, WellFormed, Ruled, Tracked, Follows,
      DoneAs;
  }

  /** It arrives, and is executed unless its ID is in use. */
  lemma HeadArrived(s: Sys) returns (t: Sys)
    requires Inv(s) && Shaped(s) && Open(s) && s.queue[0].sent in s.net
    ensures Leads(s, t) && Inv(t) && Shaped(t) && Open(t) && Settled(t, s.queue[0]) && Grows(s, t)
    ensures t == s.(dbs := t.dbs, log := t.log, done := t.done)
  {
    hide Inv, Shaped, Leads, Handle, WellFormed, Ruled, EnvOk, InUse;
    var sent := s.queue[0].sent;
    if sent.id in s.done {
      t := s;
      LeadsNowhere(s);
    } else {
      HeadSendable(s);
      InvShaped(s);
      var env := SomeEnv(Now(s));
      t := Do(s, Deliver(sent, env));
      OneStep(s, Deliver(sent, env));
      if Handle(Now(s), sent.op, env).answer.HttpError? {
        FailsOnId(Now(s), sent.op, env);
        assert InUse(s.dbs[|s.dbs| - 1], BroughtId(sent.op).value);
      }
    }
  }

  /** The ops behind, as rewritten. */
  predicate SameOps(a: seq<QueueEntry>, b: seq<QueueEntry>) {
    |a| == |b| && forall i :: 0 <= i < |a| ==>
      b[i].sent.id == a[i].sent.id && BroughtId(b[i].sent.op) == BroughtId(a[i].sent.op)
  }

  lemma RewrittenBrings(op: Op, settled: Op, answer: Answer, known: View)
    ensures BroughtId(Rewritten(op, settled, answer, known)) == BroughtId(op)
  {
  }

  /** The answer, or the error, takes it from the queue. */
  lemma HeadGone(s: Sys) returns (t: Sys)
    requires Inv(s) && Shaped(s) && Open(s)
    ensures Leads(s, t) && Inv(t) && SameOps(s.queue[1..], t.queue) && t.dbs == s.dbs && t.done == s.done
  {
    hide Inv, Shaped, Leads, Shown, Rewritten;
    if s.queue[0].sent.id in s.done {
      var answer := StoredResponse(s, s.queue[0].sent.id).answer;
      var rewritten := SomePlan(s, answer);
      t := Do(s, Answer(rewritten));
      OneStep(s, Answer(rewritten));
      forall i | 0 <= i < |s.queue| - 1
        ensures t.queue[i].sent.id == s.queue[1..][i].sent.id
        ensures BroughtId(t.queue[i].sent.op) == BroughtId(s.queue[1..][i].sent.op)
      {
        RewrittenBrings(s.queue[i + 1].sent.op, s.queue[0].sent.op, answer, Shown(s.store));
      }
    } else {
      t := Do(s, Fail);
      OneStep(s, Fail);
    }
  }

  lemma SendsOne(s: Sys) returns (t: Sys)
    requires Inv(s) && s.queue != []
    ensures Leads(s, t) && Inv(t) && SameOps(s.queue[1..], t.queue) && Grows(s, t) && Settled(t, s.queue[0])
  {
    hide Inv, Shaped, Leads, Open, InUse;
    var sent := HeadSent(s);
    var arrived := HeadArrived(sent);
    t := HeadGone(arrived);
    LeadsOn(sent, arrived, t);
    LeadsOn(s, sent, t);
  }

  /** The whole queue. */
  lemma {:induction false} Drains(s: Sys) returns (t: Sys)
    requires Inv(s)
    ensures Leads(s, t) && Inv(t) && t.queue == [] && Grows(s, t) && forall e :: e in s.queue ==> Settled(t, e)
    decreases |s.queue|
  {
    hide Inv, Leads, BroughtId;
    if s.queue == [] {
      t := s;
      LeadsNowhere(s);
    } else {
      var u := SendsOne(s);
      t := Drains(u);
      LeadsOn(s, u, t);
      assert t.dbs[..|s.dbs|] == t.dbs[..|u.dbs|][..|s.dbs|];
      StaysSettled(u, t, s.queue[0]);
      forall e | e in s.queue ensures Settled(t, e) {
        if e != s.queue[0] {
          var i :| 0 <= i < |s.queue| - 1 && s.queue[1..][i] == e;
          assert u.queue[i] in u.queue;
          assert Settled(t, u.queue[i]);
        }
      }
    }
  }

  // The data

  /** A read that is under way comes to its end. */
  lemma LoadEnds(s: Sys) returns (t: Sys)
    requires Inv(s) && s.queue == []
    ensures Leads(s, t) && Inv(t) && t.load.Idle? && t == s.(store := t.store, load := Idle)
  {
    hide Inv, Leads, Answers, Shaped, AfterFeed;
    InvShaped(s);
    t := s;
    LeadsNowhere(s);
    if t.load.Asked? {
      var feed := FeedOf(Now(t), t.store.roomSeq);
      var u := Do(t, Compute(feed));
      OneStep(t, Compute(feed));
      LeadsOn(s, t, u);
      t := u;
    }
    if t.load.Computed? {
      var u := Do(t, Arrive);
      OneStep(t, Arrive);
      LeadsOn(s, t, u);
      t := u;
    }
    if t.load.Checked? {
      var u := Do(t, Apply);
      OneStep(t, Apply);
      LeadsOn(s, t, u);
      t := u;
    }
  }

  /** What an answer told of a version is not ahead of the room. */
  predicate AnswersPast(s: Sys)
    requires s.dbs != []
  {
    forall a | a in s.store.answered :: a.appliedSeq <= Now(s).changeSeq
  }

  lemma ResponsePast(s: Sys, id: Uid)
    requires Inv(s) && Shaped(s) && id in s.done
    ensures StoredResponse(s, id).roomSeq <= Now(s).changeSeq
  {
    hide Once, HeadOfLine, DataOk, Mirrors, FrontOk, NotTwice, NotLost, LoadOk, SendOk, Tracked, Ruled, Handle;
    FollowsAt(s.dbs, s.log, s.done[id]);
  }

  lemma AnsweredPast(s: Sys, op: Op, response: Response)
    requires s.dbs != [] && AnswersPast(s) && response.roomSeq <= Now(s).changeSeq
    ensures forall a :: a in WithAnswer(s.store.answered, op, response) ==> a.appliedSeq <= Now(s).changeSeq
  {
    match (NewSeq(response.answer), ChangedRow(op, response.answer))
    case (Some(_), Some(row)) => WithoutRowIs(s.store.answered, row);
    case _ =>
  }

  lemma StatesStay(s: Sys, step: Step)
    requires Shaped(s) && Can(s, step)
    ensures |s.dbs| <= |Do(s, step).dbs| && Do(s, step).dbs[..|s.dbs|] == s.dbs
  {
    hide Handle, AfterQueued, AfterAnswer, AfterFailure, AfterSilence, AfterFeed, AfterRewrites, Plans, Run, RunAllowed,
      Storable, Answers;
  }

  lemma RisesTo(dbs: seq<Db>, n: nat)
    requires Rising(dbs) && 0 < n <= |dbs|
    ensures dbs[n - 1].changeSeq <= dbs[|dbs| - 1].changeSeq
  {
  }

  lemma InvRises(s: Sys)
    requires Inv(s)
    ensures Rising(s.dbs)
  {
  }

  lemma NowRises(s: Sys, step: Step)
    requires Inv(s) && Shaped(s) && Can(s, step)
    ensures Do(s, step).dbs != [] && Now(s).changeSeq <= Now(Do(s, step)).changeSeq
  {
    hide Do, Can, Inv, Rising;
    var t := Do(s, step);
    StepKeeps(s, step);
    StatesStay(s, step);
    InvRises(t);
    RisesTo(t.dbs, |s.dbs|);
    assert t.dbs[|s.dbs| - 1] == t.dbs[..|s.dbs|][|s.dbs| - 1];
  }

  lemma AnswerPast(s: Sys, rewritten: map<Uid, Op>)
    requires Inv(s) && Shaped(s) && Can(s, Answer(rewritten)) && AnswersPast(s)
    ensures AnswersPast(Do(s, Answer(rewritten)))
  {
    var op := s.queue[0].sent;
    ResponsePast(s, op.id);
    AnsweredPast(s, op.op, StoredResponse(s, op.id));
    hide Inv, Plans, WithAnswer, Drop, Update;
  }

  lemma FewerAnswered(s: Store, feed: Feed)
    ensures forall a :: a in AfterFeed(s, feed).answered ==> a in s.answered
  {
    KeepNewerIs(s.answered, feed.roomSeq);
    hide Merged, DropReached, DropAnswered;
  }

  lemma AnsweredShrinks(s: Sys, step: Step)
    requires Shaped(s) && Can(s, step) && !step.Answer?
    ensures forall a :: a in Do(s, step).store.answered ==> a in s.store.answered
  {
    if step.Apply? { FewerAnswered(s.store, s.load.feed); }
    hide Handle, AfterFeed, Plans, Storable, Answers, Run, RunAllowed, Drop, MarkUncertain, ViewOf, HeadAnswered;
  }

  lemma StepPast(s: Sys, step: Step)
    requires Inv(s) && Shaped(s) && Can(s, step) && AnswersPast(s)
    ensures Do(s, step).dbs != [] && AnswersPast(Do(s, step))
  {
    hide Inv, Do, Can, Shaped;
    NowRises(s, step);
    if step.Answer? { AnswerPast(s, step.rewritten); } else { AnsweredShrinks(s, step); }
  }

  lemma {:induction false} RunPast(s: Sys, steps: seq<Step>)
    requires Inv(s) && s.dbs != [] && AnswersPast(s) && Possible(s, steps)
    ensures AfterSteps(s, steps).dbs != [] && AnswersPast(AfterSteps(s, steps))
    decreases |steps|
  {
    hide Inv, Can, Do, AnswersPast, Shaped;
    if steps != [] {
      StepPast(s, steps[0]);
      StepKeeps(s, steps[0]);
      RunPast(Do(s, steps[0]), steps[1..]);
    }
  }

  lemma LeadsPast(s: Sys, t: Sys)
    requires Inv(s) && s.dbs != [] && AnswersPast(s) && Leads(s, t)
    ensures t.dbs != [] && AnswersPast(t)
  {
    var steps :| Way(s, steps, t);
    RunPast(s, steps);
  }

  lemma OutrunLater(dbs: seq<Db>, log: seq<Event>, done: map<Uid, nat>, p: PendingOp, roomSeq: nat)
    requires Rising(dbs) && dbs != [] && Outrun(dbs, log, done, p, roomSeq)
    ensures roomSeq < dbs[|dbs| - 1].changeSeq
  {
  }

  /** With the newest data and an empty queue, nothing is pending. */
  lemma NothingPending(s: Sys)
    requires Inv(s) && s.dbs != [] && s.queue == [] && s.store.roomSeq == Now(s).changeSeq
    ensures s.store.pending == []
  {
    hide History, Rising, Once, HeadOfLine, DataOk, Mirrors, NotTwice, NotLost, LoadOk, SendOk, Outrun, InQueue;
    if s.store.pending != [] { OutrunLater(s.dbs, s.log, s.done, s.store.pending[0], s.store.roomSeq); }
  }

  lemma Asks(s: Sys)
    requires Shaped(s) && s.load.Idle? && s.store.sending.None?
    ensures Can(s, Ask) && Do(s, Ask) == s.(load := Asked)
  {
    hide Shaped;
  }

  lemma Computes(s: Sys, feed: Feed)
    requires Shaped(s) && s.load.Asked? && Answers(Now(s), s.store.roomSeq, feed)
    ensures Can(s, Compute(feed)) && Do(s, Compute(feed)) == s.(load := Computed(|s.log|, feed))
  {
    hide Answers;
  }

  lemma Arrives(s: Sys)
    requires Shaped(s) && s.load.Computed? && s.store.sending.None?
    ensures Can(s, Arrive) && Do(s, Arrive) == s.(load := Checked(s.load.k, s.load.feed))
  {
    hide Shaped;
  }

  /** The feed of now arrives. */
  lemma FeedComes(s: Sys) returns (t: Sys, feed: Feed)
    requires Inv(s) && Shaped(s) && s.queue == [] && s.load.Idle? && s.dbs != []
    ensures Leads(s, t) && Inv(t) && Shaped(t) && t == s.(load := Checked(|s.log|, feed))
    ensures |s.log| == |s.dbs| - 1 && feed.roomSeq == Now(s).changeSeq
  {
    InvShaped(s);
    feed := FeedOf(Now(s), s.store.roomSeq);
    hide Inv, Leads, Do, Can;
    var asked := s.(load := Asked);
    Asks(s);
    OneStep(s, Ask);
    var computed := s.(load := Computed(|s.log|, feed));
    Computes(asked, feed);
    OneStep(asked, Compute(feed));
    t := s.(load := Checked(|s.log|, feed));
    Arrives(computed);
    OneStep(computed, Arrive);
    hide Shaped, Answers;
    LeadsOn(s, asked, computed);
    LeadsOn(s, computed, t);
  }

  lemma AppliedStore(s: Store, feed: Feed)
    requires s.roomSeq <= AfterFeed(s, feed).roomSeq && AfterFeed(s, feed).roomSeq == feed.roomSeq
    ensures forall a :: a in AfterFeed(s, feed).answered ==> a.appliedSeq > feed.roomSeq || s.roomSeq > feed.roomSeq
    ensures AfterFeed(s, feed).answered == KeepNewer(s.answered, feed.roomSeq)
  {
    KeepNewerIs(s.answered, feed.roomSeq);
    hide Merged, DropReached, DropAnswered;
  }

  /** One read of the feed. */
  lemma Fetches(s: Sys) returns (t: Sys)
    requires Inv(s) && Shaped(s) && s.queue == [] && s.load.Idle? && s.dbs != []
    ensures Leads(s, t) && Inv(t) && t == s.(store := t.store)
    ensures t.store.server == ViewOf(Now(s)) && t.store.roomSeq == Now(s).changeSeq
    ensures forall a :: a in t.store.answered ==> a.appliedSeq > t.store.roomSeq
  {
    hide Inv, Leads, Answers, Shaped, ViewOf, AfterFeed, DropReached, KeepNewer;
    var u, feed := FeedComes(s);
    ApplyData(u);
    t := Do(u, Apply);
    OneStep(u, Apply);
    LeadsOn(s, u, t);
    AppliedStore(u.store, feed);
  }

  /** An empty queue and the newest data: the page shows the room. */
  lemma ShowsRoom(s: Sys)
    requires s.dbs != [] && s.store.pending == [] && s.store.server == ViewOf(Now(s))
    requires AnswersPast(s) && forall a :: a in s.store.answered ==> a.appliedSeq > Now(s).changeSeq
    ensures Shown(s.store) == ViewOf(Now(s))
  {
    FirstIn(s.store.answered);
  }

  lemma CatchesUp(s: Sys) returns (t: Sys)
    requires Inv(s) && s.dbs != [] && AnswersPast(s)
    ensures Leads(s, t) && t.queue == [] && t.store.pending == [] && t.dbs != [] && Shown(t.store) == ViewOf(Now(t))
    ensures Grows(s, t) && forall e :: e in s.queue ==> Settled(t, e)
  {
    hide Leads, Inv, Shaped, Shown, ViewOf, AnswersPast, InUse;
    var drained := Drains(s);
    var idle := LoadEnds(drained);
    InvShaped(idle);
    t := Fetches(idle);
    LeadsOn(s, drained, idle);
    LeadsOn(s, idle, t);
    LeadsPast(s, t);
    NothingPending(t);
    ShowsRoom(t);
    forall e | e in s.queue ensures Settled(t, e) { assert Settled(drained, e); }
  }

  /**
    From every state that any run reaches, the page and the server alone can go on to a state in
    which the queue is empty and the page shows exactly the room: every queued op was executed, or
    brought an ID that was in use, and what was executed before stays so.
   */
  lemma PageCatchesUp(start: Sys, db: Db, steps: seq<Step>)
    requires Tracked(db) && Ruled(db) && Start(start, db) && Possible(start, steps)
    ensures var s := AfterSteps(start, steps); exists t ::
      && Leads(s, t) && t.queue == [] && t.store.pending == [] && t.dbs != [] && Shown(t.store) == ViewOf(Now(t))
      && Grows(s, t) && forall e :: e in s.queue ==> Settled(t, e)
  {
    StartInv(start, db);
    hide Inv, Possible, AfterSteps, Leads, Tracked, Ruled;
    RunKeeps(start, steps);
    RunPast(start, steps);
    var t := CatchesUp(AfterSteps(start, steps));
  }
}

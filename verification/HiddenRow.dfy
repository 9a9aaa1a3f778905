/**
  A page conflicts with itself without deleting anything: a late feed brings another device's open
  item of the same name, which hides the row the page just added.
 */
module HiddenRow {
  import opened RoomModel
  import T = Texts
  import opened Tracking
  import opened Operations
  import opened RoomRules
  import opened ChangesFeed
  import opened Overlay
  import opened Rebase
  import opened RoomStores
  import opened Sync
  import opened Counterexamples
  import N = NoSelfConflict

  /**
    The page loads `d0`. Another device adds an open item `other` (`theirs`, to `d1`), the server
    computes a feed, and the item is gone again (`undone`, to `d2`). Then the server executes the
    page's add of `u` (to `d3`).
   */
  datatype Scene = Scene(
    d0: Db, d1: Db, d2: Db, d3: Db, theirs: seq<Stmt>, undone: seq<Stmt>, l: Uid, raw: string, u: Uid, other: Uid,
    adding: Env, env: Env, feed: Feed, name: string)

  function Key(c: Scene): string { T.NameKey(T.Strip(c.raw)) }
  function Add(c: Scene): SentOp { SentOp(0, ItemAdd(c.l, c.raw, Some(c.u))) }

  /** What others do, and the feed with it. */
  ghost predicate OthersAct(c: Scene) {
    && RunAllowed(c.d0, c.theirs) && c.d1 == Run(c.d0, c.theirs) && Ruled(c.d1)
    && RunAllowed(c.d1, c.undone) && c.d2 == Run(c.d1, c.undone) && Ruled(c.d2)
    && Answers(c.d1, c.d0.changeSeq, c.feed)
  }

  ghost predicate Happens(c: Scene) {
    && Tracked(c.d0) && Ruled(c.d0) && OthersAct(c)
    && c.l in c.d0.lists && !NameUsed(c.d0.items, c.l, Key(c)) && c.u !in c.d0.items
    && c.u !in c.d1.items && SameName(c.d1.items, c.other, c.l, Key(c)) && !c.d1.items[c.other].done
    && c.u !in c.d2.items && EnvOk(c.d2, c.adding) && Handle(c.d2, Add(c).op, c.adding).answer.Applied?
    && c.d3 == Handle(c.d2, Add(c).op, c.adding).db && c.u in c.d3.items && EnvOk(c.d3, c.env)
    && T.Strip(c.name) != [] && |T.Strip(c.name)| <= MAX_NAME_LENGTH && T.Strip(c.name) != T.Strip(c.raw)
  }

  /** The add makes a new row at the next seq. */
  lemma AddedRow(c: Scene)
    requires Happens(c)
    ensures c.d3 == PutItem(c.d2, c.u, NewItem(c.l, T.Strip(c.raw)).(addedAt := Some(c.adding.now)))
    ensures Handle(c.d2, Add(c).op, c.adding) == Outcome(c.d3, Applied(Some(c.d3.changeSeq), Some(c.u)))
    ensures c.d3.changeSeq == c.d2.changeSeq + 1 && N.Renamable(c.d3, c.l, c.u, c.name)
    ensures c.d3.items[c.u].changedSeq == c.d3.changeSeq
  {
    hide OthersAct, Ruled, Tracked, EnvOk, T.Strip;
  }

  lemma SeqsRise(c: Scene)
    requires Happens(c)
    ensures c.d0.changeSeq <= c.d1.changeSeq < c.d3.changeSeq
    ensures Merged(ViewOf(c.d0), c.feed) == ViewOf(c.d1) && c.feed.roomSeq == c.d1.changeSeq
  {
    AddedRow(c);
    hide Ruled, Answers, EnvOk, Run, RunAllowed, Tracked, T.Strip, Handle, N.Renamable, SameName, NameUsed;
    RunTracked(c.d0, c.theirs);
    RunTracked(c.d1, c.undone);
    FeedConvergence(c.d0, c.theirs, c.feed);
  }

  // The states

  /** The op waits; the feed that knows the other item is on its way, and the item is gone. */
  ghost function Queued(c: Scene): Sys {
    Sys([c.d0, c.d1, c.d2], [Others(c.theirs), Others(c.undone)], map[], [QueueEntry(Add(c), c.adding.now, false)], {},
        Store(ViewOf(c.d0), c.d0.changeSeq, [PendingOp(Add(c), c.adding.now, None, false)], [], None),
        Computed(1, c.feed), {})
  }

  ghost function AddExecution(c: Scene): Execution {
    Execution(Add(c), c.adding, Response(Applied(Some(c.d3.changeSeq), Some(c.u)), c.d3.changeSeq))
  }

  /** The add was executed, and its answer is under way. */
  ghost function AddDone(c: Scene): Sys {
    Sys([c.d0, c.d1, c.d2, c.d3], [Others(c.theirs), Others(c.undone), Own(AddExecution(c))], map[0 := 2],
        [QueueEntry(Add(c), c.adding.now, true)], {Add(c)}, Queued(c).store.(sending := Some(0)), Computed(1, c.feed),
        {})
  }

  /** The add was answered: the page shows the row with its version. */
  ghost function Added(c: Scene): Sys
  {
    Sys([c.d0, c.d1, c.d2, c.d3], [Others(c.theirs), Others(c.undone), Own(AddExecution(c))], map[0 := 2], [], {Add(c)},
        Store(ViewOf(c.d0), c.d0.changeSeq, [PendingOp(Add(c), c.adding.now, Some(c.d3.changeSeq), false)],
          [AnsweredSeq(ItemRow(c.u), c.d3.changeSeq, c.d3.changeSeq)], None),
        Computed(1, c.feed), {0})
  }

  function Delta(c: Scene): SentOp { SentOp(1, N.PlusOne(c.l, c.u)) }
  function Edit(c: Scene): SentOp
  {
    SentOp(2, N.Renaming(c.l, c.u, c.name, c.d3.changeSeq))
  }

  /** Quantity + 1 and an edit of the shown row are queued. */
  ghost function Edited(c: Scene): Sys
  {
    var s := Added(c);
    s.(queue := [QueueEntry(Delta(c), c.env.now, false), QueueEntry(Edit(c), c.env.now, false)],
       store := s.store.(pending := s.store.pending
         + [PendingOp(Delta(c), c.env.now, None, false), PendingOp(Edit(c), c.env.now, None, false)]))
  }

  /** The late feed was applied. */
  ghost function Fed(c: Scene): Sys
  {
    var s := Edited(c);
    s.(store := s.store.(server := ViewOf(c.d1), roomSeq := c.d1.changeSeq), load := Idle)
  }

  // The steps

  lemma QueuedSteps(c: Scene)
    requires Happens(c)
    ensures var s := Made(c.d0, [Add(c).op], c.adding.now);
      && Shaped(s) && Can(s, Ask)
      && var s1 := Do(s, Ask);
      && Shaped(s1) && Can(s1, Other(c.theirs))
      && var s2 := Do(s1, Other(c.theirs));
      && Shaped(s2) && Can(s2, Compute(c.feed))
      && var s3 := Do(s2, Compute(c.feed));
      && Shaped(s3) && Can(s3, Other(c.undone))
      && Do(s3, Other(c.undone)) == Queued(c)
  {
    hide Handle, Ruled, Tracked, Run, RunAllowed, ViewOf, EnvOk, Plans, Storable, Answers, AfterFeed, Fresh, SameName,
      NameUsed, T.Strip;
    var s := Made(c.d0, [Add(c).op], c.adding.now);
    assert s.queue == [QueueEntry(Add(c), c.adding.now, false)];
    assert s.store.pending == [PendingOp(Add(c), c.adding.now, None, false)];
  }

  lemma QueuedRun(c: Scene, start: Sys, rest: seq<Step>)
    requires Happens(c) && Start(start, c.d0) && Possible(Queued(c), rest)
    ensures Possible(start, Waiting(c) + rest) && AfterSteps(start, Waiting(c) + rest) == AfterSteps(Queued(c), rest)
  {
    hide *;
    QueuedSteps(c);
    AddFits(c);
    MadeOne(c.d0, start, Add(c).op, c.adding.now);
    var s := Made(c.d0, [Add(c).op], c.adding.now);
    var s1 := Do(s, Ask);
    var s2 := Do(s1, Other(c.theirs));
    var s3 := Do(s2, Compute(c.feed));
    OneStep(s3, Other(c.undone), rest);
    OneStep(s2, Compute(c.feed), [Other(c.undone)] + rest);
    OneStep(s1, Other(c.theirs), [Compute(c.feed)] + ([Other(c.undone)] + rest));
    OneStep(s, Ask, [Other(c.theirs)] + ([Compute(c.feed)] + ([Other(c.undone)] + rest)));
    OneStep(start, Act(Add(c), c.adding.now),
      [Ask] + ([Other(c.theirs)] + ([Compute(c.feed)] + ([Other(c.undone)] + rest))));
    WaitingOneByOne(c, rest);
  }

  lemma AddFits(c: Scene)
    ensures WellFormed(Add(c).op) && IsProjected(Add(c).op) && Add(c) == SentOp(0, Add(c).op)
  {
  }

  function Waiting(c: Scene): seq<Step> {
    [Act(Add(c), c.adding.now), Ask, Other(c.theirs), Compute(c.feed), Other(c.undone)]
  }

  lemma WaitingOneByOne(c: Scene, rest: seq<Step>)
    ensures Waiting(c) + rest == [Act(Add(c), c.adding.now)] + ([Ask] + ([Other(c.theirs)] + ([Compute(c.feed)]
      + ([Other(c.undone)] + rest))))
  {
  }

  lemma DeliverState(c: Scene)
    requires Handle(c.d2, Add(c).op, c.adding) == Outcome(c.d3, Applied(Some(c.d3.changeSeq), Some(c.u)))
    ensures Delivered(Sending(Queued(c)), Add(c), c.adding) == AddDone(c) && Shaped(Sending(Queued(c)))
    ensures Now(Sending(Queued(c))) == c.d2 && Add(c) in Sending(Queued(c)).net
  {
    hide Handle, ViewOf;
    assert Sending(Queued(c)).queue == [QueueEntry(Add(c), c.adding.now, true)];
  }

  lemma SceneFacts(c: Scene)
    requires Happens(c)
    ensures EnvOk(c.d2, c.adding) && EnvOk(c.d3, c.env)
  {
    hide EnvOk, Handle, OthersAct;
  }

  lemma CanDeliver(s: Sys, sent: SentOp, env: Env)
    requires Shaped(s) && sent in s.net && WellFormed(sent.op) && EnvOk(Now(s), env)
    ensures Can(s, Deliver(sent, env)) && Do(s, Deliver(sent, env)) == Delivered(s, sent, env)
  {
    hide Shaped, WellFormed, EnvOk, Delivered;
  }

  lemma DeliverStep(c: Scene)
    requires Happens(c)
    ensures var s := Sending(Queued(c));
      Shaped(s) && Can(s, Deliver(Add(c), c.adding)) && Do(s, Deliver(Add(c), c.adding)) == AddDone(c)
  {
    hide *;
    AddedRow(c);
    AddFits(c);
    SceneFacts(c);
    DeliverState(c);
    QueuedShaped(c);
    CanDeliver(Sending(Queued(c)), Add(c), c.adding);
  }

  lemma AnswerStore(c: Scene)
    requires c.d0.changeSeq < c.d3.changeSeq
    ensures AfterRewrites(AfterAnswer(AddDone(c).store, Add(c), AddExecution(c).response), map[]) == Added(c).store
  {
    hide ViewOf;
    assert WithoutRow([], ItemRow(c.u)) == [];
  }

  lemma AnswerState(c: Scene)
    requires c.d0.changeSeq < c.d3.changeSeq
    ensures HeadAnswered(AddDone(c), AddExecution(c).response, map[]) == Added(c) && Shaped(AddDone(c))
    ensures Open(AddDone(c)) && AddDone(c).queue[0].sent.id in AddDone(c).done && |AddDone(c).queue| == 1
    ensures StoredResponse(AddDone(c), 0) == AddExecution(c).response && AddDone(c).queue[0].sent.id == 0
  {
    AnswerStore(c);
    hide ViewOf, AfterRewrites, AfterAnswer;
    assert RewriteQueue(AddDone(c).queue[1..], map[]) == [];
  }

  lemma CanAnswer(s: Sys)
    requires Shaped(s) && Open(s) && s.queue[0].sent.id in s.done && |s.queue| == 1
    ensures Can(s, Answer(map[]))
    ensures Do(s, Answer(map[])) == HeadAnswered(s, StoredResponse(s, s.queue[0].sent.id), map[])
  {
    hide Shaped, HeadAnswered, StoredResponse, Rewritten, Shown;
  }

  lemma AddAnswered(c: Scene)
    requires Happens(c)
    ensures Shaped(AddDone(c)) && Can(AddDone(c), Answer(map[])) && Do(AddDone(c), Answer(map[])) == Added(c)
  {
    hide *;
    SeqsRise(c);
    AnswerState(c);
    CanAnswer(AddDone(c));
  }

  function Answering(c: Scene): seq<Step> { [StartSend, Transmit, Deliver(Add(c), c.adding), Answer(map[])] }

  lemma AddRun(c: Scene, rest: seq<Step>)
    requires Happens(c) && Possible(Added(c), rest)
    ensures Possible(Queued(c), Answering(c) + rest)
    ensures AfterSteps(Queued(c), Answering(c) + rest) == AfterSteps(Added(c), rest)
  {
    QueuedShaped(c);
    var s := Sending(Queued(c));
    hide *;
    DeliverStep(c);
    AddAnswered(c);
    OneStep(AddDone(c), Answer(map[]), rest);
    OneStep(s, Deliver(Add(c), c.adding), [Answer(map[])] + rest);
    SendHead(Queued(c), [Deliver(Add(c), c.adding)] + ([Answer(map[])] + rest));
    AnsweringOneByOne(c, rest);
  }

  lemma AnsweringOneByOne(c: Scene, rest: seq<Step>)
    ensures Answering(c) + rest
      == [StartSend] + ([Transmit] + ([Deliver(Add(c), c.adding)] + ([Answer(map[])] + rest)))
  {
  }

  lemma QueuedShaped(c: Scene)
    ensures Shaped(Queued(c)) && Queued(c).queue != [] && Queued(c).store.sending.None?
  {
    hide ViewOf;
  }

  function Editing(c: Scene): seq<Step> { [Act(Delta(c), c.env.now), Act(Edit(c), c.env.now), Arrive, Apply] }

  lemma EditSteps(c: Scene)
    requires Happens(c)
    ensures var s := Added(c);
      && Shaped(s) && Can(s, Act(Delta(c), c.env.now))
      && var s1 := Do(s, Act(Delta(c), c.env.now));
      && Shaped(s1) && Can(s1, Act(Edit(c), c.env.now))
      && Do(s1, Act(Edit(c), c.env.now)) == Edited(c)
  {
    hide Happens, ViewOf;
    var s := Added(c);
    var s1 := Do(s, Act(Delta(c), c.env.now));
    assert s.store.pending + [PendingOp(Delta(c), c.env.now, None, false)]
        + [PendingOp(Edit(c), c.env.now, None, false)]
      == Edited(c).store.pending;
  }

  lemma FeedStore(c: Scene)
    requires c.d0.changeSeq <= c.d1.changeSeq < c.d3.changeSeq
    requires Merged(ViewOf(c.d0), c.feed) == ViewOf(c.d1) && c.feed.roomSeq == c.d1.changeSeq
    ensures AfterFeed(Edited(c).store, c.feed) == Fed(c).store
  {
    hide ViewOf, Merged, Delta, Edit, Add;
    KeepAll(Edited(c).store.pending, c.d1.changeSeq);
    KeepOne(Edited(c).store.answered[0], c.d1.changeSeq);
  }

  lemma FeedShapes(c: Scene)
    ensures Shaped(Edited(c)) && Edited(c).load == Computed(1, c.feed) && Edited(c).store.sending.None?
    ensures Fed(c) == Edited(c).(load := Idle, store := Fed(c).store)
  {
    hide ViewOf, Delta, Edit;
  }

  lemma CanApply(s: Sys)
    requires Shaped(s) && s.load.Computed? && s.store.sending.None?
    ensures Can(s, Arrive) && Shaped(Do(s, Arrive)) && Can(Do(s, Arrive), Apply)
    ensures Do(Do(s, Arrive), Apply) == s.(load := Idle, store := AfterFeed(s.store, s.load.feed))
  {
    hide AfterFeed;
  }

  lemma FeedSteps(c: Scene)
    requires Happens(c)
    ensures var s := Edited(c);
      && Shaped(s) && Can(s, Arrive) && Shaped(Do(s, Arrive)) && Can(Do(s, Arrive), Apply)
      && Do(Do(s, Arrive), Apply) == Fed(c)
  {
    hide *;
    SeqsRise(c);
    FeedStore(c);
    FeedShapes(c);
    CanApply(Edited(c));
  }

  lemma KeepOne(a: AnsweredSeq, roomSeq: nat)
    requires a.appliedSeq > roomSeq
    ensures KeepNewer([a], roomSeq) == [a]
  {
    assert [a][..0] == [];
  }

  lemma {:induction false} KeepAll(pending: seq<PendingOp>, roomSeq: nat)
    requires forall p :: p in pending ==> !Reached(p, roomSeq)
    ensures DropReached(pending, roomSeq) == pending
  {
    if pending != [] { KeepAll(pending[..|pending| - 1], roomSeq); }
  }

  lemma EditRun(c: Scene, rest: seq<Step>)
    requires Happens(c) && Possible(Fed(c), rest)
    ensures Possible(Added(c), Editing(c) + rest) && AfterSteps(Added(c), Editing(c) + rest) == AfterSteps(Fed(c), rest)
  {
    hide *;
    EditSteps(c);
    FeedSteps(c);
    var s, act, edit := Added(c), Act(Delta(c), c.env.now), Act(Edit(c), c.env.now);
    OneStep(Do(Edited(c), Arrive), Apply, rest);
    OneStep(Edited(c), Arrive, [Apply] + rest);
    OneStep(Do(s, act), edit, [Arrive] + ([Apply] + rest));
    OneStep(s, act, [edit] + ([Arrive] + ([Apply] + rest)));
    EditingOneByOne(c, rest);
  }

  lemma EditingOneByOne(c: Scene, rest: seq<Step>)
    ensures Editing(c) + rest
      == [Act(Delta(c), c.env.now)] + ([Act(Edit(c), c.env.now)] + ([Arrive] + ([Apply] + rest)))
  {
  }

  lemma NewRowShown(v: View, c: Scene)
    requires c.l in v.lists && c.u !in v.items && !NameUsed(v.items, c.l, Key(c))
    ensures c.u in Project(v, Add(c).op, c.adding.now).items
  {
    hide T.Strip, T.NameKey, NameUsed;
    if NameOpen(v.items, c.l, Key(c)) {
      var x :| x in v.items && SameName(v.items, x, c.l, Key(c)) && !v.items[x].done;
      UsedName(v.items, x, c.l, Key(c));
    }
  }

  lemma UsedName(items: map<Uid, Item>, u: Uid, l: Uid, key: string)
    requires SameName(items, u, l, key)
    ensures NameUsed(items, l, key)
  {
  }

  lemma PublishedFree(db: Db, l: Uid, key: string)
    ensures NameUsed(ViewOf(db).items, l, key) ==> NameUsed(db.items, l, key)
  {
    hide T.NameKey;
    var items := ViewOf(db).items;
    if NameUsed(items, l, key) {
      var u :| u in items && SameName(items, u, l, key);
      UsedName(db.items, u, l, key);
    }
  }

  lemma OneAnswerShown(v: View, u: Uid, seq0: nat, at: nat)
    requires u in v.items
    ensures KnownSeq(ShowAnswers(v, [AnsweredSeq(ItemRow(u), seq0, at)]), ItemRow(u)) == Some(seq0)
  {
    var a := AnsweredSeq(ItemRow(u), seq0, at);
    assert [a][..0] == [] && ShowAnswers(v, []) == v;
  }

  /** Before the feed the page shows the row with the version the edit expects. */
  lemma ShownBefore(c: Scene)
    requires Happens(c)
    ensures KnownSeq(Shown(Added(c).store), ItemRow(c.u)) == Some(c.d3.changeSeq)
  {
    PublishedFree(c.d0, c.l, Key(c));
    var v, p := ViewOf(c.d0), PendingOp(Add(c), c.adding.now, Some(c.d3.changeSeq), false);
    assert c.l in v.lists && c.u !in v.items;
    hide Happens, Project, ShowAnswers, ViewOf;
    NewRowShown(v, c);
    assert [p][..0] == [] && ProjectAll(v, [p]) == Project(v, p.sent.op, p.at);
    OneAnswerShown(Project(v, p.sent.op, p.at), c.u, c.d3.changeSeq, c.d3.changeSeq);
  }

  lemma FedShape(c: Scene)
    ensures var s := Fed(c);
      && Shaped(s) && s.store.sending.None? && Now(s) == c.d3 && s.store.roomSeq == c.d1.changeSeq
      && s.queue == [QueueEntry(Delta(c), c.env.now, false), QueueEntry(Edit(c), c.env.now, false)]
      && s.done == map[0 := 2]
  {
    hide ViewOf, Delta, Edit;
  }

  /** What `StaleReady` asks for, with two ops queued. */
  lemma TwoReady(s: Sys, l: Uid, u: Uid, name: string, env: Env, delta: QueueEntry, edit: QueueEntry)
    requires Shaped(s) && s.store.sending.None? && s.store.roomSeq <= Now(s).changeSeq && EnvOk(Now(s), env)
    requires N.Renamable(Now(s), l, u, name) && u !in Shown(s.store).items && s.queue == [delta, edit]
    requires delta.sent.op == N.PlusOne(l, u) && edit.sent.op == N.Renaming(l, u, name, Now(s).items[u].changedSeq)
    requires delta.sent.id != edit.sent.id && delta.sent.id !in s.done && edit.sent.id !in s.done
      && !delta.tried && !edit.tried
    ensures StaleReady(s, l, u, name, env)
  {
    hide Shaped, EnvOk, N.Renamable, N.Renaming, N.PlusOne, Shown;
  }

  lemma TwoOps(c: Scene)
    ensures Delta(c).op == N.PlusOne(c.l, c.u) && Edit(c).op == N.Renaming(c.l, c.u, c.name, c.d3.changeSeq)
    ensures Delta(c).id == 1 && Edit(c).id == 2
  {
  }

  lemma FedReady(c: Scene)
    requires Happens(c)
    ensures StaleReady(Fed(c), c.l, c.u, c.name, c.env)
  {
    hide *;
    AddedRow(c);
    SeqsRise(c);
    SceneFacts(c);
    FedHides(c);
    FedShape(c);
    TwoOps(c);
    TwoReady(Fed(c), c.l, c.u, c.name, c.env, Fed(c).queue[0], Fed(c).queue[1]);
  }

  lemma FedHides(c: Scene)
    requires Happens(c)
    ensures c.u !in Shown(Fed(c).store).items
  {
    hide OthersAct, Ruled, Tracked, EnvOk, Handle, T.Strip, T.NameKey, ProjectAll, ShowAnswers, NameUsed;
    var v, ps := ViewOf(c.d1), Fed(c).store.pending;
    assert SameName(v.items, c.other, c.l, Key(c)) && !v.items[c.other].done;
    N.NewRowHidden(v, ps, c.l, c.u, c.other, c.raw);
    AnswersChangeVersions(ProjectAll(v, ps), Fed(c).store.answered);
  }

  function HiddenRun(c: Scene, fed: Sys): seq<Step>
    requires |fed.queue| >= 2
  {
    Waiting(c) + (Answering(c) + (Editing(c) + StaleRun(fed, c.env)))
  }

  /**
    A page conflicts with itself, with no delete: it adds a row, which is executed and answered, and
    queues quantity + 1 and an edit of the row as it shows it. A late feed then brings another
    device's open item of the name, gone from the server already, which hides the row. Every request
    is answered, and the edit is refused because the row changed meanwhile.
   */
  lemma HiddenRowConflicts(c: Scene, start: Sys)
    requires Happens(c) && Start(start, c.d0)
    ensures KnownSeq(Shown(Added(c).store), ItemRow(c.u)) == BaseOf(Edit(c).op)
    ensures |Fed(c).queue| >= 2
    ensures Possible(start, HiddenRun(c, Fed(c)))
    ensures !N.NoConflict(AfterSteps(start, HiddenRun(c, Fed(c))).log, {c.u})
  {
    hide *;
    FedReady(c);
    FedShape(c);
    ShownBefore(c);
    EditBase(c);
    var stale := StaleRun(Fed(c), c.env);
    StaleQueueConflicts(Fed(c), c.l, c.u, c.name, c.env);
    EditRun(c, stale);
    AddRun(c, Editing(c) + stale);
    QueuedRun(c, start, Answering(c) + (Editing(c) + stale));
    RunParts(c);
  }

  lemma EditBase(c: Scene)
    ensures BaseOf(Edit(c).op) == Some(c.d3.changeSeq)
  {
  }

  lemma RunParts(c: Scene)
    ensures |Fed(c).queue| >= 2
    ensures HiddenRun(c, Fed(c)) == Waiting(c) + (Answering(c) + (Editing(c) + StaleRun(Fed(c), c.env)))
  {
    hide StaleRun, Waiting, Answering, Editing;
  }
}

/**
  A page does not conflict with itself: while every request is answered and nobody else writes
  its rows, rebasing keeps the version each queued op expects equal to the server's.
 */
module NoSelfConflict {
  import opened RoomModel
  import T = Texts
  import opened Tracking
  import opened Operations
  import opened RoomRules
  import opened ChangesFeed
  import opened Overlay
  import opened Rebase
  import opened RoomStores
  import opened Sync
  import S = SequentialServer

  /** The row's version; 0 for a row that is not there, like the page's placeholder. */
  function Version(db: Db, u: Uid): nat { if u in db.items then db.items[u].changedSeq else 0 }

  /** Ops that write no row of `rows` but the one they name, and do not delete it; new rows are in `rows`. */
  predicate Gentle(op: Op, rows: set<Uid>) {
    && !op.ListDelete? && !op.ListTagRename? && !op.ListTagSettings?
    && (op.ItemDelete? ==> op.item !in rows)
    && (op.ItemAdd? || op.ItemRestore? ==> op.uid.Some? && op.uid.value in rows)
  }

  // What the server does to a row

  predicate NamesVersion(db: Db, op: Op, out: Outcome, u: Uid) {
    var named := out.answer.Applied? && ChangedRow(op, out.answer) == Some(ItemRow(u)) && NewSeq(out.answer).Some?;
    && (Version(out.db, u) != Version(db, u) ==> named)
    && (named ==> NewSeq(out.answer).value == Version(out.db, u))
  }

  lemma ListOpsLeaveItems(db: Db, op: Op, env: Env)
    requires !op.ListDelete? && !op.ListTagRename? && !op.ListTagSettings? && RowOf(op) != None
      && RowOf(op).value.ListRow?
    ensures Handle(db, op, env).db.items == db.items
  {
    hide CheckedName, ListNameTaken;
  }

  lemma AddNamesVersion(db: Db, op: Op, env: Env, u: Uid)
    requires op.ItemAdd?
    ensures NamesVersion(db, op, Handle(db, op, env), u)
  {
    hide CheckedName, InUse, ItemsOf, Unchecked, NewItem;
  }

  lemma RestoreNamesVersion(db: Db, op: Op, env: Env, u: Uid)
    requires op.ItemRestore?
    ensures NamesVersion(db, op, Handle(db, op, env), u)
  {
    hide CheckedName, MergeDue, CheckedDue, Unresolved, NameTaken, InUse, ItemsOf, RestoredItem;
  }

  lemma WriteNamesVersion(db: Db, op: Op, env: Env, u: Uid)
    requires op.ItemSetDone? || op.ItemQuantityDelta? || op.ItemEdit? || op.ItemToggleTag?
    ensures NamesVersion(db, op, Handle(db, op, env), u)
  {
    hide CheckedName, MergeDue, CheckedDue, Unresolved, NameTaken, Edited, Unchecked, ToggledTags;
  }

  /** A row's version moves only with the op's own row, and the answer names the new one. */
  lemma AnswerNamesVersion(db: Db, op: Op, env: Env, rows: set<Uid>, u: Uid)
    requires Gentle(op, rows) && u in rows
    ensures NamesVersion(db, op, Handle(db, op, env), u)
  {
    if op.ItemAdd? {
      AddNamesVersion(db, op, env, u);
    } else if op.ItemRestore? {
      RestoreNamesVersion(db, op, env, u);
    } else if op.ItemSetDone? || op.ItemQuantityDelta? || op.ItemEdit? || op.ItemToggleTag? {
      WriteNamesVersion(db, op, env, u);
    } else if RowOf(op).Some? && RowOf(op).value.ListRow? {
      ListOpsLeaveItems(db, op, env);
      hide Handle;
    }
    hide RenameRoom, CreateList;
    RoomOpsLeaveItems(db, op, env);
  }

  lemma RoomOpsLeaveItems(db: Db, op: Op, env: Env)
    ensures op.RoomRename? || op.ListCreate? ==> Handle(db, op, env).db.items == db.items
  {
  }

  lemma NewRowIsNew(db: Db, op: Op, env: Env)
    requires op.ItemAdd? && op.uid.Some? && !Handle(db, op, env).answer.HttpError?
    ensures op.uid.value !in db.items
    ensures Handle(db, op, env).answer.Applied? ==>
      NewSeq(Handle(db, op, env).answer).Some? && KeptItem(Handle(db, op, env).answer).Some?
    ensures Handle(db, op, env).answer.Rejected? && KeptItem(Handle(db, op, env).answer).Some? ==>
      KeptItem(Handle(db, op, env).answer).value in db.items
  {
    hide CheckedName, ItemsOf, Unchecked;
  }

  lemma ExpectedVersionPasses(db: Db, op: Op, env: Env, u: Uid)
    requires RowOf(op) == Some(ItemRow(u)) && (BaseOf(op).Some? ==> BaseOf(op) == Some(Version(db, u)))
    ensures !(Handle(db, op, env).answer.Rejected? && Handle(db, op, env).answer.code == ChangedMeanwhile)
  {
    hide CheckedDue, NameTaken, Edited, Unchecked, ToggledTags, MergeDue, StoredDueAt;
  }

  // What the page shows of a row

  /** The view has the row at this version if the server data had it; a new row has the placeholder. */
  predicate Keeps(v: View, u: Uid, had: bool, seq': nat) {
    (had ==> u in v.items && v.items[u].changedSeq == seq')
      && (!had && u in v.items ==> v.items[u].changedSeq == NEW_ROW_SEQ)
  }

  lemma ProjectKeeps(v: View, op: Op, at: Time, rows: set<Uid>, u: Uid, had: bool, seq': nat)
    requires Gentle(op, rows) && u in rows && Keeps(v, u, had, seq')
    ensures Keeps(Project(v, op, at), u, had, seq')
  {
  }

  lemma {:induction false} ProjectAllKeeps(v: View, pending: seq<PendingOp>, rows: set<Uid>, u: Uid, had: bool,
      seq': nat)
    requires (forall p :: p in pending ==> Gentle(p.sent.op, rows)) && u in rows && Keeps(v, u, had, seq')
    ensures Keeps(ProjectAll(v, pending), u, had, seq')
  {
    hide Gentle, Keeps, Project;
    if pending != [] {
      var rest, p := pending[..|pending| - 1], pending[|pending| - 1];
      ProjectAllKeeps(v, rest, rows, u, had, seq');
      ProjectKeeps(ProjectAll(v, rest), p.sent.op, p.at, rows, u, had, seq');
    }
  }

  lemma {:induction false} AnswersShow(v: View, answered: seq<AnsweredSeq>, u: Uid, seq': nat)
    requires u in v.items && forall a :: a in answered && a.row == ItemRow(u) ==> a.changedSeq == seq'
    ensures var w := ShowAnswers(v, answered);
      u in w.items && w.items[u].changedSeq == if exists a ::
        a in answered && a.row == ItemRow(u) then seq' else v.items[u].changedSeq
  {
    if answered != [] {
      var rest, last := answered[..|answered| - 1], answered[|answered| - 1];
      assert answered == rest + [last];
      AnswersShow(v, rest, u, seq');
    }
  }

  // The invariant

  predicate Certain(pending: seq<PendingOp>) { forall p :: p in pending ==> !p.uncertain }

  ghost predicate GentleOps(pending: seq<PendingOp>, rows: set<Uid>) {
    forall p :: p in pending ==> Gentle(p.sent.op, rows)
  }

  /** An answered version shown is the server's. */
  ghost predicate EntriesCurrent(answered: seq<AnsweredSeq>, db: Db, rows: set<Uid>) {
    forall a, u :: a in answered && u in rows && a.row == ItemRow(u) ==> a.changedSeq == Version(db, u)
  }

  ghost predicate NamedSince(answered: seq<AnsweredSeq>, u: Uid, after: nat) {
    exists a :: a in answered && a.row == ItemRow(u) && a.appliedSeq > after
  }

  /** A version newer than a state the data may be of is shown from its answer. */
  ghost predicate Covered(dbs: seq<Db>, at: nat, roomSeq: nat, answered: seq<AnsweredSeq>, rows: set<Uid>) {
    at < |dbs| && forall m, u ::
      0 <= m <= at && u in rows && dbs[m].changeSeq >= roomSeq && Version(dbs[m], u) != Version(dbs[at], u) ==>
      NamedSince(answered, u, dbs[m].changeSeq)
  }

  /** Each queued op expects the server's version of its row. */
  ghost predicate BasesCurrent(queue: seq<QueueEntry>, db: Db, rows: set<Uid>) {
    forall i, u ::
        0 <= i < |queue| && u in rows && RowOf(queue[i].sent.op) == Some(ItemRow(u))
        && BaseOf(queue[i].sent.op).Some? ==>
      BaseOf(queue[i].sent.op).value == Version(db, u)
  }

  predicate Conflicted(e: Event, rows: set<Uid>) {
    && e.Own? && RowOf(e.exec.sent.op).Some? && RowOf(e.exec.sent.op).value.ItemRow?
      && RowOf(e.exec.sent.op).value.uid in rows
    && e.exec.response.answer.Rejected? && e.exec.response.answer.code == ChangedMeanwhile
  }

  /** No op of the page on one of the rows was refused because the row changed meanwhile. */
  ghost predicate NoConflict(log: seq<Event>, rows: set<Uid>) {
    forall i :: 0 <= i < |log| ==> !Conflicted(log[i], rows)
  }

  /** The state the page knows or was told of: the one before an execution whose answer is open. */
  function SeenAt(s: Sys): nat { if HeadDone(s.done, s.queue) then s.done[s.queue[0].sent.id] else |s.log| }

  ghost predicate Current(s: Sys, rows: set<Uid>) {
    && Inv(s) && SeenAt(s) < |s.dbs| && Certain(s.store.pending) && GentleOps(s.store.pending, rows)
    && EntriesCurrent(s.store.answered, s.dbs[SeenAt(s)], rows)
    && Covered(s.dbs, SeenAt(s), s.store.roomSeq, s.store.answered, rows)
    && BasesCurrent(s.queue, s.dbs[SeenAt(s)], rows)
    && Still(s, rows) && NoConflict(s.log, rows)
  }

  /** Since the open execution, nobody wrote the rows. */
  ghost predicate Still(s: Sys, rows: set<Uid>) {
    HeadDone(s.done, s.queue) ==>
      forall m, u :: SeenAt(s) < m < |s.dbs| && u in rows ==> Version(s.dbs[m], u) == Version(s.dbs[SeenAt(s) + 1], u)
  }

  // When an answer finds the versions that later ops expect

  /** The op moves to the row the server kept for the answered add. */
  predicate Moves(op: Op, settled: Op, answer: Answer) {
    Remaps(settled, answer) && RowOf(op) == Some(ItemRow(settled.uid.value))
  }

  /**
    An answer finds the version that an op on row `u` expects: the answered op left the row's
    version, or carried its own base, or the row was new, or the page shows it. An op that moves
    to another row needs it shown if the add was refused; else the answer names the version.
   */
  predicate Finds(op: Op, settled: Op, answer: Answer, known: View, db: Db, b: Db, u: Uid) {
    if Moves(op, settled, answer) then answer.Applied? || Version(db, u) == 0 || u in known.items
    else Version(b, u) == Version(db, u) || BaseOf(settled).Some? || Version(db, u) == 0 || u in known.items
  }

  /** Every later op on one of the rows finds its version. */
  ghost predicate AllFound(later: seq<QueueEntry>, settled: Op, answer: Answer, known: View, db: Db, b: Db,
      rows: set<Uid>) {
    forall i, u :: 0 <= i < |later| && u in rows && Lands(later[i].sent.op, settled, answer, known, u) ==>
      Finds(later[i].sent.op, settled, answer, known, db, b, u)
  }

  /** After the answer the op is on row `u`, with a version check. */
  predicate Lands(op: Op, settled: Op, answer: Answer, known: View, u: Uid) {
    RowOf(Rewritten(op, settled, answer, known)) == Some(ItemRow(u)) && BaseOf(op).Some?
  }

  /** Every later op finds its version in the answer of the open op. */
  ghost predicate BasesFound(s: Sys, rows: set<Uid>)
    requires Shaped(s) && HeadDone(s.done, s.queue)
  {
    var d, op := s.done[s.queue[0].sent.id], s.queue[0].sent;
    AllFound(s.queue[1..], op.op, StoredResponse(s, op.id).answer, RoomStores.Shown(s.store), s.dbs[d], s.dbs[d + 1],
      rows)
  }

  /**
    The runs in question: every request is answered, the page does not reload, nobody else
    writes the rows, an op takes its base from the row shown, and each answer finds the versions
    that later ops expect.
   */
  ghost predicate Steady(s: Sys, step: Step, rows: set<Uid>)
    requires Shaped(s)
  {
    match step
    case Act(sent, _) => Gentle(sent.op, rows) && BasedOnShown(sent.op, RoomStores.Shown(s.store), rows)
    case Answer(_) => HeadDone(s.done, s.queue) && BasesFound(s, rows)
    case Other(run) => RunAllowed(Now(s), run) && forall u :: u in rows ==>
        Version(Run(Now(s), run), u) == Version(Now(s), u)
    case Lose(_) => false
    case Fail => !HeadDone(s.done, s.queue)
    case Reload(_, _) => false
    case _ => true
  }

  predicate BasedOnShown(op: Op, shown: View, rows: set<Uid>) {
    forall u | u in rows :: RowOf(op) == Some(ItemRow(u)) && BaseOf(op).Some? ==>
        KnownSeq(shown, ItemRow(u)) == BaseOf(op)
  }

  // The versions the page knows are the server's

  lemma SeenData(s: Sys, rows: set<Uid>)
    requires Current(s, rows)
    ensures DataBy(s.dbs, s.store.server, s.store.roomSeq, SeenAt(s))
  {
    hide Once, FrontOk, NotLost, LoadOk, SendOk, DataBy, GentleOps, EntriesCurrent, Covered, BasesCurrent, NoConflict,
      Tracked, Ruled, Follows;
    if HeadDone(s.done, s.queue) {
      assert MirrorsAt(s.queue, s.store.pending, 0);
      hide HeadOfLine;
      assert HeadCertain(s.queue, s.store.pending);
    } else {
      DataBehind(s.dbs, s.store.server, s.store.roomSeq);
    }
  }

  lemma ShownIsCurrent(s: Sys, rows: set<Uid>, u: Uid)
    requires Current(s, rows) && u in rows && u in RoomStores.Shown(s.store).items
    ensures RoomStores.Shown(s.store).items[u].changedSeq == Version(s.dbs[SeenAt(s)], u)
  {
    SeenData(s, rows);
    hide Inv, BasesCurrent, NoConflict, ProjectAll, ShowAnswers, Gentle;
    var j :| j <= SeenAt(s) && DataAt(s.dbs, s.store.server, s.store.roomSeq, j);
    var c := Version(s.dbs[SeenAt(s)], u);
    var v := ProjectAll(s.store.server, s.store.pending);
    assert Keeps(s.store.server, u, u in s.store.server.items, Version(s.dbs[j], u));
    ProjectAllKeeps(s.store.server, s.store.pending, rows, u, u in s.store.server.items, Version(s.dbs[j], u));
    AnswersAddNoRow(v, s.store.answered);
    AnswersShow(v, s.store.answered, u, c);
    assert Version(s.dbs[j], u) != c ==> NamedSince(s.store.answered, u, s.dbs[j].changeSeq);
  }

  lemma AnswersAddNoRow(v: View, answered: seq<AnsweredSeq>)
    ensures ShowAnswers(v, answered).items.Keys == v.items.Keys
  {
    AnswersChangeVersions(v, answered);
  }

  // Each step of such a run keeps the invariant. Queueing:

  lemma ActKeepsBases(s: Sys, sent: SentOp, at: Time, rows: set<Uid>)
    requires Current(s, rows) && Fresh(s, sent.id) && WellFormed(sent.op) && IsProjected(sent.op)
    requires Gentle(sent.op, rows) && BasedOnShown(sent.op, RoomStores.Shown(s.store), rows)
    ensures Current(Acted(s, sent, at), rows)
  {
    hide Tracked, Ruled, Follows, Gentle, WellFormed, RoomStores.Shown, RowOf, BaseOf, Version;
    ActKeeps(s, sent, at);
    forall u | u in rows && RowOf(sent.op) == Some(ItemRow(u)) && BaseOf(sent.op).Some?
      ensures BaseOf(sent.op).value == Version(s.dbs[SeenAt(s)], u)
    {
      ShownIsCurrent(s, rows, u);
    }
    hide Inv, EntriesCurrent, Covered, NoConflict, BasedOnShown;
    assert !Waits(s.store.pending, sent.id);
  }

  /** Steps that leave the ops, the answers and the log as they are. */
  lemma QuietStep(s: Sys, t: Sys, rows: set<Uid>)
    requires Current(s, rows) && Inv(t)
    requires t.dbs == s.dbs && t.log == s.log && t.done == s.done && t.store.pending == s.store.pending
    requires t.store.answered == s.store.answered && t.store.roomSeq == s.store.roomSeq
    requires |t.queue| == |s.queue| && forall i :: 0 <= i < |s.queue| ==> t.queue[i].sent == s.queue[i].sent
    ensures Current(t, rows)
  {
    hide Inv, Gentle, Version, EntriesCurrent, Covered, NoConflict, RowOf, BaseOf;
  }

  lemma FailKeepsBases(s: Sys, rows: set<Uid>)
    requires Current(s, rows) && Open(s) && s.queue[0].sent.id !in s.done
    ensures Current(DroppedHead(s), rows)
  {
    hide Tracked, Ruled, Follows, Gentle, WellFormed, RowOf, BaseOf, Version;
    FailKeeps(s);
    var t := DroppedHead(s);
    DropIs(s.store.pending, s.queue[0].sent.id);
    assert !HeadDone(t.done, t.queue) by { hide EntriesCurrent, Covered, NoConflict, BasesCurrent, FrontOk, Mirrors,
      NotTwice, NotLost; }
    hide Inv, EntriesCurrent, Covered, NoConflict;
  }

  lemma ApplyKeepsBases(s: Sys, rows: set<Uid>)
    requires Current(s, rows) && s.load.Checked?
    ensures Current(s.(store := AfterFeed(s.store, s.load.feed), load := Idle), rows)
  {
    var t := s.(store := AfterFeed(s.store, s.load.feed), load := Idle);
    ApplyKeeps(s);
    ApplyData(s);
    hide Inv, DataAt, AfterFeed, Current;
    AppliedParts(s.store, s.load.feed);
    FewerShown(s, t, rows);
  }

  lemma FewerShown(s: Sys, t: Sys, rows: set<Uid>)
    requires Current(s, rows) && Inv(t) && t.dbs == s.dbs && t.log == s.log && t.done == s.done && t.queue == s.queue
    requires s.store.roomSeq <= t.store.roomSeq && (forall p :: p in t.store.pending ==> p in s.store.pending)
    requires (forall a :: a in t.store.answered ==> a in s.store.answered)
    requires forall a :: a in s.store.answered && a.appliedSeq > t.store.roomSeq ==> a in t.store.answered
    ensures Current(t, rows)
  {
    hide Inv, BasesCurrent, NoConflict, Version, Gentle, Covered;
    ApplyCovers(s.dbs, SeenAt(s), s.store.roomSeq, t.store.roomSeq, s.store.answered, t.store.answered, rows);
  }

  lemma AppliedParts(store: Store, feed: Feed)
    requires store.roomSeq <= AfterFeed(store, feed).roomSeq
    ensures var t := AfterFeed(store, feed);
      (forall p :: p in t.pending ==> p in store.pending) && (forall a :: a in t.answered ==> a in store.answered)
      && forall a :: a in store.answered && a.appliedSeq > t.roomSeq ==> a in t.answered
  {
    hide Merged, DropReached, KeepNewer;
    DropReachedIs(store.pending, feed.roomSeq);
    KeepNewerIs(store.answered, feed.roomSeq);
  }

  lemma ApplyCovers(dbs: seq<Db>, at: nat, roomSeq: nat, newSeq: nat, answered: seq<AnsweredSeq>,
      kept: seq<AnsweredSeq>, rows: set<Uid>)
    requires Covered(dbs, at, roomSeq, answered, rows) && roomSeq <= newSeq
    requires forall a :: a in answered && a.appliedSeq > newSeq ==> a in kept
    ensures Covered(dbs, at, newSeq, kept, rows)
  {
    hide Version;
    forall m, u | 0 <= m <= at && u in rows && dbs[m].changeSeq >= newSeq && Version(dbs[m], u) != Version(dbs[at], u)
      ensures NamedSince(kept, u, dbs[m].changeSeq)
    {
      assert NamedSince(answered, u, dbs[m].changeSeq);
      var a :| a in answered && a.row == ItemRow(u) && a.appliedSeq > dbs[m].changeSeq;
      assert a in kept;
    }
  }

  // Others write other rows:

  lemma OtherKeepsBases(s: Sys, run: seq<Stmt>, rows: set<Uid>)
    requires Current(s, rows) && RunAllowed(Now(s), run) && Ruled(Run(Now(s), run))
    requires forall u :: u in rows ==> Version(Run(Now(s), run), u) == Version(Now(s), u)
    ensures Current(Logged(s, Others(run), Run(Now(s), run)), rows)
  {
    hide Run, RunAllowed, Ruled, Tracked, Follows, Version, Gentle;
    OtherKeeps(s, run);
    var b := Run(Now(s), run);
    var t := Logged(s, Others(run), b);
    assert |s.dbs| == |s.log| + 1;
    hide Inv;
    OtherCovers(s, b, rows);
    hide Covered;
  }

  lemma OtherCovers(s: Sys, b: Db, rows: set<Uid>)
    requires s.dbs != [] && |s.dbs| == |s.log| + 1 && SeenAt(s) < |s.dbs|
      && Covered(s.dbs, SeenAt(s), s.store.roomSeq, s.store.answered, rows)
    requires forall u :: u in rows ==> Version(b, u) == Version(Now(s), u)
    ensures Covered(s.dbs + [b], if HeadDone(s.done, s.queue) then SeenAt(s)
      else |s.log| + 1, s.store.roomSeq, s.store.answered, rows)
  {
    hide Version;
  }

  // The server executes the head:

  lemma DeliverKeepsBases(s: Sys, sent: SentOp, env: Env, rows: set<Uid>)
    requires Current(s, rows) && sent in s.net && sent.id !in s.done && WellFormed(sent.op) && EnvOk(Now(s), env)
    requires !Handle(Now(s), sent.op, env).answer.HttpError?
    ensures Current(Delivered(s, sent, env), rows)
  {
    hide Handle, Tracked, Ruled, Follows, EnvOk, WellFormed, Version, Gentle, RowOf, BaseOf;
    DeliverKeeps(s, sent, env);
    assert s.queue != [] && s.queue[0].sent == sent && |s.dbs| == |s.log| + 1 by {
      hide EntriesCurrent, Covered, NoConflict, BasesCurrent, FrontOk, Mirrors, NotTwice, NotLost;
    }
    hide Inv;
    var out := Handle(Now(s), sent.op, env);
    var x := Execution(sent, env, Response(out.answer, out.db.changeSeq));
    HeadPasses(s, x, rows);
    hide Conflicted;
    DeliveredCovers(s, out.db, rows);
    hide Covered;
  }

  lemma HeadPasses(s: Sys, x: Execution, rows: set<Uid>)
    requires s.queue != [] && s.queue[0].sent == x.sent && s.dbs != [] && BasesCurrent(s.queue, Now(s), rows)
    requires x.response.answer == Handle(Now(s), x.sent.op, x.env).answer
    ensures !Conflicted(Own(x), rows)
  {
    hide Handle, Version, BaseOf;
    if RowOf(x.sent.op).Some? && RowOf(x.sent.op).value.ItemRow? && RowOf(x.sent.op).value.uid in rows {
      ExpectedVersionPasses(Now(s), x.sent.op, x.env, RowOf(x.sent.op).value.uid);
    }
  }

  lemma DeliveredCovers(s: Sys, b: Db, rows: set<Uid>)
    requires |s.dbs| == |s.log| + 1 && Covered(s.dbs, |s.log|, s.store.roomSeq, s.store.answered, rows)
    ensures Covered(s.dbs + [b], |s.log|, s.store.roomSeq, s.store.answered, rows)
  {
    hide Version;
  }

  // The answer comes:

  /** What the answer of an add with the page's own ID says. */
  predicate HeadAdd(db: Db, op: Op, answer: Answer, rows: set<Uid>) {
    op.ItemAdd? && op.uid.Some? ==>
      && op.uid.value in rows && Version(db, op.uid.value) == 0
      && (answer.Rejected? && KeptItem(answer).Some? ==> KeptItem(answer).value in db.items)
      && (answer.Applied? ==> NewSeq(answer).Some? && KeptItem(answer).Some?)
  }

  /** What is known when an answer comes: expected and shown versions are those before the answered op. */
  ghost predicate Expected(op: Op, db: Db, rows: set<Uid>) {
    forall w :: w in rows && RowOf(op) == Some(ItemRow(w)) && BaseOf(op).Some? ==> BaseOf(op).value == Version(db, w)
  }

  ghost predicate ShownCurrent(known: View, db: Db, rows: set<Uid>) {
    forall w :: w in rows && w in known.items ==> known.items[w].changedSeq == Version(db, w)
  }

  /**
    What an answer does to the version an op expects, for every answered op: it becomes the row's
    version after the answered op if and only if the answer finds it.
   */
  lemma RewrittenBase(op: Op, settled: Op, answer: Answer, known: View, db: Db, b: Db, rows: set<Uid>, u: Uid)
    requires u in rows && Lands(op, settled, answer, known, u)
    requires Expected(op, db, rows) && Expected(settled, db, rows) && ShownCurrent(known, db, rows)
    requires NamesVersion(db, settled, Outcome(b, answer), u) && HeadAdd(db, settled, answer, rows)
    ensures BaseOf(Rewritten(op, settled, answer, known)) == Some(Version(b, u)) <==>
      Finds(op, settled, answer, known, db, b, u)
  {
    if Moves(op, settled, answer) {
      assert BaseOf(op).value == 0;
    }
  }

  lemma RewrittenGentle(op: Op, settled: Op, answer: Answer, known: View, rows: set<Uid>)
    requires Gentle(op, rows) && Gentle(settled, rows)
    ensures Gentle(Rewritten(op, settled, answer, known), rows)
  {
  }

  /** A version that differs between two states means a seq that differs. */
  lemma VersionMovesSeq(dbs: seq<Db>, log: seq<Event>, m: nat, n: nat, u: Uid)
    requires History(dbs, log) && Rising(dbs) && m <= n < |dbs| && Version(dbs[m], u) != Version(dbs[n], u)
    ensures dbs[m].changeSeq < dbs[n].changeSeq
  {
    hide Follows, Tracked, Ruled;
    if dbs[m].changeSeq == dbs[n].changeSeq {
      S.SameSeq(dbs, log, m, n);
      PublishedVersion(dbs[m], u);
      PublishedVersion(dbs[n], u);
    }
  }

  lemma PublishedVersion(db: Db, u: Uid)
    ensures Version(db, u) == if u in ViewOf(db).items then ViewOf(db).items[u].changedSeq else 0
  {
  }

  lemma AnsweredCovers(s: Sys, d: nat, op: Op, response: Response, rows: set<Uid>)
    requires History(s.dbs, s.log) && Rising(s.dbs) && d < |s.log| && response.roomSeq == s.dbs[d + 1].changeSeq
    requires EntriesCurrent(s.store.answered, s.dbs[d], rows)
      && Covered(s.dbs, d, s.store.roomSeq, s.store.answered, rows)
    requires forall m, u :: d < m < |s.dbs| && u in rows ==> Version(s.dbs[m], u) == Version(s.dbs[d + 1], u)
    requires forall u :: u in rows ==> NamesVersion(s.dbs[d], op, Outcome(s.dbs[d + 1], response.answer), u)
    ensures EntriesCurrent(WithAnswer(s.store.answered, op, response), s.dbs[|s.log|], rows)
    ensures Covered(s.dbs, |s.log|, s.store.roomSeq, WithAnswer(s.store.answered, op, response), rows)
  {
    hide Version, Tracked, Ruled, Follows, ChangedRow;
    var answered := WithAnswer(s.store.answered, op, response);
    if NewSeq(response.answer).Some? && ChangedRow(op, response.answer).Some? {
      WithoutRowIs(s.store.answered, ChangedRow(op, response.answer).value);
    }
    hide WithoutRow;
    forall m, u | 0 <= m <= |s.log| && u in rows && s.dbs[m].changeSeq >= s.store.roomSeq
        && Version(s.dbs[m], u) != Version(s.dbs[|s.log|], u)
      ensures NamedSince(answered, u, s.dbs[m].changeSeq)
    {
      VersionMovesSeq(s.dbs, s.log, m, d + 1, u);
      if ChangedRow(op, response.answer) == Some(ItemRow(u)) && NewSeq(response.answer).Some? {
        var a := AnsweredSeq(ItemRow(u), NewSeq(response.answer).value, response.roomSeq);
        assert a in answered;
      } else {
        assert Version(s.dbs[d], u) == Version(s.dbs[d + 1], u);
        assert NamedSince(s.store.answered, u, s.dbs[m].changeSeq);
        var a :| a in s.store.answered && a.row == ItemRow(u) && a.appliedSeq > s.dbs[m].changeSeq;
        assert a in answered;
      }
    }
  }

  /** The ops shown after the answer are those shown before, some with new bodies. */
  lemma AnsweredOps(s: Sys, response: Response, rewritten: map<Uid, Op>, rows: set<Uid>)
    requires s.queue != [] && Certain(s.store.pending) && GentleOps(s.store.pending, rows)
    requires forall p :: p in s.store.pending ==> Gentle(CurrentBody(rewritten, p.sent), rows)
    ensures var t := HeadAnswered(s, response, rewritten); Certain(t.store.pending) && GentleOps(t.store.pending, rows)
  {
    hide Gentle, WithAnswer;
    DropIs(s.store.pending, s.queue[0].sent.id);
    hide Drop;
    var t := HeadAnswered(s, response, rewritten);
    var mid := AfterAnswer(s.store, s.queue[0].sent, response).pending;
    forall p | p in mid ensures !p.uncertain && Gentle(CurrentBody(rewritten, p.sent), rows) {
      var i :| 0 <= i < |mid| && mid[i] == p;
      if response.answer.Applied? && response.roomSeq > s.store.roomSeq {
        assert mid[i].sent == s.store.pending[i].sent;
      }
    }
  }

  lemma QueuedGentle(s: Sys, i: nat, rows: set<Uid>)
    requires Mirrors(s.queue, s.store.pending) && GentleOps(s.store.pending, rows) && i < |s.queue|
    ensures Gentle(s.queue[i].sent.op, rows)
  {
    assert MirrorsAt(s.queue, s.store.pending, i);
  }

  lemma NewBodiesGentle(s: Sys, answer: Answer, rewritten: map<Uid, Op>, rows: set<Uid>)
    requires Mirrors(s.queue, s.store.pending) && GentleOps(s.store.pending, rows) && s.queue != []
      && Plans(s, rewritten, answer)
    ensures forall p :: p in s.store.pending ==> Gentle(CurrentBody(rewritten, p.sent), rows)
  {
    hide Gentle, Rewritten, RoomStores.Shown, Mirrors;
    forall p | p in s.store.pending ensures Gentle(CurrentBody(rewritten, p.sent), rows) {
      if p.sent.id in rewritten {
        var i :| 1 <= i < |s.queue| && s.queue[i].sent.id == p.sent.id;
        QueuedGentle(s, 0, rows);
        QueuedGentle(s, i, rows);
        RewrittenGentle(s.queue[i].sent.op, s.queue[0].sent.op, answer, RoomStores.Shown(s.store), rows);
        assert CurrentBody(rewritten, s.queue[i].sent) == rewritten[p.sent.id];
      }
    }
  }

  /** What the log says of the answered head. */
  lemma HeadEvent(s: Sys)
    requires Inv(s) && HeadDone(s.done, s.queue)
    ensures |s.dbs| == |s.log| + 1 && SeenAt(s) < |s.log| && s.log[SeenAt(s)].Own?
      && s.log[SeenAt(s)].exec.sent == s.queue[0].sent
    ensures var d := SeenAt(s);
      Follows(s.dbs[d], s.log[d], s.dbs[d + 1]) && s.log[d].exec.response.roomSeq == s.dbs[d + 1].changeSeq
  {
    hide Mirrors, FrontOk, NotTwice, NotLost, LoadOk, DataOk, Tracked, Ruled, Handle, EnvOk, WellFormed, Rising;
    FollowsAt(s.dbs, s.log, SeenAt(s));
  }

  /** After the answer every queued op expects its row's version if and only if the answer found it. */
  lemma AnsweredBases(s: Sys, rewritten: map<Uid, Op>, rows: set<Uid>)
    requires Shaped(s) && Current(s, rows) && HeadDone(s.done, s.queue)
    requires Plans(s, rewritten, s.log[SeenAt(s)].exec.response.answer)
      && (forall i :: 1 <= i < |s.queue| ==> !s.queue[i].tried)
    requires forall u :: u in rows ==> NamesVersion(s.dbs[SeenAt(s)], s.queue[0].sent.op,
      Outcome(s.dbs[SeenAt(s) + 1], s.log[SeenAt(s)].exec.response.answer), u)
    requires HeadAdd(s.dbs[SeenAt(s)], s.queue[0].sent.op, s.log[SeenAt(s)].exec.response.answer, rows)
    ensures BasesCurrent(RewriteQueue(s.queue[1..], rewritten), s.dbs[SeenAt(s) + 1], rows) <==> BasesFound(s, rows)
  {
    hide Inv, Covered, EntriesCurrent, NoConflict, Version, NamesVersion, Certain, GentleOps, Still, RoomStores.Shown,
      HeadAdd, Rewritten, RowOf, BaseOf, Finds;
    var d, shown := SeenAt(s), RoomStores.Shown(s.store);
    var settled, answer := s.queue[0].sent.op, s.log[d].exec.response.answer;
    forall u | u in rows && u in shown.items ensures shown.items[u].changedSeq == Version(s.dbs[d], u) {
      ShownIsCurrent(s, rows, u);
    }
    assert forall i :: 0 <= i < |s.queue| ==> Expected(s.queue[i].sent.op, s.dbs[d], rows);
    var q := RewriteQueue(s.queue[1..], rewritten);
    forall i, u | 0 <= i < |q| && u in rows
      ensures q[i].sent.op == Rewritten(s.queue[i + 1].sent.op, settled, answer, shown)
      ensures (RowOf(q[i].sent.op) == Some(ItemRow(u)) && BaseOf(q[i].sent.op).Some?)
        == Lands(s.queue[i + 1].sent.op, settled, answer, shown, u)
      ensures Lands(s.queue[i + 1].sent.op, settled, answer, shown, u) ==>
        (BaseOf(q[i].sent.op).value == Version(s.dbs[d + 1], u)
         <==> Finds(s.queue[i + 1].sent.op, settled, answer, shown, s.dbs[d], s.dbs[d + 1], u))
    {
      var op := s.queue[i + 1].sent.op;
      BaseStays(op, settled, answer, shown);
      if Lands(op, settled, answer, shown, u) {
        RewrittenBase(op, settled, answer, shown, s.dbs[d], s.dbs[d + 1], rows, u);
      }
    }
    hide Lands, Plans;
    SameQuantifiers(s, q, shown, settled, answer, rows);
  }

  lemma SameQuantifiers(s: Sys, q: seq<QueueEntry>, shown: View, settled: Op, answer: Answer, rows: set<Uid>)
    requires Shaped(s) && HeadDone(s.done, s.queue) && |q| == |s.queue| - 1
    requires shown == RoomStores.Shown(s.store) && settled == s.queue[0].sent.op
      && answer == s.log[SeenAt(s)].exec.response.answer
    requires forall i, u :: 0 <= i < |q| && u in rows ==>
      (RowOf(q[i].sent.op) == Some(ItemRow(u)) && BaseOf(q[i].sent.op).Some?)
        == Lands(s.queue[i + 1].sent.op, settled, answer, shown, u)
    requires forall i, u :: 0 <= i < |q| && u in rows && Lands(s.queue[i + 1].sent.op, settled, answer, shown, u) ==>
      (BaseOf(q[i].sent.op).value == Version(s.dbs[SeenAt(s) + 1], u)
       <==> Finds(s.queue[i + 1].sent.op, settled, answer, shown, s.dbs[SeenAt(s)], s.dbs[SeenAt(s) + 1], u))
    ensures BasesCurrent(q, s.dbs[SeenAt(s) + 1], rows) <==> BasesFound(s, rows)
  {
    hide Finds, Lands, RowOf, BaseOf, Version, RoomStores.Shown;
    var later := s.queue[1..];
    assert |later| == |q| && forall i :: 0 <= i < |q| ==> later[i] == s.queue[i + 1];
    var db, b := s.dbs[SeenAt(s)], s.dbs[SeenAt(s) + 1];
    if BasesFound(s, rows) {
      forall i, u | 0 <= i < |q| && u in rows && RowOf(q[i].sent.op) == Some(ItemRow(u)) && BaseOf(q[i].sent.op).Some?
        ensures BaseOf(q[i].sent.op).value == Version(b, u)
      {
        assert Lands(later[i].sent.op, settled, answer, shown, u);
        assert Finds(later[i].sent.op, settled, answer, shown, db, b, u);
      }
    }
    if BasesCurrent(q, b, rows) {
      forall i, u | 0 <= i < |later| && u in rows && Lands(later[i].sent.op, settled, answer, shown, u)
        ensures Finds(later[i].sent.op, settled, answer, shown, db, b, u)
      {
        assert BaseOf(q[i].sent.op).value == Version(b, u);
      }
    }
  }

  lemma BaseStays(op: Op, settled: Op, answer: Answer, known: View)
    ensures BaseOf(Rewritten(op, settled, answer, known)).Some? == BaseOf(op).Some?
  {
  }

  lemma HeadAddHolds(db: Db, op: Op, env: Env, rows: set<Uid>)
    requires Gentle(op, rows) && !Handle(db, op, env).answer.HttpError?
    ensures HeadAdd(db, op, Handle(db, op, env).answer, rows)
  {
    hide Handle;
    if op.ItemAdd? { NewRowIsNew(db, op, env); }
  }

  /**
    The exact condition, for every answered op (delta, flip, add, put-back, restore, or an op with
    a base): after its answer each queued op expects its row's version, and the rest of the
    invariant holds, if and only if the answer finds the versions that later ops expect.
   */
  lemma AnswerKeepsBases(s: Sys, rewritten: map<Uid, Op>, rows: set<Uid>)
    requires Shaped(s) && Current(s, rows) && Can(s, Answer(rewritten))
    ensures HeadDone(s.done, s.queue) && (Current(Do(s, Answer(rewritten)), rows) <==> BasesFound(s, rows))
    ensures var t := Do(s, Answer(rewritten));
      t.dbs != [] && (BasesCurrent(t.queue, Now(t), rows) <==> BasesFound(s, rows))
  {
    hide Plans, Handle, Inv, Version, NamesVersion, Gentle, EntriesCurrent, Covered, BasesCurrent, NoConflict,
      RoomStores.Shown, BasesFound, Follows;
    HeadEvent(s);
    var d, op := SeenAt(s), s.queue[0].sent.op;
    var x := s.log[d].exec;
    AnswerKeeps(s, rewritten);
    HeadFacts(s, rows);
    AnswerParts(s, rewritten, rows);
    var t := HeadAnswered(s, x.response, rewritten);
    AnsweredSeen(s, rewritten);
    hide HeadAnswered;
  }

  lemma HeadFacts(s: Sys, rows: set<Uid>)
    requires Current(s, rows) && HeadDone(s.done, s.queue)
    ensures |s.dbs| == |s.log| + 1 && SeenAt(s) < |s.log| && s.log[SeenAt(s)].Own?
    ensures var d := SeenAt(s); HeadAdd(s.dbs[d], s.queue[0].sent.op, s.log[d].exec.response.answer, rows)
    ensures var d := SeenAt(s);
      forall u :: u in rows ==>
          NamesVersion(s.dbs[d], s.queue[0].sent.op, Outcome(s.dbs[d + 1], s.log[d].exec.response.answer), u)
  {
    hide Plans, Handle, Version, NamesVersion, Gentle, EntriesCurrent, Covered, BasesCurrent, NoConflict, HeadAdd,
      FrontOk, NotTwice, NotLost, LoadOk, DataOk, History, Rising, Once, HeadOfLine;
    HeadEvent(s);
    var d, op := SeenAt(s), s.queue[0].sent.op;
    var x := s.log[d].exec;
    QueuedGentle(s, 0, rows);
    HeadAddHolds(s.dbs[d], op, x.env, rows);
    forall u | u in rows ensures NamesVersion(s.dbs[d], op, Outcome(s.dbs[d + 1], x.response.answer), u) {
      AnswerNamesVersion(s.dbs[d], op, x.env, rows, u);
    }
  }

  lemma AnsweredSeen(s: Sys, rewritten: map<Uid, Op>)
    requires Inv(s) && HeadDone(s.done, s.queue) && SeenAt(s) < |s.log| && s.log[SeenAt(s)].Own?
    ensures var t := HeadAnswered(s, s.log[SeenAt(s)].exec.response, rewritten);
      !HeadDone(t.done, t.queue) && SeenAt(t) == |s.log|
    ensures forall i :: 1 <= i < |s.queue| ==> !s.queue[i].tried
  {
    hide History, Mirrors, FrontOk, NotTwice, NotLost, LoadOk, DataOk, Rising, Once, WellFormed;
  }

  lemma AnswerParts(s: Sys, rewritten: map<Uid, Op>, rows: set<Uid>)
    requires Shaped(s) && Current(s, rows) && Open(s) && HeadDone(s.done, s.queue)
    requires Plans(s, rewritten, s.log[SeenAt(s)].exec.response.answer)
      && s.log[SeenAt(s)].exec.response.roomSeq == s.dbs[SeenAt(s) + 1].changeSeq
    requires HeadAdd(s.dbs[SeenAt(s)], s.queue[0].sent.op, s.log[SeenAt(s)].exec.response.answer, rows)
    requires forall u :: u in rows ==> NamesVersion(s.dbs[SeenAt(s)], s.queue[0].sent.op,
      Outcome(s.dbs[SeenAt(s) + 1], s.log[SeenAt(s)].exec.response.answer), u)
    ensures var t := HeadAnswered(s, s.log[SeenAt(s)].exec.response, rewritten);
      && Certain(t.store.pending) && GentleOps(t.store.pending, rows)
      && (BasesCurrent(t.queue, s.dbs[|s.log|], rows) <==> BasesFound(s, rows))
      && EntriesCurrent(t.store.answered, s.dbs[|s.log|], rows)
      && Covered(s.dbs, |s.log|, t.store.roomSeq, t.store.answered, rows)
  {
    hide Plans, Version, NamesVersion, Gentle, EntriesCurrent, Covered, BasesCurrent, NoConflict, RoomStores.Shown,
      BasesFound, HeadAdd, Certain, GentleOps, HeadOfLine, Once, FrontOk, NotTwice, NotLost, LoadOk, DataOk, History,
      Rising, Mirrors;
    var d := SeenAt(s);
    var response := s.log[d].exec.response;
    AnsweredSeen(s, rewritten);
    NewBodiesGentle(s, response.answer, rewritten, rows);
    AnsweredOps(s, response, rewritten, rows);
    AnsweredCovers(s, d, s.queue[0].sent.op, response, rows);
    AnsweredBases(s, rewritten, rows);
    SameBases(RewriteQueue(s.queue[1..], rewritten), s.dbs[d + 1], s.dbs[|s.log|], rows);
  }

  lemma SameBases(queue: seq<QueueEntry>, a: Db, b: Db, rows: set<Uid>)
    requires forall u :: u in rows ==> Version(a, u) == Version(b, u)
    ensures BasesCurrent(queue, a, rows) <==> BasesCurrent(queue, b, rows)
  {
    hide Version, RowOf, BaseOf;
  }

  // Whole runs

  lemma SteadyStepKeeps(s: Sys, step: Step, rows: set<Uid>)
    requires Current(s, rows) && Shaped(s) && Can(s, step) && Steady(s, step, rows)
    ensures Current(Do(s, step), rows)
  {
    hide Current, Plans, Answers, Handle, Run, RunAllowed, Ruled, EnvOk, WellFormed, Fresh, Version, Gentle,
      BasedOnShown, RoomStores.Shown, Inv;
    var t := Do(s, step);
    CurrentInv(s, rows);
    StepKeeps(s, step);
    match step
    case Act(sent, at) => ActKeepsBases(s, sent, at, rows);
    case Deliver(sent, env) =>
      if sent.id !in s.done && !Handle(Now(s), sent.op, env).answer.HttpError? {
        DeliverKeepsBases(s, sent, env, rows);
      }
    case Answer(rewritten) => AnswerKeepsBases(s, rewritten, rows);
    case Fail => FailKeepsBases(s, rows);
    case Apply => ApplyKeepsBases(s, rows);
    case Other(run) => OtherKeepsBases(s, run, rows);
    case _ => QuietStep(s, t, rows);
  }

  lemma CurrentInv(s: Sys, rows: set<Uid>)
    requires Current(s, rows)
    ensures Inv(s)
  {
  }

  ghost predicate SteadyRun(s: Sys, steps: seq<Step>, rows: set<Uid>)
    decreases |steps|
  {
    steps == []
      || (Shaped(s) && Can(s, steps[0]) && Steady(s, steps[0], rows) && SteadyRun(Do(s, steps[0]), steps[1..], rows))
  }

  lemma {:induction false} SteadyRunIs(s: Sys, steps: seq<Step>, rows: set<Uid>)
    requires SteadyRun(s, steps, rows)
    ensures Possible(s, steps)
    decreases |steps|
  {
    hide Can, Do, Steady;
    if steps != [] { SteadyRunIs(Do(s, steps[0]), steps[1..], rows); }
  }

  lemma {:induction false} SteadyRunKeeps(s: Sys, steps: seq<Step>, rows: set<Uid>)
    requires Current(s, rows) && SteadyRun(s, steps, rows)
    ensures Possible(s, steps) && Current(AfterSteps(s, steps), rows)
    decreases |steps|
  {
    hide Can, Do, Steady, Current;
    SteadyRunIs(s, steps, rows);
    if steps != [] {
      SteadyStepKeeps(s, steps[0], rows);
      SteadyRunKeeps(Do(s, steps[0]), steps[1..], rows);
    }
  }

  /** A run from a freshly loaded page: no op on the rows is refused as changed meanwhile. */
  lemma NoSelfConflicts(db: Db, start: Sys, steps: seq<Step>, rows: set<Uid>)
    requires Tracked(db) && Ruled(db) && Start(start, db) && SteadyRun(start, steps, rows)
    ensures Possible(start, steps) && NoConflict(AfterSteps(start, steps).log, rows)
  {
    StartIsCurrent(start, db, rows);
    hide Current, Tracked, Ruled, SteadyRun, Possible, AfterSteps, NoConflict;
    SteadyRunKeeps(start, steps, rows);
    CurrentNoConflict(AfterSteps(start, steps), rows);
  }

  lemma StartIsCurrent(start: Sys, db: Db, rows: set<Uid>)
    requires Tracked(db) && Ruled(db) && Start(start, db)
    ensures Current(start, rows)
  {
    StartInv(start, db);
    hide Inv, Tracked, Ruled, Version;
  }

  lemma CurrentNoConflict(s: Sys, rows: set<Uid>)
    requires Current(s, rows)
    ensures NoConflict(s.log, rows)
  {
    hide Inv;
  }

  // When a row is hidden

  /** A pending add or restore of row `u`. */
  predicate Creates(p: PendingOp, u: Uid) {
    !Skipped(p) && (p.sent.op.ItemAdd? || p.sent.op.ItemRestore?) && p.sent.op.uid == Some(u)
  }

  /** The projection leaves the new row out: its list is missing, or an item of the list has the name. */
  predicate Blocked(v: View, op: Op) {
    && (op.ItemAdd? || op.ItemRestore?)
    && (op.list !in v.lists || NameUsed(v.items, op.list, T.NameKey(T.Strip(op.name))))
  }

  ghost predicate CreatedAt(v: View, pending: seq<PendingOp>, u: Uid, k: nat) {
    k < |pending| && Creates(pending[k], u) && !Blocked(ProjectAll(v, pending[..k]), pending[k].sent.op)
  }

  lemma ProjectShows(v: View, p: PendingOp, rows: set<Uid>, u: Uid)
    requires Gentle(p.sent.op, rows) && u in rows && !Skipped(p)
    ensures u in Project(v, p.sent.op, p.at).items <==> u in v.items || (Creates(p, u) && !Blocked(v, p.sent.op))
  {
  }

  /**
    A row is shown if and only if the page's data has it, or a pending add or restore of it is not
    blocked where it is projected.
   */
  lemma {:induction false} ShownIff(v: View, pending: seq<PendingOp>, rows: set<Uid>, u: Uid)
    requires GentleOps(pending, rows) && u in rows
    ensures u in ProjectAll(v, pending).items <==> u in v.items || exists k :: CreatedAt(v, pending, u, k)
  {
    hide Project, Gentle, Creates, Blocked;
    if pending != [] {
      var rest, p := pending[..|pending| - 1], pending[|pending| - 1];
      var n := |rest|;
      ShownIff(v, rest, rows, u);
      assert forall k: nat :: k < n ==> rest[k] == pending[k] && rest[..k] == pending[..k];
      assert forall k: nat :: k < n ==> CreatedAt(v, rest, u, k) == CreatedAt(v, pending, u, k);
      assert pending[..n] == rest;
      if Skipped(p) {
        NotCreates(p, u);
        assert forall k: nat :: CreatedAt(v, pending, u, k) ==> k < n;
      } else {
        ProjectShows(ProjectAll(v, rest), p, rows, u);
        assert CreatedAt(v, pending, u, n) <==> Creates(p, u) && !Blocked(ProjectAll(v, rest), p.sent.op);
        assert forall k: nat :: CreatedAt(v, pending, u, k) ==> k < n || k == n;
      }
    }
  }

  lemma NotCreates(p: PendingOp, u: Uid)
    requires Skipped(p)
    ensures !Creates(p, u)
  {
  }

  /**
    So one can tell before an answer which rows are hidden: those that the page's data lacks and
    whose every pending add or restore meets a missing list or another item of the same name.
   */
  lemma HiddenIff(s: Sys, rows: set<Uid>, u: Uid)
    requires Current(s, rows) && u in rows
    ensures u !in RoomStores.Shown(s.store).items <==>
      u !in s.store.server.items && forall k :: !CreatedAt(s.store.server, s.store.pending, u, k)
  {
    hide Inv, EntriesCurrent, Covered, BasesCurrent, Still, NoConflict, CreatedAt;
    ShownIff(s.store.server, s.store.pending, rows, u);
    AnswersAddNoRow(ProjectAll(s.store.server, s.store.pending), s.store.answered);
  }

  // Two queues that conflict with themselves

  function PlusOne(l: Uid, u: Uid): Op { ItemQuantityDelta(l, u, 1) }

  function Renaming(l: Uid, u: Uid, name: string, base: nat): Op {
    ItemEdit(l, u, name, "", None, Unsent, Unsent, Unsent, Some(base))
  }

  /** An item with a version, and another name for it. */
  predicate Renamable(db: Db, l: Uid, u: Uid, name: string) {
    && l in db.lists && HasItem(db, l, u) && db.items[u].quantity >= 1 && 0 < db.items[u].changedSeq <= db.changeSeq
    && T.Strip(name) != [] && |T.Strip(name)| <= MAX_NAME_LENGTH && T.Strip(name) != db.items[u].name
  }

  /** Whenever the page hides the row, the edit behind the applied delta keeps its old base and is refused. */
  lemma StaleEdit(db: Db, l: Uid, u: Uid, env: Env, name: string, shown: View)
    requires Renamable(db, l, u, name) && u !in shown.items
    ensures var edit, out := Renaming(l, u, name, db.items[u].changedSeq), Handle(db, PlusOne(l, u), env);
      && out.answer == Applied(Some(db.changeSeq + 1), None)
      && out.db == PutItem(db, u, db.items[u].(quantity := db.items[u].quantity + 1))
      && Rewritten(edit, PlusOne(l, u), out.answer, shown) == edit
      && Handle(out.db, edit, env) == Outcome(out.db, Rejected(ChangedMeanwhile, None))
  {
    assert T.Strip("") == "";
    hide T.Strip;
  }

  /** The pending ops of a queue, one after the other. */
  function QueueOf(ops: seq<Op>, at: Time): seq<PendingOp> {
    seq(|ops|, i requires 0 <= i < |ops| => PendingOp(SentOp(i, ops[i]), at, None, false))
  }

  /** The queue [quantity + 1, edit, delete] on one row: the delete hides it, and the edit is refused. */
  lemma QueuedDeleteConflicts(db: Db, l: Uid, u: Uid, env: Env, name: string)
    requires Renamable(db, l, u, name)
    ensures var delta, edit := PlusOne(l, u), Renaming(l, u, name, db.items[u].changedSeq);
      var out := Handle(db, delta, env);
      var shown := ProjectAll(ViewOf(db), QueueOf([delta, edit, ItemDelete(l, u)], env.now));
      && u !in shown.items && out.answer.Applied? && Rewritten(edit, delta, out.answer, shown) == edit
      && Handle(out.db, edit, env).answer == Rejected(ChangedMeanwhile, None)
  {
    var ops := [PlusOne(l, u), Renaming(l, u, name, db.items[u].changedSeq), ItemDelete(l, u)];
    var shown := ProjectAll(ViewOf(db), QueueOf(ops, env.now));
    DeleteHides(ViewOf(db), l, u, QueueOf(ops, env.now));
    hide ProjectAll, ViewOf, Handle, Rewritten, Renaming;
    StaleEdit(db, l, u, env, name, shown);
  }

  lemma DeleteHides(v: View, l: Uid, u: Uid, ps: seq<PendingOp>)
    requires |ps| == 3 && u in v.items && v.items[u].list == l
    requires ps[0].sent.op.ItemQuantityDelta? && ps[1].sent.op.ItemEdit? && ps[2].sent.op == ItemDelete(l, u)
    requires forall p :: p in ps ==> !p.uncertain
    ensures u !in ProjectAll(v, ps).items
  {
    var v1 := Project(v, ps[0].sent.op, ps[0].at);
    var v2 := Project(v1, ps[1].sent.op, ps[1].at);
    assert ps[..2][..1] == ps[..1] && ps[..1][..0] == [];
    assert ProjectAll(v, []) == v && ProjectAll(v, ps[..1]) == v1 && ProjectAll(v, ps[..2]) == v2;
    assert u in v2.items && v2.items[u].list == l;
  }

  /**
    The queue [add, quantity + 1, edit] of a new row, once the add was applied, while the page's
    data has another device's open item of the name: the new row is hidden.
   */
  lemma NewRowHidden(v: View, ps: seq<PendingOp>, l: Uid, u: Uid, other: Uid, raw: string)
    requires u !in v.items && SameName(v.items, other, l, T.NameKey(T.Strip(raw))) && |ps| == 3
    requires ps[0].sent.op == ItemAdd(l, raw, Some(u)) && ps[1].sent.op == PlusOne(l, u) && ps[2].sent.op.ItemEdit?
    ensures u !in ProjectAll(v, ps).items
  {
    assert ps[..0] == [] && Blocked(v, ps[0].sent.op);
    forall k: nat ensures !CreatedAt(v, ps, u, k) {
      if k == 0 { assert ProjectAll(v, ps[..0]) == v; }
    }
    ShownIff(v, ps, {u}, u);
    hide ProjectAll;
  }
}

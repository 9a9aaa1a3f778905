/**
  One page and the server, run together: the queue sends ops, requests are delivered late, more
  than once or never, answers get lost, feeds arrive late, others write, and the page reloads.
 */
module Sync {
  import opened RoomModel
  import opened Tracking
  import opened Operations
  import opened RoomRules
  import opened ChangesFeed
  import opened Overlay
  import opened Rebase
  import opened RoomStores

  /** A stored queue entry; `tried` is set before its request goes out. */
  datatype QueueEntry = QueueEntry(sent: SentOp, at: Time, tried: bool)

  /** An op of this page as the server executed it, with the stored response. */
  datatype Execution = Execution(sent: SentOp, env: Env, response: Response)

  /** What took the tables from one state to the next. */
  datatype Event = Own(exec: Execution) | Others(run: seq<Stmt>)

  /** A read of the feed: asked, computed by the server at state `k`, arrived and not held back. */
  datatype Load = Idle | Asked | Computed(k: nat, feed: Feed) | Checked(k: nat, feed: Feed)

  /**
    `dbs` are all states of the room so far and `log` what happened between them. `done` finds an
    executed op in the log: its stored response. `known` are the ops this page saw applied.
   */
  datatype Sys = Sys(
    dbs: seq<Db>, log: seq<Event>, done: map<Uid, nat>,
    queue: seq<QueueEntry>, net: set<SentOp>, store: Store, load: Load, known: set<Uid>)

  function Now(s: Sys): Db
    requires s.dbs != []
  {
    s.dbs[|s.dbs| - 1]
  }

  // The steps

  datatype Step =
    | Act(sent: SentOp, at: Time)
    | StartSend
    | Transmit
    | Deliver(sent: SentOp, env: Env)
    | Answer(rewritten: map<Uid, Op>)
    | Lose(maybeApplied: bool)
    | Fail
    | Ask
    | Compute(feed: Feed)
    | Arrive
    | Apply
    | Other(run: seq<Stmt>)
    | Reload(snapshot: nat, stored: seq<QueueEntry>)

  predicate Open(s: Sys) { s.queue != [] && s.store.sending == Some(s.queue[0].sent.id) }

  predicate Fresh(s: Sys, id: Uid) {
    && id !in s.done && (forall e :: e in s.queue ==> e.sent.id != id)
    && (forall p :: p in s.store.pending ==> p.sent.id != id) && (forall m :: m in s.net ==> m.id != id)
  }

  /** The new bodies that `planRewrites` gives the queue behind the answered op. */
  ghost predicate Plans(s: Sys, rewritten: map<Uid, Op>, answer: Answer)
    requires s.queue != []
  {
    && (forall id :: id in rewritten ==> exists i :: 1 <= i < |s.queue| && s.queue[i].sent.id == id)
    && (forall i :: 1 <= i < |s.queue| ==>
         (CurrentBody(rewritten, s.queue[i].sent) == if s.queue[i].tried then s.queue[i].sent.op
          else Rewritten(s.queue[i].sent.op, s.queue[0].sent.op, answer, Shown(s.store))))
  }

  ghost predicate Can(s: Sys, step: Step)
    requires Shaped(s)
  {
    match step
    case Act(sent, at) => Fresh(s, sent.id) && WellFormed(sent.op) && IsProjected(sent.op)
    case StartSend => s.queue != [] && s.store.sending.None?
    case Transmit => Open(s)
    case Deliver(sent, env) => sent in s.net && WellFormed(sent.op) && EnvOk(Now(s), env)
    case Answer(rewritten) => Open(s) && s.queue[0].sent.id in s.done
        && Plans(s, rewritten, StoredResponse(s, s.queue[0].sent.id).answer)
    case Lose(maybeApplied) => Open(s)
        && (maybeApplied || s.queue[0].sent.id !in s.done || !HeadCertain(s.queue, s.store.pending))
    case Fail => Open(s)
    case Ask => s.load.Idle? && s.store.sending.None?
    case Compute(feed) => s.load.Asked? && Answers(Now(s), s.store.roomSeq, feed)
    case Arrive => s.load.Computed?
    case Apply => s.load.Checked?
    case Other(run) => RunAllowed(Now(s), run) && Ruled(Run(Now(s), run))
    case Reload(j, stored) => j < |s.dbs| && Storable(s, stored)
  }

  /** The op went out with this body. */
  predicate Went(s: Sys, m: SentOp) { m in s.net || DoneAs(s.log, s.done, m) }

  /**
    What a reload can find in the storage (`Delivery.EveryCrash`): storage calls run late, so the
    answered op may be first again, ops may have older bodies, and the newest may be missing. But
    an op that went out is the first, has the body that went out, and is stored until its answer.
   */
  ghost predicate Storable(s: Sys, stored: seq<QueueEntry>) {
    && (forall i, j :: 0 <= i < j < |stored| ==> stored[i].sent.id != stored[j].sent.id)
    && (forall i :: 1 <= i < |stored| ==> !stored[i].tried)
    && (forall i :: 0 <= i < |stored| ==> WellFormed(stored[i].sent.op) && IsProjected(stored[i].sent.op))
    && (forall i, m :: 0 <= i < |stored| && Went(s, m) && m.id == stored[i].sent.id ==>
      stored[i].tried && stored[i].sent == m)
    && (forall m :: m in s.net && m.id !in s.done ==> stored != [] && m.id == stored[0].sent.id)
  }

  /** Indices are in range, so that the step functions are defined. */
  predicate Shaped(s: Sys) {
    && s.dbs != [] && |s.dbs| == |s.log| + 1
    && (forall id :: id in s.done ==>
      s.done[id] < |s.log| && s.log[s.done[id]].Own? && s.log[s.done[id]].exec.sent.id == id)
    && |s.queue| <= |s.store.pending|
  }

  function StoredResponse(s: Sys, id: Uid): Response
    requires Shaped(s) && id in s.done
  {
    s.log[s.done[id]].exec.response
  }

  function Acted(s: Sys, sent: SentOp, at: Time): Sys {
    s.(queue := s.queue + [QueueEntry(sent, at, false)], store := AfterQueued(s.store, sent, at, false))
  }

  function SendStarted(s: Sys): Sys
    requires s.queue != []
  {
    s.(queue := s.queue[0 := s.queue[0].(tried := true)], store := AfterSending(s.store, s.queue[0].sent.id))
  }

  /** `run_once_locked`: a known op_id replays its response; else the op runs and is stored, unless by an HTTP error. */
  ghost function Delivered(s: Sys, sent: SentOp, env: Env): Sys
    requires s.dbs != []
  {
    var out := Handle(Now(s), sent.op, env);
    if sent.id in s.done || out.answer.HttpError? then s
    else Logged(s, Own(Execution(sent, env, Response(out.answer, out.db.changeSeq))),
        out.db).(done := s.done[sent.id := |s.log|])
  }

  function Logged(s: Sys, e: Event, b: Db): Sys { s.(dbs := s.dbs + [b], log := s.log + [e]) }

  function HeadAnswered(s: Sys, response: Response, rewritten: map<Uid, Op>): Sys
    requires s.queue != []
  {
    var op := s.queue[0].sent;
    s.(queue := RewriteQueue(s.queue[1..], rewritten),
      store := AfterRewrites(AfterAnswer(s.store, op, response), rewritten),
       known := if response.answer.Applied? then s.known + {op.id} else s.known)
  }

  /** An HTTP error: no copy of the request is still on its way. A 500 may have come after the commit. */
  function DroppedHead(s: Sys): Sys
    requires s.queue != []
  {
    s.(queue := s.queue[1..], net := s.net - {s.queue[0].sent}, store := AfterFailure(s.store, s.queue[0].sent.id))
  }

  /** No answer. If access was refused, the one request of a certain op was not executed and is gone. */
  function Silent(s: Sys, maybeApplied: bool): Sys
    requires s.queue != []
  {
    s.(net := if !maybeApplied && HeadCertain(s.queue, s.store.pending) then s.net - {s.queue[0].sent} else s.net,
       store := AfterSilence(s.store, s.queue[0].sent.id, maybeApplied))
  }

  function Reloaded(s: Sys, db: Db, stored: seq<QueueEntry>): Sys {
    s.(queue := stored, store := Store(ViewOf(db), db.changeSeq, Loaded(stored), [], None), load := Idle, known := {})
  }

  ghost function Do(s: Sys, step: Step): Sys
    requires Shaped(s) && Can(s, step)
  {
    match step
    case Act(sent, at) => Acted(s, sent, at)
    case StartSend => SendStarted(s)
    case Transmit => s.(net := s.net + {s.queue[0].sent})
    case Deliver(sent, env) => Delivered(s, sent, env)
    case Answer(rewritten) => HeadAnswered(s, StoredResponse(s, s.queue[0].sent.id), rewritten)
    case Lose(maybeApplied) => Silent(s, maybeApplied)
    case Fail => DroppedHead(s)
    case Ask => s.(load := Asked)
    case Compute(feed) => s.(load := Computed(|s.log|, feed))
    case Arrive => s.(load := if s.store.sending.None? then Checked(s.load.k, s.load.feed) else Idle)
    case Apply => s.(store := AfterFeed(s.store, s.load.feed), load := Idle)
    case Other(run) => Logged(s, Others(run), Run(Now(s), run))
    case Reload(j, stored) => Reloaded(s, s.dbs[j], stored)
  }

  function RewriteQueue(queue: seq<QueueEntry>, rewritten: map<Uid, Op>): seq<QueueEntry> {
    seq(|queue|,
      i requires 0 <= i < |queue| => queue[i].(sent := SentOp(queue[i].sent.id, CurrentBody(rewritten, queue[i].sent))))
  }

  /** What a reloaded page shows of its queue: an op that may have gone out is uncertain. */
  function Loaded(queue: seq<QueueEntry>): seq<PendingOp> {
    seq(|queue|, i requires 0 <= i < |queue| => PendingOp(queue[i].sent, queue[i].at, None, queue[i].tried))
  }

  // The invariant, by the parts of the state each piece is about

  ghost predicate Follows(a: Db, e: Event, b: Db) {
    match e
    case Own(x) =>
      && EnvOk(a, x.env) && WellFormed(x.sent.op) && b == Handle(a, x.sent.op, x.env).db
      && x.response == Response(Handle(a, x.sent.op, x.env).answer, b.changeSeq) && !x.response.answer.HttpError?
    case Others(run) => RunAllowed(a, run) && b == Run(a, run)
  }

  ghost predicate History(dbs: seq<Db>, log: seq<Event>) {
    && |dbs| == |log| + 1
    && (forall i :: 0 <= i < |dbs| ==> Tracked(dbs[i]) && Ruled(dbs[i]))
    && (forall i :: 0 <= i < |log| ==> Follows(dbs[i], log[i], dbs[i + 1]))
  }

  /** Seqs never go down. */
  ghost predicate Rising(dbs: seq<Db>) {
    forall i, j :: 0 <= i <= j < |dbs| ==> dbs[i].changeSeq <= dbs[j].changeSeq
  }

  /** Each op_id is in the log at most once, where `done` says. */
  ghost predicate Once(log: seq<Event>, done: map<Uid, nat>) {
    && (forall id :: id in done ==> done[id] < |log| && log[done[id]].Own? && log[done[id]].exec.sent.id == id)
    && (forall i :: 0 <= i < |log| && log[i].Own? ==> log[i].exec.sent.id in done && done[log[i].exec.sent.id] == i)
  }

  /** The op was executed with this body. */
  predicate DoneAs(log: seq<Event>, done: map<Uid, nat>, sent: SentOp) {
    sent.id in done && done[sent.id] < |log| && log[done[sent.id]].Own? && log[done[sent.id]].exec.sent == sent
  }

  /** Only the head of the queue was ever sent, always with one body. */
  ghost predicate HeadOfLine(log: seq<Event>, done: map<Uid, nat>, queue: seq<QueueEntry>, net: set<SentOp>) {
    && (forall i, j :: 0 <= i < j < |queue| ==> queue[i].sent.id != queue[j].sent.id)
    && (forall i :: 1 <= i < |queue| ==> !queue[i].tried && queue[i].sent.id !in done)
    && (queue != [] && queue[0].sent.id in done ==> queue[0].tried && DoneAs(log, done, queue[0].sent))
    && (forall m :: m in net ==> DoneAs(log, done, m) || (queue != [] && queue[0].sent == m && queue[0].tried))
    && (forall i :: 0 <= i < |queue| ==> WellFormed(queue[i].sent.op) && IsProjected(queue[i].sent.op))
  }

  /** The server data is the room at the page's seq (at state `j`). */
  ghost predicate DataAt(dbs: seq<Db>, server: View, roomSeq: nat, j: int) {
    0 <= j < |dbs| && dbs[j].changeSeq == roomSeq && server == ViewOf(dbs[j])
  }

  ghost predicate DataOk(dbs: seq<Db>, server: View, roomSeq: nat) { exists j :: DataAt(dbs, server, roomSeq, j) }

  /** The projected op at `i` of the second part, which mirrors the queue. */
  predicate MirrorsAt(queue: seq<QueueEntry>, pending: seq<PendingOp>, i: int)
    requires 0 <= i < |queue| <= |pending|
  {
    var p := pending[|pending| - |queue| + i];
    p.sent == queue[i].sent && p.at == queue[i].at && p.appliedSeq.None? && (i >= 1 ==> !p.uncertain)
  }

  ghost predicate Mirrors(queue: seq<QueueEntry>, pending: seq<PendingOp>) {
    |queue| <= |pending| && forall i :: 0 <= i < |queue| ==> MirrorsAt(queue, pending, i)
  }

  /** The seq at which the op was executed. */
  function SeqAfter(dbs: seq<Db>, done: map<Uid, nat>, id: Uid): nat
    requires id in done
  {
    if done[id] + 1 < |dbs| then dbs[done[id] + 1].changeSeq else 0
  }

  predicate WasApplied(log: seq<Event>, done: map<Uid, nat>, id: Uid) {
    id in done && done[id] < |log| && log[done[id]].Own? && log[done[id]].exec.response.answer.Applied?
  }

  /** One op answered as applied that the data does not have yet. */
  predicate Outrun(dbs: seq<Db>, log: seq<Event>, done: map<Uid, nat>, p: PendingOp, roomSeq: nat) {
    && DoneAs(log, done, p.sent) && WasApplied(log, done, p.sent.id)
    && p.appliedSeq == Some(SeqAfter(dbs, done, p.sent.id)) && SeqAfter(dbs, done, p.sent.id) > roomSeq && !p.uncertain
      && IsProjected(p.sent.op)
  }

  predicate InQueue(queue: seq<QueueEntry>, id: Uid) { exists e | e in queue :: e.sent.id == id }

  /** The first part of the projected ops: those outrunning the data, in the order of execution, not queued any more. */
  ghost predicate FrontOk(dbs: seq<Db>, log: seq<Event>, done: map<Uid, nat>, queue: seq<QueueEntry>,
      pending: seq<PendingOp>, roomSeq: nat) {
    && (forall i :: 0 <= i < |pending| - |queue| ==>
      Outrun(dbs, log, done, pending[i], roomSeq) && !InQueue(queue, pending[i].sent.id))
    && (forall i, j :: 0 <= i < j < |pending| - |queue| ==> Earlier(done, pending[i].sent.id, pending[j].sent.id))
    && (HeadDone(done, queue) ==>
          forall i :: 0 <= i < |pending| - |queue| ==> Earlier(done, pending[i].sent.id, queue[0].sent.id))
  }

  predicate Earlier(done: map<Uid, nat>, a: Uid, b: Uid) { a in done && b in done && done[a] < done[b] }

  predicate HeadDone(done: map<Uid, nat>, queue: seq<QueueEntry>) { queue != [] && queue[0].sent.id in done }

  predicate HeadCertain(queue: seq<QueueEntry>, pending: seq<PendingOp>) {
    0 < |queue| <= |pending| && !pending[|pending| - |queue|].uncertain
  }

  /**
    An executed op shown as certain is one whose answer is open, and the data is from before it.
    (A copy of an op shown as certain travels only while the answer is open.)
   */
  ghost predicate NotTwice(dbs: seq<Db>, done: map<Uid, nat>, queue: seq<QueueEntry>, net: set<SentOp>, store: Store,
      load: Load) {
    HeadCertain(queue, store.pending) && (queue[0].sent.id in done || queue[0].sent in net) ==>
      && store.sending == Some(queue[0].sent.id)
      && (queue[0].sent.id in done ==>
        DataBy(dbs, store.server, store.roomSeq, done[queue[0].sent.id])
        && (load.Checked? ==> load.k <= done[queue[0].sent.id]))
  }

  /** The server data is that of a state up to `k`. */
  ghost predicate DataBy(dbs: seq<Db>, server: View, roomSeq: nat, k: nat) {
    exists j :: j <= k && DataAt(dbs, server, roomSeq, j)
  }

  /** An op the page saw applied is in the data or still shown. */
  ghost predicate NotLost(dbs: seq<Db>, log: seq<Event>, done: map<Uid, nat>, known: set<Uid>, front: seq<PendingOp>,
      roomSeq: nat) {
    forall id :: id in known ==> WasApplied(log, done, id) && (SeqAfter(dbs, done, id) <= roomSeq || Waits(front, id))
  }

  function Front(queue: seq<QueueEntry>, pending: seq<PendingOp>): seq<PendingOp>
    requires |queue| <= |pending|
  {
    pending[..|pending| - |queue|]
  }

  ghost predicate LoadOk(dbs: seq<Db>, server: View, roomSeq: nat, load: Load) {
    load.Computed? || load.Checked? ==>
      && load.k < |dbs| && Answers(dbs[load.k], roomSeq, load.feed)
      && DataBy(dbs, server, roomSeq, load.k)
  }

  predicate SendOk(queue: seq<QueueEntry>, sending: Option<Uid>) {
    sending.Some? ==> queue != [] && sending.value == queue[0].sent.id && queue[0].tried
  }

  ghost predicate Inv(s: Sys) {
    && History(s.dbs, s.log) && Rising(s.dbs) && Once(s.log, s.done)
    && HeadOfLine(s.log, s.done, s.queue, s.net)
    && DataOk(s.dbs, s.store.server, s.store.roomSeq)
    && Mirrors(s.queue, s.store.pending)
    && FrontOk(s.dbs, s.log, s.done, s.queue, s.store.pending, s.store.roomSeq)
    && NotTwice(s.dbs, s.done, s.queue, s.net, s.store, s.load)
    && NotLost(s.dbs, s.log, s.done, s.known, Front(s.queue, s.store.pending), s.store.roomSeq)
    && LoadOk(s.dbs, s.store.server, s.store.roomSeq, s.load)
    && SendOk(s.queue, s.store.sending)
  }

  /** A page that just loaded a room, with nothing queued. */
  predicate Start(s: Sys, db: Db) {
    s == Sys([db], [], map[], [], {}, Store(ViewOf(db), db.changeSeq, [], [], None), Idle, {})
  }

  lemma StartInv(s: Sys, db: Db)
    requires Tracked(db) && Ruled(db) && Start(s, db)
    ensures Inv(s)
  {
    assert DataAt(s.dbs, s.store.server, s.store.roomSeq, 0);
  }

  // Each step keeps the invariant. Queueing an op:

  lemma ActKeeps(s: Sys, sent: SentOp, at: Time)
    requires Inv(s) && Fresh(s, sent.id) && WellFormed(sent.op) && IsProjected(sent.op)
    ensures Inv(Acted(s, sent, at))
  {
    hide History, Rising, Once, DataOk, LoadOk, NotLost;
    var t := Acted(s, sent, at);
    assert !Waits(s.store.pending, sent.id);
    assert t.store.pending == s.store.pending + [PendingOp(sent, at, None, false)];
    assert Front(t.queue, t.store.pending) == Front(s.queue, s.store.pending);
    ActQueue(s.log, s.done, s.queue, s.net, sent, at);
    ActMirrors(s.queue, s.store.pending, sent, at);
    ActFront(s.dbs, s.log, s.done, s.queue, s.store.pending, s.store.roomSeq, sent, at);
    hide HeadOfLine, Mirrors, FrontOk;
  }

  lemma ActQueue(log: seq<Event>, done: map<Uid, nat>, queue: seq<QueueEntry>, net: set<SentOp>, sent: SentOp, at: Time)
    requires HeadOfLine(log, done, queue, net) && sent.id !in done && (forall e :: e in queue ==> e.sent.id != sent.id)
    requires WellFormed(sent.op) && IsProjected(sent.op)
    ensures HeadOfLine(log, done, queue + [QueueEntry(sent, at, false)], net)
  {
    hide WellFormed;
  }

  lemma ActMirrors(queue: seq<QueueEntry>, pending: seq<PendingOp>, sent: SentOp, at: Time)
    requires Mirrors(queue, pending)
    ensures Mirrors(queue + [QueueEntry(sent, at, false)], pending + [PendingOp(sent, at, None, false)])
  {
    forall i | 0 <= i < |queue| + 1
      ensures MirrorsAt(queue + [QueueEntry(sent, at, false)], pending + [PendingOp(sent, at, None, false)], i)
    {
      if i < |queue| { assert MirrorsAt(queue, pending, i); }
    }
  }

  lemma ActFront(dbs: seq<Db>, log: seq<Event>, done: map<Uid, nat>, queue: seq<QueueEntry>, pending: seq<PendingOp>,
      roomSeq: nat, sent: SentOp, at: Time)
    requires FrontOk(dbs, log, done, queue, pending, roomSeq) && |queue| <= |pending| && sent.id !in done
    ensures FrontOk(dbs, log, done, queue + [QueueEntry(sent, at, false)], pending + [PendingOp(sent, at, None, false)],
      roomSeq)
  {
  }

  // Sending the head:

  lemma StartSendKeeps(s: Sys)
    requires Inv(s) && s.queue != [] && s.store.sending.None?
    ensures Inv(SendStarted(s))
  {
    hide History, Rising, Once, DataOk, LoadOk, NotLost;
    var t := SendStarted(s);
    var e := s.queue[0].(tried := true);
    assert t.queue == s.queue[0 := e];
    assert HeadOfLine(t.log, t.done, t.queue, t.net) by { hide FrontOk, Mirrors, NotTwice, WellFormed; }
    assert Mirrors(t.queue, t.store.pending) by {
      forall i | 0 <= i < |t.queue| ensures MirrorsAt(t.queue, t.store.pending, i) {
        assert MirrorsAt(s.queue, s.store.pending, i);
      }
    }
    SameIds(s.queue, t.queue);
    assert FrontOk(t.dbs, t.log, t.done, t.queue, t.store.pending, t.store.roomSeq);
    hide HeadOfLine, FrontOk, Mirrors;
  }

  lemma SameIds(a: seq<QueueEntry>, b: seq<QueueEntry>)
    requires |a| == |b| && forall i :: 0 <= i < |a| ==> a[i].sent.id == b[i].sent.id
    ensures forall id :: InQueue(a, id) <==> InQueue(b, id)
  {
    forall id ensures InQueue(a, id) <==> InQueue(b, id) {
      if InQueue(a, id) { var i :| 0 <= i < |a| && a[i].sent.id == id; assert b[i] in b; }
      if InQueue(b, id) { var i :| 0 <= i < |b| && b[i].sent.id == id; assert a[i] in a; }
    }
  }

  lemma TransmitKeeps(s: Sys)
    requires Inv(s) && Open(s)
    ensures Inv(s.(net := s.net + {s.queue[0].sent}))
  {
    hide History, Rising, Once, DataOk, LoadOk, NotLost, Mirrors, FrontOk;
    var t := s.(net := s.net + {s.queue[0].sent});
    assert HeadOfLine(t.log, t.done, t.queue, t.net) by { hide NotTwice, WellFormed; }
    hide HeadOfLine;
  }

  // The server executes a request:

  lemma DeliverKeeps(s: Sys, sent: SentOp, env: Env)
    requires Inv(s) && sent in s.net && sent.id !in s.done && WellFormed(sent.op) && EnvOk(Now(s), env)
    requires !Handle(Now(s), sent.op, env).answer.HttpError?
    ensures Inv(Delivered(s, sent, env))
  {
    hide Handle, Follows, Tracked, Ruled, EnvOk, WellFormed;
    var out := Handle(Now(s), sent.op, env);
    var x, db := Execution(sent, env, Response(out.answer, out.db.changeSeq)), Now(s);
    assert Tracked(db) && Ruled(db);
    HandleKeepsRules(db, sent.op, env);
    OwnFollows(db, x);
    hide History;
    assert s.queue != [] && s.queue[0].sent == sent && s.queue[0].tried by { hide FrontOk, Mirrors, NotTwice, NotLost; }
    DeliveredParts(s, x, out.db);
    hide Inv;
  }

  lemma DeliveredParts(s: Sys, x: Execution, b: Db)
    requires Inv(s) && x.sent.id !in s.done && s.queue != [] && s.queue[0].sent == x.sent && s.queue[0].tried
      && x.sent in s.net
    requires Tracked(b) && Ruled(b) && Follows(s.dbs[|s.log|], Own(x), b) && s.dbs[|s.log|].changeSeq <= b.changeSeq
    ensures Inv(Logged(s, Own(x), b).(done := s.done[x.sent.id := |s.log|]))
  {
    hide Follows, Tracked, Ruled, WellFormed;
    HistoryGrows(s.dbs, s.log, Own(x), b);
    hide History;
    OnceGrows(s.log, s.done, x);
    QueueAfterDelivery(s.log, s.done, s.queue, s.net, x);
    DataGrows(s.dbs, b, s.store.server, s.store.roomSeq, s.load);
    hide Once, HeadOfLine;
    FrontAfterDelivery(s.dbs, s.log, s.done, s.queue, s.store.pending, s.store.roomSeq, x, b);
    LostAfterGrowth(s.dbs, s.log, s.done, s.known, Front(s.queue, s.store.pending), s.store.roomSeq, Own(x), b,
      x.sent.id);
    hide FrontOk, NotLost;
    DataBehind(s.dbs, s.store.server, s.store.roomSeq);
    DataByGrows(s.dbs, b, s.store.server, s.store.roomSeq, |s.log|);
    hide Rising, DataOk, DataBy, Mirrors;
  }

  lemma DataBehind(dbs: seq<Db>, server: View, roomSeq: nat)
    requires DataOk(dbs, server, roomSeq) && Rising(dbs)
    ensures dbs != [] && DataBy(dbs, server, roomSeq, |dbs| - 1)
  {
    hide ViewOf;
    var j :| DataAt(dbs, server, roomSeq, j);
  }

  lemma OwnFollows(a: Db, x: Execution)
    requires EnvOk(a, x.env) && WellFormed(x.sent.op)
    requires x.response == Response(Handle(a, x.sent.op, x.env).answer, Handle(a, x.sent.op, x.env).db.changeSeq)
    requires !x.response.answer.HttpError?
    ensures Follows(a, Own(x), Handle(a, x.sent.op, x.env).db)
  {
    hide Handle, EnvOk, WellFormed;
  }

  lemma HistoryGrows(dbs: seq<Db>, log: seq<Event>, e: Event, b: Db)
    requires History(dbs, log) && Rising(dbs) && Tracked(b) && Ruled(b) && Follows(dbs[|log|], e, b)
      && dbs[|log|].changeSeq <= b.changeSeq
    ensures History(dbs + [b], log + [e]) && Rising(dbs + [b])
  {
    hide Tracked, Ruled, Follows;
  }

  lemma OnceGrows(log: seq<Event>, done: map<Uid, nat>, x: Execution)
    requires Once(log, done) && x.sent.id !in done
    ensures Once(log + [Own(x)], done[x.sent.id := |log|])
  {
  }

  lemma QueueAfterDelivery(log: seq<Event>, done: map<Uid, nat>, queue: seq<QueueEntry>, net: set<SentOp>, x: Execution)
    requires HeadOfLine(log, done, queue, net) && queue != [] && queue[0].sent == x.sent && queue[0].tried
      && x.sent.id !in done
    ensures HeadOfLine(log + [Own(x)], done[x.sent.id := |log|], queue, net)
  {
    hide WellFormed;
  }

  lemma DataGrows(dbs: seq<Db>, b: Db, server: View, roomSeq: nat, load: Load)
    requires DataOk(dbs, server, roomSeq) && LoadOk(dbs, server, roomSeq, load)
    ensures DataOk(dbs + [b], server, roomSeq) && LoadOk(dbs + [b], server, roomSeq, load)
  {
    hide Answers, ViewOf, DataBy;
    var j :| DataAt(dbs, server, roomSeq, j);
    assert DataAt(dbs + [b], server, roomSeq, j);
    if load.Computed? || load.Checked? { DataByGrows(dbs, b, server, roomSeq, load.k); }
  }

  lemma FrontAfterDelivery(dbs: seq<Db>, log: seq<Event>, done: map<Uid, nat>, queue: seq<QueueEntry>,
      pending: seq<PendingOp>, roomSeq: nat, x: Execution, b: Db)
    requires FrontOk(dbs, log, done, queue, pending, roomSeq) && |dbs| == |log| + 1 && x.sent.id !in done
    requires queue != [] && queue[0].sent == x.sent
    ensures FrontOk(dbs + [b], log + [Own(x)], done[x.sent.id := |log|], queue, pending, roomSeq)
  {
  }

  lemma LostAfterGrowth(dbs: seq<Db>, log: seq<Event>, done: map<Uid, nat>, known: set<Uid>, front: seq<PendingOp>,
      roomSeq: nat, e: Event, b: Db, id: Uid)
    requires NotLost(dbs, log, done, known, front, roomSeq) && |dbs| == |log| + 1
    ensures NotLost(dbs + [b], log + [e], done, known, front, roomSeq)
    ensures id !in done ==> NotLost(dbs + [b], log + [e], done[id := |log|], known, front, roomSeq)
  {
  }

  // Others write:

  lemma OtherKeeps(s: Sys, run: seq<Stmt>)
    requires Inv(s) && RunAllowed(Now(s), run) && Ruled(Run(Now(s), run))
    ensures Inv(Logged(s, Others(run), Run(Now(s), run)))
  {
    var b, db := Run(Now(s), run), Now(s);
    hide Run, RunAllowed, Tracked, Ruled, Follows;
    assert Tracked(db) by { hide Rising, Once, DataOk, LoadOk, NotLost, Mirrors, FrontOk, HeadOfLine, NotTwice; }
    RunTracked(db, run);
    OthersFollow(db, run);
    OtherParts(s, run, b);
  }

  lemma OthersFollow(a: Db, run: seq<Stmt>)
    requires RunAllowed(a, run)
    ensures Follows(a, Others(run), Run(a, run))
  {
    hide RunAllowed, Run;
  }

  lemma OtherParts(s: Sys, run: seq<Stmt>, b: Db)
    requires Inv(s) && Follows(s.dbs[|s.log|], Others(run), b) && Tracked(b) && Ruled(b)
      && s.dbs[|s.log|].changeSeq <= b.changeSeq
    ensures Inv(Logged(s, Others(run), b))
  {
    hide Tracked, Ruled, Follows, LoadOk, NotLost, MirrorsAt, FrontOk, HeadOfLine, NotTwice, DataOk;
    HistoryGrows(s.dbs, s.log, Others(run), b);
    hide History;
    DataGrows(s.dbs, b, s.store.server, s.store.roomSeq, s.load);
    OtherLog(s.dbs, s.log, s.done, s.queue, s.net, s.store.pending, s.store.roomSeq, run, b);
    LostAfterGrowth(s.dbs, s.log, s.done, s.known, Front(s.queue, s.store.pending), s.store.roomSeq, Others(run), b, 0);
    TwiceAfterGrowth(s, b);
    hide Rising, Once;
  }

  lemma TwiceAfterGrowth(s: Sys, b: Db)
    requires NotTwice(s.dbs, s.done, s.queue, s.net, s.store, s.load)
    ensures NotTwice(s.dbs + [b], s.done, s.queue, s.net, s.store, s.load)
  {
    forall k: nat | DataBy(s.dbs, s.store.server, s.store.roomSeq, k)
      ensures DataBy(s.dbs + [b], s.store.server, s.store.roomSeq, k)
    {
      DataByGrows(s.dbs, b, s.store.server, s.store.roomSeq, k);
    }
    hide DataBy;
  }

  lemma DataByGrows(dbs: seq<Db>, b: Db, server: View, roomSeq: nat, k: nat)
    requires DataBy(dbs, server, roomSeq, k)
    ensures DataBy(dbs + [b], server, roomSeq, k)
  {
    hide ViewOf;
    var j :| j <= k && DataAt(dbs, server, roomSeq, j);
    assert DataAt(dbs + [b], server, roomSeq, j);
  }

  lemma OtherLog(dbs: seq<Db>, log: seq<Event>, done: map<Uid, nat>, queue: seq<QueueEntry>, net: set<SentOp>,
      pending: seq<PendingOp>, roomSeq: nat, run: seq<Stmt>, b: Db)
    requires Once(log, done) && HeadOfLine(log, done, queue, net) && FrontOk(dbs, log, done, queue, pending, roomSeq)
      && |dbs| == |log| + 1
    ensures Once(log + [Others(run)], done) && HeadOfLine(log + [Others(run)], done, queue, net)
    ensures FrontOk(dbs + [b], log + [Others(run)], done, queue, pending, roomSeq)
  {
    hide WellFormed;
  }

  // The answer comes:

  lemma {:induction false} DropNone(pending: seq<PendingOp>, id: Uid)
    requires forall p :: p in pending ==> p.sent.id != id
    ensures Drop(pending, id) == pending
  {
    if pending != [] {
      DropNone(pending[..|pending| - 1], id);
      assert pending == pending[..|pending| - 1] + [pending[|pending| - 1]];
    }
  }

  lemma {:induction false} DropAt(pending: seq<PendingOp>, n: nat, id: Uid)
    requires n < |pending| && pending[n].sent.id == id && forall i :: 0 <= i < |pending| && i != n ==>
      pending[i].sent.id != id
    ensures Drop(pending, id) == pending[..n] + pending[n + 1..]
    decreases |pending|
  {
    var rest, last := pending[..|pending| - 1], pending[|pending| - 1];
    if n == |pending| - 1 {
      DropNone(rest, id);
    } else {
      DropAt(rest, n, id);
      assert pending[n + 1..] == rest[n + 1..] + [last];
    }
  }

  /** The head's projected op is the only one with its ID. */
  lemma HeadAlone(dbs: seq<Db>, log: seq<Event>, done: map<Uid, nat>, queue: seq<QueueEntry>, net: set<SentOp>,
      pending: seq<PendingOp>, roomSeq: nat)
    requires HeadOfLine(log, done, queue, net) && Mirrors(queue, pending)
      && FrontOk(dbs, log, done, queue, pending, roomSeq) && queue != []
    ensures |queue| <= |pending|
    ensures var n := |pending| - |queue|;
      pending[n].sent == queue[0].sent && forall i :: 0 <= i < |pending| && i != n ==>
        pending[i].sent.id != queue[0].sent.id
  {
    var n := |pending| - |queue|;
    assert MirrorsAt(queue, pending, 0);
    forall i | 0 <= i < |pending| && i != n ensures pending[i].sent.id != queue[0].sent.id {
      if i < n {
        assert Outrun(dbs, log, done, pending[i], roomSeq) && !InQueue(queue, pending[i].sent.id);
        assert queue[0] in queue;
      } else {
        assert MirrorsAt(queue, pending, i - n);
        assert queue[0].sent.id != queue[i - n].sent.id;
      }
    }
    hide WellFormed;
  }

  function Rebodied(pending: seq<PendingOp>, rewritten: map<Uid, Op>): seq<PendingOp> {
    seq(|pending|, i requires 0 <= i < |pending| =>
      pending[i].(sent := SentOp(pending[i].sent.id, CurrentBody(rewritten, pending[i].sent))))
  }

  lemma RewrittenShape(op: Op, settled: Op, answer: Answer, known: View)
    requires WellFormed(op) && IsProjected(op)
    ensures WellFormed(Rewritten(op, settled, answer, known)) && IsProjected(Rewritten(op, settled, answer, known))
  {
  }

  lemma AnsweredQueue(s: Sys, answer: Answer, rewritten: map<Uid, Op>)
    requires HeadOfLine(s.log, s.done, s.queue, s.net) && s.queue != [] && s.queue[0].sent.id in s.done
      && Plans(s, rewritten, answer)
    ensures HeadOfLine(s.log, s.done, RewriteQueue(s.queue[1..], rewritten), s.net)
  {
    var q := RewriteQueue(s.queue[1..], rewritten);
    forall i | 0 <= i < |q| ensures WellFormed(q[i].sent.op) && IsProjected(q[i].sent.op) {
      RewrittenShape(s.queue[i + 1].sent.op, s.queue[0].sent.op, answer, Shown(s.store));
      assert CurrentBody(rewritten, s.queue[i + 1].sent) == q[i].sent.op;
    }
    hide WellFormed, Rewritten;
    forall i | 0 <= i < |q| ensures q[i].sent.id == s.queue[i + 1].sent.id && q[i].tried == s.queue[i + 1].tried {}
    forall i, j | 0 <= i < j < |q| ensures q[i].sent.id != q[j].sent.id {}
  }

  /** The queue moves up one place; its projection loses the head, or keeps it in front. */
  lemma AnsweredMirrors(queue: seq<QueueEntry>, pending: seq<PendingOp>, after: seq<PendingOp>, rewritten: map<Uid, Op>)
    requires Mirrors(queue, pending) && queue != [] && |queue| - 1 <= |after|
    requires after[|after| - |queue| + 1..] == pending[|pending| - |queue| + 1..]
    ensures Mirrors(RewriteQueue(queue[1..], rewritten), Rebodied(after, rewritten))
  {
    var q, ps := RewriteQueue(queue[1..], rewritten), Rebodied(after, rewritten);
    forall i | 0 <= i < |q| ensures MirrorsAt(q, ps, i) {
      assert MirrorsAt(queue, pending, i + 1);
      assert after[|after| - |queue| + 1..][i] == pending[|pending| - |queue| + 1..][i];
    }
  }

  /** Rewrites name queued ops behind the head only, so the front keeps its bodies. */
  lemma FrontKeepsBodies(s: Sys, rewritten: map<Uid, Op>, answer: Answer, after: seq<PendingOp>, n: nat)
    requires s.queue != [] && Plans(s, rewritten, answer) && n <= |after|
    requires forall i :: 0 <= i < n ==> forall k :: 1 <= k < |s.queue| ==> after[i].sent.id != s.queue[k].sent.id
    ensures Rebodied(after, rewritten)[..n] == after[..n]
  {
    forall i | 0 <= i < n ensures after[i].sent.id !in rewritten {}
  }

  /** What the answer makes of the projected ops. */
  function AfterHead(pending: seq<PendingOp>, n: nat, response: Response, roomSeq: nat): seq<PendingOp>
    requires n < |pending|
  {
    if response.answer.Applied? && response.roomSeq > roomSeq
    then pending[n := pending[n].(appliedSeq := Some(response.roomSeq), uncertain := false)]
    else pending[..n] + pending[n + 1..]
  }

  lemma AnswerPending(s: Store, n: nat, op: SentOp, response: Response, rewritten: map<Uid, Op>)
    requires n < |s.pending| && s.pending[n].sent.id == op.id && forall i :: 0 <= i < |s.pending| && i != n ==>
      s.pending[i].sent.id != op.id
    ensures AfterRewrites(AfterAnswer(s, op, response), rewritten).pending
      == Rebodied(AfterHead(s.pending, n, response, s.roomSeq), rewritten)
  {
    if !(response.answer.Applied? && response.roomSeq > s.roomSeq) { DropAt(s.pending, n, op.id); }
  }

  /** The queue without its answered head, and the projected ops whose front may have gained it. */
  ghost predicate HeadLeft(dbs: seq<Db>, log: seq<Event>, done: map<Uid, nat>, queue: seq<QueueEntry>,
      pending: seq<PendingOp>, roomSeq: nat, response: Response, q: seq<QueueEntry>, ps: seq<PendingOp>) {
    && queue != [] && |queue| <= |pending| && |q| == |queue| - 1 && |q| <= |ps|
    && DoneAs(log, done, queue[0].sent) && IsProjected(queue[0].sent.op)
    && pending[|pending| - |queue|].sent == queue[0].sent && log[done[queue[0].sent.id]].exec.response == response
    && (response.answer.Applied? ==> response.roomSeq == SeqAfter(dbs, done, queue[0].sent.id))
    && (forall i :: 0 <= i < |q| ==> q[i].sent.id == queue[i + 1].sent.id && q[i].sent.id !in done)
    && (forall i :: 1 <= i < |queue| ==> queue[i].sent.id != queue[0].sent.id)
    && var after := AfterHead(pending, |pending| - |queue|, response, roomSeq);
    |ps| == |after| && ps[..|ps| - |q|] == after[..|ps| - |q|]
  }

  lemma LeftOutruns(dbs: seq<Db>, log: seq<Event>, done: map<Uid, nat>, queue: seq<QueueEntry>,
      pending: seq<PendingOp>, roomSeq: nat, response: Response, q: seq<QueueEntry>, ps: seq<PendingOp>, i: nat)
    requires FrontOk(dbs, log, done, queue, pending, roomSeq) && i < |ps| - |q|
      && HeadLeft(dbs, log, done, queue, pending, roomSeq, response, q, ps)
    ensures Outrun(dbs, log, done, ps[i], roomSeq) && !InQueue(q, ps[i].sent.id)
  {
    var n := |pending| - |queue|;
    assert ps[i] == ps[..|ps| - |q|][i] == AfterHead(pending, n, response, roomSeq)[i];
    if i < n {
      assert ps[i] == pending[i] && Outrun(dbs, log, done, pending[i], roomSeq);
      hide Outrun;
      forall k | 0 <= k < |q| ensures q[k].sent.id != ps[i].sent.id {
        assert !InQueue(queue, pending[i].sent.id) && queue[k + 1] in queue;
      }
    }
  }

  lemma LeftInOrder(dbs: seq<Db>, log: seq<Event>, done: map<Uid, nat>, queue: seq<QueueEntry>,
      pending: seq<PendingOp>, roomSeq: nat, response: Response, q: seq<QueueEntry>, ps: seq<PendingOp>, i: nat, j: nat)
    requires FrontOk(dbs, log, done, queue, pending, roomSeq) && i < j < |ps| - |q|
      && HeadLeft(dbs, log, done, queue, pending, roomSeq, response, q, ps)
    ensures Earlier(done, ps[i].sent.id, ps[j].sent.id)
  {
    hide Outrun, InQueue;
    var m := |ps| - |q|;
    assert ps[i] == ps[..m][i] && ps[j] == ps[..m][j];
  }

  lemma AnsweredFront(dbs: seq<Db>, log: seq<Event>, done: map<Uid, nat>, queue: seq<QueueEntry>,
      pending: seq<PendingOp>, roomSeq: nat, response: Response, q: seq<QueueEntry>, ps: seq<PendingOp>)
    requires FrontOk(dbs, log, done, queue, pending, roomSeq)
      && HeadLeft(dbs, log, done, queue, pending, roomSeq, response, q, ps)
    ensures FrontOk(dbs, log, done, q, ps, roomSeq)
  {
    hide Outrun, InQueue, Earlier;
    forall i | 0 <= i < |ps| - |q| ensures Outrun(dbs, log, done, ps[i], roomSeq) && !InQueue(q, ps[i].sent.id) {
      LeftOutruns(dbs, log, done, queue, pending, roomSeq, response, q, ps, i);
    }
    forall i, j | 0 <= i < j < |ps| - |q| ensures Earlier(done, ps[i].sent.id, ps[j].sent.id) {
      LeftInOrder(dbs, log, done, queue, pending, roomSeq, response, q, ps, i, j);
    }
    NoneLeftDone(dbs, log, done, queue, pending, roomSeq, response, q, ps);
  }

  lemma NoneLeftDone(dbs: seq<Db>, log: seq<Event>, done: map<Uid, nat>, queue: seq<QueueEntry>,
      pending: seq<PendingOp>, roomSeq: nat, response: Response, q: seq<QueueEntry>, ps: seq<PendingOp>)
    requires HeadLeft(dbs, log, done, queue, pending, roomSeq, response, q, ps)
    ensures !HeadDone(done, q)
  {
  }

  lemma AnsweredLost(dbs: seq<Db>, log: seq<Event>, done: map<Uid, nat>, known: set<Uid>, front: seq<PendingOp>,
      roomSeq: nat, id: Uid, response: Response,
                     front': seq<PendingOp>)
    requires NotLost(dbs, log, done, known, front, roomSeq) && id in done && done[id] < |log| && log[done[id]].Own?
    requires log[done[id]].exec.response == response
      && (response.answer.Applied? ==> response.roomSeq == SeqAfter(dbs, done, id))
    requires forall p :: p in front ==> p in front'
    requires response.answer.Applied? && response.roomSeq > roomSeq ==> Waits(front', id)
    ensures NotLost(dbs, log, done, if response.answer.Applied? then known + {id} else known, front', roomSeq)
  {
    forall x | x in known ensures Waits(front, x) ==> Waits(front', x) {
      if Waits(front, x) {
        var p :| p in front && p.sent.id == x;
        assert p in front';
      }
    }
  }

  lemma StoredSeq(dbs: seq<Db>, log: seq<Event>, done: map<Uid, nat>, sent: SentOp)
    requires History(dbs, log) && DoneAs(log, done, sent)
    ensures log[done[sent.id]].exec.response.roomSeq == SeqAfter(dbs, done, sent.id)
  {
    hide Tracked, Ruled, Handle, EnvOk, WellFormed;
    assert Follows(dbs[done[sent.id]], log[done[sent.id]], dbs[done[sent.id] + 1]);
  }

  lemma AnsweredBodies(s: Sys, rewritten: map<Uid, Op>, response: Response)
    requires HeadOfLine(s.log, s.done, s.queue, s.net) && Mirrors(s.queue, s.store.pending) && s.queue != []
    requires FrontOk(s.dbs, s.log, s.done, s.queue, s.store.pending, s.store.roomSeq)
      && Plans(s, rewritten, response.answer)
    ensures var after := AfterHead(s.store.pending, |s.store.pending| - |s.queue|, response, s.store.roomSeq);
      Rebodied(after, rewritten)[..|after| - |s.queue| + 1] == after[..|after| - |s.queue| + 1]
  {
    hide Plans, Shown, Rewritten, WellFormed;
    var n := |s.store.pending| - |s.queue|;
    var after := AfterHead(s.store.pending, n, response, s.store.roomSeq);
    HeadAlone(s.dbs, s.log, s.done, s.queue, s.net, s.store.pending, s.store.roomSeq);
    var m := |after| - |s.queue| + 1;
    forall i, k | 0 <= i < m && 1 <= k < |s.queue| ensures after[i].sent.id != s.queue[k].sent.id {
      if i < n {
        assert !InQueue(s.queue, s.store.pending[i].sent.id) && s.queue[k] in s.queue;
      } else {
        assert s.queue[0].sent.id == after[i].sent.id;
      }
    }
    FrontKeepsBodies(s, rewritten, response.answer, after, m);
  }

  /** The front keeps its ops, and an applied head that outruns the data joins it. */
  lemma FrontAfter(pending: seq<PendingOp>, n: nat, response: Response, roomSeq: nat, queued: nat)
    requires n + queued == |pending| && queued > 0
    ensures var after := AfterHead(pending, n, response, roomSeq);
      |after| >= queued - 1 && (forall p :: p in pending[..n] ==> p in after[..|after| - queued + 1])
      && (response.answer.Applied? && response.roomSeq > roomSeq ==>
        Waits(after[..|after| - queued + 1], pending[n].sent.id))
  {
    var after := AfterHead(pending, n, response, roomSeq);
    var front := after[..|after| - queued + 1];
    forall p | p in pending[..n] ensures p in front {
      var i :| 0 <= i < n && pending[..n][i] == p;
      assert front[i] == p;
    }
    if response.answer.Applied? && response.roomSeq > roomSeq { assert after[n] in front; }
  }

  lemma SameLengths(queue: seq<QueueEntry>, after: seq<PendingOp>, rewritten: map<Uid, Op>)
    requires queue != []
    ensures |Rebodied(after, rewritten)| == |after| && |RewriteQueue(queue[1..], rewritten)| == |queue| - 1
    ensures forall i :: 0 <= i < |queue| - 1 ==> RewriteQueue(queue[1..], rewritten)[i].sent.id == queue[i + 1].sent.id
  {
  }

  /** The parts of the invariant about the projected ops, after the answer. */
  lemma AnsweredPending(s: Sys, rewritten: map<Uid, Op>, response: Response, q: seq<QueueEntry>, ps: seq<PendingOp>)
    requires HeadOfLine(s.log, s.done, s.queue, s.net) && Mirrors(s.queue, s.store.pending) && s.queue != []
    requires FrontOk(s.dbs, s.log, s.done, s.queue, s.store.pending, s.store.roomSeq)
    requires NotLost(s.dbs, s.log, s.done, s.known, Front(s.queue, s.store.pending), s.store.roomSeq)
    requires DoneAs(s.log, s.done, s.queue[0].sent) && s.log[s.done[s.queue[0].sent.id]].exec.response == response
    requires response.roomSeq == SeqAfter(s.dbs, s.done, s.queue[0].sent.id) && Plans(s, rewritten, response.answer)
    requires q == RewriteQueue(s.queue[1..], rewritten)
    requires ps
      == Rebodied(AfterHead(s.store.pending, |s.store.pending| - |s.queue|, response, s.store.roomSeq), rewritten)
    ensures Mirrors(q, ps) && FrontOk(s.dbs, s.log, s.done, q, ps, s.store.roomSeq)
    ensures NotLost(s.dbs, s.log, s.done, if response.answer.Applied? then s.known + {s.queue[0].sent.id}
      else s.known, Front(q, ps), s.store.roomSeq)
  {
    hide Plans, FrontOk, NotLost, WellFormed, Outrun, MirrorsAt, SeqAfter;
    var n, id := |s.store.pending| - |s.queue|, s.queue[0].sent.id;
    var after := AfterHead(s.store.pending, n, response, s.store.roomSeq);
    HeadAlone(s.dbs, s.log, s.done, s.queue, s.net, s.store.pending, s.store.roomSeq);
    AnsweredBodies(s, rewritten, response);
    FrontAfter(s.store.pending, n, response, s.store.roomSeq, |s.queue|);
    SameLengths(s.queue, after, rewritten);
    hide AfterHead, Rebodied, RewriteQueue;
    AnsweredFront(s.dbs, s.log, s.done, s.queue, s.store.pending, s.store.roomSeq, response, q, ps);
    hide HeadOfLine;
    AnsweredMirrors(s.queue, s.store.pending, after, rewritten);
    hide Mirrors;
    assert Front(q, ps) == after[..|ps| - |q|];
    AnsweredLost(s.dbs, s.log, s.done, s.known, Front(s.queue, s.store.pending), s.store.roomSeq, id, response,
      Front(q, ps));
  }

  lemma AnswerKeeps(s: Sys, rewritten: map<Uid, Op>)
    requires Inv(s) && Open(s) && s.queue[0].sent.id in s.done
    requires Plans(s, rewritten, s.log[s.done[s.queue[0].sent.id]].exec.response.answer)
    ensures Inv(HeadAnswered(s, s.log[s.done[s.queue[0].sent.id]].exec.response, rewritten))
  {
    hide Plans, Rising, LoadOk, DataOk, NotLost, Mirrors, FrontOk, NotTwice;
    var op := s.queue[0].sent;
    var response := s.log[s.done[op.id]].exec.response;
    assert DoneAs(s.log, s.done, op) by { hide History; }
    StoredSeq(s.dbs, s.log, s.done, op);
    hide History, Once;
    var n := |s.store.pending| - |s.queue|;
    HeadAlone(s.dbs, s.log, s.done, s.queue, s.net, s.store.pending, s.store.roomSeq);
    AnswerPending(s.store, n, op, response, rewritten);
    var q, ps := RewriteQueue(s.queue[1..], rewritten),
        Rebodied(AfterHead(s.store.pending, n, response, s.store.roomSeq), rewritten);
    AnsweredQueue(s, response.answer, rewritten);
    AnsweredPending(s, rewritten, response, q, ps);
    if q != [] {
      assert !q[0].tried by { hide WellFormed; }
      hide HeadOfLine;
      NextNotSent(s.log, s.done, q, s.net);
    }
    AnsweredNotTwice(s, response, rewritten, q, ps);
    hide HeadOfLine, RewriteQueue, Rebodied, AfterHead;
  }

  lemma AnsweredNotTwice(s: Sys, response: Response, rewritten: map<Uid, Op>, q: seq<QueueEntry>, ps: seq<PendingOp>)
    requires s.queue != [] && q == RewriteQueue(s.queue[1..], rewritten)
    requires q != [] ==> q[0].sent.id !in s.done && q[0].sent !in s.net
    ensures var t := HeadAnswered(s, response, rewritten); NotTwice(t.dbs, t.done, t.queue, t.net, t.store, t.load)
  {
  }

  lemma NextNotSent(log: seq<Event>, done: map<Uid, nat>, q: seq<QueueEntry>, net: set<SentOp>)
    requires HeadOfLine(log, done, q, net) && q != [] && !q[0].tried
    ensures q[0].sent.id !in done && q[0].sent !in net
  {
    hide WellFormed;
  }

  // The answer is lost, or an HTTP error:

  lemma LoseKeeps(s: Sys, maybeApplied: bool)
    requires Inv(s) && Open(s)
      && (maybeApplied || s.queue[0].sent.id !in s.done || !HeadCertain(s.queue, s.store.pending))
    ensures Inv(Silent(s, maybeApplied))
  {
    hide History, Rising, Once, DataOk, LoadOk;
    var id, n := s.queue[0].sent.id, |s.store.pending| - |s.queue|;
    var t := Silent(s, maybeApplied);
    var ps := t.store.pending;
    HeadAlone(s.dbs, s.log, s.done, s.queue, s.net, s.store.pending, s.store.roomSeq);
    LessNet(s.log, s.done, s.queue, s.net, t.net);
    assert forall i :: 0 <= i < |ps| && i != n ==> ps[i] == s.store.pending[i];
    hide HeadOfLine;
    LostMirrors(s.queue, s.store.pending, ps);
    LostFront(s.dbs, s.log, s.done, s.queue, s.store.pending, s.store.roomSeq, ps);
    assert Front(s.queue, ps) == Front(s.queue, s.store.pending);
    hide NotLost, Mirrors, FrontOk;
  }

  lemma LessNet(log: seq<Event>, done: map<Uid, nat>, queue: seq<QueueEntry>, net: set<SentOp>, less: set<SentOp>)
    requires HeadOfLine(log, done, queue, net) && less <= net
    ensures HeadOfLine(log, done, queue, less)
  {
    hide WellFormed;
  }

  lemma LostMirrors(queue: seq<QueueEntry>, pending: seq<PendingOp>, ps: seq<PendingOp>)
    requires Mirrors(queue, pending) && |ps| == |pending| && queue != []
    requires forall i :: 0 <= i < |ps| && i != |pending| - |queue| ==> ps[i] == pending[i]
    requires ps[|pending| - |queue|] == pending[|pending| - |queue|].(uncertain := ps[|pending| - |queue|].uncertain)
    ensures Mirrors(queue, ps)
  {
    forall i | 0 <= i < |queue| ensures MirrorsAt(queue, ps, i) { assert MirrorsAt(queue, pending, i); }
  }

  lemma LostFront(dbs: seq<Db>, log: seq<Event>, done: map<Uid, nat>, queue: seq<QueueEntry>, pending: seq<PendingOp>,
      roomSeq: nat, ps: seq<PendingOp>)
    requires FrontOk(dbs, log, done, queue, pending, roomSeq) && |ps| == |pending|
    requires forall i :: 0 <= i < |pending| - |queue| ==> ps[i] == pending[i]
    ensures FrontOk(dbs, log, done, queue, ps, roomSeq)
  {
  }

  lemma FailKeeps(s: Sys)
    requires Inv(s) && Open(s)
    ensures Inv(DroppedHead(s))
  {
    hide History, Rising, Once, DataOk, LoadOk, NotLost, Mirrors, FrontOk, NotTwice, HeadOfLine;
    var id, n := s.queue[0].sent.id, |s.store.pending| - |s.queue|;
    var q, net := s.queue[1..], s.net - {s.queue[0].sent};
    HeadAlone(s.dbs, s.log, s.done, s.queue, s.net, s.store.pending, s.store.roomSeq);
    DropAt(s.store.pending, n, id);
    var t := DroppedHead(s);
    assert t.store.pending == s.store.pending[..n] + s.store.pending[n + 1..];
    FailQueue(s.log, s.done, s.queue, s.net);
    FailMirrors(s.queue, s.store.pending, n);
    FailFront(s.dbs, s.log, s.done, s.queue, s.net, s.store.pending, s.store.roomSeq, n);
    assert Front(q, t.store.pending) == Front(s.queue, s.store.pending);
    FailNotTwice(s);
  }

  lemma FailNotTwice(s: Sys)
    requires s.queue != [] && (|s.queue| > 1 ==> s.queue[1].sent.id !in s.done && s.queue[1].sent !in s.net)
    ensures var t := DroppedHead(s); NotTwice(t.dbs, t.done, t.queue, t.net, t.store, t.load)
  {
  }

  lemma FailQueue(log: seq<Event>, done: map<Uid, nat>, queue: seq<QueueEntry>, net: set<SentOp>)
    requires HeadOfLine(log, done, queue, net) && queue != []
    ensures HeadOfLine(log, done, queue[1..], net - {queue[0].sent})
    ensures |queue| > 1 ==> queue[1].sent.id !in done && queue[1].sent !in net
  {
    hide WellFormed;
  }

  lemma FailMirrors(queue: seq<QueueEntry>, pending: seq<PendingOp>, n: nat)
    requires Mirrors(queue, pending) && queue != [] && n == |pending| - |queue|
    ensures Mirrors(queue[1..], pending[..n] + pending[n + 1..])
  {
    var q, ps := queue[1..], pending[..n] + pending[n + 1..];
    forall i | 0 <= i < |q| ensures MirrorsAt(q, ps, i) { assert MirrorsAt(queue, pending, i + 1); }
  }

  lemma FailFront(dbs: seq<Db>, log: seq<Event>, done: map<Uid, nat>, queue: seq<QueueEntry>, net: set<SentOp>,
      pending: seq<PendingOp>, roomSeq: nat, n: nat)
    requires FrontOk(dbs, log, done, queue, pending, roomSeq) && queue != [] && |queue| <= |pending|
      && n == |pending| - |queue|
    requires HeadOfLine(log, done, queue, net)
    ensures FrontOk(dbs, log, done, queue[1..], pending[..n] + pending[n + 1..], roomSeq)
  {
    hide WellFormed, Outrun;
    var q, ps := queue[1..], pending[..n] + pending[n + 1..];
    forall i | 0 <= i < |ps| - |q| ensures Outrun(dbs, log, done, ps[i], roomSeq) && !InQueue(q, ps[i].sent.id) {
      assert ps[i] == pending[i];
      forall k | 0 <= k < |q| ensures q[k].sent.id != ps[i].sent.id {
        assert !InQueue(queue, pending[i].sent.id) && queue[k + 1] in queue;
      }
    }
  }

  // Reading the feed:

  lemma ComputeKeeps(s: Sys, feed: Feed)
    requires Inv(s) && s.load.Asked? && Answers(Now(s), s.store.roomSeq, feed)
    ensures Inv(s.(load := Computed(|s.log|, feed)))
  {
    hide Rising, Once, HeadOfLine, Mirrors, FrontOk, NotLost, Answers, ViewOf, Tracked, Ruled, Follows;
    var j :| DataAt(s.dbs, s.store.server, s.store.roomSeq, j);
    assert LoadOk(s.dbs, s.store.server, s.store.roomSeq, Computed(|s.log|, feed));
    hide History, LoadOk, DataOk;
  }

  lemma ArriveKeeps(s: Sys)
    requires Inv(s) && s.load.Computed?
    ensures Inv(s.(load := if s.store.sending.None? then Checked(s.load.k, s.load.feed) else Idle))
  {
    hide History, Rising, Once, HeadOfLine, Mirrors, FrontOk, NotLost, DataOk, Answers, DataAt;
  }

  lemma AskKeeps(s: Sys)
    requires Inv(s) && s.load.Idle?
    ensures Inv(s.(load := Asked))
  {
    hide History, Rising, Once, HeadOfLine, Mirrors, FrontOk, NotLost, DataOk;
  }

  lemma FollowsAt(dbs: seq<Db>, log: seq<Event>, i: nat)
    requires History(dbs, log) && i < |log|
    ensures Follows(dbs[i], log[i], dbs[i + 1])
  {
    hide Follows, Tracked, Ruled;
  }

  lemma EmptyRun(db: Db)
    ensures RunAllowed(db, []) && Run(db, []) == db
  {
  }

  /** Any two states of the log are joined by a history of statements. */
  lemma {:induction false} LogRun(dbs: seq<Db>, log: seq<Event>, j: nat, k: nat) returns (run: seq<Stmt>)
    requires History(dbs, log) && j <= k < |dbs|
    ensures RunAllowed(dbs[j], run) && Run(dbs[j], run) == dbs[k]
    decreases k
  {
    hide Run, RunAllowed, Follows, Tracked, Ruled, Handle, Exec;
    if j == k {
      EmptyRun(dbs[j]);
      run := [];
    } else {
      FollowsAt(dbs, log, k - 1);
      var first := LogRun(dbs, log, j, k - 1);
      var more := EventRun(dbs[k - 1], log[k - 1], dbs[k]);
      RunConcat(dbs[j], first, more);
      run := first + more;
    }
  }

  lemma EventRun(a: Db, e: Event, b: Db) returns (run: seq<Stmt>)
    requires Follows(a, e, b)
    ensures RunAllowed(a, run) && Run(a, run) == b
  {
    hide Handle, EnvOk;
    match e
    case Own(x) =>
      HandleScript(a, x.sent.op, x.env);
      run :| RunAllowed(a, run) && Run(a, run) == b;
    case Others(r) =>
      run := r;
  }

  /** A feed computed later than the data it is merged into gives the data of that later state. */
  lemma FeedFits(dbs: seq<Db>, log: seq<Event>, server: View, roomSeq: nat, j: nat, k: nat, feed: Feed)
    requires History(dbs, log) && j <= k < |dbs| && DataAt(dbs, server, roomSeq, j) && Answers(dbs[k], roomSeq, feed)
    ensures Merged(server, feed) == ViewOf(dbs[k]) && feed.roomSeq == dbs[k].changeSeq
  {
    var run := LogRun(dbs, log, j, k);
    assert Tracked(dbs[j]);
    hide Tracked, Ruled, Follows, Run, RunAllowed, Merged, ViewOf;
    FeedConvergence(dbs[j], run, feed);
  }

  lemma {:induction false} ReachedInFront(pending: seq<PendingOp>, n: nat, roomSeq: nat)
    requires n <= |pending| && forall i :: n <= i < |pending| ==> pending[i].appliedSeq.None?
    ensures DropReached(pending, roomSeq) == DropReached(pending[..n], roomSeq) + pending[n..]
    decreases |pending|
  {
    if n == |pending| {
      assert pending[..n] == pending;
    } else {
      var rest := pending[..|pending| - 1];
      ReachedInFront(rest, n, roomSeq);
      assert rest[..n] == pending[..n] && pending[n..] == rest[n..] + [pending[|pending| - 1]];
    }
  }

  ghost predicate InOrder(done: map<Uid, nat>, front: seq<PendingOp>) {
    forall i, j :: 0 <= i < j < |front| ==> Earlier(done, front[i].sent.id, front[j].sent.id)
  }

  lemma {:induction false} ReachedInOrder(done: map<Uid, nat>, front: seq<PendingOp>, roomSeq: nat)
    requires InOrder(done, front)
    ensures InOrder(done, DropReached(front, roomSeq))
  {
    if front != [] {
      var rest, last := front[..|front| - 1], front[|front| - 1];
      assert forall i :: 0 <= i < |rest| ==> rest[i] == front[i];
      ReachedInOrder(done, rest, roomSeq);
      DropReachedIs(rest, roomSeq);
      var kept := DropReached(rest, roomSeq);
      forall i | 0 <= i < |kept| ensures Earlier(done, kept[i].sent.id, last.sent.id) {
        assert kept[i] in rest;
        var k :| 0 <= k < |rest| && rest[k] == kept[i];
        assert Earlier(done, front[k].sent.id, last.sent.id);
      }
    }
  }

  lemma ApplyFront(dbs: seq<Db>, log: seq<Event>, done: map<Uid, nat>, queue: seq<QueueEntry>, pending: seq<PendingOp>,
      roomSeq: nat, newSeq: nat, ps: seq<PendingOp>)
    requires FrontOk(dbs, log, done, queue, pending, roomSeq) && |queue| <= |pending|
    requires ps == DropReached(Front(queue, pending), newSeq) + pending[|pending| - |queue|..]
    ensures FrontOk(dbs, log, done, queue, ps, newSeq)
  {
    hide DropReached, InQueue, SeqAfter, WasApplied, DoneAs;
    var front := Front(queue, pending);
    var m := |ps| - |queue|;
    assert InOrder(done, front);
    ReachedInOrder(done, front, newSeq);
    DropReachedIs(front, newSeq);
    assert ps[..m] == DropReached(front, newSeq);
    forall i | 0 <= i < m
      ensures Outrun(dbs, log, done, ps[i], newSeq) && !InQueue(queue, ps[i].sent.id)
      ensures HeadDone(done, queue) ==> Earlier(done, ps[i].sent.id, queue[0].sent.id)
    {
      assert ps[i] == ps[..m][i] && ps[i] in front;
      var k :| 0 <= k < |front| && front[k] == ps[i];
      assert Outrun(dbs, log, done, pending[k], roomSeq) && !InQueue(queue, pending[k].sent.id);
    }
    forall i, j | 0 <= i < j < m ensures Earlier(done, ps[i].sent.id, ps[j].sent.id) {
      assert ps[i] == ps[..m][i] && ps[j] == ps[..m][j];
    }
  }

  lemma ApplyLost(dbs: seq<Db>, log: seq<Event>, done: map<Uid, nat>, known: set<Uid>, queue: seq<QueueEntry>,
      pending: seq<PendingOp>, roomSeq: nat, newSeq: nat)
    requires FrontOk(dbs, log, done, queue, pending, roomSeq) && |queue| <= |pending| && roomSeq <= newSeq
    requires NotLost(dbs, log, done, known, Front(queue, pending), roomSeq)
    ensures NotLost(dbs, log, done, known, DropReached(Front(queue, pending), newSeq), newSeq)
  {
    hide DropReached, SeqAfter, DoneAs;
    var front := Front(queue, pending);
    DropReachedIs(front, newSeq);
    forall id | id in known && SeqAfter(dbs, done, id) > newSeq ensures Waits(DropReached(front, newSeq), id) {
      assert Waits(front, id);
      var p :| p in front && p.sent.id == id;
      var i :| 0 <= i < |front| && front[i] == p;
      assert Outrun(dbs, log, done, pending[i], roomSeq);
      assert p in DropReached(front, newSeq);
    }
  }

  lemma ApplyMirrors(queue: seq<QueueEntry>, pending: seq<PendingOp>, front: seq<PendingOp>)
    requires Mirrors(queue, pending)
    ensures Mirrors(queue, front + pending[|pending| - |queue|..])
    ensures HeadCertain(queue, front + pending[|pending| - |queue|..]) == HeadCertain(queue, pending)
  {
    var ps := front + pending[|pending| - |queue|..];
    forall i | 0 <= i < |queue| ensures MirrorsAt(queue, ps, i) { assert MirrorsAt(queue, pending, i); }
  }

  /** Where the feed in hand leads. */
  lemma ApplyData(s: Sys)
    requires Inv(s) && s.load.Checked?
    ensures var store := AfterFeed(s.store, s.load.feed);
      s.load.k < |s.dbs| && DataAt(s.dbs, store.server, store.roomSeq, s.load.k) && s.store.roomSeq <= store.roomSeq
      && store.pending == DropReached(s.store.pending, store.roomSeq) && store.sending == s.store.sending
  {
    hide Once, HeadOfLine, Mirrors, FrontOk, NotLost, NotTwice, DataOk, Tracked, Ruled, Follows, Answers, Merged,
      ViewOf, DropReached;
    var j :| j <= s.load.k && DataAt(s.dbs, s.store.server, s.store.roomSeq, j);
    FeedFits(s.dbs, s.log, s.store.server, s.store.roomSeq, j, s.load.k, s.load.feed);
    hide History;
  }

  lemma ApplyKeeps(s: Sys)
    requires Inv(s) && s.load.Checked?
    ensures Inv(s.(store := AfterFeed(s.store, s.load.feed), load := Idle))
  {
    hide History, Once, HeadOfLine, MirrorsAt, FrontOk, NotLost, DataAt, NotTwice, AfterFeed, Rising, LoadOk,
      DropReached, SendOk;
    var t := s.(store := AfterFeed(s.store, s.load.feed), load := Idle);
    ApplyData(s);
    ApplyPending(s, t.store);
    ApplyNotTwice(s, t.store);
    IdleLoad(t.dbs, t.store.server, t.store.roomSeq);
    hide Mirrors;
  }

  lemma IdleLoad(dbs: seq<Db>, server: View, roomSeq: nat)
    ensures LoadOk(dbs, server, roomSeq, Idle)
  {
  }

  lemma ApplyPending(s: Sys, store: Store)
    requires Mirrors(s.queue, s.store.pending)
      && FrontOk(s.dbs, s.log, s.done, s.queue, s.store.pending, s.store.roomSeq)
    requires NotLost(s.dbs, s.log, s.done, s.known, Front(s.queue, s.store.pending), s.store.roomSeq)
    requires s.store.roomSeq <= store.roomSeq && store.pending == DropReached(s.store.pending, store.roomSeq)
    ensures Mirrors(s.queue, store.pending) && FrontOk(s.dbs, s.log, s.done, s.queue, store.pending, store.roomSeq)
    ensures NotLost(s.dbs, s.log, s.done, s.known, Front(s.queue, store.pending), store.roomSeq)
    ensures HeadCertain(s.queue, store.pending) == HeadCertain(s.queue, s.store.pending)
  {
    hide FrontOk, NotLost, DropReached, MirrorsAt;
    var n := |s.store.pending| - |s.queue|;
    TailWaits(s.queue, s.store.pending);
    ReachedInFront(s.store.pending, n, store.roomSeq);
    var front := DropReached(Front(s.queue, s.store.pending), store.roomSeq);
    assert store.pending == front + s.store.pending[n..];
    ApplyMirrors(s.queue, s.store.pending, front);
    ApplyFront(s.dbs, s.log, s.done, s.queue, s.store.pending, s.store.roomSeq, store.roomSeq, store.pending);
    ApplyLost(s.dbs, s.log, s.done, s.known, s.queue, s.store.pending, s.store.roomSeq, store.roomSeq);
    assert Front(s.queue, store.pending) == front;
  }

  lemma TailWaits(queue: seq<QueueEntry>, pending: seq<PendingOp>)
    requires Mirrors(queue, pending)
    ensures forall i :: |pending| - |queue| <= i < |pending| ==> pending[i].appliedSeq.None?
  {
    forall i | |pending| - |queue| <= i < |pending| ensures pending[i].appliedSeq.None? {
      assert MirrorsAt(queue, pending, i - (|pending| - |queue|));
    }
  }

  lemma ApplyNotTwice(s: Sys, store: Store)
    requires NotTwice(s.dbs, s.done, s.queue, s.net, s.store, s.load) && Rising(s.dbs) && Once(s.log, s.done)
      && History(s.dbs, s.log)
    requires s.load.Checked? && s.load.k < |s.dbs| && DataAt(s.dbs, store.server, store.roomSeq, s.load.k)
    requires store.sending == s.store.sending
      && HeadCertain(s.queue, store.pending) == HeadCertain(s.queue, s.store.pending)
    ensures NotTwice(s.dbs, s.done, s.queue, s.net, store, Idle)
  {
    hide ViewOf, Tracked, Ruled, Follows;
  }

  lemma ReloadKeeps(s: Sys, j: nat, stored: seq<QueueEntry>)
    requires Inv(s) && j < |s.dbs| && Storable(s, stored)
    ensures Inv(Reloaded(s, s.dbs[j], stored))
  {
    hide History, Rising, FrontOk, NotLost, DataAt, NotTwice, Mirrors, DataOk, LoadOk;
    StorableQueue(s, stored);
    hide Once, HeadOfLine, Storable;
    var t := Reloaded(s, s.dbs[j], stored);
    ReloadData(s, j, stored);
    ReloadMirrors(s.log, s.done, stored, s.net);
    assert Front(t.queue, t.store.pending) == [];
    ReloadFront(s.dbs, s.log, s.done, stored, t.store.roomSeq);
    ReloadNotTwice(s, t);
  }

  lemma StorableQueue(s: Sys, stored: seq<QueueEntry>)
    requires HeadOfLine(s.log, s.done, s.queue, s.net) && Once(s.log, s.done) && Storable(s, stored)
    ensures HeadOfLine(s.log, s.done, stored, s.net)
  {
    hide WellFormed, IsProjected;
    forall i | 0 <= i < |stored| && stored[i].sent.id in s.done
      ensures stored[i].tried && DoneAs(s.log, s.done, stored[i].sent)
    {
      var m := s.log[s.done[stored[i].sent.id]].exec.sent;
      assert DoneAs(s.log, s.done, m) && Went(s, m);
    }
    forall m | m in s.net ensures DoneAs(s.log, s.done, m) || (stored != [] && stored[0].sent == m && stored[0].tried) {
      assert Went(s, m);
    }
  }

  lemma ReloadData(s: Sys, j: nat, stored: seq<QueueEntry>)
    requires j < |s.dbs|
    ensures var t := Reloaded(s, s.dbs[j], stored);
      DataOk(t.dbs, t.store.server, t.store.roomSeq) && LoadOk(t.dbs, t.store.server, t.store.roomSeq, t.load)
      && NotLost(t.dbs, t.log, t.done, {}, [], t.store.roomSeq)
  {
    hide ViewOf;
    assert DataAt(s.dbs, ViewOf(s.dbs[j]), s.dbs[j].changeSeq, j);
  }

  lemma ReloadMirrors(log: seq<Event>, done: map<Uid, nat>, queue: seq<QueueEntry>, net: set<SentOp>)
    requires HeadOfLine(log, done, queue, net)
    ensures Mirrors(queue, Loaded(queue))
    ensures queue != [] && !queue[0].tried ==> queue[0].sent.id !in done && queue[0].sent !in net
  {
    hide WellFormed;
    forall i | 0 <= i < |queue| ensures MirrorsAt(queue, Loaded(queue), i) {}
  }

  lemma ReloadFront(dbs: seq<Db>, log: seq<Event>, done: map<Uid, nat>, queue: seq<QueueEntry>, roomSeq: nat)
    ensures FrontOk(dbs, log, done, queue, Loaded(queue), roomSeq)
  {
  }

  lemma ReloadNotTwice(s: Sys, t: Sys)
    requires t.store.pending == Loaded(t.queue)
    requires t.queue != [] && !t.queue[0].tried ==> t.queue[0].sent.id !in t.done && t.queue[0].sent !in t.net
    ensures NotTwice(t.dbs, t.done, t.queue, t.net, t.store, t.load)
  {
  }

  // All steps together

  lemma StepKeeps(s: Sys, step: Step)
    requires Inv(s) && Shaped(s) && Can(s, step)
    ensures Inv(Do(s, step))
  {
    hide Inv, Plans, Answers, Handle, Run, RunAllowed, Ruled, EnvOk, WellFormed, Fresh;
    match step
    case Act(sent, at) => ActKeeps(s, sent, at);
    case StartSend => StartSendKeeps(s);
    case Transmit => TransmitKeeps(s);
    case Deliver(sent, env) =>
      if sent.id !in s.done && !Handle(Now(s), sent.op, env).answer.HttpError? { DeliverKeeps(s, sent, env); }
    case Answer(rewritten) => AnswerKeeps(s, rewritten);
    case Lose(maybeApplied) => LoseKeeps(s, maybeApplied);
    case Fail => FailKeeps(s);
    case Ask => AskKeeps(s);
    case Compute(feed) => ComputeKeeps(s, feed);
    case Arrive => ArriveKeeps(s);
    case Apply => ApplyKeeps(s);
    case Other(run) => OtherKeeps(s, run);
    case Reload(j, stored) => ReloadKeeps(s, j, stored);
  }

  /** `steps` can be taken from `s` one after the other. */
  ghost predicate Possible(s: Sys, steps: seq<Step>)
    decreases |steps|
  {
    steps == [] || (Shaped(s) && Can(s, steps[0]) && Possible(Do(s, steps[0]), steps[1..]))
  }

  ghost function AfterSteps(s: Sys, steps: seq<Step>): Sys
    requires Possible(s, steps)
    decreases |steps|
  {
    if steps == [] then s else AfterSteps(Do(s, steps[0]), steps[1..])
  }

  lemma {:induction false} RunKeeps(s: Sys, steps: seq<Step>)
    requires Inv(s) && Possible(s, steps)
    ensures Inv(AfterSteps(s, steps))
    decreases |steps|
  {
    hide Inv, Can, Do;
    if steps != [] {
      StepKeeps(s, steps[0]);
      RunKeeps(Do(s, steps[0]), steps[1..]);
    }
  }
}

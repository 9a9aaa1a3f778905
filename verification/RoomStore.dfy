/**
  The data of one room on a page (room-store.svelte.ts): the server's data from feeds, and the
  ops not confirmed yet. First as functions on a value, then as the class with its fields.
 */
module RoomStores {
  import opened RoomModel
  import opened Overlay
  import opened ChangesFeed
  import opened Rebase

  datatype Store = Store(server: View, roomSeq: nat, pending: seq<PendingOp>, answered: seq<AnsweredSeq>,
      sending: Option<Uid>)

  /** What the page shows. */
  ghost function Shown(s: Store): View { ShowAnswers(ProjectAll(s.server, s.pending), s.answered) }

  predicate Waits(pending: seq<PendingOp>, id: Uid) { exists p | p in pending :: p.sent.id == id }

  function Reached(p: PendingOp, roomSeq: nat): bool { p.appliedSeq.Some? && p.appliedSeq.value <= roomSeq }

  function DropReached(pending: seq<PendingOp>, roomSeq: nat): seq<PendingOp> {
    if pending == [] then []
    else DropReached(pending[..|pending| - 1], roomSeq)
         + (if Reached(pending[|pending| - 1], roomSeq) then [] else [pending[|pending| - 1]])
  }

  function DropAnswered(pending: seq<PendingOp>): seq<PendingOp> {
    if pending == [] then []
    else DropAnswered(pending[..|pending| - 1]) + (if pending[|pending| - 1].appliedSeq.Some? then []
        else [pending[|pending| - 1]])
  }

  function KeepNewer(answered: seq<AnsweredSeq>, roomSeq: nat): seq<AnsweredSeq> {
    if answered == [] then []
    else KeepNewer(answered[..|answered| - 1], roomSeq)
         + (if answered[|answered| - 1].appliedSeq > roomSeq then [answered[|answered| - 1]] else [])
  }

  function WithoutRow(answered: seq<AnsweredSeq>, row: Row): seq<AnsweredSeq> {
    if answered == [] then []
    else WithoutRow(answered[..|answered| - 1], row) + (if answered[|answered| - 1].row == row then []
        else [answered[|answered| - 1]])
  }

  function Drop(pending: seq<PendingOp>, id: Uid): seq<PendingOp> {
    if pending == [] then []
    else Drop(pending[..|pending| - 1], id) + (if pending[|pending| - 1].sent.id == id then []
        else [pending[|pending| - 1]])
  }

  /** One feed. A delta older than ours is ignored; a full feed with a lower seq is a restored database. */
  function AfterFeed(s: Store, feed: Feed): Store {
    if !feed.full && feed.roomSeq < s.roomSeq then s
    else
      var restored := feed.full && feed.roomSeq < s.roomSeq;
      s.(server := Merged(s.server, feed), roomSeq := feed.roomSeq,
         pending := if restored then DropAnswered(s.pending) else DropReached(s.pending, feed.roomSeq),
         answered := if restored then [] else KeepNewer(s.answered, feed.roomSeq))
  }

  /** An op that waits, made now or read from storage (`sent`: it may have gone out before). */
  function AfterQueued(s: Store, op: SentOp, at: Time, sent: bool): Store {
    if Waits(s.pending, op.id) || !IsProjected(op.op) then s
    else s.(pending := s.pending + [PendingOp(op, at, None, sent)])
  }

  function AfterSending(s: Store, id: Uid): Store { s.(sending := Some(id)) }

  function Update(pending: seq<PendingOp>, id: Uid, applied: Option<nat>, uncertain: bool): seq<PendingOp> {
    seq(|pending|, i requires 0 <= i < |pending| =>
      if pending[i].sent.id == id then pending[i].(appliedSeq := applied, uncertain := uncertain) else pending[i])
  }

  function WithAnswer(answered: seq<AnsweredSeq>, op: Op, response: Response): seq<AnsweredSeq> {
    match (NewSeq(response.answer), ChangedRow(op, response.answer))
    case (Some(newSeq), Some(row)) => WithoutRow(answered, row) + [AnsweredSeq(row, newSeq, response.roomSeq)]
    case _ => answered
  }

  /** The answer came: a refused op goes; an applied one stays until the feed has it. */
  function AfterAnswer(s: Store, op: SentOp, response: Response): Store {
    s.(sending := None, answered := WithAnswer(s.answered, op.op, response),
       pending := if response.answer.Applied? && response.roomSeq > s.roomSeq
                  then Update(s.pending, op.id, Some(response.roomSeq), false) else Drop(s.pending, op.id))
  }

  function AfterFailure(s: Store, id: Uid): Store { s.(sending := None, pending := Drop(s.pending, id)) }

  function MarkUncertain(pending: seq<PendingOp>, id: Uid): seq<PendingOp> {
    seq(|pending|, i requires 0 <= i < |pending| => if pending[i].sent.id == id then pending[i].(uncertain := true)
      else pending[i])
  }

  /** No answer: the op may have been applied, unless the server refused access. */
  function AfterSilence(s: Store, id: Uid, maybeApplied: bool): Store {
    s.(sending := None, pending := if maybeApplied then MarkUncertain(s.pending, id) else s.pending)
  }

  /** Queued ops got new bodies: the projection follows. */
  function AfterRewrites(s: Store, rewritten: map<Uid, Op>): Store {
    s.(pending := seq(|s.pending|, i requires 0 <= i < |s.pending| =>
      s.pending[i].(sent := SentOp(s.pending[i].sent.id, CurrentBody(rewritten, s.pending[i].sent)))))
  }

  lemma {:induction false} DropReachedIs(pending: seq<PendingOp>, roomSeq: nat)
    ensures forall p :: p in DropReached(pending, roomSeq) <==> p in pending && !Reached(p, roomSeq)
  {
    if pending != [] {
      DropReachedIs(pending[..|pending| - 1], roomSeq);
      assert pending == pending[..|pending| - 1] + [pending[|pending| - 1]];
    }
  }

  lemma {:induction false} DropAnsweredIs(pending: seq<PendingOp>)
    ensures forall p :: p in DropAnswered(pending) <==> p in pending && p.appliedSeq.None?
  {
    if pending != [] {
      DropAnsweredIs(pending[..|pending| - 1]);
      assert pending == pending[..|pending| - 1] + [pending[|pending| - 1]];
    }
  }

  lemma {:induction false} DropIs(pending: seq<PendingOp>, id: Uid)
    ensures forall p :: p in Drop(pending, id) <==> p in pending && p.sent.id != id
  {
    if pending != [] {
      DropIs(pending[..|pending| - 1], id);
      assert pending == pending[..|pending| - 1] + [pending[|pending| - 1]];
    }
  }

  lemma UpdateIs(pending: seq<PendingOp>, id: Uid, applied: Option<nat>, uncertain: bool)
    ensures var updated := Update(pending, id, applied, uncertain);
      && (forall p: PendingOp :: p.sent.id != id ==> (p in updated <==> p in pending))
      && (Waits(updated, id) <==> Waits(pending, id))
  {
    var updated := Update(pending, id, applied, uncertain);
    forall p: PendingOp | p.sent.id != id ensures p in updated <==> p in pending {
      if p in pending {
        var i :| 0 <= i < |pending| && pending[i] == p;
        assert updated[i] == p;
      }
    }
    if Waits(pending, id) {
      var i :| 0 <= i < |pending| && pending[i].sent.id == id;
      assert updated[i] in updated && updated[i].sent.id == id;
    }
    if Waits(updated, id) {
      var i :| 0 <= i < |updated| && updated[i].sent.id == id;
      assert pending[i] in pending && pending[i].sent.id == id;
    }
  }

  lemma {:induction false} KeepNewerIs(answered: seq<AnsweredSeq>, roomSeq: nat)
    ensures forall a :: a in KeepNewer(answered, roomSeq) <==> a in answered && a.appliedSeq > roomSeq
  {
    if answered != [] {
      KeepNewerIs(answered[..|answered| - 1], roomSeq);
      assert answered == answered[..|answered| - 1] + [answered[|answered| - 1]];
    }
  }

  lemma {:induction false} WithoutRowIs(answered: seq<AnsweredSeq>, row: Row)
    ensures forall a :: a in WithoutRow(answered, row) <==> a in answered && a.row != row
  {
    if answered != [] {
      WithoutRowIs(answered[..|answered| - 1], row);
      assert answered == answered[..|answered| - 1] + [answered[|answered| - 1]];
    }
  }

  /** The same rows, but for their versions. */
  ghost predicate SameLists(a: map<Uid, List>, b: map<Uid, List>) {
    b.Keys == a.Keys && forall l :: l in a ==> b[l].(changedSeq := 0) == a[l].(changedSeq := 0)
  }

  ghost predicate SameItems(a: map<Uid, Item>, b: map<Uid, Item>) {
    b.Keys == a.Keys && forall u :: u in a ==> b[u].(changedSeq := 0) == a[u].(changedSeq := 0)
  }

  ghost predicate SameButVersions(v: View, w: View) {
    w.name == v.name && SameLists(v.lists, w.lists) && SameItems(v.items, w.items)
  }

  lemma OneList(a: map<Uid, List>, b: map<Uid, List>, l: Uid, n: nat)
    requires SameLists(a, b) && l in b
    ensures SameLists(a, b[l := b[l].(changedSeq := n)])
  {
  }

  lemma OneItem(a: map<Uid, Item>, b: map<Uid, Item>, u: Uid, n: nat)
    requires SameItems(a, b) && u in b
    ensures SameItems(a, b[u := b[u].(changedSeq := n)])
  {
  }

  lemma OneAnswer(v: View, w: View, a: AnsweredSeq)
    requires SameButVersions(v, w)
    ensures SameButVersions(v, ShowAnswer(w, a))
  {
    hide SameLists, SameItems;
    match a.row
    case ListRow(l) => if l in w.lists { OneList(v.lists, w.lists, l, a.changedSeq); }
    case ItemRow(u) => if u in w.items { OneItem(v.items, w.items, u, a.changedSeq); }
  }

  lemma {:induction false} AnswersChangeVersions(v: View, answered: seq<AnsweredSeq>)
    ensures SameButVersions(v, ShowAnswers(v, answered))
  {
    if answered != [] {
      hide ShowAnswer;
      AnswersChangeVersions(v, answered[..|answered| - 1]);
      OneAnswer(v, ShowAnswers(v, answered[..|answered| - 1]), answered[|answered| - 1]);
      hide SameButVersions;
    }
  }

  /** The page's object: each method replaces fields, as the reports of the queue and the feeds come in. */
  class RoomStore {
    var server: View
    var roomSeq: nat
    var pending: seq<PendingOp>
    var answered: seq<AnsweredSeq>
    var sending: Option<Uid>
    /** A refresh waits for the open answer. */
    var held: bool

    function State(): Store
      reads this
    {
      Store(server, roomSeq, pending, answered, sending)
    }

    constructor (snapshot: View, seq': nat)
      ensures State() == Store(snapshot, seq', [], [], None) && !held
    {
      server, roomSeq, pending, answered, sending, held := snapshot, seq', [], [], None, false;
    }

    /** False for a delta older than the page's data. */
    method ApplyFeed(feed: Feed) returns (applied: bool)
      modifies this
      ensures applied == (feed.full || old(roomSeq) <= feed.roomSeq)
      ensures State() == AfterFeed(old(State()), feed) && held == old(held)
      ensures applied ==> forall p :: p in pending <==>
        p in old(pending) && (p.appliedSeq.None? || (feed.roomSeq >= old(roomSeq) && p.appliedSeq.value > feed.roomSeq))
      ensures applied ==> forall a :: a in answered <==>
        a in old(answered) && feed.roomSeq >= old(roomSeq) && a.appliedSeq > feed.roomSeq
    {
      if !feed.full && feed.roomSeq < roomSeq { return false; }
      var restored := feed.full && feed.roomSeq < roomSeq;
      DropAnsweredIs(pending);
      DropReachedIs(pending, feed.roomSeq);
      KeepNewerIs(answered, feed.roomSeq);
      server := MergeFeed(server, feed);
      roomSeq := feed.roomSeq;
      pending := if restored then DropAnswered(pending) else DropReached(pending, roomSeq);
      answered := if restored then [] else KeepNewer(answered, roomSeq);
      return true;
    }

    /** A feed that arrived is applied only while no answer is open; else the refresh is held. */
    method FeedArrived() returns (mayApply: bool)
      modifies this`held
      ensures mayApply == sending.None? && held == (old(held) || sending.Some?)
    {
      mayApply := sending.None?;
      if !mayApply { held := true; }
    }

    method OpWaits(op: SentOp, at: Time, sent: bool)
      modifies this`pending
      ensures State() == AfterQueued(old(State()), op, at, sent)
    {
      for i := 0 to |pending|
        invariant pending == old(pending)
        invariant forall p :: p in pending[..i] ==> p.sent.id != op.id
      {
        if pending[i].sent.id == op.id { return; }
      }
      if !IsProjected(op.op) { return; }
      pending := pending + [PendingOp(op, at, None, sent)];
    }

    method OpSending(op: SentOp)
      modifies this`sending
      ensures State() == AfterSending(old(State()), op.id)
    {
      sending := Some(op.id);
    }

    /** The answer is open no more: the held refresh runs now. */
    method Answered(refresh: bool) returns (runRefresh: bool)
      modifies this`sending, this`held
      ensures runRefresh == (old(held) || refresh) && sending == None && !held
    {
      runRefresh := held || refresh;
      sending, held := None, false;
    }

    method OpSettled(op: SentOp, response: Response) returns (runRefresh: bool)
      modifies this
      ensures State() == AfterAnswer(old(State()), op, response)
      ensures forall p: PendingOp :: p.sent.id != op.id ==> (p in pending <==> p in old(pending))
      ensures Waits(pending, op.id) <==>
        Waits(old(pending), op.id) && response.answer.Applied? && response.roomSeq > roomSeq
      ensures runRefresh == (old(held) || response.roomSeq > roomSeq) && !held
    {
      RecordAnswer(op.op, response);
      UpdateIs(pending, op.id, Some(response.roomSeq), false);
      DropIs(pending, op.id);
      if response.answer.Applied? && response.roomSeq > roomSeq {
        pending := Update(pending, op.id, Some(response.roomSeq), false);
      } else {
        pending := Drop(pending, op.id);
      }
      runRefresh := Answered(response.roomSeq > roomSeq);
    }

    method RecordAnswer(op: Op, response: Response)
      modifies this`answered
      ensures answered == WithAnswer(old(answered), op, response)
    {
      if NewSeq(response.answer).None? { return; }
      var row := ChangedRow(op, response.answer);
      if row.None? { return; }
      answered :=
        WithoutRow(answered, row.value) + [AnsweredSeq(row.value, NewSeq(response.answer).value, response.roomSeq)];
    }

    method OpFailed(op: SentOp) returns (runRefresh: bool)
      modifies this
      ensures State() == AfterFailure(old(State()), op.id) && runRefresh == old(held) && !held
    {
      pending := Drop(pending, op.id);
      runRefresh := Answered(false);
    }

    method OpUnanswered(op: SentOp, maybeApplied: bool) returns (runRefresh: bool)
      modifies this
      ensures State() == AfterSilence(old(State()), op.id, maybeApplied) && runRefresh == old(held) && !held
    {
      if maybeApplied { pending := MarkUncertain(pending, op.id); }
      runRefresh := Answered(false);
    }

    method OpsRewritten(rewritten: map<Uid, Op>)
      modifies this`pending
      ensures State() == AfterRewrites(old(State()), rewritten)
    {
      pending := seq(|pending|, i requires 0 <= i < |pending| reads this =>
        pending[i].(sent := SentOp(pending[i].sent.id, CurrentBody(rewritten, pending[i].sent))));
    }
  }
}

/** Rewrites of queued ops after an earlier op was answered (rebase.ts). Only ops never sent are rewritten. */
module Rebase {
  import opened RoomModel
  import opened Overlay

  /** The row an op changes; none for ops on no row yet. */
  function RowOf(op: Op): Option<Row> {
    match op
    case ItemSetDone(_, u, _, _) => Some(ItemRow(u))
    case ItemQuantityDelta(_, u, _) => Some(ItemRow(u))
    case ItemEdit(_, u, _, _, _, _, _, _, _) => Some(ItemRow(u))
    case ItemToggleTag(_, u, _, _) => Some(ItemRow(u))
    case ItemDelete(_, u) => Some(ItemRow(u))
    case ListRename(l, _, _) => Some(ListRow(l))
    case ListDelete(l) => Some(ListRow(l))
    case ListTagAdd(l, _) => Some(ListRow(l))
    case ListTagRemove(l, _) => Some(ListRow(l))
    case ListTagSettings(l, _, _, _) => Some(ListRow(l))
    case ListTagColor(l, _, _) => Some(ListRow(l))
    case ListTagRename(l, _, _) => Some(ListRow(l))
    case ListVisibility(l, _, _, _) => Some(ListRow(l))
    case _ => None
  }

  predicate OnItem(op: Op) { RowOf(op).Some? && RowOf(op).value.ItemRow? }

  function BaseOf(op: Op): Option<nat> {
    if op.ListRename? || op.ItemSetDone? || op.ItemEdit? then op.base else None
  }

  function WithBase(op: Op, base: nat): (r: Op)
    requires BaseOf(op).Some?
    ensures BaseOf(r) == Some(base) && RowOf(r) == RowOf(op)
  {
    op.(base := Some(base))
  }

  function WithItem(op: Op, u: Uid): (r: Op)
    requires OnItem(op)
    ensures RowOf(r) == Some(ItemRow(u)) && BaseOf(r) == BaseOf(op)
  {
    op.(item := u)
  }

  /** The item the server kept for an add: of the answer, applied or refused as a duplicate. */
  function KeptItem(answer: Answer): Option<Uid> {
    match answer
    case Applied(_, item) => item
    case Rejected(_, item) => item
    case HttpError => None
  }

  /** The row an applied op changed: for an add or a restore, the row the server kept. */
  function ChangedRow(settled: Op, answer: Answer): Option<Row> {
    if answer.Applied? && (settled.ItemAdd? || settled.ItemRestore?)
    then (match answer.item case Some(u) => Some(ItemRow(u)) case None => None)
    else RowOf(settled)
  }

  function NewSeq(answer: Answer): Option<nat> { if answer.Applied? then answer.changedSeq else None }

  /** The version of a row as the page shows it, for rows it shows. */
  function KnownSeq(v: View, row: Row): Option<nat> {
    match row
    case ListRow(l) => if l in v.lists then Some(v.lists[l].changedSeq) else None
    case ItemRow(u) => if u in v.items then Some(v.items[u].changedSeq) else None
  }

  /** The add was answered with another item than the page's new one. */
  predicate Remaps(settled: Op, answer: Answer) {
    settled.ItemAdd? && settled.uid.Some? && KeptItem(answer).Some? && KeptItem(answer) != settled.uid
  }

  /** Later ops on the new item go to the kept one, and take its version if they had the placeholder. */
  function Moved(op: Op, settled: Op, answer: Answer, known: View): Op {
    if Remaps(settled, answer) && RowOf(op) == Some(ItemRow(settled.uid.value)) then
      var kept := KeptItem(answer).value;
      var moved := WithItem(op, kept);
      if BaseOf(moved) == Some(NEW_ROW_SEQ)
      then WithBase(moved, Keep(NewSeq(answer), Keep(KnownSeq(known, ItemRow(kept)), NEW_ROW_SEQ)))
      else moved
    else op
  }

  /** The row's version before the settled op: its own base, or the known one. */
  function Before(settled: Op, row: Row, known: View): nat {
    Keep(BaseOf(settled), Keep(KnownSeq(known, row), NEW_ROW_SEQ))
  }

  /** Later ops on the changed row that were based on the version before take the new one. */
  function Rebased(op: Op, settled: Op, answer: Answer, known: View): Op {
    match (NewSeq(answer), ChangedRow(settled, answer))
    case (Some(newSeq), Some(row)) =>
      if RowOf(op) == Some(row) && BaseOf(op) == Some(Before(settled, row, known)) then WithBase(op, newSeq) else op
    case _ => op
  }

  function Rewritten(op: Op, settled: Op, answer: Answer, known: View): Op {
    Rebased(Moved(op, settled, answer, known), settled, answer, known)
  }

  function CurrentBody(rewritten: map<Uid, Op>, sent: SentOp): Op {
    if sent.id in rewritten then rewritten[sent.id] else sent.op
  }

  ghost predicate DistinctIds(ops: seq<SentOp>) {
    forall i, j :: 0 <= i < j < |ops| ==> ops[i].id != ops[j].id
  }

  // What becomes of the ops behind an add whose name was on the list already

  /** An op on one item that exists. */
  predicate OnOneItem(op: Op) {
    op.ItemSetDone? || op.ItemQuantityDelta? || op.ItemEdit? || op.ItemToggleTag? || op.ItemDelete?
  }

  predicate About(op: Op, u: Uid) { OnOneItem(op) && op.item == u }

  function OnOther(op: Op, u: Uid): Op
    requires OnOneItem(op)
  {
    op.(item := u)
  }

  /** The item an answer names. */
  predicate NamesItem(answer: Answer, u: Uid) {
    match answer
    case Applied(_, item) => item == Some(u)
    case Rejected(_, item) => item == Some(u)
    case HttpError => false
  }

  predicate HasVersion(op: Op) { op.ItemSetDone? || op.ItemEdit? }

  /** The version an op expects of an item it was moved to: that of the answer or the page, if it had none yet. */
  function MovedVersion(base: Option<nat>, answer: Answer, y: Uid, known: View): Option<nat> {
    if base != Some(0) then base
    else if answer.Applied? && answer.changedSeq.Some? then answer.changedSeq
    else if y in known.items then Some(known.items[y].changedSeq)
    else Some(0)
  }

  /** `moved` is `op`, but for the item and the version it expects. */
  predicate SameOnItem(op: Op, moved: Op, y: Uid)
    requires OnOneItem(op)
  {
    About(moved, y) && (if HasVersion(op) then HasVersion(moved) && moved.(base := op.base) == OnOther(op, y)
      else moved == OnOther(op, y))
  }

  /** The server answered the add of a new row with another item. */
  predicate Redirects(settled: Op, answer: Answer, y: Uid) {
    settled.ItemAdd? && settled.uid.Some? && NamesItem(answer, y) && settled.uid.value != y
  }

  /** An op behind an add that the server answered with another item is the same op on that item. */
  lemma MovedToKept(l: Uid, name: string, x: Uid, y: Uid, answer: Answer, op: Op, known: View)
    requires NamesItem(answer, y) && y != x && About(op, x)
    ensures SameOnItem(op, Rewritten(op, ItemAdd(l, name, Some(x)), answer, known), y)
    ensures HasVersion(op) && op.base == Some(0) ==>
      Rewritten(op, ItemAdd(l, name, Some(x)), answer, known).base == MovedVersion(op.base, answer, y, known)
  {
  }

  /** An op on another item stays on it. */
  lemma OthersStay(settled: Op, answer: Answer, op: Op, u: Uid, known: View)
    requires About(op, u) && !(settled.ItemAdd? && settled.uid == Some(u))
    ensures SameOnItem(op, Rewritten(op, settled, answer, known), u)
  {
  }

  /** `planRewrites`: two passes over the queue that fill one map of new bodies. */
  method PlanRewrites(settled: Op, answer: Answer, later: seq<SentOp>, sent: set<Uid>,
      known: View) returns (rewritten: map<Uid, Op>)
    requires DistinctIds(later)
    ensures forall id :: id in rewritten ==> id !in sent && exists i :: 0 <= i < |later| && later[i].id == id
    ensures forall i :: 0 <= i < |later| ==>
      CurrentBody(rewritten, later[i]) == if later[i].id in sent then later[i].op
        else Rewritten(later[i].op, settled, answer, known)
    ensures forall i, y ::
      (0 <= i < |later| && later[i].id !in sent && Redirects(settled, answer, y)
        && About(later[i].op, settled.uid.value)) ==>
      SameOnItem(later[i].op, CurrentBody(rewritten, later[i]), y)
  {
    rewritten := map[];
    if Remaps(settled, answer) {
      for k := 0 to |later|
        invariant forall id :: id in rewritten ==> id !in sent && exists i :: 0 <= i < k && later[i].id == id
        invariant forall i :: 0 <= i < k ==>
          CurrentBody(rewritten, later[i]) == if later[i].id in sent then later[i].op
            else Moved(later[i].op, settled, answer, known)
      {
        if later[k].id !in sent && RowOf(later[k].op) == Some(ItemRow(settled.uid.value)) {
          rewritten := rewritten[later[k].id := Moved(later[k].op, settled, answer, known)];
        }
      }
    }
    if NewSeq(answer).Some? && ChangedRow(settled, answer).Some? {
      var row := ChangedRow(settled, answer).value;
      var before := Before(settled, row, known);
      for k := 0 to |later|
        invariant forall id :: id in rewritten ==> id !in sent && exists i :: 0 <= i < |later| && later[i].id == id
        invariant forall i :: 0 <= i < |later| ==>
          CurrentBody(rewritten, later[i]) == if later[i].id in sent then later[i].op
            else if i < k then Rewritten(later[i].op, settled, answer, known)
                else Moved(later[i].op, settled, answer, known)
      {
        var now := CurrentBody(rewritten, later[k]);
        if later[k].id !in sent && BaseOf(now) == Some(before) && RowOf(now) == Some(row) {
          rewritten := rewritten[later[k].id := WithBase(now, NewSeq(answer).value)];
        }
      }
    }
    forall i, y | 0 <= i < |later| && Redirects(settled, answer, y) && later[i].id !in sent
        && About(later[i].op, settled.uid.value)
      ensures SameOnItem(later[i].op, CurrentBody(rewritten, later[i]), y)
    {
      MovedToKept(settled.list, settled.name, settled.uid.value, y, answer, later[i].op, known);
    }
  }

  /** A rewrite changes the base, and for a remapped item its ID; nothing else an op says. */
  lemma RewriteKeepsMeaning(op: Op, settled: Op, answer: Answer, known: View)
    ensures var r := Rewritten(op, settled, answer, known);
      Unbased(r) == Unbased(op)
        || (Remaps(settled, answer) && OnItem(op) && OnItem(r)
        && Unbased(r) == Unbased(WithItem(op, KeptItem(answer).value)))
  {
  }

  /** The op without its version check: the last write wins. */
  function Unbased(op: Op): Op {
    if op.ListRename? || op.ItemSetDone? || op.ItemEdit? then op.(base := None) else op
  }
}

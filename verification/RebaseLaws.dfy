/**
  What becomes of the ops queued behind an add whose name was on the list already: they go to the
  item that is there, and the server finds it.
 */
module RebaseLaws {
  import opened RoomModel
  import opened Texts
  import opened Overlay
  import opened Operations
  import opened RoomRules
  import opened Rebase
  import Laws = HandlerLaws
  import Effects = HandlerEffects

  /** The item the server named is an open item of the list, so an op moved to it finds it. */
  lemma KeptIsThere(db: Db, l: Uid, name: string, x: Uid, env: Env, y: Uid)
    requires UniqueNames(db.items) && NamesItem(Handle(db, ItemAdd(l, name, Some(x)), env).answer, y)
    ensures var b := Handle(db, ItemAdd(l, name, Some(x)), env).db;
      y in b.items && b.items[y].list == l && !b.items[y].done && NameKey(b.items[y].name) == NameKey(Strip(name))
  {
    var op := ItemAdd(l, name, Some(x));
    hide UniqueNames, Strip, Lower, NameKey;
    Laws.AnswerIsFirstFailure(db, op, env);
    if Handle(db, op, env).answer.Applied? {
      Effects.AnswerNamesRow(db, op, env);
    } else {
      RefusedChangesNothing(db, op, env);
      hide Laws.Fails, Handle;
    }
  }

  /** The server refuses an op as on no item only where the item is not. */
  lemma NotFoundMeansGone(db: Db, op: Op, env: Env)
    requires UniqueNames(db.items) && OnOneItem(op) && Handle(db, op, env).answer == Rejected(ItemNotFound, None)
    ensures !Laws.Has(db, op.list, op.item)
  {
    Laws.AnswerIsFirstFailure(db, op, env);
    hide Handle, UniqueNames, Laws.Says, Laws.Stale, Laws.Misfit, Laws.OtherItem, Laws.NewDue;
  }

  /** So the op behind the add, moved to the item the server named, is not refused as on no item. */
  lemma MovedIsFound(db: Db, l: Uid, name: string, x: Uid, env: Env, y: Uid, op: Op, known: View, later: Env)
    requires UniqueNames(db.items) && UniqueNames(Handle(db, ItemAdd(l, name, Some(x)), env).db.items)
    requires var answer := Handle(db, ItemAdd(l, name, Some(x)), env).answer; NamesItem(answer, y) && y != x
    requires About(op, x) && op.list == l
    ensures var out := Handle(db, ItemAdd(l, name, Some(x)), env);
      Handle(out.db, Rewritten(op, ItemAdd(l, name, Some(x)), out.answer, known), later).answer
        != Rejected(ItemNotFound, None)
  {
    var out := Handle(db, ItemAdd(l, name, Some(x)), env);
    KeptIsThere(db, l, name, x, env, y);
    MovedToKept(l, name, x, y, out.answer, op, known);
    var moved := Rewritten(op, ItemAdd(l, name, Some(x)), out.answer, known);
    hide Handle, UniqueNames, Rewritten;
    if Handle(out.db, moved, later).answer == Rejected(ItemNotFound, None) { NotFoundMeansGone(out.db, moved, later); }
  }
}

/** Projecting a queue of ops: it depends only on what the page can know, and follows the server. */
module OverlayRuns {
  import opened RoomModel
  import opened Texts
  import opened TagRules
  import opened Tracking
  import opened Operations
  import opened RoomRules
  import opened ChangesFeed
  import opened Simulation
  import P = Overlay

  lemma SameNameAlike(a: map<Uid, Item>, b: map<Uid, Item>, l: Uid, key: string)
    requires LikeItems(a, b)
    ensures forall u :: P.SameName(a, u, l, key) <==> P.SameName(b, u, l, key)
    ensures P.NameUsed(a, l, key) <==> P.NameUsed(b, l, key)
    ensures P.NameOpen(a, l, key) <==> P.NameOpen(b, l, key)
  {
    forall u | u in a ensures EraseItem(a[u]) == EraseItem(b[u]) {}
    forall u ensures P.SameName(a, u, l, key) <==> P.SameName(b, u, l, key) {}
    if P.NameUsed(a, l, key) { var u :| u in a && P.SameName(a, u, l, key); assert P.SameName(b, u, l, key); }
    if P.NameUsed(b, l, key) { var u :| u in b && P.SameName(b, u, l, key); assert P.SameName(a, u, l, key); }
    if P.NameOpen(a, l, key) {
      var u :| u in a && P.SameName(a, u, l, key) && !a[u].done; assert P.SameName(b, u, l, key) && !b[u].done;
    }
    if P.NameOpen(b, l, key) {
      var u :| u in b && P.SameName(b, u, l, key) && !b[u].done; assert P.SameName(a, u, l, key) && !a[u].done;
    }
  }

  lemma PutAlike(a: map<Uid, Item>, b: map<Uid, Item>, u: Uid, x: Item, y: Item)
    requires LikeItems(a, b) && EraseItem(x) == EraseItem(y)
    ensures LikeItems(a[u := x], b[u := y])
  {
  }

  /** With unique names both sides put back the same item. */
  lemma SameCheckedItem(a: map<Uid, Item>, b: map<Uid, Item>, l: Uid, key: string)
    requires LikeItems(a, b) && UniqueNames(a) && P.NameUsed(a, l, key)
    ensures P.NameUsed(b, l, key) && P.CheckedItem(a, l, key) == P.CheckedItem(b, l, key)
  {
    SameNameAlike(a, b, l, key);
    assert P.SameName(a, P.CheckedItem(b, l, key), l, key);
    hide P.NameUsed, LikeItems;
  }

  lemma AddRespects(v: View, w: View, l: Uid, raw: string, uid: Option<Uid>, at: Time)
    requires Alike(v, w) && UniqueNames(v.items)
    ensures Alike(P.ProjectAdd(v, l, raw, uid, at), P.ProjectAdd(w, l, raw, uid, at))
  {
    hide UniqueNames, P.NameUsed, P.NameOpen, Strip, NameKey;
    var key := NameKey(Strip(raw));
    SameNameAlike(v.items, w.items, l, key);
    if P.NameUsed(v.items, l, key) {
      SameCheckedItem(v.items, w.items, l, key);
      var x := P.CheckedItem(v.items, l, key);
      var a, b := v.items[x], w.items[x];
      assert EraseItem(a) == EraseItem(b);
      PutAlike(v.items, w.items, x,
        a.(done := false, completedAt := None, addCount := a.addCount + 1, addedAt := Some(at)),
               b.(done := false, completedAt := None, addCount := b.addCount + 1, addedAt := Some(at)));
    } else if uid.Some? {
      var row := P.NewRow(l, Strip(raw)).(addedAt := Some(at));
      PutAlike(v.items, w.items, uid.value, row, row);
    }
    hide LikeItems;
  }

  lemma RestoreRespects(v: View, w: View, op: Op)
    requires Alike(v, w) && op.ItemRestore?
    ensures Alike(P.ProjectRestore(v, op), P.ProjectRestore(w, op))
  {
    SameNameAlike(v.items, w.items, op.list, NameKey(Strip(op.name)));
    if op.uid.Some? { PutAlike(v.items, w.items, op.uid.value, P.RestoredRow(op), P.RestoredRow(op)); }
    hide P.NameUsed, P.RestoredRow;
  }

  lemma ItemAfterRespects(a: Item, b: Item, op: Op, at: Time, single: bool)
    requires EraseItem(a) == EraseItem(b)
    ensures EraseItem(P.ItemAfter(a, op, at, single)) == EraseItem(P.ItemAfter(b, op, at, single))
  {
  }

  lemma ListAfterRespects(a: List, b: List, op: Op)
    requires EraseList(a) == EraseList(b)
    ensures EraseList(P.ListAfter(a, op)) == EraseList(P.ListAfter(b, op))
  {
    hide SortTags, JsTrim, Without;
  }

  lemma OnItemRespects(v: View, w: View, l: Uid, u: Uid, op: Op, at: Time)
    requires Alike(v, w)
    ensures Alike(P.ProjectOnItem(v, l, u, op, at), P.ProjectOnItem(w, l, u, op, at))
  {
    if u in v.items {
      var single := l in v.lists && v.lists[l].settings.mode == Single;
      assert l in v.lists ==> EraseList(v.lists[l]).settings == EraseList(w.lists[l]).settings;
      assert EraseItem(v.items[u]) == EraseItem(w.items[u]);
      ItemAfterRespects(v.items[u], w.items[u], op, at, single);
      PutAlike(v.items, w.items, u, P.ItemAfter(v.items[u], op, at, single), P.ItemAfter(w.items[u], op, at, single));
    }
    hide P.ItemAfter;
  }

  lemma OnListRespects(v: View, w: View, l: Uid, op: Op)
    requires Alike(v, w)
    ensures Alike(P.ProjectOnList(v, l, op), P.ProjectOnList(w, l, op))
  {
    if l in v.lists { ListAfterRespects(v.lists[l], w.lists[l], op); }
    hide P.ListAfter;
  }

  lemma SweepsRespect(a: map<Uid, Item>, b: map<Uid, Item>, l: Uid, tag: string, newTag: string, listTags: seq<string>)
    requires LikeItems(a, b)
    ensures LikeItems(P.RenameItemTags(a, l, tag, newTag), P.RenameItemTags(b, l, tag, newTag))
    ensures LikeItems(P.KeepFirstItemTag(a, l, listTags), P.KeepFirstItemTag(b, l, listTags))
  {
    forall u | u in a ensures EraseItem(a[u]) == EraseItem(b[u]) {}
  }

  lemma ListsAlikePut(a: map<Uid, List>, b: map<Uid, List>, l: Uid, x: List, y: List)
    requires LikeLists(a, b) && EraseList(x) == EraseList(y)
    ensures LikeLists(a[l := x], b[l := y])
  {
  }

  lemma TagSettingsRespect(v: View, w: View, l: Uid, op: Op)
    requires Alike(v, w) && op.ListTagSettings?
    ensures Alike(P.ProjectTagSettings(v, l, op), P.ProjectTagSettings(w, l, op))
  {
    if l in v.lists {
      var x, y := P.ListAfter(v.lists[l], op), P.ListAfter(w.lists[l], op);
      assert EraseList(v.lists[l]) == EraseList(w.lists[l]);
      SweepsRespect(v.items, w.items, l, "", "", x.tags);
      ListsAlikePut(v.lists, w.lists, l, x, y);
    }
    hide P.KeepFirstItemTag, LikeItems, LikeLists;
  }

  lemma RenamedAlike(a: List, b: List, tag: string, newTag: string)
    requires EraseList(a) == EraseList(b)
    ensures P.RenamedList(a, tag, newTag).Some? <==> P.RenamedList(b, tag, newTag).Some?
    ensures P.RenamedList(a, tag, newTag).Some? ==>
      EraseList(P.RenamedList(a, tag, newTag).value) == EraseList(P.RenamedList(b, tag, newTag).value)
  {
    hide JsTrim, JsLength, SortTags, Replaced;
  }

  lemma TagRenameRespects(v: View, w: View, l: Uid, tag: string, newTag: string)
    requires Alike(v, w)
    ensures Alike(P.ProjectTagRename(v, l, tag, newTag), P.ProjectTagRename(w, l, tag, newTag))
  {
    if l in v.lists {
      RenamedAlike(v.lists[l], w.lists[l], tag, newTag);
      SweepsRespect(v.items, w.items, l, tag, JsTrim(newTag), []);
      if P.RenamedList(v.lists[l], tag, newTag).Some? {
        ListsAlikePut(v.lists, w.lists, l, P.RenamedList(v.lists[l], tag, newTag).value,
          P.RenamedList(w.lists[l], tag, newTag).value);
      }
    }
    hide JsTrim, P.RenamedList, P.RenameItemTags, LikeItems, LikeLists;
  }

  lemma LessAlike(a: map<Uid, Item>, b: map<Uid, Item>, u: Uid, l: Uid)
    requires LikeItems(a, b)
    ensures LikeItems(a - {u}, b - {u})
    ensures LikeItems(map x | x in a && a[x].list != l :: a[x], map x | x in b && b[x].list != l :: b[x])
  {
    forall x | x in a ensures a[x].list == b[x].list { assert EraseItem(a[x]).list == EraseItem(b[x]).list; }
    hide EraseItem;
  }

  lemma LessListsAlike(a: map<Uid, List>, b: map<Uid, List>, l: Uid)
    requires LikeLists(a, b)
    ensures LikeLists(a - {l}, b - {l})
  {
  }

  lemma DeletesRespect(v: View, w: View, op: Op, at: Time)
    requires Alike(v, w) && (op.ItemDelete? || op.ListDelete?)
    ensures Alike(P.Project(v, op, at), P.Project(w, op, at))
  {
    LessListsAlike(v.lists, w.lists, op.list);
    LessAlike(v.items, w.items, if op.ItemDelete? then op.item else 0, op.list);
    if op.ItemDelete? && op.item in v.items {
      assert EraseItem(v.items[op.item]).list == EraseItem(w.items[op.item]).list;
    }
    assert v.lists.Keys == w.lists.Keys && v.items.Keys == w.items.Keys;
    hide LikeItems, LikeLists, EraseItem;
  }

  /** What a projection shows depends only on what the page can know of the data. */
  lemma ProjectRespects(v: View, w: View, op: Op, at: Time)
    requires Alike(v, w) && UniqueNames(v.items)
    ensures Alike(P.Project(v, op, at), P.Project(w, op, at))
  {
    hide UniqueNames, P.ProjectOnItem, P.ProjectOnList, P.ProjectAdd, P.ProjectRestore, P.ProjectTagSettings,
      P.ProjectTagRename, LikeItems, LikeLists;
    match op {
      case RoomRename(_) =>
      case ListCreate(_, _) =>
      case ItemAdd(l, raw, uid) => AddRespects(v, w, l, raw, uid, at);
      case ItemRestore(_, _, _, _, _, _, _, _, _, _, _) => RestoreRespects(v, w, op);
      case ItemDelete(_, _) => DeletesRespect(v, w, op, at);
      case ListDelete(_) => DeletesRespect(v, w, op, at);
      case ListTagSettings(l, _, _, _) => TagSettingsRespect(v, w, l, op);
      case ListTagRename(l, tag, newTag) => TagRenameRespects(v, w, l, tag, newTag);
      case ListRename(l, _, _) => OnListRespects(v, w, l, op);
      case ListTagAdd(l, _) => OnListRespects(v, w, l, op);
      case ListTagRemove(l, _) => OnListRespects(v, w, l, op);
      case ListTagColor(l, _, _) => OnListRespects(v, w, l, op);
      case ListVisibility(l, _, _, _) => OnListRespects(v, w, l, op);
      case ItemSetDone(l, u, _, _) => OnItemRespects(v, w, l, u, op, at);
      case ItemQuantityDelta(l, u, _) => OnItemRespects(v, w, l, u, op, at);
      case ItemEdit(l, u, _, _, _, _, _, _, _) => OnItemRespects(v, w, l, u, op, at);
      case ItemToggleTag(l, u, _, _) => OnItemRespects(v, w, l, u, op, at);
    }
  }

  // Running a queue

  /** An op the user made, when, and the surroundings of its execution. */
  datatype Act = Act(op: Op, at: Time, env: Env)

  /** The server executes the ops one after the other. */
  ghost function Execute(db: Db, acts: seq<Act>): Db {
    if acts == [] then db
    else Handle(Execute(db, acts[..|acts| - 1]), acts[|acts| - 1].op, acts[|acts| - 1].env).db
  }

  /** Each op is one the page projects, the server applies it where it runs, and its projection is faithful. */
  ghost predicate AllApplied(db: Db, acts: seq<Act>) {
    acts == [] ||
    var before, act := Execute(db, acts[..|acts| - 1]), acts[|acts| - 1];
    && AllApplied(db, acts[..|acts| - 1])
    && Applies(before, act)
  }

  ghost predicate Applies(db: Db, act: Act) {
    EnvOk(db, act.env) && WellFormed(act.op) && P.IsProjected(act.op) && Handle(db, act.op, act.env).answer.Applied?
      && Faithful(db, act.op)
  }

  ghost function ShownAfter(v: View, acts: seq<Act>): View {
    if acts == [] then v
    else P.Project(ShownAfter(v, acts[..|acts| - 1]), acts[|acts| - 1].op, acts[|acts| - 1].at)
  }

  lemma PublishedNames(db: Db)
    requires UniqueNames(db.items)
    ensures UniqueNames(ViewOf(db).items)
  {
  }

  lemma AlikeNames(v: View, w: View)
    requires Alike(v, w) && UniqueNames(w.items)
    ensures UniqueNames(v.items)
  {
    forall u | u in v.items ensures EraseItem(v.items[u]) == EraseItem(w.items[u]) {}
    forall a, b | a in v.items && b in v.items && a != b && v.items[a].list == v.items[b].list
      ensures NameKey(v.items[a].name) != NameKey(v.items[b].name)
    {
      assert w.items[a].list == w.items[b].list && w.items[a].name == v.items[a].name
        && w.items[b].name == v.items[b].name;
    }
  }

  /**
    Any queue of ops that the server will apply, projected on a view like the old feed's, shows
    what the server's data will be.
   */
  lemma {:induction false} QueueSimulates(db: Db, v: View, acts: seq<Act>)
    requires Tracked(db) && Ruled(db) && Alike(v, ViewOf(db)) && AllApplied(db, acts)
    ensures Tracked(Execute(db, acts)) && Ruled(Execute(db, acts))
      && Alike(ShownAfter(v, acts), ViewOf(Execute(db, acts)))
    decreases |acts|
  {
    if acts != [] {
      var rest, act := acts[..|acts| - 1], acts[|acts| - 1];
      QueueSimulates(db, v, rest);
      var before := Execute(db, rest);
      var after := Handle(before, act.op, act.env).db;
      PublishedNames(before);
      AlikeNames(ShownAfter(v, rest), ViewOf(before));
      hide Alike, Tracked, EnvOk, ListsOk, ItemsOk, UniqueListNames, UniqueNames, CountsOk, Handle, Faithful,
        P.Project, ViewOf;
      ProjectRespects(ShownAfter(v, rest), ViewOf(before), act.op, act.at);
      OverlaySimulates(before, act.op, act.env, act.at);
      HandleKeepsRules(before, act.op, act.env);
      AlikeTransitive(P.Project(ShownAfter(v, rest), act.op, act.at), P.Project(ViewOf(before), act.op, act.at),
        ViewOf(after));
    }
  }
}

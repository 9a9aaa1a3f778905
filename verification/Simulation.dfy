/**
  The overlay against the server: projecting an op the server applies gives the view the
  server's next feed gives, up to times, versions and the UTC due time.
 */
module Simulation {
  import opened RoomModel
  import opened Texts
  import opened TagRules
  import opened Tracking
  import opened Operations
  import opened RoomRules
  import opened ChangesFeed
  import P = Overlay

  // What an overlay can know of a row: all but the times, the version and the UTC due time.

  function EraseItem(row: Item): Item {
    row.(completedAt := None, addedAt := None, dueAt := None, cycle := None, changedSeq := 0)
  }
  function EraseList(row: List): List { row.(changedSeq := 0) }

  ghost predicate LikeLists(a: map<Uid, List>, b: map<Uid, List>) {
    a.Keys == b.Keys && forall l :: l in a ==> EraseList(a[l]) == EraseList(b[l])
  }

  ghost predicate LikeItems(a: map<Uid, Item>, b: map<Uid, Item>) {
    a.Keys == b.Keys && forall u :: u in a ==> EraseItem(a[u]) == EraseItem(b[u])
  }

  ghost predicate Alike(a: View, b: View) {
    a.name == b.name && LikeLists(a.lists, b.lists) && LikeItems(a.items, b.items)
  }

  lemma AlikeTransitive(a: View, b: View, c: View)
    requires Alike(a, b) && Alike(b, c)
    ensures Alike(a, c) && Alike(b, a)
  {
  }

  /**
    When the projection of an applied op is exact: the two trims agree, a new row has the page's
    ID, a rename to the same name meets no repeated item tags, and so on. Each part is a check on
    the op and the rows it meets.
   */
  ghost predicate Faithful(db: Db, op: Op) {
    match op
    case RoomRename(name) => JsTrim(name) == Strip(name)
    case ListRename(_, name, _) => JsTrim(name) == Strip(name)
    case ListTagAdd(l, raw) =>
      JsTrim(raw) == Strip(raw)
      || (l in db.lists && Strip(raw) in db.lists[l].tags && (JsTrim(raw) == [] || JsTrim(raw) in db.lists[l].tags))
    case ListTagRename(l, tag, raw) =>
      if Strip(raw) != tag then JsTrim(raw) == Strip(raw) && JsLength(Strip(raw)) <= MAX_TAG_LENGTH
      else l in db.lists && SameNameHarmless(db.lists[l].tags, db.items, l, tag, JsTrim(raw))
    case ItemAdd(l, name, uid) => uid.Some? || NameTaken(db, l, NameKey(Strip(name)), None)
    case ItemEdit(_, _, _, description, _, _, _, _, _) => JsTrim(description) == Strip(description)
    case ItemRestore(_, uid, _, _, _, description, amount, _, _, _, _) =>
      uid.Some? && amount >= 1 && JsTrim(description) == description
    case _ => true
  }

  /** The server does nothing when a tag is renamed to itself; the page may refuse, or drop repeats. */
  ghost predicate SameNameHarmless(listTags: seq<string>, items: map<Uid, Item>, l: Uid, tag: string, name: string) {
    || name == [] || JsLength(name) > MAX_TAG_LENGTH || (name != tag && name in listTags)
    || (name == tag && forall u :: u in items && items[u].list == l && tag in items[u].tags ==> Distinct(items[u].tags))
  }

  lemma PublishedAsStored(lists: map<Uid, List>)
    requires ListsOk(lists)
    ensures PublishLists(lists) == lists
  {
    forall l | l in lists ensures PublishList(lists[l]) == lists[l] {
      assert ListOk(lists[l]);
      SortedIsFixed(lists[l].tags);
    }
  }

  lemma OneListLike(lists: map<Uid, List>, l: Uid, x: List, y: List)
    ensures LikeLists(lists[l := x], lists[l := y]) <==> EraseList(x) == EraseList(y)
  {
    assert lists[l := x][l] == x && lists[l := y][l] == y;
  }

  lemma OneItemLike(items: map<Uid, Item>, u: Uid, x: Item, y: Item)
    ensures LikeItems(items[u := x], items[u := y]) <==> EraseItem(x) == EraseItem(y)
  {
    assert items[u := x][u] == x && items[u := y][u] == y;
  }

  lemma LikeItself(lists: map<Uid, List>, items: map<Uid, Item>)
    ensures LikeLists(lists, lists) && LikeItems(items, items)
  {
  }

  /** When both sides touch one row only, the rows decide. */
  lemma OneList(db: Db, b: Db, l: Uid, row: List)
    requires ListsOk(db.lists) && ListsOk(b.lists) && l in b.lists
    requires b.name == db.name && b.items == db.items && b.lists == db.lists[l := b.lists[l]]
    ensures Alike(View(db.name, PublishLists(db.lists)[l := row], PublishItems(db.items)), ViewOf(b))
      <==> EraseList(row) == EraseList(b.lists[l])
  {
    PublishedAsStored(db.lists);
    PublishedAsStored(b.lists);
    OneListLike(db.lists, l, row, b.lists[l]);
    LikeItself(db.lists, PublishItems(db.items));
    hide LikeLists, LikeItems, PublishItems, PublishLists, ListsOk;
  }

  lemma PublishOne(items: map<Uid, Item>, u: Uid, row: Item)
    ensures PublishItems(items[u := row]) == PublishItems(items)[u := PublishItem(row)]
  {
  }

  lemma OneItem(db: Db, b: Db, u: Uid, row: Item)
    requires b.name == db.name && b.lists == db.lists && u in b.items && b.items == db.items[u := b.items[u]]
    ensures Alike(View(db.name, PublishLists(db.lists), PublishItems(db.items)[u := row]), ViewOf(b))
      <==> EraseItem(row) == EraseItem(b.items[u])
  {
    PublishOne(db.items, u, b.items[u]);
    OneItemLike(PublishItems(db.items), u, row, PublishItem(b.items[u]));
    LikeItself(PublishLists(db.lists), db.items);
    hide LikeLists, LikeItems, PublishItems, PublishLists;
  }

  // The ops on one list row

  lemma ListRenameSimulates(db: Db, l: Uid, raw: string, base: Option<nat>)
    requires ListsOk(db.lists) && ListsOk(RenameList(db, l, raw, base).db.lists)
      && RenameList(db, l, raw, base).answer.Applied?
    ensures Alike(P.ProjectOnList(ViewOf(db), l, ListRename(l, raw, base)), ViewOf(RenameList(db, l, raw, base).db))
      <==> JsTrim(raw) == Strip(raw)
  {
    hide ListsOk, Alike, PublishItems;
    PublishedAsStored(db.lists);
    OneList(db, RenameList(db, l, raw, base).db, l, P.ListAfter(db.lists[l], ListRename(l, raw, base)));
  }

  lemma AddedTags(tags: seq<string>, a: string, b: string)
    requires a !in tags
    ensures SortTags(tags + [a]) != tags && (SortTags(tags + [a]) == SortTags(tags + [b]) <==> a == b)
  {
    SortShape(tags + [a]);
    SortShape(tags + [b]);
    hide SortTags;
    assert a in tags + [a] && (a in tags + [b] <==> a == b);
  }

  lemma TagAddSimulates(db: Db, l: Uid, raw: string)
    requires ListsOk(db.lists) && ListsOk(AddTag(db, l, raw).db.lists) && AddTag(db, l, raw).answer.Applied?
    ensures Alike(P.ProjectOnList(ViewOf(db), l, ListTagAdd(l, raw)), ViewOf(AddTag(db, l, raw).db)) <==>
      Faithful(db, ListTagAdd(l, raw))
  {
    hide ListsOk, Alike, PublishItems, SortTags;
    PublishedAsStored(db.lists);
    OneList(db, AddTag(db, l, raw).db, l, P.ListAfter(db.lists[l], ListTagAdd(l, raw)));
    var tags, tag, name := db.lists[l].tags, Strip(raw), JsTrim(raw);
    if tag !in tags { AddedTags(tags, tag, name); } else if name !in tags { AddedTags(tags, name, name); }
  }

  lemma TagRemoveSimulates(db: Db, l: Uid, tag: string)
    requires ListsOk(db.lists) && ListsOk(RemoveTag(db, l, tag).db.lists) && RemoveTag(db, l, tag).answer.Applied?
    ensures Alike(P.ProjectOnList(ViewOf(db), l, ListTagRemove(l, tag)), ViewOf(RemoveTag(db, l, tag).db))
  {
    hide ListsOk, Alike, PublishItems;
    PublishedAsStored(db.lists);
    OneList(db, RemoveTag(db, l, tag).db, l, P.ListAfter(db.lists[l], ListTagRemove(l, tag)));
  }

  lemma TagColorSimulates(db: Db, l: Uid, tag: string, color: Option<int>)
    requires ListsOk(db.lists) && ListsOk(ColorTag(db, l, tag, color).db.lists)
      && ColorTag(db, l, tag, color).answer.Applied?
    ensures Alike(P.ProjectOnList(ViewOf(db), l, ListTagColor(l, tag, color)), ViewOf(ColorTag(db, l, tag, color).db))
  {
    hide ListsOk, Alike, PublishItems;
    PublishedAsStored(db.lists);
    OneList(db, ColorTag(db, l, tag, color).db, l, P.ListAfter(db.lists[l], ListTagColor(l, tag, color)));
  }

  lemma VisibilitySimulates(db: Db, l: Uid, op: Op)
    requires op.ListVisibility? && op.list == l
    requires ListsOk(db.lists) && ListsOk(SetVisibility(db, l, op).db.lists) && SetVisibility(db, l, op).answer.Applied?
    ensures Alike(P.ProjectOnList(ViewOf(db), l, op), ViewOf(SetVisibility(db, l, op).db))
  {
    hide ListsOk, Alike, PublishItems;
    PublishedAsStored(db.lists);
    OneList(db, SetVisibility(db, l, op).db, l, P.ListAfter(db.lists[l], op));
  }

  // The ops on one item row

  lemma SetDoneSimulates(db: Db, l: Uid, u: Uid, done: bool, base: Option<nat>, env: Env, at: Time)
    requires SetDone(db, l, u, done, base, env).answer.Applied?
    ensures Alike(P.ProjectOnItem(ViewOf(db), l, u, ItemSetDone(l, u, done, base), at),
      ViewOf(SetDone(db, l, u, done, base, env).db))
  {
    hide Alike, PublishLists;
    OneItem(db, SetDone(db, l, u, done, base, env).db, u,
      P.ItemAfter(PublishItem(db.items[u]), ItemSetDone(l, u, done, base), at, false));
  }

  lemma QuantitySimulates(db: Db, l: Uid, u: Uid, delta: int, at: Time)
    requires AdjustQuantity(db, l, u, delta).answer.Applied?
    ensures Alike(P.ProjectOnItem(ViewOf(db), l, u, ItemQuantityDelta(l, u, delta), at),
      ViewOf(AdjustQuantity(db, l, u, delta).db))
  {
    hide Alike, PublishLists;
    OneItem(db, AdjustQuantity(db, l, u, delta).db, u,
      P.ItemAfter(PublishItem(db.items[u]), ItemQuantityDelta(l, u, delta), at, false));
  }

  /** The row after a toggle, on both sides. */
  lemma ToggledRowAgrees(row: Item, l: Uid, u: Uid, tag: string, active: Option<bool>, at: Time, single: bool)
    ensures P.ItemAfter(PublishItem(row), ItemToggleTag(l, u, tag, active), at, single)
      == PublishItem(row).(tags := ToggledTags(row.tags, tag, active, single))
  {
    hide Without;
  }

  lemma ToggleSimulates(db: Db, l: Uid, u: Uid, tag: string, active: Option<bool>, at: Time)
    requires ToggleTag(db, l, u, tag, active).answer.Applied?
    ensures Alike(P.ProjectOnItem(ViewOf(db), l, u, ItemToggleTag(l, u, tag, active), at),
      ViewOf(ToggleTag(db, l, u, tag, active).db))
  {
    hide Alike, P.ItemAfter, ToggledTags, SortTags;
    var row, single := db.items[u], db.lists[l].settings.mode == Single;
    ToggledRowAgrees(row, l, u, tag, active, at, single);
    var b := ToggleTag(db, l, u, tag, active).db;
    assert b.items == db.items[u := b.items[u]];
    assert b.items[u].(changedSeq := 0) == row.(tags := ToggledTags(row.tags, tag, active, single), changedSeq := 0);
    OneItem(db, ToggleTag(db, l, u, tag, active).db, u,
      P.ItemAfter(PublishItem(row), ItemToggleTag(l, u, tag, active), at, single));
  }

  /** The page's merge of an edited due schedule is the server's, on a stored schedule that is in order. */
  lemma DueMergeAgrees(row: Item, op: Op, at: Time)
    requires op.ItemEdit? && DueOk(row.due) && MergeDue(row.due, op.date, op.time, op.zone).Some?
    ensures P.ItemAfter(row, op, at, false).due == MergeDue(row.due, op.date, op.time, op.zone).value
  {
  }

  lemma EditedRowAgrees(row: Item, op: Op, due: Due, env: Env, at: Time)
    requires op.ItemEdit? && P.ItemAfter(PublishItem(row), op, at, false).due == due
    ensures
      var quantity: Option<int> := if op.quantity.None? then None else Some(Max(1, op.quantity.value));
      (EraseItem(P.ItemAfter(PublishItem(row), op, at, false))
        == EraseItem(Edited(row, Strip(op.name), Strip(op.description), quantity, due, env)))
      == (JsTrim(op.description) == Strip(op.description))
  {
    hide Strip, JsTrim;
  }

  lemma EditApplied(db: Db, op: Op, env: Env) returns (due: Due)
    requires op.ItemEdit? && EditItem(db, op.list, op.item, op, env).answer.Applied?
    ensures MergeDue(db.items[op.item].due, op.date, op.time, op.zone) == Some(due)
    ensures HasItem(db, op.list, op.item) && op.list in db.lists
    ensures var b, row := EditItem(db, op.list, op.item, op, env).db, db.items[op.item];
      var quantity: Option<int> := if op.quantity.None? then None else Some(Max(1, op.quantity.value));
      && b.name == db.name && b.lists == db.lists && op.item in b.items
        && b.items == db.items[op.item := b.items[op.item]]
      && EraseItem(b.items[op.item])
        == EraseItem(Edited(row, Strip(op.name), Strip(op.description), quantity, due, env))
  {
    hide MergeDue, NameTaken, Strip, Unresolved;
    due := MergeDue(db.items[op.item].due, op.date, op.time, op.zone).value;
  }

  lemma EditSimulates(db: Db, op: Op, env: Env, at: Time)
    requires op.ItemEdit? && ItemsOk(db.items) && EditItem(db, op.list, op.item, op, env).answer.Applied?
    ensures Alike(P.ProjectOnItem(ViewOf(db), op.list, op.item, op, at),
      ViewOf(EditItem(db, op.list, op.item, op, env).db))
      <==> JsTrim(op.description) == Strip(op.description)
  {
    hide Alike, PublishLists, MergeDue, Strip, JsTrim, P.ItemAfter, EditItem, Edited;
    var due := EditApplied(db, op, env);
    var row := db.items[op.item];
    assert ItemOk(row);
    hide ItemOk, ItemsOk;
    EditedAgrees(row, op, due, env, at);
    OneItem(db, EditItem(db, op.list, op.item, op, env).db, op.item, P.ItemAfter(PublishItem(row), op, at, false));
    EditIgnoresMode(PublishItem(row), op, at, true);
  }

  lemma EditedAgrees(row: Item, op: Op, due: Due, env: Env, at: Time)
    requires op.ItemEdit? && ItemOk(row) && MergeDue(row.due, op.date, op.time, op.zone) == Some(due)
    ensures var quantity: Option<int> := if op.quantity.None? then None else Some(Max(1, op.quantity.value));
      (EraseItem(P.ItemAfter(PublishItem(row), op, at, false))
        == EraseItem(Edited(row, Strip(op.name), Strip(op.description), quantity, due, env)))
      == (JsTrim(op.description) == Strip(op.description))
  {
    DueMergeAgrees(PublishItem(row), op, at);
    EditedRowAgrees(row, op, due, env, at);
    hide MergeDue, Strip, JsTrim;
  }

  lemma EditIgnoresMode(row: Item, op: Op, at: Time, single: bool)
    requires op.ItemEdit?
    ensures P.ItemAfter(row, op, at, single) == P.ItemAfter(row, op, at, false)
  {
  }

  // The ops that add an item

  lemma PublishedName(items: map<Uid, Item>, u: Uid, l: Uid, key: string)
    ensures P.SameName(PublishItems(items), u, l, key) <==>
      u in items && items[u].list == l && NameKey(items[u].name) == key
  {
  }

  /** Names are unique, so the page finds the item the server finds. */
  lemma PageFinds(items: map<Uid, Item>, l: Uid, key: string, x: Uid)
    requires UniqueNames(items) && x in items && items[x].list == l && NameKey(items[x].name) == key
    ensures P.NameUsed(PublishItems(items), l, key) && P.CheckedItem(PublishItems(items), l, key) == x
    ensures items[x].done ==> !P.NameOpen(PublishItems(items), l, key)
  {
    forall u ensures P.SameName(PublishItems(items), u, l, key) <==> u == x {
      PublishedName(items, u, l, key);
    }
    assert P.SameName(PublishItems(items), x, l, key);
    hide UniqueNames;
  }

  lemma AddKnownSimulates(db: Db, l: Uid, raw: string, uid: Option<Uid>, env: Env, at: Time)
    requires UniqueNames(db.items) && Named(db, l, NameKey(Strip(raw))).Some?
    requires AddItem(db, l, raw, uid, env).answer.Applied?
    ensures Alike(P.ProjectAdd(ViewOf(db), l, raw, uid, at), ViewOf(AddItem(db, l, raw, uid, env).db))
  {
    hide Alike, PublishLists, NewUidTaken, UniqueNames, Strip, NameKey, P.NameUsed, P.NameOpen;
    var key := NameKey(Strip(raw));
    var x := Named(db, l, key).value;
    assert Names(db, l, x, key);
    PageFinds(db.items, l, key, x);
    OneItem(db, AddItem(db, l, raw, uid, env).db, x,
            PublishItem(db.items[x]).(done := false, completedAt := None, addCount := db.items[x].addCount + 1,
              addedAt := Some(at)));
  }

  lemma AddNewSimulates(db: Db, l: Uid, raw: string, uid: Option<Uid>, env: Env, at: Time)
    requires Tracked(db) && EnvOk(db, env) && Named(db, l, NameKey(Strip(raw))).None?
    requires AddItem(db, l, raw, uid, env).answer.Applied?
    ensures Alike(P.ProjectAdd(ViewOf(db), l, raw, uid, at), ViewOf(AddItem(db, l, raw, uid, env).db)) <==> uid.Some?
  {
    NewUidIsNew(db, uid, env);
    assert !NameTaken(db, l, NameKey(Strip(raw)), None);
    NameFreeOnPage(db, l, NameKey(Strip(raw)));
    hide Alike, PublishLists, Tracked, EnvOk, NewUidTaken, CheckedName, P.NameUsed, P.NameOpen, Strip;
    NewRowOnBoth(db, AddItem(db, l, raw, uid, env).db, NewUid(uid, env), P.NewRow(l, Strip(raw)).(addedAt := Some(at)));
  }

  lemma AddSimulates(db: Db, l: Uid, raw: string, uid: Option<Uid>, env: Env, at: Time)
    requires UniqueNames(db.items) && Tracked(db) && EnvOk(db, env) && AddItem(db, l, raw, uid, env).answer.Applied?
    ensures Alike(P.ProjectAdd(ViewOf(db), l, raw, uid, at), ViewOf(AddItem(db, l, raw, uid, env).db))
      <==> uid.Some? || NameTaken(db, l, NameKey(Strip(raw)), None)
  {
    hide Alike, UniqueNames, Tracked, EnvOk, AddItem, P.ProjectAdd;
    var key := NameKey(Strip(raw));
    match Named(db, l, key)
    case Some(x) =>
      assert Names(db, l, x, key) && Some(x) != None;
      AddKnownSimulates(db, l, raw, uid, env, at);
    case None =>
      AddNewSimulates(db, l, raw, uid, env, at);
  }

  lemma RestoredRowAgrees(op: Op, due: Due, env: Env)
    requires op.ItemRestore? && op.uid.Some?
    requires MergeDue(NO_DUE, Sent(op.due.date), Sent(op.due.time), Sent(op.due.zone)) == Some(due)
    ensures due == op.due
    ensures
      (EraseItem(P.RestoredRow(op)) == EraseItem(RestoredItem(op, Strip(op.name), due, env)))
      == (op.amount >= 1 && JsTrim(op.description) == op.description)
  {
    hide JsTrim, Strip;
  }

  lemma NameFreeOnPage(db: Db, l: Uid, key: string)
    requires !NameTaken(db, l, key, None)
    ensures !P.NameUsed(PublishItems(db.items), l, key) && !P.NameOpen(PublishItems(db.items), l, key)
  {
    forall u ensures !P.SameName(PublishItems(db.items), u, l, key) {
      PublishedName(db.items, u, l, key);
      assert !(Names(db, l, u, key) && Some(u) != None);
    }
  }

  /** A new row appears on both sides, or only on the server's. */
  lemma NewRowOnBoth(db: Db, b: Db, u: Uid, row: Item)
    requires u !in db.items && b.name == db.name && b.lists == db.lists && u in b.items
      && b.items == db.items[u := b.items[u]]
    ensures Alike(View(db.name, PublishLists(db.lists), PublishItems(db.items)[u := row]), ViewOf(b))
      <==> EraseItem(row) == EraseItem(b.items[u])
    ensures !Alike(ViewOf(db), ViewOf(b))
  {
    OneItem(db, b, u, row);
    assert u in ViewOf(b).items && u !in ViewOf(db).items;
  }

  lemma RestoreApplied(db: Db, op: Op, env: Env) returns (due: Due)
    requires op.ItemRestore? && RestoreItem(db, op, env).answer.Applied?
    ensures MergeDue(NO_DUE, Sent(op.due.date), Sent(op.due.time), Sent(op.due.zone)) == Some(due)
    ensures !NewUidTaken(db, op.uid, env) && op.list in db.lists
      && !NameTaken(db, op.list, NameKey(Strip(op.name)), None)
    ensures RestoreItem(db, op, env).db == PutItem(db, NewUid(op.uid, env), RestoredItem(op, Strip(op.name), due, env))
  {
    hide MergeDue, NameTaken, Strip, Unresolved, NewUidTaken, RestoredItem;
    due := MergeDue(NO_DUE, Sent(op.due.date), Sent(op.due.time), Sent(op.due.zone)).value;
  }

  lemma RestoreSimulates(db: Db, op: Op, env: Env)
    requires Tracked(db) && EnvOk(db, env) && op.ItemRestore? && RestoreItem(db, op, env).answer.Applied?
    ensures Alike(P.ProjectRestore(ViewOf(db), op), ViewOf(RestoreItem(db, op, env).db))
      <==> op.uid.Some? && op.amount >= 1 && JsTrim(op.description) == op.description
  {
    var due := RestoreApplied(db, op, env);
    NewUidIsNew(db, op.uid, env);
    NameFreeOnPage(db, op.list, NameKey(Strip(op.name)));
    if op.uid.Some? { RestoredRowAgrees(op, due, env); }
    hide Alike, Tracked, EnvOk, NewUidTaken, MergeDue, NameTaken, JsTrim, Strip, P.NameUsed, P.RestoredRow,
      RestoredItem, RestoreItem, InUse;
    NewRowOnBoth(db, RestoreItem(db, op, env).db, NewUid(op.uid, env), P.RestoredRow(op));
  }

  // The ops on the room, and the ones that go over many rows

  lemma RoomRenameSimulates(db: Db, raw: string)
    requires RenameRoom(db, raw).answer.Applied?
    ensures Alike(ViewOf(db).(name := JsTrim(raw)), ViewOf(RenameRoom(db, raw).db)) <==> JsTrim(raw) == Strip(raw)
  {
    LikeItself(PublishLists(db.lists), PublishItems(db.items));
    hide LikeLists, LikeItems, PublishLists, PublishItems;
  }

  lemma ItemDeleteSimulates(db: Db, l: Uid, u: Uid, env: Env, at: Time)
    requires DeleteItem(db, l, u, env).answer.Applied?
    ensures Alike(P.Project(ViewOf(db), ItemDelete(l, u), at), ViewOf(DeleteItem(db, l, u, env).db))
  {
    assert PublishItems(db.items - {u}) == PublishItems(db.items) - {u};
    LikeItself(PublishLists(db.lists), PublishItems(DeleteItem(db, l, u, env).db.items));
    hide LikeLists, LikeItems, PublishLists;
  }

  lemma ListDeleteSimulates(db: Db, l: Uid, env: Env, at: Time)
    requires EnvOk(db, env) && DeleteList(db, l, env).answer.Applied?
    ensures Alike(P.Project(ViewOf(db), ListDelete(l), at), ViewOf(DeleteList(db, l, env).db))
  {
    var b := DeleteList(db, l, env).db;
    DropItemsLeft(db, env.order, l, env.now);
    var v := P.Project(ViewOf(db), ListDelete(l), at);
    assert v.items == ViewOf(b).items;
    assert v.lists == ViewOf(b).lists;
    LikeItself(v.lists, v.items);
    hide LikeLists, LikeItems, PublishLists, PublishItems;
  }

  function RetagAll(items: map<Uid, Item>, l: Uid, r: Retagging): map<Uid, Item> {
    map u | u in items :: RetagRow(items[u], l, r)
  }

  lemma RetagRowTwice(row: Item, l: Uid, r: Retagging)
    requires r.Rename? ==> r.tag != r.newTag
    ensures RetagRow(RetagRow(row, l, r), l, r) == RetagRow(row, l, r)
  {
    if r.Rename? { RenamedShape(row.tags, r.tag, r.newTag); }
  }

  /** Whatever the order of the rows, each affected item is retagged once. */
  lemma {:induction false} RetagItems(db: Db, order: seq<Uid>, l: Uid, r: Retagging)
    requires r.Rename? ==> r.tag != r.newTag
    ensures Retag(db, order, l, r).items.Keys == db.items.Keys && Retag(db, order, l, r).name == db.name
    ensures forall u :: u in db.items ==>
      EraseItem(Retag(db, order, l, r).items[u])
        == EraseItem(if u in order then RetagRow(db.items[u], l, r) else db.items[u])
    decreases |order|
  {
    hide EraseItem, RetagRow, Affects;
    if order != [] {
      var x := order[0];
      var next := if HasItem(db, l, x) && Affects(r, db.items[x].tags) then PutItem(db, x, RetagRow(db.items[x], l, r))
          else db;
      RetagItems(next, order[1..], l, r);
      hide Retag;
      forall u | u in db.items
        ensures EraseItem(if u in order[1..] then RetagRow(next.items[u], l, r) else next.items[u])
          == EraseItem(if u in order then RetagRow(db.items[u], l, r) else db.items[u])
      {
        RetagOne(db, next, order, u, l, r);
      }
    }
  }

  lemma RetagOne(db: Db, next: Db, order: seq<Uid>, u: Uid, l: Uid, r: Retagging)
    requires (r.Rename? ==> r.tag != r.newTag) && order != [] && u in db.items
    requires next == if HasItem(db, l, order[0]) && Affects(r, db.items[order[0]].tags)
      then PutItem(db, order[0], RetagRow(db.items[order[0]], l, r)) else db
    ensures EraseItem(if u in order[1..] then RetagRow(next.items[u], l, r) else next.items[u])
      == EraseItem(if u in order then RetagRow(db.items[u], l, r) else db.items[u])
  {
    var now := if u == order[0] then RetagRow(db.items[u], l, r) else db.items[u];
    RetagErased(next.items[u], now, l, r);
    RetagRowTwice(db.items[u], l, r);
    assert u in order <==> u == order[0] || u in order[1..];
    hide Retagged;
  }

  lemma RetagErased(a: Item, b: Item, l: Uid, r: Retagging)
    requires EraseItem(a) == EraseItem(b)
    ensures EraseItem(RetagRow(a, l, r)) == EraseItem(RetagRow(b, l, r))
  {
  }

  /** The page's versions of the two sweeps are the server's. */
  lemma RenameSweepAgrees(items: map<Uid, Item>, l: Uid, tag: string, newTag: string)
    ensures LikeItems(P.RenameItemTags(PublishItems(items), l, tag, newTag), RetagAll(items, l, Rename(tag, newTag)))
  {
  }

  lemma KeepFirstSweepAgrees(items: map<Uid, Item>, l: Uid, listTags: seq<string>)
    requires Distinct(listTags)
    ensures LikeItems(P.KeepFirstItemTag(PublishItems(items), l, listTags), RetagAll(items, l, KeepFirst(listTags)))
  {
    forall t ensures ServerRank(listTags)(t) == P.PageRank(listTags)(t) { RanksAgree(listTags, t, |listTags|); }
    forall u | u in items && |items[u].tags| >= 2
      ensures First(items[u].tags, ServerRank(listTags)) == First(items[u].tags, P.PageRank(listTags))
    {
      FirstAgrees(items[u].tags, ServerRank(listTags), P.PageRank(listTags));
    }
  }

  lemma RetagView(db: Db, order: seq<Uid>, l: Uid, r: Retagging)
    requires (forall u :: u in db.items ==> u in order) && (r.Rename? ==> r.tag != r.newTag)
    ensures LikeItems(RetagAll(db.items, l, r), PublishItems(Retag(db, order, l, r).items))
  {
    RetagItems(db, order, l, r);
  }

  lemma LikeTransitive(a: map<Uid, Item>, b: map<Uid, Item>, c: map<Uid, Item>)
    requires LikeItems(a, b) && LikeItems(b, c)
    ensures LikeItems(a, c)
  {
  }

  /** A list row and a sweep over its items, on both sides. */
  lemma SweepView(db: Db, l: Uid, row: List, order: seq<Uid>, r: Retagging, items: map<Uid, Item>)
    requires ListsOk(db.lists) && ListsOk(PutList(db, l, row).lists)
    requires (forall u :: u in db.items ==> u in order) && (r.Rename? ==> r.tag != r.newTag)
    requires LikeItems(items, RetagAll(db.items, l, r))
    ensures Alike(View(db.name, PublishLists(db.lists)[l := row], items),
      ViewOf(Retag(PutList(db, l, row), order, l, r)))
  {
    var mid := PutList(db, l, row);
    PublishedAsStored(db.lists);
    PublishedAsStored(mid.lists);
    RetagKeepsLists(mid, order, l, r);
    RetagView(mid, order, l, r);
    RetagItems(mid, order, l, r);
    hide Retag, PublishItems, PublishLists, RetagAll, ListsOk;
    LikeTransitive(items, RetagAll(db.items, l, r), PublishItems(Retag(mid, order, l, r).items));
    OneListLike(db.lists, l, row, mid.lists[l]);
    hide LikeItems, LikeLists;
  }

  lemma SettingsApplied(db: Db, op: Op, env: Env)
    requires op.ListTagSettings? && SetTagSettings(db, op.list, op, env).answer.Applied?
    ensures op.list in db.lists
    ensures var row, b := db.lists[op.list], SetTagSettings(db, op.list, op, env).db;
      var mid := PutList(db, op.list, row.(settings := WantedSettings(row.settings, op)));
      if WantedSettings(row.settings, op) == row.settings then b == db
      else if WantedSettings(row.settings, op).mode == Single && row.settings.mode != Single
      then b == Retag(mid, env.order, op.list, KeepFirst(row.tags)) else b == mid
  {
  }

  lemma ProjectedSettings(db: Db, op: Op)
    requires op.ListTagSettings? && ListsOk(db.lists) && op.list in db.lists
    ensures var l, row := op.list, db.lists[op.list];
      var next := row.(settings := WantedSettings(row.settings, op));
      P.ProjectTagSettings(ViewOf(db), l, op)
        == View(db.name, PublishLists(db.lists)[l := next],
                if next.settings.mode == Single && row.settings.mode != Single
                then P.KeepFirstItemTag(PublishItems(db.items), l, row.tags) else PublishItems(db.items))
  {
    PublishedAsStored(db.lists);
    hide PublishLists, PublishItems, P.KeepFirstItemTag, ListsOk;
  }

  lemma SettingsSimulates(db: Db, op: Op, env: Env)
    requires op.ListTagSettings? && ListsOk(db.lists) && ListsOk(SetTagSettings(db, op.list, op, env).db.lists)
      && EnvOk(db, env)
    requires SetTagSettings(db, op.list, op, env).answer.Applied?
    ensures Alike(P.ProjectTagSettings(ViewOf(db), op.list, op), ViewOf(SetTagSettings(db, op.list, op, env).db))
  {
    hide LikeItems, LikeLists, PublishItems, PublishLists, SetTagSettings, Retag, RetagAll, P.KeepFirstItemTag,
      P.ProjectTagSettings, InUse;
    SettingsApplied(db, op, env);
    ProjectedSettings(db, op);
    var l, row := op.list, db.lists[op.list];
    assert ListOk(row);
    hide ListsOk;
    var next := row.(settings := WantedSettings(row.settings, op));
    hide WantedSettings;
    KeepFirstSweepAgrees(db.items, l, row.tags);
    RetagKeepsLists(PutList(db, l, next), env.order, l, KeepFirst(row.tags));
    if next.settings.mode == Single && row.settings.mode != Single {
      SweepView(db, l, next, env.order, KeepFirst(row.tags), P.KeepFirstItemTag(PublishItems(db.items), l, row.tags));
    } else {
      OneList(db, SetTagSettings(db, l, op, env).db, l, next);
      hide Alike;
    }
  }

  lemma RenamedRowAgrees(row: List, tag: string, raw: string)
    requires tag in row.tags && JsTrim(raw) != tag && JsTrim(raw) !in row.tags && JsTrim(raw) != []
      && JsLength(JsTrim(raw)) <= MAX_TAG_LENGTH
    ensures P.RenamedList(row, tag, raw) == Some(RenamedRow(row, tag, JsTrim(raw)))
  {
    var colors, name := row.settings.colors, JsTrim(raw);
    if tag in colors { assert colors[name := colors[tag]] - {tag} == (colors - {tag})[name := colors[tag]]; }
  }

  /** A rename the server makes to another name than the page's is seen in the list's own tags. */
  lemma OtherNameDiffers(row: List, tag: string, raw: string, newTag: string)
    requires Distinct(row.tags) && tag in row.tags && newTag !in row.tags && newTag != JsTrim(raw)
    ensures EraseList(Keep(P.RenamedList(row, tag, raw), row)) != EraseList(RenamedRow(row, tag, newTag))
  {
    var name := JsTrim(raw);
    ReplacedTags(row.tags, tag, newTag);
    SortShape(Replaced(row.tags, tag, newTag));
    assert newTag in RenamedRow(row, tag, newTag).tags;
    if name !in row.tags {
      ReplacedTags(row.tags, tag, name);
      SortShape(Replaced(row.tags, tag, name));
      assert newTag !in SortTags(Replaced(row.tags, tag, name));
    }
    hide SortTags, Replaced, JsTrim;
  }

  lemma RenameApplied(db: Db, l: Uid, tag: string, raw: string, env: Env)
    requires RenameTag(db, l, tag, raw, env).answer.Applied?
    ensures l in db.lists && tag in db.lists[l].tags && Strip(raw) != [] && |Strip(raw)| <= MAX_TAG_LENGTH
    ensures var row, b := db.lists[l], RenameTag(db, l, tag, raw, env).db;
      if Strip(raw) == tag then b == db
      else
        && Strip(raw) !in row.tags
        && b == Retag(PutList(db, l, RenamedRow(row, tag, Strip(raw))), env.order, l, Rename(tag, Strip(raw)))
  {
  }

  lemma RenameTagSeen(db: Db, l: Uid, tag: string, raw: string, env: Env)
    requires ListsOk(db.lists) && ListsOk(RenameTag(db, l, tag, raw, env).db.lists) && EnvOk(db, env)
    requires RenameTag(db, l, tag, raw, env).answer.Applied? && Strip(raw) != tag
    requires JsTrim(raw) == Strip(raw) && JsLength(Strip(raw)) <= MAX_TAG_LENGTH
    ensures Alike(P.ProjectTagRename(ViewOf(db), l, tag, raw), ViewOf(RenameTag(db, l, tag, raw, env).db))
  {
    RenameApplied(db, l, tag, raw, env);
    var row, newTag := db.lists[l], Strip(raw);
    PublishedAsStored(db.lists);
    RetagKeepsLists(PutList(db, l, RenamedRow(row, tag, newTag)), env.order, l, Rename(tag, newTag));
    assert forall u :: u in db.items ==> u in env.order;
    RenamedRowAgrees(row, tag, raw);
    RenameSweepAgrees(db.items, l, tag, newTag);
    hide ListsOk, EnvOk, Strip, JsTrim, JsLength, RenameTag, Retag, PublishItems, LikeItems, PublishLists, Alike,
      P.RenamedList, RenamedRow, P.RenameItemTags, RetagAll;
    SweepView(db, l, RenamedRow(row, tag, newTag), env.order, Rename(tag, newTag),
      P.RenameItemTags(PublishItems(db.items), l, tag, newTag));
  }

  lemma RenameTagMissed(db: Db, l: Uid, tag: string, raw: string, env: Env)
    requires ListsOk(db.lists) && ListsOk(RenameTag(db, l, tag, raw, env).db.lists)
    requires RenameTag(db, l, tag, raw, env).answer.Applied? && Strip(raw) != tag
    requires JsTrim(raw) != Strip(raw) || JsLength(Strip(raw)) > MAX_TAG_LENGTH
    ensures !Alike(P.ProjectTagRename(ViewOf(db), l, tag, raw), ViewOf(RenameTag(db, l, tag, raw, env).db))
  {
    RenameApplied(db, l, tag, raw, env);
    var row, b, newTag := db.lists[l], RenameTag(db, l, tag, raw, env).db, Strip(raw);
    assert ListOk(row);
    PublishedAsStored(db.lists);
    PublishedAsStored(b.lists);
    RetagKeepsLists(PutList(db, l, RenamedRow(row, tag, newTag)), env.order, l, Rename(tag, newTag));
    NotThatName(row, tag, raw, newTag);
    hide ListsOk, ListOk, Strip, JsTrim, JsLength, RenameTag, Retag, PublishItems, PublishLists, LikeItems,
      P.RenamedList, RenamedRow, P.RenameItemTags;
    var v := P.ProjectTagRename(ViewOf(db), l, tag, raw);
    assert v.lists[l] == Keep(P.RenamedList(row, tag, raw), row) && ViewOf(b).lists[l] == b.lists[l];
  }

  /** A rename the server makes and the page does not, or to another name, is seen in the list's own tags. */
  lemma NotThatName(row: List, tag: string, raw: string, newTag: string)
    requires Distinct(row.tags) && tag in row.tags && newTag !in row.tags
    requires JsTrim(raw) != newTag || JsLength(newTag) > MAX_TAG_LENGTH
    ensures EraseList(Keep(P.RenamedList(row, tag, raw), row)) != EraseList(RenamedRow(row, tag, newTag))
  {
    if JsTrim(raw) != newTag {
      OtherNameDiffers(row, tag, raw, newTag);
    } else {
      ReplacedTags(row.tags, tag, newTag);
      SortShape(Replaced(row.tags, tag, newTag));
      hide SortTags, Replaced, JsTrim, JsLength;
      assert newTag in RenamedRow(row, tag, newTag).tags;
    }
  }

  lemma SameNameSweep(items: map<Uid, Item>, l: Uid, tag: string)
    ensures LikeItems(P.RenameItemTags(PublishItems(items), l, tag, tag), PublishItems(items))
      <==> forall u :: u in items && items[u].list == l && tag in items[u].tags ==> Distinct(items[u].tags)
  {
    var v := PublishItems(items);
    var w := P.RenameItemTags(v, l, tag, tag);
    forall u | u in items && items[u].list == l && tag in items[u].tags
      ensures EraseItem(w[u]) == EraseItem(v[u]) <==> Distinct(items[u].tags)
    {
      RenamedToItself(items[u].tags, tag);
    }
  }

  /** A rename to the tag's own name changes nothing on the server. On the page: */
  lemma SameNameOnPage(v: View, items: map<Uid, Item>, l: Uid, tag: string, raw: string)
    requires l in v.lists && tag in v.lists[l].tags && Distinct(v.lists[l].tags) && v.items == PublishItems(items)
    ensures Alike(P.ProjectTagRename(v, l, tag, raw), v)
      <==> SameNameHarmless(v.lists[l].tags, items, l, tag, JsTrim(raw))
  {
    var row, name, w := v.lists[l], JsTrim(raw), P.ProjectTagRename(v, l, tag, raw);
    LikeItself(v.lists, v.items);
    hide JsTrim, JsLength, PublishItems, P.RenameItemTags, LikeItems, SortTags, Replaced;
    if name == [] || JsLength(name) > MAX_TAG_LENGTH || (name != tag && name in row.tags) {
      assert w == v;
    } else if name == tag {
      SameNameSweep(items, l, tag);
      assert w == v.(items := P.RenameItemTags(PublishItems(items), l, tag, tag));
    } else {
      NewNameShows(row, tag, name);
      assert w.lists[l].tags == SortTags(Replaced(row.tags, tag, name));
    }
  }

  lemma NewNameShows(row: List, tag: string, name: string)
    requires Distinct(row.tags) && tag in row.tags && name !in row.tags
    ensures SortTags(Replaced(row.tags, tag, name)) != row.tags
  {
    ReplacedTags(row.tags, tag, name);
    SortShape(Replaced(row.tags, tag, name));
    hide SortTags, Replaced;
    assert name in SortTags(Replaced(row.tags, tag, name));
  }

  // All op types together

  lemma ListPartSimulates(db: Db, op: Op, env: Env, at: Time)
    requires Tracked(db) && Ruled(db) && Ruled(Handle(db, op, env).db) && EnvOk(db, env)
      && Handle(db, op, env).answer.Applied?
    requires op.ListRename? || op.ListDelete? || op.ListTagAdd? || op.ListTagRemove? || op.ListTagSettings?
      || op.ListTagColor? || op.ListVisibility?
    ensures Alike(P.Project(ViewOf(db), op, at), ViewOf(Handle(db, op, env).db)) <==> Faithful(db, op)
  {
    hide Alike, ListsOk, ItemsOk, UniqueListNames, UniqueNames, CountsOk, Tracked, EnvOk, RenameList, DeleteList,
      AddTag, RemoveTag, SetTagSettings, ColorTag, SetVisibility, P.ProjectOnList, P.ProjectTagSettings, ViewOf;
    match op {
      case ListRename(l, name, base) => ListRenameSimulates(db, l, name, base);
      case ListDelete(l) => ListDeleteSimulates(db, l, env, at);
      case ListTagAdd(l, tag) => TagAddSimulates(db, l, tag);
      case ListTagRemove(l, tag) => TagRemoveSimulates(db, l, tag);
      case ListTagSettings(_, _, _, _) => SettingsSimulates(db, op, env);
      case ListTagColor(l, tag, color) => TagColorSimulates(db, l, tag, color);
      case ListVisibility(l, _, _, _) => VisibilitySimulates(db, l, op);
    }
  }

  lemma RenameTagSame(db: Db, l: Uid, tag: string, raw: string)
    requires ListsOk(db.lists) && l in db.lists && tag in db.lists[l].tags
    ensures Alike(P.ProjectTagRename(ViewOf(db), l, tag, raw), ViewOf(db)) <==>
      SameNameHarmless(db.lists[l].tags, db.items, l, tag, JsTrim(raw))
  {
    PublishedAsStored(db.lists);
    assert ListOk(db.lists[l]);
    hide SameNameHarmless, Alike, ListsOk, PublishItems, PublishLists, P.ProjectTagRename, JsTrim;
    SameNameOnPage(ViewOf(db), db.items, l, tag, raw);
  }

  lemma RenamePartSimulates(db: Db, l: Uid, tag: string, raw: string, env: Env)
    requires Ruled(db) && Ruled(RenameTag(db, l, tag, raw, env).db) && EnvOk(db, env)
      && RenameTag(db, l, tag, raw, env).answer.Applied?
    ensures Alike(P.ProjectTagRename(ViewOf(db), l, tag, raw), ViewOf(RenameTag(db, l, tag, raw, env).db))
      <==> Faithful(db, ListTagRename(l, tag, raw))
  {
    hide Alike, ListsOk, ItemsOk, UniqueListNames, UniqueNames, CountsOk, EnvOk, RenameTag, PublishItems,
      PublishLists, P.ProjectTagRename, JsTrim, JsLength, Strip, SameNameHarmless, Retag, RenamedRow, ViewOf;
    RenameApplied(db, l, tag, raw, env);
    if Strip(raw) == tag {
      RenameTagSame(db, l, tag, raw);
    } else if JsTrim(raw) == Strip(raw) && JsLength(Strip(raw)) <= MAX_TAG_LENGTH {
      RenameTagSeen(db, l, tag, raw, env);
    } else {
      RenameTagMissed(db, l, tag, raw, env);
    }
  }

  lemma ItemPartSimulates(db: Db, op: Op, env: Env, at: Time)
    requires Tracked(db) && Ruled(db) && EnvOk(db, env) && Handle(db, op, env).answer.Applied?
    requires op.ItemAdd? || op.ItemSetDone? || op.ItemQuantityDelta? || op.ItemEdit? || op.ItemToggleTag?
      || op.ItemDelete? || op.ItemRestore?
    ensures Alike(P.Project(ViewOf(db), op, at), ViewOf(Handle(db, op, env).db)) <==> Faithful(db, op)
  {
    hide Alike, ListsOk, ItemsOk, UniqueListNames, UniqueNames, CountsOk, Tracked, EnvOk, AddItem, SetDone,
      AdjustQuantity, EditItem, ToggleTag, DeleteItem, RestoreItem, P.ProjectOnItem, P.ProjectAdd, P.ProjectRestore,
      ViewOf, NameTaken;
    match op {
      case ItemAdd(l, name, uid) => AddSimulates(db, l, name, uid, env, at);
      case ItemSetDone(l, u, done, base) => SetDoneSimulates(db, l, u, done, base, env, at);
      case ItemQuantityDelta(l, u, delta) => QuantitySimulates(db, l, u, delta, at);
      case ItemEdit(_, _, _, _, _, _, _, _, _) => EditSimulates(db, op, env, at);
      case ItemToggleTag(l, u, tag, active) => ToggleSimulates(db, l, u, tag, active, at);
      case ItemDelete(l, u) => ItemDeleteSimulates(db, l, u, env, at);
      case ItemRestore(_, _, _, _, _, _, _, _, _, _, _) => RestoreSimulates(db, op, env);
    }
  }

  /**
    The overlay simulates the server: for every op type the page projects and every room, an op
    the server applies is projected exactly when the op is `Faithful`.
   */
  lemma OverlaySimulates(db: Db, op: Op, env: Env, at: Time)
    requires Tracked(db) && Ruled(db) && EnvOk(db, env) && WellFormed(op) && P.IsProjected(op)
      && Handle(db, op, env).answer.Applied?
    ensures Alike(P.Project(ViewOf(db), op, at), ViewOf(Handle(db, op, env).db)) <==> Faithful(db, op)
  {
    hide Alike, Ruled, Tracked, EnvOk, ViewOf, P.Project, Faithful, Handle;
    HandleKeepsRules(db, op, env);
    if op.RoomRename? {
      RoomPartSimulates(db, op, env, at);
    } else if op.ListTagRename? {
      TagRenamePartSimulates(db, op, env, at);
    } else if op.ItemAdd? || op.ItemSetDone? || op.ItemQuantityDelta? || op.ItemEdit? || op.ItemToggleTag?
      || op.ItemDelete? || op.ItemRestore? {
      ItemPartSimulates(db, op, env, at);
    } else {
      ListPartSimulates(db, op, env, at);
    }
  }

  lemma RoomPartSimulates(db: Db, op: Op, env: Env, at: Time)
    requires op.RoomRename? && Handle(db, op, env).answer.Applied?
    ensures Alike(P.Project(ViewOf(db), op, at), ViewOf(Handle(db, op, env).db)) <==> Faithful(db, op)
  {
    hide Alike, RenameRoom;
    RoomRenameSimulates(db, op.name);
  }

  lemma TagRenamePartSimulates(db: Db, op: Op, env: Env, at: Time)
    requires op.ListTagRename? && Ruled(db) && Ruled(Handle(db, op, env).db) && EnvOk(db, env)
      && Handle(db, op, env).answer.Applied?
    ensures Alike(P.Project(ViewOf(db), op, at), ViewOf(Handle(db, op, env).db)) <==> Faithful(db, op)
  {
    hide Alike, Ruled, EnvOk, RenameTag, P.ProjectTagRename, ViewOf;
    RenamePartSimulates(db, op.list, op.tag, op.newTag, env);
  }
}

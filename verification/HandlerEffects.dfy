/**
  What an applied op leaves in the tables, said of the tables and the op alone: what it wants is
  there, which version and item the answer names, which rows it touches, and which times it sets.
 */
module HandlerEffects {
  import opened RoomModel
  import opened Texts
  import opened TagRules
  import opened Tracking
  import opened Operations
  import opened HandlerLaws
  import RoomRules

  // What the op wants is there

  lemma TagAddSays(db: Db, op: Op, env: Env)
    requires op.ListTagAdd? && Handle(db, op, env).answer.Applied?
    ensures Says(Handle(db, op, env).db, op)
  {
    var tags := db.lists[op.list].tags;
    SortShape(tags + [Strip(op.tag)]);
    assert Strip(op.tag) in tags + [Strip(op.tag)];
    hide Strip, SortTags;
  }

  lemma TagRemoveSays(db: Db, op: Op, env: Env)
    requires op.ListTagRemove? && Handle(db, op, env).answer.Applied?
    ensures Says(Handle(db, op, env).db, op)
  {
    WithoutMembers(db.lists[op.list].tags, op.tag);
    hide Without;
  }

  /** The list's own tags after a rename have the new name and not the old. */
  lemma RenamedTags(row: List, tag: string, name: string)
    requires tag in row.tags && tag != name
    ensures name in RenamedRow(row, tag, name).tags && tag !in RenamedRow(row, tag, name).tags
  {
    ReplacedShape(row.tags, tag, name);
    SortShape(Replaced(row.tags, tag, name));
    hide SortTags;
    var k :| 0 <= k < |row.tags| && row.tags[k] == tag;
    assert Replaced(row.tags, tag, name)[k] == name;
    forall t | t in Replaced(row.tags, tag, name) ensures t != tag {}
  }

  lemma RenameSays(db: Db, op: Op, env: Env)
    requires op.ListTagRename? && Handle(db, op, env).answer.Applied?
    ensures Says(Handle(db, op, env).db, op)
  {
    var row, tag, name := db.lists[op.list], op.tag, Strip(op.newTag);
    if tag != name {
      RenamedTags(row, tag, name);
      RetagKeepsLists(PutList(db, op.list, RenamedRow(row, tag, name)), env.order, op.list, Rename(tag, name));
    }
    hide Strip, RenamedRow, Retag;
  }

  lemma SettingsSay(db: Db, op: Op, env: Env)
    requires op.ListTagSettings? && Handle(db, op, env).answer.Applied?
    ensures Says(Handle(db, op, env).db, op)
  {
    var row := db.lists[op.list];
    RetagKeepsLists(PutList(db, op.list, row.(settings := WantedSettings(row.settings, op))), env.order, op.list,
      KeepFirst(row.tags));
    hide Retag;
  }

  lemma {:induction false} DropItemsGone(db: Db, order: seq<Uid>, l: Uid, now: Time)
    ensures DropItems(db, order, l, now).lists == db.lists && DropItems(db, order, l, now).items.Keys <= db.items.Keys
    ensures forall u :: u in DropItems(db, order, l, now).items ==>
      DropItems(db, order, l, now).items[u] == db.items[u] && (u in order ==> db.items[u].list != l)
    decreases |order|
  {
    if order != [] {
      DropItemsGone(if HasItem(db, l, order[0]) then DropItem(db, order[0], now) else db, order[1..], l, now);
    }
  }

  lemma DeleteSays(db: Db, op: Op, env: Env)
    requires op.ListDelete? && EnvOk(db, env) && Handle(db, op, env).answer.Applied?
    ensures Says(Handle(db, op, env).db, op)
  {
    DropItemsGone(db, env.order, op.list, env.now);
    hide DropItems;
  }

  lemma AddSays(db: Db, op: Op, env: Env)
    requires op.ItemAdd? && Handle(db, op, env).answer.Applied?
    ensures Says(Handle(db, op, env).db, op)
  {
    StripTwice(op.name);
    hide Strip, NewUidTaken, Lower;
    var out := Handle(db, op, env);
    assert NamedSo(out.db, op.list, out.answer.item.value, Strip(op.name));
  }

  lemma StripTwice(raw: string)
    ensures Strip(Strip(raw)) == Strip(raw)
  {
    TrimIdempotent(raw, PySpace);
  }

  lemma ListSays(db: Db, op: Op, env: Env)
    requires op.ListCreate? && Handle(db, op, env).answer.Applied?
    ensures Says(Handle(db, op, env).db, op)
  {
    hide Strip, NewUidTaken, ListKey;
    OtherListIs(db, None, Strip(op.name));
    var out := Handle(db, op, env);
    if out.db != db {
      var l := NewUid(op.uid, env);
      assert l in out.db.lists && ListKey(out.db.lists[l].name) == ListKey(Strip(op.name));
    }
  }

  lemma ToggleSays(db: Db, op: Op, env: Env)
    requires op.ItemToggleTag? && Handle(db, op, env).answer.Applied?
    ensures Says(Handle(db, op, env).db, op)
  {
    WithoutMembers(db.items[op.item].tags, op.tag);
    hide Without;
  }

  lemma EditRow(db: Db, op: Op, env: Env)
    requires op.ItemEdit? && Handle(db, op, env).answer.Applied?
    ensures var out := Handle(db, op, env);
      Has(db, op.list, op.item) && Has(out.db, op.list, op.item)
        && EditStored(out.db.items[op.item], op, WantedDue(db.items[op.item], op))
  {
    MergeIs(db.items[op.item].due, op.date, op.time, op.zone);
    hide Strip, NameTaken, Misfit, MergeDue, Wanted, Unresolved, StoredDueAt, NewCycle;
  }

  lemma EditSays(db: Db, op: Op, env: Env)
    requires op.ItemEdit? && Handle(db, op, env).answer.Applied?
    ensures Says(Handle(db, op, env).db, op)
  {
    EditRow(db, op, env);
    var row := db.items[op.item];
    assert !Misfit(row.due, op.date, op.time, op.zone) by { MergeIs(row.due, op.date, op.time, op.zone); }
    WantedAgain(row.due, op.date, op.time, op.zone);
    hide Strip, Misfit, Wanted, Handle;
  }

  lemma RestoreSays(db: Db, op: Op, env: Env)
    requires op.ItemRestore? && Handle(db, op, env).answer.Applied?
    ensures Says(Handle(db, op, env).db, op)
  {
    MergeIs(NO_DUE, Sent(op.due.date), Sent(op.due.time), Sent(op.due.zone));
    hide Strip, NameTaken, Misfit, MergeDue, Unresolved, StoredDueAt, NewCycle, NewUidTaken;
    var out := Handle(db, op, env);
    assert Has(out.db, op.list, out.answer.item.value);
  }

  lemma PlainSays(db: Db, op: Op, env: Env)
    requires op.RoomRename? || op.ListRename? || op.ListTagColor? || op.ListVisibility? || op.ItemSetDone?
      || op.ItemQuantityDelta? || op.ItemDelete?
    requires Handle(db, op, env).answer.Applied?
    ensures Says(Handle(db, op, env).db, op)
  {
    hide Strip, ListNameTaken;
  }

  /** After an applied op the tables say what it wants. */
  lemma AppliedSays(db: Db, op: Op, env: Env)
    requires EnvOk(db, env) && Handle(db, op, env).answer.Applied?
    ensures Says(Handle(db, op, env).db, op)
  {
    if op.RoomRename? || op.ListRename? || op.ListTagColor? || op.ListVisibility? || op.ItemSetDone?
        || op.ItemQuantityDelta? || op.ItemDelete? {
      PlainSays(db, op, env);
      return;
    }
    hide Handle, Says, EnvOk;
    match op {
      case ListTagAdd(_, _) => TagAddSays(db, op, env);
      case ListTagRemove(_, _) => TagRemoveSays(db, op, env);
      case ListTagRename(_, _, _) => RenameSays(db, op, env);
      case ListTagSettings(_, _, _, _) => SettingsSay(db, op, env);
      case ListDelete(_) => DeleteSays(db, op, env);
      case ListCreate(_, _) => ListSays(db, op, env);
      case ItemAdd(_, _, _) => AddSays(db, op, env);
      case ItemToggleTag(_, _, _, _) => ToggleSays(db, op, env);
      case ItemEdit(_, _, _, _, _, _, _, _, _) => EditSays(db, op, env);
      case ItemRestore(_, _, _, _, _, _, _, _, _, _, _) => RestoreSays(db, op, env);
    }
  }

  predicate OnItem(op: Op) {
    op.ItemAdd? || op.ItemRestore? || op.ItemSetDone? || op.ItemQuantityDelta? || op.ItemEdit? || op.ItemToggleTag?
      || op.ItemDelete?
  }

  // What the answer names, and which rows the op touches

  /** The version of the op's row in the tables, and for an add or a restore the item the op is about now. */
  ghost predicate NamesRow(db: Db, op: Op, answer: Answer) {
    match op
    case RoomRename(_) => answer == Applied(None, None)
    case ListCreate(_, _) => answer == Applied(None, None)
    case ListDelete(_) => answer == Applied(None, None)
    case ItemDelete(_, _) => answer == Applied(None, None)
    case ItemAdd(l, name, _) =>
      && answer.Applied? && answer.item.Some? && NamedSo(db, l, answer.item.value, Strip(name))
      && !db.items[answer.item.value].done && answer.changedSeq == Some(db.items[answer.item.value].changedSeq)
    case ItemRestore(l, uid, _, _, _, _, _, _, _, _, _) =>
      && answer.Applied? && answer.item.Some? && Has(db, l, answer.item.value)
      && (uid.Some? ==> answer.item == uid) && answer.changedSeq == Some(db.items[answer.item.value].changedSeq)
    case ItemSetDone(l, u, _, _) => Has(db, l, u) && answer == Applied(Some(db.items[u].changedSeq), None)
    case ItemQuantityDelta(l, u, _) => Has(db, l, u) && answer == Applied(Some(db.items[u].changedSeq), None)
    case ItemEdit(l, u, _, _, _, _, _, _, _) => Has(db, l, u) && answer == Applied(Some(db.items[u].changedSeq), None)
    case ItemToggleTag(l, u, _, _) => Has(db, l, u) && answer == Applied(Some(db.items[u].changedSeq), None)
    case _ => op.list in db.lists && answer == Applied(Some(db.lists[op.list].changedSeq), None)
  }

  lemma AddNames(db: Db, op: Op, env: Env)
    requires op.ItemAdd? && Handle(db, op, env).answer.Applied?
    ensures NamesRow(Handle(db, op, env).db, op, Handle(db, op, env).answer)
  {
    StripTwice(op.name);
    hide Strip, Lower, NewUidTaken;
  }

  /** Rows of other lists and other rows of the list stay; of the op's own list only tags may be swept. */
  ghost predicate TouchesOnly(a: Db, b: Db, op: Op, answer: Answer) {
    match op
    case RoomRename(_) => b.lists == a.lists && b.items == a.items
    case ListCreate(_, _) =>
      && b.name == a.name && b.items == a.items && a.lists.Keys <= b.lists.Keys
      && (forall l :: l in a.lists ==> b.lists[l] == a.lists[l])
      && (forall l :: l in b.lists && l !in a.lists ==> EmptyList(b.lists[l]))
    case ItemAdd(l, _, _) => b.name == a.name && b.lists == a.lists && answer.Applied?
        && OneItem(a.items, b.items, answer.item)
    case ItemRestore(l, _, _, _, _, _, _, _, _, _, _) =>
      b.name == a.name && b.lists == a.lists && answer.Applied? && OneItem(a.items, b.items, answer.item)
    case ItemSetDone(_, u, _, _) => b.name == a.name && b.lists == a.lists && OneItem(a.items, b.items, Some(u))
    case ItemQuantityDelta(_, u, _) => b.name == a.name && b.lists == a.lists && OneItem(a.items, b.items, Some(u))
    case ItemEdit(_, u, _, _, _, _, _, _, _) =>
      b.name == a.name && b.lists == a.lists && OneItem(a.items, b.items, Some(u))
    case ItemToggleTag(_, u, _, _) => b.name == a.name && b.lists == a.lists && OneItem(a.items, b.items, Some(u))
    case ItemDelete(_, u) => b.name == a.name && b.lists == a.lists && OneItem(a.items, b.items, Some(u))
    case ListDelete(l) =>
      && b.name == a.name && b.lists == a.lists - {l}
      && b.items == map u | u in a.items && a.items[u].list != l :: a.items[u]
    case _ => b.name == a.name && OneList(a.lists, b.lists, op.list) && Swept(a.items, b.items, op)
  }

  predicate EmptyList(row: List) {
    row.tags == [] && row.hide == Hide(Off, 7, 10) && row.settings == TagSettings(Multi, true, false, map[])
  }

  ghost predicate OneItem(a: map<Uid, Item>, b: map<Uid, Item>, u: Option<Uid>) {
    forall x: Uid :: Some(x) != u ==> (x in a <==> x in b) && (x in a ==> b[x] == a[x])
  }

  ghost predicate OneList(a: map<Uid, List>, b: map<Uid, List>, l: Uid) {
    a.Keys == b.Keys && forall x :: x in a && x != l ==> b[x] == a[x]
  }

  /** Only a tag rename or a switch to single changes items: the tags of items of the list. */
  ghost predicate Swept(a: map<Uid, Item>, b: map<Uid, Item>, op: Op)
    requires !op.RoomRename? && !op.ListCreate?
  {
    && a.Keys == b.Keys
    && (!op.ListTagRename? && !op.ListTagSettings? ==> a == b)
    && forall u :: u in a ==>
      && (a[u].list != op.list ==> b[u] == a[u])
      && b[u].(tags := a[u].tags, changedSeq := a[u].changedSeq) == a[u]
  }

  lemma {:induction false} RetagSwept(db: Db, order: seq<Uid>, l: Uid, r: Retagging)
    ensures var b := Retag(db, order, l, r);
      && b.items.Keys == db.items.Keys && b.name == db.name
      && forall u :: u in db.items ==>
        && (db.items[u].list != l ==> b.items[u] == db.items[u])
        && b.items[u].(tags := db.items[u].tags, changedSeq := db.items[u].changedSeq) == db.items[u]
    decreases |order|
  {
    hide Retagged, Affects;
    if order != [] {
      var u := order[0];
      var next := if HasItem(db, l, u) && Affects(r, db.items[u].tags)
          then PutItem(db, u, RetagRow(db.items[u], l, r)) else db;
      RetagSwept(next, order[1..], l, r);
      forall x | x in db.items
        ensures next.items[x].(tags := db.items[x].tags, changedSeq := db.items[x].changedSeq) == db.items[x] {}
    }
  }

  lemma SettingsTouch(db: Db, op: Op, env: Env)
    requires op.ListTagSettings? && Handle(db, op, env).answer.Applied?
    ensures var out := Handle(db, op, env); TouchesOnly(db, out.db, op, out.answer)
  {
    var row := db.lists[op.list];
    var mid := PutList(db, op.list, row.(settings := WantedSettings(row.settings, op)));
    RetagKeepsLists(mid, env.order, op.list, KeepFirst(row.tags));
    RetagSwept(mid, env.order, op.list, KeepFirst(row.tags));
    hide Retag, WantedSettings;
  }

  lemma RenameTouches(db: Db, op: Op, env: Env)
    requires op.ListTagRename? && Handle(db, op, env).answer.Applied?
    ensures var out := Handle(db, op, env); TouchesOnly(db, out.db, op, out.answer)
  {
    var r := Rename(op.tag, Strip(op.newTag));
    var mid := PutList(db, op.list, RenamedRow(db.lists[op.list], op.tag, Strip(op.newTag)));
    RetagKeepsLists(mid, env.order, op.list, r);
    RetagSwept(mid, env.order, op.list, r);
    hide Retag, Strip, RenamedRow;
  }

  lemma SweepTouches(db: Db, op: Op, env: Env)
    requires (op.ListTagRename? || op.ListTagSettings?) && Handle(db, op, env).answer.Applied?
    ensures var out := Handle(db, op, env); TouchesOnly(db, out.db, op, out.answer)
  {
    hide Handle, TouchesOnly;
    if op.ListTagSettings? { SettingsTouch(db, op, env); } else { RenameTouches(db, op, env); }
  }

  lemma SweepNames(db: Db, op: Op, env: Env)
    requires (op.ListTagRename? || op.ListTagSettings?) && Handle(db, op, env).answer.Applied?
    ensures NamesRow(Handle(db, op, env).db, op, Handle(db, op, env).answer)
  {
    SweepTouches(db, op, env);
    hide Strip, CheckedName, Retag, SortTags, Replaced, Swept;
  }

  lemma ItemNames(db: Db, op: Op, env: Env)
    requires OnItem(op) && !op.ItemAdd? && Handle(db, op, env).answer.Applied?
    ensures NamesRow(Handle(db, op, env).db, op, Handle(db, op, env).answer)
  {
    hide Strip, NewUidTaken, CheckedName, MergeDue, Unresolved, NameTaken, NameKey, NewCycle, ToggledTags, AddItem,
      BaseOk;
  }

  lemma ListNames(db: Db, op: Op, env: Env)
    requires !OnItem(op) && !op.ListTagRename? && !op.ListTagSettings? && Handle(db, op, env).answer.Applied?
    ensures NamesRow(Handle(db, op, env).db, op, Handle(db, op, env).answer)
  {
    hide Strip, CheckedName, Retag, ListNameTaken, SortTags, Without, Replaced, BaseOk, DropItems;
  }

  /** Every applied answer names the version that the op's row has now. */
  lemma AnswerNamesRow(db: Db, op: Op, env: Env)
    requires Handle(db, op, env).answer.Applied?
    ensures NamesRow(Handle(db, op, env).db, op, Handle(db, op, env).answer)
  {
    hide Handle, NamesRow;
    if op.ItemAdd? {
      AddNames(db, op, env);
    } else if OnItem(op) {
      ItemNames(db, op, env);
    } else if op.ListTagRename? || op.ListTagSettings? {
      SweepNames(db, op, env);
    } else {
      ListNames(db, op, env);
    }
  }

  lemma DeleteTouches(db: Db, op: Op, env: Env)
    requires op.ListDelete? && EnvOk(db, env) && Handle(db, op, env).answer.Applied?
    ensures var out := Handle(db, op, env); TouchesOnly(db, out.db, op, out.answer)
  {
    RoomRules.DropItemsLeft(db, env.order, op.list, env.now);
    hide DropItems;
  }

  lemma ItemTouches(db: Db, op: Op, env: Env)
    requires op.ItemSetDone? || op.ItemQuantityDelta? || op.ItemEdit? || op.ItemToggleTag? || op.ItemDelete?
    requires Handle(db, op, env).answer.Applied?
    ensures var out := Handle(db, op, env); TouchesOnly(db, out.db, op, out.answer)
  {
    hide Strip, CheckedName, MergeDue, Unresolved, NameTaken, Edited, ToggledTags, Unchecked;
  }

  lemma NewItemTouches(db: Db, op: Op, env: Env)
    requires (op.ItemAdd? || op.ItemRestore?) && Handle(db, op, env).answer.Applied?
    ensures var out := Handle(db, op, env); TouchesOnly(db, out.db, op, out.answer)
  {
    hide Strip, CheckedName, MergeDue, Unresolved, NameTaken, RestoredItem, Unchecked, NameKey;
  }

  lemma RoomTouches(db: Db, op: Op, env: Env)
    requires (op.RoomRename? || op.ListCreate?) && EnvOk(db, env) && Handle(db, op, env).answer.Applied?
    ensures var out := Handle(db, op, env); TouchesOnly(db, out.db, op, out.answer)
  {
    hide Strip, CheckedName, ListNameTaken;
  }

  lemma ListWrites(db: Db, op: Op, env: Env)
    requires op.ListRename? || op.ListTagAdd? || op.ListTagRemove? || op.ListTagColor? || op.ListVisibility?
    requires Handle(db, op, env).answer.Applied?
    ensures var b := Handle(db, op, env).db;
      && op.list in db.lists && op.list in b.lists && b.name == db.name && b.items == db.items
      && b.lists == db.lists[op.list := b.lists[op.list]]
  {
    hide Strip, CheckedName, ListNameTaken, SortTags, Without;
    assert op.list in db.lists;
    assert db.lists[op.list := db.lists[op.list]] == db.lists;
  }

  lemma ListTouches(db: Db, op: Op, env: Env)
    requires op.ListRename? || op.ListTagAdd? || op.ListTagRemove? || op.ListTagColor? || op.ListVisibility?
    requires Handle(db, op, env).answer.Applied?
    ensures var out := Handle(db, op, env); TouchesOnly(db, out.db, op, out.answer)
  {
    ListWrites(db, op, env);
    hide Handle;
  }

  /** An applied op touches its own row only, and of a deleted or swept list the items. */
  lemma AppliedTouches(db: Db, op: Op, env: Env)
    requires EnvOk(db, env) && Handle(db, op, env).answer.Applied?
    ensures var out := Handle(db, op, env); TouchesOnly(db, out.db, op, out.answer)
  {
    hide Handle, TouchesOnly, EnvOk;
    if op.ListTagRename? || op.ListTagSettings? {
      SweepTouches(db, op, env);
    } else if op.ListDelete? {
      DeleteTouches(db, op, env);
    } else if op.ItemAdd? || op.ItemRestore? {
      NewItemTouches(db, op, env);
    } else if op.ItemSetDone? || op.ItemQuantityDelta? || op.ItemEdit? || op.ItemToggleTag? || op.ItemDelete? {
      ItemTouches(db, op, env);
    } else if op.RoomRename? || op.ListCreate? {
      RoomTouches(db, op, env);
    } else {
      ListTouches(db, op, env);
    }
  }

  // An op that changes nothing writes nothing

  /** The same rows, but for their versions. */
  ghost predicate SameRows(a: Db, b: Db) {
    && b.name == a.name && b.lists.Keys == a.lists.Keys && b.items.Keys == a.items.Keys
    && (forall l :: l in a.lists ==> b.lists[l].(changedSeq := a.lists[l].changedSeq) == a.lists[l])
    && (forall u :: u in a.items ==> b.items[u].(changedSeq := a.items[u].changedSeq) == a.items[u])
  }

  predicate SameItem(a: Db, b: Db, u: Uid) {
    (u in a.items <==> u in b.items)
      && (u in a.items ==> b.items[u].(changedSeq := a.items[u].changedSeq) == a.items[u])
  }

  lemma EditIdle(db: Db, op: Op, env: Env)
    requires op.ItemEdit? && Handle(db, op, env).answer.Applied? && SameItem(db, Handle(db, op, env).db, op.item)
    ensures Handle(db, op, env).db == db
  {
    assert Handle(db, op, env) == EditItem(db, op.list, op.item, op, env);
    hide Handle, Strip, MergeDue, Unresolved, NameTaken, NameKey, StoredDueAt, NewCycle, BaseOk;
  }

  lemma ItemIdle(db: Db, op: Op, env: Env)
    requires op.ItemSetDone? || op.ItemQuantityDelta? || op.ItemToggleTag? || op.ItemDelete?
    requires Handle(db, op, env).answer.Applied? && SameItem(db, Handle(db, op, env).db, op.item)
    ensures Handle(db, op, env).db == db
  {
    hide ToggledTags, NewCycle, BaseOk;
  }

  /** An add or a restore that is applied puts an item where none was open, so a row changes. */
  lemma AddIdle(db: Db, op: Op, env: Env)
    requires op.ItemAdd? && EnvOk(db, env) && Handle(db, op, env).answer.Applied?
    ensures !SameItem(db, Handle(db, op, env).db, Handle(db, op, env).answer.item.value)
  {
    assert Handle(db, op, env) == AddItem(db, op.list, op.name, op.uid, env);
    hide Handle, Strip, NameKey, Named, ItemsOf, NewCycle;
  }

  lemma RestoreIdle(db: Db, op: Op, env: Env)
    requires op.ItemRestore? && EnvOk(db, env) && Handle(db, op, env).answer.Applied?
    ensures !SameItem(db, Handle(db, op, env).db, Handle(db, op, env).answer.item.value)
  {
    assert Handle(db, op, env) == RestoreItem(db, op, env);
    hide Handle, Strip, MergeDue, Unresolved, NameTaken, NameKey, ItemsOf, RestoredItem;
  }

  predicate SameList(a: Db, b: Db, l: Uid) {
    l in a.lists && l in b.lists && b.lists[l].(changedSeq := a.lists[l].changedSeq) == a.lists[l]
  }

  lemma AddTagIdle(db: Db, op: Op, env: Env)
    requires op.ListTagAdd? && Handle(db, op, env).answer.Applied? && SameList(db, Handle(db, op, env).db, op.list)
    ensures Handle(db, op, env).db == db
  {
    assert Handle(db, op, env) == AddTag(db, op.list, op.tag);
    SortShape(db.lists[op.list].tags + [Strip(op.tag)]);
    hide Handle, Strip, SortTags;
  }

  lemma ListIdle(db: Db, op: Op, env: Env)
    requires op.ListRename? || op.ListTagRemove? || op.ListTagColor? || op.ListVisibility?
    requires Handle(db, op, env).answer.Applied? && SameList(db, Handle(db, op, env).db, op.list)
    ensures Handle(db, op, env).db == db
  {
    hide Strip, ListNameTaken, SortTags, Without;
  }

  lemma SettingsIdle(db: Db, op: Op, env: Env)
    requires op.ListTagSettings?
    requires Handle(db, op, env).answer.Applied? && SameList(db, Handle(db, op, env).db, op.list)
    ensures Handle(db, op, env).db == db
  {
    var row := db.lists[op.list];
    RetagKeepsLists(PutList(db, op.list, row.(settings := WantedSettings(row.settings, op))), env.order, op.list,
      KeepFirst(row.tags));
    hide Retag, WantedSettings;
  }

  lemma RenameIdle(db: Db, op: Op, env: Env)
    requires op.ListTagRename?
    requires Handle(db, op, env).answer.Applied? && SameList(db, Handle(db, op, env).db, op.list)
    ensures Handle(db, op, env).db == db
  {
    var row, name := db.lists[op.list], Strip(op.newTag);
    if op.tag != name {
      RenamedTags(row, op.tag, name);
      RetagKeepsLists(PutList(db, op.list, RenamedRow(row, op.tag, name)), env.order, op.list, Rename(op.tag, name));
    }
    hide Strip, Retag, RenamedRow;
  }

  lemma ListStays(db: Db, op: Op, env: Env)
    requires !op.RoomRename? && !op.ListCreate? && !op.ListDelete? && !OnItem(op)
    requires Handle(db, op, env).answer.Applied? && SameRows(db, Handle(db, op, env).db)
    ensures SameList(db, Handle(db, op, env).db, op.list)
  {
    assert op.list in db.lists;
    hide Handle;
  }

  lemma ItemStays(db: Db, op: Op, env: Env)
    requires OnItem(op) && EnvOk(db, env)
    requires Handle(db, op, env).answer.Applied? && SameRows(db, Handle(db, op, env).db)
    ensures Handle(db, op, env).db == db
  {
    forall u ensures SameItem(db, Handle(db, op, env).db, u) {}
    hide Handle, SameRows, SameItem, EnvOk;
    if op.ItemAdd? {
      AddIdle(db, op, env);
    } else if op.ItemRestore? {
      RestoreIdle(db, op, env);
    } else if op.ItemEdit? {
      EditIdle(db, op, env);
    } else {
      ItemIdle(db, op, env);
    }
  }

  /** Rows that stay as they are keep their versions: nothing is written, and no page fetches anything. */
  lemma IdleWritesNothing(db: Db, op: Op, env: Env)
    requires EnvOk(db, env) && Handle(db, op, env).answer.Applied? && SameRows(db, Handle(db, op, env).db)
    ensures Handle(db, op, env).db == db
  {
    if OnItem(op) {
      ItemStays(db, op, env);
    } else if op.RoomRename? || op.ListCreate? || op.ListDelete? {
      hide Strip, ListNameTaken, DropItems;
    } else {
      ListStays(db, op, env);
      hide Handle, SameRows, SameList, EnvOk;
      if op.ListTagSettings? {
        SettingsIdle(db, op, env);
      } else if op.ListTagRename? {
        RenameIdle(db, op, env);
      } else if op.ListTagAdd? {
        AddTagIdle(db, op, env);
      } else {
        ListIdle(db, op, env);
      }
    }
  }

  // Times and due cycles

  /** The UTC time of a schedule, if it has a time of day and the zone data give one. */
  function DueTime(due: Due): Option<Time> {
    match Looked(due)
    case Some(Instant(at)) => Some(at)
    case _ => None
  }

  function FreshCycle(due: Due, env: Env): Option<Cycle> {
    if due.date.Some? then Some(Cycle(env.cycle, env.now)) else None
  }

  /** What the op's moment changes of a row: checking, putting back, and another schedule. */
  predicate TimesRight(a: Item, b: Item, env: Env) {
    var putBack := a.done && !b.done;
    && (b.done == a.done ==> b.completedAt == a.completedAt) && (putBack ==> b.completedAt == None)
    && (b.done && !a.done ==> b.completedAt == Some(env.now))
    && b.addedAt == (if putBack then Some(env.now) else a.addedAt)
    && b.addCount == a.addCount + (if putBack then 1 else 0)
    && b.cycle == (if putBack || b.due != a.due then FreshCycle(b.due, env) else a.cycle)
    && b.dueAt == (if b.due != a.due then DueTime(b.due) else a.dueAt)
  }

  /** A new row starts a due cycle if it has a date. */
  predicate StartsRight(b: Item, op: Op, env: Env) {
    && b.cycle == FreshCycle(b.due, env) && b.dueAt == DueTime(b.due)
    && (op.ItemAdd? ==> b.addedAt == Some(env.now) && b.completedAt == None && b.addCount == 1 && b.due == NO_DUE)
  }

  ghost predicate AllTimesRight(a: map<Uid, Item>, b: map<Uid, Item>, op: Op, env: Env) {
    forall u :: u in b ==> if u in a then TimesRight(a[u], b[u], env) else StartsRight(b[u], op, env)
  }

  lemma EditTimes(db: Db, op: Op, env: Env)
    requires op.ItemEdit? && Handle(db, op, env).answer.Applied?
    ensures AllTimesRight(db.items, Handle(db, op, env).db.items, op, env)
  {
    hide Strip, MergeDue, NameTaken, Unresolved;
  }

  lemma SameTimes(a: map<Uid, Item>, b: map<Uid, Item>, op: Op, env: Env)
    requires !op.RoomRename? && !op.ListCreate? && Swept(a, b, op)
    ensures AllTimesRight(a, b, op, env)
  {
    forall u | u in a ensures TimesRight(a[u], b[u], env) {
      var w := b[u].(tags := a[u].tags, changedSeq := a[u].changedSeq);
      assert w == a[u];
    }
  }

  lemma AddTimes(db: Db, op: Op, env: Env)
    requires op.ItemAdd? && EnvOk(db, env) && Handle(db, op, env).answer.Applied?
    ensures AllTimesRight(db.items, Handle(db, op, env).db.items, op, env)
  {
    hide Strip, NameKey, ItemsOf;
  }

  lemma RestoreTimes(db: Db, op: Op, env: Env)
    requires op.ItemRestore? && EnvOk(db, env) && Handle(db, op, env).answer.Applied?
    ensures AllTimesRight(db.items, Handle(db, op, env).db.items, op, env)
  {
    hide Strip, MergeDue, NameTaken, Unresolved, NameKey, ItemsOf;
  }

  lemma ItemTimes(db: Db, op: Op, env: Env)
    requires (op.ItemSetDone? || op.ItemQuantityDelta? || op.ItemToggleTag?) && Handle(db, op, env).answer.Applied?
    ensures AllTimesRight(db.items, Handle(db, op, env).db.items, op, env)
  {
    hide ToggledTags;
  }

  lemma FewerTimes(a: map<Uid, Item>, b: map<Uid, Item>, op: Op, env: Env)
    requires forall u :: u in b ==> u in a && b[u] == a[u]
    ensures AllTimesRight(a, b, op, env)
  {
  }

  /** In every applied op, the times, counts and due cycles of all rows are right. */
  lemma AppliedTimes(db: Db, op: Op, env: Env)
    requires EnvOk(db, env) && Handle(db, op, env).answer.Applied?
    ensures AllTimesRight(db.items, Handle(db, op, env).db.items, op, env)
  {
    hide Handle, AllTimesRight, EnvOk, Swept;
    var b := Handle(db, op, env).db.items;
    if op.ItemEdit? {
      EditTimes(db, op, env);
    } else if op.ItemAdd? {
      AddTimes(db, op, env);
    } else if op.ItemRestore? {
      RestoreTimes(db, op, env);
    } else if op.ItemSetDone? || op.ItemQuantityDelta? || op.ItemToggleTag? {
      ItemTimes(db, op, env);
    } else {
      AppliedTouches(db, op, env);
      if op.ItemDelete? {
        DeletedItem(db, op, env);
        FewerTimes(db.items, b, op, env);
      } else if op.ListDelete? || op.RoomRename? || op.ListCreate? {
        FewerTimes(db.items, b, op, env);
      } else {
        SameTimes(db.items, b, op, env);
      }
    }
  }

  lemma DeletedItem(db: Db, op: Op, env: Env)
    requires op.ItemDelete?
    ensures forall u :: u in Handle(db, op, env).db.items ==>
      u in db.items && Handle(db, op, env).db.items[u] == db.items[u]
  {
  }
}

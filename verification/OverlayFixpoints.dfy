/** When the projection of an op shows nothing new: the view already has what the op wants. */
module OverlayFixpoints {
  import opened RoomModel
  import opened Texts
  import opened TagRules
  import opened Overlay
  import opened Simulation
  import Idempotence

  /** A field of an edit keeps the stored value. */
  predicate Same(field: Field, stored: Option<string>) { field.Unsent? || field.value == stored }

  predicate SameDue(due: Due, date: Field, time: Field, zone: Field) {
    && Same(date, due.date)
    && (if due.date.None? then due.time.None? else Same(time, due.time))
    && (if due.time.None? then due.zone.None? else Same(zone, due.zone))
  }

  predicate HasItem(v: View, l: Uid, u: Uid) { u in v.items && v.items[u].list == l }

  /** The item already is as the op wants it. */
  predicate ItemHas(row: Item, op: Op, single: bool) {
    match op
    case ItemSetDone(_, _, done, _) => row.done == done
    case ItemQuantityDelta(_, _, delta) => row.quantity >= 1 && (delta == 0 || (row.quantity == 1 && delta < 0))
    case ItemEdit(_, _, name, description, quantity, date, time, zone, _) =>
      && row.name == Strip(name) && row.description == JsTrim(description)
      && (quantity.Some? ==> row.quantity == Max(1, quantity.value)) && SameDue(row.due, date, time, zone)
    case ItemToggleTag(_, _, tag, active) =>
      active.Some? && if !active.value then tag !in row.tags else if single then row.tags == [tag] else tag in row.tags
    case _ => true
  }

  /** The list already is as the op wants it. */
  predicate ListHas(row: List, op: Op) {
    match op
    case ListRename(_, name, _) => row.name == JsTrim(name)
    case ListTagAdd(_, raw) => JsTrim(raw) == [] || JsTrim(raw) in row.tags
    case ListTagRemove(_, tag) => tag !in row.tags && tag !in row.settings.colors
    case ListTagColor(_, tag, color) =>
      tag !in row.tags || (if color.None? then tag !in row.settings.colors
        else tag in row.settings.colors && row.settings.colors[tag] == color.value)
    case ListTagSettings(_, mode, show, only) =>
      && (mode.Some? ==> row.settings.mode == mode.value) && (show.Some? ==> row.settings.showOnItems == show.value)
      && (only.Some? ==> row.settings.onlyItemTags == only.value)
    case ListVisibility(_, mode, days, count) =>
      && (mode.Some? ==> row.hide.mode == mode.value) && (days.Some? ==> row.hide.ageDays == days.value)
      && (count.Some? ==> row.hide.recentCount == count.value)
    case _ => true
  }

  /** The rename is refused, or to the same name and no item with the tag has a tag twice. */
  ghost predicate TagNamed(v: View, l: Uid, tag: string, newTag: string) {
    l in v.lists && RenamedList(v.lists[l], tag, newTag).Some? ==>
      && JsTrim(newTag) == tag
      && forall u :: u in v.items && v.items[u].list == l && tag in v.items[u].tags ==> Distinct(v.items[u].tags)
  }

  /** A new row has no ID or no list, or is there already. */
  predicate NoRoom(v: View, l: Uid, uid: Option<Uid>) { uid.None? || l !in v.lists || uid.value in v.items }

  /** The view has what the op wants, or nothing the op could change. */
  ghost predicate Finds(v: View, op: Op) {
    match op
    case RoomRename(name) => v.name == JsTrim(name)
    case ListCreate(_, _) => true
    case ListDelete(l) => l !in v.lists
    case ListTagRename(l, tag, newTag) => TagNamed(v, l, tag, newTag)
    case ItemAdd(l, raw, uid) =>
      var key := NameKey(Strip(raw));
      NameOpen(v.items, l, key) || (!NameUsed(v.items, l, key) && NoRoom(v, l, uid))
    case ItemRestore(l, uid, name, _, _, _, _, _, _, _, _) =>
      NoRoom(v, l, uid) || NameUsed(v.items, l, NameKey(Strip(name)))
    case ItemDelete(l, u) => !HasItem(v, l, u)
    case ListRename(l, _, _) => l in v.lists ==> ListHas(v.lists[l], op)
    case ListTagAdd(l, _) => l in v.lists ==> ListHas(v.lists[l], op)
    case ListTagRemove(l, _) => l in v.lists ==> ListHas(v.lists[l], op)
    case ListTagColor(l, _, _) => l in v.lists ==> ListHas(v.lists[l], op)
    case ListTagSettings(l, _, _, _) => l in v.lists ==> ListHas(v.lists[l], op)
    case ListVisibility(l, _, _, _) => l in v.lists ==> ListHas(v.lists[l], op)
    case ItemSetDone(l, u, _, _) => OnItemFinds(v, l, u, op)
    case ItemQuantityDelta(l, u, _) => OnItemFinds(v, l, u, op)
    case ItemEdit(l, u, _, _, _, _, _, _, _) => OnItemFinds(v, l, u, op)
    case ItemToggleTag(l, u, _, _) => OnItemFinds(v, l, u, op)
  }

  predicate OnItemFinds(v: View, l: Uid, u: Uid, op: Op) {
    HasItem(v, l, u) ==> ItemHas(v.items[u], op, l in v.lists && v.lists[l].settings.mode == Single)
  }

  // One row

  lemma EditFinds(row: Item, op: Op, at: Time, single: bool)
    requires op.ItemEdit?
    ensures EraseItem(ItemAfter(row, op, at, single)) == EraseItem(row) <==> ItemHas(row, op, single)
  {
    hide Strip, JsTrim;
  }

  lemma ToggleFinds(row: Item, op: Op, at: Time, single: bool)
    requires op.ItemToggleTag?
    ensures EraseItem(ItemAfter(row, op, at, single)) == EraseItem(row) <==> ItemHas(row, op, single)
  {
    WithoutMembers(row.tags, op.tag);
    hide Without;
    assert |row.tags + [op.tag]| != |row.tags|;
  }

  lemma ItemFinds(row: Item, op: Op, at: Time, single: bool)
    ensures EraseItem(ItemAfter(row, op, at, single)) == EraseItem(row) <==> ItemHas(row, op, single)
  {
    if op.ItemEdit? {
      EditFinds(row, op, at, single);
      hide ItemAfter, ItemHas;
    } else if op.ItemToggleTag? {
      ToggleFinds(row, op, at, single);
      hide ItemAfter, ItemHas;
    }
    hide Strip, JsTrim, Without;
  }

  lemma TagRemoveFinds(row: List, l: Uid, tag: string)
    ensures EraseList(ListAfter(row, ListTagRemove(l, tag))) == EraseList(row) <==> ListHas(row, ListTagRemove(l, tag))
  {
    WithoutMembers(row.tags, tag);
    hide Without;
    assert row.settings.colors - {tag} == row.settings.colors <==> tag !in row.settings.colors;
  }

  lemma TagColorFinds(row: List, l: Uid, tag: string, color: Option<int>)
    ensures EraseList(ListAfter(row, ListTagColor(l, tag, color))) == EraseList(row)
      <==> ListHas(row, ListTagColor(l, tag, color))
  {
    var colors := row.settings.colors;
    assert colors - {tag} == colors <==> tag !in colors;
    if color.Some? { assert colors[tag := color.value] == colors <==> tag in colors && colors[tag] == color.value; }
  }

  lemma ListFinds(row: List, op: Op)
    ensures EraseList(ListAfter(row, op)) == EraseList(row) <==> ListHas(row, op)
  {
    match op
    case ListTagRemove(l, tag) => TagRemoveFinds(row, l, tag);
    case ListTagColor(l, tag, color) => TagColorFinds(row, l, tag, color);
    case ListTagAdd(_, raw) =>
      hide JsTrim, SortTags;
      SortShape(row.tags + [JsTrim(raw)]);
      assert JsTrim(raw) in row.tags + [JsTrim(raw)];
    case _ => hide JsTrim;
  }

  // One op

  lemma PutList(v: View, l: Uid, row: List)
    requires l in v.lists
    ensures Alike(v.(lists := v.lists[l := row]), v) <==> EraseList(row) == EraseList(v.lists[l])
  {
    assert v.lists[l := v.lists[l]] == v.lists;
    OneListLike(v.lists, l, row, v.lists[l]);
    LikeItself(v.lists, v.items);
  }

  lemma PutItem(v: View, u: Uid, row: Item)
    requires u in v.items
    ensures Alike(v.(items := v.items[u := row]), v) <==> EraseItem(row) == EraseItem(v.items[u])
  {
    assert v.items[u := v.items[u]] == v.items;
    OneItemLike(v.items, u, row, v.items[u]);
    LikeItself(v.lists, v.items);
  }

  lemma NewItem(v: View, u: Uid, row: Item)
    requires u !in v.items
    ensures !Alike(v.(items := v.items[u := row]), v)
  {
    assert u in v.items[u := row];
  }

  lemma OnListShows(v: View, l: Uid, op: Op)
    ensures Alike(ProjectOnList(v, l, op), v) <==> (l in v.lists ==> ListHas(v.lists[l], op))
  {
    LikeItself(v.lists, v.items);
    hide ListAfter, ListHas, LikeItems, LikeLists;
    if l in v.lists {
      ListFinds(v.lists[l], op);
      PutList(v, l, ListAfter(v.lists[l], op));
    }
  }

  lemma OnItemShows(v: View, l: Uid, u: Uid, op: Op, at: Time)
    ensures Alike(ProjectOnItem(v, l, u, op, at), v) <==> OnItemFinds(v, l, u, op)
  {
    LikeItself(v.lists, v.items);
    hide ItemAfter, ItemHas, LikeItems, LikeLists;
    if HasItem(v, l, u) {
      var single := l in v.lists && v.lists[l].settings.mode == Single;
      ItemFinds(v.items[u], op, at, single);
      PutItem(v, u, ItemAfter(v.items[u], op, at, single));
    }
  }

  lemma TagSettingsShows(v: View, l: Uid, op: Op)
    requires op.ListTagSettings?
    ensures Alike(ProjectTagSettings(v, l, op), v) <==> (l in v.lists ==> ListHas(v.lists[l], op))
  {
    LikeItself(v.lists, v.items);
    hide KeepFirstItemTag, LikeItems;
    if l in v.lists {
      ListFinds(v.lists[l], op);
      var next := ListAfter(v.lists[l], op);
      PutList(v, l, next);
      if EraseList(next) != EraseList(v.lists[l]) { assert v.lists[l := next][l] == next; }
    }
  }

  lemma SweepShows(items: map<Uid, Item>, l: Uid, tag: string)
    ensures LikeItems(RenameItemTags(items, l, tag, tag), items) <==>
      forall u :: u in items && items[u].list == l && tag in items[u].tags ==> Distinct(items[u].tags)
  {
    var swept := RenameItemTags(items, l, tag, tag);
    forall u | u in items
      ensures EraseItem(swept[u]) == EraseItem(items[u]) <==>
        (items[u].list == l && tag in items[u].tags ==> Distinct(items[u].tags))
    {
      RenamedToItself(items[u].tags, tag);
    }
    hide Renamed, Distinct, EraseItem;
    if LikeItems(swept, items) {
      forall u | u in items && items[u].list == l && tag in items[u].tags ensures Distinct(items[u].tags) {
        assert EraseItem(swept[u]) == EraseItem(items[u]);
      }
    }
  }

  lemma TagRenameShows(v: View, l: Uid, tag: string, newTag: string)
    ensures Alike(ProjectTagRename(v, l, tag, newTag), v) <==> TagNamed(v, l, tag, newTag)
  {
    LikeItself(v.lists, v.items);
    hide JsTrim, JsLength, SortTags, Replaced, RenameItemTags, LikeItems;
    if l in v.lists && RenamedList(v.lists[l], tag, newTag).Some? {
      var row := RenamedList(v.lists[l], tag, newTag).value;
      if JsTrim(newTag) == tag {
        SweepShows(v.items, l, tag);
        assert v.lists[l := row] == v.lists;
      } else {
        Idempotence.NoneLeft(v.lists[l].tags, tag, JsTrim(newTag));
        assert v.lists[l := row][l] == row && EraseList(row).tags != EraseList(v.lists[l]).tags;
      }
    }
  }

  lemma AddShows(v: View, l: Uid, raw: string, uid: Option<Uid>, at: Time)
    ensures Alike(ProjectAdd(v, l, raw, uid, at), v) <==> Finds(v, ItemAdd(l, raw, uid))
  {
    LikeItself(v.lists, v.items);
    hide NameUsed, NameOpen, LikeItems, LikeLists, Strip, NameKey;
    var key := NameKey(Strip(raw));
    if !NameOpen(v.items, l, key) {
      if NameUsed(v.items, l, key) {
        var u := CheckedItem(v.items, l, key);
        var row := v.items[u];
        PutItem(v, u, row.(done := false, completedAt := None, addCount := row.addCount + 1, addedAt := Some(at)));
      } else if !NoRoom(v, l, uid) {
        NewItem(v, uid.value, NewRow(l, Strip(raw)).(addedAt := Some(at)));
      }
    }
  }

  lemma RestoreShows(v: View, op: Op)
    requires op.ItemRestore?
    ensures Alike(ProjectRestore(v, op), v) <==> Finds(v, op)
  {
    LikeItself(v.lists, v.items);
    hide NameUsed, RestoredRow, LikeItems, LikeLists, Strip, NameKey;
    if !Finds(v, op) { NewItem(v, op.uid.value, RestoredRow(op)); }
  }

  lemma LessList(v: View, l: Uid, items: map<Uid, Item>)
    requires l in v.lists
    ensures !Alike(v.(lists := v.lists - {l}, items := items), v)
  {
    hide LikeItems;
    assert l !in v.lists - {l};
  }

  lemma LessItem(v: View, u: Uid)
    requires u in v.items
    ensures !Alike(v.(items := v.items - {u}), v)
  {
    hide LikeLists;
    assert u !in v.items - {u};
  }

  lemma DeletesShow(v: View, op: Op, at: Time)
    requires op.ItemDelete? || op.ListDelete?
    ensures Alike(Project(v, op, at), v) <==> Finds(v, op)
  {
    LikeItself(v.lists, v.items);
    hide LikeItems, LikeLists;
    if op.ListDelete? && op.list in v.lists {
      LessList(v, op.list, Project(v, op, at).items);
    } else if op.ItemDelete? && HasItem(v, op.list, op.item) {
      LessItem(v, op.item);
    }
  }

  /** The projection of an op shows nothing new exactly if the view has what the op wants. */
  lemma ShowsNothingNew(v: View, op: Op, at: Time)
    ensures Alike(Project(v, op, at), v) <==> Finds(v, op)
  {
    hide ProjectOnItem, ProjectOnList, ProjectAdd, ProjectRestore, ProjectTagSettings, ProjectTagRename, OnItemFinds,
      ListHas, TagNamed, NameUsed, NameOpen, Strip, JsTrim, NameKey;
    LikeItself(v.lists, v.items);
    match op {
      case RoomRename(_) =>
      case ListCreate(_, _) =>
      case ItemAdd(l, raw, uid) => AddShows(v, l, raw, uid, at);
      case ItemRestore(_, _, _, _, _, _, _, _, _, _, _) => RestoreShows(v, op);
      case ItemDelete(_, _) => DeletesShow(v, op, at);
      case ListDelete(_) => DeletesShow(v, op, at);
      case ListTagSettings(l, _, _, _) => TagSettingsShows(v, l, op);
      case ListTagRename(l, tag, newTag) => TagRenameShows(v, l, tag, newTag);
      case ListRename(l, _, _) => OnListShows(v, l, op);
      case ListTagAdd(l, _) => OnListShows(v, l, op);
      case ListTagRemove(l, _) => OnListShows(v, l, op);
      case ListTagColor(l, _, _) => OnListShows(v, l, op);
      case ListVisibility(l, _, _, _) => OnListShows(v, l, op);
      case ItemSetDone(l, u, _, _) => OnItemShows(v, l, u, op, at);
      case ItemQuantityDelta(l, u, _) => OnItemShows(v, l, u, op, at);
      case ItemEdit(l, u, _, _, _, _, _, _, _) => OnItemShows(v, l, u, op, at);
      case ItemToggleTag(l, u, _, _) => OnItemShows(v, l, u, op, at);
    }
  }

  // Times and versions the page shows before the answer

  /** A checked item shows the op's time, one put back too; a changed schedule has no UTC time; versions stay. */
  predicate TimesShown(a: Item, b: Item, at: Time) {
    var putBack := a.done && !b.done;
    && (b.done ==> b.completedAt == if a.done then a.completedAt else Some(at))
    && (!b.done ==> b.completedAt == None || (!a.done && b.completedAt == a.completedAt))
    && b.addedAt == (if putBack then Some(at) else a.addedAt)
    && b.addCount == a.addCount + (if putBack then 1 else 0)
    && b.dueAt == (if b.due == a.due then a.dueAt else None)
    && b.cycle == a.cycle && b.changedSeq == a.changedSeq
  }

  /** A row the page made up: its version is the placeholder 0, its due time is not resolved. */
  predicate NewTimes(op: Op, b: Item, at: Time) {
    && b.dueAt == None && b.cycle == None && b.changedSeq == 0
    && match op
      case ItemAdd(_, _, _) => b.completedAt == None && b.addedAt == Some(at) && b.addCount == 1
      case ItemRestore(_, _, _, done, _, _, _, completedAt, _, addCount, addedAt) =>
        && b.completedAt == (if done then completedAt else None) && b.addedAt == addedAt
        && b.addCount == if addCount.Some? then addCount.value else 1
      case _ => false
  }

  lemma RowTimes(row: Item, op: Op, at: Time, single: bool)
    ensures TimesShown(row, ItemAfter(row, op, at, single), at)
  {
    hide Strip, JsTrim, Without;
  }

  lemma ItemOpTimes(v: View, l: Uid, u: Uid, op: Op, at: Time, x: Uid)
    requires x in v.items
    ensures var w := ProjectOnItem(v, l, u, op, at); x in w.items && TimesShown(v.items[x], w.items[x], at)
  {
    RowTimes(v.items[x], op, at, l in v.lists && v.lists[l].settings.mode == Single);
    hide ItemAfter;
  }

  /** What an op shows of times and versions, from `v` to `w`. */
  ghost predicate ShowsTimes(v: View, w: View, op: Op, at: Time) {
    && (forall u :: u in v.items && u in w.items ==> TimesShown(v.items[u], w.items[u], at))
    && (forall u :: u in w.items && u !in v.items ==> NewTimes(op, w.items[u], at))
    && (forall l :: l in w.lists ==> l in v.lists && w.lists[l].changedSeq == v.lists[l].changedSeq)
  }

  lemma NewItemTimes(v: View, op: Op, at: Time)
    requires op.ItemAdd? || op.ItemRestore?
    ensures ShowsTimes(v, Project(v, op, at), op, at)
  {
    if op.ItemAdd? {
      var key := NameKey(Strip(op.name));
      if !NameOpen(v.items, op.list, key) && NameUsed(v.items, op.list, key) {
        var u := CheckedItem(v.items, op.list, key);
        assert v.items[u].done;
      }
    }
    hide Strip, JsTrim, NameKey, NameOpen, NameUsed;
  }

  lemma OtherTimes(v: View, op: Op, at: Time)
    requires !op.ItemAdd? && !op.ItemRestore?
    requires !op.ItemSetDone? && !op.ItemQuantityDelta? && !op.ItemEdit? && !op.ItemToggleTag?
    ensures ShowsTimes(v, Project(v, op, at), op, at)
  {
    hide Strip, JsTrim, SortTags, Without, Renamed, First, Replaced, JsLength;
  }

  /** What an op shows of times and versions until it is answered. */
  lemma PageTimes(v: View, op: Op, at: Time)
    ensures ShowsTimes(v, Project(v, op, at), op, at)
  {
    if op.ItemSetDone? || op.ItemQuantityDelta? || op.ItemEdit? || op.ItemToggleTag? {
      forall u | u in v.items
        ensures var w := Project(v, op, at); u in w.items && TimesShown(v.items[u], w.items[u], at)
      {
        ItemOpTimes(v, op.list, op.item, op, at, u);
      }
      hide ItemAfter, TimesShown, NewTimes;
    } else {
      hide Project, ShowsTimes;
      if op.ItemAdd? || op.ItemRestore? { NewItemTimes(v, op, at); } else { OtherTimes(v, op, at); }
    }
  }
}

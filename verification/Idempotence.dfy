/**
  An op whose answer was lost may be in the server data already. Projecting it once more is
  harmless for every op but the two that the page then leaves out.
 */
module Idempotence {
  import opened RoomModel
  import opened Texts
  import opened TagRules
  import opened Overlay

  ghost predicate Settles(v: View, op: Op, at: Time) {
    Project(Project(v, op, at), op, at) == Project(v, op, at)
  }

  lemma JsTrimTwice(s: string)
    ensures JsTrim(JsTrim(s)) == JsTrim(s)
  {
    TrimIdempotent(s, JsSpace);
  }

  lemma EditTwice(row: Item, op: Op, at: Time, single: bool)
    requires op.ItemEdit?
    ensures ItemAfter(ItemAfter(row, op, at, single), op, at, single) == ItemAfter(row, op, at, single)
  {
    TrimIdempotent(op.name, PySpace);
    JsTrimTwice(op.description);
    hide Strip, JsTrim;
  }

  lemma ToggleTwice(row: Item, op: Op, at: Time, single: bool)
    requires op.ItemToggleTag? && op.active.Some?
    ensures ItemAfter(ItemAfter(row, op, at, single), op, at, single) == ItemAfter(row, op, at, single)
  {
    hide Without;
    WithoutMembers(row.tags, op.tag);
    WithoutMembers(Without(row.tags, op.tag), op.tag);
  }

  lemma ItemAfterTwice(row: Item, op: Op, at: Time, single: bool)
    requires !CountsTwice(op)
    ensures ItemAfter(ItemAfter(row, op, at, single), op, at, single) == ItemAfter(row, op, at, single)
  {
    if op.ItemEdit? {
      EditTwice(row, op, at, single);
      hide ItemAfter;
    } else if op.ItemToggleTag? {
      ToggleTwice(row, op, at, single);
      hide ItemAfter;
    }
    hide Strip, JsTrim, Without;
  }

  lemma TagAddTwice(row: List, l: Uid, raw: string)
    ensures ListAfter(ListAfter(row, ListTagAdd(l, raw)), ListTagAdd(l, raw)) == ListAfter(row, ListTagAdd(l, raw))
  {
    SortShape(row.tags + [JsTrim(raw)]);
    hide SortTags, JsTrim;
    assert JsTrim(raw) in row.tags + [JsTrim(raw)];
  }

  lemma TagRemoveTwice(row: List, l: Uid, tag: string)
    ensures ListAfter(ListAfter(row, ListTagRemove(l, tag)), ListTagRemove(l, tag))
      == ListAfter(row, ListTagRemove(l, tag))
  {
    WithoutShape(row.tags, tag);
    WithoutShape(Without(row.tags, tag), tag);
    hide Without;
    assert row.settings.colors - {tag} - {tag} == row.settings.colors - {tag};
  }

  lemma TagColorTwice(row: List, l: Uid, tag: string, color: Option<int>)
    ensures ListAfter(ListAfter(row, ListTagColor(l, tag, color)), ListTagColor(l, tag, color))
      == ListAfter(row, ListTagColor(l, tag, color))
  {
    assert row.settings.colors - {tag} - {tag} == row.settings.colors - {tag};
    if color.Some? {
      assert row.settings.colors[tag := color.value][tag := color.value] == row.settings.colors[tag := color.value];
    }
  }

  lemma ListAfterTwice(row: List, op: Op)
    ensures ListAfter(ListAfter(row, op), op) == ListAfter(row, op)
  {
    match op {
      case ListTagAdd(l, raw) =>
        hide ListAfter;
        TagAddTwice(row, l, raw);
      case ListTagRemove(l, tag) =>
        hide ListAfter;
        TagRemoveTwice(row, l, tag);
      case ListTagColor(l, tag, color) =>
        hide ListAfter;
        TagColorTwice(row, l, tag, color);
      case _ => hide JsTrim;
    }
  }

  lemma OnItemTwice(v: View, l: Uid, u: Uid, op: Op, at: Time)
    requires !CountsTwice(op)
    ensures ProjectOnItem(ProjectOnItem(v, l, u, op, at), l, u, op, at) == ProjectOnItem(v, l, u, op, at)
  {
    if u in v.items && v.items[u].list == l {
      var single := l in v.lists && v.lists[l].settings.mode == Single;
      ItemAfterTwice(v.items[u], op, at, single);
      assert ItemAfter(v.items[u], op, at, single).list == l by { hide Strip, JsTrim, Without; }
      hide ItemAfter;
      assert v.items[u := ItemAfter(v.items[u], op, at, single)][u := ItemAfter(v.items[u], op, at, single)]
          == v.items[u := ItemAfter(v.items[u], op, at, single)];
    }
  }

  lemma OnListTwice(v: View, l: Uid, op: Op)
    ensures ProjectOnList(ProjectOnList(v, l, op), l, op) == ProjectOnList(v, l, op)
  {
    if l in v.lists {
      ListAfterTwice(v.lists[l], op);
      hide ListAfter;
      assert v.lists[l := ListAfter(v.lists[l], op)][l := ListAfter(v.lists[l], op)]
        == v.lists[l := ListAfter(v.lists[l], op)];
    }
  }

  lemma AddTwice(v: View, l: Uid, raw: string, uid: Option<Uid>, at: Time)
    ensures ProjectAdd(ProjectAdd(v, l, raw, uid, at), l, raw, uid, at) == ProjectAdd(v, l, raw, uid, at)
  {
    var name, key := Strip(raw), NameKey(Strip(raw));
    var w := ProjectAdd(v, l, raw, uid, at);
    hide Strip;
    if w != v {
      var u := if NameUsed(v.items, l, key) then CheckedItem(v.items, l, key) else uid.value;
      assert SameName(w.items, u, l, key) && !w.items[u].done;
      assert NameOpen(w.items, l, key);
    }
  }

  lemma TagSettingsTwice(v: View, l: Uid, op: Op)
    requires op.ListTagSettings?
    ensures ProjectTagSettings(ProjectTagSettings(v, l, op), l, op) == ProjectTagSettings(v, l, op)
  {
    if l in v.lists {
      var next := ListAfter(v.lists[l], op);
      assert v.lists[l := next][l := next] == v.lists[l := next];
      hide KeepFirstItemTag;
    }
  }

  lemma SweepTwice(items: map<Uid, Item>, l: Uid, tag: string)
    ensures RenameItemTags(RenameItemTags(items, l, tag, tag), l, tag, tag) == RenameItemTags(items, l, tag, tag)
  {
    forall u | u in items { RenamedTwice(items[u].tags, tag, tag); }
  }

  lemma NoneLeft(tags: seq<string>, tag: string, name: string)
    requires name != tag
    ensures tag !in SortTags(Replaced(tags, tag, name))
  {
    ReplacedShape(tags, tag, name);
    SortShape(Replaced(tags, tag, name));
    hide SortTags, Replaced;
  }

  lemma RenamedListTwice(row: List, tag: string, newTag: string)
    requires RenamedList(row, tag, newTag).Some?
    ensures JsTrim(newTag) == tag ==> RenamedList(row, tag, newTag) == Some(row)
    ensures JsTrim(newTag) != tag ==> RenamedList(RenamedList(row, tag, newTag).value, tag, newTag).None?
  {
    hide SortTags, Replaced, JsTrim, JsLength;
    if JsTrim(newTag) != tag { NoneLeft(row.tags, tag, JsTrim(newTag)); }
  }

  lemma TagRenameTwice(v: View, l: Uid, tag: string, newTag: string)
    ensures ProjectTagRename(ProjectTagRename(v, l, tag, newTag), l, tag, newTag) == ProjectTagRename(v, l, tag, newTag)
  {
    hide JsTrim, RenamedList, RenameItemTags;
    if l in v.lists && RenamedList(v.lists[l], tag, newTag).Some? {
      RenamedListTwice(v.lists[l], tag, newTag);
      SweepTwice(v.items, l, tag);
      assert v.lists[l := v.lists[l]][l := v.lists[l]] == v.lists[l := v.lists[l]];
    }
  }

  /** Projecting an op once more changes nothing, on every view, unless it counts twice. */
  lemma ProjectTwice(v: View, op: Op, at: Time)
    requires !CountsTwice(op)
    ensures Settles(v, op, at)
  {
    hide ProjectOnItem, ProjectOnList, ProjectAdd, ProjectTagSettings, ProjectTagRename;
    match op {
      case ItemAdd(l, raw, uid) => AddTwice(v, l, raw, uid, at);
      case ListTagSettings(l, _, _, _) => TagSettingsTwice(v, l, op);
      case ListTagRename(l, tag, newTag) => TagRenameTwice(v, l, tag, newTag);
      case ListRename(l, _, _) => OnListTwice(v, l, op);
      case ListTagAdd(l, _) => OnListTwice(v, l, op);
      case ListTagRemove(l, _) => OnListTwice(v, l, op);
      case ListTagColor(l, _, _) => OnListTwice(v, l, op);
      case ListVisibility(l, _, _, _) => OnListTwice(v, l, op);
      case ItemSetDone(l, u, _, _) => OnItemTwice(v, l, u, op, at);
      case ItemEdit(l, u, _, _, _, _, _, _, _) => OnItemTwice(v, l, u, op, at);
      case ItemToggleTag(l, u, _, _) => OnItemTwice(v, l, u, op, at);
      case _ =>
    }
  }

  /** A room with one item, where a count shows. */
  function OneItemRoom(l: Uid, u: Uid, quantity: int): View {
    View("", map[], map[u := NewRow(l, "").(quantity := quantity)])
  }

  lemma DeltaCounts(l: Uid, u: Uid, delta: int, at: Time)
    requires delta != 0
    ensures exists v :: !Settles(v, ItemQuantityDelta(l, u, delta), at)
  {
    var v := OneItemRoom(l, u, 1 + 2 * Max(delta, -delta));
    var w := Project(v, ItemQuantityDelta(l, u, delta), at);
    assert w.items[u].quantity == v.items[u].quantity + delta;
    assert Project(w, ItemQuantityDelta(l, u, delta), at).items[u].quantity == w.items[u].quantity + delta;
    assert !Settles(v, ItemQuantityDelta(l, u, delta), at);
  }

  lemma ToggleCounts(l: Uid, u: Uid, tag: string, at: Time)
    ensures exists v :: !Settles(v, ItemToggleTag(l, u, tag, None), at)
  {
    var op, v := ItemToggleTag(l, u, tag, None), OneItemRoom(l, u, 1);
    var w := Project(v, op, at);
    assert w.items[u].tags == [tag];
    WithoutShape([tag], tag);
    assert tag !in Project(w, op, at).items[u].tags;
    assert !Settles(v, op, at);
  }

  /**
    Which ops may be projected again: exactly those the page keeps showing while uncertain,
    and the delta of nothing.
   */
  lemma SafeToRepeat(op: Op, at: Time)
    ensures (forall v :: Settles(v, op, at)) <==> !CountsTwice(op) || (op.ItemQuantityDelta? && op.delta == 0)
  {
    if !CountsTwice(op) {
      forall v ensures Settles(v, op, at) { ProjectTwice(v, op, at); }
    } else if op.ItemToggleTag? {
      ToggleCounts(op.list, op.item, op.tag, at);
    } else if op.delta != 0 {
      DeltaCounts(op.list, op.item, op.delta, at);
    } else {
      forall v ensures Settles(v, op, at) { NothingAdded(v, op, at); }
    }
  }

  lemma NothingAdded(v: View, op: Op, at: Time)
    requires op.ItemQuantityDelta? && op.delta == 0
    ensures Settles(v, op, at)
  {
    var w := Project(v, op, at);
    if op.item in v.items { assert w.items == Project(w, op, at).items; }
  }
}

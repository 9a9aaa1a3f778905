/**
  What an applied op makes of the rows, said of the rows before and after it and of the op alone.
  (Times, counts and cycles are in HandlerEffects, and so is which rows stay.)
 */
module HandlerChanges {
  import opened RoomModel
  import opened Texts
  import opened TagRules
  import opened Tracking
  import opened Operations
  import opened HandlerLaws
  import opened HandlerEffects
  import Sim = Simulation

  // Items

  /** What of an item is not a time, a count or a version. */
  function Body(row: Item): Item {
    row.(completedAt := None, addedAt := None, dueAt := None, cycle := None, changedSeq := 0, addCount := 0)
  }

  function FreshItem(l: Uid, name: string): Item {
    Item(l, name, false, None, 1, "", Due(None, None, None), None, [], 0, None, None, 0)
  }

  /** Off, the tag is gone and the others are there; on, it is added last, or is the only one in single mode. */
  ghost predicate Toggled(was: seq<string>, tags: seq<string>, tag: string, active: Option<bool>, single: bool) {
    var on := if active.Some? then active.value else tag !in was;
    if !on then (forall t :: t in tags <==> t in was && t != tag) && (Distinct(was) ==> Distinct(tags))
    else if single then tags == [tag]
    else if tag in was then tags == was else tags == was + [tag]
  }

  /** What the op makes of its item. */
  ghost predicate ItemMade(a: Item, b: Item, op: Op, single: bool) {
    match op
    case ItemAdd(_, _, _) => Body(b) == Body(a).(done := false)
    case ItemSetDone(_, _, done, _) => Body(b) == Body(a).(done := done)
    case ItemQuantityDelta(_, _, delta) =>
      Body(b) == Body(a).(quantity := if a.quantity + delta < 1 then 1 else a.quantity + delta)
    case ItemEdit(_, _, name, description, quantity, _, _, _, _) =>
      Body(b) == Body(a).(name := Strip(name), description := Strip(description), due := WantedDue(a, op),
        quantity := if quantity.None? then a.quantity else if quantity.value < 1 then 1 else quantity.value)
    case ItemToggleTag(_, _, tag, active) =>
      Body(b) == Body(a).(tags := b.tags) && Toggled(a.tags, b.tags, tag, active, single)
    case _ => false
  }

  /** The item of an op on items, before and after; an add or restore may bring a new one. */
  ghost predicate ItemChanged(a: Db, b: Db, op: Op, answer: Answer)
    requires OnItem(op) && answer.Applied?
  {
    if op.ItemAdd? then
      && answer.item.Some? && answer.item.value in b.items
      && var u := answer.item.value;
      if u in a.items then a.items[u].done && ItemMade(a.items[u], b.items[u], op, false)
      else Body(b.items[u]) == FreshItem(op.list, Strip(op.name)) && (op.uid.Some? ==> u == op.uid.value)
    else if op.ItemRestore? then
      && answer.item.Some? && answer.item.value !in a.items && answer.item.value in b.items
      && b.items[answer.item.value].list == op.list && RestoreStored(b.items[answer.item.value], op)
    else if op.ItemDelete? then b.items == if Has(a, op.list, op.item) then a.items - {op.item} else a.items
    else
      && Has(a, op.list, op.item) && op.item in b.items && op.list in a.lists
      && ItemMade(a.items[op.item], b.items[op.item], op, a.lists[op.list].settings.mode == Single)
  }

  lemma ToggleMakes(tags: seq<string>, tag: string, active: Option<bool>, single: bool)
    ensures Toggled(tags, ToggledTags(tags, tag, active, single), tag, active, single)
  {
    WithoutShape(tags, tag);
    hide Without;
  }

  lemma ToggleChanges(db: Db, op: Op, env: Env)
    requires op.ItemToggleTag? && Handle(db, op, env).answer.Applied?
    ensures var out := Handle(db, op, env); ItemChanged(db, out.db, op, out.answer)
  {
    var row := db.items[op.item];
    ToggleMakes(row.tags, op.tag, op.active, db.lists[op.list].settings.mode == Single);
    hide ToggledTags, Toggled;
  }

  lemma EditChanges(db: Db, op: Op, env: Env)
    requires op.ItemEdit? && Handle(db, op, env).answer.Applied?
    ensures var out := Handle(db, op, env); ItemChanged(db, out.db, op, out.answer)
  {
    MergeIs(db.items[op.item].due, op.date, op.time, op.zone);
    assert Handle(db, op, env) == EditItem(db, op.list, op.item, op, env);
    hide Handle, Strip, NameTaken, NameKey, Misfit, MergeDue, Wanted, Unresolved, StoredDueAt, NewCycle, BaseOk;
  }

  lemma RowChanges(db: Db, op: Op, env: Env)
    requires op.ItemSetDone? || op.ItemQuantityDelta? || op.ItemDelete?
    requires Handle(db, op, env).answer.Applied?
    ensures var out := Handle(db, op, env); ItemChanged(db, out.db, op, out.answer)
  {
    hide NewCycle, BaseOk;
  }

  lemma AddChanges(db: Db, op: Op, env: Env)
    requires op.ItemAdd? && EnvOk(db, env) && Handle(db, op, env).answer.Applied?
    ensures var out := Handle(db, op, env); ItemChanged(db, out.db, op, out.answer)
  {
    assert Handle(db, op, env) == AddItem(db, op.list, op.name, op.uid, env);
    hide Handle, Strip, NameKey, ItemsOf, NewCycle;
  }

  lemma RestoreChanges(db: Db, op: Op, env: Env)
    requires op.ItemRestore? && EnvOk(db, env) && Handle(db, op, env).answer.Applied?
    ensures var out := Handle(db, op, env); ItemChanged(db, out.db, op, out.answer)
  {
    MergeIs(NO_DUE, Sent(op.due.date), Sent(op.due.time), Sent(op.due.zone));
    assert Handle(db, op, env) == RestoreItem(db, op, env);
    hide Handle, Strip, NameTaken, Misfit, MergeDue, Unresolved, StoredDueAt, NewCycle, ItemsOf, NameKey;
  }

  // Lists

  function Plain(row: List): List { row.(changedSeq := 0) }

  /** What the op makes of its list. */
  ghost predicate ListMade(a: List, b: List, op: Op) {
    match op
    case ListRename(_, name, _) => Plain(b) == Plain(a).(name := Strip(name))
    case ListTagAdd(_, raw) =>
      Plain(b) == Plain(a).(tags := b.tags) && forall t :: t in b.tags <==> t in a.tags || t == Strip(raw)
    case ListTagRemove(_, tag) =>
      && Plain(b) == Plain(a).(tags := b.tags, settings := a.settings.(colors := a.settings.colors - {tag}))
      && forall t :: t in b.tags <==> t in a.tags && t != tag
    case ListTagColor(_, tag, color) =>
      Plain(b) == Plain(a).(settings := a.settings.(colors :=
        if color.Some? then a.settings.colors[tag := color.value] else a.settings.colors - {tag}))
    case ListTagSettings(_, mode, show, only) =>
      Plain(b) == Plain(a).(settings := TagSettings(
        if mode.Some? then mode.value else a.settings.mode, if show.Some? then show.value else a.settings.showOnItems,
        if only.Some? then only.value else a.settings.onlyItemTags, a.settings.colors))
    case ListTagRename(_, tag, raw) =>
      var name, colors := Strip(raw), a.settings.colors;
      && Plain(b) == Plain(a).(tags := b.tags, settings := a.settings.(colors :=
        if tag in colors && name != tag then (colors - {tag})[name := colors[tag]] else colors))
      && forall t :: t in b.tags <==> (t in a.tags && t != tag) || t == name
    case ListVisibility(_, mode, days, count) =>
      Plain(b) == Plain(a).(hide := Hide(if mode.Some? then mode.value else a.hide.mode,
        if days.Some? then days.value else a.hide.ageDays, if count.Some? then count.value else a.hide.recentCount))
    case _ => false
  }

  predicate OnList(op: Op) {
    op.ListRename? || op.ListTagAdd? || op.ListTagRemove? || op.ListTagColor? || op.ListTagSettings?
      || op.ListTagRename? || op.ListVisibility?
  }

  ghost predicate ListChanged(a: Db, b: Db, op: Op)
    requires OnList(op)
  {
    op.list in a.lists && op.list in b.lists && ListMade(a.lists[op.list], b.lists[op.list], op)
  }

  lemma PlainChanges(db: Db, op: Op, env: Env)
    requires op.ListRename? || op.ListTagColor? || op.ListVisibility?
    requires Handle(db, op, env).answer.Applied?
    ensures ListChanged(db, Handle(db, op, env).db, op)
  {
    hide Strip, ListNameTaken, BaseOk;
  }

  lemma AddTagChanges(db: Db, op: Op, env: Env)
    requires op.ListTagAdd? && Handle(db, op, env).answer.Applied?
    ensures ListChanged(db, Handle(db, op, env).db, op)
  {
    assert Handle(db, op, env) == AddTag(db, op.list, op.tag);
    SortShape(db.lists[op.list].tags + [Strip(op.tag)]);
    hide Handle, Strip, SortTags;
  }

  lemma RemoveTagChanges(db: Db, op: Op, env: Env)
    requires op.ListTagRemove? && Handle(db, op, env).answer.Applied?
    ensures ListChanged(db, Handle(db, op, env).db, op)
  {
    assert Handle(db, op, env) == RemoveTag(db, op.list, op.tag);
    WithoutMembers(db.lists[op.list].tags, op.tag);
    hide Handle, Without;
  }

  lemma SettingsChange(db: Db, op: Op, env: Env)
    requires op.ListTagSettings? && Handle(db, op, env).answer.Applied?
    ensures ListChanged(db, Handle(db, op, env).db, op)
  {
    var row := db.lists[op.list];
    RetagKeepsLists(PutList(db, op.list, row.(settings := WantedSettings(row.settings, op))), env.order, op.list,
      KeepFirst(row.tags));
    hide Retag;
  }

  lemma RenamedRowIs(row: List, tag: string, name: string)
    requires tag in row.tags && tag != name
    ensures var b := RenamedRow(row, tag, name);
      && (forall t :: t in b.tags <==> (t in row.tags && t != tag) || t == name)
      && Plain(b) == Plain(row).(tags := b.tags, settings := row.settings.(colors :=
        if tag in row.settings.colors then (row.settings.colors - {tag})[name := row.settings.colors[tag]]
        else row.settings.colors))
  {
    ReplacedShape(row.tags, tag, name);
    SortShape(Replaced(row.tags, tag, name));
    hide SortTags;
    var replaced := Replaced(row.tags, tag, name);
    forall t ensures t in replaced <==> (t in row.tags && t != tag) || t == name {
      if t in row.tags && t != tag {
        var i :| 0 <= i < |row.tags| && row.tags[i] == t;
        assert replaced[i] == t;
      }
      if t == name {
        var i :| 0 <= i < |row.tags| && row.tags[i] == tag;
        assert replaced[i] == name;
      }
    }
  }

  lemma RenameChanges(db: Db, op: Op, env: Env)
    requires op.ListTagRename? && Handle(db, op, env).answer.Applied?
    ensures ListChanged(db, Handle(db, op, env).db, op)
  {
    var row, tag, name := db.lists[op.list], op.tag, Strip(op.newTag);
    if tag != name {
      RenamedRowIs(row, tag, name);
      RetagKeepsLists(PutList(db, op.list, RenamedRow(row, tag, name)), env.order, op.list, Rename(tag, name));
    }
    hide Strip, RenamedRow, Retag;
  }

  // The items of a list whose tag is renamed, or that switches to single

  /** The new name is there if the old one was, once, and the old one is not. */
  ghost predicate TagsRenamed(was: seq<string>, tags: seq<string>, tag: string, name: string) {
    Distinct(tags) && forall t :: t in tags <==> (t in was && t != tag) || t == name
  }

  /** In the list's order `s` does not come after `t`; tags that are not listed come last. */
  ghost predicate NotAfter(listTags: seq<string>, s: string, t: string) {
    && (t in listTags ==> s in listTags)
    && forall x, y :: 0 <= x < |listTags| && 0 <= y < |listTags| && listTags[x] == s && listTags[y] == t ==> x <= y
  }

  /** One tag is left: the first in the list's order, and the earliest of several that are not listed. */
  ghost predicate FirstKept(was: seq<string>, tags: seq<string>, listTags: seq<string>) {
    exists i :: 0 <= i < |was| && tags == [was[i]] && ComesFirst(was, listTags, i)
  }

  ghost predicate ComesFirst(was: seq<string>, listTags: seq<string>, i: int)
    requires 0 <= i < |was|
  {
    && (forall j :: 0 <= j < |was| ==> NotAfter(listTags, was[i], was[j]))
    && forall j :: 0 <= j < i ==> !NotAfter(listTags, was[j], was[i])
  }

  /** What an op on a list makes of the tags of an item. */
  ghost predicate TagsMade(a: Item, b: Item, op: Op, list: List)
    requires OnList(op)
  {
    match op
    case ListTagRename(l, tag, raw) =>
      if a.list == l && tag in a.tags && Strip(raw) != tag then TagsRenamed(a.tags, b.tags, tag, Strip(raw))
      else b.tags == a.tags
    case ListTagSettings(l, mode, _, _) =>
      if a.list == l && mode == Some(Single) && list.settings.mode != Single && |a.tags| >= 2
      then FirstKept(a.tags, b.tags, list.tags) else b.tags == a.tags
    case _ => b.tags == a.tags
  }

  lemma {:induction false} DictRankIs(tags: seq<string>, tag: string, missing: nat)
    ensures tag in tags ==> DictRank(tags, tag, missing) < |tags| && tags[DictRank(tags, tag, missing)] == tag
    ensures tag !in tags ==> DictRank(tags, tag, missing) == missing
  {
    if tags != [] {
      DictRankIs(tags[..|tags| - 1], tag, missing);
      assert tags == tags[..|tags| - 1] + [tags[|tags| - 1]];
    }
  }

  lemma RankOrders(listTags: seq<string>, s: string, t: string)
    requires Distinct(listTags)
    ensures ServerRank(listTags)(s) <= ServerRank(listTags)(t) <==> NotAfter(listTags, s, t)
  {
    DictRankIs(listTags, s, |listTags|);
    DictRankIs(listTags, t, |listTags|);
  }

  lemma KeptIsFirst(tags: seq<string>, listTags: seq<string>)
    requires Distinct(listTags) && tags != []
    ensures FirstKept(tags, [First(tags, ServerRank(listTags))], listTags)
  {
    var rank := ServerRank(listTags);
    FirstIsMinimum(tags, rank);
    var i :| 0 <= i < |tags| && tags[i] == First(tags, rank) && IsFirstMinimum(tags, rank, i);
    forall j | 0 <= j < |tags|
      ensures NotAfter(listTags, tags[i], tags[j]) && (j < i ==> !NotAfter(listTags, tags[j], tags[i]))
    {
      RankOrders(listTags, tags[i], tags[j]);
      RankOrders(listTags, tags[j], tags[i]);
    }
    assert ComesFirst(tags, listTags, i);
  }

  lemma SettingsSweep(db: Db, op: Op, env: Env, u: Uid)
    requires op.ListTagSettings? && EnvOk(db, env) && Handle(db, op, env).answer.Applied? && u in db.items
    requires Distinct(db.lists[op.list].tags)
    ensures var b := Handle(db, op, env).db; u in b.items && TagsMade(db.items[u], b.items[u], op, db.lists[op.list])
  {
    var row := db.lists[op.list];
    var mid, r := PutList(db, op.list, row.(settings := WantedSettings(row.settings, op))), KeepFirst(row.tags);
    Sim.RetagItems(mid, env.order, op.list, r);
    if |db.items[u].tags| >= 2 { KeptIsFirst(db.items[u].tags, row.tags); }
    hide Retag, FirstKept, First, ServerRank;
  }

  lemma RenameSweep(db: Db, op: Op, env: Env, u: Uid)
    requires op.ListTagRename? && EnvOk(db, env) && Handle(db, op, env).answer.Applied? && u in db.items
    ensures var b := Handle(db, op, env).db; u in b.items && TagsMade(db.items[u], b.items[u], op, db.lists[op.list])
  {
    var row, name := db.lists[op.list], Strip(op.newTag);
    if op.tag != name {
      Sim.RetagItems(PutList(db, op.list, RenamedRow(row, op.tag, name)), env.order, op.list, Rename(op.tag, name));
      RenamedShape(db.items[u].tags, op.tag, name);
    }
    hide Retag, Strip, RenamedRow, Renamed;
  }

  lemma ListChanges(db: Db, op: Op, env: Env)
    requires OnList(op) && Handle(db, op, env).answer.Applied?
    ensures ListChanged(db, Handle(db, op, env).db, op)
  {
    hide Handle, ListChanged;
    if op.ListTagAdd? {
      AddTagChanges(db, op, env);
    } else if op.ListTagRemove? {
      RemoveTagChanges(db, op, env);
    } else if op.ListTagSettings? {
      SettingsChange(db, op, env);
    } else if op.ListTagRename? {
      RenameChanges(db, op, env);
    } else {
      PlainChanges(db, op, env);
    }
  }

  lemma NoSweep(db: Db, op: Op, env: Env, u: Uid)
    requires OnList(op) && !op.ListTagSettings? && !op.ListTagRename? && EnvOk(db, env)
    requires Handle(db, op, env).answer.Applied? && u in db.items
    ensures Handle(db, op, env).db.items == db.items
  {
    AppliedTouches(db, op, env);
    hide Handle, OneList;
  }

  /**
    What an applied op makes of its row: of an item everything that is not a time or a count, of a
    list everything, and the tags of the list's items.
   */
  lemma AppliedChanges(db: Db, op: Op, env: Env)
    requires EnvOk(db, env) && Handle(db, op, env).answer.Applied?
    ensures var out := Handle(db, op, env);
      && (OnItem(op) ==> ItemChanged(db, out.db, op, out.answer))
      && (OnList(op) ==> ListChanged(db, out.db, op))
      && (OnList(op) && Distinct(db.lists[op.list].tags) ==> forall u :: u in db.items ==>
        u in out.db.items && TagsMade(db.items[u], out.db.items[u], op, db.lists[op.list]))
  {
    hide Handle, ItemChanged, ListChanged, EnvOk;
    if OnList(op) {
      ListChanges(db, op, env);
      assert op.list in db.lists by { OnLists(db, op, env); }
      forall u | u in db.items && Distinct(db.lists[op.list].tags)
        ensures var b := Handle(db, op, env).db;
          u in b.items && TagsMade(db.items[u], b.items[u], op, db.lists[op.list])
      {
        if op.ListTagSettings? {
          SettingsSweep(db, op, env, u);
        } else if op.ListTagRename? {
          RenameSweep(db, op, env, u);
        } else {
          NoSweep(db, op, env, u);
        }
      }
    } else if op.ItemAdd? {
      AddChanges(db, op, env);
    } else if op.ItemRestore? {
      RestoreChanges(db, op, env);
    } else if op.ItemEdit? {
      EditChanges(db, op, env);
    } else if op.ItemToggleTag? {
      ToggleChanges(db, op, env);
    } else if OnItem(op) {
      RowChanges(db, op, env);
    }
  }

  lemma OnLists(db: Db, op: Op, env: Env)
    requires OnList(op) && Handle(db, op, env).answer.Applied?
    ensures op.list in db.lists
  {
    ListChanges(db, op, env);
    hide Handle;
  }
}

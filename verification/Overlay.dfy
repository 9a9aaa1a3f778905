/** The optimistic overlay (overlay.ts): pending ops projected on the server data, in order. */
module Overlay {
  import opened RoomModel
  import opened Texts
  import opened TagRules

  /** A delta adds and a toggle without the wanted state flips: applied twice, they count twice. */
  predicate CountsTwice(op: Op) {
    op.ItemQuantityDelta? || (op.ItemToggleTag? && op.active.None?)
  }

  /** Every op type but `list.create` is projected. */
  predicate IsProjected(op: Op) { !op.ListCreate? }

  /** A row this page created: its version is the placeholder until the server answers. */
  const NEW_ROW_SEQ: nat := 0

  function PageRank(listTags: seq<string>): string -> nat { t => IndexRank(listTags, t) }

  // Lists

  /** The list after a tag rename; None if the rename would be refused. */
  function RenamedList(row: List, tag: string, newTag: string): Option<List> {
    var name := JsTrim(newTag);
    if tag !in row.tags || name == [] || JsLength(name) > MAX_TAG_LENGTH then None
    else if name == tag then Some(row)
    else if name in row.tags then None
    else
      var colors := row.settings.colors;
      var moved := if tag in colors then colors[name := colors[tag]] - {tag} else colors;
      Some(row.(tags := SortTags(Replaced(row.tags, tag, name)), settings := row.settings.(colors := moved)))
  }

  function ListAfter(row: List, op: Op): List {
    match op
    case ListRename(_, name, _) => row.(name := JsTrim(name))
    case ListTagAdd(_, raw) =>
      var tag := JsTrim(raw);
      if tag == [] || tag in row.tags then row else row.(tags := SortTags(row.tags + [tag]))
    case ListTagRemove(_, tag) =>
      row.(tags := Without(row.tags, tag), settings := row.settings.(colors := row.settings.colors - {tag}))
    case ListTagColor(_, tag, color) =>
      if tag !in row.tags then row
      else row.(settings := row.settings.(colors :=
        if color.None? then row.settings.colors - {tag} else row.settings.colors[tag := color.value]))
    case ListTagSettings(_, mode, show, only) =>
      row.(settings :=
        row.settings.(mode := Keep(mode, row.settings.mode), showOnItems := Keep(show, row.settings.showOnItems),
                                     onlyItemTags := Keep(only, row.settings.onlyItemTags)))
    case ListVisibility(_, mode, days, count) =>
      row.(hide := Hide(Keep(mode, row.hide.mode), Keep(days, row.hide.ageDays), Keep(count, row.hide.recentCount)))
    case _ => row
  }

  function RenameItemTags(items: map<Uid, Item>, l: Uid, tag: string, newTag: string): map<Uid, Item> {
    map u | u in items ::
      if items[u].list == l && tag in items[u].tags then items[u].(tags := Renamed(items[u].tags, tag, newTag))
          else items[u]
  }

  function KeepFirstItemTag(items: map<Uid, Item>, l: Uid, listTags: seq<string>): map<Uid, Item> {
    map u | u in items ::
      if items[u].list == l && |items[u].tags| >= 2 then items[u].(tags := [First(items[u].tags, PageRank(listTags))])
          else items[u]
  }

  // Items

  function ItemAfter(row: Item, op: Op, at: Time, single: bool): Item {
    match op
    case ItemSetDone(_, _, done, _) =>
      if !done then
        if !row.done then row.(done := false, completedAt := None)
        else row.(done := false, completedAt := None, addCount := row.addCount + 1, addedAt := Some(at))
      else if row.done then row else row.(done := true, completedAt := Some(at))
    case ItemQuantityDelta(_, _, delta) => row.(quantity := Max(1, row.quantity + delta))
    case ItemEdit(_, _, name, description, quantity, date, time, zone, _) =>
      var newDate := if date.Unsent? then row.due.date else date.value;
      var newTime := if newDate.None? then None else if time.Unsent? then row.due.time else time.value;
      var newZone := if newTime.None? then None else if zone.Unsent? then row.due.zone else zone.value;
      var due := Due(newDate, newTime, newZone);
      row.(name := Strip(name), description := JsTrim(description),
           quantity := if quantity.None? then row.quantity else Max(1, quantity.value),
           due := due, dueAt := if due != row.due then None else row.dueAt)
    case ItemToggleTag(_, _, tag, active) =>
      var on := Keep(active, tag !in row.tags);
      if !on then row.(tags := Without(row.tags, tag))
      else if single then (if row.tags == [tag] then row else row.(tags := [tag]))
      else if tag in row.tags then row else row.(tags := row.tags + [tag])
    case _ => row
  }

  function NewRow(l: Uid, name: string): Item {
    Item(l, name, false, None, 1, "", NO_DUE, None, [], 1, None, None, NEW_ROW_SEQ)
  }

  predicate SameName(items: map<Uid, Item>, u: Uid, l: Uid, key: string) {
    u in items && items[u].list == l && NameKey(items[u].name) == key
  }

  predicate NameOpen(items: map<Uid, Item>, l: Uid, key: string) {
    exists u | u in items :: SameName(items, u, l, key) && !items[u].done
  }

  predicate NameUsed(items: map<Uid, Item>, l: Uid, key: string) {
    exists u | u in items :: SameName(items, u, l, key)
  }

  /** The checked item an add would put back: one of those with the name. */
  ghost function CheckedItem(items: map<Uid, Item>, l: Uid, key: string): (u: Uid)
    requires NameUsed(items, l, key)
    ensures SameName(items, u, l, key)
  {
    var u :| SameName(items, u, l, key);
    u
  }

  /** Add or put back, as the server does it. */
  ghost function ProjectAdd(v: View, l: Uid, raw: string, uid: Option<Uid>, at: Time): View {
    var name := Strip(raw);
    var key := NameKey(name);
    if NameOpen(v.items, l, key) then v
    else if NameUsed(v.items, l, key) then
      var u := CheckedItem(v.items, l, key);
      v.(items :=
        v.items[u :=
        v.items[u].(done := false, completedAt := None, addCount := v.items[u].addCount + 1, addedAt := Some(at))])
    else if uid.None? || l !in v.lists || uid.value in v.items then v
    else v.(items := v.items[uid.value := NewRow(l, name).(addedAt := Some(at))])
  }

  function RestoredRow(op: Op): Item
    requires op.ItemRestore?
  {
    var time := if op.due.date.Some? then op.due.time else None;
    NewRow(op.list, Strip(op.name)).(
      done := op.done, completedAt := if op.done then op.completedAt else None, tags := op.tags,
      description := JsTrim(op.description), quantity := op.amount,
      due := Due(op.due.date, time, if time.Some? then op.due.zone else None),
      addCount := Keep(op.addCount, 1), addedAt := op.addedAt)
  }

  /** Undo of a delete: a new row with the kept data, unless the name is taken. */
  function ProjectRestore(v: View, op: Op): View
    requires op.ItemRestore?
  {
    if op.uid.None? || op.list !in v.lists || op.uid.value in v.items
        || NameUsed(v.items, op.list, NameKey(Strip(op.name))) then v
    else v.(items := v.items[op.uid.value := RestoredRow(op)])
  }

  function ProjectTagSettings(v: View, l: Uid, op: Op): View
    requires op.ListTagSettings?
  {
    if l !in v.lists then v else
    var next := ListAfter(v.lists[l], op);
    v.(lists := v.lists[l := next],
       items := if next.settings.mode == Single && v.lists[l].settings.mode != Single
                then KeepFirstItemTag(v.items, l, next.tags) else v.items)
  }

  function ProjectTagRename(v: View, l: Uid, tag: string, newTag: string): View {
    if l !in v.lists then v else
    match RenamedList(v.lists[l], tag, newTag)
    case None => v
    case Some(row) => v.(lists := v.lists[l := row], items := RenameItemTags(v.items, l, tag, JsTrim(newTag)))
  }

  /** One op on the view. An op on a missing row does nothing. */
  ghost function Project(v: View, op: Op, at: Time): View {
    match op
    case RoomRename(name) => v.(name := JsTrim(name))
    case ListCreate(_, _) => v
    case ItemAdd(l, name, uid) => ProjectAdd(v, l, name, uid, at)
    case ItemRestore(_, _, _, _, _, _, _, _, _, _, _) => ProjectRestore(v, op)
    case ItemDelete(l, u) => if u in v.items && v.items[u].list == l then v.(items := v.items - {u}) else v
    case ListDelete(l) =>
      if l !in v.lists then v
      else v.(lists := v.lists - {l}, items := map u | u in v.items && v.items[u].list != l :: v.items[u])
    case ListTagSettings(l, _, _, _) => ProjectTagSettings(v, l, op)
    case ListTagRename(l, tag, newTag) => ProjectTagRename(v, l, tag, newTag)
    case ListRename(l, _, _) => ProjectOnList(v, l, op)
    case ListTagAdd(l, _) => ProjectOnList(v, l, op)
    case ListTagRemove(l, _) => ProjectOnList(v, l, op)
    case ListTagColor(l, _, _) => ProjectOnList(v, l, op)
    case ListVisibility(l, _, _, _) => ProjectOnList(v, l, op)
    case ItemSetDone(l, u, _, _) => ProjectOnItem(v, l, u, op, at)
    case ItemQuantityDelta(l, u, _) => ProjectOnItem(v, l, u, op, at)
    case ItemEdit(l, u, _, _, _, _, _, _, _) => ProjectOnItem(v, l, u, op, at)
    case ItemToggleTag(l, u, _, _) => ProjectOnItem(v, l, u, op, at)
  }

  function ProjectOnList(v: View, l: Uid, op: Op): View {
    if l in v.lists then v.(lists := v.lists[l := ListAfter(v.lists[l], op)]) else v
  }

  function ProjectOnItem(v: View, l: Uid, u: Uid, op: Op, at: Time): View {
    if u in v.items && v.items[u].list == l
    then v.(items := v.items[u := ItemAfter(v.items[u], op, at, l in v.lists && v.lists[l].settings.mode == Single)])
    else v
  }

  /** An op the server has not confirmed: `appliedSeq` is the room seq once it answered. */
  datatype PendingOp = PendingOp(sent: SentOp, at: Time, appliedSeq: Option<nat>, uncertain: bool)

  predicate Skipped(p: PendingOp) { p.uncertain && CountsTwice(p.sent.op) }

  ghost function ProjectAll(v: View, pending: seq<PendingOp>): View {
    if pending == [] then v
    else
      var p := pending[|pending| - 1];
      var before := ProjectAll(v, pending[..|pending| - 1]);
      if Skipped(p) then before else Project(before, p.sent.op, p.at)
  }

  /** A row an answered op changed: its new version, until the feed reaches `appliedSeq`. */
  datatype Row = ListRow(uid: Uid) | ItemRow(uid: Uid)
  datatype AnsweredSeq = AnsweredSeq(row: Row, changedSeq: nat, appliedSeq: nat)

  function ShowAnswer(v: View, a: AnsweredSeq): View {
    match a.row
    case ListRow(l) => if l in v.lists then v.(lists := v.lists[l := v.lists[l].(changedSeq := a.changedSeq)]) else v
    case ItemRow(u) => if u in v.items then v.(items := v.items[u := v.items[u].(changedSeq := a.changedSeq)]) else v
  }

  function ShowAnswers(v: View, answered: seq<AnsweredSeq>): View {
    if answered == [] then v
    else ShowAnswer(ShowAnswers(v, answered[..|answered| - 1]), answered[|answered| - 1])
  }
}

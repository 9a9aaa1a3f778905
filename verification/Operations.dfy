/**
  The 17 op handlers (src/api/ops.py) and the writers they call (src/database_crud.py), as
  functions on the tables. Every row write goes through the tracked statements of Tracking.
 */
module Operations {
  import opened RoomModel
  import opened Texts
  import opened TagRules
  import opened Tracking

  datatype Outcome = Outcome(db: Db, answer: Answer)

  function Refuse(db: Db, code: Code): Outcome { Outcome(db, Rejected(code, None)) }

  function ListDone(db: Db, l: Uid): Outcome
    requires l in db.lists
  {
    Outcome(db, Applied(Some(db.lists[l].changedSeq), None))
  }

  function ItemDone(db: Db, u: Uid): Outcome
    requires u in db.items
  {
    Outcome(db, Applied(Some(db.items[u].changedSeq), None))
  }

  /** The row is as the page saw it, or already says what the op wants. */
  predicate BaseOk(base: Option<nat>, changedSeq: nat, alreadyStored: bool) {
    base.None? || changedSeq <= base.value || alreadyStored
  }

  datatype Checked = Good(text: string) | Bad(code: Code)

  function CheckedName(raw: string, limit: nat): Checked {
    var name := Strip(raw);
    if name == [] then Bad(InvalidName) else if |name| > limit then Bad(TooLong) else Good(name)
  }

  predicate NewUidTaken(db: Db, uid: Option<Uid>, env: Env) {
    uid.Some? && (InUse(db, uid.value) || uid.value in env.elsewhere)
  }

  function NewUid(uid: Option<Uid>, env: Env): Uid { Keep(uid, env.newUid) }

  predicate HasItem(db: Db, l: Uid, u: Uid) { u in db.items && db.items[u].list == l }

  // Names

  predicate Names(db: Db, l: Uid, u: Uid, key: string) { HasItem(db, l, u) && NameKey(db.items[u].name) == key }

  /** The item of the list with this name key (the database allows one). */
  ghost function Named(db: Db, l: Uid, key: string): (r: Option<Uid>)
    ensures r.Some? ==> Names(db, l, r.value, key)
    ensures r.None? ==> forall u :: !Names(db, l, u, key)
  {
    if u :| Names(db, l, u, key) then Some(u) else None
  }

  /** Another item of the list has the name. */
  predicate NameTaken(db: Db, l: Uid, key: string, except: Option<Uid>) {
    exists x | x in db.items :: Names(db, l, x, key) && Some(x) != except
  }

  predicate ListNamed(db: Db, l: Uid, key: string) { l in db.lists && ListKey(db.lists[l].name) == key }

  predicate ListNameTaken(db: Db, key: string, except: Option<Uid>) {
    exists x | x in db.lists :: ListNamed(db, x, key) && Some(x) != except
  }

  function ItemsOf(items: map<Uid, Item>, l: Uid): set<Uid> { set u | u in items && items[u].list == l }

  // Rooms and lists

  function RenameRoom(db: Db, raw: string): Outcome {
    match CheckedName(raw, MAX_NAME_LENGTH)
    case Bad(code) => Refuse(db, code)
    case Good(name) => Outcome(if name == db.name then db else PutName(db, name), Applied(None, None))
  }

  const NEW_LIST := List("", [], Hide(Off, 7, 10), TagSettings(Multi, true, false, map[]), 0)

  function CreateList(db: Db, raw: string, uid: Option<Uid>, env: Env): Outcome {
    if NewUidTaken(db, uid, env) then Outcome(db, HttpError) else
    match CheckedName(raw, MAX_NAME_LENGTH)
    case Bad(code) => Refuse(db, code)
    case Good(name) =>
      if ListNameTaken(db, ListKey(name), None) then Outcome(db, Applied(None, None))
      else if |db.lists| >= MAX_LISTS_PER_ROOM then Refuse(db, TooMany)
      else Outcome(PutList(db, NewUid(uid, env), NEW_LIST.(name := name)), Applied(None, None))
  }

  function RenameList(db: Db, l: Uid, raw: string, base: Option<nat>): Outcome {
    if l !in db.lists then Refuse(db, ListUnavailable) else
    match CheckedName(raw, MAX_NAME_LENGTH)
    case Bad(code) => Refuse(db, code)
    case Good(name) =>
      var row := db.lists[l];
      if !BaseOk(base, row.changedSeq, row.name == name) then Refuse(db, ChangedMeanwhile)
      else if ListNameTaken(db, ListKey(name), Some(l)) then Refuse(db, DuplicateName)
      else if row.name == name then ListDone(db, l)
      else ListDone(PutList(db, l, row.(name := name)), l)
  }

  /** Items first, one delete per row, in the order the rows are visited. */
  function DropItems(db: Db, order: seq<Uid>, l: Uid, now: Time): Db
    decreases |order|
  {
    if order == [] then db
    else DropItems(if HasItem(db, l, order[0]) then DropItem(db, order[0], now) else db, order[1..], l, now)
  }

  function DeleteList(db: Db, l: Uid, env: Env): Outcome {
    if l !in db.lists then Refuse(db, ListUnavailable)
    else Outcome(DropList(DropItems(db, env.order, l, env.now), l, env.now), Applied(None, None))
  }

  function AddTag(db: Db, l: Uid, raw: string): Outcome {
    if l !in db.lists then Refuse(db, ListUnavailable) else
    match CheckedName(raw, MAX_TAG_LENGTH)
    case Bad(code) => Refuse(db, code)
    case Good(tag) =>
      var row := db.lists[l];
      if tag in row.tags then ListDone(db, l)
      else if |row.tags| >= MAX_TAGS_PER_LIST then Refuse(db, TooMany)
      else ListDone(PutList(db, l, row.(tags := SortTags(row.tags + [tag]))), l)
  }

  function RemoveTag(db: Db, l: Uid, tag: string): Outcome {
    if l !in db.lists then Refuse(db, ListUnavailable) else
    var row := db.lists[l];
    var tags, colors := Without(row.tags, tag), row.settings.colors - {tag};
    if tags == row.tags && colors == row.settings.colors then ListDone(db, l)
    else ListDone(PutList(db, l, row.(tags := tags, settings := row.settings.(colors := colors))), l)
  }

  function ColorTag(db: Db, l: Uid, tag: string, color: Option<int>): Outcome {
    if l !in db.lists then Refuse(db, ListUnavailable) else
    var row := db.lists[l];
    if tag !in row.tags then Refuse(db, UnknownTag) else
    var colors := if color.None? then row.settings.colors - {tag} else row.settings.colors[tag := color.value];
    if colors == row.settings.colors then ListDone(db, l)
    else ListDone(PutList(db, l, row.(settings := row.settings.(colors := colors))), l)
  }

  /** The two ways a list op rewrites the tags of its items. */
  datatype Retagging = KeepFirst(listTags: seq<string>) | Rename(tag: string, newTag: string)

  predicate Affects(r: Retagging, tags: seq<string>) {
    match r
    case KeepFirst(_) => |tags| >= 2
    case Rename(tag, _) => tag in tags
  }

  function ServerRank(listTags: seq<string>): string -> nat { t => DictRank(listTags, t, |listTags|) }

  function Retagged(r: Retagging, tags: seq<string>): seq<string>
    requires Affects(r, tags)
  {
    match r
    case KeepFirst(listTags) => [First(tags, ServerRank(listTags))]
    case Rename(tag, newTag) => TagRules.Renamed(tags, tag, newTag)
  }

  function RetagRow(row: Item, l: Uid, r: Retagging): Item {
    if row.list == l && Affects(r, row.tags) then row.(tags := Retagged(r, row.tags)) else row
  }

  /** One UPDATE per affected item of the list, in the order the rows are visited. */
  function Retag(db: Db, order: seq<Uid>, l: Uid, r: Retagging): Db
    decreases |order|
  {
    if order == [] then db
    else Retag(if HasItem(db, l, order[0]) && Affects(r, db.items[order[0]].tags)
               then PutItem(db, order[0], RetagRow(db.items[order[0]], l, r)) else db, order[1..], l, r)
  }

  function WantedSettings(stored: TagSettings, op: Op): TagSettings
    requires op.ListTagSettings?
  {
    stored.(mode := Keep(op.mode, stored.mode), showOnItems := Keep(op.show, stored.showOnItems),
            onlyItemTags := Keep(op.only, stored.onlyItemTags))
  }

  function SetTagSettings(db: Db, l: Uid, op: Op, env: Env): Outcome
    requires op.ListTagSettings?
  {
    if l !in db.lists then Refuse(db, ListUnavailable) else
    var row := db.lists[l];
    var wanted := WantedSettings(row.settings, op);
    if wanted == row.settings then ListDone(db, l) else
    var set' := PutList(db, l, row.(settings := wanted));
    if wanted.mode == Single && row.settings.mode != Single then
      var kept := Retag(set', env.order, l, KeepFirst(row.tags));
      RetagKeepsLists(set', env.order, l, KeepFirst(row.tags));
      ListDone(kept, l)
    else ListDone(set', l)
  }

  lemma {:induction false} RetagKeepsLists(db: Db, order: seq<Uid>, l: Uid, r: Retagging)
    ensures Retag(db, order, l, r).lists == db.lists
    decreases |order|
  {
    if order != [] {
      RetagKeepsLists(if HasItem(db, l, order[0]) && Affects(r, db.items[order[0]].tags)
               then PutItem(db, order[0], RetagRow(db.items[order[0]], l, r)) else db, order[1..], l, r);
    }
  }

  /** The list row after a rename of one of its tags: the tag's colour moves with it. */
  function RenamedRow(row: List, tag: string, newTag: string): List {
    var colors := row.settings.colors;
    row.(tags := SortTags(Replaced(row.tags, tag, newTag)),
         settings := row.settings.(colors := if tag in colors then (colors - {tag})[newTag := colors[tag]] else colors))
  }

  function RenameTag(db: Db, l: Uid, tag: string, raw: string, env: Env): Outcome {
    if l !in db.lists then Refuse(db, ListUnavailable) else
    match CheckedName(raw, MAX_TAG_LENGTH)
    case Bad(code) => Refuse(db, code)
    case Good(newTag) =>
      var row := db.lists[l];
      if tag !in row.tags then Refuse(db, UnknownTag)
      else if tag == newTag then ListDone(db, l)
      else if newTag in row.tags then Refuse(db, DuplicateName)
      else
        var set' := PutList(db, l, RenamedRow(row, tag, newTag));
        RetagKeepsLists(set', env.order, l, Rename(tag, newTag));
        ListDone(Retag(set', env.order, l, Rename(tag, newTag)), l)
  }

  predicate VisibleRange(h: Hide) { 1 <= h.ageDays <= MAX_HIDE_DONE_COUNT && 1 <= h.recentCount <= MAX_HIDE_DONE_COUNT }

  function SetVisibility(db: Db, l: Uid, op: Op): Outcome
    requires op.ListVisibility?
  {
    if l !in db.lists then Refuse(db, ListUnavailable) else
    var row := db.lists[l];
    var wanted :=
        Hide(Keep(op.hideMode, row.hide.mode), Keep(op.ageDays, row.hide.ageDays),
        Keep(op.recentCount, row.hide.recentCount));
    if !VisibleRange(wanted) then Outcome(db, HttpError)
    else if wanted == row.hide then ListDone(db, l)
    else ListDone(PutList(db, l, row.(hide := wanted)), l)
  }

  // Due schedules

  /** A 24-hour clock time, HH:MM. */
  predicate ClockTime(s: string) {
    && |s| == 5 && s[2] == ':' && '0' <= s[0] <= '2' && '0' <= s[1] <= '9' && (s[0] == '2' ==> s[1] <= '3')
    && '0' <= s[3] <= '5' && '0' <= s[4] <= '9'
  }

  /** The schedule if its parts go together (`checked_due_schedule`). */
  function CheckedDue(date: Option<string>, time: Option<string>, zone: Option<string>): Option<Due> {
    if date.None? then (if time.Some? || zone.Some? then None else Some(NO_DUE))
    else if time.None? then (if zone.Some? then None else Some(Due(date, None, None)))
    else if zone.None? || !ClockTime(time.value) then None
    else Some(Due(date, time, zone))
  }

  function Merge(f: Field, stored: Option<string>): Option<string> { if f.Sent? then f.value else stored }
  predicate Given(f: Field) { f.Sent? && f.value.Some? }

  /** What an edit wants: a part not sent keeps the stored value (`merge_due_edit`). */
  function MergeDue(stored: Due, date: Field, time: Field, zone: Field): Option<Due> {
    if date.Unsent? && time.Unsent? && zone.Unsent? then Some(stored) else
    var newDate := Merge(date, stored.date);
    if newDate.None? then (if Given(time) || Given(zone) then None else Some(NO_DUE)) else
    var newTime := Merge(time, stored.time);
    if newTime.None? then (if Given(zone) then None else Some(Due(newDate, None, None)))
    else CheckedDue(newDate, newTime, Merge(zone, stored.zone))
  }

  datatype Resolution = Instant(at: Time) | NoZone | OutsideCalendar

  /** The zone data and calendar (see ZonedTime): fixed, and of no concern here. */
  const Resolve: (string, string, string) -> Resolution

  function DueAt(due: Due): Resolution
    requires due.date.Some? && due.time.Some? && due.zone.Some?
  {
    Resolve(due.date.value, due.time.value, due.zone.value)
  }

  predicate Timed(due: Due) { due.date.Some? && due.time.Some? && due.zone.Some? }

  /** Why the schedule cannot be stored, if so (`_due_resolved`). */
  function Unresolved(due: Due): Option<Code> {
    if !Timed(due) then None
    else match DueAt(due)
      case Instant(_) => None
      case NoZone => Some(Code.TimeZoneUnavailable)
      case OutsideCalendar => Some(InvalidDue)
  }

  function StoredDueAt(due: Due): Option<Time> {
    if Timed(due) && DueAt(due).Instant? then Some(DueAt(due).at) else None
  }

  function NewCycle(due: Due, env: Env): Option<Cycle> {
    if due.date.Some? then Some(Cycle(env.cycle, env.now)) else None
  }

  // Items

  /** Unchecking puts an item back on the list: an add, and a new due cycle. */
  function Unchecked(row: Item, env: Env): Item {
    row.(done := false, completedAt := None, addCount := row.addCount + 1, addedAt := Some(env.now),
      cycle := NewCycle(row.due, env))
  }

  function NewItem(l: Uid, name: string): Item {
    Item(l, name, false, None, 1, "", NO_DUE, None, [], 1, None, None, 0)
  }

  ghost function AddItem(db: Db, l: Uid, raw: string, uid: Option<Uid>, env: Env): Outcome {
    if NewUidTaken(db, uid, env) then Outcome(db, HttpError)
    else if l !in db.lists then Refuse(db, ListUnavailable) else
    match CheckedName(raw, MAX_NAME_LENGTH)
    case Bad(code) => Refuse(db, code)
    case Good(name) =>
      match Named(db, l, NameKey(name))
      case Some(u) =>
        if !db.items[u].done then Outcome(db, Rejected(DuplicateActive, Some(u)))
        else Kept(PutItem(db, u, Unchecked(db.items[u], env)), u)
      case None =>
        if |ItemsOf(db.items, l)| >= MAX_ITEMS_PER_LIST then Refuse(db, TooMany)
        else Kept(PutItem(db, NewUid(uid, env), NewItem(l, name).(addedAt := Some(env.now))), NewUid(uid, env))
  }

  /** An answer that names the item: `item.add` and `item.restore`. */
  function Kept(db: Db, u: Uid): Outcome
    requires u in db.items
  {
    Outcome(db, Applied(Some(db.items[u].changedSeq), Some(u)))
  }

  function SetDone(db: Db, l: Uid, u: Uid, done: bool, base: Option<nat>, env: Env): Outcome {
    if l !in db.lists then Refuse(db, ListUnavailable)
    else if !HasItem(db, l, u) then Refuse(db, ItemNotFound) else
    var row := db.items[u];
    if !BaseOk(base, row.changedSeq, row.done == done) then Refuse(db, ChangedMeanwhile)
    else if row.done == done then ItemDone(db, u)
    else if done then ItemDone(PutItem(db, u, row.(done := true, completedAt := Some(env.now))), u)
    else ItemDone(PutItem(db, u, Unchecked(row, env)), u)
  }

  function AdjustQuantity(db: Db, l: Uid, u: Uid, delta: int): Outcome {
    if l !in db.lists then Refuse(db, ListUnavailable)
    else if !HasItem(db, l, u) then Refuse(db, ItemNotFound) else
    var row := db.items[u];
    var quantity := Max(1, row.quantity + delta);
    if quantity == row.quantity then ItemDone(db, u)
    else ItemDone(PutItem(db, u, row.(quantity := quantity)), u)
  }

  function Edited(row: Item, name: string, description: string, quantity: Option<int>, due: Due, env: Env): Item {
    var edited := row.(name := name, description := description, quantity := Keep(quantity, row.quantity));
    if due == row.due then edited
    else edited.(due := due, dueAt := StoredDueAt(due), cycle := NewCycle(due, env))
  }

  function EditItem(db: Db, l: Uid, u: Uid, op: Op, env: Env): Outcome
    requires op.ItemEdit?
  {
    if l !in db.lists then Refuse(db, ListUnavailable)
    else if !HasItem(db, l, u) then Refuse(db, ItemNotFound) else
    match CheckedName(op.name, MAX_NAME_LENGTH)
    case Bad(code) => Refuse(db, code)
    case Good(name) =>
      var description := Strip(op.description);
      if |description| > MAX_DESCRIPTION_LENGTH then Refuse(db, TooLong) else
      var quantity: Option<int> := if op.quantity.None? then None else Some(Max(1, op.quantity.value));
      var row := db.items[u];
      match MergeDue(row.due, op.date, op.time, op.zone)
      case None => Refuse(db, InvalidDue)
      case Some(due) =>
        var stored := row.name == name && row.description == description
            && (quantity.None? || quantity.value == row.quantity)
                      && due == row.due;
        if !BaseOk(op.base, row.changedSeq, stored) then Refuse(db, ChangedMeanwhile)
        else if due != row.due && Unresolved(due).Some? then Refuse(db, Unresolved(due).value)
        else if NameTaken(db, l, NameKey(name), Some(u)) then Refuse(db, DuplicateName)
        else if stored then ItemDone(db, u)
        else ItemDone(PutItem(db, u, Edited(row, name, description, quantity, due, env)), u)
  }

  function ToggledTags(tags: seq<string>, tag: string, active: Option<bool>, single: bool): seq<string> {
    var on := Keep(active, tag !in tags);
    if !on then Without(tags, tag)
    else if single then [tag]
    else if tag in tags then tags else tags + [tag]
  }

  function ToggleTag(db: Db, l: Uid, u: Uid, tag: string, active: Option<bool>): Outcome {
    if l !in db.lists then Refuse(db, ListUnavailable)
    else if !HasItem(db, l, u) then Refuse(db, ItemNotFound) else
    var row := db.items[u];
    var wanted := ToggledTags(row.tags, tag, active, db.lists[l].settings.mode == Single);
    if wanted == row.tags then ItemDone(db, u)
    else ItemDone(PutItem(db, u, row.(tags := wanted)), u)
  }

  function DeleteItem(db: Db, l: Uid, u: Uid, env: Env): Outcome {
    if l !in db.lists then Refuse(db, ListUnavailable)
    else Outcome(if HasItem(db, l, u) then DropItem(db, u, env.now) else db, Applied(None, None))
  }

  function RestoredItem(op: Op, name: string, due: Due, env: Env): Item
    requires op.ItemRestore?
  {
    Item(op.list, name, op.done, if op.done then op.completedAt else None, Max(1, op.amount), op.description,
         due, StoredDueAt(due), op.tags, Keep(op.addCount, 1), op.addedAt, NewCycle(due, env), 0)
  }

  function RestoreItem(db: Db, op: Op, env: Env): Outcome
    requires op.ItemRestore?
  {
    if NewUidTaken(db, op.uid, env) then Outcome(db, HttpError)
    else if op.list !in db.lists then Refuse(db, ListUnavailable) else
    match MergeDue(NO_DUE, Sent(op.due.date), Sent(op.due.time), Sent(op.due.zone))
    case None => Refuse(db, InvalidDue)
    case Some(due) =>
      if Unresolved(due).Some? then Refuse(db, Unresolved(due).value) else
      match CheckedName(op.name, MAX_NAME_LENGTH)
      case Bad(code) => Refuse(db, code)
      case Good(name) =>
        if |op.description| > MAX_DESCRIPTION_LENGTH then Refuse(db, TooLong)
        else if NameTaken(db, op.list, NameKey(name), None) then Refuse(db, UndoNameTaken)
        else if |ItemsOf(db.items, op.list)| >= MAX_ITEMS_PER_LIST then Refuse(db, TooMany)
        else Kept(PutItem(db, NewUid(op.uid, env), RestoredItem(op, name, due, env)), NewUid(op.uid, env))
  }

  ghost function Handle(db: Db, op: Op, env: Env): Outcome {
    match op
    case RoomRename(name) => RenameRoom(db, name)
    case ListCreate(name, uid) => CreateList(db, name, uid, env)
    case ListRename(l, name, base) => RenameList(db, l, name, base)
    case ListDelete(l) => DeleteList(db, l, env)
    case ListTagAdd(l, tag) => AddTag(db, l, tag)
    case ListTagRemove(l, tag) => RemoveTag(db, l, tag)
    case ListTagSettings(l, _, _, _) => SetTagSettings(db, l, op, env)
    case ListTagColor(l, tag, color) => ColorTag(db, l, tag, color)
    case ListTagRename(l, tag, newTag) => RenameTag(db, l, tag, newTag, env)
    case ListVisibility(l, _, _, _) => SetVisibility(db, l, op)
    case ItemAdd(l, name, uid) => AddItem(db, l, name, uid, env)
    case ItemSetDone(l, u, done, base) => SetDone(db, l, u, done, base, env)
    case ItemQuantityDelta(l, u, delta) => AdjustQuantity(db, l, u, delta)
    case ItemEdit(l, u, _, _, _, _, _, _, _) => EditItem(db, l, u, op, env)
    case ItemToggleTag(l, u, tag, active) => ToggleTag(db, l, u, tag, active)
    case ItemDelete(l, u) => DeleteItem(db, l, u, env)
    case ItemRestore(_, _, _, _, _, _, _, _, _, _, _) => RestoreItem(db, op, env)
  }

  /** What SQLite and the random source guarantee about an operation's surroundings. */
  ghost predicate EnvOk(db: Db, env: Env) {
    && (forall u :: u in db.items ==> u in env.order)
    && !InUse(db, env.newUid)
  }
}

/** What every op handler keeps: it is a script of tracked statements, and the room rules hold after it. */
module RoomRules {
  import opened RoomModel
  import opened Texts
  import opened TagRules
  import opened Tracking
  import opened Operations

  // Each op is a script of statements, so what holds of every history holds of every run of ops.

  lemma One(db: Db, s: Stmt)
    requires Allowed(db, s)
    ensures RunAllowed(db, [s]) && Run(db, [s]) == Exec(db, s)
  {
    assert [s][1..] == [] && RunAllowed(Exec(db, s), []);
    assert Run(Exec(db, s), [s][1..]) == Exec(db, s);
  }

  lemma {:induction false} RetagScript(db: Db, order: seq<Uid>, l: Uid, r: Retagging) returns (run: seq<Stmt>)
    requires l in db.lists
    ensures RunAllowed(db, run) && Run(db, run) == Retag(db, order, l, r)
    decreases |order|
  {
    run := [];
    if order != [] {
      var u := order[0];
      if HasItem(db, l, u) && Affects(r, db.items[u].tags) {
        var s := PutItemS(u, RetagRow(db.items[u], l, r));
        var rest := RetagScript(Exec(db, s), order[1..], l, r);
        run := [s] + rest;
        assert run[1..] == rest;
      } else {
        run := RetagScript(db, order[1..], l, r);
      }
    }
  }

  lemma {:induction false} DropItemsScript(db: Db, order: seq<Uid>, l: Uid, now: Time) returns (run: seq<Stmt>)
    ensures RunAllowed(db, run) && Run(db, run) == DropItems(db, order, l, now)
    decreases |order|
  {
    run := [];
    if order != [] {
      var u := order[0];
      if HasItem(db, l, u) {
        var s := DropItemS(u, now);
        var rest := DropItemsScript(Exec(db, s), order[1..], l, now);
        run := [s] + rest;
        assert run[1..] == rest;
      } else {
        run := DropItemsScript(db, order[1..], l, now);
      }
    }
  }

  /** Which items are left when the items of a list were deleted. */
  lemma {:induction false} DropItemsLeft(db: Db, order: seq<Uid>, l: Uid, now: Time)
    ensures DropItems(db, order, l, now).items == map u | u in db.items && !(db.items[u].list == l && u in order) ::
      db.items[u]
    ensures DropItems(db, order, l, now).lists == db.lists && DropItems(db, order, l, now).name == db.name
    decreases |order|
  {
    if order != [] {
      var u := order[0];
      DropItemsLeft(if HasItem(db, l, u) then DropItem(db, u, now) else db, order[1..], l, now);
      assert forall x :: x in order <==> x == u || x in order[1..];
    }
  }

  lemma Then(db: Db, s: Stmt, rest: seq<Stmt>)
    requires Allowed(db, s) && RunAllowed(Exec(db, s), rest)
    ensures RunAllowed(db, [s] + rest) && Run(db, [s] + rest) == Run(Exec(db, s), rest)
  {
    assert ([s] + rest)[1..] == rest;
  }

  lemma DeleteListScript(db: Db, l: Uid, env: Env) returns (run: seq<Stmt>)
    requires EnvOk(db, env) && l in db.lists
    ensures RunAllowed(db, run) && Run(db, run) == DeleteList(db, l, env).db
  {
    run := DropItemsScript(db, env.order, l, env.now);
    DropItemsLeft(db, env.order, l, env.now);
    var mid := DropItems(db, env.order, l, env.now);
    One(mid, DropListS(l, env.now));
    RunConcat(db, run, [DropListS(l, env.now)]);
    run := run + [DropListS(l, env.now)];
  }

  lemma RetagOpScript(db: Db, l: Uid, row: List, env: Env, r: Retagging) returns (run: seq<Stmt>)
    requires l in db.lists
    ensures RunAllowed(db, run) && Run(db, run) == Retag(PutList(db, l, row), env.order, l, r)
  {
    var rest := RetagScript(Exec(db, PutListS(l, row)), env.order, l, r);
    Then(db, PutListS(l, row), rest);
    run := [PutListS(l, row)] + rest;
  }

  /** Some script of allowed statements leads from `a` to `b`. */
  ghost predicate Scripted(a: Db, b: Db) {
    exists run :: RunAllowed(a, run) && Run(a, run) == b
  }

  lemma NoScript(db: Db)
    ensures Scripted(db, db)
  {
    assert RunAllowed(db, []) && Run(db, []) == db;
  }

  lemma StmtScript(db: Db, s: Stmt)
    requires Allowed(db, s)
    ensures Scripted(db, Exec(db, s))
  {
    One(db, s);
  }

  lemma ListRowScript(db: Db, b: Db, l: Uid)
    requires b == db || (l in b.lists && b == PutList(db, l, b.lists[l]) && (l in db.lists || !InUse(db, l)))
    ensures Scripted(db, b)
  {
    if b == db { NoScript(db); } else { StmtScript(db, PutListS(l, b.lists[l])); }
  }

  lemma ItemRowScript(db: Db, b: Db, u: Uid)
    requires b == db || (u in b.items && b == PutItem(db, u, b.items[u]) && Allowed(db, PutItemS(u, b.items[u])))
    ensures Scripted(db, b)
  {
    if b == db { NoScript(db); } else { StmtScript(db, PutItemS(u, b.items[u])); }
  }

  lemma SettingsScript(db: Db, op: Op, env: Env)
    requires op.ListTagSettings?
    ensures Scripted(db, SetTagSettings(db, op.list, op, env).db)
  {
    NoScript(db);
    if op.list in db.lists {
      var row := db.lists[op.list];
      var wanted := WantedSettings(row.settings, op);
      var run := RetagOpScript(db, op.list, row.(settings := wanted), env, KeepFirst(row.tags));
      StmtScript(db, PutListS(op.list, row.(settings := wanted)));
    }
  }

  lemma RenameTagScript(db: Db, l: Uid, tag: string, raw: string, env: Env)
    ensures Scripted(db, RenameTag(db, l, tag, raw, env).db)
  {
    NoScript(db);
    if RenameTag(db, l, tag, raw, env).db != db {
      var run := RetagOpScript(db, l, RenamedRow(db.lists[l], tag, Strip(raw)), env, Rename(tag, Strip(raw)));
    }
  }

  lemma AddScript(db: Db, l: Uid, raw: string, uid: Option<Uid>, env: Env)
    requires EnvOk(db, env)
    ensures Scripted(db, AddItem(db, l, raw, uid, env).db)
  {
    var out := AddItem(db, l, raw, uid, env);
    if out.answer.Applied? { ItemRowScript(db, out.db, out.answer.item.value); } else { NoScript(db); }
  }

  lemma ListOpScript(db: Db, op: Op, env: Env)
    requires EnvOk(db, env)
    requires op.ListCreate? || op.ListRename? || op.ListTagAdd? || op.ListTagRemove? || op.ListTagColor?
      || op.ListVisibility?
    ensures Scripted(db, Handle(db, op, env).db)
  {
    hide Scripted;
    match op {
      case ListCreate(raw, uid) => ListRowScript(db, CreateList(db, raw, uid, env).db, NewUid(uid, env));
      case ListRename(l, raw, base) => ListRowScript(db, RenameList(db, l, raw, base).db, l);
      case ListTagAdd(l, raw) => ListRowScript(db, AddTag(db, l, raw).db, l);
      case ListTagRemove(l, tag) => ListRowScript(db, RemoveTag(db, l, tag).db, l);
      case ListTagColor(l, tag, color) => ListRowScript(db, ColorTag(db, l, tag, color).db, l);
      case ListVisibility(l, _, _, _) => ListRowScript(db, SetVisibility(db, l, op).db, l);
    }
  }

  lemma ItemOpScript(db: Db, op: Op, env: Env)
    requires EnvOk(db, env)
    requires op.ItemSetDone? || op.ItemQuantityDelta? || op.ItemToggleTag?
    ensures Scripted(db, Handle(db, op, env).db)
  {
    hide Scripted;
    match op {
      case ItemSetDone(l, u, done, base) => ItemRowScript(db, SetDone(db, l, u, done, base, env).db, u);
      case ItemQuantityDelta(l, u, delta) => ItemRowScript(db, AdjustQuantity(db, l, u, delta).db, u);
      case ItemToggleTag(l, u, tag, active) => ItemRowScript(db, ToggleTag(db, l, u, tag, active).db, u);
    }
  }

  lemma FormScript(db: Db, op: Op, env: Env)
    requires EnvOk(db, env) && (op.ItemEdit? || op.ItemRestore?)
    ensures Scripted(db, Handle(db, op, env).db)
  {
    hide Scripted, MergeDue, CheckedName, Unresolved, NameTaken;
    match op {
      case ItemEdit(l, u, _, _, _, _, _, _, _) => ItemRowScript(db, EditItem(db, l, u, op, env).db, u);
      case ItemRestore(_, uid, _, _, _, _, _, _, _, _, _) =>
          ItemRowScript(db, RestoreItem(db, op, env).db, NewUid(uid, env));
    }
  }

  /** Every answered op, applied or not, is a script of allowed statements. */
  lemma HandleScript(db: Db, op: Op, env: Env)
    requires EnvOk(db, env)
    ensures Scripted(db, Handle(db, op, env).db)
  {
    NoScript(db);
    match op {
      case RoomRename(name) => StmtScript(db, PutNameS(Strip(name)));
      case ListDelete(l) => if l in db.lists { var run := DeleteListScript(db, l, env); }
      case ListTagRename(l, tag, raw) => RenameTagScript(db, l, tag, raw, env);
      case ListTagSettings(_, _, _, _) => SettingsScript(db, op, env);
      case ItemDelete(l, u) => if HasItem(db, l, u) { StmtScript(db, DropItemS(u, env.now)); }
      case ItemAdd(l, raw, uid) => AddScript(db, l, raw, uid, env);
      case ItemEdit(_, _, _, _, _, _, _, _, _) => FormScript(db, op, env);
      case ItemRestore(_, _, _, _, _, _, _, _, _, _, _) => FormScript(db, op, env);
      case ListCreate(_, _) => ListOpScript(db, op, env);
      case ListRename(_, _, _) => ListOpScript(db, op, env);
      case ListTagAdd(_, _) => ListOpScript(db, op, env);
      case ListTagRemove(_, _) => ListOpScript(db, op, env);
      case ListTagColor(_, _, _) => ListOpScript(db, op, env);
      case ListVisibility(_, _, _, _) => ListOpScript(db, op, env);
      case _ => ItemOpScript(db, op, env);
    }
  }

  // The room rules

  predicate TextOk(text: string, limit: nat) { Strip(text) == text && 0 < |text| <= limit }

  predicate TagTextsOk(tags: seq<string>) { forall t | t in tags :: TextOk(t, MAX_TAG_LENGTH) }

  ghost predicate ListOk(row: List) {
    && TextOk(row.name, MAX_NAME_LENGTH)
    && Sorted(row.tags) && Distinct(row.tags) && |row.tags| <= MAX_TAGS_PER_LIST
    && TagTextsOk(row.tags)
    && (forall t :: t in row.settings.colors ==> t in row.tags && 0 <= row.settings.colors[t] <= MAX_TAG_COLOR)
    && VisibleRange(row.hide)
  }

  predicate DueOk(due: Due) {
    due.time.Some? == due.zone.Some? && (due.time.Some? ==> due.date.Some? && ClockTime(due.time.value))
  }

  predicate ItemOk(row: Item) {
    && TextOk(row.name, MAX_NAME_LENGTH) && |row.description| <= MAX_DESCRIPTION_LENGTH
    && row.quantity >= 1 && row.addCount >= 1
    && (!row.done ==> row.completedAt.None?)
    && DueOk(row.due) && row.dueAt.Some? == row.due.time.Some? && row.cycle.Some? == row.due.date.Some?
  }

  ghost predicate UniqueNames(items: map<Uid, Item>) {
    forall a, b :: a in items && b in items && a != b && items[a].list == items[b].list
      ==> NameKey(items[a].name) != NameKey(items[b].name)
  }

  ghost predicate UniqueListNames(lists: map<Uid, List>) {
    forall a, b :: a in lists && b in lists && a != b ==> ListKey(lists[a].name) != ListKey(lists[b].name)
  }

  ghost predicate ListsOk(lists: map<Uid, List>) {
    |lists| <= MAX_LISTS_PER_ROOM && (forall l :: l in lists ==> ListOk(lists[l]))
  }

  ghost predicate ItemsOk(items: map<Uid, Item>) {
    forall u :: u in items ==> ItemOk(items[u])
  }

  ghost predicate CountsOk(items: map<Uid, Item>) {
    forall l :: |ItemsOf(items, l)| <= MAX_ITEMS_PER_LIST
  }

  ghost predicate Ruled(db: Db) {
    && TextOk(db.name, MAX_NAME_LENGTH)
    && ListsOk(db.lists) && UniqueListNames(db.lists)
    && ItemsOk(db.items) && UniqueNames(db.items) && CountsOk(db.items)
  }

  lemma StripIdempotent(raw: string)
    ensures Strip(Strip(raw)) == Strip(raw)
  {
    TrimIdempotent(raw, PySpace);
  }

  /** A changed or new list row keeps the rules when it is fine itself and its name is free. */
  lemma PutListRuled(db: Db, l: Uid, row: List)
    requires Ruled(db) && ListOk(row) && !ListNameTaken(db, ListKey(row.name), Some(l))
    requires l in db.lists || |db.lists| < MAX_LISTS_PER_ROOM
    ensures Ruled(PutList(db, l, row))
  {
    assert ListOk(row.(changedSeq := db.changeSeq + 1));
    hide ListOk, ItemsOk, UniqueNames, CountsOk;
    var b := PutList(db, l, row);
    assert UniqueListNames(b.lists) by {
      forall x | x in db.lists && x != l ensures ListKey(db.lists[x].name) != ListKey(row.name) {
        assert !(ListNamed(db, x, ListKey(row.name)) && Some(x) != Some(l));
      }
    }
    ListsAfterPut(db.lists, l, b.lists[l]);
  }

  lemma ListsAfterPut(lists: map<Uid, List>, l: Uid, row: List)
    requires ListsOk(lists) && ListOk(row) && (l in lists || |lists| < MAX_LISTS_PER_ROOM)
    ensures ListsOk(lists[l := row])
  {
    hide ListOk;
    assert |lists[l := row]| == |lists[l := row].Keys| && |lists| == |lists.Keys|;
    assert lists[l := row].Keys == lists.Keys + {l};
    if l in lists { assert lists[l := row].Keys == lists.Keys; }
  }

  lemma KeptName(db: Db, l: Uid)
    requires Ruled(db) && l in db.lists
    ensures ListOk(db.lists[l]) && !ListNameTaken(db, ListKey(db.lists[l].name), Some(l))
  {
  }

  lemma KeptItemName(db: Db, u: Uid)
    requires Ruled(db) && u in db.items
    ensures ItemOk(db.items[u]) && !NameTaken(db, db.items[u].list, NameKey(db.items[u].name), Some(u))
  {
  }

  lemma PutItemRuled(db: Db, u: Uid, row: Item)
    requires Ruled(db) && ItemOk(row) && !NameTaken(db, row.list, NameKey(row.name), Some(u))
    requires if u in db.items then db.items[u].list == row.list else |ItemsOf(db.items, row.list)| < MAX_ITEMS_PER_LIST
    ensures Ruled(PutItem(db, u, row))
  {
    var b := PutItem(db, u, row);
    assert UniqueNames(b.items) by {
      forall x | x in db.items && x != u && db.items[x].list == row.list
        ensures NameKey(db.items[x].name) != NameKey(row.name)
      {
        assert !(Names(db, row.list, x, NameKey(row.name)) && Some(x) != Some(u));
      }
    }
    PutItemCounts(db.items, u, row.(changedSeq := db.changeSeq + 1));
    assert ItemOk(row.(changedSeq := db.changeSeq + 1));
  }

  lemma PutItemCounts(items: map<Uid, Item>, u: Uid, row: Item)
    requires CountsOk(items) && if u in items then items[u].list == row.list
      else |ItemsOf(items, row.list)| < MAX_ITEMS_PER_LIST
    ensures CountsOk(items[u := row])
  {
    var b := items[u := row];
    forall l ensures |ItemsOf(b, l)| <= MAX_ITEMS_PER_LIST {
      ItemsAfterPut(items, u, row, l);
      assert |ItemsOf(items, l)| <= MAX_ITEMS_PER_LIST;
      hide CountsOk, ItemsOf;
    }
  }

  lemma ItemsAfterPut(items: map<Uid, Item>, u: Uid, row: Item, l: Uid)
    requires u in items ==> items[u].list == row.list
    ensures ItemsOf(items[u := row], l) == ItemsOf(items, l) + if l == row.list then {u} else {}
    ensures l == row.list && u in items ==> ItemsOf(items[u := row], l) == ItemsOf(items, l)
  {
  }

  lemma DropItemRuled(db: Db, u: Uid, now: Time)
    requires Ruled(db) && u in db.items
    ensures Ruled(DropItem(db, u, now))
  {
    FewerItemsRuled(db, DropItem(db, u, now));
  }

  lemma FewerItemsRuled(db: Db, b: Db)
    requires Ruled(db) && b.lists == db.lists && b.name == db.name
    requires forall u :: u in b.items ==> u in db.items && b.items[u] == db.items[u]
    ensures Ruled(b)
  {
    forall l ensures |ItemsOf(b.items, l)| <= MAX_ITEMS_PER_LIST {
      FewerMembers(ItemsOf(b.items, l), ItemsOf(db.items, l));
    }
  }

  lemma DeleteListRuled(db: Db, l: Uid, env: Env)
    requires Ruled(db) && l in db.lists
    ensures Ruled(DeleteList(db, l, env).db)
  {
    var mid := DropItems(db, env.order, l, env.now);
    DropItemsLeft(db, env.order, l, env.now);
    hide Ruled;
    FewerItemsRuled(db, mid);
    DropListRuled(mid, l, env.now);
  }

  lemma DropListRuled(db: Db, l: Uid, now: Time)
    requires Ruled(db)
    ensures Ruled(DropList(db, l, now))
  {
    var b := DropList(db, l, now);
    FewerMembers(b.lists.Keys, db.lists.Keys);
    assert |b.lists| == |b.lists.Keys| && |db.lists| == |db.lists.Keys|;
  }

  lemma {:induction false} RetagRuled(db: Db, order: seq<Uid>, l: Uid, r: Retagging)
    requires Ruled(db)
    ensures Ruled(Retag(db, order, l, r))
    decreases |order|
  {
    if order != [] {
      var u := order[0];
      if HasItem(db, l, u) && Affects(r, db.items[u].tags) {
        KeptItemName(db, u);
        PutItemRuled(db, u, RetagRow(db.items[u], l, r));
        RetagRuled(PutItem(db, u, RetagRow(db.items[u], l, r)), order[1..], l, r);
      } else {
        RetagRuled(db, order[1..], l, r);
      }
    }
  }

  lemma NewUidIsNew(db: Db, uid: Option<Uid>, env: Env)
    requires EnvOk(db, env) && !NewUidTaken(db, uid, env)
    ensures !InUse(db, NewUid(uid, env))
  {
  }

  lemma CreateListRuled(db: Db, raw: string, uid: Option<Uid>, env: Env)
    requires Tracked(db) && Ruled(db) && EnvOk(db, env)
    ensures Ruled(CreateList(db, raw, uid, env).db)
  {
    if CreateList(db, raw, uid, env).db != db {
      var l := NewUid(uid, env);
      NewUidIsNew(db, uid, env);
      StripIdempotent(raw);
      PutListRuled(db, l, NEW_LIST.(name := Strip(raw)));
    }
  }

  lemma RenameListRuled(db: Db, l: Uid, raw: string, base: Option<nat>)
    requires Ruled(db)
    ensures Ruled(RenameList(db, l, raw, base).db)
  {
    hide Ruled, ListNameTaken, Sorted, Distinct, TagTextsOk, VisibleRange;
    if RenameList(db, l, raw, base).db != db {
      StripIdempotent(raw);
      KeptName(db, l);
      PutListRuled(db, l, db.lists[l].(name := Strip(raw)));
    }
  }

  lemma AddedTagOk(row: List, tag: string)
    requires ListOk(row) && TextOk(tag, MAX_TAG_LENGTH) && tag !in row.tags && |row.tags| < MAX_TAGS_PER_LIST
    ensures ListOk(row.(tags := SortTags(row.tags + [tag])))
  {
    DistinctSnoc(row.tags, tag);
    SortShape(row.tags + [tag]);
    hide TextOk;
    assert forall t :: t in row.tags ==> t in row.tags + [tag];
  }

  lemma AddTagRuled(db: Db, l: Uid, raw: string)
    requires Ruled(db)
    ensures Ruled(AddTag(db, l, raw).db)
  {
    if AddTag(db, l, raw).db != db {
      KeptName(db, l);
      assert ListOk(db.lists[l]);
      StripIdempotent(raw);
      hide Ruled, ListOk, SortTags;
      AddedTagOk(db.lists[l], Strip(raw));
      PutListRuled(db, l, db.lists[l].(tags := SortTags(db.lists[l].tags + [Strip(raw)])));
    }
  }

  lemma RemoveTagRuled(db: Db, l: Uid, tag: string)
    requires Ruled(db)
    ensures Ruled(RemoveTag(db, l, tag).db)
  {
    if RemoveTag(db, l, tag).db != db {
      var row := db.lists[l];
      WithoutShape(row.tags, tag);
      KeptName(db, l);
      PutListRuled(db, l,
        row.(tags := Without(row.tags, tag), settings := row.settings.(colors := row.settings.colors - {tag})));
    }
  }

  lemma ColorTagRuled(db: Db, l: Uid, tag: string, color: Option<int>)
    requires Ruled(db) && (color.Some? ==> 0 <= color.value <= MAX_TAG_COLOR)
    ensures Ruled(ColorTag(db, l, tag, color).db)
  {
    if ColorTag(db, l, tag, color).db != db {
      var row := db.lists[l];
      var colors := if color.None? then row.settings.colors - {tag} else row.settings.colors[tag := color.value];
      KeptName(db, l);
      PutListRuled(db, l, row.(settings := row.settings.(colors := colors)));
    }
  }

  lemma WantedOk(row: List, op: Op)
    requires ListOk(row) && op.ListTagSettings?
    ensures ListOk(row.(settings := WantedSettings(row.settings, op)))
  {
    hide Sorted, Distinct, TextOk, VisibleRange;
  }

  lemma SettingsRuled(db: Db, op: Op, env: Env)
    requires Ruled(db) && op.ListTagSettings?
    ensures Ruled(SetTagSettings(db, op.list, op, env).db)
  {
    if op.list in db.lists {
      var row := db.lists[op.list];
      var wanted := WantedSettings(row.settings, op);
      KeptName(db, op.list);
      assert ListOk(row);
      hide Ruled, Retag, ListOk, WantedSettings, NameKey, ListKey, ListNameTaken;
      WantedOk(row, op);
      PutListRuled(db, op.list, row.(settings := wanted));
      RetagRuled(PutList(db, op.list, row.(settings := wanted)), env.order, op.list, KeepFirst(row.tags));
    }
  }

  lemma RenamedRowOk(row: List, tag: string, newTag: string)
    requires ListOk(row) && TextOk(newTag, MAX_TAG_LENGTH) && tag in row.tags && newTag !in row.tags
    ensures ListOk(RenamedRow(row, tag, newTag))
  {
    hide TextOk, VisibleRange;
    var tags := Replaced(row.tags, tag, newTag);
    ReplacedTags(row.tags, tag, newTag);
    ReplacedShape(row.tags, tag, newTag);
    SortShape(tags);
    hide Sorted, Distinct, SortTags, Replaced;
  }

  lemma RenameTagRuled(db: Db, l: Uid, tag: string, raw: string, env: Env)
    requires Ruled(db)
    ensures Ruled(RenameTag(db, l, tag, raw, env).db)
  {
    if RenameTag(db, l, tag, raw, env).db != db {
      KeptName(db, l);
      assert ListOk(db.lists[l]);
      StripIdempotent(raw);
      hide Ruled, ListOk, SortTags, Replaced;
      var row, newTag := db.lists[l], Strip(raw);
      RenamedRowOk(row, tag, newTag);
      PutListRuled(db, l, RenamedRow(row, tag, newTag));
      RetagRuled(PutList(db, l, RenamedRow(row, tag, newTag)), env.order, l, Rename(tag, newTag));
    }
  }

  lemma VisibilityRuled(db: Db, op: Op)
    requires Ruled(db) && op.ListVisibility?
    ensures Ruled(SetVisibility(db, op.list, op).db)
  {
    if SetVisibility(db, op.list, op).db != db {
      var row := db.lists[op.list];
      KeptName(db, op.list);
      PutListRuled(db, op.list, row.(hide := SetVisibility(db, op.list, op).db.lists[op.list].hide));
    }
  }

  lemma AddItemRuled(db: Db, l: Uid, raw: string, uid: Option<Uid>, env: Env)
    requires Ruled(db) && EnvOk(db, env)
    ensures Ruled(AddItem(db, l, raw, uid, env).db)
  {
    hide Ruled;
    if AddItem(db, l, raw, uid, env).db != db {
      StripIdempotent(raw);
      match Named(db, l, NameKey(Strip(raw)))
      case Some(u) =>
        KeptItemName(db, u);
        PutItemRuled(db, u, Unchecked(db.items[u], env));
      case None =>
        NewUidIsNew(db, uid, env);
        PutItemRuled(db, NewUid(uid, env), NewItem(l, Strip(raw)).(addedAt := Some(env.now)));
    }
  }

  /** An update of one item that keeps its name and list. */
  lemma ChangeRuled(db: Db, u: Uid, row: Item)
    requires Ruled(db) && u in db.items && ItemOk(row) && row.list == db.items[u].list && row.name == db.items[u].name
    ensures Ruled(PutItem(db, u, row))
  {
    KeptItemName(db, u);
    PutItemRuled(db, u, row);
  }

  lemma SetDoneRuled(db: Db, l: Uid, u: Uid, done: bool, base: Option<nat>, env: Env)
    requires Ruled(db)
    ensures Ruled(SetDone(db, l, u, done, base, env).db)
  {
    if SetDone(db, l, u, done, base, env).db != db {
      var row := db.items[u];
      ChangeRuled(db, u, if done then row.(done := true, completedAt := Some(env.now)) else Unchecked(row, env));
    }
  }

  lemma MergeDueOk(stored: Due, date: Field, time: Field, zone: Field)
    requires DueOk(stored)
    ensures MergeDue(stored, date, time, zone).Some? ==> DueOk(MergeDue(stored, date, time, zone).value)
  {
  }

  lemma EditedOk(row: Item, name: string, description: string, quantity: Option<int>, due: Due, env: Env)
    requires ItemOk(row) && TextOk(name, MAX_NAME_LENGTH) && |description| <= MAX_DESCRIPTION_LENGTH && DueOk(due)
    requires (quantity.Some? ==> quantity.value >= 1) && (due != row.due ==> Unresolved(due).None?)
    ensures ItemOk(Edited(row, name, description, quantity, due, env))
  {
  }

  lemma EditRuled(db: Db, op: Op, env: Env)
    requires Ruled(db) && op.ItemEdit?
    ensures Ruled(EditItem(db, op.list, op.item, op, env).db)
  {
    if EditItem(db, op.list, op.item, op, env).db != db {
      var row, name := db.items[op.item], Strip(op.name);
      assert ItemOk(row);
      hide Ruled;
      var quantity: Option<int> := if op.quantity.None? then None else Some(Max(1, op.quantity.value));
      var due := MergeDue(row.due, op.date, op.time, op.zone).value;
      StripIdempotent(op.name);
      MergeDueOk(row.due, op.date, op.time, op.zone);
      EditedOk(row, name, Strip(op.description), quantity, due, env);
      PutItemRuled(db, op.item, Edited(row, name, Strip(op.description), quantity, due, env));
    }
  }

  lemma RestoredOk(op: Op, name: string, due: Due, env: Env)
    requires op.ItemRestore? && WellFormed(op) && TextOk(name, MAX_NAME_LENGTH)
    requires |op.description| <= MAX_DESCRIPTION_LENGTH && DueOk(due) && Unresolved(due).None?
    ensures ItemOk(RestoredItem(op, name, due, env))
  {
  }

  lemma RestoreRuled(db: Db, op: Op, env: Env)
    requires Ruled(db) && EnvOk(db, env) && op.ItemRestore? && WellFormed(op)
    ensures Ruled(RestoreItem(db, op, env).db)
  {
    hide Ruled, Unresolved, StoredDueAt, EnvOk, ItemOk, NameTaken, MergeDue, Strip, RestoredItem;
    if RestoreItem(db, op, env).db != db {
      var due := MergeDue(NO_DUE, Sent(op.due.date), Sent(op.due.time), Sent(op.due.zone)).value;
      var u, row := NewUid(op.uid, env), RestoredItem(op, Strip(op.name), due, env);
      NewUidIsNew(db, op.uid, env);
      RestoredRowOk(op, due, env);
      RestoredNameFree(db, op, due, env);
      PutItemRuled(db, u, row);
    }
  }

  lemma RestoredRowOk(op: Op, due: Due, env: Env)
    requires op.ItemRestore? && WellFormed(op) && Strip(op.name) != [] && |Strip(op.name)| <= MAX_NAME_LENGTH
    requires |op.description| <= MAX_DESCRIPTION_LENGTH && Unresolved(due).None?
    requires MergeDue(NO_DUE, Sent(op.due.date), Sent(op.due.time), Sent(op.due.zone)) == Some(due)
    ensures ItemOk(RestoredItem(op, Strip(op.name), due, env))
  {
    StripIdempotent(op.name);
    MergeDueOk(NO_DUE, Sent(op.due.date), Sent(op.due.time), Sent(op.due.zone));
    hide MergeDue, Strip;
    RestoredOk(op, Strip(op.name), due, env);
  }

  lemma RestoredNameFree(db: Db, op: Op, due: Due, env: Env)
    requires op.ItemRestore? && !NameTaken(db, op.list, NameKey(Strip(op.name)), None)
    ensures var row := RestoredItem(op, Strip(op.name), due, env);
      row.list == op.list && !NameTaken(db, row.list, NameKey(row.name), Some(NewUid(op.uid, env)))
  {
    hide NameKey, Strip;
  }

  lemma AdjustRuled(db: Db, l: Uid, u: Uid, delta: int)
    requires Ruled(db)
    ensures Ruled(AdjustQuantity(db, l, u, delta).db)
  {
    if AdjustQuantity(db, l, u, delta).db != db {
      assert ItemOk(db.items[u]);
      hide Ruled;
      ChangeRuled(db, u, db.items[u].(quantity := Max(1, db.items[u].quantity + delta)));
    }
  }

  lemma ToggleRuled(db: Db, l: Uid, u: Uid, tag: string, active: Option<bool>)
    requires Ruled(db)
    ensures Ruled(ToggleTag(db, l, u, tag, active).db)
  {
    if ToggleTag(db, l, u, tag, active).db != db {
      ChangeRuled(db, u,
        db.items[u].(tags := ToggledTags(db.items[u].tags, tag, active, db.lists[l].settings.mode == Single)));
    }
  }

  lemma RenameRoomRuled(db: Db, raw: string)
    requires Ruled(db)
    ensures Ruled(RenameRoom(db, raw).db)
  {
    StripIdempotent(raw);
  }

  lemma ListHandleRuled(db: Db, op: Op, env: Env)
    requires Tracked(db) && Ruled(db) && EnvOk(db, env) && WellFormed(op)
    requires !(op.ItemAdd? || op.ItemSetDone? || op.ItemQuantityDelta? || op.ItemEdit? || op.ItemToggleTag?
      || op.ItemDelete? || op.ItemRestore?)
    ensures Ruled(Handle(db, op, env).db)
  {
    hide Tracked, Ruled;
    match op {
      case RoomRename(name) => RenameRoomRuled(db, name);
      case ListCreate(name, uid) => CreateListRuled(db, name, uid, env);
      case ListRename(l, name, base) => RenameListRuled(db, l, name, base);
      case ListDelete(l) => if l in db.lists { DeleteListRuled(db, l, env); }
      case ListTagAdd(l, tag) => AddTagRuled(db, l, tag);
      case ListTagRemove(l, tag) => RemoveTagRuled(db, l, tag);
      case ListTagSettings(_, _, _, _) => SettingsRuled(db, op, env);
      case ListTagColor(l, tag, color) => ColorTagRuled(db, l, tag, color);
      case ListTagRename(l, tag, newTag) => RenameTagRuled(db, l, tag, newTag, env);
      case ListVisibility(_, _, _, _) => VisibilityRuled(db, op);
    }
  }

  lemma ItemHandleRuled(db: Db, op: Op, env: Env)
    requires Tracked(db) && Ruled(db) && EnvOk(db, env) && WellFormed(op)
    requires op.ItemAdd? || op.ItemSetDone? || op.ItemQuantityDelta? || op.ItemEdit? || op.ItemToggleTag?
      || op.ItemDelete? || op.ItemRestore?
    ensures Ruled(Handle(db, op, env).db)
  {
    hide Ruled, Tracked;
    match op {
      case ItemAdd(l, name, uid) => AddItemRuled(db, l, name, uid, env);
      case ItemSetDone(l, u, done, base) => SetDoneRuled(db, l, u, done, base, env);
      case ItemQuantityDelta(l, u, delta) => AdjustRuled(db, l, u, delta);
      case ItemEdit(_, _, _, _, _, _, _, _, _) => EditRuled(db, op, env);
      case ItemToggleTag(l, u, tag, active) => ToggleRuled(db, l, u, tag, active);
      case ItemDelete(l, u) => if HasItem(db, l, u) { DropItemRuled(db, u, env.now); }
      case ItemRestore(_, _, _, _, _, _, _, _, _, _, _) => RestoreRuled(db, op, env);
    }
  }

  /** Every op handler keeps the room rules and the tracking invariant, whatever it answers. */
  lemma HandleKeepsRules(db: Db, op: Op, env: Env)
    requires Tracked(db) && Ruled(db) && EnvOk(db, env) && WellFormed(op)
    ensures Tracked(Handle(db, op, env).db) && Ruled(Handle(db, op, env).db)
    ensures Handle(db, op, env).db.changeSeq >= db.changeSeq
  {
    HandleScript(db, op, env);
    var run :| RunAllowed(db, run) && Run(db, run) == Handle(db, op, env).db;
    RunTracked(db, run);
    if op.ItemAdd? || op.ItemSetDone? || op.ItemQuantityDelta? || op.ItemEdit? || op.ItemToggleTag? || op.ItemDelete?
        || op.ItemRestore? {
      ItemHandleRuled(db, op, env);
    } else {
      ListHandleRuled(db, op, env);
    }
  }

  /** An op that is not applied changes nothing: there is nothing for the savepoint to undo. */
  lemma RefusedChangesNothing(db: Db, op: Op, env: Env)
    requires !Handle(db, op, env).answer.Applied?
    ensures Handle(db, op, env).db == db
  {
  }

  // A room from its beginning

  datatype Call = Call(op: Op, env: Env)

  function NewRoom(name: string): Db { Db(name, 0, map[], map[], {}, 0, map[]) }

  /** Calls of any clients, each with the surroundings it meets. */
  ghost predicate Served(db: Db, calls: seq<Call>) {
    calls == [] ||
    var rest, last := calls[..|calls| - 1], calls[|calls| - 1];
    Served(db, rest) && EnvOk(Serve(db, rest), last.env) && WellFormed(last.op)
  }

  ghost function Serve(db: Db, calls: seq<Call>): Db {
    if calls == [] then db
        else Handle(Serve(db, calls[..|calls| - 1]), calls[|calls| - 1].op, calls[|calls| - 1].env).db
  }

  /** Whatever ops are sent to a new room, applied or not, it stays in order. */
  lemma {:induction false} EveryRoomIsRuled(name: string, calls: seq<Call>)
    requires TextOk(name, MAX_NAME_LENGTH) && Served(NewRoom(name), calls)
    ensures Tracked(Serve(NewRoom(name), calls)) && Ruled(Serve(NewRoom(name), calls))
    decreases |calls|
  {
    var db := NewRoom(name);
    if calls == [] {
      NewRoomIsRuled(name);
    } else {
      hide Handle, Tracked, Ruled, EnvOk;
      EveryRoomIsRuled(name, calls[..|calls| - 1]);
      HandleKeepsRules(Serve(db, calls[..|calls| - 1]), calls[|calls| - 1].op, calls[|calls| - 1].env);
    }
  }

  lemma NewRoomIsRuled(name: string)
    requires TextOk(name, MAX_NAME_LENGTH)
    ensures Tracked(NewRoom(name)) && Ruled(NewRoom(name))
  {
    forall l ensures ItemsOf(NewRoom(name).items, l) == {} {}
  }
}

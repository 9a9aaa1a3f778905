/**
  The tables of one room as the server changes them in place (src/database_crud.py): row
  statements with their triggers (src/database_setup.py), the writers and readers, the op
  handlers (src/api/ops.py) and the stored responses (src/api/idempotency.py). Each method is
  proved against the function on table states that the other modules reason about.
 */
module RoomDatabase {
  import opened RoomModel
  import opened Texts
  import opened TagRules
  import opened Tracking
  import opened RoomRules
  import opened ChangesFeed
  import opened ShareSeqs
  import Ops = Operations

  /** A stored response; the body stands for its hash. */
  datatype Processed = Processed(op: Op, response: Response, at: Time)

  datatype Ran = Ran(response: Response, replayed: bool) | OpIdReused | Failed

  function MaxOver(deletions: set<Deletion>, before: Time): set<nat> {
    set d | d in deletions && d.at < before :: d.changedSeq
  }

  /** The highest seq of a record older than `before`: pruning goes up to it. */
  ghost function PruneSeq(deletions: set<Deletion>, before: Time): nat { MaxSeq(MaxOver(deletions, before)) }

  method MaxOf(s: set<nat>) returns (m: nat)
    ensures m == MaxSeq(s)
  {
    m := 0;
    var rest := s;
    while rest != {}
      invariant rest <= s && (forall x :: x in s && x !in rest ==> x <= m) && (m == 0 || m in s)
      decreases |rest|
    {
      var x :| x in rest;
      rest := rest - {x};
      m := Max(m, x);
    }
    MaxSeqIs(s, m);
  }

  method RowsOf<T(==)>(m: map<Uid, T>) returns (rows: seq<(Uid, T)>)
    ensures (forall r :: r in rows ==> r.0 in m && m[r.0] == r.1) && (forall u :: u in m ==> (u, m[u]) in rows)
  {
    rows := [];
    var rest := m.Keys;
    while rest != {}
      invariant rest <= m.Keys
      invariant (forall r :: r in rows ==> r.0 in m && m[r.0] == r.1)
        && (forall u :: u in m && u !in rest ==> (u, m[u]) in rows)
      decreases |rest|
    {
      var u :| u in rest;
      rest := rest - {u};
      rows := rows + [(u, m[u])];
    }
  }

  method RecordsOf(records: set<Deletion>) returns (rows: seq<(Kind, Uid)>)
    ensures Records(rows, records)
  {
    rows := [];
    var rest := records;
    while rest != {}
      invariant rest <= records && Records(rows, records - rest)
      decreases |rest|
    {
      var d :| d in rest;
      var row := (d.kind, d.uid);
      RecordsSnoc(rows, records - rest, d);
      assert records - rest + {d} == records - (rest - {d});
      rest := rest - {d};
      rows := rows + [row];
    }
    assert records - rest == records;
  }

  lemma RecordsSnoc(rows: seq<(Kind, Uid)>, records: set<Deletion>, d: Deletion)
    requires Records(rows, records)
    ensures Records(rows + [(d.kind, d.uid)], records + {d})
  {
  }

  lemma NamedIs(db: Db, l: Uid, key: string, u: Uid)
    requires UniqueNames(db.items) && Ops.Names(db, l, u, key)
    ensures Ops.Named(db, l, key) == Some(u)
  {
    var x := Ops.Named(db, l, key).value;
    assert x in db.items && u in db.items;
  }

  class Database {
    var name: string
    var changeSeq: nat
    var lists: map<Uid, List>
    var items: map<Uid, Item>
    var deletions: set<Deletion>
    var pruned: nat
    var floors: map<Uid, nat>
    var processed: map<Uid, Processed>

    function State(): Db
      reads this
    {
      Db(name, changeSeq, lists, items, deletions, pruned, floors)
    }

    constructor (roomName: string)
      ensures State() == NewRoom(roomName) && processed == map[]
    {
      name, changeSeq, lists, items, deletions, pruned, floors, processed := roomName, 0, map[], map[], {}, 0, map[],
        map[];
    }

    // Row statements and their triggers

    method WriteList(u: Uid, row: List)
      modifies `changeSeq, `lists
      ensures State() == PutList(old(State()), u, row)
    {
      lists := lists[u := row];
      changeSeq := changeSeq + 1;
      lists := lists[u := lists[u].(changedSeq := changeSeq)];
    }

    method WriteItem(u: Uid, row: Item)
      modifies `changeSeq, `items
      ensures State() == PutItem(old(State()), u, row)
    {
      items := items[u := row];
      changeSeq := changeSeq + 1;
      items := items[u := items[u].(changedSeq := changeSeq)];
    }

    method DeleteListRow(u: Uid, now: Time)
      modifies `changeSeq, `lists, `deletions
      ensures State() == DropList(old(State()), u, now)
    {
      lists := lists - {u};
      changeSeq := changeSeq + 1;
      deletions := deletions + {Deletion(ListKind, u, u, changeSeq, now)};
    }

    method DeleteItemRow(u: Uid, now: Time)
      requires u in items
      modifies `changeSeq, `items, `deletions
      ensures State() == DropItem(old(State()), u, now)
    {
      var l := items[u].list;
      items := items - {u};
      changeSeq := changeSeq + 1;
      deletions := deletions + {Deletion(ItemKind, u, l, changeSeq, now)};
    }

    method WriteName(newName: string)
      modifies `changeSeq, `name
      ensures State() == PutName(old(State()), newName)
    {
      name := newName;
      changeSeq := changeSeq + 1;
    }

    // Lookups

    method FindList(key: string, except: Option<Uid>) returns (found: bool)
      ensures found == Ops.ListNameTaken(State(), key, except)
    {
      var rest := lists.Keys;
      while rest != {}
        invariant rest <= lists.Keys
        invariant forall x :: x in lists && x !in rest ==> !(Ops.ListNamed(State(), x, key) && Some(x) != except)
        decreases |rest|
      {
        var x :| x in rest;
        if Some(x) != except && ListKey(lists[x].name) == key {
          assert Ops.ListNamed(State(), x, key);
          return true;
        }
        rest := rest - {x};
      }
      return false;
    }

    method FindItem(l: Uid, key: string) returns (found: Option<Uid>)
      requires UniqueNames(items)
      ensures found == Ops.Named(State(), l, key)
    {
      if exists x | x in items :: Ops.Names(State(), l, x, key) {
        var u :| u in items && Ops.Names(State(), l, u, key);
        NamedIs(State(), l, key, u);
        return Some(u);
      }
      return None;
    }

    // Rooms and lists

    method RenameRoom(raw: string) returns (answer: Answer)
      modifies `changeSeq, `name
      ensures Ops.Outcome(State(), answer) == Ops.RenameRoom(old(State()), raw)
    {
      match Ops.CheckedName(raw, MAX_NAME_LENGTH) {
        case Bad(code) => return Rejected(code, None);
        case Good(newName) =>
          if name != newName { WriteName(newName); }
          return Applied(None, None);
      }
    }

    method CreateList(raw: string, uid: Option<Uid>, env: Env) returns (answer: Answer)
      modifies `changeSeq, `lists
      ensures Ops.Outcome(State(), answer) == Ops.CreateList(old(State()), raw, uid, env)
    {
      if Ops.NewUidTaken(State(), uid, env) { return HttpError; }
      match Ops.CheckedName(raw, MAX_NAME_LENGTH) {
        case Bad(code) => return Rejected(code, None);
        case Good(newName) =>
          var found := FindList(ListKey(newName), None);
          if found { return Applied(None, None); }
          if |lists| >= MAX_LISTS_PER_ROOM { return Rejected(TooMany, None); }
          WriteList(Ops.NewUid(uid, env), Ops.NEW_LIST.(name := newName));
          return Applied(None, None);
      }
    }

    method RenameList(l: Uid, raw: string, base: Option<nat>) returns (answer: Answer)
      modifies `changeSeq, `lists
      ensures Ops.Outcome(State(), answer) == Ops.RenameList(old(State()), l, raw, base)
    {
      if l !in lists { return Rejected(ListUnavailable, None); }
      match Ops.CheckedName(raw, MAX_NAME_LENGTH) {
        case Bad(code) => return Rejected(code, None);
        case Good(newName) =>
          if !Ops.BaseOk(base, lists[l].changedSeq, lists[l].name == newName) {
            return Rejected(ChangedMeanwhile, None);
          }
          var found := FindList(ListKey(newName), Some(l));
          if found { return Rejected(DuplicateName, None); }
          if lists[l].name != newName { WriteList(l, lists[l].(name := newName)); }
          return Applied(Some(lists[l].changedSeq), None);
      }
    }

    method DeleteList(l: Uid, env: Env) returns (answer: Answer)
      modifies `changeSeq, `lists, `items, `deletions
      ensures Ops.Outcome(State(), answer) == Ops.DeleteList(old(State()), l, env)
    {
      if l !in lists { return Rejected(ListUnavailable, None); }
      ghost var was := State();
      for i := 0 to |env.order|
        invariant Ops.DropItems(State(), env.order[i..], l, env.now) == Ops.DropItems(was, env.order, l, env.now)
      {
        assert env.order[i..][1..] == env.order[i + 1..];
        if Ops.HasItem(State(), l, env.order[i]) { DeleteItemRow(env.order[i], env.now); }
      }
      DeleteListRow(l, env.now);
      return Applied(None, None);
    }

    method AddTag(l: Uid, raw: string) returns (answer: Answer)
      modifies `changeSeq, `lists
      ensures Ops.Outcome(State(), answer) == Ops.AddTag(old(State()), l, raw)
    {
      if l !in lists { return Rejected(ListUnavailable, None); }
      match Ops.CheckedName(raw, MAX_TAG_LENGTH) {
        case Bad(code) => return Rejected(code, None);
        case Good(tag) =>
          var row := lists[l];
          if tag !in row.tags {
            if |row.tags| >= MAX_TAGS_PER_LIST { return Rejected(TooMany, None); }
            WriteList(l, row.(tags := SortTags(row.tags + [tag])));
          }
          return Applied(Some(lists[l].changedSeq), None);
      }
    }

    method RemoveTag(l: Uid, tag: string) returns (answer: Answer)
      modifies `changeSeq, `lists
      ensures Ops.Outcome(State(), answer) == Ops.RemoveTag(old(State()), l, tag)
    {
      if l !in lists { return Rejected(ListUnavailable, None); }
      var row := lists[l];
      var tags, colors := Without(row.tags, tag), row.settings.colors - {tag};
      if tags != row.tags || colors != row.settings.colors {
        WriteList(l, row.(tags := tags, settings := row.settings.(colors := colors)));
      }
      return Applied(Some(lists[l].changedSeq), None);
    }

    method ColorTag(l: Uid, tag: string, color: Option<int>) returns (answer: Answer)
      modifies `changeSeq, `lists
      ensures Ops.Outcome(State(), answer) == Ops.ColorTag(old(State()), l, tag, color)
    {
      if l !in lists { return Rejected(ListUnavailable, None); }
      var row := lists[l];
      if tag !in row.tags { return Rejected(UnknownTag, None); }
      var colors := row.settings.colors;
      if color.None? { colors := colors - {tag}; } else { colors := colors[tag := color.value]; }
      if colors != row.settings.colors { WriteList(l, row.(settings := row.settings.(colors := colors))); }
      return Applied(Some(lists[l].changedSeq), None);
    }

    /** Single mode: each item keeps the first of its tags in the list's tag order. */
    method KeepFirstItemTags(l: Uid, listTags: seq<string>, order: seq<Uid>)
      modifies `changeSeq, `items
      ensures State() == Ops.Retag(old(State()), order, l, Ops.KeepFirst(listTags))
    {
      ghost var was := State();
      for i := 0 to |order|
        invariant Ops.Retag(State(), order[i..], l, Ops.KeepFirst(listTags))
          == Ops.Retag(was, order, l, Ops.KeepFirst(listTags))
      {
        assert order[i..][1..] == order[i + 1..];
        if Ops.HasItem(State(), l, order[i]) && |items[order[i]].tags| >= 2 {
          WriteItem(order[i], items[order[i]].(tags := [First(items[order[i]].tags, Ops.ServerRank(listTags))]));
        }
      }
    }

    method SetTagSettings(l: Uid, op: Op, env: Env) returns (answer: Answer)
      requires op.ListTagSettings?
      modifies `changeSeq, `lists, `items
      ensures Ops.Outcome(State(), answer) == Ops.SetTagSettings(old(State()), l, op, env)
    {
      if l !in lists { return Rejected(ListUnavailable, None); }
      var row := lists[l];
      var wanted := Ops.WantedSettings(row.settings, op);
      if wanted != row.settings {
        WriteList(l, row.(settings := wanted));
        if wanted.mode == Single && row.settings.mode != Single {
          Ops.RetagKeepsLists(State(), env.order, l, Ops.KeepFirst(row.tags));
          KeepFirstItemTags(l, row.tags, env.order);
        }
      }
      return Applied(Some(lists[l].changedSeq), None);
    }

    method RenameItemTags(l: Uid, tag: string, newTag: string, order: seq<Uid>)
      modifies `changeSeq, `items
      ensures State() == Ops.Retag(old(State()), order, l, Ops.Rename(tag, newTag))
    {
      ghost var was := State();
      for i := 0 to |order|
        invariant Ops.Retag(State(), order[i..], l, Ops.Rename(tag, newTag))
          == Ops.Retag(was, order, l, Ops.Rename(tag, newTag))
      {
        assert order[i..][1..] == order[i + 1..];
        if Ops.HasItem(State(), l, order[i]) && tag in items[order[i]].tags {
          var renamed := RenameTags(items[order[i]].tags, tag, newTag);
          WriteItem(order[i], items[order[i]].(tags := renamed));
        }
      }
    }

    method RenameTag(l: Uid, tag: string, raw: string, env: Env) returns (answer: Answer)
      modifies `changeSeq, `lists, `items
      ensures Ops.Outcome(State(), answer) == Ops.RenameTag(old(State()), l, tag, raw, env)
    {
      if l !in lists { return Rejected(ListUnavailable, None); }
      match Ops.CheckedName(raw, MAX_TAG_LENGTH) {
        case Bad(code) => return Rejected(code, None);
        case Good(newTag) =>
          var row := lists[l];
          if tag !in row.tags { return Rejected(UnknownTag, None); }
          if tag != newTag {
            if newTag in row.tags { return Rejected(DuplicateName, None); }
            var colors := row.settings.colors;
            if tag in colors { colors := (colors - {tag})[newTag := colors[tag]]; }
            WriteList(l,
              row.(tags := SortTags(Replaced(row.tags, tag, newTag)), settings := row.settings.(colors := colors)));
            Ops.RetagKeepsLists(State(), env.order, l, Ops.Rename(tag, newTag));
            RenameItemTags(l, tag, newTag, env.order);
          }
          return Applied(Some(lists[l].changedSeq), None);
      }
    }

    method SetVisibility(l: Uid, op: Op) returns (answer: Answer)
      requires op.ListVisibility?
      modifies `changeSeq, `lists
      ensures Ops.Outcome(State(), answer) == Ops.SetVisibility(old(State()), l, op)
    {
      if l !in lists { return Rejected(ListUnavailable, None); }
      var row := lists[l];
      var wanted :=
          Hide(Keep(op.hideMode, row.hide.mode), Keep(op.ageDays, row.hide.ageDays),
          Keep(op.recentCount, row.hide.recentCount));
      if !Ops.VisibleRange(wanted) { return HttpError; }
      if wanted != row.hide { WriteList(l, row.(hide := wanted)); }
      return Applied(Some(lists[l].changedSeq), None);
    }

    // Items

    /** Add a new item, put back a checked one, or report an open one. */
    method AddItem(l: Uid, raw: string, uid: Option<Uid>, env: Env) returns (answer: Answer)
      requires UniqueNames(items)
      modifies `changeSeq, `items
      ensures Ops.Outcome(State(), answer) == Ops.AddItem(old(State()), l, raw, uid, env)
    {
      if Ops.NewUidTaken(State(), uid, env) { return HttpError; }
      if l !in lists { return Rejected(ListUnavailable, None); }
      match Ops.CheckedName(raw, MAX_NAME_LENGTH) {
        case Bad(code) => return Rejected(code, None);
        case Good(itemName) =>
          var found := FindItem(l, NameKey(itemName));
          match found {
            case Some(u) =>
              if !items[u].done { return Rejected(DuplicateActive, Some(u)); }
              WriteItem(u, Ops.Unchecked(items[u], env));
              return Applied(Some(items[u].changedSeq), Some(u));
            case None =>
              if |Ops.ItemsOf(items, l)| >= MAX_ITEMS_PER_LIST { return Rejected(TooMany, None); }
              var u := Ops.NewUid(uid, env);
              WriteItem(u, Ops.NewItem(l, itemName).(addedAt := Some(env.now)));
              return Applied(Some(items[u].changedSeq), Some(u));
          }
      }
    }

    method SetDone(l: Uid, u: Uid, done: bool, base: Option<nat>, env: Env) returns (answer: Answer)
      modifies `changeSeq, `items
      ensures Ops.Outcome(State(), answer) == Ops.SetDone(old(State()), l, u, done, base, env)
    {
      if l !in lists { return Rejected(ListUnavailable, None); }
      if !Ops.HasItem(State(), l, u) { return Rejected(ItemNotFound, None); }
      var row := items[u];
      if !Ops.BaseOk(base, row.changedSeq, row.done == done) { return Rejected(ChangedMeanwhile, None); }
      if row.done != done {
        WriteItem(u, if done then row.(done := true, completedAt := Some(env.now)) else Ops.Unchecked(row, env));
      }
      return Applied(Some(items[u].changedSeq), None);
    }

    method AdjustQuantity(l: Uid, u: Uid, delta: int) returns (answer: Answer)
      modifies `changeSeq, `items
      ensures Ops.Outcome(State(), answer) == Ops.AdjustQuantity(old(State()), l, u, delta)
    {
      if l !in lists { return Rejected(ListUnavailable, None); }
      if !Ops.HasItem(State(), l, u) { return Rejected(ItemNotFound, None); }
      var quantity := Max(1, items[u].quantity + delta);
      if quantity != items[u].quantity { WriteItem(u, items[u].(quantity := quantity)); }
      return Applied(Some(items[u].changedSeq), None);
    }

    method EditItem(l: Uid, u: Uid, op: Op, env: Env) returns (answer: Answer)
      requires op.ItemEdit?
      modifies `changeSeq, `items
      ensures Ops.Outcome(State(), answer) == Ops.EditItem(old(State()), l, u, op, env)
    {
      if l !in lists { return Rejected(ListUnavailable, None); }
      if !Ops.HasItem(State(), l, u) { return Rejected(ItemNotFound, None); }
      var checked := Ops.CheckedName(op.name, MAX_NAME_LENGTH);
      if checked.Bad? { return Rejected(checked.code, None); }
      var description := Strip(op.description);
      if |description| > MAX_DESCRIPTION_LENGTH { return Rejected(TooLong, None); }
      var quantity: Option<int> := if op.quantity.None? then None else Some(Max(1, op.quantity.value));
      var row := items[u];
      var merged := Ops.MergeDue(row.due, op.date, op.time, op.zone);
      if merged.None? { return Rejected(InvalidDue, None); }
      var due := merged.value;
      var stored := row.name == checked.text && row.description == description
          && (quantity.None? || quantity.value == row.quantity)
                    && due == row.due;
      if !Ops.BaseOk(op.base, row.changedSeq, stored) { return Rejected(ChangedMeanwhile, None); }
      if due != row.due && Ops.Unresolved(due).Some? { return Rejected(Ops.Unresolved(due).value, None); }
      if Ops.NameTaken(State(), l, NameKey(checked.text), Some(u)) { return Rejected(DuplicateName, None); }
      if !stored { WriteItem(u, Ops.Edited(row, checked.text, description, quantity, due, env)); }
      return Applied(Some(items[u].changedSeq), None);
    }

    method ToggleTag(l: Uid, u: Uid, tag: string, active: Option<bool>) returns (answer: Answer)
      modifies `changeSeq, `items
      ensures Ops.Outcome(State(), answer) == Ops.ToggleTag(old(State()), l, u, tag, active)
    {
      if l !in lists { return Rejected(ListUnavailable, None); }
      if !Ops.HasItem(State(), l, u) { return Rejected(ItemNotFound, None); }
      var tags := items[u].tags;
      var on := if active.Some? then active.value else tag !in tags;
      var wanted;
      if !on {
        wanted := Without(tags, tag);
      } else if lists[l].settings.mode == Single {
        wanted := [tag];
      } else {
        wanted := if tag in tags then tags else tags + [tag];
      }
      if wanted != tags { WriteItem(u, items[u].(tags := wanted)); }
      return Applied(Some(items[u].changedSeq), None);
    }

    method DeleteItem(l: Uid, u: Uid, env: Env) returns (answer: Answer)
      modifies `changeSeq, `items, `deletions
      ensures Ops.Outcome(State(), answer) == Ops.DeleteItem(old(State()), l, u, env)
    {
      if l !in lists { return Rejected(ListUnavailable, None); }
      if Ops.HasItem(State(), l, u) { DeleteItemRow(u, env.now); }
      return Applied(None, None);
    }

    method RestoreItem(op: Op, env: Env) returns (answer: Answer)
      requires op.ItemRestore?
      modifies `changeSeq, `items
      ensures Ops.Outcome(State(), answer) == Ops.RestoreItem(old(State()), op, env)
    {
      if Ops.NewUidTaken(State(), op.uid, env) { return HttpError; }
      if op.list !in lists { return Rejected(ListUnavailable, None); }
      var merged := Ops.MergeDue(NO_DUE, Sent(op.due.date), Sent(op.due.time), Sent(op.due.zone));
      if merged.None? { return Rejected(InvalidDue, None); }
      if Ops.Unresolved(merged.value).Some? { return Rejected(Ops.Unresolved(merged.value).value, None); }
      var checked := Ops.CheckedName(op.name, MAX_NAME_LENGTH);
      if checked.Bad? { return Rejected(checked.code, None); }
      if |op.description| > MAX_DESCRIPTION_LENGTH { return Rejected(TooLong, None); }
      if Ops.NameTaken(State(), op.list, NameKey(checked.text), None) { return Rejected(UndoNameTaken, None); }
      if |Ops.ItemsOf(items, op.list)| >= MAX_ITEMS_PER_LIST { return Rejected(TooMany, None); }
      var u := Ops.NewUid(op.uid, env);
      WriteItem(u, Ops.RestoredItem(op, checked.text, merged.value, env));
      return Applied(Some(items[u].changedSeq), Some(u));
    }

    /** `HANDLERS[op.type]`. */
    method Apply(op: Op, env: Env) returns (answer: Answer)
      requires UniqueNames(items)
      modifies `name, `changeSeq, `lists, `items, `deletions
      ensures Ops.Outcome(State(), answer) == Ops.Handle(old(State()), op, env)
    {
      hide Ops.RenameRoom, Ops.CreateList, Ops.RenameList, Ops.DeleteList, Ops.AddTag, Ops.RemoveTag,
        Ops.SetTagSettings, Ops.ColorTag, Ops.RenameTag, Ops.SetVisibility, Ops.AddItem, Ops.SetDone,
        Ops.AdjustQuantity, Ops.EditItem, Ops.ToggleTag, Ops.DeleteItem, Ops.RestoreItem, UniqueNames;
      match op {
        case RoomRename(newName) => answer := RenameRoom(newName);
        case ListCreate(newName, uid) => answer := CreateList(newName, uid, env);
        case ListRename(l, newName, base) => answer := RenameList(l, newName, base);
        case ListDelete(l) => answer := DeleteList(l, env);
        case ListTagAdd(l, tag) => answer := AddTag(l, tag);
        case ListTagRemove(l, tag) => answer := RemoveTag(l, tag);
        case ListTagSettings(l, _, _, _) => answer := SetTagSettings(l, op, env);
        case ListTagColor(l, tag, color) => answer := ColorTag(l, tag, color);
        case ListTagRename(l, tag, newTag) => answer := RenameTag(l, tag, newTag, env);
        case ListVisibility(l, _, _, _) => answer := SetVisibility(l, op);
        case ItemAdd(l, itemName, uid) => answer := AddItem(l, itemName, uid, env);
        case ItemSetDone(l, u, done, base) => answer := SetDone(l, u, done, base, env);
        case ItemQuantityDelta(l, u, delta) => answer := AdjustQuantity(l, u, delta);
        case ItemEdit(l, u, _, _, _, _, _, _, _) => answer := EditItem(l, u, op, env);
        case ItemToggleTag(l, u, tag, active) => answer := ToggleTag(l, u, tag, active);
        case ItemDelete(l, u) => answer := DeleteItem(l, u, env);
        case ItemRestore(_, _, _, _, _, _, _, _, _, _, _) => answer := RestoreItem(op, env);
      }
    }

    /** A known op_id replays its response, or is refused with another body; else the op runs and is stored. */
    method RunOnce(sent: SentOp, env: Env) returns (ran: Ran)
      requires Tracked(State()) && Ruled(State()) && Ops.EnvOk(State(), env) && WellFormed(sent.op)
      modifies this
      ensures Tracked(State()) && Ruled(State())
      ensures sent.id in old(processed) ==> State() == old(State()) && processed == old(processed)
      ensures sent.id in old(processed) ==> 
        ran == if old(processed)[sent.id].op == sent.op then Ran(old(processed)[sent.id].response, true) else OpIdReused
      ensures sent.id !in old(processed) ==> var out := Ops.Handle(old(State()), sent.op, env);
        State() == out.db
        && (out.answer.HttpError? ==> ran == Failed && processed == old(processed))
        && (!out.answer.HttpError? ==> ran == Ran(Response(out.answer, out.db.changeSeq), false))
        && (!out.answer.HttpError? ==>
          processed == old(processed)[sent.id := Processed(sent.op, ran.response, env.now)])
    {
      hide Tracked, ListsOk, ItemsOk, CountsOk, UniqueListNames, UniqueNames, Ops.Handle, Ops.EnvOk, WellFormed;
      if sent.id in processed {
        var stored := processed[sent.id];
        if stored.op != sent.op { return OpIdReused; }
        return Ran(stored.response, true);
      }
      HandleKeepsRules(State(), sent.op, env);
      var answer := Apply(sent.op, env);
      if answer.HttpError? { return Failed; }
      ran := Ran(Response(answer, changeSeq), false);
      processed := processed[sent.id := Processed(sent.op, ran.response, env.now)];
    }

    method PruneProcessed(before: Time)
      modifies `processed
      ensures forall id :: id in processed <==> id in old(processed) && before <= old(processed)[id].at
      ensures forall id :: id in processed ==> processed[id] == old(processed)[id]
    {
      processed := map id | id in processed && processed[id].at >= before :: processed[id];
    }

    // Readers

    /** The changes feed: a delta, or a full snapshot when the client may have missed records. */
    method Changes(since: nat) returns (feed: Feed)
      ensures Answers(State(), since, feed)
    {
      hide MaxSeq;
      var full := since == 0 || since > changeSeq || since < pruned;
      var listRows := RowsOf(ChangedLists(State(), since));
      var itemRows := RowsOf(ChangedItems(State(), since));
      var deletionRows: seq<(Kind, Uid)> := [];
      if !full { deletionRows := RecordsOf(After(deletions, since)); }
      feed := Feed(changeSeq, full, name, listRows, itemRows, deletionRows);
    }

    method GetShareSeq(l: Uid) returns (r: nat)
      requires l in lists
      ensures r == ShareSeq(State(), l)
    {
      var itemSeqs := set u | u in items && items[u].list == l :: items[u].changedSeq;
      var deletionSeqs := set d | d in deletions && d.list == l :: d.changedSeq;
      var floor := if l in floors then {floors[l]} else {};
      assert itemSeqs == ItemSeqs(State(), l) && deletionSeqs == DeletionSeqs(State(), l);
      r := MaxOf({lists[l].changedSeq} + itemSeqs + deletionSeqs + floor);
    }

    /** Every record up to the newest old one goes; each list keeps the highest as its floor. */
    method PruneDeletions(before: Time)
      requires Tracked(State()) && Positive(floors)
      modifies `deletions, `floors, `pruned
      ensures State() == Prune(old(State()), PruneSeq(old(deletions), before))
      ensures KeptRecords(old(deletions), deletions, before)
      ensures Positive(floors)
    {
      hide MaxSeq, PruneSeq, KeptRecords, After, Floor, Tracked, Raised, Positive, MaxOver;
      PruneSeqIs(State(), before);
      ghost var db := State();
      var upTo := MaxOf(MaxOver(deletions, before));
      var gone := set d | d in deletions && d.changedSeq <= upTo;
      var raised := RaisedFloors(floors, gone);
      PrunedFloors(db, upTo, gone, raised);
      PrunePositive(db, upTo);
      AfterIs(deletions, upTo, gone);
      floors := KeptFloors(raised, lists);
      deletions := deletions - gone;
      pruned := Max(pruned, upTo);
    }
  }

  lemma AfterIs(deletions: set<Deletion>, upTo: nat, gone: set<Deletion>)
    requires gone == set d | d in deletions && d.changedSeq <= upTo
    ensures After(deletions, upTo) == deletions - gone
  {
  }

  /** The record was made after every record that is older than `before`. */
  predicate AfterOld(deletions: set<Deletion>, before: Time, d: Deletion) {
    forall o | o in deletions :: o.at < before ==> o.changedSeq < d.changedSeq
  }

  ghost predicate KeptRecords(was: set<Deletion>, kept: set<Deletion>, before: Time) {
    forall d :: d in kept <==> d in was && AfterOld(was, before, d)
  }

  lemma PruneSeqIs(db: Db, before: Time)
    requires Tracked(db)
    ensures PruneSeq(db.deletions, before) == MaxSeq(MaxOver(db.deletions, before))
    ensures KeptRecords(db.deletions, After(db.deletions, PruneSeq(db.deletions, before)), before)
  {
    hide MaxSeq;
    var seqs := MaxOver(db.deletions, before);
    var upTo := MaxSeq(seqs);
    assert forall o :: o in db.deletions && o.at < before ==> o.changedSeq in seqs;
    assert forall d :: d in db.deletions ==> d.changedSeq > 0;
  }

  predicate Positive(floors: map<Uid, nat>) { forall l :: l in floors ==> floors[l] > 0 }

  /** Each floor is the highest of the stored one and those of the list's records. */
  ghost predicate Raised(floors: map<Uid, nat>, gone: set<Deletion>, raised: map<Uid, nat>) {
    && (forall l :: l in raised ==> FloorFrom(floors, gone, l, raised[l]))
    && (forall l :: l in floors ==> l in raised && floors[l] <= raised[l])
    && (forall d :: d in gone ==> d.list in raised && d.changedSeq <= raised[d.list])
  }

  method RaisedFloors(floors: map<Uid, nat>, gone: set<Deletion>) returns (raised: map<Uid, nat>)
    ensures Raised(floors, gone, raised)
  {
    raised := floors;
    var rest := gone;
    while rest != {}
      invariant rest <= gone && Raised(floors, gone - rest, raised)
      decreases |rest|
    {
      var d :| d in rest;
      var next := raised[d.list := if d.list in raised then Max(raised[d.list], d.changedSeq) else d.changedSeq];
      RaisedMore(floors, gone - rest, raised, d, next);
      assert gone - rest + {d} == gone - (rest - {d});
      rest, raised := rest - {d}, next;
    }
    assert gone - rest == gone;
  }

  lemma RaisedMore(floors: map<Uid, nat>, gone: set<Deletion>, raised: map<Uid, nat>, d: Deletion, next: map<Uid, nat>)
    requires Raised(floors, gone, raised)
    requires next == raised[d.list := if d.list in raised then Max(raised[d.list], d.changedSeq) else d.changedSeq]
    ensures Raised(floors, gone + {d}, next)
  {
    forall l | l in next ensures FloorFrom(floors, gone + {d}, l, next[l]) {
      if l in raised && next[l] == raised[l] { FloorStays(floors, gone, d, l, raised[l]); }
    }
    hide FloorFrom;
  }

  lemma FloorStays(floors: map<Uid, nat>, gone: set<Deletion>, d: Deletion, l: Uid, floor: nat)
    requires FloorFrom(floors, gone, l, floor)
    ensures FloorFrom(floors, gone + {d}, l, floor)
  {
    if !(l in floors && floors[l] == floor) {
      var x :| x in gone && x.list == l && x.changedSeq == floor;
      assert x in gone + {d};
    }
  }

  /** The value is the list's stored floor or the seq of one of its removed records. */
  ghost predicate FloorFrom(floors: map<Uid, nat>, gone: set<Deletion>, l: Uid, floor: nat) {
    (l in floors && floors[l] == floor) || exists d :: d in gone && d.list == l && d.changedSeq == floor
  }

  function KeptFloors(raised: map<Uid, nat>, lists: map<Uid, List>): map<Uid, nat> {
    map l | l in raised && l in lists :: raised[l]
  }

  lemma PrunedFloors(db: Db, upTo: nat, gone: set<Deletion>, raised: map<Uid, nat>)
    requires Tracked(db) && Positive(db.floors) && gone == (set d | d in db.deletions && d.changedSeq <= upTo)
      && Raised(db.floors, gone, raised)
    ensures KeptFloors(raised, db.lists) == Prune(db, upTo).floors
  {
    RaisedPositive(db, upTo, gone, raised);
    hide Prune, Tracked, Raised, KeptFloors, Positive;
    var kept, floors := KeptFloors(raised, db.lists), Prune(db, upTo).floors;
    forall l ensures (l in kept <==> l in floors) && (l in kept ==> kept[l] == floors[l]) {
      FloorKept(db, upTo, gone, raised, l);
    }
  }

  lemma FloorKept(db: Db, upTo: nat, gone: set<Deletion>, raised: map<Uid, nat>, l: Uid)
    requires Positive(raised) && gone == (set d | d in db.deletions && d.changedSeq <= upTo)
      && Raised(db.floors, gone, raised)
    ensures var kept, floors := KeptFloors(raised, db.lists), Prune(db, upTo).floors;
      (l in kept <==> l in floors) && (l in kept ==> kept[l] == floors[l])
  {
    hide Floor, Raised, After;
    FloorIs(db, upTo, gone, raised, l);
  }

  lemma PrunePositive(db: Db, upTo: nat)
    ensures Positive(Prune(db, upTo).floors)
  {
    hide Floor, After;
  }

  lemma FloorIs(db: Db, upTo: nat, gone: set<Deletion>, raised: map<Uid, nat>, l: Uid)
    requires gone == (set d | d in db.deletions && d.changedSeq <= upTo) && Raised(db.floors, gone, raised)
    ensures Floor(db, l, upTo) == if l in raised then raised[l] else 0
  {
    hide MaxSeq;
    var seqs := set d | d in db.deletions && d.list == l && d.changedSeq <= upTo :: d.changedSeq;
    var floor := if l in raised then raised[l] else 0;
    assert forall x :: x in seqs ==> x <= floor;
    if l in raised { assert FloorFrom(db.floors, gone, l, floor); }
    MaxSeqIs(seqs + (if l in db.floors then {db.floors[l]} else {}), floor);
  }

  lemma RaisedPositive(db: Db, upTo: nat, gone: set<Deletion>, raised: map<Uid, nat>)
    requires Tracked(db) && Positive(db.floors) && gone <= db.deletions && Raised(db.floors, gone, raised)
    ensures Positive(raised)
  {
    forall l | l in raised ensures raised[l] > 0 { assert FloorFrom(db.floors, gone, l, raised[l]); }
  }
}

/**
  What the answers of the op handlers mean, said of the tables and the op alone: when an op is
  applied, why it is refused, what the tables say afterwards, and which times it sets.
 */
module HandlerLaws {
  import opened RoomModel
  import opened Texts
  import opened TagRules
  import opened Tracking
  import opened Operations
  import opened RoomRules

  // What an op meets

  predicate Fits(raw: string, limit: nat) { 0 < |Strip(raw)| <= limit }

  /** The page's version is older than the row. */
  predicate Behind(base: Option<nat>, changedSeq: nat) { base.Some? && base.value < changedSeq }

  /** No row and no record of this room, and no other room, has the ID. */
  predicate Unused(db: Db, uid: Option<Uid>, env: Env) {
    uid.Some? ==>
      && uid.value !in db.lists && uid.value !in db.items && uid.value !in env.elsewhere
      && forall d :: d in db.deletions ==> d.uid != uid.value
  }

  ghost predicate OtherList(db: Db, l: Option<Uid>, name: string) {
    exists x :: x in db.lists && Some(x) != l && ListKey(db.lists[x].name) == ListKey(name)
  }

  predicate Has(db: Db, l: Uid, u: Uid) { u in db.items && db.items[u].list == l }

  predicate NamedSo(db: Db, l: Uid, u: Uid, name: string) {
    Has(db, l, u) && NameKey(db.items[u].name) == NameKey(name)
  }

  ghost predicate OtherItem(db: Db, l: Uid, u: Option<Uid>, name: string) {
    exists x: Uid :: NamedSo(db, l, x, name) && Some(x) != u
  }

  ghost predicate OpenItem(db: Db, l: Uid, name: string) {
    exists x: Uid :: NamedSo(db, l, x, name) && !db.items[x].done
  }

  predicate Full(db: Db, l: Uid) { |set u | u in db.items && db.items[u].list == l| >= 1000 }

  // Schedules

  function Digit(d: nat): char
    requires d < 10
  {
    ('0' as int + d) as char
  }

  function Clock(h: nat, m: nat): string
    requires h < 24 && m < 60
  {
    [Digit(h / 10), Digit(h % 10), ':', Digit(m / 10), Digit(m % 10)]
  }

  /** The clock texts are those of the 1440 minutes of a day. */
  lemma ClockTimes(s: string)
    ensures ClockTime(s) <==> exists h: nat, m: nat :: h < 24 && m < 60 && s == Clock(h, m)
  {
    if ClockTime(s) {
      var a, b, c, d := s[0] as int - '0' as int, s[1] as int - '0' as int, s[3] as int - '0' as int,
          s[4] as int - '0' as int;
      var h: nat, m: nat := 10 * a + b, 10 * c + d;
      assert h / 10 == a && h % 10 == b && m / 10 == c && m % 10 == d;
      assert s == Clock(h, m);
    }
    if h: nat, m: nat :| h < 24 && m < 60 && s == Clock(h, m) { ClockIsTime(h, m); }
  }

  lemma ClockIsTime(h: nat, m: nat)
    requires h < 24 && m < 60
    ensures ClockTime(Clock(h, m))
  {
  }

  /** The part an edit wants: the stored one unless it was sent. */
  function Part(f: Field, stored: Option<string>): Option<string> { if f == Unsent then stored else f.value }
  predicate Asks(f: Field) { f != Unsent && f.value != None }

  /** The schedule that is wanted, each part only with the part it needs. */
  function Wanted(stored: Due, date: Field, time: Field, zone: Field): Due {
    if date == Unsent && time == Unsent && zone == Unsent then stored else
    var d := Part(date, stored.date);
    var t := if d == None then None else Part(time, stored.time);
    Due(d, t, if t == None then None else Part(zone, stored.zone))
  }

  /** A part is asked for without the one it needs, a time has no zone, or is none of the clock. */
  predicate Misfit(stored: Due, date: Field, time: Field, zone: Field) {
    && (date != Unsent || time != Unsent || zone != Unsent)
    && var w := Wanted(stored, date, time, zone);
    || (w.date == None && (Asks(time) || Asks(zone))) || (w.time == None && Asks(zone))
    || (w.time != None && (w.zone == None || !ClockTime(w.time.value)))
  }

  lemma MergeIs(stored: Due, date: Field, time: Field, zone: Field)
    ensures MergeDue(stored, date, time, zone)
      == if Misfit(stored, date, time, zone) then None else Some(Wanted(stored, date, time, zone))
  {
    hide ClockTime;
  }

  function WantedDue(row: Item, op: Op): Due
    requires op.ItemEdit?
  {
    Wanted(row.due, op.date, op.time, op.zone)
  }

  function RestoredDue(op: Op): Due
    requires op.ItemRestore?
  {
    Wanted(NO_DUE, Sent(op.due.date), Sent(op.due.time), Sent(op.due.zone))
  }

  // What the tables say

  /** The item says what the edit wants; a quantity not sent is not part of it. */
  predicate EditStored(row: Item, op: Op, due: Due)
    requires op.ItemEdit?
  {
    && row.name == Strip(op.name) && row.description == Strip(op.description) && row.due == due
    && (op.quantity.Some? ==> row.quantity == if op.quantity.value < 1 then 1 else op.quantity.value)
  }

  /** The item says what the restore brings, with defaults for a count. */
  predicate RestoreStored(row: Item, op: Op)
    requires op.ItemRestore?
  {
    && row.name == Strip(op.name) && row.done == op.done && row.tags == op.tags && row.description == op.description
    && row.quantity == (if op.amount < 1 then 1 else op.amount) && row.due == RestoredDue(op)
    && row.completedAt == (if op.done then op.completedAt else None) && row.addedAt == op.addedAt
    && row.addCount == (if op.addCount.Some? then op.addCount.value else 1)
  }

  /** The tables say what the op wants. */
  ghost predicate Says(db: Db, op: Op) {
    match op
    case RoomRename(name) => db.name == Strip(name)
    case ListCreate(name, _) => OtherList(db, None, Strip(name))
    case ListRename(l, name, _) => l in db.lists && db.lists[l].name == Strip(name)
    case ListDelete(l) => l !in db.lists && forall u :: u in db.items ==> db.items[u].list != l
    case ListTagAdd(l, tag) => l in db.lists && Strip(tag) in db.lists[l].tags
    case ListTagRemove(l, tag) =>
      l in db.lists && tag !in db.lists[l].tags && tag !in db.lists[l].settings.colors
    case ListTagColor(l, tag, color) =>
      l in db.lists && tag in db.lists[l].tags && var colors := db.lists[l].settings.colors;
        if color.Some? then tag in colors && colors[tag] == color.value else tag !in colors
    case ListTagSettings(l, mode, show, only) =>
      l in db.lists && var s := db.lists[l].settings;
        && (mode.Some? ==> s.mode == mode.value) && (show.Some? ==> s.showOnItems == show.value)
        && (only.Some? ==> s.onlyItemTags == only.value)
    case ListTagRename(l, tag, newTag) =>
      && l in db.lists && Strip(newTag) in db.lists[l].tags && (Strip(newTag) != tag ==> tag !in db.lists[l].tags)
    case ListVisibility(l, mode, days, count) =>
      l in db.lists && var h := db.lists[l].hide;
        && (mode.Some? ==> h.mode == mode.value) && (days.Some? ==> h.ageDays == days.value)
        && (count.Some? ==> h.recentCount == count.value)
    case ItemAdd(l, name, _) => OpenItem(db, l, Strip(name))
    case ItemSetDone(l, u, done, _) => Has(db, l, u) && db.items[u].done == done
    case ItemEdit(l, u, _, _, _, _, _, _, _) => Has(db, l, u) && EditStored(db.items[u], op, WantedDue(db.items[u], op))
    case ItemToggleTag(l, u, tag, active) =>
      Has(db, l, u) && (active.Some? ==> (tag in db.items[u].tags <==> active.value))
    case ItemDelete(l, u) => !Has(db, l, u)
    case ItemRestore(l, _, _, _, _, _, _, _, _, _, _) =>
      exists x: Uid :: Has(db, l, x) && RestoreStored(db.items[x], op)
    case ItemQuantityDelta(l, u, _) => Has(db, l, u) && db.items[u].quantity >= 1
  }

  /** The version of the row that an op with a base is about. */
  function RowSeq(db: Db, op: Op): Option<nat> {
    match op
    case ListRename(l, _, _) => if l in db.lists then Some(db.lists[l].changedSeq) else None
    case ItemSetDone(l, u, _, _) => if Has(db, l, u) then Some(db.items[u].changedSeq) else None
    case ItemEdit(l, u, _, _, _, _, _, _, _) => if Has(db, l, u) then Some(db.items[u].changedSeq) else None
    case _ => None
  }

  function SeenVersion(op: Op): Option<nat> {
    if op.ListRename? || op.ItemSetDone? || op.ItemEdit? then op.base else None
  }

  /** The page that sent the op saw an older version of the row. */
  predicate Stale(db: Db, op: Op) { RowSeq(db, op).Some? && Behind(SeenVersion(op), RowSeq(db, op).value) }

  // The checks of an op, in the order of the code

  datatype Check =
    | UidFree | ListThere | ItemThere | TextGiven | TextShort | DescriptionShort | PartsFit | RowSeen | ZoneKnown
    | InCalendar | NameFree | NotOpen | TagListed | InRange | RoomLeft

  /** The text an op brings, and how long it may be. */
  function TextOf(op: Op): (string, nat) {
    match op
    case RoomRename(name) => (name, 100)
    case ListCreate(name, _) => (name, 100)
    case ListRename(_, name, _) => (name, 100)
    case ListTagAdd(_, tag) => (tag, 30)
    case ListTagRename(_, _, tag) => (tag, 30)
    case ItemAdd(_, name, _) => (name, 100)
    case ItemEdit(_, _, name, _, _, _, _, _, _) => (name, 100)
    case ItemRestore(_, _, name, _, _, _, _, _, _, _, _) => (name, 100)
    case _ => ("-", 100)
  }

  function UidOf(op: Op): Option<Uid> { if op.ListCreate? || op.ItemAdd? || op.ItemRestore? then op.uid else None }

  /** The new schedule that has to be resolved, if the op brings one. */
  function NewDue(db: Db, op: Op): Option<Due> {
    match op
    case ItemEdit(l, u, _, _, _, _, _, _, _) =>
      if Has(db, l, u) && WantedDue(db.items[u], op) != db.items[u].due then Some(WantedDue(db.items[u], op)) else None
    case ItemRestore(_, _, _, _, _, _, _, _, _, _, _) => Some(RestoredDue(op))
    case _ => None
  }

  /** What the zone data and the calendar say to a timed schedule. */
  function Looked(due: Due): Option<Resolution> {
    if due.date.Some? && due.time.Some? && due.zone.Some?
    then Some(Resolve(due.date.value, due.time.value, due.zone.value)) else None
  }

  ghost predicate Fails(db: Db, op: Op, env: Env, check: Check) {
    match check
    case UidFree => !Unused(db, UidOf(op), env)
    case ListThere => !op.RoomRename? && !op.ListCreate? && op.list !in db.lists
    case ItemThere =>
      (op.ItemSetDone? || op.ItemQuantityDelta? || op.ItemEdit? || op.ItemToggleTag?) && !Has(db, op.list, op.item)
    case TextGiven => Strip(TextOf(op).0) == []
    case TextShort => |Strip(TextOf(op).0)| > TextOf(op).1
    case DescriptionShort =>
      (op.ItemEdit? && |Strip(op.description)| > 1000) || (op.ItemRestore? && |op.description| > 1000)
    case PartsFit =>
      || (op.ItemEdit? && Has(db, op.list, op.item) && Misfit(db.items[op.item].due, op.date, op.time, op.zone))
      || (op.ItemRestore? && Misfit(NO_DUE, Sent(op.due.date), Sent(op.due.time), Sent(op.due.zone)))
    case RowSeen => Stale(db, op) && !Says(db, op)
    case ZoneKnown => NewDue(db, op).Some? && Looked(NewDue(db, op).value) == Some(NoZone)
    case InCalendar => NewDue(db, op).Some? && Looked(NewDue(db, op).value) == Some(OutsideCalendar)
    case NameFree =>
      || (op.ListRename? && OtherList(db, Some(op.list), Strip(op.name)))
      || (op.ListTagRename? && op.list in db.lists && Strip(op.newTag) in db.lists[op.list].tags
        && Strip(op.newTag) != op.tag)
      || (op.ItemEdit? && OtherItem(db, op.list, Some(op.item), Strip(op.name)))
      || (op.ItemRestore? && OtherItem(db, op.list, None, Strip(op.name)))
    case NotOpen => op.ItemAdd? && OpenItem(db, op.list, Strip(op.name))
    case TagListed => (op.ListTagColor? || op.ListTagRename?) && op.list in db.lists
        && op.tag !in db.lists[op.list].tags
    case InRange =>
      op.ListVisibility? && op.list in db.lists && var h := db.lists[op.list].hide;
        !(1 <= Keep(op.ageDays, h.ageDays) <= 100_000 && 1 <= Keep(op.recentCount, h.recentCount) <= 100_000)
    case RoomLeft =>
      || (op.ListCreate? && !OtherList(db, None, Strip(op.name)) && |db.lists| >= 100)
      || (op.ItemAdd? && !OtherItem(db, op.list, None, Strip(op.name)) && Full(db, op.list))
      || (op.ItemRestore? && Full(db, op.list))
        || (op.ListTagAdd? && op.list in db.lists && !Says(db, op) && |db.lists[op.list].tags| >= 50)
  }

  /** The answer to a failed check; a duplicate names the open item. */
  ghost predicate Refuses(db: Db, op: Op, check: Check, answer: Answer) {
    match check
    case UidFree => answer == HttpError
    case ListThere => answer == Rejected(ListUnavailable, None)
    case ItemThere => answer == Rejected(ItemNotFound, None)
    case TextGiven => answer == Rejected(InvalidName, None)
    case TextShort => answer == Rejected(TooLong, None)
    case DescriptionShort => answer == Rejected(TooLong, None)
    case PartsFit => answer == Rejected(InvalidDue, None)
    case RowSeen => answer == Rejected(ChangedMeanwhile, None)
    case ZoneKnown => answer == Rejected(Code.TimeZoneUnavailable, None)
    case InCalendar => answer == Rejected(InvalidDue, None)
    case NameFree => answer == Rejected(if op.ItemRestore? then UndoNameTaken else DuplicateName, None)
    case NotOpen =>
      && answer.Rejected? && answer.code == DuplicateActive && answer.item.Some? && op.ItemAdd?
      && NamedSo(db, op.list, answer.item.value, Strip(op.name)) && !db.items[answer.item.value].done
    case TagListed => answer == Rejected(UnknownTag, None)
    case InRange => answer == HttpError
    case RoomLeft => answer == Rejected(TooMany, None)
  }

  /** `check`, if it fails, else what comes after it. */
  ghost function Or(db: Db, op: Op, env: Env, check: Check, rest: Option<Check>): Option<Check> {
    if Fails(db, op, env, check) then Some(check) else rest
  }

  ghost function TextThen(db: Db, op: Op, env: Env, rest: Option<Check>): Option<Check> {
    Or(db, op, env, TextGiven, Or(db, op, env, TextShort, rest))
  }

  ghost function DueThen(db: Db, op: Op, env: Env, rest: Option<Check>): Option<Check> {
    Or(db, op, env, ZoneKnown, Or(db, op, env, InCalendar, rest))
  }

  ghost function EditFailure(db: Db, op: Op, env: Env): Option<Check> {
    Or(db, op, env, ListThere, Or(db, op, env, ItemThere, TextThen(db, op, env,
      Or(db, op, env, DescriptionShort, Or(db, op, env, PartsFit, Or(db, op, env, RowSeen,
        DueThen(db, op, env, Or(db, op, env, NameFree, None))))))))
  }

  ghost function RestoreFailure(db: Db, op: Op, env: Env): Option<Check> {
    Or(db, op, env, UidFree, Or(db, op, env, ListThere, Or(db, op, env, PartsFit, DueThen(db, op, env,
      TextThen(db, op, env, Or(db, op, env, DescriptionShort, Or(db, op, env, NameFree,
        Or(db, op, env, RoomLeft, None))))))))
  }

  /** The first check that fails. */
  ghost function FirstFailure(db: Db, op: Op, env: Env): Option<Check> {
    var last := (check: Check) => Or(db, op, env, check, None);
    match op
    case RoomRename(_) => TextThen(db, op, env, None)
    case ListCreate(_, _) => Or(db, op, env, UidFree, TextThen(db, op, env, last(RoomLeft)))
    case ListRename(_, _, _) =>
      Or(db, op, env, ListThere, TextThen(db, op, env, Or(db, op, env, RowSeen, last(NameFree))))
    case ListTagAdd(_, _) => Or(db, op, env, ListThere, TextThen(db, op, env, last(RoomLeft)))
    case ListTagColor(_, _, _) => Or(db, op, env, ListThere, last(TagListed))
    case ListTagRename(_, _, _) =>
      Or(db, op, env, ListThere, TextThen(db, op, env, Or(db, op, env, TagListed, last(NameFree))))
    case ListVisibility(_, _, _, _) => Or(db, op, env, ListThere, last(InRange))
    case ItemAdd(_, _, _) =>
      Or(db, op, env, UidFree,
        Or(db, op, env, ListThere, TextThen(db, op, env, Or(db, op, env, NotOpen, last(RoomLeft)))))
    case ItemSetDone(_, _, _, _) => Or(db, op, env, ListThere, Or(db, op, env, ItemThere, last(RowSeen)))
    case ItemQuantityDelta(_, _, _) => Or(db, op, env, ListThere, last(ItemThere))
    case ItemToggleTag(_, _, _, _) => Or(db, op, env, ListThere, last(ItemThere))
    case ItemEdit(_, _, _, _, _, _, _, _, _) => EditFailure(db, op, env)
    case ItemRestore(_, _, _, _, _, _, _, _, _, _, _) => RestoreFailure(db, op, env)
    case _ => last(ListThere)
  }

  /** The answer of the handler is that of the first failed check; without one the op is applied. */
  ghost predicate AnswersRight(db: Db, op: Op, env: Env) {
    match FirstFailure(db, op, env)
    case None => Handle(db, op, env).answer.Applied?
    case Some(check) => Refuses(db, op, check, Handle(db, op, env).answer)
  }

  lemma UnusedIs(db: Db, uid: Option<Uid>, env: Env)
    ensures Unused(db, uid, env) <==> !NewUidTaken(db, uid, env)
  {
  }

  lemma OtherListIs(db: Db, l: Option<Uid>, name: string)
    ensures OtherList(db, l, name) <==> ListNameTaken(db, ListKey(name), l)
  {
    if OtherList(db, l, name) {
      var x :| x in db.lists && Some(x) != l && ListKey(db.lists[x].name) == ListKey(name);
      assert ListNamed(db, x, ListKey(name));
    }
    if ListNameTaken(db, ListKey(name), l) {
      var x :| x in db.lists && ListNamed(db, x, ListKey(name)) && Some(x) != l;
      assert ListKey(db.lists[x].name) == ListKey(name);
    }
  }

  lemma OtherItemIs(db: Db, l: Uid, u: Option<Uid>, name: string)
    ensures OtherItem(db, l, u, name) <==> NameTaken(db, l, NameKey(name), u)
  {
    if OtherItem(db, l, u, name) {
      var x: Uid :| NamedSo(db, l, x, name) && Some(x) != u;
      assert Names(db, l, x, NameKey(name));
    }
    if NameTaken(db, l, NameKey(name), u) {
      var x :| x in db.items && Names(db, l, x, NameKey(name)) && Some(x) != u;
      assert NamedSo(db, l, x, name);
    }
  }

  lemma ListOpAnswers(db: Db, op: Op, env: Env)
    requires op.RoomRename? || op.ListRename? || op.ListTagAdd? || op.ListTagRename?
    ensures AnswersRight(db, op, env)
  {
    hide Strip, OtherList, ListNameTaken, ListKey, Retag;
    if op.ListRename? { OtherListIs(db, Some(op.list), Strip(op.name)); }
  }

  lemma CreateAnswers(db: Db, op: Op, env: Env)
    requires op.ListCreate?
    ensures AnswersRight(db, op, env)
  {
    hide Strip, Unused, NewUidTaken, OtherList, ListNameTaken, ListKey;
    UnusedIs(db, op.uid, env);
    OtherListIs(db, None, Strip(op.name));
  }

  /** The text checks are those of the code. */
  lemma TextFails(db: Db, op: Op, env: Env)
    ensures var c := CheckedName(TextOf(op).0, TextOf(op).1);
      && (Fails(db, op, env, TextGiven) ==> c == Bad(InvalidName))
      && (!Fails(db, op, env, TextGiven) && Fails(db, op, env, TextShort) ==> c == Bad(TooLong))
      && (!Fails(db, op, env, TextGiven) && !Fails(db, op, env, TextShort) ==> c == Good(Strip(TextOf(op).0)))
  {
    hide Strip;
  }

  lemma AddFails(db: Db, op: Op, env: Env)
    requires op.ItemAdd? && UniqueNames(db.items)
    ensures Fails(db, op, env, UidFree) <==> NewUidTaken(db, op.uid, env)
    ensures Fails(db, op, env, ListThere) <==> op.list !in db.lists
    ensures var found := Named(db, op.list, NameKey(Strip(op.name)));
      && (Fails(db, op, env, NotOpen) <==> found.Some? && !db.items[found.value].done)
      && (Fails(db, op, env, RoomLeft) <==> found.None? && |ItemsOf(db.items, op.list)| >= 1000)
      && (found.Some? ==> NamedSo(db, op.list, found.value, Strip(op.name)))
  {
    hide Strip, Unused, NewUidTaken, NameKey;
    UnusedIs(db, op.uid, env);
    var name := Strip(op.name);
    var found := Named(db, op.list, NameKey(name));
    if found.Some? {
      assert NamedSo(db, op.list, found.value, name);
    } else {
      forall x: Uid ensures !NamedSo(db, op.list, x, name) { assert !Names(db, op.list, x, NameKey(name)); }
    }
    assert (set u | u in db.items && db.items[u].list == op.list) == ItemsOf(db.items, op.list);
  }

  lemma AddAnswers(db: Db, op: Op, env: Env)
    requires op.ItemAdd? && UniqueNames(db.items)
    ensures AnswersRight(db, op, env)
  {
    hide Fails, Strip, NewUidTaken, NameKey, UniqueNames, CheckedName, PutItem, NamedSo, ItemsOf;
    AddFails(db, op, env);
    TextFails(db, op, env);
  }

  lemma DueFails(db: Db, op: Op, env: Env)
    requires NewDue(db, op).Some?
    ensures var code := Unresolved(NewDue(db, op).value);
      && (Fails(db, op, env, ZoneKnown) ==> code == Some(Code.TimeZoneUnavailable))
      && (!Fails(db, op, env, ZoneKnown) && Fails(db, op, env, InCalendar) ==> code == Some(InvalidDue))
      && (!Fails(db, op, env, ZoneKnown) && !Fails(db, op, env, InCalendar) ==> code == None)
  {
    hide NewDue;
  }

  /** Whether the row already says what the edit wants, and what is checked of its schedule and version. */
  lemma EditFails(db: Db, op: Op, env: Env)
    requires op.ItemEdit? && Has(db, op.list, op.item)
    ensures var row := db.items[op.item]; var due := WantedDue(row, op);
      && MergeDue(row.due, op.date, op.time, op.zone) == (if Fails(db, op, env, PartsFit) then None else Some(due))
      && (Fails(db, op, env, RowSeen) <==> !BaseOk(op.base, row.changedSeq, EditStored(row, op, due)))
      && NewDue(db, op) == (if due != row.due then Some(due) else None)
      && (Fails(db, op, env, NameFree) <==> NameTaken(db, op.list, NameKey(Strip(op.name)), Some(op.item)))
      && (Fails(db, op, env, DescriptionShort) <==> |Strip(op.description)| > 1000)
  {
    MergeIs(db.items[op.item].due, op.date, op.time, op.zone);
    OtherItemIs(db, op.list, Some(op.item), Strip(op.name));
    hide Strip, OtherItem, NameTaken, NameKey, Misfit, Wanted, MergeDue;
  }

  lemma NoNewDue(db: Db, op: Op, env: Env)
    requires NewDue(db, op).None?
    ensures !Fails(db, op, env, ZoneKnown) && !Fails(db, op, env, InCalendar)
  {
  }

  lemma EditThere(db: Db, op: Op, env: Env)
    requires op.ItemEdit?
    ensures Fails(db, op, env, ListThere) <==> op.list !in db.lists
    ensures Fails(db, op, env, ItemThere) <==> !HasItem(db, op.list, op.item)
  {
  }

  lemma EditPresent(db: Db, op: Op, env: Env)
    requires op.ItemEdit? && Has(db, op.list, op.item) && op.list in db.lists
    ensures AnswersRight(db, op, env)
  {
    assert Handle(db, op, env) == EditItem(db, op.list, op.item, op, env);
    assert FirstFailure(db, op, env) == EditFailure(db, op, env);
    EditThere(db, op, env);
    EditFails(db, op, env);
    TextFails(db, op, env);
    EditDueFails(db, op, env);
    hide Fails, Strip, NameTaken, NameKey, MergeDue, Edited, WantedDue, NewDue, Unresolved, BaseOk, CheckedName, Handle,
      FirstFailure, PutItem;
  }

  lemma EditAnswers(db: Db, op: Op, env: Env)
    requires op.ItemEdit?
    ensures AnswersRight(db, op, env)
  {
    if op.list in db.lists && HasItem(db, op.list, op.item) {
      EditPresent(db, op, env);
    } else {
      assert Handle(db, op, env) == EditItem(db, op.list, op.item, op, env);
      EditThere(db, op, env);
      hide Fails, Strip, NameTaken, MergeDue, Edited, NewDue, Unresolved, BaseOk, CheckedName, Handle;
    }
  }

  lemma EditDueFails(db: Db, op: Op, env: Env)
    requires op.ItemEdit? && Has(db, op.list, op.item)
    ensures var row := db.items[op.item]; var due := WantedDue(row, op);
      var code := if due != row.due then Unresolved(due) else None;
      && (Fails(db, op, env, ZoneKnown) ==> code == Some(Code.TimeZoneUnavailable))
      && (!Fails(db, op, env, ZoneKnown) && Fails(db, op, env, InCalendar) ==> code == Some(InvalidDue))
      && (!Fails(db, op, env, ZoneKnown) && !Fails(db, op, env, InCalendar) ==> code == None)
  {
    hide Unresolved, WantedDue, Fails;
    if NewDue(db, op).Some? { DueFails(db, op, env); } else { NoNewDue(db, op, env); }
  }

  lemma RestoreFails(db: Db, op: Op, env: Env)
    requires op.ItemRestore?
    ensures MergeDue(NO_DUE, Sent(op.due.date), Sent(op.due.time), Sent(op.due.zone))
      == if Fails(db, op, env, PartsFit) then None else Some(RestoredDue(op))
    ensures NewDue(db, op) == Some(RestoredDue(op))
    ensures Fails(db, op, env, UidFree) <==> NewUidTaken(db, op.uid, env)
    ensures Fails(db, op, env, ListThere) <==> op.list !in db.lists
    ensures Fails(db, op, env, NameFree) <==> NameTaken(db, op.list, NameKey(Strip(op.name)), None)
    ensures Fails(db, op, env, DescriptionShort) <==> |op.description| > 1000
    ensures Fails(db, op, env, RoomLeft) <==> |ItemsOf(db.items, op.list)| >= 1000
  {
    MergeIs(NO_DUE, Sent(op.due.date), Sent(op.due.time), Sent(op.due.zone));
    OtherItemIs(db, op.list, None, Strip(op.name));
    UnusedIs(db, op.uid, env);
    assert (set u | u in db.items && db.items[u].list == op.list) == ItemsOf(db.items, op.list);
    hide Strip, OtherItem, NameTaken, NameKey, Misfit, Wanted, MergeDue, Unused, NewUidTaken;
  }

  lemma RestoreAnswers(db: Db, op: Op, env: Env)
    requires op.ItemRestore?
    ensures AnswersRight(db, op, env)
  {
    RestoreFails(db, op, env);
    TextFails(db, op, env);
    DueFails(db, op, env);
    assert Handle(db, op, env) == RestoreItem(db, op, env) && FirstFailure(db, op, env) == RestoreFailure(db, op, env);
    hide Fails, Strip, NameTaken, NameKey, MergeDue, RestoredItem, RestoredDue, NewDue, Unresolved, CheckedName,
      NewUidTaken, ItemsOf, Handle, FirstFailure, PutItem;
  }

  /** For every op and every room with unique item names. */
  lemma AnswerIsFirstFailure(db: Db, op: Op, env: Env)
    requires UniqueNames(db.items)
    ensures AnswersRight(db, op, env)
  {
    hide UniqueNames, Strip, NameKey;
    match op {
      case ItemAdd(_, _, _) => AddAnswers(db, op, env);
      case ItemEdit(_, _, _, _, _, _, _, _, _) => EditAnswers(db, op, env);
      case ItemRestore(_, _, _, _, _, _, _, _, _, _, _) => RestoreAnswers(db, op, env);
      case RoomRename(_) => ListOpAnswers(db, op, env);
      case ListCreate(_, _) => CreateAnswers(db, op, env);
      case ListRename(_, _, _) => ListOpAnswers(db, op, env);
      case ListTagAdd(_, _) => ListOpAnswers(db, op, env);
      case ListTagRename(_, _, _) => ListOpAnswers(db, op, env);
      case _ =>
    }
  }

  // Lost updates

  /** No lost update: a stale op is applied only where the row says what it wants, and then it writes nothing. */
  lemma StaleWritesNothing(db: Db, op: Op, env: Env)
    requires Stale(db, op) && Handle(db, op, env).answer.Applied?
    ensures Handle(db, op, env).db == db && Says(db, op)
  {
    if op.ItemEdit? { MergeIs(db.items[op.item].due, op.date, op.time, op.zone); }
    hide Strip, NameTaken, ListNameTaken, Misfit, MergeDue, Wanted, Edited;
  }

  /** A stale check, uncheck or rename whose row says otherwise is refused as changed meanwhile. */
  lemma StaleRefused(db: Db, op: Op, env: Env)
    requires Stale(db, op) && !Says(db, op) && op.list in db.lists
    requires op.ListRename? ==> Fits(op.name, 100)
    requires op.ItemEdit? ==>
      && Fits(op.name, 100) && |Strip(op.description)| <= 1000
      && !Misfit(db.items[op.item].due, op.date, op.time, op.zone)
    ensures Handle(db, op, env) == Outcome(db, Rejected(ChangedMeanwhile, None))
  {
    if op.ItemEdit? {
      var row := db.items[op.item];
      MergeIs(row.due, op.date, op.time, op.zone);
      WantedAgain(row.due, op.date, op.time, op.zone);
    }
    hide Strip, NameTaken, ListNameTaken, Misfit, MergeDue, Wanted, Edited;
  }

  /** Merging once more changes nothing. */
  lemma WantedAgain(stored: Due, date: Field, time: Field, zone: Field)
    ensures var w := Wanted(stored, date, time, zone);
      !Misfit(stored, date, time, zone) ==> Wanted(w, date, time, zone) == w
  {
    hide ClockTime;
  }
}

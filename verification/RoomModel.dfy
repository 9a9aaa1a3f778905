/** The data of one room: what the tables hold, what a feed carries, and the write operations. */
module RoomModel {

  datatype Option<+T> = None | Some(value: T)

  /** A public ID. A UUID is a 128-bit number. */
  type Uid = nat
  type Time = int

  datatype TagMode = Single | Multi
  datatype HideMode = Off | All | Age | Recent
  datatype Hide = Hide(mode: HideMode, ageDays: int, recentCount: int)
  datatype TagSettings = TagSettings(mode: TagMode, showOnItems: bool, onlyItemTags: bool, colors: map<string, int>)

  datatype List = List(name: string, tags: seq<string>, hide: Hide, settings: TagSettings, changedSeq: nat)

  /** The shared due schedule: a time and a zone go together and need a date. */
  datatype Due = Due(date: Option<string>, time: Option<string>, zone: Option<string>)
  const NO_DUE := Due(None, None, None)

  /** The due cycle stays on the server: the published row has none. */
  datatype Cycle = Cycle(id: nat, startedAt: Time)

  datatype Item = Item(
    list: Uid, name: string, done: bool, completedAt: Option<Time>, quantity: int, description: string,
    due: Due, dueAt: Option<Time>, tags: seq<string>, addCount: int, addedAt: Option<Time>,
    cycle: Option<Cycle>, changedSeq: nat)

  datatype Kind = ListKind | ItemKind
  datatype Deletion = Deletion(kind: Kind, uid: Uid, list: Uid, changedSeq: nat, at: Time)

  /** The tables of one room. Rows are found by their public ID. */
  datatype Db = Db(
    name: string, changeSeq: nat, lists: map<Uid, List>, items: map<Uid, Item>,
    deletions: set<Deletion>, pruned: nat, floors: map<Uid, nat>)

  /** A room as a page holds it: the server's rows as published. */
  datatype View = View(name: string, lists: map<Uid, List>, items: map<Uid, Item>)

  /** A field of an edit that may be absent (kept), null (cleared) or a value. */
  datatype Field = Unsent | Sent(value: Option<string>)

  /** The 17 write operations, already checked for shape. `base` is the row version the page saw. */
  datatype Op =
    | RoomRename(name: string)
    | ListCreate(name: string, uid: Option<Uid>)
    | ListRename(list: Uid, name: string, base: Option<nat>)
    | ListDelete(list: Uid)
    | ListTagAdd(list: Uid, tag: string)
    | ListTagRemove(list: Uid, tag: string)
    | ListTagSettings(list: Uid, mode: Option<TagMode>, show: Option<bool>, only: Option<bool>)
    | ListTagColor(list: Uid, tag: string, color: Option<int>)
    | ListTagRename(list: Uid, tag: string, newTag: string)
    | ListVisibility(list: Uid, hideMode: Option<HideMode>, ageDays: Option<int>, recentCount: Option<int>)
    | ItemAdd(list: Uid, name: string, uid: Option<Uid>)
    | ItemSetDone(list: Uid, item: Uid, done: bool, base: Option<nat>)
    | ItemQuantityDelta(list: Uid, item: Uid, delta: int)
    | ItemEdit(list: Uid, item: Uid, name: string, description: string, quantity: Option<int>,
               date: Field, time: Field, zone: Field, base: Option<nat>)
    | ItemToggleTag(list: Uid, item: Uid, tag: string, active: Option<bool>)
    | ItemDelete(list: Uid, item: Uid)
    | ItemRestore(list: Uid, uid: Option<Uid>, name: string, done: bool, tags: seq<string>, description: string,
                  amount: int, completedAt: Option<Time>, due: Due, addCount: Option<int>, addedAt: Option<Time>)

  /** An op as sent, with its retry-safe ID. */
  datatype SentOp = SentOp(id: Uid, op: Op)

  datatype Code =
    | InvalidName | TooLong | DuplicateName | DuplicateActive | UndoNameTaken | ChangedMeanwhile
    | ListUnavailable | ItemNotFound | UnknownTag | TooMany | InvalidDue | TimeZoneUnavailable

  /** `HttpError` is an answer outside the protocol: nothing is written and nothing is stored. */
  datatype Answer =
    | Applied(changedSeq: Option<nat>, item: Option<Uid>)
    | Rejected(code: Code, item: Option<Uid>)
    | HttpError
  datatype Response = Response(answer: Answer, roomSeq: nat)

  /**
    What an operation takes from outside the tables: the clock, new IDs, the IDs other rooms
    use, and the order in which SQLite visits the rows of one statement.
   */
  datatype Env = Env(now: Time, cycle: nat, newUid: Uid, elsewhere: set<Uid>, order: seq<Uid>)

  const MAX_NAME_LENGTH := 100
  const MAX_DESCRIPTION_LENGTH := 1000
  const MAX_TAG_LENGTH := 30
  const MAX_ITEMS_PER_LIST := 1000
  const MAX_LISTS_PER_ROOM := 100
  const MAX_TAGS_PER_LIST := 50
  const MAX_TAG_COLOR := 6
  const MAX_HIDE_DONE_COUNT := 100_000

  /** Value ranges the request models already guarantee (an op outside them never gets here). */
  predicate WellFormed(op: Op) {
    match op
    case ListTagColor(_, _, color) => color.Some? ==> 0 <= color.value <= MAX_TAG_COLOR
    case ListVisibility(_, _, days, count) =>
      && (days.Some? ==> 1 <= days.value <= MAX_HIDE_DONE_COUNT)
      && (count.Some? ==> 1 <= count.value <= MAX_HIDE_DONE_COUNT)
    case ItemRestore(_, _, _, _, _, _, _, _, _, addCount, _) => addCount.Some? ==> addCount.value >= 1
    case _ => true
  }

  function Keep<T>(given: Option<T>, stored: T): T { if given.Some? then given.value else stored }
  function Max(a: int, b: int): int { if a < b then b else a }

  lemma {:induction false} FewerMembers<T>(a: set<T>, b: set<T>)
    requires a <= b
    ensures |a| <= |b|
  {
    if a != {} {
      var x :| x in a;
      FewerMembers(a - {x}, b - {x});
    }
  }
}

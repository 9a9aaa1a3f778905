/**
  Change tracking: the effect of one row statement together with its trigger
  (src/database_setup.py), pruning, and what every statement keeps.
 */
module Tracking {
  import opened RoomModel

  // INSERT and UPDATE have the same effect on the tables: one bump, and the row is stamped.

  function PutList(db: Db, u: Uid, row: List): Db {
    db.(changeSeq := db.changeSeq + 1, lists := db.lists[u := row.(changedSeq := db.changeSeq + 1)])
  }

  function PutItem(db: Db, u: Uid, row: Item): Db {
    db.(changeSeq := db.changeSeq + 1, items := db.items[u := row.(changedSeq := db.changeSeq + 1)])
  }

  function DropList(db: Db, u: Uid, now: Time): Db {
    db.(changeSeq := db.changeSeq + 1, lists := db.lists - {u},
        deletions := db.deletions + {Deletion(ListKind, u, u, db.changeSeq + 1, now)})
  }

  function DropItem(db: Db, u: Uid, now: Time): Db
    requires u in db.items
  {
    db.(changeSeq := db.changeSeq + 1, items := db.items - {u},
        deletions := db.deletions + {Deletion(ItemKind, u, db.items[u].list, db.changeSeq + 1, now)})
  }

  function PutName(db: Db, name: string): Db {
    db.(changeSeq := db.changeSeq + 1, name := name)
  }

  function After(deletions: set<Deletion>, since: nat): set<Deletion> {
    set d | d in deletions && d.changedSeq > since
  }

  /** The list's highest deletion record up to `upTo`, or its stored floor (0 if neither). */
  ghost function Floor(db: Db, l: Uid, upTo: nat): nat {
    MaxSeq((set d | d in db.deletions && d.list == l && d.changedSeq <= upTo :: d.changedSeq)
           + if l in db.floors then {db.floors[l]} else {})
  }

  ghost function MaxSeq(s: set<nat>): (m: nat)
    ensures forall x :: x in s ==> x <= m
    ensures m == 0 || m in s
  {
    if s == {} then 0 else
      var x :| x in s;
      assert s == {x} + (s - {x});
      Max(x, MaxSeq(s - {x}))
  }

  /** Pruning up to seq `upTo`: the records go, their lists keep a floor, the room keeps the seq. */
  ghost function Prune(db: Db, upTo: nat): Db {
    db.(deletions := After(db.deletions, upTo),
        pruned := Max(db.pruned, upTo),
        floors := map l | l in db.lists && Floor(db, l, upTo) > 0 :: Floor(db, l, upTo))
  }

  /** One statement of any writer. */
  datatype Stmt =
    | PutListS(uid: Uid, list: List)
    | PutItemS(uid: Uid, item: Item)
    | DropListS(uid: Uid, now: Time)
    | DropItemS(uid: Uid, now: Time)
    | PutNameS(name: string)
    | PruneS(upTo: nat)

  ghost function Exec(db: Db, s: Stmt): Db
    requires Allowed(db, s)
  {
    match s
    case PutListS(u, row) => PutList(db, u, row)
    case PutItemS(u, row) => PutItem(db, u, row)
    case DropListS(u, now) => DropList(db, u, now)
    case DropItemS(u, now) => DropItem(db, u, now)
    case PutNameS(name) => PutName(db, name)
    case PruneS(upTo) => Prune(db, upTo)
  }

  /** Used now, or recorded as deleted (`uid_in_use_locked`, this room's part). */
  predicate InUse(db: Db, u: Uid) {
    u in db.lists || u in db.items || exists d :: d in db.deletions && d.uid == u
  }

  /**
    What the schema and the writers guarantee: a new row has an ID that is not in use, an item
    stays in its list, and a list goes only after its items (the foreign key).
   */
  predicate Allowed(db: Db, s: Stmt) {
    match s
    case PutListS(u, row) => u in db.lists || !InUse(db, u)
    case PutItemS(u, row) => row.list in db.lists && if u in db.items then db.items[u].list == row.list
        else !InUse(db, u)
    case DropListS(u, now) => u in db.lists && forall i :: i in db.items ==> db.items[i].list != u
    case DropItemS(u, now) => u in db.items
    case PutNameS(name) => true
    case PruneS(upTo) => upTo <= db.changeSeq
  }

  /** The tracking invariant. */
  ghost predicate Tracked(db: Db) {
    && (forall u :: u in db.lists ==> db.lists[u].changedSeq <= db.changeSeq)
    && (forall u :: u in db.items ==> db.items[u].changedSeq <= db.changeSeq && db.items[u].list in db.lists)
    && db.lists.Keys !! db.items.Keys
    && (forall d :: d in db.deletions ==>
      db.pruned < d.changedSeq <= db.changeSeq && d.uid !in db.lists && d.uid !in db.items)
    && db.pruned <= db.changeSeq
    && (forall l :: l in db.floors ==> db.floors[l] <= db.pruned)
  }

  lemma ExecTracked(db: Db, s: Stmt)
    requires Tracked(db) && Allowed(db, s)
    ensures Tracked(Exec(db, s))
    ensures Exec(db, s).changeSeq >= db.changeSeq && Exec(db, s).pruned >= db.pruned
    ensures !s.PruneS? ==> Exec(db, s).changeSeq == db.changeSeq + 1
  {
    if s.PruneS? {
      forall l | l in db.lists && Floor(db, l, s.upTo) > 0 ensures Floor(db, l, s.upTo) <= Max(db.pruned, s.upTo) {
        assert Floor(db, l, s.upTo) in (set d | d in db.deletions && d.list == l && d.changedSeq <= s.upTo ::
          d.changedSeq)
           + if l in db.floors then {db.floors[l]} else {};
      }
    }
  }

  /** A history: any statements of any writers, each allowed where it runs. */
  ghost predicate RunAllowed(db: Db, run: seq<Stmt>)
    decreases |run|
  {
    run == [] || (Allowed(db, run[0]) && RunAllowed(Exec(db, run[0]), run[1..]))
  }

  ghost function Run(db: Db, run: seq<Stmt>): Db
    requires RunAllowed(db, run)
    decreases |run|
  {
    if run == [] then db else Run(Exec(db, run[0]), run[1..])
  }

  lemma {:induction false} RunTracked(db: Db, run: seq<Stmt>)
    requires Tracked(db) && RunAllowed(db, run)
    ensures Tracked(Run(db, run)) && Run(db, run).changeSeq >= db.changeSeq
    decreases |run|
  {
    if run != [] {
      ExecTracked(db, run[0]);
      RunTracked(Exec(db, run[0]), run[1..]);
    }
  }

  lemma {:induction false} RunConcat(db: Db, a: seq<Stmt>, b: seq<Stmt>)
    requires RunAllowed(db, a) && RunAllowed(Run(db, a), b)
    ensures RunAllowed(db, a + b) && Run(db, a + b) == Run(Run(db, a), b)
    decreases |a|
  {
    if a == [] {
      assert a + b == b;
    } else {
      assert (a + b)[1..] == a[1..] + b;
      RunConcat(Exec(db, a[0]), a[1..], b);
    }
  }
}

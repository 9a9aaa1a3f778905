/** The changes feed (src/api/changes.py) and its application by the page (feed.ts). */
module ChangesFeed {
  import opened RoomModel
  import opened Tracking
  import opened Texts

  // What is published of a row: a list's tags are sent sorted, an item's cycle is not sent.

  function PublishList(row: List): List { row.(tags := SortTags(row.tags)) }
  function PublishItem(row: Item): Item { row.(cycle := None) }

  function PublishLists(lists: map<Uid, List>): map<Uid, List> { map u | u in lists :: PublishList(lists[u]) }
  function PublishItems(items: map<Uid, Item>): map<Uid, Item> { map u | u in items :: PublishItem(items[u]) }

  function ViewOf(db: Db): View {
    View(db.name, PublishLists(db.lists), PublishItems(db.items))
  }

  /** Published are all rows, with everything of them but an item's cycle; a list's tags are sent in order. */
  lemma AllIsPublished(db: Db)
    ensures var v := ViewOf(db);
      && v.name == db.name && v.lists.Keys == db.lists.Keys && v.items.Keys == db.items.Keys
      && (forall u :: u in db.items ==> v.items[u].(cycle := db.items[u].cycle) == db.items[u])
      && (forall l :: l in db.lists ==> v.lists[l].(tags := db.lists[l].tags) == db.lists[l])
      && forall l :: l in db.lists ==>
        Sorted(v.lists[l].tags) && multiset(v.lists[l].tags) == multiset(db.lists[l].tags)
  {
    hide SortTags;
    forall l | l in db.lists { SortShape(db.lists[l].tags); }
  }

  datatype Feed = Feed(
    roomSeq: nat, full: bool, name: string,
    lists: seq<(Uid, List)>, items: seq<(Uid, Item)>, deletions: seq<(Kind, Uid)>)

  /** A full snapshot: first load, a client ahead of the server, or one behind pruned records. */
  predicate NeedsFull(db: Db, since: nat) {
    since == 0 || since > db.changeSeq || since < db.pruned
  }

  function ChangedLists(db: Db, since: nat): map<Uid, List> {
    map u | u in db.lists && (NeedsFull(db, since) || db.lists[u].changedSeq > since) :: PublishList(db.lists[u])
  }

  function ChangedItems(db: Db, since: nat): map<Uid, Item> {
    map u | u in db.items && (NeedsFull(db, since) || db.items[u].changedSeq > since) :: PublishItem(db.items[u])
  }

  /** `rows` lists the entries of `m`, in any order. */
  ghost predicate Lists<T(!new)>(rows: seq<(Uid, T)>, m: map<Uid, T>) {
    && (forall r :: r in rows ==> r.0 in m && m[r.0] == r.1)
    && (forall u :: u in m ==> (u, m[u]) in rows)
  }

  ghost predicate Records(rows: seq<(Kind, Uid)>, deletions: set<Deletion>) {
    && (forall r :: r in rows ==> exists d :: d in deletions && r == (d.kind, d.uid))
    && (forall d :: d in deletions ==> (d.kind, d.uid) in rows)
  }

  /** `feed` is an answer of `changes?since` for these tables. */
  ghost predicate Answers(db: Db, since: nat, feed: Feed) {
    && feed.roomSeq == db.changeSeq && feed.name == db.name && feed.full == NeedsFull(db, since)
    && Lists(feed.lists, ChangedLists(db, since)) && Lists(feed.items, ChangedItems(db, since))
    && (if feed.full then feed.deletions == [] else Records(feed.deletions, After(db.deletions, since)))
  }

  function PutAll<T>(m: map<Uid, T>, rows: seq<(Uid, T)>): map<Uid, T> {
    if rows == [] then m
    else PutAll(m, rows[..|rows| - 1])[rows[|rows| - 1].0 := rows[|rows| - 1].1]
  }

  function Gone(kind: Kind, deletions: seq<(Kind, Uid)>): set<Uid> {
    set d | d in deletions && d.0 == kind :: d.1
  }

  /** The view after a feed: rows upserted by ID, deletions removed, a deleted list with its items. */
  function Merged(v: View, feed: Feed): View {
    var lists := PutAll(if feed.full then map[] else v.lists, feed.lists);
    var items := PutAll(if feed.full then map[] else v.items, feed.items);
    var goneLists := Gone(ListKind, feed.deletions);
    View(feed.name,
         lists - goneLists,
         map u | u in items && u !in Gone(ItemKind, feed.deletions) && items[u].list !in goneLists :: items[u])
  }

  /** The page's `mergeFeed`, loop by loop. */
  method MergeFeed(server: View, feed: Feed) returns (merged: View)
    ensures merged == Merged(server, feed)
  {
    hide PutAll;
    var lists := Upsert(if feed.full then map[] else server.lists, feed.lists);
    var items := Upsert(if feed.full then map[] else server.items, feed.items);
    ghost var allLists, allItems := lists, items;
    var deletedLists: set<Uid> := {};
    for i := 0 to |feed.deletions|
      invariant deletedLists == Gone(ListKind, feed.deletions[..i])
      invariant lists == allLists - deletedLists
      invariant items == allItems - Gone(ItemKind, feed.deletions[..i])
    {
      var (kind, uid) := feed.deletions[i];
      GoneSnoc(feed.deletions[..i], kind, uid);
      assert feed.deletions[..i + 1] == feed.deletions[..i] + [(kind, uid)];
      match kind
      case ListKind =>
        lists := lists - {uid};
        deletedLists := deletedLists + {uid};
      case ItemKind =>
        items := items - {uid};
    }
    assert feed.deletions[..|feed.deletions|] == feed.deletions;
    items := WithoutLists(items, deletedLists);
    merged := View(feed.name, lists, items);
    hide Gone;
  }

  lemma GoneSnoc(rows: seq<(Kind, Uid)>, kind: Kind, u: Uid)
    ensures Gone(kind, rows + [(kind, u)]) == Gone(kind, rows) + {u}
    ensures forall k :: k != kind ==> Gone(k, rows + [(kind, u)]) == Gone(k, rows)
  {
    forall k, x ensures x in Gone(k, rows + [(kind, u)]) <==> x in Gone(k, rows) || (k == kind && x == u) {
      assert (k, x) in rows + [(kind, u)] <==> (k, x) in rows || (k == kind && x == u);
    }
  }

  method Upsert<T>(base: map<Uid, T>, rows: seq<(Uid, T)>) returns (m: map<Uid, T>)
    ensures m == PutAll(base, rows)
  {
    m := base;
    for i := 0 to |rows|
      invariant m == PutAll(base, rows[..i])
    {
      assert rows[..i + 1][..i] == rows[..i];
      m := m[rows[i].0 := rows[i].1];
    }
    assert rows[..|rows|] == rows;
  }

  method WithoutLists(all: map<Uid, Item>, gone: set<Uid>) returns (items: map<Uid, Item>)
    ensures items == map u | u in all && all[u].list !in gone :: all[u]
  {
    items := all;
    var left := all.Keys;
    while left != {}
      invariant left <= items.Keys <= all.Keys
      invariant items == map u | u in all && (u in left || all[u].list !in gone) :: all[u]
      decreases left
    {
      var uid :| uid in left;
      if items[uid].list in gone { items := items - {uid}; }
      left := left - {uid};
    }
  }

  lemma {:induction false} PutAllIs<T(!new)>(base: map<Uid, T>, rows: seq<(Uid, T)>, m: map<Uid, T>)
    requires forall r :: r in rows ==> r.0 in m && m[r.0] == r.1
    ensures forall u :: u in PutAll(base, rows) <==> u in base || exists r :: r in rows && r.0 == u
    ensures forall u :: u in PutAll(base, rows) ==>
      PutAll(base, rows)[u] == if exists r :: r in rows && r.0 == u then m[u] else base[u]
  {
    if rows != [] {
      var last := rows[|rows| - 1];
      PutAllIs(base, rows[..|rows| - 1], m);
      assert forall r :: r in rows <==> r in rows[..|rows| - 1] || r == last;
    }
  }

  lemma PutAllLists<T(!new)>(base: map<Uid, T>, rows: seq<(Uid, T)>, m: map<Uid, T>)
    requires Lists(rows, m)
    ensures PutAll(base, rows) == base + m
  {
    PutAllIs(base, rows, m);
    assert forall u :: u in m <==> exists r :: r in rows && r.0 == u;
  }

  /**
    What ties a page that held the room at seq `n` to the tables now: rows unchanged since
    are the page's rows, and what went away left a record (or the record was pruned).
   */
  ghost predicate Covers(v: View, n: nat, db: Db) {
    && n <= db.changeSeq
    && (forall u :: u in db.lists && db.lists[u].changedSeq <= n ==>
      u in v.lists && v.lists[u] == PublishList(db.lists[u]))
    && (forall u :: u in db.items && db.items[u].changedSeq <= n ==>
      u in v.items && v.items[u] == PublishItem(db.items[u]))
    && (n >= db.pruned ==> GoneLists(v, n, db) && GoneItems(v, n, db))
  }

  ghost predicate GoneLists(v: View, n: nat, db: Db) {
    forall u :: u in v.lists && u !in db.lists ==> DeletedSince(db, n, ListKind, u)
  }

  ghost predicate GoneItems(v: View, n: nat, db: Db) {
    forall u :: u in v.items && u !in db.items ==> DeletedSince(db, n, ItemKind, u)
  }

  ghost predicate DeletedSince(db: Db, n: nat, kind: Kind, u: Uid) {
    exists d :: d in db.deletions && d.kind == kind && d.uid == u && d.changedSeq > n
  }

  lemma CoversStart(db: Db)
    requires Tracked(db)
    ensures Covers(ViewOf(db), db.changeSeq, db)
  {
  }

  lemma DeletedStays(a: Db, b: Db, n: nat, kind: Kind, u: Uid)
    requires DeletedSince(a, n, kind, u) && (forall d :: d in a.deletions && d.changedSeq > n ==> d in b.deletions)
    ensures DeletedSince(b, n, kind, u)
  {
    var d :| d in a.deletions && d.kind == kind && d.uid == u && d.changedSeq > n;
    assert d in b.deletions;
  }

  lemma GoneExec(v: View, n: nat, db: Db, s: Stmt)
    requires Tracked(db) && Allowed(db, s) && Covers(v, n, db) && n >= Exec(db, s).pruned
    ensures GoneLists(v, n, Exec(db, s)) && GoneItems(v, n, Exec(db, s))
  {
    var b := Exec(db, s);
    forall u | u in v.lists && u !in b.lists ensures DeletedSince(b, n, ListKind, u) {
      if u in db.lists {
        assert Deletion(ListKind, u, u, b.changeSeq, s.now) in b.deletions;
      } else {
        DeletedStays(db, b, n, ListKind, u);
      }
    }
    forall u | u in v.items && u !in b.items ensures DeletedSince(b, n, ItemKind, u) {
      if u in db.items {
        assert Deletion(ItemKind, u, db.items[u].list, b.changeSeq, s.now) in b.deletions;
      } else {
        DeletedStays(db, b, n, ItemKind, u);
      }
    }
  }

  lemma CoversExec(v: View, n: nat, db: Db, s: Stmt)
    requires Tracked(db) && Allowed(db, s) && Covers(v, n, db)
    ensures Covers(v, n, Exec(db, s))
  {
    if n >= Exec(db, s).pruned { GoneExec(v, n, db, s); }
  }

  lemma {:induction false} CoversRun(v: View, n: nat, db: Db, run: seq<Stmt>)
    requires Tracked(db) && RunAllowed(db, run) && Covers(v, n, db)
    ensures Tracked(Run(db, run)) && Covers(v, n, Run(db, run))
    decreases |run|
  {
    if run != [] {
      ExecTracked(db, run[0]);
      CoversExec(v, n, db, run[0]);
      CoversRun(v, n, Exec(db, run[0]), run[1..]);
    }
  }

  /** Of a full feed nothing is removed, and nothing of the page's own data stays. */
  lemma MergedFull(v: View, feed: Feed)
    requires feed.full && feed.deletions == []
    ensures Merged(v, feed) == View(feed.name, PutAll(map[], feed.lists), PutAll(map[], feed.items))
  {
    hide PutAll;
    assert Gone(ListKind, feed.deletions) == {} && Gone(ItemKind, feed.deletions) == {};
    var lists, items := PutAll(map[], feed.lists), PutAll(map[], feed.items);
    assert lists - {} == lists;
    assert (map u | u in items && u !in {} && items[u].list !in {} :: items[u]) == items;
  }

  lemma AllRows(db: Db, since: nat)
    requires NeedsFull(db, since)
    ensures ChangedLists(db, since) == ViewOf(db).lists && ChangedItems(db, since) == ViewOf(db).items
  {
    hide PublishList, PublishItem, NeedsFull;
  }

  /** A full snapshot replaces whatever the page had. */
  lemma FullFeed(v: View, since: nat, db: Db, feed: Feed)
    requires NeedsFull(db, since) && Answers(db, since, feed)
    ensures Merged(v, feed) == ViewOf(db)
  {
    hide NeedsFull, ChangedLists, ChangedItems, Lists, PutAll, Merged;
    PutAllLists(map[], feed.lists, ChangedLists(db, since));
    PutAllLists(map[], feed.items, ChangedItems(db, since));
    MergedFull(v, feed);
    AllRows(db, since);
    hide ViewOf;
    assert map[] + ChangedLists(db, since) == ChangedLists(db, since)
      && map[] + ChangedItems(db, since) == ChangedItems(db, since);
  }

  /** What the records name is exactly what the page must forget, and nothing that lives. */
  lemma GoneIs(v: View, since: nat, db: Db, rows: seq<(Kind, Uid)>, kind: Kind)
    requires Tracked(db) && Records(rows, After(db.deletions, since))
    ensures forall u :: u in Gone(kind, rows) ==> u !in db.lists && u !in db.items
    ensures forall u :: DeletedSince(db, since, kind, u) ==> u in Gone(kind, rows)
  {
    forall u | u in Gone(kind, rows) ensures u !in db.lists && u !in db.items {
      var r :| r in rows && r.0 == kind && r.1 == u;
      var d :| d in After(db.deletions, since) && r == (d.kind, d.uid);
    }
    forall u | DeletedSince(db, since, kind, u) ensures u in Gone(kind, rows) {
      var d :| d in db.deletions && d.kind == kind && d.uid == u && d.changedSeq > since;
      assert d in After(db.deletions, since) && (d.kind, d.uid) in rows;
    }
  }

  lemma DeltaLists(v: View, since: nat, db: Db, gone: set<Uid>)
    requires Covers(v, since, db) && !NeedsFull(db, since)
    requires forall u :: u in gone ==> u !in db.lists
    requires forall u :: DeletedSince(db, since, ListKind, u) ==> u in gone
    ensures v.lists + ChangedLists(db, since) - gone == ViewOf(db).lists
  {
    var l, w := v.lists + ChangedLists(db, since) - gone, ViewOf(db).lists;
    forall u ensures (u in l <==> u in w) && (u in w ==> l[u] == w[u]) {}
  }

  /** The page's rows with the changed ones on top: the published row of every item that lives. */
  lemma DeltaRows(v: View, since: nat, db: Db)
    requires Covers(v, since, db) && !NeedsFull(db, since)
    ensures var all := v.items + ChangedItems(db, since);
      && (forall u :: u in db.items ==> u in all && all[u] == PublishItem(db.items[u]))
      && (forall u :: u in all && u !in db.items ==> u in v.items && DeletedSince(db, since, ItemKind, u))
  {
    hide PublishItem, PublishList, DeletedSince;
  }

  lemma DeltaItems(v: View, since: nat, db: Db, gone: set<Uid>, goneLists: set<Uid>)
    requires Tracked(db) && Covers(v, since, db) && !NeedsFull(db, since)
    requires forall u :: u in gone ==> u !in db.items
    requires forall u :: u in goneLists ==> u !in db.lists
    requires forall u :: DeletedSince(db, since, ItemKind, u) ==> u in gone
    ensures var all := v.items + ChangedItems(db, since);
      (map u | u in all && u !in gone && all[u].list !in goneLists :: all[u]) == ViewOf(db).items
  {
    hide PublishList, Covers, NeedsFull, ChangedItems, DeletedSince;
    var all, w := v.items + ChangedItems(db, since), ViewOf(db).items;
    DeltaRows(v, since, db);
    forall u ensures (u in all && u !in gone && all[u].list !in goneLists <==> u in w) && (u in w ==> all[u] == w[u]) {
      if u in all && u !in db.items { assert u in v.items && DeletedSince(db, since, ItemKind, u); }
    }
  }

  lemma DeltaFeed(v: View, since: nat, db: Db, feed: Feed)
    requires Tracked(db) && Covers(v, since, db) && !NeedsFull(db, since) && Answers(db, since, feed)
    ensures Merged(v, feed) == ViewOf(db)
  {
    GoneIs(v, since, db, feed.deletions, ListKind);
    GoneIs(v, since, db, feed.deletions, ItemKind);
    PutAllLists(v.lists, feed.lists, ChangedLists(db, since));
    PutAllLists(v.items, feed.items, ChangedItems(db, since));
    DeltaLists(v, since, db, Gone(ListKind, feed.deletions));
    DeltaItems(v, since, db, Gone(ItemKind, feed.deletions), Gone(ListKind, feed.deletions));
  }

  lemma FirstIn<T>(rows: seq<T>)
    ensures rows == [] || rows[0] in rows
  {
  }

  /** A page that missed no pruned record is sent the news since its seq and nothing else; without news, nothing. */
  lemma OnlyNews(db: Db, since: nat, feed: Feed)
    requires Tracked(db) && Answers(db, since, feed) && 0 < since <= db.changeSeq && db.pruned <= since
    ensures !feed.full
    ensures forall r :: r in feed.lists ==> r.0 in db.lists && db.lists[r.0].changedSeq > since
    ensures forall r :: r in feed.items ==> r.0 in db.items && db.items[r.0].changedSeq > since
    ensures forall r :: r in feed.deletions ==> DeletedSince(db, since, r.0, r.1)
    ensures since == db.changeSeq ==> feed.lists == [] && feed.items == [] && feed.deletions == []
  {
    forall r | r in feed.deletions ensures DeletedSince(db, since, r.0, r.1) {
      var d :| d in After(db.deletions, since) && r == (d.kind, d.uid);
    }
    FirstIn(feed.lists);
    FirstIn(feed.items);
    FirstIn(feed.deletions);
  }

  /**
    Feed convergence: a page that holds exactly the room at seq n and merges an answer to
    `since=n` holds exactly the room at the answered seq, after any history in between
    (writes, list deletes, pruning, IDs used again after their record was pruned).
   */
  lemma FeedConvergence(db: Db, run: seq<Stmt>, feed: Feed)
    requires Tracked(db) && RunAllowed(db, run) && Answers(Run(db, run), db.changeSeq, feed)
    ensures Merged(ViewOf(db), feed) == ViewOf(Run(db, run)) && feed.roomSeq == Run(db, run).changeSeq
  {
    CoversStart(db);
    CoversRun(ViewOf(db), db.changeSeq, db, run);
    if NeedsFull(Run(db, run), db.changeSeq) {
      FullFeed(ViewOf(db), db.changeSeq, Run(db, run), feed);
    } else {
      DeltaFeed(ViewOf(db), db.changeSeq, Run(db, run), feed);
    }
  }

  /** States of one history with the same seq look the same, so the seq names what a page holds. */
  lemma {:induction false} SameSeqSameView(db: Db, run: seq<Stmt>)
    requires Tracked(db) && RunAllowed(db, run) && Run(db, run).changeSeq == db.changeSeq
    ensures ViewOf(Run(db, run)) == ViewOf(db)
    decreases |run|
  {
    if run != [] {
      ExecTracked(db, run[0]);
      RunTracked(Exec(db, run[0]), run[1..]);
      SameSeqSameView(Exec(db, run[0]), run[1..]);
    }
  }
}
